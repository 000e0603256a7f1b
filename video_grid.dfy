/**
 * The video grid: a synthetic tile for the local user, followed by the store's
 * participant tiles, laid out in a number of columns chosen from the tile count.
 * The Tailwind class string is read back as two column counts: the base one
 * (`grid-cols-N`) and the one from the `lg` breakpoint on (`lg:grid-cols-M`,
 * otherwise the base count).
 */
module VideoGrid {
  import opened Common
  import opened StudioStore

  /** The tile shown for the local user: id "local", name "You", audio and video on. */
  function LocalTile(localStream: MediaStream?): Participant {
    Participant("local", "You", true, true, true, localStream)
  }

  /** `allParticipants`: the local tile first, then the store's participants in their order. */
  function AllParticipants(participants: seq<Participant>, localStream: MediaStream?): (all: seq<Participant>)
    ensures |all| == |participants| + 1
    ensures all[0] == LocalTile(localStream) && all[1..] == participants
  {
    [LocalTile(localStream)] + participants
  }

  const OneColumn := "grid-cols-1"
  const OneThenTwoColumns := "grid-cols-1 lg:grid-cols-2"
  const TwoColumns := "grid-cols-2"
  const TwoThenThreeColumns := "grid-cols-2 lg:grid-cols-3"

  /**
   * `getGridCols`. Read back, the classes say one column up to two tiles (two on large
   * screens for two), two up to four, then two, or three on large screens.
   */
  function GridCols(count: int): (cls: string)
    ensures BaseColumns(cls) == if count <= 2 then 1 else 2
    ensures LargeColumns(cls) == if count <= 1 then 1 else if count <= 4 then 2 else 3
  {
    SingleClassesReadBack();
    DoubleClassesReadBack();
    if count <= 1 then OneColumn
    else if count <= 2 then OneThenTwoColumns
    else if count <= 4 then TwoColumns
    else TwoThenThreeColumns
  }

  const BasePrefix := "grid-cols-"
  const LargePrefix := " lg:grid-cols-"

  /** The digit after `prefix` when `token` is exactly `prefix` and one digit. */
  function ColumnsAfter(token: string, prefix: string): nat {
    if |token| == |prefix| + 1 && token[..|prefix|] == prefix && IsDigit(token[|prefix|])
    then DigitValue(token[|prefix|]) else 0
  }

  /** The column count below the `lg` breakpoint. */
  function BaseColumns(cls: string): nat {
    if |cls| < |BasePrefix| + 1 then 0 else ColumnsAfter(cls[..|BasePrefix| + 1], BasePrefix)
  }

  /** The column count from the `lg` breakpoint on: the `lg:` class when there is one, else the base count. */
  function LargeColumns(cls: string): nat {
    if |cls| > |BasePrefix| + 1 then ColumnsAfter(cls[|BasePrefix| + 1..], LargePrefix) else BaseColumns(cls)
  }

  /** `grid-cols-N` reads back as N columns at both breakpoints. */
  lemma ReadBase(n: nat)
    requires n < 10
    ensures BaseColumns(BasePrefix + [DigitChar(n)]) == n
    ensures LargeColumns(BasePrefix + [DigitChar(n)]) == n
  {
    assert (BasePrefix + [DigitChar(n)])[..|BasePrefix|] == BasePrefix;
  }

  /** `grid-cols-N lg:grid-cols-M` reads back as N columns, and M from the `lg` breakpoint on. */
  lemma ReadBoth(n: nat, m: nat)
    requires n < 10 && m < 10
    ensures BaseColumns(BasePrefix + [DigitChar(n)] + LargePrefix + [DigitChar(m)]) == n
    ensures LargeColumns(BasePrefix + [DigitChar(n)] + LargePrefix + [DigitChar(m)]) == m
  {
    var cls := BasePrefix + [DigitChar(n)] + LargePrefix + [DigitChar(m)];
    assert cls[..|BasePrefix| + 1] == BasePrefix + [DigitChar(n)];
    assert cls[|BasePrefix| + 1..] == LargePrefix + [DigitChar(m)];
    ReadBase(n);
    assert (LargePrefix + [DigitChar(m)])[..|LargePrefix|] == LargePrefix;
  }

  lemma SingleClassesReadBack()
    ensures BaseColumns(OneColumn) == 1 && LargeColumns(OneColumn) == 1
    ensures BaseColumns(TwoColumns) == 2 && LargeColumns(TwoColumns) == 2
  {
    assert OneColumn == BasePrefix + [DigitChar(1)];
    ReadBase(1);
    assert TwoColumns == BasePrefix + [DigitChar(2)];
    ReadBase(2);
  }

  lemma DoubleClassesReadBack()
    ensures BaseColumns(OneThenTwoColumns) == 1 && LargeColumns(OneThenTwoColumns) == 2
    ensures BaseColumns(TwoThenThreeColumns) == 2 && LargeColumns(TwoThenThreeColumns) == 3
  {
    assert OneThenTwoColumns == BasePrefix + [DigitChar(1)] + LargePrefix + [DigitChar(2)];
    ReadBoth(1, 2);
    assert TwoThenThreeColumns == BasePrefix + [DigitChar(2)] + LargePrefix + [DigitChar(3)];
    ReadBoth(2, 3);
  }

  /** More tiles never mean fewer columns, at either breakpoint. */
  lemma GridColumnsMonotone(a: int, b: int)
    requires a <= b
    ensures BaseColumns(GridCols(a)) <= BaseColumns(GridCols(b))
    ensures LargeColumns(GridCols(a)) <= LargeColumns(GridCols(b))
  {
  }

  /** `isMainView`: a tile is the main view when it is the only tile, that is when the store holds no participant. */
  function IsMainView(participants: seq<Participant>, localStream: MediaStream?): (main: bool)
    ensures main <==> participants == []
  {
    |AllParticipants(participants, localStream)| == 1
  }

  /** The grid has a single column on every screen exactly when the store holds no participant. */
  lemma SingleColumnIffAlone(participants: seq<Participant>, localStream: MediaStream?)
    ensures var cls := GridCols(|AllParticipants(participants, localStream)|);
            BaseColumns(cls) == 1 && LargeColumns(cls) == 1 <==> participants == []
  {
  }
}
