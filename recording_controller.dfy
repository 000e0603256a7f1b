/**
 * The chunk upload handler. A request must carry a file, then the chunk metadata;
 * the chunk is stored under a key built from the session, participant and chunk
 * number, and only after the upload succeeds is a metadata row inserted. Numbers are
 * read with JavaScript's `parseInt(…, 10)`.
 */
module RecordingController {
  import opened Common

  // ---------------------------------------------------------------------------
  // `parseInt(s, 10)`

  /** The characters `parseInt` skips at the front: white space and line terminators. */
  predicate IsJsSpace(c: char) {
    var n := c as int;
    (0x09 <= n <= 0x0D) || n == 0x20 || n == 0xA0 || n == 0x1680 || (0x2000 <= n <= 0x200A)
    || n == 0x2028 || n == 0x2029 || n == 0x202F || n == 0x205F || n == 0x3000 || n == 0xFEFF
  }

  function TrimStart(s: string): (r: string)
    ensures |r| <= |s| && r == s[|s| - |r|..]
    ensures r == [] || !IsJsSpace(r[0])
    ensures forall i :: 0 <= i < |s| - |r| ==> IsJsSpace(s[i])
    decreases |s|
  {
    if s != [] && IsJsSpace(s[0]) then TrimStart(s[1..]) else s
  }

  /** The longest run of decimal digits at the front of `s`. */
  function DigitPrefix(s: string): (d: string)
    ensures |d| <= |s| && d == s[..|d|] && AllDigits(d)
    ensures |d| == |s| || !IsDigit(s[|d|])
    decreases |s|
  {
    if s != [] && IsDigit(s[0]) then [s[0]] + DigitPrefix(s[1..]) else []
  }

  /** `parseInt(s, 10)`; `None` stands for `NaN`, the result when no digit follows the optional sign. */
  function ParseInt(s: string): (r: Option<int>)
    ensures (forall i :: 0 <= i < |s| ==> !IsDigit(s[i])) ==> r.None?
    ensures r.Some? && r.value < 0 ==> TrimStart(s)[0] == '-'
  {
    ParseSigned(TrimStart(s))
  }

  /** `parseInt` once the leading white space is gone: an optional sign, then the leading digits. */
  function ParseSigned(t: string): (r: Option<int>)
    ensures (forall i :: 0 <= i < |t| ==> !IsDigit(t[i])) ==> r.None?
    ensures r.Some? && r.value < 0 ==> t[0] == '-'
  {
    var negative := t != [] && t[0] == '-';
    var body := if t != [] && (t[0] == '-' || t[0] == '+') then t[1..] else t;
    var digits := DigitPrefix(body);
    var value: int := DigitsValue(digits);
    if digits == [] then None else Some(if negative then -value else value)
  }

  lemma TrimStartKeeps(t: string)
    requires t != [] && !IsJsSpace(t[0])
    ensures TrimStart(t) == t
  {
  }

  lemma {:induction false} DigitPrefixOfDigits(d: string, rest: string)
    requires AllDigits(d)
    requires rest == [] || !IsDigit(rest[0])
    ensures DigitPrefix(d + rest) == d
    decreases |d|
  {
    if d != [] {
      assert (d + rest)[1..] == d[1..] + rest;
      DigitPrefixOfDigits(d[1..], rest);
      assert [d[0]] + d[1..] == d;
    } else {
      assert d + rest == rest;
    }
  }

  /** Digits followed by anything that is not a digit read as the value of the digits (`"12.5"` reads as 12). */
  lemma ParseLeadingDigits(d: string, rest: string)
    requires d != [] && AllDigits(d)
    requires rest == [] || !IsDigit(rest[0])
    ensures ParseInt(d + rest) == Some(DigitsValue(d))
  {
    var t := d + rest;
    assert t[0] == d[0] && IsDigit(t[0]);
    TrimStartKeeps(t);
    DigitPrefixOfDigits(d, rest);
    assert ParseSigned(t) == Some(DigitsValue(d) as int);
  }

  lemma NegativeSign(t: string)
    requires t != [] && t[0] == '-'
    ensures var digits := DigitPrefix(t[1..]);
            ParseSigned(t) == if digits == [] then None else Some(-(DigitsValue(digits) as int))
  {
  }

  /** A minus sign before digits negates their value. */
  lemma ParseNegatedDigits(d: string)
    requires d != [] && AllDigits(d)
    ensures ParseInt("-" + d) == Some(-(DigitsValue(d) as int))
  {
    var t := "-" + d;
    assert t[0] == '-' && t[1..] == d;
    assert !IsJsSpace(t[0]);
    TrimStartKeeps(t);
    DigitPrefixOfDigits(d, []);
    assert d + [] == d;
    NegativeSign(t);
  }

  lemma ParseNatRoundTrip(n: nat)
    ensures ParseInt(NatToString(n)) == Some(n)
  {
    ParseLeadingDigits(NatToString(n), []);
    assert NatToString(n) + [] == NatToString(n);
    DigitsValueOfNatToString(n);
  }

  lemma ParseNegativeRoundTrip(n: nat)
    requires n > 0
    ensures ParseInt("-" + NatToString(n)) == Some(-(n as int))
  {
    var d := NatToString(n);
    DigitsValueOfNatToString(n);
    ParseNegatedDigits(d);
    assert -(DigitsValue(d) as int) == -(n as int);
  }

  /** `parseInt` reads back what `toString` writes, for every integer. */
  lemma ParseIntRoundTrip(i: int)
    ensures ParseInt(IntToString(i)) == Some(i)
  {
    if i < 0 {
      ParseNegativeRoundTrip(-i);
    } else {
      ParseNatRoundTrip(i);
    }
  }

  // ---------------------------------------------------------------------------
  // Blob key

  const KeyRoot := "podrec/sessions/"

  /** The storage key of a chunk: `podrec/sessions/<session>/<participant>_chunk_<number>`, the number as sent. */
  function ChunkKey(sessionId: string, participantId: string, chunkNumber: string): string {
    KeyRoot + sessionId + "/" + participantId + "_chunk_" + chunkNumber
  }

  /** A chunk key lies in the session's folder and ends with the chunk number as sent. */
  lemma ChunkKeyLayout(sessionId: string, participantId: string, chunkNumber: string)
    ensures StartsWith(ChunkKey(sessionId, participantId, chunkNumber), KeyRoot + sessionId + "/")
    ensures EndsWith(ChunkKey(sessionId, participantId, chunkNumber), "_chunk_" + chunkNumber)
  {
    var key := ChunkKey(sessionId, participantId, chunkNumber);
    assert key == (KeyRoot + sessionId + "/") + participantId + ("_chunk_" + chunkNumber);
  }

  /** With no `/` in session ids and no `_` in participant ids, distinct chunks get distinct keys. */
  lemma ChunkKeyInjective(s1: string, p1: string, n1: string, s2: string, p2: string, n2: string)
    requires '/' !in s1 && '/' !in s2 && '_' !in p1 && '_' !in p2
    requires ChunkKey(s1, p1, n1) == ChunkKey(s2, p2, n2)
    ensures s1 == s2 && p1 == p2 && n1 == n2
  {
    var t1, t2 := p1 + ['_'] + ("chunk_" + n1), p2 + ['_'] + ("chunk_" + n2);
    assert s1 + ['/'] + t1 == s2 + ['/'] + t2 by {
      ChunkKeyParts(s1, p1, n1);
      ChunkKeyParts(s2, p2, n2);
      var k := ChunkKey(s1, p1, n1);
      assert k[|KeyRoot|..] == s1 + ['/'] + t1;
      assert k[|KeyRoot|..] == s2 + ['/'] + t2;
    }
    SplitAtSeparator(s1, t1, s2, t2, '/');
    SplitAtSeparator(p1, "chunk_" + n1, p2, "chunk_" + n2, '_');
    assert n1 == ("chunk_" + n1)[6..] && n2 == ("chunk_" + n2)[6..];
  }

  /** A chunk key is the root, then the session, `/`, the participant, `_` and `chunk_` with the number. */
  lemma ChunkKeyParts(sessionId: string, participantId: string, chunkNumber: string)
    ensures ChunkKey(sessionId, participantId, chunkNumber)
         == KeyRoot + (sessionId + ['/'] + (participantId + ['_'] + ("chunk_" + chunkNumber)))
  {
  }

  /** Without the `_` restriction two different chunks can share a key. */
  lemma ChunkKeyCollision()
    ensures ChunkKey("s", "a_chunk_1", "2") == ChunkKey("s", "a", "1_chunk_2")
  {
  }

  // ---------------------------------------------------------------------------
  // The handler

  /** The multipart form fields; an absent field is `None`. */
  datatype ChunkForm = ChunkForm(participantId: Option<string>, chunkNumber: Option<string>, durationMs: Option<string>)

  datatype UploadResult = UploadResult(publicId: string, bytes: int)

  /** The metadata row; a number field that did not parse is `None` (`NaN`). */
  datatype ChunkRecord = ChunkRecord(participantId: string, chunkNumber: Option<int>, filePath: string, fileSize: int,
                                     durationMs: Option<int>)

  datatype Call = UploadCall(publicId: string) | SaveCall(row: ChunkRecord)

  datatype Reply =
    | TextReply(status: int, text: string)
    | JsonReply(status: int, message: string, publicId: Option<string>)

  datatype Handled = Handled(calls: seq<Call>, reply: Reply)

  predicate Complete(form: ChunkForm) {
    Truthy(form.participantId) && Truthy(form.chunkNumber) && Truthy(form.durationMs)
  }

  function RecordOf(form: ChunkForm, result: UploadResult): ChunkRecord
    requires Complete(form)
  {
    ChunkRecord(form.participantId.value, ParseInt(form.chunkNumber.value), result.publicId, result.bytes,
                ParseInt(form.durationMs.value))
  }

  /** The upload of the chunk under its key. */
  function UploadOf(sessionId: string, form: ChunkForm): Call
    requires Complete(form)
  {
    UploadCall(ChunkKey(sessionId, form.participantId.value, form.chunkNumber.value))
  }

  /**
   * `uploadChunkHandler`, given whether a file arrived, the form, what the upload
   * returns (or that it threw) and whether the metadata insert succeeds.
   */
  function UploadChunkHandler(hasFile: bool, sessionId: string, form: ChunkForm,
                              uploaded: Result<UploadResult, string>, saved: bool): (h: Handled)
    ensures !hasFile ==> h == Handled([], TextReply(400, "No file uploaded."))
    ensures hasFile && !Complete(form) ==> h == Handled([], JsonReply(400, "Missing required chunk metadata", None))
    ensures hasFile && Complete(form) && uploaded.Ok? ==>
              h.calls == [UploadOf(sessionId, form), SaveCall(RecordOf(form, uploaded.value))]
              && h.reply == if saved then JsonReply(201, "Chunk uploaded successfully to Cloudinary", Some(uploaded.value.publicId))
                            else JsonReply(500, "Error processing chunk", None)
    ensures hasFile && Complete(form) && uploaded.Err? ==>
              h.calls == [UploadOf(sessionId, form)] && h.reply == JsonReply(500, "Error processing chunk", None)
  {
    if !hasFile then Handled([], TextReply(400, "No file uploaded."))
    else if !Complete(form) then Handled([], JsonReply(400, "Missing required chunk metadata", None))
    else
      var upload := UploadOf(sessionId, form);
      match uploaded
      case Err(_) => Handled([upload], JsonReply(500, "Error processing chunk", None))
      case Ok(result) =>
        var calls := [upload, SaveCall(RecordOf(form, result))];
        if saved then Handled(calls, JsonReply(201, "Chunk uploaded successfully to Cloudinary", Some(result.publicId)))
        else Handled(calls, JsonReply(500, "Error processing chunk", None))
  }

  function Uploads(calls: seq<Call>): (n: nat)
    ensures n <= |calls|
    decreases |calls|
  {
    if calls == [] then 0 else (if calls[0].UploadCall? then 1 else 0) + Uploads(calls[1..])
  }

  function Saves(calls: seq<Call>): (n: nat)
    ensures n <= |calls|
    decreases |calls|
  {
    if calls == [] then 0 else (if calls[0].SaveCall? then 1 else 0) + Saves(calls[1..])
  }

  /**
   * A request is accepted exactly when it performs an upload; it then performs exactly
   * one upload, and at most one save, which comes after the upload and happens exactly
   * when the upload succeeded. The status is 201 exactly when both succeeded.
   */
  lemma {:induction false} OneUploadThenOneSave(hasFile: bool, sessionId: string, form: ChunkForm,
                                                uploaded: Result<UploadResult, string>, saved: bool)
    ensures var h := UploadChunkHandler(hasFile, sessionId, form, uploaded, saved);
            && Uploads(h.calls) == (if hasFile && Complete(form) then 1 else 0)
            && Saves(h.calls) == (if hasFile && Complete(form) && uploaded.Ok? then 1 else 0)
            && (Saves(h.calls) == 1 ==> h.calls[0].UploadCall? && h.calls[1].SaveCall?)
            && (h.reply.status == 201 <==> hasFile && Complete(form) && uploaded.Ok? && saved)
  {
    var h := UploadChunkHandler(hasFile, sessionId, form, uploaded, saved);
    if hasFile && Complete(form) {
      if uploaded.Ok? {
        assert h.calls[1..][1..] == [];
      } else {
        assert h.calls[1..] == [];
      }
    }
  }
}
