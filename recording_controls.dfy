/**
 * The recording controls: the elapsed-time label `mm:ss` and the record button,
 * which starts or stops recording depending on the current state. Minutes use
 * floor division, seconds JavaScript's `%` (the sign of the dividend), and both
 * fields are left-padded with '0' to two characters.
 */
module RecordingControls {
  import opened Common

  /** `a % b` in JavaScript: the remainder takes the sign of `a`. */
  function JsRem(a: int, b: int): (r: int)
    requires b > 0
    ensures a >= 0 ==> 0 <= r < b && a == (a / b) * b + r
    ensures a < 0 ==> -b < r <= 0 && a == -((-a) / b) * b + r
  {
    if a >= 0 then a % b else -((-a) % b)
  }

  /** `n.toString().padStart(2, "0")`. */
  function Pad2(n: int): string {
    PadStart(IntToString(n), 2, '0')
  }

  /**
   * `formatDuration`: minutes, a colon, seconds. Both fields are at least two characters,
   * and for a non-negative duration the label ends in a colon and two digits.
   */
  function FormatDuration(seconds: int): (text: string)
    ensures |text| >= 5
    ensures seconds >= 0 ==> text[|text| - 3] == ':' && IsDigit(text[|text| - 2]) && IsDigit(text[|text| - 1])
  {
    SecondsField(seconds);
    Pad2(seconds / 60) + ":" + Pad2(JsRem(seconds, 60))
  }

  /** The seconds field is never shorter than two characters; for a non-negative duration it is two digits. */
  lemma SecondsField(seconds: int)
    ensures |Pad2(JsRem(seconds, 60))| >= 2
    ensures seconds >= 0 ==> |Pad2(JsRem(seconds, 60))| == 2 && AllDigits(Pad2(JsRem(seconds, 60)))
  {
    if seconds >= 0 {
      Pad2Digits(JsRem(seconds, 60));
    }
  }

  /** A padded non-negative field is all digits, at least two of them, and reads back as the number. */
  lemma Pad2Digits(n: nat)
    ensures AllDigits(Pad2(n)) && DigitsValue(Pad2(n)) == n
    ensures |Pad2(n)| == if n < 100 then 2 else |NatToString(n)|
  {
    var digits := NatToString(n);
    var p := Pad2(n);
    NatToStringLength(n);
    LeadingZeros(digits, |p| - |digits|);
    DigitsValueOfNatToString(n);
  }

  /** Below 100 minutes the label is `mm:ss`: five characters with the colon in the middle. */
  lemma FormatShape(seconds: int)
    requires 0 <= seconds < 6000
    ensures |FormatDuration(seconds)| == 5 && FormatDuration(seconds)[2] == ':'
  {
    Pad2Digits(seconds / 60);
    Pad2Digits(JsRem(seconds, 60));
  }

  /** For a non-negative duration the label splits at its colon into the two padded fields. */
  lemma Fields(seconds: nat)
    ensures Split(FormatDuration(seconds), ':') == [Pad2(seconds / 60), Pad2(JsRem(seconds, 60))]
  {
    var m, s := Pad2(seconds / 60), Pad2(JsRem(seconds, 60));
    Pad2Digits(seconds / 60);
    Pad2Digits(JsRem(seconds, 60));
    DigitsHaveNoColon(m);
    DigitsHaveNoColon(s);
    assert FormatDuration(seconds) == m + [':'] + s;
    assert Join([m, s], ':') == m + [':'] + s;
    SplitJoin([m, s], ':');
  }

  lemma DigitsHaveNoColon(d: string)
    requires AllDigits(d)
    ensures ':' !in d
  {
    forall i | 0 <= i < |d| ensures d[i] != ':' { assert IsDigit(d[i]); }
  }

  /** Reading both fields back gives the minutes and the seconds: `mins * 60 + secs == seconds`, `secs < 60`. */
  lemma FormatRoundTrip(seconds: nat)
    ensures var fields := Split(FormatDuration(seconds), ':');
            && |fields| == 2 && AllDigits(fields[0]) && AllDigits(fields[1])
            && DigitsValue(fields[1]) < 60
            && DigitsValue(fields[0]) * 60 + DigitsValue(fields[1]) == seconds
  {
    Fields(seconds);
    Pad2Digits(seconds / 60);
    Pad2Digits(JsRem(seconds, 60));
  }

  /** Minutes are not capped: from 100 minutes on the minutes field has three or more digits. */
  lemma MinutesUncapped(seconds: int)
    requires seconds >= 6000
    ensures |Split(FormatDuration(seconds), ':')[0]| >= 3
  {
    Fields(seconds);
    Pad2Digits(seconds / 60);
    NatToStringLength(seconds / 60);
  }

  /** The store action the record button calls. */
  datatype RecordingCall = StartRecording | StopRecording

  /** `handleRecordingToggle`: exactly one call, a stop exactly when recording. */
  function HandleRecordingToggle(isRecording: bool): (calls: seq<RecordingCall>)
    ensures |calls| == 1
    ensures calls[0] == StopRecording <==> isRecording
    ensures calls[0] == StartRecording <==> !isRecording
  {
    if isRecording then [StopRecording] else [StartRecording]
  }
}
