/**
 * The `mm:ss` formatter that the recognition screen, the diarization screen and both voice input
 * widgets each define: whole minutes and the remaining seconds, each padded to two digits.
 */
module TimeFormat {
  import opened Wrappers
  import opened Text

  /** `s.padStart(2, '0')`: strings already two characters long or longer are left alone. */
  function PadTwo(s: string): (r: string)
    ensures |s| >= 2 ==> r == s
    ensures |s| < 2 ==> |r| == 2 && r[2 - |s|..] == s && forall i :: 0 <= i < 2 - |s| ==> r[i] == '0'
  {
    if |s| >= 2 then s else if |s| == 1 then "0" + s else "00"
  }

  /** `formatTime(seconds)` for a whole, non-negative number of seconds. */
  function FormatTime(seconds: nat): (r: string)
    ensures |r| >= 5 && r[|r| - 3] == ':'
    ensures AllDigits(r[..|r| - 3]) && AllDigits(r[|r| - 2..])
    ensures seconds < 6000 ==> |r| == 5
  {
    var m := PadTwo(NatToString(seconds / 60));
    var s := PadTwo(NatToString(seconds % 60));
    PadTwoValue(NatToString(seconds / 60));
    PadTwoValue(NatToString(seconds % 60));
    NatToStringShort(seconds % 60);
    if seconds < 6000 then
      NatToStringShort(seconds / 60);
      assert (m + ":" + s)[..2] == m && (m + ":" + s)[3..] == s;
      m + ":" + s
    else
      assert (m + ":" + s)[..|m|] == m && (m + ":" + s)[|m| + 1..] == s;
      m + ":" + s
  }

  predicate IsColon(c: char) { c == ':' }

  /** Reads an `mm:ss` display back into seconds; the inverse against which the formatter is checked. */
  function ParseTime(t: string): Option<nat>
  {
    var parts := Split(t, IsColon);
    if |parts| == 2 && AllDigits(parts[0]) && AllDigits(parts[1])
    then Some(DecimalValue(parts[0]) * 60 + DecimalValue(parts[1]))
    else None
  }

  lemma PadTwoValue(s: string)
    requires |s| >= 1 && AllDigits(s)
    ensures AllDigits(PadTwo(s)) && |PadTwo(s)| >= 2
    ensures DecimalValue(PadTwo(s)) == DecimalValue(s)
  {
    if |s| == 1 {
      LeadingZero(s);
    }
  }

  lemma NatToStringShort(n: nat)
    requires n < 100
    ensures |NatToString(n)| <= 2
  {
    if n >= 10 {
      assert NatToString(n) == NatToString(n / 10) + [DigitChar(n % 10)];
    }
  }

  lemma DigitsSepFree(s: string)
    requires AllDigits(s)
    ensures SepFree(s, IsColon)
  {
  }

  /** The display determines the duration: reading it back gives the seconds that were formatted. */
  lemma FormatTimeRoundTrip(seconds: nat)
    ensures ParseTime(FormatTime(seconds)) == Some(seconds)
  {
    var m := PadTwo(NatToString(seconds / 60));
    var s := PadTwo(NatToString(seconds % 60));
    PadTwoValue(NatToString(seconds / 60));
    PadTwoValue(NatToString(seconds % 60));
    NatToStringRoundTrip(seconds / 60);
    NatToStringRoundTrip(seconds % 60);
    DigitsSepFree(m);
    DigitsSepFree(s);
    SplitJoin([m, s], ':', IsColon);
    assert Join([m, s], ":") == FormatTime(seconds);
  }

  /** Below 100 minutes the display is exactly five characters, `d d : d d`, with seconds below 60. */
  lemma FormatTimeShape(seconds: nat)
    requires seconds < 6000
    ensures |FormatTime(seconds)| == 5 && FormatTime(seconds)[2] == ':'
    ensures AllDigits(FormatTime(seconds)[..2]) && AllDigits(FormatTime(seconds)[3..])
    ensures DecimalValue(FormatTime(seconds)[..2]) == seconds / 60
    ensures DecimalValue(FormatTime(seconds)[3..]) == seconds % 60 < 60
  {
    var ms := NatToString(seconds / 60);
    var ss := NatToString(seconds % 60);
    var m := PadTwo(ms);
    var s := PadTwo(ss);
    PadTwoValue(ms);
    PadTwoValue(ss);
    NatToStringRoundTrip(seconds / 60);
    NatToStringRoundTrip(seconds % 60);
    NatToStringShort(seconds / 60);
    NatToStringShort(seconds % 60);
    var t := FormatTime(seconds);
    assert t == m + ":" + s;
    assert t[..2] == m && t[3..] == s;
  }
}
