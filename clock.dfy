/**
 * The two clock-style labels of src/pages/Index.tsx, both written `${a}:${pad2(b)}`:
 * the recording timer `formatRecordingTime(seconds)` (minutes:seconds) and the time
 * stamp a new message carries (hours:minutes). `ParseClock` reads such a label back,
 * which is how the labels are shown to lose nothing.
 */
module Clock {
  import opened Optional
  import opened Text

  /** `${major}:${minor.toString().padStart(2, '0')}`. */
  function ClockLabel(major: nat, minor: nat): string {
    NatToString(major) + ":" + PadStart2(NatToString(minor))
  }

  /** The first index of `c` in `s`, or `|s|` when `c` does not occur. */
  function IndexOf(s: string, c: char): (k: nat)
    ensures k <= |s| && (k < |s| ==> s[k] == c)
    ensures forall j :: 0 <= j < k ==> s[j] != c
    decreases |s|
  {
    if s == [] then 0 else if s[0] == c then 0 else 1 + IndexOf(s[1..], c)
  }

  lemma ConcatParts<T>(a: seq<T>, b: seq<T>)
    ensures (a + b)[..|a|] == a && (a + b)[|a|..] == b
  {
  }

  lemma ConcatPrefix<T>(a: seq<T>, b: seq<T>, n: nat)
    requires n <= |a|
    ensures (a + b)[..n] == a[..n]
  {
  }

  /** Reads `digits:digits` back into its two numbers. */
  function ParseClock(s: string): Option<(nat, nat)> {
    var k := IndexOf(s, ':');
    if 0 < k < |s| - 1 && AllDigits(s[..k]) && AllDigits(s[k + 1..]) then
      Some((DigitsValue(s[..k]), DigitsValue(s[k + 1..])))
    else
      None
  }

  /** In `a + ":" + p` with `a` all digits, the first colon is the one after `a`. */
  lemma ColonSplit(a: string, p: string)
    requires AllDigits(a)
    ensures var s := a + ":" + p;
      IndexOf(s, ':') == |a| && s[..|a|] == a && s[|a| + 1..] == p
  {
    var s := a + ":" + p;
    var k := IndexOf(s, ':');
    assert s[|a|] == ':';
    assert forall j :: 0 <= j < |a| ==> s[j] == a[j];
    assert s[..|a|] == a;
    assert s[|a| + 1..] == p;
  }

  /** The padded field is digits denoting the number it was made from. */
  lemma PaddedDigits(n: nat)
    ensures var p := PadStart2(NatToString(n));
      |p| >= 2 && AllDigits(p) && DigitsValue(p) == n
  {
    var d := NatToString(n);
    NatToStringRoundTrip(n);
    if |d| < 2 {
      assert PadStart2(d) == "0" + d;
      LeadingZero(d);
    } else {
      assert PadStart2(d) == d;
    }
  }

  /** A clock label reads back as the two numbers it was made from, so distinct pairs
      give distinct labels. */
  lemma {:induction false} ClockRoundTrip(major: nat, minor: nat)
    ensures ParseClock(ClockLabel(major, minor)) == Some((major, minor))
  {
    var a := NatToString(major);
    var p := PadStart2(NatToString(minor));
    NatToStringRoundTrip(major);
    PaddedDigits(minor);
    ColonSplit(a, p);
  }

  /** `formatRecordingTime(seconds)`: whole minutes, a colon, and the remaining seconds
      as exactly two digits between 00 and 59. */
  function FormatRecordingTime(seconds: nat): (r: string)
    ensures ShowsFields(r, seconds / 60, seconds % 60)
  {
    RecordingFields(seconds / 60, seconds % 60);
    ClockLabel(seconds / 60, seconds % 60)
  }

  /** `r` is the digits of `mins` without a leading zero, a colon, and exactly two
      digits denoting `secs`. */
  predicate ShowsFields(r: string, mins: nat, secs: nat) {
    |r| >= 4 && r[|r| - 3] == ':' &&
    AllDigits(r[|r| - 2..]) && DigitsValue(r[|r| - 2..]) == secs &&
    AllDigits(r[..|r| - 3]) && DigitsValue(r[..|r| - 3]) == mins &&
    (r[0] == '0' ==> r[..|r| - 3] == "0")
  }

  /** Where the parts of `a + ":" + p` sit when `p` has two characters. */
  lemma LabelParts(a: string, p: string)
    requires |p| == 2
    ensures var r := a + ":" + p;
      |r| == |a| + 3 && r[|r| - 3] == ':' && r[|r| - 2..] == p && r[..|r| - 3] == a
  {
    var r := a + ":" + p;
    assert r[..|r| - 3] == a;
    assert r[|r| - 2..] == p;
  }

  /** Below 100 the padded field is exactly two digits denoting the number. */
  lemma PaddedValue(n: nat)
    requires n < 100
    ensures var p := PadStart2(NatToString(n));
      |p| == 2 && AllDigits(p) && DigitsValue(p) == n
  {
    PaddedDigits(n);
  }

  /** Below 60 the second field of a clock label is exactly two digits. */
  lemma RecordingFields(mins: nat, secs: nat)
    requires secs < 60
    ensures ShowsFields(ClockLabel(mins, secs), mins, secs)
  {
    var m := NatToString(mins);
    var p := PadStart2(NatToString(secs));
    PaddedValue(secs);
    LabelParts(m, p);
    NatToStringRoundTrip(mins);
  }

  /** The recording label determines the elapsed seconds: minutes * 60 + seconds. */
  lemma RecordingTimeRoundTrip(seconds: nat)
    ensures ParseClock(FormatRecordingTime(seconds)).Some?
    ensures var (mins, secs) := ParseClock(FormatRecordingTime(seconds)).value;
      secs < 60 && mins * 60 + secs == seconds
  {
    ClockRoundTrip(seconds / 60, seconds % 60);
    assert FormatRecordingTime(seconds) == ClockLabel(seconds / 60, seconds % 60);
  }

  /** The time stamp of a new message: `${now.getHours()}:${pad2(now.getMinutes())}`,
      the hour unpadded and the minutes as exactly two digits. */
  function TimeString(hours: nat, minutes: nat): (r: string)
    requires hours < 24 && minutes < 60
    ensures ShowsFields(r, hours, minutes)
    ensures ParseClock(r) == Some((hours, minutes))
    ensures |r| == 4 || |r| == 5
  {
    RecordingFields(hours, minutes);
    ClockRoundTrip(hours, minutes);
    ClockLabel(hours, minutes)
  }
}
