/**
 * The string primitives the messenger relies on, as JavaScript defines them:
 * `String.prototype.trim`, truthiness of a trimmed string, `filter(o => o.trim())`,
 * decimal rendering of a non-negative integer, `padStart(2, '0')` and `split(' ')`.
 */
module Text {

  /** The characters `String.prototype.trim` removes: WhiteSpace (TAB, VT, FF, SP,
      NBSP, ZWNBSP and the other space separators U+1680, U+2000 to U+200A, U+202F,
      U+205F, U+3000) and LineTerminator (LF, CR, LS, PS). */
  predicate IsWhitespace(c: char) {
    var n := c as int;
    (0x9 <= n <= 0xD) || n == 0x20 || n == 0xA0 || n == 0x1680 || (0x2000 <= n <= 0x200A) ||
    n == 0x2028 || n == 0x2029 || n == 0x202F || n == 0x205F || n == 0x3000 || n == 0xFEFF
  }

  predicate AllWhitespace(s: string) {
    forall k :: 0 <= k < |s| ==> IsWhitespace(s[k])
  }

  /** The first index at or after `i` that does not hold whitespace (`|s|` if none). */
  function SkipLeading(s: string, i: nat): (j: nat)
    requires i <= |s|
    ensures i <= j <= |s| && (j < |s| ==> !IsWhitespace(s[j]))
    decreases |s| - i
  {
    if i < |s| && IsWhitespace(s[i]) then SkipLeading(s, i + 1) else i
  }

  /** Everything `SkipLeading` skips is whitespace. */
  lemma {:induction false} LeadingIsWhitespace(s: string, i: nat)
    requires i <= |s|
    ensures forall k :: i <= k < SkipLeading(s, i) ==> IsWhitespace(s[k])
    decreases |s| - i
  {
    if i < |s| && IsWhitespace(s[i]) {
      LeadingIsWhitespace(s, i + 1);
    }
  }

  /** The end of `s[i..j]` once its trailing whitespace is dropped. */
  function SkipTrailing(s: string, i: nat, j: nat): (e: nat)
    requires i <= j <= |s|
    ensures i <= e <= j && (i < e ==> !IsWhitespace(s[e - 1]))
    decreases j - i
  {
    if i < j && IsWhitespace(s[j - 1]) then SkipTrailing(s, i, j - 1) else j
  }

  /** Everything `SkipTrailing` drops is whitespace. */
  lemma {:induction false} TrailingIsWhitespace(s: string, i: nat, j: nat)
    requires i <= j <= |s|
    ensures forall k :: SkipTrailing(s, i, j) <= k < j ==> IsWhitespace(s[k])
    decreases j - i
  {
    if i < j && IsWhitespace(s[j - 1]) {
      TrailingIsWhitespace(s, i, j - 1);
    }
  }

  /** `s.trim()`: what is left between the leading and the trailing whitespace. It
      neither starts nor ends with whitespace. */
  function Trim(s: string): (r: string)
    ensures r == [] || (!IsWhitespace(r[0]) && !IsWhitespace(r[|r| - 1]))
  {
    var i := SkipLeading(s, 0);
    var e := SkipTrailing(s, i, |s|);
    assert i < e ==> s[i..e][0] == s[i] && s[i..e][e - i - 1] == s[e - 1];
    s[i..e]
  }

  /** What `Trim` removes is whitespace: `s` is the leading whitespace `s[..i]`, then
      the result, then the trailing whitespace `s[i + |Trim(s)|..]`. */
  lemma TrimStrips(s: string)
    ensures var i := SkipLeading(s, 0); var r := Trim(s);
      i + |r| <= |s| && r == s[i..i + |r|] &&
      (forall k :: 0 <= k < i ==> IsWhitespace(s[k])) &&
      (forall k :: i + |r| <= k < |s| ==> IsWhitespace(s[k]))
  {
    var i := SkipLeading(s, 0);
    LeadingIsWhitespace(s, 0);
    TrailingIsWhitespace(s, i, |s|);
  }

  /** A string trims to nothing exactly when it is all whitespace. */
  lemma BlankIffAllWhitespace(s: string)
    ensures Trim(s) == [] <==> AllWhitespace(s)
  {
    TrimStrips(s);
  }

  /** Trimming twice is trimming once. */
  lemma TrimIdempotent(s: string)
    ensures Trim(Trim(s)) == Trim(s)
  {
    var r := Trim(s);
    if r != [] {
      assert SkipLeading(r, 0) == 0;
      assert SkipTrailing(r, 0, |r|) == |r|;
    }
  }

  /** A string is falsy after trimming, `!s.trim()`: by `BlankIffAllWhitespace` this
      is the same as holding nothing but whitespace. */
  predicate IsBlank(s: string) {
    AllWhitespace(s)
  }

  /** `opts.filter(o => o.trim())`: the entries that are not blank, in their original
      order and with their original (untrimmed) text. */
  function NonBlank(opts: seq<string>): (r: seq<string>)
    ensures |r| <= |opts|
    ensures forall k :: 0 <= k < |r| ==> !IsBlank(r[k])
  {
    if opts == [] then []
    else if IsBlank(opts[0]) then NonBlank(opts[1..])
    else [opts[0]] + NonBlank(opts[1..])
  }

  /** The filter keeps exactly the entries that are not blank. */
  lemma {:induction false} NonBlankMembers(opts: seq<string>)
    ensures forall x :: x in NonBlank(opts) <==> x in opts && !IsBlank(x)
    decreases |opts|
  {
    if opts != [] {
      NonBlankMembers(opts[1..]);
      assert opts == [opts[0]] + opts[1..];
    }
  }

  /** The filter distributes over concatenation, so it keeps the relative order of
      the entries it keeps. */
  lemma {:induction false} NonBlankAppend(a: seq<string>, b: seq<string>)
    ensures NonBlank(a + b) == NonBlank(a) + NonBlank(b)
    decreases |a|
  {
    if a == [] {
      assert a + b == b;
    } else {
      assert (a + b)[0] == a[0];
      assert (a + b)[1..] == a[1..] + b;
      NonBlankAppend(a[1..], b);
    }
  }

  /** When no entry is blank the filter removes nothing. */
  lemma {:induction false} NonBlankKeepsAll(opts: seq<string>)
    requires forall k :: 0 <= k < |opts| ==> !IsBlank(opts[k])
    ensures NonBlank(opts) == opts
    decreases |opts|
  {
    if opts != [] {
      NonBlankKeepsAll(opts[1..]);
    }
  }

  /** When every entry is blank the filter removes everything. */
  lemma {:induction false} NonBlankDropsAll(opts: seq<string>)
    requires forall k :: 0 <= k < |opts| ==> IsBlank(opts[k])
    ensures NonBlank(opts) == []
    decreases |opts|
  {
    if opts != [] {
      NonBlankDropsAll(opts[1..]);
    }
  }

  // ---------------------------------------------------------------------------
  // Decimal digits, as `${n}` renders a non-negative integer.

  predicate IsDigit(c: char) {
    '0' <= c <= '9'
  }

  predicate AllDigits(s: string) {
    forall k :: 0 <= k < |s| ==> IsDigit(s[k])
  }

  function DigitChar(d: nat): (c: char)
    requires d < 10
    ensures IsDigit(c) && c as int - '0' as int == d
  {
    ('0' as int + d) as char
  }

  function DigitValue(c: char): (d: nat)
    requires IsDigit(c)
    ensures d < 10
  {
    c as int - '0' as int
  }

  /** `${n}` for a non-negative integer: its decimal digits without leading zeros. */
  function NatToString(n: nat): (r: string)
    ensures |r| >= 1 && AllDigits(r)
    ensures r[0] == '0' ==> n == 0 && r == "0"
    ensures n < 10 <==> |r| == 1
    ensures 10 <= n < 100 ==> |r| == 2
    decreases n
  {
    if n < 10 then [DigitChar(n)] else NatToString(n / 10) + [DigitChar(n % 10)]
  }

  /** The number a string of decimal digits denotes (most significant digit first). */
  function DigitsValue(s: string): nat
    requires AllDigits(s)
    decreases |s|
  {
    if s == [] then 0 else DigitsValue(s[..|s| - 1]) * 10 + DigitValue(s[|s| - 1])
  }

  /** Reading back the rendered digits gives the number. */
  lemma {:induction false} NatToStringRoundTrip(n: nat)
    ensures DigitsValue(NatToString(n)) == n
    decreases n
  {
    var r := NatToString(n);
    if n >= 10 {
      NatToStringRoundTrip(n / 10);
      assert r[..|r| - 1] == NatToString(n / 10);
    }
  }

  /** A leading zero does not change the value of a digit string. */
  lemma {:induction false} LeadingZero(s: string)
    requires AllDigits(s)
    ensures AllDigits("0" + s) && DigitsValue("0" + s) == DigitsValue(s)
    decreases |s|
  {
    if s != [] {
      var t := "0" + s;
      assert t[..|t| - 1] == "0" + s[..|s| - 1];
      LeadingZero(s[..|s| - 1]);
    }
  }

  /** `s.padStart(2, '0')`: `s` itself when it has two or more characters, otherwise
      `s` preceded by as many '0' as bring it to length 2. */
  function PadStart2(s: string): (r: string)
    ensures |r| == if |s| >= 2 then |s| else 2
    ensures r[|r| - |s|..] == s
    ensures forall k :: 0 <= k < |r| - |s| ==> r[k] == '0'
  {
    if |s| >= 2 then s else if |s| == 1 then "0" + s else "00"
  }

  // ---------------------------------------------------------------------------
  // `s.split(sep)` and its inverse `words.join(sep)`.

  /** `s.split(sep)` for a one-character separator: the pieces between separators,
      empty pieces included; `"".split(sep)` is `[""]`. */
  function Split(s: string, sep: char): (r: seq<string>)
    ensures |r| >= 1
    ensures forall k :: 0 <= k < |r| ==> sep !in r[k]
    decreases |s|
  {
    if s == [] then [""]
    else
      var rest := Split(s[1..], sep);
      if s[0] == sep then [""] + rest
      else [[s[0]] + rest[0]] + rest[1..]
  }

  /** `words.join(sep)`. */
  function Join(words: seq<string>, sep: char): string
    decreases |words|
  {
    if words == [] then ""
    else if |words| == 1 then words[0]
    else words[0] + [sep] + Join(words[1..], sep)
  }

  /** Joining the pieces with the separator gives back the original string. */
  lemma {:induction false} SplitJoin(s: string, sep: char)
    ensures Join(Split(s, sep), sep) == s
    decreases |s|
  {
    if s != [] {
      var rest := Split(s[1..], sep);
      SplitJoin(s[1..], sep);
      if s[0] == sep {
        assert ([""] + rest)[1..] == rest;
      } else {
        var r := [[s[0]] + rest[0]] + rest[1..];
        if |rest| == 1 {
          assert r == [[s[0]] + rest[0]];
        } else {
          assert r[1..] == rest[1..];
          assert Join(rest, sep) == rest[0] + [sep] + Join(rest[1..], sep);
        }
      }
    }
  }
}
