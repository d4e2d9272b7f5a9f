/**
 * String helpers with Python's meaning: `str.strip()`, the clamped slice
 * `s[:n]`, the decimal text of an int as an f-string renders it, and `str.find`
 * for one character.
 */
module Text {
  import opened Wrappers

  // ---------------------------------------------------------------- whitespace

  /** The characters for which Python's `str.isspace()` holds. */
  predicate IsWhitespace(c: char) {
    c == ' ' || c == '\t' || c == '\n' || c == '\r' || c == '\U{0B}' || c == '\U{0C}'
    || c == '\U{1C}' || c == '\U{1D}' || c == '\U{1E}' || c == '\U{1F}'
    || c == '\U{85}' || c == '\U{A0}' || c == '\U{1680}'
    || ('\U{2000}' <= c <= '\U{200A}')
    || c == '\U{2028}' || c == '\U{2029}' || c == '\U{202F}' || c == '\U{205F}' || c == '\U{3000}'
  }

  predicate AllWhitespace(s: string) {
    forall k :: 0 <= k < |s| ==> IsWhitespace(s[k])
  }

  /** Neither end of `s` is whitespace (vacuously true of ""). */
  predicate Trimmed(s: string) {
    s == [] || (!IsWhitespace(s[0]) && !IsWhitespace(s[|s| - 1]))
  }

  /** Index of the first non-whitespace character of `s` at or after `from`, or `|s|`. */
  function SkipWhitespace(s: string, from: nat): (n: nat)
    requires from <= |s|
    ensures from <= n <= |s|
    ensures forall k :: from <= k < n ==> IsWhitespace(s[k])
    ensures n < |s| ==> !IsWhitespace(s[n])
    decreases |s| - from
  {
    if from < |s| && IsWhitespace(s[from]) then SkipWhitespace(s, from + 1) else from
  }

  /** Index just after the last non-whitespace character of `s[lo..hi]`, or `lo`. */
  function SkipWhitespaceBack(s: string, lo: nat, hi: nat): (n: nat)
    requires lo <= hi <= |s|
    ensures lo <= n <= hi
    ensures forall k :: n <= k < hi ==> IsWhitespace(s[k])
    ensures n > lo ==> !IsWhitespace(s[n - 1])
    decreases hi - lo
  {
    if lo < hi && IsWhitespace(s[hi - 1]) then SkipWhitespaceBack(s, lo, hi - 1) else hi
  }

  /** `str.strip()`: drops the leading, then the trailing whitespace. */
  function Strip(s: string): (r: string)
    ensures Trimmed(r)
  {
    var i := SkipWhitespace(s, 0);
    s[i..SkipWhitespaceBack(s, i, |s|)]
  }

  /** The postcondition of `SkipWhitespace` determines its result. */
  lemma SkipWhitespaceUnique(s: string, from: nat, n: nat)
    requires from <= n <= |s|
    requires forall k :: from <= k < n ==> IsWhitespace(s[k])
    requires n < |s| ==> !IsWhitespace(s[n])
    ensures SkipWhitespace(s, from) == n
  {
  }

  /** The postcondition of `SkipWhitespaceBack` determines its result. */
  lemma SkipWhitespaceBackUnique(s: string, lo: nat, hi: nat, n: nat)
    requires lo <= n <= hi <= |s|
    requires forall k :: n <= k < hi ==> IsWhitespace(s[k])
    requires n > lo ==> !IsWhitespace(s[n - 1])
    ensures SkipWhitespaceBack(s, lo, hi) == n
  {
  }

  /**
   * The whitespace removed by `Strip` lies at the two ends of `s`: the result
   * is the slice `s[i..j]`, and `s[..i]` and `s[j..]` are all whitespace.
   */
  lemma StripIsSlice(s: string)
    ensures var i := SkipWhitespace(s, 0); var j := SkipWhitespaceBack(s, i, |s|);
      Strip(s) == s[i..j] && AllWhitespace(s[..i]) && AllWhitespace(s[j..])
  {
    var i := SkipWhitespace(s, 0);
    var j := SkipWhitespaceBack(s, i, |s|);
    WhitespaceRun(s, 0, i);
    WhitespaceRun(s, j, |s|);
    assert s[..i] == s[0..i] && s[j..] == s[j..|s|];
  }

  lemma WhitespaceRun(s: string, lo: nat, hi: nat)
    requires lo <= hi <= |s| && forall k :: lo <= k < hi ==> IsWhitespace(s[k])
    ensures AllWhitespace(s[lo..hi])
  {
    forall k | 0 <= k < hi - lo ensures IsWhitespace(s[lo..hi][k]) {
      assert s[lo..hi][k] == s[lo + k];
    }
  }

  /**
   * Reference characterisation: whatever whitespace `a` and `b` surround a
   * trimmed core `r` with, `Strip` gives back exactly `r`.
   */
  lemma StripRecoversCore(a: string, r: string, b: string)
    requires AllWhitespace(a) && AllWhitespace(b) && Trimmed(r)
    ensures Strip(a + r + b) == r
  {
    var s := a + r + b;
    var i := |a|;
    var j := |a| + |r|;
    WhitespaceAround(a, r, b);
    if r == [] {
      SkipWhitespaceUnique(s, 0, |s|);
      SkipWhitespaceBackUnique(s, |s|, |s|, |s|);
      assert s[|s|..|s|] == r;
    } else {
      SkipWhitespaceUnique(s, 0, i);
      SkipWhitespaceBackUnique(s, i, |s|, j);
    }
  }

  /** In `a + r + b`, the characters of `a` and `b` are whitespace and `r` sits at `|a|`. */
  lemma WhitespaceAround(a: string, r: string, b: string)
    requires AllWhitespace(a) && AllWhitespace(b) && Trimmed(r)
    ensures var s := a + r + b; var j := |a| + |r|;
      && (forall k :: 0 <= k < |a| ==> IsWhitespace(s[k]))
      && (forall k :: j <= k < |s| ==> IsWhitespace(s[k]))
      && s[|a|..j] == r
      && (r != [] ==> !IsWhitespace(s[|a|]) && !IsWhitespace(s[j - 1]))
      && (r == [] ==> forall k :: 0 <= k < |s| ==> IsWhitespace(s[k]))
  {
    var s := a + r + b;
    var j := |a| + |r|;
    forall k | 0 <= k < |a| ensures s[k] == a[k] { }
    forall k | j <= k < |s| ensures s[k] == b[k - j] { }
    assert s[|a|..j] == r;
  }

  /** Stripping twice is stripping once. */
  lemma StripIdempotent(s: string)
    ensures Strip(Strip(s)) == Strip(s)
  {
    var r := Strip(s);
    StripRecoversCore([], r, []);
    assert [] + r + [] == r;
  }

  // ---------------------------------------------------------------- slicing

  /** Python's `s[:n]` for `n >= 0`: the slice is clamped to the length. */
  function Head(s: string, n: nat): (r: string)
    ensures |r| == if |s| <= n then |s| else n
    ensures r == s[..|r|]
  {
    if |s| <= n then s else s[..n]
  }

  /** `s.startswith(p)`. */
  predicate IsPrefix(p: string, s: string) {
    |p| <= |s| && s[..|p|] == p
  }

  /** `s.endswith(t)`. */
  predicate IsSuffix(t: string, s: string) {
    |t| <= |s| && s[|s| - |t|..] == t
  }

  /** `sub in s`. */
  predicate Contains(s: string, sub: string) {
    exists i :: 0 <= i <= |s| && IsPrefix(sub, s[i..])
  }

  // ---------------------------------------------------------------- decimal text

  predicate IsDigit(c: char) { '0' as int <= c as int <= '9' as int }

  predicate AllDigits(s: string) {
    forall k :: 0 <= k < |s| ==> IsDigit(s[k])
  }

  function DigitChar(d: nat): (c: char)
    requires d < 10
    ensures IsDigit(c) && c as int == '0' as int + d
  {
    ['0', '1', '2', '3', '4', '5', '6', '7', '8', '9'][d]
  }

  function DigitValue(c: char): (d: nat)
    requires IsDigit(c)
    ensures d < 10
  {
    (c as int - '0' as int) as nat
  }

  /** Decimal text of a natural number, most significant digit first, no leading zero. */
  function NatToString(n: nat): (s: string)
    ensures |s| > 0 && AllDigits(s)
    ensures s[0] == '0' <==> n == 0
    ensures |s| > 1 ==> s[0] != '0'
  {
    if n < 10 then [DigitChar(n)] else NatToString(n / 10) + [DigitChar(n % 10)]
  }

  /** How `f"{i}"` renders a Python int. */
  function IntToString(i: int): (s: string)
    ensures |s| > 0 && AllDigits(s[1..])
    ensures s[0] == '-' <==> i < 0
    ensures i >= 0 ==> IsDigit(s[0])
  {
    if i < 0 then
      var digits := NatToString(-i);
      assert ("-" + digits)[1..] == digits;
      "-" + digits
    else
      NatToString(i)
  }

  /** The decimal text of an int has no space, so the text after it can be found by the first space. */
  lemma IntToStringHasNoSpace(i: int)
    ensures ' ' !in IntToString(i)
  {
    var s := IntToString(i);
    forall k | 0 <= k < |s| ensures s[k] != ' ' {
      if k > 0 { assert s[k] == s[1..][k - 1]; }
    }
  }

  /** Value of a digit string (0 for ""). */
  function ParseDigits(s: string): nat
    requires AllDigits(s)
  {
    if s == [] then 0 else 10 * ParseDigits(s[..|s| - 1]) + DigitValue(s[|s| - 1])
  }

  /** Reads a non-empty digit string; `None` for anything else. */
  function ParseNat(s: string): Option<nat> {
    if |s| > 0 && AllDigits(s) then Some(ParseDigits(s)) else None
  }

  /** Reads back what `IntToString` writes; `None` for anything that is not decimal text. */
  function ParseInt(s: string): Option<int> {
    if |s| > 0 && s[0] == '-' then
      match ParseNat(s[1..])
      case Some(n) => Some(-(n as int))
      case None => None
    else
      match ParseNat(s)
      case Some(n) => Some(n as int)
      case None => None
  }

  lemma {:induction false} ParseNatToString(n: nat)
    ensures ParseDigits(NatToString(n)) == n
  {
    assert DigitValue(DigitChar(n % 10)) == n % 10;
    if n >= 10 {
      var s := NatToString(n);
      assert s[..|s| - 1] == NatToString(n / 10);
      ParseNatToString(n / 10);
    }
  }

  /** The decimal text of an int is read back as that int. */
  lemma IntToStringRoundTrip(i: int)
    ensures ParseInt(IntToString(i)) == Some(i)
  {
    var s := IntToString(i);
    if i < 0 {
      assert s[1..] == NatToString(-i);
      NegativeTextParses(s, -i);
    } else {
      assert s == NatToString(i);
      NatTextParses(s, i);
    }
  }

  lemma NegativeTextParses(s: string, n: nat)
    requires |s| > 0 && s[0] == '-' && s[1..] == NatToString(n)
    ensures ParseInt(s) == Some(-(n as int))
  {
    ParseNatToString(n);
  }

  lemma NatTextParses(s: string, n: nat)
    requires s == NatToString(n)
    ensures ParseInt(s) == Some(n)
  {
    assert s[0] != '-' by { assert IsDigit(s[0]); }
    ParseNatToString(n);
  }

  // ---------------------------------------------------------------- search

  /** `s.find(c)`, except that absence gives `|s|` rather than -1. */
  function FirstIndexOf(s: string, c: char): (i: nat)
    ensures i <= |s| && c !in s[..i]
    ensures i < |s| ==> s[i] == c
  {
    if s == [] then 0
    else if s[0] == c then 0
    else 1 + FirstIndexOf(s[1..], c)
  }

  /** The first `c` in `a + [c] + b` is the one just after `a` when `a` has none. */
  lemma {:induction false} FirstIndexOfAfter(a: string, c: char, b: string)
    requires c !in a
    ensures FirstIndexOf(a + [c] + b, c) == |a|
  {
    if a != [] {
      assert a[0] != c;
      assert (a + [c] + b)[1..] == a[1..] + [c] + b;
      FirstIndexOfAfter(a[1..], c, b);
    }
  }
}
