/** Python string helpers the front end relies on: `str.strip()` with no
    argument and `str()` of an integer. */
module PyText {

  /** The characters Python's `str.isspace()` accepts, which are the ones
      `str.strip()` removes when called without an argument. */
  predicate IsSpace(c: char)
  {
    ('\t' <= c <= '\r') || ('\U{1C}' <= c <= '\U{1F}') || c == ' ' ||
    c == '\U{85}' || c == '\U{A0}' || c == '\U{1680}' ||
    ('\U{2000}' <= c <= '\U{200A}') || c == '\U{2028}' || c == '\U{2029}' ||
    c == '\U{202F}' || c == '\U{205F}' || c == '\U{3000}'
  }

  predicate AllSpace(s: string)
  {
    forall i :: 0 <= i < |s| ==> IsSpace(s[i])
  }

  /** Every character of `s` at an index in `[lo, hi)` is whitespace. */
  predicate SpaceBetween(s: string, lo: int, hi: int)
  {
    forall k :: lo <= k < hi && 0 <= k < |s| ==> IsSpace(s[k])
  }

  /** The first index at or after `i` that does not hold whitespace (or
      `|s|`): the forward scan of `strip()`. */
  function SkipSpaceFrom(s: string, i: nat): (j: nat)
    requires i <= |s|
    ensures i <= j <= |s|
    ensures SpaceBetween(s, i, j)
    ensures j < |s| ==> !IsSpace(s[j])
    decreases |s| - i
  {
    if i < |s| && IsSpace(s[i]) then SkipSpaceFrom(s, i + 1) else i
  }

  /** The end of the last non-whitespace character in `s[lo..hi]` (or
      `lo`): the backward scan of `strip()`. */
  function SkipSpaceBack(s: string, lo: nat, hi: nat): (j: nat)
    requires lo <= hi <= |s|
    ensures lo <= j <= hi
    ensures SpaceBetween(s, j, hi)
    ensures j > lo ==> !IsSpace(s[j - 1])
    decreases hi
  {
    if hi > lo && IsSpace(s[hi - 1]) then SkipSpaceBack(s, lo, hi - 1) else hi
  }

  /** `s.strip()`: the slice between the two scans. It is a slice of `s`
      with only whitespace cut off on either side, it neither starts nor
      ends with whitespace, and it is empty exactly when `s` is all
      whitespace. */
  function Strip(s: string): (r: string)
    ensures |r| <= |s|
    ensures exists i :: (0 <= i <= |s| - |r| && r == s[i..i + |r|] &&
                         SpaceBetween(s, 0, i) && SpaceBetween(s, i + |r|, |s|))
    ensures r == [] || (!IsSpace(r[0]) && !IsSpace(r[|r| - 1]))
    ensures r == [] <==> AllSpace(s)
  {
    var i := SkipSpaceFrom(s, 0);
    var j := SkipSpaceBack(s, i, |s|);
    assert i < |s| ==> i < j && !IsSpace(s[i]);
    assert i + |s[i..j]| == j;
    s[i..j]
  }

  /** What `strip()` keeps is the slice `s[i..i + |Strip(s)|]`, and what it
      cuts off on either side is whitespace. */
  lemma StripIsMiddle(s: string) returns (i: nat)
    ensures i + |Strip(s)| <= |s| && Strip(s) == s[i..i + |Strip(s)|]
    ensures SpaceBetween(s, 0, i) && SpaceBetween(s, i + |Strip(s)|, |s|)
  {
    i := SkipSpaceFrom(s, 0);
    assert Strip(s) == s[i..SkipSpaceBack(s, i, |s|)];
  }

  /** A string is its own strip exactly when it has no whitespace at
      either end. */
  lemma StripFixpoint(s: string)
    ensures Strip(s) == s <==> s == [] || (!IsSpace(s[0]) && !IsSpace(s[|s| - 1]))
  {
    if s != [] && !IsSpace(s[0]) && !IsSpace(s[|s| - 1]) {
      assert SkipSpaceFrom(s, 0) == 0;
      assert SkipSpaceBack(s, 0, |s|) == |s|;
      assert s[0..|s|] == s;
    }
  }

  /** Stripping twice is stripping once. */
  lemma StripIdempotent(s: string)
    ensures Strip(Strip(s)) == Strip(s)
  {
    StripFixpoint(Strip(s));
  }

  function DigitChar(d: nat): (c: char)
    requires d < 10
    ensures '0' <= c <= '9' && c as int - '0' as int == d
  {
    (d + '0' as int) as char
  }

  /** `str(n)` for a non-negative integer: its decimal digits, without
      leading zeros. */
  function Decimal(n: nat): (r: string)
    ensures 1 <= |r| && (|r| == 1 <==> n < 10)
    ensures forall i :: 0 <= i < |r| ==> '0' <= r[i] <= '9'
    ensures r[0] == '0' ==> n == 0
  {
    if n < 10 then [DigitChar(n)] else Decimal(n / 10) + [DigitChar(n % 10)]
  }

  /** The value of a string of decimal digits, read left to right. */
  function DecimalValue(s: string): nat
    requires forall i :: 0 <= i < |s| ==> '0' <= s[i] <= '9'
  {
    if s == [] then 0
    else DecimalValue(s[..|s| - 1]) * 10 + (s[|s| - 1] as int - '0' as int)
  }

  /** Reading back the digits of `str(n)` gives `n`. */
  lemma {:induction false} DecimalRoundTrip(n: nat)
    ensures DecimalValue(Decimal(n)) == n
  {
    if n >= 10 {
      var d := Decimal(n);
      assert d[..|d| - 1] == Decimal(n / 10);
      DecimalRoundTrip(n / 10);
    }
  }

  /** Different numbers have different decimal renderings. */
  lemma DecimalInjective(a: nat, b: nat)
    ensures Decimal(a) == Decimal(b) ==> a == b
  {
    DecimalRoundTrip(a);
    DecimalRoundTrip(b);
  }

  /** `str(i)` for any integer. */
  function IntStr(i: int): (r: string)
    ensures 1 <= |r| && (r[0] == '-' <==> i < 0)
  {
    if i < 0 then "-" + Decimal(-i) else Decimal(i)
  }
}
