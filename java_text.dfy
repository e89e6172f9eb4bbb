/**
 * The decimal text of Java integers: `Integer.parseInt` / `Long.parseLong` (radix 10) and
 * `Integer.toString` / `Long.toString`, over the ASCII digits only (Java also accepts the
 * other Unicode decimal digits when parsing).
 */
module JavaText {
  import opened Wrappers

  const MinInt: int := -0x8000_0000
  const MaxInt: int := 0x7FFF_FFFF
  const MinLong: int := -0x8000_0000_0000_0000
  const MaxLong: int := 0x7FFF_FFFF_FFFF_FFFF

  /** A value a Java `int` can hold. */
  predicate IsInt(n: int) { MinInt <= n <= MaxInt }

  /** A value a Java `long` can hold. */
  predicate IsLong(n: int) { MinLong <= n <= MaxLong }

  /** A `java.util.Date`: milliseconds since 1970-01-01T00:00:00Z, held in a `long`. */
  type Date = t: int | IsLong(t)

  predicate IsDigit(c: char) { '0' <= c <= '9' }

  predicate AllDigits(s: string) {
    forall i :: 0 <= i < |s| ==> IsDigit(s[i])
  }

  function DigitValue(c: char): (d: nat)
    requires IsDigit(c)
    ensures d < 10
  {
    (c as int) - ('0' as int)
  }

  function DigitChar(d: nat): (c: char)
    requires d < 10
    ensures IsDigit(c) && DigitValue(c) == d
  {
    (('0' as int) + d) as char
  }

  /** The number a string of decimal digits denotes, most significant digit first. */
  function DigitsValue(s: string): nat
    requires AllDigits(s)
  {
    if s == [] then 0 else DigitsValue(s[..|s| - 1]) * 10 + DigitValue(s[|s| - 1])
  }

  /** The shortest decimal digits of `n`: no leading zero unless `n` is zero. */
  function NatDigits(n: nat): (r: string)
    ensures |r| > 0 && AllDigits(r) && DigitsValue(r) == n
    ensures |r| > 1 ==> r[0] != '0'
    ensures n < 100 ==> |r| <= 2
  {
    if n < 10 then [DigitChar(n)]
    else
      var prefix := NatDigits(n / 10);
      var r := prefix + [DigitChar(n % 10)];
      assert r[..|r| - 1] == prefix;
      r
  }

  /** `Long.toString(n)` (and `Integer.toString`, `"" + n`): a minus sign for negatives. */
  function IntToText(n: int): (r: string)
    ensures |r| > 0
  {
    if n < 0 then "-" + NatDigits(-n) else NatDigits(n)
  }

  /**
   * `Integer.parseInt(s)` when `[lo, hi]` is the `int` range, `Long.parseLong(s)` when it is
   * the `long` range: an optional sign, then one or more digits, the value inside the range.
   * `None` stands for the `NumberFormatException` Java throws otherwise.
   */
  function ParseInteger(s: string, lo: int, hi: int): (r: Option<int>)
    ensures r.Some? ==> lo <= r.value <= hi
    ensures r.Some? ==> |s| > 0 && (IsDigit(s[0]) || s[0] == '-' || s[0] == '+')
  {
    if |s| == 0 then None
    else
      var negative := s[0] == '-';
      var digits := if s[0] == '-' || s[0] == '+' then s[1..] else s;
      if |digits| == 0 || !AllDigits(digits) then None
      else
        var magnitude: int := DigitsValue(digits);
        var v := if negative then -magnitude else magnitude;
        if lo <= v <= hi then Some(v) else None
  }

  /** `Integer.parseInt`. */
  function ParseInt(s: string): (r: Option<int>)
    ensures r.Some? ==> IsInt(r.value)
  {
    ParseInteger(s, MinInt, MaxInt)
  }

  /** `Long.parseLong`. */
  function ParseLong(s: string): (r: Option<int>)
    ensures r.Some? ==> IsLong(r.value)
  {
    ParseInteger(s, MinLong, MaxLong)
  }

  /** Printing an integer and parsing the text back gives the integer, inside any range that holds it. */
  lemma ParsePrinted(n: int, lo: int, hi: int)
    requires lo <= n <= hi
    ensures ParseInteger(IntToText(n), lo, hi) == Some(n)
  {
    var t := IntToText(n);
    if n < 0 {
      assert t[0] == '-' && t[1..] == NatDigits(-n);
    } else {
      assert IsDigit(t[0]);
    }
  }

  /** A value outside the range is refused even though its digits are well formed. */
  lemma ParseRefusesOutOfRange(n: int, lo: int, hi: int)
    requires n < lo || hi < n
    ensures ParseInteger(IntToText(n), lo, hi) == None
  {
    var t := IntToText(n);
    if n < 0 {
      assert t[0] == '-' && t[1..] == NatDigits(-n);
    } else {
      assert IsDigit(t[0]);
    }
  }

  /** Text made only of digits is parsed as the number it denotes, when that is in range. */
  lemma ParseDigits(s: string, lo: int, hi: int)
    requires |s| > 0 && AllDigits(s)
    ensures ParseInteger(s, lo, hi) == if lo <= DigitsValue(s) <= hi then Some(DigitsValue(s)) else None
  {
  }

  /** `s.indexOf(c)`: the first position of `c` in `s`, or -1 when there is none. */
  function IndexOf(s: string, c: char): (i: int)
    ensures -1 <= i < |s|
    ensures i == -1 <==> c !in s
    ensures i >= 0 ==> s[i] == c && c !in s[..i]
  {
    if |s| == 0 then -1
    else if s[0] == c then 0
    else
      var j := IndexOf(s[1..], c);
      if j == -1 then -1
      else
        assert s[..j + 1] == [s[0]] + s[1..][..j];
        j + 1
  }

  /** The first occurrence is the one position holding `c` with no `c` before it. */
  lemma IndexOfAt(s: string, c: char, i: nat)
    requires i < |s| && s[i] == c && c !in s[..i]
    ensures IndexOf(s, c) == i
  {
  }
}
