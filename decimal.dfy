/**
 * Decimal integers as the handlers read and write them: `strconv.Atoi` turns a
 * request parameter into an `int`, and `fmt.Sprintf("%d", id)` writes an id
 * into a redirect path.  Go's `int` is 64 bits wide on the platforms the
 * application targets, so parsing fails outside that range.
 */
module Decimal {

  datatype Option<T> = None | Some(value: T)

  const MinInt: int := -0x8000_0000_0000_0000
  const MaxInt: int := 0x7FFF_FFFF_FFFF_FFFF

  /** The values of Go's 64-bit `int`. */
  type Int64 = x: int | -0x8000_0000_0000_0000 <= x <= 0x7FFF_FFFF_FFFF_FFFF

  predicate IsDigit(c: char)
  {
    '0' <= c <= '9'
  }

  predicate AllDigits(s: string)
  {
    forall k :: 0 <= k < |s| ==> IsDigit(s[k])
  }

  function DigitValue(c: char): (d: nat)
    requires IsDigit(c)
    ensures d < 10
  {
    c as int - '0' as int
  }

  function DigitChar(d: nat): (c: char)
    requires d < 10
    ensures IsDigit(c) && DigitValue(c) == d
  {
    ('0' as int + d) as char
  }

  /** The number a string of decimal digits denotes, most significant digit first. */
  function DigitsValue(s: string): nat
    requires AllDigits(s)
  {
    if s == [] then 0 else DigitsValue(s[..|s| - 1]) * 10 + DigitValue(s[|s| - 1])
  }

  /**
   * strconv.Atoi: an optional '+' or '-' followed by at least one decimal
   * digit, whose value fits the 64-bit range; anything else is an error.
   */
  function Atoi(s: string): (r: Option<Int64>)
    ensures r.Some? ==> |s| > 0 && (IsDigit(s[0]) || s[0] == '+' || s[0] == '-')
    ensures r.Some? ==> AllDigits(s[1..]) && (IsDigit(s[0]) || |s| > 1)
    ensures r.Some? && r.value < 0 ==> s[0] == '-'
    ensures s == [] || (|s| == 1 && !IsDigit(s[0])) ==> r.None?
    ensures r.Some? ==> r.value == if s[0] == '-' then 0 - DigitsValue(s[1..])
                                   else if s[0] == '+' then DigitsValue(s[1..])
                                   else DigitsValue(s)
    ensures |s| > 0 && AllDigits(s) && DigitsValue(s) <= MaxInt ==> r == Some(DigitsValue(s))
    ensures |s| > 1 && s[0] == '+' && AllDigits(s[1..]) && DigitsValue(s[1..]) <= MaxInt
            ==> r == Some(DigitsValue(s[1..]))
    ensures |s| > 1 && s[0] == '-' && AllDigits(s[1..]) && DigitsValue(s[1..]) <= -MinInt
            ==> r == Some(0 - DigitsValue(s[1..]))
  {
    if s == [] then None
    else
      var digits := if s[0] == '-' || s[0] == '+' then s[1..] else s;
      if digits == [] || !AllDigits(digits) then None
      else
        var n: int := if s[0] == '-' then 0 - DigitsValue(digits) else DigitsValue(digits);
        if MinInt <= n <= MaxInt then Some(n) else None
  }

  /** The shortest decimal representation of `n`: digits only, no leading zero. */
  function FormatNat(n: nat): (s: string)
    ensures |s| > 0 && AllDigits(s)
    ensures DigitsValue(s) == n
    ensures s[0] == '0' ==> n == 0 && s == "0"
  {
    if n < 10 then [DigitChar(n)]
    else
      var prefix := FormatNat(n / 10);
      var s := prefix + [DigitChar(n % 10)];
      assert s[..|s| - 1] == prefix;
      s
  }

  /** fmt's `%d` for an `int`: a '-' for negative values, then the digits of the magnitude. */
  function FormatInt(i: int): (s: string)
    ensures |s| > 0
    ensures s[0] == '-' <==> i < 0
    ensures i >= 0 ==> AllDigits(s)
    ensures i >= 0 ==> s == FormatNat(i)
    ensures i < 0 ==> s[1..] == FormatNat(-i)
  {
    if i < 0 then "-" + FormatNat(-i) else FormatNat(i)
  }

  /** Every 64-bit integer written with `%d` reads back as itself with Atoi. */
  lemma AtoiFormatInt(i: Int64)
    ensures Atoi(FormatInt(i)) == Some(i)
  {
    var s := FormatInt(i);
    var m: int := i;
    if m < 0 {
      assert s[1..] == FormatNat(-m);
    } else {
      assert s == FormatNat(i);
    }
  }

  /** Distinct integers are written differently, so an id is recoverable from its path. */
  lemma FormatIntInjective(i: Int64, j: Int64)
    requires FormatInt(i) == FormatInt(j)
    ensures i == j
  {
    AtoiFormatInt(i);
    AtoiFormatInt(j);
  }
}
