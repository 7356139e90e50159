/** The PHP value semantics the plugin leans on: string truthiness, the
    integer value of a numeric string, and the list built by `range`. */
module PhpValues {

  datatype Option<T> = None | Some(value: T)

  /** PHP's boolean conversion of a string: only "" and "0" are false.
      `empty($s)` on a set string is the negation. */
  predicate Truthy(s: string)
  {
    s != "" && s != "0"
  }

  predicate IsDigit(c: char)
  {
    '0' <= c <= '9'
  }

  function DigitValue(c: char): (d: nat)
    requires IsDigit(c)
    ensures d < 10
  {
    c as int - '0' as int
  }

  function DigitChar(d: nat): (c: char)
    requires d < 10
    ensures IsDigit(c) && DigitValue(c) == d
  {
    (d + '0' as int) as char
  }

  /** Number of leading decimal digits of `s`. */
  function LeadingDigits(s: string): (n: nat)
    ensures n <= |s|
    ensures forall i :: 0 <= i < n ==> IsDigit(s[i])
    ensures n < |s| ==> !IsDigit(s[n])
  {
    if s == [] || !IsDigit(s[0]) then 0 else 1 + LeadingDigits(s[1..])
  }

  /** Value of a string made of decimal digits only. */
  function DigitsValue(d: string): nat
    requires forall i :: 0 <= i < |d| ==> IsDigit(d[i])
  {
    if d == [] then 0 else 10 * DigitsValue(d[..|d| - 1]) + DigitValue(d[|d| - 1])
  }

  /** The value of the digits at the head of `s`. */
  function PrefixValue(s: string): nat
  {
    DigitsValue(s[..LeadingDigits(s)])
  }

  /** PHP's integer value of a string: an optional sign followed by the
      leading decimal digits; a string with no leading digits is 0. */
  function IntValue(s: string): int
  {
    if |s| > 0 && s[0] == '-' then -(PrefixValue(s[1..]) as int)
    else if |s| > 0 && s[0] == '+' then PrefixValue(s[1..])
    else PrefixValue(s)
  }

  /** Decimal rendering of a natural number, as PHP prints an integer. */
  function NatToString(n: nat): (s: string)
    ensures |s| > 0
    ensures forall i :: 0 <= i < |s| ==> IsDigit(s[i])
  {
    if n < 10 then [DigitChar(n)] else NatToString(n / 10) + [DigitChar(n % 10)]
  }

  /** Decimal rendering of an integer, as PHP prints it. */
  function IntToString(n: int): string
  {
    if n < 0 then "-" + NatToString(-n) else NatToString(n)
  }

  lemma {:induction false} DigitsValueOfNatToString(n: nat)
    ensures DigitsValue(NatToString(n)) == n
  {
    var s := NatToString(n);
    if n >= 10 {
      DigitsValueOfNatToString(n / 10);
      assert s[..|s| - 1] == NatToString(n / 10);
    }
  }

  lemma LeadingDigitsAll(s: string)
    requires forall i :: 0 <= i < |s| ==> IsDigit(s[i])
    ensures LeadingDigits(s) == |s|
  {
  }

  /** Reading back the integer PHP prints gives the integer. */
  lemma IntValueOfIntToString(n: int)
    ensures IntValue(IntToString(n)) == n
  {
    var m: nat := if n < 0 then -n else n;
    var digits := NatToString(m);
    LeadingDigitsAll(digits);
    DigitsValueOfNatToString(m);
    assert digits[..|digits|] == digits;
    if n < 0 {
      assert IntToString(n)[1..] == digits;
    } else {
      assert digits[0] != '-' && digits[0] != '+';
    }
  }

  /** PHP `range($lo, $hi)` with the default step of 1: counts up when
      `lo <= hi` and down otherwise, both ends included. */
  function Range(lo: int, hi: int): seq<int>
    decreases if lo <= hi then hi - lo else lo - hi
  {
    if lo == hi then [lo]
    else if lo < hi then [lo] + Range(lo + 1, hi)
    else [lo] + Range(lo - 1, hi)
  }

  /** `range` holds every integer between its ends, in order from `lo`. */
  lemma {:induction false} RangeShape(lo: int, hi: int)
    ensures |Range(lo, hi)| == if lo <= hi then hi - lo + 1 else lo - hi + 1
    ensures forall i :: 0 <= i < |Range(lo, hi)| ==>
              Range(lo, hi)[i] == if lo <= hi then lo + i else lo - i
    decreases if lo <= hi then hi - lo else lo - hi
  {
    if lo < hi {
      RangeShape(lo + 1, hi);
    } else if lo > hi {
      RangeShape(lo - 1, hi);
    }
  }
}
