/**
 * The few JavaScript value rules the scenes rely on: truthiness of payload
 * fields, the `x || fallback` defaulting idiom, and the decimal text that a
 * template literal or string concatenation produces for an integer.
 */
module Js {

  /** A numeric field of a scene payload: absent (`undefined`) or an integer. */
  datatype NumberField = Absent | Num(n: int)

  /** A boolean field of a scene payload: absent (`undefined`) or a boolean. */
  datatype BooleanField = Unset | Flag(b: bool)

  /** `undefined` and `0` are falsy; every other integer is truthy. */
  predicate NumberTruthy(v: NumberField) {
    v.Num? && v.n != 0
  }

  /** `undefined` and `false` are falsy. */
  predicate BooleanTruthy(v: BooleanField) {
    v.Flag? && v.b
  }

  /** `v || fallback` for a numeric field. */
  function Or(v: NumberField, fallback: int): (r: int)
    ensures NumberTruthy(v) ==> r == v.n
    ensures !NumberTruthy(v) ==> r == fallback
    ensures fallback != 0 ==> r != 0
  {
    if NumberTruthy(v) then v.n else fallback
  }

  predicate IsDigit(c: char) {
    '0' <= c <= '9'
  }

  predicate AllDigits(s: string) {
    forall i :: 0 <= i < |s| ==> IsDigit(s[i])
  }

  /** The text JavaScript writes for an integer: an optional '-', then digits. */
  predicate IsDecimal(s: string) {
    if |s| > 0 && s[0] == '-' then |s| > 1 && AllDigits(s[1..]) else |s| > 0 && AllDigits(s)
  }

  function DigitChar(d: nat): (c: char)
    requires d < 10
    ensures IsDigit(c)
  {
    ('0' as int + d) as char
  }

  function DigitValue(c: char): (d: nat)
    requires IsDigit(c)
    ensures d < 10 && DigitChar(d) == c
  {
    c as int - '0' as int
  }

  /** The decimal digits of `n`, most significant first, without leading zeros. */
  function NatToString(n: nat): (s: string)
    ensures |s| > 0 && AllDigits(s)
    ensures s[0] == '0' ==> n == 0
    decreases n
  {
    if n < 10 then [DigitChar(n)] else NatToString(n / 10) + [DigitChar(n % 10)]
  }

  /** The integer `n` as JavaScript prints it (`${n}` or `'...' + n`). */
  function IntToString(n: int): (s: string)
    ensures IsDecimal(s)
    ensures s[0] == '-' <==> n < 0
  {
    if n < 0 then "-" + NatToString(-n) else NatToString(n)
  }

  /** Reads a run of decimal digits back as a number. */
  function ParseDigits(s: string): nat
    requires AllDigits(s)
    decreases |s|
  {
    if s == [] then 0 else ParseDigits(s[..|s| - 1]) * 10 + DigitValue(s[|s| - 1])
  }

  /** Reads the text of an integer back as the integer. */
  function ParseInt(s: string): int
    requires IsDecimal(s)
  {
    if s[0] == '-' then -(ParseDigits(s[1..]) as int) else ParseDigits(s)
  }

  lemma {:induction false} ParseNatToString(n: nat)
    ensures ParseDigits(NatToString(n)) == n
    decreases n
  {
    if n >= 10 {
      ParseNatToString(n / 10);
      var s := NatToString(n);
      assert s[..|s| - 1] == NatToString(n / 10);
    }
  }

  /** The printed text of an integer determines the integer. */
  lemma ParseIntToString(n: int)
    ensures ParseInt(IntToString(n)) == n
  {
    if n < 0 {
      ParseNatToString(-n);
      assert IntToString(n)[1..] == NatToString(-n);
    } else {
      ParseNatToString(n);
    }
  }

  /** `prefix + n` (or the template `${n}` after a fixed prefix). */
  function Label(prefix: string, n: int): string {
    prefix + IntToString(n)
  }

  /** A label starts with its prefix and the rest reads back as the number. */
  lemma LabelReadsBack(prefix: string, n: int)
    ensures |Label(prefix, n)| > |prefix| && Label(prefix, n)[..|prefix|] == prefix
    ensures IsDecimal(Label(prefix, n)[|prefix|..]) && ParseInt(Label(prefix, n)[|prefix|..]) == n
  {
    ParseIntToString(n);
    assert Label(prefix, n)[|prefix|..] == IntToString(n);
  }

  /** Two integers print the same exactly when they are equal. */
  lemma IntToStringInjective(m: int, n: int)
    ensures IntToString(m) == IntToString(n) <==> m == n
  {
    if IntToString(m) == IntToString(n) {
      ParseIntToString(m);
      ParseIntToString(n);
    }
  }
}
