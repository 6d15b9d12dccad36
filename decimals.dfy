/** Python `Decimal` values with a non-positive exponent, as the payments code
    receives and stores them: `Decimal(units, scale)` stands for
    units * 10^-scale, with the digits Python keeps (so "10.50" has scale 2 and
    "10.5" has scale 1). Money held by the database has exactly two places and
    is carried as an integer count of cents. */
module Decimals {

  datatype Decimal = Decimal(units: int, scale: nat)

  function Pow10(n: nat): (p: nat)
    ensures p >= 1
  {
    if n == 0 then 1 else 10 * Pow10(n - 1)
  }

  lemma {:induction false} Pow10Add(a: nat, b: nat)
    ensures Pow10(a + b) == Pow10(a) * Pow10(b)
  {
    if a > 0 {
      Pow10Add(a - 1, b);
      assert Pow10(a + b) == 10 * Pow10(a - 1 + b);
    }
  }

  lemma {:induction false} Pow10Monotone(a: nat, b: nat)
    requires a <= b
    ensures Pow10(a) <= Pow10(b)
  {
    if a < b {
      Pow10Monotone(a, b - 1);
    }
  }

  /** A two-place amount of `c` cents, as a DecimalField(decimal_places=2) holds it. */
  function Cents(c: int): Decimal {
    Decimal(c, 2)
  }

  function Abs(x: int): nat {
    if x < 0 then -x else x
  }

  /** Number of decimal digits Python's `Decimal.as_tuple()` lists for `n`
      (zero has the one digit 0). */
  function {:induction false} NumDigits(n: nat): (d: nat)
    ensures d >= 1
    ensures n < Pow10(d)
    ensures d > 1 ==> Pow10(d - 1) <= n
  {
    if n < 10 then 1 else 1 + NumDigits(n / 10)
  }

  /** Python's `int()` of an exact quotient: division rounding toward zero
      (Dafny's own `/` rounds toward minus infinity for a negative dividend). */
  function TruncDiv(a: int, b: int): (q: int)
    requires b > 0
    ensures a >= 0 ==> 0 <= a - q * b < b
    ensures a < 0 ==> -b < a - q * b <= 0
  {
    if a >= 0 then a / b else -((-a) / b)
  }

  /** Multiplying by a positive factor keeps the sign and, for a non-zero
      integer, at least the factor's magnitude. */
  lemma ProductSign(a: int, b: int)
    requires b > 0
    ensures a >= 0 <==> a * b >= 0
    ensures a >= 1 ==> a * b >= b
    ensures a <= -1 ==> a * b <= -b
  {
    if a >= 1 {
      assert a * b == (a - 1) * b + b;
    }
    if a < 0 {
      assert a * b == -((-a) * b);
      assert (-a) * b == (-a - 1) * b + b;
    }
  }

  /** Truncating division of an exact multiple gives back the factor. */
  lemma TruncDivExact(q: int, b: int)
    requires b > 0
    ensures TruncDiv(q * b, b) == q
  {
    var t := TruncDiv(q * b, b);
    assert q * b - t * b == (q - t) * b;
    ProductSign(q, b);
    ProductSign(q - t, b);
  }

  /** The precision check of a REST-framework DecimalField(max_digits,
      decimal_places): total digits, places after the point and whole digits
      are bounded. Digits after the point past the value's own digits count
      as leading zeros (0.001 has three digits). */
  predicate FitsDecimalField(d: Decimal, maxDigits: nat, places: nat) {
    var digits := NumDigits(Abs(d.units));
    var total := if digits > d.scale then digits else d.scale;
    total <= maxDigits && d.scale <= places && total - d.scale + places <= maxDigits
  }

  /** The value of a decimal with at most two places, as a count of cents. */
  function QuantizeCents(d: Decimal): (c: int)
    requires d.scale <= 2
    ensures c * Pow10(d.scale) == d.units * 100
  {
    if d.scale == 0 then d.units * 100
    else if d.scale == 1 then d.units * 10
    else d.units
  }

  /** A decimal the field accepts holds fewer than 10^12 cents in magnitude:
      it always fits the numeric(12, 2) column of the intent table. */
  lemma FieldAmountFitsColumn(d: Decimal)
    requires FitsDecimalField(d, 12, 2)
    ensures Abs(QuantizeCents(d)) < Pow10(12)
  {
    var digits := NumDigits(Abs(d.units));
    assert digits <= 10 + d.scale;
    Pow10Monotone(digits, 10 + d.scale);
    assert Pow10(10) == 10000000000;
    assert Pow10(12) == 1000000000000;
    if d.scale == 1 {
      assert Pow10(11) == 100000000000;
    }
  }
}
