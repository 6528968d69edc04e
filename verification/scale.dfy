/**
  Integer range scaling: the affine remap of `input` from the input range
  `[input_min, input_max]` onto the output range `[output_min, output_max]`,
    output_min + (input - input_min) * (output_max - output_min) / (input_max - input_min),
  where `/` is C's integer division, which truncates toward zero.

  The arithmetic is done over mathematical integers; only the returned
  value is brought back to the declared width. A zero-width input range has
  no meaning (the division would be by zero) and is excluded by precondition.
 */
module Scale {
  import opened DataTypes

  /** True when `x` lies between `a` and `b`, in whichever order they come. */
  predicate Between(x: int, a: int, b: int) {
    (a <= x <= b) || (b <= x <= a)
  }

  // ---------------------------------------------------------------------
  // C integer division
  // ---------------------------------------------------------------------

  function Abs(x: int): nat {
    if x < 0 then -x else x
  }

  /**
    `q` is the quotient of `n` by `d` rounded toward zero: its magnitude is
    the whole number of times `|d|` fits into `|n|`, and its sign is the
    sign of the exact quotient.
   */
  predicate IsTruncQuotient(q: int, n: int, d: int) {
    && Abs(q) * Abs(d) <= Abs(n) < (Abs(q) + 1) * Abs(d)
    && (q > 0 ==> (n > 0) == (d > 0))
    && (q < 0 ==> (n > 0) != (d > 0))
  }

  /** C's `/` on integers, which truncates toward zero (C99 section 6.5.5). */
  function TruncDiv(n: int, d: int): (q: int)
    requires d != 0
    ensures IsTruncQuotient(q, n, d)
  {
    var a := Abs(n) / Abs(d);
    DivBounds(Abs(n), Abs(d));
    if (n >= 0) == (d > 0) then a else -a
  }

  lemma DivBounds(n: nat, d: nat)
    requires d > 0
    ensures (n / d) * d <= n < (n / d + 1) * d
  {
  }

  /** Exact division: a multiple of `d` divided by `d` gives back the factor. */
  lemma {:induction false} TruncDivExact(k: int, d: int)
    requires d != 0
    ensures TruncDiv(k * d, d) == k
  {
    var q := TruncDiv(k * d, d);
    AbsMul(k, d);
    assert Abs(q) * Abs(d) <= Abs(k) * Abs(d) < (Abs(q) + 1) * Abs(d);
    MulMonotoneInv(Abs(q), Abs(k), Abs(d));
    MulStrictInv(Abs(k), Abs(q) + 1, Abs(d));
    assert Abs(q) == Abs(k);
    if k > 0 {
      assert (k * d > 0) == (d > 0) by { SignOfProduct(k, d); }
    } else if k < 0 {
      assert (k * d > 0) != (d > 0) by { SignOfProduct(k, d); }
    }
  }

  lemma AbsMul(a: int, b: int)
    ensures Abs(a * b) == Abs(a) * Abs(b)
  {
    if a < 0 && b < 0 {
      assert a * b == (-a) * (-b);
    } else if a < 0 {
      assert a * b == -((-a) * b);
    } else if b < 0 {
      assert a * b == -(a * (-b));
    }
  }

  lemma SignOfProduct(a: int, b: int)
    requires a != 0 && b != 0
    ensures (a * b > 0) == ((a > 0) == (b > 0))
  {
    if a > 0 && b < 0 {
      assert a * b == -(a * (-b));
    } else if a < 0 && b > 0 {
      assert a * b == -((-a) * b);
    } else if a < 0 && b < 0 {
      assert a * b == (-a) * (-b);
    }
  }

  lemma MulLe(x: int, y: int, z: nat)
    ensures x <= y ==> x * z <= y * z
  {
    if x <= y {
      var e: nat := y - x;
      assert y * z == x * z + e * z;
    }
  }

  lemma MulLt(x: int, y: int, z: nat)
    ensures x < y && z > 0 ==> x * z < y * z
  {
    if x < y && z > 0 {
      var e: nat := y - x;
      assert y * z == x * z + e * z;
      MulLe(1, e, z);
    }
  }

  lemma MulMonotoneInv(x: nat, y: nat, d: nat)
    requires d > 0
    requires x * d <= y * d
    ensures x <= y
  {
    MulLt(y, x, d);
  }

  lemma MulStrictInv(x: nat, y: nat, d: nat)
    requires x * d < y * d
    ensures x < y
  {
    MulLe(y, x, d);
  }

  // ---------------------------------------------------------------------
  // The affine remap over mathematical integers
  // ---------------------------------------------------------------------

  /** The remap, argument order as in the C signatures. */
  function ScaleInt(input: int, input_max: int, input_min: int, output_max: int, output_min: int): int
    requires input_max != input_min
  {
    output_min + TruncDiv((input - input_min) * (output_max - output_min), input_max - input_min)
  }

  /** A C quotient of a dividend at most `m` times the divisor is at most `m` in magnitude. */
  lemma TruncQuotientMagnitude(q: int, n: int, d: int, m: nat)
    requires d != 0
    requires IsTruncQuotient(q, n, d)
    requires Abs(n) <= m * Abs(d)
    ensures Abs(q) <= m
  {
    MulMonotoneInv(Abs(q), m, Abs(d));
  }

  /**
    When `t` has the sign of `d` (or is zero), the C quotient of `t * o` by
    `d` is zero or has the sign of `o`.
   */
  lemma TruncQuotientSign(q: int, t: int, o: int, d: int)
    requires d != 0
    requires IsTruncQuotient(q, t * o, d)
    requires t == 0 || (t > 0) == (d > 0)
    ensures q == 0 || (q > 0) == (o > 0)
  {
    if q != 0 {
      MulLe(1, Abs(q), Abs(d));
      assert Abs(t * o) > 0;
      assert t != 0 && o != 0;
      SignOfProduct(t, o);
    }
  }

  /** An input inside the input range lands inside the output range. */
  lemma {:induction false} ScaleIntInRange(input: int, input_max: int, input_min: int,
                                           output_max: int, output_min: int)
    requires input_max != input_min
    requires Between(input, input_min, input_max)
    ensures Between(ScaleInt(input, input_max, input_min, output_max, output_min), output_min, output_max)
  {
    var t := input - input_min;
    var d := input_max - input_min;
    var o := output_max - output_min;
    var q := TruncDiv(t * o, d);
    AbsMul(t, o);
    MulLe(Abs(t), Abs(d), Abs(o));
    assert Abs(t * o) <= Abs(o) * Abs(d);
    TruncQuotientMagnitude(q, t * o, d, Abs(o));
    TruncQuotientSign(q, t, o, d);
  }

  /** The two ends of the input range map to the two ends of the output range. */
  lemma {:induction false} ScaleIntEndpoints(input_max: int, input_min: int, output_max: int, output_min: int)
    requires input_max != input_min
    ensures ScaleInt(input_min, input_max, input_min, output_max, output_min) == output_min
    ensures ScaleInt(input_max, input_max, input_min, output_max, output_min) == output_max
  {
    var d := input_max - input_min;
    var o := output_max - output_min;
    assert 0 * o == 0 * d;
    TruncDivExact(0, d);
    assert d * o == o * d;
    TruncDivExact(o, d);
  }

  /** Remapping a range onto itself is the identity. */
  lemma {:induction false} ScaleIntIdentity(input: int, input_max: int, input_min: int)
    requires input_max != input_min
    ensures ScaleInt(input, input_max, input_min, input_max, input_min) == input
  {
    TruncDivExact(input - input_min, input_max - input_min);
  }

  // ---------------------------------------------------------------------
  // Return-type conversion
  // ---------------------------------------------------------------------

  /** Conversion of an integer to int16: reduction modulo 2^16 into the signed range. */
  function ToInt16(x: int): (r: Int16)
    ensures INT16_MIN <= x <= INT16_MAX ==> r as int == x
    ensures (x - r as int) % 0x1_0000 == 0
  {
    var m := x % 0x1_0000;
    if m > INT16_MAX then (m - 0x1_0000) as Int16 else m as Int16
  }

  /** Conversion of an integer to int32: reduction modulo 2^32 into the signed range. */
  function ToInt32(x: int): (r: Int32)
    ensures INT32_MIN <= x <= INT32_MAX ==> r as int == x
    ensures (x - r as int) % 0x1_0000_0000 == 0
  {
    var m := x % 0x1_0000_0000;
    if m > INT32_MAX then (m - 0x1_0000_0000) as Int32 else m as Int32
  }

  /** Conversion of an integer to Uint16: reduction modulo 2^16. */
  function ToUint16(x: int): (r: Uint16)
    ensures 0 <= x <= UINT16_MAX ==> r as int == x
    ensures (x - r as int) % 0x1_0000 == 0
  {
    (x % 0x1_0000) as Uint16
  }

  /** Conversion of an integer to Uint32: reduction modulo 2^32. */
  function ToUint32(x: int): (r: Uint32)
    ensures 0 <= x <= UINT32_MAX ==> r as int == x
    ensures (x - r as int) % 0x1_0000_0000 == 0
  {
    (x % 0x1_0000_0000) as Uint32
  }

  // ---------------------------------------------------------------------
  // The four integer widths
  // ---------------------------------------------------------------------

  /**
    `i16Scale`: an in-range input gives an in-range int16 output equal to
    `output_min` plus the C quotient of the affine formula; the range ends
    map to the range ends. Any input gives the remapped value reduced
    modulo 2^16 (`I16ScaleWraps`) into the int16 range.
   */
  function I16Scale(input: Int16, input_max: Int16, input_min: Int16, output_max: Int16, output_min: Int16): (r: Int16)
    requires input_max != input_min
    ensures Between(input as int, input_min as int, input_max as int) ==>
      && Between(r as int, output_min as int, output_max as int)
      && IsTruncQuotient(r as int - output_min as int,
                         (input as int - input_min as int) * (output_max as int - output_min as int),
                         input_max as int - input_min as int)
    ensures input == input_min ==> r == output_min
    ensures input == input_max ==> r == output_max
  {
    var x := ScaleInt(input as int, input_max as int, input_min as int, output_max as int, output_min as int);
    ScaleIntEndpoints(input_max as int, input_min as int, output_max as int, output_min as int);
    if Between(input as int, input_min as int, input_max as int) then
      ScaleIntInRange(input as int, input_max as int, input_min as int, output_max as int, output_min as int);
      x as Int16
    else
      ToInt16(x)
  }

  /**
    `i32Scale`: an in-range input gives an in-range int32 output equal to
    `output_min` plus the C quotient of the affine formula; the range ends
    map to the range ends. Any input gives the remapped value reduced
    modulo 2^32 (`I32ScaleWraps`) into the int32 range.
   */
  function I32Scale(input: Int32, input_max: Int32, input_min: Int32, output_max: Int32, output_min: Int32): (r: Int32)
    requires input_max != input_min
    ensures Between(input as int, input_min as int, input_max as int) ==>
      && Between(r as int, output_min as int, output_max as int)
      && IsTruncQuotient(r as int - output_min as int,
                         (input as int - input_min as int) * (output_max as int - output_min as int),
                         input_max as int - input_min as int)
    ensures input == input_min ==> r == output_min
    ensures input == input_max ==> r == output_max
  {
    var x := ScaleInt(input as int, input_max as int, input_min as int, output_max as int, output_min as int);
    ScaleIntEndpoints(input_max as int, input_min as int, output_max as int, output_min as int);
    if Between(input as int, input_min as int, input_max as int) then
      ScaleIntInRange(input as int, input_max as int, input_min as int, output_max as int, output_min as int);
      x as Int32
    else
      ToInt32(x)
  }

  /**
    `ui16Scale`: an in-range input gives an in-range Uint16 output equal to
    `output_min` plus the C quotient of the affine formula; the range ends
    map to the range ends. Any input gives the remapped value reduced
    modulo 2^16 (`Ui16ScaleWraps`) into the Uint16 range.
   */
  function Ui16Scale(input: Uint16, input_max: Uint16, input_min: Uint16, output_max: Uint16, output_min: Uint16): (r: Uint16)
    requires input_max != input_min
    ensures Between(input as int, input_min as int, input_max as int) ==>
      && Between(r as int, output_min as int, output_max as int)
      && IsTruncQuotient(r as int - output_min as int,
                         (input as int - input_min as int) * (output_max as int - output_min as int),
                         input_max as int - input_min as int)
    ensures input == input_min ==> r == output_min
    ensures input == input_max ==> r == output_max
  {
    var x := ScaleInt(input as int, input_max as int, input_min as int, output_max as int, output_min as int);
    ScaleIntEndpoints(input_max as int, input_min as int, output_max as int, output_min as int);
    if Between(input as int, input_min as int, input_max as int) then
      ScaleIntInRange(input as int, input_max as int, input_min as int, output_max as int, output_min as int);
      x as Uint16
    else
      ToUint16(x)
  }

  /**
    `ui32Scale`: an in-range input gives an in-range Uint32 output equal to
    `output_min` plus the C quotient of the affine formula; the range ends
    map to the range ends. Any input gives the remapped value reduced
    modulo 2^32 (`Ui32ScaleWraps`) into the Uint32 range.
   */
  function Ui32Scale(input: Uint32, input_max: Uint32, input_min: Uint32, output_max: Uint32, output_min: Uint32): (r: Uint32)
    requires input_max != input_min
    ensures Between(input as int, input_min as int, input_max as int) ==>
      && Between(r as int, output_min as int, output_max as int)
      && IsTruncQuotient(r as int - output_min as int,
                         (input as int - input_min as int) * (output_max as int - output_min as int),
                         input_max as int - input_min as int)
    ensures input == input_min ==> r == output_min
    ensures input == input_max ==> r == output_max
  {
    var x := ScaleInt(input as int, input_max as int, input_min as int, output_max as int, output_min as int);
    ScaleIntEndpoints(input_max as int, input_min as int, output_max as int, output_min as int);
    if Between(input as int, input_min as int, input_max as int) then
      ScaleIntInRange(input as int, input_max as int, input_min as int, output_max as int, output_min as int);
      x as Uint32
    else
      ToUint32(x)
  }

  /** Every `I16Scale` result, in range or not, is the remapped value modulo 2^16. */
  lemma I16ScaleWraps(input: Int16, input_max: Int16, input_min: Int16, output_max: Int16, output_min: Int16)
    requires input_max != input_min
    ensures (ScaleInt(input as int, input_max as int, input_min as int, output_max as int, output_min as int) - I16Scale(input, input_max, input_min, output_max, output_min) as int) % 0x1_0000 == 0
  {
  }

  /** Every `I32Scale` result, in range or not, is the remapped value modulo 2^32. */
  lemma I32ScaleWraps(input: Int32, input_max: Int32, input_min: Int32, output_max: Int32, output_min: Int32)
    requires input_max != input_min
    ensures (ScaleInt(input as int, input_max as int, input_min as int, output_max as int, output_min as int) - I32Scale(input, input_max, input_min, output_max, output_min) as int) % 0x1_0000_0000 == 0
  {
  }

  /** Every `Ui16Scale` result, in range or not, is the remapped value modulo 2^16. */
  lemma Ui16ScaleWraps(input: Uint16, input_max: Uint16, input_min: Uint16, output_max: Uint16, output_min: Uint16)
    requires input_max != input_min
    ensures (ScaleInt(input as int, input_max as int, input_min as int, output_max as int, output_min as int) - Ui16Scale(input, input_max, input_min, output_max, output_min) as int) % 0x1_0000 == 0
  {
  }

  /** Every `Ui32Scale` result, in range or not, is the remapped value modulo 2^32. */
  lemma Ui32ScaleWraps(input: Uint32, input_max: Uint32, input_min: Uint32, output_max: Uint32, output_min: Uint32)
    requires input_max != input_min
    ensures (ScaleInt(input as int, input_max as int, input_min as int, output_max as int, output_min as int) - Ui32Scale(input, input_max, input_min, output_max, output_min) as int) % 0x1_0000_0000 == 0
  {
  }
}
