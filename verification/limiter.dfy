/**
  The integer limiter family: a clamp into `[low_value, high_value]`, an
  upper limiter that enforces only `high_value` and a lower limiter that
  enforces only `low_value`, each for int16, Uint16, int32 and Uint32.

  Every limiter struct is a record holding its bound(s); every `init*`
  routine builds that record and every `do*` routine takes the record by
  value and returns the limited value, so processing a value can never
  change the stored bounds.

  A value outside the allowable range is replaced by the bound it violates:
  that is the one allowable value nearest to it (see `ClampIsNearest`).
 */
module Limiter {
  import opened DataTypes

  // ---------------------------------------------------------------------
  // Width-independent saturation, shared by every integer width
  // ---------------------------------------------------------------------

  function Dist(x: int, y: int): nat {
    if x <= y then y - x else x - y
  }

  /** Saturates `value` into `[low, high]`. */
  function Clamp(value: int, low: int, high: int): (r: int)
    requires low <= high
    ensures low <= r <= high
    ensures low <= value <= high ==> r == value
  {
    if value > high then high else if value < low then low else value
  }

  /** Saturates `value` from above at `high`. */
  function AtMost(value: int, high: int): (r: int)
    ensures r <= high
    ensures r == value || r == high
    ensures value <= high ==> r == value
  {
    if value > high then high else value
  }

  /** Saturates `value` from below at `low`. */
  function AtLeast(value: int, low: int): (r: int)
    ensures r >= low
    ensures r == value || r == low
    ensures value >= low ==> r == value
  {
    if value < low then low else value
  }

  /** The clamped value is the unique allowable value nearest to the input. */
  lemma ClampIsNearest(value: int, low: int, high: int, w: int)
    requires low <= w <= high
    ensures Dist(Clamp(value, low, high), value) <= Dist(w, value)
    ensures Dist(Clamp(value, low, high), value) == Dist(w, value) ==> w == Clamp(value, low, high)
  {
  }

  /** A clamp is an upper limiter applied after a lower limiter. */
  lemma ClampIsAtMostOfAtLeast(value: int, low: int, high: int)
    requires low <= high
    ensures Clamp(value, low, high) == AtMost(AtLeast(value, low), high)
  {
  }

  // ---------------------------------------------------------------------
  // Int16 limiters
  // ---------------------------------------------------------------------

  /** `I16Limiter`: the maximum and minimum allowable values. */
  datatype I16Limiter = I16Limiter(high_value: Int16, low_value: Int16)

  /** `I16UpperLimiter`: the maximum allowable value. */
  datatype I16UpperLimiter = I16UpperLimiter(high_value: Int16)

  /** `I16LowerLimiter`: the minimum allowable value. */
  datatype I16LowerLimiter = I16LowerLimiter(low_value: Int16)

  /** `initI16Limiter`: the initialised limiter passes exactly the values in `[low_value, high_value]`. */
  function InitI16Limiter(high_value: Int16, low_value: Int16): (limiter: I16Limiter)
    ensures limiter.high_value == high_value && limiter.low_value == low_value
    ensures low_value <= high_value ==>
      forall v: Int16 :: DoI16Limiter(limiter, v) == v <==> low_value <= v <= high_value
  {
    I16Limiter(high_value, low_value)
  }

  /** `doI16Limiter`: the result is allowable, and an allowable input is returned as is. */
  function DoI16Limiter(limiter: I16Limiter, value: Int16): (r: Int16)
    requires limiter.low_value <= limiter.high_value
    ensures limiter.low_value <= r <= limiter.high_value
    ensures limiter.low_value <= value <= limiter.high_value ==> r == value
    ensures value > limiter.high_value ==> r == limiter.high_value
    ensures value < limiter.low_value ==> r == limiter.low_value
  {
    Clamp(value as int, limiter.low_value as int, limiter.high_value as int) as Int16
  }

  /** `initI16UpperLimiter`: the initialised limiter passes exactly the values `<= high_value`. */
  function InitI16UpperLimiter(high_value: Int16): (limiter: I16UpperLimiter)
    ensures limiter.high_value == high_value
    ensures forall v: Int16 :: DoI16UpperLimiter(limiter, v) == v <==> v <= high_value
  {
    I16UpperLimiter(high_value)
  }

  /** `doI16UpperLimiter`: the result never exceeds `high_value`; a smaller input is returned as is. */
  function DoI16UpperLimiter(limiter: I16UpperLimiter, value: Int16): (r: Int16)
    ensures r <= limiter.high_value
    ensures value <= limiter.high_value ==> r == value
    ensures value > limiter.high_value ==> r == limiter.high_value
  {
    AtMost(value as int, limiter.high_value as int) as Int16
  }

  /** `initI16LowerLimiter`: the initialised limiter passes exactly the values `>= low_value`. */
  function InitI16LowerLimiter(low_value: Int16): (limiter: I16LowerLimiter)
    ensures limiter.low_value == low_value
    ensures forall v: Int16 :: DoI16LowerLimiter(limiter, v) == v <==> v >= low_value
  {
    I16LowerLimiter(low_value)
  }

  /** `doI16LowerLimiter`: the result is never below `low_value`; a larger input is returned as is. */
  function DoI16LowerLimiter(limiter: I16LowerLimiter, value: Int16): (r: Int16)
    ensures r >= limiter.low_value
    ensures value >= limiter.low_value ==> r == value
    ensures value < limiter.low_value ==> r == limiter.low_value
  {
    AtLeast(value as int, limiter.low_value as int) as Int16
  }

  /**
    The three Int16 limiters are idempotent, and the clamp is the upper
    limiter for `high_value` applied after the lower limiter for `low_value`.
   */
  lemma I16LimiterLaws(limiter: I16Limiter, upper: I16UpperLimiter, lower: I16LowerLimiter, value: Int16)
    requires limiter.low_value <= limiter.high_value
    ensures DoI16Limiter(limiter, DoI16Limiter(limiter, value)) == DoI16Limiter(limiter, value)
    ensures DoI16UpperLimiter(upper, DoI16UpperLimiter(upper, value)) == DoI16UpperLimiter(upper, value)
    ensures DoI16LowerLimiter(lower, DoI16LowerLimiter(lower, value)) == DoI16LowerLimiter(lower, value)
    ensures DoI16Limiter(limiter, value)
         == DoI16UpperLimiter(InitI16UpperLimiter(limiter.high_value),
                              DoI16LowerLimiter(InitI16LowerLimiter(limiter.low_value), value))
  {
    ClampIsAtMostOfAtLeast(value as int, limiter.low_value as int, limiter.high_value as int);
  }

  // ---------------------------------------------------------------------
  // Uint16 limiters
  // ---------------------------------------------------------------------

  /** `Ui16Limiter`: the maximum and minimum allowable values. */
  datatype Ui16Limiter = Ui16Limiter(high_value: Uint16, low_value: Uint16)

  /** `Ui16UpperLimiter`: the maximum allowable value. */
  datatype Ui16UpperLimiter = Ui16UpperLimiter(high_value: Uint16)

  /** `Ui16LowerLimiter`: the minimum allowable value. */
  datatype Ui16LowerLimiter = Ui16LowerLimiter(low_value: Uint16)

  /** `initUi16Limiter`: the initialised limiter passes exactly the values in `[low_value, high_value]`. */
  function InitUi16Limiter(high_value: Uint16, low_value: Uint16): (limiter: Ui16Limiter)
    ensures limiter.high_value == high_value && limiter.low_value == low_value
    ensures low_value <= high_value ==>
      forall v: Uint16 :: DoUi16Limiter(limiter, v) == v <==> low_value <= v <= high_value
  {
    Ui16Limiter(high_value, low_value)
  }

  /** `doUi16Limiter`: the result is allowable, and an allowable input is returned as is. */
  function DoUi16Limiter(limiter: Ui16Limiter, value: Uint16): (r: Uint16)
    requires limiter.low_value <= limiter.high_value
    ensures limiter.low_value <= r <= limiter.high_value
    ensures limiter.low_value <= value <= limiter.high_value ==> r == value
    ensures value > limiter.high_value ==> r == limiter.high_value
    ensures value < limiter.low_value ==> r == limiter.low_value
  {
    Clamp(value as int, limiter.low_value as int, limiter.high_value as int) as Uint16
  }

  /** `initUi16UpperLimiter`: the initialised limiter passes exactly the values `<= high_value`. */
  function InitUi16UpperLimiter(high_value: Uint16): (limiter: Ui16UpperLimiter)
    ensures limiter.high_value == high_value
    ensures forall v: Uint16 :: DoUi16UpperLimiter(limiter, v) == v <==> v <= high_value
  {
    Ui16UpperLimiter(high_value)
  }

  /** `doUi16UpperLimiter`: the result never exceeds `high_value`; a smaller input is returned as is. */
  function DoUi16UpperLimiter(limiter: Ui16UpperLimiter, value: Uint16): (r: Uint16)
    ensures r <= limiter.high_value
    ensures value <= limiter.high_value ==> r == value
    ensures value > limiter.high_value ==> r == limiter.high_value
  {
    AtMost(value as int, limiter.high_value as int) as Uint16
  }

  /** `initUi16LowerLimiter`: the initialised limiter passes exactly the values `>= low_value`. */
  function InitUi16LowerLimiter(low_value: Uint16): (limiter: Ui16LowerLimiter)
    ensures limiter.low_value == low_value
    ensures forall v: Uint16 :: DoUi16LowerLimiter(limiter, v) == v <==> v >= low_value
  {
    Ui16LowerLimiter(low_value)
  }

  /** `doUi16LowerLimiter`: the result is never below `low_value`; a larger input is returned as is. */
  function DoUi16LowerLimiter(limiter: Ui16LowerLimiter, value: Uint16): (r: Uint16)
    ensures r >= limiter.low_value
    ensures value >= limiter.low_value ==> r == value
    ensures value < limiter.low_value ==> r == limiter.low_value
  {
    AtLeast(value as int, limiter.low_value as int) as Uint16
  }

  /**
    The three Uint16 limiters are idempotent, and the clamp is the upper
    limiter for `high_value` applied after the lower limiter for `low_value`.
   */
  lemma Ui16LimiterLaws(limiter: Ui16Limiter, upper: Ui16UpperLimiter, lower: Ui16LowerLimiter, value: Uint16)
    requires limiter.low_value <= limiter.high_value
    ensures DoUi16Limiter(limiter, DoUi16Limiter(limiter, value)) == DoUi16Limiter(limiter, value)
    ensures DoUi16UpperLimiter(upper, DoUi16UpperLimiter(upper, value)) == DoUi16UpperLimiter(upper, value)
    ensures DoUi16LowerLimiter(lower, DoUi16LowerLimiter(lower, value)) == DoUi16LowerLimiter(lower, value)
    ensures DoUi16Limiter(limiter, value)
         == DoUi16UpperLimiter(InitUi16UpperLimiter(limiter.high_value),
                              DoUi16LowerLimiter(InitUi16LowerLimiter(limiter.low_value), value))
  {
    ClampIsAtMostOfAtLeast(value as int, limiter.low_value as int, limiter.high_value as int);
  }

  // ---------------------------------------------------------------------
  // Int32 limiters
  // ---------------------------------------------------------------------

  /** `I32Limiter`: the maximum and minimum allowable values. */
  datatype I32Limiter = I32Limiter(high_value: Int32, low_value: Int32)

  /** `I32UpperLimiter`: the maximum allowable value. */
  datatype I32UpperLimiter = I32UpperLimiter(high_value: Int32)

  /** `I32LowerLimiter`: the minimum allowable value. */
  datatype I32LowerLimiter = I32LowerLimiter(low_value: Int32)

  /** `initI32Limiter`: the initialised limiter passes exactly the values in `[low_value, high_value]`. */
  function InitI32Limiter(high_value: Int32, low_value: Int32): (limiter: I32Limiter)
    ensures limiter.high_value == high_value && limiter.low_value == low_value
    ensures low_value <= high_value ==>
      forall v: Int32 :: DoI32Limiter(limiter, v) == v <==> low_value <= v <= high_value
  {
    I32Limiter(high_value, low_value)
  }

  /** `doI32Limiter`: the result is allowable, and an allowable input is returned as is. */
  function DoI32Limiter(limiter: I32Limiter, value: Int32): (r: Int32)
    requires limiter.low_value <= limiter.high_value
    ensures limiter.low_value <= r <= limiter.high_value
    ensures limiter.low_value <= value <= limiter.high_value ==> r == value
    ensures value > limiter.high_value ==> r == limiter.high_value
    ensures value < limiter.low_value ==> r == limiter.low_value
  {
    Clamp(value as int, limiter.low_value as int, limiter.high_value as int) as Int32
  }

  /** `initI32UpperLimiter`: the initialised limiter passes exactly the values `<= high_value`. */
  function InitI32UpperLimiter(high_value: Int32): (limiter: I32UpperLimiter)
    ensures limiter.high_value == high_value
    ensures forall v: Int32 :: DoI32UpperLimiter(limiter, v) == v <==> v <= high_value
  {
    I32UpperLimiter(high_value)
  }

  /** `doI32UpperLimiter`: the result never exceeds `high_value`; a smaller input is returned as is. */
  function DoI32UpperLimiter(limiter: I32UpperLimiter, value: Int32): (r: Int32)
    ensures r <= limiter.high_value
    ensures value <= limiter.high_value ==> r == value
    ensures value > limiter.high_value ==> r == limiter.high_value
  {
    AtMost(value as int, limiter.high_value as int) as Int32
  }

  /** `initI32LowerLimiter`: the initialised limiter passes exactly the values `>= low_value`. */
  function InitI32LowerLimiter(low_value: Int32): (limiter: I32LowerLimiter)
    ensures limiter.low_value == low_value
    ensures forall v: Int32 :: DoI32LowerLimiter(limiter, v) == v <==> v >= low_value
  {
    I32LowerLimiter(low_value)
  }

  /** `doI32LowerLimiter`: the result is never below `low_value`; a larger input is returned as is. */
  function DoI32LowerLimiter(limiter: I32LowerLimiter, value: Int32): (r: Int32)
    ensures r >= limiter.low_value
    ensures value >= limiter.low_value ==> r == value
    ensures value < limiter.low_value ==> r == limiter.low_value
  {
    AtLeast(value as int, limiter.low_value as int) as Int32
  }

  /**
    The three Int32 limiters are idempotent, and the clamp is the upper
    limiter for `high_value` applied after the lower limiter for `low_value`.
   */
  lemma I32LimiterLaws(limiter: I32Limiter, upper: I32UpperLimiter, lower: I32LowerLimiter, value: Int32)
    requires limiter.low_value <= limiter.high_value
    ensures DoI32Limiter(limiter, DoI32Limiter(limiter, value)) == DoI32Limiter(limiter, value)
    ensures DoI32UpperLimiter(upper, DoI32UpperLimiter(upper, value)) == DoI32UpperLimiter(upper, value)
    ensures DoI32LowerLimiter(lower, DoI32LowerLimiter(lower, value)) == DoI32LowerLimiter(lower, value)
    ensures DoI32Limiter(limiter, value)
         == DoI32UpperLimiter(InitI32UpperLimiter(limiter.high_value),
                              DoI32LowerLimiter(InitI32LowerLimiter(limiter.low_value), value))
  {
    ClampIsAtMostOfAtLeast(value as int, limiter.low_value as int, limiter.high_value as int);
  }

  // ---------------------------------------------------------------------
  // Uint32 limiters
  // ---------------------------------------------------------------------

  /** `Ui32Limiter`: the maximum and minimum allowable values. */
  datatype Ui32Limiter = Ui32Limiter(high_value: Uint32, low_value: Uint32)

  /** `Ui32UpperLimiter`: the maximum allowable value. */
  datatype Ui32UpperLimiter = Ui32UpperLimiter(high_value: Uint32)

  /** `Ui32LowerLimiter`: the minimum allowable value. */
  datatype Ui32LowerLimiter = Ui32LowerLimiter(low_value: Uint32)

  /** `initUi32Limiter`: the initialised limiter passes exactly the values in `[low_value, high_value]`. */
  function InitUi32Limiter(high_value: Uint32, low_value: Uint32): (limiter: Ui32Limiter)
    ensures limiter.high_value == high_value && limiter.low_value == low_value
    ensures low_value <= high_value ==>
      forall v: Uint32 :: DoUi32Limiter(limiter, v) == v <==> low_value <= v <= high_value
  {
    Ui32Limiter(high_value, low_value)
  }

  /** `doUi32Limiter`: the result is allowable, and an allowable input is returned as is. */
  function DoUi32Limiter(limiter: Ui32Limiter, value: Uint32): (r: Uint32)
    requires limiter.low_value <= limiter.high_value
    ensures limiter.low_value <= r <= limiter.high_value
    ensures limiter.low_value <= value <= limiter.high_value ==> r == value
    ensures value > limiter.high_value ==> r == limiter.high_value
    ensures value < limiter.low_value ==> r == limiter.low_value
  {
    Clamp(value as int, limiter.low_value as int, limiter.high_value as int) as Uint32
  }

  /** `initUi32UpperLimiter`: the initialised limiter passes exactly the values `<= high_value`. */
  function InitUi32UpperLimiter(high_value: Uint32): (limiter: Ui32UpperLimiter)
    ensures limiter.high_value == high_value
    ensures forall v: Uint32 :: DoUi32UpperLimiter(limiter, v) == v <==> v <= high_value
  {
    Ui32UpperLimiter(high_value)
  }

  /** `doUi32UpperLimiter`: the result never exceeds `high_value`; a smaller input is returned as is. */
  function DoUi32UpperLimiter(limiter: Ui32UpperLimiter, value: Uint32): (r: Uint32)
    ensures r <= limiter.high_value
    ensures value <= limiter.high_value ==> r == value
    ensures value > limiter.high_value ==> r == limiter.high_value
  {
    AtMost(value as int, limiter.high_value as int) as Uint32
  }

  /** `initUi32LowerLimiter`: the initialised limiter passes exactly the values `>= low_value`. */
  function InitUi32LowerLimiter(low_value: Uint32): (limiter: Ui32LowerLimiter)
    ensures limiter.low_value == low_value
    ensures forall v: Uint32 :: DoUi32LowerLimiter(limiter, v) == v <==> v >= low_value
  {
    Ui32LowerLimiter(low_value)
  }

  /** `doUi32LowerLimiter`: the result is never below `low_value`; a larger input is returned as is. */
  function DoUi32LowerLimiter(limiter: Ui32LowerLimiter, value: Uint32): (r: Uint32)
    ensures r >= limiter.low_value
    ensures value >= limiter.low_value ==> r == value
    ensures value < limiter.low_value ==> r == limiter.low_value
  {
    AtLeast(value as int, limiter.low_value as int) as Uint32
  }

  /**
    The three Uint32 limiters are idempotent, and the clamp is the upper
    limiter for `high_value` applied after the lower limiter for `low_value`.
   */
  lemma Ui32LimiterLaws(limiter: Ui32Limiter, upper: Ui32UpperLimiter, lower: Ui32LowerLimiter, value: Uint32)
    requires limiter.low_value <= limiter.high_value
    ensures DoUi32Limiter(limiter, DoUi32Limiter(limiter, value)) == DoUi32Limiter(limiter, value)
    ensures DoUi32UpperLimiter(upper, DoUi32UpperLimiter(upper, value)) == DoUi32UpperLimiter(upper, value)
    ensures DoUi32LowerLimiter(lower, DoUi32LowerLimiter(lower, value)) == DoUi32LowerLimiter(lower, value)
    ensures DoUi32Limiter(limiter, value)
         == DoUi32UpperLimiter(InitUi32UpperLimiter(limiter.high_value),
                              DoUi32LowerLimiter(InitUi32LowerLimiter(limiter.low_value), value))
  {
    ClampIsAtMostOfAtLeast(value as int, limiter.low_value as int, limiter.high_value as int);
  }
}
