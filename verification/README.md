# Direct-Form I filters, limiters and range scaling

A Dafny model of three parts of the JwLib core numeric library for a TI C2000
controller:

- **Integer limiters** (`include/jwlib_core_limiter.h`). There is a clamp into
  `[low_value, high_value]`, an upper limiter and a lower limiter, for the int16,
  Uint16, int32 and Uint32 types. Each limiter struct is an immutable record. `init*`
  builds the record and `do*` takes it by value and returns the limited value.
  Processing therefore never changes the stored bounds, and repeating a call
  with the same arguments gives the same result.
- **Direct-Form I filters** (`include/jwlib_core_dfi_filter.h`). A first- or
  second-order instance is its coefficients plus its delay line. Three
  operations act on it. A designer sets the coefficients, the "init data"
  reset zeroes the delay line, and a step consumes one input sample. The step
  returns one output sample and shifts the delay line. Arithmetic is over
  `real`. The recurrence follows the textbook convention
  `y = b0 x + b1 x[-1] (+ b2 x[-2]) - a1 y[-1] (- a2 y[-2])`.
  The sign convention is a modelling choice, because the declarations do not show it.
  Repeated steps over a stream are proved to compute exactly the difference
  equation indexed over the whole stream.
  Every operation is a pure function, so the same state and the same input
  always give the same output.
- **Integer range scaling** (`include/jwlib_core_scale.h`). The four functions
  convert `input` from `[input_min, input_max]` into `[output_min, output_max]`.
  The declarations say only that the value is converted to the desired range.
  The model chooses one affine formula for this, described under the modelling
  choices below. The arithmetic is over mathematical integers, and the proofs
  show that an in-range result fits its declared width.

The fixed-width typedefs of `include/jwlib_core_datatype.h` are newtypes in
`datatypes.dfy`. On this target `short` is 16 bits and `long` is 32 bits.

The declarations and their doc-comments are the whole source the model follows.
The C implementation files are not part of this model. Behaviour the comments
leave open is stated below as a modelling choice.

Modelling choices:
- A limiter maps a value outside the allowable range to the bound it violates.
  That bound is the one allowable value nearest the input (`Limiter.ClampIsNearest`).
- The clamp requires `low_value <= high_value`, because no other case is defined.
- Two declarations carry the wrong name: the int32 and Uint32 upper limiters at
  limiter.h:518 and 624. A third is the Uint32 scale at scale.h:75. These are
  modelled under the names their `@fn` comments give: `doI32UpperLimiter`,
  `doUi32UpperLimiter` and `ui32Scale`.
- The coefficient formulas of the ten designers are a function parameter,
  `synthesize`. The model states only that a designer installs the coefficients
  and leaves the delay line alone. Each designer is a constructor of
  `Dfi1stDesign` or `Dfi2ndDesign`.
- The designers require positive frequencies, a positive quality factor and a
  positive `ts`, and band designers require `freq1 < freq2`. The declarations
  document `ts` as the filter's time constant; a discrete-time design uses it
  as the sampling interval, which is why it must be positive. The declarations
  state none of these requirements. They are the range in which the cutoff
  warping and a band between two edges have a meaning.
- The scale functions compute
  `output_min + ((input - input_min) * (output_max - output_min)) / (input_max - input_min)`:
  multiply first, divide once with C's `/` (truncation toward zero), then add
  `output_min`. The C bodies are not part of this model, so this order of
  operations is a choice. Dividing before multiplying would give different
  results: 3 in `0..3` mapped onto `0..10` gives 9 instead of 10. The endpoint
  property (`Scale.ScaleIntEndpoints`) holds for the chosen order.
- For an input outside the input range, the scale result is the remapped value
  reduced modulo 2^16 or 2^32 into the declared type.

## Model

| member | source | states |
|---|---|---|
| `Limiter.Clamp` | include/jwlib_core_limiter.h:18-22 | The clamped value lies in `[low, high]`; a value already in that range is unchanged. |
| `Limiter.AtMost` | include/jwlib_core_limiter.h:41-44 | The result never exceeds `high` and is either the input or `high`; an input `<= high` is unchanged. |
| `Limiter.AtLeast` | include/jwlib_core_limiter.h:51-54 | The result is never below `low` and is either the input or `low`; an input `>= low` is unchanged. |
| `Limiter.ClampIsNearest` | include/jwlib_core_limiter.h:18-22 | The clamped value is the allowable value nearest the input, and no other allowable value is as near. |
| `Limiter.ClampIsAtMostOfAtLeast` | include/jwlib_core_limiter.h:18-54 | Clamping equals upper-limiting at `high` after lower-limiting at `low`. |
| `Limiter.InitI16Limiter` | include/jwlib_core_limiter.h:228-240 | Stores exactly the given `high_value` and `low_value`. When `low_value <= high_value`, the initialised limiter returns a int16 value unchanged exactly when it lies in `[low_value, high_value]`. |
| `Limiter.DoI16Limiter` | include/jwlib_core_limiter.h:242-253 | For `low_value <= high_value`, the int16 result lies in `[low_value, high_value]`. An input in that range is returned unchanged. An input above or below the range is replaced by the bound it violates. |
| `Limiter.InitI16UpperLimiter` | include/jwlib_core_limiter.h:282-293 | Stores exactly `high_value`. The initialised limiter returns a int16 value unchanged exactly when it is `<= high_value`. |
| `Limiter.DoI16UpperLimiter` | include/jwlib_core_limiter.h:295-306 | The int16 result is `<= high_value`. An input `<= high_value` is returned unchanged; a larger one becomes `high_value`. |
| `Limiter.InitI16LowerLimiter` | include/jwlib_core_limiter.h:308-319 | Stores exactly `low_value`. The initialised limiter returns a int16 value unchanged exactly when it is `>= low_value`. |
| `Limiter.DoI16LowerLimiter` | include/jwlib_core_limiter.h:321-332 | The int16 result is `>= low_value`. An input `>= low_value` is returned unchanged; a smaller one becomes `low_value`. |
| `Limiter.I16LimiterLaws` | include/jwlib_core_limiter.h:242-332 | All three int16 limiters are idempotent. The clamp equals the upper limiter for `high_value` applied after the lower limiter for `low_value`. |
| `Limiter.InitUi16Limiter` | include/jwlib_core_limiter.h:334-346 | Stores exactly the given `high_value` and `low_value`. When `low_value <= high_value`, the initialised limiter returns a Uint16 value unchanged exactly when it lies in `[low_value, high_value]`. |
| `Limiter.DoUi16Limiter` | include/jwlib_core_limiter.h:348-359 | For `low_value <= high_value`, the Uint16 result lies in `[low_value, high_value]`. An input in that range is returned unchanged. An input above or below the range is replaced by the bound it violates. |
| `Limiter.InitUi16UpperLimiter` | include/jwlib_core_limiter.h:388-399 | Stores exactly `high_value`. The initialised limiter returns a Uint16 value unchanged exactly when it is `<= high_value`. |
| `Limiter.DoUi16UpperLimiter` | include/jwlib_core_limiter.h:401-412 | The Uint16 result is `<= high_value`. An input `<= high_value` is returned unchanged; a larger one becomes `high_value`. |
| `Limiter.InitUi16LowerLimiter` | include/jwlib_core_limiter.h:414-425 | Stores exactly `low_value`. The initialised limiter returns a Uint16 value unchanged exactly when it is `>= low_value`. |
| `Limiter.DoUi16LowerLimiter` | include/jwlib_core_limiter.h:427-438 | The Uint16 result is `>= low_value`. An input `>= low_value` is returned unchanged; a smaller one becomes `low_value`. |
| `Limiter.Ui16LimiterLaws` | include/jwlib_core_limiter.h:348-438 | All three Uint16 limiters are idempotent. The clamp equals the upper limiter for `high_value` applied after the lower limiter for `low_value`. |
| `Limiter.InitI32Limiter` | include/jwlib_core_limiter.h:440-452 | Stores exactly the given `high_value` and `low_value`. When `low_value <= high_value`, the initialised limiter returns a int32 value unchanged exactly when it lies in `[low_value, high_value]`. |
| `Limiter.DoI32Limiter` | include/jwlib_core_limiter.h:454-465 | For `low_value <= high_value`, the int32 result lies in `[low_value, high_value]`. An input in that range is returned unchanged. An input above or below the range is replaced by the bound it violates. |
| `Limiter.InitI32UpperLimiter` | include/jwlib_core_limiter.h:494-505 | Stores exactly `high_value`. The initialised limiter returns a int32 value unchanged exactly when it is `<= high_value`. |
| `Limiter.DoI32UpperLimiter` | include/jwlib_core_limiter.h:507-518 | The int32 result is `<= high_value`. An input `<= high_value` is returned unchanged; a larger one becomes `high_value`. |
| `Limiter.InitI32LowerLimiter` | include/jwlib_core_limiter.h:520-531 | Stores exactly `low_value`. The initialised limiter returns a int32 value unchanged exactly when it is `>= low_value`. |
| `Limiter.DoI32LowerLimiter` | include/jwlib_core_limiter.h:533-544 | The int32 result is `>= low_value`. An input `>= low_value` is returned unchanged; a smaller one becomes `low_value`. |
| `Limiter.I32LimiterLaws` | include/jwlib_core_limiter.h:454-544 | All three int32 limiters are idempotent. The clamp equals the upper limiter for `high_value` applied after the lower limiter for `low_value`. |
| `Limiter.InitUi32Limiter` | include/jwlib_core_limiter.h:546-558 | Stores exactly the given `high_value` and `low_value`. When `low_value <= high_value`, the initialised limiter returns a Uint32 value unchanged exactly when it lies in `[low_value, high_value]`. |
| `Limiter.DoUi32Limiter` | include/jwlib_core_limiter.h:560-571 | For `low_value <= high_value`, the Uint32 result lies in `[low_value, high_value]`. An input in that range is returned unchanged. An input above or below the range is replaced by the bound it violates. |
| `Limiter.InitUi32UpperLimiter` | include/jwlib_core_limiter.h:600-611 | Stores exactly `high_value`. The initialised limiter returns a Uint32 value unchanged exactly when it is `<= high_value`. |
| `Limiter.DoUi32UpperLimiter` | include/jwlib_core_limiter.h:613-624 | The Uint32 result is `<= high_value`. An input `<= high_value` is returned unchanged; a larger one becomes `high_value`. |
| `Limiter.InitUi32LowerLimiter` | include/jwlib_core_limiter.h:626-637 | Stores exactly `low_value`. The initialised limiter returns a Uint32 value unchanged exactly when it is `>= low_value`. |
| `Limiter.DoUi32LowerLimiter` | include/jwlib_core_limiter.h:639-650 | The Uint32 result is `>= low_value`. An input `>= low_value` is returned unchanged; a smaller one becomes `low_value`. |
| `Limiter.Ui32LimiterLaws` | include/jwlib_core_limiter.h:560-650 | All three Uint32 limiters are idempotent. The clamp equals the upper limiter for `high_value` applied after the lower limiter for `low_value`. |
| `DfiFilter.InitDfi1stDesign` | include/jwlib_core_dfi_filter.h:47-122 | Each of the five first-order designers installs the coefficients its formula yields and leaves `input_z_1` and `output_z_1` untouched. |
| `DfiFilter.InitDfi1stFilterData` | include/jwlib_core_dfi_filter.h:124-134 | Sets `input_z_1` and `output_z_1` to zero and keeps `a1`, `b0` and `b1`. |
| `DfiFilter.DoDfi1stFilter` | include/jwlib_core_dfi_filter.h:136-148 | Keeps the coefficients, stores the input in `input_z_1` and the returned output in `output_z_1`. The output is `b0*x + b1*x[-1] - a1*y[-1]`. |
| `DfiFilter.RunDfi1stFilter` | include/jwlib_core_dfi_filter.h:136-148 | Repeated steps return one output per input and never change the coefficients. Afterwards the delay line holds the last input and the last output. |
| `DfiFilter.RunDfi1stIsEquation` | include/jwlib_core_dfi_filter.h:136-148 | Output `n` of repeated steps equals output `n` of the first-order Direct-Form I difference equation, indexed over the whole stream and started from the instance's delay line. |
| `DfiFilter.Dfi1stDataResetIdempotent` | include/jwlib_core_dfi_filter.h:124-134 | Resetting the data twice gives the same instance as resetting it once. |
| `DfiFilter.Dfi1stDesignAndResetCommute` | include/jwlib_core_dfi_filter.h:47-134 | A designer call and the data reset can be applied in either order with the same result. |
| `DfiFilter.Dfi1stRedesignKeepsHistory` | include/jwlib_core_dfi_filter.h:47-148 | After a redesign, the next step combines the new coefficients with the delay line accumulated before it. |
| `DfiFilter.Dfi1stResetSilence` | include/jwlib_core_dfi_filter.h:124-148 | After a data reset, zero inputs give only zero outputs and leave the reset instance as it was. |
| `DfiFilter.InitDfi2ndDesign` | include/jwlib_core_dfi_filter.h:150-230 | Each of the five second-order designers installs the coefficients its formula yields and leaves all four delay buffers untouched. |
| `DfiFilter.InitDfi2ndFilterData` | include/jwlib_core_dfi_filter.h:232-242 | Sets `input_z_1`, `input_z_2`, `output_z_1` and `output_z_2` to zero and keeps `a1`, `a2`, `b0`, `b1` and `b2`. |
| `DfiFilter.DoDfi2ndFilter` | include/jwlib_core_dfi_filter.h:244-256 | Keeps the coefficients and shifts both delay lines. `input_z_2` takes the old `input_z_1`, which takes the input. `output_z_2` takes the old `output_z_1`, which takes the returned output. The output is `b0*x + b1*x[-1] + b2*x[-2] - a1*y[-1] - a2*y[-2]`. |
| `DfiFilter.RunDfi2ndFilter` | include/jwlib_core_dfi_filter.h:244-256 | Repeated steps return one output per input and never change the coefficients. Afterwards the delay line holds the last two inputs and outputs, reaching back into the initial buffers for streams shorter than two. |
| `DfiFilter.RunDfi2ndIsEquation` | include/jwlib_core_dfi_filter.h:244-256 | Output `n` of repeated steps equals output `n` of the second-order Direct-Form I difference equation, indexed over the whole stream and started from the instance's delay line. |
| `DfiFilter.Dfi2ndDataResetIdempotent` | include/jwlib_core_dfi_filter.h:232-242 | Resetting the data twice gives the same instance as resetting it once. |
| `DfiFilter.Dfi2ndDesignAndResetCommute` | include/jwlib_core_dfi_filter.h:150-242 | A designer call and the data reset can be applied in either order with the same result. |
| `DfiFilter.Dfi2ndRedesignKeepsHistory` | include/jwlib_core_dfi_filter.h:150-256 | After a redesign, the next step combines the new coefficients with the delay line accumulated before it. |
| `DfiFilter.Dfi2ndResetSilence` | include/jwlib_core_dfi_filter.h:232-256 | After a data reset, zero inputs give only zero outputs and leave the reset instance as it was. |
| `Scale.ScaleIntInRange` | include/jwlib_core_scale.h:13-27 | An input between `input_min` and `input_max` maps to a value between `output_min` and `output_max`, whichever way round either range is given. |
| `Scale.ScaleIntEndpoints` | include/jwlib_core_scale.h:19-22 | `input_min` maps to `output_min` and `input_max` maps to `output_max`. |
| `Scale.ScaleIntIdentity` | include/jwlib_core_scale.h:13-27 | Remapping a range onto itself returns the input unchanged. |
| `Scale.I16Scale` | include/jwlib_core_scale.h:13-27 | Requires `input_max != input_min`. An in-range input gives an int16 result inside the output range. That result is `output_min` plus the C quotient of `(input - input_min) * (output_max - output_min)` by `(input_max - input_min)`. The range ends map to the range ends. |
| `Scale.I16ScaleWraps` | include/jwlib_core_scale.h:13-27 | For every input, in range or not, the `i16Scale` result is congruent modulo 2^16 to the remapped value `ScaleInt`. |
| `Scale.I32Scale` | include/jwlib_core_scale.h:29-43 | Requires `input_max != input_min`. An in-range input gives an int32 result inside the output range. That result is `output_min` plus the C quotient of `(input - input_min) * (output_max - output_min)` by `(input_max - input_min)`. The range ends map to the range ends. |
| `Scale.I32ScaleWraps` | include/jwlib_core_scale.h:29-43 | For every input, in range or not, the `i32Scale` result is congruent modulo 2^32 to the remapped value `ScaleInt`. |
| `Scale.Ui16Scale` | include/jwlib_core_scale.h:45-59 | Requires `input_max != input_min`. An in-range input gives a Uint16 result inside the output range. That result is `output_min` plus the C quotient of `(input - input_min) * (output_max - output_min)` by `(input_max - input_min)`. The range ends map to the range ends. |
| `Scale.Ui16ScaleWraps` | include/jwlib_core_scale.h:45-59 | For every input, in range or not, the `ui16Scale` result is congruent modulo 2^16 to the remapped value `ScaleInt`. |
| `Scale.Ui32Scale` | include/jwlib_core_scale.h:61-75 | Requires `input_max != input_min`. An in-range input gives a Uint32 result inside the output range. That result is `output_min` plus the C quotient of `(input - input_min) * (output_max - output_min)` by `(input_max - input_min)`. The range ends map to the range ends. |
| `Scale.Ui32ScaleWraps` | include/jwlib_core_scale.h:61-75 | For every input, in range or not, the `ui32Scale` result is congruent modulo 2^32 to the remapped value `ScaleInt`. |

## Left out

- The range limiters `init*/do*RangeLimiter`. The struct carries `amp_value`, but `init*RangeLimiter` takes no amplitude, and how the amplitude is set or applied is not declared.
- The float32 limiter and scale variants. They are floating-point versions of the modelled integer ones.
- The coefficient formulas of the ten designers. They use trigonometric frequency warping over float32, and the model keeps them as the `synthesize` parameter.
- Frequency-domain filter behaviour, such as DC gain, all-pass magnitude, band-stop attenuation and stability. None of it can be stated over this model.
- float32 rounding in the filters. Samples and coefficients are `real`.
- The unconfigured/configured state of a filter instance. The struct has no field for it, so stepping an instance before any designer call is the caller's obligation and is not tracked.
- Limiter behaviour when `low_value > high_value`, and designer behaviour for inverted band edges. Neither is defined; both are preconditions.
- Scale.I16Scale: intermediate overflow of the C arithmetic is not modelled. The remap is computed over mathematical integers and only the returned value is reduced to the declared width.
- Scale.I32Scale: intermediate overflow of the C arithmetic is not modelled. The remap is computed over mathematical integers and only the returned value is reduced to the declared width.
- Scale.Ui16Scale: intermediate overflow of the C arithmetic is not modelled. The remap is computed over mathematical integers and only the returned value is reduced to the declared width.
- Scale.Ui32Scale: intermediate overflow of the C arithmetic is not modelled. The remap is computed over mathematical integers and only the returned value is reduced to the declared width.
- The `Uint8`, `float64`, `Uint64` and `int64` typedefs, and the guard in `jwlib_core_datatype.h`. Nothing modelled uses them.
- Mutual exclusion between interrupt levels. The library has none, and callers provide it.
