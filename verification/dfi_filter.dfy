/**
  First- and second-order Direct-Form I IIR filters.

  A filter instance is its recurrence coefficients together with its delay
  line (the most recent input and output samples). Three kinds of operation
  act on an instance:
  - a designer sets the coefficients and leaves the delay line alone;
  - the data reset zeroes the delay line and leaves the coefficients alone;
  - a step consumes one input sample, produces one output sample and shifts
    the delay line, leaving the coefficients alone.

  Samples and coefficients are `real`s: the model is about the state
  bookkeeping, not about float32 rounding. The recurrence uses the sign
  convention y = b0 x + b1 x[-1] (+ b2 x[-2]) - a1 y[-1] (- a2 y[-2]).
 */
module DfiFilter {

  // ---------------------------------------------------------------------
  // Sample history shared by both orders
  // ---------------------------------------------------------------------

  /**
    Sample `k` of a stream `xs` preceded by the history `past`, whose first
    element is the sample just before `xs[0]`, the next one the sample
    before that, and so on.
   */
  function Sample(xs: seq<real>, past: seq<real>, k: int): real
    requires -|past| <= k < |xs|
  {
    if k >= 0 then xs[k] else past[-k - 1]
  }

  // ---------------------------------------------------------------------
  // First order
  // ---------------------------------------------------------------------

  /** Coefficients `a1`, `b0`, `b1` of `f32Dfi1stFilter`. */
  datatype Dfi1stCoeffs = Dfi1stCoeffs(a1: real, b0: real, b1: real)

  /** Delay buffers `input_z_1`, `output_z_1` of `f32Dfi1stFilter`. */
  datatype Dfi1stDelay = Dfi1stDelay(input_z_1: real, output_z_1: real)

  /** `f32Dfi1stFilter`: the coefficients and the delay line of one instance. */
  datatype Dfi1stFilter = Dfi1stFilter(coeffs: Dfi1stCoeffs, delay: Dfi1stDelay)

  /** The five first-order designers, each with its physical parameters. */
  datatype Dfi1stDesign =
    | AllPass1st(freq: real, ts: real)
    | HighPass1st(freq: real, ts: real)
    | LowPass1st(freq: real, ts: real)
    | BandPass1st(freq1: real, freq2: real, ts: real)
    | BandStop1st(freq1: real, freq2: real, ts: real)
  {
    /** Positive frequencies and time constant `ts`; band edges in increasing order. */
    predicate Valid() {
      match this
      case AllPass1st(freq, ts) => 0.0 < freq && 0.0 < ts
      case HighPass1st(freq, ts) => 0.0 < freq && 0.0 < ts
      case LowPass1st(freq, ts) => 0.0 < freq && 0.0 < ts
      case BandPass1st(freq1, freq2, ts) => 0.0 < freq1 < freq2 && 0.0 < ts
      case BandStop1st(freq1, freq2, ts) => 0.0 < freq1 < freq2 && 0.0 < ts
    }
  }

  /**
    `initF32Dfi1st{AllPass,HighPass,LowPass,BandPass,BandStop}Filter`.
    The coefficient formulas are not part of this model: `synthesize` stands
    for them. The designer installs what it yields and keeps the delay line.
   */
  function InitDfi1stDesign(filter: Dfi1stFilter, design: Dfi1stDesign,
                            synthesize: Dfi1stDesign -> Dfi1stCoeffs): (r: Dfi1stFilter)
    requires design.Valid()
    ensures r.coeffs == synthesize(design)
    ensures r.delay == filter.delay
  {
    filter.(coeffs := synthesize(design))
  }

  /** `initF32Dfi1stFilterData`: zero the delay line, keep the coefficients. */
  function InitDfi1stFilterData(filter: Dfi1stFilter): (r: Dfi1stFilter)
    ensures r.coeffs == filter.coeffs
    ensures r.delay.input_z_1 == 0.0 && r.delay.output_z_1 == 0.0
  {
    filter.(delay := Dfi1stDelay(0.0, 0.0))
  }

  /** The first-order Direct-Form I equation for one sample. */
  function Dfi1stOutput(c: Dfi1stCoeffs, x: real, x1: real, y1: real): real {
    c.b0 * x + c.b1 * x1 - c.a1 * y1
  }

  /** The result of one step: the updated instance and the output sample. */
  datatype Dfi1stStep = Dfi1stStep(filter: Dfi1stFilter, output: real)

  /**
    `doF32Dfi1stFilter`: one sample of the first-order recurrence. The
    coefficients are kept, the input buffer takes the new input and the
    output buffer the returned output.
   */
  function DoDfi1stFilter(filter: Dfi1stFilter, input: real): (r: Dfi1stStep)
    ensures r.filter.coeffs == filter.coeffs
    ensures r.filter.delay.input_z_1 == input
    ensures r.filter.delay.output_z_1 == r.output
    ensures r.output == filter.coeffs.b0 * input + filter.coeffs.b1 * filter.delay.input_z_1
                        - filter.coeffs.a1 * filter.delay.output_z_1
  {
    var c := filter.coeffs;
    var output := Dfi1stOutput(c, input, filter.delay.input_z_1, filter.delay.output_z_1);
    Dfi1stStep(Dfi1stFilter(c, Dfi1stDelay(input, output)), output)
  }

  /** The result of stepping through a stream: the final instance and every output. */
  datatype Dfi1stRun = Dfi1stRun(filter: Dfi1stFilter, outputs: seq<real>)

  /**
    The instance driven by one `doF32Dfi1stFilter` call per element of
    `inputs`, in order. One output per input; the coefficients never change;
    afterwards the delay line holds the last input and the last output.
   */
  function RunDfi1stFilter(filter: Dfi1stFilter, inputs: seq<real>): (r: Dfi1stRun)
    ensures |r.outputs| == |inputs|
    ensures r.filter.coeffs == filter.coeffs
    ensures |inputs| == 0 ==> r.filter == filter
    ensures |inputs| > 0 ==>
      r.filter.delay == Dfi1stDelay(inputs[|inputs| - 1], r.outputs[|inputs| - 1])
    decreases |inputs|
  {
    if |inputs| == 0 then Dfi1stRun(filter, [])
    else
      var before := RunDfi1stFilter(filter, inputs[..|inputs| - 1]);
      var step := DoDfi1stFilter(before.filter, inputs[|inputs| - 1]);
      Dfi1stRun(step.filter, before.outputs + [step.output])
  }

  /**
    The first-order difference equation over a whole stream, by sample
    index: output `n` of the stream `inputs` started from the delay line
    `delay` (index -1 is the history held in the delay line).
   */
  function Dfi1stEquation(c: Dfi1stCoeffs, delay: Dfi1stDelay, inputs: seq<real>, n: int): real
    requires -1 <= n < |inputs|
    decreases n + 1
  {
    if n < 0 then delay.output_z_1
    else
      Dfi1stOutput(c, inputs[n], Sample(inputs, [delay.input_z_1], n - 1),
                   Dfi1stEquation(c, delay, inputs, n - 1))
  }

  /** Output `n` of the equation depends only on the inputs up to `n`. */
  lemma {:induction false} Dfi1stEquationPrefix(c: Dfi1stCoeffs, delay: Dfi1stDelay,
                                                inputs: seq<real>, m: nat, n: int)
    requires m <= |inputs|
    requires -1 <= n < m
    ensures Dfi1stEquation(c, delay, inputs[..m], n) == Dfi1stEquation(c, delay, inputs, n)
    decreases n + 1
  {
    if n >= 0 {
      Dfi1stEquationPrefix(c, delay, inputs, m, n - 1);
      assert Sample(inputs[..m], [delay.input_z_1], n - 1) == Sample(inputs, [delay.input_z_1], n - 1);
    }
  }

  /**
    Stepping an instance through a stream produces, sample by sample, the
    Direct-Form I difference equation started from the instance's delay line.
   */
  lemma {:induction false} RunDfi1stIsEquation(filter: Dfi1stFilter, inputs: seq<real>)
    ensures forall n :: 0 <= n < |inputs| ==>
      RunDfi1stFilter(filter, inputs).outputs[n] == Dfi1stEquation(filter.coeffs, filter.delay, inputs, n)
    decreases |inputs|
  {
    if |inputs| > 0 {
      var k := |inputs| - 1;
      var prefix := inputs[..k];
      var before := RunDfi1stFilter(filter, prefix);
      var r := RunDfi1stFilter(filter, inputs);
      RunDfi1stIsEquation(filter, prefix);
      forall n | 0 <= n < k
        ensures r.outputs[n] == Dfi1stEquation(filter.coeffs, filter.delay, inputs, n)
      {
        assert r.outputs[n] == before.outputs[n];
        Dfi1stEquationPrefix(filter.coeffs, filter.delay, inputs, k, n);
      }
      if k > 0 {
        Dfi1stEquationPrefix(filter.coeffs, filter.delay, inputs, k, k - 1);
      }
      assert before.filter.delay.input_z_1 == Sample(inputs, [filter.delay.input_z_1], k - 1);
      assert before.filter.delay.output_z_1 == Dfi1stEquation(filter.coeffs, filter.delay, inputs, k - 1);
    }
  }

  /** Resetting the data twice is resetting it once. */
  lemma Dfi1stDataResetIdempotent(filter: Dfi1stFilter)
    ensures InitDfi1stFilterData(InitDfi1stFilterData(filter)) == InitDfi1stFilterData(filter)
  {
  }

  /**
    The designer and the data reset touch disjoint parts of the instance,
    so they can be applied in either order.
   */
  lemma Dfi1stDesignAndResetCommute(filter: Dfi1stFilter, design: Dfi1stDesign,
                                    synthesize: Dfi1stDesign -> Dfi1stCoeffs)
    requires design.Valid()
    ensures InitDfi1stFilterData(InitDfi1stDesign(filter, design, synthesize))
         == InitDfi1stDesign(InitDfi1stFilterData(filter), design, synthesize)
  {
  }

  /**
    Re-designing a running instance keeps its history: the next step uses
    the new coefficients together with the delay line accumulated so far.
   */
  lemma Dfi1stRedesignKeepsHistory(filter: Dfi1stFilter, design: Dfi1stDesign,
                                   synthesize: Dfi1stDesign -> Dfi1stCoeffs, input: real)
    requires design.Valid()
    ensures var c := synthesize(design);
      DoDfi1stFilter(InitDfi1stDesign(filter, design, synthesize), input).output
      == c.b0 * input + c.b1 * filter.delay.input_z_1 - c.a1 * filter.delay.output_z_1
  {
  }

  /** After a data reset, a stream of zero inputs yields only zero outputs. */
  lemma {:induction false} Dfi1stResetSilence(filter: Dfi1stFilter, inputs: seq<real>)
    requires forall i :: 0 <= i < |inputs| ==> inputs[i] == 0.0
    ensures forall n :: 0 <= n < |inputs| ==>
      RunDfi1stFilter(InitDfi1stFilterData(filter), inputs).outputs[n] == 0.0
    ensures RunDfi1stFilter(InitDfi1stFilterData(filter), inputs).filter == InitDfi1stFilterData(filter)
    decreases |inputs|
  {
    if |inputs| > 0 {
      Dfi1stResetSilence(filter, inputs[..|inputs| - 1]);
    }
  }

  // ---------------------------------------------------------------------
  // Second order
  // ---------------------------------------------------------------------

  /** Coefficients `a1`, `a2`, `b0`, `b1`, `b2` of `f32Dfi2ndFilter`. */
  datatype Dfi2ndCoeffs = Dfi2ndCoeffs(a1: real, a2: real, b0: real, b1: real, b2: real)

  /** Delay buffers `input_z_1`, `input_z_2`, `output_z_1`, `output_z_2` of `f32Dfi2ndFilter`. */
  datatype Dfi2ndDelay = Dfi2ndDelay(input_z_1: real, input_z_2: real, output_z_1: real, output_z_2: real)

  /** `f32Dfi2ndFilter`: the coefficients and the delay line of one instance. */
  datatype Dfi2ndFilter = Dfi2ndFilter(coeffs: Dfi2ndCoeffs, delay: Dfi2ndDelay)

  /** The five second-order designers, each with its physical parameters and quality factor. */
  datatype Dfi2ndDesign =
    | AllPass2nd(freq: real, q: real, ts: real)
    | HighPass2nd(freq: real, q: real, ts: real)
    | LowPass2nd(freq: real, q: real, ts: real)
    | BandPass2nd(freq1: real, freq2: real, q: real, ts: real)
    | BandStop2nd(freq1: real, freq2: real, q: real, ts: real)
  {
    /** Positive frequencies, quality factor and time constant `ts`; band edges in increasing order. */
    predicate Valid() {
      match this
      case AllPass2nd(freq, q, ts) => 0.0 < freq && 0.0 < q && 0.0 < ts
      case HighPass2nd(freq, q, ts) => 0.0 < freq && 0.0 < q && 0.0 < ts
      case LowPass2nd(freq, q, ts) => 0.0 < freq && 0.0 < q && 0.0 < ts
      case BandPass2nd(freq1, freq2, q, ts) => 0.0 < freq1 < freq2 && 0.0 < q && 0.0 < ts
      case BandStop2nd(freq1, freq2, q, ts) => 0.0 < freq1 < freq2 && 0.0 < q && 0.0 < ts
    }
  }

  /**
    `initF32Dfi2st{AllPass,HighPass,LowPass,BandPass,BandStop}Filter`.
    The coefficient formulas are not part of this model: `synthesize` stands
    for them. The designer installs what it yields and keeps the delay line.
   */
  function InitDfi2ndDesign(filter: Dfi2ndFilter, design: Dfi2ndDesign,
                            synthesize: Dfi2ndDesign -> Dfi2ndCoeffs): (r: Dfi2ndFilter)
    requires design.Valid()
    ensures r.coeffs == synthesize(design)
    ensures r.delay == filter.delay
  {
    filter.(coeffs := synthesize(design))
  }

  /** `initF32Dfi2stFilterData`: zero all four delay buffers, keep the coefficients. */
  function InitDfi2ndFilterData(filter: Dfi2ndFilter): (r: Dfi2ndFilter)
    ensures r.coeffs == filter.coeffs
    ensures r.delay.input_z_1 == 0.0 && r.delay.input_z_2 == 0.0
    ensures r.delay.output_z_1 == 0.0 && r.delay.output_z_2 == 0.0
  {
    filter.(delay := Dfi2ndDelay(0.0, 0.0, 0.0, 0.0))
  }

  /** The second-order Direct-Form I equation for one sample. */
  function Dfi2ndOutput(c: Dfi2ndCoeffs, x: real, x1: real, x2: real, y1: real, y2: real): real {
    c.b0 * x + c.b1 * x1 + c.b2 * x2 - c.a1 * y1 - c.a2 * y2
  }

  /** The result of one step: the updated instance and the output sample. */
  datatype Dfi2ndStep = Dfi2ndStep(filter: Dfi2ndFilter, output: real)

  /**
    `doF32Dfi2stFilter`: one sample of the second-order recurrence. The
    coefficients are kept and both delay lines shift by one place, taking
    the new input and the returned output.
   */
  function DoDfi2ndFilter(filter: Dfi2ndFilter, input: real): (r: Dfi2ndStep)
    ensures r.filter.coeffs == filter.coeffs
    ensures r.filter.delay.input_z_2 == filter.delay.input_z_1
    ensures r.filter.delay.input_z_1 == input
    ensures r.filter.delay.output_z_2 == filter.delay.output_z_1
    ensures r.filter.delay.output_z_1 == r.output
    ensures r.output == filter.coeffs.b0 * input + filter.coeffs.b1 * filter.delay.input_z_1
                        + filter.coeffs.b2 * filter.delay.input_z_2
                        - filter.coeffs.a1 * filter.delay.output_z_1
                        - filter.coeffs.a2 * filter.delay.output_z_2
  {
    var c := filter.coeffs;
    var d := filter.delay;
    var output := Dfi2ndOutput(c, input, d.input_z_1, d.input_z_2, d.output_z_1, d.output_z_2);
    Dfi2ndStep(Dfi2ndFilter(c, Dfi2ndDelay(input, d.input_z_1, output, d.output_z_1)), output)
  }

  /** The result of stepping through a stream: the final instance and every output. */
  datatype Dfi2ndRun = Dfi2ndRun(filter: Dfi2ndFilter, outputs: seq<real>)

  /**
    The instance driven by one `doF32Dfi2stFilter` call per element of
    `inputs`, in order. One output per input; the coefficients never change;
    afterwards the delay line holds the last two inputs and outputs, reaching
    back into the initial delay line when the stream is shorter than two.
   */
  function RunDfi2ndFilter(filter: Dfi2ndFilter, inputs: seq<real>): (r: Dfi2ndRun)
    ensures |r.outputs| == |inputs|
    ensures r.filter.coeffs == filter.coeffs
    ensures var d := filter.delay; var n := |inputs|;
      && r.filter.delay.input_z_1 == Sample(inputs, [d.input_z_1, d.input_z_2], n - 1)
      && r.filter.delay.input_z_2 == Sample(inputs, [d.input_z_1, d.input_z_2], n - 2)
      && r.filter.delay.output_z_1 == Sample(r.outputs, [d.output_z_1, d.output_z_2], n - 1)
      && r.filter.delay.output_z_2 == Sample(r.outputs, [d.output_z_1, d.output_z_2], n - 2)
    decreases |inputs|
  {
    if |inputs| == 0 then Dfi2ndRun(filter, [])
    else
      var before := RunDfi2ndFilter(filter, inputs[..|inputs| - 1]);
      var step := DoDfi2ndFilter(before.filter, inputs[|inputs| - 1]);
      Dfi2ndRun(step.filter, before.outputs + [step.output])
  }

  /**
    The second-order difference equation over a whole stream, by sample
    index: output `n` of the stream `inputs` started from the delay line
    `delay` (indices -1 and -2 are the history held in the delay line).
   */
  function Dfi2ndEquation(c: Dfi2ndCoeffs, delay: Dfi2ndDelay, inputs: seq<real>, n: int): real
    requires -2 <= n < |inputs|
    decreases n + 2
  {
    if n == -2 then delay.output_z_2
    else if n == -1 then delay.output_z_1
    else
      var past := [delay.input_z_1, delay.input_z_2];
      Dfi2ndOutput(c, inputs[n], Sample(inputs, past, n - 1), Sample(inputs, past, n - 2),
                   Dfi2ndEquation(c, delay, inputs, n - 1), Dfi2ndEquation(c, delay, inputs, n - 2))
  }

  /** Output `n` of the equation depends only on the inputs up to `n`. */
  lemma {:induction false} Dfi2ndEquationPrefix(c: Dfi2ndCoeffs, delay: Dfi2ndDelay,
                                                inputs: seq<real>, m: nat, n: int)
    requires m <= |inputs|
    requires -2 <= n < m
    ensures Dfi2ndEquation(c, delay, inputs[..m], n) == Dfi2ndEquation(c, delay, inputs, n)
    decreases n + 2
  {
    if n >= 0 {
      var p := inputs[..m];
      Dfi2ndEquationPrefix(c, delay, inputs, m, n - 1);
      Dfi2ndEquationPrefix(c, delay, inputs, m, n - 2);
      var past := [delay.input_z_1, delay.input_z_2];
      assert p[n] == inputs[n];
      assert Sample(p, past, n - 1) == Sample(inputs, past, n - 1);
      assert Sample(p, past, n - 2) == Sample(inputs, past, n - 2);
    }
  }

  /**
    Stepping an instance through a stream produces, sample by sample, the
    Direct-Form I difference equation started from the instance's delay line.
   */
  lemma {:induction false} RunDfi2ndIsEquation(filter: Dfi2ndFilter, inputs: seq<real>)
    ensures forall n :: 0 <= n < |inputs| ==>
      RunDfi2ndFilter(filter, inputs).outputs[n] == Dfi2ndEquation(filter.coeffs, filter.delay, inputs, n)
    decreases |inputs|
  {
    if |inputs| > 0 {
      var c := filter.coeffs;
      var d := filter.delay;
      var k := |inputs| - 1;
      var prefix := inputs[..k];
      var before := RunDfi2ndFilter(filter, prefix);
      var r := RunDfi2ndFilter(filter, inputs);
      RunDfi2ndIsEquation(filter, prefix);
      forall n | 0 <= n < k
        ensures r.outputs[n] == Dfi2ndEquation(c, d, inputs, n)
      {
        assert r.outputs[n] == before.outputs[n];
        Dfi2ndEquationPrefix(c, d, inputs, k, n);
      }
      var past := [d.input_z_1, d.input_z_2];
      var outPast := [d.output_z_1, d.output_z_2];
      assert before.filter.delay.input_z_1 == Sample(inputs, past, k - 1);
      assert before.filter.delay.input_z_2 == Sample(inputs, past, k - 2);
      assert before.filter.delay.output_z_1 == Dfi2ndEquation(c, d, inputs, k - 1) by {
        if k >= 1 {
          Dfi2ndEquationPrefix(c, d, inputs, k, k - 1);
          assert before.filter.delay.output_z_1 == before.outputs[k - 1];
        }
      }
      assert before.filter.delay.output_z_2 == Dfi2ndEquation(c, d, inputs, k - 2) by {
        if k >= 2 {
          Dfi2ndEquationPrefix(c, d, inputs, k, k - 2);
          assert before.filter.delay.output_z_2 == before.outputs[k - 2];
        }
      }
    }
  }

  /** Resetting the data twice is resetting it once. */
  lemma Dfi2ndDataResetIdempotent(filter: Dfi2ndFilter)
    ensures InitDfi2ndFilterData(InitDfi2ndFilterData(filter)) == InitDfi2ndFilterData(filter)
  {
  }

  /**
    The designer and the data reset touch disjoint parts of the instance,
    so they can be applied in either order.
   */
  lemma Dfi2ndDesignAndResetCommute(filter: Dfi2ndFilter, design: Dfi2ndDesign,
                                    synthesize: Dfi2ndDesign -> Dfi2ndCoeffs)
    requires design.Valid()
    ensures InitDfi2ndFilterData(InitDfi2ndDesign(filter, design, synthesize))
         == InitDfi2ndDesign(InitDfi2ndFilterData(filter), design, synthesize)
  {
  }

  /**
    Re-designing a running instance keeps its history: the next step uses
    the new coefficients together with the delay line accumulated so far.
   */
  lemma Dfi2ndRedesignKeepsHistory(filter: Dfi2ndFilter, design: Dfi2ndDesign,
                                   synthesize: Dfi2ndDesign -> Dfi2ndCoeffs, input: real)
    requires design.Valid()
    ensures var c := synthesize(design); var d := filter.delay;
      DoDfi2ndFilter(InitDfi2ndDesign(filter, design, synthesize), input).output
      == c.b0 * input + c.b1 * d.input_z_1 + c.b2 * d.input_z_2 - c.a1 * d.output_z_1 - c.a2 * d.output_z_2
  {
  }

  /** After a data reset, a stream of zero inputs yields only zero outputs. */
  lemma {:induction false} Dfi2ndResetSilence(filter: Dfi2ndFilter, inputs: seq<real>)
    requires forall i :: 0 <= i < |inputs| ==> inputs[i] == 0.0
    ensures forall n :: 0 <= n < |inputs| ==>
      RunDfi2ndFilter(InitDfi2ndFilterData(filter), inputs).outputs[n] == 0.0
    ensures RunDfi2ndFilter(InitDfi2ndFilterData(filter), inputs).filter == InitDfi2ndFilterData(filter)
    decreases |inputs|
  {
    if |inputs| > 0 {
      Dfi2ndResetSilence(filter, inputs[..|inputs| - 1]);
    }
  }
}
