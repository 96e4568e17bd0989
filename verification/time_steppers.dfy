/** Time steppers: the list of time points of a simulation and a generator
    that hands out one TimeStep at a time through a current-step cursor.
    Times are exact reals; numpy's rounding in linspace/arange/isclose is
    not part of this model, so isclose becomes equality. */
module TimeSteppers {
  import opened Outcomes

  /** index >= 0, the time point, and the increment the integrator uses. */
  datatype TimeStep = TimeStep(index: nat, time: real, increment: real)

  datatype Variant = FixedIncrement | FixedIncrementHittingEnd

  /** numpy.linspace(start, stop, num, endpoint=True) over exact reals. */
  function Linspace(start: real, stop: real, num: nat): (t: seq<real>)
    ensures |t| == num
    ensures num >= 1 ==> t[0] == start
    ensures num >= 2 ==> t[num - 1] == stop
    ensures num >= 2 ==> forall k :: 0 <= k < num - 1 ==>
      t[k + 1] - t[k] == (stop - start) / ((num - 1) as real)
  {
    if num == 1 then [start]
    else
      var step := if num == 0 then 0.0 else (stop - start) / ((num - 1) as real);
      seq(num, k requires 0 <= k < num => start + (k as real) * step)
  }

  /** Smallest integer not below x. */
  function Ceil(x: real): (c: int)
    ensures (c as real) - 1.0 < x <= c as real
  {
    -((-x).Floor)
  }

  /** numpy.arange(start, stop, step) over exact reals: start, start + step,
      ... while below stop. */
  function Arange(start: real, stop: real, step: real): (t: seq<real>)
    requires step > 0.0
    ensures forall k :: 0 <= k < |t| ==> t[k] == start + (k as real) * step
  {
    var n := if stop > start then Ceil((stop - start) / step) else 0;
    seq(n, k requires 0 <= k < n => start + (k as real) * step)
  }

  predicate Homogeneous(times: seq<real>)
    requires |times| >= 2
  {
    forall k :: 0 <= k < |times| - 1 ==> times[k + 1] - times[k] == times[1] - times[0]
  }

  /** FixedIncrement.get_step_size: the first consecutive difference, after
      checking that all consecutive differences are equal. */
  function GetStepSize(times: seq<real>): (r: Result<real>)
    ensures |times| < 2 <==> r == Err(IndexError)
    ensures r.Ok? <==> |times| >= 2 && Homogeneous(times)
    ensures r.Ok? ==> r.value == times[1] - times[0]
  {
    if |times| < 2 then Err(IndexError)
    else if Homogeneous(times) then Ok(times[1] - times[0])
    else Err(AssertionError("Implementation should yield homogeneous time steps"))
  }

  datatype Layout = Layout(nbrSteps: int, times: seq<real>, stepSize: real)

  /** What FixedIncrement.__init__ computes: a truncated step count, evenly
      spaced times from start to end, and the step size read back from them. */
  function FixedIncrementLayout(start: real, end: real, stepSize: real): Result<Layout>
    requires start < end && stepSize > 0.0
  {
    var nbrSteps := ((end - start) / stepSize).Floor;
    var times := Linspace(start, end, nbrSteps + 1);
    match GetStepSize(times)
    case Err(e) => Err(e)
    case Ok(h) => Ok(Layout(nbrSteps, times, h))
  }

  /** FixedIncrementHittingEnd.identify_times. */
  function HittingEndTimes(start: real, end: real, stepSize: real): Result<seq<real>>
    requires start < end && stepSize > 0.0
  {
    var tmp := Arange(start, end, stepSize);
    assert |tmp| >= 1;
    if tmp[|tmp| - 1] < end then Ok(tmp + [end])
    else if tmp[|tmp| - 1] == end then Ok(tmp)
    else Err(PydykitException("Unkown case"))
  }

  /** The increment a step carries: the fixed step size, or this time minus
      the previous one, where index 0 wraps to the last time (times[-1]). */
  function IncrementAt(variant: Variant, times: seq<real>, stepSize: real, k: nat): real
    requires k < |times|
  {
    match variant
    case FixedIncrement => stepSize
    case FixedIncrementHittingEnd =>
      // times[index - 1]: Python's index -1 is the last element
      if k == 0 then times[0] - times[|times| - 1] else times[k] - times[k - 1]
  }

  function StepAt(variant: Variant, times: seq<real>, stepSize: real, k: nat): (s: TimeStep)
    requires k < |times|
  {
    TimeStep(k, times[k], IncrementAt(variant, times, stepSize, k))
  }

  /** Every step make_steps yields, in order. */
  function AllSteps(variant: Variant, times: seq<real>, stepSize: real): (s: seq<TimeStep>)
    ensures |s| == |times|
    ensures forall k :: 0 <= k < |s| ==> s[k].index == k && s[k].time == times[k]
  {
    seq(|times|, k requires 0 <= k < |times| => StepAt(variant, times, stepSize, k))
  }

  lemma AllStepsPointwise(variant: Variant, times: seq<real>, stepSize: real, steps: seq<TimeStep>)
    requires |steps| == |times|
    requires forall k :: 0 <= k < |steps| ==> steps[k] == StepAt(variant, times, stepSize, k)
    ensures steps == AllSteps(variant, times, stepSize)
  {
  }

  /** A time stepper with its generator state.  `position` is the index of
      the next step the generator yields, `current` is `_current_step`
      (None before the first yield, when Python raises AttributeError). */
  class TimeStepper {
    const variant: Variant
    const start: real
    const end: real
    const stepSize: real
    const nbrSteps: int
    const nbrTimePoints: nat
    const times: seq<real>
    var position: nat
    var current: Option<TimeStep>

    ghost predicate Valid()
      reads this
    {
      && |times| == nbrTimePoints >= 2
      && nbrSteps == nbrTimePoints - 1
      && times[0] == start && times[|times| - 1] == end
      && position <= |times|
      && (position > 0 ==> current == Some(StepAt(variant, times, stepSize, position - 1)))
    }

    constructor (variant: Variant, start: real, end: real, stepSize: real, nbrSteps: int, times: seq<real>)
      requires |times| >= 2 && nbrSteps == |times| - 1
      requires times[0] == start && times[|times| - 1] == end
      ensures Valid()
      ensures this.variant == variant && this.start == start && this.end == end
      ensures this.stepSize == stepSize && this.nbrSteps == nbrSteps && this.times == times
      ensures position == 0 && current == None
    {
      this.variant := variant;
      this.start := start;
      this.end := end;
      this.stepSize := stepSize;
      this.nbrSteps := nbrSteps;
      this.nbrTimePoints := |times|;
      this.times := times;
      position := 0;
      current := None;
    }

    /** current_step: the step most recently yielded. */
    function CurrentStep(): Option<TimeStep>
      reads this
    {
      current
    }

    /** make_steps(): a fresh generator over the precomputed times; the
        cursor keeps the last step of any earlier run until the next yield. */
    method MakeSteps()
      requires Valid()
      modifies this`position
      ensures Valid() && position == 0
    {
      position := 0;
    }

    /** One `next()` on the generator: yields step `position` and records it
        as the current step, or reports exhaustion (StopIteration). */
    method Next() returns (step: Option<TimeStep>)
      requires Valid()
      modifies this`position, this`current
      ensures Valid()
      ensures old(position) < |times| ==>
        && step == Some(StepAt(variant, times, stepSize, old(position)))
        && position == old(position) + 1 && current == step
      ensures old(position) == |times| ==>
        step == None && position == old(position) && current == old(current)
    {
      if position < |times| {
        current := Some(StepAt(variant, times, stepSize, position));
        step := current;
        position := position + 1;
      } else {
        step := None;
      }
    }

    /** Runs a fresh generator to exhaustion; the steps come out with
        indices 0, 1, 2, ... and the cursor ends on the last one. */
    method Drain() returns (steps: seq<TimeStep>)
      requires Valid()
      modifies this`position, this`current
      ensures Valid() && position == |times|
      ensures current == Some(StepAt(variant, times, stepSize, |times| - 1))
      ensures steps == AllSteps(variant, times, stepSize)
    {
      MakeSteps();
      steps := [];
      var s := Next();
      while s.Some?
        invariant Valid()
        invariant position >= 1 && (s.Some? ==> s == current)
        invariant s.None? ==> position == |times|
        invariant |steps| == if s.Some? then position - 1 else position
        invariant forall k :: 0 <= k < |steps| ==> steps[k] == StepAt(variant, times, stepSize, k)
        decreases |times| - position, s.Some?
      {
        steps := steps + [s.value];
        s := Next();
      }
      AllStepsPointwise(variant, times, stepSize, steps);
    }
  }

  /** FixedIncrement.__init__: fails exactly where the Python does. */
  method NewFixedIncrement(start: real, end: real, stepSize: real) returns (r: Result<TimeStepper>)
    requires start < end && stepSize > 0.0
    ensures r.Err? <==> FixedIncrementLayout(start, end, stepSize).Err?
    ensures r.Err? ==> r.error == FixedIncrementLayout(start, end, stepSize).error
    ensures r.Ok? ==>
      var layout := FixedIncrementLayout(start, end, stepSize).value;
      && fresh(r.value) && r.value.Valid() && r.value.variant == FixedIncrement
      && r.value.times == layout.times && r.value.stepSize == layout.stepSize
      && r.value.nbrSteps == layout.nbrSteps && r.value.current == None
  {
    match FixedIncrementLayout(start, end, stepSize)
    case Err(e) =>
      r := Err(e);
    case Ok(layout) =>
      FixedIncrementLayoutShape(start, end, stepSize);
      var s := new TimeStepper(FixedIncrement, start, end, layout.stepSize, layout.nbrSteps, layout.times);
      r := Ok(s);
  }

  /** FixedIncrementHittingEnd.__init__. */
  method NewFixedIncrementHittingEnd(start: real, end: real, stepSize: real) returns (r: Result<TimeStepper>)
    requires start < end && stepSize > 0.0
    ensures r.Err? <==> HittingEndTimes(start, end, stepSize).Err?
    ensures r.Ok? ==>
      && fresh(r.value) && r.value.Valid() && r.value.variant == FixedIncrementHittingEnd
      && r.value.times == HittingEndTimes(start, end, stepSize).value
      && r.value.stepSize == stepSize && r.value.current == None
  {
    match HittingEndTimes(start, end, stepSize)
    case Err(e) =>
      r := Err(e);
    case Ok(times) =>
      HittingEndShape(start, end, stepSize);
      var s := new TimeStepper(FixedIncrementHittingEnd, start, end, stepSize, |times| - 1, times);
      r := Ok(s);
  }

  // ---------------------------------------------------------------------
  // Properties of the layouts.

  /** FixedIncrement construction succeeds exactly when the configured step
      fits into [start, end]; otherwise the step-size check indexes an
      empty difference list. On success: nbr_steps >= 1, nbr_steps + 1
      evenly spaced times from start to end, and the stored step size is
      their spacing (end - start) / nbr_steps. */
  lemma FixedIncrementLayoutShape(start: real, end: real, stepSize: real)
    requires start < end && stepSize > 0.0
    ensures var r := FixedIncrementLayout(start, end, stepSize);
      && (r.Ok? <==> stepSize <= end - start)
      && (r.Err? ==> r.error == IndexError)
      && (r.Ok? ==>
        && r.value.nbrSteps >= 1
        && r.value.nbrSteps == ((end - start) / stepSize).Floor
        && |r.value.times| == r.value.nbrSteps + 1
        && r.value.times[0] == start && r.value.times[r.value.nbrSteps] == end
        && r.value.stepSize == (end - start) / (r.value.nbrSteps as real)
        && forall k :: 0 <= k < r.value.nbrSteps ==>
             r.value.times[k + 1] - r.value.times[k] == r.value.stepSize)
  {
    var x := (end - start) / stepSize;
    var n := x.Floor;
    DivAtLeastOne(end - start, stepSize);
    if n >= 1 {
      var times := Linspace(start, end, n + 1);
      assert times[1] - times[0] == (end - start) / (n as real);
      assert Homogeneous(times);
    }
  }

  lemma DivAtLeastOne(a: real, b: real)
    requires a > 0.0 && b > 0.0
    ensures a / b >= 1.0 <==> b <= a
  {
    assert (a / b) * b == a;
  }

  /** Worked example: FixedIncrement(0, 1, 0.25) has the five times
      0, 0.25, 0.5, 0.75, 1 and keeps the step size 0.25. */
  lemma FixedIncrementQuarterSteps()
    ensures FixedIncrementLayout(0.0, 1.0, 0.25) == Ok(Layout(4, [0.0, 0.25, 0.5, 0.75, 1.0], 0.25))
  {
    assert (1.0 / 0.25).Floor == 4;
    var t := Linspace(0.0, 1.0, 5);
    assert t == [0.0, 0.25, 0.5, 0.75, 1.0];
    assert Homogeneous(t);
  }

  /** Worked example: a configured step of 0.3 on [0, 1] truncates to three
      steps, and the stored step size becomes 1/3, not 0.3. */
  lemma FixedIncrementOverwritesStepSize()
    ensures FixedIncrementLayout(0.0, 1.0, 0.3).Ok?
    ensures FixedIncrementLayout(0.0, 1.0, 0.3).value.nbrSteps == 3
    ensures FixedIncrementLayout(0.0, 1.0, 0.3).value.stepSize == 1.0 / 3.0
  {
    assert (1.0 / 0.3).Floor == 3;
    FixedIncrementLayoutShape(0.0, 1.0, 0.3);
  }

  /** FixedIncrementHittingEnd times: the arange points start, start + h,
      ... below end, then end appended; the "Unkown case" and the exact-hit
      branch cannot occur over exact reals. At least two time points, and
      the last increment lies in (0, step_size]. */
  lemma HittingEndShape(start: real, end: real, stepSize: real)
    requires start < end && stepSize > 0.0
    ensures HittingEndTimes(start, end, stepSize).Ok?
    ensures var times := HittingEndTimes(start, end, stepSize).value;
      && times == Arange(start, end, stepSize) + [end]
      && |times| >= 2 && times[0] == start && times[|times| - 1] == end
      && 0.0 < times[|times| - 1] - times[|times| - 2] <= stepSize
  {
    var tmp := Arange(start, end, stepSize);
    LastGap(start, end, stepSize, Ceil((end - start) / stepSize));
    assert tmp[|tmp| - 1] < end;
    var r := tmp + [end];
    assert r[|r| - 1] - r[|r| - 2] == end - tmp[|tmp| - 1];
  }

  /** Consecutive arange points are one step apart. */
  lemma ArangeSpacing(start: real, stop: real, step: real)
    requires step > 0.0
    ensures var t := Arange(start, stop, step);
      forall k :: 0 <= k < |t| - 1 ==> t[k + 1] - t[k] == step
  {
    var t := Arange(start, stop, step);
    forall k | 0 <= k < |t| - 1
      ensures t[k + 1] - t[k] == step
    {
      assert ((k + 1) as real) * step == (k as real) * step + step;
    }
  }

  /** The last arange point falls short of end by a gap in (0, step]. */
  lemma LastGap(start: real, end: real, h: real, L: int)
    requires start < end && h > 0.0
    requires L == Ceil((end - start) / h)
    ensures L >= 1
    ensures 0.0 < end - (start + ((L - 1) as real) * h) <= h
  {
    var x := (end - start) / h;
    assert x * h == end - start;
    var a := x - ((L - 1) as real);
    assert end - (start + ((L - 1) as real) * h) == a * h;
    MulInUnit(a, h);
  }

  lemma MulInUnit(a: real, b: real)
    requires 0.0 < a <= 1.0 && b > 0.0
    ensures 0.0 < a * b <= b
  {
  }

  /** Worked example: FixedIncrementHittingEnd(0, 1, 0.3) yields the times
      0, 0.3, 0.6, 0.9, 1 and a final increment of 0.1. */
  lemma HittingEndExample()
    ensures HittingEndTimes(0.0, 1.0, 0.3) == Ok([0.0, 0.3, 0.6, 0.9, 1.0])
    ensures IncrementAt(FixedIncrementHittingEnd, [0.0, 0.3, 0.6, 0.9, 1.0], 0.3, 4) == 0.1
  {
    assert Ceil(1.0 / 0.3) == 4;
    var tmp := Arange(0.0, 1.0, 0.3);
    assert tmp == [0.0, 0.3, 0.6, 0.9];
    assert tmp + [1.0] == [0.0, 0.3, 0.6, 0.9, 1.0];
  }

  /** Increments of FixedIncrementHittingEnd steps: for k >= 1 the gap to
      the previous time point, so every increment but the last equals the
      step size and the last lies in (0, step_size]; step 0 wraps to
      times[-1] and carries start - end. */
  lemma HittingEndIncrements(start: real, end: real, stepSize: real)
    requires start < end && stepSize > 0.0
    ensures HittingEndTimes(start, end, stepSize).Ok?
    ensures var times := HittingEndTimes(start, end, stepSize).value;
      && |times| >= 2
      && IncrementAt(FixedIncrementHittingEnd, times, stepSize, 0) == start - end
      && (forall k :: 1 <= k < |times| - 1 ==> IncrementAt(FixedIncrementHittingEnd, times, stepSize, k) == stepSize)
      && 0.0 < IncrementAt(FixedIncrementHittingEnd, times, stepSize, |times| - 1) <= stepSize
  {
    HittingEndShape(start, end, stepSize);
    ArangeSpacing(start, end, stepSize);
    var times := HittingEndTimes(start, end, stepSize).value;
    var tmp := Arange(start, end, stepSize);
    assert forall k :: 0 <= k < |times| - 2 ==> times[k + 1] - times[k] == stepSize by {
      forall k | 0 <= k < |times| - 2
        ensures times[k + 1] - times[k] == stepSize
      {
        assert times[k] == tmp[k] && times[k + 1] == tmp[k + 1];
      }
    }
  }
}
