/** The system solver: marches the time stepper and, for every step after
    the first, solves the integrator's residual with Newton's method from
    the previous solution, recording times and states in the result buffer. */
module Solvers {
  import opened LinAlg
  import opened Outcomes
  import opened TimeSteppers
  import opened FunctionSolvers
  import Results

  /** An integrator as the solver sees it: residuum and tangent as functions
      of (state_n, state_n1, h); None when a system callback raised. */
  datatype Integrator = Integrator(
    residuum: (Vector, Vector, real) -> Option<Vector>,
    tangent: (Vector, Vector, real) -> Option<Matrix>)

  /** get_residuum with state_n and the step size bound. */
  function ResidualAt(integrator: Integrator, stateN: Vector, h: real): ResidualFn
  {
    x => integrator.residuum(stateN, x, h)
  }

  /** get_tangent with state_n and the step size bound. */
  function TangentAt(integrator: Integrator, stateN: Vector, h: real): TangentFn
  {
    x => integrator.tangent(stateN, x, h)
  }

  /** One solve of the loop: Newton from `guess` on the residual with
      state_n and the step size h bound. */
  function StepSolution(newton: Newton, integrator: Integrator, solve: LinearSolve,
                        stateN: Vector, h: real, guess: Vector): (r: Result<Vector>)
    ensures r.Ok? ==> |r.value| == |guess|
  {
    PlainPythonResult(newton, ResidualAt(integrator, stateN, h), TangentAt(integrator, stateN, h), solve, guess)
  }

  method SolveStep(newton: Newton, integrator: Integrator, solve: LinearSolve,
                   stateN: Vector, h: real, guess: Vector) returns (r: Result<Vector>)
    ensures r == StepSolution(newton, integrator, solve, stateN, h, guess)
  {
    r := SolvePlainPython(newton, ResidualAt(integrator, stateN, h), TangentAt(integrator, stateN, h), solve, guess);
  }

  /** The solutions of the later steps, each solve starting from the
      previous solution; stops at the first failing solve. */
  datatype March = March(states: seq<Vector>, failure: Option<Error>)

  function MarchFrom(newton: Newton, integrator: Integrator, solve: LinearSolve,
                     stateN: Vector, steps: seq<TimeStep>, guess: Vector): (m: March)
    ensures |m.states| <= |steps|
    ensures m.failure.None? ==> |m.states| == |steps|
    ensures forall k :: 0 <= k < |m.states| ==> |m.states[k]| == |guess|
    decreases |steps|
  {
    if |steps| == 0 then March([], None)
    else
      match StepSolution(newton, integrator, solve, stateN, steps[0].increment, guess)
      case Err(e) => March([], Some(e))
      case Ok(x) =>
        var rest := MarchFrom(newton, integrator, solve, stateN, steps[1..], x);
        March([x] + rest.states, rest.failure)
  }

  /** The manager's state the solver reads and writes. `systemState` is
      manager.system.state, which the integrator uses as state_n and which
      the solver never updates. */
  class Manager {
    var systemState: Vector
    var currentState: Vector
    var nextState: Vector
    const timeStepper: TimeStepper
    const result: Results.Result

    ghost predicate Valid()
      reads this, timeStepper, result, result.results
    {
      && timeStepper.Valid()
      && result.Valid()
      && result.times.Length == timeStepper.nbrTimePoints
      && |nextState| == result.dimState
    }

    constructor (systemState: Vector, initialGuess: Vector, timeStepper: TimeStepper, result: Results.Result)
      requires timeStepper.Valid() && result.Valid()
      requires result.times.Length == timeStepper.nbrTimePoints && |initialGuess| == result.dimState
      ensures Valid()
      ensures this.systemState == systemState && currentState == initialGuess && nextState == initialGuess
      ensures this.timeStepper == timeStepper && this.result == result
    {
      this.systemState := systemState;
      currentState := initialGuess;
      nextState := initialGuess;
      this.timeStepper := timeStepper;
      this.result := result;
    }
  }

  /** One unfolding of MarchFrom at position j of the steps. */
  lemma MarchUnfold(newton: Newton, integrator: Integrator, solve: LinearSolve,
                    stateN: Vector, steps: seq<TimeStep>, j: nat, guess: Vector)
    requires j < |steps|
    ensures var r := StepSolution(newton, integrator, solve, stateN, steps[j].increment, guess);
      MarchFrom(newton, integrator, solve, stateN, steps[j..], guess)
        == if r.Err? then March([], Some(r.error))
           else var rest := MarchFrom(newton, integrator, solve, stateN, steps[j + 1..], r.value);
             March([r.value] + rest.states, rest.failure)
  {
    assert steps[j..][1..] == steps[j + 1..];
  }

  /** The march after j solved steps, advanced by the solve of step j. */
  lemma MarchProgress(newton: Newton, integrator: Integrator, solve: LinearSolve,
                      stateN: Vector, steps: seq<TimeStep>, done: seq<Vector>, guess: Vector, m: March)
    requires |done| < |steps|
    requires m.states == done + MarchFrom(newton, integrator, solve, stateN, steps[|done|..], guess).states
    requires m.failure == MarchFrom(newton, integrator, solve, stateN, steps[|done|..], guess).failure
    ensures var r := StepSolution(newton, integrator, solve, stateN, steps[|done|].increment, guess);
      && (r.Err? ==> m.states == done && m.failure == Some(r.error))
      && (r.Ok? ==>
            var rest := MarchFrom(newton, integrator, solve, stateN, steps[|done| + 1..], r.value);
            m.states == (done + [r.value]) + rest.states && m.failure == rest.failure)
  {
    MarchUnfold(newton, integrator, solve, stateN, steps, |done|, guess);
    var r := StepSolution(newton, integrator, solve, stateN, steps[|done|].increment, guess);
    if r.Ok? {
      var rest := MarchFrom(newton, integrator, solve, stateN, steps[|done| + 1..], r.value);
      assert done + ([r.value] + rest.states) == (done + [r.value]) + rest.states;
    }
  }

  /** The loop body for a later step: current_state takes the previous
      solution, Newton solves from it with the current step's increment,
      and a solution becomes next_state and is stored in row `index`. */
  method Advance(newton: Newton, integrator: Integrator, solve: LinearSolve, manager: Manager, step: TimeStep)
      returns (r: Result<Vector>)
    requires manager.Valid()
    requires step.index < manager.result.times.Length
    requires manager.timeStepper.current == Some(step)
    modifies manager`currentState, manager`nextState, manager.result.times, manager.result.results
    ensures manager.Valid()
    ensures r == StepSolution(newton, integrator, solve, manager.systemState, step.increment, old(manager.nextState))
    ensures manager.currentState == old(manager.nextState)
    ensures r.Err? ==>
      && manager.nextState == old(manager.nextState)
      && manager.result.times[..] == old(manager.result.times[..])
      && manager.result.results[..] == old(manager.result.results[..])
    ensures r.Ok? ==>
      && manager.nextState == r.value
      && manager.result.times[..] == old(manager.result.times[..])[step.index := step.time]
      && manager.result.results[..] == old(manager.result.results[..])[step.index := r.value]
  {
    manager.currentState := manager.nextState;
    var h := manager.timeStepper.current.value.increment;
    r := SolveStep(newton, integrator, solve, manager.systemState, h, manager.nextState);
    if r.Ok? {
      manager.nextState := r.value;
      manager.result.Record(step.index, step.time, manager.nextState);
    }
  }

  /** The later steps' march the solver is to carry out: every step after
      the first, from the initial guess. */
  ghost function Planned(newton: Newton, integrator: Integrator, solve: LinearSolve,
                         stepper: TimeSteppers.TimeStepper, stateN: Vector, guess: Vector): (m: March)
    requires |stepper.times| >= 1
    ensures |m.states| < |stepper.times|
  {
    MarchFrom(newton, integrator, solve, stateN, AllSteps(stepper.variant, stepper.times, stepper.stepSize)[1..], guess)
  }

  /** The manager as Newton.solve found it. */
  datatype Origin = Origin(stateN: Vector, guess: Vector, times: seq<real>, rows: seq<Vector>)

  /** The solver's ghost progress: the solutions so far, the march still
      ahead, and the contents of the two buffers. */
  datatype Progress = Progress(done: seq<Vector>, tail: March, times: seq<real>, rows: seq<Vector>)

  /** Buffers `ts`, `rs` after the solutions `states` of steps 1..n: times
      0..n are the stepper's times `stimes` and rows 1..n the solutions,
      everything later is as it was, and `next` (next_state) is the last
      solution, or the initial guess if there is none. */
  ghost predicate Filled(o: Origin, stimes: seq<real>, states: seq<Vector>, ts: seq<real>, rs: seq<Vector>, next: Vector)
  {
    var n := |states|;
    && n < |stimes| == |o.times| == |o.rows|
    && ts == stimes[..n + 1] + o.times[n + 1..]
    && rs == [o.rows[0]] + states + o.rows[n + 1..]
    && next == (if n == 0 then o.guess else states[n - 1])
  }

  /** Recording one more solution x in row k = n + 1 (and time k) keeps
      the buffers filled, with x as the new next_state. */
  lemma FilledExtend(o: Origin, stimes: seq<real>, states: seq<Vector>, ts: seq<real>, rs: seq<Vector>,
                     next: Vector, x: Vector)
    requires Filled(o, stimes, states, ts, rs, next)
    requires |states| + 1 < |stimes|
    ensures var k := |states| + 1;
      Filled(o, stimes, states + [x], ts[k := stimes[k]], rs[k := x], x)
  {
    var k := |states| + 1;
    assert ts[k := stimes[k]] == stimes[..k + 1] + o.times[k + 1..];
    assert rs[k := x] == [o.rows[0]] + (states + [x]) + o.rows[k + 1..];
  }

  /** The ledger of the solver loop: the solutions so far are recorded and
      the rest of the planned march starts from `next`. */
  ghost predicate Ledger(newton: Newton, integrator: Integrator, solve: LinearSolve,
                         o: Origin, stimes: seq<real>, steps: seq<TimeStep>, p: Progress, next: Vector)
  {
    && 1 <= |steps| == |stimes|
    && |p.done| < |steps|
    && Filled(o, stimes, p.done, p.times, p.rows, next)
    && p.tail == MarchFrom(newton, integrator, solve, o.stateN, steps[1..][|p.done|..], next)
    && var m := MarchFrom(newton, integrator, solve, o.stateN, steps[1..], o.guess);
    && m.states == p.done + p.tail.states && m.failure == p.tail.failure
  }

  /** The first time recorded, no step solved yet. */
  lemma LedgerStart(newton: Newton, integrator: Integrator, solve: LinearSolve,
                    o: Origin, stimes: seq<real>, steps: seq<TimeStep>, ts: seq<real>)
    requires 1 <= |steps| == |stimes| == |o.times| == |o.rows|
    requires ts == o.times[0 := stimes[0]]
    ensures Ledger(newton, integrator, solve, o, stimes, steps,
                   Progress([], MarchFrom(newton, integrator, solve, o.stateN, steps[1..], o.guess), ts, o.rows), o.guess)
  {
    assert ts == stimes[..1] + o.times[1..];
    assert o.rows == [o.rows[0]] + [] + o.rows[1..];
    assert steps[1..][0..] == steps[1..];
  }

  /** A successful solve of the next step extends the ledger by its row. */
  lemma LedgerOk(newton: Newton, integrator: Integrator, solve: LinearSolve,
                 o: Origin, stimes: seq<real>, steps: seq<TimeStep>, p: Progress, next: Vector, x: Vector)
    requires Ledger(newton, integrator, solve, o, stimes, steps, p, next)
    requires |p.done| + 1 < |steps|
    requires StepSolution(newton, integrator, solve, o.stateN, steps[|p.done| + 1].increment, next) == Ok(x)
    ensures var k := |p.done| + 1;
      Ledger(newton, integrator, solve, o, stimes, steps,
             Progress(p.done + [x], MarchFrom(newton, integrator, solve, o.stateN, steps[1..][k..], x),
                      p.times[k := stimes[k]], p.rows[k := x]), x)
  {
    var m := MarchFrom(newton, integrator, solve, o.stateN, steps[1..], o.guess);
    MarchProgress(newton, integrator, solve, o.stateN, steps[1..], p.done, next, m);
    FilledExtend(o, stimes, p.done, p.times, p.rows, next, x);
  }

  /** A failed solve of the next step ends the planned march with its
      error, and the ledger already holds all of it. */
  lemma LedgerErr(newton: Newton, integrator: Integrator, solve: LinearSolve,
                  o: Origin, stimes: seq<real>, steps: seq<TimeStep>, p: Progress, next: Vector, e: Error)
    requires Ledger(newton, integrator, solve, o, stimes, steps, p, next)
    requires |p.done| + 1 < |steps|
    requires StepSolution(newton, integrator, solve, o.stateN, steps[|p.done| + 1].increment, next) == Err(e)
    ensures var m := MarchFrom(newton, integrator, solve, o.stateN, steps[1..], o.guess);
      Filled(o, stimes, m.states, p.times, p.rows, next) && m.failure == Some(e) && m.states == p.done
  {
    var m := MarchFrom(newton, integrator, solve, o.stateN, steps[1..], o.guess);
    MarchProgress(newton, integrator, solve, o.stateN, steps[1..], p.done, next, m);
  }

  /** With every step solved the planned march succeeded and is recorded. */
  lemma LedgerEnd(newton: Newton, integrator: Integrator, solve: LinearSolve,
                  o: Origin, stimes: seq<real>, steps: seq<TimeStep>, p: Progress, next: Vector)
    requires Ledger(newton, integrator, solve, o, stimes, steps, p, next)
    requires |p.done| + 1 == |steps|
    ensures var m := MarchFrom(newton, integrator, solve, o.stateN, steps[1..], o.guess);
      Filled(o, stimes, m.states, p.times, p.rows, next) && m.failure.None? && m.states == p.done
  {
    assert steps[1..][|p.done|..] == [];
    assert p.done + [] == p.done;
  }

  /** The manager after the solutions `states`: see Filled. */
  ghost predicate Recorded(manager: Manager, o: Origin, states: seq<Vector>)
    reads manager, manager.timeStepper, manager.result, manager.result.times, manager.result.results
  {
    && manager.Valid()
    && manager.systemState == o.stateN
    && Filled(o, manager.timeStepper.times, states, manager.result.times[..], manager.result.results[..], manager.nextState)
  }

  /** The loop invariant of Newton.solve: `step` is the generator's last
      yield, and the ledger of the steps before it matches the buffers and
      next_state. */
  ghost predicate Marching(newton: Newton, integrator: Integrator, solve: LinearSolve,
                           manager: Manager, o: Origin, step: Option<TimeStep>, p: Progress)
    reads manager, manager.timeStepper, manager.result, manager.result.times, manager.result.results
  {
    var stepper := manager.timeStepper;
    var steps := AllSteps(stepper.variant, stepper.times, stepper.stepSize);
    && manager.Valid()
    && manager.systemState == o.stateN
    && (step.Some? ==> stepper.position >= 2 && step == Some(steps[stepper.position - 1]) && stepper.current == step)
    && (step.None? ==> stepper.position == |steps|)
    && |p.done| == (if step.Some? then stepper.position - 2 else stepper.position - 1)
    && Ledger(newton, integrator, solve, o, stepper.times, steps, p, manager.nextState)
    && manager.result.times[..] == p.times && manager.result.results[..] == p.rows
  }

  /** The start of Newton.solve: a fresh generator, the first step's time
      recorded in times[0], and the second step drawn. */
  method Begin(newton: Newton, integrator: Integrator, solve: LinearSolve, manager: Manager, ghost o: Origin)
      returns (step: Option<TimeStep>, ghost p: Progress)
    requires manager.Valid()
    requires o == Origin(manager.systemState, manager.nextState, manager.result.times[..], manager.result.results[..])
    modifies manager.result.times, manager.timeStepper`position, manager.timeStepper`current
    ensures Marching(newton, integrator, solve, manager, o, step, p) && p.done == []
  {
    var stepper := manager.timeStepper;
    var result := manager.result;
    stepper.MakeSteps();
    var first := stepper.Next();
    result.times[first.value.index] := first.value.time;
    LedgerStart(newton, integrator, solve, o, stepper.times,
                AllSteps(stepper.variant, stepper.times, stepper.stepSize), result.times[..]);
    p := Progress([], Planned(newton, integrator, solve, stepper, o.stateN, o.guess), result.times[..], o.rows);
    step := stepper.Next();
  }

  /** One pass of the loop: solve the current step, then draw the next one.
      A failed solve ends the march as planned, with its error. */
  method Stride(newton: Newton, integrator: Integrator, solve: LinearSolve, manager: Manager,
                ghost o: Origin, step: Option<TimeStep>, ghost p: Progress, ghost before: Vector)
      returns (r: Result<Vector>, next: Option<TimeStep>, ghost q: Progress)
    requires step.Some? && Marching(newton, integrator, solve, manager, o, step, p)
    modifies manager`currentState, manager`nextState, manager.result.times, manager.result.results
    modifies manager.timeStepper`position, manager.timeStepper`current
    ensures r.Err? ==>
      var m := Planned(newton, integrator, solve, manager.timeStepper, o.stateN, o.guess);
      Recorded(manager, o, m.states) && m.failure == Some(r.error)
    ensures r.Err? ==> manager.timeStepper.position == old(manager.timeStepper.position)
    ensures r.Err? ==> Settled(manager, Planned(newton, integrator, solve, manager.timeStepper, o.stateN, o.guess),
                               true, before, o.guess)
    ensures r.Ok? ==> Marching(newton, integrator, solve, manager, o, next, q)
    ensures r.Ok? ==> q.done == p.done + [r.value]
    ensures r.Ok? ==> manager.currentState == LastStart(before, o.guess, q.done)
    ensures r.Ok? && next.Some? ==> manager.timeStepper.position == old(manager.timeStepper.position) + 1
    ensures r.Ok? && next.None? ==> manager.timeStepper.position == old(manager.timeStepper.position)
  {
    var stepper := manager.timeStepper;
    ghost var steps := AllSteps(stepper.variant, stepper.times, stepper.stepSize);
    ghost var k := |p.done| + 1;
    ghost var guess := manager.nextState;
    assert step.value == steps[k];
    r := Advance(newton, integrator, solve, manager, step.value);
    if r.Err? {
      LedgerErr(newton, integrator, solve, o, stepper.times, steps, p, guess, r.error);
      q := p;
      next := None;
      return;
    }
    LedgerOk(newton, integrator, solve, o, stepper.times, steps, p, guess, r.value);
    q := Progress(p.done + [r.value], MarchFrom(newton, integrator, solve, o.stateN, steps[1..][k..], r.value),
                  p.times[k := stepper.times[k]], p.rows[k := r.value]);
    next := stepper.Next();
  }

  /** The state the last solve started from once the solutions `done` are
      recorded: `before` (current_state on entry) when none is, then the
      initial guess, then the second-to-last solution. */
  ghost function LastStart(before: Vector, guess: Vector, done: seq<Vector>): Vector
  {
    if |done| == 0 then before else if |done| == 1 then guess else done[|done| - 2]
  }

  /** Where Newton.solve leaves the generator and current_state after the
      march `m`: exhausted on the last step, or on the step after the last
      solution when a solve failed; current_state is the state the last
      attempted solve started from, which after a failure is next_state. */
  ghost predicate Settled(manager: Manager, m: March, failed: bool, current0: Vector, guess: Vector)
    reads manager, manager.timeStepper
  {
    var stepper := manager.timeStepper;
    && (!failed ==> stepper.position == |stepper.times|)
    && (failed ==> stepper.position == |m.states| + 2)
    && 1 <= stepper.position <= |stepper.times|
    && stepper.current == Some(StepAt(stepper.variant, stepper.times, stepper.stepSize, stepper.position - 1))
    && (failed ==> manager.currentState == manager.nextState)
    && (!failed ==> manager.currentState == LastStart(current0, guess, m.states))
  }

  /** Newton.solve: the first step only records its time; every later step
      k solves from the previous solution and writes times[k] and
      results[k]. A failing solve propagates and leaves every later row as
      it was. */
  method Solve(newton: Newton, integrator: Integrator, solve: LinearSolve, manager: Manager)
      returns (outcome: Outcome)
    requires manager.Valid()
    modifies manager, manager.timeStepper, manager.result.times, manager.result.results
    ensures var m := Planned(newton, integrator, solve, manager.timeStepper, old(manager.systemState), old(manager.nextState));
      && Recorded(manager, Origin(old(manager.systemState), old(manager.nextState),
                                  old(manager.result.times[..]), old(manager.result.results[..])), m.states)
      && outcome == if m.failure.None? then Pass else Fail(m.failure.value)
    ensures Settled(manager, Planned(newton, integrator, solve, manager.timeStepper, old(manager.systemState), old(manager.nextState)),
                    outcome.Fail?, old(manager.currentState), old(manager.nextState))
  {
    ghost var o := Origin(manager.systemState, manager.nextState, manager.result.times[..], manager.result.results[..]);
    var step;
    ghost var p;
    step, p := Begin(newton, integrator, solve, manager, o);
    while step.Some?
      invariant Marching(newton, integrator, solve, manager, o, step, p)
      invariant manager.currentState == LastStart(old(manager.currentState), o.guess, p.done)
      decreases |manager.timeStepper.times| - manager.timeStepper.position, step.Some?
    {
      var r;
      r, step, p := Stride(newton, integrator, solve, manager, o, step, p, old(manager.currentState));
      if r.Err? {
        return Fail(r.error);
      }
    }
    LedgerEnd(newton, integrator, solve, o, manager.timeStepper.times,
              AllSteps(manager.timeStepper.variant, manager.timeStepper.times, manager.timeStepper.stepSize),
              p, manager.nextState);
    outcome := Pass;
  }
}
