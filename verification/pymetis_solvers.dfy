/** The older pymetis solver: the same Newton loop as NewtonPlainPython, but
    updating the shared `state_n1` buffer in place and returning silently
    when the budget runs out; and a time loop that moves `state_n1` into
    `state_n` before each step and stores every solution. */
module MetisSolvers {
  import opened LinAlg
  import opened Outcomes
  import opened TimeSteppers
  import opened FunctionSolvers
  import Solvers

  /** calc_residuum_tangent as a function of (state_n, state_n1), with the
      integrator's fixed step size bound; None when a callback raised. */
  type ResiduumTangent = (Vector, Vector) -> Option<(Vector, Matrix)>

  /** The residual half of calc_residuum_tangent, with state_n fixed. */
  function ResidualOf(assemble: ResiduumTangent, stateN: Vector): ResidualFn
  {
    x => var out := assemble(stateN, x); if out.Some? then Some(out.value.0) else None
  }

  /** The tangent half of calc_residuum_tangent, with state_n fixed. */
  function TangentOf(assemble: ResiduumTangent, stateN: Vector): TangentFn
  {
    x => var out := assemble(stateN, x); if out.Some? then Some(out.value.1) else None
  }

  /** The loop of newton_update from the guess in state_n1. */
  function UpdateRun(newton: Newton, assemble: ResiduumTangent, solve: LinearSolve, stateN: Vector, guess: Vector): Run
  {
    Loop(newton, ResidualOf(assemble, stateN), TangentOf(assemble, stateN), solve, guess)
  }

  /** newton_update's outcome: the final iterate whether or not it
      converged; only a failing callback or solve raises. */
  function UpdateResult(newton: Newton, assemble: ResiduumTangent, solve: LinearSolve,
                        stateN: Vector, guess: Vector): (r: Result<Vector>)
    ensures r.Ok? ==> |r.value| == |guess|
  {
    var run := UpdateRun(newton, assemble, solve, stateN, guess);
    if run.failure.Some? then Err(run.failure.value) else Ok(run.x)
  }

  /** The States buffer of a pymetis system: the two working states and
      one stored time and state per time point. */
  class States {
    var stateN: Vector
    var stateN1: Vector
    const time: array<real>
    const state: array<Vector>

    ghost predicate Valid()
      reads this
    {
      time.Length == state.Length >= 1
    }

    /** States.__init__ followed by system.initialize(): zero buffers, then
        state_n, state_n1 and state[0] all set to the initial state. */
    constructor (nbrStates: nat, initial: Vector)
      requires nbrStates >= 1
      ensures Valid() && fresh(time) && fresh(state)
      ensures time.Length == nbrStates
      ensures stateN == initial && stateN1 == initial
      ensures time[..] == seq(nbrStates, _ => 0.0)
      ensures state[..] == [initial] + seq(nbrStates - 1, _ => Zeros(|initial|))
    {
      stateN := initial;
      stateN1 := initial;
      time := new real[nbrStates](_ => 0.0);
      var rows := new Vector[nbrStates](_ => Zeros(|initial|));
      rows[0] := initial;
      state := rows;
      assert rows[..] == [initial] + seq(nbrStates - 1, _ => Zeros(|initial|));
    }
  }

  /** Newton.newton_update: iterates on states.state_n1 in place, with
      state_n fixed, and returns the final iterate. A raising callback or
      solve leaves state_n1 at the iterate that body started from. */
  method NewtonUpdate(newton: Newton, assemble: ResiduumTangent, solve: LinearSolve, states: States)
      returns (r: Result<Vector>)
    modifies states`stateN1
    ensures states.stateN1 == UpdateRun(newton, assemble, solve, states.stateN, old(states.stateN1)).x
    ensures r == UpdateResult(newton, assemble, solve, states.stateN, old(states.stateN1))
  {
    ghost var func := ResidualOf(assemble, states.stateN);
    ghost var jac := TangentOf(assemble, states.stateN);
    var last: Option<Vector> := None;
    var index: nat := 0;
    while !Converged(newton.epsilon, last) && index < newton.maxIterations
      invariant UpdateRun(newton, assemble, solve, states.stateN, old(states.stateN1))
        == Iterate(func, jac, solve, newton.epsilon, newton.maxIterations, states.stateN1, index, last)
      decreases newton.maxIterations - index
    {
      index := index + 1;
      var out := assemble(states.stateN, states.stateN1);
      if out.None? {
        return Err(CallbackError);
      }
      var (residual, tangent) := out.value;
      var delta := solve(tangent, Neg(residual));
      if delta.None? || |delta.value| != |states.stateN1| {
        return Err(LinAlgError);
      }
      states.stateN1 := Add(states.stateN1, delta.value);
      last := Some(residual);
    }
    r := Ok(states.stateN1);
  }

  /** newton_update returns normally iff no callback or solve failed, and
      then hands back the iterate even when the last residual norm is not
      below the tolerance, after spending the whole budget. */
  lemma SilentReturn(newton: Newton, assemble: ResiduumTangent, solve: LinearSolve, stateN: Vector, guess: Vector)
    ensures var run := UpdateRun(newton, assemble, solve, stateN, guess);
      && (UpdateResult(newton, assemble, solve, stateN, guess).Ok? <==> run.failure.None?)
      && (run.failure.None? ==> UpdateResult(newton, assemble, solve, stateN, guess) == Ok(run.x))
      && (run.failure.None? && !Converged(newton.epsilon, run.last) ==>
            run.iterations == (if newton.maxIterations < 0 then 0 else newton.maxIterations))
  {
    IterationBudget(ResidualOf(assemble, stateN), TangentOf(assemble, stateN), solve,
                    newton.epsilon, newton.maxIterations, guess, 0, None);
  }

  /** The two Newton loops agree except where pydykit raises on
      non-convergence and pymetis returns the unconverged iterate. */
  lemma AgreesWithPlainPython(newton: Newton, assemble: ResiduumTangent, solve: LinearSolve, stateN: Vector, guess: Vector)
    ensures var run := UpdateRun(newton, assemble, solve, stateN, guess);
      var metis := UpdateResult(newton, assemble, solve, stateN, guess);
      PlainPythonResult(newton, ResidualOf(assemble, stateN), TangentOf(assemble, stateN), solve, guess)
        == if metis.Ok? && !Converged(newton.epsilon, run.last)
           then Err(PydykitException("Newton convergence not succesful"))
           else metis
  {
  }

  /** One later step of the time loop: state_n takes the previous
      solution v and newton_update starts from v as well. */
  function MetisStep(newton: Newton, assemble: ResiduumTangent, solve: LinearSolve): Vector -> Result<Vector>
  {
    v => UpdateResult(newton, assemble, solve, v, v)
  }

  /** The solutions of the steps to the `later` time points, each computed
      by `advance` from the previous one; stops at the first failure. */
  function Chain(advance: Vector -> Result<Vector>, later: seq<real>, prev: Vector): (m: Solvers.March)
    ensures |m.states| <= |later|
    ensures m.failure.None? ==> |m.states| == |later|
    decreases |later|
  {
    if |later| == 0 then Solvers.March([], None)
    else
      match advance(prev)
      case Err(e) => Solvers.March([], Some(e))
      case Ok(x) =>
        var rest := Chain(advance, later[1..], x);
        Solvers.March([x] + rest.states, rest.failure)
  }

  /** The chain after j solved steps, advanced by one more step. */
  lemma ChainProgress(advance: Vector -> Result<Vector>, later: seq<real>, done: seq<Vector>, prev: Vector, m: Solvers.March)
    requires |done| < |later|
    requires m.states == done + Chain(advance, later[|done|..], prev).states
    requires m.failure == Chain(advance, later[|done|..], prev).failure
    ensures var r := advance(prev);
      && (r.Err? ==> m.states == done && m.failure == Some(r.error))
      && (r.Ok? ==>
            var rest := Chain(advance, later[|done| + 1..], r.value);
            m.states == (done + [r.value]) + rest.states && m.failure == rest.failure)
  {
    assert later[|done|..][1..] == later[|done| + 1..];
    var r := advance(prev);
    if r.Ok? {
      var rest := Chain(advance, later[|done| + 1..], r.value);
      assert done + ([r.value] + rest.states) == (done + [r.value]) + rest.states;
    }
  }

  /** The ledger of the pymetis time loop: the solutions so far are stored,
      `next` (state_n1) is the last of them, and the rest of the chain
      starts from it. */
  ghost predicate Ledger(advance: Vector -> Result<Vector>, o: Solvers.Origin, stimes: seq<real>,
                         p: Solvers.Progress, next: Vector)
  {
    && 1 <= |stimes|
    && |p.done| < |stimes|
    && Solvers.Filled(o, stimes, p.done, p.times, p.rows, next)
    && p.tail == Chain(advance, stimes[1..][|p.done|..], next)
    && var m := Chain(advance, stimes[1..], o.guess);
    && m.states == p.done + p.tail.states && m.failure == p.tail.failure
  }

  /** The first time recorded, no step solved yet. */
  lemma LedgerStart(advance: Vector -> Result<Vector>, o: Solvers.Origin, stimes: seq<real>, ts: seq<real>)
    requires 1 <= |stimes| == |o.times| == |o.rows|
    requires ts == o.times[0 := stimes[0]]
    ensures Ledger(advance, o, stimes, Solvers.Progress([], Chain(advance, stimes[1..], o.guess), ts, o.rows), o.guess)
  {
    assert ts == stimes[..1] + o.times[1..];
    assert o.rows == [o.rows[0]] + [] + o.rows[1..];
    assert stimes[1..][0..] == stimes[1..];
  }

  /** A successful step extends the ledger by its row. */
  lemma LedgerOk(advance: Vector -> Result<Vector>, o: Solvers.Origin, stimes: seq<real>,
                 p: Solvers.Progress, next: Vector, x: Vector)
    requires Ledger(advance, o, stimes, p, next)
    requires |p.done| + 1 < |stimes|
    requires advance(next) == Ok(x)
    ensures var k := |p.done| + 1;
      Ledger(advance, o, stimes,
             Solvers.Progress(p.done + [x], Chain(advance, stimes[1..][k..], x),
                              p.times[k := stimes[k]], p.rows[k := x]), x)
  {
    var m := Chain(advance, stimes[1..], o.guess);
    ChainProgress(advance, stimes[1..], p.done, next, m);
    Solvers.FilledExtend(o, stimes, p.done, p.times, p.rows, next, x);
  }

  /** A failed step ends the chain with its error, already recorded. */
  lemma LedgerErr(advance: Vector -> Result<Vector>, o: Solvers.Origin, stimes: seq<real>,
                  p: Solvers.Progress, next: Vector, e: Error)
    requires Ledger(advance, o, stimes, p, next)
    requires |p.done| + 1 < |stimes|
    requires advance(next) == Err(e)
    ensures var m := Chain(advance, stimes[1..], o.guess);
      Solvers.Filled(o, stimes, m.states, p.times, p.rows, next) && m.failure == Some(e)
  {
    var m := Chain(advance, stimes[1..], o.guess);
    ChainProgress(advance, stimes[1..], p.done, next, m);
  }

  /** With every step solved the chain succeeded and is recorded. */
  lemma LedgerEnd(advance: Vector -> Result<Vector>, o: Solvers.Origin, stimes: seq<real>,
                  p: Solvers.Progress, next: Vector)
    requires Ledger(advance, o, stimes, p, next)
    requires |p.done| + 1 == |stimes|
    ensures var m := Chain(advance, stimes[1..], o.guess);
      Solvers.Filled(o, stimes, m.states, p.times, p.rows, next) && m.failure.None?
  {
    assert stimes[1..][|p.done|..] == [];
    assert p.done + [] == p.done;
  }

  /** The loop invariant of pymetis Newton.solve. */
  ghost predicate Marching(advance: Vector -> Result<Vector>, stepper: TimeStepper, states: States,
                           o: Solvers.Origin, step: Option<TimeStep>, p: Solvers.Progress)
    reads stepper, states, states.time, states.state
  {
    && stepper.Valid() && states.Valid()
    && states.time.Length == |stepper.times|
    && (step.Some? ==>
          && stepper.position >= 2 && stepper.current == step
          && step == Some(StepAt(stepper.variant, stepper.times, stepper.stepSize, stepper.position - 1)))
    && (step.None? ==> stepper.position == |stepper.times|)
    && |p.done| == (if step.Some? then stepper.position - 2 else stepper.position - 1)
    && Ledger(advance, o, stepper.times, p, states.stateN1)
    && states.time[..] == p.times && states.state[..] == p.rows
  }

  /** The start of the solve: a fresh generator and the first time. */
  method Begin(ghost advance: Vector -> Result<Vector>, stepper: TimeStepper, states: States, ghost o: Solvers.Origin)
      returns (step: Option<TimeStep>, ghost p: Solvers.Progress)
    requires stepper.Valid() && states.Valid() && states.time.Length == |stepper.times|
    requires o == Solvers.Origin(states.stateN1, states.stateN1, states.time[..], states.state[..])
    modifies stepper`position, stepper`current, states.time
    ensures Marching(advance, stepper, states, o, step, p)
  {
    stepper.MakeSteps();
    var first := stepper.Next();
    states.time[first.value.index] := first.value.time;
    LedgerStart(advance, o, stepper.times, states.time[..]);
    p := Solvers.Progress([], Chain(advance, stepper.times[1..], o.guess), states.time[..], o.rows);
    step := stepper.Next();
  }

  /** One pass of the time loop: state_n := state_n1, Newton in place, then
      time[k] and state[k] are stored and the next step is drawn. */
  method Stride(newton: Newton, assemble: ResiduumTangent, solve: LinearSolve,
                stepper: TimeStepper, states: States, ghost o: Solvers.Origin,
                step: Option<TimeStep>, ghost p: Solvers.Progress)
      returns (r: Result<Vector>, next: Option<TimeStep>, ghost q: Solvers.Progress)
    requires step.Some? && Marching(MetisStep(newton, assemble, solve), stepper, states, o, step, p)
    modifies stepper`position, stepper`current, states`stateN, states`stateN1, states.time, states.state
    ensures r.Err? ==>
      var m := Chain(MetisStep(newton, assemble, solve), stepper.times[1..], o.guess);
      && Solvers.Filled(o, stepper.times, m.states, states.time[..], states.state[..], states.stateN)
      && m.failure == Some(r.error)
    ensures r.Ok? ==> Marching(MetisStep(newton, assemble, solve), stepper, states, o, next, q)
    ensures r.Ok? && next.Some? ==> stepper.position == old(stepper.position) + 1
    ensures r.Ok? && next.None? ==> stepper.position == old(stepper.position)
  {
    ghost var advance := MetisStep(newton, assemble, solve);
    ghost var k := |p.done| + 1;
    states.stateN := states.stateN1;
    r := NewtonUpdate(newton, assemble, solve, states);
    assert advance(states.stateN) == r;
    if r.Err? {
      LedgerErr(advance, o, stepper.times, p, states.stateN, r.error);
      q := p;
      next := None;
      return;
    }
    LedgerOk(advance, o, stepper.times, p, states.stateN, r.value);
    q := Solvers.Progress(p.done + [r.value], Chain(advance, stepper.times[1..][k..], r.value),
                          p.times[k := stepper.times[k]], p.rows[k := r.value]);
    assert step.value.index == k && step.value.time == stepper.times[k];
    states.time[step.value.index] := step.value.time;
    states.state[step.value.index] := states.stateN1;
    assert states.time[..] == q.times && states.state[..] == q.rows;
    next := stepper.Next();
  }

  /** The buffers as system.initialize() leaves them for `n` time points:
      zero times, the initial state in row 0 and zero rows after it. */
  ghost function Initialised(initial: Vector, n: nat): (o: Solvers.Origin)
    requires n >= 1
    ensures |o.times| == |o.rows| == n && o.rows[0] == initial && o.guess == initial
  {
    Solvers.Origin(initial, initial, seq(n, _ => 0.0), [initial] + seq(n - 1, _ => Zeros(|initial|)))
  }

  /** Newton.solve of pymetis: initialise the states from the initial
      state, record the first time, then run every later step; a raising
      solve propagates with state_n holding the last solution. */
  method Solve(newton: Newton, assemble: ResiduumTangent, solve: LinearSolve, stepper: TimeStepper, initial: Vector)
      returns (outcome: Outcome, states: States)
    requires stepper.Valid()
    modifies stepper`position, stepper`current
    ensures fresh(states) && fresh(states.time) && fresh(states.state)
    ensures var m := Chain(MetisStep(newton, assemble, solve), stepper.times[1..], initial);
      && outcome == (if m.failure.None? then Pass else Fail(m.failure.value))
      && Solvers.Filled(Initialised(initial, |stepper.times|), stepper.times, m.states,
                        states.time[..], states.state[..],
                        if m.failure.None? then states.stateN1 else states.stateN)
  {
    states := new States(|stepper.times|, initial);
    ghost var o := Initialised(initial, |stepper.times|);
    ghost var advance := MetisStep(newton, assemble, solve);
    var step;
    ghost var p;
    step, p := Begin(advance, stepper, states, o);
    while step.Some?
      invariant fresh(states.time) && fresh(states.state)
      invariant Marching(advance, stepper, states, o, step, p)
      decreases |stepper.times| - stepper.position, step.Some?
    {
      var r;
      r, step, p := Stride(newton, assemble, solve, stepper, states, o, step, p);
      if r.Err? {
        return Fail(r.error), states;
      }
    }
    LedgerEnd(advance, o, stepper.times, p, states.stateN1);
    outcome := Pass;
  }
}
