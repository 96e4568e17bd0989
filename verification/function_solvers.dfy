/** Newton's method for a residual function, as run by NewtonPlainPython and
    by the older pymetis newton_update.  The dense inverse of the tangent is
    abstracted into a linear-solve function whose only promise (`Solves`) is
    that a returned Δ satisfies T·Δ = rhs. */
module FunctionSolvers {
  import opened LinAlg
  import opened Outcomes

  /** A residual callback; None when the callback raised. */
  type ResidualFn = Vector -> Option<Vector>
  /** A tangent (Jacobian) callback; None when the callback raised. */
  type TangentFn = Vector -> Option<Matrix>
  /** solve(T, b) = T⁻¹·b; None when T is singular or shapes do not fit. */
  type LinearSolve = (Matrix, Vector) -> Option<Vector>

  /** The contract of the abstract linear solve. */
  ghost predicate Solves(solve: LinearSolve)
  {
    forall t: Matrix, b: Vector :: solve(t, b).Some? ==>
      |solve(t, b).value| == |b| && IsMatrix(t, |b|, |b|) && MatVec(t, solve(t, b).value) == b
  }

  /** Newton.__init__: the tolerance and the iteration budget. */
  datatype Newton = Newton(epsilon: real, maxIterations: int)

  /** The sentinel `residual_norm = 1e5` the loop starts from. */
  const Sentinel: real := 100000.0

  /** `residual_norm < newton_epsilon`, where the norm is that of the last
      residual computed, or the sentinel before the first iteration. */
  predicate Converged(epsilon: real, last: Option<Vector>)
  {
    match last
    case None => Sentinel < epsilon
    case Some(r) => NormLess(r, epsilon)
  }

  /** One loop body at iterate x: the residual there and the next iterate. */
  datatype Update = Update(residual: Vector, next: Vector)

  function NewtonStep(func: ResidualFn, jac: TangentFn, solve: LinearSolve, x: Vector): (r: Result<Update>)
    ensures r.Ok? ==> func(x) == Some(r.value.residual) && |r.value.next| == |x|
  {
    match func(x)
    case None => Err(CallbackError)
    case Some(residual) =>
      match jac(x)
      case None => Err(CallbackError)
      case Some(tangent) =>
        match solve(tangent, Neg(residual))
        case None => Err(LinAlgError)
        case Some(delta) =>
          if |delta| != |x| then Err(LinAlgError)
          else Ok(Update(residual, Add(x, delta)))
  }

  /** Where the loop stands: the iterate, the iteration count, the last
      residual (None = the sentinel) and the error that stopped it, if any;
      on an error, x is the iterate the failing body started from. */
  datatype Run = Run(x: Vector, iterations: nat, last: Option<Vector>, failure: Option<Error>)

  /** The while loop of NewtonPlainPython.solve / newton_update from
      iteration count i on. */
  function Iterate(func: ResidualFn, jac: TangentFn, solve: LinearSolve,
                   epsilon: real, maxIterations: int,
                   x: Vector, i: nat, last: Option<Vector>): (run: Run)
    ensures |run.x| == |x|
    decreases maxIterations - i
  {
    if Converged(epsilon, last) || i >= maxIterations then Run(x, i, last, None)
    else
      match NewtonStep(func, jac, solve, x)
      case Err(e) => Run(x, i + 1, last, Some(e))
      case Ok(u) => Iterate(func, jac, solve, epsilon, maxIterations, u.next, i + 1, Some(u.residual))
  }

  /** The whole loop from the initial guess. */
  function Loop(newton: Newton, func: ResidualFn, jac: TangentFn, solve: LinearSolve, initial: Vector): Run
  {
    Iterate(func, jac, solve, newton.epsilon, newton.maxIterations, initial, 0, None)
  }

  /** NewtonPlainPython.solve as a function of its inputs: the loop's
      iterate when the last residual norm is below the tolerance, otherwise
      "Newton convergence not succesful"; callback and solve errors
      propagate. */
  function PlainPythonResult(newton: Newton, func: ResidualFn, jac: TangentFn, solve: LinearSolve,
                             initial: Vector): (r: Result<Vector>)
    ensures r.Ok? ==> |r.value| == |initial|
  {
    var run := Loop(newton, func, jac, solve, initial);
    if run.failure.Some? then Err(run.failure.value)
    else if Converged(newton.epsilon, run.last) then Ok(run.x)
    else Err(PydykitException("Newton convergence not succesful"))
  }

  /** NewtonPlainPython.solve. */
  method SolvePlainPython(newton: Newton, func: ResidualFn, jac: TangentFn, solve: LinearSolve,
                          initial: Vector) returns (r: Result<Vector>)
    ensures r == PlainPythonResult(newton, func, jac, solve, initial)
  {
    var x := initial;
    var last: Option<Vector> := None;
    var index: nat := 0;
    while !Converged(newton.epsilon, last) && index < newton.maxIterations
      invariant Loop(newton, func, jac, solve, initial)
        == Iterate(func, jac, solve, newton.epsilon, newton.maxIterations, x, index, last)
      decreases newton.maxIterations - index
    {
      index := index + 1;
      var residual := func(x);
      if residual.None? {
        return Err(CallbackError);
      }
      var tangent := jac(x);
      if tangent.None? {
        return Err(CallbackError);
      }
      var delta := solve(tangent.value, Neg(residual.value));
      if delta.None? || |delta.value| != |x| {
        return Err(LinAlgError);
      }
      x := Add(x, delta.value);
      last := Some(residual.value);
    }
    if Converged(newton.epsilon, last) {
      r := Ok(x);
    } else {
      r := Err(PydykitException("Newton convergence not succesful"));
    }
  }

  // ---------------------------------------------------------------------
  // Properties of the loop.

  /** The body runs at most max_iterations times (counted from i), and a
      loop that stops without an error and without converging has spent
      its whole budget. */
  lemma {:induction false} IterationBudget(func: ResidualFn, jac: TangentFn, solve: LinearSolve,
                                           epsilon: real, maxIterations: int,
                                           x: Vector, i: nat, last: Option<Vector>)
    ensures var run := Iterate(func, jac, solve, epsilon, maxIterations, x, i, last);
      && i <= run.iterations
      && (run.iterations == i || run.iterations <= maxIterations)
      && (run.failure.None? && !Converged(epsilon, run.last) ==> run.iterations >= maxIterations)
    decreases maxIterations - i
  {
    if !(Converged(epsilon, last) || i >= maxIterations) {
      match NewtonStep(func, jac, solve, x)
      case Err(_) =>
      case Ok(u) =>
        IterationBudget(func, jac, solve, epsilon, maxIterations, u.next, i + 1, Some(u.residual));
    }
  }

  /** NewtonPlainPython.solve returns normally iff no callback failed and
      the last computed residual norm is below the tolerance; a
      non-convergence error comes only after max_iterations bodies. */
  lemma PlainPythonOutcome(newton: Newton, func: ResidualFn, jac: TangentFn, solve: LinearSolve,
                           initial: Vector)
    ensures var run := Loop(newton, func, jac, solve, initial);
      var r := PlainPythonResult(newton, func, jac, solve, initial);
      && (r.Ok? <==> run.failure.None? && Converged(newton.epsilon, run.last))
      && (r.Ok? ==> r.value == run.x)
      && run.iterations <= (if newton.maxIterations < 0 then 0 else newton.maxIterations)
      && (run.failure.Some? ==> r == Err(run.failure.value))
      && (run.failure.None? && !Converged(newton.epsilon, run.last) ==>
            && r == Err(PydykitException("Newton convergence not succesful"))
            && run.iterations == (if newton.maxIterations < 0 then 0 else newton.maxIterations))
  {
    IterationBudget(func, jac, solve, newton.epsilon, newton.maxIterations, initial, 0, None);
  }

  /** The norm the loop tests is that of the residual at the previous
      iterate: after at least one body, the returned iterate is one Newton
      update past the point whose residual was checked last. */
  lemma {:induction false} ReturnsOnePastChecked(func: ResidualFn, jac: TangentFn, solve: LinearSolve,
                                                 epsilon: real, maxIterations: int,
                                                 x: Vector, i: nat, last: Option<Vector>)
    requires last.Some? ==> exists y :: NewtonStep(func, jac, solve, y) == Ok(Update(last.value, x))
    ensures var run := Iterate(func, jac, solve, epsilon, maxIterations, x, i, last);
      run.failure.None? && run.last.Some? ==>
        exists y :: NewtonStep(func, jac, solve, y) == Ok(Update(run.last.value, run.x))
    decreases maxIterations - i
  {
    if !(Converged(epsilon, last) || i >= maxIterations) {
      match NewtonStep(func, jac, solve, x)
      case Err(_) =>
      case Ok(u) =>
        assert NewtonStep(func, jac, solve, x) == Ok(Update(u.residual, u.next));
        ReturnsOnePastChecked(func, jac, solve, epsilon, maxIterations, u.next, i + 1, Some(u.residual));
    }
  }

  /** Each body replaces x by x + Δ where T(x)·Δ = −R(x). */
  lemma StepSolvesLinearSystem(func: ResidualFn, jac: TangentFn, solve: LinearSolve, x: Vector)
    requires Solves(solve)
    requires NewtonStep(func, jac, solve, x).Ok?
    ensures var u := NewtonStep(func, jac, solve, x).value;
      && jac(x).Some? && |u.residual| == |x|
      && MatVec(jac(x).value, Sub(u.next, x)) == Neg(u.residual)
  {
    var residual := func(x).value;
    var tangent := jac(x).value;
    var delta := solve(tangent, Neg(residual)).value;
    assert |delta| == |Neg(residual)| == |x|;
    assert Sub(Add(x, delta), x) == delta;
  }

  /** A matrix whose only kernel vector of length n is zero. */
  ghost predicate Nonsingular(t: Matrix, n: nat)
  {
    forall y: Vector :: |y| == n && MatVec(t, y) == Zeros(n) ==> y == Zeros(n)
  }

  /** An exact root with an invertible tangent: one body runs (the sentinel
      forces it), Δ = 0, the zero residual passes the test, and the initial
      guess comes back unchanged. */
  lemma ExactRootOneIteration(newton: Newton, func: ResidualFn, jac: TangentFn, solve: LinearSolve,
                              initial: Vector, tangent: Matrix)
    requires Solves(solve)
    requires 0.0 < newton.epsilon <= Sentinel && newton.maxIterations >= 1
    requires func(initial) == Some(Zeros(|initial|))
    requires jac(initial) == Some(tangent) && Nonsingular(tangent, |initial|)
    requires solve(tangent, Zeros(|initial|)).Some?
    ensures Loop(newton, func, jac, solve, initial).iterations == 1
    ensures PlainPythonResult(newton, func, jac, solve, initial) == Ok(initial)
  {
    var n: nat := |initial|;
    assert Neg(Zeros(n)) == Zeros(n);
    ZeroRightHandSide(solve, tangent, n);
    assert Add(initial, Zeros(n)) == initial;
    NormSqZeros(n);
    var step := NewtonStep(func, jac, solve, initial);
    assert step == Ok(Update(Zeros(n), initial));
    ZeroBelowTolerance(n, newton.epsilon);
    assert Converged(newton.epsilon, Some(Zeros(n)));
    assert Loop(newton, func, jac, solve, initial)
        == Iterate(func, jac, solve, newton.epsilon, newton.maxIterations, initial, 1, Some(Zeros(n)));
  }

  /** For a nonsingular tangent the solve of a zero right-hand side is zero. */
  lemma ZeroRightHandSide(solve: LinearSolve, tangent: Matrix, n: nat)
    requires Solves(solve) && Nonsingular(tangent, n)
    requires solve(tangent, Zeros(n)).Some?
    ensures solve(tangent, Zeros(n)) == Some(Zeros(n))
  {
    var delta := solve(tangent, Zeros(n)).value;
    assert MatVec(tangent, delta) == Zeros(n);
  }

  lemma ZeroBelowTolerance(n: nat, epsilon: real)
    requires epsilon > 0.0
    ensures NormLess(Zeros(n), epsilon)
  {
    calc {
      NormSq(Zeros(n));
      == { NormSqZeros(n); }
      0.0;
      <
      epsilon * epsilon;
    }
  }

  lemma {:induction false} NormSqZeros(n: nat)
    ensures NormSq(Zeros(n)) == 0.0
  {
    if n > 0 {
      assert Zeros(n)[1..] == Zeros(n - 1);
      NormSqZeros(n - 1);
    }
  }

  /** A tolerance above the 1e5 sentinel: no body runs and the initial
      guess is returned without error. */
  lemma HugeToleranceSkipsLoop(newton: Newton, func: ResidualFn, jac: TangentFn, solve: LinearSolve,
                               initial: Vector)
    requires newton.epsilon > Sentinel
    ensures Loop(newton, func, jac, solve, initial).iterations == 0
    ensures PlainPythonResult(newton, func, jac, solve, initial) == Ok(initial)
  {
  }
}
