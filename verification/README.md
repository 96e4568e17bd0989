# pydykit implicit time-integration engine in Dafny

This project models the engine that pydykit (and its predecessor pymetis)
uses to integrate a dynamical system in time.

- **Time steppers.** Two generators (`FixedIncrement`, `FixedIncrementHittingEnd`)
  precompute the time points and hand out `TimeStep(index, time, increment)`
  values through a mutable `current_step` cursor.
- **Newton solver.** It drives the residual of each step to zero:
  - pydykit's `NewtonPlainPython.solve`;
  - pymetis's `newton_update`, which works in place on the `states` buffer.
- **Orchestration loops.** `Newton.solve` of pydykit and of pymetis march the
  stepper and write `times[k]` and `results[k]` into pre-sized buffers.
  `Result` is pydykit's buffer; `States` is pymetis's.
- **Residual assembly.**
  - pydykit: `MidpointPH` and `Midpoint_DAE`.
  - pymetis: `Midpoint`, `EulerImplicit` and `EulerExplicit`.
  - The central-difference numerical tangent.
- **System structure.**
  - State layouts: block decomposition and composition, and column naming.
  - The port-Hamiltonian structure and descriptor matrices.
  - The particle system's mass matrices, constraint gradient, spring
    gradient and damper matrix.
  - The quaternion operators of the rigid body.
  - The snapshot `copy` of a system.
  - The manager's parametrization check and its wiring of configuration
    entries to constructors.

Numbers are Dafny `real`, so every floating-point identity holds exactly.
Vectors are `seq<real>` and matrices are row-major `seq<seq<real>>`
(module `LinAlg`).

The physics a system supplies is taken as function-typed callbacks with shape
contracts:
- potentials and their gradients;
- mass matrices;
- constraints and their gradients;
- sine and cosine.

The dense inverse `np.linalg.inv(T) @ b` is an abstract `LinearSolve`
parameter. Its contract `Solves` (a returned `y` satisfies `T·y = b`) is what
the lemmas require. Python exceptions become `Result`/`Outcome` error values
named after the exception class.

Where the description of the engine and the code disagree, the model follows
the code:
- **FixedIncrement step count.** It is the truncated quotient `int((end − start) / step_size)`, not a rounded one.
- **Newton sentinel.** The loop starts from the residual norm 1e5, not +∞. A tolerance above 1e5 therefore skips the loop entirely (`FunctionSolvers.HugeToleranceSkipsLoop`).
- **Non-convergence.** pydykit raises `PydykitException("Newton convergence not succesful")` with no step index. pymetis returns the last iterate silently.
- **HittingEnd increments.** A `FixedIncrementHittingEnd` step carries *this time minus the previous time*. Step 0 wraps to `times[-1]`, so its increment is `start − end`.
- **Partial results.** A failing Newton solve stops the loop. The rows written before the failure stay in the buffer, and the outcome is the error.

## Model

| member | source | states |
|---|---|---|
| TimeSteppers.Linspace | pydykit/time_steppers.py:65-72 | `num` points from `start` to `stop` inclusive with equal consecutive gaps `(stop − start)/(num − 1)` |
| TimeSteppers.Arange | pydykit/time_steppers.py:117-122 | point k is `start + k·step` |
| TimeSteppers.GetStepSize | pydykit/time_steppers.py:74-85 | fails with IndexError iff fewer than two times; succeeds iff the gaps are all equal, and then returns `times[1] − times[0]` |
| TimeSteppers.FixedIncrementLayoutShape | pydykit/time_steppers.py:44-49 | construction succeeds iff `step_size ≤ end − start` (IndexError otherwise); `nbr_steps = ⌊(end − start)/step_size⌋ ≥ 1`, `nbr_steps + 1` times from start to end, equal gaps, and `step_size` overwritten by `(end − start)/nbr_steps` |
| TimeSteppers.FixedIncrementQuarterSteps | pydykit/time_steppers.py:44-85 | `FixedIncrement(0, 1, 0.25)` has times `[0, 0.25, 0.5, 0.75, 1]` and step 0.25 |
| TimeSteppers.FixedIncrementOverwritesStepSize | pydykit/time_steppers.py:44-49 | a configured 0.3 on [0, 1] gives three steps of 1/3 |
| TimeSteppers.HittingEndShape | pydykit/time_steppers.py:116-132 | the times are the arange points followed by `end`; they start at `start`, end at `end`, and the last gap lies in (0, step_size] |
| TimeSteppers.ArangeSpacing | pydykit/time_steppers.py:117-122 | consecutive arange points are exactly one step apart |
| TimeSteppers.LastGap | pydykit/time_steppers.py:117-126 | the last arange point falls short of `end` by a gap in (0, step] |
| TimeSteppers.HittingEndExample | pydykit/time_steppers.py:102-132 | `FixedIncrementHittingEnd(0, 1, 0.3)` has times `[0, 0.3, 0.6, 0.9, 1]` and last increment 0.1 |
| TimeSteppers.HittingEndIncrements | pydykit/time_steppers.py:102-110 | step 0 carries `start − end`; inner steps carry `step_size`; the last carries a value in (0, step_size] |
| TimeSteppers.AllSteps | pydykit/time_steppers.py:55-63 | one step per time point, step k having index k and time `times[k]` |
| TimeSteppers.AllStepsPointwise | pydykit/time_steppers.py:55-63 | a sequence of steps equal pointwise to the generator's k-th step is exactly AllSteps |
| TimeSteppers.TimeStepper.constructor | pydykit/time_steppers.py:34-49 | the stepper keeps its variant, bounds, step size, counts and times; the generator has not yielded yet |
| TimeSteppers.TimeStepper.MakeSteps | pydykit/time_steppers.py:55-56 | a fresh generator starts at position 0 over the precomputed times |
| TimeSteppers.TimeStepper.Next | pydykit/time_steppers.py:55-63 | yields step `position` with index, time and increment of the variant; advances by one; `current_step` becomes the yielded step; an exhausted generator yields nothing and changes nothing |
| TimeSteppers.TimeStepper.Drain | pydykit/time_steppers.py:102-114 | running the generator to exhaustion yields AllSteps in order and leaves `current_step` at the last step |
| TimeSteppers.NewFixedIncrement | pydykit/time_steppers.py:34-49 | construction fails exactly when the layout fails; otherwise the stepper holds the layout's times, step count and overwritten step size |
| TimeSteppers.NewFixedIncrementHittingEnd | pydykit/time_steppers.py:88-100 | construction fails exactly when `identify_times` fails; otherwise the stepper holds those times and the configured step size |
| FunctionSolvers.NewtonStep | pydykit/function_solvers.py:46-49 | a successful loop body evaluated the residual at the current iterate and produced a next iterate of the same length |
| FunctionSolvers.Iterate | pydykit/function_solvers.py:42-50 | the loop keeps the iterate's length |
| FunctionSolvers.PlainPythonResult | pydykit/function_solvers.py:35-58 | a returned value has the length of the initial guess |
| FunctionSolvers.SolvePlainPython | pydykit/function_solvers.py:35-58 | the while loop returns exactly PlainPythonResult |
| FunctionSolvers.IterationBudget | pydykit/function_solvers.py:39-45 | the body runs at most `max_iterations` times; a run that neither failed nor converged used the whole budget |
| FunctionSolvers.PlainPythonOutcome | pydykit/function_solvers.py:53-58 | solve returns iff no callback failed and the last residual norm is below epsilon, and then returns the final iterate; a failed callback propagates; otherwise `PydykitException("Newton convergence not succesful")` after the whole budget |
| FunctionSolvers.ReturnsOnePastChecked | pydykit/function_solvers.py:46-50 | the residual whose norm the loop compares belongs to the iterate before the returned one: the returned value is one update past it |
| FunctionSolvers.StepSolvesLinearSystem | pydykit/function_solvers.py:46-49 | each body replaces x by x + Δ with `T(x)·Δ = −R(x)` |
| FunctionSolvers.ExactRootOneIteration | pydykit/function_solvers.py:38-50 | from an exact root with a nonsingular tangent, exactly one body runs and the guess is returned unchanged |
| FunctionSolvers.ZeroRightHandSide | pydykit/function_solvers.py:48 | for a nonsingular tangent the solve of a zero right-hand side is zero |
| FunctionSolvers.ZeroBelowTolerance | pydykit/function_solvers.py:53 | a zero residual passes any positive tolerance |
| FunctionSolvers.NormSqZeros | pydykit/function_solvers.py:50 | the zero vector has norm zero |
| FunctionSolvers.HugeToleranceSkipsLoop | pydykit/function_solvers.py:38-44 | a tolerance above the 1e5 sentinel runs no body and returns the guess without error |
| Solvers.StepSolution | pydykit/solvers.py:49-53 | a solution has the length of its initial guess |
| Solvers.SolveStep | pydykit/solvers.py:49-53 | one solve is the Newton loop on the integrator's residual and tangent, with `state_n` and the step's increment bound |
| Solvers.MarchFrom | pydykit/solvers.py:45-57 | the march solves at most one state per step, all of them if none failed, each as long as the guess |
| Solvers.Manager.constructor | pydykit/solvers.py:31-34 | the manager holds the system state, the guess as current and next state, the stepper and the result |
| Solvers.MarchUnfold | pydykit/solvers.py:45-57 | a march is the solve of its first step followed by the march from that solution, or stops with the solve's error |
| Solvers.MarchProgress | pydykit/solvers.py:48-57 | after j solved steps the march continues with the solve of step j from the last solution |
| Solvers.Advance | pydykit/solvers.py:48-57 | `current_state` takes the old `next_state`; on success `next_state`, `times[k]` and `results[k]` take the solution and the step's time, and nothing else changes; on failure no row changes |
| Solvers.Planned | pydykit/solvers.py:45-57 | the later steps' march solves fewer states than there are time points |
| Solvers.FilledExtend | pydykit/solvers.py:56-57 | writing solution x into row and time k = n + 1 extends the record of the first n solutions |
| Solvers.LedgerStart | pydykit/solvers.py:37-41 | with only time 0 written, no step has been solved |
| Solvers.LedgerOk | pydykit/solvers.py:48-57 | a successful solve of the next step extends the record by its row |
| Solvers.LedgerErr | pydykit/solvers.py:49-53 | a failed solve ends the planned march with that error, and the rows already written are the march's solutions |
| Solvers.LedgerEnd | pydykit/solvers.py:45 | with every step solved the planned march succeeded and is recorded |
| Solvers.Begin | pydykit/solvers.py:37-41 | a fresh generator; the first step only writes `times[0]` |
| Solvers.Stride | pydykit/solvers.py:45-57 | one loop pass keeps the loop invariant and advances the generator by one; current_state becomes the state the solve started from; a failure leaves the record of the march's solutions and its error, with the generator on the failed step |
| Solvers.Solve | pydykit/solvers.py:31-62 | the result holds time 0 and, for each later step k, the time and the Newton solution started from step k−1's solution; the loop stops at the first failure, which is the outcome; afterwards the generator is exhausted (or, after a failure, rests on the step after the last solution), and current_state is the state the last attempted solve started from |
| Results.Result.constructor | pydykit/results.py:10-17 | `nbr_time_points` zero times; row 0 is the system state; rows 1.. are zeros of length `dim_state` |
| Results.Result.Record | pydykit/solvers.py:56-57 | row k and time k take the given values, and no other row changes |
| Results.Result.ToTable | pydykit/results.py:19-25 | the header is the state columns followed by `time`; row k is `results[k]` followed by `times[k]` |
| Utils.Abs | pydykit/utils.py:63 | the absolute value is non-negative and equals x or −x |
| Utils.Perturbation | pydykit/utils.py:63 | the perturbation ε·(1 + \|x_j\|) is never zero |
| Utils.CentralColumn | pydykit/utils.py:61-78 | a column has the state's length |
| Utils.CentralDifferences | pydykit/utils.py:52-80 | defined iff every column's residuals are; then an N×N matrix whose column j is the central quotient of coordinate j |
| Utils.CentralPair | pydykit/utils.py:61-76 | the two residuals at x ± δe_j, with the working copy restored afterwards |
| Utils.FillColumn | pydykit/utils.py:78 | only column j of the tangent changes, and it becomes the given column |
| Utils.NumericalTangent | pydykit/utils.py:52-80 | the in-place loop returns exactly CentralDifferences of the caller's state |
| Utils.AffineTangentExact | pydykit/utils.py:59-78 | for an affine residual A·x + b the central difference is exactly A |
| Utils.AffineColumn | pydykit/utils.py:63-78 | for an affine residual column j is A's column j |
| Utils.RowQuotient | pydykit/utils.py:78 | the central quotient of a row product is the row's entry j |
| Utils.RowDifference | pydykit/utils.py:64-72 | moving coordinate j by ±δ moves a row product by 2δ times its entry j |
| Utils.ShiftRoundTrips | pydykit/utils.py:98-103 | the two index shifts are mutually inverse |
| Utils.Insert | pydykit/utils.py:106-107 | inserting into a sorted list keeps it sorted and adds exactly the element |
| Utils.SortByKey | pydykit/utils.py:106-107 | the result is sorted by the key and a permutation of the input |
| Utils.FlattenLength | pydykit/utils.py:114-115 | the entry count of the blocks is the length of their concatenation |
| Utils.FlattenAppend | pydykit/systems/port_hamiltonian_systems.py:27-28 | appending a block appends its entries to the state and adds its length to the count |
| Utils.CompareStringLists | pydykit/utils.py:128-133 | passes iff the lists are equal, otherwise a PydykitException naming both lists: "[…] does not match […]" |
| Utils.SystemCopies | pydykit/utils.py:136-143 | one copy per state, in order, each carrying that state and the system's other attributes |
| BaseSystem.Copy | pydykit/systems/system.py:6-9 | the copy carries the new state and every other attribute of the original |
| BaseSystem.CopyIdentities | pydykit/systems/system.py:6-9 | copying with the own state is the identity; a copy of a copy is a copy of the original; copies are equal iff their states are |
| Managers.ValidateCombination | pydykit/managers.py:132-156 | passes iff both sides declare a parametrization and they are equal; AssertionError if both exist and differ; PydykitException if either is missing |
| Managers.ValidationSymmetric | pydykit/managers.py:144-149 | the check does not depend on which side is the integrator |
| Managers.ValidationTransitive | pydykit/managers.py:144-149 | the check is reflexive on declared parametrizations and transitive |
| Managers.ModelDump | pydykit/managers.py:105 | the dump holds every field plus the discriminator under `class_name` |
| Managers.GetInstance | pydykit/managers.py:102-114 | the factory key is the class name; the keywords are every field except `class_name`, plus `manager`; TypeError for a field named `key` or `manager`, which would be passed twice; otherwise KeyError for an unknown class |
| Managers.GetInstanceRecoversEntry | pydykit/managers.py:102-114 | the call's key and keywords without `manager` give back the configuration entry |
| MultiBodyLayout.Clamp | pydykit/systems_multi_body.py:38-48 | a slice bound past the end clamps to the length |
| MultiBodyLayout.DecomposeState | pydykit/systems_multi_body.py:38-48 | the three blocks concatenate to the state and have lengths n, n and the rest |
| MultiBodyLayout.ComposeState | pydykit/systems.py:178-186 | the composed state's length is the sum of the block lengths |
| MultiBodyLayout.ComposeDecompose | pydykit/systems_multi_body.py:38-48 | composing and decomposing are mutually inverse |
| MultiBodyLayout.ColumnsFollowLayout | pydykit/systems_multi_body.py:31-36 | one column per state entry; column i names the block that entry i belongs to |
| MultiBodyLayout.LiteratureNumbering | pydykit/systems/multi_body_systems.py:64-72 | with the literature shift the numbers of each block run 1, 2, … |
| MultiBodyLayout.KineticEnergy | pydykit/systems_multi_body.py:50-53 | defined only when the system has an inverse mass matrix |
| MultiBodyLayout.TotalEnergy | pydykit/systems_multi_body.py:61-62 | defined exactly when the kinetic energy is |
| MultiBodyLayout.KineticEnergyPositive | pydykit/systems_multi_body.py:50-62 | with a positive diagonal inverse mass, ½pᵀM⁻¹p ≥ 0, zero iff p = 0, and total energy ≥ potential energy |
| MultiBodyLayout.Repeat | pydykit/systems_multi_body.py:248-250 | `np.repeat(mass, d)` has \|mass\|·d entries, each a mass |
| MultiBodyLayout.RepeatBlock | pydykit/systems_multi_body.py:248-250 | entry k·d + j of the repeat is particle k's mass |
| MultiBodyLayout.ParticleMassMatrix | pydykit/systems_multi_body.py:248-250 | the mass matrix is square of size n·d |
| MultiBodyLayout.Reciprocals | pydykit/systems_multi_body.py:252-256 | each reciprocal times its entry is one |
| MultiBodyLayout.ParticleInverseMassMatrix | pydykit/systems_multi_body.py:252-256 | the inverse mass matrix is square of size n·d |
| MultiBodyLayout.ParticleMassInverse | pydykit/systems_multi_body.py:248-256 | the two matrices undo each other in both orders |
| MultiBodyLayout.DiagonalsInverse | pydykit/systems_multi_body.py:252-256 | diagonal matrices whose diagonals multiply to one undo each other |
| MultiBodyLayout.ParticleMassDiagonal | pydykit/systems_multi_body.py:248-256 | diagonal entry k·d + j is particle k's mass, and of the inverse its reciprocal |
| MultiBodyLayout.ParticleInitialState | pydykit/systems/multi_body_systems.py:505-509 | the initial blocks are named position, momentum, multiplier |
| MultiBodyLayout.ParticleInitialMultipliers | pydykit/systems_multi_body.py:221-225 | the built state is positions, momenta, then one zero multiplier per constraint |
| MultiBodyLayout.LengthConstraintZero | pydykit/systems/multi_body_systems.py:631-636 | ½(vᵀv − ℓ²) vanishes iff \|end − start\|² = ℓ² |
| MultiBodyLayout.ViscosityAtLeastGround | pydykit/systems_multi_body.py:520-532 | the viscosity is the ground viscosity, raised by ground·α·d² when state dependent, never below the ground viscosity for non-negative parameters |
| ParticleStencils.HStackMatrices | pydykit/systems_multi_body.py:484-518 | horizontal stacking keeps the row count |
| ParticleStencils.HStackIndex | pydykit/systems_multi_body.py:390 | position k·d + j of equal-length parts is entry j of part k |
| ParticleStencils.HStackLength | pydykit/systems_multi_body.py:390 | n parts of length d stack to length n·d |
| ParticleStencils.VStackIndex | pydykit/systems_multi_body.py:484-518 | row k·d + i of stacked blocks is row i of block k |
| ParticleStencils.VStackLength | pydykit/systems_multi_body.py:484-518 | n blocks of d rows stack to n·d rows |
| ParticleStencils.Sign | pydykit/systems_multi_body.py:494-503 | the sign of a particle in structure_start: +1 at the start particle (also when it is the end too), −1 at the end particle, 0 elsewhere |
| ParticleStencils.GradientStructure | pydykit/systems_multi_body.py:381-390 | the append loop builds the stacked blocks of every particle |
| ParticleStencils.ConstraintGradientAsWritten | pydykit/systems/multi_body_systems.py:651-669 | the row as written: −v and +v blocks, zeros(3) for every other particle |
| ParticleStencils.ConstraintGradient | pydykit/systems_multi_body.py:372-390 | the row with padding of the spatial dimension, of length n·d |
| ParticleStencils.SpringFactor | pydykit/systems_multi_body.py:309 | for a non-zero stiffness the gradient's factor vanishes iff the spring has its equilibrium length |
| ParticleStencils.SpringEnergy | pydykit/systems_multi_body.py:277-280 | the energy is non-negative for a non-negative stiffness and, for a non-zero stiffness, vanishes iff the spring has its equilibrium length |
| ParticleStencils.SquareSign | pydykit/systems_multi_body.py:280 | a square is non-negative and positive off zero |
| ParticleStencils.SpringEnergyFactor | pydykit/systems_multi_body.py:278-320 | twice stiffness times the energy is the square of the gradient's factor |
| ParticleStencils.SpringEnergyGradient | pydykit/systems_multi_body.py:299-320 | stiffness·(vᵀv − ℓ₀²) times the blocks −2v at the start and 2v at the end |
| ParticleStencils.GradientBlocks | pydykit/systems_multi_body.py:371-390 | entry k·d + j of the row is −c·v_j at the start particle, c·v_j at the end particle, 0 elsewhere |
| ParticleStencils.SupportStartContributesNothing | pydykit/systems_multi_body.py:411-420 | a support start (index None) contributes no block |
| ParticleStencils.AsWrittenPaddingBreaksLength | pydykit/systems/multi_body_systems.py:667 | in two dimensions with three particles the row as written has 7 entries, not 6 |
| ParticleStencils.DampingBlock | pydykit/systems_multi_body.py:484-500 | a damping block is d×d |
| ParticleStencils.Structure | pydykit/systems_multi_body.py:484-500 | a structure matrix has d rows |
| ParticleStencils.DissipationMatrix | pydykit/systems_multi_body.py:484-518 | the two loops build exactly the stacked row blocks |
| ParticleStencils.RowBlocks | pydykit/systems_multi_body.py:502-518 | one row block per particle |
| ParticleStencils.RowBlocksShape | pydykit/systems_multi_body.py:502-518 | every row block is d × n·d, and the damper matrix is their stack |
| ParticleStencils.DissipationShape | pydykit/systems_multi_body.py:484-518 | the damper matrix is square of size n·d |
| ParticleStencils.DissipationEntry | pydykit/systems_multi_body.py:484-518 | entry (k·d + i, l·d + j) is s_k·s_l on the diagonal i = j and 0 otherwise: +I on start/start and end/end, −I on start/end and end/start |
| ParticleStencils.RowBlockEntry | pydykit/systems_multi_body.py:502-518 | entry (i, l·d + j) of particle k's row block is s_k·s_l where i = j |
| ParticleStencils.StructureShape | pydykit/systems_multi_body.py:484-500 | each structure matrix is d × n·d |
| ParticleStencils.StructureEntry | pydykit/systems_multi_body.py:484-500 | structure_start holds s_l·I in particle l's block, structure_end −s_l·I |
| ParticleStencils.DissipationSymmetric | pydykit/systems_multi_body.py:484-518 | the damper matrix is symmetric |
| MultiBodySystems.LiteratureColumns | pydykit/systems/multi_body_systems.py:64-72 | the position, momentum and lambda columns numbered from 1 |
| MultiBodySystems.MultiBodySystem.constructor | pydykit/systems/multi_body_systems.py:10-27 | the dimensions and counts are recorded, and the state is still empty |
| MultiBodySystems.MultiBodySystem.InitializeState | pydykit/systems/multi_body_systems.py:30-47 | records the blocks, their entry count and names; fails as compare_string_lists does when the integrator's variable names differ, leaving columns and state; otherwise sets the columns of the class's own get_state_columns (numbered for a multibody system, lettered for a particle system) and the concatenated state |
| MultiBodySystems.MultiBodySystem.BuildStateVector | pydykit/systems/multi_body_systems.py:49-50 | the state is the blocks concatenated in key order, and nothing else changes |
| MultiBodySystems.MultiBodySystem.Decompose | pydykit/systems/multi_body_systems.py:52-62 | the blocks compose back to the state and have length nbr_dof |
| MultiBodySystems.MultiBodySystem.Update | pydykit/systems/multi_body_systems.py:74-80 | one copy per input state, in order, each carrying that state; the system's own state ends as the last input |
| MultiBodySystems.ShiftLink | pydykit/systems/multi_body_systems.py:526-528 | both particle indices move from 1-based to 0-based, and the values stay |
| MultiBodySystems.ShiftLinksRoundTrip | pydykit/utils.py:98-103 | shifting and unshifting the entries are mutually inverse |
| MultiBodySystems.ShiftLinks | pydykit/systems/multi_body_systems.py:522-529 | the in-place loop yields exactly the shifted entries |
| MultiBodySystems.FlatAttributes | pydykit/utils.py:110-111 | flattening succeeds iff the vectors have equal length (ValueError otherwise) |
| MultiBodySystems.ParticleBlock | pydykit/systems/multi_body_systems.py:688-692 | particle k's part has d entries |
| MultiBodySystems.DecomposeIntoParticles | pydykit/systems/multi_body_systems.py:688-692 | succeeds iff the length is nbr_particles·d with at least one particle; AssertionError when the length differs, ZeroDivisionError from np.split for zero particles; then nbr_particles parts of length d |
| MultiBodySystems.SplitThenFlatten | pydykit/systems/multi_body_systems.py:688-692 | flattening the particle parts gives the vector back |
| MultiBodySystems.FlattenThenSplit | pydykit/systems/multi_body_systems.py:498-504 | splitting a flattened list of equal-length vectors gives the vectors back |
| MultiBodySystems.LetterColumns | pydykit/systems/multi_body_systems.py:531-536 | column i is `name_{x,y,z}[i mod 3]` numbered i / 3 + 1 |
| MultiBodySystems.ParticleColumnsMatchStateOnlyIn3D | pydykit/systems/multi_body_systems.py:531-540 | the column count equals the state length iff d = 3 |
| MultiBodySystems.PyIndex | pydykit/systems/multi_body_systems.py:644-645 | Python indexing succeeds iff −len ≤ i < len, else IndexError; it yields s[i] from the front for i ≥ 0 and s[len + i] from the back for i < 0 |
| MultiBodySystems.AsIndex | pydykit/systems/multi_body_systems.py:662-664 | a non-negative index is the particle number itself; a negative index matches no particle |
| MultiBodySystems.Value | pydykit/systems/multi_body_systems.py:643 | a lookup succeeds iff the key is present and then yields the entry's value; KeyError naming the key otherwise |
| MultiBodySystems.Resolve | pydykit/systems/multi_body_systems.py:642-646 | the length and the two end vectors, defined iff each lookup succeeds |
| MultiBodySystems.ConstraintValuesMeaning | pydykit/systems/multi_body_systems.py:638-648 | defined iff every constraint resolves; value i is ½(vᵀv − ℓ²) and vanishes iff the distance is ℓ |
| MultiBodySystems.ConstraintGradientMatrix | pydykit/systems/multi_body_systems.py:671-686 | stacking no rows fails with ValueError |
| MultiBodySystems.ConstraintGradientShape | pydykit/systems/multi_body_systems.py:671-686 | one row of n·d entries per constraint |
| MultiBodySystems.ResolveSpring | pydykit/systems/multi_body_systems.py:617-623 | defined iff stiffness, equilibrium length and both ends resolve |
| MultiBodySystems.SumRows | pydykit/systems/multi_body_systems.py:629 | the sum has the rows' length |
| MultiBodySystems.SumOfZeroRows | pydykit/systems/multi_body_systems.py:629 | zero rows sum to zero |
| MultiBodySystems.SpringContributionsShape | pydykit/systems/multi_body_systems.py:613-629 | one contribution of n·d entries per spring |
| MultiBodySystems.SpringsAtRestExertNoForce | pydykit/systems/multi_body_systems.py:590-629 | springs at their equilibrium length contribute zero rows |
| MultiBodySystems.ParticleSystem.constructor | pydykit/systems/multi_body_systems.py:484-519 | particles sorted by index; counts, masses, springs and constraints recorded; the underlying system has nbr_dof = d·n |
| MultiBodySystems.ParticleSystem.ShiftIndices | pydykit/systems/multi_body_systems.py:522-529 | springs and constraints are shifted to 0-based indices, and nothing else changes |
| MultiBodySystems.ParticleSystem.ParticleVectors | pydykit/systems/multi_body_systems.py:639-640 | the particles' position vectors, with AssertionError when nbr_dof ≠ n·d |
| MultiBodySystems.ParticleSystem.Constraint | pydykit/systems/multi_body_systems.py:638-648 | one value per constraint |
| MultiBodySystems.ParticleSystem.ConstraintGradient | pydykit/systems/multi_body_systems.py:671-686 | no constraints is an error; otherwise a matrix of one n·d row per constraint |
| MultiBodySystems.ParticleSystem.InternalPotentialGradient | pydykit/systems/multi_body_systems.py:613-629 | a vector of n·d entries |
| MultiBodySystems.NewParticleSystem | pydykit/systems/multi_body_systems.py:474-540 | fails iff the particles' vectors cannot be flattened or the variable names differ; otherwise sorted particles, shifted links, the state [positions, momenta, zeros] and the lettered columns of position and momentum followed by lambda1 … lambda_m |
| MultiBodySystems.RestingSpringsGiveZeroGradient | pydykit/systems/multi_body_systems.py:613-629 | with every spring at rest the internal potential gradient is zero |
| Operators.DecomposeQuaternion | pydykit/operators.py:4-7 | q0 followed by q[1:] is q |
| Operators.Hat | pydykit/operators.py:14-20 | the hat matrix is 3×3 |
| Operators.HatMap | pydykit/operators.py:10-20 | AssertionError unless the length is four; otherwise a skew-symmetric 3×3 matrix |
| Operators.HatIsCross | pydykit/operators.py:14-20 | hat(q)·w is the cross product of q[1:] and w |
| Operators.TransformationMatrix | pydykit/operators.py:23-33 | succeeds iff the length is four; IndexError at q[0] for an empty q, AssertionError from hat_map for other lengths; otherwise 3×4 with first column −q[1:] and right block q0·I + sign·hat(q) |
| Operators.TransformationAnnihilatesQuaternion | pydykit/operators.py:23-41 | G(q)·q = 0 for either sign |
| Operators.SpatialConvectiveDiffer | pydykit/operators.py:36-41 | the spatial and the convective matrix share the first column and differ by 2·hat(q) in the right block |
| Operators.CombineGInertias | pydykit/operators.py:52-53 | 4·GᵀIG is 4×4 |
| Operators.CombineEntry | pydykit/operators.py:52-53 | entry (i, j) is 4 times I's bilinear form on G's columns i and j |
| Operators.CombineSymmetric | pydykit/operators.py:52-53 | 4·GᵀIG is symmetric for a symmetric inertia |
| LegacySystems.SplitState | pydykit/systems.py:166-176 | AssertionError unless the length is 2n + m; otherwise blocks of lengths n, n, m that compose back to the state |
| LegacySystems.SplitCompose | pydykit/systems.py:166-186 | decompose_state of compose_state gives the blocks back |
| LegacySystems.ZVector | pydykit/systems.py:66-68 | defined iff the state has at least two entries; then two co-states, the second being the velocity |
| LegacySystems.Jacobian | pydykit/systems.py:70-72 | defined iff the state has at least two entries; a 2×2 matrix with a zero upper off-diagonal entry and second row [0, 1] |
| LegacySystems.JMatrix | pydykit/systems.py:74-75 | [[0, 1], [−1, 0]] is skew-symmetric |
| LegacySystems.EMatrix | pydykit/systems.py:77-78 | diag(1, m·l²) |
| LegacySystems.PendulumPowerBalance | pydykit/systems.py:66-75 | zᵀJz = 0 for the pendulum's co-state |
| LegacySystems.Pendulum3DDecompose | pydykit/systems.py:166-176 | succeeds iff the length is 2·dim + nbr_constraints |
| LegacySystems.Pendulum3DMassMatrix | pydykit/systems.py:188-189 | mass·I |
| LegacySystems.Pendulum3DExternalGradient | pydykit/systems.py:200-201 | −M·a, entrywise −mass·a_i |
| LegacySystems.Pendulum3DExternalPotentialSlope | pydykit/systems.py:197-201 | the external potential is linear with slope equal to the gradient |
| LegacySystems.Pendulum3DConstraintGradient | pydykit/systems.py:212-213 | the gradient is one row of the position's length |
| LegacySystems.Pendulum3DConstraintZero | pydykit/systems.py:209-210 | ½(qᵀq/ℓ² − 1) vanishes iff \|q\|² = ℓ² |
| LegacySystems.Pendulum3DConstraintGradientExact | pydykit/systems.py:209-213 | the constraint changes by the gradient row times w plus ½·wᵀw/ℓ² |
| LegacySystems.Pendulum3DInitialState | pydykit/systems.py:158-164 | the initial state decomposes into Q, M·V and zero multipliers |
| LegacySystems.RigidBodyDecompose | pydykit/systems.py:255-264 | succeeds iff the length is 2·nbr_dof + nbr_constraints |
| LegacySystems.RigidBodyMassMatrix | pydykit/systems.py:276-284 | defined iff q has at least four entries; then a symmetric 4×4 matrix |
| LegacySystems.RigidBodyMassAnnihilatesQuaternion | pydykit/systems.py:276-284 | M(q)·q = 0 |
| LegacySystems.RigidBodyInitialVelocity | pydykit/systems.py:243-245 | v₀ = ½·G(Q)ᵀ·V has four entries and is orthogonal to Q |
| LegacySystems.RigidBodyInitialState | pydykit/systems.py:243-253 | defined iff Q has 4 and V 3 entries; the state is [Q, M(Q)·v₀, 0], and its momentum M(Q)·v₀ is orthogonal to Q |
| LegacySystems.MomentumOrthogonal | pydykit/systems.py:245-253 | Qᵀ·M(Q)·v = 0 for every v |
| LegacySystems.RigidBodyKineticGradientFromVelocity | pydykit/systems.py:289-300 | a 4-vector, zero when the velocity equals the quaternion |
| LegacySystems.RigidBodyConstraintGradientExact | pydykit/systems.py:314-318 | the constraint vanishes iff \|q\| = 1, and changes by qᵀw plus ½wᵀw |
| PortHamiltonian.PotentialForces | pydykit/systems_port_hamiltonian.py:117-130 | the force vector has nbr_dof entries |
| PortHamiltonian.Costates | pydykit/systems_port_hamiltonian.py:117-130 | [∇V_ext + ∇V_int, v, λ]: the forces, then the state's velocity and multipliers |
| PortHamiltonian.LegacyHamiltonianGradient | pydykit/systems_port_hamiltonian.py:132-147 | a vector of the state's length |
| PortHamiltonian.HamiltonianDifferentialGradient | pydykit/systems_port_hamiltonian.py:149-161 | a vector of 2·nbr_dof entries |
| PortHamiltonian.HamiltonianGradient | pydykit/systems/port_hamiltonian_systems.py:162-166 | a vector of nbr_dof entries |
| PortHamiltonian.GradientGenerations | pydykit/systems_port_hamiltonian.py:132-161 | the legacy gradient is the differential gradient followed by m zeros; its middle block is M·v; the newer gradient is its first block |
| PortHamiltonian.HamiltonianAtLeastPotential | pydykit/systems_port_hamiltonian.py:196-203 | with a diagonal mass matrix of non-negative entries H ≥ V_ext + V_int; with positive entries equality holds iff v = 0 |
| PortHamiltonian.KineticGradientIsVelocityBlock | pydykit/systems_port_hamiltonian.py:132-147 | M·v is the gradient of ½vᵀMv for a symmetric M |
| PortHamiltonian.DifferentialAlgebraicSplit | pydykit/systems_port_hamiltonian.py:214-223 | the differential state followed by the algebraic co-state is the state, of lengths 2n and m |
| PortHamiltonian.StructureGrid | pydykit/systems_port_hamiltonian.py:163-180 | the 3×3 grid of blocks has the row and column sizes n, n, m |
| PortHamiltonian.StructureMatrix | pydykit/systems_port_hamiltonian.py:163-180 | J is square of the state's size |
| PortHamiltonian.StructureGridSkew | pydykit/systems_port_hamiltonian.py:163-180 | block (k, l) is minus the transpose of block (l, k) |
| PortHamiltonian.StructureSkew | pydykit/systems_port_hamiltonian.py:163-180 | Jᵀ = −J and zᵀJz = 0 |
| PortHamiltonian.DescriptorGrid | pydykit/systems_port_hamiltonian.py:182-188 | the grid of blocks has the sizes n, n, m |
| PortHamiltonian.DescriptorMatrix | pydykit/systems_port_hamiltonian.py:182-188 | E is square of the state's size |
| PortHamiltonian.NonsingularDescriptorMatrix | pydykit/systems_port_hamiltonian.py:190-194 | a square matrix of size 2n |
| PortHamiltonian.DescriptorBlocks | pydykit/systems_port_hamiltonian.py:182-194 | E's last m rows and columns are zero, and its leading 2n block is the nonsingular descriptor |
| PortHamiltonian.DescriptorMapsCostatesToGradient | pydykit/systems_port_hamiltonian.py:117-188 | E is symmetric and E·z = ∇H |
| PortHamiltonian.DescriptorGridSymmetric | pydykit/systems/port_hamiltonian_systems.py:187-193 | block (k, l) is the transpose of block (l, k) for a symmetric mass |
| PortHamiltonian.NewPortHamiltonianMBS | pydykit/systems_port_hamiltonian.py:98-101 | the wrapper and the wrapped state agree; the parametrization is ["state"]; dim_state and names follow the blocks |
| PortHamiltonian.CopyWithState | pydykit/systems_port_hamiltonian.py:103-106 | both the copy's own and its wrapped state are the new state, and nothing else differs |
| PortHamiltonian.ZipDict | pydykit/systems/port_hamiltonian_systems.py:92-97 | the keys are those paired with a value |
| PortHamiltonian.Pendulum2D.constructor | pydykit/systems/port_hamiltonian_systems.py:72-84 | state initialised from the blocks; mass 1.0, gravity 9.81, length 1.0 whatever the arguments |
| PortHamiltonian.Pendulum2D.BuildStateVector | pydykit/systems/port_hamiltonian_systems.py:27-28 | the state is the blocks concatenated, and nothing else changes |
| PortHamiltonian.Pendulum2D.DecomposeState | pydykit/systems/port_hamiltonian_systems.py:89-97 | AssertionError unless the state has two entries; then the state names map to entries 0 and 1 |
| PortHamiltonian.Pendulum2D.Costates | pydykit/systems/port_hamiltonian_systems.py:99-102 | two co-states |
| PortHamiltonian.Pendulum2D.HamiltonianGradient | pydykit/systems/port_hamiltonian_systems.py:107-109 | a 2×2 matrix with a zero upper off-diagonal entry and second row [0, 1] |
| PortHamiltonian.Pendulum2D.DescriptorMatrix | pydykit/systems/port_hamiltonian_systems.py:114-115 | diag(1, m·l²) |
| PortHamiltonian.PendulumCostates | pydykit/systems/port_hamiltonian_systems.py:99-102 | with names position and velocity the co-state is [m·g·l·sin q, v] |
| PortHamiltonian.PendulumStructureMatrix | pydykit/systems/port_hamiltonian_systems.py:111-112 | [[0, 1], [−1, 0]] is skew-symmetric |
| PortHamiltonian.LegacyDecomposeState | pydykit/systems_port_hamiltonian.py:58-66 | AssertionError unless the state has two entries; then (angle, angular velocity) |
| PortHamiltonian.LegacyCostates | pydykit/systems_port_hamiltonian.py:68-71 | defined iff the state has two entries |
| PortHamiltonian.LegacyDescriptorMatrix | pydykit/systems_port_hamiltonian.py:83-84 | diag(1, m·l²) |
| PortHamiltonian.PendulumGenerationsAgree | pydykit/systems_port_hamiltonian.py:68-84 | both generations give the same co-state and descriptor matrix for the same constants |
| Integrators.MidpointPHResiduum | pydykit/integrators.py:48-77 | defined iff the system's quantities have their shapes; then a vector of the state's length |
| Integrators.MidpointPHRoot | pydykit/integrators.py:64-75 | a root is exactly E(n1)·n1 − E(n)·n = h·J(mid)·z(mid) |
| Integrators.MidpointPHPowerBalance | pydykit/integrators.py:48-77 | at a root z(mid)ᵀ(E(n1)·n1 − E(n)·n) = 0 |
| Integrators.MidpointPHHiddenConstraint | pydykit/integrators.py:48-77 | at a root with h ≠ 0, G(mid)·v_mid = 0 |
| Integrators.HiddenConstraintRow | pydykit/integrators.py:64-75 | one multiplier row of a midpoint step gives G_i(mid)·v_mid = 0 |
| Integrators.ChangeMultiplierRow | pydykit/integrators.py:64-70 | the multiplier rows of E(n1)·n1 − E(n)·n are zero |
| Integrators.FlowMultiplierRow | pydykit/integrators.py:71-75 | row 2n + i of J(mid)·z(mid) is G_i(mid)·v_mid |
| Integrators.DescriptorRowVanishes | pydykit/systems_port_hamiltonian.py:182-188 | the multiplier rows of E(x)·x are zero |
| Integrators.TangentOfResiduum | pydykit/integrators.py:24-43 | the tangent is the central-difference tangent of the very residual get_residuum returns, with state_n fixed |
| Integrators.CentralDifferencesAgree | pydykit/integrators.py:33-43 | the tangent reads the residual only through its values |
| Integrators.MidVelocity | pydykit/integrators.py:102-107 | defined whenever the system has an inverse mass matrix; a velocity of nbr_dof entries |
| Integrators.MidpointDAEResiduum | pydykit/integrators.py:84-143 | defined iff the shapes fit and the midpoint velocity exists; length 2·nbr_dof + number of constraints |
| Integrators.MidpointDAERoot | pydykit/integrators.py:110-141 | a root is exactly q_n1 − q_n = h·M⁻¹p_mid, p_n1 − p_n = −h·(∇V + ∇_qT + Gᵀλ)(mid) and g(n1) = 0 |
| Integrators.MidVelocitySolvesMass | pydykit/integrators.py:102-107 | both ways of computing the velocity solve M(mid)·v = p_mid |
| MetisIntegrators.CalcResiduumTangent | pymetis/integrators.py:17-108 | defined iff the callbacks have their shapes; a residuum of dim entries and a dim×dim tangent |
| MetisIntegrators.RootIsSchemeStep | pymetis/integrators.py:25-39 | a root is exactly E(n1)·n1 − E(n)·n = h·J·z(point) |
| MetisIntegrators.MidpointPowerBalance | pymetis/integrators.py:17-45 | at a midpoint root z(mid)ᵀ(E(n1)·n1 − E(n)·n) = 0 for skew J |
| MetisIntegrators.EulerPowerBalance | pymetis/integrators.py:48-108 | the same at the Euler schemes' own point |
| MetisIntegrators.ExplicitUpdateIsRoot | pymetis/integrators.py:81-108 | with E = I, n + h·J·z(n) is a root of explicit Euler |
| MetisIntegrators.TangentsCompared | pymetis/integrators.py:31-103 | Midpoint and EulerImplicit share E(n1) − h·J·(½∇z(n1)); explicit Euler's tangent is E(n1) |
| MetisIntegrators.ResiduumReadsZAtPoint | pymetis/integrators.py:19-45 | the residuum reads z only at the scheme's point: the midpoint, n1 or n |
| MetisSolvers.UpdateResult | pymetis/solvers.py:51-67 | a returned iterate has the guess's length |
| MetisSolvers.States.constructor | pymetis/solvers.py:23-24 | zero time buffer; row 0 and both working states are the initial state; other rows zero |
| MetisSolvers.NewtonUpdate | pymetis/solvers.py:51-67 | the loop leaves state_n1 at the final iterate and returns the update result |
| MetisSolvers.SilentReturn | pymetis/solvers.py:56-67 | returns iff no callback or solve failed, with the final iterate; when not converged the whole budget was used, and still no error is raised |
| MetisSolvers.AgreesWithPlainPython | pymetis/solvers.py:51-67 | the two Newton loops agree except where pydykit raises on non-convergence |
| MetisSolvers.Chain | pymetis/solvers.py:35-45 | at most one solution per later time point, all of them when nothing failed |
| MetisSolvers.ChainProgress | pymetis/solvers.py:35-45 | after j solved steps the chain continues from the last solution |
| MetisSolvers.LedgerStart | pymetis/solvers.py:31-32 | with only time 0 written no step is solved |
| MetisSolvers.LedgerOk | pymetis/solvers.py:38-45 | a successful step extends the record by its row |
| MetisSolvers.LedgerErr | pymetis/solvers.py:38-41 | a failed step ends the chain with its error |
| MetisSolvers.LedgerEnd | pymetis/solvers.py:35 | with every step solved the chain succeeded and is recorded |
| MetisSolvers.Begin | pymetis/solvers.py:27-32 | a fresh generator; the first step only writes time 0 |
| MetisSolvers.Stride | pymetis/solvers.py:35-45 | state_n := state_n1, Newton in place, row and time k written; the invariant is kept and the generator advances |
| MetisSolvers.Initialised | pymetis/solvers.py:23-24 | the buffers after initialize: row 0 and the guess are the initial state |
| MetisSolvers.Solve | pymetis/solvers.py:19-49 | time 0 and, per later step, the time and the Newton solution started from the previous one; the first failure stops the loop and is the outcome |
| LinAlg.DotComm | pydykit/operators.py:52-53 | proof step, not a model of the cited lines: the inner product is symmetric, as CombineSymmetric and the pendulum and rigid-body lemmas use it |
| LinAlg.BilinearTranspose | pydykit/systems_port_hamiltonian.py:163-180 | proof step, not a model of the cited lines: xᵀAy = yᵀAᵀx, used for StructureSkew and RigidBodyInitialVelocity |
| LinAlg.SkewQuadraticFormZero | pydykit/systems_port_hamiltonian.py:163-180 | proof step, not a model of the cited lines: a skew-symmetric matrix has zᵀJz = 0, used for StructureSkew and the power-balance lemmas |
| LinAlg.WeightedSquares | pydykit/systems_multi_body.py:50-53 | proof step, not a model of the cited lines: Σ dᵢxᵢ² ≥ 0 for non-negative weights, zero iff x = 0 for positive weights; used for KineticEnergyPositive and HamiltonianAtLeastPotential |
| LinAlg.IdentityMatVec | pydykit/systems_port_hamiltonian.py:182-188 | proof step, not a model of the cited lines: I·x = x, used for the descriptor and initial-state lemmas |

## Left out

- NewtonScipy (pydykit/function_solvers.py:61-70) is a thin wrapper over scipy's root finder and is not modelled.
- The dense inverse `np.linalg.inv` is an abstract linear-solve parameter, specified only by `T·y = b`.
- Floating-point rounding in linspace, arange, isclose, int() and the norms is not modelled: numbers are exact reals. The "Unkown case" branch of FixedIncrementHittingEnd stays as an error outcome that exact arithmetic never reaches.
- The Euclidean-norm test `‖R‖ < ε` is modelled without a square root, as `ε > 0 ∧ ‖R‖² < ε²`.
- Printing of steps and residual norms, YAML loading, pandas and plotting are I/O and are not modelled.
- Configuration and wiring (pydantic models, dependency injection, factories, `_configure`, `configure_from_path`) are not modelled. The time steppers take `start < end` and `step_size > 0` as preconditions.
- Sine, cosine, square roots and physical formulas that a system supplies are function parameters. This covers the pendulum co-states and the rigid body's inverse mass.
- The norm-based `_spring_energy` and dissipation weighting of pydykit/systems/multi_body_systems.py:565-571 are not modelled; they need a square root. The squared form of pydykit/systems_multi_body.py:277-280 is modelled.
- `ParticleSystem.dissipation_matrix` (pydykit/systems/multi_body_systems.py:694-696) calls `np.zeros(n, n)`, which raises a TypeError; it is not modelled.
- The discrete-gradient schemes, the ODE and DAE example systems, and the chemical reactor and Lorenz models are not part of this model.
- pymetis/systems.py duplicates the pendulum logic of pydykit/systems.py and is not part of this model.
- The states.py buffers of both packages are not part of this model; they are superseded by `Result` and by the `States` class of the pymetis solver.
- `utils.get_keys`, `utils.select` and `utils.quadratic_length_constraint` are called from pydykit/systems_multi_body.py but not defined in pydykit/utils.py. They are not part of this model. As written, the constructor of that file's MultiBodySystem raises AttributeError at :29, so the class cannot be built. MultiBodyLayout.DecomposeState models its blocks by position, with the names that `get_keys_dict_list` (pydykit/utils.py:118-119) gives. The constraint is ½(vᵀv − ℓ²) as in pydykit/systems/multi_body_systems.py:631-636, and support endpoints are the `None` indices.
- `get_transf_matrix_sym` (pydykit/operators.py:44-49) is not modelled.
- The constant members of pydykit/systems.py are not modelled: kinetic gradients from momentum, the internal potentials, and the `zeros(3)` shapes of the rigid body.
- Shapes that numpy would reject are excluded by shape predicates or reported as `None`/errors. The texts of numpy's exceptions are not modelled.
- pydykit/solvers.py:26 instantiates the abstract `function_solvers.Newton`, which raises in Python. The model uses `NewtonPlainPython`.
- `IntegratorCommon.get_tangent` (pydykit/integrators.py:33-43) passes keywords that `get_numerical_tangent` does not accept. The model gives the intended behaviour: the trial state is perturbed and `state_n` stays fixed.
- pymetis `newton_update` passes a `time_step` keyword that `calc_residuum_tangent` does not accept. The model binds the step size instead.
- `manager.next_state` is never initialised in the repository. The model takes the initial guess as an input of the manager.
- pydykit's integrators read `manager.system.state` as `state_n`, and the loop never updates it. The model follows the code.
- Configuration dictionaries are positional `Blocks` in the model, and their aliasing is not modelled. The in-place index shift is modelled on a copied list of entries.
- The legacy port-Hamiltonian classes call `initialize_state`, which only the newer systems package defines. The model uses the newer definition.
- MetisSolvers.Solve: takes a stepper with make_steps and a buffer with one row per time point. As written, pymetis/time_steppers.py:10-13 defines no make_steps, so pymetis/solvers.py:27 raises AttributeError. The systems' `initialize` (pymetis/systems.py:38-41 and 129-134) calls `states.State(nbr_states=…, dim_state=…, columns=…)`, but pymetis/states.py defines only `States(nbr_states, dim_state)`, so that call raises AttributeError before any buffer exists. Even with `States`, the `columns` keyword would be refused, and the requested nbr_timesteps rows are one fewer than the time points, so the last write at pymetis/solvers.py:45 would be out of range. The model runs pydykit's stepper, whose times hold nbr_steps + 1 points, and sizes the buffer to those points.
- ParticleStencils.ConstraintGradient, ParticleStencils.Structure and ParticleStencils.DissipationMatrix: with zero particles np.hstack, and for the damper matrix np.vstack, of an empty list raises ValueError. The model yields an empty row, d×0 structure matrices and an empty damper matrix instead.
- Utils.CompareStringLists: the message puts every name in single quotes. Python's repr switches to double quotes for a name holding a single quote and escapes backslashes; this is not modelled.
- `sum([])` of no spring contributions is modelled as the zero vector, where Python returns the integer 0.
- Utils.SortByKey: states sortedness and permutation but not the stability of Python's `sorted`.
- PortHamiltonian.Pendulum2D.Costates: the entries are stated only by PendulumCostates, for the state names position and velocity.
- LegacySystems.Jacobian: the entry m·g·l·cos(q) is not stated, because cosine is an opaque parameter; only the shape and the constant entries are.
- PortHamiltonian.Pendulum2D.HamiltonianGradient: the entry m·g·l·cos(q) is not stated, for the same reason.
- LegacySystems.ZVector: the first co-state m·g·l·sin(q) is not stated; only its length and the velocity entry are.
- MultiBodySystems.ParticleSystem.InternalPotentialGradient: only the length is stated in general; the value is stated for springs at rest by RestingSpringsGiveZeroGradient.

## Findings

| source | as written | input that shows it | evidently intended | confidence | as-written member | corrected member |
|---|---|---|---|---|---|---|
| pydykit/systems/multi_body_systems.py:667 | `_constraint_gradient` pads every particle that is neither end with `np.zeros(3)`. The same padding appears at pydykit/systems/multi_body_systems.py:609 and pydykit/systems_multi_body.py:318 and 388 | 2 spatial dimensions, 3 particles, a constraint between particles 0 and 1: the row has 2 + 2 + 3 = 7 entries instead of 6 | pad with `np.zeros(nbr_spatial_dimensions)`, so the row has nbr_particles·d entries | high; not executed | ParticleStencils.AsWrittenPaddingBreaksLength | ParticleStencils.GradientBlocks |
