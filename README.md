# DAE step attempt of SimTK's AbstractIntegratorRep

This project is a Dafny model of the default step attempt in SimTK's generic
integrator base class, `AbstractIntegratorRep`. `attemptDAEStep` wraps the
pluggable ODE step that a concrete integration method supplies
(`attemptODEStep`). It then decides, in a fixed order, whether the trial
step:

1. failed to converge, because the ODE step threw or returned false;
2. converged but is not worth projecting, because its weighted RMS error
   exceeds `2^errOrder * accuracyInUse`;
3. lies too far off the constraint manifold to be projected safely, because
   its constraint error exceeds
   `projectionLimit = max(2*consTol, sqrt(consTol))`; or
4. is projected onto the constraint manifold. This happens when the user asked
   for projection on every step or the constraints are violated beyond
   tolerance. The outcome is then whether the projector returned or threw.

The model has three files:

- `numerics.dfy` (module `Numerics`): `std::pow(Real(2), errOrder)` as an
  exact power of two over every integer order, the projection limit, and their
  properties. These include the table of worked examples that the source gives
  in a comment.
- `abstract_integrator_rep.dfy` (module `AbstractIntegrator`): the data model,
  the collaborators, and `DaeStep`/`FinishDaeStep`, which specify the gating
  policy and state a closed-form characterisation of it. It also holds the class
  `AbstractIntegratorRep`, with the fields the header declares and the
  imperative methods `AttemptODEStep` and `AttemptDAEStep`. Both methods are
  proved against the specification functions.
- `dae_step_properties.dfy` (module `DaeStepProperties`): properties that relate
  the outcome to the collaborators. They cover the iteration count of
  non-iterative methods, the order of the accuracy and constraint tests, and the
  constraint guarantee of a converged step.

How the C++ is represented:

- C++ exceptions become `Completion<T> = Returned(value) | Threw(what)`. A
  collaborator that throws part-way still has effect: its `OdeEffect` or
  `ProjectionEffect` records what it left in the advanced state and in the
  reference out-parameters.
- Reference out-parameters are modelled as the caller's values on entry
  (`yErrEst0`, `errOrder0`, `numIterations0`) plus their values on return.
- The virtual `attemptODEStep` becomes `OdeStepMethod`. Its value is either the
  base-class default (`Unimplemented`) or an override given by its ODE formula.
- The ghost result `calls` records which collaborators ran, in order: the ODE
  step, the error norm, the constraint norm and the projector.
- `Real` is Dafny's `real`, and `std::sqrt` is a function value of the
  collaborators. The lemmas that need it to be a square root require
  `IsSqrtOf(sqrt(x), x)` at the points they use.

How a misconfigured integrator fails:

- The header asks every concrete integrator to override either
  `attemptODEStep` or `attemptDAEStep` (AbstractIntegratorRep.h lines 179-180,
  and the error message at lines 196-198). A method that overrides neither
  runs the default `attemptODEStep`, whose always-on error check throws
  (lines 194-198). That exception is thrown inside the `try` of
  `attemptDAEStep`, and its `catch (...)` at line 116 turns it into an
  ordinary `false`, i.e. a convergence failure rather than a reported
  error. `DaeStep` states exactly that.

## Model

| member | source | states |
|---|---|---|
| `Numerics.Pow2` | trunk/Integrator/src/AbstractIntegratorRep.h:133 | `std::pow(Real(2), errOrder)` computed exactly for every integer order, including negative ones as reciprocals; the factor is always positive |
| `Numerics.Pow2Step` | trunk/Integrator/src/AbstractIntegratorRep.h:133 | raising the error order by one doubles the factor `2^p` for every integer `p`, negative orders included |
| `Numerics.HalfStepWouldSucceed` | trunk/Integrator/src/AbstractIntegratorRep.h:125-133 | the rationale of the "near the edge" test: `eStep <= 2^p * accuracy` holds exactly when a half step's predicted error `eStep / 2^p` meets the accuracy |
| `Numerics.ProjectionLimit` | trunk/Integrator/src/AbstractIntegratorRep.h:151-153 | the projection limit is at least `2*consTol` and at least `sqrt(consTol)`, and equals one of them (`std::max`; for a negative tolerance `sqrt` is NaN and `std::max` keeps `2*consTol`) |
| `Numerics.ProjectionLimitRegimes` | trunk/Integrator/src/AbstractIntegratorRep.h:141-153 | for `0 <= consTol <= 1/4` the limit is `sqrt(consTol)`; above `1/4` it is `2*consTol` |
| `Numerics.ProjectionLimitTable` | trunk/Integrator/src/AbstractIntegratorRep.h:143-150 | the tabulated pairs: 1e-12 gives 1e-6, 1e-4 gives 1e-2, 0.01 gives 0.1, 0.1 gives a value in (0.316, 0.317), 0.5 gives 1 and 1 gives 2 |
| `AbstractIntegrator.OdeStepEffect` | trunk/Integrator/src/AbstractIntegratorRep.h:187-200 | the default `attemptODEStep` always throws, leaving the advanced state and the out-parameters as it found them |
| `AbstractIntegrator.FinishDaeStep` | trunk/Integrator/src/AbstractIntegratorRep.h:118-176 | after the ODE step: (1) collaborators run in the fixed order ODE step, error norm, constraint norm, projector, each only after the previous one; (2) the error norm is computed exactly when the ODE step converged; (3) the constraint norm is computed exactly when the accuracy test also passed; (4) the projector runs exactly when all three tests pass and either `userProjectEveryStep == 1` or `consErrAfterODE > consTol`; (5) the result is true exactly when the ODE step converged and either the step is not worth projecting, or it is within the projection limit and any projection returned; (6) without a projection, the error estimate and the advanced state are exactly what the ODE step left; with one, only those two are replaced, by the projector's values |
| `AbstractIntegrator.DaeStep` | trunk/Integrator/src/AbstractIntegratorRep.h:110-119 | with the default ODE step the attempt never converges: it reports failure after the ODE call alone, leaves the advanced state, `yErrEst` and `errOrder` untouched, and sets `numIterations` to 1 |
| `AbstractIntegrator.AbstractIntegratorRep.constructor` | trunk/Integrator/src/AbstractIntegratorRep.h:54-57 | the integrator keeps its system's collaborators and its method's order range, name and error-control flag |
| `AbstractIntegrator.AbstractIntegratorRep.AttemptODEStep` | trunk/Integrator/src/AbstractIntegratorRep.h:187-200 | dispatches to the concrete ODE formula, whose effect on the advanced state and out-parameters it applies; the default throws and changes nothing |
| `AbstractIntegrator.AbstractIntegratorRep.AttemptDAEStep` | trunk/Integrator/src/AbstractIntegratorRep.h:103-177 | the imperative step attempt with early returns and exceptions turned into `false`; its result, out-parameters, new advanced state and collaborator calls are exactly those of `DaeStep` on the integrator's settings and old advanced state |
| `DaeStepProperties.NearEdgeMeansHalfStepSucceeds` | trunk/Integrator/src/AbstractIntegratorRep.h:124-134 | the accuracy test `rmsErr > 2^errOrder * accuracy` lets a converged step through to the constraint test exactly when a half step's predicted error `rmsErr / 2^errOrder` meets the accuracy |
| `DaeStepProperties.NonIterativeStepReportsOneIteration` | trunk/Integrator/src/AbstractIntegratorRep.h:112 | an ODE formula that never writes `numIterations` leaves the attempt reporting exactly 1 iteration |
| `DaeStepProperties.NearEdgeStepFarOffManifoldFailsToConverge` | trunk/Integrator/src/AbstractIntegratorRep.h:133-160 | the accuracy test comes first: with error norm 0.0079 below `2^3 * 1e-3` and constraint error 0.0101 above `sqrt(1e-4)`, the result is a convergence failure with no projection attempted |
| `DaeStepProperties.ConvergedStepMeetsConstraintTolerance` | trunk/Integrator/src/AbstractIntegratorRep.h:162-176 | if the projector leaves the constraints within tolerance whenever it returns, then every converged step that passed the accuracy test ends with constraint error within tolerance |

## Left out

- `adjustStepSize`, `createInterpolatedState`, `backUpAdvancedStateByInterpolation`, `takeOneStep`, `stepTo` and `methodInitialize`: only declared in the header (lines 59-62, 221-236, 243). Their bodies are not part of this model, so step-size adaptation, Hermite interpolation and the stepping loop are not modelled.
- The accessors (`getActualInitialStepSizeTaken` to `methodHasErrorControl`) and `resetMethodStatistics`: only declared (lines 64-78). The statistics counters and step-size fields (lines 237-247) appear as class fields with no behaviour.
- `calcWeightedRMSNorm`, `getDynamicSystemWeights`, `getDynamicSystemOneOverTolerances`, `State::getYErr`, `projectStateAndErrorEstimate` and the concrete ODE formulas: calls into the system model and the numerical solver. They are opaque function values, and the weights, tolerances and the `userProjectEveryStep` option are plain fields.
- Exceptions from `calcWeightedRMSNorm` or `getYErr`: these calls sit outside any `try`, so an exception would leave `attemptDAEStep` altogether. The model treats them as total.
- A concrete integrator that overrides `attemptDAEStep` itself: the model covers the base-class implementation only.
- Floating-point rounding: `Real` is exact, `std::pow` is exact, and `std::sqrt` is any function that is a square root where a lemma needs one. The collaborators' norms are finite reals, so no NaN reaches the accuracy, projection-limit or projection tests; the only NaN modelled is `std::sqrt` of a negative constraint tolerance, which `std::max` discards.
- ConvergedStepMeetsConstraintTolerance: holds because the norms are finite reals here. In the C++ a NaN `rmsErr` or `consErrAfterODE` (after a diverging ODE step, say) makes every `>` test at lines 133, 159 and 165 false, so unless `userProjectEveryStep == 1` the attempt reports convergence without projecting and with a NaN constraint error; the guarantee does not cover NaN norms.
- Integer widths: C++ `int` and `long` are unbounded integers, because the step attempt does no arithmetic on them.
- `AnalyticGeometryRep.h`: visualisation geometry, not part of integration. Note that its `AnalyticSphereRep` constructor initialises `r` from itself rather than from its argument (src/AnalyticGeometryRep.h:152), so the argument is ignored.
