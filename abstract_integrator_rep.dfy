/**
 * The generic DAE step attempt of SimTK's AbstractIntegratorRep: one call of
 * the pluggable ODE step, followed by the policy that decides whether the
 * step failed to converge, converged but is not worth projecting, lies too
 * far off the constraint manifold to project safely, or is projected onto
 * it (and whether that projection succeeded).
 *
 * The ODE formula a concrete integrator supplies, the weighted RMS norm, the
 * constraint errors of a state and the projector belong to the system model
 * and the numerical solver; they appear here as function values that either
 * return or throw.
 */
module AbstractIntegrator {
  import opened Numerics

  /** SimTK's Vector of Reals. */
  type Vector = seq<real>

  /** The continuous part of a State: its time and y = (q, u, z). */
  datatype ContinuousState = ContinuousState(t: real, q: Vector, u: Vector, z: Vector)

  /** The by-value arguments of a step attempt: the step's end points and
      the continuous variables and their derivatives at t0. */
  datatype StepInputs = StepInputs(
    t0: real, t1: real,
    q0: Vector, qdot0: Vector, qdotdot0: Vector,
    u0: Vector, udot0: Vector,
    z0: Vector, zdot0: Vector)

  /** The three by-reference out-parameters of a step attempt. */
  datatype StepOutputs = StepOutputs(yErrEst: Vector, errOrder: int, numIterations: int)

  /** How a C++ call ended: it returned a value, or it threw. */
  datatype Completion<T> = Returned(value: T) | Threw(what: string)

  /** What an ODE step call is given: the step's inputs and the current
      contents of the advanced state and of the out-parameters. */
  datatype OdeCall = OdeCall(step: StepInputs, advanced: ContinuousState, outputs: StepOutputs)

  /** What an ODE step call did: how it ended (returning whether it
      converged, or throwing) and what it left in the advanced state and in
      the out-parameters, also when it threw part-way. */
  datatype OdeEffect = OdeEffect(completion: Completion<bool>, advanced: ContinuousState, outputs: StepOutputs)

  /** The attemptODEStep of a concrete integrator: the base class's default,
      or an override given by its ODE formula. */
  datatype OdeStepMethod = Unimplemented | Overridden(formula: OdeCall -> OdeEffect)

  /** What projectStateAndErrorEstimate did to the advanced state and the
      error estimate it updates in place, and how it ended. */
  datatype ProjectionEffect = ProjectionEffect(completion: Completion<()>, advanced: ContinuousState, yErrEst: Vector)

  /** The code a step attempt calls and does not own. */
  datatype Collaborators = Collaborators(
    odeStep: OdeStepMethod,                              // attemptODEStep
    weightedRmsNorm: (Vector, Vector) -> real,           // calcWeightedRMSNorm
    constraintErrors: ContinuousState -> Vector,         // State::getYErr
    project: (ContinuousState, Vector) -> ProjectionEffect, // projectStateAndErrorEstimate
    sqrt: real -> real)                                  // std::sqrt

  /** The tolerances, weights and user option a step attempt reads. */
  datatype StepSettings = StepSettings(
    accuracyInUse: real,
    constraintToleranceInUse: real,
    userProjectEveryStep: int,
    dynamicSystemWeights: Vector,
    dynamicSystemOneOverTolerances: Vector)

  /** The collaborators a step attempt can invoke, in the order it can
      invoke them. */
  datatype Call = OdeStep | ErrorNorm | ConstraintNorm | Projection

  /** The result of a step attempt: whether it converged, the final values
      of the out-parameters and of the advanced state, and which
      collaborators were invoked, in order. */
  datatype DaeOutcome = DaeOutcome(converged: bool, outputs: StepOutputs, advanced: ContinuousState, calls: seq<Call>)

  /** What the always-on error check in the default attemptODEStep throws. */
  const UnimplementedOdeStep: string :=
    "AbstractIntegratorRep::attemptODEStep(): unimplemented virtual function"

  /** The effect of attemptODEStep. The default implementation throws at
      once, touching neither the advanced state nor the out-parameters. */
  function OdeStepEffect(m: OdeStepMethod, call: OdeCall): (e: OdeEffect)
    ensures m.Unimplemented? ==>
      e.completion.Threw? && e.advanced == call.advanced && e.outputs == call.outputs
  {
    match m
    case Unimplemented => OdeEffect(Threw(UnimplementedOdeStep), call.advanced, call.outputs)
    case Overridden(formula) => formula(call)
  }

  /** The ODE step as the DAE step attempt makes it: numIterations is set
      to 1 first, so that a method that never writes it reports 1. */
  function OdeTrial(c: Collaborators, step: StepInputs, advanced: ContinuousState, outputs: StepOutputs): OdeEffect
  {
    OdeStepEffect(c.odeStep, OdeCall(step, advanced, outputs.(numIterations := 1)))
  }

  /** The ODE step returned, and said it converged. */
  predicate OdeConverged(e: OdeEffect)
  {
    e.completion == Returned(true)
  }

  /** rmsErr: the weighted RMS norm of the ODE step's error estimate. */
  function RmsErr(c: Collaborators, s: StepSettings, e: OdeEffect): real
  {
    c.weightedRmsNorm(e.outputs.yErrEst, s.dynamicSystemWeights)
  }

  /** The error is so large that not even a half-step would have met the
      accuracy, so projecting cannot rescue the step. */
  predicate NotWorthProjecting(c: Collaborators, s: StepSettings, e: OdeEffect)
  {
    RmsErr(c, s, e) > Pow2(e.outputs.errOrder) * s.accuracyInUse
  }

  /** consErrAfterODE: the weighted RMS norm of the advanced state's
      constraint errors after the ODE step. */
  function ConsErrAfterOde(c: Collaborators, s: StepSettings, e: OdeEffect): real
  {
    c.weightedRmsNorm(c.constraintErrors(e.advanced), s.dynamicSystemOneOverTolerances)
  }

  /** The constraint violation is too large for the projection's Newton
      iteration to be trusted. */
  predicate BeyondProjectionLimit(c: Collaborators, s: StepSettings, e: OdeEffect)
  {
    ConsErrAfterOde(c, s, e) > ProjectionLimit(s.constraintToleranceInUse, c.sqrt)
  }

  /** The user asks for a projection on every step, or the constraints are
      not yet satisfied. */
  predicate ProjectionWanted(c: Collaborators, s: StepSettings, e: OdeEffect)
  {
    s.userProjectEveryStep == 1 || ConsErrAfterOde(c, s, e) > s.constraintToleranceInUse
  }

  /** The projection the step attempt makes once both earlier tests pass. */
  function ProjectionOf(c: Collaborators, e: OdeEffect): ProjectionEffect
  {
    c.project(e.advanced, e.outputs.yErrEst)
  }

  /** Every earlier test passed and a projection is wanted. */
  predicate ProjectsAfter(c: Collaborators, s: StepSettings, e: OdeEffect)
  {
    OdeConverged(e) && !NotWorthProjecting(c, s, e) && !BeyondProjectionLimit(c, s, e) && ProjectionWanted(c, s, e)
  }

  /**
   * The rest of a DAE step attempt once the ODE step has had effect e: the
   * gating tests in their fixed order and the projection, each ending the
   * attempt early where it decides the outcome.
   */
  function FinishDaeStep(c: Collaborators, s: StepSettings, e: OdeEffect): (r: DaeOutcome)
    // collaborators run in a fixed order, and each only after the one before
    ensures r.calls <= [OdeStep, ErrorNorm, ConstraintNorm, Projection] && r.calls != []
    ensures ErrorNorm in r.calls <==> OdeConverged(e)
    ensures ConstraintNorm in r.calls <==> OdeConverged(e) && !NotWorthProjecting(c, s, e)
    // the projector runs exactly when every earlier test passes and a projection is wanted
    ensures Projection in r.calls <==> ProjectsAfter(c, s, e)
    // the step converged exactly in these cases
    ensures r.converged <==>
      OdeConverged(e) &&
      (NotWorthProjecting(c, s, e) ||
       (!BeyondProjectionLimit(c, s, e) &&
        (ProjectionWanted(c, s, e) ==> ProjectionOf(c, e).completion.Returned?)))
    // without a projection the ODE step's results stand as they are
    ensures Projection !in r.calls ==> r.advanced == e.advanced && r.outputs == e.outputs
    // a projection replaces the advanced state and the error estimate only
    ensures Projection in r.calls ==>
      r.advanced == ProjectionOf(c, e).advanced &&
      r.outputs == e.outputs.(yErrEst := ProjectionOf(c, e).yErrEst)
  {
    if !OdeConverged(e) then
      DaeOutcome(false, e.outputs, e.advanced, [OdeStep])
    else if NotWorthProjecting(c, s, e) then
      DaeOutcome(true, e.outputs, e.advanced, [OdeStep, ErrorNorm])
    else if BeyondProjectionLimit(c, s, e) then
      DaeOutcome(false, e.outputs, e.advanced, [OdeStep, ErrorNorm, ConstraintNorm])
    else if ProjectionWanted(c, s, e) then
      var p := ProjectionOf(c, e);
      DaeOutcome(p.completion.Returned?, e.outputs.(yErrEst := p.yErrEst), p.advanced,
                 [OdeStep, ErrorNorm, ConstraintNorm, Projection])
    else
      DaeOutcome(true, e.outputs, e.advanced, [OdeStep, ErrorNorm, ConstraintNorm])
  }

  /**
   * A whole DAE step attempt from the advanced state and the incoming
   * out-parameters. An integrator that overrides neither attemptDAEStep nor
   * attemptODEStep never gets a converged step: the default ODE step throws,
   * and the attempt reports a failure with nothing changed but the
   * iteration count, which it has already set to 1.
   */
  function DaeStep(c: Collaborators, s: StepSettings, step: StepInputs,
                   advanced: ContinuousState, outputs: StepOutputs): (r: DaeOutcome)
    ensures c.odeStep.Unimplemented? ==>
      !r.converged && r.calls == [OdeStep] && r.advanced == advanced &&
      r.outputs == outputs.(numIterations := 1)
  {
    FinishDaeStep(c, s, OdeTrial(c, step, advanced, outputs))
  }

  /**
   * The integrator's state that the DAE step attempt reads and updates,
   * together with the step-size and statistics fields it sits among.
   */
  class AbstractIntegratorRep {
    const collaborators: Collaborators

    // The working copy of the state that a step attempt advances in place.
    var advancedState: ContinuousState

    // Tolerances, weights and the projection option, all kept up to date by
    // the IntegratorRep base class and only read here.
    var accuracyInUse: real
    var constraintToleranceInUse: real
    var userProjectEveryStep: int
    var dynamicSystemWeights: Vector
    var dynamicSystemOneOverTolerances: Vector

    // Statistics (C++ long).
    var statsStepsTaken: int
    var statsStepsAttempted: int
    var statsErrorTestFailures: int
    var statsConvergenceTestFailures: int
    var statsConvergentIterations: int
    var statsDivergentIterations: int

    // Step-size control and the method's identity.
    var initialized: bool
    var hasErrorControl: bool
    var currentStepSize: real
    var lastStepSize: real
    var actualInitialStepSizeTaken: real
    var minOrder: int
    var maxOrder: int
    var methodName: string

    /** The integrator for a system whose model supplies the collaborators,
        with the order range, name and error-control flag of its method. */
    constructor (collaborators: Collaborators, minOrder: int, maxOrder: int,
                 methodName: string, hasErrorControl: bool)
      ensures this.collaborators == collaborators
      ensures this.minOrder == minOrder && this.maxOrder == maxOrder
      ensures this.methodName == methodName && this.hasErrorControl == hasErrorControl
    {
      this.collaborators := collaborators;
      this.minOrder := minOrder;
      this.maxOrder := maxOrder;
      this.methodName := methodName;
      this.hasErrorControl := hasErrorControl;
    }

    /** The settings a step attempt reads. */
    function Settings(): StepSettings
      reads this
    {
      StepSettings(accuracyInUse, constraintToleranceInUse, userProjectEveryStep,
                   dynamicSystemWeights, dynamicSystemOneOverTolerances)
    }

    /**
     * attemptODEStep: dispatches to the concrete integrator's ODE formula,
     * which advances the advanced state and writes the out-parameters; the
     * default throws from its always-on error check.
     */
    method AttemptODEStep(step: StepInputs, yErrEst0: Vector, errOrder0: int, numIterations0: int)
      returns (completion: Completion<bool>, yErrEst: Vector, errOrder: int, numIterations: int)
      modifies this`advancedState
      ensures var e := OdeStepEffect(collaborators.odeStep,
                                     OdeCall(step, old(advancedState), StepOutputs(yErrEst0, errOrder0, numIterations0)));
        completion == e.completion && advancedState == e.advanced &&
        StepOutputs(yErrEst, errOrder, numIterations) == e.outputs
      ensures collaborators.odeStep.Unimplemented? ==>
        completion.Threw? && advancedState == old(advancedState)
    {
      match collaborators.odeStep
      case Unimplemented =>
        completion := Threw(UnimplementedOdeStep);
        yErrEst, errOrder, numIterations := yErrEst0, errOrder0, numIterations0;
      case Overridden(formula) =>
        var e := formula(OdeCall(step, advancedState, StepOutputs(yErrEst0, errOrder0, numIterations0)));
        completion := e.completion;
        advancedState := e.advanced;
        yErrEst, errOrder, numIterations := e.outputs.yErrEst, e.outputs.errOrder, e.outputs.numIterations;
    }

    /**
     * attemptDAEStep: takes the ODE step and then decides, in this order,
     * whether it failed to converge, converged but is not worth projecting,
     * lies too far off the constraint manifold to project, or is projected.
     * yErrEst0, errOrder0 and numIterations0 are the caller's variables on
     * entry; the same-named results are their values on return. The ghost
     * result calls records which collaborators ran.
     */
    method AttemptDAEStep(step: StepInputs, yErrEst0: Vector, errOrder0: int, numIterations0: int)
      returns (converged: bool, yErrEst: Vector, errOrder: int, numIterations: int, ghost calls: seq<Call>)
      modifies this`advancedState
      ensures var r := DaeStep(collaborators, Settings(), step, old(advancedState),
                               StepOutputs(yErrEst0, errOrder0, numIterations0));
        converged == r.converged && StepOutputs(yErrEst, errOrder, numIterations) == r.outputs &&
        advancedState == r.advanced && calls == r.calls
    {
      numIterations := 1;
      var completion;
      completion, yErrEst, errOrder, numIterations := AttemptODEStep(step, yErrEst0, errOrder0, numIterations);
      calls := [OdeStep];
      if completion.Threw? {
        converged := false;  // the exception is caught and reported as non-convergence
        return;
      }
      if !completion.value {
        converged := false;
        return;
      }

      var rmsErr := collaborators.weightedRmsNorm(yErrEst, dynamicSystemWeights);
      calls := calls + [ErrorNorm];
      if rmsErr > Pow2(errOrder) * accuracyInUse {
        converged := true;  // converged, but not worth projecting
        return;
      }

      var projectionLimit := ProjectionLimit(constraintToleranceInUse, collaborators.sqrt);
      var consErrAfterODE :=
        collaborators.weightedRmsNorm(collaborators.constraintErrors(advancedState), dynamicSystemOneOverTolerances);
      calls := calls + [ConstraintNorm];
      if consErrAfterODE > projectionLimit {
        converged := false;  // a "convergence" failure: the error estimate cannot be used
        return;
      }

      if userProjectEveryStep == 1 || consErrAfterODE > constraintToleranceInUse {
        var projection := collaborators.project(advancedState, yErrEst);
        advancedState, yErrEst := projection.advanced, projection.yErrEst;
        calls := calls + [Projection];
        if projection.completion.Threw? {
          converged := false;  // the projection failed
          return;
        }
      }
      converged := true;
    }
  }
}
