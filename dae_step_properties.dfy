/**
 * Properties of the DAE step attempt that relate its outcome to the
 * collaborators it calls: what a non-iterative ODE method reports, the
 * order of the accuracy and constraint tests, and what an accepted step
 * guarantees about the constraints.
 */
module DaeStepProperties {
  import opened Numerics
  import opened AbstractIntegrator

  /** An ODE formula that never writes numIterations (every non-iterative
      method) makes the step attempt report exactly one iteration. */
  lemma NonIterativeStepReportsOneIteration(c: Collaborators, s: StepSettings, step: StepInputs,
                                            advanced: ContinuousState, outputs: StepOutputs)
    requires c.odeStep.Overridden?
    requires forall call: OdeCall ::
      c.odeStep.formula(call).outputs.numIterations == call.outputs.numIterations
    ensures DaeStep(c, s, step, advanced, outputs).outputs.numIterations == 1
  {
    var e := OdeTrial(c, step, advanced, outputs);
    assert e.outputs.numIterations == 1;
    var r := FinishDaeStep(c, s, e);
    assert r.outputs.numIterations == e.outputs.numIterations;
  }

  /** The accuracy test lets a converged step through to the constraint
      test exactly when a step of half the size, whose error would be the
      error norm divided by 2^errOrder, would have met the accuracy. */
  lemma NearEdgeMeansHalfStepSucceeds(c: Collaborators, s: StepSettings, e: OdeEffect)
    ensures !NotWorthProjecting(c, s, e) <==>
      RmsErr(c, s, e) / Pow2(e.outputs.errOrder) <= s.accuracyInUse
  {
    HalfStepWouldSucceed(RmsErr(c, s, e), e.outputs.errOrder, s.accuracyInUse);
  }

  /**
   * The accuracy test comes before the constraint test. A third-order step
   * with accuracy 1e-3 may have an error norm up to 2^3 * 1e-3 = 8e-3 and
   * still be considered for projection; with constraint tolerance 1e-4 the
   * projection limit is sqrt(1e-4) = 1e-2. An error norm just below the
   * first bound and a constraint error just above the second is reported
   * as a convergence failure, with no projection attempted.
   */
  lemma NearEdgeStepFarOffManifoldFailsToConverge(c: Collaborators, s: StepSettings, step: StepInputs,
                                                  advanced: ContinuousState, outputs: StepOutputs)
    requires s.accuracyInUse == 1e-3 && s.constraintToleranceInUse == 1e-4
    requires IsSqrtOf(c.sqrt(1e-4), 1e-4)
    requires OdeConverged(OdeTrial(c, step, advanced, outputs))
    requires OdeTrial(c, step, advanced, outputs).outputs.errOrder == 3
    requires RmsErr(c, s, OdeTrial(c, step, advanced, outputs)) == 0.0079
    requires ConsErrAfterOde(c, s, OdeTrial(c, step, advanced, outputs)) == 0.0101
    ensures var r := DaeStep(c, s, step, advanced, outputs);
      !r.converged && r.calls == [OdeStep, ErrorNorm, ConstraintNorm]
  {
    var e := OdeTrial(c, step, advanced, outputs);
    assert Pow2(3) == 8.0;
    assert !NotWorthProjecting(c, s, e);
    SqrtOfSquare(c.sqrt(1e-4), 1e-2);
    ProjectionLimitRegimes(1e-4, c.sqrt);
    assert BeyondProjectionLimit(c, s, e);
  }

  /** What projectStateAndErrorEstimate promises about the state it
      leaves when it returns: its constraint errors are within tolerance. */
  predicate ProjectorMeetsTolerance(c: Collaborators, s: StepSettings, e: OdeEffect)
  {
    var p := ProjectionOf(c, e);
    p.completion.Returned? ==>
      c.weightedRmsNorm(c.constraintErrors(p.advanced), s.dynamicSystemOneOverTolerances)
        <= s.constraintToleranceInUse
  }

  /**
   * A step attempt that converges leaves an advanced state whose constraint
   * errors are within tolerance, unless it converged without a look at the
   * constraints because its error was too large to be worth projecting:
   * either the constraints already were within tolerance and the user did
   * not ask for a projection, or the projector ran and returned.
   */
  lemma ConvergedStepMeetsConstraintTolerance(c: Collaborators, s: StepSettings, e: OdeEffect)
    requires ProjectorMeetsTolerance(c, s, e)
    ensures var r := FinishDaeStep(c, s, e);
      r.converged && !NotWorthProjecting(c, s, e) ==>
        c.weightedRmsNorm(c.constraintErrors(r.advanced), s.dynamicSystemOneOverTolerances)
          <= s.constraintToleranceInUse
  {
  }
}
