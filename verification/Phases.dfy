/** The phase of a run as a table over its conditions, and how each write moves a run from
    phase to phase. */
module Phases {
  import opened Conditions
  import opened Runs
  import opened RunWrites
  import opened StopOutcomes

  // ---------------------------------------------------------------------------
  // The table
  // ---------------------------------------------------------------------------

  predicate Is(cs: RunConditions, t: ConditionType, status: Status) {
    t in cs && cs[t].status == status
  }

  /** Ended by something that outranks every step. */
  predicate Overruled(cs: RunConditions) {
    Is(cs, EmergencyStopped, True) || Is(cs, Escalated, True) || Is(cs, Denied, True)
  }

  /** The furthest step that has a condition; Pending stands for none. */
  predicate Furthest(cs: RunConditions, t: ConditionType) {
    && t in cs && t in {Analyzed, Executed, Verified, Escalated}
    && (t in {Analyzed, Executed, Verified} ==> Escalated !in cs)
    && (t in {Analyzed, Executed} ==> Verified !in cs)
    && (t == Analyzed ==> Executed !in cs)
  }

  predicate FurthestIs(cs: RunConditions, t: ConditionType, status: Status) {
    Furthest(cs, t) && cs[t].status == status
  }

  predicate InPhase(cs: RunConditions, p: Phase) {
    match p
    case PhaseEmergencyStopped => Is(cs, EmergencyStopped, True)
    case PhaseEscalated => Is(cs, Escalated, True) && !Is(cs, EmergencyStopped, True)
    case PhaseDenied => Is(cs, Denied, True) && !Is(cs, EmergencyStopped, True) && !Is(cs, Escalated, True)
    case PhaseFailed => !Overruled(cs) && exists t :: FurthestIs(cs, t, False)
    case Completed =>
      !Overruled(cs) &&
      (FurthestIs(cs, Verified, True) || (FurthestIs(cs, Analyzed, True) && cs[Analyzed].reason == NoActionRequired))
    case Escalating => !Overruled(cs) && FurthestIs(cs, Escalated, Unknown)
    case Verifying => !Overruled(cs) && (FurthestIs(cs, Verified, Unknown) || FurthestIs(cs, Executed, True))
    case Executing => !Overruled(cs) && FurthestIs(cs, Executed, Unknown)
    case Proposed => !Overruled(cs) && FurthestIs(cs, Analyzed, True) && cs[Analyzed].reason != NoActionRequired
    case Analyzing => !Overruled(cs) && FurthestIs(cs, Analyzed, Unknown)
    case Pending => !Overruled(cs) && !exists t :: Furthest(cs, t)
  }

  lemma SomeStepIsFurthest(cs: RunConditions)
    ensures (exists t :: Furthest(cs, t)) <==> Analyzed in cs || Executed in cs || Verified in cs || Escalated in cs
  {
    if Escalated in cs {
      assert Furthest(cs, Escalated);
    } else if Verified in cs {
      assert Furthest(cs, Verified);
    } else if Executed in cs {
      assert Furthest(cs, Executed);
    } else if Analyzed in cs {
      assert Furthest(cs, Analyzed);
    }
  }

  /** Every set of conditions, reachable or not, is in exactly the phase derived from it, and five
      phases are terminal. */
  lemma PhaseTable(cs: RunConditions, p: Phase)
    ensures DerivePhase(cs) == p <==> InPhase(cs, p)
    ensures IsTerminal(p) <==> p in {Completed, PhaseFailed, PhaseDenied, PhaseEscalated, PhaseEmergencyStopped}
  {
    SomeStepIsFurthest(cs);
    assert Escalated in cs ==> Furthest(cs, Escalated);
    assert FurthestIs(cs, Escalated, False) || FurthestIs(cs, Verified, False) || FurthestIs(cs, Executed, False) ||
           FurthestIs(cs, Analyzed, False) || !exists t :: FurthestIs(cs, t, False);
  }

  // ---------------------------------------------------------------------------
  // The steps between phases
  // ---------------------------------------------------------------------------

  /** The phases from which a handler issues this write. */
  predicate RoutedFrom(r: Run, w: Write, p: Phase) {
    match w
    case StartAnalysis => p in {Pending, Analyzing}
    case Revise =>
      || p in {Pending, Analyzing, Proposed, Executing, Escalating}
      || (p == Completed && (!r.spec.hasExecution || (Is(r.conditions, Analyzed, True) && r.conditions[Analyzed].reason == NoActionRequired)))
      || (p == PhaseFailed && !r.spec.hasExecution)
    case SkipExecution => p in {Proposed, Executing} && !r.spec.hasExecution
    case StartExecution => p in {Proposed, Executing} && r.spec.hasExecution
    case SkipVerification => p == Verifying && !r.spec.hasVerification
    case StartVerification => p == Verifying && r.spec.hasVerification
    case StartEscalation => p == Escalating
    case Deny => p in {Pending, Analyzing, Proposed, Executing, Verifying, Escalating}
    case AcceptStop(_) => p in {Pending, Analyzing, Proposed, Executing, Verifying, Escalating}
    case _ => true
  }

  /** The phase a handler's write leads to. */
  predicate LeadsTo(r: Run, w: Write, p: Phase, q: Phase) {
    match w
    case StartAnalysis => q == Analyzing
    case Revise => q == Analyzing
    case SkipExecution => q == if r.spec.hasVerification then Verifying else Completed
    case StartExecution => q == Executing
    case SkipVerification => q == Completed
    case StartVerification => q == Verifying
    case StartEscalation => q == Escalating
    case Deny => q == PhaseDenied
    case FailResolution => p in {Pending, Analyzing, Proposed} ==> q == PhaseFailed
    case StopOutcome(confirmed) =>
      q == if p in {Completed, PhaseFailed, PhaseDenied, PhaseEscalated, PhaseEmergencyStopped} then p
           else if confirmed then PhaseEmergencyStopped else PhaseFailed
    case FailStep(stage, _) => Ahead(p, stage) ==> q == PhaseFailed
    case StepCondition(stage, False, _) => Ahead(p, stage) ==> q == PhaseFailed
    case StepCondition(_, _, _) => true
    case LinkResult(Analysis, _, _, True, noAction) => Ahead(p, Analysis) ==> q == if noAction then Completed else Proposed
    case LinkResult(Execution, _, _, True, false) => Ahead(p, Execution) ==> q == Verifying
    case LinkResult(Verification, _, _, True, false) => Ahead(p, Verification) ==> q == Completed
    case LinkResult(Escalation, _, _, True, _) => Ahead(p, Escalation) ==> q == PhaseEscalated
    case LinkResult(stage, _, _, False, _) => Ahead(p, stage) ==> q == PhaseFailed
    case LinkResult(_, _, _, _, _) => true
    case EscalateVerification(_, _) =>
      p !in {PhaseDenied, PhaseEscalated, PhaseEmergencyStopped} ==> q == Escalating
    case _ => q == p
  }

  /** The run has not got past this step, nor ended. */
  predicate Ahead(p: Phase, stage: Stage) {
    match stage
    case Analysis => p in {Pending, Analyzing}
    case Execution => p in {Proposed, Executing}
    case Verification => p == Verifying
    case Escalation => p == Escalating
  }

  predicate OfStep(w: Write) {
    w.FailStep? || w.StepCondition? || w.LinkResult? || w.EscalateVerification?
  }

  lemma WriteIsRouted(r: Run, w: Write)
    requires Enabled(r, w)
    ensures RoutedFrom(r, w, DerivePhase(r.conditions))
  {
    hide HasAcceptedStop, HasFinalStopOutcome;
  }

  lemma LinkedConditions(r: Run, w: Write, now: int)
    requires w.LinkResult?
    ensures Updated(r, w, now).conditions ==
              SetCondition(r.conditions, StageCondition(w.linked), w.outcome,
                           if w.noAction then NoActionRequired else Named("Reported"), r.generation, now)
  {
    hide AddTokens, Stages.WithResult, HasAcceptedStop;
  }

  lemma LinkLeads(r: Run, w: Write, now: int)
    requires w.LinkResult? && w.outcome != Unknown
    ensures LeadsTo(r, w, DerivePhase(r.conditions), DerivePhase(Updated(r, w, now).conditions))
  {
    hide HasAcceptedStop, IsTerminal, Updated;
    LinkedConditions(r, w, now);
  }

  lemma StepLeads(r: Run, w: Write, now: int)
    requires Enabled(r, w) && OfStep(w)
    ensures LeadsTo(r, w, DerivePhase(r.conditions), DerivePhase(Updated(r, w, now).conditions))
  {
    hide HasAcceptedStop, IsTerminal, AddTokens, Stages.WithResult;
    if w.LinkResult? {
      LinkLeads(r, w, now);
    }
  }

  lemma RevisionLeads(r: Run, now: int)
    requires Enabled(r, Revise)
    ensures DerivePhase(Revised(r, now).conditions) == Analyzing
  {
    hide HasAcceptedStop, IsTerminal, Stages.WithSandbox, NeedsRevision;
  }

  lemma ExecutionLeads(r: Run, w: Write, now: int)
    requires Enabled(r, w) && (w.SkipExecution? || w.StartExecution?)
    ensures LeadsTo(r, w, DerivePhase(r.conditions), DerivePhase(Updated(r, w, now).conditions))
  {
    hide HasAcceptedStop, IsTerminal, NeedsRevision;
  }

  lemma HandlerLeads(r: Run, w: Write, now: int)
    requires Enabled(r, w) && !OfStep(w) && !w.StopOutcome?
    ensures LeadsTo(r, w, DerivePhase(r.conditions), DerivePhase(Updated(r, w, now).conditions))
  {
    hide HasAcceptedStop, IsTerminal, Stages.WithSandbox, Stages.Cleared, HasFinalStopOutcome, NeedsRevision, RetentionDays, Persist;
    if w.Revise? {
      RevisionLeads(r, now);
    } else if w.SkipExecution? || w.StartExecution? {
      ExecutionLeads(r, w, now);
    }
  }

  /** Every write is issued from the phases its handler is routed from and leads where the workflow
      says: no step is skipped, a revision always returns to the analysis, a denial and a failed
      step end the run, and a stop accepted, a sandbox or a retention record changes no phase. */
  lemma PhaseOfWrite(r: Run, w: Write, now: int)
    requires Enabled(r, w)
    ensures RoutedFrom(r, w, DerivePhase(r.conditions))
    ensures LeadsTo(r, w, DerivePhase(r.conditions), DerivePhase(Updated(r, w, now).conditions))
  {
    hide Enabled, Updated, DerivePhase;
    WriteIsRouted(r, w);
    if w.StopOutcome? {
      OutcomeEndsTheRun(r, w.confirmed, now);
      UpdatedByOutcome(r, w.confirmed, now);
    } else if OfStep(w) {
      StepLeads(r, w, now);
    } else {
      HandlerLeads(r, w, now);
    }
  }
}
