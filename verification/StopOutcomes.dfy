/** What writing a stop outcome does to a run's phase, for every set of conditions,
    reachable or not. */
module StopOutcomes {
  import opened Conditions
  import opened Runs
  import opened RunWrites

  /** The step a run was in has failed for the stop. */
  predicate StepFailed(p: Phase, cs: RunConditions) {
    var t := match p
      case Pending => Analyzed
      case Analyzing => Analyzed
      case Proposed => Executed
      case Executing => Executed
      case Verifying => Verified
      case _ => Escalated;
    t in cs && cs[t].status == False && cs[t].reason == EmergencyStopFailed
  }

  /** A stop outcome ends every run it is written to, and it is final. A run still in
      progress becomes EmergencyStopped when cleanup is confirmed and Failed when it is
      not; a run that had already ended keeps its phase and all its conditions but the
      stop marker. The marker says which of the two it was in every case. */
  lemma OutcomeEndsTheRun(r: Run, confirmed: bool, now: int)
    requires Enabled(r, StopOutcome(confirmed))
    ensures var after := Stopped(r, confirmed, now);
            && Terminal(after)
            && HasFinalStopOutcome(after.conditions)
            && DerivePhase(after.conditions) ==
                 (if Terminal(r) then DerivePhase(r.conditions)
                  else if confirmed then PhaseEmergencyStopped else PhaseFailed)
            && (Terminal(r) ==> after.conditions - {StopProgress} == r.conditions - {StopProgress})
            && (confirmed ==> !after.stages.HasSandbox())
            && (!confirmed ==> after.stages == r.stages)
            && StopProgress in after.conditions && after.conditions[StopProgress].status == False
            && after.conditions[StopProgress].reason == (if confirmed then TeardownComplete else TeardownFailed)
            && (confirmed && !Terminal(r) ==>
                  EmergencyStopped in after.conditions && after.conditions[EmergencyStopped].status == True &&
                  after.conditions[EmergencyStopped].reason == SystemSuspended)
            && (!confirmed ==> (EmergencyStopped in after.conditions <==> EmergencyStopped in r.conditions))
            && (!confirmed && !Terminal(r) ==> StepFailed(DerivePhase(r.conditions), after.conditions))
  {
    var after := Stopped(r, confirmed, now);
    if !Terminal(r) && !confirmed {
      FailureConditionFails(r.conditions, SetCondition(r.conditions, StopProgress, False, TeardownFailed, r.generation, now),
                            r.generation, now);
    }
    if Terminal(r) {
      SameOutsideMarker(r.conditions, after.conditions);
    }
  }

  /** Each of the six phases in progress has a condition whose failure ends the run,
      and no terminal phase has one. */
  lemma FailureConditionFails(cs: RunConditions, marked: RunConditions, generation: nat, now: int)
    requires marked - {StopProgress} == cs - {StopProgress}
    ensures SuspensionFailureCondition(DerivePhase(cs)).Some? <==> !IsTerminal(DerivePhase(cs))
    ensures !IsTerminal(DerivePhase(cs)) ==>
              DerivePhase(SetCondition(marked, SuspensionFailureCondition(DerivePhase(cs)).value, False,
                                       EmergencyStopFailed, generation, now)) == PhaseFailed
  {
    SameOutsideMarker(cs, marked);
  }

  lemma SameOutsideMarker(cs: RunConditions, marked: RunConditions)
    requires marked - {StopProgress} == cs - {StopProgress}
    ensures forall t :: t != StopProgress ==> (t in marked <==> t in cs) && (t in cs ==> marked[t] == cs[t])
    ensures DerivePhase(marked) == DerivePhase(cs)
  {
    forall t | t != StopProgress
      ensures (t in marked <==> t in cs) && (t in cs ==> marked[t] == cs[t])
    {
      var a, b := marked - {StopProgress}, cs - {StopProgress};
      assert (t in a <==> t in marked) && (t in b <==> t in cs);
    }
  }

  /** Accepting a stop never changes what phase a run derives. */
  lemma AcceptanceKeepsPhase(r: Run, start: int)
    ensures DerivePhase(Accepted(r, start).conditions) == DerivePhase(r.conditions)
    ensures HasAcceptedStop(Accepted(r, start).conditions)
  {
  }

  /** An outcome can be written to a run at most once. */
  lemma OutcomeIsWrittenOnce(r: Run, confirmed: bool, now: int, again: bool)
    requires Enabled(r, StopOutcome(confirmed))
    ensures !Enabled(Stopped(r, confirmed, now), StopOutcome(again))
  {
    OutcomeEndsTheRun(r, confirmed, now);
  }
}
