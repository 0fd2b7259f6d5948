/** What the words of the results mean, written out over the fields of the stored objects with
    every constant in place, and that the predicates the controllers compute with mean the same. */
module Vocabulary {
  import opened Conditions
  import opened Runs
  import opened RunWrites
  import opened Configs

  // ---------------------------------------------------------------------------
  // Runs
  // ---------------------------------------------------------------------------

  /** Ended, and recorded as ended at an instant before start. */
  predicate EndedBefore(r: Run, start: int) {
    && DerivePhase(r.conditions) in {Completed, PhaseFailed, PhaseDenied, PhaseEscalated, PhaseEmergencyStopped}
    && r.terminalTime.Some? && r.terminalTime.value != 0 && r.terminalTime.value < start
  }

  /** A stop accepted and not finished, torn down completely, or failed. */
  predicate StopTaken(cs: RunConditions) {
    && StopProgress in cs
    && (cs[StopProgress].status == True ==> cs[StopProgress].reason == SystemSuspended)
    && (cs[StopProgress].status != True ==> StopEnded(cs))
  }

  predicate StopEnded(cs: RunConditions) {
    StopProgress in cs && cs[StopProgress].status == False && cs[StopProgress].reason in {TeardownComplete, TeardownFailed}
  }

  /** The marker of a stop that began at start and has no outcome yet. */
  predicate StopBegunAt(cs: RunConditions, start: int) {
    && StopProgress in cs && cs[StopProgress].status == True && cs[StopProgress].reason == SystemSuspended
    && cs[StopProgress].lastTransition == start
  }

  /** Nothing recorded speaks of work or access on another cluster. */
  predicate NothingRemote(r: Run) {
    || r.spec.targetCluster == ""
    || (r.rbacNamespaces == ""
        && r.stages.analysis.sandbox.claimName == "" && r.stages.execution.sandbox.claimName == ""
        && r.stages.verification.sandbox.claimName == "" && r.stages.escalation.sandbox.claimName == ""
        && forall t :: t in r.conditions && r.conditions[t].status == Unknown ==> t == StopProgress)
  }

  lemma AffectedMeans(r: Run, start: int)
    ensures Affected(r, start) <==> !EndedBefore(r, start)
  {
  }

  lemma RemoteMeans(r: Run)
    ensures RemoteEvidence(r) <==> !NothingRemote(r)
  {
  }

  lemma AcceptedMeans(r: Run)
    requires RunWellFormed(r)
    ensures HasAcceptedStop(r.conditions) <==> StopTaken(r.conditions)
    ensures HasFinalStopOutcome(r.conditions) <==> StopEnded(r.conditions)
    ensures StopPending(r.conditions) <==> exists start :: StopBegunAt(r.conditions, start)
  {
    hide DerivePhase, IsTerminal;
    MarkerDecides(r.conditions);
    if StopPending(r.conditions) {
      assert StopBegunAt(r.conditions, r.conditions[StopProgress].lastTransition);
    }
  }

  /** The stop markers on any condition set, reachable or not. */
  lemma MarkersMean(cs: RunConditions)
    ensures StopPending(cs) <==> exists start :: StopBegunAt(cs, start)
    ensures HasFinalStopOutcome(cs) <==>
              StopEnded(cs) || (EmergencyStopped in cs && cs[EmergencyStopped].status == True) ||
              exists t :: t in cs && cs[t].status == False && cs[t].reason == EmergencyStopFailed
    ensures HasAcceptedStop(cs) <==> HasFinalStopOutcome(cs) || exists start :: StopBegunAt(cs, start)
  {
    if StopPending(cs) {
      assert StopBegunAt(cs, cs[StopProgress].lastTransition);
    }
  }

  /** Each step has its own condition and its own record; writing one record leaves the others. */
  lemma StagesMean(st: Stages, s: Stage, other: Stage, info: SandboxInfo, ref: ResultRef)
    requires s != other
    ensures StageCondition(s) != StageCondition(other)
    ensures StageCondition(Analysis) == Analyzed && StageCondition(Execution) == Executed
    ensures StageCondition(Verification) == Verified && StageCondition(Escalation) == Escalated
    ensures st.At(Analysis) == st.analysis && st.At(Execution) == st.execution
    ensures st.At(Verification) == st.verification && st.At(Escalation) == st.escalation
    ensures st.WithSandbox(s, info).At(other) == st.At(other) && st.WithResult(s, ref).At(other) == st.At(other)
    ensures st.WithSandbox(s, info).At(s) == StageStatus(info, st.At(s).results)
    ensures st.WithResult(s, ref).At(s) == StageStatus(st.At(s).sandbox, st.At(s).results + [ref])
    ensures st.Cleared().At(s) == StageStatus(SandboxInfo("", ""), st.At(s).results)
    ensures st.HasSandbox() <==> exists q: Stage :: st.At(q).sandbox.claimName != "" || st.At(q).sandbox.namespace != ""
    ensures st.HasClaim() <==> exists q: Stage :: st.At(q).sandbox.claimName != ""
  {
    assert st.At(Analysis) == st.analysis && st.At(Execution) == st.execution;
    assert st.At(Verification) == st.verification && st.At(Escalation) == st.escalation;
  }

  /** The results stored for a step. */
  function ResultsOf(r: Run, stage: Stage): seq<ResultRef> {
    match stage
    case Analysis => r.stages.analysis.results
    case Execution => r.stages.execution.results
    case Verification => r.stages.verification.results
    case Escalation => r.stages.escalation.results
  }

  /** The results a write adds to a step. */
  function Added(w: Write, stage: Stage): seq<ResultRef> {
    match w
    case LinkResult(linked, ref, _, _, _) => if linked == stage then [ref] else []
    case EscalateVerification(verdict, _) => if stage == Verification then [verdict] else []
    case FailStep(failed, failure) => if failed == stage && failure.Some? then [failure.value] else []
    case _ => []
  }

  /** Of all writes only links, escalations of a verdict and failed steps add results, one each. */
  lemma WriteAdds(r: Run, w: Write, now: int, stage: Stage)
    ensures ResultsOf(Updated(r, w, now), stage) == ResultsOf(r, stage) + Added(w, stage)
  {
    hide DerivePhase, IsTerminal, HasAcceptedStop, HasFinalStopOutcome, AddTokens, TerminalStopIntent, SuspensionFailureCondition;
  }

  /** The sandbox recorded for a step. */
  function SandboxOf(r: Run, stage: Stage): SandboxInfo {
    match stage
    case Analysis => r.stages.analysis.sandbox
    case Execution => r.stages.execution.sandbox
    case Verification => r.stages.verification.sandbox
    case Escalation => r.stages.escalation.sandbox
  }

  /** A launch records its own step's sandbox; a revision forgets those of execution and
      verification, a confirmed stop and the cleared references all of them. */
  lemma WriteMovesSandbox(r: Run, w: Write, now: int, stage: Stage)
    ensures SandboxOf(Updated(r, w, now), stage) ==
              if w.RecordSandbox? && w.launched == stage then w.info
              else if w.Revise? && stage in {Execution, Verification} then SandboxInfo("", "")
              else if w.ClearSandboxes? || (w.StopOutcome? && w.confirmed) then SandboxInfo("", "")
              else SandboxOf(r, stage)
  {
    hide DerivePhase, IsTerminal, HasAcceptedStop, HasFinalStopOutcome, AddTokens, TerminalStopIntent, SuspensionFailureCondition;
  }

  // ---------------------------------------------------------------------------
  // Evidence of a pass
  // ---------------------------------------------------------------------------

  /** Something is still pending, failed or unknown. */
  predicate Unsettled(e: Evidence) {
    || e.cleanupFailed || e.cleanup.pending != [] || e.cleanup.failures != [] || e.cleanup.unverified != []
    || e.runInventoryFailed || e.unsavedMarkers != [] || e.pendingRunOutcomes != [] || e.unverifiedRemote != []
  }

  /** The reason recorded for an activation whose stored reason was was. */
  predicate ReasonFits(was: Reason, recorded: Reason, e: Evidence, deadlineReached: bool) {
    && (was == AdminActivatedWithErrors ==> recorded == AdminActivatedWithErrors)
    && (was != AdminActivatedWithErrors && Unsettled(e) && deadlineReached ==> recorded == AdminActivatedWithErrors)
    && (was != AdminActivatedWithErrors && Unsettled(e) && !deadlineReached ==> recorded == Stopping)
    && (was != AdminActivatedWithErrors && !Unsettled(e) ==> recorded == AdminActivated)
  }

  lemma OutcomeFits(e: Evidence, was: Reason, deadlineReached: bool)
    ensures ReasonFits(was, OutcomeReason(e, was, deadlineReached), e, deadlineReached)
  {
  }

  /** A pass is safe when all that is left are runs that have yet to record their outcome. */
  lemma SafetyMeans(e: Evidence)
    ensures e.Safe() <==> !Unsettled(e.(pendingRunOutcomes := []))
    ensures e.Unresolved() <==> Unsettled(e)
  {
  }

  /** An activation is represented by the object it was accepted on, still switched on in the
      same generation, and reported so since the same instant. */
  lemma ActivationMeans(c: Config, a: Activation)
    ensures ActivationMatches(c, a) <==>
              && (a.uid == "" || a.uid == c.uid) && c.suspended && c.generation == a.generation && Suspended in c.conditions
              && c.conditions[Suspended].status == True && c.conditions[Suspended].observedGeneration == c.generation
              && c.conditions[Suspended].lastTransition == a.start
    ensures CurrentActivation(c) <==>
              && Suspended in c.conditions && c.conditions[Suspended].status == True
              && c.conditions[Suspended].observedGeneration == c.generation && c.conditions[Suspended].lastTransition != 0
    ensures SafeNow(c) <==>
              && SafeToResume in c.conditions && c.conditions[SafeToResume].status == True
              && c.conditions[SafeToResume].observedGeneration == c.generation
  {
  }

  // ---------------------------------------------------------------------------
  // Time
  // ---------------------------------------------------------------------------

  /** Storage keeps the whole seconds of an instant. */
  lemma StorageKeepsSeconds(t: int)
    ensures Persist(t) % 1_000_000_000 == 0 && t - 1_000_000_000 < Persist(t) <= t
    ensures SECOND == 1_000_000_000 && NO_TIME == 0 && DAY == 86_400_000_000_000
    ensures SUSPENSION_STOP_WINDOW == 10_000_000_000 && REQUEUE_DELAY == 5_000_000_000
  {
  }

  /** A transition time moves exactly with the status, unless it is forced. */
  lemma TransitionMoves<K>(cs: map<K, Condition>, k: K, status: Status, reason: Reason, generation: nat, now: int)
    ensures var after := SetCondition(cs, k, status, reason, generation, now);
            && k in after && after[k].status == status && after[k].reason == reason && after[k].observedGeneration == generation
            && (k in cs && cs[k].status == status ==> after[k].lastTransition == cs[k].lastTransition)
            && (k !in cs || cs[k].status != status ==> after[k].lastTransition == now)
            && forall q :: q != k ==> (q in after <==> q in cs) && (q in cs ==> after[q] == cs[q])
    ensures var forced := SetConditionAt(cs, k, status, reason, generation, now);
            && k in forced && forced[k] == Condition(status, reason, generation, now)
            && forall q :: q != k ==> (q in forced <==> q in cs) && (q in cs ==> forced[q] == cs[q])
  {
  }
}
