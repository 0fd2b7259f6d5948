/** Every write the operator makes to a stored AgenticRun: when its code path issues it,
    judged on the copy it read, and the object it puts in place. */
module RunWrites {
  import opened Conditions
  import opened Runs

  datatype Write =
    // workflow handlers
    | StartAnalysis
    | Revise
    | SkipExecution
    | StartExecution
    | SkipVerification
    | StartVerification
    | StartEscalation
    | Deny
    | FailResolution
    | FailStep(failed: Stage, failure: Option<ResultRef>)
    // pod events and timeout ticks
    | StepCondition(stage: Stage, status: Status, reason: string)
    | LinkResult(linked: Stage, ref: ResultRef, usage: TokenUsage, outcome: Status, noAction: bool)
    | EscalateVerification(verdict: ResultRef, verdictUsage: TokenUsage)
    // sandbox launch
    | RecordSandbox(launched: Stage, info: SandboxInfo)
    // stop protocol
    | AcceptStop(start: int)
    | AcceptStopGlobally(activationStart: int)
    | StopOutcome(confirmed: bool)
    | ClearSandboxes
    // retention
    | StampTerminal(ceilingDays: int)
    | LabelTerminal

  const DAY: int := 24 * 60 * 60 * SECOND

  predicate Routable(r: Run, phases: set<Phase>) {
    !HasAcceptedStop(r.conditions) && DerivePhase(r.conditions) in phases
  }

  /** Phases from which a revision is routed. */
  predicate RevisionRouted(r: Run) {
    NeedsRevision(r) && !Holds(r.conditions, Analyzed, Unknown) &&
    match DerivePhase(r.conditions)
    case Pending => true
    case Analyzing => true
    case Proposed => true
    case Executing => true
    case Escalating => true
    case Completed => NoActionNeeded(r) || !r.spec.hasExecution
    case PhaseFailed => !r.spec.hasExecution
    case _ => false
  }

  /** The guards of the code path that issues w, on the copy r that it read. */
  predicate Enabled(r: Run, w: Write) {
    match w
    case StartAnalysis =>
      Routable(r, {Pending, Analyzing}) && !NeedsRevision(r) &&
      !Holds(r.conditions, Analyzed, Unknown) && !Holds(r.conditions, Analyzed, True)
    case Revise =>
      !HasAcceptedStop(r.conditions) && RevisionRouted(r) && r.ttlLabel == ""
    case SkipExecution =>
      Routable(r, {Proposed, Executing}) && !NeedsRevision(r) && !r.spec.hasExecution
    case StartExecution =>
      Routable(r, {Proposed, Executing}) && !NeedsRevision(r) && r.spec.hasExecution &&
      !Holds(r.conditions, Executed, Unknown) && !Holds(r.conditions, Executed, True)
    case SkipVerification =>
      Routable(r, {Verifying}) && !r.spec.hasVerification
    case StartVerification =>
      Routable(r, {Verifying}) && r.spec.hasVerification && !Holds(r.conditions, Verified, Unknown)
    case StartEscalation =>
      Routable(r, {Escalating}) && !NeedsRevision(r) &&
      !(Escalated in r.conditions && r.conditions[Escalated].reason in
        {InProgress, Named("Running"), Named("WaitingForSandbox")})
    case Deny =>
      Routable(r, {Pending, Analyzing, Proposed, Executing, Verifying, Escalating})
    case FailResolution => !HasAcceptedStop(r.conditions)
    case FailStep(_, _) => !HasAcceptedStop(r.conditions)
    case StepCondition(stage, status, reason) =>
      !HasAcceptedStop(r.conditions) &&
      var t := StageCondition(stage);
      t in r.conditions ==>
        r.conditions[t].status == Unknown && !HoldsFor(r.conditions, t, status, Named(reason))
    case LinkResult(_, _, _, outcome, _) => !HasAcceptedStop(r.conditions) && outcome != Unknown
    case EscalateVerification(_, _) => !HasAcceptedStop(r.conditions)
    case RecordSandbox(_, _) => !HasAcceptedStop(r.conditions)
    case AcceptStop(_) => !Terminal(r) && !HasAcceptedStop(r.conditions)
    case AcceptStopGlobally(_) => !HasAcceptedStop(r.conditions)
    case StopOutcome(_) =>
      HasAcceptedStop(r.conditions) && !HasFinalStopOutcome(r.conditions) &&
      (Terminal(r) ==> TerminalStopIntent(r.conditions))
    case ClearSandboxes => r.stages.HasSandbox()
    case StampTerminal(_) => r.terminalTime.None?
    case LabelTerminal => r.ttlLabel != "true"
  }

  /** 64-bit two's complement addition. */
  function Wrap64(x: int): int {
    (x + 0x8000_0000_0000_0000) % 0x1_0000_0000_0000_0000 - 0x8000_0000_0000_0000
  }

  predicate NoUsage(t: TokenUsage) {
    t.input.None? && t.output.None?
  }

  /** Both counters are set or neither is. */
  predicate TokensPaired(t: TokenUsage) {
    t.input.Some? <==> t.output.Some?
  }

  /** None is the nil dereference of a counter that was never allocated. */
  function AddTokens(total: TokenUsage, usage: TokenUsage): Option<TokenUsage> {
    if NoUsage(usage) then Some(total)
    else
      var base := if NoUsage(total) then TokenUsage(Some(0), Some(0)) else total;
      if (usage.input.Some? && base.input.None?) || (usage.output.Some? && base.output.None?) then None
      else Some(TokenUsage(
        if usage.input.Some? then Some(Wrap64(base.input.value + usage.input.value)) else base.input,
        if usage.output.Some? then Some(Wrap64(base.output.value + usage.output.value)) else base.output))
  }

  function WithTokens(r: Run, usage: TokenUsage): Run {
    match AddTokens(r.tokens, usage)
    case Some(t) => r.(tokens := t)
    case None => r
  }

  function Put(r: Run, t: ConditionType, status: Status, reason: Reason, now: int): Run {
    r.(conditions := SetCondition(r.conditions, t, status, reason, r.generation, now))
  }

  function Revised(r: Run, now: int): Run {
    var kept := r.conditions - {Executed, Verified, Escalated};
    Put(r.(conditions := kept,
           stages := r.stages.WithSandbox(Execution, NO_SANDBOX).WithSandbox(Verification, NO_SANDBOX),
           terminalTime := None,
           deleteAfter := None),
        Analyzed, Unknown, Revising, now)
  }

  function Accepted(r: Run, start: int): Run {
    r.(conditions := SetConditionAt(r.conditions, StopProgress, True, SystemSuspended, r.generation, start))
  }

  function Stopped(r: Run, confirmed: bool, now: int): Run {
    if confirmed then
      var done := Put(r, StopProgress, False, TeardownComplete, now);
      var ended := if TerminalStopIntent(r.conditions) then done
                   else Put(done, EmergencyStopped, True, SystemSuspended, now);
      ended.(stages := r.stages.Cleared())
    else
      var failed := Put(r, StopProgress, False, TeardownFailed, now);
      if TerminalStopIntent(r.conditions) then failed
      else
        match SuspensionFailureCondition(DerivePhase(r.conditions))
        case Some(t) => Put(failed, t, False, EmergencyStopFailed, now)
        case None => failed
  }

  function RetentionDays(ceilingDays: int, requested: Option<int>): int {
    if requested.Some? && requested.value < ceilingDays then requested.value else ceilingDays
  }

  /** The object w puts in place of r; the server stamps its version. */
  function Updated(r: Run, w: Write, now: int): (after: Run)
    ensures after.name == r.name && after.uid == r.uid && after.spec == r.spec && after.generation == r.generation
  {
    match w
    case StartAnalysis => Put(r, Analyzed, Unknown, InProgress, now)
    case Revise => Revised(r, now)
    case SkipExecution =>
      var skipped := Put(r, Executed, True, Skipped, now);
      if r.spec.hasVerification then skipped else Put(skipped, Verified, True, Skipped, now)
    case StartExecution => Put(r.(conditions := r.conditions - {Verified}), Executed, Unknown, InProgress, now)
    case SkipVerification => Put(r, Verified, True, Skipped, now)
    case StartVerification => Put(r, Verified, Unknown, InProgress, now)
    case StartEscalation => Put(r, Escalated, Unknown, InProgress, now)
    case Deny => Put(r, Denied, True, UserDenied, now)
    case FailResolution => Put(r, Analyzed, False, WorkflowResolutionFailed, now)
    case FailStep(stage, failure) =>
      var noted := if failure.Some? then r.(stages := r.stages.WithResult(stage, failure.value)) else r;
      Put(noted, StageCondition(stage), False, Failed, now)
    case StepCondition(stage, status, reason) => Put(r, StageCondition(stage), status, Named(reason), now)
    case LinkResult(stage, ref, usage, outcome, noAction) =>
      Put(WithTokens(r.(stages := r.stages.WithResult(stage, ref)), usage),
          StageCondition(stage), outcome, if noAction then NoActionRequired else Named("Reported"), now)
    case EscalateVerification(ref, usage) =>
      Put(Put(WithTokens(r.(stages := r.stages.WithResult(Verification, ref)), usage),
              Verified, False, VerificationFailed, now),
          Escalated, Unknown, VerificationFailed, now)
    case RecordSandbox(stage, info) => r.(stages := r.stages.WithSandbox(stage, info))
    case AcceptStop(start) => Accepted(r, start)
    case AcceptStopGlobally(start) => Accepted(r, start)
    case StopOutcome(confirmed) => Stopped(r, confirmed, now)
    case ClearSandboxes => r.(stages := r.stages.Cleared())
    case StampTerminal(ceilingDays) =>
      var days := RetentionDays(ceilingDays, r.spec.terminalTtl);
      r.(terminalTime := Some(Persist(now)), deleteAfter := Some(Persist(now + days * DAY)))
    case LabelTerminal => r.(ttlLabel := "true")
  }

  // ---------------------------------------------------------------------------
  // What the stop protocol keeps
  // ---------------------------------------------------------------------------

  /** The shapes the stop markers of one run can take. */
  ghost predicate StopWellFormed(cs: RunConditions) {
    && (StopProgress in cs ==>
          StopPending(cs) || HoldsFor(cs, StopProgress, False, TeardownComplete) ||
          HoldsFor(cs, StopProgress, False, TeardownFailed))
    && (EmergencyStopped in cs ==>
          HoldsFor(cs, EmergencyStopped, True, SystemSuspended) && HoldsFor(cs, StopProgress, False, TeardownComplete))
    && (forall t :: t in cs && cs[t].status == False && cs[t].reason == EmergencyStopFailed ==>
          HoldsFor(cs, StopProgress, False, TeardownFailed))
  }

  ghost predicate RunWellFormed(r: Run) {
    && StopWellFormed(r.conditions)
    && (EmergencyStopped in r.conditions ==> !r.stages.HasSandbox())
    && TokensPaired(r.tokens)
    && (r.terminalTime.Some? <==> r.deleteAfter.Some?)
  }

  /** What b, a later version of a, keeps of it. */
  ghost predicate Later(a: Run, b: Run) {
    && a.name == b.name && a.uid == b.uid && a.generation <= b.generation
    && a.spec.targetCluster == b.spec.targetCluster
    && (StopProgress in a.conditions ==>
          StopProgress in b.conditions &&
          (b.conditions[StopProgress] == a.conditions[StopProgress] ||
           (StopPending(a.conditions) && b.conditions[StopProgress].status == False)))
    && (EmergencyStopped in a.conditions ==>
          EmergencyStopped in b.conditions && b.conditions[EmergencyStopped] == a.conditions[EmergencyStopped])
    && (StopProgress in a.conditions ==> HistoryKept(a, b))
  }

  /** No result, token or sandbox is added; sandbox references can only be cleared. */
  ghost predicate HistoryKept(a: Run, b: Run) {
    && a.tokens == b.tokens
    && forall s: Stage ::
         b.stages.At(s).results == a.stages.At(s).results &&
         (b.stages.At(s).sandbox == a.stages.At(s).sandbox || b.stages.At(s).sandbox == NO_SANDBOX)
  }

  /** On reachable condition sets, acceptance is the presence of the stop marker and
      a final outcome is that marker turned False. */
  lemma MarkerDecides(cs: RunConditions)
    requires StopWellFormed(cs)
    ensures HasAcceptedStop(cs) <==> StopProgress in cs
    ensures HasFinalStopOutcome(cs) <==> Holds(cs, StopProgress, False)
  {
  }

  lemma LaterTransitive(a: Run, b: Run, c: Run)
    requires Later(a, b) && Later(b, c)
    ensures Later(a, c)
  {
    if StopProgress in a.conditions {
      forall s: Stage
        ensures c.stages.At(s).results == a.stages.At(s).results
        ensures c.stages.At(s).sandbox == a.stages.At(s).sandbox || c.stages.At(s).sandbox == NO_SANDBOX
      {
        assert b.stages.At(s).results == a.stages.At(s).results;
      }
    }
  }

  lemma AddTokensPaired(total: TokenUsage, usage: TokenUsage)
    requires TokensPaired(total)
    ensures AddTokens(total, usage).Some?
    ensures TokensPaired(AddTokens(total, usage).value)
  {
  }

  lemma RevisionKeeps(r: Run, now: int)
    requires RunWellFormed(r)
    ensures RunWellFormed(Revised(r, now)) && Later(r, Revised(r, now))
  {
  }

  lemma FailedOutcomeKeeps(r: Run, now: int)
    requires RunWellFormed(r) && StopPending(r.conditions) && !HasFinalStopOutcome(r.conditions)
    ensures RunWellFormed(Stopped(r, false, now)) && Later(r, Stopped(r, false, now))
  {
    hide DerivePhase, IsTerminal;
  }

  lemma ConfirmedOutcomeKeeps(r: Run, now: int)
    requires RunWellFormed(r) && StopPending(r.conditions) && !HasFinalStopOutcome(r.conditions)
    ensures RunWellFormed(Stopped(r, true, now)) && Later(r, Stopped(r, true, now))
  {
    hide DerivePhase, IsTerminal;
  }

  lemma OutcomeKeeps(r: Run, confirmed: bool, now: int)
    requires RunWellFormed(r) && Enabled(r, StopOutcome(confirmed))
    ensures RunWellFormed(Stopped(r, confirmed, now)) && Later(r, Stopped(r, confirmed, now))
  {
    hide Stopped, RunWellFormed, Later;
    if confirmed {
      ConfirmedOutcomeKeeps(r, now);
    } else {
      FailedOutcomeKeeps(r, now);
    }
  }

  predicate OfStopOrRetention(w: Write) {
    w.AcceptStop? || w.AcceptStopGlobally? || w.StopOutcome? || w.ClearSandboxes? || w.StampTerminal? || w.LabelTerminal?
  }

  /** A workflow write is only made on a copy without a stop marker, and adds none. */
  lemma WorkflowWriteKeeps(r: Run, w: Write, now: int)
    requires RunWellFormed(r) && StopProgress !in r.conditions && !OfStopOrRetention(w)
    ensures RunWellFormed(Updated(r, w, now)) && Later(r, Updated(r, w, now))
  {
    if w.LinkResult? || w.EscalateVerification? {
      LinkingKeeps(r, w, now);
    } else if w.Revise? {
      RevisionKeeps(r, now);
    }
  }

  lemma LinkingKeeps(r: Run, w: Write, now: int)
    requires RunWellFormed(r) && StopProgress !in r.conditions && (w.LinkResult? || w.EscalateVerification?)
    ensures RunWellFormed(Updated(r, w, now)) && Later(r, Updated(r, w, now))
  {
    hide DerivePhase, IsTerminal;
    if w.LinkResult? {
      AddTokensPaired(r.tokens, w.usage);
    } else {
      AddTokensPaired(r.tokens, w.verdictUsage);
    }
  }

  /** Every write keeps the stop markers well formed and only moves the run forward. */
  lemma WriteKeeps(r: Run, w: Write, now: int)
    requires RunWellFormed(r) && Enabled(r, w)
    ensures RunWellFormed(Updated(r, w, now)) && Later(r, Updated(r, w, now))
  {
    hide RunWellFormed, Later, Updated;
    MarkerOfRun(r);
    if !OfStopOrRetention(w) {
      WorkflowWriteKeeps(r, w, now);
    } else if w.StopOutcome? {
      OutcomeKeeps(r, w.confirmed, now);
      UpdatedByOutcome(r, w.confirmed, now);
    } else {
      OtherWriteKeeps(r, w, now);
    }
  }

  lemma FinalOnceWritten(r: Run, confirmed: bool, now: int)
    requires RunWellFormed(r) && Enabled(r, StopOutcome(confirmed))
    ensures HasFinalStopOutcome(Updated(r, StopOutcome(confirmed), now).conditions)
  {
    hide DerivePhase, IsTerminal;
  }

  lemma MarkerOfRun(r: Run)
    requires RunWellFormed(r)
    ensures HasAcceptedStop(r.conditions) <==> StopProgress in r.conditions
  {
    MarkerDecides(r.conditions);
  }

  lemma UpdatedByOutcome(r: Run, confirmed: bool, now: int)
    ensures Updated(r, StopOutcome(confirmed), now) == Stopped(r, confirmed, now)
  {
  }

  /** Acceptances, cleared references and retention. */
  lemma OtherWriteKeeps(r: Run, w: Write, now: int)
    requires RunWellFormed(r) && Enabled(r, w) && OfStopOrRetention(w) && !w.StopOutcome?
    ensures RunWellFormed(Updated(r, w, now)) && Later(r, Updated(r, w, now))
  {
    hide DerivePhase, IsTerminal;
    MarkerDecides(r.conditions);
  }
}
