/** The global kill switch: its stored configuration object, the evidence one
    suspension pass gathers, and the status writes of its controller. */
module Configs {
  import opened Conditions
  import opened Runs
  import Objects

  /** What a cleanup pass can have to say about an object or an inventory. */
  datatype Finding =
    | InventoryUnavailable | OptionalTypeUnknown | OptionalTypePresent | ActivationUnknown
    | InvalidIdentity | MissingUid
    | RunLabelConflict | StepLabelConflict | CreationSourceUnknown | ClaimIdentityMissing | CreationOwnerUnvalidated
    | SandboxReferenceInvalid | SandboxOwnerUnvalidated | PodIdentityConflict | ClaimOwnerUnvalidated
    | SandboxIdentityConflict | ClaimOwnersConflict
    | DescendantsUnknown | StatusUnreadable | StatusSandboxMissing | StatusSandboxUnowned | StatusSandboxNotInventoried
    | IdentityNotPersisted | BackingPodUnknown | BackingPodUnowned | PodIdentityChanged | RemovalUnknown
    | DeleteFailed | StillActive | ReplacementFound | Remains

  datatype Note = Note(what: Finding, about: Objects.Key)

  /** What one cleanup pass over workload and access found. */
  datatype SuspensionCleanup = SuspensionCleanup(pending: seq<Note>, failures: seq<Note>, unverified: seq<Note>) {
    predicate Confirmed() {
      pending == [] && failures == [] && unverified == []
    }
  }

  datatype ConfigCondition = Suspended | SafeToResume

  /** One accepted suspension: the object, the spec generation and the instant. */
  datatype Activation = Activation(uid: Uid, generation: nat, start: int)

  /** History of one pass: the run inventory it read, the first version not yet stored when it
      read it, the copy of each run it judged, and the objects its second inventory returned. */
  datatype Pass = Pass(activation: Activation, listed: set<Run>, asOf: nat, examined: set<Run>, inventory: set<Objects.Obj>)

  /** basis records the pass whose evidence the stored SafeToResume=True rests on. */
  datatype Config = Config(
    uid: Uid,
    version: nat,
    generation: nat,
    suspended: bool,
    conditions: map<ConfigCondition, Condition>,
    basis: Option<Pass>)

  datatype Evidence = Evidence(
    cleanup: SuspensionCleanup,
    cleanupFailed: bool,
    runInventoryFailed: bool,
    unsavedMarkers: seq<string>,
    pendingRunOutcomes: seq<string>,
    unverifiedRemote: seq<string>)
  {
    predicate CleanupConfirmed() {
      !cleanupFailed && cleanup.Confirmed()
    }

    predicate RunAcceptanceConfirmed() {
      !runInventoryFailed && unsavedMarkers == []
    }

    predicate Safe() {
      CleanupConfirmed() && RunAcceptanceConfirmed() && unverifiedRemote == []
    }

    predicate Unresolved() {
      !CleanupConfirmed() || !RunAcceptanceConfirmed() || pendingRunOutcomes != [] || unverifiedRemote != []
    }
  }

  function OutcomeReason(e: Evidence, current: Reason, deadlineReached: bool): Reason {
    if current == AdminActivatedWithErrors then AdminActivatedWithErrors
    else if e.Unresolved() then
      if deadlineReached then AdminActivatedWithErrors else Stopping
    else AdminActivated
  }

  // ---------------------------------------------------------------------------
  // Activation identity
  // ---------------------------------------------------------------------------

  predicate CurrentActivation(c: Config) {
    && Holds(c.conditions, Suspended, True)
    && c.conditions[Suspended].observedGeneration == c.generation
    && c.conditions[Suspended].lastTransition != NO_TIME
  }

  /** The recorded start of the current activation, or a fresh one at storage precision. */
  function ActivationStart(c: Config, now: int): int {
    if CurrentActivation(c) then c.conditions[Suspended].lastTransition else Persist(now)
  }

  predicate ActivationMatches(c: Config, a: Activation) {
    && (a.uid != NO_UID ==> c.uid == a.uid)
    && c.suspended && c.generation == a.generation
    && Holds(c.conditions, Suspended, True)
    && c.conditions[Suspended].observedGeneration == a.generation
    && c.conditions[Suspended].lastTransition == a.start
  }

  predicate NeedsSafetyCondition(c: Config) {
    SafeToResume !in c.conditions || c.conditions[SafeToResume].observedGeneration != c.generation
  }

  // ---------------------------------------------------------------------------
  // Status writes
  // ---------------------------------------------------------------------------

  datatype ConfigWrite =
    | Activate
    | RefreshSafety
    | Deactivate
    | RecordOutcome(evidence: Evidence, deadlineReached: bool, pass: Pass)

  predicate ConfigEnabled(c: Config, w: ConfigWrite) {
    match w
    case Activate => c.suspended && !CurrentActivation(c)
    case RefreshSafety => c.suspended && CurrentActivation(c) && NeedsSafetyCondition(c)
    case Deactivate =>
      !c.suspended && Suspended in c.conditions &&
      (c.conditions[Suspended].status == True || c.conditions[Suspended].observedGeneration != c.generation)
    case RecordOutcome(_, _, pass) => ActivationMatches(c, pass.activation)
  }

  /** Timestamps reach storage at second precision. */
  function ConfigUpdated(c: Config, w: ConfigWrite, now: int): Config
    requires ConfigEnabled(c, w)
  {
    var start := ActivationStart(c, now);
    match w
    case Activate =>
      c.(conditions := SetConditionAt(SetConditionAt(c.conditions,
           Suspended, True, Stopping, c.generation, Persist(start)),
           SafeToResume, False, Stopping, c.generation, Persist(start)),
         basis := None)
    case RefreshSafety =>
      c.(conditions := SetConditionAt(c.conditions, SafeToResume, False, Stopping, c.generation, Persist(start)),
         basis := None)
    case Deactivate =>
      c.(conditions := SetConditionAt(c.conditions, Suspended, False, AdminDeactivated, c.generation, Persist(now)))
    case RecordOutcome(e, deadlineReached, pass) =>
      var reason := OutcomeReason(e, c.conditions[Suspended].reason, deadlineReached);
      var outcome := SetConditionAt(c.conditions, Suspended, True, reason, pass.activation.generation,
                                    Persist(pass.activation.start));
      c.(conditions := SetCondition(outcome, SafeToResume, if e.Safe() then True else False,
                                    if e.Safe() then CleanupConfirmed else Stopping,
                                    pass.activation.generation, Persist(now)),
         basis := if e.Safe() then Some(pass) else None)
  }

  // ---------------------------------------------------------------------------
  // What every stored configuration satisfies
  // ---------------------------------------------------------------------------

  predicate ObservedNow(c: Config, k: ConfigCondition) {
    k in c.conditions && c.conditions[k].observedGeneration == c.generation
  }

  /** SafeToResume is confirmed for the generation in force. */
  predicate SafeNow(c: Config) {
    ObservedNow(c, SafeToResume) && c.conditions[SafeToResume].status == True
  }

  ghost predicate ConfigWellFormed(c: Config) {
    && (forall k :: k in c.conditions ==> c.conditions[k].observedGeneration <= c.generation)
    && (Suspended in c.conditions ==>
          c.conditions[Suspended].lastTransition == Persist(c.conditions[Suspended].lastTransition) &&
          c.conditions[Suspended].lastTransition > NO_TIME)
    // the observed switch is the requested one
    && (ObservedNow(c, Suspended) ==> c.conditions[Suspended].status == if c.suspended then True else False)
    && (ObservedNow(c, Suspended) && c.suspended ==>
          ObservedNow(c, SafeToResume) &&
          c.conditions[Suspended].reason in {Stopping, AdminActivated, AdminActivatedWithErrors})
    // a clean outcome is a safe one
    && (ObservedNow(c, Suspended) && c.suspended && c.conditions[Suspended].reason == AdminActivated ==> SafeNow(c))
    // safety rests on a pass of the activation in force
    && (SafeNow(c) ==>
          c.suspended && ObservedNow(c, Suspended) && c.basis.Some? &&
          c.basis.value.activation == Activation(c.uid, c.generation, c.conditions[Suspended].lastTransition))
  }

  /** What b, a later version of a, keeps of it. */
  ghost predicate LaterConfig(a: Config, b: Config) {
    && a.uid == b.uid && a.generation <= b.generation
    && (a.generation == b.generation ==>
          && a.suspended == b.suspended
          && (ObservedNow(a, Suspended) ==>
                && ObservedNow(b, Suspended)
                && b.conditions[Suspended].status == a.conditions[Suspended].status
                && b.conditions[Suspended].lastTransition == a.conditions[Suspended].lastTransition
                && (a.conditions[Suspended].reason == AdminActivatedWithErrors ==>
                      b.conditions[Suspended].reason == AdminActivatedWithErrors)))
  }

  lemma LaterConfigTransitive(a: Config, b: Config, c: Config)
    requires LaterConfig(a, b) && LaterConfig(b, c)
    ensures LaterConfig(a, c)
  {
  }

  /** Every status write keeps the stored configuration well formed, and within one
      generation neither the switch, nor the start of an activation, nor an outcome
      with errors changes. */
  lemma ConfigWriteKeeps(c: Config, w: ConfigWrite, now: int)
    requires ConfigWellFormed(c) && ConfigEnabled(c, w) && now >= SECOND
    requires w.RecordOutcome? ==> w.pass.activation.uid == c.uid
    ensures ConfigWellFormed(ConfigUpdated(c, w, now)) && LaterConfig(c, ConfigUpdated(c, w, now))
  {
    var after := ConfigUpdated(c, w, now);
    assert Persist(Persist(now)) == Persist(now) && Persist(now) > NO_TIME;
  }

  /** A fresh activation is recognised by the identity handed to the pass that follows,
      although storage keeps whole seconds only. */
  lemma ActivationSurvivesStorage(c: Config, now: int)
    requires ConfigEnabled(c, Activate) && now >= SECOND
    ensures var start := ActivationStart(c, now);
            var stored := ConfigUpdated(c, Activate, now);
            && ActivationMatches(stored, Activation(c.uid, c.generation, start))
            && forall later :: ActivationStart(stored, later) == start
  {
    assert Persist(Persist(now)) == Persist(now) && Persist(now) > NO_TIME;
  }

  /** Errors stay on record. Otherwise an outcome is an error exactly on unresolved evidence past the
      deadline, Stopping exactly on unresolved evidence before it, and clean exactly on resolved
      evidence, which is safe. */
  lemma OutcomeAtDeadline(e: Evidence, current: Reason, deadlineReached: bool)
    ensures deadlineReached ==> OutcomeReason(e, current, deadlineReached) != Stopping
    ensures OutcomeReason(e, current, deadlineReached) == AdminActivated ==> e.Safe() && !e.Unresolved()
    ensures OutcomeReason(e, current, deadlineReached) == Stopping <==>
              current != AdminActivatedWithErrors && e.Unresolved() && !deadlineReached
    ensures OutcomeReason(e, current, deadlineReached) == AdminActivatedWithErrors <==>
              current == AdminActivatedWithErrors || (e.Unresolved() && deadlineReached)
    ensures OutcomeReason(e, current, deadlineReached) == AdminActivated <==>
              current != AdminActivatedWithErrors && !e.Unresolved()
  {
  }

  // ---------------------------------------------------------------------------
  // Readers of the status
  // ---------------------------------------------------------------------------

  datatype ResumeSafety =
    | ResumeConfirmed
    | SuspendedMissing | SuspendedStale(observed: nat) | NotSuspended(status: Status) | NotFinished(reason: Reason)
    | SafetyMissing | SafetyStale(safetyObserved: nat) | Unsafe(why: Reason)

  /** What the status command reports, condition by condition. */
  function FormatResumeSafety(generation: nat, suspended: Option<Condition>, safety: Option<Condition>): ResumeSafety {
    if suspended.None? then SuspendedMissing
    else if suspended.value.observedGeneration != generation then SuspendedStale(suspended.value.observedGeneration)
    else if suspended.value.status != True then NotSuspended(suspended.value.status)
    else if suspended.value.reason != AdminActivated && suspended.value.reason != AdminActivatedWithErrors then
      NotFinished(suspended.value.reason)
    else if safety.None? then SafetyMissing
    else if safety.value.observedGeneration != generation then SafetyStale(safety.value.observedGeneration)
    else if safety.value.status == True then ResumeSafety.ResumeConfirmed
    else Unsafe(safety.value.reason)
  }

  function Lookup(c: Config, k: ConfigCondition): Option<Condition> {
    if k in c.conditions then Some(c.conditions[k]) else None
  }

  /** The admission policy's test for resuming or deleting a suspended configuration. */
  predicate AdmissionAllowsResume(c: Config) {
    && (exists k :: k in c.conditions && k == Suspended && c.conditions[k].status == True &&
          c.conditions[k].reason in {AdminActivated, AdminActivatedWithErrors} &&
          c.conditions[k].observedGeneration == c.generation)
    && (exists k :: k in c.conditions && k == SafeToResume && c.conditions[k].status == True &&
          c.conditions[k].observedGeneration == c.generation)
  }

  /** The status command says confirmed exactly when the admission policy lets the
      administrator resume. */
  lemma StatusAgreesWithAdmission(c: Config)
    ensures FormatResumeSafety(c.generation, Lookup(c, Suspended), Lookup(c, SafeToResume)) == ResumeSafety.ResumeConfirmed
            <==> AdmissionAllowsResume(c)
  {
    if FormatResumeSafety(c.generation, Lookup(c, Suspended), Lookup(c, SafeToResume)) == ResumeSafety.ResumeConfirmed {
      assert Suspended in c.conditions && SafeToResume in c.conditions;
    }
  }

  const REQUEUE_DELAY: int := 5 * SECOND

  function SuspensionRequeueDelay(start: int, now: int): int {
    var remaining := start + SUSPENSION_STOP_WINDOW - now;
    if 0 < remaining < REQUEUE_DELAY then remaining else REQUEUE_DELAY
  }

  /** The next pass is always later, and never skips from before the deadline to past it. */
  lemma RequeueNeverSkipsDeadline(start: int, now: int)
    ensures var next := now + SuspensionRequeueDelay(start, now);
            var deadline := start + SUSPENSION_STOP_WINDOW;
            now < next <= now + REQUEUE_DELAY && (now < deadline ==> next <= deadline)
  {
  }
}
