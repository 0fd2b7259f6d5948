/** The promises of the kill switch, over every history of requests. */
module KillSwitch {
  import opened Conditions
  import opened Runs
  import opened RunWrites
  import opened Configs
  import opened Machine
  import opened Vocabulary
  import Objects

  /** Any state some history leads to. */
  ghost predicate Reachable(s: State) {
    exists actions :: s == Exec(INITIAL, actions)
  }

  lemma ReachableInv(s: State)
    requires Reachable(s)
    ensures Inv(s)
  {
    var actions :| s == Exec(INITIAL, actions);
    InitialInv();
    ExecKeeps(INITIAL, actions);
  }

  // ---------------------------------------------------------------------------
  // Stop monotonicity
  // ---------------------------------------------------------------------------

  /** 0: no stop; 1: stop accepted; 2: final outcome. */
  function StopStage(cs: RunConditions): nat {
    if StopProgress !in cs then 0 else if cs[StopProgress].status == True then 1 else 2
  }

  /** Whatever happens after a reachable state, a stop once accepted stays accepted, and its
      final outcome never changes: in particular TeardownFailed never becomes
      TeardownComplete. */
  lemma StopIsMonotone(s: State, after: seq<Action>, name: string, uid: Uid)
    requires Reachable(s) && Stored(s, name, uid) && Stored(Exec(s, after), name, uid)
    ensures var a, b := s.runs[name].conditions, Exec(s, after).runs[name].conditions;
            && (HasAcceptedStop(a) ==> HasAcceptedStop(b))
            && (HasFinalStopOutcome(a) ==>
                  HasFinalStopOutcome(b) && StopProgress in a && StopProgress in b && b[StopProgress] == a[StopProgress])
            && (HoldsFor(a, StopProgress, False, TeardownFailed) ==> !HoldsFor(b, StopProgress, False, TeardownComplete))
            && (StopPending(a) && StopPending(b) ==> b[StopProgress] == a[StopProgress])
            && StopStage(a) <= StopStage(b)
  {
    ReachableInv(s);
    ExecKeeps(s, after);
    var t := Exec(s, after);
    assert s.runs[name] in t.log;
    ObservedEarlier(t, s.runs[name]);
    StillAccepted(s.runs[name], t.runs[name]);
    MarkerDecides(s.runs[name].conditions);
    MarkerDecides(t.runs[name].conditions);
  }

  /** What one request does to the run called name, if anything: it leaves all conditions
      alone, or it is a locked write of the stored copy, or the status half of a revision
      whose label patch refreshed the copy. */
  ghost predicate Effect(s: State, a: Action, name: string)
    requires name in s.runs && name in Apply(s, a).runs
  {
    var r, after := s.runs[name], Apply(s, a).runs[name];
    || after.conditions == r.conditions
    || Writes(s, a, name)
    || Revises(s, a, name)
  }

  /** A locked write taking effect on the run called name. */
  ghost predicate Writes(s: State, a: Action, name: string)
    requires name in s.runs
  {
    var r := s.runs[name];
    && a.PatchRun? && a.base == r && Enabled(r, a.w)
    && name in Apply(s, a).runs && Apply(s, a).runs[name] == Updated(r, a.w, s.clock).(version := s.nextVersion)
  }

  /** The second half of a labelled revision taking effect on the run called name. */
  ghost predicate Revises(s: State, a: Action, name: string)
    requires name in s.runs
  {
    var r := s.runs[name];
    && a.ReviseRefreshed? && a.base == r && r in s.refreshed
    && name in Apply(s, a).runs && Apply(s, a).runs[name] == Revised(r, s.clock).(version := s.nextVersion)
  }

  lemma PatchEffect(s: State, base: Run, w: Write, name: string)
    requires RunsInv(s) && name in s.runs
    ensures Effect(s, PatchRun(base, w), name)
  {
    if base in s.log && Enabled(base, w) && Unchanged(s, base) {
      UnchangedIsStored(s, base);
    }
  }

  lemma ReviseEffect(s: State, base: Run, name: string)
    requires RunsInv(s) && name in s.runs
    ensures Effect(s, ReviseRefreshed(base), name)
  {
    if base in s.refreshed && Unchanged(s, base) {
      UnchangedIsStored(s, base);
    }
  }

  lemma ActionEffect(s: State, a: Action, name: string)
    requires RunsInv(s) && name in s.runs && Stored(Apply(s, a), name, s.runs[name].uid)
    ensures Effect(s, a, name)
  {
    hide Enabled, Updated, RunWellFormed, HasAcceptedStop, RevisionRouted, CanPatchConfig, ConfigUpdated, History, VersionsUnique;
    match a
    case PatchRun(base, w) => PatchEffect(s, base, w, name);
    case ReviseRefreshed(base) => ReviseEffect(s, base, name);
    case _ =>
  }

  lemma WriteAdvancesStop(r: Run, w: Write, now: int)
    requires RunWellFormed(r) && Enabled(r, w)
    ensures StopStage(Updated(r, w, now).conditions) in {StopStage(r.conditions), StopStage(r.conditions) + 1}
    ensures StopStage(Updated(r, w, now).conditions) == 2 > StopStage(r.conditions) ==> w.StopOutcome?
    ensures StopStage(Updated(r, w, now).conditions) == 1 > StopStage(r.conditions) ==>
              w.AcceptStop? || w.AcceptStopGlobally?
  {
    MarkerDecides(r.conditions);
  }

  /** No single request skips a stage: absent, accepted, final, in this order. */
  lemma StopAdvancesOneStage(s: State, a: Action, name: string)
    requires Reachable(s) && name in s.runs && Stored(Apply(s, a), name, s.runs[name].uid)
    ensures StopStage(Apply(s, a).runs[name].conditions)
            in {StopStage(s.runs[name].conditions), StopStage(s.runs[name].conditions) + 1}
  {
    ReachableInv(s);
    ActionEffect(s, a, name);
    if Writes(s, a, name) {
      WriteAdvancesStop(s.runs[name], a.w, s.clock);
    }
  }

  // ---------------------------------------------------------------------------
  // The start of a stop
  // ---------------------------------------------------------------------------

  /** The request accepts this run's stop, from this start on. */
  predicate Accepts(a: Action, uid: Uid, start: int) {
    a.PatchRun? && a.base.uid == uid && (a.w == AcceptStop(start) || a.w == AcceptStopGlobally(start))
  }

  /** The k-th request accepts this run's stop, had not been accepted on the copy it read, and is
      stored as begun at this start. */
  ghost predicate AcceptedAt(actions: seq<Action>, k: nat, uid: Uid, start: int) {
    && k < |actions| && Accepts(actions[k], uid, start) && StopProgress !in actions[k].base.conditions
    && var after := Exec(INITIAL, actions[..k + 1]);
       Stored(after, actions[k].base.name, uid) && StopBegunAt(after.runs[actions[k].base.name].conditions, start)
  }

  lemma WriteKeepsStart(base: Run, w: Write, now: int, start: int)
    requires RunWellFormed(base) && Enabled(base, w) && StopBegunAt(Updated(base, w, now).conditions, start)
    ensures || ((w == AcceptStop(start) || w == AcceptStopGlobally(start)) && StopProgress !in base.conditions)
            || StopBegunAt(base.conditions, start)
  {
    hide Enabled, Updated, RunWellFormed;
    WriteAdvancesStop(base, w, now);
    WriteKeeps(base, w, now);
    if StopProgress !in base.conditions {
      AcceptanceStart(base, w, now);
    }
  }

  lemma AcceptanceStart(base: Run, w: Write, now: int)
    ensures w.AcceptStop? ==> Updated(base, w, now).conditions[StopProgress].lastTransition == w.start
    ensures w.AcceptStopGlobally? ==> Updated(base, w, now).conditions[StopProgress].lastTransition == w.activationStart
  {
  }

  /** A version newly stored by a request bears the start of a version stored before, or of the
      acceptance that this request is. */
  lemma NewMarker(s: State, a: Action, c: Run, start: int)
    requires Inv(s) && c in Apply(s, a).log && c !in s.log && StopBegunAt(c.conditions, start)
    ensures || MarkedFrom(s, c.uid, start)
            || (Accepts(a, c.uid, start) && StopProgress !in a.base.conditions && Stored(Apply(s, a), a.base.name, c.uid) &&
                StopBegunAt(Apply(s, a).runs[a.base.name].conditions, start))
  {
    hide Enabled, Updated, RunWellFormed, HasAcceptedStop, RevisionRouted, CanPatchConfig, ConfigUpdated, Machine.History, VersionsUnique,
      ConfigInv, SafetyInv, StopBegunAt, Later;
    match a
    case CreateRun(_, _, _, _, _) => NoMarkerYet(c, start);
    case EditSpec(name, _, _) => SameMarker(s, s.runs[name], c, start);
    case EditMeta(name, _, _) => SameMarker(s, s.runs[name], c, start);
    case ClearTtlLabel(base) => SameMarker(s, s.runs[base.name], c, start);
    case PatchRun(base, w) =>
      assert RunWellFormed(base);
      WriteKeepsStart(base, w, s.clock, start);
      if StopBegunAt(base.conditions, start) {
        SameMarker(s, base, c, start);
      }
    case ReviseRefreshed(base) =>
      RevisionKeepsMarker(base, s.clock);
      RevisedMarker(s, base, c, start);
    case _ =>
  }

  lemma NoMarkerYet(c: Run, start: int)
    requires StopBegunAt(c.conditions, start)
    ensures c.conditions != map[]
  {
  }

  lemma SameMarker(s: State, b: Run, c: Run, start: int)
    requires b in s.log && b.uid == c.uid && (StopBegunAt(b.conditions, start) || c.conditions == b.conditions)
    requires StopBegunAt(c.conditions, start)
    ensures MarkedFrom(s, c.uid, start)
  {
  }

  lemma RevisionKeepsMarker(r: Run, now: int)
    ensures StopProgress in Revised(r, now).conditions <==> StopProgress in r.conditions
    ensures StopProgress in r.conditions ==> Revised(r, now).conditions[StopProgress] == r.conditions[StopProgress]
  {
  }

  lemma RevisedMarker(s: State, b: Run, c: Run, start: int)
    requires b in s.log && b.uid == c.uid && StopBegunAt(c.conditions, start)
    requires StopProgress in c.conditions <==> StopProgress in b.conditions
    requires StopProgress in c.conditions ==> c.conditions[StopProgress] == b.conditions[StopProgress]
    ensures MarkedFrom(s, c.uid, start)
  {
    assert StopBegunAt(b.conditions, start);
  }

  /** Over every history, the start that any stored version of a pending stop bears is the start of
      an acceptance of that run that took effect, the first one its copy carried. */
  lemma {:induction false} MarkerBearsItsAcceptance(actions: seq<Action>, c: Run, start: int)
    requires c in Exec(INITIAL, actions).log && StopBegunAt(c.conditions, start)
    ensures exists k: nat :: AcceptedAt(actions, k, c.uid, start)
    decreases |actions|
  {
    hide Apply, StopBegunAt, Inv, LaterState, Accepts;
    if actions == [] {
    } else {
      var n := |actions| - 1;
      var before, a := actions[..n], actions[n];
      var m := Exec(INITIAL, before);
      InitialInv();
      ExecKeeps(INITIAL, before);
      assert actions[..n + 1] == actions;
      if c !in m.log {
        NewMarker(m, a, c, start);
      }
      if c in m.log || MarkedFrom(m, c.uid, start) {
        var b :| b in m.log && b.uid == c.uid && StopBegunAt(b.conditions, start);
        MarkerBearsItsAcceptance(before, b, start);
        var k: nat :| AcceptedAt(before, k, c.uid, start);
        assert before[..k + 1] == actions[..k + 1];
        assert AcceptedAt(actions, k, c.uid, start);
      } else {
        assert AcceptedAt(actions, n, c.uid, start);
      }
    }
  }

  // ---------------------------------------------------------------------------
  // EmergencyStopped
  // ---------------------------------------------------------------------------

  /** An emergency-stopped run finished its teardown, refers to no sandbox, carries no failed
      stop, and is in that phase in this and every later state. */
  lemma EmergencyStoppedIsForever(s: State, after: seq<Action>, name: string, uid: Uid)
    requires Reachable(s) && Stored(s, name, uid) && Stored(Exec(s, after), name, uid)
    requires Holds(s.runs[name].conditions, EmergencyStopped, True)
    ensures var b := Exec(s, after).runs[name];
            && HoldsFor(b.conditions, StopProgress, False, TeardownComplete)
            && !b.stages.HasSandbox()
            && (forall t :: t in b.conditions ==> !(b.conditions[t].status == False && b.conditions[t].reason == EmergencyStopFailed))
            && DerivePhase(b.conditions) == PhaseEmergencyStopped
  {
    ReachableInv(s);
    ExecKeeps(s, after);
    var t := Exec(s, after);
    assert s.runs[name] in t.log;
    ObservedEarlier(t, s.runs[name]);
    assert RunWellFormed(t.runs[name]);
  }

  // ---------------------------------------------------------------------------
  // Frozen after acceptance
  // ---------------------------------------------------------------------------

  lemma WriteFreezesStopped(r: Run, w: Write, now: int)
    requires RunWellFormed(r) && Enabled(r, w) && HasAcceptedStop(r.conditions) && !w.StopOutcome?
    ensures Updated(r, w, now).conditions == r.conditions
    ensures w.ClearSandboxes? || w.StampTerminal? || w.LabelTerminal?
  {
  }

  /** Once a stop is accepted, no handler, pod event, timeout tick, failed step, sandbox
      launch or user edit changes a condition: only the stop outcome does, and the status
      half of a revision whose label patch refreshed its copy of the run. Results and
      tokens never change again and sandbox references can only be cleared, without
      exception. */
  lemma FrozenAfterAcceptance(s: State, a: Action, name: string)
    requires Reachable(s) && name in s.runs && HasAcceptedStop(s.runs[name].conditions)
    requires Stored(Apply(s, a), name, s.runs[name].uid)
    ensures || Apply(s, a).runs[name].conditions == s.runs[name].conditions
            || (Writes(s, a, name) && a.w.StopOutcome?)
            || Revises(s, a, name)
    ensures HistoryKept(s.runs[name], Apply(s, a).runs[name])
  {
    ReachableInv(s);
    MarkerDecides(s.runs[name].conditions);
    LaterAfter(s, a, name);
    ActionEffect(s, a, name);
    if Writes(s, a, name) && !a.w.StopOutcome? {
      WriteFreezesStopped(s.runs[name], a.w, s.clock);
    }
  }

  lemma LaterAfter(s: State, a: Action, name: string)
    requires Inv(s) && name in s.runs && Stored(Apply(s, a), name, s.runs[name].uid)
    ensures Later(s.runs[name], Apply(s, a).runs[name])
    ensures RunWellFormed(Apply(s, a).runs[name])
  {
    ActionKeeps(s, a);
    assert s.runs[name] in Apply(s, a).log;
    ObservedEarlier(Apply(s, a), s.runs[name]);
  }

  /** The status half of a revision of this run whose refreshed copy carries the stop. */
  predicate RevisesStopped(a: Action, uid: Uid) {
    a.ReviseRefreshed? && a.base.uid == uid && HasAcceptedStop(a.base.conditions)
  }

  /** After the final outcome nothing but such a revision changes any condition, so the
      derived phase stands for good. */
  lemma {:induction false} FrozenAfterOutcome(s: State, actions: seq<Action>, name: string, uid: Uid)
    requires Inv(s) && Stored(s, name, uid) && HasFinalStopOutcome(s.runs[name].conditions)
    requires Stored(Exec(s, actions), name, uid)
    requires forall i :: 0 <= i < |actions| ==> !RevisesStopped(actions[i], uid)
    ensures Exec(s, actions).runs[name].conditions == s.runs[name].conditions
    decreases |actions|
  {
    if actions == [] {
    } else {
      var before, a := actions[..|actions| - 1], actions[|actions| - 1];
      var m := Exec(s, before);
      ExecKeeps(s, before);
      StoredBefore(m, a, name, uid);
      FrozenAfterOutcome(s, before, name, uid);
      FrozenStep(m, a, name);
    }
  }

  /** The stop outcome of the run called name, taking effect. */
  ghost predicate WritesOutcome(s: State, a: Action, name: string)
    requires name in s.runs
  {
    Writes(s, a, name) && a.w.StopOutcome?
  }

  /** The k-th request is this run's outcome write, and takes its conditions from was to now. */
  ghost predicate OutcomeAt(s: State, actions: seq<Action>, k: nat, name: string, was: RunConditions, now: RunConditions) {
    && k < |actions|
    && var m := Exec(s, actions[..k]);
       && name in m.runs && WritesOutcome(m, actions[k], name) && m.runs[name].conditions == was
       && name in Apply(m, actions[k]).runs && Apply(m, actions[k]).runs[name].conditions == now
  }

  /** Over every history after acceptance without such a revision, the conditions of a run
      change at most once, and only by its stop outcome. */
  lemma {:induction false} FrozenFromAcceptance(s: State, actions: seq<Action>, name: string, uid: Uid)
    requires Inv(s) && Stored(s, name, uid) && HasAcceptedStop(s.runs[name].conditions)
    requires Stored(Exec(s, actions), name, uid)
    requires forall i :: 0 <= i < |actions| ==> !RevisesStopped(actions[i], uid)
    ensures var was, now := s.runs[name].conditions, Exec(s, actions).runs[name].conditions;
            now == was || exists k: nat :: OutcomeAt(s, actions, k, name, was, now)
    decreases |actions|
  {
    hide WritesOutcome, OutcomeAt, Inv, LaterState, HasAcceptedStop, HasFinalStopOutcome, Apply, RevisesStopped;
    if actions == [] {
    } else {
      var n := |actions| - 1;
      var before, a := actions[..n], actions[n];
      var m := Exec(s, before);
      ExecKeeps(s, before);
      UsedStays(s, m, name, uid);
      StoredBefore(m, a, name, uid);
      FrozenFromAcceptance(s, before, name, uid);
      StaysAccepted(s, m, name, uid);
      StoppedStep(m, a, name);
      var was, mid, now := s.runs[name].conditions, m.runs[name].conditions, Exec(s, actions).runs[name].conditions;
      if mid != was {
        var k: nat :| OutcomeAt(s, before, k, name, was, mid);
        OutcomeIsFinal(s, before, k, name, was, mid);
        OutcomeNeedsOpen(m, a, name);
        OutcomeEarlier(s, before, a, k, name, was, mid);
        assert OutcomeAt(s, before + [a], k, name, was, mid);
        assert before + [a] == actions;
      } else if now != mid {
        OutcomeNow(s, before, a, name);
        assert before + [a] == actions;
      }
    }
  }

  lemma OutcomeEarlier(s: State, before: seq<Action>, a: Action, k: nat, name: string, was: RunConditions, now: RunConditions)
    requires OutcomeAt(s, before, k, name, was, now)
    ensures OutcomeAt(s, before + [a], k, name, was, now)
  {
    assert (before + [a])[..k] == before[..k];
  }

  lemma OutcomeNow(s: State, before: seq<Action>, a: Action, name: string)
    requires var m := Exec(s, before);
             name in m.runs && name in Apply(m, a).runs && WritesOutcome(m, a, name)
    ensures var m := Exec(s, before);
            OutcomeAt(s, before + [a], |before|, name, m.runs[name].conditions, Apply(m, a).runs[name].conditions)
  {
    assert (before + [a])[..|before|] == before;
  }

  lemma UsedStays(s: State, m: State, name: string, uid: Uid)
    requires Inv(s) && LaterState(s, m) && Stored(s, name, uid)
    ensures uid in m.usedUids
  {
  }

  lemma StaysAccepted(s: State, m: State, name: string, uid: Uid)
    requires Inv(s) && Inv(m) && LaterState(s, m) && Stored(s, name, uid) && Stored(m, name, uid)
    ensures HasAcceptedStop(s.runs[name].conditions) ==> HasAcceptedStop(m.runs[name].conditions)
  {
    assert s.runs[name] in m.log;
    ObservedEarlier(m, s.runs[name]);
    StillAccepted(s.runs[name], m.runs[name]);
  }

  lemma OutcomeIsFinal(s: State, actions: seq<Action>, k: nat, name: string, was: RunConditions, now: RunConditions)
    requires Inv(s) && OutcomeAt(s, actions, k, name, was, now)
    ensures HasFinalStopOutcome(now)
  {
    hide Apply;
    ExecKeeps(s, actions[..k]);
    var r := Exec(s, actions[..k]).runs[name];
    StoredIsWellFormed(Exec(s, actions[..k]), name);
    FinalOnceWritten(r, actions[k].w.confirmed, Exec(s, actions[..k]).clock);
  }

  lemma OutcomeNeedsOpen(s: State, a: Action, name: string)
    requires name in s.runs
    ensures WritesOutcome(s, a, name) ==> !HasFinalStopOutcome(s.runs[name].conditions)
  {
  }

  lemma StoredBefore(s: State, a: Action, name: string, uid: Uid)
    requires Inv(s) && uid in s.usedUids && Stored(Apply(s, a), name, uid)
    ensures Stored(s, name, uid)
  {
    ActionKeeps(s, a);
  }

  /** One request on a stopped run, such revisions aside. */
  lemma StoppedStep(s: State, a: Action, name: string)
    requires Inv(s) && name in s.runs && HasAcceptedStop(s.runs[name].conditions)
    requires Stored(Apply(s, a), name, s.runs[name].uid) && !RevisesStopped(a, s.runs[name].uid)
    ensures Apply(s, a).runs[name].conditions == s.runs[name].conditions || WritesOutcome(s, a, name)
  {
    ActionEffect(s, a, name);
    if Writes(s, a, name) && !a.w.StopOutcome? {
      WriteFreezesStopped(s.runs[name], a.w, s.clock);
    }
  }

  lemma FrozenStep(s: State, a: Action, name: string)
    requires Inv(s) && name in s.runs && HasFinalStopOutcome(s.runs[name].conditions)
    requires Stored(Apply(s, a), name, s.runs[name].uid)
    requires !RevisesStopped(a, s.runs[name].uid)
    ensures Apply(s, a).runs[name].conditions == s.runs[name].conditions
  {
    hide WritesOutcome, Apply;
    StoppedStep(s, a, name);
    OutcomeNeedsOpen(s, a, name);
  }

  /** Already marked as being revised, with nothing left of what came after the analysis. */
  predicate UnderRevision(r: Run) {
    && HoldsFor(r.conditions, Analyzed, Unknown, Revising) && r.conditions[Analyzed].observedGeneration == r.generation
    && Executed !in r.conditions && Verified !in r.conditions && Escalated !in r.conditions
  }

  lemma RevisionChanges(r: Run, now: int)
    ensures Revised(r, now).conditions != r.conditions <==> !UnderRevision(r)
  {
    if UnderRevision(r) {
      assert Revised(r, now).conditions == r.conditions;
    }
  }

  /** A request other than the outcome write changes the conditions of a stopped run if and
      only if it is the second half of a labelled revision that takes effect on a run not under
      revision already. The copy it writes then carries the stop, which the handler does not
      look at; the run keeps the stop and is put back to its analysis. */
  lemma RevisionRewritesExactlyUnchecked(s: State, a: Action, name: string)
    requires Reachable(s) && name in s.runs && HasAcceptedStop(s.runs[name].conditions)
    requires Stored(Apply(s, a), name, s.runs[name].uid)
    ensures var r, after := s.runs[name].conditions, Apply(s, a).runs[name].conditions;
            && (after != r && !WritesOutcome(s, a, name) <==>
                  a.ReviseRefreshed? && a.base.name == name && a.base in s.refreshed && Unchanged(s, a.base) &&
                  !UnderRevision(a.base))
            && (after != r && !WritesOutcome(s, a, name) ==>
                  && RevisesStopped(a, s.runs[name].uid) && HasAcceptedStop(after)
                  && Executed !in after && Verified !in after && Escalated !in after && Holds(after, Analyzed, Unknown)
                  && (!Holds(after, EmergencyStopped, True) && !Holds(after, Denied, True) ==> DerivePhase(after) == Analyzing))
  {
    hide Later, History, VersionsUnique, ConfigInv, SafetyInv, Reachable, WritesOutcome, Revises, Enabled, Updated, UnderRevision, Apply, Inv;
    ReachableInv(s);
    if a.ReviseRefreshed? && a.base.name == name && a.base in s.refreshed && Unchanged(s, a.base) {
      RefreshedRevises(s, a.base);
      RevisionChanges(a.base, s.clock);
      RevisedStop(a.base, s.clock);
    } else if !WritesOutcome(s, a, name) {
      NothingElse(s, a, name);
    }
  }

  lemma NothingElse(s: State, a: Action, name: string)
    requires Inv(s) && name in s.runs && HasAcceptedStop(s.runs[name].conditions)
    requires Stored(Apply(s, a), name, s.runs[name].uid) && !WritesOutcome(s, a, name)
    requires !(a.ReviseRefreshed? && a.base.name == name && a.base in s.refreshed && Unchanged(s, a.base))
    ensures Apply(s, a).runs[name].conditions == s.runs[name].conditions
  {
    ActionEffect(s, a, name);
    if Writes(s, a, name) {
      WriteFreezesStopped(s.runs[name], a.w, s.clock);
    }
  }

  lemma RefreshedRevises(s: State, base: Run)
    requires Inv(s) && base in s.refreshed && Unchanged(s, base)
    ensures s.runs[base.name] == base
    ensures base.name in Apply(s, ReviseRefreshed(base)).runs
    ensures Apply(s, ReviseRefreshed(base)).runs[base.name].conditions == Revised(base, s.clock).conditions
    ensures RunWellFormed(base) && !WritesOutcome(s, ReviseRefreshed(base), base.name)
  {
    UnchangedIsStored(s, base);
  }

  lemma RevisedStop(r: Run, now: int)
    requires RunWellFormed(r) && HasAcceptedStop(r.conditions)
    ensures var after := Revised(r, now).conditions;
            && HasAcceptedStop(after)
            && Executed !in after && Verified !in after && Escalated !in after && Holds(after, Analyzed, Unknown)
            && (!Holds(after, EmergencyStopped, True) && !Holds(after, Denied, True) ==> DerivePhase(after) == Analyzing)
  {
    MarkerOfRun(r);
  }
}
