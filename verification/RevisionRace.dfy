/** A history in which a revision rewrites a run whose stop had already been given its final
    outcome: the run is left Analyzing, though stopped for good. */
module RevisionRace {
  import opened Conditions
  import opened Runs
  import opened RunWrites
  import opened Configs
  import opened Machine
  import opened KillSwitch

  lemma ReachableStep(s: State, a: Action)
    requires Reachable(s)
    ensures Reachable(Apply(s, a))
  {
    var actions :| s == Exec(INITIAL, actions);
    assert (actions + [a])[..|actions|] == actions;
    assert Apply(s, a) == Exec(INITIAL, actions + [a]);
  }

  lemma ReachableInitially()
    ensures Reachable(INITIAL)
  {
    assert INITIAL == Exec(INITIAL, []);
  }

  const NAME := "run"
  const RUN_UID := "run-uid"
  const CONFIG_UID := "config-uid"

  /** Nothing but runs so far. */
  predicate NoConfigYet(s: State) {
    s.config.None? && CONFIG_UID !in s.usedUids
  }

  const PLAN := Spec("", "", false, false, None)

  /** A run just created. */
  lemma Created() returns (s: State)
    ensures Reachable(s) && NAME in s.runs && NoConfigYet(s)
    ensures s.runs[NAME] == NewRun(NAME, RUN_UID, PLAN, "", false).(version := s.runs[NAME].version)
  {
    ReachableInitially();
    var create := CreateRun(NAME, RUN_UID, PLAN, "", false);
    ReachableStep(INITIAL, create);
    s := Apply(INITIAL, create);
  }

  /** ... and its analysis, which found nothing to do. */
  lemma Analysed() returns (s: State)
    ensures Reachable(s) && NAME in s.runs && NoConfigYet(s)
    ensures var r := s.runs[NAME];
            && r == NewRun(NAME, RUN_UID, PLAN, "", false).(version := r.version, conditions := r.conditions, stages := r.stages)
            && r.conditions.Keys == {Analyzed} && HoldsFor(r.conditions, Analyzed, True, NoActionRequired)
            && r.conditions[Analyzed].observedGeneration == 1
  {
    hide Apply, Exec, Reachable;
    var created := Created();
    var started := Written(created, StartAnalysis);
    assert started.runs[NAME].conditions.Keys == {Analyzed};
    s := Written(started, LinkResult(Analysis, ResultRef("result", true), NO_TOKENS, True, true));
  }

  /** An advisory run whose analysis found nothing to do, its end recorded, labelled for retention. */
  lemma CompletedAndLabelled() returns (s: State)
    ensures Reachable(s) && NAME in s.runs && NoConfigYet(s)
    ensures var r := s.runs[NAME];
            && r.terminalTime == Some(Persist(s.clock)) && r.deleteAfter.Some?
            && r.conditions.Keys == {Analyzed} && r.conditions[Analyzed].status == True
            && r.conditions[Analyzed].reason == NoActionRequired && r.conditions[Analyzed].observedGeneration == 1
            && r.generation == 1 && r.ttlLabel == "true" && r.spec == PLAN && r.name == NAME
  {
    hide Apply, Exec, Reachable;
    var done := Analysed();
    var stamped := Written(done, StampTerminal(1));
    s := Written(stamped, LabelTerminal);
  }

  /** An enabled write of the stored copy takes effect. */
  lemma Written(s: State, w: Write) returns (t: State)
    requires Reachable(s) && NAME in s.runs && Enabled(s.runs[NAME], w)
    ensures Reachable(t) && NAME in t.runs
    ensures t.runs[NAME] == Updated(s.runs[NAME], w, s.clock).(version := s.nextVersion)
    ensures s.log <= t.log && t.refreshed == s.refreshed && t.config == s.config && t.usedUids == s.usedUids && t.clock == s.clock
  {
    hide Later, History, VersionsUnique, ConfigInv, SafetyInv, Reachable, Enabled, Updated, RunWellFormed;
    ReachableInv(s);
    t := Apply(s, PatchRun(s.runs[NAME], w));
    ReachableStep(s, PatchRun(s.runs[NAME], w));
  }

  /** Someone asks for a revision of it. */
  lemma RevisionRequested() returns (s: State)
    ensures Reachable(s) && NAME in s.runs && s.runs[NAME] in s.log && NoConfigYet(s)
    ensures var r := s.runs[NAME];
            && r.conditions.Keys == {Analyzed} && r.ttlLabel == "true" && r.name == NAME
            && RevisionRouted(r) && !HasAcceptedStop(r.conditions) && Terminal(r)
            && r.terminalTime == Some(Persist(s.clock))
  {
    var before := CompletedAndLabelled();
    ReachableStep(before, EditSpec(NAME, "try again", None));
    s := Apply(before, EditSpec(NAME, "try again", None));
  }

  /** The administrator turns the kill switch on and the activation is accepted. */
  lemma SwitchedOn(s: State) returns (t: State)
    requires Reachable(s) && NoConfigYet(s)
    ensures Reachable(t) && t.runs == s.runs && t.log == s.log && t.clock == s.clock
    ensures t.config.Some? && Suspended in t.config.value.conditions
    ensures t.config.value.conditions[Suspended].lastTransition == Persist(s.clock)
    ensures t.config.Some? && t.config.value.suspended && CurrentActivation(t.config.value)
  {
    hide Enabled, Updated, RunWellFormed, HasAcceptedStop, RevisionRouted, PassSound, RunsInv;
    var create := CreateConfig(CONFIG_UID, true);
    ReachableStep(s, create);
    var created := Apply(s, create);
    var activate := PatchConfig(created.config.value, Activate);
    ReachableStep(created, activate);
    t := Apply(created, activate);
    ReachableInv(s);
    assert Persist(s.clock) > NO_TIME;
  }

  lemma AcceptedIsPending(r: Run, start: int, now: int)
    requires r.conditions.Keys == {Analyzed} && Terminal(r) && !HasAcceptedStop(r.conditions)
    ensures var after := Updated(r, AcceptStopGlobally(start), now);
            after.conditions.Keys == {Analyzed, StopProgress} && TerminalStopIntent(after.conditions) &&
            !HasFinalStopOutcome(after.conditions)
  {
    var cs := Updated(r, AcceptStopGlobally(start), now).conditions;
    assert forall t :: t in cs ==> t == Analyzed || t == StopProgress;
    assert DerivePhase(cs) == DerivePhase(r.conditions);
  }

  lemma FailedKeepsPhase(r: Run, now: int)
    requires r.conditions.Keys == {Analyzed, StopProgress} && TerminalStopIntent(r.conditions)
    ensures var after := Updated(r, StopOutcome(false), now);
            after.conditions.Keys == {Analyzed, StopProgress} && HoldsFor(after.conditions, StopProgress, False, TeardownFailed)
  {
  }

  /** The start of the activation in force. */
  function StartOf(s: State): int
    requires s.config.Some? && Suspended in s.config.value.conditions
  {
    s.config.value.conditions[Suspended].lastTransition
  }

  /** The kill switch is turned on within the second in which the run ended, so that the run is
      affected; it has the run accept the stop and records how that went. */
  lemma StoppedMeanwhile(s: State) returns (t: State)
    requires Reachable(s) && NAME in s.runs && NoConfigYet(s) && s.runs[NAME].terminalTime == Some(Persist(s.clock))
    requires s.runs[NAME].conditions.Keys == {Analyzed} && Terminal(s.runs[NAME])
    requires !HasAcceptedStop(s.runs[NAME].conditions)
    ensures Reachable(t) && NAME in t.runs && s.log <= t.log
    ensures t.config.Some? && t.config.value.suspended && CurrentActivation(t.config.value)
    ensures Affected(s.runs[NAME], StartOf(t))
    ensures t.runs[NAME].conditions.Keys == {Analyzed, StopProgress}
    ensures HoldsFor(t.runs[NAME].conditions, StopProgress, False, TeardownFailed)
    ensures t.runs[NAME].ttlLabel == s.runs[NAME].ttlLabel && t.runs[NAME].name == s.runs[NAME].name
    ensures t.runs[NAME].uid == s.runs[NAME].uid
  {
    hide Apply, Exec, Reachable;
    var on := SwitchedOn(s);
    var start := on.config.value.conditions[Suspended].lastTransition;
    var accepted := Written(on, AcceptStopGlobally(start));
    AcceptedIsPending(s.runs[NAME], start, on.clock);
    t := Written(accepted, StopOutcome(false));
    FailedKeepsPhase(accepted.runs[NAME], accepted.clock);
  }

  /** A controller reads the labelled run and decides to revise it; the stop lands before its
      label patch, whose response then hides that anything happened. */
  lemma StoppedRunIsRevised() returns (s: State, marked: Run)
    ensures Reachable(s) && NAME in s.runs && s.config.Some? && Suspended in s.config.value.conditions
    ensures marked in s.log && marked.uid == s.runs[NAME].uid && !HasAcceptedStop(marked.conditions)
    ensures marked.ttlLabel == "true" && marked.terminalTime.Some? && Affected(marked, StartOf(s))
    ensures HasFinalStopOutcome(s.runs[NAME].conditions)
    ensures DerivePhase(s.runs[NAME].conditions) == Analyzing
  {
    var requested := RevisionRequested();
    var read := requested.runs[NAME];
    marked := read;
    var stopped := StoppedMeanwhile(requested);
    s := RevisedThroughLabel(stopped, read);
  }

  lemma RevisedThroughLabel(s: State, read: Run) returns (t: State)
    requires Reachable(s) && NAME in s.runs && s.runs[NAME].ttlLabel == "true" && s.runs[NAME].name == NAME
    requires read in s.log && read.name == NAME && read.ttlLabel == "true"
    requires RevisionRouted(read) && !HasAcceptedStop(read.conditions)
    ensures Reachable(t) && NAME in t.runs
    ensures t.runs[NAME].conditions == Revised(s.runs[NAME], s.clock).conditions
    ensures t.runs[NAME].name == NAME && t.runs[NAME].uid == s.runs[NAME].uid
    ensures t.runs[NAME].terminalTime.None? && t.runs[NAME].deleteAfter.None? && s.log <= t.log && t.clock == s.clock && t.config == s.config
  {
    ReachableStep(s, ClearTtlLabel(read));
    var u := Apply(s, ClearTtlLabel(read));
    var copy := u.runs[NAME];
    assert copy in u.refreshed;
    ReachableStep(u, ReviseRefreshed(copy));
    t := Apply(u, ReviseRefreshed(copy));
  }
}
