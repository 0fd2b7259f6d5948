/** Two histories in which retention goes wrong: a label without a deadline, and the removal of
    a run that is being worked on. */
module RetentionRaces {
  import opened Conditions
  import opened Runs
  import opened RunWrites
  import opened Machine
  import opened Expiry
  import opened KillSwitch
  import opened RevisionRace
  import opened TerminalRecords

  /** An advisory run that finished with nothing to do, its deadline one day away. */
  lemma Stamped() returns (s: State)
    ensures Reachable(s) && NAME in s.runs && s.runs[NAME].name == NAME && s.runs[NAME] in s.log
    ensures var r := s.runs[NAME];
            && r.conditions.Keys == {Analyzed} && HoldsFor(r.conditions, Analyzed, True, NoActionRequired)
            && r.conditions[Analyzed].observedGeneration == 1 && r.generation == 1 && r.spec == PLAN
            && r.ttlLabel == "" && r.terminalTime.Some? && r.deleteAfter == Some(Persist(s.clock + DAY)) && !r.preserve
  {
    hide Apply, Exec, Reachable;
    var done := Analysed();
    s := Written(done, StampTerminal(1));
    LoggedNow(s);
  }

  lemma LoggedNow(s: State)
    requires Reachable(s) && NAME in s.runs
    ensures s.runs[NAME] in s.log
  {
    ReachableInv(s);
  }

  /** Someone asks for a revision; nothing else about the run changes. */
  lemma Asked(s: State) returns (t: State)
    requires Reachable(s) && NAME in s.runs && s.runs[NAME].name == NAME
    ensures Reachable(t) && NAME in t.runs && s.log <= t.log && t.clock == s.clock
    ensures var r, after := s.runs[NAME], t.runs[NAME];
            && after == r.(spec := r.spec.(revisionFeedback := "try again", terminalTtl := None),
                           generation := r.generation + 1, version := after.version)
            && after in t.log
  {
    var edit := EditSpec(NAME, "try again", None);
    ReachableStep(s, edit);
    t := Apply(s, edit);
  }

  /** One reconcile stamps the deadline; another, running beside it, revises the run; the first
      reads the run again and labels what it finds. */
  lemma LabelledWithoutDeadline() returns (s: State)
    ensures Reachable(s) && NAME in s.runs
    ensures s.runs[NAME].ttlLabel == "true" && s.runs[NAME].terminalTime.None? && s.runs[NAME].deleteAfter.None?
    ensures !Terminal(s.runs[NAME])
  {
    hide Apply, Exec, Reachable;
    var stamped := Stamped();
    var asked := Asked(stamped);
    var revised := Written(asked, Revise);
    s := Written(revised, LabelTerminal);
  }

  /** A sweep that listed the run before it was revised finds its copy expired, and its delete,
      which names the run only, removes a run under analysis. */
  lemma RevisedRunIsSwept() returns (s: State, copy: Run)
    ensures Reachable(s) && copy in s.log && copy.ttlLabel == "true" && Expired(copy, s.clock)
    ensures Stored(s, copy.name, copy.uid) && s.runs[copy.name].deleteAfter.None? && !Terminal(s.runs[copy.name])
    ensures copy.name !in Apply(s, DeleteRun(copy.name)).runs
  {
    hide Apply, Exec, Reachable, LaterState, Later, Inv;
    var stamped := Stamped();
    var labelled := Written(stamped, LabelTerminal);
    copy := labelled.runs[NAME];
    LoggedNow(labelled);
    var late := OneDayLater(labelled);
    var asked := Asked(late);
    s := RevisedThroughLabel(asked, asked.runs[NAME]);
    Gone(s, copy.name);
  }

  lemma OneDayLater(s: State) returns (t: State)
    requires Reachable(s)
    ensures Reachable(t) && t == s.(clock := s.clock + DAY)
  {
    ReachableStep(s, Tick(DAY));
    t := Apply(s, Tick(DAY));
  }

  lemma Gone(s: State, name: string)
    ensures name !in Apply(s, DeleteRun(name)).runs
  {
  }
}
