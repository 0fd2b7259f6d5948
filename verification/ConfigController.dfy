/** The global kill switch's controller: it accepts an activation, has every affected run
    accept a stop, cleans up, and records the outcome only while the activation stands. */
module ConfigController {
  import opened Conditions
  import opened Runs
  import opened RunWrites
  import opened Configs
  import opened Machine
  import opened ApiServers
  import opened ObjectStores
  import opened CleanupRequests
  import opened Inventories
  import opened CleanupPlanning
  import opened Cleanup
  import opened RunController
  import opened Vocabulary
  import Objects

  const STATUS_PATCH_ATTEMPTS := 3

  // ---------------------------------------------------------------------------
  // Accepting and leaving an activation
  // ---------------------------------------------------------------------------

  /** An activation to work on, no suspension to work on, or an error. */
  datatype Acceptance = Active(config: Config, start: int, newly: bool) | Inactive(found: Option<Config>) | Refused

  function ActivationOf(c: Config, start: int): Activation {
    Activation(c.uid, c.generation, start)
  }

  lemma CurrentMatches(c: Config)
    requires c.suspended && CurrentActivation(c)
    ensures ActivationMatches(c, ActivationOf(c, c.conditions[Suspended].lastTransition))
  {
  }

  lemma LoggedConfig(st: State, c: Config)
    requires Inv(st) && c in st.configLog
    ensures c.uid != NO_UID
    ensures Suspended in c.conditions ==> c.conditions[Suspended].lastTransition == Persist(c.conditions[Suspended].lastTransition)
  {
    assert ConfigWellFormed(c);
  }

  /** Makes sure the suspension in force is accepted, with a start of its own. */
  method EnsureActivationStatus(api: ApiServer) returns (r: Acceptance)
    requires api.Valid()
    modifies api
    ensures api.Valid() && LaterState(old(api.st), api.st) && api.issued == old(api.issued)
    ensures r.Active? ==>
              && r.config in api.st.configLog && r.config.uid != NO_UID && api.st.config == Some(r.config)
              && ActivationMatches(r.config, ActivationOf(r.config, r.start))
              && r.start != NO_TIME && r.start == Persist(r.start) && !NeedsSafetyCondition(r.config)
    ensures r.Inactive? ==> NotSuspended(api.st) && r.found == api.st.config
    ensures old(api.setbacks) <= api.setbacks && (r.Refused? ==> old(api.setbacks) < api.setbacks)
  {
    hide Inv, LaterState, ConfigUpdated, ConfigWellFormed, ConfigEnabled;
    LaterStateReflexive(api.st);
    for i := 0 to STATUS_PATCH_ATTEMPTS
      invariant api.Valid() && LaterState(old(api.st), api.st) && api.issued == old(api.issued)
      invariant old(api.setbacks) + i <= api.setbacks
    {
      ghost var before := api.st;
      var got := api.GetConfig();
      ghost var read := api.st;
      LaterStateTransitive(old(api.st), before, read);
      if got.Missing? {
        return Inactive(None);
      }
      if got.Unreachable? {
        return Refused;
      }
      var current := got.value;
      LoggedConfig(read, current);
      if !current.suspended {
        return Inactive(Some(current));
      }
      if CurrentActivation(current) && !NeedsSafetyCondition(current) {
        CurrentMatches(current);
        return Active(current, current.conditions[Suspended].lastTransition, false);
      }
      var newly := !CurrentActivation(current);
      var w := if newly then Activate else RefreshSafety;
      AcceptanceIsEnabled(current);
      var reply := api.PatchConfig(current, w);
      LaterStateTransitive(old(api.st), read, api.st);
      match reply {
        case Conflict =>
        case PatchFailed => return Refused;
        case Patched(after) =>
          ClockRuns(api.st);
          AcceptanceMatches(current, w, after, api.st);
          LoggedConfig(api.st, after);
          return Active(after, after.conditions[Suspended].lastTransition, newly);
      }
    }
    return Refused;
  }

  lemma ClockRuns(st: State)
    requires Inv(st)
    ensures st.clock >= SECOND
  {
  }

  lemma AcceptanceIsEnabled(c: Config)
    requires c.suspended && !(CurrentActivation(c) && !NeedsSafetyCondition(c))
    ensures ConfigEnabled(c, if CurrentActivation(c) then RefreshSafety else Activate)
  {
  }

  lemma AcceptanceMatches(c: Config, w: ConfigWrite, after: Config, st: State)
    requires c.suspended && st.clock >= SECOND
    requires w == (if CurrentActivation(c) then RefreshSafety else Activate) && ConfigEnabled(c, w)
    requires after == ConfigUpdated(c, w, st.clock).(version := after.version)
    ensures after.uid == c.uid && after.suspended && CurrentActivation(after) && !NeedsSafetyCondition(after)
    ensures ActivationMatches(after, ActivationOf(after, after.conditions[Suspended].lastTransition))
  {
    if w == Activate {
      ActivationSurvivesStorage(c, st.clock);
    }
  }

  /** Requeue: the switch was found on again. */
  datatype Leaving = Left | Requeue | Stuck

  /** Reports the switch as off, and says so of the generation that turned it off. */
  method HandleDeactivation(api: ApiServer) returns (r: Leaving)
    requires api.Valid()
    modifies api
    ensures api.Valid() && LaterState(old(api.st), api.st) && api.issued == old(api.issued)
    ensures r.Left? ==> api.st.config.None? || OffReported(api.st.config.value)
    ensures r.Requeue? ==> SuspendedSince(old(api.st), api.st)
    ensures old(api.setbacks) <= api.setbacks && (r.Stuck? ==> old(api.setbacks) < api.setbacks)
  {
    hide Inv, LaterState, ConfigWellFormed;
    LaterStateReflexive(api.st);
    for i := 0 to STATUS_PATCH_ATTEMPTS
      invariant api.Valid() && LaterState(old(api.st), api.st) && api.issued == old(api.issued)
      invariant old(api.setbacks) + i <= api.setbacks
    {
      ghost var before := api.st;
      var got := api.GetConfig();
      ghost var read := api.st;
      LaterStateTransitive(old(api.st), before, read);
      if got.Missing? {
        return Left;
      }
      if got.Unreachable? {
        return Stuck;
      }
      var current := got.value;
      if current.suspended {
        LaterStateReflexive(read);
        OnSince(old(api.st), read, read);
        return Requeue;
      }
      if Suspended !in current.conditions {
        return Left;
      }
      if current.conditions[Suspended].status != True && current.conditions[Suspended].observedGeneration == current.generation {
        return Left;
      }
      var reply := api.PatchConfig(current, Deactivate);
      LaterStateTransitive(old(api.st), read, api.st);
      match reply {
        case Conflict =>
        case PatchFailed => return Stuck;
        case Patched(after) => return Left;
      }
    }
    return Stuck;
  }

  /** In some state between s and t the switch was on. */
  ghost predicate SuspendedSince(s: State, t: State) {
    exists m :: Inv(m) && LaterState(s, m) && LaterState(m, t) && !NotSuspended(m)
  }

  lemma OnEarlier(s: State, from: State, t: State)
    requires LaterState(s, from) && SuspendedSince(from, t)
    ensures SuspendedSince(s, t)
  {
    hide Inv, LaterState, NotSuspended;
    var m :| Inv(m) && LaterState(from, m) && LaterState(m, t) && !NotSuspended(m);
    LaterStateTransitive(s, from, m);
  }

  lemma OnSince(s: State, m: State, t: State)
    requires Inv(m) && LaterState(s, m) && LaterState(m, t) && !NotSuspended(m)
    ensures SuspendedSince(s, t)
  {
  }

  /** The switch is off, and the status does not claim otherwise for this generation. */
  predicate OffReported(c: Config) {
    !c.suspended &&
    (Suspended in c.conditions ==> ObservedNow(c, Suspended) && c.conditions[Suspended].status != True)
  }

  // ---------------------------------------------------------------------------
  // Run stop acceptance
  // ---------------------------------------------------------------------------

  datatype Marking = Marked(run: Run) | Disappeared | PassSuperseded | NotMarked

  /** Has one listed run accept the stop, as long as the activation stands. */
  method PersistRunStop(api: ApiServer, snapshot: Run, a: Activation) returns (r: Marking)
    requires api.Valid() && snapshot in api.st.log && snapshot.uid in api.st.usedUids
    modifies api
    ensures api.Valid() && LaterState(old(api.st), api.st)
    ensures IssuedOnly(old(api.issued), api.issued, {AcceptStopGlobally(a.start)})
    ensures r.Marked? ==>
              r.run in api.st.log && r.run.uid == snapshot.uid && r.run.name == snapshot.name && HasAcceptedStop(r.run.conditions)
    ensures r.Marked? ==> snapshot.version <= r.run.version
    ensures r.PassSuperseded? ==> Lapsed(old(api.st), api.st, a)
    ensures r.Disappeared? ==> WentAway(api.st, snapshot.name, snapshot.uid)
    ensures old(api.setbacks) <= api.setbacks && (r.NotMarked? ==> old(api.setbacks) < api.setbacks)
    ensures api.written == old(api.written)
    // it writes to this run only, and a stop accepted here began with the activation
    ensures forall i :: |old(api.issued)| <= i < |api.issued| ==> api.issued[i].base.uid == snapshot.uid
    ensures r.Marked? && api.issued != old(api.issued) ==> BeginsAt(r.run, a.start)
    ensures api.issued != old(api.issued) ==> MarkedFrom(api.st, snapshot.uid, a.start)
  {
    hide Inv, LaterState, Updated, HasAcceptedStop, SeenBetween, RunWellFormed, WentAway, ActivationMatches, Represents, Lapsed, BeginsAt,
      MarkedFrom;
    var name, uid := snapshot.name, snapshot.uid;
    LaterStateReflexive(api.st);
    for i := 0 to STATUS_PATCH_ATTEMPTS
      invariant api.Valid() && LaterState(old(api.st), api.st) && uid in api.st.usedUids && snapshot in api.st.log
      invariant api.issued == old(api.issued) && old(api.setbacks) + i <= api.setbacks
      invariant api.written == old(api.written)
    {
      ghost var before := api.st;
      var kept := ReadRun(api, name, uid);
      ghost var read := api.st;
      LaterStateTransitive(old(api.st), before, read);
      if kept.Gone? {
        return Disappeared;
      }
      if kept.Error? {
        return NotMarked;
      }
      var current := kept.run;
      LogKnows(before, read, current, name, uid);
      Remembered(before, read);
      if HasAcceptedStop(current.conditions) {
        NoOlder(read, snapshot, current);
        return Marked(current);
      }
      var verdict := api.RequireCurrentActivation(a);
      ghost var checked := api.st;
      LaterStateTransitive(old(api.st), read, checked);
      SpentStays(read, checked, uid);
      Remembered(read, checked);
      if verdict == Superseded {
        LapsedNow(old(api.st), checked, a);
        return PassSuperseded;
      }
      if verdict == Undecided {
        return NotMarked;
      }
      var reply := api.PatchRun(current, AcceptStopGlobally(a.start));
      LaterStateTransitive(old(api.st), checked, api.st);
      SpentStays(checked, api.st, uid);
      Remembered(checked, api.st);
      if api.issued != old(api.issued) {
        PatchedBegins(current, api.st.runs[name], a.start, api.st.clock);
        BeginsIsMarked(api.st, api.st.runs[name], a.start);
      }
      match reply {
        case Conflict =>
        case PatchFailed => return NotMarked;
        case Patched(after) =>
          NoOlder(api.st, snapshot, after);
          AcceptedIsAccepted(current, a.start, api.st.clock);
          return Marked(after);
      }
    }
    return NotMarked;
  }

  lemma NoOlder(st: State, r: Run, current: Run)
    requires Inv(st) && r in st.log && current.uid == r.uid && r.name in st.runs && st.runs[r.name] == current
    ensures r.version <= current.version
  {
  }

  /** What became of the listed runs. */
  datatype Findings = Findings(
    superseded: bool,
    unsaved: seq<string>,
    pendingOutcomes: seq<string>,
    remote: seq<string>,
    examined: set<Run>)
  {
    predicate Good() {
      unsaved == [] && remote == []
    }
  }

  /** Some version of this run showed remote execution. */
  ghost predicate RemoteSeen(st: State, r: Run) {
    exists c :: c in st.log && c.uid == r.uid && RemoteEvidence(c)
  }

  /** Some version of this run had accepted the stop and was still in progress. */
  ghost predicate OpenSeen(st: State, r: Run) {
    exists c :: c in st.log && c.uid == r.uid && HasAcceptedStop(c.conditions) && !Terminal(c) && !HasFinalStopOutcome(c.conditions)
  }

  ghost predicate SomeRemote(st: State, runs: set<Run>) {
    exists r :: r in runs && RemoteSeen(st, r)
  }

  ghost predicate SomeOpen(st: State, runs: set<Run>) {
    exists r :: r in runs && OpenSeen(st, r)
  }

  /** A run that was in progress when listed is gone, or has ended under the stop. */
  ghost predicate Ended(st: State, r: Run) {
    !Terminal(r) && Stored(st, r.name, r.uid) ==>
      exists c :: c in st.log && c.uid == r.uid && r.version <= c.version && HasAcceptedStop(c.conditions) &&
                  (Terminal(c) || HasFinalStopOutcome(c.conditions))
  }

  /** As long as every marker was saved and no outcome is pending, the runs dealt with so far
      have ended. */
  ghost predicate EndedSoFar(st: State, done: set<Run>, f: Findings) {
    f.unsaved == [] && f.pendingOutcomes == [] ==> forall r :: r in done ==> Ended(st, r)
  }

  lemma StaysEnded(s: State, t: State, done: set<Run>, f: Findings)
    requires Inv(s) && LaterState(s, t) && EndedSoFar(s, done, f) && done <= s.log
    ensures EndedSoFar(t, done, f)
  {
    hide Terminal, HasAcceptedStop, HasFinalStopOutcome, RunWellFormed, Machine.History, VersionsUnique, ConfigInv, SafetyInv;
    if f.unsaved == [] && f.pendingOutcomes == [] {
      forall r | r in done
        ensures Ended(t, r)
      {
        assert Ended(s, r);
        if !Terminal(r) && Stored(t, r.name, r.uid) {
          assert Stored(s, r.name, r.uid);
        }
      }
    }
  }

  lemma SightingsStay(s: State, t: State, runs: set<Run>)
    requires LaterState(s, t)
    ensures SomeRemote(s, runs) ==> SomeRemote(t, runs)
    ensures SomeOpen(s, runs) ==> SomeOpen(t, runs)
  {
    hide RemoteEvidence, Terminal, HasAcceptedStop, HasFinalStopOutcome;
    if r :| r in runs && RemoteSeen(s, r) {
      assert RemoteSeen(t, r);
    }
    if r :| r in runs && OpenSeen(s, r) {
      assert OpenSeen(t, r);
    }
  }

  lemma EndedExtends(st: State, done: set<Run>, f: Findings, g: Findings, r: Run)
    requires EndedSoFar(st, done, f)
    requires g.unsaved == [] && g.pendingOutcomes == [] ==> f.unsaved == [] && f.pendingOutcomes == [] && Ended(st, r)
    ensures EndedSoFar(st, done + {r}, g)
  {
    hide Ended;
  }

  /** The run is gone, was ended and recorded so before start, or has accepted the stop. */
  ghost predicate Answers(st: State, r: Run, start: int) {
    Stored(st, r.name, r.uid) ==> EndedBefore(r, start) || StopTaken(st.runs[r.name].conditions)
  }

  /** As long as every marker was saved, the runs dealt with so far have answered. */
  ghost predicate AnsweredSoFar(st: State, done: set<Run>, f: Findings, start: int) {
    f.unsaved == [] ==> forall r :: r in done ==> Answers(st, r, start)
  }

  lemma StillAnswers(s: State, t: State, r: Run, start: int)
    requires Inv(s) && Inv(t) && LaterState(s, t) && r in s.log && Answers(s, r, start)
    ensures Answers(t, r, start)
  {
    hide EndedBefore, StopTaken, HasAcceptedStop, HasFinalStopOutcome, RunWellFormed, Machine.History, VersionsUnique, ConfigInv, SafetyInv;
    if Stored(t, r.name, r.uid) && !EndedBefore(r, start) {
      assert Stored(s, r.name, r.uid);
      var before := s.runs[r.name];
      assert before in t.log;
      ObservedEarlier(t, before);
      AcceptedMeans(before);
      AcceptedMeans(t.runs[r.name]);
      StillAccepted(before, t.runs[r.name]);
    }
  }

  lemma StaysAnswered(s: State, t: State, done: set<Run>, f: Findings, start: int)
    requires Inv(s) && Inv(t) && LaterState(s, t) && AnsweredSoFar(s, done, f, start) && done <= s.log
    ensures AnsweredSoFar(t, done, f, start)
  {
    hide Inv, LaterState, Answers;
    if f.unsaved == [] {
      forall r | r in done
        ensures Answers(t, r, start)
      {
        StillAnswers(s, t, r, start);
      }
    }
  }

  lemma AcceptedAnswers(st: State, r: Run, current: Run, start: int)
    requires Inv(st) && current in st.log && current.uid == r.uid && current.name == r.name && HasAcceptedStop(current.conditions)
    ensures Answers(st, r, start)
  {
    hide EndedBefore, StopTaken, HasAcceptedStop, HasFinalStopOutcome, RunWellFormed, Machine.History, VersionsUnique, ConfigInv, SafetyInv;
    if Stored(st, r.name, r.uid) {
      ObservedEarlier(st, current);
      StillAccepted(current, st.runs[r.name]);
      AcceptedMeans(st.runs[r.name]);
    }
  }

  lemma GoneAnswers(st: State, r: Run, start: int)
    requires WentAway(st, r.name, r.uid) || EndedBefore(r, start)
    ensures Answers(st, r, start)
  {
  }

  lemma AnsweredExtends(st: State, done: set<Run>, f: Findings, g: Findings, r: Run, start: int)
    requires AnsweredSoFar(st, done, f, start) && (g.unsaved == [] ==> f.unsaved == [] && Answers(st, r, start))
    ensures AnsweredSoFar(st, done + {r}, g, start)
  {
    hide Answers;
  }

  /** As long as every marker was saved and nothing remote was seen, the part of the pass done
      so far is sound. */
  ghost predicate SoundSoFar(st: State, a: Activation, done: set<Run>, f: Findings) {
    f.Good() ==> FindingsSound(st, Pass(a, done, 0, f.examined, {}))
  }

  lemma StaysSoundSoFar(s: State, t: State, a: Activation, done: set<Run>, f: Findings)
    requires Inv(s) && Inv(t) && LaterState(s, t) && SoundSoFar(s, a, done, f)
    ensures SoundSoFar(t, a, done, f)
  {
    if f.Good() {
      FindingsStaySound(s, t, Pass(a, done, 0, f.examined, {}));
    }
  }

  /** A run that accepted the stop and was judged extends a sound pass. */
  lemma JudgedExtends(st: State, a: Activation, done: set<Run>, f: Findings, g: Findings, r: Run, current: Run)
    requires Inv(st) && SoundSoFar(st, a, done, f) && r in st.log && current in st.log && current.uid == r.uid
    requires current.name == r.name && r.version <= current.version && (Affected(r, a.start) ==> HasAcceptedStop(current.conditions))
    requires g.Good() ==> f.Good() && !RemoteEvidence(current) && g.examined == f.examined + {current}
    ensures SoundSoFar(st, a, done + {r}, g)
  {
    if g.Good() {
      if Stored(st, r.name, r.uid) && Affected(r, a.start) {
        ObservedEarlier(st, current);
        StillAccepted(current, st.runs[r.name]);
      }
      var p := Pass(a, done + {r}, 0, g.examined, {});
      forall q | q in p.listed && Stored(st, q.name, q.uid)
        ensures WasJudged(q, p.examined)
      {
        if q == r {
          assert current in p.examined;
        } else {
          var e :| e in f.examined && e.uid == q.uid && q.version <= e.version;
          assert e in p.examined;
        }
      }
    }
  }

  /** A run that is gone needs no judgement. */
  lemma GoneExtends(st: State, a: Activation, done: set<Run>, f: Findings, r: Run)
    requires SoundSoFar(st, a, done, f) && r in st.log && WentAway(st, r.name, r.uid)
    ensures SoundSoFar(st, a, done + {r}, f)
  {
  }

  lemma NothingDoneIsSound(st: State, a: Activation)
    ensures SoundSoFar(st, a, {}, Findings(false, [], [], [], {}))
  {
  }

  method ProcessRun(api: ApiServer, run: Run, a: Activation, f: Findings, ghost done: set<Run>) returns (g: Findings)
    requires api.Valid() && run in api.st.log && run.uid in api.st.usedUids && SoundSoFar(api.st, a, done, f) && !f.superseded
    requires EndedSoFar(api.st, done, f) && done <= api.st.log && AnsweredSoFar(api.st, done, f, a.start)
    modifies api
    ensures api.Valid() && LaterState(old(api.st), api.st)
    ensures g.superseded ==> Lapsed(old(api.st), api.st, a)
    ensures IssuedOnly(old(api.issued), api.issued, {AcceptStopGlobally(a.start)})
    ensures g.superseded || SoundSoFar(api.st, a, done + {run}, g)
    ensures old(api.setbacks) <= api.setbacks && (g.unsaved != f.unsaved ==> old(api.setbacks) < api.setbacks)
    ensures api.written == old(api.written)
    ensures g.superseded || EndedSoFar(api.st, done + {run}, g)
    ensures g.remote != f.remote ==> RemoteSeen(api.st, run)
    ensures g.pendingOutcomes != f.pendingOutcomes ==> OpenSeen(api.st, run)
    ensures WritesUnended(old(api.issued), api.issued, {run}, a.start)
    ensures g.superseded || AnsweredSoFar(api.st, done + {run}, g, a.start)
  {
    hide Inv, LaterState, HasAcceptedStop, HasFinalStopOutcome, RemoteEvidence, WentAway, Affected, Terminal, SoundSoFar, Lapsed,
      EndedSoFar, Ended, RemoteSeen, OpenSeen, EndedBefore, Answers, AnsweredSoFar;
    g := f;
    LaterStateReflexive(api.st);
    AffectedMeans(run, a.start);
    var current := run;
    var markerSaved := false;
    HasItsUid(api.st, run);
    if Affected(run, a.start) {
      if run.uid == NO_UID {
        g := g.(unsaved := g.unsaved + [run.name]);
      } else {
        ghost var s := api.st;
        var marking := PersistRunStop(api, run, a);
        StaysSoundSoFar(s, api.st, a, done, f);
        StaysEnded(s, api.st, done, f);
        StaysAnswered(s, api.st, done, f, a.start);
        Remembered(s, api.st);
        match marking {
          case PassSuperseded => return g.(superseded := true);
          case Disappeared =>
            GoneExtends(api.st, a, done, f, run);
            GoneHasEnded(api.st, run);
            EndedExtends(api.st, done, f, g, run);
            GoneAnswers(api.st, run, a.start);
            AnsweredExtends(api.st, done, f, g, run, a.start);
            return;
          case NotMarked => g := g.(unsaved := g.unsaved + [run.name]);
          case Marked(marked) =>
            current := marked;
            markerSaved := true;
        }
      }
    }
    if RemoteEvidence(current) {
      g := g.(remote := g.remote + [run.name]);
    }
    g := g.(examined := g.examined + {current});
    if !Terminal(run) && markerSaved && !Terminal(current) && !HasFinalStopOutcome(current.conditions) {
      g := g.(pendingOutcomes := g.pendingOutcomes + [run.name]);
    }
    SeenNow(api.st, run, current);
    if markerSaved {
      MarkedHasEnded(api.st, run, current);
      AcceptedAnswers(api.st, run, current, a.start);
    } else {
      UnmarkedHasEnded(api.st, run, a.start);
      if EndedBefore(run, a.start) {
        GoneAnswers(api.st, run, a.start);
      }
    }
    EndedExtends(api.st, done, f, g, run);
    AnsweredExtends(api.st, done, f, g, run, a.start);
    if g.Good() {
      JudgedExtends(api.st, a, done, f, g, run, current);
    } else {
      BadIsSound(api.st, a, done + {run}, g);
    }
  }

  /** Only runs that had not ended before start were written to. */
  ghost predicate WritesUnended(a: seq<Issued>, b: seq<Issued>, runs: set<Run>, start: int) {
    a <= b && forall i :: |a| <= i < |b| ==> Unended(b[i].base.uid, runs, start)
  }

  ghost predicate Unended(uid: Uid, runs: set<Run>, start: int) {
    exists r :: r in runs && r.uid == uid && !EndedBefore(r, start)
  }

  lemma WritesUnendedOn(a: seq<Issued>, b: seq<Issued>, c: seq<Issued>, runs: set<Run>, r: Run, start: int)
    requires WritesUnended(a, b, runs, start) && WritesUnended(b, c, {r}, start) && r in runs
    ensures WritesUnended(a, c, runs, start)
  {
    hide EndedBefore;
  }

  lemma GoneHasEnded(st: State, r: Run)
    requires WentAway(st, r.name, r.uid)
    ensures Ended(st, r)
  {
  }

  lemma MarkedHasEnded(st: State, r: Run, current: Run)
    requires current in st.log && current.uid == r.uid && r.version <= current.version && HasAcceptedStop(current.conditions)
    ensures Terminal(current) || HasFinalStopOutcome(current.conditions) ==> Ended(st, r)
    ensures !Terminal(current) && !HasFinalStopOutcome(current.conditions) ==> OpenSeen(st, r)
    ensures Terminal(r) ==> Ended(st, r)
  {
  }

  lemma UnmarkedHasEnded(st: State, r: Run, start: int)
    ensures Affected(r, start) || Ended(st, r)
  {
  }

  lemma SeenNow(st: State, r: Run, current: Run)
    requires current in st.log && current.uid == r.uid
    ensures RemoteEvidence(current) ==> RemoteSeen(st, r)
  {
  }

  lemma BadIsSound(st: State, a: Activation, done: set<Run>, f: Findings)
    requires !f.Good()
    ensures SoundSoFar(st, a, done, f)
  {
  }

  method ProcessRuns(api: ApiServer, runs: set<Run>, a: Activation) returns (f: Findings)
    requires api.Valid() && runs <= api.st.log
    modifies api
    ensures api.Valid() && LaterState(old(api.st), api.st)
    ensures IssuedOnly(old(api.issued), api.issued, {AcceptStopGlobally(a.start)})
    ensures f.superseded || SoundSoFar(api.st, a, runs, f)
    ensures f.superseded ==> Lapsed(old(api.st), api.st, a)
    ensures old(api.setbacks) <= api.setbacks && (f.unsaved != [] ==> old(api.setbacks) < api.setbacks)
    ensures api.written == old(api.written)
    ensures f.superseded || EndedSoFar(api.st, runs, f)
    ensures (f.remote != [] ==> SomeRemote(api.st, runs)) && (f.pendingOutcomes != [] ==> SomeOpen(api.st, runs))
    ensures WritesUnended(old(api.issued), api.issued, runs, a.start)
    ensures f.superseded || AnsweredSoFar(api.st, runs, f, a.start)
  {
    hide Inv, LaterState, SoundSoFar, Lapsed, EndedSoFar, SomeRemote, SomeOpen, RemoteSeen, OpenSeen, Unended, Answers;
    f := Findings(false, [], [], [], {});
    LaterStateReflexive(api.st);
    NothingDoneIsSound(api.st, a);
    NothingDoneHasEnded(api.st);
    var left := runs;
    assert runs - left == {};
    while left != {}
      invariant left <= runs <= api.st.log && api.Valid() && LaterState(old(api.st), api.st)
      invariant IssuedOnly(old(api.issued), api.issued, {AcceptStopGlobally(a.start)})
      invariant SoundSoFar(api.st, a, runs - left, f) && !f.superseded && api.written == old(api.written)
      invariant AnsweredSoFar(api.st, runs - left, f, a.start)
      invariant EndedSoFar(api.st, runs - left, f) && WritesUnended(old(api.issued), api.issued, runs, a.start)
      invariant (f.remote != [] ==> SomeRemote(api.st, runs)) && (f.pendingOutcomes != [] ==> SomeOpen(api.st, runs))
      invariant old(api.setbacks) <= api.setbacks && (f.unsaved != [] ==> old(api.setbacks) < api.setbacks)
      decreases |left|
    {
      var run :| run in left;
      ghost var s, done, issued := api.st, runs - left, api.issued;
      LoggedIsSpent(s, run);
      f := ProcessRun(api, run, a, f, done);
      WritesUnendedOn(old(api.issued), issued, api.issued, runs, run, a.start);
      SightingsStay(s, api.st, runs);
      SightedNow(api.st, runs, run);
      LaterStateTransitive(old(api.st), s, api.st);
      Remembered(s, api.st);
      if f.superseded {
        LaterStateReflexive(api.st);
        LapsedWithin(old(api.st), s, api.st, api.st, a);
        return;
      }
      left := left - {run};
      assert runs - left == done + {run};
    }
    assert runs - {} == runs;
  }

  lemma NothingDoneHasEnded(st: State)
    ensures EndedSoFar(st, {}, Findings(false, [], [], [], {}))
    ensures forall start :: AnsweredSoFar(st, {}, Findings(false, [], [], [], {}), start)
  {
  }

  lemma SightedNow(st: State, runs: set<Run>, r: Run)
    requires r in runs
    ensures RemoteSeen(st, r) ==> SomeRemote(st, runs)
    ensures OpenSeen(st, r) ==> SomeOpen(st, runs)
  {
  }

  lemma LoggedIsSpent(st: State, r: Run)
    requires Inv(st) && r in st.log
    ensures r.uid in st.usedUids
  {
  }

  // ---------------------------------------------------------------------------
  // The outcome
  // ---------------------------------------------------------------------------

  /** Recorded or already there; not this activation's to record; or an error. */
  datatype Recording = Recorded(config: Config) | NotOurs | NotRecorded

  /** The conditions an outcome write leaves. */
  ghost predicate HoldsOutcome(c: Config, a: Activation, e: Evidence, deadlineReached: bool) {
    && ActivationMatches(c, a) && !(deadlineReached && c.conditions[Suspended].reason == Stopping)
    && ObservedNow(c, SafeToResume) && (SafeNow(c) <==> e.Safe())
    && (c.conditions[Suspended].reason == AdminActivated ==> e.Safe() && e.pendingRunOutcomes == [])
  }

  /** A safe record rests on this pass, unless it was there already and nothing was written. */
  ghost predicate RestsOn(c: Config, e: Evidence, p: Pass, a: seq<ConfigWrite>, b: seq<ConfigWrite>) {
    e.Safe() ==> c.basis == Some(p) || b == a
  }

  /** v was the stored configuration in some state between s and t. */
  ghost predicate WasConfig(s: State, t: State, v: Config) {
    exists m :: Inv(m) && LaterState(s, m) && LaterState(m, t) && m.config == Some(v)
  }

  lemma WasConfigLonger(s: State, from: State, to: State, t: State, v: Config)
    requires LaterState(s, from) && WasConfig(from, to, v) && LaterState(to, t)
    ensures WasConfig(s, t, v)
  {
    hide Inv, LaterState;
    var m :| Inv(m) && LaterState(from, m) && LaterState(m, to) && m.config == Some(v);
    LaterStateTransitive(s, from, m);
    LaterStateTransitive(m, to, t);
  }

  /** The reason on record fits the evidence and the reason found when it was decided: errors stay;
      otherwise unsettled evidence is an error once the deadline is reached and Stopping before
      it, and settled evidence is a clean outcome. */
  ghost predicate DecidedOn(s: State, t: State, c: Config, a: Activation, e: Evidence, deadlineReached: bool) {
    exists v :: WasConfig(s, t, v) && FollowsFrom(v, c, a, e, deadlineReached)
  }

  ghost predicate FollowsFrom(v: Config, c: Config, a: Activation, e: Evidence, deadlineReached: bool) {
    ActivationMatches(v, a) && Suspended in c.conditions &&
    ReasonFits(v.conditions[Suspended].reason, c.conditions[Suspended].reason, e, deadlineReached)
  }

  lemma OutcomeFollows(c: Config, after: Config, e: Evidence, deadlineReached: bool, p: Pass, now: int)
    requires ActivationMatches(c, p.activation)
    requires after.conditions == ConfigUpdated(c, RecordOutcome(e, deadlineReached, p), now).conditions
    ensures FollowsFrom(c, after, p.activation, e, deadlineReached)
  {
    OutcomeFits(e, c.conditions[Suspended].reason, deadlineReached);
  }

  /** What was read in m was the stored configuration then. */
  lemma DecidedOnRead(s: State, m: State, t: State, v: Config, c: Config, a: Activation, e: Evidence, deadlineReached: bool)
    requires Inv(m) && LaterState(s, m) && LaterState(m, t) && m.config == Some(v) && FollowsFrom(v, c, a, e, deadlineReached)
    ensures DecidedOn(s, t, c, a, e, deadlineReached)
  {
    hide Inv, LaterState, FollowsFrom;
    assert WasConfig(s, t, v);
  }

  lemma DecidedOnLonger(s: State, from: State, t: State, c: Config, a: Activation, e: Evidence, deadlineReached: bool)
    requires LaterState(s, from) && DecidedOn(from, t, c, a, e, deadlineReached)
    ensures DecidedOn(s, t, c, a, e, deadlineReached)
  {
    hide LaterState, FollowsFrom, WasConfig;
    var v :| WasConfig(from, t, v) && FollowsFrom(v, c, a, e, deadlineReached);
    LaterStateReflexive(t);
    WasConfigLonger(s, from, t, t, v);
  }

  /** Nothing was written but this outcome of this pass. */
  ghost predicate WroteOnly(a: seq<ConfigWrite>, b: seq<ConfigWrite>, w: ConfigWrite) {
    a <= b && forall i :: |a| <= i < |b| ==> b[i] == w
  }

  lemma OutcomeHolds(c: Config, e: Evidence, deadlineReached: bool, p: Pass, now: int)
    requires ActivationMatches(c, p.activation) && p.activation.start == Persist(p.activation.start)
    ensures HoldsOutcome(ConfigUpdated(c, RecordOutcome(e, deadlineReached, p), now), p.activation, e, deadlineReached)
    ensures e.Safe() ==> ConfigUpdated(c, RecordOutcome(e, deadlineReached, p), now).basis == Some(p)
  {
  }

  /** Writes the outcome only where the activation still stands, and not when it is there
      already, text included. */
  method PatchActivationOutcome(api: ApiServer, e: Evidence, deadlineReached: bool, p: Pass, sameText: bool) returns (r: Recording)
    requires api.Valid() && p.activation.uid != NO_UID && p.activation.start == Persist(p.activation.start)
    requires e.Safe() ==> PassSound(api.st, p)
    modifies api
    ensures api.Valid() && LaterState(old(api.st), api.st) && api.issued == old(api.issued)
    ensures r.Recorded? ==> r.config in api.st.configLog && HoldsOutcome(r.config, p.activation, e, deadlineReached)
    ensures r.Recorded? ==> RestsOn(r.config, e, p, old(api.written), api.written)
    ensures WroteOnly(old(api.written), api.written, RecordOutcome(e, deadlineReached, p))
    ensures r.NotOurs? ==> Lapsed(old(api.st), api.st, p.activation)
    ensures old(api.setbacks) <= api.setbacks && (r.NotRecorded? ==> old(api.setbacks) < api.setbacks)
    ensures r.Recorded? ==> DecidedOn(old(api.st), api.st, r.config, p.activation, e, deadlineReached)
  {
    hide Inv, LaterState, PassSound, HoldsOutcome, Lapsed, DecidedOn, FollowsFrom;
    var w := RecordOutcome(e, deadlineReached, p);
    LaterStateReflexive(api.st);
    for i := 0 to STATUS_PATCH_ATTEMPTS
      invariant api.Valid() && LaterState(old(api.st), api.st) && api.issued == old(api.issued)
      invariant old(api.setbacks) + i <= api.setbacks
      invariant e.Safe() ==> PassSound(api.st, p)
      invariant api.written == old(api.written)
    {
      ghost var before := api.st;
      var got := api.GetConfig();
      ghost var read := api.st;
      LaterStateTransitive(old(api.st), before, read);
      if got.Missing? {
        LapsedNow(old(api.st), read, p.activation);
        return NotOurs;
      }
      if got.Unreachable? {
        return NotRecorded;
      }
      var current := got.value;
      if !ActivationMatches(current, p.activation) {
        LapsedNow(old(api.st), read, p.activation);
        return NotOurs;
      }
      if sameText && ConfigUpdated(current, w, NO_TIME).conditions == current.conditions {
        OutcomeHolds(current, e, deadlineReached, p, NO_TIME);
        SameConditions(current, ConfigUpdated(current, w, NO_TIME), p.activation, e, deadlineReached);
        OutcomeFollows(current, current, e, deadlineReached, p, NO_TIME);
        LaterStateReflexive(read);
        DecidedOnRead(old(api.st), read, read, current, current, p.activation, e, deadlineReached);
        return Recorded(current);
      }
      if e.Safe() {
        StillSound(before, read, p);
      }
      var reply := api.PatchConfig(current, w);
      LaterStateTransitive(old(api.st), read, api.st);
      if e.Safe() {
        StillSound(read, api.st, p);
      }
      match reply {
        case Conflict =>
        case PatchFailed => return NotRecorded;
        case Patched(after) =>
          OutcomeHolds(current, e, deadlineReached, p, api.st.clock);
          SameConditions(after, ConfigUpdated(current, w, api.st.clock), p.activation, e, deadlineReached);
          OutcomeFollows(current, after, e, deadlineReached, p, api.st.clock);
          DecidedOnRead(old(api.st), read, api.st, current, after, p.activation, e, deadlineReached);
          return Recorded(after);
      }
    }
    return NotRecorded;
  }

  lemma SameConditions(c: Config, d: Config, a: Activation, e: Evidence, deadlineReached: bool)
    requires HoldsOutcome(d, a, e, deadlineReached)
    requires c.conditions == d.conditions && c.uid == d.uid && c.generation == d.generation && c.suspended == d.suspended
    ensures HoldsOutcome(c, a, e, deadlineReached)
  {
  }

  // ---------------------------------------------------------------------------
  // One pass
  // ---------------------------------------------------------------------------

  /** Lists the runs and has every affected one accept the stop, if the activation, represented
      by the stored version since, still stands. at is the state it listed, and asOf the first
      version not yet stored there. */
  method MarkRuns(api: ApiServer, a: Activation, ghost since: Config)
    returns (runs: set<Run>, asOf: nat, f: Findings, inventoryFailed: bool, ghost at: State)
    requires api.Valid() && since in api.st.configLog && ActivationMatches(since, a)
    modifies api
    ensures api.Valid() && LaterState(old(api.st), api.st)
    ensures IssuedOnly(old(api.issued), api.issued, {AcceptStopGlobally(a.start)})
    ensures Inv(at) && LaterState(old(api.st), at) && LaterState(at, api.st)
    ensures inventoryFailed || (runs == at.runs.Values && asOf == at.nextVersion && AcceptedBefore(at, a, asOf))
    ensures f.superseded || inventoryFailed || SoundSoFar(api.st, a, runs, f)
    ensures f.superseded ==> Lapsed(old(api.st), api.st, a)
    ensures old(api.setbacks) <= api.setbacks && (inventoryFailed || f.unsaved != [] ==> old(api.setbacks) < api.setbacks)
    ensures api.written == old(api.written)
    ensures f.superseded || inventoryFailed || EndedSoFar(api.st, runs, f)
    ensures runs <= api.st.log
    ensures (f.remote != [] ==> SomeRemote(api.st, runs)) && (f.pendingOutcomes != [] ==> SomeOpen(api.st, runs))
    // no run that had ended before is written to, and unless some marker could not be saved all others have accepted
    ensures LeavesEnded(old(api.issued), api.issued, at, a.start)
    ensures f.superseded || inventoryFailed || f.unsaved != [] || AllAnswer(at, api.st, a.start)
    ensures inventoryFailed ==> f.unsaved == [] && f.remote == [] && f.pendingOutcomes == []
  {
    hide Inv, LaterState, SoundSoFar, ActivationMatches, Represents, Lapsed, AcceptedBefore, EndedSoFar, SomeRemote, SomeOpen, WritesUnended,
      AnsweredSoFar, AllAnswer;
    ghost var s0 := api.st;
    f := Findings(false, [], [], [], {});
    var listed := api.ListRuns();
    ghost var s1 := api.st;
    at, asOf := s1, api.st.nextVersion;
    LaterStateReflexive(s1);
    if !listed.Got? {
      return {}, asOf, f, true, at;
    }
    Remembered(s0, s1);
    AcceptedByNow(s1, a, since);
    runs := listed.value;
    var verdict := api.RequireCurrentActivation(a);
    ghost var s2 := api.st;
    LaterStateTransitive(s0, s1, s2);
    Remembered(s1, s2);
    if verdict == Superseded {
      LapsedNow(s0, s2, a);
      return runs, asOf, f.(superseded := true), false, at;
    }
    if verdict == Undecided {
      return runs, asOf, f, true, at;
    }
    f := ProcessRuns(api, runs, a);
    EndedAreLeft(old(api.issued), api.issued, s1, a.start);
    if !f.superseded && f.unsaved == [] {
      AllListedAnswer(s1, api.st, f, a.start);
    }
    Remembered(s2, api.st);
    LaterStateTransitive(s0, s2, api.st);
    LaterStateTransitive(s1, s2, api.st);
    if f.superseded {
      LaterStateReflexive(api.st);
      LapsedWithin(s0, s2, api.st, api.st, a);
    }
    inventoryFailed := false;
  }

  /** No run stored at the listing as ended, and recorded so before start, is written to. */
  ghost predicate LeavesEnded(a: seq<Issued>, b: seq<Issued>, at: State, start: int) {
    forall i, n :: |a| <= i < |b| && n in at.runs && EndedBefore(at.runs[n], start) ==> b[i].base.uid != at.runs[n].uid
  }

  /** Every run stored at the listing is gone, was ended and recorded so before start, or has
      accepted the stop. */
  ghost predicate AllAnswer(at: State, st: State, start: int) {
    forall n :: n in at.runs && Stored(st, n, at.runs[n].uid) ==> EndedBefore(at.runs[n], start) || StopTaken(st.runs[n].conditions)
  }

  lemma AllListedAnswer(at: State, st: State, f: Findings, start: int)
    requires Inv(at) && AnsweredSoFar(st, at.runs.Values, f, start) && f.unsaved == []
    ensures AllAnswer(at, st, start)
  {
    hide EndedBefore, StopTaken;
    forall n | n in at.runs && Stored(st, n, at.runs[n].uid)
      ensures EndedBefore(at.runs[n], start) || StopTaken(st.runs[n].conditions)
    {
      assert Answers(st, at.runs[n], start);
    }
  }

  lemma StillAllAnswer(at: State, s: State, t: State, start: int)
    requires Inv(at) && Inv(s) && Inv(t) && LaterState(at, s) && LaterState(s, t) && AllAnswer(at, s, start)
    ensures AllAnswer(at, t, start)
  {
    hide EndedBefore, StopTaken, RunWellFormed, Machine.History, VersionsUnique, ConfigInv, SafetyInv, HasAcceptedStop;
    forall n | n in at.runs && Stored(t, n, at.runs[n].uid)
      ensures EndedBefore(at.runs[n], start) || StopTaken(t.runs[n].conditions)
    {
      assert at.runs[n] in s.log && at.runs[n].name == n;
      assert Stored(s, n, at.runs[n].uid);
      StillAnswers(s, t, at.runs[n], start);
    }
  }

  lemma EndedAreLeft(a: seq<Issued>, b: seq<Issued>, at: State, start: int)
    requires Inv(at) && WritesUnended(a, b, at.runs.Values, start)
    ensures LeavesEnded(a, b, at, start)
  {
    hide EndedBefore, RunWellFormed, ConfigInv, SafetyInv;
    forall i, n | |a| <= i < |b| && n in at.runs && EndedBefore(at.runs[n], start)
      ensures b[i].base.uid != at.runs[n].uid
    {
      assert Unended(b[i].base.uid, at.runs.Values, start);
      var r :| r in at.runs.Values && r.uid == b[i].base.uid && !EndedBefore(r, start);
      if r.uid == at.runs[n].uid {
        OneRunPerUid(at, r, n);
      }
    }
  }

  lemma OneRunPerUid(at: State, r: Run, n: string)
    requires Inv(at) && r in at.runs.Values && n in at.runs && at.runs[n].uid == r.uid
    ensures at.runs[n] == r
  {
    var m :| m in at.runs && at.runs[m] == r;
    assert at.runs[n] in at.log && r in at.log;
    assert r.version <= at.runs[n].version <= r.version;
  }

  lemma AcceptedByNow(st: State, a: Activation, c: Config)
    requires Inv(st) && c in st.configLog && ActivationMatches(c, a)
    ensures AcceptedBefore(st, a, st.nextVersion)
  {
  }

  /** Weighs the evidence of a pass and records the outcome. */
  method Conclude(api: ApiServer, e: Evidence, p: Pass, initialWindow: bool, timedOut: bool, sameText: bool)
    returns (r: Result, recorded: Option<Config>)
    requires api.Valid() && p.activation.uid != NO_UID && p.activation.start == Persist(p.activation.start)
    requires e.Safe() ==> PassSound(api.st, p)
    modifies api
    ensures api.Valid() && LaterState(old(api.st), api.st) && api.issued == old(api.issued)
    ensures recorded.Some? ==> Records(recorded.value, e, p, old(api.st), api.st)
    ensures recorded.Some? ==> Decided(old(api.st), api.st, recorded.value, p.activation, e, timedOut)
    ensures recorded.Some? ==> RestsOn(recorded.value, e, p, old(api.written), api.written)
    ensures r.After? && recorded.None? ==> Lapsed(old(api.st), api.st, p.activation)
    ensures r.After? || r.Errored?
    ensures r.After? ==> 0 < r.delay <= REQUEUE_DELAY
    ensures r.After? && !timedOut ==>
              exists now :: old(api.st).clock <= now <= api.st.clock && r.delay == SuspensionRequeueDelay(p.activation.start, now)
    ensures old(api.setbacks) <= api.setbacks && (r == Errored ==> old(api.setbacks) < api.setbacks)
  {
    hide Inv, LaterState, PassSound, ActivationMatches, Lapsed, RestsOn, DecidedOn, Decided;
    ghost var s0 := api.st;
    var start := p.activation.start;
    var deadline := start + SUSPENSION_STOP_WINDOW;
    var now := api.Now();
    ghost var s1 := api.st;
    ClockMoves(s0, s1);
    var deadlineReached := now >= deadline || (initialWindow && timedOut);
    if deadlineReached && now < deadline {
      now := deadline;
    }
    if e.Safe() {
      StillSound(s0, s1, p);
    }
    var recording := PatchActivationOutcome(api, e, deadlineReached, p, sameText);
    LaterStateTransitive(s0, s1, api.st);
    ClockMoves(s1, api.st);
    if recording.NotRecorded? {
      return Errored, None;
    }
    if recording.NotOurs? {
      LaterStateReflexive(api.st);
      LapsedWithin(s0, s1, api.st, api.st, p.activation);
    } else {
      DecidedOnLonger(s0, s1, api.st, recording.config, p.activation, e, deadlineReached);
      IsDecided(s0, api.st, recording.config, p.activation, e, timedOut, deadlineReached);
    }
    RequeueNeverSkipsDeadline(start, now);
    return After(SuspensionRequeueDelay(start, now)), if recording.Recorded? then Some(recording.config) else None;
  }

  /** ... where the deadline is reached ten seconds after the start, by the clock read between s and
      t, or when the initial window's own deadline cut the pass short. */
  ghost predicate Decided(s: State, t: State, c: Config, a: Activation, e: Evidence, timedOut: bool) {
    exists deadlineReached :: DecidedOn(s, t, c, a, e, deadlineReached) && OnDeadline(s, t, a.start, timedOut, deadlineReached)
  }

  ghost predicate OnDeadline(s: State, t: State, start: int, timedOut: bool, deadlineReached: bool) {
    && (deadlineReached ==> timedOut || start + 10_000_000_000 <= t.clock)
    && (start + 10_000_000_000 <= s.clock ==> deadlineReached)
  }

  lemma IsDecided(s: State, t: State, c: Config, a: Activation, e: Evidence, timedOut: bool, deadlineReached: bool)
    requires DecidedOn(s, t, c, a, e, deadlineReached)
    requires deadlineReached ==> timedOut || a.start + SUSPENSION_STOP_WINDOW <= t.clock
    requires a.start + SUSPENSION_STOP_WINDOW <= s.clock ==> deadlineReached
    ensures Decided(s, t, c, a, e, timedOut)
  {
    hide DecidedOn;
    assert OnDeadline(s, t, a.start, timedOut, deadlineReached);
  }

  lemma DecidedLonger(s: State, from: State, t: State, c: Config, a: Activation, e: Evidence, timedOut: bool)
    requires LaterState(s, from) && Decided(from, t, c, a, e, timedOut)
    ensures Decided(s, t, c, a, e, timedOut)
  {
    hide DecidedOn;
    var reached :| DecidedOn(from, t, c, a, e, reached) && OnDeadline(from, t, a.start, timedOut, reached);
    DecidedOnLonger(s, from, t, c, a, e, reached);
    assert OnDeadline(s, t, a.start, timedOut, reached);
  }

  /** What a pass leaves on record between s0 and s1: an outcome of its own activation, safe
      exactly on safe evidence, clean only with no run outcome pending, and past the window no
      longer Stopping. */
  ghost predicate Records(c: Config, e: Evidence, p: Pass, s0: State, s1: State) {
    && c in s1.configLog && ActivationMatches(c, p.activation) && (SafeNow(c) <==> e.Safe())
    && (c.conditions[Suspended].reason == AdminActivated ==> e.Safe() && e.pendingRunOutcomes == [])
    && (s0.clock >= p.activation.start + SUSPENSION_STOP_WINDOW ==> c.conditions[Suspended].reason != Stopping)
  }

  /** Every run stored at the listing is by now gone, or has accepted the stop unless it was ended
      and recorded so before the activation, and was judged since with nothing remote to show. */
  ghost predicate RunsAnswered(at: State, s: State, start: int) {
    forall n :: n in at.runs && Stored(s, n, at.runs[n].uid) ==> Answered(at.runs[n], s, n, start)
  }

  ghost predicate Answered(r: Run, s: State, n: string, start: int)
    requires n in s.runs
  {
    && (EndedBefore(r, start) || StopTaken(s.runs[n].conditions))
    && exists e :: e in s.log && e.uid == r.uid && r.version <= e.version && NothingRemote(e)
  }

  /** Every run in progress at the listing is gone, or has ended under the stop. */
  ghost predicate RunsEnded(at: State, s: State) {
    forall n :: n in at.runs ==> Ended(s, at.runs[n])
  }

  lemma AllEnded(at: State, s: State, runs: set<Run>, f: Findings)
    requires EndedSoFar(s, runs, f) && f.unsaved == [] && f.pendingOutcomes == [] && runs == at.runs.Values
    ensures RunsEnded(at, s)
  {
    hide Ended;
    forall n | n in at.runs
      ensures Ended(s, at.runs[n])
    {
      assert at.runs[n] in runs;
    }
  }

  /** The pass is exactly what was read: the runs listed at that state, and the second inventory
      of each kind. */
  ghost predicate IsRead(p: Pass, at: State, mid: History, end: History, home: string) {
    p.listed == at.runs.Values && p.asOf == at.nextVersion && forall kind :: Shows(mid, end, p.inventory, kind, "", home)
  }

  lemma PassAnswersRuns(at: State, s: State, p: Pass)
    requires Inv(at) && Inv(s) && LaterState(at, s) && PassSound(s, p) && p.listed == at.runs.Values
    ensures RunsAnswered(at, s, p.activation.start)
  {
    hide Affected, HasAcceptedStop, RemoteEvidence, ConfigInv, SafetyInv, Machine.History, VersionsUnique, RunWellFormed, LaterState, ListedAll,
      EndedBefore, StopTaken, NothingRemote;
    forall n | n in at.runs && Stored(s, n, at.runs[n].uid)
      ensures Answered(at.runs[n], s, n, p.activation.start)
    {
      var r := at.runs[n];
      assert r in p.listed && r.name == n;
      var e :| e in p.examined && e.uid == r.uid && r.version <= e.version;
      AffectedMeans(r, p.activation.start);
      AcceptedMeans(s.runs[n]);
      RemoteMeans(e);
    }
  }

  /** A whole pass under one activation. timedOut: the initial window's own deadline cut a
      request of it short. recorded is what the pass wrote, if it wrote anything; at is the state
      whose runs it listed, mid is where its second inventory began, and weighed is its evidence. */
  method ReconcileSuspension(api: ApiServer, store: ObjectStore, config: Config, start: int, home: string, bareMode: bool,
                             timedOut: bool, sameText: bool)
    returns (r: Result, recorded: Option<Config>, ghost at: State, ghost mid: History, ghost weighed: Evidence)
    requires api.Valid() && store.Valid() && config.uid != NO_UID && start == Persist(start)
    requires config in api.st.configLog && ActivationMatches(config, ActivationOf(config, start))
    modifies api, store
    ensures api.Valid() && store.Valid() && LaterState(old(api.st), api.st)
    ensures IssuedOnly(old(api.issued), api.issued, {AcceptStopGlobally(start)})
    ensures Isolated(old(store.Now()), store.Now(), "")
    ensures Inv(at) && LaterState(old(api.st), at) && LaterState(at, api.st)
    ensures LeavesEnded(old(api.issued), api.issued, at, start)
    ensures recorded.Some? ==>
              && recorded.value in api.st.configLog && ActivationMatches(recorded.value, ActivationOf(config, start))
              && (old(api.st).clock >= start + SUSPENSION_STOP_WINDOW ==> recorded.value.conditions[Suspended].reason != Stopping)
    ensures recorded.Some? && SafeNow(recorded.value) ==>
              AllClear(old(store.Now()), store.Now(), "", home) && RunsAnswered(at, api.st, start)
    ensures recorded.Some? && SafeNow(recorded.value) && api.written != old(api.written) ==>
              recorded.value.basis.Some? && IsRead(recorded.value.basis.value, at, mid, store.Now(), home)
    ensures recorded.Some? && recorded.value.conditions[Suspended].reason == AdminActivated ==> RunsEnded(at, api.st)
    // the reason on record follows from the evidence, and the evidence from what was found
    ensures recorded.Some? ==> Decided(old(api.st), api.st, recorded.value, ActivationOf(config, start), weighed, timedOut)
    ensures recorded.Some? ==> (SafeNow(recorded.value) <==> !Unsettled(weighed.(pendingRunOutcomes := [])))
    ensures recorded.Some? && weighed.pendingRunOutcomes != [] ==> SomeOpen(api.st, at.runs.Values)
    ensures recorded.Some? && weighed.unverifiedRemote != [] ==> SomeRemote(api.st, at.runs.Values)
    ensures recorded.Some? && weighed.unsavedMarkers == [] && !weighed.runInventoryFailed ==> AllAnswer(at, api.st, start)
    ensures r == Done || (r.After? && recorded.None?) ==> Lapsed(old(api.st), api.st, ActivationOf(config, start))
    ensures r == Done || r.After? || r == Errored
    ensures r.After? ==> 0 < r.delay <= REQUEUE_DELAY
    ensures r.After? && !timedOut ==>
              exists now :: old(api.st).clock <= now <= api.st.clock && r.delay == SuspensionRequeueDelay(start, now)
    ensures old(api.setbacks) <= api.setbacks && (r == Errored ==> old(api.setbacks) < api.setbacks)
    ensures Cleanable(old(store.Now()), "", home, bareMode) && api.setbacks == old(api.setbacks) && recorded.Some? &&
            !SomeRemote(api.st, at.runs.Values) ==>
              SafeNow(recorded.value)
  {
    hide Inv, LaterState, SoundSoFar, Isolated, ActivationMatches, Objects.Live, SuspensionRequeueDelay, Lapsed, RunsAnswered, IsRead,
      AcceptedBefore, PassSound, Shows, OnlyRead, EndedSoFar, SomeRemote, SomeOpen, RunsEnded, Free, Served,
      WellIdentified, SafeNow, ClearSince, LeavesEnded, Decided, AllAnswer, Evidence.Safe, Unsettled,
      NothingLost, NothingRemains, PodsOverSince, WasStored, SingleController, Confirmed, Represents, EndedBefore,
      Records, RestsOn, IssuedOnly, Sound, Advanced, StoredAt;
    var a := ActivationOf(config, start);
    ghost var s0, h0 := api.st, store.Now();
    ReadingIsIsolated(h0, h0, "");
    mid, weighed := h0, Evidence(SuspensionCleanup([], [], []), false, false, [], [], []);
    var now := api.Now();
    ghost var s1 := api.st;
    Remembered(s0, s1);
    var initialWindow := now < start + SUSPENSION_STOP_WINDOW;
    var runs, asOf, f, inventoryFailed, at' := MarkRuns(api, a, config);
    ghost var s2 := api.st;
    at := at';
    LaterStateTransitive(s0, s1, at);
    LaterStateTransitive(s0, s1, s2);
    if f.superseded {
      LaterStateReflexive(s2);
      LapsedWithin(s0, s1, s2, s2, a);
      return Done, None, at, mid, weighed;
    }
    var outcome;
    outcome, mid := CleanupSuspension(store, api, "", home, bareMode, Some(a));
    ghost var s3 := api.st;
    LaterStateTransitive(s0, s2, s3);
    LaterStateTransitive(at, s2, s3);
    if outcome.Overtaken? {
      LaterStateReflexive(s3);
      LapsedWithin(s0, s2, s3, s3, a);
      return Done, None, at, mid, weighed;
    }
    var e := Evidence(outcome.cleanup, outcome.failed, inventoryFailed, f.unsaved, f.pendingOutcomes, f.remote);
    weighed := e;
    SafetyMeans(e);
    SafeOnConfirmation(outcome, inventoryFailed, f);
    var p := Pass(a, runs, asOf, f.examined, outcome.inventory);
    if e.Safe() {
      StaysSoundSoFar(s2, s3, a, runs, f);
      ReadIsSound(at, s3, p, f);
      StaysEnded(s2, s3, runs, f);
      Remembered(s2, s3);
      ReadsAll(p, at, mid, store.Now(), home);
    }
    if f.unsaved == [] && !inventoryFailed {
      StillAllAnswer(at, s2, s3, start);
    }
    SightingsStay(s2, s3, runs);
    ClockMoves(s0, s3);
    r, recorded := Conclude(api, e, p, initialWindow, timedOut, sameText);
    LaterStateTransitive(s0, s3, api.st);
    LaterStateTransitive(at, s3, api.st);
    SightingsStay(s3, api.st, runs);
    if recorded.Some? {
      PassOnRecord(at, s0, s3, api.st, recorded.value, e, p, f, mid, store.Now(), home, timedOut, old(api.written), api.written);
    }
    if r.After? && recorded.None? {
      LaterStateReflexive(api.st);
      LapsedWithin(s0, s3, api.st, api.st, a);
    }
  }

  /** What a safe pass established about runs, once its outcome has been written. */
  lemma SafePassHolds(at: State, s: State, t: State, p: Pass, f: Findings)
    requires Inv(at) && Inv(s) && Inv(t) && LaterState(at, s) && LaterState(s, t) && LaterState(at, t) && PassSound(s, p)
    requires p.listed == at.runs.Values && p.listed <= s.log && EndedSoFar(s, p.listed, f) && f.unsaved == []
    ensures RunsAnswered(at, t, p.activation.start)
    ensures f.pendingOutcomes == [] ==> RunsEnded(at, t)
  {
    hide Inv, LaterState, PassSound, EndedSoFar, RunsAnswered, RunsEnded;
    StillSound(s, t, p);
    PassAnswersRuns(at, t, p);
    StaysEnded(s, t, p.listed, f);
    if f.pendingOutcomes == [] {
      AllEnded(at, t, p.listed, f);
    }
  }

  lemma SafeOnConfirmation(outcome: Outcome, inventoryFailed: bool, f: Findings)
    requires outcome.Passed?
    ensures Evidence(outcome.cleanup, outcome.failed, inventoryFailed, f.unsaved, f.pendingOutcomes, f.remote).Safe() <==>
              Confirmed(outcome) && !inventoryFailed && f.unsaved == [] && f.remote == []
  {
  }

  /** What an outcome on record says of the pass, when the pass is over. */
  lemma PassOnRecord(at: State, s0: State, s: State, t: State, c: Config, e: Evidence, p: Pass, f: Findings, mid: History, end: History,
                     home: string, timedOut: bool, before: seq<ConfigWrite>, after: seq<ConfigWrite>)
    requires Inv(at) && Inv(s) && Inv(t) && LaterState(at, s) && LaterState(s0, s) && LaterState(s, t) && LaterState(at, t)
    requires Records(c, e, p, s, t) && RestsOn(c, e, p, before, after) && Decided(s, t, c, p.activation, e, timedOut)
    requires e.Safe() ==> PassSound(s, p) && IsRead(p, at, mid, end, home) && p.listed <= s.log && EndedSoFar(s, p.listed, f) && f.unsaved == []
    requires e.pendingRunOutcomes == f.pendingOutcomes && e.unsavedMarkers == f.unsaved
    requires e.unsavedMarkers == [] && !e.runInventoryFailed ==> AllAnswer(at, s, p.activation.start)
    ensures c in t.configLog && ActivationMatches(c, p.activation) && (SafeNow(c) <==> e.Safe())
    ensures SafeNow(c) ==> RunsAnswered(at, t, p.activation.start)
    ensures SafeNow(c) && after != before ==> c.basis.Some? && IsRead(c.basis.value, at, mid, end, home)
    ensures c.conditions[Suspended].reason == AdminActivated ==> RunsEnded(at, t)
    ensures s0.clock >= p.activation.start + SUSPENSION_STOP_WINDOW ==> c.conditions[Suspended].reason != Stopping
    ensures Decided(s0, t, c, p.activation, e, timedOut)
    ensures e.unsavedMarkers == [] && !e.runInventoryFailed ==> AllAnswer(at, t, p.activation.start)
  {
    hide Inv, PassSound, Evidence.Safe, EndedSoFar, RunsAnswered, RunsEnded, AllAnswer, Decided, Shows, SafeNow;
    DecidedLonger(s0, s, t, c, p.activation, e, timedOut);
    if e.unsavedMarkers == [] && !e.runInventoryFailed {
      StillAllAnswer(at, s, t, p.activation.start);
    }
    if e.Safe() {
      SafePassHolds(at, s, t, p, f);
    }
  }

  lemma ReadsAll(p: Pass, at: State, mid: History, end: History, home: string)
    requires p.listed == at.runs.Values && p.asOf == at.nextVersion && forall kind :: Shows(mid, end, p.inventory, kind, "", home)
    ensures IsRead(p, at, mid, end, home)
  {
  }

  lemma ReadIsSound(at: State, s: State, p: Pass, f: Findings)
    requires Inv(at) && LaterState(at, s) && SoundSoFar(s, p.activation, p.listed, f) && f.Good()
    requires p.listed == at.runs.Values && p.asOf == at.nextVersion && AcceptedBefore(at, p.activation, p.asOf)
    requires p.examined == f.examined && forall o :: o in p.inventory ==> !Objects.Live(o, "")
    ensures PassSound(s, p)
  {
    hide LaterState, AcceptedBefore;
    assert FindingsSound(s, Pass(p.activation, p.listed, 0, p.examined, {}));
    ListingIsComplete(at, s, p);
  }

  /** In some state between s and t the configuration was absent or not suspended, or had stopped
      representing an activation it represented in an earlier one. */
  ghost predicate Interrupted(s: State, t: State) {
    || (exists m :: Inv(m) && LaterState(s, m) && LaterState(m, t) && NotSuspended(m))
    || (exists m, a :: Inv(m) && LaterState(s, m) && Represents(m, a) && Lapsed(m, t, a))
  }

  predicate NotSuspended(s: State) {
    s.config.None? || !s.config.value.suspended
  }

  lemma InterruptedByThen(s: State, m: State, t: State)
    requires Inv(m) && LaterState(s, m) && LaterState(m, t) && NotSuspended(m)
    ensures Interrupted(s, t)
  {
  }

  lemma InterruptedByLapse(s: State, m: State, t: State, a: Activation)
    requires Inv(m) && LaterState(s, m) && Represents(m, a) && Lapsed(m, t, a)
    ensures Interrupted(s, t)
  {
  }

  /** One reconcile of the configuration. recorded is what its pass wrote. Unless it ends in an
      error, it has recorded an outcome, or found the suspension gone or overtaken. */
  method Reconcile(api: ApiServer, store: ObjectStore, home: string, bareMode: bool, timedOut: bool, sameText: bool)
    returns (r: Result, ghost recorded: Option<Config>)
    requires api.Valid() && store.Valid()
    modifies api, store
    ensures api.Valid() && store.Valid() && LaterState(old(api.st), api.st)
    ensures Isolated(old(store.Now()), store.Now(), "")
    ensures r.After? ==> 0 < r.delay <= REQUEUE_DELAY
    ensures forall i :: |old(api.issued)| <= i < |api.issued| ==> api.issued[i].w.AcceptStopGlobally?
    ensures r != Errored && recorded.None? ==> Interrupted(old(api.st), api.st)
    ensures r == Again ==> SuspendedSince(old(api.st), api.st)
    ensures recorded.Some? ==>
              recorded.value in api.st.configLog && (SafeNow(recorded.value) ==> AllClear(old(store.Now()), store.Now(), "", home))
    ensures old(api.setbacks) <= api.setbacks && (r == Errored ==> old(api.setbacks) < api.setbacks)
  {
    hide Inv, LaterState, Isolated, ActivationMatches, Lapsed, SuspendedSince, Interrupted, RunsAnswered, IsRead, OnlyRead, AllClear, SafeNow;
    recorded := None;
    ghost var s0, h0 := api.st, store.Now();
    LaterStateReflexive(s0);
    ReadingIsIsolated(h0, h0, "");
    var got := api.GetConfig();
    ghost var s1 := api.st;
    LaterStateReflexive(s1);
    if !got.Got? {
      if got.Missing? {
        InterruptedByThen(s0, s1, s1);
      }
      return if got.Missing? then Done else Errored, None;
    }
    if !got.value.suspended {
      r := LeaveSuspension(api);
      LaterStateTransitive(s0, s1, api.st);
      if r == Again {
        OnEarlier(s0, s1, api.st);
      }
      InterruptedByThen(s0, s1, api.st);
      return;
    }
    var acceptance := EnsureActivationStatus(api);
    ghost var s2 := api.st;
    LaterStateTransitive(s0, s1, s2);
    match acceptance {
      case Refused => return Errored, None;
      case Inactive(found) =>
        LaterStateReflexive(s2);
        if found.Some? {
          r := LeaveSuspension(api);
          LaterStateTransitive(s0, s2, api.st);
          if r == Again {
            OnEarlier(s0, s2, api.st);
          }
          InterruptedByThen(s0, s2, api.st);
          return;
        }
        InterruptedByThen(s0, s2, s2);
        return After(REQUEUE_DELAY), None;
      case Active(config, start, _) =>
        var passed, written, _, _, _ := ReconcileSuspension(api, store, config, start, home, bareMode, timedOut, sameText);
        r, recorded := passed, written;
        LaterStateTransitive(s0, s2, api.st);
        if r != Errored && recorded.None? {
          InterruptedByLapse(s0, s2, api.st, ActivationOf(config, start));
        }
    }
  }

  method LeaveSuspension(api: ApiServer) returns (r: Result)
    requires api.Valid()
    modifies api
    ensures api.Valid() && LaterState(old(api.st), api.st) && api.issued == old(api.issued) && !r.After?
    ensures old(api.setbacks) <= api.setbacks && (r == Errored ==> old(api.setbacks) < api.setbacks)
    ensures r == Done ==> api.st.config.None? || OffReported(api.st.config.value)
    ensures r == Again ==> SuspendedSince(old(api.st), api.st)
  {
    hide Inv, LaterState;
    var leaving := HandleDeactivation(api);
    return if leaving.Left? then Done else if leaving.Stuck? then Errored else Again;
  }
}
