/** The run controller's part of the kill switch: accepting a stop, cleaning up after it and
    recording how it ended. */
module RunController {
  import opened Conditions
  import opened Runs
  import opened RunWrites
  import opened Configs
  import opened Machine
  import opened ApiServers
  import opened ObjectStores
  import opened CleanupRequests
  import opened Inventories
  import opened CleanupPlanning
  import opened Cleanup
  import opened Vocabulary
  import Objects

  /** What a locked read-modify-write of one run ends with: the run as read or written last,
      the run being gone, or an error. */
  datatype Attempt = Have(run: Run) | Gone | Error

  const PATCH_ATTEMPTS := 5

  // ---------------------------------------------------------------------------
  // Following one run through other clients' requests
  // ---------------------------------------------------------------------------

  /** r is this run as stored after s, by t: later than every version of it stored by s. */
  ghost predicate SeenBetween(s: State, t: State, r: Run, name: string, uid: Uid) {
    && r in t.log && r.name == name && r.uid == uid && RunWellFormed(r)
    && (forall a :: a in s.log && a.uid == uid ==> Later(a, r))
  }

  /** The run is gone for good: its UID is spent. */
  ghost predicate WentAway(st: State, name: string, uid: Uid) {
    uid in st.usedUids && !Stored(st, name, uid)
  }

  /** Between the two histories, this controller issued writes of these forms only. */
  ghost predicate IssuedOnly(a: seq<Issued>, b: seq<Issued>, allowed: set<Write>) {
    a <= b && forall i :: |a| <= i < |b| ==> b[i].w in allowed
  }

  lemma StoredIsSeen(s: State, t: State, name: string)
    requires Inv(t) && LaterState(s, t) && name in t.runs
    ensures SeenBetween(s, t, t.runs[name], name, t.runs[name].uid)
  {
    forall a | a in s.log && a.uid == t.runs[name].uid
      ensures Later(a, t.runs[name])
    {
      assert a in t.log && t.runs[name] in t.log;
    }
  }

  /** What was seen between two later states was seen since an earlier one. */
  lemma SeenSince(s: State, t: State, u: State, r: Run, name: string, uid: Uid)
    requires LaterState(s, t) && SeenBetween(t, u, r, name, uid)
    ensures SeenBetween(s, u, r, name, uid)
  {
  }

  lemma SeenLonger(s: State, t: State, u: State, r: Run, name: string, uid: Uid)
    requires SeenBetween(s, t, r, name, uid) && LaterState(t, u)
    ensures SeenBetween(s, u, r, name, uid)
  {
  }

  lemma AcceptedIsAccepted(r: Run, start: int, now: int)
    ensures HasAcceptedStop(Updated(r, AcceptStop(start), now).conditions)
    ensures HasAcceptedStop(Updated(r, AcceptStopGlobally(start), now).conditions)
  {
  }

  /** Accepting a stop records the start it is given, and nothing but it counts as that start. */
  lemma AcceptedBegins(r: Run, start: int, now: int)
    ensures Updated(r, AcceptStop(start), now).conditions ==
              r.conditions[StopProgress := Condition(True, SystemSuspended, r.generation, start)]
    ensures Updated(r, AcceptStopGlobally(start), now).conditions ==
              r.conditions[StopProgress := Condition(True, SystemSuspended, r.generation, start)]
  {
  }

  lemma MarkedLater(s: State, t: State, uid: Uid, start: int)
    requires LaterState(s, t)
    ensures MarkedFrom(s, uid, start) ==> MarkedFrom(t, uid, start)
  {
    hide StopBegunAt;
    if c :| c in s.log && c.uid == uid && StopBegunAt(c.conditions, start) {
      assert c in t.log;
    }
  }

  /** A run in which the stop begins at start, as the acceptance leaves it. */
  predicate BeginsAt(r: Run, start: int) {
    StopProgress in r.conditions && r.conditions[StopProgress] == Condition(True, SystemSuspended, r.generation, start)
  }

  lemma BeginsIsMarked(st: State, r: Run, start: int)
    requires r in st.log && BeginsAt(r, start)
    ensures MarkedFrom(st, r.uid, start)
  {
    assert StopBegunAt(r.conditions, start);
  }

  lemma PatchedBegins(base: Run, after: Run, start: int, now: int)
    requires after == Updated(base, AcceptStop(start), now).(version := after.version) ||
             after == Updated(base, AcceptStopGlobally(start), now).(version := after.version)
    ensures BeginsAt(after, start)
  {
    hide Updated;
    AcceptedBegins(base, start, now);
  }

  lemma ClearedIsClear(r: Run, now: int)
    ensures !Updated(r, ClearSandboxes, now).stages.HasSandbox()
  {
  }

  /** A run just patched, followed from the state in which its patch was decided. */
  lemma PatchedIsSeen(s: State, t: State, base: Run, after: Run)
    requires Inv(t) && LaterState(s, t) && Stored(t, base.name, base.uid) && after == t.runs[base.name]
    ensures SeenBetween(s, t, after, base.name, base.uid)
  {
    StoredIsSeen(s, t, base.name);
  }

  // ---------------------------------------------------------------------------
  // Locked writes with retries
  // ---------------------------------------------------------------------------

  /** Reads the run, and whether it still is the run asked for. */
  method ReadRun(api: ApiServer, name: string, uid: Uid) returns (r: Attempt)
    requires api.Valid() && uid in api.st.usedUids
    modifies api
    ensures api.Valid() && LaterState(old(api.st), api.st) && api.issued == old(api.issued) && api.written == old(api.written) && uid in api.st.usedUids
    ensures r.Have? ==> SeenBetween(old(api.st), api.st, r.run, name, uid) && name in api.st.runs && api.st.runs[name] == r.run
    ensures r.Gone? ==> WentAway(api.st, name, uid)
    ensures old(api.setbacks) <= api.setbacks && (r.Error? ==> old(api.setbacks) < api.setbacks)
  {
    hide Inv, SeenBetween;
    var got := api.GetRun(name);
    match got
    case Unreachable => return Error;
    case Missing => return Gone;
    case Got(current) =>
      if current.uid != uid {
        return Gone;
      }
      StoredIsSeen(old(api.st), api.st, name);
      return Have(current);
  }

  lemma LogKnows(s: State, t: State, r: Run, name: string, uid: Uid)
    requires SeenBetween(s, t, r, name, uid)
    ensures r in t.log && RunWellFormed(r) && r.name == name && r.uid == uid
  {
  }

  method PersistRunStop(api: ApiServer, name: string, uid: Uid, start: int) returns (r: Attempt)
    requires api.Valid() && uid in api.st.usedUids
    modifies api
    ensures api.Valid() && LaterState(old(api.st), api.st) && uid in api.st.usedUids
    ensures IssuedOnly(old(api.issued), api.issued, {AcceptStop(start)})
    ensures r.Have? ==> SeenBetween(old(api.st), api.st, r.run, name, uid)
    ensures r.Have? ==> r.run in api.st.log && r.run.uid == uid && r.run.name == name
    ensures r.Have? ==> HasAcceptedStop(r.run.conditions) || Terminal(r.run)
    ensures r.Gone? ==> WentAway(api.st, name, uid)
    ensures old(api.setbacks) <= api.setbacks && (r.Error? ==> old(api.setbacks) < api.setbacks)
    // a stop accepted here began at start, and nowhere else
    ensures r.Have? && api.issued != old(api.issued) ==> BeginsAt(r.run, start)
    ensures api.issued != old(api.issued) ==> MarkedFrom(api.st, uid, start)
  {
    hide Inv, LaterState, Updated, HasAcceptedStop, DerivePhase, IsTerminal, SeenBetween, RunWellFormed, WentAway, BeginsAt, MarkedFrom;
    LaterStateReflexive(api.st);
    for i := 0 to PATCH_ATTEMPTS
      invariant api.Valid() && LaterState(old(api.st), api.st) && uid in api.st.usedUids
      invariant api.issued == old(api.issued) && old(api.setbacks) + i <= api.setbacks
    {
      ghost var before := api.st;
      r := ReadRun(api, name, uid);
      ghost var read := api.st;
      LaterStateTransitive(old(api.st), before, read);
      if !r.Have? {
        return;
      }
      LogKnows(before, read, r.run, name, uid);
      SeenSince(old(api.st), before, read, r.run, name, uid);
      if Terminal(r.run) || HasAcceptedStop(r.run.conditions) {
        return;
      }
      var reply := api.PatchRun(r.run, AcceptStop(start));
      LaterStateTransitive(old(api.st), read, api.st);
      SpentStays(read, api.st, uid);
      if api.issued != old(api.issued) {
        PatchedBegins(r.run, api.st.runs[r.run.name], start, api.st.clock);
        BeginsIsMarked(api.st, api.st.runs[r.run.name], start);
      }
      match reply {
        case Conflict =>
        case PatchFailed => return Error;
        case Patched(after) =>
          AcceptedIsAccepted(r.run, start, api.st.clock);
          PatchedIsSeen(old(api.st), api.st, r.run, after);
          return Have(after);
      }
    }
    return Error;
  }

  lemma SpentStays(s: State, t: State, uid: Uid)
    requires LaterState(s, t) && uid in s.usedUids
    ensures uid in t.usedUids
  {
  }

  /** Records how an accepted stop ended, once. */
  method WriteSuspensionOutcome(api: ApiServer, name: string, uid: Uid, confirmed: bool) returns (r: Attempt)
    requires api.Valid() && uid in api.st.usedUids
    modifies api
    ensures api.Valid() && LaterState(old(api.st), api.st) && uid in api.st.usedUids
    ensures IssuedOnly(old(api.issued), api.issued, {StopOutcome(confirmed)})
    ensures r.Have? ==> SeenBetween(old(api.st), api.st, r.run, name, uid)
    ensures r.Have? && HasAcceptedStop(r.run.conditions) && (Terminal(r.run) ==> StopPending(r.run.conditions)) ==>
              HasFinalStopOutcome(r.run.conditions)
    ensures r.Gone? ==> WentAway(api.st, name, uid)
    ensures old(api.setbacks) <= api.setbacks && (r.Error? ==> old(api.setbacks) < api.setbacks)
  {
    hide Inv, LaterState, Updated, HasAcceptedStop, HasFinalStopOutcome, DerivePhase, IsTerminal, SeenBetween, RunWellFormed, WentAway;
    ghost var s := api.st;
    LaterStateReflexive(api.st);
    for i := 0 to PATCH_ATTEMPTS
      invariant api.Valid() && LaterState(s, api.st) && uid in api.st.usedUids
      invariant IssuedOnly(old(api.issued), api.issued, {StopOutcome(confirmed)}) && old(api.setbacks) + i <= api.setbacks
    {
      ghost var before := api.st;
      r := ReadRun(api, name, uid);
      ghost var read := api.st;
      LaterStateTransitive(s, before, read);
      if !r.Have? {
        return;
      }
      LogKnows(before, read, r.run, name, uid);
      SeenSince(s, before, read, r.run, name, uid);
      var current := r.run;
      if HasFinalStopOutcome(current.conditions) {
        return;
      }
      if Terminal(current) && !TerminalStopIntent(current.conditions) {
        return;
      }
      if !HasAcceptedStop(current.conditions) {
        return;
      }
      var reply := api.PatchRun(current, StopOutcome(confirmed));
      LaterStateTransitive(s, read, api.st);
      SpentStays(read, api.st, uid);
      match reply {
        case Conflict =>
        case PatchFailed => return Error;
        case Patched(after) =>
          FinalOnceWritten(current, confirmed, api.st.clock);
          PatchedIsSeen(s, api.st, current, after);
          return Have(after);
      }
    }
    return Error;
  }

  method ClearRunSandboxInfo(api: ApiServer, name: string, uid: Uid) returns (r: Attempt)
    requires api.Valid() && uid in api.st.usedUids
    modifies api
    ensures api.Valid() && LaterState(old(api.st), api.st) && uid in api.st.usedUids
    ensures IssuedOnly(old(api.issued), api.issued, {ClearSandboxes})
    ensures r.Have? ==> r.run in api.st.log && r.run.uid == uid && r.run.name == name && !r.run.stages.HasSandbox()
    ensures r.Gone? ==> WentAway(api.st, name, uid)
    ensures old(api.setbacks) <= api.setbacks && (r.Error? ==> old(api.setbacks) < api.setbacks)
  {
    hide Inv, LaterState, Updated, SeenBetween, RunWellFormed, WentAway, Stages.HasSandbox;
    LaterStateReflexive(api.st);
    for i := 0 to PATCH_ATTEMPTS
      invariant api.Valid() && LaterState(old(api.st), api.st) && uid in api.st.usedUids
      invariant IssuedOnly(old(api.issued), api.issued, {ClearSandboxes}) && old(api.setbacks) + i <= api.setbacks
    {
      ghost var before := api.st;
      r := ReadRun(api, name, uid);
      ghost var read := api.st;
      LaterStateTransitive(old(api.st), before, read);
      if !r.Have? {
        return;
      }
      LogKnows(before, read, r.run, name, uid);
      if !r.run.stages.HasSandbox() {
        return;
      }
      var reply := api.PatchRun(r.run, ClearSandboxes);
      LaterStateTransitive(old(api.st), read, api.st);
      SpentStays(read, api.st, uid);
      match reply {
        case Conflict =>
        case PatchFailed => return Error;
        case Patched(after) =>
          ClearedIsClear(r.run, api.st.clock);
          return Have(after);
      }
    }
    return Error;
  }

  // ---------------------------------------------------------------------------
  // One stop pass
  // ---------------------------------------------------------------------------

  /** What one reconcile asks of its queue: to see an error, nothing, another pass at once, or a
      later pass. */
  datatype Result = Errored | Done | Again | After(delay: int)

  /** The instant the stop window of this run began. */
  function StopStart(cs: RunConditions, activationStart: int): int {
    if StopPending(cs) && cs[StopProgress].lastTransition != NO_TIME then cs[StopProgress].lastTransition else activationStart
  }

  predicate HistoricalTerminal(r: Run) {
    Terminal(r) && !HasAcceptedStop(r.conditions)
  }

  /** Some version of this run had its final outcome. */
  ghost predicate FinalLogged(st: State, name: string, uid: Uid) {
    exists w :: w in st.log && w.name == name && w.uid == uid && HasFinalStopOutcome(w.conditions)
  }

  ghost predicate OverOrGone(st: State, name: string, uid: Uid) {
    WentAway(st, name, uid) || FinalLogged(st, name, uid)
  }

  lemma StaysOver(s: State, t: State, name: string, uid: Uid)
    requires LaterState(s, t)
    ensures OverOrGone(s, name, uid) ==> OverOrGone(t, name, uid)
  {
    if FinalLogged(s, name, uid) {
      var w :| w in s.log && w.name == name && w.uid == uid && HasFinalStopOutcome(w.conditions);
      assert w in t.log;
    }
  }

  lemma OverIsFinal(st: State, name: string, uid: Uid)
    requires Inv(st) && OverOrGone(st, name, uid) && Stored(st, name, uid)
    ensures HasFinalStopOutcome(st.runs[name].conditions)
  {
    var w :| w in st.log && w.name == name && w.uid == uid && HasFinalStopOutcome(w.conditions);
    ObservedEarlier(st, w);
    StillAccepted(w, st.runs[name]);
  }

  lemma SeenFinalIsOver(s: State, t: State, r: Run, name: string, uid: Uid)
    requires SeenBetween(s, t, r, name, uid) && HasFinalStopOutcome(r.conditions)
    ensures OverOrGone(t, name, uid)
  {
  }

  /** After an accepted stop, what an outcome write returns is final. */
  lemma WrittenIsOver(s: State, t: State, before: Run, r: Run, name: string, uid: Uid)
    requires Inv(s) && before in s.log && before.uid == uid && HasAcceptedStop(before.conditions)
    requires SeenBetween(s, t, r, name, uid)
    requires HasAcceptedStop(r.conditions) && (Terminal(r) ==> StopPending(r.conditions)) ==> HasFinalStopOutcome(r.conditions)
    ensures OverOrGone(t, name, uid)
  {
    StillAccepted(before, r);
    MarkerDecides(r.conditions);
    SeenFinalIsOver(s, t, r, name, uid);
  }

  /** The window of a pending stop has passed. */
  ghost predicate WindowPassed(s: State, name: string, uid: Uid) {
    Stored(s, name, uid) && StopPending(s.runs[name].conditions) &&
    s.runs[name].conditions[StopProgress].lastTransition != NO_TIME &&
    s.runs[name].conditions[StopProgress].lastTransition + SUSPENSION_STOP_WINDOW <= s.clock
  }

  /** The pass removed or confirmed only what belongs to this run, and the run's outcome is
      written as complete, or its sandbox references cleared, only after a second inventory
      showed nothing of it that could still run or grant access. */
  ghost predicate Backed(a: seq<Issued>, b: seq<Issued>, before: History, after: History, uid: Uid, home: string) {
    && a <= b && Isolated(before, after, uid)
    && forall i :: |a| <= i < |b| ==>
         match b[i].w
         case AcceptStop(_) => true
         case StopOutcome(false) => true
         case StopOutcome(true) => AllClear(before, after, uid, home)
         case ClearSandboxes => AllClear(before, after, uid, home)
         case _ => false
  }

  ghost predicate AllClear(before: History, after: History, uid: Uid, home: string) {
    forall kind :: ClearSince(before, after, kind, uid, home)
  }

  lemma ClearLonger(a: History, b: History, c: History, d: History, uid: Uid, home: string)
    requires AllClear(b, c, uid, home) && Advanced(a, b) && Advanced(c, d)
    ensures AllClear(a, d, uid, home)
  {
    forall kind
      ensures ClearSince(a, d, kind, uid, home)
    {
      ClearWider(a, b, c, d, kind, uid, home);
    }
  }

  lemma ClearWider(a: History, b: History, c: History, d: History, kind: Objects.Kind, scope: Uid, home: string)
    requires ClearSince(b, c, kind, scope, home) && Advanced(a, b) && Advanced(c, d)
    ensures ClearSince(a, d, kind, scope, home)
  {
    var i :| |b.past| <= i < |c.past| && NoneLive(c.past[i], kind, scope, home);
    assert d.past[i] == c.past[i];
  }

  lemma BackedTransitive(a: seq<Issued>, b: seq<Issued>, c: seq<Issued>, h0: History, h1: History, h2: History, uid: Uid, home: string)
    requires Backed(a, b, h0, h1, uid, home) && Backed(b, c, h1, h2, uid, home)
    ensures Backed(a, c, h0, h2, uid, home)
  {
    hide AllClear;
    IsolatedTransitive(h0, h1, h2, uid);
    if AllClear(h0, h1, uid, home) {
      OnlyReadReflexive(h0);
      ReadingIsIsolated(h0, h0, uid);
      ClearLonger(h0, h0, h1, h2, uid, home);
    }
    if AllClear(h1, h2, uid, home) {
      ReadingIsIsolated(h2, h2, uid);
      ClearLonger(h0, h1, h2, h2, uid, home);
    }
  }

  /** The writes that end a stop. */
  const ENDINGS: set<Write> := {StopOutcome(true), StopOutcome(false), ClearSandboxes}

  /** The teardown was written as complete, or the sandbox references cleared. */
  ghost predicate Completes(a: seq<Issued>, b: seq<Issued>) {
    exists i :: |a| <= i < |b| && (b[i].w == StopOutcome(true) || b[i].w.ClearSandboxes?)
  }

  lemma OnlyFailures(a: seq<Issued>, b: seq<Issued>)
    requires IssuedOnly(a, b, {StopOutcome(false)})
    ensures !Completes(a, b)
  {
  }

  lemma CompletesWithin(a: seq<Issued>, b: seq<Issued>, c: seq<Issued>)
    requires a <= b <= c && !Completes(a, b)
    ensures Completes(a, c) ==> Completes(b, c)
  {
  }

  /** The run as stored since s showed no remote execution. */
  ghost predicate RemoteFree(s: State, t: State, name: string, uid: Uid) {
    exists c :: SeenBetween(s, t, c, name, uid) && !RemoteEvidence(c)
  }

  lemma SeenRemoteFree(s: State, t: State, u: State, c: Run, name: string, uid: Uid)
    requires SeenBetween(s, t, c, name, uid) && LaterState(t, u)
    ensures !RemoteEvidence(c) ==> RemoteFree(s, u, name, uid)
  {
    hide RemoteEvidence;
    SeenLonger(s, t, u, c, name, uid);
  }

  lemma RemoteFreeWithin(s: State, from: State, to: State, t: State, name: string, uid: Uid)
    requires LaterState(s, from) && RemoteFree(from, to, name, uid) && LaterState(to, t)
    ensures RemoteFree(s, t, name, uid)
  {
    hide RemoteEvidence, LaterState, SeenBetween;
    var c :| SeenBetween(from, to, c, name, uid) && !RemoteEvidence(c);
    SeenSince(s, from, to, c, name, uid);
    SeenLonger(s, to, t, c, name, uid);
  }

  /** The run as stored since s had ended without ever accepting a stop. */
  ghost predicate EndedUnstopped(s: State, t: State, name: string, uid: Uid) {
    exists c :: SeenBetween(s, t, c, name, uid) && HistoricalTerminal(c)
  }

  /** What a pass that asks for no further one has established: the run is gone; or nothing of it
      was live at some instant of the pass for every kind, it showed no remote execution, and
      its stop has its final outcome, unless it had ended without one. */
  ghost predicate Concluded(s: State, t: State, before: History, after: History, name: string, uid: Uid, home: string) {
    || WentAway(t, name, uid)
    || (AllClear(before, after, uid, home) && RemoteFree(s, t, name, uid) &&
        (FinalLogged(t, name, uid) || EndedUnstopped(s, t, name, uid)))
  }

  /** ... judged from the copy the pass was given. */
  ghost predicate Cleared(t: State, before: History, after: History, run: Run, home: string) {
    || WentAway(t, run.name, run.uid)
    || (AllClear(before, after, run.uid, home) && !RemoteEvidence(run) &&
        (HasAcceptedStop(run.conditions) ==> OverOrGone(t, run.name, run.uid)))
  }

  lemma ClearedConcludes(s: State, m: State, t: State, before: History, after: History, run: Run, home: string)
    requires SeenBetween(s, m, run, run.name, run.uid) && LaterState(m, t) && Cleared(t, before, after, run, home)
    requires HasAcceptedStop(run.conditions) || Terminal(run)
    ensures Concluded(s, t, before, after, run.name, run.uid, home)
  {
    hide AllClear, RemoteEvidence, LaterState, SeenBetween, WentAway, FinalLogged, DerivePhase, IsTerminal, HasAcceptedStop;
    SeenLonger(s, m, t, run, run.name, run.uid);
  }

  lemma ConcludedSince(s: State, m: State, t: State, before: History, after: History, name: string, uid: Uid, home: string)
    requires LaterState(s, m) && Concluded(m, t, before, after, name, uid, home)
    ensures Concluded(s, t, before, after, name, uid, home)
  {
    hide AllClear, RemoteEvidence, SeenBetween, HistoricalTerminal, WentAway, FinalLogged, LaterState;
    if c :| SeenBetween(m, t, c, name, uid) && !RemoteEvidence(c) {
      SeenSince(s, m, t, c, name, uid);
    }
    if c :| SeenBetween(m, t, c, name, uid) && HistoricalTerminal(c) {
      SeenSince(s, m, t, c, name, uid);
    }
  }

  /** A pass over this store will be confirmed: nobody else writes, no request fails, nothing waits
      for a finalizer, and whatever the pass answers for is well identified. */
  ghost predicate Cleanable(h: History, scope: Uid, home: string, bareMode: bool) {
    Free(h) && Served(h, bareMode) && WellIdentified(h.world, scope, home)
  }

  /** No version of this run shows remote execution. */
  ghost predicate NeverRemote(st: State, uid: Uid) {
    forall c :: c in st.log && c.uid == uid ==> !RemoteEvidence(c)
  }

  /** Only past the window is a stop recorded as failed. */
  ghost predicate FailsOnlyLate(a: seq<Issued>, b: seq<Issued>, start: int, clock: int) {
    forall i :: |a| <= i < |b| && b[i].w == StopOutcome(false) ==> Overdue(start, clock)
  }

  lemma NoFailures(a: seq<Issued>, b: seq<Issued>, start: int, clock: int)
    requires IssuedOnly(a, b, {StopOutcome(true), ClearSandboxes}) || b == a
    ensures FailsOnlyLate(a, b, start, clock)
  {
  }

  lemma LateFailures(a: seq<Issued>, b: seq<Issued>, start: int, clock: int)
    requires Overdue(start, clock)
    ensures FailsOnlyLate(a, b, start, clock)
  {
  }

  /** Cleanup of one run, and whether its record shows remote execution. */
  method SuspensionCleanupPass(api: ApiServer, store: ObjectStore, run: Run, home: string, bareMode: bool)
    returns (confirmed: bool)
    requires api.Valid() && store.Valid()
    modifies api, store
    ensures api.Valid() && store.Valid() && LaterState(old(api.st), api.st) && api.issued == old(api.issued)
    ensures Isolated(old(store.Now()), store.Now(), run.uid)
    ensures confirmed ==> AllClear(old(store.Now()), store.Now(), run.uid, home) && !RemoteEvidence(run)
    ensures old(api.setbacks) <= api.setbacks
    ensures Cleanable(old(store.Now()), run.uid, home, bareMode) && !RemoteEvidence(run) ==> confirmed
    ensures api.setbacks == old(api.setbacks)
  {
    hide Isolated, ClearSince, RemoteEvidence, Free, Served, WellIdentified;
    var r, _ := CleanupSuspension(store, api, run.uid, home, bareMode, None);
    return Confirmed(r) && !RemoteEvidence(run);
  }

  /** The window has passed without a confirmed teardown: the failed outcome first, then
      cleanup continues in the background. */
  method FailThenClean(api: ApiServer, store: ObjectStore, current: Run, home: string, bareMode: bool) returns (r: Result)
    requires api.Valid() && store.Valid() && current in api.st.log && current.uid in api.st.usedUids
    requires HasAcceptedStop(current.conditions)
    modifies api, store
    ensures api.Valid() && store.Valid() && LaterState(old(api.st), api.st)
    ensures Backed(old(api.issued), api.issued, old(store.Now()), store.Now(), current.uid, home)
    ensures r == Errored || OverOrGone(api.st, current.name, current.uid)
    ensures r.After? ==> r.delay == REQUEUE_DELAY
    ensures r != Again && (r == Done ==> WentAway(api.st, current.name, current.uid))
    ensures IssuedOnly(old(api.issued), api.issued, ENDINGS)
    ensures Completes(old(api.issued), api.issued) ==> RemoteFree(old(api.st), api.st, current.name, current.uid)
    ensures old(api.setbacks) <= api.setbacks && (r == Errored ==> old(api.setbacks) < api.setbacks)
  {
    hide Inv, LaterState, HasAcceptedStop, HasFinalStopOutcome, SeenBetween, WentAway, FinalLogged, Isolated, Advanced, AllClear,
      OverOrGone, DerivePhase, IsTerminal, RemoteFree, RemoteEvidence, Completes;
    var name, uid := current.name, current.uid;
    ghost var s0, h0, i0 := api.st, store.Now(), api.issued;
    OnlyReadReflexive(h0);
    ReadingIsIsolated(h0, h0, uid);
    var kept := WriteSuspensionOutcome(api, name, uid, false);
    ghost var s1 := api.st;
    OnlyFailures(i0, api.issued);
    if kept.Error? {
      return Errored;
    }
    if kept.Gone? {
      GoneIsOver(s1, name, uid);
      return Done;
    }
    WrittenIsOver(s0, s1, current, kept.run, name, uid);
    LogKnows(s0, s1, kept.run, name, uid);
    var confirmed := SuspensionCleanupPass(api, store, kept.run, home, bareMode);
    ghost var s2, h2 := api.st, store.Now();
    LaterStateTransitive(s0, s1, s2);
    StaysOver(s1, s2, name, uid);
    if confirmed {
      SpentStays(s1, s2, uid);
      var cleaned := ClearRunSandboxInfo(api, name, uid);
      LaterStateTransitive(s1, s2, api.st);
      SeenRemoteFree(s0, s1, api.st, kept.run, name, uid);
      LaterStateTransitive(s0, s2, api.st);
      StaysOver(s2, api.st, name, uid);
      if cleaned.Error? {
        return Errored;
      }
    }
    return After(REQUEUE_DELAY);
  }

  lemma GoneIsOver(st: State, name: string, uid: Uid)
    requires WentAway(st, name, uid)
    ensures OverOrGone(st, name, uid)
  {
  }

  /** A run is neither accepted anew nor touched by an outcome when it ended before the stop. */
  method Finish(api: ApiServer, name: string, uid: Uid, current: Run) returns (r: Result)
    requires api.Valid() && uid in api.st.usedUids
    modifies api
    ensures api.Valid() && LaterState(old(api.st), api.st)
    ensures IssuedOnly(old(api.issued), api.issued, {StopOutcome(true), ClearSandboxes})
    ensures r == Errored || r == Done
    ensures r == Done && AcceptedIn(old(api.st), current, name, uid) ==> OverOrGone(api.st, name, uid)
    ensures old(api.setbacks) <= api.setbacks && (r == Errored ==> old(api.setbacks) < api.setbacks)
  {
    hide Inv, LaterState, HasAcceptedStop, HasFinalStopOutcome, SeenBetween, WentAway, FinalLogged, OverOrGone, DerivePhase, IsTerminal;
    ghost var s0 := api.st;
    var kept: Attempt;
    if !HistoricalTerminal(current) && !HasFinalStopOutcome(current.conditions) {
      kept := WriteSuspensionOutcome(api, name, uid, true);
      if kept.Gone? {
        GoneIsOver(api.st, name, uid);
      } else if kept.Have? && AcceptedIn(s0, current, name, uid) {
        WrittenIsOver(s0, api.st, current, kept.run, name, uid);
      }
    } else {
      kept := ClearRunSandboxInfo(api, name, uid);
      if AcceptedIn(s0, current, name, uid) {
        AcceptedIsNotHistorical(current);
        LoggedIsOver(s0, current);
        StaysOver(s0, api.st, name, uid);
      }
    }
    return if kept.Error? then Errored else Done;
  }

  ghost predicate AcceptedIn(s: State, r: Run, name: string, uid: Uid) {
    r in s.log && r.uid == uid && r.name == name && HasAcceptedStop(r.conditions)
  }

  lemma AcceptedStays(s: State, t: State, r: Run, name: string, uid: Uid)
    requires AcceptedIn(s, r, name, uid) && LaterState(s, t)
    ensures AcceptedIn(t, r, name, uid)
  {
  }

  lemma AcceptedIsNotHistorical(r: Run)
    requires HasAcceptedStop(r.conditions)
    ensures !HistoricalTerminal(r)
  {
  }

  lemma LoggedIsOver(s: State, r: Run)
    requires r in s.log && HasFinalStopOutcome(r.conditions)
    ensures OverOrGone(s, r.name, r.uid)
  {
  }

  /** The pass returns at the deadline at the latest, unless the stop has ended. */
  ghost predicate NextPass(r: Result, st: State, name: string, uid: Uid, start: int) {
    r.After? ==>
      0 < r.delay <= REQUEUE_DELAY &&
      (OverOrGone(st, name, uid) || (start != NO_TIME && st.clock < start + SUSPENSION_STOP_WINDOW ==>
        st.clock + r.delay <= start + SUSPENSION_STOP_WINDOW))
  }

  /** Cleanup was not confirmed: past the window the failed outcome is written, before it the
      next pass is arranged. */
  method DecideUnconfirmed(api: ApiServer, name: string, uid: Uid, current: Run, stopStart: int) returns (r: Result)
    requires api.Valid() && uid in api.st.usedUids
    modifies api
    ensures api.Valid() && LaterState(old(api.st), api.st)
    ensures IssuedOnly(old(api.issued), api.issued, {StopOutcome(false)})
    ensures NextPass(r, api.st, name, uid, stopStart) && (r == Errored || r.After?)
    ensures r != Errored && AcceptedIn(old(api.st), current, name, uid) && Overdue(stopStart, old(api.st).clock) ==>
              OverOrGone(api.st, name, uid)
    ensures old(api.setbacks) <= api.setbacks && (r == Errored ==> old(api.setbacks) < api.setbacks)
    ensures FailsOnlyLate(old(api.issued), api.issued, stopStart, api.st.clock)
  {
    hide Inv, LaterState, HasAcceptedStop, HasFinalStopOutcome, SeenBetween, WentAway, OverOrGone, HistoricalTerminal, FinalLogged;
    ghost var s2 := api.st;
    LaterStateReflexive(s2);
    var deadlineReached := false;
    if stopStart != NO_TIME {
      var now := api.Now();
      deadlineReached := now >= stopStart + SUSPENSION_STOP_WINDOW;
    }
    ghost var s3 := api.st;
    ClockMoves(s2, s3);
    SpentStays(s2, s3, uid);
    if AcceptedIn(s2, current, name, uid) {
      AcceptedIsNotHistorical(current);
      AcceptedStays(s2, s3, current, name, uid);
      if HasFinalStopOutcome(current.conditions) {
        LoggedIsOver(s3, current);
      }
    }
    if deadlineReached && !HistoricalTerminal(current) && !HasFinalStopOutcome(current.conditions) {
      var kept := WriteSuspensionOutcome(api, name, uid, false);
      LaterStateTransitive(s2, s3, api.st);
      ClockMoves(s3, api.st);
      LateFailures(old(api.issued), api.issued, stopStart, api.st.clock);
      if kept.Gone? {
        GoneIsOver(api.st, name, uid);
      } else if kept.Have? && AcceptedIn(s3, current, name, uid) {
        WrittenIsOver(s3, api.st, current, kept.run, name, uid);
      }
      return if kept.Error? then Errored else After(REQUEUE_DELAY);
    }
    r := After(REQUEUE_DELAY);
    if stopStart != NO_TIME {
      var now := api.Now();
      LaterStateTransitive(s2, s3, api.st);
      StaysOver(s3, api.st, name, uid);
      RequeueNeverSkipsDeadline(stopStart, now);
      r := After(SuspensionRequeueDelay(stopStart, now));
    }
  }

  /** Cleanup first; then the outcome that fits what was confirmed and when. */
  method CleanThenDecide(api: ApiServer, store: ObjectStore, run: Run, stopStart: int, home: string, bareMode: bool)
    returns (r: Result)
    requires api.Valid() && store.Valid() && run in api.st.log && run.uid in api.st.usedUids
    modifies api, store
    ensures api.Valid() && store.Valid() && LaterState(old(api.st), api.st)
    ensures Backed(old(api.issued), api.issued, old(store.Now()), store.Now(), run.uid, home)
    ensures NextPass(r, api.st, run.name, run.uid, stopStart)
    ensures r != Errored && HasFinalStopOutcome(run.conditions) ==> OverOrGone(api.st, run.name, run.uid)
    ensures r != Errored && HasAcceptedStop(run.conditions) && Overdue(stopStart, old(api.st).clock) ==>
              OverOrGone(api.st, run.name, run.uid)
    ensures r != Again && (r == Done ==> Cleared(api.st, old(store.Now()), store.Now(), run, home))
    ensures IssuedOnly(old(api.issued), api.issued, ENDINGS)
    ensures Completes(old(api.issued), api.issued) ==> !RemoteEvidence(run)
    ensures old(api.setbacks) <= api.setbacks && (r == Errored ==> old(api.setbacks) < api.setbacks)
    ensures FailsOnlyLate(old(api.issued), api.issued, stopStart, api.st.clock)
    ensures Cleanable(old(store.Now()), run.uid, home, bareMode) && !RemoteEvidence(run) ==> !r.After?
  {
    hide Inv, LaterState, HasAcceptedStop, HasFinalStopOutcome, SeenBetween, WentAway, FinalLogged, Isolated, Advanced, AllClear,
      OverOrGone, DerivePhase, IsTerminal, HistoricalTerminal, RemoteEvidence,
      Cleanable, FailsOnlyLate;
    var name, uid := run.name, run.uid;
    ghost var s0, i0 := api.st, api.issued;
    var confirmed := SuspensionCleanupPass(api, store, run, home, bareMode);
    ghost var s1 := api.st;
    SpentStays(s0, s1, uid);
    NoFailures(i0, api.issued, stopStart, s1.clock);
    ClockMoves(s0, s1);
    Remembered(s0, s1);
    if HasFinalStopOutcome(run.conditions) {
      LoggedIsOver(s0, run);
      StaysOver(s0, s1, name, uid);
    }
    var kept := ReadRun(api, name, uid);
    ghost var s2 := api.st;
    LaterStateTransitive(s0, s1, s2);
    StaysOver(s1, s2, name, uid);
    ClockMoves(s1, s2);
    if !kept.Have? {
      NoFailures(i0, api.issued, stopStart, s2.clock);
      if kept.Gone? {
        GoneIsOver(s2, name, uid);
      }
      return if kept.Error? then Errored else Done;
    }
    var current := kept.run;
    LogKnows(s1, s2, current, name, uid);
    if HasAcceptedStop(run.conditions) {
      ReadAsAccepted(s1, s2, run, current);
    }
    if confirmed {
      r := Finish(api, name, uid, current);
      NoFailures(i0, api.issued, stopStart, api.st.clock);
      LaterStateTransitive(s0, s2, api.st);
      StaysOver(s2, api.st, name, uid);
      return;
    }
    r := DecideUnconfirmed(api, name, uid, current, stopStart);
    OnlyFailures(i0, api.issued);
    LaterStateTransitive(s0, s2, api.st);
    StaysOver(s2, api.st, name, uid);
  }

  lemma ReadAsAccepted(s: State, t: State, r: Run, current: Run)
    requires Inv(s) && r in s.log && SeenBetween(s, t, current, r.name, r.uid) && HasAcceptedStop(r.conditions)
    ensures AcceptedIn(t, current, r.name, r.uid)
  {
    StillAccepted(r, current);
  }

  lemma ClockMoves(s: State, t: State)
    requires LaterState(s, t)
    ensures s.clock <= t.clock
  {
  }

  ghost predicate Overdue(start: int, clock: int) {
    start != NO_TIME && start + SUSPENSION_STOP_WINDOW <= clock
  }

  /** The rest of a pass, once the run has accepted a stop or had ended before it. */
  method Continue(api: ApiServer, store: ObjectStore, current: Run, stopStart: int, home: string, bareMode: bool)
    returns (r: Result)
    requires api.Valid() && store.Valid() && current in api.st.log && current.uid in api.st.usedUids
    requires HasAcceptedStop(current.conditions) || Terminal(current)
    modifies api, store
    ensures api.Valid() && store.Valid() && LaterState(old(api.st), api.st)
    ensures Backed(old(api.issued), api.issued, old(store.Now()), store.Now(), current.uid, home)
    ensures NextPass(r, api.st, current.name, current.uid, stopStart)
    ensures r != Errored && HasAcceptedStop(current.conditions) &&
            (HasFinalStopOutcome(current.conditions) || Overdue(stopStart, old(api.st).clock)) ==>
              OverOrGone(api.st, current.name, current.uid)
    ensures r != Again && (r == Done ==> Cleared(api.st, old(store.Now()), store.Now(), current, home))
    ensures IssuedOnly(old(api.issued), api.issued, ENDINGS)
    ensures Completes(old(api.issued), api.issued) ==>
              !RemoteEvidence(current) || RemoteFree(old(api.st), api.st, current.name, current.uid)
    ensures old(api.setbacks) <= api.setbacks && (r == Errored ==> old(api.setbacks) < api.setbacks)
    ensures FailsOnlyLate(old(api.issued), api.issued, stopStart, api.st.clock)
    ensures Cleanable(old(store.Now()), current.uid, home, bareMode) && !RemoteEvidence(current) && r.After? ==>
              Overdue(stopStart, api.st.clock)
  {
    hide Inv, LaterState, HasAcceptedStop, HasFinalStopOutcome, WentAway, FinalLogged, Isolated, Advanced, AllClear, OverOrGone,
      DerivePhase, IsTerminal, Backed, RemoteFree, RemoteEvidence, Completes, IssuedOnly, Cleanable, FailsOnlyLate;
    ghost var s0 := api.st;
    LaterStateReflexive(s0);
    var remaining := 0;
    if stopStart != NO_TIME && !HasFinalStopOutcome(current.conditions) {
      var now := api.Now();
      remaining := stopStart + SUSPENSION_STOP_WINDOW - now;
    }
    ghost var s1 := api.st;
    ClockMoves(s0, s1);
    SpentStays(s0, s1, current.uid);
    Remembered(s0, s1);
    if !HistoricalTerminal(current) && !HasFinalStopOutcome(current.conditions) && stopStart != NO_TIME && remaining <= 0 {
      r := FailThenClean(api, store, current, home, bareMode);
      ClockMoves(s1, api.st);
      LateFailures(old(api.issued), api.issued, stopStart, api.st.clock);
      LaterStateReflexive(api.st);
      if RemoteFree(s1, api.st, current.name, current.uid) {
        RemoteFreeWithin(s0, s1, api.st, api.st, current.name, current.uid);
      }
    } else {
      r := CleanThenDecide(api, store, current, stopStart, home, bareMode);
    }
    LaterStateTransitive(s0, s1, api.st);
  }

  /** A run that has not accepted a stop accepts it while the window is open. */
  method AcceptThenContinue(api: ApiServer, store: ObjectStore, current: Run, stopStart: int, home: string, bareMode: bool)
    returns (r: Result)
    requires api.Valid() && store.Valid() && current in api.st.log && current.uid in api.st.usedUids
    modifies api, store
    ensures api.Valid() && store.Valid() && LaterState(old(api.st), api.st)
    ensures Backed(old(api.issued), api.issued, old(store.Now()), store.Now(), current.uid, home)
    ensures NextPass(r, api.st, current.name, current.uid, stopStart) && AcceptsFrom(old(api.issued), api.issued, stopStart)
    ensures r != Again
    ensures r == Done ==> Concluded(old(api.st), api.st, old(store.Now()), store.Now(), current.name, current.uid, home)
    ensures Completes(old(api.issued), api.issued) ==> RemoteFree(old(api.st), api.st, current.name, current.uid)
    ensures old(api.setbacks) <= api.setbacks && (r == Errored ==> old(api.setbacks) < api.setbacks)
    ensures FailsOnlyLate(old(api.issued), api.issued, stopStart, api.st.clock)
    ensures Cleanable(old(store.Now()), current.uid, home, bareMode) && NeverRemote(api.st, current.uid) && r.After? ==>
              stopStart == NO_TIME || Overdue(stopStart, api.st.clock)
    ensures AcceptedAs(old(api.issued), api.issued, api.st, current.uid, stopStart)
  {
    hide Inv, LaterState, HasAcceptedStop, WentAway, MarkedFrom, BeginsAt, AcceptedAs, Isolated, Advanced, AllClear, OverOrGone, DerivePhase, IsTerminal, SeenBetween,
      RemoteFree, RemoteEvidence, Completes, Concluded, Cleared, FinalLogged, HasFinalStopOutcome, Cleanable;
    ghost var s0, h0, i0 := api.st, store.Now(), api.issued;
    NothingCompleted(i0);
    NothingAcceptedAs(i0, current.uid, stopStart);
    LaterStateReflexive(s0);
    ReadingIsIsolated(h0, h0, current.uid);
    var remaining := 0;
    if stopStart != NO_TIME {
      var now := api.Now();
      remaining := stopStart + SUSPENSION_STOP_WINDOW - now;
    }
    ghost var s1 := api.st;
    if stopStart == NO_TIME || remaining <= 0 {
      return After(REQUEUE_DELAY);
    }
    Remembered(s0, s1);
    SpentStays(s0, s1, current.uid);
    var kept := PersistRunStop(api, current.name, current.uid, stopStart);
    ghost var s2, i2 := api.st, api.issued;
    LaterStateTransitive(s0, s1, s2);
    OnlyAccepted(i0, i2, stopStart);
    MarkedAs(i0, i2, i2, s2, s2, current.uid, stopStart);
    if !kept.Have? {
      if kept.Gone? {
        GoneConcludes(s0, s2, h0, store.Now(), current.name, current.uid, home);
      }
      return if kept.Error? then Errored else Done;
    }
    r := Continue(api, store, kept.run, stopStart, home, bareMode);
    LaterStateTransitive(s0, s2, api.st);
    SeenSince(s0, s1, s2, kept.run, current.name, current.uid);
    SeenRemoteFree(s0, s2, api.st, kept.run, current.name, current.uid);
    LaterStateReflexive(api.st);
    if RemoteFree(s2, api.st, current.name, current.uid) {
      RemoteFreeWithin(s0, s2, api.st, api.st, current.name, current.uid);
    }
    if r == Done {
      ClearedConcludes(s0, s2, api.st, h0, store.Now(), kept.run, home);
    }
    CompletesWithin(i0, i2, api.issued);
    EndingsAccept(i0, i2, api.issued, stopStart);
    MarkedAs(i0, i2, api.issued, s2, api.st, current.uid, stopStart);
    FailsLaterOnly(i0, i2, api.issued, stopStart, api.st.clock);
    Remembered(s2, api.st);
    BackedTransitive(old(api.issued), i2, api.issued, h0, h0, store.Now(), current.uid, home);
  }

  /** Whatever stop was accepted in between is stored as begun at this start. */
  ghost predicate AcceptedAs(a: seq<Issued>, b: seq<Issued>, st: State, uid: Uid, start: int) {
    forall i :: |a| <= i < |b| && b[i].w.AcceptStop? ==> b[i].w.start == start && MarkedFrom(st, uid, start)
  }

  lemma NothingAcceptedAs(a: seq<Issued>, uid: Uid, start: int)
    ensures forall st :: AcceptedAs(a, a, st, uid, start)
  {
  }

  lemma MarkedAs(a: seq<Issued>, b: seq<Issued>, c: seq<Issued>, s: State, t: State, uid: Uid, start: int)
    requires IssuedOnly(a, b, {AcceptStop(start)}) && (b != a ==> MarkedFrom(s, uid, start))
    requires (s == t || LaterState(s, t)) && (c == b || IssuedOnly(b, c, ENDINGS))
    ensures AcceptedAs(a, c, t, uid, start)
  {
    hide MarkedFrom, LaterState;
    if b != a && s != t {
      MarkedLater(s, t, uid, start);
    }
  }

  lemma EndingsAcceptNone(a: seq<Issued>, b: seq<Issued>, st: State, uid: Uid, start: int)
    requires IssuedOnly(a, b, ENDINGS)
    ensures AcceptedAs(a, b, st, uid, start)
  {
  }

  lemma UnacceptedStartsNow(r: Run, activationStart: int)
    requires !HasAcceptedStop(r.conditions)
    ensures StopStart(r.conditions, activationStart) == activationStart
  {
  }

  /** Every stop that began ten seconds before s at the latest, by what was stored in s, has its
      outcome in t. */
  ghost predicate OverInTime(s: State, t: State, name: string, uid: Uid) {
    Stored(t, name, uid) ==>
      forall start :: MarkedFrom(s, uid, start) && start != 0 && start + 10_000_000_000 <= s.clock ==> StopEnded(t.runs[name].conditions)
  }

  /** A stop accepted in one pass has its outcome after any later pass that ends without an error
      and begins ten seconds after the activation, or later. */
  lemma AcceptedEndsInTime(a: seq<Issued>, b: seq<Issued>, accepted: State, s: State, t: State, name: string, uid: Uid, start: int)
    requires AcceptedAs(a, b, accepted, uid, start) && exists i :: |a| <= i < |b| && b[i].w.AcceptStop?
    requires LaterState(accepted, s) && OverInTime(s, t, name, uid) && Stored(t, name, uid)
    requires start != 0 && start + 10_000_000_000 <= s.clock
    ensures StopEnded(t.runs[name].conditions)
  {
    hide MarkedFrom, LaterState, StopEnded;
    MarkedLater(accepted, s, uid, start);
  }

  lemma WindowEndsInTime(s: State, t: State, name: string, uid: Uid)
    requires Inv(s) && Inv(t) && LaterState(s, t) && uid in s.usedUids
    requires Stored(t, name, uid) && WindowPassed(s, name, uid) ==> HasFinalStopOutcome(t.runs[name].conditions)
    ensures OverInTime(s, t, name, uid)
  {
    if Stored(t, name, uid) {
      forall start | MarkedFrom(s, uid, start) && start != 0 && start + 10_000_000_000 <= s.clock
        ensures StopEnded(t.runs[name].conditions)
      {
        MarkedIsOver(s, t, name, uid, start);
      }
    }
  }

  lemma MarkedIsOver(s: State, t: State, name: string, uid: Uid, start: int)
    requires Inv(s) && Inv(t) && LaterState(s, t) && uid in s.usedUids && Stored(t, name, uid)
    requires MarkedFrom(s, uid, start) && start != 0 && start + 10_000_000_000 <= s.clock
    requires WindowPassed(s, name, uid) ==> HasFinalStopOutcome(t.runs[name].conditions)
    ensures StopEnded(t.runs[name].conditions)
  {
    hide ConfigInv, SafetyInv, Machine.History, VersionsUnique, HasAcceptedStop, HasFinalStopOutcome, DerivePhase, IsTerminal, RunWellFormed;
    var c :| c in s.log && c.uid == uid && StopBegunAt(c.conditions, start);
    assert Stored(s, name, uid);
    var r := s.runs[name];
    SameRun(s, c, r);
    assert r in t.log;
    SameRun(t, r, t.runs[name]);
    AcceptedMeans(r);
    AcceptedMeans(t.runs[name]);
    FinalOfRun(r);
    if !StopEnded(r.conditions) {
      assert WindowPassed(s, name, uid);
    } else {
      StillAccepted(r, t.runs[name]);
    }
  }

  /** An accepted stop whose window had passed when the run was read is over at the end. */
  lemma DeadlineMet(s: State, m: State, t: State, c: Run, name: string, uid: Uid, activationStart: int)
    requires Inv(s) && Inv(t) && LaterState(s, m) && LaterState(s, t) && SeenBetween(s, m, c, name, uid) && uid in s.usedUids
    requires HasAcceptedStop(c.conditions) &&
             (HasFinalStopOutcome(c.conditions) || Overdue(StopStart(c.conditions, activationStart), m.clock)) ==>
               OverOrGone(t, name, uid)
    ensures WindowPassed(s, name, uid) && Stored(t, name, uid) ==> HasFinalStopOutcome(t.runs[name].conditions)
    ensures OverInTime(s, t, name, uid)
  {
    hide Inv, SeenBetween, HasAcceptedStop, HasFinalStopOutcome, WindowPassed, OverInTime, StopStart, OverOrGone;
    if WindowPassed(s, name, uid) {
      PassedSinceRead(s, m, c, name, uid, activationStart);
      if Stored(t, name, uid) {
        OverIsFinal(t, name, uid);
      }
    }
    WindowEndsInTime(s, t, name, uid);
  }

  lemma FinalOfRun(r: Run)
    requires RunWellFormed(r)
    ensures HasFinalStopOutcome(r.conditions) <==> Holds(r.conditions, StopProgress, False)
  {
    MarkerDecides(r.conditions);
  }

  lemma SameRun(st: State, a: Run, b: Run)
    requires Inv(st) && a in st.log && b in st.log && a.uid == b.uid && b.name in st.runs && st.runs[b.name] == b
    ensures Later(a, b) && RunWellFormed(a) && RunWellFormed(b)
  {
  }

  /** Whatever was accepted in between was accepted from this start on. */
  ghost predicate AcceptsFrom(a: seq<Issued>, b: seq<Issued>, start: int) {
    forall i :: |a| <= i < |b| && b[i].w.AcceptStop? ==> b[i].w.start == start
  }

  lemma FailsLaterOnly(a: seq<Issued>, b: seq<Issued>, c: seq<Issued>, start: int, clock: int)
    requires IssuedOnly(a, b, {AcceptStop(start)}) && b <= c && FailsOnlyLate(b, c, start, clock)
    ensures FailsOnlyLate(a, c, start, clock)
  {
  }

  lemma NothingCompleted(a: seq<Issued>)
    ensures !Completes(a, a)
  {
  }

  lemma OnlyAccepted(a: seq<Issued>, b: seq<Issued>, start: int)
    requires IssuedOnly(a, b, {AcceptStop(start)})
    ensures !Completes(a, b) && AcceptsFrom(a, b, start)
  {
  }

  lemma EndingsAccept(a: seq<Issued>, b: seq<Issued>, c: seq<Issued>, start: int)
    requires a <= b && AcceptsFrom(a, b, start) && IssuedOnly(b, c, ENDINGS)
    ensures AcceptsFrom(a, c, start)
  {
  }

  lemma GoneConcludes(s: State, t: State, before: History, after: History, name: string, uid: Uid, home: string)
    requires WentAway(t, name, uid)
    ensures Concluded(s, t, before, after, name, uid, home)
  {
  }

  /** One stop pass over a run that has accepted a stop or must accept one. */
  method HandleSuspensionAt(api: ApiServer, store: ObjectStore, run: Run, activationStart: int, home: string, bareMode: bool)
    returns (r: Result)
    requires api.Valid() && store.Valid() && run in api.st.log && run.uid in api.st.usedUids
    modifies api, store
    ensures api.Valid() && store.Valid() && LaterState(old(api.st), api.st)
    ensures Backed(old(api.issued), api.issued, old(store.Now()), store.Now(), run.uid, home)
    // deadline progress
    ensures r != Errored && Stored(api.st, run.name, run.uid) && WindowPassed(old(api.st), run.name, run.uid) ==>
              HasFinalStopOutcome(api.st.runs[run.name].conditions)
    ensures r != Errored ==> OverInTime(old(api.st), api.st, run.name, run.uid)
    // a stop accepted here begins with its activation, and is stored so
    ensures AcceptedAs(old(api.issued), api.issued, api.st, run.uid, activationStart)
    // and before the deadline, the next pass is not later than it
    ensures StillPending(old(api.st), api.st, run.name, run.uid) ==>
              NextPass(r, api.st, run.name, run.uid, api.st.runs[run.name].conditions[StopProgress].lastTransition)
    ensures r.After? ==> PassArranged(r, old(api.st), api.st, run.name, run.uid, activationStart)
    // within its window a stop is not recorded as failed, and a pass that finds everything in order ends it
    ensures OnTime(r, old(api.issued), api.issued, old(api.st), api.st, run.name, run.uid, activationStart,
                   Cleanable(old(store.Now()), run.uid, home, bareMode) && NeverRemote(api.st, run.uid))
    ensures AcceptanceArranged(r, old(api.issued), api.issued, api.st, run.name, run.uid)
    // no further pass is asked for only when there is nothing left to do
    ensures r != Again
    ensures r == Done ==> Concluded(old(api.st), api.st, old(store.Now()), store.Now(), run.name, run.uid, home)
    ensures Completes(old(api.issued), api.issued) ==> RemoteFree(old(api.st), api.st, run.name, run.uid)
    ensures old(api.setbacks) <= api.setbacks && (r == Errored ==> old(api.setbacks) < api.setbacks)
  {
    hide Inv, LaterState, HasAcceptedStop, HasFinalStopOutcome, SeenBetween, WentAway, FinalLogged, Isolated, Advanced, AllClear,
      OverOrGone, DerivePhase, IsTerminal, HistoricalTerminal, WindowPassed, StillPending, StopStart, Backed, RemoteFree, RemoteEvidence,
      Completes, Concluded, Cleared, NextPass, PassArranged, Cleanable, FailsOnlyLate, NeverRemote, OnTime, AcceptsFrom, AcceptanceArranged, IssuedOnly, AcceptedAs,
      OverInTime, MarkedFrom, Stored, Overdue, StopPending;
    var name, uid := run.name, run.uid;
    ghost var s0, h0, i0 := api.st, store.Now(), api.issued;
    NothingIssued(api.issued, h0, uid, home);
    NothingCompleted(i0);
    NothingAcceptedAs(i0, uid, activationStart);
    var kept := ReadRun(api, name, uid);
    ghost var s1 := api.st;
    NoPass(Errored, s1, name, uid);
    NoneAccepted(Errored, i0, s1, name, uid);
    NothingOnTime(Errored, i0, s0, s1, name, uid, activationStart);
    if kept.Error? {
      return Errored;
    }
    if kept.Gone? {
      GoneIsNotStored(s1, name, uid);
      WindowEndsInTime(s0, s1, name, uid);
      GoneConcludes(s0, s1, h0, store.Now(), name, uid, home);
      NoPass(Done, s1, name, uid);
      NoneAccepted(Done, i0, s1, name, uid);
      NothingOnTime(Done, i0, s0, s1, name, uid, activationStart);
      return Done;
    }
    var current := kept.run;
    LogKnows(s0, s1, current, name, uid);
    HasItsUid(s1, current);
    if current.uid == NO_UID {
      return Errored;
    }
    ClockMoves(s0, s1);
    var stopStart := StopStart(current.conditions, activationStart);
    if !HistoricalTerminal(current) && !HasAcceptedStop(current.conditions) {
      UnacceptedStartsNow(current, activationStart);
      r := AcceptThenContinue(api, store, current, stopStart, home, bareMode);
      LaterStateReflexive(api.st);
      if RemoteFree(s1, api.st, name, uid) {
        RemoteFreeWithin(s0, s1, api.st, api.st, name, uid);
      }
      if r == Done {
        ConcludedSince(s0, s1, api.st, h0, store.Now(), name, uid, home);
      }
    } else {
      NotHistorical(current);
      r := Continue(api, store, current, stopStart, home, bareMode);
      EndingsAcceptNothing(i0, api.issued, stopStart);
      EndingsAcceptNone(i0, api.issued, api.st, uid, activationStart);
      LaterStateReflexive(api.st);
      SeenRemoteFree(s0, s1, api.st, current, name, uid);
      if RemoteFree(s1, api.st, name, uid) {
        RemoteFreeWithin(s0, s1, api.st, api.st, name, uid);
      }
      if r == Done {
        ClearedConcludes(s0, s1, api.st, h0, store.Now(), current, home);
      }
    }
    LaterStateTransitive(s0, s1, api.st);
    SeenLonger(s0, s1, api.st, current, name, uid);
    ArrangedOnAcceptance(r, i0, api.issued, api.st, name, uid, stopStart);
    Arranged(r, s0, api.st, current, name, uid, activationStart);
    LogKnows(s0, api.st, current, name, uid);
    if NeverRemote(api.st, uid) {
      NeverRemoteNow(api.st, current);
    }
    IsOnTime(r, i0, api.issued, s0, api.st, current, name, uid, activationStart,
             Cleanable(h0, uid, home, bareMode) && NeverRemote(api.st, uid));
    if r != Errored {
      DeadlineMet(s0, s1, api.st, current, name, uid, activationStart);
    }
    if StillPending(s0, api.st, name, uid) {
      PendingThroughout(s0, s1, api.st, current, name, uid, activationStart);
    }
  }

  /** Nothing was issued, or, for the stop as read in this pass: only past its window is it
      recorded as failed, and where everything is in order, only then is another pass needed. */
  ghost predicate OnTime(r: Result, a: seq<Issued>, b: seq<Issued>, s: State, t: State, name: string, uid: Uid, activationStart: int,
                         inOrder: bool) {
    || (b == a && !r.After?)
    || exists c :: SeenBetween(s, t, c, name, uid) && OnTimeFor(r, a, b, StopStart(c.conditions, activationStart), t.clock, inOrder)
  }

  ghost predicate OnTimeFor(r: Result, a: seq<Issued>, b: seq<Issued>, start: int, clock: int, inOrder: bool) {
    FailsOnlyLate(a, b, start, clock) && (inOrder && r.After? ==> start == NO_TIME || Overdue(start, clock))
  }

  lemma NothingOnTime(r: Result, a: seq<Issued>, s: State, t: State, name: string, uid: Uid, activationStart: int)
    requires !r.After?
    ensures forall inOrder :: OnTime(r, a, a, s, t, name, uid, activationStart, inOrder)
  {
  }

  lemma IsOnTime(r: Result, a: seq<Issued>, b: seq<Issued>, s: State, t: State, c: Run, name: string, uid: Uid, activationStart: int,
                 inOrder: bool)
    requires SeenBetween(s, t, c, name, uid) && FailsOnlyLate(a, b, StopStart(c.conditions, activationStart), t.clock)
    requires var start := StopStart(c.conditions, activationStart);
             inOrder && r.After? ==> start == NO_TIME || Overdue(start, t.clock)
    ensures OnTime(r, a, b, s, t, name, uid, activationStart, inOrder)
  {
  }

  /** ... nor that of a stop accepted in this one. */
  ghost predicate AcceptanceArranged(r: Result, a: seq<Issued>, b: seq<Issued>, st: State, name: string, uid: Uid) {
    forall i :: |a| <= i < |b| && b[i].w.AcceptStop? ==> NextPass(r, st, name, uid, b[i].w.start)
  }

  lemma ArrangedOnAcceptance(r: Result, a: seq<Issued>, b: seq<Issued>, st: State, name: string, uid: Uid, start: int)
    requires AcceptsFrom(a, b, start) && NextPass(r, st, name, uid, start)
    ensures AcceptanceArranged(r, a, b, st, name, uid)
  {
  }

  lemma EndingsAcceptNothing(a: seq<Issued>, b: seq<Issued>, start: int)
    requires IssuedOnly(a, b, ENDINGS)
    ensures AcceptsFrom(a, b, start)
  {
  }

  lemma NoneAccepted(r: Result, a: seq<Issued>, st: State, name: string, uid: Uid)
    ensures AcceptanceArranged(r, a, a, st, name, uid)
  {
  }

  lemma NeverRemoteNow(st: State, c: Run)
    requires NeverRemote(st, c.uid) && c in st.log
    ensures !RemoteEvidence(c)
  {
  }

  /** The next pass does not miss the deadline of the stop as read in this one. */
  ghost predicate PassArranged(r: Result, s: State, t: State, name: string, uid: Uid, activationStart: int) {
    exists c :: SeenBetween(s, t, c, name, uid) && NextPass(r, t, name, uid, StopStart(c.conditions, activationStart))
  }

  lemma Arranged(r: Result, s: State, t: State, c: Run, name: string, uid: Uid, activationStart: int)
    requires SeenBetween(s, t, c, name, uid) && NextPass(r, t, name, uid, StopStart(c.conditions, activationStart))
    ensures PassArranged(r, s, t, name, uid, activationStart)
  {
  }

  lemma NoPass(r: Result, st: State, name: string, uid: Uid)
    requires !r.After?
    ensures forall start :: NextPass(r, st, name, uid, start)
  {
  }

  lemma HasItsUid(st: State, r: Run)
    requires Inv(st) && r in st.log
    ensures r.uid != NO_UID
  {
  }

  lemma GoneIsNotStored(st: State, name: string, uid: Uid)
    requires WentAway(st, name, uid)
    ensures !Stored(st, name, uid)
  {
  }

  lemma NotHistorical(r: Run)
    requires HistoricalTerminal(r) || HasAcceptedStop(r.conditions)
    ensures HasAcceptedStop(r.conditions) || Terminal(r)
  {
  }

  /** A run whose window had passed is read as stopped: for good, or since that same start. */
  lemma PassedSinceRead(s: State, t: State, r: Run, name: string, uid: Uid, activationStart: int)
    requires Inv(s) && SeenBetween(s, t, r, name, uid) && WindowPassed(s, name, uid)
    ensures HasAcceptedStop(r.conditions)
    ensures HasFinalStopOutcome(r.conditions) || Overdue(StopStart(r.conditions, activationStart), s.clock)
  {
    assert s.runs[name] in s.log;
    assert Later(s.runs[name], r);
    MarkerDecides(r.conditions);
  }

  lemma PendingThroughout(s: State, t: State, u: State, r: Run, name: string, uid: Uid, activationStart: int)
    requires Inv(s) && Inv(u) && LaterState(t, u) && SeenBetween(s, t, r, name, uid) && StillPending(s, u, name, uid)
    ensures HasAcceptedStop(r.conditions)
    ensures StopStart(r.conditions, activationStart) == u.runs[name].conditions[StopProgress].lastTransition
  {
    assert s.runs[name] in s.log;
    assert Later(s.runs[name], r);
    ObservedEarlier(u, r);
  }

  lemma NothingIssued(a: seq<Issued>, h: History, uid: Uid, home: string)
    ensures Backed(a, a, h, h, uid, home)
  {
    ReadingIsIsolated(h, h, uid);
  }

  /** A stop pending before and after, whose start was recorded. */
  ghost predicate StillPending(s: State, t: State, name: string, uid: Uid) {
    Stored(s, name, uid) && Stored(t, name, uid) &&
    StopPending(s.runs[name].conditions) && StopPending(t.runs[name].conditions) &&
    t.runs[name].conditions[StopProgress].lastTransition != NO_TIME
  }
}
