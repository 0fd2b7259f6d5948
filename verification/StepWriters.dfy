/** The writers of a run's workflow: pod events, timeout ticks, failed steps and sandbox
    launches. Each reads the run and the kill switch first, and none gets past a stop. */
module StepWriters {
  import opened Conditions
  import opened Runs
  import opened RunWrites
  import opened Machine
  import opened ApiServers
  import opened RunController
  import opened Vocabulary

  /** StopAccepted: the run has accepted a stop, is another run, or the switch is on. */
  datatype Guard = Runnable(run: Run) | StopAccepted | GuardFailed

  datatype Effort = Written | Unneeded | Halted | EffortFailed

  /** The run had accepted a stop. */
  ghost predicate StoppedAt(s: State, name: string, uid: Uid) {
    Stored(s, name, uid) && HasAcceptedStop(s.runs[name].conditions)
  }

  /** What these writers issue: writes of this form, on versions of the run stored since s that
      had accepted no stop; nothing at all if it had accepted one by s. */
  ghost predicate WritesOnly(a: seq<Issued>, b: seq<Issued>, s: State, t: State, name: string, uid: Uid, allowed: set<Write>) {
    && IssuedOnly(a, b, allowed)
    && (forall i :: |a| <= i < |b| ==> SeenBetween(s, t, b[i].base, name, uid) && !HasAcceptedStop(b[i].base.conditions))
    && (StoppedAt(s, name, uid) ==> b == a)
  }

  lemma StoppedIsRead(s: State, t: State, r: Run, name: string, uid: Uid)
    requires Inv(s) && SeenBetween(s, t, r, name, uid) && StoppedAt(s, name, uid)
    ensures HasAcceptedStop(r.conditions)
  {
    assert s.runs[name] in s.log;
    StillAccepted(s.runs[name], r);
  }

  /** The run is stored, has accepted no stop, and the system is not suspended. */
  predicate RunnableIn(s: State, name: string, uid: Uid) {
    && Stored(s, name, uid) && !HasAcceptedStop(s.runs[name].conditions)
    && !(s.config.Some? && s.config.value.suspended)
  }

  /** In some state between s and t the run was not runnable. */
  ghost predicate Barred(s: State, t: State, name: string, uid: Uid) {
    exists m :: Inv(m) && LaterState(s, m) && LaterState(m, t) && !RunnableIn(m, name, uid)
  }

  lemma BarredBy(s: State, m: State, t: State, name: string, uid: Uid)
    requires Inv(m) && LaterState(s, m) && LaterState(m, t) && !RunnableIn(m, name, uid)
    ensures Barred(s, t, name, uid)
  {
  }

  lemma BarredWithin(s: State, from: State, to: State, t: State, name: string, uid: Uid)
    requires LaterState(s, from) && Barred(from, to, name, uid) && LaterState(to, t)
    ensures Barred(s, t, name, uid)
  {
    hide Inv, LaterState, RunnableIn;
    var m :| Inv(m) && LaterState(from, m) && LaterState(m, to) && !RunnableIn(m, name, uid);
    LaterStateTransitive(s, from, m);
    LaterStateTransitive(m, to, t);
  }

  method ReadRunnableRun(api: ApiServer, name: string, uid: Uid) returns (r: Guard)
    requires api.Valid()
    modifies api
    ensures api.Valid() && LaterState(old(api.st), api.st) && api.issued == old(api.issued)
    ensures r.Runnable? ==>
              SeenBetween(old(api.st), api.st, r.run, name, uid) && !HasAcceptedStop(r.run.conditions) &&
              !StoppedAt(old(api.st), name, uid)
    ensures r.StopAccepted? ==> Barred(old(api.st), api.st, name, uid)
    ensures r.GuardFailed? ==> old(api.setbacks) < api.setbacks || Barred(old(api.st), api.st, name, uid)
    ensures old(api.setbacks) <= api.setbacks
  {
    hide Inv, LaterState, SeenBetween, HasAcceptedStop, StoppedAt, Barred;
    ghost var s0 := api.st;
    var got := api.GetRun(name);
    ghost var s1 := api.st;
    LaterStateReflexive(s1);
    if !got.Got? {
      if got.Missing? {
        BarredBy(s0, s1, s1, name, uid);
      }
      return GuardFailed;
    }
    if got.value.uid != uid || HasAcceptedStop(got.value.conditions) {
      BarredBy(s0, s1, s1, name, uid);
      return StopAccepted;
    }
    StoredIsSeen(s0, s1, name);
    if StoppedAt(s0, name, uid) {
      StoppedIsRead(s0, s1, got.value, name, uid);
    }
    var config := api.GetConfig();
    LaterStateTransitive(s0, s1, api.st);
    SeenLonger(s0, s1, api.st, got.value, name, uid);
    if config.Unreachable? {
      return GuardFailed;
    }
    if config.Got? && config.value.suspended {
      LaterStateReflexive(api.st);
      BarredBy(s0, api.st, api.st, name, uid);
      return StopAccepted;
    }
    return Runnable(got.value);
  }

  lemma NothingWritten(a: seq<Issued>, s: State, t: State, name: string, uid: Uid, allowed: set<Write>)
    ensures WritesOnly(a, a, s, t, name, uid, allowed)
  {
  }

  /** What is stored is base with the results this write adds to each step. */
  ghost predicate IsLeft(base: Run, w: Write, st: State) {
    && Stored(st, base.name, base.uid)
    && (exists now :: st.runs[base.name] == Updated(base, w, now).(version := st.runs[base.name].version))
    && forall stage :: ResultsOf(st.runs[base.name], stage) == ResultsOf(base, stage) + Added(w, stage)
  }

  /** Exactly one write took effect, of this form, and is what is stored. */
  ghost predicate LeftBy(a: seq<Issued>, b: seq<Issued>, st: State, w: Write) {
    a <= b && |b| == |a| + 1 && b[|a|].w == w && IsLeft(b[|a|].base, w, st)
  }

  lemma PatchLeaves(base: Run, after: Run, w: Write, st: State)
    requires Stored(st, base.name, base.uid) && after == st.runs[base.name]
    requires after == Updated(base, w, st.clock).(version := after.version)
    ensures IsLeft(base, w, st)
  {
    hide Updated, Added;
    forall stage
      ensures ResultsOf(after, stage) == ResultsOf(base, stage) + Added(w, stage)
    {
      WriteAdds(base, w, st.clock, stage);
    }
  }

  /** One guarded read and, if the read copy calls for it, one locked write of it. */
  method PatchOnce(api: ApiServer, name: string, uid: Uid, w: Write) returns (r: Effort, conflict: bool)
    requires api.Valid() && Guarded(w)
    modifies api
    ensures api.Valid() && LaterState(old(api.st), api.st)
    ensures WritesOnly(old(api.issued), api.issued, old(api.st), api.st, name, uid, {w})
    ensures r.Written? ==> LeftBy(old(api.issued), api.issued, api.st, w)
    ensures r.Unneeded? ==> w.StepCondition? && exists c :: SeenBetween(old(api.st), api.st, c, name, uid) && !Changes(c, w)
    ensures conflict ==> r.EffortFailed? && old(api.setbacks) < api.setbacks
    ensures r.Halted? ==> Barred(old(api.st), api.st, name, uid)
    ensures r.EffortFailed? ==> old(api.setbacks) < api.setbacks || Barred(old(api.st), api.st, name, uid)
    ensures old(api.setbacks) <= api.setbacks
  {
    hide Inv, LaterState, SeenBetween, HasAcceptedStop, StoppedAt, Enabled, Updated, Barred, IsLeft;
    ghost var s0 := api.st;
    NothingWritten(api.issued, s0, s0, name, uid, {w});
    var guard := ReadRunnableRun(api, name, uid);
    ghost var s1 := api.st;
    NothingWritten(api.issued, s0, s1, name, uid, {w});
    if !guard.Runnable? {
      return if guard.StopAccepted? then Halted else EffortFailed, false;
    }
    LogKnows(s0, s1, guard.run, name, uid);
    if w.StepCondition? && !Changes(guard.run, w) {
      return Unneeded, false;
    }
    GuardedIsEnabled(guard.run, w);
    var reply := api.PatchRun(guard.run, w);
    LaterStateTransitive(s0, s1, api.st);
    SeenLonger(s0, s1, api.st, guard.run, name, uid);
    if reply.Patched? {
      PatchLeaves(guard.run, reply.value, w, api.st);
    }
    return if reply.Patched? then Written else EffortFailed, reply.Conflict?;
  }

  /** Writes that ask nothing of the run beyond the guard, except that a step condition is
      only set while it is open and different. */
  predicate Guarded(w: Write) {
    w.RecordSandbox? || w.FailStep? || w.StepCondition? || w.EscalateVerification? || (w.LinkResult? && w.outcome != Unknown)
  }

  predicate Changes(r: Run, w: Write)
    requires w.StepCondition?
  {
    var t := StageCondition(w.stage);
    t in r.conditions ==> r.conditions[t].status == Unknown && !HoldsFor(r.conditions, t, w.status, Named(w.reason))
  }

  lemma GuardedIsEnabled(r: Run, w: Write)
    requires Guarded(w) && !HasAcceptedStop(r.conditions) && (w.StepCondition? ==> Changes(r, w))
    ensures Enabled(r, w)
  {
  }

  const SANDBOX_INFO_PATCH_ATTEMPTS := 5

  /** Records the sandbox of a launched step, reading again on every conflict. */
  method PatchSandboxInfo(api: ApiServer, name: string, uid: Uid, stage: Stage, info: SandboxInfo) returns (r: Effort)
    requires api.Valid()
    modifies api
    ensures api.Valid() && LaterState(old(api.st), api.st)
    ensures WritesOnly(old(api.issued), api.issued, old(api.st), api.st, name, uid, {RecordSandbox(stage, info)})
    ensures !r.Unneeded?
    ensures r.Written? ==> Stored(api.st, name, uid) && SandboxOf(api.st.runs[name], stage) == info
    ensures r.Halted? ==> Barred(old(api.st), api.st, name, uid)
    ensures r.EffortFailed? ==> old(api.setbacks) < api.setbacks || Barred(old(api.st), api.st, name, uid)
    ensures old(api.setbacks) <= api.setbacks
  {
    hide Inv, LaterState, WritesOnly, Barred, SeenBetween, LeftBy;
    ghost var s0, i0 := api.st, api.issued;
    LaterStateReflexive(s0);
    NothingWritten(i0, s0, s0, name, uid, {RecordSandbox(stage, info)});
    for i := 0 to SANDBOX_INFO_PATCH_ATTEMPTS
      invariant api.Valid() && LaterState(s0, api.st)
      invariant WritesOnly(i0, api.issued, s0, api.st, name, uid, {RecordSandbox(stage, info)})
      invariant old(api.setbacks) + i <= api.setbacks
    {
      ghost var s, issued := api.st, api.issued;
      var conflict;
      r, conflict := PatchOnce(api, name, uid, RecordSandbox(stage, info));
      LaterStateTransitive(s0, s, api.st);
      WritesTransitive(i0, issued, api.issued, s0, s, api.st, name, uid, {RecordSandbox(stage, info)});
      if r.Written? {
        SandboxIsLeft(issued, api.issued, s, api.st, name, uid, stage, info);
      }
      if !conflict {
        LaterStateReflexive(api.st);
        if Barred(s, api.st, name, uid) {
          BarredWithin(s0, s, api.st, api.st, name, uid);
        }
        return;
      }
    }
    return EffortFailed;
  }

  lemma SandboxIsLeft(a: seq<Issued>, b: seq<Issued>, s: State, t: State, name: string, uid: Uid, stage: Stage, info: SandboxInfo)
    requires LeftBy(a, b, t, RecordSandbox(stage, info)) && WritesOnly(a, b, s, t, name, uid, {RecordSandbox(stage, info)})
    ensures Stored(t, name, uid) && SandboxOf(t.runs[name], stage) == info
  {
    hide Updated, HasAcceptedStop, ResultsOf, Added;
    var base := b[|a|].base;
    assert base.name == name && base.uid == uid;
    var now :| t.runs[name] == Updated(base, RecordSandbox(stage, info), now).(version := t.runs[name].version);
    WriteMovesSandbox(base, RecordSandbox(stage, info), now, stage);
  }

  lemma WritesTransitive(a: seq<Issued>, b: seq<Issued>, c: seq<Issued>, s: State, t: State, v: State, name: string, uid: Uid,
                         allowed: set<Write>)
    requires WritesOnly(a, b, s, t, name, uid, allowed) && WritesOnly(b, c, t, v, name, uid, allowed)
    requires Inv(s) && Inv(t) && Inv(v) && LaterState(s, t) && LaterState(t, v)
    ensures WritesOnly(a, c, s, v, name, uid, allowed)
  {
    forall i | |a| <= i < |c|
      ensures SeenBetween(s, v, c[i].base, name, uid) && !HasAcceptedStop(c[i].base.conditions)
    {
      if i < |b| {
        assert c[i] == b[i];
        SeenLonger(s, t, v, b[i].base, name, uid);
      } else {
        SeenSince(s, t, v, c[i].base, name, uid);
      }
    }
    if StoppedAt(s, name, uid) && c != a {
      var i := |a|;
      assert SeenBetween(s, v, c[i].base, name, uid);
      StoppedIsRead(s, v, c[i].base, name, uid);
      assert false;
    }
  }

  /** How a sandbox ended, as its pod and its result object tell. */
  datatype Ending =
    | TimedOut(reason: string)
    | Reported(ref: ResultRef, usage: TokenUsage, noAction: bool)
    | AgentFailed(failedRef: ResultRef, failedUsage: TokenUsage)
    | Unreported(why: string)

  /** The write that completes a step. An objective verification failure escalates. */
  function CompletionOf(stage: Stage, e: Ending): (w: Write)
    ensures Guarded(w)
  {
    match e
    case TimedOut(reason) => StepCondition(stage, False, reason)
    case Reported(ref, usage, noAction) => LinkResult(stage, ref, usage, True, noAction && stage == Analysis)
    case AgentFailed(ref, usage) =>
      if stage == Verification then EscalateVerification(ref, usage) else LinkResult(stage, ref, usage, False, false)
    case Unreported(why) => StepCondition(stage, False, why)
  }

  /** How a step stands once it has ended this way: a reported end adds its one result and sets the
      step's condition True; an agent's failure adds its one result and sets it False, and that of
      a verification opens the escalation; any other end adds no result and sets it False. */
  predicate EndedAs(base: Run, after: Run, stage: Stage, e: Ending) {
    var t := StageCondition(stage);
    && (forall other: Stage :: other != stage ==> ResultsOf(after, other) == ResultsOf(base, other))
    && t in after.conditions
    && match e
       case Reported(ref, _, noAction) =>
         && ResultsOf(after, stage) == ResultsOf(base, stage) + [ref] && after.conditions[t].status == True
         && (after.conditions[t].reason == NoActionRequired <==> noAction && stage == Analysis)
       case AgentFailed(ref, _) =>
         && ResultsOf(after, stage) == ResultsOf(base, stage) + [ref] && after.conditions[t].status == False
         && (stage == Verification ==>
               Escalated in after.conditions && after.conditions[t].reason == VerificationFailed &&
               after.conditions[Escalated].status == Unknown && after.conditions[Escalated].reason == VerificationFailed)
       case TimedOut(reason) =>
         && ResultsOf(after, stage) == ResultsOf(base, stage) && after.conditions[t].status == False
         && after.conditions[t].reason == Named(reason)
       case Unreported(why) =>
         && ResultsOf(after, stage) == ResultsOf(base, stage) && after.conditions[t].status == False
         && after.conditions[t].reason == Named(why)
  }

  /** Exactly one write took effect, and the step it was made on has ended this way. */
  ghost predicate EndedBy(a: seq<Issued>, b: seq<Issued>, st: State, stage: Stage, e: Ending) {
    && a <= b && |b| == |a| + 1 && Stored(st, b[|a|].base.name, b[|a|].base.uid)
    && EndedAs(b[|a|].base, st.runs[b[|a|].base.name], stage, e)
  }

  lemma CompletionEnds(base: Run, after: Run, stage: Stage, e: Ending, now: int)
    requires after == Updated(base, CompletionOf(stage, e), now).(version := after.version)
    requires forall s :: ResultsOf(after, s) == ResultsOf(base, s) + Added(CompletionOf(stage, e), s)
    ensures EndedAs(base, after, stage, e)
  {
    hide ResultsOf, AddTokens, Stages.WithResult;
  }

  lemma LeftIsEnded(a: seq<Issued>, b: seq<Issued>, st: State, stage: Stage, e: Ending)
    requires LeftBy(a, b, st, CompletionOf(stage, e))
    ensures EndedBy(a, b, st, stage, e)
  {
    hide Updated, ResultsOf, Added, EndedAs, CompletionOf;
    var base := b[|a|].base;
    var now :| st.runs[base.name] == Updated(base, CompletionOf(stage, e), now).(version := st.runs[base.name].version);
    CompletionEnds(base, st.runs[base.name], stage, e, now);
  }

  /** Completes a step that is still open, under the caller's lock: one guarded read to decide,
      and a second one to write. */
  method CompleteStep(api: ApiServer, name: string, uid: Uid, stage: Stage, e: Ending) returns (r: Effort)
    requires api.Valid()
    modifies api
    ensures api.Valid() && LaterState(old(api.st), api.st)
    ensures WritesOnly(old(api.issued), api.issued, old(api.st), api.st, name, uid, {CompletionOf(stage, e)})
    ensures r.Written? ==> EndedBy(old(api.issued), api.issued, api.st, stage, e)
    ensures r.Unneeded? ==> exists c :: SeenBetween(old(api.st), api.st, c, name, uid) && StepClosed(c, stage, CompletionOf(stage, e))
    ensures r.Halted? ==> Barred(old(api.st), api.st, name, uid)
    ensures r.EffortFailed? ==> old(api.setbacks) < api.setbacks || Barred(old(api.st), api.st, name, uid)
    ensures old(api.setbacks) <= api.setbacks
  {
    hide Inv, LaterState, WritesOnly, CompletionOf, Barred, SeenBetween, EndedBy, LeftBy;
    ghost var s0, i0 := api.st, api.issued;
    var guard := ReadRunnableRun(api, name, uid);
    ghost var s1 := api.st;
    NothingWritten(i0, s0, s1, name, uid, {CompletionOf(stage, e)});
    LaterStateReflexive(s1);
    if !guard.Runnable? {
      return if guard.StopAccepted? then Halted else EffortFailed;
    }
    var t := StageCondition(stage);
    if t in guard.run.conditions && guard.run.conditions[t].status != Unknown {
      return Unneeded;
    }
    var conflict;
    r, conflict := PatchOnce(api, name, uid, CompletionOf(stage, e));
    LaterStateTransitive(s0, s1, api.st);
    WritesTransitive(i0, i0, api.issued, s0, s1, api.st, name, uid, {CompletionOf(stage, e)});
    LaterStateReflexive(api.st);
    if Barred(s1, api.st, name, uid) {
      BarredWithin(s0, s1, api.st, api.st, name, uid);
    }
    if r.Written? {
      LeftIsEnded(i0, api.issued, api.st, stage, e);
    }
    if r.Unneeded? {
      CompletionIsOfStage(stage, e);
      ghost var c :| SeenBetween(s1, api.st, c, name, uid) && !Changes(c, CompletionOf(stage, e));
      SeenSince(s0, s1, api.st, c, name, uid);
    }
  }

  /** The step's condition is decided, or already says what the write would. */
  predicate StepClosed(r: Run, stage: Stage, w: Write) {
    var t := StageCondition(stage);
    t in r.conditions && (r.conditions[t].status != Unknown || (w.StepCondition? && HoldsFor(r.conditions, t, w.status, Named(w.reason))))
  }

  lemma CompletionIsOfStage(stage: Stage, e: Ending)
    ensures CompletionOf(stage, e).StepCondition? ==> CompletionOf(stage, e).stage == stage
  {
  }
}
