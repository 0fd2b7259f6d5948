/** Step completion: pod events and timeout ticks race to link one result per in-progress
    step, each in several requests of its own, beside every other writer of the run. */
module Completion {
  import opened Conditions
  import opened Runs
  import opened RunWrites
  import opened Machine
  import opened Vocabulary
  import opened KillSwitch

  // ---------------------------------------------------------------------------
  // The machine
  // ---------------------------------------------------------------------------

  datatype Slot = Slot(uid: Uid, stage: Stage)

  /** Started: holds the lock. Checked: read the step condition as open. Ready: read the run
      again, as the base of its patch. */
  datatype Progress = Started | Checked | Ready(base: Run)

  datatype Job = Job(name: string, slot: Slot, at: Progress)

  /** The shared state, the completions in flight, and as history: links per step, times a
      closed step was reopened, the usage of every linked result per run, and per step the results
      referred to, in order, by its links and by the writes that failed it, and how many of the
      latter there were. */
  datatype System = System(
    mutex: bool,
    st: State,
    jobs: map<nat, Job>,
    linked: Slot -> nat,
    reopened: Slot -> nat,
    usages: Uid -> seq<TokenUsage>,
    refs: Slot -> seq<ResultRef>,
    failures: Slot -> nat)

  datatype Step =
    | Begin(id: nat, name: string, slot: Slot)
    | Check(id: nat)
    | Reread(id: nat)
    | Link(id: nat, ref: ResultRef, usage: TokenUsage, outcome: Status, noAction: bool)
    | LinkEscalating(id: nat, ref: ResultRef, usage: TokenUsage)
    | Abandon(id: nat)
    | Other(a: Action)

  predicate Closed(r: Run, stage: Stage) {
    var t := StageCondition(stage);
    t in r.conditions && r.conditions[t].status != Unknown
  }

  /** Links are made by completions only. */
  predicate IsLink(a: Action) {
    a.PatchRun? && (a.w.LinkResult? || a.w.EscalateVerification?)
  }

  /** The guard before any workflow work. */
  predicate Runnable(st: State, name: string, uid: Uid) {
    Stored(st, name, uid) && !HasAcceptedStop(st.runs[name].conditions) && (st.config.Some? ==> !st.config.value.suspended)
  }

  predicate Reopens(s: State, t: State, k: Slot) {
    exists n :: n in s.runs && n in t.runs && s.runs[n].uid == k.uid && t.runs[n].uid == k.uid &&
                Closed(s.runs[n], k.stage) && !Closed(t.runs[n], k.stage)
  }

  /** The shared state moves on; reopened steps are counted. */
  ghost function Moved(sys: System, t: State): System {
    sys.(st := t, reopened := (k: Slot) => TimesReopened(sys, t, k))
  }

  ghost function TimesReopened(sys: System, t: State, k: Slot): nat {
    sys.reopened(k) + if Reopens(sys.st, t, k) then 1 else 0
  }

  predicate LinkWrite(w: Write, stage: Stage) {
    (w.LinkResult? && w.linked == stage && w.outcome != Unknown) || (w.EscalateVerification? && stage == Verification)
  }

  function RefOf(w: Write): ResultRef
    requires w.LinkResult? || w.EscalateVerification?
  {
    if w.LinkResult? then w.ref else w.verdict
  }

  /** A write taking effect. */
  predicate Lands(s: State, base: Run, w: Write) {
    base in s.log && Enabled(base, w) && Unchanged(s, base)
  }

  /** The result a request refers to when it fails this step and takes effect. */
  function FailedRef(s: State, a: Action, k: Slot): seq<ResultRef> {
    if a.PatchRun? && Lands(s, a.base, a.w) && a.w.FailStep? && a.base.uid == k.uid && a.w.failed == k.stage && a.w.failure.Some?
    then [a.w.failure.value]
    else []
  }

  /** Everyone else's request; failures that refer to a result are noted. */
  ghost function Noted(sys: System, a: Action): System {
    Moved(sys, Apply(sys.st, a)).(
      refs := (k: Slot) => sys.refs(k) + FailedRef(sys.st, a, k),
      failures := (k: Slot) => sys.failures(k) + |FailedRef(sys.st, a, k)|)
  }

  function UsageOf(w: Write): TokenUsage
    requires w.LinkResult? || w.EscalateVerification?
  {
    if w.LinkResult? then w.usage else w.verdictUsage
  }

  /** The patch that ends a completion: it takes effect only on the version read. */
  ghost function Committed(sys: System, id: nat, w: Write): System
    requires id in sys.jobs && sys.jobs[id].at.Ready? && LinkWrite(w, sys.jobs[id].slot.stage)
  {
    var job := sys.jobs[id];
    var base := job.at.base;
    var done := sys.(jobs := sys.jobs - {id});
    if Lands(sys.st, base, w) then
      Moved(done, Apply(sys.st, PatchRun(base, w))).(
        linked := (k: Slot) => sys.linked(k) + (if k == job.slot then 1 else 0),
        usages := (u: Uid) => if u == job.slot.uid then sys.usages(u) + [UsageOf(w)] else sys.usages(u),
        refs := (k: Slot) => if k == job.slot then sys.refs(k) + [RefOf(w)] else sys.refs(k))
    else done
  }

  ghost function Next(sys: System, step: Step): System {
    match step
    case Begin(id, name, slot) =>
      if id in sys.jobs || (sys.mutex && sys.jobs != map[]) then sys
      else sys.(jobs := sys.jobs[id := Job(name, slot, Started)])
    case Check(id) =>
      if id !in sys.jobs || !sys.jobs[id].at.Started? then sys
      else
        var job := sys.jobs[id];
        if !Runnable(sys.st, job.name, job.slot.uid) || Closed(sys.st.runs[job.name], job.slot.stage) then
          sys.(jobs := sys.jobs - {id})
        else sys.(jobs := sys.jobs[id := job.(at := Checked)])
    case Reread(id) =>
      if id !in sys.jobs || !sys.jobs[id].at.Checked? then sys
      else
        var job := sys.jobs[id];
        if !Runnable(sys.st, job.name, job.slot.uid) then sys.(jobs := sys.jobs - {id})
        else sys.(jobs := sys.jobs[id := job.(at := Ready(sys.st.runs[job.name]))])
    case Link(id, ref, usage, outcome, noAction) =>
      if id !in sys.jobs || !sys.jobs[id].at.Ready? || outcome == Unknown then sys
      else Committed(sys, id, LinkResult(sys.jobs[id].slot.stage, ref, usage, outcome, noAction))
    case LinkEscalating(id, ref, usage) =>
      if id !in sys.jobs || !sys.jobs[id].at.Ready? || sys.jobs[id].slot.stage != Verification then sys
      else Committed(sys, id, EscalateVerification(ref, usage))
    case Abandon(id) => sys.(jobs := sys.jobs - {id})
    case Other(a) => if IsLink(a) then sys else Noted(sys, a)
  }

  ghost function Start(mutex: bool): System {
    System(mutex, INITIAL, map[], (k: Slot) => 0, (k: Slot) => 0, (u: Uid) => [], (k: Slot) => [], (k: Slot) => 0)
  }

  ghost function Play(sys: System, steps: seq<Step>): System
    decreases |steps|
  {
    if steps == [] then sys else Next(Play(sys, steps[..|steps| - 1]), steps[|steps| - 1])
  }

  // ---------------------------------------------------------------------------
  // Exactly-once
  // ---------------------------------------------------------------------------

  ghost predicate OneJob(sys: System) {
    forall i, j :: i in sys.jobs && j in sys.jobs ==> i == j
  }

  ghost predicate WithinBound(st: State, linked: Slot -> nat, reopened: Slot -> nat, n: string, stage: Stage)
    requires n in st.runs
  {
    var k := Slot(st.runs[n].uid, stage);
    linked(k) <= reopened(k) + (if Closed(st.runs[n], stage) then 1 else 0)
  }

  /** A completion past its check links a step that has not been linked since it last opened. */
  ghost predicate JobFresh(sys: System, job: Job) {
    && (!job.at.Started? ==> sys.linked(job.slot) <= sys.reopened(job.slot))
    && (job.at.Ready? ==> job.at.base in sys.st.log && job.at.base.uid == job.slot.uid && job.at.base.name == job.name &&
                          !HasAcceptedStop(job.at.base.conditions))
  }

  ghost predicate OnceInv(sys: System) {
    && OneJob(sys)
    && (forall n, stage :: n in sys.st.runs ==> WithinBound(sys.st, sys.linked, sys.reopened, n, stage))
    && (forall k :: sys.linked(k) <= sys.reopened(k) + 1)
    && (forall k: Slot :: k.uid !in sys.st.usedUids ==> sys.linked(k) == 0)
    && (forall i :: i in sys.jobs ==> JobFresh(sys, sys.jobs[i]))
  }

  lemma SameUidSameName(s: State, n: string, m: string)
    requires RunsInv(s) && n in s.runs && m in s.runs && s.runs[n].uid == s.runs[m].uid
    ensures n == m
  {
    var a, b := s.runs[n], s.runs[m];
    assert a in s.log && b in s.log;
    assert Later(a, b);
  }

  /** Whatever else happens to the runs, the bound follows: closing never breaks it and
      reopening is counted. */
  lemma MovingKeepsBound(sys: System, t: State, n: string, stage: Stage)
    requires OnceInv(sys) && Inv(sys.st) && Inv(t) && LaterState(sys.st, t) && n in t.runs
    ensures WithinBound(t, sys.linked, Moved(sys, t).reopened, n, stage)
  {
    var uid := t.runs[n].uid;
    var k := Slot(uid, stage);
    if uid in sys.st.usedUids {
      assert Stored(t, n, uid);
      assert Stored(sys.st, n, uid);
      assert WithinBound(sys.st, sys.linked, sys.reopened, n, stage);
      if Closed(sys.st.runs[n], stage) && !Closed(t.runs[n], stage) {
        assert Reopens(sys.st, t, k);
      }
    } else {
      assert sys.linked(k) == 0;
    }
  }

  lemma MovingKeepsOnce(sys: System, t: State)
    requires OnceInv(sys) && Inv(sys.st) && Inv(t) && LaterState(sys.st, t)
    ensures OnceInv(Moved(sys, t))
  {
    var next := Moved(sys, t);
    forall n, stage | n in t.runs
      ensures WithinBound(t, next.linked, next.reopened, n, stage)
    {
      MovingKeepsBound(sys, t, n, stage);
    }
    forall i | i in next.jobs
      ensures JobFresh(next, next.jobs[i])
    {
      assert JobFresh(sys, sys.jobs[i]);
    }
  }

  /** A patch that links closes the step. */
  lemma LinkCloses(base: Run, w: Write, stage: Stage, now: int)
    requires LinkWrite(w, stage)
    ensures Closed(Updated(base, w, now), stage)
  {
  }

  lemma CommittingKeepsOnce(sys: System, id: nat, w: Write)
    requires OnceInv(sys) && Inv(sys.st) && id in sys.jobs && sys.jobs[id].at.Ready?
    requires LinkWrite(w, sys.jobs[id].slot.stage)
    ensures OnceInv(Committed(sys, id, w))
  {
    hide Inv, Apply, Enabled, LinkWrite, Updated, Closed;
    var job := sys.jobs[id];
    var base := job.at.base;
    assert JobFresh(sys, job);
    var done := sys.(jobs := sys.jobs - {id});
    assert OnceInv(done);
    if base in sys.st.log && Enabled(base, w) && Unchanged(sys.st, base) {
      var t := Apply(sys.st, PatchRun(base, w));
      LinkedState(sys.st, base, w, job.slot.stage);
      MovingKeepsOnce(done, t);
      LinkingKeepsOnce(Moved(done, t), job.slot, job.name, Committed(sys, id, w));
    }
  }

  /** The patched run is in place, with the step closed. */
  lemma LinkedState(s: State, base: Run, w: Write, stage: Stage)
    requires Inv(s) && base in s.log && Enabled(base, w) && Unchanged(s, base) && LinkWrite(w, stage)
    ensures var t := Apply(s, PatchRun(base, w));
            Inv(t) && LaterState(s, t) && Stored(t, base.name, base.uid) && Closed(t.runs[base.name], stage)
  {
    ActionKeeps(s, PatchRun(base, w));
    UnchangedIsStored(s, base);
    LinkCloses(base, w, stage, s.clock);
  }

  /** One more link of a step that is now closed and had not been linked since it last opened. */
  lemma LinkingKeepsOnce(moved: System, slot: Slot, name: string, next: System)
    requires OnceInv(moved) && Inv(moved.st) && Stored(moved.st, name, slot.uid) && Closed(moved.st.runs[name], slot.stage)
    requires moved.linked(slot) <= moved.reopened(slot) && moved.jobs == map[]
    requires next.st == moved.st && next.jobs == map[] && next.reopened == moved.reopened
    requires forall k :: next.linked(k) == moved.linked(k) + (if k == slot then 1 else 0)
    ensures OnceInv(next)
  {
    hide Closed;
    forall n, stage | n in next.st.runs
      ensures WithinBound(next.st, next.linked, next.reopened, n, stage)
    {
      assert WithinBound(moved.st, moved.linked, moved.reopened, n, stage);
      if Slot(next.st.runs[n].uid, stage) == slot {
        SameUidSameName(next.st, n, name);
      }
    }
    assert slot.uid in moved.st.usedUids by { StoredIsSpent(moved.st, name); }
  }

  lemma StoredIsSpent(s: State, n: string)
    requires Inv(s) && n in s.runs
    ensures s.runs[n].uid in s.usedUids
  {
    assert s.runs[n] in s.log;
  }

  lemma StepKeepsOnce(sys: System, step: Step)
    requires OnceInv(sys) && Inv(sys.st) && sys.mutex
    ensures OnceInv(Next(sys, step))
  {
    hide Inv, LaterState, Apply, Enabled, Runnable, Reopens, WithinBound;
    match step
    case Link(id, ref, usage, outcome, noAction) =>
      if id in sys.jobs && sys.jobs[id].at.Ready? && outcome != Unknown {
        CommittingKeepsOnce(sys, id, LinkResult(sys.jobs[id].slot.stage, ref, usage, outcome, noAction));
      }
    case LinkEscalating(id, ref, usage) =>
      if id in sys.jobs && sys.jobs[id].at.Ready? && sys.jobs[id].slot.stage == Verification {
        CommittingKeepsOnce(sys, id, EscalateVerification(ref, usage));
      }
    case Other(a) =>
      if !IsLink(a) {
        ActionKeeps(sys.st, a);
        MovingKeepsOnce(sys, Apply(sys.st, a));
      }
    case Begin(_, _, _) =>
    case Check(id) => CheckKeepsOnce(sys, id);
    case Reread(id) => RereadKeepsOnce(sys, id);
    case Abandon(_) =>
  }

  lemma CheckKeepsOnce(sys: System, id: nat)
    requires OnceInv(sys) && Inv(sys.st) && sys.mutex
    ensures OnceInv(Next(sys, Check(id)))
  {
    if id in sys.jobs && Runnable(sys.st, sys.jobs[id].name, sys.jobs[id].slot.uid) {
      assert WithinBound(sys.st, sys.linked, sys.reopened, sys.jobs[id].name, sys.jobs[id].slot.stage);
    }
  }

  lemma RereadKeepsOnce(sys: System, id: nat)
    requires OnceInv(sys) && Inv(sys.st) && sys.mutex
    ensures OnceInv(Next(sys, Reread(id)))
  {
    if id in sys.jobs {
      assert JobFresh(sys, sys.jobs[id]);
    }
  }

  lemma StepKeepsState(sys: System, step: Step)
    requires Inv(sys.st)
    ensures Inv(Next(sys, step).st) && Next(sys, step).mutex == sys.mutex
  {
    hide Inv, LaterState, Apply, Enabled, Closed, Runnable, Reopens;
    match step
    case Link(id, ref, usage, outcome, noAction) =>
      if id in sys.jobs && sys.jobs[id].at.Ready? {
        ActionKeeps(sys.st, PatchRun(sys.jobs[id].at.base, LinkResult(sys.jobs[id].slot.stage, ref, usage, outcome, noAction)));
      }
    case LinkEscalating(id, ref, usage) =>
      if id in sys.jobs && sys.jobs[id].at.Ready? {
        ActionKeeps(sys.st, PatchRun(sys.jobs[id].at.base, EscalateVerification(ref, usage)));
      }
    case Other(a) => ActionKeeps(sys.st, a);
    case _ =>
  }

  lemma {:induction false} PlayKeepsOnce(steps: seq<Step>)
    ensures OnceInv(Play(Start(true), steps)) && Inv(Play(Start(true), steps).st) && Play(Start(true), steps).mutex
    decreases |steps|
  {
    if steps == [] {
      InitialInv();
    } else {
      var before := steps[..|steps| - 1];
      PlayKeepsOnce(before);
      StepKeepsOnce(Play(Start(true), before), steps[|steps| - 1]);
      StepKeepsState(Play(Start(true), before), steps[|steps| - 1]);
    }
  }

  // ---------------------------------------------------------------------------
  // Token conservation
  // ---------------------------------------------------------------------------

  function Amount(count: Option<int>): int {
    if count.Some? then count.value else 0
  }

  function Inputs(usages: seq<TokenUsage>): int {
    if usages == [] then 0 else Inputs(usages[..|usages| - 1]) + Amount(usages[|usages| - 1].input)
  }

  function Outputs(usages: seq<TokenUsage>): int {
    if usages == [] then 0 else Outputs(usages[..|usages| - 1]) + Amount(usages[|usages| - 1].output)
  }

  predicate Silent(usages: seq<TokenUsage>) {
    forall i :: 0 <= i < |usages| ==> NoUsage(usages[i])
  }

  /** The counters of a run against the results linked to it. */
  predicate Totalled(tokens: TokenUsage, usages: seq<TokenUsage>) {
    tokens == if Silent(usages) then NO_TOKENS else TokenUsage(Some(Wrap64(Inputs(usages))), Some(Wrap64(Outputs(usages))))
  }

  lemma WrapAdds(x: int, y: int)
    ensures Wrap64(Wrap64(x) + y) == Wrap64(x + y)
  {
  }

  lemma {:induction false} SilentIsZero(usages: seq<TokenUsage>)
    requires Silent(usages)
    ensures Inputs(usages) == 0 && Outputs(usages) == 0
    decreases |usages|
  {
    if usages == [] {
    } else {
      assert NoUsage(usages[|usages| - 1]);
      SilentIsZero(usages[..|usages| - 1]);
    }
  }

  /** Adding a result's usage to the counters is adding it to the sums. */
  lemma AddingTotals(tokens: TokenUsage, usages: seq<TokenUsage>, usage: TokenUsage)
    requires Totalled(tokens, usages)
    ensures AddTokens(tokens, usage).Some? && Totalled(AddTokens(tokens, usage).value, usages + [usage])
  {
    var all := usages + [usage];
    assert all[..|all| - 1] == usages && all[|all| - 1] == usage;
    if Silent(usages) {
      SilentIsZero(usages);
    }
    if NoUsage(usage) {
      assert Silent(all) <==> Silent(usages);
    } else {
      assert !Silent(all);
      WrapAdds(Inputs(usages), Amount(usage.input));
      WrapAdds(Outputs(usages), Amount(usage.output));
    }
  }

  ghost predicate TotalsInv(sys: System) {
    && (forall n :: n in sys.st.runs ==> Totalled(sys.st.runs[n].tokens, sys.usages(sys.st.runs[n].uid)))
    && (forall u :: u !in sys.st.usedUids ==> sys.usages(u) == [])
    && (forall i :: i in sys.jobs && sys.jobs[i].at.Ready? ==> OwnBase(sys.jobs[i]))
  }

  predicate OwnBase(job: Job)
    requires job.at.Ready?
  {
    job.at.base.uid == job.slot.uid
  }

  /** No other writer touches the counters. */
  lemma OtherKeepsTokens(s: State, a: Action, n: string)
    requires Inv(s) && !IsLink(a) && n in Apply(s, a).runs
    ensures if Apply(s, a).runs[n].uid in s.usedUids
            then Stored(s, n, Apply(s, a).runs[n].uid) && Apply(s, a).runs[n].tokens == s.runs[n].tokens
            else Apply(s, a).runs[n].tokens == NO_TOKENS
  {
    hide Enabled, Updated, Later, RunWellFormed, HasAcceptedStop, RevisionRouted, History, VersionsUnique, ConfigInv, SafetyInv;
    var t := Apply(s, a);
    var uid := t.runs[n].uid;
    ActionKeeps(s, a);
    if uid in s.usedUids {
      assert Stored(t, n, uid);
      TokensUntouched(s, a, n);
    }
  }

  lemma TokensUntouched(s: State, a: Action, n: string)
    requires Inv(s) && !IsLink(a) && n in s.runs && Stored(Apply(s, a), n, s.runs[n].uid)
    ensures Apply(s, a).runs[n].tokens == s.runs[n].tokens
  {
    hide Enabled, Updated, RunWellFormed, HasAcceptedStop, RevisionRouted, CanPatchConfig, History, Later, ConfigInv, SafetyInv;
    match a
    case PatchRun(base, w) =>
      if base in s.log && Enabled(base, w) && Unchanged(s, base) {
        UnchangedIsStored(s, base);
        OnlyLinksCount(base, w, s.clock);
      }
    case ReviseRefreshed(base) =>
      if base in s.refreshed && Unchanged(s, base) {
        UnchangedIsStored(s, base);
      }
    case _ =>
  }

  lemma OnlyLinksCount(r: Run, w: Write, now: int)
    requires !w.LinkResult? && !w.EscalateVerification?
    ensures Updated(r, w, now).tokens == r.tokens
  {
  }

  lemma OtherKeepsTotals(sys: System, a: Action)
    requires TotalsInv(sys) && Inv(sys.st) && !IsLink(a)
    ensures TotalsInv(Next(sys, Other(a)))
  {
    hide Inv, Apply, Inputs, Outputs;
    var t := Apply(sys.st, a);
    ActionKeeps(sys.st, a);
    forall n | n in t.runs
      ensures Totalled(t.runs[n].tokens, sys.usages(t.runs[n].uid))
    {
      OtherKeepsTokens(sys.st, a, n);
    }
  }

  lemma LinkedTokens(base: Run, w: Write, now: int)
    requires (w.LinkResult? || w.EscalateVerification?) && AddTokens(base.tokens, UsageOf(w)).Some?
    ensures Updated(base, w, now).tokens == AddTokens(base.tokens, UsageOf(w)).value
  {
  }

  /** What a link that takes effect leaves in place. */
  lemma LinkedRun(s: State, base: Run, w: Write)
    requires Inv(s) && base in s.log && Enabled(base, w) && Unchanged(s, base) && (w.LinkResult? || w.EscalateVerification?)
    requires AddTokens(base.tokens, UsageOf(w)).Some?
    ensures var t := Apply(s, PatchRun(base, w));
            && Inv(t) && LaterState(s, t) && t.runs.Keys == s.runs.Keys
            && Stored(s, base.name, base.uid) && s.runs[base.name] == base && Stored(t, base.name, base.uid)
            && t.runs[base.name].tokens == AddTokens(base.tokens, UsageOf(w)).value
            && forall n :: n in t.runs && n != base.name ==> t.runs[n] == s.runs[n]
  {
    ActionKeeps(s, PatchRun(base, w));
    UnchangedIsStored(s, base);
    LinkedTokens(base, w, s.clock);
  }

  lemma CommittingKeepsTotals(sys: System, id: nat, w: Write)
    requires TotalsInv(sys) && Inv(sys.st) && id in sys.jobs && sys.jobs[id].at.Ready? && LinkWrite(w, sys.jobs[id].slot.stage)
    ensures TotalsInv(Committed(sys, id, w))
  {
    hide Inv, LaterState, Apply, Enabled, Totalled, AddTokens;
    var base := sys.jobs[id].at.base;
    if base in sys.st.log && Enabled(base, w) && Unchanged(sys.st, base) {
      var next := Committed(sys, id, w);
      StoredTotal(sys, base);
      AddingTotals(base.tokens, sys.usages(base.uid), UsageOf(w));
      LinkedRun(sys.st, base, w);
      SpentLater(sys.st, next.st);
      assert OwnBase(sys.jobs[id]);
      LinkedTotals(sys, next.st, base, w, next.usages);
      BaseIsSpent(sys.st, base);
    }
  }

  lemma BaseIsSpent(s: State, base: Run)
    requires Inv(s) && base in s.log
    ensures base.uid in s.usedUids
  {
  }

  lemma SpentLater(s: State, t: State)
    requires LaterState(s, t)
    ensures s.usedUids <= t.usedUids
  {
  }

  lemma StoredTotal(sys: System, base: Run)
    requires TotalsInv(sys) && Inv(sys.st) && base in sys.st.log && Unchanged(sys.st, base)
    ensures sys.st.runs[base.name] == base && Totalled(base.tokens, sys.usages(base.uid))
  {
    UnchangedIsStored(sys.st, base);
  }

  lemma LinkedTotals(sys: System, t: State, base: Run, w: Write, usages: Uid -> seq<TokenUsage>)
    requires TotalsInv(sys) && Inv(sys.st) && Inv(t) && base in sys.st.log && Stored(sys.st, base.name, base.uid)
    requires t.runs.Keys == sys.st.runs.Keys && (w.LinkResult? || w.EscalateVerification?)
    requires forall n :: n in t.runs && n != base.name ==> t.runs[n] == sys.st.runs[n]
    requires Stored(t, base.name, base.uid) && Totalled(t.runs[base.name].tokens, sys.usages(base.uid) + [UsageOf(w)])
    requires forall u :: usages(u) == if u == base.uid then sys.usages(u) + [UsageOf(w)] else sys.usages(u)
    ensures forall n :: n in t.runs ==> Totalled(t.runs[n].tokens, usages(t.runs[n].uid))
  {
    hide Totalled;
    forall n | n in t.runs
      ensures Totalled(t.runs[n].tokens, usages(t.runs[n].uid))
    {
      if n != base.name && t.runs[n].uid == base.uid {
        SameUidSameName(t, n, base.name);
      }
    }
  }

  lemma StepKeepsTotals(sys: System, step: Step)
    requires TotalsInv(sys) && Inv(sys.st)
    ensures TotalsInv(Next(sys, step))
  {
    match step
    case Link(id, ref, usage, outcome, noAction) =>
      if id in sys.jobs && sys.jobs[id].at.Ready? && outcome != Unknown {
        CommittingKeepsTotals(sys, id, LinkResult(sys.jobs[id].slot.stage, ref, usage, outcome, noAction));
      }
    case LinkEscalating(id, ref, usage) =>
      if id in sys.jobs && sys.jobs[id].at.Ready? && sys.jobs[id].slot.stage == Verification {
        CommittingKeepsTotals(sys, id, EscalateVerification(ref, usage));
      }
    case Other(a) =>
      if !IsLink(a) {
        OtherKeepsTotals(sys, a);
      }
    case _ =>
  }

  lemma {:induction false} PlayKeepsTotals(mutex: bool, steps: seq<Step>)
    ensures TotalsInv(Play(Start(mutex), steps)) && Inv(Play(Start(mutex), steps).st)
    decreases |steps|
  {
    if steps == [] {
      InitialInv();
    } else {
      var before := steps[..|steps| - 1];
      PlayKeepsTotals(mutex, before);
      StepKeepsTotals(Play(Start(mutex), before), steps[|steps| - 1]);
      StepKeepsState(Play(Start(mutex), before), steps[|steps| - 1]);
    }
  }

  predicate Fits(x: int) {
    -0x8000_0000_0000_0000 <= x < 0x8000_0000_0000_0000
  }

  /** What the counters of one run say about the results linked to it. */
  ghost predicate Conserved(tokens: TokenUsage, usages: seq<TokenUsage>) {
    if Silent(usages) then tokens == NO_TOKENS
    else
      && tokens.input.Some? && tokens.output.Some?
      && tokens.input.value == Wrap64(Inputs(usages)) && tokens.output.value == Wrap64(Outputs(usages))
      && (tokens.input.value == Inputs(usages) <==> Fits(Inputs(usages)))
      && (tokens.output.value == Outputs(usages) <==> Fits(Outputs(usages)))
  }

  lemma WrapIsExact(x: int)
    ensures Wrap64(x) == x <==> Fits(x)
  {
  }

  /** The counters of every run are the sums over the results linked to it, modulo 64 bits, and
      they are those sums exactly if and only if the sums fit; both are set or neither is, so
      that no addition ever meets a counter that was not allocated. Completions need not even
      be serialised. */
  lemma TokensAreConserved(mutex: bool, steps: seq<Step>, n: string, usage: TokenUsage)
    requires n in Play(Start(mutex), steps).st.runs
    ensures var sys := Play(Start(mutex), steps);
            && Conserved(sys.st.runs[n].tokens, sys.usages(sys.st.runs[n].uid))
            && TokensPaired(sys.st.runs[n].tokens)
            && AddTokens(sys.st.runs[n].tokens, usage).Some?
  {
    hide Play, Inv, AddTokens, Inputs, Outputs, Wrap64, Fits;
    PlayKeepsTotals(mutex, steps);
    var sys := Play(Start(mutex), steps);
    var usages := sys.usages(sys.st.runs[n].uid);
    WrapIsExact(Inputs(usages));
    WrapIsExact(Outputs(usages));
    AddingTotals(sys.st.runs[n].tokens, usages, usage);
  }

  // ---------------------------------------------------------------------------
  // Results
  // ---------------------------------------------------------------------------

  /** A run stored before and after a request has the results it had and those the request added. */
  ghost predicate Adds(s: State, a: Action, n: string)
    requires n in s.runs && n in Apply(s, a).runs
  {
    forall stage :: ResultsOf(Apply(s, a).runs[n], stage) == ResultsOf(s.runs[n], stage) + AddedBy(s, a, Slot(s.runs[n].uid, stage))
  }

  function AddedBy(s: State, a: Action, k: Slot): seq<ResultRef> {
    if a.PatchRun? && Lands(s, a.base, a.w) && a.base.uid == k.uid then Added(a.w, k.stage) else []
  }

  lemma PatchAdds(s: State, base: Run, w: Write, n: string)
    requires Inv(s) && n in s.runs && n in Apply(s, PatchRun(base, w)).runs
    ensures Adds(s, PatchRun(base, w), n)
  {
    hide Enabled, Updated, RunWellFormed, History, VersionsUnique, Later, ConfigInv, SafetyInv, Added, ResultsOf;
    if Lands(s, base, w) {
      UnchangedIsStored(s, base);
      if base.name == n {
        forall stage
          ensures ResultsOf(Updated(base, w, s.clock), stage) == ResultsOf(base, stage) + Added(w, stage)
        {
          WriteAdds(base, w, s.clock, stage);
        }
        VersionHoldsNone(Updated(base, w, s.clock), s.nextVersion);
      } else if base.uid == s.runs[n].uid {
        SameUidSameName(s, base.name, n);
      }
    }
  }

  lemma VersionHoldsNone(r: Run, version: nat)
    ensures forall stage :: ResultsOf(r.(version := version), stage) == ResultsOf(r, stage)
  {
  }

  lemma RevisionRequestAdds(s: State, base: Run, n: string)
    requires Inv(s) && n in s.runs && n in Apply(s, ReviseRefreshed(base)).runs
    ensures Adds(s, ReviseRefreshed(base), n)
  {
    hide Revised, RunWellFormed, History, VersionsUnique, Later, ConfigInv, SafetyInv, Added, ResultsOf;
    if base in s.refreshed && Unchanged(s, base) {
      UnchangedIsStored(s, base);
      RevisionAdds(base, s.clock);
      VersionHoldsNone(Revised(base, s.clock), s.nextVersion);
    }
  }

  lemma RequestAdds(s: State, a: Action, n: string)
    requires Inv(s) && n in s.runs && Stored(Apply(s, a), n, s.runs[n].uid)
    ensures Adds(s, a, n)
  {
    hide Enabled, Updated, Revised, RunWellFormed, HasAcceptedStop, RevisionRouted, CanPatchConfig, History, VersionsUnique,
      Later, ConfigInv, SafetyInv, Added;
    match a
    case PatchRun(base, w) => PatchAdds(s, base, w, n);
    case ReviseRefreshed(base) => RevisionRequestAdds(s, base, n);
    case _ =>
  }

  lemma RevisionAdds(r: Run, now: int)
    ensures forall stage :: ResultsOf(Revised(r, now), stage) == ResultsOf(r, stage)
    ensures Revised(r, now).name == r.name && Revised(r, now).uid == r.uid
  {
  }

  lemma NewHasNone(s: State, a: Action, n: string)
    requires Inv(s) && n in Apply(s, a).runs && Apply(s, a).runs[n].uid !in s.usedUids
    ensures forall stage :: ResultsOf(Apply(s, a).runs[n], stage) == []
  {
    hide Enabled, Updated, Revised, HasAcceptedStop, RevisionRouted, CanPatchConfig, History, Later, ConfigInv, SafetyInv;
    BornNow(s, a, n);
  }

  lemma BornNow(s: State, a: Action, n: string)
    requires Inv(s) && n in Apply(s, a).runs && Apply(s, a).runs[n].uid !in s.usedUids
    ensures a.CreateRun? && n == a.newName && Apply(s, a).runs[n].stages == FRESH_STAGES
  {
    hide Enabled, Updated, Revised, HasAcceptedStop, RevisionRouted, CanPatchConfig, History, VersionsUnique, Later,
      RunWellFormed, ConfigInv, SafetyInv;
    if !a.CreateRun? {
      OnlyCreationSpends(s, a, n);
    }
  }

  lemma OnlyCreationSpends(s: State, a: Action, n: string)
    requires Inv(s) && !a.CreateRun? && n in Apply(s, a).runs
    ensures Apply(s, a).runs[n].uid in s.usedUids
  {
    hide Enabled, Updated, Revised, HasAcceptedStop, RevisionRouted, CanPatchConfig, History, VersionsUnique, Later, RunWellFormed;
    ActionKeeps(s, a);
    assert Apply(s, a).runs[n] in Apply(s, a).log;
  }

  ghost predicate Recorded(st: State, refs: Slot -> seq<ResultRef>, n: string)
    requires n in st.runs
  {
    forall stage :: ResultsOf(st.runs[n], stage) == refs(Slot(st.runs[n].uid, stage))
  }

  ghost predicate ResultsInv(sys: System) {
    && (forall n :: n in sys.st.runs ==> Recorded(sys.st, sys.refs, n))
    && (forall k :: |sys.refs(k)| == sys.linked(k) + sys.failures(k))
    && (forall k: Slot :: k.uid !in sys.st.usedUids ==> sys.refs(k) == [])
    && (forall i :: i in sys.jobs && sys.jobs[i].at.Ready? ==> OwnBase(sys.jobs[i]))
  }

  /** One more request, after which the history has what the request added. */
  lemma RequestKeepsRecords(s: State, a: Action, refs: Slot -> seq<ResultRef>, after: Slot -> seq<ResultRef>)
    requires Inv(s) && forall n :: n in s.runs ==> Recorded(s, refs, n)
    requires forall k: Slot :: k.uid !in s.usedUids ==> refs(k) == []
    requires forall k :: after(k) == refs(k) + AddedBy(s, a, k)
    ensures forall n :: n in Apply(s, a).runs ==> Recorded(Apply(s, a), after, n)
    ensures forall k: Slot :: k.uid !in Apply(s, a).usedUids ==> after(k) == []
  {
    hide Inv, Apply, Added, LaterState, Lands;
    ActionKeeps(s, a);
    UidsOnlyGrow(s, a);
    var t := Apply(s, a);
    forall n | n in t.runs
      ensures Recorded(t, after, n)
    {
      if t.runs[n].uid in s.usedUids {
        KnownBefore(s, t, n);
        RequestAdds(s, a, n);
        assert Recorded(s, refs, n);
      } else {
        NewHasNone(s, a, n);
      }
    }
  }

  lemma KnownBefore(s: State, t: State, n: string)
    requires LaterState(s, t) && n in t.runs && t.runs[n].uid in s.usedUids
    ensures Stored(s, n, t.runs[n].uid)
  {
    assert Stored(t, n, t.runs[n].uid);
  }

  /** What a request adds, it adds to a run whose UID is spent. */
  lemma UidsOnlyGrow(s: State, a: Action)
    requires Inv(s)
    ensures s.usedUids <= Apply(s, a).usedUids
    ensures forall k: Slot :: k.uid !in s.usedUids ==> AddedBy(s, a, k) == []
  {
    hide Later, History, RunWellFormed;
    ActionKeeps(s, a);
  }

  lemma OthersKeepResults(sys: System, a: Action)
    requires ResultsInv(sys) && Inv(sys.st) && !IsLink(a)
    ensures ResultsInv(Noted(sys, a))
  {
    hide Inv, Apply, Recorded, Lands;
    forall k
      ensures FailedRef(sys.st, a, k) == AddedBy(sys.st, a, k)
    {
    }
    RequestKeepsRecords(sys.st, a, sys.refs, Noted(sys, a).refs);
  }

  lemma CommittingKeepsResults(sys: System, id: nat, w: Write)
    requires ResultsInv(sys) && Inv(sys.st) && id in sys.jobs && sys.jobs[id].at.Ready? && LinkWrite(w, sys.jobs[id].slot.stage)
    ensures ResultsInv(Committed(sys, id, w))
  {
    hide Inv, Apply, Recorded;
    var base := sys.jobs[id].at.base;
    if Lands(sys.st, base, w) {
      var next := Committed(sys, id, w);
      assert OwnBase(sys.jobs[id]);
      forall k
        ensures next.refs(k) == sys.refs(k) + AddedBy(sys.st, PatchRun(base, w), k)
      {
        assert AddedBy(sys.st, PatchRun(base, w), k) == if k == sys.jobs[id].slot then [RefOf(w)] else [];
      }
      RequestKeepsRecords(sys.st, PatchRun(base, w), sys.refs, next.refs);
    }
  }

  lemma StepKeepsResults(sys: System, step: Step)
    requires ResultsInv(sys) && Inv(sys.st)
    ensures ResultsInv(Next(sys, step))
  {
    hide Inv, Apply, Recorded, Lands, Noted, Committed;
    match step
    case Link(id, ref, usage, outcome, noAction) =>
      if id in sys.jobs && sys.jobs[id].at.Ready? && outcome != Unknown {
        CommittingKeepsResults(sys, id, LinkResult(sys.jobs[id].slot.stage, ref, usage, outcome, noAction));
      }
    case LinkEscalating(id, ref, usage) =>
      if id in sys.jobs && sys.jobs[id].at.Ready? && sys.jobs[id].slot.stage == Verification {
        CommittingKeepsResults(sys, id, EscalateVerification(ref, usage));
      }
    case Other(a) =>
      if !IsLink(a) {
        OthersKeepResults(sys, a);
      }
    case _ =>
  }

  lemma {:induction false} PlayKeepsResults(mutex: bool, steps: seq<Step>)
    ensures ResultsInv(Play(Start(mutex), steps)) && Inv(Play(Start(mutex), steps).st)
    decreases |steps|
  {
    hide Next, Inv;
    if steps == [] {
      InitialInv();
    } else {
      var before := steps[..|steps| - 1];
      PlayKeepsResults(mutex, before);
      StepKeepsResults(Play(Start(mutex), before), steps[|steps| - 1]);
      StepKeepsState(Play(Start(mutex), before), steps[|steps| - 1]);
    }
  }

  /** Over every play, serialised or not, the results stored for a step are exactly those of the
      links that took effect and of the writes that failed the step with a result, each once and
      in order. */
  lemma ResultsAreConserved(mutex: bool, steps: seq<Step>, n: string, stage: Stage)
    requires n in Play(Start(mutex), steps).st.runs
    ensures var sys := Play(Start(mutex), steps);
            var k := Slot(sys.st.runs[n].uid, stage);
            && ResultsOf(sys.st.runs[n], stage) == sys.refs(k)
            && |ResultsOf(sys.st.runs[n], stage)| == sys.linked(k) + sys.failures(k)
  {
    hide Play, Inv;
    PlayKeepsResults(mutex, steps);
    assert Recorded(Play(Start(mutex), steps).st, Play(Start(mutex), steps).refs, n);
  }

  /** No verdict on the step yet. */
  predicate IsOpen(cs: RunConditions, t: ConditionType) {
    t !in cs || cs[t].status == Unknown
  }

  /** With completions serialised, however many pod events and timeout ticks there are and
      whatever everyone else writes in between: a step is linked at most once more often than
      it was reopened, and not at all since it last opened while it is open; and apart from failed
      attempts that left one, it has at most that many results stored. */
  lemma LinkedOnce(steps: seq<Step>, k: Slot)
    ensures var sys := Play(Start(true), steps);
            && sys.linked(k) <= sys.reopened(k) + 1
            && (forall n :: Stored(sys.st, n, k.uid) && IsOpen(sys.st.runs[n].conditions, StageCondition(k.stage)) ==>
                  sys.linked(k) <= sys.reopened(k))
            && (forall n :: Stored(sys.st, n, k.uid) ==>
                  |ResultsOf(sys.st.runs[n], k.stage)| <= sys.reopened(k) + 1 + sys.failures(k))
  {
    PlayKeepsOnce(steps);
    var sys := Play(Start(true), steps);
    forall n | Stored(sys.st, n, k.uid) && IsOpen(sys.st.runs[n].conditions, StageCondition(k.stage))
      ensures sys.linked(k) <= sys.reopened(k)
    {
      assert WithinBound(sys.st, sys.linked, sys.reopened, n, k.stage);
    }
    forall n | Stored(sys.st, n, k.uid)
      ensures |ResultsOf(sys.st.runs[n], k.stage)| <= sys.reopened(k) + 1 + sys.failures(k)
    {
      ResultsAreConserved(true, steps, n, k.stage);
    }
  }

  // ---------------------------------------------------------------------------
  // Why the lock is needed
  // ---------------------------------------------------------------------------

  ghost predicate Played(sys: System) {
    exists steps :: sys == Play(Start(false), steps)
  }

  lemma PlayedOn(sys: System, step: Step)
    requires Played(sys)
    ensures Played(Next(sys, step))
  {
    var steps :| sys == Play(Start(false), steps);
    assert (steps + [step])[..|steps|] == steps;
    assert Next(sys, step) == Play(Start(false), steps + [step]);
  }

  const NAME := "run"
  const UID := "uid"
  const SLOT := Slot(UID, Analysis)

  /** Nothing has been linked or reopened yet, and the run is being analysed. */
  ghost predicate Open(sys: System, jobs: map<nat, Job>) {
    && Played(sys) && !sys.mutex && Inv(sys.st) && sys.jobs == jobs
    && Runnable(sys.st, NAME, UID) && !Closed(sys.st.runs[NAME], Analysis)
    && (forall k :: sys.linked(k) == 0 && sys.reopened(k) == 0)
  }

  const CREATE := CreateRun(NAME, UID, Spec("", "", true, true, None), "", false)

  lemma CreatedState()
    ensures var s := Apply(INITIAL, CREATE);
            s.runs.Keys == {NAME} && s.runs[NAME].uid == UID && s.runs[NAME].conditions == map[] && !IsLink(CREATE)
  {
  }

  lemma FirstState()
    ensures NAME in Apply(INITIAL, CREATE).runs
    ensures var s := Apply(Apply(INITIAL, CREATE), PatchRun(Apply(INITIAL, CREATE).runs[NAME], StartAnalysis));
            Runnable(s, NAME, UID) && !Closed(s.runs[NAME], Analysis)
  {
    var created := Apply(INITIAL, CREATE);
    var r := created.runs[NAME];
    assert r.conditions == map[];
    assert Enabled(r, StartAnalysis);
    var s := Apply(created, PatchRun(r, StartAnalysis));
    assert s.runs[NAME].conditions == map[Analyzed := Condition(Unknown, InProgress, 1, SECOND)];
  }

  lemma NothingReopened(s: State, t: State)
    requires forall n :: n in s.runs ==> s.runs[n].conditions == map[]
    ensures forall k :: !Reopens(s, t, k)
  {
  }

  lemma Opened() returns (sys: System)
    ensures Open(sys, map[])
  {
    hide Inv, Apply, Runnable, Closed, Reopens;
    CreatedState();
    FirstState();
    var start := Start(false);
    assert start == Play(start, []);
    InitialInv();
    NothingReopened(INITIAL, Apply(INITIAL, CREATE));
    var created := Next(start, Other(CREATE));
    PlayedOn(start, Other(CREATE));
    StepKeepsState(start, Other(CREATE));
    var patch := PatchRun(created.st.runs[NAME], StartAnalysis);
    NothingReopened(created.st, Apply(created.st, patch));
    sys := Next(created, Other(patch));
    PlayedOn(created, Other(patch));
    StepKeepsState(created, Other(patch));
  }

  lemma OpenStep(sys: System, jobs: map<nat, Job>, step: Step) returns (next: System)
    requires Open(sys, jobs) && (step.Begin? || step.Check?)
    ensures next == Next(sys, step) && Open(next, next.jobs)
  {
    hide Inv, Runnable, Closed;
    PlayedOn(sys, step);
    next := Next(sys, step);
  }

  lemma RunnableIsLogged(s: State)
    requires Inv(s) && Runnable(s, NAME, UID)
    ensures NAME in s.runs && s.runs[NAME] in s.log
  {
  }

  /** Linking twice in a row: the second link neither needs nor finds the step open. */
  lemma LinkOnce(sys: System, id: nat) returns (next: System)
    requires Played(sys) && !sys.mutex && Inv(sys.st) && id in sys.jobs && sys.jobs[id] == Job(NAME, SLOT, Checked)
    requires Runnable(sys.st, NAME, UID)
    ensures Played(next) && !next.mutex && Inv(next.st) && next.jobs == sys.jobs - {id}
    ensures Runnable(next.st, NAME, UID)
    ensures next.linked(SLOT) == sys.linked(SLOT) + 1 && next.reopened(SLOT) == sys.reopened(SLOT)
  {
    hide Inv, Apply, Runnable, Closed, Reopens, Enabled;
    var ready := Next(sys, Reread(id));
    PlayedOn(sys, Reread(id));
    RunnableIsLogged(sys.st);
    var base := sys.st.runs[NAME];
    var step := Link(id, ResultRef("result", true), NO_TOKENS, True, false);
    PlayedOn(ready, step);
    StepKeepsState(ready, step);
    next := Next(ready, step);
    var w := LinkResult(Analysis, ResultRef("result", true), NO_TOKENS, True, false);
    UnlinkedStaysRunnable(sys.st, base, w);
  }

  lemma UnlinkedStaysRunnable(s: State, base: Run, w: Write)
    requires Inv(s) && Runnable(s, NAME, UID) && base == s.runs[NAME] && w.LinkResult? && w.linked == Analysis && w.outcome == True
    ensures base.name == NAME && Enabled(base, w) && Unchanged(s, base)
    ensures Runnable(Apply(s, PatchRun(base, w)), NAME, UID)
    ensures !Reopens(s, Apply(s, PatchRun(base, w)), SLOT)
  {
    hide Later, LaterState, RunWellFormed, HasAcceptedStop, Updated, History, VersionsUnique, ConfigInv, SafetyInv;
    RunnableIsLogged(s);
    var t := Apply(s, PatchRun(base, w));
    ActionKeeps(s, PatchRun(base, w));
    LinkKeepsMarkers(base, w, s.clock);
    LinkCloses(base, w, Analysis, s.clock);
    forall n | n in t.runs && t.runs[n].uid == UID
      ensures n == NAME
    {
      SameUidSameName(t, n, NAME);
    }
  }

  lemma LinkKeepsMarkers(r: Run, w: Write, now: int)
    requires w.LinkResult? && w.outcome == True && !HasAcceptedStop(r.conditions)
    ensures !HasAcceptedStop(Updated(r, w, now).conditions) && Updated(r, w, now).uid == r.uid && Updated(r, w, now).name == r.name
  {
    var cs := Updated(r, w, now).conditions;
    assert forall t :: t in cs && cs[t].status == False ==> t in r.conditions && cs[t] == r.conditions[t];
  }

  /** Without the lock two completions both find the step open, and both link a result. */
  lemma UnserialisedLinksTwice() returns (sys: System)
    ensures Played(sys)
    ensures sys.linked(SLOT) == 2 && sys.reopened(SLOT) == 0
  {
    hide Inv, Runnable, Closed, Play, Played, Moved;
    var s0 := Opened();
    var s1 := OpenStep(s0, map[], Begin(0, NAME, SLOT));
    var s2 := OpenStep(s1, s1.jobs, Begin(1, NAME, SLOT));
    var s3 := OpenStep(s2, s2.jobs, Check(0));
    var s4 := OpenStep(s3, s3.jobs, Check(1));
    var s5 := LinkOnce(s4, 0);
    sys := LinkOnce(s5, 1);
  }
}
