/** Retention of finished runs: a deadline stamped once, a label that promises it, and the
    sweep that acts on both. */
module TerminalRecords {
  import opened Conditions
  import opened Runs
  import opened RunWrites
  import opened Configs
  import opened Machine
  import opened ApiServers
  import opened Expiry

  // ---------------------------------------------------------------------------
  // The deadline
  // ---------------------------------------------------------------------------

  /** Both instants are recorded or neither is, whole days apart. */
  ghost predicate DeadlineSound(r: Run) {
    (r.terminalTime.Some? <==> r.deleteAfter.Some?) &&
    (r.terminalTime.Some? ==> exists days :: r.deleteAfter.value == r.terminalTime.value + Days(days))
  }

  function Days(days: int): int {
    days * DAY
  }

  lemma RemainderStays(t: int, seconds: int)
    ensures (t + seconds * SECOND) % SECOND == t % SECOND
  {
    var q, r := t / SECOND, t % SECOND;
    assert t + seconds * SECOND == (q + seconds) * SECOND + r;
    Remainder(t + seconds * SECOND, q + seconds, r);
  }

  lemma Remainder(x: int, q: int, r: int)
    requires x == q * SECOND + r && 0 <= r < SECOND
    ensures x % SECOND == r
  {
    var p := x / SECOND;
    assert x == p * SECOND + x % SECOND;
    assert p == q;
  }

  lemma PersistKeepsDays(now: int, days: int)
    ensures Persist(now + Days(days)) == Persist(now) + Days(days)
  {
    RemainderStays(now, days * 86_400);
  }

  /** Stamping allows the smaller of the ceiling and what the run asked for, in whole days from
      the recorded instant, although both instants lose their fraction of a second. */
  lemma StampGivesTheSmaller(r: Run, ceilingDays: int, now: int)
    requires Enabled(r, StampTerminal(ceilingDays))
    ensures var after := Updated(r, StampTerminal(ceilingDays), now);
            && after.terminalTime == Some(Persist(now)) && DeadlineSound(after)
            && after.deleteAfter == Some(Persist(now) +
                 Days(if r.spec.terminalTtl.Some? && r.spec.terminalTtl.value < ceilingDays then r.spec.terminalTtl.value
                      else ceilingDays))
  {
    var days := RetentionDays(ceilingDays, r.spec.terminalTtl);
    PersistKeepsDays(now, days);
  }

  // ---------------------------------------------------------------------------
  // The label
  // ---------------------------------------------------------------------------

  /** The retention label is a promise that both instants are recorded. */
  predicate PromiseKept(r: Run) {
    r.ttlLabel == "true" ==> r.terminalTime.Some? && r.deleteAfter.Some?
  }

  /** A label patch of a copy without a recorded end. */
  predicate LabelsUnstamped(a: Action) {
    a.PatchRun? && a.w.LabelTerminal? && a.base.terminalTime.None?
  }

  ghost predicate RetentionInv(s: State) {
    && (forall n :: n in s.runs ==> PromiseKept(s.runs[n]) && DeadlineSound(s.runs[n]))
    && (forall r :: r in s.refreshed ==> r.ttlLabel == "")
  }

  lemma WriteKeepsRetention(r: Run, w: Write, now: int)
    requires Enabled(r, w) && PromiseKept(r) && DeadlineSound(r) && !(w.LabelTerminal? && r.terminalTime.None?)
    ensures PromiseKept(Updated(r, w, now)) && DeadlineSound(Updated(r, w, now))
  {
    match w
    case StampTerminal(ceilingDays) => StampGivesTheSmaller(r, ceilingDays, now);
    case _ =>
      var after := Updated(r, w, now);
      assert after.ttlLabel == r.ttlLabel || w.LabelTerminal?;
      WriteMovesDeadline(r, w, now);
  }

  lemma ActionKeepsRetention(s: State, a: Action)
    requires Inv(s) && RetentionInv(s) && !LabelsUnstamped(a)
    ensures RetentionInv(Apply(s, a))
  {
    hide Enabled, Updated, History, VersionsUnique, RunWellFormed, ConfigInv, SafetyInv, HasAcceptedStop, RevisionRouted,
      CanPatchConfig, ConfigUpdated;
    match a
    case PatchRun(base, w) =>
      if base in s.log && Enabled(base, w) && Unchanged(s, base) {
        UnchangedIsStored(s, base);
        WriteKeepsRetention(base, w, s.clock);
      }
    case ReviseRefreshed(base) =>
      if base in s.refreshed && Unchanged(s, base) {
        UnchangedIsStored(s, base);
      }
    case EditSpec(name, _, _) => EditsKeepRetention(s, a, name);
    case EditMeta(name, _, _) => EditsKeepRetention(s, a, name);
    case ClearTtlLabel(base) => EditsKeepRetention(s, a, base.name);
    case _ =>
  }

  lemma EditsKeepRetention(s: State, a: Action, name: string)
    requires RetentionInv(s) && RunsInv(s)
    requires (a.EditSpec? && a.name == name) || (a.EditMeta? && a.name == name) || (a.ClearTtlLabel? && a.base.name == name)
    ensures RetentionInv(Apply(s, a))
  {
    hide History, VersionsUnique, RunWellFormed, HasAcceptedStop, RevisionRouted, Enabled, Updated, DeadlineSound, PromiseKept;
    if name in s.runs && name in Apply(s, a).runs {
      RetentionCarries(s.runs[name], Apply(s, a).runs[name]);
    }
  }

  lemma RetentionCarries(a: Run, b: Run)
    requires PromiseKept(a) && DeadlineSound(a)
    requires b.terminalTime == a.terminalTime && b.deleteAfter == a.deleteAfter && (b.ttlLabel == a.ttlLabel || b.ttlLabel == "")
    ensures PromiseKept(b) && DeadlineSound(b)
  {
  }

  lemma {:induction false} ExecKeepsRetention(actions: seq<Action>)
    requires forall i :: 0 <= i < |actions| ==> !LabelsUnstamped(actions[i])
    ensures RetentionInv(Exec(INITIAL, actions)) && Inv(Exec(INITIAL, actions))
    decreases |actions|
  {
    InitialInv();
    if actions == [] {
    } else {
      var before := actions[..|actions| - 1];
      ExecKeepsRetention(before);
      ActionKeepsRetention(Exec(INITIAL, before), actions[|actions| - 1]);
      ActionKeeps(Exec(INITIAL, before), actions[|actions| - 1]);
    }
  }

  /** In every history, however interleaved and wherever a controller crashed between two
      requests, a labelled run has both instants recorded, as long as every label patch was
      made on a copy that had them. */
  lemma LabelImpliesDeadline(actions: seq<Action>, name: string)
    requires forall i :: 0 <= i < |actions| ==> !LabelsUnstamped(actions[i])
    requires name in Exec(INITIAL, actions).runs
    ensures PromiseKept(Exec(INITIAL, actions).runs[name]) && DeadlineSound(Exec(INITIAL, actions).runs[name])
  {
    ExecKeepsRetention(actions);
  }

  /** A recorded end of this run that took effect. */
  ghost predicate StampedAt(actions: seq<Action>, i: nat, uid: Uid) {
    && i < |actions| && actions[i].PatchRun? && actions[i].w.StampTerminal? && actions[i].base.uid == uid
    && var m := Exec(INITIAL, actions[..i]);
       actions[i].base in m.log && Enabled(actions[i].base, actions[i].w) && Unchanged(m, actions[i].base)
  }

  /** The k-th request labels base as the code does: base already had its end recorded when it
      was read, or is what was read back, as the state after j requests, after the i-th request
      recorded it; and the run's own queue lets nobody revise it in between. */
  ghost predicate LabelsInTurn(actions: seq<Action>, k: nat, base: Run) {
    || base.terminalTime.Some?
    || exists i: nat, j: nat :: StampedAt(actions, i, base.uid) && ReadBack(actions, i, j, base) && j <= k
  }

  ghost predicate ReadBack(actions: seq<Action>, i: nat, j: nat, base: Run) {
    && i < j <= |actions| && Stored(Exec(INITIAL, actions[..i + 1]), base.name, base.uid)
    && base.name in Exec(INITIAL, actions[..j]).runs && Exec(INITIAL, actions[..j]).runs[base.name] == base
    && forall l :: i < l < j ==> !IsRevision(actions[l], base.uid)
  }

  /** Reconciles of one run never overlap. */
  ghost predicate Serialised(actions: seq<Action>) {
    forall k :: 0 <= k < |actions| && actions[k].PatchRun? && actions[k].w.LabelTerminal? ==> LabelsInTurn(actions, k, actions[k].base)
  }

  lemma ReadBackIsStamped(actions: seq<Action>, i: nat, j: nat, base: Run)
    requires StampedAt(actions, i, base.uid) && ReadBack(actions, i, j, base)
    ensures base.terminalTime.Some?
  {
    hide Inv, Apply, LaterState, RevisionLands;
    var before, through, middle := actions[..i], actions[..i + 1], actions[i + 1..j];
    var stamped := Exec(INITIAL, through);
    InitialInv();
    ExecKeeps(INITIAL, before);
    ExecKeeps(INITIAL, through);
    assert through[..i] == before;
    StampLands(Exec(INITIAL, before), actions[i].base, actions[i].w, base.name, base.uid);
    assert actions[..j] == through + middle;
    ExecSplits(INITIAL, through, middle);
    forall k: nat
      ensures !RevisedAt(stamped, middle, k, base.uid)
    {
      if k < |middle| {
        assert middle[k] == actions[i + 1 + k];
        NoRevisionLands(Exec(stamped, middle[..k]), middle[k], base.uid);
      }
    }
    UnrevisedKeepsDeadline(stamped, middle, base.name, base.uid);
  }

  lemma NoRevisionLands(s: State, a: Action, uid: Uid)
    requires !IsRevision(a, uid)
    ensures !RevisionLands(s, a, uid)
  {
  }

  lemma StampLands(s: State, base: Run, w: Write, name: string, uid: Uid)
    requires Inv(s) && base in s.log && w.StampTerminal? && base.uid == uid && Enabled(base, w) && Unchanged(s, base)
    requires Stored(Apply(s, PatchRun(base, w)), name, uid)
    ensures Apply(s, PatchRun(base, w)).runs[name].terminalTime.Some?
  {
    hide RunWellFormed, History;
    UnchangedIsStored(s, base);
    ActionKeeps(s, PatchRun(base, w));
    var t := Apply(s, PatchRun(base, w));
    assert t.runs[name] in t.log && t.runs[base.name] in t.log;
    assert t.runs[base.name].uid == uid;
    SameUidSameName(t, name, base.name);
  }

  lemma SameUidSameName(s: State, a: string, b: string)
    requires Inv(s) && a in s.runs && b in s.runs && s.runs[a].uid == s.runs[b].uid
    ensures a == b
  {
    assert s.runs[a] in s.log && s.runs[b] in s.log;
    assert s.runs[a].version == s.runs[b].version;
  }

  /** When reconciles of one run never overlap, a labelled run has both instants recorded,
      however the controllers of other runs, users and timers interleave, and wherever one of
      them crashed between two requests. */
  lemma SerialisedLabelImpliesDeadline(actions: seq<Action>, name: string)
    requires Serialised(actions) && name in Exec(INITIAL, actions).runs
    ensures PromiseKept(Exec(INITIAL, actions).runs[name]) && DeadlineSound(Exec(INITIAL, actions).runs[name])
  {
    hide StampedAt, ReadBack;
    forall k | 0 <= k < |actions|
      ensures !LabelsUnstamped(actions[k])
    {
      if LabelsUnstamped(actions[k]) {
        var base := actions[k].base;
        var i: nat, j: nat :| StampedAt(actions, i, base.uid) && ReadBack(actions, i, j, base) && j <= k;
        ReadBackIsStamped(actions, i, j, base);
      }
    }
    LabelImpliesDeadline(actions, name);
  }

  /** The k-th request labels a run, and takes effect on a copy without a recorded end. */
  ghost predicate BadLabelAt(actions: seq<Action>, k: nat) {
    && k < |actions| && LabelsUnstamped(actions[k])
    && var m := Exec(INITIAL, actions[..k]);
       actions[k].base in m.log && Enabled(actions[k].base, actions[k].w) && Unchanged(m, actions[k].base)
  }

  /** After the first k requests some labelled run lacks a recorded instant. */
  ghost predicate BrokenAfter(actions: seq<Action>, k: nat) {
    k <= |actions| && exists n :: n in Exec(INITIAL, actions[..k]).runs && !PromiseKept(Exec(INITIAL, actions[..k]).runs[n])
  }

  lemma {:induction false} GoodLabelsKeepRetention(actions: seq<Action>)
    requires forall k: nat :: !BadLabelAt(actions, k)
    ensures RetentionInv(Exec(INITIAL, actions)) && Inv(Exec(INITIAL, actions))
    decreases |actions|
  {
    hide BadLabelAt, Inv, RetentionInv, Apply;
    InitialInv();
    if actions == [] {
      InitialRetention();
    } else {
      var n := |actions| - 1;
      var before := actions[..n];
      forall k: nat
        ensures !BadLabelAt(before, k)
      {
        if k < n {
          BadLabelEarlier(before, actions[n], k);
          assert before + [actions[n]] == actions;
        } else {
          NoBadLabel(before, k);
        }
      }
      GoodLabelsKeepRetention(before);
      ActionKeeps(Exec(INITIAL, before), actions[n]);
      assert !BadLabelAt(actions, n);
      HarmlessKeepsRetention(actions);
    }
  }

  lemma InitialRetention()
    ensures RetentionInv(INITIAL)
  {
  }

  lemma NoBadLabel(actions: seq<Action>, k: nat)
    requires k >= |actions|
    ensures !BadLabelAt(actions, k)
  {
  }

  lemma BadLabelEarlier(before: seq<Action>, a: Action, k: nat)
    requires k < |before|
    ensures BadLabelAt(before + [a], k) <==> BadLabelAt(before, k)
  {
    assert (before + [a])[..k] == before[..k];
  }

  lemma HarmlessKeepsRetention(actions: seq<Action>)
    requires actions != [] && !BadLabelAt(actions, |actions| - 1)
    requires var m := Exec(INITIAL, actions[..|actions| - 1]);
             Inv(m) && RetentionInv(m)
    ensures RetentionInv(Exec(INITIAL, actions))
  {
    hide Inv, RetentionInv, Enabled, Updated, Apply;
    var m, a := Exec(INITIAL, actions[..|actions| - 1]), actions[|actions| - 1];
    if LabelsUnstamped(a) {
      RefusedPatch(m, a.base, a.w);
    } else {
      ActionKeepsRetention(m, a);
    }
  }

  lemma RefusedPatch(s: State, base: Run, w: Write)
    requires !(base in s.log && Enabled(base, w) && Unchanged(s, base))
    ensures Apply(s, PatchRun(base, w)) == s
  {
  }

  lemma BadLabelBreaks(actions: seq<Action>, k: nat)
    requires BadLabelAt(actions, k)
    ensures BrokenAfter(actions, k + 1)
  {
    hide Inv, Enabled, Apply, PromiseKept;
    InitialInv();
    ExecKeeps(INITIAL, actions[..k]);
    assert actions[..k + 1][..k] == actions[..k];
    UnstampedLabelBreaks(Exec(INITIAL, actions[..k]), actions[k].base);
    assert Exec(INITIAL, actions[..k + 1]) == Apply(Exec(INITIAL, actions[..k]), PatchRun(actions[k].base, LabelTerminal));
  }

  lemma UnstampedLabelBreaks(s: State, base: Run)
    requires Inv(s) && base in s.log && Enabled(base, LabelTerminal) && Unchanged(s, base) && base.terminalTime.None?
    ensures base.name in Apply(s, PatchRun(base, LabelTerminal)).runs
    ensures !PromiseKept(Apply(s, PatchRun(base, LabelTerminal)).runs[base.name])
  {
    hide RunWellFormed, Machine.History;
    UnchangedIsStored(s, base);
  }

  /** Over every history: some labelled run ever lacks a recorded instant if and only if some
      label patch took effect on a copy without a recorded end. */
  lemma LabelBreaksPromiseExactly(actions: seq<Action>)
    ensures (exists k: nat :: BrokenAfter(actions, k)) <==> exists k: nat :: BadLabelAt(actions, k)
  {
    hide BadLabelAt, Inv, Apply;
    if k: nat :| BadLabelAt(actions, k) {
      BadLabelBreaks(actions, k);
    } else {
      forall k: nat | k <= |actions|
        ensures !BrokenAfter(actions, k)
      {
        forall i: nat
          ensures !BadLabelAt(actions[..k], i)
        {
          if i < k {
            BadLabelWithin(actions, k, i);
          } else {
            NoBadLabel(actions[..k], i);
          }
        }
        GoodLabelsKeepRetention(actions[..k]);
      }
    }
  }

  lemma BadLabelWithin(actions: seq<Action>, k: nat, i: nat)
    requires i < k <= |actions|
    ensures BadLabelAt(actions[..k], i) <==> BadLabelAt(actions, i)
  {
    assert actions[..k][..i] == actions[..i];
  }

  /** ... and that condition is exact for each label patch: one that takes effect keeps the
      promise if and only if its copy had the end recorded. */
  lemma LabelKeepsPromiseExactly(s: State, base: Run)
    requires Inv(s) && base in s.log && Enabled(base, LabelTerminal) && Unchanged(s, base) && DeadlineSound(base)
    ensures PromiseKept(Apply(s, PatchRun(base, LabelTerminal)).runs[base.name]) <==> base.terminalTime.Some?
  {
    UnchangedIsStored(s, base);
  }

  // ---------------------------------------------------------------------------
  // The requests
  // ---------------------------------------------------------------------------

  datatype Recorded = Holding(run: Run) | RunGone | RecordFailed

  ghost predicate LabelsStamped(a: seq<Issued>, b: seq<Issued>) {
    a <= b && forall i :: |a| <= i < |b| && b[i].w.LabelTerminal? ==> b[i].base.terminalTime.Some?
  }

  lemma CanStampOrLabel(r: Run, ceilingDays: int)
    ensures r.terminalTime.None? ==> Enabled(r, StampTerminal(ceilingDays))
    ensures r.ttlLabel != "true" ==> Enabled(r, LabelTerminal)
  {
  }

  lemma StampsAndLabels(r: Run, ceilingDays: int, now: int)
    ensures Updated(r, StampTerminal(ceilingDays), now).terminalTime.Some?
    ensures Updated(r, LabelTerminal, now).ttlLabel == "true"
  {
  }

  /** Stamps the deadline and reads the run back. */
  method StampDeadline(api: ApiServer, current: Run, ceilingDays: int) returns (r: Recorded)
    requires api.Valid() && current in api.st.log && current.terminalTime.None?
    modifies api
    ensures api.Valid() && LaterState(old(api.st), api.st)
    ensures api.issued == old(api.issued) || api.issued == old(api.issued) + [Issued(current, StampTerminal(ceilingDays))]
    ensures r.Holding? ==> r.run in api.st.log && r.run.uid == current.uid
    ensures r.Holding? && Unrevised(old(api.script), current.uid) ==> r.run.terminalTime.Some?
    ensures old(api.setbacks) <= api.setbacks && (r.RecordFailed? ==> old(api.setbacks) < api.setbacks)
    ensures r.RunGone? ==> WasGone(old(api.st), api.st, current.name, current.uid)
  {
    hide Inv, LaterState, Calm, Unrevised, Enabled, Updated, WasGone;
    ghost var s0, c0 := api.st, api.script;
    CanStampOrLabel(current, ceilingDays);
    var stamp := api.PatchRun(current, StampTerminal(ceilingDays));
    ghost var s1, c1 := api.st, api.script;
    if !stamp.Patched? {
      return RecordFailed;
    }
    StampsAndLabels(current, ceilingDays, s1.clock);
    var got := api.GetRun(current.name);
    LaterStateTransitive(s0, s1, api.st);
    if !got.Got? {
      if got.Missing? {
        GoneNow(s0, api.st, current.name, current.uid);
      }
      return if got.Missing? then RunGone else RecordFailed;
    }
    if got.value.uid != current.uid {
      GoneNow(s0, api.st, current.name, current.uid);
      return RunGone;
    }
    if Unrevised(c0, current.uid) {
      CalmKeeps(c0, c1, s0, s1, current.uid);
      CalmKeeps(c1, api.script, s1, api.st, current.uid);
      assert Stored(s1, current.name, current.uid) && Stored(api.st, current.name, current.uid);
    }
    return Holding(got.value);
  }

  /** Stamps the deadline of a finished run, reads it back, and labels the run. As long as
      nobody else revises the run meanwhile, every label it writes rests on a recorded end,
      wherever the sequence is cut short. */
  method HandleTerminalRecord(api: ApiServer, run: Run, ceilingDays: int) returns (r: Recorded)
    requires api.Valid()
    modifies api
    ensures api.Valid() && LaterState(old(api.st), api.st)
    ensures Unrevised(old(api.script), run.uid) ==> LabelsStamped(old(api.issued), api.issued)
    ensures r.Holding? ==> r.run in api.st.log && r.run.uid == run.uid && r.run.ttlLabel == "true"
    ensures old(api.setbacks) <= api.setbacks && (r.RecordFailed? ==> old(api.setbacks) < api.setbacks)
    ensures r.RunGone? ==> WasGone(old(api.st), api.st, run.name, run.uid)
  {
    hide Inv, LaterState, Calm, Unrevised, Enabled, Updated, WasGone;
    ghost var s0, c0 := api.st, api.script;
    var got := api.GetRun(run.name);
    ghost var s1, c1 := api.st, api.script;
    if !got.Got? {
      if got.Missing? {
        GoneNow(s0, s1, run.name, run.uid);
      }
      return if got.Missing? then RunGone else RecordFailed;
    }
    var current := got.value;
    if current.uid != run.uid {
      GoneNow(s0, s1, run.name, run.uid);
      return RunGone;
    }
    if current.terminalTime.None? {
      if Unrevised(c0, run.uid) {
        CalmKeeps(c0, c1, s0, s1, run.uid);
      }
      r := StampDeadline(api, current, ceilingDays);
      LaterStateTransitive(s0, s1, api.st);
      if !r.Holding? {
        if r.RunGone? {
          GoneSince(s0, s1, api.st, run.name, run.uid);
        }
        return;
      }
      current := r.run;
    }
    if current.ttlLabel == "true" {
      return Holding(current);
    }
    ghost var s3 := api.st;
    CanStampOrLabel(current, ceilingDays);
    var reply := api.PatchRun(current, LabelTerminal);
    LaterStateTransitive(s0, s3, api.st);
    StampsAndLabels(current, ceilingDays, api.st.clock);
    return if reply.Patched? then Holding(reply.value) else RecordFailed;
  }

  lemma CalmKeeps(a: seq<Turn>, b: seq<Turn>, s: State, t: State, uid: Uid)
    requires Calm(a, b, s, t) && Unrevised(a, uid)
    ensures Unrevised(b, uid) && DeadlineKept(s, t, uid)
  {
  }

  // ---------------------------------------------------------------------------
  // The sweep
  // ---------------------------------------------------------------------------

  /** Nobody disturbs this run, nor creates another under its name. */
  ghost predicate Undisturbed(script: seq<Turn>, name: string, uid: Uid) {
    forall turn, a :: turn in script && a in turn.before ==>
      !Disturbs(a, name, uid) && !(a.CreateRun? && a.newName == name)
  }

  /** Whatever bears this name is the expired run of this UID, and nobody is going to disturb it. */
  ghost predicate Stands(script: seq<Turn>, s: State, name: string, uid: Uid, now: int) {
    Undisturbed(script, name, uid) && (name in s.runs ==> s.runs[name].uid == uid && Expired(s.runs[name], now))
  }

  ghost predicate AllStand(a: seq<Turn>, s: State, b: seq<Turn>, t: State, now: int) {
    forall name, uid :: Stands(a, s, name, uid, now) ==> Stands(b, t, name, uid, now)
  }

  lemma TurnLeavesStanding(script: seq<Turn>, s: State, now: int)
    requires Inv(s)
    ensures AllStand(script, s, Rest(script), Turned(s, script), now)
  {
    hide Inv, Exec, Disturbs, Expired;
    forall name, uid | Stands(script, s, name, uid, now)
      ensures Stands(Rest(script), Turned(s, script), name, uid, now)
    {
      if script != [] {
        var turn := script[0];
        assert turn in script;
        if name in Exec(s, turn.before).runs {
          NameStays(s, turn.before, name);
          ExpiredStands(s, turn.before, name, uid, now);
        }
      }
    }
  }

  lemma DeleteLeavesStanding(script: seq<Turn>, s: State, deleted: string, now: int)
    ensures AllStand(script, s, script, Apply(s, DeleteRun(deleted)), now)
  {
    hide Undisturbed, Expired;
  }

  lemma AllStandTransitive(a: seq<Turn>, s: State, b: seq<Turn>, t: State, c: seq<Turn>, u: State, now: int)
    requires AllStand(a, s, b, t, now) && AllStand(b, t, c, u, now)
    ensures AllStand(a, s, c, u, now)
  {
    hide Stands;
  }

  /** What may be removed on the strength of the copies listed: a run of the same name as a copy
      past its deadline. If that copy's run was still stored and past it when the sweep began, and
      nobody disturbs it or takes its name meanwhile, it is that run, and it is past its deadline. */
  ghost predicate Warranted(r: Run, listed: seq<Run>, script: seq<Turn>, s: State, now: int) {
    exists copy :: copy in listed && copy.name == r.name && PastItsDeadline(copy, now) &&
      (Stored(s, copy.name, copy.uid) && PastItsDeadline(s.runs[copy.name], now) && Undisturbed(script, copy.name, copy.uid) ==>
         r.uid == copy.uid && PastItsDeadline(r, now))
  }

  lemma StandingIsWarranted(r: Run, copy: Run, listed: seq<Run>, a: seq<Turn>, s: State, b: seq<Turn>, t: State, now: int)
    requires copy in listed && Expired(copy, now) && copy.name in t.runs && t.runs[copy.name] == r && r.name == copy.name
    requires AllStand(a, s, b, t, now)
    ensures Warranted(r, listed, a, s, now)
  {
    hide Expired, Undisturbed, PastItsDeadline;
    ExpiredMeans(copy, now);
    ExpiredMeans(r, now);
    if Stored(s, copy.name, copy.uid) {
      ExpiredMeans(s.runs[copy.name], now);
    }
    assert Stands(a, s, copy.name, copy.uid, now) ==> Stands(b, t, copy.name, copy.uid, now);
  }

  /** Deletes by name on cached copies, without comparing versions or UIDs. Where no request
      fails, the name of every expired copy is free at some moment of the sweep. */
  method SweepExpiredRuns(api: ApiServer, listed: seq<Run>) returns (now: int)
    requires api.Valid() && forall c :: c in listed ==> c in api.st.log
    modifies api
    ensures api.Valid() && LaterState(old(api.st), api.st) && api.issued == old(api.issued)
    ensures old(api.st).clock <= now <= api.st.clock && old(api.removed) <= api.removed && old(api.setbacks) <= api.setbacks
    ensures forall i :: |old(api.removed)| <= i < |api.removed| ==>
              Warranted(api.removed[i], listed, old(api.script), old(api.st), now)
    ensures api.setbacks == old(api.setbacks) ==>
              forall c :: c in listed && PastItsDeadline(c, now) ==> WasAbsent(old(api.st), api.st, c.name)
  {
    hide Inv, LaterState, Expired, PastItsDeadline, Warranted, Turned, Rest, AllStand, WasAbsent, Apply;
    ghost var s0, c0 := api.st, api.script;
    now := api.Now();
    TurnLeavesStanding(c0, s0, now);
    Remembered(s0, api.st);
    ghost var s1 := api.st;
    LaterStateReflexive(s1);
    for i := 0 to |listed|
      invariant api.Valid() && LaterState(s0, api.st) && LaterState(s1, api.st) && api.issued == old(api.issued)
      invariant old(api.removed) <= api.removed && old(api.setbacks) <= api.setbacks
      invariant AllStand(c0, s0, api.script, api.st, now)
      invariant forall j :: |old(api.removed)| <= j < |api.removed| ==> Warranted(api.removed[j], listed, c0, s0, now)
      invariant api.setbacks == old(api.setbacks) ==>
        forall c :: c in listed[..i] && PastItsDeadline(c, now) ==> WasAbsent(s0, api.st, c.name)
    {
      assert listed[..i + 1] == listed[..i] + [listed[i]];
      ExpiredMeans(listed[i], now);
      if Expired(listed[i], now) {
        ghost var before, script, gone := api.st, api.script, api.removed;
        ghost var turned := Turned(before, script);
        TurnLeavesStanding(script, before, now);
        AllStandTransitive(c0, s0, script, before, Rest(script), turned, now);
        var _ := api.DeleteRun(listed[i].name);
        DeleteLeavesStanding(Rest(script), turned, listed[i].name, now);
        AllStandTransitive(c0, s0, Rest(script), turned, Rest(script), Apply(turned, DeleteRun(listed[i].name)), now);
        LaterStateTransitive(s0, before, api.st);
        LaterStateTransitive(s1, before, api.st);
        if api.removed != gone {
          StoredIsLogged(turned, listed[i].name);
          StandingIsWarranted(api.removed[|gone|], listed[i], listed, c0, s0, Rest(script), turned, now);
        }
        if api.setbacks == old(api.setbacks) {
          AbsentNow(s0, api.st, listed[i].name);
          forall c | c in listed[..i] && PastItsDeadline(c, now)
            ensures WasAbsent(s0, api.st, c.name)
          {
            AbsentLonger(s0, before, api.st, c.name);
          }
        }
      }
    }
    assert listed[..|listed|] == listed;
    Remembered(s1, api.st);
  }
}
