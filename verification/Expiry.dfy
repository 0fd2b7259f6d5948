/** How long a run found expired stays so, over every history of requests. */
module Expiry {
  import opened Conditions
  import opened Runs
  import opened RunWrites
  import opened Configs
  import opened Machine

  /** Finished, past its deadline, and not a failed run kept for inspection. */
  predicate Expired(r: Run, now: int) {
    r.deleteAfter.Some? && r.deleteAfter.value <= now && Terminal(r) &&
    !(DerivePhase(r.conditions) == PhaseFailed && r.preserve)
  }

  /** The same with every phase named: its deadline is not after now, it has ended, and if it failed
      it is not to be preserved. */
  predicate PastItsDeadline(r: Run, now: int) {
    && r.deleteAfter.Some? && r.deleteAfter.value <= now
    && DerivePhase(r.conditions) in {Completed, PhaseFailed, PhaseDenied, PhaseEscalated, PhaseEmergencyStopped}
    && !(DerivePhase(r.conditions) == PhaseFailed && r.preserve)
  }

  lemma ExpiredMeans(r: Run, now: int)
    ensures Expired(r, now) <==> PastItsDeadline(r, now)
  {
  }

  // ---------------------------------------------------------------------------
  // The deadline
  // ---------------------------------------------------------------------------

  /** A revision of this run that takes effect. */
  predicate RevisionLands(s: State, a: Action, uid: Uid) {
    && IsRevision(a, uid) && Unchanged(s, a.base)
    && (a.PatchRun? ==> a.base in s.log && Enabled(a.base, a.w))
    && (a.ReviseRefreshed? ==> a.base in s.refreshed)
  }

  lemma RevisionRemovesDeadline(s: State, a: Action, name: string, uid: Uid)
    requires Inv(s) && Stored(s, name, uid) && Stored(Apply(s, a), name, uid) && RevisionLands(s, a, uid)
    ensures Apply(s, a).runs[name].terminalTime.None?
  {
    hide Enabled, History, RunWellFormed, ConfigInv, SafetyInv, RevisionRouted;
    UnchangedIsStored(s, a.base);
  }

  lemma OnlyRevisionMovesDeadline(s: State, a: Action, name: string, uid: Uid)
    requires Inv(s) && Stored(s, name, uid) && s.runs[name].terminalTime.Some? && Stored(Apply(s, a), name, uid)
    requires !RevisionLands(s, a, uid)
    ensures SameDeadline(s.runs[name], Apply(s, a).runs[name])
  {
    hide Enabled, Updated, Inv;
    if IsRevision(a, uid) {
      assert Apply(s, a) == s;
    } else {
      DeadlineMovesOnlyByRevision(s, a, name);
    }
  }

  predicate SameDeadline(a: Run, b: Run) {
    b.terminalTime == a.terminalTime && b.deleteAfter == a.deleteAfter
  }

  /** The k-th request is a revision of this run that takes effect. */
  ghost predicate RevisedAt(s: State, actions: seq<Action>, k: nat, uid: Uid) {
    k < |actions| && RevisionLands(Exec(s, actions[..k]), actions[k], uid)
  }

  /** After the first k requests no deadline is recorded. */
  ghost predicate OpenAfter(s: State, actions: seq<Action>, k: nat, name: string) {
    k <= |actions| && var m := Exec(s, actions[..k]); name in m.runs && m.runs[name].terminalTime.None?
  }

  lemma {:induction false} UnrevisedKeepsDeadline(s: State, actions: seq<Action>, name: string, uid: Uid)
    requires Inv(s) && Stored(s, name, uid) && s.runs[name].terminalTime.Some? && Stored(Exec(s, actions), name, uid)
    requires forall k: nat :: !RevisedAt(s, actions, k, uid)
    ensures SameDeadline(s.runs[name], Exec(s, actions).runs[name])
    decreases |actions|
  {
    hide RevisionLands, Inv, LaterState, Apply;
    if actions == [] {
    } else {
      var n := |actions| - 1;
      var before := actions[..n];
      StoredAllAlong(s, actions, n, name, uid);
      forall k: nat
        ensures !RevisedAt(s, before, k, uid)
      {
        if k < n {
          assert before[..k] == actions[..k];
          assert !RevisedAt(s, actions, k, uid);
        }
      }
      UnrevisedKeepsDeadline(s, before, name, uid);
      assert !RevisedAt(s, actions, n, uid);
      ExecKeeps(s, before);
      OnlyRevisionMovesDeadline(Exec(s, before), actions[n], name, uid);
    }
  }

  /** A recorded deadline is ever missing again if and only if a revision took effect; as long
      as none did, it is the same deadline. */
  lemma DeadlineMovesExactlyByRevision(s: State, actions: seq<Action>, name: string, uid: Uid)
    requires Inv(s) && Stored(s, name, uid) && s.runs[name].terminalTime.Some? && Stored(Exec(s, actions), name, uid)
    ensures (exists k: nat :: OpenAfter(s, actions, k, name)) <==> exists k: nat :: RevisedAt(s, actions, k, uid)
    ensures (forall k: nat :: !RevisedAt(s, actions, k, uid)) ==> SameDeadline(s.runs[name], Exec(s, actions).runs[name])
  {
    hide RevisionLands, Inv, LaterState, Apply;
    if k: nat :| RevisedAt(s, actions, k, uid) {
      RevisionOpens(s, actions, k, name, uid);
      assert OpenAfter(s, actions, k + 1, name);
    } else {
      UnrevisedKeepsDeadline(s, actions, name, uid);
      forall k: nat | k <= |actions|
        ensures !OpenAfter(s, actions, k, name)
      {
        StoredAllAlong(s, actions, k, name, uid);
        forall i: nat
          ensures !RevisedAt(s, actions[..k], i, uid)
        {
          if i < k {
            assert actions[..k][..i] == actions[..i];
            assert !RevisedAt(s, actions, i, uid);
          }
        }
        UnrevisedKeepsDeadline(s, actions[..k], name, uid);
      }
    }
  }

  lemma RevisionOpens(s: State, actions: seq<Action>, k: nat, name: string, uid: Uid)
    requires Inv(s) && Stored(s, name, uid) && Stored(Exec(s, actions), name, uid) && RevisedAt(s, actions, k, uid)
    ensures OpenAfter(s, actions, k + 1, name)
  {
    hide RevisionLands, Inv, LaterState, Apply;
    StoredAllAlong(s, actions, k, name, uid);
    StoredAllAlong(s, actions, k + 1, name, uid);
    ExecKeeps(s, actions[..k]);
    assert actions[..k + 1][..k] == actions[..k];
    RevisionRemovesDeadline(Exec(s, actions[..k]), actions[k], name, uid);
  }

  lemma StoredAllAlong(s: State, actions: seq<Action>, k: nat, name: string, uid: Uid)
    requires Inv(s) && Stored(s, name, uid) && Stored(Exec(s, actions), name, uid) && k <= |actions|
    ensures Stored(Exec(s, actions[..k]), name, uid)
  {
    hide Apply, RunWellFormed;
    assert actions == actions[..k] + actions[k..];
    ExecSplits(s, actions[..k], actions[k..]);
    ExecKeeps(s, actions[..k]);
    ExecKeeps(Exec(s, actions[..k]), actions[k..]);
    assert s.runs[name] in s.log;
  }

  // ---------------------------------------------------------------------------
  // Expiry
  // ---------------------------------------------------------------------------

  /** The writes that do not look at the phase, and so may reopen or fail a finished run. */
  predicate Reopens(w: Write) {
    w.Revise? || w.FailResolution? || w.FailStep? || w.StepCondition? || w.LinkResult? || w.EscalateVerification?
  }

  /** A request that may keep an expired run from being one: a revision, a workflow write that
      does not look at the phase, or a user's wish to preserve it. */
  predicate Disturbs(a: Action, name: string, uid: Uid) {
    || (a.PatchRun? && a.base.uid == uid && Reopens(a.w))
    || (a.ReviseRefreshed? && a.base.uid == uid)
    || (a.EditMeta? && a.name == name && a.preserve)
  }

  lemma WriteKeepsExpired(r: Run, w: Write, at: int, now: int)
    requires RunWellFormed(r) && Enabled(r, w) && Expired(r, now) && !Reopens(w)
    ensures Expired(Updated(r, w, at), now)
  {
    hide HasAcceptedStop, HasFinalStopOutcome, NeedsRevision, RunWellFormed;
    if w.StampTerminal? {
      PairedDeadline(r);
    }
  }

  lemma PairedDeadline(r: Run)
    requires RunWellFormed(r)
    ensures r.terminalTime.Some? <==> r.deleteAfter.Some?
  {
  }

  lemma ExpiredStep(s: State, a: Action, name: string, now: int)
    requires Inv(s) && name in s.runs && Expired(s.runs[name], now) && Stored(Apply(s, a), name, s.runs[name].uid)
    requires !Disturbs(a, name, s.runs[name].uid)
    ensures Expired(Apply(s, a).runs[name], now)
  {
    hide Enabled, Updated, Reopens, History, VersionsUnique, RunWellFormed, ConfigInv, SafetyInv, HasAcceptedStop, RevisionRouted,
      CanPatchConfig, ConfigUpdated, DerivePhase, IsTerminal;
    match a
    case PatchRun(base, w) =>
      if base in s.log && Enabled(base, w) && Unchanged(s, base) {
        UnchangedIsStored(s, base);
        if base.name == name {
          StoredIsWellFormed(s, name);
          WriteKeepsExpired(base, w, s.clock, now);
        }
      }
    case ReviseRefreshed(base) =>
      if base in s.refreshed && Unchanged(s, base) {
        UnchangedIsStored(s, base);
      }
    case _ =>
  }

  /** A run expired at one moment is expired at every later one at which it is still stored, as
      long as no request disturbs it: stops, retention, sandbox bookkeeping, handlers that route
      by phase, and whatever happens to the configuration and to other runs make no difference. */
  lemma {:induction false} ExpiredStands(s: State, actions: seq<Action>, name: string, uid: Uid, now: int)
    requires Inv(s) && Stored(s, name, uid) && Expired(s.runs[name], now) && Stored(Exec(s, actions), name, uid)
    requires forall i :: 0 <= i < |actions| ==> !Disturbs(actions[i], name, uid)
    ensures Expired(Exec(s, actions).runs[name], now)
    decreases |actions|
  {
    hide Disturbs, Expired, Inv, LaterState, Apply;
    if actions == [] {
    } else {
      var n := |actions| - 1;
      var before := actions[..n];
      StoredAllAlong(s, actions, n, name, uid);
      ExpiredStands(s, before, name, uid, now);
      ExecKeeps(s, before);
      ExpiredStep(Exec(s, before), actions[n], name, now);
    }
  }

  /** Nobody takes the name: what bears it afterwards bore it before. */
  lemma {:induction false} NameStays(s: State, actions: seq<Action>, name: string)
    requires Inv(s) && name in Exec(s, actions).runs
    requires forall i :: 0 <= i < |actions| ==> !(actions[i].CreateRun? && actions[i].newName == name)
    ensures name in s.runs && Exec(s, actions).runs[name].uid == s.runs[name].uid
    decreases |actions|
  {
    hide Inv, LaterState, Apply;
    if actions == [] {
    } else {
      var n := |actions| - 1;
      ExecKeeps(s, actions[..n]);
      NameStep(Exec(s, actions[..n]), actions[n], name);
      NameStays(s, actions[..n], name);
    }
  }

  lemma NameStep(s: State, a: Action, name: string)
    requires Inv(s) && name in Apply(s, a).runs && !(a.CreateRun? && a.newName == name)
    ensures name in s.runs && Apply(s, a).runs[name].uid == s.runs[name].uid
  {
    hide Apply, Inv, LaterState;
    if a.CreateRun? || a.CreateConfig? {
      CreationKeepsOthers(s, a, name);
    } else {
      ActionKeeps(s, a);
      UidsKept(s, a);
      UidIsUsed(Apply(s, a), name);
      StoredBeforeThen(s, Apply(s, a), name);
    }
  }

  lemma CreationKeepsOthers(s: State, a: Action, name: string)
    requires (a.CreateRun? && a.newName != name) || a.CreateConfig?
    ensures name in Apply(s, a).runs ==> name in s.runs && Apply(s, a).runs[name] == s.runs[name]
  {
  }

  lemma UidIsUsed(s: State, name: string)
    requires Inv(s) && name in s.runs
    ensures s.runs[name].uid in s.usedUids
  {
    hide RunWellFormed, History, VersionsUnique, ConfigInv, SafetyInv;
  }

  lemma StoredBeforeThen(s: State, t: State, name: string)
    requires LaterState(s, t) && name in t.runs && t.runs[name].uid in s.usedUids
    ensures name in s.runs && s.runs[name].uid == t.runs[name].uid
  {
    assert Stored(t, name, t.runs[name].uid);
  }

  lemma UidsKept(s: State, a: Action)
    requires !a.CreateRun? && !a.CreateConfig?
    ensures Apply(s, a).usedUids == s.usedUids
  {
    hide Enabled, Updated, Revised, HasAcceptedStop, RevisionRouted, CanPatchConfig, ConfigUpdated;
  }
}
