/** One suspension pass over workload and access: it persists the identity of every Sandbox
    and its Pod before removing them, removes a claim only after everything it controls is
    accounted for, and believes nothing gone before a second inventory says so. */
module Cleanup {
  import opened Conditions
  import opened Configs
  import opened Objects
  import opened ObjectStores
  import opened Ownership
  import opened Reports
  import opened CleanupRequests
  import opened CleanupWork
  import opened Inventories
  import opened CleanupPlanning
  import opened CleanupRest
  import opened CleanupSweep
  import ApiServers
  import Machine

  /** What a pass returns: that its activation was overtaken before anything was touched, or
      what it found, whether it returns an error, and (as history) its second inventory. */
  datatype Outcome = Overtaken | Passed(cleanup: SuspensionCleanup, failed: bool, inventory: set<Obj>)

  /** The pass ends without error and with nothing to report. */
  predicate Confirmed(r: Outcome) {
    r.Passed? && !r.failed && r.cleanup.Confirmed()
  }

  /** No claim in scope is left, and none of the Sandboxes such claims controlled or Pods in
      scope belonged to, whether or not they carried labels, nor anything else in scope that
      can still run or grant access. */
  ghost predicate NothingRemains(w0: World, w: World, scope: Uid, home: string) {
    && (forall kind :: NoneLive(w, kind, scope, home))
    && (forall c :: c in w0.objs && ScopedClaim(c, w0, scope, home) ==> c !in w.objs)
    && (forall c, s :: c in w0.objs && s in w0.objs && ScopedClaim(c, w0, scope, home) && SandboxOfClaim(s, c, w0, home) ==>
          s !in w.objs)
    && (forall q, s :: q in w0.objs && s in w0.objs && ScopedPod(q, w0, scope, home) && SandboxOfPod(s, q, w0, home) ==>
          s !in w.objs)
  }

  ghost predicate ScopedPod(q: Key, w0: World, scope: Uid, home: string)
    requires q in w0.objs
  {
    q.kind == Pod && q.namespace == home && InScope(w0.objs[q].run, scope) && StepAllowed(w0.objs[q].step)
  }

  ghost predicate SandboxOfPod(s: Key, q: Key, w0: World, home: string)
    requires q in w0.objs && s in w0.objs
  {
    SandboxAt(s, home) && HasControllerOwner(w0.objs[q], SandboxOwner, s.name, w0.objs[s].uid)
  }

  ghost predicate SandboxOfClaim(s: Key, c: Key, w0: World, home: string)
    requires c in w0.objs && s in w0.objs
  {
    SandboxAt(s, home) && ControlledBy(w0.objs[s], w0.objs[c])
  }

  lemma ClearEarlier(a: History, b: History, c: History, kind: Kind, scope: Uid, home: string)
    requires ClearSince(b, c, kind, scope, home) && Advanced(a, b)
    ensures ClearSince(a, c, kind, scope, home)
  {
    var i :| |b.past| <= i < |c.past| && NoneLive(c.past[i], kind, scope, home);
  }

  lemma ClearNow(a: History, b: History, kind: Kind, scope: Uid, home: string)
    requires ClearSince(a, b, kind, scope, home) && OnlyRead(a, b) && a.quiet
    ensures NoneLive(b.world, kind, scope, home)
  {
  }

  /** In a frozen environment, a pass that ends clean has removed everything it answers for. */
  lemma CleanLeavesNothing(p: Plan, inv: Inventory, w0: World, w1: World, w: World, scope: Uid, home: string, inventory: set<Obj>)
    requires Pod in inv && Claim in inv && Sandbox in inv && Complete(p, inv, w0, scope, home)
    requires Sound(w0) && Sound(w) && Shrunk(w0, w) && Shrunk(w1, w) && p.Valid(scope, inventory)
    requires p.AllLinked(SandboxesOf(w0, home)) && AllSecured(p, {}, w1, home)
    requires p.Unblocked() && AllReady(p, {})
    requires forall kind :: NoneLive(w, kind, scope, home)
    ensures NothingRemains(w0, w, scope, home)
  {
    hide Shrunk, SingleController, ControlledBy, Live, Plan.Valid, NoneLive, AllSecured, SandboxesOf, WorkSecured, InScope, PodsTied,
      SandboxesNamed, SandboxesCovered, HasControllerOwner, StepAllowed;
    assert ListsKind(w0, inv[Pod], Pod, scope, home) && ListsKind(w0, inv[Claim], Claim, scope, home);
    assert ListsKind(w0, inv[Sandbox], Sandbox, scope, home);
    forall c | c in w0.objs && ScopedClaim(c, w0, scope, home)
      ensures c !in w.objs
    {
      ScopedIsLive(w0, w, c, w0.objs[c].run, scope, home);
    }
    forall c, s | c in w0.objs && s in w0.objs && ScopedClaim(c, w0, scope, home) && SandboxOfClaim(s, c, w0, home)
      ensures s !in w.objs
    {
      var u := w0.objs[c].uid;
      assert Selected(w0.objs[c], Claim, Some(home), None);
      assert w0.objs[c] in inv[Claim].items;
      SandboxIsListed(w0, s, home);
      assert p.Linked(u, w0.objs[s]);
      WorkedIsGone(p, s, w1, w, home, scope, inventory);
    }
    forall q, s | q in w0.objs && s in w0.objs && ScopedPod(q, w0, scope, home) && SandboxOfPod(s, q, w0, home)
      ensures s !in w.objs
    {
      assert Selected(w0.objs[q], Pod, Some(home), None) && Selected(w0.objs[s], Sandbox, Some(home), None);
      assert w0.objs[q] in inv[Pod].items && w0.objs[s] in inv[Sandbox].items;
      PodsSandboxIsWorked(p, inv[Pod].items, inv[Sandbox].items, w0.objs[q], w0.objs[s], scope);
      WorkedIsGone(p, s, w1, w, home, scope, inventory);
    }
  }

  lemma PodsSandboxIsWorked(p: Plan, pods: seq<Obj>, items: seq<Obj>, pod: Obj, s: Obj, scope: Uid)
    requires PodsTied(p, pods, scope) && SandboxesNamed(p, items) && pod in pods && s in items
    requires InScope(pod.run, scope) && StepAllowed(pod.step) && HasControllerOwner(pod, SandboxOwner, s.key.name, s.uid)
    ensures s.key in p.sandboxes
  {
    assert Tied(p, pod, scope);
  }

  /** A Sandbox worked on to the end is labelled in scope while it is stored, hence gone. */
  lemma WorkedIsGone(p: Plan, s: Key, w1: World, w: World, home: string, scope: Uid, inventory: set<Obj>)
    requires Sound(w) && Shrunk(w1, w) && p.Valid(scope, inventory) && AllSecured(p, {}, w1, home) && AllReady(p, {})
    requires s in p.sandboxes && SandboxAt(s, home) && NoneLive(w, Sandbox, scope, home)
    ensures s !in w.objs
  {
    SecuredAtEnd(p, s, w1, w, home, scope, inventory);
    if s in w.objs {
      LabelledIsLive(w, s, scope, home);
    }
  }

  lemma SandboxIsListed(w0: World, s: Key, home: string)
    requires s in w0.objs && SandboxAt(s, home)
    ensures w0.objs[s] in SandboxesOf(w0, home)
  {
  }

  lemma SecuredAtEnd(p: Plan, s: Key, w1: World, w: World, home: string, scope: Uid, inventory: set<Obj>)
    requires Shrunk(w1, w) && p.Valid(scope, inventory) && AllSecured(p, {}, w1, home) && s in p.sandboxes && Ready(p.sandboxes[s])
    ensures s in w.objs ==> w.objs[s].run == p.sandboxes[s].run
    ensures InScope(p.sandboxes[s].run, scope)
  {
    WorkInScope(p, s, scope, inventory);
    WorkStaysSecured(p, s, w1, w, home, scope, inventory);
  }

  /** A claim or Sandbox whose run label is in scope is live. */
  lemma LabelledIsLive(w: World, k: Key, scope: Uid, home: string)
    requires k in w.objs && w.objs[k].key == k && k.kind in {Claim, Sandbox} && k.namespace == home && InScope(w.objs[k].run, scope)
    ensures !NoneLive(w, k.kind, scope, home)
  {
    assert Reached(w.objs[k], k.kind, home);
  }

  lemma ScopedIsLive(w0: World, w: World, c: Key, run: string, scope: Uid, home: string)
    requires Shrunk(w0, w) && c in w0.objs && w0.objs[c].key == c && ScopedClaim(c, w0, scope, home)
    requires NoneLive(w, Claim, scope, home)
    ensures c !in w.objs
  {
    if c in w.objs {
      assert Labelled(w0.objs[c], w.objs[c]);
      LabelledIsLive(w, c, scope, home);
    }
  }

  /** What a frozen first inventory lists of a well identified world is fit for deletion. */
  lemma TakenIsFit(a: History, b: History, inv: Inventory, scope: Uid, home: string)
    requires Taken(a, b, inv, true, scope, home) && a.quiet && Sound(a.world) && WellIdentified(a.world, scope, home) && Pod in inv
    ensures AllFit(inv, a.world, scope, home)
  {
    hide Obtained, KindTaken, Classify, SingleController, PodOwned, Fit, PodFit;
    forall kind | kind in inv && kind !in {Claim, Sandbox} && inv[kind].Items?
      ensures kind == Pod ==> forall o :: o in inv[kind].items ==> PodFit(o, a.world, scope, home)
      ensures kind != Pod ==> forall o :: o in inv[kind].items ==> Fit(o, a.world, scope, home)
    {
      TakenKind(a, b, inv, true, scope, home, kind);
      ObtainedIsCurrent(a, b, inv[kind], kind, Within(kind, home), Selector(kind, true, scope));
      forall o | o in inv[kind].items
        ensures if kind == Pod then PodFit(o, a.world, scope, home) else Fit(o, a.world, scope, home)
      {
        if kind == Pod {
          StoredPodIsFit(a.world, o, scope, home);
        } else {
          StoredIsFit(a.world, o, scope, home);
        }
      }
    }
  }

  lemma StoredPodIsFit(w: World, o: Obj, scope: Uid, home: string)
    requires Sound(w) && WellIdentified(w, scope, home) && o.key in w.objs && w.objs[o.key] == o
    requires o.key.kind == Pod && o.key.namespace == home
    ensures PodFit(o, w, scope, home)
  {
    if InScope(o.run, scope) {
      assert Answerable(o, scope, home);
      assert o.key == Key(Pod, home, o.key.name);
    }
  }

  lemma StoredIsFit(w: World, o: Obj, scope: Uid, home: string)
    requires WellIdentified(w, scope, home) && o.key in w.objs && w.objs[o.key] == o && Answerable(o, scope, home)
    ensures Fit(o, w, scope, home)
  {
    hide Classify;
  }

  lemma StillServed(a: History, b: History, bareMode: bool)
    requires Served(a, bareMode) && Advanced(a, b) && Steady(b)
    ensures Served(b, bareMode)
  {
  }

  lemma NoneBecomesInvalid(a: World, b: World, scope: Uid, home: string)
    requires WellIdentified(a, scope, home) && Touched(a, b, {})
    ensures NoneInvalid(b, scope, home)
  {
    hide Classify;
  }

  /** Removals, then the second inventory, which begins at mid. */
  method RemoveAndConfirm(graph: Graph, store: ObjectStore, report: Report, inv: Inventory, scope: Uid, home: string, bareMode: bool,
                          ghost h0: History)
    returns (inventory: set<Obj>, ghost mid: History)
    requires store.Valid() && report.Valid() && Sound(h0.world)
    requires inv.Keys == KindsOf(KINDS) && Pod in inv && Claim in inv && Sandbox in inv
    requires Taken(h0, store.Now(), inv, true, scope, home) && Built(graph.plan, inv, scope)
    requires report.Clean() ==> graph.plan.Unblocked() && Faithful(graph.plan, inv, scope)
    requires report.errors == [] ==> report.Clean()
    modifies graph, store, report
    ensures store.Valid() && report.Valid() && Isolated(h0, store.Now(), scope)
    ensures Isolated(h0, mid, scope) && OnlyRead(mid, store.Now())
    ensures report.Clean() ==>
              (forall o :: o in inventory ==> !Live(o, scope)) &&
              forall kind :: ClearSince(mid, store.Now(), kind, scope, home) &&
                             Shows(mid, store.Now(), inventory, kind, scope, home)
    ensures h0.quiet ==> NothingLost(h0.world, store.world, scope, home)
    ensures h0.quiet && report.Clean() ==> NothingRemains(h0.world, store.world, scope, home)
    ensures Free(h0) && report.errors == [] ==> report.Clean()
    ensures Served(h0, bareMode) && WellIdentified(h0.world, scope, home) && old(graph.plan).sandboxes == map[] ==>
              report.errors == old(report.errors)
  {
    hide Sound, SingleController, Shrunk, Isolated, OnlyRead, Live, ClearSince, NoneLive, NothingLost, NothingRemains, Advanced, Swept, Taken,
      Built, Faithful, Free, AllSettled, Shows, AllFit, WellIdentified, NoneInvalid, Served, Steady;
    ghost var w0 := h0.world;
    ghost var listed := ItemsOf(inv[Claim]) + ItemsOf(inv[Sandbox]);
    if h0.quiet && WellIdentified(h0.world, scope, home) {
      TakenIsFit(h0, store.Now(), inv, scope, home);
    }
    ServedIsSteady(h0, bareMode);
    ghost var p, handled := RemoveAll(graph, store, report, inv, scope, home, h0);
    ghost var h4 := store.Now();
    mid := h4;
    if Served(h0, bareMode) && WellIdentified(h0.world, scope, home) && old(graph.plan).sandboxes == map[] {
      IsolatedAdvances(h0, h4, scope);
      StillServed(h0, h4, bareMode);
      NoneBecomesInvalid(h0.world, h4.world, scope, home);
    }
    IsolatedAdvances(h0, h4, scope);
    if Free(h0) && report.Clean() {
      FreeIsUnheld(h0, h4);
      SweptIsSettled(p, inv, handled, w0, h4.world, scope, home, listed);
    }
    inventory := ConfirmInventory(store, report, scope, home, bareMode);
    ghost var h5 := store.Now();
    ReadingIsIsolated(h4, h5, scope);
    IsolatedTransitive(h0, h4, h5, scope);
    if h0.quiet {
      QuietAdvance(h0, h4);
      ReadWorld(h4, h5);
      if report.Clean() {
        forall kind
          ensures NoneLive(store.world, kind, scope, home)
        {
          ClearNow(h4, h5, kind, scope, home);
        }
        SweptLeavesNothing(p, inv, handled, w0, store.world, scope, home, listed);
      }
    }
  }

  lemma FreeIsUnheld(a: History, b: History)
    requires Advanced(a, b) && Free(a)
    ensures a.quiet && b.quiet && forall k :: k in b.world.objs ==> !b.world.objs[k].held
  {
    StaysFree(a, b);
  }

  lemma SweptLeavesNothing(p: Plan, inv: Inventory, handled: set<Key>, w0: World, w: World, scope: Uid, home: string, inventory: set<Obj>)
    requires Pod in inv && Claim in inv && Sandbox in inv && Sound(w0) && Sound(w)
    requires Swept(p, inv, handled, w0, w, scope, home, inventory) && forall kind :: NoneLive(w, kind, scope, home)
    ensures NothingRemains(w0, w, scope, home)
  {
    hide Sound, Complete, Plan.Valid, Plan.Unblocked, Plan.AllLinked, AllReady, AllSecured, SandboxesOf, Shrunk, NoneLive;
    ShrunkReflexive(w);
    CleanLeavesNothing(p, inv, w0, w, w, scope, home, inventory);
  }

  lemma ReadReflexive(a: History)
    ensures OnlyRead(a, a)
  {
  }

  lemma ReadDeletes(a: History, b: History)
    requires OnlyRead(a, b)
    ensures b.deletions == a.deletions && b.relabels == a.relabels
  {
  }

  /** The ownership graph of the first inventory, then the removals and the second one. */
  method PlanAndRemove(store: ObjectStore, report: Report, inv: Inventory, scope: Uid, home: string, bareMode: bool, ghost h0: History)
    returns (inventory: set<Obj>, ghost mid: History)
    requires store.Valid() && report.Valid() && Sound(h0.world) && inv.Keys == KindsOf(KINDS)
    requires Taken(h0, store.Now(), inv, true, scope, home)
    requires report.Clean() ==> forall kind :: kind in inv ==> inv[kind].Items?
    requires report.errors == [] ==> report.Clean()
    requires Served(h0, bareMode) ==> forall kind :: kind in inv ==> inv[kind].Items?
    modifies store, report
    ensures store.Valid() && report.Valid() && Isolated(h0, store.Now(), scope)
    ensures Isolated(h0, mid, scope) && OnlyRead(mid, store.Now())
    ensures report.Clean() ==>
              (forall o :: o in inventory ==> !Live(o, scope)) &&
              forall kind :: ClearSince(mid, store.Now(), kind, scope, home) &&
                             Shows(mid, store.Now(), inventory, kind, scope, home)
    ensures h0.quiet ==> NothingLost(h0.world, store.world, scope, home)
    ensures h0.quiet && report.Clean() ==> NothingRemains(h0.world, store.world, scope, home)
    ensures Free(h0) && report.errors == [] ==> report.Clean()
    ensures Served(h0, bareMode) && WellIdentified(h0.world, scope, home) ==> report.errors == old(report.errors)
  {
    hide Sound, SingleController, Shrunk, Isolated, OnlyRead, Grown, Plan.Valid, Obtained, KindTaken, NothingLost, ClearSince,
      Live, Taken, Advanced, Lists, Free, Covers, SandboxesCovered, PodsTied, SandboxesNamed, UniqueNames, Shows, WellIdentified, Served,
      PlainInventory, Built, Plan.Unblocked, NothingRemains, WasStored;
    var graph := new Graph();
    KindsAreAll(Pod);
    KindsAreAll(Claim);
    KindsAreAll(Sandbox);
    if inv[Claim].Items? {
      TakenWell(h0, store.Now(), inv, true, scope, home, Claim);
    }
    if inv[Sandbox].Items? {
      TakenWell(h0, store.Now(), inv, true, scope, home, Sandbox);
    }
    if Served(h0, bareMode) && WellIdentified(h0.world, scope, home) {
      ServedIsQuiet(h0, bareMode);
      WellIdentifiedIsPlain(h0, store.Now(), inv, scope, home);
    }
    BuildGraph(graph, report, inv, scope);
    inventory, mid := RemoveAndConfirm(graph, store, report, inv, scope, home, bareMode, h0);
  }

  /** One deletion and confirmation pass. Only a global pass has an activation to check. mid is
      where its second inventory begins. */
  method CleanupSuspension(store: ObjectStore, api: ApiServers.ApiServer, scope: Uid, home: string, bareMode: bool,
                           activation: Option<Activation>)
    returns (r: Outcome, ghost mid: History)
    requires store.Valid() && api.Valid()
    modifies store, api
    ensures store.Valid() && api.Valid() && Machine.LaterState(old(api.st), api.st) && api.issued == old(api.issued)
    ensures api.written == old(api.written)
    ensures Isolated(old(store.Now()), store.Now(), scope)
    ensures r.Overtaken? ==> activation.Some? && store.deletions == old(store.deletions) && store.relabels == old(store.relabels)
    ensures r.Overtaken? ==> ApiServers.Lapsed(old(api.st), api.st, activation.value)
    ensures Isolated(old(store.Now()), mid, scope) && OnlyRead(mid, store.Now())
    ensures r.Passed? ==> (r.failed <==> Fails(r.cleanup))
    ensures Confirmed(r) ==>
              (forall o :: o in r.inventory ==> !Live(o, scope)) &&
              forall kind :: ClearSince(mid, store.Now(), kind, scope, home) &&
                             Shows(mid, store.Now(), r.inventory, kind, scope, home)
    ensures Confirmed(r) ==> forall kind :: ClearSince(old(store.Now()), store.Now(), kind, scope, home)
    ensures Confirmed(r) ==> PodsOverSince(mid, store.Now(), scope, home)
    ensures old(store.Now().quiet) ==>
              forall k :: k in old(store.world).objs && k.kind == Pod && old(store.world).objs[k].phase in {PodSucceeded, PodFailed} ==>
                k in store.world.objs
    ensures old(store.Now().quiet) ==> NothingLost(old(store.world), store.world, scope, home)
    ensures old(store.Now().quiet) && Confirmed(r) ==> NothingRemains(old(store.world), store.world, scope, home)
    ensures Free(old(store.Now())) && r.Passed? && !r.failed ==> Confirmed(r)
    ensures old(api.setbacks) <= api.setbacks
    ensures Free(old(store.Now())) && Served(old(store.Now()), bareMode) && WellIdentified(old(store.world), scope, home) &&
            r.Passed? && api.setbacks == old(api.setbacks) ==>
              Confirmed(r)
    ensures activation.None? ==> api.setbacks == old(api.setbacks)
  {
    hide SingleController, Shrunk, Isolated, OnlyRead, NothingLost, ClearSince, Live, Machine.LaterState, Taken, Advanced, InventorySeen,
      Free, ApiServers.Represents, ApiServers.Lapsed, Shows, Machine.Inv, WellIdentified, Served, NothingRemains, WasStored, PodsOverSince;
    ghost var h0, w0 := store.Now(), store.world;
    Machine.LaterStateReflexive(api.st);
    NothingLostAtFirst(w0, scope, home);
    var report := new Report();
    var inv := TakeInventory(store, report, true, scope, home, bareMode);
    ghost var h1 := store.Now();
    TakenIsSeen(h0, h1, inv, true, scope, home);
    ReadingIsIsolated(h0, h1, scope);
    if h0.quiet {
      ReadWorld(h0, h1);
    }
    ReadDeletes(h0, h1);
    mid := h1;
    ReadReflexive(h1);
    if activation.Some? {
      var verdict := api.RequireCurrentActivation(activation.value);
      if verdict == ApiServers.Superseded {
        ApiServers.LapsedNow(old(api.st), api.st, activation.value);
        return Overtaken, mid;
      }
      if verdict == ApiServers.Undecided {
        report.RecordUnverified(ActivationUnknown, Key(Pod, "", ""));
        return Passed(report.Cleanup(), report.errors != [], {}), mid;
      }
    }
    var inventory;
    inventory, mid := PlanAndRemove(store, report, inv, scope, home, bareMode, h0);
    r := Passed(report.Cleanup(), report.errors != [], inventory);
    IsolatedAdvances(h0, mid, scope);
    if Confirmed(r) {
      forall kind
        ensures ClearSince(h0, store.Now(), kind, scope, home)
      {
        ClearEarlier(h0, mid, store.Now(), kind, scope, home);
      }
      ClearPodsAreOver(mid, store.Now(), scope, home);
    }
    FinishedStayed(h0, store.Now(), scope);
  }

  /** At some instant between a and b every stored Pod of the operator's namespace that is labelled
      for a run in scope had succeeded or failed. */
  ghost predicate PodsOverSince(a: History, b: History, scope: Uid, home: string) {
    exists i :: |a.past| <= i < |b.past| && PodsOver(b.past[i], scope, home)
  }

  ghost predicate PodsOver(w: World, scope: Uid, home: string) {
    forall k :: k in w.objs && w.objs[k].key.kind == Pod && w.objs[k].key.namespace == home &&
                w.objs[k].run != "" && (scope == "" || w.objs[k].run == scope) ==>
      w.objs[k].phase in {PodSucceeded, PodFailed}
  }

  lemma ClearPodsAreOver(a: History, b: History, scope: Uid, home: string)
    requires ClearSince(a, b, Pod, scope, home)
    ensures PodsOverSince(a, b, scope, home)
  {
    var i :| |a.past| <= i < |b.past| && NoneLive(b.past[i], Pod, scope, home);
    assert PodsOver(b.past[i], scope, home);
  }

  lemma FinishedStayed(a: History, b: History, scope: Uid)
    requires Isolated(a, b, scope)
    ensures a.quiet ==> FinishedStay(a.world, b.world)
  {
  }

  lemma NothingLostAtFirst(w: World, scope: Uid, home: string)
    ensures NothingLost(w, w, scope, home)
  {
  }
}
