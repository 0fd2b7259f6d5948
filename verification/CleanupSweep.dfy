/** All removals of one pass in order, and why nothing is left for the second inventory where
    nobody else writes and no finalizer holds anything. */
module CleanupSweep {
  import opened Conditions
  import opened Configs
  import opened Objects
  import opened ObjectStores
  import opened Ownership
  import opened Reports
  import opened CleanupRequests
  import opened CleanupWork
  import opened Inventories
  import opened CleanupPlanning
  import opened CleanupRest

  lemma KeptLosesNothing(w0: World, w: World, scope: Uid, home: string)
    requires ClaimsKept(w0, w)
    ensures NothingLost(w0, w, scope, home)
  {
  }

  /** What holds in a frozen environment once everything but the claims has been dealt with. */
  lemma ReadyForClaims(p0: Plan, p: Plan, w0: World, w1: World, w: World, scope: Uid, home: string, inventory: set<Obj>)
    requires Shrunk(w0, w1) && ClaimsKept(w0, w1) && Shrunk(w1, w) && ClaimsKept(w1, w)
    requires Grown(p0, p) && p.Valid(scope, inventory) && ClaimsOf(p0, w0) && p0.AllLinked(SandboxesOf(w0, home))
    requires AllSecured(p, {}, w1, home)
    ensures Accounted(p, w0, w, home) && NothingLost(w0, w, scope, home)
  {
    hide Plan.Valid, SandboxesOf, ControlledBy;
    AllLinkedStays(p0, p, SandboxesOf(w0, home));
    SameClaims(p0, p);
    ShrunkReflexive(w1);
    GrownReflexive(p);
    StaysAccounted(p, p, w0, w1, w, home, scope, inventory);
    KeptLosesNothing(w0, w, scope, home);
  }

  /** Everything the inventory called for has been done, as far as requests go. */
  ghost predicate Swept(p: Plan, inv: Inventory, handled: set<Key>, w0: World, w: World, scope: Uid, home: string, inventory: set<Obj>)
    requires Pod in inv && Claim in inv && Sandbox in inv
  {
    && p.Valid(scope, inventory) && p.Unblocked() && AllReady(p, {}) && Complete(p, inv, w0, scope, home)
    && p.AllLinked(SandboxesOf(w0, home)) && AllSecured(p, {}, w, home)
    && Shrunk(w0, w) && Touched(w0, w, p.sandboxes.Keys + handled)
    && AllRemoved(p.sandboxes.Keys, w) && RestDone(inv, handled, OTHER_KINDS, w, scope, home)
    && (forall u :: u in p.claims ==> Removed(w, p.claims[u].target.key))
  }

  /** Where nothing waits for a finalizer, nothing is left for the second inventory to find. */
  lemma SweptIsSettled(p: Plan, inv: Inventory, handled: set<Key>, w0: World, w: World, scope: Uid, home: string, inventory: set<Obj>)
    requires inv.Keys == KindsOf(KINDS) && Pod in inv && Claim in inv && Sandbox in inv
    requires Swept(p, inv, handled, w0, w, scope, home, inventory) && Sound(w0) && Sound(w)
    requires forall k :: k in w.objs ==> !w.objs[k].held
    ensures AllSettled(w, scope, home)
  {
    hide SingleController, Settled, Plan.Valid, Plan.Unblocked, Plan.AllLinked, SandboxesOf, AllSecured, AllReady, Shrunk, Complete, RestDone,
      OTHER_KINDS, Answerable;
    NoneRemain(p.sandboxes.Keys, w);
    forall k | k in w.objs && Answerable(w.objs[k], scope, home)
      ensures Settled(w.objs[k], scope, home)
    {
      if k in handled {
        HandledIsSettled(w, k, inv, handled, scope, home);
      } else {
        SameIsSettled(p, inv, handled, w0, w, k, scope, home);
      }
    }
  }

  lemma NoneRemain(keys: set<Key>, w: World)
    requires AllRemoved(keys, w) && forall k :: k in w.objs ==> !w.objs[k].held
    ensures forall k :: k in keys ==> k !in w.objs
  {
    forall k | k in keys
      ensures k !in w.objs
    {
      assert Removed(w, k);
    }
  }

  lemma HandledIsSettled(w: World, k: Key, inv: Inventory, handled: set<Key>, scope: Uid, home: string)
    requires k in w.objs && w.objs[k].key == k && k in handled && Answerable(w.objs[k], scope, home)
    requires RestDone(inv, handled, OTHER_KINDS, w, scope, home)
    ensures Settled(w.objs[k], scope, home)
  {
    hide KindDone, PodsDone, Settled;
    DonePodIsSettled(w, k, scope, home);
  }

  /** An object nobody touched was in the inventory as it is. */
  lemma SameIsSettled(p: Plan, inv: Inventory, handled: set<Key>, w0: World, w: World, k: Key, scope: Uid, home: string)
    requires inv.Keys == KindsOf(KINDS) && Pod in inv && Claim in inv && Sandbox in inv
    requires Complete(p, inv, w0, scope, home) && RestDone(inv, handled, OTHER_KINDS, w, scope, home)
    requires k in w.objs && k in w0.objs && w.objs[k] == w0.objs[k] && w0.objs[k].key == k && !w.objs[k].held
    requires k !in p.sandboxes && Answerable(w.objs[k], scope, home)
    requires forall u :: u in p.claims ==> Removed(w, p.claims[u].target.key)
    ensures Settled(w.objs[k], scope, home)
  {
    hide Settled, PodsTied, SandboxesNamed, Lists, AllPodsDone, KindDone, PodsDone, Selected, Covers, SandboxesCovered, InScope;
    KindsAreAll(k.kind);
    assert ListsKind(w0, inv[k.kind], k.kind, scope, home);
    ListedIfAnswerable(w0, inv[k.kind].items, k, scope, home);
    if k.kind == Pod {
      PodIsSettled(inv[Pod], w, k, scope, home);
    } else if k.kind == Claim {
      CoveredClaimIsRemoved(p, inv[Claim].items, w, k, scope);
    } else if k.kind == Sandbox {
      CoveredSandboxIsWorked(p, inv[Sandbox].items, w.objs[k], scope);
    } else {
      assert KindDone(inv[k.kind], w, scope, home);
      OtherIsSettled(inv[k.kind], w, k, scope, home);
    }
  }

  lemma ListedIfAnswerable(w0: World, items: seq<Obj>, k: Key, scope: Uid, home: string)
    requires k in w0.objs && w0.objs[k].key == k && Answerable(w0.objs[k], scope, home)
    requires Lists(w0, items, k.kind, Within(k.kind, home), Selector(k.kind, true, scope))
    ensures w0.objs[k] in items && InScope(w0.objs[k].run, scope) && (!ClusterWide(k.kind) ==> k.namespace == home)
  {
    assert Selected(w0.objs[k], k.kind, Within(k.kind, home), Selector(k.kind, true, scope));
  }

  lemma PodIsSettled(l: Listing, w: World, k: Key, scope: Uid, home: string)
    requires l.Items? && PodsDone(l, w, scope, home) && k in w.objs && w.objs[k] in l.items && w.objs[k].key == k
    requires k.kind == Pod && k.namespace == home && InScope(w.objs[k].run, scope)
    ensures Settled(w.objs[k], scope, home)
  {
    hide Settled;
    assert Key(Pod, home, k.name) == k;
    DonePodIsSettled(w, k, scope, home);
  }

  lemma CoveredClaimIsRemoved(p: Plan, claims: seq<Obj>, w: World, k: Key, scope: Uid)
    requires Covers(p, claims, scope) && forall u :: u in p.claims ==> Removed(w, p.claims[u].target.key)
    requires k in w.objs && w.objs[k] in claims && w.objs[k].key == k && InScope(w.objs[k].run, scope)
    ensures w.objs[k].held
  {
    assert Removed(w, p.claims[w.objs[k].uid].target.key);
  }

  lemma CoveredSandboxIsWorked(p: Plan, items: seq<Obj>, o: Obj, scope: Uid)
    requires SandboxesCovered(p, items, scope) && o in items && InScope(o.run, scope)
    ensures o.key in p.sandboxes
  {
  }

  lemma OtherIsSettled(l: Listing, w: World, k: Key, scope: Uid, home: string)
    requires l.Items? && KindDone(l, w, scope, home) && k in w.objs && w.objs[k] in l.items && w.objs[k].key == k && !w.objs[k].held
    ensures Settled(w.objs[k], scope, home)
  {
    hide Settled;
    assert DealtWith(w.objs[k], w, scope, home);
    DealtWithIsSettled(w, k, scope, home);
  }

  lemma DonePodIsSettled(w: World, k: Key, scope: Uid, home: string)
    requires k in w.objs && w.objs[k].key == k && k.kind == Pod && PodDone(w, k) && InScope(w.objs[k].run, scope)
    ensures Settled(w.objs[k], scope, home)
  {
  }

  lemma DealtWithIsSettled(w: World, k: Key, scope: Uid, home: string)
    requires k in w.objs && w.objs[k].key == k && !w.objs[k].held && DealtWith(w.objs[k], w, scope, home)
    ensures Settled(w.objs[k], scope, home)
  {
  }

  method RemoveAll(graph: Graph, store: ObjectStore, report: Report, inv: Inventory, scope: Uid, home: string, ghost h0: History)
    returns (ghost p: Plan, handled: set<Key>)
    requires store.Valid() && report.Valid() && Sound(h0.world)
    requires inv.Keys == KindsOf(KINDS) && Pod in inv && Claim in inv && Sandbox in inv
    requires Taken(h0, store.Now(), inv, true, scope, home) && Built(graph.plan, inv, scope)
    requires report.Clean() ==> graph.plan.Unblocked() && Faithful(graph.plan, inv, scope)
    modifies graph, store, report
    ensures store.Valid() && report.Valid() && Isolated(h0, store.Now(), scope)
    ensures Free(h0) ==> report.Untouched()
    ensures h0.quiet ==> NothingLost(h0.world, store.world, scope, home)
    ensures h0.quiet && report.Clean() ==>
              Swept(p, inv, handled, h0.world, store.world, scope, home, ItemsOf(inv[Claim]) + ItemsOf(inv[Sandbox]))
    ensures Steady(h0) && old(graph.plan).sandboxes == map[] && AllFit(inv, h0.world, scope, home) ==>
              report.errors == old(report.errors) && Touched(h0.world, store.world, {}) && Steady(store.Now())
  {
    hide Sound, SingleController, Shrunk, Grown, Plan.Valid, Plan.Unblocked, Plan.AllLinked, Kept, Isolated, Taken, OnlyRead, AllSecured,
      AllReady, Rooted, ClaimsOf, SandboxesOf, NothingLost, Accounted, Report.Clean, ClaimsKept, Advanced, InventorySeen, Removals, Faithful,
      Complete, Free, Touched, AllRemoved, AllPodsDone, RestDone, Removed, AllFit, ClaimsStill, WasStored;
    ghost var w0, p0, h1, frozen := h0.world, graph.plan, store.Now(), h0.quiet;
    ghost var listed, clean0 := ItemsOf(inv[Claim]) + ItemsOf(inv[Sandbox]), report.Clean();
    TakenIsSeen(h0, h1, inv, true, scope, home);
    ReadingIsIsolated(h0, h1, scope);
    ReadingStaysFree(h0, h1);
    ReadingStaysSure(h0, h1);
    if frozen {
      BuiltOnWorld(p0, h0, h1, inv, scope, home);
      ReadWorld(h0, h1);
      ClaimsAreStill(p0, w0, scope, listed);
    }
    handled := ProcessSandboxes(graph, store, report, home, scope, listed, frozen, w0);
    ghost var h2 := store.Now();
    p := graph.plan;
    SeenLater(inv, h1, h2, scope);
    KeptIsFree(h1, h2, scope);
    ghost var clean2 := report.Clean();
    DeleteRest(store, report, inv, handled, home, scope);
    ghost var h3, clean3 := store.Now(), report.Clean();
    RemovalsAre(h2, h3, inv, handled, OTHER_KINDS, clean3, scope, home);
    if Steady(h0) && p0.sandboxes == map[] {
      ClaimsStayStill(p0, h2.world, h3.world);
    }
    SeenLater(inv, h2, h3, scope);
    KeptTransitive(h1, h2, h3, scope);
    if frozen {
      KeptShrinks(h1, h2, scope);
      KeptShrinks(h2, h3, scope);
      ReadyForClaims(p0, p, w0, h2.world, h3.world, scope, home, listed);
    }
    ItemsSeen(inv, h3.seen);
    DeleteClaims(graph, store, report, home, scope, listed, frozen, w0);
    ghost var h4 := store.Now();
    if Steady(h0) && p0.sandboxes == map[] {
      TouchedNeither(h2.world, h3.world, h4.world);
      IsolatedAdvances(h3, h4, scope);
      AdvancedIsSteady(h3, h4);
    }
    KeptIsolated(h1, h3, scope);
    IsolatedTransitive(h0, h1, h3, scope);
    IsolatedTransitive(h0, h3, h4, scope);
    if frozen && report.Clean() {
      FaithfulStays(p0, p, inv, scope);
      FrozenIsComplete(p, h0, h1, inv, scope, home);
      IsolatedAdvances(h3, h4, scope);
      SweptInOrder(p0, p, inv, handled, w0, h2.world, h3, h4, scope, home, listed);
    }
  }

  lemma ReadingStaysSure(a: History, b: History)
    requires OnlyRead(a, b)
    ensures Steady(a) ==> Steady(b)
  {
  }

  lemma AdvancedIsSteady(a: History, b: History)
    requires Advanced(a, b)
    ensures Steady(a) ==> Steady(b)
  {
  }

  lemma ClaimsAreStill(p: Plan, w: World, scope: Uid, inventory: set<Obj>)
    requires p.Valid(scope, inventory) && ClaimsOf(p, w)
    ensures ClaimsStill(p, w)
  {
    forall u | u in p.claims
      ensures p.claims[u].target.uid != "" && StillAs(w, p.claims[u].target)
    {
      assert ClaimValid(u, p.claims[u], scope, inventory);
    }
  }

  lemma ClaimsStayStill(p: Plan, a: World, b: World)
    requires Touched(a, b, {})
    ensures ClaimsStill(p, a) ==> ClaimsStill(p, b)
  {
    hide Touched, StillAs;
    if ClaimsStill(p, a) {
      forall u | u in p.claims
        ensures StillAs(b, p.claims[u].target)
      {
        StaysAs(a, b, p.claims[u].target);
      }
    }
  }

  /** The facts of each phase, carried to the end. */
  lemma SweptInOrder(p0: Plan, p: Plan, inv: Inventory, handled: set<Key>, w0: World, w2: World, h3: History, h4: History, scope: Uid,
                     home: string, inventory: set<Obj>)
    requires Pod in inv && Claim in inv && Sandbox in inv
    requires Advanced(h3, h4) && h3.quiet && Shrunk(w0, w2) && Shrunk(w2, h3.world)
    requires Grown(p0, p) && p0.AllLinked(SandboxesOf(w0, home))
    requires p.Valid(scope, inventory) && p.Unblocked() && AllReady(p, {}) && Complete(p, inv, w0, scope, home)
    requires AllSecured(p, {}, w2, home) && AllRemoved(p.sandboxes.Keys, w2)
    requires Touched(w0, w2, p.sandboxes.Keys + handled) && Touched(w2, h3.world, {}) && Touched(h3.world, h4.world, {})
    requires RestDone(inv, handled, OTHER_KINDS, h3.world, scope, home)
    requires forall u :: u in p.claims ==> Removed(h4.world, p.claims[u].target.key)
    ensures Swept(p, inv, handled, w0, h4.world, scope, home, inventory)
  {
    hide Plan.Valid, Plan.Unblocked, Plan.AllLinked, SandboxesOf, AllSecured, AllReady, Complete, Touched, AllRemoved, RestDone, Grown, Shrunk;
    QuietAdvance(h3, h4);
    ShrunkTransitive(w0, w2, h3.world);
    ShrunkTransitive(w0, h3.world, h4.world);
    ShrunkTransitive(w2, h3.world, h4.world);
    AllLinkedStays(p0, p, SandboxesOf(w0, home));
    TouchedNeither(w2, h3.world, h4.world);
    TouchedTransitive(w0, w2, h4.world, p.sandboxes.Keys + handled, {});
    assert p.sandboxes.Keys + handled + {} == p.sandboxes.Keys + handled;
    AllStay(p.sandboxes.Keys, {}, w2, h4.world);
    RestStaysDone(inv, handled, OTHER_KINDS, h3.world, h4.world, scope, home);
    SecuredStay(p, w2, h4.world, home, scope, inventory);
  }

  lemma SecuredStay(p: Plan, a: World, b: World, home: string, scope: Uid, inventory: set<Obj>)
    requires Shrunk(a, b) && AllSecured(p, {}, a, home) && p.Valid(scope, inventory)
    ensures AllSecured(p, {}, b, home)
  {
    hide Shrunk, Plan.Valid, WorkSecured;
    forall k | k in p.sandboxes && Ready(p.sandboxes[k])
      ensures WorkSecured(b, p.sandboxes[k], home)
    {
      WorkStaysSecured(p, k, a, b, home, scope, inventory);
    }
  }

  lemma RemovalsAre(a: History, b: History, inv: Inventory, handled: set<Key>, kinds: set<Kind>, clean: bool, scope: Uid, home: string)
    requires Removals(a, b, inv, handled, kinds, clean, scope, home)
    ensures Kept(a, b, scope) && (Free(a) ==> Free(b))
    ensures a.quiet ==> b.quiet && Touched(a.world, b.world, {})
    ensures a.quiet && AllPodsDone(handled, a.world) && clean ==> RestDone(inv, handled, kinds, b.world, scope, home)
  {
  }

  lemma ReadingStaysFree(a: History, b: History)
    requires OnlyRead(a, b)
    ensures Free(a) ==> Free(b)
  {
  }

  lemma ReadWorld(a: History, b: History)
    requires OnlyRead(a, b) && a.quiet
    ensures b.quiet && b.world == a.world
  {
  }

  lemma QuietAdvance(a: History, b: History)
    requires Advanced(a, b) && a.quiet
    ensures b.quiet && Shrunk(a.world, b.world)
  {
  }

  lemma KeptIsolated(a: History, b: History, scope: Uid)
    requires Kept(a, b, scope)
    ensures Isolated(a, b, scope)
  {
  }

  lemma SeenLater(inv: Inventory, a: History, b: History, scope: Uid)
    requires InventorySeen(inv, a.seen) && Kept(a, b, scope)
    ensures InventorySeen(inv, b.seen)
  {
  }

  lemma ItemsSeen(inv: Inventory, seen: set<Obj>)
    requires InventorySeen(inv, seen) && Claim in inv && Sandbox in inv
    ensures ItemsOf(inv[Claim]) + ItemsOf(inv[Sandbox]) <= seen
  {
  }
}
