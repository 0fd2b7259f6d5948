/** The removal of everything that is neither a claim nor a Sandbox. */
module CleanupRest {
  import opened Conditions
  import opened Configs
  import opened Objects
  import opened ObjectStores
  import opened Ownership
  import opened Reports
  import opened CleanupRequests
  import opened CleanupWork
  import opened Inventories

  ghost predicate InventorySeen(inv: Inventory, seen: set<Obj>) {
    forall kind :: kind in inv && inv[kind].Items? ==> forall o :: o in inv[kind].items ==> o in seen && o.key.kind == kind
  }

  lemma TakenIsSeen(a: History, b: History, inv: Inventory, first: bool, scope: Uid, home: string)
    requires Taken(a, b, inv, first, scope, home)
    ensures InventorySeen(inv, b.seen) && OnlyRead(a, b)
  {
    hide ListedSince, WellListed, OnlyRead;
    forall kind | kind in inv && inv[kind].Items?
      ensures forall o :: o in inv[kind].items ==> o in b.seen && o.key.kind == kind
    {
      assert KindTaken(a, b, inv[kind], kind, first, scope, home);
    }
  }

  ghost predicate KindDone(l: Listing, w: World, scope: Uid, home: string) {
    l.Items? ==> forall o :: o in l.items ==> DealtWith(o, w, scope, home)
  }

  ghost predicate PodsDone(l: Listing, w: World, scope: Uid, home: string) {
    l.Items? ==>
      forall pod :: pod in l.items && InScope(pod.run, scope) ==> StepAllowed(pod.step) && PodDone(w, Key(Pod, home, pod.key.name))
  }

  /** The Pods and these kinds have been dealt with. */
  ghost predicate RestDone(inv: Inventory, handled: set<Key>, kinds: set<Kind>, w: World, scope: Uid, home: string) {
    && AllPodsDone(handled, w)
    && (Pod in inv ==> PodsDone(inv[Pod], w, scope, home))
    && (forall kind :: kind in kinds && kind in inv ==> KindDone(inv[kind], w, scope, home))
  }

  const OTHER_KINDS: set<Kind> := {WarmPool, ServiceAccount, Role, RoleBinding, ClusterRole, ClusterRoleBinding, Secret}

  lemma KindStaysDone(l: Listing, a: World, b: World, scope: Uid, home: string)
    requires Shrunk(a, b)
    ensures KindDone(l, a, scope, home) ==> KindDone(l, b, scope, home)
    ensures PodsDone(l, a, scope, home) ==> PodsDone(l, b, scope, home)
  {
    hide Shrunk, DealtWith, PodDone;
    if l.Items? && KindDone(l, a, scope, home) {
      forall o | o in l.items
        ensures DealtWith(o, b, scope, home)
      {
        StaysDealtWith(o, a, b, scope, home);
      }
    }
    if l.Items? && PodsDone(l, a, scope, home) {
      forall pod | pod in l.items && InScope(pod.run, scope)
        ensures PodDone(b, Key(Pod, home, pod.key.name))
      {
        PodStaysDone(a, b, Key(Pod, home, pod.key.name));
      }
    }
  }

  lemma RestStaysDone(inv: Inventory, handled: set<Key>, kinds: set<Kind>, a: World, b: World, scope: Uid, home: string)
    requires Shrunk(a, b) && RestDone(inv, handled, kinds, a, scope, home)
    ensures RestDone(inv, handled, kinds, b, scope, home)
  {
    hide Shrunk, KindDone, PodsDone, AllPodsDone;
    AllStay({}, handled, a, b);
    if Pod in inv {
      KindStaysDone(inv[Pod], a, b, scope, home);
    }
    forall kind | kind in kinds && kind in inv
      ensures KindDone(inv[kind], b, scope, home)
    {
      KindStaysDone(inv[kind], a, b, scope, home);
    }
  }

  /** A stretch of removals by label and name, dirty unless clean. */
  ghost predicate Removals(a: History, b: History, inv: Inventory, handled: set<Key>, kinds: set<Kind>, clean: bool, scope: Uid, home: string) {
    && Kept(a, b, scope) && (Free(a) ==> Free(b))
    && (a.quiet ==> b.quiet && Shrunk(a.world, b.world) && Touched(a.world, b.world, {}))
    && (a.quiet && AllPodsDone(handled, a.world) && clean ==> RestDone(inv, handled, kinds, b.world, scope, home))
  }

  /** Everything listed is fit for deletion. */
  ghost predicate ListingFit(l: Listing, w: World, scope: Uid, home: string) {
    l.Items? ==> forall o :: o in l.items ==> Fit(o, w, scope, home)
  }

  ghost predicate PodsFit(l: Listing, w: World, scope: Uid, home: string) {
    l.Items? ==> forall o :: o in l.items ==> PodFit(o, w, scope, home)
  }

  /** ... of every kind but claims and Sandboxes, which have their own order. */
  ghost predicate AllFit(inv: Inventory, w: World, scope: Uid, home: string)
    requires Pod in inv
  {
    PodsFit(inv[Pod], w, scope, home) &&
    forall kind :: kind in inv && kind !in {Pod, Claim, Sandbox} ==> ListingFit(inv[kind], w, scope, home)
  }

  lemma StayFit(inv: Inventory, a: World, b: World, scope: Uid, home: string)
    requires Pod in inv && AllFit(inv, a, scope, home) && Touched(a, b, {})
    ensures AllFit(inv, b, scope, home)
  {
    hide Fit, PodFit, Touched;
    forall kind | kind in inv && kind !in {Pod, Claim, Sandbox}
      ensures ListingFit(inv[kind], b, scope, home)
    {
      assert ListingFit(inv[kind], a, scope, home);
      if inv[kind].Items? {
        forall o | o in inv[kind].items
          ensures Fit(o, b, scope, home)
        {
          StaysFit(o, a, b, scope, home);
        }
      }
    }
    if inv[Pod].Items? {
      forall o | o in inv[Pod].items
        ensures PodFit(o, b, scope, home)
      {
        StaysPodFit(o, a, b, scope, home);
      }
    }
  }

  /** The objects of one kind, if they could be listed. */
  method DeleteListed(store: ObjectStore, report: Report, l: Listing, home: string, scope: Uid)
    requires store.Valid() && report.Valid() && (l.Items? ==> forall o :: o in l.items ==> o in store.seen && o.key.kind !in {Pod, Claim})
    modifies store, report
    ensures store.Valid() && Kept(old(store.Now()), store.Now(), scope)
    ensures report.Valid() && (report.Clean() ==> old(report.Clean())) && report.Untouched()
    ensures old(store.Now().quiet) ==> Touched(old(store.world), store.world, {})
    ensures old(store.Now().quiet) && report.Clean() ==> KindDone(l, store.world, scope, home)
    ensures old(store.Now()).sure ==> store.Now().sure
    ensures Steady(old(store.Now())) && ListingFit(l, old(store.world), scope, home) ==> report.errors == old(report.errors)
  {
    if l.Items? {
      DeleteManaged(store, report, l.items, home, scope);
    } else {
      KeptReflexive(store.Now(), scope);
      ObjectStores.Untouched(store.world, {});
    }
  }

  lemma RemovalsContinue(a: History, b: History, c: History, inv: Inventory, handled: set<Key>, kinds: set<Kind>, kind: Kind, clean: bool,
                         after: bool, scope: Uid, home: string)
    requires Removals(a, b, inv, handled, kinds, clean, scope, home) && kind in inv && (after ==> clean)
    requires Kept(b, c, scope) && (b.quiet ==> Touched(b.world, c.world, {}))
    requires b.quiet && after ==> KindDone(inv[kind], c.world, scope, home)
    ensures Removals(a, c, inv, handled, kinds + {kind}, after, scope, home)
  {
    hide Kept, Free, Touched, AllPodsDone, KindDone, RestDone, Shrunk;
    KeptTransitive(a, b, c, scope);
    KeptIsFree(b, c, scope);
    if a.quiet {
      ShrunkTransitive(a.world, b.world, c.world);
      TouchedNeither(a.world, b.world, c.world);
      RestGrows(inv, handled, kinds, kind, b.world, c.world, scope, home);
    }
  }

  /** Warm pools, then Pods. */
  method DeletePoolsAndPods(store: ObjectStore, report: Report, inv: Inventory, handled: set<Key>, home: string, scope: Uid)
    requires store.Valid() && report.Valid() && Pod in inv && WarmPool in inv && InventorySeen(inv, store.seen)
    modifies store, report
    ensures store.Valid() && report.Valid() && (report.Clean() ==> old(report.Clean()))
    ensures Free(old(store.Now())) ==> report.Untouched()
    ensures Removals(old(store.Now()), store.Now(), inv, handled, {WarmPool}, report.Clean(), scope, home)
    ensures old(store.Now()).sure ==> store.Now().sure
    ensures Steady(old(store.Now())) && AllFit(inv, old(store.world), scope, home) ==> report.errors == old(report.errors)
  {
    hide Sound, SingleController, Kept, Report.Clean, Free, Touched, AllPodsDone, KindDone, PodsDone, Shrunk, AllFit, PodsFit, ListingFit,
      WasStored;
    ghost var h0 := store.Now();
    KindIsFit(inv, WarmPool, h0.world, scope, home);
    DeleteListed(store, report, inv[WarmPool], home, scope);
    ghost var h1 := store.Now();
    KeptIsSure(h0, h1, scope);
    if h0.quiet && AllFit(inv, h0.world, scope, home) {
      StayFit(inv, h0.world, h1.world, scope, home);
    }
    PodsAreFit(inv, h1.world, scope, home);
    KeptIsFree(h0, h1, scope);
    if h0.quiet {
      AllStay({}, handled, h0.world, h1.world);
    }
    if inv[Pod].Items? {
      DeletePods(store, report, inv[Pod].items, handled, home, scope);
    } else {
      KeptReflexive(h1, scope);
      ObjectStores.Untouched(h1.world, {});
    }
    ghost var h2 := store.Now();
    KeptIsSure(h1, h2, scope);
    PodsAreDone(inv[Pod], h2.world, scope, home);
    KeptIsFree(h1, h2, scope);
    KeptTransitive(h0, h1, h2, scope);
    if h0.quiet {
      ShrunkTransitive(h0.world, h1.world, h2.world);
      TouchedNeither(h0.world, h1.world, h2.world);
      AllStay({}, handled, h1.world, h2.world);
      KindStaysDone(inv[WarmPool], h1.world, h2.world, scope, home);
    }
  }

  /** Warm pools, then Pods, then every kind of access, in inventory order. */
  method DeleteRest(store: ObjectStore, report: Report, inv: Inventory, handled: set<Key>, home: string, scope: Uid)
    requires store.Valid() && report.Valid() && inv.Keys == KindsOf(KINDS) && InventorySeen(inv, store.seen)
    modifies store, report
    ensures store.Valid() && report.Valid() && (report.Clean() ==> old(report.Clean()))
    ensures Free(old(store.Now())) ==> report.Untouched()
    ensures Removals(old(store.Now()), store.Now(), inv, handled, OTHER_KINDS, report.Clean(), scope, home)
    ensures old(store.Now()).sure ==> store.Now().sure
    ensures Steady(old(store.Now())) && AllFit(inv, old(store.world), scope, home) ==> report.errors == old(report.errors)
  {
    hide Sound, SingleController, Kept, Report.Clean, Free, Touched, Removals, KindDone, Shrunk, KindsOf, OTHER_KINDS, AllFit,
      ListingFit, WasStored;
    ghost var h0 := store.Now();
    AllListed(KINDS[0]);
    AllListed(KINDS[3]);
    DeletePoolsAndPods(store, report, inv, handled, home, scope);
    RemovalsTouch(h0, store.Now(), inv, handled, {WarmPool}, report.Clean(), scope, home);
    KindsStart();
    for i := 4 to |KINDS|
      invariant store.Valid() && report.Valid() && (report.Clean() ==> old(report.Clean()))
      invariant Free(h0) ==> report.Untouched()
      invariant (h0.sure ==> store.Now().sure) && (h0.quiet ==> store.Now().quiet && Touched(h0.world, store.world, {}))
      invariant Steady(h0) && AllFit(inv, h0.world, scope, home) ==> report.errors == old(report.errors)
      invariant Removals(h0, store.Now(), inv, handled, {WarmPool} + KindsOf(KINDS[4..i]), report.Clean(), scope, home)
    {
      KindsStep(i);
      ghost var h, clean := store.Now(), report.Clean();
      RemovalsSee(h0, h, inv, handled, {WarmPool} + KindsOf(KINDS[4..i]), clean, scope, home);
      if h0.quiet && AllFit(inv, h0.world, scope, home) {
        StayFit(inv, h0.world, h.world, scope, home);
      }
      KindIsFit(inv, KINDS[i], h.world, scope, home);
      DeleteListed(store, report, inv[KINDS[i]], home, scope);
      KeptIsSure(h, store.Now(), scope);
      if h0.quiet {
        TouchedNeither(h0.world, h.world, store.world);
      }
      RemovalsContinue(h0, h, store.Now(), inv, handled, {WarmPool} + KindsOf(KINDS[4..i]), KINDS[i], clean, report.Clean(), scope, home);
    }
    OthersAreAll();
  }

  lemma RemovalsTouch(a: History, b: History, inv: Inventory, handled: set<Key>, kinds: set<Kind>, clean: bool, scope: Uid, home: string)
    requires Removals(a, b, inv, handled, kinds, clean, scope, home)
    ensures a.quiet ==> b.quiet && Touched(a.world, b.world, {})
  {
  }

  lemma KeptIsSure(a: History, b: History, scope: Uid)
    requires Kept(a, b, scope)
    ensures (a.sure ==> b.sure) && (a.quiet ==> b.quiet)
  {
  }

  lemma KindIsFit(inv: Inventory, kind: Kind, w: World, scope: Uid, home: string)
    requires Pod in inv && kind in inv && kind !in {Pod, Claim, Sandbox}
    ensures AllFit(inv, w, scope, home) ==> ListingFit(inv[kind], w, scope, home)
  {
  }

  lemma PodsAreFit(inv: Inventory, w: World, scope: Uid, home: string)
    requires Pod in inv
    ensures AllFit(inv, w, scope, home) && inv[Pod].Items? ==> forall o :: o in inv[Pod].items ==> PodFit(o, w, scope, home)
  {
  }

  lemma RemovalsSee(a: History, b: History, inv: Inventory, handled: set<Key>, kinds: set<Kind>, clean: bool, scope: Uid, home: string)
    requires Removals(a, b, inv, handled, kinds, clean, scope, home)
    ensures a.seen <= b.seen
  {
    KeptSeen(a, b, scope);
  }

  lemma KindsStart()
    ensures {WarmPool} + KindsOf(KINDS[4..4]) == {WarmPool}
  {
  }

  lemma AllListed(kind: Kind)
    requires kind in KINDS
    ensures kind in KindsOf(KINDS)
  {
  }

  lemma KindsStep(i: nat)
    requires 4 <= i < |KINDS|
    ensures KINDS[i] !in {Pod, Claim, Sandbox} && KINDS[i] in KindsOf(KINDS)
    ensures {WarmPool} + KindsOf(KINDS[4..i]) + {KINDS[i]} == {WarmPool} + KindsOf(KINDS[4..i + 1])
  {
    assert KINDS[4..i + 1] == KINDS[4..i] + [KINDS[i]];
  }

  lemma OthersAreAll()
    ensures {WarmPool} + KindsOf(KINDS[4..|KINDS|]) == OTHER_KINDS
  {
    var rest := KINDS[4..|KINDS|];
    assert rest[0] == ServiceAccount && rest[1] == Role && rest[2] == RoleBinding;
    assert rest[3] == ClusterRole && rest[4] == ClusterRoleBinding && rest[5] == Secret;
  }

  lemma KeptIsFree(a: History, b: History, scope: Uid)
    requires Kept(a, b, scope)
    ensures Free(a) ==> Free(b)
    ensures a.quiet ==> b.quiet && Shrunk(a.world, b.world)
  {
    FreeThrough(a, b, scope);
  }

  lemma PodsAreDone(l: Listing, w: World, scope: Uid, home: string)
    ensures PodsDone(l, w, scope, home) <==>
              (l.Items? ==>
                 forall pod :: pod in l.items && InScope(pod.run, scope) ==>
                   StepAllowed(pod.step) && PodDone(w, Key(Pod, home, pod.key.name)))
  {
  }

  lemma RestGrows(inv: Inventory, handled: set<Key>, kinds: set<Kind>, kind: Kind, a: World, b: World, scope: Uid, home: string)
    requires Shrunk(a, b) && kind in inv
    ensures RestDone(inv, handled, kinds, a, scope, home) && KindDone(inv[kind], b, scope, home) ==>
              RestDone(inv, handled, kinds + {kind}, b, scope, home)
  {
    if RestDone(inv, handled, kinds, a, scope, home) {
      RestStaysDone(inv, handled, kinds, a, b, scope, home);
    }
  }
}
