/** From the first inventory of a pass to its ownership graph, and what the graph then owes to
    the inventory. */
module CleanupPlanning {
  import opened Conditions
  import opened Configs
  import opened Objects
  import opened ObjectStores
  import opened Ownership
  import opened Reports
  import opened CleanupRequests
  import opened CleanupWork
  import opened Inventories
  import Creation

  ghost function ItemsOf(l: Listing): set<Obj> {
    if l.Items? then Elements(l.items) else {}
  }

  /** What the graph owes to the inventory it was built from. */
  ghost predicate Built(p: Plan, inv: Inventory, scope: Uid)
    requires Claim in inv && Sandbox in inv
  {
    && p.Valid(scope, ItemsOf(inv[Claim]) + ItemsOf(inv[Sandbox]))
    && (if inv[Sandbox].Items? then p.AllLinked(ItemsOf(inv[Sandbox])) else forall u :: u in p.claims ==> p.claims[u].blocked)
  }

  /** ... and, as long as nothing had to be reported, every claim in scope is worked on. */
  ghost predicate Covers(p: Plan, claims: seq<Obj>, scope: Uid) {
    forall o :: o in claims && InScope(o.run, scope) ==> o.uid in p.claims && p.claims[o.uid].target == o
  }

  ghost predicate SandboxesCovered(p: Plan, items: seq<Obj>, scope: Uid) {
    forall o :: o in items && InScope(o.run, scope) ==> o.key in p.sandboxes
  }

  ghost predicate PodsTied(p: Plan, pods: seq<Obj>, scope: Uid) {
    forall pod :: pod in pods ==> Tied(p, pod, scope)
  }

  ghost predicate SandboxesNamed(p: Plan, items: seq<Obj>) {
    forall o :: o in items ==> o.key.name in p.sandboxByName && p.sandboxByName[o.key.name] == o
  }

  lemma CoverageStays(p: Plan, q: Plan, items: seq<Obj>, pods: seq<Obj>, scope: Uid)
    requires Grown(p, q)
    ensures SandboxesCovered(p, items, scope) ==> SandboxesCovered(q, items, scope)
    ensures PodsTied(p, pods, scope) ==> PodsTied(q, pods, scope)
    ensures SandboxesNamed(p, items) ==> SandboxesNamed(q, items)
  {
    SandboxesStay(p, q);
    if PodsTied(p, pods, scope) {
      forall pod | pod in pods
        ensures Tied(q, pod, scope)
      {
        TiedStays(p, q, pod, scope);
      }
    }
  }

  lemma StillCovers(p: Plan, q: Plan, claims: seq<Obj>, scope: Uid)
    requires Covers(p, claims, scope) && Grown(p, q)
    ensures Covers(q, claims, scope)
  {
    SameClaims(p, q);
  }

  /** What a pass answers for is well identified: it has a UID, the classifiers accept it, no
      claim refers to a Sandbox and none is there, and every Pod is bare or names its Sandbox. */
  ghost predicate WellIdentified(w: World, scope: Uid, home: string) {
    && NoneInvalid(w, scope, home)
    && (forall k :: k in w.objs && Answerable(w.objs[k], scope, home) ==> w.objs[k].uid != "")
    && (forall k :: k in w.objs ==> !SandboxAt(k, home))
    && (forall k :: k in w.objs && k.kind == Pod ==> PodOwned(w.objs[k], scope))
    && (forall k :: k in w.objs && ScopedClaim(k, w, scope, home) ==> w.objs[k].statusSandbox == Reference(""))
  }

  /** o is what a launch creates, as the server stores it: with a UID, and no status yet. */
  ghost predicate AsLaunched(o: Obj, m: Creation.Made, run: string, step: string, home: string) {
    && run != "" && StepAllowed(step) && (m.ForExecution() ==> step == "execution") && o.uid != ""
    && o == Creation.Create(m, run, step, home).(uid := o.uid, version := o.version, phase := o.phase, statusSandbox := Reference(""))
  }

  ghost predicate Launched(o: Obj, home: string) {
    exists m, run, step :: AsLaunched(o, m, run, step, home)
  }

  /** Whatever launches create, of however many runs and steps, is well identified. */
  lemma LaunchedAreWellIdentified(w: World, scope: Uid, home: string)
    requires forall k :: k in w.objs ==> w.objs[k].key == k && Launched(w.objs[k], home)
    ensures WellIdentified(w, scope, home)
  {
    hide Launched, Classify, PodOwned;
    forall k | k in w.objs
      ensures w.objs[k].uid != "" && k.kind != Sandbox
      ensures Answerable(w.objs[k], scope, home) ==> !Classify(w.objs[k], scope, home).Invalid?
      ensures k.kind == Pod ==> PodOwned(w.objs[k], scope)
      ensures w.objs[k].statusSandbox == Reference("")
    {
      LaunchedIsIdentified(w.objs[k], scope, home);
    }
  }

  lemma LaunchedIsIdentified(o: Obj, scope: Uid, home: string)
    requires Launched(o, home)
    ensures o.uid != "" && o.key.kind != Sandbox && o.statusSandbox == Reference("") && PodOwned(o, scope)
    ensures Answerable(o, scope, home) ==> !Classify(o, scope, home).Invalid?
  {
    hide StepAllowed, Classify, Creation.Create, InScope;
    var m, run, step :| AsLaunched(o, m, run, step, home);
    BareByCreation(m, run, step, home);
    if Answerable(o, scope, home) {
      ScopeIsRun(o.run, run, scope);
      Creation.CreatedIsRecognised(m, run, step, home, scope);
      SameIdentityClassified(Creation.Create(m, run, step, home), o, scope, home);
    }
  }

  lemma BareByCreation(m: Creation.Made, run: string, step: string, home: string)
    ensures var c := Creation.Create(m, run, step, home);
            c.key.kind != Sandbox && c.owners == [] && c.run == run
  {
  }

  lemma ScopeIsRun(mark: string, run: string, scope: Uid)
    requires InScope(mark, scope) && mark == run
    ensures scope == "" || scope == run
  {
  }

  lemma SameIdentityClassified(a: Obj, b: Obj, scope: Uid, home: string)
    requires b == a.(uid := b.uid, version := b.version, phase := b.phase, statusSandbox := b.statusSandbox)
    ensures Classify(b, scope, home) == Classify(a, scope, home)
  {
  }

  /** The same of what an inventory lists. */
  ghost predicate PlainInventory(inv: Inventory, scope: Uid)
    requires Pod in inv && Claim in inv && Sandbox in inv
  {
    && inv[Pod].Items? && inv[Claim].Items? && inv[Sandbox] == Items([])
    && (forall o :: o in inv[Claim].items ==> ClaimNamed(o, scope) && (InScope(o.run, scope) ==> o.statusSandbox == Reference("")))
    && (forall o :: o in inv[Pod].items ==> PodOwned(o, scope))
  }

  lemma WellIdentifiedIsPlain(a: History, b: History, inv: Inventory, scope: Uid, home: string)
    requires Taken(a, b, inv, true, scope, home) && a.quiet && Sound(a.world) && WellIdentified(a.world, scope, home)
    requires Pod in inv && Claim in inv && Sandbox in inv && inv[Pod].Items? && inv[Claim].Items? && inv[Sandbox].Items?
    ensures PlainInventory(inv, scope)
  {
    hide Taken, Classify, PodOwned, SingleController, InScope, StepAllowed;
    ListingIsWorld(a, b, inv, scope, home, Pod);
    ListingIsWorld(a, b, inv, scope, home, Claim);
    ListingIsWorld(a, b, inv, scope, home, Sandbox);
    NoneListed(a.world, inv[Sandbox].items, home);
    forall o | o in inv[Claim].items
      ensures ClaimNamed(o, scope) && (InScope(o.run, scope) ==> o.statusSandbox == Reference(""))
    {
      if InScope(o.run, scope) {
        assert Answerable(a.world.objs[o.key], scope, home);
        ValidClaimIsNamed(o, scope, home);
      }
    }
  }

  lemma SomeListed(w: World, items: seq<Obj>, home: string)
    requires Lists(w, items, Sandbox, Some(home), None) && items != [] && forall k :: k in w.objs ==> w.objs[k].key == k
    ensures exists k :: k in w.objs && SandboxAt(k, home)
  {
    assert items[0] in items;
    assert SandboxAt(items[0].key, home);
  }

  lemma NoneListed(w: World, items: seq<Obj>, home: string)
    requires Lists(w, items, Sandbox, Some(home), None) && forall k :: k in w.objs ==> w.objs[k].key == k && !SandboxAt(k, home)
    ensures items == []
  {
    if items != [] {
      SomeListed(w, items, home);
    }
  }

  lemma ValidClaimIsNamed(o: Obj, scope: Uid, home: string)
    requires o.key.kind == Claim && InScope(o.run, scope) && !Classify(o, scope, home).Invalid?
    ensures StepAllowed(o.step)
  {
  }

  method BuildGraph(graph: Graph, report: Report, inv: Inventory, scope: Uid)
    requires graph.plan == Plan(map[], map[], map[], map[]) && report.Valid()
    requires Pod in inv && Claim in inv && Sandbox in inv
    requires inv[Claim].Items? ==> WellListed(inv[Claim].items) && forall o :: o in inv[Claim].items ==> o.key.kind == Claim
    requires inv[Sandbox].Items? ==> WellListed(inv[Sandbox].items) && forall o :: o in inv[Sandbox].items ==> o.key.kind == Sandbox
    modifies graph, report
    ensures Built(graph.plan, inv, scope) && report.Valid()
    ensures report.Clean() ==> old(report.Clean()) && graph.plan.Unblocked()
    ensures report.Clean() && inv[Claim].Items? ==> Covers(graph.plan, inv[Claim].items, scope)
    ensures report.Untouched()
    ensures report.Clean() && inv[Sandbox].Items? ==> SandboxesCovered(graph.plan, inv[Sandbox].items, scope)
    ensures report.Clean() && inv[Sandbox].Items? && inv[Pod].Items? ==> PodsTied(graph.plan, inv[Pod].items, scope)
    ensures inv[Sandbox].Items? && UniqueNames(inv[Sandbox].items) ==> SandboxesNamed(graph.plan, inv[Sandbox].items)
    ensures PlainInventory(inv, scope) ==> graph.plan.sandboxes == map[] && report.errors == old(report.errors)
  {
    hide Grown, Plan.Valid, SingleController, Plan.AllLinked, Report.Clean, InScope, StepAllowed, ControllerRef, HasControllerOfKind;
    var claims, sandboxes := inv[Claim], inv[Sandbox];
    ghost var inventory := ItemsOf(claims) + ItemsOf(sandboxes);
    NothingPlanned(scope, inventory);
    if claims.Items? {
      graph.AddClaims(claims.items, scope, report, inventory);
    }
    if sandboxes.Items? {
      graph.NameSandboxes(sandboxes.items, scope, inventory);
    }
    ghost var named := graph.plan;
    GrownReflexive(named);
    if sandboxes.Items? {
      graph.AddSandboxes(sandboxes.items, claims.Items?, scope, report, inventory);
    }
    ghost var added := graph.plan;
    GrownReflexive(added);
    if inv[Pod].Items? && sandboxes.Items? {
      graph.LinkPods(inv[Pod].items, claims.Items?, scope, report, inventory);
    }
    ghost var linked := graph.plan;
    graph.CheckStatuses(sandboxes.Items?, scope, report, inventory);
    GrownTransitive(added, linked, graph.plan);
    GrownTransitive(named, added, graph.plan);
    if sandboxes.Items? {
      CoverageStays(named, graph.plan, sandboxes.items, [], scope);
      CoverageStays(added, graph.plan, sandboxes.items, [], scope);
      if inv[Pod].Items? {
        CoverageStays(linked, graph.plan, sandboxes.items, inv[Pod].items, scope);
      }
    }
    if sandboxes.Items? {
      AllLinkedStays(added, graph.plan, ItemsOf(sandboxes));
    }
    if report.Clean() && claims.Items? {
      StillCovers(named, graph.plan, claims.items, scope);
    }
  }

  lemma NothingPlanned(scope: Uid, inventory: set<Obj>)
    ensures Plan(map[], map[], map[], map[]).Valid(scope, inventory) && Plan(map[], map[], map[], map[]).Unblocked()
  {
  }

  lemma ListingIsWorld(a: History, b: History, inv: Inventory, scope: Uid, home: string, kind: Kind)
    requires Taken(a, b, inv, true, scope, home) && a.quiet && kind in {Pod, Claim, Sandbox} && kind in inv && inv[kind].Items?
    ensures Lists(a.world, inv[kind].items, kind, Some(home), None)
  {
    assert KindTaken(a, b, inv[kind], kind, true, scope, home);
    ObtainedIsCurrent(a, b, inv[kind], kind, Some(home), None);
  }

  lemma BuiltOnWorld(p: Plan, a: History, b: History, inv: Inventory, scope: Uid, home: string)
    requires Claim in inv && Sandbox in inv && Built(p, inv, scope) && Taken(a, b, inv, true, scope, home) && a.quiet
    requires Sound(a.world)
    ensures Rooted(p, a.world, a.world) && ClaimsOf(p, a.world) && p.AllLinked(SandboxesOf(a.world, home))
  {
    hide Lists, Obtained, Plan.AllLinked, KindTaken, ControlledBy;
    ShrunkReflexive(a.world);
    forall k | k in p.sandboxes
      ensures k in a.world.objs && a.world.objs[k] == p.sandboxes[k].target
    {
      assert SandboxValid(k, p.sandboxes[k], scope, ItemsOf(inv[Claim]) + ItemsOf(inv[Sandbox]));
      ItemOfWorld(a, b, inv, scope, home, p.sandboxes[k].target);
    }
    forall u | u in p.claims
      ensures p.claims[u].target.key in a.world.objs && a.world.objs[p.claims[u].target.key] == p.claims[u].target
    {
      assert ClaimValid(u, p.claims[u], scope, ItemsOf(inv[Claim]) + ItemsOf(inv[Sandbox]));
      ItemOfWorld(a, b, inv, scope, home, p.claims[u].target);
    }
    if inv[Sandbox].Items? {
      ListingIsWorld(a, b, inv, scope, home, Sandbox);
      ListedIsAll(a.world, inv[Sandbox].items, home);
    } else {
      BlockedIsLinked(p, SandboxesOf(a.world, home));
    }
  }

  lemma ItemOfWorld(a: History, b: History, inv: Inventory, scope: Uid, home: string, o: Obj)
    requires Claim in inv && Sandbox in inv && Taken(a, b, inv, true, scope, home) && a.quiet
    requires o in ItemsOf(inv[Claim]) + ItemsOf(inv[Sandbox])
    ensures o.key in a.world.objs && a.world.objs[o.key] == o
  {
    hide Obtained, KindTaken;
    var kind := if o in ItemsOf(inv[Claim]) then Claim else Sandbox;
    ListingIsWorld(a, b, inv, scope, home, kind);
  }

  lemma ListedIsAll(w: World, items: seq<Obj>, home: string)
    requires Lists(w, items, Sandbox, Some(home), None)
    requires forall k :: k in w.objs ==> w.objs[k].key == k
    ensures SandboxesOf(w, home) == Elements(items)
  {
    forall o
      ensures o in SandboxesOf(w, home) <==> o in items
    {
      if o in SandboxesOf(w, home) {
        var k :| k in w.objs && SandboxAt(k, home) && w.objs[k] == o;
        assert Selected(w.objs[k], Sandbox, Some(home), None);
      }
    }
  }

  lemma BlockedIsLinked(p: Plan, items: set<Obj>)
    requires forall u :: u in p.claims ==> p.claims[u].blocked
    ensures p.AllLinked(items)
  {
  }

  /** What a plan owes to an inventory nothing had to be reported about. */
  ghost predicate Faithful(p: Plan, inv: Inventory, scope: Uid)
    requires Pod in inv && Claim in inv && Sandbox in inv
  {
    && (forall kind :: kind in inv ==> inv[kind].Items?)
    && Covers(p, inv[Claim].items, scope) && SandboxesCovered(p, inv[Sandbox].items, scope) && PodsTied(p, inv[Pod].items, scope)
    && (UniqueNames(inv[Sandbox].items) ==> SandboxesNamed(p, inv[Sandbox].items))
  }

  /** ... when that inventory shows the world w0 as it is. */
  ghost predicate Complete(p: Plan, inv: Inventory, w0: World, scope: Uid, home: string)
    requires Pod in inv && Claim in inv && Sandbox in inv
  {
    && Faithful(p, inv, scope) && SandboxesNamed(p, inv[Sandbox].items)
    && forall kind :: kind in inv ==> ListsKind(w0, inv[kind], kind, scope, home)
  }

  ghost predicate ListsKind(w0: World, l: Listing, kind: Kind, scope: Uid, home: string) {
    l.Items? && Lists(w0, l.items, kind, Within(kind, home), Selector(kind, true, scope))
  }

  lemma FaithfulStays(p: Plan, q: Plan, inv: Inventory, scope: Uid)
    requires Pod in inv && Claim in inv && Sandbox in inv && Faithful(p, inv, scope) && Grown(p, q)
    ensures Faithful(q, inv, scope)
  {
    hide Grown, Covers, SandboxesCovered, PodsTied, SandboxesNamed, UniqueNames;
    StillCovers(p, q, inv[Claim].items, scope);
    CoverageStays(p, q, inv[Sandbox].items, inv[Pod].items, scope);
  }

  lemma FrozenIsComplete(p: Plan, a: History, b: History, inv: Inventory, scope: Uid, home: string)
    requires Pod in inv && Claim in inv && Sandbox in inv && Faithful(p, inv, scope) && Taken(a, b, inv, true, scope, home) && a.quiet
    ensures Complete(p, inv, a.world, scope, home)
  {
    hide Covers, SandboxesCovered, PodsTied, SandboxesNamed, Obtained, Lists;
    forall kind | kind in inv
      ensures ListsKind(a.world, inv[kind], kind, scope, home)
    {
      assert KindTaken(a, b, inv[kind], kind, true, scope, home);
      ObtainedIsCurrent(a, b, inv[kind], kind, Within(kind, home), Selector(kind, true, scope));
    }
    assert ListsKind(a.world, inv[Sandbox], Sandbox, scope, home);
    NamesAreUnique(a.world, inv[Sandbox].items, home);
  }

  lemma NamesAreUnique(w: World, items: seq<Obj>, home: string)
    requires Lists(w, items, Sandbox, Some(home), None)
    ensures UniqueNames(items)
  {
    forall i, j | 0 <= i < j < |items|
      ensures items[i].key.name != items[j].key.name
    {
      assert items[i] in items && items[j] in items;
    }
  }

  lemma TakenWell(a: History, b: History, inv: Inventory, first: bool, scope: Uid, home: string, kind: Kind)
    requires Taken(a, b, inv, first, scope, home) && kind in inv && inv[kind].Items?
    ensures WellListed(inv[kind].items) && forall o :: o in inv[kind].items ==> o.key.kind == kind
  {
    hide ListedSince, OnlyRead;
    assert KindTaken(a, b, inv[kind], kind, first, scope, home);
  }
}
