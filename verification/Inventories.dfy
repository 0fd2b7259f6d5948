/** The two inventories of a suspension pass, and what the second one confirms. */
module Inventories {
  import opened Conditions
  import opened Configs
  import opened Objects
  import opened ObjectStores
  import opened Reports
  import opened CleanupRequests

  // ---------------------------------------------------------------------------
  // Inventories
  // ---------------------------------------------------------------------------

  ghost predicate WellListed(items: seq<Obj>) {
    && (forall o :: o in items ==> SingleController(o))
    && (forall i, j :: 0 <= i < j < |items| ==> items[i].key != items[j].key)
    && (forall i, j :: 0 <= i < j < |items| ==> items[i].uid != items[j].uid || items[i].uid == "")
  }

  lemma ListsWell(w: World, items: seq<Obj>, kind: Kind, namespace: Option<string>, selector: Option<Uid>)
    requires Sound(w) && Lists(w, items, kind, namespace, selector)
    ensures WellListed(items)
  {
    forall i, j | 0 <= i < j < |items|
      ensures items[i].uid != items[j].uid || items[i].uid == ""
    {
      assert items[i] in items && items[j] in items;
    }
  }

  ghost predicate ListedSince(a: History, b: History, items: seq<Obj>, kind: Kind, namespace: Option<string>, selector: Option<Uid>) {
    exists i :: |a.past| <= i < |b.past| && Lists(b.past[i], items, kind, namespace, selector)
  }

  /** A listing that succeeded shows what was stored at some instant between a and b. */
  ghost predicate Obtained(a: History, b: History, l: Listing, kind: Kind, namespace: Option<string>, selector: Option<Uid>) {
    l.Items? ==>
      && WellListed(l.items)
      && (forall o :: o in l.items ==> o in b.seen && o.key.kind == kind)
      && ListedSince(a, b, l.items, kind, namespace, selector)
  }

  lemma ObtainedStays(a: History, b: History, c: History, l: Listing, kind: Kind, namespace: Option<string>, selector: Option<Uid>)
    requires Obtained(a, b, l, kind, namespace, selector) && OnlyRead(b, c)
    ensures Obtained(a, c, l, kind, namespace, selector)
  {
    if l.Items? {
      var i :| |a.past| <= i < |b.past| && Lists(b.past[i], l.items, kind, namespace, selector);
      assert c.past[i] == b.past[i];
    }
  }

  lemma ObtainedEarlier(a: History, b: History, c: History, l: Listing, kind: Kind, namespace: Option<string>, selector: Option<Uid>)
    requires OnlyRead(a, b) && Obtained(b, c, l, kind, namespace, selector)
    ensures Obtained(a, c, l, kind, namespace, selector)
  {
    if l.Items? {
      var i :| |b.past| <= i < |c.past| && Lists(c.past[i], l.items, kind, namespace, selector);
    }
  }

  /** With nobody else writing, a listing shows the world as it is. */
  lemma ObtainedIsCurrent(a: History, b: History, l: Listing, kind: Kind, namespace: Option<string>, selector: Option<Uid>)
    requires Obtained(a, b, l, kind, namespace, selector) && OnlyRead(a, b) && a.quiet && l.Items?
    ensures Lists(a.world, l.items, kind, namespace, selector)
  {
  }

  /** A steady store in which every kind is served, or rightly missing in bare-pod mode. */
  ghost predicate Served(h: History, bareMode: bool) {
    Steady(h) && (bareMode || OPTIONAL_KINDS <= h.world.installed)
  }

  /** A listing that succeeded, or found its optional type not installed. */
  ghost predicate Answered(l: Listing, kind: Kind, w: World) {
    l.Items? || (l.NotServed? && kind in OPTIONAL_KINDS && kind !in w.installed)
  }

  lemma StaysServed(a: History, b: History, bareMode: bool)
    requires OnlyRead(a, b) && Served(a, bareMode)
    ensures Served(b, bareMode) && b.world == a.world
  {
  }

  method ListOnce(store: ObjectStore, kind: Kind, namespace: Option<string>, selector: Option<Uid>) returns (l: Listing)
    requires store.Valid()
    modifies store
    ensures store.Valid() && OnlyRead(old(store.Now()), store.Now())
    ensures Obtained(old(store.Now()), store.Now(), l, kind, namespace, selector)
    ensures Steady(old(store.Now())) ==> Answered(l, kind, old(store.world))
  {
    l := store.List(kind, namespace, selector);
    if l.Items? {
      ListsWell(store.world, l.items, kind, namespace, selector);
      assert store.past[|store.past| - 1] == store.world;
    }
  }

  /** In bare-pod mode, an unmapped optional type is no gap in the inventory once its
      definition is proved absent. */
  method OptionalTypeAbsent(store: ObjectStore, report: Report, l: Listing, kind: Kind, bareMode: bool) returns (absent: bool)
    requires store.Valid() && report.Valid() && kind in OPTIONAL_KINDS
    modifies store, report
    ensures store.Valid() && OnlyRead(old(store.Now()), store.Now())
    ensures report.Valid() && (report.Clean() ==> old(report.Clean()))
    ensures absent ==> bareMode && l.NotServed?
    ensures absent ==> forall namespace, selector :: ListedSince(old(store.Now()), store.Now(), [], kind, namespace, selector)
    ensures report.Untouched()
    ensures Served(old(store.Now()), bareMode) && Answered(l, kind, old(store.world)) ==>
              report.errors == old(report.errors) && (absent || l.Items?)
  {
    OnlyReadReflexive(store.Now());
    if !bareMode || !l.NotServed? {
      return false;
    }
    var installed := store.Defined(kind);
    if installed == Some(false) {
      forall namespace, selector
        ensures ListedSince(old(store.Now()), store.Now(), [], kind, namespace, selector)
      {
        assert Lists(store.past[|store.past| - 1], [], kind, namespace, selector);
      }
      return true;
    }
    report.RecordUnverified(if installed.None? then OptionalTypeUnknown else OptionalTypePresent, Key(kind, "", ""));
    return false;
  }

  method Settle(store: ObjectStore, report: Report, l: Listing, kind: Kind, bareMode: bool, ghost a: History,
                ghost namespace: Option<string>, ghost selector: Option<Uid>)
    returns (r: Listing)
    requires store.Valid() && report.Valid() && kind in OPTIONAL_KINDS
    requires OnlyRead(a, store.Now()) && Obtained(a, store.Now(), l, kind, namespace, selector)
    modifies store, report
    ensures store.Valid() && OnlyRead(old(store.Now()), store.Now()) && Obtained(a, store.Now(), r, kind, namespace, selector)
    ensures report.Valid() && (report.Clean() ==> old(report.Clean()) && r.Items?)
    ensures report.Untouched()
    ensures Served(old(store.Now()), bareMode) && Answered(l, kind, old(store.world)) ==> report.errors == old(report.errors) && r.Items?
  {
    ghost var b := store.Now();
    r := l;
    var absent := OptionalTypeAbsent(store, report, l, kind, bareMode);
    if absent {
      r := Items([]);
      ObtainedEarlier(a, b, store.Now(), r, kind, namespace, selector);
    } else {
      ObtainedStays(a, b, store.Now(), l, kind, namespace, selector);
    }
    if !r.Items? {
      report.RecordUnverified(InventoryUnavailable, Key(kind, "", ""));
    }
  }

  // ---------------------------------------------------------------------------
  // Confirmation
  // ---------------------------------------------------------------------------

  predicate ClusterWide(kind: Kind) {
    kind in {Role, RoleBinding, ClusterRole, ClusterRoleBinding}
  }

  function Within(kind: Kind, home: string): Option<string> {
    if ClusterWide(kind) then None else Some(home)
  }

  /** Where a pass looks for objects of this kind: Roles and RoleBindings in every namespace,
      ClusterRoles and ClusterRoleBindings in none, the others in the operator's own. */
  predicate Reached(o: Obj, kind: Kind, home: string) {
    o.key.kind == kind && (kind in {Role, RoleBinding, ClusterRole, ClusterRoleBinding} || o.key.namespace == home)
  }

  /** Nothing of this kind that a pass answers for can still run or grant access. */
  ghost predicate NoneLive(w: World, kind: Kind, scope: Uid, home: string) {
    forall k :: k in w.objs && Reached(w.objs[k], kind, home) ==> !Live(w.objs[k], scope)
  }

  /** ... at some instant between a and b. */
  ghost predicate ClearSince(a: History, b: History, kind: Kind, scope: Uid, home: string) {
    exists i :: |a.past| <= i < |b.past| && NoneLive(b.past[i], kind, scope, home)
  }

  lemma ClearFromListing(a: History, b: History, l: Listing, kind: Kind, scope: Uid, home: string)
    requires l.Items? && Obtained(a, b, l, kind, Within(kind, home), Some(scope))
    requires forall o :: o in l.items ==> !Live(o, scope)
    ensures ClearSince(a, b, kind, scope, home)
  {
    var i :| |a.past| <= i < |b.past| && Lists(b.past[i], l.items, kind, Within(kind, home), Some(scope));
    assert NoneLive(b.past[i], kind, scope, home);
  }

  /** An object the second inventory has nothing to say about. */
  predicate Settled(o: Obj, scope: Uid, home: string) {
    match Classify(o, scope, home)
    case Foreign => true
    case Invalid => false
    case Valid(_) => o.key.kind == Pod && IsOver(o)
  }

  /** One the second inventory would list. */
  predicate Answerable(o: Obj, scope: Uid, home: string) {
    Selected(o, o.key.kind, Within(o.key.kind, home), Some(scope))
  }

  ghost predicate AllSettled(w: World, scope: Uid, home: string) {
    forall k :: k in w.objs && Answerable(w.objs[k], scope, home) ==> Settled(w.objs[k], scope, home)
  }

  lemma ListedIsSettled(a: History, b: History, l: Listing, kind: Kind, scope: Uid, home: string)
    requires l.Items? && Obtained(a, b, l, kind, Within(kind, home), Some(scope)) && OnlyRead(a, b) && a.quiet
    requires AllSettled(a.world, scope, home)
    ensures forall o :: o in l.items ==> Settled(o, scope, home)
  {
    hide Settled;
    ObtainedIsCurrent(a, b, l, kind, Within(kind, home), Some(scope));
  }

  method Judge(report: Report, items: seq<Obj>, scope: Uid, home: string)
    requires report.Valid()
    modifies report
    ensures report.Valid() && (report.Clean() ==> old(report.Clean()) && forall o :: o in items ==> !Live(o, scope))
    ensures (forall o :: o in items ==> Settled(o, scope, home)) ==> report.Untouched()
    ensures report.errors == [] ==> old(report.errors) == []
    ensures (forall o :: o in items ==> !Classify(o, scope, home).Invalid?) ==> report.errors == old(report.errors)
  {
    for i := 0 to |items|
      invariant report.Valid()
      invariant report.Clean() ==> old(report.Clean()) && forall j :: 0 <= j < i ==> !Live(items[j], scope)
      invariant (forall o :: o in items ==> Settled(o, scope, home)) ==> report.Untouched()
      invariant report.errors == [] ==> old(report.errors) == []
      invariant (forall o :: o in items ==> !Classify(o, scope, home).Invalid?) ==> report.errors == old(report.errors)
    {
      hide Classify, Live, Finished;
      var o := items[i];
      assert o in items;
      ClassifiedIsJudged(o, scope, home);
      match Classify(o, scope, home)
      case Foreign =>
      case Invalid => report.RecordUnverified(InvalidIdentity, o.key);
      case Valid(_) =>
        if o.key.kind != Pod || !Finished(o) {
          report.RecordPending(Remains, o.key);
        }
    }
  }

  lemma ClassifiedIsJudged(o: Obj, scope: Uid, home: string)
    ensures Classify(o, scope, home).Foreign? ==> !Live(o, scope)
    ensures Classify(o, scope, home).Valid? && o.key.kind == Pod && Finished(o) ==> !Live(o, scope)
  {
    ManagedIsClassified(o, scope, home);
  }

  // ---------------------------------------------------------------------------
  // Taking an inventory
  // ---------------------------------------------------------------------------

  const KINDS: seq<Kind> :=
    [Pod, Claim, Sandbox, WarmPool, ServiceAccount, Role, RoleBinding, ClusterRole, ClusterRoleBinding, Secret]

  lemma KindsAreAll(kind: Kind)
    ensures kind in KINDS
  {
    assert KINDS[0] == Pod && KINDS[1] == Claim && KINDS[2] == Sandbox && KINDS[3] == WarmPool && KINDS[4] == ServiceAccount;
    assert KINDS[5] == Role && KINDS[6] == RoleBinding && KINDS[7] == ClusterRole && KINDS[8] == ClusterRoleBinding;
    assert KINDS[9] == Secret;
  }

  /** The first inventory lists Pods, claims and Sandboxes whole; everything else, and all of
      the second inventory, is listed by run label. */
  function Selector(kind: Kind, first: bool, scope: Uid): Option<Uid> {
    if first && kind in {Pod, Claim, Sandbox} then None else Some(scope)
  }

  type Inventory = map<Kind, Listing>

  ghost predicate KindTaken(a: History, b: History, l: Listing, kind: Kind, first: bool, scope: Uid, home: string) {
    Obtained(a, b, l, kind, Within(kind, home), Selector(kind, first, scope))
  }

  ghost predicate Taken(a: History, b: History, inv: Inventory, first: bool, scope: Uid, home: string) {
    OnlyRead(a, b) && forall kind :: kind in inv ==> KindTaken(a, b, inv[kind], kind, first, scope, home)
  }

  lemma TakenStays(a: History, b: History, c: History, inv: Inventory, first: bool, scope: Uid, home: string)
    requires Taken(a, b, inv, first, scope, home) && OnlyRead(b, c)
    ensures Taken(a, c, inv, first, scope, home)
  {
    hide Obtained;
    OnlyReadTransitive(a, b, c);
    forall kind | kind in inv
      ensures KindTaken(a, c, inv[kind], kind, first, scope, home)
    {
      assert KindTaken(a, b, inv[kind], kind, first, scope, home);
      ObtainedStays(a, b, c, inv[kind], kind, Within(kind, home), Selector(kind, first, scope));
    }
  }

  ghost predicate AllAnswered(inv: Inventory, w: World) {
    forall kind :: kind in inv ==> Answered(inv[kind], kind, w)
  }

  /** Adds one more kind to an inventory being taken since a. */
  method ListNext(store: ObjectStore, report: Report, listed: Inventory, kind: Kind, ghost a: History, first: bool, scope: Uid,
                  home: string)
    returns (inv: Inventory)
    requires store.Valid() && report.Valid() && Taken(a, store.Now(), listed, first, scope, home)
    modifies store, report
    ensures store.Valid() && Taken(a, store.Now(), inv, first, scope, home)
    ensures kind in inv && inv == listed[kind := inv[kind]]
    ensures report.Valid() && (report.Clean() ==> old(report.Clean()) && (inv[kind].Items? || kind in OPTIONAL_KINDS))
    ensures report.Untouched()
    ensures Steady(old(store.Now())) ==> Answered(inv[kind], kind, old(store.world))
    ensures Steady(old(store.Now())) && (inv[kind].Items? || kind in OPTIONAL_KINDS) ==> report.errors == old(report.errors)
    ensures OnlyRead(old(store.Now()), store.Now())
  {
    hide Obtained, KindTaken, OnlyRead, Report.Clean, Within, Selector;
    ghost var h := store.Now();
    TakenReads(a, h, listed, first, scope, home);
    var l := ListOnce(store, kind, Within(kind, home), Selector(kind, first, scope));
    ObtainedEarlier(a, h, store.Now(), l, kind, Within(kind, home), Selector(kind, first, scope));
    IsTaken(a, store.Now(), l, kind, first, scope, home);
    TakenStays(a, h, store.Now(), listed, first, scope, home);
    if !l.Items? && kind !in OPTIONAL_KINDS {
      report.RecordUnverified(InventoryUnavailable, Key(kind, "", ""));
    }
    inv := listed[kind := l];
  }

  lemma TakenReads(a: History, b: History, inv: Inventory, first: bool, scope: Uid, home: string)
    requires Taken(a, b, inv, first, scope, home)
    ensures OnlyRead(a, b)
  {
  }

  lemma NothingTaken(a: History, first: bool, scope: Uid, home: string)
    ensures Taken(a, a, map[], first, scope, home)
  {
  }

  ghost function KindsOf(kinds: seq<Kind>): set<Kind> {
    set kind | kind in kinds
  }

  lemma KindsSoFar(i: nat)
    requires i < |KINDS|
    ensures KindsOf(KINDS[..i + 1]) == KindsOf(KINDS[..i]) + {KINDS[i]}
    ensures i >= 4 ==> KINDS[i] !in OPTIONAL_KINDS
  {
    assert KINDS[..i + 1] == KINDS[..i] + [KINDS[i]];
  }

  lemma FirstKinds()
    ensures OPTIONAL_KINDS <= KindsOf(KINDS[..4])
  {
    assert KINDS[..4][1] == Claim && KINDS[..4][2] == Sandbox && KINDS[..4][3] == WarmPool;
  }

  /** After i kinds: everything listed, but for optional types found missing while there are still
      optional ones to come. */
  ghost predicate ListedSoFar(inv: Inventory, w: World, i: nat) {
    AllAnswered(inv, w) && forall kind :: kind in inv ==> inv[kind].Items? || (kind in OPTIONAL_KINDS && i <= 4)
  }

  lemma ListedSoFarIsAnswered(inv: Inventory, w: World, i: nat)
    ensures ListedSoFar(inv, w, i) ==> AllAnswered(inv, w)
  {
  }

  lemma NothingListedYet(w: World)
    ensures ListedSoFar(map[], w, 0)
  {
  }

  lemma SettledIsListed(before: Inventory, inv: Inventory, w: World)
    requires inv.Keys == before.Keys && forall kind :: kind in before && kind !in OPTIONAL_KINDS ==> inv[kind] == before[kind]
    ensures ListedSoFar(before, w, 4) && OPTIONAL_KINDS <= inv.Keys && (forall kind :: kind in OPTIONAL_KINDS ==> inv[kind].Items?) ==>
              ListedSoFar(inv, w, 5)
  {
  }

  lemma AllListed(inv: Inventory, w: World)
    ensures ListedSoFar(inv, w, |KINDS|) ==> forall kind :: kind in inv ==> inv[kind].Items?
  {
  }

  lemma ListedOneMore(before: Inventory, inv: Inventory, w: World, i: nat)
    requires i < |KINDS| && KINDS[i] in inv && inv == before[KINDS[i] := inv[KINDS[i]]]
    requires ListedSoFar(before, w, if i == 4 then 5 else i) && Answered(inv[KINDS[i]], KINDS[i], w)
    ensures ListedSoFar(inv, w, i + 1)
  {
    assert KINDS[0] == Pod && KINDS[1] == Claim && KINDS[2] == Sandbox && KINDS[3] == WarmPool && KINDS[4] == ServiceAccount;
  }

  lemma ServedIsQuiet(h: History, bareMode: bool)
    requires Served(h, bareMode)
    ensures h.quiet
  {
  }

  lemma ServedIsSteady(h: History, bareMode: bool)
    ensures Served(h, bareMode) ==> Steady(h)
  {
  }

  /** Settles the optional kinds, once all of them have been listed. */
  method SettleListed(store: ObjectStore, report: Report, listed: Inventory, bareMode: bool, ghost h0: History,
                      ghost first: bool, ghost scope: Uid, ghost home: string)
    returns (inv: Inventory)
    requires store.Valid() && report.Valid() && Taken(h0, store.Now(), listed, first, scope, home)
    requires OnlyRead(h0, store.Now()) && listed.Keys == KindsOf(KINDS[..4])
    modifies store, report
    ensures store.Valid() && Taken(h0, store.Now(), inv, first, scope, home) && OnlyRead(h0, store.Now()) && inv.Keys == listed.Keys
    ensures report.Valid() && (report.Clean() ==> old(report.Clean())) && report.Untouched()
    ensures report.Clean() && (forall kind :: kind in listed ==> listed[kind].Items? || kind in OPTIONAL_KINDS) ==>
              forall kind :: kind in inv ==> inv[kind].Items?
    ensures Served(h0, bareMode) && ListedSoFar(listed, h0.world, 4) ==>
              report.errors == old(report.errors) && ListedSoFar(inv, h0.world, 5)
  {
    hide Taken, Report.Clean, Sound, SingleController, OnlyRead, Served, Answered, AllAnswered, ListedSoFar;
    FirstKinds();
    ListedSoFarIsAnswered(listed, h0.world, 4);
    ghost var h := store.Now();
    if Served(h0, bareMode) {
      StaysServed(h0, h, bareMode);
    }
    inv := SettleOptional(store, report, listed, bareMode, h0, first, scope, home);
    OnlyReadTransitive(h0, h, store.Now());
    SettledIsListed(listed, inv, h0.world);
  }

  /** Lists every kind in order. The absence of the optional ones is settled after the last of
      them has been listed; any other gap is reported. */
  method TakeInventory(store: ObjectStore, report: Report, first: bool, scope: Uid, home: string, bareMode: bool)
    returns (inv: Inventory)
    requires store.Valid() && report.Valid()
    modifies store, report
    ensures store.Valid() && Taken(old(store.Now()), store.Now(), inv, first, scope, home)
    ensures inv.Keys == KindsOf(KINDS)
    ensures report.Valid() && (report.Clean() ==> old(report.Clean()) && forall kind :: kind in inv ==> inv[kind].Items?)
    ensures report.Untouched()
    ensures Served(old(store.Now()), bareMode) ==> report.errors == old(report.errors) && forall kind :: kind in inv ==> inv[kind].Items?
  {
    hide Taken, Report.Clean, Sound, SingleController, OnlyRead, Served, Answered, AllAnswered, ListedSoFar;
    ghost var h0 := store.Now();
    NothingTaken(h0, first, scope, home);
    OnlyReadReflexive(h0);
    inv := map[];
    NothingListedYet(h0.world);
    for i := 0 to |KINDS|
      invariant store.Valid() && Taken(h0, store.Now(), inv, first, scope, home) && report.Valid()
      invariant inv.Keys == KindsOf(KINDS[..i])
      invariant report.Clean() ==>
        old(report.Clean()) && forall kind :: kind in inv ==> inv[kind].Items? || (kind in OPTIONAL_KINDS && i <= 4)
      invariant report.Untouched() && OnlyRead(h0, store.Now())
      invariant Served(h0, bareMode) ==> report.errors == old(report.errors) && ListedSoFar(inv, h0.world, i)
    {
      if i == 4 {
        inv := SettleListed(store, report, inv, bareMode, h0, first, scope, home);
      }
      if Served(h0, bareMode) {
        StaysServed(h0, store.Now(), bareMode);
      }
      ghost var h, before := store.Now(), inv;
      ServedIsSteady(h, bareMode);
      inv := ListNext(store, report, inv, KINDS[i], h0, first, scope, home);
      OnlyReadTransitive(h0, h, store.Now());
      KindsSoFar(i);
      if Served(h0, bareMode) {
        ListedOneMore(before, inv, h0.world, i);
      }
    }
    assert KINDS[..|KINDS|] == KINDS;
    AllListed(inv, h0.world);
  }

  lemma IsTaken(a: History, b: History, l: Listing, kind: Kind, first: bool, scope: Uid, home: string)
    requires Obtained(a, b, l, kind, Within(kind, home), Selector(kind, first, scope))
    ensures KindTaken(a, b, l, kind, first, scope, home)
  {
  }

  lemma TakenKind(a: History, b: History, inv: Inventory, first: bool, scope: Uid, home: string, kind: Kind)
    requires Taken(a, b, inv, first, scope, home) && kind in inv
    ensures OnlyRead(a, b) && Obtained(a, b, inv[kind], kind, Within(kind, home), Selector(kind, first, scope))
  {
    hide Obtained;
    assert KindTaken(a, b, inv[kind], kind, first, scope, home);
  }

  lemma SettledStays(a: History, b: History, inv: Inventory, l: Listing, kind: Kind, first: bool, scope: Uid, home: string)
    requires Taken(a, b, inv, first, scope, home) && Obtained(a, b, l, kind, Within(kind, home), Selector(kind, first, scope))
    ensures Taken(a, b, inv[kind := l], first, scope, home)
  {
    hide Obtained;
    IsTaken(a, b, l, kind, first, scope, home);
  }

  method SettleKind(store: ObjectStore, report: Report, listed: Inventory, kind: Kind, bareMode: bool,
                    ghost a: History, ghost first: bool, ghost scope: Uid, ghost home: string)
    returns (inv: Inventory)
    requires store.Valid() && report.Valid() && Taken(a, store.Now(), listed, first, scope, home)
    requires kind in listed && kind in OPTIONAL_KINDS
    modifies store, report
    ensures store.Valid() && Taken(a, store.Now(), inv, first, scope, home)
    ensures kind in inv && inv == listed[kind := inv[kind]]
    ensures report.Valid() && (report.Clean() ==> old(report.Clean()) && inv[kind].Items?)
    ensures report.Untouched()
    ensures Served(old(store.Now()), bareMode) && Answered(listed[kind], kind, old(store.world)) ==>
              report.errors == old(report.errors) && inv[kind].Items?
    ensures OnlyRead(old(store.Now()), store.Now())
  {
    hide Taken, KindTaken, Obtained, Report.Clean, Sound, SingleController, Within, Selector;
    ghost var h := store.Now();
    TakenKind(a, h, listed, first, scope, home, kind);
    var l := Settle(store, report, listed[kind], kind, bareMode, a, Within(kind, home), Selector(kind, first, scope));
    TakenStays(a, h, store.Now(), listed, first, scope, home);
    SettledStays(a, store.Now(), listed, l, kind, first, scope, home);
    inv := listed[kind := l];
  }

  method SettleOptional(store: ObjectStore, report: Report, listed: Inventory, bareMode: bool,
                        ghost a: History, ghost first: bool, ghost scope: Uid, ghost home: string)
    returns (inv: Inventory)
    requires store.Valid() && report.Valid() && Taken(a, store.Now(), listed, first, scope, home) && OPTIONAL_KINDS <= listed.Keys
    modifies store, report
    ensures store.Valid() && Taken(a, store.Now(), inv, first, scope, home) && inv.Keys == listed.Keys
    ensures report.Valid() && (report.Clean() ==> old(report.Clean()) && forall kind :: kind in OPTIONAL_KINDS ==> inv[kind].Items?)
    ensures forall kind :: kind in listed && kind !in OPTIONAL_KINDS ==> inv[kind] == listed[kind]
    ensures report.Untouched()
    ensures Served(old(store.Now()), bareMode) && AllAnswered(listed, old(store.world)) ==>
              report.errors == old(report.errors) && forall kind :: kind in OPTIONAL_KINDS ==> inv[kind].Items?
    ensures OnlyRead(old(store.Now()), store.Now())
  {
    hide Taken, Report.Clean, Sound, SingleController, OnlyRead, Served, Answered;
    ghost var h0 := store.Now();
    inv := SettleKind(store, report, listed, Claim, bareMode, a, first, scope, home);
    ghost var h1 := store.Now();
    inv := SettleKind(store, report, inv, Sandbox, bareMode, a, first, scope, home);
    ghost var h2 := store.Now();
    OnlyReadTransitive(h0, h1, h2);
    if Served(h0, bareMode) {
      StaysServed(h0, h1, bareMode);
      StaysServed(h1, h2, bareMode);
    }
    inv := SettleKind(store, report, inv, WarmPool, bareMode, a, first, scope, home);
    OnlyReadTransitive(h0, h2, store.Now());
  }

  /** Everything an inventory lists. */
  function ItemsIn(inv: Inventory): set<Obj> {
    set kind, o | kind in inv && inv[kind].Items? && o in inv[kind].items :: o
  }

  /** Of this kind, the inventory shows exactly what was stored in scope at some instant between
      a and b. */
  ghost predicate Shows(a: History, b: History, inventory: set<Obj>, kind: Kind, scope: Uid, home: string) {
    exists i :: |a.past| <= i < |b.past| && ShowsAll(b.past[i], inventory, kind, scope, home)
  }

  ghost predicate ShowsAll(w: World, inventory: set<Obj>, kind: Kind, scope: Uid, home: string) {
    && (forall o :: o in inventory && o.key.kind == kind ==>
          o.key in w.objs && w.objs[o.key] == o && InCharge(o, kind, scope, home))
    && (forall k :: k in w.objs && InCharge(w.objs[k], kind, scope, home) ==> w.objs[k] in inventory)
  }

  /** Where a pass looks, and labelled for a run in scope. */
  predicate InCharge(o: Obj, kind: Kind, scope: Uid, home: string) {
    Reached(o, kind, home) && o.run != "" && (scope == "" || o.run == scope)
  }

  lemma SelectedIsInCharge(kind: Kind, scope: Uid, home: string)
    ensures forall o: Obj :: InCharge(o, kind, scope, home) <==> Selected(o, kind, Within(kind, home), Some(scope))
  {
  }

  lemma TakenShows(a: History, b: History, inv: Inventory, kind: Kind, scope: Uid, home: string)
    requires Taken(a, b, inv, false, scope, home) && kind in inv && forall k :: k in inv ==> inv[k].Items?
    ensures Shows(a, b, ItemsIn(inv), kind, scope, home)
  {
    hide OnlyRead, Within, WellListed, Selected, InCharge;
    SelectedIsInCharge(kind, scope, home);
    forall k, o | k in inv && o in inv[k].items
      ensures o.key.kind == k
    {
      assert KindTaken(a, b, inv[k], k, false, scope, home);
    }
    assert KindTaken(a, b, inv[kind], kind, false, scope, home);
    var i :| |a.past| <= i < |b.past| && Lists(b.past[i], inv[kind].items, kind, Within(kind, home), Some(scope));
    assert ShowsAll(b.past[i], ItemsIn(inv), kind, scope, home);
  }

  /** Whatever a pass answers for carries an identity the classifiers accept. */
  ghost predicate NoneInvalid(w: World, scope: Uid, home: string) {
    forall k :: k in w.objs && Answerable(w.objs[k], scope, home) ==> !Classify(w.objs[k], scope, home).Invalid?
  }

  lemma ListedIsValid(a: History, b: History, l: Listing, kind: Kind, scope: Uid, home: string)
    requires l.Items? && Obtained(a, b, l, kind, Within(kind, home), Some(scope)) && OnlyRead(a, b) && a.quiet
    requires NoneInvalid(a.world, scope, home)
    ensures forall o :: o in l.items ==> !Classify(o, scope, home).Invalid?
  {
    hide Classify;
    ObtainedIsCurrent(a, b, l, kind, Within(kind, home), Some(scope));
  }

  /** The second inventory: whatever it still shows and cannot be read as finished keeps the
      pass from being confirmed. */
  method ConfirmInventory(store: ObjectStore, report: Report, scope: Uid, home: string, bareMode: bool)
    returns (inventory: set<Obj>)
    requires store.Valid() && report.Valid()
    modifies store, report
    ensures store.Valid() && OnlyRead(old(store.Now()), store.Now())
    ensures report.Valid()
    ensures report.Clean() ==>
              old(report.Clean()) && (forall o :: o in inventory ==> !Live(o, scope)) &&
              forall kind :: ClearSince(old(store.Now()), store.Now(), kind, scope, home) &&
                             Shows(old(store.Now()), store.Now(), inventory, kind, scope, home)
    ensures old(store.Now().quiet) && AllSettled(old(store.world), scope, home) ==> report.Untouched()
    ensures report.errors == [] ==> old(report.errors) == []
    ensures Served(old(store.Now()), bareMode) && NoneInvalid(old(store.world), scope, home) ==> report.errors == old(report.errors)
  {
    hide Live, OnlyRead, Obtained, ClearSince, Report.Clean, Settled, AllSettled, Taken, Shows, ItemsIn, Served, NoneInvalid, Classify;
    ghost var h0 := store.Now();
    var inv := TakeInventory(store, report, false, scope, home, bareMode);
    ghost var h := store.Now();
    TakenReads(h0, h, inv, false, scope, home);
    for i := 0 to |KINDS|
      invariant report.Valid() && store.Now() == h && store.Valid()
      invariant report.Clean() ==> old(report.Clean()) && forall kind :: kind in inv ==> inv[kind].Items?
      invariant report.Clean() ==> forall kind :: kind in KINDS[..i] ==> NoneListedLive(inv, kind, scope)
      invariant h0.quiet && AllSettled(h0.world, scope, home) ==> report.Untouched()
      invariant report.errors == [] ==> old(report.errors) == []
      invariant Served(h0, bareMode) && NoneInvalid(h0.world, scope, home) ==> report.errors == old(report.errors)
    {
      assert KINDS[..i + 1] == KINDS[..i] + [KINDS[i]];
      var l := inv[KINDS[i]];
      if l.Items? {
        if h0.quiet && AllSettled(h0.world, scope, home) {
          TakenKind(h0, h, inv, false, scope, home, KINDS[i]);
          ListedIsSettled(h0, h, l, KINDS[i], scope, home);
        }
        if Served(h0, bareMode) && NoneInvalid(h0.world, scope, home) {
          ServedIsQuiet(h0, bareMode);
          TakenKind(h0, h, inv, false, scope, home, KINDS[i]);
          ListedIsValid(h0, h, l, KINDS[i], scope, home);
        }
        Judge(report, l.items, scope, home);
      }
    }
    inventory := ItemsIn(inv);
    if report.Clean() {
      forall kind: Kind
        ensures NoneListedLive(inv, kind, scope)
        ensures ClearSince(h0, h, kind, scope, home) && Shows(h0, h, inventory, kind, scope, home)
      {
        KindsAreAll(kind);
        assert kind in KINDS[..|KINDS|];
        TakenKind(h0, h, inv, false, scope, home, kind);
        ClearFromListing(h0, h, inv[kind], kind, scope, home);
        TakenShows(h0, h, inv, kind, scope, home);
      }
      NoneLiveAtAll(inv, scope);
    }
  }

  ghost predicate NoneListedLive(inv: Inventory, kind: Kind, scope: Uid) {
    kind in inv && inv[kind].Items? && forall o :: o in inv[kind].items ==> !Live(o, scope)
  }

  lemma NoneLiveAtAll(inv: Inventory, scope: Uid)
    requires forall kind :: NoneListedLive(inv, kind, scope)
    ensures forall o :: o in ItemsIn(inv) ==> !Live(o, scope)
  {
    hide Live;
    forall o | o in ItemsIn(inv)
      ensures !Live(o, scope)
    {
      var kind :| kind in inv && inv[kind].Items? && o in inv[kind].items;
      assert NoneListedLive(inv, kind, scope);
    }
  }
}
