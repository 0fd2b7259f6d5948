/** The removals of one suspension pass: Sandboxes with their Pods, everything recognised by
    label and name, and the claims last. */
module CleanupWork {
  import opened Conditions
  import opened Configs
  import opened Objects
  import opened ObjectStores
  import opened Ownership
  import opened Reports
  import opened CleanupRequests

  // ---------------------------------------------------------------------------
  // Sandboxes
  // ---------------------------------------------------------------------------

  predicate Ready(w: SandboxWork) {
    !w.blocked && w.identitySaved && w.podSafe
  }

  lemma SameBackingPod(w0: World, w: World, target: Obj, home: string)
    requires Shrunk(w0, w) && target.key in w0.objs && w0.objs[target.key] == target && target.key in w.objs
    ensures BackingPod(w.objs[target.key], home) == BackingPod(target, home)
  {
    assert Labelled(target, w.objs[target.key]);
  }

  lemma KeyUntouched(a: World, b: World, key: Key, other: Key)
    requires SameExcept(a, b, other) && key != other
    ensures key in b.objs <==> key in a.objs
    ensures key in a.objs ==> b.objs[key] == a.objs[key]
  {
  }

  lemma LabelsKept(a: World, b: World, key: Key, run: string, step: string)
    requires Shrunk(a, b) && run != "" && step != ""
    requires key in a.objs && a.objs[key].run == run && a.objs[key].step == step
    ensures key in b.objs ==> b.objs[key].run == run && b.objs[key].step == step
  {
  }

  ghost function Handled(pod: Option<Key>): set<Key> {
    if pod.Some? then {pod.value} else {}
  }

  /** The Pod handled with a Sandbox is done. */
  ghost predicate DoneAs(handled: Option<Key>, w: World) {
    handled.Some? && handled.value.kind == Pod && PodDone(w, handled.value)
  }

  lemma SameTouches(a: World, b: World, key: Key)
    requires SameExcept(a, b, key)
    ensures Touched(a, b, {key})
  {
  }

  /** Saves a Sandbox's identity, removes its Pod, then the Sandbox; one whose finished Pod is
      kept is removed without its dependents. Blocks whatever could not be made safe. */
  method SecureSandbox(store: ObjectStore, report: Report, work: SandboxWork, home: string, scope: Uid,
                       ghost frozen: bool, ghost w0: World)
    returns (after: SandboxWork, handled: Option<Key>)
    requires store.Valid() && report.Valid() && InScope(work.run, scope) && StepAllowed(work.step)
    requires !work.blocked && work.target.key.kind == Sandbox
    requires frozen ==>
               store.Now().quiet && Shrunk(w0, store.world) &&
               work.target.key in w0.objs && w0.objs[work.target.key] == work.target
    modifies store, report
    ensures store.Valid() && Worked(old(store.Now()), store.Now(), work.target.key, Handled(handled), scope)
    ensures report.Valid() && (report.Clean() ==> old(report.Clean()) && Ready(after))
    ensures SameIdentity(work, after) && after.claim == work.claim
    ensures after.blocked ==> !report.Clean()
    ensures frozen && Ready(after) ==> Secured(store.world, work.target, work.run, work.step, home)
    ensures Free(old(store.Now())) ==> report.Untouched()
    ensures frozen && report.Clean() ==> Removed(store.world, work.target.key) && DoneAs(handled, store.world)
  {
    hide Sound, SingleController, Shrunk, InScope, StepAllowed, Labelled, PodSettled, Isolated, SameExcept, Report.Clean, Touched, PodDone,
      Removed, Free, Advanced, Secured, Worked, WasStored, StoredAt, IsOver;
    ghost var h0 := store.Now();
    after, handled := work, None;
    var saved := PatchRunIdentity(store, work.target, work.run, work.step, scope);
    ghost var h1 := store.Now();
    WorkedOnce(h0, h1, work.target.key, scope);
    if saved.None? {
      after := after.(blocked := true);
      report.RecordUnverified(IdentityNotPersisted, work.target.key);
      return;
    }
    after := after.(identitySaved := true);
    var sandbox := saved.value;
    var pod := BackingPod(sandbox, home);
    handled := Some(pod);
    WorkedIsFree(h0, h1, work.target.key, {}, scope);
    var safe, completed := DeletePod(store, report, pod, work.run, work.step, Some(sandbox), scope);
    ghost var h2 := store.Now();
    WorkedPod(h0, h1, h2, work.target.key, pod, scope);
    after := after.(podSafe := safe, podCompleted := completed);
    if !safe {
      after := after.(blocked := true);
      return;
    }
    IsolatedAdvances(h1, h2, scope);
    var ok := DeleteObject(store, report, sandbox, scope);
    ghost var h3 := store.Now();
    WorkedDelete(h0, h2, h3, work.target.key, {pod}, scope);
    if completed && !ok {
      after := after.(blocked := true);
    }
    if frozen {
      WorkedIsFree(h0, h2, work.target.key, {pod}, scope);
      ScopedIsNamed(work.run, scope);
      SecuredInOrder(h0, h1, h2, h3, w0, work, sandbox, home, scope);
      DoneInOrder(h2, h3, pod, scope);
    }
  }

  /** What dealing with one Sandbox may do: it touches that Sandbox and its Pod only, and no
      claim is removed. */
  ghost predicate Worked(a: History, b: History, key: Key, pods: set<Key>, scope: Uid) {
    Isolated(a, b, scope) && (Free(a) ==> Free(b)) &&
    (a.quiet ==> b.quiet && Shrunk(a.world, b.world) && ClaimsKept(a.world, b.world) && Touched(a.world, b.world, {key} + pods))
  }

  lemma WorkedIsFree(a: History, b: History, key: Key, pods: set<Key>, scope: Uid)
    requires Worked(a, b, key, pods, scope)
    ensures (Free(a) ==> Free(b)) && (a.quiet ==> b.quiet) && Advanced(a, b) && Isolated(a, b, scope)
  {
    IsolatedAdvances(a, b, scope);
  }

  lemma WorkedNothing(h: History, key: Key, scope: Uid)
    ensures Worked(h, h, key, {}, scope)
  {
    KeptReflexive(h, scope);
  }

  lemma WorkedOnce(a: History, b: History, key: Key, scope: Uid)
    requires Isolated(a, b, scope) && key.kind != Claim && (a.quiet ==> SameExcept(a.world, b.world, key))
    ensures Worked(a, b, key, {}, scope)
  {
    FreeThrough(a, b, scope);
    OtherKeepsClaims(a, b, key);
    if a.quiet {
      AdvancedQuiet(a, b, scope);
      SameTouches(a.world, b.world, key);
    }
  }

  lemma WorkedPod(a: History, b: History, c: History, key: Key, pod: Key, scope: Uid)
    requires Worked(a, b, key, {}, scope) && Isolated(b, c, scope) && pod.kind == Pod
    requires b.quiet ==> SameExcept(b.world, c.world, pod)
    ensures Worked(a, c, key, {pod}, scope)
  {
    hide Isolated;
    FreeThrough(b, c, scope);
    IsolatedTransitive(a, b, c, scope);
    if a.quiet {
      AdvancedQuiet(b, c, scope);
      SameTouches(b.world, c.world, pod);
      TouchedTransitive(a.world, b.world, c.world, {key} + {}, {pod});
      assert {key} + {} + {pod} == {key} + {pod};
      ShrunkTransitive(a.world, b.world, c.world);
      OtherKeepsClaims(b, c, pod);
    }
  }

  lemma WorkedDelete(a: History, b: History, c: History, key: Key, pods: set<Key>, scope: Uid)
    requires Worked(a, b, key, pods, scope) && Isolated(b, c, scope) && key.kind != Claim
    requires b.quiet ==> SameExcept(b.world, c.world, key) && Touched(b.world, c.world, {})
    ensures Worked(a, c, key, pods, scope)
  {
    hide Isolated;
    FreeThrough(b, c, scope);
    IsolatedTransitive(a, b, c, scope);
    if a.quiet {
      AdvancedQuiet(b, c, scope);
      TouchedTransitive(a.world, b.world, c.world, {key} + pods, {});
      assert {key} + pods + {} == {key} + pods;
      ShrunkTransitive(a.world, b.world, c.world);
      OtherKeepsClaims(b, c, key);
    }
  }

  lemma DoneInOrder(a: History, b: History, pod: Key, scope: Uid)
    requires Isolated(a, b, scope) && a.quiet && PodDone(a.world, pod)
    ensures PodDone(b.world, pod)
  {
    AdvancedQuiet(a, b, scope);
    PodStaysDone(a.world, b.world, pod);
  }

  lemma AdvancedQuiet(a: History, b: History, scope: Uid)
    requires Isolated(a, b, scope) && a.quiet
    ensures b.quiet && Shrunk(a.world, b.world)
  {
  }

  lemma FreeThrough(a: History, b: History, scope: Uid)
    requires Isolated(a, b, scope)
    ensures Free(a) ==> Free(b)
    ensures a.quiet ==> Shrunk(a.world, b.world)
  {
    IsolatedAdvances(a, b, scope);
    if Free(a) {
      StaysFree(a, b);
    }
  }

  lemma OtherKeepsClaims(a: History, b: History, key: Key)
    requires key.kind != Claim && (a.quiet ==> SameExcept(a.world, b.world, key))
    ensures a.quiet ==> ClaimsKept(a.world, b.world)
  {
  }

  /** In a quiet environment: identity saved, then Pod settled, then Sandbox deleted. */
  lemma SecuredInOrder(h0: History, h1: History, h2: History, h3: History, w0: World, work: SandboxWork, sandbox: Obj, home: string,
                       scope: Uid)
    requires Advanced(h0, h1) && Advanced(h1, h2) && Isolated(h2, h3, scope) && h0.quiet && Shrunk(w0, h0.world)
    requires work.target.key in w0.objs && w0.objs[work.target.key] == work.target && work.target.key.kind == Sandbox
    requires work.run != "" && StepAllowed(work.step)
    requires work.target.key in h1.world.objs && h1.world.objs[work.target.key] == sandbox
    requires sandbox.run == work.run && sandbox.step == work.step
    requires SameExcept(h1.world, h2.world, BackingPod(sandbox, home)) && PodSettled(h2.world, BackingPod(sandbox, home))
    ensures Secured(h3.world, work.target, work.run, work.step, home)
  {
    var key := work.target.key;
    ShrunkTransitive(w0, h0.world, h1.world);
    SameBackingPod(w0, h1.world, work.target, home);
    KeyUntouched(h1.world, h2.world, key, BackingPod(sandbox, home));
    LabelsKept(h2.world, h3.world, key, work.run, work.step);
    PodStaysSettled(h2.world, h3.world, BackingPod(sandbox, home));
  }

  method ProcessSandbox(graph: Graph, store: ObjectStore, report: Report, key: Key, home: string, scope: Uid,
                        ghost inventory: set<Obj>, ghost frozen: bool, ghost w0: World)
    returns (handled: Option<Key>)
    requires graph.plan.Valid(scope, inventory) && key in graph.plan.sandboxes
    requires store.Valid() && report.Valid() && (report.Clean() ==> graph.plan.Unblocked())
    requires frozen ==> store.Now().quiet && Rooted(graph.plan, w0, store.world)
    modifies graph, store, report
    ensures graph.plan.Valid(scope, inventory) && Grown(old(graph.plan), graph.plan)
    ensures graph.plan.sandboxes.Keys == old(graph.plan).sandboxes.Keys
    ensures forall k :: k in graph.plan.sandboxes && k != key ==> graph.plan.sandboxes[k] == old(graph.plan).sandboxes[k]
    ensures store.Valid() && Worked(old(store.Now()), store.Now(), key, Handled(handled), scope)
    ensures report.Valid()
    ensures report.Clean() ==> old(report.Clean()) && graph.plan.Unblocked() && Ready(graph.plan.sandboxes[key])
    ensures frozen && Ready(graph.plan.sandboxes[key]) ==>
              WorkSecured(store.world, graph.plan.sandboxes[key], home)
    ensures Free(old(store.Now())) ==> report.Untouched()
    ensures frozen && report.Clean() ==> Removed(store.world, key) && DoneAs(handled, store.world)
  {
    hide Sound, SingleController, Shrunk, StepAllowed, InScope, Grown, Isolated, Plan.Valid, Secured, Report.Clean, Worked, Free, Touched, Removed, PodDone,
      Rooted, WasStored;
    handled := None;
    var work := graph.plan.sandboxes[key];
    WorkInScope(graph.plan, key, scope, inventory);
    if frozen {
      RootedAt(graph.plan, w0, store.world, key);
    }
    if !work.blocked {
      work, handled := SecureSandbox(store, report, work, home, scope, frozen, w0);
      AdvancedKeeps(graph.plan, key, work, scope, inventory);
      graph.plan := graph.plan.Advanced(key, work);
    } else {
      WorkedNothing(store.Now(), key, scope);
    }
    if work.blocked {
      BlockedKeeps(graph.plan, key, scope, inventory);
      GrownTransitive(old(graph.plan), graph.plan, graph.plan.Blocked(key));
      graph.plan := graph.plan.Blocked(key);
    }
  }

  ghost predicate WorkSecured(w: World, work: SandboxWork, home: string) {
    Secured(w, work.target, work.run, work.step, home)
  }

  lemma WorkInScope(p: Plan, key: Key, scope: Uid, inventory: set<Obj>)
    requires p.Valid(scope, inventory) && key in p.sandboxes
    ensures p.sandboxes[key].target.key == key && key.kind == Sandbox
    ensures InScope(p.sandboxes[key].run, scope) && StepAllowed(p.sandboxes[key].step)
    ensures Grown(p, p)
  {
    assert SandboxValid(key, p.sandboxes[key], scope, inventory);
  }

  lemma IsolatedReflexive(h: History, scope: Uid)
    ensures Isolated(h, h, scope)
  {
    ReadingIsIsolated(h, h, scope);
  }

  /** The Sandboxes worked on are those of w0, which has only shrunk since. */
  ghost predicate Rooted(p: Plan, w0: World, w: World) {
    Shrunk(w0, w) && forall k :: k in p.sandboxes ==> k in w0.objs && w0.objs[k] == p.sandboxes[k].target
  }

  /** Every Sandbox worked on that came out ready is secured. */
  ghost predicate AllSecured(p: Plan, left: set<Key>, w: World, home: string) {
    forall k :: k in p.sandboxes && k !in left && Ready(p.sandboxes[k]) ==> WorkSecured(w, p.sandboxes[k], home)
  }

  ghost predicate AllReady(p: Plan, left: set<Key>) {
    forall k :: k in p.sandboxes && k !in left ==> Ready(p.sandboxes[k])
  }

  lemma AllStaySecured(p: Plan, q: Plan, left: set<Key>, key: Key, a: World, b: World, home: string, scope: Uid, inventory: set<Obj>)
    requires Shrunk(a, b) && AllSecured(p, left, a, home) && q.Valid(scope, inventory)
    requires q.sandboxes.Keys == p.sandboxes.Keys
    requires forall k :: k in p.sandboxes && k != key ==> q.sandboxes[k] == p.sandboxes[k]
    requires key in q.sandboxes && Ready(q.sandboxes[key]) ==> WorkSecured(b, q.sandboxes[key], home)
    ensures AllSecured(q, left - {key}, b, home)
  {
    forall k | k in q.sandboxes && k !in left && k != key && Ready(q.sandboxes[k])
      ensures WorkSecured(b, q.sandboxes[k], home)
    {
      var work := q.sandboxes[k];
      assert WorkSecured(a, work, home);
      WorkInScope(q, k, scope, inventory);
      ScopedIsNamed(work.run, scope);
      AllowedIsNamed(work.step);
      StaysSecured(a, b, work.target, work.run, work.step, home);
    }
  }

  lemma RootedAt(p: Plan, w0: World, w: World, key: Key)
    requires Rooted(p, w0, w) && key in p.sandboxes
    ensures Shrunk(w0, w) && key in w0.objs && w0.objs[key] == p.sandboxes[key].target
  {
  }

  lemma StaysRooted(p: Plan, q: Plan, w0: World, a: World, b: World)
    requires Rooted(p, w0, a) && Shrunk(a, b) && Grown(p, q) && q.sandboxes.Keys == p.sandboxes.Keys
    ensures Rooted(q, w0, b)
  {
    ShrunkTransitive(w0, a, b);
    forall k | k in q.sandboxes
      ensures k in w0.objs && w0.objs[k] == q.sandboxes[k].target
    {
      assert SameIdentity(p.sandboxes[k], q.sandboxes[k]);
    }
  }

  ghost predicate AllRemoved(keys: set<Key>, w: World) {
    forall k :: k in keys ==> Removed(w, k)
  }

  ghost predicate AllPodsDone(pods: set<Key>, w: World) {
    forall k :: k in pods ==> k.kind == Pod && PodDone(w, k)
  }

  lemma AllStay(keys: set<Key>, pods: set<Key>, a: World, b: World)
    requires Shrunk(a, b)
    ensures AllRemoved(keys, a) ==> AllRemoved(keys, b)
    ensures AllPodsDone(pods, a) ==> AllPodsDone(pods, b)
  {
    if AllRemoved(keys, a) {
      forall k | k in keys
        ensures Removed(b, k)
      {
        StaysRemoved(a, b, k);
      }
    }
    if AllPodsDone(pods, a) {
      forall k | k in pods
        ensures PodDone(b, k)
      {
        PodStaysDone(a, b, k);
      }
    }
  }

  /** A stretch of a pass that removes no claim. */
  ghost predicate Kept(a: History, b: History, scope: Uid) {
    Isolated(a, b, scope) && (a.quiet ==> b.quiet && Shrunk(a.world, b.world) && ClaimsKept(a.world, b.world))
  }

  lemma KeptTransitive(a: History, b: History, c: History, scope: Uid)
    requires Kept(a, b, scope) && Kept(b, c, scope)
    ensures Kept(a, c, scope)
  {
    IsolatedTransitive(a, b, c, scope);
    if a.quiet {
      ShrunkTransitive(a.world, b.world, c.world);
    }
  }

  lemma KeptReflexive(h: History, scope: Uid)
    ensures Kept(h, h, scope)
  {
    IsolatedReflexive(h, scope);
    ShrunkReflexive(h.world);
  }

  lemma KeptByStep(a: History, b: History, scope: Uid, key: Key)
    requires Isolated(a, b, scope) && key.kind != Claim && (a.quiet ==> SameExcept(a.world, b.world, key))
    ensures Kept(a, b, scope)
  {
    IsolatedAdvances(a, b, scope);
    OtherKeepsClaims(a, b, key);
  }

  lemma KeptFrom(a: History, b: History, scope: Uid)
    requires Isolated(a, b, scope) && (a.quiet ==> ClaimsKept(a.world, b.world))
    ensures Kept(a, b, scope)
  {
    IsolatedAdvances(a, b, scope);
  }

  lemma OneMore(keys: set<Key>, pods: set<Key>, key: Key, pod: Option<Key>, w: World)
    ensures AllRemoved(keys, w) && Removed(w, key) ==> AllRemoved(keys + {key}, w)
    ensures AllPodsDone(pods, w) && pod.Some? && pod.value.kind == Pod && PodDone(w, pod.value) ==> AllPodsDone(pods + {pod.value}, w)
    ensures AllRemoved({}, w) && AllPodsDone({}, w)
  {
  }

  lemma OneMoreReady(p: Plan, q: Plan, left: set<Key>, key: Key)
    requires q.sandboxes.Keys == p.sandboxes.Keys && key in q.sandboxes
    requires forall k :: k in q.sandboxes && k != key ==> q.sandboxes[k] == p.sandboxes[k]
    ensures AllReady(p, left) && Ready(q.sandboxes[key]) ==> AllReady(q, left - {key})
  {
  }

  /** Where the pass over the Sandboxes stands, with left still to come. */
  ghost predicate SandboxProgress(p0: Plan, p: Plan, h0: History, h: History, left: set<Key>, handled: set<Key>, home: string,
                                  scope: Uid, inventory: set<Obj>, frozen: bool, w0: World, clean: bool)
  {
    && left <= p.sandboxes.Keys == p0.sandboxes.Keys
    && p.Valid(scope, inventory) && Grown(p0, p) && Kept(h0, h, scope)
    && (clean ==> p.Unblocked() && AllReady(p, left))
    && (frozen ==> h.quiet && Rooted(p, w0, h.world) && AllSecured(p, left, h.world, home))
    && (frozen && clean ==> AllRemoved(p.sandboxes.Keys - left, h.world) && AllPodsDone(handled, h.world))
    && (h0.quiet ==> h.quiet && Touched(h0.world, h.world, p0.sandboxes.Keys + handled))
  }

  lemma SandboxesStart(p: Plan, h: History, home: string, scope: Uid, inventory: set<Obj>, frozen: bool, w0: World, clean: bool)
    requires p.Valid(scope, inventory) && (clean ==> p.Unblocked()) && (frozen ==> h.quiet && Rooted(p, w0, h.world))
    ensures SandboxProgress(p, p, h, h, p.sandboxes.Keys, {}, home, scope, inventory, frozen, w0, clean)
  {
    hide Plan.Valid, Plan.Unblocked, Rooted, Grown, Kept;
    GrownReflexive(p);
    KeptReflexive(h, scope);
    NothingHandled(p, h.world, home);
    ObjectStores.Untouched(h.world, p.sandboxes.Keys + {});
  }

  /** What processing one Sandbox guarantees, carried over to the rest. */
  lemma SandboxStep(p0: Plan, p: Plan, q: Plan, h0: History, h: History, next: History, left: set<Key>, handled: set<Key>, key: Key,
                    pod: Option<Key>, home: string, scope: Uid, inventory: set<Obj>, frozen: bool, w0: World, clean: bool, after: bool)
    requires SandboxProgress(p0, p, h0, h, left, handled, home, scope, inventory, frozen, w0, clean) && key in left
    requires q.Valid(scope, inventory) && Grown(p, q) && q.sandboxes.Keys == p.sandboxes.Keys
    requires forall k :: k in q.sandboxes && k != key ==> q.sandboxes[k] == p.sandboxes[k]
    requires Worked(h, next, key, Handled(pod), scope)
    requires after ==> clean && q.Unblocked() && Ready(q.sandboxes[key])
    requires frozen && Ready(q.sandboxes[key]) ==> WorkSecured(next.world, q.sandboxes[key], home)
    requires frozen && after ==> Removed(next.world, key) && DoneAs(pod, next.world)
    ensures SandboxProgress(p0, q, h0, next, left - {key}, handled + Handled(pod), home, scope, inventory, frozen, w0, after)
  {
    hide Plan.Valid, Plan.Unblocked, Rooted, Grown, Kept, Isolated, ClaimsKept, Ready, WorkSecured, Removed, PodDone, Touched, AllReady,
      AllSecured, AllRemoved, AllPodsDone, Shrunk;
    GrownTransitive(p0, p, q);
    KeptFrom(h, next, scope);
    KeptTransitive(h0, h, next, scope);
    OneMoreReady(p, q, left, key);
    if h.quiet {
      KeptShrinks(h, next, scope);
    }
    if frozen {
      StaysRooted(p, q, w0, h.world, next.world);
      AllStaySecured(p, q, left, key, h.world, next.world, home, scope, inventory);
      AllStay(p.sandboxes.Keys - left, handled, h.world, next.world);
      OneMore(p.sandboxes.Keys - left, handled, key, pod, next.world);
      assert p.sandboxes.Keys - left + {key} == p.sandboxes.Keys - (left - {key});
    }
    if h0.quiet {
      TouchedTransitive(h0.world, h.world, next.world, p0.sandboxes.Keys + handled, {key} + Handled(pod));
      assert p0.sandboxes.Keys + handled + ({key} + Handled(pod)) == p0.sandboxes.Keys + (handled + Handled(pod));
    }
  }

  method ProcessSandboxes(graph: Graph, store: ObjectStore, report: Report, home: string, scope: Uid,
                          ghost inventory: set<Obj>, ghost frozen: bool, ghost w0: World)
    returns (handled: set<Key>)
    requires graph.plan.Valid(scope, inventory) && store.Valid() && report.Valid() && (report.Clean() ==> graph.plan.Unblocked())
    requires frozen ==> store.Now().quiet && Rooted(graph.plan, w0, store.world)
    modifies graph, store, report
    ensures graph.plan.Valid(scope, inventory) && Grown(old(graph.plan), graph.plan)
    ensures graph.plan.sandboxes.Keys == old(graph.plan).sandboxes.Keys
    ensures store.Valid() && Kept(old(store.Now()), store.Now(), scope)
    ensures report.Valid()
    ensures report.Clean() ==> old(report.Clean()) && graph.plan.Unblocked() && AllReady(graph.plan, {})
    ensures frozen ==> Rooted(graph.plan, w0, store.world) && AllSecured(graph.plan, {}, store.world, home)
    ensures Free(old(store.Now())) ==> report.Untouched()
    ensures frozen && report.Clean() ==> AllRemoved(graph.plan.sandboxes.Keys, store.world) && AllPodsDone(handled, store.world)
    ensures old(store.Now().quiet) ==> Touched(old(store.world), store.world, graph.plan.sandboxes.Keys + handled)
    ensures old(graph.plan).sandboxes == map[] ==>
              graph.plan == old(graph.plan) && store.Now() == old(store.Now()) && handled == {} && report.errors == old(report.errors)
  {
    hide Sound, SingleController, Shrunk, Grown, Isolated, Plan.Valid, Plan.Unblocked, WorkSecured, Rooted, Kept, ClaimsKept,
      AllSecured, Ready, AllReady, Report.Clean, Touched, Removed, PodDone, Free, Advanced, AllRemoved, AllPodsDone, Worked;
    ghost var p0, h0 := graph.plan, store.Now();
    SandboxesStart(p0, h0, home, scope, inventory, frozen, w0, report.Clean());
    handled := {};
    var left := graph.plan.sandboxes.Keys;
    while left != {}
      invariant SandboxProgress(p0, graph.plan, h0, store.Now(), left, handled, home, scope, inventory, frozen, w0, report.Clean())
      invariant store.Valid() && report.Valid() && (report.Clean() ==> old(report.Clean()))
      invariant Free(h0) ==> Free(store.Now()) && report.Untouched()
      invariant p0.sandboxes == map[] ==>
        left == {} && graph.plan == p0 && store.Now() == h0 && handled == {} && report.errors == old(report.errors)
      decreases |left|
    {
      var key :| key in left;
      ghost var p, h, clean := graph.plan, store.Now(), report.Clean();
      var pod := ProcessSandbox(graph, store, report, key, home, scope, inventory, frozen, w0);
      WorkedIsFree(h, store.Now(), key, Handled(pod), scope);
      SandboxStep(p0, p, graph.plan, h0, h, store.Now(), left, handled, key, pod, home, scope, inventory, frozen, w0, clean, report.Clean());
      if pod.Some? {
        handled := handled + {pod.value};
      }
      left := left - {key};
    }
    assert graph.plan.sandboxes.Keys - {} == graph.plan.sandboxes.Keys;
  }

  lemma KeptShrinks(a: History, b: History, scope: Uid)
    requires Kept(a, b, scope) && a.quiet
    ensures b.quiet && Shrunk(a.world, b.world) && ClaimsKept(a.world, b.world)
  {
  }

  lemma NothingHandled(p: Plan, w: World, home: string)
    ensures AllSecured(p, p.sandboxes.Keys, w, home) && AllReady(p, p.sandboxes.Keys)
  {
  }

  // ---------------------------------------------------------------------------
  // Everything that is not a claim
  // ---------------------------------------------------------------------------

  /** Not the scope's, or recognised and deleted. */
  ghost predicate DealtWith(o: Obj, w: World, scope: Uid, home: string) {
    match Classify(o, scope, home)
    case Foreign => true
    case Invalid => false
    case Valid(_) => Removed(w, o.key)
  }

  lemma StaysDealtWith(o: Obj, a: World, b: World, scope: Uid, home: string)
    requires Shrunk(a, b) && DealtWith(o, a, scope, home)
    ensures DealtWith(o, b, scope, home)
  {
    hide Classify;
    if Removed(a, o.key) {
      StaysRemoved(a, b, o.key);
    }
  }

  /** Not the pass's business, or identified well enough to be deleted, and stored as it is or
      not at all. */
  ghost predicate Fit(o: Obj, w: World, scope: Uid, home: string) {
    !Classify(o, scope, home).Invalid? && (Classify(o, scope, home).Valid? ==> o.uid != "") && StillAs(w, o)
  }

  lemma StaysFit(o: Obj, a: World, b: World, scope: Uid, home: string)
    requires Touched(a, b, {}) && Fit(o, a, scope, home)
    ensures Fit(o, b, scope, home)
  {
    hide Classify;
  }

  method DeleteManaged(store: ObjectStore, report: Report, items: seq<Obj>, home: string, scope: Uid)
    requires store.Valid() && report.Valid() && forall o :: o in items ==> o in store.seen && o.key.kind !in {Pod, Claim}
    modifies store, report
    ensures store.Valid() && Kept(old(store.Now()), store.Now(), scope)
    ensures report.Valid() && (report.Clean() ==> old(report.Clean()))
    ensures report.Untouched()
    ensures old(store.Now().quiet) && report.Clean() ==> forall o :: o in items ==> DealtWith(o, store.world, scope, home)
    ensures old(store.Now().quiet) ==> Touched(old(store.world), store.world, {})
    ensures Steady(old(store.Now())) && (forall o :: o in items ==> Fit(o, old(store.world), scope, home)) ==>
              report.errors == old(report.errors)
  {
    hide Sound, SingleController, Shrunk, Isolated, Kept, Classify, Report.Clean;
    ghost var h0 := store.Now();
    KeptReflexive(h0, scope);
    for i := 0 to |items|
      invariant store.Valid() && Kept(h0, store.Now(), scope) && h0.seen <= store.seen
      invariant report.Valid() && (report.Clean() ==> old(report.Clean())) && report.Untouched()
      invariant h0.quiet ==> store.Now().quiet && Touched(h0.world, store.world, {})
      invariant (h0.sure ==> store.Now().sure)
      invariant Steady(h0) && (forall o :: o in items ==> Fit(o, h0.world, scope, home)) ==> report.errors == old(report.errors)
      invariant h0.quiet && report.Clean() ==> forall j :: 0 <= j < i ==> DealtWith(items[j], store.world, scope, home)
    {
      ghost var h := store.Now();
      assert items[i] in items;
      if Steady(h0) && Fit(items[i], h0.world, scope, home) {
        StaysFit(items[i], h0.world, h.world, scope, home);
      }
      match Classify(items[i], scope, home)
      case Foreign =>
      case Invalid => report.RecordUnverified(InvalidIdentity, items[i].key);
      case Valid(_) =>
        ValidIsScoped(items[i], scope, home);
        var _ := DeleteObject(store, report, items[i], scope);
        IsolatedStaysSure(h, store.Now(), scope);
        KeptByStep(h, store.Now(), scope, items[i].key);
        KeptTransitive(h0, h, store.Now(), scope);
        KeptSeen(h, store.Now(), scope);
        if h0.quiet {
          KeptShrinks(h, store.Now(), scope);
          forall j | 0 <= j < i && DealtWith(items[j], h.world, scope, home)
            ensures DealtWith(items[j], store.world, scope, home)
          {
            StaysDealtWith(items[j], h.world, store.world, scope, home);
          }
        }
    }
  }

  lemma ValidIsScoped(o: Obj, scope: Uid, home: string)
    requires Classify(o, scope, home).Valid?
    ensures InScope(o.run, scope)
  {
  }

  lemma KeptSeen(a: History, b: History, scope: Uid)
    requires Kept(a, b, scope)
    ensures a.seen <= b.seen
  {
  }

  /** Pods that were not handled as the Pod of a Sandbox. */
  lemma PodJoins(handled: set<Key>, key: Key, w: World)
    requires key.kind == Pod
    ensures AllPodsDone(handled, w) && PodDone(w, key) ==> AllPodsDone(handled + {key}, w)
  {
    hide PodDone;
  }

  lemma EachPodIsDone(handled: set<Key>, w: World)
    ensures AllPodsDone(handled, w) ==> forall k :: k in handled ==> PodDone(w, k)
  {
    hide PodDone;
  }

  /** Not in scope, or of a valid step and stored under this very identity or not at all. */
  ghost predicate PodFit(pod: Obj, w: World, scope: Uid, home: string) {
    InScope(pod.run, scope) ==> StepAllowed(pod.step) && PodAs(w, Key(Pod, home, pod.key.name), pod.run, pod.step)
  }

  lemma StaysPodFit(pod: Obj, a: World, b: World, scope: Uid, home: string)
    requires Touched(a, b, {}) && PodFit(pod, a, scope, home)
    ensures PodFit(pod, b, scope, home)
  {
  }

  lemma IsolatedStaysSure(a: History, b: History, scope: Uid)
    requires Isolated(a, b, scope)
    ensures a.sure ==> b.sure
  {
  }

  method DeletePods(store: ObjectStore, report: Report, items: seq<Obj>, done: set<Key>, home: string, scope: Uid)
    requires store.Valid() && report.Valid()
    modifies store, report
    ensures store.Valid() && Kept(old(store.Now()), store.Now(), scope)
    ensures report.Valid() && (report.Clean() ==> old(report.Clean()))
    ensures Free(old(store.Now())) ==> report.Untouched()
    ensures old(store.Now().quiet) && AllPodsDone(done, old(store.world)) && report.Clean() ==>
              forall pod :: pod in items && InScope(pod.run, scope) ==>
                StepAllowed(pod.step) && PodDone(store.world, Key(Pod, home, pod.key.name))
    ensures old(store.Now().quiet) ==> Touched(old(store.world), store.world, {})
    ensures Steady(old(store.Now())) && (forall pod :: pod in items ==> PodFit(pod, old(store.world), scope, home)) ==>
              report.errors == old(report.errors)
  {
    hide Sound, SingleController, Shrunk, Isolated, Kept, InScope, StepAllowed, Report.Clean, WasStored, Touched, Free, PodDone, PodAs,
      AllPodsDone;
    ObjectStores.Untouched(store.world, {});
    ghost var h0 := store.Now();
    KeptReflexive(h0, scope);
    var handled := done;
    for i := 0 to |items|
      invariant store.Valid() && Kept(h0, store.Now(), scope)
      invariant report.Valid() && (report.Clean() ==> old(report.Clean()))
      invariant Free(h0) ==> Free(store.Now()) && report.Untouched()
      invariant h0.quiet ==> store.Now().quiet && Touched(h0.world, store.world, {})
      invariant h0.sure ==> store.Now().sure
      invariant Steady(h0) && (forall pod :: pod in items ==> PodFit(pod, h0.world, scope, home)) ==> report.errors == old(report.errors)
      invariant h0.quiet && AllPodsDone(done, h0.world) && report.Clean() ==> AllPodsDone(handled, store.world)
      invariant report.Clean() ==>
        forall j :: 0 <= j < i && InScope(items[j].run, scope) ==> StepAllowed(items[j].step) && Key(Pod, home, items[j].key.name) in handled
    {
      var pod := items[i];
      var key := Key(Pod, home, pod.key.name);
      assert pod in items;
      if InScope(pod.run, scope) {
        if !StepAllowed(pod.step) {
          report.RecordUnverified(InvalidIdentity, pod.key);
        } else if key !in handled {
          ghost var h := store.Now();
          if Steady(h0) && PodFit(pod, h0.world, scope, home) {
            StaysPodAs(h0.world, h.world, key, pod.run, pod.step);
          }
          var _, _ := DeletePod(store, report, key, pod.run, pod.step, None, scope);
          if h0.quiet {
            TouchedNeither(h0.world, h.world, store.world);
          }
          PodJoins(handled, key, store.world);
          FreeThrough(h, store.Now(), scope);
          IsolatedStaysSure(h, store.Now(), scope);
          if h.quiet {
            AllStay({}, handled, h.world, store.world);
          }
          handled := handled + {key};
          KeptByStep(h, store.Now(), scope, key);
          KeptTransitive(h0, h, store.Now(), scope);
        }
      }
    }
    EachPodIsDone(handled, store.world);
  }

  // ---------------------------------------------------------------------------
  // Claims last
  // ---------------------------------------------------------------------------

  /** Every Sandbox a claim waits for is safe. */
  predicate MayGo(p: Plan, u: Uid)
    requires u in p.claims
  {
    forall k :: k in p.claims[u].sandboxes && k in p.sandboxes ==> Ready(p.sandboxes[k])
  }

  ghost function SandboxesOf(w: World, home: string): set<Obj> {
    set k | k in w.objs && SandboxAt(k, home) :: w.objs[k]
  }

  /** The claims worked on are those of w0. */
  ghost predicate ClaimsOf(p: Plan, w0: World) {
    forall u :: u in p.claims ==> p.claims[u].target.key in w0.objs && w0.objs[p.claims[u].target.key] == p.claims[u].target
  }

  /** What a frozen environment guarantees when the claims' turn comes. */
  ghost predicate Accounted(p: Plan, w0: World, w: World, home: string) {
    Shrunk(w0, w) && ClaimsOf(p, w0) && p.AllLinked(SandboxesOf(w0, home)) && AllSecured(p, {}, w, home)
  }

  lemma ClaimMayGo(p: Plan, u: Uid, w0: World, w: World, s: Key, home: string)
    requires Accounted(p, w0, w, home) && u in p.claims && !p.claims[u].blocked && MayGo(p, u)
    requires s in w0.objs && SandboxAt(s, home) && w0.objs[s].key == s && ControlledBy(w0.objs[s], p.claims[u].target)
    ensures Secured(w, w0.objs[s], p.claims[u].target.run, p.claims[u].target.step, home)
  {
    assert w0.objs[s] in SandboxesOf(w0, home);
    assert p.Linked(u, w0.objs[s]);
    assert WorkSecured(w, p.sandboxes[s], home);
  }

  lemma RemovingKeepsNothingLost(p: Plan, u: Uid, w0: World, w: World, after: World, scope: Uid, home: string, inventory: set<Obj>)
    requires Sound(w0) && Accounted(p, w0, w, home) && p.Valid(scope, inventory) && u in p.claims
    requires !p.claims[u].blocked && MayGo(p, u)
    requires NothingLost(w0, w, scope, home) && Shrunk(w, after) && SameExcept(w, after, p.claims[u].target.key)
    ensures NothingLost(w0, after, scope, home)
  {
    hide ControlledBy, Shrunk, SingleController, Secured, InScope, StepAllowed, MayGo, Accounted, SandboxesOf;
    forall c, s | c in w0.objs && s in w0.objs && RemovedFrom(c, w0, after, scope, home) && SandboxAt(s, home) &&
                  ControlledBy(w0.objs[s], w0.objs[c])
      ensures StepAllowed(w0.objs[c].step) && Secured(after, w0.objs[s], w0.objs[c].run, w0.objs[c].step, home)
    {
      if c in w.objs {
        ClaimsAre(p, u, w0, w, home);
        assert c == p.claims[u].target.key;
        ClaimInScope(p, u, scope, inventory);
        ClaimMayGo(p, u, w0, w, s, home);
      } else {
        assert RemovedFrom(c, w0, w, scope, home);
      }
      ScopedIsNamed(w0.objs[c].run, scope);
      AllowedIsNamed(w0.objs[c].step);
      StaysSecured(w, after, w0.objs[s], w0.objs[c].run, w0.objs[c].step, home);
    }
  }

  lemma ClaimsAre(p: Plan, u: Uid, w0: World, w: World, home: string)
    requires Accounted(p, w0, w, home) && u in p.claims
    ensures p.claims[u].target.key in w0.objs && w0.objs[p.claims[u].target.key] == p.claims[u].target
  {
  }

  lemma StaysAccounted(p: Plan, q: Plan, w0: World, a: World, b: World, home: string, scope: Uid, inventory: set<Obj>)
    requires Accounted(p, w0, a, home) && Shrunk(a, b) && Grown(p, q) && q.sandboxes == p.sandboxes && q.Valid(scope, inventory)
    ensures Accounted(q, w0, b, home)
  {
    hide ControlledBy, Secured, WorkSecured, SandboxesOf;
    ShrunkTransitive(w0, a, b);
    AllLinkedStays(p, q, SandboxesOf(w0, home));
    SameClaims(p, q);
    forall k | k in q.sandboxes && Ready(q.sandboxes[k])
      ensures WorkSecured(b, q.sandboxes[k], home)
    {
      WorkStaysSecured(q, k, a, b, home, scope, inventory);
    }
  }

  lemma WorkStaysSecured(p: Plan, k: Key, a: World, b: World, home: string, scope: Uid, inventory: set<Obj>)
    requires p.Valid(scope, inventory) && k in p.sandboxes && Shrunk(a, b) && WorkSecured(a, p.sandboxes[k], home)
    ensures WorkSecured(b, p.sandboxes[k], home)
  {
    var work := p.sandboxes[k];
    WorkInScope(p, k, scope, inventory);
    ScopedIsNamed(work.run, scope);
    AllowedIsNamed(work.step);
    StaysSecured(a, b, work.target, work.run, work.step, home);
  }

  lemma ReadyMayGo(p: Plan, u: Uid)
    requires p.Unblocked() && AllReady(p, {}) && u in p.claims
    ensures !p.claims[u].blocked && MayGo(p, u)
  {
  }

  lemma ClaimsStayRemoved(p: Plan, left: set<Uid>, a: World, b: World)
    requires Shrunk(a, b)
    ensures (forall u :: u in p.claims && u !in left ==> Removed(a, p.claims[u].target.key)) ==>
              forall u :: u in p.claims && u !in left ==> Removed(b, p.claims[u].target.key)
  {
  }

  /** Every claim worked on has a UID and is stored as it is or not at all. */
  ghost predicate ClaimsStill(p: Plan, w: World) {
    forall u :: u in p.claims ==> p.claims[u].target.uid != "" && StillAs(w, p.claims[u].target)
  }

  ghost predicate SameTargets(p: Plan, q: Plan) {
    q.claims.Keys == p.claims.Keys && forall u :: u in p.claims ==> q.claims[u].target == p.claims[u].target
  }

  lemma TargetsAreSame(p: Plan)
    ensures SameTargets(p, p)
  {
  }

  lemma BlockingKeepsTargets(p: Plan, q: Plan, u: Uid)
    requires SameTargets(p, q) && u in q.claims
    ensures SameTargets(p, q.BlockedClaim(u))
  {
  }

  lemma ClaimStaysAs(p: Plan, q: Plan, u: Uid, a: World, b: World)
    requires ClaimsStill(p, a) && SameTargets(p, q) && u in q.claims && Touched(a, b, {})
    ensures q.claims[u].target.uid != "" && StillAs(b, q.claims[u].target)
  {
    StaysAs(a, b, p.claims[u].target);
  }

  /** Deletes one claim whose Sandboxes are all ready. */
  method DeleteClaim(store: ObjectStore, report: Report, p: Plan, u: Uid, home: string, scope: Uid,
                     ghost inventory: set<Obj>, ghost frozen: bool, ghost w0: World)
    requires p.Valid(scope, inventory) && store.Valid() && report.Valid() && inventory <= store.seen
    requires u in p.claims && !p.claims[u].blocked && MayGo(p, u)
    requires frozen ==>
               store.Now().quiet && Sound(w0) && Accounted(p, w0, store.world, home) && NothingLost(w0, store.world, scope, home)
    modifies store, report
    ensures store.Valid() && Isolated(old(store.Now()), store.Now(), scope) && inventory <= store.seen
    ensures report.Valid() && (report.Clean() ==> old(report.Clean())) && report.Untouched()
    ensures report.Clean() ==> Removed(store.world, p.claims[u].target.key)
    ensures old(store.Now().quiet) ==> store.Now().quiet && Touched(old(store.world), store.world, {})
    ensures old(store.Now().quiet) ==> Shrunk(old(store.world), store.world)
    ensures old(store.Now().sure) ==> store.Now().sure
    ensures frozen ==> Accounted(p, w0, store.world, home) && NothingLost(w0, store.world, scope, home)
    ensures Steady(old(store.Now())) && p.claims[u].target.uid != "" && StillAs(old(store.world), p.claims[u].target) ==>
              report.errors == old(report.errors)
  {
    hide Sound, SingleController, Shrunk, Isolated, Plan.Valid, Accounted, NothingLost, MayGo, InScope, StepAllowed, Report.Clean,
      WasStored, Touched, Removed, StillAs;
    ghost var h := store.Now();
    ClaimInScope(p, u, scope, inventory);
    var _ := DeleteObject(store, report, p.claims[u].target, scope);
    IsolatedStaysSure(h, store.Now(), scope);
    IsolatedAdvances(h, store.Now(), scope);
    if frozen {
      RemovingKeepsNothingLost(p, u, w0, h.world, store.world, scope, home, inventory);
      GrownReflexive(p);
      StaysAccounted(p, p, w0, h.world, store.world, home, scope, inventory);
    }
  }

  method DeleteClaims(graph: Graph, store: ObjectStore, report: Report, home: string, scope: Uid,
                      ghost inventory: set<Obj>, ghost frozen: bool, ghost w0: World)
    requires graph.plan.Valid(scope, inventory) && store.Valid() && report.Valid() && inventory <= store.seen
    requires frozen ==>
               store.Now().quiet && Sound(w0) && Accounted(graph.plan, w0, store.world, home) &&
               NothingLost(w0, store.world, scope, home)
    modifies graph, store, report
    ensures store.Valid() && Isolated(old(store.Now()), store.Now(), scope)
    ensures report.Valid() && (report.Clean() ==> old(report.Clean()))
    ensures frozen ==> NothingLost(w0, store.world, scope, home)
    ensures report.Untouched()
    ensures frozen && old(graph.plan).Unblocked() && AllReady(old(graph.plan), {}) && report.Clean() ==>
              forall u :: u in old(graph.plan).claims ==> Removed(store.world, old(graph.plan).claims[u].target.key)
    ensures old(store.Now().quiet) ==> Touched(old(store.world), store.world, {})
    ensures Steady(old(store.Now())) && ClaimsStill(old(graph.plan), old(store.world)) ==> report.errors == old(report.errors)
  {
    hide Sound, SingleController, Shrunk, Isolated, Grown, Plan.Valid, Accounted, NothingLost, MayGo, InScope, StepAllowed, Report.Clean,
      WasStored, Touched, Removed, StillAs, ClaimsStill, SameTargets, AllReady, Plan.Unblocked, StoredAt, Advanced, ObjectStore.Valid;
    TargetsAreSame(graph.plan);
    ObjectStores.Untouched(store.world, {});
    ghost var h0, p0 := store.Now(), graph.plan;
    IsolatedReflexive(h0, scope);
    var left := graph.plan.claims.Keys;
    while left != {}
      invariant left <= graph.plan.claims.Keys
      invariant graph.plan.Valid(scope, inventory) && store.Valid() && report.Valid() && inventory <= store.seen
      invariant Isolated(h0, store.Now(), scope) && (report.Clean() ==> old(report.Clean())) && report.Untouched()
      invariant p0.Unblocked() && AllReady(p0, {}) ==> graph.plan == p0
      invariant h0.quiet ==> store.Now().quiet && Touched(h0.world, store.world, {})
      invariant h0.sure ==> store.Now().sure
      invariant SameTargets(p0, graph.plan)
      invariant Steady(h0) && ClaimsStill(p0, h0.world) ==> report.errors == old(report.errors)
      invariant frozen && p0.Unblocked() && AllReady(p0, {}) && report.Clean() ==>
        forall u :: u in p0.claims && u !in left ==> Removed(store.world, p0.claims[u].target.key)
      invariant frozen ==>
        store.Now().quiet && Accounted(graph.plan, w0, store.world, home) && NothingLost(w0, store.world, scope, home)
      decreases |left|
    {
      var u :| u in left;
      left := left - {u};
      if p0.Unblocked() && AllReady(p0, {}) {
        ReadyMayGo(graph.plan, u);
      }
      if !graph.plan.claims[u].blocked {
        ghost var h := store.Now();
        ClaimInScope(graph.plan, u, scope, inventory);
        if !MayGo(graph.plan, u) {
          BlockedClaimKeeps(graph.plan, u, scope, inventory);
          BlockingKeepsTargets(p0, graph.plan, u);
          if frozen {
            ShrunkReflexive(store.world);
            StaysAccounted(graph.plan, graph.plan.BlockedClaim(u), w0, store.world, store.world, home, scope, inventory);
          }
          graph.plan := graph.plan.BlockedClaim(u);
        } else {
          if Steady(h0) && ClaimsStill(p0, h0.world) {
            ClaimStaysAs(p0, graph.plan, u, h0.world, h.world);
          }
          DeleteClaim(store, report, graph.plan, u, home, scope, inventory, frozen, w0);
          if h0.quiet {
            TouchedNeither(h0.world, h.world, store.world);
          }
          IsolatedTransitive(h0, h, store.Now(), scope);
          if frozen {
            ClaimsStayRemoved(p0, left + {u}, h.world, store.world);
          }
        }
      }
    }
  }
}
