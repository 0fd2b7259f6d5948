/** What one suspension pass may do to the store, and its single checked requests: identity
    patches and UID-preconditioned deletes. */
module CleanupRequests {
  import opened Conditions
  import opened Configs
  import opened Objects
  import opened ObjectStores
  import opened Ownership
  import opened Reports

  // ---------------------------------------------------------------------------
  // What a pass may do to the store
  // ---------------------------------------------------------------------------

  /** The object of this key and UID is stored with a run label in scope. */
  ghost predicate Bears(w: World, key: Key, uid: Uid, scope: Uid) {
    key in w.objs && w.objs[key].uid == uid && w.objs[key].run != "" && (scope == "" || w.objs[key].run == scope)
  }

  /** The object under this key is not a Pod that has finished. */
  ghost predicate Unfinished(w: World, key: Key) {
    key in w.objs && (key.kind == Pod ==> w.objs[key].phase !in {PodSucceeded, PodFailed})
  }

  /** What was deleted is what was stored at that instant; at an earlier one exactly that object
      was labelled for a run in scope and, if it is a Pod, had not finished. */
  ghost predicate Vouched(d: Deletion, past: seq<World>, scope: Uid) {
    && 0 < d.at <= |past| && StoredAt(past[d.at - 1], d.o) && d.o.uid != ""
    && exists p: nat :: p < d.at && Bears(past[p], d.o.key, d.o.uid, scope) && Unfinished(past[p], d.o.key)
  }

  lemma VouchedLater(d: Deletion, a: seq<World>, b: seq<World>, scope: Uid)
    requires Vouched(d, a, scope) && a <= b
    ensures Vouched(d, b, scope)
  {
    var p: nat :| p < d.at && Bears(a[p], d.o.key, d.o.uid, scope) && Unfinished(a[p], d.o.key);
    assert b[p] == a[p] && b[d.at - 1] == a[d.at - 1];
  }

  /** A delete that carries the UID of a stored version labelled in scope is vouched for. */
  lemma VouchedBy(v: Obj, a: History, b: History, o: Obj, scope: Uid)
    requires WasStored(v, a.past) && v.uid == o.uid != "" && v.key == o.key && InScope(v.run, scope)
    requires v.key.kind == Pod ==> !IsOver(v)
    requires a.past <= b.past && ObjectStore.Deleted(a.deletions, b.deletions, b.past, o)
    ensures Vouched(Deletion(o, |b.past|), b.past, scope)
  {
    var p: nat :| p < |a.past| && StoredAt(a.past[p], v);
    assert Bears(b.past[p], o.key, o.uid, scope) && Unfinished(b.past[p], o.key);
  }

  /** No Pod that has finished is removed by what happens in between. */
  ghost predicate FinishedStay(a: World, b: World) {
    forall k :: k in a.objs && k.kind == Pod && a.objs[k].phase in {PodSucceeded, PodFailed} ==> k in b.objs
  }

  lemma FinishedStayTransitive(a: World, b: World, c: World)
    requires Shrunk(a, b) && FinishedStay(a, b) && FinishedStay(b, c)
    ensures FinishedStay(a, c)
  {
    forall k | k in a.objs && k.kind == Pod && a.objs[k].phase in {PodSucceeded, PodFailed}
      ensures k in c.objs
    {
      assert Labelled(a.objs[k], b.objs[k]);
    }
  }

  lemma DeleteIsIsolated(v: Obj, a: History, b: History, scope: Uid)
    requires WasStored(v, a.past) && v.uid != "" && InScope(v.run, scope) && Advanced(a, b) && b.relabels == a.relabels
    requires v.key.kind == Pod ==> !IsOver(v)
    requires a.quiet ==> SameExcept(a.world, b.world, v.key) && (v.key in a.world.objs ==> Unfinished(a.world, v.key))
    requires b.deletions == a.deletions ||
             exists o :: ObjectStore.Deleted(a.deletions, b.deletions, b.past, o) && o.key == v.key && o.uid == v.uid
    ensures Isolated(a, b, scope)
  {
    hide Vouched, WasStored;
    if b.deletions != a.deletions {
      var o :| ObjectStore.Deleted(a.deletions, b.deletions, b.past, o) && o.key == v.key && o.uid == v.uid;
      VouchedBy(v, a, b, o, scope);
    }
  }

  lemma LabellingIsIsolated(a: History, b: History, read: Obj, scope: Uid)
    requires Advanced(a, b) && b.deletions == a.deletions && (b.relabels == a.relabels || b.relabels == a.relabels + [read])
    requires (read.run == "" || InScope(read.run, scope)) && (a.quiet ==> b.world.objs.Keys == a.world.objs.Keys)
    ensures Isolated(a, b, scope)
  {
  }

  /** Every delete in between hit an object whose own UID had been validated for the scope;
      every label patch hit an exact version that was unlabelled or in scope; and where nobody
      else writes, every Pod that has finished is still there. */
  ghost predicate Isolated(a: History, b: History, scope: Uid) {
    && Advanced(a, b)
    && (forall i :: |a.deletions| <= i < |b.deletions| ==> Vouched(b.deletions[i], b.past, scope))
    && (forall i :: |a.relabels| <= i < |b.relabels| ==>
          b.relabels[i].run == "" || scope == "" || b.relabels[i].run == scope)
    && (a.quiet ==> FinishedStay(a.world, b.world))
  }

  lemma IsolatedTransitive(a: History, b: History, c: History, scope: Uid)
    requires Isolated(a, b, scope) && Isolated(b, c, scope)
    ensures Isolated(a, c, scope)
  {
    hide Vouched;
    AdvancedTransitive(a, b, c);
    forall i | |a.deletions| <= i < |c.deletions|
      ensures Vouched(c.deletions[i], c.past, scope)
    {
      if i < |b.deletions| {
        assert c.deletions[i] == b.deletions[i];
        VouchedLater(c.deletions[i], b.past, c.past, scope);
      }
    }
    forall i | |a.relabels| <= i < |c.relabels|
      ensures c.relabels[i].run == "" || scope == "" || c.relabels[i].run == scope
    {
      if i < |b.relabels| {
        assert c.relabels[i] == b.relabels[i];
      }
    }
    if a.quiet {
      FinishedStayTransitive(a.world, b.world, c.world);
    }
  }

  lemma IsolatedAdvances(a: History, b: History, scope: Uid)
    requires Isolated(a, b, scope)
    ensures Advanced(a, b)
  {
  }

  lemma ReadingIsIsolated(a: History, b: History, scope: Uid)
    requires OnlyRead(a, b)
    ensures Isolated(a, b, scope)
  {
    if a.quiet {
      ShrunkReflexive(a.world);
    }
  }

  /** The object of this key and UID is stored with the label of another run. */
  ghost predicate BearsOther(w: World, key: Key, uid: Uid, scope: Uid) {
    key in w.objs && w.objs[key].uid == uid && w.objs[key].run !in {"", scope}
  }

  /** At one instant the object deleted bore the scope's label, and from a later one on, up to
      its deletion, another run's. */
  ghost predicate MovedAway(d: Deletion, past: seq<World>, scope: Uid)
    requires d.at <= |past|
  {
    exists p: nat, q: nat :: p < q < d.at && Bears(past[p], d.o.key, d.o.uid, scope) && OtherFrom(d, past, scope, q)
  }

  ghost predicate OtherFrom(d: Deletion, past: seq<World>, scope: Uid, q: nat)
    requires d.at <= |past|
  {
    q < d.at && forall r :: q <= r < d.at ==> BearsOther(past[r], d.o.key, d.o.uid, scope)
  }

  /** No object is ever moved from one run to another. */
  ghost predicate LabelsStay(past: seq<World>) {
    forall p, q :: 0 <= p < q < |past| ==> RunsStay(past[p], past[q])
  }

  ghost predicate RunsStay(a: World, b: World) {
    forall k :: k in a.objs && k in b.objs && a.objs[k].uid == b.objs[k].uid ==>
      a.objs[k].run == "" || b.objs[k].run in {"", a.objs[k].run}
  }

  /** A delete compares UIDs, not labels. One made for a run hits another run's object if and
      only if that very object once bore the run's label and was moved to another run before
      the delete; and so never where labels are not moved between runs. */
  lemma NeverAnotherRuns(a: History, b: History, scope: Uid, i: nat)
    requires Isolated(a, b, scope) && |a.deletions| <= i < |b.deletions| && scope != ""
    ensures b.deletions[i].at <= |b.past|
    ensures b.deletions[i].o.run !in {"", scope} <==> MovedAway(b.deletions[i], b.past, scope)
    ensures LabelsStay(b.past) ==> b.deletions[i].o.run in {"", scope}
  {
    var d := b.deletions[i];
    assert Vouched(d, b.past, scope);
    var p: nat :| p < d.at && Bears(b.past[p], d.o.key, d.o.uid, scope);
    if d.o.run !in {"", scope} {
      assert OtherFrom(d, b.past, scope, d.at - 1);
    }
    if q: nat :| q < d.at && OtherFrom(d, b.past, scope, q) {
      assert BearsOther(b.past[d.at - 1], d.o.key, d.o.uid, scope);
    }
  }

  /** It can happen: another client moves the object between the read that validated it and the
      delete, which still finds its UID. */
  lemma MovedObjectIsDeleted() returns (a: History, b: History)
    ensures Isolated(a, b, "mine") && Sound(a.world) && Sound(b.world)
    ensures |b.deletions| == |a.deletions| + 1 && b.deletions[|a.deletions|].o.run == "theirs"
    ensures |b.past| == |a.past| + 1 && a.past <= b.past && Sound(b.past[|a.past|])
  {
    var key := Key(Secret, "home", "credential");
    var mine := Obj(key, "uid", 1, "mine", "execution", KUBECONFIG, [], "", Reference(""), PodUnknown, false);
    var theirs := mine.(run := "theirs", version := 2);
    var before, moved := World(map[key := mine], {}), World(map[key := theirs], {});
    a := History(before, false, true, [before], {mine}, [], []);
    b := History(World(map[], {}), false, true, [before, moved], {mine, theirs}, [Deletion(theirs, 2)], []);
    assert Bears(b.past[0], key, "uid", "mine") && Unfinished(b.past[0], key);
    assert StoredAt(b.past[1], theirs);
    assert Vouched(b.deletions[0], b.past, "mine");
  }

  // ---------------------------------------------------------------------------
  // What a quiet environment lets a pass conclude
  // ---------------------------------------------------------------------------

  ghost predicate PodSettled(w: World, pod: Key) {
    pod in w.objs ==> IsOver(w.objs[pod])
  }

  /** Absent, or finished under an identity the classifiers accept. */
  ghost predicate PodDone(w: World, pod: Key) {
    pod in w.objs ==> IsOver(w.objs[pod]) && StepAllowed(w.objs[pod].step)
  }

  lemma PodStaysDone(a: World, b: World, pod: Key)
    requires Shrunk(a, b) && PodDone(a, pod)
    ensures PodDone(b, pod)
  {
  }

  function BackingPod(s: Obj, home: string): Key {
    Key(Pod, home, if s.podName == "" then s.key.name else s.podName)
  }

  /** A Sandbox is gone or carries its identity itself, and its Pod is gone or finished. */
  ghost predicate Secured(w: World, s: Obj, run: string, step: string, home: string) {
    (s.key in w.objs ==> w.objs[s.key].run == run && w.objs[s.key].step == step) && PodSettled(w, BackingPod(s, home))
  }

  lemma PodStaysSettled(a: World, b: World, pod: Key)
    requires Shrunk(a, b) && PodSettled(a, pod)
    ensures PodSettled(b, pod)
  {
  }

  lemma StaysSecured(a: World, b: World, s: Obj, run: string, step: string, home: string)
    requires Shrunk(a, b) && Secured(a, s, run, step, home) && run != "" && step != ""
    ensures Secured(b, s, run, step, home)
  {
    PodStaysSettled(a, b, BackingPod(s, home));
  }

  /** No claim is removed by what happens in between. */
  ghost predicate ClaimsKept(a: World, b: World) {
    forall k: Key :: k.kind == Claim && k in a.objs ==> k in b.objs
  }

  /** A claim of the inventory is removed only once every Sandbox it controlled is secured:
      whatever is left can still be found, as the Sandbox of a stored claim or by its own labels. */
  ghost predicate NothingLost(w0: World, w: World, scope: Uid, home: string) {
    forall c, s :: c in w0.objs && s in w0.objs && RemovedFrom(c, w0, w, scope, home) && SandboxAt(s, home) &&
                   ControlledBy(w0.objs[s], w0.objs[c]) ==>
      StepAllowed(w0.objs[c].step) && Secured(w, w0.objs[s], w0.objs[c].run, w0.objs[c].step, home)
  }

  ghost predicate ScopedClaim(c: Key, w0: World, scope: Uid, home: string)
    requires c in w0.objs
  {
    c.kind == Claim && c.namespace == home && InScope(w0.objs[c].run, scope)
  }

  ghost predicate RemovedFrom(c: Key, w0: World, w: World, scope: Uid, home: string)
    requires c in w0.objs
  {
    ScopedClaim(c, w0, scope, home) && c !in w.objs
  }

  predicate SandboxAt(s: Key, home: string) {
    s.kind == Sandbox && s.namespace == home
  }

  /** Nobody else writes, and nothing stored waits for a finalizer. */
  ghost predicate Free(h: History) {
    h.quiet && forall k :: k in h.world.objs ==> !h.world.objs[k].held
  }

  lemma StaysFree(a: History, b: History)
    requires Advanced(a, b) && Free(a)
    ensures Free(b)
  {
  }

  /** Deleted as far as a delete request goes. */
  ghost predicate Removed(w: World, key: Key) {
    key in w.objs ==> w.objs[key].held
  }

  lemma StaysRemoved(a: World, b: World, key: Key)
    requires Shrunk(a, b) && Removed(a, key)
    ensures Removed(b, key)
  {
  }

  // ---------------------------------------------------------------------------
  // Requests with the pass's own checks
  // ---------------------------------------------------------------------------

  /** Gives an object its identity labels, unless it is not the object read or carries
      another identity, and reads them back. */
  method PatchRunIdentity(store: ObjectStore, read: Obj, run: string, step: string, ghost scope: Uid) returns (stored: Option<Obj>)
    requires store.Valid() && InScope(run, scope)
    modifies store
    ensures store.Valid() && Isolated(old(store.Now()), store.Now(), scope)
    ensures stored.Some? ==>
              var o := stored.value;
              o in store.seen && o.key == read.key && o.uid == read.uid != "" && o.run == run && o.step == step
    ensures old(store.Now().quiet) ==> SameExcept(old(store.world), store.world, read.key)
    ensures stored.Some? ==> read.key in store.world.objs && store.world.objs[read.key] == stored.value
  {
    hide Sound, SingleController, Shrunk, StepAllowed, InScope;
    ghost var h0 := store.Now();
    OnlyReadReflexive(h0);
    ReadingIsIsolated(h0, h0, scope);
    if read.uid == "" || run == "" || !StepAllowed(step) {
      return None;
    }
    AllowedIsNamed(step);
    var got := store.Get(read.key);
    ghost var h1 := store.Now();
    ReadingIsIsolated(h0, h1, scope);
    if !got.Found? || got.o.uid != read.uid {
      return None;
    }
    var o := got.o;
    if (o.run != "" && o.run != run) || (o.step != "" && o.step != step) {
      return None;
    }
    if o.run == run && o.step == step {
      return Some(o);
    }
    var ok := store.PatchLabels(o, run, step);
    ghost var h2 := store.Now();
    LabellingIsIsolated(h1, h2, o, scope);
    IsolatedTransitive(h0, h1, h2, scope);
    if !ok {
      return None;
    }
    var again := store.Get(read.key);
    ReadingIsIsolated(h2, store.Now(), scope);
    IsolatedTransitive(h0, h2, store.Now(), scope);
    if !again.Found? || again.o.uid != read.uid || again.o.run != run || again.o.step != step {
      return None;
    }
    return Some(again.o);
  }

  lemma AllowedIsNamed(step: string)
    requires StepAllowed(step)
    ensures step != ""
  {
  }

  lemma ScopedIsNamed(run: string, scope: Uid)
    requires InScope(run, scope)
    ensures run != ""
  {
  }

  lemma OnlyReadReflexive(h: History)
    ensures OnlyRead(h, h)
  {
  }

  /** Under this key nothing but this object is stored. */
  ghost predicate StillAs(w: World, o: Obj) {
    o.key in w.objs ==> w.objs[o.key] == o
  }

  lemma StaysAs(a: World, b: World, o: Obj)
    requires Touched(a, b, {}) && StillAs(a, o)
    ensures StillAs(b, o)
  {
  }

  method DeleteObject(store: ObjectStore, report: Report, o: Obj, ghost scope: Uid) returns (ok: bool)
    requires store.Valid() && report.Valid() && o in store.seen && InScope(o.run, scope) && o.key.kind != Pod
    modifies store, report
    ensures store.Valid() && Isolated(old(store.Now()), store.Now(), scope)
    ensures report.Valid() && (report.Clean() ==> old(report.Clean()) && ok)
    ensures old(store.Now().quiet) ==> SameExcept(old(store.world), store.world, o.key)
    ensures ok ==> Removed(store.world, o.key)
    ensures report.Untouched()
    ensures old(store.Now().quiet) ==> Touched(old(store.world), store.world, {})
    ensures Steady(old(store.Now())) && o.uid != "" && StillAs(old(store.world), o) ==> report.errors == old(report.errors)
  {
    hide Sound, SingleController, Shrunk, InScope;
    ghost var h0 := store.Now();
    OnlyReadReflexive(h0);
    ReadingIsIsolated(h0, h0, scope);
    if o.uid == "" {
      report.RecordFailure(DeleteFailed, o.key);
      return false;
    }
    ok := store.Delete(o.key, o.uid);
    DeleteIsIsolated(o, h0, store.Now(), scope);
    if !ok {
      report.RecordFailure(DeleteFailed, o.key);
    }
  }

  // ---------------------------------------------------------------------------
  // Pods
  // ---------------------------------------------------------------------------

  predicate Identifies(o: Obj, run: string, step: string) {
    o.run == run && o.step == step
  }

  /** Under this key nothing but a Pod of this identity is stored. */
  ghost predicate PodAs(w: World, key: Key, run: string, step: string) {
    key in w.objs ==> w.objs[key].uid != "" && Identifies(w.objs[key], run, step)
  }

  lemma StaysPodAs(a: World, b: World, key: Key, run: string, step: string)
    requires Touched(a, b, {}) && PodAs(a, key, run, step)
    ensures PodAs(b, key, run, step)
  {
  }

  /** The Pod under its expected identity: persisted first, if it belongs to a Sandbox, and
      otherwise as it is. */
  method IdentifyPod(store: ObjectStore, report: Report, pod: Obj, run: string, step: string, persist: bool, ghost scope: Uid)
    returns (stored: Option<Obj>)
    requires store.Valid() && report.Valid() && InScope(run, scope) && pod in store.seen
    modifies store, report
    ensures store.Valid() && Isolated(old(store.Now()), store.Now(), scope)
    ensures report.Valid() && (stored.None? ==> !report.Clean()) && report.Untouched()
    ensures stored.Some? ==> (report.Clean() <==> old(report.Clean())) && report.errors == old(report.errors)
    ensures stored.Some? ==>
              stored.value in store.seen && stored.value.key == pod.key && stored.value.uid == pod.uid && Identifies(stored.value, run, step)
    ensures !persist ==> store.Now() == old(store.Now()) && stored == if Identifies(pod, run, step) then Some(pod) else None
    ensures old(store.Now().quiet) ==> SameExcept(old(store.world), store.world, pod.key)
    ensures persist && stored.Some? ==> pod.key in store.world.objs && store.world.objs[pod.key] == stored.value
  {
    hide Sound, SingleController, Shrunk, InScope, StepAllowed, WasStored, Vouched, Isolated;
    if !persist {
      OnlyReadReflexive(store.Now());
      ReadingIsIsolated(store.Now(), store.Now(), scope);
      if !Identifies(pod, run, step) {
        report.RecordUnverified(PodIdentityChanged, pod.key);
        return None;
      }
      return Some(pod);
    }
    stored := PatchRunIdentity(store, pod, run, step, scope);
    if stored.None? {
      report.RecordUnverified(IdentityNotPersisted, pod.key);
    }
  }

  /** Removes the Pod under a name, if it is there and its identity holds, and confirms that it
      is gone. A finished Pod is kept. parent is the Sandbox the Pod must belong to. */
  method DeletePod(store: ObjectStore, report: Report, key: Key, run: string, step: string, parent: Option<Obj>, ghost scope: Uid)
    returns (safe: bool, completed: bool)
    requires store.Valid() && report.Valid() && InScope(run, scope)
    modifies store, report
    ensures store.Valid() && Isolated(old(store.Now()), store.Now(), scope)
    ensures report.Valid() && (report.Clean() ==> old(report.Clean()) && safe)
    ensures old(store.Now().quiet) ==> SameExcept(old(store.world), store.world, key)
    ensures old(store.Now().quiet) && safe ==> PodSettled(store.world, key)
    ensures old(store.Now().quiet) && completed ==> key in store.world.objs && IsOver(store.world.objs[key])
    ensures Free(old(store.Now())) ==> report.Untouched()
    ensures old(store.Now().quiet) && parent.None? ==> Touched(old(store.world), store.world, {})
    ensures old(store.Now().quiet) && safe && StepAllowed(step) ==> PodDone(store.world, key)
    ensures Steady(old(store.Now())) && parent.None? && PodAs(old(store.world), key, run, step) ==> report.errors == old(report.errors)
  {
    hide Sound, SingleController, Shrunk, InScope, StepAllowed, HasControllerOwner, WasStored, Isolated;
    ghost var h0 := store.Now();
    safe, completed := false, false;
    var got := store.Get(key);
    ghost var h1 := store.Now();
    ReadingIsIsolated(h0, h1, scope);
    if got.NotFound? {
      return true, false;
    }
    if got.GetFailed? {
      report.RecordUnverified(BackingPodUnknown, key);
      return;
    }
    var pod := got.o;
    if pod.uid == "" {
      report.RecordUnverified(MissingUid, key);
      return;
    }
    var owned := parent.None? || HasControllerOwner(pod, SandboxOwner, parent.value.key.name, parent.value.uid);
    if !owned {
      report.RecordUnverified(BackingPodUnowned, key);
      if !Identifies(pod, run, step) {
        return;
      }
    }
    var stored := IdentifyPod(store, report, pod, run, step, parent.Some?, scope);
    IsolatedTransitive(h0, h1, store.Now(), scope);
    if stored.None? {
      return;
    }
    pod := stored.value;
    if Finished(pod) {
      return owned || Identifies(pod, run, step), true;
    }
    ghost var h2 := store.Now();
    IsolatedAdvances(h0, h2, scope);
    if Free(h0) {
      StaysFree(h0, h2);
    }
    safe := RemovePod(store, report, pod, owned, scope);
    IsolatedTransitive(h0, h2, store.Now(), scope);
  }

  /** Deletes a validated active Pod and reads whether it is gone. */
  method RemovePod(store: ObjectStore, report: Report, pod: Obj, owned: bool, ghost scope: Uid) returns (safe: bool)
    requires store.Valid() && report.Valid() && pod in store.seen && InScope(pod.run, scope) && pod.uid != ""
    requires (owned || !report.Clean()) && !Finished(pod)
    requires pod.key in store.world.objs ==> !Finished(store.world.objs[pod.key])
    modifies store, report
    ensures store.Valid() && Isolated(old(store.Now()), store.Now(), scope)
    ensures report.Valid() && (report.Clean() ==> old(report.Clean()) && safe)
    ensures old(store.Now().quiet) ==> SameExcept(old(store.world), store.world, pod.key)
    ensures old(store.Now().quiet) && safe ==> PodSettled(store.world, pod.key)
    ensures Free(old(store.Now())) ==> report.Untouched()
    ensures old(store.Now().quiet) ==> Touched(old(store.world), store.world, {})
    ensures old(store.Now().quiet) && safe ==> pod.key !in store.world.objs
    ensures Steady(old(store.Now())) && StillAs(old(store.world), pod) ==> report.errors == old(report.errors)
  {
    hide Sound, SingleController, Shrunk, InScope, Isolated, WasStored;
    ghost var h0 := store.Now();
    var ok := store.Delete(pod.key, pod.uid);
    ghost var h1 := store.Now();
    DeleteIsIsolated(pod, h0, h1, scope);
    if !ok {
      report.RecordFailure(DeleteFailed, pod.key);
      return false;
    }
    if Free(h0) {
      StaysFree(h0, h1);
    }
    var again := store.Get(pod.key);
    ReadingIsIsolated(h1, store.Now(), scope);
    IsolatedTransitive(h0, h1, store.Now(), scope);
    match again
    case GetFailed =>
      report.RecordUnverified(RemovalUnknown, pod.key);
      return false;
    case Found(o) =>
      report.RecordPending(if o.uid != pod.uid then ReplacementFound else StillActive, pod.key);
      return false;
    case NotFound =>
      return owned;
  }
}
