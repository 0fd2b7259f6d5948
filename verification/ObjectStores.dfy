/** The hub API server as one cleanup pass sees it: before any request other clients may
    create, replace, relabel and delete objects, and any request may fail. */
module ObjectStores {
  import opened Conditions
  import opened Objects

  type Objs = map<Key, Obj>

  const OPTIONAL_KINDS: set<Kind> := {Claim, Sandbox, WarmPool}

  /** What is stored, and which resource types are installed. */
  datatype World = World(objs: Objs, installed: set<Kind>)

  datatype Change = Store(o: Obj) | Remove(key: Key) | Install(kind: Kind) | Uninstall(kind: Kind)

  /** Unserved: the resource type is not mapped. LostReply: the request took effect, but its
      caller sees a failure. */
  datatype Fault = NoFault | Unserved | Unavailable | LostReply

  /** What others do before one request, and how the request fares. */
  datatype Turn = Turn(changes: seq<Change>, fault: Fault)

  datatype Listing = Items(items: seq<Obj>) | NotServed | ListFailed

  datatype Found = Found(o: Obj) | NotFound | GetFailed

  /** An object has at most one controller. */
  predicate SingleController(o: Obj) {
    forall i, j :: 0 <= i < |o.owners| && 0 <= j < |o.owners| && o.owners[i].controller && o.owners[j].controller ==> i == j
  }

  /** What the API server guarantees of everything it stores. */
  predicate Sound(w: World) {
    && (forall k :: k in w.objs ==> w.objs[k].key == k && SingleController(w.objs[k]))
    && (forall k, l :: k in w.objs && l in w.objs && w.objs[k].uid == w.objs[l].uid != "" ==> k == l)
    && (forall k :: k in w.objs && k.kind in OPTIONAL_KINDS ==> k.kind in w.installed)
  }

  function Changed(w: World, c: Change): World {
    match c
    case Store(o) => w.(objs := w.objs[o.key := o])
    case Remove(key) => w.(objs := w.objs - {key})
    case Install(kind) => w.(installed := w.installed + {kind})
    case Uninstall(kind) => World(map k | k in w.objs && k.kind != kind :: w.objs[k], w.installed - {kind})
  }

  /** The server refuses a change that would break what it guarantees. */
  function Admitted(w: World, c: Change): (after: World)
    requires Sound(w)
    ensures Sound(after)
  {
    if Sound(Changed(w, c)) then Changed(w, c) else w
  }

  /** Whether a list request selects o: it may be limited to one namespace and to the objects
      labelled for a scope. */
  predicate Selected(o: Obj, kind: Kind, namespace: Option<string>, scope: Option<Uid>) {
    o.key.kind == kind &&
    (namespace.Some? ==> o.key.namespace == namespace.value) &&
    (scope.Some? ==> InScope(o.run, scope.value))
  }

  /** items are exactly the selected objects of w, each once. */
  ghost predicate Lists(w: World, items: seq<Obj>, kind: Kind, namespace: Option<string>, scope: Option<Uid>) {
    && (forall o :: o in items ==> o.key in w.objs && w.objs[o.key] == o && Selected(o, kind, namespace, scope))
    && (forall k :: k in w.objs && Selected(w.objs[k], kind, namespace, scope) ==> w.objs[k] in items)
    && (forall i, j :: 0 <= i < j < |items| ==> items[i].key != items[j].key)
  }

  /** b is a with identity labels filled in where a had none. */
  predicate Labelled(a: Obj, b: Obj) {
    b == a.(run := b.run, step := b.step, version := b.version) &&
    (a.run != "" ==> b.run == a.run) && (a.step != "" ==> b.step == a.step)
  }

  /** Nothing was added; what remains is what was there, at most labelled. */
  ghost predicate Shrunk(a: World, b: World) {
    b.installed == a.installed &&
    forall k :: k in b.objs ==> k in a.objs && Labelled(a.objs[k], b.objs[k])
  }

  ghost predicate SameExcept(a: World, b: World, key: Key) {
    forall k :: k != key ==> (k in a.objs <==> k in b.objs) && (k in a.objs && k in b.objs ==> a.objs[k] == b.objs[k])
  }

  /** Outside these keys, what is still there is as it was. */
  ghost predicate Touched(a: World, b: World, keys: set<Key>) {
    forall k :: k in b.objs && k !in keys ==> k in a.objs && b.objs[k] == a.objs[k]
  }

  lemma Untouched(a: World, keys: set<Key>)
    ensures Touched(a, a, keys)
  {
  }

  lemma TouchedTransitive(a: World, b: World, c: World, first: set<Key>, second: set<Key>)
    requires Touched(a, b, first) && Touched(b, c, second)
    ensures Touched(a, c, first + second)
  {
  }

  lemma TouchedNeither(a: World, b: World, c: World)
    requires Touched(a, b, {}) && Touched(b, c, {})
    ensures Touched(a, c, {})
  {
  }

  lemma ShrunkReflexive(a: World)
    ensures Shrunk(a, a)
  {
  }

  lemma ShrunkTransitive(a: World, b: World, c: World)
    requires Shrunk(a, b) && Shrunk(b, c)
    ensures Shrunk(a, c)
  {
  }

  lemma Unchanged(w: World, key: Key)
    ensures Shrunk(w, w) && SameExcept(w, w, key) && Touched(w, w, {})
  {
  }

  lemma RemovalKeeps(w: World, key: Key)
    requires Sound(w)
    ensures var v := w.(objs := w.objs - {key});
            Sound(v) && Shrunk(w, v) && SameExcept(w, v, key) && Touched(w, v, {})
  {
    hide SingleController;
  }

  function Relabel(w: World, o: Obj, run: string, step: string): World {
    w.(objs := w.objs[o.key := o.(run := run, step := step, version := o.version + 1)])
  }

  lemma SoundKeys(w: World)
    requires Sound(w)
    ensures forall k :: k in w.objs ==> w.objs[k].key == k
  {
  }

  lemma RelabelKeeps(w: World, o: Obj, run: string, step: string)
    requires Sound(w) && o.key in w.objs && w.objs[o.key] == o
    requires (o.run == "" || o.run == run) && (o.step == "" || o.step == step)
    ensures Sound(Relabel(w, o, run, step)) && Shrunk(w, Relabel(w, o, run, step)) && SameExcept(w, Relabel(w, o, run, step), o.key)
  {
    assert Labelled(o, Relabel(w, o, run, step).objs[o.key]);
    assert SingleController(o);
  }

  /** A delete that took effect: on what, and after how many instants of the past. */
  datatype Deletion = Deletion(o: Obj, at: nat)

  /** quiet: other clients leave the objects alone from here on, although requests may still
      fail; sure: none of them fails. past: the world at every request and after every label patch so far, in order. seen:
      every object version stored at one of these instants. deletions, relabels: the stored
      versions that a delete or a label patch took effect on. */
  datatype History = History(
    world: World,
    quiet: bool,
    sure: bool,
    past: seq<World>,
    seen: set<Obj>,
    deletions: seq<Deletion>,
    relabels: seq<Obj>)

  /** History only grows, and a quiet environment stays quiet. */
  ghost predicate Advanced(a: History, b: History) {
    && a.past <= b.past && a.seen <= b.seen && a.deletions <= b.deletions && a.relabels <= b.relabels
    && (a.quiet ==> b.quiet && Shrunk(a.world, b.world)) && (a.sure ==> b.sure)
  }

  /** Nobody else writes, and no request fails. */
  ghost predicate Steady(h: History) {
    h.quiet && h.sure
  }

  /** Requests that change nothing themselves. */
  ghost predicate OnlyRead(a: History, b: History) {
    && a.past <= b.past && a.seen <= b.seen && a.deletions == b.deletions && a.relabels == b.relabels
    && (a.quiet ==> b.quiet && b.world == a.world && forall i :: |a.past| <= i < |b.past| ==> b.past[i] == a.world)
    && (a.sure ==> b.sure)
  }

  lemma AdvancedTransitive(a: History, b: History, c: History)
    requires Advanced(a, b) && Advanced(b, c)
    ensures Advanced(a, c)
  {
  }

  lemma OnlyReadTransitive(a: History, b: History, c: History)
    requires OnlyRead(a, b) && OnlyRead(b, c)
    ensures OnlyRead(a, c)
  {
  }

  /** This version was stored at some instant. */
  ghost predicate WasStored(o: Obj, past: seq<World>) {
    exists p: nat :: p < |past| && StoredAt(past[p], o)
  }

  ghost predicate StoredAt(w: World, o: Obj) {
    o.key in w.objs && w.objs[o.key] == o
  }

  lemma StaysStored(seen: set<Obj>, past: seq<World>, w: World)
    requires forall o :: o in seen ==> WasStored(o, past)
    requires forall k :: k in w.objs ==> w.objs[k].key == k
    ensures forall o :: o in seen + w.objs.Values ==> WasStored(o, past + [w])
  {
    hide WasStored;
    forall o | o in seen + w.objs.Values
      ensures WasStored(o, past + [w])
    {
      if o in seen {
        StoredLonger(o, past, [w]);
      } else {
        StoredLast(o, past, w);
      }
    }
  }

  lemma StoredLonger(o: Obj, past: seq<World>, more: seq<World>)
    requires WasStored(o, past)
    ensures WasStored(o, past + more)
  {
    var p: nat :| p < |past| && StoredAt(past[p], o);
    assert (past + more)[p] == past[p];
  }

  lemma StoredLast(o: Obj, past: seq<World>, w: World)
    requires StoredAt(w, o)
    ensures WasStored(o, past + [w])
  {
    assert (past + [w])[|past|] == w;
  }

  class ObjectStore {
    var world: World
    var script: seq<Turn>
    ghost var past: seq<World>
    ghost var seen: set<Obj>
    ghost var deletions: seq<Deletion>
    ghost var relabels: seq<Obj>

    ghost predicate Valid()
      reads this
    {
      Sound(world) && (forall k :: k in world.objs ==> world.objs[k] in seen) && forall o :: o in seen ==> WasStored(o, past)
    }

    ghost function Now(): History
      reads this
    {
      History(world, forall t :: t in script ==> t.changes == [], forall t :: t in script ==> t.fault == NoFault, past, seen, deletions, relabels)
    }

    constructor (script: seq<Turn>)
      ensures Valid() && this.script == script && world == World(map[], {}) && deletions == [] && relabels == []
    {
      this.script := script;
      world := World(map[], {});
      past := [];
      seen := {};
      deletions := [];
      relabels := [];
    }

    /** Everyone else's requests up to the next one of this pass. */
    method Interleave() returns (fault: Fault)
      requires Valid()
      modifies this
      ensures Valid() && OnlyRead(old(Now()), Now())
      ensures past == old(past) + [world]
      ensures old(Now()).sure ==> fault == NoFault
    {
      hide SingleController, WasStored;
      fault := NoFault;
      if script != [] {
        var turn := script[0];
        assert turn in script;
        fault := turn.fault;
        for i := 0 to |turn.changes|
          invariant Sound(world) && seen == old(seen)
          invariant past == old(past) && script == old(script) && deletions == old(deletions) && relabels == old(relabels)
          invariant turn.changes == [] ==> world == old(world)
        {
          world := Admitted(world, turn.changes[i]);
        }
        script := script[1..];
      }
      StaysStored(seen, past, world);
      seen := seen + world.objs.Values;
      past := past + [world];
    }

    method List(kind: Kind, namespace: Option<string>, scope: Option<Uid>) returns (r: Listing)
      requires Valid()
      modifies this
      ensures Valid() && OnlyRead(old(Now()), Now())
      ensures past == old(past) + [world]
      ensures r.Items? ==> Lists(world, r.items, kind, namespace, scope) && forall o :: o in r.items ==> o in seen
      ensures old(Now()).sure ==> r.Items? || (r.NotServed? && kind in OPTIONAL_KINDS && kind !in world.installed)
    {
      var fault := Interleave();
      if fault == Unavailable || fault == LostReply {
        return ListFailed;
      }
      if fault == Unserved || (kind in OPTIONAL_KINDS && kind !in world.installed) {
        return NotServed;
      }
      var items := Collect(kind, namespace, scope);
      return Items(items);
    }

    method Collect(kind: Kind, namespace: Option<string>, scope: Option<Uid>) returns (items: seq<Obj>)
      requires Valid()
      ensures Lists(world, items, kind, namespace, scope) && forall o :: o in items ==> o in seen
    {
      hide SingleController, WasStored;
      items := [];
      var left := world.objs.Keys;
      while left != {}
        invariant left <= world.objs.Keys
        invariant forall o :: o in items ==>
          o in seen && o.key in world.objs && world.objs[o.key] == o && Selected(o, kind, namespace, scope) && o.key !in left
        invariant forall k :: k in world.objs && k !in left && Selected(world.objs[k], kind, namespace, scope) ==> world.objs[k] in items
        invariant forall i, j :: 0 <= i < j < |items| ==> items[i].key != items[j].key
        decreases |left|
      {
        var k :| k in left;
        left := left - {k};
        if Selected(world.objs[k], kind, namespace, scope) {
          items := items + [world.objs[k]];
        }
      }
    }

    method Get(key: Key) returns (r: Found)
      requires Valid()
      modifies this
      ensures Valid() && OnlyRead(old(Now()), Now())
      ensures r.Found? ==> key in world.objs && r.o == world.objs[key] && r.o.key == key && r.o in seen
      ensures r.NotFound? ==> key !in world.objs
      ensures old(Now()).sure ==> !r.GetFailed?
    {
      var fault := Interleave();
      if fault != NoFault {
        return GetFailed;
      }
      return if key in world.objs then Found(world.objs[key]) else NotFound;
    }

    /** Reads the definition of an optional resource type. NotFound proves that none is installed. */
    method Defined(kind: Kind) returns (installed: Option<bool>)
      requires Valid() && kind in OPTIONAL_KINDS
      modifies this
      ensures Valid() && OnlyRead(old(Now()), Now())
      ensures past == old(past) + [world]
      ensures installed == Some(false) ==> forall k :: k in world.objs ==> k.kind != kind
      ensures old(Now()).sure ==> installed == Some(kind in world.installed)
    {
      var fault := Interleave();
      if fault != NoFault {
        return None;
      }
      return Some(kind in world.installed);
    }

    /** The last deletion was of o, as stored at the last instant. */
    static ghost predicate Deleted(before: seq<Deletion>, now: seq<Deletion>, past: seq<World>, o: Obj) {
      now == before + [Deletion(o, |past|)] && past != [] && StoredAt(past[|past| - 1], o)
    }

    /** Deletes the object of this key and UID; one with finalizers only starts terminating.
        A missing object is success, another UID under the key is not. */
    method Delete(key: Key, uid: Uid) returns (ok: bool)
      requires Valid() && uid != ""
      modifies this
      ensures Valid() && Advanced(old(Now()), Now()) && relabels == old(relabels)
      ensures deletions == old(deletions) || exists o :: Deleted(old(deletions), deletions, past, o) && o.key == key && o.uid == uid
      ensures |old(past)| < |past|
      ensures old(Now().quiet) ==> SameExcept(old(world), world, key)
      ensures ok ==> key in world.objs ==> world.objs[key].held
      ensures old(Now().quiet) ==> Touched(old(world), world, {})
      ensures Steady(old(Now())) && (key in old(world).objs ==> old(world).objs[key].uid == uid) ==> ok
    {
      hide Sound, Shrunk, SameExcept, Touched, WasStored;
      Unchanged(world, key);
      var fault := Interleave();
      if fault == Unserved || fault == Unavailable {
        return false;
      }
      if key !in world.objs {
        return fault == NoFault;
      }
      if world.objs[key].uid != uid {
        return false;
      }
      SoundKeys(world);
      deletions := deletions + [Deletion(world.objs[key], |past|)];
      assert Deleted(old(deletions), deletions, past, world.objs[key]);
      if !world.objs[key].held {
        RemovalKeeps(world, key);
        world := world.(objs := world.objs - {key});
      }
      return fault == NoFault;
    }

    /** Sets both identity labels on the exact version read. */
    method PatchLabels(read: Obj, run: string, step: string) returns (ok: bool)
      requires Valid() && run != "" && step != ""
      requires (read.run == "" || read.run == run) && (read.step == "" || read.step == step)
      modifies this
      ensures Valid() && Advanced(old(Now()), Now()) && deletions == old(deletions)
      ensures relabels == old(relabels) || relabels == old(relabels) + [read]
      ensures old(Now().quiet) ==> SameExcept(old(world), world, read.key) && world.objs.Keys == old(world).objs.Keys
    {
      hide Sound, SingleController, Shrunk, Labelled, WasStored;
      ShrunkReflexive(world);
      var fault := Interleave();
      if fault == Unserved || fault == Unavailable || read.key !in world.objs || world.objs[read.key] != read {
        return false;
      }
      RelabelKeeps(world, read, run, step);
      relabels := relabels + [read];
      world := Relabel(world, read, run, step);
      SoundKeys(world);
      StaysStored(seen, past, world);
      seen := seen + world.objs.Values;
      past := past + [world];
      return fault == NoFault;
    }
  }
}
