/** Temporary reader access of one sandbox account: a binding of its own for every discovered
    reader binding, all of them or none. */
module ReaderAccess {
  import opened Conditions
  import opened Objects
  import Launch = Creation

  datatype Subject = Account(name: string, namespace: string) | OtherSubject(text: string)

  /** A ClusterRoleBinding; absent labels are empty. */
  datatype Binding = Binding(roleRef: string, subjects: seq<Subject>, run: string, step: string, component: string)

  type Bindings = map<string, Binding>

  /** LostReply: the request took effect, but its caller sees a failure. */
  datatype Fault = NoFault | Refused | LostReply

  datatype Found = Found(b: Binding) | NotFound | GetFailed

  datatype Creation = Created | AlreadyExists | CreateFailed

  class RbacStore {
    var bindings: Bindings
    var faults: seq<Fault>
    /** Names whose create took effect although it was reported as failed, and names whose
        delete failed. */
    ghost var lost: set<string>
    ghost var undeleted: set<string>

    constructor (bindings: Bindings, faults: seq<Fault>)
      ensures this.bindings == bindings && this.faults == faults && lost == {} && undeleted == {}
    {
      this.bindings := bindings;
      this.faults := faults;
      lost := {};
      undeleted := {};
    }

    method Fare() returns (fault: Fault)
      modifies this`faults
      ensures old(faults) == [] ==> fault == NoFault && faults == []
    {
      if faults == [] {
        return NoFault;
      }
      fault := faults[0];
      faults := faults[1..];
    }

    method Get(name: string) returns (r: Found)
      modifies this`faults
      ensures r.Found? ==> name in bindings && r.b == bindings[name]
      ensures r.NotFound? ==> name !in bindings
      ensures old(faults) == [] ==> faults == [] && r != GetFailed
    {
      var fault := Fare();
      if fault != NoFault {
        return GetFailed;
      }
      return if name in bindings then Found(bindings[name]) else NotFound;
    }

    method List() returns (r: Option<Bindings>)
      modifies this`faults
      ensures r.Some? ==> r.value == bindings
      ensures old(faults) == [] ==> faults == [] && r.Some?
    {
      var fault := Fare();
      return if fault == NoFault then Some(bindings) else None;
    }

    method Create(name: string, b: Binding) returns (r: Creation)
      modifies this`bindings, this`faults, this`lost
      ensures r == Created ==> name !in old(bindings) && bindings == old(bindings)[name := b] && lost == old(lost)
      ensures r == AlreadyExists ==> name in bindings && bindings == old(bindings) && lost == old(lost)
      ensures r == CreateFailed ==>
                (bindings == old(bindings) && lost == old(lost)) ||
                (name !in old(bindings) && bindings == old(bindings)[name := b] && lost == old(lost) + {name})
      ensures old(faults) == [] ==> faults == [] && r != CreateFailed
    {
      var fault := Fare();
      if fault == Refused {
        return CreateFailed;
      }
      if name in bindings {
        return if fault == NoFault then AlreadyExists else CreateFailed;
      }
      bindings := bindings[name := b];
      if fault == LostReply {
        lost := lost + {name};
        return CreateFailed;
      }
      return Created;
    }

    /** A missing binding is success. */
    method Delete(name: string) returns (ok: bool)
      modifies this`bindings, this`faults, this`undeleted
      ensures ok ==> bindings == old(bindings) - {name} && undeleted == old(undeleted)
      ensures !ok ==>
                undeleted == old(undeleted) + {name} && (bindings == old(bindings) || bindings == old(bindings) - {name})
      ensures old(faults) == [] ==> faults == [] && ok
    {
      var fault := Fare();
      if fault == Refused {
        undeleted := undeleted + {name};
        return false;
      }
      bindings := bindings - {name};
      if fault == LostReply {
        undeleted := undeleted + {name};
        return false;
      }
      return true;
    }
  }

  // ---------------------------------------------------------------------------
  // What is granted
  // ---------------------------------------------------------------------------

  /** Whom access is granted to, and how the per-run bindings are named. digest stands for the
      hash of a source's name. */
  datatype Grant = Grant(run: string, step: string, account: string, namespace: string, digest: string -> string) {
    function Name(source: string): string {
      TruncateName("ls-reader-" + StepAbbrev(step) + "-" + run + "-" + digest(source))
    }

    function For(source: Binding): Binding {
      Binding(source.roleRef, [Account(account, namespace)], run, step, READER_RBAC)
    }

    /** A binding of this very run and step. */
    predicate Owns(b: Binding) {
      b.run == run && b.step == step && b.component == "reader-rbac"
    }

    /** This source's role is granted to this account and to nobody else. */
    predicate Granted(now: Bindings, sources: Bindings, source: string) {
      source in sources && Name(source) in now &&
      now[Name(source)].roleRef == sources[source].roleRef && now[Name(source)].subjects == [Account(account, namespace)]
    }

    /** Sources whose bindings share a name grant the same role. */
    predicate NamesAgree(sources: Bindings, names: seq<string>) {
      forall s, t :: s in names && t in names && s in sources && t in sources && Name(s) == Name(t) ==>
        sources[s].roleRef == sources[t].roleRef
    }

    /** No per-run binding bears the name of a source. */
    predicate Apart(names: seq<string>) {
      forall s, t :: s in names && t in names ==> Name(s) != t
    }

    predicate NameOf(names: seq<string>, n: string) {
      exists s :: s in names && Name(s) == n
    }

    /** Bindings that are not this run's own are left as they were, and nothing outside the
        per-run names is touched at all. */
    ghost predicate OthersKept(before: Bindings, now: Bindings, names: seq<string>) {
      && (forall n :: n in before && !Owns(before[n]) ==> n in now && now[n] == before[n])
      && (forall n :: !NameOf(names, n) ==> (n in now <==> n in before) && (n in now && n in before ==> now[n] == before[n]))
    }

    /** The per-run name of this source is taken by a binding of someone else that does not grant
        the same. */
    predicate Blocked(now: Bindings, source: string) {
      && source in now && Name(source) in now && !Owns(now[Name(source)])
      && !(now[Name(source)].roleRef == now[source].roleRef && now[Name(source)].subjects == [Account(account, namespace)])
    }

    /** What is new or different is this run's own. */
    ghost predicate NewIsOwn(before: Bindings, now: Bindings) {
      forall n :: n in now && !Owns(now[n]) ==> n in before && now[n] == before[n]
    }

    /** What is new or different is accounted for. */
    ghost predicate ChangesIn(before: Bindings, now: Bindings, accounted: set<string>) {
      forall n :: n in now && (n !in before || now[n] != before[n]) ==> n in accounted
    }
  }

  /** Digests have eight characters; run UIDs of up to forty leave room for them. */
  predicate Untruncated(g: Grant, source: string) {
    StepAllowed(g.step) && |g.run| <= 40 && |g.digest(source)| == 8
  }

  lemma NameParts(g: Grant, source: string)
    requires Untruncated(g, source)
    ensures var name := g.Name(source);
            && |name| == 23 + |g.run|
            && name[..10] == "ls-reader-" && name[10..13] == StepAbbrev(g.step) && name[14..14 + |g.run|] == g.run
            && name[15 + |g.run|..] == g.digest(source)
  {
    var head := "ls-reader-" + StepAbbrev(g.step) + "-";
    var name := g.Name(source);
    assert name == head + g.run + "-" + g.digest(source);
    assert |head| == 14 && name[..14] == head;
    assert name[10..13] == head[10..13];
    assert name[14..14 + |g.run|] == g.run;
    assert name[15 + |g.run|..] == g.digest(source);
  }

  /** A per-run binding is named by exactly its step, its run and the digest of its source: neither
      two runs, nor two steps, nor sources of different digests ever share one. */
  lemma NamesIdentify(g: Grant, h: Grant, s: string, t: string)
    requires Untruncated(g, s) && Untruncated(h, t)
    ensures g.Name(s) == h.Name(t) <==> g.step == h.step && g.run == h.run && g.digest(s) == h.digest(t)
  {
    hide Grant.Name, StepAbbrev;
    NameParts(g, s);
    NameParts(h, t);
    if g.step != h.step {
      Launch.AbbreviationsDiffer(g.step, h.step);
    }
    if g.step == h.step && g.run == h.run && g.digest(s) == h.digest(t) {
      SameName(g, h, s, t);
    }
  }

  /** So where digests tell the sources apart, sources that share a name grant the same role. */
  lemma DistinctDigestsAgree(g: Grant, sources: Bindings, names: seq<string>)
    requires forall s :: s in names ==> Untruncated(g, s)
    requires forall s, t :: s in names && t in names && g.digest(s) == g.digest(t) ==> s == t
    ensures g.NamesAgree(sources, names)
  {
    hide Grant.Name, Untruncated;
    forall s, t | s in names && t in names && g.Name(s) == g.Name(t)
      ensures s == t
    {
      NamesIdentify(g, g, s, t);
    }
  }

  lemma SameName(g: Grant, h: Grant, s: string, t: string)
    requires g.step == h.step && g.run == h.run && g.digest(s) == h.digest(t)
    ensures g.Name(s) == h.Name(t)
  {
  }

  /** Stale: a source was not there any more. */
  datatype Result = GrantOk | GrantStale | GrantFailed

  // ---------------------------------------------------------------------------
  // All or nothing
  // ---------------------------------------------------------------------------

  /** Deletes what the call created; failures are only noted. */
  method Rollback(store: RbacStore, g: Grant, created: seq<string>, ghost before: Bindings, ghost names: seq<string>)
    requires forall n :: n in created ==> g.NameOf(names, n) && (n !in before || g.Owns(before[n]))
    requires g.OthersKept(before, store.bindings, names)
    modifies store`bindings, store`faults, store`undeleted
    ensures g.OthersKept(before, store.bindings, names)
    ensures old(store.undeleted) <= store.undeleted
    ensures forall n :: n in store.bindings ==> n in old(store.bindings) && store.bindings[n] == old(store.bindings)[n]
    ensures forall n :: n in created && n in store.bindings ==> n in store.undeleted
    ensures old(store.faults) == [] ==> store.faults == []
  {
    for i := 0 to |created|
      invariant g.OthersKept(before, store.bindings, names)
      invariant old(store.undeleted) <= store.undeleted
      invariant forall n :: n in store.bindings ==> n in old(store.bindings) && store.bindings[n] == old(store.bindings)[n]
      invariant forall n :: n in created[..i] && n in store.bindings ==> n in store.undeleted
      invariant old(store.faults) == [] ==> store.faults == []
    {
      assert created[i] in created;
      var _ := store.Delete(created[i]);
    }
    assert created[..|created|] == created;
  }

  /** Grants one source; changed tells that the per-run binding is this call's own work. */
  method GrantSource(store: RbacStore, g: Grant, source: string, ghost names: seq<string>)
    returns (r: Result, changed: bool)
    requires source in names
    modifies store`bindings, store`faults, store`lost, store`undeleted
    ensures old(store.lost) <= store.lost && old(store.undeleted) <= store.undeleted
    ensures forall n :: n != g.Name(source) ==>
              (n in store.bindings <==> n in old(store.bindings)) &&
              (n in store.bindings && n in old(store.bindings) ==> store.bindings[n] == old(store.bindings)[n])
    ensures var n := g.Name(source);
            n in old(store.bindings) && !g.Owns(old(store.bindings)[n]) ==> store.bindings == old(store.bindings) && !changed
    ensures r == GrantOk && !changed ==> store.bindings == old(store.bindings)
    ensures r == GrantOk ==> source in old(store.bindings) && g.Granted(store.bindings, old(store.bindings), source)
    ensures r != GrantOk && g.Name(source) in store.bindings ==>
              (g.Name(source) in old(store.bindings) && store.bindings[g.Name(source)] == old(store.bindings)[g.Name(source)]) ||
              g.Name(source) in store.lost
    ensures g.NewIsOwn(old(store.bindings), store.bindings)
    ensures old(store.faults) == [] ==>
              && store.faults == [] && (r == GrantStale <==> source !in old(store.bindings))
              && (r == GrantFailed <==> g.Blocked(old(store.bindings), source))
  {
    changed := false;
    var found := store.Get(source);
    if !found.Found? {
      return if found.NotFound? then GrantStale else GrantFailed, false;
    }
    var name, binding := g.Name(source), g.For(found.b);
    var creation := store.Create(name, binding);
    if creation == CreateFailed {
      return GrantFailed, false;
    }
    if creation == Created {
      return GrantOk, true;
    }
    var existing := store.Get(name);
    if !existing.Found? {
      return GrantFailed, false;
    }
    if existing.b.roleRef == binding.roleRef && existing.b.subjects == binding.subjects {
      return GrantOk, false;
    }
    if existing.b.run != g.run || existing.b.step != g.step || existing.b.component != READER_RBAC {
      return GrantFailed, false;
    }
    var deleted := store.Delete(name);
    if !deleted {
      return GrantFailed, false;
    }
    var again := store.Create(name, binding);
    return if again == Created then GrantOk else GrantFailed, again == Created;
  }

  /** Where the loop stands after the first i sources. */
  ghost predicate Progress(g: Grant, before: Bindings, now: Bindings, created: seq<string>, lost: set<string>, names: seq<string>, i: nat)
    requires i <= |names|
  {
    && g.OthersKept(before, now, names)
    && g.ChangesIn(before, now, Names(created) + lost)
    && (forall n :: n in created ==> g.NameOf(names, n) && (n !in before || g.Owns(before[n])))
    && (g.Apart(names) ==> forall j :: 0 <= j < i ==> names[j] in before)
    && (g.Apart(names) && g.NamesAgree(before, names) ==> forall j :: 0 <= j < i ==> g.Granted(now, before, names[j]))
  }

  /** What one successful source does to the bindings. */
  ghost predicate Stepped(g: Grant, a: Bindings, b: Bindings, source: string, changed: bool) {
    && (forall n :: n != g.Name(source) ==> (n in b <==> n in a) && (n in b && n in a ==> b[n] == a[n]))
    && (g.Name(source) in a && !g.Owns(a[g.Name(source)]) ==> b == a && !changed)
    && (!changed ==> b == a)
    && source in a && g.Granted(b, a, source)
  }

  lemma SourcesStand(g: Grant, before: Bindings, now: Bindings, names: seq<string>, source: string)
    requires g.OthersKept(before, now, names) && g.Apart(names) && source in names
    ensures source in now <==> source in before
    ensures source in now ==> now[source] == before[source]
  {
    hide Grant.Name;
    assert !g.NameOf(names, source);
  }

  /** What one source changes stays within the per-run names and is accounted for. */
  lemma StepStaysWithin(g: Grant, before: Bindings, a: Bindings, b: Bindings, accounted: set<string>, names: seq<string>, source: string,
                        changed: bool)
    requires source in names && Stepped(g, a, b, source, changed) && g.OthersKept(before, a, names)
    requires g.ChangesIn(before, a, accounted)
    ensures g.OthersKept(before, b, names)
    ensures g.ChangesIn(before, b, if changed then accounted + {g.Name(source)} else accounted)
    ensures changed ==> g.NameOf(names, g.Name(source)) && (g.Name(source) !in before || g.Owns(before[g.Name(source)]))
  {
    hide Grant.Name, Grant.Granted, Grant.Owns;
    assert g.NameOf(names, g.Name(source));
  }

  /** A source granted earlier stays granted, given that colliding names agree. */
  lemma StaysGranted(g: Grant, before: Bindings, a: Bindings, b: Bindings, names: seq<string>, earlier: string, source: string, changed: bool)
    requires g.Apart(names) && g.NamesAgree(before, names) && source in names && earlier in names
    requires g.OthersKept(before, a, names) && Stepped(g, a, b, source, changed) && g.Granted(a, before, earlier)
    ensures g.Granted(b, before, earlier)
  {
    hide Grant.Name, Grant.Owns, Grant.OthersKept;
    SourcesStand(g, before, a, names, source);
  }

  lemma StepProgresses(g: Grant, before: Bindings, a: Bindings, b: Bindings, created: seq<string>, lostBefore: set<string>,
                       lost: set<string>, names: seq<string>, i: nat, changed: bool)
    requires i < |names| && Progress(g, before, a, created, lostBefore, names, i) && lostBefore <= lost
    requires Stepped(g, a, b, names[i], changed)
    ensures Progress(g, before, b, if changed then created + [g.Name(names[i])] else created, lost, names, i + 1)
  {
    hide Grant.Name, Grant.Owns, Grant.OthersKept, Grant.NameOf, Grant.Granted, Grant.NamesAgree;
    var source := names[i];
    StepStaysWithin(g, before, a, b, Names(created) + lost, names, source, changed);
    var after := if changed then created + [g.Name(source)] else created;
    assert Names(after) + lost == if changed then Names(created) + lost + {g.Name(source)} else Names(created) + lost;
    if g.Apart(names) {
      SourcesStand(g, before, a, names, source);
      GrantedAgainst(g, b, a, before, source);
      if g.NamesAgree(before, names) {
        forall j | 0 <= j < i
          ensures g.Granted(b, before, names[j])
        {
          StaysGranted(g, before, a, b, names, names[j], source, changed);
        }
      }
    }
  }

  lemma GrantedAgainst(g: Grant, now: Bindings, a: Bindings, before: Bindings, source: string)
    requires g.Granted(now, a, source) && source in before && a[source] == before[source]
    ensures g.Granted(now, before, source)
  {
  }

  /** What stands in the way of granting these sources: one is missing, or the name of one's
      per-run binding is someone else's. */
  ghost predicate Hindered(g: Grant, before: Bindings, names: seq<string>) {
    exists s :: s in names && (s !in before || (g.Name(s) in before && !g.Owns(before[g.Name(s)])))
  }

  lemma HinderedBy(g: Grant, before: Bindings, a: Bindings, names: seq<string>, source: string)
    requires source in names && g.Apart(names) && g.OthersKept(before, a, names) && g.NewIsOwn(before, a)
    requires source !in a || g.Blocked(a, source)
    ensures Hindered(g, before, names)
  {
    hide Grant.Name, Grant.Owns, Grant.OthersKept;
    SourcesStand(g, before, a, names, source);
  }

  lemma OwnTransitive(g: Grant, a: Bindings, b: Bindings, c: Bindings)
    requires g.NewIsOwn(a, b) && g.NewIsOwn(b, c)
    ensures g.NewIsOwn(a, c)
  {
    hide Grant.Owns;
  }

  /** Every named source is granted, or nothing this call created is left, except where a create
      or a rollback delete was itself reported wrongly or refused. When it succeeds, every
      source is granted if and only if sources whose bindings share a name grant one role. Where
      no request fails, it only fails for a missing source or a name that is taken. */
  method AddReaderSubjectForBindings(store: RbacStore, g: Grant, names: seq<string>) returns (r: Result)
    modifies store`bindings, store`faults, store`lost, store`undeleted
    ensures g.OthersKept(old(store.bindings), store.bindings, names)
    ensures r != GrantOk ==> g.ChangesIn(old(store.bindings), store.bindings, store.lost + store.undeleted)
    ensures r == GrantOk && g.Apart(names) ==>
              ((forall s :: s in names ==> g.Granted(store.bindings, old(store.bindings), s)) <==>
               g.NamesAgree(old(store.bindings), names))
    ensures old(store.faults) == [] ==> store.faults == []
    ensures old(store.faults) == [] && r != GrantOk && g.Apart(names) ==> Hindered(g, old(store.bindings), names)
    ensures old(store.faults) == [] && r == GrantStale && g.Apart(names) ==> exists s :: s in names && s !in old(store.bindings)
  {
    hide Grant.NewIsOwn, Grant.Blocked, Hindered, Grant.Name, Grant.OthersKept, Grant.ChangesIn, Grant.Granted, Grant.Owns, Progress;
    ghost var before := store.bindings;
    var created: seq<string> := [];
    NothingYet(g, before, store.lost, names);
    OwnAtFirst(g, before);
    for i := 0 to |names|
      invariant Progress(g, before, store.bindings, created, store.lost, names, i)
      invariant g.NewIsOwn(before, store.bindings) && (old(store.faults) == [] ==> store.faults == [])
    {
      ghost var a, lostBefore := store.bindings, store.lost;
      var changed;
      r, changed := GrantSource(store, g, names[i], names);
      if r != GrantOk {
        if old(store.faults) == [] && g.Apart(names) {
          ProgressKeepsOthers(g, before, a, created, lostBefore, names, i);
          HinderedBy(g, before, a, names, names[i]);
          SourcesStand(g, before, a, names, names[i]);
        }
        FailedKeeps(g, before, a, store.bindings, created, lostBefore, store.lost, names, i);
        ghost var failed := store.bindings;
        Rollback(store, g, created, before, names);
        RolledBack(g, before, failed, store.bindings, created, store.lost, store.undeleted);
        return;
      }
      OwnTransitive(g, before, a, store.bindings);
      assert Stepped(g, a, store.bindings, names[i], changed);
      StepProgresses(g, before, a, store.bindings, created, lostBefore, store.lost, names, i, changed);
      if changed {
        created := created + [g.Name(names[i])];
      }
    }
    r := GrantOk;
    AllGrantedOrNot(g, before, store.bindings, created, store.lost, names);
  }

  lemma OwnAtFirst(g: Grant, before: Bindings)
    ensures g.NewIsOwn(before, before)
  {
  }

  lemma ProgressKeepsOthers(g: Grant, before: Bindings, now: Bindings, created: seq<string>, lost: set<string>, names: seq<string>, i: nat)
    requires i <= |names| && Progress(g, before, now, created, lost, names, i)
    ensures g.OthersKept(before, now, names)
  {
  }

  lemma NothingYet(g: Grant, before: Bindings, lost: set<string>, names: seq<string>)
    ensures Progress(g, before, before, [], lost, names, 0)
  {
  }

  /** A source that fails leaves only what is accounted for. */
  lemma FailedKeeps(g: Grant, before: Bindings, a: Bindings, b: Bindings, created: seq<string>, lostBefore: set<string>,
                    lost: set<string>, names: seq<string>, i: nat)
    requires i < |names| && Progress(g, before, a, created, lostBefore, names, i) && lostBefore <= lost
    requires forall n :: n != g.Name(names[i]) ==> (n in b <==> n in a) && (n in b && n in a ==> b[n] == a[n])
    requires var n := g.Name(names[i]);
             && (n in a && !g.Owns(a[n]) ==> n in b && b[n] == a[n])
             && (n in b ==> (n in a && b[n] == a[n]) || n in lost)
    ensures g.OthersKept(before, b, names) && g.ChangesIn(before, b, Names(created) + lost)
    ensures forall n :: n in created ==> g.NameOf(names, n) && (n !in before || g.Owns(before[n]))
  {
    hide Grant.Name;
    assert g.NameOf(names, g.Name(names[i]));
  }

  lemma RolledBack(g: Grant, before: Bindings, a: Bindings, b: Bindings, created: seq<string>, lost: set<string>, undeleted: set<string>)
    requires g.ChangesIn(before, a, Names(created) + lost)
    requires forall n :: n in b ==> n in a && b[n] == a[n]
    requires forall n :: n in created && n in b ==> n in undeleted
    ensures g.ChangesIn(before, b, lost + undeleted)
  {
  }

  lemma AllGrantedOrNot(g: Grant, before: Bindings, now: Bindings, created: seq<string>, lost: set<string>, names: seq<string>)
    requires Progress(g, before, now, created, lost, names, |names|)
    ensures g.OthersKept(before, now, names)
    ensures g.Apart(names) ==>
              ((forall s :: s in names ==> g.Granted(now, before, s)) <==> g.NamesAgree(before, names))
  {
    hide Grant.Name;
    if g.Apart(names) && (forall s :: s in names ==> g.Granted(now, before, s)) {
      forall s, t | s in names && t in names && s in before && t in before && g.Name(s) == g.Name(t)
        ensures before[s].roleRef == before[t].roleRef
      {
        assert g.Granted(now, before, s) && g.Granted(now, before, t);
      }
    }
  }

  // ---------------------------------------------------------------------------
  // Discovery
  // ---------------------------------------------------------------------------

  /** No binding names the agent account. */
  ghost predicate NoReader(now: Bindings, agent: Subject) {
    forall n :: n in now ==> agent !in now[n].subjects
  }

  /** The process-wide memory of the discovered sources; empty when there is none. */
  class ReaderCache {
    var names: seq<string>

    constructor ()
      ensures names == []
    {
      names := [];
    }

    /** The remembered sources, or every binding that names the agent account. */
    method Resolve(store: RbacStore, agent: Subject) returns (r: Option<seq<string>>)
      modifies this, store`faults
      ensures r.Some? ==> r.value == names && names != []
      ensures old(names) != [] ==> r == Some(old(names)) && names == old(names)
      ensures old(names) == [] && r.Some? ==> forall n :: n in names ==> n in store.bindings
      ensures r.None? ==> names == old(names)
      ensures old(store.faults) == [] ==> store.faults == []
      ensures old(store.faults) == [] && r.None? ==> NoReader(store.bindings, agent)
      ensures r.Some? && names != old(names) ==> forall n :: n in store.bindings && agent in store.bindings[n].subjects ==> n in names
    {
      if names != [] {
        return Some(names);
      }
      var listed := store.List();
      if listed.None? {
        return None;
      }
      var found: seq<string> := [];
      var left := listed.value.Keys;
      while left != {}
        invariant left <= store.bindings.Keys && listed.value == store.bindings
        invariant forall n :: n in found ==> n in store.bindings
        invariant forall n :: n in store.bindings && n !in left && agent in store.bindings[n].subjects ==> n in found
        decreases |left|
      {
        var n :| n in left;
        left := left - {n};
        if agent in listed.value[n].subjects {
          found := found + [n];
        }
      }
      if found == [] {
        return None;
      }
      names := found;
      return Some(names);
    }
  }

  /** Every source that is still there is granted as it stands. */
  ghost predicate AllGranted(g: Grant, now: Bindings, names: seq<string>) {
    forall s :: s in names ==> g.Granted(now, now, s)
  }

  lemma GrantedAsItStands(g: Grant, before: Bindings, now: Bindings, names: seq<string>)
    requires g.OthersKept(before, now, names) && g.Apart(names) && g.NamesAgree(now, names)
    requires (forall s :: s in names ==> g.Granted(now, before, s)) <==> g.NamesAgree(before, names)
    ensures AllGranted(g, now, names)
  {
    hide Grant.Name;
    forall s | s in names
      ensures (s in now <==> s in before) && (s in now ==> now[s] == before[s])
    {
      SourcesStand(g, before, now, names, s);
    }
    assert g.NamesAgree(before, names);
    forall s | s in names
      ensures g.Granted(now, now, s)
    {
      assert g.Granted(now, before, s);
    }
  }

  /** Bindings that are not this run's own are never touched. */
  ghost predicate ForeignKept(g: Grant, before: Bindings, now: Bindings) {
    forall n :: n in before && !g.Owns(before[n]) ==> n in now && now[n] == before[n]
  }

  lemma StaysHindered(g: Grant, before: Bindings, now: Bindings, names: seq<string>)
    requires Hindered(g, before, names) && g.OthersKept(before, now, names) && g.Apart(names)
    ensures Hindered(g, now, names)
  {
    hide Grant.Name;
    var s :| s in names && (s !in before || (g.Name(s) in before && !g.Owns(before[g.Name(s)])));
    SourcesStand(g, before, now, names, s);
  }

  /** Resolves the sources and grants them; remembered sources that turn out stale are
      discovered afresh, once. tried are the sources it tried to grant last; where no request
      fails, it only fails if nobody names the agent account, or one of them is missing or has the
      name of its per-run binding taken by someone else. */
  method AddReaderSubject(store: RbacStore, cache: ReaderCache, g: Grant, agent: Subject) returns (r: Result, ghost tried: seq<string>)
    modifies store`bindings, store`faults, store`lost, store`undeleted, cache
    ensures ForeignKept(g, old(store.bindings), store.bindings)
    ensures r == GrantOk ==> cache.names != []
    ensures r == GrantOk && g.Apart(cache.names) && g.NamesAgree(store.bindings, cache.names) ==>
              AllGranted(g, store.bindings, cache.names)
    ensures r == GrantOk && cache.names != old(cache.names) ==>
              forall n :: n in old(store.bindings) && !g.Owns(old(store.bindings)[n]) && agent in old(store.bindings)[n].subjects ==>
                n in cache.names
    ensures r != GrantStale
    ensures old(store.faults) == [] && r != GrantOk && tried == [] ==> NoReader(store.bindings, agent)
    ensures old(store.faults) == [] && r != GrantOk && g.Apart(tried) ==> NoReader(store.bindings, agent) || Hindered(g, store.bindings, tried)
  {
    hide Grant.Name, Grant.Granted, Grant.Owns, AllGranted, NoReader, Hindered;
    tried := [];
    for attempt := 0 to 2
      invariant ForeignKept(g, old(store.bindings), store.bindings)
      invariant cache.names == old(cache.names) || cache.names == []
      invariant attempt > 0 ==> cache.names == []
      invariant old(store.faults) == [] ==> store.faults == []
      invariant attempt == 2 && old(store.faults) == [] ==> tried != [] && !g.Apart(tried)
    {
      tried := [];
      var remembered := cache.names;
      var names := cache.Resolve(store, agent);
      if names.None? {
        return GrantFailed, tried;
      }
      ghost var before := store.bindings;
      tried := names.value;
      r := AddReaderSubjectForBindings(store, g, names.value);
      if r != GrantOk && old(store.faults) == [] && g.Apart(tried) {
        StaysHindered(g, before, store.bindings, tried);
      }
      if r != GrantStale {
        if r == GrantOk && g.Apart(cache.names) && g.NamesAgree(store.bindings, cache.names) {
          GrantedAsItStands(g, before, store.bindings, cache.names);
        }
        return;
      }
      cache.names := [];
    }
    return GrantFailed, tried;
  }

  ghost function Names(created: seq<string>): set<string> {
    set n | n in created
  }
}
