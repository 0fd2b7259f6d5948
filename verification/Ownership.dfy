/** The ownership graph of one cleanup pass: which inventoried claim controls which Sandbox,
    which Pod belongs to which Sandbox, and what must not be touched because the evidence
    about it conflicts. */
module Ownership {
  import opened Conditions
  import opened Configs
  import opened Objects
  import opened ObjectStores
  import opened Reports

  // ---------------------------------------------------------------------------
  // Owner references
  // ---------------------------------------------------------------------------

  predicate Controls(ref: OwnerRef, kind: OwnerKind) {
    ref.controller && ref.kind == kind && ref.groupMatches
  }

  /** The first controller reference of this kind that names its owner. */
  function ControllerRef(refs: seq<OwnerRef>, kind: OwnerKind): Option<OwnerRef> {
    if refs == [] then None
    else if Controls(refs[0], kind) && refs[0].name != "" && refs[0].uid != "" then Some(refs[0])
    else ControllerRef(refs[1..], kind)
  }

  predicate HasControllerOfKind(o: Obj, kind: OwnerKind) {
    exists ref :: ref in o.owners && ref.controller && ref.kind == kind
  }

  predicate HasOwnerOfKind(o: Obj, kind: OwnerKind) {
    exists ref :: ref in o.owners && ref.kind == kind
  }

  predicate HasAnyController(o: Obj) {
    exists ref :: ref in o.owners && ref.controller
  }

  predicate HasControllerOwner(o: Obj, kind: OwnerKind, name: string, uid: Uid) {
    var ref := ControllerRef(o.owners, kind);
    ref.Some? && ref.value.name == name && ref.value.uid == uid
  }

  /** claim is the controller of sandbox. */
  predicate ControlledBy(sandbox: Obj, claim: Obj) {
    exists ref :: ref in sandbox.owners && Controls(ref, ClaimOwner) && ref.uid == claim.uid && ref.name == claim.key.name
  }

  // ---------------------------------------------------------------------------
  // Work records
  // ---------------------------------------------------------------------------

  /** The run and step of a claim are those it was labelled with when inventoried. */
  datatype ClaimWork = ClaimWork(target: Obj, blocked: bool, sandboxes: set<Key>)

  datatype SandboxWork = SandboxWork(
    target: Obj,
    run: string,
    step: string,
    claim: Option<Uid>,
    blocked: bool,
    identitySaved: bool,
    podSafe: bool,
    podCompleted: bool)

  /** The claims and Sandboxes being worked on, by UID and by key, beside what the inventory
      says about all of them. */
  datatype Plan = Plan(
    claimObjects: map<Uid, Obj>,
    claims: map<Uid, ClaimWork>,
    sandboxByName: map<string, Obj>,
    sandboxes: map<Key, SandboxWork>)
  {
    /** The first controller reference that names a claim being worked on. */
    function OwnerClaim(refs: seq<OwnerRef>): (owner: Option<Uid>)
      ensures owner.Some? ==> owner.value in claims
    {
      if refs == [] then None
      else if Controls(refs[0], ClaimOwner) && refs[0].uid in claims && refs[0].name == claims[refs[0].uid].target.key.name then
        Some(refs[0].uid)
      else OwnerClaim(refs[1..])
    }

    function BlockedClaim(u: Uid): Plan
      requires u in claims
    {
      this.(claims := claims[u := claims[u].(blocked := true)])
    }

    /** Blocks a Sandbox, if it is being worked on, and the claim behind it. */
    function Blocked(key: Key): Plan {
      if key !in sandboxes then this
      else
        var owner := sandboxes[key].claim;
        var p := this.(sandboxes := sandboxes[key := sandboxes[key].(blocked := true)]);
        if owner.Some? && owner.value in p.claims then p.BlockedClaim(owner.value) else p
    }

    /** Notes how far the work on a Sandbox has come. */
    function Advanced(key: Key, work: SandboxWork): Plan {
      this.(sandboxes := sandboxes[key := work])
    }

    function WithSandbox(s: Obj, run: string, step: string, claim: Option<Uid>): Plan {
      this.(sandboxes := sandboxes[s.key := SandboxWork(s, run, step, claim, false, false, false, false)])
    }

    /** Records that claim u waits for the Sandbox under key. */
    function WithOwner(key: Key, u: Uid): Plan
      requires key in sandboxes && u in claims
    {
      this.(sandboxes := sandboxes[key := sandboxes[key].(claim := Some(u))],
            claims := claims[u := claims[u].(sandboxes := claims[u].sandboxes + {key})])
    }

    /** Only objects seen in the inventory are worked on, and only for runs in scope. */
    ghost predicate Valid(scope: Uid, inventory: set<Obj>) {
      && (forall u :: u in claims ==> ClaimValid(u, claims[u], scope, inventory))
      && (forall k :: k in sandboxes ==> SandboxValid(k, sandboxes[k], scope, inventory))
      && (forall k :: k in sandboxes && sandboxes[k].claim.Some? ==> sandboxes[k].claim.value in claims)
      && (forall n :: n in sandboxByName ==> SandboxListed(n, sandboxByName[n], inventory))
    }

    /** Nothing is blocked. */
    ghost predicate Unblocked() {
      && (forall u :: u in claims ==> !claims[u].blocked)
      && (forall k :: k in sandboxes ==> !sandboxes[k].blocked)
    }

    /** A claim that may still be removed waits for Sandbox s. */
    ghost predicate Linked(u: Uid, s: Obj)
      requires u in claims
    {
      claims[u].blocked ||
      (s.key in claims[u].sandboxes && s.key in sandboxes && sandboxes[s.key].target == s &&
       sandboxes[s.key].run == claims[u].target.run && sandboxes[s.key].step == claims[u].target.step)
    }

    /** ... for every Sandbox of the inventory that it controls. */
    ghost predicate AllLinked(items: set<Obj>) {
      forall u, s :: u in claims && s in items && ControlledBy(s, claims[u].target) ==> Linked(u, s)
    }
  }

  ghost predicate ClaimValid(u: Uid, w: ClaimWork, scope: Uid, inventory: set<Obj>) {
    w.target.key.kind == Claim && w.target.uid == u != "" && w.target in inventory &&
    InScope(w.target.run, scope) && StepAllowed(w.target.step)
  }

  ghost predicate SandboxValid(k: Key, w: SandboxWork, scope: Uid, inventory: set<Obj>) {
    w.target.key == k && k.kind == Sandbox && w.target in inventory && InScope(w.run, scope) && StepAllowed(w.step)
  }

  ghost predicate SandboxListed(name: string, o: Obj, inventory: set<Obj>) {
    o.key.name == name && o.key.kind == Sandbox && o in inventory
  }

  /** A Pod in scope whose Sandbox is listed has that Sandbox worked on under its own identity. */
  ghost predicate Tied(p: Plan, pod: Obj, scope: Uid) {
    var ref := ControllerRef(pod.owners, SandboxOwner);
    InScope(pod.run, scope) && StepAllowed(pod.step) && ref.Some? && ref.value.name in p.sandboxByName ==>
      var s := p.sandboxByName[ref.value.name];
      s.uid == ref.value.uid && s.key in p.sandboxes && p.sandboxes[s.key].run == pod.run && p.sandboxes[s.key].step == pod.step
  }

  /** The Sandbox a claim's status refers to, if any, is listed, its own, and waited for. */
  predicate StatusAgrees(p: Plan, u: Uid)
    requires u in p.claims
  {
    var claim := p.claims[u];
    claim.target.statusSandbox.Reference? &&
    var name := claim.target.statusSandbox.name;
    name == "" ||
    (name in p.sandboxByName && HasControllerOwner(p.sandboxByName[name], ClaimOwner, claim.target.key.name, u) &&
     p.sandboxByName[name].key in claim.sandboxes)
  }

  /** Work is only ever added, blocked and advanced: what was linked stays linked. */
  ghost predicate Grown(a: Plan, b: Plan) {
    && b.claims.Keys == a.claims.Keys
    && (forall u :: u in a.claims ==> ClaimGrown(a.claims[u], b.claims[u]))
    && (forall k :: k in a.sandboxes ==> k in b.sandboxes && SameIdentity(a.sandboxes[k], b.sandboxes[k]))
    && b.sandboxByName == a.sandboxByName && b.claimObjects == a.claimObjects
  }

  ghost predicate ClaimGrown(a: ClaimWork, b: ClaimWork) {
    b.target == a.target && a.sandboxes <= b.sandboxes && (a.blocked ==> b.blocked)
  }

  ghost predicate SameIdentity(a: SandboxWork, b: SandboxWork) {
    b.target == a.target && b.run == a.run && b.step == a.step
  }

  lemma GrownTransitive(a: Plan, b: Plan, c: Plan)
    requires Grown(a, b) && Grown(b, c)
    ensures Grown(a, c)
  {
  }

  lemma GrownReflexive(p: Plan)
    ensures Grown(p, p)
  {
  }

  lemma IdentityStays(a: Plan, b: Plan, key: Key)
    requires Grown(a, b) && key in a.sandboxes
    ensures key in b.sandboxes && SameIdentity(a.sandboxes[key], b.sandboxes[key])
  {
  }

  lemma SandboxesStay(a: Plan, b: Plan)
    requires Grown(a, b)
    ensures a.sandboxes.Keys <= b.sandboxes.Keys
  {
  }

  lemma TiedStays(a: Plan, b: Plan, pod: Obj, scope: Uid)
    requires Grown(a, b) && Tied(a, pod, scope)
    ensures Tied(b, pod, scope)
  {
    hide InScope, StepAllowed, ControllerRef;
    var ref := ControllerRef(pod.owners, SandboxOwner);
    if ref.Some? && ref.value.name in a.sandboxByName && a.sandboxByName[ref.value.name].key in a.sandboxes {
      assert SameIdentity(a.sandboxes[a.sandboxByName[ref.value.name].key], b.sandboxes[a.sandboxByName[ref.value.name].key]);
    }
  }

  lemma SameClaims(a: Plan, b: Plan)
    requires Grown(a, b)
    ensures b.claims.Keys == a.claims.Keys && forall u :: u in a.claims ==> b.claims[u].target == a.claims[u].target
  {
  }

  lemma StayBlocked(a: Plan, b: Plan)
    requires Grown(a, b)
    ensures forall u :: u in a.claims && a.claims[u].blocked ==> u in b.claims && b.claims[u].blocked
  {
  }

  lemma ClaimInScope(p: Plan, u: Uid, scope: Uid, inventory: set<Obj>)
    requires p.Valid(scope, inventory) && u in p.claims
    ensures InScope(p.claims[u].target.run, scope) && StepAllowed(p.claims[u].target.step)
    ensures p.claims[u].target in inventory && p.claims[u].target.key.kind == Claim
  {
    assert ClaimValid(u, p.claims[u], scope, inventory);
  }

  lemma LinkedStays(a: Plan, b: Plan, u: Uid, s: Obj)
    requires Grown(a, b) && u in a.claims && a.Linked(u, s)
    ensures b.Linked(u, s)
  {
  }

  lemma AllLinkedStays(a: Plan, b: Plan, items: set<Obj>)
    requires Grown(a, b) && a.AllLinked(items)
    ensures b.AllLinked(items)
  {
    forall u, s | u in b.claims && s in items && ControlledBy(s, b.claims[u].target)
      ensures b.Linked(u, s)
    {
      LinkedStays(a, b, u, s);
    }
  }

  lemma BlockedClaimKeeps(p: Plan, u: Uid, scope: Uid, inventory: set<Obj>)
    requires p.Valid(scope, inventory) && u in p.claims
    ensures p.BlockedClaim(u).Valid(scope, inventory) && Grown(p, p.BlockedClaim(u))
  {
    var q := p.BlockedClaim(u);
    assert ClaimValid(u, p.claims[u], scope, inventory);
    assert forall v :: v in q.claims && v != u ==> q.claims[v] == p.claims[v];
  }

  lemma BlockedKeeps(p: Plan, key: Key, scope: Uid, inventory: set<Obj>)
    requires p.Valid(scope, inventory)
    ensures p.Blocked(key).Valid(scope, inventory) && Grown(p, p.Blocked(key))
  {
    hide InScope, StepAllowed, SandboxListed;
    if key in p.sandboxes {
      var q := p.(sandboxes := p.sandboxes[key := p.sandboxes[key].(blocked := true)]);
      assert SandboxValid(key, p.sandboxes[key], scope, inventory);
      assert Grown(p, q);
      if p.sandboxes[key].claim.Some? {
        BlockedClaimKeeps(q, p.sandboxes[key].claim.value, scope, inventory);
        GrownTransitive(p, q, p.Blocked(key));
      }
    }
  }

  lemma AdvancedKeeps(p: Plan, key: Key, work: SandboxWork, scope: Uid, inventory: set<Obj>)
    requires p.Valid(scope, inventory) && key in p.sandboxes
    requires SameIdentity(p.sandboxes[key], work) && work.claim == p.sandboxes[key].claim
    ensures p.Advanced(key, work).Valid(scope, inventory) && Grown(p, p.Advanced(key, work))
    ensures p.Unblocked() && !work.blocked ==> p.Advanced(key, work).Unblocked()
  {
    hide InScope, StepAllowed, SandboxListed, ClaimValid;
    assert SandboxValid(key, p.sandboxes[key], scope, inventory);
  }

  lemma WithSandboxKeeps(p: Plan, s: Obj, run: string, step: string, claim: Option<Uid>, scope: Uid, inventory: set<Obj>)
    requires p.Valid(scope, inventory) && s.key !in p.sandboxes && s.key.kind == Sandbox && s in inventory
    requires InScope(run, scope) && StepAllowed(step) && (claim.Some? ==> claim.value in p.claims)
    ensures p.WithSandbox(s, run, step, claim).Valid(scope, inventory)
    ensures Grown(p, p.WithSandbox(s, run, step, claim))
    ensures p.Unblocked() ==> p.WithSandbox(s, run, step, claim).Unblocked()
  {
    var q := p.WithSandbox(s, run, step, claim);
    assert SandboxValid(s.key, q.sandboxes[s.key], scope, inventory);
  }

  lemma WithOwnerGrows(p: Plan, key: Key, u: Uid)
    requires key in p.sandboxes && u in p.claims
    ensures Grown(p, p.WithOwner(key, u)) && p.WithOwner(key, u).sandboxes.Keys == p.sandboxes.Keys
  {
    assert p.WithOwner(key, u).claims.Keys == p.claims.Keys;
  }

  lemma WithOwnerKeeps(p: Plan, key: Key, u: Uid, scope: Uid, inventory: set<Obj>)
    requires p.Valid(scope, inventory) && key in p.sandboxes && u in p.claims
    ensures p.WithOwner(key, u).Valid(scope, inventory) && Grown(p, p.WithOwner(key, u))
    ensures p.Unblocked() ==> p.WithOwner(key, u).Unblocked()
  {
    hide SandboxValid, ClaimValid, SandboxListed, Grown;
    WithOwnerGrows(p, key, u);
    ProgressIsValid(key, p.sandboxes[key], p.WithOwner(key, u).sandboxes[key], u, p.claims[u], p.WithOwner(key, u).claims[u],
                    scope, inventory);
  }

  /** Validity is about identities only. */
  lemma ProgressIsValid(k: Key, s: SandboxWork, t: SandboxWork, u: Uid, c: ClaimWork, d: ClaimWork, scope: Uid, inventory: set<Obj>)
    requires SandboxValid(k, s, scope, inventory) && SameIdentity(s, t)
    requires ClaimValid(u, c, scope, inventory) && d.target == c.target
    ensures SandboxValid(k, t, scope, inventory) && ClaimValid(u, d, scope, inventory)
  {
  }

  /** With a single controller there is only one claim to find. */
  lemma {:induction false} OwnerIsFound(p: Plan, refs: seq<OwnerRef>, u: Uid, ref: OwnerRef)
    requires u in p.claims && ref in refs && Controls(ref, ClaimOwner) && ref.uid == u && ref.name == p.claims[u].target.key.name
    requires forall i, j :: 0 <= i < |refs| && 0 <= j < |refs| && refs[i].controller && refs[j].controller ==> i == j
    ensures p.OwnerClaim(refs) == Some(u)
  {
    if refs[0] != ref {
      var i :| 0 <= i < |refs| && refs[i] == ref;
      assert !refs[0].controller;
      assert refs[1..][i - 1] == ref;
      OwnerIsFound(p, refs[1..], u, ref);
    }
  }

  lemma ControllerIsFound(p: Plan, s: Obj, u: Uid)
    requires u in p.claims && ControlledBy(s, p.claims[u].target) && p.claims[u].target.uid == u && SingleController(s)
    ensures p.OwnerClaim(s.owners) == Some(u)
  {
    var ref :| ref in s.owners && Controls(ref, ClaimOwner) && ref.uid == u && ref.name == p.claims[u].target.key.name;
    OwnerIsFound(p, s.owners, u, ref);
  }

  /** A claim in scope has a UID and a step. */
  predicate ClaimNamed(claim: Obj, scope: Uid) {
    InScope(claim.run, scope) ==> claim.uid != "" && StepAllowed(claim.step)
  }

  /** A Pod in scope is bare, or names the Sandbox that controls it. */
  predicate PodOwned(pod: Obj, scope: Uid) {
    InScope(pod.run, scope) ==> ControllerRef(pod.owners, SandboxOwner).Some? || !HasControllerOfKind(pod, SandboxOwner)
  }

  /** No claim refers to a Sandbox yet. */
  ghost predicate NoStatuses(p: Plan) {
    forall u :: u in p.claims ==> p.claims[u].target.statusSandbox == Reference("")
  }

  ghost predicate UniqueNames(items: seq<Obj>) {
    forall i, j :: 0 <= i < j < |items| ==> items[i].key.name != items[j].key.name
  }

  class Graph {
    var plan: Plan

    constructor ()
      ensures plan == Plan(map[], map[], map[], map[])
    {
      plan := Plan(map[], map[], map[], map[]);
    }

    // -------------------------------------------------------------------------
    // Claims
    // -------------------------------------------------------------------------

    method AddClaim(claim: Obj, scope: Uid, report: Report, ghost inventory: set<Obj>)
      requires plan.Valid(scope, inventory) && claim in inventory && claim.key.kind == Claim && report.Valid()
      modifies this, report
      ensures plan.Valid(scope, inventory) && report.Valid() && (report.Clean() ==> old(report.Clean()))
      ensures plan.sandboxes == old(plan).sandboxes && plan.sandboxByName == old(plan).sandboxByName
      ensures plan.claims == old(plan).claims || plan.claims == old(plan).claims[claim.uid := ClaimWork(claim, false, {})]
      ensures report.Clean() && InScope(claim.run, scope) ==>
                claim.uid != "" && claim.uid in plan.claims && plan.claims[claim.uid].target == claim
      ensures report.Untouched()
      ensures ClaimNamed(claim, scope) ==> report.errors == old(report.errors)
      ensures plan.claims == old(plan).claims || InScope(claim.run, scope)
    {
      if claim.uid != "" {
        plan := plan.(claimObjects := plan.claimObjects[claim.uid := claim]);
      }
      if !InScope(claim.run, scope) {
        return;
      }
      if !StepAllowed(claim.step) {
        report.RecordUnverified(InvalidIdentity, claim.key);
        return;
      }
      if claim.uid == "" {
        report.RecordUnverified(MissingUid, claim.key);
        return;
      }
      plan := plan.(claims := plan.claims[claim.uid := ClaimWork(claim, false, {})]);
    }

    // -------------------------------------------------------------------------
    // Sandboxes
    // -------------------------------------------------------------------------

    /** An inventory names each Sandbox once, so none is recorded when its turn comes. */
    method AddSandbox(s: Obj, claimsListed: bool, scope: Uid, report: Report, ghost inventory: set<Obj>)
      requires plan.Valid(scope, inventory) && s in inventory && s.key.kind == Sandbox && s.key !in plan.sandboxes
      requires report.Valid() && (report.Clean() ==> plan.Unblocked()) && SingleController(s)
      modifies this, report
      ensures plan.Valid(scope, inventory) && Grown(old(plan), plan)
      ensures report.Valid() && (report.Clean() ==> old(report.Clean()) && plan.Unblocked())
      ensures plan.sandboxes.Keys <= old(plan).sandboxes.Keys + {s.key}
      ensures forall u :: u in plan.claims && ControlledBy(s, plan.claims[u].target) ==> plan.Linked(u, s)
      ensures report.Untouched()
      ensures report.Clean() && InScope(s.run, scope) ==> s.key in plan.sandboxes
    {
      hide Grown, ControlledBy, SingleController, StepAllowed, InScope;
      GrownReflexive(plan);
      var owner := plan.OwnerClaim(s.owners);
      forall u | u in plan.claims && ControlledBy(s, plan.claims[u].target)
        ensures owner == Some(u)
      {
        ControllerIsFound(plan, s, u);
      }
      if owner.Some? {
        AddClaimed(s, owner.value, scope, report, inventory);
        SameClaims(old(plan), plan);
      } else if InScope(s.run, scope) {
        var refused := Unclaimed(s, claimsListed);
        if refused.Some? {
          report.RecordUnverified(refused.value, s.key);
        } else {
          WithSandboxKeeps(plan, s, s.run, s.step, None, scope, inventory);
          plan := plan.WithSandbox(s, s.run, s.step, None);
        }
      }
    }

    /** A Sandbox takes over the identity of the claim that controls it, unless its own
        labels say otherwise. */
    method AddClaimed(s: Obj, u: Uid, scope: Uid, report: Report, ghost inventory: set<Obj>)
      requires plan.Valid(scope, inventory) && s in inventory && s.key.kind == Sandbox && s.key !in plan.sandboxes
      requires report.Valid() && (report.Clean() ==> plan.Unblocked()) && u in plan.claims
      modifies this, report
      ensures plan.Valid(scope, inventory) && Grown(old(plan), plan)
      ensures report.Valid() && (report.Clean() ==> old(report.Clean()) && plan.Unblocked())
      ensures plan.sandboxes.Keys <= old(plan).sandboxes.Keys + {s.key}
      ensures u in plan.claims && plan.Linked(u, s)
      ensures report.Untouched()
      ensures report.Clean() ==> s.key in plan.sandboxes
    {
      hide Grown, Plan.Valid, InScope, StepAllowed;
      var claim := plan.claims[u].target;
      if s.run != "" && s.run != claim.run {
        BlockedClaimKeeps(plan, u, scope, inventory);
        plan := plan.BlockedClaim(u);
        report.RecordUnverified(RunLabelConflict, s.key);
      } else if s.step != "" && s.step != claim.step {
        BlockedClaimKeeps(plan, u, scope, inventory);
        plan := plan.BlockedClaim(u);
        report.RecordUnverified(StepLabelConflict, s.key);
      } else {
        ClaimInScope(plan, u, scope, inventory);
        WithSandboxKeeps(plan, s, claim.run, claim.step, Some(u), scope, inventory);
        plan := plan.WithSandbox(s, claim.run, claim.step, Some(u));
        WithOwnerKeeps(plan, s.key, u, scope, inventory);
        plan := plan.WithOwner(s.key, u);
        GrownTransitive(old(plan), old(plan).WithSandbox(s, claim.run, claim.step, Some(u)), plan);
      }
    }

    /** Why a labelled Sandbox that no claim being worked on controls must be left alone. */
    method Unclaimed(s: Obj, claimsListed: bool) returns (why: Option<Finding>)
      ensures why.None? ==>
                StepAllowed(s.step) &&
                match ControllerRef(s.owners, ClaimOwner)
                case Some(ref) => claimsListed && ref.uid !in plan.claimObjects
                case None => !HasAnyController(s) && !HasOwnerOfKind(s, ClaimOwner)
    {
      if !StepAllowed(s.step) {
        return Some(InvalidIdentity);
      }
      var ref := ControllerRef(s.owners, ClaimOwner);
      if ref.Some? {
        if !claimsListed {
          return Some(CreationSourceUnknown);
        }
        if ref.value.uid in plan.claimObjects {
          return Some(ClaimIdentityMissing);
        }
      } else if HasAnyController(s) || HasOwnerOfKind(s, ClaimOwner) {
        return Some(CreationOwnerUnvalidated);
      }
      return None;
    }

    // -------------------------------------------------------------------------
    // Pods
    // -------------------------------------------------------------------------

    method Reject(key: Key, about: Key, what: Finding, scope: Uid, report: Report, ghost inventory: set<Obj>)
      requires plan.Valid(scope, inventory) && report.Valid()
      modifies this, report
      ensures plan == old(plan).Blocked(key)
      ensures plan.Valid(scope, inventory) && Grown(old(plan), plan) && report.Valid() && !report.Clean()
      ensures report.Untouched()
    {
      BlockedKeeps(plan, key, scope, inventory);
      plan := plan.Blocked(key);
      report.RecordUnverified(what, about);
    }

    method LinkPod(pod: Obj, claimsListed: bool, scope: Uid, report: Report, ghost inventory: set<Obj>)
      requires plan.Valid(scope, inventory) && report.Valid() && (report.Clean() ==> plan.Unblocked())
      modifies this, report
      ensures plan.Valid(scope, inventory) && Grown(old(plan), plan)
      ensures report.Valid() && (report.Clean() ==> old(report.Clean()) && plan.Unblocked())
      ensures report.Untouched()
      ensures report.Clean() ==> Tied(plan, pod, scope)
      ensures old(plan).sandboxByName == map[] && PodOwned(pod, scope) ==> plan == old(plan) && report.errors == old(report.errors)
    {
      if !InScope(pod.run, scope) || !StepAllowed(pod.step) {
        return;
      }
      var podOwner := ControllerRef(pod.owners, SandboxOwner);
      if podOwner.None? {
        if HasControllerOfKind(pod, SandboxOwner) {
          report.RecordUnverified(SandboxReferenceInvalid, pod.key);
        }
        return;
      }
      if podOwner.value.name !in plan.sandboxByName {
        return;
      }
      var s := plan.sandboxByName[podOwner.value.name];
      if s.uid != podOwner.value.uid {
        Reject(s.key, pod.key, SandboxOwnerUnvalidated, scope, report, inventory);
        return;
      }
      if (s.run != "" && s.run != pod.run) || (s.step != "" && s.step != pod.step) {
        Reject(s.key, pod.key, PodIdentityConflict, scope, report, inventory);
        return;
      }
      var claimOwner := ControllerRef(s.owners, ClaimOwner);
      var owner: Option<Uid> := None;
      if claimOwner.Some? {
        if !claimsListed {
          Reject(s.key, s.key, CreationSourceUnknown, scope, report, inventory);
          return;
        }
        var u := claimOwner.value.uid;
        if u in plan.claimObjects {
          if u !in plan.claims || plan.claims[u].target.run != pod.run || plan.claims[u].target.step != pod.step ||
             plan.claims[u].target.key.name != claimOwner.value.name {
            Reject(s.key, s.key, ClaimOwnerUnvalidated, scope, report, inventory);
            return;
          }
          owner := Some(u);
        }
      } else if HasAnyController(s) || HasOwnerOfKind(s, ClaimOwner) {
        Reject(s.key, s.key, CreationOwnerUnvalidated, scope, report, inventory);
        return;
      }
      Attach(s, pod, owner, scope, report, inventory);
    }

    /** Records the Sandbox of a validated Pod. */
    method Attach(s: Obj, pod: Obj, owner: Option<Uid>, scope: Uid, report: Report, ghost inventory: set<Obj>)
      requires plan.Valid(scope, inventory) && report.Valid() && (report.Clean() ==> plan.Unblocked())
      requires s in inventory && s.key.kind == Sandbox && InScope(pod.run, scope) && StepAllowed(pod.step)
      requires owner.Some? ==> owner.value in plan.claims
      modifies this, report
      ensures plan.Valid(scope, inventory) && Grown(old(plan), plan)
      ensures report.Valid() && (report.Clean() ==> old(report.Clean()) && plan.Unblocked())
      ensures report.Untouched()
      ensures report.Clean() ==>
                s.key in plan.sandboxes && plan.sandboxes[s.key].run == pod.run && plan.sandboxes[s.key].step == pod.step
    {
      hide Plan.Valid, Grown;
      GrownReflexive(plan);
      if s.key !in plan.sandboxes {
        WithSandboxKeeps(plan, s, pod.run, pod.step, owner, scope, inventory);
        plan := plan.WithSandbox(s, pod.run, pod.step, owner);
      } else if plan.sandboxes[s.key].run != pod.run || plan.sandboxes[s.key].step != pod.step {
        Reject(s.key, pod.key, SandboxIdentityConflict, scope, report, inventory);
        return;
      }
      if owner.Some? {
        ghost var recorded := plan;
        ClaimSandbox(s.key, owner.value, scope, report, inventory);
        GrownTransitive(old(plan), recorded, plan);
        IdentityStays(recorded, plan, s.key);
      }
    }

    method ClaimSandbox(key: Key, u: Uid, scope: Uid, report: Report, ghost inventory: set<Obj>)
      requires plan.Valid(scope, inventory) && report.Valid() && (report.Clean() ==> plan.Unblocked())
      requires key in plan.sandboxes && u in plan.claims
      modifies this, report
      ensures plan.Valid(scope, inventory) && Grown(old(plan), plan)
      ensures report.Valid() && (report.Clean() ==> old(report.Clean()) && plan.Unblocked())
      ensures report.Untouched()
      ensures plan.sandboxByName == old(plan).sandboxByName
    {
      hide Plan.Valid;
      var known := plan.sandboxes[key].claim;
      if known.Some? && known != Some(u) {
        Reject(key, key, ClaimOwnersConflict, scope, report, inventory);
        BlockedClaimKeeps(plan, u, scope, inventory);
        plan := plan.BlockedClaim(u);
      } else {
        WithOwnerKeeps(plan, key, u, scope, inventory);
        plan := plan.WithOwner(key, u);
      }
    }

    // -------------------------------------------------------------------------
    // The Sandbox a claim's status refers to
    // -------------------------------------------------------------------------

    method CheckStatus(u: Uid, sandboxesListed: bool, scope: Uid, report: Report, ghost inventory: set<Obj>)
      requires plan.Valid(scope, inventory) && u in plan.claims && report.Valid() && (report.Clean() ==> plan.Unblocked())
      modifies this, report
      ensures plan.Valid(scope, inventory) && Grown(old(plan), plan)
      ensures report.Valid() && (report.Clean() ==> old(report.Clean()) && plan.Unblocked())
      ensures !sandboxesListed ==> plan.claims[u].blocked
      ensures report.Untouched()
      ensures sandboxesListed && !StatusAgrees(old(plan), u) ==> plan.claims[u].blocked
      ensures (!sandboxesListed || !StatusAgrees(old(plan), u)) ==> report.errors != []
      ensures sandboxesListed && StatusAgrees(old(plan), u) ==> plan == old(plan) && report.errors == old(report.errors)
    {
      var claim := plan.claims[u];
      var why: Finding;
      if !sandboxesListed {
        why := DescendantsUnknown;
      } else if claim.target.statusSandbox.Unreadable? {
        why := StatusUnreadable;
      } else if claim.target.statusSandbox.name == "" {
        return;
      } else if claim.target.statusSandbox.name !in plan.sandboxByName {
        why := StatusSandboxMissing;
      } else {
        var s := plan.sandboxByName[claim.target.statusSandbox.name];
        if !HasControllerOwner(s, ClaimOwner, claim.target.key.name, u) {
          why := StatusSandboxUnowned;
        } else if s.key !in claim.sandboxes {
          why := StatusSandboxNotInventoried;
        } else {
          return;
        }
      }
      BlockedClaimKeeps(plan, u, scope, inventory);
      plan := plan.BlockedClaim(u);
      report.RecordUnverified(why, claim.target.key);
    }

    // -------------------------------------------------------------------------
    // Whole inventories
    // -------------------------------------------------------------------------

    method AddClaims(items: seq<Obj>, scope: Uid, report: Report, ghost inventory: set<Obj>)
      requires plan == Plan(map[], map[], map[], map[]) && report.Valid()
      requires forall o :: o in items ==> o in inventory && o.key.kind == Claim
      requires forall i, j :: 0 <= i < j < |items| ==> items[i].uid != items[j].uid || items[i].uid == ""
      modifies this, report
      ensures plan.Valid(scope, inventory) && report.Valid()
      ensures (report.Clean() ==> old(report.Clean())) && plan.Unblocked()
      ensures plan.sandboxes == map[] && plan.sandboxByName == map[]
      ensures report.Clean() ==>
                forall o :: o in items && InScope(o.run, scope) ==> o.uid in plan.claims && plan.claims[o.uid].target == o
      ensures report.Untouched()
      ensures (forall o :: o in items ==> ClaimNamed(o, scope)) ==> report.errors == old(report.errors)
      ensures forall u :: u in plan.claims ==> plan.claims[u].target in items && InScope(plan.claims[u].target.run, scope)
    {
      for i := 0 to |items|
        invariant plan.Valid(scope, inventory) && report.Valid()
        invariant report.Clean() ==> old(report.Clean())
        invariant plan.Unblocked() && plan.sandboxes == map[] && plan.sandboxByName == map[]
        invariant report.Untouched()
        invariant (forall o :: o in items ==> ClaimNamed(o, scope)) ==> report.errors == old(report.errors)
        invariant forall u :: u in plan.claims ==> plan.claims[u].target in items && InScope(plan.claims[u].target.run, scope)
        invariant report.Clean() ==>
          forall k :: 0 <= k < i && InScope(items[k].run, scope) ==>
            items[k].uid != "" && items[k].uid in plan.claims && plan.claims[items[k].uid].target == items[k]
      {
        AddClaim(items[i], scope, report, inventory);
      }
    }

    method NameSandboxes(items: seq<Obj>, scope: Uid, ghost inventory: set<Obj>)
      requires plan.Valid(scope, inventory) && forall o :: o in items ==> o in inventory && o.key.kind == Sandbox
      modifies this
      ensures plan.Valid(scope, inventory) && plan == old(plan).(sandboxByName := plan.sandboxByName)
      ensures UniqueNames(items) ==> forall o :: o in items ==> o.key.name in plan.sandboxByName && plan.sandboxByName[o.key.name] == o
      ensures items == [] ==> plan == old(plan)
    {
      for i := 0 to |items|
        invariant plan.Valid(scope, inventory) && plan == old(plan).(sandboxByName := plan.sandboxByName)
        invariant i == 0 ==> plan == old(plan)
        invariant UniqueNames(items) ==>
          forall j :: 0 <= j < i ==> items[j].key.name in plan.sandboxByName && plan.sandboxByName[items[j].key.name] == items[j]
      {
        plan := plan.(sandboxByName := plan.sandboxByName[items[i].key.name := items[i]]);
      }
    }

    method AddSandboxes(items: seq<Obj>, claimsListed: bool, scope: Uid, report: Report, ghost inventory: set<Obj>)
      requires plan.Valid(scope, inventory) && report.Valid() && plan.Unblocked() && plan.sandboxes == map[]
      requires forall o :: o in items ==> o in inventory && o.key.kind == Sandbox && SingleController(o)
      requires forall i, j :: 0 <= i < j < |items| ==> items[i].key != items[j].key
      modifies this, report
      ensures plan.Valid(scope, inventory) && Grown(old(plan), plan)
      ensures report.Valid() && (report.Clean() ==> old(report.Clean()) && plan.Unblocked())
      ensures plan.AllLinked(Elements(items))
      ensures report.Untouched()
      ensures report.Clean() ==> forall o :: o in items && InScope(o.run, scope) ==> o.key in plan.sandboxes
      ensures items == [] ==> plan == old(plan) && report.errors == old(report.errors)
    {
      hide Plan.Valid, Grown, Plan.Linked, ControlledBy;
      GrownReflexive(plan);
      for i := 0 to |items|
        invariant plan.Valid(scope, inventory) && Grown(old(plan), plan)
        invariant report.Valid() && (report.Clean() ==> old(report.Clean()) && plan.Unblocked())
        invariant forall k :: k in plan.sandboxes ==> exists j :: 0 <= j < i && items[j].key == k
        invariant plan.AllLinked(Elements(items[..i])) && report.Untouched()
        invariant i == 0 ==> plan == old(plan) && report.errors == old(report.errors)
        invariant report.Clean() ==> forall j :: 0 <= j < i && InScope(items[j].run, scope) ==> items[j].key in plan.sandboxes
      {
        ghost var before := plan;
        AddSandbox(items[i], claimsListed, scope, report, inventory);
        GrownTransitive(old(plan), before, plan);
        AllLinkedStays(before, plan, Elements(items[..i]));
        SandboxesStay(before, plan);
        assert Elements(items[..i + 1]) == Elements(items[..i]) + {items[i]};
      }
      assert items[..|items|] == items;
    }

    method LinkPods(pods: seq<Obj>, claimsListed: bool, scope: Uid, report: Report, ghost inventory: set<Obj>)
      requires plan.Valid(scope, inventory) && report.Valid() && (report.Clean() ==> plan.Unblocked())
      modifies this, report
      ensures plan.Valid(scope, inventory) && Grown(old(plan), plan)
      ensures report.Valid() && (report.Clean() ==> old(report.Clean()) && plan.Unblocked())
      ensures report.Untouched()
      ensures report.Clean() ==> forall pod :: pod in pods ==> Tied(plan, pod, scope)
      ensures old(plan).sandboxByName == map[] && (forall pod :: pod in pods ==> PodOwned(pod, scope)) ==>
                plan == old(plan) && report.errors == old(report.errors)
    {
      hide Plan.Valid, Plan.Unblocked, Grown, Report.Clean, Tied;
      GrownReflexive(plan);
      for i := 0 to |pods|
        invariant plan.Valid(scope, inventory) && Grown(old(plan), plan)
        invariant report.Valid() && (report.Clean() ==> old(report.Clean()) && plan.Unblocked())
        invariant report.Untouched() && (report.Clean() ==> forall j :: 0 <= j < i ==> Tied(plan, pods[j], scope))
        invariant old(plan).sandboxByName == map[] && (forall pod :: pod in pods ==> PodOwned(pod, scope)) ==>
          plan == old(plan) && report.errors == old(report.errors)
      {
        ghost var before := plan;
        LinkPod(pods[i], claimsListed, scope, report, inventory);
        GrownTransitive(old(plan), before, plan);
        forall j | 0 <= j < i && Tied(before, pods[j], scope)
          ensures Tied(plan, pods[j], scope)
        {
          TiedStays(before, plan, pods[j], scope);
        }
      }
    }

    method CheckStatuses(sandboxesListed: bool, scope: Uid, report: Report, ghost inventory: set<Obj>)
      requires plan.Valid(scope, inventory) && report.Valid() && (report.Clean() ==> plan.Unblocked())
      modifies this, report
      ensures plan.Valid(scope, inventory) && Grown(old(plan), plan)
      ensures report.Valid() && (report.Clean() ==> old(report.Clean()) && plan.Unblocked())
      ensures !sandboxesListed ==> forall u :: u in plan.claims ==> plan.claims[u].blocked
      ensures report.Untouched()
      ensures sandboxesListed && NoStatuses(old(plan)) ==> plan == old(plan) && report.errors == old(report.errors)
    {
      hide Plan.Valid, Plan.Unblocked, Report.Clean, Report.Valid, ClaimGrown, SameIdentity;
      GrownReflexive(plan);
      var left := plan.claims.Keys;
      while left != {}
        invariant left <= plan.claims.Keys
        invariant plan.Valid(scope, inventory) && Grown(old(plan), plan)
        invariant report.Valid() && (report.Clean() ==> old(report.Clean()) && plan.Unblocked())
        invariant !sandboxesListed ==> forall u :: u in plan.claims && u !in left ==> plan.claims[u].blocked
        invariant report.Untouched()
        invariant sandboxesListed && NoStatuses(old(plan)) ==> plan == old(plan) && report.errors == old(report.errors)
        decreases |left|
      {
        var u :| u in left;
        left := left - {u};
        ghost var before := plan;
        CheckStatus(u, sandboxesListed, scope, report, inventory);
        GrownTransitive(old(plan), before, plan);
        StayBlocked(before, plan);
      }
    }
  }

  ghost function Elements(items: seq<Obj>): set<Obj> {
    set o | o in items
  }
}
