/** The stored form of a run's conditions is a list. Reading it, scanning it and
    updating it in place agree with the keyed form the rest of the model uses. */
module ConditionLists {
  import opened Conditions
  import opened Runs

  datatype Entry = Entry(kind: ConditionType, condition: Condition)

  /** The first entry of a type decides. */
  function AsMap(l: seq<Entry>): RunConditions {
    if l == [] then map[] else AsMap(l[1..])[l[0].kind := l[0].condition]
  }

  ghost predicate Unique(l: seq<Entry>) {
    forall i, j :: 0 <= i < j < |l| ==> l[i].kind != l[j].kind
  }

  lemma {:induction false} FirstDecides(l: seq<Entry>, t: ConditionType, i: nat)
    requires i <= |l|
    requires forall j :: 0 <= j < i ==> l[j].kind != t
    requires i < |l| ==> l[i].kind == t
    ensures i == |l| ==> t !in AsMap(l)
    ensures i < |l| ==> t in AsMap(l) && AsMap(l)[t] == l[i].condition
  {
    if l != [] && i > 0 {
      assert forall j :: 0 <= j < i - 1 ==> l[1..][j] == l[j + 1];
      FirstDecides(l[1..], t, i - 1);
    }
  }

  /** In a list without duplicates every entry decides. */
  lemma EveryEntryDecides(l: seq<Entry>, i: nat)
    requires Unique(l) && i < |l|
    ensures l[i].kind in AsMap(l) && AsMap(l)[l[i].kind] == l[i].condition
  {
    FirstDecides(l, l[i].kind, i);
  }

  method FindStatusCondition(l: seq<Entry>, t: ConditionType) returns (found: Option<Condition>)
    ensures found == if t in AsMap(l) then Some(AsMap(l)[t]) else None
  {
    var i := 0;
    while i < |l|
      invariant 0 <= i <= |l|
      invariant forall j :: 0 <= j < i ==> l[j].kind != t
    {
      if l[i].kind == t {
        FirstDecides(l, t, i);
        return Some(l[i].condition);
      }
      i := i + 1;
    }
    FirstDecides(l, t, |l|);
    return None;
  }

  /** Phase derivation by list lookups, for every list, with or without duplicates. */
  method PhaseOfList(l: seq<Entry>) returns (p: Phase)
    ensures p == DerivePhase(AsMap(l))
  {
    var emergency := FindStatusCondition(l, EmergencyStopped);
    if emergency.Some? && emergency.value.status == True { return PhaseEmergencyStopped; }
    var escalated := FindStatusCondition(l, Escalated);
    if escalated.Some? && escalated.value.status == True { return PhaseEscalated; }
    var denied := FindStatusCondition(l, Denied);
    if denied.Some? && denied.value.status == True { return PhaseDenied; }
    if escalated.Some? {
      return if escalated.value.status == Unknown then Escalating else PhaseFailed;
    }
    var verified := FindStatusCondition(l, Verified);
    if verified.Some? {
      match verified.value.status {
        case True => return Completed;
        case Unknown => return Verifying;
        case False => return PhaseFailed;
      }
    }
    var executed := FindStatusCondition(l, Executed);
    if executed.Some? {
      match executed.value.status {
        case True => return Verifying;
        case Unknown => return Executing;
        case False => return PhaseFailed;
      }
    }
    var analyzed := FindStatusCondition(l, Analyzed);
    if analyzed.Some? {
      match analyzed.value.status {
        case True => return if analyzed.value.reason == NoActionRequired then Completed else Proposed;
        case Unknown => return Analyzing;
        case False => return PhaseFailed;
      }
    }
    return Pending;
  }

  /** The final-outcome test looks at two conditions, then scans the list for a failed stop. */
  method FinalStopOutcomeOfList(l: seq<Entry>) returns (final: bool)
    requires Unique(l)
    ensures final <==> HasFinalStopOutcome(AsMap(l))
  {
    var stopping := FindStatusCondition(l, StopProgress);
    if stopping.Some? && stopping.value.status == False &&
       (stopping.value.reason == TeardownComplete || stopping.value.reason == TeardownFailed) {
      return true;
    }
    var emergency := FindStatusCondition(l, EmergencyStopped);
    if emergency.Some? && emergency.value.status == True { return true; }
    var i := 0;
    while i < |l|
      invariant 0 <= i <= |l|
      invariant forall j :: 0 <= j < i ==>
                  !(l[j].condition.status == False && l[j].condition.reason == EmergencyStopFailed)
    {
      if l[i].condition.status == False && l[i].condition.reason == EmergencyStopFailed {
        EveryEntryDecides(l, i);
        return true;
      }
      i := i + 1;
    }
    forall t | t in AsMap(l)
      ensures !(AsMap(l)[t].status == False && AsMap(l)[t].reason == EmergencyStopFailed)
    {
      var found := Position(l, t);
    }
    return false;
  }

  lemma {:induction false} Position(l: seq<Entry>, t: ConditionType) returns (i: nat)
    requires t in AsMap(l)
    ensures i < |l| && l[i].kind == t && l[i].condition == AsMap(l)[t]
  {
    if l[0].kind == t {
      i := 0;
    } else {
      i := Position(l[1..], t);
      i := i + 1;
    }
  }

  function SetInList(l: seq<Entry>, t: ConditionType, c: Condition): seq<Entry> {
    if l == [] then [Entry(t, c)]
    else if l[0].kind == t then [Entry(t, c)] + l[1..]
    else [l[0]] + SetInList(l[1..], t, c)
  }

  lemma {:induction false} SettingKeepsEntries(l: seq<Entry>, t: ConditionType, c: Condition)
    ensures forall e :: e in SetInList(l, t, c) ==> e.kind == t || e in l
  {
    if l != [] && l[0].kind != t {
      SettingKeepsEntries(l[1..], t, c);
    }
  }

  /** Updating the first entry of a type, or appending one, is the keyed update. */
  lemma {:induction false} SettingIsKeyed(l: seq<Entry>, t: ConditionType, c: Condition)
    ensures AsMap(SetInList(l, t, c)) == AsMap(l)[t := c]
  {
    if l != [] && l[0].kind != t {
      SettingIsKeyed(l[1..], t, c);
      assert SetInList(l, t, c)[1..] == SetInList(l[1..], t, c);
    } else if l != [] {
      assert SetInList(l, t, c)[1..] == l[1..];
    }
  }

  /** ... and it creates no duplicates. */
  lemma {:induction false} SettingKeepsUnique(l: seq<Entry>, t: ConditionType, c: Condition)
    requires Unique(l)
    ensures Unique(SetInList(l, t, c))
  {
    if l != [] && l[0].kind != t {
      var rest := SetInList(l[1..], t, c);
      SettingKeepsUnique(l[1..], t, c);
      SettingKeepsEntries(l[1..], t, c);
      forall j | 0 <= j < |rest| ensures rest[j].kind != l[0].kind {
        assert rest[j] in rest;
      }
    }
  }
}
