/** Status conditions as the operator writes them: one entry per condition type,
    whose transition time moves only when its status changes. */
module Conditions {
  datatype Option<+T> = None | Some(value: T)

  datatype Status = True | False | Unknown

  datatype Reason =
    // stop protocol
    | SystemSuspended | TeardownComplete | TeardownFailed | EmergencyStopFailed
    // workflow
    | NoActionRequired | VerificationFailed | InProgress | Revising | Skipped | Failed
    | UserDenied | WorkflowResolutionFailed
    // global configuration
    | Stopping | AdminActivated | AdminActivatedWithErrors | AdminDeactivated | CleanupConfirmed
    // any other reason; none of the names above
    | Named(text: string)

  datatype Condition = Condition(status: Status, reason: Reason, observedGeneration: nat, lastTransition: int)

  const SECOND: int := 1_000_000_000

  /** The zero time of an unset timestamp. */
  const NO_TIME: int := 0

  /** Persisted timestamps keep whole seconds only. */
  function Persist(t: int): int {
    t - t % SECOND
  }

  /** Sets a condition by type; the transition time is kept while the status is unchanged. */
  function SetCondition<K>(cs: map<K, Condition>, k: K, status: Status, reason: Reason, generation: nat, now: int)
    : map<K, Condition>
  {
    var at := if k in cs && cs[k].status == status then cs[k].lastTransition else now;
    cs[k := Condition(status, reason, generation, at)]
  }

  /** Sets a condition by type and forces its transition time. */
  function SetConditionAt<K>(cs: map<K, Condition>, k: K, status: Status, reason: Reason, generation: nat, at: int)
    : map<K, Condition>
  {
    cs[k := Condition(status, reason, generation, at)]
  }

  predicate Holds<K>(cs: map<K, Condition>, k: K, status: Status) {
    k in cs && cs[k].status == status
  }

  predicate HoldsFor<K>(cs: map<K, Condition>, k: K, status: Status, reason: Reason) {
    k in cs && cs[k].status == status && cs[k].reason == reason
  }
}
