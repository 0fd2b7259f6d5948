/** The hub objects a run owns, and how suspension cleanup tells them apart by
    their labels and names. */
module Objects {
  import opened Conditions

  type Uid = string

  datatype Kind =
    | Pod | Claim | Sandbox | WarmPool | ServiceAccount
    | Role | RoleBinding | ClusterRole | ClusterRoleBinding | Secret

  datatype PodPhase = PodPending | PodRunning | PodSucceeded | PodFailed | PodUnknown

  datatype OwnerKind = ClaimOwner | SandboxOwner | OtherOwner

  /** groupMatches: the reference's API group is the one its kind belongs to. */
  datatype OwnerRef = OwnerRef(controller: bool, kind: OwnerKind, groupMatches: bool, name: string, uid: Uid)

  /** A claim's status.sandbox.name field. */
  datatype StatusRef = Unreadable | Reference(name: string)

  datatype Key = Key(kind: Kind, namespace: string, name: string)

  /** Absent labels and annotations are empty. held: a delete request leaves the
      object terminating instead of removing it. */
  datatype Obj = Obj(
    key: Key,
    uid: Uid,
    version: nat,
    run: string,
    step: string,
    component: string,
    owners: seq<OwnerRef>,
    podName: string,
    statusSandbox: StatusRef,
    phase: PodPhase,
    held: bool)

  predicate StepAllowed(step: string) {
    step == "analysis" || step == "execution" || step == "verification" || step == "escalation"
  }

  const EXECUTION_RBAC := "execution-rbac"
  const RESULT_RBAC := "result-rbac"
  const READER_RBAC := "reader-rbac"
  const KUBECONFIG := "sandbox-kubeconfig"
  const ACCOUNT_SUFFIX := "-sa"

  /** An empty scope selects the objects of every run. */
  predicate InScope(run: string, scope: Uid) {
    run != "" && (scope == "" || run == scope)
  }

  predicate Finished(o: Obj) {
    o.phase == PodSucceeded || o.phase == PodFailed
  }

  // ---------------------------------------------------------------------------
  // Names
  // ---------------------------------------------------------------------------

  const MAX_NAME := 63

  function TrimRight(s: string): string {
    if s != "" && s[|s| - 1] in {'-', '.', '_'} then TrimRight(s[..|s| - 1]) else s
  }

  function TruncateName(name: string): string {
    if |name| > MAX_NAME then TrimRight(name[..MAX_NAME]) else name
  }

  function StepAbbrev(step: string): string {
    if step == "analysis" then "anl"
    else if step == "execution" then "exe"
    else if step == "verification" then "ver"
    else if step == "escalation" then "esc"
    else step
  }

  function ResultRoleName(run: string, step: string): string {
    "ls-result-" + step + "-" + run
  }

  const KUBECONFIG_PREFIX := "ls-sandbox-kubeconfig-"

  function KubeconfigSecretName(run: string, step: string): string {
    TruncateName(KUBECONFIG_PREFIX + StepAbbrev(step) + "-" + run)
  }

  // ---------------------------------------------------------------------------
  // Classifiers
  // ---------------------------------------------------------------------------

  /** Foreign: not the pass's business. Invalid: managed, but its step cannot be trusted. */
  datatype Identity = Foreign | Invalid | Valid(step: string)

  /** A step label that is absent or repeats the step the object was identified by. */
  predicate StepAgrees(mark: string, step: string) {
    mark == "" || mark == step
  }

  function LabelledStep(o: Obj, scope: Uid): Identity {
    if !InScope(o.run, scope) then Foreign
    else if StepAllowed(o.step) then Valid(o.step) else Invalid
  }

  function AccountStep(o: Obj, scope: Uid): Identity {
    if !InScope(o.run, scope) then Foreign
    else if |o.component| <= |ACCOUNT_SUFFIX| || o.component[|o.component| - |ACCOUNT_SUFFIX|..] != ACCOUNT_SUFFIX then Foreign
    else
      var step := o.component[..|o.component| - |ACCOUNT_SUFFIX|];
      if StepAllowed(step) && StepAgrees(o.step, step) then Valid(step) else Invalid
  }

  /** The first step, in order, whose result role has this name; empty when none has. */
  function ResultStep(name: string, run: string): string {
    if name == ResultRoleName(run, "analysis") then "analysis"
    else if name == ResultRoleName(run, "execution") then "execution"
    else if name == ResultRoleName(run, "verification") then "verification"
    else if name == ResultRoleName(run, "escalation") then "escalation"
    else ""
  }

  function RbacStep(o: Obj, scope: Uid): Identity {
    if !InScope(o.run, scope) then Foreign
    else if o.component == EXECUTION_RBAC then
      if StepAgrees(o.step, "execution") then Valid("execution") else Invalid
    else if o.component == RESULT_RBAC then
      var step := ResultStep(o.key.name, o.run);
      if step != "" && StepAgrees(o.step, step) then Valid(step) else Invalid
    else Foreign
  }

  /** Roles and RoleBindings: result access is trusted in the operator's namespace only. */
  function NamespacedRbacStep(o: Obj, scope: Uid, home: string): Identity {
    var id := RbacStep(o, scope);
    if id.Valid? && o.component == RESULT_RBAC && o.key.namespace != home then Invalid else id
  }

  function ClusterRoleStep(o: Obj, scope: Uid): Identity {
    if InScope(o.run, scope) && (o.component == RESULT_RBAC || o.component == READER_RBAC) then Invalid
    else RbacStep(o, scope)
  }

  function ClusterRoleBindingStep(o: Obj, scope: Uid): Identity {
    if !InScope(o.run, scope) then Foreign
    else if o.component == READER_RBAC then
      if StepAllowed(o.step) then Valid(o.step) else Invalid
    else if o.component == EXECUTION_RBAC then
      if StepAgrees(o.step, "execution") then Valid("execution") else Invalid
    else if o.component == RESULT_RBAC then Invalid
    else Foreign
  }

  function CredentialStep(name: string, run: string): string {
    if name == KubeconfigSecretName(run, "analysis") then "analysis"
    else if name == KubeconfigSecretName(run, "execution") then "execution"
    else if name == KubeconfigSecretName(run, "verification") then "verification"
    else if name == KubeconfigSecretName(run, "escalation") then "escalation"
    else ""
  }

  function SecretStep(o: Obj, scope: Uid): Identity {
    if !InScope(o.run, scope) || o.component != KUBECONFIG then Foreign
    else
      var step := CredentialStep(o.key.name, o.run);
      if StepAllowed(step) && StepAgrees(o.step, step) then Valid(step) else Invalid
  }

  function Classify(o: Obj, scope: Uid, home: string): Identity {
    match o.key.kind
    case Pod => LabelledStep(o, scope)
    case Claim => LabelledStep(o, scope)
    case Sandbox => LabelledStep(o, scope)
    case WarmPool => LabelledStep(o, scope)
    case ServiceAccount => AccountStep(o, scope)
    case Role => NamespacedRbacStep(o, scope, home)
    case RoleBinding => NamespacedRbacStep(o, scope, home)
    case ClusterRole => ClusterRoleStep(o, scope)
    case ClusterRoleBinding => ClusterRoleBindingStep(o, scope)
    case Secret => SecretStep(o, scope)
  }

  // ---------------------------------------------------------------------------
  // What cleanup answers for, stated without the classifiers
  // ---------------------------------------------------------------------------

  /** Workload or access of a run in scope; an empty scope is every run. */
  predicate Managed(o: Obj, scope: Uid) {
    o.run != "" && (scope == "" || o.run == scope) &&
    match o.key.kind
    case Pod => true
    case Claim => true
    case Sandbox => true
    case WarmPool => true
    case ServiceAccount => |o.component| > 3 && o.component[|o.component| - 3..] == "-sa"
    case Role => o.component in {"execution-rbac", "result-rbac"}
    case RoleBinding => o.component in {"execution-rbac", "result-rbac"}
    case ClusterRole => o.component in {"execution-rbac", "result-rbac", "reader-rbac"}
    case ClusterRoleBinding => o.component in {"execution-rbac", "result-rbac", "reader-rbac"}
    case Secret => o.component == "sandbox-kubeconfig"
  }

  /** Managed and still able to run or to grant access: anything but the finished Pod of a step. */
  predicate Live(o: Obj, scope: Uid) {
    Managed(o, scope) && !(o.key.kind == Pod && IsOver(o) && o.step in {"analysis", "execution", "verification", "escalation"})
  }

  predicate IsOver(o: Obj) {
    o.phase in {PodSucceeded, PodFailed}
  }

  /** The classifiers look past exactly the objects cleanup does not answer for. */
  lemma ManagedIsClassified(o: Obj, scope: Uid, home: string)
    ensures Classify(o, scope, home).Foreign? <==> !Managed(o, scope)
  {
  }
}
