/** Agreement between what a sandbox launch creates on the hub and what suspension
    cleanup recognises: every created object is classified as the run's, for its step. */
module Creation {
  import opened Objects

  /** The hub objects of one launch; execution access only exists for the execution step. */
  datatype Made =
    | BarePod | SandboxClaim | Pool | Account
    | ReaderBinding(suffix: string)
    | ResultRole | ResultBinding
    | ExecutionRole(namespace: string) | ExecutionBinding(bindingNamespace: string)
    | ExecutionClusterRole | ExecutionClusterBinding
    | Kubeconfig
  {
    predicate ForExecution() {
      ExecutionRole? || ExecutionBinding? || ExecutionClusterRole? || ExecutionClusterBinding?
    }
  }

  function Plain(kind: Kind, namespace: string, name: string, run: string, step: string, component: string): Obj {
    Obj(Key(kind, namespace, name), "", 0, run, step, component, [], "", Unreadable, PodPending, false)
  }

  function ExecutionRoleName(run: string): string {
    TruncateName("ls-exec-" + run)
  }

  function ClusterRoleName(run: string): string {
    TruncateName("ls-exec-cluster-" + run)
  }

  function AccountName(run: string, step: string): string {
    "ls-" + StepAbbrev(step) + "-" + run
  }

  function WorkloadName(run: string, step: string): string {
    "ls-" + step + "-" + run
  }

  /** The identity under which a launch of step for run creates m, in the operator's namespace home. */
  function Create(m: Made, run: string, step: string, home: string): Obj {
    match m
    case BarePod => Plain(Pod, home, WorkloadName(run, step), run, step, "")
    case SandboxClaim => Plain(Claim, home, WorkloadName(run, step), run, step, "")
    case Pool => Plain(WarmPool, home, WorkloadName(run, step), run, step, "")
    case Account => Plain(ServiceAccount, home, AccountName(run, step), run, "", step + ACCOUNT_SUFFIX)
    case ReaderBinding(suffix) =>
      Plain(ClusterRoleBinding, "", TruncateName("ls-reader-" + StepAbbrev(step) + "-" + run + "-" + suffix),
            run, step, READER_RBAC)
    case ResultRole => Plain(Role, home, ResultRoleName(run, step), run, "", RESULT_RBAC)
    case ResultBinding => Plain(RoleBinding, home, ResultRoleName(run, step), run, "", RESULT_RBAC)
    case ExecutionRole(ns) => Plain(Role, ns, ExecutionRoleName(run), run, "", EXECUTION_RBAC)
    case ExecutionBinding(ns) => Plain(RoleBinding, ns, ExecutionRoleName(run), run, "", EXECUTION_RBAC)
    case ExecutionClusterRole => Plain(ClusterRole, "", ClusterRoleName(run), run, "", EXECUTION_RBAC)
    case ExecutionClusterBinding => Plain(ClusterRoleBinding, "", ClusterRoleName(run), run, "", EXECUTION_RBAC)
    case Kubeconfig => Plain(Secret, home, KubeconfigSecretName(run, step), run, "", KUBECONFIG)
  }

  /** Trimming never reaches past a character it does not trim. */
  lemma {:induction false} TrimKeeps(s: string, keep: nat)
    requires 0 < keep <= |s|
    requires s[keep - 1] !in {'-', '.', '_'}
    ensures keep <= |TrimRight(s)| <= |s|
    ensures TrimRight(s) == s[..|TrimRight(s)|]
  {
    if s[|s| - 1] in {'-', '.', '_'} {
      TrimKeeps(s[..|s| - 1], keep);
    }
  }

  const STEP_AT := 22
  const STEP_END := 25

  /** Truncation never touches the step part of a kubeconfig Secret's name. */
  lemma KubeconfigKeepsStep(run: string, step: string)
    requires StepAllowed(step)
    ensures var name := KubeconfigSecretName(run, step);
            |name| >= STEP_END && name[STEP_AT..STEP_END] == StepAbbrev(step)
  {
    var prefix := KUBECONFIG_PREFIX + StepAbbrev(step);
    var full := KUBECONFIG_PREFIX + StepAbbrev(step) + "-" + run;
    assert |prefix| == STEP_END && full[..STEP_END] == prefix;
    assert prefix[STEP_AT..STEP_END] == StepAbbrev(step);
    assert full[STEP_END - 1] == StepAbbrev(step)[2];
    if |full| > MAX_NAME {
      TrimKeeps(full[..MAX_NAME], STEP_END);
    }
    var name := KubeconfigSecretName(run, step);
    assert name[..STEP_END] == prefix;
    assert name[STEP_AT..STEP_END] == prefix[STEP_AT..STEP_END];
  }

  lemma AbbreviationsDiffer(a: string, b: string)
    requires StepAllowed(a) && StepAllowed(b) && a != b
    ensures StepAbbrev(a) != StepAbbrev(b)
  {
    assert "anl"[0] != "exe"[0] && "anl"[0] != "ver"[0] && "anl"[0] != "esc"[0];
    assert "exe"[0] != "ver"[0] && "exe"[1] != "esc"[1] && "ver"[0] != "esc"[0];
  }

  /** The cleanup classifier inverts the Secret name, for run UIDs of any length. */
  lemma CredentialStepInverts(run: string, step: string)
    requires StepAllowed(step)
    ensures CredentialStep(KubeconfigSecretName(run, step), run) == step
  {
    forall other | StepAllowed(other) && other != step
      ensures KubeconfigSecretName(run, other) != KubeconfigSecretName(run, step)
    {
      KubeconfigKeepsStep(run, step);
      KubeconfigKeepsStep(run, other);
      AbbreviationsDiffer(step, other);
    }
  }

  lemma ResultStepInverts(run: string, step: string)
    requires StepAllowed(step)
    ensures ResultStep(ResultRoleName(run, step), run) == step
  {
    forall other | StepAllowed(other) && other != step
      ensures ResultRoleName(run, other) != ResultRoleName(run, step)
    {
      var a, b := ResultRoleName(run, other), ResultRoleName(run, step);
      assert a[10] == other[0] && b[10] == step[0];
      assert a[11] == other[1] && b[11] == step[1];
    }
  }

  lemma AccountComponent(step: string)
    requires StepAllowed(step)
    ensures var c := step + ACCOUNT_SUFFIX;
            |c| > |ACCOUNT_SUFFIX| && c[|c| - |ACCOUNT_SUFFIX|..] == ACCOUNT_SUFFIX &&
            c[..|c| - |ACCOUNT_SUFFIX|] == step
  {
  }

  /** What it takes for an object of a run in scope to be trusted as this step's: its labels, its
      component and its name all say so, and a step label, where it is not what identifies the
      object, does not say otherwise. */
  predicate Trusted(o: Obj, step: string, home: string) {
    step in {"analysis", "execution", "verification", "escalation"} &&
    match o.key.kind
    case Pod => o.step == step
    case Claim => o.step == step
    case Sandbox => o.step == step
    case WarmPool => o.step == step
    case ServiceAccount => o.component == step + "-sa" && o.step in {"", step}
    case Role => TrustedAccess(o, step) || (TrustedResult(o, step) && o.key.namespace == home)
    case RoleBinding => TrustedAccess(o, step) || (TrustedResult(o, step) && o.key.namespace == home)
    case ClusterRole => TrustedAccess(o, step)
    case ClusterRoleBinding => TrustedAccess(o, step) || (o.component == "reader-rbac" && o.step == step)
    case Secret => o.component == "sandbox-kubeconfig" && o.key.name == KubeconfigSecretName(o.run, step) && o.step in {"", step}
  }

  predicate TrustedAccess(o: Obj, step: string) {
    o.component == "execution-rbac" && step == "execution" && o.step in {"", "execution"}
  }

  predicate TrustedResult(o: Obj, step: string) {
    o.component == "result-rbac" && o.key.name == "ls-result-" + step + "-" + o.run && o.step in {"", step}
  }

  lemma StepOfName(name: string, run: string, step: string)
    requires StepAllowed(step)
    ensures ResultStep(name, run) == step <==> name == "ls-result-" + step + "-" + run
    ensures CredentialStep(name, run) == step <==> name == KubeconfigSecretName(run, step)
  {
    hide KubeconfigSecretName;
    ResultStepInverts(run, step);
    CredentialStepInverts(run, step);
  }

  lemma StepOfAccount(component: string, step: string)
    requires StepAllowed(step)
    ensures component == step + "-sa" <==>
              |component| > 3 && component[|component| - 3..] == "-sa" && component[..|component| - 3] == step
  {
    if |component| > 3 {
      assert component == component[..|component| - 3] + component[|component| - 3..];
    }
    AccountComponent(step);
  }

  lemma AccountIsTrusted(o: Obj, scope: Uid, step: string)
    requires InScope(o.run, scope)
    ensures AccountStep(o, scope) == Valid(step) <==> StepAllowed(step) && o.component == step + "-sa" && o.step in {"", step}
  {
    if StepAllowed(step) {
      StepOfAccount(o.component, step);
    }
  }

  lemma AccessIsTrusted(o: Obj, scope: Uid, step: string)
    requires InScope(o.run, scope)
    ensures RbacStep(o, scope) == Valid(step) <==> StepAllowed(step) && (TrustedAccess(o, step) || TrustedResult(o, step))
  {
    hide ResultStep, CredentialStep, KubeconfigSecretName;
    NamesAllow(o.key.name, o.run);
    if StepAllowed(step) {
      StepOfName(o.key.name, o.run, step);
    }
  }

  lemma CredentialIsTrusted(o: Obj, scope: Uid, step: string)
    requires InScope(o.run, scope)
    ensures SecretStep(o, scope) == Valid(step) <==>
              StepAllowed(step) && o.component == "sandbox-kubeconfig" && o.key.name == KubeconfigSecretName(o.run, step) &&
              o.step in {"", step}
  {
    hide ResultStep, CredentialStep, KubeconfigSecretName;
    NamesAllow(o.key.name, o.run);
    if StepAllowed(step) {
      StepOfName(o.key.name, o.run, step);
    }
  }

  /** The classifiers trust exactly such objects. */
  lemma ValidIsTrusted(o: Obj, scope: Uid, home: string, step: string)
    ensures Classify(o, scope, home) == Valid(step) <==>
              o.run != "" && (scope == "" || o.run == scope) && Trusted(o, step, home)
  {
    hide KubeconfigSecretName, ResultStep, CredentialStep;
    if InScope(o.run, scope) {
      match o.key.kind
      case ServiceAccount => AccountIsTrusted(o, scope, step);
      case Secret => CredentialIsTrusted(o, scope, step);
      case _ => AccessIsTrusted(o, scope, step);
    }
  }

  lemma NamesAllow(name: string, run: string)
    ensures ResultStep(name, run) == "" || StepAllowed(ResultStep(name, run))
    ensures CredentialStep(name, run) == "" || StepAllowed(CredentialStep(name, run))
  {
  }

  /** Whatever a launch creates, the run's own cleanup pass and the global one both
      recognise as managed and of exactly the launched step. */
  lemma CreatedIsRecognised(m: Made, run: string, step: string, home: string, scope: Uid)
    requires run != "" && StepAllowed(step)
    requires m.ForExecution() ==> step == "execution"
    requires scope == "" || scope == run
    ensures Classify(Create(m, run, step, home), scope, home) == Valid(step)
  {
    hide ResultStep, CredentialStep, KubeconfigSecretName, ResultRoleName;
    match m
    case Account => AccountComponent(step);
    case ResultRole => ResultStepInverts(run, step);
    case ResultBinding => ResultStepInverts(run, step);
    case Kubeconfig => CredentialStepInverts(run, step);
    case _ =>
  }

  /** ... and no other run's pass does. */
  lemma CreatedIsForeignElsewhere(m: Made, run: string, step: string, home: string, scope: Uid)
    requires scope != "" && scope != run
    ensures Classify(Create(m, run, step, home), scope, home) == Foreign
  {
  }

  const LONGEST_FULL_UID := 37

  /** Secret names of UIDs short enough not to be truncated identify run and step. */
  lemma SecretNamesIdentify(run: string, step: string, otherRun: string, otherStep: string)
    requires StepAllowed(step) && StepAllowed(otherStep)
    requires |run| <= LONGEST_FULL_UID && |otherRun| <= LONGEST_FULL_UID
    requires KubeconfigSecretName(run, step) == KubeconfigSecretName(otherRun, otherStep)
    ensures run == otherRun && step == otherStep
  {
    KubeconfigKeepsStep(run, step);
    KubeconfigKeepsStep(otherRun, otherStep);
    if step != otherStep {
      AbbreviationsDiffer(step, otherStep);
    }
    assert run == KubeconfigSecretName(run, step)[STEP_END + 1..];
    assert otherRun == KubeconfigSecretName(otherRun, otherStep)[STEP_END + 1..];
  }
}
