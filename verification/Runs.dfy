/** One AgenticRun: the fields its controllers read and write, and what they derive from them. */
module Runs {
  import opened Conditions

  /** Object UIDs; the empty string is a missing one. */
  type Uid = string
  const NO_UID: Uid := ""

  datatype ConditionType =
    | Analyzed | Executed | Verified | Denied | Escalated | EmergencyStopped | StopProgress

  type RunConditions = map<ConditionType, Condition>

  datatype Phase =
    | Pending | Analyzing | Proposed | Executing | Verifying | Completed
    | PhaseFailed | PhaseDenied | Escalating | PhaseEscalated | PhaseEmergencyStopped

  datatype Stage = Analysis | Execution | Verification | Escalation

  datatype SandboxInfo = SandboxInfo(claimName: string, namespace: string)
  const NO_SANDBOX := SandboxInfo("", "")

  datatype ResultRef = ResultRef(name: string, succeeded: bool)
  datatype StageStatus = StageStatus(sandbox: SandboxInfo, results: seq<ResultRef>)

  datatype Stages = Stages(analysis: StageStatus, execution: StageStatus, verification: StageStatus, escalation: StageStatus)
  {
    function At(s: Stage): StageStatus {
      match s
      case Analysis => analysis
      case Execution => execution
      case Verification => verification
      case Escalation => escalation
    }

    function With(s: Stage, x: StageStatus): Stages {
      match s
      case Analysis => this.(analysis := x)
      case Execution => this.(execution := x)
      case Verification => this.(verification := x)
      case Escalation => this.(escalation := x)
    }

    function WithSandbox(s: Stage, info: SandboxInfo): Stages {
      With(s, At(s).(sandbox := info))
    }

    function WithResult(s: Stage, ref: ResultRef): Stages {
      With(s, At(s).(results := At(s).results + [ref]))
    }

    function Cleared(): Stages {
      Stages(analysis.(sandbox := NO_SANDBOX), execution.(sandbox := NO_SANDBOX),
             verification.(sandbox := NO_SANDBOX), escalation.(sandbox := NO_SANDBOX))
    }

    predicate HasSandbox() {
      analysis.sandbox != NO_SANDBOX || execution.sandbox != NO_SANDBOX ||
      verification.sandbox != NO_SANDBOX || escalation.sandbox != NO_SANDBOX
    }

    predicate HasClaim() {
      analysis.sandbox.claimName != "" || execution.sandbox.claimName != "" ||
      verification.sandbox.claimName != "" || escalation.sandbox.claimName != ""
    }
  }

  const FRESH_STAGE := StageStatus(NO_SANDBOX, [])
  const FRESH_STAGES := Stages(FRESH_STAGE, FRESH_STAGE, FRESH_STAGE, FRESH_STAGE)

  /** Token counters are optional 64-bit integers. */
  datatype TokenUsage = TokenUsage(input: Option<int>, output: Option<int>)
  const NO_TOKENS := TokenUsage(None, None)

  datatype Spec = Spec(targetCluster: string, revisionFeedback: string, hasExecution: bool, hasVerification: bool,
                       terminalTtl: Option<int>)

  datatype Run = Run(
    name: string,
    uid: Uid,
    version: nat,
    generation: nat,
    ttlLabel: string,
    rbacNamespaces: string,
    preserve: bool,
    spec: Spec,
    conditions: RunConditions,
    stages: Stages,
    tokens: TokenUsage,
    terminalTime: Option<int>,
    deleteAfter: Option<int>)

  function StageCondition(s: Stage): ConditionType {
    match s
    case Analysis => Analyzed
    case Execution => Executed
    case Verification => Verified
    case Escalation => Escalated
  }

  function DerivePhase(cs: RunConditions): Phase {
    if Holds(cs, EmergencyStopped, True) then PhaseEmergencyStopped
    else if Holds(cs, Escalated, True) then PhaseEscalated
    else if Holds(cs, Denied, True) then PhaseDenied
    else if Escalated in cs then
      if cs[Escalated].status == Unknown then Escalating else PhaseFailed
    else if Verified in cs then
      match cs[Verified].status
      case True => Completed
      case Unknown => Verifying
      case False => PhaseFailed
    else if Executed in cs then
      match cs[Executed].status
      case True => Verifying
      case Unknown => Executing
      case False => PhaseFailed
    else if Analyzed in cs then
      match cs[Analyzed].status
      case True => if cs[Analyzed].reason == NoActionRequired then Completed else Proposed
      case Unknown => Analyzing
      case False => PhaseFailed
    else Pending
  }

  predicate IsTerminal(p: Phase) {
    p in {Completed, PhaseFailed, PhaseDenied, PhaseEscalated, PhaseEmergencyStopped}
  }

  predicate Terminal(r: Run) {
    IsTerminal(DerivePhase(r.conditions))
  }

  /** A stop accepted but not yet finished. */
  predicate StopPending(cs: RunConditions) {
    HoldsFor(cs, StopProgress, True, SystemSuspended)
  }

  predicate HasFinalStopOutcome(cs: RunConditions) {
    || HoldsFor(cs, StopProgress, False, TeardownComplete)
    || HoldsFor(cs, StopProgress, False, TeardownFailed)
    || Holds(cs, EmergencyStopped, True)
    || exists t :: t in cs && cs[t].status == False && cs[t].reason == EmergencyStopFailed
  }

  predicate HasAcceptedStop(cs: RunConditions) {
    StopPending(cs) || HasFinalStopOutcome(cs)
  }

  /** Terminal with a stop marker still waiting for its outcome: history is kept. */
  predicate TerminalStopIntent(cs: RunConditions) {
    IsTerminal(DerivePhase(cs)) && StopPending(cs)
  }

  predicate NeedsRevision(r: Run) {
    r.spec.revisionFeedback != "" && Analyzed in r.conditions &&
    r.generation > r.conditions[Analyzed].observedGeneration
  }

  predicate NoActionNeeded(r: Run) {
    HoldsFor(r.conditions, Analyzed, True, NoActionRequired)
  }

  /** The condition a failed stop writes, by the phase the run was in. */
  function SuspensionFailureCondition(p: Phase): Option<ConditionType> {
    match p
    case Pending => Some(Analyzed)
    case Analyzing => Some(Analyzed)
    case Proposed => Some(Executed)
    case Executing => Some(Executed)
    case Verifying => Some(Verified)
    case Escalating => Some(Escalated)
    case _ => None
  }

  /** Whether recorded state shows remote execution or access of a targeted run. */
  predicate RemoteEvidence(r: Run) {
    r.spec.targetCluster != "" &&
    (r.stages.HasClaim() || r.rbacNamespaces != "" ||
     exists t :: t in r.conditions && t != StopProgress && r.conditions[t].status == Unknown)
  }

  const SUSPENSION_STOP_WINDOW: int := 10 * SECOND

  /** Terminal runs recorded before the activation keep their outcome unmarked. */
  predicate TerminalRunMayBeAffected(r: Run, start: int) {
    r.terminalTime.None? || r.terminalTime.value == NO_TIME || r.terminalTime.value >= start
  }

  predicate Affected(r: Run, start: int) {
    !Terminal(r) || TerminalRunMayBeAffected(r, start)
  }
}
