# The kill switch of the agentic operator

The operator runs *AgenticRuns*: analysis, execution, verification and escalation steps, each in a
sandbox on the hub. One global object, `AgenticOLSConfig`, carries the kill switch. While it is on,
every run must accept a stop, everything a run has on the hub is removed, and the status of the
object says whether it is safe to resume.

Several controllers, administrators and timers act on the same Kubernetes objects and coordinate
only through resource versions, generations, UIDs and condition lists. This project models that
protocol and proves what it promises over every interleaving.

## How it is built

* **One machine for all writers** (`Machine`). Each request to the API server is one atomic action.
  A controller may act on any copy of a run or of the configuration that was ever stored, however
  stale; a status patch takes effect only while the stored version is the one it was computed from.
  `RunWrites` and `Configs` give every status write: the guards of the code path that issues it,
  judged on the copy it read, and the object it puts in place. A crash between two requests is a
  history that goes on without that controller. `Reachable` is any state some history leads to.
* **The controllers as they are written** (`ApiServers`, `RunController`, `ConfigController`,
  `StepWriters`, `TerminalRecords`). The class `ApiServer` is that machine driven by a script: before
  each request everyone else may act any number of times, and the request may be refused, fail, or
  take effect without its caller learning of it. The retry loops are methods over it. `setbacks` counts
  the requests that failed or met something newer or gone: without one, no controller ends in an error.
* **The cleanup pass as it is written** (`ObjectStores`, `Reports`, `Ownership`, `CleanupRequests`,
  `CleanupWork`, `Inventories`, `CleanupPlanning`, `CleanupRest`, `CleanupSweep`, `Cleanup`). The class
  `ObjectStore` holds the hub objects; between requests others may create, replace, relabel and delete
  at will. Since any request may fail, and all later ones with it, what is proved of every pass is also
  proved of a pass cut short anywhere.
* **What the words mean** (`Vocabulary`, `Phases`). The terms in which results speak of runs, evidence
  and time are written out there over the stored fields with every constant in place, apart from the
  predicates the controllers compute with, and the two are proved to agree.
* **Smaller loops**: `Completion` (step completion and token accounting), `TerminalRecords`, `Expiry`
  and `RetentionRaces` (retention), `ReaderAccess` (temporary reader bindings), `Creation` (what a launch
  creates against what cleanup recognises), `StoredLogs` (log paging), `ConditionLists` (condition
  lists against the keyed form used elsewhere).

## What does not hold without a condition

* A revision of a run that carries the retention label first clears the label by an unlocked patch,
  whose response replaces the controller's copy. A stop accepted in between is rewritten by the
  status half: in `RevisionRace.StoppedRunIsRevised` a run whose end was recorded before it was labelled,
  and which the global controller had to stop, ends with a final stop outcome in phase Analyzing.
  `KillSwitch.RevisionRewritesExactlyUnchecked` shows that nothing else does: a request other than the
  outcome write changes the conditions of a stopped run if and only if it is such a second half, takes
  effect, and the run was not under revision already. Without one whose copy carries the stop, the
  conditions change at most once after acceptance (`KillSwitch.FrozenFromAcceptance`). Results, tokens
  and sandbox references stay frozen even then.
* The retention label promises a recorded deadline exactly when the copy it was patched on had one
  (`TerminalRecords.LabelKeepsPromiseExactly`), and over a history it is ever broken exactly when some
  label patch took effect without one (`TerminalRecords.LabelBreaksPromiseExactly`). Where reconciles of one run never overlap it always has
  (`TerminalRecords.SerialisedLabelImpliesDeadline`); two that overlap can break it
  (`RetentionRaces.LabelledWithoutDeadline`).
* The sweep deletes by name on the strength of a cached copy, so that it can remove a run under analysis
  (`RetentionRaces.RevisedRunIsSwept`). What it removes is expired as long as nobody revised the run,
  asked for its preservation, finished or failed a step of it without looking at its phase, or created
  another run under its name, since the copy was stored (`Expiry.ExpiredStands`,
  `TerminalRecords.SweepExpiredRuns`). The deadline itself goes missing if and only if a revision takes
  effect (`Expiry.DeadlineMovesExactlyByRevision`).
* A delete compares UIDs, not labels: it hits another run's object if and only if that very object bore
  the run's label at an earlier instant and had been moved to the other run by the time of the delete
  (`CleanupRequests.NeverAnotherRuns`; `CleanupRequests.MovedObjectIsDeleted` is such a history).
* Token totals are the sums over the linked results if and only if those sums fit in 64 bits.
* Without the completion lock a step is linked twice (`Completion.UnserialisedLinksTwice`).
* Reader access is complete after success if and only if sources whose binding names collide grant the
  same role; names collide exactly when the digests of the sources do (`ReaderAccess.NamesIdentify`).
* The configuration controller can supply a missing SafeToResume condition on its own, but from a fresh
  object on that is never needed (`Activations.SafetyConditionIsNeverMissing`).

## Model

| member | source | states |
|---|---|---|
| KillSwitch.StopIsMonotone | controller/agenticrun/helpers.go:175-182 | over every later history an accepted stop stays accepted, its recorded start and its final outcome never change, TeardownFailed never becomes TeardownComplete |
| KillSwitch.StopAdvancesOneStage | controller/agenticrun/handlers.go:537-654 | no request skips a stage of absent, accepted, final, or goes back |
| KillSwitch.WriteAdvancesStop | controller/agenticrun/handlers.go:555-642 | only an acceptance writes the marker, only an outcome finishes it |
| KillSwitch.MarkerBearsItsAcceptance | controller/agenticrun/handlers.go:555-566 | over every history, the start that any stored version of a pending stop bears is the start of an acceptance write of that run that took effect |
| KillSwitch.EmergencyStoppedIsForever | controller/agenticrun/handlers.go:604-622 | EmergencyStopped implies TeardownComplete, no sandbox reference and no failed stop, and the phase is EmergencyStopped in every later state |
| KillSwitch.FrozenAfterAcceptance | controller/agenticrun/pod_handler.go:329-438 | after acceptance only the outcome write and a revision on a refreshed copy change a condition; results and tokens are final and sandbox references can only be cleared |
| KillSwitch.FrozenAfterOutcome | controller/agenticrun/helpers.go:184-205 | after the final outcome no history without a revision whose refreshed copy carries the stop changes any condition |
| KillSwitch.FrozenFromAcceptance | controller/agenticrun/helpers.go:184-205 | over every such history from acceptance on, the conditions change at most once, by the stop outcome written on exactly the accepted ones |
| KillSwitch.RevisionRewritesExactlyUnchecked | controller/agenticrun/handlers.go:110-135 | a request other than the outcome write changes a stopped run's conditions if and only if it is the second half of a labelled revision taking effect on a run not already under revision; its copy then carries the stop |
| RevisionRace.StoppedRunIsRevised | controller/agenticrun/handlers.go:110-135 | a reachable run with a final stop outcome whose phase is Analyzing; when it was marked it had been stamped and labelled, and was affected by the activation |
| StopOutcomes.OutcomeEndsTheRun | controller/agenticrun/handlers.go:604-642 | for every condition list the outcome ends the run: EmergencyStopped when confirmed, Failed through the condition of the step it was in from each of the six open phases when not, unchanged phase if it had already ended; the marker turns False as TeardownComplete or TeardownFailed, whichever was confirmed, in every case |
| StopOutcomes.FailureConditionFails | controller/agenticrun/handlers.go:753-766 | the condition chosen by phase makes the derived phase Failed |
| StopOutcomes.AcceptanceKeepsPhase | controller/agenticolsconfig/reconciler.go:512-526 | the stop marker alone never changes the derived phase |
| StopOutcomes.OutcomeIsWrittenOnce | controller/agenticrun/handlers.go:590-602 | after an outcome no further outcome is enabled |
| Phases.PhaseTable | api/v1alpha1/agenticrun_types.go:61-130 | every set of conditions is in exactly one phase: by what overrules it, else by the furthest step that has a condition; five phases are terminal |
| Phases.PhaseOfWrite | controller/agenticrun/reconciler.go:296-330 | every write is issued only from the phases its handler is routed from and leads to the phase the workflow says; acceptance, sandboxes and retention change none |
| RunWrites.MarkerDecides | controller/agenticrun/handlers.go:701-719 | on reachable condition lists acceptance is the presence of the marker and a final outcome is that marker turned False |
| RunWrites.WriteKeeps | controller/agenticrun/helpers.go:274-276 | every status write keeps the stop markers well formed and is a later version of what it replaces |
| RunWrites.OutcomeKeeps | controller/agenticrun/handlers.go:576-654 | the outcome write keeps markers, history and the EmergencyStopped invariant |
| RunWrites.AddTokensPaired | controller/agenticrun/pod_handler.go:444-462 | counters set together stay together and the dereferences never fault |
| ConditionLists.PhaseOfList | api/v1alpha1/agenticrun_types.go:61-130 | the loop over a condition list computes the phase derived from the keyed form |
| ConditionLists.FinalStopOutcomeOfList | controller/agenticrun/handlers.go:701-719 | the loop over a condition list decides the final outcome of the keyed form |
| ConditionLists.SettingIsKeyed | controller/agenticolsconfig/reconciler.go:71-74 | setting a condition in a list is setting it by type |
| ConditionLists.SettingKeepsUnique | controller/agenticolsconfig/reconciler.go:71-74 | setting keeps one entry per type |
| Machine.ActionKeeps | controller/agenticrun/helpers.go:274-276 | every request on any stale copy keeps all invariants and forgets nothing observed |
| Machine.ExecKeeps | controller/agenticrun/helpers.go:274-276 | and so does every finite history |
| Machine.PassStaysSound | controller/agenticolsconfig/reconciler.go:387-435 | what a suspension pass established about runs, completeness of its listing included, stays true in later states |
| Machine.ListingIsComplete | controller/agenticolsconfig/reconciler.go:375-386 | a listing of everything stored at some state names, in every later state, each run stored by then that is still stored |
| Machine.DeadlineMovesOnlyByRevision | controller/agenticrun/handlers.go:123-125 | a recorded retention deadline moves only by a revision, which removes it |
| Activations.SafeToResumeIsSound | controller/agenticolsconfig/reconciler.go:361-471 | SafeToResume=True for the generation in force was written by a pass of exactly the activation in force, which listed its runs after that activation was accepted and found nothing live; every run stored by that listing is, now and in every later state, gone, or bears a stop marker, unless it was listed in one of the five terminal phases with an end recorded before the activation began; and it was judged with nothing remote to show |
| Activations.AdmittedResumeIsSafe | config/admission/agenticolsconfig-safety-policy.yaml:13-46 | a switch-off or a deletion the admission policy lets through finds that protection in place, for good |
| Activations.ActivationStartIsStable | controller/agenticolsconfig/reconciler.go:61-74 | within one object and generation there is one activation start |
| Activations.MatchesBracketSuspension | controller/agenticrun/suspension_cleanup.go:50-85 | two matches of one activation bracket an interval in which the same object stayed suspended |
| Activations.StatusIsHonest | controller/agenticolsconfig/reconciler.go:140-251 | Suspended for the current generation agrees with the switch, and AdminActivated implies a confirmed SafeToResume |
| Activations.ErrorsAreSticky | controller/agenticolsconfig/reconciler.go:621-635 | AdminActivatedWithErrors stays until the generation changes |
| Activations.SafetyConditionIsNeverMissing | controller/agenticolsconfig/reconciler.go:161-166 | an accepted activation always has its SafeToResume condition |
| Configs.ConfigWriteKeeps | controller/agenticolsconfig/reconciler.go:587-605 | every status write of the configuration keeps it well formed and, within a generation, keeps switch, start and errors |
| Configs.ActivationSurvivesStorage | controller/agenticolsconfig/reconciler.go:61-69 | a fresh activation is recognised after storage has dropped fractions of a second |
| Configs.OutcomeAtDeadline | controller/agenticolsconfig/reconciler.go:621-635 | errors stay on record; otherwise an outcome is an error exactly on unresolved evidence at the deadline, Stopping exactly on unresolved evidence before it, and AdminActivated exactly on resolved evidence, which is safe |
| Configs.StatusAgreesWithAdmission | cli/system/status.go:106-141 | the status command says confirmed exactly when the admission policy allows the resume |
| Configs.RequeueNeverSkipsDeadline | controller/agenticolsconfig/reconciler.go:483-489 | the next pass is never after the deadline when this one was before it |
| ApiServers.ApiServer.PatchRun | controller/agenticrun/helpers.go:274-276 | a locked patch puts exactly the computed object in place or nothing, also when its caller learns of a failure only, keeps all invariants, and without being a revision moves no deadline |
| ApiServers.ApiServer.PatchConfig | controller/agenticolsconfig/reconciler.go:606-616 | a locked patch of the configuration keeps all invariants, given that a safe outcome rests on a sound pass |
| ApiServers.ApiServer.RequireCurrentActivation | controller/agenticrun/suspension_cleanup.go:64-85 | success means the stored configuration represents the activation; superseded means it does not; no verdict means a request failed |
| RunController.PersistRunStop | controller/agenticrun/handlers.go:537-574 | returns the run accepted or ended, or gone for good, having written acceptances only; a stop it wrote itself bears exactly the start it was given, and is stored so even if the reply was lost |
| RunController.WriteSuspensionOutcome | controller/agenticrun/handlers.go:576-654 | a returned run that had accepted a stop has its final outcome |
| RunController.ClearRunSandboxInfo | controller/agenticrun/handlers.go:656-685 | a returned run refers to no sandbox |
| RunController.SuspensionCleanupPass | controller/agenticrun/handlers.go:514-535 | confirmed means nothing of the run was live at some instant for every kind, and no remote evidence; a run without remote evidence is confirmed where nobody interferes, nothing fails and everything is well identified |
| RunController.FailThenClean | controller/agenticrun/handlers.go:424-449 | past the window, without error the stop is over or the run gone; no further pass is needed only for a run that is gone |
| RunController.CleanThenDecide | controller/agenticrun/handlers.go:451-511 | no further pass is asked for only if the run is gone, or nothing of it was live, it shows no remote execution, and its accepted stop is over; a stop past its window is over unless a request failed; teardown is completed only on a copy without remote evidence; the next pass does not miss the deadline |
| RunController.HandleSuspensionAt | controller/agenticrun/handlers.go:362-512 | deadline progress: whatever stop was stored as begun ten seconds before the pass or earlier has its outcome after it, unless a request failed or the run is gone; a stop accepted here is stored as begun with its activation; no further pass only when the run is gone or everything was clear, no remote execution shown, and the stop final or the run ended without one; otherwise a next pass not after the deadline of the stop as read or as accepted in this pass; TeardownComplete or cleared references only after a second inventory of every kind showed nothing live and without remote evidence; TeardownFailed only past the window; within it a pass that finds everything in order asks for no other; an error only after a failed or conflicting request |
| RunController.AcceptedEndsInTime | controller/agenticrun/handlers.go:362-512 | a stop accepted in one pass has its outcome after any later pass that ends without an error and begins ten seconds after the activation or later, if the run is still stored |
| RunController.DecideUnconfirmed | controller/agenticrun/handlers.go:493-511 | without confirmation a further pass is always asked for, not after the deadline; past the deadline the stop is over or the run gone, unless a request failed; only then is the failed outcome written |
| ConfigController.EnsureActivationStatus | controller/agenticolsconfig/reconciler.go:140-206 | an active result is a stored configuration that matches the activation returned |
| ConfigController.HandleDeactivation | controller/agenticolsconfig/reconciler.go:208-251 | done means the switch is off and reported off for its generation, or never reported; a requeue means the switch was found on |
| ConfigController.PersistRunStop | controller/agenticolsconfig/reconciler.go:491-537 | marked means the listed run has accepted the stop; disappeared means its UID is gone for good; it writes to that run only, and a stop it wrote bears exactly the start of the activation |
| ConfigController.ProcessRun | controller/agenticolsconfig/reconciler.go:387-434 | judging one more run keeps the pass sound unless something is reported against it; it is written to only if it was not ended and recorded so before the activation, and unless reported unsaved it has then answered; an outcome is reported pending exactly for a run still open under the stop, and remote execution only for a run that showed it |
| ConfigController.MarkRuns | controller/agenticolsconfig/reconciler.go:375-435 | the runs judged are exactly those stored at one state of the call, after the acceptance; no run in a terminal phase with an end recorded before the activation is written to, and unless something is reported unsaved every other one is gone or bears the stop marker; the findings are sound for all of them; superseded means the activation lapsed; anything unsaved means a request failed |
| ConfigController.PatchActivationOutcome | controller/agenticolsconfig/reconciler.go:558-619 | what is recorded still matches the activation, is safe exactly for safe evidence, and its reason follows from the evidence, the deadline and the reason stored when it was decided: errors stay, unsettled evidence is an error at the deadline and Stopping before it, settled evidence is AdminActivated; nothing else is written, and a safe record rests on the given pass unless nothing had to be written; it is left unrecorded only when the activation lapsed or a request failed |
| ConfigController.ReconcileSuspension | controller/agenticolsconfig/reconciler.go:361-471 | a safe record means nothing was live for every kind at some instant of this pass, and every run stored at the state it listed is gone, or bears the stop marker unless it had ended and been recorded so before the activation, and was judged since with nothing remote to show; its basis is that listing and the second inventory; the reason on record follows from the evidence as above, errors being new only ten seconds after the start or when the first window was cut short; a clean record means every run in progress at the listing has ended under the stop; nothing is recorded only if the activation lapsed or a request failed; and where nobody interferes, nothing fails, everything is well identified and no run showed remote execution, the record is safe |
| ConfigController.Reconcile | controller/agenticolsconfig/reconciler.go:91-131 | a whole reconcile keeps every invariant, deletes only validated objects, writes nothing to runs but stop acceptances, and unless a request failed records an outcome or found the suspension absent, off or lapsed |
| StepWriters.ReadRunnableRun | controller/agenticrun/helpers.go:184-205 | a runnable answer means the run had accepted no stop before the call; a refusal means that in some state of the call it was not runnable |
| StepWriters.PatchOnce | controller/agenticrun/pod_handler.go:329-438 | a guarded write is made on an unstopped version seen since the call began, none is made once a stop is accepted, and none is withheld without a stop, a closed step or a failed request; a write reported as made is the only one, and the stored run has each step's earlier results and those of this write after them |
| StepWriters.PatchSandboxInfo | controller/agenticrun/sandbox_agent.go:258-299 | retrying on conflicts never writes past an accepted stop; a write reported as made leaves this sandbox recorded for this step |
| StepWriters.CompleteStep | controller/agenticrun/pod_handler.go:233-303 | only the write that fits how the sandbox ended is made, on an unstopped version, and it is withheld only for a closed step, a stop or a failed request; once made, a reported end has added its one result and turned the step True, an agent's failure has added its one result and turned it False, opening the escalation after a verification, any other end has turned it False, and no other step's results have changed |
| ObjectStores.ObjectStore.Delete | controller/agenticrun/suspension_cleanup.go:978-988 | only the object of this key and UID is ever hit |
| ObjectStores.ObjectStore.PatchLabels | controller/agenticrun/suspension_cleanup.go:1024-1043 | only the exact version read is ever labelled |
| Reports.Report.Append | controller/agenticrun/suspension_cleanup.go:1375-1382 | a message is kept once |
| Reports.Report.RecordUnverified | controller/agenticrun/suspension_cleanup.go:1367-1373 | an error is returned exactly when failures or unverified items are reported |
| Reports.Report.RecordFailure | controller/agenticrun/suspension_cleanup.go:1362-1365 | the same for a failed operation |
| Reports.Report.RecordPending | controller/agenticrun/suspension_cleanup.go:1358-1360 | pending work is no error |
| Ownership.ControllerIsFound | controller/agenticrun/suspension_cleanup.go:275-289 | a Sandbox's single controller, if worked on, is the owner found |
| Ownership.Graph.AddClaims | controller/agenticrun/suspension_cleanup.go:220-258 | unless something is reported, every claim in scope is worked on |
| Ownership.Graph.AddSandbox | controller/agenticrun/suspension_cleanup.go:270-365 | every claim controlling the Sandbox waits for it under its own identity, or is blocked and reported |
| Ownership.Graph.Unclaimed | controller/agenticrun/suspension_cleanup.go:309-341 | a labelled Sandbox is taken on only with a valid step and no unvalidated owner |
| Ownership.Graph.AddSandboxes | controller/agenticrun/suspension_cleanup.go:269-366 | the same for a whole inventory, and unless something is reported every labelled Sandbox in scope is worked on |
| Ownership.Graph.LinkPod | controller/agenticrun/suspension_cleanup.go:370-496 | unless something is reported, the listed Sandbox of a Pod in scope is worked on under the Pod's identity; linking only adds and blocks, and blocks nothing unreported |
| Ownership.Graph.CheckStatus | controller/agenticrun/suspension_cleanup.go:499-541 | a claim is blocked and reported exactly when its status Sandbox is not listed, its own and waited for, or Sandboxes could not be listed |
| CleanupRequests.PatchRunIdentity | controller/agenticrun/suspension_cleanup.go:1001-1051 | success returns the same object, stored with exactly this identity |
| CleanupRequests.DeleteObject | controller/agenticrun/suspension_cleanup.go:970-988 | every delete carries the UID of a version validated for the scope, and of a Pod one read as not finished |
| CleanupRequests.DeletePod | controller/agenticrun/suspension_cleanup.go:885-945 | safe means the Pod is absent or has succeeded or failed, completed that it is there and has; anything else is reported, and as pending only where a finalizer or another client is at work; a finished Pod is kept |
| CleanupRequests.RemovePod | controller/agenticrun/suspension_cleanup.go:946-968 | an active Pod counts as removed only when read back as absent, and only one read as not finished is deleted |
| CleanupRequests.NeverAnotherRuns | controller/agenticrun/suspension_cleanup.go:978-988 | a delete made for one run hits another run's object if and only if at an earlier instant that object bore the run's label and from a later one up to the delete another's |
| CleanupRequests.MovedObjectIsDeleted | controller/agenticrun/suspension_cleanup.go:978-988 | an isolated history in which it does |
| CleanupWork.SecureSandbox | controller/agenticrun/suspension_cleanup.go:556-598 | a ready Sandbox is gone or carries its identity, and its Pod is gone or finished |
| CleanupWork.ProcessSandboxes | controller/agenticrun/suspension_cleanup.go:543-600 | the same for every Sandbox worked on, and no claim is removed meanwhile |
| CleanupWork.DeleteManaged | controller/agenticrun/suspension_cleanup.go:602-779 | only objects classified as the scope's are deleted; unless something is reported, every one of them is |
| CleanupWork.DeletePods | controller/agenticrun/suspension_cleanup.go:621-642 | remaining Pods are removed under their own identity only |
| CleanupWork.RemovingKeepsNothingLost | controller/agenticrun/suspension_cleanup.go:781-794 | removing a claim whose Sandboxes are all ready loses none of them |
| CleanupWork.DeleteClaims | controller/agenticrun/suspension_cleanup.go:781-794 | claims go last, and only with every Sandbox they control accounted for |
| Inventories.OptionalTypeAbsent | controller/agenticrun/suspension_cleanup.go:800-839 | absent means the type was read as not installed, hence none of its objects existed |
| Inventories.TakeInventory | controller/agenticrun/suspension_cleanup.go:143-208 | without a report all ten lists show what was stored at some instant of the pass |
| Inventories.Judge | controller/agenticrun/suspension_cleanup.go:1110-1126 | without a report nothing listed can still run or grant access |
| Inventories.ConfirmInventory | controller/agenticrun/suspension_cleanup.go:1106-1352 | without a report there was for each of the ten kinds an instant with nothing live in scope, Roles and RoleBindings looked for in every namespace, and what it returns is, kind by kind, exactly what was stored in scope at some instant |
| CleanupPlanning.BuildGraph | controller/agenticrun/suspension_cleanup.go:220-541 | the whole graph blocks nothing unreported, and every claim waits for every Sandbox it controls or is blocked; unless something is reported it covers every claim, Sandbox and Pod in scope |
| CleanupRest.DeleteRest | controller/agenticrun/suspension_cleanup.go:602-779 | unless something is reported, all other kinds are deleted and all Pods in scope absent or finished |
| CleanupSweep.RemoveAll | controller/agenticrun/suspension_cleanup.go:543-794 | the removals in order: no descendant lost by any pass, and everything inventoried dealt with by a clean one |
| CleanupSweep.SweptIsSettled | controller/agenticrun/suspension_cleanup.go:1106-1352 | with nobody else writing and no finalizer in the way, such removals leave nothing for the second inventory |
| Cleanup.CleanLeavesNothing | controller/agenticrun/suspension_cleanup.go:269-366 | in a frozen environment a clean pass leaves no claim in scope and no Sandbox of one or of a Pod in scope, labelled or not |
| Cleanup.CleanupSuspension | controller/agenticrun/suspension_cleanup.go:134-798 | isolation under any interference, every Pod deleted having been stored as not finished, nothing touched once overtaken and overtaken only if the activation lapsed, error exactly when failures or unverified items exist; a confirmed pass had for every kind an instant of its second inventory, taken after all removals, with nothing live in scope, every Pod having succeeded or failed; in a frozen environment no finished Pod is removed, no descendant lost by any pass and none left by a confirmed one; without finalizers, a frozen pass is confirmed if and only if it ends without error, and it does so where no request fails and everything is well identified |
| CleanupPlanning.LaunchedAreWellIdentified | controller/agenticrun/sandbox_manager.go:341-379 | whatever launches create, of any runs and steps, is well identified in this sense |
| Objects.ManagedIsClassified | controller/agenticrun/suspension_cleanup.go:1057-1104 | the classifiers pass over exactly what cleanup does not answer for |
| Creation.CreatedIsRecognised | controller/agenticrun/sandbox_manager.go:341-379 | whatever a launch creates is classified as managed, valid and of the launched step |
| Creation.CreatedIsForeignElsewhere | controller/agenticrun/suspension_cleanup.go:94-97 | and by no other run's pass |
| Creation.CredentialStepInverts | controller/agenticrun/spoke.go:212-214 | the classifier inverts the truncated Secret name for UIDs of any length |
| Creation.ResultStepInverts | controller/agenticrun/rbac.go:505-508 | the classifier inverts the result role name |
| Creation.ValidIsTrusted | controller/agenticrun/suspension_cleanup.go:1057-1104 | the classifiers trust an object as a step's exactly if labels, component and name all say so and no step label says otherwise |
| Creation.SecretNamesIdentify | controller/agenticrun/rbac.go:597-602 | untruncated Secret names identify run and step |
| Completion.LinkedOnce | controller/agenticrun/pod_handler.go:233-303 | with the lock a step is linked at most once more often than it was reopened, and not again while it has no verdict, beside every other writer; the results stored for it are no more than that and those of failed attempts |
| Completion.ResultsAreConserved | controller/agenticrun/pod_handler.go:481-492 | over every play, serialised or not, the results stored for a step are exactly those of its links and of the writes that failed it, each once and in order |
| Completion.UnserialisedLinksTwice | controller/agenticrun/pod_handler.go:22-24 | without the lock a step that was never reopened is linked twice |
| Completion.TokensAreConserved | controller/agenticrun/pod_handler.go:440-462 | totals are the sums over the linked results modulo 64 bits, exact if and only if they fit, and no counter is missing when added to |
| TerminalRecords.StampGivesTheSmaller | controller/agenticrun/reconciler.go:477-489 | the deadline is the recorded end plus the smaller of ceiling and request, in whole days |
| TerminalRecords.LabelImpliesDeadline | controller/agenticrun/reconciler.go:498-507 | in every history whose label patches rest on a recorded end, the label implies both instants |
| TerminalRecords.SerialisedLabelImpliesDeadline | controller/agenticrun/reconciler.go:459-509 | when reconciles of one run never overlap, the label implies both instants in every history, crashes between requests included |
| TerminalRecords.LabelBreaksPromiseExactly | controller/agenticrun/reconciler.go:498-507 | over every history, some labelled run ever lacks a recorded instant if and only if some label patch took effect on a copy without a recorded end |
| TerminalRecords.HandleTerminalRecord | controller/agenticrun/reconciler.go:459-509 | unless someone else revises the run, every label written rests on a recorded end, wherever the sequence is cut short; it ends with the run labelled, the run gone at some moment, or a failed request |
| TerminalRecords.SweepExpiredRuns | controller/agenticrun/timeout_handler.go:51-71 | what is removed bears the name of a copy in a terminal phase whose deadline is not after the sweep's clock, not a failed one to be preserved, and is that run, still so, unless somebody disturbed it or took its name; without a failed request every such name is freed |
| Expiry.ExpiredStands | controller/agenticrun/timeout_handler.go:57-65 | a run once expired is expired in every later state at which it is stored, unless it is revised, preserved, or written by a step that does not look at its phase |
| Expiry.DeadlineMovesExactlyByRevision | controller/agenticrun/handlers.go:123-125 | over every history a recorded deadline goes missing if and only if a revision takes effect, and otherwise stays the same |
| RetentionRaces.LabelledWithoutDeadline | controller/agenticrun/reconciler.go:490-507 | two overlapping reconciles leave a label without a deadline |
| RetentionRaces.RevisedRunIsSwept | controller/agenticrun/timeout_handler.go:66-68 | a stale copy lets the sweep remove a run under analysis |
| ReaderAccess.GrantSource | controller/agenticrun/rbac.go:269-321 | a granted source has a binding with its role and this account only; another run's binding is never touched |
| ReaderAccess.NamesIdentify | controller/agenticrun/rbac.go:227-232 | a binding's name is never truncated for run UIDs of up to forty characters, and equal names mean equal step, run and digest of the source |
| ReaderAccess.Rollback | controller/agenticrun/rbac.go:259-268 | nothing created stays unless its delete failed |
| ReaderAccess.AddReaderSubjectForBindings | controller/agenticrun/rbac.go:252-324 | all or nothing, up to requests reported wrongly; success is complete if and only if colliding names grant one role; without a failed request it fails only for a missing source or a name taken by someone else |
| ReaderAccess.AddReaderSubject | controller/agenticrun/rbac.go:237-250 | success grants every remembered source as it stands; bindings of others are never changed; without a failed request it fails only if nobody names the agent account, or a source tried is missing or its name taken |
| ReaderAccess.ReaderCache.Resolve | controller/agenticrun/rbac.go:169-203 | fresh discovery misses no binding that names the agent account |
| StoredLogs.CursorSplits | cli/run/logs.go:301-304 | above the last record taken lies exactly what has not been taken |
| StoredLogs.FetchAllStoredLogs | cli/run/logs.go:289-305 | ends against any server, in failure exactly when its last call failed; against one serving positive ascending identifiers it returns every record once, in order, unless a call of its own failed |

## Left out

- Condition messages and diagnostic text: opaque; only their presence, and for reports their kind and object, is kept.
- RunWrites.WriteKeeps: the acceptance writes are allowed without a look at the configuration and the guard's reading of the switch is only modelled in the step writers, so that the machine allows more than the code does.
- Ownership.Graph.AddSandbox: the branch for a Sandbox already recorded is omitted, because an inventory names each Sandbox once.
- CleanupWork.ProcessSandboxes: Sandboxes are taken in any order, not sorted by name.
- ConfigController.PatchActivationOutcome: an outcome found stored already, text included, keeps the earlier pass of the same activation as its basis.
- Cleanup.CleanupSuspension: deadlines of the pass are failing requests; propagation and grace options, and garbage collection by the server, are part of what other clients may do.
- CleanupPlanning.LaunchedAreWellIdentified: that a pass over well identified objects is confirmed at once is stated for stores without Sandboxes, since who creates those is not part of this model.
- ReaderAccess.GrantSource: nobody else writes bindings meanwhile, as for the calls built on it.
- ReaderAccess.AddReaderSubjectForBindings: nobody else writes bindings meanwhile, though requests may fail or be misreported; the hash in a binding's name is a parameter.
- TerminalRecords.SweepExpiredRuns: what it removes is promised to be expired only while nobody disturbs the run or takes its name, since the delete compares neither version nor UID.
- Completion.LinkedOnce: a failed step that leaves a result is an ordinary write of a handler there, without the lock; its results are counted apart from the links.
- Token counters shared through pointers: the sums are on values, so aliasing of the counters is not captured.
- The strict finality of Completed, Failed, Denied and Escalated under concurrent writers: the code does not promise it.
- Launching of sandboxes: creation and the guard before it are separate requests; only the identity of what is created is modelled.
- Input ConfigMaps, SandboxTemplates, results, finalizers, audit spans, events and remote resources beyond the evidence recorded on a run.
- Approval and policy lookup, prompts, schemas, pod specifications, and everything the commands print.
- A missing API reader or sandbox manager: configuration errors reported before any request.
