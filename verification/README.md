# KYC orchestration: a verified model

This project models the hand-written protocols in the middle of a KYC
orchestration service and proves what they keep over whole runs:

* the **use cases** that initiate a verification, accept a document and process
  a vendor webhook (`UseCases`, with `UseCaseInvariants`, `UseCaseOutcomes`,
  `UseCaseCollection`, `UseCaseReach`, `UseCaseShipped`, `UseCaseWired`,
  `UseCaseVideo` and `UseCaseLateGuard`);
* the **workflow engine** that orders, groups, guards, halts and resumes steps
  (`WorkflowPlan`, `WorkflowEngine`, `WorkflowAccounting`,
  `WorkflowConfluence`, `WorkflowResume`, `WorkflowGuards`, `WorkflowReach`,
  `WorkflowSteps`) and the executor with the four vendor adapters behind it
  (`VendorSteps`);
* the **verification state machine** with its 18-row table and its audit-and-notify
  handler (`VerificationStateMachine`);
* the **circuit breaker**, the **retry loop**, and the two nested during a vendor
  outage (`CircuitBreaker`, `Retry`, `Outage`);
* the **audit hash chain** (`AuditChain`);
* the **timer store** (`Timers`) and the **video sessions** fed by at-least-once
  webhooks (`VideoKyc`);
* **risk scores and tiers** (`Risk`);
* the **document vault** with envelope encryption, on values (`Vault`) and on
  buffers that are zeroed in place (`VaultObjects`).

Each stateful object of the service is a class whose methods are proved against
functions on values; the properties of whole runs are lemmas about those
functions. Everything the program reads from outside is a parameter: clock
readings, random ids and bytes, what the vendors' clients answer, in which order parallel
calls complete, whether a port throws. SHA-256, ISO formatting and AES-256-GCM
are function-valued parameters constrained by the laws they are used for;
nothing is assumed about collisions. Check the project with
`dafny verify dfyconfig.toml`.

## What the proofs show about the code

Where the code does not meet what it is for, the exact condition is proved:

* A request takes a single upload: the first moves it to DOCUMENTS_RECEIVED even
  when mandatory documents are missing, and no second one is accepted there. The
  documents of rejected uploads are stored nevertheless, and count for the
  customer's other requests (`LeavesCollectionIff`). So a tier with several
  mandatory types gets past document collection only if a customer is initiated
  again — which nothing prevents — or documents are sent under another
  request (`SecondInitiationLeavesCollection`, `LeavesInitiatedOnceIff`).
* A second initiation leaves the customer's earlier requests with a status that
  is no longer the customer's (`InitiateKeepsIff`); an upload's customer id is
  not compared with the request's owner (`UploadKeepsIff`,
  `ForeignUploadBreaks`); a webhook cancels the timers before it can fail, which
  matters once the context supplies a PAN (`WebhookKeepsIff`,
  `LateGuardBreaks`) and not as the service is wired (`WiredSystemInvariant`).
* Both use cases hand the executor the tier and nothing else, and each adapter
  demands more: the registry a PAN, the screening a name and a date of birth,
  Digilocker a document type. So no vendor step ever goes on
  (`WiredStepNeverGoesOn`), every shipped request is rejected when its documents
  are complete, and none is verified, escalated or waits for a callback
  (`ServiceIsFruitless`, `CompletingUploadRejects`). What the context would have
  to supply is exact: `ShippedVerifiableIff`, and `MetadataVerifiesIff` for an
  executor that, as it stands, never passes on a document type.
* Every pass begins with empty flags, the one after a webhook included, and no
  use case ever sets the approval flag, so in no context is an unguarded manual
  step, or one that waits for its vendor, ever passed: no EDD request can be
  verified (`CanBeVerifiedIff`, `WebhookCanVerifyIff`, `ShippedVerifiableIff`).
* A webhook that only announces the start of a video session rejects the request
  (`VideoWebhookRejectsIff`, `StartedSessionRejects`).
* The end of any call clears the breaker's probe flag; one probe at a time holds
  exactly if no earlier call, probe or not, is pending (`ProbeExclusiveIff`,
  `OlderCallSpoilsProbing`).
* A second freeze, or a machine rebuilt from a persisted SUSPENDED status, can
  never be lifted (`LiftRestoresIff`, `StrandedForEver`); the source calls this
  structurally impossible.
* The hash material has no separators: it decodes exactly for ids of one length
  (`MaterialDecodesIff`). Counted ids, as the in-memory trail gives them, decode
  because no event type begins with a digit (`CountedIdsDecode`,
  `CountedIdsAreAmbiguous`).
* The documentation of `getDocument` promises that every call is audit-logged;
  the code logs only reads that succeed, and the model follows the code
  (`LogCountsReads`).

## Model

| member | source | states |
|---|---|---|
| `UseCaseInvariants.SystemInvariant` | src/application/use-cases/upload-kyc-document.use-case.ts:101-185 | Over every run of initiate, upload and webhook calls, served by the adapters in any context and with any clients, under configurations whose passes cannot throw, in which each customer is initiated once and documents are sent for the request's own customer: request and customer share their status, the customer has at least the request's tier, completion time is set exactly for VERIFIED and REJECTED, a 72-hour callback timer naming the request runs exactly while a callback is awaited |
| `UseCaseWired.WiredSystemInvariant` | src/application/use-cases/process-webhook.use-case.ts:86-135 | The same for the service as wired, under any configuration at all: a webhook meets an unknown flag only where the upload before it would have, and then nothing waits |
| `UseCaseInvariants.ConsistentFromTheStart` | src/application/use-cases/initiate-kyc.use-case.ts:106-134 | What SystemInvariant keeps holds after every such run of an empty service |
| `UseCaseInvariants.InitiateKeepsIff` | src/application/use-cases/initiate-kyc.use-case.ts:65-134 | One initiation keeps the service consistent exactly when it is turned away or all requests the customer already has still wait for documents: nothing prevents a second initiation |
| `UseCaseInvariants.UploadKeepsIff` | src/application/use-cases/upload-kyc-document.use-case.ts:72-121 | One upload keeps the service consistent exactly when it is turned away before saving, or its customer id is the owner of its request — the two ids are never compared — and the owner has no other request |
| `UseCaseInvariants.ForeignUploadBreaks` | src/application/use-cases/upload-kyc-document.use-case.ts:72-121 | A run of two customers in which an upload under the other customer's id ends the consistency that held before it |
| `UseCaseInvariants.WebhookKeepsIff` | src/application/use-cases/process-webhook.use-case.ts:70-135 | In any context, a webhook keeps the service consistent whatever the clients behind the adapters do exactly when it answers no waiting request, or the customer has no other request and, for a successful callback, no clients can make a pass of the tier throw: the timers are cancelled before anything that can |
| `UseCaseInvariants.WebhookKeepsByPass` | src/application/use-cases/process-webhook.use-case.ts:70-135 | The same for one webhook with the vendors it happens to meet |
| `UseCaseLateGuard.LateGuardBreaks` | src/application/use-cases/process-webhook.use-case.ts:86-132 | In any context that supplies a PAN: a configuration and a run in which a webhook loses the timer of a request that goes on waiting |
| `UseCaseLateGuard.LateGuardThrowsIff` | src/infrastructure/vendors/ckyc/ckyc.adapter.ts:224-236 | Some clients make a pass of that configuration throw exactly if the context supplies a PAN |
| `UseCaseCollection.LeavesCollectionIff` | src/application/use-cases/upload-kyc-document.use-case.ts:98-121 | After any history and before any future, the one upload a request takes gets it past document collection exactly when the documents stored for the named customer so far — under any request, by rejected uploads too — and the new one cover the mandatory types |
| `UseCaseCollection.DocumentsAreHistory` | src/application/use-cases/upload-kyc-document.use-case.ts:82-106 | A customer's documents are exactly those its uploads have stored over the run, whatever became of the calls |
| `UseCaseReach.EveryTierCanLeaveCollection` | src/application/use-cases/initiate-kyc.use-case.ts:65-134 | Every tier with a safe configuration can get a request past document collection, however many mandatory types it has |
| `UseCaseShipped.SecondInitiationLeavesCollection` | config/workflows/full-kyc.yml:1-62 | The run for the shipped FULL tier, in any context: three documents under a first request, two of them rejected, then a second request that needs one upload |
| `UseCaseReach.LeavesInitiatedOnceIff` | src/domain/state-machine/verification-state-machine.ts:87-94 | Among runs that initiate each customer once and send documents for its own request, some run gets a request of the tier past collection exactly with at most one mandatory type |
| `UseCaseCollection.StuckIfInitiatedOnce` | src/domain/state-machine/verification-state-machine.ts:87-94 | In such runs a request of a tier with several mandatory types stays in DOCUMENTS_PENDING or DOCUMENTS_RECEIVED |
| `UseCaseOutcomes.SettledForEver` | src/application/use-cases/upload-kyc-document.use-case.ts:169-185 | A request that waits neither for documents nor for a callback keeps its whole record over every later run that opens no request under its id |
| `UseCaseOutcomes.UploadDecides` | src/application/use-cases/upload-kyc-document.use-case.ts:98-185 | Every upload to a request that waits for documents, case by case: still incomplete, the pass throws, or waits for a vendor, or for a person, or succeeds, or fails; status, completion time and timer in each |
| `UseCaseOutcomes.WebhookDecides` | src/application/use-cases/process-webhook.use-case.ts:86-152 | The same for every new, genuine callback of a waiting request |
| `UseCaseOutcomes.CompletionTime` | src/application/use-cases/upload-kyc-document.use-case.ts:179 | Over every run whatsoever, a request that is VERIFIED or REJECTED in the end and was not at the start was completed by one call on it, and its completion time is that call's |
| `UseCaseOutcomes.CompletionUntouched` | src/application/use-cases/process-webhook.use-case.ts:138-152 | A call that leaves a request uncompleted leaves its completion time as it was |
| `UseCaseOutcomes.VerifiedWasEarned` | src/application/use-cases/upload-kyc-document.use-case.ts:126-166 | Over every run whatsoever, a VERIFIED request was carried by one single call through its whole workflow: every step reported and succeeded, nothing awaited |
| `UseCaseReach.CanBeVerifiedIff` | src/application/use-cases/upload-kyc-document.use-case.ts:126-166 | For every context and configuration: some run of a fresh service with some clients verifies a request of the tier exactly when its workflow can run to the end in that context |
| `UseCaseShipped.ShippedVerifiableIff` | config/workflows/edd.yml:17-97 | Which contexts would make a shipped tier verifiable: MINIMUM exactly with document type, full name and date of birth, FULL exactly with PAN, full name and date of birth, EDD with none; initiated once, only MINIMUM requests leave document collection |
| `UseCaseShipped.MetadataVerifiesIff` | src/application/workflow-engine/vendor-step.executor.ts:33-38 | Whatever metadata the executor is given, only FULL requests can ever be verified, exactly with PAN, full name and date of birth: it never passes on a document type |
| `UseCaseWired.WiredStepNeverGoesOn` | src/application/use-cases/upload-kyc-document.use-case.ts:135-140 | With the context both use cases build, every vendor step throws, fails or waits, whatever the clients answer |
| `UseCaseWired.WiredVerifiableIff` | src/application/use-cases/upload-kyc-document.use-case.ts:135-166 | For any configuration of the wired service: a request of the tier can ever be verified exactly if every step is guarded off on empty flags |
| `UseCaseWired.ServiceIsFruitless` | src/application/use-cases/upload-kyc-document.use-case.ts:126-185 | As shipped and wired, over every run and whatever the clients answer, each request is in DOCUMENTS_PENDING, DOCUMENTS_RECEIVED or REJECTED: none is verified, escalated or waits for a callback |
| `UseCaseWired.CompletingUploadRejects` | src/application/use-cases/upload-kyc-document.use-case.ts:98-166 | The upload that completes a request's documents rejects it |
| `UseCaseOutcomes.WebhookCanVerifyIff` | src/application/use-cases/process-webhook.use-case.ts:113-132 | In any context, some clients let a successful webhook verify its waiting request exactly when the workflow can run to the end; an unguarded asynchronous step waits a second time and counts as failed |
| `UseCaseVideo.VideoWebhookRejectsIff` | src/application/use-cases/process-webhook.use-case.ts:107-111 | After any history of sessions and deliveries within 72 hours, a new webhook rejects a waiting request without a pass exactly when it reports failure or expiry, or settles nothing while the last accepted word on the session is not completion |
| `UseCaseVideo.StartedSessionRejects` | src/infrastructure/vendors/video-kyc/video-kyc.adapter.ts:191-212 | From an adapter that has only created the session, the webhook announcing its start rejects the request |
| `UseCases.KycUseCases.InitiateKyc` | src/application/use-cases/initiate-kyc.use-case.ts:65-137 | The method does what the specification of a call says, on repositories and answer alike |
| `UseCases.KycUseCases.Upload` | src/application/use-cases/upload-kyc-document.use-case.ts:72-124 | The same for an upload, including what a rejected call leaves behind |
| `UseCases.KycUseCases.RunVendorWorkflow` | src/application/use-cases/upload-kyc-document.use-case.ts:126-167 | Verification starts, one pass runs on empty flags, its verdict is applied, and a 72-hour timer is scheduled exactly if a callback is awaited |
| `UseCases.KycUseCases.Webhook` | src/application/use-cases/process-webhook.use-case.ts:70-136 | The same for a webhook |
| `UseCases.KycUseCases.Persist` | src/application/use-cases/process-webhook.use-case.ts:138-152 | Request and customer take the status and nothing else changes; VERIFIED and REJECTED set the completion time to the time of the call |
| `WorkflowPlan.GroupStepsPartitions` | src/application/workflow-engine/workflow-engine.ts:84-105 | Grouping yields nonempty maximal runs of one nonempty group name that concatenate to the ordered steps |
| `WorkflowPlan.GroupingIsUnique` | src/application/workflow-engine/workflow-engine.ts:84-105 | There is no other such partition |
| `WorkflowPlan.SortIsSort` | src/application/workflow-engine/workflow-engine.ts:31 | Ordering gives an ascending permutation of the configured steps |
| `WorkflowPlan.SortIsStable` | src/application/workflow-engine/workflow-engine.ts:31 | Steps of equal order keep the sequence of the configuration |
| `WorkflowPlan.GroupNames` | src/application/workflow-engine/workflow-engine.ts:84-105 | Inside a group neighbours carry one and the same nonempty group name, across a border they do not |
| `WorkflowPlan.GuardValue` | src/application/workflow-engine/guard-expression.evaluator.ts:12-30 | For every flag name and any blanks around it: the guard is the flag's value, with `!` its opposite; a name that neither the flags nor every object know is the error, and no guard is true |
| `WorkflowSteps.CallIff` | src/application/workflow-engine/workflow-engine.ts:114-131 | In any executed group of any pass, a step's vendor is called exactly when its guard is true at group start and the step is not manual |
| `WorkflowSteps.ApprovedStepIsCalledIff` | config/workflows/edd.yml:86-97 | A vendor step behind `complianceApproved` is called, in whichever group of a pass told about the approval, exactly if the approval was given |
| `WorkflowSteps.StepReport` | src/application/workflow-engine/workflow-engine.ts:114-199 | What an executed step reports — skipped, succeeded, waiting, outcome — in terms of its guard, the approval and its vendor's answer |
| `WorkflowSteps.HeldBackReport` | src/application/workflow-engine/workflow-engine.ts:39-51 | Once a pass waits, later groups are only listed: skipped, not succeeded, nothing called, nothing learnt |
| `WorkflowSteps.FlagAfterSearch` | src/application/workflow-engine/workflow-engine.ts:158-198 | The group's only registry search sets the flag to whether a record was found if it succeeded, and no flag changes otherwise |
| `WorkflowEngine.Engine.GroupInOrder` | src/application/workflow-engine/workflow-engine.ts:85-105 | The loop with its current group computes that partition |
| `WorkflowEngine.Engine.ExecuteWorkflow` | src/application/workflow-engine/workflow-engine.ts:26-82 | The loop computes the pass specified group by group, and calls exactly the vendors that the pass lists, also when a guard throws |
| `WorkflowEngine.Engine.Inspect` | src/application/workflow-engine/workflow-engine.ts:56-66 | The scan of a group finds a halt, a wait or a failure exactly if there is one |
| `WorkflowAccounting.EngineAccounting` | src/application/workflow-engine/workflow-engine.ts:26-82 | Results name a prefix of the ordered steps, the vendor calls are exactly the results neither skipped nor manual, and success means that every step is reported, succeeded, and nothing is awaited |
| `WorkflowConfluence.GroupConfluentIff` | src/application/workflow-engine/workflow-engine.ts:107-199 | All completion orders of a parallel group leave the same flags exactly when its successful registry searches agree |
| `WorkflowConfluence.WorkflowIsConfluent` | src/application/workflow-engine/workflow-engine.ts:107-199 | With at most one registry search per group, whole passes agree under any completion orders: results and their order, calls, flags, outcome |
| `WorkflowResume.ResumeAgreement` | src/application/workflow-engine/workflow-engine.ts:129-155 | A pass repeated after approval does the same up to the halting group, differs there only in skipping the manual steps, and goes on exactly if nothing in that group failed or waits |
| `WorkflowResume.SamePrefix` | src/application/workflow-engine/workflow-engine.ts:30-73 | Until the halt the approved pass is the first pass, state by state |
| `WorkflowGuards.NoGuardError` | src/application/workflow-engine/guard-expression.evaluator.ts:12-30 | If every guard names a flag established in an earlier group, no pass meets an unknown flag, whatever vendors do and in whichever order |
| `WorkflowReach.UnknownFlagIff` | src/application/workflow-engine/guard-expression.evaluator.ts:12-30 | For every configuration and an engine with arbitrary executors: some vendors and completion orders make a pass from empty flags throw exactly when the walk over its groups, with the last search unknown, positive or negative, comes to a guard on an unknown flag |
| `WorkflowReach.EstablishedMeansSafe` | src/application/workflow-engine/guard-expression.evaluator.ts:12-30 | Established guards exclude that, for vendors of any nature |
| `VendorSteps.RunsToTheEndIff` | src/application/workflow-engine/vendor-step.executor.ts:20-51 | For every configuration and context: some clients let a pass from empty flags succeed exactly when some answers of the registry guard off every manual step, every step that would wait and every step whose adapter refuses the context |
| `VendorSteps.AdaptersObey` | src/infrastructure/vendors/vendor-adapter.factory.ts:77-130 | Whatever its clients do, an adapter never lets a step go on that waits or whose context lacks what it needs, and only the registry's adapter reports an existing record |
| `VendorSteps.HasTextIff` | src/infrastructure/vendors/ckyc/ckyc.adapter.ts:224-236 | A metadata field counts as given exactly if it is a string with a character that is not white space |
| `VendorSteps.StepAnswers` | src/application/workflow-engine/vendor-step.executor.ts:20-51 | For every step, context and client: exactly when the executor's answer waits, when it goes on, and which source it then reports |
| `VendorSteps.StepRefuses` | src/application/workflow-engine/vendor-step.executor.ts:20-51 | With working wiring and clients: which error a step throws for lack of what, adapter by adapter |
| `VendorSteps.BareRunsToTheEndIff` | src/infrastructure/vendors/aml-screening/aml-screening.adapter.ts:68-71 | Where no adapter finds what it needs, a workflow runs to the end exactly if every step is guarded off on empty flags |
| `VendorSteps.BareThrowsIff` | src/application/workflow-engine/vendor-step.executor.ts:33-50 | There, whether a pass meets an unknown flag is the same for all clients |
| `VendorSteps.ShippedRunToTheEnd` | config/workflows/full-kyc.yml:15-62 | The context that lets a shipped workflow run to the end, and that none of them can meet an unknown flag |
| `WorkflowGuards.ShippedWorkflowsAreSafe` | config/workflows/edd.yml:17-97 | The shipped workflows meet that condition and run one step at a time |
| `VerificationStateMachine.FreezeTransparency` | src/domain/state-machine/verification-state-machine.ts:199-214 | For every history without a freeze accepted while suspended, deleting the freezes and lifts leaves a history the table accepts, with the same outcome |
| `VerificationStateMachine.LiftRestoresIff` | src/domain/state-machine/verification-state-machine.ts:319-338 | The next accepted lift restores the frozen status exactly when no second freeze was accepted in between; otherwise the machine never leaves SUSPENDED |
| `VerificationStateMachine.StrandedForEver` | src/domain/state-machine/verification-state-machine.ts:250-259 | A machine rebuilt from a persisted SUSPENDED status can never be lifted |
| `VerificationStateMachine.FinalStatesAreFinal` | src/domain/state-machine/verification-state-machine.ts:70-215 | REJECTED, EXPIRED and ESCALATED_TO_MANUAL are left only for SUSPENDED, over every run |
| `VerificationStateMachine.EarnedVerification` | src/domain/state-machine/verification-state-machine.ts:70-215 | Every run that reaches VERIFIED accepted, since the latest initiation, the four milestones in order with true guards |
| `VerificationStateMachine.OneRowPerEvent` | src/domain/state-machine/verification-state-machine.ts:70-215 | The invariant that the source relies on by comment: of the 18 rows, as written, exactly one is labelled with an event |
| `VerificationStateMachine.AcceptedIff` | src/domain/state-machine/verification-state-machine.ts:70-328 | For every status, event and context: exactly which attempts are accepted — each event with its own guard, the 48 and the 72 hours included — and where each leads |
| `VerificationStateMachine.AuditReplaysIff` | src/application/workflow-engine/state-machine-side-effects.ts:25-55 | The audit trail leads link by link to the machine's status exactly when no notification failed behind an entry already written |
| `VerificationStateMachine.SideEffects.Handle` | src/application/workflow-engine/state-machine-side-effects.ts:25-55 | Audit first, then notify: which of the two happened under each failure |
| `VerificationStateMachine.StateMachine.GetAllowedEvents` | src/domain/state-machine/verification-state-machine.ts:265-269 | Exactly the events with a row from the current status |
| `VerificationStateMachine.StateMachine.Apply` | src/domain/state-machine/verification-state-machine.ts:278-328 | Definition, guard, target, side effect, commit: the new state, the audit entry and the error of every call; a rejected call changes nothing |
| `CircuitBreaker.BreakerProtocol` | src/infrastructure/vendors/circuit-breaker.ts:47-96 | Under every interleaving: CLOSED is exactly "no opening time", announced changes form one chain to the current state, and nothing is let through before the timeout |
| `CircuitBreaker.ThresholdAgreesWithLog` | src/infrastructure/vendors/circuit-breaker.ts:98-121 | After any run, a call that started CLOSED leaves a window as long as the number n of outcomes since the last closing that lie within it, and opens the breaker exactly if it failed, n is positive and at least the minimum, and 100 times the number of failures among them reaches threshold * n |
| `CircuitBreaker.FailuresAreCounted` | src/infrastructure/vendors/circuit-breaker.ts:113-115 | The failure count of a window is the number of its positions that did not succeed |
| `CircuitBreaker.WindowIsCounted` | src/infrastructure/vendors/circuit-breaker.ts:104-115 | What pruning leaves, in numbers: the outcomes no older than the cutoff, and the failures among them |
| `CircuitBreaker.SinceConcat` | src/infrastructure/vendors/circuit-breaker.ts:104-107 | Pruning goes through a list piece by piece and keeps its order |
| `CircuitBreaker.RecoveryIff` | src/infrastructure/vendors/circuit-breaker.ts:62-96 | After any run that left the breaker OPEN, a call gets through exactly when the timeout is over, and its outcome closes it with an empty window or opens it anew |
| `CircuitBreaker.SincePrune` | src/infrastructure/vendors/circuit-breaker.ts:104-107 | Pruning early and again later is pruning once |
| `CircuitBreaker.SingleProbe` | src/infrastructure/vendors/circuit-breaker.ts:69-96 | If no earlier call is pending when probing begins, at most one probe is in flight and only the four documented changes happen |
| `CircuitBreaker.ProbeExclusiveIff` | src/infrastructure/vendors/circuit-breaker.ts:93-95 | A probing phase admits one probe at a time over every continuation exactly when no earlier call, and no probe of an earlier phase, is still pending as it begins |
| `Outage.OlderCallSpoilsProbing` | src/infrastructure/vendors/circuit-breaker.ts:62-96 | For every configuration whose breaker can open: the run from a new breaker in which one slow call lets two probes through |
| `CircuitBreaker.CircuitBreaker.BeginCall` | src/infrastructure/vendors/circuit-breaker.ts:62-76 | The state after the start of a call, and whether it was short-circuited |
| `CircuitBreaker.CircuitBreaker.FinishCall` | src/infrastructure/vendors/circuit-breaker.ts:78-96 | The state after the end of a call, whichever way it ended |
| `CircuitBreaker.CircuitBreaker.GetState` | src/infrastructure/vendors/circuit-breaker.ts:47-50 | Reading the state may start probing |
| `CircuitBreaker.CircuitBreaker.EvaluateThreshold` | src/infrastructure/vendors/circuit-breaker.ts:109-121 | The loop over the window opens the breaker exactly with enough requests and failures * 100 at least threshold * requests |
| `Retry.RetryWithBackoff` | src/infrastructure/vendors/retry.util.ts:73-94 | Every call but the last threw a retryable error; the last returned, threw a non-retryable one, or was the last retry; its result is returned, after the specified wait before each retry |
| `Retry.CallsMadeClosedForm` | src/infrastructure/vendors/retry.util.ts:80-93 | With `first` the first call that returns or throws a non-retryable error, it calls 1 + min(maxRetries, first) times |
| `Retry.BaseDelayClosedForm` | src/infrastructure/vendors/retry.util.ts:82-92 | Capping at each step equals capping initial * multiplier^k once |
| `Retry.WaitIsExact` | src/infrastructure/vendors/retry.util.ts:73-92 | The sleep before the k-th retry is min(initial * multiplier^k, maxDelay) plus the drawn share of the jitter: the outer cap never acts |
| `Retry.PowerLaws` | src/infrastructure/vendors/retry.util.ts:82-92 | What makes the repeated product a power |
| `Retry.TotalWaitBounds` | src/infrastructure/vendors/retry.util.ts:87-92 | Total sleep lies between the sum of the base delays and that sum plus the full jitter per retry |
| `Outage.OpensExactlyAtMinimum` | src/infrastructure/vendors/circuit-breaker.ts:109-121 | For any calls within one window, the breaker is closed exactly while fewer failed calls than the minimum were made, or the threshold is above 100 percent |
| `Outage.OutageBound` | src/infrastructure/vendors/ckyc/ckyc.adapter.ts:96-154 | Retry inside the breaker against a vendor that only ever throws retryable errors: the breaker opens with the minimum-th call and then, within any time T, at most floor(T / timeout) * (maxRetries + 1) attempts reach the vendor |
| `Outage.ProbesAreSpaced` | src/infrastructure/vendors/circuit-breaker.ts:123-131 | Calls let through after an opening are a whole timeout apart |
| `AuditChain.MaterialDecodesIff` | src/domain/entities/audit-event.entity.ts:58-73 | Equal separator-free materials mean equal hashed fields exactly when the two ids are equally long; payload, previous hash and time are equal in any case |
| `AuditChain.CountedIdsAreAmbiguous` | src/infrastructure/audit/in-memory-audit-trail.ts:17-38 | With counted ids, any event type can be confused with itself behind a digit |
| `AuditChain.CountedIdsDecode` | src/infrastructure/audit/in-memory-audit-trail.ts:17-38 | As long as no event type begins with a digit, as none recorded does, the counted ids of the in-memory trail decode |
| `AuditChain.TamperEvidence` | src/infrastructure/audit/prisma-audit-event.repository.ts:109-127 | Two accepted histories of one trail — with UUIDs, or with counted ids — with the same last hash agree in length and in every hashed field, or two of their events exhibit a hash collision |
| `AuditChain.UnhashedFieldsAreInvisible` | src/domain/entities/audit-event.entity.ts:58-73 | Verification cannot see a change of customer, actor, version or correlation id |
| `AuditChain.VerifyChainIntegrity` | src/infrastructure/audit/prisma-audit-event.repository.ts:109-127 | The walk accepts exactly the intact chains and otherwise names the first offender |
| `AuditChain.ChainsAlwaysVerify` | src/infrastructure/audit/prisma-audit-event.repository.ts:40-106 | For every interleaving of inserts across customers with increasing timestamps, each customer's time-ordered list and each prefix of it is accepted |
| `AuditChain.SortByTimeSorts` | src/infrastructure/audit/prisma-audit-event.repository.ts:89-106 | The listing is ascending in time, loses nothing, and keeps the table order of events of one instant |
| `AuditChain.AuditEventRepository.RecordEvent` | src/infrastructure/audit/prisma-audit-event.repository.ts:40-87 | An insert appends one event with all fields as given, chained to the last hash of its customer, that verifies itself |
| `AuditChain.InMemoryAuditTrail.RecordEvent` | src/infrastructure/audit/in-memory-audit-trail.ts:17-38 | Only the customer's own list grows, by one event with the next id and all fields as given, and every list stays an intact chain |
| `Timers.NoTimerCompletesTwice` | src/application/workflow-engine/timer.service.ts:103-121 | Over any run of schedules, cancellations and polls with throwing handlers, no timer's handler completes twice |
| `Timers.ThrowingHandlerBlocks` | src/application/workflow-engine/timer.service.ts:103-121 | If the handler of a due timer is the first to throw, exactly the due timers stored before it are fired and all others are unchanged |
| `Timers.AllDueFire` | src/application/workflow-engine/timer.service.ts:109-121 | If no due timer's handler throws, exactly the timers neither fired nor cancelled whose time has come, now included, are fired |
| `Timers.AllCancelledAt` | src/application/workflow-engine/timer.service.ts:90-101 | Cancelling for a customer changes exactly its unfired, uncancelled timers of the type |
| `Timers.ActiveAreCounted` | src/application/workflow-engine/timer.service.ts:90-101 | The count returned is the number of those timers |
| `Timers.TimerService.PollAndFireDue` | src/application/workflow-engine/timer.service.ts:109-121 | The new store, and the returned list when nothing throws |
| `Timers.TimerService.CancelAllForCustomer` | src/application/workflow-engine/timer.service.ts:90-101 | Exactly the customer's active timers of the type are cancelled, and counted |
| `Timers.TimerService.ScheduleFixedTimer` | src/application/workflow-engine/timer.service.ts:37-54 | Only types with a fixed duration, due that long after now |
| `Timers.TimerService.ScheduleCustomDurationTimer` | src/application/workflow-engine/timer.service.ts:62-78 | Only positive durations |
| `Timers.TimerRepository.FindDue` | src/infrastructure/persistence/in-memory-timer-repository.ts:16-20 | The due timers in insertion order |
| `VideoKyc.ExactlyOnce` | src/infrastructure/vendors/video-kyc/video-kyc.adapter.ts:144-213 | Deliveries within 72 hours, with any repeats, forgeries and failures, leave the sessions as if only the first accepted delivery of each event had arrived |
| `VideoKyc.OnceHasNoRepeats` | src/infrastructure/vendors/in-memory-webhook-deduplication.ts:5-21 | What remains has distinct event ids, all genuine and new |
| `VideoKyc.RepeatRecognisedIff` | src/infrastructure/vendors/in-memory-webhook-deduplication.ts:8-20 | Once an event is accepted, a repeat is recognised exactly until 72 hours are over, whatever arrives in between |
| `VideoKyc.FailedDeliveryCanBeRetried` | src/infrastructure/vendors/video-kyc/video-kyc.adapter.ts:160-196 | A genuine delivery that throws changes no session; repeated after anything else, it takes effect exactly if it can by then |
| `VideoKyc.StatusIsLastWord` | src/infrastructure/vendors/video-kyc/video-kyc.adapter.ts:165-196 | Within 72 hours of a fresh adapter a session's status is the last word of the accepted operations, each event counted once |
| `VideoKyc.LastVerdictStands` | src/infrastructure/vendors/video-kyc/video-kyc.adapter.ts:165-194 | Over every later run that brings no further settling webhook for the session, it keeps the scores or error code of the last accepted one, which may overturn an earlier verdict |
| `VideoKyc.SessionsStayComplete` | src/infrastructure/vendors/video-kyc/video-kyc.adapter.ts:177-194 | Over every run a COMPLETED session has a result and a FAILED one an error code |
| `VideoKyc.InMemoryWebhookDeduplication.HasBeenProcessed` | src/infrastructure/vendors/in-memory-webhook-deduplication.ts:8-16 | Asking about an event also forgets it once its time is over |
| `VideoKyc.VideoKycAdapter.HandleCallback` | src/infrastructure/vendors/video-kyc/video-kyc.adapter.ts:144-213 | Sessions, memory and answer of one delivery, errors included |
| `VideoKyc.VideoKycAdapter.FetchResult` | src/infrastructure/vendors/video-kyc/video-kyc.adapter.ts:103-136 | A settled session has what its verdict needs |
| `Risk.TierSafety` | src/application/use-cases/recalculate-risk-score.use-case.ts:84-138 | Over any run of initiations, escalations and recalculations the tier never falls, no upgrade throws, and a score above 60 means EDD if it did at the start |
| `Risk.SplitAgreesIff` | src/domain/risk-scoring/risk-scoring.engine.ts:79-93 | For every score and two whole-point batches: applying them apart equals applying them together exactly under a condition on the intermediate sum |
| `Risk.SameSignBatchesSplit` | src/domain/risk-scoring/risk-scoring.engine.ts:79-93 | A batch of whole points of one sign can be cut up in any way |
| `Risk.FractionsDoNotSplit` | src/domain/risk-scoring/risk-scoring.engine.ts:79-93 | Fractional points cannot: rounding happens per batch |
| `Risk.ScoreWithinFactors` | src/domain/risk-scoring/risk-scoring.engine.ts:48-66 | The stored score lies between any whole numbers that bound all factors |
| `Risk.WeightedScoreIsAverage` | src/domain/risk-scoring/risk-scoring.engine.ts:48-66 | The weighted total lies between the smallest and the largest factor, so the clamp never acts |
| `Risk.EddNeedsThreeFactors` | src/domain/risk-scoring/risk-scoring.engine.ts:6-12 | Exceeding the EDD threshold takes three nonzero factors; three at their maximum do exactly when the transaction anomaly is among them and the PEP status is not |
| `Risk.WeightedScoreMonotone` | src/domain/risk-scoring/risk-scoring.engine.ts:48-66 | A higher factor never lowers the score |
| `Risk.TierIsHighestDemand` | src/application/use-cases/recalculate-risk-score.use-case.ts:84-138 | Over any run of the three use cases, the tier reached is the initial one or was asked for by some command — an initiation, an escalation above its request, a score above 60 — and none asked for more |
| `Risk.OneDelta` | src/domain/risk-scoring/risk-scoring.engine.ts:79-93 | One whole-point delta is added and kept between 0 and 100 |
| `Risk.SingleFactorScores` | src/domain/risk-scoring/risk-scoring.engine.ts:6-66 | What each factor at its maximum contributes: 20, 25, 20, 15 and 20 points |
| `Risk.Customer.UpgradeTier` | src/domain/entities/customer.entity.ts:100-109 | Only upwards; anything else is an error that changes nothing |
| `Risk.RiskUseCases.RecalculateRiskScore` | src/application/use-cases/recalculate-risk-score.use-case.ts:75-147 | Score, tier, factors and audit entries after a recalculation, and when none happens |
| `Risk.RiskUseCases.EscalateKycTier` | src/application/use-cases/escalate-kyc-tier.use-case.ts:51-86 | The request's tier decides on the error, the customer's on the upgrade; each success is audited |
| `Vault.VaultRoundTrip` | src/infrastructure/storage/document-storage.service.ts:51-211 | After any history of other uploads, reads, rotations and deactivations, reading a nonempty upload gives exactly its bytes, and is refused for ever once it was deactivated |
| `Vault.RotationIsFresh` | src/infrastructure/encryption/in-memory-kms.ts:40-45 | A rotation's version name was never in use and no earlier key changes |
| `Decimals.DecimalInjective` | src/infrastructure/encryption/in-memory-kms.ts:41 | Version numbers and their decimal names correspond one to one |
| `Decimals.ReadUndoesDecimal` | src/infrastructure/encryption/in-memory-kms.ts:41 | A decimal name read back as a number is that number |
| `Vault.PathsDiffer` | src/infrastructure/storage/document-storage.service.ts:205-211 | Documents with different ids of one length never share a path, whoever owns them |
| `Vault.UnwrapUndoesWrap` | src/infrastructure/encryption/in-memory-kms.ts:14-34 | Slicing the packed buffer recovers iv, tag and key |
| `Vault.DecryptUndoesEncrypt` | src/infrastructure/encryption/encryption.service.ts:65-105 | Decrypting an envelope under the keys of its time recovers the plaintext |
| `Vault.SealedUnderOwnKey` | src/infrastructure/encryption/encryption.service.ts:65-90 | The packed key opens under the current key to the data key given, and that key opens the ciphertext; iv, tag and keys have the lengths of AES-256-GCM |
| `Vault.LogCountsReads` | src/infrastructure/storage/document-storage.service.ts:104-133 | The access log counts the reads that revealed a document, and no refused one |
| `VaultObjects.InMemoryKms.RotateKek` | src/infrastructure/encryption/in-memory-kms.ts:40-45 | The key map on real buffers takes the specified step and keeps its naming invariant |
| `VaultObjects.EncryptionService.EncryptDocument` | src/infrastructure/encryption/encryption.service.ts:65-90 | Returns the specified envelope in fresh buffers, sealed under the data key given, which is zeroed in place |
| `VaultObjects.EncryptionService.DecryptDocument` | src/infrastructure/encryption/encryption.service.ts:92-105 | Returns the specified plaintext or error and touches no buffer but its own copy of the data key |
| `VaultObjects.InMemoryObjectStore.PutObject` | src/infrastructure/storage/in-memory-object-store.ts:8-10 | Stores a copy, so later writes to the caller's buffer do not reach it |
| `VaultObjects.DocumentStorageService.UploadDocument` | src/infrastructure/storage/document-storage.service.ts:51-101 | Stores, records and logs as specified; the stored blob opens under the document's own data key, and an empty document leaves its blob behind but no record |
| `VaultObjects.DocumentStorageService.GetDocument` | src/infrastructure/storage/document-storage.service.ts:110-133 | Reads as specified and logs only success |
| `VaultObjects.DocumentStorageService.DeactivateDocument` | src/infrastructure/storage/document-storage.service.ts:175-192 | Deactivates as specified; an unknown document is an error |

## Left out

- UseCaseInvariants.SystemInvariant: says nothing of runs that initiate a customer a second time, name another customer than the request's owner, or use a configuration whose passes can throw; InitiateKeepsIff, UploadKeepsIff and WebhookKeepsIff say exactly which such calls break the invariant.
- UseCaseInvariants.ConsistentFromTheStart: the same restriction; it does not describe every reachable state of the service.
- UseCaseCollection.StuckIfInitiatedOnce: holds only for runs with one initiation per customer and own documents; what is true of all runs is LeavesCollectionIff.
- UseCaseReach.LeavesInitiatedOnceIff: the same restriction, named in the statement.
- WorkflowGuards.NoGuardError: states its condition in one direction, for passes from any flags; for passes from empty flags, which are the ones the use cases make, UnknownFlagIff is exact.
- WorkflowReach.UnknownFlagIff: takes step orders to be distinct, as the loader guarantees; so do RunsToTheEndIff, CanBeVerifiedIff, WebhookKeepsIff and WebhookCanVerifyIff.
- VendorSteps.RunsToTheEndIff: the clients and the wiring of each step are arbitrary, but nothing else runs between a step's initiation and its fetch, so that a video session just created is still pending.
- UseCaseReach.CanBeVerifiedIff: one context is given per tier; it does not grow during a pass, as it does not in the program.
- AuditChain.TamperEvidence: is about the two ways in which the trails name events, UUIDs and a counter before types that begin with no digit.
- AuditChain.ChainsAlwaysVerify: assumes strictly increasing timestamps, since rows with equal timestamps have no defined order in the table.
- Vault.VaultRoundTrip: takes document ids to be distinct and 36 characters long, as random UUIDs are.
- Timers.TimerService.PollAndFireDue: when a handler throws, the list of timers fired so far is lost in the program and the model says nothing of it; handlers do not touch the store.
- Concurrency of `apply`, of audit inserts and of deliveries of one webhook: the code has no lock there and the properties are stated for sequential calls; only breaker calls and the vendor calls of one group interleave.
- Vendor calls within one pass are a function of the step, which holds because a pass calls each step at most once; what a vendor answers is arbitrary, and may change from call to call of a use case.
- Numbers: clock readings and breaker thresholds are integers, failure rates are compared exactly and delays and risk factors are reals; rounding of floating point, NaN and infinities are not modelled.
- Dates outside the years 1970 to 9999, in which ISO timestamps have 24 characters.
- Guard descriptions, side-effect names, template names and other display text; step and timer metadata and payloads.
- The JSON text of an event payload is taken as given: encrypting the payload column and restoring it is the vault's round trip, parsing and printing JSON are not modelled.
- The use cases' own audit entries and notifications go to one handler object and are not part of the contents compared by `Perform`; repositories, document storage and ports do not fail, except that storing a document may.
- A document's plaintext hash, MIME type, uploader and expiry, and metadata-only reads, which decide nothing in the modelled code; the environment part of a storage path is one constant.
- Breaker listeners are recorded as a list of changes; a listener that throws is not modelled.
- The firing of a callback timer and the document-expiry timer, for which no use case is wired here; compliance reviews, data erasure, legal holds and status queries.
- Vendor adapters beyond what they demand of the context, when they wait, what the engine reads of their results, the video sessions and the nesting of retry and breaker; the clients behind them are not part of this model.
- Loading and checking the workflow files; only the distinct step orders that the loader guarantees are relied on.
- LocalFileKms, the Prisma mappings, controllers, modules, authentication and environment validation.
