# Insurance Claims Orchestration Platform: a verified model

A Dafny model of the parts of the platform whose correctness depends on more than one step: the claim
saga, the transactional outbox, the idempotent get-or-create pattern, the status lifecycles with
their audit trails, the portal's bounded history, ranked retrieval, claim references and legacy
ingestion. `dafny verify dfyconfig.toml` checks everything.

## What is modelled

| module | subject |
|---|---|
| `Keys`, `HttpClients` | Idempotency-Key normalisation and the bounded retry loops of the HTTP clients, as loops against an adversarial network |
| `GetOrCreate` | Lookup, guard, insert, unique violation, second lookup: any number of interleaved calls, proved linearizable to an atomic map |
| `GetOrCreateCalls` | Single calls: which one made a row, and what one does with others at work in between |
| `WorkflowRows`, `WorkflowService` | A workflow row with steps and audit trail: the transitions as functions, the service as a class that performs them in place |
| `Saga`, `SagaSafety`, `SagaTheorems` | The orchestrator's requests, the network and the Claims Service as one transition system; its invariant; what follows for every run |
| `SagaAudit` | When exactly the audit trail of a workflow tells its row, in runs with overlapping retries and crashes |
| `SagaTrails` | When exactly the row tells the whole trail; alerts |
| `SagaPosts` | When exactly a workflow's final state tells whether its claim was posted |
| `SagaExamples` | Reachable runs on the other side of those conditions |
| `Services` | The three get-or-create services as imperative code with others at work in between, proved to run their machine |
| `Outbox`, `OutboxProtocol` | The outbox table, its repository and worker; any number of workers with a clock, crashes and a broker |
| `OutboxFinality`, `OutboxLeases`, `OutboxExamples` | What every run keeps, and exactly when a published event reopens; what the lease discipline adds; runs outside it |
| `OutboxBackoff` | When an event may be claimed again after a failed publication |
| `Lifecycles` | Claim and policy status updates with audit records, interleaved and serialised |
| `History` | The portal's most-recently-used list over unreliable browser storage |
| `References` | The two formatters of claim references and the backfill migration |
| `Retrieval` | Tokens, scores and the ranked top rows |
| `Legacy` | Ingestion of legacy claims with revalidation of the stored JSON |

## Assumptions

- PostgreSQL commits atomically, shows each statement the latest committed rows (READ COMMITTED),
  enforces unique and foreign-key constraints, and `FOR UPDATE SKIP LOCKED` passes over rows another
  transaction has locked. New UUIDs are unused.
- The ORM writes, per row, the columns whose value differs from the one the session loaded; other
  columns keep what the table holds (`Common.Written`). A session loads a row once. A retry loads the
  workflow row and its steps at one moment; the ORM reads the steps by a second SELECT, which could see
  a commit made in between.
- Request fingerprints (SHA-256 over sorted JSON) are injective, so requests are compared instead, and
  a stored request payload validates back to the request.
- The two steps of a workflow carry the same creation time; they are taken to be read back in the order
  they were inserted. `WorkflowRows.RejectedStepExactlyWhen` shows what the other order would do.
- Audit events are read in the order they were added. Timestamps appear only where the code decides by
  them (the outbox, ranking, backfill order, the legacy date check).
- A response to a claim POST may be lost, late, delayed beyond the client's interest or replaced by
  any error, but a claim id in a successful response is the Claims Service's answer to that POST.
- A sequence never repeats a value, and a rollback does not give one back.
- An exception the code does not catch (a 4xx body that is no JSON, a claim id that is no UUID, a
  protocol error) ends the request like a crash.
- Workers of the outbox share one clock. Timing and crash-freedom are hypotheses of the theorems that
  need them and of no other.
- Retrieval: lower-casing is modelled exactly as far as ASCII letters and digits are concerned, which is
  all the tokens look at.
- Legacy ingestion: the date never runs backwards between deliveries. Amounts are compared with their
  digits, as the JSON text does: 1.5 and 1.50 are different content.

## Where the code and its documentation disagree

The model follows the code.

- README.md:135 gives workflows in `reconciliation_required` an operator retry; `retry_claim_workflow`
  refuses everything but `failed` (`SagaAudit.RetryableExactlyWhen`).
- `format_claim_reference` promises to format "the same way the database default does"; they part at
  seven digits, where `lpad` truncates (`References.DefaultAgreesExactlyWhen`), and the migration's
  promise that new claims never collide ends there too (`References.TruncationCollides`).
- The claims client's trailing raise cannot be reached, so `ClaimsServiceUnavailable`, which the retry
  check accepts, never arises (`HttpClients.CreateClaim`).
- A rejected or unreconciled claim leaves its step skipped, not failed (`WorkflowRows.AfterClaimsShape`).
- The worker's `max_attempts` is stored and never read: there is no cap on attempts, and none is claimed.
- `mark_retry` resets a row to pending whatever its status (`OutboxFinality.ReopenedExactlyWhen`).
- After the migration of an empty table the first claim gets number 2 (`References.Start`).
- A retry submits under the retrier's token, and claims are scoped by subject, so "one claim per
  workflow" is a statement per subject (`SagaTheorems.OneClaimPerSubject`).

## Model

| member | source | states |
|---|---|---|
| SagaTheorems.CompletedMeansClaimed | services/orchestrator/src/orchestrator/services/workflow_service.py:119-158 | In every interleaving, a completed workflow names an existing claim created from exactly its request, and that claim is the one stored under the submitter and the workflow's key and under no other |
| SagaTheorems.OneClaimPerSubject | services/claims/src/claims_service/services/claim_service.py:84-114 | However many POSTs of one workflow get through, two of them get the same claim if and only if they carried tokens of one subject |
| SagaTheorems.SharedClaimExactlyWhen | services/orchestrator/src/orchestrator/api/routes.py:79-85 | Two completed workflows share a claim if and only if they were submitted under one subject with one key |
| SagaTheorems.OwnRetriesNeverShare | services/orchestrator/src/orchestrator/api/routes.py:79-85 | While owners retry their own workflows, different completed workflows have different claims |
| SagaExamples.ForeignRetrySharesAClaim | services/orchestrator/src/orchestrator/api/routes.py:79-85 | A run in which a retry under somebody else's token leaves two workflows of two owners with one claim |
| SagaTheorems.ClaimsServiceIsAtomic | services/claims/src/claims_service/services/claim_service.py:73-114 | Inside the saga, concurrent claim creation is an atomic get-or-create map, with claims and key records in bijection |
| SagaTheorems.StartsAreAtomic | services/orchestrator/src/orchestrator/services/workflow_service.py:187-234 | So are concurrent starts, whatever becomes of the workflows they create |
| SagaTheorems.ClaimExactlyWhenMade | services/claims/src/claims_service/services/claim_service.py:91-105 | A claim is stored under a subject and key if and only if a call made it: one filed directly, or a POST carrying that very subject and key |
| SagaTheorems.ClaimsNeedAnActivePolicy | services/claims/src/claims_service/services/claim_service.py:85-105 | Every claim was committed by a call that got an "active" policy answer between its own beginning and its commit |
| SagaTheorems.OneWorkflowPerKey | services/orchestrator/src/orchestrator/services/workflow_service.py:203-234 | Workflows and key records are in bijection, one per (subject, stripped key): losing starts leave nothing behind |
| SagaTheorems.ConcurrentStarts | services/orchestrator/src/orchestrator/services/workflow_service.py:187-239 | Starts with one key are told its one workflow, or a conflict exactly when their request differs from the workflow's, and only the start that created it executes it |
| SagaTheorems.StartsShareExactlyWhen | services/orchestrator/src/orchestrator/services/workflow_service.py:187-234 | Any two starts of a run that are told a workflow are told the same one if and only if they came from one subject with headers that agree but for outer whitespace; then their requests are equal |
| SagaTheorems.StartKeepsItsKey | services/orchestrator/src/orchestrator/services/workflow_service.py:194-199 | A start works under its subject, its stripped header and its request for the rest of the run; a blank header changes nothing |
| SagaTheorems.KeysAreStripped | services/orchestrator/src/orchestrator/services/workflow_service.py:194-196 | In every run each workflow has a stripped, non-blank key, and every POST for it carries that very key |
| SagaTheorems.BoundsAlways | services/orchestrator/src/orchestrator/services/workflow_service.py:246-284 | Without any assumption: at most three POSTs per request, the retry counter never exceeds 3, and `policy_verified` and `claim_submitted` are never committed, even if retries overlap |
| SagaTheorems.CrashedStartIsStuck | services/orchestrator/src/orchestrator/services/workflow_service.py:227-239 | A workflow whose start died after its first commit stays pending, unchanged, for ever |
| SagaTheorems.OnlyDeathAbandons | services/orchestrator/src/orchestrator/services/workflow_service.py:227-239 | A pending workflow with a live start is abandoned by a step if and only if that start dies in it |
| SagaSafety.InvHolds | services/orchestrator/src/orchestrator/services/workflow_service.py:187-311 | The invariant all of the above is read off holds after every run: lost, late and repeated messages, crashes, concurrent starts and retries |
| SagaSafety.SavedRow | services/orchestrator/src/orchestrator/services/workflow_service.py:293-311 | Whatever was committed since a request loaded a row, its column-wise commit leaves no intermediate state, no claim on a failed row, and a claim consistent with whoever completed it |
| SagaSafety.BelievedClaim | services/orchestrator/src/orchestrator/services/workflow_service.py:132-142 | A claim id the client believes is the one stored under its own subject and key for its own request |
| SagaAudit.AuditRebuildsExactlyWhen | services/orchestrator/src/orchestrator/services/workflow_service.py:53-116 | In every run, crashes and overlapping retries included, folding the committed audit trail rebuilds state, failure category, both steps with error categories and the retry count if and only if no request committed on the workflow over a row it had not loaded; otherwise the trail cannot be read at all |
| SagaTrails.RowTellsTrailExactlyWhen | services/orchestrator/src/orchestrator/services/workflow_service.py:53-158 | The converse: state, failure category and retry count of a committed workflow determine its whole trail, event by event and in order, if and only if that did not happen |
| SagaTrails.ReconciliationIsAlerted | services/orchestrator/src/orchestrator/services/workflow_service.py:110-116 | In every run, overlapping retries and crashes included, a workflow to be reconciled has the alert in its trail |
| SagaAudit.AuditCountsRetries | services/orchestrator/src/orchestrator/services/workflow_service.py:283-308 | Unless that happened, retries started, outcomes recorded and the retry count agree, and are at most 3 |
| SagaAudit.SerialNeverOvertakes | services/orchestrator/src/orchestrator/services/workflow_service.py:254-311 | Retries of one workflow that do not overlap never do that, whatever happens to other workflows |
| SagaExamples.OverlappingRetriesBreakTheTrail | services/orchestrator/src/orchestrator/services/workflow_service.py:254-284 | A run in which two overlapping retries both count themselves as the first: the counter says one, the trail two, and it no longer replays |
| SagaAudit.CommittedShapes | services/orchestrator/src/orchestrator/services/workflow_service.py:93-158 | A committed workflow that was not overtaken has one of five shapes tying state, steps, claim and failure category together |
| SagaAudit.RetryableExactlyWhen | services/orchestrator/src/orchestrator/services/workflow_service.py:261-271 | In every run, a committed workflow can be retried if and only if its failure is a policy outage and it has retries left; one to be reconciled cannot |
| SagaPosts.OneSubmission | services/orchestrator/src/orchestrator/services/workflow_service.py:126-141 | If retries of the workflow do not overlap and no request died after posting its claim, all its POSTs, first run and retries together, come from one request and number at most three |
| SagaPosts.SentExactlyWhenReported | services/orchestrator/src/orchestrator/services/workflow_service.py:126-158 | In every run, a POST was sent for an idle workflow if and only if a request committed what came of one or died after posting one |
| SagaPosts.SentExactlyWhen | services/orchestrator/src/orchestrator/services/workflow_service.py:126-158 | In every run, a POST was sent for an idle workflow if and only if its row says completed, rejected or to be reconciled, or a request died after posting it, or a policy verdict was committed over the rejection of its claim |
| SagaPosts.HiddenIsOvertaken | services/orchestrator/src/orchestrator/services/workflow_service.py:254-311 | The last of these takes an overlapping retry |
| SagaExamples.OverlapHidesARejection | services/orchestrator/src/orchestrator/services/workflow_service.py:254-311 | A run in which it happens and nobody dies |
| SagaPosts.NeverHeardOf | services/orchestrator/src/orchestrator/services/workflow_service.py:126-158 | If none of them holds, the Claims Service was never called for the workflow |
| SagaExamples.RejectedWorkflowHasAClaim | services/orchestrator/src/orchestrator/services/claims_client.py:75-101 | A run in which a rejected workflow has a claim: the answer to the first POST was lost and the second was refused |
| SagaPosts.PolicyFailureHidesExactlyLost | services/orchestrator/src/orchestrator/services/workflow_service.py:126-158 | In particular, behind a policy failure there is a POST if and only if a request died after posting it |
| SagaExamples.CrashHidesAPost | services/orchestrator/src/orchestrator/services/workflow_service.py:258-311 | A run in which a retry dies after posting and leaves the workflow failed on its policy although a POST is under way |
| Saga.DecideIsTheClientLoop | services/orchestrator/src/orchestrator/services/claims_client.py:66-108 | Deciding attempt by attempt, as the saga interleaves it, is the verdict of the whole retry loop |
| WorkflowService.Workflow.constructor | services/orchestrator/src/orchestrator/services/workflow_service.py:203-225 | A new workflow is pending with both steps pending and one `workflow_created` event |
| WorkflowService.Workflow.ChangeState | services/orchestrator/src/orchestrator/services/workflow_service.py:53-67 | Changes the state and logs from, to and reason once, or nothing if it is already there |
| WorkflowService.Workflow.ChangeStep | services/orchestrator/src/orchestrator/services/workflow_service.py:70-90 | Changes one step's state and error and logs it once, or nothing if both are already there |
| WorkflowService.Workflow.RecordFailure | services/orchestrator/src/orchestrator/services/workflow_service.py:93-116 | The loop over the steps leaves the row `MarkFailure` describes: category and state set, pending or running steps failed or skipped, settled ones untouched, and an alert logged for a reconciliation |
| WorkflowService.Workflow.ExecuteWorkflow | services/orchestrator/src/orchestrator/services/workflow_service.py:119-158 | For every pair of verdicts the object ends as `Execute` says, or an exception escapes; `OutcomeOfVerdicts` says what that is |
| WorkflowService.Workflow.Restart | services/orchestrator/src/orchestrator/services/workflow_service.py:283-291 | Counts and logs the retry, reopens the workflow, forgets its failure and resets its steps |
| WorkflowService.Workflow.Retry | services/orchestrator/src/orchestrator/services/workflow_service.py:249-311 | Which of the four ways a retry ends; a refused retry changes nothing |
| WorkflowService.RetryEndsExactlyWhen | services/orchestrator/src/orchestrator/services/workflow_service.py:258-271 | A retry is let through exactly for a failed workflow with fewer than three retries whose failure was an outage |
| WorkflowRows.AfterPolicyShape | services/orchestrator/src/orchestrator/services/workflow_service.py:126-131 | From the pending shape a policy verdict leads to the verified shape or to failed and skipped steps |
| WorkflowRows.AfterClaimsShape | services/orchestrator/src/orchestrator/services/workflow_service.py:132-158 | From the verified shape a claims verdict leads to exactly one final shape; a failed claim step ends skipped, not failed |
| WorkflowRows.OutcomeOfVerdicts | services/orchestrator/src/orchestrator/services/workflow_service.py:119-158 | State, failure category and claim of a pending workflow after its run, for each policy verdict and each claims verdict |
| WorkflowRows.RetryableExactlyAfterOutage | services/orchestrator/src/orchestrator/services/workflow_service.py:264-271 | A run leaves a workflow that can be retried if and only if the policy lookup was unavailable |
| WorkflowRows.BeginRetryShape | services/orchestrator/src/orchestrator/services/workflow_service.py:283-291 | A restarted workflow is back in the pending shape with one more retry counted |
| WorkflowRows.MarkFailureReplays | services/orchestrator/src/orchestrator/services/workflow_service.py:93-116 | A failure keeps the trail in step with the row |
| WorkflowRows.AfterPolicyReplays | services/orchestrator/src/orchestrator/services/workflow_service.py:126-131 | So does every policy verdict |
| WorkflowRows.AfterClaimsReplays | services/orchestrator/src/orchestrator/services/workflow_service.py:132-158 | So does every claims verdict |
| WorkflowRows.BeginRetryReplays | services/orchestrator/src/orchestrator/services/workflow_service.py:283-291 | So does restarting, which opens a retry in the trail |
| WorkflowRows.EndRetryReplays | services/orchestrator/src/orchestrator/services/workflow_service.py:300-308 | So does closing it |
| WorkflowRows.RetriesPair | services/orchestrator/src/orchestrator/services/workflow_service.py:283-308 | In any trail that replays, retries started equal the count and each but an open one has its outcome |
| WorkflowRows.RejectedStepExactlyWhen | services/orchestrator/src/orchestrator/models/workflow.py:31-33 | When the claim of a retry is rejected, the claim step is the skipped one if and only if the equally old steps were loaded in insertion order; otherwise the steps are recorded the wrong way round, and the trail replays either way |
| WorkflowRows.SwappedStepsCanBeRetried | services/orchestrator/src/orchestrator/models/workflow.py:31-33 | A row left by a policy outage and re-loaded with its steps swapped passes the checks of a retry |
| Services.Orchestrator.StartClaimWorkflow | services/orchestrator/src/orchestrator/services/workflow_service.py:187-239 | On every path, the lost race included, a start is a run of the get-or-create machine, followed by the execution of the row it created; an escaping exception leaves that row as created |
| Services.Orchestrator.Reserve | services/orchestrator/src/orchestrator/services/workflow_service.py:198-234 | Its first commit: found, conflict, created, or rolled back because others used the key in the meantime |
| Services.Orchestrator.ExecuteNew | services/orchestrator/src/orchestrator/services/workflow_service.py:227-237 | Two commits: the row as created, then its outcome |
| HttpClients.CreateClaim | services/orchestrator/src/orchestrator/services/claims_client.py:66-110 | For every sequence of outcomes, in status codes and bodies: transport failures and 5xx are tried again, three times in all, and then left to be reconciled; a 4xx is a rejection, a 2xx with an id a claim, and anything else is left to be reconciled; 0, 0.1 or 0.3 seconds slept; never the trailing raise |
| HttpClients.GetPolicy | services/orchestrator/src/orchestrator/services/policy_client.py:33-75 | The same for policy lookups: 404 is not found, a 2xx decides by its status field, everything else is unavailable |
| HttpClients.FirstDecisiveExists | services/orchestrator/src/orchestrator/services/claims_client.py:66-108 | Every sequence of outcomes has exactly one index the two contracts speak about |
| Keys.StripIsCore | services/claims/src/claims_service/services/claim_service.py:80-82 | Stripping removes exactly the outer whitespace |
| Keys.StripIdempotent | services/orchestrator/src/orchestrator/services/workflow_service.py:194-196 | A stripped key is forwarded and stored unchanged |
| Keys.BlankExactlyWhitespace | services/orchestrator/src/orchestrator/services/workflow_service.py:194-196 | A key is refused if and only if it is nothing but whitespace |
| Keys.SpaceCharacters | services/orchestrator/src/orchestrator/services/workflow_service.py:194-194 | The twelve characters of a header that stripping takes for whitespace |
| GetOrCreate.RefinesAtomicMap | services/claims/src/claims_service/services/claim_service.py:50-114 | Any interleaving of lookups, guards, inserts, unique violations and crashes is linearizable: the answered calls, one at a time against an atomic map, give the same table and the same answers |
| GetOrCreate.RespectsRealTime | services/claims/src/claims_service/services/claim_service.py:50-114 | A call answered before another began comes first in that order |
| GetOrCreate.InvHolds | services/claims/src/claims_service/models/idempotency.py:13-26 | Key records and rows are in bijection and every answer agrees with the table, in every reachable state |
| GetOrCreate.AnswersAgree | services/claims/src/claims_service/services/claim_service.py:65-71 | Two answered calls with one key: equal requests get the same row, a different one a conflict, and at most one call made the row |
| GetOrCreate.RowsAreGuarded | services/claims/src/claims_service/services/claim_service.py:85-105 | No row without a guard passed by the call that committed it |
| GetOrCreate.ResolveFinds | services/claims/src/claims_service/services/claim_service.py:106-111 | The second lookup after a unique violation always finds the record |
| GetOrCreateCalls.KeyExactlyWhenMade | services/claims/src/claims_service/services/claim_service.py:91-105 | A key is in the table if and only if some call was told that it made its row |
| GetOrCreateCalls.ContendedIsAtomic | services/claims/src/claims_service/services/claim_service.py:73-114 | A call is the atomic operation on the tables its lookup finds or, failing that, its commit finds, whatever others did in between |
| Services.ClaimsService.CreateClaim | services/claims/src/claims_service/services/claim_service.py:73-114 | On every path, policy client and lost race included, a call is a run of the machine; a blank or already used key never looks the policy up |
| Lifecycles.StatusIsLastRecord | services/claims/src/claims_service/services/claim_service.py:132-150 | In any interleaving the status is what the last audit record says, and every record is an allowed transition from a status the entity once had |
| Lifecycles.ContiguousExactlyWhen | services/claims/src/claims_service/services/claim_service.py:132-150 | An entity's trail is one unbroken path to its status if and only if no update was committed over a status it had not loaded |
| Lifecycles.SerialNeverOvertakes | services/claims/src/claims_service/services/claim_service.py:126-155 | Serialised updates of one entity never do that, whatever overlaps elsewhere |
| Lifecycles.LeavesFinalExactlyWhen | services/claims/src/claims_service/services/claim_service.py:132-150 | An entity leaves a status no transition leads from in a step if and only if the step commits an update decided on another status that leads elsewhere |
| Lifecycles.FinalStaysExactlyWhen | services/claims/src/claims_service/services/claim_service.py:132-150 | Over whole runs: such a status stays if and only if no later step does that |
| Lifecycles.ClosedClaimStaysExactlyWhen | services/claims/src/claims_service/services/claim_service.py:30-37 | So for denied, paid and closed claims |
| Lifecycles.CancelledPolicyStaysExactlyWhen | services/policy/src/policy_service/services/policy_service.py:21-28 | So for cancelled policies |
| Lifecycles.OnlyCancelledIsFinal | services/policy/src/policy_service/services/policy_service.py:21-28 | No other status of a policy is final |
| Lifecycles.ClaimStatusTellsHistory | services/claims/src/claims_service/services/claim_service.py:30-41 | Unless an update was overtaken, a claim's status determines its whole trail, of at most three records; paid means reviewed, approved, paid |
| Lifecycles.EveryRouteHappens | services/claims/src/claims_service/services/claim_service.py:30-41 | Each of these histories happens: every status is reached by its route |
| Lifecycles.PaidAfterApproval | services/claims/src/claims_service/services/claim_service.py:30-41 | However updates interleave, payment comes after a recorded approval |
| Lifecycles.DeniedClaimIsPaid | services/claims/src/claims_service/services/claim_service.py:132-150 | A run in which overlapping updates pay a claim that is denied at that moment |
| Lifecycles.UnderwritingAlternates | services/policy/src/policy_service/services/policy_service.py:21-32 | Unless an update was overtaken, a policy entered underwriting as often as it was activated, plus once if it is there now; it was renewed before every underwriting but the first; cancellation is final |
| Lifecycles.ClaimService.UpdateStatus | services/claims/src/claims_service/services/claim_service.py:126-155 | Not found, invalid transition or updated, for exactly the five allowed moves; status and audit record are written together, as a load and a commit of the machine, and a refused update changes nothing |
| Lifecycles.PolicyService.UpdateStatus | services/policy/src/policy_service/services/policy_service.py:52-91 | The same for policies |
| OutboxLeases.LeaseExclusion | services/eventing/src/eventing_service/db.py:72-89 | If every worker that holds an event finishes within its lease, no two workers ever hold it; workers on other events may be late |
| OutboxLeases.PublishedIsFinal | services/eventing/src/eventing_service/db.py:91-101 | Under the same assumption, once published its row never changes again |
| OutboxFinality.ReopenedExactlyWhen | services/eventing/src/eventing_service/db.py:96-101 | With no timing assumption, a step makes a published row pending if and only if it writes a failed publication onto a row its transaction had loaded as published |
| OutboxFinality.PublishedIsFinalExactlyWhen | services/eventing/src/eventing_service/db.py:96-101 | Over whole runs: once published, an event stays published if and only if no later step does that |
| OutboxFinality.PublicationsConserved | services/eventing/src/eventing_service/worker.py:26-39 | In every run, successful publications of an event are its committed marks plus the marks lost in crashes plus the workers still to mark it |
| OutboxLeases.PublicationsCounted | services/eventing/src/eventing_service/worker.py:26-39 | If live workers that hold an event are in time, crashes included, it was published once per mark a crash lost, and once more if its mark is committed or to come |
| OutboxLeases.AtMostOnceExactlyWhen | services/eventing/src/eventing_service/worker.py:26-39 | Hence at most once if and only if no crash lost its mark, or one did and it has not been published again |
| OutboxLeases.AtMostOnce | services/eventing/src/eventing_service/worker.py:21-41 | In particular, without crashes the event is published at most once, and exactly once when it is marked |
| OutboxBackoff.DueIsKept | services/eventing/src/eventing_service/db.py:96-101 | In every run, however late workers are, the time an event is due is what its appending and its failed marks, told from the run alone, make it |
| OutboxBackoff.ClaimedOnlyWhenDue | services/eventing/src/eventing_service/db.py:74-85 | In every run nobody claims an event before that time, or while a lease on it lasts |
| OutboxBackoff.BackoffIsKept | services/eventing/src/eventing_service/worker.py:29-33 | In timely runs nobody claims an event after a failed publication until two to the number of its claims (at most 256) seconds have passed since its mark was decided |
| OutboxProtocol.PublishedWasDelivered | services/eventing/src/eventing_service/worker.py:26-38 | Whatever the timing and whoever crashes, a row with a publication date was successfully published |
| OutboxProtocol.NothingIsLost | services/eventing/src/eventing_service/db.py:48-70 | Rows are never lost, keep their content, and stay unique per producer and key |
| OutboxProtocol.AttemptsCountClaims | services/eventing/src/eventing_service/db.py:86-88 | `attempts` is the number of times the row was claimed |
| OutboxProtocol.NeverStuck | services/eventing/src/eventing_service/db.py:73-88 | In every reachable state a pending row nobody touches is claimable 256 seconds later |
| OutboxProtocol.ConcurrentClaimsDisjoint | services/eventing/src/eventing_service/db.py:74-85 | Claims in progress at one time have disjoint rows, whatever the timing |
| OutboxExamples.StaleWorkerReopens | services/eventing/src/eventing_service/db.py:96-101 | A worker that outlives its lease makes a published event pending again |
| OutboxExamples.CrashDeliversTwice | services/eventing/src/eventing_service/worker.py:26-38 | A crash between publishing and marking publishes twice, even with every live worker in time |
| Outbox.EventRepository.Append | services/eventing/src/eventing_service/db.py:48-70 | An event is a duplicate if and only if a stored one has its producer and its key; otherwise it is stored pending, due now and unlocked, or its id is taken |
| Outbox.AppendIsDetermined | services/eventing/src/eventing_service/db.py:48-70 | That contract has exactly one result for every table and event |
| Outbox.EventRepository.Select | services/eventing/src/eventing_service/db.py:74-85 | Pending, due rows without a lease that lasts and without another transaction's lock, oldest first; and unless the limit is reached, all of them |
| Outbox.EventRepository.Claim | services/eventing/src/eventing_service/db.py:72-89 | Leases exactly those rows for 60 seconds with one more attempt each, and no other row changes |
| Outbox.DelayIsCappedDoubling | services/eventing/src/eventing_service/worker.py:30-30 | The backoff doubles per attempt up to 256 seconds, never shrinks, and the cap of 300 never binds |
| Outbox.DeliverAll | services/eventing/src/eventing_service/worker.py:25-41 | The delivery loop marks every claimed event by its own outcome on the table as others have left it, and counts the successes |
| Outbox.RunOnce | services/eventing/src/eventing_service/worker.py:21-41 | One pass with other workers around it: it leases the oldest unlocked candidates, every later table is the one others left with exactly one event marked, and it returns the number of events published |
| Outbox.PassAlone | services/eventing/src/eventing_service/worker.py:21-41 | With nobody around it, column by column: a published event is marked so and unlocked, a failed one is pending, unlocked and due two to its attempts (at most 256) seconds after its own mark, and every other row is untouched |
| History.LiveIsTruncatedHistory | apps/operations-portal/src/store.ts:63-67 | After any commands from empty storage the list is the first 40 distinct ids by latest record, each with its latest value |
| History.LiveIsTheLatestForty | apps/operations-portal/src/store.ts:63-67 | ... of which there are forty, or all if there are fewer |
| History.TruncationLosesNothing | apps/operations-portal/src/store.ts:63-67 | Truncating at every step shows the same as truncating once |
| History.FindIsLatestOrSample | apps/operations-portal/src/store.ts:74-83 | A lookup finds the latest recorded value among those shown, else the bundled sample |
| History.ReloadShowsTheSameExactlyWhen | apps/operations-portal/src/store.ts:21-61 | What was written is read back unchanged if and only if every entry passes the filter on stored elements; otherwise the list shrinks |
| History.WorkflowHistory.constructor | apps/operations-portal/src/store.ts:39-52 | Missing, unreadable or partly foreign storage loads as `Readable` says |
| History.ReadableIsFiltered | apps/operations-portal/src/store.ts:21-25 | Loading keeps, in order, exactly the elements that are objects with a string state and an array of steps |
| History.WorkflowHistory.All | apps/operations-portal/src/store.ts:75-78 | The live entries first, then the samples whose ids are not live |
| History.WorkflowHistory.Find | apps/operations-portal/src/store.ts:81-83 | The first live entry with the id, else the first such sample, else nothing |
| History.WorkflowHistory.Record | apps/operations-portal/src/store.ts:64-67 | The list changes as specified even if the write fails, which then leaves storage as it was |
| History.WorkflowHistory.Clear | apps/operations-portal/src/store.ts:98-101 | The same for clearing |
| History.WorkflowHistory.Persist | apps/operations-portal/src/store.ts:54-61 | A failing write is absorbed |
| References.ParseFormat | services/claims/src/claims_service/models/claim.py:37-46 | Year and sequence value can be read back off every formatted reference |
| References.FormatHasForm | services/claims/src/claims_service/models/claim.py:37-46 | A reference is CLM, four digits of the year and six of the value, which read back as both |
| References.FormatInjective | services/claims/src/claims_service/models/claim.py:37-46 | The formatter is injective on (year, sequence) |
| References.DefaultAgreesExactlyWhen | services/claims/src/claims_service/models/claim.py:31-46 | Formatter and database default agree if and only if the sequence value is below a million |
| References.TruncationCollides | services/claims/src/claims_service/models/claim.py:31-34 | From a million on, the default repeats the reference of the value without its last digit |
| References.DefaultsEqualExactlyWhen | services/claims/src/claims_service/models/claim.py:31-34 | Two defaults are equal if and only if they have one year and the same leading six digits |
| References.DefaultsDistinctExactlyWhen | services/claims/src/claims_service/models/claim.py:31-34 | A year's first n defaults are distinct if and only if n is below a million |
| References.PositionsFollowOrder | services/claims/src/claims_service/db/migrations/versions/0003_claim_reference.py:44-55 | The backfill numbers 1 to n, each once, by creation time and then by id |
| References.ClaimTable.Upgrade | services/claims/src/claims_service/db/migrations/versions/0003_claim_reference.py:32-68 | Every claim gets the reference of its own year and its position, nothing else changes, and the sequence stands at n, or at 1 for an empty table |
| References.ClaimTable.Flush | services/claims/src/claims_service/services/claim_service.py:91-93 | A flushed claim takes the next sequence value |
| References.ClaimTable.Commit | services/claims/src/claims_service/services/claim_service.py:104-105 | A committed claim keeps its reference; commits may come in another order than the values |
| References.ClaimTable.Rollback | services/claims/src/claims_service/services/claim_service.py:105-107 | A rolled back claim leaves its sequence value unused for ever |
| References.ReferencesDistinct | services/claims/src/claims_service/db/migrations/versions/0003_claim_reference.py:38-68 | Backfilled and later references all differ while the sequence value is below a million, whatever values rollbacks skipped and in whatever order claims were committed |
| References.ClaimTable.TableReferencesDistinct | services/claims/src/claims_service/db/migrations/versions/0003_claim_reference.py:62-68 | So the references in the table are pairwise different |
| Retrieval.TokensAreMaximalRuns | services/copilot-rag/src/copilot_rag/main.py:99-100 | The tokens are exactly the maximal runs of at least two characters of [a-z0-9] |
| Retrieval.TokensAreWords | services/copilot-rag/src/copilot_rag/main.py:99-100 | So a token of a text is a word of two or more ASCII letters or digits in its lower-cased form, cut off on both sides |
| Retrieval.LowerIsPointwise | services/copilot-rag/src/copilot_rag/main.py:100-100 | Lower-casing turns A to Z into a to z and leaves the rest, but for two characters that have ASCII letters inside their lower-case forms |
| Retrieval.TitleAndContentWords | services/copilot-rag/src/copilot_rag/main.py:113-113 | Joining title and content with a blank neither loses nor makes a token |
| Retrieval.ScoreCountsSharedWords | services/copilot-rag/src/copilot_rag/main.py:113-113 | The score is the number of words of the question that title or content has too |
| Retrieval.Retrieve | services/copilot-rag/src/copilot_rag/main.py:103-117 | The result is the `limit` best in-scope rows with a positive score, best first, and every row left out ranks after every row returned |
| Retrieval.RetrievedExactly | services/copilot-rag/src/copilot_rag/main.py:103-117 | In plain terms: only rows that concern the question and share a word with it, by score, creation time and id; and a row that could be returned and is not is outranked by a full list |
| Retrieval.Sort | services/copilot-rag/src/copilot_rag/main.py:116-116 | A strictly ranked arrangement of the scored rows |
| Retrieval.SmallerLimitIsPrefix | services/copilot-rag/src/copilot_rag/main.py:116-117 | A smaller limit gives a prefix of a larger one, and one limit has one result |
| Retrieval.OrderOfRowsIsIrrelevant | services/copilot-rag/src/copilot_rag/main.py:106-117 | The result depends on which rows are stored, not on the order they are read in |
| Retrieval.BeforeIsTotalOrder | services/copilot-rag/src/copilot_rag/main.py:116-116 | Score descending, created_at, id is a strict total order on rows with distinct ids |
| Retrieval.LessIsLexicographic | services/copilot-rag/src/copilot_rag/main.py:116-116 | Texts are compared by their first difference, and a proper prefix comes first |
| Legacy.IngestIsGetOrCreate | services/legacy-adapter/src/legacy_adapter/services/ingestion.py:17-46 | Concurrent ingestion, with stored JSON and a moving clock, is a run of the get-or-create machine that compares the records themselves |
| Legacy.AnswerExactlyWhen | services/legacy-adapter/src/legacy_adapter/services/ingestion.py:22-44 | On both lookup paths a delivery is rejected if and only if a row stored with its source system and claim id has other content; otherwise it is told a row that holds its very columns |
| Legacy.ReplayReturnsOriginal | services/legacy-adapter/src/legacy_adapter/services/ingestion.py:17-46 | An identical delivery is always told the original, a different one always rejected, and one call at most created it |
| Legacy.StoredOnce | services/legacy-adapter/src/legacy_adapter/services/ingestion.py:27-35 | Each (source system, claim id) is stored at most once, and each row has its own id |
| Legacy.DumpReadsBack | services/legacy-adapter/src/legacy_adapter/schemas/claim.py:8-23 | A dump validates back to the same record if and only if its lengths, its amount and its date pass the checks on that day |
| Legacy.DefaultsFilled | services/legacy-adapter/src/legacy_adapter/schemas/claim.py:16-17 | A record without a status is a submitted one |
| Legacy.DumpInjective | services/legacy-adapter/src/legacy_adapter/services/ingestion.py:12-14 | Equal dumps are dumps of equal records |
| Legacy.ReplayNeedsTheClock | services/legacy-adapter/src/legacy_adapter/schemas/claim.py:19-23 | An identical delivery is rejected if and only if the clock stands before the incident date |
| Services.LegacyAdapter.IngestClaim | services/legacy-adapter/src/legacy_adapter/services/ingestion.py:17-46 | On every path, the lost race included, an ingestion is a run of the machine |

## Left out

- Routing, middleware, authentication, role checks, logging and Pydantic field parsing outside the legacy adapter: requests arrive as validated values.
- Workflow and step timestamps, and the retry check for a missing key record or payload: no workflow is created without them.
- The policy client of the Claims Service as a second method: its loop differs from the orchestrator's only in logging, so `HttpClients.GetPolicy` stands for both.
- The endless loop around `run_once` and its pauses: every pass is one call, and passes interleave in `OutboxProtocol`.
- `Outbox.EventRepository.Append`: the row that vanishes between the conflict and the second lookup is not modelled, because rows are never deleted.
- `Retrieval.Sort`: an insertion sort in place of the library's; the keys are distinct, so every correct sort gives the same list.
- `Retrieval.Retrieve`: takes a non-negative limit, which the endpoint guarantees.
- The dashboard counters and the bundled sample data of the portal's history: aggregates and constants.
- Correlation and causation ids of event envelopes: they have no outbox column.
- Payments, document intelligence, the hosted generator, review rules, portal views and demo mode: provider calls, simulations and single-branch logic.
