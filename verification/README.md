# Dotori in Dafny

A model of the parts of Dotori where state, protocols and arithmetic are hard,
with proofs of what they promise. `dafny verify dfyconfig.toml` checks all of it.

## What is modelled

**Bounded plan delivery** (`Plans`, `PlanRecords`, `PlanValidation`, `Control`,
`Receipts`, `Submissions`, `DeliveryProtocol`, `DeliveryTheorems`,
`DeliveryDecisions`, `DeliveryProgress`, `DeliveryExclusion`, `DeliveryWitness`,
`Journal`, `Executor`, `ExecutorProtocol`, `Dispatch`, `DispatchProtocol`). A static
plan is kept in a journal row, its steps are sent through a broker to executor
processes, and durable receipts make execution effectively-once. `DeliveryProtocol` is a
transition system over journal rows, messages, receipts and executor sessions;
each database transaction is one step. The broker may deliver any message it
holds any number of times and in any order, or forget it; an executor may crash
anywhere; a send may fail, or happen and then be rolled back; the domains may
answer differently at every step; an operator may release a stranded receipt.
`DeliveryTheorems` proves what holds in every state of every run:
effectively-once execution, dependency safety, sound and stable outcomes, pinned
commands. `DeliveryDecisions` adds that proposals never expand a plan,
`DeliveryProgress` that runs of successes complete it, `DeliveryExclusion` when
exactly executors exclude each other. `DeliveryWitness` has runs that show what can
happen. The imperative code is in `Journal`, `Receipts`, `Executor` and `Dispatch`.
The methods of `Journal` and `Receipts` are proved equal to the functions the
protocol steps with, and `Journal.PublishIsProtocol` makes a publication a path of
it; `ExecutorProtocol` does that for an execution request; `DispatchProtocol` takes
the answers a transport run works with from the states of a run, and says what of
the run the protocol sees.

**Serving planner** (`Memory`, `Llamacpp`, `Vllm`, `ServingConfig`). Memory
estimates, placement over RAM and GPUs and the fit test; the descending search
for a concurrency and the monotonicity that justifies its shortcut; the closed
form for vLLM and how far it can miss; the serving profile and the chain of
calibration generations that must stay under the planner's ceiling. Ratios are
reals, and `round` is exact, ties to even.

**Runtime switch with rollback** (`Docker`, `RuntimeSwitch`, `Lifecycle`).
Containers by name, ownership labels, restart policy, active pointer and status file.
Whether docker serves a call is a parameter of each call, and containers change by
themselves between calls. `RuntimeSwitch` has what is left of the containers, and the
calls made, as functions of these fates; the methods of `Lifecycle` are proved equal
to them.

**Materialised path index** (`Texts`, `PathIndex`). Paths that must agree with the
parent chain, and the bulk SQL `REPLACE` that maintains them.

**Smaller cores** (`Selection`, `Calibration`, `Deployment`, `WorkRoutes`,
`Modules`). Rank fusion, calibration selection, the deployment plan builder
against the runtime that resolves from it, and module resolution by depth-first
search.

## Where the code does less than it says

- `app/llm_installation/runtime_lifecycle.py:678-682` says the previous container
  is only deleted once the candidate is healthy. It is deleted without that exactly
  if it was not moved aside and one of two removals succeeded: `_run_candidate`
  clearing the name (`Lifecycle.RenameFailureLoses`, and also if the candidate then
  gets healthy), or, if that fails as well, the rollback removing what it takes for the
  candidate (`Lifecycle.LateRemovalLoses`). `RuntimeSwitch.DeletedExactly` and
  `RuntimeSwitch.KeptExactly` say so of all switches, `Lifecycle.RuntimeManager.Apply`
  of every run.
- The same method may report `rolled_back` with the candidate running under the
  name: exactly if the old container was not renamed back and something with the name
  was started (`RuntimeSwitch.RestoredExactly`, `Lifecycle.RollbackKeepsCandidate`).
- "Refusing to touch" a foreign container needs the first inspect to have seen it.
  If that call fails, the container is taken for absent
  (`Lifecycle.OverlookedIsRemoved`). Foreign containers are left alone exactly if none
  was overlooked (`RuntimeSwitch.OwnedExactly`), and stay exactly if none was or neither
  removal succeeded (`RuntimeSwitch.ForeignExactly`).
- `Node.move` rewrites descendants with SQL `REPLACE`, which also rewrites later
  occurrences: `PathIndex.RenameCorrupts` is an example, and
  `PathIndex.MoveKeepsValid` the exact condition, for whole histories
  `PathIndex.HistoryIsValid`. Renaming accepts a name with a
  slash, which the condition covers too.
- The fallback of `_plan_llamacpp` places the cache in VRAM, does not force a layer
  and says `ram`; it may call itself FIT although nothing fits
  (`Llamacpp.FallbackCanClaimFit`), and then passes `build_serving_plan` even with a
  handoff, exactly under the conditions on disk, RAM and GPU 0 in
  `Llamacpp.FallbackStatus`.
- The vLLM closed form may promise headroom that rounding takes away
  (`Vllm.ClosedFormCanMissFit`). `Vllm.PromiseExactly` says for which models it never
  does: on one GPU, for instance, exactly those whose slot is not rounded down.
- A stale executor may still enter its handler after a newer attempt has finished,
  since `validate_execution` does not look at the receipt
  (`DeliveryWitness.CanBeLeftBehind`). That takes a release under a live executor:
  without one there is mutual exclusion (`DeliveryExclusion.NobodyStaleExactly`).
  It cannot change receipts, and each attempt enters at most once.
- A message without a deadline that is redelivered before it was ever retried gets
  its 1800 seconds anew (`Dispatch.RedeliveryRestartsPatience`). Plan messages always
  carry theirs.
- An envelope without plan and step id is not authorized again in front of the
  handler. `DeliveryTheorems.ReadyWhenActing` holds all the same, because such an
  envelope is admitted only for jobs of no plan (`DeliveryTheorems.KnownIsMarked`).
- `plan_from_record(plan_record(p))` also succeeds through a JSON column only if
  the payloads hold no tuples of their own (`PlanRecords.StoredRoundTrip`).

## Assumptions

- `derive_job_id` (uuid5) and `canonical_fingerprint` (SHA-256) are injective, and a
  new plan id is one nothing was derived from before.
- Domain adapters are oracles: which plans are admitted, which artifacts are
  linked to a job, what an input resolves to, what a command compiles to. Nothing
  relates their answers at different moments.
- The target key and the payload-to-chunks projection of a handler are functions
  of the work, so a retry of a job names the same target.
- Docker calls that fail change nothing, except that a failed `run` may leave a
  created container; nobody else uses the runtime's container names during a call.

## Model

| member | source | states |
|---|---|---|
| Plans.ValidatePlanBindings | app/orchestration/plans.py:86-105 | Accepts a plan exactly when its version fits its use of bindings and every bound input names its own schema and, if produced in the plan, an earlier declared dependency that outputs it |
| PlanValidation.ValidatePlan | app/orchestration/plans.py:108-175 | Accepts a plan exactly when header, order, distinct dependencies, domain checks, input sources and requested outputs all hold; the loop over the steps seen so far is proved against that condition |
| PlanValidation.InputsAreGrounded | app/orchestration/plans.py:129-172 | In a validated plan every step input is traced back, schema by schema through declared dependencies, to the authorized source or to a resolved artifact |
| PlanValidation.ValidPlansProgress | app/orchestration/plans.py:133-175 | A validated plan whose names fit the journal never gets stuck while it only succeeds: until it is completed there is a step to publish |
| Plans.ValidateOrder | app/orchestration/submissions.py:36-40 | Accepts the stored steps exactly when names are short, distinct and dependencies point strictly backwards |
| Plans.ReportFromReceipt | app/orchestration/plans.py:221-241 | A report is made exactly from a receipt of this step with usable artifacts only, and a success needs at least one |
| PlanRecords.PlanFromRecord | app/orchestration/plans.py:200-218 | Returns a plan exactly when the record reads as one that passes the gate and carries its own step-to-job map |
| PlanRecords.RecordRoundTrip | app/orchestration/plans.py:189-218 | A record read back gives the plan that was written if and only if the plan passes the version and lineage gate |
| PlanRecords.StoredRoundTrip | app/orchestration/plans.py:189-218 | Also through a JSON column, where tuples become lists, if and only if moreover no payload holds a tuple |
| PlanRecords.StoredRecordStable | app/orchestration/plans.py:189-218 | A plan that came back from storage once is accepted unchanged ever after |
| PlanRecords.ChangedJobsRejected | app/orchestration/plans.py:214-216 | A record whose step-to-job map was changed in any way is rejected |
| Control.CompletedIsSound | app/orchestration/plans.py:244-258 | "completed" means each requested schema is output by a ready step whose direct and transitive dependencies are all ready |
| Control.ChainReady | app/orchestration/plans.py:255-256 | Readiness of a completed plan reaches back along any dependency chain |
| Control.Progress | app/orchestration/submissions.py:81-86 | A validated plan with only successes so far that is not completed has a non-empty ready_steps |
| Control.DecideProposals | app/orchestration/control.py:6-34 | The decision loop refuses malformed follow-ups and otherwise gives each proposal its one decision |
| Control.AcceptedExactly | app/orchestration/control.py:21-31 | Over any list of commands of the plan, a follow-up is accepted if and only if it repeats one of them word for word, of a step that depends on the reporting one, has no report and has ready dependencies |
| Receipts.SucceededIsFinal | app/documents/services/receipt_repository.py:57-92 | No complete or fail changes any field of a succeeded receipt |
| Receipts.StaleAttemptIsRefused | app/orchestration/receipts.py:30-32 | An owner of another attempt changes nothing |
| Receipts.ClaimKeepsExclusion | app/orchestration/receipts.py:58-86 | Claiming keeps attempts within four and running jobs apart by target and by captured node; what it hands out is at an attempt nobody had before |
| Receipts.ReceiptRepository.ClaimExecution | app/orchestration/receipts.py:58-86 | The claim transaction does what the claim relation allows, in every branch |
| Receipts.ReceiptRepository.ConflictingJob | app/documents/services/receipt_repository.py:29-36 | Returns a conflicting running job, and none only if there is none |
| Receipts.ReceiptRepository.CreateClaim | app/documents/services/receipt_repository.py:48-55 | Inserts the fresh receipt, or on a unique violation returns the running one of the same target |
| Receipts.ReceiptRepository.Restart | app/documents/services/receipt_repository.py:38-46 | The receipt runs again at the next attempt with its outcome cleared |
| Receipts.ReceiptRepository.Complete | app/documents/services/receipt_repository.py:57-73 | Only the running owner completes; repeating the same completion is idle |
| Receipts.ReceiptRepository.Fail | app/documents/services/receipt_repository.py:75-91 | Only the running owner fails a receipt, except to mark retries exhausted |
| Submissions.LoadSubmission | app/orchestration/submissions.py:28-41 | Loads a row exactly when plan gate, budget, identity and order hold |
| Submissions.ReadLiveReports | app/orchestration/submissions.py:63-78 | The loop yields the live reports or the first error |
| Submissions.LiveFacts | app/orchestration/submissions.py:63-78 | Live reports are one per stored report, of the plan, and a step counts as ready exactly when its stored report is a success |
| Journal.PlanJournal.Submit | app/orchestration/submissions.py:89-121 | The transaction of submit_plan: succeeds exactly for a fresh or identical request, gives every step its delivery, and otherwise changes nothing |
| Journal.PlanJournal.SubmitPlan | app/orchestration/submissions.py:89-131 | The transaction, and behind its commit the publication of a plan that may publish and never did, whose failures undo nothing |
| Journal.PlanJournal.AddDeliveries | app/orchestration/submissions.py:117-121 | The deliveries found or created are one per step with the step's job, or the identity check fails |
| Journal.PlanJournal.PrepareStepCommand | app/orchestration/command_inputs.py:68-107 | Compiles a consuming command once, in its own transaction, or validates the pinned one |
| Journal.PlanJournal.SendStep | app/orchestration/submissions.py:146-178 | The locked transaction around the send, for every fate of the send and of the commit |
| Journal.PlanJournal.PublishStep | app/orchestration/submissions.py:134-182 | publish_step as a whole: prepare, send and, on any failure, the stored reason |
| Journal.PlanJournal.PublishReady | app/orchestration/submissions.py:185-207 | Sends only for eligible steps of this plan; if it returns, every eligible step is published, and on a replay sent again just now |
| Journal.PlanJournal.RecordResponse | app/orchestration/submissions.py:252-277 | The transaction of record_response: records exactly the responses the stored step allows, with outcome and decisions over the live reports, or changes nothing |
| Journal.PlanJournal.RecordAndPublish | app/orchestration/submissions.py:252-281 | The transaction, and behind its commit, for a success, the publication of what became ready; a failure of that is raised but undoes nothing |
| Journal.PlanJournal.AuthorizeIfPlanned | app/orchestration/submissions.py:295-299 | Lets an envelope through exactly when it is not planned, or stored, admitted and with ready dependencies |
| Journal.OutcomeFacts | app/orchestration/submissions.py:134-182 | One publish_step only adds to the row, sends only messages of its step, and leaves a step that may be published published |
| Journal.PublishIsProtocol | app/orchestration/submissions.py:134-182 | publish_step with its transactions and rollbacks is a short path of the protocol, so what holds of every run holds of it |
| DeliveryProtocol.StepGrows | app/orchestration/submissions.py:134-281 | No step of the system removes or edits a plan, forgets a success or replaces a compiled command; receipts stay and succeeded ones keep every field |
| DeliveryProtocol.StepKeepsPlans | app/orchestration/submissions.py:89-281 | Every step keeps the journal invariants: successes downward closed and backed by succeeded receipts, outcomes sound, request ids unique |
| DeliveryProtocol.PublishFacts | app/orchestration/submissions.py:146-170 | What is sent is the stored command of a step whose dependencies are live and ready |
| DeliveryProtocol.AuthorizedClears | app/orchestration/submissions.py:242-250 | Admission of a job of a stored plan needs the stored successes it depends on |
| DeliveryProtocol.LiveOutcome | app/orchestration/submissions.py:268-273 | Over live reports the readiness test comes down to the requested schemas being produced |
| DeliveryTheorems.RunKeeps | app/orchestration/submissions.py:89-281 | All invariants hold in every state of every run, with duplicates, losses, retries, rollbacks and crashes |
| DeliveryTheorems.EffectivelyOnce | app/orchestration/executor_views.py:107-177 | In every state of every run a job's handler was entered at most four times, its receipt succeeded at most once and at most one process owns its running attempt |
| DeliveryTheorems.SuccessIsForever | app/orchestration/receipts.py:58-97 | A succeeded receipt keeps every field in all later states |
| DeliveryTheorems.DependencySafety | app/orchestration/submissions.py:134-199 | Whatever was sent, executed or stored as a success: all transitive dependencies have stored successes and succeeded receipts |
| DeliveryTheorems.ReadyWhenActing | app/orchestration/execution.py:13-28 | At the moment of every send, replays of messages still on the wire included, and of entering a handler for a planned job, all dependencies are ready with artifacts |
| DeliveryTheorems.KnownIsMarked | app/orchestration/submissions.py:295-299 | An authorized envelope for a job of a stored plan carries its plan or step id |
| DeliveryTheorems.OutcomeIsLive | app/orchestration/submissions.py:268-273 | After every recorded response the stored outcome is the completion candidate of the live reports, and is completed exactly when the requested schemas are produced |
| DeliveryTheorems.CompletedForever | app/orchestration/submissions.py:255-273 | Once completed, a plan stays completed whatever is recorded later |
| DeliveryTheorems.CompletedIsReal | app/orchestration/plans.py:244-258 | A stored completion is backed by succeeded receipts for producing steps and everything they depend on |
| DeliveryTheorems.OneCommandPerStep | app/orchestration/command_inputs.py:68-107 | All messages ever sent for one step of one plan are the same message |
| DeliveryTheorems.PinnedPayload | app/orchestration/command_inputs.py:13-29 | Whatever is authorized or recorded for a step at any later time carries what was first sent for it |
| DeliveryTheorems.RequestIsForever | app/orchestration/submissions.py:97-115 | A request id names one plan for ever |
| DeliveryTheorems.ResubmitIsIdle | app/orchestration/submissions.py:97-115 | Resubmitting a known request id changes nothing and is accepted for the same plan only |
| DeliveryWitness.CanComplete | app/orchestration/submissions.py:89-281 | Every one-step plan has a run that completes it, so the run results are not vacuous |
| DeliveryDecisions.ApprovedAreFinal | app/orchestration/submissions.py:57-60 | approved_commands lists one command for each step whose command is final, and that final command |
| DeliveryDecisions.RecordedDecisions | app/orchestration/submissions.py:270-273 | Right after any recorded response of any run each stored proposal has one decision, which accepts it if and only if it repeats the final command of an unreported step that depends on the reporting one and whose dependencies succeeded |
| DeliveryDecisions.ProposalsNeverExpand | app/orchestration/control.py:6-34 | In every state of every run an accepted follow-up is such a step of the plan itself, and until the plan is completed that step is in ready_steps |
| DeliveryProgress.RunRecords | app/orchestration/submissions.py:265 | In every run the stored reports of a plan are as many as the steps a response was recorded for |
| DeliveryProgress.RunCompletes | app/orchestration/submissions.py:81-86 | A run that records only successes for a plan records at most as many steps as there are, has a step to publish until the requested schemas are produced, and has completed the plan when none is left |
| DeliveryProgress.AllRecordedCompletes | app/orchestration/submissions.py:81-86 | When every step has its success recorded the plan is completed |
| DeliveryExclusion.NobodyStaleExactly | app/orchestration/execution.py:13-28 | In a run no process ever holds or executes a job whose running receipt it does not own if and only if no receipt is released while a process works on it |
| DeliveryExclusion.MutualExclusion | app/orchestration/executor_views.py:132-177 | Then at most one process at a time holds or executes a job, the one its running receipt belongs to |
| DeliveryExclusion.StaleIsInert | app/documents/services/receipt_repository.py:57-92 | Once a newer attempt exists, no process of an older one changes any receipt by finishing or aborting, at any later time of the run |
| DeliveryWitness.CanBeLeftBehind | app/orchestration/execution.py:13-28 | A run in which a release lets two processes hold one job, and the one left behind enters the handler after the other succeeded |
| Executor.Process.ExecuteJob | app/orchestration/executor_views.py:67-83 | One request at a time; slot and context are given back on every path; the outcome is a refusal, the claimed receipt, or a settled execution |
| Executor.Process.Execute | app/orchestration/executor_views.py:107-177 | The handler is entered exactly for a handed-out claim before the deadline and with authority |
| Executor.Process.Conclude | app/orchestration/executor_views.py:132-177 | What a claimed attempt leaves: its receipt after the handler's and the flow's endings, never still running, touched only while it is this attempt's; the body says ok exactly for a success |
| Executor.Process.EndReceipt | app/orchestration/receipts.py:38-45 | Endings go through the active ownership or are refused |
| Dispatch.Transport.DispatchOrRetry | app/orchestration/celery_adapter.py:61-151 | The executor is asked only with authority, admission, time and a free slot, at most once a run; a terminal receipt of a redelivered message is reported without asking; the slot is given back |
| Dispatch.Transport.Admit | app/orchestration/celery_adapter.py:95-118 | A redelivered plan message asks for its receipt before anything is sent |
| Dispatch.OneEnvelope | app/orchestration/celery_adapter.py:66-76 | However often a message with a deadline is retried and redelivered, whatever its runs send is the envelope of the first run, before the deadline, at most once a run |
| Dispatch.RetriesKeepEnvelope | app/orchestration/celery_adapter.py:66-76 | A message without a deadline keeps its first envelope through all its retries |
| Dispatch.RedeliveryRestartsPatience | app/orchestration/celery_adapter.py:66 | Redelivered before a retry it keeps the envelope if and only if it carried a deadline or starts at the same moment |
| DispatchProtocol.SendsTheMessage | app/orchestration/celery_adapter.py:66-151 | Whatever comes of a message of the protocol sends executors that message's envelope and nothing else |
| DispatchProtocol.SentIsReceivable | app/orchestration/celery_adapter.py:115-116 | With linkage, receipt and authority read from the states of a run, whatever is sent could be received when it was authorized, with dependencies ready, and carries what was first sent for the step |
| DispatchProtocol.DoneIsNotSentAgain | app/orchestration/celery_adapter.py:99-114 | Work that has succeeded by the time a redelivered plan message looks is not sent again |
| DispatchProtocol.LookedUpIsRecordable | app/orchestration/celery_adapter.py:109-114 | A receipt reported instead of sending is the stored one, and recording it is a protocol step whenever the journal accepts it |
| ExecutorProtocol.RunInterferes | app/orchestration/receipts.py:58-97 | Whatever the rest of a run does to the receipts is interference as the executor allows for |
| ExecutorProtocol.ExecuteIsProtocol | app/orchestration/executor_views.py:86-177 | A request with its claim, handler entry and endings, and whatever the rest of the system does before the handler and while it runs, is a path of the protocol: its events are exactly receive, claim, the others, entry if it came to that, the others, one ending; receipts and handler entries are the same |
| Memory.RoundMonotone | app/llm_installation/planner.py:382-401 | Rounding to nearest, ties to even, is monotone |
| Memory.KvMonotone | app/llm_installation/planner.py:398-401 | More slots never need less cache, for any model |
| Memory.SplitIsFair | app/llm_installation/planner.py:441-445 | An even split sums to its total with shares at most one apart |
| Memory.WeightsPlacedOnce | app/llm_installation/planner.py:486-503 | RAM and VRAM together hold the model weights exactly once, for any layer count |
| Memory.LayersAreMaximal | app/llm_installation/planner.py:486-500 | If the fixed part fits the safe capacity, the chosen layers keep GPU 0 inside it and one more layer would not |
| Memory.PoolFit | app/llm_installation/planner.py:531-563 | The loop over the pools says NOFIT, RISKY or FIT exactly as the pools hold the placement once, or with headroom |
| Memory.LessFitsBetter | app/llm_installation/planner.py:531-563 | A placement that asks less of every pool, or keeps its headroom, fits at least as well |
| Llamacpp.MoreSlotsNeverBetter | app/llm_installation/planner.py:477-563 | For fixed hardware and KV placement no larger concurrency fits better, through layer count, split and headroom together |
| Llamacpp.PlanLlamacpp | app/llm_installation/planner.py:779-996 | Returns the largest FIT concurrency up to the cap of the first KV placement that has one; otherwise the largest non-NOFIT one, or an error if FIT was promised; otherwise the fallback |
| Llamacpp.SkippedPlace | app/llm_installation/planner.py:800-830 | A placement skipped because one slot does not fit has no fitting concurrency at all |
| Llamacpp.SafeCeiling | app/llm_installation/planner.py:893-924 | Every smaller concurrency fits as well, and with the planned layers kept it needs no more of any pool |
| Llamacpp.NoCandidateExactly | app/llm_installation/planner.py:800-833 | The search over all concurrencies finds nothing, or nothing FIT, if and only if the disk or every KV placement fails that level for a single slot |
| Llamacpp.FallbackStatus | app/llm_installation/planner.py:934-957 | Where no single slot fits, the fallback says otherwise if and only if it is on GPU offload, the disk suffices, and the pools hold it without layers or, without KV offload, RAM holds what its layers leave |
| Llamacpp.BuildServingPlan | app/llm_installation/planner.py:1103-1144 | Exactly which handoffs are refused: those for which the fallback says NOFIT where no single slot fits, and otherwise those that say NOFIT or were promised FIT where no single slot has all the headroom; and exactly when the plan is the unavailable one |
| Llamacpp.ResultLabel | app/llm_installation/planner.py:930-996 | Only a search without any candidate ends in the unavailable plan, only one that was promised FIT and found none is refused, and a promised status is the one shown |
| Llamacpp.FallbackCanClaimFit | app/llm_installation/planner.py:934-996 | A model whose layers do not fit one by one still gets a fallback plan that calls itself FIT |
| Vllm.VllmMaxConcurrency | app/llm_installation/planner.py:998-1022 | The loop returns the least of the per-GPU caps, and at least one |
| Vllm.ShareGrowth | app/llm_installation/planner.py:398-401 | Rounding once per plan and splitting unevenly add less than p + 1 MB to a GPU's share of p slots |
| Vllm.RequirementBound | app/llm_installation/planner.py:998-1038 | At the closed form's concurrency p every GPU needs less than free / 1.25 + p + 1 MB |
| Vllm.PromiseExactly | app/llm_installation/planner.py:998-1038 | A GPU keeps the headroom the closed form was solved for, whatever memory is free, if and only if it is counted for a share of the rounded slot that, taken for all GPUs, is no less than the slot |
| Vllm.KeepsExactly | app/llm_installation/planner.py:998-1038 | At a given concurrency the headroom is missed exactly by a cache share above the budget |
| Vllm.GuaranteedFits | app/llm_installation/planner.py:1025-1045 | With that guarantee on all GPUs, and RAM for the overhead, the plan is FIT |
| Vllm.ExactWhenWhole | app/llm_installation/planner.py:998-1038 | One case: a slot of a whole number of MB shared evenly |
| Vllm.ClosedFormCanMissFit | app/llm_installation/planner.py:998-1038 | A slot that rounds down makes the closed form promise headroom that the placement lacks |
| Vllm.BuildVllmPlan | app/llm_installation/planner.py:1025-1091 | The plan runs at the closed form's concurrency; a handoff is refused if and only if it says NOFIT, the plan does, or it was promised FIT and the plan is not |
| ServingConfig.NormalizeServingProfile | app/llm_installation/rag_runtime_config.py:28-73 | The updates of the dictionary yield the normalized profile |
| ServingConfig.NormalizeIsConsistent | app/llm_installation/rag_runtime_config.py:28-73 | Any profile becomes one that says the same number of slots everywhere, between 1 and its ceiling |
| ServingConfig.NormalizeIdempotent | app/llm_installation/rag_runtime_config.py:28-73 | Normalizing twice is normalizing once |
| ServingConfig.ArgList.Replace | app/llm_installation/config_store.py:221-229 | Edits the value behind the first occurrence of a flag, or reports that there is none |
| ServingConfig.BothSet | app/llm_installation/config_store.py:293-302 | Setting two flags whose values are no flags sets both |
| ServingConfig.ConfigStore.StageCalibration | app/llm_installation/config_store.py:232-351 | Stages a generation exactly for an admissible request, and adds only that one |
| ServingConfig.ConfigStore.Commit | app/llm_installation/config_store.py:205-218 | Moves the active pointer to an existing generation and nothing else |
| ServingConfig.StagingKeeps | app/llm_installation/config_store.py:232-351 | A staged generation keeps ceiling, context length and original generation, and its arguments equal its profile |
| ServingConfig.ChainKeepsCeiling | app/llm_installation/config_store.py:266-342 | So does every generation of any chain of stagings, and none serves more than the planner's ceiling |
| ServingConfig.StagedStaysWithinPlan | app/llm_installation/config_store.py:266-275 | Slots staged from a planned profile, however late, have room in the planned KV placement, and on GPU offload need no more of any pool than the planned maximum |
| Lifecycle.RuntimeManager.Apply | app/llm_installation/runtime_lifecycle.py:639-751 | For every fate of every docker call: which containers are left; the pointer moves exactly on success, after health, endpoint and restart policy; the previous container survives a failure if and only if it was moved aside or neither removal succeeded; foreign containers are left alone if and only if none was overlooked; a reported rollback has the previous container running if and only if it was renamed back |
| RuntimeSwitch.KeptExactly | app/llm_installation/runtime_lifecycle.py:678-751 | A failed switch keeps the previous container, under one of its two names, if and only if it was moved aside or neither clearing the name nor removing the candidate succeeded |
| RuntimeSwitch.DeletedExactly | app/llm_installation/runtime_lifecycle.py:678-702 | The previous container is deleted while no candidate was validated if and only if it was not moved aside and one of the two removals succeeded, whether the switch then succeeds or fails |
| RuntimeSwitch.OwnedExactly | app/llm_installation/runtime_lifecycle.py:664-751 | Every call of a switch is on a labelled container if and only if no unlabelled one was overlooked |
| RuntimeSwitch.ForeignExactly | app/llm_installation/runtime_lifecycle.py:664-751 | Unlabelled containers stay where and as they were if and only if none was overlooked or neither removal succeeded |
| RuntimeSwitch.RestoredExactly | app/llm_installation/runtime_lifecycle.py:722-730 | A reported rollback has the previous container under the name if and only if it was renamed back, and the candidate otherwise |
| Lifecycle.RuntimeManager.Switch | app/llm_installation/runtime_lifecycle.py:683-751 | From the inspected state on: the containers left and the calls made, in order, as functions of the fates of the calls and of whether the candidate was validated |
| Lifecycle.RuntimeManager.Replace | app/llm_installation/runtime_lifecycle.py:683-689 | The previous container is moved aside; if it cannot be, it is cleared away, or stays and keeps the candidate from starting |
| Lifecycle.RuntimeManager.RunCandidate | app/llm_installation/runtime_lifecycle.py:376-429 | The name is cleared and the candidate run without automatic restart; status says starting only if it started |
| Lifecycle.RuntimeManager.WaitHealthy | app/llm_installation/runtime_lifecycle.py:431-443 | True only after an inspect that saw the container running and healthy |
| Lifecycle.RuntimeManager.Validate | app/llm_installation/runtime_lifecycle.py:690-697 | Verified only after healthy, endpoint and restart policy in this order, and changes nothing otherwise |
| Lifecycle.RuntimeManager.RollBack | app/llm_installation/runtime_lifecycle.py:711-745 | What has the name after the removal, the rename back and the start, for every fate of them; the old status is restored exactly if something was started |
| Lifecycle.RuntimeManager.Resume | app/llm_installation/runtime_lifecycle.py:468-637 | Brings up only a container of the active generation and succeeds only after validation; an unlabelled container is touched if and only if it was overlooked with an image at hand, and goes if and only if it also could be removed |
| Lifecycle.RuntimeManager.Stop | app/llm_installation/runtime_lifecycle.py:753-763 | Stops and removes only a container with the labels, and refuses exactly one it sees without them |
| Lifecycle.RenameFailureLoses | app/llm_installation/runtime_lifecycle.py:683-689 | A run of apply that ends with no container: the rename failed and the name was cleared |
| Lifecycle.LateRemovalLoses | app/llm_installation/runtime_lifecycle.py:683-721 | Another: neither the rename nor clearing the name succeeded, and the rollback removes the previous container instead of the candidate |
| Lifecycle.RollbackKeepsCandidate | app/llm_installation/runtime_lifecycle.py:721-735 | A run of apply that reports a rollback with the candidate under the name |
| Lifecycle.OverlookedIsRemoved | app/llm_installation/runtime_lifecycle.py:664-689 | A run of apply that removes an unlabelled container the first inspect missed |
| Texts.ReplaceIsPrefixRewrite | app/files/models.py:403-412 | SQL REPLACE on a prefixed path is the prefix rewrite if and only if the pattern does not occur again behind the prefix |
| PathIndex.PrefixIsDescent | app/files/models.py:389-390 | In a valid tree a path starts with X/ exactly for the proper descendants of X |
| PathIndex.NoCycles | app/files/models.py:386-390 | No node of a valid tree is its own ancestor |
| PathIndex.MoveKeepsValid | app/files/models.py:376-420 | A move keeps every path equal to its parent chain if and only if the name is usable, the target is a folder and the old path does not recur in a descendant |
| PathIndex.MoveFrame | app/files/models.py:403-412 | A move changes no row outside the subtree and only paths inside it |
| PathIndex.RenameCorrupts | app/files/models.py:403-412 | Renaming /a to /x turns /a/b/a/c into /x/b/x/c |
| PathIndex.FileTree.Create | app/files/models.py:357-374 | A new node gets the path of its parent chain, or nothing is stored; the tree is valid afterwards if and only if the name is usable and the parent a folder |
| PathIndex.HistoryIsValid | app/files/models.py:357-420 | Through any history of creates and moves all trees are valid if and only if each change was clean |
| PathIndex.ReachableTrees | app/files/models.py:386-390 | After any clean history the prefix test finds exactly the proper descendants and there are no cycles |
| PathIndex.FileTree.Move | app/files/models.py:376-420 | Bulk update and save as one transaction, rolled back as a whole; valid afterwards exactly for a clean move |
| Selection.RankIgnoresOrder | app/llm_installation/selection.py:97-143 | The ranking is a permutation of the candidates and does not depend on their order |
| Selection.TwoPhaseOrdered | app/llm_installation/selection.py:102-104 | Sorting by id and then stably by key orders by key, then id |
| Selection.DominanceRanks | app/llm_installation/selection.py:119-143 | A strictly faster and strictly larger candidate ranks above the other |
| Selection.AutomaticChoice | app/llm_installation/selection.py:175-272 | The automatic choice is eligible and undominated; a risky one needs confirmation and that nothing fits |
| Selection.ManualChoice | app/llm_installation/selection.py:194-235 | A manual choice is the selectable candidate asked for, confirmed if risky, or none |
| Selection.ChoiceIgnoresOrder | app/llm_installation/selection.py:175-272 | The automatic choice does not depend on catalog order |
| Selection.RankManual | app/llm_installation/selection.py:146-162 | The partition loop ranks FIT before RISKY and leaves the rest in order |
| Calibration.SelectServingConcurrency | app/llm_installation/calibration.py:279-345 | Accepted steps are a maximal prefix of the sorted ones, each decided, and the last accepted is selected; with distinct concurrencies the selection is justified by growth and latency |
| Calibration.Judge | app/llm_installation/calibration.py:298-325 | No reason against a step exactly if it is measured, within the latency ratios and gains enough |
| Calibration.AcceptedGrowth | app/llm_installation/calibration.py:298-340 | The n-th accepted throughput is at least 1.08^(n-1) times the baseline and every accepted p95 stays within its ratio |
| Calibration.SelectedIsJustified | app/llm_installation/calibration.py:298-345 | The selected concurrency is 1 or that of a step up to which every throughput is at least 1.08^k times the baseline and every p95 within its ratio |
| Deployment.Build | installation/deployment.py:604-781 | Succeeds exactly for compatible, identified, installed and evidenced candidates, usable standing routes and one embedding model; candidates are then completed and graded, standing routes kept and all others inferred |
| Deployment.ApplyObservations | installation/deployment.py:625-671 | Inapplicable evidence is downgraded, and withdraws an explicit route that named it |
| Deployment.ResolverFollowsBuilder | app/capabilities/deployment.py:59-126 | Resolving without a choice succeeds exactly for functions with a default route, and gives exactly that usable candidate |
| Deployment.RoutedIsApplicable | installation/deployment.py:622-671 | With observations everything routed had its evidence judged applicable |
| WorkRoutes.BuildWorkPlan | installation/deployment.py:782-817 | Succeeds exactly if none of four refusals applies (unknown role disabled, unknown capability, a capability leading to one that is off or into a cycle, role without executor); then lists, bindings, roles, routes and services are those the selection asks for |
| WorkRoutes.AdvertisedIsAdmitted | app/capabilities/work_registry.py:58-70 | The runtime admits exactly the selected work whose role and capability are on, and that is what the plan advertises |
| WorkRoutes.NeedsAreServed | installation/deployment.py:785-790 | Every capability an advertised route needs, directly or through others, is enabled, and its executor roles are bound and registered |
| WorkRoutes.DisablingRemovesExactly | installation/deployment.py:782-817 | Disabling one more role removes exactly the routes that need it, directly or through capabilities, adds none and leaves the others as they were |
| WorkRoutes.DisablingIsAccepted | installation/deployment.py:785-790 | One more role can be disabled if and only if it is declared and nothing that stays on depends on what goes off with it |
| WorkRoutes.ServicesFollowRoles | installation/deployment.py:791-797 | An optional service runs exactly if an enabled role needs it |
| Modules.ResolveModules | app/capabilities/modules.py:66-96 | Succeeds exactly if no requested module leads to an unregistered one or into a cycle, and then gives each reachable module once, behind its dependencies |
| Modules.Resolver.Visit | app/capabilities/modules.py:77-92 | The depth-first visit keeps the order dependency-first; a failure comes with a defect on the path |

## Left out

- Submissions.StoredCommand: checks preparation payloads against the registry of work payloads too; the separate preparation registry would repeat the same comparison.
- PlanRecords.PlanFromRecord: rejects a record whose fields have the wrong JSON type, where Python would carry the value along until it is compared.
- Journal.PlanJournal.SubmitPlan: the row is returned as it was committed, and log entries are not modelled.
- Journal.PlanJournal.PublishStep: the texts of broker and database errors are fixed strings.
- DeliveryProtocol.StepKeepsPlans: time appears only in the deadline test in front of a handler; deadlines in the transport are in Dispatch.
- DeliveryProgress.RunCompletes: that a plan provides what it is asked for is a hypothesis, which validate_plan checks before submission.
- DeliveryTheorems.EffectivelyOnce: bounds handler entries; side effects of a handler that dies half way are the handler's own business.
- Executor.Process.ExecuteJob: token, JSON, envelope and registration checks are one flag; the answers of authorize_if_planned are flags that ExecutorProtocol ties to the journal; the others' steps fall between the claim and the checks and between these and the first ending, not between the own ending of a handler that manages its receipt and the flow's look at it; the transaction around an atomic handler is taken to commit with its receipt.
- Dispatch.Transport.DispatchOrRetry: capability admission is one flag, the executor's answer to a send is free, and retry delays and the rejection callback are not modelled.
- PlanValidation.ValidatePlan: the payload, work route, function and provider checks of one step are one answer per step.
- Memory.WeightsPlacedOnce: floats are reals, and a model whose weight rounds to 0 MB, for which the code divides by zero, is excluded by EntryOk.
- Llamacpp.PlanLlamacpp: plan fields that are constants, display texts or copies of the entry are not modelled; the seed is not an upper bound, so the result is maximal up to the cap only.
- Llamacpp.BuildServingPlan: integrity and decoding of the handoff are not modelled.
- ServingConfig.ConfigStore.StageCalibration: the clock-made generation id and the filtering of the run id into a file name are parameters.
- Lifecycle.RuntimeManager.Apply: building images, networks, logs, memory claims and exceptions from the file system are left out; polling is bounded by a count instead of a clock.
- PathIndex.FileTree.Move: the in-memory node is taken to be fresh, and a unique violation is judged on the final rows.
- Selection.RankIgnoresOrder: an artifact id is its place in the order of ids.
- Calibration.SelectServingConcurrency: displayed gains are not modelled; measures are given as positive numbers or missing.
- Deployment.Build: how candidates are assembled from runtime files is left out; the builder starts from the assembled lists, the checks on installed model entries and their bindings are left out, and applicability of evidence is an oracle.
- WorkRoutes.BuildWorkPlan: queues, revisions, generation hashes and the read-compatible aliases are not modelled; resolve_capabilities is the search of Modules.ResolveModules over the enabled capabilities.
- The re-validation of a stored deployment plan by _parse_snapshot, which repeats the builder's checks.
- Views, forms, accounts, HTTP transport, Celery and Redis internals, hardware probes, catalog files, throughput estimates and the installation wizard.
