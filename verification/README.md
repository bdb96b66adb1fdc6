# EviStream: a verified model

EviStream moderates videos by evidence: an investigation agent gathers evidence for the requirements of a
policy, governance turns the evidence into a decision, people review and appeal decisions, and a new policy
version is replayed over the cases of an old one. This project models the parts of that system whose
correctness is not visible in any single function, and proves what they promise.

Check it with `dafny verify dfyconfig.toml` (Dafny 4.11).

## What is modelled

| part | files |
|---|---|
| the checkpointed investigation run | `AgentTypes`, `AgentGraph`, `AgentStore`, `AgentCalls`, `AgentMachine`, `AgentSafety`, `AgentProgress`, `AgentGuarantees`, `AgentDeadline`, `AgentEndings`, `AgentWindow`, `AgentExample`, `AgentRetry`, `AgentTrail`, `AgentRebuild`, `AgentOutcomes`, `AgentDeterminism`, `AgentEngine` |
| policies and the rule evaluator | `Policy`, `Rules`, `RuleStability` |
| evidence, aggregation and the decision ledger | `EvidenceStore`, `Aggregation`, `Ledger`, `LedgerHistory`, `LedgerRepeats`, `LedgerVerdicts`, `LedgerRequests` |
| selective replay | `Planner`, `Replay`, `ReplayLaws`, `ReplayHistory`, `ReplayRepeats`, `ReplayPlans`, `ReplayScope` |
| hybrid retrieval and the embedding index | `Fusion`, `Indexing` |

**The investigation run** is a small distributed protocol. `AgentMachine.Step` lets any number of workers
claim a run under a lease, work on private copies of its state, call models and tools, crash, and outlive
their leases, one database transaction at a time and in any order; time is a counter that only grows, and
models and tools answer whatever they like. `AgentSafety` finds one invariant of that machine,
`AgentGuarantees` states what it means, and `AgentDeadline` adds the time budget. `AgentEndings` says which
recorded answers are final and when a run is closed for good, `AgentWindow` what a claim after the DECIDE step
does, and `AgentRetry` what a deferred retry achieves; `AgentExample` runs one worker from the start to that
window. `AgentTrail` ties every committed step and every row of evidence to the recorded answer or tool report
it repeats, `AgentRebuild` shows the stored state to be a fold of the log, and `AgentOutcomes` says what is
accepted, why a run ends in review, how often it is retried and how long it is leased. `AgentProgress` bounds
the moves of every worker in every interleaving, and `AgentDeterminism` compares every crash schedule with the
one uninterrupted run. `AgentEngine` is the run loop itself, node by node and statement by statement, with the job
handler around it. Before each of its transactions any other workers may do any number of things to the same tables;
every execution is proved to be a run of the machine, and to end.

**Governance** is a pure evaluator over an append-only ledger. The three-valued evaluator is compared with an
independent two-valued meaning, and its verdicts with those after open requirements are decided later: which
of them survive is stated exactly. The aggregator and its result cache are compared with a definition that
sees nothing but the set of hashed entries, and the ledger is followed through every history of
finalizations, reviews, appeals and resolutions over any number of cases. `LedgerRepeats` says exactly when a
finalization goes through over a human decision, and what a repeated one does. `LedgerVerdicts` reads the
verdict of a finalization, its reason, its links and its refusals off the stored rows alone, and
`LedgerRequests` does the same for reviews, appeals and resolutions.

**Replay** copies a case to a newer policy version. It is proved to preserve findings and verdicts when the
versions agree, in whatever order they list their requirements, to add nothing when repeated, and to keep
origins leading back to older versions. `ReplayPlans` says what a preview tells of every case and which items a
prepared job starts with, and `ReplayScope` what one execution of an item investigates, derives and records.

**Retrieval** is rank fusion over exact reals and an index that is written while texts are being edited.

Where the source changes state, the model does too: classes hold the fields, methods update them in place,
and each method is proved equal to a function of the old state, about which the laws are stated.

### Assumptions

- A `with database.session()` block is one atomic step; a refused one is rolled back.
- SHA-256 is injective: a hash value is represented by the value that is hashed. Sorted lists under a hash are
  sets where their elements are distinct.
- A request key also hashes the media of the request (evistream/agent/audit.py:40-51), and INSPECT and VERIFY
  sample their frames afresh: the same selected items are taken to give the same bytes. What is said of
  crashes, reclaims and retries rests on it; with other bytes those two nodes would ask a new key.
- Clocks only move forward. Identifiers drawn at random are fresh.
- Scores, confidences and vectors are exact reals.
- A policy expression has exactly one operator at each inner node. (`all: []` beside a non-empty `any` passes
  the schema at evistream/policies/schema.py:35-39 but evaluates as an empty `all`.)
- A provider delivers answers of the schema its node asked for, or fails; registered tools return no items
  with a failure.
- An embedding model may answer differently each time; what is trusted is that a stored vector was given for
  its text, by this run of the indexer or another.

### Where code and documentation part

The model follows the code.

- docs/agent-runtime.md lets a worker that reclaims a run continue from the next node. After the DECIDE
  checkpoint there is none: if the worker crashes there, the next claim fails the run and the decision is
  lost, `CrashAfterDecideLosesTheDecision`. A claim there can even fail a run that completes meanwhile,
  `ClaimAfterDecideFailsTheEndedRun`. The window is reached: `WindowIsReached`.
- docs/agent-runtime.md calls successful model calls reusable by request key. While two workers are in the same
  call the later one overwrites the record, even with a failure: `AnswersAreFinalExactly`, `AnswersCanBeLost`.
- docs/task-runtime.md sends transient model failures to a retry. The failure is recorded under the key that
  the retry asks again, so every retry is refused and the run ends in review where it stood:
  `RetriesAchieveNothing`, `TheRetryIsRefused`.
- docs/replay.md lets an open appeal block the automatic execution of a replay. It blocks it for good: the item
  of the case stays in review, and the table holds one item for a case and a version
  (evistream/storage/models.py:695), so the case is never replayed into that version, even when its appeal is
  resolved: `BlockedCaseIsNeverReplayed`.
- docs/tool-protocol.md leaves the interpretation of clips to the investigation. The items of `inspect_clip` carry
  the modality "video", which no requirement admits (evistream/tools/core.py:314-322,
  evistream/policies/catalog.py:20-31): a requirement investigated on clips alone stays UNKNOWN however the
  investigation concluded, `ClipsSettleNothing`.
- docs/governance.md counts only evidence whose tool run and model call stand. A derived row carries neither,
  so replay revives a row that was invalid for their sake: `DerivedRowStandsExactly`.
- docs/governance.md lists evidence summaries among the hashed input of an aggregation; the code hashes the
  other columns of a row, not its summary text: `HashedColumns`.
- docs/governance.md has a review supersede the prior decision. The row does, but finalizing the case once more
  on the same basis puts the old machine decision back in force: `RepeatingUndoesTheReview`. Over a human
  decision a finalization goes through exactly when the ledger holds a machine decision on the evaluated
  input: `FinalizationGoesThroughExactly`.

## Model

| member | source | states |
|---|---|---|
| AgentStore.InvestigationService.ClaimState | evistream/agent/service.py:267-326 | a claim succeeds exactly for a live, unleased, startable run of an open case, takes both leases and hands out the stored snapshot; anything else changes nothing |
| AgentStore.InvestigationService.Save | evistream/agent/service.py:328-415 | node, next node, version and status are checked before anything is written; then snapshot, step, evidence and leases change together |
| AgentStore.InvestigationService.AppendPending | evistream/governance/evidence.py:34-71 | the first row of an evidence identity stays, whatever later rows say |
| AgentStore.InvestigationService.Finish | evistream/agent/service.py:417-460 | a run ends only at the version it stands at, COMPLETED or in review by the verdict alone |
| AgentStore.InvestigationService.FailRun | evistream/agent/service.py:462-483 | run, job and case fail together |
| AgentStore.InvestigationService.Defer | evistream/agent/service.py:485-528 | retry while attempts remain, failure after |
| AgentGraph.FirstRowsStay | evistream/governance/evidence.py:43-49 | stored rows never change, and of several rows with one new identity the first is stored |
| AgentGraph.LastItemCounts | evistream/agent/engine.py:454-462 | of several selected items with one reference a draft cites the last |
| AgentGraph.ValidateEvidence | evistream/agent/engine.py:444-494 | a verifier answer is accepted exactly when every draft cites a selected item of the requirement and stays inside its interval; each row then copies its item |
| AgentGraph.StillMissing | evistream/agent/engine.py:496-506 | a requirement stops being missing exactly by a support or contradict row of its own |
| AgentGraph.AppendIdsInOrder | evistream/agent/engine.py:253-255 | the evidence list keeps its order and gains exactly the new identities, each once and in the order of their first rows; it keeps its length, which stagnation counts, exactly when none is new |
| AgentCalls.AuditedGateway.Claim | evistream/agent/audit.py:124-190 | a request key is asked once, replayed from its record, refused after a recorded failure, and busy while its lease runs |
| AgentCalls.AuditedGateway.FinishSuccess | evistream/agent/audit.py:192-206 | the answer is recorded under the key, and the attempt count kept |
| AgentCalls.AuditedGateway.FinishError | evistream/agent/audit.py:208-216 | the failure is recorded under the key |
| AgentEndings.AnswersAreFinalExactly | evistream/agent/audit.py:192-216 | a recorded answer survives every later run if and only if no worker is still awaiting its key, because both endings of a call overwrite the record |
| AgentEndings.FinalAnswersAreReplayed | evistream/agent/audit.py:175-176 | from then on every claim of the key, whenever it comes, replays the answer |
| AgentEndings.AnswersCanBeLost | evistream/agent/audit.py:183-216 | two overlapping workers, reached from the start: one records its answer, the other then records its failure over it |
| AgentEndings.KeptLeasesKeepAnswers | evistream/agent/audit.py:124-216 | what is recorded while leases are kept is final, even if leases are lost later |
| AgentCalls.ReclaimKeepsTheCall | evistream/agent/audit.py:183-190 | until the lease ends the key is busy; after, the same call is asked again with one attempt more |
| AgentCalls.ToolExecutor.Start | evistream/tools/executor.py:42-86 | one row per request key: validated first, reused when recorded, reported failed while running, inserted otherwise |
| AgentCalls.ToolExecutor.Finish | evistream/tools/executor.py:107-127 | the row keeps what the caller is told |
| AgentGuarantees.ToolAnswersAreFinal | evistream/tools/executor.py:48-65 | in every run a finished tool row is never changed by anyone |
| AgentGuarantees.LogIsOnePath | evistream/agent/service.py:38-45 | in every interleaving the log holds one step per version 1..n and its nodes walk the graph from PLAN |
| AgentGuarantees.StepsAndCountersAreBounded | evistream/agent/engine.py:590-607 | version is 5*iteration at PLAN and DECIDE and 5*(iteration-1)+1..4 between; at most 5*max iterations steps ever; model calls, consecutive and total tool failures within their exact bounds |
| AgentGuarantees.CompletedIsConclusive | evistream/agent/engine.py:558-588 | COMPLETED means: last step DECIDE, a conclusive decision on committed evidence, every required ordinary requirement settled, no requirement both supported and contradicted, and the four counted budgets strictly unspent |
| AgentDeadline.CompletedInTime | evistream/agent/engine.py:590-592 | COMPLETED means that the time budget was unspent too: at some point before the deadline the log ended with the CHALLENGE step that DECIDE follows |
| AgentGuarantees.CompletedCoversTheScope | evistream/agent/service.py:94-178 | the same from `prepare` on: a completed investigation settles every required ordinary requirement of the case in scope |
| AgentGuarantees.PreparedRunsAreReached | evistream/agent/service.py:94-241 | what a prepared run reaches is what the machine reaches, so each guarantee holds of it |
| AgentEndings.PreparingAgainFindsTheRun | evistream/agent/service.py:104-128 | whatever any number of workers have done to a prepared run, a second `prepare` returns it as it stands exactly when it has not failed and the scope is not contradicted |
| AgentGuarantees.EvidenceIsGrounded | evistream/agent/engine.py:444-494 | every committed row lies inside an item that a recorded, unfailed tool run for its requirement returned |
| AgentGuarantees.OnlyAnEmptyNextNodeIsInvalid | evistream/agent/engine.py:130-136 | the "no action" and "invalid transition" errors are unreachable; a checkpoint error means an empty next node |
| AgentGuarantees.VerifierIsRefusedOnlyForForgery | evistream/agent/engine.py:454-470 | the "another requirement" error is unreachable: only a forged source or interval refuses a verifier |
| AgentGuarantees.ProposalStandsExactly | evistream/agent/engine.py:558-588 | a conclusive proposal survives enforcement if and only if it cites known evidence, nothing is missing or in conflict, and no budget is spent |
| AgentGuarantees.EnforcementIsExact | evistream/agent/engine.py:558-588 | a proposal that stands is returned as it is; otherwise the decision is a review on all evidence held, for the one reason that holds; only unknown evidence is an error |
| AgentGuarantees.OneReasonStands | evistream/agent/engine.py:558-607 | the reasons exclude one another, so the reason given is the only one |
| AgentGuarantees.AnotherRoundExactly | evistream/agent/engine.py:336-357 | CHALLENGE goes back to PLAN exactly when the model asks to go on and no budget is spent, this round's stagnation included |
| AgentTrail.LogRepeatsAnswers | evistream/agent/engine.py:94-388 | over every run each step repeats what was recorded for it: the planned action, the report of the tool run it asked for, the observation, the drafts, the challenge and the reports of its actions in turn, the proposal or a review in its place |
| AgentTrail.CompletedAsProposed | evistream/agent/engine.py:359-388 | the result of a completed run is the decision a model gave, recorded under a DECIDE request of the version it was committed at |
| AgentTrail.KeptLeasesShowTheProposal | evistream/agent/audit.py:192-206 | while leases are kept it is recorded there still |
| AgentTrail.EvidenceRepeatsDrafts | evistream/agent/engine.py:444-494 | every row of evidence has the stance, interval, summary and confidence of a draft of the recorded verifier call it names |
| AgentRebuild.SnapshotIsTheFold | evistream/agent/service.py:328-415 | until the run is closed the stored state, counters and lists included, is what folding the committed steps from the start gives |
| AgentRebuild.RequestsAreOfTheFold | evistream/agent/engine.py:94-388 | every model request ever made is made from that fold at its version |
| AgentOutcomes.OnlyValidActionsAreCommitted | evistream/agent/engine.py:291-442 | over every run PLAN steps plan tools their requirement lists, with the arguments they need, CHALLENGE steps have only looked for counter-evidence, and every recorded tool request is one the executor carries out |
| AgentOutcomes.ReviewsHaveAReason | evistream/agent/engine.py:590-618 | a run in review shows a review whose reason holds of the state it stopped in: a spent budget, a passed deadline, a failed model call of that version, or what DECIDE came to |
| AgentOutcomes.AttemptsAreAdmissions | evistream/agent/service.py:316-326 | over every run the attempts of the job are the workers that were admitted |
| AgentOutcomes.RetriesAreLimitedExactly | evistream/agent/service.py:485-528 | a retryable failure puts the run back exactly while fewer workers were admitted than the job allows, and fails run, job and case from then on |
| AgentOutcomes.ClaimIsExact | evistream/agent/service.py:267-326 | each outcome of a claim as an if-and-only-if over run, job, leases and case, and the rows an admitted one leaves |
| AgentOutcomes.PreparingIsExact | evistream/agent/service.py:129-241 | a first investigation is prepared exactly for a ready case, a known scope and something to investigate, and starts from nothing |
| AgentOutcomes.MeetingInACallFailsTheRun | evistream/agent/audit.py:183-187 | a worker that asks what another is asking under a running lease fails the run, its job and its case |
| AgentOutcomes.ArrivalsAreRecorded | evistream/agent/audit.py:192-216 | what a provider or a tool answers is recorded as it is, under its request, and nothing else is touched |
| AgentOutcomes.LeasesLastExactly | evistream/agent/service.py:267-415 | a running run is leased since the last admission or commit, and another worker is admitted if and only if that lease has ended |
| AgentGuarantees.KeptLeasesAreExclusive | evistream/agent/service.py:267-382 | while leases are kept there is one worker at most, and it is always at the committed version |
| AgentEndings.ClosedExactlyWhenNeverClaimed | evistream/agent/service.py:267-326 | a run whose case has left the investigation never commits a step or evidence again, whatever workers are left, and no claim of it ever succeeds; any other run can still be claimed |
| AgentEndings.EndingsClose | evistream/agent/service.py:417-528 | a failure, a completion at the current version, and a retry with no attempt left end the work for good: in every later run nothing is committed and nothing can be claimed |
| AgentDeterminism.CrashesDoNotChangeTheLog | evistream/agent/service.py:322-326 | with the same recorded answers every clean crash schedule commits a prefix of the crash-free run and ends as it ends |
| AgentDeterminism.SchedulesAgree | evistream/agent/audit.py:98-122 | two clean schedules that end leave the same log, evidence, status, reason and decision |
| AgentEndings.ClosedRunsRest | evistream/agent/service.py:267-326 | with no worker left a closed run keeps its status, whatever it is |
| AgentWindow.CrashAfterDecideLosesTheDecision | evistream/agent/engine.py:90-92 | if the only worker crashes between the DECIDE checkpoint and completion, the next claim after the lease fails the run, for good |
| AgentWindow.ClaimAfterDecideFailsTheEndedRun | evistream/agent/service.py:417-483 | if it does not crash, it still ends the run with its decision, and then the worker of that claim fails the ended run, for good |
| AgentExample.WindowIsReached | evistream/agent/engine.py:55-388 | from the start one worker, through all six nodes, reaches that point, for every configuration with budgets and every valid action |
| AgentRetry.RetriesAchieveNothing | evistream/agent/audit.py:177-182 | after a retryable model failure of the only worker, whoever claims the run however often, no step and no evidence is committed any more, and it can only end in review |
| AgentRetry.TheRetryIsRefused | evistream/agent/service.py:485-528 | the first claim that works on ends it, refused by the recorded failure, with a failed model as the reason |
| AgentProgress.MovesArePaid | evistream/agent/engine.py:55-92 | in every interleaving the moves of a worker and what it still has to do are paid for by its own claims, 30 units a node |
| AgentProgress.WorkersFinish | evistream/agent/engine.py:55-92 | between two claims a worker makes boundedly many moves, and one that was answered that often is done |
| AgentEngine.Engine.Run | evistream/agent/engine.py:55-92 | the loop ends, whatever other workers do between its transactions, and leaves the machine as its result says |
| AgentEngine.Engine.PlanNode | evistream/agent/engine.py:94-128 | PLAN is the machine's moves for PLAN |
| AgentEngine.Engine.RetrieveNode | evistream/agent/engine.py:130-166 | RETRIEVE is the machine's moves for RETRIEVE |
| AgentEngine.Engine.InspectNode | evistream/agent/engine.py:168-211 | INSPECT is the machine's moves for INSPECT |
| AgentEngine.Engine.VerifyNode | evistream/agent/engine.py:213-270 | VERIFY is the machine's moves for VERIFY |
| AgentEngine.Engine.CheckDrafts | evistream/agent/engine.py:444-494 | the validation loop accepts exactly what its definition accepts |
| AgentEngine.Engine.ChallengeNode | evistream/agent/engine.py:272-357 | CHALLENGE is the machine's moves for CHALLENGE |
| AgentEngine.Engine.Counter | evistream/agent/engine.py:291-334 | the counter-evidence loop runs the proposed actions in turn, then the temporal context, and stops at a forbidden action |
| AgentEngine.Engine.DecideNode | evistream/agent/engine.py:359-388 | DECIDE is the machine's moves for DECIDE |
| AgentEngine.Engine.EnforceDecision | evistream/agent/engine.py:558-588 | enforcement, in place, equals its definition and touches only the contradictory requirements |
| AgentEngine.Engine.ValidateAction | evistream/agent/engine.py:428-442 | the planner's action is accepted exactly for a known requirement, an allowed and registered tool, and the query or range it needs |
| AgentEngine.Handle | evistream/application/job_handlers.py:108-135 | claim, run and compensation, among any other workers, are a run of the machine that begins with the claim exactly when that succeeds, goes on with this worker's work and foreign events, and ends with this worker gone |
| Policy.References | evistream/policies/schema.py:41-49 | exactly the keys the expression mentions |
| Policy.CompiledIsWellFormed | evistream/policies/compiler.py:49-101 | compiled keys are distinct, exceptions mandatory, and each expression refers to compiled requirements of the kind it may |
| Policy.NewTermChangesEveryOrdinary | evistream/policies/compiler.py:69-86 | a new trigger term changes the semantics of every ordinary requirement |
| Policy.CompiledAsWritten | evistream/policies/compiler.py:49-101 | every requirement and exception becomes one template that says the same, with the modalities and tools of its kind; thresholds, expressions and everything else stay as written |
| Policy.DistinctKeepsFirsts | evistream/policies/compiler.py:119-120 | exactly the trimmed non-empty values, each once, in the order of their first occurrences |
| Rules.EvaluationIsExact | evistream/governance/rule_evaluator.py:179-217 | TRUE, FALSE and UNKNOWN hold exactly when every, no, or some but not every completion of the open leaves satisfies the expression |
| Rules.VerdictIsCharacterized | evistream/governance/rule_evaluator.py:48-139 | APPROVE and REJECT, if and only if: completed on evidence, mandatory requirements decided, no completion escalates, and every completion agrees on rejection |
| RuleStability.ConclusiveVerdictsAreStable | evistream/governance/rule_evaluator.py:48-139 | deciding open optional requirements either way keeps verdict and reason, unless rejection leans on the contradictory-evidence sentinel |
| RuleStability.RejectionIsStableExactly | evistream/governance/rule_evaluator.py:72-99 | in general a rejection is stable if and only if the rejection expression stays true with that sentinel lowered |
| RuleStability.ApprovalIsStableExactly | evistream/governance/rule_evaluator.py:72-139 | an approval is stable if and only if, with that sentinel lowered, deciding the conflicted requirements either way decides the rejection expression |
| RuleStability.UnrejectedApprovalIsStable | evistream/governance/rule_evaluator.py:72-139 | an approval on a FALSE rejection keeps verdict and reason under every resolution |
| RuleStability.NoSentinelNamedRequirement | evistream/policies/schema.py:94-96 | an accepted policy leans on it only by a requirement of that name |
| RuleStability.SentinelNameBreaksRejection | evistream/governance/rule_evaluator.py:205-217 | a valid document that compiles to such a name: confirming the requirement in conflict turns a rejection into an approval |
| RuleStability.SentinelNameBreaksApproval | evistream/governance/rule_evaluator.py:205-217 | the same document with an exception: refuting the requirement in conflict turns an approval into a review |
| EvidenceStore.ListForInOrder | evistream/governance/evidence.py:73-82 | the rows of the requirement are those at its places in the table, all of them and in the order they were stored |
| EvidenceStore.ValidityIsExact | evistream/governance/evidence.py:84-159 | a row is valid if and only if it is in place and its artifact, tool run, model call and origin stand; which source states are reported in each case |
| Aggregation.RequirementAggregator.AggregateOne | evistream/governance/aggregation.py:26-131 | a stored input is answered from its row, a new one is computed and appended; the requirement points at the row |
| Aggregation.RequirementAggregator.Weigh | evistream/governance/aggregation.py:52-87 | thresholds over the quality rows decide status and reason |
| Aggregation.HashedColumns | evistream/governance/aggregation.py:134-166 | two rows hash alike if and only if they were classified alike and differ at most in case, requirement, summary and replay item |
| Aggregation.FindingIsOfTheInput | evistream/governance/aggregation.py:134-166 | status, reason and used evidence depend on the hashed input alone |
| Aggregation.RowOrderDoesNotMatter | evistream/governance/aggregation.py:52-87 | the order of rows changes nothing |
| Aggregation.MoreInformationMovesUp | evistream/governance/aggregation.py:52-87 | more standing rows or lower thresholds move no status down or sideways |
| Aggregation.NewEvidenceMovesUp | evistream/governance/evidence.py:84-159 | appended evidence never takes back what is known of a requirement |
| Aggregation.CacheAgreesWithRecomputation | evistream/governance/aggregation.py:35-50 | after any history an aggregation answers what computing afresh answers, and rows stay numbered 1..n |
| Aggregation.RepeatedCallAddsNoRow | evistream/governance/aggregation.py:39-50 | asking again at any later point is answered by the same row |
| Aggregation.ClipsSettleNothing | evistream/tools/core.py:314-322 | a requirement whose rows all come from clips has no valid row, and stays UNKNOWN |
| Ledger.GovernanceService.FinalizeCase | evistream/governance/service.py:36-188 | finalization, in place, is its definition; a refused one is rolled back |
| Ledger.GovernanceService.Review | evistream/governance/review.py:33-66 | a review, in place, is its definition |
| Ledger.GovernanceService.AppendReview | evistream/governance/review.py:195-304 | decision, review and pointer are written together, or nothing is |
| Ledger.GovernanceService.Appeal | evistream/governance/review.py:68-124 | an appeal, in place, is its definition |
| Ledger.GovernanceService.Resolve | evistream/governance/review.py:126-192 | a resolution, in place, is its definition |
| LedgerHistory.DecisionsFormOneChain | evistream/governance/service.py:131-167 | over every history the decisions of a case are numbered 1..n, the first alone supersedes nothing, every other an earlier one, no machine decision a human one |
| LedgerHistory.OneDecisionIsFirst | evistream/governance/review.py:235-269 | later decisions of a case have larger numbers and supersede something |
| LedgerHistory.ConclusiveDecisionsCiteTheirCase | evistream/governance/review.py:216-234 | APPROVE and REJECT cite evidence, and all cited rows are of the case |
| LedgerHistory.AppealsAreResolvedOnce | evistream/governance/review.py:79-192 | open with its submission alone, or resolved once by a human decision of its case that the second event names |
| LedgerHistory.RequestsAreIdempotent | evistream/governance/review.py:46-52 | a request that succeeded succeeds again at any later point, with the same row and no change |
| LedgerHistory.MatchedCaseIsEvaluated | evistream/governance/rule_evaluator.py:27-30 | the mismatch error of the evaluator is unreachable from finalization |
| LedgerHistory.FinalizationDecides | evistream/governance/service.py:105-184 | the decision in force carries the evaluated verdict; a new one also sets the status of the case by it, a stored one that comes back leaves the status alone; over a human decision only an older machine decision can come back |
| LedgerVerdicts.DecisionIsOfTheStore | evistream/governance/service.py:85-184 | after any history the machine decision put in force, new or found again, has the verdict and the reason that hold of the stored rows: status of the investigation, finding of every requirement, and every completion of the open leaves; it links every requirement's result and every standing row |
| LedgerVerdicts.OneReasonHolds | evistream/governance/rule_evaluator.py:34-139 | the reasons exclude one another, so verdict and reason are determined by the rows |
| LedgerVerdicts.FinalizationWritesExactly | evistream/governance/service.py:105-188 | requirements point to their findings, missing results are added with their origins, a new decision supersedes the one in force and settles the case, a found one leaves its status, and nothing else changes |
| LedgerVerdicts.FinalizationIsRefusedExactly | evistream/governance/service.py:44-131 | each error, in order, exactly when its condition holds of the stored rows; over a human decision unless a machine decision on the rows as they stand is in the ledger |
| LedgerRequests.SameRequestExactly | evistream/governance/review.py:43-45 | two requests are the same by the caller's key alone, or without one by their words, in whatever order they list the evidence |
| LedgerRequests.AppealTakesEffect | evistream/governance/review.py:68-124 | an appeal needs a decision in force, challenges it and leaves it in force, opens with one event, sends the case to review, and changes nothing else; each refusal exactly |
| LedgerRequests.ReviewTakesEffect | evistream/governance/review.py:33-304 | each refusal of a review exactly, and every field of the decision and the review row it writes |
| LedgerRequests.ResolutionTakesEffect | evistream/governance/review.py:126-192 | a resolution is such a review of the appeal's case, and closes the appeal with one event |
| LedgerRequests.AppealsNameTheDecisionInForce | evistream/governance/review.py:95-105 | over every history each appeal was made against the decision then in force, one of its own case |
| LedgerRepeats.FinalizationGoesThroughExactly | evistream/governance/service.py:44-131 | a finalization succeeds if and only if the case is ready and matches its policy and, over a human decision, the ledger holds a machine decision on the evaluated input; ready and matching cases are always evaluated |
| LedgerRepeats.SameBasisSameEvaluation | evistream/governance/service.py:85-104 | the evaluation and its input depend on requirements, evidence, policy and investigation alone, not on caches, statuses or bookkeeping |
| LedgerRepeats.FinalizingAgainRestores | evistream/governance/service.py:105-115 | after any later history a finalization on the same basis succeeds, adds no decision, and puts the first one's decision back in force |
| LedgerRepeats.RepeatingUndoesTheReview | evistream/governance/service.py:105-115 | so every new review of a finalized case is taken out of force by repeating the finalization |
| LedgerHistory.HumanDecisionTakesForce | evistream/governance/review.py:195-304 | a review adds one human decision with the verdict given, on the evidence named or inherited, over the decision in force, and takes its place |
| LedgerHistory.AggregateAllIsFresh | evistream/governance/service.py:85-97 | the outcomes of a case are those of fresh computations, whatever is cached |
| Planner.ReplayPlanner.PreviewReplay | evistream/replay/planner.py:32-167 | the loop over the cases yields the plan of each, and the count of investigations |
| ReplayPlans.PreviewIsExact | evistream/replay/planner.py:32-167 | a preview plans every case of the older version once: blocked exactly without a decision in force or under an open appeal, with the keys kept, investigated and invalidated read off the two versions, and the investigations counted |
| Planner.ReplayPlanner.DropVisual | evistream/replay/planner.py:110-118 | removing from the list under iteration leaves exactly the non-visual keys and moves the others |
| Planner.PlanPartitionsTheTarget | evistream/replay/planner.py:94-119 | reused and investigated keys partition the new version's keys; REEVALUATE exactly when nothing was added or invalidated |
| Planner.ReevaluatesExactly | evistream/replay/planner.py:178-204 | the versions' mode is REEVALUATE exactly when they hold the same templates |
| Replay.ReplayService.PrepareJob | evistream/replay/service.py:53-160 | one session: the job and its items row by row, or nothing |
| ReplayPlans.PreparedItemsAreExact | evistream/replay/service.py:75-150 | one item for each case, waiting exactly when the case has a decision in force and no open appeal; refused exactly when a case already has an item for the version |
| ReplayPlans.BlockedCaseIsNeverReplayed | evistream/storage/models.py:695 | over every history the item of a blocked case stays in review without a target, no other item for the case and the version appears, and no preparation that lists the case adds anything |
| ReplayScope.MaterializationIsExact | evistream/replay/service.py:210-346 | each refusal exactly; the target found or opened; the scope in the order of the plan, a derived row for every row of a reused key, the lineage of both, and the status of the item |
| ReplayScope.EachIsInvestigatedOrReused | evistream/replay/service.py:274-341 | into a fresh target every requirement is investigated or reused and never both, and the item is sent to be investigated exactly when the plan asks for it |
| ReplayScope.FinishingIsExact | evistream/replay/service.py:354-398 | the item shows the decision of its target, and a result is recorded as reused exactly for the keys whose source had one |
| Replay.ReplayService.MaterializeItem | evistream/replay/service.py:210-346 | one session: target case, derived evidence, lineage and status, or nothing |
| Replay.ReplayService.CopyRequirement | evistream/replay/service.py:285-324 | each source row is copied unless its derived identity is there |
| Replay.ReplayService.FinishItem | evistream/replay/service.py:354-398 | the item closes with the decision of its target and the lineage of the reused results |
| Replay.ReplayService.CreateTarget | evistream/policies/versioning.py:147-221 | the case of the video and version, opened if there is none |
| ReplayLaws.DerivedRowStandsExactly | evistream/governance/evidence.py:84-159 | a derived row is valid if and only if its source is intact apart from tool run, model call and origin; so a valid source always gives a valid row |
| ReplayLaws.CopiedKeys | evistream/replay/service.py:274-324 | into a fresh case every row of every reused requirement is copied once, in order, and no other list changes |
| ReplayLaws.AgreementReusesAll | evistream/replay/planner.py:94-119 | between versions with the same requirements, in whatever order, a plan that keeps the model reuses every one |
| ReplayLaws.ReplayKeepsFindings | evistream/replay/service.py:274-324 | every requirement of the source has its twin in the target and every one of the target is a twin; twins get the same status and reason |
| ReplayLaws.ReplayPreservesMeaning | evistream/replay/service.py:210-398 | when the versions agree, their requirements listed in whatever order, the replayed case is decided, with the verdict an evaluation of its source gives |
| ReplayRepeats.RematerializingAddsNothing | evistream/replay/service.py:285-341 | executing an item that is not closed again, after any history of replays that leaves the rows of its source alone, writes nothing but its status |
| ReplayRepeats.PreparingAgainFindsTheJob | evistream/replay/service.py:63-82 | a stale preview prepares nothing, nor does a new request for a case that has an item for the version; a prepared one gives back its job and changes nothing after any later history, exactly as long as the preview stands |
| ReplayHistory.ClosedItemsStayClosed | evistream/replay/service.py:216-226 | over every later history a closed item stays closed and is never executed again; it stays as it is unless an execution begun before still finishes, and then shows that decision, in review exactly when the decision is |
| ReplayHistory.OriginChainsAreFinite | evistream/replay/service.py:285-313 | over every history of replays origins strictly descend the versions of one policy: chains are finite and never return |
| Fusion.HybridRetrievalService.Search | evistream/retrieval/service.py:37-85 | hits are the first of the ranking, with their ranks and scores; a failed vector branch is partial, or failed without text |
| Fusion.HybridRetrievalService.AddVector | evistream/retrieval/service.py:66-69 | the second loop adds the vector shares and the new documents |
| Fusion.HitsAreStrictlyOrdered | evistream/retrieval/service.py:70-85 | every document once, strictly by score and then identifier |
| Fusion.HitsAreExact | evistream/retrieval/service.py:62-85 | ranks count from one, and the score is one over k plus the rank for every list that holds the document |
| Fusion.BetterComesFirst | evistream/retrieval/service.py:62-70 | at least as good in both lists and better in one comes first |
| Fusion.AgreementComesFirst | evistream/retrieval/service.py:62-70 | rank k+1 or better in both lists comes before every document of one list |
| Fusion.TheBoundIsSharp | evistream/retrieval/service.py:62-70 | for every k two lists in which a document at rank k+2 of both comes after the top of one |
| Indexing.EmbeddingIndexService.IndexVideo | evistream/retrieval/indexing.py:38-143 | whatever edits the table meanwhile, a current row holds a vector of its present text; counts add up when nothing is deleted; every failure blames one batch, all of it or one document of it, and together they name as many documents as failed; a run fails outright exactly when nothing was indexed or skipped; an undisturbed success makes every row current, and then a run skips everything |
| Indexing.EmbeddingIndexService.WriteBatch | evistream/retrieval/indexing.py:99-120 | a vector is stored exactly where its text still stands, every other row is untouched, and the others of the batch are reported by identifier, in order |
| Indexing.EmbeddingIndexService.Mark | evistream/retrieval/indexing.py:49-67 | a document still present is pending exactly when everything is to be redone or its vector is not current; the pending ones keep their order |

## Left out

- I/O and adapters: HTTP, CLI, web client, queues, ffmpeg, OCR, ASR, model clients, YAML parsing, migrations, SQL text search and vector distance; keyword and vector lists are given inputs.
- Projections and plumbing: timeline, traces, seeds, profiles, configuration, policy version numbering, and the media job handler.
- Investigation state that no decision reads: timestamps, latencies, hypotheses, frames and media, model names, token counts, and the status column of the private state.
- The identity checks of a claim request, the model profile conflict of `prepare`, and the case and requirement lookups of the tool executor, which cannot fail inside a run.
- A recorded model answer whose payload no longer validates is refused in the model as in the code; how it came to be there is not modelled.
- MANUAL_TOOL runs, which only share tables with investigations.
- Replay `claim`, `execute` over all items, `_complete`, `fail` and the reading operations of evistream/replay/service.py:162-208 and 400-506: a lease as in the investigation, a loop over items, and counters.
- The dispatch of an investigation inside a replay item: materialization ends before it and finishing begins after it.
- Planner.ReplayPlanner.PreviewReplay: does not count reusable evidence and results, which are estimates for display; sorted key lists are lists without repetition.
- Ledger.GovernanceService.FinalizeCase: takes the requirements of a case in a fixed order instead of sorting them by key; the keys are compared as a multiset.
- Decision metadata, explanations and timestamps of decisions, reviews and appeals.
- Fusion.HybridRetrievalService.Search: document contents and filters are not carried along with a hit.
- Indexing.EmbeddingIndexService.IndexVideo: normalized text, lexemes, token counts and the reported model name are not modelled.
- Floating point rounding of scores and confidences.
- String patterns of policy and requirement identifiers, and length limits; the laws hold without them.
