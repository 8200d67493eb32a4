# Intelligence Core: a verified model of its persistent state machines

The repository keeps its authority, money, mail and schedules in small SQLite stores that fail closed.
This project models those stores and the decision procedures they rely on, and proves what holds over
every input, every run and every crash point.

How the program appears here:

- A table is a `map` or `seq`; one transaction (`BEGIN IMMEDIATE`, `with connection`, one file-system
  operation) is one atomic step, a function on a snapshot datatype. A class with the same fields carries
  the source's methods, and each method is proved to make exactly those steps.
- Runs are arbitrary sequences of steps or calls. Crashes are steps, or a count of transactions survived.
- Identifiers are numbers, instants are integers, money is real, and a SHA-256 value is a free constructor
  over the hashed record, so it is injective.

| file | models |
|---|---|
| `Sequences.dfy` | filtering, counting and sorting with uniqueness of the sorted result |
| `Policy.dfy` | rule evaluation, capability resolution, use decisions, the mutable registry |
| `RoundRobin.dfy`, `Context.dfy` | balanced selection, and context assembly around it |
| `Ingestion.dfy` | tracked Outlook import: Event rows, identities and import outcomes |
| `KnowledgeGraph.dfy` | extraction, graph application and the resumable pipeline |
| `Budget.dfy`, `BudgetOverlap.dfy` | the durable budget ledger, its caps, and when overlap exceeds the success limit |
| `PilotBudget.dfy` | the in-memory budget ledger against the durable one |
| `Dispatch.dfy` | the protected dispatch protocol over envelope files and reservations |
| `JobAuthority.dfy`, `JobExclusion.dfy`, `JobBooks.dfy`, `JobSerial.dfy` | execution-time authority; interleaved transactions; serial bookkeeping; the serial calls as interleavings |
| `Scheduler.dfy`, `SchedulerRace.dfy` | the daily scheduler, call by call with crashes; and overlapping callers |
| `Delegation.dfy` | delegated grants, single-use claims and the per-grant hash chain |

## Where the code departs from the expected property

Each of these is a theorem about the code as written: an if-and-only-if for when it happens, and a run in
which it does.

- The in-memory and the durable budget ledger give the same verdicts on every plausible run from an opened
  ledger exactly when the retry allowance is not negative, or no first attempt fits the other limits. The
  configuration accepts a negative allowance, which only the durable ledger applies to first attempts
  (`PilotBudget.LedgersAgreeIff`, `PilotBudget.DurableAdmitsIff`, `PilotBudget.NegativeAllowanceSeparates`).
- Success is counted when it is recorded and checked when a request is admitted, so overlapping dispatches
  can exceed the daily success limit. Under every interleaving the limit holds exactly when the
  configuration allows no success, no more requests than successes, no admission at all (a negative retry
  limit), or its spend limits do not pay for one request more than it allows successes; the default limits
  are not such a configuration (`BudgetOverlap.SuccessLimitHoldsIff`, `BudgetOverlap.RepliesStayWithinIff`,
  `BudgetOverlap.DefaultsOverlap`).
- A ledger refuses every opening balance and every admission for good exactly when an admission was
  attempted before the opening balance was stored (`Budget.LockedIff`, `Budget.BootstrapLocksLedger`).
- Recovery works on exactly the running jobs that have a checkpoint, so a job whose worker dies before
  saving one stays RUNNING under every further call (`JobBooks.RecoverableIff`,
  `JobBooks.CrashBeforeCheckpointIsForever`, `JobBooks.CrashBeforeCheckpointHappens`).
- Service calls write back the whole row they read, guarded only by the stored status. The attempt count is
  exact throughout a run exactly when no accepted write-back overlaps a successful claim of its job
  (`JobExclusion.CountExactIffNoOverlap`, `JobExclusion.StalePauseLosesAnAttempt`).
- `run_next` raises, and leaves the job at the head of the queue, exactly for an otherwise acceptable job
  whose security domain belongs to another tenant than its principal (`JobAuthority.RaisesIffForeignDomain`,
  `JobBooks.RaisingJobHappens`).
- A crash between the two writes of `mark_missed` leaves the schedule in a state that no call ever changes.
  It is the only crash that does so, and every other state has a way on (`Scheduler.WedgesIff`,
  `Scheduler.WedgedForever`, `Scheduler.WayOn`, `Scheduler.CrashInMarkMissedWedges`).
- `complete` computes the new claim digest from the caller's copy of the claim time without comparing it
  with the stored one; the completed row passes its own integrity check exactly when the two are equal
  (`Delegation.CompletedVerifiesIff`, `Delegation.CompleteIgnoresClaimTime`,
  `Delegation.DriftedCompletionHappens`).

## Model

| member | source | states |
|---|---|---|
| `Policy.UsableIffAuthorised` | src/edn/core/policy.py:174-337 | a use decision is ready exactly when the capability is registered, supports the operation and domain, is in status ready, authenticated, and lacks no dependency and no permission, and the domain is active, no matching rule prohibits, some most-specific matching rule grants at that time, and all most-specific rules agree |
| `Policy.UseOutcomes` | src/edn/core/policy.py:304-337 | the case table of every use decision: prohibited, blocked (by which problem, with which status), waiting for approval, ready or indeterminate, each as an if-and-only-if on the inputs, with its reason |
| `Policy.BlockedByFirstProblem` | src/edn/core/registry.py:155-240 | a capability is operational exactly when none of nine separately stated problems applies; otherwise the reported one applies, nothing before it in the order does, and the status is the one that goes with it |
| `Policy.EvaluationExplained` | src/edn/core/policy.py:174-236 | every decision by its inputs: when it is prohibited, for which reason, when approval is needed, and that a deciding rule is the first-ranked prohibition or the lowest-numbered most specific match, whose terms the decision carries |
| `Policy.SelectorsOnlyNarrow` | src/edn/core/policy.py:77-98 | dropping any one of the ten selectors of a rule lets in exactly the requests that only it kept out |
| `Policy.SpecificityCounts` | src/edn/core/policy.py:74-75 | dropping a selector that is given lowers the specificity by one, and a rule without selectors has none |
| `Policy.EvaluationIgnoresRuleOrder` | src/edn/core/policy.py:174-236 | any permutation of a rule set with unique identifiers gives the same decision, field by field |
| `Policy.ProhibitionNeverEnables` | src/edn/core/policy.py:193-203 | inserting a prohibition anywhere never makes an unusable request usable |
| `Policy.UsableEarlier` | src/edn/core/policy.py:304-337 | a request usable at some time is usable at every earlier time, for the same registry and rules |
| `Policy.DecisionsAreWellFormed` | src/edn/core/policy.py:174-236 | no evaluation over a valid policy set can trip the decision constructor's own checks |
| `Policy.CapabilityRegistry.Register` | src/edn/core/registry.py:118-125 | a duplicate identifier is refused and changes nothing; otherwise exactly one entry is added |
| `Policy.CapabilityRegistry.Unregister` | src/edn/core/registry.py:127-132 | the entry is returned and removed, a missing one changes nothing |
| `Policy.CapabilityRegistry.List` | src/edn/core/registry.py:138-152 | exactly the capabilities matching both filters, once each, in identifier order |
| `Policy.CapabilityRegistry.EvaluateCandidates` | src/edn/core/policy.py:340-368 | one decision per capability offering the operation, each bound to its own request |
| `RoundRobin.GroupByFamily` | src/edn/intelligence/context.py:189-195 | each family's list is its evidence in best-first order, and families are exactly those present |
| `RoundRobin.ServeRound` | src/edn/intelligence/context.py:198-204 | one round serves every remaining family once, in family order, unless the limit stops it |
| `RoundRobin.SelectBalanced` | src/edn/intelligence/context.py:187-204 | exactly min(limit, pool) distinct items, each family a prefix of its own order, no family with items left more than one behind, rounds in order, never a lower score or later identifier before a better one of its family; and the loop ends |
| `RoundRobin.BalancedIsBestFirst` | src/edn/intelligence/context.py:187-204 | whatever a family has left over scores no better than what was selected of it, ties going to the lower identifier, and its selected items are listed in that order |
| `Context.Examine` | src/edn/intelligence/context.py:116-141 | the first content per identifier is kept, the contradicted identifiers are exactly the conflicts, and every reason has a cause |
| `Context.ObjectionIsFirstFault` | src/edn/intelligence/context.py:120-141 | an item is dropped exactly when one of four separately stated faults applies, and for the first that does |
| `Context.CandidatesAre` | src/edn/intelligence/context.py:116-141 | what a source offers is exactly its faultless items, each under the source instance and otherwise unchanged |
| `Context.Admit` | src/edn/intelligence/context.py:116-145 | admitted evidence is exactly the uncontradicted, in-scope candidates, once each |
| `Context.Gather` | src/edn/intelligence/context.py:57-163 | one source's evidence with its coverage: counts, status and exactly the reasons that apply, also when authority or the connector fails |
| `Context.Collisions` | src/edn/intelligence/context.py:164-169 | the identifiers carried by more than one item, both directions |
| `Context.SurvivorsAreUnambiguous` | src/edn/intelligence/context.py:164-186 | what survives collision removal is exactly the evidence whose identifier nobody else carries |
| `Context.ChargeCollisions` | src/edn/intelligence/context.py:170-185 | each source's admitted count drops by exactly its removed items and its coverage stays valid |
| `Context.RecordSelection` | src/edn/intelligence/context.py:205-223 | each source's selected count is its selected items, within its admitted count, with the limit reason exactly when something was left |
| `Context.SelectedAddsUp` | src/edn/intelligence/context.py:205-223 | selected counts over distinct sources add up to the selected items of those sources |
| `Context.Validate` | src/edn/intelligence/context.py:35-42 | accepts exactly bounded limits and unique capability/instance pairs |
| `Context.Assemble` | src/edn/intelligence/context.py:44-230 | survivors are unique and in the scope asked for, selection is balanced and best first in every family, coverage counts are the true counts and sum to the output, unavailable exactly for sources never reached |
| `Ingestion.FinalisedIsFrozen` | src/edn/operations/import_outcomes.py:193-308 | under any sequence of begins, updates, inserts and failures of any runs a finalised outcome keeps its row, and an import its account and start |
| `Ingestion.InsertKeepsWellFormed` | src/edn/operations/storage.py:83-122 | an insert keeps the identity table a bijection onto Event ids and fails only on a reused Event id |
| `Ingestion.FirstWriteWins` | src/edn/operations/storage.py:83-103 | existing rows are untouched and a new row is the first Event offered under its key |
| `Ingestion.ReplayInsertsNothing` | src/edn/operations/storage.py:83-122 | offering events changes the table exactly when some key is new |
| `Ingestion.Database.Begin` | src/edn/operations/import_outcomes.py:193-225 | a fresh in-progress outcome with zero counts; refused exactly for a used run identifier, and then nothing changes |
| `Ingestion.Database.Update` | src/edn/operations/import_outcomes.py:227-283 | writes the given counts, state and reason exactly when the outcome is in progress and the update valid, otherwise changes nothing |
| `Ingestion.Database.InsertTracked` | src/edn/operations/storage.py:74-122 | the Event row, the identity and the counters are committed together or not at all |
| `Ingestion.Database.Fail` | src/edn/operations/import_outcomes.py:285-308 | finalises with exactly the committed counts |
| `Ingestion.InsertStep` | src/edn/operations/outlook.py:282-303 | a tracked insert moves the row count and its counter together, keeping every earlier commit consistent |
| `Ingestion.IngestPage` | src/edn/operations/outlook.py:269-305 | offers exactly the acceptable records of the page, in order, and counts each record once; it gets through the page exactly when all of them can be stored within the remaining transactions |
| `Ingestion.IngestPages` | src/edn/operations/outlook.py:246-312 | returns pages exactly when some number of them ends the import: collections of at most 50 records, linked by continuations that never repeat, storable without reusing an Event id, within the transactions left; otherwise raises; within 100 pages and 5000 records, consistent at every commit |
| `Ingestion.OfferedAreUsable` | src/edn/operations/outlook.py:269-305 | the Events offered are one for one and in order the well-formed records inside the window, both ends included, of the pages read |
| `Ingestion.FinalOutcomesValid` | src/edn/operations/import_outcomes.py:31-98 | the outcome a failure or a report writes always satisfies the validity rules |
| `Ingestion.RecordFailure` | src/edn/operations/outlook.py:227-229 | an exception finalises the committed counts |
| `Ingestion.RecordReport` | src/edn/operations/outlook.py:230-243 | the stored outcome is the report, unless an interruption comes first |
| `Ingestion.IngestMailbox` | src/edn/operations/outlook.py:172-243 | an import reports exactly when its pages can be read and stored with one transaction left for the outcome; the stored state and reason then follow from what the pages held; otherwise the committed counts are finalised as an import error; at every commit inserted equals rows added; replaying known identities inserts nothing and counts every valid record as a duplicate |
| `Ingestion.ImportAgain` | src/edn/operations/outlook.py:172-312 | once an import has reported on all pages, importing the same pages again inserts nothing and counts every accepted record as a duplicate |
| `KnowledgeGraph.Deduplicate` | src/edn/knowledge_graph/extractor.py:97-109 | computes the first mention per (type, name, field), in order |
| `KnowledgeGraph.DeduplicatedRepresents` | src/edn/knowledge_graph/extractor.py:97-109 | every raw key is represented, by its first occurrence |
| `KnowledgeGraph.Relate` | src/edn/knowledge_graph/extractor.py:123-138 | all pairs of the two types and nothing else |
| `KnowledgeGraph.Extract` | src/edn/knowledge_graph/extractor.py:36-53 | yields the extraction of a record, mentions deduplicated and facts sorted |
| `KnowledgeGraph.ExtractionUnique` | src/edn/knowledge_graph/extractor.py:111-159 | a record has only one extraction, so set iteration order is invisible |
| `KnowledgeGraph.FactsAre` | src/edn/knowledge_graph/extractor.py:111-148 | a fact is extracted exactly when both names are mentioned somewhere in the text, under types that one of the seven relations joins, the last two only in commissioning text |
| `KnowledgeGraph.ExtractionsAreClosed` | src/edn/knowledge_graph/persistence.py:195-203 | looking up a fact's endpoints among the resolved ids can never miss |
| `KnowledgeGraph.ApplyResult` | src/edn/knowledge_graph/persistence.py:189-227 | the two loops turn a graph that tells some sightings and claims into one that tells those and the ones of this extraction: distinct row ids, first names, first texts, exactly the related pairs and their records |
| `KnowledgeGraph.ReapplyChangesNothing` | src/edn/knowledge_graph/persistence.py:161-265 | re-applying a committed batch, even after other work, leaves the graph unchanged |
| `KnowledgeGraph.ApplyAllConcat` | src/edn/knowledge_graph/persistence.py:161-187 | batching is invisible: two batches in turn equal their concatenation |
| `KnowledgeGraph.PageIsNextSlice` | src/edn/knowledge_graph/pipeline.py:60-70 | the page after the k-th checkpoint is the next slice of the email table |
| `KnowledgeGraph.OnePassExtends` | src/edn/knowledge_graph/pipeline.py:60-86 | applying the next slice to the one-pass graph gives the longer one-pass graph |
| `KnowledgeGraph.OnePassTells` | src/edn/knowledge_graph/persistence.py:189-265 | the graph of any extractions: entity and relationship ids are 1 to the row count, each given once; an entity is present exactly when mentioned, named by its first mention; an occurrence exactly when seen there, with the first matched text; a triple, and a source row of it, exactly when some extraction, of that source, holds a fact between the entities with those ids |
| `KnowledgeGraph.FirstMentionNames` | src/edn/knowledge_graph/persistence.py:229-246 | an entity has a name exactly when something mentions it, and the name is that of the first mention |
| `KnowledgeGraph.FirstSightingMatches` | src/edn/knowledge_graph/persistence.py:247-265 | an occurrence has a text exactly when the entity was seen in that field of that record, and the text is that of the first sighting |
| `KnowledgeGraph.EverythingFound` | src/edn/knowledge_graph/persistence.py:189-227 | the sightings and claims a graph tells are exactly the mentions and facts of the extractions applied |
| `KnowledgeGraph.GraphStore.Initialise` | src/edn/knowledge_graph/persistence.py:106-130 | creates the state row, or refuses a different rule version |
| `KnowledgeGraph.GraphStore.ApplyBatch` | src/edn/knowledge_graph/persistence.py:161-187 | the page and its checkpoint are committed together |
| `KnowledgeGraph.Run` | src/edn/knowledge_graph/pipeline.py:46-86 | for any batch size, record bound and crash point, while emails keep arriving between page reads, the graph is the one-pass graph up to the checkpoint; every page takes a full batch, or what is there or allowed; it reports exactly when it is accepted and lives until its bound is met or nothing more is there |
| `KnowledgeGraph.RunMany` | src/edn/knowledge_graph/pipeline.py:46-86 | over any sequence of runs on an append-only email table the stored graph tells exactly what the emails up to the checkpoint mention and hold |
| `KnowledgeGraph.UpToTells` | src/edn/knowledge_graph/pipeline.py:46-86 | a store that holds the one-pass graph up to its checkpoint holds exactly the entities, occurrences, relationships and sources of the emails up to there |
| `Budget.CapsHold` | src/edn/intelligence/provider_budget_store.py:82-180 | under any interleaving, daily reservations, retries and spend, and monthly spend with carry-in, stay within their limits |
| `Budget.SerialSuccessesCapped` | src/edn/intelligence/provider_budget_store.py:82-180 | without overlap daily successes also stay within their limit |
| `Budget.SuccessesWithinRequests` | src/edn/intelligence/provider_budget_store.py:109-180 | over every run of one configuration, with any overlap, a day's successes stay within its requests and within the request limit |
| `BudgetOverlap.OverlapExceedsSuccessLimit` | src/edn/intelligence/provider_budget_store.py:109-137 | every configuration that can overlap has, on any day, an interleaving with exactly one success more than its limit |
| `BudgetOverlap.SuccessLimitHoldsIff` | src/edn/intelligence/provider_budget_store.py:109-180 | every interleaving stays within the daily success limit exactly when the configuration cannot overlap, a condition on its limits alone |
| `BudgetOverlap.SuccessLimitHolds` | src/edn/intelligence/provider_budget_store.py:109-180 | a configuration that cannot overlap keeps the limit on every day of every run |
| `BudgetOverlap.RepliesStayWithinIff` | src/edn/intelligence/provider_budget_store.py:159-180 | from any ledger, replies alone keep a day's successes within n exactly when its reserved requests are within n |
| `Budget.BootstrapLocksLedger` | src/edn/intelligence/provider_budget_store.py:182-230 | from a bootstrap cutover without an opening balance no later transaction changes the ledger |
| `Budget.LockedIff` | src/edn/intelligence/provider_budget_store.py:182-201 | over every run the ledger is locked exactly when an admission came before the opening balance |
| `PilotBudget.DurableAdmitsIff` | src/edn/intelligence/openai_provider.py:780-789 | the durable ledger admits exactly what the counters admit and, for a first attempt, what the retry allowance also covers |
| `PilotBudget.NegativeAllowanceSeparates` | src/edn/intelligence/openai_provider.py:694-717 | under every valid configuration with a negative retry allowance whose other limits fit a first attempt, that attempt separates the ledgers |
| `PilotBudget.LedgersAgree` | src/edn/intelligence/provider_budget_store.py:109-137 | with a non-negative allowance both ledgers admit and reject the same whole sequences, from any two ledgers in step |
| `PilotBudget.LedgersAgreeIff` | src/edn/intelligence/openai_provider.py:765-797 | from an opened ledger the verdicts agree on every plausible run exactly when the allowance is not negative or no first attempt fits the other limits |
| `Budget.DurableLedger.TryAdmit` | src/edn/intelligence/provider_budget_store.py:82-157 | admits exactly after the cutover, on an opened ledger, for a fresh key, with each of the day and month limits kept by this request, at the tariff; then one reservation is added, otherwise none |
| `Budget.EstimateIsTheTariff` | src/edn/intelligence/provider_budget_store.py:98-101 | a request costs a quarter of a dollar per million input tokens and two dollars per million output tokens allowed, linearly |
| `Budget.DurableLedger.Update` | src/edn/intelligence/provider_budget_store.py:159-180 | rewrites state and success of exactly the named reservation, leaves every other row, and reports a missing one |
| `Budget.DurableLedger.OpenBalance` | src/edn/intelligence/provider_budget_store.py:29-74 | accepted exactly for the attested terms on a ledger without an opening balance and without a cutover; otherwise nothing changes |
| `PilotBudget.PilotLedger.TryAdmit` | src/edn/intelligence/openai_provider.py:765-797 | refuses exactly when a limit would be passed; after an admission the running counters are the old ones plus this request |
| `PilotBudget.PilotLedger.RecordSuccess` | src/edn/intelligence/openai_provider.py:799-800 | one more success on that day and nothing else |
| `Dispatch.StepKeepsInv` | src/edn/intelligence/openai_provider.py:1065-1244 | every file operation, reservation, post, reply, cancellation and crash keeps the protocol invariant |
| `Dispatch.EachAttemptAtMostOnce` | src/edn/intelligence/openai_provider.py:1065-1244 | over every run, with crashes and re-persisted requests, each (request, attempt) reaches transport at most once, is reserved, and is attempt 1 or 2 |
| `Dispatch.RetryOnlyAfterRetryableFailure` | src/edn/intelligence/openai_provider.py:1113-1126 | two dispatches of a request are attempts 1 and 2 in order, and the first ended in a timeout, an exhausted quota, an unavailable provider or a network failure, so never in a success |
| `Dispatch.NoThirdDispatch` | src/edn/intelligence/provider_preflight_store.py:188-236 | no request is ever dispatched three times |
| `Dispatch.ProtectedProvider.Persist` | src/edn/intelligence/provider_preflight_store.py:152-174 | any valid envelope is filed exactly when neither file exists; one without attempts keeps the protocol invariant |
| `Dispatch.ProtectedProvider.Claim` | src/edn/intelligence/provider_preflight_store.py:188-210 | claims exactly an unclaimed, unexpired envelope; an expired one is destroyed |
| `Dispatch.ProtectedProvider.Cancel` | src/edn/intelligence/provider_preflight_store.py:234-236 | both files are gone |
| `Dispatch.ProtectedProvider.Send` | src/edn/intelligence/openai_provider.py:1161-1244 | reaches transport exactly when authorised, within budget, first reservation of the key, and credentialed |
| `Dispatch.ProtectedProvider.Settle` | src/edn/intelligence/provider_preflight_store.py:212-232 | restores the envelope with one attempt after a first retryable failure, otherwise destroys it |
| `Dispatch.ProtectedProvider.GenerateProtected` | src/edn/intelligence/openai_provider.py:1065-1127 | one call is a run of the protocol; its answer, its reservation, its dispatch and the envelope it leaves are each determined by what it met, case by case |
| `Dispatch.AttemptIsCalled` | src/edn/intelligence/openai_provider.py:1099-1127 | a claimed envelope sent as far as authority, budget, credential and reply allow, then restored for one retry exactly after a transient first failure, gives those cases |
| `JobAuthority.ClearedIffEntitled` | src/edn/jobs/worker.py:58-84 | the checks pass exactly when connector, configuration, capability and version match, the plan is approved, unexpired and equal in scope, policy authorises, and the checkpoint is compatible |
| `JobAuthority.RefusedForFirstFault` | src/edn/jobs/worker.py:58-98 | a job is cleared exactly when none of eleven separately stated faults applies, and refused for the first one that does |
| `JobAuthority.RaisesIffForeignDomain` | src/edn/jobs/service.py:28-91 | when exactly the checks raise instead of deciding |
| `JobAuthority.BindingCannotFail` | src/edn/connectors/models.py:186-207 | a claimed job with the checked specification always passes the request's authority-binding check |
| `JobExclusion.AtMostOneHolder` | src/edn/jobs/storage.py:222-264 | without recovery at most one worker is between claim and finishing write, and the job is RUNNING meanwhile |
| `JobExclusion.OnlyHolderLeavesRunning` | src/edn/jobs/storage.py:222-335 | without recovery only the holder's finishing write changes a RUNNING job |
| `JobExclusion.StrandedUntilRecovered` | src/edn/jobs/service.py:200-224 | a RUNNING job nobody holds keeps its row until someone recovers it |
| `JobExclusion.TerminalForever` | src/edn/jobs/models.py:41-49 | a terminal job's row never changes again, with or without recovery, whatever stale writes follow |
| `JobExclusion.ClaimedIsWhatWasChecked` | src/edn/jobs/worker.py:58-121 | under any interleaving the claimed job has the specification and approval that were checked, is still entitled, and its request is accepted |
| `JobExclusion.StalePauseLosesAnAttempt` | src/edn/jobs/service.py:226-252 | for every ready job, a run in which a pause overlaps a whole attempt and the stored count loses it |
| `JobExclusion.CountExactIffNoOverlap` | src/edn/jobs/storage.py:222-297 | over every run, with or without recovery, attempt_count equals the opening count plus the successful claims throughout exactly when no accepted write-back overlaps a claim |
| `JobExclusion.WriteBackExactIff` | src/edn/jobs/storage.py:266-297 | after an accepted write-back the count is exact exactly when it was exact as the row was read and no claim of the job succeeded since |
| `JobExclusion.DeficitNonNegative` | src/edn/jobs/storage.py:222-297 | overlap can only lose claims from the count, never invent them |
| `JobExclusion.CopyIsTheStoredRow` | src/edn/jobs/service.py:226-252 | under any interleaving an actor writes back exactly the row stored when it read it |
| `JobBooks.AuditReplaysToStatus` | src/edn/jobs/storage.py:163-169 | status-bearing events chain and replay to the stored status, claims equal attempt_count, attempt rows are exactly 1..attempt_count, and only the last is open, exactly while RUNNING |
| `JobBooks.CallKeepsBooks` | src/edn/jobs/service.py:126-252 | every service call and worker call keeps the books of every job balanced |
| `JobBooks.ExecutionKeepsBooks` | src/edn/jobs/worker.py:123-425 | every way an execution can end, or crash, keeps the books balanced |
| `JobBooks.LifecycleIsLegal` | src/edn/jobs/service.py:126-252 | every status change any run records follows an edge of the lifecycle table, under the event kind that belongs to it; terminal statuses have no edge |
| `JobBooks.RetriesAreBounded` | src/edn/jobs/worker.py:329-374 | retries recorded in the log are at strictly increasing attempts below max_attempts, and their delays total at most base*(2^(max_attempts-1)-1) |
| `JobBooks.WaitIsTheBackoff` | src/edn/jobs/models.py:66-69 | a waiting job wakes at the failure time plus that attempt's delay |
| `JobBooks.RecoverableIff` | src/edn/jobs/service.py:200-224 | recovery succeeds exactly for RUNNING jobs with a saved checkpoint |
| `JobBooks.CrashBeforeCheckpointIsForever` | src/edn/jobs/service.py:200-207 | a RUNNING job without a checkpoint is never changed by any further calls |
| `JobBooks.CrashBeforeCheckpointHappens` | src/edn/jobs/worker.py:85-119 | a created, claimed job whose worker crashes at any stage is such a job |
| `JobBooks.RaisingJobHappens` | src/edn/jobs/worker.py:73-78 | one created job, claimable, on which the checks raise and every execution changes nothing |
| `JobBooks.JobStore.Claimable` | src/edn/jobs/storage.py:205-220 | ready jobs and due retries, oldest first, at most 100; the head is the first claimable job |
| `JobBooks.JobStore.Claim` | src/edn/jobs/storage.py:222-264 | the claim transaction, with its new attempt row and event |
| `JobBooks.JobStore.Transition` | src/edn/jobs/storage.py:266-297 | compare-and-set on status; on success row, attempt and event together |
| `JobBooks.JobStore.Save` | src/edn/jobs/storage.py:299-335 | only a RUNNING job saves, and checkpoint identifiers stay unique over jobs |
| `JobBooks.JobStore.CreateJob` | src/edn/jobs/service.py:98-124 | accepted exactly for a new identifier in a pre-execution status, for any valid job; the books stay balanced when it comes without attempts or checkpoint |
| `JobBooks.JobStore.BindApproval` | src/edn/jobs/service.py:126-159 | a bound job is READY with an approval matching its plan |
| `JobBooks.JobStore.SimpleTransition` | src/edn/jobs/service.py:161-252 | pause, cancel and resume from exactly their allowed statuses |
| `JobBooks.JobStore.RecoverInterrupted` | src/edn/jobs/service.py:200-224 | requeues exactly a RUNNING job with a checkpoint and closes its attempt |
| `JobBooks.LocalJobWorker.HandleConnectorError` | src/edn/jobs/worker.py:329-374 | waits for a retry exactly when the error is transient, its code retryable and the attempt below the limit, until the doubled delay has passed; otherwise fails |
| `JobBooks.LocalJobWorker.Execute` | src/edn/jobs/worker.py:123-327 | what is stored after an execution, by how the connector behaved: status, attempt row, checkpoint and log entries of this job, and nothing of any other |
| `JobBooks.LocalJobWorker.RunNext` | src/edn/jobs/worker.py:58-121 | a connector is called exactly when the first claimable job is entitled to run, with an accepted request; then completed exactly when verified, with warnings exactly when verified so, indeterminate exactly when unverifiable or not verified, waiting or failed by the retry policy exactly on a connector error, ready again exactly on a new checkpoint; without a call the job is blocked, or untouched where the checks raise; the books stay balanced |
| `JobBooks.ServingDecides` | src/edn/jobs/worker.py:58-425 | serving any claimable job, by its inputs: the whole stored state after an attempt, a block or a raise |
| `JobBooks.EveryStatusIsExplained` | src/edn/jobs/worker.py:58-425 | over every run of calls each status was given by some call that means it: a job is completed only if it was served, entitled, and its connector finished verified; failed or waiting only after a connector error; cancelled only by its owner |
| `JobSerial.SerialRunsAreInterleavings` | src/edn/jobs/storage.py:205-335 | every run of whole calls, with its crashes, is a run of single transactions in which nobody overlaps and that stores the same job rows |
| `Scheduler.SlotsAreConsecutive` | src/edn/intelligence/operations.py:473-683 | under any calls and crashes recorded slots have no gaps, earlier ones are completed or missed, and a running or failed run sits exactly at the next expected slot |
| `Scheduler.PassedSlotsAreFrozen` | src/edn/intelligence/operations.py:80-87 | the schedule never goes back and passed slots keep their runs unchanged |
| `Scheduler.WedgesIff` | src/edn/intelligence/operations.py:632-661 | exactly one crash leads to a state without a way on |
| `Scheduler.WedgedForever` | src/edn/intelligence/operations.py:473-683 | in that state no call changes anything |
| `Scheduler.CrashInMarkMissedWedges` | src/edn/intelligence/operations.py:632-661 | under every local time and start, a run that ends in that state |
| `Scheduler.WayOn` | src/edn/intelligence/operations.py:577-683 | from every other state at most two calls move the schedule on |
| `Scheduler.DailyIntelligenceScheduler.ClaimRun` | src/edn/intelligence/operations.py:383-395 | insert-only: an existing run wins |
| `Scheduler.DailyIntelligenceScheduler.TransitionRun` | src/edn/intelligence/operations.py:396-408 | replaces a run only if the stored payload is exactly the one read |
| `Scheduler.DailyIntelligenceScheduler.Tick` | src/edn/intelligence/operations.py:473-575 | nothing before the slot is due; a due, unrecorded slot is run once: failed and retry-safe with the schedule unmoved exactly when the runner throws, completed, with gaps exactly as delivered, and the schedule moved past it otherwise; a recorded success only moves the schedule |
| `Scheduler.DailyIntelligenceScheduler.Retry` | src/edn/intelligence/operations.py:577-630 | runs exactly a failed run again under the next attempt number, and stores what its runner did: a failure again, or a success that moves the schedule past the slot; anything else changes nothing |
| `Scheduler.EveryRunIsExplained` | src/edn/intelligence/operations.py:473-683 | over all calls and crashes every recorded run got its status from some call that means it: completed, with or without gaps, only if the runner of that very slot delivered so; failed only if it threw or was recovered; missed only if due and marked so |
| `Scheduler.FirstSlotIsNext` | src/edn/intelligence/operations.py:67-78 | the first slot is the earliest one still to come due |
| `Scheduler.DailyIntelligenceScheduler.MarkMissed` | src/edn/intelligence/operations.py:632-661 | records a due, unrecorded slot as missed and moves on, returns a recorded one, and before the slot is due returns the latest run exactly if it was missed |
| `Scheduler.DailyIntelligenceScheduler.LatestRun` | src/edn/intelligence/operations.py:429-436 | the run of the latest recorded slot |
| `Scheduler.DailyIntelligenceScheduler.RecoverInterrupted` | src/edn/intelligence/operations.py:663-683 | turns exactly a running run into a retry-safe failure |
| `SchedulerRace.EachAttemptRunsOnce` | src/edn/intelligence/operations.py:383-408 | under any interleaving of ticks, retries, missed marks, confirmed recoveries and crashes the runner is called at most once per (slot, attempt), and one caller at a time works on a slot |
| `SchedulerRace.SerialTurnsAreInterleavings` | src/edn/intelligence/operations.py:473-683 | every run of whole calls, with its crashes, is an interleaving of single transactions that stores the same daily runs |
| `Delegation.AuditEvents` | src/edn/development/delegation.py:533-557 | accepts a log exactly when its hash chain holds, and returns its entries |
| `Delegation.EveryLogPasses` | src/edn/development/delegation.py:676-719 | every grant's log of every reachable state passes, with consecutive global sequence numbers |
| `Delegation.TamperEvident` | src/edn/development/delegation.py:533-557 | two passing logs with the same last hash are equal |
| `Delegation.LogsAreWellShaped` | src/edn/development/delegation.py:267-401 | one activation first, at most one revoke or kill, only denials after it; a grant is active exactly while its log has no ending |
| `Delegation.DeniedUnlessPermitted` | src/edn/development/delegation.py:576-650 | for a valid grant the ordered refusals deny exactly what it does not cover: its validity is what makes the checks for prohibited operations and protected branches redundant |
| `Delegation.DeniedByFirst` | src/edn/development/delegation.py:576-650 | a denial names one of thirteen separately stated obstacles that the request meets, and the first of them |
| `Delegation.ReachableClaimsSound` | src/edn/development/delegation.py:298-351 | every claim is for an allowed operation of a valid grant, made and completed inside its window, and open claims pass their integrity check |
| `Delegation.OperationsAreSingleUse` | src/edn/development/delegation.py:298-401 | over a run an operation identifier is claimed at most once and completed at most once, never claimed after completion |
| `Delegation.CompletedWasClaimed` | src/edn/development/delegation.py:353-401 | whatever the claim table holds was claimed earlier in the run, for the same grant, operation and time |
| `Delegation.CompletedVerifiesIff` | src/edn/development/delegation.py:353-401 | when exactly a completed row passes its integrity check |
| `Delegation.DriftedCompletionHappens` | src/edn/development/delegation.py:353-401 | a run whose claim, handed back with another time, completes and then fails its check |
| `Delegation.LogCountsClaims` | src/edn/development/delegation.py:676-719 | each grant's log records as many claims and completions as the claim table holds |
| `Delegation.DelegatedAuthorityStore.Audit` | src/edn/development/delegation.py:676-719 | one appended row, linked to the grant's last hash and numbered after the highest row |
| `Delegation.DelegatedAuthorityStore.ActivateGrant` | src/edn/development/delegation.py:267-296 | accepted exactly for a valid, new grant with a matching approval |
| `Delegation.DelegatedAuthorityStore.ClaimOperation` | src/edn/development/delegation.py:298-351 | accepted exactly when permitted and unused; a denial is audited under the first obstacle, a replay is not; the new claim row and audit row are stated in full |
| `Delegation.DelegatedAuthorityStore.CompleteClaim` | src/edn/development/delegation.py:353-401 | accepted exactly for an open, intact claim of an active grant inside its window |
| `Delegation.DelegatedAuthorityStore.Terminate` | src/edn/development/delegation.py:559-574 | ends exactly an active grant, for its owner or by kill switch |
| `Delegation.DelegatedAuthorityStore.ReadAudit` | src/edn/development/delegation.py:533-557 | on the store's own state the check never fails, and the log is empty exactly for unknown grants |

## Left out

- SQLite, file modes, symlink races, fsync, locks, read-only handles and JSON encoding: transactions are atomic steps over maps and encodings are injective.
- Naive datetimes, identifier syntax and length limits: instants are integers and identifiers are opaque; text order is numeric order.
- Regular-expression extraction, case folding, full-text ranking and excerpts: an email carries an arbitrary list of mentions.
- Network clients, OpenAI transport and response parsing, connectors: nondeterministic outcomes.
- Floating point: money, scores and delays are exact; retry delays are whole clock ticks.
- User interface, command lines, brief wording, onboarding scores, backups: plumbing or easy members.
- Untracked imports (`outcomes` absent): the same loop without the outcome table.
- The `unavailable_capabilities` text list of an assembled context: it repeats the coverage reasons.
- Wall-clock `created_at` columns, elapsed seconds, and the mention and relationship totals of an extraction report.
- An Event whose id and key both clash: the model checks the key first, as the conflict clause names it, and the id after it.
- Preflight `reconcile` and `load`: they only remove files, which the steps `RemoveActive` and `RemoveClaimed` cover.
- Envelope digests and the approval comparison in `generate_protected`: one boolean outcome of the call, refused before any reservation.
- Provider audit records: they do not steer the protocol.
- Progress, result and error payloads of a job: they are copied, never branched on.
- The `continue` after a lost claim in `run_next`: `JobExclusion` covers it as a failed claim.
- The audit chain and attempt rows of jobs under overlapping service calls (their attempt count is covered), and recovery of a scheduler run whose worker is still alive.
- JobBooks.LocalJobWorker.RunNext: looks at the first candidate, because in serial calls its claim cannot be lost.
- Jobs created with attempts already counted or with a checkpoint reference: the bookkeeping theorems are about jobs created fresh.
- Time zones and daylight saving: slots are local day numbers of equal length.
- Scheduler audit events and `status`: they do not steer the scheduler.
- The grant payload hash checked on load: a grant row is only ever written whole, with its own hash.
- Repository path normalisation: a path is a sequence of components and a prefix is containment.
