# Release confidence platform: a verified model

The platform audits services in stages. Scheduled executions run requests and store raw
evidence; a finalization event closes the audit behind an integrity gate; aggregation turns
the evidence into aggregates with a hashed lineage; reports are generated and certified from
them. The stages share no locks. They coordinate through single-item conditional writes, one
multi-item transaction and write-once objects, and each of them can be redelivered, raced or
killed between two calls. This project models that behaviour in Dafny 4.11 and proves what
survives it.

`dafny verify dfyconfig.toml` verifies everything. Each file holds one module of its name.

## How it is modelled

**Protocols** are step machines. A process is a program counter with its locals, one storage
call is one step, and the environment answers each call: with success, with an error, with a
write that took effect and still reported an error, or with a stale read. A crash is a
process that is never scheduled again. `Exec` runs an arbitrary list of steps, so a theorem
about `Exec(start, steps)` is about every interleaving, of any length, of any number of
processes.

- Aggregation: `AggregationCommit` is the machine, `AggregationSafety` its invariant,
  `AggregationGuarantees` what a reader may rely on, `AggregationVerdicts` and
  `AggregationLimits` what not. `AggregationKeys`, `AggregateSet`, `LineageManifest`,
  `AggregateEngine`, `LatencySummary` and `AggregationRecords` say what is stored,
  `AggregateCounts` and `StoredAggregates` what the stored numbers mean.
  `AggregationRepository` and `AggregationOrchestrator` are the imperative store and one run
  over it, and `AggregationAlone` shows that a run of the machine with nobody in its way ends
  like that one.
- Lifecycle and finalization: `Lifecycle` (record, table, compare-and-set), `FinalizationGate`
  and `GateFailures` (what the gate reports), `FinalizationHandler` (one event),
  `FinalizationProtocol` and `FinalizationSafety` (any number of events), `FinalizationAlone`
  (a finalizer with nobody in its way), `FinalizationLimits` (what is not guaranteed).
- Runs: `RunProtocol` (record and evidence protocol), `RunAlone` (one invocation in it),
  `RunExecution` and `RunResults` (the results of a run).
- Finalization and aggregation together: `EvidenceKeys`, `EvidenceIntegrity`,
  `LoadedEvidence`, `FinalizationToAggregation`, `FailedRunGate`, `LaterRuns`,
  `EvidenceToCommit`.
- Payloads: `TemplatePaths`, `TemplateTokens`, `TemplateRendering`, `TemplateDeterminism`,
  `RenderedPayloads`, `Redaction`, `PayloadGeneration`, `PayloadRetries`, `PayloadPrints`,
  `PayloadFingerprints`, `ConcurrentPreparation`.
- Scheduling: `Scheduling` (definitions and occurrence ids), `BuiltSchedules` (what is built),
  `OccurrenceClaims` and `OccurrenceRuns` (claims and runs under redelivery).
- Reports and certificates: `Certification`, `CertificationChecks`, `ArtifactChain`,
  `ArtifactSafety`, `ArtifactProgress`, `ArtifactKeys`.
- `Text`, `Substrings`, `Ordering` and `Wrappers` are shared vocabulary: separator-joined text,
  words inside it, sorting by a total order, optional values and results.

**Single operations** that loop or change state are methods, and classes where the source has
objects. Each is proved against a specification, and the properties of that specification
are lemmas beside it.

**Hashes, UUIDs and fresh ids.** SHA-256 and uuid5 are datatype constructors over what is
hashed, so equal hashes mean equal contents, and no generated UUID reads like text written out
in a template. Generated ids come from a counter where their freshness matters and are
arbitrary where it does not.

**Redaction.** Keys, ids and hashes are stored as they are: redaction is taken to be the
identity on them. Payload fingerprints are taken of the sanitized payload: values under
sensitive keys are replaced as the sanitizer does, and what its patterns do to other strings is
a parameter.

**Identifiers** hold no `/`, `#`, `|` or `:`, as the identifier and run-id patterns demand.
Each theorem that needs this states it.

## Where the platform promises less than it may seem to

For each of these a run of the model gets there, and the exact condition is proved.

- A stale answer to the existence check makes a blocked run report an incomplete set although
  the set is complete (`AggregationLimits.CompleteSetReportedIncomplete`), and nothing else
  does (`AggregationGuarantees.ConflictIffStaleCheck`).
- A run that committed its set is recorded FAILED when its completing update raises
  (`AggregationLimits.CommittedRunRecordedFailed`), or its transaction takes effect and raises
  (`AggregationLimits.UnheardCommitRecordedFailed`), and in no other way by itself
  (`AggregationVerdicts.CommittedRunFailsIff`).
- A second delivery of a job may overwrite the COMPLETED of the first with a conflict, with
  every read fresh (`AggregationLimits.VerdictOverwritten`);
  `AggregationVerdicts.CompletedRecordLostIff` lists the steps that can.
- On a force-recreated audit, COMPLETED does not imply a positive recorded count
  (`FinalizationLimits.ForcedAuditCompletesOnZero`): a redelivered event may complete it on the
  count of an earlier life, while the finalizer that counted none is the last to record
  (`FinalizationLimits.CompletedOnZeroIff`).
- A finalizer killed between completing an audit and recording the aggregation intent leaves
  the audit without one for good (`FinalizationLimits.TriggerLost`): after COMPLETED an intent
  can appear exactly as long as that finalizer is about to record it
  (`FinalizationLimits.IntentIffPending`).
- A COMPLETED run record may become FAILED: by a second invocation whose create was refused
  (`RunProtocol.CompletedRunMarkedFailed`) or raised, or by the invocation that completed it,
  when that update raised (`RunProtocol.RunMarksItselfFailed`). `RunProtocol.DowngradedIff`
  says exactly when.
- The gate's third check is named after all terminal runs, but looks at COMPLETED runs only,
  and its sixth compares the completed counter with all terminal runs. So a gate may pass with
  FAILED runs whose evidence aggregation then refuses (`FailedRunGate.CompletedAuditRefused`);
  `FinalizationToAggregation.FinalizedAggregates` says exactly when.
- The builder never asks the event contract whether an id will do. It limits the id before it
  appends an index, and the contract also refuses forbidden words that client and audit ids may
  hold; so it may build ids that are refused (`Scheduling.LongIdBuilt`,
  `Scheduling.MarkedIdBuilt`), exactly under the condition of `Scheduling.RefusedIff`.
- A uuid token under a sensitive key such as `token` or `email` does not reach the fingerprint.
  A template that varies only there gives every payload of its endpoint one fingerprint, and
  with the regenerate policy all but the first exhaust their attempts
  (`PayloadPrints.SecondTokenExhausted`). `PayloadPrints.PrintsDifferIff` says when two attempts
  are told apart.
- The density check of certification fails an audit whose bursts were shared out as evenly as
  each allows, because every burst starts again at the first endpoint and the remainders add
  up (`Certification.TwoUnevenBursts`). `Certification.BasedDenseIff` says exactly which audits
  pass, `Certification.BurstsDenseIff` and `Certification.ShortBurstsDenseIff` which bursts.

## Model

| member | source | states |
|---|---|---|
| AggregationGuarantees.CompleteSetHasItsLineage | src/release_confidence_platform/aggregation/orchestrator.py:524-542 | in every reachable state of any number of runs, raced, crashed or retried, a stored #SET record means that each stored manifest of the set has every page below its page count, each of the set, scope and index of its key and all but the last with 200 references, hashes exactly those stored pages, and lists the sorted references of exactly the records the committing run aggregated, whoever wrote the pages |
| AggregationGuarantees.SetExistsIffCommitted | src/release_confidence_platform/aggregation/repository.py:324-362 | the existence check holds if and only if some run's transaction for that set went through, and if and only if the #SET record is stored |
| AggregationGuarantees.SetsAreAllOrNothing | src/release_confidence_platform/aggregation/repository.py:364-388 | no reachable table holds some records of a set without holding a set the existence check accepts |
| AggregationGuarantees.RecordsOfOneJob | src/release_confidence_platform/aggregation/orchestrator.py:589-717 | all records of a set, pages aside, are what one run's transaction wrote and carry its job; there are 2 + 2N aggregate records and N endpoint rows |
| StoredAggregates.StoredRecordsMean | src/release_confidence_platform/aggregation/orchestrator.py:589-717 | in every reachable table with a #SET record, every number of the stored audit and endpoint records is what it claims about the results the committing run aggregated, the failure records count every classification of their own scope, each record carries the hash of the stored manifest of its own scope, endpoints have records exactly when they have results, and the marker's counts and lineage equal what is stored |
| StoredAggregates.StoredFailuresSum | src/release_confidence_platform/aggregation/orchestrator.py:655-690 | for every classification the stored endpoint failure records add up to the stored audit one |
| StoredAggregates.StoredLineageRefers | src/release_confidence_platform/aggregation/lineage.py:46-134 | the stored pages of every stored manifest list one reference for each result of its scope, with its object, version, run, index, endpoint and timestamp, in order |
| AggregationGuarantees.VerdictsAreTrue | src/release_confidence_platform/aggregation/orchestrator.py:236-271 | a run that ends COMPLETED committed its own set; one that ends DUPLICATE_COMPLETED after looking at a set saw a complete one |
| AggregationGuarantees.JobRecordsAreTrue | src/release_confidence_platform/aggregation/orchestrator.py:792-822 | a job record with status COMPLETED or DUPLICATE_COMPLETED, also one written by the duplicate-job path, belongs to an audit with a complete set |
| AggregationGuarantees.NoIncompleteConflict | src/release_confidence_platform/aggregation/orchestrator.py:255-270 | with consistent reads and complete query results no run ever reports AGGREGATE_SET_INCOMPLETE_CONFLICT |
| AggregationGuarantees.StaleReadReportsConflict | src/release_confidence_platform/aggregation/repository.py:324-331 | without that assumption a blocked run reports the conflict as soon as its next marker read is stale, although the set is complete |
| AggregationGuarantees.ConflictIffStaleCheck | src/release_confidence_platform/aggregation/orchestrator.py:236-271 | in any interleaving a run ever reports AGGREGATE_SET_INCOMPLETE_CONFLICT exactly when one of the five answers of the existence check after its blocked transaction was stale |
| AggregationLimits.CompleteSetReportedIncomplete | src/release_confidence_platform/aggregation/orchestrator.py:236-271 | for any event and any evidence the gate accepts: two deliveries of the event reach a state from the empty table in which one has committed and the other reports the set incomplete while it is complete |
| AggregationLimits.OneRecordSuffices | src/release_confidence_platform/aggregation/integrity.py:45-81 | any single result is evidence the runs of these examples may aggregate |
| AggregationVerdicts.CommittedRunFailsIff | src/release_confidence_platform/aggregation/orchestrator.py:233-381 | in any interleaving, a run whose own transaction went through ever goes on to record FAILED exactly when that transaction took effect and raised, or the update with its verdict raised |
| AggregationLimits.CommittedRunRecordedFailed | src/release_confidence_platform/aggregation/orchestrator.py:359-381 | for any event and evidence, also with every read fresh: a run from the empty table commits, its completing update raises, and its job is recorded FAILED beside a complete set |
| AggregationLimits.UnheardCommitRecordedFailed | src/release_confidence_platform/aggregation/orchestrator.py:233-236 | the same with no completing update ever attempted: the transaction itself takes effect and raises |
| AggregationVerdicts.CompletedRecordLostIff | src/release_confidence_platform/aggregation/orchestrator.py:105-126 | a job record that says COMPLETED is overwritten exactly by a run of the job, the one that completed it or another, claiming it or recording another verdict, or by a new intent |
| AggregationLimits.VerdictOverwritten | src/release_confidence_platform/aggregation/orchestrator.py:792-822 | for any event and evidence, also with every read fresh: a second delivery finds the job STARTED, the first completes it, and the second overwrites COMPLETED with a conflict |
| AggregationGuarantees.StoredForGood | src/release_confidence_platform/aggregation/repository.py:467-478 | whatever happens next, stored identities, pages, manifests, aggregates and markers keep their contents, and no second transaction of a set goes through |
| AggregationGuarantees.OneIdentityPerAudit | src/release_confidence_platform/aggregation/identity.py:21-47 | all runs of an audit that settle on an execution id settle on the same one, the audit's own or else the one on record, even with stale reads and writes that took effect but reported an error |
| AggregationSafety.Reachable | src/release_confidence_platform/aggregation/orchestrator.py:73-381 | the invariant of table, history and every run's program point holds in every reachable state |
| AggregationSafety.StoreKept | src/release_confidence_platform/aggregation/repository.py:364-388 | no single store effect breaks the invariant of the table: kinds, page hashes, whole sets, truthful job statuses |
| AggregationSafety.BlockedMeansDone | src/release_confidence_platform/aggregation/orchestrator.py:236-240 | a transaction that finds any of its keys taken faces a set that is already complete |
| AggregationSafety.ProcMoves | src/release_confidence_platform/aggregation/orchestrator.py:84-381 | each run's next step, also one whose call raises, has an admissible effect and leaves the run where its invariant holds |
| AggregationAlone.AnyRunEnds | src/release_confidence_platform/aggregation/orchestrator.py:73-381 | after any interleaving of any runs, a run of the machine left alone with fresh reads ends, with the table and verdict the sequential run gives over the same table |
| AggregationAlone.EndsAsRun | src/release_confidence_platform/aggregation/orchestrator.py:73-381 | the same from any state that satisfies the invariant, while the other runs stay where they are |
| AggregationKeys.KeysDistinct | src/release_confidence_platform/aggregation/repository.py:169-181 | two records share partition and sort key if and only if they are the same record: the built sort keys are pairwise distinct and disjoint from page keys |
| AggregationKeys.EndpointQueryExact | src/release_confidence_platform/aggregation/repository.py:346-350 | the begins_with query of the existence check selects exactly the endpoint records of its set |
| AggregationKeys.RunQueryExact | src/release_confidence_platform/aggregation/repository.py:306-313 | the begins_with query for runs selects exactly the run records of the audit |
| AggregateSet.ItemKeysExact | src/release_confidence_platform/aggregation/orchestrator.py:589-717 | the emitted keys are exactly the keys of the set, 4 + 3N of them |
| AggregateSet.ItemKeysDistinct | src/release_confidence_platform/aggregation/orchestrator.py:589-717 | no key is emitted twice |
| AggregateSet.BuildPersistedRecords | src/release_confidence_platform/aggregation/orchestrator.py:544-726 | the loops emit each record of the transaction once with its contents, and the pages of every scope; the set is too large exactly when 4 + 3N exceeds 99 |
| StoredAggregates.EmittedRecordsMean | src/release_confidence_platform/aggregation/orchestrator.py:544-726 | the emitted list, read as a table, holds records whose numbers, lineage hashes and marker mean what they claim about the given results |
| AggregateSet.PageListExact | src/release_confidence_platform/aggregation/orchestrator.py:479-507 | the page list holds, at its own key, each page of the audit scope and of every endpoint scope, and nothing else |
| AggregateSet.EndpointRecordsOf | src/release_confidence_platform/aggregation/repository.py:346-362 | over a committed set the endpoint query finds 2N records, N of them endpoint rows |
| AggregateSet.CommittedSetExists | src/release_confidence_platform/aggregation/repository.py:324-362 | the existence check accepts every committed set |
| AggregateSet.AttemptsAgree | src/release_confidence_platform/aggregation/orchestrator.py:524-542 | attempts of different jobs at the same evidence, read in any order, have equal hashes under every page key and in every manifest, so none clashes with the pages of another |
| AggregationRepository.EmittedIsBatch | src/release_confidence_platform/aggregation/orchestrator.py:719-726 | the emitted list, read as a table, is the transaction |
| AggregationRepository.Repository.PutOnce | src/release_confidence_platform/aggregation/repository.py:467-478 | a conditional put stores the item exactly when the key is free, and otherwise changes nothing |
| AggregationRepository.Repository.UpdateJob | src/release_confidence_platform/aggregation/repository.py:281-300 | a job update applies exactly when the job record exists |
| AggregationRepository.Repository.PutRecordsOnce | src/release_confidence_platform/aggregation/repository.py:364-465 | all records are stored or none; stored exactly when at most 99 records and no key taken |
| AggregationRepository.Repository.AggregateSetExists | src/release_confidence_platform/aggregation/repository.py:324-362 | the check with its found-aggregates counter decides the set predicate |
| AggregationRepository.Repository.WriteLineagePages | src/release_confidence_platform/aggregation/orchestrator.py:524-542 | succeeds exactly when every page key is free or holds the same hash; then every page is stored; nothing stored before changes, and only given pages are added |
| AggregationOrchestrator.Orchestrator.Persist | src/release_confidence_platform/aggregation/orchestrator.py:213-271 | COMPLETED exactly when the set fits, its pages do not clash and it was not there; DUPLICATE_COMPLETED exactly when it was; only pages are added otherwise |
| AggregationOrchestrator.Orchestrator.ClaimJob | src/release_confidence_platform/aggregation/orchestrator.py:84-126 | a job is claimed exactly when it is new or an unclaimed intent; a duplicate leaves the table as it was |
| AggregationOrchestrator.Orchestrator.ResolveOrAssign | src/release_confidence_platform/aggregation/identity.py:21-47 | the identity on the audit wins over the one on record, which wins over the candidate; only the candidate is written |
| AggregationOrchestrator.Orchestrator.Aggregate | src/release_confidence_platform/aggregation/orchestrator.py:148-271 | a duplicate exactly when the set was there; otherwise FAILED or INELIGIBLE by the evidence, or COMPLETED exactly when the attempt is small and its pages fit, and then the table holds its transaction; nothing is written unless the evidence is usable |
| AggregationOrchestrator.Orchestrator.Run | src/release_confidence_platform/aggregation/orchestrator.py:73-381 | a run by itself, over any table: it goes on exactly when its job is new or an unclaimed intent, looks at the set of the winning identity exactly when the audit has a configuration version, and then reports a duplicate exactly when the set was there, INELIGIBLE for an audit not eligible, COMPLETED exactly when the evidence is usable, the set small and its pages fit, with its transaction in the table; a job not its own is a duplicate or a conflict by its stored status; only its job, the identity and records of the set are written |
| LineageManifest.BuildLineageScope | src/release_confidence_platform/aggregation/orchestrator.py:456-522 | the loop yields the pages of the scope and the header over their hashes |
| LineageManifest.ChunksPartition | src/release_confidence_platform/aggregation/lineage.py:31-43 | pages concatenate to the sorted records, every page but the last is full, none is empty |
| LineageManifest.PagesCoverRecords | src/release_confidence_platform/aggregation/lineage.py:46-86 | the references of the pages concatenate to the sorted references of the records |
| LineageManifest.ManifestHashIdentifiesEvidence | src/release_confidence_platform/aggregation/lineage.py:89-134 | two manifests of a scope have the same hash if and only if they list the same sorted references, whichever job wrote them and when |
| LineageManifest.ManifestPermutation | src/release_confidence_platform/aggregation/lineage.py:31-134 | permuting the records changes no page hash and no manifest hash |
| AggregationRecords.OrderedPermutation | src/release_confidence_platform/aggregation/engine.py:22-22 | records with distinct references have one sorted order, whatever the input order |
| AggregateEngine.AggregatesPermutation | src/release_confidence_platform/aggregation/engine.py:21-36 | aggregates are a function of the multiset of records with distinct references |
| AggregateEngine.EndpointsSumToAudit | src/release_confidence_platform/aggregation/engine.py:84-118 | endpoint counts, successes, classifications and status distributions sum to the audit ones, and every result of the audit succeeded or failed |
| AggregateCounts.AuditRowMeans | src/release_confidence_platform/aggregation/engine.py:21-126 | totals, successes, failures, timeouts and network failures of the audit row are numbers of results with that failure type; the distributions show every classification, status code and endpoint as often as it occurs; latency are the statistics of exactly the non-negative numeric durations; the duration is the span of the valid times in whole milliseconds, zero below two |
| AggregateCounts.EndpointRowMeans | src/release_confidence_platform/aggregation/engine.py:84-118 | the same of every endpoint row, over the results of that endpoint |
| AggregateCounts.RowsAreEndpoints | src/release_confidence_platform/aggregation/engine.py:84-105 | there is a row for each endpoint with a result and for no other |
| AggregateEngine.EndpointCountsAgree | src/release_confidence_platform/aggregation/engine.py:30-32 | the audit's count per endpoint is that endpoint's own execution count |
| AggregateEngine.GroupByEndpoint | src/release_confidence_platform/aggregation/engine.py:84-87 | the grouping loop collects, per endpoint, its records in order |
| AggregateEngine.BuildEndpointAggregates | src/release_confidence_platform/aggregation/engine.py:84-105 | the output loop has one aggregate per endpoint, computed from that endpoint's records |
| AggregateEngine.StatusDistribution | src/release_confidence_platform/aggregation/engine.py:112-118 | the counting loop counts every status text |
| LatencySummary.SummaryOrdered | src/release_confidence_platform/aggregation/engine.py:39-70 | min, median, p95, p99 and max stay ordered, and min, mean and max, after half-up rounding to 0.001; an empty sample has no statistics |
| LatencySummary.SummaryMeaning | src/release_confidence_platform/aggregation/engine.py:39-70 | each published number is the rounding of what it claims: extremes, mean, a median with half the samples on either side, least covering samples |
| LatencySummary.NearestRankLeastCovering | src/release_confidence_platform/aggregation/engine.py:142-144 | the nearest-rank value is a sample that at least p percent of the samples do not exceed, and the least such |
| LatencySummary.MedianSplits | src/release_confidence_platform/aggregation/engine.py:52-56 | at least half the samples are at most, and at least half at least, the median |
| LatencySummary.RoundMonotone | src/release_confidence_platform/aggregation/engine.py:147-148 | rounding keeps order |
| LatencySummary.RoundClose | src/release_confidence_platform/aggregation/engine.py:147-148 | rounding moves a value by at most half a thousandth |
| FinalizationGate.FinalizationIntegrityGate | src/release_confidence_platform/audit_lifecycle/finalization_gate.py:69-264 | the gate evaluates all six checks and reports every failure in order; a count that is not positive raises |
| FinalizationGate.PassesIff | src/release_confidence_platform/audit_lifecycle/finalization_gate.py:90-264 | the gate passes if and only if the positive count is the number of runs, none is STARTED, COMPLETED runs have their key, every key names exactly one run, and the counter agrees |
| FinalizationGate.PassedRuns | src/release_confidence_platform/audit_lifecycle/finalization_gate.py:158-205 | with slash-free ids a passing gate means no STARTED run, run ids of COMPLETED runs unique among all records, and COMPLETED runs injected into the listed keys |
| FinalizationGate.PassedKeys | src/release_confidence_platform/audit_lifecycle/finalization_gate.py:207-232 | every listed key belongs to one run, which has ended |
| GateFailures.ReportedIff | src/release_confidence_platform/audit_lifecycle/finalization_gate.py:90-264 | with a positive count a failure is reported if and only if it is one: the count is not the number of ended runs, some run has not ended, a COMPLETED run lacks its key, a key names no single run or a STARTED one, or the counter disagrees |
| GateFailures.ReportedInOrder | src/release_confidence_platform/audit_lifecycle/finalization_gate.py:90-264 | failures are reported in the order of the six checks |
| FinalizationGate.Classify | src/release_confidence_platform/audit_lifecycle/finalization_gate.py:102-122 | the lookup filled by the loop holds exactly the records of each run id |
| RunRecords.ExtractRoundTrip | src/release_confidence_platform/audit_lifecycle/finalization_gate.py:272-281 | the run id extracted from a key built from slash-free ids is that run id |
| RunRecords.EvidenceKeyInjective | packages/storage/s3_client.py:154-155 | evidence keys of different slash-free ids differ |
| Lifecycle.HistoryReplays | packages/storage/audit_metadata_client.py:182-263 | under any sequence of calls from any stale reads the history replays from DRAFT to the stored state by table transitions and forced entries only |
| Lifecycle.Absorbing | packages/audit_lifecycle/constants.py:27-60 | COMPLETED and CANCELLED never change again, nor does the history |
| Lifecycle.LeavingTerminal | packages/storage/audit_metadata_client.py:182-230 | a terminal state is left exactly by force-recreating a FAILED audit, to DRAFT |
| Lifecycle.HistoryGrows | packages/storage/audit_metadata_client.py:232-263 | the history is only appended to |
| Lifecycle.UnforcedHistoryIsShort | packages/audit_lifecycle/constants.py:33-60 | an audit never forced makes at most six transitions |
| Lifecycle.TableLaws | packages/audit_lifecycle/constants.py:33-60 | a move is in the table if and only if it fails a state that is not terminal, cancels one of the first three, goes one stage on, or skips from SCHEDULED to FINALIZING or from FINALIZING to COMPLETED |
| Lifecycle.AuditMetadataRepository.PutAuditMetadataOnce | packages/storage/audit_metadata_client.py:178-180 | creates the record in DRAFT exactly when there is none |
| Lifecycle.AuditMetadataRepository.AppendLifecycleTransition | packages/storage/audit_metadata_client.py:232-263 | sets state and appends the entry exactly when the stored state is the expected one |
| Lifecycle.AuditMetadataRepository.UpdateForForceRecreate | packages/storage/audit_metadata_client.py:182-230 | resets to DRAFT with a forced entry exactly from DRAFT or FAILED |
| Lifecycle.AuditMetadataRepository.SetFields | packages/storage/audit_metadata_client.py:268-274 | counters and finalization are overwritten whole |
| Lifecycle.AuditLifecycleService.Move | packages/audit_lifecycle/service.py:33-57 | validates against the table, then compares and sets |
| FinalizationSafety.AtMostOneIntent | apps/backend/handlers/audit_finalization_handler.py:446-471 | over any number of concurrent, redelivered or killed finalizers at most one aggregation intent is ever recorded for an audit, and only for a COMPLETED one |
| FinalizationSafety.CompletedMeansRecorded | apps/backend/handlers/audit_finalization_handler.py:117-196 | a COMPLETED audit was completed by a finalizer with a positive count after a passing gate; on one never forced, that count is what is on record |
| FinalizationSafety.StepKeepsInv | apps/backend/handlers/audit_finalization_handler.py:73-325 | every step of every finalizer and of every other caller keeps the protocol's invariant |
| FinalizationLimits.ForcedAuditCompletesOnZero | packages/storage/audit_metadata_client.py:182-230 | with force-recreate the recorded count may be zero: a run from the empty store in which the audit ends COMPLETED with a count of zero on record |
| FinalizationLimits.CompletedOnZeroIff | apps/backend/handlers/audit_finalization_handler.py:93-166 | a COMPLETED audit has the count on record that was recorded last by any finalizer; it is zero exactly when that finalizer had counted none, and then the audit was force-recreated |
| FinalizationLimits.CompletedRecordChanges | apps/backend/handlers/audit_finalization_handler.py:162-162 | what a COMPLETED audit has recorded changes exactly when a finalizer that entered earlier records a different count |
| FinalizationLimits.LateRecorderMeansForced | apps/backend/handlers/audit_finalization_handler.py:117-162 | a finalizer about to record beside a COMPLETED audit means that the audit was force-recreated |
| FinalizationLimits.LostTriggerIsFinal | apps/backend/handlers/audit_finalization_handler.py:79-89 | once an audit is COMPLETED and nobody is about to record the intent, none is ever recorded again |
| FinalizationLimits.IntentIffPending | apps/backend/handlers/audit_finalization_handler.py:176-196 | on a COMPLETED audit some continuation records an intent exactly when the finalizer that completed it is still about to |
| FinalizationLimits.TriggerLost | apps/backend/handlers/audit_finalization_handler.py:176-196 | a run from the empty store in which the completing finalizer is killed after its write: COMPLETED, and no continuation ever records an intent |
| FinalizationHandler.AuditFinalizationHandler.Handle | apps/backend/handlers/audit_finalization_handler.py:73-196 | one event by itself: a terminal audit is left alone, a FINALIZING one is decided by its recorded count, a SCHEDULED or RUNNING one enters with its completed counter recorded and ends COMPLETED exactly when that is positive and the gate passes, FAILED otherwise; from any other state the entry is refused; the intent is put exactly on completion |
| FinalizationHandler.AuditFinalizationHandler.HandleFinalizingRetry | apps/backend/handlers/audit_finalization_handler.py:198-243 | a FINALIZING audit is decided by its recorded count and the gate, and left alone when nothing is recorded |
| FinalizationHandler.AuditFinalizationHandler.CompleteFinalization | apps/backend/handlers/audit_finalization_handler.py:245-325 | COMPLETED exactly when the gate passes on the terminal run count, FAILED otherwise |
| FinalizationHandler.GateDecides | apps/backend/handlers/audit_finalization_handler.py:245-325 | the gate's decision on an audit and a positive count: it passes if and only if there are runs, all ended, every COMPLETED one with its key, every key naming exactly one of them, and the counter, when present, is their number |
| FinalizationAlone.AnyFinalizerEnds | apps/backend/handlers/audit_finalization_handler.py:73-325 | after any interleaving of finalizers and other callers, a finalizer left alone leaves the audit as the handler by itself would, and goes on to put the intent exactly then |
| FinalizationAlone.EndsAfterConflict | apps/backend/handlers/audit_finalization_handler.py:391-432 | a finalizer whose entry met a conflict leaves a terminal audit alone, decides a FINALIZING one by its record, and fails any other |
| FinalizationToAggregation.FinalizedAggregates | src/release_confidence_platform/aggregation/integrity.py:28-81 | what finalization accepts, aggregation accepts: over the store the completing gate saw, the evidence loads, and the evidence gate accepts exactly when the gate saw no FAILED run, on the direct path, or the recorded count is the number of COMPLETED runs, on the retry path |
| FailedRunGate.CompletedAuditRefused | src/release_confidence_platform/audit_lifecycle/finalization_gate.py:241-259 | a run of both protocols from empty stores: one COMPLETED and one FAILED run, both with evidence, count and counter of two; the gate passes, the audit is COMPLETED, the evidence loads and the evidence gate refuses it |
| LaterRuns.LaterAggregates | src/release_confidence_platform/aggregation/integrity.py:28-81 | when the runs go on after the gate has looked, the evidence aggregation then finds still loads, and is accepted exactly when the runs completed since are as many as those that left COMPLETED and those the gate saw FAILED, on the direct path, or when the recorded count is the number COMPLETED by then, on the retry path |
| EvidenceToCommit.GateDecidesRun | src/release_confidence_platform/aggregation/orchestrator.py:174-233 | the evidence gate decides the run in the commit machine: INELIGIBLE for an audit not eligible, FAILED for any other refusal or a set too large, and otherwise it goes on to write exactly the accepted evidence |
| FinalizationToAggregation.StoreAggregates | src/release_confidence_platform/aggregation/orchestrator.py:411-454 | over every reachable store with safe keys the completed runs load, and the evidence gate accepts exactly when the audit is eligible and its count is the number of COMPLETED runs |
| FinalizationToAggregation.CompletedIsEligible | src/release_confidence_platform/aggregation/eligibility.py:17-61 | an audit completed by the handler and never forced is eligible, with the completing count |
| FinalizationToAggregation.DirectCount | apps/backend/handlers/audit_finalization_handler.py:275-282 | on the direct path the recorded count is the number of COMPLETED runs exactly when no run FAILED |
| EvidenceIntegrity.AcceptedIff | src/release_confidence_platform/aggregation/integrity.py:20-87 | the evidence gate accepts if and only if the audit is eligible and identified, the count is the number of runs, the records come from exactly those runs, references are distinct and records complete |
| LoadedEvidence.GateAcceptsIff | src/release_confidence_platform/aggregation/integrity.py:20-87 | in terms of runs and records: as many completed runs as recorded, every record from one of them and one at least from each, no two from the same place, each naming run, object and endpoint |
| LoadedEvidence.EligibleIff | src/release_confidence_platform/aggregation/eligibility.py:17-61 | an audit is eligible if and only if it is COMPLETED, finalized, with a positive count, by a finalization entry in its history; the reason given is the first of these that fails |
| LoadedEvidence.CompletedRunsAre | src/release_confidence_platform/aggregation/repository.py:305-322 | the runs considered are exactly the COMPLETED v1 runs with an evidence key, ordered by run id |
| LoadedEvidence.LoadedIff | src/release_confidence_platform/aggregation/orchestrator.py:411-454 | loading succeeds if and only if every run's key is safe and holds a v1 object naming client, audit and run; then every result of every run is handed on, run after run, with each of its fields and its position |
| LoadedEvidence.LoadFailsWith | src/release_confidence_platform/aggregation/orchestrator.py:416-433 | otherwise the reason is that of the first run that cannot be read: unsafe key, missing object, foreign envelope |
| EvidenceIntegrity.ValidateEvidenceIntegrity | src/release_confidence_platform/aggregation/integrity.py:20-87 | the checks run in order and the first failing one is the reason given |
| EvidenceIntegrity.ScanRecords | src/release_confidence_platform/aggregation/integrity.py:66-81 | the loop over the seen set finds the first duplicate or incomplete record |
| EvidenceIntegrity.LoadRecords | src/release_confidence_platform/aggregation/orchestrator.py:411-454 | the loop numbers each run's results, or stops at the first unsafe key, missing object or foreign envelope |
| EvidenceIntegrity.ListCompletedRuns | src/release_confidence_platform/aggregation/repository.py:305-322 | the loop keeps exactly the usable completed runs, in sort-key order |
| EvidenceKeys.SafeKeyIff | src/release_confidence_platform/aggregation/orchestrator.py:879-918 | the key built from three identifiers passes the unsafe-key test if and only if none of them contains ".." or a marker in any case |
| RunProtocol.CompletedHasEvidence | apps/backend/orchestrator/service.py:212-262 | under all interleavings, also of invocations with the same run id, a COMPLETED record has non-empty evidence stored at its own key, naming its client, audit and run |
| RunProtocol.EvidenceHasRecord | apps/backend/orchestrator/service.py:97-110 | every evidence object has a run record |
| RunProtocol.EvidenceWrittenOnce | packages/storage/s3_client.py:182-254 | no evidence key is written twice |
| RunProtocol.EvidenceKept | packages/storage/s3_client.py:182-191 | no step changes a stored evidence object |
| RunProtocol.StepKeepsInv | packages/storage/dynamodb_client.py:192-306 | every step of every invocation keeps the invariant of records, evidence and program points |
| RunProtocol.LoserMarksWinnerFailed | apps/backend/orchestrator/service.py:614-637 | run status is not monotone: the loser of the conditional create marks a COMPLETED record FAILED, the evidence staying in place |
| RunProtocol.CompletedRunMarkedFailed | apps/backend/orchestrator/service.py:99-107 | for any run invoked twice: from the empty store both invocations pass their reads before the first creates the record, the first completes, and the second then marks the run FAILED |
| RunProtocol.LeavingCompleted | apps/backend/orchestrator/service.py:614-637 | in one step a COMPLETED record changes exactly by the failure update of an invocation of the same run id |
| RunProtocol.DowngradedIff | apps/backend/orchestrator/service.py:614-637 | over whole runs a COMPLETED record ever becomes FAILED exactly when an invocation of that run, refused by the create or answered with a raising call from it on, next has its failure update acknowledged while the record is COMPLETED |
| RunProtocol.RunMarksItselfFailed | apps/backend/orchestrator/service.py:238-262 | a single invocation does it alone: from the empty store its completing update takes effect and raises, and it marks its own COMPLETED record FAILED |
| RunAlone.AnyInvocationEnds | apps/backend/orchestrator/service.py:74-262 | whatever other invocations have done, one left alone stores its results under its own key and a COMPLETED record naming that key, or nothing at all when its run has a record or evidence |
| RunAlone.FailsAlone | apps/backend/orchestrator/service.py:614-637 | one whose execution raises ends with a FAILED record and no evidence |
| RunExecution.ExecuteIterations | apps/backend/orchestrator/service.py:154-208 | the three loops give the results of all schedule iterations, endpoints and payload iterations in order, or none when a request raises |
| RunResults.RunHasResults | apps/backend/orchestrator/service.py:154-208 | there are results if and only if every request returns, and then one per schedule iteration, endpoint and payload iteration |
| RunResults.RunResultAt | apps/backend/orchestrator/service.py:154-208 | the result of payload iteration k of endpoint e in schedule iteration i stands where the nesting of the loops puts it and holds what that request returned |
| RunExecution.RunLength | apps/backend/orchestrator/service.py:154-208 | a run has one result per iteration, endpoint and payload iteration, and never none over validated configuration |
| RunProtocol.ExecutionHandsOver | apps/backend/orchestrator/service.py:154-208 | the results of any execution over validated configuration take the invocation on to storing its evidence: they are never empty |
| RunExecution.ExecuteBurst | apps/backend/orchestrator/service.py:383-452 | a burst's results are listed by request number and do not depend on the order of completion |
| RunExecution.SharesEven | apps/backend/orchestrator/service.py:393-399 | the round-robin gives every endpoint the quotient of the requests, and the first remainder endpoints one more |
| TemplatePaths.PathInjective | packages/data_generation/templates.py:57-79 | distinct positions of a template print to distinct paths, whatever characters the keys contain |
| TemplatePaths.SegmentPeel | packages/data_generation/templates.py:134-138 | the first segment of a path is recovered from the text, bare keys, escaped keys and indices alike |
| TemplatePaths.EscapedCons | packages/data_generation/templates.py:137-138 | the two replacements in sequence escape each character by itself |
| TemplatePaths.PathExtends | packages/data_generation/templates.py:57-79 | the recursion's path of a child is the parent's path with one more segment |
| TemplatePaths.SeedInjective | packages/data_generation/templates.py:31-38 | a UUID seed determines client, audit, run, endpoint, iteration, position, token index and attempt, even when the path contains the separator |
| TemplateTokens.BalancedIffParses | packages/data_generation/templates.py:114-116 | a string is balanced if and only if it is brace-free literals around brace-free non-empty tokens; the cut is unique and is the scan's |
| TemplateTokens.ScanUnparse | packages/data_generation/templates.py:10-10 | leftmost matching finds exactly the pieces a well-formed string was made of |
| TemplateTokens.UnparseScan | packages/data_generation/templates.py:10-10 | the pieces of any string put together are the string |
| TemplateRendering.Substitute | packages/data_generation/templates.py:85-111 | the substitution loop with its mutable uuid index computes the rendering of the parse, first error included |
| TemplateRendering.RenderingRefinesParse | packages/data_generation/templates.py:85-116 | an accepted string with markers has exactly one parse and its rendering replaces just the tokens, uuid tokens numbered from 0 in order; a string without markers is one literal |
| TemplateRendering.UuidNumbersDistinct | packages/data_generation/templates.py:90-106 | two uuid tokens of a string never share a number |
| TemplateRendering.UuidNumbersFromZero | packages/data_generation/templates.py:90-106 | the numbers used are an initial segment |
| TemplateDeterminism.RenderedAt | packages/data_generation/templates.py:57-82 | rendering keeps the shape of a template and renders the string at each position with that position's path |
| RenderedPayloads.RenderRenders | packages/data_generation/templates.py:57-111 | at every position a rendered template has the shape of the template, and each string is its literals with run_id, iteration, timestamp, uuid and data-pool tokens replaced by what they stand for |
| RenderedPayloads.RendersIff | packages/data_generation/templates.py:57-131 | a template renders if and only if every string of it is balanced and each token is, without space around it, one of the four names or leads to a scalar of a record it may look into |
| RenderedPayloads.TokenRendersIff | packages/data_generation/templates.py:92-131 | the same of a single token, with its value |
| TemplateDeterminism.UuidSeedsDistinct | packages/data_generation/templates.py:31-38 | two uuid tokens get the same seed exactly when origin, position, attempt and token coincide |
| TemplateDeterminism.AttemptsDifferIffUuid | packages/data_generation/templates.py:57-111 | two attempts at a template give the same payload or the same error unless it renders and holds a uuid token; then they never do |
| PayloadGeneration.DuplicateChecker.CheckAndReserve | packages/data_generation/duplicate_checker.py:30-54 | the first caller of a print reserves it, every later one is a duplicate |
| PayloadGeneration.DuplicateChecker.Prepare | packages/data_generation/generator.py:49-112 | the retry loop with its two checks and three policies computes its specification on the shared table; a payload it returns is, at every position, the configured value or bare data-pool record itself, or the template rendered with the number of an allowed attempt |
| PayloadGeneration.PreparedIsPayload | packages/data_generation/generator.py:114-157 | what a call returns is the payload of the attempt it names: the configured value or record unchanged at every position, or the template rendered |
| PayloadGeneration.BuildsIff | packages/data_generation/generator.py:114-157 | a static payload and a bare record always build, a template exactly when it renders, and nothing without a data-pool record |
| PayloadRetries.OutcomeByTable | packages/data_generation/generator.py:57-112 | over any table a call under regenerate returns the first of five attempts whose prints are free, also of its own earlier ones, or is exhausted; under the other policies the one attempt decides |
| PayloadGeneration.AttemptsDiffer | packages/data_generation/generator.py:114-157 | two attempts of a request differ exactly when it builds and its template holds a uuid token |
| PayloadPrints.PrintsDifferIff | packages/data_generation/fingerprints.py:14-26 | two attempts at a template whose objects have no key twice get different fingerprints exactly when, at some position under no sensitive key, their strings differ after redaction |
| PayloadPrints.PrintsDifferIffUuid | packages/sanitization/sanitizer.py:101-121 | when the patterns leave the rendered strings as they are, that is exactly when some uuid token is under no sensitive key |
| PayloadPrints.HiddenUuidsUnchanging | packages/sanitization/sanitizer.py:64-113 | a request none of whose uuid tokens is outside a sensitive key has one fingerprint for all its attempts, whatever the patterns do |
| PayloadPrints.UnchangingIff | packages/data_generation/fingerprints.py:14-26 | over any patterns all attempts of a template have one fingerprint exactly when no two of them differ in a string left to see |
| PayloadPrints.SecondTokenExhausted | packages/data_generation/generator.py:57-112 | with the template {"token": "{{uuid}}"} the payloads of two attempts differ, yet after one request has been prepared every later one exhausts its attempts |
| PayloadPrints.KeyOrderIrrelevant | packages/data_generation/fingerprints.py:14-26 | objects with the same fields in another order have the same fingerprint |
| PayloadFingerprints.DuplicatesIff | packages/data_generation/fingerprints.py:14-30 | two payloads, or two data-pool records, without a key twice in an object have the same fingerprint if and only if they are the same up to key order, with strings compared after redaction, structural ones as they are, and nothing compared under sensitive keys |
| PayloadGeneration.NothingToRegenerate | packages/data_generation/generator.py:57-112 | a duplicate whose fingerprint does not change with the attempt, or that is bound to an unshared data-pool record, exhausts its attempts |
| PayloadGeneration.SuccessReserves | packages/data_generation/generator.py:61-112 | a success without the duplicate allowance used prints nobody held, and holds them afterwards |
| ConcurrentPreparation.PayloadsDistinct | packages/data_generation/generator.py:61-112 | over any interleaving successful calls, neither bypassed nor allowed as duplicates, have pairwise distinct payload fingerprints |
| ConcurrentPreparation.RecordsDistinct | packages/data_generation/generator.py:69-78 | the same for data-pool records that may not be reused |
| ConcurrentPreparation.RetriesNeedUuid | packages/data_generation/generator.py:57-112 | a retry succeeds after the first attempt only with a uuid token under no sensitive key, and never for an unshared data-pool record |
| ConcurrentPreparation.AloneIsPrepare | packages/data_generation/generator.py:49-112 | a call nobody interleaves with does what the sequential retry loop does |
| Scheduling.BaselineOccurrenceTimes | packages/audit_scheduling/builders.py:353-367 | the stepping loop yields the firing times, and an error exactly for an empty window |
| Scheduling.BaselineTimes | packages/audit_scheduling/builders.py:353-367 | firing times number ceil(window / interval), strictly increase, lie in [start, end), and one more would not |
| Scheduling.BuildAll | packages/audit_scheduling/builders.py:99-113 | the loops yield baseline, burst and enabled repeated definitions in order, with the cap and window errors |
| BuiltSchedules.BuiltIff | packages/audit_scheduling/builders.py:99-351 | definitions are built if and only if the baseline has a positive interval, a window and at most 192 firings and the enabled bursts lie in the window; they are then a baseline execution every interval, every enabled burst and every enabled repeated run, each with its scenario, time, iterations and id |
| Scheduling.OccurrenceIdsDistinct | packages/audit_scheduling/builders.py:304-351 | every execution definition of an audit has its own occurrence id |
| Scheduling.OccurrenceTextsDistinct | packages/audit_scheduling/builders.py:314-351 | and the stored texts of those ids differ too: no digest reads like the canonical text of another occurrence, nor like another digest |
| Scheduling.RefusedIff | packages/audit_scheduling/events.py:13-18 | the event contract refuses a built id if and only if the appended index takes it over 256 characters, or it is stored in plain and client, audit, scenario or time holds one of the forbidden words in any case |
| Scheduling.TooLongIff | packages/audit_scheduling/events.py:13-15 | the length test alone: a built id is too long exactly when client, audit, kind, scenario and time with their separators are within the limit and the appended index is not |
| Scheduling.LongIdBuilt | packages/audit_scheduling/builders.py:314-351 | a configuration with a client id of 100 and an audit id of 112 characters builds, with a burst id of 258 |
| Scheduling.MarkedIdBuilt | packages/audit_scheduling/builders.py:314-351 | so does one for a client called token-corp, whose id is short and refused all the same |
| OccurrenceClaims.ExecutedAtMostOnce | apps/backend/handlers/scheduled_execution_handler.py:99-180 | over all redeliveries in any interleaving an occurrence is run at most once, a repeated one at most its iteration count and never more than 100 times |
| OccurrenceRuns.RunsByAnswers | apps/backend/handlers/scheduled_execution_handler.py:99-180 | over all redeliveries in any interleaving the answers decide: an id is claimed if and only if the first call of some delivery of it was acknowledged, and then exactly as many runs have started as the answers of the claimant say; every other delivery with an answer has ended without a run |
| OccurrenceRuns.AcknowledgedDeliveryRuns | apps/backend/handlers/scheduled_execution_handler.py:99-180 | a delivery of an unclaimed id whose calls are all acknowledged ends, whatever other deliveries do in between, with its occurrence run exactly once, a repeated one exactly its iterations when they are 1 to 100 and never otherwise |
| OccurrenceClaims.RepeatedRuns | packages/audit_scheduling/repeated.py:15-36 | runs the given number of iterations in order; invalid counts run none; a refusal by the safeguard stops the loop and loses the earlier results |
| Certification.CertifiedEndpoints | src/release_confidence_platform/audit_platform_integrity/domains.py:1038-1080 | a CERTIFIED report has strictly increasing non-empty endpoint ids, counts that sum to the total, each the floor of the mean or one more, exactly total mod n of them one more |
| Certification.CheckSchedulerIntegrity | src/release_confidence_platform/audit_platform_integrity/domains.py:730-824 | the scheduler domain's counters and details follow its three checks; it raises only when a count is missing |
| Certification.CheckObservationCoverage | src/release_confidence_platform/audit_platform_integrity/domains.py:600-722 | the coverage domain follows its five checks, the sum computed by the loop |
| Certification.CheckReportIntegrity | src/release_confidence_platform/audit_platform_integrity/domains.py:951-1123 | the integrity domain follows its nine checks, with sortedness, duplicates and empty ids found by the loops |
| CertificationChecks.SchedulerFailures | src/release_confidence_platform/audit_platform_integrity/domains.py:730-824 | the scheduler domain is blocked without its sections and otherwise names exactly the checks that fail: no executions, a count one or more away from the mean, missing methodology |
| CertificationChecks.CoverageFailures | src/release_confidence_platform/audit_platform_integrity/domains.py:600-722 | the same of the coverage domain: missing observations, counts that are not the number of endpoints, a rate that is no score, a total that is not the sum |
| CertificationChecks.IntegrityFailures | src/release_confidence_platform/audit_platform_integrity/domains.py:951-1123 | the same of the nine checks of the integrity domain |
| Certification.DetermineTerminalState | src/release_confidence_platform/audit_platform_integrity/engine.py:130-146 | CERTIFIED exactly when every domain passed, BLOCKED exactly when one is blocked |
| Certification.SchedulerTally | src/release_confidence_platform/audit_platform_integrity/domains.py:118-134 | checks performed are those passed plus those failed, and a domain passes exactly without failures |
| Certification.DenseIffWithinOne | src/release_confidence_platform/audit_platform_integrity/domains.py:775-796 | the density check passes if and only if no two endpoints are more than one execution apart |
| Certification.BasedDenseIff | apps/backend/orchestrator/service.py:393-399 | the round-robin of every burst starts at the first endpoint: whatever the iterations gave each endpoint, the density check passes if and only if no executed endpoint is more than one behind another in what they have beyond the full rounds |
| Certification.BurstsDenseIff | apps/backend/orchestrator/service.py:393-399 | when the iterations gave every endpoint the same and every endpoint was executed, it passes if and only if at most one burst is not a multiple of the endpoint count |
| Certification.ShortBurstsDenseIff | apps/backend/orchestrator/service.py:393-399 | with nothing but bursts smaller than the endpoint count, it passes if and only if at most one of them is smaller than the largest |
| Certification.TwoUnevenBursts | src/release_confidence_platform/audit_platform_integrity/domains.py:775-796 | one iteration over two endpoints and two bursts of one request give counts of three and one, and the check fails |
| ArtifactSafety.CompleteReportIsStored | src/release_confidence_platform/deterministic_reporting/engine.py:340-437 | report metadata with status COMPLETE points at a stored report artifact with its report id, whatever generations raced, failed or were forced |
| ArtifactProgress.GenerationGoesThrough | src/release_confidence_platform/deterministic_reporting/engine.py:147-437 | after any interleaving a generation the record does not refuse, with its calls answered, ends with COMPLETE metadata pointing at a new artifact that holds the report built; nothing else changes |
| ArtifactSafety.CertificateIsStored | src/release_confidence_platform/audit_platform_integrity/engine.py:304-478 | certification metadata points at a stored certificate with its certificate id and verdict, and at a stored report with its report id |
| ArtifactProgress.CertificationGoesThrough | src/release_confidence_platform/audit_platform_integrity/engine.py:224-478 | after any interleaving a certification of a COMPLETE report, not certified before unless forced, with its calls answered, stores a certificate issued on that stored report and metadata pointing at both |
| ArtifactSafety.ArtifactsWrittenOnce | src/release_confidence_platform/audit_platform_integrity/identity.py:27-54 | no artifact key is ever written twice |
| ArtifactKeys.ObjectKeysDistinct | src/release_confidence_platform/audit_platform_integrity/identity.py:27-54 | with slash-free ids two artifacts, reports or certificates, share an object key if and only if they are the same artifact |
| ArtifactSafety.CertifiedReportHolds | src/release_confidence_platform/audit_platform_integrity/engine.py:330-384 | the stored report behind CERTIFIED metadata satisfies what certification entails about its endpoints |
| ArtifactSafety.StepKeepsInv | src/release_confidence_platform/audit_platform_integrity/repository.py:246-292 | every step of every report generation and certification keeps the chain's invariant |

## Left out

- Legal-hold coordination, custody periods and disposal: the hold-coordinated writes appear as
  atomic put-if-absent of all their items.
- Redaction patterns for e-mail addresses, phone numbers, bearer tokens, assignments and web
  addresses: a parameter of payload fingerprints, and the identity on keys, ids and hashes.
- Byte-size limits of items and transactions, and query page limits: sizes are counted in
  records, and query results are complete unless a read is stale.
- Clients, error mapping, codecs, logging and entry points of the functions.
- The command line, retrieval and report formatting.
- The HTTP runner and response assertions: the outcome of a request is an arbitrary value.
- Field-by-field validation of configurations, events and stage settings: only its
  post-conditions are used, such as non-empty endpoints and positive iteration counts.
- Floating point: durations, scores and means are reals, times are integers; decimal texts of
  numbers are opaque.
- Ordering of absent and present object versions: the source compares them only between
  results of one object, which carry the same one; the model puts absent first.
- Normalisation of endpoint ids and failure types before aggregation: records carry the
  normalised values, and endpoint ids are not empty.
- Schedule names, time zones and expressions: a burst window is given by its start and end, and
  printed times only have to differ for different times.
- The finalization definition among the schedules: it is not an execution and is not claimed.
- The other five certification domains: their results are arbitrary.
- Scores, labels and intelligence artifacts inside reports: a report is the part the
  certification checks read.
- Updates of aggregation job intents after they are recorded: in the aggregation machine any
  claimable status may be written at any time.
- Statuses of report and certification jobs: their updates are steps that may fail, but the
  status they store is not kept.
- `schedule_audit`, cancellation and audit creation appear only through the writes they make to
  an audit's record.
- AggregationGuarantees.OneIdentityPerAudit: an execution id already on the audit record is
  taken to stay there, because nothing in the modelled stages writes it.
- Certification.CheckSchedulerIntegrity: floor and ceiling of the mean are exact, while the
  source divides in floating point first.
- AggregationOrchestrator.Orchestrator.Run: store calls that raise are left to the aggregation
  machine, where every call may.
