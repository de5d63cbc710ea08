# Verification model of the driver leaderboard

The repository keeps rider reviews as the source of truth and derives from them, per city,
a score for each driver over a rolling window of 90 days and a published board of the 100
best eligible drivers. Derived data is asynchronous: a write that changes what a review
contributes enqueues an outbox event, workers claim events and recalculate, expirations move
all windows of a city, and a staged rebuild can replace a city's scores by a snapshot taken
earlier. This project models that chain and proves that it stays consistent.

The model is one store (`Tables`) whose transactions are functions from store to store,
one module per service: `Writes`, `Outbox`, `Scoring`, `Ranking`, `Leaderboard`, `Rebuild`,
`Expiration`, `Display`. `System` puts all committed transactions into one state machine with
`Step` and `Run`; a run is any sequence of them with any inputs, so it covers any number of
workers, clients and operators. Over runs:

- `Consistency`: a stored score is exact for its own window or an event of its driver is
  unprocessed, and an installable snapshot is as good.
- `Agreement`: the published board is the ranking of the live scores.
- `Confluence`, `Draining`, `Delivery`, `Retries`: batches, draining, retries and idempotency
  keys do not influence the outcome.
- `Recovery`, `Readable`: healing by rebuild, and what readers are shown.
- `Audit`, `Answers`, `Progress`: the repository's own audit rules about rows, records and
  publications.
- `Coverage`, `Candidates`, `Freshness` and the end of `Delivery`: the audit rules that the code
  does not guarantee, each with the exact condition, per transaction and over runs, under which
  it holds; `Witnesses` holds runs in which they fail.
- `Caching`, `CacheService`: the cache-aside protocol with the database read and the cache
  write as separate steps.
- `ReadCommitted`: worker batches statement by statement. Here the central property fails for
  two workers on one driver; the module holds that run, the exact condition for one commit,
  and two disciplines under which every interleaving is sound.

`Services.Database` and `CacheService.Cache` are the services in their own imperative form:
objects whose tables are updated step by step, with the loops of the original. Each method is
proved to end in exactly the state and with exactly the answer of the corresponding function,
so everything proved about the functions holds of the methods. `Steps` holds the facts about
single loop turns. `Outcomes` writes out, field by field and without the functions that compute
it, what each operation leaves behind. `Histories` and the later part of `Outbox`, `Rebuild` and `Leaderboard`
hold what single transactions keep.

Where code and documentation differ, the code is modelled:

- `architecture.md` says that several workers are safe because they claim disjoint event sets.
  Two workers holding different events of one driver can lose an update
  (`ReadCommitted.TwoWorkersLoseAnUpdate`), because the aggregation at
  `src/driver_leaderboard/services/worker_service.py:80` precedes the city lock at
  `src/driver_leaderboard/services/leaderboard_service.py:28`.
- The audit expects every ledgered event to be completed. A failure report that names an event
  another worker has completed reopens it, and nothing else does
  (`Delivery.LedgerAuditHoldsIff`). "Unprocessed" therefore means "has no ledger row" throughout.
- The audit, and `architecture.md` where it calls score times monotonic, expect every score to be
  at least as recent as the latest expiration of its city. An expiration with an earlier time, a
  rescore or an explicit processing time before an expiration, and the install of an older
  snapshot break that; `Coverage.StepCoversIff` and `Coverage.RunCoversIff` give the exact
  condition over all transactions.
- The audit expects the candidates of a ready rebuild to equal the current aggregates. A later
  correction of a trip that the rebuild has counted breaks that, and nothing else does
  (`Candidates.CandidateAuditHoldsIff`). What holds regardless is the second half of
  `Consistency.EveryReachableStateIsConsistent`.
- The audit expects published generations to carry the time of their scores. Publishing a city
  without any score row breaks that, and nothing else does (`Freshness.FreshnessHoldsIff`).

Check everything with `dafny verify dfyconfig.toml`.

## Model

| member | source | states |
|---|---|---|
| Consistency.EveryReachableStateIsConsistent | src/driver_leaderboard/services/worker_service.py:36-109 | From the empty database, after any sequence of writes, worker commits, failure reports, expirations, rebuild starts, installs and discards, and city rescores, by any number of workers: every stored score is the aggregate of its own stored window or an event of that driver has no ledger row; and every job that can still be installed holds candidates with the same property |
| Consistency.StepKeepsConsistency | src/driver_leaderboard/services/worker_service.py:64-98 | One committed transaction of any service keeps both statements, also when the live rows of some cities are distrusted |
| Consistency.WriteAnnounces | src/driver_leaderboard/services/review_service.py:107-140 | After an accepted write a driver's aggregates are as before for every window, or an event of that driver is waiting |
| Consistency.InstallHealsCity | src/driver_leaderboard/services/rebuild_service.py:221-264 | Installing a rebuild makes its city trustworthy even if the live rows were not |
| Consistency.InstallKeepsConsistency | src/driver_leaderboard/services/rebuild_service.py:232-260 | A snapshot taken earlier may replace live scores later: the check that its base is still published is enough |
| Consistency.PublishesExactlyWhenInstallable | src/driver_leaderboard/services/rebuild_service.py:221-260 | In a structurally sound store a job can be published if and only if it is ready and its base is still published (the later checks never refuse it); a refusal changes nothing |
| Consistency.WorkKeepsConsistency | src/driver_leaderboard/services/worker_service.py:72-95 | A batch ledgers an event only together with recalculating its driver and publishing in its city |
| Agreement.EveryReachableBoardAgrees | src/driver_leaderboard/services/leaderboard_service.py:46-82 | In every reachable state, for every city that has been published since its last bare rescore (or never had one): the published entries are exactly the ranking of its current live scores, and without a publication it has no scores |
| Agreement.NeverRescoredBarely | tools/iteration/cli.py:74-77 | A city that is never rescored counts as published since its last bare rescore, so the row above covers it in every state |
| Agreement.RunAgrees | src/driver_leaderboard/services/worker_service.py:78-87 | From any agreeing state, and from any publication of the city on (a batch affecting it, an expiration that changes it, an install, an explicit publication), its board is the ranking of its live scores until its next bare rescore |
| Agreement.StepAgrees | src/driver_leaderboard/services/worker_service.py:78-87 | A transaction that publishes a city makes board and scores agree whatever they were before; any other keeps the agreement, except the bare rescore of that city |
| Agreement.SkippedPublication | src/driver_leaderboard/services/expiration_service.py:62-70 | An expiration that publishes nothing leaves the published board equal to the ranking of the moved windows |
| Agreement.InstalledCityAgrees | src/driver_leaderboard/services/rebuild_service.py:238-257 | After an install the city's published entries, ranked by the rebuild's own query, are the ranking of the installed live rows |
| Agreement.BareRescoreAgreesIff | src/driver_leaderboard/services/scoring_service.py:84-125 | The rescore that commits without publishing leaves board and scores in agreement if and only if the published board, before it, is the one a rebuild staged at that time would rank from the reviews (without a publication: if and only if the city has no driver) |
| Recovery.BareRescoreAgreesIffNoChange | src/driver_leaderboard/services/rebuild_service.py:165-218 | The same read off the comparison of such a rebuild: it counts no added, removed, moved or rescored entry |
| Witnesses.BareRescorePartsBoardFromScores | tools/rebuild/scores.py:9-16 | Twenty ratings, an expiration that publishes, and a bare rescore after the window: the published board still lists a driver that no longer qualifies |
| Agreement.RescoreThenPublishAgrees | tools/iteration/cli.py:74-77 | Rescoring followed by publication always restores the agreement |
| Confluence.BatchingIsConfluent | src/driver_leaderboard/services/worker_service.py:72-95 | Two splits of the same due events into batches, in any claim order, at one processing time, end with the same scores, events and ledger, and the same published entries in every city |
| Confluence.SplitIsOneBatch | src/driver_leaderboard/services/worker_service.py:72-95 | Any split has the effect of one big batch |
| Confluence.OrderDoesNotMatter | src/driver_leaderboard/services/worker_service.py:72-88 | The order of the claimed events changes neither scores, events, ledger nor affected drivers |
| Draining.DrainedSystemIsRecomputation | src/driver_leaderboard/services/worker_service.py:133-144 | Any run from the empty database, then a drain: if nothing had failed for good or was backing off, every score row is its aggregate, and the board of every city published since its last bare rescore, before or during the drain, ranks those rows |
| Draining.RoundsKeepAgreement | src/driver_leaderboard/services/worker_service.py:133-144 | Rounds keep a board in agreement with its scores and restore it when they publish in the city |
| Draining.DrainedStoreIsExact | src/driver_leaderboard/services/worker_service.py:133-144 | After a drain with a positive limit nothing is due; if no unledgered event was stuck, every event has its ledger row and every score row is exact |
| Draining.DrainingEnds | src/driver_leaderboard/services/worker_service.py:135-140 | A drain ends after at most as many rounds as there were pending events |
| Draining.PendingPlusClaimed | src/driver_leaderboard/services/worker_service.py:141-144 | Over the rounds, the reported total of events plus the events still pending is the number that was pending |
| Draining.TotalsAreSums | src/driver_leaderboard/services/worker_service.py:141-144 | The totals of a drain: all claimed events, the drivers of each round once, as many generations as were added, and the cities in which some round published |
| Draining.ResultOfBatch | src/driver_leaderboard/services/worker_service.py:99-104 | One batch reports its claimed events, its distinct affected drivers, the generations it added and their cities |
| Draining.RoundsDeliver | src/driver_leaderboard/services/worker_service.py:64-95 | No event is claimed twice; each claimed event goes from pending to completed and into the ledger, every other event is untouched |
| Recovery.DrainedMeansExact | src/driver_leaderboard/services/worker_service.py:133-144 | When nothing is due, "no unledgered event is stuck" is equivalent to "every event has a ledger row", and then every score row is exact |
| Recovery.RebuildHealsCity | src/driver_leaderboard/services/rebuild_service.py:46-264 | From any corrupted score table of a city with a publication, starting and publishing a rebuild makes every driver's row the recalculation at the job's time and the board its ranking; other cities keep their rows |
| Recovery.RescoreMakesCityExact | src/driver_leaderboard/services/scoring_service.py:84-103 | Rescoring a city makes every driver's row, and no other row of the city, the recalculation at the given time; other cities keep their rows |
| Recovery.HealingUnderConcurrency | src/driver_leaderboard/services/rebuild_service.py:221-264 | With everything else going on in any order, every city whose rebuild is installed after a corruption is trustworthy from then on |
| ReadCommitted.TwoWorkersLoseAnUpdate | src/driver_leaderboard/services/worker_service.py:78-87 | Because a worker aggregates before the city lock is taken, two workers with different events of one driver can end with a wrong score and no event left: a twelve-statement run |
| ReadCommitted.CommitIsSafeIff | src/driver_leaderboard/services/worker_service.py:72-95 | A worker's commit keeps "exact or awaiting" if and only if each aggregated row is still exact or an event outside the batch waits for its driver |
| ReadCommitted.ExclusiveRunIsSound | src/driver_leaderboard/services/worker_service.py:78-95 | However the statements of workers, writes and failure reports interleave, "exact or awaiting" holds in every committed state as long as no two open batches have aggregated the same driver |
| ReadCommitted.DisciplinedRunIsSound | src/driver_leaderboard/services/leaderboard_service.py:28-28 | One worker at a time, or taking the city lock before aggregating, is enough for that |
| ReadCommitted.LocksFirstIsAlone | src/driver_leaderboard/services/leaderboard_service.py:28-28 | Taking the city lock first keeps open batches on different drivers |
| ReadCommitted.OneAtATimeIsAlone | src/driver_leaderboard/services/worker_service.py:43-53 | Claiming only while no batch is open keeps batches on different drivers |
| ReadCommitted.FreshCommitIsAtomic | src/driver_leaderboard/services/worker_service.py:64-95 | A batch whose aggregates are current when it commits does to scores, events and ledger what the atomic batch does |
| Retries.RetryErasure | src/driver_leaderboard/services/review_service.py:72-92 | Over any sequence of upserts, deletes and moderations on one key table, keeping only the first accepted call of each key gives the same final state |
| Retries.ReplayReturnsFirstAnswer | src/driver_leaderboard/services/review_service.py:77-84 | A later call under a used key gets the first answer apart from the replay flag if its content is the same, a conflict otherwise, and changes nothing |
| Retries.UsedKeyChangesNothing | src/driver_leaderboard/services/moderation_service.py:66-72 | Any request under a recorded key leaves the store as it is; it is accepted exactly when its content is the recorded one |
| Retries.RecordsAreStable | src/driver_leaderboard/services/review_service.py:151-160 | An idempotency record never changes or disappears |
| Retries.KeptKeysAreDistinct | src/driver_leaderboard/services/review_service.py:75-92 | In the run without retries no key occurs twice |
| Retries.RecordedKeys | src/driver_leaderboard/services/review_service.py:151-160 | A key is recorded exactly when one of its calls was accepted |
| Histories.AcceptedWriteIsSound | src/driver_leaderboard/services/review_service.py:86-161 | Every accepted upsert, delete or moderation: histories are only extended, the trip contributes what the request intends, and exactly one event, addressed to the trip's city and driver, is enqueued if and only if that changed something |
| Histories.AcceptedExactlyWhen | src/driver_leaderboard/services/review_service.py:86-99 | Under a fresh key: a rating is accepted if and only if it is in 1..5 and comes from the rider of an existing trip, a delete if and only if the rider's trip has a review, a decision if and only if the review exists; whatever is refused changes nothing |
| Histories.RefusalNamesTheReason | src/driver_leaderboard/services/review_service.py:89-92 | Which error refuses a request: the first check that fails, in the order of the service |
| Histories.NewEventSaysWhat | src/driver_leaderboard/services/outbox_service.py:19-31 | The event of an accepted request names the operation, the review, and the trip's city and driver, is pending, due now and without attempts |
| Histories.OtherRowsAreUntouched | src/driver_leaderboard/services/review_service.py:94-130 | A write touches the row of its own review alone |
| Histories.UpsertedRow | src/driver_leaderboard/services/review_service.py:96-130 | The row an upsert leaves: the same rating keeps the versions, another one retires the latest and appends the next with the present time; decisions and exclusion stay |
| Histories.UpsertAnswerIsTrue | src/driver_leaderboard/services/review_service.py:142-161 | The answer of an upsert gives the number, rating and time of the row's latest version, and "created" exactly when the trip had no review |
| Histories.DeleteAnswerIsTrue | src/driver_leaderboard/services/review_service.py:194-225 | A delete keeps an earlier deletion time, answers whether it was the one to delete, and leaves versions and decisions alone |
| Histories.DecisionAnswerIsTrue | src/driver_leaderboard/services/moderation_service.py:83-137 | The logged decision and the answer agree; "changed" means that the exclusion flag flipped |
| Histories.UpsertFlagsAreExact | src/driver_leaderboard/services/review_service.py:107-114 | The flags the upsert compares are true exactly when the contribution changes, in every combination of new, deleted, excluded, same and different rating |
| Histories.DeleteIsSound | src/driver_leaderboard/services/review_service.py:194-206 | A delete enqueues one event exactly when the review contributed |
| Histories.ModerateIsSound | src/driver_leaderboard/services/moderation_service.py:83-116 | A decision enqueues one event exactly when it changes the contribution |
| Histories.RatingExtendsHistory | src/driver_leaderboard/services/review_service.py:115-130 | Versions stay 1..n with only the last one current, neighbours with different ratings, earlier ratings unaltered |
| Histories.DecisionExtendsLog | src/driver_leaderboard/services/moderation_service.py:87-106 | Decisions stay 1..m, the exclusion flag is the fold of the log, and the new decision records whether it flipped it |
| Histories.ReaderSeesWrite | src/driver_leaderboard/services/review_service.py:228-248 | A reader finds what an accepted upsert answered, and nothing after a delete |
| System.RunKeepsStructure | tools/audit/checks.py:30-49 | Over any run all structural invariants hold, and what is append-only only grows: versions, decisions, ledger, idempotency records, expiration runs, generation entries |
| System.StepKeepsStructure | tools/audit/checks.py:151-222 | One committed transaction of any service keeps the audit's structural rules: version and decision logs, one active rebuild per city, job and generation status in agreement, outbox and expiration rows |
| System.StepIsService | src/driver_leaderboard/services/worker_service.py:36-109 | Each transaction of the state machine is what one service commits, so the methods of `Services.Database` are its steps |
| Leaderboard.PublishIsSound | src/driver_leaderboard/services/leaderboard_service.py:24-82 | A publication appends the next version with the ranking of the live scores, supersedes the old one and is the city's only published generation |
| Outcomes.PublicationFields | src/driver_leaderboard/services/leaderboard_service.py:29-82 | A publication field by field: the next version, the time of the latest row of the city, the publication time and the best board; the old publication superseded and nothing else changed |
| Leaderboard.VersionsHaveNoGaps | src/driver_leaderboard/services/leaderboard_service.py:29-37 | A city's versions are 1..max without gaps |
| Leaderboard.VersionsIncrease | src/driver_leaderboard/services/leaderboard_service.py:29-37 | A later generation of a city has a larger version |
| Leaderboard.PublishedIsUnique | src/driver_leaderboard/services/leaderboard_service.py:88-93 | Where at most one generation of a city is published, looking it up finds it |
| System.PublicationsMoveForward | src/driver_leaderboard/services/leaderboard_service.py:29-82 | Over any run, from any state to any later one: at most one generation of a city is published, what was built keeps its version and entries, nothing superseded or discarded is published again, and a published version never goes down |
| Leaderboard.EvolutionIsTransitive | src/driver_leaderboard/services/leaderboard_service.py:70-82 | The step from one transaction to many: if each of two transitions keeps content, allows only the status changes of the code and moves publications forward, so does their composition |
| Leaderboard.LatestSourceIsMax | src/driver_leaderboard/services/leaderboard_service.py:39-41 | The recorded source time is the latest calculation time among the city's score rows, and missing exactly when there are none |
| Leaderboard.RankingsAgree | src/driver_leaderboard/services/rebuild_service.py:129-155 | The live and the rebuild ranking list the same rows on equal scores |
| Leaderboard.LiveRowsFrame | src/driver_leaderboard/services/leaderboard_service.py:46-57 | A city's ranking depends on sums, counts and eligibility of its own drivers alone |
| Leaderboard.LiveRowsAreEligible | src/driver_leaderboard/services/leaderboard_service.py:47-50 | The ranking query finds exactly the eligible rows of the city |
| Ranking.AboveIsStrictTotalOrder | src/driver_leaderboard/services/leaderboard_service.py:51-55 | The listing order is a strict total order on drivers with different stable IDs |
| Ranking.AboveIsBeats | src/driver_leaderboard/services/leaderboard_service.py:51-55 | It is the order of the source in whole numbers: larger average by cross products, then more reviews, then the smaller stable ID |
| Outcomes.LiveBoardIsBest | src/driver_leaderboard/services/leaderboard_service.py:46-67 | The ranking of a score table is the best 100 of the drivers with 20 reviews or more (or all of them), numbered from 1, with their own sums and counts, each beating the next and everybody left out in average, then count, then stable ID |
| Outcomes.EveryReachableBoardIsBest | src/driver_leaderboard/services/leaderboard_service.py:46-82 | In every reachable state the published board of a city published since its last bare rescore is that board of its live scores |
| Ranking.RankedIsSorted | src/driver_leaderboard/services/leaderboard_service.py:46-57 | Ordering lists the same rows, each above the next |
| Ranking.RankedIsUnique | src/driver_leaderboard/services/leaderboard_service.py:46-57 | Any descending listing of the same rows is that listing, so the input order is irrelevant |
| Ranking.BoardIsTopOfRows | src/driver_leaderboard/services/leaderboard_service.py:46-67 | The board has min(100, eligible) entries with ranks 1..n, each entry a row, and every omitted row ranks below every entry |
| Display.TwoStageRoundingIsExact | src/driver_leaderboard/services/leaderboard_service.py:100-104 | Dividing at 28 significant digits and then rounding half up to four places is half-up rounding of the exact fraction, for averages in 1..5 and any count below 10^23 |
| Display.DisplayedIsAccurate | src/driver_leaderboard/services/scoring_service.py:128-133 | A displayed average lies in 1..5 and is off by at most 0.00005 |
| Display.DisplayedIsMonotone | src/driver_leaderboard/services/leaderboard_service.py:100-104 | A larger exact average is never displayed as a smaller one |
| Readable.ShownFields | src/driver_leaderboard/services/leaderboard_service.py:98-112 | One shown line: the entry's rank, driver and count, the driver's stable ID, and the exact average rounded half up |
| Readable.ShownBoardIsFaithful | src/driver_leaderboard/services/leaderboard_service.py:85-123 | What a reader is shown of a stored board: ranks 1..n, the drivers with their stable IDs, true counts, accurate averages that never increase going down |
| Readable.EveryReachableBoardIsReadable | src/driver_leaderboard/models/entities.py:168-181 | In every reachable state every generation has at most 100 entries, ranks 1..n, no driver twice, eligible counts, averages in 1..5 that never increase |
| Rebuild.PromoteIsSound | src/driver_leaderboard/services/rebuild_service.py:254-257 | Publishing the candidate leaves it the only published generation, newer than its base |
| Rebuild.NoChangesMeansSameBoard | src/driver_leaderboard/services/rebuild_service.py:190-218 | The comparison counts no added, removed, moved or rescored entry if and only if the candidate board equals the base board; additions and removals account for the difference in length |
| Rebuild.NoMismatchMeansLiveAgrees | src/driver_leaderboard/services/rebuild_service.py:191-198 | No live mismatch is counted if and only if every candidate equals the live row of its driver |
| Rebuild.SummaryCountsChanges | src/driver_leaderboard/services/rebuild_service.py:190-218 | Each field of the comparison on its own: drivers entering, leaving, at another rank, with another sum or count; candidates without an equal live row; and the two sizes |
| Outcomes.StagingFields | src/driver_leaderboard/services/rebuild_service.py:54-162 | A staged rebuild field by field: the ready job with its city, time, base and candidates, and the candidate generation with the next version |
| Outcomes.StagedBoardIsBest | src/driver_leaderboard/services/rebuild_service.py:129-156 | The candidate generation holds the board that the staged scores call for |
| Outcomes.StagingRefusals | src/driver_leaderboard/services/rebuild_service.py:54-71 | Which error refuses a rebuild: no city, no published generation, another one running or ready |
| Outcomes.InstallFields | src/driver_leaderboard/services/rebuild_service.py:238-260 | An installed rebuild field by field: its rows with their windows replace the city's, the base is superseded, the candidate published now, the job closed |
| Outcomes.InstallRefusals | src/driver_leaderboard/services/rebuild_service.py:221-236 | Which error refuses the publication of a rebuild, in the order of the checks |
| Outcomes.DiscardFields | src/driver_leaderboard/services/rebuild_service.py:267-277 | A discarded rebuild field by field, and its refusals |
| Rebuild.StagingIsSound | src/driver_leaderboard/services/rebuild_service.py:112-128 | A candidate gets the next version and changes no publication |
| Rebuild.DropIsSound | src/driver_leaderboard/services/rebuild_service.py:267-277 | Discarding a candidate changes no publication and retires it for ever |
| Outbox.StaleFailureReopens | src/driver_leaderboard/services/worker_service.py:112-130 | The audit rule "a ledger row belongs to a completed event" survives a failure report if and only if no reported event has a ledger row |
| Outbox.LedgeredEventsAreSilent | src/driver_leaderboard/services/worker_service.py:72-91 | A batch has the scores, generations and ledger of the same batch without its ledgered events; one that claims no other changes none of them |
| Outbox.BatchPublishesAffectedCities | src/driver_leaderboard/services/worker_service.py:78-88 | A batch publishes anew exactly in the cities of its unledgered events and touches the generations of no other city |
| Outbox.CityOrderIsAffected | src/driver_leaderboard/services/worker_service.py:72-75 | The cities met while grouping are exactly those of the affected drivers, each once |
| Outbox.CitiesInOrderMet | src/driver_leaderboard/services/worker_service.py:72-78 | Cities are worked on in the order in which the claimed events first meet them |
| Outbox.LatestExpirationBounds | src/driver_leaderboard/services/worker_service.py:56-62 | The maximum that bounds the processing time is attained and is not below any expiration of the cities |
| Outbox.BatchTimeIsNowOrLater | src/driver_leaderboard/services/worker_service.py:43-62 | An explicit processing time is taken as it is; the worker's own is not before the present nor before any expiration of a claimed city, and is one of these |
| Outbox.StagingTimeIsNowOrLater | src/driver_leaderboard/services/rebuild_service.py:49-53 | The same for the time of a rebuild and its city |
| Outbox.ClaimTakesOldest | src/driver_leaderboard/services/worker_service.py:44-53 | A claim takes pending events whose time has come and that nobody has locked, oldest first, and leaves one only when the limit is reached |
| Outbox.FailureIsRecorded | src/driver_leaderboard/services/worker_service.py:123-129 | A recorded failure field by field: one more attempt, the error cut at 1000 characters, failed from the fifth attempt on, otherwise pending again 1, 2, 4 or 8 seconds later |
| Outcomes.BatchFields | src/driver_leaderboard/services/worker_service.py:64-95 | A committed batch field by field: which rows are recalculated and how, which events are completed, which ledger rows are added at which time |
| Outbox.BatchKeepsOutbox | src/driver_leaderboard/services/worker_service.py:89-95 | A batch completes exactly its events, adds exactly their ledger rows, with the batch time, never alters an old one, and keeps the retry machine valid |
| Outbox.Claim | src/driver_leaderboard/services/worker_service.py:44-53 | At most `limit` distinct due events that nobody else has locked; all of them if there are fewer |
| Outbox.BatchKeepsLedgerAudit | src/driver_leaderboard/services/worker_service.py:89-95 | A batch keeps the audit rule that a ledger row belongs to a completed event |
| Delivery.StepKeepsLedgerAuditIff | tools/audit/checks.py:254-258 | Under any transaction that rule survives if and only if it is not a failure report naming a ledgered event |
| Delivery.LedgerAuditHoldsIff | tools/audit/checks.py:254-258 | Over any run from the empty database it holds throughout if and only if no failure report ever names a ledgered event |
| Delivery.RetryHistory | src/driver_leaderboard/services/worker_service.py:112-130 | While an event has no ledger row its attempts are exactly the recorded failures, it becomes terminal with the fifth, and its next attempt is due 1, 2, 4 or 8 seconds after the latest, under any interleaving |
| Delivery.DelaysAreOneTwoFourEight | src/driver_leaderboard/services/worker_service.py:30-33 | The four delays |
| Delivery.EveryReachableOutboxIsValid | tools/audit/checks.py:249-262 | No committed event is processing; pending means fewer than five attempts, failed at least five, completed has a ledger row and a time |
| Audit.EveryReachableScoreIsValid | tools/audit/checks.py:60-72 | Every reachable score row has a 90-day window, eligibility from its count, an average in 1..5, and its driver's city when trips match drivers' cities |
| Coverage.ExpirationIsExact | src/driver_leaderboard/services/expiration_service.py:16-70 | An expiration leaves every driver of the city exact at its time and no other row changed; its counter is the number of drivers whose sum, count or eligibility differ, and it publishes one generation if and only if that is positive |
| Coverage.RepeatedExpirationIsSilent | src/driver_leaderboard/services/expiration_service.py:17-24 | Repeating the same city and time, whatever happened in between, changes nothing |
| Outcomes.ExpirationReplies | src/driver_leaderboard/services/expiration_service.py:17-25 | What an expiration answers: the earlier run of this city and time if and only if there is one, the missing city, or its own number |
| Outcomes.AffectedByExpiration | src/driver_leaderboard/services/expiration_service.py:40-61 | A driver counts as affected without a row before, or with another sum, count or eligibility |
| Coverage.ExpirationCoversIff | tools/audit/checks.py:236-243 | After an expiration no score of the city is older than any of its runs if and only if no earlier run had a later time (unless the city has no driver) and every row it does not move is recent enough |
| Coverage.InstallCoversIff | tools/audit/checks.py:236-243 | After an install the same holds if and only if no run of the city is later than the job's time, unless the job has no driver |
| Coverage.RescoreCoversIff | src/driver_leaderboard/services/scoring_service.py:84-103 | After a bare rescore the same holds if and only if its time is not before any run of the city, unless the city has no driver |
| Coverage.WorkCoversIff | src/driver_leaderboard/services/worker_service.py:56-87 | A batch at any processing time keeps it if and only if it recalculates nothing in the city or its time is not before any run of the city |
| Coverage.StepCoversIff | tools/audit/checks.py:236-243 | Under any transaction a covered city stays covered if and only if a condition on the state before it holds: what writes its rows does so at a time not before its runs, and an expiration is not later than the rows it does not move |
| Coverage.RunCoversIff | tools/audit/checks.py:236-243 | Over any run from the empty database a city is covered throughout if and only if every transaction meets that condition |
| Coverage.WorkKeepsCovered | src/driver_leaderboard/services/worker_service.py:56-62 | The worker's own choice of processing time never breaks it |
| Witnesses.EarlierExpirationUncovers | tools/audit/checks.py:236-243 | Two expirations, the second with an earlier time, break it |
| Witnesses.RescoreAfterFutureExpirationUncovers | tools/iteration/cli.py:115-122 | So does a bare rescore at the present time after an expiration in the future |
| Candidates.StepKeepsCandidateAuditIff | tools/audit/checks.py:195-215 | Under any transaction the rule that ready candidates equal the current aggregates survives if and only if it is not a new, acceptable request that changes the contribution of a trip counted, in its window, by a ready job |
| Candidates.CandidateAuditHoldsIff | tools/audit/checks.py:195-215 | Over any run from the empty database it holds throughout if and only if no such request is made |
| Candidates.WriteKeepsCandidatesIff | src/driver_leaderboard/services/rebuild_service.py:73-109 | One job: an accepted request leaves its candidates exact if and only if it does not change a trip the job has counted |
| Candidates.AggregateChangesIff | src/driver_leaderboard/services/scoring_service.py:35-52 | When one trip's contribution may have changed, an aggregate changes if and only if it looks at that trip and the contribution did change |
| Witnesses.CorrectionBreaksCandidateAudit | tools/audit/checks.py:195-215 | A rating corrected while a rebuild is ready breaks the rule: write, batch, staging, write |
| Freshness.StepIsDatedIff | tools/audit/checks.py:146-150 | Under any transaction the rule that published generations carry publication and source times survives if and only if it does not publish, on its own, a city without any score row |
| Freshness.FreshnessHoldsIff | tools/audit/checks.py:146-150 | Over any run from the empty database it holds throughout if and only if no such publication is made |
| Witnesses.UnscoredPublicationIsNotDated | src/driver_leaderboard/services/leaderboard_service.py:39-41 | Publishing a city that was never scored breaks it |
| Answers.EveryReachableRecordPointsAtItsResult | tools/audit/checks.py:50-54 | In every reachable state every idempotency record belongs to its operation, and the version, deletion target or decision it names exists with that content |
| Answers.NewRecordPoints | src/driver_leaderboard/services/review_service.py:142-161 | An accepted request records what it has just written |
| Progress.StepScoresIff | tools/audit/checks.py:55-59 | Every driver of a city has a score row after a transaction if and only if they all had one, or it scores the whole city, or it is a batch that brings the missing ones |
| Progress.ScoredForEver | tools/audit/checks.py:55-59 | Once every driver of a city has a score row, they always have |
| Progress.CityIsPublishedIff | tools/audit/checks.py:91-98 | In every reachable state a city has exactly one published generation if and only if some transaction so far has published it |
| Progress.StepPublishesIff | src/driver_leaderboard/services/leaderboard_service.py:70-82 | A city has a published generation after a transaction if and only if it had one or the transaction publishes it; any other transaction leaves its publication alone |
| Witnesses.LateReportBreaksLedgerAudit | tools/audit/checks.py:254-258 | A write, a batch and a late failure report leave a ledgered event that is not completed |
| Expiration.UnchangedAggregatesKeepBoard | src/driver_leaderboard/services/expiration_service.py:40-66 | Moving the windows without changing an aggregate leaves the ranking as it was |
| Expiration.FirstScoresCountAsChanged | src/driver_leaderboard/services/expiration_service.py:40-66 | A city with drivers and no score rows counts as changed, so its first expiration publishes |
| Scoring.CityConservation | src/driver_leaderboard/services/scoring_service.py:95-103 | Counting a city driver by driver finds all in-window reviews of the city except those of trips by drivers of other cities |
| Scoring.OutsideIsExactIff | src/driver_leaderboard/services/scoring_service.py:104-124 | The reported number of reviews outside the window is never negative, and right if and only if no counted trip was made by a driver of another city |
| Scoring.AggregateRange | src/driver_leaderboard/services/scoring_service.py:27-52 | Every aggregate is an average in 1..5 |
| Scoring.AggregateFrame | src/driver_leaderboard/services/scoring_service.py:43-50 | Only contributions of the driver's own trips in the city matter to an aggregate |
| Scoring.AggregateCountsTrips | src/driver_leaderboard/services/scoring_service.py:35-52 | An aggregate is the number of the driver's trips in the city completed from the first to the last instant of the window, both included, that contribute, and the sum of what they contribute |
| Scoring.NothingCountedIsZero | src/driver_leaderboard/services/scoring_service.py:36-36 | Without such a trip both are zero |
| Outcomes.RowFromReviews | src/driver_leaderboard/services/scoring_service.py:55-81 | A recalculated row, from the reviews alone: over the trips of the last 90 days whose review is neither deleted nor excluded, the count and the sum of the latest ratings; eligible from 20 on; with its window and time |
| Outcomes.CandidateFromReviews | src/driver_leaderboard/services/rebuild_service.py:73-109 | A candidate row is counted the same way at the job's time |
| Histories.ContributionIsLatestRating | src/driver_leaderboard/services/scoring_service.py:38-49 | A trip contributes the latest rating of its review unless that is deleted or excluded |
| Caching.CachedBoardIsGenuine | src/driver_leaderboard/services/cache_service.py:78-92 | With readers and refreshers interleaved between their database read and cache write, and the cache failing or losing entries at any time: every cached payload renders a generation of that city that is or was published, not newer than the current one; never a candidate or discarded one |
| Caching.CacheHoldsPublishedBoards | src/driver_leaderboard/services/cache_service.py:78-92 | Every payload in the cache or on its way there was the published board of its city in some committed state |
| Caching.StepsOfTheCache | src/driver_leaderboard/services/cache_service.py:47-92 | The four kinds of step of the protocol, field by field: commit, read, write back, loss of an entry |
| Caching.ReaderGetsPublished | src/driver_leaderboard/services/leaderboard_service.py:85-123 | A reader gets the city's published generation with its number, version, times and entries, and nothing if and only if there is none |
| Services.Database.UpsertReview | src/driver_leaderboard/services/review_service.py:64-161 | The step-by-step upsert has the effect and answer of `Writes.Submit`, also when a constraint undoes it |
| Services.Database.Rerate | src/driver_leaderboard/services/review_service.py:101-130 | Reviving a review and replacing its current version |
| Services.Database.DeleteReview | src/driver_leaderboard/services/review_service.py:164-225 | The delete has the effect and answer of `Writes.Submit` |
| Services.Database.ModerateReview | src/driver_leaderboard/services/moderation_service.py:50-137 | The moderation has the effect and answer of `Writes.Submit` |
| Services.Database.EnqueueContributionChange | src/driver_leaderboard/services/outbox_service.py:10-32 | One pending event, due now, addressed to the trip's city and driver, is appended |
| Services.Database.RecalculateDriverScore | src/driver_leaderboard/services/scoring_service.py:55-81 | Exactly one row is replaced, by the aggregate of the 90 days up to the given time |
| Services.Database.BuildAndPublishGeneration | src/driver_leaderboard/services/leaderboard_service.py:24-82 | The building, ranked loop, retiring and publishing add up to `Leaderboard.Publish` |
| Services.Database.EntriesOf | src/driver_leaderboard/services/leaderboard_service.py:58-67 | The loop numbers the ranked rows 1..n |
| Services.Database.RunCityExpiration | src/driver_leaderboard/services/expiration_service.py:13-75 | The loop over drivers with its counter does what `Expiration.RunExpiration` says |
| Services.Database.ProcessBatchOnce | src/driver_leaderboard/services/worker_service.py:36-109 | Claim, grouping, loops over cities and drivers, completion and ledger commit as `Outbox.ProcessBatch`, with the true counts in the result; a failure after the claim, after the refresh or at the commit leaves the database as it was |
| Services.Database.GroupByCity | src/driver_leaderboard/services/worker_service.py:72-75 | The grouping holds exactly the affected drivers, and cities in order of first appearance |
| Services.Database.RefreshCities | src/driver_leaderboard/services/worker_service.py:76-88 | Recalculating and publishing city by city equals recalculating everything first; each affected driver is counted once |
| Services.Database.CompleteEvents | src/driver_leaderboard/services/worker_service.py:89-94 | The claimed events are completed and get a ledger row unless they have one |
| Services.Database.RecordBatchFailure | src/driver_leaderboard/services/worker_service.py:112-130 | Exactly the reported events get one more attempt, the truncated error and their next state |
| Services.Database.DrainOutbox | src/driver_leaderboard/services/worker_service.py:133-144 | The loop ends at the first round that claims nothing; state and totals are those of its rounds |
| Services.Database.StartRebuild | src/driver_leaderboard/services/rebuild_service.py:46-162 | The staged job, candidate generation and comparison are those of `Rebuild.StartRebuild` at the explicit time or the bounded current one |
| Services.Database.StageScores | src/driver_leaderboard/services/rebuild_service.py:73-109 | The loop recomputes every driver of the city from the reviews and touches no live row |
| Services.Database.PublishRebuild | src/driver_leaderboard/services/rebuild_service.py:221-264 | Checks, row replacement and status changes do what `Rebuild.PublishRebuild` says |
| Services.Database.DiscardRebuild | src/driver_leaderboard/services/rebuild_service.py:267-277 | As `Rebuild.DiscardRebuild` |
| Services.Database.RebuildCityScores | src/driver_leaderboard/services/scoring_service.py:84-125 | The city's rows become fresh recalculations; the eligible and ineligible counts are those of its drivers, contributing plus outside the number of all contributing reviews, and each of the latter is right when trips match their drivers' cities |
| Services.Database.GetPublishedLeaderboard | src/driver_leaderboard/services/leaderboard_service.py:85-123 | The reader gets the rendering of the city's published generation, or nothing if there is none |
| CacheService.Cache.GetCachedOrAuthoritative | src/driver_leaderboard/services/cache_service.py:78-86 | A hit is answered from the cache alone; anything else is the authoritative board, and the cache takes the read and write-back steps of the protocol |
| CacheService.Cache.RefreshCity | src/driver_leaderboard/services/cache_service.py:89-92 | A refresh takes the protocol's two steps without a read of the cache, and raises when the city has no published board |
| CacheService.Cache.Read | src/driver_leaderboard/services/cache_service.py:47-59 | An enabled read counts once as hit, miss or error; a disabled or failed one finds nothing |
| CacheService.Cache.Write | src/driver_leaderboard/services/cache_service.py:62-75 | An enabled, reachable write replaces the city's entry and no other |

## Left out

- Isolation: in `System` every transaction is atomic. `ReadCommitted` interleaves statements of worker batches, authoritative writes and failure reports; expirations, rebuilds and boards are not part of it, and a row is always written back even when its values did not change.
- Agreement.EveryReachableBoardAgrees: says nothing about a city between a rescore that commits without publishing and the city's next publication, because there the property can fail (`Witnesses.BareRescorePartsBoardFromScores`); `Agreement.BareRescoreAgreesIff` gives the exact condition.
- SQL average: compared as an exact fraction; PostgreSQL's numeric division keeps a limited number of digits, so two fractions that differ only beyond them would tie there.
- Request hashing: SHA-256 over canonical JSON is taken to be injective on the request's fields, and the operation is part of the request because the three payloads have different fields.
- Identifiers: a new row's ID is its position in its table; uniqueness and freshness are all that is used of UUIDs. Bodies therefore carry no separate decision ID.
- Order of claims: due events are claimed in the order of their creation; the order of events with equal creation time is that of insertion. The state machine allows any claim of due events.
- Stable IDs: a stable ID is its position in the database's collation, and drivers are listed in that order.
- Services.Database.DrainOutbox: the published cities are a set, not a sorted list of strings.
- Services.Database.ProcessBatchOnce: an exception can end a batch after the claim, after the refresh of the cities or at the commit; one in between takes the same rollback path. The cache refresh after the commit is a step of `Caching`.
- Services.Database.UpsertReview: the rating check constraint is evaluated when the new version would be flushed; row locks and the advisory lock are covered by atomicity.
- ORM objects: rows are values in tables; aliasing of session objects is not modelled.
- Moderation actions other than exclude and restore: the check constraint rejects them, and the model's action type has only the two.
- Column limits: 32-bit counters and text lengths other than the 1000 characters of an error.
- Timestamps that nobody compares: `created_at` of rows and `completed_at` of expiration runs.
- Clocks, UUIDs, randomness and failures of the network are inputs.
- Redis expiry as a time bound: an entry may vanish at any moment, and a slow reader may write an old board late, so there is no bound of 120 seconds to prove.
- HTTP routes, schemas, settings, logging, metrics, Docker and Alembic scripts, benchmarks, and the seed and workload generators: plumbing and measurement.
