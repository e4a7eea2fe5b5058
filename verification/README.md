# Verified model of the ledger's event log, projections and batch tooling

The project models the parts of the ledger that keep an authoritative event log
and everything derived from it consistent, and proves what they promise:

- **Appending** (`EventStore`, `AppendProtocol`, `AppendGuarantees`,
  `AppendKinds`, `AppendVerdicts`, `AppendOutcomes`, `AppendRetry`,
  `Aggregate`): any number of writers append
  version-numbered batches to one aggregate's stream. Every broker interaction
  is one step; acknowledgements get lost, publishes land late, other writers
  and other calls interleave. `AppendRetry.Broker` holds the loops as written,
  and each call is proved to be a run of the protocol.
- **Batch progress** (`BatchAggregate`, `BatchLog`, `BatchTables`, `BatchWorld`,
  `BatchSafety`, `BatchConvergence`, `BatchRecovery`, `BatchOutcomes`,
  `BatchResume`, `BatchSeeding`, `BatchStore`): `Start`, `CompleteArtist`,
  `Reconcile` and pruning write a log, two tables and a cached aggregate in
  different orders, may stop between any two transactions, and may leave
  publishes under way that land later. `BatchStore.Store` holds the methods as
  written, each a run of `BatchWorld`, and the replay path.
- **Snapshots** (`SnapshotLog`, `SnapshotStore`): anchored freeze-frames that
  must agree with full replay while others append and save.
- **Edit distance** (`EditDistance`, `ArtistSuggestions`): the one-row program,
  shortest edit scripts, the metric laws, scores and ranking.
- **Incremental replay** (`ReplayLog`, `ReplayCommand`): checkpoints, the paging
  loops, and equality with a full refold.
- **Smaller parts**: song batch numbering (`SongOrder`, `SongBatches`,
  `SongBackfill`), the queue-update debouncer (`QueueDebounce`), duplicate
  removal (`TitleArtistDedupe`), the number printer and parser (`NumberText`),
  timestamps and the command log (`Timestamps`, `CommandLog`), enrichment
  planning (`Enrichment`), and message subjects (`SubjectTokens`). `Sorting`,
  `Text` and `Options` serve several of them.

`dafny verify dfyconfig.toml` checks everything.

## Where the code does not meet its description

The model follows the code. Each of these is proved, with the exact condition
under which the promise holds and with an input on which it fails.

- A conflict from `AppendWithRetry` is documented as "the batch no longer fits
  the tip". `AppendVerdicts.ConflictDespiteFitIsExact` shows that a call reports
  a conflict for a batch that still fits exactly when a conflict is in hand and
  either the reload does not happen (dead context, failed load) or the five
  attempts are used up. `AppendVerdicts.EarlyConflict` and
  `AppendVerdicts.LateConflict` are runs of the two kinds.
- A closing fact can be lost: `BatchLog.PartialWriteLosesClose` says when,
  `BatchRecovery.ClosingFactLost` is a run, and
  `BatchRecovery.LostCloseStaysLost` shows that the stream is closed after all
  exactly when a publish of the closing fact is under way and anchored at the tip.
- A `Reconcile` that fails between its table write and its appends can leave a
  completion that never reaches the log (`BatchRecovery.ReconcileCrashLosesAFact`);
  when it only timed out, the fact may still land
  (`BatchRecovery.ReconcileTimesOut`). `BatchRecovery.LostOnlyBehindTheTable`
  tells the two apart.
- The log drops blank and repeated artists, the tables count them
  (`BatchTables.BornMatching`, `BatchTables.RepeatedArtist`). Starting a live
  batch again leaves its row healthy, and the fold of its stream, exactly when
  the batch has all the artists named (`BatchTables.RestartWithOthers`,
  `BatchTables.RestartedWithMore`); starting a pruned one again inserts a row
  that is the fold exactly when the call names the stream's artists, each once,
  with its stats, and nobody had finished (`BatchTables.RestartAfterPruning`,
  `BatchTables.RestartedDoneBatch`).
- A full replay of the batches brings pruned ones back, since their streams
  remain: the table is the one before exactly when none had been pruned
  (`BatchStore.Store.ReplayAll`).
- Seeding the stream of a batch older than the log keeps its members and
  forgets who had finished: log and row agree later exactly when those members
  are named again (`BatchSeeding.SeededAgreesWhenNamedAgain`), and since the
  store names unfinished members only, the stream of the finished batch is
  closed exactly when nobody had finished before the seeding
  (`BatchSeeding.SeededClosesUnless`, `BatchSeeding.SeedingForgets`).
- A snapshot anchor is also accepted in a log rebuilt from another history, if
  stream and version under its sequence number agree. The snapshot is right
  exactly when the two logs share the stream up to that version
  (`SnapshotLog.AcceptedAnchorIsRightUnlessRebuilt`,
  `SnapshotLog.RebuiltLogFoolsTheAnchor`).
- An incremental replay is not safe against facts that arrive between its scan
  and its loads (`ReplayLog.LateFactsAreSkipped`,
  `ReplayCommand.Replayer.ReplayWhileAppending`, `ReplayLog.SkippedFact`), and a
  full replay that stops after its reset leaves checkpoints that promise too
  much (`ReplayLog.ResetBreaksPromises`, `ReplayLog.BrokenPromise`).
- A replay saves a position without looking at the old one when the lookup
  fails, although positions are to advance only. One falls exactly when its
  lookup failed and the frontier lies below it (`ReplayLog.WhenPositionsFall`,
  `ReplayLog.FallingPosition`). No replay meets that: the positions it saves are
  those of events, and later frontiers of the type never lie below them
  (`ReplayCommand.Replayer.Replay`, `ReplayCommand.Replayer.ReplayWhileAppending`).
- The planner reads the year off a trimmed date, the aggregate off the date as
  it stands, although the planned fill is to match the event. It does exactly
  when the fill is trimmed, as that of every candidate and label is, and the
  song has a year, or a date that does not start with a space, or no readable
  year (`Enrichment.PlanMatchesTheEvent`, `Enrichment.YearLost`).
- The command log trims the filters of a listing but not what it logs: a
  command is found by its own artist exactly when its artist ID carries no space
  around it (`CommandLog.OwnFilterFinds`).
- The key of a (title, artist) pair is not unique when titles hold a NUL
  (`TitleArtistDedupe.KeysCollide`, `TitleArtistDedupe.CollidingPairs`).
- Negative numbers with a digit count divisible by three are printed with a
  comma behind the sign (`NumberText.NegativeIsGroupedUnless`,
  `NumberText.MinusHundred`).
- The subject decoder passes unescaped reserved runes through
  (`SubjectTokens.DecodedIsEncodedUnlessRaw`, `SubjectTokens.RawStar`).

## Assumptions

- No two events share an ID (they are random UUIDs); a batch may be handed in
  again under its old IDs. The broker orders all publishes of one aggregate,
  compares and sets on the aggregate's last position, and answers a repeated
  message ID inside its deduplication window with the stored copy; a stream load
  is one atomic read. The anchor is the position in the aggregate's own stream.
- Versions and positions are unbounded integers.
- Strings are sequences of runes. A Go string that is not valid UTF-8 is outside
  the model: ranging over it yields the replacement rune for every bad byte, so
  such strings can share a subject token or a key.
- Interference is modelled by methods named `Elsewhere`: their bodies do
  nothing, and their contracts promise only what other processes must respect.
- In `BatchWorld` the artists of a new batch are distinct and not blank; a live
  batch is started again with artists it has, a batch with a stream that never
  had a row with the stream's own artists and stats, and a pruned batch not at
  all. Otherwise row and stream differ at once, or the row's counts are wrong:
  `BatchTables.BornMatching` says so for a new batch,
  `BatchTables.RestartWithOthers` for a live one, and
  `BatchTables.RestartAfterPruning` for a stream without a row, where the row is
  right at first only in the case named there. A publish under way is kept by its batch, its anchor and its fact: event
  IDs only matter inside one append, which `AppendProtocol` covers.
- In `Enrichment` a song's row is what its stream folds to.
- All writers of a stream are the store's own calls or others that respect the
  same checks: what they append carries the stream's ID and type.
- Constant flags describe the outside world, and only the methods that stand for
  it look at them. `reliable` means that neither log nor database nor context
  fails, `quiet` that nobody else writes. For the broker, `steady`
  says that no read of the tip, no load and no context fails and that no publish
  is rejected; `upsets` bounds how many publishes still lose their
  acknowledgement, time out, or land late.

## Model

| member | source | states |
|---|---|---|
| `EventStore.ValidFrom` | internal/eventsourcing/jetstream_store.go:92-106 | a batch that passes the validation loop is numbered on from the expected version |
| `EventStore.ValidationIsExact` | internal/eventsourcing/jetstream_store.go:92-110 | a batch passes the validation iff its versions go on from the expected one, it names a type, and all its events carry the stream's ID and that type |
| `EventStore.MaxVersionIsTip` | internal/eventsourcing/append_retry.go:56-61 | in a numbered stream the highest loaded version is the tip version |
| `EventStore.PositionIs` | internal/eventsourcing/jetstream_store.go:46-67 | a known message ID is acknowledged with the position of its one stored copy |
| `AppendProtocol.HeadIsStored` | internal/eventsourcing/append_retry.go:62-70 | counting the own prefix by event ID on a reload finds exactly the events that are stored |
| `AppendProtocol.StepKeepsInv` | internal/eventsourcing/append_retry.go:27-87 | every step of any writer, acknowledged, lost, delayed or foreign, keeps the invariant that each batch is stored as a prefix in its own slots and every publish in flight is anchored there |
| `AppendProtocol.RunKeepsInv` | internal/eventsourcing/append_retry.go:27-87 | that invariant holds after every run |
| `AppendGuarantees.StreamStaysNumbered` | internal/eventsourcing/jetstream_store.go:46-67 | in every interleaving the versions of a stream are exactly 1..n and no event ID occurs twice |
| `AppendKinds.StreamStaysOfOneKind` | internal/eventsourcing/jetstream_store.go:92-134 | in every reachable state all events of a stream carry its ID and one type |
| `AppendGuarantees.SuccessIsOneSlice` | internal/eventsourcing/append_retry.go:22-23 | success: the batch is one contiguous slice right behind the expected version, each event exactly once, no foreign event counted as ours |
| `AppendGuarantees.OneWinnerPerVersion` | internal/eventsourcing/append_retry.go:27-87 | two calls that expect the same version never both return success |
| `AppendGuarantees.AlwaysExactlyAPrefix` | internal/eventsourcing/jetstream_store.go:68-73 | whatever a call returned, what is stored of its batch is exactly a prefix in those slots and the rest is nowhere |
| `AppendGuarantees.AtMostFiveAppends` | internal/eventsourcing/append_retry.go:9-12 | no run holds more than five Append steps of one call, counted from when its batch was last handed in |
| `AppendVerdicts.AtMostOneMoreLands` | internal/eventsourcing/append_retry.go:18-20 | after a call returned, and unless its batch is handed in again, at most one more event of it can ever land |
| `AppendVerdicts.SettledUnlessNextMayLand` | internal/eventsourcing/append_retry.go:18-20 | what is stored is final if and only if no late publish of the next event is anchored at the tip |
| `AppendVerdicts.VerdictIsExact` | internal/eventsourcing/append_retry.go:71-86 | after a successful reload: success iff everything is stored, another attempt with exactly the missing tail iff it fits the tip and attempts are left, an error otherwise |
| `AppendVerdicts.MisfitIsFinal` | internal/eventsourcing/append_retry.go:74-83 | a call that gives up on a batch that does not fit reports a conflict, and nothing more of the batch is ever stored |
| `AppendVerdicts.ConflictDespiteFitIsExact` | internal/eventsourcing/append_retry.go:41-86 | a call reports a conflict although the rest of its batch fits the tip iff a conflict is in hand and the context is dead, the reload failed or five attempts are used up |
| `AppendVerdicts.LateConflict` | internal/eventsourcing/append_retry.go:22-26 | the documented meaning of a conflict fails on exhausted attempts: a reachable state |
| `AppendVerdicts.EarlyConflict` | internal/eventsourcing/append_retry.go:41-47 | it also fails with attempts left: the second attempt meets the first one's late event, and the context dies before the reload |
| `AppendVerdicts.ConvergesOnNextAttempt` | internal/eventsourcing/append_retry.go:9-12 | from any reload that finds a fitting tail with attempts left, a run in which the broker answers ends in success |
| `AppendVerdicts.ResubmittingIsSafe` | internal/eventsourcing/append_retry.go:56-70 | a batch handed in again under its old IDs is never stored twice, and once it is all stored, as after a success, the next reload returns success |
| `AppendOutcomes.BeginIsExact` | internal/eventsourcing/jetstream_store.go:92-134 | what the checks before the first publish come to: publishing iff tip, version and type agree, a conflict that the loop takes up iff the version is stale, and otherwise an error that ends the call |
| `AppendOutcomes.PublishIsTakenUp` | internal/eventsourcing/jetstream_store.go:292-306 | after every publish but a rejected one the call is acknowledged or to be reconciled: a lost or late acknowledgement is an unknown outcome, a missed anchor a conflict |
| `AppendOutcomes.LostAckIsFound` | internal/eventsourcing/append_retry.go:41-72 | when the stored event was the batch's last and its acknowledgement is lost, whatever the others do meanwhile the next successful reload returns success |
| `AppendRetry.Broker.ValidateBatch` | internal/eventsourcing/jetstream_store.go:92-110 | the validation loop returns the first fault of the batch |
| `AppendRetry.Broker.Append` | internal/eventsourcing/jetstream_store.go:74-159 | Append as written: the checks, then one publish per event; every return leaves the call where the protocol says |
| `AppendRetry.Broker.PublishOne` | internal/eventsourcing/jetstream_store.go:135-159 | one publish is one step: an acknowledgement with the position of the stored copy, or the error that the retry loop takes up; on a broker that nobody disturbs, anchored at the tip, it is acknowledged at the new tip or uses up one of the upsets |
| `AppendRetry.Broker.PublishAll` | internal/eventsourcing/jetstream_store.go:135-159 | the publish loop, each publish anchored to the acknowledgement before it, while others interfere |
| `AppendRetry.Broker.Scan` | internal/eventsourcing/append_retry.go:56-61 | the scan computes the set of stored IDs and the highest version |
| `AppendRetry.Broker.CountHead` | internal/eventsourcing/append_retry.go:62-70 | the head loop counts the leading events whose IDs are stored |
| `AppendRetry.Broker.Reload` | internal/eventsourcing/append_retry.go:41-84 | one reconciliation: returns, or resumes with the protocol's base and tail |
| `AppendRetry.Broker.AppendWithRetry` | internal/eventsourcing/append_retry.go:27-87 | the loop as written is a run of the protocol, for a new batch or one handed in again: with other writers between any two steps success means one slice, failure leaves a prefix, and at most five Appends are made. On a steady, quiet broker with a sound batch and at most four upsets (three when the expected version is stale) it succeeds iff the batch is stored or fits the tip, and otherwise reports a conflict and stores nothing |
| `Aggregate.BaseAggregate.constructor` | internal/eventsourcing/aggregate.go:24-31 | a new aggregate is at version 0 with nothing uncommitted |
| `Aggregate.BaseAggregate.RecordThat` | internal/eventsourcing/aggregate.go:57-67 | records version + 1 for its own stream, or changes nothing; the uncommitted events stay consecutive up to the version |
| `Aggregate.BaseAggregate.SetVersion` | internal/eventsourcing/aggregate.go:45-47 | replay sets the version, and the aggregate stays well-formed iff nothing is uncommitted and the version is not negative, or it did not change |
| `Aggregate.BaseAggregate.ClearUncommittedEvents` | internal/eventsourcing/aggregate.go:53-55 | forgets the committed events and keeps the version |
| `Aggregate.BaseAggregate.Save` | internal/domain/artist/repository.go:114-128 | a successful save leaves the recorded batch as the slice of the stream that ends at the aggregate's version; a failed save keeps the batch and may be repeated; on a steady, quiet broker with at most four upsets a batch that extends the stream is saved |
| `Aggregate.RecordedBatchIsAccepted` | internal/eventsourcing/jetstream_store.go:92-110 | the store's validation accepts a batch of one stream iff it names a type and is numbered on from the expected version, which recorded batches are |
| `BatchAggregate.RecordedCompletes` | internal/domain/batch/batch.go:142-178 | one command completes exactly the named members, records nothing iff none is news, and closes iff it recorded something and everybody is done |
| `BatchAggregate.RecordedIsLegal` | internal/domain/batch/batch.go:139-178 | every fact a command records was recordable in its state |
| `BatchAggregate.BirthIsLegal` | internal/domain/batch/batch.go:55-97 | a birth folds to the distinct non-blank artists, all unfinished, closed iff there are none |
| `BatchAggregate.UniqueKeepsOrder` | internal/domain/batch/batch.go:55-97 | the artists of a birth come in the order of their first mention |
| `BatchAggregate.NoSecondCompletion` | internal/domain/batch/batch.go:139-146 | a legal log never completes one artist twice |
| `BatchAggregate.ClosingIsLast` | internal/domain/batch/batch.go:160-178 | nothing follows the closing fact in a legal log |
| `BatchAggregate.AllDone` | internal/domain/batch/batch.go:115-119 | the count-based end of the lifecycle is: all members are done |
| `BatchLog.StoredFactsAreLegal` | internal/batchprogress/store.go:252-323 | in every interleaving of partial, lost and late writes by writers with arbitrarily old copies, the stored facts were true when they landed |
| `BatchLog.NoDuplicateCompletions` | internal/batchprogress/store.go:252-323 | no run ever stores two completions of one artist, nor anything after the closing fact |
| `BatchLog.PartialWriteLosesClose` | internal/batchprogress/store.go:303-309 | a partly stored command leaves the batch finished but not closed iff exactly the closing fact is missing |
| `BatchLog.LostCloseIsNeverRecorded` | internal/batchprogress/store.go:281-309 | a finished batch records nothing, so no later command records the closing fact |
| `BatchResume.CompletionsResume` | internal/batchprogress/store.go:265-304 | re-recording after part of the completions were stored records exactly the others |
| `BatchResume.RecordedResumes` | internal/batchprogress/store.go:265-310 | the reload path records the missing facts, or nothing once all completions are there |
| `BatchResume.OneOutcome` | internal/batchprogress/store.go:265-323 | a failed cached append followed by the reload path stores a prefix of the command, and exactly what one attempt with one outcome would |
| `BatchResume.OneLateFact` | internal/batchprogress/store.go:303-320 | what the two attempts leave under way is the next fact of that one outcome, whichever attempt published it |
| `BatchResume.FullCopy` | internal/batchprogress/store.go:263-289 | a cached copy that is as long as the stream is the stream's fold, which is what a successful cached append needs |
| `BatchResume.OldNewsStaysOld` | internal/batchprogress/store.go:276-278 | when a stale cached copy has nothing to record, neither has the whole stream |
| `BatchTables.BornHealthy` | internal/batchprogress/store.go:104-131 | a batch is inserted with true counts iff its artists are distinct |
| `BatchTables.BornMatching` | internal/batchprogress/store.go:83-145 | the new row equals the fold of the new stream iff the artists are distinct and none is blank |
| `BatchTables.RepeatedArtist` | internal/batchprogress/store.go:104-131 | a batch of one artist named twice is born with a row that can never be done by its count |
| `BatchTables.RestartKeepsRow` | internal/batchprogress/store.go:104-131 | starting a live batch again with artists it has changes nothing |
| `BatchTables.RestartWithOthers` | internal/batchprogress/store.go:97-131 | starting a live batch again, with any artists, leaves its row healthy, and the fold if it was that, iff the batch has them all |
| `BatchTables.RestartedWithMore` | internal/batchprogress/store.go:97-131 | a batch of one artist started again with two: when the first finishes the row is done and the second is not |
| `BatchTables.RestartAfterPruning` | internal/batchprogress/store.go:97-131 | a row inserted for a stream without one is the fold iff the call names exactly the stream's artists, each once, with its stats, and none has finished |
| `BatchTables.RestartedDoneBatch` | internal/batchprogress/store.go:97-131 | the stream of a finished batch of one artist, and the unfinished row that a restart after pruning inserts next to it |
| `BatchTables.ProjectingAMatchChangesNothing` | internal/batchprogress/store.go:531-573 | projecting a row that already is the fold is a no-op |
| `BatchTables.ProjectedMatchesUnless` | internal/batchprogress/store.go:531-573 | projecting an aggregate makes its row the fold iff there was no row or the row has no member that the aggregate lacks; no other row changes |
| `BatchTables.MarkKeepsOk` | internal/batchprogress/store.go:205-220 | marking a member keeps total, completed and done true to the member rows |
| `BatchTables.FlipsKeepOk` | internal/batchprogress/store.go:458-488 | so does the write transaction of Reconcile |
| `BatchTables.NothingLeftToFlip` | internal/batchprogress/store.go:428-488 | after it the same selection is empty |
| `BatchSafety.StepKeepsInv` | internal/batchprogress/store.go:83-220 | every step of interleaved, crashing and failing operations, and of facts that land late, keeps the invariant that ties rows, streams and operations under way |
| `BatchSafety.StepKeepsTruth` | internal/batchprogress/store.go:252-323 | every such step keeps the streams legal: stored facts were true when they landed, and so will be whatever is under way |
| `BatchSafety.RunKeepsInv` | internal/batchprogress/store.go:83-509 | both hold in every reachable state |
| `BatchConvergence.CountsAlwaysTrue` | internal/batchprogress/store.go:406-423 | in every reachable state completed counts the done members and a row is done iff all are |
| `BatchConvergence.DoneNeverReverts` | internal/batchprogress/store.go:205-220 | no step takes a finished member or a done batch back, or changes a batch's members |
| `BatchConvergence.RunAgrees` | internal/batchprogress/store.go:160-220 | log and tables differ only where an operation is under way or CompleteArtist failed half way, and completions under way are of such members |
| `BatchConvergence.QuietTablesAreTheFold` | internal/batchprogress/store.go:83-509 | at every quiet point of a failure-free run of interleaved operations each surviving row is the fold of its stream, and projecting the stream changes nothing |
| `BatchRecovery.SmoothRunsCloseTheirBatches` | internal/domain/batch/batch.go:160-178 | in a failure-free run a stream carries its closing fact iff every member finished |
| `BatchRecovery.OneReconcileHeals` | internal/batchprogress/store.go:156-159 | after any faults in Start and CompleteArtist, with late facts before, during and after, one Reconcile that runs through makes every row the fold again, once the artists left behind are no longer pending |
| `BatchRecovery.ReconcileRunsThrough` | internal/batchprogress/store.go:428-509 | from any selection there is an undisturbed rest of the Reconcile that ends it |
| `BatchRecovery.NothingSelectedNothingToHeal` | internal/batchprogress/store.go:428-456 | if that Reconcile would select nothing, the rows already are the folds |
| `BatchRecovery.HealingAddsNoFact` | internal/batchprogress/store.go:490-509 | when everything a Reconcile selects of a batch is in the log already, it adds no fact to the batch's stream |
| `BatchRecovery.CrashIsHealedWithoutNewFact` | internal/batchprogress/store.go:156-178 | after crashes of CompleteArtist between append and table write, a Reconcile that selects only their members of a batch adds no fact to its stream |
| `BatchRecovery.LoggedOnce` | internal/batchprogress/store.go:252-323 | in any run, whatever fails or lands late: once a completion is in the log, nothing ever logs it again |
| `BatchRecovery.SecondReconcileFlipsNothing` | internal/batchprogress/store.go:428-509 | a second Reconcile with unchanged fetch statuses selects nothing |
| `BatchRecovery.LostOnlyBehindTheTable` | internal/batchprogress/store.go:425-509 | at a quiet point a completion missing from the log can still reach it iff the table shows the member unfinished, or a publish of it is under way and anchored at the tip |
| `BatchRecovery.ReconcileCrashLosesAFact` | internal/batchprogress/store.go:456-509 | a run in which Reconcile stops between its write and its append, leaving a done row whose stream is not done, with nothing under way, which a replay would take back |
| `BatchRecovery.ReconcileTimesOut` | internal/batchprogress/store.go:490-509 | a run in which its append only timed out, so that the fact may still land |
| `BatchRecovery.LostCloseStaysLost` | internal/batchprogress/store.go:303-309 | a finished batch without its closing fact is closed after all iff a publish of it is under way and anchored at the tip |
| `BatchRecovery.ClosingFactLost` | internal/batchprogress/store.go:303-309 | a run that ends in such a batch with nothing under way |
| `BatchOutcomes.LifeGoesOn` | internal/batchprogress/store.go:83-509 | from one point of a store's life to any later one: members stay members and done members done unless the row is pruned, and the log keeps knowing and saying what it said |
| `BatchSeeding.SeededStreamKnows` | internal/batchprogress/store.go:355-404 | after seeding and any commands the log knows exactly the named members as done, and is closed iff all are |
| `BatchSeeding.SeededIsCurrentUnless` | internal/batchprogress/store.go:355-404 | a seeded stream folds to the row it was seeded from iff nobody had finished and no member is blank |
| `BatchSeeding.SeededAgreesWhenNamedAgain` | internal/batchprogress/store.go:355-404 | after any further commands row and log agree iff every member that had finished before the seeding was named again |
| `BatchSeeding.SeededClosesUnless` | internal/batchprogress/store.go:355-404 | when the commands named the unfinished members the row is done, and the stream is closed iff nobody had finished before the seeding |
| `BatchSeeding.SeedingForgets` | internal/batchprogress/store.go:355-404 | a row of two, one of them finished: in the end the row is done, the stream is not, and projecting it takes the row back |
| `BatchStore.Store.constructor` | internal/batchprogress/store.go:55-57 | an empty store |
| `BatchStore.Store.AppendFacts` | internal/eventsourcing/jetstream_store.go:68-134 | a prefix is stored, only on top of the expected version; a stale version is a conflict unless the tip cannot be read; success means all of it, the publish of the next fact may stay under way, and a conflict may come from what the call itself stored |
| `BatchStore.Store.NewBatch` | internal/domain/batch/batch.go:55-97 | the birth command as written records the birth facts and their fold |
| `BatchStore.Store.RecordCompletions` | internal/batchprogress/store.go:266-275 | the recording loop yields the command's completions and the advanced aggregate |
| `BatchStore.Store.AppendStarted` | internal/batchprogress/store.go:225-247 | logs the birth once; a conflict means the stream exists, perhaps by this very call, and an error can also come while it exists; the cache is a copy of a stream prefix |
| `BatchStore.Store.Replay` | internal/domain/batch/batch.go:222-236 | the replay loop folds the stream |
| `BatchStore.Store.AppendCached` | internal/batchprogress/store.go:263-293 | the cached path: it settles only if the copy is the whole stream, and otherwise a prefix of the command is stored and the cache dropped |
| `BatchStore.Store.SeedStreamFromProjection` | internal/batchprogress/store.go:355-404 | a missing stream becomes a prefix of the birth of the row's members, and without a row nothing is stored |
| `BatchStore.Store.LoadAggregate` | internal/batchprogress/store.go:332-350 | the aggregate is the fold of the stream, which is left alone when it exists and seeded when it does not |
| `BatchStore.Store.AppendReloaded` | internal/batchprogress/store.go:295-323 | the reload path, on the stream as it was or as it was seeded from the row, stores a prefix of what the whole stream makes recordable; it fails on a batch with neither stream nor row |
| `BatchStore.Store.AppendCompletions` | internal/batchprogress/store.go:252-323 | both paths together store, and leave under way, what one outcome of the command on the whole stream does, seeding a missing stream first, and leave the cache a copy of a prefix |
| `BatchStore.Store.InsertBatch` | internal/batchprogress/store.go:104-140 | the insert transaction, member by member, then the prune, which deletes exactly the finished batches that have expired |
| `BatchStore.Store.MarkMemberDone` | internal/batchprogress/store.go:205-220 | the transaction marks the member, recomputes the row and leaves everything else alone |
| `BatchStore.Store.SelectFlips` | internal/batchprogress/store.go:431-452 | exactly the unfinished members of unfinished batches that are no longer pending, each once |
| `BatchStore.Store.WriteFlips` | internal/batchprogress/store.go:458-488 | flipping one by one and recomputing all open batches is the set-wise transaction |
| `BatchStore.Store.GroupByBatch` | internal/batchprogress/store.go:490-500 | grouping by first mention, artists in order |
| `BatchStore.Store.Start` | internal/batchprogress/store.go:83-145 | a call is a run of the interleaved system and succeeds unless something failed; then the stream folds to exactly the artists named and the stats, and so does the row if it is there; a new stream begins with the birth, and with nobody interfering rows and streams are exactly those |
| `BatchStore.Store.StartAgain` | internal/batchprogress/store.go:83-145 | the call for a live batch with artists it has: the log stays, and the tables change by the prune only |
| `BatchStore.Store.CompleteArtist` | internal/batchprogress/store.go:160-203 | a call is a run; for a named artist that is "idle" or "failed" it answers nothing iff no open batch waits for it (unless it fails); otherwise it picks the waiting batch that was updated last, and then the log says that the member is done, and so does the table unless the row was pruned; with nobody interfering exactly that member is marked and exactly that completion logged |
| `BatchStore.Store.Reconcile` | internal/batchprogress/store.go:428-509 | a call is a run; success reports the number of members that were selectable and leaves each of them done in the log, and in the table unless its row was pruned; with nobody interfering the rows change by exactly these flips, and every row is the fold again if only members no longer pending were behind |
| `BatchStore.Store.AtRestRowsAreFolds` | internal/batchprogress/store.go:83-509 | a store that never failed, at rest: rows are folds of their streams |
| `BatchStore.Store.ResetForReplay` | internal/batchprogress/store.go:512-528 | drops rows and cache and leaves every stream as it is |
| `BatchStore.Store.Project` | internal/batchprogress/store.go:531-573 | the upserts of a folded aggregate, member by member, which `BatchTables.ProjectedMatchesUnless` characterises |
| `BatchStore.Store.ReplayAll` | cmd/replay/main.go:293-372 | the replay path: after the reset and one projection per stream, there is a row for exactly every stream, it is the fold, and its counts are true; a reliable store at rest gets its rows back as they were, and the same table iff no batch had been pruned |
| `SnapshotLog.AnchoredTail` | internal/eventsourcing/jetstream_snapshot.go:104-154 | in any log where a stream's versions rise, the tail behind a matching anchor's sequence number is the tail above its version |
| `SnapshotLog.GrowthKeepsAnchor` | internal/eventsourcing/jetstream_snapshot.go:16-27 | while the log only grows an anchor stays valid and the snapshot stays the state at its version |
| `SnapshotLog.SnapshotThenTail` | internal/eventsourcing/snapshot.go:11-18 | folding the tail onto the snapshot is folding the whole stream |
| `SnapshotLog.AcceptedAnchorIsRightUnlessRebuilt` | internal/eventsourcing/jetstream_snapshot.go:16-27 | of two numbered logs in which one anchor matches, the snapshot of the one is the state of the other iff they share the stream up to the anchored version: for a history-keeping aggregate both ways, for every aggregate one way |
| `SnapshotLog.RebuiltLogFoolsTheAnchor` | internal/eventsourcing/jetstream_snapshot.go:22-27 | a rebuilt log can carry the same stream and version under the anchor's sequence number, and then the anchor is accepted although the snapshot is not the state of that log |
| `SnapshotStore.JetStream.SaveSnapshot` | internal/eventsourcing/jetstream_snapshot.go:45-99 | stored only when the tip read is exactly the snapshot's version, with the type and payload given, and refused iff stream, type or version is missing; whatever is appended or saved meanwhile, every usable record stays the state at an anchored version |
| `SnapshotStore.JetStream.LoadSnapshotRecord` | internal/eventsourcing/jetstream_snapshot.go:156-178 | a missing, garbled or non-positive record is no snapshot |
| `SnapshotStore.JetStream.CheckAnchor` | internal/eventsourcing/jetstream_snapshot.go:104-133 | accepted iff the message under the sequence number is that version of that stream |
| `SnapshotStore.JetStream.LoadSnapshot` | internal/eventsourcing/jetstream_snapshot.go:101-133 | a loaded snapshot is the fold of the first events of the stream, with type and version of the record; in a growing log a snapshot is found iff there is a usable record |
| `SnapshotStore.JetStream.Drain` | internal/eventsourcing/jetstream_store.go:230-289 | the paged fetch loop returns exactly what was pending up to the tip read at the start, however much arrives meanwhile |
| `SnapshotStore.JetStream.LoadSince` | internal/eventsourcing/jetstream_store.go:176-291 | fast paths and fetch loop return the events above the version as of the tip read; it fails iff the tip is behind the version |
| `SnapshotStore.JetStream.LoadAfter` | internal/eventsourcing/jetstream_snapshot.go:135-154 | the tail above a version, also when the record was overwritten since the snapshot was loaded |
| `SnapshotStore.JetStream.LoadFromSnapshot` | internal/domain/artist/repository.go:80-108 | snapshot plus tail is the full replay of the stream as of a moment in the call; when nothing fails it succeeds iff there is a usable record without a type or of the right type |
| `SnapshotStore.JetStream.LoadInFull` | internal/domain/artist/repository.go:52-64 | the replay of the whole stream as of the moment its tip is read; it fails iff there is none |
| `SnapshotStore.JetStream.Load` | internal/domain/artist/repository.go:32-76 | with or without snapshot the loaded state is the full replay of the stream as of a moment in the call; a stream of 200 events or more without a snapshot is given one of that state and type, and nothing else is saved |
| `EditDistance.LevenshteinDistance` | cmd/backfill_song_artists/review_queue_matching.go:108-140 | the one-row program computes the recursive edit distance |
| `EditDistance.UpdateRow` | cmd/backfill_song_artists/review_queue_matching.go:124-137 | the inner loop turns a row into the next one in place |
| `EditDistance.ShortScript` | cmd/backfill_song_artists/review_queue_matching.go:108-140 | a script of exactly that many single-rune edits exists |
| `EditDistance.NoShorterScript` | cmd/backfill_song_artists/review_queue_matching.go:108-140 | no script is shorter |
| `EditDistance.Symmetric` | cmd/backfill_song_artists/review_queue_matching.go:108-140 | the distance is symmetric |
| `EditDistance.ZeroOnlyForEqual` | cmd/backfill_song_artists/review_queue_matching.go:108-140 | it is zero iff the sequences are equal |
| `EditDistance.Triangle` | cmd/backfill_song_artists/review_queue_matching.go:108-140 | it satisfies the triangle inequality |
| `EditDistance.Bounds` | cmd/backfill_song_artists/review_queue_matching.go:108-140 | it lies between the length difference and the longer length |
| `ArtistSuggestions.MatchSuggestionScore` | cmd/backfill_song_artists/review_queue_matching.go:55-80 | the code's score is the one defined on the recursive edit distance |
| `ArtistSuggestions.ScoreIsExact` | cmd/backfill_song_artists/review_queue_matching.go:55-80 | the whole scale in whole numbers: 1.0 for the same key, 0.86 for a prefix, 0.93, 0.82 and 0.74 for one, two and three edits on keys long enough, and 0 otherwise |
| `ArtistSuggestions.MoreEditsScoreNoHigher` | cmd/backfill_song_artists/review_queue_matching.go:63-80 | with the same longer length, and unless one key is a prefix of the other, more edits never score higher |
| `ArtistSuggestions.ScoreIsSymmetric` | cmd/backfill_song_artists/review_queue_matching.go:55-80 | the score is symmetric |
| `ArtistSuggestions.FullScoreOnlyForEqual` | cmd/backfill_song_artists/review_queue_matching.go:55-58 | 1.0 iff the keys are equal |
| `ArtistSuggestions.WhatMatches` | cmd/backfill_song_artists/review_queue_matching.go:55-80 | the score is positive iff one key is a prefix of the other or at most three edits touch at most three tenths of the longer key |
| `ArtistSuggestions.MatchesAreExact` | cmd/backfill_song_artists/review_queue_matching.go:20-37 | an artist is suggested iff it has a key that is the input's, a prefix either way, or a few edits away |
| `ArtistSuggestions.SuggestExistingArtists` | cmd/backfill_song_artists/review_queue_matching.go:13-53 | the best five matches, a higher score first and among equal scores the lower name; no other match scores higher or ranks before any of them |
| `ReplayLog.NextPage` | cmd/replay/main.go:456-474 | going on behind the last event of a page skips nothing |
| `ReplayLog.UntouchedRowIsCurrent` | cmd/replay/main.go:430-433 | a stream without an event behind the floor has a row that is the fold of the whole stream |
| `ReplayLog.AppendsKeepRows` | cmd/replay/main.go:430-433 | appends leave every checkpoint's promise true |
| `ReplayLog.CurrentIsRefold` | cmd/replay/main.go:293-372 | current rows together are what a full refold writes |
| `ReplayLog.ResetBreaksPromises` | cmd/replay/main.go:293-345 | a full replay that stops after its reset leaves the promises true iff the checkpoints promised nothing about the selected types |
| `ReplayLog.BrokenPromise` | cmd/replay/main.go:293-345 | a log and a checkpoint whose promise the reset breaks |
| `ReplayLog.LateFactsAreSkipped` | cmd/replay/main.go:456-507 | facts that arrive between the scan and the loads, under any projector that keeps histories apart: every checkpoint keeps its promise after the save iff no late fact at or below its type's new position lies in a stream the scan saw untouched |
| `ReplayLog.SkippedFact` | cmd/replay/main.go:456-507 | a log of two streams on which a fact is skipped for good |
| `ReplayLog.WhenPositionsFall` | cmd/replay/main.go:484-507 | a saved position falls iff its lookup failed and the frontier is below it |
| `ReplayLog.FallingPosition` | cmd/replay/main.go:484-507 | a checkpoint and a frontier on which that happens |
| `ReplayCommand.Replayer.constructor` | cmd/replay/main.go:293-306 | an empty read model keeps every promise |
| `ReplayCommand.Replayer.Append` | cmd/replay/main.go:430-433 | appends between runs keep the invariant |
| `ReplayCommand.Replayer.LoadFromGlobalPosition` | internal/eventsourcing/store.go:507-549 | the next page in position order, empty only at the end |
| `ReplayCommand.Replayer.CountTail` | cmd/replay/main.go:219-238 | the paging loop counts the log entries of the type behind the floor, each once |
| `ReplayCommand.Replayer.TailCounts` | cmd/replay/main.go:213-242 | the pending tail of every selected type behind its own checkpoint |
| `ReplayCommand.Replayer.ResumeFloor` | cmd/replay/main.go:442-454 | the lowest checkpoint of the selected types, or zero |
| `ReplayCommand.Replayer.Touched` | cmd/replay/main.go:456-474 | the paging loop finds exactly the listed streams with an event behind the floor |
| `ReplayCommand.Replayer.ProjectStream` | cmd/replay/main.go:382-428 | folds the whole stream and raises its type's frontier to its highest position |
| `ReplayCommand.Replayer.ReplayIncremental` | cmd/replay/main.go:434-482 | leaves every row of the selected types current, other rows alone, and skips only streams below their checkpoints |
| `ReplayCommand.Replayer.ReplayWhileAppending` | cmd/replay/main.go:434-507 | the incremental command with facts arriving between scan and loads: floor, touched streams and saved positions as computed, none of which falls, and when they keep their promises |
| `ReplayCommand.Replayer.ReplayFully` | cmd/replay/main.go:293-372 | from any read model, also one that breaks its promises, success leaves every row of the selected types current and other rows alone; a read model that kept its promises keeps them |
| `ReplayCommand.Replayer.SaveFrontiers` | cmd/replay/main.go:484-507 | frontiers above the saved positions are saved, and those whose position cannot be looked up; no other position changes, and in the end every frontier is reached unless saving failed |
| `ReplayCommand.Replayer.Finish` | cmd/replay/main.go:484-507 | at the end of a replay the projected streams are covered unless saving failed; the positions keep their promises if they did before, and none has fallen, whatever lookups failed, if they were positions of events |
| `ReplayCommand.Replayer.Replay` | cmd/replay/main.go:293-372 | incremental, or in full from any read model, success makes the selected rows equal a full refold, every promise about them kept, and the checkpoints lie behind every event of the selected types; no position of an event ever falls |
| `SongBatches.TwoStages` | migrations/1760800000_song_recent_batch.go:57-90 | after both backfills the k-th recent song has batch k/13+1 and place k%13+1 and other songs 0/0, nothing else changed |
| `SongBatches.PlacesFollowTheOrder` | migrations/1760900000_song_recent_batch_pos.go:61-110 | batch and place follow (ordering time, ID), and no two recent songs share them |
| `SongBatches.OlderSongsComeFirst` | migrations/1760800000_song_recent_batch.go:69-109 | of two recent songs the one with the earlier time, or at the same time the lower ID, gets the lower batch and place; a created time wins over a release date, and the zero time stands for neither |
| `SongBatches.EarliestComesFirst` | migrations/1760800000_song_recent_batch.go:69-90 | a recent song gets batch 1 and place 1 iff no other recent song is older, or as old with a lower ID |
| `SongBatches.BatchesAreFull` | migrations/1760800000_song_recent_batch.go:77-90 | a place is taken iff the recent songs reach that far: all batches but the last are full |
| `SongBatches.SecondRunChangesNothing` | migrations/1760900000_song_recent_batch_pos.go:97-105 | a second run of both backfills changes nothing |
| `SongOrder.RankOfEntry` | migrations/1760800000_song_recent_batch.go:77-83 | the k-th song of the sorted slice has exactly k recent songs before it |
| `Sorting.Sort` | cmd/backfill_song_artists/review_queue_matching.go:39-47 | the stable library sort: nothing ranks before an earlier entry, elements that tie keep their order, and the entries are the same |
| `SongOrder.Sort` | migrations/1760800000_song_recent_batch.go:69-76 | the sort lists the songs in the strict (ordering time, ID) order |
| `SongBackfill.SongTable.BackfillSongRecentBatchSeq` | migrations/1760800000_song_recent_batch.go:51-91 | the first backfill as written; records are saved iff something changes |
| `SongBackfill.SongTable.BackfillSongRecentBatchPos` | migrations/1760900000_song_recent_batch_pos.go:49-113 | the second backfill as written, on any prior batch numbers; records are saved iff something changes |
| `QueueDebounce.StepKeepsInv` | internal/app/hooks.go:141-174 | every critical section of trigger and callback keeps the invariant |
| `QueueDebounce.Debounced` | internal/app/hooks.go:141-174 | in every interleaving at most one timer is armed or waking, fires are at least 500 ms apart, attempts never exceed triggers |
| `QueueDebounce.NothingForgotten` | internal/app/hooks.go:141-174 | when nothing is under way every trigger was followed by a publish attempt, unless the context was cancelled |
| `QueueDebounce.AnswersCome` | internal/app/hooks.go:158-173 | each internal step is progress, one is possible within 500 ms while an answer is owed, and none left means none owed |
| `QueueDebounce.Settles` | internal/app/hooks.go:158-173 | from any state, after 500 ms and as many internal steps as there is work, an attempt has followed the last trigger |
| `QueueDebounce.Fanout.TriggerUpdate` | internal/app/hooks.go:145-158 | the hook is one step of the system and leaves a timer armed |
| `QueueDebounce.Fanout.Callback` | internal/app/hooks.go:158-173 | the callback is two steps with anything between them, and answers all triggers so far |
| `TitleArtistDedupe.Records.DedupeTitleArtist` | migrations/1761000000_unique_title_artist.go:41-71 | the pass, in any record order, leaves exactly the blank records and the newest of each key |
| `TitleArtistDedupe.OneOfEachKey` | migrations/1761000000_unique_title_artist.go:41-71 | each non-blank key keeps exactly one record, the maximum by (created, ID) |
| `TitleArtistDedupe.BlankRecordsStay` | migrations/1761000000_unique_title_artist.go:49-51 | blank pairs are untouched |
| `TitleArtistDedupe.SecondPassKeepsAll` | migrations/1761000000_unique_title_artist.go:41-71 | a second pass deletes nothing |
| `TitleArtistDedupe.KeysCollide` | migrations/1761000000_unique_title_artist.go:48 | two records share a key iff they share the pair, or one title goes on behind a NUL where the other artist begins |
| `TitleArtistDedupe.KeysArePairs` | migrations/1761000000_unique_title_artist.go:48 | keys stand for pairs when no title holds a NUL |
| `TitleArtistDedupe.CollidingPairs` | migrations/1761000000_unique_title_artist.go:48 | two different pairs with one key, of which the pass deletes one |
| `NumberText.FormatNumber` | templates/types.go:88-107 | the loop prints a dash for zero and otherwise the decimal with a comma before every third place from the end |
| `NumberText.RoundTrip` | cmd/seed/main.go:700-707 | parsing undoes printing for every 64-bit integer |
| `NumberText.PositiveIsGrouped` | templates/types.go:88-107 | positive output is digits in threes |
| `NumberText.NegativeIsGroupedUnless` | templates/types.go:99-105 | negative output is the sign and grouped digits iff the digit count is no multiple of three; otherwise a stray comma follows the sign |
| `NumberText.MinusHundred` | templates/types.go:99-105 | -100 is printed as "-,100" |
| `Timestamps.TextOrderIsTimeOrder` | internal/commands/commands.go:32-36 | byte-wise text order is chronological order at millisecond resolution, years 0 to 9999 |
| `Timestamps.EarlierIsChronological` | internal/commands/commands.go:32-36 | comparing calendar fields is comparing instants |
| `Timestamps.ParseUndoesFormat` | internal/commands/commands.go:223 | parsing gives the time back, cut to the millisecond |
| `CommandLog.BoundsAreTimes` | internal/commands/commands.go:182-189 | the text bounds select exactly the rows in the time range |
| `CommandLog.AcceptableIsExact` | internal/commands/commands.go:54-67 | a command is accepted iff something is left of both IDs after trimming and its type is one of the three |
| `CommandLog.BatchIsExact` | internal/commands/commands.go:93-146 | a batch adds exactly the new request IDs of its acceptable commands, each with the columns of the first one that carries it, and changes no row |
| `CommandLog.FoundExactly` | internal/commands/commands.go:166-205 | a newly logged command is selected by exactly the filters that leave out or name its artist and its type and whose times lie around its own, and among the unresolved unless it was dispatched and did not fail |
| `CommandLog.OwnFilterFinds` | internal/commands/commands.go:172-189 | the filter on its own artist, type and time finds it iff its artist ID is trimmed |
| `CommandLog.LoggingIsIdempotent` | internal/commands/commands.go:93-146 | logging a batch again changes nothing |
| `CommandLog.Log.Append` | internal/commands/commands.go:54-91 | one acceptable command with a new request ID is inserted, with its own columns, and a known one is ignored |
| `CommandLog.Log.LogBatch` | internal/commands/commands.go:93-146 | the rows afterwards are the old ones and the new request IDs of acceptable commands, each with the columns of the first command that carries it |
| `CommandLog.Log.List` | internal/commands/commands.go:166-240 | the rows selected by the trimmed filters, newest first, at most the limit or 100, and those left out rank after all listed ones |
| `CommandLog.Log.ListedNewestFirst` | internal/commands/commands.go:201 | the listing is chronological |
| `Enrichment.ResolveFromCandidates` | cmd/backfill_song_metadata/main.go:276-326 | the first contributing candidate decides |
| `Enrichment.ResolveAll` | cmd/backfill_song_metadata/main.go:231-341 | one resolution per song in order, each with exactly the verdict, fill and citation it should have; a label on a type-less song always ends as an update with it |
| `Enrichment.OfferIsBest` | cmd/backfill_song_metadata/main.go:274-275 | with ranked candidates no contributing candidate beats the one cited |
| `Enrichment.PlanMatchesTheEvent` | cmd/backfill_song_metadata/main.go:344-361 | for every planned update, what the aggregate records is the song with its gaps filled as planned, the year included, iff the fill is trimmed and the song has a year, or a date that does not start with a space, or no readable year |
| `Enrichment.YearLost` | internal/domain/song/song.go:268-280 | a label for a song dated " 1992": the plan has the year 1992 and the event none |
| `Enrichment.UpdatesRecord` | internal/domain/song/song.go:154-181 | a planned update with a trimmed fill always changes the song |
| `Enrichment.RerunRecordsNothing` | internal/domain/song/song.go:154-181 | the same values enrich an enriched song no further |
| `SubjectTokens.SanitizeSubjectToken` | internal/messaging/messages.go:186-222 | the loop computes the token whose inverse and injectivity are proved below |
| `SubjectTokens.DecodeSubjectToken` | internal/messaging/messages.go:255-303 | the loop decodes exactly the well-formed tokens, and rejects empty ones and malformed escapes |
| `SubjectTokens.TokenRoundTrip` | internal/messaging/messages.go:255-303 | decoding undoes encoding for every rune string |
| `SubjectTokens.TokensAreDistinct` | internal/messaging/messages.go:186-189 | distinct rune strings get distinct tokens |
| `SubjectTokens.DecodedIsEncodedUnlessRaw` | internal/messaging/messages.go:232-237 | a token that decodes is the encoder's iff it carries no unescaped reserved rune |
| `SubjectTokens.RawStar` | internal/messaging/messages.go:262-267 | the token "*" decodes, but no string is encoded as it |
| `SubjectTokens.SubjectRoundTrip` | internal/messaging/messages.go:228-253 | parsing undoes composing a subject |
| `SubjectTokens.ScopeIsExact` | internal/messaging/messages.go:305-325 | an aggregate's wildcard scope matches its own subjects only |

## Left out

- AppendVerdicts.ConvergesOnNextAttempt: shows that a run to success exists, not that every schedule reaches it, because the broker may refuse forever.
- BatchStore.Store.Start: asks for distinct non-blank artist IDs and for a batch ID without a row, because only then is the call a step of `BatchWorld`; `BatchStore.Store.StartAgain` is the call for a live batch, and `BatchStore.Store.AppendStarted` and `BatchStore.Store.InsertBatch` state the effects for every input.
- BatchStore.Store.StartAgain: asks for artists the batch has; what others do is `BatchTables.RestartWithOthers`. Nobody prunes the row during the call; what an insert after a prune does is `BatchTables.RestartAfterPruning`.
- BatchStore.Store.Reconcile: every batch in the tables was started by this store, so that it has a stream; what happens to older batches is `BatchStore.Store.AppendCompletions` with `BatchSeeding`, outside `BatchWorld`.
- BatchStore.Store.CompleteArtist: the order of update times is a parameter, a strict order on the waiting batches.
- Aggregate.BaseAggregate.Save: the snapshot taken every so often afterwards is `SnapshotStore.JetStream.SaveSnapshot`, on its own state.
- BatchStore.Store.ReplayAll: no load or write fails on the way; what a replay leaves that stops after its reset is `ReplayLog.ResetBreaksPromises`.
- SnapshotStore.JetStream.SaveSnapshot: asks that the payload is the state at its version, which the encoding of artist aggregates has to provide; that encoding is not part of this model.
- ReplayCommand.Replayer.ReplayWhileAppending: facts arrive at one moment, between scan and loads; pages and loads are not interrupted.
- ReplayCommand.Replayer.Replay: no appends during the call; `ReplayCommand.Replayer.ReplayWhileAppending` has them.
- ReplayCommand.Replayer.Streams: every stream has one aggregate type; the query that rejects mixed types is not part of this model.
- ArtistSuggestions.MatchSuggestionScore: similarity is an exact real number; the three thresholds separate the same pairs in double precision.
- CommandLog.Log.List: rows in the older timestamp layout and the payload columns are not modelled.
- SQL text, database connections, the message broker's transport, key-value storage, RON and JSON encoding, clocks and random IDs.
- Unicode normalization of review names: keys are inputs.
- Redrive and Summarize, which only count.
- The event-store switch with its parity gate, handlers, templates, scripts, scraping, OAuth and configuration.
- `SQLiteStore.Append`, which is all-or-nothing and satisfies the append contract trivially.
