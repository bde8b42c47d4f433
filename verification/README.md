# JobHound core: a verified model

A Dafny model of the stateful cores of the vacancy aggregator, with proofs. The
repository is written in Go; each Dafny module models one of its components and
keeps its form: methods over mutable tables where the code changes rows, loops
where it loops, functions where it only computes. Every method that writes a table
is proved equal to a function on the old state, errors included; only a rescore
that stops on an error may have done any part of its work. The theorems are about
those functions over all inputs, all runs or all interleavings. Laws beside
them say what the main functions compute in terms of their inputs alone, with the
constants, names and order of the source written out in the law.

- **Decoders and parsers.** `NuxtGraph` is the memoised decoder of the eJobs
  payload, a graph with back references and possibly cycles. `VuePayload` is the
  path-guarded decoder of the same format. `FlightScan` finds the end of a JSON
  array in a text, against a printer of RFC 8259, sections 5 and 7. `TextArray`
  is the Postgres text-array printer and its parser.
- **Concurrent protocols as step systems.** `IngestLock` (Redis lock and
  cooldown), `PollLanes` (one semaphore for each ATS, shared counters),
  `StartRun` (idempotent start of a run).
- **Vacancies and companies.** `KeyedList` and `TextLists` (sorted, key-unique
  lists and their canonical form), `JobMerge` (merging listings into a row),
  `JobTable` (the jobs table), `JobColumns` (what the columns of a row are after
  saves), `JobInterleaving` (its statements, interleaved),
  `BoardApply` (what a board poll does to it),
  `CompanyKeys`, `CompanyTable`, `CompanyIdentity` (finding a known company),
  `CompanyLink` (which jobs a sighting links), `SeedImport` (the seed sheet and its
  counters), `CompanyLife` (polls, resolution, sightings and imports on the table)
  and `CompanyHistory` (what holds of a row over any history of them), and
  `CompanyInterleaving` (what is left of that when their statements interleave);
  `CompanyColumns` and `CompanyPolls` (what sightings, seed rows, polls and resolve
  attempts leave in the columns of a company, and which boards URLs name).
- **Scoring and enrich.** `PhraseCount`, `FactSignals`, `FactConditions` (when a verdict
  cuts, clashes and pays), `Scoring`, `ScoreHistory` (the matches of all runs over any
  history of interleaved passes), `Enrich`, `Batches`.

Lower-casing, folding, hashing, URL parsing, JSON lengths and the phrase signals
of a profile are function parameters, so every theorem holds for any choice of
them. Time is an integer that is passed in. `First` in a query is the row with
the smallest key. Strings are sequences of code points.

## Where the code does not do what is promised

Each of these is proved, with the exact condition under which the promise holds.

- A COMPLETE poll does not always leave exactly the listed vacancies open:
  `applyJobs` and `UpsertBoardJobs` read the clock separately, and a vacancy that
  turns stale in between is listed but never written
  (`BoardApply.CompleteIsExactIff`, `BoardApply.GapJobIsLost`).
- A company without a website whose normalized name begins or ends with a blank
  (such as "foo ...") is created anew at each sighting, over its own row, which
  loses its resolution (`CompanyIdentity.SightedTwice`). The same blank lets a
  company list its own key as an alias (`CompanyIdentity.OwnAliasIff`,
  `CompanyIdentity.OwnAliasWitness`), and keeps its jobs from ever being linked to
  it (`CompanyLink.OwnJobsLinkedIff`, `CompanyLink.SightedJobStaysUnlinked`).
- A run row can stay RUNNING for ever and block its profile. It does exactly when
  some step gave it up while no open workflow owned it (`StartRun.DeadIff`,
  `StartRun.OwnersIff`): the insert is carried out but its reply is lost, no starter
  is configured, `FinishRun` fails, the client hands back an open workflow as if it
  had started one, or the process stops in between (`StartRun.LostInsertKillsRow`,
  `StartRun.MissingStarterKillsRow`, `StartRun.FailedFinishKillsRow`,
  `StartRun.JoinedStartKillsRow`, `StartRun.StoppedCallKillsRow`,
  `StartRun.DeadRowBlocksProfile`).
- An aggregator save can clear an ATS close, though only `ReopenPresent` is meant to:
  it reads the row, and writes every column later. The close columns of a row move by
  polls alone exactly when every save finds the close columns that it read
  (`JobInterleaving.ClosedByPollsOnlyIff`, `JobInterleaving.TornSaveReopens`). In the
  same way it can take back a board sighting (`JobInterleaving.LosesSightingIff`,
  `JobInterleaving.TornSaveLosesSighting`) and bring back a deleted row, closed
  (`JobInterleaving.NewRowClosedIff`, `JobInterleaving.SaveUndoesRetention`).
- A match does not always belong to the last run that scored it: a rescore writes the
  run it has listed. It does exactly when no rescore read the match under an earlier
  run (`ScoreHistory.FollowsScoresIff`, `ScoreHistory.LateRescoreUndoesRun`).
- A stored verdict can miss a match, its rescore notwithstanding: exactly when it
  arrives between the read and the write of the match's last pass
  (`ScoreHistory.BasedOnNowIff`, `ScoreHistory.LateScoreMissesVerdict`).
- A sighting that overlaps a poll or a resolve attempt takes its result back
  (`CompanyInterleaving.MergeKeepsPollsIff`, `CompanyInterleaving.SightingKeepsStatusIff`,
  `CompanyInterleaving.LateSightingLosesFailure`, `CompanyInterleaving.LateSightingRevives`).
- `next_resolve_at` announces a retry of an UNRESOLVED company, but `Resolve` acts
  on PENDING companies only: such a row stays UNRESOLVED exactly until a seed row or
  a rewrite reaches it (`CompanyHistory.UnresolvedIsNotRetried`,
  `CompanyHistory.RetryNeverComes`).
- A batch body can be one byte above its cap: the constant 14 is documented as
  the length of `{"requests":[]}`, which is 15 (`Batches.BodyExceedsCapIff`,
  `Batches.BodyOverCapWitness`).
- A fact can be cut and in conflict at once, allowed and forbidden: an office, for a
  profile that scores offices and has no allow list, and no other field
  (`FactSignals.CutAndConflictIff`, `FactSignals.OfficeCutAndConflictOccur`).
- The comment on `factSignals` sends every fact cut to review; the code rejects
  for two of them (`FactSignals.FactKinds`, `Scoring.VerdictRejectsIff`). The model
  follows the code.
- Lock and cooldown keys of two sources coincide for some queries exactly when one id
  and a colon begin the other id and no white space follows there; then the source
  with the shorter cooldown can cut the other one's (`IngestLock.KeysCollideIff`,
  `IngestLock.RealTargetsCollide`, `IngestLock.CollidingSourceCutsCooldown`,
  `IngestLock.ArchitectureCooldownIsCut`).

## Model

| member | source | states |
|---|---|---|
| NuxtGraph.Decode | internal/collectors/ejobs/parse.go:243-360 | on every payload, cyclic ones included, said of its slots: fails exactly when it is empty or the numbers lead to an unreadable one; expands exactly the slots they lead to, each once; where no slot that stands for another lies on a cycle, returns what the slots mean (a list of two with one of the seven names stands for the slot it names, a lone name is null, any other list is read element by element); and is the plain recursive unfolding when no cycle is reachable |
| NuxtGraph.ListShapeIs | internal/collectors/ejobs/parse.go:335-360 | which lists stand for a slot, which are null and which are lists, by the seven names |
| NuxtGraph.LawsDecide | internal/collectors/ejobs/parse.go:243-333 | any trees with the law of the slots are what the payload unfolds to, at every depth |
| NuxtGraph.LawfulTrees | internal/collectors/ejobs/parse.go:243-333 | trees with this law exist for every payload |
| NuxtGraph.WrappedMeans | internal/collectors/ejobs/parse.go:335-360 | the payload [["ShallowReactive", 1], {"a": 2}, 7] means {"a": 7} |
| NuxtGraph.Decoder.Walk | internal/collectors/ejobs/parse.go:259-331 | one memoised visit keeps the invariant between cache, ready marks, heap and expansion log, and only adds to what was expanded |
| NuxtGraph.Decoder.WalkReviver | internal/collectors/ejobs/parse.go:335-351 | a reviver's slot takes whatever value the slot it names holds when that slot has been visited, on every payload |
| NuxtGraph.HeapUnfolds | internal/collectors/ejobs/parse.go:259-331 | in every state the invariant allows, the shared heap reads like the unfolding of the payload to any depth |
| NuxtGraph.DeepEnough | internal/collectors/ejobs/parse.go:243-333 | where no cycle is reachable, the bounded unfolding is the plain one beyond the rank of the slot |
| NuxtGraph.ReadyIsReachable | internal/collectors/ejobs/parse.go:259-331 | after decoding, the expanded slots are exactly the slots reachable from the root |
| NuxtGraph.ClosedHoldsReachable | internal/collectors/ejobs/parse.go:259-331 | a set of slots closed under references holds everything reachable from its members |
| VuePayload.Reader.Resolve | internal/collectors/vuejobs/nuxt.go:191-225 | terminates on every payload, computes the path-guarded unfolding and leaves the set of slots on the path as it found it |
| VuePayload.GuardNeverFires | internal/collectors/vuejobs/nuxt.go:191-225 | where the slots a part refers to hold no loop the guard never cuts: the result is the plain unfolding, whatever path led there |
| VuePayload.ReadsIs | internal/collectors/vuejobs/nuxt.go:191-225 | cyclic payloads included, said of the slots alone: a slot below itself reads null, any other element as it reads there, and the reader's trees are the only ones with this law |
| VuePayload.ReadingIsReadable | internal/collectors/vuejobs/nuxt.go:191-225 | and they have it |
| VuePayload.DecodersAgree | internal/collectors/vuejobs/nuxt.go:191-225 | on a loopless part of a payload without revivers both decoders of the repository unfold a slot to the same value |
| VuePayload.DecodeIsGuarded | internal/collectors/vuejobs/nuxt.go:191-225 | so what `NuxtGraph.Decode` returns is what this reader returns, whenever the root reaches no cycle, no reviver and no unreadable number |
| FlightScan.MatchingJSONArrayEnd | internal/collectors/remotifyeurope/flight.go:49-84 | returns the first position at which the scanner closes the array, or an error exactly when it never does or does not start on a bracket |
| FlightScan.PrintedArrayCloses | internal/collectors/remotifyeurope/flight.go:49-84 | every array printed by RFC 8259 closes at its printed end, whatever brackets, quotes and escapes its strings hold and whatever follows |
| FlightScan.ClosesOnce | internal/collectors/remotifyeurope/flight.go:49-84 | the closing position is unique |
| FlightScan.CutPrintedArray | internal/collectors/remotifyeurope/flight.go:49-84 | the scanner returns exactly the printed length of any JSON array, after any prefix and before any tail |
| FlightScan.ValueNeutral | internal/collectors/remotifyeurope/flight.go:49-84 | any printed JSON value brings the scanner back to the depth it started at, outside a string |
| TextArray.FormatTextArray | internal/jobs/storage/sources.go:57-66 | the printed literal, which is read back as the list whatever its strings hold |
| TextArray.ParsePGArray | internal/jobs/utils/sources.go:28-66 | the loop computes the reader's fold over the body, and fails exactly on an unclosed quote |
| TextArray.ParseSourceIDs | internal/jobs/utils/sources.go:10-26 | any literal with quotes or without them where none are needed gives exactly its ids, but for a lone blank id without quotes; empty forms give nil, other shapes an error |
| TextArray.LiteralReadsBack | internal/jobs/utils/sources.go:10-66 | the same as a theorem about every mixture of quoted and bare ids |
| TextArray.BlankBodyIff | internal/jobs/utils/sources.go:29-32 | the body is blank exactly for no ids or that lone blank id |
| TextArray.LiteralRoundTrips | internal/jobs/storage/sources.go:57-66 | round trip for all lists: empty strings, commas, braces, quotes and backslashes included |
| TextArray.TwoPassesEscape | internal/jobs/storage/sources.go:57-66 | replacing backslashes and then quotes is escaping each character once |
| IngestLock.KeysInjective | internal/ingest/coordinator.go:43-57 | distinct pairs of source and segment never share a lock or cooldown key when ids hold no colon |
| IngestLock.KeysMeet | internal/ingest/coordinator.go:43-57 | two targets whose ids are the same, or do not collide, share a lock or cooldown key only if they are the same target |
| IngestLock.KeysCollideIff | internal/ingest/coordinator.go:43-57 | some queries of two sources build the same key if and only if one id and a colon begin the other, and what follows there, if anything, is not white space |
| IngestLock.RealTargetsCollide | internal/ingest/coordinator.go:43-57 | the sources "remote", asked for "eu:catalog", and "remote:eu", asked for nothing, share both keys |
| IngestLock.RedisCoordinator.Begin | internal/ingest/coordinator.go:62-97 | the exact error of each case, Redis errors before and after the command takes effect included, and the exact keys afterwards, with the texts of the keys and "catalog" written out; an uninterrupted call is a check step followed by an acquire step of the step system |
| IngestLock.RedisCoordinator.RecordSuccessfulIngest | internal/ingest/coordinator.go:100-113 | sets the cooldown key for twelve hours for the twelve sources of architecture and otherwise for the configured time, or fails on an empty id or a Redis error; the exact keys afterwards |
| IngestLock.LockExcludes | internal/ingest/coordinator.go:62-97 | in every interleaving of any number of workers, if each release runs once and before the TTL ends, at most one worker holds a source and segment |
| IngestLock.AtMostOneHolder | internal/ingest/coordinator.go:62-97 | the same from any state in which holders own live keys |
| IngestLock.LateHolderBreaksExclusion | internal/ingest/coordinator.go:62-97 | a holder that outlives the TTL lets a second one in |
| IngestLock.DoubleReleaseBreaksExclusion | internal/ingest/coordinator.go:62-97 | a release that runs twice lets a second holder in, however early |
| IngestLock.CooldownBlocks | internal/ingest/coordinator.go:74-113 | after a recorded ingest no Begin without explicit refresh passes its check until the cooldown TTL is over, whatever the workers do, if no source with a colliding id records one |
| IngestLock.CollidingSourceCutsCooldown | internal/ingest/coordinator.go:100-113 | for some queries one source's ingest ends another one's cooldown early, if and only if the ids collide that way and its own TTL is shorter |
| IngestLock.ArchitectureCooldownIsCut | internal/ingest/coordinator.go:100-113 | an ingest of "ejobs:ro" ends the long cooldown of "ejobs" asked for "ro:catalog" |
| PollLanes.BuildLanes | internal/companies/workflows/poll_companies.go:62-76 | a lane for exactly the ATS values that occur, holding their targets in order |
| PollLanes.StepInv | internal/companies/workflows/poll_companies.go:83-138 | every step of every coroutine keeps: permits and busy coroutines add up, one lock holder, counters equal the sum over settled coroutines |
| PollLanes.LaneBound | internal/companies/workflows/poll_companies.go:44-138 | in every schedule no more targets of one ATS are polling or recording than the configured width, or five where none is configured |
| PollLanes.SomeStepEnabled | internal/companies/workflows/poll_companies.go:83-138 | some coroutine can move until every target is done |
| PollLanes.FinishedRun | internal/companies/workflows/poll_companies.go:83-146 | every schedule is finite; one that cannot go on has polled each target once, returned all permits, and counted each reply once |
| PollLanes.CountersAre | internal/companies/workflows/mappers.go:54-72 | each counter of a finished run: the number of replies of its outcome, of dead slugs and exhausted retries, and the jobs written and closed |
| PollLanes.OrderDoesNotMatter | internal/companies/workflows/mappers.go:54-72 | two finished runs with the same replies have the same counters, whatever their schedules and lane widths |
| StartRun.Service.StartRun | internal/scoring/impl/service.go:83-137 | result and tables are those of the uninterrupted steps of one call of the step system; with the key of a row it returns that row, whatever its status, or a conflict for another profile, and changes nothing |
| StartRun.KnownKeyAnswer | internal/scoring/impl/service.go:83-94 | the same in terms of rows: a known profile, a known key and no storage error give the row or a conflict |
| StartRun.NewKeyAnswer | internal/scoring/impl/service.go:95-126 | what a call with a new key leaves and returns, for each answer of the workflow client |
| StartRun.ReplayAnswers | internal/scoring/impl/service.go:83-137 | over every interleaving: a call that asks with the key of a row that is there, meets no storage error and is not stopped, returns that row or a conflict after two turns |
| StartRun.Service.Admit | internal/scoring/impl/service.go:83-113 | lookup, running check and insert equal the first four steps, an insert whose reply is lost included |
| StartRun.Service.Settle | internal/scoring/impl/service.go:108-126 | duplicate replay, workflow start and closing of a failed start equal the last two steps |
| StartRun.Service.RunByIdempotencyKey | internal/scoring/storage/repository.go:66-71 | returns the newest row of the key, or the exact error |
| StartRun.OneRowPerKey | internal/scoring/impl/service.go:83-137 | in every interleaving there is at most one row for a key |
| StartRun.ReturnsOwnRow | internal/scoring/impl/service.go:128-137 | in every interleaving a successful call returns a row of its own key and profile |
| StartRun.SameKeySameRow | internal/scoring/impl/service.go:83-137 | two successful calls with one key get the same row |
| StartRun.StepInv | internal/scoring/impl/service.go:83-137 | every step keeps unique keys, sound calls, one holder for a row, sound open workflows, and an owner for each RUNNING row that no step gave up |
| StartRun.RunningHasAnOwner | internal/scoring/workflows/starter.go:23-46 | from the empty table, given only that a workflow marks its run before closing: a RUNNING row that no step of the run gave up owns its profile's open workflow or is held by a call between insert and finish |
| StartRun.AbandonedByRun | internal/scoring/impl/service.go:102-126 | the abandoned rows of a run are those that some step of it gave up: an insert whose reply is lost, a missing starter, a failed FinishRun, a start that joins an open workflow, or a process that stops |
| StartRun.DeadIsAbandoned | internal/scoring/impl/service.go:113-126 | in a world of the protocol a row is dead exactly when it is RUNNING, abandoned and not owned |
| StartRun.StepDeadIff | internal/scoring/impl/service.go:102-126 | a step makes a row dead exactly when it gives up a RUNNING row that no open workflow owns, or one it has just inserted |
| StartRun.DeadIff | internal/scoring/impl/service.go:83-137 | over every run, a row is dead at the end exactly when some step made it so |
| StartRun.OwnersIff | internal/scoring/impl/service.go:83-137 | from the empty table, all RUNNING rows have an owner exactly when no step of the run did that |
| StartRun.QuietProfileIsFree | internal/scoring/impl/service.go:95-99 | with no call and no workflow under way only an abandoned row keeps a profile busy |
| StartRun.DeadForever | internal/scoring/impl/service.go:108-126 | a RUNNING row without owner stays so, whatever happens |
| StartRun.DeadRowBlocksProfile | internal/scoring/impl/service.go:95-99 | such a row refuses every later start of its profile under a new key |
| StartRun.MissingStarterKillsRow | internal/scoring/impl/service.go:113-115 | a run from the empty table: a call without a starter leaves a dead row |
| StartRun.FailedFinishKillsRow | internal/scoring/impl/service.go:116-120 | a run from the empty table: so does a failed FinishRun |
| StartRun.JoinedStartKillsRow | internal/scoring/workflows/starter.go:31-44 | a run from the empty table: so does a client that hands back the open workflow instead of an error |
| StartRun.LostInsertKillsRow | internal/scoring/impl/service.go:102-112 | a run from the empty table: so does an insert that is carried out but reported as an error |
| StartRun.StoppedCallKillsRow | internal/scoring/impl/service.go:102-116 | a run from the empty table: so does a process that stops between insert and start |
| KeyedList.MergedSorted | internal/jobs/storage/merge.go:80-103 | deduplication and stable sort give a strictly sorted list with exactly the keys put in |
| KeyedList.Canonical | internal/jobs/storage/merge.go:80-103 | strictly sorted lists with the same keys have the same key sequence |
| KeyedList.MergeOnto | internal/jobs/storage/merge.go:80-103 | merging onto a merged list is merging everything at once |
| KeyedList.MergeAbsorbs | internal/jobs/storage/merge.go:80-103 | merging what is there already changes nothing |
| KeyedList.MergedKeepsFirst | internal/jobs/storage/merge.go:80-103 | of the elements with one key the merged list has the first |
| KeyedList.KeepFirst | internal/jobs/storage/merge.go:81-99 | the loop with its set of seen keys keeps the first element of each key |
| TextLists.CollectTrimmed | internal/companies/impl/upsert.go:199-214 | the loop keeps the trimmed, non-empty strings in order of first arrival |
| JobMerge.MergeOpenings | internal/jobs/storage/merge.go:80-103 | computes the merged list of openings |
| JobMerge.UnionSortedCodes | internal/jobs/storage/merge.go:162-185 | computes the sorted union of codes |
| JobMerge.MergeSourceIDs | internal/jobs/storage/job.go:78-100 | computes the list of source ids, the listing's own source first |
| JobMerge.LocationRaw | internal/jobs/storage/merge.go:132-155 | joins one label for each normalized country, sorted |
| JobMerge.NewIngestJob | internal/jobs/storage/merge.go:15-25 | the row of a first listing |
| JobMerge.MergeIngestJob | internal/jobs/storage/merge.go:27-38 | the row after one more listing |
| JobMerge.MergeBoardListing | internal/jobs/storage/merge.go:41-50 | the same with the board's title and description, unless they are blank; what that leaves after a whole upsert is `JobColumns.BoardTextIs` |
| JobMerge.SavedHolds | internal/jobs/storage/merge.go:15-38 | after any sequence of saves the row holds exactly the merged parts of all listings, and its summary columns agree with its openings |
| JobMerge.OpeningsSortedUnique | internal/jobs/storage/merge.go:80-115 | openings stay strictly sorted and key-unique, and are exactly those of the listings |
| JobMerge.SaveOrderDoesNotMatter | internal/jobs/storage/merge.go:15-38 | the same set of listings in any order gives the same opening keys, URLs, countries, regions, latest posting date and set of sources |
| JobMerge.ResaveTouchesLastSeenOnly | internal/jobs/storage/merge.go:27-38 | saving a listing again that the row holds changes only the last sighting |
| JobMerge.BoardResave | internal/jobs/storage/merge.go:41-50 | the same for a board listing saved twice in a row, its title and description included |
| JobMerge.StoredNew | internal/jobs/storage/job.go:45-76 | collecting a new row's sources a second time on the way to the table changes nothing |
| JobMerge.LatestIsGreatest | internal/jobs/storage/merge.go:59-64 | the posting date kept is the latest known one |
| JobColumns.OpeningsAre | internal/jobs/storage/merge.go:66-119 | the openings of an ingested row: one for each country up to spelling, URL and application link of its listings, as it first came, ordered by these three |
| JobColumns.CodesAre | internal/jobs/storage/merge.go:162-185 | its country and region codes: sorted, and exactly those some listing brings |
| JobColumns.SourcesAre | internal/jobs/storage/job.go:78-100 | its sources: those of the listings, each once, the first listing's own first, later ones behind |
| JobColumns.DateIs | internal/jobs/storage/merge.go:59-64 | its posting date: the latest that some listing has |
| JobColumns.FirstListingStays | internal/jobs/storage/merge.go:15-38 | its texts, company and sightings: those of the first listing, and of the first and the last save |
| JobColumns.WebsiteIs | internal/jobs/storage/merge.go:52-57 | its website: the first one that is not blank |
| JobColumns.LocationIs | internal/jobs/storage/merge.go:132-155 | `location.raw`: each country of the openings once, as first spelled, in the order of the folded countries, with commas between them |
| JobColumns.ParentIs | internal/jobs/storage/merge.go:121-130 | the row's place is that text, and its links those of the first opening |
| JobColumns.BoardTextIs | internal/jobs/storage/repository.go:129-177 | after a board upsert that goes through, title and description of each row: those of the last listing of its id that counts and has such a text, else what the row had, else those of its first listing |
| JobColumns.BoardSightings | internal/jobs/storage/repository.go:129-177 | and its sightings, close columns and posting date; rows without a listing that counts stay as they are |
| JobColumns.IngestColumns | internal/jobs/storage/repository.go:45-76 | an ingest that nothing interrupts leaves a row's texts, first sighting, company, board sighting and close columns, and no other row changes |
| JobColumns.BoardIsIngest | internal/jobs/storage/merge.go:41-50 | but for title and description a board listing leaves the vacancy that an ingested one leaves |
| JobTable.JobRepository.SaveIngest | internal/jobs/storage/repository.go:45-76 | a call that nothing interrupts: the exact row written, close columns, company and board sighting preserved; an empty id changes nothing |
| JobTable.JobRepository.UpsertBoardJobs | internal/jobs/storage/repository.go:129-177 | a call that nothing interrupts: the rows of the whole list, stale listings skipped; on a listing without id the earlier writes stay |
| JobTable.JobRepository.CloseAbsent | internal/jobs/storage/repository.go:83-99 | closes exactly the open, board-seen, unlisted rows of the company, and counts them |
| JobTable.JobRepository.ReopenPresent | internal/jobs/storage/repository.go:103-117 | reopens exactly the closed, listed rows of the company, and counts them |
| JobTable.JobRepository.BackfillCompanyKeyRef | internal/jobs/storage/repository.go:182-215 | links exactly the rows of the content keys that are not linked yet |
| JobTable.JobRepository.DeleteLastSeenBefore | internal/jobs/storage/repository.go:311-314 | removes exactly the rows last seen before the cutoff |
| JobTable.StepValid | internal/jobs/storage/repository.go:45-198 | every uninterrupted write keeps the lifecycle rules of every row |
| JobTable.RunValid | internal/jobs/storage/repository.go:45-198 | over every run of whole writes: closed_at is set exactly when closed_by is ATS, and a closed row was seen on a board and refers to a company; `JobInterleaving.RunSound` is the same over all interleavings |
| JobTable.StepLifecycle | internal/jobs/storage/repository.go:45-198 | under a write that nothing interrupts a row closes exactly by CloseAbsent and reopens exactly by ReopenPresent under their conditions, and goes only by retention |
| JobTable.NewRowsAreOpen | internal/jobs/storage/repository.go:45-177 | a row that an uninterrupted write adds is open and comes from a listing |
| JobTable.FirstSeenNeverMoves | internal/jobs/storage/repository.go:45-198 | over whole writes, while a row stays, its first sighting never moves and it keeps a company and a board sighting once it has them |
| JobTable.SomebodyClosed | internal/jobs/storage/repository.go:83-99 | over whole writes, a row that was open and is closed was closed by a CloseAbsent of the run that did not list it |
| JobInterleaving.IngestIsReadAndSave | internal/jobs/storage/repository.go:45-76 | a read and a save with nothing in between are the ingest as one write |
| JobInterleaving.UpsertIsItsStatements | internal/jobs/storage/repository.go:129-177 | the reads and saves of a board upsert with nothing in between are the upsert as one write |
| JobInterleaving.RunSound | internal/jobs/storage/repository.go:45-198 | the lifecycle rules hold over every interleaving of the statements of any number of callers |
| JobInterleaving.StatementLifecycle | internal/jobs/storage/repository.go:45-198 | one statement: a row goes only by retention; its close columns move only by CloseAbsent, by ReopenPresent, or by a save that read other ones and puts those back |
| JobInterleaving.ReadWaits | internal/jobs/storage/repository.go:50-54 | what a caller saves later is computed from the row as it was at its read |
| JobInterleaving.ClosedByPollsOnlyIff | internal/jobs/storage/repository.go:42-76 | over every interleaving the close columns of a row move by CloseAbsent and ReopenPresent only, if and only if every save over the row finds the close columns that it read |
| JobInterleaving.UndisturbedIsEnough | internal/jobs/storage/repository.go:42-76 | they do when between a read of the row and its save no other statement closes, reopens or deletes it |
| JobInterleaving.TornSaveReopens | internal/jobs/storage/repository.go:42-76 | a run from the empty table: a poll closes the row between the read and the save of an ingest, and it is open again |
| JobInterleaving.OriginNeverMoves | internal/jobs/storage/repository.go:45-198 | over every interleaving, while a row is not deleted, its first sighting, content key and creation never move |
| JobInterleaving.LosesSightingIff | internal/jobs/storage/repository.go:70-75 | a statement takes a company or a board sighting from a row exactly when it saves an ingest that read the row without it |
| JobInterleaving.TornSaveLosesSighting | internal/jobs/storage/repository.go:70-75 | a run from the empty table in which that happens |
| JobInterleaving.NewRowClosedIff | internal/jobs/storage/repository.go:45-177 | a row that appears is closed exactly when a save puts back one that was read closed and deleted since |
| JobInterleaving.SaveUndoesRetention | internal/jobs/storage/repository.go:311-314 | a run from the empty table: a deleted row comes back, closed |
| JobInterleaving.SomebodyClosedIt | internal/jobs/storage/repository.go:83-99 | over every interleaving a row that was open, or not there, and is closed at the end, was closed by some CloseAbsent of the run |
| BoardApply.ApplyJobs | internal/companies/impl/poll.go:218-266 | the rows after upsert, reopen and close, the number of rows upserted and closed, the exact errors, and the rows a failed upsert leaves |
| BoardApply.AppliedIsARun | internal/companies/impl/poll.go:244-264 | a poll is a run of three writes on the table, so the lifecycle theorems of `JobTable` hold for it |
| BoardApply.OpenAfterComplete | internal/companies/impl/poll.go:218-266 | with any four clock readings: open on the board is what is listed and was written now or on the board before |
| BoardApply.CompleteIsExactIff | internal/companies/impl/poll.go:218-266 | the open rows are exactly the listed ids if and only if each listed id was written or on the board before |
| BoardApply.CompleteIsExact | internal/companies/impl/poll.go:218-266 | when the two cutoffs agree on the listings, they are exactly the non-stale ids on the board |
| BoardApply.GapJobIsLost | internal/jobs/storage/repository.go:133-136 | a vacancy between the two cutoffs is listed and its row is missing |
| BoardApply.Untouched | internal/companies/impl/poll.go:218-266 | an unlisted row stays as it is unless the board is complete and the row is open, board-seen and the company's |
| BoardApply.ForeignUntouched | internal/companies/impl/poll.go:218-266 | a listed row of another company that the upsert skips stays as it is |
| BoardApply.PartialOnlyGrows | internal/companies/impl/poll.go:90-113 | a poll that closes nothing leaves every open row open and removes none |
| BoardApply.ClosedIsExact | internal/companies/impl/poll.go:218-266 | the close step closes exactly the rows that were open on the board and are not listed, and reports their number |
| BoardApply.RepeatCloses | internal/companies/impl/poll.go:218-266 | a second poll of the same list, with any clocks, closes exactly the rows the first one left open that turned stale in between |
| BoardApply.RepeatClosesNothing | internal/companies/impl/poll.go:218-266 | when none did it goes through and returns zero |
| CompanyKeys.NameTrimmedIff | internal/domain/utils/identity.go:46-56 | a normalized name has a blank at an end exactly when it has two or more words and the first or last is only dots and commas |
| CompanyKeys.UntrimmedName | internal/domain/utils/identity.go:46-56 | the name "foo ..." is an instance |
| CompanyKeys.NameIs | internal/domain/utils/identity.go:46-56 | the key of every name: its words in lower case, but for the five legal suffixes, without dots and commas behind them, with one blank between |
| CompanyKeys.DomainIs | internal/companies/impl/identity.go:18-47 | the domain of every website: its host without "www." and "careers." before it |
| CompanyTable.CompanyRepository.Upsert | internal/companies/storage/repository.go:34-65 | inserts, or overwrites everything but the first sighting; exact errors |
| CompanyTable.CompanyRepository.FindByWebsite | internal/companies/storage/repository.go:84-98 | the matching row with the smallest key, or the exact error |
| CompanyTable.CompanyRepository.FindByAlias | internal/companies/storage/repository.go:101-122 | the matching row with the smallest key, or the exact error |
| CompanyTable.CompanyRepository.MarkPolled | internal/companies/storage/repository.go:233-260 | writes the poll columns of one row and nothing else |
| CompanyTable.CompanyRepository.MarkResolution | internal/companies/storage/repository.go:263-286 | writes the resolution columns of one row and nothing else |
| CompanyIdentity.Discovery.LookupExisting | internal/companies/impl/upsert.go:79-131 | the row and the other form found by key, then website, then alias |
| CompanyIdentity.Discovery.MergeAggregatorSighting | internal/companies/impl/upsert.go:151-184 | the merged row, woken if it was INACTIVE |
| CompanyIdentity.Discovery.UpsertFromAggregator | internal/companies/impl/upsert.go:17-77 | the whole companies table, the whole jobs table where there is one, and the result of a sighting |
| CompanyIdentity.SightKeeps | internal/companies/impl/upsert.go:17-66 | a sighting keeps every key and first sighting and adds at most the row it names |
| CompanyColumns.SightAnswer | internal/companies/impl/upsert.go:17-35 | a sighting is refused without a name and skipped when it is blocked; both change nothing |
| CompanyColumns.MergedInto | internal/companies/impl/upsert.go:79-131 | the company a sighting merges into: by its forms as keys, in order, else the least key with its website, then with its domain, else with a form as an alias |
| CompanyColumns.CreatedOnlyIfUnknown | internal/companies/impl/upsert.go:79-131 | one is created only if none of these finds one |
| CompanyColumns.MergedColumns | internal/companies/impl/upsert.go:151-184 | a sighting that merges leaves the company ACTIVE and seen now; the streak goes to zero if it was INACTIVE and stays otherwise; when website and board URL are filled; polls and resolution stay |
| CompanyColumns.MergedAliases | internal/companies/impl/upsert.go:186-197 | and its aliases gain at most one form |
| CompanyColumns.CreatedColumns | internal/companies/impl/upsert.go:51-66 | all columns of a company that a sighting creates, or writes over another one |
| CompanyIdentity.SightedTwice | internal/companies/impl/upsert.go:17-66 | for every table, a second sighting goes to the same key and adds no row; it merges except where a row was created without website under an untrimmed name |
| CompanyIdentity.LookupAgain | internal/companies/impl/upsert.go:79-131 | after a merge the lookup finds the same company, by whichever way it was found |
| CompanyIdentity.AgainCreatedName | internal/companies/impl/upsert.go:79-131 | a company created without website is found again exactly when its key is trimmed |
| CompanyIdentity.SightKeepsAliasesDistinct | internal/companies/impl/upsert.go:186-197 | no alias list gets a duplicate |
| CompanyIdentity.OwnAliasIff | internal/companies/impl/upsert.go:165-197 | a company has its own key among its aliases exactly when it had, or the appended form is the key with white space at an end |
| CompanyIdentity.TrimmedFormsGainNoOwnAlias | internal/companies/impl/upsert.go:54-58 | with trimmed forms no alias list gains its own key |
| CompanyIdentity.OwnAliasWitness | internal/companies/impl/upsert.go:54-58 | the name "foo ..." with the website "foo" gains its own key |
| CompanyLink.LinkedIff | internal/companies/impl/upsert.go:70-77 | a job is linked to the company exactly when its content key is the trimmed key or a trimmed alias; no lifecycle column moves |
| CompanyLink.OwnJobsLinkedIff | internal/companies/impl/upsert.go:70-77 | the jobs of the company's own key are linked exactly when that key has no white space at an end |
| CompanyLink.UntrimmedFormIsNeverLinked | internal/jobs/storage/repository.go:182-215 | a job whose content key has white space at an end is never linked |
| CompanyLink.SightedJobStaysUnlinked | internal/companies/impl/upsert.go:51-66 | the name "foo ...": its job and the company its sighting creates have one key, and the job stays without company |
| CompanyLife.Service.Poll | internal/companies/impl/poll.go:41-173 | succeeds exactly when the company is due, the board answers and its listings can be written; the exact result, the exact error of each refusal, and both tables: the answered poll of the step system, or the company untouched; after COMPLETE the company is ACTIVE |
| CompanyLife.Service.RecordPollTransportFailure | internal/companies/impl/poll.go:191-216 | counts one failure and leaves the rest; exact errors |
| CompanyLife.Service.Resolve | internal/companies/impl/resolve.go:27-115 | the row and the reply after a resolution attempt; only a PENDING company changes; exact errors |
| CompanyLife.Service.Candidates | internal/companies/impl/resolve.go:39-62 | the first board that a candidate names directly, otherwise the first one behind a redirect |
| SeedImport.Importer.ImportSeedRow | internal/companies/impl/import.go:46-180 | the whole table, the counters and the error after one row of the seed sheet |
| SeedImport.Importer.ImportSeedRows | internal/companies/impl/import.go:32-44 | the same for a whole sheet, which stops at the first error |
| SeedImport.ImportKeeps | internal/companies/impl/import.go:46-180 | one row keeps every key and first sighting, adds at most one key, and counts itself once |
| SeedImport.SheetBalances | internal/companies/impl/import.go:32-180 | the counters of every sheet balance: rows seen are skipped, blocked, created, merged or the one that failed; no company is lost and no more are added than reported created |
| CompanyColumns.ImportAnswer | internal/companies/impl/import.go:46-180 | what a seed row does and how it is counted: skipped, blocked, refused, merged into the company its forms find, or created; and its status |
| CompanyColumns.ImportedColumns | internal/companies/impl/import.go:46-180 | the columns it leaves: ACTIVE, and the board of the row whatever was there before |
| CompanyLife.ParsedHitSound | internal/companies/impl/resolve.go:146-215 | a pollable board that is recognised has a slug |
| CompanyPolls.HostsAre | internal/companies/impl/resolve.go:175-215 | the board and the address of each host |
| CompanyPolls.BoardOf | internal/companies/impl/resolve.go:146-236 | what a URL names: such a board, or else a foreign one by the nine names, or nothing |
| CompanyPolls.FoundBoardIs | internal/companies/impl/resolve.go:39-62 | the board URL goes before the website, and both before what is behind their redirects |
| CompanyPolls.ResolvedColumns | internal/companies/impl/resolve.go:27-115 | all columns of a company after a resolve attempt |
| CompanyPolls.AnsweredColumns | internal/companies/impl/poll.go:65-173 | all columns of a company after a poll, for each of the five outcomes |
| CompanyPolls.FailedColumns | internal/companies/impl/poll.go:191-216 | and after a transport failure |
| CompanyPolls.JobsAfterPoll | internal/companies/impl/poll.go:84-266 | the jobs after a poll, for each outcome, with the exact counts it reports |
| CompanyPolls.WritesIff | internal/companies/impl/poll.go:218-266 | they can be written exactly when every listing that is young enough has an id |
| CompanyLife.RunSound | internal/companies/impl/poll.go:65-216 | over every history of polls, failures, resolutions, sightings and imports: ACTIVE means a streak below 5, RESOLVED means a pollable ATS and a slug, no alias is listed twice, keys and first sightings never change |
| CompanyLife.RowHistory | internal/companies/impl/poll.go:65-216 | each row of the table lives the history of its own acts |
| CompanyLife.StreakCountsEmpties | internal/companies/impl/poll.go:65-136 | the streak is the number of EMPTY answers since the last COMPLETE, PARTIAL, wake or rewrite |
| CompanyLife.FailCountCountsFailures | internal/companies/impl/poll.go:138-216 | the fail count is the number of DEAD_SLUG answers and transport failures since the last other answer or rewrite |
| CompanyLife.CountsFromTheStart | internal/companies/impl/poll.go:65-216 | the same for a history without a reset |
| CompanyLife.PollLeavesResolvedIff | internal/companies/impl/poll.go:138-169 | one poll takes RESOLVED away exactly on a DEAD_SLUG that brings the fail count to three, and keeps slug, ATS and board |
| CompanyLife.PollKeepsIdentity | internal/companies/impl/poll.go:65-173 | which ETag and poll state each outcome leaves, and that identity, website and sightings stay |
| CompanyHistory.RowAt | internal/companies/impl/poll.go:65-216 | at every point of every run a row is what its acts so far made of it, and both counters are the numbers of acts they stand for |
| CompanyHistory.CountersCount | internal/companies/impl/poll.go:65-216 | fail count and streak are the numbers of failures and EMPTY answers since the last act that resets them, whichever that was |
| CompanyHistory.LeavesResolvedIff | internal/companies/impl/poll.go:138-169 | in every run, an answered poll takes a row out of RESOLVED exactly when it is a DEAD_SLUG and at least three failures of the row, with it, lie since the last reset |
| CompanyHistory.InactiveIff | internal/companies/impl/poll.go:65-136 | over every sequence of acts: a row is INACTIVE exactly when an EMPTY brought its streak to five, or it was at first, and no COMPLETE, sighting, seed row or rewrite reached it since |
| CompanyHistory.InactiveRowIff | internal/companies/impl/poll.go:65-136 | over every run the same of each row of the table |
| CompanyHistory.Born | internal/companies/impl/upsert.go:51-66 | a row that is there at the end and was not at the start was born in between with both counters at zero, so the history of its acts starts there |
| CompanyHistory.ActRevivesIff | internal/companies/impl/resolve.go:35-37 | one act takes a company out of UNRESOLVED exactly when it is a seed row or a rewrite in another status |
| CompanyHistory.UnresolvedIsNotRetried | internal/companies/impl/resolve.go:35-37 | over every run a row stays UNRESOLVED all the way exactly when no such act reaches it |
| CompanyHistory.RetryNeverComes | internal/companies/impl/resolve.go:27-72 | a company sighted by name alone: its resolution announces a retry, and a resolution at that time or any other changes nothing |
| CompanyInterleaving.StatementsAreTheAct | internal/companies/impl/poll.go:65-216 | the statements of a poll, failure, resolve attempt, sighting or seed row, with nothing in between, are the act as one write |
| CompanyInterleaving.RunSound | internal/companies/impl/poll.go:65-216 | over every interleaving of the statements the row invariants of `CompanyLife.RunSound` hold: lost updates break none of them |
| CompanyInterleaving.MergeKeepsPollsIff | internal/companies/storage/repository.go:34-65 | the write of a sighting or seed row leaves fail count, poll time and ETag alone exactly when they are as it read them |
| CompanyInterleaving.SightingKeepsStatusIff | internal/companies/storage/repository.go:34-65 | and a sighting leaves status, ATS, slug and retry time alone exactly when they are as it read them |
| CompanyInterleaving.LateSightingLosesFailure | internal/companies/impl/upsert.go:37-50 | a run in which a counted failure is lost |
| CompanyInterleaving.LateSightingRevives | internal/companies/impl/upsert.go:37-50 | a run in which an UNRESOLVED company is PENDING again, though no seed row and no rewrite reached it |
| PhraseCount.CountHits | internal/scoring/impl/evaluate.go:947-970 | the index-jumping loop counts exactly the positions where the folded phrase stands on whole words, is not skipped and is not negated |
| PhraseCount.CountIs | internal/scoring/impl/evaluate.go:947-999 | the count said of the characters: every place where the phrase stands as a whole word and is neither skipped nor denied |
| PhraseCount.DeniedIs | internal/scoring/impl/evaluate.go:947-999 | when a place is denied, said of the text before it |
| PhraseCount.Index | internal/scoring/impl/evaluate.go:958-962 | first-index search: the first occurrence, or none at all |
| PhraseCount.IsNegated | internal/scoring/impl/evaluate.go:975-980 | decides negation |
| PhraseCount.WindowBefore | internal/scoring/impl/evaluate.go:982-992 | computes the negation window |
| PhraseCount.WindowShape | internal/scoring/impl/evaluate.go:982-992 | the window is the longest stretch before the hit of at most fifty characters without a stop |
| PhraseCount.NegationIsLocal | internal/scoring/impl/evaluate.go:975-999 | negation depends on the window alone, the prefix non- included |
| PhraseCount.EarlierSentencesDoNotNegate | internal/scoring/impl/evaluate.go:975-999 | what stands before a stop or after the phrase has no say |
| PhraseCount.DistantWordsDoNotNegate | internal/scoring/impl/evaluate.go:982-986 | nor has what stands more than fifty characters before it |
| FactSignals.FactsByField | internal/scoring/impl/fact_signals.go:15-48 | among all the signals each field's cut, its conflict and the narrow penalty stand exactly under their own conditions, and every signal is of one of these kinds |
| FactConditions.CutsAre | internal/scoring/impl/fact_signals.go:50-238 | the cut of each of the six fields said of verdict and profile alone; two fields never cut |
| FactConditions.ClashesAre | internal/scoring/impl/fact_signals.go:240-275 | and the conflict of each of the five fields that can have one |
| FactConditions.VerdictPays | internal/scoring/impl/fact_signals.go:277-437 | the points of every verdict: for each office code and time zone, once for a broad scope, the penalty of a narrow one, once for each other known value |
| FactSignals.CutAndConflictIff | internal/scoring/impl/fact_signals.go:240-254 | no field is cut and in conflict at once, but for the office of a profile that scores it without any allow list; the exact condition |
| FactSignals.OfficeCutAndConflictOccur | internal/scoring/impl/fact_signals.go:440-465 | an office in France and a phrase about the place do both |
| FactSignals.NarrowExcludesCut | internal/scoring/impl/fact_signals.go:116-153 | the narrow penalty and the scope cut never stand in one list |
| FactSignals.BroadHomeKeepsScope | internal/scoring/impl/fact_signals.go:76-97 | for a residence in Europe, EMEA or anywhere, a scope that earns the bonus or takes back the office cut is never cut |
| FactSignals.BonusAndCutIff | internal/scoring/impl/fact_signals.go:332-345 | a scope that earns the bonus is cut all the same exactly when it is restricted and no residence is broad or named in it |
| FactSignals.FactKinds | internal/scoring/impl/fact_signals.go:15-48 | a cut for review is among the signals exactly when the condition of the office, time zone, pay or work mode cut holds, one that rejects exactly when that of the scope or the authorization does |
| FactSignals.ScopeBonusOnce | internal/scoring/impl/fact_signals.go:298-345 | the scope bonus is given once, exactly when the scope is worldwide or restricted to a broad region |
| FactSignals.OfficeCutsAre | internal/scoring/impl/fact_signals.go:50-74 | a signal is among the office cuts exactly when it names a code that both allow lists miss, and the cut is not suppressed |
| FactSignals.OfficeCutSignals | internal/scoring/impl/fact_signals.go:50-74 | the two loops compute these cuts |
| FactSignals.WorkAuthCutSignals | internal/scoring/impl/fact_signals.go:165-198 | a cut exactly when the value is gated and names countries that all miss the residence |
| Scoring.ChooseBucket | internal/scoring/impl/evaluate.go:767-827 | the bucket depends on what the signals hold, not on the order of the pass |
| Scoring.VerdictRejectsIff | internal/scoring/impl/evaluate.go:86-104 | with a verdict a job is rejected exactly when it was without it, or the scope or authorization cut fires: no verdict rescues |
| Scoring.BucketIff | internal/scoring/impl/evaluate.go:767-810 | score and bucket of an evaluation: TOP exactly for a score at the threshold without gate or cut, and for architecture with a point for the title; REJECTED exactly for a gate or cut that does not only ask for a review |
| Scoring.SignalsAre | internal/scoring/impl/evaluate.go:86-104 | its signals: those of the phrases, a cut exactly for a posting older than thirty days, and those of the verdict |
| Scoring.SoftCutsGoToReview | internal/scoring/impl/evaluate.go:767-796 | with one of the other fact cuts the score has no say: the bucket is REVIEW, unless something rejects |
| Scoring.SkippedByEnrichIsRejected | internal/scoring/impl/evaluate.go:748-765 | an open job first seen in the window that enrich's query skips at t is rejected by every run that starts at t or later, whatever its verdict |
| Scoring.ClippedAwards | internal/scoring/impl/evaluate.go:120-172 | the loop with the remaining cap computes the awards |
| Scoring.AwardsFillTheCap | internal/scoring/impl/evaluate.go:157-172 | the body bonus is the offered weight or the cap, whichever is less |
| Scoring.Scorer.JobsToScore | internal/scoring/impl/score.go:30-47 | every job first seen in the ten days before the start, or posted more than thirty days before it, once, and no other |
| Scoring.Scorer.Score | internal/scoring/impl/score.go:17-61 | scores exactly the eligible jobs, keeps user statuses and all other matches, and returns their number |
| Scoring.Scorer.RescoreJobs | internal/scoring/impl/score.go:65-125 | re-evaluates every match of the listed jobs at its own run's start and nothing else; exact error conditions, and what an error may leave behind |
| Scoring.ScoredMatch | internal/scoring/impl/score.go:17-61 | each match after a score: of a job first seen within ten days or posted more than thirty days ago it is written and keeps its user's status; any other stays |
| Scoring.RescoredMatch | internal/scoring/impl/score.go:65-125 | each match after a rescore |
| Scoring.RescoreIsScoring | internal/scoring/impl/score.go:17-125 | scoring a run and rescoring when verdicts arrive equals scoring with those verdicts |
| ScoreHistory.ScoreIsStep | internal/scoring/impl/score.go:17-61 | the score method has the effect of an uninterrupted score pass |
| ScoreHistory.ScoreIsItsStatements | internal/scoring/impl/score.go:17-61 | a read and the writes of all its matches, in any order with nothing in between, are that pass |
| ScoreHistory.RescoreIsStep | internal/scoring/impl/score.go:65-125 | the rescore method has the effect of an uninterrupted rescore |
| ScoreHistory.RescoreIsItsStatements | internal/scoring/impl/score.go:65-125 | and so have the statements of a rescore |
| ScoreHistory.OutcomeIsTheLastWrite | internal/scoring/impl/score.go:17-125 | over every history, passes interleaved with everything else: a match has the outcome and the run that its last write took from the read of its pass, or, never written, those it had at first |
| ScoreHistory.FreshUnlessChanged | internal/scoring/impl/score.go:17-125 | it is what its run would write now if job and verdict are as they were at that read |
| ScoreHistory.ChangesOnlyBy | internal/enrich/workflows/enrich_batch.go:138-155 | only a write or a deletion of the job's row, or the first verdict stored for its text, changes those |
| ScoreHistory.BasedOnNowIff | internal/enrich/workflows/enrich_batch.go:138-155 | while job rows stay and each job with a stored verdict is rescored some time later: a match is based on the verdict of now if and only if none arrived between the read and the write of its last pass |
| ScoreHistory.EnrichingKeepsUpToDate | internal/enrich/workflows/enrich_batch.go:138-155 | when none does, every match of every run stays what that run would write now |
| ScoreHistory.LateScoreMissesVerdict | internal/scoring/impl/score.go:48-59 | a history in which a verdict is stored and followed up, and the match of a score that read before keeps the outcome without it |
| ScoreHistory.StatusIsTheUsers | internal/scoring/storage/repository.go:225-252 | no score and no rescore touches a user status: over every history it is the one set last, or NEW |
| ScoreHistory.FollowsScoresIff | internal/scoring/impl/score.go:65-125 | over every history a match belongs, at every point, to the last run that scored it if and only if every rescore writes it under the run that was the last when it read |
| ScoreHistory.NoScoreBetween | internal/scoring/impl/score.go:72-121 | which is so when no score writes the match between the read and the write of a rescore |
| ScoreHistory.LateRescoreUndoesRun | internal/scoring/impl/score.go:72-121 | a history in which a rescore gives a match of the second run back to the first |
| Enrich.VerdictRepository.Insert | internal/enrich/storage/repository.go:33-63 | the first verdict of a key stays; exact errors |
| Enrich.VerdictRepository.ReadyJobIDs | internal/enrich/storage/repository.go:187-215 | the jobs that have a row for their current hash |
| Enrich.Service.MissingIDs | internal/enrich/impl/service.go:66-83 | the candidates of the query with a long enough text and no verdict |
| Enrich.Service.Statuses | internal/enrich/impl/service.go:143-189 | the status of each listed job, and when the call fails |
| Enrich.VerdictRepository.Verdict | internal/enrich/storage/repository.go:66-88 | the verdict of a key, or the exact error of an empty part |
| Enrich.Service.BuildBatchItems | internal/enrich/impl/service.go:325-359 | the listed jobs without a verdict, each once, in order; fails exactly on a listed job that is not stored or has an empty model or hash, with the error of the first one |
| Enrich.UnverdictedIs | internal/enrich/impl/service.go:325-359 | what that list holds, both ways, without repetition |
| Enrich.UnverdictedInOrder | internal/enrich/impl/service.go:325-359 | and in which order: what the head of the list gives comes first |
| Enrich.PendingIffMissing | internal/enrich/impl/service.go:143-189 | a stored job is pending exactly when it is among the missing ones |
| Enrich.MissingIff | internal/enrich/impl/service.go:66-83 | which jobs are missing: window, age, length and verdict of a row, with the defaults written out |
| Enrich.StatusIs | internal/enrich/impl/service.go:143-189 | and what a job is told |
| Enrich.InsertRemovesOne | internal/enrich/storage/repository.go:139-160 | storing a verdict takes its job, and no other, off the missing ones |
| Enrich.NewTextIsPendingAgain | internal/enrich/impl/service.go:373-382 | a job whose text changed is pending and missing again |
| Batches.FirstBatchChunk | internal/enrich/impl/batches.go:95-123 | the chunk and the exact remainder |
| Batches.ChunkIsLongest | internal/enrich/impl/batches.go:95-123 | a non-empty prefix within both caps unless it is a single item, and every longer prefix breaks a cap |
| Batches.ChunksRepartition | internal/enrich/impl/batches.go:95-123 | iterating ends and repartitions the input |
| Batches.BodyIsOneByteLonger | internal/enrich/impl/batches.go:28-29 | the body sent is one byte longer than its account |
| Batches.BodyExceedsCapIff | internal/enrich/impl/batches.go:95-123 | told from the items: the body exceeds the byte cap exactly when the first item does by itself or some allowed prefix fills the cap; by one byte for several items |
| Batches.BodyOverCapWitness | internal/enrich/impl/batches.go:28-29 | any two items and the cap that their account fills: both go into one body, one byte over the cap |

## Left out

- HTTP clients, browser control, HTML selectors and the field mapping of each board.
- GORM, Postgres, Redis and Temporal themselves: they are maps with the stated keys, single-command steps, and activities whose results are arbitrary. Database errors are modelled where a protocol depends on them (`StartRun`, `IngestLock`), not elsewhere.
- Cancellation of `PollCompaniesWorkflow`: without it neither the semaphore nor the mutex returns an error.
- `Repository.Save` of the jobs table: a raw overwrite outside the lifecycle.
- `ListDuePollable`, `ListPendingResolve`, listing and paging: filters without an invariant of their own.
- NuxtGraph.Decode: a Go container is identified with the slot that created it, and a JSON number with its parsed value; key order of a map is not fixed.
- JobMerge.SaveOrderDoesNotMatter: says nothing about the spelling of a country label or the website, because the first arrival decides them; the titles and the other texts are those of the first listing by design.
- JobMerge: the columns no merge touches (company, salary text, tags, position, location type, time zone) are one field. The library's stable sort is a function.
- CompanyLife.Service.Poll: the company is read and written in one step, and so are the histories of `CompanyHistory`; `CompanyInterleaving` says what of them survives when statements interleave.
- BoardApply.ApplyJobs: nothing else writes the rows during a poll; `JobInterleaving` has the statements of polls among those of others, without the exact set of open rows.
- StartRun: that a workflow marks its run before it closes is assumed; a workflow that fails to mark is not part of this model.
- IngestLock.KeysCollideIff: the lower-casing maps one character to one, keeps white space and is idempotent (`Lowers`), as Go's does.
- ScoreHistory: profiles do not change over a history, the reads of one pass happen at one moment, and a pass that stops early is one whose other writes never come.
- SeedImport: reading the sheet file and asking a board during an import are parameters of a row.
- Gate, salary, experience, freshness, location and penalty signals: functions of profile, job and clock in `Scoring.Phrases`.
- Map iteration in enrich: results are sets and maps, so their order and the chunking of queries are not modelled. `SubmitMissing`, `StoreVerdicts` and the batch API are left out.
- JobTable: `created_at` is never zero, so the fallback for a zero value is not modelled.
- Widths of integers: sizes and counters are unbounded; times are seconds.
