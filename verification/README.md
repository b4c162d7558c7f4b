# Verified model of the meshbug projector

Meshbug captures MQTT messages into an append-only log, `raw_events`. One
projector process reads that log in id order, decodes it and maintains every
derived table. This project models that projector, the log it reads, the
anomaly rules that run on its tables, and the in-process hub that feeds live
pages, and proves what they promise. `dafny verify dfyconfig.toml` checks all of
it.

## What is modelled

* **Stages.** Each Go file under `internal/project/stages` that is in scope has a
  module. It first says, as functions of values, what Apply, the flush, the
  rehydrate and the eviction do to memory and to the table. A class then does the
  same in place, with the maps, loops and flags of the Go, and is proved against
  those functions. A one-pass `Fold` over the log is the reference, and lemmas say
  what the fold means without recursion (counts, least, greatest, last non-empty).
* **The projector as a state machine.** `Projection` defines `Memory`, `Tables` and
  the steps `Batch` (a committed batch), `Abort` (an attempt whose transaction is
  rolled back while the process lives on), `Crash` (memory lost) and `Reset`. An
  attempt can fail at any answer of the database: between two stages, or inside the
  rehydrate or the upserts of a cache, with some rows merged and `loaded` not set.
  `Run` is the system after any sequence of steps; `Legal` says that a retry starts
  with the failed batch, and that event times are after the zero time.
  `PipelineSteps` and `ProjectorLoop` prove that `ProcessBatch`, `catchUp` and `Reset`
  make exactly these steps, and that whatever happens in a projector's life (rows added
  at the end of the log, catch-ups that succeed or fail, restarts, resets) is a legal run.
* **Whole runs.** `Invariants` keeps an invariant of every stage over every legal run.
  For each rollup bucket a `Ledger` says what its row has counted, and what memory has
  counted beyond it. `Readings`, `Transparency`, `FailedAttempts`, `Accuracy`, `Conservation` and
  `AnomalyRuns` say what a reader of the tables may conclude: batching, eviction,
  restarts and retention are invisible, failed attempts are not, and where they show.
  `Columns` and `Averages` say what each stored column is in terms of the fields of the
  log's events alone, partially sampled averages included.
* **The log.** `RawLog` is the write side and `CursorProtocol` interleaves ingesters
  with the projector, id by id.
* **The hub.** `Hub` is the class and the protocol of concurrent subscribers,
  publishers and receivers.

Retention times are parameters of every theorem, from "evict everything" to "never
evict"; the source's values are one hour (`internal/project/stages/unique.go:16`,
`internal/project/stages/rollup_observer.go:68`,
`internal/project/stages/rollup_neighbor.go:306`) and one day
(`internal/project/stages/rollup_observer.go:78`). Times are integers, counted from
Go's zero time, so that 0 is "unset". Averages are integers in hundredths, the unit
of the `numeric(6,2)` column.

## Where the code and its documentation disagree

* **More than one ingester is not safe.** `README.md:77` allows "1+" ingest replicas and
  `deploy/helm/meshbug/templates/deployment-ingest.yaml:9-10` calls several replicas safe.
  Ids are drawn before rows become visible, so a second ingester can overtake the first
  and the projector's cursor can pass an id that is not there yet.
  `CursorProtocol.ExactlyOnceIffOneIngester` proves that every interleaving projects each
  event exactly once if and only if there is at most one ingester.
* **A failed attempt is not undone in memory.** After a rolled-back transaction the process
  goes on with accumulators that have counted the batch, and counts it again on the retry.
  A rehydrate that fails after it has merged a bucket's row
  (`internal/project/stages/rollup_observer.go:290-298`) merges the row again on the retry,
  and the row is doubled: `FailedAttempts.TornLoadDoubles` is such a run.
  `FailedAttempts.RowIsLogWastedAndExcess` says what a row holds in every run, and
  `FailedAttempts.PacketCountIff` is the exact condition under which a bucket is counted
  once. The minute and hour rollups, and the neighbors and their observer, then disagree
  exactly as far as those rows were merged again (`Conservation.HourIsSixtyMinutesIff`,
  `Conservation.NeighborsAreTheMinuteIff`). `Transparency.RetryIsInvisible` shows that
  `observers`, `observer_status` and `packets_unique` do not show failed attempts at all,
  and `Transparency.UniqueSurvivesFailures` that `unique_pkts` does not either.
* **A failed commit can lose a reading.** The failed attempt has marked the accumulator clean,
  and the retried status is no newer than itself, so it is not written
  (`internal/project/stages/rollup_observer.go:150-154`). `FailedAttempts.LostReading` is a
  run after which the bucket has no row. `Readings.NothingIsMissing` shows that presence and
  noise floor are right unless a commit follows such an attempt, under any retention;
  `Readings.FirstCommitIff` says exactly when the first commit that touches a bucket leaves it
  without a row, and `Readings.LostIff` and `Readings.RowAndFloorIff` exactly which rows are
  missing and which floors are stale after any run.
* **A failed commit can skip detection minutes.** The anomaly stage has moved its clock
  (`internal/project/stages/anomalies.go:110`) when a later stage or the commit fails, and its rows are
  rolled back. `AnomalyRuns.RunOrMissed` says which minutes a process has run and which it
  has missed for good.
* **An empty, non-nil packet hash** is skipped by the live path of the observer rollup
  (`internal/project/stages/rollup_observer.go:107`) and counted by its reload
  (`internal/project/stages/rollup_observer.go:435`).
  `Transparency.UniquePacketsIff` is the exact condition for `unique_pkts`.
* **The reload forgets when the noise floor was read.**
  `internal/project/stages/rollup_observer.go:407-410` restores the value without its time, so
  the next status of the bucket wins whatever its time. `Transparency.NoiseFloorIff` is the
  exact condition.
* **Anomaly spacing does not survive every restart.** The clock re-anchors at the first batch
  of the new process (`internal/project/stages/anomalies.go:91-95`), which may lie behind
  rows that exist. `AnomalyRuns.SpacedIffNoOverlaps` is the exact condition on the events of
  the process lifetimes, and `AnomalyRuns.RestartBreaksSpacing` a run that fails it; within
  one lifetime spacing always holds.
* **`loaded` is flipped during a replay too.** The comment at
  `internal/project/stages/unique.go:38-42` says it never is; the code sets it after every
  rehydrate, with or without rows. The model follows the code.

## Model

| member | source | states |
|---|---|---|
| Transparency.CacheTransparency | internal/project/stages/rollup_observer.go:100-257 | In every run over any batches, evictions and restarts, a minute or hour row exists exactly for the buckets the log touches, and its packets, flood, direct, min and max RSSI equal the one-pass fold of the log up to the cursor; so does unique_pkts unless an empty hash may have met a reload, and the noise floor unless an older one may have |
| Transparency.NeighborTransparency | internal/project/stages/rollup_neighbor.go:54-299 | The same for rollup_neighbor_1m: a row exactly for the triples with packets, equal to the one-pass fold in packets, min and max RSSI |
| Transparency.AverageBetween | internal/project/stages/rollup_observer.go:387-400 | In every stored row of every run, failed attempts included, min, avg and max RSSI are null together and otherwise in order, through rounding, truncation and reloads weighted by packets |
| Averages.AverageIsMean | internal/project/stages/rollup_observer.go:187-191 | In any run without failed attempts the average of a minute or hour row that was never reloaded is the mean of the RSSI samples of the log in its time range, to half a hundredth, however many of its packets carry none; null without samples |
| Averages.AverageIsWeighted | internal/project/stages/rollup_observer.go:387-390 | After any number of reloads it is the mean in which what had been stored before a reload weighs as much as the packets of the row, to half a hundredth more and one over the packets for each reload |
| Averages.NeighborAverageIsMean | internal/project/stages/rollup_neighbor.go:120-124 | In any run without failed attempts the average of a neighbor row that was never reloaded is the mean of the RSSI samples of its source, observer and minute, to half a hundredth |
| Averages.NeighborAverageIsWeighted | internal/project/stages/rollup_neighbor.go:267-270 | The weighted mean and its bound for the neighbor rows after reloads |
| Averages.FoldSamples | internal/project/stages/rollup_observer.go:100-136 | The packets, the samples and their total that the one-pass fold holds are those at the log positions of this observer in [bucket, bucket + span) |
| Columns.RollupColumns | internal/project/stages/rollup_observer.go:100-155 | In any run without failed attempts, from the fields of the events: a bucket has a row exactly if a packet or a status with a noise floor of its observer lies in its time range; packets, "F" and "D" packets, least and greatest RSSI, distinct non-empty hashes unless an empty one is followed by another event of the bucket, and the newest noise floor, the first one on a tie, unless an older reading follows a newer one |
| Columns.NeighborColumns | internal/project/stages/rollup_neighbor.go:54-107 | In any run without failed attempts a neighbor row is there exactly if its observer heard a packet of its non-empty source in the minute, and holds how many it heard, with the least and the greatest RSSI |
| Columns.UniqueColumns | internal/project/stages/unique.go:55-106 | In every run, failed attempts included, a non-empty hash has a row exactly if a packet carries it: first and last time, last non-empty type, route and decoded type, first source, and the number of distinct observers |
| Columns.ObserverColumns | internal/project/stages/observers.go:69-117 | In every run, failed attempts included, an observer has a row exactly if it sent a status; model, firmware, client version, origin, source, radio settings and region are each the last non-empty value of that field in the log, and the times the least and the greatest |
| Columns.StatusColumns | internal/project/stages/status.go:51-136 | In every run, failed attempts included, an observer_status row holds the whole payload of the first status of its observer and time |
| Columns.ObservationColumns | internal/project/stages/packets.go:54-161 | In any run without failed attempts the n-th row of packet_observations is the n-th packet of the log, with its time, its observer and its whole payload, and there are no others |
| Columns.NodeColumns | internal/project/stages/nodes.go:57-130 | In any run without failed attempts a node has a row exactly if a packet advertises its key: how many do, first and last sighting, the greatest timestamp, the least arrival among its adverts, and the description of the first of them |
| Transparency.CacheIsSettled | internal/project/stages/rollup_observer.go:480-497 | After any batch with events, retried or not, the cache holds exactly the buckets that it held before or the batch touches and that end no earlier than the batch's high-water mark minus retention; each is loaded and clean |
| Transparency.NeighborIsSettled | internal/project/stages/rollup_neighbor.go:292-322 | The same for the neighbor cache: what was cached or is hit by the batch stays exactly if it is inside the retention |
| Transparency.UniqueIsSettled | internal/project/stages/unique.go:244-260 | The same for packets_unique: exactly the hashes last seen, before or in the batch, no earlier than the high-water mark minus retention stay cached, loaded and clean |
| Transparency.UniqueSurvivesFailures | internal/project/stages/rollup_observer.go:107-109 | In every run, failed attempts at any point included, a bucket without an empty hash has the exact unique_pkts in its row |
| Transparency.UniquePacketsIff | internal/project/stages/rollup_observer.go:416-474 | unique_pkts is exact for every batching and restart of a log if and only if no packet of the bucket with an empty non-nil hash is followed by another event of the bucket |
| Transparency.NoiseFloorIff | internal/project/stages/rollup_observer.go:142-155 | noise_floor is the newest one after every commit of every run over a log, failed attempts included as long as no commit follows one that had marked the bucket clean, if and only if each later reading in the bucket is newer than the newest before it or repeats its value |
| Readings.NothingIsMissing | internal/project/stages/rollup_observer.go:142-155 | In every run, any retention, in which no commit follows a failed attempt that had touched the bucket and marked it clean, the bucket has a row exactly if the log touches it, and its noise floor is the newest one unless a reload may confuse them |
| Readings.FirstCommitIff | internal/project/stages/rollup_observer.go:150-154 | The first commit that touches a bucket leaves it without a row if and only if a failed attempt since the last commit or restart had marked it clean, the batch has no packet of the bucket, and no reading newer than the newest of the last such attempt |
| Readings.LostIff | internal/project/stages/rollup_observer.go:182-254 | After any run a bucket that the log touches has no row if and only if every commit that touched it found an accumulator that failed attempts had marked clean, and brought no packet and no newer reading; a condition on events, failures and retention |
| Readings.RowAndFloorIff | internal/project/stages/rollup_observer.go:226-236 | After any run a row exists exactly if some commit found the bucket unsaved, and its noise floor is right exactly if the newest reading of the part of the log it was last written for has the value of the log's newest |
| Readings.RunNotes | internal/project/stages/rollup_observer.go:142-257 | What a cached accumulator remembers of readings, and whether it is to be written, follows from the events, the failures and the retention, through every batch, tear, eviction and restart |
| FailedAttempts.PacketCountIff | internal/project/stages/rollup_observer.go:269-307 | With attempts failing anywhere, a bucket's stored packets equal the log's if and only if no failed attempt that held one of its packets, and no failed load that had merged its non-empty row, was followed by a commit of the same process (for the load: one that wrote the bucket, still cached) |
| FailedAttempts.RowIsLogWastedAndExcess | internal/project/pipeline/pipeline.go:49-79 | In every run a row's packets, flood and direct are the log's, plus those of failed attempts that a later commit wrote, plus the row itself as often as torn loads merged it again |
| FailedAttempts.TornLoadDoubles | internal/project/stages/rollup_observer.go:290-304 | A restart, a status for a bucket with a row, and a connection lost between the two queries: after the retry the row holds twice the log's packets |
| FailedAttempts.DoubledIsExcess | internal/project/stages/rollup_observer.go:290-304 | The row counts too much for that reason exactly when some commit has written the bucket while memory held its packets once more |
| FailedAttempts.NeighborIsAbsorbedAndExcess | internal/project/stages/rollup_neighbor.go:179-299 | The same sum for a neighbor row |
| FailedAttempts.NeighborCountIff | internal/project/stages/rollup_neighbor.go:179-299 | A neighbor row's packets equal the log's under the same condition, and only then |
| FailedAttempts.ObservationsIff | internal/project/stages/packets.go:54-161 | packet_observations is the log's packets in order if and only if no failed attempt that held a packet was followed by a commit of the same process |
| FailedAttempts.AdvertCountIff | internal/project/stages/nodes.go:87-95 | advert_count is the number of the node's adverts in the log if and only if no failed attempt that held one was followed by a commit of the same process |
| FailedAttempts.PacketsArePresent | internal/project/stages/rollup_observer.go:182-254 | In every run, failed attempts included, a bucket with a packet in the log has a row, and every row's bucket is touched by the log |
| FailedAttempts.LostReading | internal/project/stages/rollup_observer.go:150-154 | A status whose commit failed is not written by the retry: the bucket has no row |
| Transparency.RetryIsInvisible | internal/project/project.go:214-219 | observers, observer_status and packets_unique end exactly as in the run with its failed attempts left out, wherever in the flush each attempt stopped |
| Transparency.SameLogSameTables | internal/project/pipeline/types.go:6-12 | Two runs without failed attempts over the same log hold the same observers, status, nodes, unique and observation tables, and the same exact rollup columns, unique_pkts unless an empty hash is followed by another event of the bucket, noise floor unless an older reading follows a newer one; whatever their batches, restarts and retentions |
| Transparency.ResetForgets | internal/project/project.go:111-121 | Whatever follows a reset is what it would have been from an empty database and an empty memory |
| Transparency.ReplayRebuilds | internal/store/queries.go:169-201 | Reset and replay under any batching rebuild every table but the anomalies as the incremental run held it, in the same columns and under the same conditions |
| Transparency.RestartedRun | internal/project/pipeline/pipeline.go:101-105 | A batch, a restart and another batch project the concatenated log, and the second flush starts from an empty memory |
| Transparency.WithoutAbortsProjects | internal/project/project.go:214-219 | Leaving the failed attempts out of a legal run gives a run that has projected the same log |
| FailedAttempts.AbsorbedIsLogPlusWasted | internal/project/pipeline/pipeline.go:52-63 | What has been absorbed for a bucket is the log plus the failed attempts that a later commit of the same process wrote |
| Invariants.RunObservations | internal/project/stages/packets.go:54-161 | In every run packet_observations holds one row per absorbed packet event, in order |
| Invariants.RunRollup | internal/project/stages/rollup_observer.go:88-307 | In every run, attempts failing anywhere included, every cached accumulator and every stored row of both observer rollups agree with the fold of what their ledger says they have counted, and the ledger holds the log's events and no others |
| Invariants.RunNeighbors | internal/project/stages/rollup_neighbor.go:109-322 | The same invariant for the neighbor rollup |
| Invariants.RunUnique | internal/project/stages/unique.go:55-260 | In every run, failed attempts at any point of the flush included, each packets_unique row is the fold of the log for its hash |
| Invariants.RunNodes | internal/project/stages/nodes.go:57-308 | In every run each nodes row is the fold of the absorbed adverts of its key |
| Invariants.RunObservers | internal/project/stages/observers.go:51-171 | In every run, failed attempts included, each observers row is the fold of the log's statuses of that observer |
| Invariants.RunStatus | internal/project/stages/status.go:51-136 | In every run, failed attempts included, each observer_status row is the first status of the log with that observer and time |
| Accuracy.AverageDrift | internal/project/stages/rollup_observer.go:387-390 | If every packet of a bucket carries RSSI, the stored average of n packets is off by at most 1/200 + r (1/n + 1/200) after r reloads, counting column rounding and truncation |
| Accuracy.NeighborAverageDrift | internal/project/stages/rollup_neighbor.go:267-270 | The same bound for the neighbor rollup |
| Conservation.HourIsSixtyMinutesIff | internal/project/stages/rollup_observer.go:64-82 | In every run the sixty minute rows of an observer-hour sum to its hour row, in packets, flood and direct each, if and only if torn loads merged as much again into the hour row as into the minute rows together |
| Conservation.HourAgreesUnlessDoubled | internal/project/stages/rollup_observer.go:290-304 | In every run the packets agree when no commit has written the hour or a minute of it in a doubled state, and do not when only the hour or only minutes were |
| Conservation.HourIsSixtyMinutes | internal/project/stages/rollup_observer.go:64-82 | They do in every run in which no failed attempt stopped inside an observer rollup's rehydrate; and the hour's hash set is the union of the minutes' |
| Conservation.HourIsSixtyMinutesClean | internal/project/stages/rollup_observer.go:64-82 | ... and so in every run without failed attempts |
| Conservation.TornLoadBreaksHour | internal/project/stages/rollup_observer.go:290-304 | The run that doubles a minute row leaves the hour row short of the sum of its minutes |
| Conservation.HourUniqueIsUnion | internal/project/stages/rollup_observer.go:100-109 | Without failed attempts the hour row's unique_pkts is the number of distinct hashes of its sixty minutes, unless an empty hash of the hour is followed by another event of it |
| Conservation.NeighborsAreTheMinuteIff | internal/project/stages/rollup_neighbor.go:59-82 | In every run the neighbor rows of an observer-minute, summed over sources, plus its source-less packets equal its minute row if and only if torn loads merged as much again into the one as into the others together |
| Conservation.NeighborsAgreeUnlessDoubled | internal/project/stages/rollup_neighbor.go:288-296 | In every run they do when no commit has written the minute or a neighbor row in a doubled state, and do not when only the one or only the others were |
| Conservation.NeighborsAreTheMinute | internal/project/stages/rollup_neighbor.go:59-82 | They do in every run in which no failed attempt stopped inside a rollup's rehydrate |
| Conservation.NeighborsAreTheMinuteClean | internal/project/stages/rollup_neighbor.go:59-82 | ... and so in every run without failed attempts |
| Conservation.TornLoadBreaksNeighbors | internal/project/stages/rollup_observer.go:290-304 | The same run leaves the neighbor rows short of the minute row |
| Conservation.UniqueMatchesObservations | internal/project/stages/unique.go:185-194 | In every run packets_unique has a row exactly for the non-empty hashes in packet_observations, and counts exactly their distinct observers there |
| Conservation.StatusHasObserver | internal/project/stages/observers.go:16-20 | In every run every observer_status row refers to an observers row |
| AnomalyRuns.RunAnomalies | internal/project/stages/anomalies.go:86-134 | In every run, failed attempts included, the anomalies table is what emitting all findings of the commits, minute by minute, gives |
| AnomalyRuns.FindingsAreCovered | internal/project/stages/anomalies.go:114-173 | In every run, restarts and failed attempts included, each finding of each configured detector at each minute that a commit ran has a stored row of its kind and subject in the 15 minutes that end there |
| AnomalyRuns.RowsAreFindings | internal/project/stages/anomalies.go:125-130 | In every run each stored row has the time, kind, subject and severity of a finding that one of the configured detectors made at a minute that a commit ran |
| AnomalyRuns.RunMinutes | internal/project/stages/anomalies.go:86-112 | In a run without failed attempts the detectors are run on the real tables at exactly the minutes that the clock of each process lifetime gives, lifetime after lifetime |
| AnomalyRuns.RunOrMissed | internal/project/stages/anomalies.go:86-112 | In every run, for events at least a minute after the zero time, the minutes after the process's anchor up to its clock are those its commits have run and those due in attempts that failed after the anomaly stage, never both |
| AnomalyRuns.RanIsLast | internal/project/stages/anomalies.go:103-110 | The minutes a process has run in commits are the last ones that were run on the tables |
| AnomalyRuns.SpacedIffNoOverlaps | internal/project/stages/anomalies.go:165-173 | In a run without failed attempts, stored rows of one kind and subject at different minutes are more than 15 minutes apart for every list of detectors, if and only if no lifetime's events make it run a minute behind an earlier lifetime's by up to a window |
| AnomalyRuns.NoOverlapsSpaced | internal/project/stages/anomalies.go:20-24 | In a run without failed attempts, under that condition, they are, and lie on whole minutes |
| AnomalyRuns.RestartBreaksSpacing | internal/project/stages/anomalies.go:91-95 | Two batches, a restart, and two older batches: some detector then makes two rows too close to each other |
| AnomalyRuns.AnomaliesAreSpaced | internal/project/stages/anomalies.go:20-24 | Within one process lifetime without failed attempts the rows are spaced, also when its first pages decode to nothing, for events at least a minute after the zero time |
| AnomalyRuns.AnomaliesAreFew | internal/project/stages/anomalies.go:20-24 | In a run without failed attempts and without such overlaps, one kind and subject has rows at no more than n / 16, rounded up, of any n consecutive minutes |
| AnomaliesStage.SpacingIffNoStepBack | internal/project/stages/anomalies.go:165-173 | For a given sequence of minutes, spacing holds whatever is found there if and only if none lies behind an earlier one by up to a window |
| AnomaliesStage.TickedCovers | internal/project/stages/anomalies.go:154-190 | Rows are only added, and every finding is covered, for any order of minutes |
| AnomaliesStage.Schedule | internal/project/stages/anomalies.go:78-112 | Over a lifetime, batches empty or not and timestamps in any order, the detectors run exactly once and in order for each minute after that of the first batch with events up to that of the last event seen |
| AnomaliesStage.RegroupingIsInvisible | internal/project/stages/anomalies.go:103-110 | How the batches after the first one with events are cut does not change which minutes are run |
| AnomaliesStage.LifetimeIsSpaced | internal/project/stages/anomalies.go:86-112 | Whatever is found at a lifetime's minutes, the rows are spaced |
| AnomaliesStage.RowsAreFew | internal/project/stages/anomalies.go:165-173 | Spaced rows on whole minutes are at no more than n / 16, rounded up, of any n consecutive minutes |
| AnomaliesStage.Anomalies.Apply | internal/project/stages/anomalies.go:78-84 | hwm becomes the greater of itself and the event's time |
| AnomaliesStage.Anomalies.Flush | internal/project/stages/anomalies.go:86-112 | The first flush anchors the clock; later ones run the detectors for every due minute, and emitted grows by exactly the new rows |
| AnomaliesStage.Anomalies.RunDetectors | internal/project/stages/anomalies.go:114-134 | Emits every detector's findings for one minute, in registration order |
| AnomaliesStage.Anomalies.EmitOne | internal/project/stages/anomalies.go:136-203 | Adds a row with the time, kind, subject and severity, and remembers it for notification, exactly when no row of the kind and subject lies in the 15 minutes before it |
| AnomaliesStage.Anomalies.Clear | internal/project/stages/anomalies.go:226-230 | Stops the clock and forgets what was emitted |
| ReceptionGapDetector.AtMostHalfFire | internal/project/stages/anomaly_reception_gap.go:53-116 | At most half of the baselined observers of a source, rounded up, fire at one minute, and never all of them |
| ReceptionGapDetector.RegisteredAtMostHalf | internal/project/project.go:86-95 | The same for the registered thresholds |
| ReceptionGapDetector.MedianBound | internal/project/stages/anomaly_reception_gap.go:85-86 | An interpolated median at or above a limit leaves at most half of the values below it |
| ReceptionGapDetector.SortSorted | internal/project/stages/anomaly_reception_gap.go:85-86 | The order the median is taken over is a sorted permutation of the peers' ratios |
| ReceptionGapDetector.PeersAreTheOthers | internal/project/stages/anomaly_reception_gap.go:82-92 | The self-join gives each rate exactly its source's other rates as peers |
| ReceptionGapDetector.RatioMeaning | internal/project/stages/anomaly_reception_gap.go:66-79 | A rate's recent packets are the total of the pair's rows in [t - recent, t), and its ratio times its baseline times the minutes of the recent window is that total |
| ReceptionGapDetector.BaselineMeaning | internal/project/stages/anomaly_reception_gap.go:53-65 | Its baseline times the number of the pair's rows in [t - recent - baseline, t - recent) is their packet total |
| ReceptionGapDetector.RateIff | internal/project/stages/anomaly_reception_gap.go:62-64 | A pair has a rate if and only if that window has at least minSamples of its rows, with packets, whose mean reaches the floor |
| ReceptionGapDetector.SteadyRatio | internal/project/stages/anomaly_reception_gap.go:76-79 | An observer that hears a source at its baseline rate in every minute of the recent window has ratio 1 |
| ReceptionGapDetector.MedianIsMiddle | internal/project/stages/anomaly_reception_gap.go:85-86 | The median of any peers is the middle one of any sorted permutation of their ratios, or halfway between the middle two |
| ReceptionGapDetector.FindingIff | internal/project/stages/anomaly_reception_gap.go:82-116 | A finding is made if and only if it carries the detector's severity and is about the observer of a rate with a ratio below the limit, enough peers, a peer median at its limit or above, and a packet of any source in the recent window |
| ReceptionGapDetector.FindingsPerGap | internal/project/stages/anomaly_reception_gap.go:132-178 | An observer is found as often as it has such rates, one for each source |
| ReceptionGapDetector.Run | internal/project/stages/anomaly_reception_gap.go:132-178 | Fails exactly when a baseline the query divides by is zero; otherwise one finding, about the row's observer and with the detector's severity, per row of the query, in order |
| ReceptionGapDetector.FloorPreventsFailure | internal/project/stages/anomaly_reception_gap.go:53-116 | A positive baseline floor, as the registered one, rules that failure out |
| RollupCore.ToRowOrdered | internal/project/stages/rollup_observer.go:187-191 | Rounding a balanced accumulator to the column keeps min, avg and max in order |
| RollupCore.MergeRowBalanced | internal/project/stages/rollup_observer.go:383-400 | Merging an ordered row back keeps n times min, sum and n times max in order and n at most packets |
| RollupCore.ReloadDrift | internal/project/stages/rollup_observer.go:387-390 | Reloading a drifted average drifts the sum by one reload more |
| RollupObserverStage.FoldCounts | internal/project/stages/rollup_observer.go:104-116 | The reference fold's packets, flood and direct are the numbers of the bucket's packets, and of those with route F and D, in the log |
| RollupObserverStage.FoldRange | internal/project/stages/rollup_observer.go:118-132 | Its min and max are the least and greatest RSSI among them, null when there is none |
| RollupObserverStage.FoldHashes | internal/project/stages/rollup_observer.go:107-109 | Its hashes are exactly the distinct non-empty ones among them |
| RollupObserverStage.HistoryIsFold | internal/project/stages/rollup_observer.go:423-436 | The range join finds exactly the bucket's non-empty hashes, and the empty one exactly if some packet carried it |
| RollupObserverStage.LoadAgrees | internal/project/stages/rollup_observer.go:269-307 | Rebuilding an accumulator from row and join gives the exact columns of everything its ledger holds |
| RollupObserverStage.SameEventsReflect | internal/project/stages/rollup_observer.go:416-474 | packet_observations holds the hashes a row has counted whenever both hold the same events, however often |
| RollupObserverStage.WrittenKeeps | internal/project/stages/rollup_observer.go:176-257 | A committed flush of a dirty accumulator leaves it clean and its row with everything memory had counted |
| RollupObserverStage.BatchKeeps | internal/project/stages/rollup_observer.go:480-497 | One committed batch, then eviction under any retention, keeps row and accumulator in agreement with the ledger, which moves on by the batch |
| RollupObserverStage.AbortKeeps | internal/project/pipeline/pipeline.go:69-79 | A failed attempt, stopped before, anywhere in or after this stage's flush, keeps that agreement; memory's side of the ledger grows by the batch, and by the row if it was merged but not loaded |
| RollupObserverStage.TornKeeps | internal/project/stages/rollup_observer.go:269-307 | A flush that fails after some merged rows, some hashes or some upserts does the same to one accumulator |
| RollupObserverStage.ApplyAllNotes | internal/project/stages/rollup_observer.go:142-155 | A batch marks an accumulator to be written exactly by a packet, or by a reading newer than those it has seen |
| RollupObserverStage.CommitRemembers | internal/project/stages/rollup_observer.go:226-236 | One committed batch leaves in the row the newest reading of the log if memory has taken one, and otherwise the one it had |
| RollupObserverStage.AbortRemembers | internal/project/stages/rollup_observer.go:182-254 | A failed attempt keeps what memory knows of readings, and marks the bucket clean exactly if it had been written |
| RollupObserverStage.ReloadCountsEmptyHash | internal/project/stages/rollup_observer.go:435 | After a restart a bucket with an empty hash in its history stores one unique packet too many |
| RollupObserverStage.ReloadTakesAnyFloor | internal/project/stages/rollup_observer.go:407-410 | After a restart the bucket's first noise floor is stored whatever its time |
| RollupObserverStage.RollupObserver.ApplyPacket | internal/project/stages/rollup_observer.go:100-140 | The in-place update of counters, hash set, sum and bounds is the stage's step for a packet |
| RollupObserverStage.RollupObserver.ApplyStatus | internal/project/stages/rollup_observer.go:142-155 | A status without noise floor changes nothing; otherwise a newer one replaces value and time |
| RollupObserverStage.RollupObserver.Touch | internal/project/stages/rollup_observer.go:157-174 | The key has an accumulator afterwards, the old one if there was one |
| RollupObserverStage.RollupObserver.Flush | internal/project/stages/rollup_observer.go:176-257 | With a working database memory and table after the flush, for every key; with one that fails at any answer, memory as torn there |
| RollupObserverStage.RollupObserver.RehydrateUnloaded | internal/project/stages/rollup_observer.go:269-307 | Exactly the dirty, unloaded accumulators are merged with their row and their history, and marked loaded only if both queries complete |
| RollupObserverStage.RollupObserver.LoadRowTotals | internal/project/stages/rollup_observer.go:309-414 | Each pending bucket with a row is merged with it, no other changes; a failure leaves those merged that were read |
| RollupObserverStage.RollupObserver.LoadHistoricalHashes | internal/project/stages/rollup_observer.go:416-474 | Each pending bucket gains exactly the hashes the join finds for it, though the row loop finds the bucket by truncating the time; a failure leaves those that were read |
| RollupObserverStage.RollupObserver.WriteDirty | internal/project/stages/rollup_observer.go:182-254 | Exactly the dirty accumulators are upserted and marked clean; a failure leaves those clean that were written |
| RollupObserverStage.RollupObserver.Evict | internal/project/stages/rollup_observer.go:480-497 | Drops exactly the clean accumulators whose bucket ended before the cutoff, and cleans the rest |
| Events.TruncateIsRange | internal/project/stages/rollup_observer.go:433-434 | A time truncates to a bucket start exactly when it lies in the bucket's half-open range |
| RollupNeighborStage.LoadAgrees | internal/project/stages/rollup_neighbor.go:179-299 | Rebuilding from the row gives the exact columns of everything the ledger holds |
| RollupNeighborStage.BatchKeeps | internal/project/stages/rollup_neighbor.go:109-177 | One committed batch, then eviction, keeps row and accumulator in agreement with the ledger |
| RollupNeighborStage.AbortKeeps | internal/project/pipeline/pipeline.go:69-79 | A failed attempt keeps it, wherever it stopped; a row merged but not loaded is counted once more |
| RollupNeighborStage.TornKeeps | internal/project/stages/rollup_neighbor.go:179-299 | A flush that fails after some merged rows or some upserts does the same to one accumulator |
| RollupNeighborStage.RollupNeighbor1m.Apply | internal/project/stages/rollup_neighbor.go:54-107 | Only packets with a source touch their accumulator, in place |
| RollupNeighborStage.RollupNeighbor1m.Flush | internal/project/stages/rollup_neighbor.go:109-177 | With a working database memory and table after the flush, for every key; with one that fails at any answer, memory as torn there |
| RollupNeighborStage.RollupNeighbor1m.RehydrateUnloaded | internal/project/stages/rollup_neighbor.go:179-299 | Exactly the dirty, unloaded accumulators are merged with their row, and marked loaded only if the query completes |
| RollupNeighborStage.RollupNeighbor1m.Evict | internal/project/stages/rollup_neighbor.go:305-322 | Drops exactly the clean accumulators whose bucket ended before the cutoff |
| PacketsUniqueStage.FoldLabels | internal/project/stages/unique.go:86-100 | The reference summary has the last non-empty type, route and decoded type, and the first non-empty source, of the hash's packets in the log |
| PacketsUniqueStage.FoldTimes | internal/project/stages/unique.go:78-84 | Its times are the least and the greatest of those packets |
| PacketsUniqueStage.FoldObservers | internal/project/stages/unique.go:102 | Its observers are exactly those of the hash's packets |
| PacketsUniqueStage.HeardIsFold | internal/project/stages/unique.go:185-194 | The join with packet_observations returns exactly the observers of the log's packets, though failed attempts repeat |
| PacketsUniqueStage.RetryKeeps | internal/project/project.go:214-219 | Applying the failed batch again, or a longer one that starts with it, leaves an entry as right as a first application |
| PacketsUniqueStage.TornKeeps | internal/project/stages/unique.go:203-235 | A rehydrate or flush that fails after any number of rows leaves an entry a retry can complete |
| PacketsUniqueStage.FlushKeeps | internal/project/stages/unique.go:108-166 | A committed flush stores exactly the fold of the longer log |
| PacketsUniqueStage.CommitKeeps | internal/project/stages/unique.go:244-260 | One committed batch, retry or not, then eviction, keeps the invariant |
| PacketsUniqueStage.AbortKeeps | internal/project/pipeline/pipeline.go:69-79 | A failed attempt keeps it, wherever it stopped |
| PacketsUniqueStage.PacketsUnique.Apply | internal/project/stages/unique.go:55-106 | The in-place update of one entry is the stage's step for a packet |
| PacketsUniqueStage.PacketsUnique.Flush | internal/project/stages/unique.go:108-166 | With a working database the whole flush; with one that fails after any number of results, memory as torn there |
| PacketsUniqueStage.PacketsUnique.RehydrateUnloaded | internal/project/stages/unique.go:171-238 | Exactly the dirty, unloaded entries are merged with the join |
| PacketsUniqueStage.PacketsUnique.Evict | internal/project/stages/unique.go:244-260 | Drops exactly the clean entries last seen before the cutoff |
| NodesStage.FoldMeaning | internal/project/stages/nodes.go:97-127 | A node's description comes from the earliest-arriving advert with the greatest timestamp, and advert_received_at is the least arrival among the adverts with that timestamp |
| NodesStage.FoldCounts | internal/project/stages/nodes.go:87-95 | advert_count is the number of the key's adverts, and first_seen and last_seen are times of some of them |
| NodesStage.UpsertIsFold | internal/project/stages/nodes.go:213-274 | The upsert merges a batch as if its adverts had been folded one by one |
| NodesStage.ApplyAllIsFold | internal/project/stages/nodes.go:57-130 | Memory holds the fold of what it absorbed since the last commit |
| NodesStage.OrderIndependent | internal/project/stages/nodes.go:97-112 | If receptions of the same advert agree on what it says, any reordering of the log gives the same node |
| NodesStage.Nodes.Apply | internal/project/stages/nodes.go:57-130 | The in-place update of one row is the stage's step for an advert |
| NodesStage.Nodes.Flush | internal/project/stages/nodes.go:132-300 | Every touched row is upserted, no other row changes |
| ObserversStage.FoldMeaning | internal/project/stages/observers.go:69-117 | Every metadata column is the last non-empty value the log reports for the observer, and its times are the least and the greatest |
| ObserversStage.RetryAbsorbs | internal/project/project.go:214-219 | After a retry that starts with the failed batch, memory is as if only the retry had been applied |
| ObserversStage.FlushIsFold | internal/project/stages/observers.go:159-171 | The upsert continues the fold |
| ObserversStage.Observers.Apply | internal/project/stages/observers.go:51-120 | The in-place update of one row is the stage's step for a status |
| ObserversStage.Observers.Flush | internal/project/stages/observers.go:122-193 | Every touched row is merged into the table, no other row changes |
| ObserverStatusStage.RetryAbsorbs | internal/project/project.go:214-219 | A retry that starts with the failed batch inserts the same rows |
| ObserverStatusStage.FlushIsFirst | internal/project/stages/status.go:83-136 | Inserting continues the first-wins reading of the log |
| ObserverStatusStage.ObserverStatus.Apply | internal/project/stages/status.go:51-76 | Each status event is buffered once and its observer noted |
| ObserverStatusStage.ObserverStatus.Flush | internal/project/stages/status.go:78-137 | Fails exactly when a row lacks its observer; otherwise inserts in order, first one wins |
| PacketObservationsStage.PacketObservations.Apply | internal/project/stages/packets.go:54-83 | Each packet event is buffered once and its observer noted |
| PacketObservationsStage.PacketObservations.Flush | internal/project/stages/packets.go:85-161 | The buffer is appended to the table in order, and counted |
| PipelineSteps.Pipeline.ProcessBatch | internal/project/pipeline/pipeline.go:40-109 | Nothing without a cursor; otherwise one Batch step exactly when the database works, and one Abort step, tables untouched and memory as torn at the failing answer, when it does not |
| PipelineSteps.Pipeline.FlushAll | internal/project/pipeline/pipeline.go:74-79 | The nine flushes in order: caches read packet_observations before this batch's rows, detectors read the tables after all of them; a failure stops at one stage, or inside it |
| PipelineSteps.Pipeline.FlushLater | internal/project/project.go:67-97 | The flushes from packets_unique on, whole or stopped within one of the caches |
| PipelineSteps.Pipeline.FlushRollups | internal/project/project.go:68-97 | The same from the minute rollup on |
| PipelineSteps.Pipeline.FlushFirst | internal/project/project.go:63-66 | The first three flushes; the foreign key of observer_status always holds because of the stage order |
| PipelineSteps.Pipeline.ApplyAll | internal/project/pipeline/pipeline.go:50-63 | Every stage absorbs every event, and hwm is the batch's greatest time |
| PipelineSteps.Pipeline.Install | internal/project/pipeline/pipeline.go:86-106 | After the commit, eviction happens exactly if the batch had a high-water mark |
| PipelineSteps.Pipeline.Clear | internal/project/pipeline/pipeline.go:111-117 | Every stage's memory is as new |
| ProjectorLoop.Projector.CatchUp | internal/project/project.go:165-259 | Terminates; each step is an attempt on the whole next page from where the last one ended, committed exactly when the database works during it; a success ends with the cursor at the highest visible id, a failure with one failed attempt on the next page |
| ProjectorLoop.Projector.Reset | internal/project/project.go:111-121 | One Reset step |
| ProjectorLoop.Projector.ProcessPage | internal/project/project.go:200-219 | A page becomes one attempt on its decoded events with its highest id as cursor, failed or not, undecodable events included |
| ProjectorLoop.RetryDecodesPrefix | internal/project/project.go:203-212 | A page that starts with another decodes to events that start with its events |
| ProjectorLoop.RunThenAfter | internal/project/project.go:129-163 | The system after further steps is that of one longer run |
| ProjectorLoop.AttemptsAreSound | internal/project/project.go:177-219 | A catch-up's attempts, failed or not, on a log that projector and tables agree on up to the cursor, keep that agreement and the legality of the run |
| ProjectorLoop.LifeIsLegal | internal/project/project.go:111-163 | Whatever happens in a projector's life, the log growing at its end, catch-ups failing or not, restarts from the stored cursor, resets, its steps are a legal run whose commits move the cursor on, and what it has projected is the decoded log up to the cursor |
| ProjectorLoop.LifeProjects | README.md:81-85 | ... so, without failed attempts, every observer rollup is the one-pass fold of the decoded raw log up to the stored cursor, with unique_pkts and noise floor under their exact conditions |
| ProjectorLoop.CaughtUp | internal/project/project.go:183-198 | When no row lies above the cursor, that is the whole log |
| ProjectorLoop.CaughtUpRollups | README.md:81-85 | After a life that has caught up every observer rollup, unique_pkts and noise floor included, is the one-pass fold of the whole decoded raw log |
| RawLog.RawStore.InsertRawEvents | internal/store/queries.go:21-53 | Ids are drawn first; the rows follow with consecutive ids or not at all |
| RawLog.RawStore.FetchRawEventsAfter | internal/store/queries.go:85-126 | The first rows above the cursor in id order, up to the limit |
| RawLog.AboveIsSuffix | internal/store/queries.go:95-97 | The rows above a page's highest id are exactly those after the page |
| RawLog.PageGrows | internal/store/queries.go:95-97 | When rows are added at the end of the log, the page fetched again starts with the page fetched before |
| RawLog.UpToStays | internal/store/queries.go:95-97 | ... and the rows up to the cursor stay the same |
| RawLog.PageMovesOn | internal/store/queries.go:85-126 | A page extends the rows up to the cursor to those up to its highest id, and leaves fewer above; a short page leaves none |
| RawLog.Ingester.Run | internal/ingest/ingest.go:44-127 | Every received message is carried by exactly one write, in order, in writes of 1 to batchSize; the log grows by exactly the writes the database did not fail |
| RawLog.Ingester.Handle | internal/ingest/ingest.go:95-127 | A message is buffered and written when the batch is full, a tick writes what is buffered; nothing is lost or repeated on the way |
| RawLog.Ingester.Flush | internal/ingest/ingest.go:50-93 | An empty batch is not written; otherwise one write, whose batch is dropped if it fails |
| CursorProtocol.ExactlyOnceIffOneIngester | internal/store/queries.go:21-53 | In all interleavings every visible event up to the cursor has been projected exactly once and in id order, if and only if there is at most one ingester |
| CursorProtocol.OneIngesterIsExact | internal/ingest/ingest.go:50-93 | With one ingester every reachable state is ordered: ids in flight are above every visible one, and the fetched page stays the next page |
| CursorProtocol.OvertakingIsTrace | deploy/helm/meshbug/templates/deployment-ingest.yaml:9-10 | The interleaving of two ingesters in which an event is lost is a run |
| CursorProtocol.RetryPageExtends | internal/project/project.go:177-219 | In any interleaving with one ingester, a page fetched again from the same cursor, as after a failed attempt, starts with the page fetched before |
| CursorProtocol.LogGrows | internal/store/queries.go:21-53 | In any interleaving with one ingester the visible log, in id order, only grows at its end |
| Hub.NoPanicIffUnsubscribedOnce | internal/sse/hub.go:33-76 | No interleaving sends on a closed channel or closes one twice, if and only if no subscriber calls its unsubscribe more than once |
| Hub.TraceIsSafe | internal/sse/hub.go:33-76 | With at most one unsubscribe per subscriber, in every reachable state registered channels are open, no queue exceeds its buffer, every channel holds a subsequence of each publisher's events in order, and no topic is without channels |
| Hub.SendDelivers | internal/sse/hub.go:69-74 | In the protocol a send delivers exactly the publisher's event, to exactly that channel, if its queue is below its capacity, and nothing otherwise; what the channel was delivered stays a subsequence of what was published |
| Hub.DeliveredOrFull | internal/sse/hub.go:65-76 | In every interleaving with at most one unsubscribe per subscriber, when a publisher leaves, every channel registered under its topic when it entered has been delivered the event, or was full when the publisher tried it |
| Hub.RegisteredChannels | internal/sse/hub.go:37-44 | Registering adds the channel to exactly the given topics |
| Hub.UnregisteredChannels | internal/sse/hub.go:46-56 | Unsubscribing removes it from exactly the given topics and leaves no empty topic |
| Hub.Hub.Subscribe | internal/sse/hub.go:33-62 | A new open channel of the given capacity is registered under its topics |
| Hub.Hub.Unsubscribe | internal/sse/hub.go:46-59 | The channel leaves its topics and is closed; it panics exactly if it was closed before |
| Hub.Hub.Publish | internal/sse/hub.go:65-76 | Without a closed channel among those of the topic, each of them with room has the event appended to its queue, once, and every other queue is unchanged; it panics exactly if one is closed |

## Left out

- Decoding (`internal/meshcore`, `internal/project/parse.go`, `internal/project/decoder.go`): an uninterpreted function from a raw event to an optional event.
- Times finer than the model's unit: Go's nanoseconds against the microseconds of a `timestamptz` are not distinguished.
- `avg_snr`, `last_snr`, `radio_bw_khz` and other float columns: the scheme of `avg_rssi` with floats; the RSSI average is exact integer arithmetic, so the binary rounding of Go's `float64` is not modelled.
- Column widths: counters are unbounded, and an average that would overflow `numeric(6,2)` is not an error here.
- Columns that are copied without a rule: battery details of a status, packet lengths, raw bytes, scores, key prefixes of a node, `details` of an anomaly, surrogate ids.
- Accumulators are values in a map, rewritten under their key; aliasing through Go's pointers and slices is not captured.
- Accuracy.AverageDrift: only for buckets in which every packet carries RSSI; Averages.AverageIsWeighted covers mixed buckets, against the weights that reloads give the samples, because the row does not hold how many of its packets had one.
- Averages.AverageIsMean, Averages.AverageIsWeighted and the rows of Columns with that condition: runs without failed attempts; what failed attempts add to the counts is the subject of FailedAttempts.
- PipelineSteps.Pipeline.ProcessBatch: an error from `tx.Commit` whose outcome is unknown. If the server has committed after all, the code still retries the batch on top of the new rows; the model takes every reported failure as rolled back.
- AnomalyRuns.SpacedIffNoOverlaps: runs without failed attempts, whose skipped minutes are the subject of AnomalyRuns.RunOrMissed; notifications of rows that were rolled back are not modelled.
- Detectors see the rollup, node and observation tables of the transaction, but not the anomalies table: none of the three registered rules reads it.
- AnomaliesStage.Schedule: event times at least one minute after the zero time, below which the truncated clock would read as unset.
- `resolved_at`: nothing in the modelled code sets it, so every anomaly is unresolved.
- `RSSIDrop` and `ObserverSilent`: single threshold queries; detectors are arbitrary functions of the tables, so every theorem about scheduling and suppression covers them.
- ReceptionGapDetector.Run: a lost connection; the detector fails only where the query itself does.
- Timers, `pg_notify`, logging, partitions, migrations, configuration, MQTT, web handlers and templates: they change no table modelled here.
- Hub.Hub.Publish: a channel without a buffer, whose send succeeds if a receiver happens to wait; all subscribers of the repository have a buffer.
- The notification loop of `Run`: a life is any sequence of catch-ups, restarts and resets; that a catch-up follows each notification is not modelled. `CatchUp` takes its start cursor as a parameter, and a restart takes the stored one.
- A row that becomes visible below an id already seen: a life appends rows at the end of the log, as CursorProtocol.LogGrows proves for one ingester.
- ProjectorLoop.Projector.CatchUp: a failing `MaxRawEventID` or page fetch, which ends the catch-up between two attempts with nothing changed.
- ProjectorLoop.Projector.Reset: a truncation that fails, which leaves tables and memory as they were.
- RawLog.RawStore.InsertRawEvents: a failing draw of ids, after which an insert stops with fewer ids drawn and no rows; CursorProtocol has it as a step at any point of an insert.
