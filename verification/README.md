# Clickstream pipeline: a verified model

This project models the parts of the clickstream platform whose correctness rests on arguments
that span several functions, and proves those arguments: that the streaming tables survive crashes
and replays, that the two stores agree, that the nightly rollup and the dead-letter topic account
for every event, that the rate limiter and the response cache keep their promises under
interleaving, that the simulator and the independently written parser agree, that the paced
producer never runs ahead, what z-score detection can and cannot report, and what the lineage
traversal computes. Verify everything with `dafny verify dfyconfig.toml`.

## How the model is built

**The streaming job** (`Clicks`, `Aggregates`, `Log`, `Stream`, `Delivery`, `Replays`, `Lateness`, `Punctuality`,
`LiveTopic`, `LateViews`, `LateRows`). A topic is a sequence of partitions that only grow at their ends; offsets are vectors. `Parsing.ParsedRow`
turns a raw message into a row or nothing, `Aggregates.KeyOf`, `Update` and `Emit` are the two
windowed aggregations, and `Stream.Do` is the state machine of one query: an offset log of planned
batches, a commit log, a state store, and a keyed sink. `Stream.Exec` is a run: any sequence of
produces, plans, writes (which may stop after any subset of the batch's rows), crashes and commits.
A step that is not enabled leaves the state as it is, so every sequence of actions is a run. The
engine is the environment and is assumed to do only this:

- a planned range and its two watermarks are logged before the batch starts and committed after it;
  an uncommitted batch is re-run with the same range, the same watermarks and the same state;
- a row is dropped as late when its window end is at or below the batch's late watermark, and a
  group is evicted after the batch has reported it when its window end is at or below the eviction
  watermark; evict(n-1) <= late(n) <= evict(n) <= the largest event time of earlier batches minus
  120 seconds. Results hold for every schedule of that shape;
- the watermark starts at 0, so windows that ended by 1970-01-01T00:00:00Z are late from the start;
- the order in which a batch's rows arrive is arbitrary.

When nothing is dropped is answered exactly at three levels, over any number of partitions:

- for given batch boundaries, `Lateness.InStep`: no batch reads an event whose window ends by the
  watermark of a message of an earlier batch (`NoLossIffInStep`). The theorems that make batching,
  checkpoints and the choice of store invisible ask no more than this of each run;
- for a given order of arrival, `LiveTopic.Timely`: no message arrives after one that has overtaken
  it. The runs here start from any topic, receive messages while they go, and read in every batch all
  there is, as the job does without a limit on offsets per trigger (`NoLossIffTimely`); a batch that
  leaves part of the topic for later is covered too as long as it does not leave behind what it has
  overtaken (`KeepingUpDropsNothing`). Which partition a message goes to does not matter
  (`TimelyIffInOrder`);
- for a topic alone, `Punctuality.Punctual`: no event's window ends by the watermark that a message
  which may be read earlier would set, whatever the schedule (`NoLossIffPunctual`). A message may be
  read before another one when it precedes it in its partition or lies in a different partition,
  because batch boundaries are vectors.

For two schedules to agree on page_views_1m less is needed, and what is needed is exact again: for the
views column `LateViews.ViewsAgreeIffPunctual`, for whole rows `LateRows.TablesAgreeIffPunctual`.

**The stores** (`MergeTree`, `PostgresSink`, `Snapshots`, `Sinks`, `AppendQueries`, `ClicksTable`,
`CrossStore`). `UpsertSink` executes `upsert_batch` statement by statement inside one transaction and
may die before any of them. `ReplacingMergeTree` is a list of parts with merges of adjacent parts and a `FINAL` view
defined without reference to upserts. `Sinks` runs the streaming query against both: `PgRun` with the
upsert attempts, `ChRun` with parts and merges. `Snapshots` says what a reader sees while a batch is
in flight when every write is whole or empty, which `Sinks.PgFollowsQuery` shows for every run
against Postgres. `AppendQueries` is the state machine of the two stateless queries (raw clicks and
dead letters), whose deliveries may be repeated in part or whole, and `ClicksTable` puts the parts of
olap.clicks beside it.

**The rollup and sums** (`Sums`, `Conservation`, `DailyRollup`, `PostgresNights`). `SelectDaily` evaluates
the rollup's `SELECT` row by row, `Curated` holds the two tables, `RunNightly` interleaves rollups with
the steps of the streaming query, and `RunNights` with the upsert attempts on the Postgres tables. `zone`
is the PostgreSQL session's offset from UTC in seconds.

**API** (`RateLimiter`, `ResponseCache`). Each Redis command is one atomic step of many concurrent
callers, with a clock; at the very instant of a deadline a key may read as present or gone. An
EXPIRE may fail (`ExpireFails`). The classes and methods at the end of both modules are one call without
others in between.

**Detection** (`Anomaly`). Exact reals; the population deviation is a parameter, constrained to be
the non-negative square root of the variance.

**Lineage** (`Lineage`, `FifoLineage`, `LifoLineage`, `Reexpansion`). The pseudocode as loops over a
visited map, a queue and an edge list, once with an arbitrary pop order and once first in, first out.
`Lineage.Pops` is the traversal under any sequence of pops, and `LifoLineage.PopsUnseen` the one with a
plain visited set.

**Producer** (`Json`, `JsonGrammar`, `Calendar`, `Schema`, `Parsing`, `Simulator`, `Pacing`, `EndToEnd`). The
simulator draws from a tape that stands for everything the seed determines. `ClickstreamSimulator`
and `EventIterator` are the object and its generator; `Pacing.Run` is the producer loop against a
clock with arbitrary lags, for any number of rounds. `JsonGrammar` is the grammar of the texts the parser
accepts, written apart from the parser. `EndToEnd` sends the simulator's events to any partitions in any
order of arrival, some of them perhaps never or twice, while the query runs, and says what the tables then
report in terms of the fields of those events.

## Where code and documentation part

- `graph-traversal.md` says a node may be reached first by a long path and again by a shorter one,
  and that a plain visited set therefore loses lineage. With the `popleft` it prescribes this never
  happens (`FifoLineage.PlainVisitedSetIsEnough`); it does happen when items are popped last in,
  first out (`LifoLineage.PlainVisitedSetCanMiss`). The bound of `depth_limit` re-expansions holds
  for every order but is not sharp: no dataset is expanded more than max(1, depth_limit - 2) times
  (`Lineage.FewExpansions`), and that many happen (`Reexpansion.BoundIsAttained`).
- The rollup's `::date` cast uses the session's time zone. An event and its window fall on the same
  day for every timestamp exactly when the zone offset is a whole number of minutes.
- The detector accepts a negative threshold; every point is then reported. The short-series bound
  fails for every threshold below 0, already for one point and a minimum of one, and the bound on the
  number of reports fails from -1 down.
- The page pattern ends in `$`, which also matches before one trailing newline; both validators
  accept such a page.
- The producer's `timedelta(seconds=1.0 / rate)` is rounded to microseconds. When it is rounded up,
  the simulated clock outruns the pace, and at every such rate the loop, on a clock without lag, stamps
  an event in the future (`Pacing.RunIntoTheFuture`).
- The limiter is said to fail open when Redis fails. A failing EXPIRE lets its own call through, but
  leaves the counter without a TTL for ever, so the key is limited for good after `max_requests`
  calls (`RateLimiter.StuckForEver`).
- A fixed window is usually said to admit twice the limit around a boundary. This limiter's window
  starts with its first request, so the exact bound is one less.

## Model

| member | source | states |
|---|---|---|
| Clicks.WindowHoldsItsEvent | spark_jobs/streaming_job.py:125 | the one-minute window of an event is the only epoch-aligned one that contains it, before 1970 too |
| Aggregates.KeyIsGroup | spark_jobs/streaming_job.py:122-139 | the key of an event is the one group it belongs to: the minute that holds its time, with its page and device for page_views_1m and its campaign for campaign_stats_1m |
| Aggregates.AbsorbConcat | spark_jobs/streaming_job.py:122-131 | aggregating batch after batch is aggregating the concatenation |
| Aggregates.AbsorbPermutation | spark_jobs/streaming_job.py:122-154 | the order in which a shuffle delivers a batch's rows does not change the state |
| Aggregates.AbsorbKeys | spark_jobs/streaming_job.py:125 | a batch adds exactly the groups it touches and leaves every other group as it was |
| Aggregates.KeepAbsorb | spark_jobs/streaming_job.py:105 | evicting first and absorbing live events afterwards equals absorbing first |
| Aggregates.GroupByMeaning | spark_jobs/streaming_job.py:122-154 | the folded state is the GROUP BY: a group exists iff an event has its key, and its columns are the numbers of positions of that minute, page and device or campaign, and of each type among them, and the set of users seen there |
| Log.RowsSplit | spark_jobs/streaming_job.py:75-106 | the rows of an offset range are those of its two halves, over any number of partitions |
| Log.SliceExtends | spark_jobs/streaming_job.py:75-84 | messages appended later do not change what a logged range reads |
| Stream.OutputIsCumulative | spark_jobs/postgres_sink.py:3-6 | a batch's update-mode output, computed from the evicted state, replaced into the table of everything settled gives the table after the batch |
| Stream.BatchStep | spark_jobs/streaming_job.py:105-131 | accepted events of n batches are those of n-1 plus this batch's on-time ones, none of which hits an evicted window |
| Stream.PartialWrite | spark_jobs/streaming_job.py:223-229 | a write that stops after any subset of rows leaves every row at its value before or after the batch |
| Stream.FullWrite | spark_jobs/streaming_job.py:223-229 | a write of all rows completes the table from any such intermediate one |
| Stream.WriteOutput | spark_jobs/postgres_sink.py:3-6 | re-running an uncommitted batch, in any row order, produces the same completion |
| Stream.CommitStore | spark_jobs/streaming_job.py:105 | the state store after commit is the live part of the GROUP BY of all accepted events |
| Stream.ScheduleExtends | spark_jobs/streaming_job.py:75-84 | appending to the topic changes neither the schedule nor what was accepted or dropped |
| Stream.StepKeepsInv | spark_jobs/streaming_job.py:223-237 | every step (produce, plan, partial or full write, crash, commit) keeps the invariant over log, offsets, watermarks, store, table and batch in flight |
| Stream.RunKeepsInv | spark_jobs/streaming_job.py:198-237 | the invariant holds after every run |
| Delivery.TableIsAccepted | spark_jobs/postgres_sink.py:3-6 | between batches the sink table is the GROUP BY of the accepted events, with arbitrarily late data and any crashes |
| Delivery.RowCountsAccepted | spark_jobs/streaming_job.py:122-154 | between batches a row exists iff an accepted event is of its minute and of its page and device, or campaign, and each column counts exactly those events: all, by type, and distinct users |
| Delivery.StoreHoldsLiveGroups | spark_jobs/streaming_job.py:105 | between batches the state store holds exactly the groups whose minute ended after the eviction watermark and that have an accepted event, each with what its events amount to |
| Replays.CrashMeansReplay | spark_jobs/streaming_job.py:223-237 | a batch whose last attempt died cannot be committed, however far the attempt got |
| Replays.ReplayLeavesNoTrace | spark_jobs/postgres_sink.py:3-6 | any number of attempts that died anywhere, followed by a clean one, leave exactly the offsets, state store and table of a single clean attempt |
| Delivery.ConsumedIsAcceptedOrDropped | spark_jobs/streaming_job.py:105 | consumed events are exactly the accepted plus the late-dropped ones, as multisets |
| Delivery.WriteRaises | spark_jobs/postgres_sink.py:119-135 | replacing rows by a batch's output never removes a row or lowers a column |
| Delivery.NeverLowers | spark_jobs/postgres_sink.py:3-6 | no step of any run removes a row or lowers a column |
| Delivery.EvictedIsFinal | spark_jobs/streaming_job.py:105 | once a window is evicted its row never changes again, whatever late data, crashes or replays follow |
| Lateness.InStepDropsNothing | spark_jobs/streaming_job.py:105 | a schedule none of whose batches reads an event overtaken by a message of an earlier batch drops nothing |
| Lateness.LaggingFollows | spark_jobs/streaming_job.py:105 | older watermarks are admissible wherever newer ones are |
| Lateness.NoLossIffInStep | spark_jobs/streaming_job.py:105 | for given batch boundaries, no admissible choice of watermarks drops anything if and only if the batches are in step |
| Lateness.BatchingIsInvisible | spark_jobs/streaming_job.py:87-131 | between batches of a run whose batches are in step with the data, the table is the one-shot GROUP BY of the prefix consumed, whatever arrived, crashed or was replayed |
| Lateness.SeparateCheckpointsAgree | spark_jobs/streaming_job.py:198-204 | two queries with their own checkpoints and batch boundaries, each in step with the data, hold the same table once they consumed the same prefix |
| Punctuality.PunctualIsInStep | spark_jobs/streaming_job.py:105 | on a punctual topic every schedule is in step |
| Punctuality.PunctualDropsNothing | spark_jobs/streaming_job.py:87-106 | on a punctual topic no schedule drops an event |
| Punctuality.LosingRun | spark_jobs/streaming_job.py:105 | on a topic that is not punctual some run loses an event |
| Punctuality.NoLossIffPunctual | spark_jobs/streaming_job.py:105 | no run that ends with a topic, from whatever topic it started and whatever arrived on the way, loses an event if and only if that topic is punctual |
| Punctuality.LossShows | spark_jobs/streaming_job.py:134-144 | a dropped event makes campaign_stats_1m differ from the one-shot GROUP BY |
| Punctuality.OneShotIffPunctual | spark_jobs/streaming_job.py:134-154 | every run that ends with a topic, arrivals on the way included, leaves campaign_stats_1m as the one-shot GROUP BY of what it consumed if and only if that topic is punctual |
| LiveTopic.KeepingUpDropsNothing | spark_jobs/streaming_job.py:75-84 | when messages arrive in time, in any partitions and while the query runs, and no batch leaves behind an event it has overtaken, the batches are in step and nothing is dropped |
| LiveTopic.NoLossIffTimely | spark_jobs/streaming_job.py:75-106 | for a given starting topic and order of arrival, no run whose batches read all there is drops anything, wherever the batches fall and whatever crashes, if and only if every message arrives in time |
| LiveTopic.TimelyIffInOrder | init/kafka/init_topics.py:17-20 | on a topic that starts empty, with any number of partitions, arrivals are in time if and only if no event arrives after one that has overtaken it, whichever partitions the two are in |
| LiveTopic.LiveTableCountsArrivals | spark_jobs/streaming_job.py:75-106 | a query that keeps up with messages arriving in order, in any partitions, holds the GROUP BY of exactly what arrived once it has read all of it |
| Sums.DistinctCountsAdd | dbt/models/marts/daily_page_summary.sql:2-3 | summed distinct counts are at least the distinct count of the union, equal exactly when the sets are pairwise disjoint |
| Sums.GroupedTotal | etl/dags/batch_rollup.py:30-37 | grouping a column and summing the groups gives the column's total |
| Conservation.ViewsAreEvents | spark_jobs/streaming_job.py:122-131 | SUM(views) over any grouping of the windows is the number of page_view events in it |
| Conservation.AggregatesAgree | spark_jobs/streaming_job.py:122-154 | over the same events, each window's views summed over (page, device) equal its views summed over campaigns |
| Conservation.CampaignRowAddsUp | spark_jobs/streaming_job.py:134-144 | a campaign row's events are its views, clicks, conversions and the uncounted add_to_cart events |
| Conservation.SummedUsersOverCount | spark_jobs/streaming_job.py:128 | the sum of per-window users is at least the true distinct users, equal iff nobody shows up in two windows |
| DailyRollup.SelectDaily | etl/dags/batch_rollup.py:30-37 | evaluating the SELECT row by row in any order gives the grouped sums |
| DailyRollup.Curated.RunDailyRollup | etl/dags/batch_rollup.py:49-53 | the rollup upserts the grouped sums into daily_summary and changes nothing else |
| DailyRollup.WindowsStayInTheirDay | etl/dags/batch_rollup.py:31 | day(window_start(t)) = day(t) for every t iff the session's zone offset is a whole number of minutes |
| DailyRollup.FallsOnItsDate | etl/dags/batch_rollup.py:31 | an event is counted under a day iff the clock of the session's time zone shows that year, month and day |
| DailyRollup.SameDayIffSameDate | etl/dags/batch_rollup.py:31 | two moments share a day of the rollup iff their local dates agree |
| DailyRollup.DateMeaning | etl/dags/batch_rollup.py:30-37 | by year, month and day: a row exists iff an event has its local date, page and device, and it counts exactly the page views among those |
| DailyRollup.DailyMeaning | etl/dags/batch_rollup.py:30-37 | a day's row holds exactly the day's page_view events and over-counts users exactly when someone returns in another window |
| DailyRollup.DayIsPresent | etl/dags/batch_rollup.py:36-37 | every day, page and device with an event has a row |
| DailyRollup.DailyTotal | api/db.py:63 | daily_summary views add up to the summary's total_views, in any time zone |
| DailyRollup.NightlyStream | etl/dags/batch_rollup.py:49-53 | rollups interleaved with the streaming query do not disturb it |
| DailyRollup.NoStaleDays | etl/dags/batch_rollup.py:38-39 | daily_summary never holds a key the curated table no longer has |
| DailyRollup.RollupIsExact | etl/dags/batch_rollup.py:29-39 | every rollup of every interleaving leaves exactly the GROUP BY of the curated table, and a re-run changes nothing |
| DailyRollup.RollupCountsAcceptedEvents | etl/dags/batch_rollup.py:29-39 | a rollup between batches, or at any moment when writes are transactional, counts for every day the accepted page_view events of the committed batches, or of those and the one in flight, the same for all days; a missing key had no event |
| Snapshots.ReadersSeeWholeBatches | spark_jobs/postgres_sink.py:127-135 | when every write is whole or empty, the table is at every moment the GROUP BY of the events accepted by the committed batches, or by those and the one in flight |
| PostgresNights.EveryRollupCountsWholeBatches | etl/dags/batch_rollup.py:49-53 | every rollup at any moment of any run of engine steps and upsert attempts on the Postgres tables, crashed ones included, counts the accepted page views of a whole number of batches, the same for all days |
| MergeTree.FinalIsUpserts | spark_jobs/clickhouse_sink.py:3-6 | a view is the FINAL view of some parts iff it is the map left by upserting all their rows in order |
| MergeTree.UpsertsIdempotent | spark_jobs/postgres_sink.py:90-108 | upserting the batch that came last a second time changes nothing |
| MergeTree.DedupDistinct | spark_jobs/clickhouse_sink.py:50-51 | a merge leaves one row per key |
| MergeTree.MergeKeepsFinal | spark_jobs/clickhouse_sink.py:60-61 | a background merge of two adjacent parts never changes FINAL |
| MergeTree.TreeRefinesUpserts | spark_jobs/clickhouse_sink.py:99-108 | for any interleaving of inserts, last-batch replays and merges, FINAL is the map obtained by folding the batches once as keyed upserts |
| MergeTree.ReplacingMergeTree.InsertRows | spark_jobs/clickhouse_sink.py:99-108 | an insert appends one part unless the batch is empty, and FINAL becomes the upsert of its rows |
| MergeTree.ReplacingMergeTree.MergeParts | spark_jobs/clickhouse_sink.py:60-61 | a merge removes one part and leaves the view |
| PostgresSink.UpsertSink.MergeStaged | spark_jobs/postgres_sink.py:104-108 | the merge fails iff staging holds a key twice, and otherwise leaves the keyed upsert of the staged rows |
| PostgresSink.UpsertSink.UpsertBatch | spark_jobs/postgres_sink.py:119-135 | dying before any statement leaves both tables untouched; otherwise the table is the keyed upsert and staging is empty |
| PostgresSink.AttemptsAreAtomic | spark_jobs/postgres_sink.py:127-135 | after any crashed attempts the database is as before the batch or as after one clean run, and a clean attempt always completes it |
| PostgresSink.StagingStaysEmpty | spark_jobs/postgres_sink.py:134 | staging is empty between transactions |
| PostgresSink.CollectedDistinct | spark_jobs/streaming_job.py:125 | a grouped batch never carries a key twice |
| PostgresSink.GroupedUpsert | spark_jobs/postgres_sink.py:104-108 | ON CONFLICT never hits a row of a grouped batch twice and leaves each row equal to the staged one |
| Sinks.UpsertIsWrite | spark_jobs/postgres_sink.py:119-135 | upsert_batch of the collected batch is one write step of the query: whole when it commits, empty when it dies |
| Sinks.PgFollowsQuery | spark_jobs/postgres_sink.py:119-135 | a run against Postgres, with attempts dying before any statement, is a run of the query whose writes are whole or empty |
| Sinks.PgTableIsTable | spark_jobs/postgres_sink.py:127-135 | at every moment of every run the Postgres table is the query's table and staging is empty |
| Sinks.PostgresShowsWholeBatches | spark_jobs/postgres_sink.py:3-6 | no reader of the curated table ever sees half a batch |
| Sinks.ChFollowsQuery | spark_jobs/clickhouse_sink.py:99-108 | a run against ClickHouse with partial inserts and merges is a run of the query |
| Sinks.FinalIsTable | spark_jobs/clickhouse_sink.py:3-6 | at every moment of every run FINAL is the table keyed upserts would hold |
| Sinks.StoresAgree | spark_jobs/streaming_job.py:198-204 | while both queries are in step with the data, olap.page_views_1m FINAL equals curated.page_views_1m after the same prefix, despite separate checkpoints and any schedules |
| AppendQueries.CurrentIsRest | spark_jobs/streaming_job.py:191-197 | the batch in flight is exactly what lies between the committed and the planned offsets |
| AppendQueries.AdvanceKeeps | spark_jobs/streaming_job.py:191-197 | each step keeps at-least-once coverage, and steps without a crash keep exactly-once |
| AppendQueries.FollowCovers | spark_jobs/streaming_job.py:269-281 | over all runs everything committed was delivered, nothing outside the planned range was, and without crashes each message exactly once |
| AppendQueries.DeliveredInPart | spark_jobs/streaming_job.py:269-281 | a crash during a delivery leaves any part of the batch behind and the whole batch arrives later |
| AppendQueries.DeliveredTwice | spark_jobs/streaming_job.py:269-281 | a crash between a delivery and its commit makes the whole batch arrive a second time |
| CrossStore.EventsAndFailuresSplit | spark_jobs/streaming_job.py:87-114 | events and dead letters partition the messages |
| CrossStore.DeadLetters | spark_jobs/streaming_job.py:269-281 | the dead-letter topic holds each failing consumed message at least once and nothing else, exactly once without crashes |
| ClicksTable.ServerFollows | spark_jobs/streaming_job.py:191-197 | the server's deliveries, merges left out, are a run of the raw-clicks query |
| ClicksTable.FinalIsDelivered | spark_jobs/clickhouse_sink.py:50-51 | at every moment, after any inserts, re-inserts and merges, FINAL over the parts of olap.clicks is the upsert of all rows delivered so far |
| ClicksTable.ClicksBetweenCommits | spark_jobs/clickhouse_sink.py:87-96 | with distinct ids, at every moment any view that is FINAL of the parts holds every committed event under its id and nothing but planned ones |
| ClicksTable.ClicksAreConsumedEvents | spark_jobs/clickhouse_sink.py:87-96 | with distinct ids, between batches any view that is FINAL of the parts is exactly the consumed events |
| CrossStore.PageViewsConserved | spark_jobs/clickhouse_sink.py:39-51 | with distinct ids and the same prefix, the page_view rows of any view that is FINAL of olap.clicks' parts are the sum of views in page_views_1m plus the page_view events that query dropped as late |
| CrossStore.CuratedTablesAgree | spark_jobs/streaming_job.py:223-237 | while both Postgres queries are in step with the data, once they consumed the same prefix page_views_1m and campaign_stats_1m agree on each window's views |
| LateViews.ViewsAgreeIffPunctual | spark_jobs/streaming_job.py:122-131 | all pairs of runs that end with a topic and consumed the same prefix of it, from whatever topics they started and whatever arrived on the way, agree on the views of page_views_1m if and only if no page view can be read after a message whose watermark is past its window |
| LateRows.TablesAgreeIffPunctual | spark_jobs/streaming_job.py:122-131 | all such pairs of runs agree on the whole of page_views_1m, users and the existence of rows included, if and only if no page view can be overtaken and no user's events of a group can all be overtaken by one message |
| CrossStore.CampaignTableAddsUp | spark_jobs/streaming_job.py:138-143 | between batches of any run, each campaign row's events are its views, clicks, conversions and the add_to_cart events accepted for it |
| Json.CharRoundTrip | producer/schema.py:50 | every Unicode scalar value escapes to text that reads back as it alone, surrogate pairs included |
| Json.StringRoundTrip | producer/schema.py:50 | an encoded string reads back unchanged and leaves what follows its closing quote |
| Json.DumpsRoundTrip | producer/schema.py:49-50 | what json.dumps writes for names and strings, json.loads reads back |
| Json.DumpsIsCompact | producer/schema.py:50 | the text is printable ASCII whatever the strings hold, and has no space that they do not hold |
| JsonGrammar.LoadsMeaning | spark_jobs/parsing.py:45-50 | an object is read iff the text is one of the grammar of flat objects of strings, white space, escapes and surrogate pairs included, and it is what the members spell, of repeated names the last |
| Calendar.TsReadsBack | spark_jobs/parsing.py:94 | a timestamp is accepted iff strftime writes it for some valid date and time, which is the one read |
| Calendar.MonthsInClosedForm | producer/simulator.py:118 | the days of a year before each month follow the usual closed form, for common and leap years |
| Calendar.DatesAreSeconds | producer/simulator.py:118 | from year 1 to 9999 every second since or before the epoch has one valid date and time, and only one |
| Calendar.TsRoundTrip | producer/simulator.py:108 | what strftime writes for a valid date and time, strptime reads back |
| Calendar.TickIsOneSecond | producer/simulator.py:118 | the calendar's next second is one second later since the epoch, over months, leap years and year ends |
| Calendar.DecimalRoundTrip | producer/simulator.py:159 | an integer formatted in decimal reads back as itself |
| Schema.ProductPageMeaning | producer/schema.py:20 | the product pages are the paths of the numbers from one up without leading zeros, with or without one trailing newline |
| Schema.UuidMeaning | producer/schema.py:82 | an event id passes iff between some braces and some others stand 32 hexadecimal digits with hyphens anywhere among them |
| Schema.SentAsItsFields | producer/schema.py:46-50 | the object an event is sent as has each of the ten names with the event's own value |
| Schema.FromDictReads | producer/schema.py:53-65 | an event is read from an object iff each of its ten fields is named so there, and reading fails iff a name is missing |
| Schema.JsonRoundTrip | producer/schema.py:46-65 | an event survives to_json, json.loads and from_dict unchanged |
| Parsing.ValidatorsAgree | spark_jobs/parsing.py:72-96 | the consumer's validator passes exactly the events the producer's constructor accepts |
| Parsing.OneVerdict | spark_jobs/parsing.py:59-69 | exactly one of event and error is set for every message, null ones included |
| Parsing.MalformedMeaning | spark_jobs/parsing.py:43-66 | a null message, a text that is no object and an object that lacks a field get their own errors, and the last names exactly the missing fields, each once and in order |
| Parsing.CompleteMeaning | spark_jobs/parsing.py:51-69 | an object with all ten fields is the event they make up, or gets an error |
| Parsing.ErrorIsFirstFailure | spark_jobs/parsing.py:72-96 | that error is the first of the ten checks that fails |
| Parsing.ProducedRow | spark_jobs/streaming_job.py:87-106 | the row of a constructible event has each of its columns under its own name and the epoch second of its timestamp |
| Parsing.ParsedRowMeaning | spark_jobs/streaming_job.py:87-106 | a message gives a row iff it holds an object whose ten fields pass all checks, and then exactly their row |
| Parsing.ProducedIsParsed | spark_jobs/parsing.py:43-69 | whatever the producer can construct and serialise is parsed back unchanged, without error |
| Parsing.ParsedIsConstructible | spark_jobs/parsing.py:43-69 | whatever the parser lets through the producer could have constructed |
| Anomaly.ReportedMeaning | ai_assistant/anomaly.py:36-40 | an index is reported iff its score's absolute value exceeds the threshold |
| Anomaly.ReportedFields | ai_assistant/anomaly.py:36-40 | every report carries its own point's value and score, each point once and in index order |
| Anomaly.DetectMeaning | ai_assistant/anomaly.py:27-40 | a point is reported iff there are enough points and it lies more than threshold deviations from the mean; without a spread iff the threshold is negative |
| Anomaly.ScoresKeepOrder | ai_assistant/anomaly.py:24 | with a nonzero deviation a score is smaller iff its value is |
| Anomaly.SquareOfSum | ai_assistant/anomaly.py:20-21 | Cauchy-Schwarz for the deviations: the squared sum is at most n times the sum of squares |
| Anomaly.Samuelson | ai_assistant/anomaly.py:16-24 | every z-score satisfies z*z <= n - 1 |
| Anomaly.NothingInShortSeries | ai_assistant/anomaly.py:27-40 | nothing is reported when n <= threshold^2 + 1, so never below eleven points at 3.0 |
| Anomaly.OutlierAttainsBound | ai_assistant/anomaly.py:16-24 | n - 1 equal values and one outlier attain the bound, for every n >= 2 and any outlier |
| Anomaly.OutlierReportedIff | ai_assistant/anomaly.py:27-40 | such a series is reported on iff n > threshold^2 + 1 |
| Anomaly.SquaredScoresSumToCount | ai_assistant/anomaly.py:20-24 | with a nonzero deviation the squared z-scores sum to n |
| Anomaly.FewPointsReported | ai_assistant/anomaly.py:27-40 | k >= 1 reported points satisfy k * threshold^2 < n |
| Anomaly.NegativeThreshold | ai_assistant/anomaly.py:39 | a negative threshold reports every point, and k * threshold^2 < n then holds iff the threshold exceeds -1 |
| Anomaly.ReportedIsScaleFree | ai_assistant/anomaly.py:16-40 | the reported index set is unchanged under v -> a*v + b for every a != 0 |
| RateLimiter.RunKeepsInv | api/cache.py:86-88 | over all interleavings, failing EXPIREs included, lives of the key do not overlap, each that ends lasts at least the window, and each admits its first requests |
| RateLimiter.NeverStuck | api/cache.py:86-88 | a key without a TTL whose EXPIRE did not fail has exactly one pending, of the current life, which gives it its deadline; any other key has none |
| RateLimiter.StuckIffExpireFailed | api/cache.py:86-91 | a key is without a TTL and without a pending EXPIRE if and only if the EXPIRE of its current life failed, never when none fails |
| RateLimiter.OneFailureSticks | api/cache.py:86-91 | under any limits, a first request whose EXPIRE fails is all it takes |
| RateLimiter.StuckForEver | api/cache.py:86-91 | such a key never expires again, whatever follows, and admits at most max(1, max_requests) requests in all |
| RateLimiter.GenerationAdmits | api/cache.py:86-91 | each life of the key admits exactly min(arrivals, max_requests), where a failed EXPIRE raises the limit to at least its own call |
| RateLimiter.LivesEnd | api/cache.py:86-88 | no request is counted in a life after its deadline |
| RateLimiter.NextLifeBegins | api/cache.py:86-88 | once the deadline has passed the next request can only start a new life, and is admitted iff max_requests is positive |
| RateLimiter.AnyWindowAdmits | api/cache.py:75-91 | any half-open interval as long as the window admits at most 2 * max_requests - 1; with a limit below one only the one call whose EXPIRE failed |
| RateLimiter.BoundIsAttained | api/cache.py:75-91 | that bound is reached for every limit of at least one and every positive window |
| RateLimiter.Redis.Increment | api/cache.py:86 | INCR starts a missing or expired key at 1 without a TTL and keeps the TTL of a live one |
| RateLimiter.Redis.ExpireIn | api/cache.py:88 | EXPIRE sets the deadline, or deletes the key when the TTL is not positive |
| RateLimiter.CallIsItsSteps | api/cache.py:85-89 | an uninterrupted call is its INCR step and, when that started a new life, its EXPIRE step of the interleaved protocol |
| RateLimiter.RateLimitExceeded | api/cache.py:75-91 | one call counts one more on a live key and one on any other, sets the TTL on the first count only, touches no other key, and lets the call through without a client, when INCR fails and when its EXPIRE fails, which leaves the key without a TTL |
| ResponseCache.KeysAreDistinct | api/main.py:91-107 | different endpoints, or different limits of one, never share a cache key |
| ResponseCache.StepKeeps | api/main.py:132-140 | each get, fetch, set, failure, expiry or eviction keeps the freshness invariant |
| ResponseCache.AnswersAreFresh | api/main.py:132-140 | under any interleaving and any failing Redis commands, an answer served at t was fetched for that very endpoint between t - ttl - delay and t |
| ResponseCache.EvictionAndFailure | api/main.py:132-140 | an evicted key is a miss for the next request, and a failing fetch ends its request with nothing stored or served |
| ResponseCache.BoundIsAttained | api/main.py:132-140 | an answer exactly ttl + delay old is possible for every positive ttl |
| ResponseCache.RedisCache.SetJson | api/cache.py:56-64 | a value is stored until now + ttl; a ttl that is not positive stores nothing |
| ResponseCache.Cached | api/main.py:132-140 | a hit is served unchanged, a miss or a cached null fetches and stores, a failing fetch stores nothing, no client means no cache |
| Lineage.LinksInOrder | skills/data-lineage-tracer/references/graph-traversal.md:17-19 | the links taken from a dataset are all outputs of all jobs touching it, in the order listed and once per listing |
| Lineage.LinksAreListed | skills/data-lineage-tracer/references/graph-traversal.md:17-19 | a link is taken from a dataset iff a job touching it has the target among its outputs |
| Lineage.TookAll | skills/data-lineage-tracer/references/graph-traversal.md:17-22 | expanding a node appends its edges, lowers depths only to d + 1 of its targets, and queues exactly the changed ones |
| Lineage.StepKeeps | skills/data-lineage-tracer/references/graph-traversal.md:13-22 | popping any item keeps soundness, completeness and the per-node budget |
| Lineage.EmptyQueueIsShortest | skills/data-lineage-tracer/references/graph-traversal.md:9 | an empty queue means visited is exactly the shortest distances within the limit |
| Lineage.EmptyQueueHasAllEdges | skills/data-lineage-tracer/references/graph-traversal.md:19 | and edges holds exactly the links the graph lists that leave a node below the limit |
| Lineage.StepRations | skills/data-lineage-tracer/references/graph-traversal.md:34-36 | each time a dataset is queued again its recorded depth has dropped |
| Lineage.StepUsesUp | skills/data-lineage-tracer/references/graph-traversal.md:13-22 | every pop uses up a recordable depth or shortens the queue, so any order terminates |
| Lineage.ExpandNode | skills/data-lineage-tracer/references/graph-traversal.md:17-22 | the two inner loops take the links of all jobs and outputs in order |
| Lineage.PopItem | skills/data-lineage-tracer/references/graph-traversal.md:14-22 | one round of the outer loop is one step on the chosen item |
| Lineage.TraverseAnyOrder | skills/data-lineage-tracer/references/graph-traversal.md:8-23 | with any pop order the traversal terminates with exactly the shortest distances within the limit and exactly the edges leaving nodes below it, queueing each node other than the origin at most depth_limit times and the origin never again, and expanding no node more than max(1, depth_limit - 2) times |
| Lineage.FewExpansions | skills/data-lineage-tracer/references/graph-traversal.md:34-36 | under any sequence of pops the origin is expanded at most once and any other node at most max(1, depth_limit - 2) times, not at all when depth_limit is below 2 |
| Reexpansion.LadderExpandsOften | skills/data-lineage-tracer/references/graph-traversal.md:34-36 | in every graph with a chain, a rung beside each of its steps and x below every rung, a last-in-first-out order expands x once for every rung |
| Reexpansion.BoundIsAttained | skills/data-lineage-tracer/references/graph-traversal.md:34-36 | for every depth_limit some graph and order expand a node other than the origin exactly as often as the bound allows |
| FifoLineage.RunInOrder | skills/data-lineage-tracer/references/graph-traversal.md:13-22 | first in, first out: depths on the queue are sorted and span at most one, and no dataset is queued twice |
| FifoLineage.PlainVisitedSetIsEnough | skills/data-lineage-tracer/references/graph-traversal.md:27-32 | in that order the strictly-shorter branch never fires: a plain visited set passes through the same states |
| LifoLineage.PlainVisitedSetCanMiss | skills/data-lineage-tracer/references/graph-traversal.md:27-32 | whenever a chain of depth_limit hops and a shorter one of at least two end in the same dataset, whatever the jobs are, a plain visited set popped last in, first out records that dataset at the limit and misses what hangs below it, which lies within the limit (the documented case is five hops against two at limit five) |
| FifoLineage.Traverse | skills/data-lineage-tracer/references/graph-traversal.md:8-23 | shortest distances, every edge within the limit, and each dataset expanded at most once in the order reached |
| FifoLineage.EdgesRepeatIff | skills/data-lineage-tracer/references/graph-traversal.md:19 | an edge repeats iff two places in the jobs of one expanded dataset list it |
| FifoLineage.DistinctJobsAreClean | skills/data-lineage-tracer/references/graph-traversal.md:17-19 | distinct jobs with distinct outputs list no edge twice |
| Simulator.UuidIsUuid | producer/simulator.py:104 | the text form of any 128-bit draw passes the UUID check |
| Simulator.UuidForm | producer/simulator.py:104 | it has the form 8-4-4-4-12 in lower-case hexadecimal digits |
| Simulator.UuidsDiffer | producer/simulator.py:104 | different 128-bit draws give different event ids |
| Simulator.ChoicesAreKnown | producer/simulator.py:18-39 | what can be drawn for a column is exactly what the schema accepts |
| Simulator.FirstPageByRoll | producer/simulator.py:129-135 | seventy rolls of a hundred start on the home page and twenty on one of the 200 products |
| Simulator.StartsAnywhere | producer/simulator.py:129-135 | after each of the other ten any page of the seven kinds may be first |
| Simulator.JumpsAnywhere | producer/simulator.py:137-144 | after each roll of 85 or more any page of the seven kinds may be next, whatever the current one is |
| Simulator.TypesOfPage | producer/simulator.py:146-152 | views and clicks can happen on every page, purchases exactly on the checkout page, additions exactly on product, cart and checkout pages |
| Simulator.EmittedInSessions | producer/simulator.py:93-119 | the stream is a sequence of sessions of 3 to 20 events, the last perhaps cut short, whose events share user, session id, device, region, campaign and referrer |
| Simulator.EmittedUsers | producer/simulator.py:94-95 | every event is of one of the users u-0001 to u-5000 and of a session id of twelve lower-case hexadecimal digits |
| Simulator.AnyoneMayCome | producer/simulator.py:94-99 | any of the 5000 users may come first, with any device, region, campaign and referrer, and the event carries them |
| Simulator.AnyTypeMayHappen | producer/simulator.py:146-152 | any type its page allows may be drawn for an event |
| Simulator.AnyLength | producer/simulator.py:101 | sessions of every length from 3 to 20 can begin |
| Simulator.AnyProduct | producer/simulator.py:157-160 | every one of the 200 products can be visited |
| Simulator.EmittedIdsDiffer | producer/simulator.py:104 | when no 128-bit draw comes twice, no two events have the same id |
| Simulator.StepIsNearest | producer/simulator.py:76 | the step is the number of microseconds nearest to a million divided by the rate, of two the even one |
| Simulator.NextPageIsGood | producer/simulator.py:137-144 | from a concrete page every roll leads to a concrete page |
| Simulator.FirstPageIsGood | producer/simulator.py:129-135 | every session starts on a concrete page |
| Simulator.NextPageFollowsFunnel | producer/simulator.py:137-144 | half of the rolls stay on the page, and the next 35 in 100 move exactly one stage closer to the checkout, or stay there |
| Simulator.AdvanceIsGood | producer/simulator.py:118 | the clock advances by exactly the step, or the calendar has ended |
| Simulator.AtExists | producer/simulator.py:118 | events go on as long as the steps stay short of the calendar's last second |
| Simulator.EmittedIsParsed | producer/simulator.py:93-119 | for every tape each emitted event is constructible and the parser returns it unchanged, without error |
| Simulator.EmittedMakesSense | producer/simulator.py:137-160 | the page is never bare /product, purchases happen only on /checkout, add_to_cart only on cart, checkout and product pages |
| Simulator.EmittedOnTheClock | producer/simulator.py:115-118 | event i carries the second that lies i steps after the start |
| Simulator.EventsArePrefix | producer/simulator.py:82-86 | with the same seed and start, generate(n) is a prefix of generate(m) for n <= m |
| Simulator.NewSimulator | producer/simulator.py:64-76 | construction fails iff the rate is not positive |
| Simulator.ClickstreamSimulator.DrawFirstPage | producer/simulator.py:129-135 | the method draws what the specification of the first page says and advances the tape as far |
| Simulator.ClickstreamSimulator.DrawNextPage | producer/simulator.py:137-144 | the same for the next page |
| Simulator.ClickstreamSimulator.DrawSession | producer/simulator.py:94-99 | the same for a session's six constant attributes |
| Simulator.ClickstreamSimulator.MakeEvent | producer/simulator.py:103-114 | the event yielded in a state, with its two draws |
| Simulator.ClickstreamSimulator.Generate | producer/simulator.py:82-86 | generate(n) returns exactly the first n events, fails for negative n without touching the simulator, and fails when the calendar ends |
| Simulator.EventIterator.Next | producer/simulator.py:88-119 | the k-th resumption of the generator yields event k, running the code after the previous yield first |
| Pacing.Goes | producer/cli.py:85-88 | the loop goes on only while neither limit is reached, and stops only for one of them |
| Pacing.Produce | producer/cli.py:89-95 | after a round the clock has reached the time at which the next event is due |
| Pacing.Run | producer/cli.py:79-98 | the k-th event is sent no earlier than start + (k-1)/rate, and exactly then when the clock has no lag; at most rate * duration and at most max_events are sent; events are the simulator's in order; the loop ends only for a limit or because it is cut off |
| Pacing.NeverAheadIffKeepsUp | producer/simulator.py:76 | the simulated clock never passes the pace iff the step was not rounded up, in particular for rates that divide 1 000 000 |
| Pacing.NoFutureTimestamps | producer/simulator.py:115-118 | at such a rate no event of any run is stamped later than the wall clock when it is sent |
| Pacing.FutureTimestamp | producer/simulator.py:118 | at every other rate, for every simulator built as the loop starts with enough of the calendar left, the run that sends each event exactly when it is due stamps one later than the wall clock |
| Pacing.RunIntoTheFuture | producer/cli.py:79-98 | executing the loop on a clock without lag produces that run, for every such simulator |
| Pacing.NeverEarlyIffKeepsUp | producer/cli.py:79-98 | no run, with whatever seed, start, wall clock and lags, stamps an event later than the wall clock reads when it is sent if and only if the step was not rounded up |
| EndToEnd.TwoMinutesIsPunctual | spark_jobs/streaming_job.py:105 | events of one partition that never lag an earlier one by more than two minutes are punctual |
| EndToEnd.SimulatedIsPunctual | producer/simulator.py:115-118 | a simulated stream held by a single partition is punctual |
| EndToEnd.OnePartitionCountsSimulatedEvents | spark_jobs/streaming_job.py:260-264 | for a single partition, every run under any schedule that has consumed the stream, from whatever topic it started, leaves a table that reports the very events the simulator made: a row for exactly the minutes, pages and devices or campaigns with an event, with their numbers by type and of distinct user ids |
| EndToEnd.SimulatedInOrderIff | producer/kafka_client.py:65-72 | simulated events sent to any partitions arrive in order if and only if none arrives after one whose watermark has ended its window |
| EndToEnd.SmallDisplacement | producer/kafka_client.py:65-72 | arrival in the order of sending qualifies, and so does any displacement of up to two minutes of event time |
| EndToEnd.TablesCountSimulatedEvents | spark_jobs/streaming_job.py:260-264 | simulated, serialised, produced to any partitions of a topic that starts empty, parsed, batched while messages arrive, crashed and replayed: once a query that keeps up has read them all, its table reports exactly the events that arrived, by their own fields: a row for each minute, page and device or campaign with an event, with the numbers by type and of distinct user ids |
| EndToEnd.TablesCountEverySimulatedEvent | spark_jobs/streaming_job.py:260-264 | and when every event arrives once, in whatever order and partitions, exactly the events the simulator made |

## Left out

- Spark, Kafka, PostgreSQL, ClickHouse and Redis themselves: only the step rules above are assumed of them.
- approx_count_distinct: `users` is the exact distinct count, so HyperLogLog error is not modelled.
- Floating point: z-scores and pacing are over exact reals, and 1.0 / rate is exact before it is rounded to microseconds; statistics.pstdev enters as any non-negative root of the variance.
- Timestamps without zero padding: strptime accepts them and the Spark pattern does not; the model requires padded ones, as the simulator writes for years from 1000 on. strptime also accepts a lower-case t and z and digits outside ASCII, which the model rejects.
- Repeated event ids: restarting the producer with one seed repeats them, so distinct ids are a hypothesis of the statements that need them.
- JSON beyond flat objects of strings: a document of any other shape counts as not an object, so numbers that str() would accept, nested values and lone surrogates are not modelled, and the two messages "invalid JSON" and "must be a JSON object" are one error.
- UUID spellings: braces and hyphens are removed as uuid.UUID does, but its urn: and uuid: prefixes and the whitespace, underscores and signs that int() would accept are not.
- Time zones with changing offsets: the session's zone is a fixed offset, and the Spark driver is assumed to run in UTC.
- Redis failures in the limiter protocol: a failing EXPIRE and a missing client are modelled; a failing INCR, which lets any number of calls through uncounted, and an EXPIRE that took effect although its reply was lost are not.
- ResponseCache.AnswersAreFresh: a request that takes longer than `delay` from fetch to the end of its set never completes, because the delay bound is an assumption about callers.
- ResponseCache.Cached: a stored null reads back as a miss, and values are opaque text, so the Decimal and date conversions of the JSON fallback are not modelled.
- Pacing.Run: the endless loop is cut after `supply` rounds, an arbitrary parameter; delivery callbacks, polling and the progress text are not modelled, only the log timer is.
- Simulator draws: one tape entry per draw and a uniform choice among the possible outcomes; the weights, and how many random bits a draw takes, are not modelled.
- Lineage: jobs_touching is a finite map, and the classification of cycles is not modelled.
- DDL, connection handling, the console and memory sink modes, SINK_MODE dispatch and the readiness and metrics endpoints: nothing in them spans operations.
- Top-page, top-campaign, timeline and recent-event queries, the dbt marts, the Delta demo and the freshness helpers: further instances of the sums and upserts proved here.
- SQL screening, prompts and the LLM client of the assistant, deployment files, dashboards and quality reports.
