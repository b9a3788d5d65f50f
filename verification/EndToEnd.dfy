/** From the simulator to the curated tables: what the simulator emits is what the tables count. */
module EndToEnd {
  import opened Aggregates
  import opened Calendar
  import opened Clicks
  import opened Lateness
  import opened LiveTopic
  import opened Log
  import opened Parsing
  import opened Punctuality
  import opened Schema
  import opened Simulator
  import opened Wrappers
  import Stream

  // The messages the producer sends for its events, in order.
  function Messages(events: seq<ClickEvent>): (raws: seq<Raw>)
    ensures |raws| == |events| && forall i :: 0 <= i < |events| ==> raws[i] == Some(ToJson(events[i]))
  {
    seq(|events|, i requires 0 <= i < |events| => Some(ToJson(events[i])))
  }

  function RowsOfEvents(events: seq<ClickEvent>): (rows: seq<Event>)
    ensures |rows| == |events| && forall i :: 0 <= i < |events| ==> rows[i] == ToRow(events[i])
  {
    seq(|events|, i requires 0 <= i < |events| => ToRow(events[i]))
  }

  // ---- In-order data is punctual ----

  lemma EventHasTime(topic: Topic, times: seq<int>, p: nat, i: nat, e: Event)
    requires TimesAre(topic, times) && EventAt(topic, p, i, e)
    ensures p == 0 && i < |times| && e.ts == times[i]
  {
  }

  // One partition, whose event number i, if it parses, happened at times[i].
  ghost predicate TimesAre(topic: Topic, times: seq<int>) {
    && |topic| == 1 && |topic[0]| == |times|
    && forall i :: 0 <= i < |times| ==> HappenedAt(topic[0][i], times[i])
  }

  predicate HappenedAt(raw: Raw, time: int) { ParsedRow(raw).Some? ==> ParsedRow(raw).value.ts == time }

  /** Events of one partition that never lag two minutes behind an earlier one are punctual, from 1970 on. */
  lemma TwoMinutesIsPunctual(topic: Topic, times: seq<int>)
    requires TimesAre(topic, times)
    requires forall i :: 0 <= i < |times| ==> times[i] >= 0
    requires forall j, i :: 0 <= j < i < |times| ==> times[i] >= times[j] - 120
    ensures Punctual(topic)
  {
    forall p: nat, i: nat, e: Event | EventAt(topic, p, i, e) ensures WindowEnd(e.ts) > Stream.INITIAL_WATERMARK {
      EventHasTime(topic, times, p, i, e);
    }
    forall p: nat, i: nat, e: Event, r: nat, j: nat, f: Event |
      EventAt(topic, p, i, e) && EventAt(topic, r, j, f) && MayPrecede(r, j, p, i)
      ensures WindowEnd(e.ts) > f.ts - WATERMARK_SECONDS
    {
      EventHasTime(topic, times, p, i, e);
      EventHasTime(topic, times, r, j, f);
    }
  }

  // ---- The simulator's stream ----

  ghost function TimesOf(u: Setup, n: nat): (times: seq<int>)
    requires GoodSetup(u)
    ensures |times| == n
  {
    seq(n, i requires 0 <= i < n => (EpochMicros(u.clock, u.micros) + i * u.step) / 1_000_000)
  }

  lemma TimesAscend(u: Setup, n: nat, j: nat, i: nat)
    requires GoodSetup(u) && j < i < n && EpochMicros(u.clock, u.micros) >= 0
    ensures 0 <= TimesOf(u, n)[j] <= TimesOf(u, n)[i]
  {
    MoreSteps(j, i, u.step);
    QuotientAscends(EpochMicros(u.clock, u.micros) + j * u.step, EpochMicros(u.clock, u.micros) + i * u.step);
  }

  lemma MoreSteps(j: nat, i: nat, step: nat)
    requires j <= i
    ensures 0 <= j * step <= i * step
  {
    assert i * step == j * step + (i - j) * step;
  }

  lemma QuotientAscends(a: int, b: int)
    requires 0 <= a <= b
    ensures 0 <= a / 1_000_000 <= b / 1_000_000
  {
  }

  lemma MessageIsItsEvent(u: Setup, n: nat, i: nat)
    requires GoodSetup(u) && Events(u, n).Some? && i < n
    ensures |Events(u, n).value| == n
    ensures ParsedRow(Some(ToJson(Events(u, n).value[i]))) == Some(ToRow(Events(u, n).value[i]))
  {
    EmittedIsParsed(u, n, i);
  }

  lemma MessageHappened(u: Setup, n: nat, i: nat)
    requires GoodSetup(u) && Events(u, n).Some? && i < n
    ensures |Events(u, n).value| == n
    ensures HappenedAt(Some(ToJson(Events(u, n).value[i])), TimesOf(u, n)[i])
  {
    MessageIsItsEvent(u, n, i);
    EmittedOnTheClock(u, n, i);
  }

  // All of a simulated stream in one partition.
  function SimulatedTopic(u: Setup, n: nat): Topic
    requires Events(u, n).Some?
  {
    [Messages(Events(u, n).value)]
  }

  lemma SimulatedTimes(u: Setup, n: nat)
    requires GoodSetup(u) && Events(u, n).Some?
    ensures TimesAre(SimulatedTopic(u, n), TimesOf(u, n))
  {
    EventsLength(u, n);
    forall i | 0 <= i < n ensures HappenedAt(SimulatedTopic(u, n)[0][i], TimesOf(u, n)[i]) {
      MessageHappened(u, n, i);
    }
  }

  /** A simulated stream in one partition is punctual: no schedule drops any of it as late. */
  lemma SimulatedIsPunctual(u: Setup, n: nat)
    requires GoodSetup(u) && Events(u, n).Some? && EpochMicros(u.clock, u.micros) >= 0
    ensures Punctual(SimulatedTopic(u, n))
  {
    var times := TimesOf(u, n);
    SimulatedTimes(u, n);
    forall i | 0 <= i < n ensures times[i] >= 0 {
      TimeIsPositive(u, n, i);
    }
    forall j, i | 0 <= j < i < n ensures times[i] >= times[j] - WATERMARK_SECONDS {
      TimesAscend(u, n, j, i);
    }
    TwoMinutesIsPunctual(SimulatedTopic(u, n), times);
  }

  lemma FirstTime(u: Setup, n: nat)
    requires GoodSetup(u) && n > 0 && EpochMicros(u.clock, u.micros) >= 0
    ensures TimesOf(u, n)[0] >= 0
  {
  }

  lemma {:induction false} FlatMapOneEach<T, U>(f: T -> seq<U>, s: seq<T>, t: seq<U>)
    requires |s| == |t| && forall i :: 0 <= i < |s| ==> f(s[i]) == [t[i]]
    ensures FlatMap(f, s) == t
  {
    if s != [] {
      FlatMapOneEach(f, s[..|s| - 1], t[..|t| - 1]);
      assert t == t[..|t| - 1] + [t[|t| - 1]];
    }
  }

  lemma OnePartitionRows(raws: seq<Raw>)
    ensures Range([raws], Zeros(1), [|raws|]) && Rows([raws], Zeros(1), [|raws|]) == EventsOf(raws)
  {
    var topic := [raws];
    assert topic[..0] == [];
    assert Slice([], Zeros(1)[..0], [|raws|][..0]) == [];
    assert raws[0..|raws|] == raws;
    assert [] + raws == raws;
  }

  lemma SimulatedRows(u: Setup, n: nat)
    requires GoodSetup(u) && Events(u, n).Some?
    ensures EventsOf(Messages(Events(u, n).value)) == RowsOfEvents(Events(u, n).value)
  {
    var events := Events(u, n).value;
    var raws := Messages(events);
    EventsLength(u, n);
    forall i | 0 <= i < n ensures RowOfEach()(raws[i]) == [ToRow(events[i])] {
      MessageIsItsEvent(u, n, i);
      assert RowOfEach()(raws[i]) == RowOf(raws[i]);
    }
    FlatMapOneEach(RowOfEach(), raws, RowsOfEvents(events));
  }

  // ---- What a table reports, in terms of the events themselves ----

  // The event happened in the minute of the group, on its page and device or for its campaign.
  ghost predicate IsHit(q: Query, e: ClickEvent, k: Key) {
    && (exists t: DateTime :: Valid(t) && FormatTs(t) == e.ts && InMinute(EpochSeconds(t), k.start))
    && match (q, k)
       case (PageViews, PageKey(_, page, device)) => e.page == page && e.device == device
       case (CampaignStats, CampaignKey(_, campaignId)) => e.campaignId == campaignId
       case _ => false
  }

  ghost function Hits(q: Query, events: seq<ClickEvent>, k: Key): set<nat> {
    set i: nat | i < |events| && IsHit(q, events[i], k)
  }

  ghost function HitsOf(q: Query, events: seq<ClickEvent>, k: Key, eventType: string): set<nat> {
    set i: nat | i < |events| && IsHit(q, events[i], k) && events[i].eventType == eventType
  }

  ghost function Visitors(q: Query, events: seq<ClickEvent>, k: Key): set<string> {
    set i: nat | i < |events| && IsHit(q, events[i], k) :: events[i].userId
  }

  // The columns of one row: numbers of events, by type, and of distinct users.
  ghost predicate RowReports(q: Query, events: seq<ClickEvent>, k: Key, row: Row) {
    match row
    case PageRow(views, users) =>
      q.PageViews? && views == |HitsOf(q, events, k, "page_view")| && users == |Visitors(q, events, k)|
    case CampaignRow(all, views, clicks, conversions, users) =>
      && q.CampaignStats? && all == |Hits(q, events, k)|
      && views == |HitsOf(q, events, k, "page_view")| && clicks == |HitsOf(q, events, k, "click")|
      && conversions == |HitsOf(q, events, k, "purchase")| && users == |Visitors(q, events, k)|
  }

  // The table has a row for exactly the groups with an event, and each row counts its events.
  ghost predicate Reports(q: Query, events: seq<ClickEvent>, table: map<Key, Row>) {
    forall k :: (k in table <==> Hits(q, events, k) != {}) && (k in table ==> RowReports(q, events, k, table[k]))
  }

  lemma RowInGroup(q: Query, r: Event, e: ClickEvent, k: Key)
    requires IsRowOf(r, e)
    ensures Belongs(q, r, k) <==> IsHit(q, e, k)
  {
    var t: DateTime :| Valid(t) && FormatTs(t) == e.ts && EpochSeconds(t) == r.ts;
    forall s: DateTime | Valid(s) && FormatTs(s) == e.ts ensures s == t {
      TsRoundTrip(s);
      TsRoundTrip(t);
    }
  }

  // Rows and their events are at the same places of a group.
  ghost predicate SameHits(q: Query, rows: seq<Event>, events: seq<ClickEvent>, k: Key) {
    && |rows| == |events|
    && forall i: nat :: i < |rows| ==>
         (Belongs(q, rows[i], k) <==> IsHit(q, events[i], k)) && rows[i].eventType == events[i].eventType &&
         rows[i].userId == events[i].userId
  }

  lemma RowsAreHits(q: Query, rows: seq<Event>, events: seq<ClickEvent>, k: Key)
    requires |rows| == |events| && forall i :: 0 <= i < |rows| ==> IsRowOf(rows[i], events[i])
    ensures SameHits(q, rows, events, k)
  {
    forall i: nat | i < |rows| ensures Belongs(q, rows[i], k) <==> IsHit(q, events[i], k) {
      RowInGroup(q, rows[i], events[i], k);
    }
  }

  lemma SamePositions(q: Query, rows: seq<Event>, events: seq<ClickEvent>, k: Key)
    requires SameHits(q, rows, events, k)
    ensures Positions(q, rows, k) == Hits(q, events, k)
  {
  }

  lemma SamePositionsOf(q: Query, rows: seq<Event>, events: seq<ClickEvent>, k: Key, eventType: string)
    requires SameHits(q, rows, events, k)
    ensures PositionsOf(q, rows, k, eventType) == HitsOf(q, events, k, eventType)
  {
  }

  lemma UsersAreVisitors(q: Query, rows: seq<Event>, events: seq<ClickEvent>, k: Key, u: string)
    requires SameHits(q, rows, events, k) && u in UsersAt(q, rows, k)
    ensures u in Visitors(q, events, k)
  {
    SamePositions(q, rows, events, k);
    var i :| i in Positions(q, rows, k) && rows[i].userId == u;
    assert i in Hits(q, events, k) && events[i].userId == u;
  }

  lemma VisitorsAreUsers(q: Query, rows: seq<Event>, events: seq<ClickEvent>, k: Key, u: string)
    requires SameHits(q, rows, events, k) && u in Visitors(q, events, k)
    ensures u in UsersAt(q, rows, k)
  {
    SamePositions(q, rows, events, k);
    var i: nat :| i < |events| && IsHit(q, events[i], k) && events[i].userId == u;
    assert i in Positions(q, rows, k) && rows[i].userId == u;
  }

  lemma SameUsers(q: Query, rows: seq<Event>, events: seq<ClickEvent>, k: Key)
    requires SameHits(q, rows, events, k)
    ensures UsersAt(q, rows, k) == Visitors(q, events, k)
  {
    forall u ensures u in UsersAt(q, rows, k) <==> u in Visitors(q, events, k) {
      if u in UsersAt(q, rows, k) {
        UsersAreVisitors(q, rows, events, k, u);
      } else if u in Visitors(q, events, k) {
        VisitorsAreUsers(q, rows, events, k, u);
      }
    }
  }

  lemma MeaningReports(q: Query, rows: seq<Event>, events: seq<ClickEvent>, k: Key)
    requires SameHits(q, rows, events, k)
    ensures RowReports(q, events, k, Emit(Meaning(q, rows, k)))
  {
    SamePositions(q, rows, events, k);
    SamePositionsOf(q, rows, events, k, "page_view");
    SamePositionsOf(q, rows, events, k, "click");
    SamePositionsOf(q, rows, events, k, "purchase");
    SameUsers(q, rows, events, k);
  }

  lemma TableReports(q: Query, rows: seq<Event>, events: seq<ClickEvent>)
    requires |rows| == |events| && forall i :: 0 <= i < |rows| ==> IsRowOf(rows[i], events[i])
    ensures Reports(q, events, EmitAll(GroupBy(q, rows)))
  {
    var table := EmitAll(GroupBy(q, rows));
    forall k
      ensures (k in table <==> Hits(q, events, k) != {}) && (k in table ==> RowReports(q, events, k, table[k]))
    {
      RowsAreHits(q, rows, events, k);
      GroupByMeaning(q, rows, k);
      SamePositions(q, rows, events, k);
      MeaningReports(q, rows, events, k);
    }
  }

  lemma SimulatedReports(u: Setup, n: nat, q: Query, order: seq<nat>)
    requires GoodSetup(u) && Events(u, n).Some? && |Events(u, n).value| == n && Within(order, n)
    ensures Reports(q, Pick(Events(u, n).value, order),
                    EmitAll(GroupBy(q, Pick(RowsOfEvents(Events(u, n).value), order))))
  {
    var events := Events(u, n).value;
    forall k | 0 <= k < |order| ensures IsRowOf(Pick(RowsOfEvents(events), order)[k], Pick(events, order)[k]) {
      EmittedIsParsed(u, n, order[k]);
      RowHasColumns(events[order[k]]);
    }
    TableReports(q, Pick(RowsOfEvents(events), order), Pick(events, order));
  }

  lemma AllSimulatedReports(u: Setup, n: nat, q: Query)
    requires GoodSetup(u) && Events(u, n).Some?
    ensures Reports(q, Events(u, n).value, EmitAll(GroupBy(q, RowsOfEvents(Events(u, n).value))))
  {
    EventsLength(u, n);
    var events := Events(u, n).value;
    SimulatedReports(u, n, q, Indices(n));
    assert Pick(events, Indices(n)) == events;
    assert Pick(RowsOfEvents(events), Indices(n)) == RowsOfEvents(events);
  }

  /**
   One partition: once a query has consumed the stream, however it is cut into batches and whatever
   arrives meanwhile, its table is the GROUP BY of the very events the simulator made.
   */
  lemma OnePartitionCountsSimulatedEvents(u: Setup, n: nat, q: Query, from: Topic, actions: seq<Stream.Action>)
    requires GoodSetup(u) && Events(u, n).Some? && EpochMicros(u.clock, u.micros) >= 0
    requires RunsTo(q, from, SimulatedTopic(u, n), actions)
    requires Stream.EndOf(SimulatedTopic(u, n), Stream.Exec(q, from, actions).plans) == [n]
    ensures Stream.Exec(q, from, actions).table == EmitAll(GroupBy(q, RowsOfEvents(Events(u, n).value)))
    ensures Reports(q, Events(u, n).value, Stream.Exec(q, from, actions).table)
  {
    AllSimulatedReports(u, n, q);
    SimulatedIsPunctual(u, n);
    PunctualIsInStep(SimulatedTopic(u, n), Stream.Exec(q, from, actions).plans);
    BatchingIsInvisible(q, from, actions);
    EventsLength(u, n);
    OnePartitionRows(Messages(Events(u, n).value));
    SimulatedRows(u, n);
  }

  // ---- Any number of partitions, and arrivals while the query runs ----

  predicate Within(order: seq<nat>, n: nat) { forall k :: 0 <= k < |order| ==> order[k] < n }

  function Pick<T>(s: seq<T>, order: seq<nat>): (picked: seq<T>)
    requires Within(order, |s|)
    ensures |picked| == |order| && forall k :: 0 <= k < |order| ==> picked[k] == s[order[k]]
  {
    seq(|order|, k requires 0 <= k < |order| => s[order[k]])
  }

  // The simulator's events as they arrive: which of them when, and in which partition.
  datatype Dispatch = Dispatch(order: seq<nat>, partition: seq<nat>)

  ghost predicate Dispatches(d: Dispatch, n: nat, parts: nat) {
    |d.order| == |d.partition| && Within(d.order, n) && Within(d.partition, parts)
  }

  function Sent(events: seq<ClickEvent>, d: Dispatch): (arrivals: seq<Arrival>)
    requires |d.order| == |d.partition| && Within(d.order, |events|)
    ensures |arrivals| == |d.order|
    ensures forall k :: 0 <= k < |d.order| ==> arrivals[k] == Arrival(d.partition[k], Some(ToJson(events[d.order[k]])))
  {
    seq(|d.order|, k requires 0 <= k < |d.order| => Arrival(d.partition[k], Some(ToJson(events[d.order[k]]))))
  }

  // No event arrives after one whose watermark has ended its window.
  ghost predicate NoneOvertaken(times: seq<int>, order: seq<nat>)
    requires Within(order, |times|)
  {
    forall a, b :: 0 <= a < b < |order| ==> (times[order[b]] / 60 + 1) * 60 > times[order[a]] - 120
  }

  // Arrivals in the order of sending qualify, and so does any displacement of up to two minutes of event time.
  lemma SmallDisplacement(u: Setup, n: nat, order: seq<nat>)
    requires GoodSetup(u) && EpochMicros(u.clock, u.micros) >= 0
    requires Within(order, n)
    requires forall a, b :: 0 <= a < b < |order| ==>
               order[a] <= order[b] || TimesOf(u, n)[order[a]] <= TimesOf(u, n)[order[b]] + 120
    ensures NoneOvertaken(TimesOf(u, n), order)
  {
    var times := TimesOf(u, n);
    forall a, b | 0 <= a < b < |order| ensures (times[order[b]] / 60 + 1) * 60 > times[order[a]] - 120 {
      if order[a] < order[b] {
        TimesAscend(u, n, order[a], order[b]);
      }
    }
  }

  lemma TimeIsPositive(u: Setup, n: nat, i: nat)
    requires GoodSetup(u) && i < n && EpochMicros(u.clock, u.micros) >= 0
    ensures TimesOf(u, n)[i] >= 0
  {
    if i > 0 {
      TimesAscend(u, n, 0, i);
    } else {
      FirstTime(u, n);
    }
  }

  lemma ArrivedOnTheClock(u: Setup, n: nat, parts: nat, d: Dispatch, a: nat)
    requires GoodSetup(u) && Events(u, n).Some? && |Events(u, n).value| == n
    requires Dispatches(d, n, parts) && a < |d.order|
    ensures var e := ToRow(Events(u, n).value[d.order[a]]);
            Arrived(parts, Sent(Events(u, n).value, d), a, e) && e.ts == TimesOf(u, n)[d.order[a]]
  {
    MessageIsItsEvent(u, n, d.order[a]);
    MessageHappened(u, n, d.order[a]);
  }

  /** Simulated events arrive in order, whichever partitions they go to, exactly when none is overtaken. */
  lemma SimulatedInOrderIff(u: Setup, n: nat, parts: nat, d: Dispatch)
    requires GoodSetup(u) && Events(u, n).Some? && EpochMicros(u.clock, u.micros) >= 0 && Dispatches(d, n, parts)
    ensures |Events(u, n).value| == n
    ensures InOrder(parts, Sent(Events(u, n).value, d)) <==> NoneOvertaken(TimesOf(u, n), d.order)
  {
    EventsLength(u, n);
    var arrivals, times := Sent(Events(u, n).value, d), TimesOf(u, n);
    forall a: nat, e: Event | Arrived(parts, arrivals, a, e) ensures e.ts == times[d.order[a]] >= 0 {
      ArrivedOnTheClock(u, n, parts, d, a);
      TimeIsPositive(u, n, d.order[a]);
    }
    if InOrder(parts, arrivals) {
      forall a, b | 0 <= a < b < |d.order|
        ensures (times[d.order[b]] / 60 + 1) * 60 > times[d.order[a]] - 120
      {
        ArrivedOnTheClock(u, n, parts, d, a);
        ArrivedOnTheClock(u, n, parts, d, b);
      }
    }
  }

  lemma SentRows(u: Setup, n: nat, d: Dispatch, parts: nat)
    requires GoodSetup(u) && Events(u, n).Some? && |Events(u, n).value| == n && Dispatches(d, n, parts)
    ensures EventsOf(RawsOf(Sent(Events(u, n).value, d))) == Pick(RowsOfEvents(Events(u, n).value), d.order)
  {
    var events := Events(u, n).value;
    var raws := RawsOf(Sent(events, d));
    forall k | 0 <= k < |raws| ensures RowOfEach()(raws[k]) == [ToRow(events[d.order[k]])] {
      MessageIsItsEvent(u, n, d.order[k]);
      assert RowOfEach()(raws[k]) == RowOf(raws[k]);
    }
    FlatMapOneEach(RowOfEach(), raws, Pick(RowsOfEvents(events), d.order));
  }

  /**
   Simulate, serialise, produce to any partitions, parse, batch, crash, replay, upsert: a query that
   keeps up while messages arrive, and has read them all, counts the very events that arrived.
   */
  lemma TablesCountSimulatedEvents(u: Setup, n: nat, q: Query, parts: nat, d: Dispatch, actions: seq<Stream.Action>)
    requires GoodSetup(u) && Events(u, n).Some? && EpochMicros(u.clock, u.micros) >= 0
    requires |Events(u, n).value| == n && Dispatches(d, n, parts) && NoneOvertaken(TimesOf(u, n), d.order)
    requires Arrivals(actions) == Sent(Events(u, n).value, d) && KeepsUp(q, Empty(parts), actions)
    requires var s := Stream.Exec(q, Empty(parts), actions);
             Stream.Idle(s) && Stream.EndOf(s.topic, s.plans) == Lengths(s.topic)
    ensures Stream.Exec(q, Empty(parts), actions).table ==
            EmitAll(GroupBy(q, Pick(RowsOfEvents(Events(u, n).value), d.order)))
    ensures Reports(q, Pick(Events(u, n).value, d.order), Stream.Exec(q, Empty(parts), actions).table)
  {
    TableIsOfArrived(u, n, q, parts, d, actions);
    SimulatedReports(u, n, q, d.order);
  }

  lemma TableIsOfArrived(u: Setup, n: nat, q: Query, parts: nat, d: Dispatch, actions: seq<Stream.Action>)
    requires GoodSetup(u) && Events(u, n).Some? && EpochMicros(u.clock, u.micros) >= 0
    requires |Events(u, n).value| == n && Dispatches(d, n, parts) && NoneOvertaken(TimesOf(u, n), d.order)
    requires Arrivals(actions) == Sent(Events(u, n).value, d) && KeepsUp(q, Empty(parts), actions)
    requires var s := Stream.Exec(q, Empty(parts), actions);
             Stream.Idle(s) && Stream.EndOf(s.topic, s.plans) == Lengths(s.topic)
    ensures Stream.Exec(q, Empty(parts), actions).table ==
            EmitAll(GroupBy(q, Pick(RowsOfEvents(Events(u, n).value), d.order)))
  {
    SimulatedInOrderIff(u, n, parts, d);
    LiveTableCountsArrivals(q, parts, actions);
    SentRows(u, n, d, parts);
  }

  // ---- Every event once ----

  function Indices(n: nat): (ids: seq<nat>)
    ensures |ids| == n && forall i :: 0 <= i < n ==> ids[i] == i
  {
    seq(n, i => i)
  }

  // Moving one index to the end moves the element it picks.
  lemma PickMove<T>(s: seq<T>, order: seq<nat>, i: nat, rest: seq<nat>)
    requires Within(order, |s|) && i < |order| && rest == order[..i] + order[i + 1..]
    ensures Within(rest, |s|) && multiset(Pick(s, rest)) + multiset{s[order[i]]} == multiset(Pick(s, order))
    ensures multiset(rest) + multiset{order[i]} == multiset(order)
  {
    var picked := Pick(s, order);
    assert Pick(s, rest) == picked[..i] + picked[i + 1..];
    MoveToEnd(picked, i);
    MoveToEnd(order, i);
  }

  lemma {:induction false} PickPermutation<T>(s: seq<T>, a: seq<nat>, b: seq<nat>)
    requires multiset(a) == multiset(b) && Within(a, |s|) && Within(b, |s|)
    ensures multiset(Pick(s, a)) == multiset(Pick(s, b))
  {
    if a == [] {
      assert |multiset(b)| == 0;
    } else {
      var n := |a| - 1;
      assert a[n] in multiset(b);
      var i :| 0 <= i < |b| && b[i] == a[n];
      var front, rest := a[..n] + a[n + 1..], b[..i] + b[i + 1..];
      PickMove(s, a, n, front);
      PickMove(s, b, i, rest);
      assert multiset(front) == multiset(a) - multiset{a[n]};
      assert multiset(rest) == multiset(b) - multiset{a[n]};
      PickPermutation(s, front, rest);
    }
  }

  lemma PickAll<T>(s: seq<T>, order: seq<nat>)
    requires Within(order, |s|) && multiset(order) == multiset(Indices(|s|))
    ensures multiset(Pick(s, order)) == multiset(s)
  {
    PickPermutation(s, order, Indices(|s|));
    assert Pick(s, Indices(|s|)) == s;
  }

  /** When every event arrives exactly once, in whatever order that overtakes none, the table counts all of them. */
  lemma TablesCountEverySimulatedEvent(u: Setup, n: nat, q: Query, parts: nat, d: Dispatch,
                                       actions: seq<Stream.Action>)
    requires GoodSetup(u) && Events(u, n).Some? && EpochMicros(u.clock, u.micros) >= 0
    requires |Events(u, n).value| == n && Dispatches(d, n, parts) && NoneOvertaken(TimesOf(u, n), d.order)
    requires multiset(d.order) == multiset(Indices(n))
    requires Arrivals(actions) == Sent(Events(u, n).value, d) && KeepsUp(q, Empty(parts), actions)
    requires var s := Stream.Exec(q, Empty(parts), actions);
             Stream.Idle(s) && Stream.EndOf(s.topic, s.plans) == Lengths(s.topic)
    ensures Stream.Exec(q, Empty(parts), actions).table == EmitAll(GroupBy(q, RowsOfEvents(Events(u, n).value)))
    ensures Reports(q, Events(u, n).value, Stream.Exec(q, Empty(parts), actions).table)
  {
    AllSimulatedReports(u, n, q);
    var rows := RowsOfEvents(Events(u, n).value);
    TablesCountSimulatedEvents(u, n, q, parts, d, actions);
    PickAll(rows, d.order);
    AbsorbPermutation(q, map[], Pick(rows, d.order), rows);
  }
}
