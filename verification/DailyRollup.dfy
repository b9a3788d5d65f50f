/** The nightly rollup of page_views_1m into daily_summary, as a GROUP BY and as the upsert that runs it. */
module DailyRollup {
  import opened Aggregates
  import opened Calendar
  import opened Clicks
  import opened Conservation
  import opened Delivery
  import opened Log
  import opened Snapshots
  import opened Stream
  import opened Sums

  const DAY_SECONDS := 86400

  datatype DayKey = DayKey(day: int, page: string, device: string)
  datatype DayRow = DayRow(views: nat, users: nat)

  // The cast to date happens in the session's time zone, `zone` seconds ahead of UTC.
  function Day(ts: int, zone: int): int { (ts + zone) / DAY_SECONDS }

  function DayKeyOf(k: Key, zone: int): DayKey
  {
    match k
    case PageKey(start, page, device) => DayKey(Day(start, zone), page, device)
    case CampaignKey(start, campaignId) => DayKey(Day(start, zone), campaignId, "")
  }

  ghost function DayOf(zone: int): Key -> DayKey { (k: Key) => DayKeyOf(k, zone) }

  ghost function ViewsColumn(table: map<Key, Row>): map<Key, nat> { map k | k in table :: table[k].views }

  ghost function UsersColumn(table: map<Key, Row>): map<Key, nat> { map k | k in table :: table[k].users }

  function Zip(views: map<DayKey, nat>, users: map<DayKey, nat>): map<DayKey, DayRow> {
    map d | d in views && d in users :: DayRow(views[d], users[d])
  }

  // The SELECT of the rollup.
  ghost function Daily(table: map<Key, Row>, zone: int): map<DayKey, DayRow> {
    Zip(Grouped(ViewsColumn(table), DayOf(zone)), Grouped(UsersColumn(table), DayOf(zone)))
  }

  // One more curated row summed into the row of its day.
  function AddRow(g: map<DayKey, DayRow>, d: DayKey, row: Row): map<DayKey, DayRow> {
    var was := if d in g then g[d] else DayRow(0, 0);
    g[d := DayRow(was.views + row.views, was.users + row.users)]
  }

  function Raise(g: map<DayKey, nat>, d: DayKey, v: nat): map<DayKey, nat> {
    g[d := (if d in g then g[d] else 0) + v]
  }

  // Two grouped columns that both gain a value for the same day, read as rows.
  lemma ZipAdd(views: map<DayKey, nat>, users: map<DayKey, nat>, d: DayKey, row: Row)
    requires views.Keys == users.Keys
    ensures Zip(Raise(views, d, row.views), Raise(users, d, row.users)) == AddRow(Zip(views, users), d, row)
  {
  }

  lemma ViewsAdd(table: map<Key, Row>, zone: int, k: Key, row: Row)
    requires k !in table
    ensures Grouped(ViewsColumn(table[k := row]), DayOf(zone)) ==
            Raise(Grouped(ViewsColumn(table), DayOf(zone)), DayKeyOf(k, zone), row.views)
  {
    assert ViewsColumn(table[k := row]) == ViewsColumn(table)[k := row.views];
    GroupedAdd(ViewsColumn(table), DayOf(zone), k, row.views);
  }

  lemma UsersAdd(table: map<Key, Row>, zone: int, k: Key, row: Row)
    requires k !in table
    ensures Grouped(UsersColumn(table[k := row]), DayOf(zone)) ==
            Raise(Grouped(UsersColumn(table), DayOf(zone)), DayKeyOf(k, zone), row.users)
  {
    assert UsersColumn(table[k := row]) == UsersColumn(table)[k := row.users];
    GroupedAdd(UsersColumn(table), DayOf(zone), k, row.users);
  }

  lemma ColumnsShareDays(table: map<Key, Row>, zone: int)
    ensures Grouped(ViewsColumn(table), DayOf(zone)).Keys == Grouped(UsersColumn(table), DayOf(zone)).Keys
  {
    assert ViewsColumn(table).Keys == UsersColumn(table).Keys;
  }

  lemma DailyAdd(table: map<Key, Row>, zone: int, k: Key, row: Row)
    requires k !in table
    ensures Daily(table[k := row], zone) == AddRow(Daily(table, zone), DayKeyOf(k, zone), row)
  {
    ViewsAdd(table, zone, k, row);
    UsersAdd(table, zone, k, row);
    ColumnsShareDays(table, zone);
    ZipAdd(Grouped(ViewsColumn(table), DayOf(zone)), Grouped(UsersColumn(table), DayOf(zone)), DayKeyOf(k, zone), row);
  }

  function Skipping(table: map<Key, Row>, rest: set<Key>): map<Key, Row> {
    map k | k in table && k !in rest :: table[k]
  }

  lemma SkipLess(table: map<Key, Row>, rest: set<Key>, k: Key, zone: int)
    requires k in rest && rest <= table.Keys
    ensures Daily(Skipping(table, rest - {k}), zone) ==
            AddRow(Daily(Skipping(table, rest), zone), DayKeyOf(k, zone), table[k])
  {
    assert Skipping(table, rest - {k}) == Skipping(table, rest)[k := table[k]];
    DailyAdd(Skipping(table, rest), zone, k, table[k]);
  }

  lemma NoRowsNoDays(zone: int)
    ensures Daily(map[], zone) == map[]
  {
    assert ViewsColumn(map[]) == map[];
    assert Grouped(ViewsColumn(map[]), DayOf(zone)) == map[];
  }

  // The SELECT evaluated row by row, in whatever order the rows come.
  method SelectDaily(table: map<Key, Row>, zone: int) returns (groups: map<DayKey, DayRow>)
    ensures groups == Daily(table, zone)
  {
    groups := map[];
    var rest := table.Keys;
    assert Skipping(table, rest) == map[];
    NoRowsNoDays(zone);
    while rest != {}
      invariant rest <= table.Keys
      invariant groups == Daily(Skipping(table, rest), zone)
      decreases |rest|
    {
      var k :| k in rest;
      SkipLess(table, rest, k, zone);
      groups := AddRow(groups, DayKeyOf(k, zone), table[k]);
      rest := rest - {k};
    }
    assert Skipping(table, rest) == table;
  }

  // The two curated tables the rollup touches.
  class Curated {
    var pageViews: map<Key, Row>
    var dailySummary: map<DayKey, DayRow>

    constructor ()
      ensures pageViews == map[] && dailySummary == map[]
    {
      pageViews, dailySummary := map[], map[];
    }

    // INSERT ... SELECT ... ON CONFLICT DO UPDATE, committed as one transaction.
    method RunDailyRollup(zone: int)
      modifies this`dailySummary
      ensures dailySummary == old(dailySummary) + Daily(pageViews, zone)
    {
      var groups := SelectDaily(pageViews, zone);
      dailySummary := dailySummary + groups;
    }
  }

  // ---- A window belongs to one day ----

  /** Rolling up by window start puts every event in its own day exactly in whole-minute time zones. */
  lemma WindowsStayInTheirDay(zone: int)
    ensures (forall ts, day :: FallsOn(WindowStart(ts), zone, day) <==> FallsOn(ts, zone, day)) <==> zone % 60 == 0
  {
    forall ts, day ensures Day(ts, zone) == day <==> FallsOn(ts, zone, day) {
      DayIs(ts, zone, day);
    }
    WindowsKeepTheirDay(zone);
    if forall ts, day :: FallsOn(WindowStart(ts), zone, day) <==> FallsOn(ts, zone, day) {
      forall ts ensures Day(WindowStart(ts), zone) == Day(ts, zone) {
        DayIs(ts, zone, Day(ts, zone));
        DayIs(WindowStart(ts), zone, Day(ts, zone));
      }
    } else {
      var ts, day :| !(FallsOn(WindowStart(ts), zone, day) <==> FallsOn(ts, zone, day));
      assert Day(WindowStart(ts), zone) != Day(ts, zone);
    }
  }

  lemma WindowsKeepTheirDay(zone: int)
    ensures (forall ts :: Day(WindowStart(ts), zone) == Day(ts, zone)) <==> zone % WINDOW_SECONDS == 0
  {
    if zone % WINDOW_SECONDS == 0 {
      forall ts ensures Day(WindowStart(ts), zone) == Day(ts, zone) {
        SameDay(ts, zone);
      }
    } else {
      assert Day(-zone, zone) == 0;
      assert Day(WindowStart(-zone), zone) == -1 by {
        assert 0 < (-zone) % WINDOW_SECONDS < WINDOW_SECONDS;
      }
    }
  }

  lemma SameDay(ts: int, zone: int)
    requires zone % WINDOW_SECONDS == 0
    ensures Day(WindowStart(ts), zone) == Day(ts, zone)
  {
    var t := ts + zone;
    assert WindowStart(ts) + zone == t - t % 60;
    SameQuotient(t);
  }

  lemma SameQuotient(t: int)
    ensures (t - t % 60) / DAY_SECONDS == t / DAY_SECONDS
  {
    var day, rest := t / DAY_SECONDS, t % DAY_SECONDS;
    assert t == day * DAY_SECONDS + rest && DAY_SECONDS == 60 * 1440;
    assert t % 60 == rest % 60;
  }

  // ---- A day is a date ----

  // Local time lies in the day that is `day` days after the first of January 1970.
  predicate FallsOn(ts: int, zone: int, day: int) { day * 86400 <= ts + zone < (day + 1) * 86400 }

  lemma DayIs(ts: int, zone: int, day: int)
    ensures Day(ts, zone) == day <==> FallsOn(ts, zone, day)
  {
  }

  function DayNumber(date: DateTime): int
    requires date.year >= 1
  {
    Ordinal(date) - EPOCH_ORDINAL
  }

  // The clock on the wall in the session's time zone shows the year, month and day of `date`.
  ghost predicate OnDate(ts: int, zone: int, date: DateTime) {
    exists t: DateTime :: Valid(t) && EpochSeconds(t) == ts + zone && SameDate(t, date)
  }

  /** The day number stands for the local date. */
  lemma FallsOnItsDate(ts: int, zone: int, date: DateTime)
    requires Valid(date)
    ensures FallsOn(ts, zone, DayNumber(date)) <==> OnDate(ts, zone, date)
  {
    if FallsOn(ts, zone, DayNumber(date)) {
      var rest := ts + zone - DayNumber(date) * 86400;
      var t := date.(hour := rest / 3600, minute := rest % 3600 / 60, second := rest % 60);
      assert Ordinal(t) == Ordinal(date);
      assert Valid(t) && EpochSeconds(t) == ts + zone;
    }
    if OnDate(ts, zone, date) {
      var t: DateTime :| Valid(t) && EpochSeconds(t) == ts + zone && SameDate(t, date);
      DayAndTime(t);
    }
  }

  /** Two moments share a day of the rollup exactly when their local dates agree. */
  lemma SameDayIffSameDate(a: DateTime, b: DateTime, zone: int)
    requires Valid(a) && Valid(b)
    ensures Day(EpochSeconds(a) - zone, zone) == Day(EpochSeconds(b) - zone, zone) <==> SameDate(a, b)
  {
    DayAndTime(a);
    DayAndTime(b);
    DayIs(EpochSeconds(a) - zone, zone, DayNumber(a));
    DayIs(EpochSeconds(b) - zone, zone, DayNumber(b));
    SameOrdinalIsSameDate(a, b);
  }

  // ---- What a day's row says about the events ----

  predicate InDayGroup(e: Event, zone: int, d: DayKey) {
    FallsOn(e.ts, zone, d.day) && e.page == d.page && e.device == d.device
  }

  ghost function DayViews(s: seq<Event>, zone: int, d: DayKey): set<nat> {
    set i: nat | i < |s| && InDayGroup(s[i], zone, d) && s[i].eventType == "page_view"
  }

  ghost function DayVisitors(s: seq<Event>, zone: int, d: DayKey): set<string> {
    set i: nat | i < |s| && InDayGroup(s[i], zone, d) :: s[i].userId
  }

  lemma DayOfEvent(e: Event, zone: int, d: DayKey)
    requires zone % WINDOW_SECONDS == 0
    ensures DayOf(zone)(KeyOf(PageViews, e)) == d <==> InDayGroup(e, zone, d)
  {
    SameDay(e.ts, zone);
    DayIs(e.ts, zone, d.day);
  }

  lemma ColumnsOfGroups(m: Groups, zone: int, d: DayKey)
    ensures Part(ViewsColumn(EmitAll(m)), DayOf(zone), d) == ViewsOf(m, DayOf(zone), d)
    ensures Part(UsersColumn(EmitAll(m)), DayOf(zone), d) == Sizes(UsersOf(m, DayOf(zone), d))
  {
    assert forall k :: k in m ==> EmitAll(m)[k].views == m[k].views && EmitAll(m)[k].users == |m[k].users|;
  }

  lemma DailyColumns(m: Groups, zone: int, d: DayKey)
    requires d in Daily(EmitAll(m), zone)
    ensures Daily(EmitAll(m), zone)[d] ==
            DayRow(Total(ViewsOf(m, DayOf(zone), d)), Total(Sizes(UsersOf(m, DayOf(zone), d))))
  {
    ColumnsShareDays(EmitAll(m), zone);
    ColumnsOfGroups(m, zone, d);
  }

  lemma DaySets(s: seq<Event>, zone: int, d: DayKey)
    requires zone % WINDOW_SECONDS == 0
    ensures ViewPositions(PageViews, s, DayOf(zone), d) == DayViews(s, zone, d)
    ensures TrueUsers(PageViews, s, DayOf(zone), d) == DayVisitors(s, zone, d)
  {
    forall i: nat | i < |s| ensures DayOf(zone)(KeyOf(PageViews, s[i])) == d <==> InDayGroup(s[i], zone, d) {
      DayOfEvent(s[i], zone, d);
    }
  }

  // The page views of a date, by position: the event's local date, page and device, and its type.
  ghost function DateViews(s: seq<Event>, zone: int, date: DateTime, page: string, device: string): set<nat> {
    set i: nat | i < |s| && OnDate(s[i].ts, zone, date) && s[i].page == page && s[i].device == device &&
                 s[i].eventType == "page_view"
  }

  ghost function DateVisitors(s: seq<Event>, zone: int, date: DateTime, page: string, device: string): set<string> {
    set i: nat | i < |s| && OnDate(s[i].ts, zone, date) && s[i].page == page && s[i].device == device :: s[i].userId
  }

  lemma DayIsDate(s: seq<Event>, zone: int, date: DateTime, page: string, device: string)
    requires Valid(date)
    ensures var d := DayKey(DayNumber(date), page, device);
            && DayViews(s, zone, d) == DateViews(s, zone, date, page, device)
            && DayVisitors(s, zone, d) == DateVisitors(s, zone, date, page, device)
  {
    forall i: nat | i < |s| ensures FallsOn(s[i].ts, zone, DayNumber(date)) <==> OnDate(s[i].ts, zone, date) {
      FallsOnItsDate(s[i].ts, zone, date);
    }
  }

  /** By date: a row exists for exactly the dates, pages and devices with an event, and counts their page views. */
  lemma DateMeaning(s: seq<Event>, zone: int, date: DateTime, page: string, device: string)
    requires zone % 60 == 0 && Valid(date)
    ensures var daily, d := Daily(EmitAll(GroupBy(PageViews, s)), zone), DayKey(DayNumber(date), page, device);
            && (d in daily <==> DateVisitors(s, zone, date, page, device) != {})
            && (d in daily ==> daily[d].views == |DateViews(s, zone, date, page, device)| &&
                               |DateVisitors(s, zone, date, page, device)| <= daily[d].users)
  {
    var d := DayKey(DayNumber(date), page, device);
    DayIsDate(s, zone, date, page, device);
    if d in Daily(EmitAll(GroupBy(PageViews, s)), zone) {
      DailyMeaning(s, zone, d);
      DayHasVisitor(s, zone, d);
    } else {
      NoRowNoVisitors(s, zone, d);
    }
  }

  // A row of the rollup comes from a group, and a group from an event.
  lemma DayHasVisitor(s: seq<Event>, zone: int, d: DayKey)
    requires zone % 60 == 0 && d in Daily(EmitAll(GroupBy(PageViews, s)), zone)
    ensures DayVisitors(s, zone, d) != {}
  {
    var table := EmitAll(GroupBy(PageViews, s));
    ColumnsShareDays(table, zone);
    var k :| k in ViewsColumn(table) && DayOf(zone)(k) == d;
    GroupByMeaning(PageViews, s, k);
    var i :| i in Positions(PageViews, s, k);
    PositionHasKey(PageViews, s, k, i);
    DayOfEvent(s[i], zone, d);
    assert s[i].userId in DayVisitors(s, zone, d);
  }

  /** A day's row: exact views, and users that over-count exactly when someone came back in another window. */
  lemma DailyMeaning(s: seq<Event>, zone: int, d: DayKey)
    requires zone % WINDOW_SECONDS == 0 && d in Daily(EmitAll(GroupBy(PageViews, s)), zone)
    ensures var row := Daily(EmitAll(GroupBy(PageViews, s)), zone)[d];
            && row.views == |DayViews(s, zone, d)|
            && |DayVisitors(s, zone, d)| <= row.users
            && (|DayVisitors(s, zone, d)| == row.users <==> NoRepeatVisitors(PageViews, s, DayOf(zone), d))
  {
    DailyColumns(GroupBy(PageViews, s), zone, d);
    ViewsAreEvents(PageViews, s, DayOf(zone), d);
    SummedUsersOverCount(PageViews, s, DayOf(zone), d);
    DaySets(s, zone, d);
  }

  lemma DayIsPresent(s: seq<Event>, zone: int, i: nat, d: DayKey)
    requires zone % WINDOW_SECONDS == 0 && i < |s| && InDayGroup(s[i], zone, d)
    ensures d in Daily(EmitAll(GroupBy(PageViews, s)), zone)
  {
    var k := KeyOf(PageViews, s[i]);
    UserMember(PageViews, s, i);
    GroupByMeaning(PageViews, s, k);
    DayOfEvent(s[i], zone, d);
    var table := EmitAll(GroupBy(PageViews, s));
    assert k in ViewsColumn(table) && DayOf(zone)(k) in Grouped(ViewsColumn(table), DayOf(zone));
    ColumnsShareDays(table, zone);
  }

  // What query_summary reports as total_views.
  ghost function SummaryViews(table: map<Key, Row>): nat { Total(ViewsColumn(table)) }

  /** The day rows add up to the summary endpoint's total, in any time zone. */
  lemma DailyTotal(table: map<Key, Row>, zone: int)
    ensures Total(map d | d in Daily(table, zone) :: Daily(table, zone)[d].views) == SummaryViews(table)
  {
    ColumnsShareDays(table, zone);
    GroupedTotal(ViewsColumn(table), DayOf(zone));
    assert (map d | d in Daily(table, zone) :: Daily(table, zone)[d].views) == Grouped(ViewsColumn(table), DayOf(zone));
  }

  // ---- Rollups among the steps of the streaming query ----

  datatype Step = Streaming(action: Action) | Rollup

  datatype Nightly = Nightly(stream: State, daily: map<DayKey, DayRow>)

  ghost function RunNightly(topic: Topic, zone: int, steps: seq<Step>): Nightly {
    if steps == [] then Nightly(Start(topic), map[])
    else
      var n := RunNightly(topic, zone, steps[..|steps| - 1]);
      match steps[|steps| - 1]
      case Streaming(a) => n.(stream := Do(PageViews, n.stream, a))
      case Rollup => n.(daily := n.daily + Daily(n.stream.table, zone))
  }

  function Actions(steps: seq<Step>): seq<Action> {
    if steps == [] then []
    else Actions(steps[..|steps| - 1]) +
         match steps[|steps| - 1] case Streaming(a) => [a] case Rollup => []
  }

  lemma {:induction false} NightlyStream(topic: Topic, zone: int, steps: seq<Step>)
    ensures RunNightly(topic, zone, steps).stream == Exec(PageViews, topic, Actions(steps))
  {
    if steps != [] {
      NightlyStream(topic, zone, steps[..|steps| - 1]);
      match steps[|steps| - 1]
      case Streaming(a) => ExecStep(PageViews, topic, Actions(steps[..|steps| - 1]), a);
      case Rollup => assert Actions(steps) == Actions(steps[..|steps| - 1]);
    }
  }

  lemma DaysGrow(small: map<Key, Row>, large: map<Key, Row>, zone: int)
    requires small.Keys <= large.Keys
    ensures Daily(small, zone).Keys <= Daily(large, zone).Keys
  {
    ColumnsShareDays(small, zone);
    ColumnsShareDays(large, zone);
    forall d | d in Grouped(ViewsColumn(small), DayOf(zone)) ensures d in Grouped(ViewsColumn(large), DayOf(zone)) {
      var k :| k in ViewsColumn(small) && DayOf(zone)(k) == d;
      assert k in ViewsColumn(large);
    }
  }

  /** daily_summary never holds a day the curated table no longer has. */
  lemma {:induction false} NoStaleDays(topic: Topic, zone: int, steps: seq<Step>)
    ensures var n := RunNightly(topic, zone, steps); n.daily.Keys <= Daily(n.stream.table, zone).Keys
  {
    if steps != [] {
      var front := steps[..|steps| - 1];
      var n := RunNightly(topic, zone, front);
      NoStaleDays(topic, zone, front);
      NightlyStream(topic, zone, front);
      match steps[|steps| - 1]
      case Streaming(a) =>
        forall k | k in n.stream.table ensures k in Do(PageViews, n.stream, a).table {
          NeverLowers(PageViews, topic, Actions(front), a, k);
        }
        DaysGrow(n.stream.table, Do(PageViews, n.stream, a).table, zone);
      case Rollup =>
    }
  }

  lemma RollupStep(topic: Topic, zone: int, steps: seq<Step>)
    ensures var n := RunNightly(topic, zone, steps);
            RunNightly(topic, zone, steps + [Rollup]) == Nightly(n.stream, n.daily + Daily(n.stream.table, zone))
  {
    assert (steps + [Rollup])[..|steps + [Rollup]| - 1] == steps;
  }

  lemma CoveredUnion<K, V>(small: map<K, V>, large: map<K, V>)
    requires small.Keys <= large.Keys
    ensures small + large == large
  {
  }

  /** Every rollup, re-run or not, leaves exactly the GROUP BY of the curated table it read. */
  lemma RollupIsExact(topic: Topic, zone: int, steps: seq<Step>)
    ensures var n := RunNightly(topic, zone, steps + [Rollup]);
            && n.daily == Daily(n.stream.table, zone)
            && RunNightly(topic, zone, steps + [Rollup] + [Rollup]) == n
  {
    NoStaleDays(topic, zone, steps);
    RollupStep(topic, zone, steps);
    var n := RunNightly(topic, zone, steps);
    CoveredUnion(n.daily, Daily(n.stream.table, zone));
    RollupStep(topic, zone, steps + [Rollup]);
    CoveredUnion(Daily(n.stream.table, zone), Daily(n.stream.table, zone));
  }

  // daily holds exactly the days of s, each with its page views, and no fewer users than the day had.
  ghost predicate DayCounts(daily: map<DayKey, DayRow>, zone: int, s: seq<Event>) {
    forall d ::
      if d in daily then daily[d].views == |DayViews(s, zone, d)| && |DayVisitors(s, zone, d)| <= daily[d].users
      else DayVisitors(s, zone, d) == {}
  }

  lemma NoRowNoVisitors(s: seq<Event>, zone: int, d: DayKey)
    requires zone % WINDOW_SECONDS == 0 && d !in Daily(EmitAll(GroupBy(PageViews, s)), zone)
    ensures DayVisitors(s, zone, d) == {}
  {
    if u :| u in DayVisitors(s, zone, d) {
      var i: nat :| i < |s| && InDayGroup(s[i], zone, d);
      DayIsPresent(s, zone, i, d);
    }
  }

  lemma DailyCounts(s: seq<Event>, zone: int)
    requires zone % WINDOW_SECONDS == 0
    ensures DayCounts(Daily(EmitAll(GroupBy(PageViews, s)), zone), zone, s)
  {
    var daily := Daily(EmitAll(GroupBy(PageViews, s)), zone);
    forall d
      ensures if d in daily then daily[d].views == |DayViews(s, zone, d)| && |DayVisitors(s, zone, d)| <= daily[d].users
              else DayVisitors(s, zone, d) == {}
    {
      if d in daily {
        DailyMeaning(s, zone, d);
      } else {
        NoRowNoVisitors(s, zone, d);
      }
    }
  }

  // The rollup counts the events that the batches of `plans` accepted.
  ghost predicate RollupOf(n: Nightly, zone: int, plans: seq<Plan>) {
    Scheduled(n.stream.topic, plans) && DayCounts(n.daily, zone, Accepted(n.stream.topic, plans))
  }

  lemma RollupOfTable(s: State, daily: map<DayKey, DayRow>, zone: int, plans: seq<Plan>)
    requires zone % WINDOW_SECONDS == 0 && TableOf(PageViews, s, plans) && daily == Daily(s.table, zone)
    ensures RollupOf(Nightly(s, daily), zone, plans)
  {
    DailyCounts(Accepted(s.topic, plans), zone);
  }

  /**
   A rollup at any moment of a run with transactional writes, and a rollup between batches of any
   run, counts the accepted events of a whole number of batches, the same for all days.
   */
  lemma RollupCountsAcceptedEvents(topic: Topic, zone: int, steps: seq<Step>)
    requires zone % WINDOW_SECONDS == 0
    requires Idle(RunNightly(topic, zone, steps).stream) || Transactional(PageViews, topic, Actions(steps))
    ensures var n := RunNightly(topic, zone, steps + [Rollup]);
            && n.stream == RunNightly(topic, zone, steps).stream && n.stream.commits <= |n.stream.plans|
            && (RollupOf(n, zone, n.stream.plans[..n.stream.commits]) || RollupOf(n, zone, n.stream.plans))
  {
    NightlyStream(topic, zone, steps);
    if Transactional(PageViews, topic, Actions(steps)) {
      ReadersSeeWholeBatches(PageViews, topic, Actions(steps));
    } else {
      IdleIsWhole(PageViews, topic, Actions(steps));
    }
    RollupIsExact(topic, zone, steps);
    RollupStep(topic, zone, steps);
    var n := RunNightly(topic, zone, steps + [Rollup]);
    if TableOf(PageViews, n.stream, n.stream.plans) {
      RollupOfTable(n.stream, n.daily, zone, n.stream.plans);
    } else {
      RollupOfTable(n.stream, n.daily, zone, n.stream.plans[..n.stream.commits]);
    }
  }
}
