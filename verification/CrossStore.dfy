/** The dead-letter topic, and what the stores hold together. */
module CrossStore {
  import opened Aggregates
  import opened AppendQueries
  import opened ClicksTable
  import opened Clicks
  import opened Conservation
  import opened DailyRollup
  import opened Delivery
  import opened Lateness
  import opened Log
  import opened MergeTree
  import opened Parsing
  import opened Schema
  import opened Stream
  import opened Sums
  import opened Wrappers

  // ---- The dead-letter topic ----

  predicate Fails(raw: Raw) { ParseMessage(raw).error.Some? }

  function FailsEach(): Raw -> bool { (raw: Raw) => Fails(raw) }

  // parse_failures: the raw messages whose parse result carries an error.
  function Failures(raws: seq<Raw>): seq<Raw> { Filter(FailsEach(), raws) }

  lemma FailuresCount(raws: seq<Raw>, raw: Raw)
    ensures multiset(Failures(raws))[raw] == if Fails(raw) then multiset(raws)[raw] else 0
  {
    FilterCount(FailsEach(), raws, raw);
    assert FailsEach()(raw) == Fails(raw);
  }

  lemma {:induction false} OneOrTheOther<T(!new), U>(f: T -> seq<U>, p: T -> bool, s: seq<T>)
    requires forall x :: |f(x)| == if p(x) then 0 else 1
    ensures |FlatMap(f, s)| + |Filter(p, s)| == |s|
  {
    if s != [] {
      OneOrTheOther(f, p, s[..|s| - 1]);
    }
  }

  /** Every message is either an event or a dead letter, never both and never neither. */
  lemma EventsAndFailuresSplit(raws: seq<Raw>)
    ensures |EventsOf(raws)| + |Failures(raws)| == |raws|
  {
    forall raw ensures |RowOfEach()(raw)| == if FailsEach()(raw) then 0 else 1 {
      OneVerdict(raw);
    }
    OneOrTheOther(RowOfEach(), FailsEach(), raws);
  }

  /**
   Failing messages reach the dead-letter topic at least once each, nothing else does, exactly
   once without crashes.
   */
  lemma DeadLetters(topic: Topic, moves: seq<Move>, raw: Raw)
    ensures var f := Follow(topic, moves);
            && Covered(f)
            && var letters, consumed := multiset(Failures(f.delivered))[raw],
               multiset(Through(f.topic, f.ends[..f.commits]))[raw];
               && (Fails(raw) ==> letters >= consumed)
               && (letters > 0 ==> Fails(raw) && raw in Through(f.topic, f.ends))
               && (CrashFree(moves) && Resting(f) ==> letters == if Fails(raw) then consumed else 0)
  {
    var f := Follow(topic, moves);
    FollowCovers(topic, moves);
    FailuresCount(f.delivered, raw);
    if f.written {
      CurrentIsRest(f);
    }
    if multiset(f.delivered)[raw] > 0 {
      assert raw in f.delivered;
    }
  }

  // ---- Page views in both stores ----

  ghost function PageViewIds(view: map<string, Event>): set<string> {
    set id | id in view && view[id].eventType == "page_view"
  }

  ghost function Everything(): Key -> bool { (k: Key) => true }

  ghost function PageViewCount(s: seq<Event>): nat { |ViewPositions(PageViews, s, Everything(), true)| }

  lemma ByIdShrinks(view: map<string, Event>, s: seq<Event>, e: Event)
    requires DistinctIds(s + [e]) && ById(view, s + [e])
    ensures ById(view - {e.eventId}, s)
  {
    var t, rest := s + [e], view - {e.eventId};
    assert t[|s|] == e;
    forall x | x in s ensures x.eventId in rest && rest[x.eventId] == x {
      var i :| 0 <= i < |s| && s[i] == x;
      assert t[i] == x;
    }
    forall id | id in rest ensures rest[id] in s && rest[id].eventId == id {
      assert view[id] in t;
    }
  }

  lemma PageViewIdsGrow(view: map<string, Event>, e: Event)
    requires e.eventId in view && view[e.eventId] == e
    ensures |PageViewIds(view)| == |PageViewIds(view - {e.eventId})| + One(e, "page_view")
  {
    var rest := PageViewIds(view - {e.eventId});
    assert PageViewIds(view) == rest + if e.eventType == "page_view" then {e.eventId} else {};
  }

  lemma {:induction false} CountByIds(view: map<string, Event>, s: seq<Event>)
    requires DistinctIds(s) && ById(view, s)
    ensures |PageViewIds(view)| == PageViewCount(s)
  {
    if s == [] {
      assert PageViewIds(view) == {};
      assert ViewPositions(PageViews, s, Everything(), true) == {};
    } else {
      var front, e := s[..|s| - 1], s[|s| - 1];
      assert s == front + [e];
      ByIdShrinks(view, front, e);
      CountByIds(view - {e.eventId}, front);
      ViewPositionsGrow(PageViews, front, e, Everything(), true);
      PageViewIdsGrow(view, e);
    }
  }

  lemma {:induction false} CountConcat(s: seq<Event>, t: seq<Event>)
    ensures PageViewCount(s + t) == PageViewCount(s) + PageViewCount(t)
  {
    if t == [] {
      assert s + t == s;
      assert ViewPositions(PageViews, t, Everything(), true) == {};
    } else {
      var front, e := t[..|t| - 1], t[|t| - 1];
      CountConcat(s, front);
      assert s + t == (s + front) + [e];
      assert t == front + [e];
      ViewPositionsGrow(PageViews, s + front, e, Everything(), true);
      ViewPositionsGrow(PageViews, front, e, Everything(), true);
    }
  }

  lemma CountPermutation(s: seq<Event>, t: seq<Event>)
    requires multiset(s) == multiset(t)
    ensures PageViewCount(s) == PageViewCount(t)
  {
    AbsorbPermutation(PageViews, map[], s, t);
    ViewsAreEvents(PageViews, s, Everything(), true);
    ViewsAreEvents(PageViews, t, Everything(), true);
  }

  lemma SummaryCounts(s: seq<Event>)
    ensures SummaryViews(EmitAll(GroupBy(PageViews, s))) == PageViewCount(s)
  {
    ViewsAreEvents(PageViews, s, Everything(), true);
    assert ViewsColumn(EmitAll(GroupBy(PageViews, s))) == ViewsOf(GroupBy(PageViews, s), Everything(), true);
  }

  /**
   Page views are conserved: page_view rows in olap.clicks FINAL are the curated views plus the
   ones dropped as late.
   */
  lemma PageViewsConserved(topic: Topic, actions: seq<Action>, xs: seq<ServerStep>, view: map<string, Event>)
    requires var s, c := Exec(PageViews, topic, actions), ServerRun(topic, xs);
             && Idle(s) && Resting(c.feed) && s.topic == c.feed.topic
             && EndOf(s.topic, s.plans) == LastEnd(c.feed.topic, c.feed.ends)
             && DistinctIds(EventsUpTo(c.feed.topic, c.feed.ends))
             && IsFinal(view, c.parts)
    ensures var s := Exec(PageViews, topic, actions);
            && Scheduled(s.topic, s.plans)
            && |PageViewIds(view)| == SummaryViews(s.table) + PageViewCount(Dropped(s.topic, s.plans))
  {
    var s, f := Exec(PageViews, topic, actions), ServerRun(topic, xs).feed;
    TableIsAccepted(PageViews, topic, actions);
    ConsumedIsAcceptedOrDropped(s.topic, s.plans);
    var all, accepted, dropped := EventsUpTo(f.topic, f.ends), Accepted(s.topic, s.plans), Dropped(s.topic, s.plans);
    ClicksAreConsumedEvents(topic, xs, view);
    CountByIds(view, all);
    CountPermutation(all, accepted + dropped);
    CountConcat(accepted, dropped);
    SummaryCounts(accepted);
  }

  // ---- Campaign rows of a run ----

  lemma RowIsKnown(topic: Topic, lo: Offsets, hi: Offsets, e: Event)
    requires Range(topic, lo, hi) && e in Rows(topic, lo, hi)
    ensures KnownType(e)
  {
    var p, i := RowSource(topic, lo, hi, e);
    ParsedTypeIsKnown(topic[p][i]);
    assert e.eventType in EVENT_TYPES;
  }

  lemma {:induction false} AcceptedAreKnown(topic: Topic, plans: seq<Plan>)
    requires Scheduled(topic, plans)
    ensures forall e :: e in Accepted(topic, plans) ==> KnownType(e)
  {
    if plans != [] {
      var front := plans[..|plans| - 1];
      AcceptedAreKnown(topic, front);
      forall e | e in Batch(topic, plans) ensures KnownType(e) {
        RowIsKnown(topic, EndOf(topic, front), plans[|plans| - 1].end, e);
      }
    }
  }

  /**
   Between batches of any run, a campaign row's events are its views, clicks, conversions and the
   uncounted add_to_cart.
   */
  lemma CampaignTableAddsUp(topic: Topic, actions: seq<Action>, k: Key)
    requires var s := Exec(CampaignStats, topic, actions); Idle(s) && k in s.table
    ensures var s := Exec(CampaignStats, topic, actions);
            && Scheduled(s.topic, s.plans) && s.table[k].CampaignRow?
            && s.table[k].events == s.table[k].views + s.table[k].clicks + s.table[k].conversions +
                                    OfType(Accepted(s.topic, s.plans), k, "add_to_cart")
  {
    var s := Exec(CampaignStats, topic, actions);
    TableIsAccepted(CampaignStats, topic, actions);
    AcceptedAreKnown(s.topic, s.plans);
    CampaignRowAddsUp(Accepted(s.topic, s.plans), k);
  }

  // ---- The two curated tables ----

  // The views of one window's rows.
  ghost function WindowViews(table: map<Key, Row>, start: int): map<Key, nat> {
    map k | k in table && k.start == start :: table[k].views
  }

  lemma WindowViewsOfGroups(m: Groups, start: int)
    ensures WindowViews(EmitAll(m), start) == ViewsOf(m, WindowOf(), start)
  {
    assert forall k :: k in m ==> WindowOf()(k) == k.start && EmitAll(m)[k].views == m[k].views;
  }

  /**
   While both Postgres queries are in step with the data, their tables agree on each window's views
   once they consumed the same prefix.
   */
  lemma CuratedTablesAgree(topic: Topic, pages: seq<Action>, campaigns: seq<Action>, start: int)
    requires var s, t := Exec(PageViews, topic, pages), Exec(CampaignStats, topic, campaigns);
             && s.topic == t.topic && Idle(s) && Idle(t) && InStep(s.topic, s.plans) && InStep(t.topic, t.plans)
             && EndOf(s.topic, s.plans) == EndOf(t.topic, t.plans)
    ensures Total(WindowViews(Exec(PageViews, topic, pages).table, start)) ==
            Total(WindowViews(Exec(CampaignStats, topic, campaigns).table, start))
  {
    var s := Exec(PageViews, topic, pages);
    BatchingIsInvisible(PageViews, topic, pages);
    BatchingIsInvisible(CampaignStats, topic, campaigns);
    var rows := Rows(s.topic, Zeros(|s.topic|), EndOf(s.topic, s.plans));
    AggregatesAgree(rows, rows, start);
    WindowViewsOfGroups(GroupBy(PageViews, rows), start);
    WindowViewsOfGroups(GroupBy(CampaignStats, rows), start);
  }
}
