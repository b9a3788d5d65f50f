/**
 When late data can make two schedules disagree on page views: the exact condition, for the views
 column of page_views_1m and every pair of runs that consumed the same prefix.
 */
module LateViews {
  import opened Aggregates
  import opened Clicks
  import opened Delivery
  import opened Lateness
  import opened Log
  import opened Punctuality
  import opened Stream
  import opened Wrappers

  ghost function ViewCount(s: seq<Event>, k: Key): nat { |PositionsOf(PageViews, s, k, "page_view")| }

  function ViewsAt(table: map<Key, Row>, k: Key): nat { if k in table then table[k].views else 0 }

  // ---- Counting ----

  lemma ViewsOfTable(s: seq<Event>, k: Key)
    ensures ViewsAt(EmitAll(GroupBy(PageViews, s)), k) == ViewCount(s, k)
  {
    GroupByMeaning(PageViews, s, k);
    if k !in GroupBy(PageViews, s) {
      NoneOfType(PageViews, s, k, "page_view");
    }
  }

  lemma {:induction false} ViewCountConcat(s: seq<Event>, t: seq<Event>, k: Key)
    ensures ViewCount(s + t, k) == ViewCount(s, k) + ViewCount(t, k)
  {
    if t == [] {
      assert s + t == s;
      NoneCounted(t, k);
    } else {
      var front, e := t[..|t| - 1], t[|t| - 1];
      ViewCountConcat(s, front, k);
      assert s + t == (s + front) + [e];
      assert t == front + [e];
      PositionsOfGrow(PageViews, s + front, e, k, "page_view");
      PositionsOfGrow(PageViews, front, e, k, "page_view");
    }
  }

  lemma ViewCountPermutation(s: seq<Event>, t: seq<Event>, k: Key)
    requires multiset(s) == multiset(t)
    ensures ViewCount(s, k) == ViewCount(t, k)
  {
    AbsorbPermutation(PageViews, map[], s, t);
    ViewsOfTable(s, k);
    ViewsOfTable(t, k);
  }

  predicate IsViewOf(e: Event, k: Key) { KeyOf(PageViews, e) == k && e.eventType == "page_view" }

  lemma NoneCounted(s: seq<Event>, k: Key)
    requires forall e :: e in s ==> !IsViewOf(e, k)
    ensures ViewCount(s, k) == 0
  {
    forall i | i in PositionsOf(PageViews, s, k, "page_view") ensures false {
      KeyIsGroup(PageViews, s[i], k);
      assert IsViewOf(s[i], k);
    }
    assert PositionsOf(PageViews, s, k, "page_view") == {};
  }

  lemma SomeCounted(s: seq<Event>, k: Key, e: Event)
    requires e in s && IsViewOf(e, k)
    ensures ViewCount(s, k) > 0
  {
    var i :| 0 <= i < |s| && s[i] == e;
    KeyIsGroup(PageViews, e, k);
    assert i in PositionsOf(PageViews, s, k, "page_view");
  }

  lemma ConsumedViews(topic: Topic, plans: seq<Plan>, k: Key)
    requires Scheduled(topic, plans)
    ensures Range(topic, Zeros(|topic|), EndOf(topic, plans))
    ensures ViewCount(Rows(topic, Zeros(|topic|), EndOf(topic, plans)), k) ==
            ViewCount(Accepted(topic, plans), k) + ViewCount(Dropped(topic, plans), k)
  {
    ConsumedIsAcceptedOrDropped(topic, plans);
    var accepted, dropped := Accepted(topic, plans), Dropped(topic, plans);
    ViewCountPermutation(Rows(topic, Zeros(|topic|), EndOf(topic, plans)), accepted + dropped, k);
    ViewCountConcat(accepted, dropped, k);
  }

  // ---- No page view can be overtaken ----

  // Message (r, j) may be read first, and its watermark is past the window of the page view at (p, i).
  ghost predicate Overtaken(topic: Topic, p: nat, i: nat, e: Event, r: nat, j: nat, f: Event) {
    && EventAt(topic, p, i, e) && EventAt(topic, r, j, f) && MayPrecede(r, j, p, i)
    && e.eventType == "page_view"
    && INITIAL_WATERMARK < WindowEnd(e.ts) <= f.ts - WATERMARK_SECONDS
  }

  ghost predicate ViewsPunctual(topic: Topic) {
    forall p: nat, i: nat, e: Event, r: nat, j: nat, f: Event :: !Overtaken(topic, p, i, e, r, j, f)
  }

  // A page view after 1970 is never past the watermark of what was read before it.
  lemma ViewIsOnTime(topic: Topic, start: Offsets, end: Offsets, e: Event)
    requires ViewsPunctual(topic) && Range(topic, Zeros(|topic|), start) && Range(topic, start, end)
    requires e in Rows(topic, start, end) && e.eventType == "page_view" && WindowEnd(e.ts) > INITIAL_WATERMARK
    ensures WindowEnd(e.ts) > Watermark(Rows(topic, Zeros(|topic|), start))
  {
    var earlier := Rows(topic, Zeros(|topic|), start);
    var p, i := RowSource(topic, start, end, e);
    WatermarkSource(earlier);
    if Watermark(earlier) != INITIAL_WATERMARK {
      var f :| f in earlier && f.ts - WATERMARK_SECONDS == Watermark(earlier);
      var r, j := RowSource(topic, Zeros(|topic|), start, f);
      assert !Overtaken(topic, p, i, e, r, j, f);
    }
  }

  predicate IsOldView(e: Event) { e.eventType == "page_view" ==> WindowEnd(e.ts) <= INITIAL_WATERMARK }

  lemma {:induction false} DroppedViewsAreOld(topic: Topic, plans: seq<Plan>)
    requires ViewsPunctual(topic) && Scheduled(topic, plans)
    ensures forall e :: e in Dropped(topic, plans) ==> IsOldView(e)
  {
    if plans != [] {
      var front, plan := plans[..|plans| - 1], plans[|plans| - 1];
      DroppedViewsAreOld(topic, front);
      forall e | e in TooLate(Batch(topic, plans), plan.late) ensures IsOldView(e) {
        if e.eventType == "page_view" && WindowEnd(e.ts) > INITIAL_WATERMARK {
          ViewIsOnTime(topic, EndOf(topic, front), plan.end, e);
        }
      }
    }
  }

  lemma {:induction false} AcceptedAreNew(topic: Topic, plans: seq<Plan>)
    requires Scheduled(topic, plans)
    ensures EvictOf(plans) >= INITIAL_WATERMARK
    ensures forall e :: e in Accepted(topic, plans) ==> WindowEnd(e.ts) > INITIAL_WATERMARK
  {
    if plans != [] {
      AcceptedAreNew(topic, plans[..|plans| - 1]);
    }
  }

  // Which views a schedule accepts depends on nothing but where it stopped.
  lemma ViewsByKey(topic: Topic, plans: seq<Plan>, k: Key)
    requires ViewsPunctual(topic) && Scheduled(topic, plans)
    ensures Range(topic, Zeros(|topic|), EndOf(topic, plans))
    ensures ViewCount(Accepted(topic, plans), k) ==
            if KeyEnd(k) > INITIAL_WATERMARK then ViewCount(Rows(topic, Zeros(|topic|), EndOf(topic, plans)), k) else 0
  {
    ConsumedViews(topic, plans, k);
    if KeyEnd(k) > INITIAL_WATERMARK {
      DroppedViewsAreOld(topic, plans);
      forall e | e in Dropped(topic, plans) ensures !IsViewOf(e, k) {
        assert IsOldView(e);
      }
      NoneCounted(Dropped(topic, plans), k);
    } else {
      AcceptedAreNew(topic, plans);
      forall e | e in Accepted(topic, plans) ensures !IsViewOf(e, k) {
        assert WindowEnd(e.ts) > INITIAL_WATERMARK;
      }
      NoneCounted(Accepted(topic, plans), k);
    }
  }

  ghost predicate SameViews(s: State, t: State) { forall k :: ViewsAt(s.table, k) == ViewsAt(t.table, k) }

  // A run of the page-view query: the topic it started on and what happened.
  datatype Run = Run(from: Topic, actions: seq<Action>)

  ghost function After(run: Run): State { Exec(PageViews, run.from, run.actions) }

  lemma TableViews(topic: Topic, run: Run, k: Key)
    requires RunsTo(PageViews, run.from, topic, run.actions)
    ensures ViewsAt(After(run).table, k) == ViewCount(Accepted(topic, After(run).plans), k)
  {
    TableIsAccepted(PageViews, run.from, run.actions);
    ViewsOfTable(Accepted(topic, After(run).plans), k);
  }

  // Two runs, whatever arrived during them, that ended with this topic and consumed the same prefix of it.
  ghost predicate ConsumeAlike(topic: Topic, a: Run, b: Run) {
    && RunsTo(PageViews, a.from, topic, a.actions) && RunsTo(PageViews, b.from, topic, b.actions)
    && EndOf(topic, After(a).plans) == EndOf(topic, After(b).plans)
  }

  lemma PunctualViewsAgree(topic: Topic, a: Run, b: Run)
    requires ViewsPunctual(topic) && ConsumeAlike(topic, a, b)
    ensures SameViews(After(a), After(b))
  {
    forall k ensures ViewsAt(After(a).table, k) == ViewsAt(After(b).table, k) {
      TableViews(topic, a, k);
      TableViews(topic, b, k);
      ViewsByKey(topic, After(a).plans, k);
      ViewsByKey(topic, After(b).plans, k);
    }
  }

  // ---- An overtaken page view ----

  // The whole prefix in one batch, before any watermark has moved.
  lemma OneBatch(topic: Topic, end: Offsets) returns (run: Run)
    requires Range(topic, Zeros(|topic|), end)
    ensures RunsTo(PageViews, run.from, topic, run.actions)
    ensures After(run).plans == [Plan(end, INITIAL_WATERMARK, INITIAL_WATERMARK)]
  {
    var plan := Plan(end, INITIAL_WATERMARK, INITIAL_WATERMARK);
    SliceEmpty(topic, Zeros(|topic|));
    assert Consumes(PageViews, topic, []);
    var actions := RunBatch(PageViews, topic, [], plan);
    assert [plan][..0] == [];
    run := Run(topic, actions);
  }

  lemma OneBatchDropsOld(topic: Topic, end: Offsets, k: Key)
    requires Scheduled(topic, [Plan(end, INITIAL_WATERMARK, INITIAL_WATERMARK)]) && KeyEnd(k) > INITIAL_WATERMARK
    ensures ViewCount(Dropped(topic, [Plan(end, INITIAL_WATERMARK, INITIAL_WATERMARK)]), k) == 0
  {
    var plans := [Plan(end, INITIAL_WATERMARK, INITIAL_WATERMARK)];
    assert plans[..|plans| - 1] == [];
    var late := TooLate(Batch(topic, plans), INITIAL_WATERMARK);
    assert Dropped(topic, plans) == Dropped(topic, []) + late;
    forall e | e in Dropped(topic, plans) ensures !IsViewOf(e, k) {
      assert e in late;
    }
    NoneCounted(Dropped(topic, plans), k);
  }

  lemma MissingView(topic: Topic, plans: seq<Plan>, others: seq<Plan>, e: Event, k: Key)
    requires Scheduled(topic, plans) && Scheduled(topic, others) && EndOf(topic, plans) == EndOf(topic, others)
    requires e in Dropped(topic, plans) && IsViewOf(e, k) && ViewCount(Dropped(topic, others), k) == 0
    ensures ViewCount(Accepted(topic, plans), k) < ViewCount(Accepted(topic, others), k)
  {
    ConsumedViews(topic, plans, k);
    ConsumedViews(topic, others, k);
    SomeCounted(Dropped(topic, plans), k, e);
  }

  // An overtaken event is dropped by some run, and the whole prefix is also read in one batch.
  lemma OvertakenRuns(topic: Topic, p: nat, i: nat, e: Event, r: nat, j: nat, f: Event)
    returns (a: Run, b: Run, end: Offsets)
    requires EventAt(topic, p, i, e) && EventAt(topic, r, j, f) && MayPrecede(r, j, p, i)
    requires WindowEnd(e.ts) <= f.ts - WATERMARK_SECONDS
    ensures ConsumeAlike(topic, a, b) && e in Dropped(topic, After(a).plans)
    ensures ReadAfter(topic, After(a).plans, r, j, f)
    ensures After(b).plans == [Plan(end, INITIAL_WATERMARK, INITIAL_WATERMARK)]
  {
    var actions := LosingRunOvertaken(PageViews, topic, p, i, e, r, j, f);
    a := Run(topic, actions);
    end := EndOf(topic, After(a).plans);
    ConsumedIsAcceptedOrDropped(topic, After(a).plans);
    b := OneBatch(topic, end);
  }

  lemma OvertakenViewsDiffer(topic: Topic, p: nat, i: nat, e: Event, r: nat, j: nat, f: Event)
    returns (a: Run, b: Run)
    requires Overtaken(topic, p, i, e, r, j, f)
    ensures ConsumeAlike(topic, a, b) && !SameViews(After(a), After(b))
  {
    var end: Offsets;
    a, b, end := OvertakenRuns(topic, p, i, e, r, j, f);
    var k := KeyOf(PageViews, e);
    OneBatchDropsOld(topic, end, k);
    MissingView(topic, After(a).plans, After(b).plans, e, k);
    TableViews(topic, a, k);
    TableViews(topic, b, k);
  }

  /**
   All runs agree on the views of page_views_1m, prefix by prefix and with any arrivals on the way,
   exactly when no page view can be overtaken.
   */
  lemma ViewsAgreeIffPunctual(topic: Topic)
    ensures ViewsPunctual(topic) <==> forall a, b :: ConsumeAlike(topic, a, b) ==> SameViews(After(a), After(b))
  {
    if ViewsPunctual(topic) {
      forall a, b | ConsumeAlike(topic, a, b) ensures SameViews(After(a), After(b)) {
        PunctualViewsAgree(topic, a, b);
      }
    } else {
      var p: nat, i: nat, e: Event, r: nat, j: nat, f: Event :| Overtaken(topic, p, i, e, r, j, f);
      var a, b := OvertakenViewsDiffer(topic, p, i, e, r, j, f);
    }
  }
}
