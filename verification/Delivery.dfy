/** What every run of a streaming query delivers to its table, with late data and without. */
module Delivery {
  import opened Aggregates
  import opened Clicks
  import opened Log
  import opened Parsing
  import opened Stream
  import opened Wrappers

  // ---- Arbitrarily late data ----

  /** Between batches the table is the GROUP BY of the accepted events, whatever crashed or replayed. */
  lemma TableIsAccepted(q: Query, topic: Topic, actions: seq<Action>)
    ensures var s := Exec(q, topic, actions);
            && Scheduled(s.topic, s.plans)
            && (Idle(s) ==> s.table == EmitAll(GroupBy(q, Accepted(s.topic, s.plans))))
  {
    RunKeepsInv(q, topic, actions);
    var s := Exec(q, topic, actions);
    assert Idle(s) ==> s.plans[..s.commits] == s.plans;
  }

  // The row of key k counts the events of s with that key: COUNT(*), COUNT by type, and COUNT(DISTINCT user).
  ghost predicate Counts(q: Query, s: seq<Event>, k: Key, row: Row) {
    match row
    case PageRow(views, users) =>
      q.PageViews? && views == |PositionsOf(q, s, k, "page_view")| && users == |UsersAt(q, s, k)|
    case CampaignRow(events, views, clicks, conversions, users) =>
      && q.CampaignStats? && events == |Positions(q, s, k)|
      && views == |PositionsOf(q, s, k, "page_view")|
      && clicks == |PositionsOf(q, s, k, "click")|
      && conversions == |PositionsOf(q, s, k, "purchase")|
      && users == |UsersAt(q, s, k)|
  }

  /** Between batches a row exists for exactly the groups with accepted events, and counts exactly those events. */
  lemma RowCountsAccepted(q: Query, topic: Topic, actions: seq<Action>, k: Key)
    requires Idle(Exec(q, topic, actions))
    ensures var s := Exec(q, topic, actions);
            && Scheduled(s.topic, s.plans)
            && var accepted := Accepted(s.topic, s.plans);
               && (k in s.table <==> Positions(q, accepted, k) != {})
               && (k in s.table ==> Counts(q, accepted, k, s.table[k]))
  {
    TableIsAccepted(q, topic, actions);
    var accepted := Accepted(Exec(q, topic, actions).topic, Exec(q, topic, actions).plans);
    GroupByMeaning(q, accepted, k);
    MeaningCounts(q, accepted, k);
  }

  lemma MeaningCounts(q: Query, s: seq<Event>, k: Key)
    ensures Counts(q, s, k, Emit(Meaning(q, s, k)))
  {
  }

  lemma LateSplitOne(on: seq<Event>, off: seq<Event>, rows: seq<Event>, e: Event, late: bool)
    requires multiset(on) + multiset(off) == multiset(rows)
    ensures multiset(on + if late then [] else [e]) + multiset(off + if late then [e] else []) == multiset(rows + [e])
  {
    assert on + [] == on && off + [] == off;
  }

  // The group ended after the eviction watermark and has an accepted event.
  ghost predicate LiveGroup(q: Query, s: seq<Event>, k: Key, evict: int) {
    k.start + 60 > evict && Positions(q, s, k) != {}
  }

  /** Between batches the state store holds exactly the groups not yet evicted, each with what its events amount to. */
  lemma StoreHoldsLiveGroups(q: Query, topic: Topic, actions: seq<Action>, k: Key)
    requires Idle(Exec(q, topic, actions))
    ensures var s := Exec(q, topic, actions);
            && Scheduled(s.topic, s.plans)
            && var accepted := Accepted(s.topic, s.plans);
               && (k in s.store <==> LiveGroup(q, accepted, k, EvictOf(s.plans)))
               && (k in s.store ==> Holds(s.store[k], q, accepted, k))
  {
    RunKeepsInv(q, topic, actions);
    var s := Exec(q, topic, actions);
    assert s.plans[..s.commits] == s.plans;
    GroupByMeaning(q, Accepted(s.topic, s.plans), k);
  }

  lemma {:induction false} LateSplit(rows: seq<Event>, late: int)
    ensures multiset(OnTime(rows, late)) + multiset(TooLate(rows, late)) == multiset(rows)
  {
    if rows != [] {
      var front, e := rows[..|rows| - 1], rows[|rows| - 1];
      LateSplit(front, late);
      LateSplitOne(OnTime(front, late), TooLate(front, late), front, e, WindowEnd(e.ts) <= late);
      assert rows == front + [e];
    }
  }

  lemma SplitStep(a: seq<Event>, d: seq<Event>, consumed: multiset<Event>, on: seq<Event>, off: seq<Event>,
                  rows: seq<Event>)
    requires multiset(a) + multiset(d) == consumed
    requires multiset(on) + multiset(off) == multiset(rows)
    ensures multiset(a + on) + multiset(d + off) == consumed + multiset(rows)
  {
  }

  /** Nothing is lost or counted twice: consumed events are exactly the accepted and the dropped ones. */
  lemma {:induction false} ConsumedIsAcceptedOrDropped(topic: Topic, plans: seq<Plan>)
    requires Scheduled(topic, plans)
    ensures Range(topic, Zeros(|topic|), EndOf(topic, plans))
    ensures multiset(Accepted(topic, plans)) + multiset(Dropped(topic, plans)) ==
            multiset(Rows(topic, Zeros(|topic|), EndOf(topic, plans)))
  {
    if plans == [] {
      SliceEmpty(topic, Zeros(|topic|));
    } else {
      var front, plan := plans[..|plans| - 1], plans[|plans| - 1];
      ConsumedIsAcceptedOrDropped(topic, front);
      var rows := Batch(topic, plans);
      LateSplit(rows, plan.late);
      RowsSplit(topic, Zeros(|topic|), EndOf(topic, front), plan.end);
      SplitStep(Accepted(topic, front), Dropped(topic, front),
                multiset(Rows(topic, Zeros(|topic|), EndOf(topic, front))),
                OnTime(rows, plan.late), TooLate(rows, plan.late), rows);
    }
  }

  // ---- Replacing a row never lowers it ----

  predicate RowLeq(a: Row, b: Row) {
    match (a, b)
    case (PageRow(v, u), PageRow(v', u')) => v <= v' && u <= u'
    case (CampaignRow(e, v, c, p, u), CampaignRow(e', v', c', p', u')) =>
      e <= e' && v <= v' && c <= c' && p <= p' && u <= u'
    case _ => false
  }

  lemma SubsetCard<T>(a: set<T>, b: set<T>)
    requires a <= b
    ensures |a| <= |b|
  {
    assert b == a + (b - a);
  }

  lemma UpdateRaises(b: Buffer, e: Event)
    ensures RowLeq(Emit(b), Emit(Update(b, e)))
  {
    SubsetCard(b.users, b.users + {e.userId});
  }

  lemma {:induction false} AbsorbRaises(q: Query, m: Groups, s: seq<Event>, k: Key)
    requires k in m
    ensures k in Absorb(q, m, s) && RowLeq(Emit(m[k]), Emit(Absorb(q, m, s)[k]))
  {
    if s != [] {
      AbsorbRaises(q, m, s[..|s| - 1], k);
      UpdateRaises(Absorb(q, m, s[..|s| - 1])[k], s[|s| - 1]);
    }
  }

  lemma OutputRaises(q: Query, s: State, rows: seq<Event>, k: Key)
    requires Inv(q, s) && InFlight(s) && multiset(rows) == multiset(Arriving(s))
    requires k in s.table && k in Output(q, s.store, rows)
    ensures RowLeq(s.table[k], Output(q, s.store, rows)[k])
  {
    var before, after := Settled(q, s), GroupBy(q, Accepted(s.topic, s.plans));
    WriteOutput(q, s, rows);
    BatchStep(q, s.topic, s.plans);
    assert k in EmitAll(before) + Output(q, s.store, rows);
    assert Output(q, s.store, rows)[k] == EmitAll(after)[k];
    if k in before && s.table[k] == Emit(before[k]) {
      AbsorbRaises(q, before, Arriving(s), k);
    }
  }

  lemma RowLeqSelf(r: Row)
    ensures RowLeq(r, r)
  {
  }

  lemma EnabledWriteRaises(q: Query, s: State, rows: seq<Event>, keys: set<Key>, k: Key)
    requires Inv(q, s) && InFlight(s) && multiset(rows) == multiset(Arriving(s)) && k in s.table
    ensures var t := s.table + Only(Output(q, s.store, rows), keys); k in t && RowLeq(s.table[k], t[k])
  {
    var out := Output(q, s.store, rows);
    if k in out {
      OutputRaises(q, s, rows, k);
    }
    RowLeqSelf(s.table[k]);
    OnlyRaises(s.table, out, keys, k);
  }

  lemma WriteRaises(q: Query, s: State, rows: seq<Event>, keys: set<Key>, k: Key)
    requires Inv(q, s) && k in s.table
    ensures var t := Do(q, s, Write(rows, keys)).table; k in t && RowLeq(s.table[k], t[k])
  {
    if InFlight(s) && multiset(rows) == multiset(Arriving(s)) {
      EnabledWriteRaises(q, s, rows, keys, k);
    } else {
      RowLeqSelf(s.table[k]);
    }
  }

  lemma OnlyRaises(table: map<Key, Row>, out: map<Key, Row>, keys: set<Key>, k: Key)
    requires k in table && RowLeq(table[k], table[k]) && (k in out ==> RowLeq(table[k], out[k]))
    ensures k in table + Only(out, keys) && RowLeq(table[k], (table + Only(out, keys))[k])
  {
  }

  lemma StepRaises(q: Query, s: State, a: Action, k: Key)
    requires Inv(q, s) && k in s.table
    ensures k in Do(q, s, a).table && RowLeq(s.table[k], Do(q, s, a).table[k])
  {
    RowLeqSelf(s.table[k]);
    if a.Write? {
      WriteRaises(q, s, a.rows, a.keys, k);
    } else {
      OtherStepsKeepTable(q, s, a);
    }
  }

  lemma OtherStepsKeepTable(q: Query, s: State, a: Action)
    requires !a.Write?
    ensures Do(q, s, a).table == s.table
  {
  }

  /** No step of any run removes a row or lowers a column, so a replayed write is safe at any moment. */
  lemma NeverLowers(q: Query, topic: Topic, actions: seq<Action>, a: Action, k: Key)
    requires k in Exec(q, topic, actions).table
    ensures var s := Exec(q, topic, actions);
            k in Do(q, s, a).table && RowLeq(s.table[k], Do(q, s, a).table[k])
  {
    RunKeepsInv(q, topic, actions);
    StepRaises(q, Exec(q, topic, actions), a, k);
  }

  // ---- Evicted windows never reopen ----

  ghost predicate Evicted(s: State, k: Key) {
    s.commits <= |s.plans| && KeyEnd(k) <= EvictOf(s.plans[..s.commits])
  }

  lemma EvictedUntouched(q: Query, s: State, rows: seq<Event>, k: Key)
    requires Inv(q, s) && Evicted(s, k)
    requires InFlight(s) && multiset(rows) == multiset(Arriving(s))
    ensures k !in Touched(q, rows)
  {
    var evict := EvictOf(s.plans[..s.commits]);
    BatchStep(q, s.topic, s.plans);
    forall e | e in rows ensures WindowEnd(e.ts) > evict {
      assert e in multiset(rows);
    }
    TouchedAreLive(q, rows, evict);
  }

  ghost predicate SameRow(s: State, t: State, k: Key) {
    (k in t.table <==> k in s.table) && (k in s.table ==> t.table[k] == s.table[k])
  }

  lemma WriteLeavesEvicted(q: Query, s: State, rows: seq<Event>, keys: set<Key>, k: Key)
    requires Inv(q, s) && Evicted(s, k)
    ensures Evicted(Do(q, s, Write(rows, keys)), k) && SameRow(s, Do(q, s, Write(rows, keys)), k)
  {
    if InFlight(s) && multiset(rows) == multiset(Arriving(s)) {
      EvictedUntouched(q, s, rows, k);
    }
  }

  lemma EvictionAdvances(s: State)
    requires InFlight(s)
    ensures EvictOf(s.plans[..s.commits]) <= s.plans[s.commits].evict == EvictOf(s.plans[..s.commits + 1])
  {
    assert s.plans[..s.commits + 1] == s.plans;
  }

  lemma CommitLeavesEvicted(q: Query, s: State, k: Key)
    requires Evicted(s, k)
    ensures Evicted(Do(q, s, Commit), k) && SameRow(s, Do(q, s, Commit), k)
  {
    if InFlight(s) {
      EvictionAdvances(s);
    }
  }

  lemma PlanLeavesEvicted(q: Query, s: State, plan: Plan, k: Key)
    requires Evicted(s, k)
    ensures Evicted(Do(q, s, PlanBatch(plan)), k) && SameRow(s, Do(q, s, PlanBatch(plan)), k)
  {
    assert (s.plans + [plan])[..s.commits] == s.plans[..s.commits];
  }

  lemma ProduceLeavesEvicted(q: Query, s: State, p: nat, raw: Raw, k: Key)
    requires Evicted(s, k)
    ensures Evicted(Do(q, s, Produce(p, raw)), k) && SameRow(s, Do(q, s, Produce(p, raw)), k)
  {
  }

  lemma EvictedStep(q: Query, s: State, a: Action, k: Key)
    requires Inv(q, s) && Evicted(s, k)
    ensures Evicted(Do(q, s, a), k) && SameRow(s, Do(q, s, a), k)
  {
    match a
    case Produce(p, raw) => ProduceLeavesEvicted(q, s, p, raw, k);
    case PlanBatch(plan) => PlanLeavesEvicted(q, s, plan, k);
    case Write(rows, keys) => WriteLeavesEvicted(q, s, rows, keys, k);
    case Crash =>
    case Commit => CommitLeavesEvicted(q, s, k);
  }

  // The window is evicted and its row is still the one it was evicted with.
  ghost predicate Final(s: State, t: State, k: Key) { Evicted(t, k) && SameRow(s, t, k) }

  lemma FinalStep(q: Query, s: State, t: State, a: Action, k: Key)
    requires Inv(q, t) && Final(s, t, k)
    ensures Final(s, Do(q, t, a), k)
  {
    EvictedStep(q, t, a, k);
  }

  /** Once a committed batch has evicted a window, no later run, crash or late event changes its row. */
  lemma {:induction false} EvictedIsFinal(q: Query, topic: Topic, actions: seq<Action>, more: seq<Action>, k: Key)
    requires Evicted(Exec(q, topic, actions), k)
    ensures Final(Exec(q, topic, actions), Exec(q, topic, actions + more), k)
  {
    if more == [] {
      assert actions + more == actions;
    } else {
      var front := more[..|more| - 1];
      EvictedIsFinal(q, topic, actions, front, k);
      ExecStep(q, topic, actions + front, more[|more| - 1]);
      assert actions + more == (actions + front) + [more[|more| - 1]];
      RunKeepsInv(q, topic, actions + front);
      FinalStep(q, Exec(q, topic, actions), Exec(q, topic, actions + front), more[|more| - 1], k);
    }
  }

  lemma ExecStep(q: Query, topic: Topic, actions: seq<Action>, a: Action)
    ensures Exec(q, topic, actions + [a]) == Do(q, Exec(q, topic, actions), a)
  {
    assert (actions + [a])[..|actions + [a]| - 1] == actions;
  }
}
