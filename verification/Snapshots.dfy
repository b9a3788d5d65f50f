/**
 What a reader of the curated table sees while the query runs: every write is whole or empty, so
 the table is always the GROUP BY of a whole number of batches, at any moment of any run.
 */
module Snapshots {
  import opened Aggregates
  import opened Clicks
  import opened Delivery
  import opened Log
  import opened Parsing
  import opened Stream

  // A write that reaches the sink with all of its rows or with none, as a transaction does.
  ghost predicate WholeOrEmpty(q: Query, s: State, a: Action) {
    a.Write? && InFlight(s) && multiset(a.rows) == multiset(Arriving(s)) ==>
      a.keys == {} || Output(q, s.store, a.rows).Keys <= a.keys
  }

  ghost predicate Transactional(q: Query, topic: Topic, actions: seq<Action>) {
    actions == [] ||
    (Transactional(q, topic, actions[..|actions| - 1]) &&
     WholeOrEmpty(q, Exec(q, topic, actions[..|actions| - 1]), actions[|actions| - 1]))
  }

  // The table of the batches planned by `plans`.
  ghost predicate TableOf(q: Query, s: State, plans: seq<Plan>) {
    Scheduled(s.topic, plans) && s.table == EmitAll(GroupBy(q, Accepted(s.topic, plans)))
  }

  // The table is that of the committed batches, or of those and the one in flight.
  ghost predicate WholeBatches(q: Query, s: State) {
    s.commits <= |s.plans| && (TableOf(q, s, s.plans[..s.commits]) || TableOf(q, s, s.plans))
  }

  lemma ProduceKeepsWhole(q: Query, s: State, p: nat, raw: Raw)
    requires Inv(q, s) && WholeBatches(q, s)
    ensures WholeBatches(q, Do(q, s, Produce(p, raw)))
  {
    if p < |s.topic| {
      var more := s.topic[p := s.topic[p] + [raw]];
      ProduceExtends(s.topic, p, raw);
      ScheduleExtends(s.topic, more, s.plans);
      ScheduleExtends(s.topic, more, s.plans[..s.commits]);
    }
  }

  lemma PlanKeepsWhole(q: Query, s: State, plan: Plan)
    requires Inv(q, s) && WholeBatches(q, s)
    ensures WholeBatches(q, Do(q, s, PlanBatch(plan)))
  {
    if Idle(s) && CanFollow(s.topic, s.plans, plan) {
      assert s.plans[..s.commits] == s.plans;
      assert (s.plans + [plan])[..s.commits] == s.plans;
    }
  }

  lemma EmptyWrite(table: map<Key, Row>, out: map<Key, Row>)
    ensures table + Only(out, {}) == table
  {
  }

  lemma WholeWrite(q: Query, s: State, rows: seq<Event>, keys: set<Key>)
    requires Inv(q, s) && InFlight(s) && multiset(rows) == multiset(Arriving(s))
    requires Output(q, s.store, rows).Keys <= keys
    ensures s.table + Only(Output(q, s.store, rows), keys) == EmitAll(GroupBy(q, Accepted(s.topic, s.plans)))
  {
    WriteOutput(q, s, rows);
    FullWrite(Settled(q, s), GroupBy(q, Accepted(s.topic, s.plans)), s.table, Output(q, s.store, rows), keys);
  }

  lemma SameTableStaysWhole(q: Query, s: State, t: State)
    requires WholeBatches(q, s) && t.topic == s.topic && t.plans == s.plans && t.commits == s.commits
    requires t.table == s.table
    ensures WholeBatches(q, t)
  {
  }

  lemma CompletedIsWhole(q: Query, t: State)
    requires t.commits <= |t.plans| && TableOf(q, t, t.plans)
    ensures WholeBatches(q, t)
  {
  }

  lemma WriteKeepsWhole(q: Query, s: State, rows: seq<Event>, keys: set<Key>)
    requires Inv(q, s) && WholeBatches(q, s) && WholeOrEmpty(q, s, Write(rows, keys))
    ensures WholeBatches(q, Do(q, s, Write(rows, keys)))
  {
    var t := Do(q, s, Write(rows, keys));
    if InFlight(s) && multiset(rows) == multiset(Arriving(s)) && keys != {} {
      WholeWrite(q, s, rows, keys);
      CompletedIsWhole(q, t);
    } else {
      if InFlight(s) && multiset(rows) == multiset(Arriving(s)) {
        EmptyWrite(s.table, Output(q, s.store, rows));
      }
      SameTableStaysWhole(q, s, t);
    }
  }

  lemma CommitKeepsWhole(q: Query, s: State)
    requires Inv(q, s) && WholeBatches(q, s)
    ensures WholeBatches(q, Do(q, s, Commit))
  {
    if InFlight(s) && s.written {
      assert s.plans[..s.commits + 1] == s.plans;
    }
  }

  lemma StepKeepsWhole(q: Query, s: State, a: Action)
    requires Inv(q, s) && WholeBatches(q, s) && WholeOrEmpty(q, s, a)
    ensures WholeBatches(q, Do(q, s, a))
  {
    match a
    case Produce(p, raw) => ProduceKeepsWhole(q, s, p, raw);
    case PlanBatch(plan) => PlanKeepsWhole(q, s, plan);
    case Write(rows, keys) => WriteKeepsWhole(q, s, rows, keys);
    case Crash =>
    case Commit => CommitKeepsWhole(q, s);
  }

  /** At every moment, planned, written, crashed or idle, the table is the GROUP BY of a whole number of batches. */
  lemma {:induction false} ReadersSeeWholeBatches(q: Query, topic: Topic, actions: seq<Action>)
    requires Transactional(q, topic, actions)
    ensures WholeBatches(q, Exec(q, topic, actions))
  {
    if actions != [] {
      var front := actions[..|actions| - 1];
      ReadersSeeWholeBatches(q, topic, front);
      RunKeepsInv(q, topic, front);
      StepKeepsWhole(q, Exec(q, topic, front), actions[|actions| - 1]);
    }
  }

  // Between batches this needs no transactions: what a partial write left behind has been completed.
  lemma IdleIsWhole(q: Query, topic: Topic, actions: seq<Action>)
    requires Idle(Exec(q, topic, actions))
    ensures WholeBatches(q, Exec(q, topic, actions))
  {
    TableIsAccepted(q, topic, actions);
  }

  lemma ManyStep(q: Query, topic: Topic, actions: seq<Action>, a: Action)
    requires Transactional(q, topic, actions) && WholeOrEmpty(q, Exec(q, topic, actions), a)
    ensures Transactional(q, topic, actions + [a])
  {
    assert (actions + [a])[..|actions + [a]| - 1] == actions;
  }
}
