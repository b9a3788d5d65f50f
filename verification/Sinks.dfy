/**
 The streaming query writing through each real sink: the Postgres upsert is one step of the
 query, and the ClickHouse parts, merged at any time, read FINAL as the query's table.
 */
module Sinks {
  import opened Aggregates
  import opened Clicks
  import opened Delivery
  import opened Lateness
  import opened Log
  import opened MergeTree
  import opened PostgresSink
  import opened Snapshots
  import opened Stream

  function KeySet(order: seq<Key>): set<Key> { set k | k in order }

  lemma WriteTable(q: Query, s: State, rows: seq<Event>, keys: set<Key>)
    requires InFlight(s) && multiset(rows) == multiset(Arriving(s))
    ensures Do(q, s, Write(rows, keys)).table == s.table + Only(Output(q, s.store, rows), keys)
  {
  }

  // ---- Postgres ----

  lemma AllOrNothing(table: map<Key, Row>, out: map<Key, Row>, order: seq<Key>, crashAt: nat)
    requires Enumerates(order, out.Keys)
    ensures forall k :: k in order ==> k in out
    ensures AfterUpsert(Db(table, []), Collected(out, order), crashAt) ==
            Db(table + Only(out, if crashAt >= Statements(|order|) then out.Keys else {}), [])
  {
    CollectedDistinct(out, order);
    GroupedUpsert(Db(table, []), out, order);
    assert Only(out, out.Keys) == out;
    assert table + Only(out, {}) == table;
  }

  /** A clean upsert of the collected batch is the whole write; a crashed one is no write at all. */
  lemma UpsertIsWrite(q: Query, s: State, rows: seq<Event>, order: seq<Key>, crashAt: nat)
    requires InFlight(s) && multiset(rows) == multiset(Arriving(s))
    requires Enumerates(order, Output(q, s.store, rows).Keys)
    ensures forall k :: k in order ==> k in Output(q, s.store, rows)
    ensures var out := Output(q, s.store, rows);
            var keys := if crashAt >= Statements(|order|) then out.Keys else {};
            AfterUpsert(Db(s.table, []), Collected(out, order), crashAt) == Db(Do(q, s, Write(rows, keys)).table, [])
  {
    var out := Output(q, s.store, rows);
    AllOrNothing(s.table, out, order, crashAt);
    WriteTable(q, s, rows, if crashAt >= Statements(|order|) then out.Keys else {});
  }

  // The query with its real Postgres sink: `order` is the order in which a batch's rows are collected.
  datatype PgState = PgState(stream: State, db: Db<Key, Row>)

  datatype PgAction = PgEngine(action: Action) | Attempt(rows: seq<Event>, order: seq<Key>, crashAt: nat)

  ghost predicate CanUpsert(q: Query, s: State, rows: seq<Event>, order: seq<Key>) {
    && InFlight(s) && multiset(rows) == multiset(Arriving(s))
    && Enumerates(order, Output(q, s.store, rows).Keys)
    && forall k :: k in order ==> k in Output(q, s.store, rows)
  }

  // The rows an attempt brings to the table: all of them once it commits.
  function Reached(out: map<Key, Row>, order: seq<Key>, crashAt: nat): set<Key> {
    if crashAt >= Statements(|order|) then out.Keys else {}
  }

  ghost function PgDo(q: Query, p: PgState, x: PgAction): PgState {
    match x
    case PgEngine(a) => if a.Write? then p else p.(stream := Do(q, p.stream, a))
    case Attempt(rows, order, crashAt) =>
      if CanUpsert(q, p.stream, rows, order) then
        var out := Output(q, p.stream.store, rows);
        PgState(Do(q, p.stream, Write(rows, Reached(out, order, crashAt))),
                AfterUpsert(p.db, Collected(out, order), crashAt))
      else p
  }

  ghost function PgRun(q: Query, topic: Topic, xs: seq<PgAction>): PgState {
    if xs == [] then PgState(Start(topic), Db(map[], []))
    else PgDo(q, PgRun(q, topic, xs[..|xs| - 1]), xs[|xs| - 1])
  }

  ghost function PgStep(q: Query, p: PgState, x: PgAction): seq<Action> {
    match x
    case PgEngine(a) => if a.Write? then [] else [a]
    case Attempt(rows, order, crashAt) =>
      if CanUpsert(q, p.stream, rows, order) then
        [Write(rows, Reached(Output(q, p.stream.store, rows), order, crashAt))]
      else []
  }

  ghost function PgSteps(q: Query, topic: Topic, xs: seq<PgAction>): seq<Action> {
    if xs == [] then []
    else PgSteps(q, topic, xs[..|xs| - 1]) + PgStep(q, PgRun(q, topic, xs[..|xs| - 1]), xs[|xs| - 1])
  }

  lemma PgStepFollows(q: Query, p: PgState, x: PgAction)
    ensures var step := PgStep(q, p, x);
            && |step| <= 1 && (step != [] ==> WholeOrEmpty(q, p.stream, step[0]))
            && PgDo(q, p, x).stream == if step == [] then p.stream else Do(q, p.stream, step[0])
  {
  }

  /** A run against Postgres is a run of the query whose writes are whole or empty. */
  lemma {:induction false} PgFollowsQuery(q: Query, topic: Topic, xs: seq<PgAction>)
    ensures PgRun(q, topic, xs).stream == Exec(q, topic, PgSteps(q, topic, xs))
    ensures Transactional(q, topic, PgSteps(q, topic, xs))
  {
    if xs != [] {
      var front, x := xs[..|xs| - 1], xs[|xs| - 1];
      var p, before := PgRun(q, topic, front), PgSteps(q, topic, front);
      PgFollowsQuery(q, topic, front);
      PgStepFollows(q, p, x);
      var step := PgStep(q, p, x);
      if step == [] {
        assert before + step == before;
      } else {
        assert step == [step[0]];
        ExecStep(q, topic, before, step[0]);
        ManyStep(q, topic, before, step[0]);
      }
    }
  }

  lemma PgStepKeepsTable(q: Query, p: PgState, x: PgAction)
    requires p.db == Db(p.stream.table, [])
    ensures PgDo(q, p, x).db == Db(PgDo(q, p, x).stream.table, [])
  {
    match x
    case PgEngine(a) =>
      if !a.Write? {
        OtherStepsKeepTable(q, p.stream, a);
      }
    case Attempt(rows, order, crashAt) =>
      if CanUpsert(q, p.stream, rows, order) {
        UpsertIsWrite(q, p.stream, rows, order, crashAt);
      }
  }

  /** At every moment of every run the Postgres table is the query's table, and staging is empty. */
  lemma {:induction false} PgTableIsTable(q: Query, topic: Topic, xs: seq<PgAction>)
    ensures PgRun(q, topic, xs).db == Db(PgRun(q, topic, xs).stream.table, [])
  {
    if xs != [] {
      PgTableIsTable(q, topic, xs[..|xs| - 1]);
      PgStepKeepsTable(q, PgRun(q, topic, xs[..|xs| - 1]), xs[|xs| - 1]);
    }
  }

  /** No reader of the curated table ever sees half a batch, whatever attempts died and wherever. */
  lemma PostgresShowsWholeBatches(q: Query, topic: Topic, xs: seq<PgAction>)
    ensures var p := PgRun(q, topic, xs);
            && p.db == Db(p.stream.table, [])
            && WholeBatches(q, p.stream)
  {
    PgFollowsQuery(q, topic, xs);
    PgTableIsTable(q, topic, xs);
    ReadersSeeWholeBatches(q, topic, PgSteps(q, topic, xs));
  }

  // ---- ClickHouse ----

  datatype ChState = ChState(stream: State, parts: seq<Part<Key, Row>>)

  // order lists the rows of the batch that reach the server before the insert stops.
  datatype ChAction =
    | Engine(action: Action)
    | InsertBatch(rows: seq<Event>, order: seq<Key>)
    | Background(at: nat, part: Part<Key, Row>)

  ghost predicate CanInsert(q: Query, s: State, rows: seq<Event>, order: seq<Key>) {
    && InFlight(s) && multiset(rows) == multiset(Arriving(s))
    && forall k :: k in order ==> k in Output(q, s.store, rows)
  }

  ghost function ChDo(q: Query, c: ChState, x: ChAction): ChState {
    match x
    case Engine(a) => if a.Write? then c else c.(stream := Do(q, c.stream, a))
    case InsertBatch(rows, order) =>
      if CanInsert(q, c.stream, rows, order) then
        ChState(Do(q, c.stream, Write(rows, KeySet(order))),
                Appended(c.parts, Collected(Output(q, c.stream.store, rows), order)))
      else c
    case Background(at, part) =>
      if at + 1 < |c.parts| && IsMergeOf(part, c.parts[at] + c.parts[at + 1]) then
        c.(parts := MergeAt(c.parts, at, part))
      else c
  }

  ghost function ChRun(q: Query, topic: Topic, xs: seq<ChAction>): ChState {
    if xs == [] then ChState(Start(topic), []) else ChDo(q, ChRun(q, topic, xs[..|xs| - 1]), xs[|xs| - 1])
  }

  // What a step of the server is to the query: one of its own steps, or none.
  ghost function QueryStep(q: Query, c: ChState, x: ChAction): seq<Action> {
    match x
    case Engine(a) => if a.Write? then [] else [a]
    case InsertBatch(rows, order) =>
      if CanInsert(q, c.stream, rows, order) then [Write(rows, KeySet(order))] else []
    case Background(_, _) => []
  }

  ghost function QuerySteps(q: Query, topic: Topic, xs: seq<ChAction>): seq<Action> {
    if xs == [] then []
    else QuerySteps(q, topic, xs[..|xs| - 1]) + QueryStep(q, ChRun(q, topic, xs[..|xs| - 1]), xs[|xs| - 1])
  }

  lemma StepFollows(q: Query, c: ChState, x: ChAction)
    ensures var step := QueryStep(q, c, x);
            ChDo(q, c, x).stream == if step == [] then c.stream else Do(q, c.stream, step[0])
    ensures |QueryStep(q, c, x)| <= 1
  {
  }

  lemma {:induction false} ChFollowsQuery(q: Query, topic: Topic, xs: seq<ChAction>)
    ensures ChRun(q, topic, xs).stream == Exec(q, topic, QuerySteps(q, topic, xs))
  {
    if xs != [] {
      var front, x := xs[..|xs| - 1], xs[|xs| - 1];
      var c, before := ChRun(q, topic, front), QuerySteps(q, topic, front);
      ChFollowsQuery(q, topic, front);
      StepFollows(q, c, x);
      var step := QueryStep(q, c, x);
      if step == [] {
        assert before + step == before;
      } else {
        assert step == [step[0]];
        ExecStep(q, topic, before, step[0]);
      }
    }
  }

  lemma InsertPart(parts: seq<Part<Key, Row>>, table: map<Key, Row>, out: map<Key, Row>, order: seq<Key>)
    requires forall k :: k in order ==> k in out
    requires IsFinal(table, parts)
    ensures IsFinal(table + Only(out, KeySet(order)), Appended(parts, Collected(out, order)))
  {
    FinalIsUpserts(table, parts);
    AppendedUpserts(parts, Collected(out, order));
    UpsertsCollected(table, out, order);
    assert Picked(out, order) == Only(out, KeySet(order));
    FinalIsUpserts(table + Only(out, KeySet(order)), Appended(parts, Collected(out, order)));
  }

  lemma MergePart(parts: seq<Part<Key, Row>>, table: map<Key, Row>, at: nat, part: Part<Key, Row>)
    requires IsFinal(table, parts)
    requires at + 1 < |parts| && IsMergeOf(part, parts[at] + parts[at + 1])
    ensures IsFinal(table, MergeAt(parts, at, part))
  {
    FinalIsUpserts(table, parts);
    MergeKeepsFinal(parts, at, part);
    FinalIsUpserts(table, MergeAt(parts, at, part));
  }

  lemma StepKeepsFinal(q: Query, c: ChState, x: ChAction)
    requires IsFinal(c.stream.table, c.parts)
    ensures IsFinal(ChDo(q, c, x).stream.table, ChDo(q, c, x).parts)
  {
    match x
    case Engine(a) =>
      if !a.Write? {
        OtherStepsKeepTable(q, c.stream, a);
      }
    case InsertBatch(rows, order) =>
      if CanInsert(q, c.stream, rows, order) {
        WriteTable(q, c.stream, rows, KeySet(order));
        InsertPart(c.parts, c.stream.table, Output(q, c.stream.store, rows), order);
      }
    case Background(at, part) =>
      if at + 1 < |c.parts| && IsMergeOf(part, c.parts[at] + c.parts[at + 1]) {
        MergePart(c.parts, c.stream.table, at, part);
      }
  }

  /** At every moment of every run, FINAL over the parts is the table keyed upserts would hold. */
  lemma {:induction false} FinalIsTable(q: Query, topic: Topic, xs: seq<ChAction>)
    ensures IsFinal(ChRun(q, topic, xs).stream.table, ChRun(q, topic, xs).parts)
  {
    if xs == [] {
      FinalIsUpserts(map[], ChRun(q, topic, xs).parts);
    } else {
      FinalIsTable(q, topic, xs[..|xs| - 1]);
      StepKeepsFinal(q, ChRun(q, topic, xs[..|xs| - 1]), xs[|xs| - 1]);
    }
  }

  /** The two stores agree: same consumed prefix, separate checkpoints, any schedules in step with the data. */
  lemma StoresAgree(q: Query, topic: Topic, pg: seq<Action>, ch: seq<ChAction>)
    requires var s, c := Exec(q, topic, pg), ChRun(q, topic, ch);
             && s.topic == c.stream.topic && Idle(s) && Idle(c.stream)
             && InStep(s.topic, s.plans) && InStep(s.topic, c.stream.plans)
             && EndOf(s.topic, s.plans) == EndOf(s.topic, c.stream.plans)
    ensures IsFinal(Exec(q, topic, pg).table, ChRun(q, topic, ch).parts)
  {
    ChFollowsQuery(q, topic, ch);
    SeparateCheckpointsAgree(q, topic, pg, QuerySteps(q, topic, ch));
    FinalIsTable(q, topic, ch);
  }
}
