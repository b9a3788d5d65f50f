/**
 One streaming query under crash and replay: an offset log of planned micro-batches, a commit
 log, a versioned state store and a keyed sink written by foreachBatch in update mode.
 */
module Stream {
  import opened Aggregates
  import opened Clicks
  import opened Log
  import opened Parsing
  import opened Wrappers

  const INITIAL_WATERMARK := 0

  // An entry of the offset log: where the batch ends and the two watermarks it runs with.
  datatype Plan = Plan(end: Offsets, late: int, evict: int)

  // The first `commits` plans are committed; one more may be planned and not committed.
  datatype State = State(
    topic: Topic,
    plans: seq<Plan>,
    commits: nat,
    store: Groups,
    table: map<Key, Row>,
    written: bool)

  // rows is the order in which the shuffle delivers the batch; keys are the rows that reach
  // the sink before the attempt stops (all of them when it does not crash).
  datatype Action =
    | Produce(partition: nat, raw: Raw)
    | PlanBatch(plan: Plan)
    | Write(rows: seq<Event>, keys: set<Key>)
    | Crash
    | Commit

  // ---- The offset log ----

  function EndOf(topic: Topic, plans: seq<Plan>): Offsets {
    if plans == [] then Zeros(|topic|) else plans[|plans| - 1].end
  }

  function EvictOf(plans: seq<Plan>): int {
    if plans == [] then INITIAL_WATERMARK else plans[|plans| - 1].evict
  }

  // The watermark after some rows were read: their latest event time minus the delay.
  function Watermark(rows: seq<Event>): int {
    if rows == [] then INITIAL_WATERMARK
    else Max(Watermark(rows[..|rows| - 1]), rows[|rows| - 1].ts - WATERMARK_SECONDS)
  }

  // Every admissible schedule, not one engine version: evict(n-1) <= late(n) <= evict(n) <= watermark(n).
  ghost predicate CanFollow(topic: Topic, plans: seq<Plan>, plan: Plan) {
    var start := EndOf(topic, plans);
    && Range(topic, Zeros(|topic|), start)
    && Range(topic, start, plan.end)
    && EvictOf(plans) <= plan.late <= plan.evict <= Watermark(Rows(topic, Zeros(|topic|), start))
  }

  ghost predicate Scheduled(topic: Topic, plans: seq<Plan>) {
    plans == [] ||
    (Scheduled(topic, plans[..|plans| - 1]) && CanFollow(topic, plans[..|plans| - 1], plans[|plans| - 1]))
  }

  ghost function Batch(topic: Topic, plans: seq<Plan>): seq<Event>
    requires plans != [] && Scheduled(topic, plans)
  {
    Rows(topic, EndOf(topic, plans[..|plans| - 1]), plans[|plans| - 1].end)
  }

  function OnTime(rows: seq<Event>, late: int): (r: seq<Event>)
    ensures forall e :: e in r ==> e in rows && WindowEnd(e.ts) > late
  {
    if rows == [] then []
    else OnTime(rows[..|rows| - 1], late) +
         if WindowEnd(rows[|rows| - 1].ts) > late then [rows[|rows| - 1]] else []
  }

  function TooLate(rows: seq<Event>, late: int): (r: seq<Event>)
    ensures forall e :: e in r ==> e in rows && WindowEnd(e.ts) <= late
  {
    if rows == [] then []
    else TooLate(rows[..|rows| - 1], late) +
         if WindowEnd(rows[|rows| - 1].ts) > late then [] else [rows[|rows| - 1]]
  }

  // The events the planned batches take in, and the ones they drop as late.
  ghost function Accepted(topic: Topic, plans: seq<Plan>): seq<Event>
    requires Scheduled(topic, plans)
  {
    if plans == [] then []
    else Accepted(topic, plans[..|plans| - 1]) + OnTime(Batch(topic, plans), plans[|plans| - 1].late)
  }

  ghost function Dropped(topic: Topic, plans: seq<Plan>): seq<Event>
    requires Scheduled(topic, plans)
  {
    if plans == [] then []
    else Dropped(topic, plans[..|plans| - 1]) + TooLate(Batch(topic, plans), plans[|plans| - 1].late)
  }

  // ---- Steps; a step that is not enabled leaves the state as it is ----

  ghost predicate InFlight(s: State) { |s.plans| == s.commits + 1 && Scheduled(s.topic, s.plans) }

  ghost predicate Idle(s: State) { |s.plans| == s.commits }

  ghost function Arriving(s: State): seq<Event>
    requires InFlight(s)
  {
    OnTime(Batch(s.topic, s.plans), s.plans[s.commits].late)
  }

  // Update mode: one row per group the batch touched, with the group's cumulative value.
  function Output(q: Query, store: Groups, rows: seq<Event>): map<Key, Row> {
    var after := Absorb(q, store, rows);
    map k | k in Touched(q, rows) && k in after :: Emit(after[k])
  }

  // Evicted groups leave the state store only after the batch has reported them.
  ghost function NextStore(q: Query, s: State): Groups
    requires InFlight(s)
  {
    Keep(Absorb(q, s.store, Arriving(s)), s.plans[s.commits].evict)
  }

  function Only(out: map<Key, Row>, keys: set<Key>): map<Key, Row> { map k | k in out && k in keys :: out[k] }

  ghost function Do(q: Query, s: State, a: Action): State {
    match a
    case Produce(p, raw) =>
      if p < |s.topic| then s.(topic := s.topic[p := s.topic[p] + [raw]]) else s
    case PlanBatch(plan) =>
      if Idle(s) && CanFollow(s.topic, s.plans, plan) then s.(plans := s.plans + [plan], written := false) else s
    case Write(rows, keys) =>
      if InFlight(s) && multiset(rows) == multiset(Arriving(s)) then
        var out := Output(q, s.store, rows);
        s.(table := s.table + Only(out, keys), written := out.Keys <= keys)
      else s
    case Crash => s.(written := false)
    case Commit =>
      if InFlight(s) && s.written then
        s.(commits := s.commits + 1, written := false, store := NextStore(q, s))
      else s
  }

  ghost function Start(topic: Topic): State { State(topic, [], 0, map[], map[], false) }

  ghost function Exec(q: Query, topic: Topic, actions: seq<Action>): State {
    if actions == [] then Start(topic) else Do(q, Exec(q, topic, actions[..|actions| - 1]), actions[|actions| - 1])
  }

  // ---- The invariant ----

  ghost function Settled(q: Query, s: State): Groups
    requires s.commits <= |s.plans| && Scheduled(s.topic, s.plans[..s.commits])
  {
    GroupBy(q, Accepted(s.topic, s.plans[..s.commits]))
  }

  // While a batch is in flight every row is its value before the batch or after it.
  ghost predicate Between(table: map<Key, Row>, before: Groups, after: Groups) {
    && before.Keys <= table.Keys
    && forall k :: k in table ==>
      (k in before && table[k] == Emit(before[k])) || (k in after && table[k] == Emit(after[k]))
  }

  ghost predicate Inv(q: Query, s: State) {
    && s.commits <= |s.plans| <= s.commits + 1
    && Scheduled(s.topic, s.plans)
    && Scheduled(s.topic, s.plans[..s.commits])
    && s.store == Keep(Settled(q, s), EvictOf(s.plans[..s.commits]))
    && (Idle(s) ==> s.table == EmitAll(Settled(q, s)) && !s.written)
    && (InFlight(s) ==>
          var after := GroupBy(q, Accepted(s.topic, s.plans));
          Between(s.table, Settled(q, s), after) && (s.written ==> s.table == EmitAll(after)))
  }

  // ---- Growth of the topic ----

  lemma {:induction false} ScheduleExtends(topic: Topic, more: Topic, plans: seq<Plan>)
    requires Extends(topic, more) && Scheduled(topic, plans)
    ensures Scheduled(more, plans)
    ensures Accepted(more, plans) == Accepted(topic, plans)
    ensures Dropped(more, plans) == Dropped(topic, plans)
  {
    if plans != [] {
      var front, plan := plans[..|plans| - 1], plans[|plans| - 1];
      ScheduleExtends(topic, more, front);
      SliceExtends(topic, more, Zeros(|topic|), EndOf(topic, front));
      SliceExtends(topic, more, EndOf(topic, front), plan.end);
    }
  }

  lemma ProduceExtends(topic: Topic, p: nat, raw: Raw)
    requires p < |topic|
    ensures Extends(topic, topic[p := topic[p] + [raw]])
  {
  }

  // ---- What a batch writes ----

  lemma TouchedAreLive(q: Query, rows: seq<Event>, evict: int)
    requires forall e :: e in rows ==> WindowEnd(e.ts) > evict
    ensures forall k :: k in Touched(q, rows) ==> KeyEnd(k) > evict
  {
  }

  // A batch absorbed into the kept groups reports, for each group it touched, the value that
  // absorbing it into all groups ever settled would give.
  lemma OutputFromKept(q: Query, settled: Groups, evict: int, rows: seq<Event>)
    requires forall e :: e in rows ==> WindowEnd(e.ts) > evict
    ensures var out, after := Output(q, Keep(settled, evict), rows), Absorb(q, settled, rows);
            out.Keys == Touched(q, rows) && forall k :: k in out ==> k in after && out[k] == Emit(after[k])
  {
    TouchedAreLive(q, rows, evict);
    KeepAbsorb(q, settled, rows, evict);
    AbsorbKeys(q, settled, rows);
    AbsorbKeys(q, Keep(settled, evict), rows);
  }

  lemma OutputIsCumulative(q: Query, settled: Groups, evict: int, rows: seq<Event>)
    requires forall e :: e in rows ==> WindowEnd(e.ts) > evict
    ensures EmitAll(settled) + Output(q, Keep(settled, evict), rows) == EmitAll(Absorb(q, settled, rows))
  {
    OutputFromKept(q, settled, evict, rows);
    AbsorbKeys(q, settled, rows);
  }

  lemma BatchStep(q: Query, topic: Topic, plans: seq<Plan>)
    requires plans != [] && Scheduled(topic, plans)
    ensures var front, plan := plans[..|plans| - 1], plans[|plans| - 1];
            var rows := OnTime(Batch(topic, plans), plan.late);
            && GroupBy(q, Accepted(topic, plans)) == Absorb(q, GroupBy(q, Accepted(topic, front)), rows)
            && (forall e :: e in rows ==> WindowEnd(e.ts) > EvictOf(front))
  {
    var front, plan := plans[..|plans| - 1], plans[|plans| - 1];
    AbsorbConcat(q, map[], Accepted(topic, front), OnTime(Batch(topic, plans), plan.late));
  }

  // ---- Every step keeps the invariant ----

  lemma ProduceKeepsInv(q: Query, s: State, p: nat, raw: Raw)
    requires Inv(q, s)
    ensures Inv(q, Do(q, s, Produce(p, raw)))
  {
    if p < |s.topic| {
      var more := s.topic[p := s.topic[p] + [raw]];
      ProduceExtends(s.topic, p, raw);
      ScheduleExtends(s.topic, more, s.plans);
      ScheduleExtends(s.topic, more, s.plans[..s.commits]);
    }
  }

  lemma PlanKeepsInv(q: Query, s: State, plan: Plan)
    requires Inv(q, s)
    ensures Inv(q, Do(q, s, PlanBatch(plan)))
  {
    if Idle(s) && CanFollow(s.topic, s.plans, plan) {
      var t := Do(q, s, PlanBatch(plan));
      assert t.plans[..|t.plans| - 1] == s.plans;
      assert s.plans[..s.commits] == s.plans;
    }
  }

  lemma OutputRow(before: Groups, after: Groups, out: map<Key, Row>, k: Key)
    requires EmitAll(before) + out == EmitAll(after)
    ensures k in out ==> k in after && out[k] == Emit(after[k])
    ensures k in before ==> k in after
    ensures k in after && k !in out ==> k in before && Emit(before[k]) == Emit(after[k])
  {
    assert k in EmitAll(before) + out <==> k in EmitAll(after);
    if k in after {
      assert (EmitAll(before) + out)[k] == EmitAll(after)[k];
    }
  }

  lemma PartialWrite(before: Groups, after: Groups, table: map<Key, Row>, out: map<Key, Row>, keys: set<Key>)
    requires Between(table, before, after)
    requires EmitAll(before) + out == EmitAll(after)
    ensures Between(table + Only(out, keys), before, after)
  {
    forall k | k in out ensures k in after && out[k] == Emit(after[k]) {
      OutputRow(before, after, out, k);
    }
  }

  lemma FullWrite(before: Groups, after: Groups, table: map<Key, Row>, out: map<Key, Row>, keys: set<Key>)
    requires Between(table, before, after)
    requires EmitAll(before) + out == EmitAll(after) && out.Keys <= keys
    ensures table + Only(out, keys) == EmitAll(after)
  {
    assert Only(out, keys) == out;
    forall k ensures (k in table + out <==> k in after) && (k in after ==> (table + out)[k] == Emit(after[k])) {
      OutputRow(before, after, out, k);
    }
  }

  lemma WriteOutput(q: Query, s: State, rows: seq<Event>)
    requires Inv(q, s) && InFlight(s) && multiset(rows) == multiset(Arriving(s))
    ensures EmitAll(Settled(q, s)) + Output(q, s.store, rows) == EmitAll(GroupBy(q, Accepted(s.topic, s.plans)))
  {
    var settled := Settled(q, s);
    var evict := EvictOf(s.plans[..s.commits]);
    BatchStep(q, s.topic, s.plans);
    forall e | e in rows ensures WindowEnd(e.ts) > evict {
      assert e in multiset(rows);
    }
    AbsorbPermutation(q, settled, rows, Arriving(s));
    OutputIsCumulative(q, settled, evict, rows);
  }

  lemma WriteKeepsInv(q: Query, s: State, rows: seq<Event>, keys: set<Key>)
    requires Inv(q, s)
    ensures Inv(q, Do(q, s, Write(rows, keys)))
  {
    if InFlight(s) && multiset(rows) == multiset(Arriving(s)) {
      WriteOutput(q, s, rows);
      var before, after, out := Settled(q, s), GroupBy(q, Accepted(s.topic, s.plans)), Output(q, s.store, rows);
      PartialWrite(before, after, s.table, out, keys);
      if out.Keys <= keys {
        FullWrite(before, after, s.table, out, keys);
      }
    }
  }

  lemma CommitStore(q: Query, s: State)
    requires Inv(q, s) && InFlight(s)
    ensures NextStore(q, s) == Keep(GroupBy(q, Accepted(s.topic, s.plans)), s.plans[s.commits].evict)
  {
    var settled, plan := Settled(q, s), s.plans[s.commits];
    BatchStep(q, s.topic, s.plans);
    KeepAbsorb(q, settled, Arriving(s), EvictOf(s.plans[..s.commits]));
    KeepTwice(Absorb(q, settled, Arriving(s)), EvictOf(s.plans[..s.commits]), plan.evict);
  }

  // Between batches the state is determined by the accepted events.
  lemma SettledState(q: Query, t: State, groups: Groups)
    requires Idle(t) && !t.written && Scheduled(t.topic, t.plans) && groups == GroupBy(q, Accepted(t.topic, t.plans))
    requires t.store == Keep(groups, EvictOf(t.plans)) && t.table == EmitAll(groups)
    ensures Inv(q, t)
  {
    assert t.plans[..t.commits] == t.plans;
  }

  lemma CommitKeepsInv(q: Query, s: State)
    requires Inv(q, s)
    ensures Inv(q, Do(q, s, Commit))
  {
    if InFlight(s) && s.written {
      CommitStore(q, s);
      SettledState(q, State(s.topic, s.plans, s.commits + 1, NextStore(q, s), s.table, false),
                   GroupBy(q, Accepted(s.topic, s.plans)));
    }
  }

  lemma KeepTwice(m: Groups, a: int, b: int)
    requires a <= b
    ensures Keep(Keep(m, a), b) == Keep(m, b)
  {
  }

  lemma StepKeepsInv(q: Query, s: State, a: Action)
    requires Inv(q, s)
    ensures Inv(q, Do(q, s, a))
  {
    match a
    case Produce(p, raw) => ProduceKeepsInv(q, s, p, raw);
    case PlanBatch(plan) => PlanKeepsInv(q, s, plan);
    case Write(rows, keys) => WriteKeepsInv(q, s, rows, keys);
    case Crash =>
    case Commit => CommitKeepsInv(q, s);
  }

  lemma {:induction false} RunKeepsInv(q: Query, topic: Topic, actions: seq<Action>)
    ensures Inv(q, Exec(q, topic, actions))
  {
    if actions != [] {
      RunKeepsInv(q, topic, actions[..|actions| - 1]);
      StepKeepsInv(q, Exec(q, topic, actions[..|actions| - 1]), actions[|actions| - 1]);
    }
  }
}
