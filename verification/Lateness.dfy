/**
 Which events a schedule can drop as late: the exact condition on where its batches begin and end,
 under which micro-batching, with every crash and replay, leaves the one-shot GROUP BY.
 */
module Lateness {
  import opened Aggregates
  import opened Clicks
  import opened Delivery
  import opened Log
  import opened Parsing
  import opened Stream
  import opened Wrappers

  ghost predicate EventAt(topic: Topic, p: nat, i: nat, e: Event) {
    p < |topic| && i < |topic[p]| && ParsedRow(topic[p][i]) == Some(e)
  }

  ghost function OneShot(q: Query, topic: Topic, end: Offsets): map<Key, Row>
    requires Range(topic, Zeros(|topic|), end)
  {
    EmitAll(GroupBy(q, Rows(topic, Zeros(|topic|), end)))
  }

  // ---- Events and watermarks ----

  lemma {:induction false} WatermarkSource(rows: seq<Event>)
    ensures Watermark(rows) >= 0
    ensures forall f :: f in rows ==> f.ts - 120 <= Watermark(rows)
    ensures Watermark(rows) == 0 || exists f :: f in rows && f.ts - 120 == Watermark(rows)
  {
    if rows != [] {
      var front, f := rows[..|rows| - 1], rows[|rows| - 1];
      WatermarkSource(front);
      assert rows == front + [f];
    }
  }

  lemma RowSource(topic: Topic, lo: Offsets, hi: Offsets, e: Event) returns (p: nat, i: nat)
    requires Range(topic, lo, hi) && e in Rows(topic, lo, hi)
    ensures EventAt(topic, p, i, e) && lo[p] <= i < hi[p]
  {
    var k := EventsOfSource(Slice(topic, lo, hi), e);
    p, i := SliceSource(topic, lo, hi, Slice(topic, lo, hi)[k]);
  }

  lemma EventIsRow(topic: Topic, lo: Offsets, hi: Offsets, p: nat, i: nat, e: Event)
    requires Range(topic, lo, hi) && EventAt(topic, p, i, e) && lo[p] <= i < hi[p]
    ensures e in Rows(topic, lo, hi)
  {
    SliceMember(topic, lo, hi, p, i);
    var raws := Slice(topic, lo, hi);
    var k :| 0 <= k < |raws| && raws[k] == topic[p][i];
    EventsOfMember(raws, k);
  }

  lemma {:induction false} LateIsTooLate(rows: seq<Event>, late: int, e: Event)
    requires e in rows && WindowEnd(e.ts) <= late
    ensures e in TooLate(rows, late)
  {
    if e in rows[..|rows| - 1] {
      LateIsTooLate(rows[..|rows| - 1], late, e);
    }
  }

  lemma {:induction false} NothingTooLate(rows: seq<Event>, late: int)
    requires forall e :: e in rows ==> WindowEnd(e.ts) > late
    ensures TooLate(rows, late) == []
  {
    if rows != [] {
      NothingTooLate(rows[..|rows| - 1], late);
    }
  }

  lemma LateEventIsDropped(topic: Topic, plans: seq<Plan>, e: Event)
    requires plans != [] && Scheduled(topic, plans)
    requires e in Batch(topic, plans) && WindowEnd(e.ts) <= plans[|plans| - 1].late
    ensures e in Dropped(topic, plans)
  {
    LateIsTooLate(Batch(topic, plans), plans[|plans| - 1].late, e);
  }

  // ---- Batches in step with the data ----

  // The window of e has not ended by the watermark of any message before `start`.
  ghost predicate NotOvertaken(topic: Topic, start: Offsets, e: Event) {
    && WindowEnd(e.ts) > INITIAL_WATERMARK
    && forall r: nat, j: nat, f: Event ::
         EventAt(topic, r, j, f) && r < |start| && j < start[r] ==> WindowEnd(e.ts) > f.ts - WATERMARK_SECONDS
  }

  ghost predicate OnTimeFrom(topic: Topic, start: Offsets, end: Offsets) {
    forall p: nat, i: nat, e: Event ::
      EventAt(topic, p, i, e) && p < |start| && p < |end| && start[p] <= i < end[p] ==> NotOvertaken(topic, start, e)
  }

  // No batch reads an event that a message of an earlier batch has overtaken.
  ghost predicate InStep(topic: Topic, plans: seq<Plan>) {
    plans == [] ||
    (InStep(topic, plans[..|plans| - 1]) &&
     OnTimeFrom(topic, EndOf(topic, plans[..|plans| - 1]), plans[|plans| - 1].end))
  }

  /** The engine may lag: older watermarks are admissible wherever newer ones are. */
  lemma LaggingFollows(topic: Topic, plans: seq<Plan>, plan: Plan, late: int, evict: int)
    requires CanFollow(topic, plans, plan) && EvictOf(plans) <= late <= evict <= plan.evict
    ensures CanFollow(topic, plans, Plan(plan.end, late, evict))
  {
  }

  lemma BeforeStart(topic: Topic, start: Offsets, f: Event) returns (r: nat, j: nat)
    requires Range(topic, Zeros(|topic|), start) && f in Rows(topic, Zeros(|topic|), start)
    ensures EventAt(topic, r, j, f) && r < |start| && j < start[r]
  {
    r, j := RowSource(topic, Zeros(|topic|), start, f);
  }

  // Not overtaken is ahead of the watermark.
  lemma AheadOfWatermark(topic: Topic, start: Offsets, e: Event)
    requires Range(topic, Zeros(|topic|), start)
    ensures NotOvertaken(topic, start, e) <==> WindowEnd(e.ts) > Watermark(Rows(topic, Zeros(|topic|), start))
  {
    var earlier := Rows(topic, Zeros(|topic|), start);
    WatermarkSource(earlier);
    if NotOvertaken(topic, start, e) {
      if Watermark(earlier) != INITIAL_WATERMARK {
        var f :| f in earlier && f.ts - WATERMARK_SECONDS == Watermark(earlier);
        var r, j := BeforeStart(topic, start, f);
      }
    } else if WindowEnd(e.ts) > INITIAL_WATERMARK {
      var r: nat, j: nat, f: Event :|
        EventAt(topic, r, j, f) && r < |start| && j < start[r] && WindowEnd(e.ts) <= f.ts - WATERMARK_SECONDS;
      EventIsRow(topic, Zeros(|topic|), start, r, j, f);
    }
  }

  lemma RowNotOvertaken(topic: Topic, start: Offsets, end: Offsets, e: Event)
    requires OnTimeFrom(topic, start, end) && Range(topic, start, end) && e in Rows(topic, start, end)
    ensures NotOvertaken(topic, start, e)
  {
    var p, i := RowSource(topic, start, end, e);
  }

  /** A schedule in step with its data drops nothing. */
  lemma {:induction false} InStepDropsNothing(topic: Topic, plans: seq<Plan>)
    requires Scheduled(topic, plans) && InStep(topic, plans)
    ensures Dropped(topic, plans) == []
  {
    if plans != [] {
      var front, plan := plans[..|plans| - 1], plans[|plans| - 1];
      InStepDropsNothing(topic, front);
      forall e | e in Batch(topic, plans) ensures WindowEnd(e.ts) > plan.late {
        RowNotOvertaken(topic, EndOf(topic, front), plan.end, e);
        AheadOfWatermark(topic, EndOf(topic, front), e);
      }
      NothingTooLate(Batch(topic, plans), plan.late);
    }
  }

  // ---- The condition is exact for given batch boundaries ----

  ghost predicate SameEnds(a: seq<Plan>, b: seq<Plan>) {
    |a| == |b| && forall k :: 0 <= k < |a| ==> a[k].end == b[k].end
  }

  lemma {:induction false} InStepByEnds(topic: Topic, a: seq<Plan>, b: seq<Plan>)
    requires SameEnds(a, b)
    ensures InStep(topic, a) <==> InStep(topic, b)
    ensures EndOf(topic, a) == EndOf(topic, b)
  {
    if a != [] {
      InStepByEnds(topic, a[..|a| - 1], b[..|b| - 1]);
    }
  }

  // The same batches with the highest watermarks the data allows.
  ghost function Eager(topic: Topic, plans: seq<Plan>): seq<Plan>
    requires Scheduled(topic, plans)
    decreases |plans|
  {
    if plans == [] then []
    else
      var front := plans[..|plans| - 1];
      var w := Watermark(Rows(topic, Zeros(|topic|), EndOf(topic, front)));
      Eager(topic, front) + [Plan(plans[|plans| - 1].end, w, w)]
  }

  lemma WatermarkRises(topic: Topic, mid: Offsets, end: Offsets)
    requires Range(topic, Zeros(|topic|), mid) && Range(topic, mid, end) && Range(topic, Zeros(|topic|), end)
    ensures Watermark(Rows(topic, Zeros(|topic|), mid)) <= Watermark(Rows(topic, Zeros(|topic|), end))
  {
    var early, late := Rows(topic, Zeros(|topic|), mid), Rows(topic, Zeros(|topic|), end);
    WatermarkSource(early);
    WatermarkSource(late);
    if Watermark(early) != INITIAL_WATERMARK {
      var f :| f in early && f.ts - WATERMARK_SECONDS == Watermark(early);
      var r, j := BeforeStart(topic, mid, f);
      EventIsRow(topic, Zeros(|topic|), end, r, j, f);
    }
  }

  lemma EndIsRange(topic: Topic, plans: seq<Plan>)
    requires Scheduled(topic, plans)
    ensures Range(topic, Zeros(|topic|), EndOf(topic, plans))
  {
    ConsumedIsAcceptedOrDropped(topic, plans);
  }

  lemma OneMorePlan(topic: Topic, front: seq<Plan>, plan: Plan)
    requires Scheduled(topic, front) && CanFollow(topic, front, plan)
    ensures Scheduled(topic, front + [plan]) && EndOf(topic, front + [plan]) == plan.end
    ensures EvictOf(front + [plan]) == plan.evict
  {
    assert (front + [plan])[..|front + [plan]| - 1] == front;
  }

  // A plan that follows some plans also follows others with the same end, under the highest watermark.
  lemma EagerFollows(topic: Topic, front: seq<Plan>, eager: seq<Plan>, plan: Plan)
    requires CanFollow(topic, front, plan) && EndOf(topic, eager) == EndOf(topic, front)
    requires EvictOf(eager) <= Watermark(Rows(topic, Zeros(|topic|), EndOf(topic, front)))
    ensures var w := Watermark(Rows(topic, Zeros(|topic|), EndOf(topic, front)));
            CanFollow(topic, eager, Plan(plan.end, w, w))
  {
  }

  lemma EagerGrows(topic: Topic, plans: seq<Plan>)
    requires plans != [] && Scheduled(topic, plans)
    ensures var front := plans[..|plans| - 1];
            var w := Watermark(Rows(topic, Zeros(|topic|), EndOf(topic, front)));
            Eager(topic, plans) == Eager(topic, front) + [Plan(plans[|plans| - 1].end, w, w)]
  {
  }

  lemma SameEndsGrow(a: seq<Plan>, b: seq<Plan>, plan: Plan)
    requires a != [] && SameEnds(a[..|a| - 1], b) && plan.end == a[|a| - 1].end
    ensures SameEnds(a, b + [plan])
  {
    forall k | 0 <= k < |a| ensures a[k].end == (b + [plan])[k].end {
      if k < |a| - 1 {
        assert a[k] == a[..|a| - 1][k];
      }
    }
  }

  lemma {:induction false} EagerIsScheduled(topic: Topic, plans: seq<Plan>)
    requires Scheduled(topic, plans)
    ensures SameEnds(plans, Eager(topic, plans)) && EndOf(topic, Eager(topic, plans)) == EndOf(topic, plans)
    ensures Scheduled(topic, Eager(topic, plans)) && Range(topic, Zeros(|topic|), EndOf(topic, plans))
    ensures EvictOf(Eager(topic, plans)) <= Watermark(Rows(topic, Zeros(|topic|), EndOf(topic, plans)))
    decreases |plans|
  {
    EndIsRange(topic, plans);
    if plans == [] {
      WatermarkSource(Rows(topic, Zeros(|topic|), EndOf(topic, plans)));
    } else {
      EagerIsScheduled(topic, plans[..|plans| - 1]);
      EagerStep(topic, plans, plans[..|plans| - 1], Eager(topic, plans[..|plans| - 1]), plans[|plans| - 1]);
      EagerGrows(topic, plans);
    }
  }

  lemma EagerStep(topic: Topic, plans: seq<Plan>, front: seq<Plan>, eager: seq<Plan>, plan: Plan)
    requires plans != [] && front == plans[..|plans| - 1] && plan == plans[|plans| - 1]
    requires CanFollow(topic, front, plan) && SameEnds(front, eager) && EndOf(topic, eager) == EndOf(topic, front)
    requires EvictOf(eager) <= Watermark(Rows(topic, Zeros(|topic|), EndOf(topic, front)))
    requires Scheduled(topic, eager) && Range(topic, Zeros(|topic|), plan.end)
    ensures var w := Watermark(Rows(topic, Zeros(|topic|), EndOf(topic, front)));
            var more := eager + [Plan(plan.end, w, w)];
            && SameEnds(plans, more) && EndOf(topic, more) == EndOf(topic, plans) && Scheduled(topic, more)
            && EvictOf(more) <= Watermark(Rows(topic, Zeros(|topic|), plan.end))
  {
    var w := Watermark(Rows(topic, Zeros(|topic|), EndOf(topic, front)));
    EagerFollows(topic, front, eager, plan);
    OneMorePlan(topic, eager, Plan(plan.end, w, w));
    SameEndsGrow(plans, eager, Plan(plan.end, w, w));
    WatermarkRises(topic, EndOf(topic, front), plan.end);
  }

  lemma DroppedGrows(topic: Topic, plans: seq<Plan>)
    requires plans != [] && Scheduled(topic, plans)
    ensures Dropped(topic, plans) == [] ==> Dropped(topic, plans[..|plans| - 1]) == []
  {
  }

  // Under the highest watermarks an overtaken event of the last batch is dropped.
  lemma EagerDropsLast(topic: Topic, plans: seq<Plan>, p: nat, i: nat, e: Event)
    requires plans != [] && Scheduled(topic, plans) && Scheduled(topic, Eager(topic, plans))
    requires var start := EndOf(topic, plans[..|plans| - 1]);
             && EventAt(topic, p, i, e) && start[p] <= i < plans[|plans| - 1].end[p] && !NotOvertaken(topic, start, e)
    ensures Dropped(topic, Eager(topic, plans)) != []
  {
    var front, eager := plans[..|plans| - 1], Eager(topic, plans);
    EagerIsScheduled(topic, front);
    assert eager[..|eager| - 1] == Eager(topic, front);
    EventIsRow(topic, EndOf(topic, front), plans[|plans| - 1].end, p, i, e);
    AheadOfWatermark(topic, EndOf(topic, front), e);
    LateEventIsDropped(topic, eager, e);
  }

  lemma {:induction false} EagerLoses(topic: Topic, plans: seq<Plan>)
    requires Scheduled(topic, plans) && !InStep(topic, plans)
    ensures Scheduled(topic, Eager(topic, plans)) && Dropped(topic, Eager(topic, plans)) != []
    decreases |plans|
  {
    var front, eager := plans[..|plans| - 1], Eager(topic, plans);
    EagerIsScheduled(topic, plans);
    EagerIsScheduled(topic, front);
    if !InStep(topic, front) {
      EagerLoses(topic, front);
      assert eager[..|eager| - 1] == Eager(topic, front);
      DroppedGrows(topic, eager);
    } else {
      var start, end := EndOf(topic, front), plans[|plans| - 1].end;
      var p: nat, i: nat, e: Event :|
        EventAt(topic, p, i, e) && p < |start| && p < |end| && start[p] <= i < end[p] && !NotOvertaken(topic, start, e);
      EagerDropsLast(topic, plans, p, i, e);
    }
  }

  /** For given batch boundaries, no choice of watermarks drops anything exactly when the batches are in step. */
  lemma NoLossIffInStep(topic: Topic, plans: seq<Plan>)
    requires Scheduled(topic, plans)
    ensures InStep(topic, plans) <==>
            forall others :: SameEnds(plans, others) && Scheduled(topic, others) ==> Dropped(topic, others) == []
  {
    if InStep(topic, plans) {
      forall others | SameEnds(plans, others) && Scheduled(topic, others) ensures Dropped(topic, others) == [] {
        InStepByEnds(topic, plans, others);
        InStepDropsNothing(topic, others);
      }
    } else {
      EagerLoses(topic, plans);
      EagerIsScheduled(topic, plans);
    }
  }

  // ---- Batching is invisible ----

  /**
   Batching and crash independence: while its batches are in step with the data, a query's table is
   the one-shot GROUP BY of what it consumed.
   */
  lemma BatchingIsInvisible(q: Query, topic: Topic, actions: seq<Action>)
    requires InStep(Exec(q, topic, actions).topic, Exec(q, topic, actions).plans)
    ensures var s := Exec(q, topic, actions);
            && Scheduled(s.topic, s.plans)
            && Range(s.topic, Zeros(|s.topic|), EndOf(s.topic, s.plans))
            && (Idle(s) ==> s.table == OneShot(q, s.topic, EndOf(s.topic, s.plans)))
  {
    var s := Exec(q, topic, actions);
    TableIsAccepted(q, topic, actions);
    InStepDropsNothing(s.topic, s.plans);
    ConsumedIsAcceptedOrDropped(s.topic, s.plans);
    AbsorbPermutation(q, map[], Accepted(s.topic, s.plans), Rows(s.topic, Zeros(|s.topic|), EndOf(s.topic, s.plans)));
  }

  /** Two queries with their own checkpoints and batch boundaries agree once they consumed the same prefix. */
  lemma SeparateCheckpointsAgree(q: Query, topic: Topic, a: seq<Action>, b: seq<Action>)
    requires var s, t := Exec(q, topic, a), Exec(q, topic, b);
             && s.topic == t.topic && Idle(s) && Idle(t)
             && InStep(s.topic, s.plans) && InStep(t.topic, t.plans)
             && EndOf(s.topic, s.plans) == EndOf(t.topic, t.plans)
    ensures Exec(q, topic, a).table == Exec(q, topic, b).table
  {
    BatchingIsInvisible(q, topic, a);
    BatchingIsInvisible(q, topic, b);
  }
}
