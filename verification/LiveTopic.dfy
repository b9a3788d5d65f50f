/**
 A query that keeps up with a topic while messages arrive in any partition: the exact condition on the
 order of arrival under which it drops nothing.
 */
module LiveTopic {
  import opened Aggregates
  import opened Clicks
  import opened Delivery
  import opened Lateness
  import opened Log
  import opened Parsing
  import opened Punctuality
  import opened Stream
  import opened Wrappers

  datatype Arrival = Arrival(partition: nat, raw: Raw)

  // ---- Arrivals ----

  function Lengths(topic: Topic): (lengths: Offsets)
    ensures |lengths| == |topic| && forall p :: 0 <= p < |topic| ==> lengths[p] == |topic[p]|
  {
    seq(|topic|, p requires 0 <= p < |topic| => |topic[p]|)
  }

  function Appended(topic: Topic, a: Arrival): Topic {
    if a.partition < |topic| then topic[a.partition := topic[a.partition] + [a.raw]] else topic
  }

  function Grown(topic: Topic, arrivals: seq<Arrival>): Topic {
    if arrivals == [] then topic else Appended(Grown(topic, arrivals[..|arrivals| - 1]), arrivals[|arrivals| - 1])
  }

  // What arrived during a run.
  ghost function Arrivals(actions: seq<Action>): seq<Arrival> {
    if actions == [] then []
    else Arrivals(actions[..|actions| - 1]) +
         match actions[|actions| - 1]
         case Produce(p, raw) => [Arrival(p, raw)]
         case _ => []
  }

  // The event of a message that arrives has not been overtaken by any message already in the topic.
  ghost predicate InTime(topic: Topic, a: Arrival) {
    a.partition < |topic| && ParsedRow(a.raw).Some? ==> NotOvertaken(topic, Lengths(topic), ParsedRow(a.raw).value)
  }

  ghost predicate Timely(topic: Topic, arrivals: seq<Arrival>) {
    if arrivals == [] then OnTimeFrom(topic, Zeros(|topic|), Lengths(topic))
    else
      Timely(topic, arrivals[..|arrivals| - 1]) &&
      InTime(Grown(topic, arrivals[..|arrivals| - 1]), arrivals[|arrivals| - 1])
  }

  // ---- Runs that keep up ----

  ghost predicate Enabled(s: State, plan: Plan) { Idle(s) && CanFollow(s.topic, s.plans, plan) }

  // Every batch reads all there is, as without a limit on offsets per trigger.
  ghost predicate ReadsAll(q: Query, from: Topic, actions: seq<Action>) {
    actions == [] ||
    var s, a := Exec(q, from, actions[..|actions| - 1]), actions[|actions| - 1];
    ReadsAll(q, from, actions[..|actions| - 1]) &&
    (a.PlanBatch? && Enabled(s, a.plan) ==> a.plan.end == Lengths(s.topic))
  }

  // Weaker: a batch leaves behind no event that one of the messages it has read overtakes.
  ghost predicate KeepsUp(q: Query, from: Topic, actions: seq<Action>) {
    actions == [] ||
    var s, a := Exec(q, from, actions[..|actions| - 1]), actions[|actions| - 1];
    KeepsUp(q, from, actions[..|actions| - 1]) &&
    (a.PlanBatch? && Enabled(s, a.plan) ==> OnTimeFrom(s.topic, a.plan.end, Lengths(s.topic)))
  }

  lemma {:induction false} ReadingAllKeepsUp(q: Query, from: Topic, actions: seq<Action>)
    requires ReadsAll(q, from, actions)
    ensures KeepsUp(q, from, actions)
  {
    if actions != [] {
      ReadingAllKeepsUp(q, from, actions[..|actions| - 1]);
    }
  }

  // ---- The topic of a run ----

  lemma {:induction false} GrownExtends(topic: Topic, arrivals: seq<Arrival>)
    ensures Extends(topic, Grown(topic, arrivals))
  {
    if arrivals != [] {
      GrownExtends(topic, arrivals[..|arrivals| - 1]);
    }
  }

  lemma ArrivalsStep(actions: seq<Action>, a: Action)
    ensures Arrivals(actions + [a]) ==
            if a.Produce? then Arrivals(actions) + [Arrival(a.partition, a.raw)] else Arrivals(actions)
  {
    assert (actions + [a])[..|actions + [a]| - 1] == actions;
  }

  lemma GrownStep(topic: Topic, arrivals: seq<Arrival>, a: Arrival)
    ensures Grown(topic, arrivals + [a]) == Appended(Grown(topic, arrivals), a)
    ensures Timely(topic, arrivals + [a]) <==> Timely(topic, arrivals) && InTime(Grown(topic, arrivals), a)
  {
    assert (arrivals + [a])[..|arrivals + [a]| - 1] == arrivals;
  }

  lemma TopicStep(q: Query, s: State, a: Action)
    ensures Do(q, s, a).topic == if a.Produce? then Appended(s.topic, Arrival(a.partition, a.raw)) else s.topic
  {
  }

  lemma {:induction false} RunTopic(q: Query, from: Topic, actions: seq<Action>)
    ensures Exec(q, from, actions).topic == Grown(from, Arrivals(actions))
  {
    if actions != [] {
      var front, a := actions[..|actions| - 1], actions[|actions| - 1];
      assert actions == front + [a];
      RunTopic(q, from, front);
      ArrivalsStep(front, a);
      TopicStep(q, Exec(q, from, front), a);
      if a.Produce? {
        GrownStep(from, Arrivals(front), Arrival(a.partition, a.raw));
      }
    }
  }

  // ---- A run that keeps up with timely arrivals stays in step ----

  lemma EventStays(topic: Topic, more: Topic, p: nat, i: nat, e: Event)
    requires Extends(topic, more) && p < |topic| && i < |topic[p]|
    ensures EventAt(topic, p, i, e) <==> EventAt(more, p, i, e)
  {
    assert topic[p] <= more[p];
  }

  lemma OvertakingStays(topic: Topic, more: Topic, start: Offsets, e: Event)
    requires Extends(topic, more) && Fits(topic, start)
    ensures NotOvertaken(topic, start, e) <==> NotOvertaken(more, start, e)
  {
    forall r: nat, j: nat, f: Event | r < |start| && j < start[r]
      ensures EventAt(topic, r, j, f) <==> EventAt(more, r, j, f)
    {
      EventStays(topic, more, r, j, f);
    }
  }

  lemma OnTimeStays(topic: Topic, more: Topic, start: Offsets, end: Offsets)
    requires Extends(topic, more) && Fits(topic, start) && Fits(topic, end)
    ensures OnTimeFrom(topic, start, end) ==> OnTimeFrom(more, start, end)
  {
    if OnTimeFrom(topic, start, end) {
      forall p: nat, i: nat, e: Event |
        EventAt(more, p, i, e) && p < |start| && p < |end| && start[p] <= i < end[p]
        ensures NotOvertaken(more, start, e)
      {
        EventStays(topic, more, p, i, e);
        OvertakingStays(topic, more, start, e);
      }
    }
  }

  lemma {:induction false} InStepStays(topic: Topic, more: Topic, plans: seq<Plan>)
    requires Extends(topic, more) && Scheduled(topic, plans) && InStep(topic, plans)
    ensures InStep(more, plans)
  {
    if plans != [] {
      InStepStays(topic, more, plans[..|plans| - 1]);
      OnTimeStays(topic, more, EndOf(topic, plans[..|plans| - 1]), plans[|plans| - 1].end);
    }
  }

  // The less was read before an event, the fewer messages can have overtaken it.
  lemma OvertakenLess(topic: Topic, start: Offsets, end: Offsets, e: Event)
    requires Range(topic, start, end) && NotOvertaken(topic, end, e)
    ensures NotOvertaken(topic, start, e)
  {
  }

  // All planned batches are in step, and a batch that reads everything from here would be too.
  ghost predicate UpToDate(s: State) {
    && Scheduled(s.topic, s.plans) && InStep(s.topic, s.plans)
    && OnTimeFrom(s.topic, EndOf(s.topic, s.plans), Lengths(s.topic))
  }

  lemma ArrivalKeepsUp(topic: Topic, start: Offsets, a: Arrival)
    requires Fits(topic, start) && OnTimeFrom(topic, start, Lengths(topic)) && InTime(topic, a)
    ensures OnTimeFrom(Appended(topic, a), start, Lengths(Appended(topic, a)))
  {
    var more, end := Appended(topic, a), Lengths(Appended(topic, a));
    if a.partition < |topic| {
      ProduceExtends(topic, a.partition, a.raw);
      forall p: nat, i: nat, e: Event |
        EventAt(more, p, i, e) && p < |start| && p < |end| && start[p] <= i < end[p]
        ensures NotOvertaken(more, start, e)
      {
        if i < |topic[p]| {
          EventStays(topic, more, p, i, e);
        } else {
          OvertakenLess(topic, start, Lengths(topic), e);
        }
        OvertakingStays(topic, more, start, e);
      }
    }
  }

  lemma ProduceStaysUpToDate(q: Query, s: State, p: nat, raw: Raw)
    requires UpToDate(s) && InTime(s.topic, Arrival(p, raw))
    ensures UpToDate(Do(q, s, Produce(p, raw)))
  {
    if p < |s.topic| {
      var more := Appended(s.topic, Arrival(p, raw));
      ProduceExtends(s.topic, p, raw);
      EndIsRange(s.topic, s.plans);
      ScheduleExtends(s.topic, more, s.plans);
      InStepStays(s.topic, more, s.plans);
      ArrivalKeepsUp(s.topic, EndOf(s.topic, s.plans), Arrival(p, raw));
    }
  }

  lemma OnTimeWithin(topic: Topic, start: Offsets, mid: Offsets, end: Offsets)
    requires Range(topic, start, mid) && Range(topic, mid, end) && OnTimeFrom(topic, start, end)
    ensures OnTimeFrom(topic, start, mid)
  {
  }

  lemma PlanStaysUpToDate(q: Query, s: State, plan: Plan)
    requires UpToDate(s) && (Enabled(s, plan) ==> OnTimeFrom(s.topic, plan.end, Lengths(s.topic)))
    ensures UpToDate(Do(q, s, PlanBatch(plan)))
  {
    if Enabled(s, plan) {
      OneMorePlan(s.topic, s.plans, plan);
      OnTimeWithin(s.topic, EndOf(s.topic, s.plans), plan.end, Lengths(s.topic));
      assert (s.plans + [plan])[..|s.plans + [plan]| - 1] == s.plans;
    }
  }

  lemma OtherStaysUpToDate(q: Query, s: State, a: Action)
    requires UpToDate(s) && !a.Produce? && !a.PlanBatch?
    ensures UpToDate(Do(q, s, a))
  {
  }

  // What a step must meet for the query to stay up to date.
  ghost predicate StaysInTime(s: State, a: Action) {
    match a
    case Produce(p, raw) => InTime(s.topic, Arrival(p, raw))
    case PlanBatch(plan) => Enabled(s, plan) ==> OnTimeFrom(s.topic, plan.end, Lengths(s.topic))
    case _ => true
  }

  lemma StepStaysUpToDate(q: Query, s: State, a: Action)
    requires UpToDate(s) && StaysInTime(s, a)
    ensures UpToDate(Do(q, s, a))
  {
    match a {
      case Produce(p, raw) => ProduceStaysUpToDate(q, s, p, raw);
      case PlanBatch(plan) => PlanStaysUpToDate(q, s, plan);
      case _ => OtherStaysUpToDate(q, s, a);
    }
  }

  lemma LastStepInTime(q: Query, from: Topic, front: seq<Action>, a: Action)
    requires Timely(from, Arrivals(front + [a])) && KeepsUp(q, from, front + [a])
    ensures Timely(from, Arrivals(front)) && KeepsUp(q, from, front) && StaysInTime(Exec(q, from, front), a)
  {
    assert (front + [a])[..|front + [a]| - 1] == front;
    ArrivalsStep(front, a);
    RunTopic(q, from, front);
    if a.Produce? {
      GrownStep(from, Arrivals(front), Arrival(a.partition, a.raw));
    }
  }

  lemma {:induction false} KeepingUpIsUpToDate(q: Query, from: Topic, actions: seq<Action>)
    requires Timely(from, Arrivals(actions)) && KeepsUp(q, from, actions)
    ensures UpToDate(Exec(q, from, actions))
  {
    if actions != [] {
      var front, a := actions[..|actions| - 1], actions[|actions| - 1];
      assert actions == front + [a];
      LastStepInTime(q, from, front, a);
      KeepingUpIsUpToDate(q, from, front);
      StepStaysUpToDate(q, Exec(q, from, front), a);
    } else {
      assert Arrivals(actions) == [];
    }
  }

  /** A query that keeps up with timely arrivals drops nothing, over any number of partitions. */
  lemma KeepingUpDropsNothing(q: Query, from: Topic, actions: seq<Action>)
    requires Timely(from, Arrivals(actions)) && KeepsUp(q, from, actions)
    ensures var s := Exec(q, from, actions);
            Scheduled(s.topic, s.plans) && InStep(s.topic, s.plans) && Dropped(s.topic, s.plans) == []
  {
    KeepingUpIsUpToDate(q, from, actions);
    InStepDropsNothing(Exec(q, from, actions).topic, Exec(q, from, actions).plans);
  }

  // ---- Untimely arrivals are lost by a run that reads all there is ----

  ghost function Produces(arrivals: seq<Arrival>): seq<Action> {
    if arrivals == [] then []
    else
      var a := arrivals[|arrivals| - 1];
      Produces(arrivals[..|arrivals| - 1]) + [Produce(a.partition, a.raw)]
  }

  lemma {:induction false} ProducesOnly(q: Query, from: Topic, arrivals: seq<Arrival>)
    ensures Arrivals(Produces(arrivals)) == arrivals && ReadsAll(q, from, Produces(arrivals))
    ensures Exec(q, from, Produces(arrivals)) == Start(Grown(from, arrivals))
  {
    if arrivals != [] {
      var front, a := arrivals[..|arrivals| - 1], arrivals[|arrivals| - 1];
      ProducesOnly(q, from, front);
      assert Produces(arrivals) == Produces(front) + [Produce(a.partition, a.raw)];
      ArrivalsStep(Produces(front), Produce(a.partition, a.raw));
      ExecStep(q, from, Produces(front), Produce(a.partition, a.raw));
      assert Produces(arrivals)[..|Produces(arrivals)| - 1] == Produces(front);
      assert arrivals == front + [a];
    }
  }

  lemma ReadsAllStep(q: Query, from: Topic, actions: seq<Action>, a: Action)
    requires ReadsAll(q, from, actions)
    requires a.PlanBatch? ==> a.plan.end == Lengths(Exec(q, from, actions).topic)
    ensures ReadsAll(q, from, actions + [a])
  {
    assert (actions + [a])[..|actions + [a]| - 1] == actions;
  }

  // Run one whole batch that reads all there is.
  lemma ReadAll(q: Query, from: Topic, actions: seq<Action>, plan: Plan) returns (more: seq<Action>)
    requires ReadsAll(q, from, actions) && plan.end == Lengths(Exec(q, from, actions).topic)
    requires var s := Exec(q, from, actions); Scheduled(s.topic, s.plans) && Enabled(s, plan)
    ensures var s, t := Exec(q, from, actions), Exec(q, from, more);
            t.topic == s.topic && t.plans == s.plans + [plan] && Idle(t)
    ensures ReadsAll(q, from, more) && Arrivals(more) == Arrivals(actions)
  {
    more := RunBatch(q, from, actions, plan);
    var rows, keys :| more == actions + [PlanBatch(plan)] + [Write(rows, keys)] + [Commit];
    StepReadsAll(q, from, actions, PlanBatch(plan));
    StepReadsAll(q, from, actions + [PlanBatch(plan)], Write(rows, keys));
    StepReadsAll(q, from, actions + [PlanBatch(plan)] + [Write(rows, keys)], Commit);
  }

  lemma StepReadsAll(q: Query, from: Topic, actions: seq<Action>, a: Action)
    requires ReadsAll(q, from, actions) && !a.Produce?
    requires a.PlanBatch? ==> a.plan.end == Lengths(Exec(q, from, actions).topic)
    ensures ReadsAll(q, from, actions + [a]) && Arrivals(actions + [a]) == Arrivals(actions)
  {
    ReadsAllStep(q, from, actions, a);
    ArrivalsStep(actions, a);
  }

  // A run that has these arrivals, reads all there is in every batch, and drops something.
  ghost predicate LosesReadingAll(q: Query, from: Topic, arrivals: seq<Arrival>, actions: seq<Action>) {
    var s := Exec(q, from, actions);
    && Arrivals(actions) == arrivals && ReadsAll(q, from, actions)
    && Scheduled(s.topic, s.plans) && Dropped(s.topic, s.plans) != []
  }

  // Plan one more batch that reads all there is and meets an event that is late for it.
  lemma PlanLosing(q: Query, from: Topic, actions: seq<Action>, plan: Plan, p: nat, i: nat, e: Event)
    requires var s := Exec(q, from, actions);
             && ReadsAll(q, from, actions) && plan.end == Lengths(s.topic)
             && Scheduled(s.topic, s.plans) && Enabled(s, plan)
             && EventAt(s.topic, p, i, e) && EndOf(s.topic, s.plans)[p] <= i && WindowEnd(e.ts) <= plan.late
    ensures LosesReadingAll(q, from, Arrivals(actions), actions + [PlanBatch(plan)])
  {
    var s := Exec(q, from, actions);
    StepReadsAll(q, from, actions, PlanBatch(plan));
    ExecStep(q, from, actions, PlanBatch(plan));
    OneMorePlan(s.topic, s.plans, plan);
    assert (s.plans + [plan])[..|s.plans + [plan]| - 1] == s.plans;
    EventIsRow(s.topic, EndOf(s.topic, s.plans), plan.end, p, i, e);
    LateEventIsDropped(s.topic, s.plans + [plan], e);
  }

  // The first batch of a query, reading all there is.
  lemma FirstReadsAll(topic: Topic)
    ensures Scheduled(topic, []) && Enabled(Start(topic), Plan(Lengths(topic), INITIAL_WATERMARK, INITIAL_WATERMARK))
  {
    SliceEmpty(topic, Zeros(|topic|));
  }

  lemma BacklogLoses(q: Query, from: Topic) returns (actions: seq<Action>)
    requires !Timely(from, [])
    ensures LosesReadingAll(q, from, [], actions)
  {
    var zero, end := Zeros(|from|), Lengths(from);
    var p: nat, i: nat, e: Event :|
      EventAt(from, p, i, e) && p < |zero| && p < |end| && zero[p] <= i < end[p] && !NotOvertaken(from, zero, e);
    FirstReadsAll(from);
    assert Exec(q, from, []) == Start(from);
    PlanLosing(q, from, [], Plan(end, INITIAL_WATERMARK, INITIAL_WATERMARK), p, i, e);
    actions := [] + [PlanBatch(Plan(end, INITIAL_WATERMARK, INITIAL_WATERMARK))];
  }

  // What was dropped stays dropped when one more message arrives.
  lemma StillLoses(q: Query, from: Topic, arrivals: seq<Arrival>, actions: seq<Action>, a: Arrival)
    requires LosesReadingAll(q, from, arrivals, actions)
    ensures LosesReadingAll(q, from, arrivals + [a], actions + [Produce(a.partition, a.raw)])
  {
    var s, x := Exec(q, from, actions), Produce(a.partition, a.raw);
    ReadsAllStep(q, from, actions, x);
    ArrivalsStep(actions, x);
    ExecStep(q, from, actions, x);
    if a.partition < |s.topic| {
      ProduceExtends(s.topic, a.partition, a.raw);
      ScheduleExtends(s.topic, Do(q, s, x).topic, s.plans);
    }
  }

  // All that came before, read and committed as one batch.
  lemma ReadBacklog(q: Query, from: Topic, arrivals: seq<Arrival>) returns (actions: seq<Action>)
    ensures var s, topic := Exec(q, from, actions), Grown(from, arrivals);
            && s.topic == topic && Idle(s)
            && s.plans == [Plan(Lengths(topic), INITIAL_WATERMARK, INITIAL_WATERMARK)]
            && Scheduled(topic, s.plans) && Range(topic, Zeros(|topic|), Lengths(topic))
    ensures ReadsAll(q, from, actions) && Arrivals(actions) == arrivals
  {
    var topic := Grown(from, arrivals);
    var plan := Plan(Lengths(topic), INITIAL_WATERMARK, INITIAL_WATERMARK);
    ProducesOnly(q, from, arrivals);
    FirstReadsAll(topic);
    actions := ReadAll(q, from, Produces(arrivals), plan);
    OneMorePlan(topic, [], plan);
    assert [] + [plan] == [plan];
  }

  // A late arrival after one batch that read all there was, in the state it leaves.
  lemma ArrivalIsLate(q: Query, from: Topic, before: seq<Action>, topic: Topic, a: Arrival, w: int)
    requires var s := Exec(q, from, before);
             && s.topic == topic && Idle(s) && Scheduled(topic, s.plans) && Range(topic, Zeros(|topic|), Lengths(topic))
             && s.plans == [Plan(Lengths(topic), INITIAL_WATERMARK, INITIAL_WATERMARK)]
             && w == Watermark(Rows(topic, Zeros(|topic|), Lengths(topic)))
    requires ReadsAll(q, from, before)
    requires a.partition < |topic| && ParsedRow(a.raw).Some? && WindowEnd(ParsedRow(a.raw).value.ts) <= w
    ensures var plan := Plan(Lengths(Appended(topic, a)), w, w);
            LosesReadingAll(q, from, Arrivals(before) + [a],
                            before + [Produce(a.partition, a.raw)] + [PlanBatch(plan)])
  {
    var x, more, i := Produce(a.partition, a.raw), Appended(topic, a), |topic[a.partition]|;
    ReadsAllStep(q, from, before, x);
    ArrivalsStep(before, x);
    ExecStep(q, from, before, x);
    ArrivalFollows(topic, a, Exec(q, from, before).plans, w);
    PlanLosing(q, from, before + [x], Plan(Lengths(more), w, w), a.partition, i, ParsedRow(a.raw).value);
  }

  lemma LateArrivalLoses(q: Query, from: Topic, arrivals: seq<Arrival>, a: Arrival) returns (actions: seq<Action>)
    requires !InTime(Grown(from, arrivals), a)
    ensures LosesReadingAll(q, from, arrivals + [a], actions)
  {
    var topic := Grown(from, arrivals);
    var before := ReadBacklog(q, from, arrivals);
    var w := Watermark(Rows(topic, Zeros(|topic|), Lengths(topic)));
    AheadOfWatermark(topic, Lengths(topic), ParsedRow(a.raw).value);
    ArrivalIsLate(q, from, before, topic, a, w);
    actions := before + [Produce(a.partition, a.raw)] + [PlanBatch(Plan(Lengths(Appended(topic, a)), w, w))];
  }

  // After one batch that read all there was, the next may run with the watermark of what it read.
  lemma ArrivalFollows(topic: Topic, a: Arrival, plans: seq<Plan>, w: int)
    requires a.partition < |topic| && plans == [Plan(Lengths(topic), INITIAL_WATERMARK, INITIAL_WATERMARK)]
    requires Scheduled(topic, plans) && Range(topic, Zeros(|topic|), Lengths(topic))
    requires w == Watermark(Rows(topic, Zeros(|topic|), Lengths(topic)))
    ensures var more := Appended(topic, a);
            Scheduled(more, plans) && CanFollow(more, plans, Plan(Lengths(more), w, w))
  {
    var more := Appended(topic, a);
    ProduceExtends(topic, a.partition, a.raw);
    ScheduleExtends(topic, more, plans);
    SliceExtends(topic, more, Zeros(|topic|), Lengths(topic));
    WatermarkSource(Rows(topic, Zeros(|topic|), Lengths(topic)));
  }

  lemma {:induction false} UntimelyLoses(q: Query, from: Topic, arrivals: seq<Arrival>) returns (actions: seq<Action>)
    requires !Timely(from, arrivals)
    ensures LosesReadingAll(q, from, arrivals, actions)
  {
    if arrivals == [] {
      actions := BacklogLoses(q, from);
    } else {
      var front, a := arrivals[..|arrivals| - 1], arrivals[|arrivals| - 1];
      assert arrivals == front + [a];
      if Timely(from, front) {
        actions := LateArrivalLoses(q, from, front, a);
      } else {
        var before := UntimelyLoses(q, from, front);
        StillLoses(q, from, front, before, a);
        actions := before + [Produce(a.partition, a.raw)];
      }
    }
  }

  /**
   For a given order of arrival, no run whose batches read all there is drops anything, wherever the
   batches fall and whatever crashes, exactly when every message arrives in time.
   */
  lemma NoLossIffTimely(q: Query, from: Topic, arrivals: seq<Arrival>)
    ensures Timely(from, arrivals) <==> forall actions :: !LosesReadingAll(q, from, arrivals, actions)
  {
    if Timely(from, arrivals) {
      forall actions ensures !LosesReadingAll(q, from, arrivals, actions) {
        if Arrivals(actions) == arrivals && ReadsAll(q, from, actions) {
          ReadingAllKeepsUp(q, from, actions);
          KeepingUpDropsNothing(q, from, actions);
        }
      }
    } else {
      var actions := UntimelyLoses(q, from, arrivals);
    }
  }

  // ---- The condition in terms of the order of arrival alone ----

  function Empty(parts: nat): Topic { seq(parts, p => []) }

  // Event e is the one that arrived as number a, in one of the partitions there are.
  ghost predicate Arrived(parts: nat, arrivals: seq<Arrival>, a: nat, e: Event) {
    a < |arrivals| && arrivals[a].partition < parts && ParsedRow(arrivals[a].raw) == Some(e)
  }

  // The minute of e ended after 1970 began, and none of the first n messages that arrived lies more than
  // two minutes beyond its end, whichever partitions they are in.
  ghost predicate Ahead(parts: nat, arrivals: seq<Arrival>, n: nat, e: Event) {
    && (e.ts / 60 + 1) * 60 > 0
    && forall a: nat, f: Event :: a < n && Arrived(parts, arrivals, a, f) ==> (e.ts / 60 + 1) * 60 > f.ts - 120
  }

  ghost predicate InOrder(parts: nat, arrivals: seq<Arrival>) {
    forall b: nat, e: Event :: Arrived(parts, arrivals, b, e) ==> Ahead(parts, arrivals, b, e)
  }

  lemma {:induction false} GrownSource(parts: nat, arrivals: seq<Arrival>, p: nat, i: nat) returns (a: nat)
    requires p < |Grown(Empty(parts), arrivals)| && i < |Grown(Empty(parts), arrivals)[p]|
    ensures p < parts && a < |arrivals| && arrivals[a] == Arrival(p, Grown(Empty(parts), arrivals)[p][i])
  {
    GrownExtends(Empty(parts), arrivals);
    var n := |arrivals| - 1;
    GrownExtends(Empty(parts), arrivals[..n]);
    if i < |Grown(Empty(parts), arrivals[..n])[p]| {
      a := GrownSource(parts, arrivals[..n], p, i);
    } else {
      a := n;
    }
  }

  lemma {:induction false} GrownMember(parts: nat, arrivals: seq<Arrival>, a: nat) returns (i: nat)
    requires a < |arrivals| && arrivals[a].partition < parts
    ensures var topic, p := Grown(Empty(parts), arrivals), arrivals[a].partition;
            p < |topic| && i < |topic[p]| && topic[p][i] == arrivals[a].raw
  {
    var n := |arrivals| - 1;
    GrownExtends(Empty(parts), arrivals[..n]);
    if a < n {
      i := GrownMember(parts, arrivals[..n], a);
    } else {
      i := |Grown(Empty(parts), arrivals[..n])[arrivals[a].partition]|;
    }
  }

  lemma InTimeIff(parts: nat, arrivals: seq<Arrival>, x: Arrival, e: Event)
    requires x.partition < parts && ParsedRow(x.raw) == Some(e)
    ensures InTime(Grown(Empty(parts), arrivals), x) <==> Ahead(parts, arrivals, |arrivals|, e)
  {
    var topic := Grown(Empty(parts), arrivals);
    GrownExtends(Empty(parts), arrivals);
    if NotOvertaken(topic, Lengths(topic), e) {
      forall a: nat, f: Event | Arrived(parts, arrivals, a, f) ensures (e.ts / 60 + 1) * 60 > f.ts - 120 {
        var i := GrownMember(parts, arrivals, a);
        assert EventAt(topic, arrivals[a].partition, i, f);
      }
    } else if r: nat, j: nat, f: Event :|
      EventAt(topic, r, j, f) && r < |topic| && j < Lengths(topic)[r] && WindowEnd(e.ts) <= f.ts - WATERMARK_SECONDS {
      var a := GrownSource(parts, arrivals, r, j);
      assert Arrived(parts, arrivals, a, f);
    }
  }

  lemma NothingBacklogged(parts: nat)
    ensures Timely(Empty(parts), [])
  {
  }

  /** On a topic that starts empty, arrivals are timely exactly when none comes after one that overtakes it. */
  lemma {:induction false} TimelyIffInOrder(parts: nat, arrivals: seq<Arrival>)
    ensures Timely(Empty(parts), arrivals) <==> InOrder(parts, arrivals)
  {
    if arrivals == [] {
      NothingBacklogged(parts);
    } else {
      var front, x := arrivals[..|arrivals| - 1], arrivals[|arrivals| - 1];
      assert arrivals == front + [x];
      TimelyIffInOrder(parts, front);
      GrownExtends(Empty(parts), front);
      if x.partition < parts && ParsedRow(x.raw).Some? {
        InTimeIff(parts, front, x, ParsedRow(x.raw).value);
      }
      InOrderStep(parts, front, x);
    }
  }

  lemma AheadStays(parts: nat, front: seq<Arrival>, x: Arrival, n: nat, e: Event)
    requires n <= |front|
    ensures Ahead(parts, front + [x], n, e) <==> Ahead(parts, front, n, e)
  {
    var all := front + [x];
    forall a: nat, f: Event | a < n ensures Arrived(parts, all, a, f) <==> Arrived(parts, front, a, f) {
      assert all[a] == front[a];
    }
  }

  lemma InOrderStep(parts: nat, front: seq<Arrival>, x: Arrival)
    ensures InOrder(parts, front + [x]) <==>
            && InOrder(parts, front)
            && (x.partition < parts && ParsedRow(x.raw).Some? ==>
                  Ahead(parts, front, |front|, ParsedRow(x.raw).value))
  {
    var all := front + [x];
    forall b: nat, e: Event | b < |front|
      ensures Arrived(parts, all, b, e) <==> Arrived(parts, front, b, e)
      ensures Ahead(parts, all, b, e) <==> Ahead(parts, front, b, e)
    {
      assert all[b] == front[b];
      AheadStays(parts, front, x, b, e);
    }
    if x.partition < parts && ParsedRow(x.raw).Some? {
      assert Arrived(parts, all, |front|, ParsedRow(x.raw).value);
      AheadStays(parts, front, x, |front|, ParsedRow(x.raw).value);
    }
    assert all[|front|] == x;
  }

  // ---- What has arrived in all ----

  function RawsOf(arrivals: seq<Arrival>): (raws: seq<Raw>)
    ensures |raws| == |arrivals| && forall a :: 0 <= a < |arrivals| ==> raws[a] == arrivals[a].raw
  {
    seq(|arrivals|, a requires 0 <= a < |arrivals| => arrivals[a].raw)
  }

  // One more message in one partition is one more message in the slice.
  lemma {:induction false} SliceOne(topic: Topic, at: Offsets, p: nat)
    requires Fits(topic, at) && p < |topic| && at[p] < |topic[p]|
    ensures Range(topic, at, at[p := at[p] + 1]) && Slice(topic, at, at[p := at[p] + 1]) == [topic[p][at[p]]]
  {
    var n, next := |topic| - 1, at[p := at[p] + 1];
    if p < n {
      SliceOne(topic[..n], at[..n], p);
      assert next[..n] == at[..n][p := at[p] + 1];
      assert topic[n][at[n]..next[n]] == [];
    } else {
      assert next[..n] == at[..n];
      SliceEmpty(topic[..n], at[..n]);
      assert topic[n][at[n]..next[n]] == [topic[p][at[p]]];
    }
  }

  lemma LengthsAppended(topic: Topic, a: Arrival)
    requires a.partition < |topic|
    ensures var before := Lengths(topic);
            Lengths(Appended(topic, a)) == before[a.partition := before[a.partition] + 1]
  {
  }

  // The appended message alone, between the old end and the new one.
  lemma AppendedRow(topic: Topic, a: Arrival)
    requires a.partition < |topic|
    ensures var more := Appended(topic, a);
            Range(more, Lengths(topic), Lengths(more)) && Rows(more, Lengths(topic), Lengths(more)) == EventsOf([a.raw])
  {
    LengthsAppended(topic, a);
    SliceOne(Appended(topic, a), Lengths(topic), a.partition);
  }

  lemma RowsAppended(topic: Topic, a: Arrival)
    requires a.partition < |topic|
    ensures var more := Appended(topic, a);
            && Range(topic, Zeros(|topic|), Lengths(topic)) && Range(more, Zeros(|topic|), Lengths(more))
            && multiset(Rows(more, Zeros(|topic|), Lengths(more))) ==
               multiset(Rows(topic, Zeros(|topic|), Lengths(topic))) + multiset(EventsOf([a.raw]))
  {
    var more, zero, before := Appended(topic, a), Zeros(|topic|), Lengths(topic);
    ProduceExtends(topic, a.partition, a.raw);
    SliceExtends(topic, more, zero, before);
    AppendedRow(topic, a);
    RowsSplit(more, zero, before, Lengths(more));
  }

  // All rows of a topic that started empty are those of the messages that arrived.
  lemma {:induction false} GrownRows(parts: nat, arrivals: seq<Arrival>)
    requires forall a :: 0 <= a < |arrivals| ==> arrivals[a].partition < parts
    ensures var topic := Grown(Empty(parts), arrivals);
            && |topic| == parts && Range(topic, Zeros(parts), Lengths(topic))
            && multiset(Rows(topic, Zeros(parts), Lengths(topic))) == multiset(EventsOf(RawsOf(arrivals)))
  {
    GrownExtends(Empty(parts), arrivals);
    if arrivals == [] {
      assert Lengths(Empty(parts)) == Zeros(parts);
      SliceEmpty(Empty(parts), Zeros(parts));
      assert RawsOf(arrivals) == [];
    } else {
      var front, x := arrivals[..|arrivals| - 1], arrivals[|arrivals| - 1];
      GrownRows(parts, front);
      RowsAppended(Grown(Empty(parts), front), x);
      assert RawsOf(arrivals) == RawsOf(front) + [x.raw];
      EventsOfConcat(RawsOf(front), [x.raw]);
    }
  }

  /**
   A query that keeps up with messages arriving in order, in any partitions, has counted exactly what
   arrived once it has read all of it.
   */
  lemma LiveTableCountsArrivals(q: Query, parts: nat, actions: seq<Action>)
    requires InOrder(parts, Arrivals(actions)) && KeepsUp(q, Empty(parts), actions)
    requires forall a :: 0 <= a < |Arrivals(actions)| ==> Arrivals(actions)[a].partition < parts
    requires var s := Exec(q, Empty(parts), actions); Idle(s) && EndOf(s.topic, s.plans) == Lengths(s.topic)
    ensures Exec(q, Empty(parts), actions).table == EmitAll(GroupBy(q, EventsOf(RawsOf(Arrivals(actions)))))
  {
    var arrivals := Arrivals(actions);
    TimelyIffInOrder(parts, arrivals);
    KeepingUpDropsNothing(q, Empty(parts), actions);
    BatchingIsInvisible(q, Empty(parts), actions);
    RunTopic(q, Empty(parts), actions);
    GrownRows(parts, arrivals);
    var topic := Grown(Empty(parts), arrivals);
    AbsorbPermutation(q, map[], Rows(topic, Zeros(parts), Lengths(topic)), EventsOf(RawsOf(arrivals)));
  }
}
