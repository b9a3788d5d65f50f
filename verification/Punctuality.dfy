/**
 The exact condition on a topic alone under which no schedule at all drops an event, so that every
 one of them, with every crash and replay, leaves the one-shot GROUP BY of what it consumed.
 */
module Punctuality {
  import opened Aggregates
  import opened Clicks
  import opened Delivery
  import opened Lateness
  import opened Log
  import opened Stream
  import opened Wrappers

  // A message at (r, j) can be read in an earlier batch than one at (p, i).
  predicate MayPrecede(r: nat, j: nat, p: nat, i: nat) { r != p || j < i }

  // No event's window has ended by the watermark that some possible earlier reading would set.
  ghost predicate Punctual(topic: Topic) {
    && (forall p: nat, i: nat, e: Event :: EventAt(topic, p, i, e) ==> WindowEnd(e.ts) > INITIAL_WATERMARK)
    && (forall p: nat, i: nat, e: Event, r: nat, j: nat, f: Event ::
          EventAt(topic, p, i, e) && EventAt(topic, r, j, f) && MayPrecede(r, j, p, i) ==>
          WindowEnd(e.ts) > f.ts - WATERMARK_SECONDS)
  }

  // ---- A punctual topic drops nothing ----

  /** On a punctual topic every schedule is in step. */
  lemma {:induction false} PunctualIsInStep(topic: Topic, plans: seq<Plan>)
    requires Punctual(topic) && Scheduled(topic, plans)
    ensures InStep(topic, plans)
  {
    if plans != [] {
      var front := plans[..|plans| - 1];
      PunctualIsInStep(topic, front);
      PunctualFrom(topic, EndOf(topic, front), plans[|plans| - 1].end);
    }
  }

  lemma PunctualFrom(topic: Topic, start: Offsets, end: Offsets)
    requires Punctual(topic)
    ensures OnTimeFrom(topic, start, end)
  {
    forall p: nat, i: nat, e: Event |
      EventAt(topic, p, i, e) && p < |start| && p < |end| && start[p] <= i < end[p]
      ensures NotOvertaken(topic, start, e)
    {
      forall r: nat, j: nat, f: Event | EventAt(topic, r, j, f) && r < |start| && j < start[r]
        ensures WindowEnd(e.ts) > f.ts - WATERMARK_SECONDS
      {
        assert MayPrecede(r, j, p, i);
      }
    }
  }

  lemma PunctualDropsNothing(topic: Topic, plans: seq<Plan>)
    requires Punctual(topic) && Scheduled(topic, plans)
    ensures Dropped(topic, plans) == []
  {
    PunctualIsInStep(topic, plans);
    InStepDropsNothing(topic, plans);
  }

  // ---- A topic that is not punctual loses an event under some schedule ----

  lemma WholeWriteIsWritten(q: Query, s: State, write: Action)
    requires InFlight(s)
    requires write == Write(Arriving(s), Output(q, s.store, Arriving(s)).Keys)
    ensures var t := Do(q, s, write);
            t.written && t.topic == s.topic && t.plans == s.plans && t.commits == s.commits
  {
  }

  lemma CommitAdvances(q: Query, s: State)
    requires InFlight(s) && s.written
    ensures var t := Do(q, s, Commit); t.topic == s.topic && t.plans == s.plans && t.commits == s.commits + 1
  {
  }

  // Writing all of a planned batch and committing it makes the query idle again.
  lemma WriteAndCommit(q: Query, s: State, write: Action)
    requires InFlight(s)
    requires write == Write(Arriving(s), Output(q, s.store, Arriving(s)).Keys)
    ensures var t := Do(q, Do(q, s, write), Commit);
            t.topic == s.topic && t.plans == s.plans && t.commits == s.commits + 1
  {
    WholeWriteIsWritten(q, s, write);
    CommitAdvances(q, Do(q, s, write));
  }

  lemma PlanIsInFlight(q: Query, s: State, plan: Plan)
    requires Idle(s) && Scheduled(s.topic, s.plans) && CanFollow(s.topic, s.plans, plan)
    ensures var t := Do(q, s, PlanBatch(plan));
            InFlight(t) && t.topic == s.topic && t.plans == s.plans + [plan] && t.commits == s.commits
  {
    assert (s.plans + [plan])[..|s.plans|] == s.plans;
  }

  // Run one whole batch from an idle state: plan it, write all of it, commit it.
  lemma RunBatch(q: Query, topic: Topic, actions: seq<Action>, plan: Plan) returns (more: seq<Action>)
    requires var s := Exec(q, topic, actions);
             Idle(s) && Scheduled(s.topic, s.plans) && CanFollow(s.topic, s.plans, plan)
    ensures var s, t := Exec(q, topic, actions), Exec(q, topic, more);
            t.topic == s.topic && t.plans == s.plans + [plan] && Idle(t)
    ensures exists rows, keys :: more == actions + [PlanBatch(plan)] + [Write(rows, keys)] + [Commit]
  {
    var s := Exec(q, topic, actions);
    PlanIsInFlight(q, s, plan);
    ExecStep(q, topic, actions, PlanBatch(plan));
    var a1 := actions + [PlanBatch(plan)];
    var s1 := Exec(q, topic, a1);
    var write := Write(Arriving(s1), Output(q, s1.store, Arriving(s1)).Keys);
    WriteAndCommit(q, s1, write);
    ExecStep(q, topic, a1, write);
    ExecStep(q, topic, a1 + [write], Commit);
    more := a1 + [write] + [Commit];
  }

  // Offsets that stop just after message i of partition p, and at `base` elsewhere.
  function UpTo(base: Offsets, p: nat, i: nat): Offsets
    requires p < |base|
  {
    base[p := i + 1]
  }

  // A run that started on some topic, whatever arrived on the way, and has consumed a prefix of this one.
  ghost predicate RunsTo(q: Query, from: Topic, topic: Topic, actions: seq<Action>) {
    var s := Exec(q, from, actions);
    s.topic == topic && Idle(s) && Scheduled(topic, s.plans)
  }

  // A run during which nothing arrives.
  ghost predicate Consumes(q: Query, topic: Topic, actions: seq<Action>) { RunsTo(q, topic, topic, actions) }

  // A batch that reads an event whose window ends by the batch's late watermark drops it.
  lemma DropInBatch(q: Query, topic: Topic, actions: seq<Action>, plan: Plan, p: nat, i: nat, e: Event)
    returns (more: seq<Action>)
    requires Consumes(q, topic, actions) && CanFollow(topic, Exec(q, topic, actions).plans, plan)
    requires EventAt(topic, p, i, e) && WindowEnd(e.ts) <= plan.late
    requires EndOf(topic, Exec(q, topic, actions).plans)[p] <= i < plan.end[p]
    ensures Consumes(q, topic, more) && Exec(q, topic, more).plans == Exec(q, topic, actions).plans + [plan]
    ensures e in Dropped(topic, Exec(q, topic, more).plans)
  {
    var before := Exec(q, topic, actions).plans;
    more := RunBatch(q, topic, actions, plan);
    assert (before + [plan])[..|before + [plan]| - 1] == before;
    EventIsRow(topic, EndOf(topic, before), plan.end, p, i, e);
    LateEventIsDropped(topic, before + [plan], e);
  }

  lemma FirstBatch(q: Query, topic: Topic, p: nat, i: nat)
    requires p < |topic| && i < |topic[p]|
    ensures Consumes(q, topic, [])
    ensures CanFollow(topic, [], Plan(UpTo(Zeros(|topic|), p, i), INITIAL_WATERMARK, INITIAL_WATERMARK))
  {
    SliceEmpty(topic, Zeros(|topic|));
  }

  // One batch that read up to message j of partition r, and the watermark the next batch may use.
  ghost predicate ReadUpTo(topic: Topic, plans: seq<Plan>, r: nat, j: nat, f: Event) {
    && r < |topic| && EndOf(topic, plans) == UpTo(Zeros(|topic|), r, j)
    && Range(topic, Zeros(|topic|), EndOf(topic, plans))
    && EvictOf(plans) <= Watermark(Rows(topic, Zeros(|topic|), EndOf(topic, plans)))
    && f.ts - WATERMARK_SECONDS <= Watermark(Rows(topic, Zeros(|topic|), EndOf(topic, plans)))
  }

  lemma OnePlanReads(topic: Topic, r: nat, j: nat, f: Event)
    requires EventAt(topic, r, j, f)
    ensures ReadUpTo(topic, [Plan(UpTo(Zeros(|topic|), r, j), INITIAL_WATERMARK, INITIAL_WATERMARK)], r, j, f)
  {
    var zero, end := Zeros(|topic|), UpTo(Zeros(|topic|), r, j);
    EventIsRow(topic, zero, end, r, j, f);
    WatermarkSource(Rows(topic, zero, end));
  }

  lemma ReadFirst(q: Query, topic: Topic, r: nat, j: nat, f: Event) returns (actions: seq<Action>)
    requires EventAt(topic, r, j, f)
    ensures Consumes(q, topic, actions) && ReadUpTo(topic, Exec(q, topic, actions).plans, r, j, f)
  {
    var plan := Plan(UpTo(Zeros(|topic|), r, j), INITIAL_WATERMARK, INITIAL_WATERMARK);
    FirstBatch(q, topic, r, j);
    actions := RunBatch(q, topic, [], plan);
    assert [plan][..0] == [];
    OnePlanReads(topic, r, j, f);
  }

  lemma LosingRun(q: Query, topic: Topic) returns (actions: seq<Action>, e: Event)
    requires !Punctual(topic)
    ensures Consumes(q, topic, actions) && e in Dropped(topic, Exec(q, topic, actions).plans)
  {
    if p: nat, i: nat, x: Event :| EventAt(topic, p, i, x) && WindowEnd(x.ts) <= INITIAL_WATERMARK {
      e := x;
      FirstBatch(q, topic, p, i);
      var plan := Plan(UpTo(Zeros(|topic|), p, i), INITIAL_WATERMARK, INITIAL_WATERMARK);
      actions := DropInBatch(q, topic, [], plan, p, i, e);
    } else {
      var p: nat, i: nat, x: Event, r: nat, j: nat, f: Event :|
        EventAt(topic, p, i, x) && EventAt(topic, r, j, f) && MayPrecede(r, j, p, i) &&
        WindowEnd(x.ts) <= f.ts - WATERMARK_SECONDS;
      e := x;
      actions := LosingRunOvertaken(q, topic, p, i, e, r, j, f);
    }
  }

  // The plan that reads on up to message i of partition p, with the watermark read so far.
  ghost function Overtaking(topic: Topic, plans: seq<Plan>, p: nat, i: nat): Plan
    requires Range(topic, Zeros(|topic|), EndOf(topic, plans)) && p < |topic|
  {
    var w := Watermark(Rows(topic, Zeros(|topic|), EndOf(topic, plans)));
    Plan(UpTo(EndOf(topic, plans), p, i), w, w)
  }

  lemma OvertakingFollows(topic: Topic, plans: seq<Plan>, p: nat, i: nat, e: Event, r: nat, j: nat, f: Event)
    requires ReadUpTo(topic, plans, r, j, f) && EventAt(topic, p, i, e) && MayPrecede(r, j, p, i)
    ensures CanFollow(topic, plans, Overtaking(topic, plans, p, i)) && EndOf(topic, plans)[p] <= i
    ensures f.ts - WATERMARK_SECONDS <= Overtaking(topic, plans, p, i).late
  {
  }

  // After a batch that read up to message (r, j) came one that runs with at least its watermark.
  ghost predicate ReadAfter(topic: Topic, plans: seq<Plan>, r: nat, j: nat, f: Event) {
    && plans != [] && ReadUpTo(topic, plans[..|plans| - 1], r, j, f)
    && f.ts - WATERMARK_SECONDS <= plans[|plans| - 1].late
  }

  // An event whose window ends by the watermark of another message that may be read first.
  lemma LosingRunOvertaken(q: Query, topic: Topic, p: nat, i: nat, e: Event, r: nat, j: nat, f: Event)
    returns (actions: seq<Action>)
    requires EventAt(topic, p, i, e) && EventAt(topic, r, j, f) && MayPrecede(r, j, p, i)
    requires WindowEnd(e.ts) <= f.ts - WATERMARK_SECONDS
    ensures Consumes(q, topic, actions) && e in Dropped(topic, Exec(q, topic, actions).plans)
    ensures ReadAfter(topic, Exec(q, topic, actions).plans, r, j, f)
  {
    var first := ReadFirst(q, topic, r, j, f);
    var plans := Exec(q, topic, first).plans;
    OvertakingFollows(topic, plans, p, i, e, r, j, f);
    actions := DropInBatch(q, topic, first, Overtaking(topic, plans, p, i), p, i, e);
    assert (plans + [Overtaking(topic, plans, p, i)])[..|plans|] == plans;
  }

  /** No run, with or without arrivals on the way, loses an event exactly when the topic it ends with is punctual. */
  lemma NoLossIffPunctual(q: Query, topic: Topic)
    ensures Punctual(topic) <==>
            forall from, actions ::
              RunsTo(q, from, topic, actions) ==> Dropped(topic, Exec(q, from, actions).plans) == []
  {
    if Punctual(topic) {
      forall from, actions | RunsTo(q, from, topic, actions)
        ensures Dropped(topic, Exec(q, from, actions).plans) == []
      {
        PunctualDropsNothing(topic, Exec(q, from, actions).plans);
      }
    } else {
      var actions, e := LosingRun(q, topic);
      assert RunsTo(q, topic, topic, actions);
    }
  }

  // ---- For campaign_stats_1m a lost event always shows in the table ----

  ghost predicate OnlyCampaigns(m: Groups) { forall k :: k in m ==> m[k].CampaignBuffer? }

  ghost function EventsIn(m: Groups, k: Key): nat
    requires OnlyCampaigns(m)
  {
    if k in m then m[k].events else 0
  }

  lemma {:induction false} AbsorbCounts(m: Groups, s: seq<Event>, k: Key)
    requires OnlyCampaigns(m)
    ensures OnlyCampaigns(Absorb(CampaignStats, m, s))
    ensures EventsIn(m, k) <= EventsIn(Absorb(CampaignStats, m, s), k)
    ensures k in Touched(CampaignStats, s) ==> EventsIn(m, k) < EventsIn(Absorb(CampaignStats, m, s), k)
  {
    if s != [] {
      AbsorbCounts(m, s[..|s| - 1], k);
      assert s == s[..|s| - 1] + [s[|s| - 1]];
    }
  }

  lemma LossShows(topic: Topic, plans: seq<Plan>, e: Event)
    requires Scheduled(topic, plans) && e in Dropped(topic, plans)
    ensures Range(topic, Zeros(|topic|), EndOf(topic, plans))
    ensures EmitAll(GroupBy(CampaignStats, Accepted(topic, plans))) !=
            OneShot(CampaignStats, topic, EndOf(topic, plans))
  {
    var kept, lost := Accepted(topic, plans), Dropped(topic, plans);
    var m, k := GroupBy(CampaignStats, kept), KeyOf(CampaignStats, e);
    ConsumedIsAcceptedOrDropped(topic, plans);
    var all := Rows(topic, Zeros(|topic|), EndOf(topic, plans));
    AbsorbPermutation(CampaignStats, map[], all, kept + lost);
    AbsorbConcat(CampaignStats, map[], kept, lost);
    AbsorbCounts(map[], kept, k);
    AbsorbCounts(m, lost, k);
    CountShows(m, GroupBy(CampaignStats, all), k);
  }

  lemma CountShows(a: Groups, b: Groups, k: Key)
    requires OnlyCampaigns(a) && OnlyCampaigns(b) && EventsIn(a, k) < EventsIn(b, k)
    ensures EmitAll(a) != EmitAll(b)
  {
    assert k in EmitAll(b) && EmitAll(b)[k].events == EventsIn(b, k);
    if k in EmitAll(a) {
      assert EmitAll(a)[k].events == EventsIn(a, k);
    }
  }

  ghost predicate IsOneShot(q: Query, topic: Topic, s: State) {
    && Range(topic, Zeros(|topic|), EndOf(topic, s.plans))
    && s.table == OneShot(q, topic, EndOf(topic, s.plans))
  }

  /**
   campaign_stats_1m is the one-shot GROUP BY under every schedule, with or without arrivals on the
   way, exactly when the topic is punctual.
   */
  lemma OneShotIffPunctual(topic: Topic)
    ensures Punctual(topic) <==>
            forall from, actions :: RunsTo(CampaignStats, from, topic, actions) ==>
                                      IsOneShot(CampaignStats, topic, Exec(CampaignStats, from, actions))
  {
    if Punctual(topic) {
      forall from, actions | RunsTo(CampaignStats, from, topic, actions)
        ensures IsOneShot(CampaignStats, topic, Exec(CampaignStats, from, actions))
      {
        PunctualIsInStep(topic, Exec(CampaignStats, from, actions).plans);
        BatchingIsInvisible(CampaignStats, from, actions);
      }
    } else {
      var actions, e := LosingRun(CampaignStats, topic);
      TableIsAccepted(CampaignStats, topic, actions);
      LossShows(topic, Exec(CampaignStats, topic, actions).plans, e);
      assert RunsTo(CampaignStats, topic, topic, actions);
    }
  }
}
