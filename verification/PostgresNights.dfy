/**
 The nightly rollup beside the running query, on the Postgres tables themselves: rollups happen at
 any moment between the engine's steps and the upsert attempts.
 */
module PostgresNights {
  import opened Aggregates
  import opened DailyRollup
  import opened Log
  import opened PostgresSink
  import opened Sinks
  import opened Stream

  datatype Occurrence = Sink(action: PgAction) | RunRollup

  datatype Nights = Nights(pg: PgState, daily: map<DayKey, DayRow>)

  ghost function RunNights(topic: Topic, zone: int, xs: seq<Occurrence>): Nights {
    if xs == [] then Nights(PgRun(PageViews, topic, []), map[])
    else
      var n := RunNights(topic, zone, xs[..|xs| - 1]);
      match xs[|xs| - 1]
      case Sink(x) => n.(pg := PgDo(PageViews, n.pg, x))
      case RunRollup => n.(daily := n.daily + Daily(n.pg.db.table, zone))
  }

  // The upsert run without the rollups, and the query's run with them.
  function SinkActions(xs: seq<Occurrence>): seq<PgAction> {
    if xs == [] then []
    else SinkActions(xs[..|xs| - 1]) +
         match xs[|xs| - 1] case Sink(x) => [x] case RunRollup => []
  }

  function AsSteps(actions: seq<Action>): seq<Step> {
    if actions == [] then [] else [Streaming(actions[0])]
  }

  ghost function NightSteps(topic: Topic, xs: seq<Occurrence>): seq<Step> {
    if xs == [] then []
    else
      var front := xs[..|xs| - 1];
      NightSteps(topic, front) +
      match xs[|xs| - 1]
      case Sink(x) => AsSteps(PgStep(PageViews, PgRun(PageViews, topic, SinkActions(front)), x))
      case RunRollup => [Rollup]
  }

  lemma PgRunMore(topic: Topic, xs: seq<PgAction>, x: PgAction)
    ensures PgRun(PageViews, topic, xs + [x]) == PgDo(PageViews, PgRun(PageViews, topic, xs), x)
    ensures PgSteps(PageViews, topic, xs + [x]) ==
            PgSteps(PageViews, topic, xs) + PgStep(PageViews, PgRun(PageViews, topic, xs), x)
  {
    assert (xs + [x])[..|xs + [x]| - 1] == xs;
  }

  lemma {:induction false} NightsArePgRuns(topic: Topic, zone: int, xs: seq<Occurrence>)
    ensures RunNights(topic, zone, xs).pg == PgRun(PageViews, topic, SinkActions(xs))
  {
    if xs != [] {
      var front := xs[..|xs| - 1];
      NightsArePgRuns(topic, zone, front);
      match xs[|xs| - 1]
      case Sink(x) => PgRunMore(topic, SinkActions(front), x);
      case RunRollup => assert SinkActions(xs) == SinkActions(front);
    }
  }

  lemma ActionsMore(steps: seq<Step>, step: Step)
    ensures Actions(steps + [step]) == Actions(steps) + if step.Streaming? then [step.action] else []
  {
    assert (steps + [step])[..|steps + [step]| - 1] == steps;
  }

  lemma ActionsOfSteps(steps: seq<Step>, actions: seq<Action>)
    requires |actions| <= 1
    ensures Actions(steps + AsSteps(actions)) == Actions(steps) + actions
  {
    if actions == [] {
      assert steps + AsSteps(actions) == steps;
      assert Actions(steps) + actions == Actions(steps);
    } else {
      ActionsMore(steps, Streaming(actions[0]));
      assert actions == [actions[0]];
    }
  }

  lemma {:induction false} NightActions(topic: Topic, xs: seq<Occurrence>)
    ensures Actions(NightSteps(topic, xs)) == PgSteps(PageViews, topic, SinkActions(xs))
  {
    if xs != [] {
      var front := xs[..|xs| - 1];
      NightActions(topic, front);
      match xs[|xs| - 1]
      case Sink(x) =>
        PgRunMore(topic, SinkActions(front), x);
        PgStepFollows(PageViews, PgRun(PageViews, topic, SinkActions(front)), x);
        ActionsOfSteps(NightSteps(topic, front), PgStep(PageViews, PgRun(PageViews, topic, SinkActions(front)), x));
      case RunRollup =>
        ActionsMore(NightSteps(topic, front), Rollup);
        assert SinkActions(xs) == SinkActions(front);
    }
  }

  lemma NightlyMore(topic: Topic, zone: int, steps: seq<Step>, step: Step)
    ensures var n := RunNightly(topic, zone, steps);
            RunNightly(topic, zone, steps + [step]) ==
            match step
            case Streaming(a) => n.(stream := Do(PageViews, n.stream, a))
            case Rollup => n.(daily := n.daily + Daily(n.stream.table, zone))
  {
    assert (steps + [step])[..|steps + [step]| - 1] == steps;
  }

  // The nights as the query sees them.
  ghost predicate Mirrors(n: Nights, m: Nightly) {
    m == Nightly(n.pg.stream, n.daily) && n.pg.db == Db(n.pg.stream.table, [])
  }

  lemma SinkMirrors(topic: Topic, zone: int, n: Nights, steps: seq<Step>, x: PgAction)
    requires Mirrors(n, RunNightly(topic, zone, steps))
    ensures Mirrors(n.(pg := PgDo(PageViews, n.pg, x)),
                    RunNightly(topic, zone, steps + AsSteps(PgStep(PageViews, n.pg, x))))
  {
    var step := PgStep(PageViews, n.pg, x);
    PgStepFollows(PageViews, n.pg, x);
    PgStepKeepsTable(PageViews, n.pg, x);
    if step == [] {
      assert steps + AsSteps(step) == steps;
    } else {
      NightlyMore(topic, zone, steps, Streaming(step[0]));
    }
  }

  lemma {:induction false} NightsMirror(topic: Topic, zone: int, xs: seq<Occurrence>)
    ensures Mirrors(RunNights(topic, zone, xs), RunNightly(topic, zone, NightSteps(topic, xs)))
  {
    if xs != [] {
      var front := xs[..|xs| - 1];
      NightsMirror(topic, zone, front);
      match xs[|xs| - 1]
      case Sink(x) =>
        NightsArePgRuns(topic, zone, front);
        SinkMirrors(topic, zone, RunNights(topic, zone, front), NightSteps(topic, front), x);
      case RunRollup => NightlyMore(topic, zone, NightSteps(topic, front), Rollup);
    }
  }

  lemma RollupNext(topic: Topic, zone: int, xs: seq<Occurrence>)
    ensures NightSteps(topic, xs + [RunRollup]) == NightSteps(topic, xs) + [Rollup]
    ensures RunNights(topic, zone, xs + [RunRollup]).pg == RunNights(topic, zone, xs).pg
  {
    assert (xs + [RunRollup])[..|xs + [RunRollup]| - 1] == xs;
  }

  /**
   Every rollup of every run, with a batch planned, half upserted, crashed or committed, leaves the
   page views of the events that a whole number of batches accepted, the same batches for all days.
   */
  lemma EveryRollupCountsWholeBatches(topic: Topic, zone: int, xs: seq<Occurrence>)
    requires zone % 60 == 0
    ensures var n := RunNights(topic, zone, xs + [RunRollup]);
            var s := n.pg.stream;
            && n.pg == RunNights(topic, zone, xs).pg && s.commits <= |s.plans|
            && (RollupOf(Nightly(s, n.daily), zone, s.plans[..s.commits])
               || RollupOf(Nightly(s, n.daily), zone, s.plans))
  {
    RollupNext(topic, zone, xs);
    NightActions(topic, xs);
    PgFollowsQuery(PageViews, topic, SinkActions(xs));
    NightsMirror(topic, zone, xs + [RunRollup]);
    NightsMirror(topic, zone, xs);
    RollupCountsAcceptedEvents(topic, zone, NightSteps(topic, xs));
  }
}
