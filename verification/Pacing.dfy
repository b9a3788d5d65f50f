/**
 The producer's paced loop against an arbitrary clock: how early and how many events it can
 produce, and when the simulated timestamps stay behind the wall clock.
 */
module Pacing {
  import opened Calendar
  import opened Parsing
  import opened Schema
  import opened Simulator
  import opened Wrappers

  const LOG_INTERVAL_SECONDS := 5.0

  // produced * interval
  function Due(rate: nat, produced: nat): real
    requires rate > 0
  {
    produced as real * (1.0 / rate as real)
  }

  // An event and the clock reading when produce was called for it.
  datatype Sent = Sent(event: ClickEvent, at: real)

  ghost predicate Paced(start: real, rate: nat, sent: seq<Sent>)
    requires rate > 0
  {
    && (forall k: nat :: k < |sent| ==> sent[k].at >= start + Due(rate, k))
    && (forall j, k :: 0 <= j < k < |sent| ==> sent[j].at <= sent[k].at)
  }

  lemma DueNext(rate: nat, k: nat)
    requires rate > 0
    ensures Due(rate, k + 1) >= Due(rate, k) >= 0.0
  {
    var interval := 1.0 / rate as real;
    assert interval >= 0.0;
    assert (k + 1) as real * interval == k as real * interval + interval;
  }

  // An event due before the deadline is one of the first rate * duration.
  lemma DueBefore(rate: nat, k: nat, duration: nat)
    requires rate > 0 && Due(rate, k) < duration as real
    ensures k + 1 <= rate * duration
  {
    var r := rate as real;
    CancelRate(k as real, r);
    ScaleLess(Due(rate, k), duration as real, r);
    assert (rate * duration) as real == r * duration as real;
  }

  lemma CancelRate(k: real, r: real)
    requires r > 0.0
    ensures r * (k * (1.0 / r)) == k
  {
    assert r * (1.0 / r) == 1.0;
  }

  lemma ScaleLess(x: real, y: real, r: real)
    requires r > 0.0 && x < y
    ensures r * x < r * y
  {
  }

  // ---- The clock and the loop ----

  // time.monotonic with an arbitrary lag before every reading; sleep never returns early.
  class Clock {
    const lag: nat -> real
    var now: real
    var ticks: nat

    // Without any lag, time passes only while the loop sleeps.
    ghost predicate Exact() { forall i: nat :: lag(i) <= 0.0 }

    constructor (lag: nat -> real, now: real)
      ensures this.lag == lag && this.now == now
    {
      this.lag, this.now, ticks := lag, now, 0;
    }

    method Pass()
      modifies this
      ensures now >= old(now) && (Exact() ==> now == old(now))
    {
      if lag(ticks) > 0.0 {
        now := now + lag(ticks);
      }
      ticks := ticks + 1;
    }

    method Monotonic() returns (t: real)
      modifies this
      ensures t == now >= old(now) && (Exact() ==> now == old(now))
    {
      Pass();
      t := now;
    }

    method Sleep(seconds: real)
      modifies this
      ensures now >= old(now) + seconds
      ensures Exact() && seconds >= 0.0 ==> now == old(now) + seconds
    {
      Pass();
      now := if now < now + seconds then now + seconds else now;
    }
  }

  // Why the loop ended: cut off from outside, out of events to send, past the deadline, or the calendar overflowed.
  ghost predicate Stopped(u: Setup, start: real, now: real, duration: nat, maxEvents: nat, supply: nat, n: nat) {
    || n == supply
    || (maxEvents > 0 && n == maxEvents)
    || (duration > 0 && now >= start + duration as real)
    || Yield(u, n).None?
  }

  ghost predicate SentInOrder(u: Setup, sent: seq<Sent>) {
    forall k: nat :: k < |sent| ==> Yield(u, k) == Some(sent[k].event)
  }

  ghost predicate Limited(rate: nat, duration: nat, maxEvents: nat, n: nat) {
    (maxEvents > 0 ==> n <= maxEvents) && (duration > 0 ==> n <= rate * duration)
  }

  ghost predicate AllBy(sent: seq<Sent>, now: real) { forall k :: 0 <= k < |sent| ==> sent[k].at <= now }

  // Between two rounds: the clock has reached the time at which the next event is due.
  ghost predicate OnPace(start: real, rate: nat, sent: seq<Sent>, now: real)
    requires rate > 0
  {
    Paced(start, rate, sent) && AllBy(sent, now) && start + Due(rate, |sent|) <= now
  }

  lemma PacedMore(start: real, rate: nat, sent: seq<Sent>, s: Sent, now: real)
    requires rate > 0 && Paced(start, rate, sent) && AllBy(sent, s.at) && start + Due(rate, |sent|) <= s.at
    requires s.at <= now && start + Due(rate, |sent| + 1) <= now
    ensures OnPace(start, rate, sent + [s], now)
  {
  }

  // Every event so far was sent exactly when it was due, and now the next one is.
  ghost predicate OnDot(start: real, rate: nat, sent: seq<Sent>, now: real)
    requires rate > 0
  {
    now == start + Due(rate, |sent|) && forall k: nat :: k < |sent| ==> sent[k].at == start + Due(rate, k)
  }

  lemma OnDotMore(start: real, rate: nat, sent: seq<Sent>, s: Sent, now: real)
    requires rate > 0 && OnDot(start, rate, sent, s.at) && now == start + Due(rate, |sent| + 1)
    ensures OnDot(start, rate, sent + [s], now)
  {
  }

  lemma InOrderMore(u: Setup, sent: seq<Sent>, s: Sent)
    requires SentInOrder(u, sent) && Yield(u, |sent|) == Some(s.event)
    ensures SentInOrder(u, sent + [s])
  {
  }

  // The two stop conditions at the top of the loop.
  method Goes(clock: Clock, start: real, rate: nat, duration: nat, maxEvents: nat, produced: nat) returns (go: bool)
    requires rate > 0 && start + Due(rate, produced) <= clock.now
    modifies clock
    ensures old(clock.now) <= clock.now && (clock.Exact() ==> clock.now == old(clock.now))
    ensures go ==> Limited(rate, duration, maxEvents, produced + 1)
    ensures !go ==> (maxEvents > 0 && produced >= maxEvents) || (duration > 0 && clock.now >= start + duration as real)
  {
    if maxEvents > 0 && produced >= maxEvents {
      return false;
    }
    if duration > 0 {
      var t := clock.Monotonic();
      if t >= start + duration as real {
        return false;
      }
      DueBefore(rate, produced, duration);
    }
    go := true;
  }

  // Produce one event, then wait until the next one is due.
  method Produce(clock: Clock, start: real, rate: nat, sent: seq<Sent>, event: ClickEvent) returns (s: Sent)
    requires rate > 0 && OnPace(start, rate, sent, clock.now)
    modifies clock
    ensures old(clock.now) <= clock.now && s.event == event
    ensures OnPace(start, rate, sent + [s], clock.now)
    ensures clock.Exact() && OnDot(start, rate, sent, old(clock.now)) ==> OnDot(start, rate, sent + [s], clock.now)
  {
    clock.Pass();
    s := Sent(event, clock.now);
    var target := start + Due(rate, |sent| + 1);
    var t := clock.Monotonic();
    if target - t > 0.0 {
      clock.Sleep(target - t);
    }
    PacedMore(start, rate, sent, s, clock.now);
    if clock.Exact() && OnDot(start, rate, sent, old(clock.now)) {
      DueNext(rate, |sent|);
      OnDotMore(start, rate, sent, s, clock.now);
    }
  }

  ghost predicate Sending(u: Setup, start: real, rate: nat, duration: nat, maxEvents: nat, sent: seq<Sent>, now: real) {
    && rate > 0 && OnPace(start, rate, sent, now) && SentInOrder(u, sent)
    && Limited(rate, duration, maxEvents, |sent|)
  }

  // The same, for a clock that may be known to have no lag.
  ghost predicate Underway(u: Setup, start: real, rate: nat, duration: nat, maxEvents: nat, sent: seq<Sent>, now: real,
                           exact: bool) {
    Sending(u, start, rate, duration, maxEvents, sent, now) && (exact ==> OnDot(start, rate, sent, now))
  }

  // What a round leaves: one event more, or the reason to stop.
  ghost predicate AfterRound(u: Setup, start: real, rate: nat, duration: nat, maxEvents: nat, sent: seq<Sent>,
                             now: real, exact: bool, open: bool, more: seq<Sent>) {
    && Underway(u, start, rate, duration, maxEvents, more, now, exact)
    && if open then |more| == |sent| + 1
       else more == sent && Stopped(u, start, now, duration, maxEvents, |sent| + 1, |sent|)
  }

  // One round of the loop, unless a stop condition holds.
  method Round(clock: Clock, ghost u: Setup, e: Option<ClickEvent>, start: real, rate: nat, duration: nat,
               maxEvents: nat, sent: seq<Sent>, nextLog: real, ghost exact: bool)
    returns (open: bool, more: seq<Sent>, next: real)
    requires exact ==> clock.Exact()
    requires Underway(u, start, rate, duration, maxEvents, sent, clock.now, exact) && e == Yield(u, |sent|)
    modifies clock
    ensures old(clock.now) <= clock.now
    ensures open ==> e.Some?
    ensures AfterRound(u, start, rate, duration, maxEvents, sent, clock.now, exact, open, more)
  {
    more, next := sent, nextLog;
    open := e.Some?;
    if open {
      open := Goes(clock, start, rate, duration, maxEvents, |sent|);
      if open {
        var s := Produce(clock, start, rate, sent, e.value);
        InOrderMore(u, sent, s);
        more := sent + [s];
        next := LogProgress(clock, nextLog);
      }
    }
  }

  // The generator is resumed, and what it yields goes through one round.
  method Turn(clock: Clock, it: EventIterator, ghost u: Setup, start: real, rate: nat, duration: nat,
              maxEvents: nat, sent: seq<Sent>, nextLog: real, ghost exact: bool)
    returns (open: bool, more: seq<Sent>, next: real)
    requires it.Ready(u, |sent|) && (exact ==> clock.Exact())
    requires Underway(u, start, rate, duration, maxEvents, sent, clock.now, exact)
    modifies clock, it, it.sim
    ensures old(clock.now) <= clock.now && (open ==> it.Ready(u, |sent| + 1))
    ensures AfterRound(u, start, rate, duration, maxEvents, sent, clock.now, exact, open, more)
  {
    var e := it.Next(u, |sent|);
    open, more, next := Round(clock, u, e, start, rate, duration, maxEvents, sent, nextLog, exact);
  }

  method Loop(clock: Clock, it: EventIterator, ghost u: Setup, start: real, rate: nat, duration: nat,
      maxEvents: nat, supply: nat, ghost exact: bool)
    returns (sent: seq<Sent>)
    requires it.Ready(u, 0) && (exact ==> clock.Exact())
    requires Underway(u, start, rate, duration, maxEvents, [], clock.now, exact)
    modifies clock, it, it.sim
    ensures old(clock.now) <= clock.now && |sent| <= supply
    ensures Underway(u, start, rate, duration, maxEvents, sent, clock.now, exact)
    ensures Stopped(u, start, clock.now, duration, maxEvents, supply, |sent|)
  {
    var nextLog, open := start + LOG_INTERVAL_SECONDS, true;
    sent := [];
    while open && |sent| < supply
      invariant open ==> it.Ready(u, |sent|)
      invariant |sent| <= supply && old(clock.now) <= clock.now
      invariant Underway(u, start, rate, duration, maxEvents, sent, clock.now, exact)
      invariant open || Stopped(u, start, clock.now, duration, maxEvents, supply, |sent|)
      decreases supply - |sent|, open
    {
      open, sent, nextLog := Turn(clock, it, u, start, rate, duration, maxEvents, sent, nextLog, exact);
    }
  }

  /**
   run(config), for any number `supply` of rounds the process is let run; duration and maxEvents
   are 0 for no limit. No event is sent ahead of the pace, and neither limit is ever exceeded; on a
   clock without lag every event is sent exactly when it is due.
   */
  method Run(clock: Clock, sim: ClickstreamSimulator, rate: nat, duration: nat, maxEvents: nat, supply: nat)
    returns (sent: seq<Sent>, start: real)
    requires rate > 0
    modifies clock, sim
    ensures old(clock.now) <= start <= clock.now && |sent| <= supply
    ensures Sending(old(SetupOf(sim)), start, rate, duration, maxEvents, sent, clock.now)
    ensures Stopped(old(SetupOf(sim)), start, clock.now, duration, maxEvents, supply, |sent|)
    ensures clock.Exact() ==> start == old(clock.now) && OnDot(start, rate, sent, clock.now)
  {
    ghost var u := SetupOf(sim);
    start := clock.Monotonic();
    var it := new EventIterator(sim);
    sent := Loop(clock, it, u, start, rate, duration, maxEvents, supply, clock.Exact());
  }

  function SetupOf(sim: ClickstreamSimulator): Setup
    reads sim
  {
    Setup(sim.tape, sim.pos, sim.clock, sim.micros, sim.step)
  }

  method LogProgress(clock: Clock, nextLog: real) returns (next: real)
    modifies clock
    ensures clock.now >= old(clock.now) && (clock.Exact() ==> clock.now == old(clock.now))
    ensures next == nextLog || next >= nextLog + LOG_INTERVAL_SECONDS
    ensures next == nextLog ==> old(clock.now) < nextLog
  {
    next := nextLog;
    var t := clock.Monotonic();
    if t >= nextLog {
      var later := clock.Monotonic();
      next := later + LOG_INTERVAL_SECONDS;
    }
  }

  // ---- Timestamps against the wall clock ----

  // The clock's step does not outrun the pace: 1 000 000 / rate was not rounded up.
  predicate KeepsUp(rate: nat)
    requires rate > 0
  {
    StepMicros(rate) * rate <= 1_000_000
  }

  // How far the clock's second has moved when event k is made, from a whole second.
  function SecondsOn(rate: nat, k: nat): nat
    requires rate > 0
  {
    (k * StepMicros(rate)) / 1_000_000
  }

  lemma WholeQuotient(q: nat, n: nat, rate: nat, step: nat, k: nat)
    requires q * 1_000_000 <= n && n == k * step && step * rate <= 1_000_000
    ensures q * rate <= k
  {
    assert (q * 1_000_000) * rate <= n * rate;
    assert n * rate == k * (step * rate);
    assert k * (step * rate) <= k * 1_000_000;
  }

  lemma BelowDue(rate: nat, q: nat, k: nat)
    requires rate > 0 && q * rate <= k
    ensures q as real <= Due(rate, k)
  {
    CancelRate(k as real, rate as real);
    assert (q * rate) as real == rate as real * q as real;
    CancelLe(rate as real, q as real, Due(rate, k));
  }

  lemma CancelLe(r: real, x: real, y: real)
    requires r > 0.0 && r * x <= r * y
    ensures x <= y
  {
  }

  lemma StepBehind(rate: nat, k: nat)
    requires rate > 0 && KeepsUp(rate)
    ensures SecondsOn(rate, k) as real <= Due(rate, k)
  {
    WholeQuotient(SecondsOn(rate, k), k * StepMicros(rate), rate, StepMicros(rate), k);
    BelowDue(rate, SecondsOn(rate, k), k);
  }

  // At a faster step the clock is ahead of the pace after 1 000 000 seconds' worth of events.
  lemma StepAhead(rate: nat)
    requires rate > 0 && !KeepsUp(rate)
    ensures SecondsOn(rate, 1_000_000 * rate) as real > Due(rate, 1_000_000 * rate)
  {
    var step, k := StepMicros(rate), 1_000_000 * rate;
    assert k * step == 1_000_000 * (step * rate);
    assert SecondsOn(rate, k) == step * rate;
    CancelRate(1_000_000.0, rate as real);
    assert k as real == 1_000_000.0 * rate as real;
    assert (1_000_000.0 * rate as real) * (1.0 / rate as real) == rate as real * (1_000_000.0 * (1.0 / rate as real));
  }

  /** The simulated clock never passes the pace exactly when its step was not rounded up. */
  lemma NeverAheadIffKeepsUp(rate: nat)
    requires rate > 0
    ensures KeepsUp(rate) <==> forall k: nat :: SecondsOn(rate, k) as real <= Due(rate, k)
    ensures KeepsUp(rate) <==> StepMicros(rate) == 1_000_000 / rate
    ensures 1_000_000 % rate == 0 ==> KeepsUp(rate)
  {
    if KeepsUp(rate) {
      forall k: nat ensures SecondsOn(rate, k) as real <= Due(rate, k) {
        StepBehind(rate, k);
      }
    } else {
      StepAhead(rate);
    }
    RoundedUp(rate);
  }

  lemma RoundedUp(rate: nat)
    requires rate > 0
    ensures KeepsUp(rate) <==> StepMicros(rate) == 1_000_000 / rate
    ensures 1_000_000 % rate == 0 ==> KeepsUp(rate)
  {
    var q, r := 1_000_000 / rate, 1_000_000 % rate;
    assert q * rate + r == 1_000_000 && r < rate;
    assert (q + 1) * rate == q * rate + rate;
  }

  // The simulator was built, with its clock cut to the second, before the loop read its start.
  ghost predicate BuiltBefore(u: Setup, rate: nat, start: real, offset: real) {
    && rate > 0 && GoodSetup(u) && u.micros == 0 && u.step == StepMicros(rate)
    && EpochSeconds(u.clock) as real <= start + offset
  }

  lemma RowTime(tape: Tape, s: State)
    requires Valid(s.clock)
    ensures ToRow(EventOf(tape, s)).ts == EpochSeconds(s.clock)
  {
    TsRoundTrip(s.clock);
  }

  lemma SameSecond(seconds: int, m: nat, from: int, micros: int)
    requires m < 1_000_000 && seconds * 1_000_000 + m == from * 1_000_000 + micros
    ensures seconds == from + micros / 1_000_000
  {
  }

  lemma OnTimeMicros(u: Setup, k: nat, s: State)
    requires OnTime(u, k, s) && u.micros == 0
    ensures Valid(s.clock) && s.micros < 1_000_000
    ensures EpochSeconds(s.clock) * 1_000_000 + s.micros == EpochSeconds(u.clock) * 1_000_000 + k * u.step
  {
  }

  lemma OnTimeSecond(u: Setup, k: nat, s: State)
    requires OnTime(u, k, s) && u.micros == 0
    ensures Valid(s.clock) && EpochSeconds(s.clock) == EpochSeconds(u.clock) + (k * u.step) / 1_000_000
  {
    OnTimeMicros(u, k, s);
    SameSecond(EpochSeconds(s.clock), s.micros, EpochSeconds(u.clock), k * u.step);
  }

  lemma YieldedOnTheClock(u: Setup, k: nat)
    requires GoodSetup(u) && u.micros == 0 && Yield(u, k).Some?
    ensures ToRow(Yield(u, k).value).ts == EpochSeconds(u.clock) + (k * u.step) / 1_000_000
  {
    AtIsGood(u, k);
    OnTimeSecond(u, k, At(u, k).value);
    RowTime(u.tape, At(u, k).value);
  }

  /**
   At a rate that keeps up, no event of any run is stamped later than the wall clock, offset ahead
   of the monotonic one, when it is sent.
   */
  lemma NoFutureTimestamps(u: Setup, rate: nat, start: real, offset: real, sent: seq<Sent>, k: nat)
    requires BuiltBefore(u, rate, start, offset) && KeepsUp(rate)
    requires Paced(start, rate, sent) && SentInOrder(u, sent) && k < |sent|
    ensures ToRow(sent[k].event).ts as real <= sent[k].at + offset
  {
    YieldedOnTheClock(u, k);
    StepBehind(rate, k);
  }

  // ---- Every run at a rate that keeps up, and a losing run at any other ----

  // No event of the run is stamped later than the wall clock reads when it is sent.
  ghost predicate NeverEarly(sent: seq<Sent>, offset: real) {
    forall k: nat :: k < |sent| ==> ToRow(sent[k].event).ts as real <= sent[k].at + offset
  }

  // Everything Run promises of what it sends, by a simulator built before it.
  ghost predicate IsRun(u: Setup, rate: nat, start: real, offset: real, sent: seq<Sent>) {
    BuiltBefore(u, rate, start, offset) && Paced(start, rate, sent) && SentInOrder(u, sent)
  }

  // The simulator built at the epoch, drawing zeros.
  function FromEpoch(rate: nat): Setup
    requires rate > 0
  {
    Setup((i: nat) => 0, 0, DateTime(1970, 1, 1, 0, 0, 0), 0, StepMicros(rate))
  }

  lemma StepIsSmall(rate: nat)
    requires rate > 0
    ensures StepMicros(rate) * rate <= 3_000_000
  {
    var q, r := 1_000_000 / rate, 1_000_000 % rate;
    assert q * rate + r == 1_000_000;
    assert (q + 1) * rate == q * rate + rate;
    if rate > 2_000_000 {
      assert q == 0 && r == 1_000_000;
    }
  }

  // A million seconds' worth of events, plus one, takes less than five million seconds of calendar.
  lemma EventsLast(rate: nat, k: nat)
    requires rate > 0 && k <= 1_000_000 * rate
    ensures k * StepMicros(rate) <= 3_000_000_000_000
  {
    var step := StepMicros(rate);
    StepIsSmall(rate);
    assert k * step <= (1_000_000 * rate) * step;
    assert (1_000_000 * rate) * step == 1_000_000 * (step * rate);
  }

  lemma EpochLasts(rate: nat)
    requires rate > 0
    ensures EpochFits(FromEpoch(rate), 1_000_000 * rate)
  {
    EpochIsZero();
    EventsLast(rate, 1_000_000 * rate);
  }

  lemma YieldExists(u: Setup, n: nat, k: nat)
    requires EpochFits(u, n) && k <= n
    ensures Yield(u, k).Some?
  {
    if k < n {
      MicrosLeft(k, n, u.step, EpochMicros(u.clock, u.micros));
    }
    AtExists(u, k);
  }

  // The run that sends each event exactly when it is due.
  function OnTheDot(u: Setup, rate: nat, start: real, n: nat): (sent: seq<Sent>)
    requires rate > 0 && forall k: nat :: k < n ==> Yield(u, k).Some?
    ensures |sent| == n
  {
    seq(n, k requires 0 <= k < n => Sent(Yield(u, k).value, start + Due(rate, k)))
  }

  lemma {:induction false} DueAscends(rate: nat, j: nat, k: nat)
    requires rate > 0 && j <= k
    ensures Due(rate, j) <= Due(rate, k)
  {
    if j < k {
      DueAscends(rate, j, k - 1);
      DueNext(rate, k - 1);
    }
  }

  lemma OnTheDotIsRun(u: Setup, rate: nat, start: real, offset: real, n: nat)
    requires BuiltBefore(u, rate, start, offset) && forall k: nat :: k < n ==> Yield(u, k).Some?
    ensures IsRun(u, rate, start, offset, OnTheDot(u, rate, start, n))
  {
    var sent := OnTheDot(u, rate, start, n);
    forall j, k | 0 <= j < k < n ensures sent[j].at <= sent[k].at {
      DueAscends(rate, j, k);
    }
  }

  // The simulator was built as the wall clock read its start, and its calendar lasts for a million seconds' worth
  // of events.
  ghost predicate BuiltAtStart(u: Setup, rate: nat, start: real, offset: real) {
    && BuiltBefore(u, rate, start, offset) && EpochSeconds(u.clock) as real == start + offset
    && EpochFits(u, 1_000_000 * rate)
  }

  /** At a rate whose step was rounded up, the run that is exactly on pace sends an event from the future. */
  lemma FutureTimestamp(u: Setup, rate: nat, start: real, offset: real)
    requires BuiltAtStart(u, rate, start, offset) && !KeepsUp(rate)
    ensures forall k: nat :: k <= 1_000_000 * rate ==> Yield(u, k).Some?
    ensures var sent := OnTheDot(u, rate, start, 1_000_000 * rate + 1);
            IsRun(u, rate, start, offset, sent) && !NeverEarly(sent, offset)
  {
    var n := 1_000_000 * rate;
    forall k: nat | k <= n ensures Yield(u, k).Some? {
      YieldExists(u, n, k);
    }
    var sent := OnTheDot(u, rate, start, n + 1);
    OnTheDotIsRun(u, rate, start, offset, n + 1);
    YieldedOnTheClock(u, n);
    StepAhead(rate);
    assert sent[n] == Sent(Yield(u, n).value, start + Due(rate, n));
  }

  lemma AllSentOnDot(u: Setup, rate: nat, start: real, sent: seq<Sent>, now: real, n: nat)
    requires Sending(u, start, rate, 0, 0, sent, now) && OnDot(start, rate, sent, now)
    requires |sent| <= n && Stopped(u, start, now, 0, 0, n, |sent|) && forall k: nat :: k < n ==> Yield(u, k).Some?
    ensures sent == OnTheDot(u, rate, start, n)
  {
  }

  /**
   And that run happens: a simulator built at any second that leaves enough of the calendar, and a clock
   without lags, make the loop itself send an event from the future.
   */
  method RunIntoTheFuture(tape: Tape, begin: DateTime, rate: nat, start: real, offset: real)
    returns (sent: seq<Sent>)
    requires rate > 0 && !KeepsUp(rate)
    requires BuiltAtStart(Setup(tape, 0, begin, 0, StepMicros(rate)), rate, start, offset)
    ensures IsRun(Setup(tape, 0, begin, 0, StepMicros(rate)), rate, start, offset, sent)
    ensures !NeverEarly(sent, offset)
  {
    ghost var u := Setup(tape, 0, begin, 0, StepMicros(rate));
    var clock := new Clock(i => 0.0, start);
    var sim := new ClickstreamSimulator(tape, rate, begin, 0);
    var started: real;
    sent, started := Run(clock, sim, rate, 0, 0, 1_000_000 * rate + 1);
    FutureTimestamp(u, rate, start, offset);
    AllSentOnDot(u, rate, start, sent, clock.now, 1_000_000 * rate + 1);
  }

  /** No run ever stamps an event in the future exactly when the clock's step was not rounded up. */
  lemma NeverEarlyIffKeepsUp(rate: nat)
    requires rate > 0
    ensures KeepsUp(rate) <==>
            forall u: Setup, start: real, offset: real, sent: seq<Sent> ::
              IsRun(u, rate, start, offset, sent) ==> NeverEarly(sent, offset)
  {
    if KeepsUp(rate) {
      forall u: Setup, start: real, offset: real, sent: seq<Sent> | IsRun(u, rate, start, offset, sent)
        ensures NeverEarly(sent, offset)
      {
        forall k: nat | k < |sent| ensures ToRow(sent[k].event).ts as real <= sent[k].at + offset {
          NoFutureTimestamps(u, rate, start, offset, sent, k);
        }
      }
    } else {
      EpochIsZero();
      EpochLasts(rate);
      FutureTimestamp(FromEpoch(rate), rate, 0.0, 0.0);
    }
  }
}
