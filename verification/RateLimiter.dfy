/**
 The fixed-window rate limiter: INCR and EXPIRE as two separate commands of many concurrent
 callers on one Redis key, with a clock.
 */
module RateLimiter {
  import opened Wrappers

  // A counter key; without a deadline it never expires.
  datatype Entry = Entry(count: nat, deadline: Option<int>)

  // INCR creates a missing or expired key with count 1 and no TTL; otherwise it keeps the TTL.
  function Incremented(entry: Option<Entry>, gone: bool): Entry {
    if entry.None? || gone then Entry(1, None) else entry.value.(count := entry.value.count + 1)
  }

  // EXPIRE sets the deadline of an existing key, and deletes it when the TTL is not positive.
  function WithExpiry(entry: Option<Entry>, now: int, window: int): Option<Entry> {
    if entry.None? || window <= 0 then None else Some(entry.value.(deadline := Some(now + window)))
  }

  function Exceeded(count: nat, maxRequests: int): bool { count > maxRequests }

  // Expired keys are gone from their deadline on; at the very instant both answers are allowed.
  predicate MayBeGone(entry: Option<Entry>, now: int) {
    entry.Some? && entry.value.deadline.Some? && now >= entry.value.deadline.value
  }

  predicate MayBeLive(entry: Option<Entry>, now: int) {
    entry.Some? && (entry.value.deadline.None? || now <= entry.value.deadline.value)
  }

  // ---- The protocol ----

  datatype Arrival = Arrival(at: int, admitted: bool)

  // One life of the key: the requests counted in it, its end once an EXPIRE has fixed it, and
  // whether that EXPIRE failed.
  datatype Generation = Generation(born: int, until: Option<int>, arrivals: seq<Arrival>, failed: bool)

  // pending: callers that saw count 1 and have not sent their EXPIRE, with the generation they started.
  datatype State = State(now: int, entry: Option<Entry>, pending: map<nat, nat>, gens: seq<Generation>)

  datatype Action =
    | Tick(seconds: nat)
    | Incr(caller: nat, gone: bool)
    | Expire(caller: nat)
    | ExpireFails(caller: nat)
    | Reap

  datatype Limits = Limits(maxRequests: int, window: int)

  function Start(): State { State(0, None, map[], []) }

  function Count(l: Limits, s: State, caller: nat, gone: bool): State {
    var e := Incremented(s.entry, gone);
    var a := Arrival(s.now, !Exceeded(e.count, l.maxRequests));
    if e.count == 1 then
      State(s.now, Some(e), s.pending[caller := |s.gens|], s.gens + [Generation(s.now, None, [a], false)])
    else if s.gens == [] then s
    else
      var g := s.gens[|s.gens| - 1];
      s.(entry := Some(e), gens := s.gens[..|s.gens| - 1] + [g.(arrivals := g.arrivals + [a])])
  }

  function Fix(l: Limits, s: State, caller: nat): State {
    var rest := s.pending - {caller};
    if s.gens == [] || s.entry.None? then s.(pending := rest)
    else
      var g := s.gens[|s.gens| - 1];
      s.(entry := WithExpiry(s.entry, s.now, l.window), pending := rest,
         gens := s.gens[..|s.gens| - 1] + [g.(until := Some(s.now + Max(0, l.window)))])
  }

  // A failing EXPIRE: the caller is let through after all, and the key keeps no TTL.
  function Lose(s: State, caller: nat): State {
    var rest := s.pending - {caller};
    if s.gens == [] || s.gens[|s.gens| - 1].arrivals == [] then s.(pending := rest)
    else s.(pending := rest, gens := s.gens[..|s.gens| - 1] + [Lost(s.gens[|s.gens| - 1])])
  }

  function Lost(g: Generation): Generation
    requires g.arrivals != []
  {
    g.(failed := true, arrivals := [g.arrivals[0].(admitted := true)] + g.arrivals[1..])
  }

  function Do(l: Limits, s: State, a: Action): State {
    match a
    case Tick(seconds) => s.(now := s.now + seconds)
    case Incr(caller, gone) =>
      if caller in s.pending then s
      else if (if gone then !MayBeGone(s.entry, s.now) else s.entry.Some? && !MayBeLive(s.entry, s.now)) then s
      else Count(l, s, caller, gone)
    case Expire(caller) => if caller in s.pending then Fix(l, s, caller) else s
    case ExpireFails(caller) => if caller in s.pending then Lose(s, caller) else s
    case Reap => if MayBeGone(s.entry, s.now) then s.(entry := None) else s
  }

  function Exec(l: Limits, actions: seq<Action>): State {
    if actions == [] then Start() else Do(l, Exec(l, actions[..|actions| - 1]), actions[|actions| - 1])
  }

  // ---- The invariant ----

  // The EXPIRE of the current life failed.
  predicate LifeFailed(s: State) { s.gens != [] && s.gens[|s.gens| - 1].failed }

  ghost predicate WithoutTtl(s: State) { s.entry.Some? && s.entry.value.deadline.None? }

  // A key without a TTL has exactly one pending EXPIRE, of the caller that created it, unless that EXPIRE failed.
  ghost predicate OnePending(s: State) {
    if WithoutTtl(s) && !LifeFailed(s) then
      s.gens != [] && |s.pending| == 1 && forall caller :: caller in s.pending ==> s.pending[caller] == |s.gens| - 1
    else s.pending == map[] && (LifeFailed(s) ==> WithoutTtl(s))
  }

  // How many requests a life admits: a failed EXPIRE lets its own caller through whatever the limit.
  function LimitOf(l: Limits, g: Generation): int { if g.failed then Max(1, l.maxRequests) else l.maxRequests }

  // Arrivals of one generation: in time order from its birth, the first of them up to the limit admitted.
  ghost predicate Counted(l: Limits, g: Generation) {
    && g.arrivals != [] && g.arrivals[0].at == g.born
    && (forall i, j :: 0 <= i <= j < |g.arrivals| ==> g.arrivals[i].at <= g.arrivals[j].at)
    && (forall i :: 0 <= i < |g.arrivals| ==> (g.arrivals[i].admitted <==> i < LimitOf(l, g)))
  }

  ghost predicate AllBy(g: Generation, t: int) { forall k :: 0 <= k < |g.arrivals| ==> g.arrivals[k].at <= t }

  ghost predicate AllBefore(g: Generation, t: int) { forall k :: 0 <= k < |g.arrivals| ==> g.arrivals[k].at < t }

  ghost predicate Lasts(l: Limits, g: Generation) {
    g.until.Some? ==> g.until.value >= g.born + l.window && AllBy(g, g.until.value) && !g.failed
  }

  // The next generation starts only after this one has ended.
  ghost predicate Follows(g: Generation, next: Generation) {
    g.until.Some? && g.until.value <= next.born && AllBy(g, next.born)
  }

  // A generation lasts at least the window, and generations do not overlap.
  ghost predicate Chained(l: Limits, gens: seq<Generation>) {
    gens == [] ||
    var n := |gens| - 1;
    Chained(l, gens[..n]) && Counted(l, gens[n]) && Lasts(l, gens[n]) && (n > 0 ==> Follows(gens[n - 1], gens[n]))
  }

  ghost predicate Current(s: State) {
    if s.gens == [] then s.entry.None?
    else
      var g := s.gens[|s.gens| - 1];
      && AllBy(g, s.now)
      && (s.entry.Some? ==> |g.arrivals| == s.entry.value.count && g.until == s.entry.value.deadline)
      && (s.entry.None? ==> g.until.Some? && g.until.value <= s.now)
  }

  ghost predicate Inv(l: Limits, s: State) {
    OnePending(s) && Chained(l, s.gens) && Current(s)
  }

  lemma BirthKeepsInv(l: Limits, s: State, caller: nat, gone: bool)
    requires Inv(l, s) && s.pending == map[] && (s.entry.None? || (gone && MayBeGone(s.entry, s.now)))
    ensures Inv(l, Count(l, s, caller, gone))
  {
    var t := Count(l, s, caller, gone);
    var n := |s.gens|;
    assert t.gens[..n] == s.gens;
    assert Counted(l, t.gens[n]);
    assert t.pending == map[caller := n];
  }

  lemma ChainedLast(l: Limits, gens: seq<Generation>, g: Generation)
    requires Chained(l, gens) && gens != []
    requires Counted(l, g) && Lasts(l, g) && g.born == gens[|gens| - 1].born
    ensures Chained(l, gens[..|gens| - 1] + [g])
  {
    var n := |gens| - 1;
    assert (gens[..n] + [g])[..n] == gens[..n];
  }

  lemma GrowthKeepsInv(l: Limits, s: State, caller: nat)
    requires Inv(l, s) && MayBeLive(s.entry, s.now)
    ensures Inv(l, Count(l, s, caller, false))
  {
    var g := s.gens[|s.gens| - 1];
    var a := Arrival(s.now, !Exceeded(s.entry.value.count + 1, l.maxRequests));
    LastOfChain(l, s.gens);
    GrowthCounted(l, g, a);
    ChainedLast(l, s.gens, g.(arrivals := g.arrivals + [a]));
    GrowthState(l, s, caller, g, a);
  }

  lemma LastOfChain(l: Limits, gens: seq<Generation>)
    requires Chained(l, gens) && gens != []
    ensures Counted(l, gens[|gens| - 1]) && Lasts(l, gens[|gens| - 1]) && gens[|gens| - 1].arrivals != []
  {
  }

  lemma GrowthState(l: Limits, s: State, caller: nat, g: Generation, a: Arrival)
    requires OnePending(s) && Current(s) && MayBeLive(s.entry, s.now)
    requires s.gens != [] && g == s.gens[|s.gens| - 1] && g.arrivals != []
    requires a == Arrival(s.now, !Exceeded(s.entry.value.count + 1, l.maxRequests))
    ensures var t := Count(l, s, caller, false);
            && t.gens == s.gens[..|s.gens| - 1] + [g.(arrivals := g.arrivals + [a])]
            && OnePending(t) && Current(t)
  {
  }

  lemma GrowthCounted(l: Limits, g: Generation, a: Arrival)
    requires Counted(l, g) && AllBy(g, a.at)
    requires a.admitted <==> |g.arrivals| < LimitOf(l, g)
    ensures Counted(l, g.(arrivals := g.arrivals + [a])) && AllBy(g.(arrivals := g.arrivals + [a]), a.at)
  {
  }

  lemma FixChained(l: Limits, gens: seq<Generation>, now: int)
    requires Chained(l, gens) && gens != [] && AllBy(gens[|gens| - 1], now) && !gens[|gens| - 1].failed
    ensures Chained(l, gens[..|gens| - 1] + [gens[|gens| - 1].(until := Some(now + Max(0, l.window)))])
  {
    var g := gens[|gens| - 1];
    assert g.arrivals[0].at == g.born;
    ChainedLast(l, gens, g.(until := Some(now + Max(0, l.window))));
  }

  lemma FixKeepsInv(l: Limits, s: State, caller: nat)
    requires Inv(l, s) && caller in s.pending
    ensures Inv(l, Fix(l, s, caller))
  {
    assert s.entry.Some?;
    assert |s.pending - {caller}| == 0;
    LastOfChain(l, s.gens);
    FixChained(l, s.gens, s.now);
    FixState(l, s, caller);
  }

  lemma FixState(l: Limits, s: State, caller: nat)
    requires OnePending(s) && Current(s) && s.entry.Some? && s.gens != [] && s.pending - {caller} == map[]
    requires !LifeFailed(s)
    ensures OnePending(Fix(l, s, caller)) && Current(Fix(l, s, caller))
  {
  }

  lemma LostIsCounted(l: Limits, g: Generation)
    requires Counted(l, g) && !g.failed
    ensures Counted(l, Lost(g)) && Lost(g).born == g.born && |Lost(g).arrivals| == |g.arrivals|
    ensures forall t :: AllBy(g, t) ==> AllBy(Lost(g), t)
  {
    var h := Lost(g);
    assert forall i :: 0 < i < |g.arrivals| ==> h.arrivals[i] == g.arrivals[i];
  }

  lemma LoseKeepsInv(l: Limits, s: State, caller: nat)
    requires Inv(l, s) && caller in s.pending
    ensures Inv(l, Lose(s, caller))
  {
    var g := s.gens[|s.gens| - 1];
    assert |s.pending - {caller}| == 0;
    LostIsCounted(l, g);
    ChainedLast(l, s.gens, Lost(g));
  }

  lemma StepKeepsInv(l: Limits, s: State, a: Action)
    requires Inv(l, s)
    ensures Inv(l, Do(l, s, a))
  {
    match a
    case Tick(seconds) =>
    case Incr(caller, gone) =>
      if Do(l, s, a) != s {
        if s.entry.None? || gone {
          BirthKeepsInv(l, s, caller, gone);
        } else {
          GrowthKeepsInv(l, s, caller);
        }
      }
    case Expire(caller) =>
      if caller in s.pending {
        FixKeepsInv(l, s, caller);
      }
    case ExpireFails(caller) =>
      if caller in s.pending {
        LoseKeepsInv(l, s, caller);
      }
    case Reap =>
  }

  lemma {:induction false} RunKeepsInv(l: Limits, actions: seq<Action>)
    ensures Inv(l, Exec(l, actions))
  {
    if actions != [] {
      RunKeepsInv(l, actions[..|actions| - 1]);
      StepKeepsInv(l, Exec(l, actions[..|actions| - 1]), actions[|actions| - 1]);
    }
  }

  // ---- What the invariant means for callers ----

  // The EXPIRE of a pending caller belongs to the latest life and gives the key its deadline.
  ghost predicate ExpireSettles(l: Limits, s: State, caller: nat) {
    && caller in s.pending && s.pending[caller] == |s.gens| - 1 && s.entry.Some?
    && Fix(l, s, caller).pending == map[]
    && Fix(l, s, caller).entry ==
       (if l.window <= 0 then None else Some(Entry(s.entry.value.count, Some(s.now + l.window))))
  }

  lemma PendingSettles(l: Limits, s: State, caller: nat)
    requires OnePending(s) && caller in s.pending
    ensures ExpireSettles(l, s, caller)
  {
    assert |s.pending - {caller}| == 0;
  }

  /**
   A key without a TTL is about to get one, by the one EXPIRE of its life that is still to come,
   unless that EXPIRE failed.
   */
  lemma NeverStuck(l: Limits, actions: seq<Action>)
    ensures var s := Exec(l, actions);
            && (WithoutTtl(s) && !LifeFailed(s) <==> |s.pending| == 1)
            && |s.pending| <= 1
            && forall caller :: caller in s.pending ==>
                                  ExpireSettles(l, s, caller) && Do(l, s, Expire(caller)) == Fix(l, s, caller)
  {
    RunKeepsInv(l, actions);
    var s := Exec(l, actions);
    forall caller | caller in s.pending ensures ExpireSettles(l, s, caller) {
      PendingSettles(l, s, caller);
    }
  }

  function Admitted(arrivals: seq<Arrival>): nat {
    if arrivals == [] then 0
    else Admitted(arrivals[..|arrivals| - 1]) + if arrivals[|arrivals| - 1].admitted then 1 else 0
  }

  lemma {:induction false} AdmittedFirst(arrivals: seq<Arrival>, maxRequests: int)
    requires forall i :: 0 <= i < |arrivals| ==> (arrivals[i].admitted <==> i < maxRequests)
    ensures Admitted(arrivals) == Min(|arrivals|, Max(0, maxRequests))
  {
    if arrivals != [] {
      AdmittedFirst(arrivals[..|arrivals| - 1], maxRequests);
    }
  }

  /** Each life of the key admits exactly the smaller of its arrivals and the limit. */
  lemma GenerationAdmits(l: Limits, actions: seq<Action>, i: nat)
    requires i < |Exec(l, actions).gens|
    ensures var g := Exec(l, actions).gens[i]; Admitted(g.arrivals) == Min(|g.arrivals|, Max(0, LimitOf(l, g)))
  {
    RunKeepsInv(l, actions);
    ChainedCounts(l, Exec(l, actions).gens, i);
    AdmittedFirst(Exec(l, actions).gens[i].arrivals, LimitOf(l, Exec(l, actions).gens[i]));
  }

  lemma {:induction false} ChainedCounts(l: Limits, gens: seq<Generation>, i: nat)
    requires Chained(l, gens) && i < |gens|
    ensures Counted(l, gens[i])
  {
    if i < |gens| - 1 {
      ChainedCounts(l, gens[..|gens| - 1], i);
    }
  }

  // ---- A failed EXPIRE ----

  predicate NoneFails(actions: seq<Action>) { forall a :: a in actions ==> !a.ExpireFails? }

  lemma StepFails(l: Limits, s: State, a: Action)
    requires Inv(l, s)
    ensures LifeFailed(s) ==> LifeFailed(Do(l, s, a)) && |Do(l, s, a).gens| == |s.gens|
    ensures !LifeFailed(s) && !a.ExpireFails? ==> !LifeFailed(Do(l, s, a))
  {
  }

  /**
   A key is stuck, without a TTL and without anyone about to set one, exactly when the EXPIRE of
   its current life failed.
   */
  lemma StuckIffExpireFailed(l: Limits, actions: seq<Action>)
    ensures var s := Exec(l, actions); WithoutTtl(s) && s.pending == map[] <==> LifeFailed(s)
    ensures NoneFails(actions) ==> !LifeFailed(Exec(l, actions))
  {
    RunKeepsInv(l, actions);
    if NoneFails(actions) {
      NothingFailed(l, actions);
    }
  }

  lemma {:induction false} NothingFailed(l: Limits, actions: seq<Action>)
    requires NoneFails(actions)
    ensures !LifeFailed(Exec(l, actions))
  {
    if actions != [] {
      NothingFailed(l, actions[..|actions| - 1]);
      RunKeepsInv(l, actions[..|actions| - 1]);
      StepFails(l, Exec(l, actions[..|actions| - 1]), actions[|actions| - 1]);
    }
  }

  // Still in the life whose EXPIRE failed.
  ghost predicate StillFailed(s: State, t: State) { LifeFailed(t) && |t.gens| == |s.gens| }

  lemma {:induction false} FailedStays(l: Limits, actions: seq<Action>, more: seq<Action>)
    requires LifeFailed(Exec(l, actions))
    ensures StillFailed(Exec(l, actions), Exec(l, actions + more))
  {
    if more == [] {
      assert actions + more == actions;
    } else {
      var front, a := more[..|more| - 1], more[|more| - 1];
      FailedStays(l, actions, front);
      ExecStep(l, actions + front, a);
      assert actions + more == (actions + front) + [a];
      RunKeepsInv(l, actions + front);
      StepFails(l, Exec(l, actions + front), a);
    }
  }

  /** Two steps are enough: a first request whose EXPIRE fails leaves a key that never expires. */
  lemma OneFailureSticks(l: Limits)
    ensures LifeFailed(Exec(l, [Incr(0, false), ExpireFails(0)]))
  {
    TwoMore(l, [], Start(), Incr(0, false), ExpireFails(0));
    assert [] + [Incr(0, false)] + [ExpireFails(0)] == [Incr(0, false), ExpireFails(0)];
  }

  /** A stuck key never expires: its one life goes on for ever and admits Max(1, maxRequests) requests in all. */
  lemma StuckForEver(l: Limits, actions: seq<Action>, more: seq<Action>)
    requires LifeFailed(Exec(l, actions))
    ensures var s, t := Exec(l, actions), Exec(l, actions + more);
            && WithoutTtl(t) && t.pending == map[] && |t.gens| == |s.gens| > 0
            && Admitted(t.gens[|t.gens| - 1].arrivals) <= Max(1, l.maxRequests)
  {
    FailedStays(l, actions, more);
    RunKeepsInv(l, actions + more);
    GenerationAdmits(l, actions + more, |Exec(l, actions + more).gens| - 1);
  }

  // ---- A life ends with its deadline ----

  /** No request is counted in a life after its deadline. */
  lemma {:induction false} NoneAfterDeadline(l: Limits, gens: seq<Generation>, i: nat)
    requires Chained(l, gens) && i < |gens| && gens[i].until.Some?
    ensures forall k :: 0 <= k < |gens[i].arrivals| ==> gens[i].arrivals[k].at <= gens[i].until.value
  {
    var n := |gens| - 1;
    if i < n {
      NoneAfterDeadline(l, gens[..n], i);
    }
  }

  lemma LivesEnd(l: Limits, actions: seq<Action>, i: nat)
    requires i < |Exec(l, actions).gens| && Exec(l, actions).gens[i].until.Some?
    ensures var g := Exec(l, actions).gens[i];
            forall k :: 0 <= k < |g.arrivals| ==> g.born <= g.arrivals[k].at <= g.until.value
  {
    RunKeepsInv(l, actions);
    NoneAfterDeadline(l, Exec(l, actions).gens, i);
    ChainedCounts(l, Exec(l, actions).gens, i);
  }

  /** Once the deadline has passed, the next request starts a new life, and is its first. */
  lemma NextLifeBegins(l: Limits, actions: seq<Action>, caller: nat)
    requires var s := Exec(l, actions);
             s.entry.Some? && s.entry.value.deadline.Some? && s.now > s.entry.value.deadline.value
    ensures var s := Exec(l, actions);
            && caller !in s.pending && Do(l, s, Incr(caller, false)) == s
            && var t := Do(l, s, Incr(caller, true));
               t.gens == s.gens + [Generation(s.now, None, [Arrival(s.now, l.maxRequests >= 1)], false)]
    ensures Do(l, Exec(l, actions), Reap).entry == None
  {
    RunKeepsInv(l, actions);
  }

  // ---- Any window of time ----

  // Admitted arrivals with lo <= at < hi.
  function AdmittedBetween(arrivals: seq<Arrival>, lo: int, hi: int): nat {
    if arrivals == [] then 0
    else
      var a := arrivals[|arrivals| - 1];
      AdmittedBetween(arrivals[..|arrivals| - 1], lo, hi) + if a.admitted && lo <= a.at < hi then 1 else 0
  }

  function AllAdmittedBetween(gens: seq<Generation>, lo: int, hi: int): nat {
    if gens == [] then 0
    else AllAdmittedBetween(gens[..|gens| - 1], lo, hi) + AdmittedBetween(gens[|gens| - 1].arrivals, lo, hi)
  }

  lemma {:induction false} BetweenAtMostAdmitted(arrivals: seq<Arrival>, lo: int, hi: int)
    ensures AdmittedBetween(arrivals, lo, hi) <= Admitted(arrivals)
    ensures arrivals != [] && arrivals[0].admitted && arrivals[0].at < lo ==>
              AdmittedBetween(arrivals, lo, hi) < Admitted(arrivals)
  {
    if arrivals != [] {
      BetweenAtMostAdmitted(arrivals[..|arrivals| - 1], lo, hi);
    }
  }

  lemma {:induction false} NoneBetween(arrivals: seq<Arrival>, lo: int, hi: int)
    requires forall k :: 0 <= k < |arrivals| ==> arrivals[k].at < lo
    ensures AdmittedBetween(arrivals, lo, hi) == 0
  {
    if arrivals != [] {
      NoneBetween(arrivals[..|arrivals| - 1], lo, hi);
    }
  }

  lemma {:induction false} SomeBetween(arrivals: seq<Arrival>, lo: int, hi: int) returns (k: nat)
    requires AdmittedBetween(arrivals, lo, hi) > 0
    ensures k < |arrivals| && lo <= arrivals[k].at < hi
  {
    var n := |arrivals| - 1;
    if arrivals[n].admitted && lo <= arrivals[n].at < hi {
      k := n;
    } else {
      k := SomeBetween(arrivals[..n], lo, hi);
    }
  }

  lemma {:induction false} NothingSoEarly(l: Limits, gens: seq<Generation>, lo: int, hi: int)
    requires Chained(l, gens) && (gens != [] ==> AllBefore(gens[|gens| - 1], lo))
    ensures AllAdmittedBetween(gens, lo, hi) == 0
  {
    if gens != [] {
      var n := |gens| - 1;
      NoneBetween(gens[n].arrivals, lo, hi);
      if n > 0 {
        assert gens[n].arrivals[0].at == gens[n].born;
        assert AllBefore(gens[n - 1], lo);
      }
      NothingSoEarly(l, gens[..n], lo, hi);
    }
  }

  lemma OneGeneration(l: Limits, g: Generation, lo: int, hi: int)
    requires Counted(l, g)
    ensures AdmittedBetween(g.arrivals, lo, hi) <= Max(0, LimitOf(l, g))
    ensures g.born < lo ==> AdmittedBetween(g.arrivals, lo, hi) <= Max(0, LimitOf(l, g) - 1)
  {
    BetweenAtMostAdmitted(g.arrivals, lo, hi);
    AdmittedFirst(g.arrivals, LimitOf(l, g));
  }

  // When a generation is hit, the one before it can be too, but not by its first request.
  lemma PreviousGeneration(l: Limits, gens: seq<Generation>, lo: int)
    requires Chained(l, gens) && gens != [] && gens[|gens| - 1].born < lo && !gens[|gens| - 1].failed
    ensures AllAdmittedBetween(gens, lo, lo + l.window) <= Max(0, l.maxRequests - 1)
  {
    var n := |gens| - 1;
    OneGeneration(l, gens[n], lo, lo + l.window);
    if n > 0 {
      assert AllBefore(gens[n - 1], lo);
    }
    NothingSoEarly(l, gens[..n], lo, lo + l.window);
  }

  // 2 * maxRequests - 1, or the one request a failed EXPIRE lets through.
  function WindowLimit(l: Limits, gens: seq<Generation>): nat {
    Max(if gens != [] && gens[|gens| - 1].failed then 1 else 0, 2 * l.maxRequests - 1)
  }

  lemma LastTwo(l: Limits, gens: seq<Generation>, lo: int)
    requires Chained(l, gens) && gens != []
    requires AdmittedBetween(gens[|gens| - 1].arrivals, lo, lo + l.window) > 0
    ensures AllAdmittedBetween(gens, lo, lo + l.window) <= WindowLimit(l, gens)
  {
    var n := |gens| - 1;
    var k := SomeBetween(gens[n].arrivals, lo, lo + l.window);
    OneGeneration(l, gens[n], lo, lo + l.window);
    assert gens[n].born == gens[n].arrivals[0].at <= gens[n].arrivals[k].at;
    if n > 0 {
      assert gens[..n][n - 1] == gens[n - 1];
      PreviousGeneration(l, gens[..n], lo);
    }
  }

  lemma {:induction false} WindowBound(l: Limits, gens: seq<Generation>, lo: int)
    requires Chained(l, gens)
    ensures AllAdmittedBetween(gens, lo, lo + l.window) <= WindowLimit(l, gens)
  {
    if gens != [] {
      if AdmittedBetween(gens[|gens| - 1].arrivals, lo, lo + l.window) > 0 {
        LastTwo(l, gens, lo);
      } else {
        WindowBound(l, gens[..|gens| - 1], lo);
      }
    }
  }

  /**
   In any half-open interval as long as the window, at most 2 * maxRequests - 1 requests are
   admitted; with a limit below one only a failed EXPIRE admits a request, and only one.
   */
  lemma AnyWindowAdmits(l: Limits, actions: seq<Action>, lo: int)
    ensures AllAdmittedBetween(Exec(l, actions).gens, lo, lo + l.window) <=
            Max(if LifeFailed(Exec(l, actions)) then 1 else 0, 2 * l.maxRequests - 1)
  {
    RunKeepsInv(l, actions);
    WindowBound(l, Exec(l, actions).gens, lo);
  }

  // ---- The bound is attained ----

  function Copies(n: nat, a: Arrival): (r: seq<Arrival>)
    ensures |r| == n
  {
    if n == 0 then [] else Copies(n - 1, a) + [a]
  }

  lemma {:induction false} CopiesCount(arrivals: seq<Arrival>, n: nat, a: Arrival, lo: int, hi: int)
    requires a.admitted
    ensures AdmittedBetween(arrivals + Copies(n, a), lo, hi) ==
            AdmittedBetween(arrivals, lo, hi) + if lo <= a.at < hi then n else 0
  {
    if n == 0 {
      assert arrivals + Copies(0, a) == arrivals;
    } else {
      CopiesCount(arrivals, n - 1, a, lo, hi);
      assert (arrivals + Copies(n, a))[..|arrivals| + n - 1] == arrivals + Copies(n - 1, a);
    }
  }

  function Burst(n: nat, caller: nat): seq<Action> {
    if n == 0 then [] else Burst(n - 1, caller) + [Incr(caller, false)]
  }

  lemma ExecStep(l: Limits, actions: seq<Action>, a: Action)
    ensures Exec(l, actions + [a]) == Do(l, Exec(l, actions), a)
  {
    assert (actions + [a])[..|actions + [a]| - 1] == actions;
  }

  predicate CanTake(l: Limits, s: State, n: nat, caller: nat) {
    && s.gens != [] && MayBeLive(s.entry, s.now) && caller !in s.pending
    && 1 <= s.entry.value.count && s.entry.value.count + n <= l.maxRequests
  }

  // The state after n more admitted requests at the current instant.
  function Grown(s: State, n: nat): State
    requires s.gens != [] && s.entry.Some?
  {
    var g := s.gens[|s.gens| - 1];
    s.(entry := Some(s.entry.value.(count := s.entry.value.count + n)),
       gens := s.gens[..|s.gens| - 1] + [g.(arrivals := g.arrivals + Copies(n, Arrival(s.now, true)))])
  }

  lemma GrowNone(s: State)
    requires s.gens != [] && s.entry.Some?
    ensures Grown(s, 0) == s
  {
    var g := s.gens[|s.gens| - 1];
    assert g.arrivals + Copies(0, Arrival(s.now, true)) == g.arrivals;
  }

  lemma GrowOne(l: Limits, s: State, n: nat, caller: nat)
    requires CanTake(l, s, n + 1, caller)
    ensures Do(l, Grown(s, n), Incr(caller, false)) == Grown(s, n + 1)
  {
    var g, a := s.gens[|s.gens| - 1], Arrival(s.now, true);
    var t := Grown(s, n);
    assert t.gens[..|t.gens| - 1] == s.gens[..|s.gens| - 1];
    assert (g.arrivals + Copies(n, a)) + [a] == g.arrivals + Copies(n + 1, a);
  }

  function Hit(l: Limits, caller: nat): State -> State { (s: State) => Do(l, s, Incr(caller, false)) }

  function GrownAt(s: State): nat -> State {
    (n: nat) => if s.gens != [] && s.entry.Some? then Grown(s, n) else s
  }

  // A burst of requests within the limit at one instant extends the current generation.
  lemma RepeatGrows(l: Limits, s: State, n: nat, caller: nat)
    requires CanTake(l, s, n, caller)
    ensures Repeat(Hit(l, caller), s, n) == Grown(s, n)
  {
    GrowNone(s);
    forall k: nat | k < n ensures Hit(l, caller)(GrownAt(s)(k)) == GrownAt(s)(k + 1) {
      GrowOne(l, s, k, caller);
    }
    RepeatIs(Hit(l, caller), GrownAt(s), s, n);
  }

  lemma BurstGrows(actions: seq<Action>, n: nat, caller: nat)
    requires n > 0
    ensures actions + Burst(n, caller) == (actions + Burst(n - 1, caller)) + [Incr(caller, false)]
  {
  }

  lemma {:induction false} ExecBurst(l: Limits, actions: seq<Action>, n: nat, caller: nat)
    ensures Exec(l, actions + Burst(n, caller)) == Repeat(Hit(l, caller), Exec(l, actions), n)
  {
    if n == 0 {
      assert actions + Burst(0, caller) == actions;
    } else {
      ExecBurst(l, actions, n - 1, caller);
      BurstGrows(actions, n, caller);
      ExecStep(l, actions + Burst(n - 1, caller), Incr(caller, false));
    }
  }

  lemma BurstFrom(l: Limits, actions: seq<Action>, s: State, n: nat, caller: nat)
    requires s == Exec(l, actions) && CanTake(l, s, n, caller)
    ensures Exec(l, actions + Burst(n, caller)) == Grown(s, n)
  {
    RepeatGrows(l, s, n, caller);
    ExecBurst(l, actions, n, caller);
  }

  lemma TwoMore(l: Limits, actions: seq<Action>, s: State, a: Action, b: Action)
    requires s == Exec(l, actions)
    ensures Exec(l, actions + [a] + [b]) == Do(l, Do(l, s, a), b)
  {
    ExecStep(l, actions, a);
    ExecStep(l, actions + [a], b);
  }

  function OneLife(l: Limits, arrivals: seq<Arrival>): Generation { Generation(0, Some(l.window), arrivals, false) }

  // A tick before a deadline at l.window, or at it when the window is a single tick.
  function Early(l: Limits): nat
    requires l.window >= 1
  {
    if l.window >= 2 then l.window - 1 else l.window
  }

  // A first life, shortly before its deadline.
  function FirstLife(l: Limits, arrivals: seq<Arrival>): State
    requires l.window >= 1
  {
    State(Early(l), Some(Entry(|arrivals|, Some(l.window))), map[], [OneLife(l, arrivals)])
  }

  // A second life, at the deadline of the first.
  function SecondLife(l: Limits, arrivals: seq<Arrival>, next: seq<Arrival>): State {
    State(l.window, Some(Entry(|next|, None)), map[0 := 1],
          [OneLife(l, arrivals), Generation(l.window, None, next, false)])
  }

  lemma OneAdmitted(l: Limits)
    requires l.maxRequests >= 1 && l.window >= 1
    ensures Do(l, Do(l, Start(), Incr(0, false)), Expire(0)) ==
            State(0, Some(Entry(1, Some(l.window))), map[], [OneLife(l, [Arrival(0, true)])])
  {
    assert map[0 := 0] - {0} == map[];
  }

  // The first request of a life, and its EXPIRE.
  lemma StartLife(l: Limits) returns (actions: seq<Action>)
    requires l.maxRequests >= 1 && l.window >= 1
    ensures Exec(l, actions) == FirstLife(l, [Arrival(0, true)])
  {
    OneAdmitted(l);
    TwoMore(l, [], Start(), Incr(0, false), Expire(0));
    ExecStep(l, [] + [Incr(0, false)] + [Expire(0)], Tick(Early(l)));
    actions := [] + [Incr(0, false)] + [Expire(0)] + [Tick(Early(l))];
  }

  // The next life's first request at the deadline.
  lemma NextLife(l: Limits, arrivals: seq<Arrival>)
    requires l.maxRequests >= 1 && l.window >= 1
    ensures Do(l, Do(l, FirstLife(l, arrivals), Tick(l.window - Early(l))), Incr(0, true)) ==
            SecondLife(l, arrivals, [Arrival(l.window, true)])
  {
  }

  lemma FirstLifeGrows(l: Limits, a: Arrival, n: nat)
    requires l.window >= 1
    ensures Grown(FirstLife(l, [a]), n) == FirstLife(l, [a] + Copies(n, Arrival(Early(l), true)))
  {
  }

  lemma SecondLifeGrows(l: Limits, arrivals: seq<Arrival>, a: Arrival, n: nat)
    ensures Grown(SecondLife(l, arrivals, [a]), n) == SecondLife(l, arrivals, [a] + Copies(n, Arrival(l.window, true)))
  {
  }

  lemma FillFirstLife(l: Limits) returns (actions: seq<Action>)
    requires l.maxRequests >= 1 && l.window >= 1
    ensures Exec(l, actions) ==
            FirstLife(l, [Arrival(0, true)] + Copies(l.maxRequests - 1, Arrival(Early(l), true)))
  {
    var a := StartLife(l);
    BurstFrom(l, a, FirstLife(l, [Arrival(0, true)]), l.maxRequests - 1, 0);
    FirstLifeGrows(l, Arrival(0, true), l.maxRequests - 1);
    actions := a + Burst(l.maxRequests - 1, 0);
  }

  lemma FillSecondLife(l: Limits, first: seq<Action>, arrivals: seq<Arrival>) returns (actions: seq<Action>)
    requires l.maxRequests >= 1 && l.window >= 1 && Exec(l, first) == FirstLife(l, arrivals)
    ensures Exec(l, actions) ==
            SecondLife(l, arrivals, [Arrival(l.window, true)] + Copies(l.maxRequests - 1, Arrival(l.window, true)))
  {
    var a := first + [Tick(l.window - Early(l))] + [Incr(0, true)];
    TwoMore(l, first, FirstLife(l, arrivals), Tick(l.window - Early(l)), Incr(0, true));
    NextLife(l, arrivals);
    BurstFrom(l, a, SecondLife(l, arrivals, [Arrival(l.window, true)]), l.maxRequests - 1, 1);
    SecondLifeGrows(l, arrivals, Arrival(l.window, true), l.maxRequests - 1);
    actions := a + Burst(l.maxRequests - 1, 1);
  }

  /** 2 * maxRequests - 1 is reached, for every limit of at least one and every positive window. */
  lemma BoundIsAttained(l: Limits) returns (actions: seq<Action>)
    requires l.maxRequests >= 1 && l.window >= 1
    ensures AllAdmittedBetween(Exec(l, actions).gens, Early(l), Early(l) + l.window) == 2 * l.maxRequests - 1
  {
    var n := l.maxRequests - 1;
    var early, late := Arrival(Early(l), true), Arrival(l.window, true);
    var first, second := [Arrival(0, true)] + Copies(n, early), [late] + Copies(n, late);
    var a := FillFirstLife(l);
    actions := FillSecondLife(l, a, first);
    CountBoth(l, OneLife(l, first), Generation(l.window, None, second, false), n, early, late);
  }

  lemma {:induction false} CountBoth(l: Limits, first: Generation, second: Generation, n: nat, early: Arrival,
      late: Arrival)
    requires l.window >= 1 && early == Arrival(Early(l), true) && late == Arrival(l.window, true)
    requires first.arrivals == [Arrival(0, true)] + Copies(n, early) && second.arrivals == [late] + Copies(n, late)
    ensures AllAdmittedBetween([first, second], Early(l), Early(l) + l.window) == 2 * n + 1
  {
    var lo, hi := Early(l), Early(l) + l.window;
    CopiesCount([Arrival(0, true)], n, early, lo, hi);
    CopiesCount([late], n, late, lo, hi);
    OneArrival(Arrival(0, true), lo, hi);
    OneArrival(late, lo, hi);
    assert [first, second][..1] == [first] && [first][..0] == [];
    assert AllAdmittedBetween([], lo, hi) == 0;
    assert AllAdmittedBetween([first], lo, hi) == AdmittedBetween(first.arrivals, lo, hi);
  }

  lemma OneArrival(a: Arrival, lo: int, hi: int)
    ensures AdmittedBetween([a], lo, hi) == if a.admitted && lo <= a.at < hi then 1 else 0
  {
    assert [a][..0] == [];
    assert AdmittedBetween([], lo, hi) == 0;
  }

  // ---- One call, without other callers in between ----

  // What a call leaves of the key: counted, and with a deadline when the count is one.
  function AfterCall(entry: Option<Entry>, gone: bool, now: int, window: int): Option<Entry> {
    var e := Incremented(entry, gone);
    if e.count == 1 then WithExpiry(Some(e), now, window) else Some(e)
  }

  /** A call that nobody interrupts is its INCR step and, when that started a new life, its EXPIRE step. */
  lemma CallIsItsSteps(l: Limits, s: State, caller: nat, gone: bool)
    requires Inv(l, s) && caller !in s.pending
    requires if gone then MayBeGone(s.entry, s.now) else s.entry.None? || MayBeLive(s.entry, s.now)
    ensures var counted := Do(l, s, Incr(caller, gone));
            && (caller in counted.pending <==> Incremented(s.entry, gone).count == 1)
            && Do(l, counted, Expire(caller)).entry == AfterCall(s.entry, gone, s.now, l.window)
  {
    assert s.entry.Some? ==> s.entry.value.count >= 1;
  }

  class Redis {
    var now: int
    var entries: map<string, Entry>

    constructor (now: int)
      ensures this.now == now && entries == map[]
    {
      this.now, entries := now, map[];
    }

    function Lookup(key: string): Option<Entry>
      reads this
    {
      if key in entries then Some(entries[key]) else None
    }

    // A key past its deadline reads as missing.
    predicate Gone(key: string)
      reads this
    {
      MayBeGone(Lookup(key), now) && !MayBeLive(Lookup(key), now)
    }

    method Increment(key: string) returns (count: nat)
      modifies this`entries
      ensures entries == old(entries)[key := Incremented(old(Lookup(key)), old(Gone(key)))]
      ensures count == entries[key].count
    {
      var e := Incremented(Lookup(key), Gone(key));
      entries := entries[key := e];
      count := e.count;
    }

    method ExpireIn(key: string, seconds: int)
      modifies this`entries
      ensures Lookup(key) == WithExpiry(old(Lookup(key)), now, seconds)
      ensures entries == match Lookup(key)
                         case Some(e) => old(entries)[key := e]
                         case None => old(entries) - {key}
      ensures forall k :: k != key ==> Lookup(k) == old(Lookup(k))
    {
      match WithExpiry(Lookup(key), now, seconds)
      case Some(e) => entries := entries[key := e];
      case None => entries := entries - {key};
    }
  }

  // The key has no deadline, or its deadline has not passed.
  predicate LiveAt(entries: map<string, Entry>, key: string, now: int) {
    key in entries && (entries[key].deadline.Some? ==> now <= entries[key].deadline.value)
  }

  // rate_limit_exceeded; conn is null when no client could be built, and counts and expires tell
  // whether INCR and EXPIRE succeed. Whatever fails, the call is let through.
  method RateLimitExceeded(key: string, maxRequests: int, windowSeconds: int, conn: Redis?, counts: bool, expires: bool)
    returns (exceeded: bool)
    modifies conn
    ensures conn == null || !counts ==> !exceeded
    ensures conn != null && !counts ==> conn.entries == old(conn.entries)
    ensures conn != null && counts ==>
              var e := Incremented(old(conn.Lookup(key)), old(conn.Gone(key)));
              && conn.now == old(conn.now)
              && (exceeded <==> e.count > maxRequests && (e.count != 1 || expires))
              && conn.Lookup(key) ==
                 (if expires then AfterCall(old(conn.Lookup(key)), old(conn.Gone(key)), conn.now, windowSeconds)
                                      else Some(e))
              && forall k :: k != key ==> conn.Lookup(k) == old(conn.Lookup(k))
    // A live key keeps its deadline and counts one more; any other starts at one.
    ensures conn != null && counts && LiveAt(old(conn.entries), key, conn.now) ==>
              var count := old(conn.entries)[key].count + 1;
              && (exceeded <==> count > maxRequests && (count != 1 || expires))
              && (count != 1 ==>
                    conn.entries == old(conn.entries)[key := Entry(count, old(conn.entries)[key].deadline)])
    ensures conn != null && counts && !LiveAt(old(conn.entries), key, conn.now) ==>
              && (exceeded <==> 1 > maxRequests && expires)
              && conn.entries == if !expires then old(conn.entries)[key := Entry(1, None)]
                                 else if windowSeconds > 0
                                 then old(conn.entries)[key := Entry(1, Some(conn.now + windowSeconds))]
                                 else old(conn.entries) - {key}
  {
    if conn == null || !counts {
      return false;
    }
    var count := conn.Increment(key);
    if count == 1 {
      if !expires {
        return false;
      }
      conn.ExpireIn(key, windowSeconds);
    }
    exceeded := Exceeded(count, maxRequests);
  }
}
