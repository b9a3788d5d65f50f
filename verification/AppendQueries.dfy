/**
 The stateless queries: raw clicks to ClickHouse and parse failures to the dead-letter topic.
 Each batch may be delivered several times, in part or whole, before it is committed.
 */
module AppendQueries {
  import opened Log
  import opened Parsing
  import opened Wrappers

  // delivered: the raw messages whose rows reached the sink, attempt after attempt.
  datatype Feed = Feed(topic: Topic, ends: seq<Offsets>, commits: nat, delivered: seq<Raw>, written: bool)

  datatype Move =
    | Append(partition: nat, raw: Raw)
    | PlanTo(end: Offsets)
    | Deliver(raws: seq<Raw>)
    | DieDelivering(raws: seq<Raw>)
    | Die
    | CommitBatch

  function LastEnd(topic: Topic, ends: seq<Offsets>): Offsets {
    if ends == [] then Zeros(|topic|) else ends[|ends| - 1]
  }

  ghost predicate Ordered(topic: Topic, ends: seq<Offsets>) {
    ends == [] ||
    (Ordered(topic, ends[..|ends| - 1]) && Range(topic, LastEnd(topic, ends[..|ends| - 1]), ends[|ends| - 1]))
  }

  ghost predicate Flying(f: Feed) { |f.ends| == f.commits + 1 && Ordered(f.topic, f.ends) }

  ghost predicate Resting(f: Feed) { |f.ends| == f.commits }

  ghost function Current(f: Feed): seq<Raw>
    requires Flying(f)
  {
    Slice(f.topic, LastEnd(f.topic, f.ends[..f.commits]), f.ends[f.commits])
  }

  ghost function Advance(f: Feed, m: Move): Feed {
    match m
    case Append(p, raw) => if p < |f.topic| then f.(topic := f.topic[p := f.topic[p] + [raw]]) else f
    case PlanTo(end) =>
      if Resting(f) && Range(f.topic, LastEnd(f.topic, f.ends), end) then
        f.(ends := f.ends + [end], written := false)
      else f
    case Deliver(raws) =>
      if Flying(f) && !f.written && multiset(raws) == multiset(Current(f)) then
        f.(delivered := f.delivered + raws, written := true)
      else f
    case DieDelivering(raws) =>
      if Flying(f) && multiset(raws) <= multiset(Current(f)) then f.(delivered := f.delivered + raws, written := false)
      else f
    case Die => f.(written := false)
    case CommitBatch => if Flying(f) && f.written then f.(commits := f.commits + 1, written := false) else f
  }

  ghost function Follow(topic: Topic, moves: seq<Move>): Feed {
    if moves == [] then Feed(topic, [], 0, [], false)
    else Advance(Follow(topic, moves[..|moves| - 1]), moves[|moves| - 1])
  }

  predicate CrashFree(moves: seq<Move>) {
    forall m :: m in moves ==> !m.Die? && !m.DieDelivering?
  }

  // ---- At least once, and nothing else ----

  ghost function Through(topic: Topic, ends: seq<Offsets>): seq<Raw>
    requires Range(topic, Zeros(|topic|), LastEnd(topic, ends))
  {
    Slice(topic, Zeros(|topic|), LastEnd(topic, ends))
  }

  // What must have been delivered by now: the committed batches, and the one just written.
  ghost predicate Covered(f: Feed) {
    && f.commits <= |f.ends| <= f.commits + 1
    && Ordered(f.topic, f.ends)
    && Range(f.topic, Zeros(|f.topic|), LastEnd(f.topic, f.ends[..f.commits]))
    && Range(f.topic, Zeros(|f.topic|), LastEnd(f.topic, f.ends))
    && (f.written ==> |f.ends| == f.commits + 1)
    && multiset(Through(f.topic, if f.written then f.ends else f.ends[..f.commits])) <= multiset(f.delivered)
    && (forall raw :: raw in f.delivered ==> raw in Through(f.topic, f.ends))
  }

  ghost predicate ExactlyOnce(f: Feed) {
    && Covered(f)
    && multiset(Through(f.topic, if f.written then f.ends else f.ends[..f.commits])) == multiset(f.delivered)
  }

  lemma {:induction false} OrderedExtends(topic: Topic, more: Topic, ends: seq<Offsets>)
    requires Extends(topic, more) && Ordered(topic, ends)
    ensures Ordered(more, ends) && LastEnd(more, ends) == LastEnd(topic, ends)
  {
    if ends != [] {
      OrderedExtends(topic, more, ends[..|ends| - 1]);
      SliceExtends(topic, more, LastEnd(topic, ends[..|ends| - 1]), ends[|ends| - 1]);
    }
  }

  lemma ThroughExtends(topic: Topic, more: Topic, ends: seq<Offsets>)
    requires Extends(topic, more) && Range(topic, Zeros(|topic|), LastEnd(topic, ends))
    ensures Range(more, Zeros(|more|), LastEnd(more, ends)) && Through(more, ends) == Through(topic, ends)
  {
    SliceExtends(topic, more, Zeros(|topic|), LastEnd(topic, ends));
  }

  lemma AppendKeeps(f: Feed, p: nat, raw: Raw)
    requires Covered(f) && p < |f.topic|
    ensures Covered(Advance(f, Append(p, raw)))
    ensures ExactlyOnce(f) ==> ExactlyOnce(Advance(f, Append(p, raw)))
  {
    var more := f.topic[p := f.topic[p] + [raw]];
    assert Extends(f.topic, more);
    OrderedExtends(f.topic, more, f.ends);
    ThroughExtends(f.topic, more, f.ends);
    ThroughExtends(f.topic, more, f.ends[..f.commits]);
  }

  lemma MembersOfPart<T>(part: seq<T>, rest: seq<T>, all: seq<T>)
    requires multiset(all) == multiset(rest) + multiset(part)
    ensures forall x :: x in part ==> x in all
  {
    forall x | x in part ensures x in all {
      assert x in multiset(part);
      assert x in multiset(all);
    }
  }

  // The planned batch is what lies between the committed and the planned offsets.
  lemma CurrentIsRest(f: Feed)
    requires Covered(f) && Flying(f)
    ensures multiset(Through(f.topic, f.ends)) == multiset(Through(f.topic, f.ends[..f.commits])) + multiset(Current(f))
  {
    RestOfSlice(f.topic, LastEnd(f.topic, f.ends[..f.commits]), f.ends[f.commits]);
  }

  lemma RestOfSlice(topic: Topic, mid: Offsets, end: Offsets)
    requires Range(topic, Zeros(|topic|), mid) && Range(topic, mid, end)
    ensures Range(topic, Zeros(|topic|), end)
    ensures multiset(Slice(topic, Zeros(|topic|), end)) ==
            multiset(Slice(topic, Zeros(|topic|), mid)) + multiset(Slice(topic, mid, end))
  {
    SliceSplit(topic, Zeros(|topic|), mid, end);
  }

  lemma PlanKeeps(f: Feed, end: Offsets)
    requires Covered(f)
    ensures Covered(Advance(f, PlanTo(end)))
    ensures ExactlyOnce(f) ==> ExactlyOnce(Advance(f, PlanTo(end)))
  {
    if Resting(f) && Range(f.topic, LastEnd(f.topic, f.ends), end) {
      var g := Advance(f, PlanTo(end));
      assert g.ends[..|g.ends| - 1] == f.ends && f.ends[..f.commits] == f.ends;
      CoversMore(f, g);
    }
  }

  lemma CoversMore(f: Feed, g: Feed)
    requires Covered(f) && Resting(f) && Flying(g) && g.topic == f.topic && g.ends[..g.commits] == f.ends
    ensures Range(g.topic, Zeros(|g.topic|), LastEnd(g.topic, g.ends))
    ensures forall raw :: raw in Through(f.topic, f.ends) ==> raw in Through(g.topic, g.ends)
  {
    assert f.ends[..f.commits] == f.ends;
    SliceSplit(f.topic, Zeros(|f.topic|), LastEnd(f.topic, f.ends), g.ends[g.commits]);
    forall raw | raw in Through(f.topic, f.ends) ensures raw in Through(g.topic, g.ends) {
      assert raw in multiset(Through(g.topic, g.ends));
    }
  }

  lemma Delivered(f: Feed, raws: seq<Raw>)
    requires Covered(f) && Flying(f) && multiset(raws) <= multiset(Current(f))
    ensures forall raw :: raw in f.delivered + raws ==> raw in Through(f.topic, f.ends)
  {
    CurrentIsRest(f);
    MembersOfPart(Current(f), Through(f.topic, f.ends[..f.commits]), Through(f.topic, f.ends));
    SomeOf(raws, Current(f));
  }

  lemma SomeOf<T>(part: seq<T>, all: seq<T>)
    requires multiset(part) <= multiset(all)
    ensures forall x :: x in part ==> x in all
  {
    forall x | x in part ensures x in all {
      assert x in multiset(part);
      assert x in multiset(all);
    }
  }

  lemma DeliverKeeps(f: Feed, raws: seq<Raw>)
    requires Covered(f)
    ensures Covered(Advance(f, Deliver(raws)))
    ensures ExactlyOnce(f) ==> ExactlyOnce(Advance(f, Deliver(raws)))
  {
    if Flying(f) && !f.written && multiset(raws) == multiset(Current(f)) {
      CurrentIsRest(f);
      Delivered(f, raws);
    }
  }

  lemma DieKeeps(f: Feed, m: Move)
    requires Covered(f) && (m.Die? || m.DieDelivering?)
    ensures Covered(Advance(f, m))
  {
    if Flying(f) {
      CurrentIsRest(f);
      if m.DieDelivering? && multiset(m.raws) <= multiset(Current(f)) {
        Delivered(f, m.raws);
      }
    }
  }

  lemma CommitKeeps(f: Feed)
    requires Covered(f)
    ensures Covered(Advance(f, CommitBatch))
    ensures ExactlyOnce(f) ==> ExactlyOnce(Advance(f, CommitBatch))
  {
    if Flying(f) && f.written {
      assert f.ends[..f.commits + 1] == f.ends;
    }
  }

  lemma AdvanceKeeps(f: Feed, m: Move)
    requires Covered(f)
    ensures Covered(Advance(f, m))
    ensures ExactlyOnce(f) && !m.Die? && !m.DieDelivering? ==> ExactlyOnce(Advance(f, m))
  {
    match m
    case Append(p, raw) => if p < |f.topic| { AppendKeeps(f, p, raw); }
    case PlanTo(end) => PlanKeeps(f, end);
    case Deliver(raws) => DeliverKeeps(f, raws);
    case DieDelivering(raws) => DieKeeps(f, m);
    case Die => DieKeeps(f, m);
    case CommitBatch => CommitKeeps(f);
  }

  lemma {:induction false} FollowCovers(topic: Topic, moves: seq<Move>)
    ensures Covered(Follow(topic, moves))
    ensures CrashFree(moves) ==> ExactlyOnce(Follow(topic, moves))
  {
    if moves == [] {
      SliceEmpty(topic, Zeros(|topic|));
    } else {
      FollowCovers(topic, moves[..|moves| - 1]);
      AdvanceKeeps(Follow(topic, moves[..|moves| - 1]), moves[|moves| - 1]);
    }
  }

  /** A crash during a delivery leaves any part of the batch behind, and the whole of it arrives later. */
  lemma DeliveredInPart(f: Feed, part: seq<Raw>, raws: seq<Raw>)
    requires Flying(f) && multiset(part) <= multiset(Current(f)) && multiset(raws) == multiset(Current(f))
    ensures Advance(Advance(f, DieDelivering(part)), Deliver(raws)).delivered == f.delivered + part + raws
  {
  }

  /** A crash after a delivery makes the batch arrive again: at least once is all there is. */
  lemma DeliveredTwice(f: Feed, raws: seq<Raw>)
    requires Flying(f) && !f.written && multiset(raws) == multiset(Current(f))
    ensures var died := Advance(Advance(f, Deliver(raws)), Die);
            && Advance(died, CommitBatch) == died
            && Advance(died, Deliver(raws)).delivered == f.delivered + raws + raws
  {
  }
}
