/**
 The Kafka topic as the queries read it: partitions of raw messages, vectors of offsets, and
 the parsed rows between two offset vectors.
 */
module Log {
  import opened Clicks
  import opened Parsing
  import opened Wrappers

  type Topic = seq<seq<Raw>>
  type Offsets = seq<nat>

  // The row of a message whose parse result carries an event.
  function RowOf(raw: Raw): seq<Event> {
    match ParsedRow(raw) case Some(e) => [e] case None => []
  }

  function RowOfEach(): Raw -> seq<Event> { (raw: Raw) => RowOf(raw) }

  // parse_events
  function EventsOf(raws: seq<Raw>): seq<Event> { FlatMap(RowOfEach(), raws) }

  ghost predicate Fits(topic: Topic, offsets: Offsets) {
    |offsets| == |topic| && forall p :: 0 <= p < |topic| ==> offsets[p] <= |topic[p]|
  }

  ghost predicate Precedes(a: Offsets, b: Offsets) {
    |a| == |b| && forall p :: 0 <= p < |a| ==> a[p] <= b[p]
  }

  ghost predicate Range(topic: Topic, lo: Offsets, hi: Offsets) {
    Fits(topic, lo) && Fits(topic, hi) && Precedes(lo, hi)
  }

  // The raw messages of an offset range, partition after partition.
  function Slice(topic: Topic, lo: Offsets, hi: Offsets): seq<Raw>
    requires Range(topic, lo, hi)
  {
    if topic == [] then []
    else
      var n := |topic| - 1;
      Slice(topic[..n], lo[..n], hi[..n]) + topic[n][lo[n]..hi[n]]
  }

  function Rows(topic: Topic, lo: Offsets, hi: Offsets): seq<Event>
    requires Range(topic, lo, hi)
  {
    EventsOf(Slice(topic, lo, hi))
  }

  // The topic may only grow at the end of its partitions.
  ghost predicate Extends(topic: Topic, more: Topic) {
    |topic| == |more| && forall p :: 0 <= p < |topic| ==> topic[p] <= more[p]
  }

  lemma EventsOfConcat(a: seq<Raw>, b: seq<Raw>)
    ensures EventsOf(a + b) == EventsOf(a) + EventsOf(b)
  {
    FlatMapConcat(RowOfEach(), a, b);
  }

  lemma EventsOfSource(raws: seq<Raw>, e: Event) returns (i: nat)
    requires e in EventsOf(raws)
    ensures i < |raws| && ParsedRow(raws[i]) == Some(e)
  {
    i := FlatMapSource(RowOfEach(), raws, e);
    assert RowOfEach()(raws[i]) == RowOf(raws[i]);
  }

  lemma EventsOfMember(raws: seq<Raw>, i: nat)
    requires i < |raws| && ParsedRow(raws[i]).Some?
    ensures ParsedRow(raws[i]).value in EventsOf(raws)
  {
    assert RowOfEach()(raws[i]) == RowOf(raws[i]);
    FlatMapMember(RowOfEach(), raws, i, ParsedRow(raws[i]).value);
  }

  lemma {:induction false} SliceMember(topic: Topic, lo: Offsets, hi: Offsets, p: nat, i: nat)
    requires Range(topic, lo, hi) && p < |topic| && lo[p] <= i < hi[p]
    ensures topic[p][i] in Slice(topic, lo, hi)
  {
    var n := |topic| - 1;
    if p < n {
      SliceMember(topic[..n], lo[..n], hi[..n], p, i);
    } else {
      assert topic[n][lo[n]..hi[n]][i - lo[n]] == topic[p][i];
    }
  }

  lemma {:induction false} SliceSource(topic: Topic, lo: Offsets, hi: Offsets, raw: Raw) returns (p: nat, i: nat)
    requires Range(topic, lo, hi) && raw in Slice(topic, lo, hi)
    ensures p < |topic| && lo[p] <= i < hi[p] && topic[p][i] == raw
  {
    var n := |topic| - 1;
    if raw in topic[n][lo[n]..hi[n]] {
      var j :| 0 <= j < hi[n] - lo[n] && topic[n][lo[n]..hi[n]][j] == raw;
      p, i := n, lo[n] + j;
    } else {
      p, i := SliceSource(topic[..n], lo[..n], hi[..n], raw);
    }
  }

  lemma {:induction false} SliceEmpty(topic: Topic, at: Offsets)
    requires Fits(topic, at)
    ensures Slice(topic, at, at) == []
  {
    if topic != [] {
      var n := |topic| - 1;
      SliceEmpty(topic[..n], at[..n]);
    }
  }

  lemma {:induction false} SliceExtends(topic: Topic, more: Topic, lo: Offsets, hi: Offsets)
    requires Range(topic, lo, hi) && Extends(topic, more)
    ensures Range(more, lo, hi) && Slice(more, lo, hi) == Slice(topic, lo, hi)
  {
    forall p | 0 <= p < |more| ensures lo[p] <= hi[p] <= |more[p]| {
      assert topic[p] <= more[p];
    }
    if topic != [] {
      var n := |topic| - 1;
      SliceExtends(topic[..n], more[..n], lo[..n], hi[..n]);
      assert topic[n] <= more[n];
    }
  }

  lemma {:induction false} SliceSplit(topic: Topic, lo: Offsets, mid: Offsets, hi: Offsets)
    requires Range(topic, lo, mid) && Range(topic, mid, hi) && Range(topic, lo, hi)
    ensures multiset(Slice(topic, lo, hi)) == multiset(Slice(topic, lo, mid)) + multiset(Slice(topic, mid, hi))
  {
    if topic != [] {
      var n := |topic| - 1;
      SliceSplit(topic[..n], lo[..n], mid[..n], hi[..n]);
      assert topic[n][lo[n]..hi[n]] == topic[n][lo[n]..mid[n]] + topic[n][mid[n]..hi[n]];
    }
  }

  lemma RowsByPartition(topic: Topic, lo: Offsets, hi: Offsets)
    requires topic != [] && Range(topic, lo, hi)
    ensures var n := |topic| - 1;
            Rows(topic, lo, hi) == Rows(topic[..n], lo[..n], hi[..n]) + EventsOf(topic[n][lo[n]..hi[n]])
  {
    var n := |topic| - 1;
    EventsOfConcat(Slice(topic[..n], lo[..n], hi[..n]), topic[n][lo[n]..hi[n]]);
  }

  // One partition split in two, on top of the split of the partitions before it.
  lemma RowsSplitStep(topic: Topic, lo: Offsets, mid: Offsets, hi: Offsets, n: nat)
    requires Range(topic, lo, mid) && Range(topic, mid, hi) && Range(topic, lo, hi) && |topic| == n + 1
    requires multiset(Rows(topic[..n], lo[..n], hi[..n])) ==
             multiset(Rows(topic[..n], lo[..n], mid[..n])) + multiset(Rows(topic[..n], mid[..n], hi[..n]))
    ensures multiset(Rows(topic, lo, hi)) == multiset(Rows(topic, lo, mid)) + multiset(Rows(topic, mid, hi))
  {
    var a, b := topic[n][lo[n]..mid[n]], topic[n][mid[n]..hi[n]];
    assert topic[n][lo[n]..hi[n]] == a + b;
    EventsOfConcat(a, b);
    RowsByPartition(topic, lo, mid);
    RowsByPartition(topic, mid, hi);
    RowsByPartition(topic, lo, hi);
    ConcatSplit(Rows(topic[..n], lo[..n], hi[..n]), Rows(topic[..n], lo[..n], mid[..n]),
                Rows(topic[..n], mid[..n], hi[..n]), EventsOf(a), EventsOf(b));
  }

  lemma {:induction false} RowsSplit(topic: Topic, lo: Offsets, mid: Offsets, hi: Offsets)
    requires Range(topic, lo, mid) && Range(topic, mid, hi) && Range(topic, lo, hi)
    ensures multiset(Rows(topic, lo, hi)) == multiset(Rows(topic, lo, mid)) + multiset(Rows(topic, mid, hi))
  {
    if topic != [] {
      var n := |topic| - 1;
      RowsSplit(topic[..n], lo[..n], mid[..n], hi[..n]);
      RowsSplitStep(topic, lo, mid, hi, n);
    }
  }
}
