/**
 The lineage traversal popped last in, first out: a plain visited set loses lineage, and the recorded
 depths pay for that with as many expansions of one dataset as any order can need.
 */
module LifoLineage {
  import opened FifoLineage
  import opened Lineage

  // ---- The shapes of the graphs ----

  ghost function Elements(s: seq<Node>): set<Node> { set x | x in s }

  // A dataset's links lead to these datasets in this order, whichever jobs they belong to.
  ghost predicate Feeds(g: Graph, node: Node, outs: seq<Node>) {
    |Links(g, node)| == |outs| && forall i :: 0 <= i < |outs| ==> Links(g, node)[i].target == outs[i]
  }

  ghost predicate FeedsNext(g: Graph, path: seq<Node>, i: int) {
    0 <= i < |path| - 1 ==> Feeds(g, path[i], [path[i + 1]])
  }

  ghost predicate Chain(g: Graph, path: seq<Node>) { forall i :: FeedsNext(g, path, i) }

  // x lies at the end of a short chain and of a longer one, both starting below o; v hangs below x.
  ghost predicate TwoRoutes(g: Graph, o: Node, short: seq<Node>, long: seq<Node>, x: Node, v: Node) {
    && 1 <= |short| < |long| && NoDup(short) && NoDup(long)
    && Elements(short) !! Elements(long) !! {o, x, v} && o != x && o != v && x != v
    && Feeds(g, o, [short[0], long[0]]) && Chain(g, short + [x]) && Chain(g, long + [x]) && Feeds(g, x, [v])
  }

  // ---- A plain visited set ----

  // The traversal with a plain visited set that pops the items at these positions, one after another.
  function PopsUnseen(g: Graph, origin: Node, limit: int, picks: seq<nat>): Walk {
    if picks == [] then Begin(origin)
    else
      var w, i := PopsUnseen(g, origin, limit, picks[..|picks| - 1]), picks[|picks| - 1];
      if i < |w.queue| then StepUnseen(g, limit, w, i) else w
  }

  lemma PopsUnseenMore(g: Graph, origin: Node, limit: int, picks: seq<nat>, i: nat)
    requires i < |PopsUnseen(g, origin, limit, picks).queue|
    ensures PopsUnseen(g, origin, limit, Ends(picks, i)) ==
            StepUnseen(g, limit, PopsUnseen(g, origin, limit, picks), i)
  {
    assert Ends(picks, i)[..|Ends(picks, i)| - 1] == picks;
  }

  lemma TakeOneUnseen(w: Walk, links: seq<Link>, d: nat)
    requires |links| == 1
    ensures TakeAllUnseen(w, links, d) == TakeUnseen(w, links[0], d)
  {
    assert links[..0] == [];
    assert TakeAllUnseen(w, [], d) == w;
  }

  lemma TakeTwoUnseen(w: Walk, links: seq<Link>, d: nat)
    requires |links| == 2
    ensures TakeAllUnseen(w, links, d) == TakeUnseen(TakeUnseen(w, links[0], d), links[1], d)
  {
    TakeOneUnseen(w, links[..1], d);
  }

  // The newest item, on top of the others.
  ghost predicate OnTop(w: Walk, rest: seq<Item>, node: Node, d: nat) { w.queue == rest + [(node, d)] }

  lemma PopTop(w: Walk, rest: seq<Item>, node: Node, d: nat)
    requires OnTop(w, rest, node, d)
    ensures w.queue[|rest|] == (node, d) && Pop(w, |rest|) == w.(queue := rest)
  {
    assert w.queue[..|rest|] == rest && w.queue[|rest| + 1..] == [];
  }

  // Popping the newest item, whose dataset feeds one other.
  lemma FollowUnseen(g: Graph, o: Node, limit: int, picks: seq<nat>, rest: seq<Item>, node: Node, d: nat, next: Node)
    requires OnTop(PopsUnseen(g, o, limit, picks), rest, node, d) && d < limit && Feeds(g, node, [next])
    ensures var w, t := PopsUnseen(g, o, limit, picks), PopsUnseen(g, o, limit, Ends(picks, |rest|));
            if next in w.visited then t.visited == w.visited && t.queue == rest
            else t.visited == w.visited[next := d + 1] && OnTop(t, rest, next, d + 1)
  {
    var w := PopsUnseen(g, o, limit, picks);
    PopTop(w, rest, node, d);
    PopsUnseenMore(g, o, limit, picks, |rest|);
    TakeOneUnseen(Pop(w, |rest|), Links(g, node), d);
  }

  ghost predicate Unseen(path: seq<Node>, seen: set<Node>) { forall i :: 0 <= i < |path| ==> path[i] !in seen }

  // k datasets of a chain have been reached, and nothing else since.
  ghost predicate Along(w: Walk, rest: seq<Item>, path: seq<Node>, k: nat, seen: set<Node>) {
    1 <= k <= |path| && OnTop(w, rest, path[k - 1], k) && w.visited.Keys == seen + Elements(path[..k])
  }

  lemma FirstAlong(w: Walk, rest: seq<Item>, path: seq<Node>, seen: set<Node>)
    requires path != [] && OnTop(w, rest, path[0], 1) && w.visited.Keys == seen + {path[0]}
    ensures Along(w, rest, path, 1, seen)
  {
    assert path[..1] == [path[0]];
    assert Elements([path[0]]) == {path[0]};
  }

  // Last in, first out, a chain is followed to its end before anything older is popped.
  lemma {:induction false} FollowChain(g: Graph, o: Node, limit: int, start: seq<nat>, rest: seq<Item>, path: seq<Node>,
                                       k: nat, seen: set<Node>) returns (picks: seq<nat>)
    requires Along(PopsUnseen(g, o, limit, start), rest, path, 1, seen) && 1 <= k <= |path| && k <= limit
    requires Chain(g, path) && NoDup(path) && Unseen(path, seen)
    ensures Along(PopsUnseen(g, o, limit, picks), rest, path, k, seen)
    ensures Grows(PopsUnseen(g, o, limit, start).visited, PopsUnseen(g, o, limit, picks).visited)
  {
    if k == 1 {
      picks := start;
    } else {
      var before := FollowChain(g, o, limit, start, rest, path, k - 1, seen);
      NextOfChain(path, k - 1, seen);
      FollowOne(g, o, limit, before, rest, path, k - 1, seen);
      picks := Ends(before, |rest|);
    }
  }

  lemma FollowOne(g: Graph, o: Node, limit: int, before: seq<nat>, rest: seq<Item>, path: seq<Node>, k: nat,
                  seen: set<Node>)
    requires Along(PopsUnseen(g, o, limit, before), rest, path, k, seen) && k < |path| && k < limit
    requires Chain(g, path) && path[k] !in seen + Elements(path[..k])
    requires Elements(path[..k + 1]) == Elements(path[..k]) + {path[k]}
    ensures var w, t := PopsUnseen(g, o, limit, before), PopsUnseen(g, o, limit, Ends(before, |rest|));
            Along(t, rest, path, k + 1, seen) && Grows(w.visited, t.visited)
  {
    assert FeedsNext(g, path, k - 1);
    FollowUnseen(g, o, limit, before, rest, path[k - 1], k, path[k]);
    AlongMore(PopsUnseen(g, o, limit, before), PopsUnseen(g, o, limit, Ends(before, |rest|)), rest, path, k, seen);
  }

  lemma AlongMore(w: Walk, t: Walk, rest: seq<Item>, path: seq<Node>, k: nat, seen: set<Node>)
    requires Along(w, rest, path, k, seen) && k < |path| && path[k] !in w.visited
    requires Elements(path[..k + 1]) == Elements(path[..k]) + {path[k]}
    requires t.visited == w.visited[path[k] := k + 1] && OnTop(t, rest, path[k], k + 1)
    ensures Along(t, rest, path, k + 1, seen) && Grows(w.visited, t.visited)
  {
    assert t.visited.Keys == w.visited.Keys + {path[k]};
  }

  lemma NextOfChain(path: seq<Node>, k: nat, seen: set<Node>)
    requires 1 <= k < |path| && NoDup(path) && Unseen(path, seen)
    ensures path[k] !in seen + Elements(path[..k])
    ensures Elements(path[..k + 1]) == Elements(path[..k]) + {path[k]}
  {
    assert path[..k + 1] == path[..k] + [path[k]];
  }

  lemma WithoutEnd(g: Graph, path: seq<Node>, x: Node)
    requires path != [] && Chain(g, path + [x])
    ensures Chain(g, path) && Feeds(g, path[|path| - 1], [x])
  {
    var all := path + [x];
    forall i ensures FeedsNext(g, path, i) {
      assert FeedsNext(g, all, i);
    }
    assert FeedsNext(g, all, |path| - 1);
  }

  lemma StartTwoRoutes(g: Graph, o: Node, limit: int, short: Node, long: Node)
    requires Feeds(g, o, [short, long]) && limit > 0 && o != short && o != long && short != long
    ensures var w := PopsUnseen(g, o, limit, Ends([], 0));
            OnTop(w, [(short, 1)], long, 1) && w.visited.Keys == {o, short} + {long}
  {
    assert Pop(Begin(o), 0) == Begin(o).(queue := []);
    PopsUnseenMore(g, o, limit, [], 0);
    TwoTaken(Begin(o).(queue := []), Links(g, o), 0, short, long);
  }

  lemma TwoTaken(w: Walk, links: seq<Link>, d: nat, a: Node, b: Node)
    requires |links| == 2 && links[0].target == a && links[1].target == b && a != b
    requires w.queue == [] && a !in w.visited && b !in w.visited
    ensures var t := TakeAllUnseen(w, links, d);
            OnTop(t, [(a, d + 1)], b, d + 1) && t.visited.Keys == w.visited.Keys + {a} + {b}
  {
    TakeTwoUnseen(w, links, d);
  }

  // An item at the limit is discarded.
  lemma DiscardUnseen(g: Graph, o: Node, limit: int, picks: seq<nat>, rest: seq<Item>, node: Node, d: nat)
    requires OnTop(PopsUnseen(g, o, limit, picks), rest, node, d) && d >= limit
    ensures PopsUnseen(g, o, limit, Ends(picks, |rest|)) == PopsUnseen(g, o, limit, picks).(queue := rest)
  {
    PopTop(PopsUnseen(g, o, limit, picks), rest, node, d);
    PopsUnseenMore(g, o, limit, picks, |rest|);
  }

  lemma {:induction false} ChainHops(g: Graph, o: Node, path: seq<Node>, k: nat)
    requires 1 <= k <= |path| && Chain(g, path) && Edge(g, o, path[0])
    ensures Hops(g, o, path[k - 1], k)
  {
    if k == 1 {
      assert Hops(g, o, o, 0);
    } else {
      ChainHops(g, o, path, k - 1);
      assert FeedsNext(g, path, k - 2);
      FeedsEdge(g, path[k - 2], [path[k - 1]], 0);
    }
  }

  lemma FeedsEdge(g: Graph, node: Node, outs: seq<Node>, i: nat)
    requires Feeds(g, node, outs) && i < |outs|
    ensures Edge(g, node, outs[i])
  {
    assert Links(g, node)[i].target == outs[i];
    TargetsAreEdges(g, node, outs[i]);
  }

  lemma ShortRoute(g: Graph, o: Node, short: seq<Node>, long: seq<Node>, x: Node, v: Node)
    requires TwoRoutes(g, o, short, long, x, v)
    ensures Hops(g, o, x, |short| + 1) && Hops(g, o, v, |short| + 2)
  {
    FeedsEdge(g, o, [short[0], long[0]], 0);
    ChainHops(g, o, short + [x], |short| + 1);
    FeedsEdge(g, x, [v], 0);
  }

  lemma StartLong(g: Graph, o: Node, limit: int, short: Node, long: seq<Node>)
    requires long != [] && Feeds(g, o, [short, long[0]]) && limit > 0
    requires o != short && o != long[0] && short != long[0]
    ensures Along(PopsUnseen(g, o, limit, Ends([], 0)), [(short, 1)], long, 1, {o, short})
  {
    StartTwoRoutes(g, o, limit, short, long[0]);
    FirstAlong(PopsUnseen(g, o, limit, Ends([], 0)), [(short, 1)], long, {o, short});
  }

  lemma WholeChain(w: Walk, rest: seq<Item>, path: seq<Node>, seen: set<Node>)
    requires path != [] && Along(w, rest, path, |path|, seen)
    ensures OnTop(w, rest, path[|path| - 1], |path|) && w.visited.Keys == seen + Elements(path)
  {
    assert path[..|path|] == path;
  }

  // A dataset not seen before is queued at the limit and discarded.
  lemma EndAtLimit(g: Graph, o: Node, limit: nat, before: seq<nat>, rest: seq<Item>, node: Node, d: nat, x: Node)
    requires OnTop(PopsUnseen(g, o, limit, before), rest, node, d) && d + 1 == limit
    requires Feeds(g, node, [x]) && x !in PopsUnseen(g, o, limit, before).visited
    ensures var w, t := PopsUnseen(g, o, limit, before), PopsUnseen(g, o, limit, Ends(Ends(before, |rest|), |rest|));
            t.queue == rest && t.visited == w.visited[x := limit]
  {
    FollowUnseen(g, o, limit, before, rest, node, d, x);
    DiscardUnseen(g, o, limit, Ends(before, |rest|), rest, x, limit);
  }

  lemma FirstsApart(g: Graph, o: Node, short: seq<Node>, long: seq<Node>, x: Node, v: Node)
    requires TwoRoutes(g, o, short, long, x, v)
    ensures o != short[0] && o != long[0] && short[0] != long[0] && Feeds(g, o, [short[0], long[0]])
    ensures Unseen(long, {o, short[0]}) && x !in {o, short[0]} + Elements(long)
  {
    assert short[0] in Elements(short);
    forall i | 0 <= i < |long| ensures long[i] !in {o, short[0]} {
      assert long[i] in Elements(long);
    }
  }

  // The long chain is followed to x, which the depth limit then discards.
  lemma LongRoute(g: Graph, o: Node, short: Node, long: seq<Node>, x: Node) returns (picks: seq<nat>)
    requires long != [] && Feeds(g, o, [short, long[0]]) && Chain(g, long + [x]) && NoDup(long)
    requires o != short && o != long[0] && short != long[0]
    requires Unseen(long, {o, short}) && x !in {o, short} + Elements(long)
    ensures var w := PopsUnseen(g, o, |long| + 1, picks);
            && w.queue == [(short, 1)] && w.visited.Keys == {o, short} + Elements(long) + {x}
            && w.visited[x] == |long| + 1
  {
    var limit, rest, seen := |long| + 1, [(short, 1)], {o, short};
    StartLong(g, o, limit, short, long);
    WithoutEnd(g, long, x);
    var before := FollowChain(g, o, limit, Ends([], 0), rest, long, |long|, seen);
    WholeChain(PopsUnseen(g, o, limit, before), rest, long, seen);
    EndAtLimit(g, o, limit, before, rest, long[|long| - 1], |long|, x);
    picks := Ends(Ends(before, |rest|), |rest|);
  }

  // The end of a chain, seen before, is not queued again.
  lemma EndSeen(g: Graph, o: Node, limit: int, before: seq<nat>, path: seq<Node>, x: Node, seen: set<Node>)
    requires path != [] && Along(PopsUnseen(g, o, limit, before), [], path, |path|, seen) && |path| < limit
    requires Feeds(g, path[|path| - 1], [x]) && x in seen
    ensures var w, t := PopsUnseen(g, o, limit, before), PopsUnseen(g, o, limit, Ends(before, 0));
            t.queue == [] && t.visited == w.visited && t.visited.Keys == seen + Elements(path)
  {
    WholeChain(PopsUnseen(g, o, limit, before), [], path, seen);
    FollowUnseen(g, o, limit, before, [], path[|path| - 1], |path|, x);
  }

  // The short chain then finds x already seen.
  lemma ShortAfterLong(g: Graph, o: Node, limit: int, start: seq<nat>, path: seq<Node>, x: Node, seen: set<Node>)
    returns (picks: seq<nat>)
    requires path != [] && |path| < limit && NoDup(path) && Unseen(path, seen) && x in seen
    requires Chain(g, path + [x])
    requires var w := PopsUnseen(g, o, limit, start);
             w.queue == [(path[0], 1)] && w.visited.Keys == seen + {path[0]}
    ensures var w, t := PopsUnseen(g, o, limit, start), PopsUnseen(g, o, limit, picks);
            t.queue == [] && Grows(w.visited, t.visited) && t.visited.Keys == seen + Elements(path)
  {
    WithoutEnd(g, path, x);
    assert [] + [(path[0], 1)] == [(path[0], 1)];
    FirstAlong(PopsUnseen(g, o, limit, start), [], path, seen);
    var before := FollowChain(g, o, limit, start, [], path, |path|, seen);
    EndSeen(g, o, limit, before, path, x, seen);
    picks := Ends(before, 0);
  }

  lemma SeenByLong(g: Graph, o: Node, short: seq<Node>, long: seq<Node>, x: Node, v: Node)
    requires TwoRoutes(g, o, short, long, x, v)
    ensures var seen := {o} + Elements(long) + {x};
            && Unseen(short, seen) && v !in seen + Elements(short)
            && {o, short[0]} + Elements(long) + {x} == seen + {short[0]}
  {
    forall i | 0 <= i < |short| ensures short[i] !in {o} + Elements(long) + {x} {
      assert short[i] in Elements(short);
    }
  }

  lemma LongThenShort(g: Graph, o: Node, short: seq<Node>, long: seq<Node>, x: Node, seen: set<Node>)
    returns (picks: seq<nat>)
    requires long != [] && Chain(g, long + [x]) && NoDup(long)
    requires short != [] && Chain(g, short + [x]) && NoDup(short) && |short| < |long|
    requires Feeds(g, o, [short[0], long[0]]) && o != short[0] && o != long[0] && short[0] != long[0]
    requires Unseen(long, {o, short[0]}) && x !in {o, short[0]} + Elements(long)
    requires Unseen(short, seen) && x in seen && {o, short[0]} + Elements(long) + {x} == seen + {short[0]}
    ensures var t := PopsUnseen(g, o, |long| + 1, picks);
            t.queue == [] && t.visited.Keys == seen + Elements(short) && t.visited[x] == |long| + 1
  {
    var before := LongRoute(g, o, short[0], long, x);
    picks := ShortAfterLong(g, o, |long| + 1, before, short, x, seen);
  }

  /**
   Popped last in, first out, a plain visited set ends without a dataset that lies within the depth
   limit, whenever a chain as long as the limit is followed before a shorter one to the same dataset.
   */
  lemma PlainVisitedSetCanMiss(g: Graph, o: Node, short: seq<Node>, long: seq<Node>, x: Node, v: Node)
    returns (picks: seq<nat>)
    requires TwoRoutes(g, o, short, long, x, v)
    ensures var limit := |long| + 1;
            var t := PopsUnseen(g, o, limit, picks);
            && t.queue == [] && x in t.visited && t.visited[x] == limit && v !in t.visited
            && Hops(g, o, x, |short| + 1) && Hops(g, o, v, |short| + 2) && |short| + 2 <= limit
  {
    ShortRoute(g, o, short, long, x, v);
    FirstsApart(g, o, short, long, x, v);
    SeenByLong(g, o, short, long, x, v);
    picks := LongThenShort(g, o, short, long, x, {o} + Elements(long) + {x});
  }
}
