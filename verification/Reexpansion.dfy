/**
 How often one dataset can be expanded: graphs, for every depth limit, in which a last-in-first-out
 order expands one as often as any order can.
 */
module Reexpansion {
  import opened FifoLineage
  import opened LifoLineage
  import opened Lineage

  // A chain cs with a rung beside each step, and x below every rung: rung k is k + 1 hops from the top.
  ghost predicate IsLadder(g: Graph, cs: seq<Node>, bs: seq<Node>, x: Node) {
    && |cs| == |bs| + 1 && NoDup(cs) && NoDup(bs) && Apart(cs, bs, x)
    && (forall i :: Steps(g, cs, bs, i)) && (forall i :: Rests(g, bs, x, i))
    && Feeds(g, cs[|bs|], []) && Feeds(g, x, [])
  }

  ghost predicate Apart(cs: seq<Node>, bs: seq<Node>, x: Node) {
    && (forall i, j :: 0 <= i < |cs| && 0 <= j < |bs| ==> cs[i] != bs[j])
    && (forall i :: 0 <= i < |cs| ==> cs[i] != x) && (forall j :: 0 <= j < |bs| ==> bs[j] != x)
  }

  ghost predicate Steps(g: Graph, cs: seq<Node>, bs: seq<Node>, i: int) {
    0 <= i < |bs| && i + 1 < |cs| ==> Feeds(g, cs[i], [bs[i], cs[i + 1]])
  }

  ghost predicate Rests(g: Graph, bs: seq<Node>, x: Node, i: int) { 0 <= i < |bs| ==> Feeds(g, bs[i], [x]) }

  // ---- Popping the newest item ----

  lemma PopNewest(g: Graph, limit: int, t: Trace, rest: seq<Item>, node: Node, d: nat)
    requires OnTop(t.walk, rest, node, d) && d < limit
    ensures PopNext(g, limit, t, |rest|) ==
            Trace(TakeAll(t.walk.(queue := rest), Links(g, node), d), t.expanded + [node])
  {
    PopTop(t.walk, rest, node, d);
  }

  lemma TakeOne(w: Walk, links: seq<Link>, d: nat)
    requires |links| == 1
    ensures TakeAll(w, links, d) == Take(w, links[0], d)
  {
    assert links[..0] == [];
    assert TakeAll(w, [], d) == w;
  }

  lemma TakeTwo(w: Walk, links: seq<Link>, d: nat)
    requires |links| == 2
    ensures TakeAll(w, links, d) == Take(Take(w, links[0], d), links[1], d)
  {
    TakeOne(w, links[..1], d);
  }

  lemma PopLeaf(g: Graph, limit: int, t: Trace, rest: seq<Item>, node: Node, d: nat)
    requires OnTop(t.walk, rest, node, d) && d < limit && Feeds(g, node, [])
    ensures var u := PopNext(g, limit, t, |rest|);
            u.walk.queue == rest && u.walk.visited == t.walk.visited && u.expanded == t.expanded + [node]
  {
    PopNewest(g, limit, t, rest, node, d);
  }

  lemma PopToOne(g: Graph, limit: int, t: Trace, rest: seq<Item>, node: Node, d: nat, next: Node)
    requires OnTop(t.walk, rest, node, d) && d < limit && Feeds(g, node, [next])
    requires Shallower(t.walk.visited, next, d + 1)
    ensures var u := PopNext(g, limit, t, |rest|);
            && OnTop(u.walk, rest, next, d + 1) && u.walk.visited == t.walk.visited[next := d + 1]
            && u.expanded == t.expanded + [node]
  {
    PopNewest(g, limit, t, rest, node, d);
    TakeOne(t.walk.(queue := rest), Links(g, node), d);
  }

  lemma PopToTwo(g: Graph, limit: int, t: Trace, rest: seq<Item>, node: Node, d: nat, a: Node, b: Node)
    requires OnTop(t.walk, rest, node, d) && d < limit && Feeds(g, node, [a, b])
    requires a !in t.walk.visited && b !in t.walk.visited && a != b
    ensures var u := PopNext(g, limit, t, |rest|);
            && OnTop(u.walk, rest + [(a, d + 1)], b, d + 1)
            && u.walk.visited == t.walk.visited[a := d + 1][b := d + 1] && u.expanded == t.expanded + [node]
  {
    PopNewest(g, limit, t, rest, node, d);
    TakeTwo(t.walk.(queue := rest), Links(g, node), d);
  }

  // ---- Down the chain ----

  // The rungs passed so far, waiting on the queue.
  function Rungs(bs: seq<Node>, n: nat): (items: seq<Item>)
    requires n <= |bs|
    ensures |items| == n
  {
    seq(n, i requires 0 <= i < n => (bs[i], i + 1))
  }

  lemma OneRungMore(bs: seq<Node>, n: nat)
    requires n < |bs|
    ensures Rungs(bs, n + 1) == Rungs(bs, n) + [(bs[n], n + 1)]
  {
  }

  // Nothing further down, and not x, has been reached.
  ghost predicate Untouched(visited: map<Node, nat>, cs: seq<Node>, bs: seq<Node>, x: Node, n: nat) {
    && x !in visited
    && (forall i :: n < i < |cs| ==> cs[i] !in visited) && (forall i :: n <= i < |bs| ==> bs[i] !in visited)
  }

  ghost predicate Down(t: Trace, cs: seq<Node>, bs: seq<Node>, x: Node, n: nat) {
    && n <= |bs| && n < |cs| && OnTop(t.walk, Rungs(bs, n), cs[n], n)
    && Untouched(t.walk.visited, cs, bs, x, n) && Times(t.expanded, x) == 0
  }

  lemma StillUntouched(visited: map<Node, nat>, cs: seq<Node>, bs: seq<Node>, x: Node, n: nat)
    requires Untouched(visited, cs, bs, x, n) && n < |bs| && |cs| == |bs| + 1
    requires NoDup(cs) && NoDup(bs) && Apart(cs, bs, x)
    ensures Untouched(visited[bs[n] := n + 1][cs[n + 1] := n + 1], cs, bs, x, n + 1)
  {
  }

  lemma DownOne(g: Graph, limit: int, t: Trace, cs: seq<Node>, bs: seq<Node>, x: Node, n: nat)
    requires IsLadder(g, cs, bs, x) && Down(t, cs, bs, x, n) && n < |bs| && n < limit
    ensures Down(PopNext(g, limit, t, n), cs, bs, x, n + 1)
  {
    assert Steps(g, cs, bs, n);
    PopToTwo(g, limit, t, Rungs(bs, n), cs[n], n, bs[n], cs[n + 1]);
    OneRungMore(bs, n);
    StillUntouched(t.walk.visited, cs, bs, x, n);
    TimesMore(t.expanded, cs[n], x);
  }

  lemma DownStart(g: Graph, cs: seq<Node>, bs: seq<Node>, x: Node)
    requires IsLadder(g, cs, bs, x)
    ensures Down(Trace(Begin(cs[0]), []), cs, bs, x, 0)
  {
    assert Rungs(bs, 0) + [(cs[0], 0)] == [(cs[0], 0)];
    assert Begin(cs[0]).visited.Keys == {cs[0]};
  }

  lemma DownMore(g: Graph, limit: int, origin: Node, before: seq<nat>, cs: seq<Node>, bs: seq<Node>, x: Node, n: nat)
    requires IsLadder(g, cs, bs, x) && Down(Pops(g, origin, limit, before), cs, bs, x, n) && n < |bs| && n < limit
    ensures Down(Pops(g, origin, limit, Ends(before, n)), cs, bs, x, n + 1)
  {
    DownOne(g, limit, Pops(g, origin, limit, before), cs, bs, x, n);
    PopsMore(g, origin, limit, before, n);
  }

  // The newest position of a queue that holds one item more at every pop.
  function Newest(n: nat): seq<nat> { seq(n, i => i) }

  lemma NewestMore(n: nat)
    ensures Newest(n + 1) == Ends(Newest(n), n)
  {
  }

  lemma {:induction false} Descend(g: Graph, limit: int, origin: Node, cs: seq<Node>, bs: seq<Node>, x: Node, n: nat)
    requires IsLadder(g, cs, bs, x) && Down(Pops(g, origin, limit, []), cs, bs, x, 0) && n <= |bs| && n <= limit
    ensures Down(Pops(g, origin, limit, Newest(n)), cs, bs, x, n)
  {
    if n > 0 {
      Descend(g, limit, origin, cs, bs, x, n - 1);
      DownMore(g, limit, origin, Newest(n - 1), cs, bs, x, n - 1);
      NewestMore(n - 1);
    }
  }

  // ---- Back up the rungs, each of which leads to x on a shorter way ----

  ghost predicate Up(t: Trace, bs: seq<Node>, x: Node, n: nat) {
    && n <= |bs| && t.walk.queue == Rungs(bs, n) && Times(t.expanded, x) == |bs| - n
    && (x in t.walk.visited ==> t.walk.visited[x] == n + 2)
  }

  // A rung has been popped, and x is queued again, one hop closer than before.
  ghost predicate AtX(t: Trace, bs: seq<Node>, x: Node, n: nat) {
    && n < |bs| && OnTop(t.walk, Rungs(bs, n), x, n + 2) && Times(t.expanded, x) + n + 1 == |bs|
    && x in t.walk.visited && t.walk.visited[x] == n + 2
  }

  lemma UpToX(g: Graph, limit: int, t: Trace, bs: seq<Node>, x: Node, n: nat)
    requires Up(t, bs, x, n + 1) && |bs| + 2 <= limit && Feeds(g, bs[n], [x]) && bs[n] != x
    ensures AtX(PopNext(g, limit, t, n), bs, x, n)
  {
    OneRungMore(bs, n);
    PopToOne(g, limit, t, Rungs(bs, n), bs[n], n + 1, x);
    TimesMore(t.expanded, bs[n], x);
  }

  lemma UpFromX(g: Graph, limit: int, t: Trace, bs: seq<Node>, x: Node, n: nat)
    requires AtX(t, bs, x, n) && |bs| + 2 <= limit && Feeds(g, x, [])
    ensures Up(PopNext(g, limit, t, n), bs, x, n)
  {
    PopLeaf(g, limit, t, Rungs(bs, n), x, n + 2);
    TimesMore(t.expanded, x, x);
  }

  lemma {:induction false} Ascend(g: Graph, limit: int, cs: seq<Node>, bs: seq<Node>, x: Node, n: nat)
    returns (picks: seq<nat>)
    requires IsLadder(g, cs, bs, x) && n <= |bs| && |bs| + 2 <= limit
    ensures Up(Pops(g, cs[0], limit, picks), bs, x, n)
    decreases |bs| - n
  {
    if n == |bs| {
      var before := Newest(n);
      DownStart(g, cs, bs, x);
      Descend(g, limit, cs[0], cs, bs, x, n);
      var t := Pops(g, cs[0], limit, before);
      PopLeaf(g, limit, t, Rungs(bs, n), cs[n], n);
      TimesMore(t.expanded, cs[n], x);
      PopsMore(g, cs[0], limit, before, n);
      picks := Ends(before, n);
    } else {
      var before := Ascend(g, limit, cs, bs, x, n + 1);
      assert Rests(g, bs, x, n);
      UpToX(g, limit, Pops(g, cs[0], limit, before), bs, x, n);
      PopsMore(g, cs[0], limit, before, n);
      UpFromX(g, limit, Pops(g, cs[0], limit, Ends(before, n)), bs, x, n);
      PopsMore(g, cs[0], limit, Ends(before, n), n);
      picks := Ends(Ends(before, n), n);
    }
  }

  /** In a ladder with limit - 2 rungs, x is expanded once for every rung. */
  lemma LadderExpandsOften(g: Graph, limit: int, cs: seq<Node>, bs: seq<Node>, x: Node) returns (picks: seq<nat>)
    requires IsLadder(g, cs, bs, x) && |bs| + 2 <= limit
    ensures Times(Pops(g, cs[0], limit, picks).expanded, x) == |bs|
  {
    picks := Ascend(g, limit, cs, bs, x, 0);
  }

  // ---- A ladder of every height ----

  function Name(kind: char, k: nat): (name: Node)
    ensures |name| == k + 1 && name[0] == kind
  {
    seq(k + 1, i => kind)
  }

  function Names(kind: char, n: nat): (names: seq<Node>)
    ensures |names| == n && forall i :: 0 <= i < n ==> names[i] == Name(kind, i)
  {
    seq(n, i requires 0 <= i < n => Name(kind, i))
  }

  function Below(rungs: nat, node: Node): seq<Node> {
    if node != "" && node[0] == 'c' && |node| <= rungs then [Name('b', |node| - 1), Name('c', |node|)]
    else if node != "" && node[0] == 'b' then ["x"]
    else []
  }

  ghost function LadderOf(rungs: nat): Graph {
    map node | node in Elements(Names('c', rungs + 1)) + Elements(Names('b', rungs)) + {"x"} ::
      [Job("job", Below(rungs, node))]
  }

  lemma OneJobFeeds(g: Graph, node: Node, job: Job)
    requires Jobs(g, node) == [job]
    ensures Feeds(g, node, job.outputs)
  {
    assert [job][..0] == [] && JobLinks(node, []) == [];
    assert JobLinks(node, [job]) == OutLinks(node, job, job.outputs);
  }

  lemma LadderFeeds(rungs: nat, node: Node)
    requires node in LadderOf(rungs)
    ensures Feeds(LadderOf(rungs), node, Below(rungs, node))
  {
    OneJobFeeds(LadderOf(rungs), node, Job("job", Below(rungs, node)));
  }

  lemma NamesApart(rungs: nat)
    ensures NoDup(Names('c', rungs + 1)) && NoDup(Names('b', rungs))
    ensures Apart(Names('c', rungs + 1), Names('b', rungs), "x")
  {
    var cs, bs := Names('c', rungs + 1), Names('b', rungs);
    forall i, j | 0 <= i < |cs| && 0 <= j < |bs| ensures cs[i] != bs[j] {
      assert cs[i][0] == 'c' && bs[j][0] == 'b';
    }
    NamesDistinct('c', rungs + 1);
    NamesDistinct('b', rungs);
    assert "x"[0] == 'x';
  }

  lemma NamesDistinct(kind: char, n: nat)
    ensures NoDup(Names(kind, n))
  {
    forall i, j | 0 <= i < j < n ensures Names(kind, n)[i] != Names(kind, n)[j] {
      assert |Name(kind, i)| != |Name(kind, j)|;
    }
  }

  lemma LadderSteps(rungs: nat, i: int)
    ensures Steps(LadderOf(rungs), Names('c', rungs + 1), Names('b', rungs), i)
  {
    if 0 <= i < rungs {
      var node := Names('c', rungs + 1)[i];
      assert node in Elements(Names('c', rungs + 1));
      LadderFeeds(rungs, node);
    }
  }

  lemma LadderRests(rungs: nat, i: int)
    ensures Rests(LadderOf(rungs), Names('b', rungs), "x", i)
  {
    if 0 <= i < rungs {
      var node := Names('b', rungs)[i];
      assert node in Elements(Names('b', rungs));
      LadderFeeds(rungs, node);
    }
  }

  lemma LadderEnds(rungs: nat)
    ensures Feeds(LadderOf(rungs), Names('c', rungs + 1)[rungs], []) && Feeds(LadderOf(rungs), "x", [])
  {
    var node := Names('c', rungs + 1)[rungs];
    assert node in Elements(Names('c', rungs + 1));
    LadderFeeds(rungs, node);
    LadderFeeds(rungs, "x");
  }

  lemma LadderOfIsLadder(rungs: nat)
    ensures IsLadder(LadderOf(rungs), Names('c', rungs + 1), Names('b', rungs), "x")
  {
    var g, cs, bs := LadderOf(rungs), Names('c', rungs + 1), Names('b', rungs);
    NamesApart(rungs);
    LadderEnds(rungs);
    forall i ensures Steps(g, cs, bs, i) {
      LadderSteps(rungs, i);
    }
    forall i ensures Rests(g, bs, "x", i) {
      LadderRests(rungs, i);
    }
  }

  lemma ExpandedOnce(g: Graph, limit: int)
    requires limit >= 2 && Feeds(g, "o", ["x"]) && Feeds(g, "x", [])
    ensures Times(Pops(g, "o", limit, Ends(Ends([], 0), 0)).expanded, "x") == 1
  {
    var t := Trace(Begin("o"), []);
    assert [] + [("o", 0)] == [("o", 0)];
    PopToOne(g, limit, t, [], "o", 0, "x");
    PopLeaf(g, limit, PopNext(g, limit, t, 0), [], "x", 1);
    PopsMore(g, "o", limit, [], 0);
    PopsMore(g, "o", limit, Ends([], 0), 0);
    TimesMore([], "o", "x");
    TimesMore(["o"], "x", "x");
  }

  /** The bound on expansions is exact: for every depth limit some graph and some order reach it. */
  lemma BoundIsAttained(limit: int) returns (g: Graph, origin: Node, x: Node, picks: seq<nat>)
    ensures x != origin && Times(Pops(g, origin, limit, picks).expanded, x) == MostExpansions(origin, limit, x)
  {
    if limit <= 1 {
      g, origin, x, picks := map[], "o", "x", [];
    } else if limit == 2 {
      g, origin, x, picks := map["o" := [Job("job", ["x"])]], "o", "x", Ends(Ends([], 0), 0);
      OneJobFeeds(g, "o", Job("job", ["x"]));
      assert Jobs(g, "x") == [] && JobLinks("x", []) == [];
      ExpandedOnce(g, limit);
    } else {
      var rungs := limit - 2;
      g, origin, x := LadderOf(rungs), Name('c', 0), "x";
      LadderOfIsLadder(rungs);
      picks := LadderExpandsOften(g, limit, Names('c', rungs + 1), Names('b', rungs), x);
    }
  }
}
