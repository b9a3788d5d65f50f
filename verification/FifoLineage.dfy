/**
 The lineage traversal in the order it is written, first in first out: every dataset is expanded
 at most once, and the strictly-shorter-path branch never fires.
 */
module FifoLineage {
  import opened Lineage
  import opened Wrappers

  ghost predicate NoDup<T>(s: seq<T>) { forall i, j :: 0 <= i < j < |s| ==> s[i] != s[j] }

  function Nodes(queue: seq<Item>): (nodes: seq<Node>)
    ensures |nodes| == |queue| && forall i :: 0 <= i < |queue| ==> nodes[i] == queue[i].0
  {
    seq(|queue|, i requires 0 <= i < |queue| => queue[i].0)
  }

  // Every dataset ever queued, in order.
  function Order(origin: Node, w: Walk): seq<Node> { [origin] + w.appended }

  // Nodes at depth d are being expanded: depths on the queue are sorted and span at most one.
  ghost predicate Layered(d: nat, w: Walk) {
    && (forall x :: x in w.visited ==> w.visited[x] <= d + 1)
    && (forall i :: 0 <= i < |w.queue| ==> Recorded(w, w.queue[i]) && d <= w.queue[i].1 <= d + 1)
    && (forall i, j :: 0 <= i < j < |w.queue| ==> w.queue[i].1 <= w.queue[j].1)
  }

  ghost predicate Recorded(w: Walk, item: Item) { item.0 in w.visited && w.visited[item.0] == item.1 }

  // The queue is the rest of the order, and no dataset was queued twice.
  ghost predicate LinedUp(order: seq<Node>, queued: seq<Node>, seen: set<Node>) {
    && |queued| <= |order|
    && NoDup(order)
    && (forall x :: x in seen <==> x in order)
    && queued == order[|order| - |queued|..]
  }

  ghost predicate Lined(origin: Node, w: Walk) { LinedUp(Order(origin, w), Nodes(w.queue), w.visited.Keys) }

  // The datasets popped so far.
  function Done(origin: Node, w: Walk): seq<Node>
    requires |w.queue| <= |Order(origin, w)|
  {
    Order(origin, w)[..|Order(origin, w)| - |w.queue|]
  }

  function AllLinks(g: Graph, limit: int, visited: map<Node, nat>, order: seq<Node>): seq<Link> {
    if order == [] then []
    else
      var x := order[|order| - 1];
      AllLinks(g, limit, visited, order[..|order| - 1]) + if x in visited && visited[x] < limit then Links(g, x) else []
  }

  // ---- Taking links ----

  ghost predicate Grows(a: map<Node, nat>, b: map<Node, nat>) { forall x :: x in a ==> x in b && b[x] == a[x] }

  lemma TakeStaysLayered(w: Walk, link: Link, d: nat)
    requires Layered(d, w)
    ensures Layered(d, Take(w, link, d))
    ensures Shallower(w.visited, link.target, d + 1) <==> link.target !in w.visited
    ensures Grows(w.visited, Take(w, link, d).visited)
  {
  }

  lemma NoDupMore<T>(s: seq<T>, x: T)
    requires NoDup(s) && x !in s
    ensures NoDup(s + [x])
  {
  }

  lemma NodesMore(queue: seq<Item>, item: Item)
    ensures Nodes(queue + [item]) == Nodes(queue) + [item.0]
  {
  }

  lemma LinedUpMore(order: seq<Node>, queued: seq<Node>, seen: set<Node>, x: Node)
    requires LinedUp(order, queued, seen) && x !in seen
    ensures LinedUp(order + [x], queued + [x], seen + {x})
  {
    NoDupMore(order, x);
  }

  lemma PrefixMore<T>(s: seq<T>, n: nat, x: T)
    requires n <= |s|
    ensures (s + [x])[..|s| - n] == s[..|s| - n]
  {
  }

  lemma TakeStaysLined(origin: Node, w: Walk, link: Link, d: nat)
    requires Lined(origin, w) && (Shallower(w.visited, link.target, d + 1) <==> link.target !in w.visited)
    ensures Lined(origin, Take(w, link, d)) && Done(origin, Take(w, link, d)) == Done(origin, w)
  {
    var x := link.target;
    if x !in w.visited {
      AppendStaysLined(origin, w, x, d + 1, Take(w, link, d));
      OrderMore(origin, w, Take(w, link, d), x);
      PrefixMore(Order(origin, w), |w.queue|, x);
    }
  }

  lemma LinedFrom(origin: Node, w: Walk, order: seq<Node>, queued: seq<Node>, seen: set<Node>)
    requires LinedUp(order, queued, seen)
    requires order == Order(origin, w) && queued == Nodes(w.queue) && seen == w.visited.Keys
    ensures Lined(origin, w)
  {
  }

  lemma AppendStaysLined(origin: Node, w: Walk, x: Node, depth: nat, t: Walk)
    requires Lined(origin, w) && x !in w.visited
    requires t.visited == w.visited[x := depth] && t.queue == w.queue + [(x, depth)] && t.appended == w.appended + [x]
    ensures Lined(origin, t)
  {
    var order, queued, seen := Order(origin, w), Nodes(w.queue), w.visited.Keys;
    LinedUpMore(order, queued, seen, x);
    NodesMore(w.queue, (x, depth));
    OrderMore(origin, w, t, x);
    LinedFrom(origin, t, order + [x], queued + [x], seen + {x});
  }

  lemma OrderMore(origin: Node, w: Walk, t: Walk, x: Node)
    requires t.appended == w.appended + [x]
    ensures Order(origin, t) == Order(origin, w) + [x]
  {
  }

  ghost predicate Taking(origin: Node, d: nat, w: Walk) { Layered(d, w) && Lined(origin, w) }

  // What taking links in order has done to the state.
  ghost predicate TookInOrder(origin: Node, d: nat, w: Walk, links: seq<Link>, t: Walk) {
    && Taking(origin, d, w) && Taking(origin, d, t) && Done(origin, t) == Done(origin, w)
    && Grows(w.visited, t.visited)
    && t.edges == w.edges + links
  }

  lemma TakeInOrder(origin: Node, w: Walk, links: seq<Link>, t: Walk, link: Link, d: nat)
    requires TookInOrder(origin, d, w, links, t)
    ensures TookInOrder(origin, d, w, links + [link], Take(t, link, d)) && TakeUnseen(t, link, d) == Take(t, link, d)
  {
    TakeStaysLayered(t, link, d);
    TakeStaysLined(origin, t, link, d);
    assert (w.edges + links) + [link] == w.edges + (links + [link]);
  }

  lemma TakeAllMore(w: Walk, links: seq<Link>, link: Link, d: nat)
    ensures TakeAll(w, links + [link], d) == Take(TakeAll(w, links, d), link, d)
    ensures TakeAllUnseen(w, links + [link], d) == TakeUnseen(TakeAllUnseen(w, links, d), link, d)
  {
    assert (links + [link])[..|links + [link]| - 1] == links;
  }

  lemma TakeLastInOrder(origin: Node, w: Walk, links: seq<Link>, t: Walk, link: Link, d: nat)
    requires t == TakeAll(w, links, d) && TookInOrder(origin, d, w, links, t) && TakeAllUnseen(w, links, d) == t
    ensures TookInOrder(origin, d, w, links + [link], TakeAll(w, links + [link], d))
    ensures TakeAllUnseen(w, links + [link], d) == TakeAll(w, links + [link], d)
  {
    TakeInOrder(origin, w, links, t, link, d);
    TakeAllMore(w, links, link, d);
  }

  lemma NoneTakenInOrder(origin: Node, w: Walk, d: nat)
    requires Taking(origin, d, w)
    ensures TookInOrder(origin, d, w, [], w)
  {
    assert w.edges + [] == w.edges;
  }

  lemma {:induction false} TakeAllInOrder(origin: Node, w: Walk, links: seq<Link>, d: nat)
    requires Taking(origin, d, w)
    ensures TookInOrder(origin, d, w, links, TakeAll(w, links, d)) && TakeAllUnseen(w, links, d) == TakeAll(w, links, d)
  {
    if links == [] {
      NoneTakenInOrder(origin, w, d);
    } else {
      var front, link := links[..|links| - 1], links[|links| - 1];
      assert links == front + [link];
      TakeAllInOrder(origin, w, front, d);
      TakeLastInOrder(origin, w, front, TakeAll(w, front, d), link, d);
    }
  }

  // ---- The same algorithm with a plain visited set ----

  function TakeUnseen(w: Walk, link: Link, d: nat): Walk {
    if link.target !in w.visited then
      Walk(w.visited[link.target := d + 1], w.queue + [(link.target, d + 1)],
           w.edges + [link], w.appended + [link.target])
    else w.(edges := w.edges + [link])
  }

  function TakeAllUnseen(w: Walk, links: seq<Link>, d: nat): Walk {
    if links == [] then w else TakeUnseen(TakeAllUnseen(w, links[..|links| - 1], d), links[|links| - 1], d)
  }

  function StepUnseen(g: Graph, limit: int, w: Walk, i: nat): Walk
    requires i < |w.queue|
  {
    var (node, d) := w.queue[i];
    if d >= limit then Pop(w, i) else TakeAllUnseen(Pop(w, i), Links(g, node), d)
  }

  // ---- Runs: n pops from the front ----

  function Forward(g: Graph, limit: int, w: Walk): Walk { if w.queue == [] then w else Step(g, limit, w, 0) }

  function ForwardUnseen(g: Graph, limit: int, w: Walk): Walk {
    if w.queue == [] then w else StepUnseen(g, limit, w, 0)
  }

  function Forwards(g: Graph, limit: int): Walk -> Walk { (w: Walk) => Forward(g, limit, w) }

  function ForwardsUnseen(g: Graph, limit: int): Walk -> Walk { (w: Walk) => ForwardUnseen(g, limit, w) }

  function Run(g: Graph, origin: Node, limit: int, n: nat): Walk { Repeat(Forwards(g, limit), Begin(origin), n) }

  function RunUnseen(g: Graph, origin: Node, limit: int, n: nat): Walk {
    Repeat(ForwardsUnseen(g, limit), Begin(origin), n)
  }

  ghost predicate InOrder(g: Graph, origin: Node, limit: int, w: Walk) {
    && (w.queue != [] ==> Layered(w.queue[0].1, w))
    && Lined(origin, w)
    && w.edges == AllLinks(g, limit, w.visited, Done(origin, w))
  }

  lemma BeginLined(origin: Node)
    ensures Lined(origin, Begin(origin)) && Done(origin, Begin(origin)) == []
  {
    assert Nodes([(origin, 0)]) == [origin];
    assert [origin] + [] == [origin];
    assert LinedUp([origin], [origin], {origin});
    assert map[origin := 0].Keys == {origin};
  }

  lemma BeginInOrder(g: Graph, origin: Node, limit: int)
    ensures InOrder(g, origin, limit, Begin(origin))
  {
    BeginLined(origin);
    assert AllLinks(g, limit, map[origin := 0], []) == [];
  }

  lemma LinedUpPop(order: seq<Node>, queued: seq<Node>, seen: set<Node>)
    requires LinedUp(order, queued, seen) && queued != []
    ensures LinedUp(order, queued[1..], seen)
    ensures order[..|order| - |queued| + 1] == order[..|order| - |queued|] + [queued[0]]
  {
    var n := |order| - |queued|;
    assert queued[0] == order[n];
    assert queued[1..] == order[n + 1..];
  }

  lemma PopFront(origin: Node, w: Walk)
    requires Lined(origin, w) && w.queue != []
    ensures Lined(origin, Pop(w, 0)) && Done(origin, Pop(w, 0)) == Done(origin, w) + [w.queue[0].0]
  {
    LinedUpPop(Order(origin, w), Nodes(w.queue), w.visited.Keys);
    assert Pop(w, 0).queue == w.queue[1..];
    assert Nodes(w.queue[1..]) == Nodes(w.queue)[1..];
  }

  lemma PopLayered(w: Walk)
    requires w.queue != [] && Layered(w.queue[0].1, w)
    ensures Layered(w.queue[0].1, Pop(w, 0))
  {
    var d, rest := w.queue[0].1, w.queue[1..];
    assert Pop(w, 0).queue == rest;
    assert forall i :: 0 <= i < |rest| ==> rest[i] == w.queue[i + 1];
  }

  lemma NextLayer(d: nat, w: Walk)
    requires Layered(d, w) && w.queue != []
    ensures Layered(w.queue[0].1, w)
  {
  }

  lemma {:induction false} AllLinksGrow(g: Graph, limit: int, a: map<Node, nat>, b: map<Node, nat>, order: seq<Node>)
    requires Grows(a, b) && forall x :: x in order ==> x in a
    ensures AllLinks(g, limit, a, order) == AllLinks(g, limit, b, order)
  {
    if order != [] {
      AllLinksGrow(g, limit, a, b, order[..|order| - 1]);
      assert order[|order| - 1] in order;
    }
  }

  lemma AllLinksMore(g: Graph, limit: int, visited: map<Node, nat>, order: seq<Node>, x: Node)
    ensures AllLinks(g, limit, visited, order + [x]) ==
            AllLinks(g, limit, visited, order) + if x in visited && visited[x] < limit then Links(g, x) else []
  {
    assert (order + [x])[..|order + [x]| - 1] == order;
  }

  lemma StepTakes(g: Graph, origin: Node, limit: int, w: Walk)
    requires InOrder(g, origin, limit, w) && w.queue != []
    ensures var t, d := Step(g, limit, w, 0), w.queue[0].1;
            && Taking(origin, d, t) && Done(origin, t) == Done(origin, w) + [w.queue[0].0]
            && Grows(w.visited, t.visited)
            && t.edges == w.edges + (if d < limit then Links(g, w.queue[0].0) else [])
            && StepUnseen(g, limit, w, 0) == t
  {
    PopTaking(g, origin, limit, w);
    var t := Pop(w, 0);
    if w.queue[0].1 < limit {
      TakeAllInOrder(origin, t, Links(g, w.queue[0].0), w.queue[0].1);
    } else {
      NoneTakenInOrder(origin, t, w.queue[0].1);
      assert t.edges + [] == t.edges;
    }
  }

  lemma PopTaking(g: Graph, origin: Node, limit: int, w: Walk)
    requires InOrder(g, origin, limit, w) && w.queue != []
    ensures var t := Pop(w, 0);
            && Taking(origin, w.queue[0].1, t) && Done(origin, t) == Done(origin, w) + [w.queue[0].0]
            && t.visited == w.visited && t.edges == w.edges
  {
    PopFront(origin, w);
    PopLayered(w);
  }

  lemma StepEdges(g: Graph, origin: Node, limit: int, w: Walk, t: Walk)
    requires InOrder(g, origin, limit, w) && w.queue != [] && Lined(origin, t) && Grows(w.visited, t.visited)
    requires Done(origin, t) == Done(origin, w) + [w.queue[0].0]
    requires t.edges == w.edges + (if w.queue[0].1 < limit then Links(g, w.queue[0].0) else [])
    ensures t.edges == AllLinks(g, limit, t.visited, Done(origin, t))
  {
    assert Recorded(w, w.queue[0]);
    AllLinksGrow(g, limit, w.visited, t.visited, Done(origin, w));
    AllLinksMore(g, limit, t.visited, Done(origin, w), w.queue[0].0);
  }

  lemma StepInOrder(g: Graph, origin: Node, limit: int, w: Walk)
    requires InOrder(g, origin, limit, w) && w.queue != []
    ensures InOrder(g, origin, limit, Step(g, limit, w, 0)) && StepUnseen(g, limit, w, 0) == Step(g, limit, w, 0)
  {
    StepTakes(g, origin, limit, w);
    var t := Step(g, limit, w, 0);
    StepEdges(g, origin, limit, w, t);
    if t.queue != [] {
      NextLayer(w.queue[0].1, t);
    }
  }

  lemma ForwardInOrder(g: Graph, origin: Node, limit: int, w: Walk)
    requires InOrder(g, origin, limit, w)
    ensures InOrder(g, origin, limit, Forward(g, limit, w)) && ForwardUnseen(g, limit, w) == Forward(g, limit, w)
  {
    if w.queue != [] {
      StepInOrder(g, origin, limit, w);
    }
  }

  ghost function OrderKept(g: Graph, origin: Node, limit: int): Walk -> bool {
    (w: Walk) => InOrder(g, origin, limit, w)
  }

  lemma OrderIsKept(g: Graph, origin: Node, limit: int)
    ensures var p, f, h := OrderKept(g, origin, limit), Forwards(g, limit), ForwardsUnseen(g, limit);
            p(Begin(origin)) && forall w :: p(w) ==> p(f(w)) && h(w) == f(w)
  {
    BeginInOrder(g, origin, limit);
    var p, f, h := OrderKept(g, origin, limit), Forwards(g, limit), ForwardsUnseen(g, limit);
    forall w | p(w) ensures p(f(w)) && h(w) == f(w) {
      ForwardInOrder(g, origin, limit, w);
    }
  }

  /** At every point the queue's depths are sorted and span at most one, and no dataset is queued twice. */
  lemma RunInOrder(g: Graph, origin: Node, limit: int, n: nat)
    ensures InOrder(g, origin, limit, Run(g, origin, limit, n))
  {
    OrderIsKept(g, origin, limit);
    RepeatKeeps(Forwards(g, limit), OrderKept(g, origin, limit), Begin(origin), n);
    assert OrderKept(g, origin, limit)(Run(g, origin, limit, n));
  }

  /** Under this order a plain visited set computes the same states, pop by pop: no shorter path ever turns up later. */
  lemma PlainVisitedSetIsEnough(g: Graph, origin: Node, limit: int, n: nat)
    ensures RunUnseen(g, origin, limit, n) == Run(g, origin, limit, n)
  {
    OrderIsKept(g, origin, limit);
    RepeatAgrees(Forwards(g, limit), ForwardsUnseen(g, limit), OrderKept(g, origin, limit), Begin(origin), n);
  }

  // ---- The loop ----

  // The datasets in the order they were reached, each once, and their links within the limit in that order.
  ghost predicate EachOnce(g: Graph, limit: int, visited: map<Node, nat>, edges: seq<Link>, order: seq<Node>) {
    && NoDup(order)
    && (forall x :: x in visited <==> x in order)
    && edges == AllLinks(g, limit, visited, order)
  }

  lemma EmptyQueueEachOnce(g: Graph, origin: Node, limit: int, w: Walk)
    requires InOrder(g, origin, limit, w) && w.queue == []
    ensures EachOnce(g, limit, w.visited, w.edges, Order(origin, w))
  {
    assert Done(origin, w) == Order(origin, w);
  }

  /**
   The traversal as written: shortest distances, each dataset expanded once, each edge reported
   once per job output.
   */
  method Traverse(g: Graph, origin: Node, limit: int)
    returns (visited: map<Node, nat>, edges: seq<Link>, ghost order: seq<Node>)
    ensures ShortestWithin(g, origin, limit, visited)
    ensures EdgesWithin(g, limit, visited, edges)
    ensures EachOnce(g, limit, visited, edges, order)
  {
    var queue := [(origin, 0)];
    visited, edges := map[origin := 0], [];
    ghost var appended := [];
    BeginKept(g, origin, limit);
    BeginInOrder(g, origin, limit);
    while queue != []
      invariant Kept(g, origin, limit, Walk(visited, queue, edges, appended))
      invariant InOrder(g, origin, limit, Walk(visited, queue, edges, appended))
      decreases Left(g, limit, visited), |queue|
    {
      ghost var w := Walk(visited, queue, edges, appended);
      StepKeeps(g, origin, limit, w, 0);
      StepInOrder(g, origin, limit, w);
      StepUsesUp(g, limit, w, 0);
      visited, queue, edges, appended := PopItem(g, limit, 0, visited, queue, edges, appended);
    }
    ghost var w := Walk(visited, queue, edges, appended);
    EmptyQueueMeans(g, origin, limit, w);
    EmptyQueueEachOnce(g, origin, limit, w);
    order := Order(origin, w);
  }

  // ---- Repeated edges ----

  lemma NoDupParts<T>(a: seq<T>, b: seq<T>)
    requires NoDup(a + b)
    ensures NoDup(a) && NoDup(b)
  {
    var s := a + b;
    forall i, j | 0 <= i < j < |a| ensures a[i] != a[j] {
      assert s[i] == a[i] && s[j] == a[j];
    }
    forall i, j | 0 <= i < j < |b| ensures b[i] != b[j] {
      assert s[|a| + i] == b[i] && s[|a| + j] == b[j];
    }
  }

  lemma NoDupConcat<T>(a: seq<T>, b: seq<T>)
    requires NoDup(a) && NoDup(b) && forall x :: x in a ==> x !in b
    ensures NoDup(a + b)
  {
    forall i, j | 0 <= i < j < |a + b| ensures (a + b)[i] != (a + b)[j] {
      if i < |a| <= j {
        assert a[i] in a && b[j - |a|] in b;
      }
    }
  }

  lemma {:induction false} AllLinksSource(g: Graph, limit: int, visited: map<Node, nat>, order: seq<Node>)
    ensures forall link :: link in AllLinks(g, limit, visited, order) ==> link.source in order
  {
    if order != [] {
      AllLinksSource(g, limit, visited, order[..|order| - 1]);
      JobLinksSource(order[|order| - 1], Jobs(g, order[|order| - 1]));
    }
  }

  ghost predicate CleanNode(g: Graph, limit: int, visited: map<Node, nat>, x: Node) {
    x in visited && visited[x] < limit && x in g ==> ListsOnce(g[x])
  }

  // No two places in the jobs list the same output of the same job.
  ghost predicate ListsOnce(jobs: seq<Job>) {
    forall i: nat, k: nat, j: nat, l: nat ::
      ListedAt(jobs, i, k) && ListedAt(jobs, j, l) && SameListing(jobs, i, k, j, l) ==> i == j && k == l
  }

  ghost predicate SameListing(jobs: seq<Job>, i: nat, k: nat, j: nat, l: nat)
    requires ListedAt(jobs, i, k) && ListedAt(jobs, j, l)
  {
    jobs[i] == jobs[j] && jobs[i].outputs[k] == jobs[j].outputs[l]
  }

  ghost predicate ListedAt(jobs: seq<Job>, j: nat, k: nat) { j < |jobs| && k < |jobs[j].outputs| }

  lemma {:induction false} OutputsAscend(jobs: seq<Job>, i: nat, j: nat)
    requires i < j <= |jobs|
    ensures Outputs(jobs, i) + |jobs[i].outputs| <= Outputs(jobs, j)
  {
    if i + 1 < j {
      OutputsAscend(jobs, i, j - 1);
    }
  }

  // The place in the jobs that link number i comes from.
  lemma {:induction false} PlaceOf(jobs: seq<Job>, n: nat, i: nat) returns (j: nat, k: nat)
    requires n <= |jobs| && i < Outputs(jobs, n)
    ensures ListedAt(jobs, j, k) && i == Outputs(jobs, j) + k
  {
    if i < Outputs(jobs, n - 1) {
      j, k := PlaceOf(jobs, n - 1, i);
    } else {
      j, k := n - 1, i - Outputs(jobs, n - 1);
    }
  }

  lemma PlacesDiffer(jobs: seq<Job>, i: nat, k: nat, j: nat, l: nat)
    requires ListedAt(jobs, i, k) && ListedAt(jobs, j, l) && Outputs(jobs, i) + k == Outputs(jobs, j) + l
    ensures i == j && k == l
  {
    if i < j {
      OutputsAscend(jobs, i, j);
    } else if j < i {
      OutputsAscend(jobs, j, i);
    }
  }

  lemma LinkOfPlace(node: Node, jobs: seq<Job>, j: nat, k: nat)
    requires ListedAt(jobs, j, k)
    ensures Outputs(jobs, j) + k < |JobLinks(node, jobs)|
    ensures JobLinks(node, jobs)[Outputs(jobs, j) + k] == Link(node, jobs[j], jobs[j].outputs[k])
  {
    JobLinksInOrder(node, jobs);
    assert IsLinkAt(node, jobs, j, k);
  }

  lemma OnceIsNoDup(node: Node, jobs: seq<Job>)
    requires ListsOnce(jobs)
    ensures NoDup(JobLinks(node, jobs))
  {
    var links := JobLinks(node, jobs);
    JobLinksInOrder(node, jobs);
    forall a, b | 0 <= a < b < |links| ensures links[a] != links[b] {
      var i, k := PlaceOf(jobs, |jobs|, a);
      var j, l := PlaceOf(jobs, |jobs|, b);
      LinkOfPlace(node, jobs, i, k);
      LinkOfPlace(node, jobs, j, l);
      if links[a] == links[b] {
        SameLinkSamePlace(jobs, i, k, j, l);
      }
    }
  }

  lemma SameLinkSamePlace(jobs: seq<Job>, i: nat, k: nat, j: nat, l: nat)
    requires ListsOnce(jobs) && ListedAt(jobs, i, k) && ListedAt(jobs, j, l)
    requires jobs[i] == jobs[j] && jobs[i].outputs[k] == jobs[j].outputs[l]
    ensures i == j && k == l
  {
    assert SameListing(jobs, i, k, j, l);
  }

  lemma NoDupIsOnce(node: Node, jobs: seq<Job>)
    requires NoDup(JobLinks(node, jobs))
    ensures ListsOnce(jobs)
  {
    var links := JobLinks(node, jobs);
    forall i: nat, k: nat, j: nat, l: nat |
      ListedAt(jobs, i, k) && ListedAt(jobs, j, l) && SameListing(jobs, i, k, j, l)
      ensures i == j && k == l
    {
      LinkOfPlace(node, jobs, i, k);
      LinkOfPlace(node, jobs, j, l);
      var a, b := Outputs(jobs, i) + k, Outputs(jobs, j) + l;
      assert links[a] == links[b];
      assert a == b;
      PlacesDiffer(jobs, i, k, j, l);
    }
  }

  lemma CleanNodeIsNoDup(g: Graph, limit: int, visited: map<Node, nat>, x: Node)
    ensures CleanNode(g, limit, visited, x) <==> (x in visited && visited[x] < limit ==> NoDup(Links(g, x)))
  {
    if x in g {
      if ListsOnce(g[x]) {
        OnceIsNoDup(x, g[x]);
      } else if NoDup(Links(g, x)) {
        NoDupIsOnce(x, g[x]);
      }
    }
  }

  // Every expanded dataset's own links are free of repeats.
  ghost predicate CleanJobs(g: Graph, limit: int, visited: map<Node, nat>, order: seq<Node>) {
    forall x :: x in order ==> CleanNode(g, limit, visited, x)
  }

  lemma CleanMore(g: Graph, limit: int, visited: map<Node, nat>, order: seq<Node>, x: Node)
    requires x !in order
    requires NoDup(AllLinks(g, limit, visited, order)) <==> CleanJobs(g, limit, visited, order)
    ensures NoDup(AllLinks(g, limit, visited, order + [x])) <==>
            CleanJobs(g, limit, visited, order) && CleanNode(g, limit, visited, x)
  {
    AllLinksMore(g, limit, visited, order, x);
    var a, b := AllLinks(g, limit, visited, order), if x in visited && visited[x] < limit then Links(g, x) else [];
    AllLinksSource(g, limit, visited, order);
    JobLinksSource(x, Jobs(g, x));
    CleanNodeIsNoDup(g, limit, visited, x);
    if NoDup(a + b) {
      NoDupParts(a, b);
    } else if NoDup(a) && NoDup(b) {
      NoDupConcat(a, b);
    }
  }

  /** An edge is reported twice exactly when one expanded dataset's jobs list it twice. */
  lemma {:induction false} EdgesRepeatIff(g: Graph, limit: int, visited: map<Node, nat>, order: seq<Node>)
    requires NoDup(order)
    ensures NoDup(AllLinks(g, limit, visited, order)) <==> CleanJobs(g, limit, visited, order)
  {
    if order != [] {
      var front, x := order[..|order| - 1], order[|order| - 1];
      EdgesRepeatIff(g, limit, visited, front);
      assert order == front + [x];
      CleanMore(g, limit, visited, front, x);
    }
  }

  /** Distinct jobs with distinct outputs list no edge twice. */
  lemma {:induction false} DistinctJobsAreClean(node: Node, jobs: seq<Job>)
    requires NoDup(jobs) && forall job :: job in jobs ==> NoDup(job.outputs)
    ensures NoDup(JobLinks(node, jobs))
    ensures forall link :: link in JobLinks(node, jobs) ==> link.job in jobs
  {
    if jobs != [] {
      var front, job := jobs[..|jobs| - 1], jobs[|jobs| - 1];
      assert jobs == front + [job];
      DistinctJobsAreClean(node, front);
      NoDupConcat(JobLinks(node, front), OutLinks(node, job, job.outputs));
    }
  }
}
