/**
 Depth-limited lineage traversal: the worklist algorithm, under an arbitrary pop order and in
 its own first-in-first-out order, against shortest distances in the job graph.
 */
module Lineage {
  import opened Wrappers

  type Node = string

  datatype Job = Job(name: string, outputs: seq<Node>)

  // jobs_touching, for the datasets that have any.
  type Graph = map<Node, seq<Job>>

  datatype Link = Link(source: Node, job: Job, target: Node)

  type Item = (Node, nat)

  function Jobs(g: Graph, node: Node): seq<Job> { if node in g then g[node] else [] }

  function OutLinks(node: Node, job: Job, outputs: seq<Node>): (links: seq<Link>)
    ensures |links| == |outputs|
  {
    seq(|outputs|, i requires 0 <= i < |outputs| => Link(node, job, outputs[i]))
  }

  function JobLinks(node: Node, jobs: seq<Job>): seq<Link> {
    if jobs == [] then []
    else
      var job := jobs[|jobs| - 1];
      JobLinks(node, jobs[..|jobs| - 1]) + OutLinks(node, job, job.outputs)
  }

  // The (node, job, output) triples of a node in the order the two inner loops visit them.
  function Links(g: Graph, node: Node): seq<Link> { JobLinks(node, Jobs(g, node)) }

  // ---- Distances ----

  // The graph lists a link: a job touching its source has its target among its outputs.
  ghost predicate Lists(g: Graph, link: Link) {
    && link.source in g && link.job in g[link.source] && link.target in link.job.outputs
  }

  ghost predicate Edge(g: Graph, x: Node, y: Node) { x in g && exists job :: job in g[x] && y in job.outputs }

  ghost predicate Hops(g: Graph, origin: Node, x: Node, k: nat)
    decreases k
  {
    if k == 0 then x == origin else exists y :: Hops(g, origin, y, k - 1) && Edge(g, y, x)
  }

  ghost predicate Distance(g: Graph, origin: Node, x: Node, d: nat) {
    Hops(g, origin, x, d) && forall k: nat :: k < d ==> !Hops(g, origin, x, k)
  }

  // Exactly the nodes at most `limit` hops away, each with its distance.
  ghost predicate ShortestWithin(g: Graph, origin: Node, limit: int, visited: map<Node, nat>) {
    && (forall x :: x in visited ==> visited[x] <= Max(0, limit) && Distance(g, origin, x, visited[x]))
    && (forall x, d: nat :: Distance(g, origin, x, d) && d <= Max(0, limit) ==> x in visited)
  }

  // Exactly the links that leave a node fewer than `limit` hops away.
  ghost predicate EdgesWithin(g: Graph, limit: int, visited: map<Node, nat>, edges: seq<Link>) {
    forall link :: link in edges <==>
                     link.source in visited && visited[link.source] < limit && Lists(g, link)
  }

  // ---- The links of a node are what the graph lists ----

  // How many outputs the jobs before number j have.
  function Outputs(jobs: seq<Job>, j: nat): nat
    requires j <= |jobs|
  {
    if j == 0 then 0 else Outputs(jobs, j - 1) + |jobs[j - 1].outputs|
  }

  lemma {:induction false} OutputsOfFront(jobs: seq<Job>, n: nat, j: nat)
    requires j <= n <= |jobs|
    ensures Outputs(jobs[..n], j) == Outputs(jobs, j)
  {
    if j > 0 {
      OutputsOfFront(jobs, n, j - 1);
    }
  }

  lemma {:induction false} JobLinksInOrder(node: Node, jobs: seq<Job>)
    ensures |JobLinks(node, jobs)| == Outputs(jobs, |jobs|)
    ensures forall j, k :: 0 <= j < |jobs| && 0 <= k < |jobs[j].outputs| ==> IsLinkAt(node, jobs, j, k)
  {
    if jobs != [] {
      var n := |jobs| - 1;
      JobLinksInOrder(node, jobs[..n]);
      OutputsOfFront(jobs, n, n);
      assert JobLinks(node, jobs) == JobLinks(node, jobs[..n]) + OutLinks(node, jobs[n], jobs[n].outputs);
      forall j, k | 0 <= j < |jobs| && 0 <= k < |jobs[j].outputs| ensures IsLinkAt(node, jobs, j, k) {
        if j < n {
          assert IsLinkAt(node, jobs[..n], j, k);
          OutputsOfFront(jobs, n, j);
        }
      }
    }
  }

  ghost predicate IsLinkAt(node: Node, jobs: seq<Job>, j: nat, k: nat)
    requires j < |jobs| && k < |jobs[j].outputs|
  {
    var i := Outputs(jobs, j) + k;
    i < |JobLinks(node, jobs)| && JobLinks(node, jobs)[i] == Link(node, jobs[j], jobs[j].outputs[k])
  }

  ghost predicate LinkIsAt(g: Graph, x: Node, j: nat, k: nat)
    requires x in g && j < |g[x]| && k < |g[x][j].outputs|
  {
    var i := Outputs(g[x], j) + k;
    i < |Links(g, x)| && Links(g, x)[i] == Link(x, g[x][j], g[x][j].outputs[k])
  }

  /** The links of a node are all outputs of all its jobs, in the order the graph lists them, each once per listing. */
  lemma LinksInOrder(g: Graph, x: Node)
    ensures |Links(g, x)| == if x in g then Outputs(g[x], |g[x]|) else 0
    ensures x in g ==> forall j, k :: 0 <= j < |g[x]| && 0 <= k < |g[x][j].outputs| ==> LinkIsAt(g, x, j, k)
  {
    JobLinksInOrder(x, Jobs(g, x));
    if x in g {
      forall j, k | 0 <= j < |g[x]| && 0 <= k < |g[x][j].outputs| ensures LinkIsAt(g, x, j, k) {
        assert IsLinkAt(x, g[x], j, k);
      }
    }
  }

  lemma {:induction false} JobLinksAreListed(node: Node, jobs: seq<Job>, link: Link)
    ensures link in JobLinks(node, jobs) <==> link.source == node && link.job in jobs && link.target in link.job.outputs
  {
    if jobs != [] {
      var front, job := jobs[..|jobs| - 1], jobs[|jobs| - 1];
      JobLinksAreListed(node, front, link);
      assert jobs == front + [job];
      OutLinksAreListed(node, job, link);
    }
  }

  lemma OutLinksAreListed(node: Node, job: Job, link: Link)
    ensures link in OutLinks(node, job, job.outputs) <==>
            link.source == node && link.job == job && link.target in job.outputs
  {
    var links := OutLinks(node, job, job.outputs);
    if link.source == node && link.job == job && link.target in job.outputs {
      var k :| 0 <= k < |job.outputs| && job.outputs[k] == link.target;
      assert links[k] == link;
    }
  }

  /** A link is taken from a node exactly when the graph lists it. */
  lemma LinksAreListed(g: Graph, x: Node, link: Link)
    ensures link in Links(g, x) <==> link.source == x && Lists(g, link)
  {
    JobLinksAreListed(x, Jobs(g, x), link);
  }

  lemma TargetsAreEdges(g: Graph, x: Node, y: Node)
    ensures Targets(Links(g, x), y) <==> Edge(g, x, y)
  {
    if Targets(Links(g, x), y) {
      var i :| 0 <= i < |Links(g, x)| && Links(g, x)[i].target == y;
      LinksAreListed(g, x, Links(g, x)[i]);
    }
    if Edge(g, x, y) {
      var job :| job in g[x] && y in job.outputs;
      LinksAreListed(g, x, Link(x, job, y));
      var i :| 0 <= i < |Links(g, x)| && Links(g, x)[i] == Link(x, job, y);
    }
  }

  // ---- The algorithm as a function of its state ----

  // appended records every dataset put on the queue after the origin.
  datatype Walk = Walk(visited: map<Node, nat>, queue: seq<Item>, edges: seq<Link>, appended: seq<Node>)

  function Begin(origin: Node): Walk { Walk(map[origin := 0], [(origin, 0)], [], []) }

  predicate Shallower(visited: map<Node, nat>, out: Node, depth: nat) { out !in visited || visited[out] > depth }

  function Take(w: Walk, link: Link, d: nat): Walk {
    if Shallower(w.visited, link.target, d + 1) then
      Walk(w.visited[link.target := d + 1], w.queue + [(link.target, d + 1)],
           w.edges + [link], w.appended + [link.target])
    else w.(edges := w.edges + [link])
  }

  function TakeAll(w: Walk, links: seq<Link>, d: nat): Walk {
    if links == [] then w else Take(TakeAll(w, links[..|links| - 1], d), links[|links| - 1], d)
  }

  function Pop(w: Walk, i: nat): Walk
    requires i < |w.queue|
  {
    w.(queue := w.queue[..i] + w.queue[i + 1..])
  }

  function Step(g: Graph, limit: int, w: Walk, i: nat): Walk
    requires i < |w.queue|
  {
    var (node, d) := w.queue[i];
    if d >= limit then Pop(w, i) else TakeAll(Pop(w, i), Links(g, node), d)
  }

  // ---- What taking links does ----

  // How the state changes while the links of one node at depth d are taken.
  ghost predicate Took(w: Walk, links: seq<Link>, d: nat, t: Walk) {
    && (forall x :: x in w.visited ==> x in t.visited && t.visited[x] <= w.visited[x])
    && (forall link :: link in links ==> link.target in t.visited && t.visited[link.target] <= d + 1)
    && t.edges == w.edges + links
    && w.queue <= t.queue
    && (forall x :: x in t.visited ==> Same(w, t, x) || Fresh(links, d, t, x))
    && (forall item :: item in t.queue ==> item in w.queue || NewItem(links, d, item))
  }

  ghost predicate NewItem(links: seq<Link>, d: nat, item: Item) { item.1 == d + 1 && Targets(links, item.0) }

  ghost predicate Same(w: Walk, t: Walk, x: Node)
    requires x in t.visited
  {
    x in w.visited && t.visited[x] == w.visited[x]
  }

  ghost predicate Fresh(links: seq<Link>, d: nat, t: Walk, x: Node)
    requires x in t.visited
  {
    t.visited[x] == d + 1 && (x, d + 1) in t.queue && Targets(links, x)
  }

  ghost predicate Targets(links: seq<Link>, x: Node) { exists i :: 0 <= i < |links| && links[i].target == x }

  lemma TargetsGrow(links: seq<Link>, link: Link, x: Node)
    ensures Targets(links + [link], x) <==> Targets(links, x) || link.target == x
  {
    var all := links + [link];
    assert all[|links|] == link;
    if i :| 0 <= i < |links| && links[i].target == x {
      assert all[i].target == x;
    }
    if i :| 0 <= i < |all| && all[i].target == x {
      assert i < |links| ==> links[i].target == x;
    }
  }

  lemma TookOneDepth(w: Walk, links: seq<Link>, d: nat, t: Walk, link: Link, x: Node)
    requires Took(w, links, d, t) && x in Take(t, link, d).visited
    ensures Same(w, Take(t, link, d), x) || Fresh(links + [link], d, Take(t, link, d), x)
  {
    TargetsGrow(links, link, x);
    if x in t.visited {
      assert Same(w, t, x) || Fresh(links, d, t, x);
    }
  }

  lemma TookMore(w: Walk, links: seq<Link>, d: nat, t: Walk, link: Link)
    requires Took(w, links, d, t)
    ensures Took(w, links + [link], d, Take(t, link, d))
  {
    var u := Take(t, link, d);
    forall x | x in u.visited ensures Same(w, u, x) || Fresh(links + [link], d, u, x) {
      TookOneDepth(w, links, d, t, link, x);
    }
    forall item | item in u.queue ensures item in w.queue || NewItem(links + [link], d, item) {
      TargetsGrow(links, link, item.0);
    }
    assert u.edges == w.edges + (links + [link]);
    assert u.queue[..|t.queue|] == t.queue;
  }

  lemma {:induction false} TookAll(w: Walk, links: seq<Link>, d: nat)
    ensures Took(w, links, d, TakeAll(w, links, d))
  {
    if links == [] {
      assert w.edges + links == w.edges;
    } else {
      var front, link := links[..|links| - 1], links[|links| - 1];
      TookAll(w, front, d);
      TookMore(w, front, d, TakeAll(w, front, d), link);
      assert links == front + [link];
    }
  }

  // ---- Every pop order keeps these ----

  ghost predicate SoundDepth(g: Graph, origin: Node, limit: int, visited: map<Node, nat>, x: Node) {
    x in visited ==> visited[x] <= Max(0, limit) && Hops(g, origin, x, visited[x])
  }

  ghost predicate SoundDepths(g: Graph, origin: Node, limit: int, visited: map<Node, nat>) {
    && origin in visited && visited[origin] == 0
    && forall x :: SoundDepth(g, origin, limit, visited, x)
  }

  ghost predicate SoundItem(g: Graph, origin: Node, visited: map<Node, nat>, item: Item) {
    item.0 in visited && visited[item.0] <= item.1 && Hops(g, origin, item.0, item.1)
  }

  ghost predicate SoundQueue(g: Graph, origin: Node, w: Walk) {
    forall item :: item in w.queue ==> SoundItem(g, origin, w.visited, item)
  }

  ghost predicate SoundEdges(g: Graph, limit: int, w: Walk) {
    forall link :: link in w.edges ==>
                     link.source in w.visited && w.visited[link.source] < limit && link in Links(g, link.source)
  }

  ghost predicate Sound(g: Graph, origin: Node, limit: int, w: Walk) {
    SoundDepths(g, origin, limit, w.visited) && SoundQueue(g, origin, w) && SoundEdges(g, limit, w)
  }

  ghost predicate Expanded(g: Graph, w: Walk, x: Node)
    requires x in w.visited
  {
    forall link :: link in Links(g, x) ==>
                     link in w.edges && link.target in w.visited && w.visited[link.target] <= w.visited[x] + 1
  }

  // A node whose depth has been recorded is still queued at that depth, or has been expanded from it.
  ghost predicate Complete(g: Graph, limit: int, w: Walk) {
    forall x :: x in w.visited && w.visited[x] < limit ==> (x, w.visited[x]) in w.queue || Expanded(g, w, x)
  }

  lemma {:induction false} JobLinksSource(node: Node, jobs: seq<Job>)
    ensures forall link :: link in JobLinks(node, jobs) ==> link.source == node
  {
    if jobs != [] {
      JobLinksSource(node, jobs[..|jobs| - 1]);
    }
  }

  lemma OneMoreHop(g: Graph, origin: Node, node: Node, d: nat, x: Node)
    requires Hops(g, origin, node, d) && Targets(Links(g, node), x)
    ensures Hops(g, origin, x, d + 1)
  {
    TargetsAreEdges(g, node, x);
    assert Edge(g, node, x);
  }

  lemma TookDepth(g: Graph, origin: Node, limit: int, w: Walk, node: Node, d: nat, t: Walk, x: Node)
    requires SoundDepth(g, origin, limit, w.visited, x) && d < limit && Hops(g, origin, node, d)
    requires x in t.visited && (Same(w, t, x) || Fresh(Links(g, node), d, t, x))
    ensures SoundDepth(g, origin, limit, t.visited, x)
  {
    if !Same(w, t, x) {
      OneMoreHop(g, origin, node, d, x);
    }
  }

  lemma TookDepths(g: Graph, origin: Node, limit: int, w: Walk, node: Node, d: nat, t: Walk)
    requires SoundDepths(g, origin, limit, w.visited) && d < limit && Hops(g, origin, node, d)
    requires Took(w, Links(g, node), d, t)
    ensures SoundDepths(g, origin, limit, t.visited)
  {
    forall x ensures SoundDepth(g, origin, limit, t.visited, x) {
      if x in t.visited {
        TookDepth(g, origin, limit, w, node, d, t, x);
      }
    }
  }

  lemma TookOld(g: Graph, origin: Node, w: Walk, links: seq<Link>, d: nat, t: Walk, item: Item)
    requires SoundItem(g, origin, w.visited, item) && Took(w, links, d, t)
    ensures SoundItem(g, origin, t.visited, item)
  {
  }

  lemma TookNew(g: Graph, origin: Node, w: Walk, node: Node, d: nat, t: Walk, item: Item)
    requires Hops(g, origin, node, d) && NewItem(Links(g, node), d, item)
    requires Took(w, Links(g, node), d, t)
    ensures SoundItem(g, origin, t.visited, item)
  {
    OneMoreHop(g, origin, node, d, item.0);
    var i :| 0 <= i < |Links(g, node)| && Links(g, node)[i].target == item.0;
    assert Links(g, node)[i] in Links(g, node);
  }

  lemma TookQueue(g: Graph, origin: Node, w: Walk, node: Node, d: nat, t: Walk)
    requires SoundQueue(g, origin, w) && Hops(g, origin, node, d)
    requires Took(w, Links(g, node), d, t)
    ensures SoundQueue(g, origin, t)
  {
    forall item | item in t.queue ensures SoundItem(g, origin, t.visited, item) {
      if item in w.queue {
        TookOld(g, origin, w, Links(g, node), d, t, item);
      } else {
        TookNew(g, origin, w, node, d, t, item);
      }
    }
  }

  lemma TookEdges(g: Graph, limit: int, w: Walk, node: Node, d: nat, t: Walk)
    requires SoundEdges(g, limit, w) && d < limit && node in w.visited && w.visited[node] <= d
    requires Took(w, Links(g, node), d, t)
    ensures SoundEdges(g, limit, t)
  {
    JobLinksSource(node, Jobs(g, node));
  }

  lemma StepKeepsSound(g: Graph, origin: Node, limit: int, w: Walk, i: nat)
    requires Sound(g, origin, limit, w) && i < |w.queue|
    ensures Sound(g, origin, limit, Step(g, limit, w, i))
  {
    var (node, d) := w.queue[i];
    assert SoundItem(g, origin, w.visited, w.queue[i]);
    if d < limit {
      var t := TakeAll(Pop(w, i), Links(g, node), d);
      TookAll(Pop(w, i), Links(g, node), d);
      TookDepths(g, origin, limit, Pop(w, i), node, d, t);
      TookQueue(g, origin, Pop(w, i), node, d, t);
      TookEdges(g, limit, Pop(w, i), node, d, t);
    }
  }

  lemma PopKeepsComplete(g: Graph, limit: int, w: Walk, i: nat, x: Node)
    requires Complete(g, limit, w) && i < |w.queue| && x in w.visited && w.visited[x] < limit
    requires (x, w.visited[x]) != w.queue[i]
    ensures (x, w.visited[x]) in Pop(w, i).queue || Expanded(g, w, x)
  {
  }

  lemma StillExpanded(g: Graph, w: Walk, node: Node, d: nat, t: Walk, x: Node)
    requires Took(w, Links(g, node), d, t) && x in w.visited && Expanded(g, w, x) && Same(w, t, x)
    ensures Expanded(g, t, x)
  {
  }

  lemma JustExpanded(g: Graph, w: Walk, node: Node, d: nat, t: Walk)
    requires Took(w, Links(g, node), d, t) && node in t.visited && t.visited[node] == d
    ensures Expanded(g, t, node)
  {
  }

  lemma StepKeepsComplete(g: Graph, origin: Node, limit: int, w: Walk, i: nat)
    requires Sound(g, origin, limit, w) && Complete(g, limit, w) && i < |w.queue|
    ensures Complete(g, limit, Step(g, limit, w, i))
  {
    var (node, d) := w.queue[i];
    var t := Step(g, limit, w, i);
    if d >= limit {
      forall x | x in w.visited && w.visited[x] < limit ensures (x, w.visited[x]) in t.queue || Expanded(g, t, x) {
        PopKeepsComplete(g, limit, w, i, x);
      }
    } else {
      TookAll(Pop(w, i), Links(g, node), d);
      forall x | x in t.visited && t.visited[x] < limit ensures (x, t.visited[x]) in t.queue || Expanded(g, t, x) {
        NodeStaysComplete(g, limit, w, i, t, x);
      }
    }
  }

  lemma NodeStaysComplete(g: Graph, limit: int, w: Walk, i: nat, t: Walk, x: Node)
    requires Complete(g, limit, w) && i < |w.queue|
    requires Took(Pop(w, i), Links(g, w.queue[i].0), w.queue[i].1, t)
    requires x in t.visited && t.visited[x] < limit
    ensures (x, t.visited[x]) in t.queue || Expanded(g, t, x)
  {
    var (node, d) := w.queue[i];
    if Same(Pop(w, i), t, x) {
      if (x, w.visited[x]) == w.queue[i] {
        JustExpanded(g, Pop(w, i), node, d, t);
      } else {
        PopKeepsComplete(g, limit, w, i, x);
        if Expanded(g, w, x) {
          StillExpanded(g, Pop(w, i), node, d, t, x);
        }
      }
    }
  }

  lemma ExpandedEdge(g: Graph, limit: int, w: Walk, y: Node, x: Node)
    requires Complete(g, limit, w) && w.queue == [] && y in w.visited && w.visited[y] < limit && Edge(g, y, x)
    ensures x in w.visited && w.visited[x] <= w.visited[y] + 1
  {
    assert Expanded(g, w, y);
    TargetsAreEdges(g, y, x);
    var i :| 0 <= i < |Links(g, y)| && Links(g, y)[i].target == x;
    assert Links(g, y)[i] in Links(g, y);
  }

  // Nothing left on the queue: every walk of at most `limit` hops has been recorded.
  lemma {:induction false} WalksAreRecorded(g: Graph, origin: Node, limit: int, w: Walk, x: Node, k: nat)
    requires SoundDepths(g, origin, limit, w.visited) && Complete(g, limit, w) && w.queue == []
    requires Hops(g, origin, x, k) && k <= Max(0, limit)
    ensures x in w.visited && w.visited[x] <= k
    decreases k
  {
    if k > 0 {
      var y :| Hops(g, origin, y, k - 1) && Edge(g, y, x);
      WalksAreRecorded(g, origin, limit, w, y, k - 1);
      ExpandedEdge(g, limit, w, y, x);
    }
  }

  lemma EmptyQueueIsShortest(g: Graph, origin: Node, limit: int, w: Walk)
    requires SoundDepths(g, origin, limit, w.visited) && Complete(g, limit, w) && w.queue == []
    ensures ShortestWithin(g, origin, limit, w.visited)
  {
    forall x | x in w.visited ensures w.visited[x] <= Max(0, limit) && Hops(g, origin, x, w.visited[x]) {
      assert SoundDepth(g, origin, limit, w.visited, x);
    }
    forall x, k: nat | Hops(g, origin, x, k) && k <= Max(0, limit) ensures x in w.visited && w.visited[x] <= k {
      WalksAreRecorded(g, origin, limit, w, x, k);
    }
  }

  lemma EmptyQueueHasAllEdges(g: Graph, limit: int, w: Walk)
    requires SoundEdges(g, limit, w) && Complete(g, limit, w) && w.queue == []
    ensures EdgesWithin(g, limit, w.visited, w.edges)
  {
    forall link: Link ensures link in Links(g, link.source) <==> Lists(g, link) {
      LinksAreListed(g, link.source, link);
    }
    forall link: Link | link.source in w.visited && w.visited[link.source] < limit && Lists(g, link)
      ensures link in w.edges
    {
      assert Expanded(g, w, link.source);
    }
  }

  // ---- How often a node is queued ----

  function Times(s: seq<Node>, x: Node): nat {
    if s == [] then 0 else Times(s[..|s| - 1], x) + if s[|s| - 1] == x then 1 else 0
  }

  // Each time a node is queued again its depth has dropped.
  ghost predicate Budget(origin: Node, limit: int, w: Walk, x: Node) {
    if x !in w.visited || x == origin then Times(w.appended, x) == 0
    else w.visited[x] >= 1 && Times(w.appended, x) + w.visited[x] <= limit + 1
  }

  ghost predicate Rationed(origin: Node, limit: int, w: Walk) {
    origin in w.visited && w.visited[origin] == 0 && forall x :: Budget(origin, limit, w, x)
  }

  lemma TimesMore(s: seq<Node>, y: Node, x: Node)
    ensures Times(s + [y], x) == Times(s, x) + if x == y then 1 else 0
  {
    assert (s + [y])[..|s + [y]| - 1] == s;
  }

  lemma TakeRations(origin: Node, limit: int, w: Walk, link: Link, d: nat)
    requires Rationed(origin, limit, w) && d < limit
    ensures Rationed(origin, limit, Take(w, link, d))
  {
    forall x ensures Budget(origin, limit, Take(w, link, d), x) {
      assert Budget(origin, limit, w, x);
      TimesMore(w.appended, link.target, x);
    }
  }

  lemma {:induction false} TakeAllRations(origin: Node, limit: int, w: Walk, links: seq<Link>, d: nat)
    requires Rationed(origin, limit, w) && d < limit
    ensures Rationed(origin, limit, TakeAll(w, links, d))
  {
    if links != [] {
      TakeAllRations(origin, limit, w, links[..|links| - 1], d);
      TakeRations(origin, limit, TakeAll(w, links[..|links| - 1], d), links[|links| - 1], d);
    }
  }

  lemma StepRations(g: Graph, origin: Node, limit: int, w: Walk, i: nat)
    requires Rationed(origin, limit, w) && i < |w.queue|
    ensures Rationed(origin, limit, Step(g, limit, w, i))
  {
    var (node, d) := w.queue[i];
    assert Rationed(origin, limit, Pop(w, i)) by {
      forall x ensures Budget(origin, limit, Pop(w, i), x) {
        assert Budget(origin, limit, w, x);
      }
    }
    if d < limit {
      TakeAllRations(origin, limit, Pop(w, i), Links(g, node), d);
    }
  }

  // ---- How often a node is expanded ----

  // A state of the traversal, and the datasets expanded on the way to it.
  datatype Trace = Trace(walk: Walk, expanded: seq<Node>)

  function PopNext(g: Graph, limit: int, t: Trace, i: nat): Trace {
    if i >= |t.walk.queue| then t
    else
      var (node, d) := t.walk.queue[i];
      Trace(Step(g, limit, t.walk, i), t.expanded + if d < limit then [node] else [])
  }

  // The traversal that pops the items at these positions, one after another.
  function Pops(g: Graph, origin: Node, limit: int, picks: seq<nat>): Trace {
    if picks == [] then Trace(Begin(origin), [])
    else PopNext(g, limit, Pops(g, origin, limit, picks[..|picks| - 1]), picks[|picks| - 1])
  }

  function Ends(picks: seq<nat>, i: nat): seq<nat> { picks + [i] }

  lemma PopsMore(g: Graph, origin: Node, limit: int, picks: seq<nat>, i: nat)
    ensures Pops(g, origin, limit, Ends(picks, i)) == PopNext(g, limit, Pops(g, origin, limit, picks), i)
  {
    assert Ends(picks, i)[..|Ends(picks, i)| - 1] == picks;
  }

  // The items of x on the queue that will still be expanded.
  function Pending(queue: seq<Item>, limit: int, x: Node): nat {
    if queue == [] then 0
    else Pending(queue[..|queue| - 1], limit, x) + WillExpand(queue[|queue| - 1], limit, x)
  }

  function WillExpand(item: Item, limit: int, x: Node): nat { if item.0 == x && item.1 < limit then 1 else 0 }

  lemma PendingMore(queue: seq<Item>, item: Item, limit: int, x: Node)
    ensures Pending(queue + [item], limit, x) == Pending(queue, limit, x) + WillExpand(item, limit, x)
  {
    assert (queue + [item])[..|queue + [item]| - 1] == queue;
  }

  lemma {:induction false} PendingPop(queue: seq<Item>, i: nat, limit: int, x: Node)
    requires i < |queue|
    ensures Pending(queue, limit, x) ==
            Pending(queue[..i] + queue[i + 1..], limit, x) + WillExpand(queue[i], limit, x)
  {
    var n := |queue| - 1;
    if i == n {
      assert queue[..i] + queue[i + 1..] == queue[..n];
    } else {
      PendingPop(queue[..n], i, limit, x);
      assert queue[..i] + queue[i + 1..] == (queue[..n][..i] + queue[..n][i + 1..]) + [queue[n]];
      PendingMore(queue[..n][..i] + queue[..n][i + 1..], queue[n], limit, x);
    }
  }

  // The expansions a node can still have, given the depth it was last recorded at: one when it is
  // the origin or right below it, and otherwise one for each depth from there to the limit.
  function Allowance(origin: Node, limit: int, w: Walk, x: Node): int {
    if x !in w.visited then 0
    else if w.visited[x] < 2 then if w.visited[x] < limit then 1 else 0
    else limit - w.visited[x]
  }

  ghost predicate Spent(origin: Node, limit: int, w: Walk, expanded: seq<Node>, x: Node) {
    Times(expanded, x) + Pending(w.queue, limit, x) <= Allowance(origin, limit, w, x)
  }

  ghost predicate OnlyOriginAtZero(origin: Node, visited: map<Node, nat>) {
    origin in visited && forall x :: x in visited ==> (visited[x] == 0 <==> x == origin)
  }

  // Depth 1 is recorded only while the origin is expanded, before anything else is.
  ghost predicate OriginFirst(origin: Node, w: Walk, d: nat) {
    OnlyOriginAtZero(origin, w.visited) && (d == 0 ==> forall x :: x in w.visited ==> w.visited[x] <= 1)
  }

  lemma TakeSpends(origin: Node, limit: int, w: Walk, expanded: seq<Node>, link: Link, d: nat)
    requires OriginFirst(origin, w, d) && d < limit
    requires forall x :: Spent(origin, limit, w, expanded, x)
    ensures OriginFirst(origin, Take(w, link, d), d)
    ensures forall x :: Spent(origin, limit, Take(w, link, d), expanded, x)
  {
    var t := Take(w, link, d);
    forall x ensures Spent(origin, limit, t, expanded, x) {
      assert Spent(origin, limit, w, expanded, x);
      PendingMore(w.queue, (link.target, d + 1), limit, x);
    }
  }

  lemma {:induction false} TakeAllSpends(origin: Node, limit: int, w: Walk, expanded: seq<Node>, links: seq<Link>,
                                         d: nat)
    requires OriginFirst(origin, w, d) && d < limit
    requires forall x :: Spent(origin, limit, w, expanded, x)
    ensures OriginFirst(origin, TakeAll(w, links, d), d)
    ensures forall x :: Spent(origin, limit, TakeAll(w, links, d), expanded, x)
  {
    if links != [] {
      TakeAllSpends(origin, limit, w, expanded, links[..|links| - 1], d);
      TakeSpends(origin, limit, TakeAll(w, links[..|links| - 1], d), expanded, links[|links| - 1], d);
    }
  }

  // Either nothing has been popped, or every item on the queue lies below the origin.
  ghost predicate BelowOrigin(origin: Node, w: Walk) {
    || (w.visited == map[origin := 0] && w.queue == [(origin, 0)])
    || (forall item :: item in w.queue ==> item.1 >= 1)
  }

  ghost predicate Thrifty(origin: Node, limit: int, t: Trace) {
    && OnlyOriginAtZero(origin, t.walk.visited) && BelowOrigin(origin, t.walk)
    && forall x :: Spent(origin, limit, t.walk, t.expanded, x)
  }

  // The popped item moves from the queue to the expanded ones, or is discarded at the limit.
  lemma PopSpends(origin: Node, limit: int, t: Trace, i: nat, x: Node)
    requires i < |t.walk.queue| && Spent(origin, limit, t.walk, t.expanded, x)
    ensures var item := t.walk.queue[i];
            Spent(origin, limit, Pop(t.walk, i), t.expanded + if item.1 < limit then [item.0] else [], x)
  {
    var item := t.walk.queue[i];
    PendingPop(t.walk.queue, i, limit, x);
    TimesMore(t.expanded, item.0, x);
    assert t.expanded + [] == t.expanded;
  }

  lemma {:induction false} TakeAllBelow(w: Walk, links: seq<Link>, d: nat)
    requires forall item :: item in w.queue ==> item.1 >= 1
    ensures forall item :: item in TakeAll(w, links, d).queue ==> item.1 >= 1
  {
    if links != [] {
      TakeAllBelow(w, links[..|links| - 1], d);
    }
  }

  lemma PopBelow(origin: Node, w: Walk, i: nat)
    requires BelowOrigin(origin, w) && i < |w.queue|
    ensures forall item :: item in Pop(w, i).queue ==> item.1 >= 1
    ensures w.queue[i].1 == 0 ==> w.visited == map[origin := 0]
  {
    assert forall item :: item in Pop(w, i).queue ==> item in w.queue;
    if w.queue == [(origin, 0)] {
      assert Pop(w, i).queue == [];
    } else {
      assert w.queue[i] in w.queue;
    }
  }

  lemma PopStaysThrifty(g: Graph, origin: Node, limit: int, t: Trace, i: nat)
    requires Thrifty(origin, limit, t)
    ensures Thrifty(origin, limit, PopNext(g, limit, t, i))
  {
    if i < |t.walk.queue| {
      var w := Pop(t.walk, i);
      var (node, d) := t.walk.queue[i];
      var expanded := t.expanded + if d < limit then [node] else [];
      PopBelow(origin, t.walk, i);
      forall x ensures Spent(origin, limit, w, expanded, x) {
        PopSpends(origin, limit, t, i, x);
      }
      if d < limit {
        TakeAllSpends(origin, limit, w, expanded, Links(g, node), d);
        TakeAllBelow(w, Links(g, node), d);
      }
    }
  }

  lemma {:induction false} PopsThrifty(g: Graph, origin: Node, limit: int, picks: seq<nat>)
    ensures Thrifty(origin, limit, Pops(g, origin, limit, picks))
  {
    if picks == [] {
      var t := Trace(Begin(origin), []);
      forall x ensures Spent(origin, limit, t.walk, t.expanded, x) {
        PendingMore([], (origin, 0), limit, x);
      }
    } else {
      PopsThrifty(g, origin, limit, picks[..|picks| - 1]);
      PopStaysThrifty(g, origin, limit, Pops(g, origin, limit, picks[..|picks| - 1]), picks[|picks| - 1]);
    }
  }

  // The origin once, and any other dataset at most once for each depth from 2 to limit - 1, or once.
  function MostExpansions(origin: Node, limit: int, x: Node): int {
    if limit <= 0 then 0
    else if x == origin then 1
    else if limit == 1 then 0
    else Max(1, limit - 2)
  }

  /** In any pop order a dataset is expanded at most limit - 2 times, or once; the origin only once. */
  lemma FewExpansions(g: Graph, origin: Node, limit: int, picks: seq<nat>, x: Node)
    ensures Times(Pops(g, origin, limit, picks).expanded, x) <= MostExpansions(origin, limit, x)
  {
    PopsThrifty(g, origin, limit, picks);
    var t := Pops(g, origin, limit, picks);
    assert Spent(origin, limit, t.walk, t.expanded, x);
  }

  // ---- Termination: the depths that can still be recorded ----

  function AllTargets(g: Graph): set<Node> { set n, link | n in g && link in Links(g, n) :: link.target }

  function Depths(limit: int): (ds: set<nat>)
    ensures forall d: nat :: d in ds <==> 1 <= d <= limit
  {
    if limit <= 0 then {} else Depths(limit - 1) + {limit}
  }

  function Left(g: Graph, limit: int, visited: map<Node, nat>): set<Item> {
    set x, d | x in AllTargets(g) && d in Depths(limit) && (x !in visited || d < visited[x]) :: (x, d)
  }

  lemma TakeUsesUp(g: Graph, limit: int, w: Walk, link: Link, d: nat)
    requires link.target in AllTargets(g) && d < limit
    ensures Left(g, limit, Take(w, link, d).visited) <= Left(g, limit, w.visited)
    ensures Take(w, link, d).queue == w.queue || Left(g, limit, Take(w, link, d).visited) < Left(g, limit, w.visited)
  {
    var t := Take(w, link, d);
    if Shallower(w.visited, link.target, d + 1) {
      assert d + 1 in Depths(limit);
      assert (link.target, d + 1) in Left(g, limit, w.visited);
      assert (link.target, d + 1) !in Left(g, limit, t.visited);
    }
  }

  lemma {:induction false} TakeAllUsesUp(g: Graph, limit: int, w: Walk, links: seq<Link>, d: nat)
    requires d < limit && forall link :: link in links ==> link.target in AllTargets(g)
    ensures Left(g, limit, TakeAll(w, links, d).visited) <= Left(g, limit, w.visited)
    ensures || TakeAll(w, links, d).queue == w.queue
            || Left(g, limit, TakeAll(w, links, d).visited) < Left(g, limit, w.visited)
  {
    if links != [] {
      TakeAllUsesUp(g, limit, w, links[..|links| - 1], d);
      TakeUsesUp(g, limit, TakeAll(w, links[..|links| - 1], d), links[|links| - 1], d);
    }
  }

  lemma StepUsesUp(g: Graph, limit: int, w: Walk, i: nat)
    requires i < |w.queue|
    ensures var t := Step(g, limit, w, i);
            || Left(g, limit, t.visited) < Left(g, limit, w.visited)
            || (Left(g, limit, t.visited) == Left(g, limit, w.visited) && |t.queue| < |w.queue|)
  {
    var (node, d) := w.queue[i];
    if d < limit {
      forall link | link in Links(g, node) ensures link.target in AllTargets(g) {
        assert node in g;
      }
      TakeAllUsesUp(g, limit, Pop(w, i), Links(g, node), d);
    }
  }

  // ---- The loops ----

  ghost predicate Kept(g: Graph, origin: Node, limit: int, w: Walk) {
    Sound(g, origin, limit, w) && Complete(g, limit, w) && Rationed(origin, limit, w)
  }

  lemma BeginKept(g: Graph, origin: Node, limit: int)
    ensures Kept(g, origin, limit, Begin(origin))
  {
    var w := Begin(origin);
    assert Hops(g, origin, origin, 0);
    forall x ensures Budget(origin, limit, w, x) {
    }
  }

  lemma StepKeeps(g: Graph, origin: Node, limit: int, w: Walk, i: nat)
    requires Kept(g, origin, limit, w) && i < |w.queue|
    ensures Kept(g, origin, limit, Step(g, limit, w, i))
  {
    StepKeepsSound(g, origin, limit, w, i);
    StepKeepsComplete(g, origin, limit, w, i);
    StepRations(g, origin, limit, w, i);
  }

  // What the traversal returns once the queue is empty.
  ghost predicate Traversed(g: Graph, origin: Node, limit: int, visited: map<Node, nat>, edges: seq<Link>) {
    ShortestWithin(g, origin, limit, visited) && EdgesWithin(g, limit, visited, edges)
  }

  ghost predicate AtMostPerNode(origin: Node, limit: int, appended: seq<Node>) {
    forall x :: Times(appended, x) <= if x == origin then 0 else Max(0, limit)
  }

  lemma EmptyQueueMeans(g: Graph, origin: Node, limit: int, w: Walk)
    requires Kept(g, origin, limit, w) && w.queue == []
    ensures Traversed(g, origin, limit, w.visited, w.edges) && AtMostPerNode(origin, limit, w.appended)
  {
    EmptyQueueIsShortest(g, origin, limit, w);
    EmptyQueueHasAllEdges(g, limit, w);
    forall x ensures Times(w.appended, x) <= if x == origin then 0 else Max(0, limit) {
      assert Budget(origin, limit, w, x);
    }
  }

  lemma OneJobMore(node: Node, jobs: seq<Job>, j: nat)
    requires j < |jobs|
    ensures JobLinks(node, jobs[..j + 1]) == JobLinks(node, jobs[..j]) + OutLinks(node, jobs[j], jobs[j].outputs)
  {
    assert jobs[..j + 1][..j] == jobs[..j];
  }

  lemma OneLinkMore(w: Walk, before: seq<Link>, node: Node, job: Job, k: nat, d: nat)
    requires k < |job.outputs|
    ensures TakeAll(w, before + OutLinks(node, job, job.outputs[..k + 1]), d) ==
            Take(TakeAll(w, before + OutLinks(node, job, job.outputs[..k]), d), Link(node, job, job.outputs[k]), d)
  {
    var links := before + OutLinks(node, job, job.outputs[..k + 1]);
    assert links[..|links| - 1] == before + OutLinks(node, job, job.outputs[..k]);
  }

  // The two inner loops: every output of every job of one node.
  method ExpandNode(g: Graph, node: Node, d: nat, visited0: map<Node, nat>, queue0: seq<Item>,
                    edges0: seq<Link>, ghost appended0: seq<Node>)
    returns (visited: map<Node, nat>, queue: seq<Item>, edges: seq<Link>, ghost appended: seq<Node>)
    ensures Walk(visited, queue, edges, appended) ==
            TakeAll(Walk(visited0, queue0, edges0, appended0), Links(g, node), d)
  {
    visited, queue, edges, appended := visited0, queue0, edges0, appended0;
    ghost var w := Walk(visited, queue, edges, appended);
    var jobs := Jobs(g, node);
    for j := 0 to |jobs|
      invariant Walk(visited, queue, edges, appended) == TakeAll(w, JobLinks(node, jobs[..j]), d)
    {
      var job := jobs[j];
      ghost var before := JobLinks(node, jobs[..j]);
      assert before + OutLinks(node, job, job.outputs[..0]) == before;
      for k := 0 to |job.outputs|
        invariant Walk(visited, queue, edges, appended) == TakeAll(w, before + OutLinks(node, job, job.outputs[..k]), d)
      {
        var out := job.outputs[k];
        OneLinkMore(w, before, node, job, k, d);
        edges := edges + [Link(node, job, out)];
        if out !in visited || visited[out] > d + 1 {
          visited := visited[out := d + 1];
          queue := queue + [(out, d + 1)];
          appended := appended + [out];
        }
      }
      assert job.outputs[..|job.outputs|] == job.outputs;
      OneJobMore(node, jobs, j);
    }
    assert jobs[..|jobs|] == jobs;
  }

  // One round of the outer loop, on the i-th item of the queue.
  method PopItem(g: Graph, limit: int, i: nat, visited0: map<Node, nat>, queue0: seq<Item>,
                 edges0: seq<Link>, ghost appended0: seq<Node>)
    returns (visited: map<Node, nat>, queue: seq<Item>, edges: seq<Link>, ghost appended: seq<Node>)
    requires i < |queue0|
    ensures Walk(visited, queue, edges, appended) == Step(g, limit, Walk(visited0, queue0, edges0, appended0), i)
  {
    var (node, d) := queue0[i];
    visited, queue, edges, appended := visited0, queue0[..i] + queue0[i + 1..], edges0, appended0;
    if d < limit {
      visited, queue, edges, appended := ExpandNode(g, node, d, visited, queue, edges, appended);
    }
  }

  /**
   Whatever item is popped next, the traversal ends with exactly the shortest distances and every
   edge within the limit.
   */
  method TraverseAnyOrder(g: Graph, origin: Node, limit: int, pick: nat -> nat)
    returns (visited: map<Node, nat>, edges: seq<Link>, ghost appended: seq<Node>, ghost picks: seq<nat>)
    ensures ShortestWithin(g, origin, limit, visited)
    ensures EdgesWithin(g, limit, visited, edges)
    ensures AtMostPerNode(origin, limit, appended)
    ensures Pops(g, origin, limit, picks).walk == Walk(visited, [], edges, appended)
    ensures forall x :: Times(Pops(g, origin, limit, picks).expanded, x) <= MostExpansions(origin, limit, x)
  {
    picks := [];
    var queue, turn := [(origin, 0)], 0;
    visited, edges, appended := map[origin := 0], [], [];
    BeginKept(g, origin, limit);
    while queue != []
      invariant Kept(g, origin, limit, Walk(visited, queue, edges, appended))
      invariant Pops(g, origin, limit, picks).walk == Walk(visited, queue, edges, appended)
      decreases Left(g, limit, visited), |queue|
    {
      ghost var w := Walk(visited, queue, edges, appended);
      var i := pick(turn) % |queue|;
      turn := turn + 1;
      PopsMore(g, origin, limit, picks, i);
      picks := Ends(picks, i);
      StepKeeps(g, origin, limit, w, i);
      StepUsesUp(g, limit, w, i);
      visited, queue, edges, appended := PopItem(g, limit, i, visited, queue, edges, appended);
    }
    EmptyQueueMeans(g, origin, limit, Walk(visited, queue, edges, appended));
    forall x ensures Times(Pops(g, origin, limit, picks).expanded, x) <= MostExpansions(origin, limit, x) {
      FewExpansions(g, origin, limit, picks, x);
    }
  }
}
