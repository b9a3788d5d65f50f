/**
 olap.clicks: the parts that the deliveries of the raw-clicks query leave on the server, merged in
 the background at any time, and what FINAL reads of them.
 */
module ClicksTable {
  import opened AppendQueries
  import opened Clicks
  import opened Log
  import opened MergeTree
  import opened Parsing
  import opened Wrappers

  function ClickRows(s: seq<Event>): Part<string, Event> {
    seq(|s|, i requires 0 <= i < |s| => (s[i].eventId, s[i]))
  }

  // The rows of every attempt upserted in order.
  function ClicksView(delivered: seq<Raw>): map<string, Event> {
    Upserts(map[], ClickRows(EventsOf(delivered)))
  }

  ghost predicate DistinctIds(s: seq<Event>) {
    forall i, j :: 0 <= i < j < |s| ==> s[i].eventId != s[j].eventId
  }

  // The view holds every event of s under its id.
  ghost predicate HoldsAll(view: map<string, Event>, s: seq<Event>) {
    forall e :: e in s ==> e.eventId in view && view[e.eventId] == e
  }

  // The view holds nothing but events of s, each under its id.
  ghost predicate HoldsOnly(view: map<string, Event>, s: seq<Event>) {
    forall id :: id in view ==> view[id] in s && view[id].eventId == id
  }

  ghost predicate ById(view: map<string, Event>, s: seq<Event>) { HoldsAll(view, s) && HoldsOnly(view, s) }

  lemma SameIdSameEvent(all: seq<Event>, a: Event, b: Event)
    requires DistinctIds(all) && a in all && b in all && a.eventId == b.eventId
    ensures a == b
  {
    var i :| 0 <= i < |all| && all[i] == a;
    var j :| 0 <= j < |all| && all[j] == b;
    assert i == j;
  }

  lemma HoldsAllMore(view: map<string, Event>, s: seq<Event>, e: Event, all: seq<Event>)
    requires HoldsAll(view, s) && DistinctIds(all) && e in all && forall x :: x in s ==> x in all
    ensures HoldsAll(view[e.eventId := e], s + [e])
  {
    var more := view[e.eventId := e];
    forall x | x in s + [e] ensures x.eventId in more && more[x.eventId] == x {
      if x.eventId == e.eventId {
        SameIdSameEvent(all, x, e);
      }
    }
  }

  lemma HoldsOnlyMore(view: map<string, Event>, s: seq<Event>, e: Event)
    requires HoldsOnly(view, s)
    ensures HoldsOnly(view[e.eventId := e], s + [e])
  {
  }

  lemma ClickRowsMore(s: seq<Event>, e: Event)
    ensures Upserts(map[], ClickRows(s + [e])) == Upserts(map[], ClickRows(s))[e.eventId := e]
  {
    assert ClickRows(s + [e])[..|s|] == ClickRows(s);
  }

  lemma {:induction false} UpsertsById(s: seq<Event>, all: seq<Event>)
    requires DistinctIds(all) && forall e :: e in s ==> e in all
    ensures ById(Upserts(map[], ClickRows(s)), s)
  {
    if s != [] {
      var front, e := s[..|s| - 1], s[|s| - 1];
      assert s == front + [e];
      UpsertsById(front, all);
      var view := Upserts(map[], ClickRows(front));
      HoldsAllMore(view, front, e, all);
      HoldsOnlyMore(view, front, e);
      ClickRowsMore(front, e);
    }
  }

  lemma SameEvents(a: seq<Raw>, b: seq<Raw>)
    requires forall raw :: raw in a ==> raw in b
    ensures forall e :: e in EventsOf(a) ==> e in EventsOf(b)
  {
    forall e | e in EventsOf(a) ensures e in EventsOf(b) {
      var i := EventsOfSource(a, e);
      assert a[i] in b;
      var j :| 0 <= j < |b| && b[j] == a[i];
      EventsOfMember(b, j);
    }
  }

  // ---- The server ----

  datatype Server = Server(feed: Feed, parts: seq<Part<string, Event>>)

  datatype ServerStep = FeedMove(move: Move) | MergeParts(at: nat, part: Part<string, Event>)

  // What a move delivers on top of what was delivered before.
  ghost function News(f: Feed, m: Move): seq<Raw> {
    match m
    case Deliver(raws) => if Flying(f) && !f.written && multiset(raws) == multiset(Current(f)) then raws else []
    case DieDelivering(raws) => if Flying(f) && multiset(raws) <= multiset(Current(f)) then raws else []
    case _ => []
  }

  // Every delivery, whole or cut short, is inserted as one part.
  ghost function ServerDo(c: Server, x: ServerStep): Server {
    match x
    case FeedMove(m) => Server(Advance(c.feed, m), Appended(c.parts, ClickRows(EventsOf(News(c.feed, m)))))
    case MergeParts(at, part) =>
      if at + 1 < |c.parts| && IsMergeOf(part, c.parts[at] + c.parts[at + 1]) then
        c.(parts := MergeAt(c.parts, at, part))
      else c
  }

  ghost function ServerRun(topic: Topic, xs: seq<ServerStep>): Server {
    if xs == [] then Server(Follow(topic, []), []) else ServerDo(ServerRun(topic, xs[..|xs| - 1]), xs[|xs| - 1])
  }

  function Moves(xs: seq<ServerStep>): seq<Move> {
    if xs == [] then []
    else Moves(xs[..|xs| - 1]) +
         match xs[|xs| - 1] case FeedMove(m) => [m] case MergeParts(_, _) => []
  }

  lemma FollowMore(topic: Topic, moves: seq<Move>, m: Move)
    ensures Follow(topic, moves + [m]) == Advance(Follow(topic, moves), m)
  {
    assert (moves + [m])[..|moves + [m]| - 1] == moves;
  }

  /** The server's feed is a run of the query, merges left out. */
  lemma {:induction false} ServerFollows(topic: Topic, xs: seq<ServerStep>)
    ensures ServerRun(topic, xs).feed == Follow(topic, Moves(xs))
  {
    if xs != [] {
      ServerFollows(topic, xs[..|xs| - 1]);
      match xs[|xs| - 1]
      case FeedMove(m) => FollowMore(topic, Moves(xs[..|xs| - 1]), m);
      case MergeParts(at, part) => assert Moves(xs) == Moves(xs[..|xs| - 1]);
    }
  }

  lemma DeliveredGrows(f: Feed, m: Move)
    ensures Advance(f, m).delivered == f.delivered + News(f, m)
  {
    assert f.delivered + [] == f.delivered;
  }

  lemma ClickRowsConcat(s: seq<Event>, t: seq<Event>)
    ensures ClickRows(s + t) == ClickRows(s) + ClickRows(t)
  {
  }

  // Inserting the new rows as a part upserts them.
  lemma InsertDelivery(parts: seq<Part<string, Event>>, delivered: seq<Raw>, news: seq<Raw>)
    requires IsFinal(ClicksView(delivered), parts)
    ensures IsFinal(ClicksView(delivered + news), Appended(parts, ClickRows(EventsOf(news))))
  {
    var before, more := EventsOf(delivered), EventsOf(news);
    FinalIsUpserts(ClicksView(delivered), parts);
    EventsOfConcat(delivered, news);
    ClickRowsConcat(before, more);
    UpsertsConcat(map[], ClickRows(before), ClickRows(more));
    AppendedUpserts(parts, ClickRows(more));
    FinalIsUpserts(ClicksView(delivered + news), Appended(parts, ClickRows(more)));
  }

  lemma MergeKeepsView(view: map<string, Event>, parts: seq<Part<string, Event>>, at: nat, part: Part<string, Event>)
    requires IsFinal(view, parts)
    requires at + 1 < |parts| && IsMergeOf(part, parts[at] + parts[at + 1])
    ensures IsFinal(view, MergeAt(parts, at, part))
  {
    FinalIsUpserts(view, parts);
    MergeKeepsFinal(parts, at, part);
    FinalIsUpserts(view, MergeAt(parts, at, part));
  }

  lemma ServerStepKeepsFinal(c: Server, x: ServerStep)
    requires IsFinal(ClicksView(c.feed.delivered), c.parts)
    ensures IsFinal(ClicksView(ServerDo(c, x).feed.delivered), ServerDo(c, x).parts)
  {
    match x
    case FeedMove(m) =>
      DeliveredGrows(c.feed, m);
      InsertDelivery(c.parts, c.feed.delivered, News(c.feed, m));
    case MergeParts(at, part) =>
      if at + 1 < |c.parts| && IsMergeOf(part, c.parts[at] + c.parts[at + 1]) {
        MergeKeepsView(ClicksView(c.feed.delivered), c.parts, at, part);
      }
  }

  /** At every moment of every run FINAL over the parts is the upsert of all rows delivered so far, in order. */
  lemma {:induction false} FinalIsDelivered(topic: Topic, xs: seq<ServerStep>)
    ensures IsFinal(ClicksView(ServerRun(topic, xs).feed.delivered), ServerRun(topic, xs).parts)
  {
    if xs == [] {
      assert EventsOf([]) == [] && ClickRows([]) == [];
      FinalIsUpserts<string, Event>(map[], []);
    } else {
      FinalIsDelivered(topic, xs[..|xs| - 1]);
      ServerStepKeepsFinal(ServerRun(topic, xs[..|xs| - 1]), xs[|xs| - 1]);
    }
  }

  lemma FinalIsUnique(v: map<string, Event>, w: map<string, Event>, parts: seq<Part<string, Event>>)
    requires IsFinal(v, parts) && IsFinal(w, parts)
    ensures v == w
  {
    FinalIsUpserts(v, parts);
    FinalIsUpserts(w, parts);
  }

  // ---- What FINAL reads ----

  // The parsed events up to the last of some planned offsets.
  ghost function EventsUpTo(topic: Topic, ends: seq<Offsets>): seq<Event> {
    if Range(topic, Zeros(|topic|), LastEnd(topic, ends)) then EventsOf(Through(topic, ends)) else []
  }

  lemma CommittedIsDelivered(f: Feed)
    requires Covered(f)
    ensures forall raw :: raw in Through(f.topic, f.ends[..f.commits]) ==> raw in f.delivered
  {
    if f.written {
      CurrentIsRest(f);
    }
    SomeOf(Through(f.topic, f.ends[..f.commits]), f.delivered);
  }

  lemma HoldsMore(view: map<string, Event>, s: seq<Event>, committed: seq<Event>, planned: seq<Event>)
    requires ById(view, s)
    requires forall e :: e in committed ==> e in s
    requires forall e :: e in s ==> e in planned
    ensures HoldsAll(view, committed) && HoldsOnly(view, planned)
  {
  }

  /**
   With distinct ids, at every moment FINAL over olap.clicks holds every committed event under its id
   and nothing but planned ones, however often rows were re-inserted and whatever was merged.
   */
  lemma ClicksBetweenCommits(topic: Topic, xs: seq<ServerStep>, view: map<string, Event>)
    requires var c := ServerRun(topic, xs); DistinctIds(EventsUpTo(c.feed.topic, c.feed.ends)) && IsFinal(view, c.parts)
    ensures var f := ServerRun(topic, xs).feed;
            && Covered(f)
            && HoldsAll(view, EventsUpTo(f.topic, f.ends[..f.commits])) && HoldsOnly(view, EventsUpTo(f.topic, f.ends))
  {
    var c := ServerRun(topic, xs);
    var f := c.feed;
    ServerFollows(topic, xs);
    FollowCovers(topic, Moves(xs));
    FinalIsDelivered(topic, xs);
    FinalIsUnique(view, ClicksView(f.delivered), c.parts);
    CommittedIsDelivered(f);
    SameEvents(Through(f.topic, f.ends[..f.commits]), f.delivered);
    SameEvents(f.delivered, Through(f.topic, f.ends));
    UpsertsById(EventsOf(f.delivered), EventsUpTo(f.topic, f.ends));
    HoldsMore(view, EventsOf(f.delivered), EventsUpTo(f.topic, f.ends[..f.commits]), EventsUpTo(f.topic, f.ends));
  }

  /** Between batches FINAL over olap.clicks is exactly the consumed events by id. */
  lemma ClicksAreConsumedEvents(topic: Topic, xs: seq<ServerStep>, view: map<string, Event>)
    requires var c := ServerRun(topic, xs);
             Resting(c.feed) && DistinctIds(EventsUpTo(c.feed.topic, c.feed.ends)) && IsFinal(view, c.parts)
    ensures var f := ServerRun(topic, xs).feed; Covered(f) && ById(view, EventsUpTo(f.topic, f.ends))
  {
    var f := ServerRun(topic, xs).feed;
    ClicksBetweenCommits(topic, xs, view);
    assert f.ends[..f.commits] == f.ends;
  }
}
