/**
 The two windowed aggregations of the streaming job, as an incremental fold over events,
 and what that fold means: a GROUP BY over the positions of the events.
 */
module Aggregates {
  import opened Clicks
  import opened Wrappers

  datatype Query = PageViews | CampaignStats

  datatype Key =
    | PageKey(start: int, page: string, device: string)
    | CampaignKey(start: int, campaignId: string)

  // Aggregation state of one group; users is the exact set behind approx_count_distinct.
  datatype Buffer =
    | PageBuffer(views: nat, users: set<string>)
    | CampaignBuffer(events: nat, views: nat, clicks: nat, conversions: nat, users: set<string>)

  // What a batch hands to a sink for one group.
  datatype Row =
    | PageRow(views: nat, users: nat)
    | CampaignRow(events: nat, views: nat, clicks: nat, conversions: nat, users: nat)

  function KeyOf(q: Query, e: Event): Key {
    match q
    case PageViews => PageKey(WindowStart(e.ts), e.page, e.device)
    case CampaignStats => CampaignKey(WindowStart(e.ts), e.campaignId)
  }

  predicate InMinute(ts: int, start: int) { start % 60 == 0 && start <= ts < start + 60 }

  // What GROUP BY asks of an event, column by column: its minute, and its page and device or its campaign.
  predicate Belongs(q: Query, e: Event, k: Key) {
    match (q, k)
    case (PageViews, PageKey(start, page, device)) => InMinute(e.ts, start) && e.page == page && e.device == device
    case (CampaignStats, CampaignKey(start, campaignId)) => InMinute(e.ts, start) && e.campaignId == campaignId
    case _ => false
  }

  /** The key an event is given is the one group it belongs to. */
  lemma KeyIsGroup(q: Query, e: Event, k: Key)
    ensures KeyOf(q, e) == k <==> Belongs(q, e, k)
  {
    WindowHoldsItsEvent(e.ts);
  }

  function KeyEnd(k: Key): int { k.start + WINDOW_SECONDS }

  function Zero(q: Query): Buffer {
    match q
    case PageViews => PageBuffer(0, {})
    case CampaignStats => CampaignBuffer(0, 0, 0, 0, {})
  }

  function One(e: Event, eventType: string): nat { if e.eventType == eventType then 1 else 0 }

  function Update(b: Buffer, e: Event): Buffer {
    match b
    case PageBuffer(views, users) => PageBuffer(views + One(e, "page_view"), users + {e.userId})
    case CampaignBuffer(events, views, clicks, conversions, users) =>
      CampaignBuffer(events + 1, views + One(e, "page_view"), clicks + One(e, "click"),
                     conversions + One(e, "purchase"), users + {e.userId})
  }

  function Emit(b: Buffer): Row {
    match b
    case PageBuffer(views, users) => PageRow(views, |users|)
    case CampaignBuffer(events, views, clicks, conversions, users) =>
      CampaignRow(events, views, clicks, conversions, |users|)
  }

  type Groups = map<Key, Buffer>

  function Add(q: Query, m: Groups, e: Event): Groups {
    var k := KeyOf(q, e);
    m[k := Update(if k in m then m[k] else Zero(q), e)]
  }

  // The state after a batch of events is taken in, one event at a time.
  function Absorb(q: Query, m: Groups, s: seq<Event>): Groups {
    if s == [] then m else Add(q, Absorb(q, m, s[..|s| - 1]), s[|s| - 1])
  }

  function GroupBy(q: Query, s: seq<Event>): Groups { Absorb(q, map[], s) }

  function EmitAll(m: Groups): map<Key, Row> { map k | k in m :: Emit(m[k]) }

  function Touched(q: Query, s: seq<Event>): set<Key> { set e | e in s :: KeyOf(q, e) }

  // Groups whose window ends after a watermark; the others are evicted.
  function Keep(m: Groups, evict: int): Groups { map k | k in m && KeyEnd(k) > evict :: m[k] }

  // ---- Batches compose, and the order of a batch does not matter ----

  lemma {:induction false} AbsorbConcat(q: Query, m: Groups, a: seq<Event>, b: seq<Event>)
    ensures Absorb(q, m, a + b) == Absorb(q, Absorb(q, m, a), b)
  {
    if b == [] {
      assert a + b == a;
    } else {
      AbsorbConcat(q, m, a, b[..|b| - 1]);
      assert (a + b)[..|a + b| - 1] == a + b[..|b| - 1];
    }
  }

  lemma UpdateCommutes(b: Buffer, x: Event, y: Event)
    ensures Update(Update(b, x), y) == Update(Update(b, y), x)
  {
    assert b.users + {x.userId} + {y.userId} == b.users + {y.userId} + {x.userId};
  }

  lemma AddCommutes(q: Query, m: Groups, x: Event, y: Event)
    ensures Add(q, Add(q, m, x), y) == Add(q, Add(q, m, y), x)
  {
    var kx, ky := KeyOf(q, x), KeyOf(q, y);
    if kx == ky {
      UpdateCommutes(if kx in m then m[kx] else Zero(q), x, y);
    }
    assert Add(q, Add(q, m, x), y).Keys == m.Keys + {kx, ky} == Add(q, Add(q, m, y), x).Keys;
  }

  lemma {:induction false} AddAbsorb(q: Query, m: Groups, x: Event, s: seq<Event>)
    ensures Absorb(q, Add(q, m, x), s) == Add(q, Absorb(q, m, s), x)
  {
    if s != [] {
      AddAbsorb(q, m, x, s[..|s| - 1]);
      AddCommutes(q, Absorb(q, m, s[..|s| - 1]), x, s[|s| - 1]);
    }
  }

  lemma AbsorbLater(q: Query, m: Groups, s: seq<Event>, i: nat)
    requires i < |s|
    ensures Absorb(q, m, s) == Add(q, Absorb(q, m, s[..i] + s[i + 1..]), s[i])
  {
    var a, b := s[..i], s[i + 1..];
    assert s == (a + [s[i]]) + b;
    AbsorbConcat(q, m, a + [s[i]], b);
    assert (a + [s[i]])[..|a + [s[i]]| - 1] == a;
    AddAbsorb(q, Absorb(q, m, a), s[i], b);
    AbsorbConcat(q, m, a, b);
  }

  // The last element of s, found in a permutation of s.
  lemma FindLast(s: seq<Event>, t: seq<Event>) returns (i: nat)
    requires s != [] && multiset(s) == multiset(t)
    ensures i < |t| && t[i] == s[|s| - 1]
    ensures multiset(s[..|s| - 1]) == multiset(t[..i] + t[i + 1..])
  {
    var front, x := s[..|s| - 1], s[|s| - 1];
    assert s == front + [x];
    assert x in multiset(s);
    i :| 0 <= i < |t| && t[i] == x;
    MoveToEnd(t, i);
    assert multiset(front) == multiset(s) - multiset{x};
    assert multiset(t[..i] + t[i + 1..]) == multiset(t) - multiset{x};
  }

  /** The order in which a shuffle delivers the rows of a batch is irrelevant. */
  lemma {:induction false} AbsorbPermutation(q: Query, m: Groups, s: seq<Event>, t: seq<Event>)
    requires multiset(s) == multiset(t)
    ensures Absorb(q, m, s) == Absorb(q, m, t)
  {
    if s == [] {
      assert |multiset(t)| == 0;
    } else {
      var i := FindLast(s, t);
      AbsorbPermutation(q, m, s[..|s| - 1], t[..i] + t[i + 1..]);
      AbsorbLater(q, m, t, i);
    }
  }

  lemma {:induction false} AbsorbKeys(q: Query, m: Groups, s: seq<Event>)
    ensures Absorb(q, m, s).Keys == m.Keys + Touched(q, s)
    ensures forall k :: k in m && k !in Touched(q, s) ==> Absorb(q, m, s)[k] == m[k]
  {
    if s != [] {
      AbsorbKeys(q, m, s[..|s| - 1]);
      assert s == s[..|s| - 1] + [s[|s| - 1]];
      assert Touched(q, s) == Touched(q, s[..|s| - 1]) + {KeyOf(q, s[|s| - 1])};
    }
  }

  lemma KeepAdd(q: Query, m: Groups, e: Event, evict: int)
    requires WindowEnd(e.ts) > evict
    ensures Keep(Add(q, m, e), evict) == Add(q, Keep(m, evict), e)
  {
    assert KeyEnd(KeyOf(q, e)) > evict;
  }

  // Evicting first and absorbing live events afterwards loses nothing.
  lemma {:induction false} KeepAbsorb(q: Query, m: Groups, s: seq<Event>, evict: int)
    requires forall e :: e in s ==> WindowEnd(e.ts) > evict
    ensures Keep(Absorb(q, m, s), evict) == Absorb(q, Keep(m, evict), s)
  {
    if s != [] {
      KeepAbsorb(q, m, s[..|s| - 1], evict);
      KeepAdd(q, Absorb(q, m, s[..|s| - 1]), s[|s| - 1], evict);
    }
  }

  // ---- What a group holds, by positions ----

  function HasKey(q: Query, k: Key): Event -> bool { (e: Event) => Belongs(q, e, k) }

  function HasKeyAndType(q: Query, k: Key, eventType: string): Event -> bool {
    (e: Event) => Belongs(q, e, k) && e.eventType == eventType
  }

  ghost function Positions(q: Query, s: seq<Event>, k: Key): set<nat> { Where(HasKey(q, k), s) }

  ghost function PositionsOf(q: Query, s: seq<Event>, k: Key, eventType: string): set<nat> {
    Where(HasKeyAndType(q, k, eventType), s)
  }

  // The buffer a group's events amount to: COUNT(*), COUNT by type and the distinct users.
  ghost function Meaning(q: Query, s: seq<Event>, k: Key): Buffer {
    match q
    case PageViews => PageBuffer(|PositionsOf(q, s, k, "page_view")|, UsersAt(q, s, k))
    case CampaignStats =>
      CampaignBuffer(|Positions(q, s, k)|, |PositionsOf(q, s, k, "page_view")|, |PositionsOf(q, s, k, "click")|,
                     |PositionsOf(q, s, k, "purchase")|, UsersAt(q, s, k))
  }

  ghost predicate Holds(b: Buffer, q: Query, s: seq<Event>, k: Key) { b == Meaning(q, s, k) }

  lemma PositionsGrow(q: Query, s: seq<Event>, e: Event, k: Key)
    ensures Positions(q, s + [e], k) == Positions(q, s, k) + (if KeyOf(q, e) == k then {|s|} else {})
    ensures |Positions(q, s + [e], k)| == |Positions(q, s, k)| + (if KeyOf(q, e) == k then 1 else 0)
  {
    KeyIsGroup(q, e, k);
    WhereGrows(HasKey(q, k), s, e);
  }

  lemma PositionsOfGrow(q: Query, s: seq<Event>, e: Event, k: Key, eventType: string)
    ensures |PositionsOf(q, s + [e], k, eventType)| ==
            |PositionsOf(q, s, k, eventType)| + (if KeyOf(q, e) == k then One(e, eventType) else 0)
  {
    KeyIsGroup(q, e, k);
    WhereGrows(HasKeyAndType(q, k, eventType), s, e);
  }

  ghost function UsersAt(q: Query, s: seq<Event>, k: Key): set<string> {
    set i | i in Positions(q, s, k) :: s[i].userId
  }

  lemma PositionHasKey(q: Query, s: seq<Event>, k: Key, i: nat)
    ensures i in Positions(q, s, k) <==> i < |s| && KeyOf(q, s[i]) == k
  {
    if i < |s| {
      KeyIsGroup(q, s[i], k);
    }
  }

  // An event behind a user of a group.
  lemma UserSource(q: Query, s: seq<Event>, k: Key, u: string) returns (i: nat)
    requires u in UsersAt(q, s, k)
    ensures i < |s| && KeyOf(q, s[i]) == k && s[i].userId == u
  {
    i :| i in Positions(q, s, k) && s[i].userId == u;
    PositionHasKey(q, s, k, i);
  }

  lemma UserMember(q: Query, s: seq<Event>, i: nat)
    requires i < |s|
    ensures i in Positions(q, s, KeyOf(q, s[i])) && s[i].userId in UsersAt(q, s, KeyOf(q, s[i]))
  {
    PositionHasKey(q, s, KeyOf(q, s[i]), i);
  }

  lemma UsersGrow(q: Query, s: seq<Event>, e: Event, k: Key)
    ensures UsersAt(q, s + [e], k) == UsersAt(q, s, k) + (if KeyOf(q, e) == k then {e.userId} else {})
  {
    var t := s + [e];
    KeyIsGroup(q, e, k);
    var grown := UsersAt(q, s, k) + (if KeyOf(q, e) == k then {e.userId} else {});
    assert t[|s|] == e;
    assert forall i :: 0 <= i < |s| ==> t[i] == s[i];
    forall u | u in UsersAt(q, t, k) ensures u in grown {
      var i :| i in Positions(q, t, k) && t[i].userId == u;
      assert i < |s| ==> i in Positions(q, s, k);
    }
    forall u | u in grown ensures u in UsersAt(q, t, k) {
      if u in UsersAt(q, s, k) {
        var i :| i in Positions(q, s, k) && s[i].userId == u;
        assert i in Positions(q, t, k) && t[i].userId == u;
      } else {
        assert |s| in Positions(q, t, k);
      }
    }
  }

  lemma PageBufferGrows(b: Buffer, e: Event, hit: bool, views: nat, users: set<string>)
    requires b.PageBuffer? && views == b.views + (if hit then One(e, "page_view") else 0)
    requires users == b.users + (if hit then {e.userId} else {})
    ensures PageBuffer(views, users) == if hit then Update(b, e) else b
  {
  }

  lemma CampaignBufferGrows(b: Buffer, e: Event, hit: bool, grown: Buffer)
    requires b.CampaignBuffer? && grown.CampaignBuffer?
    requires grown.events == b.events + (if hit then 1 else 0)
    requires grown.views == b.views + (if hit then One(e, "page_view") else 0)
    requires grown.clicks == b.clicks + (if hit then One(e, "click") else 0)
    requires grown.conversions == b.conversions + (if hit then One(e, "purchase") else 0)
    requires grown.users == b.users + (if hit then {e.userId} else {})
    ensures grown == if hit then Update(b, e) else b
  {
  }

  lemma MeaningGrows(q: Query, s: seq<Event>, e: Event, k: Key)
    ensures Meaning(q, s + [e], k) == if KeyOf(q, e) == k then Update(Meaning(q, s, k), e) else Meaning(q, s, k)
  {
    UsersGrow(q, s, e, k);
    PositionsOfGrow(q, s, e, k, "page_view");
    match q
    case PageViews =>
      PageBufferGrows(Meaning(q, s, k), e, KeyOf(q, e) == k,
                      |PositionsOf(q, s + [e], k, "page_view")|, UsersAt(q, s + [e], k));
    case CampaignStats =>
      PositionsGrow(q, s, e, k);
      PositionsOfGrow(q, s, e, k, "click");
      PositionsOfGrow(q, s, e, k, "purchase");
      CampaignBufferGrows(Meaning(q, s, k), e, KeyOf(q, e) == k, Meaning(q, s + [e], k));
  }

  lemma ZeroMeansNothing(q: Query, s: seq<Event>, k: Key)
    requires Positions(q, s, k) == {}
    ensures Meaning(q, s, k) == Zero(q)
  {
    assert UsersAt(q, s, k) == {};
    NoneOfType(q, s, k, "page_view");
    NoneOfType(q, s, k, "click");
    NoneOfType(q, s, k, "purchase");
  }

  lemma NoneOfType(q: Query, s: seq<Event>, k: Key, eventType: string)
    requires Positions(q, s, k) == {}
    ensures |PositionsOf(q, s, k, eventType)| == 0
  {
    forall i | i in PositionsOf(q, s, k, eventType) ensures i in Positions(q, s, k) {
    }
    assert PositionsOf(q, s, k, eventType) == {};
  }

  /** GROUP BY, said without the fold: which groups exist and what each column counts. */
  lemma {:induction false} GroupByMeaning(q: Query, s: seq<Event>, k: Key)
    ensures k in GroupBy(q, s) <==> Positions(q, s, k) != {}
    ensures k in GroupBy(q, s) ==> Holds(GroupBy(q, s)[k], q, s, k)
  {
    if s == [] {
      assert Positions(q, s, k) == {};
    } else {
      var t, e := s[..|s| - 1], s[|s| - 1];
      assert s == t + [e];
      GroupByMeaning(q, t, k);
      PositionsGrow(q, t, e, k);
      MeaningGrows(q, t, e, k);
      if k !in GroupBy(q, t) {
        ZeroMeansNothing(q, t, k);
      }
    }
  }
}
