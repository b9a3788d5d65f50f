/** Sums over the windowed tables: conserved between the two aggregations and with the events. */
module Conservation {
  import opened Aggregates
  import opened Clicks
  import opened Sums
  import opened Wrappers

  // The view counts of the groups that a tag puts together.
  ghost function ViewsOf<L(!new)>(m: Groups, tag: Key -> L, l: L): map<Key, nat> {
    map k | k in m && tag(k) == l :: m[k].views
  }

  ghost function UsersOf<L(!new)>(m: Groups, tag: Key -> L, l: L): map<Key, set<string>> {
    map k | k in m && tag(k) == l :: m[k].users
  }

  ghost function IsView<L(!new)>(q: Query, tag: Key -> L, l: L): Event -> bool {
    (e: Event) => tag(KeyOf(q, e)) == l && e.eventType == "page_view"
  }

  // The page_view events under a tag, by position, and the users seen there.
  ghost function ViewPositions<L(!new)>(q: Query, s: seq<Event>, tag: Key -> L, l: L): set<nat> {
    Where(IsView(q, tag, l), s)
  }

  ghost function TrueUsers<L(!new)>(q: Query, s: seq<Event>, tag: Key -> L, l: L): set<string> {
    set i: nat | i < |s| && tag(KeyOf(q, s[i])) == l :: s[i].userId
  }

  lemma ViewPositionsGrow<L(!new)>(q: Query, s: seq<Event>, e: Event, tag: Key -> L, l: L)
    ensures |ViewPositions(q, s + [e], tag, l)| ==
            |ViewPositions(q, s, tag, l)| + if tag(KeyOf(q, e)) == l then One(e, "page_view") else 0
  {
    WhereGrows(IsView(q, tag, l), s, e);
  }

  lemma ViewsOfAdd<L(!new)>(q: Query, m: Groups, e: Event, tag: Key -> L, l: L)
    ensures Total(ViewsOf(Add(q, m, e), tag, l)) ==
            Total(ViewsOf(m, tag, l)) + if tag(KeyOf(q, e)) == l then One(e, "page_view") else 0
  {
    var k := KeyOf(q, e);
    var after := Add(q, m, e);
    if tag(k) == l {
      assert ViewsOf(after, tag, l) == ViewsOf(m, tag, l)[k := after[k].views];
      TotalUpdate(ViewsOf(m, tag, l), k, after[k].views);
    } else {
      assert ViewsOf(after, tag, l) == ViewsOf(m, tag, l);
    }
  }

  /** SUM(views) over any grouping of the windows counts each page_view event exactly once. */
  lemma {:induction false} ViewsAreEvents<L(!new)>(q: Query, s: seq<Event>, tag: Key -> L, l: L)
    ensures Total(ViewsOf(GroupBy(q, s), tag, l)) == |ViewPositions(q, s, tag, l)|
  {
    if s == [] {
      assert ViewsOf(map[], tag, l) == map[];
      assert ViewPositions(q, s, tag, l) == {};
    } else {
      var t, e := s[..|s| - 1], s[|s| - 1];
      assert s == t + [e];
      ViewsAreEvents(q, t, tag, l);
      ViewPositionsGrow(q, t, e, tag, l);
      ViewsOfAdd(q, GroupBy(q, t), e, tag, l);
    }
  }

  // ---- Between the two aggregations ----

  ghost function WindowOf(): Key -> int { (k: Key) => k.start }

  lemma SameWindowSameEvents(s: seq<Event>, start: int)
    ensures ViewPositions(PageViews, s, WindowOf(), start) == ViewPositions(CampaignStats, s, WindowOf(), start)
  {
    var p, c := IsView(PageViews, WindowOf(), start), IsView(CampaignStats, WindowOf(), start);
    forall i: nat | i < |s| ensures p(s[i]) == c(s[i]) {
      assert WindowOf()(KeyOf(PageViews, s[i])) == WindowOf()(KeyOf(CampaignStats, s[i]));
    }
  }

  /** Each window's views, summed over (page, device), equal its views summed over campaigns. */
  lemma AggregatesAgree(s: seq<Event>, t: seq<Event>, start: int)
    requires multiset(s) == multiset(t)
    ensures Total(ViewsOf(GroupBy(PageViews, s), WindowOf(), start)) ==
            Total(ViewsOf(GroupBy(CampaignStats, t), WindowOf(), start))
  {
    AbsorbPermutation(CampaignStats, map[], s, t);
    ViewsAreEvents(PageViews, s, WindowOf(), start);
    ViewsAreEvents(CampaignStats, s, WindowOf(), start);
    SameWindowSameEvents(s, start);
  }

  predicate KnownType(e: Event) { e.eventType in {"page_view", "click", "add_to_cart", "purchase"} }

  // The events of a campaign and window, by type.
  ghost function OfType(s: seq<Event>, k: Key, eventType: string): nat { |PositionsOf(CampaignStats, s, k, eventType)| }

  ghost function AllTypes(s: seq<Event>, k: Key): nat {
    OfType(s, k, "page_view") + OfType(s, k, "click") + OfType(s, k, "purchase") + OfType(s, k, "add_to_cart")
  }

  lemma {:induction false} FourTypes(s: seq<Event>, k: Key)
    requires forall e :: e in s ==> KnownType(e)
    ensures |Positions(CampaignStats, s, k)| == AllTypes(s, k)
  {
    if s == [] {
      assert Positions(CampaignStats, s, k) == {};
      NoneOfType(CampaignStats, s, k, "page_view");
      NoneOfType(CampaignStats, s, k, "click");
      NoneOfType(CampaignStats, s, k, "purchase");
      NoneOfType(CampaignStats, s, k, "add_to_cart");
    } else {
      var t, e := s[..|s| - 1], s[|s| - 1];
      assert s == t + [e];
      FourTypes(t, k);
      OneTypeMore(t, e, k);
    }
  }

  lemma OneTypeMore(s: seq<Event>, e: Event, k: Key)
    requires KnownType(e)
    ensures var t, hit := s + [e], if KeyOf(CampaignStats, e) == k then 1 else 0;
            && |Positions(CampaignStats, t, k)| == |Positions(CampaignStats, s, k)| + hit
            && AllTypes(t, k) == AllTypes(s, k) + hit
  {
    PositionsGrow(CampaignStats, s, e, k);
    PositionsOfGrow(CampaignStats, s, e, k, "page_view");
    PositionsOfGrow(CampaignStats, s, e, k, "click");
    PositionsOfGrow(CampaignStats, s, e, k, "purchase");
    PositionsOfGrow(CampaignStats, s, e, k, "add_to_cart");
    ExactlyOneType(e);
  }

  lemma ExactlyOneType(e: Event)
    requires KnownType(e)
    ensures One(e, "page_view") + One(e, "click") + One(e, "purchase") + One(e, "add_to_cart") == 1
  {
  }

  /** A campaign row accounts for every event: views, clicks, conversions and the uncounted add_to_cart. */
  lemma CampaignRowAddsUp(s: seq<Event>, k: Key)
    requires forall e :: e in s ==> KnownType(e)
    requires k in GroupBy(CampaignStats, s)
    ensures var b := GroupBy(CampaignStats, s)[k];
            b.CampaignBuffer? && b.events == b.views + b.clicks + b.conversions + OfType(s, k, "add_to_cart")
  {
    GroupByMeaning(CampaignStats, s, k);
    FourTypes(s, k);
  }

  // ---- Distinct users ----

  lemma UnionIsTrueUsers<L(!new)>(q: Query, s: seq<Event>, tag: Key -> L, l: L)
    ensures Union(UsersOf(GroupBy(q, s), tag, l)) == TrueUsers(q, s, tag, l)
  {
    var m := UsersOf(GroupBy(q, s), tag, l);
    forall u ensures u in Union(m) <==> u in TrueUsers(q, s, tag, l) {
      UnionMember(m, u);
      if k :| k in m && u in m[k] {
        GroupByMeaning(q, s, k);
        var i := UserSource(q, s, k, u);
        assert tag(KeyOf(q, s[i])) == l;
      }
      if i: nat :| i < |s| && tag(KeyOf(q, s[i])) == l && s[i].userId == u {
        var k := KeyOf(q, s[i]);
        UserMember(q, s, i);
        GroupByMeaning(q, s, k);
        assert k in m && u in m[k];
      }
    }
  }

  // No user of this tag was active in two of its windows.
  ghost predicate NoRepeatVisitors<L(!new)>(q: Query, s: seq<Event>, tag: Key -> L, l: L) {
    forall i: nat, j: nat | i < |s| && j < |s| && s[i].userId == s[j].userId ::
      (tag(KeyOf(q, s[i])) == l && tag(KeyOf(q, s[j])) == l) ==> KeyOf(q, s[i]) == KeyOf(q, s[j])
  }

  lemma DisjointIsNoRepeat<L(!new)>(q: Query, s: seq<Event>, tag: Key -> L, l: L)
    ensures PairwiseDisjoint(UsersOf(GroupBy(q, s), tag, l)) <==> NoRepeatVisitors(q, s, tag, l)
  {
    var m := UsersOf(GroupBy(q, s), tag, l);
    if PairwiseDisjoint(m) {
      forall i: nat, j: nat | i < |s| && j < |s| && s[i].userId == s[j].userId &&
                              tag(KeyOf(q, s[i])) == l && tag(KeyOf(q, s[j])) == l
        ensures KeyOf(q, s[i]) == KeyOf(q, s[j])
      {
        UserInGroup(q, s, tag, l, i);
        UserInGroup(q, s, tag, l, j);
      }
    } else {
      var a, b, u :| a in m && b in m && a != b && u in m[a] && u in m[b];
      GroupByMeaning(q, s, a);
      GroupByMeaning(q, s, b);
      var i := UserSource(q, s, a, u);
      var j := UserSource(q, s, b, u);
    }
  }

  lemma UserInGroup<L(!new)>(q: Query, s: seq<Event>, tag: Key -> L, l: L, i: nat)
    requires i < |s| && tag(KeyOf(q, s[i])) == l
    ensures var m := UsersOf(GroupBy(q, s), tag, l); KeyOf(q, s[i]) in m && s[i].userId in m[KeyOf(q, s[i])]
  {
    UserMember(q, s, i);
    GroupByMeaning(q, s, KeyOf(q, s[i]));
  }

  /** Summed distinct counts over-count, exactly when some user shows up in two windows of the tag. */
  lemma SummedUsersOverCount<L(!new)>(q: Query, s: seq<Event>, tag: Key -> L, l: L)
    ensures var summed := Total(Sizes(UsersOf(GroupBy(q, s), tag, l)));
            && |TrueUsers(q, s, tag, l)| <= summed
            && (|TrueUsers(q, s, tag, l)| == summed <==> NoRepeatVisitors(q, s, tag, l))
  {
    DistinctCountsAdd(UsersOf(GroupBy(q, s), tag, l));
    UnionIsTrueUsers(q, s, tag, l);
    DisjointIsNoRepeat(q, s, tag, l);
  }
}
