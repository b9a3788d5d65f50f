/**
 When late data can make two schedules disagree on whole rows of page_views_1m, users included: the
 exact condition, for every pair of runs that consumed the same prefix.
 */
module LateRows {
  import opened Aggregates
  import opened Clicks
  import opened Delivery
  import opened Lateness
  import opened LateViews
  import opened Log
  import opened Punctuality
  import opened Stream
  import opened Wrappers

  // ---- The users of a row ----

  predicate IsVisit(e: Event, k: Key, user: string) { KeyOf(PageViews, e) == k && e.userId == user }

  ghost predicate Visits(s: seq<Event>, k: Key, user: string) { exists e :: e in s && IsVisit(e, k, user) }

  lemma VisitIsUser(s: seq<Event>, k: Key, user: string)
    ensures Visits(s, k, user) <==> user in UsersAt(PageViews, s, k)
  {
    if Visits(s, k, user) {
      var e :| e in s && IsVisit(e, k, user);
      var i :| 0 <= i < |s| && s[i] == e;
      UserMember(PageViews, s, i);
    } else if user in UsersAt(PageViews, s, k) {
      var i := UserSource(PageViews, s, k, user);
      assert IsVisit(s[i], k, user);
    }
  }

  // A group exists exactly when it has a user.
  lemma GroupHasUser(s: seq<Event>, k: Key)
    ensures Positions(PageViews, s, k) != {} <==> UsersAt(PageViews, s, k) != {}
  {
    if i :| i in Positions(PageViews, s, k) {
      assert s[i].userId in UsersAt(PageViews, s, k);
    }
  }

  lemma {:induction false} OnTimeIsAccepted(rows: seq<Event>, late: int, e: Event)
    requires e in rows && WindowEnd(e.ts) > late
    ensures e in OnTime(rows, late)
  {
    if e in rows[..|rows| - 1] {
      OnTimeIsAccepted(rows[..|rows| - 1], late, e);
    }
  }

  // ---- No user's visits to a group can all be overtaken ----

  // Message (r, j) may be read before the visit at (p, i) and before every other visit of that user to
  // the group, and its watermark is past the window.
  ghost predicate UserMissed(topic: Topic, p: nat, i: nat, e: Event, r: nat, j: nat, f: Event) {
    && EventAt(topic, p, i, e) && EventAt(topic, r, j, f) && MayPrecede(r, j, p, i)
    && INITIAL_WATERMARK < WindowEnd(e.ts) <= f.ts - WATERMARK_SECONDS
    && NoVisitUpTo(topic, r, j, KeyOf(PageViews, e), e.userId)
  }

  ghost predicate NoVisitUpTo(topic: Topic, r: nat, j: nat, k: Key, user: string) {
    forall h: nat, x: Event :: h <= j && EventAt(topic, r, h, x) ==> !IsVisit(x, k, user)
  }

  ghost predicate RowsPunctual(topic: Topic) {
    && ViewsPunctual(topic)
    && forall p: nat, i: nat, e: Event, r: nat, j: nat, f: Event :: !UserMissed(topic, p, i, e, r, j, f)
  }

  // The first batch with a visit of the user to the group takes it in.
  lemma FirstVisitIsOnTime(topic: Topic, start: Offsets, end: Offsets, e: Event)
    requires RowsPunctual(topic) && Range(topic, Zeros(|topic|), start) && Range(topic, start, end)
    requires e in Rows(topic, start, end) && WindowEnd(e.ts) > INITIAL_WATERMARK
    requires !Visits(Rows(topic, Zeros(|topic|), start), KeyOf(PageViews, e), e.userId)
    ensures WindowEnd(e.ts) > Watermark(Rows(topic, Zeros(|topic|), start))
  {
    var earlier := Rows(topic, Zeros(|topic|), start);
    var p, i := RowSource(topic, start, end, e);
    WatermarkSource(earlier);
    if Watermark(earlier) != INITIAL_WATERMARK {
      var f :| f in earlier && f.ts - WATERMARK_SECONDS == Watermark(earlier);
      var r, j := RowSource(topic, Zeros(|topic|), start, f);
      NoVisitBefore(topic, start, r, j, KeyOf(PageViews, e), e.userId);
      assert !UserMissed(topic, p, i, e, r, j, f);
    }
  }

  lemma NoVisitBefore(topic: Topic, start: Offsets, r: nat, j: nat, k: Key, user: string)
    requires Range(topic, Zeros(|topic|), start) && !Visits(Rows(topic, Zeros(|topic|), start), k, user)
    requires r < |topic| && j < start[r]
    ensures NoVisitUpTo(topic, r, j, k, user)
  {
    forall h: nat, x: Event | h <= j && EventAt(topic, r, h, x) ensures !IsVisit(x, k, user) {
      EventIsRow(topic, Zeros(|topic|), start, r, h, x);
    }
  }

  lemma ConsumedRows(topic: Topic, plans: seq<Plan>, e: Event)
    requires Scheduled(topic, plans)
    ensures Range(topic, Zeros(|topic|), EndOf(topic, plans))
    ensures e in Rows(topic, Zeros(|topic|), EndOf(topic, plans)) <==>
            e in Accepted(topic, plans) || e in Dropped(topic, plans)
  {
    ConsumedIsAcceptedOrDropped(topic, plans);
    var all := multiset(Rows(topic, Zeros(|topic|), EndOf(topic, plans)));
    assert e in all <==> e in multiset(Accepted(topic, plans)) + multiset(Dropped(topic, plans));
  }

  // A visit to a window that ends after 1970 began is counted under every schedule.
  lemma {:induction false} VisitIsCounted(topic: Topic, plans: seq<Plan>, e: Event)
    requires RowsPunctual(topic) && Scheduled(topic, plans) && Range(topic, Zeros(|topic|), EndOf(topic, plans))
    requires e in Rows(topic, Zeros(|topic|), EndOf(topic, plans)) && WindowEnd(e.ts) > INITIAL_WATERMARK
    ensures Visits(Accepted(topic, plans), KeyOf(PageViews, e), e.userId)
  {
    ConsumedRows(topic, plans, e);
    if plans != [] {
      var front, plan, k := plans[..|plans| - 1], plans[|plans| - 1], KeyOf(PageViews, e);
      ConsumedRows(topic, front, e);
      if Visits(Rows(topic, Zeros(|topic|), EndOf(topic, front)), k, e.userId) {
        var x :| x in Rows(topic, Zeros(|topic|), EndOf(topic, front)) && IsVisit(x, k, e.userId);
        VisitIsCounted(topic, front, x);
        FrontVisits(topic, plans, k, e.userId);
      } else {
        assert e !in Rows(topic, Zeros(|topic|), EndOf(topic, front)) by {
          assert IsVisit(e, k, e.userId);
        }
        assert e in Batch(topic, plans);
        FirstVisitIsOnTime(topic, EndOf(topic, front), plan.end, e);
        OnTimeIsAccepted(Batch(topic, plans), plan.late, e);
        assert IsVisit(e, k, e.userId) && e in Accepted(topic, plans);
      }
    }
  }

  lemma FrontVisits(topic: Topic, plans: seq<Plan>, k: Key, user: string)
    requires plans != [] && Scheduled(topic, plans) && Visits(Accepted(topic, plans[..|plans| - 1]), k, user)
    ensures Visits(Accepted(topic, plans), k, user)
  {
    var x :| x in Accepted(topic, plans[..|plans| - 1]) && IsVisit(x, k, user);
    assert x in Accepted(topic, plans);
  }

  // Which users a schedule counts depends on nothing but where it stopped.
  lemma UsersByKey(topic: Topic, plans: seq<Plan>, k: Key)
    requires RowsPunctual(topic) && Scheduled(topic, plans)
    ensures Range(topic, Zeros(|topic|), EndOf(topic, plans))
    ensures UsersAt(PageViews, Accepted(topic, plans), k) ==
            if KeyEnd(k) <= INITIAL_WATERMARK then {}
            else UsersAt(PageViews, Rows(topic, Zeros(|topic|), EndOf(topic, plans)), k)
  {
    ConsumedIsAcceptedOrDropped(topic, plans);
    var all, accepted := Rows(topic, Zeros(|topic|), EndOf(topic, plans)), Accepted(topic, plans);
    AcceptedAreNew(topic, plans);
    forall user
      ensures user in UsersAt(PageViews, accepted, k) <==>
              KeyEnd(k) > INITIAL_WATERMARK && user in UsersAt(PageViews, all, k)
    {
      VisitIsUser(accepted, k, user);
      VisitIsUser(all, k, user);
      VisitByKey(topic, plans, k, user);
    }
  }

  lemma VisitByKey(topic: Topic, plans: seq<Plan>, k: Key, user: string)
    requires RowsPunctual(topic) && Scheduled(topic, plans) && Range(topic, Zeros(|topic|), EndOf(topic, plans))
    ensures Visits(Accepted(topic, plans), k, user) <==>
            KeyEnd(k) > INITIAL_WATERMARK && Visits(Rows(topic, Zeros(|topic|), EndOf(topic, plans)), k, user)
  {
    if Visits(Accepted(topic, plans), k, user) {
      var e :| e in Accepted(topic, plans) && IsVisit(e, k, user);
      AcceptedAreNew(topic, plans);
      ConsumedRows(topic, plans, e);
    }
    if KeyEnd(k) > INITIAL_WATERMARK && Visits(Rows(topic, Zeros(|topic|), EndOf(topic, plans)), k, user) {
      var e :| e in Rows(topic, Zeros(|topic|), EndOf(topic, plans)) && IsVisit(e, k, user);
      VisitIsCounted(topic, plans, e);
    }
  }

  // ---- Whole rows ----

  // Rows are determined by their views and their users.
  lemma SameRows(s: seq<Event>, t: seq<Event>, k: Key)
    requires ViewCount(s, k) == ViewCount(t, k) && UsersAt(PageViews, s, k) == UsersAt(PageViews, t, k)
    ensures var a, b := EmitAll(GroupBy(PageViews, s)), EmitAll(GroupBy(PageViews, t));
            (k in a <==> k in b) && (k in a ==> a[k] == b[k])
  {
    GroupByMeaning(PageViews, s, k);
    GroupByMeaning(PageViews, t, k);
    GroupHasUser(s, k);
    GroupHasUser(t, k);
  }

  lemma TablesByKey(a: map<Key, Row>, b: map<Key, Row>)
    requires forall k :: (k in a <==> k in b) && (k in a ==> a[k] == b[k])
    ensures a == b
  {
  }

  lemma PunctualRowsAgree(topic: Topic, a: Run, b: Run)
    requires RowsPunctual(topic) && ConsumeAlike(topic, a, b)
    ensures After(a).table == After(b).table
  {
    var s, t := Accepted(topic, After(a).plans), Accepted(topic, After(b).plans);
    TableIsAccepted(PageViews, a.from, a.actions);
    TableIsAccepted(PageViews, b.from, b.actions);
    var x, y := EmitAll(GroupBy(PageViews, s)), EmitAll(GroupBy(PageViews, t));
    forall k ensures (k in x <==> k in y) && (k in x ==> x[k] == y[k]) {
      ViewsByKey(topic, After(a).plans, k);
      ViewsByKey(topic, After(b).plans, k);
      UsersByKey(topic, After(a).plans, k);
      UsersByKey(topic, After(b).plans, k);
      SameRows(s, t, k);
    }
    TablesByKey(x, y);
  }

  // ---- A user whose visits are all overtaken ----

  // The schedule that reads up to (r, j) first counts no visit of the user to the group.
  lemma MissesUser(topic: Topic, plans: seq<Plan>, k: Key, user: string, r: nat, j: nat, f: Event)
    requires Scheduled(topic, plans) && ReadAfter(topic, plans, r, j, f)
    requires KeyEnd(k) <= f.ts - WATERMARK_SECONDS && NoVisitUpTo(topic, r, j, k, user)
    ensures !Visits(Accepted(topic, plans), k, user)
  {
    var front, plan := plans[..|plans| - 1], plans[|plans| - 1];
    forall e | e in Accepted(topic, plans) ensures !IsVisit(e, k, user) {
      if e in Accepted(topic, front) {
        ConsumedRows(topic, front, e);
        ReadsNoVisit(topic, r, j, k, user, e);
      }
    }
  }

  lemma ReadsNoVisit(topic: Topic, r: nat, j: nat, k: Key, user: string, e: Event)
    requires r < |topic| && NoVisitUpTo(topic, r, j, k, user)
    requires Range(topic, Zeros(|topic|), UpTo(Zeros(|topic|), r, j))
    requires e in Rows(topic, Zeros(|topic|), UpTo(Zeros(|topic|), r, j))
    ensures !IsVisit(e, k, user)
  {
    var p, h := RowSource(topic, Zeros(|topic|), UpTo(Zeros(|topic|), r, j), e);
  }

  // The whole prefix in one batch counts every visit.
  lemma OneBatchCounts(topic: Topic, end: Offsets, e: Event)
    requires Scheduled(topic, [Plan(end, INITIAL_WATERMARK, INITIAL_WATERMARK)])
    requires Range(topic, Zeros(|topic|), end)
    requires e in Rows(topic, Zeros(|topic|), end) && WindowEnd(e.ts) > INITIAL_WATERMARK
    ensures e in Accepted(topic, [Plan(end, INITIAL_WATERMARK, INITIAL_WATERMARK)])
  {
    var plans := [Plan(end, INITIAL_WATERMARK, INITIAL_WATERMARK)];
    assert plans[..|plans| - 1] == [];
    OnTimeIsAccepted(Batch(topic, plans), INITIAL_WATERMARK, e);
  }

  lemma FewerUsers(s: seq<Event>, t: seq<Event>, k: Key, user: string)
    requires forall e :: e in s ==> e in t
    requires !Visits(s, k, user) && Visits(t, k, user)
    ensures EmitAll(GroupBy(PageViews, s)) != EmitAll(GroupBy(PageViews, t))
  {
    GroupByMeaning(PageViews, s, k);
    GroupByMeaning(PageViews, t, k);
    GroupHasUser(t, k);
    VisitIsUser(s, k, user);
    VisitIsUser(t, k, user);
    var few, many := UsersAt(PageViews, s, k), UsersAt(PageViews, t, k);
    forall u | u in few ensures u in many {
      VisitIsUser(s, k, u);
      VisitIsUser(t, k, u);
    }
    SubsetCard(few, many - {user});
    var a, b := EmitAll(GroupBy(PageViews, s)), EmitAll(GroupBy(PageViews, t));
    assert k in b && b[k].users == |many|;
    if k in a {
      assert a[k].users == |few|;
    }
  }

  lemma MissedUserShows(topic: Topic, p: nat, i: nat, e: Event, r: nat, j: nat, f: Event) returns (a: Run, b: Run)
    requires UserMissed(topic, p, i, e, r, j, f)
    ensures ConsumeAlike(topic, a, b) && After(a).table != After(b).table
  {
    var end: Offsets;
    a, b, end := OvertakenRuns(topic, p, i, e, r, j, f);
    var k, s, t := KeyOf(PageViews, e), Accepted(topic, After(a).plans), Accepted(topic, After(b).plans);
    TableIsAccepted(PageViews, a.from, a.actions);
    TableIsAccepted(PageViews, b.from, b.actions);
    MissesUser(topic, After(a).plans, k, e.userId, r, j, f);
    AcceptedAreNew(topic, After(a).plans);
    ConsumedRows(topic, After(a).plans, e);
    forall x | x in s || x == e ensures x in t {
      ConsumedRows(topic, After(a).plans, x);
      OneBatchCounts(topic, end, x);
    }
    assert IsVisit(e, k, e.userId);
    FewerUsers(s, t, k, e.userId);
  }

  /**
   All runs agree on the whole of page_views_1m, prefix by prefix and with any arrivals on the way,
   exactly when no page view can be overtaken and no user's visits to a group can all be overtaken.
   */
  lemma TablesAgreeIffPunctual(topic: Topic)
    ensures RowsPunctual(topic) <==> forall a, b :: ConsumeAlike(topic, a, b) ==> After(a).table == After(b).table
  {
    if RowsPunctual(topic) {
      forall a, b | ConsumeAlike(topic, a, b) ensures After(a).table == After(b).table {
        PunctualRowsAgree(topic, a, b);
      }
    } else if ViewsPunctual(topic) {
      var p: nat, i: nat, e: Event, r: nat, j: nat, f: Event :| UserMissed(topic, p, i, e, r, j, f);
      var a, b := MissedUserShows(topic, p, i, e, r, j, f);
    } else {
      ViewsAgreeIffPunctual(topic);
      var a, b :| ConsumeAlike(topic, a, b) && !SameViews(After(a), After(b));
    }
  }
}
