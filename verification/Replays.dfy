/** A batch attempted any number of times: what crashed attempts leave behind, and what the last one completes. */
module Replays {
  import opened Aggregates
  import opened Clicks
  import opened Stream

  // One attempt: the order in which its rows arrive, and the groups that reach the sink before it dies.
  datatype Attempt = Attempt(rows: seq<Event>, keys: set<Key>)

  ghost function Crashed(q: Query, s: State, attempts: seq<Attempt>): State {
    if attempts == [] then s
    else
      var a := attempts[|attempts| - 1];
      Do(q, Do(q, Crashed(q, s, attempts[..|attempts| - 1]), Write(a.rows, a.keys)), Crash)
  }

  // A clean attempt: all of the batch is written, and the batch committed.
  ghost function Finished(q: Query, s: State, rows: seq<Event>): State {
    Do(q, Do(q, s, Write(rows, Output(q, s.store, rows).Keys)), Commit)
  }

  ghost predicate SameBatch(s: State, t: State) {
    t.topic == s.topic && t.plans == s.plans && t.commits == s.commits && t.store == s.store
  }

  lemma AttemptDies(q: Query, s: State, a: Attempt)
    requires Inv(q, s)
    ensures var t := Do(q, Do(q, s, Write(a.rows, a.keys)), Crash); Inv(q, t) && SameBatch(s, t) && !t.written
  {
    StepKeepsInv(q, s, Write(a.rows, a.keys));
    StepKeepsInv(q, Do(q, s, Write(a.rows, a.keys)), Crash);
  }

  lemma {:induction false} CrashedAttempts(q: Query, s: State, attempts: seq<Attempt>)
    requires Inv(q, s)
    ensures var t := Crashed(q, s, attempts); Inv(q, t) && SameBatch(s, t) && (attempts != [] ==> !t.written)
  {
    if attempts != [] {
      CrashedAttempts(q, s, attempts[..|attempts| - 1]);
      AttemptDies(q, Crashed(q, s, attempts[..|attempts| - 1]), attempts[|attempts| - 1]);
    }
  }

  /** However far an attempt got before it died, its batch is not committed; it has to be attempted again. */
  lemma CrashMeansReplay(q: Query, s: State, attempts: seq<Attempt>)
    requires Inv(q, s) && attempts != []
    ensures Do(q, Crashed(q, s, attempts), Commit) == Crashed(q, s, attempts)
  {
    CrashedAttempts(q, s, attempts);
  }

  lemma WholeWriteState(q: Query, s: State, rows: seq<Event>, out: map<Key, Row>)
    requires InFlight(s) && multiset(rows) == multiset(Arriving(s)) && out == Output(q, s.store, rows)
    ensures Do(q, s, Write(rows, out.Keys)) == s.(table := s.table + Only(out, out.Keys), written := true)
  {
  }

  lemma WholeWriteTable(q: Query, s: State, rows: seq<Event>, out: map<Key, Row>, after: Groups)
    requires Inv(q, s) && InFlight(s) && multiset(rows) == multiset(Arriving(s)) && out == Output(q, s.store, rows)
    requires after == GroupBy(q, Accepted(s.topic, s.plans))
    ensures s.table + Only(out, out.Keys) == EmitAll(after)
  {
    WriteOutput(q, s, rows);
    FullWrite(Settled(q, s), after, s.table, out, out.Keys);
  }

  lemma SameNextStore(q: Query, s: State, t: State)
    requires InFlight(s) && SameBatch(s, t)
    ensures InFlight(t) && NextStore(q, t) == NextStore(q, s)
  {
    assert Arriving(t) == Arriving(s);
  }

  lemma CommitState(q: Query, s: State, t: State)
    requires InFlight(s) && SameBatch(s, t) && t.written
    ensures Do(q, t, Commit) == State(s.topic, s.plans, s.commits + 1, NextStore(q, s), t.table, false)
  {
    SameNextStore(q, s, t);
    CommitWritten(q, t);
  }

  lemma CommitWritten(q: Query, t: State)
    requires InFlight(t) && t.written
    ensures Do(q, t, Commit) == t.(commits := t.commits + 1, written := false, store := NextStore(q, t))
  {
  }

  lemma CleanAttempt(q: Query, s: State, rows: seq<Event>, after: Groups)
    requires Inv(q, s) && InFlight(s) && multiset(rows) == multiset(Arriving(s))
    requires after == GroupBy(q, Accepted(s.topic, s.plans))
    ensures Finished(q, s, rows) == State(s.topic, s.plans, s.commits + 1, NextStore(q, s), EmitAll(after), false)
  {
    var out := Output(q, s.store, rows);
    WholeWriteState(q, s, rows, out);
    WholeWriteTable(q, s, rows, out, after);
    CommitState(q, s, s.(table := s.table + Only(out, out.Keys), written := true));
  }

  /**
   Any number of attempts that died anywhere, followed by a clean one, leave exactly the state that one
   clean attempt would have left: offsets, state store and sink.
   */
  lemma ReplayLeavesNoTrace(q: Query, s: State, attempts: seq<Attempt>, rows: seq<Event>, clean: seq<Event>)
    requires Inv(q, s) && InFlight(s)
    requires multiset(rows) == multiset(Arriving(s)) && multiset(clean) == multiset(Arriving(s))
    ensures Finished(q, Crashed(q, s, attempts), rows) == Finished(q, s, clean)
    ensures Finished(q, s, clean).commits == s.commits + 1
    ensures Finished(q, s, clean).table == EmitAll(GroupBy(q, Accepted(s.topic, s.plans)))
  {
    CrashedAttempts(q, s, attempts);
    var after := GroupBy(q, Accepted(s.topic, s.plans));
    CleanAttempt(q, Crashed(q, s, attempts), rows, after);
    CleanAttempt(q, s, clean, after);
  }
}
