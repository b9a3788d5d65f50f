/**
 upsert_batch statement by statement: a staging table filled and merged inside one transaction,
 which a crash after any statement rolls back.
 */
module PostgresSink {
  import opened MergeTree

  datatype Outcome = Committed | Crashed | KeyAffectedTwice

  // TRUNCATE, one INSERT per row, the merge, TRUNCATE, COMMIT.
  function Statements(rows: nat): nat { rows + 4 }

  // What one call leaves in the database when the process dies before statement `crashAt`.
  datatype Db<K, V> = Db(table: map<K, V>, staging: Part<K, V>)

  ghost function AfterUpsert<K, V>(db: Db<K, V>, rows: Part<K, V>, crashAt: nat): Db<K, V> {
    if crashAt >= Statements(|rows|) && DistinctKeys(rows) then Db(Upserts(db.table, rows), []) else db
  }

  class UpsertSink<K(==), V(==)> {
    var table: map<K, V>
    var staging: Part<K, V>

    constructor ()
      ensures table == map[] && staging == []
    {
      table, staging := map[], [];
    }

    ghost function Contents(): Db<K, V>
      reads this
    {
      Db(table, staging)
    }

    // INSERT ... SELECT FROM staging ON CONFLICT DO UPDATE SET every non-key column.
    static method MergeStaged(table: map<K, V>, staged: Part<K, V>) returns (ok: bool, merged: map<K, V>)
      ensures ok <==> DistinctKeys(staged)
      ensures ok ==> merged == Upserts(table, staged)
    {
      ok, merged := true, table;
      var affected: set<K> := {};
      var i := 0;
      while i < |staged|
        invariant i <= |staged|
        invariant DistinctKeys(staged[..i])
        invariant affected == set j | 0 <= j < i :: staged[j].0
        invariant merged == Upserts(table, staged[..i])
      {
        if staged[i].0 in affected {
          ok := false;
          return;
        }
        assert staged[..i + 1][..i] == staged[..i];
        merged := merged[staged[i].0 := staged[i].1];
        affected := affected + {staged[i].0};
        i := i + 1;
      }
      assert staged[..i] == staged;
    }

    method UpsertBatch(rows: Part<K, V>, crashAt: nat) returns (outcome: Outcome)
      modifies this
      ensures Contents() == AfterUpsert(old(Contents()), rows, crashAt)
      ensures outcome == Committed <==> crashAt >= Statements(|rows|) && DistinctKeys(rows)
      ensures outcome == KeyAffectedTwice ==> !DistinctKeys(rows)
    {
      // The transaction's own view; the committed tables change only at COMMIT.
      var statement := 0;
      if crashAt <= statement {
        return Crashed;
      }
      var staged: Part<K, V> := [];
      statement := 1;
      while |staged| < |rows|
        invariant |staged| <= |rows| && staged == rows[..|staged|]
        invariant statement == 1 + |staged| && crashAt >= statement
        invariant Contents() == old(Contents())
        decreases |rows| - |staged|
      {
        if crashAt <= statement {
          return Crashed;
        }
        staged := staged + [rows[|staged|]];
        statement := statement + 1;
      }
      assert staged == rows;
      if crashAt <= statement {
        return Crashed;
      }
      var ok, merged := MergeStaged(table, staged);
      if !ok {
        return KeyAffectedTwice;
      }
      statement := statement + 1;
      if crashAt <= statement {
        return Crashed;
      }
      staged := [];
      statement := statement + 1;
      if crashAt <= statement {
        return Crashed;
      }
      table, staging := merged, staged;
      return Committed;
    }
  }

  // ---- Crashing and replaying ----

  ghost function Attempts<K, V>(db: Db<K, V>, rows: Part<K, V>, crashes: seq<nat>): Db<K, V> {
    if crashes == [] then db
    else AfterUpsert(Attempts(db, rows, crashes[..|crashes| - 1]), rows, crashes[|crashes| - 1])
  }

  /** Whatever attempts died, and wherever, the tables are as before the batch or as after one clean run. */
  lemma {:induction false} AttemptsAreAtomic<K(!new), V(!new)>(db: Db<K, V>, rows: Part<K, V>, crashes: seq<nat>)
    requires DistinctKeys(rows)
    ensures Attempts(db, rows, crashes) in {db, AfterUpsert(db, rows, Statements(|rows|))}
    ensures Attempts(db, rows, crashes + [Statements(|rows|)]) == AfterUpsert(db, rows, Statements(|rows|))
  {
    var all := Statements(|rows|);
    assert (crashes + [all])[..|crashes + [all]| - 1] == crashes;
    UpsertsIdempotent(db.table, rows);
    if crashes != [] {
      AttemptsAreAtomic(db, rows, crashes[..|crashes| - 1]);
    }
  }

  /** Staging stays empty between calls. */
  lemma StagingStaysEmpty<K, V>(db: Db<K, V>, rows: Part<K, V>, crashAt: nat)
    requires db.staging == []
    ensures AfterUpsert(db, rows, crashAt).staging == []
  {
  }

  // ---- A grouped batch ----

  // The collected rows of a grouped batch: its groups in some order, one row each.
  function Collected<K, V>(out: map<K, V>, order: seq<K>): Part<K, V>
    requires forall k :: k in order ==> k in out
  {
    seq(|order|, i requires 0 <= i < |order| => (order[i], out[order[i]]))
  }

  ghost predicate Enumerates<K>(order: seq<K>, keys: set<K>) {
    |order| == |keys| && keys == set k | k in order
  }

  lemma {:induction false} CountBoundsDistinct<K>(order: seq<K>)
    ensures |set k | k in order| <= |order|
    ensures |set k | k in order| == |order| ==> forall i, j :: 0 <= i < j < |order| ==> order[i] != order[j]
  {
    if order == [] {
      assert (set k | k in order) == {};
    } else {
      var front, last := order[..|order| - 1], order[|order| - 1];
      CountBoundsDistinct(front);
      assert order == front + [last];
      assert (set k | k in order) == (set k | k in front) + {last};
    }
  }

  lemma CollectedDistinct<K, V>(out: map<K, V>, order: seq<K>)
    requires Enumerates(order, out.Keys)
    ensures forall k :: k in order ==> k in out
    ensures DistinctKeys(Collected(out, order))
  {
    assert forall k :: k in order ==> k in (set j | j in order);
    CountBoundsDistinct(order);
  }

  function Picked<K, V>(out: map<K, V>, order: seq<K>): map<K, V>
    requires forall k :: k in order ==> k in out
  {
    map k | k in order :: out[k]
  }

  lemma CollectedFront<K, V>(out: map<K, V>, front: seq<K>, last: K)
    requires forall k :: k in front + [last] ==> k in out
    ensures forall k :: k in front ==> k in out
    ensures Collected(out, front + [last]) == Collected(out, front) + [(last, out[last])]
    ensures Picked(out, front + [last]) == Picked(out, front)[last := out[last]]
  {
    assert forall k :: k in front ==> k in front + [last];
  }

  lemma {:induction false} UpsertsCollected<K(!new), V(!new)>(m: map<K, V>, out: map<K, V>, order: seq<K>)
    requires forall k :: k in order ==> k in out
    ensures Upserts(m, Collected(out, order)) == m + Picked(out, order)
  {
    if order != [] {
      var front, last := order[..|order| - 1], order[|order| - 1];
      assert order == front + [last];
      UpsertsCollected(m, out, front);
      CollectedFront(out, front, last);
      UpsertsMore(m, Collected(out, front), (last, out[last]));
    }
  }

  lemma UpsertsMore<K, V>(m: map<K, V>, rows: Part<K, V>, row: (K, V))
    ensures Upserts(m, rows + [row]) == Upserts(m, rows)[row.0 := row.1]
  {
    assert (rows + [row])[..|rows + [row]| - 1] == rows;
  }

  /** ON CONFLICT never hits a row of a grouped batch twice, and leaves exactly the staged values. */
  lemma GroupedUpsert<K(!new), V(!new)>(db: Db<K, V>, out: map<K, V>, order: seq<K>)
    requires Enumerates(order, out.Keys)
    ensures forall k :: k in order ==> k in out
    ensures AfterUpsert(db, Collected(out, order), Statements(|order|)) == Db(db.table + out, [])
  {
    CollectedDistinct(out, order);
    UpsertsCollected(db.table, out, order);
    assert forall k :: k in out ==> k in (set j | j in order);
    assert Picked(out, order) == out;
  }
}
