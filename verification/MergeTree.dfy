/**
 ReplacingMergeTree: an append-only list of parts, background merges of adjacent parts, and the
 FINAL view. It refines a map maintained by keyed upserts.
 */
module MergeTree {

  // A part is the rows of one insert, in order; later rows and later parts are newer.
  type Part<K, V> = seq<(K, V)>

  // Upserting the rows one after the other: what ON CONFLICT DO UPDATE maintains.
  function Upserts<K, V>(m: map<K, V>, rows: Part<K, V>): map<K, V> {
    if rows == [] then m
    else Upserts(m, rows[..|rows| - 1])[rows[|rows| - 1].0 := rows[|rows| - 1].1]
  }

  function Flatten<K, V>(parts: seq<Part<K, V>>): Part<K, V> {
    if parts == [] then [] else Flatten(parts[..|parts| - 1]) + parts[|parts| - 1]
  }

  predicate HasKey<K(==), V>(rows: Part<K, V>, k: K) {
    exists i :: 0 <= i < |rows| && rows[i].0 == k
  }

  // Row i is the newest one of its key.
  ghost predicate Newest<K, V>(rows: Part<K, V>, i: nat) {
    i < |rows| && forall j :: i < j < |rows| ==> rows[j].0 != rows[i].0
  }

  ghost predicate NewestValue<K, V>(rows: Part<K, V>, k: K, v: V) {
    exists i :: 0 <= i < |rows| && Newest(rows, i) && rows[i] == (k, v)
  }

  // `view` is what a query with FINAL reads: for every key the newest row, wherever it is stored.
  ghost predicate IsFinal<K(!new), V(!new)>(view: map<K, V>, parts: seq<Part<K, V>>) {
    forall k :: (k in view <==> HasKey(Flatten(parts), k)) && (k in view ==> NewestValue(Flatten(parts), k, view[k]))
  }

  // What a merge keeps of its rows: the newest of each key.
  function Dedup<K(==), V>(rows: Part<K, V>): Part<K, V> {
    if rows == [] then []
    else
      var rest := Dedup(rows[1..]);
      if HasKey(rows[1..], rows[0].0) then rest else [rows[0]] + rest
  }

  ghost predicate DistinctKeys<K, V>(rows: Part<K, V>) {
    forall i, j :: 0 <= i < j < |rows| ==> rows[i].0 != rows[j].0
  }

  // ---- FINAL is the fold of upserts ----

  lemma NewestIsUnique<K, V>(rows: Part<K, V>, k: K, v: V, w: V)
    requires NewestValue(rows, k, v) && NewestValue(rows, k, w)
    ensures v == w
  {
    var i :| 0 <= i < |rows| && Newest(rows, i) && rows[i] == (k, v);
    var j :| 0 <= j < |rows| && Newest(rows, j) && rows[j] == (k, w);
    assert i == j;
  }

  lemma {:induction false} UpsertsNewest<K, V>(m: map<K, V>, rows: Part<K, V>, k: K)
    ensures HasKey(rows, k) ==> k in Upserts(m, rows) && NewestValue(rows, k, Upserts(m, rows)[k])
    ensures !HasKey(rows, k) ==> (k in Upserts(m, rows) <==> k in m) && (k in m ==> Upserts(m, rows)[k] == m[k])
  {
    if rows != [] {
      var front, last := rows[..|rows| - 1], rows[|rows| - 1];
      UpsertsNewest(m, front, k);
      if last.0 == k {
        assert Newest(rows, |rows| - 1) && rows[|rows| - 1] == (k, last.1);
      } else if HasKey(front, k) {
        var i :| 0 <= i < |front| && Newest(front, i) && front[i] == (k, Upserts(m, front)[k]);
        assert Newest(rows, i) && rows[i] == (k, Upserts(m, rows)[k]);
      }
    }
  }

  /** The FINAL view of any parts is the map that upserting all their rows would leave, and no other. */
  lemma FinalIsUpserts<K(!new), V(!new)>(view: map<K, V>, parts: seq<Part<K, V>>)
    ensures IsFinal(view, parts) <==> view == Upserts(map[], Flatten(parts))
  {
    var rows := Flatten(parts);
    var m := Upserts(map[], rows);
    forall k ensures (k in m <==> HasKey(rows, k)) && (k in m ==> NewestValue(rows, k, m[k])) {
      UpsertsNewest(map[], rows, k);
    }
    if IsFinal(view, parts) {
      forall k | k in view ensures k in m && view[k] == m[k] {
        NewestIsUnique(rows, k, view[k], m[k]);
      }
      assert view.Keys == m.Keys;
    }
  }

  lemma {:induction false} UpsertsConcat<K, V>(m: map<K, V>, a: Part<K, V>, b: Part<K, V>)
    ensures Upserts(m, a + b) == Upserts(Upserts(m, a), b)
  {
    if b == [] {
      assert a + b == a;
    } else {
      UpsertsConcat(m, a, b[..|b| - 1]);
      assert (a + b)[..|a + b| - 1] == a + b[..|b| - 1];
    }
  }

  // Two batches that agree on every key's newest value upsert alike.
  lemma UpsertsByNewest<K(!new), V(!new)>(m: map<K, V>, a: Part<K, V>, b: Part<K, V>)
    requires forall k :: HasKey(a, k) <==> HasKey(b, k)
    requires forall k, v :: NewestValue(a, k, v) ==> NewestValue(b, k, v)
    ensures Upserts(m, a) == Upserts(m, b)
  {
    forall k ensures k in Upserts(m, a) <==> k in Upserts(m, b)
      ensures k in Upserts(m, a) ==> Upserts(m, a)[k] == Upserts(m, b)[k]
    {
      UpsertsNewest(m, a, k);
      UpsertsNewest(m, b, k);
      if HasKey(a, k) {
        NewestIsUnique(b, k, Upserts(m, a)[k], Upserts(m, b)[k]);
      }
    }
  }

  /** Re-inserting the rows of the batch that came last changes nothing. */
  lemma UpsertsIdempotent<K(!new), V(!new)>(m: map<K, V>, rows: Part<K, V>)
    ensures Upserts(Upserts(m, rows), rows) == Upserts(m, rows)
  {
    forall k ensures k in Upserts(Upserts(m, rows), rows) <==> k in Upserts(m, rows)
      ensures k in Upserts(m, rows) ==> Upserts(Upserts(m, rows), rows)[k] == Upserts(m, rows)[k]
    {
      UpsertsNewest(m, rows, k);
      UpsertsNewest(Upserts(m, rows), rows, k);
      if HasKey(rows, k) {
        NewestIsUnique(rows, k, Upserts(m, rows)[k], Upserts(Upserts(m, rows), rows)[k]);
      }
    }
  }

  // ---- Merges ----

  lemma {:induction false} DedupKeepsNewest<K(!new), V(!new)>(rows: Part<K, V>, k: K, v: V)
    ensures NewestValue(rows, k, v) <==> (k, v) in Dedup(rows)
    decreases |rows|
  {
    if rows != [] {
      var head, tail := rows[0], rows[1..];
      DedupKeepsNewest(tail, k, v);
      if NewestValue(rows, k, v) {
        var i :| 0 <= i < |rows| && Newest(rows, i) && rows[i] == (k, v);
        if i > 0 {
          assert Newest(tail, i - 1) && tail[i - 1] == (k, v);
        }
      }
      if NewestValue(tail, k, v) {
        var i :| 0 <= i < |tail| && Newest(tail, i) && tail[i] == (k, v);
        assert Newest(rows, i + 1) && rows[i + 1] == (k, v);
      }
      if !HasKey(tail, head.0) {
        assert Newest(rows, 0) && rows[0] == head;
      }
    }
  }

  lemma {:induction false} DedupDistinct<K(!new), V(!new)>(rows: Part<K, V>)
    ensures DistinctKeys(Dedup(rows))
    ensures forall k :: HasKey(Dedup(rows), k) <==> HasKey(rows, k)
    decreases |rows|
  {
    if rows != [] {
      DedupDistinct(rows[1..]);
      forall k ensures HasKey(Dedup(rows), k) <==> HasKey(rows, k) {
        HasKeyCons(rows, k);
        if !HasKey(rows[1..], rows[0].0) {
          assert Dedup(rows)[1..] == Dedup(rows[1..]);
          HasKeyCons(Dedup(rows), k);
        }
      }
    }
  }

  lemma HasKeyCons<K, V>(rows: Part<K, V>, k: K)
    requires rows != []
    ensures HasKey(rows, k) <==> rows[0].0 == k || HasKey(rows[1..], k)
  {
    if i :| 0 <= i < |rows| && rows[i].0 == k {
      assert i > 0 ==> rows[1..][i - 1] == rows[i];
    }
    if i :| 0 <= i < |rows[1..]| && rows[1..][i].0 == k {
      assert rows[i + 1].0 == k;
    }
  }

  lemma DistinctNewest<K, V>(rows: Part<K, V>, k: K, v: V)
    requires DistinctKeys(rows)
    ensures NewestValue(rows, k, v) <==> (k, v) in rows
  {
    if (k, v) in rows {
      var i :| 0 <= i < |rows| && rows[i] == (k, v);
      assert Newest(rows, i);
    }
  }

  // A merged part holds the kept rows in any order (ClickHouse sorts them by key).
  ghost predicate IsMergeOf<K(!new), V(!new)>(part: Part<K, V>, rows: Part<K, V>) {
    DistinctKeys(part) && multiset(part) == multiset(Dedup(rows))
  }

  lemma MergeUpserts<K(!new), V(!new)>(m: map<K, V>, part: Part<K, V>, rows: Part<K, V>)
    requires IsMergeOf(part, rows)
    ensures Upserts(m, part) == Upserts(m, rows)
  {
    DedupDistinct(rows);
    forall k ensures HasKey(part, k) <==> HasKey(rows, k) {
      SameRowsSameKeys(part, Dedup(rows), k);
    }
    forall k, v | NewestValue(part, k, v) ensures NewestValue(rows, k, v) {
      DistinctNewest(part, k, v);
      assert (k, v) in multiset(part);
      DedupKeepsNewest(rows, k, v);
    }
    UpsertsByNewest(m, part, rows);
  }

  lemma SameRowsSameKeys<K, V>(a: Part<K, V>, b: Part<K, V>, k: K)
    requires multiset(a) == multiset(b)
    ensures HasKey(a, k) <==> HasKey(b, k)
  {
    if i :| 0 <= i < |a| && a[i].0 == k {
      assert a[i] in multiset(b);
    }
    if i :| 0 <= i < |b| && b[i].0 == k {
      assert b[i] in multiset(a);
    }
  }

  function MergeAt<K, V>(parts: seq<Part<K, V>>, at: nat, part: Part<K, V>): seq<Part<K, V>>
    requires at + 1 < |parts|
  {
    parts[..at] + [part] + parts[at + 2..]
  }

  lemma {:induction false} FlattenConcat<K, V>(a: seq<Part<K, V>>, b: seq<Part<K, V>>)
    ensures Flatten(a + b) == Flatten(a) + Flatten(b)
  {
    if b == [] {
      assert a + b == a;
    } else {
      FlattenConcat(a, b[..|b| - 1]);
      assert (a + b)[..|a + b| - 1] == a + b[..|b| - 1];
    }
  }

  lemma FlattenOne<K, V>(part: Part<K, V>)
    ensures Flatten([part]) == part
  {
    assert [part][..0] == [];
  }

  // The parts around a stretch of the list contribute the same rows whatever the stretch holds.
  lemma FlattenAround<K, V>(a: seq<Part<K, V>>, mid: seq<Part<K, V>>, b: seq<Part<K, V>>)
    ensures Flatten(a + mid + b) == Flatten(a) + Flatten(mid) + Flatten(b)
  {
    FlattenConcat(a + mid, b);
    FlattenConcat(a, mid);
  }

  lemma FlattenTwo<K, V>(p: Part<K, V>, q: Part<K, V>)
    ensures Flatten([p, q]) == p + q
  {
    assert [p, q] == [p] + [q];
    FlattenConcat([p], [q]);
    FlattenOne(p);
    FlattenOne(q);
  }

  lemma UpsertsAround<K, V>(a: seq<Part<K, V>>, mid: seq<Part<K, V>>, b: seq<Part<K, V>>)
    ensures Upserts(map[], Flatten(a + mid + b)) ==
            Upserts(Upserts(Upserts(map[], Flatten(a)), Flatten(mid)), Flatten(b))
  {
    FlattenAround(a, mid, b);
    UpsertsConcat(map[], Flatten(a) + Flatten(mid), Flatten(b));
    UpsertsConcat(map[], Flatten(a), Flatten(mid));
  }

  lemma MergeStretch<K(!new), V(!new)>(m: map<K, V>, p: Part<K, V>, q: Part<K, V>, part: Part<K, V>)
    requires IsMergeOf(part, p + q)
    ensures Upserts(m, Flatten([part])) == Upserts(m, Flatten([p, q]))
  {
    FlattenOne(part);
    FlattenTwo(p, q);
    MergeUpserts(m, part, p + q);
  }

  lemma AroundMerge<K, V>(parts: seq<Part<K, V>>, at: nat)
    requires at + 1 < |parts|
    ensures parts == parts[..at] + [parts[at], parts[at + 1]] + parts[at + 2..]
  {
  }

  /** A merge never changes what FINAL reads. */
  lemma MergeKeepsFinal<K(!new), V(!new)>(parts: seq<Part<K, V>>, at: nat, part: Part<K, V>)
    requires at + 1 < |parts| && IsMergeOf(part, parts[at] + parts[at + 1])
    ensures Upserts(map[], Flatten(MergeAt(parts, at, part))) == Upserts(map[], Flatten(parts))
  {
    var a, b := parts[..at], parts[at + 2..];
    MergeStretch(Upserts(map[], Flatten(a)), parts[at], parts[at + 1], part);
    UpsertsAround(a, [parts[at], parts[at + 1]], b);
    UpsertsAround(a, [part], b);
    AroundMerge(parts, at);
  }

  // ---- Any interleaving of inserts, replays of the last batch, and merges ----

  datatype Op<K, V> =
    | Insert(rows: Part<K, V>)
    | ReplayLast
    | Merge(at: nat, part: Part<K, V>)

  datatype Tree<K, V> = Tree(parts: seq<Part<K, V>>, last: Part<K, V>)

  // An insert of no rows is skipped by the sink.
  function Appended<K(==), V(==)>(parts: seq<Part<K, V>>, rows: Part<K, V>): seq<Part<K, V>> {
    if rows == [] then parts else parts + [rows]
  }

  ghost function Apply<K(!new), V(!new)>(t: Tree<K, V>, op: Op<K, V>): Tree<K, V> {
    match op
    case Insert(rows) => Tree(Appended(t.parts, rows), rows)
    case ReplayLast => t.(parts := Appended(t.parts, t.last))
    case Merge(at, part) =>
      if at + 1 < |t.parts| && IsMergeOf(part, t.parts[at] + t.parts[at + 1]) then
        t.(parts := MergeAt(t.parts, at, part))
      else t
  }

  ghost function Run<K(!new), V(!new)>(ops: seq<Op<K, V>>): Tree<K, V> {
    if ops == [] then Tree([], []) else Apply(Run(ops[..|ops| - 1]), ops[|ops| - 1])
  }

  // The same inserts as keyed upserts, each once, with no replays and no merges.
  function Folded<K, V>(ops: seq<Op<K, V>>): map<K, V> {
    if ops == [] then map[]
    else
      var m := Folded(ops[..|ops| - 1]);
      match ops[|ops| - 1]
      case Insert(rows) => Upserts(m, rows)
      case _ => m
  }

  lemma AppendedUpserts<K(!new), V(!new)>(parts: seq<Part<K, V>>, rows: Part<K, V>)
    ensures Upserts(map[], Flatten(Appended(parts, rows))) == Upserts(Upserts(map[], Flatten(parts)), rows)
  {
    FlattenConcat(parts, [rows]);
    FlattenOne(rows);
    UpsertsConcat(map[], Flatten(parts), rows);
  }

  /** ClickHouse refines Postgres: FINAL is the upsert fold of the batches, whatever replays and merges happen. */
  lemma {:induction false} TreeRefinesUpserts<K(!new), V(!new)>(ops: seq<Op<K, V>>)
    ensures IsFinal(Folded(ops), Run(ops).parts)
    ensures Upserts(Folded(ops), Run(ops).last) == Folded(ops)
  {
    if ops == [] {
      FinalIsUpserts(map[], Run(ops).parts);
    } else {
      var front, t := ops[..|ops| - 1], Run(ops[..|ops| - 1]);
      TreeRefinesUpserts(front);
      FinalIsUpserts(Folded(front), t.parts);
      FinalIsUpserts(Folded(ops), Run(ops).parts);
      match ops[|ops| - 1]
      case Insert(rows) =>
        AppendedUpserts(t.parts, rows);
        UpsertsIdempotent(Folded(front), rows);
      case ReplayLast =>
        AppendedUpserts(t.parts, t.last);
      case Merge(at, part) =>
        if at + 1 < |t.parts| && IsMergeOf(part, t.parts[at] + t.parts[at + 1]) {
          MergeKeepsFinal(t.parts, at, part);
        }
    }
  }

  // A table of this engine as the sink sees it.
  class ReplacingMergeTree<K(==, !new), V(==, !new)> {
    var parts: seq<Part<K, V>>

    // The FINAL view.
    ghost function View(): map<K, V>
      reads this
    {
      Upserts(map[], Flatten(parts))
    }

    constructor ()
      ensures View() == map[] && parts == []
    {
      parts := [];
    }

    // insert_clicks and insert_page_views: one part per non-empty batch.
    method InsertRows(rows: Part<K, V>)
      modifies this
      ensures View() == Upserts(old(View()), rows)
      ensures parts == Appended(old(parts), rows)
    {
      AppendedUpserts(parts, rows);
      if rows == [] {
        return;
      }
      parts := parts + [rows];
    }

    method MergeParts(at: nat)
      requires at + 1 < |parts|
      modifies this
      ensures View() == old(View()) && |parts| == old(|parts|) - 1
    {
      var part := Dedup(parts[at] + parts[at + 1]);
      DedupDistinct(parts[at] + parts[at + 1]);
      MergeKeepsFinal(parts, at, part);
      parts := MergeAt(parts, at, part);
    }
  }
}
