/** Option values and small facts about sequences that several modules share. */
module Wrappers {

  datatype Option<+T> = None | Some(value: T)

  function Max(a: int, b: int): int { if a < b then b else a }

  function Min(a: int, b: int): int { if a < b then a else b }

  function Zeros(n: nat): (z: seq<nat>)
    ensures |z| == n && forall i :: 0 <= i < n ==> z[i] == 0
  {
    seq(n, i => 0)
  }

  /** Moving the element at position i of s to its end keeps the elements of s. */
  lemma MoveToEnd<T>(s: seq<T>, i: nat)
    requires i < |s|
    ensures multiset(s[..i] + s[i + 1..]) + multiset{s[i]} == multiset(s)
  {
    assert s == s[..i] + ([s[i]] + s[i + 1..]);
  }

  lemma ConcatSplit<T>(xs: seq<T>, ys: seq<T>, zs: seq<T>, a: seq<T>, b: seq<T>)
    requires multiset(xs) == multiset(ys) + multiset(zs)
    ensures multiset(xs + (a + b)) == multiset(ys + a) + multiset(zs + b)
  {
  }

  // ---- Mapping and filtering ----

  function FlatMap<T, U>(f: T -> seq<U>, s: seq<T>): seq<U> {
    if s == [] then [] else FlatMap(f, s[..|s| - 1]) + f(s[|s| - 1])
  }

  lemma {:induction false} FlatMapConcat<T, U>(f: T -> seq<U>, a: seq<T>, b: seq<T>)
    ensures FlatMap(f, a + b) == FlatMap(f, a) + FlatMap(f, b)
  {
    if b == [] {
      assert a + b == a;
    } else {
      var front, x := b[..|b| - 1], b[|b| - 1];
      FlatMapConcat(f, a, front);
      FlatMapMore(f, a + front, x);
      FlatMapMore(f, front, x);
      assert a + b == (a + front) + [x] && b == front + [x];
      Regroup(FlatMap(f, a), FlatMap(f, front), f(x));
    }
  }

  lemma Regroup<T>(a: seq<T>, b: seq<T>, c: seq<T>)
    ensures (a + b) + c == a + (b + c)
  {
  }

  lemma FlatMapMore<T, U>(f: T -> seq<U>, s: seq<T>, x: T)
    ensures FlatMap(f, s + [x]) == FlatMap(f, s) + f(x)
  {
    assert (s + [x])[..|s + [x]| - 1] == s;
  }

  lemma {:induction false} FlatMapSource<T, U>(f: T -> seq<U>, s: seq<T>, u: U) returns (i: nat)
    requires u in FlatMap(f, s)
    ensures i < |s| && u in f(s[i])
  {
    var n := |s| - 1;
    if u in FlatMap(f, s[..n]) {
      i := FlatMapSource(f, s[..n], u);
    } else {
      i := n;
    }
  }

  lemma {:induction false} FlatMapMember<T, U>(f: T -> seq<U>, s: seq<T>, i: nat, u: U)
    requires i < |s| && u in f(s[i])
    ensures u in FlatMap(f, s)
  {
    if i < |s| - 1 {
      FlatMapMember(f, s[..|s| - 1], i, u);
    }
  }

  function Filter<T>(p: T -> bool, s: seq<T>): seq<T> {
    if s == [] then [] else Filter(p, s[..|s| - 1]) + if p(s[|s| - 1]) then [s[|s| - 1]] else []
  }

  lemma {:induction false} FilterCount<T>(p: T -> bool, s: seq<T>, x: T)
    ensures multiset(Filter(p, s))[x] == if p(x) then multiset(s)[x] else 0
  {
    if s != [] {
      FilterCount(p, s[..|s| - 1], x);
      assert s == s[..|s| - 1] + [s[|s| - 1]];
    }
  }

  // The positions of a sequence at which p holds.
  ghost function Where<T>(p: T -> bool, s: seq<T>): set<nat> { set i: nat | i < |s| && p(s[i]) }

  lemma WhereGrows<T>(p: T -> bool, s: seq<T>, x: T)
    ensures Where(p, s + [x]) == Where(p, s) + (if p(x) then {|s|} else {})
    ensures |Where(p, s + [x])| == |Where(p, s)| + if p(x) then 1 else 0
  {
    var t := s + [x];
    assert t[|s|] == x && forall i :: 0 <= i < |s| ==> t[i] == s[i];
    assert |s| !in Where(p, s);
    assert Where(p, t) == Where(p, s) + (if p(x) then {|s|} else {});
  }

  lemma WhereInNothing<T>(p: T -> bool)
    ensures Where(p, []) == {}
  {
  }

  lemma WhereBehind<T>(p: T -> bool, x: T, s: seq<T>)
    ensures |Where(p, [x] + s)| == |Where(p, s)| + if p(x) then 1 else 0
  {
    if s == [] {
      WhereGrows(p, [], x);
      assert [] + [x] == [x] + s;
    } else {
      var front, y := s[..|s| - 1], s[|s| - 1];
      WhereBehind(p, x, front);
      WhereGrows(p, front, y);
      WhereGrows(p, [x] + front, y);
      assert ([x] + front) + [y] == [x] + s && front + [y] == s;
    }
  }

  // ---- Repeating a step ----

  function Repeat<T>(f: T -> T, start: T, n: nat): T { if n == 0 then start else f(Repeat(f, start, n - 1)) }

  lemma {:induction false} RepeatKeeps<T(!new)>(f: T -> T, p: T -> bool, start: T, n: nat)
    requires p(start) && forall x :: p(x) ==> p(f(x))
    ensures p(Repeat(f, start, n))
  {
    if n > 0 {
      RepeatKeeps(f, p, start, n - 1);
    }
  }

  // Two steps that agree wherever p holds pass through the same states.
  lemma {:induction false} RepeatAgrees<T(!new)>(f: T -> T, h: T -> T, p: T -> bool, start: T, n: nat)
    requires p(start) && forall x :: p(x) ==> p(f(x)) && h(x) == f(x)
    ensures Repeat(h, start, n) == Repeat(f, start, n)
  {
    if n > 0 {
      RepeatAgrees(f, h, p, start, n - 1);
      RepeatKeeps(f, p, start, n - 1);
    }
  }

  lemma {:induction false} RepeatIs<T>(f: T -> T, at: nat -> T, start: T, n: nat)
    requires at(0) == start && forall k: nat :: k < n ==> f(at(k)) == at(k + 1)
    ensures Repeat(f, start, n) == at(n)
  {
    if n > 0 {
      RepeatIs(f, at, start, n - 1);
    }
  }
}
