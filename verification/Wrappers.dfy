/** Values shared by the component models. */
module Wrappers {
  datatype Option<+T> = None | Some(value: T)

  /** A process identity: the pid together with its start time. Once dead it never lives again. */
  datatype Process = Process(pid: int, started: string)

  lemma Reassociate<T>(a: seq<T>, b: seq<T>, c: seq<T>)
    ensures (a + b) + c == a + (b + c)
  {
  }

  // ---------------------------------------------------------------------------------
  // Stable sorting
  // ---------------------------------------------------------------------------------

  function InsertBy<T>(x: T, xs: seq<T>, before: (T, T) -> bool): seq<T> {
    if xs == [] || !before(xs[0], x) then [x] + xs else [xs[0]] + InsertBy(x, xs[1..], before)
  }

  /** Sorts by a strict order; what it does not order stays as it was. */
  function SortBy<T>(xs: seq<T>, before: (T, T) -> bool): seq<T> {
    if xs == [] then [] else InsertBy(xs[0], SortBy(xs[1..], before), before)
  }

  ghost predicate WeakOrder<T(!new)>(before: (T, T) -> bool) {
    && (forall a, b :: before(a, b) ==> !before(b, a))
    && (forall a, b, c :: before(a, c) ==> before(a, b) || before(b, c))
  }

  ghost predicate SortedBy<T>(xs: seq<T>, before: (T, T) -> bool) {
    forall i, j | 0 <= i < j < |xs| :: !before(xs[j], xs[i])
  }

  lemma {:induction false} InsertByKeeps<T>(x: T, xs: seq<T>, before: (T, T) -> bool)
    ensures multiset(InsertBy(x, xs, before)) == multiset(xs) + multiset{x}
  {
    if xs != [] && before(xs[0], x) {
      InsertByKeeps(x, xs[1..], before);
      assert xs == [xs[0]] + xs[1..];
    }
  }

  lemma {:induction false} InsertByOrders<T(!new)>(x: T, xs: seq<T>, before: (T, T) -> bool)
    requires WeakOrder(before) && SortedBy(xs, before)
    ensures SortedBy(InsertBy(x, xs, before), before)
  {
    if xs != [] && before(xs[0], x) {
      var rest := InsertBy(x, xs[1..], before);
      InsertByOrders(x, xs[1..], before);
      InsertByKeeps(x, xs[1..], before);
      forall j | 0 <= j < |rest| ensures !before(rest[j], xs[0]) {
        assert rest[j] in multiset(rest);
        if rest[j] != x {
          assert rest[j] in xs[1..];
        }
      }
    }
  }

  /** Sorting loses nothing, invents nothing, and sorts. */
  lemma {:induction false} SortByKeeps<T(!new)>(xs: seq<T>, before: (T, T) -> bool)
    requires WeakOrder(before)
    ensures multiset(SortBy(xs, before)) == multiset(xs) && SortedBy(SortBy(xs, before), before)
  {
    if xs != [] {
      SortByKeeps(xs[1..], before);
      InsertByKeeps(xs[0], SortBy(xs[1..], before), before);
      InsertByOrders(xs[0], SortBy(xs[1..], before), before);
      assert xs == [xs[0]] + xs[1..];
    }
  }

  lemma SameElements<T(!new)>(xs: seq<T>, ys: seq<T>)
    requires multiset(xs) == multiset(ys)
    ensures |xs| == |ys| && forall x :: x in xs <==> x in ys
  {
    assert |multiset(xs)| == |multiset(ys)|;
    assert forall x :: x in multiset(xs) <==> x in xs;
  }

  // ---------------------------------------------------------------------------------
  // Runs of a machine
  // ---------------------------------------------------------------------------------

  /** The state after some steps. */
  function Fold<S, A>(step: (S, A) -> S, s: S, steps: seq<A>): S
    decreases |steps|
  {
    if steps == [] then s else Fold(step, step(s, steps[0]), steps[1..])
  }

  lemma {:induction false} FoldJoin<S, A>(step: (S, A) -> S, s: S, a: seq<A>, b: seq<A>)
    ensures Fold(step, s, a + b) == Fold(step, Fold(step, s, a), b)
    decreases |a|
  {
    if a == [] {
      assert a + b == b;
    } else {
      assert (a + b)[0] == a[0] && (a + b)[1..] == a[1..] + b;
      FoldJoin(step, step(s, a[0]), a[1..], b);
    }
  }

  lemma FoldThen<S, A>(step: (S, A) -> S, s: S, steps: seq<A>, a: A)
    ensures Fold(step, s, steps + [a]) == step(Fold(step, s, steps), a)
  {
    FoldJoin(step, s, steps, [a]);
    assert [a][1..] == [];
  }

  lemma FoldTwo<S, A>(step: (S, A) -> S, s: S, a: A, b: A)
    ensures Fold(step, s, [a, b]) == step(step(s, a), b)
  {
    FoldThen(step, s, [a], b);
    FoldThen(step, s, [], a);
    assert [a] + [b] == [a, b] && [] + [a] == [a];
  }

  lemma FoldFour<S, A>(step: (S, A) -> S, s0: S, s1: S, s2: S, s3: S, s4: S, a: seq<A>, b: seq<A>, c: seq<A>, d: seq<A>)
    requires Fold(step, s0, a) == s1 && Fold(step, s1, b) == s2 && Fold(step, s2, c) == s3 && Fold(step, s3, d) == s4
    ensures Fold(step, s0, a + (b + (c + d))) == s4
  {
    FoldJoin(step, s0, a, b + (c + d));
    FoldJoin(step, s1, b, c + d);
    FoldJoin(step, s2, c, d);
  }

  /** An invariant of each step is one of every run. */
  lemma {:induction false} FoldKeeps<S(!new), A(!new)>(step: (S, A) -> S, inv: S -> bool, s: S, steps: seq<A>)
    requires inv(s) && forall t, a :: inv(t) ==> inv(step(t, a))
    ensures inv(Fold(step, s, steps))
    decreases |steps|
  {
    if steps != [] {
      FoldKeeps(step, inv, step(s, steps[0]), steps[1..]);
    }
  }

  ghost predicate Reachable<S, A(!new)>(step: (S, A) -> S, first: S, s: S) {
    exists steps :: Fold(step, first, steps) == s
  }

  lemma FirstIsReachable<S, A(!new)>(step: (S, A) -> S, first: S)
    ensures Reachable(step, first, first)
  {
    assert Fold(step, first, []) == first;
  }

  lemma ReachStep<S, A(!new)>(step: (S, A) -> S, first: S, s: S, a: A)
    requires Reachable(step, first, s)
    ensures Reachable(step, first, step(s, a))
  {
    var steps :| Fold(step, first, steps) == s;
    FoldThen(step, first, steps, a);
  }
}
