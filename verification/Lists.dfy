/** Sequences used as specifications: folds, flattened maps, and the row-major
    enumeration of a box of indices.  The nested loops of the library visit
    boxes in row-major order, so their effect is a fold over such a list. */
module Lists {

  type Index = seq<nat>

  /** Left fold of `step` over the values `val(x)` of the listed keys. */
  function Fold<A, K, V>(step: (A, V) -> A, val: K -> V, acc: A, xs: seq<K>): A {
    if xs == [] then acc else Fold(step, val, step(acc, val(xs[0])), xs[1..])
  }

  lemma {:induction false} FoldAppend<A, K, V>(step: (A, V) -> A, val: K -> V, acc: A, xs: seq<K>, ys: seq<K>)
    ensures Fold(step, val, acc, xs + ys) == Fold(step, val, Fold(step, val, acc, xs), ys)
  {
    if xs == [] {
      assert xs + ys == ys;
    } else {
      assert (xs + ys)[1..] == xs[1..] + ys;
      FoldAppend(step, val, step(acc, val(xs[0])), xs[1..], ys);
    }
  }

  /** The order of two consecutive steps does not matter. */
  ghost predicate Commutes<A(!new), V(!new)>(step: (A, V) -> A) {
    forall a, u, v :: step(step(a, u), v) == step(step(a, v), u)
  }

  lemma {:induction false} FoldPullOut<A(!new), K, V(!new)>(step: (A, V) -> A, val: K -> V, acc: A, xs: seq<K>, k: nat)
    requires Commutes(step) && k < |xs|
    ensures Fold(step, val, acc, xs) == Fold(step, val, step(acc, val(xs[k])), xs[..k] + xs[k+1..])
  {
    if k == 0 {
      assert xs[..0] + xs[1..] == xs[1..];
    } else {
      var rest := xs[1..];
      FoldPullOut(step, val, step(acc, val(xs[0])), rest, k - 1);
      var ys := xs[..k] + xs[k+1..];
      assert ys[1..] == rest[..k-1] + rest[k..];
      assert step(step(acc, val(xs[0])), val(xs[k])) == step(step(acc, val(xs[k])), val(xs[0]));
    }
  }

  /** A fold whose steps commute depends only on the multiset of its keys. */
  lemma {:induction false} FoldPermutation<A(!new), K, V(!new)>(step: (A, V) -> A, val: K -> V, acc: A, xs: seq<K>,
                                                                ys: seq<K>)
    requires Commutes(step) && multiset(xs) == multiset(ys)
    ensures Fold(step, val, acc, xs) == Fold(step, val, acc, ys)
    decreases |xs|
  {
    assert |multiset(xs)| == |xs| && |multiset(ys)| == |ys|;
    if xs != [] {
      assert xs[0] in multiset(xs);
      assert xs[0] in ys;
      var k :| 0 <= k < |ys| && ys[k] == xs[0];
      FoldPullOut(step, val, acc, ys, k);
      assert multiset(xs[1..]) == multiset(ys[..k] + ys[k+1..]) by {
        assert xs == [xs[0]] + xs[1..];
        assert ys == ys[..k] + [ys[k]] + ys[k+1..];
        assert multiset(ys[..k] + ys[k+1..]) == multiset(ys) - multiset{xs[0]};
      }
      FoldPermutation(step, val, step(acc, val(xs[0])), xs[1..], ys[..k] + ys[k+1..]);
    }
  }

  function FlatMap<T, U>(f: T -> seq<U>, ts: seq<T>): seq<U> {
    if ts == [] then [] else f(ts[0]) + FlatMap(f, ts[1..])
  }

  lemma {:induction false} FlatMapAppend<T, U>(f: T -> seq<U>, ts: seq<T>, us: seq<T>)
    ensures FlatMap(f, ts + us) == FlatMap(f, ts) + FlatMap(f, us)
  {
    if ts == [] {
      assert ts + us == us;
    } else {
      assert (ts + us)[1..] == ts[1..] + us;
      FlatMapAppend(f, ts[1..], us);
    }
  }

  /** If only `t0` can produce `u`, then `u` occurs as often as `t0` is listed
      times as often as `t0` produces it. */
  lemma {:induction false} FlatMapCount<T, U>(f: T -> seq<U>, ts: seq<T>, u: U, t0: T)
    requires forall t | t in ts && t != t0 :: u !in f(t)
    ensures multiset(FlatMap(f, ts))[u] == multiset(ts)[t0] * multiset(f(t0))[u]
  {
    if ts != [] {
      var m, rest, k := multiset(ts)[t0], multiset(ts[1..])[t0], multiset(f(t0))[u];
      assert m == (if ts[0] == t0 then 1 else 0) + rest by {
        assert ts == [ts[0]] + ts[1..];
      }
      assert multiset(FlatMap(f, ts[1..]))[u] == rest * k by {
        FlatMapCount(f, ts[1..], u, t0);
      }
      assert multiset(f(ts[0]))[u] == if ts[0] == t0 then k else 0 by {
        if ts[0] != t0 { assert u !in f(ts[0]); }
      }
      CountOfAppend(f(ts[0]), FlatMap(f, ts[1..]), u);
      if ts[0] == t0 { OneMore(rest, k); }
    }
  }

  lemma CountOfAppend<U>(xs: seq<U>, ys: seq<U>, u: U)
    ensures multiset(xs + ys)[u] == multiset(xs)[u] + multiset(ys)[u]
  {}

  lemma OneMore(a: nat, k: nat)
    ensures (1 + a) * k == k + a * k
  {}

  /** Two lists in which every key occurs equally often are permutations. */
  lemma SameCounts<K>(xs: seq<K>, ys: seq<K>)
    requires forall x :: multiset(xs)[x] == multiset(ys)[x]
    ensures multiset(xs) == multiset(ys)
  {}

  // ---------------------------------------------------------------------
  // Boxes of indices

  /** All indices that extend `p` and stay in [start, stop), in row-major order. */
  ghost function Grid(p: Index, start: Index, stop: Index): seq<Index>
    requires |p| <= |start| == |stop|
    decreases |start| - |p|, 1, 0
  {
    if |p| == |start| then [p] else GridRow(p, start[|p|], start, stop)
  }

  /** The part of `Grid(p, start, stop)` whose next component is at least `i`. */
  ghost function GridRow(p: Index, i: nat, start: Index, stop: Index): seq<Index>
    requires |p| < |start| == |stop|
    decreases |start| - |p|, 0, if i < stop[|p|] then stop[|p|] - i else 0
  {
    if i >= stop[|p|] then [] else Grid(p + [i], start, stop) + GridRow(p, i + 1, start, stop)
  }

  ghost predicate InBox(start: Index, stop: Index, x: Index) {
    && |x| == |start| == |stop|
    && forall i | 0 <= i < |x| :: start[i] <= x[i] < stop[i]
  }

  /** Components from `d` on are inside the box. */
  ghost predicate InBoxFrom(start: Index, stop: Index, x: Index, d: nat) {
    && |x| == |start| == |stop|
    && forall i | d <= i < |x| :: start[i] <= x[i] < stop[i]
  }

  lemma {:induction false} GridCount(p: Index, start: Index, stop: Index, x: Index)
    requires |p| <= |start| == |stop|
    ensures multiset(Grid(p, start, stop))[x] ==
            if p <= x && InBoxFrom(start, stop, x, |p|) then 1 else 0
    decreases |start| - |p|, 1, 0
  {
    if |p| == |start| {
      if |x| == |p| && p <= x { assert x == p; }
    } else {
      GridRowCount(p, start[|p|], start, stop, x);
    }
  }

  lemma {:induction false} GridRowCount(p: Index, i: nat, start: Index, stop: Index, x: Index)
    requires |p| < |start| == |stop|
    ensures multiset(GridRow(p, i, start, stop))[x] ==
            if p <= x && InBoxFrom(start, stop, x, |p| + 1) && i <= x[|p|] < stop[|p|] then 1 else 0
    decreases |start| - |p|, 0, if i < stop[|p|] then stop[|p|] - i else 0
  {
    if i < stop[|p|] {
      GridCount(p + [i], start, stop, x);
      GridRowCount(p, i + 1, start, stop, x);
      if |x| == |start| && p <= x {
        assert p + [i] <= x <==> x[|p|] == i;
      }
      assert p + [i] <= x ==> p <= x;
    }
  }

  // How a loop over one dimension walks through a box

  lemma GridStart(p: Index, start: Index, stop: Index)
    requires |p| < |start| == |stop|
    ensures [] + GridRow(p, start[|p|], start, stop) == Grid(p, start, stop)
  {}

  lemma GridNext(p: Index, i: nat, start: Index, stop: Index, done: seq<Index>)
    requires |p| < |start| == |stop| && i < stop[|p|]
    requires done + GridRow(p, i, start, stop) == Grid(p, start, stop)
    ensures done + Grid(p + [i], start, stop) + GridRow(p, i + 1, start, stop) == Grid(p, start, stop)
  {
    var row, rest := Grid(p + [i], start, stop), GridRow(p, i + 1, start, stop);
    assert GridRow(p, i, start, stop) == row + rest;
    hide Grid, GridRow;
    Regroup(done, row, rest);
  }

  lemma Regroup<T>(a: seq<T>, b: seq<T>, c: seq<T>)
    ensures a + (b + c) == a + b + c
  {}

  lemma GridStop(p: Index, i: nat, start: Index, stop: Index)
    requires |p| < |start| == |stop| && i >= stop[|p|]
    ensures GridRow(p, i, start, stop) == []
  {}

  lemma GridEnd(p: Index, start: Index, stop: Index)
    requires |p| == |start| == |stop|
    ensures Grid(p, start, stop) == [p]
  {}

  /** A box lists each of its indices exactly once and nothing else. */
  lemma BoxCount(start: Index, stop: Index, x: Index)
    requires |start| == |stop|
    ensures multiset(Grid([], start, stop))[x] == if InBox(start, stop, x) then 1 else 0
  {
    GridCount([], start, stop, x);
  }

  /** Over a box, if only `t0` can produce `u`, only `t0` counts. */
  lemma BoxFlatMapCount<U>(f: Index -> seq<U>, start: Index, stop: Index, u: U, t0: Index)
    requires |start| == |stop|
    requires forall t | t != t0 :: u !in f(t)
    ensures multiset(FlatMap(f, Grid([], start, stop)))[u] ==
            if InBox(start, stop, t0) then multiset(f(t0))[u] else 0
  {
    var grid := Grid([], start, stop);
    assert forall t | t in grid && t != t0 :: u !in f(t);
    FlatMapCount(f, grid, u, t0);
    BoxCount(start, stop, t0);
    NoneOrOne(multiset(grid)[t0], multiset(f(t0))[u]);
  }

  lemma NoneOrOne(a: nat, k: nat)
    requires a <= 1
    ensures a * k == if a == 1 then k else 0
  {}
}
