/** Reducing several axes one after another (iarray_reduce_multi in
    src/reductions/iarray_reduce.c): duplicate axes are dropped, and after each
    pass the later axis numbers are shifted in place. */
module MultiAxis {
  import opened Lists
  import opened Layout
  import opened Geometry
  import opened Axes
  import opened OneShotSpec
  import opened AxisReduce
  import opened Errors

  /** A commutative monoid, as sums, products, minima and maxima are. */
  ghost predicate Monoid<V(!new)>(op: (V, V) -> V, unit: V) {
    && (forall a, b :: op(a, b) == op(b, a))
    && (forall a, b, c :: op(op(a, b), c) == op(a, op(b, c)))
    && (forall a :: op(a, unit) == a)
  }

  function Plain<V>(op: (V, V) -> V, unit: V): UFunc<V, V> {
    UFunc(unit, op, v => v)
  }

  lemma MonoidCommutes<V(!new)>(op: (V, V) -> V, unit: V)
    requires Monoid(op, unit)
    ensures Commutes(op)
  {
    forall a, u, v ensures op(op(a, u), v) == op(op(a, v), u) {
      assert op(op(a, u), v) == op(a, op(u, v));
      assert op(op(a, v), u) == op(a, op(v, u));
      assert op(u, v) == op(v, u);
    }
  }

  lemma {:induction false} FoldFromUnit<K, V(!new)>(op: (V, V) -> V, unit: V, val: K -> V, acc: V, xs: seq<K>)
    requires Monoid(op, unit)
    ensures Fold(op, val, acc, xs) == op(acc, Fold(op, val, unit, xs))
    decreases |xs|
  {
    if xs != [] {
      var v, rest := val(xs[0]), xs[1..];
      FoldFromUnit(op, unit, val, op(acc, v), rest);
      FoldFromUnit(op, unit, val, op(unit, v), rest);
      assert op(unit, v) == op(v, unit) == v;
      assert op(op(acc, v), Fold(op, val, unit, rest)) == op(acc, op(v, Fold(op, val, unit, rest)));
    }
  }

  /** Folding the folds of the parts is folding everything. */
  lemma {:induction false} FoldOfFolds<K, T, V(!new)>(op: (V, V) -> V, unit: V, val: K -> V, f: T -> seq<K>,
                                                      part: T -> V, acc: V, ts: seq<T>)
    requires Monoid(op, unit)
    requires forall t | t in ts :: part(t) == Fold(op, val, unit, f(t))
    ensures Fold(op, part, acc, ts) == Fold(op, val, acc, FlatMap(f, ts))
    decreases |ts|
  {
    if ts != [] {
      FoldFromUnit(op, unit, val, acc, f(ts[0]));
      FoldOfFolds(op, unit, val, f, part, op(acc, part(ts[0])), ts[1..]);
      FoldAppend(op, val, acc, f(ts[0]), FlatMap(f, ts[1..]));
    }
  }

  // ---------------------------------------------------------------------
  // What each pass does to the values it has folded

  /** What a pass over an axis of extent n does to its fold: nothing for sums and
      extremes, the division by n for a mean. */
  type Finish<!V> = (nat, V) -> V

  /** The finish passes through the operation, whatever the extent. */
  ghost predicate Distributes<V(!new)>(op: (V, V) -> V, unit: V, fin: Finish<V>) {
    && (forall n: nat :: fin(n, unit) == unit)
    && (forall n: nat, a, b :: fin(n, op(a, b)) == op(fin(n, a), fin(n, b)))
  }

  predicate AxesOf(shape: seq<nat>, axes: seq<nat>) { forall j | 0 <= j < |axes| :: axes[j] < |shape| }

  /** The finishes of the passes over `axes`, one after another. */
  function FinishAll<V>(fin: Finish<V>, shape: seq<nat>, axes: seq<nat>, v: V): V
    requires AxesOf(shape, axes)
  {
    if axes == [] then v else
      var last := |axes| - 1;
      fin(shape[axes[last]], FinishAll(fin, shape, axes[..last], v))
  }

  lemma {:induction false} FinishAllDistributes<V(!new)>(op: (V, V) -> V, unit: V, fin: Finish<V>, shape: seq<nat>,
                                                         axes: seq<nat>, a: V, b: V)
    requires Distributes(op, unit, fin) && AxesOf(shape, axes)
    ensures FinishAll(fin, shape, axes, unit) == unit
    ensures FinishAll(fin, shape, axes, op(a, b)) == op(FinishAll(fin, shape, axes, a), FinishAll(fin, shape, axes, b))
    decreases |axes|
  {
    if axes != [] {
      FinishAllDistributes(op, unit, fin, shape, axes[..|axes| - 1], a, b);
    }
  }

  /** Folding finished values is finishing the fold. */
  lemma {:induction false} FoldOfFinished<K, V(!new)>(op: (V, V) -> V, unit: V, fin: Finish<V>, shape: seq<nat>,
                                                      axes: seq<nat>, val: K -> V, part: K -> V, acc: V, xs: seq<K>)
    requires Distributes(op, unit, fin) && AxesOf(shape, axes)
    requires forall x | x in xs :: part(x) == FinishAll(fin, shape, axes, val(x))
    ensures Fold(op, part, FinishAll(fin, shape, axes, acc), xs) == FinishAll(fin, shape, axes, Fold(op, val, acc, xs))
    decreases |xs|
  {
    if xs != [] {
      var v := val(xs[0]);
      FinishAllDistributes(op, unit, fin, shape, axes, acc, v);
      hide Distributes, FinishAll;
      FoldOfFinished(op, unit, fin, shape, axes, val, part, op(acc, v), xs[1..]);
    }
  }

  // ---------------------------------------------------------------------
  // Axis numbers

  /** The number of axis `b` once the axes in `reduced` are gone. */
  function Rank(reduced: seq<bool>, b: nat): nat
    requires b <= |reduced|
  {
    Kept(reduced[..b])
  }

  lemma {:induction false} KeptAppend(r: seq<bool>, x: bool)
    ensures Kept(r + [x]) == Kept(r) + if x then 0 else 1
  {
    if r == [] {
      assert r + [x] == [x];
    } else {
      assert (r + [x])[1..] == r[1..] + [x];
      KeptAppend(r[1..], x);
    }
  }

  /** Kept axes keep their order, and reducing `a` moves exactly the later ones
      down by one: the in-place renumbering. */
  lemma {:induction false} RankAfter(reduced: seq<bool>, a: nat, b: nat)
    requires a < |reduced| && b <= |reduced| && !reduced[a]
    ensures Rank(reduced, a) < Rank(reduced, b) <==> a < b
    ensures Rank(reduced[a := true], b) == Rank(reduced, b) - if a < b then 1 else 0
    decreases b
  {
    var r' := reduced[a := true];
    if b <= a {
      assert r'[..b] == reduced[..b];
      RankMonotone(reduced, b, a);
    } else {
      assert reduced[..b] == reduced[..b-1] + [reduced[b-1]];
      assert r'[..b] == r'[..b-1] + [r'[b-1]];
      KeptAppend(reduced[..b-1], reduced[b-1]);
      KeptAppend(r'[..b-1], r'[b-1]);
      RankAfter(reduced, a, b - 1);
      RankMonotone(reduced, a, b - 1);
    }
  }

  lemma {:induction false} RankMonotone(reduced: seq<bool>, a: nat, b: nat)
    requires a <= b <= |reduced|
    ensures Rank(reduced, a) <= Rank(reduced, b)
    decreases b
  {
    if a < b {
      assert reduced[..b] == reduced[..b-1] + [reduced[b-1]];
      KeptAppend(reduced[..b-1], reduced[b-1]);
      RankMonotone(reduced, a, b - 1);
    }
  }

  /** The renumbered axis addresses the original one. */
  lemma {:induction false} ProjectAtRank(x: seq<nat>, reduced: seq<bool>, a: nat)
    requires |x| == |reduced| && a < |x| && !reduced[a]
    ensures Rank(reduced, a) < Kept(reduced) && Project(x, reduced)[Rank(reduced, a)] == x[a]
    ensures Remove(Project(x, reduced), Rank(reduced, a)) == Project(x, reduced[a := true])
  {
    var p, r := Project(x[1..], reduced[1..]), Rank(reduced, a);
    if a == 0 {
      assert Project(x, reduced) == [x[0]] + p;
      assert reduced[0 := true][1..] == reduced[1..];
      assert Remove([x[0]] + p, 0) == p;
    } else {
      ProjectAtRank(x[1..], reduced[1..], a - 1);
      assert reduced[..a][1..] == reduced[1..][..a-1];
      assert reduced[a := true][1..] == reduced[1..][a-1 := true];
      if !reduced[0] {
        assert Remove([x[0]] + p, r) == [x[0]] + Remove(p, r - 1);
      }
    }
  }

  // ---------------------------------------------------------------------
  // One more pass

  lemma {:induction false} AxisRunCount(y: Index, r: nat, from: nat, to: nat, z: Index)
    requires r <= |y|
    ensures multiset(AxisRun(y, r, from, to))[z] ==
            if |z| == |y| + 1 && Remove(z, r) == y && from <= z[r] < to then 1 else 0
    decreases if from < to then to - from else 0
  {
    if from < to {
      AxisRunCount(y, r, from + 1, to, z);
      assert z == Insert(y, r, from) <==> |z| == |y| + 1 && Remove(z, r) == y && z[r] == from by {
        RemoveInsert(y, r, from);
        if |z| == |y| + 1 && Remove(z, r) == y && z[r] == from { InsertRemove(z, r); }
      }
    }
  }

  lemma RemoveInsert(y: Index, r: nat, k: nat)
    requires r <= |y|
    ensures Remove(Insert(y, r, k), r) == y && Insert(y, r, k)[r] == k
  {}

  lemma InsertRemove(z: Index, r: nat)
    requires r < |z|
    ensures Insert(Remove(z, r), r, z[r]) == z
  {
    var y := Remove(z, r);
    forall i | 0 <= i < |z| ensures Insert(y, r, z[r])[i] == z[i] {
      if i > r { assert y[i-1] == z[i]; }
    }
  }

  ghost function MatchingFn(shape: seq<nat>, reduced: seq<bool>): Index -> seq<Index>
    requires |shape| == |reduced|
  {
    y => Matching(shape, reduced, y)
  }

  /** Everything that collapses onto `y'` once axis `a` is reduced too, collected
      pass by pass, is what collapses onto `y'` directly. */
  lemma OneMoreAxisCount(shape: seq<nat>, reduced: seq<bool>, a: nat, y': Index, x: Index)
    requires |shape| == |reduced| && a < |shape| && !reduced[a]
    requires |y'| == Kept(reduced[a := true]) && Rank(reduced, a) <= |y'|
    ensures multiset(FlatMap(MatchingFn(shape, reduced), AxisRun(y', Rank(reduced, a), 0, shape[a])))[x] ==
            multiset(Matching(shape, reduced[a := true], y'))[x]
  {
    hide Project, Kept, Remove, Insert, Matching, AxisRun, FlatMap, Rank;
    var f, r, reduced' := MatchingFn(shape, reduced), Rank(reduced, a), reduced[a := true];
    var run := AxisRun(y', r, 0, shape[a]);
    MatchingCount(shape, reduced', y', x);
    var z := if |x| == |reduced| then Project(x, reduced) else [];
    forall t | t != z ensures x !in f(t) {
      MatchingCount(shape, reduced, t, x);
    }
    FlatMapCount(f, run, x, z);
    MatchingCount(shape, reduced, z, x);
    AxisRunCount(y', r, 0, shape[a], z);
    if InShape(shape, x) {
      ProjectAtRank(x, reduced, a);
      ProjectAtRank(shape, reduced, a);
      NoneOrOne(multiset(run)[z], 1);
    } else {
      NoneOrOne(multiset(run)[z], 0);
    }
  }

  /** The plain array after the passes over the axes in `reduced`. */
  ghost function Partial<V>(op: (V, V) -> V, unit: V, val: Index -> V, shape: seq<nat>, reduced: seq<bool>): Index -> V
    requires |shape| == |reduced|
  {
    y => Fold(op, val, unit, Matching(shape, reduced, y))
  }

  /** One more pass: the fold along the renumbered axis of the partial result is
      the partial result with that original axis reduced as well. */
  lemma OneMoreAxis<V(!new)>(op: (V, V) -> V, unit: V, val: Index -> V, shape: seq<nat>, reduced: seq<bool>, a: nat,
                             y': Index)
    requires Monoid(op, unit)
    requires |shape| == |reduced| && a < |shape| && !reduced[a]
    requires |y'| == Kept(reduced[a := true]) && Rank(reduced, a) <= |y'|
    ensures Fold(op, Partial(op, unit, val, shape, reduced), unit, AxisRun(y', Rank(reduced, a), 0, shape[a])) ==
            Partial(op, unit, val, shape, reduced[a := true])(y')
  {
    hide Project, Kept, Matching, AxisRun, FlatMap, Rank, Fold, Monoid;
    var f := MatchingFn(shape, reduced);
    var run := AxisRun(y', Rank(reduced, a), 0, shape[a]);
    FoldOfFolds(op, unit, val, f, Partial(op, unit, val, shape, reduced), unit, run);
    var xs, ys := FlatMap(f, run), Matching(shape, reduced[a := true], y');
    forall x ensures multiset(xs)[x] == multiset(ys)[x] {
      OneMoreAxisCount(shape, reduced, a, y', x);
    }
    SameCounts(xs, ys);
    MonoidCommutes(op, unit);
    FoldPermutation(op, val, unit, xs, ys);
  }

  /** The array after the passes over `axes`: partial folds, finished once per pass. */
  ghost function Passed<V>(op: (V, V) -> V, unit: V, fin: Finish<V>, val: Index -> V, shape: seq<nat>,
                           axes: seq<nat>): Index -> V
    requires AxesOf(shape, axes)
  {
    y => FinishAll(fin, shape, axes, Partial(op, unit, val, shape, AxisMask(|shape|, axes))(y))
  }

  /** One more pass over an array that has been through some: the finish of the
      fold along the renumbered axis is the array after the longer list. */
  lemma OneMorePass<V(!new)>(op: (V, V) -> V, unit: V, fin: Finish<V>, val: Index -> V, shape: seq<nat>,
                             axes: seq<nat>, a: nat, y': Index)
    requires Monoid(op, unit) && Distributes(op, unit, fin)
    requires AxesOf(shape, axes) && a < |shape| && !AxisMask(|shape|, axes)[a]
    requires |y'| == Kept(AxisMask(|shape|, axes)[a := true]) && Rank(AxisMask(|shape|, axes), a) <= |y'|
    ensures AxesOf(shape, axes + [a])
    ensures fin(shape[a], Fold(op, Passed(op, unit, fin, val, shape, axes), unit,
                               AxisRun(y', Rank(AxisMask(|shape|, axes), a), 0, shape[a]))) ==
            Passed(op, unit, fin, val, shape, axes + [a])(y')
  {
    var reduced := AxisMask(|shape|, axes);
    assert AxisMask(|shape|, axes + [a]) == reduced[a := true];
    assert AxesOf(shape, axes + [a]);
    hide *;
    var run := AxisRun(y', Rank(reduced, a), 0, shape[a]);
    var part := Partial(op, unit, val, shape, reduced);
    FinishAllDistributes(op, unit, fin, shape, axes, unit, unit);
    forall x | x in run ensures Passed(op, unit, fin, val, shape, axes)(x) == FinishAll(fin, shape, axes, part(x)) {
      PassedAt(op, unit, fin, val, shape, axes, x);
    }
    FoldOfFinished(op, unit, fin, shape, axes, part, Passed(op, unit, fin, val, shape, axes), unit, run);
    OneMoreAxis(op, unit, val, shape, reduced, a, y');
    PassedAt(op, unit, fin, val, shape, axes + [a], y');
    OneMoreFinish(fin, shape, axes, a, Fold(op, part, unit, run));
  }

  lemma PassedAt<V>(op: (V, V) -> V, unit: V, fin: Finish<V>, val: Index -> V, shape: seq<nat>, axes: seq<nat>,
                    y: Index)
    requires AxesOf(shape, axes)
    ensures Passed(op, unit, fin, val, shape, axes)(y) ==
            FinishAll(fin, shape, axes, Partial(op, unit, val, shape, AxisMask(|shape|, axes))(y))
  {
    hide FinishAll, Partial, AxisMask;
  }

  lemma OneMoreFinish<V>(fin: Finish<V>, shape: seq<nat>, axes: seq<nat>, a: nat, v: V)
    requires AxesOf(shape, axes) && a < |shape|
    ensures AxesOf(shape, axes + [a])
    ensures FinishAll(fin, shape, axes + [a], v) == fin(shape[a], FinishAll(fin, shape, axes, v))
  {
    assert (axes + [a])[..|axes|] == axes;
  }

  /** Before any pass the partial result is the array itself. */
  lemma NoAxisYet<V(!new)>(op: (V, V) -> V, unit: V, val: Index -> V, shape: seq<nat>, reduced: seq<bool>, y: Index)
    requires Monoid(op, unit) && |shape| == |reduced| && InShape(shape, y)
    requires forall i | 0 <= i < |reduced| :: !reduced[i]
    ensures Partial(op, unit, val, shape, reduced)(y) == val(y)
  {
    var ys := Matching(shape, reduced, y);
    forall x ensures multiset(ys)[x] == multiset([y])[x] {
      MatchingCount(shape, reduced, y, x);
      if |x| == |reduced| { ProjectNothing(x, reduced); }
    }
    SameCounts(ys, [y]);
    MonoidCommutes(op, unit);
    FoldPermutation(op, val, unit, ys, [y]);
    assert [y][1..] == [];
    assert op(unit, val(y)) == op(val(y), unit);
  }

  lemma {:induction false} ProjectNothing(x: seq<nat>, reduced: seq<bool>)
    requires |x| == |reduced| && forall i | 0 <= i < |reduced| :: !reduced[i]
    ensures Project(x, reduced) == x
  {
    if x != [] {
      forall i | 0 <= i < |reduced[1..]| ensures !reduced[1..][i] {
        assert reduced[i+1] == reduced[1..][i];
      }
      ProjectNothing(x[1..], reduced[1..]);
    }
  }

  // ---------------------------------------------------------------------
  // iarray_reduce_multi

  /** The axes named in `axis`, as a mask over `n` dimensions. */
  function AxisMask(n: nat, axis: seq<nat>): (m: seq<bool>)
    ensures |m| == n
  {
    seq(n, i => i in axis)
  }

  /** The list without the later occurrences of an axis. */
  function Dedup(axis: seq<nat>): seq<nat> {
    if axis == [] then [] else
      var init, last := axis[..|axis| - 1], axis[|axis| - 1];
      if last in init then Dedup(init) else Dedup(init) + [last]
  }

  ghost predicate Distinct(s: seq<nat>) {
    forall i, j | 0 <= i < j < |s| :: s[i] != s[j]
  }

  lemma {:induction false} DedupKeepsAxes(axis: seq<nat>, a: nat)
    ensures a in Dedup(axis) <==> a in axis
    decreases |axis|
  {
    if axis != [] {
      var init, last := axis[..|axis| - 1], axis[|axis| - 1];
      assert axis == init + [last];
      DedupKeepsAxes(init, a);
    }
  }

  lemma DedupKeepsAll(axis: seq<nat>)
    ensures forall a :: a in Dedup(axis) <==> a in axis
  {
    forall a ensures a in Dedup(axis) <==> a in axis {
      DedupKeepsAxes(axis, a);
    }
  }

  lemma {:induction false} DedupDistinct(axis: seq<nat>)
    ensures Distinct(Dedup(axis))
    decreases |axis|
  {
    if axis != [] {
      var init, last := axis[..|axis| - 1], axis[|axis| - 1];
      DedupDistinct(init);
      DedupKeepsAxes(init, last);
    }
  }

  lemma DedupNext(axis: seq<nat>, i: nat)
    requires i < |axis|
    ensures axis[..i+1] == axis[..i] + [axis[i]]
    ensures Dedup(axis[..i+1]) == if axis[i] in axis[..i] then Dedup(axis[..i]) else Dedup(axis[..i]) + [axis[i]]
  {
    assert axis[..i+1][..i] == axis[..i];
  }

  /** The check and de-duplication of the axis list. */
  method CollectAxes(ndim: nat, axis: seq<nat>) returns (r: Result<seq<nat>>)
    ensures r.Success? <==> |axis| <= ndim && forall a | a in axis :: a <= ndim
    ensures r.Failure? ==> r.error == InvalidAxis
    ensures r.Success? ==> r.value == Dedup(axis) && Distinct(r.value) && forall a :: a in r.value <==> a in axis
  {
    if |axis| > ndim {
      return Failure(InvalidAxis);
    }
    var axisNew: seq<nat> := [];
    var used := seq(ndim + 1, _ => false);
    assert axis[..0] == [] && Dedup([]) == [];
    hide Dedup, Distinct;
    for i := 0 to |axis|
      invariant axisNew == Dedup(axis[..i]) && |used| == ndim + 1
      invariant forall a | a in axis[..i] :: a <= ndim
      invariant forall a | 0 <= a <= ndim :: used[a] <==> a in axis[..i]
    {
      DedupNext(axis, i);
      if axis[i] > ndim {
        assert axis[i] in axis;
        return Failure(InvalidAxis);
      } else if used[axis[i]] {
        continue;
      }
      axisNew := axisNew + [axis[i]];
      used := used[axis[i] := true];
    }
    assert axis[..|axis|] == axis;
    DedupDistinct(axis);
    DedupKeepsAll(axis);
    return Success(axisNew);
  }

  /** Padding slots hold `zero`. */
  ghost predicate Padded<V>(st: Stored<V>, zero: V)
    requires st.WellFormed()
  {
    forall c, b, t | InShape(st.geom.ChunksShape(), c) && InShape(st.geom.BlocksShape(), b) &&
      InShape(st.geom.blockshape, t) && !st.geom.Inside(c, b, t) :: st.Slot(c, b, t) == zero
  }

  /** The array after one more pass, and its geometry. */
  method OnePass<V(0, !new)>(cur: Stored<V>, op: (V, V) -> V, unit: V, fin: Finish<V>, ghost val: Index -> V, zero: V,
                             ghost g: Geometry, ghost axes: seq<nat>, ghost a: nat, r: nat)
    returns (next: Stored<V>)
    requires Monoid(op, unit) && Distributes(op, unit, fin)
    requires g.Valid() && AxesOf(g.shape, axes) && a < |g.shape|
    requires !AxisMask(|g.shape|, axes)[a] && r == Rank(AxisMask(|g.shape|, axes), a)
    requires cur.WellFormed() && cur.geom == ProjectGeometry(g, AxisMask(|g.shape|, axes))
    requires cur.Holds(Passed(op, unit, fin, val, g.shape, axes))
    ensures AxesOf(g.shape, axes + [a])
    ensures next.WellFormed() && next.geom == ProjectGeometry(g, AxisMask(|g.shape|, axes)[a := true])
    ensures next.Holds(Passed(op, unit, fin, val, g.shape, axes + [a])) && Padded(next, zero)
  {
    hide Stored.Holds, Passed, Fold, AxisRun, Project, Kept, Remove, Rank, Stored.At, Monoid, Distributes;
    hide Stored.WellFormed;
    hide AxisMask;
    ghost var reduced := AxisMask(|g.shape|, axes);
    ProjectAtRank(g.shape, reduced, a);
    ProjectAtRank(g.chunkshape, reduced, a);
    ProjectAtRank(g.blockshape, reduced, a);
    var n := cur.geom.shape[r];
    next := ReduceAxis(cur, UFunc(unit, op, v => fin(n, v)), Passed(op, unit, fin, val, g.shape, axes), zero, r);
    forall y | InShape(next.geom.shape, y)
      ensures AxesOf(g.shape, axes + [a]) && next.At(y) == Passed(op, unit, fin, val, g.shape, axes + [a])(y)
    {
      OneMorePass(op, unit, fin, val, g.shape, axes, a, y);
    }
    HoldsIs(next, Passed(op, unit, fin, val, g.shape, axes + [a]));
  }

  lemma HoldsIs<V>(st: Stored<V>, val: Index -> V)
    requires st.WellFormed() && forall y | InShape(st.geom.shape, y) :: st.At(y) == val(y)
    ensures st.Holds(val)
  {}

  /** The reduction over `axes` in one go, finished once for every axis. */
  function Finishing<V>(op: (V, V) -> V, unit: V, fin: Finish<V>, shape: seq<nat>, axes: seq<nat>): UFunc<V, V>
    requires AxesOf(shape, axes)
  {
    UFunc(unit, op, v => FinishAll(fin, shape, axes, v))
  }

  /** Main result: the passes over the axes, renumbered in place, leave the same
      array as reducing all the named axes at once, finished for each axis once,
      and the padding holds `zero`. */
  method ReduceMulti<V(0, !new)>(input: Stored<V>, op: (V, V) -> V, unit: V, fin: Finish<V>, ghost val: Index -> V,
                                 zero: V, axis: seq<nat>)
    returns (r: Result<Stored<V>>)
    requires Monoid(op, unit) && Distributes(op, unit, fin)
    requires input.WellFormed() && input.Holds(val)
    requires |axis| > 0 && input.geom.Ndim() !in axis
    ensures r.Success? <==> |axis| <= input.geom.Ndim() && forall a | a in axis :: a < input.geom.Ndim()
    ensures r.Failure? ==> r.error == InvalidAxis
    ensures r.Success? ==>
              var reduced, axes := AxisMask(input.geom.Ndim(), axis), Dedup(axis);
              && AxesOf(input.geom.shape, axes)
              && r.value.WellFormed() && r.value.geom == ProjectGeometry(input.geom, reduced)
              && Padded(r.value, zero)
              && forall y | InShape(r.value.geom.shape, y) ::
                   r.value.At(y) ==
                   PlainReduce(Finishing(op, unit, fin, input.geom.shape, axes), val, input.geom.shape, reduced, y)
  {
    var n := input.geom.Ndim();
    var axes := CollectAxes(n, axis);
    if axes.Failure? {
      return Failure(axes.error);
    }
    forall j | 0 <= j < |axes.value| ensures axes.value[j] < n {
      assert axes.value[j] in axes.value;
    }
    assert axis[0] in axes.value;
    var cur := RunPasses(input, op, unit, fin, val, zero, axes.value);
    assert AxisMask(n, axes.value) == AxisMask(n, axis);
    hide Dedup, Distinct, Monoid, Distributes, AxisMask, Padded;
    FinishMulti(cur, op, unit, fin, val, input.geom, axes.value);
    return Success(cur);
  }

  method CopyAxes(axes: seq<nat>) returns (axisNew: array<nat>)
    ensures fresh(axisNew) && axisNew.Length == |axes| && forall j | 0 <= j < |axes| :: axisNew[j] == axes[j]
  {
    axisNew := new nat[|axes|];
    for i := 0 to |axes|
      invariant forall j | 0 <= j < i :: axisNew[j] == axes[j]
    {
      axisNew[i] := axes[i];
    }
  }

  /** The loop over the axes. */
  method RunPasses<V(0, !new)>(input: Stored<V>, op: (V, V) -> V, unit: V, fin: Finish<V>, ghost val: Index -> V,
                               zero: V, axes: seq<nat>)
    returns (cur: Stored<V>)
    requires Monoid(op, unit) && Distributes(op, unit, fin)
    requires input.WellFormed() && input.Holds(val)
    requires Distinct(axes) && AxesOf(input.geom.shape, axes)
    ensures cur.WellFormed() && cur.geom == ProjectGeometry(input.geom, AxisMask(input.geom.Ndim(), axes))
    ensures cur.Holds(Passed(op, unit, fin, val, input.geom.shape, axes)) && (axes != [] ==> Padded(cur, zero))
  {
    assert input.geom.Valid();
    hide Stored.Holds, Passed, Partial, Matching, Stored.WellFormed, Stored.At, Project, Padded;
    hide Kept, Rank, Monoid, Distributes, Fold, AxisMask, ProjectGeometry, Distinct, Geometry.Valid, Positive, InShape;
    var n := input.geom.Ndim();
    ghost var g := input.geom;
    var axisNew := CopyAxes(axes);
    cur := input;
    StartMulti(input, op, unit, fin, val, axes);
    assert axes[..0] == [];
    for i := 0 to |axes|
      invariant AxesOf(g.shape, axes[..i])
      invariant cur.WellFormed() && cur.geom == ProjectGeometry(g, AxisMask(n, axes[..i]))
      invariant i > 0 ==> Padded(cur, zero)
      invariant cur.Holds(Passed(op, unit, fin, val, g.shape, axes[..i]))
      invariant forall j | i <= j < |axes| :: axisNew[j] == Rank(AxisMask(n, axes[..i]), axes[j])
    {
      MaskGrows(n, axes, i);
      cur := OnePass(cur, op, unit, fin, val, zero, g, axes[..i], axes[i], axisNew[i]);
      Renumber(axisNew, i, AxisMask(n, axes[..i]), axes);
    }
    WholeList(axes);
  }

  lemma WholeList<T>(s: seq<T>)
    ensures s[..|s|] == s
  {}

  lemma MaskGrows(n: nat, axes: seq<nat>, i: nat)
    requires Distinct(axes) && i < |axes| && axes[i] < n
    ensures axes[..i+1] == axes[..i] + [axes[i]] && !AxisMask(n, axes[..i])[axes[i]]
    ensures AxisMask(n, axes[..i+1]) == AxisMask(n, axes[..i])[axes[i] := true]
  {
    assert axes[i] !in axes[..i];
    assert axes[..i+1] == axes[..i] + [axes[i]];
  }

  /** axis_new[j]-- for every later axis that lies above the reduced one. */
  method Renumber(axisNew: array<nat>, i: nat, ghost reduced: seq<bool>, ghost list: seq<nat>)
    requires i < axisNew.Length == |list| && Distinct(list)
    requires forall j | 0 <= j < |list| :: list[j] < |reduced|
    requires !reduced[list[i]] && forall j | i <= j < |list| :: axisNew[j] == Rank(reduced, list[j])
    modifies axisNew
    ensures forall j | i < j < |list| :: axisNew[j] == Rank(reduced[list[i] := true], list[j])
  {
    hide Rank;
    ghost var a := list[i];
    for j := i + 1 to axisNew.Length
      invariant axisNew[i] == Rank(reduced, a)
      invariant forall k | i < k < j :: axisNew[k] == Rank(reduced[a := true], list[k])
      invariant forall k | j <= k < |list| :: axisNew[k] == Rank(reduced, list[k])
    {
      RankAfter(reduced, a, list[j]);
      if axisNew[j] > axisNew[i] {
        axisNew[j] := axisNew[j] - 1;
      }
    }
  }

  lemma StartMulti<V(!new)>(input: Stored<V>, op: (V, V) -> V, unit: V, fin: Finish<V>, val: Index -> V, list: seq<nat>)
    requires Monoid(op, unit) && input.WellFormed() && input.Holds(val) && AxesOf(input.geom.shape, list)
    ensures var reduced := AxisMask(input.geom.Ndim(), []);
            && input.geom == ProjectGeometry(input.geom, reduced)
            && forall j | 0 <= j < |list| :: Rank(reduced, list[j]) == list[j]
    ensures input.Holds(Passed(op, unit, fin, val, input.geom.shape, []))
  {
    var reduced := AxisMask(input.geom.Ndim(), []);
    ProjectNothing(input.geom.shape, reduced);
    ProjectNothing(input.geom.chunkshape, reduced);
    ProjectNothing(input.geom.blockshape, reduced);
    forall y | InShape(input.geom.shape, y)
      ensures input.At(y) == Passed(op, unit, fin, val, input.geom.shape, [])(y)
    {
      NoAxisYet(op, unit, val, input.geom.shape, reduced, y);
    }
    forall j | 0 <= j < |list| ensures Rank(reduced, list[j]) == list[j] {
      RankNothing(reduced, list[j]);
    }
  }

  lemma {:induction false} RankNothing(reduced: seq<bool>, b: nat)
    requires b <= |reduced| && forall i | 0 <= i < |reduced| :: !reduced[i]
    ensures Rank(reduced, b) == b
    decreases b
  {
    if b > 0 {
      RankNothing(reduced, b - 1);
      assert reduced[..b] == reduced[..b-1] + [reduced[b-1]];
      KeptAppend(reduced[..b-1], reduced[b-1]);
    }
  }

  lemma FinishMulti<V(!new)>(cur: Stored<V>, op: (V, V) -> V, unit: V, fin: Finish<V>, val: Index -> V, g: Geometry,
                             axes: seq<nat>)
    requires cur.WellFormed() && g.Valid() && AxesOf(g.shape, axes)
    requires cur.Holds(Passed(op, unit, fin, val, g.shape, axes))
    ensures forall y | InShape(cur.geom.shape, y) ::
              cur.At(y) == PlainReduce(Finishing(op, unit, fin, g.shape, axes), val, g.shape,
                  AxisMask(|g.shape|, axes), y)
  {
    hide Passed, Finishing, PlainReduce, AxisMask, Stored.At;
    forall y | InShape(cur.geom.shape, y)
      ensures cur.At(y) == PlainReduce(Finishing(op, unit, fin, g.shape, axes), val, g.shape,
              AxisMask(|g.shape|, axes), y)
    {
      PassedIsReduced(op, unit, fin, val, g.shape, axes, y);
    }
  }

  lemma PassedIsReduced<V>(op: (V, V) -> V, unit: V, fin: Finish<V>, val: Index -> V, shape: seq<nat>, axes: seq<nat>,
                           y: Index)
    requires AxesOf(shape, axes)
    ensures Passed(op, unit, fin, val, shape, axes)(y) ==
            PlainReduce(Finishing(op, unit, fin, shape, axes), val, shape, AxisMask(|shape|, axes), y)
  {
    var reduced := AxisMask(|shape|, axes);
    var folded := Fold(op, val, unit, Matching(shape, reduced, y));
    assert Partial(op, unit, val, shape, reduced)(y) == folded;
    PassedAt(op, unit, fin, val, shape, axes, y);
    hide FinishAll, AxisMask, Fold, Matching, Passed, Partial;
    var uf := Finishing(op, unit, fin, shape, axes);
    assert PlainReduce(uf, val, shape, reduced, y) == uf.finish(folded);
  }

  // ---------------------------------------------------------------------
  // The reductions that go through the loop

  /** Sums, products, extremes and the boolean reductions leave the fold alone. */
  function NoFinish<V>(): Finish<V> { (n: nat, v) => v }

  /** MEAN multiplies by the inverse of the extent of the axis. */
  function MeanFinish(): Finish<real> { (n: nat, v: real) => v * Inverse(n) }

  /** An empty axis has no mean; the divisor there is left at 1. */
  function Divisor(n: nat): (d: real)
    ensures d != 0.0
  {
    if n == 0 then 1.0 else n as real
  }

  function Inverse(n: nat): real { 1.0 / Divisor(n) }

  function Add(): (real, real) -> real { (a: real, b: real) => a + b }

  lemma NoFinishDistributes<V(!new)>(op: (V, V) -> V, unit: V)
    ensures Distributes(op, unit, NoFinish())
  {
    var fin := NoFinish<V>();
    forall n: nat, a, b ensures fin(n, op(a, b)) == op(fin(n, a), fin(n, b)) {
      assert fin(n, a) == a && fin(n, b) == b;
    }
  }

  lemma {:induction false} NoFinishAll<V>(shape: seq<nat>, axes: seq<nat>, v: V)
    requires AxesOf(shape, axes)
    ensures FinishAll(NoFinish(), shape, axes, v) == v
    decreases |axes|
  {
    if axes != [] { NoFinishAll(shape, axes[..|axes| - 1], v); }
  }

  /** Without a finish the loop is the plain reduction over all axes. */
  lemma PlainPasses<V(!new)>(op: (V, V) -> V, unit: V, val: Index -> V, shape: seq<nat>, axes: seq<nat>, y: Index)
    requires AxesOf(shape, axes)
    ensures PlainReduce(Finishing(op, unit, NoFinish(), shape, axes), val, shape, AxisMask(|shape|, axes), y) ==
            PlainReduce(Plain(op, unit), val, shape, AxisMask(|shape|, axes), y)
  {
    NoFinishAll(shape, axes, Fold(op, val, unit, Matching(shape, AxisMask(|shape|, axes), y)));
  }

  lemma Spread(a: real, b: real, c: real)
    ensures (a + b) * c == a * c + b * c && 0.0 * c == 0.0
  {}

  lemma MeanIsMonoid()
    ensures Monoid(Add(), 0.0) && Distributes(Add(), 0.0, MeanFinish())
  {
    forall n: nat, a: real, b: real
      ensures MeanFinish()(n, Add()(a, b)) == Add()(MeanFinish()(n, a), MeanFinish()(n, b))
    {
      Spread(a, b, Inverse(n));
    }
    forall n: nat ensures MeanFinish()(n, 0.0) == 0.0 {
      Spread(0.0, 0.0, Inverse(n));
    }
  }

  /** The factor of the one-shot mean: 1 divided by one extent after another. */
  function InverseOf(shape: seq<nat>, axes: seq<nat>): real
    requires AxesOf(shape, axes)
  {
    if axes == [] then 1.0 else
      var last := |axes| - 1;
      var n := shape[axes[last]];
      InverseOf(shape, axes[..last]) / Divisor(n)
  }

  lemma {:induction false} MeansMultiply(shape: seq<nat>, axes: seq<nat>, v: real)
    requires AxesOf(shape, axes)
    ensures FinishAll(MeanFinish(), shape, axes, v) == v * InverseOf(shape, axes)
    decreases |axes|
  {
    if axes != [] {
      var init, n := axes[..|axes| - 1], shape[axes[|axes| - 1]];
      MeansMultiply(shape, init, v);
      LastMean(shape, axes, v);
      hide *;
      Regroup(v, InverseOf(shape, init), Divisor(n));
    }
  }

  lemma LastMean(shape: seq<nat>, axes: seq<nat>, v: real)
    requires AxesOf(shape, axes) && axes != []
    ensures var init, n := axes[..|axes| - 1], shape[axes[|axes| - 1]];
            && AxesOf(shape, init)
            && FinishAll(MeanFinish(), shape, axes, v) == FinishAll(MeanFinish(), shape, init, v) * (1.0 / Divisor(n))
            && InverseOf(shape, axes) == InverseOf(shape, init) / Divisor(n)
  {
    hide Divisor;
  }

  lemma Regroup(v: real, a: real, d: real)
    requires d != 0.0
    ensures v * a * (1.0 / d) == v * (a / d)
  {}

  /** The one-shot mean. */
  function OneShotMean(shape: seq<nat>, axes: seq<nat>): UFunc<real, real>
    requires AxesOf(shape, axes)
  {
    UFunc(0.0, Add(), v => v * InverseOf(shape, axes))
  }

  /** The mean of means, pass by pass, is the one-shot mean over all the axes. */
  lemma MeanOfMeans(val: Index -> real, shape: seq<nat>, axes: seq<nat>, y: Index)
    requires AxesOf(shape, axes)
    ensures PlainReduce(Finishing(Add(), 0.0, MeanFinish(), shape, axes), val, shape, AxisMask(|shape|, axes), y) ==
            PlainReduce(OneShotMean(shape, axes), val, shape, AxisMask(|shape|, axes), y)
  {
    MeansMultiply(shape, axes, Fold(Add(), val, 0.0, Matching(shape, AxisMask(|shape|, axes), y)));
  }

  // ---------------------------------------------------------------------
  // A mean times the number of its items is their sum

  /** How many items collapse onto one when these axes are reduced. */
  function ItemsOver(shape: seq<nat>, axes: seq<nat>): nat
    requires AxesOf(shape, axes)
  {
    if axes == [] then 1 else ItemsOver(shape, axes[..|axes| - 1]) * shape[axes[|axes| - 1]]
  }

  ghost function RealSum<K>(val: K -> real, xs: seq<K>): real {
    if xs == [] then 0.0 else val(xs[0]) + RealSum(val, xs[1..])
  }

  lemma {:induction false} FoldIsSum<K>(val: K -> real, acc: real, xs: seq<K>)
    ensures Fold(Add(), val, acc, xs) == acc + RealSum(val, xs)
    decreases |xs|
  {
    if xs != [] { FoldIsSum(val, acc + val(xs[0]), xs[1..]); }
  }

  /** The factor of the one-shot mean is the inverse of the number of items. */
  lemma {:induction false} InverseTimesItems(shape: seq<nat>, axes: seq<nat>)
    requires AxesOf(shape, axes) && forall j | 0 <= j < |axes| :: shape[axes[j]] > 0
    ensures InverseOf(shape, axes) * ItemsOver(shape, axes) as real == 1.0
    decreases |axes|
  {
    if axes != [] {
      var init, n := axes[..|axes| - 1], shape[axes[|axes| - 1]];
      InverseTimesItems(shape, init);
      assert InverseOf(shape, axes) == InverseOf(shape, init) / n as real;
      assert ItemsOver(shape, axes) as real == ItemsOver(shape, init) as real * n as real;
      hide *;
      Cancel(InverseOf(shape, init), ItemsOver(shape, init) as real, n as real);
    }
  }

  lemma Cancel(a: real, b: real, n: real)
    requires n != 0.0
    ensures (a / n) * (b * n) == a * b
  {}

  lemma {:induction false} FlatMapLength<T, U>(f: T -> seq<U>, ts: seq<T>, n: nat)
    requires forall t | t in ts :: |f(t)| == n
    ensures |FlatMap(f, ts)| == |ts| * n
  {
    if ts != [] {
      FlatMapLength(f, ts[1..], n);
      OneMore(|ts[1..]|, n);
    }
  }

  lemma {:induction false} AxisRunInShape(s: seq<nat>, y: Index, r: nat, from: nat, to: nat)
    requires r < |s| && InShape(Remove(s, r), y) && to <= s[r]
    ensures |AxisRun(y, r, from, to)| == if from < to then to - from else 0
    ensures forall t | t in AxisRun(y, r, from, to) :: InShape(s, t)
    decreases if from < to then to - from else 0
  {
    assert r <= |y|;
    if from < to {
      InsertInShape(s, r, y, from);
      hide Insert, Remove, InShape;
      AxisRunInShape(s, y, r, from + 1, to);
    }
  }

  /** As many coordinates match an output coordinate as the reduced extents have
      items. */
  lemma {:induction false} MatchingLength(shape: seq<nat>, axes: seq<nat>, y: Index)
    requires AxesOf(shape, axes) && Distinct(axes) && InShape(Project(shape, AxisMask(|shape|, axes)), y)
    ensures |Matching(shape, AxisMask(|shape|, axes), y)| == ItemsOver(shape, axes)
    decreases |axes|
  {
    if axes == [] {
      OneMatch(shape, y);
    } else {
      var init, a := axes[..|axes| - 1], axes[|axes| - 1];
      var reduced := AxisMask(|shape|, init);
      MaskGrows(|shape|, axes, |init|);
      assert axes[..|axes|] == axes;
      assert reduced[a := true] == AxisMask(|shape|, axes);
      hide AxisMask, Project, Kept, Matching, AxisRun, Rank, Distinct, InShape, Remove, Insert, FlatMap;
      var r := Rank(reduced, a);
      ProjectAtRank(shape, reduced, a);
      var f, run := MatchingFn(shape, reduced), AxisRun(y, r, 0, shape[a]);
      ShapeLength(Project(shape, AxisMask(|shape|, axes)), y);
      AxisRunInShape(Project(shape, reduced), y, r, 0, shape[a]);
      forall t | t in run ensures |f(t)| == ItemsOver(shape, init) {
        DistinctInit(axes);
        MatchingLength(shape, init, t);
      }
      FlatMapLength(f, run, ItemsOver(shape, init));
      SameMatches(shape, reduced, a, y);
      assert |run| == shape[a];
      Commute(shape[a], ItemsOver(shape, init));
    }
  }

  lemma ShapeLength(s: seq<nat>, y: Index)
    requires InShape(s, y)
    ensures |y| == |s|
  {}

  lemma DistinctInit(axes: seq<nat>)
    requires Distinct(axes) && axes != []
    ensures Distinct(axes[..|axes| - 1])
  {}

  lemma Commute(a: nat, b: nat)
    ensures a * b == b * a
  {}

  lemma OneMatch(shape: seq<nat>, y: Index)
    requires InShape(Project(shape, AxisMask(|shape|, [])), y)
    ensures |Matching(shape, AxisMask(|shape|, []), y)| == 1
  {
    var reduced := AxisMask(|shape|, []);
    ProjectNothing(shape, reduced);
    var ys := Matching(shape, reduced, y);
    forall x ensures multiset(ys)[x] == multiset([y])[x] {
      MatchingCount(shape, reduced, y, x);
      if |x| == |reduced| { ProjectNothing(x, reduced); }
    }
    SameCounts(ys, [y]);
    assert |ys| == |multiset(ys)| == |multiset([y])| == 1;
  }

  lemma SameMatches(shape: seq<nat>, reduced: seq<bool>, a: nat, y: Index)
    requires |shape| == |reduced| && a < |shape| && !reduced[a]
    requires |y| == Kept(reduced[a := true]) && Rank(reduced, a) <= |y|
    ensures |Matching(shape, reduced[a := true], y)| ==
            |FlatMap(MatchingFn(shape, reduced), AxisRun(y, Rank(reduced, a), 0, shape[a]))|
  {
    hide Project, Kept, Matching, AxisRun, FlatMap, Rank;
    var xs := FlatMap(MatchingFn(shape, reduced), AxisRun(y, Rank(reduced, a), 0, shape[a]));
    var ys := Matching(shape, reduced[a := true], y);
    forall x ensures multiset(xs)[x] == multiset(ys)[x] {
      OneMoreAxisCount(shape, reduced, a, y, x);
    }
    SameCounts(xs, ys);
    assert |xs| == |multiset(xs)| == |multiset(ys)| == |ys|;
  }

  lemma {:induction false} SomeItems(shape: seq<nat>, axes: seq<nat>)
    requires AxesOf(shape, axes) && forall j | 0 <= j < |axes| :: shape[axes[j]] > 0
    ensures ItemsOver(shape, axes) > 0
    decreases |axes|
  {
    if axes != [] { SomeItems(shape, axes[..|axes| - 1]); }
  }

  /** `v` is the mean of these items: times their number it is their sum. */
  ghost predicate IsMean(v: real, val: Index -> real, xs: seq<Index>) {
    |xs| > 0 && v * |xs| as real == RealSum(val, xs)
  }

  /** The one-shot mean is the mean of all the items that collapse onto `y`. */
  lemma MeanTimesItems(val: Index -> real, shape: seq<nat>, axes: seq<nat>, y: Index)
    requires AxesOf(shape, axes) && Distinct(axes) && InShape(Project(shape, AxisMask(|shape|, axes)), y)
    requires forall j | 0 <= j < |axes| :: shape[axes[j]] > 0
    ensures |Matching(shape, AxisMask(|shape|, axes), y)| == ItemsOver(shape, axes)
    ensures IsMean(PlainReduce(OneShotMean(shape, axes), val, shape, AxisMask(|shape|, axes), y), val,
                   Matching(shape, AxisMask(|shape|, axes), y))
  {
    hide Fold, Matching, Project, AxisMask, Distinct, InShape, PlainReduce, OneShotMean, RealSum, IsMean, InverseOf;
    hide ItemsOver, Add, FlatMap, Grid;
    MatchingLength(shape, axes, y);
    InverseTimesItems(shape, axes);
    SomeItems(shape, axes);
    FoldIsSum(val, 0.0, Matching(shape, AxisMask(|shape|, axes), y));
    MeanIs(val, shape, axes, y);
    MeanOf(PlainReduce(OneShotMean(shape, axes), val, shape, AxisMask(|shape|, axes), y), InverseOf(shape, axes), val,
           Matching(shape, AxisMask(|shape|, axes), y));
  }

  lemma MeanOf(v: real, inverse: real, val: Index -> real, xs: seq<Index>)
    requires |xs| > 0 && v == (0.0 + RealSum(val, xs)) * inverse && inverse * |xs| as real == 1.0
    ensures IsMean(v, val, xs)
  {
    hide RealSum;
    Unscale(RealSum(val, xs), inverse, |xs| as real);
  }

  lemma MeanIs(val: Index -> real, shape: seq<nat>, axes: seq<nat>, y: Index)
    requires AxesOf(shape, axes)
    ensures PlainReduce(OneShotMean(shape, axes), val, shape, AxisMask(|shape|, axes), y) ==
            Fold(Add(), val, 0.0, Matching(shape, AxisMask(|shape|, axes), y)) * InverseOf(shape, axes)
  {
    hide Fold, Matching, AxisMask, InverseOf, Add;
  }

  lemma Unscale(s: real, a: real, b: real)
    requires a * b == 1.0
    ensures (s * a) * b == s
  {
    assert (s * a) * b == s * (a * b);
  }

  /** Reducing with an operation that needs no finish. */
  method ReducePlain<V(0, !new)>(input: Stored<V>, op: (V, V) -> V, unit: V, ghost val: Index -> V, zero: V,
                                 axis: seq<nat>)
    returns (r: Result<Stored<V>>)
    requires Monoid(op, unit) && input.WellFormed() && input.Holds(val)
    requires |axis| > 0 && input.geom.Ndim() !in axis
    ensures r.Success? <==> |axis| <= input.geom.Ndim() && forall a | a in axis :: a < input.geom.Ndim()
    ensures r.Success? ==>
              var reduced := AxisMask(input.geom.Ndim(), axis);
              && r.value.WellFormed() && r.value.geom == ProjectGeometry(input.geom, reduced)
              && Padded(r.value, zero)
              && forall y | InShape(r.value.geom.shape, y) ::
                   r.value.At(y) == PlainReduce(Plain(op, unit), val, input.geom.shape, reduced, y)
  {
    NoFinishDistributes(op, unit);
    hide Monoid, Distributes, AxisMask, PlainReduce, Finishing, Plain, NoFinish, Dedup, Padded;
    r := ReduceMulti(input, op, unit, NoFinish(), val, zero, axis);
    if r.Success? {
      SameMask(input.geom.Ndim(), axis);
      forall y | InShape(r.value.geom.shape, y)
        ensures r.value.At(y) == PlainReduce(Plain(op, unit), val, input.geom.shape,
                AxisMask(input.geom.Ndim(), axis), y)
      {
        PlainPasses(op, unit, val, input.geom.shape, Dedup(axis), y);
      }
    }
  }

  lemma SameMask(n: nat, axis: seq<nat>)
    ensures AxisMask(n, Dedup(axis)) == AxisMask(n, axis)
  {
    forall a | 0 <= a < n ensures a in Dedup(axis) <==> a in axis {
      DedupKeepsAxes(axis, a);
    }
  }

  lemma DedupExtents(shape: seq<nat>, axis: seq<nat>)
    requires AxesOf(shape, Dedup(axis)) && forall a | a in axis :: a < |shape| && shape[a] > 0
    ensures forall j | 0 <= j < |Dedup(axis)| :: shape[Dedup(axis)[j]] > 0
  {
    forall j | 0 <= j < |Dedup(axis)| ensures shape[Dedup(axis)[j]] > 0 {
      DedupKeepsAxes(axis, Dedup(axis)[j]);
    }
  }

  lemma MeansAreMeans(st: Stored<real>, val: Index -> real, shape: seq<nat>, axis: seq<nat>)
    requires AxesOf(shape, Dedup(axis)) && forall a | a in axis :: a < |shape| && shape[a] > 0
    requires st.WellFormed() && st.geom.shape == Project(shape, AxisMask(|shape|, axis))
    requires forall y | InShape(st.geom.shape, y) ::
               st.At(y) == PlainReduce(OneShotMean(shape, Dedup(axis)), val, shape, AxisMask(|shape|, axis), y)
    ensures forall y | InShape(st.geom.shape, y) :: IsMean(st.At(y), val, Matching(shape, AxisMask(|shape|, axis), y))
  {
    SameMask(|shape|, axis);
    DedupDistinct(axis);
    DedupExtents(shape, axis);
    hide *;
    forall y | InShape(st.geom.shape, y) ensures IsMean(st.At(y), val, Matching(shape, AxisMask(|shape|, axis), y)) {
      MeanTimesItems(val, shape, Dedup(axis), y);
    }
  }

  /** MEAN, axis by axis, is the one-shot mean over all the axes: each element
      times the number of the items averaged is their sum. */
  method ReduceMean(input: Stored<real>, ghost val: Index -> real, axis: seq<nat>) returns (r: Result<Stored<real>>)
    requires input.WellFormed() && input.Holds(val)
    requires |axis| > 0 && input.geom.Ndim() !in axis
    ensures r.Success? <==> |axis| <= input.geom.Ndim() && forall a | a in axis :: a < input.geom.Ndim()
    ensures r.Success? && (forall a | a in axis :: input.geom.shape[a] > 0) ==>
              var reduced, axes := AxisMask(input.geom.Ndim(), axis), Dedup(axis);
              && AxesOf(input.geom.shape, axes)
              && r.value.WellFormed() && r.value.geom == ProjectGeometry(input.geom, reduced)
              && (forall y | InShape(r.value.geom.shape, y) ::
                    r.value.At(y) ==
                    PlainReduce(OneShotMean(input.geom.shape, axes), val, input.geom.shape, reduced, y))
              && (forall y | InShape(r.value.geom.shape, y) ::
                    IsMean(r.value.At(y), val, Matching(input.geom.shape, reduced, y)))
  {
    MeanIsMonoid();
    hide Monoid, Distributes, AxisMask, PlainReduce, Finishing, OneShotMean, MeanFinish, Add, Dedup, IsMean, Matching;
    r := ReduceMulti(input, Add(), 0.0, MeanFinish(), val, 0.0, axis);
    if r.Success? {
      SameMask(input.geom.Ndim(), axis);
      forall y | InShape(r.value.geom.shape, y)
        ensures r.value.At(y) == PlainReduce(OneShotMean(input.geom.shape, Dedup(axis)), val, input.geom.shape,
                                             AxisMask(input.geom.Ndim(), axis), y)
      {
        MeanOfMeans(val, input.geom.shape, Dedup(axis), y);
      }
      if forall a | a in axis :: input.geom.shape[a] > 0 {
        MeansAreMeans(r.value, val, input.geom.shape, axis);
      }
    }
  }
}
