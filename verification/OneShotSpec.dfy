/** What a one-shot reduction visits (src/reductions/iarray_reduce_oneshot.c):
    for every output item the list of input coordinates its step function is
    applied to, and the proof that this list is right. */
module OneShotSpec {
  import opened Lists
  import opened Layout
  import opened Geometry
  import opened Axes

  /** The reduction operation: value before, one step, value after. */
  datatype UFunc<!A, !V> = UFunc(init: A, step: (A, V) -> A, finish: A -> A)

  /** The coordinate of item `t` of block `b` of chunk `c`, unless it is padding. */
  ghost function ItemFn(g: Geometry, c: Index, b: Index): Index -> seq<Index>
    requires g.Valid() && |c| == |b| == |g.shape|
  {
    t => if |t| == |g.shape| && g.Inside(c, b, t) then [g.Compose(c, b, t)] else []
  }

  ghost function ItemsOf(g: Geometry, c: Index, b: Index, lo: Index, hi: Index): seq<Index>
    requires g.Valid() && |c| == |b| == |g.shape| == |lo| == |hi|
  {
    FlatMap(ItemFn(g, c, b), Grid([], lo, hi))
  }

  ghost function BlockFn(g: Geometry, c: Index, lo: Index, hi: Index): Index -> seq<Index>
    requires g.Valid() && |c| == |g.shape| == |lo| == |hi|
  {
    b => if |b| == |g.shape| then ItemsOf(g, c, b, lo, hi) else []
  }

  ghost function BlocksOf(g: Geometry, c: Index, blo: Index, bhi: Index, lo: Index, hi: Index): seq<Index>
    requires g.Valid() && |c| == |g.shape| == |lo| == |hi| == |blo| == |bhi|
  {
    FlatMap(BlockFn(g, c, lo, hi), Grid([], blo, bhi))
  }

  ghost function ChunkFn(g: Geometry, blo: Index, bhi: Index, lo: Index, hi: Index): Index -> seq<Index>
    requires g.Valid() && |g.shape| == |lo| == |hi| == |blo| == |bhi|
  {
    c => if |c| == |g.shape| then BlocksOf(g, c, blo, bhi, lo, hi) else []
  }

  /** Everything visited for one output item, in order: chunk by chunk, block by
      block, item by item. */
  ghost function ChunksOf(g: Geometry, clo: Index, chi: Index, blo: Index, bhi: Index, lo: Index, hi: Index): seq<Index>
    requires g.Valid() && |g.shape| == |lo| == |hi| == |blo| == |bhi| == |clo| == |chi|
  {
    FlatMap(ChunkFn(g, blo, bhi, lo, hi), Grid([], clo, chi))
  }

  lemma ItemsCount(g: Geometry, c: Index, b: Index, lo: Index, hi: Index, x: Index)
    requires g.Valid() && |c| == |b| == |g.shape| == |lo| == |hi|
    ensures multiset(ItemsOf(g, c, b, lo, hi))[x] ==
            if InShape(g.shape, x) && g.ChunkOf(x) == c && g.BlockOf(x) == b && InBox(lo, hi, g.ItemOf(x)) then 1 else 0
  {
    var f := ItemFn(g, c, b);
    var t0 := if |x| == |g.shape| then g.ItemOf(x) else [];
    forall t | x in f(t)
      ensures InShape(g.shape, x) && c == g.ChunkOf(x) && b == g.BlockOf(x) && t == t0
    {
      SplitUnique(g, c, b, t);
    }
    BoxFlatMapCount(f, lo, hi, x, t0);
    if InShape(g.shape, x) && g.ChunkOf(x) == c && g.BlockOf(x) == b {
      Split(g, x);
      assert f(t0) == [x];
    } else {
      assert x !in f(t0);
    }
  }

  lemma BlocksCount(g: Geometry, c: Index, blo: Index, bhi: Index, lo: Index, hi: Index, x: Index)
    requires g.Valid() && |c| == |g.shape| == |lo| == |hi| == |blo| == |bhi|
    ensures multiset(BlocksOf(g, c, blo, bhi, lo, hi))[x] ==
            if InShape(g.shape, x) && g.ChunkOf(x) == c && InBox(blo, bhi, g.BlockOf(x)) && InBox(lo, hi, g.ItemOf(x))
            then 1 else 0
  {
    var f := BlockFn(g, c, lo, hi);
    var b0 := if |x| == |g.shape| then g.BlockOf(x) else [];
    forall b | b != b0 ensures x !in f(b) {
      if |b| == |g.shape| { ItemsCount(g, c, b, lo, hi, x); }
    }
    BoxFlatMapCount(f, blo, bhi, x, b0);
    if |b0| == |g.shape| { ItemsCount(g, c, b0, lo, hi, x); }
  }

  lemma ChunksCount(g: Geometry, clo: Index, chi: Index, blo: Index, bhi: Index, lo: Index, hi: Index, x: Index)
    requires g.Valid() && |g.shape| == |lo| == |hi| == |blo| == |bhi| == |clo| == |chi|
    ensures multiset(ChunksOf(g, clo, chi, blo, bhi, lo, hi))[x] ==
            if InShape(g.shape, x) && InBox(clo, chi, g.ChunkOf(x)) && InBox(blo, bhi, g.BlockOf(x)) &&
                InBox(lo, hi, g.ItemOf(x))
            then 1 else 0
  {
    var f := ChunkFn(g, blo, bhi, lo, hi);
    var c0 := if |x| == |g.shape| then g.ChunkOf(x) else [];
    forall c | c != c0 ensures x !in f(c) {
      if |c| == |g.shape| { BlocksCount(g, c, blo, bhi, lo, hi, x); }
    }
    BoxFlatMapCount(f, clo, chi, x, c0);
    if |c0| == |g.shape| { BlocksCount(g, c0, blo, bhi, lo, hi, x); }
  }

  /** The coordinates visited for item `oi` of block `ob` of chunk `oc` of the output. */
  ghost function Visited(g: Geometry, reduced: seq<bool>, oc: Index, ob: Index, oi: Index): seq<Index>
    requires g.Valid() && |reduced| == |g.shape| && |oc| == |ob| == |oi| == Kept(reduced)
  {
    ChunksOf(g, Lower(oc, reduced), Upper(oc, g.ChunksShape(), reduced),
             Lower(ob, reduced), Upper(ob, g.BlocksShape(), reduced),
             Lower(oi, reduced), Upper(oi, g.blockshape, reduced))
  }

  /** Main result about the traversal: for the item that holds output coordinate
      `y`, the recursion visits exactly the input coordinates that agree with `y`
      on the kept axes, each exactly once, and never a padding item. */
  lemma VisitedExactlyOnce(g: Geometry, reduced: seq<bool>, y: Index, x: Index)
    requires g.Valid() && |reduced| == |g.shape|
    requires var og := ProjectGeometry(g, reduced); og.Valid() && InShape(og.shape, y)
    ensures var og := ProjectGeometry(g, reduced);
            multiset(Visited(g, reduced, og.ChunkOf(y), og.BlockOf(y), og.ItemOf(y)))[x] ==
            if InShape(g.shape, x) && Project(x, reduced) == y then 1 else 0
  {
    var og := ProjectGeometry(g, reduced);
    var oc, ob, oi := og.ChunkOf(y), og.BlockOf(y), og.ItemOf(y);
    ChunksCount(g, Lower(oc, reduced), Upper(oc, g.ChunksShape(), reduced),
                Lower(ob, reduced), Upper(ob, g.BlocksShape(), reduced),
                Lower(oi, reduced), Upper(oi, g.blockshape, reduced), x);
    if InShape(g.shape, x) {
      BoxMatches(oc, g.ChunksShape(), reduced, g.ChunkOf(x));
      BoxMatches(ob, g.BlocksShape(), reduced, g.BlockOf(x));
      BoxMatches(oi, g.blockshape, reduced, g.ItemOf(x));
      Split(g, x);
      ProjectSplit(g, reduced, x);
      SplitDetermines(og, Project(x, reduced), y);
    }
  }

  /** A coordinate is determined by its split. */
  lemma SplitDetermines(g: Geometry, x: Index, y: Index)
    requires g.Valid() && |x| == |y| == |g.shape|
    ensures x == y <==> g.ChunkOf(x) == g.ChunkOf(y) && g.BlockOf(x) == g.BlockOf(y) && g.ItemOf(x) == g.ItemOf(y)
  {
    if g.ChunkOf(x) == g.ChunkOf(y) && g.BlockOf(x) == g.BlockOf(y) && g.ItemOf(x) == g.ItemOf(y) {
      forall i | 0 <= i < |x| ensures x[i] == y[i] {
        var C, B := g.chunkshape[i], g.blockshape[i];
        assert g.ChunkOf(x)[i] == g.ChunkOf(y)[i] && g.BlockOf(x)[i] == g.BlockOf(y)[i] &&
            g.ItemOf(x)[i] == g.ItemOf(y)[i];
        SplitOne(x[i], x[i] / C, (x[i] % C) / B, (x[i] % C) % B, C, B);
        SplitOne(y[i], x[i] / C, (x[i] % C) / B, (x[i] % C) % B, C, B);
      }
    }
  }

  // ---------------------------------------------------------------------
  // The plain reduction

  /** The coordinates of a plain array of shape `shape`, row-major, that project onto `y`. */
  ghost function MatchFn(reduced: seq<bool>, y: Index): Index -> seq<Index> {
    x => if |x| == |reduced| && Project(x, reduced) == y then [x] else []
  }

  ghost function Zeros(n: nat): (z: Index)
    ensures |z| == n && forall i | 0 <= i < n :: z[i] == 0
  {
    seq(n, _ => 0)
  }

  ghost function Matching(shape: seq<nat>, reduced: seq<bool>, y: Index): seq<Index>
    requires |shape| == |reduced|
  {
    FlatMap(MatchFn(reduced, y), Grid([], Zeros(|shape|), shape))
  }

  lemma MatchingCount(shape: seq<nat>, reduced: seq<bool>, y: Index, x: Index)
    requires |shape| == |reduced|
    ensures multiset(Matching(shape, reduced, y))[x] ==
            if InShape(shape, x) && Project(x, reduced) == y then 1 else 0
  {
    var f := MatchFn(reduced, y);
    forall t | t != x ensures x !in f(t) {}
    BoxFlatMapCount(f, Zeros(|shape|), shape, x, x);
    assert InBox(Zeros(|shape|), shape, x) <==> InShape(shape, x);
  }

  /** The reduction of the plain array `val` at output coordinate `y`. */
  ghost function PlainReduce<A, V>(uf: UFunc<A, V>, val: Index -> V, shape: seq<nat>, reduced: seq<bool>, y: Index): A
    requires |shape| == |reduced|
  {
    uf.finish(Fold(uf.step, val, uf.init, Matching(shape, reduced, y)))
  }

  /** For a step whose order does not matter, the blocked traversal computes the
      plain row-major reduction. */
  lemma BlockedIsPlain<A(!new), V(!new)>(uf: UFunc<A, V>, val: Index -> V, g: Geometry, reduced: seq<bool>, y: Index)
    requires Commutes(uf.step) && g.Valid() && |reduced| == |g.shape|
    requires var og := ProjectGeometry(g, reduced); og.Valid() && InShape(og.shape, y)
    ensures var og := ProjectGeometry(g, reduced);
            uf.finish(Fold(uf.step, val, uf.init, Visited(g, reduced, og.ChunkOf(y), og.BlockOf(y), og.ItemOf(y)))) ==
            PlainReduce(uf, val, g.shape, reduced, y)
  {
    var og := ProjectGeometry(g, reduced);
    var xs := Visited(g, reduced, og.ChunkOf(y), og.BlockOf(y), og.ItemOf(y));
    var ys := Matching(g.shape, reduced, y);
    forall x ensures multiset(xs)[x] == multiset(ys)[x] {
      VisitedExactlyOnce(g, reduced, y, x);
      MatchingCount(g.shape, reduced, y, x);
    }
    SameCounts(xs, ys);
    FoldPermutation(uf.step, val, uf.init, xs, ys);
  }
}
