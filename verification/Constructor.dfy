/** Building an array element by element while its chunks are compressed
    (src/constructors/), and the windows the zarr proxy computes for the same
    blocks by another formula (src/iarray_zproxy.c). */
module Constructor {
  import opened Lists
  import opened Arith
  import opened Layout
  import opened Geometry
  import opened BlockIter

  // ---------------------------------------------------------------------
  // The visible part of a block

  /** Along one dimension: what of block `b` of chunk `c` lies in the chunk and the array. */
  function VisibleLen(S: nat, C: nat, B: nat, c: nat, b: nat): nat {
    var start := Pos(C, B, c, b, 0);
    var chunkStop := ChunkStop(S, C, c);
    if start >= chunkStop then 0 else if start + B > chunkStop then chunkStop - start else B
  }

  function BlockStart(g: Geometry, c: Index, b: Index): (s: Index)
    requires g.Valid() && |c| == |b| == |g.shape|
    ensures |s| == |g.shape| && forall i | 0 <= i < |s| :: s[i] == Pos(g.chunkshape[i], g.blockshape[i], c[i], b[i], 0)
  {
    seq(|g.shape|, i requires 0 <= i < |g.shape| => Pos(g.chunkshape[i], g.blockshape[i], c[i], b[i], 0))
  }

  function VisibleShape(g: Geometry, c: Index, b: Index): (w: seq<nat>)
    requires g.Valid() && |c| == |b| == |g.shape|
    ensures |w| == |g.shape|
    ensures forall i | 0 <= i < |w| :: w[i] == VisibleLen(g.shape[i], g.chunkshape[i], g.blockshape[i], c[i], b[i])
  {
    seq(|g.shape|, i requires 0 <= i < |g.shape| => VisibleLen(g.shape[i], g.chunkshape[i], g.blockshape[i], c[i],
        b[i]))
  }

  lemma VisibleOne(S: nat, C: nat, B: nat, c: nat, b: nat, t: nat)
    ensures t < VisibleLen(S, C, B, c, b) <==> t < B && InChunk(B, b, t) < C && Pos(C, B, c, b, t) < S
  {}

  /** An item is visible exactly when it is padding neither of its chunk nor of the array. */
  lemma VisibleIsInside(g: Geometry, c: Index, b: Index, t: Index)
    requires g.Valid() && |c| == |b| == |g.shape|
    ensures InShape(VisibleShape(g, c, b), t) <==> g.Inside(c, b, t)
    ensures InShape(VisibleShape(g, c, b), t) ==>
            InShape(g.blockshape, t) && Plus(BlockStart(g, c, b), t) == g.Compose(c, b, t)
  {
    if |t| == |g.shape| {
      forall i | 0 <= i < |t|
        ensures t[i] < VisibleShape(g, c, b)[i] <==>
                t[i] < g.blockshape[i] && InChunk(g.blockshape[i], b[i], t[i]) < g.chunkshape[i] &&
                Pos(g.chunkshape[i], g.blockshape[i], c[i], b[i], t[i]) < g.shape[i]
      {
        VisibleOne(g.shape[i], g.chunkshape[i], g.blockshape[i], c[i], b[i], t[i]);
      }
    }
  }

  // ---------------------------------------------------------------------
  // Which coordinates are produced, in order

  function Range(n: nat): (r: seq<nat>)
    ensures |r| == n && forall i | 0 <= i < n :: r[i] == i
  {
    seq(n, i => i)
  }

  lemma {:induction false} RangeCount(n: nat, k: nat)
    ensures multiset(Range(n))[k] == if k < n then 1 else 0
  {
    if n > 0 {
      RangeCount(n - 1, k);
      assert Range(n) == Range(n - 1) + [n - 1];
    } else {
      assert Range(0) == [];
    }
  }

  /** Over a range, if only `k0` can produce `u`, only `k0` counts. */
  lemma RangeFlatMapCount<U>(f: nat -> seq<U>, n: nat, u: U, k0: nat)
    requires forall k: nat | k != k0 :: u !in f(k)
    ensures multiset(FlatMap(f, Range(n)))[u] == if k0 < n then multiset(f(k0))[u] else 0
  {
    FlatMapCount(f, Range(n), u, k0);
    RangeCount(n, k0);
    NoneOrOne(multiset(Range(n))[k0], multiset(f(k0))[u]);
  }

  /** Item `n` of the visible part, in row-major order. */
  ghost function VisibleFn(g: Geometry, c: Index, b: Index): nat -> seq<Index>
    requires g.Valid() && |c| == |b| == |g.shape|
  {
    (n: nat) => if Positive(VisibleShape(g, c, b)) && n < Prod(VisibleShape(g, c, b))
         then [Plus(BlockStart(g, c, b), Unflatten(VisibleShape(g, c, b), n))] else []
  }

  ghost function BlockVisits(g: Geometry, c: Index, b: Index): seq<Index>
    requires g.Valid() && |c| == |b| == |g.shape|
  {
    FlatMap(VisibleFn(g, c, b), Range(Prod(VisibleShape(g, c, b))))
  }

  ghost function BlockVisitsFn(g: Geometry, c: Index): nat -> seq<Index>
    requires g.Valid() && |c| == |g.shape|
  {
    (l: nat) => if l < Prod(g.BlocksShape()) then BlockVisits(g, c, Unflatten(g.BlocksShape(), l)) else []
  }

  ghost function ChunkVisits(g: Geometry, c: Index): seq<Index>
    requires g.Valid() && |c| == |g.shape|
  {
    FlatMap(BlockVisitsFn(g, c), Range(Prod(g.BlocksShape())))
  }

  ghost function ChunkVisitsFn(g: Geometry): nat -> seq<Index>
    requires g.Valid()
  {
    (k: nat) => if Positive(g.ChunksShape()) && k < Prod(g.ChunksShape())
        then ChunkVisits(g, Unflatten(g.ChunksShape(), k)) else []
  }

  /** All coordinates produced, chunk by chunk, block by block, item by item. */
  ghost function Visits(g: Geometry): seq<Index>
    requires g.Valid()
  {
    FlatMap(ChunkVisitsFn(g), Range(Prod(g.ChunksShape())))
  }

  lemma BlockVisitsCount(g: Geometry, c: Index, b: Index, x: Index)
    requires g.Valid() && |c| == |b| == |g.shape|
    ensures multiset(BlockVisits(g, c, b))[x] ==
            if InShape(g.shape, x) && g.ChunkOf(x) == c && g.BlockOf(x) == b then 1 else 0
  {
    hide Prod, Flatten, Unflatten, Geometry.Inside, FlatMap;
    var f, w := VisibleFn(g, c, b), VisibleShape(g, c, b);
    var n0 := if |x| == |g.shape| then Flatten(w, g.ItemOf(x)) else 0;
    forall n: nat | x in f(n)
      ensures InShape(g.shape, x) && c == g.ChunkOf(x) && b == g.BlockOf(x) && n == n0
    {
      VisitIs(g, c, b, n, x);
    }
    RangeFlatMapCount(f, Prod(w), x, n0);
    if InShape(g.shape, x) && g.ChunkOf(x) == c && g.BlockOf(x) == b {
      Split(g, x);
      VisibleIsInside(g, c, b, g.ItemOf(x));
      UnflattenFlatten(w, g.ItemOf(x));
      assert f(n0) == [x];
    } else {
      assert x !in f(n0);
    }
  }

  lemma VisitIs(g: Geometry, c: Index, b: Index, n: nat, x: Index)
    requires g.Valid() && |c| == |b| == |g.shape| && x in VisibleFn(g, c, b)(n)
    ensures InShape(g.shape, x) && c == g.ChunkOf(x) && b == g.BlockOf(x)
    ensures n == Flatten(VisibleShape(g, c, b), g.ItemOf(x))
  {
    hide Prod, Flatten, Unflatten;
    var w := VisibleShape(g, c, b);
    FlattenUnflatten(w, n);
    var t := Unflatten(w, n);
    VisibleIsInside(g, c, b, t);
    SplitUnique(g, c, b, t);
  }

  lemma ChunkVisitsCount(g: Geometry, c: Index, x: Index)
    requires g.Valid() && |c| == |g.shape|
    ensures multiset(ChunkVisits(g, c))[x] == if InShape(g.shape, x) && g.ChunkOf(x) == c then 1 else 0
  {
    hide Prod, Flatten, Unflatten, FlatMap, BlockVisits;
    var f, shape := BlockVisitsFn(g, c), g.BlocksShape();
    var l0 := if |x| == |g.shape| then Flatten(shape, g.BlockOf(x)) else 0;
    forall l: nat | l != l0 ensures x !in f(l) {
      if l < Prod(shape) {
        BlockVisitsCount(g, c, Unflatten(shape, l), x);
        FlattenUnflatten(shape, l);
      }
    }
    RangeFlatMapCount(f, Prod(shape), x, l0);
    if InShape(g.shape, x) {
      Split(g, x);
      UnflattenFlatten(shape, g.BlockOf(x));
    }
    if l0 < Prod(shape) {
      BlockVisitsCount(g, c, Unflatten(shape, l0), x);
    }
  }

  /** Main result about the traversal: every coordinate of the array is produced
      exactly once, and nothing else is. */
  lemma ProducedExactlyOnce(g: Geometry, x: Index)
    requires g.Valid()
    ensures multiset(Visits(g))[x] == if InShape(g.shape, x) then 1 else 0
  {
    hide Prod, Flatten, Unflatten, FlatMap, ChunkVisits;
    var f, shape := ChunkVisitsFn(g), g.ChunksShape();
    var k0 := if |x| == |g.shape| then Flatten(shape, g.ChunkOf(x)) else 0;
    forall k: nat | k != k0 ensures x !in f(k) {
      if Positive(shape) && k < Prod(shape) {
        ChunkVisitsCount(g, Unflatten(shape, k), x);
        FlattenUnflatten(shape, k);
      }
    }
    RangeFlatMapCount(f, Prod(shape), x, k0);
    if InShape(g.shape, x) {
      Split(g, x);
      UnflattenFlatten(shape, g.ChunkOf(x));
    }
    if k0 < Prod(shape) {
      ProdPositiveIf(shape, k0);
      ChunkVisitsCount(g, Unflatten(shape, k0), x);
    }
  }

  // ---------------------------------------------------------------------
  // The constructor

  /** The caller's item function: coordinate and row-major index to value. */
  type ItemGenerator<!V> = (Index, nat) -> V

  /** Block `b` of chunk `c` after the constructor: generated values on the visible
      items, `before` on the padding. */
  ghost predicate Generated<V>(g: Geometry, item: ItemGenerator<V>, c: Index, b: Index, before: seq<V>, block: seq<V>)
    requires g.Valid() && |c| == |b| == |g.shape|
  {
    && |block| == |before| == Prod(g.blockshape)
    && forall t | InShape(g.blockshape, t) :: GeneratedItem(g, item, c, b, before, block, t)
  }

  ghost predicate GeneratedItem<V>(g: Geometry, item: ItemGenerator<V>, c: Index, b: Index, before: seq<V>,
                                   block: seq<V>, t: Index)
    requires g.Valid() && |c| == |b| == |g.shape| && InShape(g.blockshape, t)
  {
    var u := Flatten(g.blockshape, t);
    && u < |block| && u < |before|
    && block[u] == if g.Inside(c, b, t) then item(g.Compose(c, b, t), Flatten(g.shape, g.Compose(c, b, t)))
        else before[u]
  }

  /** The same with only the first `n` visible items generated. */
  ghost predicate PartlyGenerated<V>(g: Geometry, item: ItemGenerator<V>, c: Index, b: Index, before: seq<V>,
                                     block: seq<V>, n: nat)
    requires g.Valid() && |c| == |b| == |g.shape|
  {
    && |block| == |before| == Prod(g.blockshape)
    && forall t | InShape(g.blockshape, t) :: PartItem(g, item, c, b, before, block, n, t)
  }

  ghost predicate PartItem<V>(g: Geometry, item: ItemGenerator<V>, c: Index, b: Index, before: seq<V>, block: seq<V>,
                              n: nat, t: Index)
    requires g.Valid() && |c| == |b| == |g.shape| && InShape(g.blockshape, t)
  {
    var u, w := Flatten(g.blockshape, t), VisibleShape(g, c, b);
    && u < |block| && u < |before|
    && block[u] == if InShape(w, t) && Flatten(w, t) < n
        then item(g.Compose(c, b, t), Flatten(g.shape, g.Compose(c, b, t))) else before[u]
  }

  lemma NothingGenerated<V>(g: Geometry, item: ItemGenerator<V>, c: Index, b: Index, block: seq<V>)
    requires g.Valid() && |c| == |b| == |g.shape| && |block| == Prod(g.blockshape)
    ensures PartlyGenerated(g, item, c, b, block, block, 0)
  {
    hide Prod, Flatten;
    forall t | InShape(g.blockshape, t) ensures PartItem(g, item, c, b, block, block, 0, t) {
      FlattenBound(g.blockshape, t);
    }
  }

  lemma OneGenerated<V>(g: Geometry, item: ItemGenerator<V>, c: Index, b: Index, o: seq<V>, before: seq<V>,
                        after: seq<V>, n: nat, t: Index)
    requires g.Valid() && |c| == |b| == |g.shape| && InShape(VisibleShape(g, c, b), t) && InShape(g.blockshape, t)
    requires Flatten(VisibleShape(g, c, b), t) == n && Flatten(g.blockshape, t) < |before|
    requires PartlyGenerated(g, item, c, b, o, before, n)
    requires after == before[Flatten(g.blockshape, t) := item(g.Compose(c, b, t), Flatten(g.shape, g.Compose(c, b, t)))]
    ensures PartlyGenerated(g, item, c, b, o, after, n + 1)
  {
    hide Prod, Flatten;
    var w := VisibleShape(g, c, b);
    forall s | InShape(g.blockshape, s) ensures PartItem(g, item, c, b, o, after, n + 1, s) {
      assert PartItem(g, item, c, b, o, before, n, s);
      if Flatten(g.blockshape, s) == Flatten(g.blockshape, t) { FlattenInjective(g.blockshape, s, t); }
      if InShape(w, s) && Flatten(w, s) == n { FlattenInjective(w, s, t); }
    }
  }

  lemma AllGenerated<V>(g: Geometry, item: ItemGenerator<V>, c: Index, b: Index, before: seq<V>, block: seq<V>)
    requires g.Valid() && |c| == |b| == |g.shape|
    requires PartlyGenerated(g, item, c, b, before, block, Prod(VisibleShape(g, c, b)))
    ensures Generated(g, item, c, b, before, block)
  {
    hide Prod, Flatten, Geometry.Inside;
    var w := VisibleShape(g, c, b);
    forall t | InShape(g.blockshape, t) ensures GeneratedItem(g, item, c, b, before, block, t) {
      assert PartItem(g, item, c, b, before, block, Prod(w), t);
      VisibleIsInside(g, c, b, t);
      if InShape(w, t) { FlattenBound(w, t); }
    }
  }

  /** One turn of the item loop: the item is found by the strides of the visible
      part and stored by the strides of the whole block. */
  method StoreItem<V>(dest: array<V>, g: Geometry, item: ItemGenerator<V>, start: Index, shape: seq<nat>, nitem: nat,
                      arrayStrides: seq<nat>, paddedStrides: seq<nat>, blockStrides: seq<nat>)
    requires g.Valid() && |start| == |shape| == |g.shape| && Positive(shape) && nitem < Prod(shape)
    requires forall i | 0 <= i < |shape| :: shape[i] <= g.blockshape[i]
    requires arrayStrides == Strides(g.shape) && paddedStrides == Strides(g.blockshape)
    requires blockStrides == Strides(shape)
    requires dest.Length == Prod(g.blockshape)
    modifies dest
    ensures var t := Unflatten(shape, nitem); var u := Flatten(g.blockshape, t);
            InShape(g.blockshape, t) && u < dest.Length &&
            dest[..] == old(dest[..])[u := item(Plus(start, t), Flatten(g.shape, Plus(start, t)))]
  {
    hide Prod, Flatten, Unflatten, Strides;
    ghost var before := dest[..];
    var indexInBlock := new nat[|shape|];
    UnidimToMultidim(blockStrides, nitem, indexInBlock, shape);
    var t := indexInBlock[..];
    UnflattenInShape(shape, nitem);
    assert InShape(g.blockshape, t);
    var paddedFlat := MultidimToUnidim(paddedStrides, t);
    assert paddedFlat == Flatten(g.blockshape, t);
    FlattenBound(g.blockshape, t);
    var index := Plus(start, t);
    var flat := MultidimToUnidim(arrayStrides, index);
    assert flat == Flatten(g.shape, index);
    dest[paddedFlat] := item(index, flat);
    assert dest[..] == before[paddedFlat := item(index, flat)];
  }

  /** iarray_constructor_element_fn: every visible item of the block. */
  method ElementFn<V>(dest: array<V>, g: Geometry, item: ItemGenerator<V>, ghost c: Index, ghost b: Index,
                      start: Index, shape: seq<nat>)
    returns (ghost visits: seq<Index>)
    requires g.Valid() && |c| == |b| == |g.shape| && start == BlockStart(g, c, b) && shape == VisibleShape(g, c, b)
    requires dest.Length == Prod(g.blockshape)
    modifies dest
    ensures Generated(g, item, c, b, old(dest[..]), dest[..]) && visits == BlockVisits(g, c, b)
  {
    hide Prod, Flatten, Unflatten, Strides, Geometry.Inside, PartlyGenerated, FlatMap, VisibleFn, Generated;
    var size := Prod(shape);
    var ndim := g.Ndim();
    var arrayStrides, paddedStrides, blockStrides := new nat[ndim], new nat[ndim], new nat[ndim];
    ComputeStrides(g.shape, arrayStrides);
    ComputeStrides(g.blockshape, paddedStrides);
    ComputeStrides(shape, blockStrides);
    ghost var o := dest[..];
    NothingGenerated(g, item, c, b, o);
    visits := [];
    VisitsStart(VisibleFn(g, c, b));
    for nitem := 0 to size
      invariant PartlyGenerated(g, item, c, b, o, dest[..], nitem)
      invariant arrayStrides[..] == Strides(g.shape) && paddedStrides[..] == Strides(g.blockshape)
      invariant blockStrides[..] == Strides(shape)
      invariant visits == FlatMap(VisibleFn(g, c, b), Range(nitem))
    {
      ProdPositiveIf(shape, nitem);
      ghost var before, t := dest[..], Unflatten(shape, nitem);
      StoreItem(dest, g, item, start, shape, nitem, arrayStrides[..], paddedStrides[..], blockStrides[..]);
      ItemGenerated(g, item, c, b, o, before, dest[..], nitem);
      visits := visits + [Plus(start, t)];
      OneVisit(g, c, b, nitem);
    }
    AllGenerated(g, item, c, b, o, dest[..]);
  }

  lemma ItemGenerated<V>(g: Geometry, item: ItemGenerator<V>, c: Index, b: Index, o: seq<V>, before: seq<V>,
                         after: seq<V>, n: nat)
    requires g.Valid() && |c| == |b| == |g.shape| && Positive(VisibleShape(g, c, b)) && n < Prod(VisibleShape(g, c, b))
    requires PartlyGenerated(g, item, c, b, o, before, n)
    requires var t := Unflatten(VisibleShape(g, c, b), n); var x := Plus(BlockStart(g, c, b), t);
             && InShape(g.blockshape, t) && Flatten(g.blockshape, t) < |before|
             && after == before[Flatten(g.blockshape, t) := item(x, Flatten(g.shape, x))]
    ensures PartlyGenerated(g, item, c, b, o, after, n + 1)
  {
    hide Prod, Flatten, Unflatten, PartlyGenerated;
    var w := VisibleShape(g, c, b);
    FlattenUnflatten(w, n);
    VisibleIsInside(g, c, b, Unflatten(w, n));
    OneGenerated(g, item, c, b, o, before, after, n, Unflatten(w, n));
  }

  lemma VisitsStart(f: nat -> seq<Index>)
    ensures FlatMap(f, Range(0)) == []
  {
    assert Range(0) == [];
  }

  lemma VisitsNext(f: nat -> seq<Index>, n: nat)
    ensures FlatMap(f, Range(n + 1)) == FlatMap(f, Range(n)) + f(n)
  {
    assert Range(n + 1) == Range(n) + [n];
    FlatMapAppend(f, Range(n), [n]);
    assert [n][1..] == [];
    assert FlatMap(f, [n]) == f(n) + FlatMap(f, []);
  }

  lemma OneVisit(g: Geometry, c: Index, b: Index, n: nat)
    requires g.Valid() && |c| == |b| == |g.shape| && Positive(VisibleShape(g, c, b)) && n < Prod(VisibleShape(g, c, b))
    ensures FlatMap(VisibleFn(g, c, b), Range(n + 1)) ==
            FlatMap(VisibleFn(g, c, b), Range(n)) + [Plus(BlockStart(g, c, b), Unflatten(VisibleShape(g, c, b), n))]
  {
    VisitsNext(VisibleFn(g, c, b), n);
  }

  /** The start and the stop, clipped to the array, of chunk `c` in its first `n` dimensions. */
  ghost predicate IsChunkInfo(g: Geometry, c: Index, start: Index, stop: Index, n: nat)
    requires g.Valid() && |c| == |g.shape|
  {
    && n <= |start| && n <= |stop| && n <= |c|
    && forall i | 0 <= i < n ::
         && start[i] == InChunk(g.chunkshape[i], c[i], 0)
         && stop[i] == ChunkStop(g.shape[i], g.chunkshape[i], c[i])
  }

  function ChunkStop(S: nat, C: nat, c: nat): nat {
    if InChunk(C, c, C) > S then S else InChunk(C, c, C)
  }

  /** chunk_info: where a chunk starts and stops. */
  method ChunkInfo(g: Geometry, c: Index) returns (start: Index, stop: Index)
    requires g.Valid() && |c| == |g.shape|
    ensures IsChunkInfo(g, c, start, stop, |g.shape|) && |start| == |stop| == |g.shape|
  {
    start, stop := [], [];
    for i := 0 to |c|
      invariant |start| == |stop| == i && IsChunkInfo(g, c, start, stop, i)
    {
      var first := c[i] * g.chunkshape[i];
      var last := first + g.chunkshape[i];
      if last > g.shape[i] {
        last := g.shape[i];
      }
      start, stop := start + [first], stop + [last];
    }
  }

  /** block_info: `skip` when the block starts past the end of the chunk. */
  method BlockInfo(g: Geometry, ghost c: Index, b: Index, chunkStart: Index, chunkStop: Index)
    returns (skip: bool, start: Index, shape: seq<nat>)
    requires g.Valid() && |c| == |b| == |chunkStart| == |chunkStop| == |g.shape|
    requires IsChunkInfo(g, c, chunkStart, chunkStop, |g.shape|)
    ensures skip ==> exists i :: 0 <= i < |g.shape| && VisibleShape(g, c, b)[i] == 0
    ensures !skip ==> start == BlockStart(g, c, b) && shape == VisibleShape(g, c, b)
  {
    start, shape := [], [];
    for i := 0 to |b|
      invariant |start| == |shape| == i
      invariant forall k | 0 <= k < i :: start[k] == BlockStart(g, c, b)[k] && shape[k] == VisibleShape(g, c, b)[k]
    {
      var first := chunkStart[i] + b[i] * g.blockshape[i];
      assert first == Pos(g.chunkshape[i], g.blockshape[i], c[i], b[i], 0);
      var last := first + g.blockshape[i];
      if first > chunkStop[i] {
        assert VisibleShape(g, c, b)[i] == 0;
        return true, start, shape;
      } else if last > chunkStop[i] {
        last := chunkStop[i];
      }
      start, shape := start + [first], shape + [last - first];
    }
    skip := false;
  }

  /** A block without visible items keeps what it had. */
  lemma NoVisibleItems<V>(g: Geometry, item: ItemGenerator<V>, c: Index, b: Index, block: seq<V>, i: nat)
    requires g.Valid() && |c| == |b| == |g.shape| && i < |g.shape| && VisibleShape(g, c, b)[i] == 0
    requires |block| == Prod(g.blockshape)
    ensures Generated(g, item, c, b, block, block) && BlockVisits(g, c, b) == []
  {
    ProdZero(VisibleShape(g, c, b), i);
    NothingGenerated(g, item, c, b, block);
    AllGenerated(g, item, c, b, block, block);
    VisitsStart(VisibleFn(g, c, b));
  }

  /** iarray_constructor_prefilter for block `nblock`. */
  method ConstructorPrefilter<V>(dest: array<V>, g: Geometry, item: ItemGenerator<V>, ghost c: Index,
                                 chunkStart: Index, chunkStop: Index, nblock: nat)
    returns (ghost visits: seq<Index>)
    requires g.Valid() && |c| == |chunkStart| == |chunkStop| == |g.shape| && nblock < Prod(g.BlocksShape())
    requires IsChunkInfo(g, c, chunkStart, chunkStop, |g.shape|)
    requires dest.Length == Prod(g.blockshape)
    modifies dest
    ensures var b := Unflatten(g.BlocksShape(), nblock);
            Generated(g, item, c, b, old(dest[..]), dest[..]) && visits == BlockVisits(g, c, b)
  {
    hide Prod, Flatten, Unflatten, Generated, BlockVisits;
    var index := new nat[g.Ndim()];
    UnidimToMultidimShape(g.BlocksShape(), nblock, index);
    var b := index[..];
    var skip, start, shape := BlockInfo(g, c, b, chunkStart, chunkStop);
    if skip {
      ghost var i: nat :| i < |g.shape| && VisibleShape(g, c, b)[i] == 0;
      NoVisibleItems(g, item, c, b, dest[..], i);
      visits := [];
      return;
    }
    visits := ElementFn(dest, g, item, c, b, start, shape);
  }

  /** Chunk `n` after construction; padding is not specified. */
  ghost predicate ChunkBuilt<V>(g: Geometry, item: ItemGenerator<V>, n: nat, chunk: seq<seq<V>>)
    requires g.Valid() && Positive(g.ChunksShape())
  {
    && |chunk| == Prod(g.BlocksShape())
    && forall l: nat | l < |chunk| ::
        BlockBuilt(g, item, Unflatten(g.ChunksShape(), n), Unflatten(g.BlocksShape(), l), chunk[l])
  }

  ghost predicate BlockBuilt<V>(g: Geometry, item: ItemGenerator<V>, c: Index, b: Index, block: seq<V>)
    requires g.Valid() && |c| == |b| == |g.shape|
  {
    && |block| == Prod(g.blockshape)
    && forall t | InShape(g.blockshape, t) && g.Inside(c, b, t) :: BuiltItem(g, item, c, b, block, t)
  }

  ghost predicate BuiltItem<V>(g: Geometry, item: ItemGenerator<V>, c: Index, b: Index, block: seq<V>, t: Index)
    requires g.Valid() && |c| == |b| == |g.shape| && InShape(g.blockshape, t)
  {
    && Flatten(g.blockshape, t) < |block|
    && block[Flatten(g.blockshape, t)] == item(g.Compose(c, b, t), Flatten(g.shape, g.Compose(c, b, t)))
  }

  lemma GeneratedIsBuilt<V>(g: Geometry, item: ItemGenerator<V>, c: Index, b: Index, before: seq<V>, block: seq<V>)
    requires g.Valid() && |c| == |b| == |g.shape| && Generated(g, item, c, b, before, block)
    ensures BlockBuilt(g, item, c, b, block)
  {
    hide Prod, Flatten, Geometry.Inside;
    forall t | InShape(g.blockshape, t) && g.Inside(c, b, t) ensures BuiltItem(g, item, c, b, block, t) {
      assert GeneratedItem(g, item, c, b, before, block, t);
    }
  }

  method BuildChunk<V(0)>(g: Geometry, item: ItemGenerator<V>, n: nat)
    returns (chunk: seq<seq<V>>, ghost visits: seq<Index>)
    requires g.Valid() && Positive(g.ChunksShape()) && n < Prod(g.ChunksShape())
    ensures ChunkBuilt(g, item, n, chunk) && visits == ChunkVisits(g, Unflatten(g.ChunksShape(), n))
  {
    hide Prod, Flatten, Unflatten, Generated, BlockBuilt, BlockVisits, FlatMap;
    var index := new nat[g.Ndim()];
    UnidimToMultidimShape(g.ChunksShape(), n, index);
    var c := index[..];
    var chunkStart, chunkStop := ChunkInfo(g, c);
    chunk, visits := [], [];
    VisitsStart(BlockVisitsFn(g, c));
    for l := 0 to Prod(g.BlocksShape())
      invariant |chunk| == l && visits == FlatMap(BlockVisitsFn(g, c), Range(l))
      invariant forall k: nat | k < l :: BlockBuilt(g, item, c, Unflatten(g.BlocksShape(), k), chunk[k])
    {
      var dest := new V[Prod(g.blockshape)];
      ghost var before := dest[..];
      ghost var v := ConstructorPrefilter(dest, g, item, c, chunkStart, chunkStop, l);
      GeneratedIsBuilt(g, item, c, Unflatten(g.BlocksShape(), l), before, dest[..]);
      chunk := chunk + [dest[..]];
      visits := visits + v;
      VisitsNext(BlockVisitsFn(g, c), l);
    }
  }

  /** iarray_constructor_block with the element generator: every element is the
      generator's value for its coordinate and row-major index, and every
      coordinate is generated exactly once. */
  method Construct<V(0)>(g: Geometry, item: ItemGenerator<V>) returns (r: Stored<V>, ghost visits: seq<Index>)
    requires g.Valid()
    ensures r.WellFormed() && r.geom == g
    ensures forall x | InShape(g.shape, x) :: r.At(x) == item(x, Flatten(g.shape, x))
    ensures forall x :: multiset(visits)[x] == if InShape(g.shape, x) then 1 else 0
  {
    hide Prod, Flatten, Unflatten, ChunkBuilt, ChunkVisits, FlatMap;
    var chunks: seq<seq<seq<V>>> := [];
    visits := [];
    VisitsStart(ChunkVisitsFn(g));
    var nchunk, nchunks := 0, Prod(g.ChunksShape());
    while nchunk < nchunks
      invariant |chunks| == nchunk <= nchunks && (nchunk > 0 ==> Positive(g.ChunksShape()))
      invariant visits == FlatMap(ChunkVisitsFn(g), Range(nchunk))
      invariant forall k: nat | k < nchunk :: ChunkBuilt(g, item, k, chunks[k])
    {
      ProdPositiveIf(g.ChunksShape(), nchunk);
      ghost var v;
      var chunk;
      chunk, v := BuildChunk(g, item, nchunk);
      chunks := chunks + [chunk];
      visits := visits + v;
      VisitsNext(ChunkVisitsFn(g), nchunk);
      nchunk := nchunk + 1;
    }
    r := Stored(g, chunks);
    BuiltMeans(g, item, chunks);
    forall x ensures multiset(visits)[x] == if InShape(g.shape, x) then 1 else 0 {
      ProducedExactlyOnce(g, x);
    }
  }

  lemma BuiltMeans<V>(g: Geometry, item: ItemGenerator<V>, chunks: seq<seq<seq<V>>>)
    requires g.Valid() && |chunks| == Prod(g.ChunksShape()) && (|chunks| > 0 ==> Positive(g.ChunksShape()))
    requires forall k: nat | k < |chunks| :: ChunkBuilt(g, item, k, chunks[k])
    ensures Stored(g, chunks).WellFormed()
    ensures forall x | InShape(g.shape, x) :: Stored(g, chunks).At(x) == item(x, Flatten(g.shape, x))
  {
    hide Prod, Flatten, Unflatten;
    var s := Stored(g, chunks);
    assert s.WellFormed() by {
      forall k, l | 0 <= k < |chunks| && 0 <= l < |chunks[k]|
        ensures |chunks[k]| == Prod(g.BlocksShape()) && |chunks[k][l]| == Prod(g.blockshape)
      {
        assert ChunkBuilt(g, item, k, chunks[k]);
        assert BlockBuilt(g, item, Unflatten(g.ChunksShape(), k), Unflatten(g.BlocksShape(), l), chunks[k][l]);
      }
    }
    forall x | InShape(g.shape, x) ensures s.At(x) == item(x, Flatten(g.shape, x)) {
      var c, b, t := g.ChunkOf(x), g.BlockOf(x), g.ItemOf(x);
      Split(g, x);
      UnflattenFlatten(g.ChunksShape(), c);
      UnflattenFlatten(g.BlocksShape(), b);
      var k, l := Flatten(g.ChunksShape(), c), Flatten(g.BlocksShape(), b);
      assert ChunkBuilt(g, item, k, chunks[k]);
      assert BlockBuilt(g, item, c, b, chunks[k][l]);
      assert BuiltItem(g, item, c, b, chunks[k][l], t);
    }
  }

  // ---------------------------------------------------------------------
  // zproxy_postfilter's windows

  /** The window of block `b` of chunk `c` by the proxy's formula: none when the
      block starts past the array's end in some dimension. */
  method ProxyWindow(g: Geometry, c: Index, b: Index) returns (skip: bool, start: Index, shape: seq<nat>)
    requires g.Valid() && InShape(g.ChunksShape(), c) && InShape(g.BlocksShape(), b)
    ensures skip <==> !Positive(VisibleShape(g, c, b))
    ensures !skip ==> start == BlockStart(g, c, b) && shape == VisibleShape(g, c, b)
  {
    start, shape := [], [];
    for i := 0 to |c|
      invariant |start| == |shape| == i
      invariant forall k | 0 <= k < i ::
                  start[k] == BlockStart(g, c, b)[k] && shape[k] == VisibleShape(g, c, b)[k] && shape[k] > 0
    {
      var S, C, B, extC := g.shape[i], g.chunkshape[i], g.blockshape[i], g.ExtChunkshape()[i];
      var first := c[i] * C + b[i] * B;
      ProxyFormula(S, C, B, c[i], b[i]);
      if first >= S {
        assert VisibleShape(g, c, b)[i] == 0;
        return true, start, shape;
      }
      var last := c[i] * C + (b[i] + 1) * B;
      if b[i] == extC / B - 1 {
        last := last - (extC - C);
      }
      if last > S {
        last := S;
      }
      start, shape := start + [first], shape + [last - first];
    }
    skip := false;
  }

  /** Along one dimension the proxy's stop is the constructor's. */
  lemma ProxyFormula(S: nat, C: nat, B: nat, c: nat, b: nat)
    requires C > 0 && B > 0 && b < CeilDiv(C, B)
    ensures RoundUp(C, B) >= C && RoundUp(C, B) / B == CeilDiv(C, B)
    ensures Pos(C, B, c, b, 0) == c * C + b * B
    ensures Pos(C, B, c, b, 0) >= S <==> VisibleLen(S, C, B, c, b) == 0
    ensures Pos(C, B, c, b, 0) < S ==>
              var stop := c * C + (b + 1) * B - (if b == CeilDiv(C, B) - 1 then RoundUp(C, B) - C else 0);
              (if stop > S then S else stop) - Pos(C, B, c, b, 0) == VisibleLen(S, C, B, c, b)
  {
    CeilDivBelow(b, C, B);
    CeilDivBelow(b + 1, C, B);
    assert (b + 1) * B == b * B + B;
    DivModParts(RoundUp(C, B), B);
  }
}
