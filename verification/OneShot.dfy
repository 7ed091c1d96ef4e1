/** The one-shot reduction (src/reductions/iarray_reduce_oneshot.c): three
    recursive nests over chunks, blocks and items that update their index
    buffers in place and accumulate into the output block. */
module OneShot {
  import opened Lists
  import opened Arith
  import opened Layout
  import opened Geometry
  import opened Axes
  import opened OneShotSpec

  /** One more value of the innermost open loop. */
  lemma FoldRowStep<A, V>(step: (A, V) -> A, val: Index -> V, acc: A, f: Index -> seq<Index>,
                          p: Index, i: nat, start: Index, stop: Index)
    requires |p| < |start| == |stop| && i < stop[|p|]
    ensures Fold(step, val, acc, FlatMap(f, GridRow(p, i, start, stop))) ==
            Fold(step, val, Fold(step, val, acc, FlatMap(f, Grid(p + [i], start, stop))),
                 FlatMap(f, GridRow(p, i + 1, start, stop)))
  {
    var xs, ys := Grid(p + [i], start, stop), GridRow(p, i + 1, start, stop);
    FlatMapAppend(f, xs, ys);
    FoldAppend(step, val, acc, FlatMap(f, xs), FlatMap(f, ys));
  }

  /** The loop at this level has run out. */
  lemma FoldRowDone<A, V>(step: (A, V) -> A, val: Index -> V, acc: A, f: Index -> seq<Index>,
                          p: Index, i: nat, start: Index, stop: Index)
    requires |p| < |start| == |stop| && i >= stop[|p|]
    ensures Fold(step, val, acc, FlatMap(f, GridRow(p, i, start, stop))) == acc
    ensures Grid(p, start, stop) == GridRow(p, start[|p|], start, stop)
  {}

  lemma FlatMapOne(f: Index -> seq<Index>, t: Index, start: Index, stop: Index)
    requires |t| == |start| == |stop|
    ensures FlatMap(f, Grid(t, start, stop)) == f(t)
  {
    assert [t][1..] == [];
  }

  /** What a chunk really holds along each axis: its part of the array. */
  ghost predicate ClippedShape(g: Geometry, c: Index, s: seq<nat>)
    requires g.Valid() && |c| == |g.shape|
  {
    && |s| == |g.shape|
    && forall i | 0 <= i < |s| ::
         if c[i] * g.chunkshape[i] + g.chunkshape[i] <= g.shape[i] then s[i] == g.chunkshape[i]
         else c[i] * g.chunkshape[i] + s[i] == g.shape[i]
  }

  ghost predicate Below(p: Index, stop: Index) {
    |p| <= |stop| && forall i | 0 <= i < |p| :: p[i] < stop[i]
  }

  ghost predicate AtMost(p: Index, stop: Index) {
    |p| == |stop| && forall i | 0 <= i < |p| :: p[i] <= stop[i]
  }

  /** _iarray_check_output_padding and _iarray_check_input_padding */
  method CheckPadding(blockIndex: Index, itemIndex: Index, chunkshape: seq<nat>, blockshape: seq<nat>)
    returns (padding: bool)
    requires |blockIndex| == |itemIndex| == |chunkshape| == |blockshape|
    ensures padding <==> exists i ::
            0 <= i < |chunkshape| && chunkshape[i] <= itemIndex[i] + blockIndex[i] * blockshape[i]
  {
    for i := 0 to |chunkshape|
      invariant forall k | 0 <= k < i :: !(chunkshape[k] <= itemIndex[k] + blockIndex[k] * blockshape[k])
    {
      if chunkshape[i] <= itemIndex[i] + blockIndex[i] * blockshape[i] {
        return true;
      }
    }
    return false;
  }

  /** Inside the clipped chunk is the same as inside block, chunk and array. */
  lemma PaddingMeansOutside(g: Geometry, c: Index, b: Index, t: Index, s: seq<nat>)
    requires g.Valid() && |b| == |t| == |c| == |g.shape| && InShape(g.ChunksShape(), c) && ClippedShape(g, c, s)
    requires Below(t, g.blockshape)
    ensures (exists i :: 0 <= i < |s| && s[i] <= t[i] + b[i] * g.blockshape[i]) <==> !g.Inside(c, b, t)
  {
    forall i | 0 <= i < |s|
      ensures c[i] * g.chunkshape[i] < g.shape[i]
    {
      CeilDivBelow(c[i], g.shape[i], g.chunkshape[i]);
    }
  }

  /** `block` is the decompressed block `b` of chunk `c`. */
  ghost predicate IsBlock<V>(input: Stored<V>, c: Index, b: Index, block: seq<V>) {
    && input.WellFormed()
    && InShape(input.geom.ChunksShape(), c) && InShape(input.geom.BlocksShape(), b)
    && |block| == Prod(input.geom.blockshape)
    && forall t | InShape(input.geom.blockshape, t) ::
         Flatten(input.geom.blockshape, t) < |block| &&
         block[Flatten(input.geom.blockshape, t)] == input.Slot(c, b, t)
  }

  /** The innermost step: skip a padding item, otherwise apply the operation. */
  method ReduceItem<A, V>(input: Stored<V>, uf: UFunc<A, V>, ghost val: Index -> V,
                          acc: A, block: seq<V>, inputChunkshape: seq<nat>,
                          ghost c: Index, b: Index, t: Index, itemStrides: seq<nat>) returns (r: A)
    requires IsBlock(input, c, b, block) && input.Holds(val)
    requires ClippedShape(input.geom, c, inputChunkshape)
    requires InShape(input.geom.blockshape, t) && itemStrides == Strides(input.geom.blockshape)
    ensures r == Fold(uf.step, val, acc, ItemFn(input.geom, c, b)(t))
  {
    PaddingMeansOutside(input.geom, c, b, t, inputChunkshape);
    var padding := CheckPadding(b, t, inputChunkshape, input.geom.blockshape);
    if padding {
      return acc;
    }
    var nitem := MultidimToUnidim(itemStrides, t);
    assert nitem == Flatten(input.geom.blockshape, t);
    SplitUnique(input.geom, c, b, t);
    r := uf.step(acc, block[nitem]);
  }

  /** `acc` is the output item the C code passes by pointer; `r` its new value. */
  method ItemIter<A, V>(input: Stored<V>, uf: UFunc<A, V>, ghost val: Index -> V,
                        acc: A, block: seq<V>, inputChunkshape: seq<nat>,
                        ghost c: Index, b: Index, ndim: nat,
                        itemIndex: array<nat>, itemStart: Index, itemStop: Index, itemStrides: seq<nat>) returns (r: A)
    requires IsBlock(input, c, b, block) && input.Holds(val)
    requires ClippedShape(input.geom, c, inputChunkshape)
    requires ndim < input.geom.Ndim() == itemIndex.Length == |itemStart| == |itemStop|
    requires AtMost(itemStop, input.geom.blockshape) && itemStrides == Strides(input.geom.blockshape)
    requires Below(itemIndex[..ndim], itemStop)
    modifies itemIndex
    ensures itemIndex[..ndim] == old(itemIndex[..ndim])
    ensures r == Fold(uf.step, val, acc,
                      FlatMap(ItemFn(input.geom, c, b), Grid(old(itemIndex[..ndim]), itemStart, itemStop)))
    decreases input.geom.Ndim() - ndim
  {

    hide Fold, FlatMap, Grid, GridRow, Stored.Holds, ClippedShape, Flatten, Prod;
    ghost var p, f := itemIndex[..ndim], ItemFn(input.geom, c, b);
    r := acc;
    var i := itemStart[ndim];
    itemIndex[ndim] := i;
    while itemIndex[ndim] < itemStop[ndim]
      invariant itemIndex[..ndim] == p && itemIndex[ndim] == i
      invariant Fold(uf.step, val, r, FlatMap(f, GridRow(p, i, itemStart, itemStop))) ==
                Fold(uf.step, val, acc, FlatMap(f, GridRow(p, itemStart[ndim], itemStart, itemStop)))
      decreases itemStop[ndim] as int - i as int
    {
      FoldRowStep(uf.step, val, r, f, p, i, itemStart, itemStop);
      assert itemIndex[..ndim+1] == p + [i];
      if ndim < input.geom.Ndim() - 1 {
        r := ItemIter(input, uf, val, r, block, inputChunkshape, c, b, ndim + 1,
                      itemIndex, itemStart, itemStop, itemStrides);
        PrefixKept(itemIndex[..], p + [i], ndim);
      } else {
        assert itemIndex[..] == p + [i];
        FlatMapOne(f, p + [i], itemStart, itemStop);
        r := ReduceItem(input, uf, val, r, block, inputChunkshape, c, b, itemIndex[..], itemStrides);
      }
      i := i + 1;
      itemIndex[ndim] := i;
    }
    FoldRowDone(uf.step, val, r, f, p, i, itemStart, itemStop);
  }

  lemma PrefixKept(s: Index, q: Index, n: nat)
    requires n < |q| <= |s| && s[..n+1] == q
    ensures s[n] == q[n] && s[..n] == q[..n]
  {
    assert s[..n] == s[..n+1][..n];
    assert s[n] == s[..n+1][n];
  }

  // ---------------------------------------------------------------------
  // Blocks and chunks: one pass over all items of the output block

  /** Per output item: is it padding, and which box of items of an input block
      it collects (the is_padding, in_item_start and in_item_stop buffers). */
  datatype ItemPlan = ItemPlan(padding: bool, start: Index, stop: Index)

  ghost predicate PlansFit(plans: seq<ItemPlan>, g: Geometry) {
    forall u | 0 <= u < |plans| :: |plans[u].start| == |g.shape| && AtMost(plans[u].stop, g.blockshape)
  }

  /** Every item that is not padding has absorbed the coordinates `fn` lists for
      the pieces `ts`, in order; padding items are untouched. */
  ghost predicate Applied<A, V>(uf: UFunc<A, V>, val: Index -> V, fn: ItemPlan -> Index -> seq<Index>,
                                plans: seq<ItemPlan>, before: seq<A>, after: seq<A>, ts: seq<Index>) {
    && |before| == |after| == |plans|
    && forall u | 0 <= u < |plans| ::
         after[u] == if plans[u].padding then before[u]
                     else Fold(uf.step, val, before[u], FlatMap(fn(plans[u]), ts))
  }

  lemma AppliedAppend<A, V>(uf: UFunc<A, V>, val: Index -> V, fn: ItemPlan -> Index -> seq<Index>,
                            plans: seq<ItemPlan>, s0: seq<A>, s1: seq<A>, s2: seq<A>, ts: seq<Index>, us: seq<Index>)
    requires Applied(uf, val, fn, plans, s0, s1, ts) && Applied(uf, val, fn, plans, s1, s2, us)
    ensures Applied(uf, val, fn, plans, s0, s2, ts + us)
  {
    hide Fold, FlatMap;
    forall u | 0 <= u < |plans| && !plans[u].padding
      ensures s2[u] == Fold(uf.step, val, s0[u], FlatMap(fn(plans[u]), ts + us))
    {
      FlatMapAppend(fn(plans[u]), ts, us);
      FoldAppend(uf.step, val, s0[u], FlatMap(fn(plans[u]), ts), FlatMap(fn(plans[u]), us));
    }
  }

  ghost function PlanBlockFn(g: Geometry, c: Index): ItemPlan -> Index -> seq<Index>
    requires g.Valid() && |c| == |g.shape|
  {
    (plan: ItemPlan) => if |plan.start| == |plan.stop| == |g.shape| then BlockFn(g, c, plan.start, plan.stop)
        else _ => []
  }

  ghost function PlanChunkFn(g: Geometry, blo: Index, bhi: Index): ItemPlan -> Index -> seq<Index>
    requires g.Valid() && |blo| == |bhi| == |g.shape|
  {
    (plan: ItemPlan) => if |plan.start| == |plan.stop| == |g.shape| then ChunkFn(g, blo, bhi, plan.start, plan.stop)
        else _ => []
  }

  /** One decompressed block is offered to every item of the output block. */
  method ReduceBlock<A, V>(input: Stored<V>, uf: UFunc<A, V>, ghost val: Index -> V,
                           out: array<A>, plans: seq<ItemPlan>, block: seq<V>, inputChunkshape: seq<nat>,
                           ghost c: Index, b: Index, itemStrides: seq<nat>)
    requires IsBlock(input, c, b, block) && input.Holds(val)
    requires ClippedShape(input.geom, c, inputChunkshape)
    requires input.geom.Ndim() > 0 && itemStrides == Strides(input.geom.blockshape)
    requires PlansFit(plans, input.geom) && out.Length == |plans|
    modifies out
    ensures Applied(uf, val, PlanBlockFn(input.geom, c), plans, old(out[..]), out[..], [b])
  {
    hide Fold, FlatMap, Grid, Stored.Holds;
    ghost var fn := PlanBlockFn(input.geom, c);
    for u := 0 to out.Length
      invariant forall v | u <= v < out.Length :: out[v] == old(out[v])
      invariant forall v | 0 <= v < u ::
                  out[v] == if plans[v].padding then old(out[v])
                            else Fold(uf.step, val, old(out[v]), FlatMap(fn(plans[v]), [b]))
    {
      if plans[u].padding {
        continue;
      }
      var itemIndex := new nat[input.geom.Ndim()];
      FlatMapSingle(fn(plans[u]), b);
      assert itemIndex[..0] == [];
      var r := ItemIter(input, uf, val, out[u], block, inputChunkshape, c, b, 0,
                        itemIndex, plans[u].start, plans[u].stop, itemStrides);
      out[u] := r;
    }
  }

  lemma FlatMapSingle(f: Index -> seq<Index>, t: Index)
    ensures FlatMap(f, [t]) == f(t)
  {
    assert [t][1..] == [];
  }

  method BlockIter<A, V>(input: Stored<V>, uf: UFunc<A, V>, ghost val: Index -> V,
                         out: array<A>, plans: seq<ItemPlan>, inputChunkshape: seq<nat>, ghost c: Index, nchunk: nat,
                         ndim: nat, blockIndex: array<nat>, blockStart: Index, blockStop: Index,
                         blockStrides: seq<nat>, itemStrides: seq<nat>)
    requires input.WellFormed() && input.Holds(val)
    requires InShape(input.geom.ChunksShape(), c) && nchunk == Flatten(input.geom.ChunksShape(), c)
    requires ClippedShape(input.geom, c, inputChunkshape)
    requires ndim < input.geom.Ndim() == blockIndex.Length == |blockStart| == |blockStop|
    requires AtMost(blockStop, input.geom.BlocksShape()) && Below(blockIndex[..ndim], blockStop)
    requires itemStrides == Strides(input.geom.blockshape) && blockStrides == Strides(input.geom.BlocksShape())
    requires PlansFit(plans, input.geom) && out.Length == |plans|
    requires (out as object) != blockIndex
    modifies out, blockIndex
    ensures blockIndex[..ndim] == old(blockIndex[..ndim])
    ensures Applied(uf, val, PlanBlockFn(input.geom, c), plans, old(out[..]), out[..],
                    Grid(old(blockIndex[..ndim]), blockStart, blockStop))
    decreases input.geom.Ndim() - ndim
  {
    hide Fold, FlatMap, Grid, GridRow, Applied, PlansFit, Stored.Holds, ClippedShape, Flatten, IsBlock, Prod;
    ghost var p, fn, o0 := blockIndex[..ndim], PlanBlockFn(input.geom, c), out[..];
    ghost var done: seq<Index> := [];
    var i := blockStart[ndim];
    blockIndex[ndim] := i;
    AppliedNothing(uf, val, fn, plans, o0);
    GridStart(p, blockStart, blockStop);
    while blockIndex[ndim] < blockStop[ndim]
      invariant blockIndex[..ndim] == p && blockIndex[ndim] == i
      invariant Applied(uf, val, fn, plans, o0, out[..], done)
      invariant done + GridRow(p, i, blockStart, blockStop) == Grid(p, blockStart, blockStop)
      decreases blockStop[ndim] as int - i as int
    {
      ghost var o1 := out[..];
      assert blockIndex[..ndim+1] == p + [i];
      if ndim < input.geom.Ndim() - 1 {
        BlockIter(input, uf, val, out, plans, inputChunkshape, c, nchunk, ndim + 1,
                  blockIndex, blockStart, blockStop, blockStrides, itemStrides);
        PrefixKept(blockIndex[..], p + [i], ndim);
      } else {
        var b := blockIndex[..];
        assert b == p + [i];
        GridEnd(b, blockStart, blockStop);
        var block := GetBlock(input, c, b, nchunk, blockStrides);
        ReduceBlock(input, uf, val, out, plans, block, inputChunkshape, c, b, itemStrides);
      }
      AppliedAppend(uf, val, fn, plans, o0, o1, out[..], done, Grid(p + [i], blockStart, blockStop));
      GridNext(p, i, blockStart, blockStop, done);
      done := done + Grid(p + [i], blockStart, blockStop);
      i := i + 1;
      blockIndex[ndim] := i;
    }
    GridStop(p, i, blockStart, blockStop);
    assert done + [] == done;
  }

  lemma AppliedNothing<A, V>(uf: UFunc<A, V>, val: Index -> V, fn: ItemPlan -> Index -> seq<Index>,
                             plans: seq<ItemPlan>, s: seq<A>)
    requires |s| == |plans|
    ensures Applied(uf, val, fn, plans, s, s, [])
  {}

  /** Decompressing block `b` of chunk `c`. */
  method GetBlock<V>(input: Stored<V>, ghost c: Index, b: Index, nchunk: nat, blockStrides: seq<nat>)
    returns (block: seq<V>)
    requires input.WellFormed() && InShape(input.geom.ChunksShape(), c)
    requires nchunk == Flatten(input.geom.ChunksShape(), c)
    requires InShape(input.geom.BlocksShape(), b) && blockStrides == Strides(input.geom.BlocksShape())
    ensures IsBlock(input, c, b, block)
  {
    var nblock := MultidimToUnidim(blockStrides, b);
    assert nblock == Flatten(input.geom.BlocksShape(), b);
    FlattenBound(input.geom.ChunksShape(), c);
    FlattenBound(input.geom.BlocksShape(), b);
    forall t | InShape(input.geom.blockshape, t)
      ensures Flatten(input.geom.blockshape, t) < Prod(input.geom.blockshape)
    {
      FlattenBound(input.geom.blockshape, t);
    }
    block := input.chunks[nchunk][nblock];
  }

  method ChunkIter<A, V>(input: Stored<V>, uf: UFunc<A, V>, ghost val: Index -> V,
                         out: array<A>, plans: seq<ItemPlan>,
                         ndim: nat, chunkIndex: array<nat>, chunkStart: Index, chunkStop: Index, chunkStrides: seq<nat>,
                         blockStart: Index, blockStop: Index, blockStrides: seq<nat>, itemStrides: seq<nat>)
    requires input.WellFormed() && input.Holds(val)
    requires ndim < input.geom.Ndim() == chunkIndex.Length == |chunkStart| == |chunkStop|
    requires |blockStart| == input.geom.Ndim() && AtMost(blockStop, input.geom.BlocksShape())
    requires AtMost(chunkStop, input.geom.ChunksShape()) && Below(chunkIndex[..ndim], chunkStop)
    requires chunkStrides == Strides(input.geom.ChunksShape())
    requires itemStrides == Strides(input.geom.blockshape) && blockStrides == Strides(input.geom.BlocksShape())
    requires PlansFit(plans, input.geom) && out.Length == |plans|
    requires (out as object) != chunkIndex
    modifies out, chunkIndex
    ensures chunkIndex[..ndim] == old(chunkIndex[..ndim])
    ensures Applied(uf, val, PlanChunkFn(input.geom, blockStart, blockStop), plans, old(out[..]), out[..],
                    Grid(old(chunkIndex[..ndim]), chunkStart, chunkStop))
    decreases input.geom.Ndim() - ndim
  {
    hide Fold, FlatMap, Grid, GridRow, Applied, PlansFit, Stored.Holds, Flatten, Prod;
    ghost var p, fn, o0 := chunkIndex[..ndim], PlanChunkFn(input.geom, blockStart, blockStop), out[..];
    ghost var done: seq<Index> := [];
    var i := chunkStart[ndim];
    chunkIndex[ndim] := i;
    AppliedNothing(uf, val, fn, plans, o0);
    GridStart(p, chunkStart, chunkStop);
    while chunkIndex[ndim] < chunkStop[ndim]
      invariant chunkIndex[..ndim] == p && chunkIndex[ndim] == i
      invariant Applied(uf, val, fn, plans, o0, out[..], done)
      invariant done + GridRow(p, i, chunkStart, chunkStop) == Grid(p, chunkStart, chunkStop)
      decreases chunkStop[ndim] as int - i as int
    {
      ghost var o1 := out[..];
      assert chunkIndex[..ndim+1] == p + [i];
      if ndim < input.geom.Ndim() - 1 {
        ChunkIter(input, uf, val, out, plans, ndim + 1, chunkIndex, chunkStart, chunkStop, chunkStrides,
                  blockStart, blockStop, blockStrides, itemStrides);
        PrefixKept(chunkIndex[..], p + [i], ndim);
      } else {
        var c := chunkIndex[..];
        assert c == p + [i];
        GridEnd(c, chunkStart, chunkStop);
        ReduceChunk(input, uf, val, out, plans, c, chunkStrides, blockStart, blockStop, blockStrides, itemStrides);
      }
      AppliedAppend(uf, val, fn, plans, o0, o1, out[..], done, Grid(p + [i], chunkStart, chunkStop));
      GridNext(p, i, chunkStart, chunkStop, done);
      done := done + Grid(p + [i], chunkStart, chunkStop);
      i := i + 1;
      chunkIndex[ndim] := i;
    }
    GridStop(p, i, chunkStart, chunkStop);
    assert done + [] == done;
  }

  /** The body of the innermost chunk loop. */
  method ReduceChunk<A, V>(input: Stored<V>, uf: UFunc<A, V>, ghost val: Index -> V,
                           out: array<A>, plans: seq<ItemPlan>, c: Index, chunkStrides: seq<nat>,
                           blockStart: Index, blockStop: Index, blockStrides: seq<nat>, itemStrides: seq<nat>)
    requires input.WellFormed() && input.Holds(val) && input.geom.Ndim() > 0
    requires InShape(input.geom.ChunksShape(), c) && chunkStrides == Strides(input.geom.ChunksShape())
    requires |blockStart| == input.geom.Ndim() && AtMost(blockStop, input.geom.BlocksShape())
    requires itemStrides == Strides(input.geom.blockshape) && blockStrides == Strides(input.geom.BlocksShape())
    requires PlansFit(plans, input.geom) && out.Length == |plans|
    modifies out
    ensures Applied(uf, val, PlanChunkFn(input.geom, blockStart, blockStop), plans, old(out[..]), out[..], [c])
  {
    hide Fold, FlatMap, Grid, GridRow, Applied, PlansFit, Stored.Holds, Flatten, ClippedShape;
    var nchunk := MultidimToUnidim(chunkStrides, c);
    var inputChunkshape := ClipChunkshape(input.geom, c);
    var blockIndex := new nat[input.geom.Ndim()];
    assert blockIndex[..0] == [];
    ghost var o0 := out[..];
    BlockIter(input, uf, val, out, plans, inputChunkshape, c, nchunk, 0,
              blockIndex, blockStart, blockStop, blockStrides, itemStrides);
    BlocksAreChunk(uf, val, input.geom, plans, o0, out[..], c, blockStart, blockStop);
  }

  lemma BlocksAreChunk<A, V>(uf: UFunc<A, V>, val: Index -> V, g: Geometry, plans: seq<ItemPlan>,
                             s0: seq<A>, s1: seq<A>, c: Index, blo: Index, bhi: Index)
    requires g.Valid() && |c| == |blo| == |bhi| == |g.shape| && PlansFit(plans, g)
    requires Applied(uf, val, PlanBlockFn(g, c), plans, s0, s1, Grid([], blo, bhi))
    ensures Applied(uf, val, PlanChunkFn(g, blo, bhi), plans, s0, s1, [c])
  {
    hide Fold, FlatMap, Grid;
    forall u | 0 <= u < |plans|
      ensures FlatMap(PlanChunkFn(g, blo, bhi)(plans[u]), [c]) ==
              FlatMap(PlanBlockFn(g, c)(plans[u]), Grid([], blo, bhi))
    {
      FlatMapSingle(PlanChunkFn(g, blo, bhi)(plans[u]), c);
    }
  }

  /** The part of chunk `c` that belongs to the array. */
  method ClipChunkshape(g: Geometry, c: Index) returns (s: seq<nat>)
    requires g.Valid() && InShape(g.ChunksShape(), c)
    ensures ClippedShape(g, c, s)
  {
    s := [];
    for i := 0 to |c|
      invariant |s| == i
      invariant forall k | 0 <= k < i ::
                  if c[k] * g.chunkshape[k] + g.chunkshape[k] <= g.shape[k] then s[k] == g.chunkshape[k]
                  else c[k] * g.chunkshape[k] + s[k] == g.shape[k]
    {
      CeilDivBelow(c[i], g.shape[i], g.chunkshape[i]);
      var start := c[i] * g.chunkshape[i];
      if start + g.chunkshape[i] <= g.shape[i] {
        s := s + [g.chunkshape[i]];
      } else {
        s := s + [g.shape[i] - start];
      }
    }
  }

  // ---------------------------------------------------------------------
  // The prefilter and the loop over output chunks

  lemma {:induction false} UpperAtMost(y: Index, full: seq<nat>, reduced: seq<bool>)
    requires |full| == |reduced| && InShape(Project(full, reduced), y)
    ensures AtMost(Upper(y, full, reduced), full)
  {
    if full != [] {
      var rest := Project(full[1..], reduced[1..]);
      if reduced[0] {
        UpperAtMost(y, full[1..], reduced[1..]);
      } else {
        assert Project(full, reduced)[1..] == rest;
        UpperAtMost(y[1..], full[1..], reduced[1..]);
      }
    }
  }

  /** The stop indices of the input pieces that output index `y` collects. */
  method BoxStop(y: Index, full: seq<nat>, reduced: seq<bool>) returns (s: Index)
    requires |full| == |reduced| && |y| == Kept(reduced)
    ensures s == Upper(y, full, reduced)
  {
    s := [];
    var j := 0;
    ghost var y', f', r' := y, full, reduced;
    for i := 0 to |full|
      invariant f' == full[i..] && r' == reduced[i..] && j <= |y| && y' == y[j..] && |y'| == Kept(r')
      invariant s + Upper(y', f', r') == Upper(y, full, reduced)
    {
      if reduced[i] {
        s := s + [full[i]];
      } else {
        s := s + [y[j] + 1];
        j := j + 1;
        y' := y'[1..];
      }
      f', r' := f'[1..], r'[1..];
    }
  }

  /** The start indices: zero on reduced axes, one below the stop on kept axes. */
  method BoxStart(stop: Index, reduced: seq<bool>, ghost y: Index, ghost full: seq<nat>) returns (s: Index)
    requires |full| == |reduced| && |y| == Kept(reduced) && stop == Upper(y, full, reduced)
    ensures s == Lower(y, reduced)
  {
    hide Upper, Lower;
    s := [];
    for i := 0 to |stop|
      invariant |s| == i && forall k | 0 <= k < i :: s[k] == Lower(y, reduced)[k]
    {
      LowerFromUpper(y, full, reduced, i);
      s := s + [if reduced[i] then 0 else stop[i] - 1];
    }
  }

  lemma {:induction false} LowerFromUpper(y: Index, full: seq<nat>, reduced: seq<bool>, i: nat)
    requires |full| == |reduced| && |y| == Kept(reduced) && i < |reduced|
    ensures reduced[i] ==> Lower(y, reduced)[i] == 0
    ensures !reduced[i] ==> Lower(y, reduced)[i] + 1 == Upper(y, full, reduced)[i]
  {
    if i > 0 {
      LowerFromUpper(if reduced[0] then y else y[1..], full[1..], reduced[1..], i - 1);
    }
  }

  /** What the prefilter leaves in item `t` of an output block. */
  ghost function BlockItem<A, V>(uf: UFunc<A, V>, val: Index -> V, g: Geometry, reduced: seq<bool>,
                                 oc: Index, ob: Index, t: Index): A
    requires g.Valid() && |reduced| == |g.shape| && |oc| == |ob| == |t| == Kept(reduced)
    requires ProjectGeometry(g, reduced).Valid()
  {
    uf.finish(if ProjectGeometry(g, reduced).Inside(oc, ob, t)
              then Fold(uf.step, val, uf.init, Visited(g, reduced, oc, ob, t)) else uf.init)
  }

  ghost function BlockItemFn<A, V>(uf: UFunc<A, V>, val: Index -> V, g: Geometry, reduced: seq<bool>): SlotFn<A>
    requires g.Valid() && |reduced| == |g.shape| && ProjectGeometry(g, reduced).Valid()
  {
    (c: Index, b: Index, t: Index) =>
      if |c| == |b| == |t| == Kept(reduced) then BlockItem(uf, val, g, reduced, c, b, t) else uf.init
  }

  /** The item ranges for every item of the output block. */
  method MakePlans(g: Geometry, reduced: seq<bool>, og: Geometry, ghost oc: Index, ob: Index, outChunkshape: seq<nat>)
    returns (plans: seq<ItemPlan>)
    requires g.Valid() && |reduced| == |g.shape| && og == ProjectGeometry(g, reduced) && og.Valid()
    requires InShape(og.ChunksShape(), oc) && InShape(og.BlocksShape(), ob) && ClippedShape(og, oc, outChunkshape)
    ensures |plans| == Prod(og.blockshape) && PlansFit(plans, g)
    ensures forall u | 0 <= u < |plans| :: PlanFor(g, reduced, og, oc, ob, u, plans[u])
  {
    hide Project, Kept, Upper, Lower, Unflatten, Prod;
    plans := [];
    var n := Prod(og.blockshape);
    for u := 0 to n
      invariant |plans| == u && PlansFit(plans, g)
      invariant forall v | 0 <= v < u :: PlanFor(g, reduced, og, oc, ob, v, plans[v])
    {
      var offset := new nat[og.Ndim()];
      UnidimToMultidimShape(og.blockshape, u, offset);
      var t := offset[..];
      UnflattenInShape(og.blockshape, u);
      UpperAtMost(t, g.blockshape, reduced);
      var stop := BoxStop(t, g.blockshape, reduced);
      var start := BoxStart(stop, reduced, t, g.blockshape);
      PaddingMeansOutside(og, oc, ob, t, outChunkshape);
      var padding := CheckPadding(ob, t, outChunkshape, og.blockshape);
      plans := plans + [ItemPlan(padding, start, stop)];
    }
  }

  ghost predicate PlanFor(g: Geometry, reduced: seq<bool>, og: Geometry, oc: Index, ob: Index, u: nat, plan: ItemPlan)
    requires g.Valid() && |reduced| == |g.shape| && og == ProjectGeometry(g, reduced) && og.Valid()
  {
    var t := Unflatten(og.blockshape, u);
    plan == ItemPlan(!og.Inside(oc, ob, t), Lower(t, reduced), Upper(t, g.blockshape, reduced))
  }

  /** iarray_reduce_init */
  method ReduceInit<A, V>(uf: UFunc<A, V>, out: array<A>)
    modifies out
    ensures forall v | 0 <= v < out.Length :: out[v] == uf.init
  {
    for u := 0 to out.Length
      invariant forall v | 0 <= v < u :: out[v] == uf.init
    {
      out[u] := uf.init;
    }
  }

  /** iarray_reduce_finish */
  method ReduceFinish<A, V>(uf: UFunc<A, V>, out: array<A>)
    modifies out
    ensures forall v | 0 <= v < out.Length :: out[v] == uf.finish(old(out[v]))
  {
    for u := 0 to out.Length
      invariant forall v | u <= v < out.Length :: out[v] == old(out[v])
      invariant forall v | 0 <= v < u :: out[v] == uf.finish(old(out[v]))
    {
      out[u] := uf.finish(out[u]);
    }
  }

  /** _reduce_general_prefilter: fills one block of the output. */
  method Prefilter<A, V>(input: Stored<V>, uf: UFunc<A, V>, ghost val: Index -> V, reduced: seq<bool>, og: Geometry,
                         ghost oc: Index, nchunk: nat, outChunkshape: seq<nat>, nblock: nat, out: array<A>)
    requires input.WellFormed() && input.Holds(val) && input.geom.Ndim() > 0
    requires |reduced| == input.geom.Ndim() && og == ProjectGeometry(input.geom, reduced) && og.Valid()
    requires Positive(og.ChunksShape()) && nchunk < Prod(og.ChunksShape()) && oc == Unflatten(og.ChunksShape(), nchunk)
    requires ClippedShape(og, oc, outChunkshape) && nblock < Prod(og.BlocksShape())
    requires out.Length == Prod(og.blockshape)
    modifies out
    ensures forall u | 0 <= u < out.Length ::
              out[u] == BlockItem(uf, val, input.geom, reduced, oc, Unflatten(og.BlocksShape(), nblock),
                  Unflatten(og.blockshape, u))
  {
    hide Fold, FlatMap, Grid, Prod, Project, Kept, Upper, Lower;
    hide Unflatten, Strides, ClippedShape, Stored.Holds, Applied, PlanFor, BlockItem, PlansFit;
    var g := input.geom;
    var chunkStrides := MakeStrides(g.ChunksShape());
    var blockStrides := MakeStrides(g.BlocksShape());
    var itemStrides := MakeStrides(g.blockshape);
    var ocIndex := new nat[og.Ndim()];
    UnidimToMultidimShape(og.ChunksShape(), nchunk, ocIndex);
    var obIndex := new nat[og.Ndim()];
    UnidimToMultidimShape(og.BlocksShape(), nblock, obIndex);
    var ob := obIndex[..];
    UnflattenInShape(og.ChunksShape(), nchunk);
    UnflattenInShape(og.BlocksShape(), nblock);
    ProjectValid(g, reduced);
    UpperAtMost(ocIndex[..], g.ChunksShape(), reduced);
    UpperAtMost(ob, g.BlocksShape(), reduced);
    var chunkStop := BoxStop(ocIndex[..], g.ChunksShape(), reduced);
    var chunkStart := BoxStart(chunkStop, reduced, ocIndex[..], g.ChunksShape());
    var blockStop := BoxStop(ob, g.BlocksShape(), reduced);
    var blockStart := BoxStart(blockStop, reduced, ob, g.BlocksShape());
    var plans := MakePlans(g, reduced, og, oc, ob, outChunkshape);

    ReduceInit(uf, out);
    ghost var o0 := out[..];
    var chunkIndex := new nat[g.Ndim()];
    assert chunkIndex[..0] == [];
    ChunkIter(input, uf, val, out, plans, 0, chunkIndex, chunkStart, chunkStop, chunkStrides,
              blockStart, blockStop, blockStrides, itemStrides);
    ghost var o1 := out[..];
    ReduceFinish(uf, out);
    forall u | 0 <= u < out.Length
      ensures out[u] == BlockItem(uf, val, g, reduced, oc, ob, Unflatten(og.blockshape, u))
    {
      FinishedItem(uf, val, g, reduced, og, oc, ob, plans, o0, o1, u);
    }
  }

  method MakeStrides(shape: seq<nat>) returns (s: seq<nat>)
    ensures s == Strides(shape)
  {
    var strides := new nat[|shape|];
    ComputeStrides(shape, strides);
    s := strides[..];
  }

  lemma FinishedItem<A, V>(uf: UFunc<A, V>, val: Index -> V, g: Geometry, reduced: seq<bool>, og: Geometry,
                           oc: Index, ob: Index, plans: seq<ItemPlan>, o0: seq<A>, o1: seq<A>, u: nat)
    requires g.Valid() && |reduced| == |g.shape| && og == ProjectGeometry(g, reduced) && og.Valid()
    requires |oc| == |ob| == Kept(reduced) && u < |plans| == |o0| && o0[u] == uf.init
    requires PlanFor(g, reduced, og, oc, ob, u, plans[u])
    requires Applied(uf, val, PlanChunkFn(g, Lower(ob, reduced), Upper(ob, g.BlocksShape(), reduced)), plans, o0, o1,
                     Grid([], Lower(oc, reduced), Upper(oc, g.ChunksShape(), reduced)))
    ensures uf.finish(o1[u]) == BlockItem(uf, val, g, reduced, oc, ob, Unflatten(og.blockshape, u))
  {
    hide Fold, FlatMap, Grid, Upper, Lower, Unflatten;
  }

  /** One output chunk: the prefilter runs once per block. */
  method CompressChunk<A(0), V>(input: Stored<V>, uf: UFunc<A, V>, ghost val: Index -> V, reduced: seq<bool>,
                                og: Geometry,
                                oc: Index, nchunk: nat) returns (chunk: seq<seq<A>>)
    requires input.WellFormed() && input.Holds(val) && input.geom.Ndim() > 0
    requires |reduced| == input.geom.Ndim() && og == ProjectGeometry(input.geom, reduced) && og.Valid()
    requires Positive(og.ChunksShape()) && nchunk < Prod(og.ChunksShape()) && oc == Unflatten(og.ChunksShape(), nchunk)
    ensures ChunkHolds(og, BlockItemFn(uf, val, input.geom, reduced), nchunk, chunk)
  {
    hide Prod, Project, Kept, Unflatten, ClippedShape, Stored.Holds, BlockItem;
    UnflattenInShape(og.ChunksShape(), nchunk);
    var chunkShape := ClipChunkshape(og, oc);
    chunk := [];
    for nblock := 0 to Prod(og.BlocksShape())
      invariant |chunk| == nblock
      invariant forall l | 0 <= l < nblock :: BlockHolds(og, BlockItemFn(uf, val, input.geom, reduced), oc, l, chunk[l])
    {
      var out := new A[Prod(og.blockshape)];
      Prefilter(input, uf, val, reduced, og, oc, nchunk, chunkShape, nblock, out);
      chunk := chunk + [out[..]];
    }
  }

  /** The chunk loop of _iarray_reduce2_udf: the whole output array.  For a step
      whose order does not matter, every element is the plain reduction. */
  method ReduceOneShot<A(0, !new), V(!new)>(input: Stored<V>, uf: UFunc<A, V>, ghost val: Index -> V,
                                            reduced: seq<bool>)
    returns (result: Stored<A>)
    requires input.WellFormed() && input.Holds(val) && input.geom.Ndim() > 0 && |reduced| == input.geom.Ndim()
    ensures result.WellFormed() && result.geom == ProjectGeometry(input.geom, reduced)
    ensures forall c, b, t | InShape(result.geom.ChunksShape(), c) && InShape(result.geom.BlocksShape(), b) &&
              InShape(result.geom.blockshape, t) ::
              result.Slot(c, b, t) == BlockItem(uf, val, input.geom, reduced, c, b, t)
    ensures Commutes(uf.step) ==>
              forall y | InShape(result.geom.shape, y) ::
                result.At(y) == PlainReduce(uf, val, input.geom.shape, reduced, y)
  {
    hide Fold, FlatMap, Grid, Prod, Project, Kept, Unflatten, Stored.Holds, BlockItem, Commutes, Flatten, ChunkHolds;
    var og := ProjectGeometry(input.geom, reduced);
    ProjectValid(input.geom, reduced);
    var chunks: seq<seq<seq<A>>> := [];
    var nchunk, nchunks := 0, Prod(og.ChunksShape());
    while nchunk < nchunks
      invariant |chunks| == nchunk <= nchunks && (nchunk > 0 ==> Positive(og.ChunksShape()))
      invariant forall k | 0 <= k < nchunk :: ChunkHolds(og, BlockItemFn(uf, val, input.geom, reduced), k, chunks[k])
    {
      ProdPositiveIf(og.ChunksShape(), nchunk);
      var chunkIndex := new nat[og.Ndim()];
      UnidimToMultidimShape(og.ChunksShape(), nchunk, chunkIndex);
      var chunk := CompressChunk(input, uf, val, reduced, og, chunkIndex[..], nchunk);
      chunks := chunks + [chunk];
      nchunk := nchunk + 1;
    }
    result := Stored(og, chunks);
    ArrayHolds(og, BlockItemFn(uf, val, input.geom, reduced), chunks);
    if Commutes(uf.step) {
      forall y | InShape(og.shape, y) ensures result.At(y) == PlainReduce(uf, val, input.geom.shape, reduced, y) {
        Split(og, y);
        BlockedIsPlain(uf, val, input.geom, reduced, y);
        AtItem(uf, val, input.geom, reduced, y);
      }
    }
  }

  lemma AtItem<A, V>(uf: UFunc<A, V>, val: Index -> V, g: Geometry, reduced: seq<bool>, y: Index)
    requires g.Valid() && |reduced| == |g.shape|
    requires ProjectGeometry(g, reduced).Valid() && InShape(ProjectGeometry(g, reduced).shape, y)
    ensures var og := ProjectGeometry(g, reduced);
            BlockItem(uf, val, g, reduced, og.ChunkOf(y), og.BlockOf(y), og.ItemOf(y)) ==
            uf.finish(Fold(uf.step, val, uf.init, Visited(g, reduced, og.ChunkOf(y), og.BlockOf(y), og.ItemOf(y))))
  {
    Split(ProjectGeometry(g, reduced), y);
  }
}
