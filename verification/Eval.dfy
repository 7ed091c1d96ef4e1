/** The two ways of evaluating an expression (src/iarray_expression.c): chunk by
    chunk over plain buffers, or block by block while the output chunk is being
    compressed.  Both compute the same pointwise function of the operands. */
module Eval {
  import opened Lists
  import opened Layout
  import opened Geometry
  import opened Errors
  import opened BlockIter

  /** An operand: what slices of it read, the container behind it, and whether
      that container cannot be read block by block because it is a proxy, a
      transposed view or a view of another shape. */
  datatype Operand<!V> = Operand(val: Index -> V, stored: Stored<V>, indirect: bool)
  {
    ghost predicate Fits(shape: seq<nat>) {
      !indirect ==> stored.WellFormed() && stored.geom.shape == shape && stored.Holds(val)
    }

    /** The class IARRAY_EXPR_EQ: stored exactly like the output. */
    predicate Direct(g: Geometry) {
      !indirect && stored.geom.chunkshape == g.chunkshape && stored.geom.blockshape == g.blockshape
    }
  }

  function Inputs<V>(ops: seq<Operand<V>>, x: Index): (xs: seq<V>)
    ensures |xs| == |ops| && forall i | 0 <= i < |ops| :: xs[i] == ops[i].val(x)
  {
    seq(|ops|, i requires 0 <= i < |ops| => ops[i].val(x))
  }

  /** What every element of the result has to be. */
  function Pointwise<V>(ops: seq<Operand<V>>, f: seq<V> -> V, x: Index): V { f(Inputs(ops, x)) }

  // ---------------------------------------------------------------------
  // ITERCHUNK

  /** One read iterator per operand, all at window `n`, none sharing its buffer. */
  ghost predicate InStep<V(0)>(iters: seq<ReadIterator<V>>, ops: seq<Operand<V>>, g: Geometry, n: nat)
    reads iters
  {
    && |iters| == |ops| && g.Valid()
    && (forall i | 0 <= i < |iters| :: IterAt(iters[i], ops[i], g, n))
    && (forall i, j | 0 <= i < j < |iters| :: iters[i] != iters[j] && iters[i].block != iters[j].block)
  }

  ghost predicate IterAt<V(0)>(it: ReadIterator<V>, op: Operand<V>, g: Geometry, n: nat)
    reads it
  {
    it.Valid() && it.val == op.val && it.shape == g.shape && it.blockShape == g.chunkshape && !it.padding &&
        it.nblock == n
  }

  /** Window `n` of every operand is in its buffer. */
  ghost predicate AllShow<V(0)>(iters: seq<ReadIterator<V>>, ops: seq<Operand<V>>, g: Geometry, n: nat)
    requires InStep(iters, ops, g, n + 1) && n < Prod(PieceCount(g.shape, g.chunkshape))
    reads iters, set i | 0 <= i < |iters| :: iters[i].block
  {
    forall i | 0 <= i < |iters| :: iters[i].Shows(n)
  }

  method NewIterators<V(0)>(ops: seq<Operand<V>>, g: Geometry) returns (iters: seq<ReadIterator<V>>)
    requires g.Valid()
    ensures InStep(iters, ops, g, 0)
    ensures forall i | 0 <= i < |iters| :: fresh(iters[i]) && fresh(iters[i].block)
  {
    iters := [];
    for i := 0 to |ops|
      invariant |iters| == i && (forall k | 0 <= k < i :: IterAt(iters[k], ops[k], g, 0))
      invariant forall k | 0 <= k < i :: fresh(iters[k]) && fresh(iters[k].block)
      invariant forall k, l | 0 <= k < l < i :: iters[k] != iters[l] && iters[k].block != iters[l].block
    {
      var it := new ReadIterator(ops[i].val, g.shape, g.chunkshape, false);
      iters := iters + [it];
    }
  }

  method NextAll<V(0)>(iters: seq<ReadIterator<V>>, ghost ops: seq<Operand<V>>, ghost g: Geometry, ghost n: nat)
    requires InStep(iters, ops, g, n) && n < Prod(PieceCount(g.shape, g.chunkshape))
    modifies iters, set i | 0 <= i < |iters| :: iters[i].block
    ensures InStep(iters, ops, g, n + 1) && AllShow(iters, ops, g, n)
  {
    hide Prod, Unflatten, HoldsSlice, ReadIterator.Shows;
    for k := 0 to |iters|
      invariant forall i | 0 <= i < |iters| :: IterAt(iters[i], ops[i], g, if i < k then n + 1 else n)
      invariant forall i | 0 <= i < k :: iters[i].Shows(n)
    {
      assert IterAt(iters[k], ops[k], g, n);
      iters[k].Next();
    }
  }

  /** The values at item `u` of every operand's buffer. */
  method Gather<V(0)>(iters: seq<ReadIterator<V>>, u: nat) returns (xs: seq<V>)
    requires forall i | 0 <= i < |iters| :: u < iters[i].block.Length
    ensures |xs| == |iters| && forall i | 0 <= i < |iters| :: xs[i] == iters[i].block[u]
  {
    xs := [];
    for i := 0 to |iters|
      invariant |xs| == i && forall k | 0 <= k < i :: xs[k] == iters[k].block[u]
    {
      xs := xs + [iters[i].block[u]];
    }
  }

  /** The buffer holds the result on window `n`. */
  ghost predicate TurnHolds<V>(buf: seq<V>, ops: seq<Operand<V>>, f: seq<V> -> V, g: Geometry, n: nat)
    requires g.Valid() && Positive(PieceCount(g.shape, g.chunkshape))
  {
    var c := Unflatten(PieceCount(g.shape, g.chunkshape), n);
    var w := WindowShape(g.shape, g.chunkshape, c);
    forall y | InShape(w, y) ::
      Flatten(w, y) < |buf| && buf[Flatten(w, y)] == Pointwise(ops, f, Plus(WindowStart(g.chunkshape, c), y))
  }

  /** The compiled expression on flat buffers of `size` items. */
  method EvalBlock<V(0)>(iters: seq<ReadIterator<V>>, out: array<V>, f: seq<V> -> V, size: nat,
                         ghost ops: seq<Operand<V>>, ghost g: Geometry, ghost n: nat)
    requires InStep(iters, ops, g, n + 1) && n < Prod(PieceCount(g.shape, g.chunkshape)) && AllShow(iters, ops, g, n)
    requires Positive(PieceCount(g.shape, g.chunkshape))
    requires size == Prod(WindowShape(g.shape, g.chunkshape, Unflatten(PieceCount(g.shape, g.chunkshape), n)))
    requires out.Length == Prod(g.chunkshape) && size <= out.Length
    requires forall i | 0 <= i < |iters| :: iters[i].block != out
    modifies out
    ensures TurnHolds(out[..], ops, f, g, n)
  {
    hide Prod, Unflatten, Flatten, HoldsSlice;
    ghost var c := Unflatten(PieceCount(g.shape, g.chunkshape), n);
    ghost var w, start := WindowShape(g.shape, g.chunkshape, c), WindowStart(g.chunkshape, c);
    forall i | 0 <= i < |iters|
      ensures HoldsSlice(iters[i].block[..], w, start, w, ops[i].val) && iters[i].block.Length == out.Length
    {
      assert iters[i].Shows(n) && IterAt(iters[i], ops[i], g, n + 1);
    }
    hide ReadIterator.Shows, AllShow, InStep;
    for u := 0 to size
      invariant forall i | 0 <= i < |iters| :: HoldsSlice(iters[i].block[..], w, start, w, ops[i].val)
      invariant forall y | InShape(w, y) && Flatten(w, y) < u :: out[Flatten(w, y)] == Pointwise(ops, f, Plus(start, y))
    {
      var xs := Gather(iters, u);
      out[u] := f(xs);
      forall y | InShape(w, y) && Flatten(w, y) == u ensures f(xs) == Pointwise(ops, f, Plus(start, y)) {
        GatheredInputs(ops, xs, iters, w, start, y);
      }
    }
    forall y | InShape(w, y) ensures Flatten(w, y) < size { FlattenBound(w, y); }
  }

  lemma GatheredInputs<V(0)>(ops: seq<Operand<V>>, xs: seq<V>, iters: seq<ReadIterator<V>>, w: seq<nat>, start: Index,
                             y: Index)
    requires |xs| == |iters| == |ops| && |w| == |start| && InShape(w, y)
    requires forall i | 0 <= i < |ops| :: HoldsSlice(iters[i].block[..], w, start, w, ops[i].val)
    requires forall i | 0 <= i < |ops| ::
               Flatten(w, y) < iters[i].block.Length && xs[i] == iters[i].block[Flatten(w, y)]
    ensures xs == Inputs(ops, Plus(start, y))
  {
    hide Flatten;
    forall i | 0 <= i < |ops| ensures xs[i] == ops[i].val(Plus(start, y)) {
      assert HoldsSlice(iters[i].block[..], w, start, w, ops[i].val);
    }
  }

  /** The write iterator's side of the loop: every turn that ended, and the one
      still in the buffer, hold the result. */
  ghost predicate Produced<V(0)>(out: WriteIterator<V>, ops: seq<Operand<V>>, f: seq<V> -> V, g: Geometry)
    reads out, out.data, out.block
  {
    && g.Valid() && out.Valid() && out.shape == g.shape && out.blockShape == g.chunkshape
    && (out.nblock > 0 ==> TurnHolds(out.block[..], ops, f, g, out.nblock - 1))
    && forall k: nat | k < |out.turns| :: TurnHolds(out.turns[k], ops, f, g, k)
  }

  ghost predicate Apart<V(0)>(iters: seq<ReadIterator<V>>, out: WriteIterator<V>) {
    forall i | 0 <= i < |iters| :: iters[i].block != out.block && iters[i].block != out.data
  }

  /** One chunk: move both kinds of iterators on, then evaluate. */
  method Turn<V(0)>(out: WriteIterator<V>, iters: seq<ReadIterator<V>>, f: seq<V> -> V, ghost ops: seq<Operand<V>>,
                    ghost g: Geometry)
    returns (size: nat)
    requires Produced(out, ops, f, g) && out.nblock < out.totalBlocks && InStep(iters, ops, g, out.nblock)
    requires Apart(iters, out)
    modifies out, out.data, out.block, iters, set i | 0 <= i < |iters| :: iters[i].block
    ensures Produced(out, ops, f, g) && out.nblock == old(out.nblock) + 1 && InStep(iters, ops, g, out.nblock)
    ensures size == Prod(WindowShape(g.shape, g.chunkshape,
            Unflatten(PieceCount(g.shape, g.chunkshape), old(out.nblock))))
  {
    hide Prod, Unflatten, Flatten, TurnHolds, AllWritten, AllShow, InStep, HoldsSlice;
    ghost var n := out.nblock;
    out.Next();
    size := Size(out.curShape);
    assert size <= out.block.Length by {
      UnflattenInShape(PieceCount(g.shape, g.chunkshape), n);
      WindowShapePositive(g.shape, g.chunkshape, out.curIndex);
      ProdMono(out.curShape, g.chunkshape);
    }
    NextAll(iters, ops, g, n);
    EvalBlock(iters, out.block, f, size, ops, g, n);
  }

  /** When every turn is stored, the array is the pointwise result. */
  lemma ProducedAll<V>(data: seq<V>, turns: seq<seq<V>>, ops: seq<Operand<V>>, f: seq<V> -> V, g: Geometry)
    requires g.Valid() && Positive(PieceCount(g.shape, g.chunkshape))
    requires |turns| == Prod(PieceCount(g.shape, g.chunkshape))
    requires AllWritten(data, g.shape, g.chunkshape, turns)
    requires forall k: nat | k < |turns| :: TurnHolds(turns[k], ops, f, g, k)
    ensures forall x | InShape(g.shape, x) ::
              Flatten(g.shape, x) < |data| && data[Flatten(g.shape, x)] == Pointwise(ops, f, x)
  {
    hide Prod, Unflatten, Flatten, AllWritten, Pointwise;
    forall x | InShape(g.shape, x)
      ensures Flatten(g.shape, x) < |data| && data[Flatten(g.shape, x)] == Pointwise(ops, f, x)
    {
      ElementWritten(data, g.shape, g.chunkshape, turns, x);
      InWindow(g.shape, g.chunkshape, x);
      var k := Flatten(PieceCount(g.shape, g.chunkshape), Quotients(x, g.chunkshape));
      assert TurnHolds(turns[k], ops, f, g, k);
    }
  }

  /** iarray_eval_cleanup */
  method Cleanup(written: nat, size: nat) returns (complete: bool)
    ensures complete <==> written == size
  {
    complete := written == size;
  }

  /** The loop of iarray_eval_iterchunk, with its count of written items. */
  method EvalChunks<V(0)>(out: WriteIterator<V>, iters: seq<ReadIterator<V>>, f: seq<V> -> V,
                          ghost ops: seq<Operand<V>>, ghost g: Geometry)
    returns (written: nat)
    requires Produced(out, ops, f, g) && out.nblock == 0 && InStep(iters, ops, g, 0) && Apart(iters, out)
    modifies out, out.data, out.block, iters, set i | 0 <= i < |iters| :: iters[i].block
    ensures Produced(out, ops, f, g) && out.nblock == |out.turns| == out.totalBlocks
    ensures written == SizeSum(g.shape, g.chunkshape, out.totalBlocks)
  {
    hide Prod, Unflatten, Flatten, TurnHolds, AllWritten, InStep, PieceCount, WindowShape, WriteIterator.Current, Apart;
    written := 0;
    var more := out.HasNext();
    while more
      invariant Produced(out, ops, f, g) && InStep(iters, ops, g, out.nblock)
      invariant more <==> out.nblock < out.totalBlocks
      invariant written == SizeSum(g.shape, g.chunkshape, out.nblock)
      invariant more || |out.turns| == out.totalBlocks
      decreases out.totalBlocks - out.nblock, more
    {
      var size := Turn(out, iters, f, ops, g);
      written := written + size;
      more := out.HasNext();
    }
  }

  /** iarray_eval_iterchunk: one window after the other through plain buffers.
      The count of written items is always the array's, so the final check holds. */
  method IterChunk<V(0)>(ops: seq<Operand<V>>, f: seq<V> -> V, g: Geometry) returns (r: Result<seq<V>>)
    requires g.Valid() && Positive(g.shape)
    ensures r.Success? && |r.value| == Prod(g.shape)
    ensures forall x | InShape(g.shape, x) ::
              Flatten(g.shape, x) < |r.value| && r.value[Flatten(g.shape, x)] == Pointwise(ops, f, x)
  {
    hide Prod, Unflatten, Flatten, TurnHolds, AllWritten, InStep;
    var data := new V[Prod(g.shape)];
    var iters := NewIterators(ops, g);
    var out := new WriteIterator(g, data);
    var written := EvalChunks(out, iters, f, ops, g);
    SizesAddUp(g.shape, g.chunkshape);
    ProducedAll(data[..], out.turns, ops, f, g);
    var complete := Cleanup(written, data.Length);
    if !complete {
      return Failure(NotComplete);
    }
    r := Success(data[..]);
  }
}
