/** ITERBLOSC (src/iarray_expression.c): the expression is evaluated block by
    block while each output chunk is compressed.  Operands stored like the output
    are read block by block; the others are sliced and repartitioned. */
module EvalBlosc {
  import opened Lists
  import opened Arith
  import opened Layout
  import opened Geometry
  import opened Repart
  import opened BlockIter
  import opened Eval

  /** One operand's data for an output chunk: the stored chunk itself, or the
      repartitioned slice, blocks one after the other. */
  datatype ChunkInput<V> = Chunk(blocks: seq<seq<V>>) | Buffer(items: seq<V>)
  {
    predicate HasItem(l: nat, u: nat, size: nat) {
      match this
      case Chunk(blocks) => l < |blocks| && u < |blocks[l]|
      case Buffer(items) => Start(l, size) + u < |items|
    }

    /** Item `u` of block `l`, for blocks of `size` items. */
    function Item(l: nat, u: nat, size: nat): V
      requires HasItem(l, u, size)
    {
      match this
      case Chunk(blocks) => blocks[l][u]
      case Buffer(items) => items[Start(l, size) + u]
    }
  }

  /** `input` shows what the operand holds in chunk `c`, wherever the output has elements. */
  ghost predicate InputHolds<V>(input: ChunkInput<V>, op: Operand<V>, g: Geometry, c: Index)
    requires g.Valid()
  {
    forall b, t | InShape(g.BlocksShape(), b) && InShape(g.blockshape, t) :: InputItem(input, op, g, c, b, t)
  }

  ghost predicate InputItem<V>(input: ChunkInput<V>, op: Operand<V>, g: Geometry, c: Index, b: Index, t: Index)
    requires g.Valid() && InShape(g.BlocksShape(), b) && InShape(g.blockshape, t)
  {
    var l, u, size := Flatten(g.BlocksShape(), b), Flatten(g.blockshape, t), Prod(g.blockshape);
    input.HasItem(l, u, size) && (g.Inside(c, b, t) ==> input.Item(l, u, size) == op.val(g.Compose(c, b, t)))
  }

  /** An operand stored like the output: its chunk is the input. */
  lemma DirectInput<V>(op: Operand<V>, g: Geometry, k: nat)
    requires g.Valid() && op.Fits(g.shape) && op.Direct(g)
    requires k < Prod(g.ChunksShape())
    ensures k < |op.stored.chunks| && Positive(g.ChunksShape())
    ensures InputHolds(Chunk(op.stored.chunks[k]), op, g, Unflatten(g.ChunksShape(), k))
  {
    assert op.stored.geom == g;
    ProdPositiveIf(g.ChunksShape(), k);
    hide Prod, Flatten, Unflatten;
    FlattenUnflatten(g.ChunksShape(), k);
    var c := Unflatten(g.ChunksShape(), k);
    forall b, t | InShape(g.BlocksShape(), b) && InShape(g.blockshape, t)
      ensures InputItem(Chunk(op.stored.chunks[k]), op, g, c, b, t)
    {
      FlattenBound(g.BlocksShape(), b);
      FlattenBound(g.blockshape, t);
      assert op.stored.Slot(c, b, t) == op.stored.chunks[k][Flatten(g.BlocksShape(), b)][Flatten(g.blockshape, t)];
      if g.Inside(c, b, t) {
        SplitUnique(g, c, b, t);
        var x := g.Compose(c, b, t);
        assert op.stored.At(x) == op.val(x);
      }
    }
  }

  /** An operand stored differently: the padded slice, repartitioned. */
  lemma RepartInput<V>(op: Operand<V>, g: Geometry, k: nat, chunk: seq<V>, zero: V, rchunk: seq<V>)
    requires g.Valid() && k < Prod(g.ChunksShape()) && Positive(g.ChunksShape()) && |chunk| == Prod(g.chunkshape)
    requires var c := Unflatten(g.ChunksShape(), k);
             HoldsSlice(chunk, g.chunkshape, WindowStart(g.chunkshape, c), WindowShape(g.shape, g.chunkshape, c),
                 op.val)
    requires IsRepart(chunk, zero, g.chunkshape, g.blockshape, rchunk)
    ensures InputHolds(Buffer(rchunk), op, g, Unflatten(g.ChunksShape(), k))
  {
    var C, B, c := g.chunkshape, g.blockshape, Unflatten(g.ChunksShape(), k);
    assert g.BlocksShape() == PieceCount(C, B);
    hide Prod, Flatten, Unflatten;
    forall b, t | InShape(g.BlocksShape(), b) && InShape(B, t) ensures InputItem(Buffer(rchunk), op, g, c, b, t) {
      var l := Flatten(g.BlocksShape(), b);
      UnflattenFlatten(g.BlocksShape(), b);
      RepartUnfold(chunk, zero, C, B, rchunk, l);
      SegmentItem(chunk, zero, C, B, rchunk, l, t);
      FlattenBound(B, t);
      if g.Inside(c, b, t) { SliceItem(op.val, g, c, b, t, chunk, zero); }
    }
  }

  lemma RepartUnfold<V>(chunk: seq<V>, zero: V, C: seq<nat>, B: seq<nat>, rchunk: seq<V>, l: nat)
    requires |B| == |C| && Positive(B) && Positive(C) && |chunk| == Prod(C)
    requires IsRepart(chunk, zero, C, B, rchunk) && l < Prod(PieceCount(C, B))
    ensures RepartAt(chunk, zero, C, B, rchunk, l)
  {}

  lemma SliceItem<V>(val: Index -> V, g: Geometry, c: Index, b: Index, t: Index, chunk: seq<V>, zero: V)
    requires g.Valid() && g.Inside(c, b, t) && |chunk| == Prod(g.chunkshape)
    requires HoldsSlice(chunk, g.chunkshape, WindowStart(g.chunkshape, c), WindowShape(g.shape, g.chunkshape, c), val)
    ensures ItemOr(chunk, zero, g.chunkshape, Offset(g.blockshape, b, t)) == val(g.Compose(c, b, t))
  {
    hide Prod, Flatten;
    var C, y := g.chunkshape, Offset(g.blockshape, b, t);
    var w, start := WindowShape(g.shape, C, c), WindowStart(C, c);
    forall i | 0 <= i < |y| ensures y[i] < w[i] && y[i] < C[i] && start[i] + y[i] == g.Compose(c, b, t)[i] {
      InsideWindow(g.shape[i], C[i], g.blockshape[i], c[i], b[i], t[i]);
    }
    assert InShape(w, y) && Plus(start, y) == g.Compose(c, b, t);
  }

  lemma InsideWindow(S: nat, C: nat, B: nat, c: nat, b: nat, t: nat)
    requires InChunk(B, b, t) < C && Pos(C, B, c, b, t) < S
    ensures InChunk(B, b, t) < ClipLen(S, C, c) && InChunk(C, c, 0) + InChunk(B, b, t) == Pos(C, B, c, b, t)
  {}

  // ---------------------------------------------------------------------
  // The iterators that only operands stored differently have

  ghost predicate RepartStep<V(0)>(iters: seq<ReadIterator?<V>>, ops: seq<Operand<V>>, g: Geometry, n: nat)
    reads iters
  {
    && |iters| == |ops| && g.Valid()
    && (forall i | 0 <= i < |iters| :: StepAt(iters[i], ops[i], g, n))
    && (forall i, j | 0 <= i < j < |iters| && iters[i] != null && iters[j] != null ::
        iters[i] != iters[j] && iters[i].block != iters[j].block)
  }

  ghost predicate StepAt<V(0)>(it: ReadIterator?<V>, op: Operand<V>, g: Geometry, n: nat)
    reads it
  {
    if op.Direct(g) then it == null
    else
      && it != null && it.Valid()
      && it.val == op.val && it.shape == g.shape && it.blockShape == g.chunkshape
      && it.padding && it.nblock == n
  }

  method NewRepartIterators<V(0)>(ops: seq<Operand<V>>, g: Geometry) returns (iters: seq<ReadIterator?<V>>)
    requires g.Valid()
    ensures RepartStep(iters, ops, g, 0)
    ensures forall i | 0 <= i < |iters| && iters[i] != null :: fresh(iters[i]) && fresh(iters[i].block)
  {
    iters := [];
    for i := 0 to |ops|
      invariant |iters| == i && (forall k | 0 <= k < i :: StepAt(iters[k], ops[k], g, 0))
      invariant forall k | 0 <= k < i && iters[k] != null :: fresh(iters[k]) && fresh(iters[k].block)
      invariant forall k, l | 0 <= k < l < i && iters[k] != null && iters[l] != null ::
                  iters[k] != iters[l] && iters[k].block != iters[l].block
    {
      var it: ReadIterator?<V> := null;
      if !ops[i].Direct(g) {
        it := new ReadIterator(ops[i].val, g.shape, g.chunkshape, true);
      }
      iters := iters + [it];
    }
  }

  /** The next slice of one operand, repartitioned into the external buffer. */
  method NextRepart<V(0)>(it: ReadIterator<V>, op: Operand<V>, g: Geometry, ghost n: nat, zero: V)
    returns (input: ChunkInput<V>)
    requires g.Valid() && g.Ndim() <= MAX_DIM && StepAt(it, op, g, n) && n < Prod(g.ChunksShape())
    modifies it`nblock, it`curShape, it`curStart, it.block
    ensures StepAt(it, op, g, n + 1)
    ensures Positive(g.ChunksShape()) && InputHolds(input, op, g, Unflatten(g.ChunksShape(), n))
  {
    hide Prod, Unflatten, HoldsSlice, IsRepart, InputHolds;
    assert g.ChunksShape() == PieceCount(g.shape, g.chunkshape);
    ProdPositiveIf(g.ChunksShape(), n);
    it.Next();
    var external := new V[Prod(g.ExtChunkshape())];
    var ok := RepartChunk(external, it.block[..], zero, g);
    assert ok;
    RepartInput(op, g, n, it.block[..], zero, external[..]);
    input := Buffer(external[..]);
  }

  ghost predicate AllInputs<V>(inputs: seq<ChunkInput<V>>, ops: seq<Operand<V>>, g: Geometry, c: Index)
    requires g.Valid()
  {
    |inputs| == |ops| && forall i | 0 <= i < |ops| :: InputHolds(inputs[i], ops[i], g, c)
  }

  /** The data of every operand for output chunk `n`. */
  method LoadInputs<V(0)>(ops: seq<Operand<V>>, iters: seq<ReadIterator?<V>>, g: Geometry, n: nat, zero: V)
    returns (inputs: seq<ChunkInput<V>>)
    requires g.Valid() && g.Ndim() <= MAX_DIM && RepartStep(iters, ops, g, n) && n < Prod(g.ChunksShape())
    requires forall i | 0 <= i < |ops| :: ops[i].Fits(g.shape)
    modifies iters, set i | 0 <= i < |iters| && iters[i] != null :: iters[i].block
    ensures RepartStep(iters, ops, g, n + 1)
    ensures Positive(g.ChunksShape()) && AllInputs(inputs, ops, g, Unflatten(g.ChunksShape(), n))
  {
    hide Prod, Unflatten, InputHolds, Operand.Fits;
    ProdPositiveIf(g.ChunksShape(), n);
    inputs := [];
    for k := 0 to |iters|
      invariant |inputs| == k
      invariant forall i | 0 <= i < k :: InputHolds(inputs[i], ops[i], g, Unflatten(g.ChunksShape(), n))
      invariant forall i | 0 <= i < |iters| :: StepAt(iters[i], ops[i], g, if i < k then n + 1 else n)
    {
      assert StepAt(iters[k], ops[k], g, n);
      if ops[k].Direct(g) {
        DirectInput(ops[k], g, n);
        inputs := inputs + [Chunk(ops[k].stored.chunks[n])];
      } else {
        var input := NextRepart(iters[k], ops[k], g, n, zero);
        inputs := inputs + [input];
      }
    }
  }

  // ---------------------------------------------------------------------
  // The prefilter

  /** Block `b` of chunk `c` of the result; items outside the array are not specified. */
  ghost predicate BlockDone<V>(block: seq<V>, ops: seq<Operand<V>>, f: seq<V> -> V, g: Geometry, c: Index, b: Index)
    requires g.Valid()
  {
    && |block| == Prod(g.blockshape)
    && forall t | InShape(g.blockshape, t) && g.Inside(c, b, t) ::
         Flatten(g.blockshape, t) < |block| && block[Flatten(g.blockshape, t)] == Pointwise(ops, f, g.Compose(c, b, t))
  }

  method GatherItems<V>(inputs: seq<ChunkInput<V>>, l: nat, u: nat, size: nat) returns (xs: seq<V>)
    requires forall i | 0 <= i < |inputs| :: inputs[i].HasItem(l, u, size)
    ensures |xs| == |inputs| && forall i | 0 <= i < |inputs| :: xs[i] == inputs[i].Item(l, u, size)
  {
    xs := [];
    for i := 0 to |inputs|
      invariant |xs| == i && forall k | 0 <= k < i :: xs[k] == inputs[k].Item(l, u, size)
    {
      xs := xs + [inputs[i].Item(l, u, size)];
    }
  }

  /** The operands' values for one item of the output. */
  lemma GatheredItem<V>(inputs: seq<ChunkInput<V>>, ops: seq<Operand<V>>, g: Geometry, c: Index, b: Index, t: Index)
    requires g.Valid() && AllInputs(inputs, ops, g, c) && InShape(g.BlocksShape(), b) && InShape(g.blockshape, t)
    ensures var l, u, size := Flatten(g.BlocksShape(), b), Flatten(g.blockshape, t), Prod(g.blockshape);
            && (forall i | 0 <= i < |inputs| :: inputs[i].HasItem(l, u, size))
            && (g.Inside(c, b, t) ==> forall i | 0 <= i < |inputs| ::
                inputs[i].Item(l, u, size) == ops[i].val(g.Compose(c, b, t)))
  {
    hide Prod, Flatten;
    forall i | 0 <= i < |inputs| ensures InputItem(inputs[i], ops[i], g, c, b, t) {
      assert InputHolds(inputs[i], ops[i], g, c);
    }
  }

  /** prefilter_func for block `l`: the block's offset divided by its size. */
  method Prefilter<V(0)>(inputs: seq<ChunkInput<V>>, f: seq<V> -> V, g: Geometry, outOffset: nat,
                         ghost ops: seq<Operand<V>>, ghost c: Index, ghost b: Index)
    returns (out: seq<V>)
    requires g.Valid() && AllInputs(inputs, ops, g, c) && InShape(g.BlocksShape(), b)
    requires outOffset == Start(Flatten(g.BlocksShape(), b), Prod(g.blockshape))
    ensures BlockDone(out, ops, f, g, c, b)
  {
    var size := Prod(g.blockshape);
    ProdPositive(g.blockshape);
    var l := outOffset / size;
    assert l == Flatten(g.BlocksShape(), b) by {
      StartIs(Flatten(g.BlocksShape(), b), size);
      QuotientUnique(outOffset, size, Flatten(g.BlocksShape(), b), 0);
    }
    hide Prod, Flatten, Unflatten, AllInputs, ChunkInput.Item, ChunkInput.HasItem, Pointwise, Geometry.Inside;
    out := [];
    for u := 0 to size
      invariant |out| == u
      invariant forall t | InShape(g.blockshape, t) && Flatten(g.blockshape, t) < u && g.Inside(c, b, t) ::
                  out[Flatten(g.blockshape, t)] == Pointwise(ops, f, g.Compose(c, b, t))
    {
      FlattenUnflatten(g.blockshape, u);
      ghost var t := Unflatten(g.blockshape, u);
      GatheredItem(inputs, ops, g, c, b, t);
      var xs := GatherItems(inputs, l, u, size);
      out := out + [f(xs)];
      forall t' | InShape(g.blockshape, t') && Flatten(g.blockshape, t') == u && g.Inside(c, b, t')
        ensures f(xs) == Pointwise(ops, f, g.Compose(c, b, t'))
      {
        FlattenInjective(g.blockshape, t, t');
        PointwiseOf(ops, f, g.Compose(c, b, t), xs, inputs);
      }
    }
    forall t | InShape(g.blockshape, t) ensures Flatten(g.blockshape, t) < size { FlattenBound(g.blockshape, t); }
  }

  lemma PointwiseOf<V>(ops: seq<Operand<V>>, f: seq<V> -> V, x: Index, xs: seq<V>, inputs: seq<ChunkInput<V>>)
    requires |xs| == |ops| && forall i | 0 <= i < |ops| :: xs[i] == ops[i].val(x)
    ensures f(xs) == Pointwise(ops, f, x)
  {
    assert xs == Inputs(ops, x);
  }

  ghost predicate ChunkDone<V>(chunk: seq<seq<V>>, ops: seq<Operand<V>>, f: seq<V> -> V, g: Geometry, n: nat)
    requires g.Valid() && Positive(g.ChunksShape())
  {
    && |chunk| == Prod(g.BlocksShape())
    && forall l: nat | l < |chunk| ::
        BlockDone(chunk[l], ops, f, g, Unflatten(g.ChunksShape(), n), Unflatten(g.BlocksShape(), l))
  }

  /** blosc2_compress_ctx with the prefilter: one call per block. */
  method CompressChunk<V(0)>(inputs: seq<ChunkInput<V>>, f: seq<V> -> V, g: Geometry, ghost ops: seq<Operand<V>>,
                             ghost n: nat)
    returns (chunk: seq<seq<V>>)
    requires g.Valid() && Positive(g.ChunksShape()) && AllInputs(inputs, ops, g, Unflatten(g.ChunksShape(), n))
    ensures ChunkDone(chunk, ops, f, g, n)
  {
    hide Prod, Flatten, Unflatten, AllInputs, BlockDone;
    chunk := [];
    var offset := 0;
    StartZero(Prod(g.blockshape));
    for l := 0 to Prod(g.BlocksShape())
      invariant |chunk| == l && offset == Start(l, Prod(g.blockshape))
      invariant forall k: nat | k < l ::
                  BlockDone(chunk[k], ops, f, g, Unflatten(g.ChunksShape(), n), Unflatten(g.BlocksShape(), k))
    {
      FlattenUnflatten(g.BlocksShape(), l);
      var block := Prefilter(inputs, f, g, offset, ops, Unflatten(g.ChunksShape(), n), Unflatten(g.BlocksShape(), l));
      chunk := chunk + [block];
      StartNext(l, Prod(g.blockshape));
      offset := offset + Prod(g.blockshape);
    }
  }

  // ---------------------------------------------------------------------
  // The write iterator over compressed chunks

  /** The same deferred flush, where the buffer is a compressed chunk that goes
      to chunk nblock - 1 of the container. */
  class ChunkWriter<V> {
    const totalBlocks: nat
    var nblock: nat
    var block: seq<seq<V>>
    var chunks: seq<seq<seq<V>>>

    ghost predicate Valid()
      reads this`chunks, this`nblock
    {
      |chunks| == totalBlocks && nblock <= totalBlocks
    }

    constructor (total: nat)
      ensures Valid() && totalBlocks == total && nblock == 0
    {
      totalBlocks, nblock, block := total, 0, [];
      chunks := seq(total, _ => []);
    }

    method Next()
      requires Valid() && nblock < totalBlocks
      modifies this`nblock, this`chunks
      ensures Valid() && nblock == old(nblock) + 1
      ensures chunks == if old(nblock) == 0 then old(chunks) else old(chunks)[old(nblock) - 1 := block]
    {
      if nblock != 0 {
        chunks := chunks[nblock - 1 := block];
      }
      nblock := nblock + 1;
    }

    method HasNext() returns (more: bool)
      requires Valid() && totalBlocks > 0
      modifies this`chunks
      ensures Valid() && (more <==> nblock < totalBlocks)
      ensures chunks == if more then old(chunks) else old(chunks)[totalBlocks - 1 := block]
    {
      if nblock == totalBlocks {
        chunks := chunks[nblock - 1 := block];
      }
      more := nblock < totalBlocks;
    }
  }

  /** Every chunk but the one in the buffer is stored, and holds the result. */
  ghost predicate EarlierStored<V>(w: ChunkWriter<V>, ops: seq<Operand<V>>, f: seq<V> -> V, g: Geometry)
    requires g.Valid() && Positive(g.ChunksShape())
    reads w`chunks, w`nblock
  {
    && w.Valid() && w.totalBlocks == Prod(g.ChunksShape()) > 0
    && forall k: nat | k + 1 < w.nblock :: ChunkDone(w.chunks[k], ops, f, g, k)
  }

  /** And so does the one in the buffer. */
  ghost predicate AllStored<V>(w: ChunkWriter<V>, ops: seq<Operand<V>>, f: seq<V> -> V, g: Geometry)
    requires g.Valid() && Positive(g.ChunksShape())
    reads w
  {
    EarlierStored(w, ops, f, g) && (w.nblock > 0 ==> ChunkDone(w.block, ops, f, g, w.nblock - 1))
  }

  /** The turn that ends is stored. */
  method NextChunk<V>(w: ChunkWriter<V>, ghost ops: seq<Operand<V>>, ghost f: seq<V> -> V, ghost g: Geometry)
    requires g.Valid() && Positive(g.ChunksShape()) && AllStored(w, ops, f, g) && w.nblock < w.totalBlocks
    modifies w`nblock, w`chunks
    ensures EarlierStored(w, ops, f, g) && w.nblock == old(w.nblock) + 1
  {
    hide ChunkDone, Prod;
    w.Next();
  }

  /** At the end the last turn is stored too. */
  method MoreChunks<V>(w: ChunkWriter<V>, ghost ops: seq<Operand<V>>, ghost f: seq<V> -> V, ghost g: Geometry)
    returns (more: bool)
    requires g.Valid() && Positive(g.ChunksShape()) && AllStored(w, ops, f, g)
    modifies w`chunks
    ensures AllStored(w, ops, f, g) && (more <==> w.nblock < w.totalBlocks)
    ensures !more ==>
              && |w.chunks| == w.totalBlocks
              && forall k: nat | k < |w.chunks| :: ChunkDone(w.chunks[k], ops, f, g, k)
  {
    hide ChunkDone, Prod;
    more := w.HasNext();
  }

  lemma DoneMeans<V>(chunks: seq<seq<seq<V>>>, ops: seq<Operand<V>>, f: seq<V> -> V, g: Geometry)
    requires g.Valid() && Positive(g.ChunksShape()) && |chunks| == Prod(g.ChunksShape())
    requires forall k: nat | k < |chunks| :: ChunkDone(chunks[k], ops, f, g, k)
    ensures Stored(g, chunks).WellFormed()
    ensures forall x | InShape(g.shape, x) :: Stored(g, chunks).At(x) == Pointwise(ops, f, x)
  {
    hide Prod, Flatten, Unflatten, Pointwise;
    var s := Stored(g, chunks);
    assert s.WellFormed() by {
      forall k, l | 0 <= k < |chunks| && 0 <= l < |chunks[k]|
        ensures |chunks[k]| == Prod(g.BlocksShape()) && |chunks[k][l]| == Prod(g.blockshape)
      {
        assert ChunkDone(chunks[k], ops, f, g, k);
      }
    }
    forall x | InShape(g.shape, x) ensures s.At(x) == Pointwise(ops, f, x) {
      var c, b, t := g.ChunkOf(x), g.BlockOf(x), g.ItemOf(x);
      Split(g, x);
      UnflattenFlatten(g.ChunksShape(), c);
      UnflattenFlatten(g.BlocksShape(), b);
      FlattenBound(g.blockshape, t);
      var k, l := Flatten(g.ChunksShape(), c), Flatten(g.BlocksShape(), b);
      assert ChunkDone(chunks[k], ops, f, g, k);
      assert BlockDone(chunks[k][l], ops, f, g, c, b);
    }
  }

  /** iarray_eval_iterblosc: whatever mix of stored-alike and repartitioned
      operands, every element is the pointwise result. */
  method IterBlosc<V(0)>(ops: seq<Operand<V>>, f: seq<V> -> V, g: Geometry, zero: V) returns (r: Stored<V>)
    requires g.Valid() && Positive(g.shape) && g.Ndim() <= MAX_DIM
    requires forall i | 0 <= i < |ops| :: ops[i].Fits(g.shape)
    ensures r.WellFormed() && r.geom == g
    ensures forall x | InShape(g.shape, x) :: r.At(x) == Pointwise(ops, f, x)
  {
    hide Prod, Unflatten, Flatten, ChunkDone, RepartStep, Operand.Fits, AllInputs;
    assert Positive(g.ChunksShape()) by {
      forall i | 0 <= i < |g.shape| ensures g.ChunksShape()[i] > 0 { CeilDivBelow(0, g.shape[i], g.chunkshape[i]); }
    }
    ProdPositive(g.ChunksShape());
    var iters := NewRepartIterators(ops, g);
    var w := new ChunkWriter(Prod(g.ChunksShape()));
    assert AllStored(w, ops, f, g);
    hide EarlierStored, Geometry.ChunksShape, CeilDiv;
    var nchunk := 0;
    var more := MoreChunks(w, ops, f, g);
    while more
      invariant fresh(w) && w.totalBlocks == Prod(g.ChunksShape()) && nchunk == w.nblock <= w.totalBlocks
      invariant AllStored(w, ops, f, g) && RepartStep(iters, ops, g, nchunk)
      invariant more <==> w.nblock < w.totalBlocks
      invariant !more ==> |w.chunks| == w.totalBlocks
      invariant !more ==> forall k: nat | k < |w.chunks| :: ChunkDone(w.chunks[k], ops, f, g, k)
      decreases w.totalBlocks - w.nblock, more
    {
      NextChunk(w, ops, f, g);
      var inputs := LoadInputs(ops, iters, g, nchunk, zero);
      var chunk := CompressChunk(inputs, f, g, ops, nchunk);
      w.block := chunk;
      nchunk := nchunk + 1;
      more := MoreChunks(w, ops, f, g);
    }
    r := Stored(g, w.chunks);
    DoneMeans(w.chunks, ops, f, g);
  }
}
