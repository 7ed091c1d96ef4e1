/** Matrix product with B's blocks held in a scratch buffer
    (src/linalg/iarray_gemm_b.c).  The buffer is refilled for every output chunk,
    but blocks of B that test as zero are masked out of the decompression, so
    their place keeps whatever an earlier chunk left there. */
module GemmB {
  import opened Lists
  import opened Arith
  import opened Layout
  import opened Geometry
  import opened Sums
  import opened Errors
  import opened Gemm

  /** Block `l` of the buffer holds `block`. */
  ghost predicate InPlace(buf: seq<int>, size: nat, l: nat, block: seq<int>) {
    Start(l, size) + size <= |buf| && buf[Start(l, size)..Start(l, size) + size] == block
  }

  /** memcpy of one block; the rest of the buffer is untouched. */
  method CopyBlock(buf: array<int>, start: nat, block: seq<int>)
    requires start + |block| <= buf.Length
    modifies buf
    ensures buf[start..start + |block|] == block
    ensures buf[..start] == old(buf[..start]) && buf[start + |block|..] == old(buf[start + |block|..])
  {
    for i := 0 to |block|
      invariant buf[start..start + i] == block[..i]
      invariant buf[..start] == old(buf[..start]) && buf[start + i..] == old(buf[start + i..])
    {
      buf[start + i] := block[i];
    }
  }

  /** A block stays in place while a later one is copied. */
  lemma StaysInPlace(before: seq<int>, after: seq<int>, size: nat, k: nat, l: nat, block: seq<int>)
    requires k < l && Start(l, size) <= |before| == |after| && before[..Start(l, size)] == after[..Start(l, size)]
    requires InPlace(before, size, k, block)
    ensures InPlace(after, size, k, block)
  {
    StartNext(k, size);
    StartMono(k + 1, l, size);
    hide Start;
    var n, s := Start(l, size), Start(k, size);
    assert before[s..s + size] == before[..n][s..s + size] == after[..n][s..s + size] == after[s..s + size];
  }

  class ScratchProduct {
    const p: Product
    const za: ZeroTest
    const zb: ZeroTest
    const size: nat  // items of a B block
    var bBlocks: array<int>
    var bZeros: array<bool>

    ghost predicate Valid()
      reads this
    {
      && p.Valid() && ZeroPadded(p.a) && ZeroPadded(p.b) && za.SoundFor(p.a) && zb.SoundFor(p.b)
      && p.a.geom.chunkshape[0] == p.a.geom.blockshape[0] && p.b.geom.chunkshape[1] == p.b.geom.blockshape[1]
      && p.Kc() == p.BRows() == 1
      && size == p.BK() * p.BN() && bBlocks.Length == Start(p.Kb(), size) && bZeros.Length == p.Kb()
    }

    /** After chunk `n` is loaded, every block that is not masked is in its place. */
    ghost predicate Loaded(n: nat)
      requires Valid()
      reads this, bBlocks, bZeros
    {
      && n < |p.b.chunks| && |p.b.chunks[n]| == p.Kb()
      && forall l: nat | l < p.Kb() ::
          if bZeros[l] then zb.block(n, l) else InPlace(bBlocks[..], size, l, p.b.chunks[n][l])
    }

    constructor (p: Product, za: ZeroTest, zb: ZeroTest)
      requires p.Valid() && ZeroPadded(p.a) && ZeroPadded(p.b) && za.SoundFor(p.a) && zb.SoundFor(p.b)
      requires p.a.geom.chunkshape[0] == p.a.geom.blockshape[0] && p.b.geom.chunkshape[1] == p.b.geom.blockshape[1]
      requires p.Kc() == p.BRows() == 1
      ensures this.p == p && this.za == za && this.zb == zb && Valid() && fresh(bBlocks) && fresh(bZeros)
    {
      this.p, this.za, this.zb, size := p, za, zb, p.BK() * p.BN();
      bBlocks := new int[Start(p.Kb(), p.BK() * p.BN())];
      bZeros := new bool[p.Kb()];
    }

    /** The mask for chunk `n`, then the masked decompression: masked blocks keep
        the data of earlier chunks. */
    method LoadChunk(n: nat)
      requires Valid() && n < |p.b.chunks|
      modifies bBlocks, bZeros
      ensures Loaded(n)
    {
      BlockCounts(p, n);
      var chunk, nblocks := p.b.chunks[n], p.Kb();
      hide Product.Valid, ZeroPadded, ZeroTest.SoundFor, Start, InPlace;
      for l := 0 to nblocks
        invariant forall k: nat | k < l :: bZeros[k] == zb.block(n, k)
      {
        bZeros[l] := zb.block(n, l);
      }
      for l := 0 to nblocks
        invariant forall k: nat | k < nblocks :: bZeros[k] == zb.block(n, k)
        invariant forall k: nat | k < l && !bZeros[k] :: InPlace(bBlocks[..], size, k, chunk[k])
      {
        if !bZeros[l] {
          ghost var before := bBlocks[..];
          StartNext(l, size);
          StartMono(l + 1, nblocks, size);
          CopyBlock(bBlocks, Start(l, size), chunk[l]);
          forall k: nat | k < l && !bZeros[k] ensures InPlace(bBlocks[..], size, k, chunk[k]) {
            StaysInPlace(before, bBlocks[..], size, k, l, chunk[k]);
          }
          assert InPlace(bBlocks[..], size, l, chunk[l]) by { NowInPlace(bBlocks[..], size, l, chunk[l]); }
        }
      }
    }

    /** _gemm_b_prefilter for block `m` of output chunk `n`; `ok` is false when A
        has no chunk for it. */
    method Prefilter(n: nat, m: nat, out: array<int>) returns (ok: bool)
      requires Valid() && Loaded(n) && n < p.b.geom.ChunksShape()[1]
      requires out.Length == p.BM() * p.BN() && out != bBlocks
      modifies out
      ensures ok <==> m < |p.a.chunks|
      ensures ok ==> p.IsOutBlock([m, n], [0, 0]) && p.Accumulated([m, n], [0, 0], out[..], 1, 0)
    {
      hide Product.Accumulated, ZeroPadded, ZeroTest.SoundFor, AZero, BZero;
      for i := 0 to out.Length
        invariant forall q | 0 <= q < i :: out[q] == 0
      {
        out[i] := 0;
      }
      if m >= |p.a.chunks| {
        return false;
      }
      var c, ob := [m, n], [0, 0];
      SingleChunk(p, m, n);
      NothingAccumulated(p, c, ob, out[..]);
      if za.chunk(m) {
        forall kb: nat | kb < p.Kb() ensures AZero(p, c, ob, 0, kb) { AZeroTest(p, za, c, ob, 0, kb); }
        SkipChunk(p, c, ob, out[..], 0);
        return true;
      }
      for kb := 0 to p.Kb()
        invariant p.Accumulated(c, ob, out[..], 0, kb)
      {
        AddPair(n, m, kb, out);
      }
      ChunkDone(p, c, ob, out[..], 0);
      return true;
    }

    /** One pair of blocks; the masked blocks of B are never read. */
    method AddPair(n: nat, m: nat, kb: nat, out: array<int>)
      requires Valid() && Loaded(n) && n < p.b.geom.ChunksShape()[1] && m < |p.a.chunks| && kb < p.Kb()
      requires out.Length == p.BM() * p.BN() && out != bBlocks
      requires p.IsOutBlock([m, n], [0, 0]) && p.Accumulated([m, n], [0, 0], out[..], 0, kb)
      modifies out
      ensures p.Accumulated([m, n], [0, 0], out[..], 0, kb + 1)
    {
      hide Product.Accumulated, ZeroPadded, ZeroTest.SoundFor, Product.ASlot, Product.BSlot, SumTo;
      var c, ob := [m, n], [0, 0];
      SingleChunk(p, m, n);
      if bZeros[kb] {
        assert zb.block(n, kb);
        BZeroTest(p, zb, c, ob, 0, kb);
        SkipZeroBlock(p, c, ob, out[..], 0, kb);
        return;
      }
      if za.block(m, kb) {
        AZeroTest(p, za, c, ob, 0, kb);
        SkipZeroBlock(p, c, ob, out[..], 0, kb);
        return;
      }
      var x := FetchA(p, c, ob, 0, kb);
      var y := ReadScratch(n, m, kb);
      NothingPastEnd(p.a.geom.shape[0], p.a.geom.chunkshape[0], p.BM(), m, 0);
      NothingPastEnd(p.a.geom.shape[1], p.a.geom.chunkshape[1], p.BK(), 0, kb);
      NothingPastEnd(p.b.geom.shape[1], p.b.geom.chunkshape[1], p.BN(), n, 0);
      ghost var before := out[..];
      Dgemm(p.BM(), p.BN(), p.BK(), x, p.BK(), y, p.BN(), out, p.BN());
      AddBlock(p, c, ob, 0, kb, p.BM(), p.BK(), p.BN(), x, y, before, out[..]);
    }

    method ReadScratch(n: nat, m: nat, kb: nat) returns (y: seq<int>)
      requires Valid() && Loaded(n) && n < p.b.geom.ChunksShape()[1] && m < |p.a.chunks| && kb < p.Kb() && !bZeros[kb]
      requires p.IsOutBlock([m, n], [0, 0])
      ensures IsBBlock(p, [m, n], [0, 0], 0, kb, y)
    {
      assert InPlace(bBlocks[..], size, kb, p.b.chunks[n][kb]);
      y := bBlocks[Start(kb, size)..Start(kb, size) + size];
      BlockIsB(p, n, m, kb, y);
    }
  }

  lemma NowInPlace(buf: seq<int>, size: nat, l: nat, block: seq<int>)
    requires Start(l, size) + size <= |buf| && buf[Start(l, size)..Start(l, size) + size] == block
    ensures InPlace(buf, size, l, block)
  {}

  lemma BlockIsB(p: Product, n: nat, m: nat, kb: nat, y: seq<int>)
    requires p.Valid() && p.Kc() == 1 && m < |p.a.chunks| && n < p.b.geom.ChunksShape()[1] && kb < p.Kb()
    requires p.a.geom.chunkshape[0] == p.a.geom.blockshape[0] && p.b.geom.chunkshape[1] == p.b.geom.blockshape[1]
    requires p.IsOutBlock([m, n], [0, 0]) && n < |p.b.chunks| && |p.b.chunks[n]| == p.Kb() && y == p.b.chunks[n][kb]
    ensures IsBBlock(p, [m, n], [0, 0], 0, kb, y)
  {
    BlockCounts(p, n);
    SingleChunk(p, m, n);
    hide Product.BSlot, Product.BChunk, Product.BBlock, Cell;
    forall k: nat, j: nat | k < p.BK() && j < p.BN() && Cell(k, p.BN(), j) < |y|
      ensures y[Cell(k, p.BN(), j)] == p.BSlot([m, n], [0, 0], j, 0, kb, k)
    {
      BSlotAt(p, [m, n], [0, 0], j, 0, kb, k);
    }
  }

  lemma BlockCounts(p: Product, n: nat)
    requires p.Valid() && n < |p.b.chunks| && p.b.geom.chunkshape[1] == p.b.geom.blockshape[1]
    ensures |p.b.chunks[n]| == p.Kb() && forall l: nat | l < p.Kb() :: |p.b.chunks[n][l]| == p.BK() * p.BN()
  {
    InnerAxis(p);
    OneBlock(p.b.geom.chunkshape[1]);
    Flatten2(p.b.geom.BlocksShape(), 0, 0);
    Flatten2(p.b.geom.blockshape, 0, 0);
  }

  lemma OneBlock(n: nat)
    requires n > 0
    ensures CeilDiv(n, n) == 1
  {
    QuotientUnique(n, n, 1, 0);
  }

  /** With one chunk along the inner axis and one block across, the flat numbers
      of the chunks and blocks that meet are the plain loop counters. */
  lemma SingleChunk(p: Product, m: nat, n: nat)
    requires p.Valid() && p.Kc() == 1 && m < |p.a.chunks| && n < p.b.geom.ChunksShape()[1]
    requires p.a.geom.chunkshape[0] == p.a.geom.blockshape[0] && p.b.geom.chunkshape[1] == p.b.geom.blockshape[1]
    ensures p.IsOutBlock([m, n], [0, 0]) && p.AChunk([m, n], 0) == m && p.BChunk([m, n], 0) == n
    ensures forall kb: nat | kb < p.Kb() :: p.ABlock([0, 0], kb) == kb && p.BBlock([0, 0], kb) == kb
  {
    OneBlock(p.a.geom.chunkshape[0]);
    OneBlock(p.b.geom.chunkshape[1]);
    Flatten2(p.a.geom.ChunksShape(), 0, 0);
  }

  // ---------------------------------------------------------------------
  // iarray_opt_gemm_b

  /** What the layout checks ask for: one chunk of A spans the inner axis and is
      one block high, one chunk of B spans it and is one block wide, and one chunk
      of C spans all rows. */
  predicate LayoutsFit(a: Geometry, b: Geometry, chunkshape: seq<nat>, blockshape: seq<nat>)
    requires |a.chunkshape| == |a.blockshape| == |a.shape| && |b.chunkshape| == |b.blockshape| == |b.shape|
    requires |chunkshape| == |blockshape| == 2
  {
    && a.Ndim() == b.Ndim() == 2 && a.shape[1] == b.shape[0]
    && a.chunkshape[1] >= a.shape[1] && a.chunkshape[1] == b.chunkshape[0] && a.blockshape[1] == b.blockshape[0]
    && chunkshape[0] >= a.shape[0] && a.chunkshape[0] == a.blockshape[0] == blockshape[0]
    && b.chunkshape[1] == b.blockshape[1] == chunkshape[1] == blockshape[1]
  }

  /** The checks, in the order of the source. */
  method CheckLayouts(a: Geometry, b: Geometry, chunkshape: seq<nat>, blockshape: seq<nat>) returns (r: Result<()>)
    requires a.Valid() && b.Valid() && |chunkshape| == |blockshape| == 2
    ensures r.Success? <==> LayoutsFit(a, b, chunkshape, blockshape)
    ensures r.Failure? ==> r.error in {InvalidNdim, InvalidShape, InvalidChunkshape, InvalidBlockshape}
    ensures r.Failure? && r.error == InvalidNdim <==> !(a.Ndim() == b.Ndim() == 2)
    ensures r.Failure? && r.error == InvalidShape <==> a.Ndim() == b.Ndim() == 2 && a.shape[1] != b.shape[0]
  {
    if a.Ndim() != 2 || b.Ndim() != 2 {
      return Failure(InvalidNdim);
    }
    if a.shape[1] != b.shape[0] {
      return Failure(InvalidShape);
    }
    if a.chunkshape[1] < a.shape[1] || b.chunkshape[0] < b.shape[0] || a.chunkshape[1] != b.chunkshape[0]
       || a.shape[0] > chunkshape[0] || b.chunkshape[1] != chunkshape[1] {
      return Failure(InvalidChunkshape);
    }
    if a.chunkshape[0] != blockshape[0] || b.chunkshape[1] != blockshape[1] || a.chunkshape[0] != a.blockshape[0]
       || b.chunkshape[1] != b.blockshape[1] || a.blockshape[1] != b.blockshape[0] {
      return Failure(InvalidBlockshape);
    }
    return Success(());
  }

  /** The slot of C in block `m` of chunk `n` belongs to block (0, 0) of the pair (m, n). */
  ghost function ScratchItem(p: Product): SlotFn<int>
    requires p.Valid()
  {
    (c: Index, b: Index, t: Index) =>
      if |c| == |b| == |t| == 2 && p.IsOutBlock([b[0], c[1]], [0, 0]) && t[0] < p.BM() && t[1] < p.BN()
      then p.Acc([b[0], c[1]], [0, 0], t[0], t[1], 1, 0) else 0
  }

  /** How C is cut: a single row of chunks, and in each a single column of blocks. */
  lemma CLayout(p: Product, g: Geometry)
    requires p.Valid() && g.Valid() && |g.shape| == 2 && g.shape[0] <= g.chunkshape[0]
    requires g.chunkshape[1] == g.blockshape[1]
    ensures g.ChunksShape()[0] == (if g.shape[0] > 0 then 1 else 0)
    ensures Prod(g.ChunksShape()) == if g.shape[0] > 0 then g.ChunksShape()[1] else 0
    ensures g.BlocksShape()[1] == 1 && Prod(g.BlocksShape()) == g.BlocksShape()[0]
    ensures Prod(g.blockshape) == g.blockshape[0] * g.blockshape[1]
  {
    OneBlock(g.chunkshape[1]);
    OnePiece(g.shape[0], g.chunkshape[0]);
    Flatten2(g.ChunksShape(), 0, 0);
    Flatten2(g.BlocksShape(), 0, 0);
    Flatten2(g.blockshape, 0, 0);
  }

  lemma OnePiece(n: nat, d: nat)
    requires d > 0 && n <= d
    ensures CeilDiv(n, d) == if n > 0 then 1 else 0
  {
    CeilDivBelow(1, n, d);
  }

  lemma ScratchBlockDone(p: Product, g: Geometry, n: nat, m: nat, block: seq<int>)
    requires p.Valid() && g.Valid() && |g.shape| == 2 && g.blockshape == [p.BM(), p.BN()] && g.BlocksShape()[1] == 1
    requires p.IsOutBlock([m, n], [0, 0]) && p.Accumulated([m, n], [0, 0], block, 1, 0)
    ensures BlockHolds(g, ScratchItem(p), [0, n], m, block)
  {
    hide Product.Acc, Product.IsOutBlock;
    Unflatten2(g.BlocksShape(), m);
    Flatten2(g.blockshape, 0, 0);
    var b := Unflatten(g.BlocksShape(), m);
    assert b == [m, 0];
    forall u: nat | u < |block|
      ensures block[u] == ScratchItem(p)([0, n], b, Unflatten(g.blockshape, u))
    {
      Unflatten2(g.blockshape, u);
      DivBound(u, p.BM(), p.BN());
      assert [b[0], [0, n][1]] == [m, n];
    }
  }

  /** Main result: masked blocks of the shared buffer hold stale data, yet C is
      the plain product with zero padding.  When the layouts fit, a product with
      elements succeeds exactly when a chunk of C has as many rows of blocks as A
      has chunks; otherwise A has no chunk for some block of C. */
  method OptGemmB(a: Stored<int>, b: Stored<int>, za: ZeroTest, zb: ZeroTest, chunkshape: seq<nat>,
                  blockshape: seq<nat>)
    returns (r: Result<Stored<int>>)
    requires a.WellFormed() && b.WellFormed() && ZeroPadded(a) && ZeroPadded(b) && za.SoundFor(a) && zb.SoundFor(b)
    requires Positive(chunkshape) && Positive(blockshape) && |chunkshape| == |blockshape| == 2
    requires LayoutsFit(a.geom, b.geom, chunkshape, blockshape) && a.geom.shape[0] > 0 && b.geom.shape[1] > 0 ==>
               a.geom.shape[1] > 0
    ensures r.Success? <==>
              && LayoutsFit(a.geom, b.geom, chunkshape, blockshape)
              && (a.geom.shape[0] == 0 || b.geom.shape[1] == 0 || CeilDiv(chunkshape[0], blockshape[0]) == |a.chunks|)
    ensures r.Success? ==>
              var p := Product(a, b);
              && p.Valid() && r.value.WellFormed() && ZeroPadded(r.value)
              && r.value.geom == Geometry([a.geom.shape[0], b.geom.shape[1]], chunkshape, blockshape)
              && forall i: nat, j: nat | i < a.geom.shape[0] && j < b.geom.shape[1] ::
                   r.value.At([i, j]) == PlainProduct(p, i, j)
    ensures r.Failure? ==> (r.error == BloscFailed <==> LayoutsFit(a.geom, b.geom, chunkshape, blockshape))
    ensures r.Failure? && r.error == BloscFailed ==> CeilDiv(chunkshape[0], blockshape[0]) > |a.chunks|
  {
    var check := CheckLayouts(a.geom, b.geom, chunkshape, blockshape);
    if check.Failure? {
      return Failure(check.error);
    }
    var p := Product(a, b);
    if a.geom.shape[0] == 0 || b.geom.shape[1] == 0 {
      NoChunks(Geometry([a.geom.shape[0], b.geom.shape[1]], chunkshape, blockshape));
      return Success(Stored(Geometry([a.geom.shape[0], b.geom.shape[1]], chunkshape, blockshape), []));
    }
    OnePiece(a.geom.shape[1], a.geom.chunkshape[1]);
    var scratch := new ScratchProduct(p, za, zb);
    r := RunChunks(scratch, chunkshape, blockshape);
  }

  /** Without rows or columns C has no chunk, and its loop nothing to do. */
  lemma NoChunks(g: Geometry)
    requires g.Valid() && |g.shape| == 2 && (g.shape[0] == 0 || g.shape[1] == 0)
    ensures var st: Stored<int> := Stored(g, []); st.WellFormed() && ZeroPadded(st)
  {
    var i := if g.shape[0] == 0 then 0 else 1;
    assert g.ChunksShape()[i] == 0;
    Flatten2(g.ChunksShape(), 0, 0);
  }

  /** A product that passes every check and fails: 1 x 1 operands, but chunks of
      C two rows high, so that C's second block asks for a second chunk of A. */
  method FailingProduct(x: int, y: int) returns (a: Stored<int>, b: Stored<int>, r: Result<Stored<int>>)
    ensures a.WellFormed() && b.WellFormed()
    ensures LayoutsFit(a.geom, b.geom, [2, 1], [1, 1]) && r == Failure(BloscFailed)
  {
    var g := Geometry([1, 1], [1, 1], [1, 1]);
    a, b := Stored(g, [[[x]]]), Stored(g, [[[y]]]);
    UnitArray(x);
    UnitArray(y);
    var never := ZeroTest((k: nat) => false, (k: nat, l: nat) => false);
    assert CeilDiv(2, 1) == 2;
    r := OptGemmB(a, b, never, never, [2, 1], [1, 1]);
  }

  lemma UnitArray(x: int)
    ensures var st := Stored(Geometry([1, 1], [1, 1], [1, 1]), [[[x]]]); st.WellFormed() && ZeroPadded(st)
  {
    var g := Geometry([1, 1], [1, 1], [1, 1]);
    OneBlock(1);
    Flatten2(g.ChunksShape(), 0, 0);
    Flatten2(g.BlocksShape(), 0, 0);
    Flatten2(g.blockshape, 0, 0);
    hide Prod, Flatten;
    forall c, b, t | InShape(g.ChunksShape(), c) && InShape(g.BlocksShape(), b) && InShape(g.blockshape, t)
      ensures g.Inside(c, b, t)
    {}
  }

  /** The loop over the chunks of C. */
  method RunChunks(scratch: ScratchProduct, chunkshape: seq<nat>, blockshape: seq<nat>) returns (r: Result<Stored<int>>)
    requires scratch.Valid() && |chunkshape| == |blockshape| == 2 && chunkshape[0] >= scratch.p.a.geom.shape[0]
    requires Positive(chunkshape)
    requires blockshape == [scratch.p.BM(), scratch.p.BN()] && chunkshape[1] == scratch.p.BN()
    modifies scratch.bBlocks, scratch.bZeros
    ensures r.Success? ==>
              && r.value.WellFormed() && ZeroPadded(r.value)
              && r.value.geom == Geometry([scratch.p.a.geom.shape[0], scratch.p.b.geom.shape[1]], chunkshape,
                  blockshape)
              && forall i: nat, j: nat | i < scratch.p.a.geom.shape[0] && j < scratch.p.b.geom.shape[1] ::
                   r.value.At([i, j]) == PlainProduct(scratch.p, i, j)
    ensures var rows := CeilDiv(chunkshape[0], blockshape[0]);
            var empty := scratch.p.a.geom.shape[0] == 0 || scratch.p.b.geom.shape[1] == 0;
            && (r.Success? <==> empty || rows <= |scratch.p.a.chunks|)
            && (r.Success? && !empty ==> rows == |scratch.p.a.chunks|)
            && (r.Failure? ==> r.error == BloscFailed)
  {
    var p := scratch.p;
    var g := Geometry([p.a.geom.shape[0], p.b.geom.shape[1]], chunkshape, blockshape);
    CLayout(p, g);
    AChunks(p, chunkshape[0]);
    BChunks(p);
    hide ChunkHolds, ScratchItem, Prod, Stored.At, ZeroTest.SoundFor, PlainProduct, ZeroPadded;
    var chunks: seq<seq<seq<int>>> := [];
    var nchunk, nchunks := 0, Prod(g.ChunksShape());
    while nchunk < nchunks
      invariant |chunks| == nchunk <= nchunks && scratch.Valid() && (nchunk > 0 ==> Positive(g.ChunksShape()))
      invariant nchunk > 0 ==> g.BlocksShape()[0] <= |p.a.chunks|
      invariant forall k | 0 <= k < nchunk :: ChunkHolds(g, ScratchItem(p), k, chunks[k])
    {
      ProdPositiveIf(g.ChunksShape(), nchunk);
      var ok, chunk := RunChunk(scratch, g, nchunk);
      if !ok {
        return Failure(BloscFailed);
      }
      chunks := chunks + [chunk];
      nchunk := nchunk + 1;
    }
    var result := Stored(g, chunks);
    ArrayHolds(g, ScratchItem(p), chunks);
    ScratchIsProduct(p, result);
    return Success(result);
  }

  lemma AChunks(p: Product, rows: nat)
    requires p.Valid() && p.Kc() == 1 && rows >= p.a.geom.shape[0]
    ensures |p.a.chunks| == CeilDiv(p.a.geom.shape[0], p.a.geom.chunkshape[0]) <= CeilDiv(rows, p.a.geom.chunkshape[0])
  {
    Flatten2(p.a.geom.ChunksShape(), 0, 0);
    var d := p.a.geom.chunkshape[0];
    var q := CeilDiv(rows, d);
    CeilDivBelow(q, p.a.geom.shape[0], d);
  }

  lemma BChunks(p: Product)
    requires p.Valid() && p.BRows() == 1
    ensures |p.b.chunks| == p.b.geom.ChunksShape()[1]
  {
    InnerAxis(p);
    Flatten2(p.b.geom.ChunksShape(), 0, 0);
  }

  /** One chunk of C: fill the scratch buffer, then run the prefilter per block. */
  method RunChunk(scratch: ScratchProduct, g: Geometry, nchunk: nat) returns (ok: bool, chunk: seq<seq<int>>)
    requires scratch.Valid() && g.Valid() && |g.shape| == 2 && g.chunkshape[1] == g.blockshape[1]
    requires g.shape == [scratch.p.a.geom.shape[0], scratch.p.b.geom.shape[1]] && g.shape[0] <= g.chunkshape[0]
    requires g.blockshape == [scratch.p.BM(), scratch.p.BN()] && Positive(g.ChunksShape())
    requires nchunk < Prod(g.ChunksShape())
    modifies scratch.bBlocks, scratch.bZeros
    ensures ok <==> g.BlocksShape()[0] <= |scratch.p.a.chunks|
    ensures ok ==> ChunkHolds(g, ScratchItem(scratch.p), nchunk, chunk)
  {
    CLayout(scratch.p, g);
    BChunks(scratch.p);
    Unflatten2(g.ChunksShape(), nchunk);
    SmallMod(nchunk, g.ChunksShape()[1]);
    scratch.LoadChunk(nchunk);
    ok, chunk := RunBlocks(scratch, g, nchunk);
    assert Unflatten(g.ChunksShape(), nchunk) == [0, nchunk];
  }

  method RunBlocks(scratch: ScratchProduct, g: Geometry, nchunk: nat) returns (ok: bool, chunk: seq<seq<int>>)
    requires scratch.Valid() && scratch.Loaded(nchunk) && nchunk < scratch.p.b.geom.ChunksShape()[1]
    requires g.Valid() && |g.shape| == 2 && g.blockshape == [scratch.p.BM(), scratch.p.BN()] && g.BlocksShape()[1] == 1
    ensures ok <==> g.BlocksShape()[0] <= |scratch.p.a.chunks|
    ensures ok ==> |chunk| == g.BlocksShape()[0]
    ensures ok ==> forall l: nat | l < |chunk| :: BlockHolds(g, ScratchItem(scratch.p), [0, nchunk], l, chunk[l])
  {
    hide Product.Accumulated, Product.Valid, ZeroPadded, ZeroTest.SoundFor, BlockHolds, ScratchItem;
    hide ScratchProduct.Loaded, CeilDiv;
    var p := scratch.p;
    chunk := [];
    for m := 0 to g.BlocksShape()[0]
      invariant scratch.Loaded(nchunk) && |chunk| == m && m <= |p.a.chunks|
      invariant forall l: nat | l < m :: BlockHolds(g, ScratchItem(p), [0, nchunk], l, chunk[l])
    {
      var out := new int[p.BM() * p.BN()];
      var fetched := scratch.Prefilter(nchunk, m, out);
      if !fetched {
        return false, [];
      }
      ScratchBlockDone(p, g, nchunk, m, out[..]);
      chunk := chunk + [out[..]];
    }
    ok := true;
  }

  lemma ScratchIsProduct(p: Product, result: Stored<int>)
    requires p.Valid() && p.Kc() == 1 && ZeroPadded(p.a) && ZeroPadded(p.b) && result.WellFormed()
    requires |result.geom.shape| == 2
    requires p.a.geom.chunkshape[0] == p.a.geom.blockshape[0] && p.b.geom.chunkshape[1] == p.b.geom.blockshape[1]
    requires result.geom.shape == [p.a.geom.shape[0], p.b.geom.shape[1]]
    requires result.geom.shape[0] <= result.geom.chunkshape[0]
    requires result.geom.blockshape == [p.BM(), p.BN()] && result.geom.chunkshape[1] == p.BN()
    requires forall c, b, t | InShape(result.geom.ChunksShape(), c) && InShape(result.geom.BlocksShape(), b) &&
               InShape(result.geom.blockshape, t) ::
               result.Slot(c, b, t) == ScratchItem(p)(c, b, t)
    ensures ZeroPadded(result)
    ensures forall i: nat, j: nat | i < p.a.geom.shape[0] && j < p.b.geom.shape[1] ::
              result.At([i, j]) == PlainProduct(p, i, j)
  {
    hide Stored.Slot, PlainProduct, Product.Acc, Pos, InChunk;
    var g := result.geom;
    forall c, b, t | InShape(g.ChunksShape(), c) && InShape(g.BlocksShape(), b) && InShape(g.blockshape, t) &&
      !g.Inside(c, b, t)
      ensures result.Slot(c, b, t) == 0
    {
      ScratchSlot(p, g, c, b, t);
    }
    forall i: nat, j: nat | i < p.a.geom.shape[0] && j < p.b.geom.shape[1]
      ensures result.At([i, j]) == PlainProduct(p, i, j)
    {
      var x := [i, j];
      assert InShape(g.shape, x);
      Split(g, x);
      var c, b, t := g.ChunkOf(x), g.BlockOf(x), g.ItemOf(x);
      ScratchSlot(p, g, c, b, t);
      assert g.Compose(c, b, t)[0] == i && g.Compose(c, b, t)[1] == j;
    }
  }

  /** A slot of C is zero on padding and the element of the product elsewhere. */
  lemma ScratchSlot(p: Product, g: Geometry, c: Index, b: Index, t: Index)
    requires p.Valid() && p.Kc() == 1 && ZeroPadded(p.a) && ZeroPadded(p.b) && g.Valid() && |g.shape| == 2
    requires p.a.geom.chunkshape[0] == p.a.geom.blockshape[0] && p.b.geom.chunkshape[1] == p.b.geom.blockshape[1]
    requires g.shape == [p.a.geom.shape[0], p.b.geom.shape[1]] && g.shape[0] <= g.chunkshape[0]
    requires g.blockshape == [p.BM(), p.BN()] && g.chunkshape[1] == p.BN()
    requires InShape(g.ChunksShape(), c) && InShape(g.BlocksShape(), b) && InShape(g.blockshape, t)
    ensures !g.Inside(c, b, t) ==> ScratchItem(p)(c, b, t) == 0
    ensures g.Inside(c, b, t) ==>
              var x := g.Compose(c, b, t);
              x[0] < p.a.geom.shape[0] && x[1] < p.b.geom.shape[1] &&
                  ScratchItem(p)(c, b, t) == PlainProduct(p, x[0], x[1])
  {
    hide Product.Acc, PlainProduct, ZeroPadded;
    CLayout(p, g);
    var m, n := b[0], c[1];
    assert c[0] == 0 && b[1] == 0;
    if p.IsOutBlock([m, n], [0, 0]) {
      AccIsProduct(p, [m, n], [0, 0], t[0], t[1]);
      SamePosition(p, g, c, b, t);
    } else {
      OneBlock(p.a.geom.chunkshape[0]);
      OneBlock(p.b.geom.chunkshape[1]);
      CeilDivBelow(m, p.a.geom.shape[0], p.a.geom.chunkshape[0]);
      assert m * p.BM() >= p.a.geom.shape[0];
      assert Pos(g.chunkshape[0], g.blockshape[0], c[0], b[0], t[0]) >= g.shape[0];
    }
  }

  lemma SamePosition(p: Product, g: Geometry, c: Index, b: Index, t: Index)
    requires p.Valid() && g.Valid() && |g.shape| == |c| == |b| == |t| == 2 && c[0] == 0 && b[1] == 0
    requires p.a.geom.chunkshape[0] == p.a.geom.blockshape[0] && p.b.geom.chunkshape[1] == p.b.geom.blockshape[1]
    requires g.shape == [p.a.geom.shape[0], p.b.geom.shape[1]] && g.shape[0] <= g.chunkshape[0]
    requires g.blockshape == [p.BM(), p.BN()] && g.chunkshape[1] == p.BN() && t[0] < p.BM() && t[1] < p.BN()
    ensures g.Inside(c, b, t) <==> RowInside(p, [b[0], c[1]], [0, 0], t[0]) && ColInside(p, [b[0], c[1]], [0, 0], t[1])
    ensures g.Compose(c, b, t) == [Pos(p.a.geom.chunkshape[0], p.BM(), b[0], 0, t[0]),
            Pos(p.b.geom.chunkshape[1], p.BN(), c[1], 0, t[1])]
  {
    var x := g.Compose(c, b, t);
    assert x[0] == b[0] * p.BM() + t[0] && x[1] == c[1] * p.BN() + t[1];
    assert g.shape[0] == p.a.geom.shape[0] && g.shape[1] == p.b.geom.shape[1];
  }
}
