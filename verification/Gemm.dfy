/** Blocked matrix product (src/linalg/iarray_gemm.c): one output block at a time
    accumulates clipped block products, skipping all-zero chunks and blocks. */
module Gemm {
  import opened Lists
  import opened Arith
  import opened Layout
  import opened Geometry
  import opened Sums
  import opened Errors

  /** The tests for all-zero chunks and blocks.  Only what a positive answer
      means matters; how it is read off the compressed data does not. */
  datatype ZeroTest = ZeroTest(chunk: nat -> bool, block: (nat, nat) -> bool)
  {
    ghost predicate SoundFor(st: Stored<int>)
      requires st.WellFormed()
    {
      && (forall k: nat, l: nat, u: nat | k < |st.chunks| && l < |st.chunks[k]| && u < |st.chunks[k][l]| &&
          chunk(k) :: st.chunks[k][l][u] == 0)
      && (forall k: nat, l: nat, u: nat | k < |st.chunks| && l < |st.chunks[k]| && u < |st.chunks[k][l]| &&
          block(k, l) :: st.chunks[k][l][u] == 0)
    }
  }

  /** Padding slots hold zero. */
  ghost predicate ZeroPadded(st: Stored<int>)
    requires st.WellFormed()
  {
    forall c, b, t | InShape(st.geom.ChunksShape(), c) && InShape(st.geom.BlocksShape(), b) &&
      InShape(st.geom.blockshape, t)
      && !st.geom.Inside(c, b, t) :: st.Slot(c, b, t) == 0
  }

  lemma Flatten2(s: seq<nat>, i: nat, j: nat)
    requires |s| == 2
    ensures Flatten(s, [i, j]) == i * s[1] + j && Prod(s) == s[0] * s[1]
  {
    assert s[1..][1..] == [] && [i, j][1..] == [j] && [j][1..] == [];
    assert Prod(s[1..]) == s[1] * 1;
    assert Flatten(s[1..], [j]) == j * 1 + 0;
  }

  lemma Unflatten2(s: seq<nat>, n: nat)
    requires |s| == 2 && Positive(s)
    ensures Unflatten(s, n) == [n / s[1], n % s[1]]
  {
    assert s[1..][1..] == [];
    assert Prod(s[1..]) == s[1] * 1;
    assert Unflatten(s[1..], n % s[1]) == [n % s[1] / 1] + [];
  }

  /** Position of item (i, j) in rows of `n` items. */
  function Cell(i: nat, n: nat, j: nat): nat { i * n + j }

  /** Row and column of position `p` in a block with rows of `n` items. */
  function RowOf(p: nat, n: nat): nat requires n > 0 { p / n }

  function ColOf(p: nat, n: nat): (j: nat)
    requires n > 0
    ensures j < n
  {
    p % n
  }

  /** Two matrices whose chunks and blocks have matching shapes.  That their inner
      extents agree is not asked. */
  datatype Product = Product(a: Stored<int>, b: Stored<int>)
  {
    ghost predicate Valid() {
      && a.WellFormed() && b.WellFormed() && a.geom.Ndim() == 2 && b.geom.Ndim() == 2
      && a.geom.chunkshape[1] == b.geom.chunkshape[0]
      && a.geom.blockshape[1] == b.geom.blockshape[0]
    }

    /** The inner extent both operands have. */
    function Inner(): (n: nat)
      requires a.geom.Ndim() == b.geom.Ndim() == 2
      ensures n <= a.geom.shape[1] && n <= b.geom.shape[0]
    {
      if a.geom.shape[1] <= b.geom.shape[0] then a.geom.shape[1] else b.geom.shape[0]
    }

    /** The output array's layout. */
    function OutGeometry(): Geometry
      requires a.geom.Ndim() == |a.geom.chunkshape| == |a.geom.blockshape| == 2
      requires b.geom.Ndim() == |b.geom.chunkshape| == |b.geom.blockshape| == 2
    {
      Geometry([a.geom.shape[0], b.geom.shape[1]], [a.geom.chunkshape[0], b.geom.chunkshape[1]],
          [a.geom.blockshape[0], b.geom.blockshape[1]])
    }

    ghost predicate IsOutBlock(c: Index, ob: Index)
      requires Valid()
    {
      && |c| == |ob| == 2
      && c[0] < a.geom.ChunksShape()[0] && c[1] < b.geom.ChunksShape()[1]
      && ob[0] < a.geom.BlocksShape()[0] && ob[1] < b.geom.BlocksShape()[1]
    }

    function Kc(): nat requires Valid() { a.geom.ChunksShape()[1] }
    function BRows(): nat requires Valid() { b.geom.ChunksShape()[0] }
    function Kb(): nat requires Valid() { a.geom.BlocksShape()[1] }
    function BM(): (n: nat) requires Valid() ensures n > 0 { a.geom.blockshape[0] }
    function BK(): (n: nat) requires Valid() ensures n > 0 { a.geom.blockshape[1] }
    function BN(): (n: nat) requires Valid() ensures n > 0 { b.geom.blockshape[1] }

    /** Block `nblock` of an output chunk. */
    function OutBlock(nblock: nat): (ob: Index)
      requires Valid()
      ensures |ob| == 2
    {
      var n := b.geom.BlocksShape()[1];
      [RowOf(nblock, n), ColOf(nblock, n)]
    }

    /** Flat numbers of the A and B chunks and blocks that meet at (kc, kb). */
    function AChunk(c: Index, kc: nat): nat requires Valid() && |c| == 2 { c[0] * Kc() + kc }
    function ABlock(ob: Index, kb: nat): nat requires Valid() && |ob| == 2 { ob[0] * Kb() + kb }
    function BChunk(c: Index, kc: nat): nat requires Valid() && |c| == 2 { kc * b.geom.ChunksShape()[1] + c[1] }
    function BBlock(ob: Index, kb: nat): nat requires Valid() && |ob| == 2 { kb * b.geom.BlocksShape()[1] + ob[1] }

    /** The stored slot of A that row `i` of the output block meets at slot `k` of
        block `kb` of chunk `kc` along the inner axis; and the same for B. */
    ghost function ASlot(c: Index, ob: Index, i: nat, kc: nat, kb: nat, k: nat): int
      requires Valid() && IsOutBlock(c, ob) && i < BM() && kc < Kc() && kb < Kb() && k < BK()
    {
      a.Slot([c[0], kc], [ob[0], kb], [i, k])
    }

    ghost function BSlot(c: Index, ob: Index, j: nat, kc: nat, kb: nat, k: nat): int
      requires Valid() && IsOutBlock(c, ob) && j < BN() && kc < Kc() && kb < Kb() && k < BK()
    {
      if kc < BRows() then b.Slot([kc, c[1]], [kb, ob[1]], [k, j]) else 0
    }

    /** What slot `k` of block `kb` of chunk `kc` contributes to item (i, j). */
    ghost function Slots(c: Index, ob: Index, i: nat, j: nat): AxisSlot
      requires Valid() && IsOutBlock(c, ob) && i < BM() && j < BN()
    {
      (kc: nat, kb: nat, k: nat) =>
        if kc < Kc() && kb < Kb() && k < BK() then ASlot(c, ob, i, kc, kb, k) * BSlot(c, ob, j, kc, kb, k) else 0
    }

    /** Everything accumulated before block `kb` of chunk `kc`. */
    ghost function Acc(c: Index, ob: Index, i: nat, j: nat, kc: nat, kb: nat): int
      requires Valid() && IsOutBlock(c, ob) && i < BM() && j < BN()
    {
      SumTo(PerChunk(a.geom.chunkshape[1], BK(), Slots(c, ob, i, j)), kc) +
          SumTo(PerBlock(BK(), Slots(c, ob, i, j), kc), kb)
    }

    /** The output block holds exactly what has been accumulated so far. */
    ghost predicate Accumulated(c: Index, ob: Index, out: seq<int>, kc: nat, kb: nat)
      requires Valid() && IsOutBlock(c, ob)
    {
      && |out| == BM() * BN()
      && forall p: nat | p < |out| && RowOf(p, BN()) < BM() ::
           out[p] == Acc(c, ob, RowOf(p, BN()), ColOf(p, BN()), kc, kb)
    }
  }

  // ---------------------------------------------------------------------
  // The clipped block product

  /** Terms of the product of row `i` of `x` and column `j` of `y`. */
  ghost function RowColumn(x: seq<int>, ldx: nat, i: nat, y: seq<int>, ldy: nat, j: nat): nat -> int {
    (k: nat) => if Cell(i, ldx, k) < |x| && Cell(k, ldy, j) < |y| then x[Cell(i, ldx, k)] * y[Cell(k, ldy, j)] else 0
  }

  /** cblas_dgemm with alpha = beta = 1 on row-major blocks. */
  method Dgemm(M: nat, N: nat, K: nat, x: seq<int>, lda: nat, y: seq<int>, ldb: nat, out: array<int>, ldc: nat)
    requires ldc > 0 && K <= lda && N <= ldb && M * lda <= |x| && K * ldb <= |y|
    modifies out
    ensures forall p: nat | p < out.Length ::
              out[p] == old(out[p]) + if RowOf(p, ldc) < M && ColOf(p, ldc) < N
                  then SumTo(RowColumn(x, lda, RowOf(p, ldc), y, ldb, ColOf(p, ldc)), K) else 0
  {
    hide SumTo;
    for p := 0 to out.Length
      invariant forall q: nat | p <= q < out.Length :: out[q] == old(out[q])
      invariant forall q: nat | q < p ::
                  out[q] == old(out[q]) + if RowOf(q, ldc) < M && ColOf(q, ldc) < N
                      then SumTo(RowColumn(x, lda, RowOf(q, ldc), y, ldb, ColOf(q, ldc)), K) else 0
    {
      var i, j := RowOf(p, ldc), ColOf(p, ldc);
      if i < M && j < N {
        var s := RowTimesColumn(M, N, K, x, lda, i, y, ldb, j);
        out[p] := out[p] + s;
      }
    }
  }

  method RowTimesColumn(M: nat, N: nat, K: nat, x: seq<int>, lda: nat, i: nat, y: seq<int>, ldb: nat, j: nat)
    returns (s: int)
    requires K <= lda && N <= ldb && M * lda <= |x| && K * ldb <= |y| && i < M && j < N
    ensures s == SumTo(RowColumn(x, lda, i, y, ldb, j), K)
  {
    s := 0;
    for k := 0 to K
      invariant s == SumTo(RowColumn(x, lda, i, y, ldb, j), k)
    {
      IndexInBlock(i, k, M, lda);
      IndexInBlock(k, j, K, ldb);
      s := s + x[Cell(i, lda, k)] * y[Cell(k, ldb, j)];
    }
  }

  lemma IndexInBlock(i: nat, j: nat, m: nat, n: nat)
    requires i < m && j < n
    ensures Cell(i, n, j) < m * n
  {
    MulMono(i, m - 1, n);
    assert (m - 1) * n == m * n - n;
  }

  // ---------------------------------------------------------------------
  // One pair of blocks

  /** `block` is the decompressed A block (B block) of this step. */
  ghost predicate IsABlock(p: Product, c: Index, ob: Index, kc: nat, kb: nat, block: seq<int>)
    requires p.Valid() && p.IsOutBlock(c, ob) && kc < p.Kc() && kb < p.Kb()
  {
    && |block| == p.BM() * p.BK()
    && forall i: nat, k: nat | i < p.BM() && k < p.BK() && Cell(i, p.BK(), k) < |block| ::
        block[Cell(i, p.BK(), k)] == p.ASlot(c, ob, i, kc, kb, k)
  }

  ghost predicate IsBBlock(p: Product, c: Index, ob: Index, kc: nat, kb: nat, block: seq<int>)
    requires p.Valid() && p.IsOutBlock(c, ob) && kc < p.Kc() && kb < p.Kb()
  {
    && |block| == p.BK() * p.BN()
    && forall k: nat, j: nat | k < p.BK() && j < p.BN() && Cell(k, p.BN(), j) < |block| ::
        block[Cell(k, p.BN(), j)] == p.BSlot(c, ob, j, kc, kb, k)
  }

  lemma APadding(p: Product, c: Index, ob: Index, i: nat, kc: nat, kb: nat, k: nat)
    requires p.Valid() && ZeroPadded(p.a) && p.IsOutBlock(c, ob) && i < p.BM() && kc < p.Kc() && kb < p.Kb()
    requires k < p.BK()
    requires var g := p.a.geom;
             || Pos(g.chunkshape[0], g.blockshape[0], c[0], ob[0], i) >= g.shape[0]
             || Pos(g.chunkshape[1], g.blockshape[1], kc, kb, k) >= g.shape[1]
             || InChunk(g.blockshape[0], ob[0], i) >= g.chunkshape[0]
             || InChunk(g.blockshape[1], kb, k) >= g.chunkshape[1]
    ensures p.ASlot(c, ob, i, kc, kb, k) == 0
  {
    hide Pos, InChunk;
    var cc, bb, tt := [c[0], kc], [ob[0], kb], [i, k];
    assert cc[0] == c[0] && cc[1] == kc && bb[0] == ob[0] && bb[1] == kb && tt[0] == i && tt[1] == k;
    assert !p.a.geom.Inside(cc, bb, tt);
  }

  lemma BPadding(p: Product, c: Index, ob: Index, j: nat, kc: nat, kb: nat, k: nat)
    requires p.Valid() && ZeroPadded(p.b) && p.IsOutBlock(c, ob) && j < p.BN() && kc < p.Kc() && kb < p.Kb()
    requires k < p.BK()
    requires var g := p.b.geom;
             || Pos(g.chunkshape[1], g.blockshape[1], c[1], ob[1], j) >= g.shape[1]
             || InChunk(g.blockshape[1], ob[1], j) >= g.chunkshape[1]
    ensures p.BSlot(c, ob, j, kc, kb, k) == 0
  {
    hide Pos, InChunk;
    var cc, bb, tt := [kc, c[1]], [kb, ob[1]], [k, j];
    assert cc[1] == c[1] && bb[1] == ob[1] && tt[1] == j;
    assert !p.b.geom.Inside(cc, bb, tt);
  }

  /** Rows of B past its end are padding, even where A still has columns. */
  lemma BRowPadding(p: Product, c: Index, ob: Index, j: nat, kc: nat, kb: nat, k: nat)
    requires p.Valid() && ZeroPadded(p.b) && p.IsOutBlock(c, ob)
    requires j < p.BN() && kc < p.Kc() && kb < p.Kb() && k < p.BK()
    requires Pos(p.b.geom.chunkshape[0], p.BK(), kc, kb, k) >= p.b.geom.shape[0]
    ensures p.BSlot(c, ob, j, kc, kb, k) == 0
  {
    hide Pos, InChunk;
    var cc, bb, tt := [kc, c[1]], [kb, ob[1]], [k, j];
    assert cc[0] == kc && bb[0] == kb && tt[0] == k;
    assert !p.b.geom.Inside(cc, bb, tt);
  }

  /** Everything from `n` on lies past the end of the array. */
  ghost predicate PastEnd(S: nat, C: nat, B: nat, c: nat, b: nat, n: nat) {
    forall r: nat | n <= r < B :: Pos(C, B, c, b, r) >= S
  }

  /** How many rows, inner items or columns of a block take part; `None` of them
      when the whole block lies past the end of the array. */
  method Clip(S: nat, ext: nat, C: nat, B: nat, c: nat, nchunks: nat, b: nat) returns (skip: bool, n: nat)
    ensures skip ==> PastEnd(S, C, B, c, b, 0)
    ensures !skip ==> n <= B && PastEnd(S, C, B, c, b, n)
  {
    skip, n := false, B;
    if S != ext && c == nchunks - 1 {
      var start := c * C + b * B;
      var stop := start + B;
      if S <= start {
        skip := true;
      } else if start < S && S < stop {
        n := S - start;
      } else {
        n := stop - start;
      }
    }
  }

  /** The contribution of this pair of blocks to item (i, j). */
  ghost function BlockSum(p: Product, c: Index, ob: Index, i: nat, j: nat, kc: nat, kb: nat): int
    requires p.Valid() && p.IsOutBlock(c, ob) && i < p.BM() && j < p.BN() && kc < p.Kc() && kb < p.Kb()
  {
    SumTo(InBlock(p.Slots(c, ob, i, j), kc, kb), p.BK())
  }

  lemma NextBlock(p: Product, c: Index, ob: Index, i: nat, j: nat, kc: nat, kb: nat)
    requires p.Valid() && p.IsOutBlock(c, ob) && i < p.BM() && j < p.BN() && kc < p.Kc() && kb < p.Kb()
    ensures p.Acc(c, ob, i, j, kc, kb + 1) == p.Acc(c, ob, i, j, kc, kb) + BlockSum(p, c, ob, i, j, kc, kb)
  {
    hide Product.Slots, PerChunk;
  }

  lemma NextChunk(p: Product, c: Index, ob: Index, i: nat, j: nat, kc: nat)
    requires p.Valid() && p.IsOutBlock(c, ob) && i < p.BM() && j < p.BN() && kc < p.Kc()
    ensures p.Acc(c, ob, i, j, kc, p.Kb()) == p.Acc(c, ob, i, j, kc + 1, 0)
  {
    hide Product.Slots, InBlock;
  }

  /** Dropped rows, inner items and columns contribute nothing. */
  lemma ClippedSum(p: Product, c: Index, ob: Index, i: nat, j: nat, kc: nat, kb: nat, M: nat, K: nat, N: nat)
    requires p.Valid() && ZeroPadded(p.a) && ZeroPadded(p.b) && p.IsOutBlock(c, ob)
    requires i < p.BM() && j < p.BN() && kc < p.Kc() && kb < p.Kb()
    requires K <= p.BK()
    requires PastEnd(p.a.geom.shape[0], p.a.geom.chunkshape[0], p.BM(), c[0], ob[0], M)
    requires PastEnd(p.a.geom.shape[1], p.a.geom.chunkshape[1], p.BK(), kc, kb, K)
    requires PastEnd(p.b.geom.shape[1], p.b.geom.chunkshape[1], p.BN(), c[1], ob[1], N)
    ensures BlockSum(p, c, ob, i, j, kc, kb) ==
            if i < M && j < N then SumTo(InBlock(p.Slots(c, ob, i, j), kc, kb), K) else 0
  {
    hide Pos, InChunk, SumTo, ZeroPadded, Product.ASlot, Product.BSlot;
    var f := InBlock(p.Slots(c, ob, i, j), kc, kb);
    if i < M && j < N {
      forall k: nat | K <= k < p.BK() ensures f(k) == 0 {
        APadding(p, c, ob, i, kc, kb, k);
      }
      SumDropZeros(f, K, p.BK());
    } else {
      forall k: nat | k < p.BK() ensures f(k) == 0 {
        if i >= M {
          APadding(p, c, ob, i, kc, kb, k);
        } else {
          BPadding(p, c, ob, j, kc, kb, k);
        }
      }
      SumZero(f, p.BK());
    }
  }

  /** The product over the decompressed blocks is the product over the slots. */
  lemma BlockProduct(p: Product, c: Index, ob: Index, i: nat, j: nat, kc: nat, kb: nat, K: nat, x: seq<int>,
                     y: seq<int>)
    requires p.Valid() && p.IsOutBlock(c, ob) && i < p.BM() && j < p.BN() && kc < p.Kc() && kb < p.Kb() && K <= p.BK()
    requires IsABlock(p, c, ob, kc, kb, x) && IsBBlock(p, c, ob, kc, kb, y)
    ensures SumTo(RowColumn(x, p.BK(), i, y, p.BN(), j), K) == SumTo(InBlock(p.Slots(c, ob, i, j), kc, kb), K)
  {
    hide SumTo, Product.ASlot, Product.BSlot, Cell;
    var f, g := RowColumn(x, p.BK(), i, y, p.BN(), j), InBlock(p.Slots(c, ob, i, j), kc, kb);
    forall k: nat | k < K ensures f(k) == g(k) {
      IndexInBlock(i, k, p.BM(), p.BK());
      IndexInBlock(k, j, p.BK(), p.BN());
    }
    SumSame(f, g, K);
  }

  /** All items of one of the two blocks are zero: nothing to add. */
  lemma SkippedBlock(p: Product, c: Index, ob: Index, i: nat, j: nat, kc: nat, kb: nat)
    requires p.Valid() && p.IsOutBlock(c, ob) && i < p.BM() && j < p.BN() && kc < p.Kc() && kb < p.Kb()
    requires (forall k: nat | k < p.BK() :: p.ASlot(c, ob, i, kc, kb, k) == 0)
          || (forall k: nat | k < p.BK() :: p.BSlot(c, ob, j, kc, kb, k) == 0)
    ensures BlockSum(p, c, ob, i, j, kc, kb) == 0
  {
    hide SumTo, Product.ASlot, Product.BSlot;
    var f := InBlock(p.Slots(c, ob, i, j), kc, kb);
    forall k: nat | k < p.BK() ensures f(k) == 0 {}
    SumZero(f, p.BK());
  }

  ghost predicate AZero(p: Product, c: Index, ob: Index, kc: nat, kb: nat)
    requires p.Valid() && p.IsOutBlock(c, ob) && kc < p.Kc() && kb < p.Kb()
  {
    forall i: nat, k: nat | i < p.BM() && k < p.BK() :: p.ASlot(c, ob, i, kc, kb, k) == 0
  }

  ghost predicate BZero(p: Product, c: Index, ob: Index, kc: nat, kb: nat)
    requires p.Valid() && p.IsOutBlock(c, ob) && kc < p.Kc() && kb < p.Kb()
  {
    forall j: nat, k: nat | j < p.BN() && k < p.BK() :: p.BSlot(c, ob, j, kc, kb, k) == 0
  }

  /** The item at flat position (nc, nb, nt). */
  ghost predicate ItemIs(st: Stored<int>, nc: nat, nb: nat, nt: nat, size: nat, v: int) {
    nc < |st.chunks| && nb < |st.chunks[nc]| && nt < |st.chunks[nc][nb]| == size && st.chunks[nc][nb][nt] == v
  }

  lemma SlotIsItem(st: Stored<int>, c: Index, b: Index, t: Index)
    requires st.WellFormed() && InShape(st.geom.ChunksShape(), c) && InShape(st.geom.BlocksShape(), b)
    requires InShape(st.geom.blockshape, t)
    ensures ItemIs(st, Flatten(st.geom.ChunksShape(), c), Flatten(st.geom.BlocksShape(), b),
            Flatten(st.geom.blockshape, t),
                   Prod(st.geom.blockshape), st.Slot(c, b, t))
  {
    FlattenBound(st.geom.ChunksShape(), c);
    FlattenBound(st.geom.BlocksShape(), b);
    FlattenBound(st.geom.blockshape, t);
  }

  lemma ASlotAt(p: Product, c: Index, ob: Index, i: nat, kc: nat, kb: nat, k: nat)
    requires p.Valid() && p.IsOutBlock(c, ob) && i < p.BM() && kc < p.Kc() && kb < p.Kb() && k < p.BK()
    ensures ItemIs(p.a, p.AChunk(c, kc), p.ABlock(ob, kb), Cell(i, p.BK(), k), p.BM() * p.BK(),
            p.ASlot(c, ob, i, kc, kb, k))
  {
    Flatten2(p.a.geom.ChunksShape(), c[0], kc);
    Flatten2(p.a.geom.BlocksShape(), ob[0], kb);
    Flatten2(p.a.geom.blockshape, i, k);
    SlotIsItem(p.a, [c[0], kc], [ob[0], kb], [i, k]);
  }

  lemma BSlotAt(p: Product, c: Index, ob: Index, j: nat, kc: nat, kb: nat, k: nat)
    requires p.Valid() && p.IsOutBlock(c, ob) && j < p.BN() && kc < p.Kc() && kb < p.Kb() && k < p.BK()
    requires kc < p.BRows()
    ensures ItemIs(p.b, p.BChunk(c, kc), p.BBlock(ob, kb), Cell(k, p.BN(), j), p.BK() * p.BN(),
            p.BSlot(c, ob, j, kc, kb, k))
  {
    InnerAxis(p);
    Flatten2(p.b.geom.ChunksShape(), kc, c[1]);
    Flatten2(p.b.geom.BlocksShape(), kb, ob[1]);
    Flatten2(p.b.geom.blockshape, k, j);
    SlotIsItem(p.b, [kc, c[1]], [kb, ob[1]], [k, j]);
  }

  /** The inner axis is cut the same way in both operands. */
  lemma InnerAxis(p: Product)
    requires p.Valid()
    ensures p.b.geom.BlocksShape()[0] == p.Kb() && p.b.geom.blockshape[0] == p.BK()
  {}

  /** Blocks or whole chunks that test as zero contribute nothing. */
  lemma AZeroTest(p: Product, z: ZeroTest, c: Index, ob: Index, kc: nat, kb: nat)
    requires p.Valid() && p.IsOutBlock(c, ob) && kc < p.Kc() && kb < p.Kb() && z.SoundFor(p.a)
    requires z.chunk(p.AChunk(c, kc)) || z.block(p.AChunk(c, kc), p.ABlock(ob, kb))
    ensures AZero(p, c, ob, kc, kb)
  {
    hide Product.ASlot, Product.AChunk, Product.ABlock;
    forall i: nat, k: nat | i < p.BM() && k < p.BK() ensures p.ASlot(c, ob, i, kc, kb, k) == 0 {
      ASlotAt(p, c, ob, i, kc, kb, k);
    }
  }

  lemma BZeroTest(p: Product, z: ZeroTest, c: Index, ob: Index, kc: nat, kb: nat)
    requires p.Valid() && p.IsOutBlock(c, ob) && kc < p.Kc() && kb < p.Kb() && z.SoundFor(p.b)
    requires kc < p.BRows()
    requires z.chunk(p.BChunk(c, kc)) || z.block(p.BChunk(c, kc), p.BBlock(ob, kb))
    ensures BZero(p, c, ob, kc, kb)
  {
    hide Product.BSlot, Product.BChunk, Product.BBlock;
    forall j: nat, k: nat | j < p.BN() && k < p.BK() ensures p.BSlot(c, ob, j, kc, kb, k) == 0 {
      BSlotAt(p, c, ob, j, kc, kb, k);
    }
  }

  // ---------------------------------------------------------------------
  // _gemm_prefilter

  /** Nothing is added for this pair of blocks. */
  lemma SkipBlock(p: Product, c: Index, ob: Index, out: seq<int>, kc: nat, kb: nat)
    requires p.Valid() && p.IsOutBlock(c, ob) && kc < p.Kc() && kb < p.Kb() && p.Accumulated(c, ob, out, kc, kb)
    requires forall i: nat, j: nat | i < p.BM() && j < p.BN() :: BlockSum(p, c, ob, i, j, kc, kb) == 0
    ensures p.Accumulated(c, ob, out, kc, kb + 1)
  {
    hide Product.Acc, BlockSum;
    forall q: nat | q < |out| && RowOf(q, p.BN()) < p.BM()
      ensures out[q] == p.Acc(c, ob, RowOf(q, p.BN()), ColOf(q, p.BN()), kc, kb + 1)
    {
      NextBlock(p, c, ob, RowOf(q, p.BN()), ColOf(q, p.BN()), kc, kb);
    }
  }

  lemma SkipZeroBlock(p: Product, c: Index, ob: Index, out: seq<int>, kc: nat, kb: nat)
    requires p.Valid() && p.IsOutBlock(c, ob) && kc < p.Kc() && kb < p.Kb() && p.Accumulated(c, ob, out, kc, kb)
    requires AZero(p, c, ob, kc, kb) || BZero(p, c, ob, kc, kb)
    ensures p.Accumulated(c, ob, out, kc, kb + 1)
  {
    hide Product.ASlot, Product.BSlot, Product.Accumulated, BlockSum;
    forall i: nat, j: nat | i < p.BM() && j < p.BN() ensures BlockSum(p, c, ob, i, j, kc, kb) == 0 {
      SkippedBlock(p, c, ob, i, j, kc, kb);
    }
    SkipBlock(p, c, ob, out, kc, kb);
  }

  /** What the three clips leave of the block product. */
  ghost predicate Clipped(p: Product, c: Index, ob: Index, kc: nat, kb: nat, M: nat, K: nat, N: nat)
    requires p.Valid() && p.IsOutBlock(c, ob) && kc < p.Kc() && kb < p.Kb()
  {
    && M <= p.BM() && K <= p.BK() && N <= p.BN()
    && PastEnd(p.a.geom.shape[0], p.a.geom.chunkshape[0], p.BM(), c[0], ob[0], M)
    && PastEnd(p.a.geom.shape[1], p.a.geom.chunkshape[1], p.BK(), kc, kb, K)
    && PastEnd(p.b.geom.shape[1], p.b.geom.chunkshape[1], p.BN(), c[1], ob[1], N)
  }

  lemma SkipPastEnd(p: Product, c: Index, ob: Index, out: seq<int>, kc: nat, kb: nat, M: nat, K: nat, N: nat)
    requires p.Valid() && p.IsOutBlock(c, ob) && kc < p.Kc() && kb < p.Kb() && p.Accumulated(c, ob, out, kc, kb)
    requires ZeroPadded(p.a) && ZeroPadded(p.b) && Clipped(p, c, ob, kc, kb, M, K, N) && (M == 0 || K == 0 || N == 0)
    ensures p.Accumulated(c, ob, out, kc, kb + 1)
  {
    hide Product.Accumulated, BlockSum, PastEnd, ZeroPadded, InBlock;
    forall i: nat, j: nat | i < p.BM() && j < p.BN() ensures BlockSum(p, c, ob, i, j, kc, kb) == 0 {
      ClippedSum(p, c, ob, i, j, kc, kb, M, K, N);
    }
    SkipBlock(p, c, ob, out, kc, kb);
  }

  /** Adding the clipped product of the two blocks. */
  lemma AddBlock(p: Product, c: Index, ob: Index, kc: nat, kb: nat, M: nat, K: nat, N: nat, x: seq<int>, y: seq<int>,
                 before: seq<int>, after: seq<int>)
    requires p.Valid() && p.IsOutBlock(c, ob) && kc < p.Kc() && kb < p.Kb() && p.Accumulated(c, ob, before, kc, kb)
    requires ZeroPadded(p.a) && ZeroPadded(p.b) && Clipped(p, c, ob, kc, kb, M, K, N)
    requires IsABlock(p, c, ob, kc, kb, x) && IsBBlock(p, c, ob, kc, kb, y) && |after| == |before|
    requires forall q: nat | q < |after| ::
               after[q] == before[q] + if RowOf(q, p.BN()) < M && ColOf(q, p.BN()) < N
                                       then SumTo(RowColumn(x, p.BK(), RowOf(q, p.BN()), y, p.BN(),
                                           ColOf(q, p.BN())), K) else 0
    ensures p.Accumulated(c, ob, after, kc, kb + 1)
  {
    hide Product.Acc, BlockSum, PastEnd, ZeroPadded, SumTo, IsABlock, IsBBlock, RowOf, ColOf, InBlock, RowColumn;
    forall q: nat | q < |after| && RowOf(q, p.BN()) < p.BM()
      ensures after[q] == p.Acc(c, ob, RowOf(q, p.BN()), ColOf(q, p.BN()), kc, kb + 1)
    {
      var i, j := RowOf(q, p.BN()), ColOf(q, p.BN());
      NextBlock(p, c, ob, i, j, kc, kb);
      ClippedSum(p, c, ob, i, j, kc, kb, M, K, N);
      BlockProduct(p, c, ob, i, j, kc, kb, K, x, y);
    }
  }

  method FetchA(p: Product, c: Index, ob: Index, kc: nat, kb: nat) returns (block: seq<int>)
    requires p.Valid() && p.IsOutBlock(c, ob) && kc < p.Kc() && kb < p.Kb()
    ensures IsABlock(p, c, ob, kc, kb, block)
  {
    hide Product.ASlot, Product.AChunk, Product.ABlock, Cell;
    ASlotAt(p, c, ob, 0, kc, kb, 0);
    block := p.a.chunks[p.AChunk(c, kc)][p.ABlock(ob, kb)];
    forall i: nat, k: nat | i < p.BM() && k < p.BK() && Cell(i, p.BK(), k) < |block|
      ensures block[Cell(i, p.BK(), k)] == p.ASlot(c, ob, i, kc, kb, k)
    {
      ASlotAt(p, c, ob, i, kc, kb, k);
    }
  }

  method FetchB(p: Product, c: Index, ob: Index, kc: nat, kb: nat) returns (block: seq<int>)
    requires p.Valid() && p.IsOutBlock(c, ob) && kc < p.Kc() && kc < p.BRows() && kb < p.Kb()
    ensures IsBBlock(p, c, ob, kc, kb, block)
  {
    hide Product.BSlot, Product.BChunk, Product.BBlock, Cell;
    BSlotAt(p, c, ob, 0, kc, kb, 0);
    block := p.b.chunks[p.BChunk(c, kc)][p.BBlock(ob, kb)];
    forall k: nat, j: nat | k < p.BK() && j < p.BN() && Cell(k, p.BN(), j) < |block|
      ensures block[Cell(k, p.BN(), j)] == p.BSlot(c, ob, j, kc, kb, k)
    {
      BSlotAt(p, c, ob, j, kc, kb, k);
    }
  }

  /** The body of the block loop. */
  method BlockStep(p: Product, za: ZeroTest, zb: ZeroTest, c: Index, ob: Index, kc: nat, kb: nat, out: array<int>)
    requires p.Valid() && ZeroPadded(p.a) && ZeroPadded(p.b) && za.SoundFor(p.a) && zb.SoundFor(p.b)
    requires p.IsOutBlock(c, ob) && kc < p.Kc() && kc < p.BRows() && kb < p.Kb()
    requires p.Accumulated(c, ob, out[..], kc, kb)
    modifies out
    ensures p.Accumulated(c, ob, out[..], kc, kb + 1)
  {
    hide Product.Accumulated, PastEnd, ZeroPadded, AZero, BZero, ZeroTest.SoundFor, IsABlock, IsBBlock;
    if za.block(p.AChunk(c, kc), p.ABlock(ob, kb)) {
      AZeroTest(p, za, c, ob, kc, kb);
      SkipZeroBlock(p, c, ob, out[..], kc, kb);
      return;
    }
    if zb.block(p.BChunk(c, kc), p.BBlock(ob, kb)) {
      BZeroTest(p, zb, c, ob, kc, kb);
      SkipZeroBlock(p, c, ob, out[..], kc, kb);
      return;
    }
    var ga, gb := p.a.geom, p.b.geom;
    NothingPastEnd(ga.shape[0], ga.chunkshape[0], p.BM(), c[0], ob[0]);
    NothingPastEnd(ga.shape[1], ga.chunkshape[1], p.BK(), kc, kb);
    NothingPastEnd(gb.shape[1], gb.chunkshape[1], p.BN(), c[1], ob[1]);
    var skip, M := Clip(ga.shape[0], ga.ExtShape()[0], ga.chunkshape[0], p.BM(), c[0], ga.ChunksShape()[0], ob[0]);
    if skip {
      SkipPastEnd(p, c, ob, out[..], kc, kb, 0, p.BK(), p.BN());
      return;
    }
    var K, N;
    skip, K := Clip(ga.shape[1], ga.ExtShape()[1], ga.chunkshape[1], p.BK(), kc, p.Kc(), kb);
    if skip {
      SkipPastEnd(p, c, ob, out[..], kc, kb, p.BM(), 0, p.BN());
      return;
    }
    skip, N := Clip(gb.shape[1], gb.ExtShape()[1], gb.chunkshape[1], p.BN(), c[1], gb.ChunksShape()[1], ob[1]);
    if skip {
      SkipPastEnd(p, c, ob, out[..], kc, kb, p.BM(), p.BK(), 0);
      return;
    }
    MultiplyBlocks(p, c, ob, kc, kb, M, K, N, out);
  }

  method MultiplyBlocks(p: Product, c: Index, ob: Index, kc: nat, kb: nat, M: nat, K: nat, N: nat, out: array<int>)
    requires p.Valid() && ZeroPadded(p.a) && ZeroPadded(p.b)
    requires p.IsOutBlock(c, ob) && kc < p.Kc() && kc < p.BRows() && kb < p.Kb()
    requires p.Accumulated(c, ob, out[..], kc, kb)
    requires Clipped(p, c, ob, kc, kb, M, K, N)
    modifies out
    ensures p.Accumulated(c, ob, out[..], kc, kb + 1)
  {
    hide Product.Accumulated, PastEnd, ZeroPadded, Product.ASlot, Product.BSlot, SumTo;
    var x := FetchA(p, c, ob, kc, kb);
    var y := FetchB(p, c, ob, kc, kb);
    MulMono(M, p.BM(), p.BK());
    MulMono(K, p.BK(), p.BN());
    ghost var before := out[..];
    Dgemm(M, N, K, x, p.BK(), y, p.BN(), out, p.BN());
    AddBlock(p, c, ob, kc, kb, M, K, N, x, y, before, out[..]);
  }

  lemma NothingPastEnd(S: nat, C: nat, B: nat, c: nat, b: nat)
    ensures PastEnd(S, C, B, c, b, B)
  {}

  /** A zero chunk contributes nothing through any of its blocks. */
  lemma SkipChunk(p: Product, c: Index, ob: Index, out: seq<int>, kc: nat)
    requires p.Valid() && p.IsOutBlock(c, ob) && kc < p.Kc() && p.Accumulated(c, ob, out, kc, 0)
    requires (forall kb: nat | kb < p.Kb() :: AZero(p, c, ob, kc, kb)) ||
             (forall kb: nat | kb < p.Kb() :: BZero(p, c, ob, kc, kb))
    ensures p.Accumulated(c, ob, out, kc + 1, 0)
  {
    hide AZero, BZero, Product.Accumulated;
    for kb := 0 to p.Kb()
      invariant p.Accumulated(c, ob, out, kc, kb)
    {
      SkipZeroBlock(p, c, ob, out, kc, kb);
    }
    ChunkDone(p, c, ob, out, kc);
  }

  lemma ChunkDone(p: Product, c: Index, ob: Index, out: seq<int>, kc: nat)
    requires p.Valid() && p.IsOutBlock(c, ob) && kc < p.Kc() && p.Accumulated(c, ob, out, kc, p.Kb())
    ensures p.Accumulated(c, ob, out, kc + 1, 0)
  {
    hide Product.Acc;
    forall q: nat | q < |out| && RowOf(q, p.BN()) < p.BM()
      ensures out[q] == p.Acc(c, ob, RowOf(q, p.BN()), ColOf(q, p.BN()), kc + 1, 0)
    {
      NextChunk(p, c, ob, RowOf(q, p.BN()), ColOf(q, p.BN()), kc);
    }
  }

  lemma NothingAccumulated(p: Product, c: Index, ob: Index, out: seq<int>)
    requires p.Valid() && p.IsOutBlock(c, ob) && |out| == p.BM() * p.BN() && forall q | 0 <= q < |out| :: out[q] == 0
    ensures p.Accumulated(c, ob, out, 0, 0)
  {}

  /** The number of B's chunk at row kc exists exactly when B has that row. */
  lemma BChunkExists(p: Product, c: Index, ob: Index, kc: nat)
    requires p.Valid() && p.IsOutBlock(c, ob)
    ensures p.BChunk(c, kc) < |p.b.chunks| <==> kc < p.BRows()
  {
    var n := p.b.geom.ChunksShape()[1];
    Flatten2(p.b.geom.ChunksShape(), 0, 0);
    if kc < p.BRows() {
      IndexInBlock(kc, c[1], p.BRows(), n);
    } else {
      MulMono(p.BRows(), kc, n);
    }
  }

  /** _gemm_prefilter: one block of the output.  It fails exactly when A has more
      columns of chunks than B has rows of them: B's next chunk cannot be read. */
  method GemmPrefilter(p: Product, za: ZeroTest, zb: ZeroTest, c: Index, nblock: nat, out: array<int>)
    returns (ok: bool)
    requires p.Valid() && ZeroPadded(p.a) && ZeroPadded(p.b) && za.SoundFor(p.a) && zb.SoundFor(p.b)
    requires p.IsOutBlock(c, p.OutBlock(nblock)) && out.Length == p.BM() * p.BN()
    modifies out
    ensures ok <==> p.Kc() <= p.BRows()
    ensures ok ==> p.Accumulated(c, p.OutBlock(nblock), out[..], p.Kc(), 0)
  {
    hide Product.Accumulated, ZeroPadded, AZero, BZero, ZeroTest.SoundFor;
    for i := 0 to out.Length
      invariant forall q | 0 <= q < i :: out[q] == 0
    {
      out[i] := 0;
    }
    var ob := p.OutBlock(nblock);
    NothingAccumulated(p, c, ob, out[..]);
    for kc := 0 to p.Kc()
      invariant p.Accumulated(c, ob, out[..], kc, 0) && kc <= p.BRows()
    {
      BChunkExists(p, c, ob, kc);
      if p.BChunk(c, kc) >= |p.b.chunks| {
        return false;
      }
      if zb.chunk(p.BChunk(c, kc)) {
        forall kb: nat | kb < p.Kb() ensures BZero(p, c, ob, kc, kb) { BZeroTest(p, zb, c, ob, kc, kb); }
        SkipChunk(p, c, ob, out[..], kc);
        continue;
      }
      if za.chunk(p.AChunk(c, kc)) {
        forall kb: nat | kb < p.Kb() ensures AZero(p, c, ob, kc, kb) { AZeroTest(p, za, c, ob, kc, kb); }
        SkipChunk(p, c, ob, out[..], kc);
        continue;
      }
      for kb := 0 to p.Kb()
        invariant p.Accumulated(c, ob, out[..], kc, kb)
      {
        BlockStep(p, za, zb, c, ob, kc, kb, out);
      }
      ChunkDone(p, c, ob, out[..], kc);
    }
    return true;
  }

  // ---------------------------------------------------------------------
  // What the accumulated sums are

  /** The terms of the plain product at (r, s). */
  ghost function PlainTerms(p: Product, r: nat, s: nat): nat -> int
    requires p.Valid() && r < p.a.geom.shape[0] && s < p.b.geom.shape[1]
  {
    (x: nat) => if x < p.Inner() then p.a.At([r, x]) * p.b.At([x, s]) else 0
  }

  /** (A B)[r, s], over the inner extent both operands have. */
  ghost function PlainProduct(p: Product, r: nat, s: nat): int
    requires p.Valid() && r < p.a.geom.shape[0] && s < p.b.geom.shape[1]
  {
    SumTo(PlainTerms(p, r, s), p.Inner())
  }

  ghost predicate RowInside(p: Product, c: Index, ob: Index, i: nat)
    requires p.Valid() && |c| == |ob| == 2
  {
    InChunk(p.BM(), ob[0], i) < p.a.geom.chunkshape[0] &&
        Pos(p.a.geom.chunkshape[0], p.BM(), c[0], ob[0], i) < p.a.geom.shape[0]
  }

  ghost predicate ColInside(p: Product, c: Index, ob: Index, j: nat)
    requires p.Valid() && |c| == |ob| == 2
  {
    InChunk(p.BN(), ob[1], j) < p.b.geom.chunkshape[1] &&
        Pos(p.b.geom.chunkshape[1], p.BN(), c[1], ob[1], j) < p.b.geom.shape[1]
  }

  lemma ASlotIsElement(p: Product, c: Index, ob: Index, i: nat, kc: nat, kb: nat, k: nat)
    requires p.Valid() && p.IsOutBlock(c, ob) && i < p.BM() && kc < p.Kc() && kb < p.Kb() && k < p.BK()
    requires RowInside(p, c, ob, i)
    requires InChunk(p.BK(), kb, k) < p.a.geom.chunkshape[1]
    requires Pos(p.a.geom.chunkshape[1], p.BK(), kc, kb, k) < p.a.geom.shape[1]
    ensures p.ASlot(c, ob, i, kc, kb, k) ==
            p.a.At([Pos(p.a.geom.chunkshape[0], p.BM(), c[0], ob[0], i),
                Pos(p.a.geom.chunkshape[1], p.BK(), kc, kb, k)])
  {
    hide Pos, InChunk;
    var cc, bb, tt := [c[0], kc], [ob[0], kb], [i, k];
    SplitUnique(p.a.geom, cc, bb, tt);
    assert p.a.geom.Compose(cc, bb, tt) == [Pos(p.a.geom.chunkshape[0], p.BM(), c[0], ob[0], i),
        Pos(p.a.geom.chunkshape[1], p.BK(), kc, kb, k)];
  }

  lemma RowExists(S: nat, C: nat, B: nat, c: nat, b: nat, k: nat)
    requires C > 0 && Pos(C, B, c, b, k) < S
    ensures c < CeilDiv(S, C)
  {
    CeilDivBelow(c, S, C);
  }

  lemma BSlotIsElement(p: Product, c: Index, ob: Index, j: nat, kc: nat, kb: nat, k: nat)
    requires p.Valid() && p.IsOutBlock(c, ob) && j < p.BN() && kc < p.Kc() && kb < p.Kb() && k < p.BK()
    requires ColInside(p, c, ob, j)
    requires InChunk(p.BK(), kb, k) < p.a.geom.chunkshape[1]
    requires Pos(p.a.geom.chunkshape[1], p.BK(), kc, kb, k) < p.b.geom.shape[0]
    ensures p.BSlot(c, ob, j, kc, kb, k) ==
            p.b.At([Pos(p.a.geom.chunkshape[1], p.BK(), kc, kb, k),
                Pos(p.b.geom.chunkshape[1], p.BN(), c[1], ob[1], j)])
  {
    RowExists(p.b.geom.shape[0], p.b.geom.chunkshape[0], p.BK(), kc, kb, k);
    assert kc < p.BRows();
    hide Pos, InChunk, CeilDiv;
    InnerAxis(p);
    var cc, bb, tt := [kc, c[1]], [kb, ob[1]], [k, j];
    SplitUnique(p.b.geom, cc, bb, tt);
    assert p.b.geom.Compose(cc, bb, tt) == [Pos(p.a.geom.chunkshape[1], p.BK(), kc, kb, k),
        Pos(p.b.geom.chunkshape[1], p.BN(), c[1], ob[1], j)];
  }

  /** The accumulated item is the element of the plain product, or zero on padding. */
  lemma AccIsProduct(p: Product, c: Index, ob: Index, i: nat, j: nat)
    requires p.Valid() && ZeroPadded(p.a) && ZeroPadded(p.b) && p.IsOutBlock(c, ob) && i < p.BM() && j < p.BN()
    ensures p.Acc(c, ob, i, j, p.Kc(), 0) ==
            if RowInside(p, c, ob, i) && ColInside(p, c, ob, j)
            then PlainProduct(p, Pos(p.a.geom.chunkshape[0], p.BM(), c[0], ob[0], i),
                Pos(p.b.geom.chunkshape[1], p.BN(), c[1], ob[1], j))
            else 0
  {
    hide Pos, InChunk, PerChunk, PerBlock, ZeroPadded, Product.ASlot, Product.BSlot, Stored.At, CeilDiv;
    var S, C, B, slot := p.a.geom.shape[1], p.a.geom.chunkshape[1], p.BK(), p.Slots(c, ob, i, j);
    if RowInside(p, c, ob, i) && ColInside(p, c, ob, j) {
      var f := PlainTerms(p, Pos(p.a.geom.chunkshape[0], p.BM(), c[0], ob[0], i),
          Pos(p.b.geom.chunkshape[1], p.BN(), c[1], ob[1], j));
      forall kc: nat, kb: nat, k: nat | kc < p.Kc() && kb < p.Kb() && k < B
        ensures slot(kc, kb, k) == if InChunk(B, kb, k) < C && Pos(C, B, kc, kb, k) < S then f(Pos(C, B, kc, kb, k))
                else 0
      {
        SlotTerm(p, c, ob, i, j, kc, kb, k);
      }
      SumOverAxis(S, C, B, f, slot);
      SumDropZeros(f, p.Inner(), S);
    } else {
      var f := (x: nat) => 0;
      forall kc: nat, kb: nat, k: nat | kc < p.Kc() && kb < p.Kb() && k < B ensures slot(kc, kb, k) == 0 {
        OutsideTerm(p, c, ob, i, j, kc, kb, k);
      }
      SumOverAxis(S, C, B, f, slot);
      SumZero(f, S);
    }
  }

  lemma SlotTerm(p: Product, c: Index, ob: Index, i: nat, j: nat, kc: nat, kb: nat, k: nat)
    requires p.Valid() && ZeroPadded(p.a) && ZeroPadded(p.b) && p.IsOutBlock(c, ob)
    requires i < p.BM() && j < p.BN() && kc < p.Kc() && kb < p.Kb() && k < p.BK()
    requires RowInside(p, c, ob, i) && ColInside(p, c, ob, j)
    ensures var S, C, B := p.a.geom.shape[1], p.a.geom.chunkshape[1], p.BK();
            var f := PlainTerms(p, Pos(p.a.geom.chunkshape[0], p.BM(), c[0], ob[0], i),
                Pos(p.b.geom.chunkshape[1], p.BN(), c[1], ob[1], j));
            p.Slots(c, ob, i, j)(kc, kb, k) == if InChunk(B, kb, k) < C && Pos(C, B, kc, kb, k) < S
                then f(Pos(C, B, kc, kb, k)) else 0
  {
    hide Pos, InChunk, Product.ASlot, Product.BSlot, Stored.At, ZeroPadded;
    var S, C, B := p.a.geom.shape[1], p.a.geom.chunkshape[1], p.BK();
    if InChunk(B, kb, k) < C && Pos(C, B, kc, kb, k) < S {
      if Pos(C, B, kc, kb, k) < p.b.geom.shape[0] {
        ASlotIsElement(p, c, ob, i, kc, kb, k);
        BSlotIsElement(p, c, ob, j, kc, kb, k);
      } else {
        BRowPadding(p, c, ob, j, kc, kb, k);
      }
    } else {
      APadding(p, c, ob, i, kc, kb, k);
    }
  }

  lemma OutsideTerm(p: Product, c: Index, ob: Index, i: nat, j: nat, kc: nat, kb: nat, k: nat)
    requires p.Valid() && ZeroPadded(p.a) && ZeroPadded(p.b) && p.IsOutBlock(c, ob) && i < p.BM()
    requires j < p.BN() && kc < p.Kc() && kb < p.Kb() && k < p.BK()
    requires !(RowInside(p, c, ob, i) && ColInside(p, c, ob, j))
    ensures p.Slots(c, ob, i, j)(kc, kb, k) == 0
  {
    hide Pos, InChunk, Product.ASlot, Product.BSlot, ZeroPadded;
    if !RowInside(p, c, ob, i) {
      APadding(p, c, ob, i, kc, kb, k);
    } else {
      BPadding(p, c, ob, j, kc, kb, k);
    }
  }

  // ---------------------------------------------------------------------
  // iarray_opt_gemm

  lemma OutGeometryFits(p: Product)
    requires p.Valid()
    ensures var g := p.OutGeometry();
            && g.Valid() && |g.shape| == 2
            && g.ChunksShape() == [p.a.geom.ChunksShape()[0], p.b.geom.ChunksShape()[1]]
            && g.BlocksShape() == [p.a.geom.BlocksShape()[0], p.b.geom.BlocksShape()[1]]
            && g.blockshape == [p.BM(), p.BN()]
            && Prod(g.blockshape) == p.BM() * p.BN()
            && Prod(g.BlocksShape()) == p.a.geom.BlocksShape()[0] * p.b.geom.BlocksShape()[1]
            && Prod(g.ChunksShape()) == p.a.geom.ChunksShape()[0] * p.b.geom.ChunksShape()[1]
  {
    var g := p.OutGeometry();
    assert Positive(g.chunkshape) && Positive(g.blockshape);
    Flatten2(g.blockshape, 0, 0);
    Flatten2(g.BlocksShape(), 0, 0);
    Flatten2(g.ChunksShape(), 0, 0);
  }

  ghost function ProductItem(p: Product): SlotFn<int>
    requires p.Valid()
  {
    (c: Index, b: Index, t: Index) =>
      if p.IsOutBlock(c, b) && |t| == 2 && t[0] < p.BM() && t[1] < p.BN() then p.Acc(c, b, t[0], t[1], p.Kc(), 0) else 0
  }

  lemma BlockIsDone(p: Product, c: Index, nblock: nat, block: seq<int>)
    requires p.Valid() && p.IsOutBlock(c, p.OutBlock(nblock)) && p.Accumulated(c, p.OutBlock(nblock), block, p.Kc(), 0)
    ensures BlockHolds(p.OutGeometry(), ProductItem(p), c, nblock, block)
  {
    hide Product.Acc;
    var g := p.OutGeometry();
    OutGeometryFits(p);
    Unflatten2(g.BlocksShape(), nblock);
    forall u: nat | u < |block|
      ensures block[u] == ProductItem(p)(c, Unflatten(g.BlocksShape(), nblock), Unflatten(g.blockshape, u))
    {
      Unflatten2(g.blockshape, u);
      DivBound(u, p.BM(), p.BN());
    }
  }

  /** One output chunk: the prefilter runs once per block. */
  method GemmChunk(p: Product, za: ZeroTest, zb: ZeroTest, nchunk: nat) returns (ok: bool, chunk: seq<seq<int>>)
    requires p.Valid() && ZeroPadded(p.a) && ZeroPadded(p.b) && za.SoundFor(p.a) && zb.SoundFor(p.b)
    requires nchunk < Prod(p.OutGeometry().ChunksShape()) && p.OutGeometry().Valid()
    requires Positive(p.OutGeometry().ChunksShape())
    ensures ok <==> p.Kc() <= p.BRows()
    ensures ok ==> ChunkHolds(p.OutGeometry(), ProductItem(p), nchunk, chunk)
  {
    hide Product.Accumulated, ZeroPadded, ZeroTest.SoundFor, BlockHolds, ProductItem;
    hide Prod, Unflatten, Product.IsOutBlock, Product.OutBlock, RowOf, ColOf;
    ghost var g := p.OutGeometry();
    OutGeometryFits(p);
    var N := p.b.geom.ChunksShape()[1];
    Unflatten2(g.ChunksShape(), nchunk);
    var c := [nchunk / N, nchunk % N];
    ok, chunk := true, [];
    var nblocks := p.a.geom.BlocksShape()[0] * p.b.geom.BlocksShape()[1];
    SomeBlock(p);
    for nblock := 0 to nblocks
      invariant |chunk| == nblock && (nblock > 0 ==> p.Kc() <= p.BRows())
      invariant forall l | 0 <= l < nblock :: BlockHolds(g, ProductItem(p), c, l, chunk[l])
    {
      OutBlockExists(p, nchunk, c, nblock);
      var out := new int[p.BM() * p.BN()];
      ok := GemmPrefilter(p, za, zb, c, nblock, out);
      if !ok {
        return;
      }
      BlockIsDone(p, c, nblock, out[..]);
      chunk := chunk + [out[..]];
    }
  }

  lemma SomeBlock(p: Product)
    requires p.Valid()
    ensures p.a.geom.BlocksShape()[0] * p.b.geom.BlocksShape()[1] > 0
  {
    CountPositive(p.a.geom.chunkshape[0], p.BM());
    CountPositive(p.b.geom.chunkshape[1], p.BN());
    BothPositive(p.a.geom.BlocksShape()[0], p.b.geom.BlocksShape()[1]);
  }

  lemma BothPositive(a: nat, b: nat)
    ensures a * b > 0 <==> a > 0 && b > 0
  {}

  lemma OutBlockExists(p: Product, nchunk: nat, c: Index, nblock: nat)
    requires p.Valid() && |c| == 2 && p.b.geom.ChunksShape()[1] > 0
    requires nchunk < p.a.geom.ChunksShape()[0] * p.b.geom.ChunksShape()[1]
    requires c[0] == nchunk / p.b.geom.ChunksShape()[1] && c[1] == nchunk % p.b.geom.ChunksShape()[1]
    requires nblock < p.a.geom.BlocksShape()[0] * p.b.geom.BlocksShape()[1]
    ensures p.IsOutBlock(c, p.OutBlock(nblock))
  {
    var M, N := p.a.geom.ChunksShape()[0], p.b.geom.ChunksShape()[1];
    var m, n := p.a.geom.BlocksShape()[0], p.b.geom.BlocksShape()[1];
    hide Geometry.ChunksShape, Geometry.BlocksShape, CeilDiv, Geometry.Valid, Stored.WellFormed;
    DigitsBelow(nchunk, M, N);
    DigitsBelow(nblock, m, n);
  }

  lemma DigitsBelow(k: nat, a: nat, d: nat)
    requires d > 0 && k < a * d
    ensures k / d < a && k % d < d
  {
    DivBound(k, a, d);
  }

  /** What the layout checks ask for; the inner extents are not compared. */
  predicate LayoutsAgree(a: Geometry, b: Geometry, chunkshape: seq<nat>, blockshape: seq<nat>)
    requires |a.chunkshape| == |a.blockshape| == |a.shape| && |b.chunkshape| == |b.blockshape| == |b.shape|
  {
    && a.Ndim() == b.Ndim() == 2
    && a.chunkshape[1] == b.chunkshape[0] && chunkshape == [a.chunkshape[0], b.chunkshape[1]]
    && a.blockshape[1] == b.blockshape[0] && blockshape == [a.blockshape[0], b.blockshape[1]]
  }

  /** Main result: whatever all-zero chunks and blocks are skipped and however
      the edges are clipped, C is the plain product, and all its padding is zero.
      It fails exactly when the layouts differ or B has too few rows of chunks. */
  method OptGemm(a: Stored<int>, b: Stored<int>, za: ZeroTest, zb: ZeroTest, chunkshape: seq<nat>, blockshape: seq<nat>)
    returns (r: Result<Stored<int>>)
    requires a.WellFormed() && b.WellFormed() && ZeroPadded(a) && ZeroPadded(b) && za.SoundFor(a) && zb.SoundFor(b)
    requires |chunkshape| == |blockshape| == 2
    ensures r.Success? <==>
              && LayoutsAgree(a.geom, b.geom, chunkshape, blockshape)
              && (a.geom.shape[0] == 0 || b.geom.shape[1] == 0 || a.geom.ChunksShape()[1] <= b.geom.ChunksShape()[0])
    ensures LayoutsAgree(a.geom, b.geom, chunkshape, blockshape) && r.Failure? ==> r.error == BloscFailed
    ensures r.Success? ==>
              var p := Product(a, b);
              && p.Valid() && r.value.WellFormed() && r.value.geom == p.OutGeometry() && ZeroPadded(r.value)
              && forall i: nat, j: nat | i < a.geom.shape[0] && j < b.geom.shape[1] ::
                   r.value.At([i, j]) == PlainProduct(p, i, j)
  {
    if a.geom.Ndim() != 2 || b.geom.Ndim() != 2 {
      return Failure(InvalidNdim);
    }
    if a.geom.chunkshape[0] != chunkshape[0] || a.geom.chunkshape[1] != b.geom.chunkshape[0] ||
        b.geom.chunkshape[1] != chunkshape[1] {
      return Failure(InvalidChunkshape);
    }
    if a.geom.blockshape[0] != blockshape[0] || a.geom.blockshape[1] != b.geom.blockshape[0] ||
        b.geom.blockshape[1] != blockshape[1] {
      return Failure(InvalidBlockshape);
    }
    r := GemmChunks(Product(a, b), za, zb);
  }

  /** The loop over output chunks. */
  method GemmChunks(p: Product, za: ZeroTest, zb: ZeroTest) returns (r: Result<Stored<int>>)
    requires p.Valid() && ZeroPadded(p.a) && ZeroPadded(p.b) && za.SoundFor(p.a) && zb.SoundFor(p.b)
    ensures r.Success? <==> p.a.geom.shape[0] == 0 || p.b.geom.shape[1] == 0 || p.Kc() <= p.BRows()
    ensures r.Failure? ==> r.error == BloscFailed
    ensures r.Success? ==>
              && r.value.WellFormed() && r.value.geom == p.OutGeometry() && ZeroPadded(r.value)
              && forall i: nat, j: nat | i < p.a.geom.shape[0] && j < p.b.geom.shape[1] ::
                   r.value.At([i, j]) == PlainProduct(p, i, j)
  {
    hide ChunkHolds, ProductItem, Prod, Stored.At, ZeroTest.SoundFor, PlainProduct, ZeroPadded;
    var g := p.OutGeometry();
    OutGeometryFits(p);
    var chunks: seq<seq<seq<int>>> := [];
    var nchunk, nchunks := 0, p.a.geom.ChunksShape()[0] * p.b.geom.ChunksShape()[1];
    SomeChunk(p);
    while nchunk < nchunks
      invariant |chunks| == nchunk <= nchunks
      invariant nchunk > 0 ==> Positive(g.ChunksShape()) && p.Kc() <= p.BRows()
      invariant forall k | 0 <= k < nchunk :: ChunkHolds(g, ProductItem(p), k, chunks[k])
    {
      ProdPositiveIf(g.ChunksShape(), nchunk);
      var ok, chunk := GemmChunk(p, za, zb, nchunk);
      if !ok {
        return Failure(BloscFailed);
      }
      chunks := chunks + [chunk];
      nchunk := nchunk + 1;
    }
    var result := Stored(g, chunks);
    ArrayHolds(g, ProductItem(p), chunks);
    ResultIsProduct(p, result);
    return Success(result);
  }

  /** C has a chunk unless it has no rows or no columns. */
  lemma SomeChunk(p: Product)
    requires p.Valid()
    ensures p.a.geom.ChunksShape()[0] * p.b.geom.ChunksShape()[1] > 0 <==>
            p.a.geom.shape[0] > 0 && p.b.geom.shape[1] > 0
  {
    CountPositive(p.a.geom.shape[0], p.a.geom.chunkshape[0]);
    CountPositive(p.b.geom.shape[1], p.b.geom.chunkshape[1]);
    BothPositive(p.a.geom.ChunksShape()[0], p.b.geom.ChunksShape()[1]);
  }

  lemma CountPositive(n: nat, d: nat)
    requires d > 0
    ensures CeilDiv(n, d) > 0 <==> n > 0
  {
    if n > 0 { CeilDivAbove(0, n, d); }
  }

  lemma ResultIsProduct(p: Product, result: Stored<int>)
    requires p.Valid() && ZeroPadded(p.a) && ZeroPadded(p.b) && result.WellFormed() && result.geom == p.OutGeometry()
    requires forall c, b, t | InShape(result.geom.ChunksShape(), c) && InShape(result.geom.BlocksShape(), b) &&
               InShape(result.geom.blockshape, t) ::
               result.Slot(c, b, t) == ProductItem(p)(c, b, t)
    ensures ZeroPadded(result)
    ensures forall i: nat, j: nat | i < p.a.geom.shape[0] && j < p.b.geom.shape[1] ::
              result.At([i, j]) == PlainProduct(p, i, j)
  {
    hide Stored.Slot, PlainProduct, Product.Acc, RowInside, ColInside;
    var g := result.geom;
    OutGeometryFits(p);
    forall c, b, t | InShape(g.ChunksShape(), c) && InShape(g.BlocksShape(), b) && InShape(g.blockshape, t) &&
      !g.Inside(c, b, t)
      ensures result.Slot(c, b, t) == 0
    {
      AccIsProduct(p, c, b, t[0], t[1]);
      InsideIsRowAndColumn(p, c, b, t);
    }
    forall i: nat, j: nat | i < p.a.geom.shape[0] && j < p.b.geom.shape[1]
      ensures result.At([i, j]) == PlainProduct(p, i, j)
    {
      var x := [i, j];
      Split(g, x);
      var c, b, t := g.ChunkOf(x), g.BlockOf(x), g.ItemOf(x);
      AccIsProduct(p, c, b, t[0], t[1]);
      InsideIsRowAndColumn(p, c, b, t);
      assert g.Compose(c, b, t)[0] == i && g.Compose(c, b, t)[1] == j;
    }
  }

  lemma InsideIsRowAndColumn(p: Product, c: Index, b: Index, t: Index)
    requires p.Valid() && |c| == |b| == |t| == 2 && t[0] < p.BM() && t[1] < p.BN()
    ensures p.OutGeometry().Valid()
    ensures p.OutGeometry().Inside(c, b, t) <==> RowInside(p, c, b, t[0]) && ColInside(p, c, b, t[1])
  {
    hide Pos, InChunk;
    OutGeometryFits(p);
    var g := p.OutGeometry();
    assert g.shape[0] == p.a.geom.shape[0] && g.shape[1] == p.b.geom.shape[1];
  }
}
