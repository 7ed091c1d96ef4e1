/** The two-level blocked layout: an array is cut into chunks, a chunk into
    blocks, and both levels are padded up to whole pieces. */
module Geometry {
  import opened Lists
  import opened Arith
  import opened Layout

  function RoundUp(n: nat, d: nat): (r: nat)
    requires d > 0
    ensures r % d == 0 && r / d == CeilDiv(n, d)
  {
    var r := CeilDiv(n, d) * d;
    QuotientUnique(r, d, CeilDiv(n, d), 0);
    r
  }

  /** Offset of item `t` of block `b` inside its chunk, and position of item `t`
      of block `b` of chunk `c` inside the array, along one dimension. */
  function InChunk(B: nat, b: nat, t: nat): nat { b * B + t }

  function Pos(C: nat, B: nat, c: nat, b: nat, t: nat): nat { c * C + InChunk(B, b, t) }

  /** How many pieces of extent `B` cover `S`, per dimension. */
  function PieceCount(S: seq<nat>, B: seq<nat>): (s: seq<nat>)
    requires |S| == |B| && Positive(B)
    ensures |s| == |S| && forall i | 0 <= i < |s| :: s[i] == CeilDiv(S[i], B[i])
  {
    seq(|S|, i requires 0 <= i < |S| => CeilDiv(S[i], B[i]))
  }

  /** Which piece a coordinate lies in, and where inside it. */
  function Quotients(x: Index, B: seq<nat>): (c: Index)
    requires |x| == |B| && Positive(B)
    ensures |c| == |x| && forall i | 0 <= i < |x| :: c[i] == x[i] / B[i]
  {
    seq(|x|, i requires 0 <= i < |x| => x[i] / B[i])
  }

  function Remainders(x: Index, B: seq<nat>): (y: Index)
    requires |x| == |B| && Positive(B)
    ensures |y| == |x| && forall i | 0 <= i < |x| :: y[i] == x[i] % B[i]
  {
    seq(|x|, i requires 0 <= i < |x| => x[i] % B[i])
  }

  datatype Geometry = Geometry(shape: seq<nat>, chunkshape: seq<nat>, blockshape: seq<nat>)
  {
    ghost predicate Valid() {
      && |chunkshape| == |blockshape| == |shape|
      && Positive(chunkshape) && Positive(blockshape)
    }

    function Ndim(): nat { |shape| }

    /** Shape padded to whole chunks, per dimension. */
    function ExtShape(): (s: seq<nat>)
      requires Valid()
      ensures |s| == |shape|
      ensures forall i | 0 <= i < |s| :: s[i] == RoundUp(shape[i], chunkshape[i])
    {
      seq(|shape|, i requires 0 <= i < |shape| => RoundUp(shape[i], chunkshape[i]))
    }

    /** Chunk shape padded to whole blocks, per dimension. */
    function ExtChunkshape(): (s: seq<nat>)
      requires Valid()
      ensures |s| == |shape|
      ensures forall i | 0 <= i < |s| :: s[i] == RoundUp(chunkshape[i], blockshape[i])
    {
      seq(|shape|, i requires 0 <= i < |shape| => RoundUp(chunkshape[i], blockshape[i]))
    }

    /** Number of chunks per dimension. */
    function ChunksShape(): (s: seq<nat>)
      requires Valid()
      ensures |s| == |shape|
      ensures forall i | 0 <= i < |s| :: s[i] == CeilDiv(shape[i], chunkshape[i])
    {
      var e := ExtShape();
      seq(|shape|, i requires 0 <= i < |shape| => e[i] / chunkshape[i])
    }

    /** Number of blocks of a chunk per dimension. */
    function BlocksShape(): (s: seq<nat>)
      requires Valid()
      ensures |s| == |shape|
      ensures forall i | 0 <= i < |s| :: s[i] == CeilDiv(chunkshape[i], blockshape[i])
      ensures Positive(s)
    {
      var e := ExtChunkshape();
      seq(|shape|, i requires 0 <= i < |shape| => e[i] / blockshape[i])
    }

    function ChunkOf(x: Index): (c: Index)
      requires Valid() && |x| == |shape|
      ensures |c| == |x| && forall i | 0 <= i < |x| :: c[i] == x[i] / chunkshape[i]
    {
      seq(|x|, i requires 0 <= i < |x| => x[i] / chunkshape[i])
    }

    function BlockOf(x: Index): (b: Index)
      requires Valid() && |x| == |shape|
      ensures |b| == |x| && forall i | 0 <= i < |x| :: b[i] == (x[i] % chunkshape[i]) / blockshape[i]
    {
      seq(|x|, i requires 0 <= i < |x| => (x[i] % chunkshape[i]) / blockshape[i])
    }

    function ItemOf(x: Index): (t: Index)
      requires Valid() && |x| == |shape|
      ensures |t| == |x| && forall i | 0 <= i < |x| :: t[i] == (x[i] % chunkshape[i]) % blockshape[i]
    {
      seq(|x|, i requires 0 <= i < |x| => (x[i] % chunkshape[i]) % blockshape[i])
    }

    /** Coordinate of item `t` of block `b` of chunk `c`. */
    function Compose(c: Index, b: Index, t: Index): (x: Index)
      requires Valid() && |c| == |b| == |t| == |shape|
      ensures |x| == |c|
      ensures forall i | 0 <= i < |x| :: x[i] == Pos(chunkshape[i], blockshape[i], c[i], b[i], t[i])
    {
      seq(|c|, i requires 0 <= i < |c| => Pos(chunkshape[i], blockshape[i], c[i], b[i], t[i]))
    }

    /** The item is neither padding of its chunk nor padding of the array. */
    ghost predicate Inside(c: Index, b: Index, t: Index)
      requires Valid()
    {
      && |c| == |b| == |t| == |shape|
      && forall i | 0 <= i < |shape| ::
           t[i] < blockshape[i] && InChunk(blockshape[i], b[i], t[i]) < chunkshape[i] &&
           Pos(chunkshape[i], blockshape[i], c[i], b[i], t[i]) < shape[i]
    }
  }

  /** One dimension: a coordinate below S has exactly one (chunk, block, item)
      split that stays inside its block, its chunk and the array. */
  lemma SplitOne(x: nat, c: nat, b: nat, t: nat, C: nat, B: nat)
    requires C > 0 && B > 0
    ensures (x == c * C + b * B + t && t < B && b * B + t < C) <==>
            (c == x / C && b == (x % C) / B && t == (x % C) % B)
  {
    assert x == (x / C) * C + x % C;
    assert x % C == ((x % C) / B) * B + (x % C) % B;
    if x == c * C + b * B + t && t < B && b * B + t < C {
      QuotientUnique(x, C, c, b * B + t);
      QuotientUnique(x % C, B, b, t);
    }
  }

  /** In any number of dimensions: the split of an in-range coordinate is inside
      the array, names an existing chunk, block and item, and no other inside
      triple composes to the same coordinate. */
  lemma Split(g: Geometry, x: Index)
    requires g.Valid() && InShape(g.shape, x)
    ensures var c, b, t := g.ChunkOf(x), g.BlockOf(x), g.ItemOf(x);
            && g.Inside(c, b, t) && g.Compose(c, b, t) == x
            && InShape(g.ChunksShape(), c) && InShape(g.BlocksShape(), b) && InShape(g.blockshape, t)
  {
    var c, b, t := g.ChunkOf(x), g.BlockOf(x), g.ItemOf(x);
    forall i | 0 <= i < |x|
      ensures x[i] == c[i] * g.chunkshape[i] + b[i] * g.blockshape[i] + t[i]
      ensures t[i] < g.blockshape[i] && b[i] * g.blockshape[i] + t[i] < g.chunkshape[i]
      ensures c[i] < g.ChunksShape()[i] && b[i] < g.BlocksShape()[i]
    {
      SplitOne(x[i], c[i], b[i], t[i], g.chunkshape[i], g.blockshape[i]);
      CeilDivAbove(x[i], g.shape[i], g.chunkshape[i]);
      CeilDivAbove(x[i] % g.chunkshape[i], g.chunkshape[i], g.blockshape[i]);
    }
  }

  lemma SplitUnique(g: Geometry, c: Index, b: Index, t: Index)
    requires g.Valid() && g.Inside(c, b, t)
    ensures var x := g.Compose(c, b, t);
            InShape(g.shape, x) && c == g.ChunkOf(x) && b == g.BlockOf(x) && t == g.ItemOf(x)
  {
    var x := g.Compose(c, b, t);
    forall i | 0 <= i < |x|
      ensures c[i] == g.ChunkOf(x)[i] && b[i] == g.BlockOf(x)[i] && t[i] == g.ItemOf(x)[i]
    {
      SplitOne(x[i], c[i], b[i], t[i], g.chunkshape[i], g.blockshape[i]);
    }
  }

  // ---------------------------------------------------------------------
  // Stored arrays

  /** A stored array: one list of blocks per chunk, one list of items per block. */
  datatype Stored<V> = Stored(geom: Geometry, chunks: seq<seq<seq<V>>>)
  {
    ghost predicate WellFormed() {
      && geom.Valid()
      && |chunks| == Prod(geom.ChunksShape())
      && (forall k | 0 <= k < |chunks| :: |chunks[k]| == Prod(geom.BlocksShape()))
      && (forall k, l | 0 <= k < |chunks| && 0 <= l < |chunks[k]| :: |chunks[k][l]| == Prod(geom.blockshape))
    }

    /** The item stored at slot `t` of block `b` of chunk `c`, padding included. */
    function Slot(c: Index, b: Index, t: Index): V
      requires WellFormed()
      requires InShape(geom.ChunksShape(), c) && InShape(geom.BlocksShape(), b) && InShape(geom.blockshape, t)
    {
      FlattenBound(geom.ChunksShape(), c);
      FlattenBound(geom.BlocksShape(), b);
      FlattenBound(geom.blockshape, t);
      chunks[Flatten(geom.ChunksShape(), c)][Flatten(geom.BlocksShape(), b)][Flatten(geom.blockshape, t)]
    }

    /** The element at coordinate `x`. */
    function At(x: Index): V
      requires WellFormed() && InShape(geom.shape, x)
    {
      Split(geom, x);
      Slot(geom.ChunkOf(x), geom.BlockOf(x), geom.ItemOf(x))
    }

    /** `val` is the plain array this one stores. */
    ghost predicate Holds(val: Index -> V)
      requires WellFormed()
    {
      forall x | InShape(geom.shape, x) :: At(x) == val(x)
    }
  }

  // ---------------------------------------------------------------------
  // Arrays put together block by block

  /** What every slot of an array is to hold, padding slots included. */
  type SlotFn<!V> = (Index, Index, Index) -> V

  ghost predicate BlockHolds<V>(g: Geometry, item: SlotFn<V>, c: Index, nblock: nat, block: seq<V>)
    requires g.Valid()
  {
    && |block| == Prod(g.blockshape)
    && forall u | 0 <= u < |block| ::
         block[u] == item(c, Unflatten(g.BlocksShape(), nblock), Unflatten(g.blockshape, u))
  }

  ghost predicate ChunkHolds<V>(g: Geometry, item: SlotFn<V>, nchunk: nat, chunk: seq<seq<V>>)
    requires g.Valid() && Positive(g.ChunksShape())
  {
    && |chunk| == Prod(g.BlocksShape())
    && forall l | 0 <= l < |chunk| :: BlockHolds(g, item, Unflatten(g.ChunksShape(), nchunk), l, chunk[l])
  }

  /** Chunks filled in flat order put every item into its slot. */
  lemma ArrayHolds<V>(g: Geometry, item: SlotFn<V>, chunks: seq<seq<seq<V>>>)
    requires g.Valid() && |chunks| == Prod(g.ChunksShape()) && (|chunks| > 0 ==> Positive(g.ChunksShape()))
    requires forall k | 0 <= k < |chunks| :: ChunkHolds(g, item, k, chunks[k])
    ensures Stored(g, chunks).WellFormed()
    ensures forall c, b, t | InShape(g.ChunksShape(), c) && InShape(g.BlocksShape(), b) && InShape(g.blockshape, t) ::
              Stored(g, chunks).Slot(c, b, t) == item(c, b, t)
  {
    hide Prod, Flatten, Unflatten;
    forall k | 0 <= k < |chunks| ensures ChunkHolds(g, item, k, chunks[k]) {}
    forall c, b, t | InShape(g.ChunksShape(), c) && InShape(g.BlocksShape(), b) && InShape(g.blockshape, t)
      ensures Stored(g, chunks).Slot(c, b, t) == item(c, b, t)
    {
      UnflattenFlatten(g.ChunksShape(), c);
      UnflattenFlatten(g.BlocksShape(), b);
      UnflattenFlatten(g.blockshape, t);
      var k, l := Flatten(g.ChunksShape(), c), Flatten(g.BlocksShape(), b);
      assert ChunkHolds(g, item, k, chunks[k]);
      assert BlockHolds(g, item, c, l, chunks[k][l]);
    }
  }
}
