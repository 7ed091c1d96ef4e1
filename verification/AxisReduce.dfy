/** Reduction along one axis (src/reductions/iarray_reduce.c): for every output
    item the input is folded along the axis, run by run, in axis order. */
module AxisReduce {
  import opened Lists
  import opened Arith
  import opened Layout
  import opened Geometry
  import opened OneShotSpec
  import opened OneShot

  /** `y` with component `k` inserted at axis `a`. */
  function Insert(y: Index, a: nat, k: nat): (x: Index)
    requires a <= |y|
    ensures |x| == |y| + 1
    ensures forall i | 0 <= i < |x| :: x[i] == if i < a then y[i] else if i == a then k else y[i-1]
  {
    y[..a] + [k] + y[a..]
  }

  /** `x` without its component at axis `a`. */
  function Remove(x: seq<nat>, a: nat): (y: seq<nat>)
    requires a < |x|
    ensures |y| == |x| - 1
    ensures forall j | 0 <= j < |y| :: y[j] == x[if j < a then j else j + 1]
  {
    x[..a] + x[a+1..]
  }

  function RemoveAxis(g: Geometry, a: nat): Geometry
    requires |g.shape| == |g.chunkshape| == |g.blockshape| && a < |g.shape|
  {
    Geometry(Remove(g.shape, a), Remove(g.chunkshape, a), Remove(g.blockshape, a))
  }

  lemma RemoveAxisValid(g: Geometry, a: nat)
    requires g.Valid() && a < |g.shape|
    ensures var og := RemoveAxis(g, a);
            && og.Valid()
            && og.ChunksShape() == Remove(g.ChunksShape(), a)
            && og.BlocksShape() == Remove(g.BlocksShape(), a)
  {
    var og := RemoveAxis(g, a);
    assert Positive(og.chunkshape) && Positive(og.blockshape);
    hide Remove;
    forall j | 0 <= j < |og.shape|
      ensures og.ChunksShape()[j] == Remove(g.ChunksShape(), a)[j]
      ensures og.BlocksShape()[j] == Remove(g.BlocksShape(), a)[j]
    {}
  }

  lemma InsertInShape(s: seq<nat>, a: nat, y: Index, k: nat)
    requires a < |s| && InShape(Remove(s, a), y) && k < s[a]
    ensures InShape(s, Insert(y, a, k))
  {
    forall i | 0 <= i < |s| ensures Insert(y, a, k)[i] < s[i] {
      if i > a { assert y[i-1] < Remove(s, a)[i-1]; }
      if i < a { assert y[i] < Remove(s, a)[i]; }
    }
  }

  /** Inserting the axis splits and composes component by component. */
  lemma InsertSplit(g: Geometry, a: nat, oc: Index, ob: Index, oi: Index, ci: nat, bi: nat, k: nat)
    requires g.Valid() && a < |g.shape| && RemoveAxis(g, a).Valid() && RemoveAxis(g, a).Inside(oc, ob, oi)
    requires k < g.blockshape[a] && InChunk(g.blockshape[a], bi, k) < g.chunkshape[a]
    requires Pos(g.chunkshape[a], g.blockshape[a], ci, bi, k) < g.shape[a]
    ensures var c, b, t := Insert(oc, a, ci), Insert(ob, a, bi), Insert(oi, a, k);
            && g.Inside(c, b, t)
            && g.Compose(c, b, t) == Insert(RemoveAxis(g, a).Compose(oc, ob, oi), a,
                Pos(g.chunkshape[a], g.blockshape[a], ci, bi, k))
  {
    hide Pos, InChunk;
    var og := RemoveAxis(g, a);
    var c, b, t := Insert(oc, a, ci), Insert(ob, a, bi), Insert(oi, a, k);
    var x := Insert(og.Compose(oc, ob, oi), a, Pos(g.chunkshape[a], g.blockshape[a], ci, bi, k));
    forall i | 0 <= i < |g.shape|
      ensures t[i] < g.blockshape[i] && InChunk(g.blockshape[i], b[i], t[i]) < g.chunkshape[i]
      ensures Pos(g.chunkshape[i], g.blockshape[i], c[i], b[i], t[i]) < g.shape[i]
      ensures Pos(g.chunkshape[i], g.blockshape[i], c[i], b[i], t[i]) == x[i]
    {
      if i != a {
        OtherAxis(g, a, i, if i < a then i else i - 1);
      }
    }
  }

  lemma OtherAxis(g: Geometry, a: nat, i: nat, j: nat)
    requires g.Valid() && a < |g.shape| && i < |g.shape| && i != a && j == (if i < a then i else i - 1)
    ensures var og := RemoveAxis(g, a);
            |og.shape| == |og.chunkshape| == |og.blockshape| == |g.shape| - 1 &&
            og.shape[j] == g.shape[i] && og.chunkshape[j] == g.chunkshape[i] && og.blockshape[j] == g.blockshape[i]
  {}

  // ---------------------------------------------------------------------
  // Flat positions with the axis inserted

  lemma {:induction false} DotInsert(st: seq<nat>, y: Index, a: nat, k: nat)
    requires |st| == |y| + 1 && a <= |y|
    ensures Dot(st, Insert(y, a, k)) == k * st[a] + Dot(Remove(st, a), y)
  {
    var x := Insert(y, a, k);
    if a == 0 {
      assert x[1..] == y && Remove(st, 0) == st[1..];
    } else {
      DotInsert(st[1..], y[1..], a - 1, k);
      assert x[1..] == Insert(y[1..], a - 1, k);
      assert Remove(st, a)[1..] == Remove(st[1..], a - 1);
    }
  }

  /** The flat chunk and block numbers: the axis index first, then the others,
      with the strides shifted past the axis. */
  method FlatWithAxis(offset: Index, strides: seq<nat>, axis: nat, ind: nat, ghost shape: seq<nat>) returns (n: nat)
    requires |shape| == |offset| + 1 && axis <= |offset| && strides == Strides(shape)
    ensures n == Flatten(shape, Insert(offset, axis, ind))
  {
    hide Dot, Insert, Flatten, Strides, Remove;
    n := ind * strides[axis];
    ghost var rest := Remove(strides, axis);
    DotEnd(rest, offset);
    for j := 0 to |offset|
      invariant n + Dot(rest[j..], offset[j..]) == ind * strides[axis] + Dot(rest, offset)
    {
      DotStep(rest, offset, j);
      if j < axis {
        n := n + offset[j] * strides[j];
      } else {
        n := n + offset[j] * strides[j+1];
      }
    }
    DotInsert(strides, offset, axis, ind);
    DotStrides(shape, Insert(offset, axis, ind));
  }

  // ---------------------------------------------------------------------
  // Runs along the axis

  /** The coordinates [from, to) along axis `a`, in order. */
  ghost function AxisRun(y: Index, a: nat, from: nat, to: nat): seq<Index>
    requires a <= |y|
    decreases if from < to then to - from else 0
  {
    if from >= to then [] else [Insert(y, a, from)] + AxisRun(y, a, from + 1, to)
  }

  lemma {:induction false} AxisRunAppend(y: Index, a: nat, from: nat, mid: nat, to: nat)
    requires a <= |y| && from <= mid <= to
    ensures AxisRun(y, a, from, to) == AxisRun(y, a, from, mid) + AxisRun(y, a, mid, to)
    decreases mid - from
  {
    if from < mid {
      AxisRunAppend(y, a, from + 1, mid, to);
    }
  }

  /** How much of the axis is done before block `bi` of chunk `ci`. */
  function Covered(S: nat, C: nat, B: nat, ci: nat, bi: nat): nat {
    Min(S, ci * C + Min(C, bi * B))
  }

  function Min(a: nat, b: nat): nat { if a < b then a else b }

  /** The length the code computes for a run, before the loop bound clamps it. */
  function VectorNelems(S: nat, C: nat, B: nat, ci: nat, bi: nat): int {
    var aux := bi * B + ci * C;
    var n := if aux + B > S then S - aux else B;
    var n2 := if bi * B + B > C then C - bi * B else B;
    if n2 < n then n2 else n
  }

  /** The runs are consecutive: each starts where the previous ones end, and
      together they cover the axis exactly once. */
  lemma RunsAreConsecutive(S: nat, C: nat, B: nat, ci: nat, bi: nat)
    requires C > 0 && B > 0 && ci < CeilDiv(S, C) && bi < CeilDiv(C, B)
    ensures var n := VectorNelems(S, C, B, ci, bi);
            && (n > 0 ==> Covered(S, C, B, ci, bi) == ci * C + bi * B)
            && Covered(S, C, B, ci, bi + 1) == Covered(S, C, B, ci, bi) + (if n > 0 then n else 0)
            && n <= B && bi * B + n <= C && ci * C + bi * B + n <= S
  {
    CeilDivBelow(ci, S, C);
    CeilDivBelow(bi, C, B);
    StartIs(ci, C);
    StartIs(bi, B);
    StartNext(bi, B);
    RunTerms(S, C, B, ci, bi);
    RunTerms(S, C, B, ci, bi + 1);
    hide *;
    OneRun(S, C, B, Start(ci, C), Start(bi, B));
  }

  lemma RunTerms(S: nat, C: nat, B: nat, ci: nat, bi: nat)
    ensures Covered(S, C, B, ci, bi) == Min(S, Start(ci, C) + Min(C, Start(bi, B)))
    ensures VectorNelems(S, C, B, ci, bi) == RunItems(S, C, B, Start(ci, C), Start(bi, B))
  {}

  /** The length of a run that starts `y` items into a chunk starting at `x`. */
  function RunItems(S: nat, C: nat, B: nat, x: nat, y: nat): int {
    var aux := y + x;
    var n := if aux + B > S then S - aux else B;
    var n2 := if y + B > C then C - y else B;
    if n2 < n then n2 else n
  }

  lemma OneRun(S: nat, C: nat, B: nat, x: nat, y: nat)
    requires x < S && y < C
    ensures var len := RunItems(S, C, B, x, y);
            && (len > 0 ==> Min(S, x + Min(C, y)) == x + y)
            && Min(S, x + Min(C, y + B)) == Min(S, x + Min(C, y)) + (if len > 0 then len else 0)
            && len <= B && y + len <= C && x + y + len <= S
  {}

  lemma RunsStart(S: nat, C: nat, B: nat)
    ensures Covered(S, C, B, 0, 0) == 0
  {}

  lemma RunsNextChunk(S: nat, C: nat, B: nat, ci: nat)
    requires C > 0 && B > 0
    ensures Covered(S, C, B, ci, CeilDiv(C, B)) == Covered(S, C, B, ci + 1, 0)
  {
    assert (ci + 1) * C == ci * C + C;
  }

  lemma RunsEnd(S: nat, C: nat, B: nat)
    requires C > 0
    ensures Covered(S, C, B, CeilDiv(S, C), 0) == S
  {}

  // ---------------------------------------------------------------------
  // _reduce_prefilter

  /** The output coordinate of item `u` of block `ob` of chunk `oc`. */
  ghost function OutCoord(og: Geometry, oc: Index, ob: Index, u: nat): Index
    requires og.Valid() && |oc| == |ob| == |og.shape|
  {
    og.Compose(oc, ob, Unflatten(og.blockshape, u))
  }

  /** Every item of the output block that is not padding holds the fold over the
      first `upto` positions of the axis, in axis order. */
  ghost predicate FoldedUpTo<A, V>(uf: UFunc<A, V>, val: Index -> V, g: Geometry, a: nat, oc: Index, ob: Index,
                                   out: seq<A>, upto: nat)
    requires g.Valid() && a < |g.shape| && RemoveAxis(g, a).Valid() && |oc| == |ob| == |g.shape| - 1
  {
    var og := RemoveAxis(g, a);
    forall u | 0 <= u < |out| ::
      og.Inside(oc, ob, Unflatten(og.blockshape, u)) ==>
        out[u] == Fold(uf.step, val, uf.init, AxisRun(OutCoord(og, oc, ob, u), a, 0, upto))
  }

  /** ufunc->reduction with a stride: the next `nelems` items of the run. */
  method ReduceRun<A, V>(uf: UFunc<A, V>, ghost val: Index -> V, acc: A, block: seq<V>, start: nat, stride: nat,
                         nelems: int,
                         ghost y: Index, ghost a: nat, ghost from: nat) returns (r: A)
    requires a <= |y|
    requires forall k | 0 <= k < nelems ::
               start + k * stride < |block| && block[start + k * stride] == val(Insert(y, a, from + k))
    ensures r == Fold(uf.step, val, acc, AxisRun(y, a, from, from + (if nelems > 0 then nelems else 0)))
  {
    hide Insert;
    r := acc;
    var i, pos := 0, start;
    ghost var to := from + if nelems > 0 then nelems else 0;
    while i < nelems
      invariant 0 <= i && (i <= nelems || i == 0) && pos == start + i * stride
      invariant Fold(uf.step, val, r, AxisRun(y, a, from + i, to)) == Fold(uf.step, val, acc, AxisRun(y, a, from, to))
      decreases nelems - i
    {
      assert (i + 1) * stride == i * stride + stride;
      assert AxisRun(y, a, from + i, to)[1..] == AxisRun(y, a, from + i + 1, to);
      r := uf.step(r, block[pos]);
      i := i + 1;
      pos := pos + stride;
    }
  }

  /** The items a run reads are the ones along the axis. */
  lemma RunReads<V>(input: Stored<V>, val: Index -> V, a: nat, oc: Index, ob: Index, oi: Index, ci: nat, bi: nat,
                    block: seq<V>, k: nat)
    requires input.WellFormed() && input.Holds(val) && a < input.geom.Ndim()
    requires RemoveAxis(input.geom, a).Valid() && RemoveAxis(input.geom, a).Inside(oc, ob, oi)
    requires IsBlock(input, Insert(oc, a, ci), Insert(ob, a, bi), block)
    requires k < input.geom.blockshape[a] && InChunk(input.geom.blockshape[a], bi, k) < input.geom.chunkshape[a]
    requires Pos(input.geom.chunkshape[a], input.geom.blockshape[a], ci, bi, k) < input.geom.shape[a]
    ensures var n := Flatten(input.geom.blockshape, Insert(oi, a, k));
            n < |block| &&
            block[n] == val(Insert(RemoveAxis(input.geom, a).Compose(oc, ob, oi), a,
                                   Pos(input.geom.chunkshape[a], input.geom.blockshape[a], ci, bi, k)))
  {
    var g := input.geom;
    InsertSplit(g, a, oc, ob, oi, ci, bi, k);
    var c, b, t := Insert(oc, a, ci), Insert(ob, a, bi), Insert(oi, a, k);
    SplitUnique(g, c, b, t);
    var x := g.Compose(c, b, t);
    assert input.At(x) == val(x);
    hide Pos, InChunk, Flatten, Insert, Remove, Prod;
    assert block[Flatten(g.blockshape, t)] == input.Slot(c, b, t);
  }

  /** Makes room for the axis by shifting the later components up, in place. */
  method ShiftInAxis(e: array<nat>, axis: nat)
    requires axis < e.Length
    modifies e
    ensures e[..] == Insert(old(e[..e.Length-1]), axis, 0)
  {
    var n := e.Length;
    var i := n;
    while i > 0
      invariant 0 <= i <= n
      invariant forall k | 0 <= k < i :: e[k] == old(e[k])
      invariant forall k | i <= k < n :: e[k] == if k < axis then old(e[k]) else if k == axis then 0 else old(e[k-1])
    {
      i := i - 1;
      if i > axis {
        e[i] := e[i-1];
      } else if i == axis {
        e[i] := 0;
      }
    }
  }

  /** Where an item's run starts in the input block. */
  method RunStart(elem: array<nat>, a: nat, strides: seq<nat>) returns (start: nat)
    requires a < elem.Length == |strides|
    modifies elem
    ensures start == Dot(strides, Insert(old(elem[..elem.Length-1]), a, 0))
  {
    ShiftInAxis(elem, a);
    start := MultidimToUnidim(strides, elem[..]);
  }

  /** One output item and one run of the input block. */
  method ReduceItemRun<A, V>(input: Stored<V>, uf: UFunc<A, V>, ghost val: Index -> V, a: nat, og: Geometry,
                             ghost oc: Index, ob: Index,
                             acc: A, u: nat, outChunkshape: seq<nat>, block: seq<V>, ci: nat, bi: nat,
                             strides: seq<nat>) returns (r: A)
    requires input.WellFormed() && input.Holds(val) && a < input.geom.Ndim() && og == RemoveAxis(input.geom, a)
    requires og.Valid()
    requires InShape(og.ChunksShape(), oc) && InShape(og.BlocksShape(), ob) && ClippedShape(og, oc, outChunkshape)
    requires ci < CeilDiv(input.geom.shape[a], input.geom.chunkshape[a])
    requires bi < CeilDiv(input.geom.chunkshape[a], input.geom.blockshape[a])
    requires IsBlock(input, Insert(oc, a, ci), Insert(ob, a, bi), block)
    requires u < Prod(og.blockshape) && strides == Strides(input.geom.blockshape) && |outChunkshape| == |og.shape|
    ensures og.Inside(oc, ob, Unflatten(og.blockshape, u)) ==>
              r == Fold(uf.step, val, acc, AxisRun(OutCoord(og, oc, ob, u), a,
                          Covered(input.geom.shape[a], input.geom.chunkshape[a], input.geom.blockshape[a], ci, bi),
                          Covered(input.geom.shape[a], input.geom.chunkshape[a], input.geom.blockshape[a], ci, bi + 1)))
    ensures !og.Inside(oc, ob, Unflatten(og.blockshape, u)) ==> r == acc
  {
    hide Fold, AxisRun, Flatten, Unflatten, Insert, Remove, Dot, Strides, IsBlock, Stored.Holds, Prod, Covered;
    assert input.geom.Valid() && |og.shape| == input.geom.Ndim() - 1;
    hide VectorNelems, ClippedShape, CeilDiv, Stored.WellFormed, Geometry.Inside, Geometry.Compose, RemoveAxis, InShape;
    var g := input.geom;
    var elem := new nat[g.Ndim()];
    UnidimToMultidimShape(og.blockshape, u, elem);
    var oi := elem[..g.Ndim()-1];
    assert InShape(og.blockshape, oi) by { UnflattenInShape(og.blockshape, u); }
    PaddingMeansOutside(og, oc, ob, oi, outChunkshape);
    var padding := CheckPadding(ob, oi, outChunkshape, og.blockshape);
    if padding {
      return acc;
    }
    var start := RunStart(elem, a, strides);
    r := ReadRun(input, uf, val, a, oc, ob, oi, acc, block, start, ci, bi, strides);
  }

  /** The run of one output item: its length, and the items it reads. */
  method ReadRun<A, V>(input: Stored<V>, uf: UFunc<A, V>, ghost val: Index -> V, a: nat, ghost oc: Index,
                       ghost ob: Index, ghost oi: Index,
                       acc: A, block: seq<V>, start: nat, ci: nat, bi: nat, strides: seq<nat>) returns (r: A)
    requires input.WellFormed() && input.Holds(val) && a < input.geom.Ndim()
    requires RemoveAxis(input.geom, a).Valid() && RemoveAxis(input.geom, a).Inside(oc, ob, oi)
    requires ci < CeilDiv(input.geom.shape[a], input.geom.chunkshape[a])
    requires bi < CeilDiv(input.geom.chunkshape[a], input.geom.blockshape[a])
    requires IsBlock(input, Insert(oc, a, ci), Insert(ob, a, bi), block)
    requires strides == Strides(input.geom.blockshape) && start == Dot(strides, Insert(oi, a, 0))
    ensures r == Fold(uf.step, val, acc, AxisRun(RemoveAxis(input.geom, a).Compose(oc, ob, oi), a,
                        Covered(input.geom.shape[a], input.geom.chunkshape[a], input.geom.blockshape[a], ci, bi),
                        Covered(input.geom.shape[a], input.geom.chunkshape[a], input.geom.blockshape[a], ci, bi + 1)))
  {
    hide Fold, AxisRun, Flatten, Insert, Remove, Dot, Strides, IsBlock, Stored.Holds, Prod, Covered, VectorNelems;
    var g := input.geom;
    var S, C, B := g.shape[a], g.chunkshape[a], g.blockshape[a];
    var nelems := RunLength(S, C, B, ci, bi);
    RunsAreConsecutive(S, C, B, ci, bi);
    ghost var y := RemoveAxis(g, a).Compose(oc, ob, oi);
    forall k | 0 <= k < nelems
      ensures start + k * strides[a] < |block|
      ensures block[start + k * strides[a]] == val(Insert(y, a, ci * C + bi * B + k))
    {
      assert k < B && InChunk(B, bi, k) < C && Pos(C, B, ci, bi, k) < S;
      RunReads(input, val, a, oc, ob, oi, ci, bi, block, k);
      StridedPosition(g.blockshape, oi, a, k);
    }
    if nelems > 0 {
      r := ReduceRun(uf, val, acc, block, start, strides[a], nelems, y, a, ci * C + bi * B);
    } else {
      EmptyRun(uf, val, acc, y, a, Covered(S, C, B, ci, bi));
      r := acc;
    }
  }

  lemma EmptyRun<A, V>(uf: UFunc<A, V>, val: Index -> V, acc: A, y: Index, a: nat, from: nat)
    requires a <= |y|
    ensures Fold(uf.step, val, acc, AxisRun(y, a, from, from)) == acc
  {}

  /** Moving along the axis is stepping by its stride. */
  lemma StridedPosition(s: seq<nat>, oi: Index, a: nat, k: nat)
    requires |s| == |oi| + 1 && a < |s|
    ensures Dot(Strides(s), Insert(oi, a, 0)) + k * Strides(s)[a] == Flatten(s, Insert(oi, a, k))
  {
    DotInsert(Strides(s), oi, a, 0);
    DotInsert(Strides(s), oi, a, k);
    DotStrides(s, Insert(oi, a, k));
  }

  /** The length of a run, clipped first to the array and then to the chunk. */
  method RunLength(S: nat, C: nat, B: nat, ci: nat, bi: nat) returns (n: int)
    ensures n == VectorNelems(S, C, B, ci, bi)
  {
    var aux := bi * B;
    aux := aux + ci * C;
    if aux + B > S {
      n := S - aux;
    } else {
      n := B;
    }
    aux := bi * B;
    var n2: int;
    if aux + B > C {
      n2 := C - aux;
    } else {
      n2 := B;
    }
    if n2 < n {
      n := n2;
    }
  }

  lemma FoldedMore<A, V>(uf: UFunc<A, V>, val: Index -> V, y: Index, a: nat, acc: A, m: nat, n: nat)
    requires a <= |y| && m <= n && acc == Fold(uf.step, val, uf.init, AxisRun(y, a, 0, m))
    ensures Fold(uf.step, val, acc, AxisRun(y, a, m, n)) == Fold(uf.step, val, uf.init, AxisRun(y, a, 0, n))
  {
    AxisRunAppend(y, a, 0, m, n);
    FoldAppend(uf.step, val, uf.init, AxisRun(y, a, 0, m), AxisRun(y, a, m, n));
  }

  lemma CoveredGrows(S: nat, C: nat, B: nat, ci: nat, bi: nat)
    ensures Covered(S, C, B, ci, bi) <= Covered(S, C, B, ci, bi + 1)
  {
    assert (bi + 1) * B == bi * B + B;
  }

  /** One input block is offered to every item of the output block. */
  method ReduceBlockRuns<A, V>(input: Stored<V>, uf: UFunc<A, V>, ghost val: Index -> V, a: nat, og: Geometry,
                               ghost oc: Index, ob: Index,
                               out: array<A>, outChunkshape: seq<nat>, block: seq<V>, ci: nat, bi: nat,
                               strides: seq<nat>)
    requires input.WellFormed() && input.Holds(val) && a < input.geom.Ndim() && og == RemoveAxis(input.geom, a)
    requires og.Valid()
    requires InShape(og.ChunksShape(), oc) && InShape(og.BlocksShape(), ob) && ClippedShape(og, oc, outChunkshape)
    requires ci < CeilDiv(input.geom.shape[a], input.geom.chunkshape[a])
    requires bi < CeilDiv(input.geom.chunkshape[a], input.geom.blockshape[a])
    requires IsBlock(input, Insert(oc, a, ci), Insert(ob, a, bi), block)
    requires strides == Strides(input.geom.blockshape) && |outChunkshape| == |og.shape|
    requires out.Length == Prod(og.blockshape)
    requires FoldedUpTo(uf, val, input.geom, a, oc, ob, out[..],
                        Covered(input.geom.shape[a], input.geom.chunkshape[a], input.geom.blockshape[a], ci, bi))
    modifies out
    ensures FoldedUpTo(uf, val, input.geom, a, oc, ob, out[..],
                       Covered(input.geom.shape[a], input.geom.chunkshape[a], input.geom.blockshape[a], ci, bi + 1))
  {
    hide Fold, AxisRun, Unflatten, Insert, Strides, IsBlock, Stored.Holds, Prod, Covered, ClippedShape;
    ghost var m := Covered(input.geom.shape[a], input.geom.chunkshape[a], input.geom.blockshape[a], ci, bi);
    ghost var n := Covered(input.geom.shape[a], input.geom.chunkshape[a], input.geom.blockshape[a], ci, bi + 1);
    CoveredGrows(input.geom.shape[a], input.geom.chunkshape[a], input.geom.blockshape[a], ci, bi);
    ghost var o := out[..];
    for u := 0 to out.Length
      invariant forall v | u <= v < out.Length :: out[v] == o[v]
      invariant forall v | 0 <= v < u && og.Inside(oc, ob, Unflatten(og.blockshape, v)) ::
                  out[v] == Fold(uf.step, val, uf.init, AxisRun(OutCoord(og, oc, ob, v), a, 0, n))
    {
      var r := ReduceItemRun(input, uf, val, a, og, oc, ob, out[u], u, outChunkshape, block, ci, bi, strides);
      if og.Inside(oc, ob, Unflatten(og.blockshape, u)) {
        assert o[u] == Fold(uf.step, val, uf.init, AxisRun(OutCoord(og, oc, ob, u), a, 0, m));
        FoldedMore(uf, val, OutCoord(og, oc, ob, u), a, o[u], m, n);
      }
      out[u] := r;
    }
  }

  /** The loops over the chunks and blocks along the axis. */
  method ReduceAlong<A, V>(input: Stored<V>, uf: UFunc<A, V>, ghost val: Index -> V, a: nat, og: Geometry, oc: Index,
                           ob: Index,
                           out: array<A>, outChunkshape: seq<nat>)
    requires input.WellFormed() && input.Holds(val) && a < input.geom.Ndim() && og == RemoveAxis(input.geom, a)
    requires og.Valid()
    requires InShape(og.ChunksShape(), oc) && InShape(og.BlocksShape(), ob) && ClippedShape(og, oc, outChunkshape)
    requires |outChunkshape| == |og.shape| && out.Length == Prod(og.blockshape)
    requires FoldedUpTo(uf, val, input.geom, a, oc, ob, out[..], 0)
    modifies out
    ensures FoldedUpTo(uf, val, input.geom, a, oc, ob, out[..], input.geom.shape[a])
  {
    hide Unflatten, Insert, Strides, Stored.Holds, Prod, Covered, ClippedShape, FoldedUpTo, IsBlock, Flatten, Remove;
    var g := input.geom;
    ghost var S, C, B := g.shape[a], g.chunkshape[a], g.blockshape[a];
    var strides := MakeStrides(g.blockshape);
    var blockStrides := MakeStrides(g.BlocksShape());
    var chunkStrides := MakeStrides(g.ChunksShape());
    var nblocks, nchunks := g.BlocksShape()[a], g.ChunksShape()[a];
    RemoveAxisValid(g, a);
    RunsStart(S, C, B);
    RunsEnd(S, C, B);
    for ci := 0 to nchunks
      invariant FoldedUpTo(uf, val, g, a, oc, ob, out[..], Covered(S, C, B, ci, 0))
    {
      var nchunk := FlatWithAxis(oc, chunkStrides, a, ci, g.ChunksShape());
      InsertInShape(g.ChunksShape(), a, oc, ci);
      RunsNextChunk(S, C, B, ci);
      for bi := 0 to nblocks
        invariant FoldedUpTo(uf, val, g, a, oc, ob, out[..], Covered(S, C, B, ci, bi))
      {
        InsertInShape(g.BlocksShape(), a, ob, bi);
        var nblock := FlatWithAxis(ob, blockStrides, a, bi, g.BlocksShape());
        var block := FetchBlock(input, Insert(oc, a, ci), Insert(ob, a, bi), nchunk, nblock);
        ReduceBlockRuns(input, uf, val, a, og, oc, ob, out, outChunkshape, block, ci, bi, strides);
      }
    }
  }

  /** blosc2_getitem_ctx: the items of block `nblock` of chunk `nchunk`. */
  method FetchBlock<V>(input: Stored<V>, ghost c: Index, ghost b: Index, nchunk: nat, nblock: nat)
    returns (block: seq<V>)
    requires input.WellFormed() && InShape(input.geom.ChunksShape(), c) && InShape(input.geom.BlocksShape(), b)
    requires nchunk == Flatten(input.geom.ChunksShape(), c) && nblock == Flatten(input.geom.BlocksShape(), b)
    ensures IsBlock(input, c, b, block)
  {
    FlattenBound(input.geom.ChunksShape(), c);
    FlattenBound(input.geom.BlocksShape(), b);
    forall t | InShape(input.geom.blockshape, t)
      ensures Flatten(input.geom.blockshape, t) < Prod(input.geom.blockshape)
    {
      FlattenBound(input.geom.blockshape, t);
    }
    block := input.chunks[nchunk][nblock];
  }

  /** What the prefilter leaves in item `t` of an output block; padding is zeroed. */
  ghost function AxisItem<A, V>(uf: UFunc<A, V>, val: Index -> V, zero: A, g: Geometry, a: nat, oc: Index, ob: Index,
                                t: Index): A
    requires g.Valid() && a < |g.shape| && RemoveAxis(g, a).Valid() && |oc| == |ob| == |t| == |g.shape| - 1
  {
    var og := RemoveAxis(g, a);
    if og.Inside(oc, ob, t)
        then uf.finish(Fold(uf.step, val, uf.init, AxisRun(og.Compose(oc, ob, t), a, 0, g.shape[a]))) else zero
  }

  /** _reduce_prefilter: fills one block of the output. */
  method AxisPrefilter<A, V>(input: Stored<V>, uf: UFunc<A, V>, ghost val: Index -> V, zero: A, a: nat, og: Geometry,
                             oc: Index, outChunkshape: seq<nat>, nblock: nat, out: array<A>)
    requires input.WellFormed() && input.Holds(val) && a < input.geom.Ndim() && og == RemoveAxis(input.geom, a)
    requires og.Valid()
    requires InShape(og.ChunksShape(), oc) && ClippedShape(og, oc, outChunkshape) && |outChunkshape| == |og.shape|
    requires nblock < Prod(og.BlocksShape()) && out.Length == Prod(og.blockshape)
    modifies out
    ensures forall u | 0 <= u < out.Length ::
              out[u] == AxisItem(uf, val, zero, input.geom, a, oc, Unflatten(og.BlocksShape(), nblock),
                  Unflatten(og.blockshape, u))
  {
    hide Unflatten, Strides, Stored.Holds, Prod, ClippedShape, FoldedUpTo, Remove, Fold, AxisRun;
    var obIndex := new nat[og.Ndim()];
    UnidimToMultidimShape(og.BlocksShape(), nblock, obIndex);
    var ob := obIndex[..];
    UnflattenInShape(og.BlocksShape(), nblock);
    InitItems(uf, val, input.geom, a, og, oc, ob, outChunkshape, out);
    ReduceAlong(input, uf, val, a, og, oc, ob, out, outChunkshape);
    FinishItems(uf, val, zero, input.geom, a, og, oc, ob, outChunkshape, out);
  }

  /** check_padding for item `u` of the output block */
  method ItemIsPadding(og: Geometry, ghost oc: Index, ob: Index, outChunkshape: seq<nat>, u: nat)
    returns (padding: bool)
    requires og.Valid() && InShape(og.ChunksShape(), oc) && InShape(og.BlocksShape(), ob)
    requires ClippedShape(og, oc, outChunkshape) && |outChunkshape| == |og.shape| && u < Prod(og.blockshape)
    ensures padding <==> !og.Inside(oc, ob, Unflatten(og.blockshape, u))
  {
    hide Prod, ClippedShape;
    var elem := new nat[og.Ndim()];
    UnidimToMultidimShape(og.blockshape, u, elem);
    assert InShape(og.blockshape, elem[..]) by { UnflattenInShape(og.blockshape, u); }
    PaddingMeansOutside(og, oc, ob, elem[..], outChunkshape);
    padding := CheckPadding(ob, elem[..], outChunkshape, og.blockshape);
  }

  method InitItems<A, V>(uf: UFunc<A, V>, ghost val: Index -> V, ghost g: Geometry, ghost a: nat, og: Geometry,
                         ghost oc: Index, ob: Index, outChunkshape: seq<nat>, out: array<A>)
    requires g.Valid() && a < |g.shape| && og == RemoveAxis(g, a) && og.Valid()
    requires InShape(og.ChunksShape(), oc) && InShape(og.BlocksShape(), ob)
    requires ClippedShape(og, oc, outChunkshape) && |outChunkshape| == |og.shape| && out.Length == Prod(og.blockshape)
    modifies out
    ensures FoldedUpTo(uf, val, g, a, oc, ob, out[..], 0)
  {
    hide Unflatten, Prod, ClippedShape, Remove;
    for u := 0 to out.Length
      invariant forall v | 0 <= v < u && og.Inside(oc, ob, Unflatten(og.blockshape, v)) :: out[v] == uf.init
    {
      var empty := ItemIsPadding(og, oc, ob, outChunkshape, u);
      if !empty {
        out[u] := uf.init;
      }
    }
  }

  method FinishItems<A, V>(uf: UFunc<A, V>, ghost val: Index -> V, zero: A, ghost g: Geometry, ghost a: nat,
                           og: Geometry,
                           ghost oc: Index, ob: Index, outChunkshape: seq<nat>, out: array<A>)
    requires g.Valid() && a < |g.shape| && og == RemoveAxis(g, a) && og.Valid()
    requires InShape(og.ChunksShape(), oc) && InShape(og.BlocksShape(), ob)
    requires ClippedShape(og, oc, outChunkshape) && |outChunkshape| == |og.shape| && out.Length == Prod(og.blockshape)
    requires FoldedUpTo(uf, val, g, a, oc, ob, out[..], g.shape[a])
    modifies out
    ensures forall u | 0 <= u < out.Length ::
              out[u] == AxisItem(uf, val, zero, g, a, oc, ob, Unflatten(og.blockshape, u))
  {
    hide Unflatten, Prod, ClippedShape, FoldedUpTo, Remove, Fold, AxisRun, AxisItem;
    ghost var o := out[..];
    for u := 0 to out.Length
      invariant forall v | u <= v < out.Length :: out[v] == o[v]
      invariant forall v | 0 <= v < u :: out[v] == AxisItem(uf, val, zero, g, a, oc, ob, Unflatten(og.blockshape, v))
    {
      var padding := ItemIsPadding(og, oc, ob, outChunkshape, u);
      FinishedRun(uf, val, zero, g, a, oc, ob, o, u);
      out[u] := if padding then zero else uf.finish(out[u]);
    }
  }

  lemma FinishedRun<A, V>(uf: UFunc<A, V>, val: Index -> V, zero: A, g: Geometry, a: nat, oc: Index, ob: Index,
                          out: seq<A>, u: nat)
    requires g.Valid() && a < |g.shape| && RemoveAxis(g, a).Valid() && |oc| == |ob| == |g.shape| - 1 && u < |out|
    requires FoldedUpTo(uf, val, g, a, oc, ob, out, g.shape[a])
    ensures var og := RemoveAxis(g, a);
            var t := Unflatten(og.blockshape, u);
            AxisItem(uf, val, zero, g, a, oc, ob, t) == if og.Inside(oc, ob, t) then uf.finish(out[u]) else zero
  {
    hide Unflatten, Remove, Fold, AxisRun;
  }

  // ---------------------------------------------------------------------
  // _iarray_reduce_udf: the whole output array

  ghost function AxisItemFn<A, V>(uf: UFunc<A, V>, val: Index -> V, zero: A, g: Geometry, a: nat): SlotFn<A>
    requires g.Valid() && a < |g.shape| && RemoveAxis(g, a).Valid()
  {
    (c: Index, b: Index, t: Index) =>
      if |c| == |b| == |t| == |g.shape| - 1 then AxisItem(uf, val, zero, g, a, c, b, t) else zero
  }

  method AxisChunk<A(0), V>(input: Stored<V>, uf: UFunc<A, V>, ghost val: Index -> V, zero: A, a: nat, og: Geometry,
                            nchunk: nat)
    returns (chunk: seq<seq<A>>)
    requires input.WellFormed() && input.Holds(val) && a < input.geom.Ndim() && og == RemoveAxis(input.geom, a)
    requires og.Valid()
    requires Positive(og.ChunksShape()) && nchunk < Prod(og.ChunksShape())
    ensures ChunkHolds(og, AxisItemFn(uf, val, zero, input.geom, a), nchunk, chunk)
  {
    hide Prod, Unflatten, ClippedShape, Stored.Holds, AxisItem, Remove;
    var chunkIndex := new nat[og.Ndim()];
    UnidimToMultidimShape(og.ChunksShape(), nchunk, chunkIndex);
    var oc := chunkIndex[..];
    UnflattenInShape(og.ChunksShape(), nchunk);
    var chunkShape := ClipChunkshape(og, oc);
    chunk := [];
    for nblock := 0 to Prod(og.BlocksShape())
      invariant |chunk| == nblock
      invariant forall l | 0 <= l < nblock :: BlockHolds(og, AxisItemFn(uf, val, zero, input.geom, a), oc, l, chunk[l])
    {
      var out := new A[Prod(og.blockshape)];
      AxisPrefilter(input, uf, val, zero, a, og, oc, chunkShape, nblock, out);
      chunk := chunk + [out[..]];
    }
  }

  /** One pass over axis `a`: every element of the result is the fold along the
      axis in axis order, for any step, commutative or not; padding is zero. */
  method ReduceAxis<A(0), V>(input: Stored<V>, uf: UFunc<A, V>, ghost val: Index -> V, zero: A, a: nat)
    returns (result: Stored<A>)
    requires input.WellFormed() && input.Holds(val) && a < input.geom.Ndim()
    ensures result.WellFormed() && result.geom == RemoveAxis(input.geom, a)
    ensures forall y | InShape(result.geom.shape, y) ::
              result.At(y) == uf.finish(Fold(uf.step, val, uf.init, AxisRun(y, a, 0, input.geom.shape[a])))
    ensures forall c, b, t | InShape(result.geom.ChunksShape(), c) && InShape(result.geom.BlocksShape(), b) &&
              InShape(result.geom.blockshape, t)
              && !result.geom.Inside(c, b, t) :: result.Slot(c, b, t) == zero
  {
    hide Prod, Unflatten, Stored.Holds, AxisItem, ChunkHolds, Remove, Fold, AxisRun, Flatten;
    var og := RemoveAxis(input.geom, a);
    RemoveAxisValid(input.geom, a);
    var chunks: seq<seq<seq<A>>> := [];
    var nchunk, nchunks := 0, Prod(og.ChunksShape());
    while nchunk < nchunks
      invariant |chunks| == nchunk <= nchunks && (nchunk > 0 ==> Positive(og.ChunksShape()))
      invariant forall k | 0 <= k < nchunk :: ChunkHolds(og, AxisItemFn(uf, val, zero, input.geom, a), k, chunks[k])
    {
      ProdPositiveIf(og.ChunksShape(), nchunk);
      var chunk := AxisChunk(input, uf, val, zero, a, og, nchunk);
      chunks := chunks + [chunk];
      nchunk := nchunk + 1;
    }
    result := Stored(og, chunks);
    ArrayHolds(og, AxisItemFn(uf, val, zero, input.geom, a), chunks);
    forall y | InShape(og.shape, y)
      ensures result.At(y) == uf.finish(Fold(uf.step, val, uf.init, AxisRun(y, a, 0, input.geom.shape[a])))
    {
      Split(og, y);
      InsideItem(uf, val, zero, input.geom, a, og.ChunkOf(y), og.BlockOf(y), og.ItemOf(y));
    }
    forall c, b, t | InShape(og.ChunksShape(), c) && InShape(og.BlocksShape(), b) && InShape(og.blockshape, t) &&
      !og.Inside(c, b, t)
      ensures result.Slot(c, b, t) == zero
    {
      InsideItem(uf, val, zero, input.geom, a, c, b, t);
    }
  }

  lemma InsideItem<A, V>(uf: UFunc<A, V>, val: Index -> V, zero: A, g: Geometry, a: nat, oc: Index, ob: Index, t: Index)
    requires g.Valid() && a < |g.shape| && RemoveAxis(g, a).Valid() && |oc| == |ob| == |t| == |g.shape| - 1
    ensures var og := RemoveAxis(g, a);
            AxisItem(uf, val, zero, g, a, oc, ob, t) ==
            if og.Inside(oc, ob, t)
                then uf.finish(Fold(uf.step, val, uf.init, AxisRun(og.Compose(oc, ob, t), a, 0, g.shape[a])))
                else zero
  {}
}
