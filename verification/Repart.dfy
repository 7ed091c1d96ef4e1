/** Repartition of a chunk: from one row-major piece to blocks one after the
    other, padding the blocks at the edges with zeros
    (caterva_blosc_array_repart_chunk in src/iarray_expression.c). */
module Repart {
  import opened Lists
  import opened Arith
  import opened Layout
  import opened Geometry

  const MAX_DIM := 8

  /** Position inside the chunk of item `t` of block `b`. */
  function Offset(B: seq<nat>, b: Index, t: Index): (x: Index)
    requires |b| == |t| == |B|
    ensures |x| == |B| && forall i | 0 <= i < |x| :: x[i] == InChunk(B[i], b[i], t[i])
  {
    seq(|B|, i requires 0 <= i < |B| => InChunk(B[i], b[i], t[i]))
  }

  /** `seg` is block `b` of the chunk: every item of the chunk in its place,
      zeros where the block sticks out of the chunk. */
  ghost predicate IsRepartBlock<V>(chunk: seq<V>, zero: V, C: seq<nat>, B: seq<nat>, b: Index, seg: seq<V>)
    requires |B| == |C| == |b| && |chunk| == Prod(C)
  {
    && |seg| == Prod(B)
    && forall t | InShape(B, t) :: SlotHolds(chunk, zero, C, B, b, seg, t)
  }

  ghost predicate SlotHolds<V>(chunk: seq<V>, zero: V, C: seq<nat>, B: seq<nat>, b: Index, seg: seq<V>, t: Index)
    requires |B| == |C| == |b| && |chunk| == Prod(C) && InShape(B, t) && |seg| == Prod(B)
  {
    FlattenBound(B, t);
    seg[Flatten(B, t)] == ItemOr(chunk, zero, C, Offset(B, b, t))
  }

  ghost function ItemOr<V>(chunk: seq<V>, zero: V, C: seq<nat>, x: Index): V
    requires |chunk| == Prod(C)
  {
    if InShape(C, x) then FlattenBound(C, x); chunk[Flatten(C, x)] else zero
  }

  // ---------------------------------------------------------------------
  // Lines: runs along the last dimension

  lemma {:induction false} FlattenLast(s: seq<nat>, x: Index, j: nat)
    requires |s| == |x| + 1
    ensures Flatten(s, x + [j]) == Flatten(s, x + [0]) + j
  {
    if x == [] {
      assert s[1..] == [];
    } else {
      assert (x + [j])[1..] == x[1..] + [j] && (x + [0])[1..] == x[1..] + [0];
      FlattenLast(s[1..], x[1..], j);
    }
  }

  /** Position of a coordinate, by the running product over the dimensions from
      the last to the first that the copy loop uses. */
  method Position(shape: seq<nat>, x: Index) returns (f: nat)
    requires |shape| == |x| > 0
    ensures f == Flatten(shape, x)
  {
    var n := |shape|;
    f := x[n - 1];
    var a := shape[n - 1];
    var i := n - 1;
    assert Flatten(shape[n-1..], x[n-1..]) == x[n-1] && Prod(shape[n-1..]) == shape[n-1] by {
      assert shape[n-1..][1..] == [] && x[n-1..][1..] == [];
    }
    while i > 0
      invariant 0 <= i < n && f == Flatten(shape[i..], x[i..]) && a == Prod(shape[i..])
    {
      i := i - 1;
      assert shape[i..][1..] == shape[i+1..] && x[i..][1..] == x[i+1..];
      f := f + x[i] * a;
      a := a * shape[i];
    }
    assert shape[0..] == shape && x[0..] == x;
  }

  /** What part of block `b` lies inside the chunk. */
  ghost predicate IsActual(C: seq<nat>, B: seq<nat>, b: Index, actual: seq<nat>) {
    && |actual| == |B| == |C| == |b|
    && forall i | 0 <= i < |B| ::
         && InChunk(B[i], b[i], actual[i]) <= C[i] && actual[i] <= B[i]
         && (actual[i] == B[i] || InChunk(B[i], b[i], actual[i]) == C[i])
  }

  lemma ActualMeansInside(C: seq<nat>, B: seq<nat>, b: Index, actual: seq<nat>, t: Index)
    requires IsActual(C, B, b, actual) && InShape(B, t)
    ensures InShape(actual, t) <==> InShape(C, Offset(B, b, t))
  {
    var x := Offset(B, b, t);
    if InShape(C, x) {
      forall i | 0 <= i < |t| ensures t[i] < actual[i] {
        assert x[i] < C[i];
      }
    }
  }

  /** The part of the block that the first `done` lines have filled. */
  ghost predicate Filled(actual: seq<nat>, t: Index, done: nat)
    requires |actual| == |t| > 0
  {
    InShape(actual, t) && Flatten(actual[..|t| - 1], t[..|t| - 1]) < done
  }

  ghost predicate LineHolds<V>(chunk: seq<V>, zero: V, C: seq<nat>, B: seq<nat>, b: Index, seg: seq<V>,
                               actual: seq<nat>, done: nat, t: Index)
    requires |B| == |C| == |b| > 0 && |chunk| == Prod(C) && InShape(B, t) && |seg| == Prod(B) && |actual| == |B|
  {
    FlattenBound(B, t);
    seg[Flatten(B, t)] == if Filled(actual, t, done) then ItemOr(chunk, zero, C, Offset(B, b, t)) else zero
  }

  ghost predicate LinesHold<V>(chunk: seq<V>, zero: V, C: seq<nat>, B: seq<nat>, b: Index, seg: seq<V>,
                               actual: seq<nat>, done: nat)
    requires |B| == |C| == |b| > 0 && |chunk| == Prod(C) && |actual| == |B|
  {
    && |seg| == Prod(B)
    && forall t | InShape(B, t) :: LineHolds(chunk, zero, C, B, b, seg, actual, done, t)
  }

  /** Which slots line `done` covers, and what it brings there. */
  lemma LineSlots(C: seq<nat>, B: seq<nat>, b: Index, actual: seq<nat>, done: nat, ii: Index, t: Index)
    requires |B| == |C| == |b| > 0 && IsActual(C, B, b, actual) && InShape(B, t)
    requires Positive(actual[..|B| - 1]) && done < Prod(actual[..|B| - 1]) && ii == Unflatten(actual[..|B| - 1], done)
    ensures var n := |B| - 1; var d := Flatten(B, ii + [0]);
            && (d <= Flatten(B, t) < d + actual[n] <==> InShape(actual, t) && Flatten(actual[..n], t[..n]) == done)
            && (InShape(actual, t) && Flatten(actual[..n], t[..n]) == done ==>
                  t[..n] == ii && Flatten(B, t) == d + t[n] &&
                  Flatten(C, Offset(B, b, t)) == Flatten(C, Offset(B, b, ii + [0])) + t[n])
  {
    var n := |B| - 1;
    var d := Flatten(B, ii + [0]);
    hide Flatten, Unflatten, Prod;
    UnflattenInShape(actual[..n], done);
    if InShape(actual, t) && Flatten(actual[..n], t[..n]) == done {
      assert InShape(actual[..n], t[..n]);
      UnflattenFlatten(actual[..n], t[..n]);
      assert t == ii + [t[n]];
      FlattenLast(B, ii, t[n]);
      OffsetLast(C, B, b, ii, t[n]);
    } else if d <= Flatten(B, t) < d + actual[n] {
      var j := Flatten(B, t) - d;
      var u := ii + [j];
      FlattenLast(B, ii, j);
      assert InShape(actual, u);
      assert InShape(B, u);
      FlattenInjective(B, t, u);
      FlattenUnflatten(actual[..n], done);
    }
  }

  lemma OffsetLast(C: seq<nat>, B: seq<nat>, b: Index, ii: Index, j: nat)
    requires |B| == |C| == |b| == |ii| + 1
    ensures Flatten(C, Offset(B, b, ii + [j])) == Flatten(C, Offset(B, b, ii + [0])) + j
  {
    hide Flatten;
    var n := |ii|;
    var x, y := Offset(B, b, ii + [j]), Offset(B, b, ii + [0]);
    assert x == x[..n] + [y[n] + j] && y == x[..n] + [y[n]];
    FlattenLast(C, x[..n], y[n] + j);
    FlattenLast(C, x[..n], y[n]);
  }

  /** memcpy of `len` items between two buffers. */
  method CopyLine<V>(dst: array<V>, d: nat, src: seq<V>, s: nat, len: nat)
    requires d + len <= dst.Length && s + len <= |src|
    modifies dst
    ensures forall k | 0 <= k < dst.Length :: dst[k] == if d <= k < d + len then src[s + (k - d)] else old(dst[k])
  {
    for j := 0 to len
      invariant forall k | 0 <= k < dst.Length :: dst[k] == if d <= k < d + j then src[s + (k - d)] else old(dst[k])
    {
      dst[d + j] := src[s + j];
    }
  }

  lemma LineFits(C: seq<nat>, B: seq<nat>, b: Index, actual: seq<nat>, ii: Index)
    requires |B| == |C| == |b| == |ii| + 1 && IsActual(C, B, b, actual) && Positive(actual)
    requires InShape(actual[..|ii|], ii)
    ensures Flatten(B, ii + [0]) + actual[|ii|] <= Prod(B)
    ensures Flatten(C, Offset(B, b, ii + [0])) + actual[|ii|] <= Prod(C)
  {
    hide Flatten, Prod;
    var j := actual[|ii|] - 1;
    var t := ii + [j];
    assert InShape(actual, t);
    assert InShape(B, t);
    ActualMeansInside(C, B, b, actual, t);
    FlattenBound(B, t);
    FlattenBound(C, Offset(B, b, t));
    FlattenLast(B, ii, j);
    OffsetLast(C, B, b, ii, j);
  }

  /** `after` is `before` with `len` items of the chunk copied to `d`. */
  ghost predicate LineCopied<V>(before: seq<V>, after: seq<V>, d: nat, chunk: seq<V>, s: nat, len: nat) {
    && |after| == |before| && d + len <= |before| && s + len <= |chunk|
    && forall k | 0 <= k < |after| :: after[k] == if d <= k < d + len then chunk[s + (k - d)] else before[k]
  }

  lemma NextLine<V>(chunk: seq<V>, zero: V, C: seq<nat>, B: seq<nat>, b: Index, before: seq<V>, after: seq<V>,
                    actual: seq<nat>, done: nat, ii: Index)
    requires |B| == |C| == |b| > 0 && |chunk| == Prod(C) && IsActual(C, B, b, actual)
    requires Positive(actual[..|B| - 1]) && done < Prod(actual[..|B| - 1]) && ii == Unflatten(actual[..|B| - 1], done)
    requires LinesHold(chunk, zero, C, B, b, before, actual, done)
    requires LineCopied(before, after, Flatten(B, ii + [0]), chunk, Flatten(C, Offset(B, b, ii + [0])), actual[|B| - 1])
    ensures LinesHold(chunk, zero, C, B, b, after, actual, done + 1)
  {
    hide Flatten, Unflatten, Prod, IsActual;
    ActualLength(C, B, b, actual);
    forall t | InShape(B, t) ensures LineHolds(chunk, zero, C, B, b, after, actual, done + 1, t) {
      assert LineHolds(chunk, zero, C, B, b, before, actual, done, t);
      LineSlots(C, B, b, actual, done, ii, t);
      ActualMeansInside(C, B, b, actual, t);
      FlattenBound(B, t);
    }
  }

  lemma NoLines<V>(chunk: seq<V>, zero: V, C: seq<nat>, B: seq<nat>, b: Index, seg: seq<V>, actual: seq<nat>)
    requires |B| == |C| == |b| > 0 && |chunk| == Prod(C) && |actual| == |B| && |seg| == Prod(B)
    requires forall k | 0 <= k < |seg| :: seg[k] == zero
    ensures LinesHold(chunk, zero, C, B, b, seg, actual, 0)
  {
    hide Flatten, Prod;
    forall t | InShape(B, t) ensures LineHolds(chunk, zero, C, B, b, seg, actual, 0, t) {
      FlattenBound(B, t);
    }
  }

  lemma AllLines<V>(chunk: seq<V>, zero: V, C: seq<nat>, B: seq<nat>, b: Index, seg: seq<V>, actual: seq<nat>)
    requires |B| == |C| == |b| > 0 && |chunk| == Prod(C) && IsActual(C, B, b, actual)
    requires LinesHold(chunk, zero, C, B, b, seg, actual, Prod(actual[..|B| - 1]))
    ensures IsRepartBlock(chunk, zero, C, B, b, seg)
  {
    hide Flatten, Prod, IsActual;
    ActualLength(C, B, b, actual);
    var n := |B| - 1;
    forall t | InShape(B, t) ensures SlotHolds(chunk, zero, C, B, b, seg, t) {
      assert LineHolds(chunk, zero, C, B, b, seg, actual, Prod(actual[..n]), t);
      ActualMeansInside(C, B, b, actual, t);
      FlattenBound(B, t);
      if InShape(actual, t) {
        assert InShape(actual[..n], t[..n]);
        FlattenBound(actual[..n], t[..n]);
      }
    }
  }

  /** Copies block `b` line by line to where it starts; that part of `rchunk` is zero before. */
  method FillBlock<V>(rchunk: array<V>, start: nat, chunk: seq<V>, ghost zero: V, C: seq<nat>, B: seq<nat>,
                      b: Index, orig: Index, actual: seq<nat>)
    requires |B| == |C| == |b| == |orig| > 0 && |chunk| == Prod(C) && IsActual(C, B, b, actual) && Positive(actual)
    requires forall i | 0 <= i < |B| :: orig[i] == InChunk(B[i], b[i], 0)
    requires start + Prod(B) <= rchunk.Length
    requires forall k | start <= k < start + Prod(B) :: rchunk[k] == zero
    modifies rchunk
    ensures IsRepartBlock(chunk, zero, C, B, b, rchunk[start..start + Prod(B)])
    ensures rchunk[..start] == old(rchunk[..start]) && rchunk[start + Prod(B)..] == old(rchunk[start + Prod(B)..])
  {
    hide Prod, Flatten, Unflatten, IsActual, LinesHold, IsRepartBlock, LineCopied;
    var n, size := |B| - 1, Prod(B);
    ActualLength(C, B, b, actual);
    var lead := actual[..n];
    var ncopies := Prod(lead);
    NoLines(chunk, zero, C, B, b, rchunk[start..start + size], actual);
    for ncopy := 0 to ncopies
      invariant LinesHold(chunk, zero, C, B, b, rchunk[start..start + size], actual, ncopy)
      invariant rchunk[..start] == old(rchunk[..start]) && rchunk[start + size..] == old(rchunk[start + size..])
    {
      ghost var before := rchunk[..];
      var index := new nat[n];
      UnidimToMultidimShape(lead, ncopy, index);
      var ii := index[..];
      UnflattenInShape(lead, ncopy);
      LineFits(C, B, b, actual, ii);
      var d := Position(B, ii + [0]);
      var from := seq(|B|, i requires 0 <= i < |B| => if i < n then orig[i] + ii[i] else orig[i]);
      assert from == Offset(B, b, ii + [0]);
      var s := Position(C, from);
      CopyLine(rchunk, start + d, chunk, s, actual[n]);
      assert LineCopied(before[start..start + size], rchunk[start..start + size], d, chunk, s, actual[n]) by {
        LineOfWhole(before, rchunk[..], start, size, d, chunk, s, actual[n]);
      }
      NextLine(chunk, zero, C, B, b, before[start..start + size], rchunk[start..start + size], actual, ncopy, ii);
    }
    AllLines(chunk, zero, C, B, b, rchunk[start..start + size], actual);
  }

  lemma ActualLength(C: seq<nat>, B: seq<nat>, b: Index, actual: seq<nat>)
    requires IsActual(C, B, b, actual)
    ensures |actual| == |B|
  {}

  lemma LineOfWhole<V>(before: seq<V>, after: seq<V>, start: nat, size: nat, d: nat, chunk: seq<V>, s: nat, len: nat)
    requires |after| == |before| && d + len <= size && start + size <= |before| && s + len <= |chunk|
    requires forall k | 0 <= k < |after| ::
               after[k] == if start + d <= k < start + d + len then chunk[s + (k - (start + d))] else before[k]
    ensures LineCopied(before[start..start + size], after[start..start + size], d, chunk, s, len)
  {}

  // ---------------------------------------------------------------------
  // The whole chunk

  lemma {:induction false} ProdOfProducts(n: seq<nat>, B: seq<nat>, e: seq<nat>)
    requires |n| == |B| == |e| && forall i | 0 <= i < |e| :: e[i] == n[i] * B[i]
    ensures Prod(e) == Prod(n) * Prod(B)
  {
    if e != [] {
      ProdOfProducts(n[1..], B[1..], e[1..]);
      var p, q := Prod(n[1..]), Prod(B[1..]);
      assert (n[0] * B[0]) * (p * q) == (n[0] * p) * (B[0] * q);
    }
  }

  /** The block lists of chunk buffers: blocks of equal size, one after the other. */
  ghost predicate IsRepart<V>(chunk: seq<V>, zero: V, C: seq<nat>, B: seq<nat>, rchunk: seq<V>)
    requires |B| == |C| && Positive(B) && Positive(C) && |chunk| == Prod(C)
  {
    && |rchunk| == Start(Prod(PieceCount(C, B)), Prod(B))
    && forall l: nat | l < Prod(PieceCount(C, B)) :: RepartAt(chunk, zero, C, B, rchunk, l)
  }

  ghost predicate RepartAt<V>(chunk: seq<V>, zero: V, C: seq<nat>, B: seq<nat>, rchunk: seq<V>, l: nat)
    requires |B| == |C| && Positive(B) && Positive(C) && |chunk| == Prod(C)
  {
    CountPositive(C, B);
    && Start(l, Prod(B)) + Prod(B) <= |rchunk|
    && IsRepartBlock(chunk, zero, C, B, Unflatten(PieceCount(C, B), l),
        rchunk[Start(l, Prod(B))..Start(l, Prod(B)) + Prod(B)])
  }

  lemma CountPositive(C: seq<nat>, B: seq<nat>)
    requires |B| == |C| && Positive(B) && Positive(C)
    ensures Positive(PieceCount(C, B))
  {}

  /** The first element of a block and what part of the block is in the chunk. */
  method BlockExtent(C: seq<nat>, B: seq<nat>, b: Index) returns (orig: Index, actual: seq<nat>)
    requires |B| == |C| && Positive(B) && Positive(C) && InShape(PieceCount(C, B), b)
    ensures |orig| == |B| && forall i | 0 <= i < |B| :: orig[i] == InChunk(B[i], b[i], 0)
    ensures IsActual(C, B, b, actual) && Positive(actual)
  {
    orig := seq(|B|, i requires 0 <= i < |B| => b[i] * B[i]);
    actual := [];
    for i := 0 to |B|
      invariant |actual| == i
      invariant forall k | 0 <= k < i ::
                  && InChunk(B[k], b[k], actual[k]) <= C[k] && 0 < actual[k] <= B[k]
                  && (actual[k] == B[k] || InChunk(B[k], b[k], actual[k]) == C[k])
    {
      CeilDivBelow(b[i], C[i], B[i]);
      actual := actual + [if orig[i] + B[i] > C[i] then C[i] - orig[i] else B[i]];
    }
  }

  /** The loop over the blocks, for any number of dimensions. */
  method RepartBlocks<V>(rchunk: array<V>, chunk: seq<V>, zero: V, C: seq<nat>, B: seq<nat>)
    requires |B| == |C| > 0 && Positive(B) && Positive(C) && |chunk| == Prod(C)
    requires rchunk.Length == Start(Prod(PieceCount(C, B)), Prod(B))
    modifies rchunk
    ensures IsRepart(chunk, zero, C, B, rchunk[..])
  {
    hide Prod, Flatten, Unflatten, IsActual, IsRepartBlock, Start;
    for k := 0 to rchunk.Length
      invariant forall m | 0 <= m < k :: rchunk[m] == zero
    {
      rchunk[k] := zero;
    }
    var counts, size := PieceCount(C, B), Prod(B);
    CountPositive(C, B);
    var nblocks := Prod(counts);
    assert Start(0, size) == 0 by { StartZero(size); }
    for sci := 0 to nblocks
      invariant Start(sci, size) <= rchunk.Length
      invariant forall l: nat | l < sci :: RepartAt(chunk, zero, C, B, rchunk[..], l)
      invariant forall m | Start(sci, size) <= m < rchunk.Length :: rchunk[m] == zero
    {
      ghost var before := rchunk[..];
      var start := sci * size;
      assert start == Start(sci, size) by { StartIs(sci, size); }
      StartNext(sci, size);
      StartMono(sci + 1, nblocks, size);
      var index := new nat[|B|];
      RunningProductIndex(counts, sci, index);
      var b := index[..];
      UnflattenInShape(counts, sci);
      var orig, actual := BlockExtent(C, B, b);
      FillBlock(rchunk, start, chunk, zero, C, B, b, orig, actual);
      forall l: nat | l < sci ensures RepartAt(chunk, zero, C, B, rchunk[..], l) {
        RepartStays(chunk, zero, C, B, before, rchunk[..], l, sci);
      }
      ZeroAfter(before, rchunk[..], start + size, zero);
    }
  }

  lemma ZeroAfter<V>(before: seq<V>, after: seq<V>, from: nat, zero: V)
    requires |before| == |after| && from <= |before| && after[from..] == before[from..]
    requires forall m | from <= m < |before| :: before[m] == zero
    ensures forall m | from <= m < |after| :: after[m] == zero
  {
    forall m | from <= m < |after| ensures after[m] == zero {
      assert after[from..][m - from] == before[from..][m - from];
    }
  }

  lemma RepartStays<V>(chunk: seq<V>, zero: V, C: seq<nat>, B: seq<nat>, before: seq<V>, after: seq<V>, l: nat,
                       sci: nat)
    requires |B| == |C| && Positive(B) && Positive(C) && |chunk| == Prod(C) && l < sci
    requires Start(sci, Prod(B)) <= |before| == |after| && before[..Start(sci, Prod(B))] == after[..Start(sci, Prod(B))]
    requires RepartAt(chunk, zero, C, B, before, l)
    ensures RepartAt(chunk, zero, C, B, after, l)
  {
    hide Start, IsRepartBlock, Prod, Unflatten, PieceCount;
    var size := Prod(B);
    StartNext(l, size);
    StartMono(l + 1, sci, size);
    var n, s := Start(sci, size), Start(l, size);
    assert before[s..s + size] == before[..n][s..s + size] == after[..n][s..s + size] == after[s..s + size];
  }

  // ---------------------------------------------------------------------
  // Right-aligning the shapes in the fixed number of dimensions

  function Pad(s: seq<nat>, n: nat): (p: seq<nat>)
    ensures |p| == n + |s|
  {
    if n == 0 then s else [1] + Pad(s, n - 1)
  }

  lemma {:induction false} PadAt(s: seq<nat>, n: nat)
    ensures forall i | 0 <= i < |Pad(s, n)| :: Pad(s, n)[i] == if i < n then 1 else s[i - n]
  {
    if n > 0 { PadAt(s, n - 1); }
  }

  /** caterva's arrays have extent one in the dimensions they do not use. */
  method RightAlign(s: seq<nat>) returns (p: seq<nat>)
    requires |s| <= MAX_DIM
    ensures p == Pad(s, MAX_DIM - |s|)
  {
    var a := new nat[MAX_DIM];
    var n := |s|;
    var lead := MAX_DIM - n;
    for i := 0 to MAX_DIM
      invariant forall m | lead <= m < MAX_DIM && m < lead + i :: a[m] == s[m - lead]
      invariant forall m | 0 <= m < lead && m < i - n :: a[m] == 1
    {
      a[(MAX_DIM - n + i) % MAX_DIM] := if i < n then s[i] else 1;
    }
    p := a[..];
    PadAt(s, lead);
  }

  lemma ProdLeadingOne(s: seq<nat>)
    ensures Prod([1] + s) == Prod(s)
  {
    assert ([1] + s)[1..] == s;
  }

  lemma UnflattenLeadingOne(s: seq<nat>, l: nat)
    requires Positive(s) && l < Prod(s)
    ensures Positive([1] + s) && Unflatten([1] + s, l) == [0] + Unflatten(s, l)
  {
    assert ([1] + s)[1..] == s;
    SmallMod(l, Prod(s));
  }

  lemma BlockLeadingOne<V>(chunk: seq<V>, zero: V, C: seq<nat>, B: seq<nat>, b: Index, seg: seq<V>)
    requires |B| == |C| == |b| && |chunk| == Prod(C) && |chunk| == Prod([1] + C)
    requires IsRepartBlock(chunk, zero, [1] + C, [1] + B, [0] + b, seg)
    ensures IsRepartBlock(chunk, zero, C, B, b, seg)
  {
    ProdLeadingOne(B);
    hide Prod, SlotHolds;
    forall t | InShape(B, t) ensures SlotHolds(chunk, zero, C, B, b, seg, t) {
      SlotLeadingOne(chunk, zero, C, B, b, seg, t);
    }
  }

  lemma SlotLeadingOne<V>(chunk: seq<V>, zero: V, C: seq<nat>, B: seq<nat>, b: Index, seg: seq<V>, t: Index)
    requires |B| == |C| == |b| && |chunk| == Prod(C) && |chunk| == Prod([1] + C) && |seg| == Prod(B) && InShape(B, t)
    requires IsRepartBlock(chunk, zero, [1] + C, [1] + B, [0] + b, seg)
    ensures SlotHolds(chunk, zero, C, B, b, seg, t)
  {
    hide Prod, Flatten, ItemOr, Offset, SlotHolds, IsRepartBlock;
    OffsetLeadingOne(B, b, t);
    ItemLeadingOne(chunk, zero, C, Offset(B, b, t));
    SameSlot(chunk, zero, C, B, b, t, [1] + C, [1] + B, [0] + b, [0] + t, seg);
  }

  /** Two layouts that put the same item at the same offset agree on it. */
  lemma SameSlot<V>(chunk: seq<V>, zero: V, C: seq<nat>, B: seq<nat>, b: Index, t: Index,
                    C': seq<nat>, B': seq<nat>, b': Index, t': Index, seg: seq<V>)
    requires |B| == |C| == |b| && |chunk| == Prod(C) && |seg| == Prod(B) && InShape(B, t)
    requires |B'| == |C'| == |b'| && |chunk| == Prod(C') && InShape(B', t')
    requires Flatten(B', t') == Flatten(B, t)
    requires ItemOr(chunk, zero, C', Offset(B', b', t')) == ItemOr(chunk, zero, C, Offset(B, b, t))
    requires IsRepartBlock(chunk, zero, C', B', b', seg)
    ensures SlotHolds(chunk, zero, C, B, b, seg, t)
  {
    hide Prod, Flatten, ItemOr, Offset, SlotHolds;
    assert SlotHolds(chunk, zero, C', B', b', seg, t');
    SlotUnfold(chunk, zero, C', B', b', seg, t');
    SlotUnfold(chunk, zero, C, B, b, seg, t);
  }

  lemma OffsetLeadingOne(B: seq<nat>, b: Index, t: Index)
    requires InShape(B, t) && |b| == |B|
    ensures InShape([1] + B, [0] + t) && Flatten([1] + B, [0] + t) == Flatten(B, t)
    ensures Offset([1] + B, [0] + b, [0] + t) == [0] + Offset(B, b, t)
  {
    hide Prod, Flatten, Offset;
    var t', B' := [0] + t, [1] + B;
    assert InShape(B', t');
    assert t'[1..] == t;
    LeadingOne(B, t');
    OffsetInFront(B, b, t);
  }

  lemma OffsetInFront(B: seq<nat>, b: Index, t: Index)
    requires |b| == |t| == |B|
    ensures Offset([1] + B, [0] + b, [0] + t) == [0] + Offset(B, b, t)
  {
    ZeroOffset();
    hide InChunk;
    var t', b', B' := [0] + t, [0] + b, [1] + B;
    var x, x' := [0] + Offset(B, b, t), Offset(B', b', t');
    forall i | 0 <= i < |x| ensures x[i] == x'[i] {
      if i > 0 { assert x[i] == InChunk(B[i-1], b[i-1], t[i-1]); }
    }
    assert x == x';
  }

  lemma ZeroOffset()
    ensures InChunk(1, 0, 0) == 0
  {}

  lemma SlotUnfold<V>(chunk: seq<V>, zero: V, C: seq<nat>, B: seq<nat>, b: Index, seg: seq<V>, t: Index)
    requires |B| == |C| == |b| && |chunk| == Prod(C) && InShape(B, t) && |seg| == Prod(B)
    ensures Flatten(B, t) < |seg|
    ensures SlotHolds(chunk, zero, C, B, b, seg, t) <==> seg[Flatten(B, t)] == ItemOr(chunk, zero, C, Offset(B, b, t))
  {
    FlattenBound(B, t);
  }

  lemma ItemLeadingOne<V>(chunk: seq<V>, zero: V, C: seq<nat>, x: Index)
    requires |chunk| == Prod(C) && |chunk| == Prod([1] + C) && |x| == |C|
    ensures ItemOr(chunk, zero, [1] + C, [0] + x) == ItemOr(chunk, zero, C, x)
  {
    hide Prod, Flatten;
    assert ([0] + x)[1..] == x;
    if InShape([1] + C, [0] + x) {
      forall i | 0 <= i < |x| ensures x[i] < C[i] { assert ([0] + x)[i + 1] < ([1] + C)[i + 1]; }
    }
    if InShape(C, x) {
      assert InShape([1] + C, [0] + x);
      LeadingOne(C, [0] + x);
    }
  }

  lemma RepartLeadingOne<V>(chunk: seq<V>, zero: V, C: seq<nat>, B: seq<nat>, rchunk: seq<V>)
    requires |B| == |C| && Positive(B) && Positive(C) && |chunk| == Prod(C) && |chunk| == Prod([1] + C)
    requires Positive([1] + B) && Positive([1] + C) && IsRepart(chunk, zero, [1] + C, [1] + B, rchunk)
    ensures IsRepart(chunk, zero, C, B, rchunk)
  {
    var counts := PieceCount(C, B);
    CountPositive(C, B);
    assert PieceCount([1] + C, [1] + B) == [1] + counts by { OneBlock(); }
    ProdLeadingOne(B);
    ProdLeadingOne(counts);
    hide Prod, IsRepartBlock, Start;
    forall l: nat | l < Prod(counts) ensures RepartAt(chunk, zero, C, B, rchunk, l) {
      assert RepartAt(chunk, zero, [1] + C, [1] + B, rchunk, l);
      UnflattenLeadingOne(counts, l);
      BlockLeadingOne(chunk, zero, C, B, Unflatten(counts, l), rchunk[Start(l, Prod(B))..Start(l, Prod(B)) + Prod(B)]);
    }
  }

  lemma OneBlock()
    ensures CeilDiv(1, 1) == 1
  {}

  lemma {:induction false} RepartPadded<V>(chunk: seq<V>, zero: V, C: seq<nat>, B: seq<nat>, n: nat, rchunk: seq<V>)
    requires |B| == |C| && Positive(B) && Positive(C) && |chunk| == Prod(C) && |chunk| == Prod(Pad(C, n))
    requires Positive(Pad(B, n)) && Positive(Pad(C, n)) && IsRepart(chunk, zero, Pad(C, n), Pad(B, n), rchunk)
    ensures IsRepart(chunk, zero, C, B, rchunk)
  {
    if n > 0 {
      var C', B' := Pad(C, n - 1), Pad(B, n - 1);
      ProdLeadingOne(C');
      assert Positive(C') by { forall i | 0 <= i < |C'| ensures C'[i] > 0 { assert C'[i] == Pad(C, n)[i + 1]; } }
      assert Positive(B') by { forall i | 0 <= i < |B'| ensures B'[i] > 0 { assert B'[i] == Pad(B, n)[i + 1]; } }
      hide IsRepart, Prod;
      RepartLeadingOne(chunk, zero, C', B', rchunk);
      RepartPadded(chunk, zero, C, B, n - 1, rchunk);
    }
  }

  lemma {:induction false} ProdPad(s: seq<nat>, n: nat)
    ensures Prod(Pad(s, n)) == Prod(s)
  {
    if n > 0 { ProdPad(s, n - 1); ProdLeadingOne(Pad(s, n - 1)); }
  }

  lemma {:induction false} CountPad(C: seq<nat>, B: seq<nat>, n: nat)
    requires |B| == |C| && Positive(B) && Positive(Pad(B, n))
    ensures PieceCount(Pad(C, n), Pad(B, n)) == Pad(PieceCount(C, B), n)
  {
    PadAt(C, n);
    PadAt(B, n);
    PadAt(PieceCount(C, B), n);
    OneBlock();
  }

  /** caterva_blosc_array_repart_chunk: false, with nothing written, when a
      buffer does not have the size its shape asks for. */
  method RepartChunk<V>(rchunk: array<V>, chunk: seq<V>, zero: V, g: Geometry) returns (ok: bool)
    requires g.Valid() && g.Ndim() <= MAX_DIM
    modifies rchunk
    ensures ok <==> rchunk.Length == Prod(g.ExtChunkshape()) && |chunk| == Prod(g.chunkshape)
    ensures ok ==> IsRepart(chunk, zero, g.chunkshape, g.blockshape, rchunk[..])
    ensures !ok ==> rchunk[..] == old(rchunk[..])
  {
    hide Prod, IsRepart, Start, Pad;
    if rchunk.Length != Prod(g.ExtChunkshape()) {
      return false;
    }
    if |chunk| != Prod(g.chunkshape) {
      return false;
    }
    var n := MAX_DIM - g.Ndim();
    var C := RightAlign(g.chunkshape);
    var B := RightAlign(g.blockshape);
    PadAt(g.chunkshape, n);
    PadAt(g.blockshape, n);
    ProdPad(g.chunkshape, n);
    CountPad(g.chunkshape, g.blockshape, n);
    ProdPad(PieceCount(g.chunkshape, g.blockshape), n);
    ProdPad(g.blockshape, n);
    ProdOfProducts(PieceCount(g.chunkshape, g.blockshape), g.blockshape, g.ExtChunkshape());
    StartIs(Prod(PieceCount(g.chunkshape, g.blockshape)), Prod(g.blockshape));
    assert Positive(C) && Positive(B);
    RepartBlocks(rchunk, chunk, zero, C, B);
    RepartPadded(chunk, zero, g.chunkshape, g.blockshape, n, rchunk[..]);
    ok := true;
  }

  // ---------------------------------------------------------------------
  // What the layout means for single coordinates

  /** Where coordinate `x` of the chunk goes. */
  function SlotOf(C: seq<nat>, B: seq<nat>, x: Index): nat
    requires |x| == |B| == |C| && Positive(B)
  {
    Start(Flatten(PieceCount(C, B), Quotients(x, B)), Prod(B)) + Flatten(B, Remainders(x, B))
  }

  lemma OffsetParts(C: seq<nat>, B: seq<nat>, x: Index)
    requires InShape(C, x) && |B| == |C| && Positive(B)
    ensures InShape(PieceCount(C, B), Quotients(x, B)) && InShape(B, Remainders(x, B))
    ensures Offset(B, Quotients(x, B), Remainders(x, B)) == x
  {
    forall i | 0 <= i < |x|
      ensures Quotients(x, B)[i] < PieceCount(C, B)[i] && InChunk(B[i], Quotients(x, B)[i], Remainders(x, B)[i]) == x[i]
    {
      CeilDivAbove(x[i], C[i], B[i]);
      DivModParts(x[i], B[i]);
    }
  }

  lemma PartsOfOffset(B: seq<nat>, b: Index, t: Index)
    requires |b| == |B| && InShape(B, t) && Positive(B)
    ensures Quotients(Offset(B, b, t), B) == b && Remainders(Offset(B, b, t), B) == t
  {
    var x := Offset(B, b, t);
    forall i | 0 <= i < |B| ensures Quotients(x, B)[i] == b[i] && Remainders(x, B)[i] == t[i] {
      QuotientUnique(x[i], B[i], b[i], t[i]);
    }
  }

  /** Every coordinate of the chunk sits at its slot with its original value. */
  lemma RepartExact<V>(chunk: seq<V>, zero: V, C: seq<nat>, B: seq<nat>, rchunk: seq<V>, x: Index)
    requires |B| == |C| && Positive(B) && Positive(C) && |chunk| == Prod(C) && IsRepart(chunk, zero, C, B, rchunk)
    requires InShape(C, x)
    ensures SlotOf(C, B, x) < |rchunk| && Flatten(C, x) < |chunk| && rchunk[SlotOf(C, B, x)] == chunk[Flatten(C, x)]
  {
    hide Prod, Flatten, Unflatten, Start;
    var counts, b, t := PieceCount(C, B), Quotients(x, B), Remainders(x, B);
    OffsetParts(C, B, x);
    UnflattenFlatten(counts, b);
    var l := Flatten(counts, b);
    assert RepartAt(chunk, zero, C, B, rchunk, l);
    var seg := rchunk[Start(l, Prod(B))..Start(l, Prod(B)) + Prod(B)];
    assert SlotHolds(chunk, zero, C, B, b, seg, t);
    FlattenBound(B, t);
    FlattenBound(C, x);
  }

  /** Distinct coordinates never share a slot. */
  lemma SlotsNeverCollide(C: seq<nat>, B: seq<nat>, x: Index, y: Index)
    requires |B| == |C| && Positive(B) && InShape(C, x) && InShape(C, y) && SlotOf(C, B, x) == SlotOf(C, B, y)
    ensures x == y
  {
    hide Prod, Flatten, Start;
    OffsetParts(C, B, x);
    OffsetParts(C, B, y);
    FlattenBound(B, Remainders(x, B));
    FlattenBound(B, Remainders(y, B));
    var k, l := Flatten(PieceCount(C, B), Quotients(x, B)), Flatten(PieceCount(C, B), Quotients(y, B));
    StartNext(k, Prod(B));
    StartNext(l, Prod(B));
    if k < l { StartMono(k + 1, l, Prod(B)); }
    if l < k { StartMono(l + 1, k, Prod(B)); }
    FlattenInjective(PieceCount(C, B), Quotients(x, B), Quotients(y, B));
    FlattenInjective(B, Remainders(x, B), Remainders(y, B));
  }

  /** A slot that is no coordinate's holds zero. */
  lemma OtherSlotsZero<V>(chunk: seq<V>, zero: V, C: seq<nat>, B: seq<nat>, rchunk: seq<V>, k: nat)
    requires |B| == |C| && Positive(B) && Positive(C) && |chunk| == Prod(C) && IsRepart(chunk, zero, C, B, rchunk)
    requires k < |rchunk| && forall x | InShape(C, x) :: SlotOf(C, B, x) != k
    ensures rchunk[k] == zero
  {
    hide Prod, Start, SlotOf, RepartAt;
    var size := Prod(B);
    ProdPositive(B);
    var l, u := k / size, k % size;
    StartIs(l, size);
    StartIs(Prod(PieceCount(C, B)), size);
    DivBound(k, Prod(PieceCount(C, B)), size);
    DivModParts(k, size);
    assert RepartAt(chunk, zero, C, B, rchunk, l);
    SlotFromParts(chunk, zero, C, B, rchunk, l, u);
  }

  lemma SlotFromParts<V>(chunk: seq<V>, zero: V, C: seq<nat>, B: seq<nat>, rchunk: seq<V>, l: nat, u: nat)
    requires |B| == |C| && Positive(B) && Positive(C) && |chunk| == Prod(C)
    requires l < Prod(PieceCount(C, B)) && u < Prod(B) && RepartAt(chunk, zero, C, B, rchunk, l)
    requires forall x | InShape(C, x) :: SlotOf(C, B, x) != Start(l, Prod(B)) + u
    ensures rchunk[Start(l, Prod(B)) + u] == zero
  {
    hide Prod, Flatten, Unflatten, Start, PieceCount, RepartAt;
    var counts, size := PieceCount(C, B), Prod(B);
    CountPositive(C, B);
    var b, t := Unflatten(counts, l), Unflatten(B, u);
    FlattenUnflatten(counts, l);
    FlattenUnflatten(B, u);
    SlotOfOffset(C, B, b, t);
    SegmentItem(chunk, zero, C, B, rchunk, l, t);
  }

  lemma SlotOfOffset(C: seq<nat>, B: seq<nat>, b: Index, t: Index)
    requires |C| == |B| && |b| == |B| && InShape(B, t) && Positive(B)
    ensures SlotOf(C, B, Offset(B, b, t)) == Start(Flatten(PieceCount(C, B), b), Prod(B)) + Flatten(B, t)
  {
    PartsOfOffset(B, b, t);
  }

  lemma SegmentItem<V>(chunk: seq<V>, zero: V, C: seq<nat>, B: seq<nat>, rchunk: seq<V>, l: nat, t: Index)
    requires |B| == |C| && Positive(B) && Positive(C) && |chunk| == Prod(C) && InShape(B, t)
    requires RepartAt(chunk, zero, C, B, rchunk, l)
    ensures Positive(PieceCount(C, B)) && Flatten(B, t) < Prod(B) && Start(l, Prod(B)) + Prod(B) <= |rchunk|
    ensures rchunk[Start(l, Prod(B)) + Flatten(B, t)] ==
            ItemOr(chunk, zero, C, Offset(B, Unflatten(PieceCount(C, B), l), t))
  {
    hide Prod, Flatten, Unflatten, Start, ItemOr;
    var b, seg := Unflatten(PieceCount(C, B), l), rchunk[Start(l, Prod(B))..Start(l, Prod(B)) + Prod(B)];
    FlattenBound(B, t);
    assert SlotHolds(chunk, zero, C, B, b, seg, t);
  }

  /** So nothing of the chunk is lost: its repartition determines it. */
  lemma Recoverable<V>(chunk: seq<V>, chunk': seq<V>, zero: V, C: seq<nat>, B: seq<nat>, rchunk: seq<V>)
    requires |B| == |C| && Positive(B) && Positive(C) && |chunk| == |chunk'| == Prod(C)
    requires IsRepart(chunk, zero, C, B, rchunk) && IsRepart(chunk', zero, C, B, rchunk)
    ensures chunk == chunk'
  {
    hide Prod, IsRepart;
    forall n | 0 <= n < |chunk| ensures chunk[n] == chunk'[n] {
      FlattenUnflatten(C, n);
      RepartExact(chunk, zero, C, B, rchunk, Unflatten(C, n));
      RepartExact(chunk', zero, C, B, rchunk, Unflatten(C, n));
    }
  }
}
