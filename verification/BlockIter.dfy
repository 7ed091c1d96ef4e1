/** The block-wise iterators (src/iarray_iterator.c): reading an array window by
    window, and writing one with the flush of a block put off until the next
    block, or the end, is asked for. */
module BlockIter {
  import opened Lists
  import opened Arith
  import opened Layout
  import opened Geometry

  // ---------------------------------------------------------------------
  // Windows: the part of the array a block of the iteration covers

  function ClipLen(S: nat, B: nat, c: nat): nat {
    if InChunk(B, c, B) <= S then B else if InChunk(B, c, 0) <= S then S - InChunk(B, c, 0) else 0
  }

  function WindowStart(B: seq<nat>, c: Index): (s: Index)
    requires |B| == |c|
    ensures |s| == |B| && forall i | 0 <= i < |s| :: s[i] == InChunk(B[i], c[i], 0)
  {
    seq(|B|, i requires 0 <= i < |B| => InChunk(B[i], c[i], 0))
  }

  function WindowShape(S: seq<nat>, B: seq<nat>, c: Index): (w: seq<nat>)
    requires |S| == |B| == |c|
    ensures |w| == |S| && forall i | 0 <= i < |w| :: w[i] == ClipLen(S[i], B[i], c[i])
  {
    seq(|S|, i requires 0 <= i < |S| => ClipLen(S[i], B[i], c[i]))
  }

  function Plus(a: Index, b: Index): (x: Index)
    requires |a| == |b|
    ensures |x| == |a| && forall i | 0 <= i < |x| :: x[i] == a[i] + b[i]
  {
    seq(|a|, i requires 0 <= i < |a| => a[i] + b[i])
  }

  lemma ClipLenFacts(S: nat, B: nat, c: nat)
    requires B > 0 && c < CeilDiv(S, B)
    ensures 0 < ClipLen(S, B, c) <= B && InChunk(B, c, ClipLen(S, B, c)) <= S
  {
    CeilDivBelow(c, S, B);
  }

  /** The windows tile the array: a coordinate lies in exactly the window of its
      quotients, at the place of its remainders. */
  lemma InWindow(S: seq<nat>, B: seq<nat>, x: Index)
    requires |S| == |B| && Positive(B) && InShape(S, x)
    ensures var c, y := Quotients(x, B), Remainders(x, B);
            && InShape(PieceCount(S, B), c) && InShape(WindowShape(S, B, c), y)
            && Plus(WindowStart(B, c), y) == x
  {
    var c, y := Quotients(x, B), Remainders(x, B);
    forall i | 0 <= i < |x|
      ensures c[i] < CeilDiv(S[i], B[i]) && y[i] < ClipLen(S[i], B[i], c[i]) && InChunk(B[i], c[i], 0) + y[i] == x[i]
    {
      CeilDivAbove(x[i], S[i], B[i]);
      DivModParts(x[i], B[i]);
    }
  }

  lemma WindowInside(S: seq<nat>, B: seq<nat>, c: Index, y: Index)
    requires |S| == |B| == |c| && Positive(B) && InShape(PieceCount(S, B), c) && InShape(WindowShape(S, B, c), y)
    ensures var x := Plus(WindowStart(B, c), y);
            InShape(S, x) && Quotients(x, B) == c && Remainders(x, B) == y && InShape(B, y)
  {
    var x := Plus(WindowStart(B, c), y);
    forall i | 0 <= i < |x|
      ensures x[i] < S[i] && y[i] < B[i] && Quotients(x, B)[i] == c[i] && Remainders(x, B)[i] == y[i]
    {
      ClipLenFacts(S[i], B[i], c[i]);
      QuotientUnique(x[i], B[i], c[i], y[i]);
    }
  }

  lemma WindowShapePositive(S: seq<nat>, B: seq<nat>, c: Index)
    requires |S| == |B| == |c| && Positive(B) && InShape(PieceCount(S, B), c)
    ensures Positive(WindowShape(S, B, c)) && Positive(PieceCount(S, B))
    ensures forall i | 0 <= i < |S| :: WindowShape(S, B, c)[i] <= B[i]
  {
    forall i | 0 <= i < |S| ensures 0 < WindowShape(S, B, c)[i] <= B[i] {
      ClipLenFacts(S[i], B[i], c[i]);
    }
  }

  // ---------------------------------------------------------------------
  // Window sizes add up to the size of the array

  /** Items in the first `n` windows. */
  function SizeSum(S: seq<nat>, B: seq<nat>, n: nat): nat
    requires |S| == |B| && Positive(B) && Positive(PieceCount(S, B))
  {
    if n == 0 then 0 else SizeSum(S, B, n - 1) + Prod(WindowShape(S, B, Unflatten(PieceCount(S, B), n - 1)))
  }

  function LenSum(S: nat, B: nat, n: nat): nat {
    if n == 0 then 0 else LenSum(S, B, n - 1) + ClipLen(S, B, n - 1)
  }

  lemma {:induction false} LenSumIs(S: nat, B: nat, n: nat)
    requires B > 0 && n <= CeilDiv(S, B)
    ensures LenSum(S, B, n) == if n * B <= S then n * B else S
    ensures n == CeilDiv(S, B) ==> LenSum(S, B, n) == S
  {
    if n > 0 {
      LenSumIs(S, B, n - 1);
      CeilDivBelow(n - 1, S, B);
      assert n * B == (n - 1) * B + B;
    }
  }

  /** One more row of windows, `r` windows into it. */
  lemma {:induction false} SizeSumRow(S: seq<nat>, B: seq<nat>, c: nat, r: nat)
    requires |S| == |B| > 0 && Positive(B) && Positive(PieceCount(S, B)) && Positive(PieceCount(S[1..], B[1..]))
    requires c < CeilDiv(S[0], B[0]) && r <= Prod(PieceCount(S[1..], B[1..]))
    ensures SizeSum(S, B, Start(c, Prod(PieceCount(S[1..], B[1..]))) + r) ==
            SizeSum(S, B, Start(c, Prod(PieceCount(S[1..], B[1..])))) +
                ClipLen(S[0], B[0], c) * SizeSum(S[1..], B[1..], r)
    decreases r
  {
    hide Start, Unflatten, ClipLen, PieceCount, Prod;
    if r > 0 {
      SizeSumRow(S, B, c, r - 1);
      var rest := PieceCount(S[1..], B[1..]);
      RowIndex(S, B, c, r - 1);
      WindowRow(S, B, c, Unflatten(rest, r - 1));
      Distribute(ClipLen(S[0], B[0], c), SizeSum(S[1..], B[1..], r - 1),
          Prod(WindowShape(S[1..], B[1..], Unflatten(rest, r - 1))));
      assert Start(c, Prod(rest)) + r - 1 == Start(c, Prod(rest)) + (r - 1);
    }
  }

  lemma RowIndex(S: seq<nat>, B: seq<nat>, c: nat, r: nat)
    requires |S| == |B| > 0 && Positive(B) && Positive(PieceCount(S, B)) && Positive(PieceCount(S[1..], B[1..]))
    requires r < Prod(PieceCount(S[1..], B[1..]))
    ensures var rest := PieceCount(S[1..], B[1..]);
            Unflatten(PieceCount(S, B), Start(c, Prod(rest)) + r) == [c] + Unflatten(rest, r)
  {
    var n, rest := PieceCount(S, B), PieceCount(S[1..], B[1..]);
    assert n[1..] == rest;
    StartIs(c, Prod(rest));
    QuotientUnique(Start(c, Prod(rest)) + r, Prod(rest), c, r);
  }

  lemma Distribute(a: nat, b: nat, c: nat)
    ensures a * (b + c) == a * b + a * c
  {}

  lemma WindowRow(S: seq<nat>, B: seq<nat>, c: nat, d: Index)
    requires |S| == |B| == |d| + 1
    ensures Prod(WindowShape(S, B, [c] + d)) == ClipLen(S[0], B[0], c) * Prod(WindowShape(S[1..], B[1..], d))
  {
    hide ClipLen;
    var w := WindowShape(S, B, [c] + d);
    assert w[1..] == WindowShape(S[1..], B[1..], d);
  }

  lemma {:induction false} SizeSumRows(S: seq<nat>, B: seq<nat>, c: nat)
    requires |S| == |B| > 0 && Positive(B) && Positive(PieceCount(S, B)) && Positive(PieceCount(S[1..], B[1..]))
    requires c <= CeilDiv(S[0], B[0])
    requires SizeSum(S[1..], B[1..], Prod(PieceCount(S[1..], B[1..]))) == Prod(S[1..])
    ensures SizeSum(S, B, Start(c, Prod(PieceCount(S[1..], B[1..])))) == LenSum(S[0], B[0], c) * Prod(S[1..])
    decreases c
  {
    hide Start, Unflatten, ClipLen, PieceCount, Prod, SizeSum;
    var p := Prod(PieceCount(S[1..], B[1..]));
    StartZero(p);
    SizeSumZero(S, B);
    if c > 0 {
      SizeSumRows(S, B, c - 1);
      SizeSumRow(S, B, c - 1, p);
      StartNext(c - 1, p);
      Distribute(Prod(S[1..]), LenSum(S[0], B[0], c - 1), ClipLen(S[0], B[0], c - 1));
    }
  }

  lemma SizeSumZero(S: seq<nat>, B: seq<nat>)
    requires |S| == |B| && Positive(B) && Positive(PieceCount(S, B))
    ensures SizeSum(S, B, 0) == 0
  {}

  /** All windows together have as many items as the array. */
  lemma {:induction false} SizesAddUp(S: seq<nat>, B: seq<nat>)
    requires |S| == |B| && Positive(B) && Positive(PieceCount(S, B))
    ensures SizeSum(S, B, Prod(PieceCount(S, B))) == Prod(S)
  {
    if S == [] {
      assert SizeSum(S, B, 1) == SizeSum(S, B, 0) + Prod(WindowShape(S, B, Unflatten(PieceCount(S, B), 0)));
    } else {
      var n, rest := PieceCount(S, B), PieceCount(S[1..], B[1..]);
      assert n[1..] == rest;
      assert Positive(rest) by { forall i | 0 <= i < |rest| ensures rest[i] > 0 { assert rest[i] == n[i + 1]; } }
      SizesAddUp(S[1..], B[1..]);
      SizeSumRows(S, B, n[0]);
      LenSumIs(S[0], B[0], n[0]);
      StartIs(n[0], Prod(rest));
    }
  }

  // ---------------------------------------------------------------------
  // The two ways the source computes a window

  lemma ReadClip(S: nat, B: nat, c: nat)
    requires B > 0 && c < CeilDiv(S, B)
    ensures InChunk(B, c, 0) == c * B < S
    ensures ClipLen(S, B, c) == if c * B + B <= S then B else S - c * B
  {
    CeilDivBelow(c, S, B);
  }

  /** iarray_iter_read_block_next: index by running product, stop clipped to the shape. */
  method ReadWindow(S: seq<nat>, B: seq<nat>, nblock: nat) returns (start: Index, w: seq<nat>)
    requires |S| == |B| && Positive(B) && nblock < Prod(PieceCount(S, B))
    ensures Positive(PieceCount(S, B)) && InShape(PieceCount(S, B), Unflatten(PieceCount(S, B), nblock))
    ensures start == WindowStart(B, Unflatten(PieceCount(S, B), nblock))
    ensures w == WindowShape(S, B, Unflatten(PieceCount(S, B), nblock))
  {
    hide Prod, Unflatten, ClipLen, InChunk;
    var aux := PieceCount(S, B);
    ProdPositiveIf(aux, nblock);
    var index := new nat[|S|];
    RunningProductIndex(aux, nblock, index);
    UnflattenInShape(aux, nblock);
    var c := index[..];
    start, w := [], [];
    for i := 0 to |S|
      invariant |start| == |w| == i
      invariant forall k | 0 <= k < i :: start[k] == InChunk(B[k], c[k], 0) && w[k] == ClipLen(S[k], B[k], c[k])
    {
      ReadClip(S[i], B[i], c[i]);
      var first := c[i] * B[i];
      var stop := if first + B[i] <= S[i] then first + B[i] else S[i];
      start, w := start + [first], w + [stop - first];
    }
  }

  /** The edge formula of the write iterator is the clipped length. */
  lemma EdgeFormula(S: nat, B: nat, c: nat)
    requires B > 0 && c < CeilDiv(S, B)
    ensures (c + 1) * B > S ==> S + B >= RoundUp(S, B) && S + B - RoundUp(S, B) == ClipLen(S, B, c)
    ensures (c + 1) * B <= S ==> B == ClipLen(S, B, c)
  {
    assert (c + 1) * B == c * B + B;
    if (c + 1) * B > S {
      var q := CeilDiv(S, B);
      CeilDivBelow(c + 1, S, B);
      assert q == c + 1;
      assert RoundUp(S, B) == q * B by { DivModParts(RoundUp(S, B), B); }
      CeilDivBelow(c, S, B);
    }
  }

  /** iarray_iter_write_block_next: index by running product, shape by the edge formula. */
  method WriteWindow(S: seq<nat>, B: seq<nat>, eshape: seq<nat>, nblock: nat) returns (index: Index, w: seq<nat>)
    requires |S| == |B| == |eshape| && Positive(B) && nblock < Prod(PieceCount(S, B))
    requires forall i | 0 <= i < |S| :: eshape[i] == RoundUp(S[i], B[i])
    ensures Positive(PieceCount(S, B)) && InShape(PieceCount(S, B), Unflatten(PieceCount(S, B), nblock))
    ensures index == Unflatten(PieceCount(S, B), nblock)
    ensures w == WindowShape(S, B, index)
  {
    hide Prod, Unflatten;
    var aux := seq(|S|, i requires 0 <= i < |S| => eshape[i] / B[i]);
    assert aux == PieceCount(S, B);
    ProdPositiveIf(aux, nblock);
    var a := new nat[|S|];
    RunningProductIndex(aux, nblock, a);
    UnflattenInShape(aux, nblock);
    index, w := a[..], [];
    for i := 0 to |S|
      invariant |w| == i && forall k | 0 <= k < i :: w[k] == ClipLen(S[k], B[k], index[k])
    {
      EdgeFormula(S[i], B[i], index[i]);
      w := w + [if (index[i] + 1) * B[i] > S[i] then S[i] + B[i] - eshape[i] else B[i]];
    }
  }

  // ---------------------------------------------------------------------
  // Slices

  /** What a buffer of shape `w` holds of the window at `start`. */
  ghost predicate HoldsSlice<V>(buf: seq<V>, layout: seq<nat>, start: Index, w: seq<nat>, val: Index -> V)
    requires |layout| == |start| == |w|
  {
    forall y | InShape(w, y) :: Flatten(layout, y) < |buf| && buf[Flatten(layout, y)] == val(Plus(start, y))
  }

  /** iarray_get_slice_buffer into a buffer laid out as `layout`: the slice's own
      shape, or the whole block's when padding is asked for. */
  method GetSlice<V>(val: Index -> V, start: Index, w: seq<nat>, layout: seq<nat>, buf: array<V>)
    requires |layout| == |start| == |w| && Positive(w) && (forall i | 0 <= i < |w| :: w[i] <= layout[i])
    requires buf.Length >= Prod(layout)
    modifies buf
    ensures HoldsSlice(buf[..], layout, start, w, val)
  {
    hide Prod, Flatten, Unflatten;
    var n := Prod(w);
    for k := 0 to n
      invariant forall y | InShape(w, y) && Flatten(w, y) < k ::
                  Flatten(layout, y) < buf.Length && buf[Flatten(layout, y)] == val(Plus(start, y))
    {
      var index := new nat[|w|];
      UnidimToMultidimShape(w, k, index);
      var y := index[..];
      FlattenUnflatten(w, k);
      assert InShape(layout, y);
      FlattenBound(layout, y);
      ghost var before := buf[..];
      var strides := new nat[|w|];
      ComputeStrides(layout, strides);
      var at := MultidimToUnidim(strides[..], y);
      assert at == Flatten(layout, y);
      buf[at] := val(Plus(start, y));
      forall z | InShape(w, z) && Flatten(w, z) < k + 1
        ensures Flatten(layout, z) < buf.Length && buf[Flatten(layout, z)] == val(Plus(start, z))
      {
        if Flatten(w, z) == k { FlattenInjective(w, y, z); }
        assert InShape(layout, z);
        FlattenBound(layout, z);
        if Flatten(layout, z) == at { FlattenInjective(layout, y, z); }
      }
    }
    forall y | InShape(w, y) ensures Flatten(w, y) < n { FlattenBound(w, y); }
  }

  /** Window `c` of the plain array `data` holds what `buf` holds. */
  ghost predicate Written<V>(data: seq<V>, S: seq<nat>, B: seq<nat>, c: Index, buf: seq<V>)
    requires |S| == |B| == |c|
  {
    forall y | InShape(WindowShape(S, B, c), y) :: ItemWritten(data, S, B, c, buf, y)
  }

  ghost predicate ItemWritten<V>(data: seq<V>, S: seq<nat>, B: seq<nat>, c: Index, buf: seq<V>, y: Index)
    requires |S| == |B| == |c| == |y|
  {
    && Flatten(S, Plus(WindowStart(B, c), y)) < |data| && Flatten(WindowShape(S, B, c), y) < |buf|
    && data[Flatten(S, Plus(WindowStart(B, c), y))] == buf[Flatten(WindowShape(S, B, c), y)]
  }

  /** Nothing outside window `c` has changed. */
  ghost predicate OnlyWindow<V>(before: seq<V>, after: seq<V>, S: seq<nat>, B: seq<nat>, c: Index)
    requires |S| == |B| == |c| && Positive(B)
  {
    && |before| == |after| == Prod(S)
    && forall x | InShape(S, x) && Quotients(x, B) != c :: SameItem(before, after, S, x)
  }

  ghost predicate SameItem<V>(before: seq<V>, after: seq<V>, S: seq<nat>, x: Index)
    requires |x| == |S|
  {
    Flatten(S, x) < |before| && Flatten(S, x) < |after| && before[Flatten(S, x)] == after[Flatten(S, x)]
  }

  /** caterva_set_slice_buffer: the buffer goes to window `c` of the array. */
  method SetSlice<V>(data: array<V>, S: seq<nat>, ghost B: seq<nat>, ghost c: Index, start: Index, w: seq<nat>,
                     buf: array<V>)
    requires |S| == |B| == |c| && Positive(B) && InShape(PieceCount(S, B), c)
    requires start == WindowStart(B, c) && w == WindowShape(S, B, c)
    requires data.Length == Prod(S) && buf.Length >= Prod(w) && data != buf
    modifies data
    ensures Written(data[..], S, B, c, buf[..]) && OnlyWindow(old(data[..]), data[..], S, B, c)
  {
    hide Prod, Flatten, Unflatten;
    ghost var o := data[..];
    WindowShapePositive(S, B, c);
    forall x | InShape(S, x) ensures SameItem(o, data[..], S, x) { FlattenBound(S, x); }
    var n := Prod(w);
    for k := 0 to n
      invariant forall y | InShape(w, y) && Flatten(w, y) < k :: ItemWritten(data[..], S, B, c, buf[..], y)
      invariant forall x | InShape(S, x) && Quotients(x, B) != c :: SameItem(o, data[..], S, x)
    {
      var index := new nat[|w|];
      UnidimToMultidimShape(w, k, index);
      var y := index[..];
      FlattenUnflatten(w, k);
      WindowInside(S, B, c, y);
      var strides := new nat[|w|];
      ComputeStrides(S, strides);
      var x := Plus(start, y);
      var at := MultidimToUnidim(strides[..], x);
      assert at == Flatten(S, x);
      FlattenBound(S, x);
      ghost var before := data[..];
      data[at] := buf[k];
      OneItem(before, data[..], S, B, c, buf[..], o, x, y, k);
    }
    forall y | InShape(w, y) ensures Flatten(w, y) < n { FlattenBound(w, y); }
  }

  lemma OneItem<V>(before: seq<V>, after: seq<V>, S: seq<nat>, B: seq<nat>, c: Index, buf: seq<V>, o: seq<V>,
                   x: Index, y: Index, k: nat)
    requires |S| == |B| == |c| && Positive(B) && InShape(PieceCount(S, B), c)
    requires InShape(WindowShape(S, B, c), y) && x == Plus(WindowStart(B, c), y)
    requires Flatten(WindowShape(S, B, c), y) == k < |buf|
    requires |before| == |o| == Prod(S) && InShape(S, x) && Flatten(S, x) < |before|
    requires after == before[Flatten(S, x) := buf[k]]
    requires forall z | InShape(WindowShape(S, B, c), z) && Flatten(WindowShape(S, B, c), z) < k ::
               ItemWritten(before, S, B, c, buf, z)
    requires forall x | InShape(S, x) && Quotients(x, B) != c :: SameItem(o, before, S, x)
    ensures forall z | InShape(WindowShape(S, B, c), z) && Flatten(WindowShape(S, B, c), z) < k + 1 ::
              ItemWritten(after, S, B, c, buf, z)
    ensures forall x | InShape(S, x) && Quotients(x, B) != c :: SameItem(o, after, S, x)
  {
    hide Prod, Flatten, Unflatten;
    var w := WindowShape(S, B, c);
    WindowInside(S, B, c, y);
    forall z | InShape(w, z) && Flatten(w, z) < k + 1 ensures ItemWritten(after, S, B, c, buf, z) {
      WindowInside(S, B, c, z);
      var xz := Plus(WindowStart(B, c), z);
      if Flatten(w, z) == k {
        FlattenInjective(w, y, z);
      } else {
        assert ItemWritten(before, S, B, c, buf, z);
        if Flatten(S, xz) == Flatten(S, x) { FlattenInjective(S, xz, x); }
      }
    }
    forall z | InShape(S, z) && Quotients(z, B) != c ensures SameItem(o, after, S, z) {
      assert SameItem(o, before, S, z);
      if Flatten(S, z) == Flatten(S, x) { FlattenInjective(S, z, x); }
    }
  }

  // ---------------------------------------------------------------------
  // The read iterator

  class ReadIterator<V(0)> {
    const val: Index -> V        // what a slice of the container reads
    const shape: seq<nat>
    const blockShape: seq<nat>
    const padding: bool
    const totalBlocks: nat
    const block: array<V>
    var nblock: nat
    var curShape: seq<nat>
    var curStart: Index

    ghost predicate Valid()
      reads this
    {
      && |shape| == |blockShape| && Positive(blockShape)
      && totalBlocks == Prod(PieceCount(shape, blockShape))
      && nblock <= totalBlocks && block.Length == Prod(blockShape)
    }

    /** The buffer shows window `n`. */
    ghost predicate Shows(n: nat)
      requires Valid() && n < totalBlocks
      reads this, block
    {
      ProdPositiveIf(PieceCount(shape, blockShape), n);
      var c := Unflatten(PieceCount(shape, blockShape), n);
      && curStart == WindowStart(blockShape, c) && curShape == WindowShape(shape, blockShape, c)
      && HoldsSlice(block[..], if padding then blockShape else curShape, curStart, curShape, val)
    }

    constructor (val: Index -> V, shape: seq<nat>, blockShape: seq<nat>, padding: bool)
      requires |shape| == |blockShape| && Positive(blockShape)
      ensures Valid() && fresh(block) && nblock == 0
      ensures this.val == val && this.shape == shape && this.blockShape == blockShape && this.padding == padding
    {
      this.val, this.shape, this.blockShape, this.padding := val, shape, blockShape, padding;
      totalBlocks := Prod(PieceCount(shape, blockShape));
      nblock, curShape, curStart := 0, [], [];
      block := new V[Prod(blockShape)];
    }

    /** iarray_iter_read_block_has_next */
    method HasNext() returns (more: bool)
      requires Valid()
      ensures more <==> nblock < totalBlocks
    {
      more := nblock < totalBlocks;
    }

    /** iarray_iter_read_block_next */
    method Next()
      requires Valid() && nblock < totalBlocks
      modifies this`nblock, this`curShape, this`curStart, block
      ensures Valid() && nblock == old(nblock) + 1 && Shows(old(nblock))
    {
      hide Prod, Unflatten, HoldsSlice;
      curStart, curShape := ReadWindow(shape, blockShape, nblock);
      ghost var c := Unflatten(PieceCount(shape, blockShape), nblock);
      WindowShapePositive(shape, blockShape, c);
      ProdMono(curShape, blockShape);
      GetSlice(val, curStart, curShape, if padding then blockShape else curShape, block);
      nblock := nblock + 1;
    }
  }

  // ---------------------------------------------------------------------
  // The write iterator

  /** Where a block starts: its index times the chunk shape. */
  method IndexStart(index: Index, B: seq<nat>) returns (start: Index)
    requires |index| == |B|
    ensures start == WindowStart(B, index)
  {
    start := [];
    for i := 0 to |B|
      invariant |start| == i && forall k | 0 <= k < i :: start[k] == InChunk(B[k], index[k], 0)
    {
      start := start + [index[i] * B[i]];
    }
  }

  /** Each flushed block is in its window. */
  ghost predicate AllWritten<V>(data: seq<V>, S: seq<nat>, B: seq<nat>, turns: seq<seq<V>>)
    requires |S| == |B| && Positive(B) && (turns != [] ==> Positive(PieceCount(S, B)))
  {
    && |data| == Prod(S)
    && forall k: nat | k < |turns| :: Written(data, S, B, Unflatten(PieceCount(S, B), k), turns[k])
  }

  /** Flushing one block leaves the windows of the others alone. */
  lemma FlushKeeps<V>(before: seq<V>, after: seq<V>, S: seq<nat>, B: seq<nat>, turns: seq<seq<V>>, n: nat, buf: seq<V>)
    requires |S| == |B| && Positive(B) && n <= |turns| && n < Prod(PieceCount(S, B)) && Positive(PieceCount(S, B))
    requires AllWritten(before, S, B, turns[..n])
    requires Written(after, S, B, Unflatten(PieceCount(S, B), n), buf)
    requires OnlyWindow(before, after, S, B, Unflatten(PieceCount(S, B), n))
    ensures AllWritten(after, S, B, turns[..n] + [buf])
  {
    hide Prod, Flatten, Unflatten, Written;
    var counts := PieceCount(S, B);
    forall k: nat | k < n ensures Written(after, S, B, Unflatten(counts, k), turns[..n][k]) {
      assert Written(before, S, B, Unflatten(counts, k), turns[..n][k]);
      FlattenUnflatten(counts, k);
      FlattenUnflatten(counts, n);
      WindowKept(before, after, S, B, Unflatten(counts, k), Unflatten(counts, n), turns[k]);
    }
  }

  lemma WindowKept<V>(before: seq<V>, after: seq<V>, S: seq<nat>, B: seq<nat>, c: Index, other: Index, buf: seq<V>)
    requires |S| == |B| == |c| == |other| && Positive(B) && InShape(PieceCount(S, B), c) && c != other
    requires Written(before, S, B, c, buf) && OnlyWindow(before, after, S, B, other)
    ensures Written(after, S, B, c, buf)
  {
    hide Prod, Flatten;
    forall y | InShape(WindowShape(S, B, c), y) ensures ItemWritten(after, S, B, c, buf, y) {
      assert ItemWritten(before, S, B, c, buf, y);
      WindowInside(S, B, c, y);
      assert SameItem(before, after, S, Plus(WindowStart(B, c), y));
    }
  }

  /** Once every block is flushed, each element is what the caller left for it. */
  lemma ElementWritten<V>(data: seq<V>, S: seq<nat>, B: seq<nat>, turns: seq<seq<V>>, x: Index)
    requires |S| == |B| && Positive(B) && Positive(PieceCount(S, B)) && AllWritten(data, S, B, turns)
    requires |turns| == Prod(PieceCount(S, B)) && InShape(S, x)
    ensures var c, y := Quotients(x, B), Remainders(x, B);
            var k := Flatten(PieceCount(S, B), c);
            && InShape(WindowShape(S, B, c), y) && k < |turns| && Unflatten(PieceCount(S, B), k) == c
            && Flatten(S, x) < |data| && Flatten(WindowShape(S, B, c), y) < |turns[k]|
            && data[Flatten(S, x)] == turns[k][Flatten(WindowShape(S, B, c), y)]
  {
    hide Prod, Flatten, Unflatten;
    var c, y := Quotients(x, B), Remainders(x, B);
    InWindow(S, B, x);
    UnflattenFlatten(PieceCount(S, B), c);
    var k := Flatten(PieceCount(S, B), c);
    assert Written(data, S, B, Unflatten(PieceCount(S, B), k), turns[k]);
    assert ItemWritten(data, S, B, c, turns[k], y);
  }

  /** The flushed blocks determine the array, so flushing the same block again
      at the end changes nothing. */
  lemma TurnsDetermine<V>(data: seq<V>, data': seq<V>, S: seq<nat>, B: seq<nat>, turns: seq<seq<V>>)
    requires |S| == |B| && Positive(B) && Positive(S) && Positive(PieceCount(S, B)) && |turns| == Prod(PieceCount(S, B))
    requires AllWritten(data, S, B, turns) && AllWritten(data', S, B, turns)
    ensures data == data'
  {
    hide Prod, Flatten, Unflatten, AllWritten;
    assert |data| == Prod(S) == |data'| by {
      AllWrittenLength(data, S, B, turns);
      AllWrittenLength(data', S, B, turns);
    }
    forall n | 0 <= n < |data| ensures data[n] == data'[n] {
      FlattenUnflatten(S, n);
      ElementWritten(data, S, B, turns, Unflatten(S, n));
      ElementWritten(data', S, B, turns, Unflatten(S, n));
    }
  }

  lemma AllWrittenLength<V>(data: seq<V>, S: seq<nat>, B: seq<nat>, turns: seq<seq<V>>)
    requires |S| == |B| && Positive(B) && Positive(PieceCount(S, B)) && AllWritten(data, S, B, turns)
    ensures |data| == Prod(S)
  {}

  class WriteIterator<V(0)> {
    const shape: seq<nat>
    const blockShape: seq<nat>   // the container's chunk shape
    const eshape: seq<nat>
    const totalBlocks: nat
    const data: array<V>         // the container's elements
    const block: array<V>        // the buffer the caller fills
    var nblock: nat
    var curIndex: Index
    var curShape: seq<nat>
    ghost var turns: seq<seq<V>> // what the flushed blocks held

    ghost predicate Valid()
      reads this, data
    {
      && |shape| == |blockShape| == |eshape| && Positive(blockShape) && Positive(shape)
      && (forall i | 0 <= i < |shape| :: eshape[i] == RoundUp(shape[i], blockShape[i]))
      && totalBlocks == Prod(PieceCount(shape, blockShape)) && totalBlocks > 0
      && block.Length == Prod(blockShape) && data != block && data.Length == Prod(shape)
      && nblock <= totalBlocks && Positive(PieceCount(shape, blockShape))
      && (nblock > 0 ==> Current())
      && (|turns| == nblock - 1 || |turns| == nblock)
      && AllWritten(data[..], shape, blockShape, turns)
    }

    /** The window handed out last. */
    ghost predicate Current()
      requires 0 < nblock && |shape| == |blockShape| && Positive(blockShape) && Positive(PieceCount(shape, blockShape))
      reads this
    {
      && curIndex == Unflatten(PieceCount(shape, blockShape), nblock - 1)
      && curShape == WindowShape(shape, blockShape, curIndex)
    }

    /** iarray_iter_write_block_new: None stands for INVALID_ITERSHAPE. */
    constructor (g: Geometry, data: array<V>)
      requires g.Valid() && Positive(g.shape) && data.Length == Prod(g.shape)
      ensures Valid() && fresh(block) && nblock == 0 && turns == []
      ensures shape == g.shape && blockShape == g.chunkshape && this.data == data
    {
      shape, blockShape, eshape := g.shape, g.chunkshape, g.ExtShape();
      totalBlocks := Prod(PieceCount(g.shape, g.chunkshape));
      this.data := data;
      nblock, curIndex, curShape, turns := 0, [], [], [];
      block := new V[Prod(g.chunkshape)];
      new;
      ProdPositive(PieceCount(g.shape, g.chunkshape));
    }

    /** The flush that both next and has_next start with. */
    method Flush()
      requires Valid() && nblock > 0
      modifies data, this`turns
      ensures Valid() && turns == old(turns)[..nblock - 1] + [block[..]]
    {
      hide Prod, Unflatten, Written, OnlyWindow;
      ghost var before := data[..];
      UnflattenInShape(PieceCount(shape, blockShape), nblock - 1);
      var start := IndexStart(curIndex, blockShape);
      WindowShapePositive(shape, blockShape, curIndex);
      ProdMono(curShape, blockShape);
      SetSlice(data, shape, blockShape, curIndex, start, curShape, block);
      FlushKeeps(before, data[..], shape, blockShape, turns, nblock - 1, block[..]);
      turns := turns[..nblock - 1] + [block[..]];
    }

    /** iarray_iter_write_block_next: stores the block of the turn that ends,
        then moves to the next one. */
    method Next()
      requires Valid() && nblock < totalBlocks
      modifies this`nblock, this`curIndex, this`curShape, this`turns, data
      ensures Valid() && nblock == old(nblock) + 1
      ensures turns == if old(nblock) == 0 then [] else old(turns[..nblock - 1] + [block[..]])
    {
      hide Prod, Unflatten, AllWritten;
      if nblock != 0 {
        Flush();
      }
      curIndex, curShape := WriteWindow(shape, blockShape, eshape, nblock);
      nblock := nblock + 1;
    }

    /** iarray_iter_write_block_has_next: at the end it stores the last block
        first; asked again, it stores the same block in the same place. */
    method HasNext() returns (more: bool)
      requires Valid()
      modifies data, this`turns
      ensures Valid() && (more <==> nblock < totalBlocks)
      ensures more ==> data[..] == old(data[..]) && turns == old(turns)
      ensures !more ==> turns == old(turns)[..totalBlocks - 1] + [block[..]]
      ensures !more && old(turns) == old(turns)[..totalBlocks - 1] + [block[..]] ==>
              data[..] == old(data[..]) && turns == old(turns)
    {
      hide Prod, Unflatten, AllWritten;
      ghost var before, done := data[..], turns;
      if nblock == totalBlocks {
        Flush();
        if turns == done { TurnsDetermine(before, data[..], shape, blockShape, turns); }
      }
      more := nblock < totalBlocks;
    }
  }
}
