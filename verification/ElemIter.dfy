/** The element-wise iterators (src/iarray_iterator.c): every coordinate exactly
    once, window by window, with its row-major index and a pointer to its value. */
module ElemIter {
  import opened Lists
  import opened Arith
  import opened Layout
  import opened Geometry
  import opened BlockIter

  // ---------------------------------------------------------------------
  // The order: windows in row-major order, items of a window in row-major order

  /** The window `x` lies in, and its place there. */
  function WindowOf(S: seq<nat>, B: seq<nat>, x: Index): nat
    requires |S| == |B| == |x| && Positive(B)
  {
    Flatten(PieceCount(S, B), Quotients(x, B))
  }

  function PlaceOf(S: seq<nat>, B: seq<nat>, x: Index): nat
    requires |S| == |B| == |x| && Positive(B)
  {
    Flatten(WindowShape(S, B, Quotients(x, B)), Remainders(x, B))
  }

  /** How many elements come before `x`. */
  function NumberOf(S: seq<nat>, B: seq<nat>, x: Index): nat
    requires |S| == |B| == |x| && Positive(B) && Positive(PieceCount(S, B))
  {
    SizeSum(S, B, WindowOf(S, B, x)) + PlaceOf(S, B, x)
  }

  /** Items of window `k`. */
  function SizeOf(S: seq<nat>, B: seq<nat>, k: nat): nat
    requires |S| == |B| && Positive(B) && Positive(PieceCount(S, B))
  {
    Prod(WindowShape(S, B, Unflatten(PieceCount(S, B), k)))
  }

  lemma {:induction false} SizeSumMono(S: seq<nat>, B: seq<nat>, k: nat, n: nat)
    requires |S| == |B| && Positive(B) && Positive(PieceCount(S, B)) && k <= n
    ensures SizeSum(S, B, k) <= SizeSum(S, B, n)
    decreases n
  {
    if k < n { SizeSumMono(S, B, k, n - 1); }
  }

  lemma SizeSumNext(S: seq<nat>, B: seq<nat>, k: nat)
    requires |S| == |B| && Positive(B) && Positive(PieceCount(S, B))
    ensures SizeSum(S, B, k + 1) == SizeSum(S, B, k) + SizeOf(S, B, k)
  {}

  lemma PartsInRange(S: seq<nat>, B: seq<nat>, x: Index)
    requires |S| == |B| && Positive(B) && Positive(PieceCount(S, B)) && InShape(S, x)
    ensures WindowOf(S, B, x) < Prod(PieceCount(S, B))
    ensures Unflatten(PieceCount(S, B), WindowOf(S, B, x)) == Quotients(x, B)
    ensures PlaceOf(S, B, x) < SizeOf(S, B, WindowOf(S, B, x))
  {
    InWindow(S, B, x);
    hide Prod, Flatten, Unflatten;
    UnflattenFlatten(PieceCount(S, B), Quotients(x, B));
    FlattenBound(WindowShape(S, B, Quotients(x, B)), Remainders(x, B));
  }

  /** Item `m` of window `k`. */
  lemma NumberWithin(S: seq<nat>, B: seq<nat>, k: nat, m: nat)
    requires |S| == |B| && Positive(B) && Positive(PieceCount(S, B)) && k < Prod(PieceCount(S, B))
    requires m < SizeOf(S, B, k)
    ensures var c := Unflatten(PieceCount(S, B), k);
            && Positive(WindowShape(S, B, c))
            && var x := Plus(WindowStart(B, c), Unflatten(WindowShape(S, B, c), m));
               && InShape(S, x) && Quotients(x, B) == c && Remainders(x, B) == Unflatten(WindowShape(S, B, c), m)
               && WindowOf(S, B, x) == k && PlaceOf(S, B, x) == m
  {
    hide Prod, Flatten, Unflatten;
    var c := Unflatten(PieceCount(S, B), k);
    FlattenUnflatten(PieceCount(S, B), k);
    ProdPositiveIf(WindowShape(S, B, c), m);
    FlattenUnflatten(WindowShape(S, B, c), m);
    WindowInside(S, B, c, Unflatten(WindowShape(S, B, c), m));
  }

  lemma NumberParts(S: seq<nat>, B: seq<nat>, x: Index)
    requires |S| == |B| && Positive(B) && Positive(PieceCount(S, B)) && InShape(S, x)
    ensures WindowOf(S, B, x) < Prod(PieceCount(S, B))
    ensures SizeSum(S, B, WindowOf(S, B, x)) <= NumberOf(S, B, x) < SizeSum(S, B, WindowOf(S, B, x) + 1)
  {
    hide Prod, Flatten, Unflatten, SizeSum, PieceCount, WindowOf, PlaceOf, SizeOf, Quotients;
    hide WindowShape, Positive, InShape;
    PartsInRange(S, B, x);
    SizeSumNext(S, B, WindowOf(S, B, x));
  }

  /** The numbers of the coordinates are below the array's size ... */
  lemma NumberBound(S: seq<nat>, B: seq<nat>, x: Index)
    requires |S| == |B| && Positive(B) && Positive(PieceCount(S, B)) && InShape(S, x)
    ensures NumberOf(S, B, x) < Prod(S)
  {
    hide Prod, SizeSum, PieceCount, WindowOf, PlaceOf;
    NumberParts(S, B, x);
    SizeSumMono(S, B, WindowOf(S, B, x) + 1, Prod(PieceCount(S, B)));
    SizesAddUp(S, B);
  }

  /** ... and no two coordinates share one, so an iterator that yields numbers
      0, 1, 2, ... yields every coordinate exactly once. */
  lemma NumberInjective(S: seq<nat>, B: seq<nat>, x: Index, y: Index)
    requires |S| == |B| && Positive(B) && Positive(PieceCount(S, B)) && InShape(S, x) && InShape(S, y)
    requires NumberOf(S, B, x) == NumberOf(S, B, y)
    ensures x == y
  {
    hide Prod, SizeSum, PieceCount, WindowOf, PlaceOf;
    NumberParts(S, B, x);
    NumberParts(S, B, y);
    var k, l := WindowOf(S, B, x), WindowOf(S, B, y);
    if k < l { SizeSumMono(S, B, k + 1, l); }
    if l < k { SizeSumMono(S, B, l + 1, k); }
    PartsInjective(S, B, x, y);
  }

  lemma PartsInjective(S: seq<nat>, B: seq<nat>, x: Index, y: Index)
    requires |S| == |B| && Positive(B) && Positive(PieceCount(S, B)) && InShape(S, x) && InShape(S, y)
    requires WindowOf(S, B, x) == WindowOf(S, B, y) && PlaceOf(S, B, x) == PlaceOf(S, B, y)
    ensures x == y
  {
    PartsInRange(S, B, x);
    PartsInRange(S, B, y);
    InWindow(S, B, x);
    InWindow(S, B, y);
    hide Prod, Flatten, Unflatten;
    FlattenInjective(WindowShape(S, B, Quotients(x, B)), Remainders(x, B), Remainders(y, B));
  }

  lemma NoDigits()
    ensures Prod([]) == 1 && Flatten([], []) == 0
  {}

  lemma OneDigit(s: seq<nat>, x: Index, i: nat)
    requires |s| == |x| && i < |s|
    ensures Prod(s[i..]) == s[i] * Prod(s[i+1..])
    ensures Flatten(s[i..], x[i..]) == x[i] * Prod(s[i+1..]) + Flatten(s[i+1..], x[i+1..])
  {
    assert s[i..][1..] == s[i+1..] && x[i..][1..] == x[i+1..];
  }

  /** One more digit of `m`, from the last dimension up. */
  method NextDigit(s: seq<nat>, m: nat, i: nat, inc: nat) returns (digit: nat, all: nat)
    requires Positive(s) && m < Prod(s) && i < |s| && inc == Prod(s[i+1..])
    ensures digit == Unflatten(s, m)[i] && all == Prod(s[i..])
  {
    hide Prod, Unflatten;
    RunningDigit(s, m, i);
    all := inc * s[i];
    digit := m % all / inc;
  }

  /** One more component of `x` in its row-major index. */
  method NextFlat(s: seq<nat>, ghost x: Index, i: nat, xi: nat, flat: nat, inc: nat) returns (flat': nat, inc': nat)
    requires |s| == |x| && i < |s| && xi == x[i]
    requires flat == Flatten(s[i+1..], x[i+1..]) && inc == Prod(s[i+1..])
    ensures flat' == Flatten(s[i..], x[i..]) && inc' == Prod(s[i..])
  {
    OneDigit(s, x, i);
    hide Prod, Flatten;
    flat', inc' := flat + xi * inc, inc * s[i];
  }

  /** Element `m` of the window at `index`: its coordinate and its row-major index
      in the array, by the running products of one loop. */
  method LocateElement(S: seq<nat>, B: seq<nat>, curIndex: Index, curShape: seq<nat>, m: nat)
    returns (x: Index, flat: nat)
    requires |S| == |B| == |curIndex| == |curShape| && Positive(curShape) && m < Prod(curShape)
    ensures x == Plus(WindowStart(B, curIndex), Unflatten(curShape, m)) && flat == Flatten(S, x)
  {
    var a := new nat[|S|];
    ghost var target := Plus(WindowStart(B, curIndex), Unflatten(curShape, m));
    var inc, incS := 1, 1;
    flat := 0;
    var i := |S|;
    assert curShape[i..] == [] && S[i..] == [] && target[i..] == [];
    hide Prod, Flatten, Unflatten;
    NoDigits();
    while i > 0
      invariant 0 <= i <= |S| && inc == Prod(curShape[i..]) && incS == Prod(S[i..])
      invariant flat == Flatten(S[i..], target[i..])
      invariant forall k | i <= k < |S| :: a[k] == target[k]
    {
      i := i - 1;
      var digit;
      digit, inc := NextDigit(curShape, m, i, inc);
      a[i] := digit + curIndex[i] * B[i];
      flat, incS := NextFlat(S, target, i, a[i], flat, incS);
    }
    x := a[..];
    assert S[0..] == S && target[0..] == target && x == target;
  }

  // ---------------------------------------------------------------------
  // The read iterator

  class ElementReader<V(0)> {
    const val: Index -> V
    const shape: seq<nat>
    const blockShape: seq<nat>    // the container's chunk shape
    const contSize: nat
    const chunk: array<V>
    var nelem: nat
    var nblock: nat
    var nelemBlock: nat
    var curIndex: Index
    var curShape: seq<nat>
    var curSize: nat
    var elemIndex: Index
    var elemFlatIndex: nat
    var pointer: nat

    /** The current window and the place in it. */
    ghost predicate InBlock()
      requires |shape| == |blockShape| && Positive(blockShape)
      reads this
    {
      && 0 < nblock <= Prod(PieceCount(shape, blockShape)) && Positive(PieceCount(shape, blockShape))
      && curIndex == Unflatten(PieceCount(shape, blockShape), nblock - 1)
      && curShape == WindowShape(shape, blockShape, curIndex)
      && curSize == Prod(curShape) == SizeOf(shape, blockShape, nblock - 1)
      && nelemBlock < curSize && nelem == SizeSum(shape, blockShape, nblock - 1) + nelemBlock + 1
    }

    ghost predicate Valid()
      reads this, chunk
    {
      && |shape| == |blockShape| && Positive(blockShape)
      && contSize == Prod(shape) && chunk.Length == Prod(blockShape) && nelem <= contSize
      && (nelem == 0 ==> nblock == 0)
      && (nelem > 0 ==> InBlock() && HoldsSlice(chunk[..], curShape, WindowStart(blockShape, curIndex), curShape, val))
    }

    constructor (val: Index -> V, g: Geometry)
      requires g.Valid()
      ensures Valid() && nelem == 0 && fresh(chunk)
      ensures this.val == val && shape == g.shape && blockShape == g.chunkshape && contSize == Prod(g.shape)
    {
      this.val, shape, blockShape, contSize := val, g.shape, g.chunkshape, Prod(g.shape);
      chunk := new V[Prod(g.chunkshape)];
      nelem, nblock, nelemBlock := 0, 0, 0;
      curIndex, curShape, curSize, elemIndex, elemFlatIndex, pointer := [], [], 0, [], 0, 0;
    }

    /** iarray_iter_read_has_next */
    method HasNext() returns (more: bool)
      requires Valid()
      ensures more <==> nelem < contSize
    {
      more := nelem < contSize;
    }

    /** Reads the next window. */
    method NextBlock()
      requires |shape| == |blockShape| && Positive(blockShape) && chunk.Length == Prod(blockShape)
      requires nblock < Prod(PieceCount(shape, blockShape))
      requires Positive(PieceCount(shape, blockShape)) && nelem == SizeSum(shape, blockShape, nblock)
      modifies this`nblock, this`nelemBlock, this`curIndex, this`curShape, this`curSize, chunk
      ensures nblock == old(nblock) + 1 && nelemBlock == 0
      ensures curIndex == Unflatten(PieceCount(shape, blockShape), nblock - 1)
      ensures curShape == WindowShape(shape, blockShape, curIndex)
      ensures curSize == Prod(curShape) == SizeOf(shape, blockShape, nblock - 1) > 0
      ensures HoldsSlice(chunk[..], curShape, WindowStart(blockShape, curIndex), curShape, val)
    {
      hide Prod, HoldsSlice, SizeSum;
      var start, w := ReadWindow(shape, blockShape, nblock);
      var index := new nat[|shape|];
      RunningProductIndex(PieceCount(shape, blockShape), nblock, index);
      curIndex, curShape := index[..], w;
      WindowShapePositive(shape, blockShape, curIndex);
      ProdPositive(w);
      ProdMono(w, blockShape);
      GetSlice(val, start, w, w, chunk);
      curSize := Prod(w);
      nelemBlock := 0;
      nblock := nblock + 1;
    }

    /** The next item of the window, or the first of the next window. */
    method MoveOn()
      requires Valid() && nelem < contSize
      modifies this`nblock, this`nelemBlock, this`curIndex, this`curShape, this`curSize, chunk
      ensures Positive(PieceCount(shape, blockShape)) && 0 < nblock <= Prod(PieceCount(shape, blockShape))
      ensures curIndex == Unflatten(PieceCount(shape, blockShape), nblock - 1)
      ensures curShape == WindowShape(shape, blockShape, curIndex)
      ensures curSize == Prod(curShape) == SizeOf(shape, blockShape, nblock - 1) && nelemBlock < curSize
      ensures nelem == SizeSum(shape, blockShape, nblock - 1) + nelemBlock
      ensures HoldsSlice(chunk[..], curShape, WindowStart(blockShape, curIndex), curShape, val)
    {
      hide Prod, Flatten, Unflatten, HoldsSlice, SizeSum, PieceCount, SizeOf;
      CountsPositive(shape, blockShape, nelem);
      if nelemBlock == curSize - 1 || nelem == 0 {
        if nelem == 0 { SizeSumZero(shape, blockShape); } else { SizeSumNext(shape, blockShape, nblock - 1); }
        BlocksLeft(shape, blockShape, nblock, nelem);
        NextBlock();
      } else {
        nelemBlock := nelemBlock + 1;
      }
    }

    /** iarray_iter_read_next: call number n yields the element with number n. */
    method Next()
      requires Valid() && nelem < contSize
      modifies this, chunk
      ensures Valid() && nelem == old(nelem) + 1
      ensures InShape(shape, elemIndex) && Positive(PieceCount(shape, blockShape))
      ensures NumberOf(shape, blockShape, elemIndex) == old(nelem)
      ensures elemFlatIndex == Flatten(shape, elemIndex)
      ensures pointer < chunk.Length && chunk[pointer] == val(elemIndex)
    {
      hide Prod, Flatten, Unflatten, HoldsSlice, SizeSum, PieceCount, SizeOf;
      MoveOn();
      NumberWithin(shape, blockShape, nblock - 1, nelemBlock);
      elemIndex, elemFlatIndex := LocateElement(shape, blockShape, curIndex, curShape, nelemBlock);
      pointer := nelemBlock;
      SliceAt(chunk[..], curShape, WindowStart(blockShape, curIndex), val, nelemBlock);
      WindowFits(shape, blockShape, curIndex, nelemBlock);
      nelem := nelem + 1;
    }
  }

  lemma CountsPositive(S: seq<nat>, B: seq<nat>, n: nat)
    requires |S| == |B| && Positive(B) && n < Prod(S)
    ensures Positive(PieceCount(S, B))
  {
    ProdPositiveIf(S, n);
    forall i | 0 <= i < |S| ensures PieceCount(S, B)[i] > 0 { CeilDivBelow(0, S[i], B[i]); }
  }

  /** As long as elements are missing, so are windows; and a finished window ends
      where the next one starts. */
  lemma BlocksLeft(S: seq<nat>, B: seq<nat>, k: nat, n: nat)
    requires |S| == |B| && Positive(B) && Positive(PieceCount(S, B)) && n < Prod(S)
    requires n == SizeSum(S, B, k)
    ensures k < Prod(PieceCount(S, B))
  {
    hide Prod, PieceCount;
    SizesAddUp(S, B);
    if k >= Prod(PieceCount(S, B)) { SizeSumMono(S, B, Prod(PieceCount(S, B)), k); }
  }

  lemma SliceAt<V>(buf: seq<V>, w: seq<nat>, start: Index, val: Index -> V, m: nat)
    requires |start| == |w| && Positive(w) && m < Prod(w) && HoldsSlice(buf, w, start, w, val)
    ensures m < |buf| && buf[m] == val(Plus(start, Unflatten(w, m)))
  {
    FlattenUnflatten(w, m);
  }

  lemma WindowFits(S: seq<nat>, B: seq<nat>, c: Index, m: nat)
    requires |S| == |B| == |c| && Positive(B) && m < Prod(WindowShape(S, B, c))
    ensures m < Prod(B)
  {
    forall i | 0 <= i < |B| ensures WindowShape(S, B, c)[i] <= B[i] {}
    ProdMono(WindowShape(S, B, c), B);
  }
}
