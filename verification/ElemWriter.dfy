/** The element-wise write iterator (src/iarray_iterator.c).  It stores a window
    when it leaves it.  When the first window holds a single item it leaves that
    window before anything is written there, and comes back to it at the end. */
module ElemWriter {
  import opened Lists
  import opened Arith
  import opened Layout
  import opened Geometry
  import opened BlockIter
  import opened ElemIter

  // ---------------------------------------------------------------------
  // Windows of one item

  lemma {:induction false} ProdOneMeans(s: seq<nat>)
    requires Prod(s) == 1
    ensures forall i | 0 <= i < |s| :: s[i] == 1
  {
    if s != [] {
      Factors(s[0], Prod(s[1..]));
      ProdOneMeans(s[1..]);
      forall i | 0 <= i < |s| ensures s[i] == 1 {
        if i > 0 { assert s[1..][i - 1] == 1; }
      }
    }
  }

  lemma Factors(a: nat, b: nat)
    requires a * b == 1
    ensures a == 1 && b == 1
  {
    if a > 1 && b > 0 { MulMono(2, a, b); }
  }

  lemma {:induction false} UnflattenZero(s: seq<nat>)
    requires Positive(s)
    ensures forall i | 0 <= i < |s| :: Unflatten(s, 0)[i] == 0
  {
    if s != [] {
      ProdPositive(s[1..]);
      UnflattenZero(s[1..]);
      SmallMod(0, Prod(s[1..]));
    }
  }

  predicate Singles(S: seq<nat>, B: seq<nat>)
    requires |S| == |B| && Positive(B) && Positive(PieceCount(S, B))
  {
    SizeOf(S, B, 0) == 1
  }

  /** If the first window holds one item, every window does. */
  lemma AllSingle(S: seq<nat>, B: seq<nat>, k: nat)
    requires |S| == |B| && Positive(B) && Positive(S) && Positive(PieceCount(S, B)) && Singles(S, B)
    requires k < Prod(PieceCount(S, B))
    ensures SizeOf(S, B, k) == 1
  {
    hide Prod, Unflatten;
    var n := PieceCount(S, B);
    UnflattenZero(n);
    ProdOneMeans(WindowShape(S, B, Unflatten(n, 0)));
    UnflattenInShape(n, k);
    var w := WindowShape(S, B, Unflatten(n, k));
    forall i | 0 <= i < |w| ensures w[i] == 1 {
      assert WindowShape(S, B, Unflatten(n, 0))[i] == 1;
      FirstIsOne(S[i], B[i], Unflatten(n, k)[i]);
    }
    ProdOfOnes(w);
  }

  lemma FirstIsOne(S: nat, B: nat, c: nat)
    requires B > 0 && S > 0 && ClipLen(S, B, 0) == 1 && c < CeilDiv(S, B)
    ensures ClipLen(S, B, c) == 1
  {
    ClipLenFacts(S, B, c);
    if S < B { assert S == 1; CeilDivBelow(1, 1, B); }
  }

  lemma {:induction false} SingleSums(S: seq<nat>, B: seq<nat>, k: nat)
    requires |S| == |B| && Positive(B) && Positive(S) && Positive(PieceCount(S, B)) && Singles(S, B)
    requires k <= Prod(PieceCount(S, B))
    ensures SizeSum(S, B, k) == k
    ensures k == Prod(PieceCount(S, B)) ==> Prod(S) == k
  {
    hide Prod, PieceCount, Singles, SizeOf;
    if k > 0 {
      SingleSums(S, B, k - 1);
      AllSingle(S, B, k - 1);
      SizeSumNext(S, B, k - 1);
    }
    SizesAddUp(S, B);
  }

  /** The turn for element number `n` of `size`. */
  function Turn(n: nat, size: nat, singles: bool): nat {
    if !singles then n else if n > 0 then n - 1 else if size > 0 then size - 1 else 0
  }

  /** The turn in which the iterator comes to `x`: rotated by one for windows of one item. */
  function Order(S: seq<nat>, B: seq<nat>, x: Index): nat
    requires |S| == |B| == |x| && Positive(B) && Positive(PieceCount(S, B))
  {
    Turn(NumberOf(S, B, x), Prod(S), Singles(S, B))
  }

  lemma TurnInjective(n: nat, m: nat, size: nat, singles: bool)
    requires n < size && m < size
    ensures Turn(n, size, singles) < size
    ensures Turn(n, size, singles) == Turn(m, size, singles) ==> n == m
  {}

  /** Turns are below the array's size and never shared: every coordinate has its own. */
  lemma OrderInjective(S: seq<nat>, B: seq<nat>, x: Index, y: Index)
    requires |S| == |B| && Positive(B) && Positive(PieceCount(S, B)) && InShape(S, x) && InShape(S, y)
    ensures Order(S, B, x) < Prod(S)
    ensures Order(S, B, x) == Order(S, B, y) ==> x == y
  {
    hide NumberOf, Singles, Prod, Turn;
    NumberBound(S, B, x);
    NumberBound(S, B, y);
    TurnInjective(NumberOf(S, B, x), NumberOf(S, B, y), Prod(S), Singles(S, B));
    if Order(S, B, x) == Order(S, B, y) { NumberInjective(S, B, x, y); }
  }

  /** Turns of the items of window `k`, the window entered when `n` elements are done. */
  lemma EnteredLater(S: seq<nat>, B: seq<nat>, k: nat, n: nat, x: Index)
    requires |S| == |B| && Positive(B) && Positive(S) && Positive(PieceCount(S, B)) && InShape(S, x)
    requires WindowOf(S, B, x) == k
    requires if Singles(S, B)
             then k == (if n + 1 == Prod(PieceCount(S, B)) then 0 else n + 1) && n < Prod(PieceCount(S, B))
             else n == SizeSum(S, B, k)
    ensures Order(S, B, x) >= n
  {
    hide Prod, PieceCount, WindowOf, PlaceOf, SizeSum, Singles;
    NumberParts(S, B, x);
    if Singles(S, B) {
      SingleSums(S, B, k);
      SingleSums(S, B, k + 1);
      SingleSums(S, B, Prod(PieceCount(S, B)));
    }
  }

  /** The turn of item `m` of window `k`. */
  lemma OrderWithin(S: seq<nat>, B: seq<nat>, k: nat, m: nat, x: Index)
    requires |S| == |B| && Positive(B) && Positive(S) && Positive(PieceCount(S, B)) && InShape(S, x)
    requires WindowOf(S, B, x) == k < Prod(PieceCount(S, B)) && PlaceOf(S, B, x) == m
    ensures !Singles(S, B) ==> Order(S, B, x) == SizeSum(S, B, k) + m
    ensures Singles(S, B) ==> m == 0 && Order(S, B, x) == (if k == 0 then Prod(PieceCount(S, B)) - 1 else k - 1)
  {
    hide Prod, PieceCount, WindowOf, PlaceOf, SizeSum, Singles;
    PartsInRange(S, B, x);
    if Singles(S, B) {
      AllSingle(S, B, k);
      SingleSums(S, B, k);
      SingleSums(S, B, Prod(PieceCount(S, B)));
    }
  }

  /** Index and shape of window nblock, counting round: after the last comes the first. */
  method WrapWindow(S: seq<nat>, B: seq<nat>, counts: seq<nat>, nblock: nat) returns (index: Index, w: seq<nat>)
    requires |S| == |B| && Positive(B) && counts == PieceCount(S, B) && Positive(counts) && Prod(counts) > 0
    ensures index == Unflatten(counts, nblock % Prod(counts)) && InShape(counts, index) && w == WindowShape(S, B, index)
  {
    hide Prod, Unflatten, PieceCount;
    ghost var n := nblock % Prod(counts);
    UnflattenInShape(counts, n);
    var a := new nat[|S|];
    var shape := new nat[|S|];
    var inc := 1;
    var i := |S|;
    assert counts[i..] == [] && Prod(counts[i..]) == 1 by { EmptyProd(); }
    while i > 0
      invariant 0 <= i <= |S| && inc == Prod(counts[i..])
      invariant forall k | i <= k < |S| :: a[k] == Unflatten(counts, n)[k] && shape[k] == ClipLen(S[k], B[k], a[k])
    {
      i := i - 1;
      RunningDigit(counts, n, i);
      ModOfTail(counts, nblock, i);
      a[i] := nblock % (inc * counts[i]) / inc;
      inc := inc * counts[i];
      ClipAt(S, B, Unflatten(counts, n), i);
      shape[i] := if (a[i] + 1) * B[i] > S[i] then S[i] - a[i] * B[i] else B[i];
    }
    index, w := a[..], shape[..];
    assert index == Unflatten(counts, n);
  }

  lemma EmptyProd()
    ensures Prod([]) == 1
  {}

  lemma ClipAt(S: seq<nat>, B: seq<nat>, c: Index, i: nat)
    requires |S| == |B| == |c| && Positive(B) && InShape(PieceCount(S, B), c) && i < |S|
    ensures c[i] * B[i] < S[i]
    ensures ClipLen(S[i], B[i], c[i]) == if (c[i] + 1) * B[i] > S[i] then S[i] - c[i] * B[i] else B[i]
  {
    CeilDivBelow(c[i], S[i], B[i]);
    assert (c[i] + 1) * B[i] == c[i] * B[i] + B[i];
  }

  // ---------------------------------------------------------------------
  // The iterator

  /** What was written at `x` is in the array. */
  ghost predicate DoneAt<V>(S: seq<nat>, B: seq<nat>, nelem: nat, elems: seq<V>, x: Index, v: V)
    requires |S| == |B| && Positive(B) && Positive(PieceCount(S, B))
  {
    && InShape(S, x) && Order(S, B, x) < nelem
    && Flatten(S, x) < |elems| && elems[Flatten(S, x)] == v
  }

  /** What was written at `x` is in the buffer, if `x` is in its window `c`, or in the array. */
  ghost predicate KeptAt<V>(S: seq<nat>, B: seq<nat>, nelem: nat, c: Index, buf: seq<V>, elems: seq<V>, x: Index, v: V)
    requires |S| == |B| && Positive(B) && Positive(PieceCount(S, B))
  {
    && InShape(S, x) && Order(S, B, x) < nelem
    && if Quotients(x, B) == c then PlaceOf(S, B, x) < |buf| && buf[PlaceOf(S, B, x)] == v
       else Flatten(S, x) < |elems| && elems[Flatten(S, x)] == v
  }

  ghost predicate AllDone<V>(S: seq<nat>, B: seq<nat>, nelem: nat, elems: seq<V>, written: map<Index, V>)
    requires |S| == |B| && Positive(B) && Positive(PieceCount(S, B))
  {
    forall x | x in written :: DoneAt(S, B, nelem, elems, x, written[x])
  }

  ghost predicate AllKept<V>(S: seq<nat>, B: seq<nat>, nelem: nat, c: Index, buf: seq<V>, elems: seq<V>,
                             written: map<Index, V>)
    requires |S| == |B| && Positive(B) && Positive(PieceCount(S, B))
  {
    forall x | x in written :: KeptAt(S, B, nelem, c, buf, elems, x, written[x])
  }

  class ElementWriter<V(0)> {
    const shape: seq<nat>
    const blockShape: seq<nat>    // the container's chunk shape
    const nitems: nat
    const data: array<V>          // the container's elements
    const chunk: array<V>
    var nelem: nat
    var nblock: nat
    var nelemBlock: nat
    var curIndex: Index
    var curShape: seq<nat>
    var curSize: nat
    var elemIndex: Index
    var elemFlatIndex: nat
    var pointer: nat
    ghost var written: map<Index, V>  // what the caller has written, by coordinate

    ghost predicate Shapes()
      reads this
    {
      && |shape| == |blockShape| && Positive(blockShape) && Positive(shape) && Positive(PieceCount(shape, blockShape))
      && nitems == Prod(shape) && chunk.Length == Prod(blockShape) && data.Length == nitems && chunk != data
    }

    /** The current window: number nblock, counting round. */
    ghost predicate AtWindow()
      requires Shapes()
      reads this
    {
      ProdPositive(PieceCount(shape, blockShape));
      var k := nblock % Prod(PieceCount(shape, blockShape));
      && curIndex == Unflatten(PieceCount(shape, blockShape), k) && curShape == WindowShape(shape, blockShape, curIndex)
      && curSize == Prod(curShape) == SizeOf(shape, blockShape, k) && nelemBlock < curSize
    }

    /** Where the counters stand. */
    ghost predicate Counters()
      requires Shapes()
      reads this
    {
      && nelem <= nitems
      && if Singles(shape, blockShape) then nelem == nblock && nelemBlock == 0
         else
           && nblock < Prod(PieceCount(shape, blockShape))
           && if nelem == 0 then nblock == 0 && nelemBlock == 0
               else nelem == SizeSum(shape, blockShape, nblock) + nelemBlock + 1
    }

    /** The element handed out last. */
    ghost predicate Located()
      requires Shapes()
      reads this
    {
      && InShape(shape, elemIndex) && Quotients(elemIndex, blockShape) == curIndex
      && pointer == PlaceOf(shape, blockShape, elemIndex) < chunk.Length
      && Order(shape, blockShape, elemIndex) == nelem - 1
      && elemFlatIndex == Flatten(shape, elemIndex)
    }

    ghost predicate Valid()
      reads this, chunk, data
    {
      && Shapes() && AtWindow() && Counters() && (nelem > 0 ==> Located())
      && AllKept(shape, blockShape, nelem, curIndex, chunk[..], data[..], written)
    }

    /** iarray_iter_write_new */
    constructor (g: Geometry, data: array<V>)
      requires g.Valid() && Positive(g.shape) && data.Length == Prod(g.shape)
      ensures Valid() && nelem == 0 && written == map[] && fresh(chunk)
      ensures shape == g.shape && blockShape == g.chunkshape && this.data == data && nitems == Prod(g.shape)
    {
      shape, blockShape, nitems, this.data := g.shape, g.chunkshape, Prod(g.shape), data;
      chunk := new V[Prod(g.chunkshape)];
      nelem, nblock, nelemBlock, elemIndex, elemFlatIndex, pointer, written := 0, 0, 0, [], 0, 0, map[];
      var first := seq(|g.shape|, i requires 0 <= i < |g.shape| => if g.chunkshape[i] > g.shape[i] then g.shape[i]
          else g.chunkshape[i]);
      curIndex, curShape, curSize := seq(|g.shape|, _ => 0), first, Prod(first);
      new;
      hide Prod, Unflatten, PieceCount, WindowShape, SizeOf, Singles, SizeSum;
      FirstWindow(g.shape, g.chunkshape, first);
      SmallMod(0, Prod(PieceCount(g.shape, g.chunkshape)));
    }

    /** Stores the buffer in its window. */
    method Flush()
      requires Shapes() && AtWindow()
      modifies data
      ensures Written(data[..], shape, blockShape, curIndex, chunk[..])
      ensures OnlyWindow(old(data[..]), data[..], shape, blockShape, curIndex)
    {
      hide Prod, Unflatten, Written, OnlyWindow;
      ProdPositive(PieceCount(shape, blockShape));
      ghost var k := nblock % Prod(PieceCount(shape, blockShape));
      UnflattenInShape(PieceCount(shape, blockShape), k);
      var start := IndexStart(curIndex, blockShape);
      WindowShapePositive(shape, blockShape, curIndex);
      ProdMono(curShape, blockShape);
      SetSlice(data, shape, blockShape, curIndex, start, curShape, chunk);
    }

    /** After a flush everything written is in the array. */
    method FlushAll()
      requires Shapes() && AtWindow() && AllKept(shape, blockShape, nelem, curIndex, chunk[..], data[..], written)
      modifies data
      ensures AllDone(shape, blockShape, nelem, data[..], written)
    {
      hide Prod, Unflatten, Written, OnlyWindow, PieceCount, AllKept, AllDone, SizeOf, WindowShape;
      ghost var before := data[..];
      Flush();
      StoredByFlush(shape, blockShape, nelem, before, data[..], chunk[..], curIndex, written);
    }

    /** Enters the window after the one that was stored. */
    method EnterNext()
      requires Shapes() && AtWindow() && Counters() && nelem < nitems && nelemBlock == curSize - 1
      requires AllDone(shape, blockShape, nelem, data[..], written)
      modifies this`nblock, this`nelemBlock, this`curIndex, this`curShape, this`curSize
      ensures Shapes() && AtWindow() && Between()
      ensures AllKept(shape, blockShape, nelem, curIndex, chunk[..], data[..], written)
    {
      hide Prod, Unflatten, PieceCount, Singles, SizeSum, WindowShape, AllKept, AllDone;
      ProdPositive(PieceCount(shape, blockShape));
      CountersAtEnd(shape, blockShape, nelem, nblock, nelemBlock, curSize);
      nblock := nblock + 1;
      curIndex, curShape := WrapWindow(shape, blockShape, PieceCount(shape, blockShape), nblock);
      curSize := Size(curShape);
      nelemBlock := 0;
      WindowNotEmpty(shape, blockShape, curIndex);
      NoneEntered(shape, blockShape, nblock, nelem, curIndex, chunk[..], data[..], written);
    }

    /** The next item of the window, or the first of the next window. */
    method MoveOn()
      requires Valid() && nelem < nitems
      modifies this`nblock, this`nelemBlock, this`curIndex, this`curShape, this`curSize, data
      ensures Shapes() && AtWindow() && Between()
      ensures AllKept(shape, blockShape, nelem, curIndex, chunk[..], data[..], written)
    {
      hide Prod, Unflatten, PieceCount, Singles, SizeSum, WindowShape, SizeOf, AllKept, AllDone;
      if nelemBlock == curSize - 1 {
        FlushAll();
        EnterNext();
      } else {
        ProdPositive(PieceCount(shape, blockShape));
        StayingCounters(shape, blockShape, nelem, nblock, nelemBlock, curSize);
        if nelem != 0 {
          nelemBlock := nelemBlock + 1;
        }
      }
    }

    /** Coordinate, row-major index and buffer offset of the current item. */
    method Locate()
      requires Shapes() && AtWindow() && Between()
      modifies this`elemIndex, this`elemFlatIndex, this`pointer
      ensures InShape(shape, elemIndex) && Quotients(elemIndex, blockShape) == curIndex
      ensures pointer == PlaceOf(shape, blockShape, elemIndex) < chunk.Length
      ensures Order(shape, blockShape, elemIndex) == nelem
      ensures elemFlatIndex == Flatten(shape, elemIndex)
    {
      hide Prod, Unflatten, PieceCount, Singles, SizeSum, Order, WindowShape, SizeOf, PlaceOf, WindowOf;
      ProdPositive(PieceCount(shape, blockShape));
      NumberWithin(shape, blockShape, nblock % Prod(PieceCount(shape, blockShape)), nelemBlock);
      elemIndex, elemFlatIndex := LocateElement(shape, blockShape, curIndex, curShape, nelemBlock);
      pointer := ItemPointer(curShape, nelemBlock);
      WindowFits(shape, blockShape, curIndex, nelemBlock);
      TurnNow(shape, blockShape, nelem, nblock, nelemBlock, elemIndex);
    }

    /** iarray_iter_write_next: call number n yields the element whose turn is n. */
    method Next()
      requires Valid() && nelem < nitems
      modifies this, data
      ensures Valid() && nelem == old(nelem) + 1 && written == old(written)
    {
      hide Prod, Unflatten, PieceCount, Singles, SizeSum, Order, WindowShape, SizeOf, AllKept, PlaceOf;
      MoveOn();
      Locate();
      KeptLater(shape, blockShape, nelem, curIndex, chunk[..], data[..], written);
      nelem := nelem + 1;
    }

    /** The caller's store through the element pointer. */
    method Put(v: V)
      requires Valid() && nelem > 0
      modifies chunk, this`written
      ensures Valid() && written == old(written)[elemIndex := v]
    {
      hide Prod, Unflatten, PieceCount, Singles, SizeSum, Order, WindowShape, SizeOf, AllKept;
      ghost var before := chunk[..];
      chunk[pointer] := v;
      assert chunk[..] == before[pointer := v];
      OneWritten(shape, blockShape, nelem, curIndex, before, data[..], written, elemIndex, v);
      written := written[elemIndex := v];
    }

    /** iarray_iter_write_has_next: at the end it stores the last window. */
    method HasNext() returns (more: bool)
      requires Valid()
      modifies data
      ensures Valid() && (more <==> nelem < nitems)
      ensures !more ==> AllDone(shape, blockShape, nelem, data[..], written)
    {
      hide Prod, Unflatten, PieceCount, Singles, SizeSum, WindowShape, SizeOf, AllKept, AllDone;
      if nelem == nitems {
        FlushAll();
        DoneIsKept(shape, blockShape, nelem, curIndex, chunk[..], old(data[..]), data[..], written);
      }
      more := nelem < nitems;
    }

    /** Between the two halves of a call: the window is chosen, the element not yet counted. */
    ghost predicate Between()
      requires Shapes()
      reads this
    {
      && nelem < nitems
      && if Singles(shape, blockShape) then nblock == nelem + 1 && nelemBlock == 0
         else nblock < Prod(PieceCount(shape, blockShape)) && nelem == SizeSum(shape, blockShape, nblock) + nelemBlock
    }
  }

  /** What was in the buffer or the array is in the array after the flush. */
  lemma StoredByFlush<V>(S: seq<nat>, B: seq<nat>, nelem: nat, before: seq<V>, after: seq<V>, buf: seq<V>, c: Index,
                         written: map<Index, V>)
    requires |S| == |B| == |c| && Positive(B) && Positive(PieceCount(S, B))
    requires Written(after, S, B, c, buf) && OnlyWindow(before, after, S, B, c)
    requires AllKept(S, B, nelem, c, buf, before, written)
    ensures AllDone(S, B, nelem, after, written)
  {
    hide Prod, Flatten, Order;
    forall x | x in written ensures DoneAt(S, B, nelem, after, x, written[x]) {
      assert KeptAt(S, B, nelem, c, buf, before, x, written[x]);
      InWindow(S, B, x);
      if Quotients(x, B) == c {
        assert ItemWritten(after, S, B, c, buf, Remainders(x, B));
      } else {
        assert SameItem(before, after, S, x);
      }
    }
  }

  /** After the last flush the buffer and the array agree. */
  lemma DoneIsKept<V>(S: seq<nat>, B: seq<nat>, nelem: nat, c: Index, buf: seq<V>, before: seq<V>, after: seq<V>,
                      written: map<Index, V>)
    requires |S| == |B| && Positive(B) && Positive(PieceCount(S, B))
    requires AllKept(S, B, nelem, c, buf, before, written) && AllDone(S, B, nelem, after, written)
    ensures AllKept(S, B, nelem, c, buf, after, written)
  {
    hide Prod, Flatten, Order, PlaceOf;
    forall x | x in written ensures KeptAt(S, B, nelem, c, buf, after, x, written[x]) {
      assert KeptAt(S, B, nelem, c, buf, before, x, written[x]);
      assert DoneAt(S, B, nelem, after, x, written[x]);
    }
  }

  lemma KeptLater<V>(S: seq<nat>, B: seq<nat>, nelem: nat, c: Index, buf: seq<V>, elems: seq<V>, written: map<Index, V>)
    requires |S| == |B| && Positive(B) && Positive(PieceCount(S, B)) && AllKept(S, B, nelem, c, buf, elems, written)
    ensures AllKept(S, B, nelem + 1, c, buf, elems, written)
  {
    hide Prod, Flatten, Order, PlaceOf;
    forall x | x in written ensures KeptAt(S, B, nelem + 1, c, buf, elems, x, written[x]) {
      assert KeptAt(S, B, nelem, c, buf, elems, x, written[x]);
    }
  }

  lemma OneWritten<V>(S: seq<nat>, B: seq<nat>, nelem: nat, c: Index, buf: seq<V>, elems: seq<V>,
                      written: map<Index, V>, y: Index, v: V)
    requires |S| == |B| && Positive(B) && Positive(PieceCount(S, B)) && AllKept(S, B, nelem, c, buf, elems, written)
    requires InShape(S, y) && Quotients(y, B) == c && Order(S, B, y) < nelem && PlaceOf(S, B, y) < |buf|
    ensures AllKept(S, B, nelem, c, buf[PlaceOf(S, B, y) := v], elems, written[y := v])
  {
    hide Prod, Flatten, Order, PlaceOf;
    var after, w := buf[PlaceOf(S, B, y) := v], written[y := v];
    forall x | x in w ensures KeptAt(S, B, nelem, c, after, elems, x, w[x]) {
      if x != y {
        assert KeptAt(S, B, nelem, c, buf, elems, x, written[x]);
        OtherPlace(S, B, x, y);
      }
    }
  }

  /** Nothing that is done lies in the window that is entered. */
  lemma NoneEntered<V>(S: seq<nat>, B: seq<nat>, nblock: nat, nelem: nat, c: Index, buf: seq<V>, elems: seq<V>,
                       written: map<Index, V>)
    requires |S| == |B| && Positive(B) && Positive(S) && Positive(PieceCount(S, B))
    requires AllDone(S, B, nelem, elems, written)
    requires Prod(PieceCount(S, B)) > 0 && c == Unflatten(PieceCount(S, B), nblock % Prod(PieceCount(S, B)))
    requires if Singles(S, B) then nblock == nelem + 1 <= Prod(PieceCount(S, B))
             else nblock < Prod(PieceCount(S, B)) && nelem == SizeSum(S, B, nblock)
    ensures AllKept(S, B, nelem, c, buf, elems, written)
  {
    hide Prod, Flatten, Unflatten, PieceCount, SizeSum, Order, Singles, PlaceOf;
    forall x | x in written ensures KeptAt(S, B, nelem, c, buf, elems, x, written[x]) {
      assert DoneAt(S, B, nelem, elems, x, written[x]);
      NotEntered(S, B, nblock, nelem, c, x);
    }
  }

  /** When a window is left: how many elements are done. */
  lemma CountersAtEnd(S: seq<nat>, B: seq<nat>, nelem: nat, nblock: nat, nelemBlock: nat, curSize: nat)
    requires |S| == |B| && Positive(B) && Positive(S) && Positive(PieceCount(S, B)) && nelem < Prod(S)
    requires nelemBlock == curSize - 1 && Prod(PieceCount(S, B)) > 0
    requires curSize == SizeOf(S, B, nblock % Prod(PieceCount(S, B)))
    requires if Singles(S, B) then nelem == nblock && nelemBlock == 0
             else nblock < Prod(PieceCount(S, B)) &&
                  if nelem == 0 then nblock == 0 && nelemBlock == 0 else nelem == SizeSum(S, B, nblock) + nelemBlock + 1
    ensures if Singles(S, B) then nblock + 1 == nelem + 1 <= Prod(PieceCount(S, B))
            else nblock + 1 < Prod(PieceCount(S, B)) && nelem == SizeSum(S, B, nblock + 1)
  {
    hide Prod, PieceCount, SizeSum, SizeOf;
    var total := Prod(PieceCount(S, B));
    if Singles(S, B) {
      SingleSums(S, B, total);
    } else {
      SmallMod(nblock, total);
      SizeSumNext(S, B, nblock);
      BlocksLeft(S, B, nblock + 1, nelem);
    }
  }

  /** When the window is not left, there is a next item in it. */
  lemma StayingCounters(S: seq<nat>, B: seq<nat>, nelem: nat, nblock: nat, nelemBlock: nat, curSize: nat)
    requires |S| == |B| && Positive(B) && Positive(S) && Positive(PieceCount(S, B)) && nelem < Prod(S)
    requires nelemBlock < curSize - 1 && Prod(PieceCount(S, B)) > 0
    requires curSize == SizeOf(S, B, nblock % Prod(PieceCount(S, B)))
    requires if Singles(S, B) then nelem == nblock && nelemBlock == 0
             else nblock < Prod(PieceCount(S, B)) &&
                  if nelem == 0 then nblock == 0 && nelemBlock == 0 else nelem == SizeSum(S, B, nblock) + nelemBlock + 1
    ensures !Singles(S, B) && nelem == SizeSum(S, B, nblock) + (if nelem == 0 then 0 else nelemBlock + 1)
  {
    hide Prod, PieceCount, SizeOf;
    if Singles(S, B) {
      AllSingle(S, B, nblock % Prod(PieceCount(S, B)));
      assert false;
    }
    SizeSumZero(S, B);
  }

  /** The element just found is the one whose turn it is. */
  lemma TurnNow(S: seq<nat>, B: seq<nat>, nelem: nat, nblock: nat, m: nat, x: Index)
    requires |S| == |B| && Positive(B) && Positive(S) && Positive(PieceCount(S, B)) && InShape(S, x)
    requires Prod(PieceCount(S, B)) > 0
    requires nelem < Prod(S)
    requires if Singles(S, B) then nblock == nelem + 1 && m == 0
             else nblock < Prod(PieceCount(S, B)) && nelem == SizeSum(S, B, nblock) + m
    requires WindowOf(S, B, x) == nblock % Prod(PieceCount(S, B)) && PlaceOf(S, B, x) == m
    ensures Order(S, B, x) == nelem
  {
    hide Prod, PieceCount, SizeSum, SizeOf, WindowOf, PlaceOf, Order, Singles;
    var total := Prod(PieceCount(S, B));
    if Singles(S, B) { SingleSums(S, B, total); }
    WrapIs(nblock, total);
    OrderWithin(S, B, nblock % total, m, x);
  }

  /** Different elements of one window have different places. */
  lemma OtherPlace(S: seq<nat>, B: seq<nat>, x: Index, y: Index)
    requires |S| == |B| && Positive(B) && Positive(PieceCount(S, B)) && InShape(S, x) && InShape(S, y) && x != y
    ensures Quotients(x, B) == Quotients(y, B) ==> PlaceOf(S, B, x) != PlaceOf(S, B, y)
  {
    if Quotients(x, B) == Quotients(y, B) && PlaceOf(S, B, x) == PlaceOf(S, B, y) {
      PartsInjective(S, B, x, y);
    }
  }

  /** The offset of item `m` in the buffer, again by running products. */
  method ItemPointer(shape: seq<nat>, m: nat) returns (p: nat)
    requires Positive(shape) && m < Prod(shape)
    ensures p == m
  {
    hide Unflatten;
    ghost var y := Unflatten(shape, m);
    var inc := 1;
    p := 0;
    var i := |shape|;
    assert shape[i..] == [] && y[i..] == [];
    while i > 0
      invariant 0 <= i <= |shape| && inc == Prod(shape[i..]) && p == Flatten(shape[i..], y[i..])
    {
      i := i - 1;
      RunningDigit(shape, m, i);
      assert shape[i..][1..] == shape[i+1..] && y[i..][1..] == y[i+1..];
      var digit := m % (inc * shape[i]) / inc;
      p := p + digit * inc;
      inc := inc * shape[i];
    }
    assert shape[0..] == shape && y[0..] == y;
    FlattenUnflatten(shape, m);
  }

  lemma WindowNotEmpty(S: seq<nat>, B: seq<nat>, c: Index)
    requires |S| == |B| == |c| && Positive(B) && InShape(PieceCount(S, B), c)
    ensures Prod(WindowShape(S, B, c)) > 0
  {
    WindowShapePositive(S, B, c);
    ProdPositive(WindowShape(S, B, c));
  }

  /** No element whose turn is over lies in the window that is entered. */
  lemma NotEntered(S: seq<nat>, B: seq<nat>, nblock: nat, nelem: nat, c: Index, x: Index)
    requires |S| == |B| && Positive(B) && Positive(S) && Positive(PieceCount(S, B)) && InShape(S, x)
    requires Prod(PieceCount(S, B)) > 0 && c == Unflatten(PieceCount(S, B), nblock % Prod(PieceCount(S, B)))
    requires if Singles(S, B) then nblock == nelem + 1 <= Prod(PieceCount(S, B))
             else nblock < Prod(PieceCount(S, B)) && nelem == SizeSum(S, B, nblock)
    requires Order(S, B, x) < nelem
    ensures Quotients(x, B) != c
  {
    hide Prod, Unflatten, PieceCount, SizeSum, Order, Singles;
    var total := Prod(PieceCount(S, B));
    var k := nblock % total;
    if Quotients(x, B) == c {
      FlattenUnflatten(PieceCount(S, B), k);
      assert WindowOf(S, B, x) == k;
      WrapIs(nblock, total);
      EnteredLater(S, B, k, nelem, x);
    }
  }

  lemma WrapIs(n: nat, total: nat)
    requires n <= total && total > 0
    ensures n % total == if n == total then 0 else n
  {
    if n < total { SmallMod(n, total); } else { QuotientUnique(n, total, 1, 0); }
  }

  lemma FirstWindow(S: seq<nat>, B: seq<nat>, first: seq<nat>)
    requires |S| == |B| == |first| && Positive(S) && Positive(B)
    requires forall i | 0 <= i < |S| :: first[i] == if B[i] > S[i] then S[i] else B[i]
    ensures Positive(PieceCount(S, B)) && Prod(PieceCount(S, B)) > 0 && Prod(first) > 0
    ensures Unflatten(PieceCount(S, B), 0) == seq(|S|, _ => 0)
    ensures first == WindowShape(S, B, Unflatten(PieceCount(S, B), 0)) && SizeOf(S, B, 0) == Prod(first)
  {
    hide Prod, Unflatten;
    forall i | 0 <= i < |S| ensures PieceCount(S, B)[i] > 0 { CeilDivBelow(0, S[i], B[i]); }
    ProdPositive(PieceCount(S, B));
    UnflattenZero(PieceCount(S, B));
    ProdPositive(first);
    assert Unflatten(PieceCount(S, B), 0) == seq(|S|, _ => 0);
    forall i | 0 <= i < |S| ensures first[i] == WindowShape(S, B, Unflatten(PieceCount(S, B), 0))[i] {
      FirstLen(S[i], B[i]);
    }
  }

  lemma FirstLen(S: nat, B: nat)
    ensures ClipLen(S, B, 0) == if B > S then S else B
  {}

  /** The client loop: every element gets its value, each exactly once. */
  method WriteAll<V(0)>(g: Geometry, val: Index -> V) returns (r: seq<V>)
    requires g.Valid() && Positive(g.shape)
    ensures |r| == Prod(g.shape)
    ensures forall x | InShape(g.shape, x) :: Flatten(g.shape, x) < |r| && r[Flatten(g.shape, x)] == val(x)
  {
    hide Prod, Flatten, Unflatten, PieceCount, Order, ElementWriter.AtWindow, ElementWriter.Counters, AllKept, AllDone;
    var data := new V[Prod(g.shape)];
    var it := new ElementWriter(g, data);
    var more := it.HasNext();
    while more
      invariant fresh(it) && fresh(it.chunk) && it.data == data && it.Valid() && it.shape == g.shape
      invariant it.blockShape == g.chunkshape
      invariant more <==> it.nelem < it.nitems
      invariant forall x | InShape(g.shape, x) && Order(g.shape, g.chunkshape, x) < it.nelem ::
                  x in it.written && it.written[x] == val(x)
      invariant !more ==> AllDone(g.shape, g.chunkshape, it.nelem, data[..], it.written)
      decreases it.nitems - it.nelem, more
    {
      it.Next();
      it.Put(val(it.elemIndex));
      forall x | InShape(g.shape, x) && Order(g.shape, g.chunkshape, x) < it.nelem
        ensures x in it.written && it.written[x] == val(x)
      {
        OrderInjective(g.shape, g.chunkshape, x, it.elemIndex);
      }
      more := it.HasNext();
    }
    r := data[..];
    forall x | InShape(g.shape, x) ensures Flatten(g.shape, x) < |r| && r[Flatten(g.shape, x)] == val(x) {
      OrderInjective(g.shape, g.chunkshape, x, x);
      DoneMeans(g.shape, g.chunkshape, it.nelem, r, it.written, x);
    }
  }

  lemma DoneMeans<V>(S: seq<nat>, B: seq<nat>, nelem: nat, elems: seq<V>, written: map<Index, V>, x: Index)
    requires |S| == |B| && Positive(B) && Positive(PieceCount(S, B)) && AllDone(S, B, nelem, elems, written)
    requires x in written
    ensures InShape(S, x) && Flatten(S, x) < |elems| && elems[Flatten(S, x)] == written[x]
  {
    assert DoneAt(S, B, nelem, elems, x, written[x]);
  }
}
