/** Row-major index arithmetic: strides, flat indices and their decoding
    (src/iarray_private.h), for any number of dimensions. */
module Layout {
  import opened Lists
  import opened Arith

  function Prod(s: seq<nat>): nat {
    if s == [] then 1 else s[0] * Prod(s[1..])
  }

  ghost predicate Positive(s: seq<nat>) {
    forall i | 0 <= i < |s| :: s[i] > 0
  }

  ghost predicate InShape(s: seq<nat>, x: Index) {
    && |x| == |s|
    && forall i | 0 <= i < |s| :: x[i] < s[i]
  }

  lemma {:induction false} ProdPositive(s: seq<nat>)
    requires Positive(s)
    ensures Prod(s) > 0
  {
    if s != [] { ProdPositive(s[1..]); }
  }

  /** A shape with room for an item has no empty dimension. */
  lemma {:induction false} ProdPositiveIf(s: seq<nat>, n: nat)
    requires n < Prod(s)
    ensures Positive(s)
  {
    if s != [] {
      if Prod(s[1..]) == 0 || s[0] == 0 {
        assert s[0] * Prod(s[1..]) == 0;
      }
      ProdPositiveIf(s[1..], 0);
      forall i | 0 <= i < |s| ensures s[i] > 0 {
        if i > 0 { assert s[1..][i-1] > 0; }
      }
    }
  }

  lemma {:induction false} ProdMono(a: seq<nat>, b: seq<nat>)
    requires |a| == |b| && forall i | 0 <= i < |a| :: a[i] <= b[i]
    ensures Prod(a) <= Prod(b)
  {
    if a != [] {
      ProdMono(a[1..], b[1..]);
      MulMono(a[0], b[0], Prod(a[1..]));
      MulMono(Prod(a[1..]), Prod(b[1..]), b[0]);
    }
  }

  lemma {:induction false} ProdOfOnes(part: seq<nat>)
    requires forall i | 0 <= i < |part| :: part[i] == 1
    ensures Prod(part) == 1
  {
    if part != [] { ProdOfOnes(part[1..]); }
  }

  lemma {:induction false} ProdZero(s: seq<nat>, i: nat)
    requires i < |s| && s[i] == 0
    ensures Prod(s) == 0
  {
    if i > 0 { ProdZero(s[1..], i - 1); }
    assert s[0] * Prod(s[1..]) == 0;
  }

  /** Row-major position of `x` in an array of shape `s`. */
  function Flatten(s: seq<nat>, x: Index): nat
    requires |x| == |s|
  {
    if s == [] then 0 else x[0] * Prod(s[1..]) + Flatten(s[1..], x[1..])
  }

  /** Coordinates of row-major position `n` in an array of shape `s`. */
  function Unflatten(s: seq<nat>, n: nat): (x: Index)
    requires Positive(s)
    ensures |x| == |s|
  {
    if s == [] then [] else
      ProdPositive(s[1..]);
      [n / Prod(s[1..])] + Unflatten(s[1..], n % Prod(s[1..]))
  }

  lemma {:induction false} FlattenBound(s: seq<nat>, x: Index)
    requires InShape(s, x)
    ensures Flatten(s, x) < Prod(s)
  {
    if s != [] {
      FlattenBound(s[1..], x[1..]);
      var p := Prod(s[1..]);
      MulMono(x[0], s[0] - 1, p);
      assert (s[0] - 1) * p == s[0] * p - p;
    }
  }

  lemma {:induction false} UnflattenInShape(s: seq<nat>, n: nat)
    requires Positive(s) && n < Prod(s)
    ensures InShape(s, Unflatten(s, n))
  {
    if s != [] {
      ProdPositive(s[1..]);
      DivBound(n, s[0], Prod(s[1..]));
      UnflattenInShape(s[1..], n % Prod(s[1..]));
    }
  }

  /** Decoding a flat index and encoding it again gives it back. */
  lemma {:induction false} FlattenUnflatten(s: seq<nat>, n: nat)
    requires Positive(s) && n < Prod(s)
    ensures InShape(s, Unflatten(s, n)) && Flatten(s, Unflatten(s, n)) == n
  {
    UnflattenInShape(s, n);
    if s != [] {
      ProdPositive(s[1..]);
      var p := Prod(s[1..]);
      var x := Unflatten(s, n);
      assert x[0] == n / p && x[1..] == Unflatten(s[1..], n % p);
      FlattenUnflatten(s[1..], n % p);
      DivModParts(n, p);
    }
  }

  /** Encoding coordinates and decoding the result gives them back, so distinct
      coordinates have distinct flat indices. */
  lemma {:induction false} UnflattenFlatten(s: seq<nat>, x: Index)
    requires InShape(s, x)
    ensures Positive(s) && Flatten(s, x) < Prod(s) && Unflatten(s, Flatten(s, x)) == x
  {
    FlattenBound(s, x);
    assert Positive(s);
    if s != [] {
      UnflattenFlatten(s[1..], x[1..]);
      QuotientUnique(Flatten(s, x), Prod(s[1..]), x[0], Flatten(s[1..], x[1..]));
      assert x == [x[0]] + x[1..];
    }
  }

  lemma FlattenInjective(s: seq<nat>, x: Index, y: Index)
    requires InShape(s, x) && InShape(s, y) && Flatten(s, x) == Flatten(s, y)
    ensures x == y
  {
    UnflattenFlatten(s, x);
    UnflattenFlatten(s, y);
  }

  /** Dimensions of extent one in front do not move an element. */
  lemma LeadingOne(s: seq<nat>, x: Index)
    requires InShape([1] + s, x)
    ensures Flatten([1] + s, x) == Flatten(s, x[1..])
  {
    assert ([1] + s)[1..] == s;
    assert x[0] == 0;
  }

  // ---------------------------------------------------------------------
  // Strides

  function Strides(s: seq<nat>): (st: seq<nat>)
    ensures |st| == |s|
  {
    if s == [] then [] else [Prod(s[1..])] + Strides(s[1..])
  }

  function Dot(st: seq<nat>, x: Index): nat
    requires |st| == |x|
  {
    if st == [] then 0 else x[0] * st[0] + Dot(st[1..], x[1..])
  }

  lemma DotStep(st: seq<nat>, x: Index, j: nat)
    requires |st| == |x| && j < |x|
    ensures Dot(st[j..], x[j..]) == x[j] * st[j] + Dot(st[j+1..], x[j+1..])
  {
    assert st[j..][1..] == st[j+1..] && x[j..][1..] == x[j+1..];
  }

  lemma DotEnd(st: seq<nat>, x: Index)
    requires |st| == |x|
    ensures Dot(st[0..], x[0..]) == Dot(st, x) && Dot(st[|x|..], x[|x|..]) == 0
  {
    assert st[0..] == st && x[0..] == x;
  }

  lemma {:induction false} StridesAt(s: seq<nat>, j: nat)
    requires j < |s|
    ensures Strides(s)[j] == Prod(s[j+1..])
  {
    if j > 0 {
      StridesAt(s[1..], j - 1);
      assert s[1..][j..] == s[j+1..];
    }
  }

  lemma {:induction false} DotStrides(s: seq<nat>, x: Index)
    requires |x| == |s|
    ensures Dot(Strides(s), x) == Flatten(s, x)
  {
    if s != [] {
      DotStrides(s[1..], x[1..]);
      assert Strides(s)[1..] == Strides(s[1..]);
    }
  }

  /** Each decoded component, read off the strides directly. */
  lemma {:induction false} UnflattenAt(s: seq<nat>, n: nat, j: nat)
    requires Positive(s) && j < |s|
    ensures Positive(s[j..]) && Positive(s[j+1..]) && Prod(s[j..]) > 0 && Prod(s[j+1..]) > 0
    ensures Unflatten(s, n)[j] == (if j == 0 then n else n % Prod(s[j..])) / Prod(s[j+1..])
  {
    ProdPositive(s[j..]);
    ProdPositive(s[j+1..]);
    if j > 0 {
      ProdPositive(s[1..]);
      var m := n % Prod(s[1..]);
      UnflattenAt(s[1..], m, j - 1);
      assert s[1..][j-1..] == s[j..] && s[1..][j..] == s[j+1..];
      if j > 1 { ModOfTail(s[1..], n, j - 1); }
    }
  }

  lemma {:induction false} ModOfTail(s: seq<nat>, n: nat, j: nat)
    requires Positive(s) && j <= |s|
    ensures Prod(s) > 0 && Prod(s[j..]) > 0 && (n % Prod(s)) % Prod(s[j..]) == n % Prod(s[j..])
  {
    ProdPositive(s);
    if j == 0 {
      assert s[0..] == s;
      ModTwice(n, Prod(s));
    } else {
      ProdPositive(s[1..]);
      assert s[1..][j-1..] == s[j..];
      ModOfTail(s[1..], n % Prod(s), j - 1);
      ModOfTail(s[1..], n, j - 1);
      ModOfProduct(n, s[0], Prod(s[1..]));
      assert Prod(s) == s[0] * Prod(s[1..]);
      hide Prod;
    }
  }

  // ---------------------------------------------------------------------
  // The inline functions of src/iarray_private.h

  method ComputeStrides(shape: seq<nat>, strides: array<nat>)
    requires strides.Length == |shape|
    modifies strides
    ensures strides[..] == Strides(shape)
  {
    if |shape| == 0 {
      return;
    }
    var n := |shape|;
    strides[n - 1] := 1;
    assert Prod(shape[n..]) == 1;
    var j := n - 1;
    while j > 0
      invariant 0 <= j < n
      invariant forall k | j <= k < n :: strides[k] == Prod(shape[k+1..])
    {
      j := j - 1;
      assert shape[j+1..][1..] == shape[j+2..];
      strides[j] := shape[j+1] * strides[j+1];
    }
    forall k | 0 <= k < n ensures strides[k] == Strides(shape)[k] {
      StridesAt(shape, k);
    }
  }

  method MultidimToUnidim(strides: seq<nat>, index: Index) returns (i: nat)
    requires |strides| == |index|
    ensures i == Dot(strides, index)
    ensures forall s: seq<nat> | |s| == |index| && strides == Strides(s) :: i == Flatten(s, index)
  {
    i := 0;
    for j := 0 to |strides|
      invariant i + Dot(strides[j..], index[j..]) == Dot(strides, index)
    {
      assert strides[j..][1..] == strides[j+1..] && index[j..][1..] == index[j+1..];
      i := i + index[j] * strides[j];
    }
    forall s: seq<nat> | |s| == |index| && strides == Strides(s) ensures i == Flatten(s, index) {
      DotStrides(s, index);
    }
  }

  method UnidimToMultidim(strides: seq<nat>, i: nat, index: array<nat>, ghost shape: seq<nat>)
    requires Positive(shape) && strides == Strides(shape) && index.Length >= |shape|
    modifies index
    ensures index[..|shape|] == Unflatten(shape, i)
    ensures index.Length == |shape| ==> index[..] == Unflatten(shape, i)
  {
    if |strides| == 0 {
      return;
    }
    UnflattenAt(shape, i, 0);
    StridesAt(shape, 0);
    index[0] := i / strides[0];
    for j := 1 to |strides|
      invariant forall k | 0 <= k < j :: index[k] == Unflatten(shape, i)[k]
    {
      UnflattenAt(shape, i, j);
      StridesAt(shape, j - 1);
      StridesAt(shape, j);
      index[j] := (i % strides[j-1]) / strides[j];
    }
  }

  method UnidimToMultidimShape(shape: seq<nat>, i: nat, index: array<nat>)
    requires Positive(shape) && index.Length >= |shape|
    modifies index
    ensures index[..|shape|] == Unflatten(shape, i)
    ensures index.Length == |shape| ==> index[..] == Unflatten(shape, i)
  {
    var strides := new nat[|shape|];
    ComputeStrides(shape, strides);
    UnidimToMultidim(strides[..], i, index, shape);
  }

  /** The number of items of a shape, multiplied up. */
  method Size(w: seq<nat>) returns (size: nat)
    ensures size == Prod(w)
  {
    size := 1;
    var i := |w|;
    while i > 0
      invariant 0 <= i <= |w| && size == Prod(w[i..])
    {
      i := i - 1;
      assert w[i..][1..] == w[i+1..];
      size := w[i] * size;
    }
    assert w[0..] == w;
  }

  lemma RunningDigit(aux: seq<nat>, n: nat, i: nat)
    requires Positive(aux) && n < Prod(aux) && i < |aux|
    ensures var inc, all := Prod(aux[i+1..]), Prod(aux[i..]);
            inc > 0 && all > 0 && aux[i] * inc == all && n % all / inc == Unflatten(aux, n)[i]
  {
    UnflattenAt(aux, n, i);
    assert aux[i..][1..] == aux[i+1..];
    if i == 0 {
      assert aux[0..] == aux;
      SmallMod(n, Prod(aux));
    }
  }

  /** The running-product decoding the iterators use. */
  method RunningProductIndex(aux: seq<nat>, nblock: nat, index: array<nat>)
    requires Positive(aux) && index.Length == |aux| && nblock < Prod(aux)
    modifies index
    ensures index[..] == Unflatten(aux, nblock)
  {
    var inc := 1;
    var i := |aux|;
    while i > 0
      invariant 0 <= i <= |aux|
      invariant inc == Prod(aux[i..])
      invariant forall k | i <= k < |aux| :: index[k] == Unflatten(aux, nblock)[k]
    {
      i := i - 1;
      RunningDigit(aux, nblock, i);
      index[i] := nblock % (aux[i] * inc) / inc;
      inc := inc * aux[i];
    }
  }
}
