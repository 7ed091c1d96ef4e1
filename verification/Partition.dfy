/** The partition advisor (src/iarray.c): chunk and block shapes made of powers
    of two, shrunk dimension by dimension until they fit. */
module Partition {
  import opened Arith
  import opened Layout
  import opened Errors

  const INT32_MAX := 0x7fff_ffff

  datatype Limits = Limits(itemsize: nat, minsize: nat, maxsize: nat)
  {
    /** Bytes of a partition of this shape. */
    function Size(part: seq<nat>): nat { itemsize * Prod(part) }

    /** Halving gets somewhere: a single item fits, or is below the minimum. */
    predicate Reachable() { itemsize > 0 && (itemsize <= maxsize || itemsize < minsize) }
  }

  // ---------------------------------------------------------------------
  // Powers of two

  predicate Power2(n: nat) {
    n == 1 || (n > 1 && n % 2 == 0 && Power2(n / 2))
  }

  lemma {:induction false} PowerDivides(p: nat, q: nat)
    requires Power2(p) && Power2(q) && p <= q
    ensures q % p == 0
  {
    if p > 1 {
      PowerDivides(p / 2, q / 2);
      var k := (q / 2) / (p / 2);
      DivModParts(q / 2, p / 2);
      assert q == k * p;
      QuotientUnique(q, p, k, 0);
    }
  }

  /** The largest power of two that does not exceed a positive `value`. */
  ghost predicate IsNearestPower2(value: nat, p: nat) {
    Power2(p) && value < 2 * p && (p <= value || (value == 0 && p == 1))
  }

  lemma {:induction false} NearestUnique(value: nat, p: nat, q: nat)
    requires IsNearestPower2(value, p) && IsNearestPower2(value, q)
    ensures p == q
  {
    if p > 1 && q > 1 {
      HalfNearest(value, p);
      HalfNearest(value, q);
      NearestUnique(value / 2, p / 2, q / 2);
    }
  }

  lemma HalfNearest(value: nat, p: nat)
    requires IsNearestPower2(value, p) && p > 1
    ensures IsNearestPower2(value / 2, p / 2)
  {}

  /** get_nearest_power2 as a function. */
  function NearestPower2(value: nat): (p: nat)
    ensures IsNearestPower2(value, p)
  {
    if value < 2 then 1 else
      var h := NearestPower2(value / 2);
      assert (2 * h) / 2 == h;
      2 * h
  }

  method GetNearestPower2(value: nat) returns (power2: nat)
    ensures power2 == NearestPower2(value)
  {
    power2 := 2;
    while power2 <= value
      invariant power2 >= 2 && Power2(power2) && (power2 / 2 <= value || power2 == 2)
      decreases value + 1 - power2
    {
      assert (power2 * 2) / 2 == power2;
      power2 := power2 * 2;
    }
    power2 := power2 / 2;
    NearestUnique(value, power2, NearestPower2(value));
  }

  function NearestPowers(shape: seq<nat>): (r: seq<nat>)
    ensures |r| == |shape| && forall i | 0 <= i < |r| :: r[i] == NearestPower2(shape[i])
  {
    seq(|shape|, i requires 0 <= i < |shape| => NearestPower2(shape[i]))
  }

  // ---------------------------------------------------------------------
  // Shrinking

  /** What a pass over the dimensions ends with: a partition below the minimum,
      one that fits, or neither yet. */
  datatype Stage = Small(part: seq<nat>) | Fits(part: seq<nat>) | Again(part: seq<nat>)

  ghost predicate PowersUpTo(part: seq<nat>, bound: seq<nat>) {
    |part| == |bound| && forall i | 0 <= i < |part| :: Power2(part[i]) && part[i] <= bound[i]
  }

  ghost predicate AllPowers(part: seq<nat>) { forall i | 0 <= i < |part| :: Power2(part[i]) }

  /** One pass of the halving loop, from dimension `i` on. */
  function Pass(part: seq<nat>, i: nat, lim: Limits): (s: Stage)
    requires i <= |part|
    ensures |s.part| == |part|
    decreases |part| - i
  {
    if i == |part| then Again(part)
    else if lim.Size(part) < lim.minsize then Small(part)
    else if lim.Size(part) <= lim.maxsize then Fits(part)
    else if part[i] == 1 then Pass(part, i + 1, lim)
    else Pass(part[i := part[i] / 2], i + 1, lim)
  }

  lemma {:induction false} ProdHalvedAt(part: seq<nat>, i: nat)
    requires Positive(part) && i < |part| && part[i] % 2 == 0
    ensures Prod(part) == 2 * Prod(part[i := part[i] / 2])
  {
    var after := part[i := part[i] / 2];
    if i == 0 {
      assert after[1..] == part[1..];
      Double(part[0] / 2, Prod(part[1..]));
    } else {
      assert after[1..] == part[1..][i - 1 := part[1..][i - 1] / 2];
      ProdHalvedAt(part[1..], i - 1);
      Double(part[0], Prod(after[1..]));
    }
  }

  lemma Double(a: nat, p: nat)
    ensures (2 * a) * p == 2 * (a * p) == a * (2 * p)
  {}

  lemma ProdHalved(part: seq<nat>, i: nat)
    requires AllPowers(part) && i < |part| && part[i] > 1
    ensures Prod(part) == 2 * Prod(part[i := part[i] / 2]) && Prod(part) > 0 && AllPowers(part[i := part[i] / 2])
  {
    hide Prod;
    AllPowersPositive(part);
    ProdPositive(part);
    ProdHalvedAt(part, i);
  }

  lemma AllPowersPositive(part: seq<nat>)
    requires AllPowers(part)
    ensures Positive(part)
  {}

  lemma {:induction false} PassFacts(part: seq<nat>, i: nat, lim: Limits)
    requires i <= |part| && AllPowers(part)
    ensures var s := Pass(part, i, lim);
            && PowersUpTo(s.part, part)
            && Prod(s.part) <= Prod(part)
            && (s.Again? && (exists k :: i <= k < |part| && part[k] > 1) ==> Prod(s.part) < Prod(part))
            && (s.Small? ==> lim.Size(s.part) < lim.minsize)
            && (s.Fits? ==> lim.minsize <= lim.Size(s.part) <= lim.maxsize)
            && (s.Again? && i < |part| ==> lim.Size(part) > lim.maxsize && lim.Size(part) >= lim.minsize)
    decreases |part| - i
  {
    if i < |part| && lim.Size(part) >= lim.minsize && lim.Size(part) > lim.maxsize {
      if part[i] == 1 {
        PassFacts(part, i + 1, lim);
      } else {
        ProdHalved(part, i);
        PassFacts(part[i := part[i] / 2], i + 1, lim);
      }
    }
  }

  /** The do-while loop: passes until one ends. */
  function Shrink(part: seq<nat>, lim: Limits): (s: Stage)
    requires |part| > 0 && AllPowers(part) && lim.Reachable()
    ensures !s.Again? && PowersUpTo(s.part, part)
    ensures if s.Small? then lim.Size(s.part) < lim.minsize else lim.minsize <= lim.Size(s.part) <= lim.maxsize
    decreases Prod(part)
  {
    PassFacts(part, 0, lim);
    var s := Pass(part, 0, lim);
    if s.Again? then
      SomethingHalved(part, lim);
      Shrink(s.part, lim)
    else s
  }

  /** A pass that ends nothing has halved something. */
  lemma SomethingHalved(part: seq<nat>, lim: Limits)
    requires |part| > 0 && AllPowers(part) && lim.Reachable() && Pass(part, 0, lim).Again?
    ensures Prod(Pass(part, 0, lim).part) < Prod(part)
  {
    hide Pass, AllPowers, PowersUpTo, Prod, Power2, Limits.Size;
    PassFacts(part, 0, lim);
    AllPowersPositive(part);
    NotAllOnes(part, lim);
  }

  lemma NotAllOnes(part: seq<nat>, lim: Limits)
    requires Positive(part) && lim.Reachable() && lim.Size(part) > lim.maxsize && lim.Size(part) >= lim.minsize
    ensures exists k :: 0 <= k < |part| && part[k] > 1
  {
    if forall k | 0 <= k < |part| :: part[k] == 1 {
      ProdOfOnes(part);
    }
  }

  /** Without that condition no pass ever ends the loop: a single item is above
      the maximum and not below the minimum, and so is every partition. */
  lemma {:induction false} NeverEnds(part: seq<nat>, i: nat, lim: Limits)
    requires i <= |part| && AllPowers(part) && lim.itemsize > lim.maxsize && lim.itemsize >= lim.minsize
    ensures Pass(part, i, lim).Again? && AllPowers(Pass(part, i, lim).part)
    decreases |part| - i
  {
    AllPowersPositive(part);
    ProdPositive(part);
    MulMono(1, Prod(part), lim.itemsize);
    hide Prod;
    if i < |part| {
      if part[i] == 1 {
        NeverEnds(part, i + 1, lim);
      } else {
        NeverEnds(part[i := part[i] / 2], i + 1, lim);
      }
    }
  }

  // ---------------------------------------------------------------------
  // Splitting once more when close to the original shape

  /** Less than a tenth of the partition is left over. */
  predicate TooClose(shape: nat, part: nat)
    requires part > 0
  {
    (shape - part) as real / part as real < 0.1
  }

  function SplitOnce(shape: nat, part: nat, quarter: bool): (p: nat)
    requires part > 0
  {
    var p := if TooClose(shape, part) then part / 2 else part;
    if quarter && shape < p * 4 then p / 4 else p
  }

  predicate PositiveFrom(part: seq<nat>, i: nat) { forall k | i <= k < |part| :: part[k] > 0 }

  /** The loop after `out`: the final shape and the last size that was computed. */
  function Trim(shape: seq<nat>, part: seq<nat>, i: nat, lim: Limits, btune: bool, last: nat): (r: (seq<nat>, nat))
    requires |shape| == |part| && i <= |part| && PositiveFrom(part, i)
    ensures |r.0| == |part|
    decreases |part| - i
  {
    if i == |part| then (part, last)
    else
      var size := lim.Size(part);
      if size < lim.minsize || size <= lim.maxsize / 2 then (part, size)
      else
        if part[i] == 1 then Trim(shape, part, i + 1, lim, btune, size)
        else Trim(shape, part[i := SplitOnce(shape[i], part[i], btune && |part| == 1)], i + 1, lim, btune, size)
  }

  /** Everywhere a power of two, or zero in the one dimension that was quartered away. */
  ghost predicate AllPowersOrZero(part: seq<nat>, quarter: bool) {
    forall i | 0 <= i < |part| :: Power2(part[i]) || (quarter && part[i] == 0)
  }

  lemma SplitFacts(shape: nat, part: nat, quarter: bool)
    requires Power2(part) && part > 1
    ensures var p := SplitOnce(shape, part, quarter); p <= part && (Power2(p) || (quarter && p == 0))
  {
    var h := part / 2;
    if h > 1 { assert Power2(h / 2); }
  }

  lemma {:induction false} TrimFacts(shape: seq<nat>, part: seq<nat>, i: nat, lim: Limits, btune: bool, last: nat)
    requires |shape| == |part| && i <= |part| && AllPowers(part)
    ensures PositiveFrom(part, i)
    ensures var (p, size) := Trim(shape, part, i, lim, btune, last);
            && (forall k | 0 <= k < |part| :: p[k] <= part[k])
            && AllPowersOrZero(p, btune && |part| == 1)
            && (i < |part| ==> size <= lim.Size(part) && (lim.itemsize > 0 ==> size > 0))
    decreases |part| - i
  {
    AllPowersPositive(part);
    ProdPositive(part);
    hide Prod, SplitOnce;
    if i < |part| {
      var size := lim.Size(part);
      if !(size < lim.minsize || size <= lim.maxsize / 2) {
        if part[i] == 1 {
          TrimFacts(shape, part, i + 1, lim, btune, size);
        } else {
          var quarter := btune && |part| == 1;
          SplitFacts(shape[i], part[i], quarter);
          var part' := part[i := SplitOnce(shape[i], part[i], quarter)];
          if !quarter {
            TrimFacts(shape, part', i + 1, lim, btune, size);
            ProdMono(part', part);
            SizeMono(lim, part', part);
          }
        }
      }
    }
  }

  lemma SizeMono(lim: Limits, a: seq<nat>, b: seq<nat>)
    requires Prod(a) <= Prod(b)
    ensures lim.Size(a) <= lim.Size(b)
  {
    MulMono(Prod(a), Prod(b), lim.itemsize);
  }

  // ---------------------------------------------------------------------
  // boxed_optim_partition

  /** The final shape with the size that is checked at the end. */
  function Boxed(shape: seq<nat>, lim: Limits, btune: bool): (r: (seq<nat>, nat))
    requires |shape| > 0 && lim.Reachable()
    ensures |r.0| == |shape|
  {
    var s := Shrink(NearestPowers(shape), lim);
    if s.Small? then (s.part, lim.Size(s.part))
    else
      TrimFacts(shape, s.part, 0, lim, btune, 0);
      Trim(shape, s.part, 0, lim, btune, 0)
  }

  /** The C function: the shape, or a failure when a partition would pass 2 GB. */
  function BoxedResult(shape: seq<nat>, lim: Limits, btune: bool): Result<seq<nat>>
    requires |shape| > 0 && lim.Reachable()
  {
    var (part, size) := Boxed(shape, lim, btune);
    if size > INT32_MAX || size <= 0 then Failure(InvalidChunkshape) else Success(part)
  }

  /** The halving pass in place. */
  method PassInPlace(partshape: array<nat>, lim: Limits) returns (small: bool, fits: bool)
    modifies partshape
    ensures var s := Pass(old(partshape[..]), 0, lim); partshape[..] == s.part && small == s.Small? && fits == s.Fits?
  {
    for i := 0 to partshape.Length
      invariant Pass(partshape[..], i, lim) == Pass(old(partshape[..]), 0, lim)
    {
      var partsize := Bytes(lim.itemsize, partshape);
      if partsize < lim.minsize { return true, false; }
      if partsize <= lim.maxsize { return false, true; }
      if partshape[i] != 1 {
        ghost var before := partshape[..];
        partshape[i] := partshape[i] / 2;
        assert partshape[..] == before[i := before[i] / 2];
      }
    }
    return false, false;
  }

  method Bytes(itemsize: nat, partshape: array<nat>) returns (size: nat)
    ensures size == itemsize * Prod(partshape[..])
  {
    size := itemsize;
    ghost var p := partshape[..];
    assert p[0..] == p;
    for j := 0 to partshape.Length
      invariant size * Prod(p[j..]) == itemsize * Prod(p)
    {
      assert p[j..][1..] == p[j+1..];
      Regroup(size, p[j], Prod(p[j+1..]));
      size := size * partshape[j];
    }
    assert p[partshape.Length..] == [];
  }

  lemma Regroup(a: nat, b: nat, c: nat)
    ensures a * (b * c) == (a * b) * c
  {}

  /** boxed_optim_partition: the shape is left in `partshape`. */
  method BoxedOptimPartition(shape: seq<nat>, partshape: array<nat>, lim: Limits, btune: bool) returns (ok: bool)
    requires |shape| > 0 && partshape.Length == |shape| && lim.Reachable()
    modifies partshape
    ensures partshape[..] == Boxed(shape, lim, btune).0
    ensures ok <==> BoxedResult(shape, lim, btune).Success?
    ensures ok ==> BoxedResult(shape, lim, btune) == Success(partshape[..])
  {
    hide Pass, Trim, Prod, NearestPower2, IsNearestPower2, PowersUpTo;
    for i := 0 to |shape|
      invariant forall k | 0 <= k < i :: partshape[k] == NearestPower2(shape[k])
    {
      partshape[i] := GetNearestPower2(shape[i]);
    }
    assert partshape[..] == NearestPowers(shape);
    NearestArePowers(shape);
    var small, fits := false, false;
    while !small && !fits
      invariant AllPowers(partshape[..]) && !(small && fits)
      invariant if small then Shrink(NearestPowers(shape), lim) == Small(partshape[..])
                else if fits then Shrink(NearestPowers(shape), lim) == Fits(partshape[..])
                else Shrink(NearestPowers(shape), lim) == Shrink(partshape[..], lim)
      decreases !small && !fits, Prod(partshape[..])
    {
      ghost var before := partshape[..];
      PassFacts(before, 0, lim);
      PassPowers(before, lim);
      small, fits := PassInPlace(partshape, lim);
      if !small && !fits { SomethingHalved(before, lim); }
    }
    var partsize := Bytes(lim.itemsize, partshape);
    if fits {
      partsize := TrimInPlace(shape, partshape, lim, btune);
    }
    ok := !(partsize > INT32_MAX || partsize <= 0);
  }

  lemma NearestArePowers(shape: seq<nat>)
    ensures AllPowers(NearestPowers(shape))
  {}

  lemma PassPowers(part: seq<nat>, lim: Limits)
    requires AllPowers(part)
    ensures AllPowers(Pass(part, 0, lim).part)
  {
    PassFacts(part, 0, lim);
  }

  /** The loop after `out`, in place. */
  method TrimInPlace(shape: seq<nat>, partshape: array<nat>, lim: Limits, btune: bool) returns (partsize: nat)
    requires partshape.Length == |shape| > 0 && AllPowers(partshape[..])
    modifies partshape
    ensures PositiveFrom(old(partshape[..]), 0)
    ensures Trim(shape, old(partshape[..]), 0, lim, btune, 0) == (partshape[..], partsize)
  {
    hide Prod;
    partsize := 0;
    AllPowersPositive(partshape[..]);
    for i := 0 to |shape|
      invariant PositiveFrom(partshape[..], i) && PositiveFrom(old(partshape[..]), 0)
      invariant Trim(shape, partshape[..], i, lim, btune, partsize) == Trim(shape, old(partshape[..]), 0, lim, btune, 0)
    {
      ghost var before := partshape[..];
      assert before[i] > 0;
      partsize := Bytes(lim.itemsize, partshape);
      if partsize < lim.minsize { return; }
      if partsize <= lim.maxsize / 2 { return; }
      if partshape[i] != 1 {
        if TooClose(shape[i], partshape[i]) {
          partshape[i] := partshape[i] / 2;
        }
        if btune && |shape| == 1 && shape[i] < partshape[i] * 4 {
          partshape[i] := partshape[i] / 4;
        }
        assert partshape[..] == before[i := SplitOnce(shape[i], before[i], btune && |before| == 1)];
      }
    }
  }

  // ---------------------------------------------------------------------
  // What the advice guarantees

  function Max(a: int, b: int): int { if a >= b then a else b }

  function Min(a: int, b: int): int { if a <= b then a else b }

  /** Main result for one call: no dimension exceeds the shape (an empty one gets
      one item), every dimension is
      a power of two (or the single one that was quartered away is zero), and the
      whole fits the maximum, or is below the minimum. */
  lemma BoxedMeets(shape: seq<nat>, lim: Limits, btune: bool)
    requires |shape| > 0 && lim.Reachable()
    ensures var part := Boxed(shape, lim, btune).0;
            && (forall i | 0 <= i < |shape| :: part[i] <= Max(shape[i], 1))
            && AllPowersOrZero(part, btune && |shape| == 1)
            && lim.Size(part) <= Max(lim.maxsize, lim.minsize - 1)
  {
    hide Pass, Trim, Prod, Shrink, Power2, Limits.Size;
    var s := Shrink(NearestPowers(shape), lim);
    NearestArePowers(shape);
    if s.Fits? {
      TrimFacts(shape, s.part, 0, lim, btune, 0);
      var part := Trim(shape, s.part, 0, lim, btune, 0).0;
      ProdMono(part, s.part);
      SizeMono(lim, part, s.part);
    }
    forall i | 0 <= i < |shape| ensures Boxed(shape, lim, btune).0[i] <= Max(shape[i], 1) {
      assert s.part[i] <= NearestPowers(shape)[i] <= Max(shape[i], 1);
    }
  }

  /** A single item, or a tenth of the partition is left over; in one dimension
      under btune (`quarter`) at least four of them fit. */
  predicate LeavesRoom(shape: nat, part: nat, quarter: bool) {
    part == 1 || (11 * part <= 10 * shape && (quarter ==> 4 * part <= shape))
  }

  /** A partition that the second loop would look at again. */
  predicate StillLarge(lim: Limits, part: seq<nat>) {
    lim.Size(part) >= lim.minsize && lim.Size(part) > lim.maxsize / 2
  }

  lemma SplitLeavesRoom(s: nat, p: nat, quarter: bool)
    requires Power2(p) && 1 < p <= s
    ensures LeavesRoom(s, SplitOnce(s, p, quarter), quarter)
  {
    CloseMeans(s, p);
  }

  lemma OneLeavesRoom(s: nat, quarter: bool)
    ensures LeavesRoom(s, 1, quarter)
  {}

  ghost predicate AllLeaveRoom(shape: seq<nat>, part: seq<nat>, quarter: bool) {
    |part| == |shape| && forall k | 0 <= k < |shape| :: LeavesRoom(shape[k], part[k], quarter)
  }

  /** The second loop, if it comes to its end, has split every axis that was too
      close to the array's extent. */
  lemma {:induction false} TrimLeavesRoom(shape: seq<nat>, part: seq<nat>, i: nat, lim: Limits, btune: bool, last: nat)
    requires |shape| == |part| && i <= |part| && AllPowers(part)
    requires forall k | 0 <= k < |part| :: part[k] <= Max(shape[k], 1)
    requires forall k | 0 <= k < i :: LeavesRoom(shape[k], part[k], btune && |part| == 1)
    ensures PositiveFrom(part, i)
    ensures var p := Trim(shape, part, i, lim, btune, last).0;
            StillLarge(lim, p) ==> AllLeaveRoom(shape, p, btune && |part| == 1)
    decreases |part| - i
  {
    AllPowersPositive(part);
    hide SplitOnce, Prod, LeavesRoom, Power2;
    var quarter := btune && |part| == 1;
    if i < |part| && StillLarge(lim, part) {
      if part[i] == 1 {
        OneLeavesRoom(shape[i], quarter);
        TrimLeavesRoom(shape, part, i + 1, lim, btune, lim.Size(part));
      } else {
        SplitFacts(shape[i], part[i], quarter);
        SplitLeavesRoom(shape[i], part[i], quarter);
        if !quarter {
          TrimLeavesRoom(shape, part[i := SplitOnce(shape[i], part[i], quarter)], i + 1, lim, btune, lim.Size(part));
        }
      }
    }
  }

  /** No axis of a large partition comes close to the array's extent, whether or
      not it reaches it; in one dimension under btune at least four of them fit. */
  lemma BoxedLeavesRoom(shape: seq<nat>, lim: Limits, btune: bool)
    requires |shape| > 0 && lim.Reachable()
    ensures StillLarge(lim, Boxed(shape, lim, btune).0) ==>
              AllLeaveRoom(shape, Boxed(shape, lim, btune).0, btune && |shape| == 1)
  {
    hide Pass, Trim, Prod, Shrink, Power2, LeavesRoom, StillLarge;
    var s := Shrink(NearestPowers(shape), lim);
    NearestArePowers(shape);
    forall k | 0 <= k < |shape| ensures s.part[k] <= Max(shape[k], 1) {
      assert s.part[k] <= NearestPowers(shape)[k];
    }
    if s.Fits? {
      TrimLeavesRoom(shape, s.part, 0, lim, btune, 0);
    } else {
      SmallIsNotLarge(lim, s.part);
    }
  }

  lemma SmallIsNotLarge(lim: Limits, part: seq<nat>)
    requires lim.Size(part) < lim.minsize
    ensures !StillLarge(lim, part)
  {}

  /** The only check that can fail is the 2 GB one. */
  lemma BoxedFailsExactly(shape: seq<nat>, lim: Limits, btune: bool)
    requires |shape| > 0 && lim.Reachable()
    ensures BoxedResult(shape, lim, btune).Failure? <==> Boxed(shape, lim, btune).1 > INT32_MAX
    ensures lim.maxsize <= INT32_MAX && lim.minsize <= INT32_MAX ==> BoxedResult(shape, lim, btune).Success?
  {
    hide Pass, Trim, Prod, Shrink, Power2;
    var s := Shrink(NearestPowers(shape), lim);
    NearestArePowers(shape);
    AllPowersPositive(s.part);
    ProdPositive(s.part);
    SizePositive(lim, s.part);
    if s.Fits? { TrimFacts(shape, s.part, 0, lim, btune, 0); }
  }

  lemma SizePositive(lim: Limits, part: seq<nat>)
    requires lim.itemsize > 0 && Prod(part) > 0
    ensures lim.Size(part) > 0
  {}

  /** When the quartering makes the single dimension vanish. */
  predicate Vanishes(s: nat, lim: Limits) {
    var (two, four) := (2 * lim.itemsize, 4 * lim.itemsize);
    || (2 <= s < 8 && lim.minsize <= two <= lim.maxsize && two > lim.maxsize / 2 &&
        (s >= 4 ==> four > lim.maxsize && four >= lim.minsize))
    || (s == 4 && lim.minsize <= four <= lim.maxsize && four > lim.maxsize / 2)
  }

  lemma SizeOfOne(lim: Limits, p: nat)
    ensures lim.Size([p]) == lim.itemsize * p
  {
    assert [p][1..] == [];
    assert Prod([p]) == p * 1;
  }

  /** Halving in one dimension. */
  lemma ShrinkOne(p: nat, lim: Limits)
    requires Power2(p) && lim.Reachable()
    ensures AllPowers([p])
    ensures lim.itemsize * p >= lim.minsize && lim.itemsize * p > lim.maxsize ==> p > 1 && AllPowers([p / 2])
    ensures Shrink([p], lim) ==
            if lim.itemsize * p < lim.minsize then Small([p])
            else if lim.itemsize * p <= lim.maxsize then Fits([p])
            else Shrink([p / 2], lim)
  {
    SizeOfOne(lim, p);
    hide Limits.Size, Prod;
    if lim.itemsize * p >= lim.minsize && lim.itemsize * p > lim.maxsize {
      assert p != 1;
      assert [p][0 := p / 2] == [p / 2];
      PassEnd([p / 2], lim);
      assert Pass([p], 0, lim) == Again([p / 2]);
    }
  }

  lemma PassEnd(part: seq<nat>, lim: Limits)
    requires |part| == 1
    ensures Pass(part, 1, lim) == Again(part)
  {}

  lemma TrimOne(s: nat, p: nat, lim: Limits, btune: bool)
    requires Power2(p) && (p <= s || p == 1)
    ensures PositiveFrom([p], 0)
    ensures var r := Trim([s], [p], 0, lim, btune, 0).0;
            r == [0] <==> btune && lim.itemsize * p >= lim.minsize && lim.itemsize * p > lim.maxsize / 2 &&
                          ((p == 2 && s < 8) || (p == 4 && s == 4))
  {
    SizeOfOne(lim, p);
    if p != 1 {
      assert [p][0 := SplitOnce(s, p, btune)] == [SplitOnce(s, p, btune)];
      SplitZero(s, p, btune);
    }
  }

  lemma SplitZero(s: nat, p: nat, quarter: bool)
    requires Power2(p) && 1 < p <= s
    ensures SplitOnce(s, p, quarter) == 0 <==> quarter && ((p == 2 && s < 8) || (p == 4 && s == 4))
  {
    CloseMeans(s, p);
    var h := p / 2;
    assert Power2(h) && p == 2 * h;
    if h == 1 {
      assert TooClose(s, p) <==> s == 2;
    } else {
      var k := h / 2;
      assert h == 2 * k;
      if k == 1 {
        assert TooClose(s, p) <==> s == 4;
      } else {
        assert p / 4 == k && h / 4 >= 1;
      }
    }
  }

  lemma CloseMeans(s: nat, p: nat)
    requires 0 < p <= s
    ensures TooClose(s, p) <==> 10 * (s - p) < p
  {
    Tenth((s - p) as real, p as real);
    assert 10 * (s - p) < p <==> 10.0 * (s - p) as real < p as real;
  }

  lemma Tenth(d: real, r: real)
    requires r > 0.0
    ensures d / r < 0.1 <==> 10.0 * d < r
  {
    var q := d / r;
    assert q * r == d;
    Scaled(q, r);
  }

  lemma Scaled(q: real, r: real)
    requires r > 0.0
    ensures q < 0.1 <==> 10.0 * (q * r) < r
  {
    if q < 0.1 { assert (0.1 - q) * r > 0.0; } else { assert (q - 0.1) * r >= 0.0; }
  }

  /** The advice in one dimension is zero exactly when the quartering vanishes it,
      which a caller can tell from the shape and the limits. */
  lemma ZeroExactly(s: nat, lim: Limits, btune: bool)
    requires lim.Reachable()
    ensures Boxed([s], lim, btune).0 == [0] <==> btune && Vanishes(s, lim)
  {
    var p := NearestPower2(s);
    assert NearestPowers([s]) == [p];
    assert AllPowers([p]);
    hide Pass, Trim, Shrink, Prod;
    if s < 8 {
      SmallShapes(s);
      ShrinkOne(1, lim);
      ShrinkOne(2, lim);
      ShrinkOne(4, lim);
      var q := Shrink([p], lim).part[0];
      assert Shrink([p], lim).part == [q];
      if Shrink([p], lim).Fits? { TrimOne(s, q, lim, btune); }
    } else {
      var q := Shrink([p], lim).part[0];
      assert Shrink([p], lim).part == [q];
      if Shrink([p], lim).Fits? { TrimOne(s, q, lim, btune); }
    }
  }

  lemma SmallShapes(s: nat)
    requires s < 8
    ensures NearestPower2(s) == if s < 2 then 1 else if s < 4 then 2 else 4
    ensures Power2(1) && Power2(2) && Power2(4)
  {
    assert Power2(2) && Power2(4);
    NearestUnique(s, NearestPower2(s), if s < 2 then 1 else if s < 4 then 2 else 4);
  }

  /** A minimum of eight items is enough to keep the advice positive. */
  lemma EightItemsSuffice(s: nat, lim: Limits, btune: bool)
    requires lim.Reachable() && lim.minsize >= 8 * lim.itemsize
    ensures Boxed([s], lim, btune).0[0] > 0
  {
    hide Boxed;
    ZeroExactly(s, lim, btune);
    var part := Boxed([s], lim, btune).0;
    assert part == [part[0]];
  }

  /** An input for which the advice is zero: four items of eight bytes, between 16 and 32 bytes. */
  lemma ZeroExample()
    ensures BoxedResult([4], Limits(8, 16, 32), true) == Success([0])
  {
    var lim := Limits(8, 16, 32);
    ZeroExactly(4, lim, true);
    hide Boxed;
    BoxedFailsExactly([4], lim, true);
  }

  // ---------------------------------------------------------------------
  // iarray_partition_advice

  datatype Favor = FavorBalance | FavorSpeed | FavorCratio

  datatype Bounds = Bounds(minChunk: nat, maxChunk: nat, minBlock: nat, maxBlock: nat)
  {
    /** Zero stands for the default. */
    function WithDefaults(favor: Favor): Bounds {
      Bounds(if minChunk == 0 then 256 * 1024 else minChunk,
             if maxChunk == 0 then 16 * 1024 * 1024 else maxChunk,
             if minBlock == 0 then 1024 else minBlock,
             if maxBlock == 0 then (if favor.FavorCratio? then 512 * 1024 else 128 * 1024) else maxBlock)
    }

    predicate Small() {
      minChunk <= INT32_MAX && maxChunk <= INT32_MAX && minBlock <= INT32_MAX && maxBlock <= INT32_MAX
    }

    function ChunkLimits(itemsize: nat): Limits { Limits(itemsize, minChunk, maxChunk) }

    /** The block's maximum is capped by the chunk it has to fit in. */
    function BlockLimits(itemsize: nat, chunksize: nat): Limits {
      Limits(itemsize, minBlock, if chunksize < maxBlock then chunksize else maxBlock)
    }
  }

  /** The single dimension is quartered away: told from the shape and the limits. */
  predicate Vanished(shape: seq<nat>, lim: Limits, btune: bool) {
    btune && |shape| == 1 && Vanishes(shape[0], lim)
  }

  /** Both halving loops get somewhere. */
  predicate Advisable(shape: seq<nat>, itemsize: nat, b: Bounds, btune: bool) {
    && |shape| > 0 && b.ChunkLimits(itemsize).Reachable()
    && (itemsize < b.minBlock || (itemsize <= b.maxBlock && !Vanished(shape, b.ChunkLimits(itemsize), btune)))
  }

  /** Every dimension is positive exactly when none is quartered away. */
  lemma PositiveExactly(shape: seq<nat>, lim: Limits, btune: bool)
    requires |shape| > 0 && lim.Reachable()
    ensures Positive(Boxed(shape, lim, btune).0) <==> !Vanished(shape, lim, btune)
  {
    hide Boxed, Vanishes, Power2;
    BoxedMeets(shape, lim, btune);
    var part := Boxed(shape, lim, btune).0;
    if btune && |shape| == 1 {
      ZeroExactly(shape[0], lim, btune);
      assert shape == [shape[0]] && part == [part[0]];
    } else {
      PowersPositive(part);
    }
  }

  lemma PowersPositive(part: seq<nat>)
    requires AllPowersOrZero(part, false)
    ensures Positive(part)
  {}

  /** What `Advisable` says of the block's loop, by the chunk shape it starts from. */
  lemma AdvisableExactly(shape: seq<nat>, itemsize: nat, b: Bounds, btune: bool)
    requires |shape| > 0 && b.ChunkLimits(itemsize).Reachable()
    ensures var chunk := Boxed(shape, b.ChunkLimits(itemsize), btune).0;
            Advisable(shape, itemsize, b, btune) <==> b.BlockLimits(itemsize, itemsize * Prod(chunk)).Reachable()
  {
    hide Boxed, Vanishes;
    var chunk := Boxed(shape, b.ChunkLimits(itemsize), btune).0;
    PositiveExactly(shape, b.ChunkLimits(itemsize), btune);
    if Positive(chunk) {
      ProdPositive(chunk);
      MulMono(1, Prod(chunk), itemsize);
    } else {
      var i :| 0 <= i < |chunk| && chunk[i] == 0;
      ProdZero(chunk, i);
    }
  }

  /** iarray_partition_advice: the chunk shape, then the block shape inside it. */
  method PartitionAdvice(shape: seq<nat>, itemsize: nat, bounds: Bounds, favor: Favor, btune: bool)
    returns (r: Result<(seq<nat>, seq<nat>)>)
    requires Advisable(shape, itemsize, bounds.WithDefaults(favor), btune)
    ensures var b := bounds.WithDefaults(favor);
            var chunk := BoxedResult(shape, b.ChunkLimits(itemsize), btune);
            if chunk.Failure? then r == Failure(InvalidChunkshape)
            else
              var limits := b.BlockLimits(itemsize, itemsize * Prod(chunk.value));
              limits.Reachable() &&
              var block := BoxedResult(chunk.value, limits, btune);
              if block.Failure? then r == Failure(InvalidChunkshape) else r == Success((chunk.value, block.value))
    ensures bounds.WithDefaults(favor).Small() ==> r.Success?
    ensures r.Success? ==> GoodAdvice(shape, itemsize, bounds.WithDefaults(favor), btune, r.value.0, r.value.1)
  {
    AdviceMeets(shape, itemsize, bounds.WithDefaults(favor), btune);
    BoxedFailsExactly(shape, bounds.WithDefaults(favor).ChunkLimits(itemsize), btune);
    hide GoodAdvice;
    hide Pass, Trim, Prod, Shrink, Boxed, NearestPowers;
    var maxBlock := bounds.maxBlock;
    if maxBlock == 0 {
      match favor {
        case FavorCratio => maxBlock := 512 * 1024;
        case FavorSpeed => maxBlock := 128 * 1024;
        case FavorBalance => maxBlock := 128 * 1024;
      }
    }
    var minBlock := if bounds.minBlock == 0 then 1024 else bounds.minBlock;
    var maxChunk := if bounds.maxChunk == 0 then 16 * 1024 * 1024 else bounds.maxChunk;
    var minChunk := if bounds.minChunk == 0 then 256 * 1024 else bounds.minChunk;
    var chunkshape, blockshape := new nat[|shape|], new nat[|shape|];
    var ok := BoxedOptimPartition(shape, chunkshape, Limits(itemsize, minChunk, maxChunk), btune);
    if !ok {
      return Failure(InvalidChunkshape);
    }
    var chunk := chunkshape[..];
    var chunksize := Bytes(itemsize, chunkshape);
    if chunksize < maxBlock {
      maxBlock := chunksize;
    }
    BoxedFailsExactly(chunk, Limits(itemsize, minBlock, maxBlock), btune);
    ok := BoxedOptimPartition(chunk, blockshape, Limits(itemsize, minBlock, maxBlock), btune);
    if !ok {
      return Failure(InvalidChunkshape);
    }
    r := Success((chunk, blockshape[..]));
  }

  /** What advice is worth.  The chunk stays within the array and its bytes; unless
      that would leave it below half of the maximum, it leaves room on every axis,
      and so does the block in the chunk.  The chunk is positive exactly when the
      array's single dimension is not quartered away.  Then the block stays within
      the chunk and its bytes, and it is positive exactly when the chunk's dimension
      is not quartered away; and then blocks divide chunks exactly, in every
      dimension.  Minima of eight items are enough. */
  ghost predicate GoodAdvice(shape: seq<nat>, itemsize: nat, b: Bounds, btune: bool, chunk: seq<nat>, block: seq<nat>) {
    var limits := b.BlockLimits(itemsize, itemsize * Prod(chunk));
    && |chunk| == |block| == |shape|
    && (forall i | 0 <= i < |shape| :: chunk[i] <= Max(shape[i], 1) && block[i] <= Max(chunk[i], 1))
    && itemsize * Prod(chunk) <= Max(b.maxChunk, b.minChunk - 1)
    && itemsize * Prod(block) <= Max(Min(b.maxBlock, itemsize * Prod(chunk)), b.minBlock - 1)
    && (StillLarge(b.ChunkLimits(itemsize), chunk) ==> AllLeaveRoom(shape, chunk, btune && |shape| == 1))
    && (StillLarge(limits, block) ==> AllLeaveRoom(chunk, block, btune && |shape| == 1))
    && (Positive(chunk) <==> !Vanished(shape, b.ChunkLimits(itemsize), btune))
    && (Positive(block) <==> !Vanished(chunk, limits, btune))
    && (!Vanished(shape, b.ChunkLimits(itemsize), btune) && !Vanished(chunk, limits, btune) ==> Divides(block, chunk))
    && ((btune && |shape| == 1 ==> b.minChunk >= 8 * itemsize && b.minBlock >= 8 * itemsize) ==> Divides(block, chunk))
  }

  /** Positive blocks that fill every dimension of the chunk exactly. */
  ghost predicate Divides(block: seq<nat>, chunk: seq<nat>) {
    |block| == |chunk| && forall i | 0 <= i < |chunk| :: 0 < block[i] <= chunk[i] && chunk[i] % block[i] == 0
  }

  lemma PowersDivide(block: seq<nat>, chunk: seq<nat>, quarter: bool)
    requires |block| == |chunk| && Positive(chunk) && Positive(block)
    requires AllPowersOrZero(chunk, quarter) && AllPowersOrZero(block, quarter)
    requires forall i | 0 <= i < |chunk| :: block[i] <= Max(chunk[i], 1)
    ensures Divides(block, chunk)
  {
    hide Power2;
    forall i | 0 <= i < |chunk| ensures 0 < block[i] <= chunk[i] && chunk[i] % block[i] == 0 {
      PowerDivides(block[i], chunk[i]);
    }
  }

  /** Eight items rule out the quartering to zero. */
  lemma EightItemsKeep(shape: seq<nat>, lim: Limits, btune: bool)
    requires lim.itemsize > 0 && (btune && |shape| == 1 ==> lim.minsize >= 8 * lim.itemsize)
    ensures !Vanished(shape, lim, btune)
  {}

  /** Main result for the advisor, on every input for which its loops end. */
  lemma AdviceMeets(shape: seq<nat>, itemsize: nat, b: Bounds, btune: bool)
    requires Advisable(shape, itemsize, b, btune)
    ensures var chunk := Boxed(shape, b.ChunkLimits(itemsize), btune).0;
            var limits := b.BlockLimits(itemsize, itemsize * Prod(chunk));
            && limits.Reachable()
            && GoodAdvice(shape, itemsize, b, btune, chunk, Boxed(chunk, limits, btune).0)
  {
    AdvisableExactly(shape, itemsize, b, btune);
    var chunk := Boxed(shape, b.ChunkLimits(itemsize), btune).0;
    var limits := b.BlockLimits(itemsize, itemsize * Prod(chunk));
    var block := Boxed(chunk, limits, btune).0;
    hide Boxed, Prod, Vanished, Advisable, AllPowersOrZero, StillLarge, AllLeaveRoom;
    BoxedLeavesRoom(shape, b.ChunkLimits(itemsize), btune);
    BoxedLeavesRoom(chunk, limits, btune);
    BoxedMeets(shape, b.ChunkLimits(itemsize), btune);
    BoxedMeets(chunk, limits, btune);
    PositiveExactly(shape, b.ChunkLimits(itemsize), btune);
    PositiveExactly(chunk, limits, btune);
    if btune && |shape| == 1 ==> b.minChunk >= 8 * itemsize && b.minBlock >= 8 * itemsize {
      EightItemsKeep(shape, b.ChunkLimits(itemsize), btune);
      EightItemsKeep(chunk, limits, btune);
    }
    if Positive(chunk) && Positive(block) { PowersDivide(block, chunk, btune && |shape| == 1); }
  }
}
