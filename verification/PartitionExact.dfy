/** Exactly which partition boxed_optim_partition ends with (src/iarray.c),
    told without its two loops: how often each axis has been halved, which axes
    have been split once more, and where either stops. */
module PartitionExact {
  import opened Arith
  import opened Layout
  import opened Errors
  import opened Partition

  // ---------------------------------------------------------------------
  // The halving turns

  /** `p` halved `times` times, never below one item. */
  function Halved(p: nat, times: nat): nat
    decreases times
  {
    if times == 0 || p <= 1 then p else Halved(p / 2, times - 1)
  }

  /** How many of the first `t` turns fall on axis `k`, when they go round `n` axes. */
  function TurnsOn(n: nat, t: nat, k: nat): nat
    requires n > 0
  {
    t / n + (if k < t % n then 1 else 0)
  }

  /** The partition after `t` turns. */
  function AfterTurns(part: seq<nat>, t: nat): (r: seq<nat>)
    requires |part| > 0
    ensures |r| == |part|
  {
    seq(|part|, k requires 0 <= k < |part| => Halved(part[k], TurnsOn(|part|, t, k)))
  }

  /** Neither small enough to give up nor within the maximum. */
  predicate TooLarge(lim: Limits, part: seq<nat>) {
    lim.Size(part) >= lim.minsize && lim.Size(part) > lim.maxsize
  }

  /** `t` is the first turn that finds nothing left to halve. */
  ghost predicate StopsAt(part: seq<nat>, lim: Limits, t: nat)
    requires |part| > 0
  {
    !TooLarge(lim, AfterTurns(part, t)) && forall u: nat | u < t :: TooLarge(lim, AfterTurns(part, u))
  }

  lemma {:induction false} HalvedOnceMore(p: nat, times: nat)
    requires Power2(p)
    ensures var h := Halved(p, times);
            h > 0 && Halved(p, times + 1) == if h == 1 then 1 else h / 2
    decreases times
  {
    if times > 0 && p > 1 { HalvedOnceMore(p / 2, times - 1); }
  }

  lemma NextTurn(n: nat, c: nat, i: nat, k: nat)
    requires i < n && k < n
    ensures TurnsOn(n, c * n + i + 1, k) == TurnsOn(n, c * n + i, k) + if k == i then 1 else 0
  {
    QuotientUnique(c * n + i, n, c, i);
    if i + 1 < n {
      QuotientUnique(c * n + i + 1, n, c, i + 1);
    } else {
      assert c * n + i + 1 == (c + 1) * n;
      QuotientUnique(c * n + i + 1, n, c + 1, 0);
    }
  }

  lemma AfterOneTurn(part: seq<nat>, c: nat, i: nat)
    requires i < |part| && AllPowers(part)
    ensures var now := AfterTurns(part, c * |part| + i);
            AfterTurns(part, c * |part| + i + 1) == if now[i] == 1 then now else now[i := now[i] / 2]
  {
    hide Halved, TurnsOn, Power2;
    var now, next := AfterTurns(part, c * |part| + i), AfterTurns(part, c * |part| + i + 1);
    forall k | 0 <= k < |part| ensures next[k] == if k != i then now[k] else if now[i] == 1 then 1 else now[i] / 2 {
      NextTurn(|part|, c, i, k);
      HalvedOnceMore(part[k], TurnsOn(|part|, c * |part| + i, k));
    }
  }

  /** One pass of the loop is one turn on every axis, or stops before. */
  lemma {:induction false} PassIsTurns(part: seq<nat>, c: nat, i: nat, lim: Limits) returns (t: nat)
    requires 0 < |part| && i <= |part| && AllPowers(part)
    ensures var s := Pass(AfterTurns(part, c * |part| + i), i, lim);
            && s.part == AfterTurns(part, t) && c * |part| + i <= t
            && (forall u | c * |part| + i <= u < t :: TooLarge(lim, AfterTurns(part, u)))
            && (if s.Again? then t == (c + 1) * |part| else !TooLarge(lim, AfterTurns(part, t)))
    decreases |part| - i
  {
    hide AfterTurns, AllPowers, Limits.Size;
    t := c * |part| + i;
    if i == |part| {
      assert (c + 1) * |part| == c * |part| + |part|;
    } else if TooLarge(lim, AfterTurns(part, t)) {
      AfterOneTurn(part, c, i);
      var now := t;
      assert c * |part| + (i + 1) == now + 1;
      t := PassIsTurns(part, c, i + 1, lim);
      forall u | now <= u < t ensures TooLarge(lim, AfterTurns(part, u)) {
        if u > now { assert now + 1 <= u; }
      }
    }
  }

  /** The whole loop is turns up to the first that stops. */
  lemma {:induction false} ShrinkIsTurns(part: seq<nat>, c: nat, lim: Limits) returns (t: nat)
    requires 0 < |part| && AllPowers(part) && lim.Reachable() && AllPowers(AfterTurns(part, c * |part|))
    requires forall u: nat | u < c * |part| :: TooLarge(lim, AfterTurns(part, u))
    ensures StopsAt(part, lim, t) && Shrink(AfterTurns(part, c * |part|), lim).part == AfterTurns(part, t)
    decreases Prod(AfterTurns(part, c * |part|))
  {
    var now := AfterTurns(part, c * |part|);
    hide AfterTurns, AllPowers, Limits.Size, Pass, Limits.Reachable, TooLarge, Prod;
    t := PassIsTurns(part, c, 0, lim);
    if Pass(now, 0, lim).Again? {
      PassPowers(now, lim);
      SomethingHalved(now, lim);
      t := ShrinkIsTurns(part, c + 1, lim);
    }
  }

  lemma NoTurns(part: seq<nat>)
    requires |part| > 0
    ensures AfterTurns(part, 0) == part
  {}

  // ---------------------------------------------------------------------
  // The axes split once more

  /** What is left of an axis of the partition that is looked at again. */
  function Resplit(shape: nat, part: nat, quarter: bool): nat {
    var room := if 11 * part > 10 * shape then part / 2 else part;
    if part == 1 then 1 else if quarter && 4 * room > shape then room / 4 else room
  }

  /** The first `j` axes looked at again. */
  function FirstResplit(shape: seq<nat>, part: seq<nat>, j: nat, quarter: bool): (r: seq<nat>)
    requires |shape| == |part|
    ensures |r| == |part|
  {
    seq(|part|, k requires 0 <= k < |part| => if k < j then Resplit(shape[k], part[k], quarter) else part[k])
  }

  /** `j` is the first axis that is not looked at again. */
  ghost predicate ResplitTo(shape: seq<nat>, part: seq<nat>, lim: Limits, quarter: bool, j: nat)
    requires |shape| == |part|
  {
    && j <= |part|
    && (j < |part| ==> !StillLarge(lim, FirstResplit(shape, part, j, quarter)))
    && forall i: nat | i < j :: StillLarge(lim, FirstResplit(shape, part, i, quarter))
  }

  lemma SplitIsResplit(shape: nat, part: nat, quarter: bool)
    requires 1 < part <= shape
    ensures SplitOnce(shape, part, quarter) == Resplit(shape, part, quarter)
  {
    CloseMeans(shape, part);
  }

  /** The size that the check at the end sees: of the last partition looked at. */
  function CheckedSize(shape: seq<nat>, part: seq<nat>, lim: Limits, quarter: bool, j: nat): nat
    requires |shape| == |part| > 0
  {
    lim.Size(FirstResplit(shape, part, Min(j, |part| - 1), quarter))
  }

  lemma {:induction false} TrimIsResplit(shape: seq<nat>, start: seq<nat>, i: nat, lim: Limits, btune: bool, last: nat)
      returns (j: nat)
    requires |shape| == |start| > 0 && i <= |start| && AllPowers(start)
    requires forall k | 0 <= k < |start| :: start[k] <= Max(shape[k], 1)
    requires var quarter := btune && |start| == 1;
             && (forall m: nat | m < i :: StillLarge(lim, FirstResplit(shape, start, m, quarter)))
             && (i == |start| ==> last == lim.Size(FirstResplit(shape, start, i - 1, quarter)))
    ensures var quarter := btune && |start| == 1;
            var now := FirstResplit(shape, start, i, quarter);
            && PositiveFrom(now, i) && ResplitTo(shape, start, lim, quarter, j)
            && Trim(shape, now, i, lim, btune, last) ==
               (FirstResplit(shape, start, j, quarter), CheckedSize(shape, start, lim, quarter, j))
    decreases |start| - i
  {
    AllPowersPositive(start);
    hide Resplit, Limits.Size, Power2, SplitOnce, AllPowers;
    var quarter := btune && |start| == 1;
    var now := FirstResplit(shape, start, i, quarter);
    j := i;
    if i < |start| && StillLarge(lim, now) {
      NextResplit(shape, start, i, quarter);
      j := TrimIsResplit(shape, start, i + 1, lim, btune, lim.Size(now));
    }
  }

  lemma NextResplit(shape: seq<nat>, start: seq<nat>, i: nat, quarter: bool)
    requires |shape| == |start| && i < |start| && 0 < start[i] <= Max(shape[i], 1)
    ensures var now := FirstResplit(shape, start, i, quarter);
            && now[i] == start[i]
            && FirstResplit(shape, start, i + 1, quarter) ==
               if start[i] == 1 then now else now[i := SplitOnce(shape[i], start[i], quarter)]
  {
    if start[i] > 1 { SplitIsResplit(shape[i], start[i], quarter); }
    hide SplitOnce;
  }

  // ---------------------------------------------------------------------
  // Main results

  /** The partition `part` and the size `size` that is checked for it: the powers
      of two below the shape, `t` turns of halving, and the axes before `j` split
      once more, unless the turns went below the minimum. */
  ghost predicate Found(shape: seq<nat>, lim: Limits, btune: bool, t: nat, j: nat, part: seq<nat>, size: nat)
    requires |shape| > 0
  {
    var start := AfterTurns(NearestPowers(shape), t);
    var quarter := btune && |shape| == 1;
    && StopsAt(NearestPowers(shape), lim, t)
    && if lim.Size(start) < lim.minsize then j == 0 && part == start && size == lim.Size(start)
       else ResplitTo(shape, start, lim, quarter, j) && part == FirstResplit(shape, start, j, quarter) &&
            size == CheckedSize(shape, start, lim, quarter, j)
  }

  /** Main result: the shape that the two loops leave is the one described. */
  lemma BoxedIsFound(shape: seq<nat>, lim: Limits, btune: bool) returns (t: nat, j: nat)
    requires |shape| > 0 && lim.Reachable()
    ensures var (part, size) := Boxed(shape, lim, btune); Found(shape, lim, btune, t, j, part, size)
  {
    var powers := NearestPowers(shape);
    NearestArePowers(shape);
    NoTurns(powers);
    assert 0 * |powers| == 0;
    t := ShrinkIsTurns(powers, 0, lim);
    var s := Shrink(powers, lim);
    forall k | 0 <= k < |shape| ensures s.part[k] <= Max(shape[k], 1) {
      assert s.part[k] <= powers[k];
    }
    hide AfterTurns, AllPowers, Limits.Size, Shrink, StopsAt, Trim, NearestPowers, Power2, ResplitTo, CheckedSize;
    j := 0;
    if s.Fits? {
      StartOver(shape, s.part, btune);
      j := TrimIsResplit(shape, s.part, 0, lim, btune, 0);
    }
  }

  lemma StartOver(shape: seq<nat>, part: seq<nat>, btune: bool)
    requires |shape| == |part|
    ensures FirstResplit(shape, part, 0, btune && |part| == 1) == part
  {}

  lemma StopsOnce(part: seq<nat>, lim: Limits, t: nat, u: nat)
    requires |part| > 0 && StopsAt(part, lim, t) && StopsAt(part, lim, u)
    ensures t == u
  {
    hide AfterTurns, TooLarge;
  }

  lemma ResplitOnce(shape: seq<nat>, part: seq<nat>, lim: Limits, quarter: bool, i: nat, j: nat)
    requires |shape| == |part| && ResplitTo(shape, part, lim, quarter, i) && ResplitTo(shape, part, lim, quarter, j)
    ensures i == j
  {
    hide FirstResplit, StillLarge;
  }

  /** And nothing else is: the description fixes the shape and the size. */
  lemma FoundExactly(shape: seq<nat>, lim: Limits, btune: bool, t: nat, j: nat, part: seq<nat>, size: nat)
    requires |shape| > 0 && lim.Reachable() && Found(shape, lim, btune, t, j, part, size)
    ensures (part, size) == Boxed(shape, lim, btune)
  {
    var t', j' := BoxedIsFound(shape, lim, btune);
    hide AfterTurns, Limits.Size, NearestPowers, StopsAt, ResplitTo, Boxed;
    StopsOnce(NearestPowers(shape), lim, t, t');
    var start := AfterTurns(NearestPowers(shape), t);
    if lim.Size(start) >= lim.minsize { ResplitOnce(shape, start, lim, btune && |shape| == 1, j, j'); }
  }

  /** The check at the end is the only failure, and what passes it is at most 2 GB. */
  lemma CheckedExactly(shape: seq<nat>, lim: Limits, btune: bool, t: nat, j: nat, part: seq<nat>, size: nat)
    requires |shape| > 0 && lim.Reachable() && Found(shape, lim, btune, t, j, part, size)
    ensures BoxedResult(shape, lim, btune) ==
            if size > 2147483647 then Failure(InvalidChunkshape) else Success(part)
    ensures lim.Size(part) <= size
  {
    FoundExactly(shape, lim, btune, t, j, part, size);
    BoxedFailsExactly(shape, lim, btune);
    hide AfterTurns, NearestPowers, StopsAt, ResplitTo, Boxed, Limits.Size, Resplit;
    var start, quarter := AfterTurns(NearestPowers(shape), t), btune && |shape| == 1;
    if lim.Size(start) >= lim.minsize {
      ResplitShrinks(shape, start, Min(j, |shape| - 1), j, quarter);
      ProdMono(part, FirstResplit(shape, start, Min(j, |shape| - 1), quarter));
      SizeMono(lim, part, FirstResplit(shape, start, Min(j, |shape| - 1), quarter));
    }
  }

  lemma ResplitShrinks(shape: seq<nat>, part: seq<nat>, i: nat, j: nat, quarter: bool)
    requires |shape| == |part| && i <= j
    ensures forall k | 0 <= k < |part| ::
              FirstResplit(shape, part, j, quarter)[k] <= FirstResplit(shape, part, i, quarter)[k]
  {}

  // ---------------------------------------------------------------------
  // What the description says of the halving

  lemma {:induction false} HalvedIsPower(p: nat, times: nat)
    requires Power2(p)
    ensures Power2(Halved(p, times))
    decreases times
  {
    if times > 0 && p > 1 { HalvedIsPower(p / 2, times - 1); }
  }

  lemma TurnsKeepPowers(part: seq<nat>, t: nat)
    requires |part| > 0 && AllPowers(part)
    ensures AllPowers(AfterTurns(part, t))
  {
    hide Halved, TurnsOn, Power2;
    forall k | 0 <= k < |part| ensures Power2(AfterTurns(part, t)[k]) {
      HalvedIsPower(part[k], TurnsOn(|part|, t, k));
    }
  }

  /** No turn too many: undoing the last one would pass the maximum. */
  lemma HalvedJustEnough(part: seq<nat>, lim: Limits, t: nat)
    requires |part| > 0 && AllPowers(part) && StopsAt(part, lim, t) && t > 0
    ensures 2 * lim.Size(AfterTurns(part, t)) > lim.maxsize
  {
    var n := |part|;
    var c, i := (t - 1) / n, (t - 1) % n;
    DivModParts(t - 1, n);
    var before := AfterTurns(part, t - 1);
    assert TooLarge(lim, before);
    TurnsKeepPowers(part, t - 1);
    AfterOneTurn(part, c, i);
    hide AfterTurns, Prod, AllPowers;
    if before[i] > 1 { ProdHalved(before, i); }
    Double(lim.itemsize, Prod(AfterTurns(part, t)));
  }

  lemma {:induction false} HalvedLess(p: nat, times: nat)
    requires Power2(p)
    ensures Halved(p, times + 1) <= Halved(p, times) <= 2 * Halved(p, times + 1)
    decreases times
  {
    if times > 0 && p > 1 { HalvedLess(p / 2, times - 1); }
  }

  /** The box is as square as powers of two allow: where two axes start alike, the
      earlier ends at most one halving smaller. */
  lemma SquareBox(part: seq<nat>, t: nat, k: nat, l: nat)
    requires k < l < |part| && part[k] == part[l] && Power2(part[k])
    ensures var box := AfterTurns(part, t); box[k] <= box[l] <= 2 * box[k]
  {
    HalvedLess(part[k], t / |part|);
    hide Halved;
  }

  // ---------------------------------------------------------------------
  // An array that is its own nearest power of two

  lemma SomePowers()
    ensures Power2(128) && Power2(1024) && Power2(2048)
  {
    assert Power2(16);
    assert Power2(128);
    assert Power2(1024);
  }

  lemma SizeOfTwo(lim: Limits, a: nat, b: nat)
    ensures lim.Size([a, b]) == lim.itemsize * (a * b)
  {
    assert [a, b][1..] == [b] && [b][1..] == [];
    assert Prod([b]) == b * 1;
  }

  lemma PowersOfTwo(a: nat, b: nat)
    requires Power2(a) && Power2(b)
    ensures NearestPowers([a, b]) == [a, b]
  {
    NearestUnique(a, NearestPower2(a), a);
    NearestUnique(b, NearestPower2(b), b);
    hide NearestPower2;
  }

  /** By default a 2048 x 1024 array of eight-byte items is never one chunk: the
      first axis is split once more, and blocks are 128 x 128, or 256 x 256 where the
      ratio is favoured. */
  lemma DefaultExample()
    ensures var b := Bounds(0, 0, 0, 0).WithDefaults(FavorBalance);
            && BoxedResult([2048, 1024], b.ChunkLimits(8), false) == Success([1024, 1024])
            && BoxedResult([1024, 1024], b.BlockLimits(8, 8 * Prod([1024, 1024])), false) == Success([128, 128])
    ensures var b := Bounds(0, 0, 0, 0).WithDefaults(FavorCratio);
            BoxedResult([1024, 1024], b.BlockLimits(8, 8 * Prod([1024, 1024])), false) == Success([256, 256])
  {
    hide Prod, BoxedResult;
    ChunkExample();
    BlockExample(6, 128);
    BlockExample(4, 256);
    SizeOfTwo(Limits(8, 0, 0), 1024, 1024);
  }

  lemma ChunkExample()
    ensures BoxedResult([2048, 1024], Limits(8, 262144, 16777216), false) == Success([1024, 1024])
  {
    hide Limits.Size, Prod, NearestPowers, AfterTurns, Power2, Boxed, BoxedResult;
    var lim := Limits(8, 262144, 16777216);
    SomePowers();
    PowersOfTwo(2048, 1024);
    NoTurns([2048, 1024]);
    SizeOfTwo(lim, 2048, 1024);
    SizeOfTwo(lim, 1024, 1024);
    StartOver([2048, 1024], [2048, 1024], false);
    assert FirstResplit([2048, 1024], [2048, 1024], 1, false) == [1024, 1024];
    CheckedExactly([2048, 1024], lim, false, 0, 1, [1024, 1024], 8388608);
  }

  lemma BlockExample(t: nat, p: nat)
    requires (t == 6 && p == 128) || (t == 4 && p == 256)
    ensures BoxedResult([1024, 1024], Limits(8, 1024, 8 * p * p), false) == Success([p, p])
  {
    hide Limits.Size, Prod, NearestPowers, AfterTurns, Power2, Boxed, BoxedResult;
    var lim := Limits(8, 1024, 8 * p * p);
    SomePowers();
    PowersOfTwo(1024, 1024);
    SquareTurns(lim, t, p);
    StartOver([1024, 1024], [p, p], false);
    assert FirstResplit([1024, 1024], [p, p], 2, false) == [p, p];
    assert FirstResplit([1024, 1024], [p, p], 1, false) == [p, p];
    CheckedExactly([1024, 1024], lim, false, t, 2, [p, p], 8 * p * p);
  }

  lemma SquareTurns(lim: Limits, t: nat, p: nat)
    requires ((t == 6 && p == 128) || (t == 4 && p == 256)) && lim == Limits(8, 1024, 8 * p * p)
    ensures StopsAt([1024, 1024], lim, t) && AfterTurns([1024, 1024], t) == [p, p]
    ensures lim.Size([p, p]) == 8 * p * p
  {
    hide Limits.Size, Prod;
    assert Halved(1024, 1) == 512 && Halved(1024, 2) == 256;
    assert Halved(1024, 3) == 128 by { assert Halved(512, 2) == 128; }
    forall u: nat | u <= t
      ensures AfterTurns([1024, 1024], u) == [Halved(1024, (u + 1) / 2), Halved(1024, u / 2)]
    {}
    forall u: nat | u < t ensures TooLarge(lim, AfterTurns([1024, 1024], u)) {
      SizeOfTwo(lim, Halved(1024, (u + 1) / 2), Halved(1024, u / 2));
    }
    SizeOfTwo(lim, p, p);
  }
}
