/** Finite sums, and the sum over an axis taken chunk by chunk and block by block. */
module Sums {
  import opened Arith
  import opened Geometry
  import opened AxisReduce

  function SumTo(f: nat -> int, n: nat): int {
    if n == 0 then 0 else SumTo(f, n - 1) + f(n - 1)
  }

  lemma {:induction false} SumSame(f: nat -> int, g: nat -> int, n: nat)
    requires forall k | 0 <= k < n :: f(k) == g(k)
    ensures SumTo(f, n) == SumTo(g, n)
  {
    if n > 0 { SumSame(f, g, n - 1); }
  }

  lemma {:induction false} SumZero(f: nat -> int, n: nat)
    requires forall k | 0 <= k < n :: f(k) == 0
    ensures SumTo(f, n) == 0
  {
    if n > 0 { SumZero(f, n - 1); }
  }

  /** Terms that vanish at the end can be left out. */
  lemma {:induction false} SumDropZeros(f: nat -> int, m: nat, n: nat)
    requires m <= n && forall k | m <= k < n :: f(k) == 0
    ensures SumTo(f, n) == SumTo(f, m)
  {
    if m < n { SumDropZeros(f, m, n - 1); }
  }

  /** A run of the axis adds its own terms; slots past the run contribute nothing. */
  lemma {:induction false} SumRun(f: nat -> int, g: nat -> int, start: nat, len: nat, n: nat)
    requires len <= n
    requires forall k | 0 <= k < len :: g(k) == f(start + k)
    requires forall k | len <= k < n :: g(k) == 0
    ensures SumTo(g, n) == SumTo(f, start + len) - SumTo(f, start)
    decreases n
  {
    if n > len {
      SumRun(f, g, start, len, n - 1);
    } else if n > 0 {
      SumRun(f, g, start, len - 1, n - 1);
    }
  }

  // ---------------------------------------------------------------------
  // The sum over an axis, chunk by chunk and block by block

  /** What slot `k` of block `b` of chunk `c` along the axis contributes. */
  type AxisSlot = (nat, nat, nat) -> int

  function InBlock(slot: AxisSlot, c: nat, b: nat): nat -> int {
    (k: nat) => slot(c, b, k)
  }

  /** Contribution of each block of chunk `c`. */
  function PerBlock(B: nat, slot: AxisSlot, c: nat): nat -> int {
    (b: nat) => SumTo(InBlock(slot, c, b), B)
  }

  /** Contribution of each chunk. */
  function PerChunk(C: nat, B: nat, slot: AxisSlot): nat -> int
    requires B > 0
  {
    (c: nat) => SumTo(PerBlock(B, slot, c), CeilDiv(C, B))
  }

  /** Slots of the axis hold the terms of `f`, padding slots contribute nothing. */
  ghost predicate SlotsHold(S: nat, C: nat, B: nat, f: nat -> int, slot: AxisSlot)
    requires C > 0 && B > 0
  {
    forall c: nat, b: nat, k: nat | c < CeilDiv(S, C) && b < CeilDiv(C, B) && k < B ::
      slot(c, b, k) == if InChunk(B, b, k) < C && Pos(C, B, c, b, k) < S then f(Pos(C, B, c, b, k)) else 0
  }

  /** Summing over all slots of all blocks of all chunks is summing over the axis. */
  lemma SumOverAxis(S: nat, C: nat, B: nat, f: nat -> int, slot: AxisSlot)
    requires C > 0 && B > 0 && SlotsHold(S, C, B, f, slot)
    ensures SumTo(PerChunk(C, B, slot), CeilDiv(S, C)) == SumTo(f, S)
  {
    hide Covered, SumTo, SlotsHold, PerChunk;
    SumChunks(S, C, B, f, slot, CeilDiv(S, C));
    RunsEnd(S, C, B);
  }

  lemma {:induction false} SumChunks(S: nat, C: nat, B: nat, f: nat -> int, slot: AxisSlot, n: nat)
    requires C > 0 && B > 0 && n <= CeilDiv(S, C) && SlotsHold(S, C, B, f, slot)
    ensures SumTo(PerChunk(C, B, slot), n) == SumTo(f, Covered(S, C, B, n, 0))
    decreases n
  {
    hide Covered, SlotsHold, PerBlock;
    RunsStart(S, C, B);
    if n > 0 {
      SumChunks(S, C, B, f, slot, n - 1);
      SumBlocks(S, C, B, f, slot, n - 1, CeilDiv(C, B));
      RunsNextChunk(S, C, B, n - 1);
    }
  }

  lemma {:induction false} SumBlocks(S: nat, C: nat, B: nat, f: nat -> int, slot: AxisSlot, c: nat, n: nat)
    requires C > 0 && B > 0 && c < CeilDiv(S, C) && n <= CeilDiv(C, B) && SlotsHold(S, C, B, f, slot)
    ensures SumTo(PerBlock(B, slot, c), n) == SumTo(f, Covered(S, C, B, c, n)) - SumTo(f, Covered(S, C, B, c, 0))
    decreases n
  {
    hide Covered, SlotsHold;
    if n > 0 {
      SumBlocks(S, C, B, f, slot, c, n - 1);
      SumOneRun(S, C, B, f, slot, c, n - 1);
    }
  }

  lemma SumOneRun(S: nat, C: nat, B: nat, f: nat -> int, slot: AxisSlot, c: nat, b: nat)
    requires C > 0 && B > 0 && c < CeilDiv(S, C) && b < CeilDiv(C, B) && SlotsHold(S, C, B, f, slot)
    ensures SumTo(InBlock(slot, c, b), B) == SumTo(f, Covered(S, C, B, c, b + 1)) - SumTo(f, Covered(S, C, B, c, b))
  {
    hide Covered, VectorNelems, SumTo;
    RunsAreConsecutive(S, C, B, c, b);
    var len := VectorNelems(S, C, B, c, b);
    RunIsInside(S, C, B, c, b);
    SumRun(f, InBlock(slot, c, b), Covered(S, C, B, c, b), if len > 0 then len else 0, B);
  }

  /** The slots of a run are the ones inside chunk and array. */
  lemma RunIsInside(S: nat, C: nat, B: nat, c: nat, b: nat)
    requires C > 0 && B > 0 && c < CeilDiv(S, C) && b < CeilDiv(C, B)
    ensures forall k: nat | k < B :: (InChunk(B, b, k) < C && Pos(C, B, c, b, k) < S) <==>
              k < VectorNelems(S, C, B, c, b)
    ensures VectorNelems(S, C, B, c, b) <= B
  {
    CeilDivBelow(c, S, C);
    CeilDivBelow(b, C, B);
  }
}
