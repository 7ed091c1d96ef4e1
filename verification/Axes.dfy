/** Reduced and kept axes: projecting a coordinate on the kept axes, and the
    boxes of input coordinates that collapse onto one output coordinate. */
module Axes {
  import opened Lists
  import opened Geometry

  /** The components of `x` on the axes that are not reduced, in order. */
  function Project(x: seq<nat>, reduced: seq<bool>): (y: seq<nat>)
    requires |x| == |reduced|
    ensures |y| == Kept(reduced)
  {
    if x == [] then [] else (if reduced[0] then [] else [x[0]]) + Project(x[1..], reduced[1..])
  }

  function Kept(reduced: seq<bool>): nat {
    if reduced == [] then 0 else (if reduced[0] then 0 else 1) + Kept(reduced[1..])
  }

  /** Exclusive upper corner of the box for output index `y`: the whole extent
      `full[i]` on reduced axes, one past the output index on kept axes. */
  function Upper(y: Index, full: seq<nat>, reduced: seq<bool>): (s: Index)
    requires |full| == |reduced| && |y| == Kept(reduced)
    ensures |s| == |full|
  {
    if full == [] then []
    else if reduced[0] then [full[0]] + Upper(y, full[1..], reduced[1..])
    else [y[0] + 1] + Upper(y[1..], full[1..], reduced[1..])
  }

  /** Lower corner: zero on reduced axes, the output index on kept axes. */
  function Lower(y: Index, reduced: seq<bool>): (s: Index)
    requires |y| == Kept(reduced)
    ensures |s| == |reduced|
  {
    if reduced == [] then []
    else if reduced[0] then [0] + Lower(y, reduced[1..])
    else [y[0]] + Lower(y[1..], reduced[1..])
  }

  ghost predicate BelowOnReduced(x: Index, full: seq<nat>, reduced: seq<bool>) {
    && |x| == |full| == |reduced|
    && forall i | 0 <= i < |x| && reduced[i] :: x[i] < full[i]
  }

  lemma InBoxStep(lo: Index, hi: Index, x: Index)
    requires |x| == |lo| == |hi| > 0
    ensures InBox(lo, hi, x) <==> lo[0] <= x[0] < hi[0] && InBox(lo[1..], hi[1..], x[1..])
  {
    if InBox(lo[1..], hi[1..], x[1..]) && lo[0] <= x[0] < hi[0] {
      forall i | 0 <= i < |x| ensures lo[i] <= x[i] < hi[i] {
        if i > 0 { assert lo[1..][i-1] <= x[1..][i-1] < hi[1..][i-1]; }
      }
    }
  }

  lemma BelowStep(x: Index, full: seq<nat>, reduced: seq<bool>)
    requires |x| == |full| == |reduced| > 0
    ensures BelowOnReduced(x, full, reduced) <==>
            (reduced[0] ==> x[0] < full[0]) && BelowOnReduced(x[1..], full[1..], reduced[1..])
  {
    if (reduced[0] ==> x[0] < full[0]) && BelowOnReduced(x[1..], full[1..], reduced[1..]) {
      forall i | 0 <= i < |x| && reduced[i] ensures x[i] < full[i] {
        if i > 0 { assert reduced[1..][i-1] ==> x[1..][i-1] < full[1..][i-1]; }
      }
    }
  }

  lemma ConsEqual<T>(a: T, s: seq<T>, y: seq<T>)
    requires |y| == |s| + 1
    ensures [a] + s == y <==> a == y[0] && s == y[1..]
  {
    assert ([a] + s)[1..] == s;
    assert y == [y[0]] + y[1..];
  }

  /** The box holds exactly the indices that project onto `y` and stay below the
      full extent on reduced axes. */
  lemma {:induction false} BoxMatches(y: Index, full: seq<nat>, reduced: seq<bool>, x: Index)
    requires |full| == |reduced| == |x| && |y| == Kept(reduced)
    ensures InBox(Lower(y, reduced), Upper(y, full, reduced), x) <==>
            (Project(x, reduced) == y && BelowOnReduced(x, full, reduced))
  {
    if x != [] {
      var y' := if reduced[0] then y else y[1..];
      BoxMatches(y', full[1..], reduced[1..], x[1..]);
      hide InBox, BelowOnReduced;
      var lo, hi, z := Lower(y, reduced), Upper(y, full, reduced), Project(x[1..], reduced[1..]);
      var lo', hi' := Lower(y', reduced[1..]), Upper(y', full[1..], reduced[1..]);
      assert lo[1..] == lo' && hi[1..] == hi';
      assert InBox(lo, hi, x) <==> lo[0] <= x[0] < hi[0] && InBox(lo', hi', x[1..]) by {
        InBoxStep(lo, hi, x);
      }
      BelowStep(x, full, reduced);
      assert Project(x, reduced) == y <==> (reduced[0] || x[0] == y[0]) && z == y' by {
        if !reduced[0] { ConsEqual(x[0], z, y); }
      }
    }
  }

  /** The input axis that becomes output axis `j`. */
  function KeptAxis(reduced: seq<bool>, j: nat): (i: nat)
    requires j < Kept(reduced)
    ensures i < |reduced| && !reduced[i]
  {
    if reduced[0] then 1 + KeptAxis(reduced[1..], j)
    else if j == 0 then 0
    else 1 + KeptAxis(reduced[1..], j - 1)
  }

  lemma {:induction false} ProjectAt(x: seq<nat>, reduced: seq<bool>, j: nat)
    requires |x| == |reduced| && j < Kept(reduced)
    ensures Project(x, reduced)[j] == x[KeptAxis(reduced, j)]
  {
    if reduced[0] {
      ProjectAt(x[1..], reduced[1..], j);
    } else if j > 0 {
      ProjectAt(x[1..], reduced[1..], j - 1);
    }
  }

  lemma ProjectAll(x: seq<nat>, reduced: seq<bool>)
    requires |x| == |reduced|
    ensures forall j | 0 <= j < Kept(reduced) :: Project(x, reduced)[j] == x[KeptAxis(reduced, j)]
  {
    forall j | 0 <= j < Kept(reduced) ensures Project(x, reduced)[j] == x[KeptAxis(reduced, j)] {
      ProjectAt(x, reduced, j);
    }
  }

  /** The array that remains when the reduced axes are dropped. */
  function ProjectGeometry(g: Geometry, reduced: seq<bool>): Geometry
    requires |g.shape| == |g.chunkshape| == |g.blockshape| == |reduced|
  {
    Geometry(Project(g.shape, reduced), Project(g.chunkshape, reduced), Project(g.blockshape, reduced))
  }

  /** Splitting a projected coordinate is projecting the split. */
  lemma ProjectSplit(g: Geometry, reduced: seq<bool>, x: Index)
    requires g.Valid() && |reduced| == |g.shape| == |x|
    ensures var og, y := ProjectGeometry(g, reduced), Project(x, reduced);
            && og.Valid()
            && og.ChunkOf(y) == Project(g.ChunkOf(x), reduced)
            && og.BlockOf(y) == Project(g.BlockOf(x), reduced)
            && og.ItemOf(y) == Project(g.ItemOf(x), reduced)
  {
    ProjectAll(x, reduced);
    ProjectAll(g.shape, reduced);
    ProjectAll(g.chunkshape, reduced);
    ProjectAll(g.blockshape, reduced);
    ProjectAll(g.ChunkOf(x), reduced);
    ProjectAll(g.BlockOf(x), reduced);
    ProjectAll(g.ItemOf(x), reduced);
  }

  lemma ProjectValid(g: Geometry, reduced: seq<bool>)
    requires g.Valid() && |reduced| == |g.shape|
    ensures var og := ProjectGeometry(g, reduced);
            && og.Valid()
            && og.ChunksShape() == Project(g.ChunksShape(), reduced)
            && og.BlocksShape() == Project(g.BlocksShape(), reduced)
  {
    ProjectAll(g.shape, reduced);
    ProjectAll(g.chunkshape, reduced);
    ProjectAll(g.blockshape, reduced);
    ProjectAll(g.ChunksShape(), reduced);
    ProjectAll(g.BlocksShape(), reduced);
  }
}
