/** Finding a built-in function by name: the binary search of the parser's lexer
    over its alphabetical table (contribs/minjugg/src/tinyexpr.c). */
module Builtins {
  import opened TinyExprSpec

  /** strncmp over the length of `name`, then the check that the entry ends there too. */
  function Compare(name: string, entry: string): int {
    if name == "" then (if entry == "" then 0 else 0 - entry[0] as int)
    else if entry == "" then name[0] as int
    else if name[0] != entry[0] then name[0] as int - entry[0] as int
    else Compare(name[1..], entry[1..])
  }

  /** The strings C can hold: no NUL inside. */
  predicate CString(s: string) { forall i | 0 <= i < |s| :: s[i] as int > 0 }

  predicate Before(a: string, b: string) { Compare(a, b) < 0 }

  lemma {:induction false} CompareZero(a: string, b: string)
    requires CString(a) && CString(b)
    ensures Compare(a, b) == 0 <==> a == b
  {
    if a != "" && b != "" && a[0] == b[0] {
      CompareZero(a[1..], b[1..]);
      assert a == [a[0]] + a[1..] && b == [b[0]] + b[1..];
    }
  }

  lemma {:induction false} BeforeTransitive(a: string, b: string, c: string)
    requires CString(a) && CString(b) && CString(c) && Before(a, b) && Before(b, c)
    ensures Before(a, c)
  {
    if a != "" && b != "" && c != "" && a[0] == b[0] && b[0] == c[0] {
      BeforeTransitive(a[1..], b[1..], c[1..]);
    }
  }

  ghost predicate Alphabetical(table: seq<(string, Function)>) {
    && (forall i | 0 <= i < |table| :: CString(table[i].0))
    && (forall i, j | 0 <= i < j < |table| :: Before(table[i].0, table[j].0))
  }

  /** find_builtin on an alphabetical table: found exactly when there is an entry
      of that name, and then its function. */
  method FindBuiltin(table: seq<(string, Function)>, name: string) returns (r: Option<Function>)
    requires Alphabetical(table) && CString(name)
    ensures r.Some? ==> (name, r.value) in table
    ensures r.None? ==> forall i | 0 <= i < |table| :: table[i].0 != name
  {
    var imin, imax := 0, |table| - 1;
    while imax >= imin
      invariant 0 <= imin && imax < |table|
      invariant forall i | 0 <= i < |table| && !(imin <= i <= imax) :: table[i].0 != name
    {
      var i := imin + (imax - imin) / 2;
      var c := Compare(name, table[i].0);
      CompareZero(name, table[i].0);
      if c == 0 {
        assert table[i] == (name, table[i].1);
        return Some(table[i].1);
      } else if c > 0 {
        CompareReversed(name, table[i].0);
        imin := i + 1;
      } else {
        CompareReversed(name, table[i].0);
        imax := i - 1;
      }
    }
    return None;
  }

  lemma {:induction false} CompareReversed(a: string, b: string)
    ensures Compare(a, b) == 0 - Compare(b, a)
  {
    if a != "" && b != "" && a[0] == b[0] { CompareReversed(a[1..], b[1..]); }
  }

  // Named functions; the numbers only keep them apart
  const ABS := Named(0, 1)
  const ACOS := Named(1, 1)
  const ASIN := Named(2, 1)
  const ATAN := Named(3, 1)
  const ATAN2 := Named(4, 2)
  const CEIL := Named(5, 1)
  const COS := Named(6, 1)
  const COSH := Named(7, 1)
  const EXP := Named(8, 1)
  const FLOOR := Named(9, 1)
  const LOG := Named(10, 1)
  const LOG10 := Named(11, 1)
  const MAX := Named(12, 2)
  const MIN := Named(13, 2)
  const SIN := Named(14, 1)
  const SINH := Named(15, 1)
  const SQRT := Named(16, 1)
  const TAN := Named(17, 1)
  const TANH := Named(18, 1)

  /** The table of the source, in its order. */
  const BUILTINS: seq<(string, Function)> :=
    [("abs", ABS), ("absolute", ABS), ("acos", ACOS), ("arccos", ACOS), ("arcsin", ASIN), ("arctan", ATAN),
     ("arctan2", ATAN2), ("asin", ASIN), ("atan", ATAN), ("atan2", ATAN2), ("ceil", CEIL), ("cos", COS),
     ("cosh", COSH), ("exp", EXP), ("floor", FLOOR), ("log", LOG), ("log10", LOG10), ("max", MAX), ("min", MIN),
     ("negate", Negate), ("negative", Negate), ("pow", Op(Pow)), ("power", Op(Pow)), ("sin", SIN), ("sinh", SINH),
     ("sqrt", SQRT), ("tan", TAN), ("tanh", TANH)]

  ghost predicate AdjacentInOrder(table: seq<(string, Function)>) {
    && (forall i | 0 <= i < |table| :: CString(table[i].0))
    && (forall i | 0 <= i < |table| - 1 :: Before(table[i].0, table[i + 1].0))
  }

  lemma {:induction false} AdjacentSuffices(table: seq<(string, Function)>, i: nat, j: nat)
    requires AdjacentInOrder(table) && i < j < |table|
    ensures Before(table[i].0, table[j].0)
  {
    if i + 1 < j {
      AdjacentSuffices(table, i, j - 1);
      assert Before(table[j - 1].0, table[j - 1 + 1].0);
      BeforeTransitive(table[i].0, table[j - 1].0, table[j].0);
    }
  }

  /** The table's own requirement holds of it, so the search finds every entry. */
  lemma BuiltinsAlphabetical()
    ensures Alphabetical(BUILTINS)
  {
    BuiltinsAdjacent();
    hide Before;
    forall i, j | 0 <= i < j < |BUILTINS| ensures Before(BUILTINS[i].0, BUILTINS[j].0) {
      AdjacentSuffices(BUILTINS, i, j);
    }
  }

  /** Names are ordered by their first difference, or by length. */
  lemma {:induction false} FirstDifference(a: string, b: string, k: nat)
    requires CString(b) && k <= |a| && k < |b| && a[..k] == b[..k] && (k == |a| || a[k] < b[k])
    ensures Before(a, b)
  {
    if k > 0 {
      assert a[0] == a[..k][0] == b[..k][0] == b[0];
      assert a[1..][..k-1] == a[..k][1..] == b[..k][1..] == b[1..][..k-1];
      FirstDifference(a[1..], b[1..], k - 1);
    }
  }

  lemma BuiltinsAdjacent()
    ensures AdjacentInOrder(BUILTINS)
  {
    hide Before, CString;
    OrderUpToAsin();
    OrderUpToFloor();
    OrderUpToPow();
    OrderUpToTanh();
  }

  lemma OrderUpToAsin()
    ensures CString("abs") && CString("absolute") && CString("acos") && CString("arccos")
    ensures CString("arcsin") && CString("arctan") && CString("arctan2") && CString("asin")
    ensures Before("abs", "absolute")
    ensures Before("absolute", "acos")
    ensures Before("acos", "arccos")
    ensures Before("arccos", "arcsin")
    ensures Before("arcsin", "arctan")
    ensures Before("arctan", "arctan2")
    ensures Before("arctan2", "asin")
  {
    hide Before;
    FirstDifference("abs", "absolute", 3);
    FirstDifference("absolute", "acos", 1);
    FirstDifference("acos", "arccos", 1);
    FirstDifference("arccos", "arcsin", 3);
    FirstDifference("arcsin", "arctan", 3);
    FirstDifference("arctan", "arctan2", 6);
    FirstDifference("arctan2", "asin", 1);
  }

  lemma OrderUpToFloor()
    ensures CString("asin") && CString("atan") && CString("atan2") && CString("ceil")
    ensures CString("cos") && CString("cosh") && CString("exp") && CString("floor")
    ensures Before("asin", "atan")
    ensures Before("atan", "atan2")
    ensures Before("atan2", "ceil")
    ensures Before("ceil", "cos")
    ensures Before("cos", "cosh")
    ensures Before("cosh", "exp")
    ensures Before("exp", "floor")
  {
    hide Before;
    FirstDifference("asin", "atan", 1);
    FirstDifference("atan", "atan2", 4);
    FirstDifference("atan2", "ceil", 0);
    FirstDifference("ceil", "cos", 1);
    FirstDifference("cos", "cosh", 3);
    FirstDifference("cosh", "exp", 0);
    FirstDifference("exp", "floor", 0);
  }

  lemma OrderUpToPow()
    ensures CString("floor") && CString("log") && CString("log10") && CString("max")
    ensures CString("min") && CString("negate") && CString("negative") && CString("pow")
    ensures Before("floor", "log")
    ensures Before("log", "log10")
    ensures Before("log10", "max")
    ensures Before("max", "min")
    ensures Before("min", "negate")
    ensures Before("negate", "negative")
    ensures Before("negative", "pow")
  {
    hide Before;
    FirstDifference("floor", "log", 0);
    FirstDifference("log", "log10", 3);
    FirstDifference("log10", "max", 0);
    FirstDifference("max", "min", 1);
    FirstDifference("min", "negate", 0);
    FirstDifference("negate", "negative", 5);
    FirstDifference("negative", "pow", 0);
  }

  lemma OrderUpToTanh()
    ensures CString("pow") && CString("power") && CString("sin")
    ensures CString("sinh") && CString("sqrt") && CString("tan") && CString("tanh")
    ensures Before("pow", "power")
    ensures Before("power", "sin")
    ensures Before("sin", "sinh")
    ensures Before("sinh", "sqrt")
    ensures Before("sqrt", "tan")
    ensures Before("tan", "tanh")
  {
    hide Before;
    FirstDifference("pow", "power", 3);
    FirstDifference("power", "sin", 0);
    FirstDifference("sin", "sinh", 3);
    FirstDifference("sinh", "sqrt", 1);
    FirstDifference("sqrt", "tan", 0);
    FirstDifference("tan", "tanh", 3);
  }
}
