/** The recursive-descent parser as the library runs it: every function moves a
    shared state forward token by token and rebuilds its result in a loop
    (contribs/minjugg/src/tinyexpr.c).  Each method is proved against the
    function of its grammar level in TinyExprSpec. */
module TinyExpr {
  import opened TinyExprSpec

  class Parser {
    var cur: Token
    var rest: seq<Token>

    ghost function Model(): State
      reads this
    {
      State(cur, rest)
    }

    constructor (ts: seq<Token>)
      ensures Model() == Feed(ts, State(End, []))
    {
      cur, rest := End, [];
      new;
      ghost var end := Model();
      var i := |ts|;
      assert ts[i..] == [];
      while i > 0
        invariant 0 <= i <= |ts| && Model() == Feed(ts[i..], end)
      {
        i := i - 1;
        rest := [cur] + rest;
        cur := ts[i];
        assert ts[i..][0] == ts[i] && ts[i..][1..] == ts[i + 1..];
      }
      assert ts[0..] == ts;
    }

    method NextToken()
      modifies this
      ensures Model() == old(Model()).Next()
    {
      if rest == [] {
        cur := End;
      } else {
        cur, rest := rest[0], rest[1..];
      }
    }

    method Fail()
      modifies this
      ensures Model() == old(Model()).Fail()
    {
      cur := Error;
    }

    /** base */
    method Base() returns (tree: Expr)
      modifies this
      ensures Parsed(tree, Model()) == TinyExprSpec.Base(old(Model()))
      decreases Model().Size(), BASE, 1
    {
      hide Parse, TinyExprSpec.Arguments;
      match cur {
        case Number(v) =>
          tree := Constant(v);
          NextToken();
        case Variable(x) =>
          tree := Bound(x);
          NextToken();
        case Fun(f) =>
          if ArityOf(f) == 0 {
            NextToken();
            if cur.Open? {
              NextToken();
              if !cur.Close? { Fail(); } else { NextToken(); }
            }
            tree := Call(f, []);
          } else if ArityOf(f) == 1 {
            NextToken();
            var arg := Power();
            tree := Call(f, [arg]);
          } else {
            tree := FunctionCall(f);
          }
        case Open =>
          NextToken();
          tree := List();
          if !cur.Close? { Fail(); } else { NextToken(); }
        case _ =>
          tree := Broken;
          Fail();
      }
    }

    /** The case of base for functions of two and more arguments. */
    method FunctionCall(f: Function) returns (tree: Expr)
      requires cur == Fun(f) && ArityOf(f) >= 2
      modifies this
      ensures Parsed(tree, Model()) == TinyExprSpec.Base(old(Model()))
      decreases Model().Size(), 0, 0
    {
      hide Parse, TinyExprSpec.Arguments;
      ghost var s0 := Model();
      NextToken();
      if !cur.Open? {
        Fail();
        tree := Call(f, []);
      } else {
        ghost var s := Model();
        var args, i := Arguments(ArityOf(f));
        assert TinyExprSpec.Arguments([], ArityOf(f), s) == (args, i, Model());
        tree := Call(f, args);
        if !cur.Close? || i != ArityOf(f) - 1 { Fail(); } else { NextToken(); }
      }
    }

    /** The argument loop, left at the first expression not followed by a comma. */
    method Arguments(arity: nat) returns (args: seq<Expr>, i: nat)
      requires cur.Open? && arity > 0
      modifies this
      ensures TinyExprSpec.Arguments([], arity, old(Model())) == (args, i, Model())
      decreases Model().Size(), 0, 0
    {
      hide Parse;
      args, i := [], 0;
      while i < arity
        invariant |args| == i <= arity && (cur.Open? || cur.Sep?)
        invariant Model().Size() <= old(Model()).Size()
        invariant TinyExprSpec.Arguments([], arity, old(Model())) == TinyExprSpec.Arguments(args, arity, Model())
      {
        NextToken();
        var arg := Expr();
        args := args + [arg];
        if !cur.Sep? { return; }
        i := i + 1;
      }
    }

    /** power */
    method Power() returns (tree: Expr)
      modifies this
      ensures Parsed(tree, Model()) == Parse(POWER, old(Model()))
      decreases Model().Size(), POWER, 0
    {
      hide TinyExprSpec.Base;
      ghost var s0 := Model();
      var sign := 1;
      while IsSign(cur)
        invariant sign == 1 || sign == -1
        invariant Model().Size() <= s0.Size()
        invariant Signs(s0) == ((sign == -1) != Signs(Model()).0, Signs(Model()).1)
        decreases Model().Size()
      {
        if cur.op.Sub? { sign := -sign; }
        NextToken();
      }
      tree := Base();
      if sign != 1 {
        tree := Call(Negate, [tree]);
      }
    }

    /** factor: powers joined by "^", to the left. */
    method Factor() returns (tree: Expr)
      modifies this
      ensures Parsed(tree, Model()) == Parse(FACTOR, old(Model()))
      decreases Model().Size(), FACTOR, 0
    {
      tree := Power();
      while cur.Infix? && cur.op.Pow?
        invariant Model().Size() <= old(Model()).Size()
        invariant Loop(FACTOR, tree, Model()) == Parse(FACTOR, old(Model()))
        decreases Model().Size()
      {
        var op := cur.op;
        NextToken();
        var right := Power();
        tree := Call(Op(op), [tree, right]);
      }
    }

    /** term */
    method Term() returns (tree: Expr)
      modifies this
      ensures Parsed(tree, Model()) == Parse(TERM, old(Model()))
      decreases Model().Size(), TERM, 0
    {
      tree := Factor();
      while cur.Infix? && (cur.op.Mul? || cur.op.Divide? || cur.op.Fmod?)
        invariant Model().Size() <= old(Model()).Size()
        invariant Loop(TERM, tree, Model()) == Parse(TERM, old(Model()))
        decreases Model().Size()
      {
        var op := cur.op;
        NextToken();
        var right := Factor();
        tree := Call(Op(op), [tree, right]);
      }
    }

    /** expr */
    method Expr() returns (tree: Expr)
      modifies this
      ensures Parsed(tree, Model()) == Parse(EXPR, old(Model()))
      decreases Model().Size(), EXPR, 0
    {
      tree := Term();
      while cur.Infix? && (cur.op.Add? || cur.op.Sub?)
        invariant Model().Size() <= old(Model()).Size()
        invariant Loop(EXPR, tree, Model()) == Parse(EXPR, old(Model()))
        decreases Model().Size()
      {
        var op := cur.op;
        NextToken();
        var right := Term();
        tree := Call(Op(op), [tree, right]);
      }
    }

    /** list: expressions joined by commas, to the left. */
    method List() returns (tree: Expr)
      modifies this
      ensures Parsed(tree, Model()) == Parse(LIST, old(Model()))
      decreases Model().Size(), LIST, 0
    {
      tree := Expr();
      while cur.Sep?
        invariant Model().Size() <= old(Model()).Size()
        invariant Loop(LIST, tree, Model()) == Parse(LIST, old(Model()))
        decreases Model().Size()
      {
        NextToken();
        var right := Expr();
        tree := Call(Comma, [tree, right]);
      }
    }
  }

  /** jug_te_compile: a tree only when the whole text has been read. */
  method CompileText(ts: seq<Token>) returns (r: Option<Expr>)
    ensures r == Compile(ts)
  {
    var p := new Parser(ts);
    var root := p.List();
    if p.cur.End? {
      r := Some(root);
    } else {
      r := None;
    }
  }
}
