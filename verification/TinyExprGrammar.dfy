/** The grammar the parser's comments document, as a set of syntax trees, and
    the proof that the parser accepts exactly this grammar and builds the tree
    it means; printing with the fewest parentheses is undone by parsing. */
module TinyExprGrammar {
  import opened TinyExprSpec

  /** How a text is put together: parentheses, signs and separators included. */
  datatype Syntax =
    | Num(value: real)
    | Var(name: string)
    | Nullary(f: Function, parens: bool)
    | Unary(f: Function, arg: Syntax)
    | Apply(f: Function, args: seq<Syntax>)
    | Parens(inner: Syntax)
    | Signed(signs: seq<Token>, operand: Syntax)
    | Binary(left: Syntax, op: Token, right: Syntax)

  /** The level whose rule has this operator, as the parser's comments list them:
      factor "^", term "*" "/" "%", expr "+" "-", list ",". */
  function BinaryLevel(op: Token): nat {
    if op == Infix(Pow) then FACTOR
    else if op in {Infix(Mul), Infix(Divide), Infix(Fmod)} then TERM
    else if op in {Infix(Add), Infix(Sub)} then EXPR
    else if op == Sep then LIST
    else BASE
  }

  /** The tightest level at which the grammar has this form. */
  function OwnLevel(c: Syntax): nat {
    match c
    case Signed(_, _) => POWER
    case Binary(_, op, _) => BinaryLevel(op)
    case _ => BASE
  }

  /** The grammar, one case per alternative:
      base: constant | variable | function-0 {"(" ")"} | function-1 power
            | function-X "(" expr {"," expr} ")" | "(" list ")"
      power: {"-" | "+"} base, and each looser level: itself op the next tighter one. */
  predicate InGrammar(c: Syntax, level: nat) {
    && OwnLevel(c) <= level
    && match c
       case Num(_) => true
       case Var(_) => true
       case Nullary(f, _) => ArityOf(f) == 0
       case Unary(f, arg) => ArityOf(f) == 1 && InGrammar(arg, POWER)
       case Apply(f, args) => ArityOf(f) >= 2 && |args| == ArityOf(f) && forall i | 0 <= i < |args| ::
           InGrammar(args[i], EXPR)
       case Parens(inner) => InGrammar(inner, LIST)
       case Signed(signs, operand) =>
         signs != [] && (forall t | t in signs :: t == Infix(Add) || t == Infix(Sub)) && InGrammar(operand, BASE)
       case Binary(left, op, right) =>
         BinaryLevel(op) > BASE && InGrammar(left, BinaryLevel(op)) && InGrammar(right, BinaryLevel(op) - 1)
  }

  function Tokens(c: Syntax): seq<Token> {
    match c
    case Num(v) => [Number(v)]
    case Var(x) => [Variable(x)]
    case Nullary(f, parens) => [Fun(f)] + if parens then [Open] + [Close] else []
    case Unary(f, arg) => [Fun(f)] + Tokens(arg)
    case Apply(f, args) => [Fun(f)] + ([Open] + (ArgumentTokens(args) + [Close]))
    case Parens(inner) => [Open] + (Tokens(inner) + [Close])
    case Signed(signs, operand) => signs + Tokens(operand)
    case Binary(left, op, right) => Tokens(left) + ([op] + Tokens(right))
  }

  function ArgumentTokens(args: seq<Syntax>): seq<Token> {
    if args == [] then []
    else if |args| == 1 then Tokens(args[0])
    else Tokens(args[0]) + ([Sep] + ArgumentTokens(args[1..]))
  }

  function Minuses(signs: seq<Token>): nat {
    if signs == [] then 0 else (if signs[0] == Infix(Sub) then 1 else 0) + Minuses(signs[1..])
  }

  /** The expression a syntax tree stands for. */
  function Meaning(c: Syntax): Expr {
    match c
    case Num(v) => Constant(v)
    case Var(x) => Bound(x)
    case Nullary(f, _) => Call(f, [])
    case Unary(f, arg) => Call(f, [Meaning(arg)])
    case Apply(f, args) => Call(f, Meanings(args))
    case Parens(inner) => Meaning(inner)
    case Signed(signs, operand) => if Minuses(signs) % 2 == 1 then Call(Negate, [Meaning(operand)])
        else Meaning(operand)
    case Binary(left, op, right) =>
      match op
      case Infix(o) => Call(Op(o), [Meaning(left), Meaning(right)])
      case Sep => Call(Comma, [Meaning(left), Meaning(right)])
      case _ => Broken
  }

  function Meanings(args: seq<Syntax>): (r: seq<Expr>)
    ensures |r| == |args|
  {
    if args == [] then [] else [Meaning(args[0])] + Meanings(args[1..])
  }

  /** The parser's loops are the grammar's levels. */
  lemma SameLevels(op: Token)
    ensures BinaryLevel(op) > BASE <==> FACTOR <= FollowLevel(op) <= LIST
    ensures BinaryLevel(op) > BASE ==> BinaryLevel(op) == FollowLevel(op)
  {}

  // ---------------------------------------------------------------------
  // Feeding tokens to the parser

  lemma {:induction false} FeedAppend(xs: seq<Token>, ys: seq<Token>, s: State)
    ensures Feed(xs + ys, s) == Feed(xs, Feed(ys, s))
  {
    if xs == [] {
      assert xs + ys == ys;
    } else {
      assert (xs + ys)[1..] == xs[1..] + ys;
      FeedAppend(xs[1..], ys, s);
    }
  }

  lemma FeedOne(t: Token, ts: seq<Token>, s: State)
    ensures Feed([t] + ts, s) == Push(t, Feed(ts, s))
    ensures Feed([t], s) == Push(t, s)
    ensures Push(t, s).Next() == s
  {
    assert ([t] + ts)[1..] == ts;
    assert [t][1..] == [];
  }

  /** `t` in front, `ts`, then `last`: the shape of a bracketed group. */
  lemma FeedGroup(t: Token, ts: seq<Token>, last: Token, s: State)
    ensures Feed([t] + (ts + [last]), s) == Push(t, Feed(ts, Push(last, s)))
  {
    FeedOne(t, ts + [last], s);
    FeedAppend(ts, [last], s);
    FeedOne(last, [], s);
  }

  // ---------------------------------------------------------------------
  // Every text of the grammar is accepted with its meaning

  /** What parsing at `level` gives when the operand has just been read. */
  function After(level: nat, t: Expr, s: State): Parsed
    requires level <= LIST
  {
    if level < FACTOR then Parsed(t, s) else Loop(level, t, s)
  }

  /** The next token ends this level or continues it. */
  predicate Follows(level: nat, s: State) { FollowLevel(s.cur) >= level && FollowLevel(s.cur) >= FACTOR }

  /** A parse at one level is a parse at every looser level that the next token
      does not continue in between. */
  lemma {:induction false} Climb(from: nat, level: nat, t: Expr, s0: State, s: State)
    requires from <= level <= LIST && Follows(level, s)
    requires Parse(from, s0) == After(from, t, s)
    requires from == BASE ==> !IsSign(s0.cur)
    ensures Parse(level, s0) == After(level, t, s)
  {
    if from < level {
      Climb(from, level - 1, t, s0, s);
    }
  }

  lemma StartsNoSign(c: Syntax, s: State)
    requires InGrammar(c, BASE)
    ensures !IsSign(Feed(Tokens(c), s).cur)
  {}

  /** Main lemma: wherever the grammar expects `level`, a text of that level is
      read to its end and gives its meaning. */
  lemma {:induction false} Accepted(c: Syntax, level: nat, s: State)
    requires level <= LIST && InGrammar(c, level) && Follows(level, s)
    ensures Parse(level, Feed(Tokens(c), s)) == After(level, Meaning(c), s)
    decreases c, 1
  {
    if OwnLevel(c) == BASE { StartsNoSign(c, s); }
    AcceptedAtOwnLevel(c, s);
    Climb(OwnLevel(c), level, Meaning(c), Feed(Tokens(c), s), s);
  }

  lemma {:induction false} AcceptedAtOwnLevel(c: Syntax, s: State)
    requires OwnLevel(c) <= LIST && InGrammar(c, OwnLevel(c)) && Follows(OwnLevel(c), s)
    ensures Parse(OwnLevel(c), Feed(Tokens(c), s)) == After(OwnLevel(c), Meaning(c), s)
    decreases c, 0
  {
    hide Parse, Loop, Base, Feed, Tokens, Arguments, Meanings;
    if OwnLevel(c) == BASE { ParseBase(Feed(Tokens(c), s)); }
    match c
    case Num(v) => AcceptedAtom(c, s);
    case Var(x) => AcceptedAtom(c, s);
    case Nullary(f, parens) => AcceptedNullary(f, parens, s);
    case Unary(f, arg) =>
      Accepted(arg, POWER, s);
      AcceptedUnary(f, arg, s);
    case Apply(f, args) =>
      AcceptedArguments([], args, Open, s);
      AcceptedApply(f, args, s);
    case Parens(inner) =>
      Accepted(inner, LIST, Push(Close, s));
      AcceptedParens(inner, s);
    case Signed(signs, operand) =>
      Accepted(operand, BASE, s);
      ParseBase(Feed(Tokens(operand), s));
      AcceptedSigned(signs, operand, s);
    case Binary(left, op, right) =>
      SameLevels(op);
      Accepted(left, FollowLevel(op), Push(op, Feed(Tokens(right), s)));
      Accepted(right, FollowLevel(op) - 1, s);
      AcceptedBinary(left, op, right, s);
  }

  lemma ParseBase(s: State)
    ensures Parse(BASE, s) == Base(s)
  {}

  /** A loop ends at a token that does not continue its level. */
  lemma LoopEnds(level: nat, t: Expr, s: State)
    requires FACTOR <= level <= LIST && FollowLevel(s.cur) != level
    ensures Loop(level, t, s) == Parsed(t, s)
  {}

  lemma AcceptedAtom(c: Syntax, s: State)
    requires c.Num? || c.Var?
    ensures Base(Feed(Tokens(c), s)) == Parsed(Meaning(c), s)
  {
    FeedOne(if c.Num? then Number(c.value) else Variable(c.name), [], s);
  }

  lemma AcceptedUnary(f: Function, arg: Syntax, s: State)
    requires ArityOf(f) == 1 && Parse(POWER, Feed(Tokens(arg), s)) == Parsed(Meaning(arg), s)
    ensures Base(Feed(Tokens(Unary(f, arg)), s)) == Parsed(Call(f, [Meaning(arg)]), s)
  {
    FeedOne(Fun(f), Tokens(arg), s);
    FeedOne(Fun(f), [], Feed(Tokens(arg), s));
    hide Parse, Feed, Meaning;
  }

  lemma AcceptedApply(f: Function, args: seq<Syntax>, s: State)
    requires ArityOf(f) >= 2 && |args| == ArityOf(f)
    requires Arguments([], |args|, Push(Open, Feed(ArgumentTokens(args), Push(Close, s)))) ==
             ([] + Meanings(args), |args| - 1, Push(Close, s))
    ensures Base(Feed(Tokens(Apply(f, args)), s)) == Parsed(Call(f, Meanings(args)), s)
  {
    var inner := Push(Open, Feed(ArgumentTokens(args), Push(Close, s)));
    assert Feed(Tokens(Apply(f, args)), s) == Push(Fun(f), inner) by {
      FeedGroup(Open, ArgumentTokens(args), Close, s);
      FeedOne(Fun(f), [Open] + (ArgumentTokens(args) + [Close]), s);
    }
    FeedOne(Fun(f), [], inner);
    FeedOne(Close, [], s);
    assert [] + Meanings(args) == Meanings(args);
    hide Arguments, Feed, Meanings, Parse;
  }

  lemma AcceptedParens(inner: Syntax, s: State)
    requires Parse(LIST, Feed(Tokens(inner), Push(Close, s))) == After(LIST, Meaning(inner), Push(Close, s))
    ensures Base(Feed(Tokens(Parens(inner)), s)) == Parsed(Meaning(inner), s)
  {
    FeedGroup(Open, Tokens(inner), Close, s);
    FeedOne(Open, [], Feed(Tokens(inner), Push(Close, s)));
    FeedOne(Close, [], s);
    hide Parse, Feed, Meaning, Loop;
    LoopEnds(LIST, Meaning(inner), Push(Close, s));
  }

  lemma AcceptedSigned(signs: seq<Token>, operand: Syntax, s: State)
    requires InGrammar(operand, BASE) && forall t | t in signs :: IsSign(t)
    requires Base(Feed(Tokens(operand), s)) == Parsed(Meaning(operand), s)
    ensures Parse(POWER, Feed(Tokens(Signed(signs, operand)), s)) == Parsed(Meaning(Signed(signs, operand)), s)
  {
    FeedAppend(signs, Tokens(operand), s);
    StartsNoSign(operand, s);
    SignsCount(signs, Feed(Tokens(operand), s));
    hide Base, Feed, Signs, InGrammar;
  }

  lemma AcceptedBinary(left: Syntax, op: Token, right: Syntax, s: State)
    requires FACTOR <= FollowLevel(op) <= LIST && Follows(FollowLevel(op), s)
    requires var l := FollowLevel(op); var after := Feed(Tokens(right), s);
             && Parse(l, Feed(Tokens(left), Push(op, after))) == Loop(l, Meaning(left), Push(op, after))
             && Parse(l - 1, after) == After(l - 1, Meaning(right), s)
    ensures Parse(FollowLevel(op), Feed(Tokens(Binary(left, op, right)), s)) ==
            Loop(FollowLevel(op), Meaning(Binary(left, op, right)), s)
  {
    FeedAppend(Tokens(left), [op] + Tokens(right), s);
    FeedOne(op, Tokens(right), s);
    hide Parse, Feed, Loop;
    LoopStep(FollowLevel(op), Meaning(left), op, Meaning(right), Feed(Tokens(right), s), s);
  }

  lemma AcceptedNullary(f: Function, parens: bool, s: State)
    requires ArityOf(f) == 0 && Follows(BASE, s)
    ensures Base(Feed(Tokens(Nullary(f, parens)), s)) == Parsed(Call(f, []), s)
  {
    if parens {
      FeedGroup(Fun(f), [Open], Close, s);
      FeedOne(Open, [], Push(Close, s));
      FeedOne(Close, [], s);
      FeedOne(Fun(f), [], Push(Open, Push(Close, s)));
    } else {
      FeedOne(Fun(f), [], s);
      assert [Fun(f)] + [] == [Fun(f)];
    }
  }

  /** One turn of a level's loop. */
  lemma LoopStep(level: nat, l: Expr, op: Token, r: Expr, right: State, s: State)
    requires FACTOR <= level <= LIST && FollowLevel(op) == level && Follows(level, s)
    requires Parse(level - 1, right) == After(level - 1, r, s)
    ensures Loop(level, l, Push(op, right)) == Loop(level, Call(OperatorOf(op), [l, r]), s)
  {
    FeedOne(op, [], right);
    assert After(level - 1, r, s) == Parsed(r, s);
  }

  /** The sign toggles once per minus. */
  lemma {:induction false} SignsCount(signs: seq<Token>, s: State)
    requires (forall t | t in signs :: IsSign(t)) && !IsSign(s.cur)
    ensures Signs(Feed(signs, s)) == (Minuses(signs) % 2 == 1, s)
  {
    if signs != [] {
      FeedOne(signs[0], [], Feed(signs[1..], s));
      SignsCount(signs[1..], s);
    }
  }

  lemma {:induction false} AcceptedArguments(done: seq<Expr>, args: seq<Syntax>, open: Token, s: State)
    requires |args| > 0 && (forall i | 0 <= i < |args| :: InGrammar(args[i], EXPR)) && (open.Open? || open.Sep?)
    ensures var arity := |done| + |args|;
            Arguments(done, arity, Push(open, Feed(ArgumentTokens(args), Push(Close, s)))) ==
                (done + Meanings(args), arity - 1, Push(Close, s))
    decreases args, 2
  {
    hide Parse, Loop, Feed, Tokens, Meaning, Arguments, InGrammar;
    var close := Push(Close, s);
    if |args| == 1 {
      Accepted(args[0], EXPR, close);
      LastArgument(done, Meaning(args[0]), open, Feed(Tokens(args[0]), close), close);
      assert Meanings(args) == [Meaning(args[0])];
    } else {
      hide ArgumentTokens, Meanings;
      var more := args[1..];
      Accepted(args[0], EXPR, Push(Sep, Feed(ArgumentTokens(more), close)));
      AcceptedArguments(done + [Meaning(args[0])], more, Sep, s);
      ArgumentsSpell(args[0], more, close);
      assert [args[0]] + more == args;
      NextArgument(done, |done| + |args|, Meaning(args[0]), open, Feed(ArgumentTokens(args), close),
          Feed(ArgumentTokens(more), close));
      assert done + [Meaning(args[0])] + Meanings(more) == done + ([Meaning(args[0])] + Meanings(more));
    }
  }

  lemma LastArgument(done: seq<Expr>, t: Expr, open: Token, s0: State, close: State)
    requires (open.Open? || open.Sep?) && close.cur.Close? && Parse(EXPR, s0) == After(EXPR, t, close)
    ensures Arguments(done, |done| + 1, Push(open, s0)) == (done + [t], |done|, close)
  {
    FeedOne(open, [], s0);
    hide Parse, Loop;
    LoopEnds(EXPR, t, close);
  }

  lemma NextArgument(done: seq<Expr>, arity: nat, t: Expr, open: Token, s0: State, s: State)
    requires |done| < arity && (open.Open? || open.Sep?) && Parse(EXPR, s0) == After(EXPR, t, Push(Sep, s))
    ensures Arguments(done, arity, Push(open, s0)) == Arguments(done + [t], arity, Push(Sep, s))
  {
    FeedOne(open, [], s0);
    hide Parse, Loop;
    LoopEnds(EXPR, t, Push(Sep, s));
  }

  // ---------------------------------------------------------------------
  // What is accepted is in the grammar

  /** The text ends with the end marker and holds no other. */
  predicate Proper(s: State)
    decreases |s.rest|
  {
    if s.rest == [] then s.cur.End? else !s.cur.End? && Proper(s.Next())
  }

  lemma Consumed(s: State)
    requires Proper(s) && !s.cur.End?
    ensures Proper(s.Next()) && Push(s.cur, s.Next()) == s
  {}

  /** `c` spells exactly what lies between `s0` and `s`. */
  predicate Spells(c: Syntax, level: nat, s0: State, t: Expr, s: State) {
    InGrammar(c, level) && Meaning(c) == t && Feed(Tokens(c), s) == s0 && Proper(s)
  }

  /** A parse that does not end in an error has read a text of the grammar. */
  lemma {:induction false} Derivable(level: nat, s: State) returns (c: Syntax)
    requires level <= LIST && Proper(s) && !Parse(level, s).state.cur.Error?
    ensures Spells(c, level, s, Parse(level, s).tree, Parse(level, s).state)
    decreases s.Size(), level, 2
  {
    if level == BASE {
      c := DerivableBase(s);
    } else if level == POWER {
      c := DerivablePower(s);
    } else {
      var p := Parse(level - 1, s);
      if p.state.cur.Error? {
        ErrorSticks(level, p.state);
        assert false;
      }
      var first := Derivable(level - 1, s);
      GrammarGrows(first, level - 1, level);
      c := DerivableLoop(level, first, s, p.state);
    }
  }

  lemma GrammarGrows(c: Syntax, level: nat, level': nat)
    requires InGrammar(c, level) && level <= level'
    ensures InGrammar(c, level')
  {}

  lemma {:induction false} DerivableLoop(level: nat, left: Syntax, s0: State, s: State) returns (c: Syntax)
    requires FACTOR <= level <= LIST && Spells(left, level, s0, Meaning(left), s)
    requires !Loop(level, Meaning(left), s).state.cur.Error?
    ensures Spells(c, level, s0, Loop(level, Meaning(left), s).tree, Loop(level, Meaning(left), s).state)
    decreases s.Size(), level, 0
  {
    hide Tokens, Feed, Meaning, InGrammar, Proper, Parse;
    if FollowLevel(s.cur) == level {
      Consumed(s);
      var p := Parse(level - 1, s.Next());
      var t := Call(OperatorOf(s.cur), [Meaning(left), p.tree]);
      if p.state.cur.Error? {
        LoopError(level, t, p.state);
        assert false;
      }
      var right := Derivable(level - 1, s.Next());
      c := Binary(left, s.cur, right);
      hide Loop;
      BinarySpells(left, s.cur, right, s0, p.state);
      c := DerivableLoop(level, c, s0, p.state);
    } else {
      c := left;
    }
  }

  lemma BinarySpells(left: Syntax, op: Token, right: Syntax, s0: State, s: State)
    requires FACTOR <= FollowLevel(op) <= LIST
    requires InGrammar(left, FollowLevel(op)) && InGrammar(right, FollowLevel(op) - 1) && Proper(s)
    requires Feed(Tokens(left), Push(op, Feed(Tokens(right), s))) == s0
    ensures Spells(Binary(left, op, right), FollowLevel(op), s0,
            Call(OperatorOf(op), [Meaning(left), Meaning(right)]), s)
  {
    SameLevels(op);
    FeedAppend(Tokens(left), [op] + Tokens(right), s);
    FeedOne(op, Tokens(right), s);
  }

  lemma LoopError(level: nat, t: Expr, s: State)
    requires FACTOR <= level <= LIST && s.cur.Error?
    ensures Loop(level, t, s).state == s
  {
    ErrorSticks(level, s);
  }

  lemma {:induction false} SignTokens(s: State) returns (signs: seq<Token>)
    requires Proper(s)
    ensures (forall t | t in signs :: IsSign(t)) && Feed(signs, Signs(s).1) == s && Proper(Signs(s).1)
    ensures Signs(s).0 == (Minuses(signs) % 2 == 1) && (signs == [] <==> !IsSign(s.cur))
    decreases s.Size()
  {
    if IsSign(s.cur) {
      Consumed(s);
      var more := SignTokens(s.Next());
      signs := [s.cur] + more;
      FeedOne(s.cur, more, Signs(s).1);
      assert signs[1..] == more;
    } else {
      signs := [];
    }
  }

  lemma {:induction false} DerivablePower(s: State) returns (c: Syntax)
    requires Proper(s) && !Parse(POWER, s).state.cur.Error?
    ensures Spells(c, POWER, s, Parse(POWER, s).tree, Parse(POWER, s).state)
    decreases s.Size(), POWER, 0
  {
    var signs := SignTokens(s);
    var s' := Signs(s).1;
    c := DerivableBase(s');
    if signs == [] {
      GrammarGrows(c, BASE, POWER);
    } else {
      FeedAppend(signs, Tokens(c), Parse(POWER, s).state);
      c := Signed(signs, c);
    }
  }

  lemma {:induction false} DerivableBase(s: State) returns (c: Syntax)
    requires Proper(s) && !Base(s).state.cur.Error?
    ensures Spells(c, BASE, s, Base(s).tree, Base(s).state)
    decreases s.Size(), BASE, 1
  {
    match s.cur
    case Number(v) =>
      c := Num(v);
      DerivableAtom(c, s);
    case Variable(x) =>
      c := Var(x);
      DerivableAtom(c, s);
    case Fun(f) =>
      if ArityOf(f) == 0 {
        c := DerivableNullary(f, s);
      } else if ArityOf(f) == 1 {
        c := DerivableUnary(f, s);
      } else {
        c := DerivableApply(f, s);
      }
    case Open =>
      c := DerivableParens(s);
    case _ =>
      assert false;
  }

  lemma DerivableAtom(c: Syntax, s: State)
    requires Proper(s) && (s.cur.Number? || s.cur.Variable?)
    requires c == if s.cur.Number? then Num(s.cur.value) else Var(s.cur.name)
    ensures Spells(c, BASE, s, Base(s).tree, Base(s).state)
  {
    Consumed(s);
    FeedOne(s.cur, [], s.Next());
  }

  lemma {:induction false} DerivableUnary(f: Function, s: State) returns (c: Syntax)
    requires Proper(s) && s.cur == Fun(f) && ArityOf(f) == 1 && !Base(s).state.cur.Error?
    ensures Spells(c, BASE, s, Base(s).tree, Base(s).state)
    decreases s.Size(), BASE, 0
  {
    hide Parse;
    Consumed(s);
    var arg := Derivable(POWER, s.Next());
    c := Unary(f, arg);
    FeedOne(s.cur, Tokens(arg), Base(s).state);
  }

  lemma {:induction false} DerivableParens(s: State) returns (c: Syntax)
    requires Proper(s) && s.cur.Open? && !Base(s).state.cur.Error?
    ensures Spells(c, BASE, s, Base(s).tree, Base(s).state)
    decreases s.Size(), BASE, 0
  {
    hide Parse;
    Consumed(s);
    var p := Parse(LIST, s.Next());
    var inner := Derivable(LIST, s.Next());
    Consumed(p.state);
    c := Parens(inner);
    FeedGroup(Open, Tokens(inner), Close, p.state.Next());
  }

  lemma DerivableNullary(f: Function, s: State) returns (c: Syntax)
    requires Proper(s) && s.cur == Fun(f) && ArityOf(f) == 0 && !Base(s).state.cur.Error?
    ensures Spells(c, BASE, s, Base(s).tree, Base(s).state)
  {
    Consumed(s);
    var s1 := s.Next();
    if s1.cur.Open? {
      Consumed(s1);
      Consumed(s1.Next());
      c := Nullary(f, true);
      FeedGroup(Fun(f), [Open], Close, Base(s).state);
      FeedOne(Open, [], s1.Next());
    } else {
      c := Nullary(f, false);
      assert [Fun(f)] + [] == [Fun(f)];
      FeedOne(Fun(f), [], s1);
    }
  }

  lemma {:induction false} DerivableApply(f: Function, s: State) returns (c: Syntax)
    requires Proper(s) && s.cur == Fun(f) && ArityOf(f) >= 2 && !Base(s).state.cur.Error?
    ensures Spells(c, BASE, s, Base(s).tree, Base(s).state)
    decreases s.Size(), 0, 0
  {
    CallUnfold(f, s);
    hide Parse, Loop, Base, Feed, Arguments, Meanings, ArgumentTokens, Proper;
    Consumed(s);
    Consumed(s.Next());
    var s2 := Arguments([], ArityOf(f), s.Next()).2;
    var args := DerivableArguments([], ArityOf(f), s.Next());
    c := Apply(f, args);
    Consumed(s2);
    assert [] + Meanings(args) == Meanings(args);
    FeedGroup(Open, ArgumentTokens(args), Close, s2.Next());
    FeedOne(Fun(f), [Open] + (ArgumentTokens(args) + [Close]), s2.Next());
  }

  lemma CallUnfold(f: Function, s: State)
    requires s.cur == Fun(f) && ArityOf(f) >= 2 && !Base(s).state.cur.Error?
    ensures s.Next().cur.Open?
    ensures var (args, i, s') := Arguments([], ArityOf(f), s.Next());
            Base(s) == Parsed(Call(f, args), s'.Next()) && s'.cur.Close? && i == ArityOf(f) - 1
  {
    hide Arguments, Parse;
  }

  /** `args`, separated by commas, spell what lies between `s0` and `s`. */
  predicate SpellArguments(args: seq<Syntax>, s0: State, s: State) {
    && args != [] && (forall k | 0 <= k < |args| :: InGrammar(args[k], EXPR))
    && Feed(ArgumentTokens(args), s) == s0 && Proper(s)
  }

  lemma {:induction false} DerivableArguments(done: seq<Expr>, arity: nat, s: State) returns (args: seq<Syntax>)
    requires |done| < arity && (s.cur.Open? || s.cur.Sep?) && Proper(s)
    requires var (_, i, s') := Arguments(done, arity, s); s'.cur.Close? && i == arity - 1
    ensures |done| + |args| == arity && SpellArguments(args, s.Next(), Arguments(done, arity, s).2)
    ensures Arguments(done, arity, s).0 == done + Meanings(args)
    decreases s.Size(), 0, 0
  {
    hide Parse, Feed, Tokens, Arguments, Meaning, InGrammar, Proper, SpellArguments, Spells, Meanings;
    Consumed(s);
    ArgumentsUnfold(done, arity, s);
    var p := Parse(EXPR, s.Next());
    var first := Derivable(EXPR, s.Next());
    SpellsParts(first, s.Next(), p);
    if p.state.cur.Sep? {
      var more := DerivableArguments(done + [p.tree], arity, p.state);
      args := [first] + more;
      Consumed(p.state);
      MoreArguments(first, more, s.Next(), p.state, Arguments(done, arity, s).2);
      assert done + [p.tree] + Meanings(more) == done + ([p.tree] + Meanings(more));
    } else {
      args := [first];
      OneArgument(first, s.Next(), p.state);
    }
  }

  lemma SpellsParts(c: Syntax, s: State, p: Parsed)
    requires Spells(c, EXPR, s, p.tree, p.state)
    ensures InGrammar(c, EXPR) && Meaning(c) == p.tree && Feed(Tokens(c), p.state) == s && Proper(p.state)
  {}

  lemma OneArgument(c: Syntax, s0: State, s: State)
    requires InGrammar(c, EXPR) && Feed(Tokens(c), s) == s0 && Proper(s)
    ensures SpellArguments([c], s0, s) && Meanings([c]) == [Meaning(c)]
  {
    hide InGrammar, Feed, Tokens, Meaning, Proper;
  }

  lemma MoreArguments(c: Syntax, more: seq<Syntax>, s0: State, s1: State, s: State)
    requires InGrammar(c, EXPR) && Feed(Tokens(c), s1) == s0 && s1.cur.Sep? && Push(Sep, s1.Next()) == s1
    requires SpellArguments(more, s1.Next(), s)
    ensures SpellArguments([c] + more, s0, s) && Meanings([c] + more) == [Meaning(c)] + Meanings(more)
  {
    ArgumentsSpell(c, more, s);
    hide InGrammar, Feed, Tokens, Meaning, Proper, Meanings, ArgumentTokens;
  }

  lemma ArgumentsUnfold(done: seq<Expr>, arity: nat, s: State)
    requires |done| < arity && (s.cur.Open? || s.cur.Sep?)
    ensures var p := Parse(EXPR, s.Next());
            && (p.state.cur.Sep? ==>
                  && Arguments(done, arity, s) == Arguments(done + [p.tree], arity, p.state)
                  && (|done| + 1 == arity ==> Arguments(done, arity, s).1 == arity))
            && (!p.state.cur.Sep? ==> Arguments(done, arity, s) == (done + [p.tree], |done|, p.state))
  {
    hide Parse;
  }

  lemma ArgumentsSpell(first: Syntax, more: seq<Syntax>, s: State)
    requires more != []
    ensures Feed(ArgumentTokens([first] + more), s) == Feed(Tokens(first), Push(Sep, Feed(ArgumentTokens(more), s)))
    ensures Meanings([first] + more) == [Meaning(first)] + Meanings(more)
  {
    var args := [first] + more;
    assert args[1..] == more;
    FeedAppend(Tokens(first), [Sep] + ArgumentTokens(more), s);
    FeedOne(Sep, ArgumentTokens(more), s);
  }

  // ---------------------------------------------------------------------
  // Main results

  /** The parser accepts exactly the texts of the grammar, each with its meaning. */
  lemma AcceptsGrammar(c: Syntax)
    requires InGrammar(c, LIST)
    ensures Compile(Tokens(c)) == Some(Meaning(c))
  {
    Accepted(c, LIST, State(End, []));
  }

  lemma AcceptsOnlyGrammar(ts: seq<Token>) returns (c: Syntax)
    requires Compile(ts).Some? && End !in ts
    ensures InGrammar(c, LIST) && Tokens(c) == ts && Compile(ts) == Some(Meaning(c))
  {
    FedIsProper(ts);
    var s := Feed(ts, State(End, []));
    c := Derivable(LIST, s);
    hide Parse, Tokens, InGrammar, Meaning;
    ProperEnd(Parse(LIST, s).state);
    FeedInjective(Tokens(c), ts);
  }

  lemma ProperEnd(s: State)
    requires Proper(s) && s.cur.End?
    ensures s == State(End, [])
  {}

  lemma {:induction false} FedIsProper(ts: seq<Token>)
    requires End !in ts
    ensures Proper(Feed(ts, State(End, [])))
  {
    if ts != [] {
      FedIsProper(ts[1..]);
      FeedOne(ts[0], [], Feed(ts[1..], State(End, [])));
    }
  }

  lemma {:induction false} FeedLength(ts: seq<Token>, s: State)
    ensures |Feed(ts, s).rest| == |ts| + |s.rest|
  {
    if ts != [] { FeedLength(ts[1..], s); }
  }

  lemma {:induction false} FeedInjective(xs: seq<Token>, ys: seq<Token>)
    requires Feed(xs, State(End, [])) == Feed(ys, State(End, []))
    ensures xs == ys
  {
    FeedLength(xs, State(End, []));
    FeedLength(ys, State(End, []));
    if xs != [] {
      FeedOne(xs[0], [], Feed(xs[1..], State(End, [])));
      FeedOne(ys[0], [], Feed(ys[1..], State(End, [])));
      FeedInjective(xs[1..], ys[1..]);
      assert xs == [xs[0]] + xs[1..] && ys == [ys[0]] + ys[1..];
    }
  }

  // ---------------------------------------------------------------------
  // Precedence and grouping, operator by operator

  function ThreeOperands(a: Syntax, p: Token, b: Syntax, q: Token, c: Syntax): seq<Token> {
    Tokens(a) + ([p] + (Tokens(b) + ([q] + Tokens(c))))
  }

  lemma TokensOfBinary(l: Syntax, op: Token, r: Syntax)
    ensures Tokens(Binary(l, op, r)) == Tokens(l) + ([op] + Tokens(r))
  {}

  lemma MeaningOfBinary(l: Syntax, op: Token, r: Syntax)
    ensures op.Infix? ==> Meaning(Binary(l, op, r)) == Call(Op(op.op), [Meaning(l), Meaning(r)])
    ensures op == Sep ==> Meaning(Binary(l, op, r)) == Call(Comma, [Meaning(l), Meaning(r)])
  {}

  lemma BinaryInGrammar(l: Syntax, op: Token, r: Syntax, level: nat)
    requires BinaryLevel(op) > BASE && InGrammar(l, BinaryLevel(op)) && InGrammar(r, BinaryLevel(op) - 1)
    requires BinaryLevel(op) <= level
    ensures InGrammar(Binary(l, op, r), level)
  {}

  lemma Regroup<T>(a: seq<T>, b: seq<T>, c: seq<T>, d: seq<T>)
    ensures (a + (b + c)) + d == a + (b + (c + d))
  {}

  /** A first operator that binds as tightly as the second, or tighter, comes first. */
  lemma LeftFirst(a: Syntax, p: Token, b: Syntax, q: Token, c: Syntax)
    requires InGrammar(a, BASE) && InGrammar(b, BASE) && InGrammar(c, BASE)
    requires BASE < BinaryLevel(p) <= BinaryLevel(q)
    ensures Compile(ThreeOperands(a, p, b, q, c)) == Some(Meaning(Binary(Binary(a, p, b), q, c)))
  {
    hide Tokens, Compile, Meaning, InGrammar;
    GrammarGrows(a, BASE, BinaryLevel(p));
    GrammarGrows(b, BASE, BinaryLevel(p) - 1);
    GrammarGrows(c, BASE, BinaryLevel(q) - 1);
    BinaryInGrammar(a, p, b, BinaryLevel(q));
    BinaryInGrammar(Binary(a, p, b), q, c, LIST);
    AcceptsGrammar(Binary(Binary(a, p, b), q, c));
    TokensOfBinary(Binary(a, p, b), q, c);
    TokensOfBinary(a, p, b);
    Regroup(Tokens(a), [p], Tokens(b), [q] + Tokens(c));
  }

  /** A second operator that binds tighter comes first. */
  lemma RightFirst(a: Syntax, p: Token, b: Syntax, q: Token, c: Syntax)
    requires InGrammar(a, BASE) && InGrammar(b, BASE) && InGrammar(c, BASE)
    requires BASE < BinaryLevel(q) < BinaryLevel(p)
    ensures Compile(ThreeOperands(a, p, b, q, c)) == Some(Meaning(Binary(a, p, Binary(b, q, c))))
  {
    hide Tokens, Compile, Meaning, InGrammar;
    GrammarGrows(a, BASE, BinaryLevel(p));
    GrammarGrows(b, BASE, BinaryLevel(q));
    GrammarGrows(c, BASE, BinaryLevel(q) - 1);
    BinaryInGrammar(b, q, c, BinaryLevel(p) - 1);
    BinaryInGrammar(a, p, Binary(b, q, c), LIST);
    AcceptsGrammar(Binary(a, p, Binary(b, q, c)));
    TokensOfBinary(a, p, Binary(b, q, c));
    TokensOfBinary(b, q, c);
  }

  /** Products bind tighter than sums, on either side. */
  lemma ProductsBeforeSums(a: Syntax, p: Operator, b: Syntax, q: Operator, c: Syntax)
    requires InGrammar(a, BASE) && InGrammar(b, BASE) && InGrammar(c, BASE)
    requires p in {Add, Sub} && q in {Mul, Divide, Fmod}
    ensures Compile(ThreeOperands(a, Infix(p), b, Infix(q), c)) ==
            Some(Call(Op(p), [Meaning(a), Call(Op(q), [Meaning(b), Meaning(c)])]))
    ensures Compile(ThreeOperands(a, Infix(q), b, Infix(p), c)) ==
            Some(Call(Op(p), [Call(Op(q), [Meaning(a), Meaning(b)]), Meaning(c)]))
  {
    hide Compile, Meaning, InGrammar, ThreeOperands;
    RightFirst(a, Infix(p), b, Infix(q), c);
    LeftFirst(a, Infix(q), b, Infix(p), c);
    MeaningOfBinary(a, Infix(p), Binary(b, Infix(q), c));
    MeaningOfBinary(b, Infix(q), c);
    MeaningOfBinary(Binary(a, Infix(q), b), Infix(p), c);
    MeaningOfBinary(a, Infix(q), b);
  }

  /** Powers bind tighter than products and sums, on either side. */
  lemma PowersFirst(a: Syntax, p: Operator, b: Syntax, c: Syntax)
    requires InGrammar(a, BASE) && InGrammar(b, BASE) && InGrammar(c, BASE) && p in {Add, Sub, Mul, Divide, Fmod}
    ensures Compile(ThreeOperands(a, Infix(p), b, Infix(Pow), c)) ==
            Some(Call(Op(p), [Meaning(a), Call(Op(Pow), [Meaning(b), Meaning(c)])]))
    ensures Compile(ThreeOperands(a, Infix(Pow), b, Infix(p), c)) ==
            Some(Call(Op(p), [Call(Op(Pow), [Meaning(a), Meaning(b)]), Meaning(c)]))
  {
    hide Compile, Meaning, InGrammar, ThreeOperands;
    RightFirst(a, Infix(p), b, Infix(Pow), c);
    LeftFirst(a, Infix(Pow), b, Infix(p), c);
    MeaningOfBinary(a, Infix(p), Binary(b, Infix(Pow), c));
    MeaningOfBinary(b, Infix(Pow), c);
    MeaningOfBinary(Binary(a, Infix(Pow), b), Infix(p), c);
    MeaningOfBinary(a, Infix(Pow), b);
  }

  /** The comma binds weakest. */
  lemma CommasLast(a: Syntax, p: Operator, b: Syntax, c: Syntax)
    requires InGrammar(a, BASE) && InGrammar(b, BASE) && InGrammar(c, BASE)
    ensures Compile(ThreeOperands(a, Sep, b, Infix(p), c)) ==
            Some(Call(Comma, [Meaning(a), Call(Op(p), [Meaning(b), Meaning(c)])]))
    ensures Compile(ThreeOperands(a, Infix(p), b, Sep, c)) ==
            Some(Call(Comma, [Call(Op(p), [Meaning(a), Meaning(b)]), Meaning(c)]))
  {
    hide Compile, Meaning, InGrammar, ThreeOperands;
    RightFirst(a, Sep, b, Infix(p), c);
    LeftFirst(a, Infix(p), b, Sep, c);
    MeaningOfBinary(a, Sep, Binary(b, Infix(p), c));
    MeaningOfBinary(b, Infix(p), c);
    MeaningOfBinary(Binary(a, Infix(p), b), Sep, c);
    MeaningOfBinary(a, Infix(p), b);
  }

  /** Two operators that bind alike. */
  predicate Alike(p: Operator, q: Operator) {
    (p in {Add, Sub} && q in {Add, Sub}) || (p in {Mul, Divide, Fmod} && q in {Mul, Divide, Fmod}) || p == q == Pow
  }

  /** Operators that bind alike, "^" among them, group to the left. */
  lemma LeftToRight(a: Syntax, p: Operator, b: Syntax, q: Operator, c: Syntax)
    requires InGrammar(a, BASE) && InGrammar(b, BASE) && InGrammar(c, BASE) && Alike(p, q)
    ensures Compile(ThreeOperands(a, Infix(p), b, Infix(q), c)) ==
            Some(Call(Op(q), [Call(Op(p), [Meaning(a), Meaning(b)]), Meaning(c)]))
  {
    hide Compile, Meaning, InGrammar, ThreeOperands;
    LeftFirst(a, Infix(p), b, Infix(q), c);
    MeaningOfBinary(Binary(a, Infix(p), b), Infix(q), c);
    MeaningOfBinary(a, Infix(p), b);
  }

  /** A sign binds tighter than "^". */
  lemma SignsBeforePowers(a: Syntax, b: Syntax)
    requires InGrammar(a, BASE) && InGrammar(b, BASE)
    ensures Compile([Infix(Sub)] + (Tokens(a) + ([Infix(Pow)] + Tokens(b)))) ==
            Some(Call(Op(Pow), [Call(Negate, [Meaning(a)]), Meaning(b)]))
  {
    var minus: seq<Token>, signed := [Infix(Sub)], Signed([Infix(Sub)], a);
    MinusSigned(a);
    hide Compile, InGrammar, Meaning, Tokens;
    GrammarGrows(b, BASE, POWER);
    BinaryInGrammar(signed, Infix(Pow), b, LIST);
    AcceptsGrammar(Binary(signed, Infix(Pow), b));
    TokensOfBinary(signed, Infix(Pow), b);
    MeaningOfBinary(signed, Infix(Pow), b);
    Associate(minus, Tokens(a), [Infix(Pow)] + Tokens(b));
  }

  lemma MinusSigned(a: Syntax)
    requires InGrammar(a, BASE)
    ensures var c := Signed([Infix(Sub)], a);
            InGrammar(c, FACTOR) && Tokens(c) == [Infix(Sub)] + Tokens(a) && Meaning(c) == Call(Negate, [Meaning(a)])
  {
    assert Minuses([Infix(Sub)]) == 1;
  }

  lemma Associate<T>(a: seq<T>, b: seq<T>, c: seq<T>)
    ensures (a + b) + c == a + (b + c)
  {}

  /** The grammar is unambiguous: one text, one meaning. */
  lemma Unambiguous(c: Syntax, d: Syntax)
    requires InGrammar(c, LIST) && InGrammar(d, LIST) && Tokens(c) == Tokens(d)
    ensures Meaning(c) == Meaning(d)
  {
    AcceptsGrammar(c);
    AcceptsGrammar(d);
  }

  // ---------------------------------------------------------------------
  // Printing

  predicate WellFormed(t: Expr) {
    match t
    case Constant(_) => true
    case Bound(_) => true
    case Call(f, args) => |args| == ArityOf(f) && forall i | 0 <= i < |args| :: WellFormed(args[i])
    case Broken => false
  }

  /** The syntax of `t` where the grammar expects `level`, with parentheses only
      when its own syntax belongs to a looser level. */
  function Unparse(t: Expr, level: nat): Syntax
    requires WellFormed(t)
    decreases t, 1
  {
    var c := UnparseBare(t);
    if OwnLevel(c) > level then Parens(c) else c
  }

  function UnparseBare(t: Expr): Syntax
    requires WellFormed(t)
    decreases t, 0
  {
    match t
    case Constant(v) => Num(v)
    case Bound(x) => Var(x)
    case Call(f, args) =>
      match f
      case Op(op) =>
        var level := FollowLevel(Infix(op));
        Binary(Unparse(args[0], level), Infix(op), Unparse(args[1], level - 1))
      case Comma => Binary(Unparse(args[0], LIST), Sep, Unparse(args[1], EXPR))
      case Negate => Signed([Infix(Sub)], Unparse(args[0], BASE))
      case Named(_, arity) =>
        if arity == 0 then Nullary(f, false)
        else if arity == 1 then Unary(f, Unparse(args[0], POWER))
        else Apply(f, UnparseAll(args))
  }

  function UnparseAll(ts: seq<Expr>): (cs: seq<Syntax>)
    requires forall i | 0 <= i < |ts| :: WellFormed(ts[i])
    ensures |cs| == |ts|
    decreases ts, 2
  {
    if ts == [] then [] else [Unparse(ts[0], EXPR)] + UnparseAll(ts[1..])
  }

  lemma {:induction false} UnparseMeans(t: Expr, level: nat)
    requires WellFormed(t) && level <= LIST
    ensures InGrammar(Unparse(t, level), level) && Meaning(Unparse(t, level)) == t
    decreases t, 1
  {
    UnparseBareMeans(t);
    var c := UnparseBare(t);
    if OwnLevel(c) > level { GrammarGrows(c, OwnLevel(c), LIST); } else { GrammarGrows(c, OwnLevel(c), level); }
  }

  lemma {:induction false} UnparseBareMeans(t: Expr)
    requires WellFormed(t)
    ensures var c := UnparseBare(t); OwnLevel(c) <= LIST && InGrammar(c, OwnLevel(c)) && Meaning(c) == t
    decreases t, 0
  {
    match t
    case Constant(_) =>
    case Bound(_) =>
    case Call(f, args) =>
      match f
      case Op(op) => UnparseBinaryMeans(args[0], Infix(op), args[1]);
      case Comma => UnparseBinaryMeans(args[0], Sep, args[1]);
      case Negate =>
        UnparseMeans(args[0], BASE);
        assert Minuses([Infix(Sub)]) == 1;
      case Named(_, arity) =>
        if arity == 1 {
          UnparseMeans(args[0], POWER);
        } else if arity > 1 {
          UnparseAllMeans(args);
        }
  }

  lemma {:induction false} UnparseBinaryMeans(l: Expr, op: Token, r: Expr)
    requires WellFormed(l) && WellFormed(r) && FACTOR <= FollowLevel(op) <= LIST
    ensures var level := FollowLevel(op); var c := Binary(Unparse(l, level), op, Unparse(r, level - 1));
            InGrammar(c, level) && Meaning(c) == Call(OperatorOf(op), [l, r])
    decreases (if l < r then r else l), 2
  {
    UnparseMeans(l, FollowLevel(op));
    UnparseMeans(r, FollowLevel(op) - 1);
  }

  lemma {:induction false} UnparseAllMeans(ts: seq<Expr>)
    requires forall i | 0 <= i < |ts| :: WellFormed(ts[i])
    ensures Meanings(UnparseAll(ts)) == ts && forall i | 0 <= i < |ts| :: InGrammar(UnparseAll(ts)[i], EXPR)
    decreases ts, 2
  {
    if ts != [] {
      UnparseMeans(ts[0], EXPR);
      UnparseAllMeans(ts[1..]);
      var cs := UnparseAll(ts);
      assert cs[1..] == UnparseAll(ts[1..]);
      assert ts == [ts[0]] + ts[1..];
      forall i | 0 <= i < |ts| ensures InGrammar(cs[i], EXPR) {
        if i > 0 { assert cs[i] == UnparseAll(ts[1..])[i - 1]; }
      }
    }
  }

  /** Main result: every tree the grammar can build is parsed back from its
      printed form, with all input consumed. */
  lemma RoundTrip(t: Expr)
    requires WellFormed(t)
    ensures Compile(Tokens(Unparse(t, LIST))) == Some(t)
  {
    UnparseMeans(t, LIST);
    AcceptsGrammar(Unparse(t, LIST));
  }

  lemma {:induction false} MeaningWellFormed(c: Syntax, level: nat)
    requires InGrammar(c, level) && level <= LIST
    ensures WellFormed(Meaning(c))
    decreases c, 1
  {
    match c
    case Num(_) =>
    case Var(_) =>
    case Nullary(_, _) =>
    case Unary(_, arg) => MeaningWellFormed(arg, POWER);
    case Apply(_, args) => MeaningsWellFormed(args);
    case Parens(inner) => MeaningWellFormed(inner, LIST);
    case Signed(_, operand) => MeaningWellFormed(operand, BASE);
    case Binary(left, op, right) =>
      SameLevels(op);
      MeaningWellFormed(left, FollowLevel(op));
      MeaningWellFormed(right, FollowLevel(op) - 1);
  }

  lemma {:induction false} MeaningsWellFormed(args: seq<Syntax>)
    requires forall i | 0 <= i < |args| :: InGrammar(args[i], EXPR)
    ensures forall i | 0 <= i < |args| :: WellFormed(Meanings(args)[i])
    decreases args, 2
  {
    if args != [] {
      MeaningWellFormed(args[0], EXPR);
      MeaningsWellFormed(args[1..]);
      forall i | 0 <= i < |args| ensures WellFormed(Meanings(args)[i]) {
        if i > 0 { assert Meanings(args)[i] == Meanings(args[1..])[i - 1]; }
      }
    }
  }

  /** Whatever compiles is a complete tree: no node lacks an argument.  So
      printing it and compiling again gives the same tree. */
  lemma CompiledIsWellFormed(ts: seq<Token>)
    requires Compile(ts).Some? && End !in ts
    ensures WellFormed(Compile(ts).value)
    ensures Compile(Tokens(Unparse(Compile(ts).value, LIST))) == Compile(ts)
  {
    var c := AcceptsOnlyGrammar(ts);
    MeaningWellFormed(c, LIST);
    RoundTrip(Meaning(c));
  }
}
