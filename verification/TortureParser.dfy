/** A reader for the emitted language: recursive descent with a left-associative operator-precedence
    loop. Its ranks are those of the operator table in section 5.1 of the GLSL 4.50 specification,
    where rank 1 binds tightest; it shares neither the emitter's precedence numbers nor its rule for
    parentheses. */
module TortureParser {
  import opened TortureAst
  import opened TortureEmitter

  datatype Parsed<+T> = Fail | Got(val: T, rest: seq<Token>) {
    predicate IsFailure() { Fail? }
    function PropagateFailure<U>(): Parsed<U> requires Fail? { Fail }
    function Extract(): (T, seq<Token>) requires Got? { (val, rest) }
  }

  function Expect(ts: seq<Token>, t: Token): (r: Parsed<()>)
    ensures r.Got? ==> |r.rest| < |ts|
  {
    if ts != [] && ts[0] == t then Got((), ts[1..]) else Fail
  }

  function Name(ts: seq<Token>): (r: Parsed<string>)
    ensures r.Got? ==> |r.rest| < |ts|
  {
    if ts != [] && ts[0].Id? then Got(ts[0].name, ts[1..]) else Fail
  }

  function Rank(op: BinOp): nat {
    match op
    case Mul => 4
    case Add => 5
    case Sub => 5
    case Lt => 7
    case Gt => 7
    case Le => 7
    case Ge => 7
    case Eq => 8
    case Ne => 8
    case And => 12
    case Or => 14
  }

  /** The last rank below the ternary. */
  const LOGICAL_OR: nat := 14

  // ----- expressions -----

  /** A whole expression: operators, then perhaps a ternary. */
  function ParseFull(ts: seq<Token>): (r: Parsed<Expr>)
    ensures r.Got? ==> |r.rest| < |ts|
    decreases |ts|, 3
  {
    var (c, ts1) :- ParseExpr(ts, LOGICAL_OR);
    if ts1 == [] || ts1[0] != Quest then Got(c, ts1) else
    var (t, ts2) :- ParseFull(ts1[1..]);
    var (_, ts3) :- Expect(ts2, Colon);
    var (e, ts4) :- ParseFull(ts3);
    Got(Tern(c, t, e), ts4)
  }

  /** Operators of rank `r` or tighter. */
  function ParseExpr(ts: seq<Token>, r: nat): (out: Parsed<Expr>)
    ensures out.Got? ==> |out.rest| < |ts|
    decreases |ts|, 2
  {
    var (e, ts1) :- ParsePrimary(ts);
    ParseOps(e, ts1, r)
  }

  predicate OpWithin(ts: seq<Token>, r: int) {
    ts != [] && ts[0].Op? && Rank(ts[0].op) <= r
  }

  /** Fold further operators onto `lhs`, leftmost first. */
  function ParseOps(lhs: Expr, ts: seq<Token>, r: nat): (out: Parsed<Expr>)
    ensures out.Got? ==> |out.rest| <= |ts|
    decreases |ts|, 1
  {
    if !OpWithin(ts, r) then Got(lhs, ts) else
    var (rhs, ts1) :- ParseExpr(ts[1..], Rank(ts[0].op) - 1);
    ParseOps(Bin(ts[0].op, lhs, rhs), ts1, r)
  }

  function ParsePrimary(ts: seq<Token>): (r: Parsed<Expr>)
    ensures r.Got? ==> |r.rest| < |ts|
    decreases |ts|, 1
  {
    if ts == [] then Fail else
    match ts[0]
    case Num(n) => Got(Lit(n), ts[1..])
    case Id(name) =>
      if |ts| == 1 || ts[1] != LPar then Got(Var(name), ts[1..])
      else if |ts| > 2 && ts[2] == RPar then Got(Call(name, []), ts[3..])
      else
        var (args, ts1) :- ParseArgs(ts[2..]);
        Got(Call(name, args), ts1)
    case LPar =>
      var (e, ts1) :- ParseFull(ts[1..]);
      var (_, ts2) :- Expect(ts1, RPar);
      Got(e, ts2)
    case _ => Fail
  }

  /** One or more arguments and the closing parenthesis. */
  function ParseArgs(ts: seq<Token>): (r: Parsed<seq<Expr>>)
    ensures r.Got? ==> |r.rest| < |ts|
    decreases |ts|, 4
  {
    var (e, ts1) :- ParseFull(ts);
    if ts1 != [] && ts1[0] == Comma then
      var (es, ts2) :- ParseArgs(ts1[1..]);
      Got([e] + es, ts2)
    else
      var (_, ts2) :- Expect(ts1, RPar);
      Got([e], ts2)
  }

  function ParseParen(ts: seq<Token>): (r: Parsed<Expr>)
    ensures r.Got? ==> |r.rest| < |ts|
  {
    var (_, ts1) :- Expect(ts, LPar);
    var (e, ts2) :- ParseFull(ts1);
    var (_, ts3) :- Expect(ts2, RPar);
    Got(e, ts3)
  }

  function ParseValue(ts: seq<Token>): (r: Parsed<Expr>)
    ensures r.Got? ==> |r.rest| < |ts|
  {
    var (e, ts1) :- ParseFull(ts);
    var (_, ts2) :- Expect(ts1, Semi);
    Got(e, ts2)
  }

  // ----- statements -----

  function ParseStmts(ts: seq<Token>): (r: Parsed<seq<Stmt>>)
    ensures r.Got? ==> |r.rest| <= |ts|
    decreases |ts|, 1
  {
    if ts == [] || ts[0] == RBrace then Got([], ts) else
    var (s, ts1) :- ParseStmt(ts);
    var (ss, ts2) :- ParseStmts(ts1);
    Got([s] + ss, ts2)
  }

  function ParseBraced(ts: seq<Token>): (r: Parsed<seq<Stmt>>)
    ensures r.Got? ==> |r.rest| < |ts|
    decreases |ts|, 1
  {
    var (_, ts1) :- Expect(ts, LBrace);
    var (ss, ts2) :- ParseStmts(ts1);
    var (_, ts3) :- Expect(ts2, RBrace);
    Got(ss, ts3)
  }

  function ParseStmt(ts: seq<Token>): (r: Parsed<Stmt>)
    ensures r.Got? ==> |r.rest| < |ts|
    decreases |ts|, 0
  {
    if ts == [] then Fail else
    match ts[0]
    case Ty(ty) =>
      if ty != "int" then Fail else ParseDecl(ts[1..])
    case Id(name) =>
      var (_, ts1) :- Expect(ts[1..], Equals);
      var (e, ts2) :- ParseValue(ts1);
      Got(Asn(name, e), ts2)
    case KwIf => ParseIf(ts[1..])
    case KwFor => ParseFor(ts[1..])
    case KwWhile => ParseWhile(ts[1..])
    case KwDo => ParseDo(ts[1..])
    case KwBreak =>
      var (_, ts1) :- Expect(ts[1..], Semi);
      Got(Break, ts1)
    case KwContinue =>
      var (_, ts1) :- Expect(ts[1..], Semi);
      Got(Continue, ts1)
    case KwReturn =>
      var (e, ts1) :- ParseValue(ts[1..]);
      Got(Return(e), ts1)
    case _ => Fail
  }

  function ParseDecl(ts: seq<Token>): (r: Parsed<Stmt>)
    ensures r.Got? ==> |r.rest| < |ts|
  {
    var (name, ts1) :- Name(ts);
    var (_, ts2) :- Expect(ts1, Equals);
    var (e, ts3) :- ParseValue(ts2);
    Got(Decl(name, e), ts3)
  }

  function ParseWhile(ts: seq<Token>): (r: Parsed<Stmt>)
    ensures r.Got? ==> |r.rest| < |ts|
    decreases |ts|, 2
  {
    var (c, ts1) :- ParseParen(ts);
    var (body, ts2) :- ParseBraced(ts1);
    Got(While(c, body), ts2)
  }

  function ParseDo(ts: seq<Token>): (r: Parsed<Stmt>)
    ensures r.Got? ==> |r.rest| < |ts|
    decreases |ts|, 2
  {
    var (body, ts1) :- ParseBraced(ts);
    var (_, ts2) :- Expect(ts1, KwWhile);
    var (c, ts3) :- ParseParen(ts2);
    var (_, ts4) :- Expect(ts3, Semi);
    Got(DoWhile(body, c), ts4)
  }

  function ParseIf(ts: seq<Token>): (r: Parsed<Stmt>)
    ensures r.Got? ==> |r.rest| < |ts|
    decreases |ts|, 2
  {
    var (c, ts1) :- ParseParen(ts);
    var (thn, ts2) :- ParseBraced(ts1);
    if ts2 == [] || ts2[0] != KwElse then Got(If(c, thn), ts2) else
    var (els, ts3) :- ParseBraced(ts2[1..]);
    Got(IfElse(c, thn, els), ts3)
  }

  /** After `for`: an `int` counter, the test, and the counter's own `++`. */
  function ParseFor(ts: seq<Token>): (r: Parsed<Stmt>)
    ensures r.Got? ==> |r.rest| < |ts|
    decreases |ts|, 2
  {
    if |ts| < 6 || ts[0] != LPar || ts[1] != Ty("int") || !ts[2].Id? || ts[3] != Equals ||
       !ts[4].Num? || ts[5] != Semi then Fail
    else
      var (c, ts1) :- ParseValue(ts[6..]);
      if |ts1| < 3 || ts1[0] != ts[2] || ts1[1] != PlusPlus || ts1[2] != RPar then Fail
      else
        var (body, ts2) :- ParseBraced(ts1[3..]);
        Got(For(ts[2].name, ts[4].n, c, body), ts2)
  }

  // ----- functions -----

  function ParseParam(ts: seq<Token>): (r: Parsed<Param>)
    ensures r.Got? ==> |r.rest| < |ts|
  {
    if |ts| < 2 || !ts[0].Ty? || !ts[1].Id? then Fail else Got(Param(ts[0].ty, ts[1].name), ts[2..])
  }

  /** The parameters and the closing parenthesis. */
  function ParseParams(ts: seq<Token>): (r: Parsed<seq<Param>>)
    ensures r.Got? ==> |r.rest| < |ts|
  {
    if ts != [] && ts[0] == RPar then Got([], ts[1..]) else
    var (p, ts1) :- ParseParam(ts);
    if ts1 != [] && ts1[0] == Comma then
      if |ts1| == 1 || ts1[1] == RPar then Fail else
      var (ps, ts2) :- ParseParams(ts1[1..]);
      Got([p] + ps, ts2)
    else
      var (_, ts2) :- Expect(ts1, RPar);
      Got([p], ts2)
  }

  function ParseFunc(ts: seq<Token>): (r: Parsed<FuncDef>)
    ensures r.Got? ==> |r.rest| < |ts|
  {
    if |ts| < 3 || !ts[0].Ty? || !ts[1].Id? || ts[2] != LPar then Fail
    else
      var (params, ts1) :- ParseParams(ts[3..]);
      var (body, ts2) :- ParseBraced(ts1);
      Got(FuncDef(ts[0].ty, ts[1].name, params, body), ts2)
  }
}
