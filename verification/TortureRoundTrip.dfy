/** Reading back what the emitter wrote gives the same tree, for every expression at every minimum
    precedence and for every statement list and function. So the emitter loses nothing: two trees
    with the same text are equal. */
module TortureRoundTrip {
  import opened Sequences
  import opened TortureAst
  import opened TortureEmitter
  import opened TortureParser

  /** The reader's rank for the emitter's minimum precedence. */
  function RankFor(minPrec: nat): nat {
    if minPrec <= 1 then 14
    else match minPrec
         case 2 => 12
         case 3 => 8
         case 4 => 7
         case 5 => 5
         case 6 => 4
         case _ => 0
  }

  /** The emitter's table orders the operators as the specification does. */
  lemma TablesAgree(op: BinOp, minPrec: nat)
    ensures Prec(op) >= minPrec <==> Rank(op) <= RankFor(minPrec)
    ensures RankFor(Prec(op)) == Rank(op) && RankFor(Prec(op) + 1) < Rank(op)
  {
  }

  // ----- what may follow an emitted expression -----

  predicate Heads(ts: seq<Token>, t: Token) {
    ts != [] && ts[0] == t
  }

  /** The expression is written without parentheses of its own. */
  predicate IsBare(e: Expr, q: nat) {
    e.Bin? && Prec(e.op) >= q
  }

  /** Nothing in `rest` can attach to `e`, written for minimum precedence `q`, before `e` is complete. */
  predicate MayFollow(e: Expr, q: nat, rest: seq<Token>) {
    && !Heads(rest, LPar)
    && (IsBare(e, q) ==> !OpWithin(rest, Rank(e.op) - 1))
  }

  predicate Ends(rest: seq<Token>) {
    !Heads(rest, LPar) && !Heads(rest, Quest) && !OpWithin(rest, LOGICAL_OR)
  }

  // ----- expressions -----

  /** Reading at rank `r` what was written for a minimum precedence that `r` admits leaves the operator
      loop with `e` complete. */
  lemma {:induction false} ExprReadsBack(e: Expr, q: nat, r: nat, rest: seq<Token>)
    requires RankFor(q) <= r && MayFollow(e, q, rest)
    ensures ParseExpr(EmitExpr(e, q) + rest, r) == ParseOps(e, rest, r)
    decreases e, if e.Bin? && !IsBare(e, q) then 4 else 2
  {
    match e
    case Var(name) => TailOf(Id(name), rest);
    case Lit(n) => TailOf(Num(n), rest);
    case Call(_, _) => CallReadsBack(e, rest); assert EmitExpr(e, q) == EmitExpr(e, 0);
    case Tern(_, _, _) => TernReadsBack(e, rest); assert EmitExpr(e, q) == EmitExpr(e, 0);
    case Bin(op, lhs, rhs) =>
      if IsBare(e, q) {
        TablesAgree(op, q);
        BareReadsBack(op, lhs, rhs, r, rest);
      } else {
        var inner := EmitExpr(e, 0);
        ShiftTwo([LPar], inner, [RPar], rest);
        TailOf(LPar, inner + ([RPar] + rest));
        FullReadsBack(e, [RPar] + rest);
        TailOf(RPar, rest);
      }
  }

  lemma {:induction false} BareReadsBack(op: BinOp, lhs: Expr, rhs: Expr, r: nat, rest: seq<Token>)
    requires Rank(op) <= r && !Heads(rest, LPar) && !OpWithin(rest, Rank(op) - 1)
    ensures ParseExpr(EmitExpr(lhs, Prec(op)) + ([Op(op)] + EmitExpr(rhs, Prec(op) + 1)) + rest, r) ==
            ParseOps(Bin(op, lhs, rhs), rest, r)
    decreases Bin(op, lhs, rhs), 0
  {
    var b := EmitExpr(rhs, Prec(op) + 1);
    var a := EmitExpr(lhs, Prec(op));
    ShiftTwo(a, [Op(op)], b, rest);
    TailOf(Op(op), b + rest);
    TablesAgree(op, 0);
    if lhs.Bin? { TablesAgree(lhs.op, Prec(op)); }
    if rhs.Bin? { TablesAgree(rhs.op, Prec(op) + 1); }
    assert lhs < Bin(op, lhs, rhs) && rhs < Bin(op, lhs, rhs);
    ExprReadsBack(lhs, Prec(op), r, [Op(op)] + (b + rest));
    ExprReadsBack(rhs, Prec(op) + 1, Rank(op) - 1, rest);
  }

  lemma {:induction false} FullReadsBack(e: Expr, rest: seq<Token>)
    requires Ends(rest)
    ensures ParseFull(EmitExpr(e, 0) + rest) == Got(e, rest)
    decreases e, 3
  {
    ExprReadsBack(e, 0, LOGICAL_OR, rest);
  }

  lemma {:induction false} CallReadsBack(e: Expr, rest: seq<Token>)
    requires e.Call?
    ensures ParsePrimary(EmitExpr(e, 0) + rest) == Got(e, rest)
    decreases e, 0
  {
    var ts := EmitExpr(e, 0) + rest;
    if e.args == [] {
      assert EmitExpr(e, 0) == [Id(e.name), LPar, RPar] by { assert EmitArgs(e.args) == []; }
      assert ts[3..] == rest;
    } else {
      var inner := EmitArgs(e.args) + ([RPar] + rest);
      ShiftTwo([Id(e.name), LPar], EmitArgs(e.args), [RPar], rest);
      assert ts[2..] == inner;
      ArgsReadBack(e.args, rest);
      assert ParseArgs(inner) == Got(e.args, rest);
      assert inner[0] == ts[2];
      ArgsStart(e.args);
    }
  }

  lemma {:induction false} ArgsReadBack(args: seq<Expr>, rest: seq<Token>)
    requires args != []
    ensures ParseArgs(EmitArgs(args) + ([RPar] + rest)) == Got(args, rest)
    decreases args
  {
    if |args| == 1 {
      FullReadsBack(args[0], [RPar] + rest);
      TailOf(RPar, rest);
      assert args == [args[0]];
    } else {
      var more := EmitArgs(args[1..]);
      ShiftTwo(EmitExpr(args[0], 0), [Comma], more, [RPar] + rest);
      FullReadsBack(args[0], [Comma] + (more + ([RPar] + rest)));
      TailOf(Comma, more + ([RPar] + rest));
      ArgsReadBack(args[1..], rest);
      assert [args[0]] + args[1..] == args;
    }
  }

  /** The first token of an expression. */
  predicate Opens(ts: seq<Token>) {
    ts != [] && (ts[0].Id? || ts[0].Num? || ts[0].LPar?)
  }

  lemma {:induction false} ExprStart(e: Expr, q: nat)
    ensures Opens(EmitExpr(e, q))
  {
    if e.Bin? { ExprStart(e.lhs, Prec(e.op)); }
  }

  lemma {:induction false} ArgsStart(args: seq<Expr>)
    requires args != []
    ensures Opens(EmitArgs(args))
  {
    ExprStart(args[0], 0);
  }

  lemma {:induction false} TernReadsBack(e: Expr, rest: seq<Token>)
    requires e.Tern?
    ensures ParsePrimary(EmitExpr(e, 0) + rest) == Got(e, rest)
    decreases e, 1
  {
    var c, t, x := EmitExpr(e.cond, 0), EmitExpr(e.thn, 0), EmitExpr(e.els, 0);
    TernText(c, t, x, rest);
    TernInsideReads(e, [RPar] + rest);
    var inside := c + ([Quest] + (t + ([Colon] + (x + ([RPar] + rest)))));
    TailOf(LPar, inside);
    TailOf(RPar, rest);
    assert EmitExpr(e, 0) + rest == [LPar] + inside;
  }

  /** Inside the parentheses. */
  lemma {:induction false} TernInsideReads(e: Expr, end: seq<Token>)
    requires e.Tern? && Ends(end)
    ensures ParseFull(EmitExpr(e.cond, 0) +
                      ([Quest] + (EmitExpr(e.thn, 0) + ([Colon] + (EmitExpr(e.els, 0) + end))))) == Got(e, end)
    decreases e, 0
  {
    var c, t, x := EmitExpr(e.cond, 0), EmitExpr(e.thn, 0), EmitExpr(e.els, 0);
    var afterT := [Colon] + (x + end);
    var afterC := [Quest] + (t + afterT);
    ExprReadsBack(e.cond, 0, LOGICAL_OR, afterC);
    FullReadsBack(e.thn, afterT);
    FullReadsBack(e.els, end);
    TernTurn(c + afterC, e.cond, t + afterT, e.thn, x + end, e.els, end);
  }

  /** A condition, a question mark, an arm, a colon and an arm. */
  lemma TernTurn(ts: seq<Token>, c: Expr, arms: seq<Token>, t: Expr, arm: seq<Token>, x: Expr, end: seq<Token>)
    requires ParseExpr(ts, LOGICAL_OR) == Got(c, [Quest] + arms)
    requires ParseFull(arms) == Got(t, [Colon] + arm) && ParseFull(arm) == Got(x, end)
    ensures ParseFull(ts) == Got(Tern(c, t, x), end)
  {
    TailOf(Quest, arms);
    TailOf(Colon, arm);
  }

  lemma {:induction false} TernText(c: seq<Token>, t: seq<Token>, x: seq<Token>, rest: seq<Token>)
    ensures [LPar] + (c + ([Quest] + (t + ([Colon] + (x + [RPar]))))) + rest ==
            [LPar] + (c + ([Quest] + (t + ([Colon] + (x + ([RPar] + rest))))))
  {
    var d := [Colon] + (x + [RPar]);
    var b := [Quest] + (t + d);
    ShiftTwo([LPar], c, b, rest);
    ShiftTwo([Quest], t, d, rest);
    ShiftTwo([Colon], x, [RPar], rest);
  }

  /** The text of an expression, read at the precedence it was written for, is that expression. */
  lemma {:induction false} ExprRoundTrip(e: Expr, minPrec: nat, rest: seq<Token>)
    requires !Heads(rest, LPar) && !OpWithin(rest, RankFor(minPrec))
    ensures ParseExpr(EmitExpr(e, minPrec) + rest, RankFor(minPrec)) == Got(e, rest)
  {
    if e.Bin? { TablesAgree(e.op, minPrec); }
    ExprReadsBack(e, minPrec, RankFor(minPrec), rest);
  }

  lemma {:induction false} ParenReadsBack(e: Expr, rest: seq<Token>)
    ensures ParseParen(Paren(e) + rest) == Got(e, rest)
  {
    ShiftTwo([LPar], EmitExpr(e, 0), [RPar], rest);
    TailOf(LPar, EmitExpr(e, 0) + ([RPar] + rest));
    FullReadsBack(e, [RPar] + rest);
    TailOf(RPar, rest);
  }

  lemma {:induction false} ValueReadsBack(e: Expr, rest: seq<Token>)
    ensures ParseValue(EmitExpr(e, 0) + ([Semi] + rest)) == Got(e, rest)
  {
    FullReadsBack(e, [Semi] + rest);
    TailOf(Semi, rest);
  }

  // ----- statements -----

  lemma {:induction false} BracedReadsBack(stmts: seq<Stmt>, rest: seq<Token>)
    ensures ParseBraced(Braced(stmts) + rest) == Got(stmts, rest)
    decreases stmts, 1
  {
    ShiftTwo([LBrace], EmitStmts(stmts), [RBrace], rest);
    TailOf(LBrace, EmitStmts(stmts) + ([RBrace] + rest));
    StmtsReadBack(stmts, [RBrace] + rest);
    TailOf(RBrace, rest);
  }

  lemma {:induction false} StmtsReadBack(stmts: seq<Stmt>, rest: seq<Token>)
    requires rest == [] || rest[0] == RBrace
    ensures ParseStmts(EmitStmts(stmts) + rest) == Got(stmts, rest)
    decreases stmts, 0
  {
    if stmts == [] {
      assert [] + rest == rest;
    } else {
      var more := EmitStmts(stmts[1..]) + rest;
      Shift(EmitStmt(stmts[0]), EmitStmts(stmts[1..]), rest);
      if stmts[1..] != [] { StmtStart(stmts[1]); }
      assert more == [] || more[0] != KwElse;
      StmtReadsBack(stmts[0], more);
      StmtStart(stmts[0]);
      StmtsReadBack(stmts[1..], rest);
      assert [stmts[0]] + stmts[1..] == stmts;
    }
  }

  lemma StmtStart(s: Stmt)
    ensures EmitStmt(s) != [] && EmitStmt(s)[0] != KwElse && EmitStmt(s)[0] != RBrace
  {
  }

  lemma {:induction false} StmtReadsBack(s: Stmt, rest: seq<Token>)
    requires !Heads(rest, KwElse)
    ensures ParseStmt(EmitStmt(s) + rest) == Got(s, rest)
    decreases s, 1
  {
    match s
    case Decl(name, expr) => DeclReadsBack(name, expr, rest);
    case Asn(name, expr) => AsnReadsBack(name, expr, rest);
    case If(_, _) => IfReadsBack(s, rest);
    case IfElse(_, _, _) => IfElseReadsBack(s, rest);
    case For(_, _, _, _) => ForReadsBack(s, rest);
    case While(_, _) => WhileReadsBack(s, rest);
    case DoWhile(_, _) => DoWhileReadsBack(s, rest);
    case Break => JumpReadsBack(s, rest);
    case Continue => JumpReadsBack(s, rest);
    case Return(expr) => ReturnReadsBack(expr, rest);
  }

  // Which parser each opening keyword leads to.

  lemma IfTurn(tail: seq<Token>)
    ensures ParseStmt([KwIf] + tail) == ParseIf(tail)
  {
    IfOpens([KwIf] + tail);
    TailOf(KwIf, tail);
  }

  lemma IfOpens(ts: seq<Token>)
    requires ts != [] && ts[0] == KwIf
    ensures ParseStmt(ts) == ParseIf(ts[1..])
  {
  }

  lemma ForTurn(tail: seq<Token>)
    ensures ParseStmt([KwFor] + tail) == ParseFor(tail)
  {
    ForOpens([KwFor] + tail);
    TailOf(KwFor, tail);
  }

  lemma ForOpens(ts: seq<Token>)
    requires ts != [] && ts[0] == KwFor
    ensures ParseStmt(ts) == ParseFor(ts[1..])
  {
  }

  lemma WhileTurn(tail: seq<Token>)
    ensures ParseStmt([KwWhile] + tail) == ParseWhile(tail)
  {
    WhileOpens([KwWhile] + tail);
    TailOf(KwWhile, tail);
  }

  lemma WhileOpens(ts: seq<Token>)
    requires ts != [] && ts[0] == KwWhile
    ensures ParseStmt(ts) == ParseWhile(ts[1..])
  {
  }

  lemma DoTurn(tail: seq<Token>)
    ensures ParseStmt([KwDo] + tail) == ParseDo(tail)
  {
    DoOpens([KwDo] + tail);
    TailOf(KwDo, tail);
  }

  lemma DoOpens(ts: seq<Token>)
    requires ts != [] && ts[0] == KwDo
    ensures ParseStmt(ts) == ParseDo(ts[1..])
  {
  }

  lemma {:induction false} JumpReadsBack(s: Stmt, rest: seq<Token>)
    requires s.Break? || s.Continue?
    ensures ParseStmt(EmitStmt(s) + rest) == Got(s, rest)
  {
    assert (EmitStmt(s) + rest)[1..] == [Semi] + rest;
    TailOf(Semi, rest);
  }

  lemma {:induction false} ReturnReadsBack(expr: Expr, rest: seq<Token>)
    ensures ParseStmt(EmitStmt(Return(expr)) + rest) == Got(Return(expr), rest)
  {
    ShiftTwo([KwReturn], EmitExpr(expr, 0), [Semi], rest);
    TailOf(KwReturn, EmitExpr(expr, 0) + ([Semi] + rest));
    ValueReadsBack(expr, rest);
  }

  lemma {:induction false} DeclReadsBack(name: string, expr: Expr, rest: seq<Token>)
    ensures ParseStmt(EmitStmt(Decl(name, expr)) + rest) == Got(Decl(name, expr), rest)
  {
    var e := EmitExpr(expr, 0) + ([Semi] + rest);
    var ts := EmitStmt(Decl(name, expr)) + rest;
    ShiftTwo([Ty("int"), Id(name), Equals], EmitExpr(expr, 0), [Semi], rest);
    assert ts[1..] == [Id(name)] + ([Equals] + e);
    TailOf(Id(name), [Equals] + e);
    TailOf(Equals, e);
    ValueReadsBack(expr, rest);
  }

  lemma {:induction false} AsnReadsBack(name: string, expr: Expr, rest: seq<Token>)
    ensures ParseStmt(EmitStmt(Asn(name, expr)) + rest) == Got(Asn(name, expr), rest)
  {
    var e := EmitExpr(expr, 0) + ([Semi] + rest);
    var ts := EmitStmt(Asn(name, expr)) + rest;
    ShiftTwo([Id(name), Equals], EmitExpr(expr, 0), [Semi], rest);
    assert ts[1..] == [Equals] + e;
    TailOf(Equals, e);
    ValueReadsBack(expr, rest);
  }

  lemma {:induction false} IfReadsBack(s: Stmt, rest: seq<Token>)
    requires s.If? && !Heads(rest, KwElse)
    ensures ParseStmt(EmitStmt(s) + rest) == Got(s, rest)
    decreases s, 0
  {
    ShiftTwo([KwIf], Paren(s.cond), Braced(s.thn), rest);
    IfTurn(Paren(s.cond) + (Braced(s.thn) + rest));
    ParenReadsBack(s.cond, Braced(s.thn) + rest);
    BracedReadsBack(s.thn, rest);
  }

  lemma {:induction false} IfElseReadsBack(s: Stmt, rest: seq<Token>)
    requires s.IfElse?
    ensures ParseStmt(EmitStmt(s) + rest) == Got(s, rest)
    decreases s, 0
  {
    var alt := [KwElse] + Braced(s.els);
    var tail := [KwElse] + (Braced(s.els) + rest);
    ShiftTwo([KwIf], Paren(s.cond), Braced(s.thn) + alt, rest);
    Shift(Braced(s.thn), alt, rest);
    Shift([KwElse], Braced(s.els), rest);
    IfTurn(Paren(s.cond) + (Braced(s.thn) + tail));
    ParenReadsBack(s.cond, Braced(s.thn) + tail);
    BracedReadsBack(s.thn, tail);
    TailOf(KwElse, Braced(s.els) + rest);
    BracedReadsBack(s.els, rest);
  }

  lemma {:induction false} WhileReadsBack(s: Stmt, rest: seq<Token>)
    requires s.While?
    ensures ParseStmt(EmitStmt(s) + rest) == Got(s, rest)
    decreases s, 0
  {
    ShiftTwo([KwWhile], Paren(s.cond), Braced(s.body), rest);
    WhileTurn(Paren(s.cond) + (Braced(s.body) + rest));
    ParenReadsBack(s.cond, Braced(s.body) + rest);
    BracedReadsBack(s.body, rest);
  }

  lemma {:induction false} DoWhileReadsBack(s: Stmt, rest: seq<Token>)
    requires s.DoWhile?
    ensures ParseStmt(EmitStmt(s) + rest) == Got(s, rest)
    decreases s, 0
  {
    var end := [KwWhile] + (Paren(s.cond) + [Semi]);
    var tail := [KwWhile] + (Paren(s.cond) + ([Semi] + rest));
    ShiftTwo([KwDo], Braced(s.body), end, rest);
    ShiftTwo([KwWhile], Paren(s.cond), [Semi], rest);
    DoTurn(Braced(s.body) + tail);
    BracedReadsBack(s.body, tail);
    TailOf(KwWhile, Paren(s.cond) + ([Semi] + rest));
    ParenReadsBack(s.cond, [Semi] + rest);
    TailOf(Semi, rest);
  }

  lemma {:induction false} ForReadsBack(s: Stmt, rest: seq<Token>)
    requires s.For?
    ensures ParseStmt(EmitStmt(s) + rest) == Got(s, rest)
    decreases s, 0
  {
    var v := Id(s.name);
    var tail := Braced(s.body) + rest;
    var e := EmitExpr(s.cond, 0) + ([Semi] + ([v, PlusPlus, RPar] + tail));
    Shift(ForHeader(s.name, s.start, s.cond), Braced(s.body), rest);
    ForText(s.name, s.start, EmitExpr(s.cond, 0), tail);
    ForTurn([LPar, Ty("int"), v, Equals, Num(s.start), Semi] + e);
    BracedReadsBack(s.body, rest);
    ForHeaderReadsBack(s, tail);
  }

  /** After the keyword, the header comes off before the body. */
  lemma {:induction false} ForHeaderReadsBack(s: Stmt, tail: seq<Token>)
    requires s.For? && ParseBraced(tail).Got? && ParseBraced(tail).val == s.body
    ensures ParseFor([LPar, Ty("int"), Id(s.name), Equals, Num(s.start), Semi] +
                     (EmitExpr(s.cond, 0) + ([Semi] + ([Id(s.name), PlusPlus, RPar] + tail)))) ==
            Got(s, ParseBraced(tail).rest)
  {
    var v := Id(s.name);
    var e := EmitExpr(s.cond, 0) + ([Semi] + ([v, PlusPlus, RPar] + tail));
    assert ([LPar, Ty("int"), v, Equals, Num(s.start), Semi] + e)[6..] == e;
    assert ([v, PlusPlus, RPar] + tail)[3..] == tail;
    ValueReadsBack(s.cond, [v, PlusPlus, RPar] + tail);
  }

  lemma {:induction false} ForText(name: string, start: int, c: seq<Token>, tail: seq<Token>)
    ensures [KwFor, LPar, Ty("int"), Id(name), Equals, Num(start), Semi] +
            (c + [Semi, Id(name), PlusPlus, RPar]) + tail ==
            [KwFor] + ([LPar, Ty("int"), Id(name), Equals, Num(start), Semi] +
                       (c + ([Semi] + ([Id(name), PlusPlus, RPar] + tail))))
  {
    var head := [KwFor, LPar, Ty("int"), Id(name), Equals, Num(start), Semi];
    ShiftTwo(head, c, [Semi, Id(name), PlusPlus, RPar], tail);
    assert [Semi, Id(name), PlusPlus, RPar] + tail == [Semi] + ([Id(name), PlusPlus, RPar] + tail);
    assert head == [KwFor] + [LPar, Ty("int"), Id(name), Equals, Num(start), Semi];
  }

  // ----- functions -----

  lemma {:induction false} ParamsReadBack(params: seq<Param>, rest: seq<Token>)
    ensures ParseParams(EmitParams(params) + ([RPar] + rest)) == Got(params, rest)
  {
    var ts := EmitParams(params) + ([RPar] + rest);
    TailOf(RPar, rest);
    if params == [] {
      assert ts == [RPar] + rest;
    } else if |params| == 1 {
      OneParam(params[0], rest);
      assert params == [params[0]];
    } else {
      var more := EmitParams(params[1..]) + ([RPar] + rest);
      assert [params[0]] + params[1..] == params;
      Shift([Ty(params[0].ty), Id(params[0].name), Comma], EmitParams(params[1..]), [RPar] + rest);
      ParamsReadBack(params[1..], rest);
      assert more[0] == Ty(params[1].ty);
      MoreParams(params[0], more);
    }
  }

  lemma {:induction false} OneParam(p: Param, rest: seq<Token>)
    ensures ParseParams([Ty(p.ty), Id(p.name)] + ([RPar] + rest)) == Got([p], rest)
  {
    var ts := [Ty(p.ty), Id(p.name)] + ([RPar] + rest);
    assert ts[2..] == [RPar] + rest;
    TailOf(RPar, rest);
  }

  lemma {:induction false} MoreParams(p: Param, more: seq<Token>)
    requires more != [] && more[0] != RPar && ParseParams(more).Got?
    ensures ParseParams([Ty(p.ty), Id(p.name), Comma] + more) ==
            Got([p] + ParseParams(more).val, ParseParams(more).rest)
  {
    var ts := [Ty(p.ty), Id(p.name), Comma] + more;
    assert ts[2..] == [Comma] + more;
    TailOf(Comma, more);
  }

  lemma {:induction false} FuncRoundTrip(f: FuncDef, rest: seq<Token>)
    ensures ParseFunc(EmitFunc(f) + rest) == Got(f, rest)
  {
    var head := [Ty(f.retType), Id(f.name), LPar];
    var tail := [RPar] + (Braced(f.body) + rest);
    ShiftTwo(head, EmitParams(f.params), [RPar] + Braced(f.body), rest);
    Shift([RPar], Braced(f.body), rest);
    assert (EmitFunc(f) + rest)[3..] == EmitParams(f.params) + tail;
    ParamsReadBack(f.params, Braced(f.body) + rest);
    BracedReadsBack(f.body, rest);
  }

  // ----- the emitter loses nothing -----

  lemma {:induction false} BlockRoundTrip(stmts: seq<Stmt>)
    ensures ParseStmts(EmitStmts(stmts)) == Got(stmts, [])
  {
    StmtsReadBack(stmts, []);
    assert EmitStmts(stmts) + [] == EmitStmts(stmts);
  }

  lemma {:induction false} EmitterIsInjective(f: FuncDef, g: FuncDef)
    requires EmitFunc(f) == EmitFunc(g)
    ensures f == g
  {
    FuncRoundTrip(f, []);
    FuncRoundTrip(g, []);
  }

  /** Also line by line, with the indentation thrown away: the lines `emit_stmts` appends determine
      the statements. */
  lemma {:induction false} LinesAreInjective(a: seq<Stmt>, i: nat, b: seq<Stmt>, j: nat)
    requires Text(BlockLines(a, i)) == Text(BlockLines(b, j))
    ensures a == b
  {
    BlockLinesText(a, i);
    BlockLinesText(b, j);
    BlockRoundTrip(a);
    BlockRoundTrip(b);
  }
}
