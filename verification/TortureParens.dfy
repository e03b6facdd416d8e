/** The emitter writes no parenthesis too many: an operand stands in parentheses exactly where the text
    without them would read as another expression. */
module TortureParens {
  import opened Sequences
  import opened TortureAst
  import opened TortureEmitter
  import opened TortureParser
  import opened TortureRoundTrip

  /** The text of an expression that stands alone. */
  function Alone(e: Expr): seq<Token> {
    EmitExpr(e, 0)
  }

  function Parenthesized(ts: seq<Token>): seq<Token> {
    [LPar] + (ts + [RPar])
  }

  function Operation(left: seq<Token>, op: BinOp, right: seq<Token>): seq<Token> {
    left + ([Op(op)] + right)
  }

  /** Whether the text reads, all of it, as `e`. */
  predicate ReadsAs(ts: seq<Token>, e: Expr) {
    ParseFull(ts) == Got(e, [])
  }

  lemma {:induction false} AloneReads(e: Expr)
    ensures ReadsAs(Alone(e), e)
  {
    assert Alone(e) + [] == Alone(e);
    FullReadsBack(e, []);
  }

  // ----- what an operation's text without parentheses reads as -----

  /** `op rhs` after the text of `lhs`, written for minimum precedence `m`, attaches to the last operand
      of the operators that bind weaker. */
  function AfterLeft(op: BinOp, lhs: Expr, rhs: Expr, m: nat): Expr {
    if lhs.Bin? && m <= Prec(lhs.op) < Prec(op) then
      Bin(lhs.op, lhs.lhs, AfterLeft(op, lhs.rhs, rhs, Prec(lhs.op) + 1))
    else Bin(op, lhs, rhs)
  }

  /** `lhs op` before the text of `rhs` attaches to the first operand of those that bind no tighter. */
  function BeforeRight(op: BinOp, lhs: Expr, rhs: Expr, m: nat): Expr {
    if rhs.Bin? && m <= Prec(rhs.op) <= Prec(op) then
      Bin(rhs.op, BeforeRight(op, lhs, rhs.lhs, Prec(rhs.op)), rhs.rhs)
    else Bin(op, lhs, rhs)
  }

  lemma {:induction false} OperationText(op: BinOp, lhs: Expr, rhs: Expr, m: nat)
    requires m <= Prec(op)
    ensures EmitExpr(Bin(op, lhs, rhs), m) == Operation(EmitExpr(lhs, Prec(op)), op, EmitExpr(rhs, Prec(op) + 1))
  {
  }

  /** Between two minimum precedences that treat an operand alike its text does not change. */
  lemma {:induction false} SameText(e: Expr, m: nat, q: nat)
    requires !e.Bin? || (Prec(e.op) >= m <==> Prec(e.op) >= q)
    ensures EmitExpr(e, m) == EmitExpr(e, q)
  {
  }

  lemma Regroup(x: seq<Token>, o: BinOp, y: seq<Token>, q: BinOp, z: seq<Token>)
    ensures Operation(x, o, Operation(y, q, z)) == Operation(Operation(x, o, y), q, z)
  {
    ShiftTwo(x, [Op(o)], y, [Op(q)] + z);
  }

  lemma {:induction false} AfterLeftText(op: BinOp, lhs: Expr, rhs: Expr, m: nat)
    requires m <= Prec(op)
    ensures EmitExpr(AfterLeft(op, lhs, rhs, m), m) ==
            Operation(EmitExpr(lhs, m), op, EmitExpr(rhs, Prec(op) + 1))
    decreases lhs
  {
    if lhs.Bin? && m <= Prec(lhs.op) < Prec(op) {
      AfterLeftText(op, lhs.rhs, rhs, Prec(lhs.op) + 1);
      AfterLeftStep(op, lhs, rhs, m, AfterLeft(op, lhs.rhs, rhs, Prec(lhs.op) + 1));
    } else {
      LeftAsItIs(op, lhs, rhs, m);
    }
  }

  lemma {:induction false} LeftAsItIs(op: BinOp, lhs: Expr, rhs: Expr, m: nat)
    requires m <= Prec(op) && (lhs.Bin? && m <= Prec(lhs.op) ==> Prec(op) <= Prec(lhs.op))
    ensures EmitExpr(Bin(op, lhs, rhs), m) == Operation(EmitExpr(lhs, m), op, EmitExpr(rhs, Prec(op) + 1))
  {
    OperationText(op, lhs, rhs, m);
    SameText(lhs, m, Prec(op));
  }

  lemma {:induction false} AfterLeftStep(op: BinOp, lhs: Expr, rhs: Expr, m: nat, inner: Expr)
    requires lhs.Bin? && m <= Prec(lhs.op)
    requires EmitExpr(inner, Prec(lhs.op) + 1) ==
             Operation(EmitExpr(lhs.rhs, Prec(lhs.op) + 1), op, EmitExpr(rhs, Prec(op) + 1))
    ensures EmitExpr(Bin(lhs.op, lhs.lhs, inner), m) ==
            Operation(EmitExpr(lhs, m), op, EmitExpr(rhs, Prec(op) + 1))
  {
    OperationText(lhs.op, lhs.lhs, inner, m);
    OperationText(lhs.op, lhs.lhs, lhs.rhs, m);
    Regroup(EmitExpr(lhs.lhs, Prec(lhs.op)), lhs.op, EmitExpr(lhs.rhs, Prec(lhs.op) + 1), op,
            EmitExpr(rhs, Prec(op) + 1));
  }

  lemma {:induction false} BeforeRightText(op: BinOp, lhs: Expr, rhs: Expr, m: nat)
    requires m <= Prec(op)
    ensures EmitExpr(BeforeRight(op, lhs, rhs, m), m) ==
            Operation(EmitExpr(lhs, Prec(op)), op, EmitExpr(rhs, m))
    decreases rhs
  {
    if rhs.Bin? && m <= Prec(rhs.op) <= Prec(op) {
      BeforeRightText(op, lhs, rhs.lhs, Prec(rhs.op));
      BeforeRightStep(op, lhs, rhs, m, BeforeRight(op, lhs, rhs.lhs, Prec(rhs.op)));
    } else {
      OperationText(op, lhs, rhs, m);
      SameText(rhs, m, Prec(op) + 1);
    }
  }

  lemma {:induction false} BeforeRightStep(op: BinOp, lhs: Expr, rhs: Expr, m: nat, inner: Expr)
    requires rhs.Bin? && m <= Prec(rhs.op)
    requires EmitExpr(inner, Prec(rhs.op)) == Operation(EmitExpr(lhs, Prec(op)), op, EmitExpr(rhs.lhs, Prec(rhs.op)))
    ensures EmitExpr(Bin(rhs.op, inner, rhs.rhs), m) == Operation(EmitExpr(lhs, Prec(op)), op, EmitExpr(rhs, m))
  {
    OperationText(rhs.op, inner, rhs.rhs, m);
    OperationText(rhs.op, rhs.lhs, rhs.rhs, m);
    Regroup(EmitExpr(lhs, Prec(op)), op, EmitExpr(rhs.lhs, Prec(rhs.op)), rhs.op,
            EmitExpr(rhs.rhs, Prec(rhs.op) + 1));
  }

  // ----- exactly the parentheses that are needed -----

  /** An operand is its text alone, in parentheses or not. */
  predicate IsOperand(ts: seq<Token>, e: Expr, bare: bool) {
    ts == if bare then Alone(e) else Parenthesized(Alone(e))
  }

  lemma {:induction false} IsBareOrNot(e: Expr, m: nat)
    ensures IsOperand(EmitExpr(e, m), e, !e.Bin? || Prec(e.op) >= m)
    ensures Alone(e) != Parenthesized(Alone(e))
  {
    assert |Alone(e)| != |Parenthesized(Alone(e))|;
  }

  /** The text of an operation is its left operand, the operator and its right operand. The left one
      stands in parentheses exactly when the text without them does not read as the operation, and so
      does the right one. */
  lemma {:induction false} OnlyNeededParens(op: BinOp, lhs: Expr, rhs: Expr) returns (l: seq<Token>, r: seq<Token>)
    ensures Alone(Bin(op, lhs, rhs)) == Operation(l, op, r)
    ensures IsOperand(l, lhs, ReadsAs(Operation(Alone(lhs), op, r), Bin(op, lhs, rhs)))
    ensures IsOperand(r, rhs, ReadsAs(Operation(l, op, Alone(rhs)), Bin(op, lhs, rhs)))
  {
    l, r := EmitExpr(lhs, Prec(op)), EmitExpr(rhs, Prec(op) + 1);
    var left, right := AfterLeft(op, lhs, rhs, 0), BeforeRight(op, lhs, rhs, 0);
    AfterLeftText(op, lhs, rhs, 0);
    BeforeRightText(op, lhs, rhs, 0);
    AloneReads(left);
    AloneReads(right);
    IsBareOrNot(lhs, Prec(op));
    IsBareOrNot(rhs, Prec(op) + 1);
  }

  /** A ternary always stands in parentheses. */
  lemma {:induction false} TernaryIsParenthesized(c: Expr, t: Expr, e: Expr, minPrec: nat)
    ensures EmitExpr(Tern(c, t, e), minPrec) ==
            Parenthesized(Alone(c) + ([Quest] + (Alone(t) + ([Colon] + Alone(e)))))
  {
    ShiftTwo(Alone(c), [Quest], Alone(t) + ([Colon] + Alone(e)), [RPar]);
    ShiftTwo(Alone(t), [Colon], Alone(e), [RPar]);
  }

  /** The expressions of statements, their tests and the arguments of calls stand as they do alone. */
  lemma {:induction false} PartsStandAlone(e: Expr, name: string, body: seq<Stmt>, args: seq<Expr>)
    ensures EmitStmt(Decl(name, e)) == [Ty("int"), Id(name), Equals] + (Alone(e) + [Semi])
    ensures EmitStmt(Asn(name, e)) == [Id(name), Equals] + (Alone(e) + [Semi])
    ensures EmitStmt(Return(e)) == [KwReturn] + (Alone(e) + [Semi])
    ensures EmitStmt(If(e, body)) == [KwIf] + (Parenthesized(Alone(e)) + Braced(body))
    ensures EmitStmt(While(e, body)) == [KwWhile] + (Parenthesized(Alone(e)) + Braced(body))
    ensures EmitStmt(DoWhile(body, e)) == [KwDo] + (Braced(body) + ([KwWhile] + (Parenthesized(Alone(e)) + [Semi])))
    ensures args != [] ==> EmitArgs(args + [e]) == EmitArgs(args) + ([Comma] + Alone(e))
    ensures EmitArgs([e]) == Alone(e)
  {
    if args != [] { ArgsAppend(args, e); }
  }

  lemma {:induction false} ArgsAppend(args: seq<Expr>, e: Expr)
    requires args != []
    ensures EmitArgs(args + [e]) == EmitArgs(args) + ([Comma] + Alone(e))
  {
    assert (args + [e])[1..] == args[1..] + [e];
    if |args| == 1 {
      assert args[1..] == [] && [] + [e] == [e];
    } else {
      ArgsAppend(args[1..], e);
      ShiftTwo(Alone(args[0]), [Comma], EmitArgs(args[1..]), [Comma] + Alone(e));
    }
  }
}
