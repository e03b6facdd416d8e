/** The GLSL emitter, with its text as tokens: one token per name, integer literal, operator, keyword or
    bracket. Statements come out as indented lines appended to an output list. */
module TortureEmitter {
  import opened Sequences
  import opened TortureAst

  datatype Token =
    | Id(name: string) | Num(n: int) | Op(op: BinOp) | Ty(ty: string)
    | LPar | RPar | LBrace | RBrace | Comma | Semi | Equals | Quest | Colon | PlusPlus
    | KwIf | KwElse | KwFor | KwWhile | KwDo | KwBreak | KwContinue | KwReturn

  function Prec(op: BinOp): nat {
    match op
    case Or => 1
    case And => 2
    case Eq => 3
    case Ne => 3
    case Lt => 4
    case Le => 4
    case Gt => 4
    case Ge => 4
    case Add => 5
    case Sub => 5
    case Mul => 6
  }

  // ----- expressions -----

  /** A ternary is always parenthesized; a binary operation is when it binds weaker than `minPrec`. */
  function EmitExpr(e: Expr, minPrec: nat): seq<Token> {
    match e
    case Var(name) => [Id(name)]
    case Lit(n) => [Num(n)]
    case Call(name, args) => [Id(name), LPar] + (EmitArgs(args) + [RPar])
    case Tern(cond, thn, els) =>
      [LPar] + (EmitExpr(cond, 0) + ([Quest] + (EmitExpr(thn, 0) + ([Colon] + (EmitExpr(els, 0) + [RPar])))))
    case Bin(op, lhs, rhs) =>
      var s := EmitExpr(lhs, Prec(op)) + ([Op(op)] + EmitExpr(rhs, Prec(op) + 1));
      if Prec(op) < minPrec then [LPar] + (s + [RPar]) else s
  }

  function EmitArgs(args: seq<Expr>): seq<Token> {
    if args == [] then []
    else if |args| == 1 then EmitExpr(args[0], 0)
    else EmitExpr(args[0], 0) + ([Comma] + EmitArgs(args[1..]))
  }

  function Paren(e: Expr): seq<Token> {
    [LPar] + (EmitExpr(e, 0) + [RPar])
  }

  // ----- statements -----

  function EmitStmt(s: Stmt): seq<Token> {
    match s
    case Decl(name, expr) => [Ty("int"), Id(name), Equals] + (EmitExpr(expr, 0) + [Semi])
    case Asn(name, expr) => [Id(name), Equals] + (EmitExpr(expr, 0) + [Semi])
    case If(cond, thn) => [KwIf] + (Paren(cond) + Braced(thn))
    case IfElse(cond, thn, els) => [KwIf] + (Paren(cond) + (Braced(thn) + ([KwElse] + Braced(els))))
    case For(name, start, cond, body) => ForHeader(name, start, cond) + Braced(body)
    case While(cond, body) => [KwWhile] + (Paren(cond) + Braced(body))
    case DoWhile(body, cond) => [KwDo] + (Braced(body) + ([KwWhile] + (Paren(cond) + [Semi])))
    case Break => [KwBreak, Semi]
    case Continue => [KwContinue, Semi]
    case Return(expr) => [KwReturn] + (EmitExpr(expr, 0) + [Semi])
  }

  function ForHeader(name: string, start: int, cond: Expr): seq<Token> {
    [KwFor, LPar, Ty("int"), Id(name), Equals, Num(start), Semi] +
    (EmitExpr(cond, 0) + [Semi, Id(name), PlusPlus, RPar])
  }

  function Braced(stmts: seq<Stmt>): seq<Token>
    decreases stmts, 1
  {
    [LBrace] + (EmitStmts(stmts) + [RBrace])
  }

  function EmitStmts(stmts: seq<Stmt>): seq<Token>
    decreases stmts, 0
  {
    if stmts == [] then [] else EmitStmt(stmts[0]) + EmitStmts(stmts[1..])
  }

  // ----- functions -----

  function EmitParams(params: seq<Param>): seq<Token> {
    if params == [] then []
    else if |params| == 1 then [Ty(params[0].ty), Id(params[0].name)]
    else [Ty(params[0].ty), Id(params[0].name), Comma] + EmitParams(params[1..])
  }

  function EmitFunc(f: FuncDef): seq<Token> {
    [Ty(f.retType), Id(f.name), LPar] + (EmitParams(f.params) + ([RPar] + Braced(f.body)))
  }

  // ----- lines -----

  datatype Line = Line(indent: nat, tokens: seq<Token>)

  function Nest(open: Line, block: seq<Line>, close: seq<Line>): seq<Line> {
    [open] + (block + close)
  }

  function StmtLines(s: Stmt, indent: nat): seq<Line> {
    var end := [Line(indent, [RBrace])];
    match s
    case If(cond, thn) => Nest(Line(indent, IfHead(cond)), BlockLines(thn, indent + 1), end)
    case IfElse(cond, thn, els) =>
      Nest(Line(indent, IfHead(cond)), BlockLines(thn, indent + 1),
           Nest(Line(indent, [RBrace, KwElse, LBrace]), BlockLines(els, indent + 1), end))
    case For(name, start, cond, body) =>
      Nest(Line(indent, ForHeader(name, start, cond) + [LBrace]), BlockLines(body, indent + 1), end)
    case While(cond, body) => Nest(Line(indent, WhileHead(cond)), BlockLines(body, indent + 1), end)
    case DoWhile(body, cond) =>
      Nest(Line(indent, [KwDo, LBrace]), BlockLines(body, indent + 1), [Line(indent, DoWhileEnd(cond))])
    case _ => [Line(indent, EmitStmt(s))]
  }

  function IfHead(cond: Expr): seq<Token> {
    [KwIf] + (Paren(cond) + [LBrace])
  }

  function WhileHead(cond: Expr): seq<Token> {
    [KwWhile] + (Paren(cond) + [LBrace])
  }

  function DoWhileEnd(cond: Expr): seq<Token> {
    [RBrace] + ([KwWhile] + (Paren(cond) + [Semi]))
  }

  function BlockLines(stmts: seq<Stmt>, indent: nat): seq<Line> {
    if stmts == [] then [] else StmtLines(stmts[0], indent) + BlockLines(stmts[1..], indent)
  }

  /** The text of a list of lines; indentation is layout only. */
  function Text(lines: seq<Line>): seq<Token> {
    if lines == [] then [] else lines[0].tokens + Text(lines[1..])
  }

  lemma {:induction false} TextAppend(a: seq<Line>, b: seq<Line>)
    ensures Text(a + b) == Text(a) + Text(b)
  {
    if a == [] {
      assert a + b == b;
    } else {
      assert (a + b)[1..] == a[1..] + b;
      TextAppend(a[1..], b);
    }
  }

  lemma {:induction false} TextOfOne(l: Line)
    ensures Text([l]) == l.tokens
  {
    assert Text([l][1..]) == [];
  }

  lemma {:induction false} TextOfNest(open: Line, block: seq<Line>, close: seq<Line>)
    ensures Text(Nest(open, block, close)) == open.tokens + (Text(block) + Text(close))
  {
    TextAppend([open], block + close);
    TextAppend(block, close);
    TextOfOne(open);
  }

  /** Line by line or in one piece, a block has the same text. */
  lemma {:induction false} BlockLinesText(stmts: seq<Stmt>, indent: nat)
    ensures Text(BlockLines(stmts, indent)) == EmitStmts(stmts)
    decreases stmts, 0
  {
    if stmts != [] {
      StmtLinesText(stmts[0], indent);
      BlockLinesText(stmts[1..], indent);
      TextAppend(StmtLines(stmts[0], indent), BlockLines(stmts[1..], indent));
    }
  }

  lemma TwoThen(a: Token, b: Token, c: seq<Token>)
    ensures [a, b] + c == [a] + ([b] + c)
  {
  }

  lemma {:induction false} StmtLinesText(s: Stmt, indent: nat)
    ensures Text(StmtLines(s, indent)) == EmitStmt(s)
    decreases s, 1
  {
    match s
    case If(cond, thn) =>
      ShiftTwo([KwIf], Paren(cond), [LBrace], EmitStmts(thn) + [RBrace]);
      BracedText(IfHead(cond), thn, indent);
    case IfElse(_, _, _) => IfElseText(s, indent);
    case For(name, start, cond, body) =>
      Shift(ForHeader(name, start, cond), [LBrace], EmitStmts(body) + [RBrace]);
      BracedText(ForHeader(name, start, cond) + [LBrace], body, indent);
    case While(cond, body) =>
      ShiftTwo([KwWhile], Paren(cond), [LBrace], EmitStmts(body) + [RBrace]);
      BracedText(WhileHead(cond), body, indent);
    case DoWhile(_, _) => DoWhileText(s, indent);
    case _ => TextOfOne(Line(indent, EmitStmt(s)));
  }

  /** A heading line, an indented block and a closing brace. */
  lemma {:induction false} BracedText(head: seq<Token>, block: seq<Stmt>, indent: nat)
    ensures Text(Nest(Line(indent, head), BlockLines(block, indent + 1), [Line(indent, [RBrace])])) ==
            head + (EmitStmts(block) + [RBrace])
    decreases block, 1
  {
    TextOfOne(Line(indent, [RBrace]));
    BlockLinesText(block, indent + 1);
    TextOfNest(Line(indent, head), BlockLines(block, indent + 1), [Line(indent, [RBrace])]);
  }

  lemma {:induction false} DoWhileText(s: Stmt, indent: nat)
    requires s.DoWhile?
    ensures Text(StmtLines(s, indent)) == EmitStmt(s)
    decreases s, 0
  {
    var DoWhile(body, cond) := s;
    var end := Line(indent, DoWhileEnd(cond));
    TextOfOne(end);
    BlockLinesText(body, indent + 1);
    TextOfNest(Line(indent, [KwDo, LBrace]), BlockLines(body, indent + 1), [end]);
    var rest := [KwWhile] + (Paren(cond) + [Semi]);
    ShiftTwo([LBrace], EmitStmts(body), [RBrace], rest);
    TwoThen(KwDo, LBrace, EmitStmts(body) + ([RBrace] + rest));
  }

  lemma {:induction false} IfElseText(s: Stmt, indent: nat)
    requires s.IfElse?
    ensures Text(StmtLines(s, indent)) == EmitStmt(s)
    decreases s, 0
  {
    var IfElse(cond, thn, els) := s;
    var mid, end := Line(indent, [RBrace, KwElse, LBrace]), Line(indent, [RBrace]);
    var tail := Nest(mid, BlockLines(els, indent + 1), [end]);
    var alt := [KwElse] + Braced(els);
    ShiftTwo([KwIf], Paren(cond), [LBrace], EmitStmts(thn) + ([RBrace] + alt));
    ShiftTwo([LBrace], EmitStmts(thn), [RBrace], alt);
    BlockLinesText(thn, indent + 1);
    ElseText(els, indent);
    TextOfNest(Line(indent, IfHead(cond)), BlockLines(thn, indent + 1), tail);
  }

  lemma {:induction false} ElseText(els: seq<Stmt>, indent: nat)
    ensures Text(Nest(Line(indent, [RBrace, KwElse, LBrace]), BlockLines(els, indent + 1), [Line(indent, [RBrace])])) ==
            [RBrace] + ([KwElse] + Braced(els))
    decreases els, 1
  {
    var mid, end := Line(indent, [RBrace, KwElse, LBrace]), Line(indent, [RBrace]);
    TextOfOne(end);
    BlockLinesText(els, indent + 1);
    TextOfNest(mid, BlockLines(els, indent + 1), [end]);
    ThreeThen(RBrace, KwElse, LBrace, EmitStmts(els) + [RBrace]);
  }

  lemma ThreeThen(a: Token, b: Token, c: Token, d: seq<Token>)
    ensures [a, b, c] + d == [a] + ([b] + ([c] + d))
  {
  }

  /** The list the emitter appends to. */
  class Output {
    var lines: seq<Line>

    constructor ()
      ensures lines == []
    {
      lines := [];
    }

    method Add(indent: nat, tokens: seq<Token>)
      modifies this
      ensures lines == old(lines) + [Line(indent, tokens)]
    {
      lines := lines + [Line(indent, tokens)];
    }
  }

  /** Append the statements' lines, recursing into nested blocks. */
  method AppendStmts(stmts: seq<Stmt>, indent: nat, out: Output)
    modifies out
    ensures out.lines == old(out.lines) + BlockLines(stmts, indent)
    decreases stmts, 0
  {
    for i := 0 to |stmts|
      invariant out.lines + BlockLines(stmts[i..], indent) == old(out.lines) + BlockLines(stmts, indent)
    {
      AppendStmt(stmts[i], indent, out);
      assert stmts[i..][1..] == stmts[i + 1..];
    }
  }

  method AppendStmt(s: Stmt, indent: nat, out: Output)
    modifies out
    ensures out.lines == old(out.lines) + StmtLines(s, indent)
    decreases s, 1
  {
    match s
    case If(cond, thn) => AppendNest(indent, IfHead(cond), thn, [RBrace], out);
    case IfElse(_, _, _) => AppendIfElse(s, indent, out);
    case For(name, start, cond, body) =>
      AppendNest(indent, ForHeader(name, start, cond) + [LBrace], body, [RBrace], out);
    case While(cond, body) => AppendNest(indent, WhileHead(cond), body, [RBrace], out);
    case DoWhile(body, cond) => AppendNest(indent, [KwDo, LBrace], body, DoWhileEnd(cond), out);
    case _ => out.Add(indent, EmitStmt(s));
  }

  method AppendIfElse(s: Stmt, indent: nat, out: Output)
    requires s.IfElse?
    modifies out
    ensures out.lines == old(out.lines) + StmtLines(s, indent)
    decreases s, 0
  {
    out.Add(indent, IfHead(s.cond));
    AppendStmts(s.thn, indent + 1, out);
    AppendNest(indent, [RBrace, KwElse, LBrace], s.els, [RBrace], out);
  }

  method AppendNest(indent: nat, open: seq<Token>, block: seq<Stmt>, close: seq<Token>, out: Output)
    modifies out
    ensures out.lines ==
            old(out.lines) + Nest(Line(indent, open), BlockLines(block, indent + 1), [Line(indent, close)])
    decreases block, 1
  {
    out.Add(indent, open);
    AppendStmts(block, indent + 1, out);
    out.Add(indent, close);
  }
}
