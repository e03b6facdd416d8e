/** How the emitted text is broken into lines and indented: every line ends at a statement's or a block's
    end or start, and is indented by the number of blocks that are open where it stands. */
module TortureIndent {
  import opened Sequences
  import opened TortureAst
  import opened TortureEmitter

  // ----- lines -----

  predicate IsBreak(t: Token) {
    t == LBrace || t == RBrace || t == Semi
  }

  /** A brace opens at the end of a line and closes at its start; a semicolon ends it, except in the
      heading of a `for`. */
  predicate IsLine(ts: seq<Token>) {
    && ts != []
    && (ts[|ts| - 1] == Semi || ts[|ts| - 1] == LBrace || ts == [RBrace])
    && (forall k :: 0 <= k < |ts| - 1 ==> ts[k] != LBrace && (ts[k] == Semi ==> ts[0] == KwFor))
    && (forall k :: 1 <= k < |ts| ==> ts[k] != RBrace)
  }

  /** Blocks opened less blocks closed. */
  function Depth(ts: seq<Token>): int {
    if ts == [] then 0
    else (match ts[0] case LBrace => 1 case RBrace => -1 case _ => 0) + Depth(ts[1..])
  }

  /** Where `base` blocks are open before it, a line stands at that depth, or one less if it closes one. */
  predicate StandsAt(l: Line, base: int) {
    l.tokens != [] && l.indent == if l.tokens[0] == RBrace then base - 1 else base
  }

  /** Every line stands at the depth that the lines before it leave. */
  predicate LaidOut(lines: seq<Line>, base: int) {
    lines == [] || (StandsAt(lines[0], base) && LaidOut(lines[1..], base + Depth(lines[0].tokens)))
  }

  // ----- depths -----

  lemma {:induction false} DepthAppend(a: seq<Token>, b: seq<Token>)
    ensures Depth(a + b) == Depth(a) + Depth(b)
  {
    if a == [] {
      assert a + b == b;
    } else {
      assert (a + b)[1..] == a[1..] + b;
      DepthAppend(a[1..], b);
    }
  }

  predicate NoBreaks(ts: seq<Token>) {
    forall k :: 0 <= k < |ts| ==> !IsBreak(ts[k])
  }

  lemma {:induction false} NoBreaksNoDepth(ts: seq<Token>)
    requires NoBreaks(ts)
    ensures Depth(ts) == 0
  {
    if ts != [] { NoBreaksNoDepth(ts[1..]); }
  }

  lemma {:induction false} ExprHasNoBreaks(e: Expr, minPrec: nat)
    ensures NoBreaks(EmitExpr(e, minPrec))
    decreases e
  {
    match e
    case Var(_) =>
    case Lit(_) =>
    case Call(_, args) => ArgsHaveNoBreaks(args);
    case Tern(cond, thn, els) =>
      ExprHasNoBreaks(cond, 0);
      ExprHasNoBreaks(thn, 0);
      ExprHasNoBreaks(els, 0);
      var arms := EmitExpr(thn, 0) + ([Colon] + (EmitExpr(els, 0) + [RPar]));
      assert NoBreaks(arms);
    case Bin(op, lhs, rhs) =>
      ExprHasNoBreaks(lhs, Prec(op));
      ExprHasNoBreaks(rhs, Prec(op) + 1);
      var s := EmitExpr(lhs, Prec(op)) + ([Op(op)] + EmitExpr(rhs, Prec(op) + 1));
      assert NoBreaks(s);
  }

  lemma {:induction false} ArgsHaveNoBreaks(args: seq<Expr>)
    ensures NoBreaks(EmitArgs(args))
    decreases args
  {
    if args != [] {
      ExprHasNoBreaks(args[0], 0);
      ArgsHaveNoBreaks(args[1..]);
    }
  }

  // ----- laying out one after the other -----

  lemma {:induction false} LaidOutAppend(a: seq<Line>, b: seq<Line>, base: int)
    requires LaidOut(a, base) && LaidOut(b, base + Depth(Text(a)))
    ensures LaidOut(a + b, base)
  {
    if a == [] {
      assert a + b == b;
    } else {
      assert (a + b)[1..] == a[1..] + b;
      DepthAppend(a[0].tokens, Text(a[1..]));
      LaidOutAppend(a[1..], b, base + Depth(a[0].tokens));
    }
  }

  lemma {:induction false} OneLaidOut(l: Line, base: int)
    requires StandsAt(l, base)
    ensures LaidOut([l], base) && Text([l]) == l.tokens
  {
    assert [l][1..] == [];
    TextOfOne(l);
  }

  /** Lines that leave the depth as it was. */
  predicate IsBlock(lines: seq<Line>, base: int) {
    LaidOut(lines, base) && Depth(Text(lines)) == 0
  }

  lemma {:induction false} BlockThen(block: seq<Line>, close: seq<Line>, base: int)
    requires IsBlock(block, base) && LaidOut(close, base)
    ensures LaidOut(block + close, base)
  {
    LaidOutAppend(block, close, base);
  }

  lemma {:induction false} OpenThen(open: Line, rest: seq<Line>, base: int, inner: int)
    requires StandsAt(open, base) && base + Depth(open.tokens) == inner && LaidOut(rest, inner)
    ensures LaidOut([open] + rest, base)
  {
    assert ([open] + rest)[1..] == rest;
  }

  lemma {:induction false} NestDepth(open: Line, block: seq<Line>, close: seq<Line>)
    requires Depth(Text(block)) == 0
    ensures Depth(Text(Nest(open, block, close))) == Depth(open.tokens) + Depth(Text(close))
  {
    TextOfNest(open, block, close);
    DepthAppend(open.tokens, Text(block) + Text(close));
    DepthAppend(Text(block), Text(close));
  }

  /** A heading that opens a block, the block one deeper, and a rest that closes it. */
  lemma {:induction false} NestLaidOut(open: Line, block: seq<Line>, close: seq<Line>, indent: nat, base: int)
    requires StandsAt(open, base) && Depth(open.tokens) == indent + 1 - base
    requires IsBlock(block, indent + 1) && LaidOut(close, indent + 1)
    ensures LaidOut(Nest(open, block, close), base)
    ensures Depth(Text(Nest(open, block, close))) == Depth(open.tokens) + Depth(Text(close))
  {
    BlockThen(block, close, indent + 1);
    OpenThen(open, block + close, base, indent + 1);
    NestDepth(open, block, close);
  }

  // ----- the lines of statements -----

  /** A line of a statement, with what comes before and after the part without breaks. */
  lemma {:induction false} LineDepth(first: seq<Token>, mid: seq<Token>, last: seq<Token>)
    requires NoBreaks(mid)
    ensures Depth(first + (mid + last)) == Depth(first) + Depth(last)
  {
    NoBreaksNoDepth(mid);
    DepthAppend(first, mid + last);
    DepthAppend(mid, last);
  }

  lemma {:induction false} ParenHasNoBreaks(e: Expr)
    ensures NoBreaks(Paren(e))
  {
    ExprHasNoBreaks(e, 0);
  }

  lemma {:induction false} OneDepth(t: Token)
    ensures Depth([t]) == match t case LBrace => 1 case RBrace => -1 case _ => 0
  {
    assert Depth([t][1..]) == 0;
  }

  lemma {:induction false} HeadLine(keyword: Token, cond: Expr, indent: nat)
    requires !IsBreak(keyword)
    ensures var l := Line(indent, [keyword] + (Paren(cond) + [LBrace])); StandsAt(l, indent) && Depth(l.tokens) == 1
  {
    ParenHasNoBreaks(cond);
    LineDepth([keyword], Paren(cond), [LBrace]);
    OneDepth(keyword);
    OneDepth(LBrace);
  }

  lemma {:induction false} ForLine(name: string, start: int, cond: Expr, indent: nat)
    ensures var l := Line(indent, ForHeader(name, start, cond) + [LBrace]);
            StandsAt(l, indent) && Depth(l.tokens) == 1
  {
    ForHeaderHasNoBraces(name, start, cond);
    FlatDepth(ForHeader(name, start, cond));
    DepthAppend(ForHeader(name, start, cond), [LBrace]);
    OneDepth(LBrace);
  }

  lemma {:induction false} ForHeaderHasNoBraces(name: string, start: int, cond: Expr)
    ensures LBrace !in ForHeader(name, start, cond) && RBrace !in ForHeader(name, start, cond)
    ensures ForHeader(name, start, cond)[0] == KwFor
  {
    ExprHasNoBreaks(cond, 0);
  }

  lemma {:induction false} FlatDepth(ts: seq<Token>)
    requires LBrace !in ts && RBrace !in ts
    ensures Depth(ts) == 0
  {
    if ts != [] { FlatDepth(ts[1..]); }
  }

  /** A closing brace, alone or with the test of a `do` loop. */
  lemma {:induction false} CloseLine(indent: nat)
    ensures LaidOut([Line(indent, [RBrace])], indent + 1) && Depth(Text([Line(indent, [RBrace])])) == -1
  {
    OneLaidOut(Line(indent, [RBrace]), indent + 1);
    OneDepth(RBrace);
  }

  lemma {:induction false} DoWhileCloseLine(cond: Expr, indent: nat)
    ensures var l := Line(indent, DoWhileEnd(cond)); LaidOut([l], indent + 1) && Depth(Text([l])) == -1
  {
    ParenHasNoBreaks(cond);
    var l := Line(indent, DoWhileEnd(cond));
    DepthAppend([RBrace], [KwWhile] + (Paren(cond) + [Semi]));
    LineDepth([KwWhile], Paren(cond), [Semi]);
    OneDepth(RBrace);
    OneDepth(KwWhile);
    OneDepth(Semi);
    OneLaidOut(l, indent + 1);
  }

  /** A statement without a block of its own is one line. */
  lemma {:induction false} SimpleLine(s: Stmt, indent: nat)
    requires s.Decl? || s.Asn? || s.Break? || s.Continue? || s.Return?
    ensures IsBlock([Line(indent, EmitStmt(s))], indent)
  {
    SimpleIsLine(s);
    FlatDepth(EmitStmt(s));
    OneLaidOut(Line(indent, EmitStmt(s)), indent);
  }

  lemma {:induction false} SimpleIsLine(s: Stmt)
    requires s.Decl? || s.Asn? || s.Break? || s.Continue? || s.Return?
    ensures IsLine(EmitStmt(s)) && LBrace !in EmitStmt(s) && RBrace !in EmitStmt(s)
  {
    if s.Decl? || s.Asn? || s.Return? { ExprHasNoBreaks(s.expr, 0); }
  }

  /** The lines of any block stand at its depth, and close every block that they open. */
  lemma {:induction false} BlockIsLaidOut(stmts: seq<Stmt>, indent: nat)
    ensures IsBlock(BlockLines(stmts, indent), indent)
    decreases stmts, 0
  {
    if stmts != [] {
      StmtIsLaidOut(stmts[0], indent);
      BlockIsLaidOut(stmts[1..], indent);
      LaidOutAppend(StmtLines(stmts[0], indent), BlockLines(stmts[1..], indent), indent);
      TextAppend(StmtLines(stmts[0], indent), BlockLines(stmts[1..], indent));
      DepthAppend(Text(StmtLines(stmts[0], indent)), Text(BlockLines(stmts[1..], indent)));
    }
  }

  lemma {:induction false} StmtIsLaidOut(s: Stmt, indent: nat)
    ensures IsBlock(StmtLines(s, indent), indent)
    decreases s, 0
  {
    match s
    case If(_, thn) =>
      BlockIsLaidOut(thn, indent + 1);
      IfIsLaidOut(s, indent);
    case IfElse(_, thn, els) =>
      BlockIsLaidOut(thn, indent + 1);
      BlockIsLaidOut(els, indent + 1);
      BothIsLaidOut(s, indent);
    case For(_, _, _, body) =>
      BlockIsLaidOut(body, indent + 1);
      ForIsLaidOut(s, indent);
    case While(_, body) =>
      BlockIsLaidOut(body, indent + 1);
      WhileIsLaidOut(s, indent);
    case DoWhile(body, cond) =>
      BlockIsLaidOut(body, indent + 1);
      DoIsLaidOut(BlockLines(body, indent + 1), cond, indent);
    case _ => SimpleLine(s, indent);
  }

  lemma {:induction false} IfIsLaidOut(s: Stmt, indent: nat)
    requires s.If? && IsBlock(BlockLines(s.thn, indent + 1), indent + 1)
    ensures IsBlock(StmtLines(s, indent), indent)
  {
    HeadLine(KwIf, s.cond, indent);
    BracedIsLaidOut(IfHead(s.cond), BlockLines(s.thn, indent + 1), indent);
  }

  lemma {:induction false} BothIsLaidOut(s: Stmt, indent: nat)
    requires s.IfElse? && IsBlock(BlockLines(s.thn, indent + 1), indent + 1)
    requires IsBlock(BlockLines(s.els, indent + 1), indent + 1)
    ensures IsBlock(StmtLines(s, indent), indent)
  {
    HeadLine(KwIf, s.cond, indent);
    IfElseIsLaidOut(IfHead(s.cond), BlockLines(s.thn, indent + 1), BlockLines(s.els, indent + 1), indent);
  }

  lemma {:induction false} ForIsLaidOut(s: Stmt, indent: nat)
    requires s.For? && IsBlock(BlockLines(s.body, indent + 1), indent + 1)
    ensures IsBlock(StmtLines(s, indent), indent)
  {
    ForLine(s.name, s.start, s.cond, indent);
    BracedIsLaidOut(ForHeader(s.name, s.start, s.cond) + [LBrace], BlockLines(s.body, indent + 1), indent);
  }

  lemma {:induction false} WhileIsLaidOut(s: Stmt, indent: nat)
    requires s.While? && IsBlock(BlockLines(s.body, indent + 1), indent + 1)
    ensures IsBlock(StmtLines(s, indent), indent)
  {
    HeadLine(KwWhile, s.cond, indent);
    BracedIsLaidOut(WhileHead(s.cond), BlockLines(s.body, indent + 1), indent);
  }

  /** A heading line, an indented block and a closing brace. */
  lemma {:induction false} BracedIsLaidOut(head: seq<Token>, block: seq<Line>, indent: nat)
    requires StandsAt(Line(indent, head), indent) && Depth(head) == 1 && IsBlock(block, indent + 1)
    ensures IsBlock(Nest(Line(indent, head), block, [Line(indent, [RBrace])]), indent)
  {
    CloseLine(indent);
    NestLaidOut(Line(indent, head), block, [Line(indent, [RBrace])], indent, indent);
  }

  function ElseLines(alt: seq<Line>, indent: nat): seq<Line> {
    Nest(Line(indent, [RBrace, KwElse, LBrace]), alt, [Line(indent, [RBrace])])
  }

  lemma {:induction false} IfElseIsLaidOut(head: seq<Token>, block: seq<Line>, alt: seq<Line>, indent: nat)
    requires StandsAt(Line(indent, head), indent) && Depth(head) == 1
    requires IsBlock(block, indent + 1) && IsBlock(alt, indent + 1)
    ensures IsBlock(Nest(Line(indent, head), block, ElseLines(alt, indent)), indent)
  {
    ElseIsLaidOut(alt, indent);
    NestLaidOut(Line(indent, head), block, ElseLines(alt, indent), indent, indent);
  }

  lemma {:induction false} ElseIsLaidOut(alt: seq<Line>, indent: nat)
    requires IsBlock(alt, indent + 1)
    ensures LaidOut(ElseLines(alt, indent), indent + 1) && Depth(Text(ElseLines(alt, indent))) == -1
  {
    ElseLine(indent);
    CloseLine(indent);
    NestLaidOut(Line(indent, [RBrace, KwElse, LBrace]), alt, [Line(indent, [RBrace])], indent, indent + 1);
  }

  lemma {:induction false} ElseLine(indent: nat)
    ensures var l := Line(indent, [RBrace, KwElse, LBrace]); StandsAt(l, indent + 1) && Depth(l.tokens) == 0
  {
    assert [RBrace, KwElse, LBrace] == [RBrace] + ([KwElse] + [LBrace]);
    LineDepth([RBrace], [KwElse], [LBrace]);
    OneDepth(RBrace);
    OneDepth(LBrace);
  }

  lemma {:induction false} DoIsLaidOut(block: seq<Line>, cond: Expr, indent: nat)
    requires IsBlock(block, indent + 1)
    ensures IsBlock(Nest(Line(indent, [KwDo, LBrace]), block, [Line(indent, DoWhileEnd(cond))]), indent)
  {
    DoWhileCloseLine(cond, indent);
    DoLine(indent);
    NestLaidOut(Line(indent, [KwDo, LBrace]), block, [Line(indent, DoWhileEnd(cond))], indent, indent);
  }

  lemma {:induction false} DoLine(indent: nat)
    ensures StandsAt(Line(indent, [KwDo, LBrace]), indent) && Depth([KwDo, LBrace]) == 1
  {
    assert [KwDo, LBrace] == [KwDo] + [LBrace];
    DepthAppend([KwDo], [LBrace]);
    OneDepth(KwDo);
    OneDepth(LBrace);
  }

  // ----- where lines break -----

  ghost predicate AllLines(lines: seq<Line>) {
    forall k :: 0 <= k < |lines| ==> IsLine(lines[k].tokens)
  }

  lemma {:induction false} HeadBreaks(keyword: Token, cond: Expr)
    requires !IsBreak(keyword)
    ensures IsLine([keyword] + (Paren(cond) + [LBrace]))
  {
    ParenHasNoBreaks(cond);
  }

  lemma {:induction false} ForBreaks(name: string, start: int, cond: Expr)
    ensures IsLine(ForHeader(name, start, cond) + [LBrace])
  {
    ForHeaderHasNoBraces(name, start, cond);
  }

  lemma {:induction false} DoWhileEndBreaks(cond: Expr)
    ensures IsLine(DoWhileEnd(cond))
  {
    ParenHasNoBreaks(cond);
  }

  lemma {:induction false} NestBreaks(open: Line, block: seq<Line>, close: seq<Line>)
    requires IsLine(open.tokens) && AllLines(block) && AllLines(close)
    ensures AllLines(Nest(open, block, close))
  {
  }

  lemma {:induction false} IfElseBreaks(open: Line, block: seq<Line>, alt: seq<Line>, indent: nat)
    requires IsLine(open.tokens) && AllLines(block) && AllLines(alt)
    ensures AllLines(Nest(open, block, ElseLines(alt, indent)))
  {
    NestBreaks(Line(indent, [RBrace, KwElse, LBrace]), alt, [Line(indent, [RBrace])]);
    NestBreaks(open, block, ElseLines(alt, indent));
  }

  /** Every line of a block breaks where it should. */
  lemma {:induction false} BlockBreaks(stmts: seq<Stmt>, indent: nat)
    ensures AllLines(BlockLines(stmts, indent))
    decreases stmts, 0
  {
    if stmts != [] {
      StmtBreaks(stmts[0], indent);
      BlockBreaks(stmts[1..], indent);
    }
  }

  lemma {:induction false} StmtBreaks(s: Stmt, indent: nat)
    ensures AllLines(StmtLines(s, indent))
    decreases s, 0
  {
    var end := [Line(indent, [RBrace])];
    match s
    case If(cond, thn) =>
      HeadBreaks(KwIf, cond);
      BlockBreaks(thn, indent + 1);
      NestBreaks(Line(indent, IfHead(cond)), BlockLines(thn, indent + 1), end);
    case IfElse(cond, thn, els) =>
      HeadBreaks(KwIf, cond);
      BlockBreaks(thn, indent + 1);
      BlockBreaks(els, indent + 1);
      IfElseBreaks(Line(indent, IfHead(cond)), BlockLines(thn, indent + 1), BlockLines(els, indent + 1), indent);
    case For(name, start, cond, body) =>
      ForBreaks(name, start, cond);
      BlockBreaks(body, indent + 1);
      NestBreaks(Line(indent, ForHeader(name, start, cond) + [LBrace]), BlockLines(body, indent + 1), end);
    case While(cond, body) =>
      HeadBreaks(KwWhile, cond);
      BlockBreaks(body, indent + 1);
      NestBreaks(Line(indent, WhileHead(cond)), BlockLines(body, indent + 1), end);
    case DoWhile(body, cond) =>
      BlockBreaks(body, indent + 1);
      DoWhileEndBreaks(cond);
      NestBreaks(Line(indent, [KwDo, LBrace]), BlockLines(body, indent + 1), [Line(indent, DoWhileEnd(cond))]);
    case _ => SimpleIsLine(s);
  }

  // ----- functions -----

  function FunctionHead(f: FuncDef): seq<Token> {
    [Ty(f.retType), Id(f.name), LPar] + (EmitParams(f.params) + [RPar, LBrace])
  }

  lemma {:induction false} ParamsHaveNoBreaks(params: seq<Param>)
    ensures NoBreaks(EmitParams(params))
  {
    if |params| > 1 { ParamsHaveNoBreaks(params[1..]); }
  }

  lemma {:induction false} HeadIsLine(f: FuncDef)
    ensures StandsAt(Line(0, FunctionHead(f)), 0) && Depth(FunctionHead(f)) == 1
  {
    var first := [Ty(f.retType), Id(f.name), LPar];
    ParamsHaveNoBreaks(f.params);
    LineDepth(first, EmitParams(f.params), [RPar, LBrace]);
    FlatDepth(first);
    assert [RPar, LBrace] == [RPar] + [LBrace];
    DepthAppend([RPar], [LBrace]);
    OneDepth(RPar);
    OneDepth(LBrace);
  }

  lemma {:induction false} FunctionText(f: FuncDef)
    ensures Text(Nest(Line(0, FunctionHead(f)), BlockLines(f.body, 1), [Line(0, [RBrace])])) == EmitFunc(f)
  {
    var first, params := [Ty(f.retType), Id(f.name), LPar], EmitParams(f.params);
    var close := EmitStmts(f.body) + [RBrace];
    BracedText(first + (params + [RPar, LBrace]), f.body, 0);
    ShiftTwo(first, params, [RPar, LBrace], close);
    TwoThen(RPar, LBrace, close);
  }

  lemma {:induction false} FunctionIsLaidOut(f: FuncDef)
    ensures IsBlock(Nest(Line(0, FunctionHead(f)), BlockLines(f.body, 1), [Line(0, [RBrace])]), 0)
  {
    HeadIsLine(f);
    BlockIsLaidOut(f.body, 1);
    BracedIsLaidOut(FunctionHead(f), BlockLines(f.body, 1), 0);
  }

  lemma {:induction false} FunctionBreaks(f: FuncDef)
    ensures AllLines(Nest(Line(0, FunctionHead(f)), BlockLines(f.body, 1), [Line(0, [RBrace])]))
  {
    ParamsHaveNoBreaks(f.params);
    BlockBreaks(f.body, 1);
    NestBreaks(Line(0, FunctionHead(f)), BlockLines(f.body, 1), [Line(0, [RBrace])]);
  }

  /** The lines of a function: its text, each line at its depth, from none open to none open. */
  method FunctionLines(f: FuncDef) returns (lines: seq<Line>)
    ensures Text(lines) == EmitFunc(f) && IsBlock(lines, 0) && AllLines(lines)
  {
    var out := new Output();
    out.Add(0, FunctionHead(f));
    AppendStmts(f.body, 1, out);
    out.Add(0, [RBrace]);
    lines := out.lines;
    assert lines == Nest(Line(0, FunctionHead(f)), BlockLines(f.body, 1), [Line(0, [RBrace])]);
    FunctionText(f);
    FunctionIsLaidOut(f);
    FunctionBreaks(f);
  }
}
