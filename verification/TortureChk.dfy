/** The side-effecting helper `chk(k, v)`: it appends the digit `k` to the global `g_trace` and answers
    `v > 0`. Evaluating a formula of `&&`, `||`, ternaries, plain conditions and `chk` calls leaves in
    `g_trace` exactly the calls that short-circuiting and choosing make, in order. */
module TortureChk {
  import opened TortureAst
  import opened TortureSemantics
  import opened TortureTrace

  const G: string := "g_trace"
  const CHK_NAME: string := "chk"

  const CHK: FuncDef := FuncDef("bool", CHK_NAME, [Param("int", "k"), Param("int", "v")], [
    Asn(G, Bin(Add, Bin(Mul, Var(G), Lit(10)), Var("k"))),
    Return(Bin(Gt, Var("v"), Lit(0)))])

  // ----- expressions of local variables -----

  /** No calls, and no variable but those of the frame. */
  predicate Local(e: Expr, env: Env) {
    match e
    case Var(name) => name in env
    case Lit(_) => true
    case Bin(_, lhs, rhs) => Local(lhs, env) && Local(rhs, env)
    case Tern(cond, thn, els) => Local(cond, env) && Local(thn, env) && Local(els, env)
    case Call(_, _) => false
  }

  /** What such an expression comes to, without fuel. */
  function Meaning(e: Expr, env: Env): (r: EvalResult)
    requires Local(e, env)
    ensures r.Val? || r == Raised(Failed(Overflow))
  {
    match e
    case Var(name) => Val(env[name])
    case Lit(n) => Val(IntV(n))
    case Tern(cond, thn, els) =>
      var c := Meaning(cond, env);
      if c.Raised? then c else if Truthy(c.value) then Meaning(thn, env) else Meaning(els, env)
    case Bin(op, lhs, rhs) =>
      var a := Meaning(lhs, env);
      if a.Raised? then a
      else if op.And? && !Truthy(a.value) then Val(BoolV(false))
      else if op.Or? && Truthy(a.value) then Val(BoolV(true))
      else
        var b := Meaning(rhs, env);
        if b.Raised? then b
        else if op.And? || op.Or? then Val(BoolV(Truthy(b.value)))
        else Arith(op, AsInt(a.value), AsInt(b.value))
  }

  ghost predicate Means(r: EvalOut, res: EvalResult, globals: Env) {
    r.res == Raised(OutOfFuel) || (r.res == res && r.world.globals == globals)
  }

  lemma {:induction false} LocalMeans(fs: Funcs, e: Expr, env: Env, w: World)
    requires Local(e, env)
    ensures Means(Eval(fs, e, env, w), Meaning(e, env), w.globals)
    decreases e, 1
  {
    if Spent(w) { return; }
    match e
    case Var(_) =>
    case Lit(_) =>
    case Tern(cond, thn, els) =>
      LocalMeans(fs, cond, env, Burn(w));
      var c := Eval(fs, cond, env, Burn(w));
      if c.res.Val? {
        if Truthy(c.res.value) { LocalMeans(fs, thn, env, c.world); } else { LocalMeans(fs, els, env, c.world); }
      }
    case Bin(_, _, _) => LocalBinMeans(fs, e, env, w);
  }

  lemma {:induction false} LocalBinMeans(fs: Funcs, e: Expr, env: Env, w: World)
    requires e.Bin? && Local(e, env)
    ensures Means(Eval(fs, e, env, w), Meaning(e, env), w.globals)
    decreases e, 0
  {
    if Spent(w) { return; }
    LocalMeans(fs, e.lhs, env, Burn(w));
    var a := Eval(fs, e.lhs, env, Burn(w));
    if a.res.Val? { LocalMeans(fs, e.rhs, env, a.world); }
  }

  // ----- formulas and their reference: an answer and the calls made on the way -----

  datatype Formula =
    | Chk(k: int, operand: Expr)
    | Plain(e: Expr)
    | And(l: Formula, r: Formula)
    | Or(l: Formula, r: Formula)
    | Choose(test: Formula, yes: Formula, no: Formula)

  function ToExpr(f: Formula): Expr {
    match f
    case Chk(k, operand) => Call(CHK_NAME, [Lit(k), operand])
    case Plain(e) => e
    case And(l, r) => Bin(BinOp.And, ToExpr(l), ToExpr(r))
    case Or(l, r) => Bin(BinOp.Or, ToExpr(l), ToExpr(r))
    case Choose(test, yes, no) => Tern(ToExpr(test), ToExpr(yes), ToExpr(no))
  }

  predicate Sensible(f: Formula, env: Env) {
    match f
    case Chk(k, operand) => IsDigit(k) && Local(operand, env)
    case Plain(e) => Local(e, env)
    case And(l, r) => Sensible(l, env) && Sensible(r, env)
    case Or(l, r) => Sensible(l, env) && Sensible(r, env)
    case Choose(test, yes, no) => Sensible(test, env) && Sensible(yes, env) && Sensible(no, env)
  }

  /** An operand may overflow. */
  datatype Answer = Yes | No | Overflows

  function Truth(f: Formula, env: Env): Answer
    requires Sensible(f, env)
  {
    match f
    case Chk(_, operand) => (match Meaning(operand, env)
                             case Val(v) => if AsInt(v) > 0 then Yes else No
                             case Raised(_) => Overflows)
    case Plain(e) => (match Meaning(e, env)
                      case Val(v) => if Truthy(v) then Yes else No
                      case Raised(_) => Overflows)
    case And(l, r) => if Truth(l, env) == Yes then Truth(r, env) else Truth(l, env)
    case Or(l, r) => if Truth(l, env) == No then Truth(r, env) else Truth(l, env)
    case Choose(test, yes, no) =>
      match Truth(test, env)
      case Yes => Truth(yes, env)
      case No => Truth(no, env)
      case Overflows => Overflows
  }

  function Calls(f: Formula, env: Env): (ks: seq<int>)
    requires Sensible(f, env)
    ensures Digits(ks)
  {
    match f
    case Chk(k, operand) => if Meaning(operand, env).Val? then [k] else []
    case Plain(_) => []
    case And(l, r) => Calls(l, env) + if Truth(l, env) == Yes then Calls(r, env) else []
    case Or(l, r) => Calls(l, env) + if Truth(l, env) == No then Calls(r, env) else []
    case Choose(test, yes, no) =>
      Calls(test, env) +
      match Truth(test, env)
      case Yes => Calls(yes, env)
      case No => Calls(no, env)
      case Overflows => []
  }

  // ----- one call -----

  lemma {:induction false} TraceTerm(fs: Funcs, k: int, env: Env, w: World, n: int)
    requires G !in env && "k" in env && env["k"] == IntV(k) && G in w.globals && w.globals[G] == IntV(n)
    ensures var e := Bin(Add, Bin(Mul, Var(G), Lit(10)), Var("k"));
            var r := Eval(fs, e, env, w);
            || r.res == Raised(OutOfFuel)
            || (&& r.world.globals == w.globals
                && r.res == if CheckI32(n * 10).Val? then CheckI32(n * 10 + k) else Raised(Failed(Overflow)))
  {
    if Spent(w) { return; }
    TraceTimesTen(fs, env, Burn(w), n);
    var a := Eval(fs, Bin(Mul, Var(G), Lit(10)), env, Burn(w));
    if a.res.Val? { var b := Eval(fs, Var("k"), env, a.world); }
  }

  lemma {:induction false} TraceTimesTen(fs: Funcs, env: Env, w: World, n: int)
    requires G !in env && G in w.globals && w.globals[G] == IntV(n)
    ensures var r := Eval(fs, Bin(Mul, Var(G), Lit(10)), env, w);
            r.res == Raised(OutOfFuel) || (r.world.globals == w.globals && r.res == CheckI32(n * 10))
  {
    if !Spent(w) {
      var a := Eval(fs, Var(G), env, Burn(w));
      if a.res.Val? { var b := Eval(fs, Lit(10), env, a.world); }
    }
  }

  lemma {:induction false} ChkReturns(fs: Funcs, env: Env, w: World, v: Value)
    requires "v" in env && env["v"] == v
    ensures var r := Exec(fs, Return(Bin(Gt, Var("v"), Lit(0))), env, w);
            || r.flow == Raise(OutOfFuel)
            || (r.flow == Raise(ReturnSig(BoolV(AsInt(v) > 0))) && r.world.globals == w.globals)
  {
    if Spent(w) { return; }
    var w1 := Burn(w);
    if Spent(w1) { return; }
    var a := Eval(fs, Var("v"), env, Burn(w1));
    if a.res.Val? { var b := Eval(fs, Lit(0), env, a.world); }
  }

  /** How an evaluation that should append `ks` to the trace may end: out of fuel, by the i32 check on a
      trace of more than nine digits, or with the answer and the trace. */
  ghost predicate Appends(r: EvalOut, answer: Answer, w: World, past: seq<int>, ks: seq<int>) {
    || r.res == Raised(OutOfFuel)
    || (r.res == Raised(Failed(Overflow)) && |past + ks| > 9)
    || (Answers(r.res, answer) && r.world.globals == w.globals[G := IntV(Encode(past + ks))])
  }

  ghost predicate Answers(res: EvalResult, answer: Answer) {
    match answer
    case Overflows => res == Raised(Failed(Overflow))
    case Yes => res.Val? && Truthy(res.value)
    case No => res.Val? && !Truthy(res.value)
  }

  ghost predicate Tracing(fs: Funcs, w: World, past: seq<int>) {
    && CHK_NAME in fs && fs[CHK_NAME] == CHK
    && Digits(past) && G in w.globals && w.globals[G] == IntV(Encode(past))
  }

  lemma {:induction false} ChkAppends(fs: Funcs, k: int, v: Value, w: World, past: seq<int>)
    requires Tracing(fs, w, past) && IsDigit(k)
    ensures var r := Invoke(fs, CHK_NAME, [IntV(k), v], w);
            && Appends(r, if AsInt(v) > 0 then Yes else No, w, past, [k])
            && (r.res.Val? ==> r.res.value == BoolV(AsInt(v) > 0))
  {
    var vals := [IntV(k), v];
    var env := Bind(CHK.params, vals);
    assert env == map["k" := IntV(k), "v" := v] by { FrameOfChk(k, v); }
    ChkTraces(fs, k, env, w, past);
    var s := Exec(fs, CHK.body[0], env, w);
    if s.flow.Raise? {
      assert ExecBlock(fs, CHK.body, env, w) == s;
    } else {
      ChkReturns(fs, env, s.world, v);
      var rest := CHK.body[1..];
      assert rest[0] == Return(Bin(Gt, Var("v"), Lit(0)));
      assert ExecBlock(fs, rest, env, s.world) == Exec(fs, rest[0], env, s.world);
    }
  }

  /** The first statement of `chk` appends the digit. */
  lemma {:induction false} ChkTraces(fs: Funcs, k: int, env: Env, w: World, past: seq<int>)
    requires Tracing(fs, w, past) && IsDigit(k) && G !in env && "k" in env && env["k"] == IntV(k)
    ensures var s := Exec(fs, CHK.body[0], env, w);
            || s.flow == Raise(OutOfFuel)
            || (s.flow == Raise(Failed(Overflow)) && |past| >= 9)
            || (s.flow == Next && s.env == env && s.world.globals == w.globals[G := IntV(Encode(past + [k]))])
  {
    EncodeSnoc(past, k);
    if |past| <= 8 { EightDigitsFit(past); }
    if !Spent(w) { TraceTerm(fs, k, env, Burn(w), Encode(past)); }
  }

  lemma FrameOfChk(k: int, v: Value)
    ensures Bind(CHK.params, [IntV(k), v]) == map["k" := IntV(k), "v" := v]
  {
    var ps := [Param("int", "k")];
    var one := Bind(ps, [IntV(k)]);
    assert CHK.params[..1] == ps && ps[..0] == [] && [IntV(k)][..0] == [];
    assert Bind(ps[..0], [IntV(k)][..0]) == map[];
    assert one == map["k" := IntV(k)];
    assert [IntV(k), v][..1] == [IntV(k)];
  }

  // ----- formulas -----

  lemma {:induction false} ChkCallAppends(fs: Funcs, f: Formula, env: Env, w: World, past: seq<int>)
    requires f.Chk? && Sensible(f, env) && Tracing(fs, w, past)
    ensures Appends(Eval(fs, ToExpr(f), env, w), Truth(f, env), w, past, Calls(f, env))
  {
    if Spent(w) { return; }
    ChkArguments(fs, f.k, f.operand, env, Burn(w));
    assert past + [] == past;
    var args := EvalArgs(fs, [Lit(f.k), f.operand], env, Burn(w));
    if args.flow.Next? {
      ChkAppends(fs, f.k, Meaning(f.operand, env).value, args.world, past);
    } else {
      assert w.globals[G := IntV(Encode(past))] == w.globals;
    }
  }

  lemma {:induction false} ChkArguments(fs: Funcs, k: int, operand: Expr, env: Env, w: World)
    requires Local(operand, env)
    ensures var r, m := EvalArgs(fs, [Lit(k), operand], env, w), Meaning(operand, env);
            || r.flow == Raise(OutOfFuel)
            || (&& r.world.globals == w.globals
                && (if m.Raised? then r.flow == Raise(m.sig) else r.flow == Next && r.vals == [IntV(k), m.value]))
  {
    var args := [Lit(k), operand];
    var a := Eval(fs, args[0], env, w);
    if a.res.Val? {
      assert args[1..] == [operand] && args[1..][1..] == [];
      LocalMeans(fs, operand, env, a.world);
      var b := Eval(fs, operand, env, a.world);
      if b.res.Val? { assert EvalArgs(fs, args[1..][1..], env, b.world) == ArgsOut(Next, [], b.world); }
    }
  }

  lemma {:induction false} Connective(fs: Funcs, f: Formula, env: Env, w: World)
    requires (f.And? || f.Or?) && !Spent(w)
    ensures var a := Eval(fs, ToExpr(f.l), env, Burn(w));
            var b := Eval(fs, ToExpr(f.r), env, a.world);
            Eval(fs, ToExpr(f), env, w) ==
            if a.res.Raised? then a
            else if Truthy(a.res.value) != f.And? then EvalOut(Val(BoolV(f.Or?)), a.world)
            else if b.res.Raised? then b
            else EvalOut(Val(BoolV(Truthy(b.res.value))), b.world)
  {
  }

  /** For every formula, state and tank: the answer is the formula's truth, and the trace has grown by
      exactly the calls that short-circuiting and choosing make. The only other ends are exhausted fuel
      and the i32 check on a trace of more than nine digits. */
  lemma {:induction false} FormulaLeavesItsCalls(fs: Funcs, f: Formula, env: Env, w: World, past: seq<int>)
    requires Sensible(f, env) && Tracing(fs, w, past)
    ensures Appends(Eval(fs, ToExpr(f), env, w), Truth(f, env), w, past, Calls(f, env))
    ensures var r := Eval(fs, ToExpr(f), env, w).res; !f.Plain? && !f.Choose? && r.Val? ==> r.value.BoolV?
    decreases f, 1
  {
    match f
    case Chk(_, _) => ChkCallAppends(fs, f, env, w, past); ChkAnswersBool(fs, f, env, w, past);
    case Plain(e) =>
      LocalMeans(fs, e, env, w);
      assert past + [] == past && w.globals[G := IntV(Encode(past))] == w.globals;
    case And(_, _) => ConnectiveAppends(fs, f, env, w, past);
    case Or(_, _) => ConnectiveAppends(fs, f, env, w, past);
    case Choose(_, _, _) => ChoiceAppends(fs, f, env, w, past);
  }

  lemma {:induction false} ChkAnswersBool(fs: Funcs, f: Formula, env: Env, w: World, past: seq<int>)
    requires f.Chk? && Sensible(f, env) && Tracing(fs, w, past)
    ensures var r := Eval(fs, ToExpr(f), env, w).res; r.Val? ==> r.value.BoolV?
  {
    if Spent(w) { return; }
    ChkArguments(fs, f.k, f.operand, env, Burn(w));
    var args := EvalArgs(fs, [Lit(f.k), f.operand], env, Burn(w));
    if args.flow.Next? { ChkAppends(fs, f.k, Meaning(f.operand, env).value, args.world, past); }
  }

  lemma {:induction false} ConnectiveAppends(fs: Funcs, f: Formula, env: Env, w: World, past: seq<int>)
    requires (f.And? || f.Or?) && Sensible(f, env) && Tracing(fs, w, past)
    ensures Appends(Eval(fs, ToExpr(f), env, w), Truth(f, env), w, past, Calls(f, env))
    ensures var r := Eval(fs, ToExpr(f), env, w).res; r.Val? ==> r.value.BoolV?
    decreases f, 0
  {
    if Spent(w) { return; }
    Connective(fs, f, env, w);
    FormulaLeavesItsCalls(fs, f.l, env, Burn(w), past);
    var a := Eval(fs, ToExpr(f.l), env, Burn(w));
    var ks := Calls(f.l, env);
    var reached := Truth(f.l, env) == if f.And? then Yes else No;
    var ls := if reached then Calls(f.r, env) else [];
    if a.res.Raised? {
      AppendsNoMore(a, Truth(f.l, env), Truth(f, env), w, past, ks, ls, reached);
    } else if reached {
      FormulaLeavesItsCalls(fs, f.r, env, a.world, past + ks);
      var b := Eval(fs, ToExpr(f.r), env, a.world);
      AppendsThen(a, b, Truth(f.l, env), Truth(f.r, env), w, past, ks, ls);
    } else {
      assert ks + [] == ks;
    }
  }

  lemma {:induction false} ChoiceAppends(fs: Funcs, f: Formula, env: Env, w: World, past: seq<int>)
    requires f.Choose? && Sensible(f, env) && Tracing(fs, w, past)
    ensures Appends(Eval(fs, ToExpr(f), env, w), Truth(f, env), w, past, Calls(f, env))
    decreases f, 0
  {
    if Spent(w) { return; }
    FormulaLeavesItsCalls(fs, f.test, env, Burn(w), past);
    var a := Eval(fs, ToExpr(f.test), env, Burn(w));
    var t, ks := Truth(f.test, env), Calls(f.test, env);
    if a.res.Raised? {
      AppendsNoMore(a, t, Truth(f, env), w, past, ks, Calls(f, env)[|ks|..], t != Overflows);
      assert ks + Calls(f, env)[|ks|..] == Calls(f, env);
    } else {
      var arm := if t == Yes then f.yes else f.no;
      FormulaLeavesItsCalls(fs, arm, env, a.world, past + ks);
      AppendsThen(a, Eval(fs, ToExpr(arm), env, a.world), t, Truth(arm, env), w, past, ks, Calls(arm, env));
    }
  }

  /** Nothing more runs after the first part raised. */
  lemma {:induction false} AppendsNoMore(
    a: EvalOut, x: Answer, y: Answer, w: World, past: seq<int>, ks: seq<int>, ls: seq<int>, more: bool)
    requires Appends(a, x, Burn(w), past, ks) && a.res.Raised?
    requires if more then x != Overflows else x == y && ls == []
    ensures Appends(a, y, w, past, ks + ls)
  {
    assert |past + (ks + ls)| >= |past + ks|;
    if !more { assert ks + ls == ks; }
  }

  lemma {:induction false} AppendsThen(
    a: EvalOut, b: EvalOut, x: Answer, y: Answer, w: World, past: seq<int>, ks: seq<int>, ls: seq<int>)
    requires Appends(a, x, Burn(w), past, ks) && a.res.Val? && Appends(b, y, a.world, past + ks, ls)
    ensures Appends(b, y, w, past, ks + ls)
  {
    assert past + (ks + ls) == past + ks + ls;
  }
}
