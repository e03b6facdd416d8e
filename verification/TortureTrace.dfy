/** The trace accumulator. A site is the statement `t = t * 10 + k` with its own digit `k` in 1..9. In
    a program that touches `t` only through sites, `t` always spells the executed sites in base ten,
    so two runs with equal `t` took the same sites in the same order, and the i32 check cannot trip on
    the first nine of them. */
module TortureTrace {
  import opened Sequences
  import opened TortureAst
  import opened TortureSemantics

  const T: string := "t"

  function Site(k: int): Stmt {
    Asn(T, Bin(Add, Bin(Mul, Var(T), Lit(10)), Lit(k)))
  }

  predicate IsDigit(k: int) {
    1 <= k <= 9
  }

  predicate IsSite(s: Stmt) {
    && s.Asn? && s.expr.Bin? && s.expr.rhs.Lit?
    && IsDigit(s.expr.rhs.value) && s == Site(s.expr.rhs.value)
  }

  function SiteDigit(s: Stmt): int
    requires IsSite(s)
  {
    s.expr.rhs.value
  }

  /** `t` is assigned by sites only. */
  predicate Traced(stmts: seq<Stmt>) {
    forall i :: 0 <= i < |stmts| ==> TracedStmt(stmts[i])
  }

  predicate TracedStmt(s: Stmt) {
    match s
    case Decl(name, _) => name != T
    case Asn(name, _) => name == T ==> IsSite(s)
    case If(_, thn) => Traced(thn)
    case IfElse(_, thn, els) => Traced(thn) && Traced(els)
    case For(name, _, _, body) => name != T && Traced(body)
    case While(_, body) => Traced(body)
    case DoWhile(body, _) => Traced(body)
    case Break => true
    case Continue => true
    case Return(_) => true
  }

  // ----- what a run visits -----

  /** A site that completed, or one that tripped the i32 check. */
  datatype Event = Visit(k: int) | Trip(k: int)

  ghost function BlockEvents(fs: Funcs, stmts: seq<Stmt>, env: Env, w: World): seq<Event>
    decreases w.fuel, 1
  {
    if stmts == [] then [] else
    var s := Exec(fs, stmts[0], env, w);
    StmtEvents(fs, stmts[0], env, w) +
    if s.flow.Raise? then [] else BlockEvents(fs, stmts[1..], s.env, s.world)
  }

  ghost function StmtEvents(fs: Funcs, s: Stmt, env: Env, w0: World): seq<Event>
    decreases w0.fuel, 0
  {
    if IsSite(s) then
      var flow := Exec(fs, s, env, w0).flow;
      if flow.Next? then [Visit(SiteDigit(s))]
      else if flow == Raise(Failed(Overflow)) then [Trip(SiteDigit(s))]
      else []
    else if Spent(w0) then [] else
    var w := Burn(w0);
    match s
    case If(cond, thn) =>
      var c := Eval(fs, cond, env, w);
      if c.res.Val? && Truthy(c.res.value) then BlockEvents(fs, thn, env, c.world) else []
    case IfElse(cond, thn, els) =>
      var c := Eval(fs, cond, env, w);
      if c.res.Val? then BlockEvents(fs, if Truthy(c.res.value) then thn else els, env, c.world) else []
    case For(name, start, cond, body) =>
      LoopEvents(fs, Loop(cond, body, StepVar(name)), env[name := IntV(start)], w)
    case While(cond, body) => LoopEvents(fs, Loop(cond, body, NoStep), env, w)
    case DoWhile(body, cond) => RoundEvents(fs, Loop(cond, body, NoStep), env, w)
    case _ => []
  }

  ghost function LoopEvents(fs: Funcs, l: Loop, env: Env, w: World): seq<Event>
    decreases w.fuel, 2
  {
    var c := Eval(fs, l.cond, env, w);
    if c.res.Val? && Truthy(c.res.value) then RoundEvents(fs, l, env, c.world) else []
  }

  ghost function RoundEvents(fs: Funcs, l: Loop, env: Env, w: World): seq<Event>
    decreases w.fuel, 4
  {
    if Spent(w) then []
    else
      BlockEvents(fs, l.body, env, Burn(w)) +
      AfterBodyEvents(fs, l, ExecBlock(fs, l.body, env, Burn(w)))
  }

  ghost function AfterBodyEvents(fs: Funcs, l: Loop, b: ExecOut): seq<Event>
    decreases b.world.fuel, 3
  {
    var s := Step(l.header, b.env, b.world);
    if GoesOn(b.flow) && s.flow.Next? then LoopEvents(fs, l, s.env, s.world) else []
  }

  function Visits(es: seq<Event>): seq<int> {
    if es == [] then []
    else (if es[0].Visit? then [es[0].k] else []) + Visits(es[1..])
  }

  lemma {:induction false} VisitsAppend(a: seq<Event>, b: seq<Event>)
    ensures Visits(a + b) == Visits(a) + Visits(b)
  {
    if a == [] {
      assert a + b == b;
    } else {
      assert (a + b)[1..] == a[1..] + b;
      VisitsAppend(a[1..], b);
      Shift(if a[0].Visit? then [a[0].k] else [], Visits(a[1..]), Visits(b));
    }
  }

  predicate Tripped(es: seq<Event>) {
    exists i :: 0 <= i < |es| && es[i].Trip?
  }

  // ----- base ten -----

  predicate Digits(ds: seq<int>) {
    forall i :: 0 <= i < |ds| ==> IsDigit(ds[i])
  }

  function Encode(ds: seq<int>): int {
    if ds == [] then 0 else 10 * Encode(ds[..|ds| - 1]) + ds[|ds| - 1]
  }

  lemma {:induction false} EncodeSnoc(ds: seq<int>, k: int)
    ensures Encode(ds + [k]) == 10 * Encode(ds) + k
  {
    assert (ds + [k])[..|ds|] == ds;
  }

  lemma {:induction false} EncodeIsPositive(ds: seq<int>)
    requires Digits(ds)
    ensures Encode(ds) >= 0 && (Encode(ds) == 0 <==> ds == [])
  {
    if ds != [] { EncodeIsPositive(ds[..|ds| - 1]); }
  }

  /** Equal accumulators mean equal site sequences. */
  lemma {:induction false} EncodeIsInjective(a: seq<int>, b: seq<int>)
    requires Digits(a) && Digits(b) && Encode(a) == Encode(b)
    ensures a == b
  {
    EncodeIsPositive(a);
    EncodeIsPositive(b);
    if a != [] {
      var m, n := |a| - 1, |b| - 1;
      assert IsDigit(a[m]) && IsDigit(b[n]);
      assert a[m] == b[n] && Encode(a[..m]) == Encode(b[..n]);
      EncodeIsInjective(a[..m], b[..n]);
      assert a == a[..m] + [a[m]] && b == b[..n] + [b[n]];
    }
  }

  function Pow10(n: nat): int {
    if n == 0 then 1 else 10 * Pow10(n - 1)
  }

  lemma {:induction false} EncodeIsBelow(ds: seq<int>)
    requires Digits(ds)
    ensures 0 <= Encode(ds) < Pow10(|ds|)
  {
    if ds != [] { EncodeIsBelow(ds[..|ds| - 1]); }
  }

  lemma {:induction false} EightDigitsFit(ds: seq<int>)
    requires Digits(ds) && |ds| <= 8
    ensures 0 <= Encode(ds) < 100_000_000
  {
    EncodeIsBelow(ds);
    assert Pow10(2) == 100 && Pow10(4) == 10_000 && Pow10(6) == 1_000_000 && Pow10(8) == 100_000_000;
  }

  // ----- one site -----

  /** A site costs six units of fuel and appends its digit; on eight visited sites or fewer it cannot
      overflow. */
  lemma {:induction false} SiteAppends(fs: Funcs, k: int, env: Env, w: World, past: seq<int>)
    requires IsDigit(k) && Digits(past) && T in env && env[T] == IntV(Encode(past))
    ensures var r := Exec(fs, Site(k), env, w);
            || (r.flow == Raise(OutOfFuel) && r.env == env)
            || (r.flow == Next && r.env == env[T := IntV(Encode(past + [k]))])
            || (r.flow == Raise(Failed(Overflow)) && r.env == env && |past| >= 9)
  {
    EncodeSnoc(past, k);
    var n := Encode(past);
    if |past| <= 8 {
      EightDigitsFit(past);
    }
    if !Spent(w) { SiteValue(fs, k, env, Burn(w), n); }
  }

  lemma {:induction false} SiteValue(fs: Funcs, k: int, env: Env, w: World, n: int)
    requires T in env && env[T] == IntV(n)
    ensures var r := Eval(fs, Site(k).expr, env, w).res;
            r == Raised(OutOfFuel) ||
            r == if CheckI32(n * 10).Val? then CheckI32(n * 10 + k) else Raised(Failed(Overflow))
  {
    if !Spent(w) {
      TimesTen(fs, env, Burn(w), n);
      var a := Eval(fs, Bin(Mul, Var(T), Lit(10)), env, Burn(w));
      if a.res.Val? { var b := Eval(fs, Lit(k), env, a.world); }
    }
  }

  lemma {:induction false} TimesTen(fs: Funcs, env: Env, w: World, n: int)
    requires T in env && env[T] == IntV(n)
    ensures var r := Eval(fs, Bin(Mul, Var(T), Lit(10)), env, w).res;
            r == Raised(OutOfFuel) || r == CheckI32(n * 10)
  {
    if !Spent(w) {
      var a := Eval(fs, Var(T), env, Burn(w));
      if a.res.Val? { var b := Eval(fs, Lit(10), env, a.world); }
    }
  }

  // ----- whole runs -----

  /** After a run that started with the sites `past` behind it. */
  ghost predicate Spells(r: ExecOut, past: seq<int>, es: seq<Event>) {
    && T in r.env && Digits(past + Visits(es))
    && r.env[T] == IntV(Encode(past + Visits(es)))
    && (Tripped(es) ==> |past + Visits(es)| >= 9)
  }

  ghost predicate Starts(env: Env, past: seq<int>) {
    Digits(past) && T in env && env[T] == IntV(Encode(past))
  }

  lemma {:induction false} SpellsThen(past: seq<int>, xs: seq<Event>, ys: seq<Event>, r: ExecOut)
    requires Tripped(xs) ==> |past + Visits(xs)| >= 9
    requires Spells(r, past + Visits(xs), ys)
    ensures Spells(r, past, xs + ys)
  {
    VisitsAppend(xs, ys);
    assert past + Visits(xs + ys) == past + Visits(xs) + Visits(ys);
    if Tripped(xs + ys) {
      var i :| 0 <= i < |xs + ys| && (xs + ys)[i].Trip?;
      if i < |xs| { assert xs[i].Trip?; } else { assert ys[i - |xs|].Trip?; }
    }
  }

  lemma {:induction false} BlockSpells(fs: Funcs, stmts: seq<Stmt>, env: Env, w: World, past: seq<int>)
    requires Traced(stmts) && Starts(env, past)
    ensures Spells(ExecBlock(fs, stmts, env, w), past, BlockEvents(fs, stmts, env, w))
    decreases w.fuel, 1
  {
    if stmts == [] {
      assert past + [] == past;
    } else {
      StmtSpells(fs, stmts[0], env, w, past);
      var s := Exec(fs, stmts[0], env, w);
      var xs := StmtEvents(fs, stmts[0], env, w);
      if s.flow.Next? {
        BlockSpells(fs, stmts[1..], s.env, s.world, past + Visits(xs));
        SpellsThen(past, xs, BlockEvents(fs, stmts[1..], s.env, s.world), ExecBlock(fs, stmts, env, w));
      } else {
        assert xs + [] == xs;
      }
    }
  }

  lemma {:induction false} StmtSpells(fs: Funcs, s: Stmt, env: Env, w: World, past: seq<int>)
    requires TracedStmt(s) && Starts(env, past)
    ensures Spells(Exec(fs, s, env, w), past, StmtEvents(fs, s, env, w))
    decreases w.fuel, 0
  {
    assert past + [] == past;
    if IsSite(s) {
      SiteSpells(fs, s, env, w, past);
    } else if !Spent(w) {
      var w1 := Burn(w);
      match s
      case If(cond, thn) =>
        var c := Eval(fs, cond, env, w1);
        if c.res.Val? && Truthy(c.res.value) { BlockSpells(fs, thn, env, c.world, past); }
      case IfElse(cond, thn, els) =>
        var c := Eval(fs, cond, env, w1);
        if c.res.Val? { BlockSpells(fs, if Truthy(c.res.value) then thn else els, env, c.world, past); }
      case For(name, start, cond, body) =>
        LoopSpells(fs, Loop(cond, body, StepVar(name)), env[name := IntV(start)], w1, past);
      case While(cond, body) => LoopSpells(fs, Loop(cond, body, NoStep), env, w1, past);
      case DoWhile(body, cond) => RoundSpells(fs, Loop(cond, body, NoStep), env, w1, past);
      case _ =>
    }
  }

  lemma {:induction false} SiteSpells(fs: Funcs, s: Stmt, env: Env, w: World, past: seq<int>)
    requires IsSite(s) && Starts(env, past)
    ensures Spells(Exec(fs, s, env, w), past, StmtEvents(fs, s, env, w))
  {
    SiteAppends(fs, SiteDigit(s), env, w, past);
    OneEventSpells(Exec(fs, s, env, w), env, past, SiteDigit(s), StmtEvents(fs, s, env, w));
  }

  /** A site is visited, trips the overflow check, or runs out of fuel. */
  lemma {:induction false} OneEventSpells(r: ExecOut, env: Env, past: seq<int>, k: int, es: seq<Event>)
    requires IsDigit(k) && Starts(env, past)
    requires || (r.flow == Next && r.env == env[T := IntV(Encode(past + [k]))] && es == [Visit(k)])
             || (r.flow == Raise(Failed(Overflow)) && r.env == env && |past| >= 9 && es == [Trip(k)])
             || (r.flow == Raise(OutOfFuel) && r.env == env && es == [])
    ensures Spells(r, past, es)
  {
    assert past + [] == past;
    if es != [] { VisitsOfOne(es[0]); }
    if es == [Visit(k)] { DigitsSnoc(past, k); }
  }

  lemma {:induction false} VisitsOfOne(e: Event)
    ensures Visits([e]) == if e.Visit? then [e.k] else []
    ensures Tripped([e]) <==> e.Trip?
  {
    assert [e][1..] == [] && Visits([e][1..]) == [];
    assert [e][0] == e;
  }

  lemma {:induction false} DigitsSnoc(ds: seq<int>, k: int)
    requires Digits(ds) && IsDigit(k)
    ensures Digits(ds + [k])
  {
  }

  lemma {:induction false} LoopSpells(fs: Funcs, l: Loop, env: Env, w: World, past: seq<int>)
    requires Traced(l.body) && l.header != StepVar(T) && Starts(env, past)
    ensures Spells(Iterate(fs, l, env, w), past, LoopEvents(fs, l, env, w))
    decreases w.fuel, 2
  {
    assert past + [] == past;
    var c := Eval(fs, l.cond, env, w);
    if c.res.Val? && Truthy(c.res.value) { RoundSpells(fs, l, env, c.world, past); }
  }

  lemma {:induction false} RoundSpells(fs: Funcs, l: Loop, env: Env, w: World, past: seq<int>)
    requires Traced(l.body) && l.header != StepVar(T) && Starts(env, past)
    ensures Spells(Round(fs, l, env, w), past, RoundEvents(fs, l, env, w))
    decreases w.fuel, 4
  {
    assert past + [] == past;
    if Spent(w) { return; }
    BlockSpells(fs, l.body, env, Burn(w), past);
    var b := ExecBlock(fs, l.body, env, Burn(w));
    var xs := BlockEvents(fs, l.body, env, Burn(w));
    AfterBodySpells(fs, l, b, past + Visits(xs));
    SpellsThen(past, xs, AfterBodyEvents(fs, l, b), AfterBody(fs, l, b));
  }

  lemma {:induction false} AfterBodySpells(fs: Funcs, l: Loop, b: ExecOut, past: seq<int>)
    requires Traced(l.body) && l.header != StepVar(T) && Starts(b.env, past)
    ensures Spells(AfterBody(fs, l, b), past, AfterBodyEvents(fs, l, b))
    decreases b.world.fuel, 3
  {
    assert past + [] == past;
    if GoesOn(b.flow) {
      var s := Step(l.header, b.env, b.world);
      assert T in s.env && s.env[T] == b.env[T];
      if s.flow.Next? { LoopSpells(fs, l, s.env, s.world, past); }
    }
  }

  // ----- where a returned value comes from -----

  /** An expression never raises a return: the call that produced it catches it. */
  lemma {:induction false} NoStrayReturn(fs: Funcs, e: Expr, env: Env, w: World)
    ensures Eval(fs, e, env, w).res.Raised? ==> !Eval(fs, e, env, w).res.sig.ReturnSig?
    decreases w.fuel, 0
  {
    if Spent(w) { return; }
    var w1 := Burn(w);
    match e
    case Var(_) =>
    case Lit(_) =>
    case Call(name, args) => NoStrayReturnInArgs(fs, args, env, w1);
    case Tern(cond, thn, els) =>
      NoStrayReturn(fs, cond, env, w1);
      var c := Eval(fs, cond, env, w1);
      if c.res.Val? { NoStrayReturn(fs, thn, env, c.world); NoStrayReturn(fs, els, env, c.world); }
    case Bin(op, lhs, rhs) =>
      NoStrayReturn(fs, lhs, env, w1);
      var a := Eval(fs, lhs, env, w1);
      if a.res.Val? { NoStrayReturn(fs, rhs, env, a.world); }
  }

  lemma {:induction false} NoStrayReturnInArgs(fs: Funcs, args: seq<Expr>, env: Env, w: World)
    ensures var f := EvalArgs(fs, args, env, w).flow; f.Raise? ==> !f.sig.ReturnSig?
    decreases w.fuel, 1
  {
    if args != [] {
      NoStrayReturn(fs, args[0], env, w);
      var a := Eval(fs, args[0], env, w);
      if a.res.Val? { NoStrayReturnInArgs(fs, args[1..], env, a.world); }
    }
  }

  /** Some return statement of `stmts` returns `e`. */
  predicate ReturnsIn(e: Expr, stmts: seq<Stmt>) {
    exists i :: 0 <= i < |stmts| && ReturnsInStmt(e, stmts[i])
  }

  predicate ReturnsInStmt(e: Expr, s: Stmt) {
    match s
    case Return(expr) => e == expr
    case If(_, thn) => ReturnsIn(e, thn)
    case IfElse(_, thn, els) => ReturnsIn(e, thn) || ReturnsIn(e, els)
    case For(_, _, _, body) => ReturnsIn(e, body)
    case While(_, body) => ReturnsIn(e, body)
    case DoWhile(body, _) => ReturnsIn(e, body)
    case _ => false
  }

  /** Evaluating `e` in the final variables, from some world, gave the returned value and the final world. */
  ghost predicate Yields(fs: Funcs, e: Expr, w: World, r: ExecOut) {
    && r.flow.Raise? && r.flow.sig.ReturnSig?
    && Eval(fs, e, r.env, w) == EvalOut(Val(r.flow.sig.value), r.world)
  }

  ghost predicate Returned(r: ExecOut) {
    r.flow.Raise? && r.flow.sig.ReturnSig?
  }

  /** A block that returns does so by one of its own return statements, in the variables it ends with. */
  lemma {:induction false} ReturnComesFrom(fs: Funcs, stmts: seq<Stmt>, env: Env, w: World) returns (e: Expr, v: World)
    requires Returned(ExecBlock(fs, stmts, env, w))
    ensures ReturnsIn(e, stmts) && Yields(fs, e, v, ExecBlock(fs, stmts, env, w))
    decreases w.fuel, 1
  {
    var s := Exec(fs, stmts[0], env, w);
    if s.flow.Next? {
      e, v := ReturnComesFrom(fs, stmts[1..], s.env, s.world);
      var i :| 0 <= i < |stmts[1..]| && ReturnsInStmt(e, stmts[1..][i]);
      assert ReturnsInStmt(e, stmts[i + 1]);
    } else {
      e, v := StmtReturnComesFrom(fs, stmts[0], env, w);
    }
  }

  lemma {:induction false} StmtReturnComesFrom(fs: Funcs, s: Stmt, env: Env, w: World) returns (e: Expr, v: World)
    requires Returned(Exec(fs, s, env, w))
    ensures ReturnsInStmt(e, s) && Yields(fs, e, v, Exec(fs, s, env, w))
    decreases w.fuel, 0
  {
    var w1 := Burn(w);
    match s
    case Decl(_, expr) =>
      NoStrayReturn(fs, expr, env, w1);
      assert false;
    case Asn(_, expr) =>
      NoStrayReturn(fs, expr, env, w1);
      assert false;
    case If(cond, thn) =>
      NoStrayReturn(fs, cond, env, w1);
      e, v := ReturnComesFrom(fs, thn, env, Eval(fs, cond, env, w1).world);
    case IfElse(cond, thn, els) =>
      NoStrayReturn(fs, cond, env, w1);
      var c := Eval(fs, cond, env, w1);
      e, v := ReturnComesFrom(fs, if Truthy(c.res.value) then thn else els, env, c.world);
    case For(name, start, cond, body) =>
      e, v := LoopReturnComesFrom(fs, Loop(cond, body, StepVar(name)), env[name := IntV(start)], w1);
    case While(cond, body) => e, v := LoopReturnComesFrom(fs, Loop(cond, body, NoStep), env, w1);
    case DoWhile(body, cond) => e, v := RoundReturnComesFrom(fs, Loop(cond, body, NoStep), env, w1);
    case Return(expr) =>
      NoStrayReturn(fs, expr, env, w1);
      e, v := expr, w1;
  }

  lemma {:induction false} LoopReturnComesFrom(fs: Funcs, l: Loop, env: Env, w: World) returns (e: Expr, v: World)
    requires Returned(Iterate(fs, l, env, w))
    ensures ReturnsIn(e, l.body) && Yields(fs, e, v, Iterate(fs, l, env, w))
    decreases w.fuel, 2
  {
    NoStrayReturn(fs, l.cond, env, w);
    e, v := RoundReturnComesFrom(fs, l, env, Eval(fs, l.cond, env, w).world);
  }

  lemma {:induction false} RoundReturnComesFrom(fs: Funcs, l: Loop, env: Env, w: World) returns (e: Expr, v: World)
    requires Returned(Round(fs, l, env, w))
    ensures ReturnsIn(e, l.body) && Yields(fs, e, v, Round(fs, l, env, w))
    decreases w.fuel, 4
  {
    var b := ExecBlock(fs, l.body, env, Burn(w));
    assert Round(fs, l, env, w) == AfterBody(fs, l, b);
    if GoesOn(b.flow) {
      var s := Step(l.header, b.env, b.world);
      e, v := LoopReturnComesFrom(fs, l, s.env, s.world);
    } else {
      e, v := ReturnComesFrom(fs, l.body, env, Burn(w));
    }
  }

  // ----- the theorems -----

  /** A traced test function: `int t = 0;` and then statements that assign `t` only through sites. */
  predicate TracedFunc(f: FuncDef) {
    |f.body| > 0 && f.body[0] == Decl(T, Lit(0)) && Traced(f.body[1..])
  }

  /** How the body of a call ends, with its final variables. */
  ghost function BodyEnd(fs: Funcs, f: FuncDef, vals: seq<Value>, w: World): ExecOut
    requires |vals| == |f.params|
  {
    ExecBlock(fs, f.body, Bind(f.params, vals), w)
  }

  /** The sites a call of a traced function executes, in order. */
  ghost function SitesOf(fs: Funcs, f: FuncDef, vals: seq<Value>, w: World): seq<int>
    requires TracedFunc(f) && |vals| == |f.params|
  {
    Visits(BlockEvents(fs, f.body, Bind(f.params, vals), w))
  }

  /** Two units of fuel are gone once `t` is declared. */
  lemma {:induction false} TraceStarts(fs: Funcs, f: FuncDef, env: Env, w: World)
    requires TracedFunc(f)
    ensures BlockEvents(fs, f.body, env, w) ==
            if w.fuel <= 2 then [] else BlockEvents(fs, f.body[1..], env[T := IntV(0)], World(w.globals, w.fuel - 2))
    ensures w.fuel <= 2 ==> ExecBlock(fs, f.body, env, w).flow == Raise(OutOfFuel)
    ensures w.fuel > 2 ==> ExecBlock(fs, f.body, env, w) ==
                           ExecBlock(fs, f.body[1..], env[T := IntV(0)], World(w.globals, w.fuel - 2))
  {
    var s := Exec(fs, f.body[0], env, w);
    assert StmtEvents(fs, f.body[0], env, w) == [];
    if w.fuel > 1 { var v := Eval(fs, Lit(0), env, Burn(w)); }
    if w.fuel > 2 {
      assert s == ExecOut(Next, env[T := IntV(0)], World(w.globals, w.fuel - 2));
      var es := BlockEvents(fs, f.body[1..], s.env, s.world);
      assert [] + es == es;
    }
  }

  /** In every traced function, whatever it returns and however it ends, the final `t` spells exactly the
      sites executed once `t` is declared; and a site trips the i32 check only after nine others. */
  lemma {:induction false} FinalSpellsSites(fs: Funcs, f: FuncDef, vals: seq<Value>, w: World)
    requires TracedFunc(f) && |vals| == |f.params|
    ensures var sites, end := SitesOf(fs, f, vals, w), BodyEnd(fs, f, vals, w);
            && Digits(sites)
            && (w.fuel > 2 ==> T in end.env && end.env[T] == IntV(Encode(sites)))
            && (w.fuel <= 2 ==> sites == [] && end.flow == Raise(OutOfFuel))
            && (Tripped(BlockEvents(fs, f.body, Bind(f.params, vals), w)) ==> |sites| >= 9)
  {
    var env := Bind(f.params, vals);
    TraceStarts(fs, f, env, w);
    if w.fuel > 2 {
      var w2 := World(w.globals, w.fuel - 2);
      BlockSpells(fs, f.body[1..], env[T := IntV(0)], w2, []);
      var es := BlockEvents(fs, f.body[1..], env[T := IntV(0)], w2);
      assert [] + Visits(es) == Visits(es);
    }
  }

  /** Two runs with equal final `t` took the same sites in the same order. */
  lemma {:induction false} EqualFinalsMeanEqualPaths(
    fs: Funcs, f: FuncDef, vals: seq<Value>, w: World, gs: Funcs, g: FuncDef, vals': seq<Value>, w': World)
    requires TracedFunc(f) && |vals| == |f.params| && w.fuel > 2
    requires TracedFunc(g) && |vals'| == |g.params| && w'.fuel > 2
    requires var a, b := BodyEnd(fs, f, vals, w).env, BodyEnd(gs, g, vals', w').env;
             T in a && T in b && a[T] == b[T]
    ensures SitesOf(fs, f, vals, w) == SitesOf(gs, g, vals', w')
  {
    FinalSpellsSites(fs, f, vals, w);
    FinalSpellsSites(gs, g, vals', w');
    EncodeIsInjective(SitesOf(fs, f, vals, w), SitesOf(gs, g, vals', w'));
  }

  /** Every return gives `t`, or a negative literal that marks the way out taken. */
  ghost predicate TellsTrace(f: FuncDef) {
    forall e :: ReturnsIn(e, f.body) ==> e == Var(T) || (e.Lit? && e.value < 0)
  }

  ghost predicate OnlyTrace(f: FuncDef) {
    forall e :: ReturnsIn(e, f.body) ==> e == Var(T)
  }

  /** The value a call returns is `t` at the end if it is returned as such, and else a negative mark. */
  lemma {:induction false} ReturnSpellsSites(fs: Funcs, name: string, vals: seq<Value>, w: World)
    requires name in fs && TracedFunc(fs[name]) && |vals| == |fs[name].params| && TellsTrace(fs[name])
    requires Invoke(fs, name, vals, w).res.Val?
    ensures var value, sites := Invoke(fs, name, vals, w).res.value, SitesOf(fs, fs[name], vals, w);
            && value.IntV? && (value.n >= 0 ==> value.n == Encode(sites))
            && (OnlyTrace(fs[name]) ==> value.n == Encode(sites))
  {
    var f := fs[name];
    FinalSpellsSites(fs, f, vals, w);
    var e, v := ReturnComesFrom(fs, f.body, Bind(f.params, vals), w);
  }

  /** Two calls that return the same value took the same sites in the same order, unless the value is a
      negative mark. */
  lemma {:induction false} EqualReturnsMeanEqualPaths(
    fs: Funcs, name: string, vals: seq<Value>, w: World,
    gs: Funcs, other: string, vals': seq<Value>, w': World, n: int)
    requires name in fs && TracedFunc(fs[name]) && |vals| == |fs[name].params| && TellsTrace(fs[name])
    requires other in gs && TracedFunc(gs[other]) && |vals'| == |gs[other].params| && TellsTrace(gs[other])
    requires Invoke(fs, name, vals, w).res == Val(IntV(n)) && Invoke(gs, other, vals', w').res == Val(IntV(n))
    requires n >= 0 || OnlyTrace(fs[name]) || OnlyTrace(gs[other])
    ensures SitesOf(fs, fs[name], vals, w) == SitesOf(gs, gs[other], vals', w')
  {
    ReturnSpellsSites(fs, name, vals, w);
    ReturnSpellsSites(gs, other, vals', w');
    FinalSpellsSites(fs, fs[name], vals, w);
    FinalSpellsSites(gs, gs[other], vals', w');
    EncodeIsPositive(SitesOf(fs, fs[name], vals, w));
    EncodeIsPositive(SitesOf(gs, gs[other], vals', w'));
    EncodeIsInjective(SitesOf(fs, fs[name], vals, w), SitesOf(gs, gs[other], vals', w'));
  }
}
