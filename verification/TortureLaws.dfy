/** What the operators and statements of the language mean, said in ordinary arithmetic and by unfolding:
    a check on the definitions themselves, in terms that do not mention how they are written. */
module TortureLaws {
  import opened TortureAst
  import opened TortureSemantics
  import opened TortureFuel
  import opened TortureLoops

  // ----- operators -----

  /** A truth value counts as 1 or 0. */
  function Num(v: Value): int {
    match v
    case IntV(n) => n
    case BoolV(true) => 1
    case BoolV(false) => 0
  }

  /** The numbers of 32 bits, and the failure outside them. */
  predicate Counted32(res: EvalResult, n: int) {
    if -2147483648 <= n <= 2147483647 then res == Val(IntV(n)) else res == Raised(Failed(Overflow))
  }

  /** What `x op y` comes to. */
  predicate Computes(op: BinOp, x: int, y: int, res: EvalResult) {
    && (op == Add ==> Counted32(res, x + y))
    && (op == Sub ==> Counted32(res, x - y))
    && (op == Mul ==> Counted32(res, x * y))
    && (op == Lt ==> res == Val(BoolV(x < y)))
    && (op == Le ==> res == Val(BoolV(x <= y)))
    && (op == Gt ==> res == Val(BoolV(x > y)))
    && (op == Ge ==> res == Val(BoolV(x >= y)))
    && (op == Eq ==> res == Val(BoolV(x == y)))
    && (op == Ne ==> res == Val(BoolV(x != y)))
    && (op == And ==> res == Val(BoolV(x != 0 && y != 0)))
    && (op == Or ==> res == Val(BoolV(x != 0 || y != 0)))
  }

  /** The operands come to these values, one after the other. */
  ghost predicate ComeTo(fs: Funcs, a: Expr, b: Expr, env: Env, w: World, u: Value, v: Value) {
    && !Spent(w)
    && var r := Eval(fs, a, env, Burn(w)); r.res == Val(u) && Eval(fs, b, env, r.world).res == Val(v)
  }

  lemma {:induction false} OperatorsCompute(
    fs: Funcs, op: BinOp, a: Expr, b: Expr, env: Env, w: World, u: Value, v: Value)
    requires ComeTo(fs, a, b, env, w, u, v)
    ensures Computes(op, Num(u), Num(v), Eval(fs, Bin(op, a, b), env, w).res)
  {
    NumIsAsInt(u);
    NumIsAsInt(v);
    var r := Eval(fs, a, env, Burn(w));
    if op == And || op == Or {
      assert Truthy(u) <==> Num(u) != 0;
    } else {
      ArithComputes(op, Num(u), Num(v));
    }
  }

  lemma NumIsAsInt(v: Value)
    ensures AsInt(v) == Num(v) && (Truthy(v) <==> Num(v) != 0)
  {
  }

  lemma ArithComputes(op: BinOp, x: int, y: int)
    requires op != And && op != Or
    ensures Computes(op, x, y, Arith(op, x, y))
  {
  }

  /** What each operator makes of the two operands. */
  ghost function Results(fs: Funcs, a: Expr, b: Expr, env: Env, w: World): BinOp -> EvalResult {
    op => Eval(fs, Bin(op, a, b), env, w).res
  }

  predicate Holds(res: EvalResult) {
    res == Val(BoolV(true))
  }

  /** Exactly one of `<`, `==` and `>` holds, and the other three are their negations. */
  ghost predicate OnlyOneHolds(res: BinOp -> EvalResult) {
    && (Holds(res(Lt)) || Holds(res(Eq)) || Holds(res(Gt)))
    && !(Holds(res(Lt)) && Holds(res(Eq))) && !(Holds(res(Lt)) && Holds(res(Gt))) && !(Holds(res(Eq)) && Holds(res(Gt)))
    && (Holds(res(Le)) <==> !Holds(res(Gt))) && (Holds(res(Ge)) <==> !Holds(res(Lt))) && (Holds(res(Ne)) <==> !Holds(res(Eq)))
  }

  lemma {:induction false} ComparisonsExclude(fs: Funcs, a: Expr, b: Expr, env: Env, w: World, u: Value, v: Value)
    requires ComeTo(fs, a, b, env, w, u, v)
    ensures OnlyOneHolds(Results(fs, a, b, env, w))
  {
    var res := Results(fs, a, b, env, w);
    forall op: BinOp ensures Computes(op, Num(u), Num(v), res(op)) { OperatorsCompute(fs, op, a, b, env, w, u, v); }
    ComputedExclude(res, Num(u), Num(v));
  }

  lemma {:induction false} ComputedExclude(res: BinOp -> EvalResult, x: int, y: int)
    requires forall op: BinOp :: Computes(op, x, y, res(op))
    ensures OnlyOneHolds(res)
  {
    assert Computes(Lt, x, y, res(Lt)) && Computes(Le, x, y, res(Le)) && Computes(Gt, x, y, res(Gt));
    assert Computes(Ge, x, y, res(Ge)) && Computes(Eq, x, y, res(Eq)) && Computes(Ne, x, y, res(Ne));
  }

  /** Taking away what was added gives the number back, unless the sum overflows. */
  lemma {:induction false} SubtractUndoesAdd(fs: Funcs, a: Expr, b: Expr, env: Env, w: World, u: Value, v: Value)
    requires !Spent(w) && ComeTo(fs, a, b, env, Burn(w), u, v) && -2147483648 <= Num(u) <= 2147483647
    requires Eval(fs, b, env, Eval(fs, Bin(Add, a, b), env, Burn(w)).world).res == Val(v)
    ensures var r := Eval(fs, Bin(Sub, Bin(Add, a, b), b), env, w).res;
            if -2147483648 <= Num(u) + Num(v) <= 2147483647 then r == Val(IntV(Num(u)))
            else r == Raised(Failed(Overflow))
  {
    SumIs(fs, a, b, env, Burn(w), u, v);
    if -2147483648 <= Num(u) + Num(v) <= 2147483647 {
      DifferenceIs(fs, Bin(Add, a, b), b, env, w, Num(u) + Num(v), v);
    }
  }

  lemma {:induction false} SumIs(fs: Funcs, a: Expr, b: Expr, env: Env, w: World, u: Value, v: Value)
    requires ComeTo(fs, a, b, env, w, u, v)
    ensures Counted32(Eval(fs, Bin(Add, a, b), env, w).res, Num(u) + Num(v))
  {
    OperatorsCompute(fs, Add, a, b, env, w, u, v);
  }

  lemma {:induction false} DifferenceIs(fs: Funcs, a: Expr, b: Expr, env: Env, w: World, n: int, v: Value)
    requires ComeTo(fs, a, b, env, w, IntV(n), v)
    ensures Counted32(Eval(fs, Bin(Sub, a, b), env, w).res, n - Num(v))
  {
    OperatorsCompute(fs, Sub, a, b, env, w, IntV(n), v);
  }

  // ----- variables -----

  /** What a variable reads as, with enough fuel to read it. */
  ghost function ReadVar(fs: Funcs, name: string, env: Env, globals: Env): EvalResult {
    Eval(fs, Var(name), env, World(globals, 2)).res
  }

  /** A value stored is the value read, whether the variable is local or global; every other variable reads
      as before, and a variable that is neither can be neither stored nor read. */
  lemma {:induction false} StoreThenRead(fs: Funcs, name: string, other: string, v: Value, env: Env, w: World)
    ensures var r := Assign(name, v, env, w);
            && (name in env || name in w.globals ==>
                  r.flow == Next && ReadVar(fs, name, r.env, r.world.globals) == Val(v))
            && (name in env ==> r.world == w)
            && (name !in env && name !in w.globals ==>
                  r.flow == Raise(Failed(UndeclaredStore)) && ReadVar(fs, name, env, w.globals) == Raised(Failed(UnboundVariable)))
            && (other != name ==> ReadVar(fs, other, r.env, r.world.globals) == ReadVar(fs, other, env, w.globals))
  {
  }

  // ----- arguments, frames and globals -----

  /** Arguments are evaluated from left to right, each in the world the ones before it left. */
  lemma {:induction false} ArgumentsInOrder(fs: Funcs, a: seq<Expr>, b: seq<Expr>, env: Env, w: World)
    ensures var r := EvalArgs(fs, a, env, w);
            EvalArgs(fs, a + b, env, w) ==
            if r.flow.Raise? then ArgsOut(r.flow, EvalArgs(fs, a + b, env, w).vals, r.world)
            else var s := EvalArgs(fs, b, env, r.world); ArgsOut(s.flow, r.vals + s.vals, s.world)
    decreases |a|
  {
    if a == [] {
      assert a + b == b && [] + EvalArgs(fs, b, env, w).vals == EvalArgs(fs, b, env, w).vals;
    } else {
      assert (a + b)[1..] == a[1..] + b;
      var v := Eval(fs, a[0], env, w);
      if v.res.Val? {
        ArgumentsInOrder(fs, a[1..], b, env, v.world);
        var r := EvalArgs(fs, a[1..], env, v.world);
        var s := EvalArgs(fs, b, env, r.world);
        assert [v.res.value] + (r.vals + s.vals) == ([v.res.value] + r.vals) + s.vals;
      }
    }
  }

  /** Place `i` is the last one with the name. */
  predicate LastParam(params: seq<Param>, name: string, i: nat) {
    i < |params| && params[i].name == name && forall j :: i < j < |params| ==> params[j].name != name
  }

  /** A parameter holds the argument at its place; of two with one name the last counts. Nothing else is in
      the frame. */
  lemma {:induction false} FrameHolds(params: seq<Param>, vals: seq<Value>, name: string)
    requires |params| == |vals|
    ensures name in Bind(params, vals) <==> exists i: nat :: LastParam(params, name, i)
    ensures forall i: nat :: LastParam(params, name, i) ==> name in Bind(params, vals) && Bind(params, vals)[name] == vals[i]
  {
    if params != [] {
      var n := |params| - 1;
      FrameHolds(params[..n], vals[..n], name);
      if params[n].name == name {
        assert LastParam(params, name, n);
        assert forall i: nat :: LastParam(params, name, i) ==> i == n;
      } else {
        LastParamBefore(params, name);
        if i: nat :| LastParam(params, name, i) { assert LastParam(params[..n], name, i); }
        if i: nat :| LastParam(params[..n], name, i) { assert LastParam(params, name, i); }
      }
    }
  }

  lemma {:induction false} LastParamBefore(params: seq<Param>, name: string)
    requires params != [] && params[|params| - 1].name != name
    ensures forall i: nat :: LastParam(params, name, i) <==> LastParam(params[..|params| - 1], name, i)
  {
    var before := params[..|params| - 1];
    forall i: nat ensures LastParam(params, name, i) <==> LastParam(before, name, i) {
      assert forall j :: 0 <= j < |before| ==> before[j] == params[j];
    }
  }

  predicate LastDecl(decls: seq<GlobalDecl>, name: string, i: nat) {
    i < |decls| && decls[i].name == name && forall j :: i < j < |decls| ==> decls[j].name != name
  }

  /** A run starts with each declared global at its initial value; the last declaration of a name counts. */
  lemma {:induction false} GlobalsStart(decls: seq<GlobalDecl>, name: string)
    ensures name in InitialGlobals(decls) <==> exists i: nat :: LastDecl(decls, name, i)
    ensures forall i: nat :: LastDecl(decls, name, i) ==>
              name in InitialGlobals(decls) && InitialGlobals(decls)[name] == IntV(decls[i].init)
  {
    if decls != [] {
      var n := |decls| - 1;
      GlobalsStart(decls[..n], name);
      if decls[n].name == name {
        assert LastDecl(decls, name, n);
        assert forall i: nat :: LastDecl(decls, name, i) ==> i == n;
      } else {
        LastDeclBefore(decls, name);
        if i: nat :| LastDecl(decls, name, i) { assert LastDecl(decls[..n], name, i); }
        if i: nat :| LastDecl(decls[..n], name, i) { assert LastDecl(decls, name, i); }
      }
    }
  }

  lemma {:induction false} LastDeclBefore(decls: seq<GlobalDecl>, name: string)
    requires decls != [] && decls[|decls| - 1].name != name
    ensures forall i: nat :: LastDecl(decls, name, i) <==> LastDecl(decls[..|decls| - 1], name, i)
  {
    var before := decls[..|decls| - 1];
    forall i: nat ensures LastDecl(decls, name, i) <==> LastDecl(before, name, i) {
      assert forall j :: 0 <= j < |before| ==> before[j] == decls[j];
    }
  }

  // ----- branches -----

  /** A test that comes out non-zero runs the first arm, and only that; one that comes out zero the other. */
  lemma {:induction false} TestChooses(fs: Funcs, n: int, thn: seq<Stmt>, els: seq<Stmt>, env: Env, w: World)
    requires w.fuel > 2
    ensures var w2 := World(w.globals, w.fuel - 2);
            && Exec(fs, IfElse(Lit(n), thn, els), env, w) == ExecBlock(fs, if n == 0 then els else thn, env, w2)
            && Exec(fs, If(Lit(n), thn), env, w) == if n == 0 then ExecOut(Next, env, w2) else ExecBlock(fs, thn, env, w2)
  {
    assert Eval(fs, Lit(n), env, Burn(w)) == EvalOut(Val(IntV(n)), Burn(Burn(w)));
  }

  // ----- loops, by unfolding once -----

  /** How a round ends (`r`) when the body ended in `b`, with `again` for going on. */
  ghost predicate RoundLeads(b: ExecOut, again: ExecOut, r: ExecOut) {
    if b.flow == Raise(BreakSig) then r == ExecOut(Next, b.env, b.world)
    else if b.flow == Next || b.flow == Raise(ContinueSig) then r == again
    else r == b
  }

  /** A `while` whose test fails does nothing; otherwise it runs its body and, unless that broke out, returned
      or failed, it is the same `while` again in what the body left. */
  lemma {:induction false} WhileUnfolds(fs: Funcs, cond: Expr, body: seq<Stmt>, env: Env, w: World)
    requires !Spent(w)
    ensures var c := Eval(fs, cond, env, Burn(w));
            var r := Exec(fs, While(cond, body), env, w);
            && (c.res.Val? && Num(c.res.value) == 0 ==> r == ExecOut(Next, env, c.world))
            && (c.res.Val? && Num(c.res.value) != 0 && !Spent(c.world) ==>
                  var b := ExecBlock(fs, body, env, Burn(c.world));
                  b.world.fuel > 0 ==> RoundLeads(b, Exec(fs, While(cond, body), b.env, More(b.world, 1)), r))
  {
    var c := Eval(fs, cond, env, Burn(w));
    if c.res.Val? && !Spent(c.world) {
      NumIsAsInt(c.res.value);
      var b := ExecBlock(fs, body, env, Burn(c.world));
      var l := Loop(cond, body, NoStep);
      assert Exec(fs, While(cond, body), env, w) == Iterate(fs, l, env, Burn(w));
      assert Round(fs, l, env, c.world) == AfterBody(fs, l, b);
      if b.world.fuel > 0 { RoundLeadsOn(fs, cond, body, b); }
    }
  }

  /** Going on after a body is the same `while` again, for the one unit that entering it costs. */
  lemma {:induction false} RoundLeadsOn(fs: Funcs, cond: Expr, body: seq<Stmt>, b: ExecOut)
    requires b.world.fuel > 0
    ensures RoundLeads(b, Exec(fs, While(cond, body), b.env, More(b.world, 1)), AfterBody(fs, Loop(cond, body, NoStep), b))
  {
    assert Burn(More(b.world, 1)) == b.world;
    assert Step(NoStep, b.env, b.world) == ExecOut(Next, b.env, b.world);
  }

  /** A `do`-`while` runs its body first, and goes on, with the test, unless that broke out, returned or
      failed. */
  lemma {:induction false} DoWhileUnfolds(fs: Funcs, body: seq<Stmt>, cond: Expr, env: Env, w: World)
    requires w.fuel > 2
    ensures var b := ExecBlock(fs, body, env, World(w.globals, w.fuel - 2));
            b.world.fuel > 0 ==>
              RoundLeads(b, Exec(fs, While(cond, body), b.env, More(b.world, 1)), Exec(fs, DoWhile(body, cond), env, w))
  {
    var b := ExecBlock(fs, body, env, World(w.globals, w.fuel - 2));
    assert Burn(Burn(w)) == World(w.globals, w.fuel - 2);
    if b.world.fuel > 0 { RoundLeadsOn(fs, cond, body, b); }
  }
}
