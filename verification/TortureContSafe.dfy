/** `make_loop_cont_safe` puts the increment before the body, so a body may `continue` anywhere. With a
    constant bound N, and a body that always completes and never assigns the loop variable, each of
    the three loops ends, and its body runs at most N times (at most max(N, 1) for `do`-`while`). When
    nothing breaks out of a loop that completes, it runs exactly that often. */
module TortureContSafe {
  import opened TortureAst
  import opened TortureSemantics
  import opened TortureFuel
  import opened TortureSignals
  import opened TortureLoops

  function MakeContSafe(kind: LoopKind, v: string, bound: Expr, body: seq<Stmt>): seq<Stmt> {
    match kind
    case ForLoop => MakeLoop(ForLoop, v, bound, body)
    case WhileLoop => [Decl(v, Lit(0)), While(Below(v, bound), [Increment(v)] + body)]
    case DoWhileLoop => [Decl(v, Lit(0)), DoWhile([Increment(v)] + body, Below(v, bound))]
  }

  /** The loop between rounds. */
  function LoopOf(kind: LoopKind, v: string, n: int, body: seq<Stmt>): Loop {
    if kind.ForLoop? then Counted(v, Below(v, Lit(n)), body)
    else Loop(Below(v, Lit(n)), [Increment(v)] + body, NoStep)
  }

  // ----- bodies that leave the variable alone -----

  predicate LeavesAlone(v: string, stmts: seq<Stmt>) {
    forall i :: 0 <= i < |stmts| ==> StmtLeavesAlone(v, stmts[i])
  }

  predicate StmtLeavesAlone(v: string, s: Stmt) {
    match s
    case Decl(name, _) => name != v
    case Asn(name, _) => name != v
    case If(_, thn) => LeavesAlone(v, thn)
    case IfElse(_, thn, els) => LeavesAlone(v, thn) && LeavesAlone(v, els)
    case For(name, _, _, body) => name != v && LeavesAlone(v, body)
    case While(_, body) => LeavesAlone(v, body)
    case DoWhile(body, _) => LeavesAlone(v, body)
    case Break => true
    case Continue => true
    case Return(_) => true
  }

  ghost predicate Holds(env: Env, v: string, i: int) {
    v in env && env[v] == IntV(i)
  }

  lemma {:induction false} BlockHolds(fs: Funcs, stmts: seq<Stmt>, env: Env, w: World, v: string, i: int)
    requires LeavesAlone(v, stmts) && Holds(env, v, i)
    ensures Holds(ExecBlock(fs, stmts, env, w).env, v, i)
    decreases w.fuel, 1
  {
    if stmts != [] {
      StmtHolds(fs, stmts[0], env, w, v, i);
      var s := Exec(fs, stmts[0], env, w);
      if s.flow.Next? { BlockHolds(fs, stmts[1..], s.env, s.world, v, i); }
    }
  }

  lemma {:induction false} StmtHolds(fs: Funcs, s: Stmt, env: Env, w: World, v: string, i: int)
    requires StmtLeavesAlone(v, s) && Holds(env, v, i)
    ensures Holds(Exec(fs, s, env, w).env, v, i)
    decreases w.fuel, 0
  {
    if Spent(w) { return; }
    var w1 := Burn(w);
    match s
    case If(cond, thn) =>
      var c := Eval(fs, cond, env, w1);
      if c.res.Val? { BlockHolds(fs, thn, env, c.world, v, i); }
    case IfElse(cond, thn, els) =>
      var c := Eval(fs, cond, env, w1);
      if c.res.Val? { BlockHolds(fs, if Truthy(c.res.value) then thn else els, env, c.world, v, i); }
    case For(name, start, cond, body) =>
      IterateHolds(fs, Loop(cond, body, StepVar(name)), env[name := IntV(start)], w1, v, i);
    case While(cond, body) => IterateHolds(fs, Loop(cond, body, NoStep), env, w1, v, i);
    case DoWhile(body, cond) => RoundHolds(fs, Loop(cond, body, NoStep), env, w1, v, i);
    case _ =>
  }

  lemma {:induction false} IterateHolds(fs: Funcs, l: Loop, env: Env, w: World, v: string, i: int)
    requires LeavesAlone(v, l.body) && l.header != StepVar(v) && Holds(env, v, i)
    ensures Holds(Iterate(fs, l, env, w).env, v, i)
    decreases w.fuel, 2
  {
    var c := Eval(fs, l.cond, env, w);
    if c.res.Val? && Truthy(c.res.value) { RoundHolds(fs, l, env, c.world, v, i); }
  }

  lemma {:induction false} RoundHolds(fs: Funcs, l: Loop, env: Env, w: World, v: string, i: int)
    requires LeavesAlone(v, l.body) && l.header != StepVar(v) && Holds(env, v, i)
    ensures Holds(Round(fs, l, env, w).env, v, i)
    decreases w.fuel, 4
  {
    if Spent(w) { return; }
    BlockHolds(fs, l.body, env, Burn(w), v, i);
    var b := ExecBlock(fs, l.body, env, Burn(w));
    if GoesOn(b.flow) {
      var s := Step(l.header, b.env, b.world);
      if s.flow.Next? { IterateHolds(fs, l, s.env, s.world, v, i); }
    }
  }

  // ----- every round adds one -----

  lemma {:induction false} IncrementFirst(fs: Funcs, v: string, body: seq<Stmt>, env: Env, w: World, i: int)
    requires Holds(env, v, i)
    ensures var r := ExecBlock(fs, [Increment(v)] + body, env, w);
            if w.fuel <= 4 then r.flow == Raise(OutOfFuel)
            else if i + 1 <= I32_MAX && i + 1 >= I32_MIN then
              r == ExecBlock(fs, body, env[v := IntV(i + 1)], World(w.globals, w.fuel - 4))
            else r.flow == Raise(Failed(Overflow))
  {
    BlockAppend(fs, [Increment(v)], body, env, w);
    BlockOfOne(fs, Increment(v), env, w);
    IncrementIsStep(fs, v, env, w);
  }

  lemma {:induction false} RoundAddsOne(
    fs: Funcs, kind: LoopKind, v: string, n: int, body: seq<Stmt>, env: Env, w: World, i: int)
    requires LeavesAlone(v, body) && Holds(env, v, i)
    ensures var l := LoopOf(kind, v, n, body);
            var b := ExecBlock(fs, l.body, env, w);
            var s := Step(l.header, b.env, b.world);
            GoesOn(b.flow) && s.flow.Next? ==> Holds(s.env, v, i + 1)
  {
    if kind.ForLoop? {
      BlockHolds(fs, body, env, w, v, i);
    } else {
      IncrementFirst(fs, v, body, env, w, i);
      if w.fuel > 4 {
        BlockHolds(fs, body, env[v := IntV(i + 1)], World(w.globals, w.fuel - 4), v, i + 1);
      }
    }
  }

  // ----- how often the body runs -----

  ghost function IterateRuns(fs: Funcs, l: Loop, env: Env, w: World): nat
    decreases w.fuel, 2
  {
    var c := Eval(fs, l.cond, env, w);
    if c.res.Val? && Truthy(c.res.value) then RoundRuns(fs, l, env, c.world) else 0
  }

  ghost function RoundRuns(fs: Funcs, l: Loop, env: Env, w: World): nat
    decreases w.fuel, 4
  {
    if Spent(w) then 0 else 1 + AfterBodyRuns(fs, l, ExecBlock(fs, l.body, env, Burn(w)))
  }

  ghost function AfterBodyRuns(fs: Funcs, l: Loop, b: ExecOut): nat
    decreases b.world.fuel, 3
  {
    var s := Step(l.header, b.env, b.world);
    if GoesOn(b.flow) && s.flow.Next? then IterateRuns(fs, l, s.env, s.world) else 0
  }

  function AtLeast(a: int, b: int): int {
    if a < b then b else a
  }

  lemma {:induction false} IterateRunsBounded(
    fs: Funcs, kind: LoopKind, v: string, n: int, body: seq<Stmt>, env: Env, w: World, i: int)
    requires LeavesAlone(v, body) && Holds(env, v, i)
    ensures var l := LoopOf(kind, v, n, body);
            && IterateRuns(fs, l, env, w) <= AtLeast(n - i, 0)
            && (TableScoped(fs) && Scoped(body, false, true) && Iterate(fs, l, env, w).flow == Next ==>
                  IterateRuns(fs, l, env, w) == AtLeast(n - i, 0))
    decreases w.fuel, 2
  {
    TestOfCounter(fs, v, n, env, w);
    var l := LoopOf(kind, v, n, body);
    var c := Eval(fs, l.cond, env, w);
    if c.res.Val? && Truthy(c.res.value) { RoundRunsBounded(fs, kind, v, n, body, env, c.world, i); }
  }

  lemma {:induction false} RoundRunsBounded(
    fs: Funcs, kind: LoopKind, v: string, n: int, body: seq<Stmt>, env: Env, w: World, i: int)
    requires LeavesAlone(v, body) && Holds(env, v, i)
    ensures var l := LoopOf(kind, v, n, body);
            && RoundRuns(fs, l, env, w) <= AtLeast(n - i, 1)
            && (TableScoped(fs) && Scoped(body, false, true) && Round(fs, l, env, w).flow == Next ==>
                  RoundRuns(fs, l, env, w) == AtLeast(n - i, 1))
    decreases w.fuel, 4
  {
    if Spent(w) { return; }
    var l := LoopOf(kind, v, n, body);
    RoundAddsOne(fs, kind, v, n, body, env, Burn(w), i);
    var b := ExecBlock(fs, l.body, env, Burn(w));
    if TableScoped(fs) && Scoped(body, false, true) {
      assert Scoped(l.body, false, true);
      BlockSignals(fs, l.body, env, Burn(w), false, true);
    }
    var s := Step(l.header, b.env, b.world);
    if GoesOn(b.flow) && s.flow.Next? {
      assert AfterBody(fs, l, b) == Iterate(fs, l, s.env, s.world);
      IterateRunsBounded(fs, kind, v, n, body, s.env, s.world, i + 1);
    } else if TableScoped(fs) && Scoped(body, false, true) {
      assert AfterBody(fs, l, b).flow != Next;
    }
  }

  // ----- the loop ends -----

  ghost predicate EndsFrom(fs: Funcs, stmts: seq<Stmt>, env: Env, globals: Env) {
    exists fuel: nat :: ExecBlock(fs, stmts, env, World(globals, fuel)).flow != Raise(OutOfFuel)
  }

  /** From every state the body ends, given enough fuel. */
  ghost predicate Completes(fs: Funcs, body: seq<Stmt>) {
    forall env: Env, globals: Env :: EndsFrom(fs, body, env, globals)
  }

  lemma {:induction false} EnoughFuel(fs: Funcs, stmts: seq<Stmt>, env: Env, globals: Env) returns (fuel: nat)
    requires Completes(fs, stmts)
    ensures ExecBlock(fs, stmts, env, World(globals, fuel)).flow != Raise(OutOfFuel)
  {
    assert EndsFrom(fs, stmts, env, globals);
    fuel :| ExecBlock(fs, stmts, env, World(globals, fuel)).flow != Raise(OutOfFuel);
  }

  lemma {:induction false} BodyEnds(
    fs: Funcs, kind: LoopKind, v: string, n: int, body: seq<Stmt>, env: Env, globals: Env, i: int)
    returns (fuel: nat)
    requires Completes(fs, body) && Holds(env, v, i)
    ensures ExecBlock(fs, LoopOf(kind, v, n, body).body, env, World(globals, fuel)).flow != Raise(OutOfFuel)
  {
    if kind.ForLoop? {
      fuel := EnoughFuel(fs, body, env, globals);
    } else {
      var env1 := env[v := IntV(i + 1)];
      var f := EnoughFuel(fs, body, env1, globals);
      FuelBlock(fs, body, env1, World(globals, f), 1);
      fuel := f + 5;
      IncrementFirst(fs, v, body, env, World(globals, fuel), i);
    }
  }

  lemma {:induction false} RoundEnds(
    fs: Funcs, kind: LoopKind, v: string, n: int, body: seq<Stmt>, env: Env, globals: Env, i: int)
    returns (fuel: nat)
    requires LeavesAlone(v, body) && Completes(fs, body) && Holds(env, v, i)
    ensures Round(fs, LoopOf(kind, v, n, body), env, World(globals, fuel)).flow != Raise(OutOfFuel)
    decreases AtLeast(n - i, 1), 0
  {
    var l := LoopOf(kind, v, n, body);
    var f := BodyEnds(fs, kind, v, n, body, env, globals, i);
    var b := ExecBlock(fs, l.body, env, World(globals, f));
    RoundAddsOne(fs, kind, v, n, body, env, World(globals, f), i);
    var more := AfterBodyEnds(fs, kind, v, n, body, b, i + 1);
    FuelBlock(fs, l.body, env, World(globals, f), more);
    fuel := f + more + 1;
    assert Burn(World(globals, fuel)) == More(World(globals, f), more);
  }

  lemma {:induction false} AfterBodyEnds(
    fs: Funcs, kind: LoopKind, v: string, n: int, body: seq<Stmt>, b: ExecOut, i: int)
    returns (more: nat)
    requires LeavesAlone(v, body) && Completes(fs, body) && b.flow != Raise(OutOfFuel)
    requires var s := Step(LoopOf(kind, v, n, body).header, b.env, b.world);
             GoesOn(b.flow) && s.flow.Next? ==> Holds(s.env, v, i)
    ensures more > 0 && AfterBody(fs, LoopOf(kind, v, n, body), MoreOut(b, more)).flow != Raise(OutOfFuel)
    decreases AtLeast(n - i, 0), 2
  {
    var l := LoopOf(kind, v, n, body);
    var s := Step(l.header, b.env, b.world);
    more := 1;
    if GoesOn(b.flow) && s.flow.Next? {
      var f := IterateEnds(fs, kind, v, n, body, s.env, s.world.globals, i);
      more := f + 1;
      FuelIterate(fs, l, s.env, World(s.world.globals, f), b.world.fuel + 1);
    }
    assert Step(l.header, b.env, More(b.world, more)) == MoreOut(s, more);
  }

  lemma {:induction false} IterateEnds(
    fs: Funcs, kind: LoopKind, v: string, n: int, body: seq<Stmt>, env: Env, globals: Env, i: int)
    returns (fuel: nat)
    requires LeavesAlone(v, body) && Completes(fs, body) && Holds(env, v, i)
    ensures Iterate(fs, LoopOf(kind, v, n, body), env, World(globals, fuel)).flow != Raise(OutOfFuel)
    decreases AtLeast(n - i, 0), 1
  {
    var f := 1;
    if i < n { f := RoundEnds(fs, kind, v, n, body, env, globals, i); }
    fuel := f + 3;
    TestOfCounter(fs, v, n, env, World(globals, fuel));
  }

  // ----- the theorem -----

  /** How often the body runs, counted from the start of the lowered loop. */
  ghost function BodyRuns(
    fs: Funcs, kind: LoopKind, v: string, n: int, body: seq<Stmt>, env: Env, w: World): nat
  {
    if w.fuel <= 3 then 0 else
    var l := LoopOf(kind, v, n, body);
    match kind
    case ForLoop => IterateRuns(fs, l, Zeroed(v, env), World(w.globals, w.fuel - 1))
    case WhileLoop => IterateRuns(fs, l, Zeroed(v, env), World(w.globals, w.fuel - 3))
    case DoWhileLoop => RoundRuns(fs, l, Zeroed(v, env), World(w.globals, w.fuel - 3))
  }

  function MaxRuns(kind: LoopKind, n: int): int {
    AtLeast(n, if kind.DoWhileLoop? then 1 else 0)
  }

  lemma {:induction false} EnterContSafe(
    fs: Funcs, kind: LoopKind, v: string, n: int, body: seq<Stmt>, env: Env, w: World)
    requires w.fuel > 3
    ensures var l := LoopOf(kind, v, n, body);
            ExecBlock(fs, MakeContSafe(kind, v, Lit(n), body), env, w) ==
            match kind
            case ForLoop => Iterate(fs, l, Zeroed(v, env), World(w.globals, w.fuel - 1))
            case WhileLoop => Iterate(fs, l, Zeroed(v, env), World(w.globals, w.fuel - 3))
            case DoWhileLoop => Round(fs, l, Zeroed(v, env), World(w.globals, w.fuel - 3))
  {
    if kind.ForLoop? { EnterFor(fs, v, Lit(n), body, env, w); }
    else { EnterDeclared(fs, v, MakeContSafe(kind, v, Lit(n), body)[1], env, w); }
  }

  lemma {:induction false} NeverReachesBody(
    fs: Funcs, kind: LoopKind, v: string, n: int, body: seq<Stmt>, env: Env, w: World)
    requires w.fuel <= 3
    ensures ExecBlock(fs, MakeContSafe(kind, v, Lit(n), body), env, w).flow == Raise(OutOfFuel)
  {
    if kind.ForLoop? {
      TooLittleFuel(fs, ForLoop, v, Lit(n), body, env, w);
    } else if w.fuel == 3 {
      EnterDeclared(fs, v, MakeContSafe(kind, v, Lit(n), body)[1], env, w);
    } else {
      assert Exec(fs, Decl(v, Lit(0)), env, w).flow == Raise(OutOfFuel);
    }
  }

  /** At most N rounds on any tank, and exactly N when the loop completes and nothing breaks out. */
  lemma {:induction false} ContSafeRunsAtMost(
    fs: Funcs, kind: LoopKind, v: string, n: int, body: seq<Stmt>, env: Env, w: World)
    requires LeavesAlone(v, body)
    ensures BodyRuns(fs, kind, v, n, body, env, w) <= MaxRuns(kind, n)
    ensures TableScoped(fs) && Scoped(body, false, true) &&
            ExecBlock(fs, MakeContSafe(kind, v, Lit(n), body), env, w).flow == Next ==>
              BodyRuns(fs, kind, v, n, body, env, w) == MaxRuns(kind, n)
  {
    if w.fuel <= 3 { NeverReachesBody(fs, kind, v, n, body, env, w); return; }
    EnterContSafe(fs, kind, v, n, body, env, w);
    match kind
    case ForLoop => IterateRunsBounded(fs, kind, v, n, body, Zeroed(v, env), World(w.globals, w.fuel - 1), 0);
    case WhileLoop => IterateRunsBounded(fs, kind, v, n, body, Zeroed(v, env), World(w.globals, w.fuel - 3), 0);
    case DoWhileLoop => RoundRunsBounded(fs, kind, v, n, body, Zeroed(v, env), World(w.globals, w.fuel - 3), 0);
  }

  lemma {:induction false} ContSafeEnds(
    fs: Funcs, kind: LoopKind, v: string, n: int, body: seq<Stmt>, env: Env, globals: Env)
    requires LeavesAlone(v, body) && Completes(fs, body)
    ensures EndsFrom(fs, MakeContSafe(kind, v, Lit(n), body), env, globals)
  {
    var env0 := Zeroed(v, env);
    var l := LoopOf(kind, v, n, body);
    var f: nat;
    if kind.DoWhileLoop? {
      f := RoundEnds(fs, kind, v, n, body, env0, globals, 0);
    } else {
      f := IterateEnds(fs, kind, v, n, body, env0, globals, 0);
      FuelIterate(fs, l, env0, World(globals, f), 2);
    }
    assert f > 0;
    EnterContSafe(fs, kind, v, n, body, env, World(globals, f + 3));
    assert ExecBlock(fs, MakeContSafe(kind, v, Lit(n), body), env, World(globals, f + 3)).flow != Raise(OutOfFuel);
  }
}
