/** Extra fuel never changes a result: a run that did not exhaust its fuel gives the same value, the
    same variables and the same globals on any larger tank, and leaves exactly the extra over. */
module TortureFuel {
  import opened TortureAst
  import opened TortureSemantics

  function More(w: World, k: nat): World {
    World(w.globals, w.fuel + k)
  }

  function MoreVal(r: EvalOut, k: nat): EvalOut {
    EvalOut(r.res, More(r.world, k))
  }

  function MoreOut(r: ExecOut, k: nat): ExecOut {
    ExecOut(r.flow, r.env, More(r.world, k))
  }

  lemma {:induction false} FuelEval(fs: Funcs, e: Expr, env: Env, w: World, k: nat)
    requires Eval(fs, e, env, w).res != Raised(OutOfFuel)
    ensures Eval(fs, e, env, More(w, k)) == MoreVal(Eval(fs, e, env, w), k)
    decreases w.fuel, 0
  {
    var w1 := Burn(w);
    assert Burn(More(w, k)) == More(w1, k);
    match e
    case Var(_) =>
    case Lit(_) =>
    case Call(name, args) =>
      FuelArgs(fs, args, env, w1, k);
      var a := EvalArgs(fs, args, env, w1);
      if a.flow.Next? { FuelInvoke(fs, name, a.vals, a.world, k); }
    case Tern(cond, thn, els) =>
      FuelEval(fs, cond, env, w1, k);
      var c := Eval(fs, cond, env, w1);
      if c.res.Val? {
        if Truthy(c.res.value) { FuelEval(fs, thn, env, c.world, k); }
        else { FuelEval(fs, els, env, c.world, k); }
      }
    case Bin(op, lhs, rhs) =>
      FuelEval(fs, lhs, env, w1, k);
      var a := Eval(fs, lhs, env, w1);
      if a.res.Val? && !(op.And? && !Truthy(a.res.value)) && !(op.Or? && Truthy(a.res.value)) {
        FuelEval(fs, rhs, env, a.world, k);
      }
  }

  lemma {:induction false} FuelArgs(fs: Funcs, args: seq<Expr>, env: Env, w: World, k: nat)
    requires EvalArgs(fs, args, env, w).flow != Raise(OutOfFuel)
    ensures EvalArgs(fs, args, env, More(w, k)) ==
            var r := EvalArgs(fs, args, env, w); ArgsOut(r.flow, r.vals, More(r.world, k))
    decreases w.fuel, 1
  {
    if args != [] {
      FuelEval(fs, args[0], env, w, k);
      var a := Eval(fs, args[0], env, w);
      if a.res.Val? { FuelArgs(fs, args[1..], env, a.world, k); }
    }
  }

  lemma {:induction false} FuelInvoke(fs: Funcs, name: string, vals: seq<Value>, w: World, k: nat)
    requires Invoke(fs, name, vals, w).res != Raised(OutOfFuel)
    ensures Invoke(fs, name, vals, More(w, k)) == MoreVal(Invoke(fs, name, vals, w), k)
    decreases w.fuel, 3
  {
    if name in fs && |vals| == |fs[name].params| {
      FuelBlock(fs, fs[name].body, Bind(fs[name].params, vals), w, k);
    }
  }

  lemma {:induction false} FuelBlock(fs: Funcs, stmts: seq<Stmt>, env: Env, w: World, k: nat)
    requires ExecBlock(fs, stmts, env, w).flow != Raise(OutOfFuel)
    ensures ExecBlock(fs, stmts, env, More(w, k)) == MoreOut(ExecBlock(fs, stmts, env, w), k)
    decreases w.fuel, 2
  {
    if stmts != [] {
      FuelExec(fs, stmts[0], env, w, k);
      var s := Exec(fs, stmts[0], env, w);
      if s.flow.Next? { FuelBlock(fs, stmts[1..], s.env, s.world, k); }
    }
  }

  lemma {:induction false} FuelExec(fs: Funcs, s: Stmt, env: Env, w: World, k: nat)
    requires Exec(fs, s, env, w).flow != Raise(OutOfFuel)
    ensures Exec(fs, s, env, More(w, k)) == MoreOut(Exec(fs, s, env, w), k)
    decreases w.fuel, 1
  {
    var w1 := Burn(w);
    assert Burn(More(w, k)) == More(w1, k);
    match s
    case Decl(_, expr) => FuelEval(fs, expr, env, w1, k);
    case Asn(_, expr) => FuelEval(fs, expr, env, w1, k);
    case Return(expr) => FuelEval(fs, expr, env, w1, k);
    case If(_, _) => FuelBranch(fs, s, env, w, k);
    case IfElse(_, _, _) => FuelBranch(fs, s, env, w, k);
    case For(name, start, cond, body) =>
      FuelIterate(fs, Loop(cond, body, StepVar(name)), env[name := IntV(start)], w1, k);
    case While(cond, body) => FuelIterate(fs, Loop(cond, body, NoStep), env, w1, k);
    case DoWhile(body, cond) => FuelRound(fs, Loop(cond, body, NoStep), env, w1, k);
    case Break =>
    case Continue =>
  }

  lemma {:induction false} FuelBranch(fs: Funcs, s: Stmt, env: Env, w: World, k: nat)
    requires s.If? || s.IfElse?
    requires Exec(fs, s, env, w).flow != Raise(OutOfFuel)
    ensures Exec(fs, s, env, More(w, k)) == MoreOut(Exec(fs, s, env, w), k)
    decreases w.fuel, 0
  {
    var w1 := Burn(w);
    assert Burn(More(w, k)) == More(w1, k);
    FuelEval(fs, s.cond, env, w1, k);
    var c := Eval(fs, s.cond, env, w1);
    if c.res.Val? {
      if Truthy(c.res.value) { FuelBlock(fs, s.thn, env, c.world, k); }
      else if s.IfElse? { FuelBlock(fs, s.els, env, c.world, k); }
    }
  }

  lemma {:induction false} FuelIterate(fs: Funcs, l: Loop, env: Env, w: World, k: nat)
    requires Iterate(fs, l, env, w).flow != Raise(OutOfFuel)
    ensures Iterate(fs, l, env, More(w, k)) == MoreOut(Iterate(fs, l, env, w), k)
    decreases w.fuel, 2
  {
    FuelEval(fs, l.cond, env, w, k);
    var c := Eval(fs, l.cond, env, w);
    if c.res.Val? && Truthy(c.res.value) { FuelRound(fs, l, env, c.world, k); }
  }

  lemma {:induction false} FuelRound(fs: Funcs, l: Loop, env: Env, w: World, k: nat)
    requires Round(fs, l, env, w).flow != Raise(OutOfFuel)
    ensures Round(fs, l, env, More(w, k)) == MoreOut(Round(fs, l, env, w), k)
    decreases w.fuel, 4
  {
    assert Burn(More(w, k)) == More(Burn(w), k);
    FuelBlock(fs, l.body, env, Burn(w), k);
    FuelAfterBody(fs, l, ExecBlock(fs, l.body, env, Burn(w)), k);
  }

  lemma {:induction false} FuelAfterBody(fs: Funcs, l: Loop, b: ExecOut, k: nat)
    requires AfterBody(fs, l, b).flow != Raise(OutOfFuel)
    ensures AfterBody(fs, l, MoreOut(b, k)) == MoreOut(AfterBody(fs, l, b), k)
    decreases b.world.fuel, 3
  {
    if GoesOn(b.flow) {
      var s := Step(l.header, b.env, b.world);
      if s.flow.Next? { FuelIterate(fs, l, s.env, s.world, k); }
    }
  }
}
