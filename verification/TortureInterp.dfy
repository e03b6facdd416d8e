/** The reference interpreter as it is written: an object that counts its fuel down and updates its
    globals, frames that statements update in place, and one loop per loop statement. Each method is
    proved against the functions of `TortureSemantics`. Remaining fuel is the termination measure of
    every recursive call and of every loop. */
module TortureInterp {
  import opened TortureAst
  import opened TortureSemantics

  /** The variables of one call. */
  class Frame {
    var vars: Env

    constructor (vars: Env)
      ensures this.vars == vars
    {
      this.vars := vars;
    }
  }

  class Interp {
    const funcs: Funcs
    const decls: seq<GlobalDecl>
    var fuel: nat
    var globals: Env

    constructor (funcs: Funcs, decls: seq<GlobalDecl>)
      ensures this.funcs == funcs && this.decls == decls
    {
      this.funcs, this.decls := funcs, decls;
      fuel, globals := 0, map[];
    }

    ghost function Here(): World
      reads this
    {
      World(globals, fuel)
    }

    method RunFunction(name: string, args: seq<Value>) returns (r: EvalResult)
      modifies this
      ensures EvalOut(r, Here()) == Run(funcs, decls, name, args)
      ensures EvalOut(r, Here()) == Invoke(funcs, name, args, World(InitialGlobals(decls), 100_000))
    {
      fuel := FUEL;
      globals := map[];
      for i := 0 to |decls|
        invariant globals == InitialGlobals(decls[..i])
        invariant fuel == FUEL
      {
        globals := globals[decls[i].name := IntV(decls[i].init)];
        assert decls[..i + 1][..i] == decls[..i];
      }
      assert decls[..|decls|] == decls;
      r := CallFunction(name, args);
    }

    method SpendOne() returns (ok: bool)
      modifies this`fuel
      ensures ok == !Spent(old(Here()))
      ensures Here() == Burn(old(Here()))
    {
      if fuel > 0 { fuel := fuel - 1; }
      ok := fuel > 0;
    }

    method StoreVar(name: string, value: Value, env: Frame) returns (flow: Flow)
      modifies this`globals, env
      ensures ExecOut(flow, env.vars, Here()) == Assign(name, value, old(env.vars), old(Here()))
    {
      if name in env.vars {
        env.vars := env.vars[name := value];
        flow := Next;
      } else if name in globals {
        globals := globals[name := value];
        flow := Next;
      } else {
        flow := Raise(Failed(UndeclaredStore));
      }
    }

    method CallFunction(name: string, vals: seq<Value>) returns (r: EvalResult)
      modifies this
      ensures EvalOut(r, Here()) == Invoke(funcs, name, vals, old(Here()))
      decreases fuel, 2
    {
      if name !in funcs { return Raised(Failed(UnknownFunction)); }
      if |vals| != |funcs[name].params| { return Raised(Failed(ArityMismatch)); }
      var frame := new Frame(Bind(funcs[name].params, vals));
      var flow := RunBlock(funcs[name].body, frame);
      match flow
      case Next => r := Raised(Failed(FellOffEnd));
      case Raise(sig) => r := if sig.ReturnSig? then Val(sig.value) else Raised(sig);
    }

    method EvalArguments(args: seq<Expr>, env: Frame) returns (flow: Flow, vals: seq<Value>)
      modifies this
      ensures var a := EvalArgs(funcs, args, env.vars, old(Here()));
              flow == a.flow && Here() == a.world && (flow.Next? ==> vals == a.vals)
      decreases fuel, 1
    {
      vals := [];
      ghost var goal := EvalArgs(funcs, args, env.vars, Here());
      for i := 0 to |args|
        invariant fuel <= old(fuel)
        invariant var rest := EvalArgs(funcs, args[i..], env.vars, Here());
                  && goal.flow == rest.flow && goal.world == rest.world
                  && (goal.flow.Next? ==> goal.vals == vals + rest.vals)
      {
        var r := EvalExpr(args[i], env);
        if r.Raised? { return Raise(r.sig), []; }
        vals := vals + [r.value];
        assert args[i..][1..] == args[i + 1..];
      }
      flow := Next;
    }

    method EvalExpr(e: Expr, env: Frame) returns (r: EvalResult)
      modifies this
      ensures EvalOut(r, Here()) == Eval(funcs, e, env.vars, old(Here()))
      decreases fuel, 0
    {
      var ok := SpendOne();
      if !ok { return Raised(OutOfFuel); }
      match e
      case Var(name) =>
        if name in env.vars { return Val(env.vars[name]); }
        if name in globals { return Val(globals[name]); }
        r := Raised(Failed(UnboundVariable));
      case Lit(n) => r := Val(IntV(n));
      case Call(name, args) =>
        var flow, vals := EvalArguments(args, env);
        if flow.Raise? { return Raised(flow.sig); }
        r := CallFunction(name, vals);
      case Tern(cond, thn, els) =>
        var c := EvalExpr(cond, env);
        if c.Raised? { return c; }
        if Truthy(c.value) { r := EvalExpr(thn, env); } else { r := EvalExpr(els, env); }
      case Bin(op, lhs, rhs) =>
        var a := EvalExpr(lhs, env);
        if a.Raised? { return a; }
        if op.And? && !Truthy(a.value) { return Val(BoolV(false)); }
        if op.Or? && Truthy(a.value) { return Val(BoolV(true)); }
        var b := EvalExpr(rhs, env);
        if b.Raised? { return b; }
        if op.And? || op.Or? { return Val(BoolV(Truthy(b.value))); }
        r := Arith(op, AsInt(a.value), AsInt(b.value));
    }

    method RunBlock(stmts: seq<Stmt>, env: Frame) returns (flow: Flow)
      modifies this, env
      ensures ExecOut(flow, env.vars, Here()) == ExecBlock(funcs, stmts, old(env.vars), old(Here()))
      decreases fuel, 1
    {
      ghost var goal := ExecBlock(funcs, stmts, env.vars, Here());
      for i := 0 to |stmts|
        invariant fuel <= old(fuel)
        invariant goal == ExecBlock(funcs, stmts[i..], env.vars, Here())
      {
        flow := RunStmt(stmts[i], env);
        if flow.Raise? { return; }
        assert stmts[i..][1..] == stmts[i + 1..];
      }
      flow := Next;
    }

    method RunStmt(s: Stmt, env: Frame) returns (flow: Flow)
      modifies this, env
      ensures ExecOut(flow, env.vars, Here()) == Exec(funcs, s, old(env.vars), old(Here()))
      decreases fuel, 0
    {
      var ok := SpendOne();
      if !ok { return Raise(OutOfFuel); }
      match s
      case Decl(name, expr) =>
        var v := EvalExpr(expr, env);
        if v.Raised? { return Raise(v.sig); }
        env.vars := env.vars[name := v.value];
        flow := Next;
      case Asn(name, expr) =>
        var v := EvalExpr(expr, env);
        if v.Raised? { return Raise(v.sig); }
        flow := StoreVar(name, v.value, env);
      case If(cond, thn) =>
        var c := EvalExpr(cond, env);
        if c.Raised? { return Raise(c.sig); }
        if Truthy(c.value) { flow := RunBlock(thn, env); } else { flow := Next; }
      case IfElse(cond, thn, els) =>
        var c := EvalExpr(cond, env);
        if c.Raised? { return Raise(c.sig); }
        if Truthy(c.value) { flow := RunBlock(thn, env); } else { flow := RunBlock(els, env); }
      case For(name, start, cond, body) => flow := RunFor(name, start, cond, body, env);
      case While(cond, body) => flow := RunWhile(cond, body, env);
      case DoWhile(body, cond) => flow := RunDoWhile(body, cond, env);
      case Break => flow := Raise(BreakSig);
      case Continue => flow := Raise(ContinueSig);
      case Return(expr) =>
        var v := EvalExpr(expr, env);
        flow := Raise(if v.Raised? then v.sig else ReturnSig(v.value));
    }

    method RunFor(name: string, start: int, cond: Expr, body: seq<Stmt>, env: Frame) returns (flow: Flow)
      modifies this, env
      ensures ExecOut(flow, env.vars, Here()) ==
              Iterate(funcs, Loop(cond, body, StepVar(name)), old(env.vars)[name := IntV(start)], old(Here()))
      decreases fuel, 2
    {
      env.vars := env.vars[name := IntV(start)];
      ghost var l := Loop(cond, body, StepVar(name));
      ghost var goal := Iterate(funcs, l, env.vars, Here());
      while true
        invariant fuel <= old(fuel)
        invariant goal == Iterate(funcs, l, env.vars, Here())
        decreases fuel
      {
        var c := EvalExpr(cond, env);
        if c.Raised? { return Raise(c.sig); }
        if !Truthy(c.value) { return Next; }
        assert goal == Round(funcs, l, env.vars, Here());
        var ok := SpendOne();
        if !ok { return Raise(OutOfFuel); }
        flow := RunBlock(body, env);
        assert goal == AfterBody(funcs, l, ExecOut(flow, env.vars, Here()));
        if flow == Raise(BreakSig) { return Next; }
        if !GoesOn(flow) { return; }
        if name !in env.vars { return Raise(Failed(UnboundVariable)); }
        var v := CheckI32(AsInt(env.vars[name]) + 1);
        if v.Raised? { return Raise(v.sig); }
        env.vars := env.vars[name := v.value];
      }
    }

    method RunWhile(cond: Expr, body: seq<Stmt>, env: Frame) returns (flow: Flow)
      modifies this, env
      ensures ExecOut(flow, env.vars, Here()) ==
              Iterate(funcs, Loop(cond, body, NoStep), old(env.vars), old(Here()))
      decreases fuel, 2
    {
      ghost var l := Loop(cond, body, NoStep);
      ghost var goal := Iterate(funcs, l, env.vars, Here());
      while true
        invariant fuel <= old(fuel)
        invariant goal == Iterate(funcs, l, env.vars, Here())
        decreases fuel
      {
        var c := EvalExpr(cond, env);
        if c.Raised? { return Raise(c.sig); }
        if !Truthy(c.value) { return Next; }
        assert goal == Round(funcs, l, env.vars, Here());
        var ok := SpendOne();
        if !ok { return Raise(OutOfFuel); }
        flow := RunBlock(body, env);
        assert goal == AfterBody(funcs, l, ExecOut(flow, env.vars, Here()));
        if flow == Raise(BreakSig) { return Next; }
        if !GoesOn(flow) { return; }
      }
    }

    /** The only loop that tests last. */
    method RunDoWhile(body: seq<Stmt>, cond: Expr, env: Frame) returns (flow: Flow)
      modifies this, env
      ensures ExecOut(flow, env.vars, Here()) ==
              Round(funcs, Loop(cond, body, NoStep), old(env.vars), old(Here()))
      decreases fuel, 2
    {
      ghost var l := Loop(cond, body, NoStep);
      ghost var goal := Round(funcs, l, env.vars, Here());
      while true
        invariant fuel <= old(fuel)
        invariant goal == Round(funcs, l, env.vars, Here())
        decreases fuel
      {
        var ok := SpendOne();
        if !ok { return Raise(OutOfFuel); }
        flow := RunBlock(body, env);
        assert goal == AfterBody(funcs, l, ExecOut(flow, env.vars, Here()));
        if flow == Raise(BreakSig) { return Next; }
        if !GoesOn(flow) { return; }
        assert goal == Iterate(funcs, l, env.vars, Here());
        var c := EvalExpr(cond, env);
        if c.Raised? { return Raise(c.sig); }
        if !Truthy(c.value) { return Next; }
      }
    }
  }
}
