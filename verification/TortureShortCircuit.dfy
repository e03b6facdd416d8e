/** Short-circuit operators against ternaries. Where only the truth of an expression matters, `a && b`
    may be written `a ? b : 0` and `a || b` may be written `a ? 1 : b`: in every program the outcome, the
    variables and the globals (so also the `chk` trace) stay the same. Right operands therefore run
    exactly when short-circuiting requires. */
module TortureShortCircuit {
  import opened TortureAst
  import opened TortureSemantics

  // ----- the rewrite -----

  /** In value position. The operands of `&&` and `||` are in condition position. */
  function Rewrite(e: Expr): Expr {
    match e
    case Var(_) => e
    case Lit(_) => e
    case Call(name, args) => Call(name, RewriteAll(args))
    case Tern(cond, thn, els) => Tern(RewriteCond(cond), Rewrite(thn), Rewrite(els))
    case Bin(op, lhs, rhs) =>
      if op.And? || op.Or? then Bin(op, RewriteCond(lhs), RewriteCond(rhs))
      else Bin(op, Rewrite(lhs), Rewrite(rhs))
  }

  /** In condition position. */
  function RewriteCond(e: Expr): Expr {
    match e
    case Var(_) => e
    case Lit(_) => e
    case Call(name, args) => Call(name, RewriteAll(args))
    case Tern(cond, thn, els) => Tern(RewriteCond(cond), RewriteCond(thn), RewriteCond(els))
    case Bin(op, lhs, rhs) =>
      if op.And? then Tern(RewriteCond(lhs), RewriteCond(rhs), Lit(0))
      else if op.Or? then Tern(RewriteCond(lhs), Lit(1), RewriteCond(rhs))
      else Bin(op, Rewrite(lhs), Rewrite(rhs))
  }

  function RewriteAll(es: seq<Expr>): (r: seq<Expr>)
    ensures |r| == |es|
  {
    if es == [] then [] else [Rewrite(es[0])] + RewriteAll(es[1..])
  }

  function RewriteStmt(s: Stmt): Stmt {
    match s
    case Decl(name, expr) => Decl(name, Rewrite(expr))
    case Asn(name, expr) => Asn(name, Rewrite(expr))
    case If(cond, thn) => If(RewriteCond(cond), RewriteBlock(thn))
    case IfElse(cond, thn, els) => IfElse(RewriteCond(cond), RewriteBlock(thn), RewriteBlock(els))
    case For(name, start, cond, body) => For(name, start, RewriteCond(cond), RewriteBlock(body))
    case While(cond, body) => While(RewriteCond(cond), RewriteBlock(body))
    case DoWhile(body, cond) => DoWhile(RewriteBlock(body), RewriteCond(cond))
    case Break => s
    case Continue => s
    case Return(expr) => Return(Rewrite(expr))
  }

  function RewriteBlock(stmts: seq<Stmt>): (r: seq<Stmt>)
    ensures |r| == |stmts|
  {
    if stmts == [] then [] else [RewriteStmt(stmts[0])] + RewriteBlock(stmts[1..])
  }

  function RewriteTable(fs: Funcs): Funcs {
    map name | name in fs :: fs[name].(body := RewriteBlock(fs[name].body))
  }

  // ----- programs that differ only by such rewrites, in either direction -----

  predicate Alike(a: Expr, b: Expr) {
    match a
    case Var(_) => a == b
    case Lit(_) => a == b
    case Call(name, args) => b.Call? && b.name == name && AllAlike(args, b.args)
    case Tern(cond, thn, els) => b.Tern? && CondAlike(cond, b.cond) && Alike(thn, b.thn) && Alike(els, b.els)
    case Bin(op, lhs, rhs) =>
      && b.Bin? && b.op == op
      && if op.And? || op.Or? then CondAlike(lhs, b.lhs) && CondAlike(rhs, b.rhs)
         else Alike(lhs, b.lhs) && Alike(rhs, b.rhs)
  }

  predicate CondAlike(a: Expr, b: Expr) {
    match a
    case Var(_) => a == b
    case Lit(_) => a == b
    case Call(name, args) => b.Call? && b.name == name && AllAlike(args, b.args)
    case Tern(cond, thn, els) =>
      || (b.Tern? && CondAlike(cond, b.cond) && CondAlike(thn, b.thn) && CondAlike(els, b.els))
      || (b.Bin? && b.op.And? && els == Lit(0) && CondAlike(cond, b.lhs) && CondAlike(thn, b.rhs))
      || (b.Bin? && b.op.Or? && thn == Lit(1) && CondAlike(cond, b.lhs) && CondAlike(els, b.rhs))
    case Bin(op, lhs, rhs) =>
      || (&& b.Bin? && b.op == op
          && if op.And? || op.Or? then CondAlike(lhs, b.lhs) && CondAlike(rhs, b.rhs)
             else Alike(lhs, b.lhs) && Alike(rhs, b.rhs))
      || (b.Tern? && op.And? && b.els == Lit(0) && CondAlike(lhs, b.cond) && CondAlike(rhs, b.thn))
      || (b.Tern? && op.Or? && b.thn == Lit(1) && CondAlike(lhs, b.cond) && CondAlike(rhs, b.els))
  }

  predicate AllAlike(xs: seq<Expr>, ys: seq<Expr>) {
    |xs| == |ys| && (xs == [] || (Alike(xs[0], ys[0]) && AllAlike(xs[1..], ys[1..])))
  }

  predicate StmtAlike(a: Stmt, b: Stmt) {
    match a
    case Decl(name, expr) => b.Decl? && b.name == name && Alike(expr, b.expr)
    case Asn(name, expr) => b.Asn? && b.name == name && Alike(expr, b.expr)
    case If(cond, thn) => b.If? && CondAlike(cond, b.cond) && BlockAlike(thn, b.thn)
    case IfElse(cond, thn, els) =>
      b.IfElse? && CondAlike(cond, b.cond) && BlockAlike(thn, b.thn) && BlockAlike(els, b.els)
    case For(name, start, cond, body) =>
      b.For? && b.name == name && b.start == start && CondAlike(cond, b.cond) && BlockAlike(body, b.body)
    case While(cond, body) => b.While? && CondAlike(cond, b.cond) && BlockAlike(body, b.body)
    case DoWhile(body, cond) => b.DoWhile? && CondAlike(cond, b.cond) && BlockAlike(body, b.body)
    case Break => b.Break?
    case Continue => b.Continue?
    case Return(expr) => b.Return? && Alike(expr, b.expr)
  }

  predicate BlockAlike(xs: seq<Stmt>, ys: seq<Stmt>) {
    |xs| == |ys| && (xs == [] || (StmtAlike(xs[0], ys[0]) && BlockAlike(xs[1..], ys[1..])))
  }

  ghost predicate TableAlike(fs: Funcs, gs: Funcs) {
    && fs.Keys == gs.Keys
    && forall name :: name in fs ==>
         fs[name].params == gs[name].params && BlockAlike(fs[name].body, gs[name].body)
  }

  predicate LoopAlike(a: Loop, b: Loop) {
    a.header == b.header && CondAlike(a.cond, b.cond) && BlockAlike(a.body, b.body)
  }

  // ----- alike programs run alike, on three times the fuel -----

  ghost predicate SameTruth(a: EvalResult, b: EvalResult) {
    match a
    case Val(v) => b.Val? && Truthy(b.value) == Truthy(v)
    case Raised(_) => a == b
  }

  /** `b`, started `slack` above three times `a`'s fuel, still is. */
  ghost predicate Keeps(a: World, b: World, slack: int) {
    a.globals == b.globals && b.fuel >= 3 * a.fuel + slack
  }

  lemma {:induction false} EvalAlike(
    fs: Funcs, gs: Funcs, a: Expr, b: Expr, env: Env, v: World, w: World, slack: nat)
    requires TableAlike(fs, gs) && Alike(a, b) && Keeps(v, w, slack)
    requires Eval(fs, a, env, v).res != Raised(OutOfFuel)
    ensures Eval(gs, b, env, w).res == Eval(fs, a, env, v).res
    ensures Keeps(Eval(fs, a, env, v).world, Eval(gs, b, env, w).world, slack)
    decreases v.fuel, 1
  {
    var v1, w1, more := Burn(v), Burn(w), slack + 2;
    match a
    case Var(_) =>
    case Lit(_) =>
    case Call(name, args) =>
      ArgsAlike(fs, gs, args, b.args, env, v1, w1, more);
      var r := EvalArgs(fs, args, env, v1);
      if r.flow.Next? {
        InvokeAlike(fs, gs, name, r.vals, r.world, EvalArgs(gs, b.args, env, w1).world, more);
      }
    case Tern(cond, thn, els) =>
      CondEvalAlike(fs, gs, cond, b.cond, env, v1, w1, more);
      var c, d := Eval(fs, cond, env, v1), Eval(gs, b.cond, env, w1);
      if c.res.Val? {
        if Truthy(c.res.value) { EvalAlike(fs, gs, thn, b.thn, env, c.world, d.world, more); }
        else { EvalAlike(fs, gs, els, b.els, env, c.world, d.world, more); }
      }
    case Bin(op, lhs, rhs) =>
      if op.And? || op.Or? { LogicAlike(fs, gs, a, b, env, v, w, slack); }
      else { ArithAlike(fs, gs, a, b, env, v, w, slack); }
  }

  lemma {:induction false} ArithAlike(
    fs: Funcs, gs: Funcs, a: Expr, b: Expr, env: Env, v: World, w: World, slack: nat)
    requires TableAlike(fs, gs) && Keeps(v, w, slack)
    requires a.Bin? && b.Bin? && a.op == b.op && !a.op.And? && !a.op.Or?
    requires Alike(a.lhs, b.lhs) && Alike(a.rhs, b.rhs)
    requires Eval(fs, a, env, v).res != Raised(OutOfFuel)
    ensures Eval(gs, b, env, w).res == Eval(fs, a, env, v).res
    ensures Keeps(Eval(fs, a, env, v).world, Eval(gs, b, env, w).world, slack)
    decreases v.fuel, 0
  {
    var v1, w1, more := Burn(v), Burn(w), slack + 2;
    EvalAlike(fs, gs, a.lhs, b.lhs, env, v1, w1, more);
    var c, d := Eval(fs, a.lhs, env, v1), Eval(gs, b.lhs, env, w1);
    if c.res.Val? { EvalAlike(fs, gs, a.rhs, b.rhs, env, c.world, d.world, more); }
  }

  lemma {:induction false} LogicAlike(
    fs: Funcs, gs: Funcs, a: Expr, b: Expr, env: Env, v: World, w: World, slack: nat)
    requires TableAlike(fs, gs) && Keeps(v, w, slack)
    requires a.Bin? && b.Bin? && a.op == b.op && (a.op.And? || a.op.Or?)
    requires CondAlike(a.lhs, b.lhs) && CondAlike(a.rhs, b.rhs)
    requires Eval(fs, a, env, v).res != Raised(OutOfFuel)
    ensures Eval(gs, b, env, w).res == Eval(fs, a, env, v).res
    ensures Keeps(Eval(fs, a, env, v).world, Eval(gs, b, env, w).world, slack)
    decreases v.fuel, 0
  {
    var v1, w1, more := Burn(v), Burn(w), slack + 2;
    CondEvalAlike(fs, gs, a.lhs, b.lhs, env, v1, w1, more);
    var c, d := Eval(fs, a.lhs, env, v1), Eval(gs, b.lhs, env, w1);
    if c.res.Val? && Truthy(c.res.value) == a.op.And? {
      CondEvalAlike(fs, gs, a.rhs, b.rhs, env, c.world, d.world, more);
    }
  }

  lemma {:induction false} CondEvalAlike(
    fs: Funcs, gs: Funcs, a: Expr, b: Expr, env: Env, v: World, w: World, slack: nat)
    requires TableAlike(fs, gs) && CondAlike(a, b) && Keeps(v, w, slack)
    requires Eval(fs, a, env, v).res != Raised(OutOfFuel)
    ensures SameTruth(Eval(fs, a, env, v).res, Eval(gs, b, env, w).res)
    ensures Keeps(Eval(fs, a, env, v).world, Eval(gs, b, env, w).world, slack)
    decreases v.fuel, 2
  {
    if Alike(a, b) {
      EvalAlike(fs, gs, a, b, env, v, w, slack);
    } else if a.Tern? && b.Tern? {
      TernAlike(fs, gs, a, b, env, v, w, slack);
    } else if a.Tern? {
      TernAsLogic(fs, gs, a, b, env, v, w, slack);
    } else {
      LogicAsTern(fs, gs, a, b, env, v, w, slack);
    }
  }

  lemma {:induction false} TernAlike(
    fs: Funcs, gs: Funcs, a: Expr, b: Expr, env: Env, v: World, w: World, slack: nat)
    requires TableAlike(fs, gs) && Keeps(v, w, slack) && a.Tern? && b.Tern?
    requires CondAlike(a.cond, b.cond) && CondAlike(a.thn, b.thn) && CondAlike(a.els, b.els)
    requires Eval(fs, a, env, v).res != Raised(OutOfFuel)
    ensures SameTruth(Eval(fs, a, env, v).res, Eval(gs, b, env, w).res)
    ensures Keeps(Eval(fs, a, env, v).world, Eval(gs, b, env, w).world, slack)
    decreases v.fuel, 0
  {
    var v1, w1, more := Burn(v), Burn(w), slack + 2;
    CondEvalAlike(fs, gs, a.cond, b.cond, env, v1, w1, more);
    var c, d := Eval(fs, a.cond, env, v1), Eval(gs, b.cond, env, w1);
    if c.res.Val? {
      if Truthy(c.res.value) { CondEvalAlike(fs, gs, a.thn, b.thn, env, c.world, d.world, more); }
      else { CondEvalAlike(fs, gs, a.els, b.els, env, c.world, d.world, more); }
    }
  }

  lemma {:induction false} TernAsLogic(
    fs: Funcs, gs: Funcs, a: Expr, b: Expr, env: Env, v: World, w: World, slack: nat)
    requires TableAlike(fs, gs) && CondAlike(a, b) && Keeps(v, w, slack) && a.Tern? && b.Bin?
    requires Eval(fs, a, env, v).res != Raised(OutOfFuel)
    ensures SameTruth(Eval(fs, a, env, v).res, Eval(gs, b, env, w).res)
    ensures Keeps(Eval(fs, a, env, v).world, Eval(gs, b, env, w).world, slack)
    decreases v.fuel, 1
  {
    if b.op.And? { TernAsAnd(fs, gs, a, b, env, v, w, slack); } else { TernAsOr(fs, gs, a, b, env, v, w, slack); }
  }

  lemma {:induction false} TernAsAnd(
    fs: Funcs, gs: Funcs, a: Expr, b: Expr, env: Env, v: World, w: World, slack: nat)
    requires TableAlike(fs, gs) && CondAlike(a, b) && Keeps(v, w, slack) && a.Tern? && b.Bin? && b.op.And?
    requires Eval(fs, a, env, v).res != Raised(OutOfFuel)
    ensures SameTruth(Eval(fs, a, env, v).res, Eval(gs, b, env, w).res)
    ensures Keeps(Eval(fs, a, env, v).world, Eval(gs, b, env, w).world, slack)
    decreases v.fuel, 0
  {
    var v1, w1, more := Burn(v), Burn(w), slack + 2;
    CondEvalAlike(fs, gs, a.cond, b.lhs, env, v1, w1, more);
    var c, d := Eval(fs, a.cond, env, v1), Eval(gs, b.lhs, env, w1);
    if c.res.Val? && Truthy(c.res.value) {
      CondEvalAlike(fs, gs, a.thn, b.rhs, env, c.world, d.world, more);
    }
  }

  lemma {:induction false} TernAsOr(
    fs: Funcs, gs: Funcs, a: Expr, b: Expr, env: Env, v: World, w: World, slack: nat)
    requires TableAlike(fs, gs) && CondAlike(a, b) && Keeps(v, w, slack) && a.Tern? && b.Bin? && b.op.Or?
    requires Eval(fs, a, env, v).res != Raised(OutOfFuel)
    ensures SameTruth(Eval(fs, a, env, v).res, Eval(gs, b, env, w).res)
    ensures Keeps(Eval(fs, a, env, v).world, Eval(gs, b, env, w).world, slack)
    decreases v.fuel, 0
  {
    var v1, w1, more := Burn(v), Burn(w), slack + 2;
    CondEvalAlike(fs, gs, a.cond, b.lhs, env, v1, w1, more);
    var c, d := Eval(fs, a.cond, env, v1), Eval(gs, b.lhs, env, w1);
    if c.res.Val? && !Truthy(c.res.value) {
      CondEvalAlike(fs, gs, a.els, b.rhs, env, c.world, d.world, more);
    }
  }

  lemma {:induction false} LogicAsTern(
    fs: Funcs, gs: Funcs, a: Expr, b: Expr, env: Env, v: World, w: World, slack: nat)
    requires TableAlike(fs, gs) && CondAlike(a, b) && Keeps(v, w, slack) && a.Bin? && b.Tern?
    requires Eval(fs, a, env, v).res != Raised(OutOfFuel)
    ensures SameTruth(Eval(fs, a, env, v).res, Eval(gs, b, env, w).res)
    ensures Keeps(Eval(fs, a, env, v).world, Eval(gs, b, env, w).world, slack)
    decreases v.fuel, 1
  {
    if a.op.And? { AndAsTern(fs, gs, a, b, env, v, w, slack); } else { OrAsTern(fs, gs, a, b, env, v, w, slack); }
  }

  lemma {:induction false} AndAsTern(
    fs: Funcs, gs: Funcs, a: Expr, b: Expr, env: Env, v: World, w: World, slack: nat)
    requires TableAlike(fs, gs) && CondAlike(a, b) && Keeps(v, w, slack) && a.Bin? && b.Tern? && a.op.And?
    requires Eval(fs, a, env, v).res != Raised(OutOfFuel)
    ensures SameTruth(Eval(fs, a, env, v).res, Eval(gs, b, env, w).res)
    ensures Keeps(Eval(fs, a, env, v).world, Eval(gs, b, env, w).world, slack)
    decreases v.fuel, 0
  {
    var v1, w1, more := Burn(v), Burn(w), slack + 2;
    CondEvalAlike(fs, gs, a.lhs, b.cond, env, v1, w1, more);
    var c, d := Eval(fs, a.lhs, env, v1), Eval(gs, b.cond, env, w1);
    if c.res.Val? && Truthy(c.res.value) {
      CondEvalAlike(fs, gs, a.rhs, b.thn, env, c.world, d.world, more);
    }
  }

  lemma {:induction false} OrAsTern(
    fs: Funcs, gs: Funcs, a: Expr, b: Expr, env: Env, v: World, w: World, slack: nat)
    requires TableAlike(fs, gs) && CondAlike(a, b) && Keeps(v, w, slack) && a.Bin? && b.Tern? && a.op.Or?
    requires Eval(fs, a, env, v).res != Raised(OutOfFuel)
    ensures SameTruth(Eval(fs, a, env, v).res, Eval(gs, b, env, w).res)
    ensures Keeps(Eval(fs, a, env, v).world, Eval(gs, b, env, w).world, slack)
    decreases v.fuel, 0
  {
    var v1, w1, more := Burn(v), Burn(w), slack + 2;
    CondEvalAlike(fs, gs, a.lhs, b.cond, env, v1, w1, more);
    var c, d := Eval(fs, a.lhs, env, v1), Eval(gs, b.cond, env, w1);
    if c.res.Val? && !Truthy(c.res.value) {
      CondEvalAlike(fs, gs, a.rhs, b.els, env, c.world, d.world, more);
    }
  }

  lemma {:induction false} ArgsAlike(
    fs: Funcs, gs: Funcs, xs: seq<Expr>, ys: seq<Expr>, env: Env, v: World, w: World, slack: nat)
    requires TableAlike(fs, gs) && AllAlike(xs, ys) && Keeps(v, w, slack)
    requires EvalArgs(fs, xs, env, v).flow != Raise(OutOfFuel)
    ensures EvalArgs(gs, ys, env, w).flow == EvalArgs(fs, xs, env, v).flow
    ensures EvalArgs(gs, ys, env, w).vals == EvalArgs(fs, xs, env, v).vals
    ensures Keeps(EvalArgs(fs, xs, env, v).world, EvalArgs(gs, ys, env, w).world, slack)
    decreases v.fuel, 3
  {
    if xs != [] {
      EvalAlike(fs, gs, xs[0], ys[0], env, v, w, slack);
      var c, d := Eval(fs, xs[0], env, v), Eval(gs, ys[0], env, w);
      if c.res.Val? { ArgsAlike(fs, gs, xs[1..], ys[1..], env, c.world, d.world, slack); }
    }
  }

  lemma {:induction false} InvokeAlike(
    fs: Funcs, gs: Funcs, name: string, vals: seq<Value>, v: World, w: World, slack: nat)
    requires TableAlike(fs, gs) && Keeps(v, w, slack)
    requires Invoke(fs, name, vals, v).res != Raised(OutOfFuel)
    ensures Invoke(gs, name, vals, w).res == Invoke(fs, name, vals, v).res
    ensures Keeps(Invoke(fs, name, vals, v).world, Invoke(gs, name, vals, w).world, slack)
    decreases v.fuel, 3
  {
    if name in fs && |vals| == |fs[name].params| {
      ExecBlockAlike(fs, gs, fs[name].body, gs[name].body, Bind(fs[name].params, vals), v, w, slack);
    }
  }

  ghost predicate SameOut(a: ExecOut, b: ExecOut, slack: int) {
    a.flow == b.flow && a.env == b.env && Keeps(a.world, b.world, slack)
  }

  lemma {:induction false} ExecBlockAlike(
    fs: Funcs, gs: Funcs, xs: seq<Stmt>, ys: seq<Stmt>, env: Env, v: World, w: World, slack: nat)
    requires TableAlike(fs, gs) && BlockAlike(xs, ys) && Keeps(v, w, slack)
    requires ExecBlock(fs, xs, env, v).flow != Raise(OutOfFuel)
    ensures SameOut(ExecBlock(fs, xs, env, v), ExecBlock(gs, ys, env, w), slack)
    decreases v.fuel, 2
  {
    if xs != [] {
      ExecAlike(fs, gs, xs[0], ys[0], env, v, w, slack);
      var c, d := Exec(fs, xs[0], env, v), Exec(gs, ys[0], env, w);
      if c.flow.Next? { ExecBlockAlike(fs, gs, xs[1..], ys[1..], c.env, c.world, d.world, slack); }
    }
  }

  lemma {:induction false} ExecAlike(
    fs: Funcs, gs: Funcs, a: Stmt, b: Stmt, env: Env, v: World, w: World, slack: nat)
    requires TableAlike(fs, gs) && StmtAlike(a, b) && Keeps(v, w, slack)
    requires Exec(fs, a, env, v).flow != Raise(OutOfFuel)
    ensures SameOut(Exec(fs, a, env, v), Exec(gs, b, env, w), slack)
    decreases v.fuel, 1
  {
    var v1, w1, more := Burn(v), Burn(w), slack + 2;
    match a
    case Decl(_, _) => DeclAlike(fs, gs, a, b, env, v, w, slack);
    case Asn(_, _) => AsnAlike(fs, gs, a, b, env, v, w, slack);
    case Return(expr) => EvalAlike(fs, gs, expr, b.expr, env, v1, w1, more);
    case If(_, _) => IfAlike(fs, gs, a, b, env, v, w, slack);
    case IfElse(_, _, _) => IfElseAlike(fs, gs, a, b, env, v, w, slack);
    case For(name, start, cond, body) =>
      IterateAlike(fs, gs, Loop(cond, body, StepVar(name)), Loop(b.cond, b.body, StepVar(name)),
                   env[name := IntV(start)], v1, w1, more);
    case While(cond, body) =>
      IterateAlike(fs, gs, Loop(cond, body, NoStep), Loop(b.cond, b.body, NoStep), env, v1, w1, more);
    case DoWhile(body, cond) =>
      RoundAlike(fs, gs, Loop(cond, body, NoStep), Loop(b.cond, b.body, NoStep), env, v1, w1, more);
    case Break =>
    case Continue =>
  }

  lemma {:induction false} DeclAlike(
    fs: Funcs, gs: Funcs, a: Stmt, b: Stmt, env: Env, v: World, w: World, slack: nat)
    requires TableAlike(fs, gs) && StmtAlike(a, b) && Keeps(v, w, slack) && a.Decl?
    requires Exec(fs, a, env, v).flow != Raise(OutOfFuel)
    ensures SameOut(Exec(fs, a, env, v), Exec(gs, b, env, w), slack)
    decreases v.fuel, 0
  {
    EvalAlike(fs, gs, a.expr, b.expr, env, Burn(v), Burn(w), slack + 2);
  }

  lemma {:induction false} AsnAlike(
    fs: Funcs, gs: Funcs, a: Stmt, b: Stmt, env: Env, v: World, w: World, slack: nat)
    requires TableAlike(fs, gs) && StmtAlike(a, b) && Keeps(v, w, slack) && a.Asn?
    requires Exec(fs, a, env, v).flow != Raise(OutOfFuel)
    ensures SameOut(Exec(fs, a, env, v), Exec(gs, b, env, w), slack)
    decreases v.fuel, 0
  {
    EvalAlike(fs, gs, a.expr, b.expr, env, Burn(v), Burn(w), slack + 2);
    var c, d := Eval(fs, a.expr, env, Burn(v)), Eval(gs, b.expr, env, Burn(w));
    if c.res.Val? { AssignAlike(a.name, c.res.value, env, c.world, d.world, slack); }
  }

  lemma {:induction false} AssignAlike(name: string, value: Value, env: Env, v: World, w: World, slack: nat)
    requires Keeps(v, w, slack)
    ensures SameOut(Assign(name, value, env, v), Assign(name, value, env, w), slack)
  {
  }

  lemma {:induction false} IfAlike(
    fs: Funcs, gs: Funcs, a: Stmt, b: Stmt, env: Env, v: World, w: World, slack: nat)
    requires TableAlike(fs, gs) && StmtAlike(a, b) && Keeps(v, w, slack) && a.If?
    requires Exec(fs, a, env, v).flow != Raise(OutOfFuel)
    ensures SameOut(Exec(fs, a, env, v), Exec(gs, b, env, w), slack)
    decreases v.fuel, 0
  {
    var v1, w1, more := Burn(v), Burn(w), slack + 2;
    CondEvalAlike(fs, gs, a.cond, b.cond, env, v1, w1, more);
    var c, d := Eval(fs, a.cond, env, v1), Eval(gs, b.cond, env, w1);
    if c.res.Val? && Truthy(c.res.value) { ExecBlockAlike(fs, gs, a.thn, b.thn, env, c.world, d.world, more); }
  }

  lemma {:induction false} IfElseAlike(
    fs: Funcs, gs: Funcs, a: Stmt, b: Stmt, env: Env, v: World, w: World, slack: nat)
    requires TableAlike(fs, gs) && StmtAlike(a, b) && Keeps(v, w, slack) && a.IfElse?
    requires Exec(fs, a, env, v).flow != Raise(OutOfFuel)
    ensures SameOut(Exec(fs, a, env, v), Exec(gs, b, env, w), slack)
    decreases v.fuel, 0
  {
    var v1, w1, more := Burn(v), Burn(w), slack + 2;
    CondEvalAlike(fs, gs, a.cond, b.cond, env, v1, w1, more);
    var c, d := Eval(fs, a.cond, env, v1), Eval(gs, b.cond, env, w1);
    if c.res.Val? {
      if Truthy(c.res.value) { ExecBlockAlike(fs, gs, a.thn, b.thn, env, c.world, d.world, more); }
      else { ExecBlockAlike(fs, gs, a.els, b.els, env, c.world, d.world, more); }
    }
  }

  lemma {:induction false} IterateAlike(
    fs: Funcs, gs: Funcs, a: Loop, b: Loop, env: Env, v: World, w: World, slack: nat)
    requires TableAlike(fs, gs) && LoopAlike(a, b) && Keeps(v, w, slack)
    requires Iterate(fs, a, env, v).flow != Raise(OutOfFuel)
    ensures SameOut(Iterate(fs, a, env, v), Iterate(gs, b, env, w), slack)
    decreases v.fuel, 3
  {
    CondEvalAlike(fs, gs, a.cond, b.cond, env, v, w, slack);
    var c, d := Eval(fs, a.cond, env, v), Eval(gs, b.cond, env, w);
    if c.res.Val? && Truthy(c.res.value) { RoundAlike(fs, gs, a, b, env, c.world, d.world, slack); }
  }

  lemma {:induction false} RoundAlike(
    fs: Funcs, gs: Funcs, a: Loop, b: Loop, env: Env, v: World, w: World, slack: nat)
    requires TableAlike(fs, gs) && LoopAlike(a, b) && Keeps(v, w, slack)
    requires Round(fs, a, env, v).flow != Raise(OutOfFuel)
    ensures SameOut(Round(fs, a, env, v), Round(gs, b, env, w), slack)
    decreases v.fuel, 5
  {
    ExecBlockAlike(fs, gs, a.body, b.body, env, Burn(v), Burn(w), slack + 2);
    AfterBodyAlike(fs, gs, a, b, ExecBlock(fs, a.body, env, Burn(v)), ExecBlock(gs, b.body, env, Burn(w)), slack);
  }

  lemma {:induction false} AfterBodyAlike(
    fs: Funcs, gs: Funcs, a: Loop, b: Loop, c: ExecOut, d: ExecOut, slack: nat)
    requires TableAlike(fs, gs) && LoopAlike(a, b) && SameOut(c, d, slack)
    requires AfterBody(fs, a, c).flow != Raise(OutOfFuel)
    ensures SameOut(AfterBody(fs, a, c), AfterBody(gs, b, d), slack)
    decreases c.world.fuel, 4
  {
    if GoesOn(c.flow) {
      var s, t := Step(a.header, c.env, c.world), Step(b.header, d.env, d.world);
      if s.flow.Next? { IterateAlike(fs, gs, a, b, s.env, s.world, t.world, slack); }
    }
  }

  // ----- the rewrite gives an alike program, and alikeness is symmetric -----

  lemma {:induction false} RewriteIsAlike(e: Expr)
    ensures Alike(e, Rewrite(e)) && CondAlike(e, RewriteCond(e))
  {
    match e
    case Var(_) =>
    case Lit(_) =>
    case Call(_, args) => RewriteAllIsAlike(args);
    case Tern(cond, thn, els) => RewriteIsAlike(cond); RewriteIsAlike(thn); RewriteIsAlike(els);
    case Bin(_, lhs, rhs) => RewriteIsAlike(lhs); RewriteIsAlike(rhs);
  }

  lemma {:induction false} RewriteAllIsAlike(es: seq<Expr>)
    ensures AllAlike(es, RewriteAll(es))
  {
    if es != [] {
      RewriteIsAlike(es[0]);
      RewriteAllIsAlike(es[1..]);
    }
  }

  lemma {:induction false} RewriteStmtIsAlike(s: Stmt)
    ensures StmtAlike(s, RewriteStmt(s))
  {
    match s
    case Decl(_, expr) => RewriteIsAlike(expr);
    case Asn(_, expr) => RewriteIsAlike(expr);
    case Return(expr) => RewriteIsAlike(expr);
    case If(cond, thn) => RewriteIsAlike(cond); RewriteBlockIsAlike(thn);
    case IfElse(cond, thn, els) =>
      RewriteIsAlike(cond); RewriteBlockIsAlike(thn); RewriteBlockIsAlike(els);
    case For(_, _, cond, body) => RewriteIsAlike(cond); RewriteBlockIsAlike(body);
    case While(cond, body) => RewriteIsAlike(cond); RewriteBlockIsAlike(body);
    case DoWhile(body, cond) => RewriteIsAlike(cond); RewriteBlockIsAlike(body);
    case Break =>
    case Continue =>
  }

  lemma {:induction false} RewriteBlockIsAlike(stmts: seq<Stmt>)
    ensures BlockAlike(stmts, RewriteBlock(stmts))
  {
    if stmts != [] {
      RewriteStmtIsAlike(stmts[0]);
      RewriteBlockIsAlike(stmts[1..]);
    }
  }

  lemma {:induction false} RewriteTableIsAlike(fs: Funcs)
    ensures TableAlike(fs, RewriteTable(fs)) && TableAlike(RewriteTable(fs), fs)
  {
    forall name | name in fs { RewriteBlockIsAlike(fs[name].body); }
    TableAlikeSymmetric(fs, RewriteTable(fs));
  }

  lemma {:induction false} AlikeSymmetric(a: Expr, b: Expr)
    ensures Alike(a, b) ==> Alike(b, a)
    ensures CondAlike(a, b) ==> CondAlike(b, a)
  {
    match a
    case Var(_) =>
    case Lit(_) =>
    case Call(_, args) => if b.Call? { AllAlikeSymmetric(args, b.args); }
    case Tern(cond, thn, els) =>
      if b.Tern? {
        AlikeSymmetric(cond, b.cond); AlikeSymmetric(thn, b.thn); AlikeSymmetric(els, b.els);
      } else if b.Bin? {
        AlikeSymmetric(cond, b.lhs); AlikeSymmetric(thn, b.rhs); AlikeSymmetric(els, b.rhs);
      }
    case Bin(_, lhs, rhs) =>
      if b.Bin? {
        AlikeSymmetric(lhs, b.lhs); AlikeSymmetric(rhs, b.rhs);
      } else if b.Tern? {
        AlikeSymmetric(lhs, b.cond); AlikeSymmetric(rhs, b.thn); AlikeSymmetric(rhs, b.els);
      }
  }

  lemma {:induction false} AllAlikeSymmetric(xs: seq<Expr>, ys: seq<Expr>)
    ensures AllAlike(xs, ys) ==> AllAlike(ys, xs)
  {
    if |xs| == |ys| && xs != [] {
      AlikeSymmetric(xs[0], ys[0]);
      AllAlikeSymmetric(xs[1..], ys[1..]);
    }
  }

  lemma {:induction false} StmtAlikeSymmetric(a: Stmt, b: Stmt)
    requires StmtAlike(a, b)
    ensures StmtAlike(b, a)
  {
    match a
    case Decl(_, expr) => AlikeSymmetric(expr, b.expr);
    case Asn(_, expr) => AlikeSymmetric(expr, b.expr);
    case Return(expr) => AlikeSymmetric(expr, b.expr);
    case If(cond, thn) => AlikeSymmetric(cond, b.cond); BlockAlikeSymmetric(thn, b.thn);
    case IfElse(cond, thn, els) =>
      AlikeSymmetric(cond, b.cond); BlockAlikeSymmetric(thn, b.thn); BlockAlikeSymmetric(els, b.els);
    case For(_, _, cond, body) => AlikeSymmetric(cond, b.cond); BlockAlikeSymmetric(body, b.body);
    case While(cond, body) => AlikeSymmetric(cond, b.cond); BlockAlikeSymmetric(body, b.body);
    case DoWhile(body, cond) => AlikeSymmetric(cond, b.cond); BlockAlikeSymmetric(body, b.body);
    case Break =>
    case Continue =>
  }

  lemma {:induction false} BlockAlikeSymmetric(xs: seq<Stmt>, ys: seq<Stmt>)
    requires BlockAlike(xs, ys)
    ensures BlockAlike(ys, xs)
  {
    if xs != [] {
      StmtAlikeSymmetric(xs[0], ys[0]);
      BlockAlikeSymmetric(xs[1..], ys[1..]);
    }
  }

  lemma {:induction false} TableAlikeSymmetric(fs: Funcs, gs: Funcs)
    requires TableAlike(fs, gs)
    ensures TableAlike(gs, fs)
  {
    forall name | name in gs { BlockAlikeSymmetric(fs[name].body, gs[name].body); }
  }

  // ----- the theorems -----

  /** With some amount of fuel, the call ends in `res` and leaves `globals'`. */
  ghost predicate CallEndsIn(
    fs: Funcs, name: string, vals: seq<Value>, globals: Env, res: EvalResult, globals': Env) {
    && res != Raised(OutOfFuel)
    && exists fuel: nat ::
         var r := Invoke(fs, name, vals, World(globals, fuel));
         r.res == res && r.world.globals == globals'
  }

  /** The rewritten program on three times the fuel does what the original did, and the other way round. */
  lemma {:induction false} RewritePreservesCalls(fs: Funcs, name: string, vals: seq<Value>, w: World, g: nat)
    requires g >= 3 * w.fuel
    ensures var r := Invoke(fs, name, vals, w);
            var s := Invoke(RewriteTable(fs), name, vals, World(w.globals, g));
            r.res != Raised(OutOfFuel) ==> s.res == r.res && s.world.globals == r.world.globals
    ensures var r := Invoke(RewriteTable(fs), name, vals, w);
            var s := Invoke(fs, name, vals, World(w.globals, g));
            r.res != Raised(OutOfFuel) ==> s.res == r.res && s.world.globals == r.world.globals
  {
    RewriteTableIsAlike(fs);
    if Invoke(fs, name, vals, w).res != Raised(OutOfFuel) {
      InvokeAlike(fs, RewriteTable(fs), name, vals, w, World(w.globals, g), 0);
    }
    if Invoke(RewriteTable(fs), name, vals, w).res != Raised(OutOfFuel) {
      InvokeAlike(RewriteTable(fs), fs, name, vals, w, World(w.globals, g), 0);
    }
  }

  lemma {:induction false} ShortCircuitIsTernary(
    fs: Funcs, name: string, vals: seq<Value>, globals: Env, res: EvalResult, globals': Env)
    ensures CallEndsIn(fs, name, vals, globals, res, globals') <==>
            CallEndsIn(RewriteTable(fs), name, vals, globals, res, globals')
  {
    if CallEndsIn(fs, name, vals, globals, res, globals') {
      var fuel: nat :| var r := Invoke(fs, name, vals, World(globals, fuel));
                       r.res == res && r.world.globals == globals';
      RewritePreservesCalls(fs, name, vals, World(globals, fuel), 3 * fuel);
    }
    if CallEndsIn(RewriteTable(fs), name, vals, globals, res, globals') {
      var fuel: nat :| var r := Invoke(RewriteTable(fs), name, vals, World(globals, fuel));
                       r.res == res && r.world.globals == globals';
      RewritePreservesCalls(fs, name, vals, World(globals, fuel), 3 * fuel);
    }
  }

  /** The same for the variables of a block. */
  lemma {:induction false} RewritePreservesBlocks(fs: Funcs, stmts: seq<Stmt>, env: Env, w: World, g: nat)
    requires g >= 3 * w.fuel
    ensures var r := ExecBlock(fs, stmts, env, w);
            var s := ExecBlock(RewriteTable(fs), RewriteBlock(stmts), env, World(w.globals, g));
            r.flow != Raise(OutOfFuel) ==>
              s.flow == r.flow && s.env == r.env && s.world.globals == r.world.globals
    ensures var r := ExecBlock(RewriteTable(fs), RewriteBlock(stmts), env, w);
            var s := ExecBlock(fs, stmts, env, World(w.globals, g));
            r.flow != Raise(OutOfFuel) ==>
              s.flow == r.flow && s.env == r.env && s.world.globals == r.world.globals
  {
    RewriteTableIsAlike(fs);
    RewriteBlockIsAlike(stmts);
    BlockAlikeSymmetric(stmts, RewriteBlock(stmts));
    if ExecBlock(fs, stmts, env, w).flow != Raise(OutOfFuel) {
      ExecBlockAlike(fs, RewriteTable(fs), stmts, RewriteBlock(stmts), env, w, World(w.globals, g), 0);
    }
    if ExecBlock(RewriteTable(fs), RewriteBlock(stmts), env, w).flow != Raise(OutOfFuel) {
      ExecBlockAlike(RewriteTable(fs), fs, RewriteBlock(stmts), stmts, env, w, World(w.globals, g), 0);
    }
  }

  // ----- nothing to short-circuit is left in a condition -----

  /** In value position `&&` and `||` may stand, their operands are conditions. */
  predicate OnlyTernaries(e: Expr) {
    match e
    case Var(_) => true
    case Lit(_) => true
    case Call(_, args) => forall a <- args :: OnlyTernaries(a)
    case Tern(cond, thn, els) => OnlyTernariesCond(cond) && OnlyTernaries(thn) && OnlyTernaries(els)
    case Bin(op, lhs, rhs) =>
      if op.And? || op.Or? then OnlyTernariesCond(lhs) && OnlyTernariesCond(rhs)
      else OnlyTernaries(lhs) && OnlyTernaries(rhs)
  }

  /** In condition position neither stands. */
  predicate OnlyTernariesCond(e: Expr) {
    match e
    case Var(_) => true
    case Lit(_) => true
    case Call(_, args) => forall a <- args :: OnlyTernaries(a)
    case Tern(cond, thn, els) => OnlyTernariesCond(cond) && OnlyTernariesCond(thn) && OnlyTernariesCond(els)
    case Bin(op, lhs, rhs) => !op.And? && !op.Or? && OnlyTernaries(lhs) && OnlyTernaries(rhs)
  }

  predicate StmtOnlyTernaries(s: Stmt) {
    match s
    case Decl(_, expr) => OnlyTernaries(expr)
    case Asn(_, expr) => OnlyTernaries(expr)
    case If(cond, thn) => OnlyTernariesCond(cond) && forall t <- thn :: StmtOnlyTernaries(t)
    case IfElse(cond, thn, els) =>
      && OnlyTernariesCond(cond)
      && (forall t <- thn :: StmtOnlyTernaries(t)) && (forall t <- els :: StmtOnlyTernaries(t))
    case For(_, _, cond, body) => OnlyTernariesCond(cond) && forall t <- body :: StmtOnlyTernaries(t)
    case While(cond, body) => OnlyTernariesCond(cond) && forall t <- body :: StmtOnlyTernaries(t)
    case DoWhile(body, cond) => OnlyTernariesCond(cond) && forall t <- body :: StmtOnlyTernaries(t)
    case Break => true
    case Continue => true
    case Return(expr) => OnlyTernaries(expr)
  }

  lemma {:induction false} RewriteLeavesTernaries(e: Expr)
    ensures OnlyTernaries(Rewrite(e)) && OnlyTernariesCond(RewriteCond(e))
    decreases e
  {
    match e
    case Var(_) =>
    case Lit(_) =>
    case Call(_, args) => RewriteAllLeaves(args);
    case Tern(cond, thn, els) =>
      RewriteLeavesTernaries(cond);
      RewriteLeavesTernaries(thn);
      RewriteLeavesTernaries(els);
    case Bin(_, lhs, rhs) =>
      RewriteLeavesTernaries(lhs);
      RewriteLeavesTernaries(rhs);
  }

  lemma {:induction false} RewriteAllLeaves(es: seq<Expr>)
    ensures forall e <- RewriteAll(es) :: OnlyTernaries(e)
    decreases es
  {
    if es != [] {
      RewriteLeavesTernaries(es[0]);
      RewriteAllLeaves(es[1..]);
    }
  }

  lemma {:induction false} RewriteStmtLeaves(s: Stmt)
    ensures StmtOnlyTernaries(RewriteStmt(s))
    decreases s
  {
    match s
    case Decl(_, expr) => RewriteLeavesTernaries(expr);
    case Asn(_, expr) => RewriteLeavesTernaries(expr);
    case If(cond, thn) => RewriteLeavesTernaries(cond); RewriteBlockLeaves(thn);
    case IfElse(cond, thn, els) => RewriteLeavesTernaries(cond); RewriteBlockLeaves(thn); RewriteBlockLeaves(els);
    case For(_, _, cond, body) => RewriteLeavesTernaries(cond); RewriteBlockLeaves(body);
    case While(cond, body) => RewriteLeavesTernaries(cond); RewriteBlockLeaves(body);
    case DoWhile(body, cond) => RewriteLeavesTernaries(cond); RewriteBlockLeaves(body);
    case Break =>
    case Continue =>
    case Return(expr) => RewriteLeavesTernaries(expr);
  }

  /** Every block is left without a short-circuit operator in condition position. */
  lemma {:induction false} RewriteBlockLeaves(stmts: seq<Stmt>)
    ensures forall s <- RewriteBlock(stmts) :: StmtOnlyTernaries(s)
    decreases stmts
  {
    if stmts != [] {
      RewriteStmtLeaves(stmts[0]);
      RewriteBlockLeaves(stmts[1..]);
    }
  }
}
