/** The path of a run: the outcome of every `if` and loop test and every call entered with its arguments,
    through all calls, in order. Writing short-circuit operators as ternaries leaves the path of every
    program as it was: the same branches are taken, and the same calls made, in the same order. */
module TortureBranches {
  import opened TortureAst
  import opened TortureSemantics
  import opened TortureShortCircuit

  datatype Turn = Took(outcome: bool) | Entered(name: string, vals: seq<Value>)

  // ----- the path of a run -----

  ghost function EvalPath(fs: Funcs, e: Expr, env: Env, w0: World): seq<Turn>
    decreases w0.fuel, 0
  {
    if Spent(w0) then [] else
    var w := Burn(w0);
    match e
    case Var(_) => []
    case Lit(_) => []
    case Call(name, args) =>
      var a := EvalArgs(fs, args, env, w);
      ArgsPath(fs, args, env, w) + if a.flow.Raise? then [] else CallPath(fs, name, a.vals, a.world)
    case Tern(cond, thn, els) =>
      var c := Eval(fs, cond, env, w);
      EvalPath(fs, cond, env, w) +
      if c.res.Raised? then [] else EvalPath(fs, if Truthy(c.res.value) then thn else els, env, c.world)
    case Bin(op, lhs, rhs) =>
      var a := Eval(fs, lhs, env, w);
      EvalPath(fs, lhs, env, w) + if Stops(op, a.res) then [] else EvalPath(fs, rhs, env, a.world)
  }

  /** The right operand is not reached. */
  predicate Stops(op: BinOp, lhs: EvalResult) {
    lhs.Raised? || (op.And? && !Truthy(lhs.value)) || (op.Or? && Truthy(lhs.value))
  }

  ghost function ArgsPath(fs: Funcs, args: seq<Expr>, env: Env, w: World): seq<Turn>
    decreases w.fuel, 1
  {
    if args == [] then [] else
    var a := Eval(fs, args[0], env, w);
    EvalPath(fs, args[0], env, w) + if a.res.Raised? then [] else ArgsPath(fs, args[1..], env, a.world)
  }

  ghost function CallPath(fs: Funcs, name: string, vals: seq<Value>, w: World): seq<Turn>
    decreases w.fuel, 2
  {
    if name !in fs || |vals| != |fs[name].params| then []
    else [Entered(name, vals)] + BlockPath(fs, fs[name].body, Bind(fs[name].params, vals), w)
  }

  ghost function BlockPath(fs: Funcs, stmts: seq<Stmt>, env: Env, w: World): seq<Turn>
    decreases w.fuel, 1
  {
    if stmts == [] then [] else
    var s := Exec(fs, stmts[0], env, w);
    StmtPath(fs, stmts[0], env, w) + if s.flow.Raise? then [] else BlockPath(fs, stmts[1..], s.env, s.world)
  }

  ghost function StmtPath(fs: Funcs, s: Stmt, env: Env, w0: World): seq<Turn>
    decreases w0.fuel, 0
  {
    if Spent(w0) then [] else
    var w := Burn(w0);
    match s
    case Decl(_, expr) => EvalPath(fs, expr, env, w)
    case Asn(_, expr) => EvalPath(fs, expr, env, w)
    case Return(expr) => EvalPath(fs, expr, env, w)
    case If(cond, thn) => BranchPath(fs, cond, thn, [], env, w)
    case IfElse(cond, thn, els) => BranchPath(fs, cond, thn, els, env, w)
    case For(name, start, cond, body) =>
      LoopPath(fs, Loop(cond, body, StepVar(name)), env[name := IntV(start)], w)
    case While(cond, body) => LoopPath(fs, Loop(cond, body, NoStep), env, w)
    case DoWhile(body, cond) => RoundPath(fs, Loop(cond, body, NoStep), env, w)
    case Break => []
    case Continue => []
  }

  ghost function BranchPath(fs: Funcs, cond: Expr, thn: seq<Stmt>, els: seq<Stmt>, env: Env, w: World): seq<Turn>
    decreases w.fuel, 3
  {
    EvalPath(fs, cond, env, w) + ArmPath(fs, Eval(fs, cond, env, w), thn, els, env)
  }

  /** The path after a test that came out as `c`. */
  ghost function ArmPath(fs: Funcs, c: EvalOut, thn: seq<Stmt>, els: seq<Stmt>, env: Env): seq<Turn>
    decreases c.world.fuel, 2
  {
    if c.res.Raised? then []
    else [Took(Truthy(c.res.value))] + BlockPath(fs, if Truthy(c.res.value) then thn else els, env, c.world)
  }

  ghost function LoopPath(fs: Funcs, l: Loop, env: Env, w: World): seq<Turn>
    decreases w.fuel, 2
  {
    var c := Eval(fs, l.cond, env, w);
    EvalPath(fs, l.cond, env, w) +
    if c.res.Raised? then []
    else [Took(Truthy(c.res.value))] + if Truthy(c.res.value) then RoundPath(fs, l, env, c.world) else []
  }

  ghost function RoundPath(fs: Funcs, l: Loop, env: Env, w: World): seq<Turn>
    decreases w.fuel, 4
  {
    if Spent(w) then []
    else BlockPath(fs, l.body, env, Burn(w)) + AfterBodyPath(fs, l, ExecBlock(fs, l.body, env, Burn(w)))
  }

  ghost function AfterBodyPath(fs: Funcs, l: Loop, b: ExecOut): seq<Turn>
    decreases b.world.fuel, 3
  {
    var s := Step(l.header, b.env, b.world);
    if GoesOn(b.flow) && s.flow.Next? then LoopPath(fs, l, s.env, s.world) else []
  }

  // ----- alike expressions have the same path -----

  lemma {:induction false} EvalPathAlike(
    fs: Funcs, gs: Funcs, a: Expr, b: Expr, env: Env, v: World, w: World, slack: nat)
    requires TableAlike(fs, gs) && Alike(a, b) && Keeps(v, w, slack)
    requires Eval(fs, a, env, v).res != Raised(OutOfFuel)
    ensures EvalPath(gs, b, env, w) == EvalPath(fs, a, env, v)
    decreases v.fuel, 1
  {
    var v1, w1, more := Burn(v), Burn(w), slack + 2;
    match a
    case Var(_) =>
    case Lit(_) =>
    case Call(name, args) =>
      ArgsAlike(fs, gs, args, b.args, env, v1, w1, more);
      ArgsPathAlike(fs, gs, args, b.args, env, v1, w1, more);
      var r := EvalArgs(fs, args, env, v1);
      if r.flow.Next? {
        CallPathAlike(fs, gs, name, r.vals, r.world, EvalArgs(gs, b.args, env, w1).world, more);
      }
    case Tern(_, _, _) => TernPathAlike(fs, gs, a, b, env, v, w, slack);
    case Bin(op, _, _) =>
      if op.And? || op.Or? { LogicPathAlike(fs, gs, a, b, env, v, w, slack); }
      else { ArithPathAlike(fs, gs, a, b, env, v, w, slack); }
  }

  lemma {:induction false} TernPathAlike(
    fs: Funcs, gs: Funcs, a: Expr, b: Expr, env: Env, v: World, w: World, slack: nat)
    requires TableAlike(fs, gs) && Keeps(v, w, slack) && a.Tern? && b.Tern? && CondAlike(a.cond, b.cond)
    requires (Alike(a.thn, b.thn) || CondAlike(a.thn, b.thn)) && (Alike(a.els, b.els) || CondAlike(a.els, b.els))
    requires Eval(fs, a, env, v).res != Raised(OutOfFuel)
    ensures EvalPath(gs, b, env, w) == EvalPath(fs, a, env, v)
    decreases v.fuel, 0
  {
    var v1, w1, more := Burn(v), Burn(w), slack + 2;
    CondEvalAlike(fs, gs, a.cond, b.cond, env, v1, w1, more);
    CondPathAlike(fs, gs, a.cond, b.cond, env, v1, w1, more);
    var c, d := Eval(fs, a.cond, env, v1), Eval(gs, b.cond, env, w1);
    if c.res.Val? {
      var x, y := if Truthy(c.res.value) then a.thn else a.els, if Truthy(c.res.value) then b.thn else b.els;
      if Alike(x, y) { EvalPathAlike(fs, gs, x, y, env, c.world, d.world, more); }
      else { CondPathAlike(fs, gs, x, y, env, c.world, d.world, more); }
    }
  }

  lemma {:induction false} ArithPathAlike(
    fs: Funcs, gs: Funcs, a: Expr, b: Expr, env: Env, v: World, w: World, slack: nat)
    requires TableAlike(fs, gs) && Keeps(v, w, slack)
    requires a.Bin? && b.Bin? && a.op == b.op && !a.op.And? && !a.op.Or?
    requires Alike(a.lhs, b.lhs) && Alike(a.rhs, b.rhs)
    requires Eval(fs, a, env, v).res != Raised(OutOfFuel)
    ensures EvalPath(gs, b, env, w) == EvalPath(fs, a, env, v)
    decreases v.fuel, 0
  {
    var v1, w1, more := Burn(v), Burn(w), slack + 2;
    EvalAlike(fs, gs, a.lhs, b.lhs, env, v1, w1, more);
    EvalPathAlike(fs, gs, a.lhs, b.lhs, env, v1, w1, more);
    var c, d := Eval(fs, a.lhs, env, v1), Eval(gs, b.lhs, env, w1);
    if c.res.Val? { EvalPathAlike(fs, gs, a.rhs, b.rhs, env, c.world, d.world, more); }
  }

  lemma {:induction false} LogicPathAlike(
    fs: Funcs, gs: Funcs, a: Expr, b: Expr, env: Env, v: World, w: World, slack: nat)
    requires TableAlike(fs, gs) && Keeps(v, w, slack)
    requires a.Bin? && b.Bin? && a.op == b.op && (a.op.And? || a.op.Or?)
    requires CondAlike(a.lhs, b.lhs) && CondAlike(a.rhs, b.rhs)
    requires Eval(fs, a, env, v).res != Raised(OutOfFuel)
    ensures EvalPath(gs, b, env, w) == EvalPath(fs, a, env, v)
    decreases v.fuel, 0
  {
    var v1, w1, more := Burn(v), Burn(w), slack + 2;
    CondEvalAlike(fs, gs, a.lhs, b.lhs, env, v1, w1, more);
    CondPathAlike(fs, gs, a.lhs, b.lhs, env, v1, w1, more);
    var c, d := Eval(fs, a.lhs, env, v1), Eval(gs, b.lhs, env, w1);
    if !Stops(a.op, c.res) { CondPathAlike(fs, gs, a.rhs, b.rhs, env, c.world, d.world, more); }
  }

  lemma {:induction false} CondPathAlike(
    fs: Funcs, gs: Funcs, a: Expr, b: Expr, env: Env, v: World, w: World, slack: nat)
    requires TableAlike(fs, gs) && CondAlike(a, b) && Keeps(v, w, slack)
    requires Eval(fs, a, env, v).res != Raised(OutOfFuel)
    ensures EvalPath(gs, b, env, w) == EvalPath(fs, a, env, v)
    decreases v.fuel, 2
  {
    if Alike(a, b) {
      EvalPathAlike(fs, gs, a, b, env, v, w, slack);
    } else if a.Tern? && b.Tern? {
      TernPathAlike(fs, gs, a, b, env, v, w, slack);
    } else if a.Tern? {
      TernPathAsLogic(fs, gs, a, b, env, v, w, slack);
    } else {
      LogicPathAsTern(fs, gs, a, b, env, v, w, slack);
    }
  }

  /** A literal arm adds nothing to the path. */
  lemma {:induction false} LiteralHasNoPath(fs: Funcs, n: int, env: Env, w: World)
    ensures EvalPath(fs, Lit(n), env, w) == []
  {
  }

  lemma {:induction false} TernPathAsLogic(
    fs: Funcs, gs: Funcs, a: Expr, b: Expr, env: Env, v: World, w: World, slack: nat)
    requires TableAlike(fs, gs) && CondAlike(a, b) && Keeps(v, w, slack) && a.Tern? && b.Bin?
    requires Eval(fs, a, env, v).res != Raised(OutOfFuel)
    ensures EvalPath(gs, b, env, w) == EvalPath(fs, a, env, v)
    decreases v.fuel, 0
  {
    var v1, w1, more := Burn(v), Burn(w), slack + 2;
    CondEvalAlike(fs, gs, a.cond, b.lhs, env, v1, w1, more);
    CondPathAlike(fs, gs, a.cond, b.lhs, env, v1, w1, more);
    var c, d := Eval(fs, a.cond, env, v1), Eval(gs, b.lhs, env, w1);
    if c.res.Val? {
      if Stops(b.op, d.res) { LiteralHasNoPath(fs, if b.op.And? then 0 else 1, env, c.world); }
      else { CondPathAlike(fs, gs, if b.op.And? then a.thn else a.els, b.rhs, env, c.world, d.world, more); }
    }
  }

  lemma {:induction false} LogicPathAsTern(
    fs: Funcs, gs: Funcs, a: Expr, b: Expr, env: Env, v: World, w: World, slack: nat)
    requires TableAlike(fs, gs) && CondAlike(a, b) && Keeps(v, w, slack) && a.Bin? && b.Tern?
    requires Eval(fs, a, env, v).res != Raised(OutOfFuel)
    ensures EvalPath(gs, b, env, w) == EvalPath(fs, a, env, v)
    decreases v.fuel, 0
  {
    var v1, w1, more := Burn(v), Burn(w), slack + 2;
    CondEvalAlike(fs, gs, a.lhs, b.cond, env, v1, w1, more);
    CondPathAlike(fs, gs, a.lhs, b.cond, env, v1, w1, more);
    var c, d := Eval(fs, a.lhs, env, v1), Eval(gs, b.cond, env, w1);
    if c.res.Val? {
      if Stops(a.op, c.res) { LiteralHasNoPath(gs, if a.op.And? then 0 else 1, env, d.world); }
      else { CondPathAlike(fs, gs, a.rhs, if a.op.And? then b.thn else b.els, env, c.world, d.world, more); }
    }
  }

  lemma {:induction false} ArgsPathAlike(
    fs: Funcs, gs: Funcs, xs: seq<Expr>, ys: seq<Expr>, env: Env, v: World, w: World, slack: nat)
    requires TableAlike(fs, gs) && AllAlike(xs, ys) && Keeps(v, w, slack)
    requires EvalArgs(fs, xs, env, v).flow != Raise(OutOfFuel)
    ensures ArgsPath(gs, ys, env, w) == ArgsPath(fs, xs, env, v)
    decreases v.fuel, 3
  {
    if xs != [] {
      EvalAlike(fs, gs, xs[0], ys[0], env, v, w, slack);
      EvalPathAlike(fs, gs, xs[0], ys[0], env, v, w, slack);
      var c, d := Eval(fs, xs[0], env, v), Eval(gs, ys[0], env, w);
      if c.res.Val? { ArgsPathAlike(fs, gs, xs[1..], ys[1..], env, c.world, d.world, slack); }
    }
  }

  lemma {:induction false} CallPathAlike(
    fs: Funcs, gs: Funcs, name: string, vals: seq<Value>, v: World, w: World, slack: nat)
    requires TableAlike(fs, gs) && Keeps(v, w, slack)
    requires Invoke(fs, name, vals, v).res != Raised(OutOfFuel)
    ensures CallPath(gs, name, vals, w) == CallPath(fs, name, vals, v)
    decreases v.fuel, 3
  {
    if name in fs && |vals| == |fs[name].params| {
      BlockPathAlike(fs, gs, fs[name].body, gs[name].body, Bind(fs[name].params, vals), v, w, slack);
    }
  }

  // ----- alike statements have the same path -----

  lemma {:induction false} BlockPathAlike(
    fs: Funcs, gs: Funcs, xs: seq<Stmt>, ys: seq<Stmt>, env: Env, v: World, w: World, slack: nat)
    requires TableAlike(fs, gs) && BlockAlike(xs, ys) && Keeps(v, w, slack)
    requires ExecBlock(fs, xs, env, v).flow != Raise(OutOfFuel)
    ensures BlockPath(gs, ys, env, w) == BlockPath(fs, xs, env, v)
    decreases v.fuel, 2
  {
    if xs != [] {
      ExecAlike(fs, gs, xs[0], ys[0], env, v, w, slack);
      StmtPathAlike(fs, gs, xs[0], ys[0], env, v, w, slack);
      var c, d := Exec(fs, xs[0], env, v), Exec(gs, ys[0], env, w);
      if c.flow.Next? { BlockPathAlike(fs, gs, xs[1..], ys[1..], c.env, c.world, d.world, slack); }
    }
  }

  lemma {:induction false} StmtPathAlike(
    fs: Funcs, gs: Funcs, a: Stmt, b: Stmt, env: Env, v: World, w: World, slack: nat)
    requires TableAlike(fs, gs) && StmtAlike(a, b) && Keeps(v, w, slack)
    requires Exec(fs, a, env, v).flow != Raise(OutOfFuel)
    ensures StmtPath(gs, b, env, w) == StmtPath(fs, a, env, v)
    decreases v.fuel, 1
  {
    var v1, w1, more := Burn(v), Burn(w), slack + 2;
    match a
    case Decl(_, expr) => EvalPathAlike(fs, gs, expr, b.expr, env, v1, w1, more);
    case Asn(_, expr) => EvalPathAlike(fs, gs, expr, b.expr, env, v1, w1, more);
    case Return(expr) => EvalPathAlike(fs, gs, expr, b.expr, env, v1, w1, more);
    case If(cond, thn) => BranchPathAlike(fs, gs, cond, b.cond, thn, b.thn, [], [], env, v1, w1, more);
    case IfElse(cond, thn, els) =>
      BranchPathAlike(fs, gs, cond, b.cond, thn, b.thn, els, b.els, env, v1, w1, more);
    case For(name, start, cond, body) =>
      LoopPathAlike(fs, gs, Loop(cond, body, StepVar(name)), Loop(b.cond, b.body, StepVar(name)),
                    env[name := IntV(start)], v1, w1, more);
    case While(cond, body) =>
      LoopPathAlike(fs, gs, Loop(cond, body, NoStep), Loop(b.cond, b.body, NoStep), env, v1, w1, more);
    case DoWhile(body, cond) =>
      RoundPathAlike(fs, gs, Loop(cond, body, NoStep), Loop(b.cond, b.body, NoStep), env, v1, w1, more);
    case Break =>
    case Continue =>
  }

  lemma {:induction false} BranchPathAlike(
    fs: Funcs, gs: Funcs, a: Expr, b: Expr, thn: seq<Stmt>, thn': seq<Stmt>, els: seq<Stmt>, els': seq<Stmt>,
    env: Env, v: World, w: World, slack: nat)
    requires TableAlike(fs, gs) && CondAlike(a, b) && BlockAlike(thn, thn') && BlockAlike(els, els') && Keeps(v, w, slack)
    requires Eval(fs, a, env, v).res != Raised(OutOfFuel) && ArmEnds(fs, Eval(fs, a, env, v), thn, els, env)
    ensures BranchPath(gs, b, thn', els', env, w) == BranchPath(fs, a, thn, els, env, v)
    decreases v.fuel, 4
  {
    CondEvalAlike(fs, gs, a, b, env, v, w, slack);
    CondPathAlike(fs, gs, a, b, env, v, w, slack);
    ArmPathAlike(fs, gs, Eval(fs, a, env, v), Eval(gs, b, env, w), thn, thn', els, els', env, slack);
  }

  ghost predicate ArmEnds(fs: Funcs, c: EvalOut, thn: seq<Stmt>, els: seq<Stmt>, env: Env) {
    c.res.Val? ==> ExecBlock(fs, if Truthy(c.res.value) then thn else els, env, c.world).flow != Raise(OutOfFuel)
  }

  lemma {:induction false} ArmPathAlike(
    fs: Funcs, gs: Funcs, c: EvalOut, d: EvalOut, thn: seq<Stmt>, thn': seq<Stmt>, els: seq<Stmt>, els': seq<Stmt>,
    env: Env, slack: nat)
    requires TableAlike(fs, gs) && BlockAlike(thn, thn') && BlockAlike(els, els')
    requires SameTruth(c.res, d.res) && Keeps(c.world, d.world, slack) && ArmEnds(fs, c, thn, els, env)
    ensures ArmPath(gs, d, thn', els', env) == ArmPath(fs, c, thn, els, env)
    decreases c.world.fuel, 3
  {
    if c.res.Val? {
      if Truthy(c.res.value) { BlockPathAlike(fs, gs, thn, thn', env, c.world, d.world, slack); }
      else { BlockPathAlike(fs, gs, els, els', env, c.world, d.world, slack); }
    }
  }

  lemma {:induction false} LoopPathAlike(
    fs: Funcs, gs: Funcs, a: Loop, b: Loop, env: Env, v: World, w: World, slack: nat)
    requires TableAlike(fs, gs) && LoopAlike(a, b) && Keeps(v, w, slack)
    requires Iterate(fs, a, env, v).flow != Raise(OutOfFuel)
    ensures LoopPath(gs, b, env, w) == LoopPath(fs, a, env, v)
    decreases v.fuel, 3
  {
    CondEvalAlike(fs, gs, a.cond, b.cond, env, v, w, slack);
    CondPathAlike(fs, gs, a.cond, b.cond, env, v, w, slack);
    var c, d := Eval(fs, a.cond, env, v), Eval(gs, b.cond, env, w);
    if c.res.Val? && Truthy(c.res.value) { RoundPathAlike(fs, gs, a, b, env, c.world, d.world, slack); }
  }

  lemma {:induction false} RoundPathAlike(
    fs: Funcs, gs: Funcs, a: Loop, b: Loop, env: Env, v: World, w: World, slack: nat)
    requires TableAlike(fs, gs) && LoopAlike(a, b) && Keeps(v, w, slack)
    requires Round(fs, a, env, v).flow != Raise(OutOfFuel)
    ensures RoundPath(gs, b, env, w) == RoundPath(fs, a, env, v)
    decreases v.fuel, 5
  {
    ExecBlockAlike(fs, gs, a.body, b.body, env, Burn(v), Burn(w), slack + 2);
    BlockPathAlike(fs, gs, a.body, b.body, env, Burn(v), Burn(w), slack + 2);
    AfterBodyPathAlike(fs, gs, a, b, ExecBlock(fs, a.body, env, Burn(v)), ExecBlock(gs, b.body, env, Burn(w)), slack);
  }

  lemma {:induction false} AfterBodyPathAlike(
    fs: Funcs, gs: Funcs, a: Loop, b: Loop, c: ExecOut, d: ExecOut, slack: nat)
    requires TableAlike(fs, gs) && LoopAlike(a, b) && SameOut(c, d, slack)
    requires AfterBody(fs, a, c).flow != Raise(OutOfFuel)
    ensures AfterBodyPath(gs, b, d) == AfterBodyPath(fs, a, c)
    decreases c.world.fuel, 4
  {
    if GoesOn(c.flow) {
      var s, t := Step(a.header, c.env, c.world), Step(b.header, d.env, d.world);
      if s.flow.Next? { LoopPathAlike(fs, gs, a, b, s.env, s.world, t.world, slack); }
    }
  }

  // ----- the theorems -----

  /** The rewritten block on three times the fuel takes the path the original took, and the other way
      round. */
  lemma {:induction false} RewriteKeepsBlockPath(fs: Funcs, stmts: seq<Stmt>, env: Env, w: World, g: nat)
    requires g >= 3 * w.fuel
    ensures ExecBlock(fs, stmts, env, w).flow != Raise(OutOfFuel) ==>
              BlockPath(RewriteTable(fs), RewriteBlock(stmts), env, World(w.globals, g)) == BlockPath(fs, stmts, env, w)
    ensures ExecBlock(RewriteTable(fs), RewriteBlock(stmts), env, w).flow != Raise(OutOfFuel) ==>
              BlockPath(fs, stmts, env, World(w.globals, g)) == BlockPath(RewriteTable(fs), RewriteBlock(stmts), env, w)
  {
    RewriteTableIsAlike(fs);
    RewriteBlockIsAlike(stmts);
    BlockAlikeSymmetric(stmts, RewriteBlock(stmts));
    if ExecBlock(fs, stmts, env, w).flow != Raise(OutOfFuel) {
      BlockPathAlike(fs, RewriteTable(fs), stmts, RewriteBlock(stmts), env, w, World(w.globals, g), 0);
    }
    if ExecBlock(RewriteTable(fs), RewriteBlock(stmts), env, w).flow != Raise(OutOfFuel) {
      BlockPathAlike(RewriteTable(fs), fs, RewriteBlock(stmts), stmts, env, w, World(w.globals, g), 0);
    }
  }

  lemma {:induction false} RewriteKeepsCallPath(fs: Funcs, name: string, vals: seq<Value>, w: World, g: nat)
    requires g >= 3 * w.fuel
    ensures Invoke(fs, name, vals, w).res != Raised(OutOfFuel) ==>
              CallPath(RewriteTable(fs), name, vals, World(w.globals, g)) == CallPath(fs, name, vals, w)
    ensures Invoke(RewriteTable(fs), name, vals, w).res != Raised(OutOfFuel) ==>
              CallPath(fs, name, vals, World(w.globals, g)) == CallPath(RewriteTable(fs), name, vals, w)
  {
    RewriteTableIsAlike(fs);
    if Invoke(fs, name, vals, w).res != Raised(OutOfFuel) {
      CallPathAlike(fs, RewriteTable(fs), name, vals, w, World(w.globals, g), 0);
    }
    if Invoke(RewriteTable(fs), name, vals, w).res != Raised(OutOfFuel) {
      CallPathAlike(RewriteTable(fs), fs, name, vals, w, World(w.globals, g), 0);
    }
  }

  /** With some amount of fuel, the call takes `path` and ends in `res` with `globals'`. */
  ghost predicate CallRuns(
    fs: Funcs, name: string, vals: seq<Value>, globals: Env, path: seq<Turn>, res: EvalResult, globals': Env) {
    && res != Raised(OutOfFuel)
    && exists fuel: nat ::
         var r := Invoke(fs, name, vals, World(globals, fuel));
         r.res == res && r.world.globals == globals' && CallPath(fs, name, vals, World(globals, fuel)) == path
  }

  /** The same branches and calls, the same result and the same globals, for every call of every program. */
  lemma {:induction false} SamePathAsTernary(
    fs: Funcs, name: string, vals: seq<Value>, globals: Env, path: seq<Turn>, res: EvalResult, globals': Env)
    ensures CallRuns(fs, name, vals, globals, path, res, globals') <==>
            CallRuns(RewriteTable(fs), name, vals, globals, path, res, globals')
  {
    if CallRuns(fs, name, vals, globals, path, res, globals') {
      var fuel: nat :| var r := Invoke(fs, name, vals, World(globals, fuel));
                       r.res == res && r.world.globals == globals' &&
                       CallPath(fs, name, vals, World(globals, fuel)) == path;
      RewritePreservesCalls(fs, name, vals, World(globals, fuel), 3 * fuel);
      RewriteKeepsCallPath(fs, name, vals, World(globals, fuel), 3 * fuel);
    }
    if CallRuns(RewriteTable(fs), name, vals, globals, path, res, globals') {
      var fuel: nat :| var r := Invoke(RewriteTable(fs), name, vals, World(globals, fuel));
                       r.res == res && r.world.globals == globals' &&
                       CallPath(RewriteTable(fs), name, vals, World(globals, fuel)) == path;
      RewritePreservesCalls(fs, name, vals, World(globals, fuel), 3 * fuel);
      RewriteKeepsCallPath(fs, name, vals, World(globals, fuel), 3 * fuel);
    }
  }

  // ----- what is on a path -----

  /** An `if` puts its test's own path on the path, then the outcome, then the path of the arm that it chose. */
  lemma {:induction false} IfPath(fs: Funcs, cond: Expr, thn: seq<Stmt>, els: seq<Stmt>, env: Env, w: World)
    requires !Spent(w) && Eval(fs, cond, env, Burn(w)).res.Val?
    ensures var c := Eval(fs, cond, env, Burn(w));
            var outcome := c.res.value != IntV(0) && c.res.value != BoolV(false);
            && StmtPath(fs, IfElse(cond, thn, els), env, w) ==
               EvalPath(fs, cond, env, Burn(w)) +
               ([Took(outcome)] + BlockPath(fs, if outcome then thn else els, env, c.world))
            && StmtPath(fs, If(cond, thn), env, w) == StmtPath(fs, IfElse(cond, thn, []), env, w)
  {
    var c := Eval(fs, cond, env, Burn(w));
    assert Truthy(c.res.value) == (c.res.value != IntV(0) && c.res.value != BoolV(false));
    assert StmtPath(fs, IfElse(cond, thn, els), env, w) == BranchPath(fs, cond, thn, els, env, Burn(w));
  }

  /** A `while` puts on the path its test's path and outcome and, if it runs its body, the body's path, and
      then, if it goes on, the path of the same `while` again. */
  lemma {:induction false} WhilePath(fs: Funcs, cond: Expr, body: seq<Stmt>, env: Env, w: World)
    requires !Spent(w) && Eval(fs, cond, env, Burn(w)).res.Val?
    ensures var c := Eval(fs, cond, env, Burn(w));
            var runs := c.res.value != IntV(0) && c.res.value != BoolV(false);
            && (!runs ==> StmtPath(fs, While(cond, body), env, w) == EvalPath(fs, cond, env, Burn(w)) + [Took(false)])
            && (runs && !Spent(c.world) ==>
                  var b := ExecBlock(fs, body, env, Burn(c.world));
                  b.world.fuel > 0 ==>
                  StmtPath(fs, While(cond, body), env, w) ==
                  EvalPath(fs, cond, env, Burn(w)) + ([Took(true)] + (BlockPath(fs, body, env, Burn(c.world)) +
                  if b.flow == Next || b.flow == Raise(ContinueSig)
                  then StmtPath(fs, While(cond, body), b.env, World(b.world.globals, b.world.fuel + 1)) else [])))
  {
    var c, l := Eval(fs, cond, env, Burn(w)), Loop(cond, body, NoStep);
    assert Truthy(c.res.value) == (c.res.value != IntV(0) && c.res.value != BoolV(false));
    assert StmtPath(fs, While(cond, body), env, w) == LoopPath(fs, l, env, Burn(w));
    if Truthy(c.res.value) && !Spent(c.world) {
      var b := ExecBlock(fs, body, env, Burn(c.world));
      assert RoundPath(fs, l, env, c.world) == BlockPath(fs, body, env, Burn(c.world)) + AfterBodyPath(fs, l, b);
      if b.world.fuel > 0 { GoesOnPath(fs, cond, body, b); }
    }
  }

  lemma {:induction false} GoesOnPath(fs: Funcs, cond: Expr, body: seq<Stmt>, b: ExecOut)
    requires b.world.fuel > 0
    ensures AfterBodyPath(fs, Loop(cond, body, NoStep), b) ==
            if b.flow == Next || b.flow == Raise(ContinueSig)
            then StmtPath(fs, While(cond, body), b.env, World(b.world.globals, b.world.fuel + 1)) else []
  {
    assert Burn(World(b.world.globals, b.world.fuel + 1)) == b.world;
    assert Step(NoStep, b.env, b.world) == ExecOut(Next, b.env, b.world);
  }

  /** A call that is entered puts its arguments' path on the path, then its name and arguments, then the path of
      the callee's body. */
  lemma {:induction false} EnteredPath(fs: Funcs, name: string, args: seq<Expr>, env: Env, w: World)
    requires !Spent(w) && name in fs
    ensures var a := EvalArgs(fs, args, env, Burn(w));
            a.flow == Next && |a.vals| == |fs[name].params| ==>
            EvalPath(fs, Call(name, args), env, w) ==
            ArgsPath(fs, args, env, Burn(w)) +
            ([Entered(name, a.vals)] + BlockPath(fs, fs[name].body, Bind(fs[name].params, a.vals), a.world))
  {
  }
}
