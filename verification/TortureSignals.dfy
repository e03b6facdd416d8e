/** Where signals stop. A break or continue never leaves a loop, so when every function keeps its
    breaks and continues inside loops and ends in a return, a call yields a value, a failed assertion
    or exhausted fuel: never a stray signal and never a fall off the end. */
module TortureSignals {
  import opened TortureAst
  import opened TortureSemantics

  /** Outside any loop of `stmts`, a break occurs only if `brk` and a continue only if `cont`. */
  predicate Scoped(stmts: seq<Stmt>, brk: bool, cont: bool) {
    forall i :: 0 <= i < |stmts| ==> ScopedStmt(stmts[i], brk, cont)
  }

  predicate ScopedStmt(s: Stmt, brk: bool, cont: bool) {
    match s
    case Break => brk
    case Continue => cont
    case If(_, thn) => Scoped(thn, brk, cont)
    case IfElse(_, thn, els) => Scoped(thn, brk, cont) && Scoped(els, brk, cont)
    case For(_, _, _, body) => Scoped(body, true, true)
    case While(_, body) => Scoped(body, true, true)
    case DoWhile(body, _) => Scoped(body, true, true)
    case _ => true
  }

  predicate EndsInReturn(stmts: seq<Stmt>) {
    |stmts| > 0 && stmts[|stmts| - 1].Return?
  }

  ghost predicate TableScoped(fs: Funcs) {
    forall name :: name in fs ==> Scoped(fs[name].body, false, false)
  }

  ghost predicate TableReturns(fs: Funcs) {
    forall name :: name in fs ==> EndsInReturn(fs[name].body)
  }

  /** The signals a call may raise. */
  ghost predicate Clean(fs: Funcs, sig: Signal) {
    || sig.OutOfFuel?
    || (sig.Failed? && (TableReturns(fs) ==> sig.fault != FellOffEnd))
  }

  /** The signals a block with the given permissions may end with. */
  ghost predicate Allowed(fs: Funcs, flow: Flow, brk: bool, cont: bool) {
    match flow
    case Next => true
    case Raise(sig) =>
      || Clean(fs, sig) || sig.ReturnSig? || (sig.BreakSig? && brk) || (sig.ContinueSig? && cont)
  }

  lemma {:induction false} EvalIsClean(fs: Funcs, e: Expr, env: Env, w: World)
    requires TableScoped(fs)
    ensures Eval(fs, e, env, w).res.Raised? ==> Clean(fs, Eval(fs, e, env, w).res.sig)
    decreases w.fuel, 0
  {
    if Spent(w) { return; }
    var w1 := Burn(w);
    match e
    case Var(_) =>
    case Lit(_) =>
    case Call(name, args) =>
      ArgsAreClean(fs, args, env, w1);
      var a := EvalArgs(fs, args, env, w1);
      if a.flow.Next? { NoStraySignal(fs, name, a.vals, a.world); }
    case Tern(cond, thn, els) =>
      EvalIsClean(fs, cond, env, w1);
      var c := Eval(fs, cond, env, w1);
      if c.res.Val? {
        EvalIsClean(fs, thn, env, c.world);
        EvalIsClean(fs, els, env, c.world);
      }
    case Bin(op, lhs, rhs) =>
      EvalIsClean(fs, lhs, env, w1);
      var a := Eval(fs, lhs, env, w1);
      if a.res.Val? { EvalIsClean(fs, rhs, env, a.world); }
  }

  lemma {:induction false} ArgsAreClean(fs: Funcs, args: seq<Expr>, env: Env, w: World)
    requires TableScoped(fs)
    ensures EvalArgs(fs, args, env, w).flow.Raise? ==> Clean(fs, EvalArgs(fs, args, env, w).flow.sig)
    decreases w.fuel, 1
  {
    if args != [] {
      EvalIsClean(fs, args[0], env, w);
      var a := Eval(fs, args[0], env, w);
      if a.res.Val? { ArgsAreClean(fs, args[1..], env, a.world); }
    }
  }

  /** A call yields a value, a failed assertion or exhausted fuel; never a fall off the end when every
      function of the table ends in a return. */
  lemma {:induction false} NoStraySignal(fs: Funcs, name: string, vals: seq<Value>, w: World)
    requires TableScoped(fs)
    ensures Invoke(fs, name, vals, w).res.Raised? ==> Clean(fs, Invoke(fs, name, vals, w).res.sig)
    decreases w.fuel, 2
  {
    if name in fs && |vals| == |fs[name].params| {
      var env := Bind(fs[name].params, vals);
      BlockSignals(fs, fs[name].body, env, w, false, false);
      if EndsInReturn(fs[name].body) { EndsInReturnNeverFallsOff(fs, fs[name].body, env, w); }
    }
  }

  lemma {:induction false} EndsInReturnNeverFallsOff(fs: Funcs, stmts: seq<Stmt>, env: Env, w: World)
    requires EndsInReturn(stmts)
    ensures ExecBlock(fs, stmts, env, w).flow.Raise?
    decreases |stmts|
  {
    var s := Exec(fs, stmts[0], env, w);
    if s.flow.Next? { EndsInReturnNeverFallsOff(fs, stmts[1..], s.env, s.world); }
  }

  lemma {:induction false} BlockSignals(
    fs: Funcs, stmts: seq<Stmt>, env: Env, w: World, brk: bool, cont: bool)
    requires TableScoped(fs) && Scoped(stmts, brk, cont)
    ensures Allowed(fs, ExecBlock(fs, stmts, env, w).flow, brk, cont)
    decreases w.fuel, 1
  {
    if stmts != [] {
      StmtSignals(fs, stmts[0], env, w, brk, cont);
      var s := Exec(fs, stmts[0], env, w);
      if s.flow.Next? { BlockSignals(fs, stmts[1..], s.env, s.world, brk, cont); }
    }
  }

  lemma {:induction false} StmtSignals(fs: Funcs, s: Stmt, env: Env, w: World, brk: bool, cont: bool)
    requires TableScoped(fs) && ScopedStmt(s, brk, cont)
    ensures Allowed(fs, Exec(fs, s, env, w).flow, brk, cont)
    decreases w.fuel, 0
  {
    if Spent(w) { return; }
    var w1 := Burn(w);
    match s
    case Decl(_, expr) => EvalIsClean(fs, expr, env, w1);
    case Asn(_, expr) => EvalIsClean(fs, expr, env, w1);
    case Return(expr) => EvalIsClean(fs, expr, env, w1);
    case If(cond, thn) =>
      EvalIsClean(fs, cond, env, w1);
      var c := Eval(fs, cond, env, w1);
      if c.res.Val? { BlockSignals(fs, thn, env, c.world, brk, cont); }
    case IfElse(cond, thn, els) =>
      EvalIsClean(fs, cond, env, w1);
      var c := Eval(fs, cond, env, w1);
      if c.res.Val? {
        BlockSignals(fs, if Truthy(c.res.value) then thn else els, env, c.world, brk, cont);
      }
    case For(name, start, cond, body) =>
      LoopHoldsSignals(fs, Loop(cond, body, StepVar(name)), env[name := IntV(start)], w1);
    case While(cond, body) => LoopHoldsSignals(fs, Loop(cond, body, NoStep), env, w1);
    case DoWhile(body, cond) => RoundHoldsSignals(fs, Loop(cond, body, NoStep), env, w1);
    case Break =>
    case Continue =>
  }

  /** No break or continue leaves a loop. */
  lemma {:induction false} LoopHoldsSignals(fs: Funcs, l: Loop, env: Env, w: World)
    requires TableScoped(fs) && Scoped(l.body, true, true)
    ensures Allowed(fs, Iterate(fs, l, env, w).flow, false, false)
    decreases w.fuel, 2
  {
    EvalIsClean(fs, l.cond, env, w);
    var c := Eval(fs, l.cond, env, w);
    if c.res.Val? && Truthy(c.res.value) { RoundHoldsSignals(fs, l, env, c.world); }
  }

  lemma {:induction false} RoundHoldsSignals(fs: Funcs, l: Loop, env: Env, w: World)
    requires TableScoped(fs) && Scoped(l.body, true, true)
    ensures Allowed(fs, Round(fs, l, env, w).flow, false, false)
    decreases w.fuel, 4
  {
    if Spent(w) { return; }
    BlockSignals(fs, l.body, env, Burn(w), true, true);
    var b := ExecBlock(fs, l.body, env, Burn(w));
    if GoesOn(b.flow) {
      var s := Step(l.header, b.env, b.world);
      if s.flow.Next? { LoopHoldsSignals(fs, l, s.env, s.world); }
    }
  }

  // ----- continue alone -----

  /** No function lets a continue escape. A break may. */
  ghost predicate TableHoldsContinue(fs: Funcs) {
    forall name :: name in fs ==> Scoped(fs[name].body, true, false)
  }

  lemma {:induction false} EvalNeverContinues(fs: Funcs, e: Expr, env: Env, w: World)
    requires TableHoldsContinue(fs)
    ensures Eval(fs, e, env, w).res != Raised(ContinueSig)
    decreases w.fuel, 1
  {
    if Spent(w) { return; }
    var w1 := Burn(w);
    match e
    case Var(_) =>
    case Lit(_) =>
    case Call(name, args) =>
      ArgsNeverContinue(fs, args, env, w1);
      var a := EvalArgs(fs, args, env, w1);
      if a.flow.Next? { CallNeverContinues(fs, name, a.vals, a.world); }
    case Tern(cond, thn, els) =>
      EvalNeverContinues(fs, cond, env, w1);
      var c := Eval(fs, cond, env, w1);
      if c.res.Val? { EvalNeverContinues(fs, if Truthy(c.res.value) then thn else els, env, c.world); }
    case Bin(_, _, _) => BinNeverContinues(fs, e, env, w);
  }

  lemma {:induction false} BinNeverContinues(fs: Funcs, e: Expr, env: Env, w: World)
    requires TableHoldsContinue(fs) && e.Bin?
    ensures Eval(fs, e, env, w).res != Raised(ContinueSig)
    decreases w.fuel, 0
  {
    if Spent(w) { return; }
    EvalNeverContinues(fs, e.lhs, env, Burn(w));
    var a := Eval(fs, e.lhs, env, Burn(w));
    if a.res.Val? { EvalNeverContinues(fs, e.rhs, env, a.world); }
  }

  lemma {:induction false} ArgsNeverContinue(fs: Funcs, args: seq<Expr>, env: Env, w: World)
    requires TableHoldsContinue(fs)
    ensures EvalArgs(fs, args, env, w).flow != Raise(ContinueSig)
    decreases w.fuel, 2
  {
    if args != [] {
      EvalNeverContinues(fs, args[0], env, w);
      var a := Eval(fs, args[0], env, w);
      if a.res.Val? { ArgsNeverContinue(fs, args[1..], env, a.world); }
    }
  }

  lemma {:induction false} CallNeverContinues(fs: Funcs, name: string, vals: seq<Value>, w: World)
    requires TableHoldsContinue(fs)
    ensures Invoke(fs, name, vals, w).res != Raised(ContinueSig)
    decreases w.fuel, 3
  {
    if name in fs && |vals| == |fs[name].params| {
      BlockNeverContinues(fs, fs[name].body, Bind(fs[name].params, vals), w);
    }
  }

  /** A block continues only by a `continue` of its own. */
  lemma {:induction false} BlockNeverContinues(fs: Funcs, stmts: seq<Stmt>, env: Env, w: World)
    requires TableHoldsContinue(fs) && Scoped(stmts, true, false)
    ensures ExecBlock(fs, stmts, env, w).flow != Raise(ContinueSig)
    decreases w.fuel, 2
  {
    if stmts != [] {
      StmtNeverContinues(fs, stmts[0], env, w);
      var s := Exec(fs, stmts[0], env, w);
      if s.flow.Next? { BlockNeverContinues(fs, stmts[1..], s.env, s.world); }
    }
  }

  lemma {:induction false} StmtNeverContinues(fs: Funcs, s: Stmt, env: Env, w: World)
    requires TableHoldsContinue(fs) && ScopedStmt(s, true, false)
    ensures Exec(fs, s, env, w).flow != Raise(ContinueSig)
    decreases w.fuel, 1
  {
    if Spent(w) { return; }
    var w1 := Burn(w);
    match s
    case Decl(_, expr) => EvalNeverContinues(fs, expr, env, w1);
    case Asn(_, expr) => EvalNeverContinues(fs, expr, env, w1);
    case Return(expr) => EvalNeverContinues(fs, expr, env, w1);
    case If(cond, thn) =>
      EvalNeverContinues(fs, cond, env, w1);
      var c := Eval(fs, cond, env, w1);
      if c.res.Val? { BlockNeverContinues(fs, thn, env, c.world); }
    case IfElse(cond, thn, els) =>
      EvalNeverContinues(fs, cond, env, w1);
      var c := Eval(fs, cond, env, w1);
      if c.res.Val? { BlockNeverContinues(fs, if Truthy(c.res.value) then thn else els, env, c.world); }
    case For(name, start, cond, body) =>
      LoopNeverContinues(fs, Loop(cond, body, StepVar(name)), env[name := IntV(start)], w1);
    case While(cond, body) => LoopNeverContinues(fs, Loop(cond, body, NoStep), env, w1);
    case DoWhile(body, cond) => RoundNeverContinues(fs, Loop(cond, body, NoStep), env, w1);
    case Break =>
  }

  lemma {:induction false} LoopNeverContinues(fs: Funcs, l: Loop, env: Env, w: World)
    requires TableHoldsContinue(fs)
    ensures Iterate(fs, l, env, w).flow != Raise(ContinueSig)
    decreases w.fuel, 3
  {
    EvalNeverContinues(fs, l.cond, env, w);
    var c := Eval(fs, l.cond, env, w);
    if c.res.Val? && Truthy(c.res.value) { RoundNeverContinues(fs, l, env, c.world); }
  }

  lemma {:induction false} RoundNeverContinues(fs: Funcs, l: Loop, env: Env, w: World)
    requires TableHoldsContinue(fs)
    ensures Round(fs, l, env, w).flow != Raise(ContinueSig)
    decreases w.fuel, 4
  {
    if Spent(w) { return; }
    var b := ExecBlock(fs, l.body, env, Burn(w));
    if GoesOn(b.flow) {
      var s := Step(l.header, b.env, b.world);
      if s.flow.Next? { LoopNeverContinues(fs, l, s.env, s.world); }
    }
  }
}
