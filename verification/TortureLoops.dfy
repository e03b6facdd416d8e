/** `make_loop` writes one counting loop as `for`, `while` or `do`-`while`. Given enough fuel the three
    end alike: same outcome, same variables, same globals. For every body, the `for` ends as the `while`
    whose body steps the counter before each `continue` of its own; without such a `continue` that is the
    same body. `do`-`while` also needs a call-free bound whose first test holds. */
module TortureLoops {
  import opened TortureAst
  import opened TortureSemantics
  import opened TortureFuel
  import opened TortureSignals

  datatype LoopKind = ForLoop | WhileLoop | DoWhileLoop

  function Increment(v: string): Stmt {
    Asn(v, Bin(Add, Var(v), Lit(1)))
  }

  function Below(v: string, bound: Expr): Expr {
    Bin(Lt, Var(v), bound)
  }

  function MakeLoop(kind: LoopKind, v: string, bound: Expr, body: seq<Stmt>): seq<Stmt> {
    match kind
    case ForLoop => [For(v, 0, Below(v, bound), body)]
    case WhileLoop => [Decl(v, Lit(0)), While(Below(v, bound), body + [Increment(v)])]
    case DoWhileLoop => [Decl(v, Lit(0)), DoWhile(body + [Increment(v)], Below(v, bound))]
  }

  // ----- blocks -----

  lemma {:induction false} BlockAppend(fs: Funcs, a: seq<Stmt>, b: seq<Stmt>, env: Env, w: World)
    ensures ExecBlock(fs, a + b, env, w) ==
            var r := ExecBlock(fs, a, env, w);
            if r.flow.Next? then ExecBlock(fs, b, r.env, r.world) else r
    decreases |a|
  {
    if a == [] {
      assert a + b == b;
    } else {
      assert (a + b)[1..] == a[1..] + b;
      var s := Exec(fs, a[0], env, w);
      if s.flow.Next? { BlockAppend(fs, a[1..], b, s.env, s.world); }
    }
  }

  lemma {:induction false} BlockOfOne(fs: Funcs, s: Stmt, env: Env, w: World)
    ensures ExecBlock(fs, [s], env, w) == Exec(fs, s, env, w)
  {
    var r := Exec(fs, s, env, w);
    assert [s][1..] == [];
    if r.flow.Next? { assert ExecBlock(fs, [], r.env, r.world) == r; }
  }

  // ----- a declared variable stays declared -----

  lemma {:induction false} BlockKeeps(fs: Funcs, stmts: seq<Stmt>, env: Env, w: World, v: string)
    requires v in env
    ensures v in ExecBlock(fs, stmts, env, w).env
    decreases w.fuel, 1
  {
    if stmts != [] {
      StmtKeeps(fs, stmts[0], env, w, v);
      var s := Exec(fs, stmts[0], env, w);
      if s.flow.Next? { BlockKeeps(fs, stmts[1..], s.env, s.world, v); }
    }
  }

  lemma {:induction false} StmtKeeps(fs: Funcs, s: Stmt, env: Env, w: World, v: string)
    requires v in env
    ensures v in Exec(fs, s, env, w).env
    decreases w.fuel, 0
  {
    if Spent(w) { return; }
    var w1 := Burn(w);
    match s
    case If(cond, thn) =>
      var c := Eval(fs, cond, env, w1);
      if c.res.Val? { BlockKeeps(fs, thn, env, c.world, v); }
    case IfElse(cond, thn, els) =>
      var c := Eval(fs, cond, env, w1);
      if c.res.Val? { BlockKeeps(fs, if Truthy(c.res.value) then thn else els, env, c.world, v); }
    case For(name, start, cond, body) =>
      LoopKeeps(fs, Loop(cond, body, StepVar(name)), env[name := IntV(start)], w1, v);
    case While(cond, body) => LoopKeeps(fs, Loop(cond, body, NoStep), env, w1, v);
    case DoWhile(body, cond) => RoundKeeps(fs, Loop(cond, body, NoStep), env, w1, v);
    case _ =>
  }

  lemma {:induction false} LoopKeeps(fs: Funcs, l: Loop, env: Env, w: World, v: string)
    requires v in env
    ensures v in Iterate(fs, l, env, w).env
    decreases w.fuel, 2
  {
    var c := Eval(fs, l.cond, env, w);
    if c.res.Val? && Truthy(c.res.value) { RoundKeeps(fs, l, env, c.world, v); }
  }

  lemma {:induction false} RoundKeeps(fs: Funcs, l: Loop, env: Env, w: World, v: string)
    requires v in env
    ensures v in Round(fs, l, env, w).env
    decreases w.fuel, 4
  {
    if Spent(w) { return; }
    BlockKeeps(fs, l.body, env, Burn(w), v);
    var b := ExecBlock(fs, l.body, env, Burn(w));
    if GoesOn(b.flow) {
      var s := Step(l.header, b.env, b.world);
      if s.flow.Next? { LoopKeeps(fs, l, s.env, s.world, v); }
    }
  }

  // ----- the increment -----

  /** The written-out increment does what the header of a `for` does, for four units of fuel. */
  lemma {:induction false} IncrementIsStep(fs: Funcs, v: string, env: Env, w: World)
    requires v in env
    ensures w.fuel <= 4 ==> Exec(fs, Increment(v), env, w).flow == Raise(OutOfFuel)
    ensures w.fuel > 4 ==>
              Exec(fs, Increment(v), env, w) == Step(StepVar(v), env, World(w.globals, w.fuel - 4))
  {
    if w.fuel > 1 {
      var w1 := Burn(w);
      var e := Bin(Add, Var(v), Lit(1));
      assert Exec(fs, Increment(v), env, w) ==
             var r := Eval(fs, e, env, w1);
             if r.res.Raised? then ExecOut(Raise(r.res.sig), env, r.world)
             else Assign(v, r.res.value, env, r.world);
      if w1.fuel > 1 {
        var w2 := Burn(w1);
        var a := Eval(fs, Var(v), env, w2);
        if w2.fuel > 1 {
          assert a == EvalOut(Val(env[v]), Burn(w2));
          var b := Eval(fs, Lit(1), env, Burn(w2));
        }
      }
    }
  }

  /** A body followed by the increment. */
  lemma {:induction false} BodyThenIncrement(fs: Funcs, v: string, body: seq<Stmt>, env: Env, w: World)
    ensures ExecBlock(fs, body + [Increment(v)], env, w) ==
            var r := ExecBlock(fs, body, env, w);
            if r.flow.Next? then Exec(fs, Increment(v), r.env, r.world) else r
  {
    BlockAppend(fs, body, [Increment(v)], env, w);
    var r := ExecBlock(fs, body, env, w);
    if r.flow.Next? { BlockOfOne(fs, Increment(v), r.env, r.world); }
  }

  // ----- stepping before each continue -----

  /** The statements with the counter stepped before each `continue` of their own. */
  function Stepped(v: string, stmts: seq<Stmt>): seq<Stmt> {
    if stmts == [] then [] else SteppedStmt(v, stmts[0]) + Stepped(v, stmts[1..])
  }

  function SteppedStmt(v: string, s: Stmt): seq<Stmt> {
    match s
    case Continue => [Increment(v), Continue]
    case If(cond, thn) => [If(cond, Stepped(v, thn))]
    case IfElse(cond, thn, els) => [IfElse(cond, Stepped(v, thn), Stepped(v, els))]
    case _ => [s]
  }

  /** Without a `continue` of its own a body stays as it is. */
  lemma {:induction false} SteppedIsSame(v: string, stmts: seq<Stmt>)
    requires Scoped(stmts, true, false)
    ensures Stepped(v, stmts) == stmts
  {
    if stmts != [] {
      SteppedStmtIsSame(v, stmts[0]);
      SteppedIsSame(v, stmts[1..]);
    }
  }

  lemma {:induction false} SteppedStmtIsSame(v: string, s: Stmt)
    requires ScopedStmt(s, true, false)
    ensures SteppedStmt(v, s) == [s]
  {
    match s
    case If(_, thn) => SteppedIsSame(v, thn);
    case IfElse(_, thn, els) => SteppedIsSame(v, thn); SteppedIsSame(v, els);
    case _ =>
  }

  lemma {:induction false} EverythingIsScoped(stmts: seq<Stmt>)
    ensures Scoped(stmts, true, true)
  {
    forall i | 0 <= i < |stmts| ensures ScopedStmt(stmts[i], true, true) { EveryStmtIsScoped(stmts[i]); }
  }

  lemma {:induction false} EveryStmtIsScoped(s: Stmt)
    ensures ScopedStmt(s, true, true)
  {
    match s
    case If(_, thn) => EverythingIsScoped(thn);
    case IfElse(_, thn, els) => EverythingIsScoped(thn); EverythingIsScoped(els);
    case For(_, _, _, body) => EverythingIsScoped(body);
    case While(_, body) => EverythingIsScoped(body);
    case DoWhile(body, _) => EverythingIsScoped(body);
    case _ =>
  }

  /** How the stepped statements end (`q`) when the plain ones end in `r`: alike, except that a `continue`
      comes after the step, for four units of fuel. */
  ghost predicate StepsFirst(v: string, r: ExecOut, q: ExecOut) {
    && v in r.env
    && if r.flow == Raise(ContinueSig) then ContinueStepped(Step(StepVar(v), r.env, r.world), q) else q == r
  }

  ghost predicate ContinueStepped(s: ExecOut, q: ExecOut) {
    var cost := if s.flow.Next? then 4 else 3;
    if s.world.fuel <= cost then q.flow == Raise(OutOfFuel)
    else q == ExecOut(if s.flow.Next? then Raise(ContinueSig) else s.flow, s.env, World(s.world.globals, s.world.fuel - cost))
  }

  lemma {:induction false} SteppedContinue(fs: Funcs, v: string, env: Env, w: World)
    requires v in env
    ensures StepsFirst(v, Exec(fs, Continue, env, w), ExecBlock(fs, [Increment(v), Continue], env, w))
  {
    IncrementIsStep(fs, v, env, w);
    var i := Exec(fs, Increment(v), env, w);
    assert [Increment(v), Continue][1..] == [Continue];
    if i.flow.Next? { BlockOfOne(fs, Continue, i.env, i.world); }
  }

  lemma {:induction false} SteppedBlock(fs: Funcs, v: string, stmts: seq<Stmt>, env: Env, w: World)
    requires TableHoldsContinue(fs) && v in env
    ensures StepsFirst(v, ExecBlock(fs, stmts, env, w), ExecBlock(fs, Stepped(v, stmts), env, w))
    decreases stmts
  {
    if stmts != [] {
      SteppedOne(fs, v, stmts[0], env, w);
      BlockAppend(fs, SteppedStmt(v, stmts[0]), Stepped(v, stmts[1..]), env, w);
      var s := Exec(fs, stmts[0], env, w);
      if s.flow.Next? { SteppedBlock(fs, v, stmts[1..], s.env, s.world); }
    }
  }

  lemma {:induction false} SteppedOne(fs: Funcs, v: string, s: Stmt, env: Env, w: World)
    requires TableHoldsContinue(fs) && v in env
    ensures StepsFirst(v, Exec(fs, s, env, w), ExecBlock(fs, SteppedStmt(v, s), env, w))
    decreases s
  {
    match s
    case Continue => SteppedContinue(fs, v, env, w);
    case If(cond, thn) => SteppedIf(fs, v, s, env, w);
    case IfElse(cond, thn, els) => SteppedIfElse(fs, v, s, env, w);
    case _ =>
      EveryStmtIsScoped(s);
      StmtKeeps(fs, s, env, w, v);
      StmtNeverContinues(fs, s, env, w);
      BlockOfOne(fs, s, env, w);
  }

  lemma {:induction false} SteppedIf(fs: Funcs, v: string, s: Stmt, env: Env, w: World)
    requires TableHoldsContinue(fs) && v in env && s.If?
    ensures StepsFirst(v, Exec(fs, s, env, w), ExecBlock(fs, SteppedStmt(v, s), env, w))
    decreases s, 0
  {
    BlockOfOne(fs, If(s.cond, Stepped(v, s.thn)), env, w);
    if !Spent(w) {
      EvalNeverContinues(fs, s.cond, env, Burn(w));
      SteppedBlock(fs, v, s.thn, env, Eval(fs, s.cond, env, Burn(w)).world);
    }
  }

  lemma {:induction false} SteppedIfElse(fs: Funcs, v: string, s: Stmt, env: Env, w: World)
    requires TableHoldsContinue(fs) && v in env && s.IfElse?
    ensures StepsFirst(v, Exec(fs, s, env, w), ExecBlock(fs, SteppedStmt(v, s), env, w))
    decreases s, 0
  {
    BlockOfOne(fs, IfElse(s.cond, Stepped(v, s.thn), Stepped(v, s.els)), env, w);
    if !Spent(w) {
      EvalNeverContinues(fs, s.cond, env, Burn(w));
      SteppedBlock(fs, v, s.thn, env, Eval(fs, s.cond, env, Burn(w)).world);
      SteppedBlock(fs, v, s.els, env, Eval(fs, s.cond, env, Burn(w)).world);
    }
  }

  // ----- for and while -----

  ghost predicate SameEnd(a: ExecOut, b: ExecOut) {
    a.flow == b.flow && a.env == b.env && a.world.globals == b.world.globals
  }

  function Counted(v: string, cond: Expr, body: seq<Stmt>): Loop {
    Loop(cond, body, StepVar(v))
  }

  function Written(v: string, cond: Expr, body: seq<Stmt>): Loop {
    Loop(cond, body + [Increment(v)], NoStep)
  }

  /** How a round of the stepped `while` loop `l` ends (`r`) when the plain body ended in `b`: a body that
      goes on pays four units for the step. */
  ghost predicate RoundPays(fs: Funcs, v: string, l: Loop, b: ExecOut, r: ExecOut) {
    && v in b.env
    && if b.flow == Raise(BreakSig) then r == ExecOut(Next, b.env, b.world)
       else if !GoesOn(b.flow) then r == b
       else GoesOnPays(fs, l, Step(StepVar(v), b.env, b.world), r)
  }

  ghost predicate GoesOnPays(fs: Funcs, l: Loop, s: ExecOut, r: ExecOut) {
    if s.flow.Raise? then SameEnd(r, s) || (r.flow == Raise(OutOfFuel) && s.world.fuel <= 4)
    else if s.world.fuel <= 4 then r.flow == Raise(OutOfFuel)
    else r == Iterate(fs, l, s.env, World(s.world.globals, s.world.fuel - 4))
  }

  lemma {:induction false} WrittenRound(fs: Funcs, v: string, cond: Expr, body: seq<Stmt>, env: Env, w: World)
    requires TableHoldsContinue(fs) && v in env && !Spent(w)
    ensures var l := Written(v, cond, Stepped(v, body));
            RoundPays(fs, v, l, ExecBlock(fs, body, env, Burn(w)), Round(fs, l, env, w))
  {
    var l := Written(v, cond, Stepped(v, body));
    var b, q := ExecBlock(fs, body, env, Burn(w)), ExecBlock(fs, Stepped(v, body), env, Burn(w));
    SteppedBlock(fs, v, body, env, Burn(w));
    BodyThenIncrement(fs, v, Stepped(v, body), env, Burn(w));
    if b.flow.Next? { IncrementIsStep(fs, v, b.env, b.world); }
    RoundOf(fs, v, l, b, q, ExecBlock(fs, l.body, env, Burn(w)));
  }

  /** From the end of the body to the end of the round. */
  lemma {:induction false} RoundOf(fs: Funcs, v: string, l: Loop, b: ExecOut, q: ExecOut, e: ExecOut)
    requires l.header == NoStep && StepsFirst(v, b, q)
    requires q.flow.Raise? ==> e == q
    requires q.flow.Next? ==>
               if b.world.fuel <= 4 then e.flow == Raise(OutOfFuel)
               else e == Step(StepVar(v), b.env, World(b.world.globals, b.world.fuel - 4))
    ensures RoundPays(fs, v, l, b, AfterBody(fs, l, e))
  {
    var s := Step(StepVar(v), b.env, b.world);
    assert Step(NoStep, e.env, e.world) == ExecOut(Next, e.env, e.world);
    assert s.flow.Raise? ==> s.flow != Raise(ContinueSig) && s.flow != Raise(BreakSig);
  }

  lemma {:induction false} CountedInWritten(
    fs: Funcs, v: string, cond: Expr, body: seq<Stmt>, env: Env, w: World, g: nat)
    requires TableHoldsContinue(fs) && v in env
    requires Iterate(fs, Counted(v, cond, body), env, w).flow != Raise(OutOfFuel)
    requires g >= 5 * w.fuel
    ensures SameEnd(Iterate(fs, Counted(v, cond, body), env, w),
                    Iterate(fs, Written(v, cond, Stepped(v, body)), env, World(w.globals, g)))
    decreases w.fuel, 0
  {
    FuelEval(fs, cond, env, w, g - w.fuel);
    var c := Eval(fs, cond, env, w);
    if c.res.Val? && Truthy(c.res.value) {
      CountedRoundInWritten(fs, v, cond, body, env, c.world, c.world.fuel + (g - w.fuel));
    }
  }

  lemma {:induction false} CountedRoundInWritten(
    fs: Funcs, v: string, cond: Expr, body: seq<Stmt>, env: Env, w: World, g: nat)
    requires TableHoldsContinue(fs) && v in env
    requires Round(fs, Counted(v, cond, body), env, w).flow != Raise(OutOfFuel)
    requires g >= 5 * w.fuel
    ensures SameEnd(Round(fs, Counted(v, cond, body), env, w),
                    Round(fs, Written(v, cond, Stepped(v, body)), env, World(w.globals, g)))
    decreases w.fuel, 1
  {
    var k := g - w.fuel;
    WrittenRound(fs, v, cond, body, env, More(w, k));
    assert Burn(More(w, k)) == More(Burn(w), k);
    FuelBlock(fs, body, env, Burn(w), k);
    var b := ExecBlock(fs, body, env, Burn(w));
    SettleCounted(fs, v, cond, body, b, Round(fs, Written(v, cond, Stepped(v, body)), env, More(w, k)), k);
  }

  lemma {:induction false} SettleCounted(
    fs: Funcs, v: string, cond: Expr, body: seq<Stmt>, b: ExecOut, r: ExecOut, k: nat)
    requires TableHoldsContinue(fs) && k > 4 * b.world.fuel + 3 && b.world.fuel + k > 4
    requires RoundPays(fs, v, Written(v, cond, Stepped(v, body)), MoreOut(b, k), r)
    requires AfterBody(fs, Counted(v, cond, body), b).flow != Raise(OutOfFuel)
    ensures SameEnd(AfterBody(fs, Counted(v, cond, body), b), r)
    decreases b.world.fuel, 2
  {
    if GoesOn(b.flow) {
      StepKeeps(v, b.env, b.world, k);
      var s := Step(StepVar(v), b.env, b.world);
      if s.flow.Next? { CountedInWritten(fs, v, cond, body, s.env, s.world, b.world.fuel + k - 4); }
    }
  }

  /** The step does not look at the fuel, and the counter stays declared. */
  lemma {:induction false} StepKeeps(v: string, env: Env, w: World, k: nat)
    requires v in env
    ensures Step(StepVar(v), env, More(w, k)) == MoreOut(Step(StepVar(v), env, w), k)
    ensures v in Step(StepVar(v), env, w).env
  {
  }

  lemma {:induction false} WrittenInCounted(
    fs: Funcs, v: string, cond: Expr, body: seq<Stmt>, env: Env, w: World, g: nat)
    requires TableHoldsContinue(fs) && v in env
    requires Iterate(fs, Written(v, cond, Stepped(v, body)), env, w).flow != Raise(OutOfFuel)
    requires g >= w.fuel
    ensures SameEnd(Iterate(fs, Written(v, cond, Stepped(v, body)), env, w),
                    Iterate(fs, Counted(v, cond, body), env, World(w.globals, g)))
    decreases w.fuel, 0
  {
    FuelEval(fs, cond, env, w, g - w.fuel);
    var c := Eval(fs, cond, env, w);
    if c.res.Val? && Truthy(c.res.value) {
      WrittenRoundInCounted(fs, v, cond, body, env, c.world, c.world.fuel + (g - w.fuel));
    }
  }

  lemma {:induction false} WrittenRoundInCounted(
    fs: Funcs, v: string, cond: Expr, body: seq<Stmt>, env: Env, w: World, g: nat)
    requires TableHoldsContinue(fs) && v in env
    requires Round(fs, Written(v, cond, Stepped(v, body)), env, w).flow != Raise(OutOfFuel)
    requires g >= w.fuel
    ensures SameEnd(Round(fs, Written(v, cond, Stepped(v, body)), env, w),
                    Round(fs, Counted(v, cond, body), env, World(w.globals, g)))
    decreases w.fuel, 1
  {
    var k := g - w.fuel;
    WrittenRound(fs, v, cond, body, env, w);
    var b := ExecBlock(fs, body, env, Burn(w));
    assert Burn(More(w, k)) == More(Burn(w), k);
    FuelBlock(fs, body, env, Burn(w), k);
    SettleWritten(fs, v, cond, body, b, Round(fs, Written(v, cond, Stepped(v, body)), env, w), k);
  }

  lemma {:induction false} SettleWritten(
    fs: Funcs, v: string, cond: Expr, body: seq<Stmt>, b: ExecOut, r: ExecOut, k: nat)
    requires TableHoldsContinue(fs) && r.flow != Raise(OutOfFuel)
    requires RoundPays(fs, v, Written(v, cond, Stepped(v, body)), b, r)
    ensures SameEnd(r, AfterBody(fs, Counted(v, cond, body), MoreOut(b, k)))
    decreases b.world.fuel, 2
  {
    if GoesOn(b.flow) {
      StepKeeps(v, b.env, b.world, k);
      var s := Step(StepVar(v), b.env, b.world);
      if s.flow.Next? {
        WrittenInCounted(fs, v, cond, body, s.env, World(s.world.globals, s.world.fuel - 4), b.world.fuel + k);
      }
    }
  }

  // ----- entering a lowered loop -----

  function Zeroed(v: string, env: Env): Env {
    env[v := IntV(0)]
  }

  lemma {:induction false} EnterFor(fs: Funcs, v: string, bound: Expr, body: seq<Stmt>, env: Env, w: World)
    requires w.fuel > 3
    ensures ExecBlock(fs, MakeLoop(ForLoop, v, bound, body), env, w) ==
            Iterate(fs, Counted(v, Below(v, bound), body), Zeroed(v, env), World(w.globals, w.fuel - 1))
  {
    BlockOfOne(fs, For(v, 0, Below(v, bound), body), env, w);
  }

  lemma {:induction false} EnterDeclared(fs: Funcs, v: string, s: Stmt, env: Env, w: World)
    requires w.fuel > 2
    ensures ExecBlock(fs, [Decl(v, Lit(0)), s], env, w) ==
            Exec(fs, s, Zeroed(v, env), World(w.globals, w.fuel - 2))
  {
    var w2 := World(w.globals, w.fuel - 2);
    assert Eval(fs, Lit(0), env, Burn(w)) == EvalOut(Val(IntV(0)), w2);
    assert Exec(fs, Decl(v, Lit(0)), env, w) == ExecOut(Next, Zeroed(v, env), w2);
    assert [Decl(v, Lit(0)), s][1..] == [s];
    BlockOfOne(fs, s, Zeroed(v, env), w2);
  }

  lemma {:induction false} EnterWhile(fs: Funcs, v: string, bound: Expr, body: seq<Stmt>, env: Env, w: World)
    requires w.fuel > 3
    ensures ExecBlock(fs, MakeLoop(WhileLoop, v, bound, body), env, w) ==
            Iterate(fs, Written(v, Below(v, bound), body), Zeroed(v, env), World(w.globals, w.fuel - 3))
    ensures ExecBlock(fs, MakeLoop(DoWhileLoop, v, bound, body), env, w) ==
            Round(fs, Written(v, Below(v, bound), body), Zeroed(v, env), World(w.globals, w.fuel - 3))
  {
    EnterDeclared(fs, v, While(Below(v, bound), body + [Increment(v)]), env, w);
    EnterDeclared(fs, v, DoWhile(body + [Increment(v)], Below(v, bound)), env, w);
  }

  /** A lowered loop on three units of fuel or less never gets past its first test. */
  lemma {:induction false} TooLittleFuel(
    fs: Funcs, kind: LoopKind, v: string, bound: Expr, body: seq<Stmt>, env: Env, w: World)
    requires w.fuel <= 3
    ensures ExecBlock(fs, MakeLoop(kind, v, bound, body), env, w).flow == Raise(OutOfFuel)
  {
    if kind.ForLoop? {
      BlockOfOne(fs, For(v, 0, Below(v, bound), body), env, w);
      var w1 := Burn(w);
      assert Eval(fs, Below(v, bound), Zeroed(v, env), w1).res == Raised(OutOfFuel);
    } else if w.fuel == 3 {
      EnterDeclared(fs, v, MakeLoop(kind, v, bound, body)[1], env, w);
    } else {
      assert Exec(fs, Decl(v, Lit(0)), env, w).flow == Raise(OutOfFuel);
    }
  }

  // ----- for and while agree -----

  /** Whatever the `for` does, the stepped `while` does on five times the fuel. */
  lemma {:induction false} ForRunsAsWhile(
    fs: Funcs, v: string, bound: Expr, body: seq<Stmt>, env: Env, w: World, g: nat)
    requires TableHoldsContinue(fs)
    requires ExecBlock(fs, MakeLoop(ForLoop, v, bound, body), env, w).flow != Raise(OutOfFuel)
    requires g >= 5 * w.fuel
    ensures SameEnd(ExecBlock(fs, MakeLoop(ForLoop, v, bound, body), env, w),
                    ExecBlock(fs, MakeLoop(WhileLoop, v, bound, Stepped(v, body)), env, World(w.globals, g)))
  {
    if w.fuel <= 3 {
      TooLittleFuel(fs, ForLoop, v, bound, body, env, w);
    } else {
      EnterFor(fs, v, bound, body, env, w);
      EnterWhile(fs, v, bound, Stepped(v, body), env, World(w.globals, g));
      CountedInWritten(fs, v, Below(v, bound), body, Zeroed(v, env), World(w.globals, w.fuel - 1), g - 3);
    }
  }

  /** Whatever the stepped `while` does, the `for` does on no more fuel. */
  lemma {:induction false} WhileRunsAsFor(
    fs: Funcs, v: string, bound: Expr, body: seq<Stmt>, env: Env, w: World, g: nat)
    requires TableHoldsContinue(fs)
    requires ExecBlock(fs, MakeLoop(WhileLoop, v, bound, Stepped(v, body)), env, w).flow != Raise(OutOfFuel)
    requires g >= w.fuel
    ensures SameEnd(ExecBlock(fs, MakeLoop(WhileLoop, v, bound, Stepped(v, body)), env, w),
                    ExecBlock(fs, MakeLoop(ForLoop, v, bound, body), env, World(w.globals, g)))
  {
    if w.fuel <= 3 {
      TooLittleFuel(fs, WhileLoop, v, bound, Stepped(v, body), env, w);
    } else {
      EnterWhile(fs, v, bound, Stepped(v, body), env, w);
      EnterFor(fs, v, bound, body, env, World(w.globals, g));
      WrittenInCounted(fs, v, Below(v, bound), body, Zeroed(v, env), World(w.globals, w.fuel - 3), g - 1);
    }
  }

  // ----- do-while agrees when its first test would have held -----

  predicate CallFree(e: Expr) {
    match e
    case Var(_) => true
    case Lit(_) => true
    case Bin(_, lhs, rhs) => CallFree(lhs) && CallFree(rhs)
    case Tern(cond, thn, els) => CallFree(cond) && CallFree(thn) && CallFree(els)
    case Call(_, _) => false
  }

  function Nodes(e: Expr): nat {
    match e
    case Var(_) => 1
    case Lit(_) => 1
    case Bin(_, lhs, rhs) => 1 + Nodes(lhs) + Nodes(rhs)
    case Tern(cond, thn, els) => 1 + Nodes(cond) + Nodes(thn) + Nodes(els)
    case Call(_, _) => 1
  }

  ghost predicate Pure(r: EvalOut, w: World, cost: nat) {
    r.res != Raised(OutOfFuel) && r.world.globals == w.globals && r.world.fuel + cost >= w.fuel
  }

  /** A call-free expression changes no global and spends at most one unit of fuel per node. */
  lemma {:induction false} CallFreeIsPure(fs: Funcs, e: Expr, env: Env, w: World)
    requires CallFree(e) && w.fuel > Nodes(e)
    ensures Pure(Eval(fs, e, env, w), w, Nodes(e))
    decreases e, 1
  {
    match e
    case Var(_) =>
    case Lit(_) =>
    case Tern(cond, thn, els) =>
      CallFreeIsPure(fs, cond, env, Burn(w));
      var c := Eval(fs, cond, env, Burn(w));
      if c.res.Val? {
        if Truthy(c.res.value) { CallFreeIsPure(fs, thn, env, c.world); }
        else { CallFreeIsPure(fs, els, env, c.world); }
      }
    case Bin(_, _, _) => CallFreeBinIsPure(fs, e, env, w);
  }

  lemma {:induction false} CallFreeBinIsPure(fs: Funcs, e: Expr, env: Env, w: World)
    requires e.Bin? && CallFree(e) && w.fuel > Nodes(e)
    ensures Pure(Eval(fs, e, env, w), w, Nodes(e))
    decreases e, 0
  {
    CallFreeIsPure(fs, e.lhs, env, Burn(w));
    var a := Eval(fs, e.lhs, env, Burn(w));
    if a.res.Val? { CallFreeIsPure(fs, e.rhs, env, a.world); }
  }

  /** `0 < bound` holds where the loop starts. */
  ghost predicate FirstTestHolds(fs: Funcs, v: string, bound: Expr, env: Env, globals: Env) {
    var e := Below(v, bound);
    var r := Eval(fs, e, Zeroed(v, env), World(globals, Nodes(e) + 1)).res;
    r.Val? && Truthy(r.value)
  }

  /** With the first test known to hold, testing first only costs its fuel. */
  lemma {:induction false} TestFirst(fs: Funcs, v: string, bound: Expr, body: seq<Stmt>, env: Env, w: World) returns (c: nat)
    requires CallFree(bound) && FirstTestHolds(fs, v, bound, env, w.globals)
    requires w.fuel > Nodes(Below(v, bound))
    ensures c <= Nodes(Below(v, bound))
    ensures Iterate(fs, Written(v, Below(v, bound), body), Zeroed(v, env), w) ==
            Round(fs, Written(v, Below(v, bound), body), Zeroed(v, env), World(w.globals, w.fuel - c))
  {
    var e := Below(v, bound);
    var least := World(w.globals, Nodes(e) + 1);
    FuelEval(fs, e, Zeroed(v, env), least, w.fuel - least.fuel);
    CallFreeIsPure(fs, e, Zeroed(v, env), w);
    c := w.fuel - Eval(fs, e, Zeroed(v, env), w).world.fuel;
  }

  lemma {:induction false} DoWhileRunsAsWhile(
    fs: Funcs, v: string, bound: Expr, body: seq<Stmt>, env: Env, w: World, g: nat)
    requires CallFree(bound) && FirstTestHolds(fs, v, bound, env, w.globals)
    requires ExecBlock(fs, MakeLoop(DoWhileLoop, v, bound, body), env, w).flow != Raise(OutOfFuel)
    requires g >= w.fuel + Nodes(Below(v, bound))
    ensures SameEnd(ExecBlock(fs, MakeLoop(DoWhileLoop, v, bound, body), env, w),
                    ExecBlock(fs, MakeLoop(WhileLoop, v, bound, body), env, World(w.globals, g)))
  {
    if w.fuel <= 3 {
      TooLittleFuel(fs, DoWhileLoop, v, bound, body, env, w);
    } else {
      EnterWhile(fs, v, bound, body, env, w);
      EnterWhile(fs, v, bound, body, env, World(w.globals, g));
      var c := TestFirst(fs, v, bound, body, env, World(w.globals, g - 3));
      var w3 := World(w.globals, w.fuel - 3);
      FuelRound(fs, Written(v, Below(v, bound), body), Zeroed(v, env), w3, g - c - w.fuel);
    }
  }

  lemma {:induction false} TestDropped(
    fs: Funcs, v: string, bound: Expr, body: seq<Stmt>, env: Env, w: World, k: nat)
    requires CallFree(bound) && FirstTestHolds(fs, v, bound, env, w.globals)
    requires k >= Nodes(Below(v, bound))
    requires Iterate(fs, Written(v, Below(v, bound), body), Zeroed(v, env), w).flow != Raise(OutOfFuel)
    ensures SameEnd(Iterate(fs, Written(v, Below(v, bound), body), Zeroed(v, env), w),
                    Round(fs, Written(v, Below(v, bound), body), Zeroed(v, env), More(w, k)))
  {
    var l := Written(v, Below(v, bound), body);
    FuelIterate(fs, l, Zeroed(v, env), w, k);
    var c := TestFirst(fs, v, bound, body, env, More(w, k));
    FuelRound(fs, l, Zeroed(v, env), World(w.globals, w.fuel + k - c), c);
  }

  lemma {:induction false} WhileRunsAsDoWhile(
    fs: Funcs, v: string, bound: Expr, body: seq<Stmt>, env: Env, w: World, g: nat)
    requires CallFree(bound) && FirstTestHolds(fs, v, bound, env, w.globals)
    requires ExecBlock(fs, MakeLoop(WhileLoop, v, bound, body), env, w).flow != Raise(OutOfFuel)
    requires g >= w.fuel + Nodes(Below(v, bound))
    ensures SameEnd(ExecBlock(fs, MakeLoop(WhileLoop, v, bound, body), env, w),
                    ExecBlock(fs, MakeLoop(DoWhileLoop, v, bound, body), env, World(w.globals, g)))
  {
    if w.fuel <= 3 {
      TooLittleFuel(fs, WhileLoop, v, bound, body, env, w);
    } else {
      var w3 := World(w.globals, w.fuel - 3);
      EnterWhile(fs, v, bound, body, env, w);
      EnterWhile(fs, v, bound, body, env, World(w.globals, g));
      TestDropped(fs, v, bound, body, env, w3, g - w.fuel);
    }
  }

  // ----- the theorem without fuel -----

  /** With some amount of fuel, `stmts` ends in `flow` with these variables and globals. */
  ghost predicate EndsIn(
    fs: Funcs, stmts: seq<Stmt>, env: Env, globals: Env, flow: Flow, env': Env, globals': Env) {
    && flow != Raise(OutOfFuel)
    && exists fuel: nat ::
         var r := ExecBlock(fs, stmts, env, World(globals, fuel));
         r.flow == flow && r.env == env' && r.world.globals == globals'
  }

  /** For every body, `continue` included: the `for` ends exactly as the `while` whose own continues are
      each preceded by the increment. */
  lemma {:induction false} ForEndsAsSteppedWhile(
    fs: Funcs, v: string, bound: Expr, body: seq<Stmt>, env: Env, globals: Env,
    flow: Flow, env': Env, globals': Env)
    requires TableHoldsContinue(fs)
    ensures EndsIn(fs, MakeLoop(ForLoop, v, bound, body), env, globals, flow, env', globals') <==>
            EndsIn(fs, MakeLoop(WhileLoop, v, bound, Stepped(v, body)), env, globals, flow, env', globals')
  {
    var a, b := MakeLoop(ForLoop, v, bound, body), MakeLoop(WhileLoop, v, bound, Stepped(v, body));
    if EndsIn(fs, a, env, globals, flow, env', globals') {
      var fuel: nat :| var r := ExecBlock(fs, a, env, World(globals, fuel));
                       r.flow == flow && r.env == env' && r.world.globals == globals';
      ForRunsAsWhile(fs, v, bound, body, env, World(globals, fuel), 5 * fuel);
    }
    if EndsIn(fs, b, env, globals, flow, env', globals') {
      var fuel: nat :| var r := ExecBlock(fs, b, env, World(globals, fuel));
                       r.flow == flow && r.env == env' && r.world.globals == globals';
      WhileRunsAsFor(fs, v, bound, body, env, World(globals, fuel), fuel);
    }
  }

  /** The three forms agree on every body without a `continue` of its own. */
  lemma {:induction false} LoopKindsAgree(
    fs: Funcs, v: string, bound: Expr, body: seq<Stmt>, env: Env, globals: Env,
    flow: Flow, env': Env, globals': Env)
    requires TableHoldsContinue(fs) && Scoped(body, true, false)
    ensures EndsIn(fs, MakeLoop(ForLoop, v, bound, body), env, globals, flow, env', globals') <==>
            EndsIn(fs, MakeLoop(WhileLoop, v, bound, body), env, globals, flow, env', globals')
    ensures CallFree(bound) && FirstTestHolds(fs, v, bound, env, globals) ==>
              (EndsIn(fs, MakeLoop(DoWhileLoop, v, bound, body), env, globals, flow, env', globals') <==>
               EndsIn(fs, MakeLoop(WhileLoop, v, bound, body), env, globals, flow, env', globals'))
  {
    SteppedIsSame(v, body);
    ForEndsAsSteppedWhile(fs, v, bound, body, env, globals, flow, env', globals');
    if CallFree(bound) && FirstTestHolds(fs, v, bound, env, globals) {
      DoWhileAndWhileEndAlike(fs, v, bound, body, env, globals, flow, env', globals');
    }
  }

  lemma {:induction false} DoWhileAndWhileEndAlike(
    fs: Funcs, v: string, bound: Expr, body: seq<Stmt>, env: Env, globals: Env,
    flow: Flow, env': Env, globals': Env)
    requires CallFree(bound) && FirstTestHolds(fs, v, bound, env, globals)
    ensures EndsIn(fs, MakeLoop(DoWhileLoop, v, bound, body), env, globals, flow, env', globals') <==>
            EndsIn(fs, MakeLoop(WhileLoop, v, bound, body), env, globals, flow, env', globals')
  {
    var a, b := MakeLoop(DoWhileLoop, v, bound, body), MakeLoop(WhileLoop, v, bound, body);
    var n := Nodes(Below(v, bound));
    if EndsIn(fs, a, env, globals, flow, env', globals') {
      var fuel: nat :| var r := ExecBlock(fs, a, env, World(globals, fuel));
                       r.flow == flow && r.env == env' && r.world.globals == globals';
      DoWhileRunsAsWhile(fs, v, bound, body, env, World(globals, fuel), fuel + n);
    }
    if EndsIn(fs, b, env, globals, flow, env', globals') {
      var fuel: nat :| var r := ExecBlock(fs, b, env, World(globals, fuel));
                       r.flow == flow && r.env == env' && r.world.globals == globals';
      WhileRunsAsDoWhile(fs, v, bound, body, env, World(globals, fuel), fuel + n);
    }
  }

  // ----- why a continue must not skip the increment -----

  /** The block does nothing but continue, for `cost` units of fuel. */
  ghost predicate JustContinues(fs: Funcs, body: seq<Stmt>, cost: nat) {
    forall env: Env, w: World :: ContinuesAt(fs, body, cost, env, w)
  }

  ghost predicate ContinuesAt(fs: Funcs, body: seq<Stmt>, cost: nat, env: Env, w: World) {
    var r := ExecBlock(fs, body, env, w);
    if w.fuel <= cost then r.flow == Raise(OutOfFuel)
    else r == ExecOut(Raise(ContinueSig), env, World(w.globals, w.fuel - cost))
  }

  lemma {:induction false} SkippedIncrementLoopsForever(
    fs: Funcs, v: string, body: seq<Stmt>, cost: nat, env: Env, w: World)
    requires JustContinues(fs, body, cost) && v in env && env[v] == IntV(0)
    ensures Iterate(fs, Written(v, Below(v, Lit(1)), body), env, w).flow == Raise(OutOfFuel)
    decreases w.fuel
  {
    var l := Written(v, Below(v, Lit(1)), body);
    TestOfCounter(fs, v, 1, env, w);
    var c := Eval(fs, l.cond, env, w);
    if c.res != Raised(OutOfFuel) && !Spent(c.world) {
      var w1 := Burn(c.world);
      assert ContinuesAt(fs, body, cost, env, w1);
      BodyThenIncrement(fs, v, body, env, w1);
      var b := ExecBlock(fs, l.body, env, w1);
      assert Step(NoStep, b.env, b.world) == ExecOut(Next, b.env, b.world);
      assert Round(fs, l, env, c.world) == AfterBody(fs, l, b);
      if b.flow == Raise(ContinueSig) { SkippedIncrementLoopsForever(fs, v, body, cost, b.env, b.world); }
    }
  }

  /** The test `v < n` of a counter holding an integer: three units of fuel and no effect. */
  lemma {:induction false} TestOfCounter(fs: Funcs, v: string, n: int, env: Env, w: World)
    requires v in env && env[v].IntV?
    ensures w.fuel <= 3 ==> Eval(fs, Below(v, Lit(n)), env, w).res == Raised(OutOfFuel)
    ensures w.fuel > 3 ==> Eval(fs, Below(v, Lit(n)), env, w) ==
                           EvalOut(Val(BoolV(env[v].n < n)), World(w.globals, w.fuel - 3))
  {
    if w.fuel > 1 {
      var a := Eval(fs, Var(v), env, Burn(w));
      if w.fuel > 2 {
        assert a == EvalOut(Val(env[v]), Burn(Burn(w)));
        var b := Eval(fs, Lit(n), env, a.world);
      }
    }
  }

  lemma {:induction false} ContinueInForEnds(fs: Funcs, v: string, body: seq<Stmt>, cost: nat, env: Env, globals: Env)
    requires JustContinues(fs, body, cost)
    ensures ExecBlock(fs, MakeLoop(ForLoop, v, Lit(1), body), env, World(globals, cost + 20)) ==
            ExecOut(Next, env[v := IntV(1)], World(globals, 12))
  {
    var env0, env1 := Zeroed(v, env), env[v := IntV(1)];
    var l := Counted(v, Below(v, Lit(1)), body);
    EnterFor(fs, v, Lit(1), body, env, World(globals, cost + 20));
    TestOfCounter(fs, v, 1, env0, World(globals, cost + 19));
    ContinuingRound(fs, v, body, cost, env, globals);
    TestOfCounter(fs, v, 1, env1, World(globals, 15));
  }

  lemma {:induction false} ContinuingRound(fs: Funcs, v: string, body: seq<Stmt>, cost: nat, env: Env, globals: Env)
    requires JustContinues(fs, body, cost)
    ensures var l := Counted(v, Below(v, Lit(1)), body);
            Round(fs, l, Zeroed(v, env), World(globals, cost + 16)) == Iterate(fs, l, env[v := IntV(1)], World(globals, 15))
  {
    assert ContinuesAt(fs, body, cost, Zeroed(v, env), World(globals, cost + 15));
    assert Step(StepVar(v), Zeroed(v, env), World(globals, 15)) == ExecOut(Next, env[v := IntV(1)], World(globals, 15)) by {
      assert Zeroed(v, env)[v := IntV(1)] == env[v := IntV(1)];
    }
  }

  /** The `for` ends after one round and the `while` never does. */
  ghost predicate Separates(fs: Funcs, v: string, body: seq<Stmt>, env: Env, globals: Env) {
    && EndsIn(fs, MakeLoop(ForLoop, v, Lit(1), body), env, globals, Next, env[v := IntV(1)], globals)
    && forall fuel: nat ::
         ExecBlock(fs, MakeLoop(WhileLoop, v, Lit(1), body), env, World(globals, fuel)).flow == Raise(OutOfFuel)
  }

  lemma {:induction false} ContinuingSeparates(
    fs: Funcs, v: string, body: seq<Stmt>, cost: nat, env: Env, globals: Env)
    requires JustContinues(fs, body, cost)
    ensures Separates(fs, v, body, env, globals)
  {
    ContinueInForEnds(fs, v, body, cost, env, globals);
    forall fuel: nat
      ensures ExecBlock(fs, MakeLoop(WhileLoop, v, Lit(1), body), env, World(globals, fuel)).flow == Raise(OutOfFuel)
    {
      if fuel <= 3 {
        TooLittleFuel(fs, WhileLoop, v, Lit(1), body, env, World(globals, fuel));
      } else {
        EnterWhile(fs, v, Lit(1), body, env, World(globals, fuel));
        SkippedIncrementLoopsForever(fs, v, body, cost, Zeroed(v, env), World(globals, fuel - 3));
      }
    }
  }

  /** With a body that is `continue` alone, the increment of the `while` is skipped. The condition on the
      body cannot be dropped. */
  lemma {:induction false} ContinueSeparatesForFromWhile(fs: Funcs, v: string, env: Env, globals: Env)
    ensures Separates(fs, v, [Continue], env, globals)
  {
    forall e: Env, w: World ensures ContinuesAt(fs, [Continue], 1, e, w) { BlockOfOne(fs, Continue, e, w); }
    ContinuingSeparates(fs, v, [Continue], 1, env, globals);
  }

  /** A function that lets a `continue` escape, and a body that only calls it. */
  function Escaping(name: string): Funcs {
    map[name := FuncDef("int", name, [], [Continue])]
  }

  function CallOnly(name: string): seq<Stmt> {
    [Decl("x", Call(name, []))]
  }

  lemma {:induction false} EscapeContinues(name: string, env: Env, w: World)
    ensures ContinuesAt(Escaping(name), CallOnly(name), 3, env, w)
  {
    var fs := Escaping(name);
    BlockOfOne(fs, CallOnly(name)[0], env, w);
    if w.fuel > 2 {
      var w2 := Burn(Burn(w));
      assert EvalArgs(fs, [], env, w2) == ArgsOut(Next, [], w2);
      BlockOfOne(fs, Continue, Bind([], []), w2);
      assert Invoke(fs, name, [], w2).res == if w.fuel > 3 then Raised(ContinueSig) else Raised(OutOfFuel);
    }
  }

  /** A `continue` that escapes a function separates the forms as well, though the body has none of its
      own: the stepped body is the same. The condition on the functions cannot be dropped either. */
  lemma {:induction false} EscapingContinueSeparates(name: string, v: string, env: Env, globals: Env)
    ensures Stepped(v, CallOnly(name)) == CallOnly(name)
    ensures Separates(Escaping(name), v, CallOnly(name), env, globals)
  {
    SteppedIsSame(v, CallOnly(name));
    forall e: Env, w: World ensures ContinuesAt(Escaping(name), CallOnly(name), 3, e, w) { EscapeContinues(name, e, w); }
    ContinuingSeparates(Escaping(name), v, CallOnly(name), 3, env, globals);
  }
}
