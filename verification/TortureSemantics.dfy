/** What the reference interpreter computes, as functions.

    The interpreter's exceptions are values here (`Signal`), and every function returns the state it
    leaves behind, also when a signal is raised. A signal raised inside a callee other than a return
    crosses the call: the interpreter catches break and continue only around a loop body.

    Fuel is spent before every expression, statement and loop round. The interpreter starts with a
    positive amount and stops as soon as a decrement reaches zero, so a natural number suffices. */
module TortureSemantics {
  import opened TortureAst

  const I32_MIN: int := -0x8000_0000
  const I32_MAX: int := 0x7fff_ffff
  const FUEL: nat := 100_000

  datatype Value = IntV(n: int) | BoolV(b: bool)

  datatype Fault =
    Overflow | UndeclaredStore | UnboundVariable | UnknownFunction | ArityMismatch | FellOffEnd

  datatype Signal = BreakSig | ContinueSig | ReturnSig(value: Value) | Failed(fault: Fault) | OutOfFuel

  datatype EvalResult = Val(value: Value) | Raised(sig: Signal)

  datatype Flow = Next | Raise(sig: Signal)

  type Env = map<string, Value>

  type Funcs = map<string, FuncDef>

  datatype World = World(globals: Env, fuel: nat)

  datatype EvalOut = EvalOut(res: EvalResult, world: World)

  datatype ArgsOut = ArgsOut(flow: Flow, vals: seq<Value>, world: World)

  datatype ExecOut = ExecOut(flow: Flow, env: Env, world: World)

  /** A loop between rounds: `step` is the header variable of a `for`. */
  datatype Header = NoStep | StepVar(name: string)

  datatype Loop = Loop(cond: Expr, body: seq<Stmt>, header: Header)

  // ----- values -----

  predicate Truthy(v: Value) {
    match v
    case IntV(n) => n != 0
    case BoolV(b) => b
  }

  /** A boolean counts as 0 or 1 in arithmetic and in comparisons. */
  function AsInt(v: Value): int {
    match v
    case IntV(n) => n
    case BoolV(b) => if b then 1 else 0
  }

  function CheckI32(n: int): EvalResult {
    if I32_MIN <= n <= I32_MAX then Val(IntV(n)) else Raised(Failed(Overflow))
  }

  function Arith(op: BinOp, a: int, b: int): EvalResult
    requires !op.And? && !op.Or?
  {
    match op
    case Add => CheckI32(a + b)
    case Sub => CheckI32(a - b)
    case Mul => CheckI32(a * b)
    case Lt => Val(BoolV(a < b))
    case Le => Val(BoolV(a <= b))
    case Gt => Val(BoolV(a > b))
    case Ge => Val(BoolV(a >= b))
    case Eq => Val(BoolV(a == b))
    case Ne => Val(BoolV(a != b))
  }

  // ----- fuel and variables -----

  predicate Spent(w: World) {
    w.fuel <= 1
  }

  function Burn(w: World): (r: World) {
    if w.fuel == 0 then w else World(w.globals, w.fuel - 1)
  }

  function Lookup(name: string, env: Env, globals: Env): EvalResult {
    if name in env then Val(env[name])
    else if name in globals then Val(globals[name])
    else Raised(Failed(UnboundVariable))
  }

  function Assign(name: string, v: Value, env: Env, w: World): ExecOut {
    if name in env then ExecOut(Next, env[name := v], w)
    else if name in w.globals then ExecOut(Next, env, World(w.globals[name := v], w.fuel))
    else ExecOut(Raise(Failed(UndeclaredStore)), env, w)
  }

  /** The callee's frame; a repeated parameter name keeps the last argument. */
  function Bind(params: seq<Param>, vals: seq<Value>): Env
    requires |params| == |vals|
  {
    if params == [] then map[]
    else Bind(params[..|params| - 1], vals[..|vals| - 1])[params[|params| - 1].name := vals[|vals| - 1]]
  }

  // ----- expressions -----

  function Eval(fs: Funcs, e: Expr, env: Env, w0: World): (r: EvalOut)
    ensures r.world.fuel <= w0.fuel
    ensures r.res.Val? ==> r.world.fuel < w0.fuel
    decreases w0.fuel, 0
  {
    if Spent(w0) then EvalOut(Raised(OutOfFuel), Burn(w0)) else
    var w := Burn(w0);
    match e
    case Var(name) => EvalOut(Lookup(name, env, w.globals), w)
    case Lit(n) => EvalOut(Val(IntV(n)), w)
    case Call(name, args) =>
      var a := EvalArgs(fs, args, env, w);
      if a.flow.Raise? then EvalOut(Raised(a.flow.sig), a.world) else Invoke(fs, name, a.vals, a.world)
    case Tern(cond, thn, els) =>
      var c := Eval(fs, cond, env, w);
      if c.res.Raised? then c
      else if Truthy(c.res.value) then Eval(fs, thn, env, c.world)
      else Eval(fs, els, env, c.world)
    case Bin(op, lhs, rhs) =>
      var a := Eval(fs, lhs, env, w);
      if a.res.Raised? then a
      else if op.And? && !Truthy(a.res.value) then EvalOut(Val(BoolV(false)), a.world)
      else if op.Or? && Truthy(a.res.value) then EvalOut(Val(BoolV(true)), a.world)
      else
        var b := Eval(fs, rhs, env, a.world);
        if b.res.Raised? then b
        else if op.And? || op.Or? then EvalOut(Val(BoolV(Truthy(b.res.value))), b.world)
        else EvalOut(Arith(op, AsInt(a.res.value), AsInt(b.res.value)), b.world)
  }

  function EvalArgs(fs: Funcs, args: seq<Expr>, env: Env, w: World): (r: ArgsOut)
    ensures r.world.fuel <= w.fuel
    decreases w.fuel, 1
  {
    if args == [] then ArgsOut(Next, [], w) else
    var a := Eval(fs, args[0], env, w);
    if a.res.Raised? then ArgsOut(Raise(a.res.sig), [], a.world) else
    var rest := EvalArgs(fs, args[1..], env, a.world);
    ArgsOut(rest.flow, [a.res.value] + rest.vals, rest.world)
  }

  function Invoke(fs: Funcs, name: string, vals: seq<Value>, w: World): (r: EvalOut)
    ensures r.world.fuel <= w.fuel
    decreases w.fuel, 2
  {
    if name !in fs then EvalOut(Raised(Failed(UnknownFunction)), w)
    else if |vals| != |fs[name].params| then EvalOut(Raised(Failed(ArityMismatch)), w)
    else
      var out := ExecBlock(fs, fs[name].body, Bind(fs[name].params, vals), w);
      match out.flow
      case Next => EvalOut(Raised(Failed(FellOffEnd)), out.world)
      case Raise(sig) =>
        if sig.ReturnSig? then EvalOut(Val(sig.value), out.world) else EvalOut(Raised(sig), out.world)
  }

  // ----- statements -----

  function ExecBlock(fs: Funcs, stmts: seq<Stmt>, env: Env, w: World): (r: ExecOut)
    ensures r.world.fuel <= w.fuel
    decreases w.fuel, 1
  {
    if stmts == [] then ExecOut(Next, env, w) else
    var s := Exec(fs, stmts[0], env, w);
    if s.flow.Raise? then s else ExecBlock(fs, stmts[1..], s.env, s.world)
  }

  function Exec(fs: Funcs, s: Stmt, env: Env, w0: World): (r: ExecOut)
    ensures r.world.fuel <= w0.fuel
    ensures r.flow.Next? ==> r.world.fuel < w0.fuel
    decreases w0.fuel, 0
  {
    if Spent(w0) then ExecOut(Raise(OutOfFuel), env, Burn(w0)) else
    var w := Burn(w0);
    match s
    case Decl(name, expr) =>
      var v := Eval(fs, expr, env, w);
      if v.res.Raised? then ExecOut(Raise(v.res.sig), env, v.world)
      else ExecOut(Next, env[name := v.res.value], v.world)
    case Asn(name, expr) =>
      var v := Eval(fs, expr, env, w);
      if v.res.Raised? then ExecOut(Raise(v.res.sig), env, v.world)
      else Assign(name, v.res.value, env, v.world)
    case If(cond, thn) =>
      var c := Eval(fs, cond, env, w);
      if c.res.Raised? then ExecOut(Raise(c.res.sig), env, c.world)
      else if Truthy(c.res.value) then ExecBlock(fs, thn, env, c.world)
      else ExecOut(Next, env, c.world)
    case IfElse(cond, thn, els) =>
      var c := Eval(fs, cond, env, w);
      if c.res.Raised? then ExecOut(Raise(c.res.sig), env, c.world)
      else ExecBlock(fs, if Truthy(c.res.value) then thn else els, env, c.world)
    case For(name, start, cond, body) =>
      Iterate(fs, Loop(cond, body, StepVar(name)), env[name := IntV(start)], w)
    case While(cond, body) => Iterate(fs, Loop(cond, body, NoStep), env, w)
    case DoWhile(body, cond) => Round(fs, Loop(cond, body, NoStep), env, w)
    case Break => ExecOut(Raise(BreakSig), env, w)
    case Continue => ExecOut(Raise(ContinueSig), env, w)
    case Return(expr) =>
      var v := Eval(fs, expr, env, w);
      ExecOut(Raise(if v.res.Raised? then v.res.sig else ReturnSig(v.res.value)), env, v.world)
  }

  /** The header of a `for`: add one to its variable. */
  function Step(header: Header, env: Env, w: World): (r: ExecOut)
    ensures r.world == w
  {
    match header
    case NoStep => ExecOut(Next, env, w)
    case StepVar(name) =>
      if name !in env then ExecOut(Raise(Failed(UnboundVariable)), env, w) else
      var v := CheckI32(AsInt(env[name]) + 1);
      if v.Raised? then ExecOut(Raise(v.sig), env, w) else ExecOut(Next, env[name := v.value], w)
  }

  /** Test, then run a round. `for` and `while` start here. */
  function Iterate(fs: Funcs, l: Loop, env: Env, w: World): (r: ExecOut)
    ensures r.world.fuel <= w.fuel
    ensures r.flow.Next? ==> r.world.fuel < w.fuel
    decreases w.fuel, 2
  {
    var c := Eval(fs, l.cond, env, w);
    if c.res.Raised? then ExecOut(Raise(c.res.sig), env, c.world)
    else if !Truthy(c.res.value) then ExecOut(Next, env, c.world)
    else Round(fs, l, env, c.world)
  }

  /** Run the body once, step, and go back to the test. `do` ... `while` starts here. */
  function Round(fs: Funcs, l: Loop, env: Env, w: World): (r: ExecOut)
    ensures r.world.fuel <= w.fuel
    ensures r.flow.Next? ==> r.world.fuel < w.fuel
    decreases w.fuel, 4
  {
    if Spent(w) then ExecOut(Raise(OutOfFuel), env, Burn(w))
    else AfterBody(fs, l, ExecBlock(fs, l.body, env, Burn(w)))
  }

  predicate GoesOn(flow: Flow) {
    flow == Next || flow == Raise(ContinueSig)
  }

  /** The rest of a round once its body has ended in `b`. */
  function AfterBody(fs: Funcs, l: Loop, b: ExecOut): (r: ExecOut)
    ensures r.world.fuel <= b.world.fuel
    decreases b.world.fuel, 3
  {
    if b.flow == Raise(BreakSig) then ExecOut(Next, b.env, b.world)
    else if !GoesOn(b.flow) then b
    else
      var s := Step(l.header, b.env, b.world);
      if s.flow.Raise? then s else Iterate(fs, l, s.env, s.world)
  }

  // ----- whole runs -----

  datatype GlobalDecl = GlobalDecl(ty: string, name: string, init: int)

  function InitialGlobals(decls: seq<GlobalDecl>): Env {
    if decls == [] then map[]
    else InitialGlobals(decls[..|decls| - 1])[decls[|decls| - 1].name := IntV(decls[|decls| - 1].init)]
  }

  function Run(fs: Funcs, decls: seq<GlobalDecl>, name: string, args: seq<Value>): EvalOut {
    Invoke(fs, name, args, World(InitialGlobals(decls), FUEL))
  }
}
