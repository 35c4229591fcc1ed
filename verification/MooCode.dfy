/** The code that code_gen.cc emits, as a function of the syntax tree.  Instructions are numbered from
    zero and a label is the number of the instruction it names; MooRelocation deals with bytes. */
module MooCode {
  import opened Options
  import opened MooAst

  datatype Instr =
    | Push(slot: nat) | Put(slot: nat)
    | NumI(n: Num) | Imm(v: Value) | Pop
    | BinI(op: BinOp) | UnI(uop: UnOp)
    | AndI(lab: nat) | OrI(lab: nat) | IfQues(lab: nat) | IfI(lab: nat) | Eif(lab: nat)
    | WhileI(lab: nat) | WhileId(slot: nat, lab: nat) | Jump(lab: nat) | ForRange(slot: nat, lab: nat)
    | MakeEmptyList | MakeSingleton | CheckSplice | AddTail | AppendI
    | PushLabel(lab: nat) | CatchI | EndCatch(lab: nat)
    | TryExcept(arms: nat) | EndExcept(lab: nat)
    | TryFinally(lab: nat) | EndFinally | ContinueI
    | Exit(depth: nat, lab: nat) | ExitId(slot: nat, depth: nat, lab: nat)
    | Return | Return0 | Done

  /** Small integers have opcodes of their own; the range is that of opcode.h built with
      BYTECODE_REDUCE_REF, as options.h has it. */
  const OPTIM_NUM_LOW: int := -10
  const OPTIM_NUM_HI: int := 97

  function Literal(v: Value): Instr {
    if v.IntV? && OPTIM_NUM_LOW <= v.num <= OPTIM_NUM_HI then NumI(v.num) else Imm(v)
  }

  function Max(a: nat, b: nat): nat {
    if a > b then a else b
  }

  // ---- expressions ----

  function SizeExpr(e: Expr): nat {
    match e
    case Lit(_) => 1
    case Id(_) => 1
    case Bin(_, l, r) => SizeExpr(l) + SizeExpr(r) + 1
    case Un(_, a) => SizeExpr(a) + 1
    case And(l, r) => SizeExpr(l) + 1 + SizeExpr(r)
    case Or(l, r) => SizeExpr(l) + 1 + SizeExpr(r)
    case IfElse(c, t, f) => SizeExpr(c) + 1 + SizeExpr(t) + 1 + SizeExpr(f)
    case ListE(args) => SizeArgs(args)
    case Assign(_, r) => SizeExpr(r) + 1
    case CatchE(body, codes, except) => SizeCodes(codes) + 2 + SizeExpr(body) + 1 + SizeExcept(except)
  }

  function SizeArgs(args: Args): nat {
    match args
    case ANil => 1
    case ACons(_, e, rest) => SizeExpr(e) + 1 + SizeMore(rest)
  }

  function SizeMore(args: Args): nat {
    match args
    case ANil => 0
    case ACons(_, e, rest) => SizeExpr(e) + 1 + SizeMore(rest)
  }

  function SizeCodes(codes: Codes): nat {
    match codes
    case Any => 1
    case Only(args) => SizeArgs(args)
  }

  function SizeExcept(except: Option<Expr>): nat {
    match except
    case None => 2
    case Some(d) => 1 + SizeExpr(d)
  }

  function CodeExpr(e: Expr, pc: nat): (code: seq<Instr>)
    ensures |code| == SizeExpr(e)
    decreases e
  {
    match e
    case Lit(v) => [Literal(v)]
    case Id(slot) => [Push(slot)]
    case Bin(op, l, r) => CodeExpr(l, pc) + CodeExpr(r, pc + SizeExpr(l)) + [BinI(op)]
    case Un(op, a) => CodeExpr(a, pc) + [UnI(op)]
    case And(l, r) =>
      CodeExpr(l, pc) + [AndI(pc + SizeExpr(e))] + CodeExpr(r, pc + SizeExpr(l) + 1)
    case Or(l, r) =>
      CodeExpr(l, pc) + [OrI(pc + SizeExpr(e))] + CodeExpr(r, pc + SizeExpr(l) + 1)
    case IfElse(c, t, f) =>
      var thn := pc + SizeExpr(c) + 1;
      var els := thn + SizeExpr(t) + 1;
      CodeExpr(c, pc) + [IfQues(els)] + CodeExpr(t, thn) + [Jump(els + SizeExpr(f))] + CodeExpr(f, els)
    case ListE(args) => CodeArgs(args, pc)
    case Assign(slot, r) => CodeExpr(r, pc) + [Put(slot)]
    case CatchE(body, codes, except) =>
      var try := pc + SizeCodes(codes) + 2;
      var handler := try + SizeExpr(body) + 1;
      CodeCodes(codes, pc) + [PushLabel(handler), CatchI] + CodeExpr(body, try)
        + [EndCatch(pc + SizeExpr(e))] + CodeExcept(except, handler)
  }

  function CodeArgs(args: Args, pc: nat): (code: seq<Instr>)
    ensures |code| == SizeArgs(args)
    decreases args
  {
    match args
    case ANil => [MakeEmptyList]
    case ACons(splice, e, rest) =>
      CodeExpr(e, pc) + [if splice then CheckSplice else MakeSingleton] + CodeMore(rest, pc + SizeExpr(e) + 1)
  }

  function CodeMore(args: Args, pc: nat): (code: seq<Instr>)
    ensures |code| == SizeMore(args)
    decreases args
  {
    match args
    case ANil => []
    case ACons(splice, e, rest) =>
      CodeExpr(e, pc) + [if splice then AppendI else AddTail] + CodeMore(rest, pc + SizeExpr(e) + 1)
  }

  function CodeCodes(codes: Codes, pc: nat): (code: seq<Instr>)
    ensures |code| == SizeCodes(codes)
    decreases codes
  {
    match codes
    case Any => [NumI(0)]
    case Only(args) => CodeArgs(args, pc)
  }

  function CodeExcept(except: Option<Expr>, pc: nat): (code: seq<Instr>)
    ensures |code| == SizeExcept(except)
    decreases except
  {
    match except
    case None => [NumI(1), BinI(IndexOp)]
    case Some(d) => [Pop] + CodeExpr(d, pc + 1)
  }

  /** How far push_stack lets the stack grow above the level at which the code starts. */
  function DepthExpr(e: Expr): (d: nat)
    ensures d >= 1
  {
    match e
    case Lit(_) => 1
    case Id(_) => 1
    case Bin(_, l, r) => Max(DepthExpr(l), 1 + DepthExpr(r))
    case Un(_, a) => DepthExpr(a)
    case And(l, r) => Max(DepthExpr(l), DepthExpr(r))
    case Or(l, r) => Max(DepthExpr(l), DepthExpr(r))
    case IfElse(c, t, f) => Max(DepthExpr(c), Max(DepthExpr(t), DepthExpr(f)))
    case ListE(args) => DepthArgs(args)
    case Assign(_, r) => DepthExpr(r)
    case CatchE(body, codes, except) => Max(DepthCodes(codes), Max(3 + DepthExpr(body), DepthExcept(except)))
  }

  function DepthArgs(args: Args): (d: nat)
    ensures d >= 1
  {
    match args
    case ANil => 1
    case ACons(_, e, rest) => Max(DepthExpr(e), DepthMore(rest))
  }

  function DepthMore(args: Args): nat {
    match args
    case ANil => 1
    case ACons(_, e, rest) => Max(1 + DepthExpr(e), DepthMore(rest))
  }

  function DepthCodes(codes: Codes): (d: nat)
    ensures d >= 1
  {
    match codes
    case Any => 1
    case Only(args) => DepthArgs(args)
  }

  function DepthExcept(except: Option<Expr>): nat {
    match except
    case None => 1
    case Some(d) => DepthExpr(d)
  }

  // ---- statements ----

  /** What enter_loop records about an enclosing loop. */
  datatype Loop = Loop(id: Option<nat>, top: nat, topDepth: nat, bottom: nat, bottomDepth: nat)

  function Ids(loops: seq<Loop>): seq<Option<nat>> {
    seq(|loops|, i requires 0 <= i < |loops| => loops[i].id)
  }

  /** The loop that break or continue leaves: the innermost one, or the innermost one so named. */
  function Target(loops: seq<Loop>, exit: Option<nat>): (l: Loop)
    requires HasLoop(Ids(loops), exit)
    ensures l in loops
  {
    var last := loops[|loops| - 1];
    if exit == None || last.id == exit then last
    else
      assert Ids(loops) == Ids(loops[..|loops| - 1]) + [last.id];
      Target(loops[..|loops| - 1], exit)
  }

  function ExitCode(exit: Option<nat>, depth: nat, lab: nat): Instr {
    if exit.Some? then ExitId(exit.value, depth, lab) else Exit(depth, lab)
  }

  function SizeStmts(s: Stmts): nat {
    match s
    case SNil => 0
    case SCons(h, t) => SizeStmt(h) + SizeStmts(t)
  }

  function SizeStmt(s: Stmt): nat {
    match s
    case ExprS(e) => SizeExpr(e) + 1
    case CondS(arms) => SizeArms(arms)
    case WhileS(_, cond, body) => SizeExpr(cond) + 1 + SizeStmts(body) + 1
    case RangeS(_, from, to, body) => SizeExpr(from) + SizeExpr(to) + 1 + SizeStmts(body) + 1
    case ReturnS(None) => 1
    case ReturnS(Some(e)) => SizeExpr(e) + 1
    case TryExceptS(body, x) => SizeAllCodes(x) + 1 + SizeStmts(body) + 1 + SizeHandlers(x)
    case TryFinallyS(body, handler) => 1 + SizeStmts(body) + 1 + SizeStmts(handler) + 1
    case BreakS(_) => 1
    case ContinueS(_) => 1
  }

  function SizeArms(a: Arms): nat {
    match a
    case Else(body) => SizeStmts(body)
    case Arm(cond, body, rest) => SizeExpr(cond) + 1 + SizeStmts(body) + 1 + SizeArms(rest)
  }

  function SizeAllCodes(x: Excepts): nat {
    match x
    case XNil => 0
    case XCons(_, codes, _, rest) => SizeCodes(codes) + 1 + SizeAllCodes(rest)
  }

  /** One handler: the store of the tuple if it is named, POP, the body, and JUMP unless it is last. */
  function SizeHandler(slot: Option<nat>, body: nat, last: bool): nat {
    (if slot.Some? then 1 else 0) + 1 + body + if last then 0 else 1
  }

  function SizeHandlers(x: Excepts): nat {
    match x
    case XNil => 0
    case XCons(slot, _, body, rest) => SizeHandler(slot, SizeStmts(body), rest.XNil?) + SizeHandlers(rest)
  }

  function CodeStmts(s: Stmts, pc: nat, d: nat, loops: seq<Loop>): (code: seq<Instr>)
    requires WellScoped(s, Ids(loops))
    ensures |code| == SizeStmts(s)
    decreases s
  {
    match s
    case SNil => []
    case SCons(h, t) => CodeStmt(h, pc, d, loops) + CodeStmts(t, pc + SizeStmt(h), d, loops)
  }

  function WhileLoop(s: Stmt, pc: nat, d: nat): Loop
    requires s.WhileS?
  {
    Loop(s.id, pc, d, pc + SizeStmt(s), d)
  }

  function RangeLoop(s: Stmt, pc: nat, d: nat): Loop
    requires s.RangeS?
  {
    Loop(Some(s.slot), pc + SizeExpr(s.from) + SizeExpr(s.to), d + 2, pc + SizeStmt(s), d)
  }

  function CodeStmt(s: Stmt, pc: nat, d: nat, loops: seq<Loop>): (code: seq<Instr>)
    requires WellScopedStmt(s, Ids(loops))
    ensures |code| == SizeStmt(s)
    decreases s
  {
    var done := pc + SizeStmt(s);
    match s
    case ExprS(e) => CodeExpr(e, pc) + [Pop]
    case CondS(arms) => CodeArms(arms, true, pc, d, loops, done)
    case WhileS(id, cond, body) =>
      var l := WhileLoop(s, pc, d);
      assert Ids(loops + [l]) == Ids(loops) + [id];
      CodeExpr(cond, pc) + [if id.Some? then WhileId(id.value, done) else WhileI(done)]
        + CodeStmts(body, pc + SizeExpr(cond) + 1, d, loops + [l]) + [Jump(l.top)]
    case RangeS(slot, from, to, body) =>
      var l := RangeLoop(s, pc, d);
      assert Ids(loops + [l]) == Ids(loops) + [Some(slot)];
      CodeExpr(from, pc) + CodeExpr(to, pc + SizeExpr(from)) + [ForRange(slot, done)]
        + CodeStmts(body, l.top + 1, d + 2, loops + [l]) + [Jump(l.top)]
    case ReturnS(None) => [Return0]
    case ReturnS(Some(e)) => CodeExpr(e, pc) + [Return]
    case TryExceptS(body, x) =>
      var n := CountExcepts(x);
      var try := pc + SizeAllCodes(x) + 1;
      var handlers := try + SizeStmts(body) + 1;
      CodeAllCodes(x, pc, handlers) + [TryExcept(n)] + CodeStmts(body, try, d + 2 * n + 1, loops)
        + [EndExcept(done)] + CodeHandlers(x, handlers, d, loops, done)
    case TryFinallyS(body, handler) =>
      var h := pc + 1 + SizeStmts(body) + 1;
      [TryFinally(h)] + CodeStmts(body, pc + 1, d + 1, loops) + [EndFinally]
        + CodeStmts(handler, h, d + 2, loops) + [ContinueI]
    case BreakS(exit) =>
      var l := Target(loops, exit);
      [ExitCode(exit, l.bottomDepth, l.bottom)]
    case ContinueS(exit) =>
      var l := Target(loops, exit);
      [ExitCode(exit, l.topDepth, l.top)]
  }

  function CodeArms(a: Arms, first: bool, pc: nat, d: nat, loops: seq<Loop>, done: nat): (code: seq<Instr>)
    requires WellScopedArms(a, Ids(loops))
    ensures |code| == SizeArms(a)
    decreases a
  {
    match a
    case Else(body) => CodeStmts(body, pc, d, loops)
    case Arm(cond, body, rest) =>
      var thn := pc + SizeExpr(cond) + 1;
      var next := thn + SizeStmts(body) + 1;
      CodeExpr(cond, pc) + [if first then IfI(next) else Eif(next)] + CodeStmts(body, thn, d, loops)
        + [Jump(done)] + CodeArms(rest, false, next, d, loops, done)
  }

  function CodeAllCodes(x: Excepts, pc: nat, handler: nat): (code: seq<Instr>)
    ensures |code| == SizeAllCodes(x)
    decreases x
  {
    match x
    case XNil => []
    case XCons(slot, codes, body, rest) =>
      CodeCodes(codes, pc) + [PushLabel(handler)]
        + CodeAllCodes(rest, pc + SizeCodes(codes) + 1, handler + SizeHandler(slot, SizeStmts(body), rest.XNil?))
  }

  function CodeHandlers(x: Excepts, pc: nat, d: nat, loops: seq<Loop>, done: nat): (code: seq<Instr>)
    requires WellScopedExcepts(x, Ids(loops))
    ensures |code| == SizeHandlers(x)
    decreases x
  {
    match x
    case XNil => []
    case XCons(slot, _, body, rest) =>
      var store := if slot.Some? then [Put(slot.value)] else [];
      store + [Pop] + CodeStmts(body, pc + |store| + 1, d, loops)
        + (if rest.XNil? then [] else [Jump(done)])
        + CodeHandlers(rest, pc + SizeHandler(slot, SizeStmts(body), rest.XNil?), d, loops, done)
  }

  function DepthStmts(s: Stmts): nat {
    match s
    case SNil => 0
    case SCons(h, t) => Max(DepthStmt(h), DepthStmts(t))
  }

  function DepthStmt(s: Stmt): nat {
    match s
    case ExprS(e) => DepthExpr(e)
    case CondS(arms) => DepthArms(arms)
    case WhileS(_, cond, body) => Max(DepthExpr(cond), DepthStmts(body))
    case RangeS(_, from, to, body) => Max(DepthExpr(from), Max(1 + DepthExpr(to), 2 + DepthStmts(body)))
    case ReturnS(None) => 0
    case ReturnS(Some(e)) => DepthExpr(e)
    case TryExceptS(body, x) =>
      Max(DepthAllCodes(x), Max(2 * CountExcepts(x) + 1 + DepthStmts(body), DepthHandlers(x)))
    case TryFinallyS(body, handler) => Max(1 + DepthStmts(body), 2 + DepthStmts(handler))
    case BreakS(_) => 0
    case ContinueS(_) => 0
  }

  function DepthArms(a: Arms): nat {
    match a
    case Else(body) => DepthStmts(body)
    case Arm(cond, body, rest) => Max(DepthExpr(cond), Max(DepthStmts(body), DepthArms(rest)))
  }

  function DepthAllCodes(x: Excepts): nat {
    match x
    case XNil => 0
    case XCons(_, codes, _, rest) => Max(DepthCodes(codes), 2 + DepthAllCodes(rest))
  }

  function DepthHandlers(x: Excepts): nat {
    match x
    case XNil => 0
    case XCons(_, _, body, rest) => Max(1, Max(DepthStmts(body), DepthHandlers(rest)))
  }

  function Program(s: Stmts): seq<Instr>
    requires WellScoped(s, [])
  {
    assert Ids([]) == [];
    CodeStmts(s, 0, 0, []) + [Done]
  }

  function MaxStack(s: Stmts): nat {
    DepthStmts(s)
  }
}
