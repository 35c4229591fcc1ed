/** The decompiler of decompile.cc over instructions: a pointer moves through the code, expressions are
    rebuilt on a stack, and blocks are read by calling the decompiler again. */
module MooDecompiler {
  import opened Options
  import opened MooAst
  import opened MooCode

  /** An entry of expr_stack; PUSH_LABEL leaves an integer constant there, here marked as a label. */
  datatype Entry = E(e: Expr) | Lab(at: nat)

  /** The state of one call of decompile, with the stack that all calls share.  A call without sinks reads
      an expression. */
  datatype Frame =
    | Frame(ptr: nat, exprs: seq<Entry>, stmts: seq<Stmt>, arms: seq<(Expr, Stmts)>, start: nat, sink: bool,
      armSink: bool)
    | Panic

  /** limit: how many entries expr_stack was allocated for. */
  datatype Reader = Reader(code: seq<Instr>, limit: nat)

  function ToStmts(s: seq<Stmt>): Stmts {
    if s == [] then SNil else SCons(s[0], ToStmts(s[1..]))
  }

  function ToArms(a: seq<(Expr, Stmts)>, otherwise: Stmts): Arms {
    if a == [] then Else(otherwise) else Arm(a[0].0, a[0].1, ToArms(a[1..], otherwise))
  }

  /** A handler whose body is still to be read. */
  datatype Pending = Pending(codes: Codes, entry: nat)

  function AddArg(args: Args, splice: bool, e: Expr): Args {
    match args
    case ANil => ACons(splice, e, ANil)
    case ACons(s, a, rest) => ACons(s, a, AddArg(rest, splice, e))
  }

  /** A list of codes, or the constant zero for ANY; a list without elements is ANY too. */
  function ToCodes(e: Expr): Option<Codes> {
    if e.ListE? then Some(if e.args.ANil? then Any else Only(e.args))
    else if e == Lit(IntV(0)) then Some(Any)
    else None
  }

  /** The instructions that only rearrange expr_stack; None where the source panics. */
  function Reduce(i: Instr, x: seq<Entry>): Option<seq<Entry>> {
    var n := |x|;
    match i
    case Push(slot) => Some(x + [E(Id(slot))])
    case NumI(k) => Some(x + [E(Lit(IntV(k)))])
    case Imm(v) => Some(x + [E(Lit(v))])
    case Put(slot) => if n < 1 || !x[n - 1].E? then None else Some(x[..n - 1] + [E(Assign(slot, x[n - 1].e))])
    case UnI(op) => if n < 1 || !x[n - 1].E? then None else Some(x[..n - 1] + [E(Un(op, x[n - 1].e))])
    case BinI(op) =>
      if n < 2 || !x[n - 1].E? || !x[n - 2].E? then None
      else Some(x[..n - 2] + [E(Bin(op, x[n - 2].e, x[n - 1].e))])
    case MakeEmptyList => Some(x + [E(ListE(ANil))])
    case MakeSingleton => FirstOf(x, false)
    case CheckSplice => FirstOf(x, true)
    case AddTail => NextOf(x, false)
    case AppendI => NextOf(x, true)
    case PushLabel(lab) => Some(x + [Lab(lab)])
    case _ => None
  }

  function FirstOf(x: seq<Entry>, splice: bool): Option<seq<Entry>> {
    var n := |x|;
    if n < 1 || !x[n - 1].E? then None else Some(x[..n - 1] + [E(ListE(ACons(splice, x[n - 1].e, ANil)))])
  }

  function NextOf(x: seq<Entry>, splice: bool): Option<seq<Entry>> {
    var n := |x|;
    if n < 2 || !x[n - 1].E? || !x[n - 2].E? || !x[n - 2].e.ListE? || x[n - 2].e.args.ANil? then None
    else Some(x[..n - 2] + [E(ListE(AddArg(x[n - 2].e.args, splice, x[n - 1].e)))])
  }

  // ---- the main loop ----

  function Left(rd: Reader, ptr: nat): nat {
    if ptr < |rd.code| then |rd.code| - ptr else 0
  }

  /** The instructions at which a call returns early. */
  predicate Closes(i: Instr) {
    i.EndCatch? || i.EndExcept? || i.EndFinally? || i.ContinueI?
  }

  function ReadOn(rd: Reader, end: nat, f: Frame): (q: Frame)
    ensures q.Frame? ==> f.Frame? && q.ptr >= f.ptr
    decreases if f.Frame? then Left(rd, f.ptr) else 0, 2
  {
    if f.Panic? then Panic
    else if f.ptr >= end then if f.ptr == end then f else Panic
    else if f.ptr >= |rd.code| then Panic
    else if Closes(rd.code[f.ptr]) then f
    else ReadOn(rd, end, Op(rd, end, f))
  }

  /** A call of decompile for a block. */
  function Block(rd: Reader, ptr: nat, end: nat, exprs: seq<Entry>, sink: bool, armSink: bool): (q: Frame)
    ensures q.Frame? ==> q.ptr >= ptr
    decreases Left(rd, ptr), 3
  {
    ReadOn(rd, end, Frame(ptr, exprs, [], [], ptr, sink, armSink))
  }

  function Op(rd: Reader, end: nat, f: Frame): (q: Frame)
    requires f.Frame? && f.ptr < |rd.code|
    ensures q.Frame? ==> q.ptr > f.ptr
    decreases Left(rd, f.ptr), 1
  {
    var n, next := |f.exprs|, f.ptr + 1;
    match rd.code[f.ptr]
    case AndI(done) => OpShort(rd, f, true, done)
    case OrI(done) => OpShort(rd, f, false, done)
    case IfQues(lab) => OpIfQues(rd, f, lab)
    case CatchI => OpCatch(rd, end, f)
    case IfI(lab) => OpIf(rd, f, lab)
    case Eif(lab) => OpEif(rd, end, f, lab)
    case WhileI(done) => OpWhile(rd, f, None, done)
    case WhileId(slot, done) => OpWhile(rd, f, Some(slot), done)
    case ForRange(slot, done) => OpRange(rd, f, slot, done)
    case TryExcept(k) => OpTryExcept(rd, end, f, k)
    case TryFinally(h) => OpTryFinally(rd, end, f, h)
    case Pop => if n < 1 || !f.exprs[n - 1].E? then Panic
                else AddStmt(f, ExprS(f.exprs[n - 1].e), next, f.exprs[..n - 1])
    case Return =>
      if n < 1 || !f.exprs[n - 1].E? then Panic
      else AddStmt(f, ReturnS(Some(f.exprs[n - 1].e)), next, f.exprs[..n - 1])
    case Return0 => AddStmt(f, ReturnS(None), next, f.exprs)
    case Exit(_, lab) => AddStmt(f, if lab < next then ContinueS(None) else BreakS(None), next, f.exprs)
    case ExitId(slot, _, lab) =>
        AddStmt(f, if lab < next then ContinueS(Some(slot)) else BreakS(Some(slot)), next, f.exprs)
    case Done => if next == end then f.(ptr := next) else Panic
    case i =>
      var x := Reduce(i, f.exprs);
      if x.None? || |x.value| > rd.limit then Panic else f.(ptr := next, exprs := x.value)
  }

  function AddStmt(f: Frame, s: Stmt, ptr: nat, exprs: seq<Entry>): Frame
    requires f.Frame?
  {
    if f.sink then f.(ptr := ptr, exprs := exprs, stmts := f.stmts + [s], start := ptr) else Panic
  }

  predicate HasJump(rd: Reader, ptr: nat) {
    ptr < |rd.code| && rd.code[ptr].Jump?
  }

  function PushE(rd: Reader, f: Frame, ptr: nat, exprs: seq<Entry>, e: Expr): Frame
    requires f.Frame?
  {
    if |exprs| < rd.limit then f.(ptr := ptr, exprs := exprs + [E(e)]) else Panic
  }

  /** The topmost of the stack as an expression, if it is one. */
  predicate HasExpr(x: seq<Entry>) {
    |x| > 0 && x[|x| - 1].E?
  }

  function TopExpr(x: seq<Entry>): Expr
    requires HasExpr(x)
  {
    x[|x| - 1].e
  }

  function Rest(x: seq<Entry>): seq<Entry>
    requires |x| > 0
  {
    x[..|x| - 1]
  }

  function OpShort(rd: Reader, f: Frame, and: bool, done: nat): (q: Frame)
    requires f.Frame? && f.ptr < |rd.code|
    ensures q.Frame? ==> q.ptr > f.ptr
    decreases Left(rd, f.ptr), 0
  {
    if !HasExpr(f.exprs) then Panic
    else
      var l, b := TopExpr(f.exprs), Block(rd, f.ptr + 1, done, Rest(f.exprs), false, false);
      if b.Panic? || b.ptr != done || !HasExpr(b.exprs) then Panic
      else PushE(rd, f, b.ptr, Rest(b.exprs), if and then And(l, TopExpr(b.exprs)) else Or(l, TopExpr(b.exprs)))
  }

  function OpIfQues(rd: Reader, f: Frame, lab: nat): (q: Frame)
    requires f.Frame? && f.ptr < |rd.code|
    ensures q.Frame? ==> q.ptr > f.ptr
    decreases Left(rd, f.ptr), 0
  {
    if !HasExpr(f.exprs) || lab < 1 then Panic
    else
      var b := Block(rd, f.ptr + 1, lab - 1, Rest(f.exprs), false, false);
      if b.Panic? || !HasJump(rd, b.ptr) || !HasExpr(b.exprs) then Panic
      else
        var done := rd.code[b.ptr].lab;
        var c := Block(rd, b.ptr + 1, done, Rest(b.exprs), false, false);
        if c.Panic? || c.ptr != done || !HasExpr(c.exprs) then Panic
        else PushE(rd, f, c.ptr, Rest(c.exprs), IfElse(TopExpr(f.exprs), TopExpr(b.exprs), TopExpr(c.exprs)))
  }

  function OpCatch(rd: Reader, end: nat, f: Frame): (q: Frame)
    requires f.Frame? && f.ptr < |rd.code|
    ensures q.Frame? ==> q.ptr > f.ptr
    decreases Left(rd, f.ptr), 0
  {
    var n := |f.exprs|;
    if n < 2 || !f.exprs[n - 1].Lab? || !f.exprs[n - 2].E? || ToCodes(f.exprs[n - 2].e).None? then Panic
    else
      var b := Block(rd, f.ptr + 1, end, f.exprs[..n - 2], false, false);
      if b.Panic? || b.ptr >= |rd.code| || !rd.code[b.ptr].EndCatch? || !HasExpr(b.exprs)
        || b.ptr + 1 != f.exprs[n - 1].at then Panic
      else OpDefault(rd, f, ToCodes(f.exprs[n - 2].e).value, TopExpr(b.exprs), b.ptr + 1, rd.code[b.ptr].lab,
        Rest(b.exprs))
  }

  /** The default part of a catch expression. */
  function OpDefault(rd: Reader, f: Frame, codes: Codes, try: Expr, ptr: nat, done: nat, exprs: seq<Entry>): (q: Frame)
    requires f.Frame? && f.ptr < |rd.code| && f.ptr < ptr
    ensures q.Frame? ==> q.ptr > f.ptr
    decreases Left(rd, ptr), 1
  {
    if ptr >= |rd.code| then Panic
    else match rd.code[ptr]
      case NumI(k) =>
        if k == 1 && ptr + 1 < |rd.code| && rd.code[ptr + 1] == BinI(IndexOp) && ptr + 2 == done then
          PushE(rd, f, done, exprs, CatchE(try, codes, None))
        else Panic
      case Pop =>
        var d := Block(rd, ptr + 1, done, exprs, false, false);
        if d.Panic? || d.ptr != done || !HasExpr(d.exprs) then Panic
        else PushE(rd, f, done, Rest(d.exprs), CatchE(try, codes, Some(TopExpr(d.exprs))))
      case _ => Panic
  }

  function OpIf(rd: Reader, f: Frame, lab: nat): (q: Frame)
    requires f.Frame? && f.ptr < |rd.code|
    ensures q.Frame? ==> q.ptr > f.ptr
    decreases Left(rd, f.ptr), 0
  {
    if !HasExpr(f.exprs) || lab < 1 then Panic
    else
      var b := Block(rd, f.ptr + 1, lab - 1, Rest(f.exprs), true, false);
      if b.Panic? || !HasJump(rd, b.ptr) then Panic
      else
        var o := Block(rd, b.ptr + 1, rd.code[b.ptr].lab, b.exprs, true, true);
        if o.Panic? then Panic
        else AddStmt(f, CondS(ToArms([(TopExpr(f.exprs), ToStmts(b.stmts))] + o.arms, ToStmts(o.stmts))), o.ptr,
          o.exprs)
  }

  function OpEif(rd: Reader, end: nat, f: Frame, lab: nat): (q: Frame)
    requires f.Frame? && f.ptr < |rd.code|
    ensures q.Frame? ==> q.ptr > f.ptr
    decreases Left(rd, f.ptr), 0
  {
    if !HasExpr(f.exprs) || lab < 1 || !f.armSink then Panic
    else
      var b := Block(rd, f.ptr + 1, lab - 1, Rest(f.exprs), true, false);
      if b.Panic? || !HasJump(rd, b.ptr) || rd.code[b.ptr].lab != end then Panic
      else f.(ptr := b.ptr + 1, exprs := b.exprs, arms := f.arms + [(TopExpr(f.exprs), ToStmts(b.stmts))],
        start := b.ptr + 1)
  }

  function OpWhile(rd: Reader, f: Frame, id: Option<nat>, done: nat): (q: Frame)
    requires f.Frame? && f.ptr < |rd.code|
    ensures q.Frame? ==> q.ptr > f.ptr
    decreases Left(rd, f.ptr), 0
  {
    if !HasExpr(f.exprs) || done < 1 then Panic
    else
      var b := Block(rd, f.ptr + 1, done - 1, Rest(f.exprs), true, false);
      if b.Panic? || !HasJump(rd, b.ptr) || rd.code[b.ptr].lab != f.start then Panic
      else AddStmt(f, WhileS(id, TopExpr(f.exprs), ToStmts(b.stmts)), b.ptr + 1, b.exprs)
  }

  function OpRange(rd: Reader, f: Frame, slot: nat, done: nat): (q: Frame)
    requires f.Frame? && f.ptr < |rd.code|
    ensures q.Frame? ==> q.ptr > f.ptr
    decreases Left(rd, f.ptr), 0
  {
    if !HasExpr(f.exprs) || !HasExpr(Rest(f.exprs)) || done < 1 then Panic
    else
      var b := Block(rd, f.ptr + 1, done - 1, Rest(Rest(f.exprs)), true, false);
      if b.Panic? || !HasJump(rd, b.ptr) || rd.code[b.ptr].lab != f.ptr then Panic
      else AddStmt(f, RangeS(slot, TopExpr(Rest(f.exprs)), TopExpr(f.exprs), ToStmts(b.stmts)), b.ptr + 1, b.exprs)
  }

  function OpTryFinally(rd: Reader, end: nat, f: Frame, h: nat): (q: Frame)
    requires f.Frame? && f.ptr < |rd.code|
    ensures q.Frame? ==> q.ptr > f.ptr
    decreases Left(rd, f.ptr), 0
  {
    var b := Block(rd, f.ptr + 1, end, f.exprs, true, false);
    if b.Panic? || b.ptr >= |rd.code| || !rd.code[b.ptr].EndFinally? || b.ptr + 1 != h then Panic
    else
      var c := Block(rd, h, end, b.exprs, true, false);
      if c.Panic? || c.ptr >= |rd.code| || !rd.code[c.ptr].ContinueI? then Panic
      else AddStmt(f, TryFinallyS(ToStmts(b.stmts), ToStmts(c.stmts)), c.ptr + 1, c.exprs)
  }

  /** The codes and labels of k handlers, popped from the last to the first. */
  function PopPending(x: seq<Entry>, k: nat): (r: Option<(seq<Entry>, seq<Pending>)>)
    ensures r.Some? ==> |r.value.1| == k
    decreases k
  {
    if k == 0 then Some((x, []))
    else
      var n := |x|;
      if n < 2 || !x[n - 1].Lab? || !x[n - 2].E? || ToCodes(x[n - 2].e).None? then None
      else
        var r := PopPending(x[..n - 2], k - 1);
        if r.None? then None
        else Some((r.value.0, r.value.1 + [Pending(ToCodes(x[n - 2].e).value, x[n - 1].at)]))
  }

  function OpTryExcept(rd: Reader, end: nat, f: Frame, k: nat): (q: Frame)
    requires f.Frame? && f.ptr < |rd.code|
    ensures q.Frame? ==> q.ptr > f.ptr
    decreases Left(rd, f.ptr), 0
  {
    var p := PopPending(f.exprs, k);
    if p.None? then Panic
    else
      var b := Block(rd, f.ptr + 1, end, p.value.0, true, false);
      if b.Panic? || b.ptr >= |rd.code| || !rd.code[b.ptr].EndExcept? then Panic
      else
        var done := rd.code[b.ptr].lab;
        var (h, x) := OpHandlers(rd, p.value.1, b.ptr + 1, done, b.exprs);
        if h.Panic? || h.ptr != done then Panic
        else AddStmt(f, TryExceptS(ToStmts(b.stmts), x), h.ptr, h.exprs)
  }

  /** A handler starts by storing the error, if it has a variable, and popping it: the variable and where
      the body starts. */
  function HandlerHead(rd: Reader, ptr: nat): (r: Option<(Option<nat>, nat)>)
    ensures r.Some? ==> ptr < |rd.code| && r.value.1 > ptr
  {
    if ptr >= |rd.code| then None
    else
      var slot := if rd.code[ptr].Put? then Some(rd.code[ptr].slot) else None;
      var pop := if slot.Some? then ptr + 1 else ptr;
      if pop < |rd.code| && rd.code[pop].Pop? then Some((slot, pop + 1)) else None
  }

  /** The handlers in turn; the frame says where reading stopped. */
  function OpHandlers(rd: Reader, todo: seq<Pending>, ptr: nat, done: nat, exprs: seq<Entry>): (r: (Frame, Excepts))
    ensures r.0.Frame? ==> r.0.ptr >= ptr
    decreases Left(rd, ptr), 4, |todo|
  {
    if todo == [] then (Frame(ptr, exprs, [], [], ptr, true, false), XNil)
    else
      var head, last := HandlerHead(rd, ptr), |todo| == 1;
      if head.None? || todo[0].entry != ptr || (!last && todo[1].entry < 1) then (Panic, XNil)
      else
        var b := Block(rd, head.value.1, if last then done else todo[1].entry - 1, exprs, true, false);
        if b.Panic? || (!last && !(HasJump(rd, b.ptr) && rd.code[b.ptr].lab == done)) then (Panic, XNil)
        else
          var (h, x) := OpHandlers(rd, todo[1..], if last then b.ptr else b.ptr + 1, done, b.exprs);
          (h, XCons(head.value.0, todo[0].codes, ToStmts(b.stmts), x))
  }

  /** decompile_program: the syntax tree, unless some check failed. */
  function Decompile(code: seq<Instr>, limit: nat): Option<Stmts> {
    var f := Block(Reader(code, limit), 0, |code|, [], true, false);
    if f.Panic? then None else Some(ToStmts(f.stmts))
  }
}
