/** Decompiling the code of any program that the parser can produce gives that program back: no check of
    the decompiler fails, and expr_stack never outgrows the run-time stack the generator asked for. */
module MooRoundTrip {
  import opened Options
  import opened MooAst
  import opened MooCode
  import opened MooDecompiler
  import opened MooExprRuns

  // ---- what the parser produces ----

  /** Lists of codes are not empty. */
  predicate Parsed(e: Expr) {
    match e
    case Bin(_, l, r) => Parsed(l) && Parsed(r)
    case Un(_, a) => Parsed(a)
    case And(l, r) => Parsed(l) && Parsed(r)
    case Or(l, r) => Parsed(l) && Parsed(r)
    case IfElse(c, t, f) => Parsed(c) && Parsed(t) && Parsed(f)
    case ListE(args) => ParsedArgs(args)
    case Assign(_, r) => Parsed(r)
    case CatchE(body, codes, except) => Parsed(body) && ParsedCodes(codes) && ParsedExcept(except)
    case _ => true
  }

  predicate ParsedArgs(args: Args) {
    match args
    case ANil => true
    case ACons(_, e, rest) => Parsed(e) && ParsedArgs(rest)
  }

  predicate ParsedCodes(codes: Codes) {
    match codes
    case Any => true
    case Only(args) => args.ACons? && ParsedArgs(args)
  }

  predicate ParsedExcept(except: Option<Expr>) {
    match except
    case None => true
    case Some(d) => Parsed(d)
  }

  /** A conditional has an IF arm. */
  predicate ParsedStmt(s: Stmt) {
    match s
    case ExprS(e) => Parsed(e)
    case CondS(arms) => arms.Arm? && ParsedArms(arms)
    case WhileS(_, cond, body) => Parsed(cond) && ParsedStmts(body)
    case RangeS(_, from, to, body) => Parsed(from) && Parsed(to) && ParsedStmts(body)
    case ReturnS(result) => ParsedExcept(result)
    case TryExceptS(body, x) => ParsedStmts(body) && ParsedExcepts(x)
    case TryFinallyS(body, handler) => ParsedStmts(body) && ParsedStmts(handler)
    case _ => true
  }

  predicate ParsedStmts(s: Stmts) {
    match s
    case SNil => true
    case SCons(h, t) => ParsedStmt(h) && ParsedStmts(t)
  }

  predicate ParsedArms(a: Arms) {
    match a
    case Else(body) => ParsedStmts(body)
    case Arm(cond, body, rest) => Parsed(cond) && ParsedStmts(body) && ParsedArms(rest)
  }

  predicate ParsedExcepts(x: Excepts) {
    match x
    case XNil => true
    case XCons(_, codes, body, rest) => ParsedCodes(codes) && ParsedStmts(body) && ParsedExcepts(rest)
  }

  // ---- moving through the code ----

  /** The code stands at the pointer, inside the block, and there is room on expr_stack. */
  predicate Here(rd: Reader, end: nat, f: Frame, code: seq<Instr>, depth: nat) {
    f.Frame? && At(rd.code, f.ptr, code) && f.ptr + |code| <= end && |f.exprs| + depth <= rd.limit
  }

  function Moved(f: Frame, n: nat, exprs: seq<Entry>): Frame
    requires f.Frame?
  {
    f.(ptr := f.ptr + n, exprs := exprs)
  }

  lemma MovedParts(f: Frame, n: nat, x: seq<Entry>, k: nat, y: seq<Entry>)
    requires f.Frame?
    ensures Moved(f, n, x).Frame? && Moved(f, n, x).ptr == f.ptr + n && Moved(f, n, x).exprs == x
    ensures Moved(Moved(f, n, x), k, y) == Moved(f, n + k, y)
  {
  }

  lemma HereSplit(rd: Reader, end: nat, f: Frame, a: seq<Instr>, b: seq<Instr>, depth: nat, da: nat, x: seq<Entry>,
      db: nat)
    requires Here(rd, end, f, a + b, depth) && da <= depth && |x| + db <= rd.limit
    ensures Here(rd, end, f, a, da) && Here(rd, end, Moved(f, |a|, x), b, db)
  {
    AtSplit(rd.code, f.ptr, a, b);
  }

  lemma HereLess(rd: Reader, end: nat, f: Frame, a: seq<Instr>, b: seq<Instr>, depth: nat, da: nat)
    requires Here(rd, end, f, a + b, depth) && da <= depth
    ensures Here(rd, end, f, a, da) && f.Frame? && At(rd.code, f.ptr + |a|, b) && f.ptr + |a| + |b| <= end
    ensures |f.exprs| + depth <= rd.limit
  {
    AtSplit(rd.code, f.ptr, a, b);
  }

  predicate Simple(i: Instr) {
    || i.Push? || i.NumI? || i.Imm? || i.Put? || i.UnI? || i.BinI? || i.MakeEmptyList? || i.MakeSingleton?
      || i.CheckSplice?
    || i.AddTail? || i.AppendI? || i.PushLabel?
  }

  lemma ReduceReads(rd: Reader, end: nat, f: Frame, i: Instr, x: seq<Entry>)
    requires Here(rd, end, f, [i], 0) && Simple(i) && Reduce(i, f.exprs) == Some(x) && |x| <= rd.limit
    ensures ReadOn(rd, end, f) == ReadOn(rd, end, Moved(f, 1, x))
  {
    hide Reduce;
    AtOne(rd.code, f.ptr, i);
    assert Op(rd, end, f) == Moved(f, 1, x);
  }

  lemma Reduces(x: seq<Entry>, a: Expr, b: Expr)
    ensures forall v :: Reduce(Literal(v), x) == Some(x + [E(Lit(v))])
    ensures forall slot :: Reduce(Push(slot), x) == Some(x + [E(Id(slot))])
    ensures forall slot :: Reduce(Put(slot), x + [E(a)]) == Some(x + [E(Assign(slot, a))])
    ensures forall op :: Reduce(UnI(op), x + [E(a)]) == Some(x + [E(Un(op, a))])
    ensures forall op :: Reduce(BinI(op), x + [E(a)] + [E(b)]) == Some(x + [E(Bin(op, a, b))])
  {
    assert (x + [E(a)])[..|x|] == x;
    assert (x + [E(a)] + [E(b)])[..|x|] == x;
  }

  lemma ReducesList(x: seq<Entry>, args: Args, e: Expr, splice: bool, lab: nat)
    ensures Reduce(MakeEmptyList, x) == Some(x + [E(ListE(ANil))])
    ensures Reduce(if splice then CheckSplice else MakeSingleton, x + [E(e)])
        == Some(x + [E(ListE(ACons(splice, e, ANil)))])
    ensures args.ACons? ==> Reduce(if splice then AppendI else AddTail, x + [E(ListE(args))] + [E(e)])
                            == Some(x + [E(ListE(AddArg(args, splice, e)))])
    ensures Reduce(PushLabel(lab), x) == Some(x + [Lab(lab)])
  {
    assert (x + [E(e)])[..|x|] == x;
    assert (x + [E(ListE(args))] + [E(e)])[..|x|] == x;
  }

  lemma IsSimple()
    ensures forall v :: Simple(Literal(v))
    ensures forall slot: nat :: Simple(Push(slot)) && Simple(Put(slot))
    ensures forall op :: Simple(UnI(op))
    ensures forall op :: Simple(BinI(op))
    ensures Simple(MakeEmptyList) && Simple(MakeSingleton) && Simple(CheckSplice) && Simple(AddTail) && Simple(AppendI)
    ensures forall lab: nat :: Simple(PushLabel(lab))
  {
  }

  lemma OpReads(rd: Reader, end: nat, f: Frame, i: Instr)
    requires Here(rd, end, f, [i], 0) && !Closes(i)
    ensures f.ptr < |rd.code| && rd.code[f.ptr] == i && ReadOn(rd, end, f) == ReadOn(rd, end, Op(rd, end, f))
  {
    hide Op;
    AtOne(rd.code, f.ptr, i);
  }

  /** A block is over at its end, or at the instruction that closes it. */
  predicate Over(rd: Reader, ptr: nat, end: nat) {
    ptr == end || (ptr < end && ptr < |rd.code| && Closes(rd.code[ptr]))
  }

  lemma LoopOver(rd: Reader, end: nat, f: Frame)
    requires f.Frame? && Over(rd, f.ptr, end)
    ensures ReadOn(rd, end, f) == f
  {
  }

  function Fresh(ptr: nat, exprs: seq<Entry>, sink: bool, armSink: bool): Frame {
    Frame(ptr, exprs, [], [], ptr, sink, armSink)
  }

  lemma BlockIs(rd: Reader, ptr: nat, end: nat, exprs: seq<Entry>, sink: bool, armSink: bool)
    ensures Block(rd, ptr, end, exprs, sink, armSink) == ReadOn(rd, end, Fresh(ptr, exprs, sink, armSink))
    ensures var f := Fresh(ptr, exprs, sink, armSink); f.Frame? && f.ptr == ptr && f.exprs == exprs
  {
  }

  lemma TopIs(x: seq<Entry>, e: Expr)
    ensures HasExpr(x + [E(e)]) && TopExpr(x + [E(e)]) == e && Rest(x + [E(e)]) == x
  {
  }

  // ---- expressions ----

  /** What reading a block that holds an expression gives. */
  lemma {:induction false} BlockReads(rd: Reader, ptr: nat, end: nat, exprs: seq<Entry>, e: Expr) returns (b: Frame)
    requires Parsed(e) && At(rd.code, ptr, CodeExpr(e, ptr)) && ptr + SizeExpr(e) <= end
    requires |exprs| + DepthExpr(e) <= rd.limit && Over(rd, ptr + SizeExpr(e), end)
    ensures b == Block(rd, ptr, end, exprs, false, false)
    ensures b.Frame? && b.ptr == ptr + SizeExpr(e) && HasExpr(b.exprs) && TopExpr(b.exprs) == e
        && Rest(b.exprs) == exprs
    decreases e, 3
  {
    hide *;
    var f := Fresh(ptr, exprs, false, false);
    BlockIs(rd, ptr, end, exprs, false, false);
    assert Here(rd, end, f, CodeExpr(e, ptr), DepthExpr(e)) by { HereIs(rd, end, f, CodeExpr(e, ptr), DepthExpr(e)); }
    ExprReads(rd, end, f, e);
    b := Moved(f, SizeExpr(e), exprs + [E(e)]);
    MovedParts(f, SizeExpr(e), exprs + [E(e)], 0, []);
    LoopOver(rd, end, b);
    TopIs(exprs, e);
  }

  lemma HereIs(rd: Reader, end: nat, f: Frame, code: seq<Instr>, depth: nat)
    ensures Here(rd, end, f, code, depth) <==>
            f.Frame? && At(rd.code, f.ptr, code) && f.ptr + |code| <= end && |f.exprs| + depth <= rd.limit
  {
  }

  lemma {:induction false} ExprReads(rd: Reader, end: nat, f: Frame, e: Expr)
    requires Parsed(e) && f.Frame? && Here(rd, end, f, CodeExpr(e, f.ptr), DepthExpr(e))
    ensures ReadOn(rd, end, f) == ReadOn(rd, end, Moved(f, SizeExpr(e), f.exprs + [E(e)]))
    decreases e, 2
  {
    hide ReadOn, Op, Here, Moved, Reduce, Simple, At, Literal, CodeExpr, SizeExpr, DepthExpr;
    match e
    case Lit(v) => LeafReads(rd, end, f, e);
    case Id(slot) => LeafReads(rd, end, f, e);
    case Bin(_, _, _) => BinReads(rd, end, f, e);
    case Un(_, a) => UnReads(rd, end, f, e, a);
    case And(_, _) => ShortReads(rd, end, f, e);
    case Or(_, _) => ShortReads(rd, end, f, e);
    case IfElse(_, _, _) => IfElseReads(rd, end, f, e);
    case ListE(args) =>
      ListParts(args, f.ptr);
      ArgsRead(rd, end, f, args);
    case Assign(_, r) => UnReads(rd, end, f, e, r);
    case CatchE(_, _, _) => CatchReads(rd, end, f, e);
  }

  lemma ListParts(args: Args, pc: nat)
    ensures CodeExpr(ListE(args), pc) == CodeArgs(args, pc) && SizeExpr(ListE(args)) == SizeArgs(args)
    ensures DepthExpr(ListE(args)) == DepthArgs(args)
  {
  }

  lemma LeafReads(rd: Reader, end: nat, f: Frame, e: Expr)
    requires (e.Lit? || e.Id?) && f.Frame? && Here(rd, end, f, CodeExpr(e, f.ptr), DepthExpr(e))
    ensures ReadOn(rd, end, f) == ReadOn(rd, end, Moved(f, SizeExpr(e), f.exprs + [E(e)]))
  {
    hide ReadOn, Op, At, Reduce, Simple, Literal;
    var i := if e.Lit? then Literal(e.v) else Push(e.slot);
    Reduces(f.exprs, e, e);
    IsSimple();
    ReduceReads(rd, end, f, i, f.exprs + [E(e)]);
  }

  function LastOp(e: Expr): Instr
    requires e.Un? || e.Assign?
  {
    if e.Un? then UnI(e.uop) else Put(e.slot)
  }

  lemma UnParts(e: Expr, a: Expr, pc: nat)
    requires (e.Un? && a == e.arg) || (e.Assign? && a == e.rhs)
    ensures CodeExpr(e, pc) == CodeExpr(a, pc) + [LastOp(e)] && SizeExpr(e) == SizeExpr(a) + 1
        && DepthExpr(e) == DepthExpr(a)
    ensures Parsed(e) == Parsed(a) && Simple(LastOp(e))
    ensures forall x :: Reduce(LastOp(e), x + [E(a)]) == Some(x + [E(e)])
  {
    forall x ensures Reduce(LastOp(e), x + [E(a)]) == Some(x + [E(e)]) {
      Reduces(x, a, a);
    }
  }

  lemma {:induction false} UnReads(rd: Reader, end: nat, f: Frame, e: Expr, a: Expr)
    requires (e.Un? && a == e.arg) || (e.Assign? && a == e.rhs)
    requires Parsed(e) && f.Frame? && Here(rd, end, f, CodeExpr(e, f.ptr), DepthExpr(e))
    ensures ReadOn(rd, end, f) == ReadOn(rd, end, Moved(f, SizeExpr(e), f.exprs + [E(e)]))
    decreases e, 1
  {
    hide *;
    UnParts(e, a, f.ptr);
    var x, n := f.exprs, SizeExpr(a);
    HereLess(rd, end, f, CodeExpr(a, f.ptr), [LastOp(e)], DepthExpr(e), DepthExpr(a));
    HereSplit(rd, end, f, CodeExpr(a, f.ptr), [LastOp(e)], DepthExpr(e), DepthExpr(a), x + [E(a)], 0);
    ExprReads(rd, end, f, a);
    MovedParts(f, n, x + [E(a)], 1, x + [E(e)]);
    ReduceReads(rd, end, Moved(f, n, x + [E(a)]), LastOp(e), x + [E(e)]);
  }

  lemma BinReduces(e: Expr, x: seq<Entry>)
    requires e.Bin? && Parsed(e)
    ensures Parsed(e.lhs) && Parsed(e.rhs) && Simple(BinI(e.op))
    ensures Reduce(BinI(e.op), x + [E(e.lhs)] + [E(e.rhs)]) == Some(x + [E(e)])
  {
    Reduces(x, e.lhs, e.rhs);
  }

  lemma {:induction false} BinReads(rd: Reader, end: nat, f: Frame, e: Expr)
    requires e.Bin? && Parsed(e) && f.Frame? && Here(rd, end, f, CodeExpr(e, f.ptr), DepthExpr(e))
    ensures ReadOn(rd, end, f) == ReadOn(rd, end, Moved(f, SizeExpr(e), f.exprs + [E(e)]))
    decreases e, 1
  {
    hide *;
    BinParts(Idle(), e, f.ptr, map[]);
    BinReduces(e, f.exprs);
    var l, r, x, n := e.lhs, e.rhs, f.exprs, SizeExpr(e.lhs);
    var cl, cr := CodeExpr(l, f.ptr), CodeExpr(r, f.ptr + n);
    var x1 := x + [E(l)];
    var x2, k := x1 + [E(r)], SizeExpr(r);
    HereLess(rd, end, f, cl + cr, [BinI(e.op)], DepthExpr(e), DepthExpr(e));
    HereSplit(rd, end, f, cl + cr, [BinI(e.op)], DepthExpr(e), DepthExpr(e), x2, 0);
    HereSplit(rd, end, f, cl, cr, DepthExpr(e), DepthExpr(l), x1, DepthExpr(r));
    ExprReads(rd, end, f, l);
    MovedParts(f, n, x1, k, x2);
    ExprReads(rd, end, Moved(f, n, x1), r);
    MovedParts(f, n + k, x2, 1, x + [E(e)]);
    ReduceReads(rd, end, Moved(f, n + k, x2), BinI(e.op), x + [E(e)]);
  }

  lemma OpShortIs(rd: Reader, end: nat, f: Frame, e: Expr, done: nat, b: Frame)
    requires (e.And? || e.Or?) && f.Frame? && f.ptr < |rd.code|
        && rd.code[f.ptr] == (if e.And? then AndI(done) else OrI(done))
    requires HasExpr(f.exprs) && TopExpr(f.exprs) == e.lhs
        && b == Block(rd, f.ptr + 1, done, Rest(f.exprs), false, false)
    requires b.Frame? && b.ptr == done && HasExpr(b.exprs) && TopExpr(b.exprs) == e.rhs && |Rest(b.exprs)| < rd.limit
    ensures Op(rd, end, f) == f.(ptr := done, exprs := Rest(b.exprs) + [E(e)])
  {
    hide Block, ReadOn;
  }

  lemma {:induction false} ShortReads(rd: Reader, end: nat, f: Frame, e: Expr)
    requires (e.And? || e.Or?) && Parsed(e) && f.Frame? && Here(rd, end, f, CodeExpr(e, f.ptr), DepthExpr(e))
    ensures ReadOn(rd, end, f) == ReadOn(rd, end, Moved(f, SizeExpr(e), f.exprs + [E(e)]))
    decreases e, 1
  {
    hide *;
    ShortParts(Idle(), e, f.ptr, map[]);
    ShortParsed(e);
    var l, r, x, n, done := e.lhs, e.rhs, f.exprs, SizeExpr(e.lhs), f.ptr + SizeExpr(e);
    var i, cr := if e.And? then AndI(done) else OrI(done), CodeExpr(e.rhs, f.ptr + n + 1);
    HereLess(rd, end, f, CodeExpr(l, f.ptr) + [i], cr, DepthExpr(e), DepthExpr(e));
    HereSplit(rd, end, f, CodeExpr(l, f.ptr), [i], DepthExpr(e), DepthExpr(l), x + [E(l)], 0);
    ExprReads(rd, end, f, l);
    var g := Moved(f, n, x + [E(l)]);
    MovedParts(f, n, x + [E(l)], SizeExpr(r) + 1, x + [E(e)]);
    OpReads(rd, end, g, i) by { NotClosing(done); }
    TopIs(x, l);
    assert Over(rd, done, done) by { AtItsEnd(rd, done); }
    var b := BlockReads(rd, g.ptr + 1, done, x, r);
    OpShortIs(rd, end, g, e, done, b);
    MovedIs(g, SizeExpr(r) + 1, x + [E(e)]);
  }

  lemma ShortParsed(e: Expr)
    requires (e.And? || e.Or?) && Parsed(e)
    ensures Parsed(e.lhs) && Parsed(e.rhs)
  {
  }

  lemma AtItsEnd(rd: Reader, end: nat)
    ensures Over(rd, end, end)
  {
  }

  lemma MovedIs(f: Frame, n: nat, x: seq<Entry>)
    requires f.Frame?
    ensures Moved(f, n, x) == f.(ptr := f.ptr + n, exprs := x)
  {
  }

  lemma NotClosing(lab: nat)
    ensures !Closes(AndI(lab)) && !Closes(OrI(lab)) && !Closes(IfQues(lab)) && !Closes(IfI(lab)) && !Closes(Eif(lab))
    ensures !Closes(CatchI) && !Closes(WhileI(lab)) && !Closes(TryFinally(lab)) && !Closes(TryExcept(lab))
        && !Closes(Pop)
    ensures !Closes(Return) && !Closes(Return0) && !Closes(Done)
    ensures forall slot: nat :: !Closes(WhileId(slot, lab)) && !Closes(ForRange(slot, lab))
    ensures forall exit, depth: nat :: !Closes(ExitCode(exit, depth, lab))
    ensures Closes(EndCatch(lab)) && Closes(EndExcept(lab)) && Closes(EndFinally) && Closes(ContinueI)
  {
  }

  lemma OpIfQuesIs(rd: Reader, end: nat, f: Frame, e: Expr, lab: nat, b: Frame, done: nat, c: Frame)
    requires e.IfElse? && f.Frame? && f.ptr < |rd.code| && rd.code[f.ptr] == IfQues(lab) && lab >= 1
    requires HasExpr(f.exprs) && TopExpr(f.exprs) == e.cond
        && b == Block(rd, f.ptr + 1, lab - 1, Rest(f.exprs), false, false)
    requires b.Frame? && b.ptr < |rd.code| && rd.code[b.ptr] == Jump(done) && HasExpr(b.exprs)
        && TopExpr(b.exprs) == e.thn
    requires c == Block(rd, b.ptr + 1, done, Rest(b.exprs), false, false)
    requires c.Frame? && c.ptr == done && HasExpr(c.exprs) && TopExpr(c.exprs) == e.els && |Rest(c.exprs)| < rd.limit
    ensures Op(rd, end, f) == f.(ptr := done, exprs := Rest(c.exprs) + [E(e)])
  {
    hide Block, ReadOn;
  }

  lemma IfElseParsed(e: Expr)
    requires e.IfElse? && Parsed(e)
    ensures Parsed(e.cond) && Parsed(e.thn) && Parsed(e.els)
  {
  }

  lemma {:induction false} IfElseReads(rd: Reader, end: nat, f: Frame, e: Expr)
    requires e.IfElse? && Parsed(e) && f.Frame? && Here(rd, end, f, CodeExpr(e, f.ptr), DepthExpr(e))
    ensures ReadOn(rd, end, f) == ReadOn(rd, end, Moved(f, SizeExpr(e), f.exprs + [E(e)]))
    decreases e, 1
  {
    hide *;
    IfElseParts(Idle(), e, f.ptr, map[]);
    IfElseParsed(e);
    var x, n, thn, done := f.exprs, SizeExpr(e.cond), f.ptr + SizeExpr(e.cond) + 1, f.ptr + SizeExpr(e);
    var els := thn + SizeExpr(e.thn) + 1;
    var cc, ct, cf := CodeExpr(e.cond, f.ptr), CodeExpr(e.thn, thn), CodeExpr(e.els, els);
    HereLess(rd, end, f, cc + [IfQues(els)] + ct + [Jump(done)], cf, DepthExpr(e), DepthExpr(e));
    HereLess(rd, end, f, cc + [IfQues(els)] + ct, [Jump(done)], DepthExpr(e), DepthExpr(e));
    HereLess(rd, end, f, cc + [IfQues(els)], ct, DepthExpr(e), DepthExpr(e));
    HereSplit(rd, end, f, cc, [IfQues(els)], DepthExpr(e), DepthExpr(e.cond), x + [E(e.cond)], 0);
    ExprReads(rd, end, f, e.cond);
    var g := Moved(f, n, x + [E(e.cond)]);
    MovedParts(f, n, x + [E(e.cond)], done - f.ptr - n, x + [E(e)]);
    OpReads(rd, end, g, IfQues(els)) by { NotClosing(els); }
    TopIs(x, e.cond);
    AtItsEnd(rd, els - 1);
    AtItsEnd(rd, done);
    AtOne(rd.code, els - 1, Jump(done));
    var b := BlockReads(rd, thn, els - 1, x, e.thn);
    var c := BlockReads(rd, els, done, x, e.els);
    OpIfQuesIs(rd, end, g, e, els, b, done, c);
    MovedIs(g, done - g.ptr, x + [E(e)]);
  }

  function Append(a: Args, b: Args): Args {
    match a
    case ANil => b
    case ACons(s, e, rest) => ACons(s, e, Append(rest, b))
  }

  lemma {:induction false} AppendNext(a: Args, splice: bool, e: Expr, b: Args)
    ensures Append(AddArg(a, splice, e), b) == Append(a, ACons(splice, e, b)) && AddArg(a, splice, e).ACons?
  {
    if a.ACons? {
      AppendNext(a.rest, splice, e, b);
    }
  }

  lemma {:induction false} AppendNil(a: Args)
    ensures Append(a, ANil) == a
  {
    if a.ACons? {
      AppendNil(a.rest);
    }
  }

  lemma AppendOne(splice: bool, e: Expr, b: Args)
    ensures Append(ACons(splice, e, ANil), b) == ACons(splice, e, b)
  {
  }

  lemma ArgsParsed(args: Args)
    requires args.ACons? && ParsedArgs(args)
    ensures Parsed(args.e) && ParsedArgs(args.rest)
  {
  }

  lemma {:induction false} ArgsRead(rd: Reader, end: nat, f: Frame, args: Args)
    requires ParsedArgs(args) && f.Frame? && Here(rd, end, f, CodeArgs(args, f.ptr), DepthArgs(args))
    ensures ReadOn(rd, end, f) == ReadOn(rd, end, Moved(f, SizeArgs(args), f.exprs + [E(ListE(args))]))
    decreases args, 2
  {
    hide *;
    var x := f.exprs;
    IsSimple();
    match args
    case ANil =>
      ArgsEnds(Idle(), E_TYPE, f.ptr, map[]);
      ReducesList(x, ANil, Lit(NoneV), false, 0);
      HereIs(rd, end, f, [MakeEmptyList], DepthArgs(args));
      HereIs(rd, end, f, [MakeEmptyList], 0);
      ReduceReads(rd, end, f, MakeEmptyList, x + [E(ListE(ANil))]);
    case ACons(splice, e, rest) =>
      ArgsParts(Idle(), args, f.ptr, map[]);
      ArgsParsed(args);
      var i, n, one := if splice then CheckSplice
          else MakeSingleton, SizeExpr(e), x + [E(ListE(ACons(splice, e, ANil)))];
      var more := CodeMore(rest, f.ptr + n + 1);
      HereLess(rd, end, f, CodeExpr(e, f.ptr) + [i], more, DepthArgs(args), DepthArgs(args));
      HereSplit(rd, end, f, CodeExpr(e, f.ptr) + [i], more, DepthArgs(args), DepthArgs(args), one, 0);
      HereSplit(rd, end, f, CodeExpr(e, f.ptr), [i], DepthArgs(args), DepthExpr(e), x + [E(e)], 0);
      ExprReads(rd, end, f, e);
      ReducesList(x, ANil, e, splice, 0);
      MovedParts(f, n, x + [E(e)], 1, one);
      ReduceReads(rd, end, Moved(f, n, x + [E(e)]), i, one);
      MovedParts(f, n + 1, one, SizeMore(rest), x + [E(ListE(args))]);
      AppendOne(splice, e, rest);
      MoreReads(rd, end, Moved(f, n + 1, one), x, ACons(splice, e, ANil), rest);
  }

  lemma {:induction false} MoreReads(rd: Reader, end: nat, f: Frame, x: seq<Entry>, done: Args, args: Args)
    requires ParsedArgs(args) && done.ACons? && f.Frame? && f.exprs == x + [E(ListE(done))]
    requires Here(rd, end, f, CodeMore(args, f.ptr), 0) && |x| + DepthMore(args) <= rd.limit && |x| < rd.limit
    ensures ReadOn(rd, end, f) == ReadOn(rd, end, Moved(f, SizeMore(args), x + [E(ListE(Append(done, args)))]))
    decreases args, 2
  {
    hide *;
    IsSimple();
    match args
    case ANil =>
      ArgsEnds(Idle(), E_TYPE, f.ptr, map[]);
      AppendNil(done);
      MovedIs(f, 0, f.exprs);
    case ACons(splice, e, rest) =>
      MoreParts(Idle(), args, E_TYPE, f.ptr, map[]);
      ArgsParsed(args);
      var i, n, next := if splice then AppendI else AddTail, SizeExpr(e), AddArg(done, splice, e);
      var y, more := x + [E(ListE(next))], CodeMore(rest, f.ptr + n + 1);
      HereLess(rd, end, f, CodeExpr(e, f.ptr) + [i], more, 0, 0);
      HereSplit(rd, end, f, CodeExpr(e, f.ptr) + [i], more, 0, 0, y, 0);
      HereDeeper(rd, end, f, CodeExpr(e, f.ptr), [i], DepthExpr(e), f.exprs + [E(e)]);
      ExprReads(rd, end, f, e);
      ReducesList(x, done, e, splice, 0);
      MovedParts(f, n, f.exprs + [E(e)], 1, y);
      ReduceReads(rd, end, Moved(f, n, f.exprs + [E(e)]), i, y);
      MovedParts(f, n + 1, y, SizeMore(rest), x + [E(ListE(Append(done, args)))]);
      AppendNext(done, splice, e, rest);
      MoreReads(rd, end, Moved(f, n + 1, y), x, next, rest);
  }

  lemma HereDeeper(rd: Reader, end: nat, f: Frame, a: seq<Instr>, b: seq<Instr>, depth: nat, x: seq<Entry>)
    requires Here(rd, end, f, a + b, 0) && |f.exprs| + depth <= rd.limit && |x| <= rd.limit
    ensures Here(rd, end, f, a, depth) && Here(rd, end, Moved(f, |a|, x), b, 0)
  {
    AtSplit(rd.code, f.ptr, a, b);
  }

  // ---- catch expressions ----

  /** What the code of codes leaves on expr_stack. */
  function CodesExpr(codes: Codes): Expr {
    match codes
    case Any => Lit(IntV(0))
    case Only(args) => ListE(args)
  }

  lemma CodesBack(codes: Codes)
    requires ParsedCodes(codes)
    ensures ToCodes(CodesExpr(codes)) == Some(codes)
  {
  }

  lemma {:induction false} CodesRead(rd: Reader, end: nat, f: Frame, codes: Codes)
    requires ParsedCodes(codes) && f.Frame? && Here(rd, end, f, CodeCodes(codes, f.ptr), DepthCodes(codes))
    ensures ReadOn(rd, end, f) == ReadOn(rd, end, Moved(f, SizeCodes(codes), f.exprs + [E(CodesExpr(codes))]))
    decreases codes, 3
  {
    hide ReadOn, Op, Moved, At, CodeArgs, SizeArgs, Reduce;
    match codes
    case Any =>
      assert Literal(IntV(0)) == NumI(0);
      Reduces(f.exprs, Lit(NoneV), Lit(NoneV));
      assert Reduce(Literal(IntV(0)), f.exprs) == Some(f.exprs + [E(Lit(IntV(0)))]);
      ReduceReads(rd, end, f, NumI(0), f.exprs + [E(Lit(IntV(0)))]);
    case Only(args) => ArgsRead(rd, end, f, args);
  }

  lemma CatchParsed(e: Expr)
    requires e.CatchE? && Parsed(e)
    ensures Parsed(e.body) && ParsedCodes(e.codes) && ParsedExcept(e.except)
  {
  }

  lemma OpCatchIs(rd: Reader, end: nat, f: Frame, e: Expr, x: seq<Entry>, b: Frame, done: nat)
    requires e.CatchE? && f.Frame? && f.ptr < |rd.code| && rd.code[f.ptr] == CatchI && ParsedCodes(e.codes)
    requires b == Block(rd, f.ptr + 1, end, x, false, false) && b.Frame? && b.ptr < |rd.code|
        && rd.code[b.ptr] == EndCatch(done)
    requires f.exprs == x + [E(CodesExpr(e.codes))] + [Lab(b.ptr + 1)]
    requires HasExpr(b.exprs) && TopExpr(b.exprs) == e.body && Rest(b.exprs) == x
    ensures Op(rd, end, f) == OpDefault(rd, f, e.codes, e.body, b.ptr + 1, done, x)
  {
    hide Block, ReadOn, OpDefault;
    CodesBack(e.codes);
    assert f.exprs[..|f.exprs| - 2] == x;
  }

  lemma OpDefaultNone(rd: Reader, f: Frame, e: Expr, ptr: nat, done: nat, x: seq<Entry>)
    requires e.CatchE? && e.except.None? && f.Frame? && f.ptr < ptr && done == ptr + SizeExcept(e.except)
    requires At(rd.code, ptr, CodeExcept(e.except, ptr)) && |x| < rd.limit
    ensures f.ptr < |rd.code| && OpDefault(rd, f, e.codes, e.body, ptr, done, x) == f.(ptr := done, exprs := x + [E(e)])
  {
    assert [NumI(1), BinI(IndexOp)] == [NumI(1)] + [BinI(IndexOp)];
    AtSplit(rd.code, ptr, [NumI(1)], [BinI(IndexOp)]);
    AtOne(rd.code, ptr, NumI(1));
    AtOne(rd.code, ptr + 1, BinI(IndexOp));
  }

  lemma OpDefaultSome(rd: Reader, f: Frame, e: Expr, ptr: nat, done: nat, x: seq<Entry>, b: Frame)
    requires e.CatchE? && e.except.Some? && f.Frame? && f.ptr < ptr < |rd.code| && rd.code[ptr] == Pop
    requires b == Block(rd, ptr + 1, done, x, false, false) && b.Frame? && b.ptr == done && HasExpr(b.exprs)
    requires TopExpr(b.exprs) == e.except.value && Rest(b.exprs) == x && |x| < rd.limit
    ensures OpDefault(rd, f, e.codes, e.body, ptr, done, x) == f.(ptr := done, exprs := x + [E(e)])
  {
    hide Block, ReadOn;
  }

  lemma ExceptParts(except: Option<Expr>, pc: nat)
    requires except.Some?
    ensures CodeExcept(except, pc) == [Pop] + CodeExpr(except.value, pc + 1)
        && SizeExcept(except) == 1 + SizeExpr(except.value)
    ensures DepthExcept(except) == DepthExpr(except.value) && (ParsedExcept(except) <==> Parsed(except.value))
  {
  }

  /** The pieces of the code of a catch expression. */
  lemma CatchAt(rd: Reader, end: nat, f: Frame, e: Expr)
    requires e.CatchE? && f.Frame? && Here(rd, end, f, CodeExpr(e, f.ptr), DepthExpr(e))
    ensures var done, try := f.ptr + SizeExpr(e), f.ptr + SizeCodes(e.codes) + 2;
            var h := try + SizeExpr(e.body) + 1;
            var x1 := f.exprs + [E(CodesExpr(e.codes))];
            && Here(rd, end, f, CodeCodes(e.codes, f.ptr), DepthCodes(e.codes))
            && Here(rd, end, Moved(f, SizeCodes(e.codes), x1), [PushLabel(h), CatchI], 0)
            && At(rd.code, try, CodeExpr(e.body, try)) && h - 1 < |rd.code| && rd.code[h - 1] == EndCatch(done)
            && At(rd.code, h, CodeExcept(e.except, h)) && done == h + SizeExcept(e.except) && done <= end
    ensures |f.exprs| + 3 + DepthExpr(e.body) <= rd.limit && |f.exprs| + DepthExcept(e.except) <= rd.limit
    ensures DepthExpr(e.body) >= 1
  {
    hide *;
    CatchParts(Idle(), e, f.ptr, map[]);
    var done, try, depth := f.ptr + SizeExpr(e), f.ptr + SizeCodes(e.codes) + 2, DepthExpr(e);
    var h := try + SizeExpr(e.body) + 1;
    var cc, ct, cx := CodeCodes(e.codes, f.ptr), CodeExpr(e.body, try), CodeExcept(e.except, h);
    var front, x1 := cc + [PushLabel(h), CatchI], f.exprs + [E(CodesExpr(e.codes))];
    HereLess(rd, end, f, front + ct + [EndCatch(done)], cx, depth, depth);
    HereLess(rd, end, f, front + ct, [EndCatch(done)], depth, depth);
    HereLess(rd, end, f, front, ct, depth, depth);
    HereSplit(rd, end, f, cc, [PushLabel(h), CatchI], depth, DepthCodes(e.codes), x1, 0);
    AtOne(rd.code, h - 1, EndCatch(done));
  }

  lemma {:induction false} CatchReads(rd: Reader, end: nat, f: Frame, e: Expr)
    requires e.CatchE? && Parsed(e) && f.Frame? && Here(rd, end, f, CodeExpr(e, f.ptr), DepthExpr(e))
    ensures ReadOn(rd, end, f) == ReadOn(rd, end, Moved(f, SizeExpr(e), f.exprs + [E(e)]))
    decreases e, 1
  {
    hide *;
    CatchAt(rd, end, f, e);
    CatchParsed(e);
    var x, n, done := f.exprs, SizeCodes(e.codes), f.ptr + SizeExpr(e);
    var try := f.ptr + n + 2;
    var h := try + SizeExpr(e.body) + 1;
    var x1 := x + [E(CodesExpr(e.codes))];
    var x2 := x1 + [Lab(h)];
    CodesRead(rd, end, f, e.codes);
    var g := Moved(f, n, x1);
    MovedParts(f, n, x1, 1, x2);
    assert [PushLabel(h), CatchI] == [PushLabel(h)] + [CatchI];
    HereSplit(rd, end, g, [PushLabel(h)], [CatchI], 0, 0, x2, 0);
    ReducesList(x1, ANil, e, false, h);
    IsSimple();
    ReduceReads(rd, end, g, PushLabel(h), x2);
    var g2 := Moved(f, n + 1, x2);
    MovedParts(f, n + 1, x2, done - f.ptr - n - 1, x + [E(e)]);
    OpReads(rd, end, g2, CatchI) by { NotClosing(h); }
    CatchOp(rd, end, g2, e, x, h, done);
    MovedIs(g2, done - g2.ptr, x + [E(e)]);
  }

  /** CATCH, with the codes and the label of the handler on expr_stack. */
  lemma {:induction false} CatchOp(rd: Reader, end: nat, f: Frame, e: Expr, x: seq<Entry>, h: nat, done: nat)
    requires e.CatchE? && Parsed(e) && f.Frame? && f.ptr < |rd.code| && rd.code[f.ptr] == CatchI
    requires f.exprs == x + [E(CodesExpr(e.codes))] + [Lab(h)] && h == f.ptr + 1 + SizeExpr(e.body) + 1
    requires At(rd.code, f.ptr + 1, CodeExpr(e.body, f.ptr + 1)) && h - 1 < |rd.code|
        && rd.code[h - 1] == EndCatch(done)
    requires At(rd.code, h, CodeExcept(e.except, h)) && done == h + SizeExcept(e.except) && done <= end && h <= end
    requires |x| + 3 + DepthExpr(e.body) <= rd.limit && |x| + DepthExcept(e.except) <= rd.limit
    ensures Op(rd, end, f) == f.(ptr := done, exprs := x + [E(e)])
    decreases e, 0
  {
    hide *;
    CatchParsed(e);
    assert Over(rd, h - 1, end) by { NotClosing(done); ClosedHere(rd, h - 1, end); }
    var b := BlockReads(rd, f.ptr + 1, end, x, e.body);
    OpCatchIs(rd, end, f, e, x, b, done);
    if e.except.None? {
      OpDefaultNone(rd, f, e, h, done, x);
    } else {
      ExceptParts(e.except, h);
      AtSplit(rd.code, h, [Pop], CodeExpr(e.except.value, h + 1));
      AtOne(rd.code, h, Pop);
      AtItsEnd(rd, done);
      var c := BlockReads(rd, h + 1, done, x, e.except.value);
      OpDefaultSome(rd, f, e, h, done, x, c);
    }
  }

  lemma ClosedHere(rd: Reader, ptr: nat, end: nat)
    requires ptr < end && ptr < |rd.code| && Closes(rd.code[ptr])
    ensures Over(rd, ptr, end)
  {
  }
}
