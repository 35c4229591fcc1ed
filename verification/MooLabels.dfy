/** The labels of a program are inside it, and its exits name no more stack entries than it may use. */
module MooLabels {
  import opened Options
  import opened MooAst
  import opened MooCode
  import opened MooItems
  import opened MooExprRuns
  import opened MooStmtRuns
  import opened MooGenerator

  /** How far down an exit unwinds. */
  function DepthOf(i: Instr): nat {
    match i
    case Exit(depth, _) => depth
    case ExitId(_, depth, _) => depth
    case _ => 0
  }

  /** Labels are at most hi, exits at most deep. */
  predicate UpTo(code: seq<Instr>, hi: nat, deep: nat) {
    forall i :: 0 <= i < |code| ==> LabelOf(code[i]) <= hi && DepthOf(code[i]) <= deep
  }

  lemma UpToPlus(a: seq<Instr>, b: seq<Instr>, hi: nat, deep: nat)
    requires UpTo(a, hi, deep) && UpTo(b, hi, deep)
    ensures UpTo(a + b, hi, deep)
  {
  }

  lemma UpToFive(a: seq<Instr>, b: seq<Instr>, c: seq<Instr>, d: seq<Instr>, e: seq<Instr>, hi: nat, deep: nat)
    requires UpTo(a, hi, deep) && UpTo(b, hi, deep) && UpTo(c, hi, deep) && UpTo(d, hi, deep) && UpTo(e, hi, deep)
    ensures UpTo(a + b, hi, deep) && UpTo(a + b + c, hi, deep) && UpTo(a + b + c + d, hi, deep)
        && UpTo(a + b + c + d + e, hi, deep)
  {
    hide UpTo;
    UpToPlus(a, b, hi, deep);
    UpToPlus(a + b, c, hi, deep);
    UpToPlus(a + b + c, d, hi, deep);
    UpToPlus(a + b + c + d, e, hi, deep);
  }

  lemma UpToLeaf(e: Expr, pc: nat, hi: nat, deep: nat)
    requires e.Lit? || e.Id?
    ensures UpTo(CodeExpr(e, pc), hi, deep)
  {
  }

  lemma UpToPlain(i: Instr, hi: nat, deep: nat)
    requires !HasLabel(i)
    ensures UpTo([i], hi, deep)
  {
  }

  /** Instructions without a label. */
  lemma Unlabelled(hi: nat, deep: nat)
    ensures UpTo([], hi, deep) && UpTo([Pop], hi, deep) && UpTo([MakeEmptyList], hi, deep)
        && UpTo([MakeSingleton], hi, deep) && UpTo([CheckSplice], hi, deep)
    ensures UpTo([AddTail], hi, deep) && UpTo([AppendI], hi, deep) && UpTo([Small(0)], hi, deep)
        && UpTo([Small(1)], hi, deep) && UpTo([BinI(IndexOp)], hi, deep)
    ensures UpTo([CatchI], hi, deep) && UpTo([EndFinally], hi, deep) && UpTo([ContinueI], hi, deep)
        && UpTo([Return], hi, deep) && UpTo([Return0], hi, deep)
    ensures UpTo([Done], hi, deep)
    ensures forall op :: UpTo([BinI(op)], hi, deep)
    ensures forall op :: UpTo([UnI(op)], hi, deep)
    ensures forall slot: nat :: UpTo([Put(slot)], hi, deep)
    ensures forall n: nat :: UpTo([TryExcept(n)], hi, deep)
  {
    NoLabels(hi, deep);
    hide UpTo;
    forall i | !HasLabel(i) ensures UpTo([i], hi, deep) {
      UpToPlain(i, hi, deep);
    }
  }

  lemma NoLabels(hi: nat, deep: nat)
    ensures UpTo([], hi, deep)
  {
  }

  /** Instructions with a label. */
  lemma Labelled(lab: nat, slot: nat, hi: nat, deep: nat)
    requires lab <= hi
    ensures UpTo([AndI(lab)], hi, deep) && UpTo([OrI(lab)], hi, deep) && UpTo([IfQues(lab)], hi, deep)
        && UpTo([Jump(lab)], hi, deep) && UpTo([IfI(lab)], hi, deep)
    ensures UpTo([Eif(lab)], hi, deep) && UpTo([WhileI(lab)], hi, deep) && UpTo([WhileId(slot, lab)], hi, deep)
        && UpTo([ForRange(slot, lab)], hi, deep)
    ensures UpTo([PushLabel(lab)], hi, deep) && UpTo([EndCatch(lab)], hi, deep) && UpTo([EndExcept(lab)], hi, deep)
        && UpTo([TryFinally(lab)], hi, deep)
  {
  }

  lemma {:induction false} UpToExpr(e: Expr, pc: nat, hi: nat, deep: nat)
    requires pc + SizeExpr(e) <= hi
    ensures UpTo(CodeExpr(e, pc), hi, deep)
    decreases e, 1
  {
    hide *;
    Unlabelled(hi, deep);
    match e
    case Lit(_) => UpToLeaf(e, pc, hi, deep);
    case Id(_) => UpToLeaf(e, pc, hi, deep);
    case Bin(op, l, r) =>
      BinParts(Idle(), e, pc, map[]);
      UpToExpr(l, pc, hi, deep);
      UpToExpr(r, pc + SizeExpr(l), hi, deep);
      UpToFive(CodeExpr(l, pc), CodeExpr(r, pc + SizeExpr(l)), [BinI(op)], [], [], hi, deep);
    case Un(op, a) =>
      UnaryParts(e, pc);
      UpToExpr(a, pc, hi, deep);
      UpToPlus(CodeExpr(a, pc), [UnI(op)], hi, deep);
    case And(_, _) => UpToShort(e, pc, hi, deep);
    case Or(_, _) => UpToShort(e, pc, hi, deep);
    case IfElse(c, t, f) =>
      IfElseParts(Idle(), e, pc, map[]);
      var thn, end := pc + SizeExpr(c) + 1, pc + SizeExpr(e);
      var els := thn + SizeExpr(t) + 1;
      UpToExpr(c, pc, hi, deep);
      UpToExpr(t, thn, hi, deep);
      UpToExpr(f, els, hi, deep);
      Labelled(els, 0, hi, deep);
      Labelled(end, 0, hi, deep);
      UpToFive(CodeExpr(c, pc), [IfQues(els)], CodeExpr(t, thn), [Jump(end)], CodeExpr(f, els), hi, deep);
    case ListE(args) =>
      ListShape(args, pc);
      UpToArgs(args, pc, hi, deep);
    case Assign(slot, r) =>
      UnaryParts(e, pc);
      UpToExpr(r, pc, hi, deep);
      UpToPlus(CodeExpr(r, pc), [Put(slot)], hi, deep);
    case CatchE(_, _, _) => UpToCatch(e, pc, hi, deep);
  }

  lemma {:induction false} UpToShort(e: Expr, pc: nat, hi: nat, deep: nat)
    requires (e.And? || e.Or?) && pc + SizeExpr(e) <= hi
    ensures UpTo(CodeExpr(e, pc), hi, deep)
    decreases e, 0
  {
    hide *;
    ShortParts(Idle(), e, pc, map[]);
    var end, mid := pc + SizeExpr(e), pc + SizeExpr(e.lhs);
    var i := if e.And? then AndI(end) else OrI(end);
    UpToExpr(e.lhs, pc, hi, deep);
    UpToExpr(e.rhs, mid + 1, hi, deep);
    Labelled(end, 0, hi, deep);
    UpToPlus(CodeExpr(e.lhs, pc), [i], hi, deep);
    UpToPlus(CodeExpr(e.lhs, pc) + [i], CodeExpr(e.rhs, mid + 1), hi, deep);
  }

  lemma {:induction false} UpToCodes(codes: Codes, pc: nat, hi: nat, deep: nat)
    requires pc + SizeCodes(codes) <= hi
    ensures UpTo(CodeCodes(codes, pc), hi, deep)
    decreases codes, 1
  {
    hide *;
    CodesShape(codes, pc);
    Unlabelled(hi, deep);
    if codes.Only? {
      UpToArgs(codes.args, pc, hi, deep);
    }
  }

  lemma {:induction false} UpToDefault(except: Option<Expr>, pc: nat, hi: nat, deep: nat)
    requires pc + SizeExcept(except) <= hi
    ensures UpTo(CodeExcept(except, pc), hi, deep)
    decreases except, 1
  {
    hide *;
    ExceptShape(except, pc, 1, 1);
    Unlabelled(hi, deep);
    match except
    case None => UpToPlus([Small(1)], [BinI(IndexOp)], hi, deep);
    case Some(d) =>
      UpToExpr(d, pc + 1, hi, deep);
      UpToPlus([Pop], CodeExpr(d, pc + 1), hi, deep);
  }

  lemma {:induction false} UpToCatch(e: Expr, pc: nat, hi: nat, deep: nat)
    requires e.CatchE? && pc + SizeExpr(e) <= hi
    ensures UpTo(CodeExpr(e, pc), hi, deep)
    decreases e, 0
  {
    hide *;
    CatchParts(Idle(), e, pc, map[]);
    var try, end := pc + SizeCodes(e.codes) + 2, pc + SizeExpr(e);
    var h := try + SizeExpr(e.body) + 1;
    UpToCodes(e.codes, pc, hi, deep);
    UpToExpr(e.body, try, hi, deep);
    UpToDefault(e.except, h, hi, deep);
    Labelled(h, 0, hi, deep);
    Labelled(end, 0, hi, deep);
    Unlabelled(hi, deep);
    UpToPlus([PushLabel(h)], [CatchI], hi, deep);
    assert [PushLabel(h)] + [CatchI] == [PushLabel(h), CatchI];
    UpToFive(CodeCodes(e.codes, pc), [PushLabel(h), CatchI], CodeExpr(e.body, try), [EndCatch(end)],
      CodeExcept(e.except, h), hi, deep);
  }

  lemma {:induction false} UpToArgs(args: Args, pc: nat, hi: nat, deep: nat)
    requires pc + SizeArgs(args) <= hi
    ensures UpTo(CodeArgs(args, pc), hi, deep)
    decreases args, 1
  {
    hide *;
    Unlabelled(hi, deep);
    match args
    case ANil => NoArgs(args, pc, 0, 0);
    case ACons(splice, e, rest) =>
      ArgsParts(Idle(), args, pc, map[]);
      var i, mid := if splice then CheckSplice else MakeSingleton, pc + SizeExpr(e);
      UpToExpr(e, pc, hi, deep);
      UpToMore(rest, mid + 1, hi, deep);
      UpToPlus(CodeExpr(e, pc), [i], hi, deep);
      UpToPlus(CodeExpr(e, pc) + [i], CodeMore(rest, mid + 1), hi, deep);
  }

  lemma {:induction false} UpToMore(args: Args, pc: nat, hi: nat, deep: nat)
    requires pc + SizeMore(args) <= hi
    ensures UpTo(CodeMore(args, pc), hi, deep)
    decreases args, 1
  {
    hide *;
    Unlabelled(hi, deep);
    match args
    case ANil => ArgsEnds(Idle(), NoneV, pc, map[]);
    case ACons(splice, e, rest) =>
      MoreParts(Idle(), args, NoneV, pc, map[]);
      var i, mid := if splice then AppendI else AddTail, pc + SizeExpr(e);
      UpToExpr(e, pc, hi, deep);
      UpToMore(rest, mid + 1, hi, deep);
      UpToPlus(CodeExpr(e, pc), [i], hi, deep);
      UpToPlus(CodeExpr(e, pc) + [i], CodeMore(rest, mid + 1), hi, deep);
  }

  predicate LoopsUpTo(loops: seq<Loop>, hi: nat, deep: nat) {
    forall l :: l in loops ==> l.top <= hi && l.bottom <= hi && l.topDepth <= deep && l.bottomDepth <= deep
  }

  lemma NoCode(s: Stmts, pc: nat, d: nat, loops: seq<Loop>, hi: nat, deep: nat)
    requires s.SNil?
    ensures UpTo(CodeStmts(s, pc, d, loops), hi, deep)
  {
  }

  lemma {:induction false} UpToStmts(s: Stmts, pc: nat, d: nat, loops: seq<Loop>, hi: nat, deep: nat)
    requires WellScoped(s, Ids(loops)) && pc + SizeStmts(s) <= hi && d + DepthStmts(s) <= deep
        && LoopsUpTo(loops, hi, deep)
    ensures UpTo(CodeStmts(s, pc, d, loops), hi, deep)
    decreases s, 2
  {
    hide *;
    match s
    case SNil => NoCode(s, pc, d, loops, hi, deep);
    case SCons(h, t) =>
      StmtsParts(Idle(), s, pc, d, loops, map[], 0);
      UpToStmt(h, pc, d, loops, hi, deep);
      UpToStmts(t, pc + SizeStmt(h), d, loops, hi, deep);
      UpToPlus(CodeStmt(h, pc, d, loops), CodeStmts(t, pc + SizeStmt(h), d, loops), hi, deep);
  }

  lemma LoopsUpToMore(loops: seq<Loop>, l: Loop, hi: nat, deep: nat)
    requires LoopsUpTo(loops, hi, deep) && l.top <= hi && l.bottom <= hi && l.topDepth <= deep && l.bottomDepth <= deep
    ensures LoopsUpTo(loops + [l], hi, deep)
  {
  }

  lemma {:induction false} UpToStmt(s: Stmt, pc: nat, d: nat, loops: seq<Loop>, hi: nat, deep: nat)
    requires WellScopedStmt(s, Ids(loops)) && pc + SizeStmt(s) <= hi && d + DepthStmt(s) <= deep
        && LoopsUpTo(loops, hi, deep)
    ensures UpTo(CodeStmt(s, pc, d, loops), hi, deep)
    decreases s, 2
  {
    hide *;
    match s
    case ExprS(e) =>
      ExprSParts(Idle(), s, pc, d, loops, map[], 0);
      Unlabelled(hi, deep);
      UpToExpr(e, pc, hi, deep);
      UpToPlus(CodeExpr(e, pc), [Pop], hi, deep);
    case CondS(arms) =>
      CondParts(Idle(), s, pc, d, loops, map[], 0);
      UpToArms(arms, true, pc, d, loops, pc + SizeStmt(s), hi, deep);
    case WhileS(_, _, _) => UpToWhile(s, pc, d, loops, hi, deep);
    case RangeS(_, _, _, _) => UpToRange(s, pc, d, loops, hi, deep);
    case ReturnS(r) =>
      ReturnParts(Idle(), s, pc, d, loops, map[], 0);
      Unlabelled(hi, deep);
      if r.Some? {
        UpToExpr(r.value, pc, hi, deep);
        UpToPlus(CodeExpr(r.value, pc), [Return], hi, deep);
      }
    case TryExceptS(_, _) => UpToExcept(s, pc, d, loops, hi, deep);
    case TryFinallyS(_, _) => UpToFinally(s, pc, d, loops, hi, deep);
    case BreakS(exit) => UpToExit(s, pc, d, loops, hi, deep);
    case ContinueS(exit) => UpToExit(s, pc, d, loops, hi, deep);
  }

  lemma {:induction false} UpToFinally(s: Stmt, pc: nat, d: nat, loops: seq<Loop>, hi: nat, deep: nat)
    requires s.TryFinallyS? && WellScopedStmt(s, Ids(loops)) && pc + SizeStmt(s) <= hi && d + DepthStmt(s) <= deep
        && LoopsUpTo(loops, hi, deep)
    ensures UpTo(CodeStmt(s, pc, d, loops), hi, deep)
    decreases s, 1
  {
    hide *;
    FinallyParts(Idle(), s, pc, d, loops, map[], 0);
    var h := pc + 1 + SizeStmts(s.body) + 1;
    Labelled(h, 0, hi, deep);
    Unlabelled(hi, deep);
    UpToStmts(s.body, pc + 1, d + 1, loops, hi, deep);
    UpToStmts(s.handler, h, d + 2, loops, hi, deep);
    UpToFive([TryFinally(h)], CodeStmts(s.body, pc + 1, d + 1, loops), [EndFinally],
      CodeStmts(s.handler, h, d + 2, loops), [ContinueI], hi, deep);
  }

  lemma {:induction false} UpToExit(s: Stmt, pc: nat, d: nat, loops: seq<Loop>, hi: nat, deep: nat)
    requires (s.BreakS? || s.ContinueS?) && WellScopedStmt(s, Ids(loops)) && LoopsUpTo(loops, hi, deep)
    ensures UpTo(CodeStmt(s, pc, d, loops), hi, deep)
  {
    hide Ids;
    assert Target(loops, s.exit) in loops;
  }

  lemma {:induction false} UpToWhile(s: Stmt, pc: nat, d: nat, loops: seq<Loop>, hi: nat, deep: nat)
    requires s.WhileS? && WellScopedStmt(s, Ids(loops)) && pc + SizeStmt(s) <= hi && d + DepthStmt(s) <= deep
        && LoopsUpTo(loops, hi, deep)
    ensures UpTo(CodeStmt(s, pc, d, loops), hi, deep)
    decreases s, 1
  {
    hide *;
    WhileParts(Idle(), s, pc, d, loops, map[], 0);
    var l, end, mid := WhileLoop(s, pc, d), pc + SizeStmt(s), pc + SizeExpr(s.cond);
    var i := if s.id.Some? then WhileId(s.id.value, end) else WhileI(end);
    LoopsUpToMore(loops, l, hi, deep);
    UpToExpr(s.cond, pc, hi, deep);
    Labelled(end, if s.id.Some? then s.id.value else 0, hi, deep);
    Labelled(pc, 0, hi, deep);
    UpToStmts(s.body, mid + 1, d, loops + [l], hi, deep);
    Unlabelled(hi, deep);
    UpToFive(CodeExpr(s.cond, pc), [i], CodeStmts(s.body, mid + 1, d, loops + [l]), [Jump(pc)], [], hi, deep);
  }

  lemma {:induction false} UpToRange(s: Stmt, pc: nat, d: nat, loops: seq<Loop>, hi: nat, deep: nat)
    requires s.RangeS? && WellScopedStmt(s, Ids(loops)) && pc + SizeStmt(s) <= hi && d + DepthStmt(s) <= deep
        && LoopsUpTo(loops, hi, deep)
    ensures UpTo(CodeStmt(s, pc, d, loops), hi, deep)
    decreases s, 1
  {
    hide *;
    RangeParts(Idle(), s, pc, d, loops, map[], 0);
    var l, end := RangeLoop(s, pc, d), pc + SizeStmt(s);
    LoopsUpToMore(loops, l, hi, deep);
    UpToExpr(s.from, pc, hi, deep);
    UpToExpr(s.to, pc + SizeExpr(s.from), hi, deep);
    Labelled(end, s.slot, hi, deep);
    Labelled(l.top, 0, hi, deep);
    UpToStmts(s.body, l.top + 1, d + 2, loops + [l], hi, deep);
    UpToFive(CodeExpr(s.from, pc), CodeExpr(s.to, pc + SizeExpr(s.from)), [ForRange(s.slot, end)],
             CodeStmts(s.body, l.top + 1, d + 2, loops + [l]), [Jump(l.top)], hi, deep);
  }

  lemma {:induction false} UpToArms(a: Arms, first: bool, pc: nat, d: nat, loops: seq<Loop>, done: nat, hi: nat,
      deep: nat)
    requires WellScopedArms(a, Ids(loops)) && pc + SizeArms(a) <= hi && d + DepthArms(a) <= deep && done <= hi
        && LoopsUpTo(loops, hi, deep)
    ensures UpTo(CodeArms(a, first, pc, d, loops, done), hi, deep)
    decreases a, 2
  {
    hide *;
    match a
    case Else(body) =>
      ElseParts(Idle(), a, first, pc, d, loops, done, map[], 0);
      UpToStmts(body, pc, d, loops, hi, deep);
    case Arm(cond, body, rest) =>
      ArmParts(Idle(), a, first, pc, d, loops, done, map[], 0);
      var thn := pc + SizeExpr(cond) + 1;
      var next := thn + SizeStmts(body) + 1;
      var i := if first then IfI(next) else Eif(next);
      UpToExpr(cond, pc, hi, deep);
      Labelled(next, 0, hi, deep);
      Labelled(done, 0, hi, deep);
      UpToStmts(body, thn, d, loops, hi, deep);
      UpToArms(rest, false, next, d, loops, done, hi, deep);
      UpToFive(CodeExpr(cond, pc), [i], CodeStmts(body, thn, d, loops), [Jump(done)],
        CodeArms(rest, false, next, d, loops, done), hi, deep);
  }

  lemma {:induction false} UpToExcept(s: Stmt, pc: nat, d: nat, loops: seq<Loop>, hi: nat, deep: nat)
    requires s.TryExceptS? && WellScopedStmt(s, Ids(loops)) && pc + SizeStmt(s) <= hi && d + DepthStmt(s) <= deep
        && LoopsUpTo(loops, hi, deep)
    ensures UpTo(CodeStmt(s, pc, d, loops), hi, deep)
    decreases s, 1
  {
    hide *;
    ExceptSCode(s, pc, d, loops);
    var x, n, end, try := s.excepts, CountExcepts(s.excepts), pc + SizeStmt(s), pc + SizeAllCodes(s.excepts) + 1;
    var h := try + SizeStmts(s.body) + 1;
    UpToAllCodes(x, pc, h, hi, deep);
    Unlabelled(hi, deep);
    Labelled(end, 0, hi, deep);
    UpToStmts(s.body, try, d + 2 * n + 1, loops, hi, deep);
    UpToHandlers(x, h, d, loops, end, hi, deep);
    UpToFive(CodeAllCodes(x, pc, h), [TryExcept(n)], CodeStmts(s.body, try, d + 2 * n + 1, loops), [EndExcept(end)],
             CodeHandlers(x, h, d, loops, end), hi, deep);
  }

  lemma NoExceptCode(x: Excepts, pc: nat, h: nat, d: nat, loops: seq<Loop>, done: nat, hi: nat, deep: nat)
    requires x.XNil?
    ensures UpTo(CodeAllCodes(x, pc, h), hi, deep) && UpTo(CodeHandlers(x, pc, d, loops, done), hi, deep)
  {
  }

  lemma {:induction false} UpToAllCodes(x: Excepts, pc: nat, h: nat, hi: nat, deep: nat)
    requires pc + SizeAllCodes(x) <= hi && h + SizeHandlers(x) <= hi
    ensures UpTo(CodeAllCodes(x, pc, h), hi, deep)
    decreases x
  {
    hide *;
    match x
    case XNil => NoExceptCode(x, pc, h, 0, [], 0, hi, deep);
    case XCons(slot, codes, body, rest) =>
      AllCodesParts(Idle(), x, pc, h, map[]);
      HandlersSize(x);
      var mid, h' := pc + SizeCodes(codes), h + SizeHandler(slot, SizeStmts(body), rest.XNil?);
      UpToCodes(codes, pc, hi, deep);
      Labelled(h, 0, hi, deep);
      UpToAllCodes(rest, mid + 1, h', hi, deep);
      UpToPlus(CodeCodes(codes, pc), [PushLabel(h)], hi, deep);
      UpToPlus(CodeCodes(codes, pc) + [PushLabel(h)], CodeAllCodes(rest, mid + 1, h'), hi, deep);
  }

  lemma HandlersSize(x: Excepts)
    requires x.XCons?
    ensures SizeHandlers(x) == SizeHandler(x.slot, SizeStmts(x.body), x.rest.XNil?) + SizeHandlers(x.rest)
  {
  }

  lemma HandlersDepth(x: Excepts)
    requires x.XCons?
    ensures DepthHandlers(x) >= DepthStmts(x.body) && DepthHandlers(x) >= DepthHandlers(x.rest)
  {
  }

  lemma {:induction false} UpToHandlers(x: Excepts, pc: nat, d: nat, loops: seq<Loop>, done: nat, hi: nat, deep: nat)
    requires WellScopedExcepts(x, Ids(loops)) && pc + SizeHandlers(x) <= hi && d + DepthHandlers(x) <= deep
        && done <= hi && LoopsUpTo(loops, hi, deep)
    ensures UpTo(CodeHandlers(x, pc, d, loops, done), hi, deep)
    decreases x, 2
  {
    hide *;
    match x
    case XNil => NoExceptCode(x, pc, pc, d, loops, done, hi, deep);
    case XCons(slot, _, body, rest) =>
      HandlersShape(x, pc, d, loops, done);
      HandlersDepth(x);
      Unlabelled(hi, deep);
      Labelled(done, 0, hi, deep);
      var store, jump := if slot.Some? then [Put(slot.value)] else [], if rest.XNil? then [] else [Jump(done)];
      var next := pc + SizeHandler(slot, SizeStmts(body), rest.XNil?);
      UpToStmts(body, pc + |store| + 1, d, loops, hi, deep);
      UpToHandlers(rest, next, d, loops, done, hi, deep);
      UpToFive(store, [Pop], CodeStmts(body, pc + |store| + 1, d, loops), jump,
        CodeHandlers(rest, next, d, loops, done), hi, deep);
  }

  /** Every label of a program names one of its instructions, and no exit names more entries than the recorded
      maximum. */
  lemma LabelsNameInstructions(s: Stmts)
    requires WellScoped(s, [])
    ensures UpTo(Program(s), |Program(s)| - 1, MaxStack(s))
  {
    hide UpTo, CodeStmts;
    assert Ids([]) == [];
    var hi, deep := SizeStmts(s), MaxStack(s);
    UpToStmts(s, 0, 0, [], hi, deep);
    Unlabelled(hi, deep);
    UpToPlus(CodeStmts(s, 0, 0, []), [Done], hi, deep);
  }
}
