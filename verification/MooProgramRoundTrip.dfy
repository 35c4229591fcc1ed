/** The round trip for statements and whole programs. */
module MooProgramRoundTrip {
  import opened Options
  import opened MooAst
  import opened MooCode
  import opened MooDecompiler
  import opened MooExprRuns
  import opened MooStmtRuns
  import opened MooRoundTrip

  function FromStmts(s: Stmts): seq<Stmt> {
    match s
    case SNil => []
    case SCons(h, t) => [h] + FromStmts(t)
  }

  lemma {:induction false} StmtsBack(s: Stmts)
    ensures ToStmts(FromStmts(s)) == s
  {
    match s
    case SNil =>
    case SCons(h, t) =>
      assert FromStmts(s)[1..] == FromStmts(t);
      StmtsBack(t);
  }

  function FromArms(a: Arms): seq<(Expr, Stmts)> {
    match a
    case Else(_) => []
    case Arm(cond, body, rest) => [(cond, body)] + FromArms(rest)
  }

  function Otherwise(a: Arms): Stmts {
    match a
    case Else(body) => body
    case Arm(_, _, rest) => Otherwise(rest)
  }

  lemma {:induction false} ArmsBack(a: Arms)
    ensures ToArms(FromArms(a), Otherwise(a)) == a
  {
    match a
    case Else(_) =>
    case Arm(cond, body, rest) =>
      assert FromArms(a)[1..] == FromArms(rest);
      ArmsBack(rest);
  }

  /** The frame after statements have been added to its sink. */
  function Grown(f: Frame, n: nat, s: seq<Stmt>): Frame
    requires f.Frame?
  {
    f.(ptr := f.ptr + n, stmts := f.stmts + s, start := f.ptr + n)
  }

  /** A statement is about to be read. */
  predicate HereS(rd: Reader, end: nat, f: Frame, code: seq<Instr>, depth: nat) {
    Here(rd, end, f, code, depth) && f.Frame? && f.sink && f.start == f.ptr
  }

  /** Every enclosing loop starts before and ends after the code from lo to hi. */
  predicate LoopsAround(loops: seq<Loop>, lo: nat, hi: nat) {
    forall l :: l in loops ==> l.top <= lo && l.bottom >= hi
  }

  lemma AroundLess(loops: seq<Loop>, lo: nat, hi: nat, lo': nat, hi': nat)
    requires LoopsAround(loops, lo, hi) && lo <= lo' && hi' <= hi
    ensures LoopsAround(loops, lo', hi')
  {
  }

  lemma AroundMore(loops: seq<Loop>, l: Loop, lo: nat, hi: nat)
    requires LoopsAround(loops, lo, hi) && l.top <= lo && l.bottom >= hi
    ensures LoopsAround(loops + [l], lo, hi)
  {
  }

  lemma GrownParts(f: Frame, n: nat, s: seq<Stmt>, k: nat, t: seq<Stmt>)
    requires f.Frame?
    ensures Grown(f, n, s).Frame? && Grown(f, n, s).ptr == f.ptr + n
    ensures Grown(Grown(f, n, s), k, t) == Grown(f, n + k, s + t)
    ensures f.start == f.ptr ==> Grown(f, 0, []) == f
  {
    assert f.stmts + s + t == f.stmts + (s + t);
    assert f.stmts + [] == f.stmts;
  }

  lemma HereSSplit(rd: Reader, end: nat, f: Frame, a: seq<Instr>, b: seq<Instr>, depth: nat, da: nat, s: seq<Stmt>,
      db: nat)
    requires HereS(rd, end, f, a + b, depth) && da <= depth && db <= depth
    ensures HereS(rd, end, f, a, da) && HereS(rd, end, Grown(f, |a|, s), b, db)
  {
    AtSplit(rd.code, f.ptr, a, b);
  }

  /** As above, when the first part leaves an expression. */
  lemma HereSExpr(rd: Reader, end: nat, f: Frame, a: seq<Instr>, b: seq<Instr>, depth: nat, da: nat, x: seq<Entry>)
    requires HereS(rd, end, f, a + b, depth) && da <= depth && |x| <= rd.limit
    ensures f.Frame? && f.sink && f.start == f.ptr && Here(rd, end, f, a, da) && At(rd.code, f.ptr + |a|, b)
    ensures Here(rd, end, Moved(f, |a|, x), b, 0) && f.ptr + |a| + |b| <= end && |f.exprs| + depth <= rd.limit
  {
    AtSplit(rd.code, f.ptr, a, b);
  }

  lemma HereSParts(rd: Reader, end: nat, f: Frame, a: seq<Instr>, b: seq<Instr>, depth: nat)
    requires HereS(rd, end, f, a + b, depth)
    ensures HereS(rd, end, f, a, depth) && f.Frame? && At(rd.code, f.ptr + |a|, b) && f.ptr + |a| + |b| <= end
    ensures |f.exprs| + depth <= rd.limit && f.sink && f.start == f.ptr
  {
    AtSplit(rd.code, f.ptr, a, b);
  }

  lemma HereSIs(rd: Reader, end: nat, f: Frame, code: seq<Instr>, depth: nat)
    requires HereS(rd, end, f, code, depth)
    ensures f.Frame? && Here(rd, end, f, code, 0) && At(rd.code, f.ptr, code) && f.ptr + |code| <= end
    ensures |f.exprs| + depth <= rd.limit && f.sink && f.start == f.ptr
  {
  }

  /** Reading a block of statements. */
  lemma {:induction false} BlockStmts(rd: Reader, ptr: nat, end: nat, x: seq<Entry>, s: Stmts, d: nat, loops: seq<Loop>)
      returns (b: Frame)
    requires ParsedStmts(s) && WellScoped(s, Ids(loops)) && At(rd.code, ptr, CodeStmts(s, ptr, d, loops))
    requires ptr + SizeStmts(s) <= end && |x| + DepthStmts(s) <= rd.limit && Over(rd, ptr + SizeStmts(s), end)
    requires LoopsAround(loops, ptr, ptr + SizeStmts(s))
    ensures b == Block(rd, ptr, end, x, true, false)
    ensures b.Frame? && b.ptr == ptr + SizeStmts(s) && b.exprs == x && ToStmts(b.stmts) == s
    decreases s, 3
  {
    hide *;
    var f := Fresh(ptr, x, true, false);
    BlockIs(rd, ptr, end, x, true, false);
    FreshIs(rd, end, ptr, x, true, false, CodeStmts(s, ptr, d, loops), DepthStmts(s));
    StmtsRead(rd, end, f, s, d, loops);
    b := Grown(f, SizeStmts(s), FromStmts(s));
    FreshGrown(ptr, x, true, false, SizeStmts(s), FromStmts(s));
    LoopOver(rd, end, b);
    StmtsBack(s);
  }

  lemma FreshIs(rd: Reader, end: nat, ptr: nat, x: seq<Entry>, sink: bool, armSink: bool, code: seq<Instr>, depth: nat)
    requires At(rd.code, ptr, code) && ptr + |code| <= end && |x| + depth <= rd.limit && sink
    ensures HereS(rd, end, Fresh(ptr, x, sink, armSink), code, depth)
  {
  }

  lemma FreshGrown(ptr: nat, x: seq<Entry>, sink: bool, armSink: bool, n: nat, s: seq<Stmt>)
    ensures var b := Grown(Fresh(ptr, x, sink, armSink), n, s);
        b.Frame? && b.ptr == ptr + n && b.exprs == x && b.stmts == s
  {
  }

  lemma StmtsParsed(s: Stmts)
    requires s.SCons? && ParsedStmts(s)
    ensures ParsedStmt(s.head) && ParsedStmts(s.tail) && FromStmts(s) == [s.head] + FromStmts(s.tail)
  {
  }

  lemma NoStmts(s: Stmts)
    requires s.SNil?
    ensures SizeStmts(s) == 0 && FromStmts(s) == []
  {
  }

  lemma {:induction false} StmtsRead(rd: Reader, end: nat, f: Frame, s: Stmts, d: nat, loops: seq<Loop>)
    requires f.Frame? && ParsedStmts(s) && WellScoped(s, Ids(loops)) && LoopsAround(loops, f.ptr, f.ptr + SizeStmts(s))
    requires HereS(rd, end, f, CodeStmts(s, f.ptr, d, loops), DepthStmts(s))
    ensures ReadOn(rd, end, f) == ReadOn(rd, end, Grown(f, SizeStmts(s), FromStmts(s)))
    decreases s, 2
  {
    hide *;
    match s
    case SNil =>
      NoStmts(s);
      HereSIs(rd, end, f, CodeStmts(s, f.ptr, d, loops), DepthStmts(s));
      GrownParts(f, 0, [], 0, []);
    case SCons(h, t) =>
      StmtsParts(Idle(), s, f.ptr, d, loops, map[], 0);
      StmtsParsed(s);
      var n, ch, ct := SizeStmt(h), CodeStmt(h, f.ptr, d, loops), CodeStmts(t, f.ptr + SizeStmt(h), d, loops);
      HereSSplit(rd, end, f, ch, ct, DepthStmts(s), DepthStmt(h), [h], DepthStmts(t));
      AroundLess(loops, f.ptr, f.ptr + SizeStmts(s), f.ptr, f.ptr + n);
      AroundLess(loops, f.ptr, f.ptr + SizeStmts(s), f.ptr + n, f.ptr + SizeStmts(s));
      StmtReads(rd, end, f, h, d, loops);
      GrownParts(f, n, [h], SizeStmts(t), FromStmts(t));
      StmtsRead(rd, end, Grown(f, n, [h]), t, d, loops);
  }

  lemma {:induction false} StmtReads(rd: Reader, end: nat, f: Frame, s: Stmt, d: nat, loops: seq<Loop>)
    requires f.Frame? && ParsedStmt(s) && WellScopedStmt(s, Ids(loops))
        && LoopsAround(loops, f.ptr, f.ptr + SizeStmt(s))
    requires HereS(rd, end, f, CodeStmt(s, f.ptr, d, loops), DepthStmt(s))
    ensures ReadOn(rd, end, f) == ReadOn(rd, end, Grown(f, SizeStmt(s), [s]))
    decreases s, 2
  {
    hide *;
    match s
    case ExprS(e) => PopReads(rd, end, f, s, e, Pop, d, loops) by { ExprSParts(Idle(), s, f.ptr, d, loops, map[], 0);
                     ExprSParsed(s); }
    case CondS(_) => CondReads(rd, end, f, s, d, loops);
    case WhileS(_, _, _) => WhileReads(rd, end, f, s, d, loops);
    case RangeS(_, _, _, _) => RangeReads(rd, end, f, s, d, loops);
    case ReturnS(None) => BareReads(rd, end, f, s, d, loops);
    case ReturnS(Some(e)) =>
      PopReads(rd, end, f, s, e, Return, d, loops) by { ReturnParts(Idle(), s, f.ptr, d, loops, map[], 0);
        ExprSParsed(s); }
    case TryExceptS(_, _) => ExceptReads(rd, end, f, s, d, loops);
    case TryFinallyS(_, _) => FinallyReads(rd, end, f, s, d, loops);
    case BreakS(_) => BareReads(rd, end, f, s, d, loops);
    case ContinueS(_) => BareReads(rd, end, f, s, d, loops);
  }

  lemma ExprSParsed(s: Stmt)
    requires ParsedStmt(s)
    ensures s.ExprS? ==> Parsed(s.e)
    ensures s.ReturnS? && s.result.Some? ==> Parsed(s.result.value)
  {
  }

  // ---- statements without a body ----

  lemma PopIs(rd: Reader, end: nat, f: Frame, x: seq<Entry>, e: Expr, i: Instr, s: Stmt)
    requires f.Frame? && f.sink && f.exprs == x + [E(e)] && f.ptr < |rd.code| && rd.code[f.ptr] == i
    requires (s == ExprS(e) && i == Pop) || (s == ReturnS(Some(e)) && i == Return)
    ensures Op(rd, end, f) == f.(ptr := f.ptr + 1, exprs := x, stmts := f.stmts + [s], start := f.ptr + 1)
  {
    assert f.exprs[..|x|] == x;
  }

  /** The statements that are an expression and one instruction. */
  lemma PopReads(rd: Reader, end: nat, f: Frame, s: Stmt, e: Expr, i: Instr, d: nat, loops: seq<Loop>)
    requires (s == ExprS(e) && i == Pop) || (s == ReturnS(Some(e)) && i == Return)
    requires f.Frame? && Parsed(e) && WellScopedStmt(s, Ids(loops))
    requires CodeStmt(s, f.ptr, d, loops) == CodeExpr(e, f.ptr) + [i] && SizeStmt(s) == SizeExpr(e) + 1
        && DepthStmt(s) == DepthExpr(e)
    requires HereS(rd, end, f, CodeStmt(s, f.ptr, d, loops), DepthStmt(s))
    ensures ReadOn(rd, end, f) == ReadOn(rd, end, Grown(f, SizeStmt(s), [s]))
  {
    hide *;
    var x, n := f.exprs, SizeExpr(e);
    HereSParts(rd, end, f, CodeExpr(e, f.ptr), [i], DepthStmt(s));
    HereSExpr(rd, end, f, CodeExpr(e, f.ptr), [i], DepthStmt(s), DepthExpr(e), x + [E(e)]);
    ExprReads(rd, end, f, e);
    var g := Moved(f, n, x + [E(e)]);
    MovedIs(f, n, x + [E(e)]);
    OpReads(rd, end, g, i) by { NotClosing(0); }
    PopIs(rd, end, g, x, e, i, s);
    GrownIs(f, n + 1, [s]);
  }

  lemma GrownIs(f: Frame, n: nat, s: seq<Stmt>)
    requires f.Frame?
    ensures Grown(f, n, s) == f.(ptr := f.ptr + n, stmts := f.stmts + s, start := f.ptr + n)
  {
  }

  /** Statements of one instruction: return; break and continue, told apart by where they lead. */
  lemma BareReads(rd: Reader, end: nat, f: Frame, s: Stmt, d: nat, loops: seq<Loop>)
    requires s == ReturnS(None) || s.BreakS? || s.ContinueS?
    requires f.Frame? && WellScopedStmt(s, Ids(loops)) && LoopsAround(loops, f.ptr, f.ptr + SizeStmt(s))
    requires HereS(rd, end, f, CodeStmt(s, f.ptr, d, loops), DepthStmt(s))
    ensures ReadOn(rd, end, f) == ReadOn(rd, end, Grown(f, SizeStmt(s), [s]))
  {
    hide ReadOn, At, Ids, Op;
    var i := BareCode(s, loops);
    assert CodeStmt(s, f.ptr, d, loops) == [i];
    OpReads(rd, end, f, i);
    BareIs(rd, end, f, s, loops);
  }

  function BareCode(s: Stmt, loops: seq<Loop>): Instr
    requires (s == ReturnS(None) || s.BreakS? || s.ContinueS?) && WellScopedStmt(s, Ids(loops))
  {
    match s
    case BreakS(x) => ExitCode(x, Target(loops, x).bottomDepth, Target(loops, x).bottom)
    case ContinueS(x) => ExitCode(x, Target(loops, x).topDepth, Target(loops, x).top)
    case _ => Return0
  }

  lemma OpExitIs(rd: Reader, end: nat, f: Frame, x: Option<nat>, depth: nat, lab: nat)
    requires f.Frame? && f.sink && f.ptr < |rd.code| && rd.code[f.ptr] == ExitCode(x, depth, lab)
    ensures Op(rd, end, f) == Grown(f, 1, [if lab <= f.ptr then ContinueS(x) else BreakS(x)])
  {
    hide ReadOn;
  }

  lemma BareIs(rd: Reader, end: nat, f: Frame, s: Stmt, loops: seq<Loop>)
    requires (s == ReturnS(None) || s.BreakS? || s.ContinueS?) && WellScopedStmt(s, Ids(loops))
    requires f.Frame? && f.sink && LoopsAround(loops, f.ptr, f.ptr + 1) && f.ptr < |rd.code|
        && rd.code[f.ptr] == BareCode(s, loops)
    ensures Op(rd, end, f) == Grown(f, 1, [s])
  {
    hide ReadOn, Ids, CodeStmt, Op, Grown, HasLoop;
    match s
    case BreakS(x) =>
      OpExitIs(rd, end, f, x, Target(loops, x).bottomDepth, Target(loops, x).bottom);
    case ContinueS(x) =>
      OpExitIs(rd, end, f, x, Target(loops, x).topDepth, Target(loops, x).top);
    case _ =>
      Return0Is(rd, end, f);
  }

  lemma Return0Is(rd: Reader, end: nat, f: Frame)
    requires f.Frame? && f.sink && f.ptr < |rd.code| && rd.code[f.ptr] == Return0
    ensures Op(rd, end, f) == Grown(f, 1, [ReturnS(None)])
  {
    hide ReadOn;
  }

  // ---- conditionals ----

  lemma OpIfIs(rd: Reader, end: nat, f: Frame, x: seq<Entry>, s: Stmt, lab: nat, b: Frame, done: nat, o: Frame)
    requires s.CondS? && s.arms.Arm? && f.Frame? && f.sink && f.ptr < |rd.code| && rd.code[f.ptr] == IfI(lab)
        && lab >= 1
    requires f.exprs == x + [E(s.arms.cond)] && b == Block(rd, f.ptr + 1, lab - 1, x, true, false)
    requires b.Frame? && b.ptr < |rd.code| && rd.code[b.ptr] == Jump(done) && b.exprs == x
        && ToStmts(b.stmts) == s.arms.body
    requires o == Block(rd, b.ptr + 1, done, x, true, true)
    requires o.Frame? && o.ptr == done && o.exprs == x && o.arms == FromArms(s.arms.rest)
        && ToStmts(o.stmts) == Otherwise(s.arms.rest)
    ensures Op(rd, end, f) == f.(ptr := done, exprs := x, stmts := f.stmts + [s], start := done)
  {
    hide Block, ReadOn;
    TopIs(x, s.arms.cond);
    ArmsBack(s.arms);
    assert FromArms(s.arms) == [(s.arms.cond, s.arms.body)] + FromArms(s.arms.rest);
  }

  lemma CondParsed(s: Stmt)
    requires s.CondS? && ParsedStmt(s)
    ensures s.arms.Arm? && ParsedArms(s.arms) && Parsed(s.arms.cond) && ParsedStmts(s.arms.body)
        && ParsedArms(s.arms.rest)
  {
  }

  lemma {:induction false} CondReads(rd: Reader, end: nat, f: Frame, s: Stmt, d: nat, loops: seq<Loop>)
    requires s.CondS? && f.Frame? && ParsedStmt(s) && WellScopedStmt(s, Ids(loops))
        && LoopsAround(loops, f.ptr, f.ptr + SizeStmt(s))
    requires HereS(rd, end, f, CodeStmt(s, f.ptr, d, loops), DepthStmt(s))
    ensures ReadOn(rd, end, f) == ReadOn(rd, end, Grown(f, SizeStmt(s), [s]))
    decreases s, 1
  {
    hide *;
    CondParsed(s);
    CondParts(Idle(), s, f.ptr, d, loops, map[], 0);
    var a, x, done, depth := s.arms, f.exprs, f.ptr + SizeStmt(s), DepthStmt(s);
    ArmParts(Idle(), a, true, f.ptr, d, loops, done, map[], 0);
    var n, thn := SizeExpr(a.cond), f.ptr + SizeExpr(a.cond) + 1;
    var next := thn + SizeStmts(a.body) + 1;
    var cc, cb := CodeExpr(a.cond, f.ptr), CodeStmts(a.body, thn, d, loops);
    HereSParts(rd, end, f, cc + [IfI(next)] + cb + [Jump(done)], CodeArms(a.rest, false, next, d, loops, done), depth);
    HereSParts(rd, end, f, cc + [IfI(next)] + cb, [Jump(done)], depth);
    HereSParts(rd, end, f, cc + [IfI(next)], cb, depth);
    HereSExpr(rd, end, f, cc, [IfI(next)], depth, DepthExpr(a.cond), x + [E(a.cond)]);
    ExprReads(rd, end, f, a.cond);
    var g := Moved(f, n, x + [E(a.cond)]);
    MovedIs(f, n, x + [E(a.cond)]);
    OpReads(rd, end, g, IfI(next)) by { NotClosing(next); }
    AtOne(rd.code, next - 1, Jump(done));
    AtItsEnd(rd, next - 1);
    AroundLess(loops, f.ptr, done, thn, next - 1);
    AroundLess(loops, f.ptr, done, next, done);
    var b := BlockStmts(rd, thn, next - 1, x, a.body, d, loops);
    var o := BlockArms(rd, next, done, x, a.rest, d, loops);
    OpIfIs(rd, end, g, x, s, next, b, done, o);
    GrownIs(f, SizeStmt(s), [s]);
  }

  /** The frame after arms and then an ELSE part. */
  function Armed(f: Frame, n: nat, a: Arms): Frame
    requires f.Frame?
  {
    f.(ptr := f.ptr + n, stmts := f.stmts + FromStmts(Otherwise(a)), arms := f.arms + FromArms(a), start := f.ptr + n)
  }

  lemma ArmedElse(f: Frame, n: nat, a: Arms)
    requires f.Frame? && a.Else?
    ensures Armed(f, n, a) == Grown(f, n, FromStmts(a.body))
  {
    assert f.arms + FromArms(a) == f.arms;
  }

  function OneArm(f: Frame, n: nat, cond: Expr, body: Stmts): Frame
    requires f.Frame?
  {
    f.(ptr := f.ptr + n, arms := f.arms + [(cond, body)], start := f.ptr + n)
  }

  lemma ArmedArm(f: Frame, n: nat, k: nat, a: Arms)
    requires f.Frame? && a.Arm?
    ensures Armed(OneArm(f, n, a.cond, a.body), k, a.rest) == Armed(f, n + k, a)
  {
    assert f.arms + [(a.cond, a.body)] + FromArms(a.rest) == f.arms + FromArms(a);
  }

  lemma {:induction false} BlockArms(rd: Reader, ptr: nat, end: nat, x: seq<Entry>, a: Arms, d: nat, loops: seq<Loop>)
      returns (o: Frame)
    requires ParsedArms(a) && WellScopedArms(a, Ids(loops)) && At(rd.code, ptr, CodeArms(a, false, ptr, d, loops, end))
    requires ptr + SizeArms(a) == end && |x| + DepthArms(a) <= rd.limit && LoopsAround(loops, ptr, end)
    ensures o == Block(rd, ptr, end, x, true, true)
    ensures o.Frame? && o.ptr == end && o.exprs == x && o.arms == FromArms(a) && ToStmts(o.stmts) == Otherwise(a)
    decreases a, 3
  {
    hide *;
    var f := Fresh(ptr, x, true, true);
    BlockIs(rd, ptr, end, x, true, true);
    FreshIs(rd, end, ptr, x, true, true, CodeArms(a, false, ptr, d, loops, end), DepthArms(a));
    FreshSinks(ptr, x);
    ArmsRead(rd, end, f, a, d, loops);
    o := Armed(f, SizeArms(a), a);
    FreshArmed(ptr, x, SizeArms(a), a);
    AtItsEnd(rd, end);
    LoopOver(rd, end, o);
    StmtsBack(Otherwise(a));
  }

  lemma FreshSinks(ptr: nat, x: seq<Entry>)
    ensures Fresh(ptr, x, true, true).armSink
  {
  }

  lemma FreshArmed(ptr: nat, x: seq<Entry>, n: nat, a: Arms)
    ensures var o := Armed(Fresh(ptr, x, true, true), n, a);
            o.Frame? && o.ptr == ptr + n && o.exprs == x && o.arms == FromArms(a) && o.stmts == FromStmts(Otherwise(a))
  {
  }

  lemma OpEifIs(rd: Reader, end: nat, f: Frame, x: seq<Entry>, a: Arms, lab: nat, b: Frame)
    requires a.Arm? && f.Frame? && f.armSink && f.ptr < |rd.code| && rd.code[f.ptr] == Eif(lab) && lab >= 1
    requires f.exprs == x + [E(a.cond)] && b == Block(rd, f.ptr + 1, lab - 1, x, true, false)
    requires b.Frame? && b.ptr < |rd.code| && rd.code[b.ptr] == Jump(end) && b.exprs == x && ToStmts(b.stmts) == a.body
    ensures Op(rd, end, f)
            == f.(ptr := b.ptr + 1, exprs := x, arms := f.arms + [(a.cond, a.body)], start := b.ptr + 1)
  {
    hide Block, ReadOn;
    TopIs(x, a.cond);
  }

  lemma ArmsParsed(a: Arms)
    requires ParsedArms(a)
    ensures a.Else? ==> ParsedStmts(a.body)
    ensures a.Arm? ==> Parsed(a.cond) && ParsedStmts(a.body) && ParsedArms(a.rest)
  {
  }

  lemma {:induction false} ArmsRead(rd: Reader, end: nat, f: Frame, a: Arms, d: nat, loops: seq<Loop>)
    requires f.Frame? && ParsedArms(a) && WellScopedArms(a, Ids(loops)) && LoopsAround(loops, f.ptr, end)
        && f.ptr + SizeArms(a) == end
    requires HereS(rd, end, f, CodeArms(a, false, f.ptr, d, loops, end), DepthArms(a)) && f.armSink
    ensures ReadOn(rd, end, f) == ReadOn(rd, end, Armed(f, SizeArms(a), a))
    decreases a, 2
  {
    hide *;
    ArmsParsed(a);
    match a
    case Else(body) =>
      ElseParts(Idle(), a, false, f.ptr, d, loops, end, map[], 0);
      StmtsRead(rd, end, f, body, d, loops);
      ArmedElse(f, SizeArms(a), a);
    case Arm(cond, body, rest) =>
      var x, n, thn := f.exprs, SizeExpr(cond), f.ptr + SizeExpr(cond) + 1;
      var next := thn + SizeStmts(body) + 1;
      var k := next - f.ptr;
      ArmAt(rd, end, f, a, d, loops);
      ExprReads(rd, end, f, cond);
      var g := Moved(f, n, x + [E(cond)]);
      MovedIs(f, n, x + [E(cond)]);
      OpReads(rd, end, g, Eif(next)) by { NotClosing(next); }
      AtItsEnd(rd, next - 1);
      AroundLess(loops, f.ptr, end, thn, next - 1);
      AroundLess(loops, f.ptr, end, next, end);
      var b := BlockStmts(rd, thn, next - 1, x, body, d, loops);
      OpEifIs(rd, end, g, x, a, next, b);
      OneArmIs(f, k, cond, body);
      ArmsRead(rd, end, OneArm(f, k, cond, body), rest, d, loops);
      ArmedArm(f, k, SizeArms(rest), a);
  }

  /** The pieces of the code of an ELSEIF arm. */
  lemma ArmAt(rd: Reader, end: nat, f: Frame, a: Arms, d: nat, loops: seq<Loop>)
    requires a.Arm? && f.Frame? && WellScopedArms(a, Ids(loops))
    requires HereS(rd, end, f, CodeArms(a, false, f.ptr, d, loops, end), DepthArms(a))
    ensures var mid := f.ptr + SizeExpr(a.cond);
            var next := mid + 1 + SizeStmts(a.body) + 1;
            && WellScoped(a.body, Ids(loops)) && WellScopedArms(a.rest, Ids(loops))
            && Here(rd, end, f, CodeExpr(a.cond, f.ptr), DepthExpr(a.cond))
            && Here(rd, end, Moved(f, SizeExpr(a.cond), f.exprs + [E(a.cond)]), [Eif(next)], 0)
            && At(rd.code, mid + 1, CodeStmts(a.body, mid + 1, d, loops)) && |f.exprs| + DepthStmts(a.body) <= rd.limit
            && next - 1 < |rd.code| && rd.code[next - 1] == Jump(end) && next <= end
            && HereS(rd, end, OneArm(f, next - f.ptr, a.cond, a.body), CodeArms(a.rest, false, next, d, loops, end),
              DepthArms(a.rest))
            && f.ptr + SizeArms(a) == next + SizeArms(a.rest)
  {
    hide *;
    ArmParts(Idle(), a, false, f.ptr, d, loops, end, map[], 0);
    var depth, thn := DepthArms(a), f.ptr + SizeExpr(a.cond) + 1;
    var next := thn + SizeStmts(a.body) + 1;
    var cc, cb, cr := CodeExpr(a.cond, f.ptr), CodeStmts(a.body, thn, d, loops),
        CodeArms(a.rest, false, next, d, loops, end);
    HereSArm(rd, end, f, cc + [Eif(next)] + cb + [Jump(end)], cr, depth, a.cond, a.body, DepthArms(a.rest));
    HereSParts(rd, end, f, cc + [Eif(next)] + cb, [Jump(end)], depth);
    HereSParts(rd, end, f, cc + [Eif(next)], cb, depth);
    HereSExpr(rd, end, f, cc, [Eif(next)], depth, DepthExpr(a.cond), f.exprs + [E(a.cond)]);
    AtOne(rd.code, next - 1, Jump(end));
  }

  lemma OneArmIs(f: Frame, n: nat, cond: Expr, body: Stmts)
    requires f.Frame?
    ensures OneArm(f, n, cond, body) == f.(ptr := f.ptr + n, arms := f.arms + [(cond, body)], start := f.ptr + n)
  {
  }

  lemma HereSArm(rd: Reader, end: nat, f: Frame, a: seq<Instr>, b: seq<Instr>, depth: nat, cond: Expr, body: Stmts,
      db: nat)
    requires HereS(rd, end, f, a + b, depth) && db <= depth
    ensures HereS(rd, end, f, a, depth) && HereS(rd, end, OneArm(f, |a|, cond, body), b, db)
    ensures f.ptr + |a| + |b| <= end && |f.exprs| + depth <= rd.limit && f.sink && f.start == f.ptr
  {
    AtSplit(rd.code, f.ptr, a, b);
  }

  // ---- loops ----

  lemma OpWhileIs(rd: Reader, end: nat, f: Frame, x: seq<Entry>, s: Stmt, done: nat, b: Frame)
    requires s.WhileS? && f.Frame? && f.sink && f.ptr < |rd.code| && done >= 1
    requires rd.code[f.ptr] == (if s.id.Some? then WhileId(s.id.value, done) else WhileI(done))
    requires f.exprs == x + [E(s.cond)] && b == Block(rd, f.ptr + 1, done - 1, x, true, false)
    requires b.Frame? && b.ptr < |rd.code| && rd.code[b.ptr] == Jump(f.start) && b.exprs == x
        && ToStmts(b.stmts) == s.body
    ensures Op(rd, end, f) == f.(ptr := b.ptr + 1, exprs := x, stmts := f.stmts + [s], start := b.ptr + 1)
  {
    hide Block, ReadOn;
    TopIs(x, s.cond);
  }

  lemma LoopParsed(s: Stmt)
    requires ParsedStmt(s)
    ensures s.WhileS? ==> Parsed(s.cond) && ParsedStmts(s.body)
    ensures s.RangeS? ==> Parsed(s.from) && Parsed(s.to) && ParsedStmts(s.body)
    ensures s.TryFinallyS? ==> ParsedStmts(s.body) && ParsedStmts(s.handler)
    ensures s.TryExceptS? ==> ParsedStmts(s.body) && ParsedExcepts(s.excepts)
  {
  }

  lemma {:induction false} WhileReads(rd: Reader, end: nat, f: Frame, s: Stmt, d: nat, loops: seq<Loop>)
    requires s.WhileS? && f.Frame? && ParsedStmt(s) && WellScopedStmt(s, Ids(loops))
        && LoopsAround(loops, f.ptr, f.ptr + SizeStmt(s))
    requires HereS(rd, end, f, CodeStmt(s, f.ptr, d, loops), DepthStmt(s))
    ensures ReadOn(rd, end, f) == ReadOn(rd, end, Grown(f, SizeStmt(s), [s]))
    decreases s, 1
  {
    hide *;
    LoopParsed(s);
    WhileParts(Idle(), s, f.ptr, d, loops, map[], 0);
    var x, done, depth, n := f.exprs, f.ptr + SizeStmt(s), DepthStmt(s), SizeExpr(s.cond);
    var i, l := if s.id.Some? then WhileId(s.id.value, done) else WhileI(done), WhileLoop(s, f.ptr, d);
    var cc, cb := CodeExpr(s.cond, f.ptr), CodeStmts(s.body, f.ptr + n + 1, d, loops + [l]);
    HereSParts(rd, end, f, cc + [i] + cb, [Jump(f.ptr)], depth);
    HereSParts(rd, end, f, cc + [i], cb, depth);
    HereSExpr(rd, end, f, cc, [i], depth, DepthExpr(s.cond), x + [E(s.cond)]);
    ExprReads(rd, end, f, s.cond);
    var g := Moved(f, n, x + [E(s.cond)]);
    MovedIs(f, n, x + [E(s.cond)]);
    OpReads(rd, end, g, i) by { NotClosing(done); }
    AtOne(rd.code, done - 1, Jump(f.ptr));
    AtItsEnd(rd, done - 1);
    AroundLess(loops, f.ptr, done, f.ptr + n + 1, done - 1);
    AroundMore(loops, l, f.ptr + n + 1, done - 1);
    var b := BlockStmts(rd, f.ptr + n + 1, done - 1, x, s.body, d, loops + [l]);
    OpWhileIs(rd, end, g, x, s, done, b);
    GrownIs(f, SizeStmt(s), [s]);
  }

  lemma OpRangeIs(rd: Reader, end: nat, f: Frame, x: seq<Entry>, s: Stmt, done: nat, b: Frame)
    requires s.RangeS? && f.Frame? && f.sink && f.ptr < |rd.code| && done >= 1
        && rd.code[f.ptr] == ForRange(s.slot, done)
    requires f.exprs == x + [E(s.from)] + [E(s.to)] && b == Block(rd, f.ptr + 1, done - 1, x, true, false)
    requires b.Frame? && b.ptr < |rd.code| && rd.code[b.ptr] == Jump(f.ptr) && b.exprs == x
        && ToStmts(b.stmts) == s.body
    ensures Op(rd, end, f) == f.(ptr := b.ptr + 1, exprs := x, stmts := f.stmts + [s], start := b.ptr + 1)
  {
    hide Block, ReadOn;
    TopIs(x + [E(s.from)], s.to);
    TopIs(x, s.from);
  }

  lemma {:induction false} RangeReads(rd: Reader, end: nat, f: Frame, s: Stmt, d: nat, loops: seq<Loop>)
    requires s.RangeS? && f.Frame? && ParsedStmt(s) && WellScopedStmt(s, Ids(loops))
        && LoopsAround(loops, f.ptr, f.ptr + SizeStmt(s))
    requires HereS(rd, end, f, CodeStmt(s, f.ptr, d, loops), DepthStmt(s))
    ensures ReadOn(rd, end, f) == ReadOn(rd, end, Grown(f, SizeStmt(s), [s]))
    decreases s, 1
  {
    hide *;
    LoopParsed(s);
    RangeParts(Idle(), s, f.ptr, d, loops, map[], 0);
    var x, done, depth, n, k := f.exprs, f.ptr + SizeStmt(s), DepthStmt(s), SizeExpr(s.from), SizeExpr(s.to);
    var i, l := ForRange(s.slot, done), RangeLoop(s, f.ptr, d);
    var cf, ct, cb := CodeExpr(s.from, f.ptr), CodeExpr(s.to, f.ptr + n),
        CodeStmts(s.body, l.top + 1, d + 2, loops + [l]);
    var x1 := x + [E(s.from)];
    var x2 := x1 + [E(s.to)];
    HereSParts(rd, end, f, cf + ct + [i] + cb, [Jump(l.top)], depth);
    HereSParts(rd, end, f, cf + ct + [i], cb, depth);
    HereSExpr(rd, end, f, cf + ct, [i], depth, depth, x2);
    HereSplit(rd, end, f, cf, ct, depth, DepthExpr(s.from), x1, DepthExpr(s.to));
    ExprReads(rd, end, f, s.from);
    MovedParts(f, n, x1, k, x2);
    ExprReads(rd, end, Moved(f, n, x1), s.to);
    var g := Moved(f, n + k, x2);
    MovedIs(f, n + k, x2);
    OpReads(rd, end, g, i) by { NotClosing(done); }
    AtOne(rd.code, done - 1, Jump(l.top));
    AtItsEnd(rd, done - 1);
    AroundLess(loops, f.ptr, done, l.top + 1, done - 1);
    AroundMore(loops, l, l.top + 1, done - 1);
    var b := BlockStmts(rd, l.top + 1, done - 1, x, s.body, d + 2, loops + [l]);
    OpRangeIs(rd, end, g, x, s, done, b);
    GrownIs(f, SizeStmt(s), [s]);
  }

  // ---- TRY-FINALLY ----

  lemma OpFinallyIs(rd: Reader, end: nat, f: Frame, s: Stmt, h: nat, b: Frame, c: Frame)
    requires s.TryFinallyS? && f.Frame? && f.sink && f.ptr < |rd.code| && rd.code[f.ptr] == TryFinally(h)
    requires b == Block(rd, f.ptr + 1, end, f.exprs, true, false) && b.Frame? && b.ptr < |rd.code|
        && rd.code[b.ptr] == EndFinally
    requires b.ptr + 1 == h && b.exprs == f.exprs && ToStmts(b.stmts) == s.body
    requires c == Block(rd, h, end, f.exprs, true, false) && c.Frame? && c.ptr < |rd.code|
        && rd.code[c.ptr] == ContinueI
    requires c.exprs == f.exprs && ToStmts(c.stmts) == s.handler
    ensures Op(rd, end, f) == f.(ptr := c.ptr + 1, stmts := f.stmts + [s], start := c.ptr + 1)
  {
    hide Block, ReadOn;
  }

  /** The pieces of the code of a TRY-FINALLY. */
  lemma FinallyAt(rd: Reader, end: nat, f: Frame, s: Stmt, d: nat, loops: seq<Loop>)
    requires s.TryFinallyS? && f.Frame? && WellScopedStmt(s, Ids(loops))
    requires HereS(rd, end, f, CodeStmt(s, f.ptr, d, loops), DepthStmt(s))
    ensures var h, done := f.ptr + 1 + SizeStmts(s.body) + 1, f.ptr + SizeStmt(s);
            && WellScoped(s.body, Ids(loops)) && WellScoped(s.handler, Ids(loops))
            && f.ptr < h - 1 && h + SizeStmts(s.handler) == done - 1 && done <= end && done <= |rd.code|
            && rd.code[f.ptr] == TryFinally(h) && rd.code[h - 1] == EndFinally && rd.code[done - 1] == ContinueI
            && At(rd.code, f.ptr + 1, CodeStmts(s.body, f.ptr + 1, d + 1, loops))
            && At(rd.code, h, CodeStmts(s.handler, h, d + 2, loops)) && Here(rd, end, f, [TryFinally(h)], 0)
            && |f.exprs| + DepthStmts(s.body) <= rd.limit && |f.exprs| + DepthStmts(s.handler) <= rd.limit && f.sink
              && f.start == f.ptr
  {
    hide *;
    FinallyParts(Idle(), s, f.ptr, d, loops, map[], 0);
    var done, depth, h := f.ptr + SizeStmt(s), DepthStmt(s), f.ptr + 1 + SizeStmts(s.body) + 1;
    var cb, ch := CodeStmts(s.body, f.ptr + 1, d + 1, loops), CodeStmts(s.handler, h, d + 2, loops);
    HereSParts(rd, end, f, [TryFinally(h)] + cb + [EndFinally] + ch, [ContinueI], depth);
    HereSParts(rd, end, f, [TryFinally(h)] + cb + [EndFinally], ch, depth);
    HereSParts(rd, end, f, [TryFinally(h)] + cb, [EndFinally], depth);
    HereSParts(rd, end, f, [TryFinally(h)], cb, depth);
    HereSIs(rd, end, f, [TryFinally(h)], depth);
    AtOne(rd.code, f.ptr, TryFinally(h));
    AtOne(rd.code, h - 1, EndFinally);
    AtOne(rd.code, done - 1, ContinueI);
  }

  lemma {:induction false} FinallyReads(rd: Reader, end: nat, f: Frame, s: Stmt, d: nat, loops: seq<Loop>)
    requires s.TryFinallyS? && f.Frame? && ParsedStmt(s) && WellScopedStmt(s, Ids(loops))
        && LoopsAround(loops, f.ptr, f.ptr + SizeStmt(s))
    requires HereS(rd, end, f, CodeStmt(s, f.ptr, d, loops), DepthStmt(s))
    ensures ReadOn(rd, end, f) == ReadOn(rd, end, Grown(f, SizeStmt(s), [s]))
    decreases s, 1
  {
    hide *;
    LoopParsed(s);
    FinallyAt(rd, end, f, s, d, loops);
    var done, h := f.ptr + SizeStmt(s), f.ptr + 1 + SizeStmts(s.body) + 1;
    OpReads(rd, end, f, TryFinally(h)) by { NotClosing(h); }
    NotClosing(0);
    ClosedHere(rd, h - 1, end);
    ClosedHere(rd, done - 1, end);
    AroundLess(loops, f.ptr, done, f.ptr + 1, h - 1);
    AroundLess(loops, f.ptr, done, h, done - 1);
    var b := BlockStmts(rd, f.ptr + 1, end, f.exprs, s.body, d + 1, loops);
    var c := BlockStmts(rd, h, end, f.exprs, s.handler, d + 2, loops);
    OpFinallyIs(rd, end, f, s, h, b, c);
    GrownIs(f, SizeStmt(s), [s]);
  }

  // ---- TRY-EXCEPT ----

  /** What the codes and labels of handlers leave on expr_stack. */
  function Entries(x: Excepts, h: nat): (r: seq<Entry>)
    ensures |r| == 2 * CountExcepts(x)
  {
    match x
    case XNil => []
    case XCons(slot, codes, body, rest) =>
      [E(CodesExpr(codes)), Lab(h)] + Entries(rest, h + SizeHandler(slot, SizeStmts(body), rest.XNil?))
  }

  function Pendings(x: Excepts, h: nat): (r: seq<Pending>)
    ensures |r| == CountExcepts(x)
  {
    match x
    case XNil => []
    case XCons(slot, codes, body, rest) =>
      [Pending(codes, h)] + Pendings(rest, h + SizeHandler(slot, SizeStmts(body), rest.XNil?))
  }

  lemma EntriesParts(x: Excepts, h: nat)
    requires x.XCons?
    ensures var h' := h + SizeHandler(x.slot, SizeStmts(x.body), x.rest.XNil?);
            && Entries(x, h) == [E(CodesExpr(x.codes)), Lab(h)] + Entries(x.rest, h')
            && Pendings(x, h) == [Pending(x.codes, h)] + Pendings(x.rest, h')
            && CountExcepts(x) == 1 + CountExcepts(x.rest)
  {
  }

  lemma ExceptsParsed(x: Excepts)
    requires x.XCons? && ParsedExcepts(x)
    ensures ParsedCodes(x.codes) && ParsedStmts(x.body) && ParsedExcepts(x.rest)
  {
  }

  /** Popping the handlers gives them back, first to last. */
  lemma {:induction false} PopsAll(x: Excepts, h: nat, y: seq<Entry>, k: nat)
    requires ParsedExcepts(x) && k >= CountExcepts(x)
    ensures PopPending(y + Entries(x, h), k)
            == var r := PopPending(y, k - CountExcepts(x));
               if r.None? then None else Some((r.value.0, r.value.1 + Pendings(x, h)))
    decreases x
  {
    hide PopPending, ToCodes, CodesExpr, SizeStmts, SizeHandler;
    match x
    case XNil =>
      assert y + Entries(x, h) == y;
      var r := PopPending(y, k);
      if r.Some? {
        assert r.value.1 + Pendings(x, h) == r.value.1;
      }
    case XCons(slot, codes, body, rest) =>
      var h' := h + SizeHandler(slot, SizeStmts(body), rest.XNil?);
      var two := [E(CodesExpr(codes)), Lab(h)];
      assert y + Entries(x, h) == y + two + Entries(rest, h');
      PopsAll(rest, h', y + two, k);
      PopsOne(y, codes, h, k - CountExcepts(rest));
      var r := PopPending(y, k - CountExcepts(x));
      if r.Some? {
        assert r.value.1 + [Pending(codes, h)] + Pendings(rest, h') == r.value.1 + Pendings(x, h);
      }
  }

  lemma PopsOne(y: seq<Entry>, codes: Codes, h: nat, k: nat)
    requires ParsedCodes(codes) && k > 0
    ensures PopPending(y + [E(CodesExpr(codes)), Lab(h)], k)
            == var r := PopPending(y, k - 1);
               if r.None? then None else Some((r.value.0, r.value.1 + [Pending(codes, h)]))
  {
    hide CodesExpr, ToCodes;
    CodesBack(codes);
    var two := y + [E(CodesExpr(codes)), Lab(h)];
    assert two[..|two| - 2] == y;
  }

  lemma PopsExactly(x: Excepts, h: nat, y: seq<Entry>)
    requires ParsedExcepts(x)
    ensures PopPending(y + Entries(x, h), CountExcepts(x)) == Some((y, Pendings(x, h)))
  {
    hide Entries, Pendings;
    PopsAll(x, h, y, CountExcepts(x));
    assert PopPending(y, 0) == Some((y, []));
    assert [] + Pendings(x, h) == Pendings(x, h);
  }

  lemma {:induction false} AllCodesRead(rd: Reader, end: nat, f: Frame, x: Excepts, h: nat)
    requires ParsedExcepts(x) && f.Frame? && Here(rd, end, f, CodeAllCodes(x, f.ptr, h), DepthAllCodes(x))
    ensures ReadOn(rd, end, f) == ReadOn(rd, end, Moved(f, SizeAllCodes(x), f.exprs + Entries(x, h)))
    decreases x
  {
    hide *;
    var y := f.exprs;
    match x
    case XNil =>
      NoCodes(x, h);
      MovedIs(f, 0, y);
    case XCons(slot, codes, body, rest) =>
      AllCodesParts(Idle(), x, f.ptr, h, map[]);
      ExceptsParsed(x);
      EntriesParts(x, h);
      var h', n, depth := h + SizeHandler(slot, SizeStmts(body), rest.XNil?), SizeCodes(codes), DepthAllCodes(x);
      var cc, cr := CodeCodes(codes, f.ptr), CodeAllCodes(rest, f.ptr + n + 1, h');
      var y1 := y + [E(CodesExpr(codes))];
      var y2 := y1 + [Lab(h)];
      HereLess(rd, end, f, cc + [PushLabel(h)], cr, depth, depth);
      HereSplit(rd, end, f, cc + [PushLabel(h)], cr, depth, depth, y2, DepthAllCodes(rest));
      HereSplit(rd, end, f, cc, [PushLabel(h)], depth, DepthCodes(codes), y1, 0);
      CodesRead(rd, end, f, codes);
      MovedParts(f, n, y1, 1, y2);
      ReducesList(y1, ANil, Lit(NoneV), false, h);
      IsSimple();
      ReduceReads(rd, end, Moved(f, n, y1), PushLabel(h), y2);
      MovedParts(f, n + 1, y2, SizeAllCodes(rest), y + Entries(x, h));
      AllCodesRead(rd, end, Moved(f, n + 1, y2), rest, h');
      assert y2 + Entries(rest, h') == y + ([E(CodesExpr(codes)), Lab(h)] + Entries(rest, h'));
  }

  lemma NoCodes(x: Excepts, h: nat)
    requires x.XNil?
    ensures SizeAllCodes(x) == 0 && Entries(x, h) == [] && forall y: seq<Entry> :: y + Entries(x, h) == y
  {
  }

  lemma OpExceptIs(rd: Reader, end: nat, f: Frame, s: Stmt, y: seq<Entry>, b: Frame, done: nat, r: (Frame, Excepts))
    requires s.TryExceptS? && f.Frame? && f.sink && f.ptr < |rd.code|
        && rd.code[f.ptr] == TryExcept(CountExcepts(s.excepts))
    requires b == Block(rd, f.ptr + 1, end, y, true, false) && b.Frame? && b.ptr < |rd.code|
        && rd.code[b.ptr] == EndExcept(done)
    requires b.exprs == y && ToStmts(b.stmts) == s.body && ParsedExcepts(s.excepts)
        && f.exprs == y + Entries(s.excepts, b.ptr + 1)
    requires r == OpHandlers(rd, Pendings(s.excepts, b.ptr + 1), b.ptr + 1, done, y)
    requires r.0.Frame? && r.0.ptr == done && r.0.exprs == y && r.1 == s.excepts
    ensures Op(rd, end, f) == f.(ptr := done, exprs := y, stmts := f.stmts + [s], start := done)
  {
    hide Block, ReadOn, OpHandlers, Entries, Pendings, PopPending;
    PopsExactly(s.excepts, b.ptr + 1, y);
  }

  lemma {:induction false} ExceptReads(rd: Reader, end: nat, f: Frame, s: Stmt, d: nat, loops: seq<Loop>)
    requires s.TryExceptS? && f.Frame? && ParsedStmt(s) && WellScopedStmt(s, Ids(loops))
        && LoopsAround(loops, f.ptr, f.ptr + SizeStmt(s))
    requires HereS(rd, end, f, CodeStmt(s, f.ptr, d, loops), DepthStmt(s))
    ensures ReadOn(rd, end, f) == ReadOn(rd, end, Grown(f, SizeStmt(s), [s]))
    decreases s, 1
  {
    hide *;
    LoopParsed(s);
    ExceptSCode(s, f.ptr, d, loops);
    var x, y, done, depth, n := s.excepts, f.exprs, f.ptr + SizeStmt(s), DepthStmt(s), SizeAllCodes(s.excepts);
    var try, count := f.ptr + n + 1, CountExcepts(x);
    var h := try + SizeStmts(s.body) + 1;
    var cc, cb, ch := CodeAllCodes(x, f.ptr, h), CodeStmts(s.body, try, d + 2 * count + 1, loops),
        CodeHandlers(x, h, d, loops, done);
    HereSParts(rd, end, f, cc + [TryExcept(count)] + cb + [EndExcept(done)], ch, depth);
    HereSParts(rd, end, f, cc + [TryExcept(count)] + cb, [EndExcept(done)], depth);
    HereSParts(rd, end, f, cc + [TryExcept(count)], cb, depth);
    HereSExpr(rd, end, f, cc, [TryExcept(count)], depth, DepthAllCodes(x), y + Entries(x, h));
    AllCodesRead(rd, end, f, x, h);
    var g := Moved(f, n, y + Entries(x, h));
    MovedIs(f, n, y + Entries(x, h));
    OpReads(rd, end, g, TryExcept(count)) by { NotClosing(count); }
    AtOne(rd.code, h - 1, EndExcept(done));
    ClosedHere(rd, h - 1, end) by { NotClosing(done); }
    AroundLess(loops, f.ptr, done, try, h - 1);
    AroundLess(loops, f.ptr, done, h, done);
    var b := BlockStmts(rd, try, end, y, s.body, d + 2 * count + 1, loops);
    var r := HandlersRead(rd, x, h, done, y, d, loops);
    OpExceptIs(rd, end, g, s, y, b, done, r);
    GrownIs(f, SizeStmt(s), [s]);
  }

  lemma HandlersCode(x: Excepts, pc: nat, d: nat, loops: seq<Loop>, done: nat)
    requires x.XCons? && WellScopedExcepts(x, Ids(loops))
    ensures WellScoped(x.body, Ids(loops)) && WellScopedExcepts(x.rest, Ids(loops))
    ensures var store := if x.slot.Some? then [Put(x.slot.value)] else [];
            var next := pc + SizeHandler(x.slot, SizeStmts(x.body), x.rest.XNil?);
            && CodeHandlers(x, pc, d, loops, done)
               == store + [Pop] + CodeStmts(x.body, pc + |store| + 1, d, loops)
                 + (if x.rest.XNil? then [] else [Jump(done)])
                  + CodeHandlers(x.rest, next, d, loops, done)
            && next == pc + |store| + 1 + SizeStmts(x.body) + (if x.rest.XNil? then 0 else 1)
            && pc + SizeHandlers(x) == next + SizeHandlers(x.rest)
    ensures DepthHandlers(x) >= DepthStmts(x.body) && DepthHandlers(x) >= DepthHandlers(x.rest)
    ensures x.rest.XNil? ==> SizeHandlers(x.rest) == 0
  {
    var cs := seq(CountExcepts(x), i => NoneV);
    HandlersParts(Idle(), x, cs, NoneV, pc, d, loops, done, map[], 0);
  }

  lemma NoHandlersRead(rd: Reader, x: Excepts, ptr: nat, done: nat, y: seq<Entry>)
    requires x.XNil?
    ensures var r := OpHandlers(rd, Pendings(x, ptr), ptr, done, y);
        r.0.Frame? && r.0.ptr == ptr && r.0.exprs == y && r.1 == x
    ensures SizeHandlers(x) == 0
  {
  }

  /** One handler of those to be read. */
  lemma OpHandlersStep(rd: Reader, todo: seq<Pending>, ptr: nat, slot: Option<nat>, start: nat, done: nat,
      y: seq<Entry>, b: Frame, next: nat, r: (Frame, Excepts))
    requires |todo| > 0 && todo[0].entry == ptr && next >= 1 && (|todo| > 1 ==> todo[1].entry == next)
    requires HandlerHead(rd, ptr) == Some((slot, start))
    requires b == Block(rd, start, if |todo| > 1 then next - 1 else done, y, true, false)
    requires b.Frame? && b.exprs == y && b.ptr == (if |todo| > 1 then next - 1 else next)
    requires |todo| > 1 ==> b.ptr < |rd.code| && rd.code[b.ptr] == Jump(done)
    requires r == OpHandlers(rd, todo[1..], next, done, y)
    ensures OpHandlers(rd, todo, ptr, done, y) == (r.0, XCons(slot, todo[0].codes, ToStmts(b.stmts), r.1))
  {
    hide Block, ReadOn, ToStmts, Left, Op, HandlerHead;
  }

  lemma HandlerHeadIs(rd: Reader, ptr: nat, slot: Option<nat>, pop: nat)
    requires pop == (if slot.Some? then ptr + 1 else ptr) < |rd.code| && rd.code[pop] == Pop
    requires slot.Some? ==> rd.code[ptr] == Put(slot.value)
    ensures HandlerHead(rd, ptr) == Some((slot, pop + 1))
  {
  }

  lemma PendingsAre(x: Excepts, ptr: nat)
    requires x.XCons?
    ensures var next, todo := ptr + SizeHandler(x.slot, SizeStmts(x.body), x.rest.XNil?), Pendings(x, ptr);
            && |todo| > 0 && todo[0] == Pending(x.codes, ptr) && todo[1..] == Pendings(x.rest, next)
            && (|todo| > 1 <==> x.rest.XCons?) && (|todo| > 1 ==> todo[1].entry == next)
  {
    hide SizeHandler, SizeStmts;
    var next, todo := ptr + SizeHandler(x.slot, SizeStmts(x.body), x.rest.XNil?), Pendings(x, ptr);
    assert todo[1..] == Pendings(x.rest, next);
    if x.rest.XCons? {
      assert todo[1] == Pendings(x.rest, next)[0] == Pending(x.rest.codes, next);
    }
  }

  lemma {:induction false} HandlersRead(rd: Reader, x: Excepts, ptr: nat, done: nat, y: seq<Entry>, d: nat,
      loops: seq<Loop>)
    returns (r: (Frame, Excepts))
    requires ParsedExcepts(x) && WellScopedExcepts(x, Ids(loops))
        && At(rd.code, ptr, CodeHandlers(x, ptr, d, loops, done))
    requires done == ptr + SizeHandlers(x) && |y| + DepthHandlers(x) <= rd.limit && LoopsAround(loops, ptr, done)
    ensures r == OpHandlers(rd, Pendings(x, ptr), ptr, done, y)
    ensures r.0.Frame? && r.0.ptr == done && r.0.exprs == y && r.1 == x
    decreases x, 2
  {
    hide *;
    r := OpHandlers(rd, Pendings(x, ptr), ptr, done, y);
    match x
    case XNil =>
      NoHandlersRead(rd, x, ptr, done, y);
    case XCons(slot, codes, body, rest) =>
      HandlerAt(rd, x, ptr, d, loops, done);
      ExceptsParsed(x);
      var next, pop := ptr + SizeHandler(slot, SizeStmts(body), rest.XNil?), if slot.Some? then ptr + 1 else ptr;
      var stop := if rest.XNil? then done else next - 1;
      AtItsEnd(rd, stop);
      AroundLess(loops, ptr, done, pop + 1, stop);
      AroundLess(loops, ptr, done, next, done);
      var b := BlockStmts(rd, pop + 1, stop, y, body, d, loops);
      var q := HandlersRead(rd, rest, next, done, y, d, loops);
      PendingsAre(x, ptr);
      HandlerHeadIs(rd, ptr, slot, pop);
      OpHandlersStep(rd, Pendings(x, ptr), ptr, slot, pop + 1, done, y, b, next, q);
  }

  /** The pieces of the code of the first handler. */
  lemma HandlerAt(rd: Reader, x: Excepts, ptr: nat, d: nat, loops: seq<Loop>, done: nat)
    requires x.XCons? && WellScopedExcepts(x, Ids(loops)) && At(rd.code, ptr, CodeHandlers(x, ptr, d, loops, done))
    requires done == ptr + SizeHandlers(x)
    ensures var next := ptr + SizeHandler(x.slot, SizeStmts(x.body), x.rest.XNil?);
            var pop := if x.slot.Some? then ptr + 1 else ptr;
            && WellScoped(x.body, Ids(loops)) && WellScopedExcepts(x.rest, Ids(loops))
            && pop < |rd.code| && rd.code[pop] == Pop && (x.slot.Some? ==> rd.code[ptr] == Put(x.slot.value))
            && At(rd.code, pop + 1, CodeStmts(x.body, pop + 1, d, loops))
            && At(rd.code, next, CodeHandlers(x.rest, next, d, loops, done))
            && done == next + SizeHandlers(x.rest)
              && next == pop + 1 + SizeStmts(x.body) + (if x.rest.XNil? then 0 else 1)
            && (if x.rest.XNil? then next == done else next - 1 < |rd.code| && rd.code[next - 1] == Jump(done))
    ensures DepthHandlers(x) >= DepthStmts(x.body) && DepthHandlers(x) >= DepthHandlers(x.rest)
  {
    hide *;
    HandlersCode(x, ptr, d, loops, done);
    var store, jump := if x.slot.Some? then [Put(x.slot.value)] else [], if x.rest.XNil? then [] else [Jump(done)];
    var next, pop := ptr + SizeHandler(x.slot, SizeStmts(x.body), x.rest.XNil?), ptr + |store|;
    var cb := CodeStmts(x.body, pop + 1, d, loops);
    AtSplit(rd.code, ptr, store + [Pop] + cb + jump, CodeHandlers(x.rest, next, d, loops, done));
    AtSplit(rd.code, ptr, store + [Pop] + cb, jump);
    AtSplit(rd.code, ptr, store + [Pop], cb);
    AtSplit(rd.code, ptr, store, [Pop]);
    AtOne(rd.code, pop, Pop);
    if x.slot.Some? {
      AtOne(rd.code, ptr, Put(x.slot.value));
    }
    if x.rest.XCons? {
      AtOne(rd.code, next - 1, Jump(done));
    }
  }

  // ---- whole programs ----

  lemma OpDoneIs(rd: Reader, f: Frame)
    requires f.Frame? && f.ptr + 1 == |rd.code| && rd.code[f.ptr] == Done
    ensures ReadOn(rd, |rd.code|, f) == f.(ptr := f.ptr + 1)
  {
    assert Op(rd, |rd.code|, f) == f.(ptr := f.ptr + 1);
  }

  lemma ProgramSize(s: Stmts)
    requires WellScoped(s, [])
    ensures Ids([]) == [] && At(Program(s), 0, CodeStmts(s, 0, 0, [])) && |Program(s)| == SizeStmts(s) + 1
    ensures Program(s)[SizeStmts(s)] == Done && LoopsAround([], 0, SizeStmts(s))
  {
    assert Ids([]) == [];
    AtSplit(Program(s), 0, CodeStmts(s, 0, 0, []), [Done]);
  }

  /** Decompiling undoes compiling, and the stack allocated for it is as large as it ever gets. */
  lemma RoundTrip(s: Stmts)
    requires WellScoped(s, []) && ParsedStmts(s)
    ensures Decompile(Program(s), MaxStack(s)) == Some(s)
  {
    hide ReadOn, CodeStmts, SizeStmts, DepthStmts, FromStmts, ToStmts, At, Op, WellScoped, ParsedStmts, Program,
        LoopsAround, Ids;
    ProgramSize(s);
    var rd := Reader(Program(s), MaxStack(s));
    var f, n := Fresh(0, [], true, false), SizeStmts(s);
    FreshIs(rd, |rd.code|, 0, [], true, false, CodeStmts(s, 0, 0, []), DepthStmts(s));
    StmtsRead(rd, |rd.code|, f, s, 0, []);
    OpDoneIs(rd, Grown(f, n, FromStmts(s)));
    assert Grown(f, n, FromStmts(s)).stmts == FromStmts(s);
    StmtsBack(s);
  }
}
