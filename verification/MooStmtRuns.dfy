/** Running the code of statements: every way in which a statement can end is matched by where the
    machine ends up, through loops, handlers and FINALLY bodies. */
module MooStmtRuns {
  import opened Options
  import opened MooAst
  import opened MooSemantics
  import opened MooCode
  import opened MooMachine
  import opened MooExprRuns

  // ---- leaving a statement other than by its end ----

  predicate Scoped(o: Outcome, loops: seq<Loop>) {
    match o
    case Broke(x) => HasLoop(Ids(loops), x)
    case Continued(x) => HasLoop(Ids(loops), x)
    case Raised(_) => true
    case Returned(_) => true
    case _ => false
  }

  /** The reason and payload with which the stack is unwound for an outcome. */
  function WhyOf(o: Outcome, loops: seq<Loop>, stack: seq<Slot>): (Why, Pay)
    requires Scoped(o, loops)
  {
    match o
    case Raised(c) => if Handled(stack, c) then (Raise, PVal(Tuple(c))) else (Uncaught, PVal(IntV(0)))
    case Returned(v) => (ReturnW, PVal(v))
    case Broke(x) => (ExitW, PExit(Target(loops, x).bottomDepth, Target(loops, x).bottom))
    case Continued(x) => (ExitW, PExit(Target(loops, x).topDepth, Target(loops, x).top))
  }

  function Leave(o: Outcome, loops: seq<Loop>, stack: seq<Slot>, env: Env): Config
    requires Scoped(o, loops)
  {
    var (why, pay) := WhyOf(o, loops, stack);
    Unwind(why, pay, stack, env)
  }

  /** Every enclosing loop sits lower on the stack than here. */
  predicate LoopsBelow(loops: seq<Loop>, d: nat) {
    forall l :: l in loops ==> l.bottomDepth <= d && l.topDepth <= d
  }

  lemma LeaveRaised(c: Value, loops: seq<Loop>, stack: seq<Slot>, env: Env)
    ensures Scoped(Raised(c), loops) && Leave(Raised(c), loops, stack, env) == RaiseError(c, stack, env)
  {
  }

  lemma LeaveReturned(v: Value, loops: seq<Loop>, stack: seq<Slot>, env: Env)
    ensures Scoped(Returned(v), loops)
    ensures Leave(Returned(v), loops, stack, env) == Unwind(ReturnW, PVal(v), stack, env)
  {
  }

  lemma LeavePlain(o: Outcome, loops: seq<Loop>, stack: seq<Slot>, s: Slot, env: Env)
    requires Scoped(o, loops) && LoopsBelow(loops, |stack|) && !s.FinM? && (s.CatchM? ==> !o.Raised?)
    ensures Leave(o, loops, stack + [s], env) == Leave(o, loops, stack, env)
  {
    assert (stack + [s])[..|stack|] == stack;
    if o.Raised? {
      RaisePlain(o.code, stack, s, env);
    }
  }

  /** Leaving through a FINALLY marker enters its handler with the reason and payload saved. */
  lemma LeaveFinally(o: Outcome, loops: seq<Loop>, h: nat, stack: seq<Slot>, env: Env)
    requires Scoped(o, loops) && LoopsBelow(loops, |stack|)
    ensures var (why, pay) := WhyOf(o, loops, stack);
            Leave(o, loops, stack + [FinM(h)], env) == Running(h, stack + [WhyS(why), PayS(pay)], env)
  {
    assert (stack + [FinM(h)])[..|stack|] == stack;
    if o.Raised? {
      assert Handled(stack + [FinM(h)], o.code) == Handled(stack, o.code);
    }
  }

  lemma IdsAppend(loops: seq<Loop>, l: Loop)
    ensures Ids(loops + [l]) == Ids(loops) + [l.id]
  {
  }

  /** What is not for the innermost loop is for the same loop without it. */
  lemma LeaveOuter(o: Outcome, loops: seq<Loop>, l: Loop, stack: seq<Slot>, env: Env)
    requires Scoped(o, loops + [l])
    requires (o.Broke? || o.Continued?) ==> !ForThisLoop(o.exit, l.id)
    ensures Scoped(o, loops) && Leave(o, loops + [l], stack, env) == Leave(o, loops, stack, env)
  {
    IdsAppend(loops, l);
    assert (loops + [l])[..|loops|] == loops;
  }

  /** break and continue of the innermost loop. */
  lemma LeaveInner(x: Option<nat>, loops: seq<Loop>, l: Loop)
    requires ForThisLoop(x, l.id)
    ensures HasLoop(Ids(loops + [l]), x) && Target(loops + [l], x) == l
  {
    IdsAppend(loops, l);
    assert (loops + [l])[|loops|] == l;
    assert Ids(loops + [l])[|loops|] == l.id;
  }

  lemma UnwindExit(depth: nat, pc: nat, stack: seq<Slot>, env: Env)
    requires depth == |stack|
    ensures Unwind(ExitW, PExit(depth, pc), stack, env) == Running(pc, stack, env)
  {
  }

  /** break and continue of the innermost loop, from just above the level they go to. */
  lemma LeaveToTop(x: Option<nat>, loops: seq<Loop>, l: Loop, stack: seq<Slot>, env: Env)
    requires ForThisLoop(x, l.id) && l.topDepth == |stack|
    ensures Scoped(Continued(x), loops + [l])
    ensures Leave(Continued(x), loops + [l], stack, env) == Running(l.top, stack, env)
  {
    LeaveInner(x, loops, l);
    UnwindExit(l.topDepth, l.top, stack, env);
  }

  // ---- how a run of the machine matches the end of a statement ----

  ghost predicate Lasts(m: Machine, c: Config, n: nat, bound: nat) {
    exists d: Config :: d.Running? && Runs(m, c, n, d, bound)
  }

  /** From c, in n steps, the machine does what a statement with result r does.  A statement that has
      not finished on its fuel keeps the machine busy for as many steps. */
  ghost predicate Does(m: Machine, c: Config, n: nat, r: (Outcome, Env), fuel: nat, pc: nat, loops: seq<Loop>,
      stack: seq<Slot>, bound: nat) {
    match r.0
    case Normal => Runs(m, c, n, Running(pc, stack, r.1), bound)
    case Timeout => n >= fuel && Lasts(m, c, n, bound)
    case _ => Scoped(r.0, loops) && Runs(m, c, n, Leave(r.0, loops, stack, r.1), bound)
  }

  lemma DoesNormal(m: Machine, c: Config, n: nat, env: Env, fuel: nat, pc: nat, loops: seq<Loop>, stack: seq<Slot>,
      bound: nat)
    ensures Does(m, c, n, (Normal, env), fuel, pc, loops, stack, bound)
        <==> Runs(m, c, n, Running(pc, stack, env), bound)
  {
  }

  lemma DoesLeave(m: Machine, c: Config, n: nat, r: (Outcome, Env), fuel: nat, pc: nat, loops: seq<Loop>,
      stack: seq<Slot>, bound: nat)
    requires r.0 != Normal && r.0 != Timeout
    ensures Does(m, c, n, r, fuel, pc, loops, stack, bound) <==>
            Scoped(r.0, loops) && Runs(m, c, n, Leave(r.0, loops, stack, r.1), bound)
  {
  }

  lemma DoesRaise(m: Machine, c: Config, n: nat, code: Value, env: Env, fuel: nat, pc: nat, loops: seq<Loop>,
      stack: seq<Slot>, bound: nat)
    ensures Does(m, c, n, (Raised(code), env), fuel, pc, loops, stack, bound)
        <==> Runs(m, c, n, RaiseError(code, stack, env), bound)
  {
    LeaveRaised(code, loops, stack, env);
  }

  lemma DoesTimeout(m: Machine, c: Config, n: nat, env: Env, fuel: nat, pc: nat, loops: seq<Loop>, stack: seq<Slot>,
      env': Env, fuel': nat, pc': nat, loops': seq<Loop>, stack': seq<Slot>, bound: nat)
    requires Does(m, c, n, (Timeout, env), fuel, pc, loops, stack, bound) && fuel' <= fuel
    ensures Does(m, c, n, (Timeout, env'), fuel', pc', loops', stack', bound)
  {
  }

  /** Steps in front of what is done. */
  lemma DoesAfter(m: Machine, c: Config, k: nat, d: Config, n: nat, r: (Outcome, Env), fuel: nat, fuel': nat, pc: nat,
      loops: seq<Loop>, stack: seq<Slot>, bound: nat)
    requires Runs(m, c, k, d, bound) && Does(m, d, n, r, fuel, pc, loops, stack, bound) && fuel' <= fuel + k
    ensures Does(m, c, k + n, r, fuel', pc, loops, stack, bound)
  {
    match r.0
    case Normal => RunsOn(m, c, k, d, n, Running(pc, stack, r.1), bound);
    case Timeout =>
      var e: Config :| e.Running? && Runs(m, d, n, e, bound);
      RunsOn(m, c, k, d, n, e, bound);
    case _ => RunsOn(m, c, k, d, n, Leave(r.0, loops, stack, r.1), bound);
  }

  /** A statement that did not end normally ends the sequence it stands in. */
  lemma DoesElsewhere(m: Machine, c: Config, n: nat, r: (Outcome, Env), fuel: nat, pc: nat, pc': nat, loops: seq<Loop>,
      stack: seq<Slot>, bound: nat)
    requires Does(m, c, n, r, fuel, pc, loops, stack, bound) && r.0 != Normal
    ensures Does(m, c, n, r, fuel, pc', loops, stack, bound)
  {
  }

  // ---- one instruction each ----

  lemma StepWhile(m: Machine, id: Option<nat>, lab: nat, v: Value, pc: nat, stack: seq<Slot>, env: Env, bound: nat)
    requires At(m.code, pc, [if id.Some? then WhileId(id.value, lab) else WhileI(lab)]) && |stack| < bound
    ensures Runs(m, Running(pc, stack + [V(v)], env), 1,
                 Running(if Truthy(v) then pc + 1 else lab, stack, if id.Some? then env[id.value := v] else env), bound)
  {
    var c := Running(pc, stack + [V(v)], env);
    AtOne(m.code, pc, if id.Some? then WhileId(id.value, lab) else WhileI(lab));
    assert c.stack[..|stack|] == stack;
    OneStep(m, c, bound);
  }

  lemma StepReturn(m: Machine, v: Value, pc: nat, stack: seq<Slot>, env: Env, bound: nat)
    requires At(m.code, pc, [Return]) && |stack| < bound && Roomy(stack, bound)
    ensures Runs(m, Running(pc, stack + [V(v)], env), 1, Unwind(ReturnW, PVal(v), stack, env), bound)
  {
    var c := Running(pc, stack + [V(v)], env);
    AtOne(m.code, pc, Return);
    assert c.stack[..|stack|] == stack;
    UnwindFits(ReturnW, PVal(v), stack, env, bound);
    OneStep(m, c, bound);
  }

  lemma StepReturn0(m: Machine, i: Instr, pc: nat, stack: seq<Slot>, env: Env, bound: nat)
    requires At(m.code, pc, [i]) && (i == Return0 || i == Done) && Roomy(stack, bound)
    ensures Runs(m, Running(pc, stack, env), 1, Unwind(ReturnW, PVal(IntV(0)), stack, env), bound)
  {
    AtOne(m.code, pc, i);
    UnwindFits(ReturnW, PVal(IntV(0)), stack, env, bound);
    OneStep(m, Running(pc, stack, env), bound);
  }

  lemma StepExit(m: Machine, exit: Option<nat>, depth: nat, lab: nat, pc: nat, stack: seq<Slot>, env: Env, bound: nat)
    requires At(m.code, pc, [ExitCode(exit, depth, lab)]) && Roomy(stack, bound)
    ensures Runs(m, Running(pc, stack, env), 1, Unwind(ExitW, PExit(depth, lab), stack, env), bound)
  {
    AtOne(m.code, pc, ExitCode(exit, depth, lab));
    UnwindFits(ExitW, PExit(depth, lab), stack, env, bound);
    OneStep(m, Running(pc, stack, env), bound);
  }

  lemma StepTryFinally(m: Machine, h: nat, pc: nat, stack: seq<Slot>, env: Env, bound: nat)
    requires At(m.code, pc, [TryFinally(h)]) && |stack| < bound
    ensures Runs(m, Running(pc, stack, env), 1, Running(pc + 1, stack + [FinM(h)], env), bound)
  {
    AtOne(m.code, pc, TryFinally(h));
    OneStep(m, Running(pc, stack, env), bound);
  }

  lemma StepEndFinally(m: Machine, h: nat, pc: nat, stack: seq<Slot>, env: Env, bound: nat)
    requires At(m.code, pc, [EndFinally]) && |stack| + 2 <= bound
    ensures Runs(m, Running(pc, stack + [FinM(h)], env), 1,
                 Running(pc + 1, stack + [WhyS(FallThru), PayS(PVal(IntV(0)))], env), bound)
  {
    var c := Running(pc, stack + [FinM(h)], env);
    AtOne(m.code, pc, EndFinally);
    assert c.stack[..|stack|] == stack;
    OneStep(m, c, bound);
  }

  lemma StepContinue(m: Machine, why: Why, pay: Pay, pc: nat, stack: seq<Slot>, env: Env, bound: nat)
    requires At(m.code, pc, [ContinueI]) && |stack| + 2 <= bound && Roomy(stack, bound)
    ensures Runs(m, Running(pc, stack + [WhyS(why), PayS(pay)], env), 1,
                 if why == FallThru then Running(pc + 1, stack, env) else Unwind(why, pay, stack, env), bound)
  {
    var c := Running(pc, stack + [WhyS(why), PayS(pay)], env);
    AtOne(m.code, pc, ContinueI);
    assert c.stack[..|stack|] == stack;
    UnwindFits(why, pay, stack, env, bound);
    OneStep(m, c, bound);
  }

  lemma StepEndExcept(m: Machine, lab: nat, n: nat, pairs: seq<Slot>, pc: nat, stack: seq<Slot>, env: Env, bound: nat)
    requires At(m.code, pc, [EndExcept(lab)]) && |pairs| == 2 * n && |stack| + |pairs| + 1 <= bound
    ensures Runs(m, Running(pc, stack + pairs + [CatchM(n)], env), 1, Running(lab, stack, env), bound)
  {
    var c := Running(pc, stack + pairs + [CatchM(n)], env);
    AtOne(m.code, pc, EndExcept(lab));
    assert c.stack[..|stack|] == stack;
    OneStep(m, c, bound);
  }

  // ---- loops ----

  lemma {:induction false} LeavePlains(o: Outcome, loops: seq<Loop>, stack: seq<Slot>, extra: seq<Slot>, env: Env)
    requires Scoped(o, loops) && LoopsBelow(loops, |stack|) && forall i :: 0 <= i < |extra| ==> Plain(extra[i])
    ensures Leave(o, loops, stack + extra, env) == Leave(o, loops, stack, env)
    decreases |extra|
  {
    if extra == [] {
      assert stack + extra == stack;
    } else {
      var front, s := extra[..|extra| - 1], extra[|extra| - 1];
      assert stack + extra == stack + front + [s];
      LeavePlain(o, loops, stack + front, s, env);
      LeavePlains(o, loops, stack, front, env);
    }
  }

  /** The body has run and the loop goes on. */
  predicate Again(o: Outcome, id: Option<nat>) {
    o == Normal || (o.Continued? && ForThisLoop(o.exit, id))
  }

  /** What the loop does when its body does not let it go on. */
  function Escape(r: (Outcome, Env), id: Option<nat>): (Outcome, Env) {
    if r.0.Broke? && ForThisLoop(r.0.exit, id) then (Normal, r.1) else r
  }

  /** break, from above the entries the loop keeps on the stack. */
  lemma LeaveBreak(x: Option<nat>, loops: seq<Loop>, l: Loop, stack: seq<Slot>, extra: seq<Slot>, env: Env)
    requires ForThisLoop(x, l.id) && l.bottomDepth == |stack| && forall i :: 0 <= i < |extra| ==> Plain(extra[i])
    ensures Scoped(Broke(x), loops + [l])
    ensures Leave(Broke(x), loops + [l], stack + extra, env) == Running(l.bottom, stack, env)
  {
    LeaveInner(x, loops, l);
    ExitPlains(l.bottomDepth, l.bottom, stack, extra, env);
    UnwindExit(l.bottomDepth, l.bottom, stack, env);
  }

  lemma {:induction false} ExitPlains(depth: nat, pc: nat, stack: seq<Slot>, extra: seq<Slot>, env: Env)
    requires depth <= |stack| && forall i :: 0 <= i < |extra| ==> Plain(extra[i])
    ensures Unwind(ExitW, PExit(depth, pc), stack + extra, env) == Unwind(ExitW, PExit(depth, pc), stack, env)
    decreases |extra|
  {
    if extra == [] {
      assert stack + extra == stack;
    } else {
      var front := extra[..|extra| - 1];
      assert (stack + extra)[..|stack + extra| - 1] == stack + front;
      ExitPlains(depth, pc, stack, front, env);
    }
  }

  /** The body of a loop and the jump back. */
  lemma LoopBody(m: Machine, c: Config, n: nat, r: (Outcome, Env), fuel: nat, pc: nat, l: Loop, loops: seq<Loop>,
      stack: seq<Slot>, extra: seq<Slot>, bound: nat) returns (k: nat)
    requires Does(m, c, n, r, fuel, pc, loops + [l], stack + extra, bound) && At(m.code, pc, [Jump(l.top)])
    requires l.topDepth == |stack + extra| <= bound && l.bottomDepth == |stack| && LoopsBelow(loops, |stack|)
    requires forall i :: 0 <= i < |extra| ==> Plain(extra[i])
    ensures k >= n
    ensures Again(r.0, l.id) ==> Runs(m, c, k, Running(l.top, stack + extra, r.1), bound)
    ensures !Again(r.0, l.id) ==> Does(m, c, k, Escape(r, l.id), fuel, l.bottom, loops, stack, bound)
  {
    hide Runs, At, Step, Leave, Does, LoopsBelow, Scoped, Unwind, Target, Ids;
    var (o, env) := r;
    if o == Normal {
      DoesNormal(m, c, n, env, fuel, pc, loops + [l], stack + extra, bound);
      StepJump(m, l.top, pc, stack + extra, env, bound);
      RunsOn(m, c, n, Running(pc, stack + extra, env), 1, Running(l.top, stack + extra, env), bound);
      k := n + 1;
    } else if o == Timeout {
      DoesTimeout(m, c, n, env, fuel, pc, loops + [l], stack + extra, env, fuel, l.bottom, loops, stack, bound);
      k := n;
    } else {
      k := n;
      DoesLeave(m, c, n, r, fuel, pc, loops + [l], stack + extra, bound);
      if o.Continued? && ForThisLoop(o.exit, l.id) {
        LeaveToTop(o.exit, loops, l, stack + extra, env);
      } else if o.Broke? && ForThisLoop(o.exit, l.id) {
        LeaveBreak(o.exit, loops, l, stack, extra, env);
        DoesNormal(m, c, n, env, fuel, l.bottom, loops, stack, bound);
      } else {
        LeaveOuter(o, loops, l, stack + extra, env);
        LeavePlains(o, loops, stack, extra, env);
        DoesLeave(m, c, n, r, fuel, l.bottom, loops, stack, bound);
      }
    }
  }

  // ---- statements ----

  /** What holds where the code of a statement is entered. */
  predicate Ready(m: Machine, loops: seq<Loop>, stack: seq<Slot>, depth: nat, bound: nat) {
    !m.fused && Roomy(stack, bound) && LoopsBelow(loops, |stack|) && |stack| + depth <= bound
  }

  lemma ReadyLess(m: Machine, loops: seq<Loop>, stack: seq<Slot>, depth: nat, depth': nat, bound: nat)
    requires Ready(m, loops, stack, depth, bound) && depth' <= depth
    ensures Ready(m, loops, stack, depth', bound)
    ensures !m.fused && Roomy(stack, bound) && |stack| + depth' <= bound && LoopsBelow(loops, |stack|)
  {
  }

  /** Entries pushed by the statement, and perhaps a loop of its own. */
  lemma ReadyMore(m: Machine, loops: seq<Loop>, stack: seq<Slot>, extra: seq<Slot>, depth: nat, depth': nat, bound: nat)
    requires Ready(m, loops, stack, depth, bound) && |extra| + depth' <= depth
    requires forall i :: 0 <= i < |extra| && extra[i].FinM? ==> |stack| + i + 2 <= bound
    ensures Ready(m, loops, stack + extra, depth', bound)
  {
  }

  lemma ReadyLoop(m: Machine, loops: seq<Loop>, l: Loop, stack: seq<Slot>, depth: nat, bound: nat)
    requires Ready(m, loops, stack, depth, bound) && l.bottomDepth <= |stack| && l.topDepth <= |stack|
    ensures Ready(m, loops + [l], stack, depth, bound)
  {
  }

  lemma StmtsParts(w: World, s: Stmts, pc: nat, d: nat, loops: seq<Loop>, env: Env, fuel: nat)
    requires s.SCons? && WellScoped(s, Ids(loops))
    ensures WellScopedStmt(s.head, Ids(loops)) && WellScoped(s.tail, Ids(loops))
    ensures CodeStmts(s, pc, d, loops)
        == CodeStmt(s.head, pc, d, loops) + CodeStmts(s.tail, pc + SizeStmt(s.head), d, loops)
    ensures SizeStmts(s) == SizeStmt(s.head) + SizeStmts(s.tail)
    ensures DepthStmts(s) >= DepthStmt(s.head) && DepthStmts(s) >= DepthStmts(s.tail)
    ensures var (o, env1) := ExecStmt(w, s.head, env, fuel);
            Exec(w, s, env, fuel) == if o == Normal then Exec(w, s.tail, env1, fuel) else (o, env1)
  {
    hide Ids, ExecStmt, CodeStmt, SizeStmt, DepthStmt;
  }

  lemma StmtsEnd(w: World, s: Stmts, env: Env, fuel: nat)
    requires s.SNil?
    ensures SizeStmts(s) == 0 && Exec(w, s, env, fuel) == (Normal, env)
  {
  }

  lemma {:induction false} StmtsRun(m: Machine, s: Stmts, pc: nat, loops: seq<Loop>, stack: seq<Slot>, env: Env,
      fuel: nat, bound: nat)
    returns (n: nat)
    requires WellScoped(s, Ids(loops)) && At(m.code, pc, CodeStmts(s, pc, |stack|, loops))
    requires Ready(m, loops, stack, DepthStmts(s), bound)
    ensures Does(m, Running(pc, stack, env), n, Exec(m.w, s, env, fuel), fuel, pc + SizeStmts(s), loops, stack, bound)
    decreases fuel, s, 2, 0
  {
    hide *;
    var c, d, end := Running(pc, stack, env), |stack|, pc + SizeStmts(s);
    match s
    case SNil =>
      StmtsEnd(m.w, s, env, fuel);
      ReadyLess(m, loops, stack, DepthStmts(s), 0, bound);
      RunsNowhere(m, c, bound);
      DoesNormal(m, c, 0, env, fuel, end, loops, stack, bound);
      n := 0;
    case SCons(h, t) =>
      StmtsParts(m.w, s, pc, d, loops, env, fuel);
      AtSplit(m.code, pc, CodeStmt(h, pc, d, loops), CodeStmts(t, pc + SizeStmt(h), d, loops));
      ReadyLess(m, loops, stack, DepthStmts(s), DepthStmt(h), bound);
      ReadyLess(m, loops, stack, DepthStmts(s), DepthStmts(t), bound);
      n := StmtRuns(m, h, pc, loops, stack, env, fuel, bound);
      var (o, env1) := ExecStmt(m.w, h, env, fuel);
      if o == Normal {
        DoesNormal(m, c, n, env1, fuel, pc + SizeStmt(h), loops, stack, bound);
        var k := StmtsRun(m, t, pc + SizeStmt(h), loops, stack, env1, fuel, bound);
        DoesAfter(m, c, n, Running(pc + SizeStmt(h), stack, env1), k, Exec(m.w, t, env1, fuel), fuel, fuel, end, loops,
          stack, bound);
        n := n + k;
      } else {
        DoesElsewhere(m, c, n, (o, env1), fuel, pc + SizeStmt(h), end, loops, stack, bound);
      }
  }

  lemma {:induction false} StmtRuns(m: Machine, s: Stmt, pc: nat, loops: seq<Loop>, stack: seq<Slot>, env: Env,
      fuel: nat, bound: nat)
    returns (n: nat)
    requires WellScopedStmt(s, Ids(loops)) && At(m.code, pc, CodeStmt(s, pc, |stack|, loops))
    requires Ready(m, loops, stack, DepthStmt(s), bound)
    ensures Does(m, Running(pc, stack, env), n, ExecStmt(m.w, s, env, fuel), fuel, pc + SizeStmt(s), loops, stack,
        bound)
    decreases fuel, s, 2, 0
  {
    hide *;
    match s
    case ExprS(_) => n := ExprSRuns(m, s, pc, loops, stack, env, fuel, bound);
    case CondS(arms) =>
      CondParts(m.w, s, pc, |stack|, loops, env, fuel);
      n := ArmsRun(m, arms, true, pc, loops, stack, env, fuel, pc + SizeStmt(s), bound);
    case WhileS(_, _, _) => n := WhileRuns(m, s, pc, loops, stack, env, fuel, bound);
    case RangeS(_, _, _, _) => n := RangeRuns(m, s, pc, loops, stack, env, fuel, bound);
    case ReturnS(_) => n := ReturnRuns(m, s, pc, loops, stack, env, fuel, bound);
    case TryExceptS(_, _) => n := ExceptSRuns(m, s, pc, loops, stack, env, fuel, bound);
    case TryFinallyS(_, _) => n := FinallyRuns(m, s, pc, loops, stack, env, fuel, bound);
    case BreakS(_) => n := ExitRuns(m, s, pc, loops, stack, env, fuel, bound);
    case ContinueS(_) => n := ExitRuns(m, s, pc, loops, stack, env, fuel, bound);
  }

  lemma ExprSParts(w: World, s: Stmt, pc: nat, d: nat, loops: seq<Loop>, env: Env, fuel: nat)
    requires s.ExprS? && WellScopedStmt(s, Ids(loops))
    ensures CodeStmt(s, pc, d, loops) == CodeExpr(s.e, pc) + [Pop]
    ensures SizeStmt(s) == SizeExpr(s.e) + 1 && DepthStmt(s) == DepthExpr(s.e)
    ensures var (v, env1) := Eval(w, s.e, env);
            ExecStmt(w, s, env, fuel) == (if v.Fail? then Raised(v.code) else Normal, env1)
  {
  }

  /** An expression that raises ends the statement that starts with it. */
  lemma FailDoes(m: Machine, c: Config, n: nat, r: (Result, Env), pc: nat, fuel: nat, end: nat, loops: seq<Loop>,
      stack: seq<Slot>, bound: nat)
    requires r.0.Fail? && Runs(m, c, n, After(r, pc, stack), bound)
    ensures Does(m, c, n, (Raised(r.0.code), r.1), fuel, end, loops, stack, bound)
  {
    AfterFail(r, pc, pc, stack);
    DoesRaise(m, c, n, r.0.code, r.1, fuel, end, loops, stack, bound);
  }

  lemma ExprSRuns(m: Machine, s: Stmt, pc: nat, loops: seq<Loop>, stack: seq<Slot>, env: Env, fuel: nat, bound: nat)
    returns (n: nat)
    requires s.ExprS? && WellScopedStmt(s, Ids(loops)) && At(m.code, pc, CodeStmt(s, pc, |stack|, loops))
    requires Ready(m, loops, stack, DepthStmt(s), bound)
    ensures Does(m, Running(pc, stack, env), n, ExecStmt(m.w, s, env, fuel), fuel, pc + SizeStmt(s), loops, stack,
        bound)
  {
    hide *;
    var c, e, end := Running(pc, stack, env), s.e, pc + SizeStmt(s);
    ExprSParts(m.w, s, pc, |stack|, loops, env, fuel);
    AtSplit(m.code, pc, CodeExpr(e, pc), [Pop]);
    ReadyLess(m, loops, stack, DepthStmt(s), DepthExpr(e), bound);
    n := ExprRuns(m, e, pc, stack, env, bound);
    var (v, env1) := Eval(m.w, e, env);
    if v.Fail? {
      FailDoes(m, c, n, (v, env1), end - 1, fuel, end, loops, stack, bound);
    } else {
      AfterVal((v, env1), end - 1, stack);
      StepPop(m, V(v.value), end - 1, stack, env1, bound);
      RunsOn(m, c, n, Running(end - 1, stack + [V(v.value)], env1), 1, Running(end, stack, env1), bound);
      n := n + 1;
      DoesNormal(m, c, n, env1, fuel, end, loops, stack, bound);
    }
  }

  lemma CondParts(w: World, s: Stmt, pc: nat, d: nat, loops: seq<Loop>, env: Env, fuel: nat)
    requires s.CondS? && WellScopedStmt(s, Ids(loops))
    ensures WellScopedArms(s.arms, Ids(loops))
    ensures CodeStmt(s, pc, d, loops) == CodeArms(s.arms, true, pc, d, loops, pc + SizeStmt(s))
    ensures SizeStmt(s) == SizeArms(s.arms) && DepthStmt(s) == DepthArms(s.arms)
    ensures ExecStmt(w, s, env, fuel) == ExecArms(w, s.arms, env, fuel)
  {
  }

  lemma ArmParts(w: World, a: Arms, first: bool, pc: nat, d: nat, loops: seq<Loop>, done: nat, env: Env, fuel: nat)
    requires a.Arm? && WellScopedArms(a, Ids(loops))
    ensures WellScoped(a.body, Ids(loops)) && WellScopedArms(a.rest, Ids(loops))
    ensures var thn := pc + SizeExpr(a.cond) + 1;
            var next := thn + SizeStmts(a.body) + 1;
            CodeArms(a, first, pc, d, loops, done)
            == CodeExpr(a.cond, pc) + [if first then IfI(next) else Eif(next)] + CodeStmts(a.body, thn, d, loops)
               + [Jump(done)] + CodeArms(a.rest, false, next, d, loops, done)
    ensures SizeArms(a) == SizeExpr(a.cond) + 1 + SizeStmts(a.body) + 1 + SizeArms(a.rest)
    ensures DepthArms(a) >= DepthExpr(a.cond) && DepthArms(a) >= DepthStmts(a.body) && DepthArms(a) >= DepthArms(a.rest)
    ensures var (v, env1) := Eval(w, a.cond, env);
            ExecArms(w, a, env, fuel)
            == if v.Fail? then (Raised(v.code), env1)
               else if Truthy(v.value) then Exec(w, a.body, env1, fuel)
               else ExecArms(w, a.rest, env1, fuel)
  {
    hide Eval, SizeExpr, DepthExpr, CodeExpr, Ids, Exec, CodeStmts;
  }

  lemma ElseParts(w: World, a: Arms, first: bool, pc: nat, d: nat, loops: seq<Loop>, done: nat, env: Env, fuel: nat)
    requires a.Else? && WellScopedArms(a, Ids(loops))
    ensures WellScoped(a.body, Ids(loops))
    ensures CodeArms(a, first, pc, d, loops, done) == CodeStmts(a.body, pc, d, loops)
    ensures SizeArms(a) == SizeStmts(a.body) && DepthArms(a) == DepthStmts(a.body)
    ensures ExecArms(w, a, env, fuel) == Exec(w, a.body, env, fuel)
  {
  }

  lemma {:induction false} ArmsRun(m: Machine, a: Arms, first: bool, pc: nat, loops: seq<Loop>, stack: seq<Slot>,
      env: Env, fuel: nat, done: nat, bound: nat) returns (n: nat)
    requires WellScopedArms(a, Ids(loops)) && At(m.code, pc, CodeArms(a, first, pc, |stack|, loops, done))
    requires Ready(m, loops, stack, DepthArms(a), bound) && done == pc + SizeArms(a)
    ensures Does(m, Running(pc, stack, env), n, ExecArms(m.w, a, env, fuel), fuel, done, loops, stack, bound)
    decreases fuel, a, 2, 0
  {
    hide *;
    var c, d := Running(pc, stack, env), |stack|;
    match a
    case Else(body) =>
      ElseParts(m.w, a, first, pc, d, loops, done, env, fuel);
      n := StmtsRun(m, body, pc, loops, stack, env, fuel, bound);
    case Arm(cond, body, rest) =>
      ArmParts(m.w, a, first, pc, d, loops, done, env, fuel);
      var mid := pc + SizeExpr(cond);
      var next := mid + 1 + SizeStmts(body) + 1;
      var op := if first then IfI(next) else Eif(next);
      var front := CodeExpr(cond, pc) + [op] + CodeStmts(body, mid + 1, d, loops);
      AtSplit(m.code, pc, front + [Jump(done)], CodeArms(rest, false, next, d, loops, done));
      AtSplit(m.code, pc, front, [Jump(done)]);
      AtSplit(m.code, pc, CodeExpr(cond, pc) + [op], CodeStmts(body, mid + 1, d, loops));
      AtSplit(m.code, pc, CodeExpr(cond, pc), [op]);
      ReadyLess(m, loops, stack, DepthArms(a), DepthExpr(cond), bound);
      ReadyLess(m, loops, stack, DepthArms(a), DepthStmts(body), bound);
      ReadyLess(m, loops, stack, DepthArms(a), DepthArms(rest), bound);
      n := ExprRuns(m, cond, pc, stack, env, bound);
      var (v, env1) := Eval(m.w, cond, env);
      if v.Fail? {
        FailDoes(m, c, n, (v, env1), mid, fuel, done, loops, stack, bound);
      } else {
        AfterVal((v, env1), mid, stack);
        IsTest(next);
        StepTest(m, op, next, v.value, mid, stack, env1, bound);
        var c1 := Running(if Truthy(v.value) then mid + 1 else next, stack, env1);
        RunsOn(m, c, n, Running(mid, stack + [V(v.value)], env1), 1, c1, bound);
        var k, r := 0, ExecArms(m.w, rest, env1, fuel);
        if Truthy(v.value) {
          r := Exec(m.w, body, env1, fuel);
          k := StmtsRun(m, body, mid + 1, loops, stack, env1, fuel, bound);
          k := ThenJump(m, c1, k, r, fuel, next - 1, done, loops, stack, bound);
        } else {
          k := ArmsRun(m, rest, false, next, loops, stack, env1, fuel, done, bound);
        }
        DoesAfter(m, c, n + 1, c1, k, r, fuel, fuel, done, loops, stack, bound);
        n := n + 1 + k;
      }
  }

  /** Statements followed by a jump. */
  lemma ThenJump(m: Machine, c: Config, n: nat, r: (Outcome, Env), fuel: nat, pc: nat, target: nat, loops: seq<Loop>,
      stack: seq<Slot>, bound: nat) returns (k: nat)
    requires Does(m, c, n, r, fuel, pc, loops, stack, bound) && At(m.code, pc, [Jump(target)]) && |stack| <= bound
    ensures Does(m, c, k, r, fuel, target, loops, stack, bound)
  {
    hide *;
    if r.0 == Normal {
      DoesNormal(m, c, n, r.1, fuel, pc, loops, stack, bound);
      StepJump(m, target, pc, stack, r.1, bound);
      RunsOn(m, c, n, Running(pc, stack, r.1), 1, Running(target, stack, r.1), bound);
      k := n + 1;
      DoesNormal(m, c, k, r.1, fuel, target, loops, stack, bound);
    } else {
      DoesElsewhere(m, c, n, r, fuel, pc, target, loops, stack, bound);
      k := n;
    }
  }

  lemma WhileParts(w: World, s: Stmt, pc: nat, d: nat, loops: seq<Loop>, env: Env, fuel: nat)
    requires s.WhileS? && WellScopedStmt(s, Ids(loops))
    ensures var l, end := WhileLoop(s, pc, d), pc + SizeStmt(s);
            && l.id == s.id && l.top == pc && l.topDepth == d && l.bottom == end && l.bottomDepth == d
            && WellScoped(s.body, Ids(loops + [l]))
            && CodeStmt(s, pc, d, loops)
               == CodeExpr(s.cond, pc) + [if s.id.Some? then WhileId(s.id.value, end) else WhileI(end)]
                  + CodeStmts(s.body, pc + SizeExpr(s.cond) + 1, d, loops + [l]) + [Jump(pc)]
    ensures SizeStmt(s) == SizeExpr(s.cond) + 1 + SizeStmts(s.body) + 1
    ensures DepthStmt(s) >= DepthExpr(s.cond) && DepthStmt(s) >= DepthStmts(s.body)
    ensures fuel == 0 ==> ExecStmt(w, s, env, fuel) == (Timeout, env)
    ensures fuel > 0 ==>
              var (v, env1) := Eval(w, s.cond, env);
              ExecStmt(w, s, env, fuel)
              == if v.Fail? then (Raised(v.code), env1)
                 else
                   var env2 := if s.id.Some? then env1[s.id.value := v.value] else env1;
                   if !Truthy(v.value) then (Normal, env2)
                   else
                     var r := Exec(w, s.body, env2, fuel);
                     if Again(r.0, s.id) then ExecStmt(w, s, r.1, fuel - 1) else Escape(r, s.id)
  {
    IdsAppend(loops, WhileLoop(s, pc, d));
  }

  lemma NoFuel(m: Machine, c: Config, env: Env, pc: nat, loops: seq<Loop>, stack: seq<Slot>, bound: nat)
    requires c.Running? && |c.stack| <= bound
    ensures Does(m, c, 0, (Timeout, env), 0, pc, loops, stack, bound)
  {
    RunsNowhere(m, c, bound);
  }

  lemma {:induction false} WhileRuns(m: Machine, s: Stmt, pc: nat, loops: seq<Loop>, stack: seq<Slot>, env: Env,
      fuel: nat, bound: nat)
    returns (n: nat)
    requires s.WhileS? && WellScopedStmt(s, Ids(loops)) && At(m.code, pc, CodeStmt(s, pc, |stack|, loops))
    requires Ready(m, loops, stack, DepthStmt(s), bound)
    ensures Does(m, Running(pc, stack, env), n, ExecStmt(m.w, s, env, fuel), fuel, pc + SizeStmt(s), loops, stack,
        bound)
    decreases fuel, s, 1, 0
  {
    hide *;
    var c, end := Running(pc, stack, env), pc + SizeStmt(s);
    WhileParts(m.w, s, pc, |stack|, loops, env, fuel);
    var mid, op := pc + SizeExpr(s.cond), if s.id.Some? then WhileId(s.id.value, end) else WhileI(end);
    var l := WhileLoop(s, pc, |stack|);
    var code := CodeStmts(s.body, mid + 1, |stack|, loops + [l]);
    AtSplit(m.code, pc, CodeExpr(s.cond, pc) + [op] + code, [Jump(pc)]);
    AtSplit(m.code, pc, CodeExpr(s.cond, pc) + [op], code);
    AtSplit(m.code, pc, CodeExpr(s.cond, pc), [op]);
    ReadyLess(m, loops, stack, DepthStmt(s), DepthExpr(s.cond), bound);
    ReadyLess(m, loops, stack, DepthStmt(s), DepthStmts(s.body), bound);
    ReadyLoop(m, loops, l, stack, DepthStmts(s.body), bound);
    if fuel == 0 {
      NoFuel(m, c, env, end, loops, stack, bound);
      return 0;
    }
    n := ExprRuns(m, s.cond, pc, stack, env, bound);
    var (v, env1) := Eval(m.w, s.cond, env);
    if v.Fail? {
      FailDoes(m, c, n, (v, env1), mid, fuel, end, loops, stack, bound);
      return;
    }
    var env2 := if s.id.Some? then env1[s.id.value := v.value] else env1;
    AfterVal((v, env1), mid, stack);
    StepWhile(m, s.id, end, v.value, mid, stack, env1, bound);
    var c1 := Running(if Truthy(v.value) then mid + 1 else end, stack, env2);
    RunsOn(m, c, n, Running(mid, stack + [V(v.value)], env1), 1, c1, bound);
    n := n + 1;
    if !Truthy(v.value) {
      DoesNormal(m, c, n, env2, fuel, end, loops, stack, bound);
    } else {
      var r := Exec(m.w, s.body, env2, fuel);
      var k := StmtsRun(m, s.body, mid + 1, loops + [l], stack, env2, fuel, bound);
      assert stack + [] == stack;
      k := LoopBody(m, c1, k, r, fuel, end - 1, l, loops, stack, [], bound);
      if Again(r.0, s.id) {
        var c2 := Running(pc, stack, r.1);
        RunsOn(m, c, n, c1, k, c2, bound);
        var j := WhileRuns(m, s, pc, loops, stack, r.1, fuel - 1, bound);
        DoesAfter(m, c, n + k, c2, j, ExecStmt(m.w, s, r.1, fuel - 1), fuel - 1, fuel, end, loops, stack, bound);
        n := n + k + j;
      } else {
        DoesAfter(m, c, n, c1, k, Escape(r, s.id), fuel, fuel, end, loops, stack, bound);
        n := n + k;
      }
    }
  }

  lemma ReturnParts(w: World, s: Stmt, pc: nat, d: nat, loops: seq<Loop>, env: Env, fuel: nat)
    requires s.ReturnS? && WellScopedStmt(s, Ids(loops))
    ensures s.result.None? ==>
                               CodeStmt(s, pc, d, loops) == [Return0]
                               && ExecStmt(w, s, env, fuel) == (Returned(IntV(0)), env)
    ensures s.result.Some? ==>
              && CodeStmt(s, pc, d, loops) == CodeExpr(s.result.value, pc) + [Return]
              && SizeStmt(s) == SizeExpr(s.result.value) + 1 && DepthStmt(s) == DepthExpr(s.result.value)
              && var (v, env1) := Eval(w, s.result.value, env);
                 ExecStmt(w, s, env, fuel) == (if v.Fail? then Raised(v.code) else Returned(v.value), env1)
  {
  }

  lemma DoesReturn(m: Machine, c: Config, n: nat, v: Value, env: Env, fuel: nat, pc: nat, loops: seq<Loop>,
      stack: seq<Slot>, bound: nat)
    requires Runs(m, c, n, Unwind(ReturnW, PVal(v), stack, env), bound)
    ensures Does(m, c, n, (Returned(v), env), fuel, pc, loops, stack, bound)
  {
    LeaveReturned(v, loops, stack, env);
  }

  lemma ReturnRuns(m: Machine, s: Stmt, pc: nat, loops: seq<Loop>, stack: seq<Slot>, env: Env, fuel: nat, bound: nat)
    returns (n: nat)
    requires s.ReturnS? && WellScopedStmt(s, Ids(loops)) && At(m.code, pc, CodeStmt(s, pc, |stack|, loops))
    requires Ready(m, loops, stack, DepthStmt(s), bound)
    ensures Does(m, Running(pc, stack, env), n, ExecStmt(m.w, s, env, fuel), fuel, pc + SizeStmt(s), loops, stack,
        bound)
  {
    hide *;
    var c, end := Running(pc, stack, env), pc + SizeStmt(s);
    ReturnParts(m.w, s, pc, |stack|, loops, env, fuel);
    ReadyLess(m, loops, stack, DepthStmt(s), DepthStmt(s), bound);
    match s.result
    case None =>
      StepReturn0(m, Return0, pc, stack, env, bound);
      n := 1;
      DoesReturn(m, c, n, IntV(0), env, fuel, end, loops, stack, bound);
    case Some(e) =>
      AtSplit(m.code, pc, CodeExpr(e, pc), [Return]);
      n := ExprRuns(m, e, pc, stack, env, bound);
      var (v, env1) := Eval(m.w, e, env);
      if v.Fail? {
        FailDoes(m, c, n, (v, env1), end - 1, fuel, end, loops, stack, bound);
      } else {
        AfterVal((v, env1), end - 1, stack);
        StepReturn(m, v.value, end - 1, stack, env1, bound);
        RunsOn(m, c, n, Running(end - 1, stack + [V(v.value)], env1), 1, Unwind(ReturnW, PVal(v.value), stack, env1),
          bound);
        n := n + 1;
        DoesReturn(m, c, n, v.value, env1, fuel, end, loops, stack, bound);
      }
  }

  lemma ExitRuns(m: Machine, s: Stmt, pc: nat, loops: seq<Loop>, stack: seq<Slot>, env: Env, fuel: nat, bound: nat)
    returns (n: nat)
    requires (s.BreakS? || s.ContinueS?) && WellScopedStmt(s, Ids(loops))
        && At(m.code, pc, CodeStmt(s, pc, |stack|, loops))
    requires Ready(m, loops, stack, DepthStmt(s), bound)
    ensures Does(m, Running(pc, stack, env), n, ExecStmt(m.w, s, env, fuel), fuel, pc + SizeStmt(s), loops, stack,
        bound)
  {
    hide Runs, At, Step, Unwind, Target, Ids, HasLoop;
    var l := Target(loops, s.exit);
    if s.BreakS? {
      StepExit(m, s.exit, l.bottomDepth, l.bottom, pc, stack, env, bound);
    } else {
      StepExit(m, s.exit, l.topDepth, l.top, pc, stack, env, bound);
    }
    n := 1;
  }

  // ---- for-range loops ----

  /** The two entries FOR_RANGE finds before the iteration for i. */
  function Bounds(isInt: bool, i: int, hi: Num): (b: seq<Slot>)
    requires MININT <= i <= MAXINT + 1
    ensures |b| == 2 && Plain(b[0]) && Plain(b[1])
  {
    if i <= MAXINT then [V(Counter(isInt, i)), V(Counter(isInt, hi))]
    else [V(Counter(isInt, MAXINT)), V(Counter(isInt, MAXINT - 1))]
  }

  lemma StepForRange(m: Machine, slot: nat, lab: nat, isInt: bool, i: int, hi: Num, pc: nat, stack: seq<Slot>, env: Env,
      bound: nat)
    requires At(m.code, pc, [ForRange(slot, lab)]) && |stack| + 2 <= bound && MININT <= i <= MAXINT + 1
    ensures Runs(m, Running(pc, stack + Bounds(isInt, i, hi), env), 1,
                 if i > hi then Running(lab, stack, env)
                 else Running(pc + 1, stack + Bounds(isInt, i + 1, hi), env[slot := Counter(isInt, i)]), bound)
  {
    var c := Running(pc, stack + Bounds(isInt, i, hi), env);
    AtOne(m.code, pc, ForRange(slot, lab));
    assert c.stack[..|stack|] == stack;
    OneStep(m, c, bound);
  }

  lemma StepBadRange(m: Machine, slot: nat, lab: nat, from: Value, to: Value, pc: nat, stack: seq<Slot>, env: Env,
      bound: nat)
    requires At(m.code, pc, [ForRange(slot, lab)]) && |stack| + 2 <= bound && Roomy(stack, bound)
    requires !(from.IntV? && to.IntV?) && !(from.ObjV? && to.ObjV?)
    ensures Runs(m, Running(pc, stack + [V(from)] + [V(to)], env), 1,
                 if m.w.debug then RaiseError(E_TYPE, stack, env) else Running(lab, stack, env), bound)
  {
    var c := Running(pc, stack + [V(from)] + [V(to)], env);
    AtOne(m.code, pc, ForRange(slot, lab));
    assert c.stack[..|stack|] == stack;
    RaisePlain(E_TYPE, stack + [V(from)], V(to), env);
    RaisePlain(E_TYPE, stack, V(from), env);
    RaiseFits(E_TYPE, stack, env, bound);
    assert Step(m, c) == if m.w.debug then RaiseError(E_TYPE, stack, env) else Running(lab, stack, env) by {
      hide RaiseError;
    }
    OneStep(m, c, bound);
  }

  lemma RangeParts(w: World, s: Stmt, pc: nat, d: nat, loops: seq<Loop>, env: Env, fuel: nat)
    requires s.RangeS? && WellScopedStmt(s, Ids(loops))
    ensures var l, end := RangeLoop(s, pc, d), pc + SizeStmt(s);
            && l.id == Some(s.slot) && l.top == pc + SizeExpr(s.from) + SizeExpr(s.to) && l.topDepth == d + 2
            && l.bottom == end && l.bottomDepth == d
            && WellScoped(s.body, Ids(loops + [l]))
            && CodeStmt(s, pc, d, loops)
               == CodeExpr(s.from, pc) + CodeExpr(s.to, pc + SizeExpr(s.from)) + [ForRange(s.slot, end)]
                  + CodeStmts(s.body, l.top + 1, d + 2, loops + [l]) + [Jump(l.top)]
            && end == l.top + 1 + SizeStmts(s.body) + 1
    ensures DepthStmt(s) >= DepthExpr(s.from) && DepthStmt(s) >= 1 + DepthExpr(s.to)
        && DepthStmt(s) >= 2 + DepthStmts(s.body)
    ensures var (v1, env1) := Eval(w, s.from, env);
            ExecStmt(w, s, env, fuel)
            == if v1.Fail? then (Raised(v1.code), env1)
               else
                 var (v2, env2) := Eval(w, s.to, env1);
                 if v2.Fail? then (Raised(v2.code), env2) else RangeOf(w, s, v1.value, v2.value, env2, fuel)
  {
    hide Eval, SizeExpr, DepthExpr, CodeExpr, ExecRange, Ids;
    IdsAppend(loops, RangeLoop(s, pc, d));
  }

  /** The loop once its bounds are known. */
  function RangeOf(w: World, s: Stmt, from: Value, to: Value, env: Env, fuel: nat): (Outcome, Env)
    requires s.RangeS?
  {
    if from.IntV? && to.IntV? then ExecRange(w, s, true, from.num, to.num, env, fuel)
    else if from.ObjV? && to.ObjV? then ExecRange(w, s, false, from.obj, to.obj, env, fuel)
    else (if w.debug then Raised(E_TYPE) else Normal, env)
  }

  lemma ExecRangeParts(w: World, s: Stmt, isInt: bool, i: int, hi: Num, env: Env, fuel: nat)
    requires s.RangeS? && MININT <= i
    ensures i > hi ==> ExecRange(w, s, isInt, i, hi, env, fuel) == (Normal, env)
    ensures i <= hi ==>
              var r := Exec(w, s.body, env[s.slot := Counter(isInt, i)], fuel);
              ExecRange(w, s, isInt, i, hi, env, fuel)
              == if Again(r.0, Some(s.slot)) then ExecRange(w, s, isInt, i + 1, hi, r.1, fuel)
                else Escape(r, Some(s.slot))
  {
  }

  lemma {:induction false} RangeRuns(m: Machine, s: Stmt, pc: nat, loops: seq<Loop>, stack: seq<Slot>, env: Env,
      fuel: nat, bound: nat)
    returns (n: nat)
    requires s.RangeS? && WellScopedStmt(s, Ids(loops)) && At(m.code, pc, CodeStmt(s, pc, |stack|, loops))
    requires Ready(m, loops, stack, DepthStmt(s), bound)
    ensures Does(m, Running(pc, stack, env), n, ExecStmt(m.w, s, env, fuel), fuel, pc + SizeStmt(s), loops, stack,
        bound)
    decreases fuel, s, 1, 0
  {
    hide *;
    var c, end := Running(pc, stack, env), pc + SizeStmt(s);
    RangeParts(m.w, s, pc, |stack|, loops, env, fuel);
    var l, mid := RangeLoop(s, pc, |stack|), pc + SizeExpr(s.from);
    var code := CodeStmts(s.body, l.top + 1, |stack| + 2, loops + [l]);
    var front := CodeExpr(s.from, pc) + CodeExpr(s.to, mid);
    AtSplit(m.code, pc, front + [ForRange(s.slot, end)] + code, [Jump(l.top)]);
    AtSplit(m.code, pc, front + [ForRange(s.slot, end)], code);
    AtSplit(m.code, pc, front, [ForRange(s.slot, end)]);
    AtSplit(m.code, pc, CodeExpr(s.from, pc), CodeExpr(s.to, mid));
    ReadyLess(m, loops, stack, DepthStmt(s), DepthStmt(s), bound);
    n := ExprRuns(m, s.from, pc, stack, env, bound);
    var (v1, env1) := Eval(m.w, s.from, env);
    if v1.Fail? {
      FailDoes(m, c, n, (v1, env1), mid, fuel, end, loops, stack, bound);
      return;
    }
    AfterVal((v1, env1), mid, stack);
    var stack1 := stack + [V(v1.value)];
    RoomyPlain(stack, [V(v1.value)], bound);
    var k := ExprRuns(m, s.to, mid, stack1, env1, bound);
    var (v2, env2) := Eval(m.w, s.to, env1);
    RunsOn(m, c, n, Running(mid, stack1, env1), k, After((v2, env2), l.top, stack1), bound);
    n := n + k;
    if v2.Fail? {
      FailThrough(m, c, n, (v2, env2), l.top, stack, V(v1.value), l.top, bound);
      FailDoes(m, c, n, (v2, env2), l.top, fuel, end, loops, stack, bound);
      return;
    }
    AfterVal((v2, env2), l.top, stack1);
    k := BoundedRuns(m, s, v1.value, v2.value, pc, loops, stack, env2, fuel, bound);
    DoesAfter(m, c, n, Running(l.top, stack1 + [V(v2.value)], env2), k, RangeOf(m.w, s, v1.value, v2.value, env2, fuel),
      fuel, fuel,
              end, loops, stack, bound);
    n := n + k;
  }

  lemma BoundsAre(from: Value, to: Value)
    ensures from.IntV? && to.IntV? ==> Bounds(true, from.num, to.num) == [V(from)] + [V(to)]
    ensures from.ObjV? && to.ObjV? ==> Bounds(false, from.obj, to.obj) == [V(from)] + [V(to)]
  {
  }

  lemma RangeOfParts(w: World, s: Stmt, from: Value, to: Value, env: Env, fuel: nat)
    requires s.RangeS?
    ensures from.IntV? && to.IntV?
        ==> RangeOf(w, s, from, to, env, fuel) == ExecRange(w, s, true, from.num, to.num, env, fuel)
    ensures from.ObjV? && to.ObjV?
        ==> RangeOf(w, s, from, to, env, fuel) == ExecRange(w, s, false, from.obj, to.obj, env, fuel)
    ensures !(from.IntV? && to.IntV?) && !(from.ObjV? && to.ObjV?) ==>
              RangeOf(w, s, from, to, env, fuel) == (if w.debug then Raised(E_TYPE) else Normal, env)
  {
  }

  lemma {:induction false} BoundedRuns(m: Machine, s: Stmt, from: Value, to: Value, pc: nat, loops: seq<Loop>,
      stack: seq<Slot>, env: Env, fuel: nat, bound: nat) returns (n: nat)
    requires s.RangeS? && WellScopedStmt(s, Ids(loops)) && At(m.code, pc, CodeStmt(s, pc, |stack|, loops))
    requires Ready(m, loops, stack, DepthStmt(s), bound)
    ensures Does(m, Running(RangeLoop(s, pc, |stack|).top, stack + [V(from)] + [V(to)], env), n,
        RangeOf(m.w, s, from, to, env, fuel), fuel,
                 pc + SizeStmt(s), loops, stack, bound)
    decreases fuel, s, 0, MAXINT - MININT + 10
  {
    hide *;
    var l, end := RangeLoop(s, pc, |stack|), pc + SizeStmt(s);
    BoundsAre(from, to);
    RangeOfParts(m.w, s, from, to, env, fuel);
    assert stack + [V(from)] + [V(to)] == stack + ([V(from)] + [V(to)]);
    if from.IntV? && to.IntV? {
      n := CountedRuns(m, s, true, from.num, to.num, pc, loops, stack, env, fuel, bound);
    } else if from.ObjV? && to.ObjV? {
      n := CountedRuns(m, s, false, from.obj, to.obj, pc, loops, stack, env, fuel, bound);
    } else {
      RangeAt(m, s, pc, loops, stack, bound);
      StepBadRange(m, s.slot, end, from, to, l.top, stack, env, bound);
      n := 1;
      var c := Running(l.top, stack + [V(from)] + [V(to)], env);
      DoesNormal(m, c, n, env, fuel, end, loops, stack, bound);
      DoesRaise(m, c, n, E_TYPE, env, fuel, end, loops, stack, bound);
    }
  }

  lemma RangeAt(m: Machine, s: Stmt, pc: nat, loops: seq<Loop>, stack: seq<Slot>, bound: nat)
    requires s.RangeS? && WellScopedStmt(s, Ids(loops)) && At(m.code, pc, CodeStmt(s, pc, |stack|, loops))
    requires Ready(m, loops, stack, DepthStmt(s), bound)
    ensures var l, end := RangeLoop(s, pc, |stack|), pc + SizeStmt(s);
            && l.id == Some(s.slot) && l.topDepth == |stack| + 2 && l.bottom == end && l.bottomDepth == |stack|
              && end == l.top + 1 + SizeStmts(s.body) + 1
            && WellScoped(s.body, Ids(loops + [l]))
            && At(m.code, l.top, [ForRange(s.slot, end)])
            && At(m.code, l.top + 1, CodeStmts(s.body, l.top + 1, |stack| + 2, loops + [l]))
            && At(m.code, end - 1, [Jump(l.top)])
    ensures Roomy(stack, bound) && |stack| + 2 <= bound && LoopsBelow(loops, |stack|)
        && DepthStmt(s) >= 2 + DepthStmts(s.body)
  {
    hide *;
    var end := pc + SizeStmt(s);
    RangeParts(World(true, (o, a, b) => Val(a), (o, a) => Val(a)), s, pc, |stack|, loops, map[], 0);
    var l, mid := RangeLoop(s, pc, |stack|), pc + SizeExpr(s.from);
    var code := CodeStmts(s.body, l.top + 1, |stack| + 2, loops + [l]);
    var front := CodeExpr(s.from, pc) + CodeExpr(s.to, mid);
    AtSplit(m.code, pc, front + [ForRange(s.slot, end)] + code, [Jump(l.top)]);
    AtSplit(m.code, pc, front + [ForRange(s.slot, end)], code);
    AtSplit(m.code, pc, front, [ForRange(s.slot, end)]);
    ReadyLess(m, loops, stack, DepthStmt(s), DepthStmt(s), bound);
  }

  lemma {:induction false} CountedRuns(m: Machine, s: Stmt, isInt: bool, i: int, hi: Num, pc: nat, loops: seq<Loop>,
      stack: seq<Slot>, env: Env, fuel: nat, bound: nat) returns (n: nat)
    requires s.RangeS? && WellScopedStmt(s, Ids(loops)) && At(m.code, pc, CodeStmt(s, pc, |stack|, loops))
    requires Ready(m, loops, stack, DepthStmt(s), bound) && MININT <= i <= MAXINT + 1
    ensures Does(m, Running(RangeLoop(s, pc, |stack|).top, stack + Bounds(isInt, i, hi), env), n,
                 ExecRange(m.w, s, isInt, i, hi, env, fuel), fuel, pc + SizeStmt(s), loops, stack, bound)
    decreases fuel, s, 0, MAXINT + 1 - i
  {
    hide *;
    RangeAt(m, s, pc, loops, stack, bound);
    var l, end := RangeLoop(s, pc, |stack|), pc + SizeStmt(s);
    var c := Running(l.top, stack + Bounds(isInt, i, hi), env);
    ExecRangeParts(m.w, s, isInt, i, hi, env, fuel);
    StepForRange(m, s.slot, end, isInt, i, hi, l.top, stack, env, bound);
    if i > hi {
      n := 1;
      DoesNormal(m, c, n, env, fuel, end, loops, stack, bound);
    } else {
      var extra, env1 := Bounds(isInt, i + 1, hi), env[s.slot := Counter(isInt, i)];
      var c1, r := Running(l.top + 1, stack + extra, env1), Exec(m.w, s.body, env1, fuel);
      ReadyMore(m, loops, stack, extra, DepthStmt(s), DepthStmts(s.body), bound) by { assert Plain(extra[0])
        && Plain(extra[1]); PlainNotFinally(extra); }
      ReadyLoop(m, loops, l, stack + extra, DepthStmts(s.body), bound);
      var k := StmtsRun(m, s.body, l.top + 1, loops + [l], stack + extra, env1, fuel, bound);
      k := LoopBody(m, c1, k, r, fuel, end - 1, l, loops, stack, extra, bound);
      if Again(r.0, Some(s.slot)) {
        var c2 := Running(l.top, stack + extra, r.1);
        RunsOn(m, c, 1, c1, k, c2, bound);
        var j := CountedRuns(m, s, isInt, i + 1, hi, pc, loops, stack, r.1, fuel, bound);
        DoesAfter(m, c, 1 + k, c2, j, ExecRange(m.w, s, isInt, i + 1, hi, r.1, fuel), fuel, fuel, end, loops, stack,
          bound);
        n := 1 + k + j;
      } else {
        DoesAfter(m, c, 1, c1, k, Escape(r, Some(s.slot)), fuel, fuel, end, loops, stack, bound);
        n := 1 + k;
      }
    }
  }

  lemma PlainNotFinally(extra: seq<Slot>)
    requires forall i :: 0 <= i < |extra| ==> Plain(extra[i])
    ensures forall i :: 0 <= i < |extra| ==> !extra[i].FinM?
  {
  }

  // ---- TRY-FINALLY ----

  lemma FinallyParts(w: World, s: Stmt, pc: nat, d: nat, loops: seq<Loop>, env: Env, fuel: nat)
    requires s.TryFinallyS? && WellScopedStmt(s, Ids(loops))
    ensures WellScoped(s.body, Ids(loops)) && WellScoped(s.handler, Ids(loops))
    ensures var h := pc + 1 + SizeStmts(s.body) + 1;
            && CodeStmt(s, pc, d, loops) == [TryFinally(h)] + CodeStmts(s.body, pc + 1, d + 1, loops) + [EndFinally]
                                            + CodeStmts(s.handler, h, d + 2, loops) + [ContinueI]
            && pc + SizeStmt(s) == h + SizeStmts(s.handler) + 1
    ensures DepthStmt(s) >= 1 + DepthStmts(s.body) && DepthStmt(s) >= 2 + DepthStmts(s.handler)
    ensures var (o, env1) := Exec(w, s.body, env, fuel);
            ExecStmt(w, s, env, fuel)
            == if o == Timeout then (o, env1)
               else var (h, env2) := Exec(w, s.handler, env1, fuel); (if h == Normal then o else h, env2)
  {
  }

  lemma {:induction false} FinallyRuns(m: Machine, s: Stmt, pc: nat, loops: seq<Loop>, stack: seq<Slot>, env: Env,
      fuel: nat, bound: nat)
    returns (n: nat)
    requires s.TryFinallyS? && WellScopedStmt(s, Ids(loops)) && At(m.code, pc, CodeStmt(s, pc, |stack|, loops))
    requires Ready(m, loops, stack, DepthStmt(s), bound)
    ensures Does(m, Running(pc, stack, env), n, ExecStmt(m.w, s, env, fuel), fuel, pc + SizeStmt(s), loops, stack,
        bound)
    decreases fuel, s, 1, 0
  {
    hide *;
    FinallyParts(m.w, s, pc, |stack|, loops, env, fuel);
    var c, d, end, h := Running(pc, stack, env), |stack|, pc + SizeStmt(s), pc + 1 + SizeStmts(s.body) + 1;
    var body, handler := CodeStmts(s.body, pc + 1, d + 1, loops), CodeStmts(s.handler, h, d + 2, loops);
    AtSplit(m.code, pc, [TryFinally(h)] + body + [EndFinally] + handler, [ContinueI]);
    AtSplit(m.code, pc, [TryFinally(h)] + body + [EndFinally], handler);
    AtSplit(m.code, pc, [TryFinally(h)] + body, [EndFinally]);
    AtSplit(m.code, pc, [TryFinally(h)], body);
    ReadyLess(m, loops, stack, DepthStmt(s), DepthStmt(s), bound);
    StepTryFinally(m, h, pc, stack, env, bound);
    var stack1 := stack + [FinM(h)];
    var c1, r := Running(pc + 1, stack1, env), Exec(m.w, s.body, env, fuel);
    ReadyMore(m, loops, stack, [FinM(h)], DepthStmt(s), DepthStmts(s.body), bound);
    var k := StmtsRun(m, s.body, pc + 1, loops, stack1, env, fuel, bound);
    DoesAfter(m, c, 1, c1, k, r, fuel, fuel, h - 1, loops, stack1, bound);
    n := 1 + k;
    if r.0 == Timeout {
      DoesTimeout(m, c, n, r.1, fuel, h - 1, loops, stack1, r.1, fuel, end, loops, stack, bound);
    } else {
      var why, pay;
      n, why, pay := EnterFinally(m, c, n, r, fuel, h, loops, stack, bound);
      var c2 := Running(h, stack + [WhyS(why), PayS(pay)], r.1);
      ReadyLess(m, loops, stack, DepthStmt(s), 2 + DepthStmts(s.handler), bound);
      k := HandlerRuns(m, s, r.0, why, pay, h, loops, stack, r.1, fuel, bound);
      var (o, env2) := Exec(m.w, s.handler, r.1, fuel);
      DoesAfter(m, c, n, c2, k, (if o == Normal then r.0 else o, env2), fuel, fuel, end, loops, stack, bound);
      n := n + k;
    }
  }

  /** The reason and payload on the stack are those of the outcome of the body. */
  predicate Saved(o: Outcome, why: Why, pay: Pay, loops: seq<Loop>, stack: seq<Slot>) {
    if o == Normal then why == FallThru else Scoped(o, loops) && (why, pay) == WhyOf(o, loops, stack)
  }

  lemma EnterFinally(m: Machine, c: Config, n: nat, r: (Outcome, Env), fuel: nat, h: nat, loops: seq<Loop>,
      stack: seq<Slot>, bound: nat)
    returns (k: nat, why: Why, pay: Pay)
    requires h > 0 && Does(m, c, n, r, fuel, h - 1, loops, stack + [FinM(h)], bound) && r.0 != Timeout
    requires At(m.code, h - 1, [EndFinally]) && |stack| + 2 <= bound && LoopsBelow(loops, |stack|)
    ensures Saved(r.0, why, pay, loops, stack) && Runs(m, c, k, Running(h, stack + [WhyS(why), PayS(pay)], r.1), bound)
  {
    hide Runs, At, Step, Leave, Does, LoopsBelow, Scoped, WhyOf;
    if r.0 == Normal {
      DoesNormal(m, c, n, r.1, fuel, h - 1, loops, stack + [FinM(h)], bound);
      StepEndFinally(m, h, h - 1, stack, r.1, bound);
      why, pay := FallThru, PVal(IntV(0));
      RunsOn(m, c, n, Running(h - 1, stack + [FinM(h)], r.1), 1, Running(h, stack + [WhyS(why), PayS(pay)], r.1),
        bound);
      k := n + 1;
    } else {
      DoesLeave(m, c, n, r, fuel, h - 1, loops, stack + [FinM(h)], bound);
      LeaveFinally(r.0, loops, h, stack, r.1);
      var p := WhyOf(r.0, loops, stack);
      why, pay, k := p.0, p.1, n;
    }
  }

  /** EOP_CONTINUE takes up what the FINALLY body interrupted. */
  lemma SavedContinues(o: Outcome, why: Why, pay: Pay, loops: seq<Loop>, stack: seq<Slot>, env: Env)
    requires Saved(o, why, pay, loops, stack) && o != Normal
    ensures o != Timeout && why != FallThru && Scoped(o, loops)
        && Unwind(why, pay, stack, env) == Leave(o, loops, stack, env)
  {
    hide Unwind;
  }

  lemma {:induction false} HandlerRuns(m: Machine, s: Stmt, o: Outcome, why: Why, pay: Pay, h: nat, loops: seq<Loop>,
      stack: seq<Slot>, env: Env, fuel: nat, bound: nat) returns (n: nat)
    requires s.TryFinallyS? && WellScoped(s.handler, Ids(loops))
        && At(m.code, h, CodeStmts(s.handler, h, |stack| + 2, loops))
    requires At(m.code, h + SizeStmts(s.handler), [ContinueI]) && Saved(o, why, pay, loops, stack)
    requires Ready(m, loops, stack, 2 + DepthStmts(s.handler), bound)
    ensures var (o2, env2) := Exec(m.w, s.handler, env, fuel);
            Does(m, Running(h, stack + [WhyS(why), PayS(pay)], env), n, (if o2 == Normal then o else o2, env2), fuel,
                 h + SizeStmts(s.handler) + 1, loops, stack, bound)
    decreases fuel, s, 0, 0
  {
    hide *;
    var extra, mid := [WhyS(why), PayS(pay)], h + SizeStmts(s.handler);
    var c, r := Running(h, stack + extra, env), Exec(m.w, s.handler, env, fuel);
    ReadyLess(m, loops, stack, 2 + DepthStmts(s.handler), 2, bound);
    ReadyMore(m, loops, stack, extra, 2 + DepthStmts(s.handler), DepthStmts(s.handler), bound);
    n := StmtsRun(m, s.handler, h, loops, stack + extra, env, fuel, bound);
    if r.0 == Normal {
      DoesNormal(m, c, n, r.1, fuel, mid, loops, stack + extra, bound);
      StepContinue(m, why, pay, mid, stack, r.1, bound);
      var c1 := if why == FallThru then Running(mid + 1, stack, r.1) else Unwind(why, pay, stack, r.1);
      RunsOn(m, c, n, Running(mid, stack + extra, r.1), 1, c1, bound);
      n := n + 1;
      if o == Normal {
        SavedNormal(o, why, pay, loops, stack);
        DoesNormal(m, c, n, r.1, fuel, mid + 1, loops, stack, bound);
      } else {
        SavedContinues(o, why, pay, loops, stack, r.1);
        DoesLeave(m, c, n, (o, r.1), fuel, mid + 1, loops, stack, bound);
      }
    } else {
      DoesAbove(m, c, n, r, fuel, mid, mid + 1, loops, stack, extra, bound) by { WhyPlain(why, pay); }
    }
  }

  lemma SavedNormal(o: Outcome, why: Why, pay: Pay, loops: seq<Loop>, stack: seq<Slot>)
    requires Saved(o, why, pay, loops, stack) && o == Normal
    ensures why == FallThru
  {
  }

  lemma WhyPlain(why: Why, pay: Pay)
    ensures forall i :: 0 <= i < 2 ==> Plain([WhyS(why), PayS(pay)][i])
  {
  }

  /** Leaving from above plain entries is leaving from below them. */
  lemma DoesAbove(m: Machine, c: Config, n: nat, r: (Outcome, Env), fuel: nat, pc: nat, pc': nat, loops: seq<Loop>,
      stack: seq<Slot>, extra: seq<Slot>, bound: nat)
    requires Does(m, c, n, r, fuel, pc, loops, stack + extra, bound) && r.0 != Normal && LoopsBelow(loops, |stack|)
    requires forall i :: 0 <= i < |extra| ==> Plain(extra[i])
    ensures Does(m, c, n, r, fuel, pc', loops, stack, bound)
  {
    hide Runs, LoopsBelow, Leave, Does, Scoped;
    if r.0 == Timeout {
      DoesTimeout(m, c, n, r.1, fuel, pc, loops, stack + extra, r.1, fuel, pc', loops, stack, bound);
    } else {
      DoesLeave(m, c, n, r, fuel, pc, loops, stack + extra, bound);
      LeavePlains(r.0, loops, stack, extra, r.1);
      DoesLeave(m, c, n, r, fuel, pc', loops, stack, bound);
    }
  }

  // ---- TRY-EXCEPT ----

  /** What the code of all handlers' codes leaves on the stack: codes and address of each handler. */
  function Pairs(x: Excepts, cs: seq<Value>, h: nat): (p: seq<Slot>)
    requires |cs| == CountExcepts(x)
    ensures |p| == 2 * CountExcepts(x) && forall i :: 0 <= i < |p| ==> Plain(p[i])
  {
    match x
    case XNil => []
    case XCons(slot, _, body, rest) =>
      [V(cs[0]), L(h)] + Pairs(rest, cs[1..], h + SizeHandler(slot, SizeStmts(body), rest.XNil?))
  }

  lemma {:induction false} PairsAre(x: Excepts, cs: seq<Value>, h: nat)
    requires |cs| == CountExcepts(x)
    ensures ArePairs(Pairs(x, cs, h))
    decreases x
  {
    if x.XCons? {
      var h' := h + SizeHandler(x.slot, SizeStmts(x.body), x.rest.XNil?);
      PairsAre(x.rest, cs[1..], h');
      var rest := Pairs(x.rest, cs[1..], h');
      var all := [V(cs[0]), L(h)] + rest;
      forall i | 0 <= i < |all| ensures if i % 2 == 0 then all[i].V? else all[i].L? {
        if i >= 2 {
          assert all[i] == rest[i - 2] && (i - 2) % 2 == i % 2;
        }
      }
    }
  }

  lemma AllPairs(stack: seq<Slot>, pairs: seq<Slot>, n: nat)
    requires |pairs| == 2 * n && ArePairs(pairs)
    ensures PairsBelow(stack + pairs, n)
  {
    assert (stack + pairs)[|stack|..] == pairs;
  }

  /** Where the first handler that takes the code starts. */
  function HandlerPc(x: Excepts, cs: seq<Value>, code: Value, h: nat): Option<nat>
    requires |cs| == CountExcepts(x)
  {
    match x
    case XNil => None
    case XCons(slot, _, body, rest) =>
      if Matches(cs[0], code) then Some(h)
      else HandlerPc(rest, cs[1..], code, h + SizeHandler(slot, SizeStmts(body), rest.XNil?))
  }

  lemma {:induction false} FirstMatchPairs(x: Excepts, cs: seq<Value>, code: Value, h: nat)
    requires |cs| == CountExcepts(x)
    ensures var p, at := Pairs(x, cs, h), HandlerPc(x, cs, code, h);
            |p| % 2 == 0 &&
            var found := FirstMatch(p, code);
            found.Some? == at.Some? && (found.Some? ==> p[found.value + 1] == L(at.value))
  {
    hide SizeStmts, SizeHandler, FirstMatch;
    FirstMatchIs(Pairs(x, cs, h), code);
    match x
    case XNil =>
    case XCons(slot, _, body, rest) =>
      var h' := h + SizeHandler(slot, SizeStmts(body), rest.XNil?);
      assert Pairs(x, cs, h)[2..] == Pairs(rest, cs[1..], h');
      FirstMatchPairs(rest, cs[1..], code, h');
  }

  lemma {:induction false} FirstMatchIs(pairs: seq<Slot>, code: Value)
    requires |pairs| % 2 == 0
    ensures pairs == [] ==> FirstMatch(pairs, code) == None
    ensures pairs != [] ==>
              var r := FirstMatch(pairs[2..], code);
              FirstMatch(pairs, code) == if SlotMatches(pairs[0], code) then Some(0) else if r.Some?
                then Some(r.value + 2) else None
  {
  }

  /** Raising inside the protected body. */
  lemma RaiseInExcept(code: Value, x: Excepts, cs: seq<Value>, h: nat, stack: seq<Slot>, env: Env)
    requires |cs| == CountExcepts(x)
    ensures var at := HandlerPc(x, cs, code, h);
            RaiseError(code, stack + Pairs(x, cs, h) + [CatchM(CountExcepts(x))], env)
            == if at.Some? then Running(at.value, stack + [V(Tuple(code))], env) else RaiseError(code, stack, env)
  {
    hide HandlerPc, Pairs, FirstMatch;
    var p, n, at := Pairs(x, cs, h), CountExcepts(x), HandlerPc(x, cs, code, h);
    var full := stack + p + [CatchM(n)];
    var rest := full[..|full| - 1];
    FirstMatchPairs(x, cs, code, h);
    assert rest == stack + p;
    assert rest[|stack|..] == p && rest[..|stack|] == stack;
    assert Handled(full, code) == (at.Some? || Handled(stack, code));
    if Handled(full, code) {
      assert RaiseError(code, full, env) == Unwind(Raise, PVal(Tuple(code)), full, env);
      if at.None? {
        assert Unwind(Raise, PVal(Tuple(code)), full, env) == Unwind(Raise, PVal(Tuple(code)), stack, env);
      }
    } else {
      UncaughtPlains(stack, p, env);
      assert RaiseError(code, full, env) == Unwind(Uncaught, PVal(IntV(0)), rest, env);
    }
  }

  lemma {:induction false} UncaughtPlains(stack: seq<Slot>, extra: seq<Slot>, env: Env)
    requires forall i :: 0 <= i < |extra| ==> Plain(extra[i])
    ensures Unwind(Uncaught, PVal(IntV(0)), stack + extra, env) == Unwind(Uncaught, PVal(IntV(0)), stack, env)
    decreases |extra|
  {
    if extra == [] {
      assert stack + extra == stack;
    } else {
      var front := extra[..|extra| - 1];
      assert (stack + extra)[..|stack + extra| - 1] == stack + front;
      UncaughtPlains(stack, front, env);
    }
  }

  lemma AllCodesParts(w: World, x: Excepts, pc: nat, h: nat, env: Env)
    requires x.XCons?
    ensures var h' := h + SizeHandler(x.slot, SizeStmts(x.body), x.rest.XNil?);
            CodeAllCodes(x, pc, h) == CodeCodes(x.codes, pc) + [PushLabel(h)]
              + CodeAllCodes(x.rest, pc + SizeCodes(x.codes) + 1, h')
    ensures SizeAllCodes(x) == SizeCodes(x.codes) + 1 + SizeAllCodes(x.rest)
    ensures DepthAllCodes(x) >= DepthCodes(x.codes) && DepthAllCodes(x) >= 2 + DepthAllCodes(x.rest)
    ensures var (c, env1) := EvalCodes(w, x.codes, env);
            EvalAllCodes(w, x, env)
            == if c.Fail? then (c, [], env1)
               else var (r, cs, env2) := EvalAllCodes(w, x.rest, env1); (r, [c.value] + cs, env2)
  {
  }

  /** Where the machine is once all codes have been evaluated. */
  function AfterCodes(x: Excepts, r: (Result, seq<Value>, Env), pc: nat, h: nat, stack: seq<Slot>): Config
    requires r.0.Val? ==> |r.1| == CountExcepts(x)
  {
    match r.0
    case Val(_) => Running(pc, stack + Pairs(x, r.1, h), r.2)
    case Fail(c) => RaiseError(c, stack, r.2)
  }

  lemma {:induction false} AllCodesRun(m: Machine, x: Excepts, pc: nat, h: nat, stack: seq<Slot>, env: Env, bound: nat)
      returns (n: nat)
    requires !m.fused && At(m.code, pc, CodeAllCodes(x, pc, h)) && Roomy(stack, bound)
        && |stack| + DepthAllCodes(x) <= bound
    ensures Runs(m, Running(pc, stack, env), n,
        AfterCodes(x, EvalAllCodes(m.w, x, env), pc + SizeAllCodes(x), h, stack), bound)
    decreases x
  {
    hide Runs, At, Roomy, Step, After, Eval, RaiseError, CodeAllCodes, EvalCodes, CodeCodes, DepthCodes, SizeCodes,
        SizeStmts, DepthStmts;
    var c := Running(pc, stack, env);
    match x
    case XNil =>
      assert stack + [] == stack;
      RunsNowhere(m, c, bound);
      n := 0;
    case XCons(slot, codes, body, rest) =>
      AllCodesParts(m.w, x, pc, h, env);
      var mid, h' := pc + SizeCodes(codes), h + SizeHandler(slot, SizeStmts(body), rest.XNil?);
      AtSplit(m.code, pc, CodeCodes(codes, pc) + [PushLabel(h)], CodeAllCodes(rest, mid + 1, h'));
      AtSplit(m.code, pc, CodeCodes(codes, pc), [PushLabel(h)]);
      n := CodesRun(m, codes, pc, stack, env, bound);
      var (v, env1) := EvalCodes(m.w, codes, env);
      if v.Fail? {
        AfterFail((v, env1), mid, mid, stack);
      } else {
        AfterVal((v, env1), mid, stack);
        StepPushLabel(m, h, mid, stack + [V(v.value)], env1, bound);
        var extra := [V(v.value), L(h)];
        assert stack + [V(v.value)] + [L(h)] == stack + extra;
        RunsOn(m, c, n, Running(mid, stack + [V(v.value)], env1), 1, Running(mid + 1, stack + extra, env1), bound);
        RoomyPlain(stack, extra, bound);
        var k := AllCodesRun(m, rest, mid + 1, h', stack + extra, env1, bound);
        var q := EvalAllCodes(m.w, rest, env1);
        RunsOn(m, c, n + 1, Running(mid + 1, stack + extra, env1), k,
          AfterCodes(rest, q, pc + SizeAllCodes(x), h', stack + extra), bound);
        n := n + 1 + k;
        AfterMoreCodes(x, v.value, q, pc + SizeAllCodes(x), h, stack);
      }
  }

  lemma AfterMoreCodes(x: Excepts, c: Value, q: (Result, seq<Value>, Env), pc: nat, h: nat, stack: seq<Slot>)
    requires x.XCons? && (q.0.Val? ==> |q.1| == CountExcepts(x.rest))
    ensures var h' := h + SizeHandler(x.slot, SizeStmts(x.body), x.rest.XNil?);
            AfterCodes(x.rest, q, pc, h', stack + [V(c), L(h)]) == AfterCodes(x, (q.0, [c] + q.1, q.2), pc, h, stack)
  {
    var h' := h + SizeHandler(x.slot, SizeStmts(x.body), x.rest.XNil?);
    if q.0.Val? {
      assert ([c] + q.1)[1..] == q.1;
      assert stack + [V(c), L(h)] + Pairs(x.rest, q.1, h') == stack + ([V(c), L(h)] + Pairs(x.rest, q.1, h'));
    } else {
      RaisePlain(q.0.code, stack + [V(c)], L(h), q.2);
      RaisePlain(q.0.code, stack, V(c), q.2);
      assert stack + [V(c), L(h)] == stack + [V(c)] + [L(h)];
    }
  }

  lemma {:induction false} ExceptSCode(s: Stmt, pc: nat, d: nat, loops: seq<Loop>)
    requires s.TryExceptS? && WellScopedStmt(s, Ids(loops))
    ensures WellScoped(s.body, Ids(loops)) && WellScopedExcepts(s.excepts, Ids(loops))
    ensures var n, try, end := CountExcepts(s.excepts), pc + SizeAllCodes(s.excepts) + 1, pc + SizeStmt(s);
            var h := try + SizeStmts(s.body) + 1;
            && CodeStmt(s, pc, d, loops)
               == CodeAllCodes(s.excepts, pc, h) + [TryExcept(n)] + CodeStmts(s.body, try, d + 2 * n + 1, loops)
                  + [EndExcept(end)] + CodeHandlers(s.excepts, h, d, loops, end)
            && end == h + SizeHandlers(s.excepts)
    ensures DepthStmt(s) >= DepthAllCodes(s.excepts)
        && DepthStmt(s) >= 2 * CountExcepts(s.excepts) + 1 + DepthStmts(s.body)
    ensures DepthStmt(s) >= DepthHandlers(s.excepts)
  {
    hide CodeAllCodes, CodeHandlers, CodeStmts, SizeAllCodes, SizeStmts, SizeHandlers, DepthAllCodes, DepthStmts,
        DepthHandlers, DepthStmt;
    ExceptSDepth(s);
  }

  lemma {:induction false} ExceptSDepth(s: Stmt)
    requires s.TryExceptS?
    ensures DepthStmt(s) >= DepthAllCodes(s.excepts)
        && DepthStmt(s) >= 2 * CountExcepts(s.excepts) + 1 + DepthStmts(s.body)
    ensures DepthStmt(s) >= DepthHandlers(s.excepts)
  {
    hide DepthAllCodes, DepthStmts, DepthHandlers, CountExcepts;
  }

  lemma ExceptSParts(w: World, s: Stmt, env: Env, fuel: nat)
    requires s.TryExceptS?
    ensures var (r, cs, env1) := EvalAllCodes(w, s.excepts, env);
            ExecStmt(w, s, env, fuel)
            == if r.Fail? then (Raised(r.code), env1)
               else
                 var (o, env2) := Exec(w, s.body, env1, fuel);
                 if o.Raised? then ExecHandler(w, s.excepts, cs, o.code, env2, fuel) else (o, env2)
  {
  }

  lemma AfterCodesParts(x: Excepts, r: (Result, seq<Value>, Env), pc: nat, h: nat, stack: seq<Slot>)
    requires r.0.Val? ==> |r.1| == CountExcepts(x)
    ensures r.0.Val? ==> AfterCodes(x, r, pc, h, stack) == Running(pc, stack + Pairs(x, r.1, h), r.2)
    ensures r.0.Fail? ==> AfterCodes(x, r, pc, h, stack) == RaiseError(r.0.code, stack, r.2)
  {
  }

  lemma {:induction false} ExceptSRuns(m: Machine, s: Stmt, pc: nat, loops: seq<Loop>, stack: seq<Slot>, env: Env,
      fuel: nat, bound: nat)
    returns (n: nat)
    requires s.TryExceptS? && WellScopedStmt(s, Ids(loops)) && At(m.code, pc, CodeStmt(s, pc, |stack|, loops))
    requires Ready(m, loops, stack, DepthStmt(s), bound)
    ensures Does(m, Running(pc, stack, env), n, ExecStmt(m.w, s, env, fuel), fuel, pc + SizeStmt(s), loops, stack,
        bound)
    decreases fuel, s, 1, 0
  {
    hide *;
    ExceptSCode(s, pc, |stack|, loops);
    ExceptSParts(m.w, s, env, fuel);
    var c, d, end, x := Running(pc, stack, env), |stack|, pc + SizeStmt(s), s.excepts;
    var count, open := CountExcepts(x), pc + SizeAllCodes(x);
    var h := open + 1 + SizeStmts(s.body) + 1;
    var body := CodeStmts(s.body, open + 1, d + 2 * count + 1, loops);
    var front := CodeAllCodes(x, pc, h) + [TryExcept(count)];
    AtSplit(m.code, pc, front + body + [EndExcept(end)], CodeHandlers(x, h, d, loops, end));
    AtSplit(m.code, pc, front + body, [EndExcept(end)]);
    AtSplit(m.code, pc, front, body);
    AtSplit(m.code, pc, CodeAllCodes(x, pc, h), [TryExcept(count)]);
    ReadyLess(m, loops, stack, DepthStmt(s), DepthStmt(s), bound);
    n := AllCodesRun(m, x, pc, h, stack, env, bound);
    var q := EvalAllCodes(m.w, x, env);
    AfterCodesParts(x, q, open, h, stack);
    if q.0.Fail? {
      DoesRaise(m, c, n, q.0.code, q.2, fuel, end, loops, stack, bound);
    } else {
      var pairs := Pairs(x, q.1, h);
      var stack1 := stack + pairs + [CatchM(count)];
      PairsAre(x, q.1, h);
      assert (stack + pairs)[|stack + pairs| - 2 * count..] == pairs;
      StepCatch(m, TryExcept(count), count, open, stack + pairs, q.2, bound) by { AllPairs(stack, pairs, count); }
      RunsOn(m, c, n, Running(open, stack + pairs, q.2), 1, Running(open + 1, stack1, q.2), bound);
      assert stack1 == stack + (pairs + [CatchM(count)]);
      PlainNotFinally(pairs);
      ReadyMore(m, loops, stack, pairs + [CatchM(count)], DepthStmt(s), DepthStmts(s.body), bound);
      var k := StmtsRun(m, s.body, open + 1, loops, stack1, q.2, fuel, bound);
      var r := Exec(m.w, s.body, q.2, fuel);
      DoesAfter(m, c, n + 1, Running(open + 1, stack1, q.2), k, r, fuel, fuel, h - 1, loops, stack1, bound);
      n := n + 1 + k;
      if r.0.Raised? {
        DoesRaise(m, c, n, r.0.code, r.1, fuel, h - 1, loops, stack1, bound);
        RaiseInExcept(r.0.code, x, q.1, h, stack, r.1);
        var at, r2 := HandlerPc(x, q.1, r.0.code, h), ExecHandler(m.w, x, q.1, r.0.code, r.1, fuel);
        if at.Some? {
          ReadyLess(m, loops, stack, DepthStmt(s), DepthHandlers(x), bound);
          k := HandlersRun(m, x, q.1, r.0.code, h, loops, stack, r.1, fuel, end, bound);
          DoesAfter(m, c, n, Running(at.value, stack + [V(Tuple(r.0.code))], r.1), k, r2, fuel, fuel, end, loops, stack,
            bound);
          n := n + k;
        } else {
          Unhandled(m.w, x, q.1, r.0.code, h, r.1, fuel);
          DoesRaise(m, c, n, r.0.code, r.1, fuel, end, loops, stack, bound);
        }
      } else {
        n := BodyEnds(m, c, n, r, fuel, h - 1, end, pairs, count, loops, stack, bound);
      }
    }
  }

  /** The protected body ended without an error. */
  lemma BodyEnds(m: Machine, c: Config, n: nat, r: (Outcome, Env), fuel: nat, pc: nat, end: nat, pairs: seq<Slot>,
      count: nat, loops: seq<Loop>, stack: seq<Slot>, bound: nat) returns (k: nat)
    requires Does(m, c, n, r, fuel, pc, loops, stack + pairs + [CatchM(count)], bound) && !r.0.Raised?
        && LoopsBelow(loops, |stack|)
    requires |pairs| == 2 * count && |stack| + 2 * count + 1 <= bound
        && (forall i :: 0 <= i < |pairs| ==> Plain(pairs[i]))
    requires At(m.code, pc, [EndExcept(end)])
    ensures Does(m, c, k, r, fuel, end, loops, stack, bound)
  {
    hide Runs, At, Step, Does, Leave, Scoped;
    var stack1 := stack + pairs + [CatchM(count)];
    if r.0 == Normal {
      DoesNormal(m, c, n, r.1, fuel, pc, loops, stack1, bound);
      StepEndExcept(m, end, count, pairs, pc, stack, r.1, bound);
      RunsOn(m, c, n, Running(pc, stack1, r.1), 1, Running(end, stack, r.1), bound);
      k := n + 1;
      DoesNormal(m, c, k, r.1, fuel, end, loops, stack, bound);
    } else if r.0 == Timeout {
      DoesTimeout(m, c, n, r.1, fuel, pc, loops, stack1, r.1, fuel, end, loops, stack, bound);
      k := n;
    } else {
      DoesLeave(m, c, n, r, fuel, pc, loops, stack1, bound);
      LeavePlain(r.0, loops, stack + pairs, CatchM(count), r.1);
      LeavePlains(r.0, loops, stack, pairs, r.1);
      DoesLeave(m, c, n, r, fuel, end, loops, stack, bound);
      k := n;
    }
  }

  lemma {:induction false} Unhandled(w: World, x: Excepts, cs: seq<Value>, code: Value, h: nat, env: Env, fuel: nat)
    requires |cs| == CountExcepts(x) && HandlerPc(x, cs, code, h).None?
    ensures ExecHandler(w, x, cs, code, env, fuel) == (Raised(code), env)
  {
    if x.XCons? {
      Unhandled(w, x.rest, cs[1..], code, h + SizeHandler(x.slot, SizeStmts(x.body), x.rest.XNil?), env, fuel);
    }
  }

  lemma HandlersParts(w: World, x: Excepts, cs: seq<Value>, code: Value, pc: nat, d: nat, loops: seq<Loop>, done: nat,
      env: Env, fuel: nat)
    requires x.XCons? && WellScopedExcepts(x, Ids(loops)) && |cs| == CountExcepts(x)
    ensures WellScoped(x.body, Ids(loops)) && WellScopedExcepts(x.rest, Ids(loops)) && |cs| == 1 + CountExcepts(x.rest)
    ensures var store := if x.slot.Some? then [Put(x.slot.value)] else [];
            var next := pc + SizeHandler(x.slot, SizeStmts(x.body), x.rest.XNil?);
            && CodeHandlers(x, pc, d, loops, done)
               == store + [Pop] + CodeStmts(x.body, pc + |store| + 1, d, loops)
                 + (if x.rest.XNil? then [] else [Jump(done)])
                  + CodeHandlers(x.rest, next, d, loops, done)
            && next == pc + |store| + 1 + SizeStmts(x.body) + (if x.rest.XNil? then 0 else 1)
            && pc + SizeHandlers(x) == next + SizeHandlers(x.rest)
            && HandlerPc(x, cs, code, pc) == if Matches(cs[0], code) then Some(pc)
              else HandlerPc(x.rest, cs[1..], code, next)
    ensures DepthHandlers(x) >= 1 && DepthHandlers(x) >= DepthStmts(x.body) && DepthHandlers(x) >= DepthHandlers(x.rest)
    ensures ExecHandler(w, x, cs, code, env, fuel)
            == if Matches(cs[0], code)
              then Exec(w, x.body, if x.slot.Some? then env[x.slot.value := Tuple(code)] else env, fuel)
               else ExecHandler(w, x.rest, cs[1..], code, env, fuel)
    ensures x.rest.XNil? ==> SizeHandlers(x.rest) == 0
  {
    hide Ids, Exec, CodeStmts, Matches;
  }

  lemma NoHandlers(x: Excepts, cs: seq<Value>, code: Value, pc: nat)
    requires |cs| == CountExcepts(x) && HandlerPc(x, cs, code, pc).Some?
    ensures x.XCons?
  {
  }

  lemma {:induction false} HandlersRun(m: Machine, x: Excepts, cs: seq<Value>, code: Value, pc: nat, loops: seq<Loop>,
      stack: seq<Slot>, env: Env, fuel: nat, done: nat, bound: nat) returns (n: nat)
    requires |cs| == CountExcepts(x) && WellScopedExcepts(x, Ids(loops))
    requires At(m.code, pc, CodeHandlers(x, pc, |stack|, loops, done)) && done == pc + SizeHandlers(x)
    requires Ready(m, loops, stack, DepthHandlers(x), bound) && HandlerPc(x, cs, code, pc).Some?
    ensures Does(m, Running(HandlerPc(x, cs, code, pc).value, stack + [V(Tuple(code))], env), n,
                 ExecHandler(m.w, x, cs, code, env, fuel), fuel, done, loops, stack, bound)
    decreases fuel, x, 2, 0
  {
    hide *;
    NoHandlers(x, cs, code, pc);
    HandlersParts(m.w, x, cs, code, pc, |stack|, loops, done, env, fuel);
    var d, store, jump := |stack|, if x.slot.Some? then [Put(x.slot.value)] else [], if x.rest.XNil? then []
        else [Jump(done)];
    var next, at := pc + SizeHandler(x.slot, SizeStmts(x.body), x.rest.XNil?), pc + |store| + 1;
    var body := CodeStmts(x.body, at, d, loops);
    AtSplit(m.code, pc, store + [Pop] + body + jump, CodeHandlers(x.rest, next, d, loops, done));
    ReadyLess(m, loops, stack, DepthHandlers(x), DepthHandlers(x.rest), bound);
    if Matches(cs[0], code) {
      AtSplit(m.code, pc, store + [Pop] + body, jump);
      AtSplit(m.code, pc, store + [Pop], body);
      ReadyLess(m, loops, stack, DepthHandlers(x), 1, bound);
      ReadyLess(m, loops, stack, DepthHandlers(x), DepthStmts(x.body), bound);
      var env1 := if x.slot.Some? then env[x.slot.value := Tuple(code)] else env;
      var c, c1 := Running(pc, stack + [V(Tuple(code))], env), Running(at, stack, env1);
      StoreTuple(m, x.slot, Tuple(code), pc, stack, env, bound);
      var r := Exec(m.w, x.body, env1, fuel);
      n := StmtsRun(m, x.body, at, loops, stack, env1, fuel, bound);
      if !x.rest.XNil? {
        n := ThenJump(m, c1, n, r, fuel, next - 1, done, loops, stack, bound);
      }
      DoesAfter(m, c, |store| + 1, c1, n, r, fuel, fuel, done, loops, stack, bound);
      n := |store| + 1 + n;
    } else {
      n := HandlersRun(m, x.rest, cs[1..], code, next, loops, stack, env, fuel, done, bound);
    }
  }

  /** A handler starts by storing the tuple, if it is named, and popping it. */
  lemma StoreTuple(m: Machine, slot: Option<nat>, v: Value, pc: nat, stack: seq<Slot>, env: Env, bound: nat)
    requires var store := if slot.Some? then [Put(slot.value)] else []; At(m.code, pc, store + [Pop])
    requires !m.fused && |stack| < bound
    ensures var n := if slot.Some? then 2 else 1;
            Runs(m, Running(pc, stack + [V(v)], env), n,
              Running(pc + n, stack, if slot.Some? then env[slot.value := v] else env), bound)
  {
    hide Runs, At, Step;
    match slot
    case None =>
      assert [] + [Pop] == [Pop];
      StepPop(m, V(v), pc, stack, env, bound);
    case Some(i) =>
      AtSplit(m.code, pc, [Put(i)], [Pop]);
      StepPut(m, i, v, pc, stack, env, bound);
      StepPop(m, V(v), pc + 1, stack, env[i := v], bound);
      RunsOn(m, Running(pc, stack + [V(v)], env), 1, Running(pc + 1, stack + [V(v)], env[i := v]), 1,
             Running(pc + 2, stack, env[i := v]), bound);
  }
}
