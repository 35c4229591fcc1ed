/** Running the code of an expression: it leaves the expression's value on the stack or raises the
    expression's error, and the stack stays within the depth the generator recorded. */
module MooExprRuns {
  import opened Options
  import opened MooAst
  import opened MooSemantics
  import opened MooCode
  import opened MooMachine

  predicate At(code: seq<Instr>, pc: nat, part: seq<Instr>) {
    pc + |part| <= |code| && code[pc..pc + |part|] == part
  }

  lemma AtSplit(code: seq<Instr>, pc: nat, a: seq<Instr>, b: seq<Instr>)
    requires At(code, pc, a + b)
    ensures At(code, pc, a) && At(code, pc + |a|, b)
  {
    assert code[pc..pc + |a|] == (a + b)[..|a|];
    assert code[pc + |a|..pc + |a| + |b|] == (a + b)[|a|..];
  }

  lemma AtFour(code: seq<Instr>, pc: nat, a: seq<Instr>, b: seq<Instr>, c: seq<Instr>, d: seq<Instr>)
    requires At(code, pc, a + b + c + d)
    ensures At(code, pc, a) && At(code, pc + |a|, b) && At(code, pc + |a| + |b|, c) && At(code, pc + |a| + |b| + |c|, d)
  {
    hide At;
    AtSplit(code, pc, a + b + c, d);
    AtSplit(code, pc, a + b, c);
    AtSplit(code, pc, a, b);
  }

  lemma AtFive(code: seq<Instr>, pc: nat, a: seq<Instr>, b: seq<Instr>, c: seq<Instr>, d: seq<Instr>, e: seq<Instr>)
    requires At(code, pc, a + b + c + d + e)
    ensures At(code, pc, a) && At(code, pc + |a|, b) && At(code, pc + |a| + |b|, c) && At(code, pc + |a| + |b| + |c|, d)
    ensures At(code, pc + |a| + |b| + |c| + |d|, e)
  {
    hide At;
    AtSplit(code, pc, a + b + c + d, e);
    AtFour(code, pc, a, b, c, d);
  }

  lemma AtOne(code: seq<Instr>, pc: nat, i: Instr)
    requires At(code, pc, [i])
    ensures pc < |code| && code[pc] == i
  {
    assert code[pc..pc + 1][0] == code[pc];
  }

  /** A world for facts about code alone. */
  function Idle(): World {
    World(true, (o, a, b) => Val(a), (o, a) => Val(a))
  }

  predicate Fits(c: Config, bound: nat) {
    c.Running? ==> |c.stack| <= bound
  }

  /** n steps lead from c to d and the stack never holds more than bound entries on the way. */
  predicate Runs(m: Machine, c: Config, n: nat, d: Config, bound: nat)
    decreases n
  {
    Fits(c, bound) && if n == 0 then c == d else c.Running? && Runs(m, Step(m, c), n - 1, d, bound)
  }

  lemma {:induction false} RunsOn(m: Machine, c: Config, n: nat, d: Config, k: nat, e: Config, bound: nat)
    requires Runs(m, c, n, d, bound) && Runs(m, d, k, e, bound)
    ensures Runs(m, c, n + k, e, bound)
    decreases n
  {
    if n > 0 {
      RunsOn(m, Step(m, c), n - 1, d, k, e, bound);
    }
  }

  lemma OneStep(m: Machine, c: Config, bound: nat)
    requires c.Running? && Fits(c, bound) && Fits(Step(m, c), bound)
    ensures Runs(m, c, 1, Step(m, c), bound)
  {
  }

  lemma {:induction false} RunsFits(m: Machine, c: Config, n: nat, d: Config, bound: nat)
    requires Runs(m, c, n, d, bound)
    ensures Fits(c, bound) && Fits(d, bound)
    decreases n
  {
    if n > 0 {
      RunsFits(m, Step(m, c), n - 1, d, bound);
    }
  }

  /** There is room for what unwinding to a FINALLY marker puts in its place. */
  predicate Roomy(stack: seq<Slot>, bound: nat) {
    |stack| <= bound && forall i :: 0 <= i < |stack| && stack[i].FinM? ==> i + 2 <= bound
  }

  lemma {:induction false} UnwindFits(why: Why, pay: Pay, stack: seq<Slot>, env: Env, bound: nat)
    requires Roomy(stack, bound)
    ensures Fits(Unwind(why, pay, stack, env), bound)
    decreases |stack|
  {
    if (why == ExitW) == pay.PExit? {
      var goal := if why == ExitW then pay.depth else 0;
      if |stack| > goal {
        var top, rest := stack[|stack| - 1], stack[..|stack| - 1];
        if !top.FinM? {
          if why == Raise && top.CatchM? {
            if 2 * top.n <= |rest| && pay.v.ListV? && |pay.v.elems| > 0 {
              UnwindFits(why, pay, rest[..|rest| - 2 * top.n], env, bound);
            }
          } else {
            UnwindFits(why, pay, rest, env, bound);
          }
        }
      }
    }
  }

  lemma RaiseFits(code: Value, stack: seq<Slot>, env: Env, bound: nat)
    requires Roomy(stack, bound)
    ensures Fits(RaiseError(code, stack, env), bound)
  {
    UnwindFits(Raise, PVal(Tuple(code)), stack, env, bound);
    UnwindFits(Uncaught, PVal(IntV(0)), stack, env, bound);
  }

  predicate Plain(s: Slot) {
    !s.FinM? && !s.CatchM?
  }

  /** Raising above plain entries is raising below them. */
  lemma RaisePlain(code: Value, stack: seq<Slot>, s: Slot, env: Env)
    requires Plain(s)
    ensures RaiseError(code, stack + [s], env) == RaiseError(code, stack, env)
    ensures Handled(stack + [s], code) == Handled(stack, code)
  {
    assert (stack + [s])[..|stack|] == stack;
  }

  /** Raising where the handler of a CATCH is active: it is entered if it takes the code. */
  lemma RaiseInCatch(code: Value, codes: Value, h: nat, stack: seq<Slot>, env: Env)
    ensures RaiseError(code, stack + [V(codes), L(h), CatchM(1)], env)
            == if Matches(codes, code) then Running(h, stack + [V(Tuple(code))], env)
               else RaiseError(code, stack, env)
  {
    var full, pairs := stack + [V(codes), L(h), CatchM(1)], [V(codes), L(h)];
    var rest := full[..|full| - 1];
    assert rest == stack + pairs;
    assert rest[|stack|..] == pairs && rest[..|stack|] == stack;
    assert pairs[2..] == [];
    assert FirstMatch(pairs, code) == if Matches(codes, code) then Some(0) else None;
    assert full[|full| - 1] == CatchM(1);
    assert Handled(full, code) == (Matches(codes, code) || Handled(stack, code));
    if Handled(full, code) {
      UnwindCatch(code, codes, h, stack, env);
    } else {
      assert full[..|full| - 1] == rest;
      assert rest[..|rest| - 1] == stack + [V(codes)];
      assert (stack + [V(codes)])[..|stack|] == stack;
      assert Unwind(Uncaught, PVal(IntV(0)), rest, env) == Unwind(Uncaught, PVal(IntV(0)), stack + [V(codes)], env);
    }
  }

  lemma UnwindCatch(code: Value, codes: Value, h: nat, stack: seq<Slot>, env: Env)
    ensures Unwind(Raise, PVal(Tuple(code)), stack + [V(codes), L(h), CatchM(1)], env)
            == if Matches(codes, code) then Running(h, stack + [V(Tuple(code))], env)
               else Unwind(Raise, PVal(Tuple(code)), stack, env)
  {
    var full, pairs := stack + [V(codes), L(h), CatchM(1)], [V(codes), L(h)];
    var rest := full[..|full| - 1];
    assert rest == stack + pairs;
    assert rest[|stack|..] == pairs && rest[..|stack|] == stack;
    assert pairs[2..] == [];
    assert FirstMatch(pairs, code) == if Matches(codes, code) then Some(0) else None;
  }

  /** Where the machine is once an expression has been evaluated. */
  function After(r: (Result, Env), pc: nat, stack: seq<Slot>): Config {
    Deliver(r.0, pc, stack, r.1)
  }

  lemma AfterFits(r: (Result, Env), pc: nat, stack: seq<Slot>, bound: nat)
    requires Roomy(stack, bound) && |stack| < bound
    ensures Fits(After(r, pc, stack), bound)
  {
    if r.0.Fail? {
      RaiseFits(r.0.code, stack, r.1, bound);
    }
  }

  lemma RoomyPlain(stack: seq<Slot>, s: seq<Slot>, bound: nat)
    requires Roomy(stack, bound) && |stack| + |s| <= bound
    requires forall i :: 0 <= i < |s| ==> !s[i].FinM?
    ensures Roomy(stack + s, bound)
  {
  }

  /** The part ran up to an error: raising above s is raising below it. */
  lemma FailThrough(m: Machine, c: Config, n: nat, r: (Result, Env), pc: nat, stack: seq<Slot>, s: Slot, pc': nat,
      bound: nat)
    requires r.0.Fail? && !s.FinM? && !s.CatchM? && Runs(m, c, n, After(r, pc, stack + [s]), bound)
    ensures Runs(m, c, n, After(r, pc', stack), bound)
  {
    RaisePlain(r.0.code, stack, s, r.1);
  }

  // ---- one instruction each ----

  lemma StepLiteral(m: Machine, v: Value, pc: nat, stack: seq<Slot>, env: Env, bound: nat)
    requires !m.fused && At(m.code, pc, [Literal(v)]) && |stack| < bound
    ensures Runs(m, Running(pc, stack, env), 1, Running(pc + 1, stack + [V(v)], env), bound)
  {
    AtOne(m.code, pc, Literal(v));
    OneStep(m, Running(pc, stack, env), bound);
  }

  lemma StepNum(m: Machine, i: Num, pc: nat, stack: seq<Slot>, env: Env, bound: nat)
    requires At(m.code, pc, [NumI(i)]) && |stack| < bound
    ensures Runs(m, Running(pc, stack, env), 1, Running(pc + 1, stack + [V(IntV(i))], env), bound)
  {
    AtOne(m.code, pc, NumI(i));
    OneStep(m, Running(pc, stack, env), bound);
  }

  lemma StepPush(m: Machine, slot: nat, pc: nat, stack: seq<Slot>, env: Env, bound: nat)
    requires At(m.code, pc, [Push(slot)]) && Roomy(stack, bound) && |stack| < bound
    ensures Runs(m, Running(pc, stack, env), 1, After(Eval(m.w, Id(slot), env), pc + 1, stack), bound)
  {
    AtOne(m.code, pc, Push(slot));
    AfterFits(Eval(m.w, Id(slot), env), pc + 1, stack, bound);
    OneStep(m, Running(pc, stack, env), bound);
  }

  lemma StepPut(m: Machine, slot: nat, v: Value, pc: nat, stack: seq<Slot>, env: Env, bound: nat)
    requires !m.fused && At(m.code, pc, [Put(slot)]) && |stack| < bound
    ensures Runs(m, Running(pc, stack + [V(v)], env), 1, Running(pc + 1, stack + [V(v)], env[slot := v]), bound)
  {
    AtOne(m.code, pc, Put(slot));
    OneStep(m, Running(pc, stack + [V(v)], env), bound);
  }

  lemma StepPop(m: Machine, s: Slot, pc: nat, stack: seq<Slot>, env: Env, bound: nat)
    requires At(m.code, pc, [Pop]) && |stack| < bound
    ensures Runs(m, Running(pc, stack + [s], env), 1, Running(pc + 1, stack, env), bound)
  {
    AtOne(m.code, pc, Pop);
    assert (stack + [s])[..|stack|] == stack;
    OneStep(m, Running(pc, stack + [s], env), bound);
  }

  lemma StepJump(m: Machine, lab: nat, pc: nat, stack: seq<Slot>, env: Env, bound: nat)
    requires At(m.code, pc, [Jump(lab)]) && |stack| <= bound
    ensures Runs(m, Running(pc, stack, env), 1, Running(lab, stack, env), bound)
  {
    AtOne(m.code, pc, Jump(lab));
    OneStep(m, Running(pc, stack, env), bound);
  }

  lemma StepBin(m: Machine, op: BinOp, l: Value, r: Value, pc: nat, stack: seq<Slot>, env: Env, bound: nat)
    requires At(m.code, pc, [BinI(op)]) && Roomy(stack, bound) && |stack| + 2 <= bound
    ensures Runs(m, Running(pc, stack + [V(l)] + [V(r)], env), 1, After((Apply(m.w, op, l, r), env), pc + 1, stack),
        bound)
  {
    var c := Running(pc, stack + [V(l)] + [V(r)], env);
    AtOne(m.code, pc, BinI(op));
    assert c.stack[..|stack|] == stack;
    AfterFits((Apply(m.w, op, l, r), env), pc + 1, stack, bound);
    OneStep(m, c, bound);
  }

  lemma StepUn(m: Machine, op: UnOp, v: Value, pc: nat, stack: seq<Slot>, env: Env, bound: nat)
    requires At(m.code, pc, [UnI(op)]) && Roomy(stack, bound) && |stack| < bound
    ensures Runs(m, Running(pc, stack + [V(v)], env), 1, After((ApplyUn(m.w, op, v), env), pc + 1, stack), bound)
  {
    var c := Running(pc, stack + [V(v)], env);
    AtOne(m.code, pc, UnI(op));
    assert c.stack[..|stack|] == stack;
    AfterFits((ApplyUn(m.w, op, v), env), pc + 1, stack, bound);
    OneStep(m, c, bound);
  }

  /** AND and OR: the value stays if it settles the matter. */
  lemma StepShort(m: Machine, and: bool, v: Value, lab: nat, pc: nat, stack: seq<Slot>, env: Env, bound: nat)
    requires At(m.code, pc, [if and then AndI(lab) else OrI(lab)]) && |stack| < bound
    ensures Runs(m, Running(pc, stack + [V(v)], env), 1,
                 if Truthy(v) == and then Running(pc + 1, stack, env) else Running(lab, stack + [V(v)], env), bound)
  {
    var c := Running(pc, stack + [V(v)], env);
    AtOne(m.code, pc, if and then AndI(lab) else OrI(lab));
    assert c.stack[..|stack|] == stack;
    OneStep(m, c, bound);
  }

  predicate Tests(i: Instr, lab: nat) {
    i == IfQues(lab) || i == IfI(lab) || i == Eif(lab) || i == WhileI(lab)
  }

  lemma StepTest(m: Machine, i: Instr, lab: nat, v: Value, pc: nat, stack: seq<Slot>, env: Env, bound: nat)
    requires At(m.code, pc, [i]) && Tests(i, lab) && |stack| < bound
    ensures Runs(m, Running(pc, stack + [V(v)], env), 1, Running(if Truthy(v) then pc + 1 else lab, stack, env), bound)
  {
    var c := Running(pc, stack + [V(v)], env);
    AtOne(m.code, pc, i);
    assert c.stack[..|stack|] == stack;
    OneStep(m, c, bound);
  }

  lemma StepEmpty(m: Machine, pc: nat, stack: seq<Slot>, env: Env, bound: nat)
    requires At(m.code, pc, [MakeEmptyList]) && |stack| < bound
    ensures Runs(m, Running(pc, stack, env), 1, Running(pc + 1, stack + [V(ListV([]))], env), bound)
  {
    AtOne(m.code, pc, MakeEmptyList);
    OneStep(m, Running(pc, stack, env), bound);
  }

  lemma StepFirst(m: Machine, splice: bool, v: Value, pc: nat, stack: seq<Slot>, env: Env, bound: nat)
    requires At(m.code, pc, [if splice then CheckSplice else MakeSingleton]) && Roomy(stack, bound) && |stack| < bound
    ensures Runs(m, Running(pc, stack + [V(v)], env), 1, After((FirstArg(m.w, splice, v), env), pc + 1, stack), bound)
  {
    var c := Running(pc, stack + [V(v)], env);
    AtOne(m.code, pc, if splice then CheckSplice else MakeSingleton);
    assert c.stack[..|stack|] == stack;
    AfterFits((FirstArg(m.w, splice, v), env), pc + 1, stack, bound);
    OneStep(m, c, bound);
  }

  lemma StepNext(m: Machine, splice: bool, l: Value, v: Value, pc: nat, stack: seq<Slot>, env: Env, bound: nat)
    requires At(m.code, pc, [if splice then AppendI else AddTail]) && Roomy(stack, bound) && |stack| + 2 <= bound
    ensures Runs(m, Running(pc, stack + [V(l)] + [V(v)], env), 1,
        After((NextArg(m.w, splice, l, v), env), pc + 1, stack), bound)
  {
    var c := Running(pc, stack + [V(l)] + [V(v)], env);
    AtOne(m.code, pc, if splice then AppendI else AddTail);
    assert c.stack[..|stack|] == stack;
    AfterFits((NextArg(m.w, splice, l, v), env), pc + 1, stack, bound);
    OneStep(m, c, bound);
  }

  lemma StepPushLabel(m: Machine, lab: nat, pc: nat, stack: seq<Slot>, env: Env, bound: nat)
    requires At(m.code, pc, [PushLabel(lab)]) && |stack| < bound
    ensures Runs(m, Running(pc, stack, env), 1, Running(pc + 1, stack + [L(lab)], env), bound)
  {
    AtOne(m.code, pc, PushLabel(lab));
    OneStep(m, Running(pc, stack, env), bound);
  }

  lemma StepCatch(m: Machine, i: Instr, n: nat, pc: nat, stack: seq<Slot>, env: Env, bound: nat)
    requires At(m.code, pc, [i]) && |stack| < bound && ((i == CatchI && n == 1) || i == TryExcept(n))
        && PairsBelow(stack, n)
    ensures Runs(m, Running(pc, stack, env), 1, Running(pc + 1, stack + [CatchM(n)], env), bound)
  {
    AtOne(m.code, pc, i);
    OneStep(m, Running(pc, stack, env), bound);
  }

  // ---- expressions ----

  lemma {:induction false} ExprRuns(m: Machine, e: Expr, pc: nat, stack: seq<Slot>, env: Env, bound: nat)
      returns (n: nat)
    requires !m.fused && At(m.code, pc, CodeExpr(e, pc))
    requires Roomy(stack, bound) && |stack| + DepthExpr(e) <= bound
    ensures n > 0 && Runs(m, Running(pc, stack, env), n, After(Eval(m.w, e, env), pc + SizeExpr(e), stack), bound)
    decreases e, 2
  {
    hide Runs, At, Roomy, Step, After;
    match e
    case Lit(v) =>
      StepLiteral(m, v, pc, stack, env, bound);
      AfterVal(Eval(m.w, e, env), pc + 1, stack);
      n := 1;
    case Id(slot) =>
      StepPush(m, slot, pc, stack, env, bound);
      n := 1;
    case Bin(op, l, r) =>
      n := BinRuns(m, e, pc, stack, env, bound);
    case Un(_, _) =>
      n := UnRuns(m, e, pc, stack, env, bound);
    case And(_, _) =>
      n := ShortRuns(m, e, pc, stack, env, bound);
    case Or(_, _) =>
      n := ShortRuns(m, e, pc, stack, env, bound);
    case IfElse(_, _, _) =>
      n := IfElseRuns(m, e, pc, stack, env, bound);
    case ListE(args) =>
      n := ArgsRun(m, args, pc, stack, env, bound);
    case Assign(_, _) =>
      n := AssignRuns(m, e, pc, stack, env, bound);
    case CatchE(_, _, _) =>
      n := CatchRuns(m, e, pc, stack, env, bound);
  }

  lemma AfterVal(r: (Result, Env), pc: nat, stack: seq<Slot>)
    requires r.0.Val?
    ensures After(r, pc, stack) == Running(pc, stack + [V(r.0.value)], r.1)
  {
  }

  lemma AfterFail(r: (Result, Env), pc: nat, pc': nat, stack: seq<Slot>)
    requires r.0.Fail?
    ensures After(r, pc, stack) == After(r, pc', stack) == RaiseError(r.0.code, stack, r.1)
  {
  }

  lemma {:induction false} UnRuns(m: Machine, e: Expr, pc: nat, stack: seq<Slot>, env: Env, bound: nat) returns (n: nat)
    requires e.Un? && !m.fused && At(m.code, pc, CodeExpr(e, pc))
    requires Roomy(stack, bound) && |stack| + DepthExpr(e) <= bound
    ensures n > 0 && Runs(m, Running(pc, stack, env), n, After(Eval(m.w, e, env), pc + SizeExpr(e), stack), bound)
    decreases e, 1
  {
    hide Runs, At, Roomy, Step, After;
    var Un(op, a) := e;
    var mid, end := pc + SizeExpr(a), pc + SizeExpr(e);
    AtSplit(m.code, pc, CodeExpr(a, pc), [UnI(op)]);
    n := ExprRuns(m, a, pc, stack, env, bound);
    var (v, env1) := Eval(m.w, a, env);
    if v.Val? {
      AfterVal((v, env1), mid, stack);
      StepUn(m, op, v.value, mid, stack, env1, bound);
      RunsOn(m, Running(pc, stack, env), n, Running(mid, stack + [V(v.value)], env1), 1,
             After((ApplyUn(m.w, op, v.value), env1), end, stack), bound);
      n := n + 1;
    } else {
      AfterFail((v, env1), mid, end, stack);
    }
  }

  lemma {:induction false} AssignRuns(m: Machine, e: Expr, pc: nat, stack: seq<Slot>, env: Env, bound: nat)
      returns (n: nat)
    requires e.Assign? && !m.fused && At(m.code, pc, CodeExpr(e, pc))
    requires Roomy(stack, bound) && |stack| + DepthExpr(e) <= bound
    ensures n > 0 && Runs(m, Running(pc, stack, env), n, After(Eval(m.w, e, env), pc + SizeExpr(e), stack), bound)
    decreases e, 1
  {
    hide Runs, At, Roomy, Step, After;
    var Assign(slot, r) := e;
    var mid, end := pc + SizeExpr(r), pc + SizeExpr(e);
    AtSplit(m.code, pc, CodeExpr(r, pc), [Put(slot)]);
    n := ExprRuns(m, r, pc, stack, env, bound);
    var (v, env1) := Eval(m.w, r, env);
    if v.Val? {
      AfterVal((v, env1), mid, stack);
      AfterVal((v, env1[slot := v.value]), end, stack);
      StepPut(m, slot, v.value, mid, stack, env1, bound);
      RunsOn(m, Running(pc, stack, env), n, Running(mid, stack + [V(v.value)], env1), 1,
             Running(end, stack + [V(v.value)], env1[slot := v.value]), bound);
      n := n + 1;
    } else {
      AfterFail((v, env1), mid, end, stack);
    }
  }

  /** Binary operators, one level down. */
  lemma {:induction false} BinParts(w: World, e: Expr, pc: nat, env: Env)
    requires e.Bin?
    ensures CodeExpr(e, pc) == CodeExpr(e.lhs, pc) + CodeExpr(e.rhs, pc + SizeExpr(e.lhs)) + [BinI(e.op)]
    ensures SizeExpr(e) == SizeExpr(e.lhs) + SizeExpr(e.rhs) + 1
    ensures DepthExpr(e) >= DepthExpr(e.lhs) && DepthExpr(e) >= 1 + DepthExpr(e.rhs) >= 2
    ensures var (v1, env1) := Eval(w, e.lhs, env);
            Eval(w, e, env)
            == if v1.Fail? then (v1, env1)
               else var (v2, env2) := Eval(w, e.rhs, env1);
                    if v2.Fail? then (v2, env2) else (Apply(w, e.op, v1.value, v2.value), env2)
  {
  }

  lemma {:induction false} BinRuns(m: Machine, e: Expr, pc: nat, stack: seq<Slot>, env: Env, bound: nat)
      returns (n: nat)
    requires e.Bin? && !m.fused && At(m.code, pc, CodeExpr(e, pc))
    requires Roomy(stack, bound) && |stack| + DepthExpr(e) <= bound
    ensures n > 0 && Runs(m, Running(pc, stack, env), n, After(Eval(m.w, e, env), pc + SizeExpr(e), stack), bound)
    decreases e, 1
  {
    hide *;
    BinParts(m.w, e, pc, env);
    var Bin(op, l, r) := e;
    var c, mid, end := Running(pc, stack, env), pc + SizeExpr(l), pc + SizeExpr(e);
    AtSplit(m.code, pc, CodeExpr(l, pc) + CodeExpr(r, mid), [BinI(op)]);
    AtSplit(m.code, pc, CodeExpr(l, pc), CodeExpr(r, mid));
    n := ExprRuns(m, l, pc, stack, env, bound);
    var (v1, env1) := Eval(m.w, l, env);
    if v1.Val? {
      AfterVal((v1, env1), mid, stack);
      var stack1 := stack + [V(v1.value)];
      RoomyPlain(stack, [V(v1.value)], bound);
      var k := ExprRuns(m, r, mid, stack1, env1, bound);
      var (v2, env2) := Eval(m.w, r, env1);
      RunsOn(m, c, n, Running(mid, stack1, env1), k, After((v2, env2), end - 1, stack1), bound);
      n := n + k;
      if v2.Fail? {
        FailThrough(m, c, n, (v2, env2), end - 1, stack, V(v1.value), end, bound);
      } else {
        AfterVal((v2, env2), end - 1, stack1);
        StepBin(m, op, v1.value, v2.value, end - 1, stack, env2, bound);
        RunsOn(m, c, n, Running(end - 1, stack1 + [V(v2.value)], env2), 1,
               After((Apply(m.w, op, v1.value, v2.value), env2), end, stack), bound);
        n := n + 1;
      }
    } else {
      AfterFail((v1, env1), mid, end, stack);
    }
  }

  /** And and Or, one level down. */
  lemma {:induction false} ShortParts(w: World, e: Expr, pc: nat, env: Env)
    requires e.And? || e.Or?
    ensures var end := pc + SizeExpr(e);
            CodeExpr(e, pc) == CodeExpr(e.lhs, pc) + [if e.And? then AndI(end) else OrI(end)]
                               + CodeExpr(e.rhs, pc + SizeExpr(e.lhs) + 1)
    ensures SizeExpr(e) == SizeExpr(e.lhs) + 1 + SizeExpr(e.rhs)
    ensures DepthExpr(e) >= DepthExpr(e.lhs) && DepthExpr(e) >= DepthExpr(e.rhs)
    ensures var (v, env1) := Eval(w, e.lhs, env);
            Eval(w, e, env) == if v.Val? && Truthy(v.value) == e.And? then Eval(w, e.rhs, env1) else (v, env1)
  {
    hide Eval, CodeExpr, SizeExpr, DepthExpr;
    ShortCode(e, pc);
    ShortMeans(w, e, env);
  }

  lemma {:induction false} ShortCode(e: Expr, pc: nat)
    requires e.And? || e.Or?
    ensures var end := pc + SizeExpr(e);
            CodeExpr(e, pc) == CodeExpr(e.lhs, pc) + [if e.And? then AndI(end) else OrI(end)]
                               + CodeExpr(e.rhs, pc + SizeExpr(e.lhs) + 1)
    ensures SizeExpr(e) == SizeExpr(e.lhs) + 1 + SizeExpr(e.rhs)
    ensures DepthExpr(e) >= DepthExpr(e.lhs) && DepthExpr(e) >= DepthExpr(e.rhs)
  {
    match e
    case And(l, r) =>
    case Or(l, r) =>
  }

  lemma {:induction false} ShortMeans(w: World, e: Expr, env: Env)
    requires e.And? || e.Or?
    ensures var (v, env1) := Eval(w, e.lhs, env);
            Eval(w, e, env) == if v.Val? && Truthy(v.value) == e.And? then Eval(w, e.rhs, env1) else (v, env1)
  {
    var (v, env1) := Eval(w, e.lhs, env);
    match e
    case And(l, r) =>
    case Or(l, r) =>
  }

  lemma {:induction false} ShortRuns(m: Machine, e: Expr, pc: nat, stack: seq<Slot>, env: Env, bound: nat)
      returns (n: nat)
    requires (e.And? || e.Or?) && !m.fused && At(m.code, pc, CodeExpr(e, pc))
    requires Roomy(stack, bound) && |stack| + DepthExpr(e) <= bound
    ensures n > 0 && Runs(m, Running(pc, stack, env), n, After(Eval(m.w, e, env), pc + SizeExpr(e), stack), bound)
    decreases e, 1
  {
    hide *;
    ShortParts(m.w, e, pc, env);
    var c, l, r, end := Running(pc, stack, env), e.lhs, e.rhs, pc + SizeExpr(e);
    var mid, op := pc + SizeExpr(l), if e.And? then AndI(end) else OrI(end);
    AtSplit(m.code, pc, CodeExpr(l, pc) + [op], CodeExpr(r, mid + 1));
    AtSplit(m.code, pc, CodeExpr(l, pc), [op]);
    n := ExprRuns(m, l, pc, stack, env, bound);
    var (v, env1) := Eval(m.w, l, env);
    if v.Val? {
      AfterVal((v, env1), mid, stack);
      AfterVal((v, env1), end, stack);
      StepShort(m, e.And?, v.value, end, mid, stack, env1, bound);
      var d := if Truthy(v.value) == e.And? then Running(mid + 1, stack, env1)
          else Running(end, stack + [V(v.value)], env1);
      RunsOn(m, c, n, Running(mid, stack + [V(v.value)], env1), 1, d, bound);
      n := n + 1;
      if Truthy(v.value) == e.And? {
        var k := ExprRuns(m, r, mid + 1, stack, env1, bound);
        RunsOn(m, c, n, d, k, After(Eval(m.w, r, env1), end, stack), bound);
        n := n + k;
      }
    } else {
      AfterFail((v, env1), mid, end, stack);
    }
  }

  lemma {:induction false} IfElseParts(w: World, e: Expr, pc: nat, env: Env)
    requires e.IfElse?
    ensures var thn := pc + SizeExpr(e.cond) + 1;
            var els := thn + SizeExpr(e.thn) + 1;
            CodeExpr(e, pc) == CodeExpr(e.cond, pc) + [IfQues(els)] + CodeExpr(e.thn, thn) + [Jump(pc + SizeExpr(e))]
                               + CodeExpr(e.els, els)
    ensures SizeExpr(e) == SizeExpr(e.cond) + 1 + SizeExpr(e.thn) + 1 + SizeExpr(e.els)
    ensures DepthExpr(e) >= DepthExpr(e.cond) && DepthExpr(e) >= DepthExpr(e.thn) && DepthExpr(e) >= DepthExpr(e.els)
    ensures var (v, env1) := Eval(w, e.cond, env);
            Eval(w, e, env) == if v.Fail? then (v, env1)
                               else if Truthy(v.value) then Eval(w, e.thn, env1) else Eval(w, e.els, env1)
  {
    hide Eval, CodeExpr, SizeExpr, DepthExpr;
    IfElseCode(e, pc);
    IfElseMeans(w, e, env);
  }

  lemma {:induction false} IfElseCode(e: Expr, pc: nat)
    requires e.IfElse?
    ensures var thn := pc + SizeExpr(e.cond) + 1;
            var els := thn + SizeExpr(e.thn) + 1;
            CodeExpr(e, pc) == CodeExpr(e.cond, pc) + [IfQues(els)] + CodeExpr(e.thn, thn) + [Jump(pc + SizeExpr(e))]
                               + CodeExpr(e.els, els)
    ensures SizeExpr(e) == SizeExpr(e.cond) + 1 + SizeExpr(e.thn) + 1 + SizeExpr(e.els)
    ensures DepthExpr(e) >= DepthExpr(e.cond) && DepthExpr(e) >= DepthExpr(e.thn) && DepthExpr(e) >= DepthExpr(e.els)
  {
  }

  lemma {:induction false} IfElseMeans(w: World, e: Expr, env: Env)
    requires e.IfElse?
    ensures var (v, env1) := Eval(w, e.cond, env);
            Eval(w, e, env) == if v.Fail? then (v, env1)
                               else if Truthy(v.value) then Eval(w, e.thn, env1) else Eval(w, e.els, env1)
  {
  }

  lemma IsTest(lab: nat)
    ensures Tests(IfQues(lab), lab) && Tests(IfI(lab), lab) && Tests(Eif(lab), lab) && Tests(WhileI(lab), lab)
  {
  }

  lemma {:induction false} IfElseRuns(m: Machine, e: Expr, pc: nat, stack: seq<Slot>, env: Env, bound: nat)
      returns (n: nat)
    requires e.IfElse? && !m.fused && At(m.code, pc, CodeExpr(e, pc))
    requires Roomy(stack, bound) && |stack| + DepthExpr(e) <= bound
    ensures n > 0 && Runs(m, Running(pc, stack, env), n, After(Eval(m.w, e, env), pc + SizeExpr(e), stack), bound)
    decreases e, 1
  {
    hide *;
    IfElseParts(m.w, e, pc, env);
    var IfElse(b, t, f) := e;
    var c, mid, end := Running(pc, stack, env), pc + SizeExpr(b), pc + SizeExpr(e);
    var thn := mid + 1;
    var els := thn + SizeExpr(t) + 1;
    var front := CodeExpr(b, pc) + [IfQues(els)] + CodeExpr(t, thn);
    AtSplit(m.code, pc, front + [Jump(end)], CodeExpr(f, els));
    AtSplit(m.code, pc, front, [Jump(end)]);
    AtSplit(m.code, pc, CodeExpr(b, pc) + [IfQues(els)], CodeExpr(t, thn));
    AtSplit(m.code, pc, CodeExpr(b, pc), [IfQues(els)]);
    n := ExprRuns(m, b, pc, stack, env, bound);
    var (v, env1) := Eval(m.w, b, env);
    if v.Val? {
      AfterVal((v, env1), mid, stack);
      IsTest(els);
      StepTest(m, IfQues(els), els, v.value, mid, stack, env1, bound);
      var d := Running(if Truthy(v.value) then thn else els, stack, env1);
      RunsOn(m, c, n, Running(mid, stack + [V(v.value)], env1), 1, d, bound);
      n := n + 1;
      if Truthy(v.value) {
        var k := ThenRuns(m, t, thn, end, stack, env1, bound);
        RunsOn(m, c, n, d, k, After(Eval(m.w, t, env1), end, stack), bound);
        n := n + k;
      } else {
        var k := ExprRuns(m, f, els, stack, env1, bound);
        RunsOn(m, c, n, d, k, After(Eval(m.w, f, env1), end, stack), bound);
        n := n + k;
      }
    } else {
      AfterFail((v, env1), mid, end, stack);
    }
  }

  /** An expression followed by a jump. */
  lemma {:induction false} ThenRuns(m: Machine, e: Expr, pc: nat, target: nat, stack: seq<Slot>, env: Env, bound: nat)
      returns (n: nat)
    requires !m.fused && At(m.code, pc, CodeExpr(e, pc)) && At(m.code, pc + SizeExpr(e), [Jump(target)])
    requires Roomy(stack, bound) && |stack| + DepthExpr(e) <= bound
    ensures n > 0 && Runs(m, Running(pc, stack, env), n, After(Eval(m.w, e, env), target, stack), bound)
    decreases e, 3
  {
    hide Runs, At, Roomy, Step, After;
    n := ExprRuns(m, e, pc, stack, env, bound);
    var (v, env1) := Eval(m.w, e, env);
    if v.Val? {
      AfterVal((v, env1), pc + SizeExpr(e), stack);
      AfterVal((v, env1), target, stack);
      StepJump(m, target, pc + SizeExpr(e), stack + [V(v.value)], env1, bound);
      RunsOn(m, Running(pc, stack, env), n, Running(pc + SizeExpr(e), stack + [V(v.value)], env1), 1,
             Running(target, stack + [V(v.value)], env1), bound);
      n := n + 1;
    } else {
      AfterFail((v, env1), pc + SizeExpr(e), target, stack);
    }
  }

  /** Argument lists, one level down. */
  lemma {:induction false} ArgsParts(w: World, args: Args, pc: nat, env: Env)
    requires args.ACons?
    ensures var op, mid := if args.splice then CheckSplice else MakeSingleton, pc + SizeExpr(args.e);
            CodeArgs(args, pc) == CodeExpr(args.e, pc) + [op] + CodeMore(args.rest, mid + 1)
    ensures SizeArgs(args) == SizeExpr(args.e) + 1 + SizeMore(args.rest)
    ensures DepthArgs(args) >= DepthExpr(args.e) && DepthArgs(args) >= DepthMore(args.rest)
    ensures var (v, env1) := Eval(w, args.e, env);
            EvalArgs(w, args, env)
            == if v.Fail? then (v, env1)
               else var l := FirstArg(w, args.splice, v.value);
                    if l.Fail? then (l, env1) else EvalMore(w, args.rest, l.value, env1)
  {
  }

  lemma {:induction false} MoreParts(w: World, args: Args, list: Value, pc: nat, env: Env)
    requires args.ACons?
    ensures var op, mid := if args.splice then AppendI else AddTail, pc + SizeExpr(args.e);
            CodeMore(args, pc) == CodeExpr(args.e, pc) + [op] + CodeMore(args.rest, mid + 1)
    ensures SizeMore(args) == SizeExpr(args.e) + 1 + SizeMore(args.rest)
    ensures DepthMore(args) >= 1 + DepthExpr(args.e) && DepthMore(args) >= DepthMore(args.rest)
    ensures var (v, env1) := Eval(w, args.e, env);
            EvalMore(w, args, list, env)
            == if v.Fail? then (v, env1)
               else var l := NextArg(w, args.splice, list, v.value);
                    if l.Fail? then (l, env1) else EvalMore(w, args.rest, l.value, env1)
  {
  }

  lemma ArgsEnds(w: World, list: Value, pc: nat, env: Env)
    ensures CodeArgs(ANil, pc) == [MakeEmptyList] && SizeArgs(ANil) == 1
    ensures EvalArgs(w, ANil, env) == (Val(ListV([])), env)
    ensures CodeMore(ANil, pc) == [] && SizeMore(ANil) == 0
    ensures EvalMore(w, ANil, list, env) == (Val(list), env)
  {
  }

  lemma {:induction false} ArgsRun(m: Machine, args: Args, pc: nat, stack: seq<Slot>, env: Env, bound: nat)
      returns (n: nat)
    requires !m.fused && At(m.code, pc, CodeArgs(args, pc))
    requires Roomy(stack, bound) && |stack| + DepthArgs(args) <= bound
    ensures n > 0 && Runs(m, Running(pc, stack, env), n, After(EvalArgs(m.w, args, env), pc + SizeArgs(args), stack),
        bound)
    decreases args, 1
  {
    hide *;
    var c, end := Running(pc, stack, env), pc + SizeArgs(args);
    match args
    case ANil =>
      ArgsEnds(m.w, NoneV, pc, env);
      StepEmpty(m, pc, stack, env, bound);
      AfterVal(EvalArgs(m.w, args, env), end, stack);
      n := 1;
    case ACons(splice, e, rest) =>
      ArgsParts(m.w, args, pc, env);
      var op, mid := if splice then CheckSplice else MakeSingleton, pc + SizeExpr(e);
      AtSplit(m.code, pc, CodeExpr(e, pc) + [op], CodeMore(rest, mid + 1));
      AtSplit(m.code, pc, CodeExpr(e, pc), [op]);
      n := ExprRuns(m, e, pc, stack, env, bound);
      var (v, env1) := Eval(m.w, e, env);
      if v.Val? {
        var l := FirstArg(m.w, splice, v.value);
        AfterVal((v, env1), mid, stack);
        StepFirst(m, splice, v.value, mid, stack, env1, bound);
        RunsOn(m, c, n, Running(mid, stack + [V(v.value)], env1), 1, After((l, env1), mid + 1, stack), bound);
        n := n + 1;
        if l.Val? {
          AfterVal((l, env1), mid + 1, stack);
          var k := MoreRuns(m, rest, l.value, mid + 1, stack, env1, bound);
          RunsOn(m, c, n, Running(mid + 1, stack + [V(l.value)], env1), k,
                 After(EvalMore(m.w, rest, l.value, env1), end, stack), bound);
          n := n + k;
        } else {
          AfterFail((l, env1), mid + 1, end, stack);
        }
      } else {
        AfterFail((v, env1), mid, end, stack);
      }
  }

  lemma {:induction false} MoreRuns(m: Machine, args: Args, list: Value, pc: nat, stack: seq<Slot>, env: Env,
      bound: nat) returns (n: nat)
    requires !m.fused && At(m.code, pc, CodeMore(args, pc))
    requires Roomy(stack, bound) && |stack| + DepthMore(args) <= bound && |stack| < bound
    ensures Runs(m, Running(pc, stack + [V(list)], env), n,
                 After(EvalMore(m.w, args, list, env), pc + SizeMore(args), stack), bound)
    decreases args, 1
  {
    hide *;
    var c, end := Running(pc, stack + [V(list)], env), pc + SizeMore(args);
    match args
    case ANil =>
      ArgsEnds(m.w, list, pc, env);
      AfterVal(EvalMore(m.w, args, list, env), end, stack);
      RunsNowhere(m, c, bound);
      n := 0;
    case ACons(splice, e, rest) =>
      MoreParts(m.w, args, list, pc, env);
      var op, mid := if splice then AppendI else AddTail, pc + SizeExpr(e);
      AtSplit(m.code, pc, CodeExpr(e, pc) + [op], CodeMore(rest, mid + 1));
      AtSplit(m.code, pc, CodeExpr(e, pc), [op]);
      RoomyPlain(stack, [V(list)], bound);
      n := ExprRuns(m, e, pc, stack + [V(list)], env, bound);
      var (v, env1) := Eval(m.w, e, env);
      if v.Fail? {
        FailThrough(m, c, n, (v, env1), mid, stack, V(list), end, bound);
      } else {
        var l := NextArg(m.w, splice, list, v.value);
        AfterVal((v, env1), mid, stack + [V(list)]);
        StepNext(m, splice, list, v.value, mid, stack, env1, bound);
        RunsOn(m, c, n, Running(mid, stack + [V(list)] + [V(v.value)], env1), 1, After((l, env1), mid + 1, stack),
          bound);
        n := n + 1;
        if l.Val? {
          AfterVal((l, env1), mid + 1, stack);
          var k := MoreRuns(m, rest, l.value, mid + 1, stack, env1, bound);
          RunsOn(m, c, n, Running(mid + 1, stack + [V(l.value)], env1), k,
                 After(EvalMore(m.w, rest, l.value, env1), end, stack), bound);
          n := n + k;
        } else {
          AfterFail((l, env1), mid + 1, end, stack);
        }
      }
  }

  lemma RunsNowhere(m: Machine, c: Config, bound: nat)
    requires c.Running? && |c.stack| <= bound
    ensures Runs(m, c, 0, c, bound)
  {
  }

  lemma {:induction false} CodesRun(m: Machine, codes: Codes, pc: nat, stack: seq<Slot>, env: Env, bound: nat)
      returns (n: nat)
    requires !m.fused && At(m.code, pc, CodeCodes(codes, pc))
    requires Roomy(stack, bound) && |stack| + DepthCodes(codes) <= bound
    ensures n > 0 && Runs(m, Running(pc, stack, env), n,
        After(EvalCodes(m.w, codes, env), pc + SizeCodes(codes), stack), bound)
    decreases codes, 1
  {
    hide Runs, At, Roomy, Step, After;
    match codes
    case Any =>
      StepNum(m, 0, pc, stack, env, bound);
      AfterVal(EvalCodes(m.w, codes, env), pc + 1, stack);
      n := 1;
    case Only(args) =>
      n := ArgsRun(m, args, pc, stack, env, bound);
  }

  /** Catch expressions, one level down. */
  lemma {:induction false} CatchParts(w: World, e: Expr, pc: nat, env: Env)
    requires e.CatchE?
    ensures var try := pc + SizeCodes(e.codes) + 2;
            var handler := try + SizeExpr(e.body) + 1;
            CodeExpr(e, pc) == CodeCodes(e.codes, pc) + [PushLabel(handler), CatchI] + CodeExpr(e.body, try)
                               + [EndCatch(pc + SizeExpr(e))] + CodeExcept(e.except, handler)
    ensures SizeExpr(e) == SizeCodes(e.codes) + 2 + SizeExpr(e.body) + 1 + SizeExcept(e.except)
    ensures DepthExpr(e) >= DepthCodes(e.codes) && DepthExpr(e) >= 3 + DepthExpr(e.body)
        && DepthExpr(e) >= DepthExcept(e.except)
    ensures var (cs, env1) := EvalCodes(w, e.codes, env);
            Eval(w, e, env)
            == if cs.Fail? then (cs, env1)
               else
                 var (v, env2) := Eval(w, e.body, env1);
                 if v.Val? || !Matches(cs.value, v.code) then (v, env2) else EvalDefault(w, e.except, v.code, env2)
  {
  }

  function EvalDefault(w: World, except: Option<Expr>, code: Value, env: Env): (Result, Env) {
    match except
    case None => (Val(code), env)
    case Some(d) => Eval(w, d, env)
  }

  lemma {:induction false} CatchRuns(m: Machine, e: Expr, pc: nat, stack: seq<Slot>, env: Env, bound: nat)
      returns (n: nat)
    requires e.CatchE? && !m.fused && At(m.code, pc, CodeExpr(e, pc))
    requires Roomy(stack, bound) && |stack| + DepthExpr(e) <= bound
    ensures n > 0 && Runs(m, Running(pc, stack, env), n, After(Eval(m.w, e, env), pc + SizeExpr(e), stack), bound)
    decreases e, 1
  {
    hide *;
    CatchParts(m.w, e, pc, env);
    var CatchE(body, codes, except) := e;
    var c, end, open := Running(pc, stack, env), pc + SizeExpr(e), pc + SizeCodes(codes);
    var try := open + 2;
    var handler := try + SizeExpr(body) + 1;
    var front := CodeCodes(codes, pc) + [PushLabel(handler), CatchI];
    AtSplit(m.code, pc, front + CodeExpr(body, try) + [EndCatch(end)], CodeExcept(except, handler));
    AtSplit(m.code, pc, front + CodeExpr(body, try), [EndCatch(end)]);
    AtSplit(m.code, pc, front, CodeExpr(body, try));
    AtSplit(m.code, pc, CodeCodes(codes, pc), [PushLabel(handler), CatchI]);
    n := CodesRun(m, codes, pc, stack, env, bound);
    var (cs, env1) := EvalCodes(m.w, codes, env);
    if cs.Val? {
      AfterVal((cs, env1), open, stack);
      OpenCatch(m, cs.value, handler, open, stack, env1, bound);
      var stack3 := stack + [V(cs.value), L(handler), CatchM(1)];
      RunsOn(m, c, n, Running(open, stack + [V(cs.value)], env1), 2, Running(try, stack3, env1), bound);
      n := n + 2;
      RoomyPlain(stack, [V(cs.value), L(handler), CatchM(1)], bound);
      var k := ExprRuns(m, body, try, stack3, env1, bound);
      RunsOn(m, c, n, Running(try, stack3, env1), k, After(Eval(m.w, body, env1), handler - 1, stack3), bound);
      n := CatchEnds(m, e, pc, stack, env, bound, n + k, cs.value, env1);
    } else {
      AfterFail((cs, env1), open, end, stack);
    }
  }

  /** A catch expression once its body has been evaluated. */
  lemma {:induction false} CatchEnds(m: Machine, e: Expr, pc: nat, stack: seq<Slot>, env: Env, bound: nat, n0: nat,
      cs: Value, env1: Env)
    returns (n: nat)
    requires e.CatchE? && !m.fused && Roomy(stack, bound) && |stack| + DepthExpr(e) <= bound && n0 > 0
    requires EvalCodes(m.w, e.codes, env) == (Val(cs), env1)
    requires var handler := pc + SizeCodes(e.codes) + 2 + SizeExpr(e.body) + 1;
             && At(m.code, handler - 1, [EndCatch(pc + SizeExpr(e))])
             && At(m.code, handler, CodeExcept(e.except, handler))
             && Runs(m, Running(pc, stack, env), n0,
                     After(Eval(m.w, e.body, env1), handler - 1, stack + [V(cs), L(handler), CatchM(1)]), bound)
    ensures n > 0 && Runs(m, Running(pc, stack, env), n, After(Eval(m.w, e, env), pc + SizeExpr(e), stack), bound)
    decreases e, 0
  {
    hide *;
    CatchParts(m.w, e, pc, env);
    var CatchE(body, codes, except) := e;
    var c, end := Running(pc, stack, env), pc + SizeExpr(e);
    var handler := pc + SizeCodes(codes) + 2 + SizeExpr(body) + 1;
    var stack3 := stack + [V(cs), L(handler), CatchM(1)];
    var (v, env2) := Eval(m.w, body, env1);
    if v.Val? {
      AfterVal((v, env2), handler - 1, stack3);
      AfterVal((v, env2), end, stack);
      CloseCatch(m, v.value, cs, handler, end, stack, env2, bound);
      RunsOn(m, c, n0, Running(handler - 1, stack3 + [V(v.value)], env2), 1, Running(end, stack + [V(v.value)], env2),
        bound);
      n := n0 + 1;
    } else {
      AfterFail((v, env2), handler - 1, end, stack3);
      AfterFail((v, env2), handler - 1, end, stack);
      RaiseInCatch(v.code, cs, handler, stack, env2);
      if Matches(cs, v.code) {
        var k := ExceptRuns(m, except, v.code, handler, stack, env2, bound);
        RunsOn(m, c, n0, Running(handler, stack + [V(Tuple(v.code))], env2), k,
               After(EvalDefault(m.w, except, v.code, env2), end, stack), bound);
        n := n0 + k;
      } else {
        n := n0;
      }
    }
  }

  /** PUSH_LABEL and CATCH. */
  lemma OpenCatch(m: Machine, codes: Value, handler: nat, pc: nat, stack: seq<Slot>, env: Env, bound: nat)
    requires At(m.code, pc, [PushLabel(handler), CatchI]) && |stack| + 3 <= bound
    ensures Runs(m, Running(pc, stack + [V(codes)], env), 2,
                 Running(pc + 2, stack + [V(codes), L(handler), CatchM(1)], env), bound)
  {
    hide Runs, Step;
    assert [PushLabel(handler), CatchI] == [PushLabel(handler)] + [CatchI];
    AtSplit(m.code, pc, [PushLabel(handler)], [CatchI]);
    StepPushLabel(m, handler, pc, stack + [V(codes)], env, bound);
    assert stack + [V(codes)] + [L(handler)] + [CatchM(1)] == stack + [V(codes), L(handler), CatchM(1)];
    OnePair(stack, codes, handler);
    StepCatch(m, CatchI, 1, pc + 1, stack + [V(codes)] + [L(handler)], env, bound);
    RunsOn(m, Running(pc, stack + [V(codes)], env), 1, Running(pc + 1, stack + [V(codes)] + [L(handler)], env), 1,
           Running(pc + 2, stack + [V(codes)] + [L(handler)] + [CatchM(1)], env), bound);
  }

  lemma OnePair(stack: seq<Slot>, codes: Value, handler: nat)
    ensures PairsBelow(stack + [V(codes)] + [L(handler)], 1)
  {
    var all := stack + [V(codes)] + [L(handler)];
    assert all[|all| - 2..] == [V(codes), L(handler)];
  }

  /** END_CATCH. */
  lemma CloseCatch(m: Machine, v: Value, codes: Value, handler: nat, end: nat, stack: seq<Slot>, env: Env, bound: nat)
    requires handler > 0 && At(m.code, handler - 1, [EndCatch(end)]) && |stack| + 4 <= bound
    ensures Runs(m, Running(handler - 1, stack + [V(codes), L(handler), CatchM(1)] + [V(v)], env), 1,
                 Running(end, stack + [V(v)], env), bound)
  {
    var d := Running(handler - 1, stack + [V(codes), L(handler), CatchM(1)] + [V(v)], env);
    AtOne(m.code, handler - 1, EndCatch(end));
    assert d.stack[..|stack|] == stack;
    OneStep(m, d, bound);
  }

  /** The handler of a catch expression, entered with the tuple on the stack. */
  lemma {:induction false} ExceptRuns(m: Machine, except: Option<Expr>, code: Value, pc: nat, stack: seq<Slot>,
      env: Env, bound: nat)
    returns (n: nat)
    requires !m.fused && At(m.code, pc, CodeExcept(except, pc))
    requires Roomy(stack, bound) && |stack| + 2 <= bound && |stack| + DepthExcept(except) <= bound
    ensures Runs(m, Running(pc, stack + [V(Tuple(code))], env), n,
                 After(EvalDefault(m.w, except, code, env), pc + SizeExcept(except), stack), bound)
    decreases except, 1
  {
    hide Runs, At, Roomy, Step, After;
    var c := Running(pc, stack + [V(Tuple(code))], env);
    match except
    case None =>
      assert [NumI(1), BinI(IndexOp)] == [NumI(1)] + [BinI(IndexOp)];
      AtSplit(m.code, pc, [NumI(1)], [BinI(IndexOp)]);
      StepNum(m, 1, pc, stack + [V(Tuple(code))], env, bound);
      assert Apply(m.w, IndexOp, Tuple(code), IntV(1)) == Val(code);
      StepBin(m, IndexOp, Tuple(code), IntV(1), pc + 1, stack, env, bound);
      RunsOn(m, c, 1, Running(pc + 1, stack + [V(Tuple(code))] + [V(IntV(1))], env), 1,
             After((Val(code), env), pc + 2, stack), bound);
      n := 2;
    case Some(e) =>
      AtSplit(m.code, pc, [Pop], CodeExpr(e, pc + 1));
      StepPop(m, V(Tuple(code)), pc, stack, env, bound);
      n := ExprRuns(m, e, pc + 1, stack, env, bound);
      RunsOn(m, c, 1, Running(pc + 1, stack, env), n, After(Eval(m.w, e, env), pc + 1 + SizeExpr(e), stack), bound);
      n := n + 1;
  }
}
