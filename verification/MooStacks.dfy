/** The run-time stacks of generated code: every handler marker lies on its pairs of codes and address, whatever the
    program and however far it has run. */
module MooStacks {
  import opened MooAst
  import opened MooSemantics
  import opened MooCode
  import opened MooMachine
  import opened MooUnwind
  import Compiler = MooCompiler

  lemma ProperPush(stack: seq<Slot>, s: Slot)
    requires Proper(stack) && (s.CatchM? ==> PairsBelow(stack, s.n))
    ensures Proper(stack + [s])
  {
    var all := stack + [s];
    forall i | 0 <= i < |all| && all[i].CatchM? ensures PairsBelow(all[..i], all[i].n) {
      assert all[..i] == if i < |stack| then stack[..i] else stack;
    }
  }

  lemma ProperTwo(stack: seq<Slot>, s: Slot, t: Slot)
    requires Proper(stack) && !s.CatchM? && !t.CatchM?
    ensures Proper(stack + [s, t])
  {
    ProperPush(stack, s);
    ProperPush(stack + [s], t);
    assert stack + [s] + [t] == stack + [s, t];
  }

  // ---- steps ----

  ghost predicate Kept(c: Config) {
    c.Running? ==> Proper(c.stack)
  }

  lemma {:induction false} UnwindProper(why: Why, pay: Pay, stack: seq<Slot>, env: Env)
    requires Proper(stack)
    ensures Kept(Unwind(why, pay, stack, env))
    decreases |stack|
  {
    hide Proper, FirstMatch;
    var goal := if why == ExitW && pay.PExit? then pay.depth else 0;
    if |stack| > goal && (why == ExitW) == pay.PExit? {
      var n := |stack| - 1;
      var top, rest := stack[n], stack[..n];
      ProperPrefix(stack, n);
      if top.FinM? {
        ProperTwo(rest, WhyS(why), PayS(pay));
      } else if why == Raise && top.CatchM? {
        if 2 * top.n <= |rest| {
          var base := |rest| - 2 * top.n;
          ProperPrefix(rest, base);
          UnwindProper(why, pay, rest[..base], env);
          if pay.PVal? {
            ProperPush(rest[..base], V(pay.v));
          }
        }
      } else {
        UnwindProper(why, pay, rest, env);
      }
    }
  }

  lemma RaiseProper(code: Value, stack: seq<Slot>, env: Env)
    requires Proper(stack)
    ensures Kept(RaiseError(code, stack, env))
  {
    hide Proper, Unwind, Handled;
    UnwindProper(Raise, PVal(Tuple(code)), stack, env);
    UnwindProper(Uncaught, PVal(IntV(0)), stack, env);
  }

  lemma DeliverProper(r: Result, next: nat, stack: seq<Slot>, env: Env)
    requires Proper(stack)
    ensures Kept(Deliver(r, next, stack, env))
  {
    hide Proper, RaiseError;
    match r {
      case Val(v) => ProperPush(stack, V(v));
      case Fail(c) => RaiseProper(c, stack, env);
    }
  }

  lemma RangeProper(m: Machine, slot: nat, lab: nat, next: nat, stack: seq<Slot>, env: Env)
    requires Proper(stack)
    ensures Kept(StepRange(m, slot, lab, next, stack, env))
  {
    hide Proper, RaiseError;
    var n := |stack|;
    if n >= 2 && stack[n - 1].V? && stack[n - 2].V? {
      ProperPrefix(stack, n - 2);
      RaiseProper(E_TYPE, stack, env);
      var c := StepRange(m, slot, lab, next, stack, env);
      if c.Running? && |c.stack| == n && c.stack[..n - 2] == stack[..n - 2] && c.stack[n - 2].V? && c.stack[n - 1].V? {
        ProperTwo(stack[..n - 2], c.stack[n - 2], c.stack[n - 1]);
        assert c.stack == stack[..n - 2] + [c.stack[n - 2], c.stack[n - 1]];
      }
    }
  }

  lemma ValueProper(m: Machine, c: Config)
    requires c.Running? && Proper(c.stack) && c.pc < |m.code|
    requires var i := m.code[c.pc];
             i.Push? || i.Put? || i.NumI? || i.Imm? || i.Pop? || i.BinI? || i.UnI? || i.MakeEmptyList?
               || i.MakeSingleton? || i.CheckSplice?
             || i.AddTail? || i.AppendI?
    ensures Kept(Step(m, c))
  {
    hide Proper, Deliver, Apply, ApplyUn, FirstArg, NextArg;
    var Running(pc, stack, env) := c;
    var n := |stack|;
    if n >= 1 { ProperPrefix(stack, n - 1); }
    if n >= 2 { ProperPrefix(stack, n - 2); }
    match m.code[pc] {
      case Push(slot) =>
        DeliverProper(if Lookup(env, slot) == NoneV then Error(m.w, E_VARNF)
          else Val(Lookup(env, slot)), pc + 1, stack, env);
      case NumI(i) => ProperPush(stack, V(IntV(i)));
      case Imm(v) => ProperPush(stack, V(v));
      case BinI(op) =>
        if n >= 2 && stack[n - 1].V? && stack[n - 2].V? {
          DeliverProper(Apply(m.w, op, stack[n - 2].v, stack[n - 1].v), pc + 1, stack[..n - 2], env);
        }
      case UnI(op) =>
        if n >= 1 && stack[n - 1].V? {
          DeliverProper(ApplyUn(m.w, op, stack[n - 1].v), pc + 1, stack[..n - 1], env);
        }
      case MakeEmptyList => ProperPush(stack, V(ListV([])));
      case MakeSingleton | CheckSplice =>
        if n >= 1 && stack[n - 1].V? {
          DeliverProper(FirstArg(m.w, m.code[pc].CheckSplice?, stack[n - 1].v), pc + 1, stack[..n - 1], env);
        }
      case AddTail | AppendI =>
        if n >= 2 && stack[n - 1].V? && stack[n - 2].V? {
          DeliverProper(NextArg(m.w, m.code[pc].AppendI?, stack[n - 2].v, stack[n - 1].v), pc + 1, stack[..n - 2], env);
        }
      case _ =>
    }
  }

  lemma BranchProper(m: Machine, c: Config)
    requires c.Running? && Proper(c.stack) && c.pc < |m.code|
    requires var i := m.code[c.pc];
             i.AndI? || i.OrI? || i.IfQues? || i.IfI? || i.Eif? || i.WhileI? || i.WhileId? || i.Jump? || i.ForRange?
    ensures Kept(Step(m, c))
  {
    hide Proper, StepRange;
    var Running(pc, stack, env) := c;
    if |stack| >= 1 { ProperPrefix(stack, |stack| - 1); }
    match m.code[pc] {
      case ForRange(slot, lab) => RangeProper(m, slot, lab, pc + 1, stack, env);
      case _ =>
    }
  }

  lemma ControlProper(m: Machine, c: Config)
    requires c.Running? && Proper(c.stack) && c.pc < |m.code|
    requires var i := m.code[c.pc];
             i.PushLabel? || i.CatchI? || i.TryExcept? || i.EndCatch? || i.EndExcept? || i.TryFinally? || i.EndFinally?
               || i.ContinueI?
             || i.Exit? || i.ExitId? || i.Return? || i.Return0? || i.Done?
    ensures Kept(Step(m, c))
  {
    hide Proper, Unwind, PairsBelow;
    var Running(pc, stack, env) := c;
    var n := |stack|;
    if n >= 1 { ProperPrefix(stack, n - 1); }
    if n >= 2 { ProperPrefix(stack, n - 2); }
    match m.code[pc] {
      case PushLabel(lab) => ProperPush(stack, L(lab));
      case CatchI => if PairsBelow(stack, 1) { ProperPush(stack, CatchM(1)); }
      case TryExcept(k) => if PairsBelow(stack, k) { ProperPush(stack, CatchM(k)); }
      case EndCatch(lab) =>
        if n >= 4 && stack[n - 1].V? {
          ProperPrefix(stack, n - 4);
          ProperPush(stack[..n - 4], stack[n - 1]);
        }
      case EndExcept(lab) =>
        if n >= 1 && stack[n - 1].CatchM? && 2 * stack[n - 1].n <= n - 1 {
          ProperPrefix(stack, n - 1 - 2 * stack[n - 1].n);
        }
      case TryFinally(lab) => ProperPush(stack, FinM(lab));
      case EndFinally => if n >= 1 { ProperTwo(stack[..n - 1], WhyS(FallThru), PayS(PVal(IntV(0)))); }
      case ContinueI =>
        if n >= 2 && stack[n - 2].WhyS? && stack[n - 1].PayS? {
          UnwindProper(stack[n - 2].why, stack[n - 1].pay, stack[..n - 2], env);
        }
      case Exit(depth, lab) => UnwindProper(ExitW, PExit(depth, lab), stack, env);
      case ExitId(_, depth, lab) => UnwindProper(ExitW, PExit(depth, lab), stack, env);
      case Return => if n >= 1 && stack[n - 1].V? { UnwindProper(ReturnW, PVal(stack[n - 1].v), stack[..n - 1], env); }
      case Return0 => UnwindProper(ReturnW, PVal(IntV(0)), stack, env);
      case Done => UnwindProper(ReturnW, PVal(IntV(0)), stack, env);
    }
  }

  lemma StepProper(m: Machine, c: Config)
    requires c.Running? && Proper(c.stack)
    ensures Kept(Step(m, c))
  {
    hide Proper, Unwind, Deliver, StepRange, PairsBelow;
    if c.pc < |m.code| {
      var i := m.code[c.pc];
      if i.Push? || i.Put? || i.NumI? || i.Imm? || i.Pop? || i.BinI? || i.UnI? || i.MakeEmptyList? || i.MakeSingleton?
        || i.CheckSplice?
         || i.AddTail? || i.AppendI? {
        ValueProper(m, c);
      } else if i.AndI? || i.OrI? || i.IfQues? || i.IfI? || i.Eif? || i.WhileI? || i.WhileId? || i.Jump?
        || i.ForRange? {
        BranchProper(m, c);
      } else {
        ControlProper(m, c);
      }
    }
  }

  lemma {:induction false} RunProper(m: Machine, c: Config, k: nat)
    requires Kept(c)
    ensures Kept(Compiler.StateAfter(m, c, k))
    decreases k
  {
    hide Proper, Step;
    if k > 0 && c.Running? {
      StepProper(m, c);
      RunProper(m, Step(m, c), k - 1);
    }
  }

  /** After any number of steps of any program, what is on the stack is fit for unwinding. */
  lemma StacksAreSane(w: World, s: Stmts, env: Env, fused: bool, k: nat)
    requires WellScoped(s, [])
    ensures var c := Compiler.StateAfter(Compiler.Loaded(w, s, fused), Compiler.Start(env), k);
            c != Stuck && (c.Running? ==> Proper(c.stack) && Sane(c.stack))
  {
    hide Sane;
    var m := Compiler.Loaded(w, s, fused);
    RunProper(m, Compiler.Start(env), k);
    Compiler.StackIsSafe(w, s, env, fused, k);
    var c := Compiler.StateAfter(m, Compiler.Start(env), k);
    if c.Running? {
      ProperSane(c.stack);
    }
  }
}
