/** One activation of the virtual machine, as execute.cc keeps it: the run-time stack is an array of the
    size the generator recorded, pushes are not checked against its end, and unwinding pops it in place. */
module MooVm {
  import opened Options
  import opened MooAst
  import opened MooSemantics
  import opened MooCode
  import opened MooMachine
  import opened MooExprRuns
  import Compiler = MooCompiler

  /** The first match at or after the k-th entry. */
  function FirstFrom(pairs: seq<Slot>, k: nat, code: Value): Option<nat>
    requires |pairs| % 2 == 0 && k % 2 == 0 && k <= |pairs|
  {
    var r := FirstMatch(pairs[k..], code);
    if r.Some? then Some(r.value + k) else None
  }

  lemma FirstFromStep(pairs: seq<Slot>, k: nat, code: Value)
    requires |pairs| % 2 == 0 && k % 2 == 0 && k + 2 <= |pairs|
    ensures FirstFrom(pairs, k, code) == if SlotMatches(pairs[k], code) then Some(k) else FirstFrom(pairs, k + 2, code)
  {
    assert pairs[k..][2..] == pairs[k + 2..];
  }

  lemma FirstFromEnds(pairs: seq<Slot>, code: Value)
    requires |pairs| % 2 == 0
    ensures FirstFrom(pairs, 0, code) == FirstMatch(pairs, code) && FirstFrom(pairs, |pairs|, code) == None
  {
    assert pairs[0..] == pairs;
  }

  /** One entry of the scan of find_handler_activ. */
  lemma HandledStep(stack: seq<Slot>, v: nat, code: Value)
    requires 0 < v <= |stack|
    ensures var top := stack[v - 1];
            Handled(stack[..v], code)
            == if top.CatchM? && 2 * top.n <= v - 1 then
                 FirstMatch(stack[v - 1 - 2 * top.n..v - 1], code).Some? || Handled(stack[..v - 1 - 2 * top.n], code)
               else Handled(stack[..v - 1], code)
  {
    var part := stack[..v];
    assert part[..v - 1] == stack[..v - 1];
    var top := stack[v - 1];
    if top.CatchM? && 2 * top.n <= v - 1 {
      var base := v - 1 - 2 * top.n;
      assert stack[..v - 1][base..] == stack[base..v - 1];
      assert stack[..v - 1][..base] == stack[..base];
    }
  }

  function Goal(why: Why, pay: Pay): nat
    requires (why == ExitW) == pay.PExit?
  {
    if why == ExitW then pay.depth else 0
  }

  lemma NothingHandled(stack: seq<Slot>, code: Value)
    requires stack == []
    ensures !Handled(stack, code)
  {
  }

  /** One entry of the loop of unwind_stack. */
  lemma UnwindStep(why: Why, pay: Pay, stack: seq<Slot>, env: Env)
    requires (why == ExitW) == pay.PExit? && |stack| > Goal(why, pay) && Unwind(why, pay, stack, env) != Stuck
    ensures var top, rest := stack[|stack| - 1], stack[..|stack| - 1];
            if top.FinM? then Unwind(why, pay, stack, env) == Running(top.pc, rest + [WhyS(why), PayS(pay)], env)
            else if why == Raise && top.CatchM? then
              2 * top.n <= |rest| && pay.v.ListV? && |pay.v.elems| > 0 &&
              var base := |rest| - 2 * top.n;
              var found := FirstMatch(rest[base..], pay.v.elems[0]);
              if found.None? then Unwind(why, pay, stack, env) == Unwind(why, pay, rest[..base], env)
              else rest[base + found.value + 1].L?
                   && Unwind(why, pay, stack, env)
                     == Running(rest[base + found.value + 1].pc, rest[..base] + [V(pay.v)], env)
            else Unwind(why, pay, stack, env) == Unwind(why, pay, rest, env)
  {
  }

  lemma UnwindEnd(why: Why, pay: Pay, stack: seq<Slot>, env: Env)
    requires (why == ExitW) == pay.PExit? && |stack| <= Goal(why, pay)
    ensures Unwind(why, pay, stack, env) == match why
      case ExitW => Running(pay.pc, stack, env)
      case ReturnW => Halted(Finished(pay.v), env)
      case _ => Halted(Aborted, env)
  {
  }

  lemma NotStuck(why: Why, pay: Pay, stack: seq<Slot>, env: Env)
    requires Unwind(why, pay, stack, env) != Stuck
    ensures (why == ExitW) == pay.PExit?
  {
  }

  class Activation {
    const m: Machine
    const rtStack: array<Slot>
    var top: nat
    var pc: nat
    var env: Env
    var halted: bool
    var ending: Ending

    ghost predicate Valid()
      reads this
    {
      top <= rtStack.Length
    }

    ghost function Stack(): seq<Slot>
      requires Valid()
      reads this, rtStack
    {
      rtStack[..top]
    }

    ghost function Abs(): Config
      requires Valid()
      reads this, rtStack
    {
      if halted then Halted(ending, env) else Running(pc, Stack(), env)
    }

    constructor (m: Machine, maxStack: nat, env: Env)
      ensures Valid() && this.m == m && fresh(rtStack) && rtStack.Length == maxStack
      ensures Abs() == Running(0, [], env)
    {
      this.m, this.env, this.top, this.pc, this.halted, this.ending := m, env, 0, 0, false, Aborted;
      this.rtStack := new Slot[maxStack](i => V(NoneV));
    }

    method Push(s: Slot)
      requires Valid() && top < rtStack.Length
      modifies this`top, rtStack
      ensures Valid() && Stack() == old(Stack()) + [s]
    {
      rtStack[top] := s;
      top := top + 1;
    }

    method Pop() returns (s: Slot)
      requires Valid() && top > 0
      modifies this`top
      ensures Valid() && Stack() == old(Stack())[..old(top) - 1] && s == old(Stack())[old(top) - 1]
    {
      top := top - 1;
      s := rtStack[top];
    }

    method PopTwo() returns (below: Slot, above: Slot)
      requires Valid() && top > 1
      modifies this`top
      ensures Valid() && Stack() == old(Stack())[..old(top) - 2]
      ensures below == old(Stack())[old(top) - 2] && above == old(Stack())[old(top) - 1]
    {
      top := top - 2;
      below, above := rtStack[top], rtStack[top + 1];
    }

    method Drop(n: nat)
      requires Valid() && n <= top
      modifies this`top
      ensures Valid() && Stack() == old(Stack())[..old(top) - n]
    {
      top := top - n;
    }

    /** The first of the pairs between base and top whose codes take the code. */
    method FindPair(base: nat, top: nat, code: Value) returns (found: Option<nat>)
      requires base <= top <= rtStack.Length && (top - base) % 2 == 0
      ensures found == FirstMatch(rtStack[base..top], code)
    {
      hide FirstMatch, FirstFrom;
      ghost var pairs := rtStack[base..top];
      var k := 0;
      FirstFromEnds(pairs, code);
      while base + k < top
        invariant base + k <= top && k % 2 == 0 && FirstMatch(pairs, code) == FirstFrom(pairs, k, code)
      {
        FirstFromStep(pairs, k, code);
        if SlotMatches(rtStack[base + k], code) {
          return Some(k);
        }
        k := k + 2;
      }
      found := None;
    }

    /** find_handler_activ: is there a handler for the code on this stack? */
    method FindHandler(code: Value) returns (found: bool)
      requires Valid()
      ensures found == Handled(Stack(), code)
    {
      hide FirstMatch, Handled;
      ghost var stack := Stack();
      var v := top;
      assert stack[..v] == stack;
      while v > 0
        invariant v <= top && Handled(stack, code) == Handled(stack[..v], code)
      {
        HandledStep(stack, v, code);
        v := v - 1;
        if rtStack[v].CatchM? && 2 * rtStack[v].n <= v {
          var base := v - 2 * rtStack[v].n;
          assert stack[base..v] == rtStack[base..v];
          var at := FindPair(base, v, code);
          if at.Some? {
            return true;
          }
          v := base;
        }
      }
      assert !Handled(stack[..0], code) by { NothingHandled(stack[..0], code); }
      return false;
    }

    /** unwind_stack. */
    method UnwindStack(why: Why, pay: Pay)
      requires Valid() && !halted
      requires Unwind(why, pay, Stack(), env) != Stuck && Fits(Unwind(why, pay, Stack(), env), rtStack.Length)
      modifies this`top, this`pc, this`halted, this`ending, rtStack
      ensures Valid() && Abs() == old(Unwind(why, pay, Stack(), env))
    {
      hide FirstMatch, Unwind;
      ghost var goalState := Unwind(why, pay, Stack(), env);
      NotStuck(why, pay, Stack(), env);
      while top > Goal(why, pay)
        invariant Valid() && !halted && Unwind(why, pay, Stack(), env) == goalState
        decreases top
      {
        UnwindStep(why, pay, Stack(), env);
        var done := UnwindEntry(why, pay);
        if done {
          return;
        }
      }
      UnwindEnd(why, pay, Stack(), env);
      match why
      case ExitW => pc := pay.pc;
      case ReturnW => halted, ending := true, Finished(pay.v);
      case _ => halted, ending := true, Aborted;
    }

    /** Takes n pairs off the stack, and enters the handler of the first one that takes the error. */
    method TryPairs(n: nat, v: Value) returns (done: bool)
      requires Valid() && 2 * n <= top && v.ListV? && v.elems != []
      requires var found := FirstMatch(Stack()[top - 2 * n..], v.elems[0]);
               found.Some? ==> Stack()[top - 2 * n + found.value + 1].L?
      modifies this`top, this`pc, rtStack
      ensures Valid()
      ensures var base, was := old(top) - 2 * n, old(Stack());
              var found := FirstMatch(was[base..], v.elems[0]);
              && done == found.Some?
              && (found.None? ==> Stack() == was[..base] && pc == old(pc))
              && (found.Some? ==> Stack() == was[..base] + [V(v)] && pc == was[base + found.value + 1].pc)
    {
      hide FirstMatch;
      var base := top - 2 * n;
      assert Stack()[base..] == rtStack[base..top];
      var found := FindPair(base, top, v.elems[0]);
      done := found.Some?;
      if done {
        pc := rtStack[base + found.value + 1].pc;
        Drop(2 * n);
        Push(V(v));
      } else {
        Drop(2 * n);
      }
    }

    /** One turn of the loop over the run-time stack; true if a handler was entered. */
    method UnwindEntry(why: Why, pay: Pay) returns (done: bool)
      requires Valid() && !halted && (why == ExitW) == pay.PExit? && top > Goal(why, pay)
      requires Unwind(why, pay, Stack(), env) != Stuck && Fits(Unwind(why, pay, Stack(), env), rtStack.Length)
      modifies this`top, this`pc, rtStack
      ensures Valid()
      ensures done ==> Abs() == old(Unwind(why, pay, Stack(), env))
      ensures !done ==> top < old(top) && Unwind(why, pay, Stack(), env) == old(Unwind(why, pay, Stack(), env))
    {
      hide FirstMatch, Unwind;
      ghost var before := Stack();
      UnwindStep(why, pay, before, env);
      var v := Pop();
      ghost var rest := Stack();
      if v.FinM? {
        pc := v.pc;
        Push(WhyS(why));
        Push(PayS(pay));
        assert Stack() == rest + [WhyS(why), PayS(pay)];
        return true;
      } else if why == Raise && v.CatchM? {
        done := TryPairs(v.n, pay.v);
        return;
      }
      return false;
    }

    /** raise_error. */
    method RaiseCode(code: Value)
      requires Valid() && !halted
      requires RaiseError(code, Stack(), env) != Stuck && Fits(RaiseError(code, Stack(), env), rtStack.Length)
      modifies this`top, this`pc, this`halted, this`ending, rtStack
      ensures Valid() && Abs() == old(RaiseError(code, Stack(), env))
    {
      hide Unwind, Handled, Fits;
      var found := FindHandler(code);
      if found {
        UnwindStack(Raise, PVal(Tuple(code)));
      } else {
        UnwindStack(Uncaught, PVal(IntV(0)));
      }
    }

    /** The result of an operation goes on the stack, or the error is raised. */
    method Settle(r: Result, next: nat)
      requires Valid() && !halted
      requires Deliver(r, next, Stack(), env) != Stuck && Fits(Deliver(r, next, Stack(), env), rtStack.Length)
      modifies this`top, this`pc, this`halted, this`ending, rtStack
      ensures Valid() && Abs() == old(Deliver(r, next, Stack(), env))
    {
      hide RaiseError;
      match r
      case Val(v) =>
        pc := next;
        Push(V(v));
      case Fail(c) =>
        RaiseCode(c);
    }

    /** The next instruction can be carried out without leaving the stack. */
    ghost predicate Enabled()
      requires Valid()
      reads this, rtStack
    {
      !halted && Step(m, Abs()) != Stuck && Fits(Step(m, Abs()), rtStack.Length)
    }

    /** One turn of the loop of run(). */
    method Execute()
      requires Valid() && Enabled()
      modifies this`top, this`pc, this`env, this`halted, this`ending, rtStack
      ensures Valid() && Abs() == old(Step(m, Abs()))
    {
      hide RaiseError, Unwind, Handled, Apply, ApplyUn, FirstArg, NextArg, StepRange, Deliver, Test, Fits;
      var i := m.code[pc];
      if i.Push? || i.Put? || i.NumI? || i.Imm? || i.Pop? || i.BinI? || i.UnI? {
        ExecuteValue(i);
      } else if i.MakeEmptyList? || i.MakeSingleton? || i.CheckSplice? || i.AddTail? || i.AppendI? {
        ExecuteList(i);
      } else if i.AndI? || i.OrI? || i.IfQues? || i.IfI? || i.Eif? || i.WhileI? || i.WhileId? || i.Jump?
        || i.ForRange? {
        ExecuteBranch(i);
      } else {
        ExecuteControl(i);
      }
    }

    method ExecuteValue(i: Instr)
      requires Valid() && Enabled() && pc < |m.code| && i == m.code[pc]
      requires i.Push? || i.Put? || i.NumI? || i.Imm? || i.Pop? || i.BinI? || i.UnI?
      modifies this`top, this`pc, this`env, this`halted, this`ending, rtStack
      ensures Valid() && Abs() == old(Step(m, Abs()))
    {
      hide RaiseError, Unwind, Handled, Apply, ApplyUn, Deliver, Fits;
      match i
      case Push(slot) =>
        Settle(if Lookup(env, slot) == NoneV then Error(m.w, E_VARNF) else Val(Lookup(env, slot)), pc + 1);
      case Put(slot) =>
        env := env[slot := rtStack[top - 1].v];
        if m.fused && pc + 1 < |m.code| && m.code[pc + 1].Pop? {
          Drop(1);
          pc := pc + 2;
        } else {
          pc := pc + 1;
        }
      case NumI(n) => PushAndGo(V(IntV(n)));
      case Imm(v) =>
        if m.fused && pc + 1 < |m.code| && m.code[pc + 1].Pop? {
          pc := pc + 2;
        } else {
          PushAndGo(V(v));
        }
      case Pop =>
        Drop(1);
        pc := pc + 1;
      case BinI(op) =>
        var l, r := PopTwo();
        Settle(Apply(m.w, op, l.v, r.v), pc + 1);
      case UnI(op) =>
        var v := Pop();
        Settle(ApplyUn(m.w, op, v.v), pc + 1);
    }

    method PushAndGo(s: Slot)
      requires Valid() && !halted && Fits(Running(pc + 1, Stack() + [s], env), rtStack.Length)
      modifies this`top, this`pc, rtStack
      ensures Valid() && Abs() == old(Running(pc + 1, Stack() + [s], env))
    {
      Push(s);
      pc := pc + 1;
    }

    method ExecuteList(i: Instr)
      requires Valid() && Enabled() && pc < |m.code| && i == m.code[pc]
      requires i.MakeEmptyList? || i.MakeSingleton? || i.CheckSplice? || i.AddTail? || i.AppendI?
      modifies this`top, this`pc, this`env, this`halted, this`ending, rtStack
      ensures Valid() && Abs() == old(Step(m, Abs()))
    {
      hide RaiseError, Unwind, Handled, FirstArg, NextArg, Deliver, Fits;
      if i.MakeEmptyList? {
        PushAndGo(V(ListV([])));
      } else if i.MakeSingleton? || i.CheckSplice? {
        var v := Pop();
        Settle(FirstArg(m.w, i.CheckSplice?, v.v), pc + 1);
      } else {
        var list, v := PopTwo();
        Settle(NextArg(m.w, i.AppendI?, list.v, v.v), pc + 1);
      }
    }

    method ExecuteBranch(i: Instr)
      requires Valid() && Enabled() && pc < |m.code| && i == m.code[pc]
      requires i.AndI? || i.OrI? || i.IfQues? || i.IfI? || i.Eif? || i.WhileI? || i.WhileId? || i.Jump? || i.ForRange?
      modifies this`top, this`pc, this`env, this`halted, this`ending, rtStack
      ensures Valid() && Abs() == old(Step(m, Abs()))
    {
      hide RaiseError, Unwind, Handled, Fits, Truthy;
      match i
      case AndI(lab) => Keep(lab, !Truthy(rtStack[top - 1].v));
      case OrI(lab) => Keep(lab, Truthy(rtStack[top - 1].v));
      case WhileId(slot, lab) =>
        env := env[slot := rtStack[top - 1].v];
        Branch(lab);
      case Jump(lab) => pc := lab;
      case ForRange(slot, lab) => ExecuteRange(slot, lab);
      case IfQues(lab) => Branch(lab);
      case IfI(lab) => Branch(lab);
      case Eif(lab) => Branch(lab);
      case WhileI(lab) => Branch(lab);
    }

    /** AND and OR leave the value when they jump. */
    method Keep(lab: nat, jump: bool)
      requires Valid() && !halted && top > 0
      modifies this`top, this`pc
      ensures Valid()
      ensures Abs() == old(if jump then Running(lab, Stack(), env) else Running(pc + 1, Stack()[..top - 1], env))
    {
      if jump {
        pc := lab;
      } else {
        Drop(1);
        pc := pc + 1;
      }
    }

    method Branch(lab: nat)
      requires Valid() && !halted && top > 0 && rtStack[top - 1].V?
      modifies this`top, this`pc
      ensures Valid() && Abs() == old(Test(lab, pc + 1, Stack(), env))
    {
      var v := Pop();
      pc := if Truthy(v.v) then pc + 1 else lab;
    }

    /** FOR_RANGE moves one of the two bounds where they lie. */
    method ExecuteRange(slot: nat, lab: nat)
      requires Valid() && !halted && StepRange(m, slot, lab, pc + 1, Stack(), env) != Stuck
      requires Fits(StepRange(m, slot, lab, pc + 1, Stack(), env), rtStack.Length)
      modifies this`top, this`pc, this`env, this`halted, this`ending, rtStack
      ensures Valid() && Abs() == old(StepRange(m, slot, lab, pc + 1, Stack(), env))
    {
      hide RaiseError, Unwind, Handled;
      ghost var before := Stack();
      var from, to := rtStack[top - 2].v, rtStack[top - 1].v;
      if !(to.IntV? && from.IntV?) && !(to.ObjV? && from.ObjV?) {
        if m.w.debug {
          RaiseCode(E_TYPE);
        } else {
          Drop(2);
          pc := lab;
        }
      } else {
        var i, hi := if to.IntV? then from.num else from.obj, if to.IntV? then to.num else to.obj;
        if i > hi {
          Drop(2);
          pc := lab;
        } else {
          env := env[slot := from];
          if i < MAXINT {
            rtStack[top - 2] := V(Counter(to.IntV?, i + 1));
            assert Stack() == before[..|before| - 2] + [V(Counter(to.IntV?, i + 1)), V(to)];
          } else {
            rtStack[top - 1] := V(Counter(to.IntV?, hi - 1));
            assert Stack() == before[..|before| - 2] + [V(from), V(Counter(to.IntV?, hi - 1))];
          }
          pc := pc + 1;
        }
      }
    }

    method ExecuteControl(i: Instr)
      requires Valid() && Enabled() && pc < |m.code| && i == m.code[pc]
      requires || i.PushLabel? || i.CatchI? || i.TryExcept? || i.EndCatch? || i.EndExcept? || i.TryFinally?
          || i.EndFinally?
               || i.ContinueI? || i.Exit? || i.ExitId? || i.Return? || i.Return0? || i.Done?
      modifies this`top, this`pc, this`env, this`halted, this`ending, rtStack
      ensures Valid() && Abs() == old(Step(m, Abs()))
    {
      hide RaiseError, Unwind, Handled, Fits;
      if i.Exit? || i.ExitId? || i.Return0? || i.Done? {
        ExecuteExit(i);
        return;
      }
      match i
      case PushLabel(lab) => PushAndGo(L(lab));
      case CatchI => PushAndGo(CatchM(1));
      case TryExcept(n) => PushAndGo(CatchM(n));
      case TryFinally(lab) => PushAndGo(FinM(lab));
      case EndCatch(lab) => ExecuteEndCatch(lab);
      case EndExcept(lab) => ExecuteEndExcept(lab);
      case EndFinally => ExecuteEndFinally();
      case ContinueI => ExecuteContinue();
      case Return =>
        var v := Pop();
        UnwindStack(ReturnW, PVal(v.v));
    }

    method ExecuteExit(i: Instr)
      requires Valid() && Enabled() && pc < |m.code| && i == m.code[pc]
          && (i.Exit? || i.ExitId? || i.Return0? || i.Done?)
      modifies this`top, this`pc, this`halted, this`ending, rtStack
      ensures Valid() && Abs() == old(Step(m, Abs()))
    {
      hide RaiseError, Unwind, Handled, Fits;
      match i
      case Exit(depth, lab) => UnwindStack(ExitW, PExit(depth, lab));
      case ExitId(_, depth, lab) => UnwindStack(ExitW, PExit(depth, lab));
      case Return0 => UnwindStack(ReturnW, PVal(IntV(0)));
      case Done => UnwindStack(ReturnW, PVal(IntV(0)));
    }

    method ExecuteEndExcept(lab: nat)
      requires Valid() && !halted && top >= 1 && Stack()[top - 1].CatchM? && 2 * Stack()[top - 1].n <= top - 1
      modifies this`top, this`pc
      ensures Valid() && Abs() == old(Running(lab, Stack()[..top - 1 - 2 * Stack()[top - 1].n], env))
    {
      Drop(1 + 2 * rtStack[top - 1].n);
      pc := lab;
    }

    method ExecuteEndCatch(lab: nat)
      requires Valid() && !halted && top >= 4
      modifies this`top, this`pc, rtStack
      ensures Valid() && Abs() == old(Running(lab, Stack()[..top - 4] + [Stack()[top - 1]], env))
    {
      var v := Pop();
      Drop(3);
      Push(v);
      pc := lab;
    }

    /** EOP_CONTINUE takes up again what the FINALLY body interrupted. */
    method ExecuteContinue()
      requires Valid() && Enabled() && pc < |m.code| && m.code[pc].ContinueI?
      modifies this`top, this`pc, this`halted, this`ending, rtStack
      ensures Valid() && Abs() == old(Step(m, Abs()))
    {
      hide RaiseError, Unwind, Handled, Fits;
      var why, value := PopTwo();
      if why.why == FallThru {
        pc := pc + 1;
      } else {
        UnwindStack(why.why, value.pay);
      }
    }

    method ExecuteEndFinally()
      requires Valid() && !halted && top >= 1
      requires Fits(Running(pc + 1, Stack()[..top - 1] + [WhyS(FallThru), PayS(PVal(IntV(0)))], env), rtStack.Length)
      modifies this`top, this`pc, rtStack
      ensures Valid()
      ensures Abs() == old(Running(pc + 1, Stack()[..top - 1] + [WhyS(FallThru), PayS(PVal(IntV(0)))], env))
    {
      Drop(1);
      ghost var rest := Stack();
      Push(WhyS(FallThru));
      Push(PayS(PVal(IntV(0))));
      assert Stack() == rest + [WhyS(FallThru), PayS(PVal(IntV(0)))];
      pc := pc + 1;
    }

    /** run(): a compiled program on a stack of the recorded size, for at most so many ticks.  No push is
        checked, and none goes beyond the end of the array. */
    method Run(ghost s: Stmts, ticks: nat)
      requires Valid() && WellScoped(s, []) && m.code == Program(s) && rtStack.Length == MaxStack(s)
          && Abs() == Running(0, [], env)
      modifies this`top, this`pc, this`env, this`halted, this`ending, rtStack
      ensures Valid() && Abs() == Compiler.StateAfter(m, Running(0, [], old(env)), ticks)
      ensures halted ==> Compiler.Means(m.w, s, old(env), Abs())
    {
      hide Step, Program, Compiler.StateAfter, MaxStack, Compiler.Means;
      ghost var start := Abs();
      var n := 0;
      NoSteps(m, start);
      while n < ticks && !halted
        invariant Valid() && n <= ticks && Abs() == Compiler.StateAfter(m, start, n)
        decreases ticks - n
      {
        OneMore(m, start, n);
        Compiled(m, s, start.env, n + 1);
        Execute();
        n := n + 1;
      }
      if halted {
        Stays(m, start, n, ticks);
        Meant(m, s, start.env, n);
      }
    }
  }

  lemma NoSteps(m: Machine, c: Config)
    ensures Compiler.StateAfter(m, c, 0) == c
  {
  }

  lemma {:induction false} OneMore(m: Machine, c: Config, n: nat)
    requires Compiler.StateAfter(m, c, n).Running?
    ensures Compiler.StateAfter(m, c, n + 1) == Step(m, Compiler.StateAfter(m, c, n))
    decreases n
  {
    if n > 0 {
      OneMore(m, Step(m, c), n - 1);
    }
  }

  lemma Compiled(m: Machine, s: Stmts, env: Env, n: nat)
    requires WellScoped(s, []) && m.code == Program(s)
    ensures var c := Compiler.StateAfter(m, Running(0, [], env), n); c != Stuck && Fits(c, MaxStack(s))
  {
    Compiler.StackIsSafe(m.w, s, env, m.fused, n);
  }

  lemma Stays(m: Machine, c: Config, n: nat, k: nat)
    requires n <= k && !Compiler.StateAfter(m, c, n).Running?
    ensures Compiler.StateAfter(m, c, k) == Compiler.StateAfter(m, c, n)
  {
    Compiler.HaltsOnce(m, c, n, k);
  }

  lemma Meant(m: Machine, s: Stmts, env: Env, n: nat)
    requires WellScoped(s, []) && m.code == Program(s) && Compiler.StateAfter(m, Running(0, [], env), n).Halted?
    ensures Compiler.Means(m.w, s, env, Compiler.StateAfter(m, Running(0, [], env), n))
  {
    Compiler.CompilerIsCorrect(m.w, s, env, m.fused, Compiler.StateAfter(m, Running(0, [], env), n));
  }
}
