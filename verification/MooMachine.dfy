/** The virtual machine of execute.cc on one activation: the opcodes of the core, raising, and the
    unwinding of the run-time stack. */
module MooMachine {
  import opened Options
  import opened MooAst
  import opened MooSemantics
  import opened MooCode

  /** Why a FINALLY handler runs. */
  datatype Why = FallThru | Raise | Uncaught | ReturnW | ExitW

  datatype Pay = PVal(v: Value) | PExit(depth: nat, pc: nat)

  /** Handler addresses, reasons and what goes with them are integers and lists in execute.cc; markers
      have types of their own. */
  datatype Slot = V(v: Value) | L(pc: nat) | CatchM(n: nat) | FinM(pc: nat) | WhyS(why: Why) | PayS(pay: Pay)

  datatype Ending = Finished(v: Value) | Aborted

  datatype Config = Running(pc: nat, stack: seq<Slot>, env: Env) | Halted(ending: Ending, env: Env) | Stuck

  /** fused: IMM and PUT look ahead for POP, as run() does. */
  datatype Machine = Machine(w: World, code: seq<Instr>, fused: bool)

  predicate SlotMatches(s: Slot, code: Value) {
    s.V? ==> Matches(s.v, code)
  }

  /** The first of the pairs of codes and address that takes the code. */
  function FirstMatch(pairs: seq<Slot>, code: Value): (r: Option<nat>)
    requires |pairs| % 2 == 0
    ensures r.Some? ==> r.value + 1 < |pairs|
  {
    if pairs == [] then None
    else if SlotMatches(pairs[0], code) then Some(0)
    else
      var r := FirstMatch(pairs[2..], code);
      if r.Some? then Some(r.value + 2) else None
  }

  /** find_handler_activ on this activation. */
  predicate Handled(stack: seq<Slot>, code: Value)
    decreases |stack|
  {
    if stack == [] then false
    else
      var top, rest := stack[|stack| - 1], stack[..|stack| - 1];
      if top.CatchM? && 2 * top.n <= |rest| then
        var base := |rest| - 2 * top.n;
        FirstMatch(rest[base..], code).Some? || Handled(rest[..base], code)
      else Handled(rest, code)
  }

  /** unwind_stack on this activation. */
  function Unwind(why: Why, pay: Pay, stack: seq<Slot>, env: Env): Config
    decreases |stack|
  {
    if (why == ExitW) != pay.PExit? then Stuck
    else
      var goal := if why == ExitW then pay.depth else 0;
      if |stack| > goal then
        var top, rest := stack[|stack| - 1], stack[..|stack| - 1];
        if top.FinM? then Running(top.pc, rest + [WhyS(why), PayS(pay)], env)
        else if why == Raise && top.CatchM? then
          if 2 * top.n > |rest| || !(pay.v.ListV? && |pay.v.elems| > 0) then Stuck
          else
            var base := |rest| - 2 * top.n;
            var found := FirstMatch(rest[base..], pay.v.elems[0]);
            if found.None? then Unwind(why, pay, rest[..base], env)
            else
              var address := rest[base + found.value + 1];
              if address.L? then Running(address.pc, rest[..base] + [V(pay.v)], env) else Stuck
        else Unwind(why, pay, rest, env)
      else match why
        case ExitW => Running(pay.pc, stack, env)
        case ReturnW => Halted(Finished(pay.v), env)
        case _ => Halted(Aborted, env)
  }

  /** raise_error. */
  function RaiseError(code: Value, stack: seq<Slot>, env: Env): Config {
    if Handled(stack, code) then Unwind(Raise, PVal(Tuple(code)), stack, env)
    else Unwind(Uncaught, PVal(IntV(0)), stack, env)
  }

  /** The instruction leaves r on the stack, or raises it. */
  function Deliver(r: Result, next: nat, stack: seq<Slot>, env: Env): Config {
    match r
    case Val(v) => Running(next, stack + [V(v)], env)
    case Fail(c) => RaiseError(c, stack, env)
  }

  /** Codes and address in turn. */
  predicate ArePairs(pairs: seq<Slot>) {
    forall i :: 0 <= i < |pairs| ==> if i % 2 == 0 then pairs[i].V? else pairs[i].L?
  }

  /** A handler marker goes on top of its pairs. */
  predicate PairsBelow(stack: seq<Slot>, k: nat) {
    2 * k <= |stack| && ArePairs(stack[|stack| - 2 * k..])
  }

  predicate PopFollows(m: Machine, pc: nat) {
    m.fused && pc + 1 < |m.code| && m.code[pc + 1].Pop?
  }

  function Step(m: Machine, c: Config): Config
    requires c.Running?
  {
    var Running(pc, stack, env) := c;
    if pc >= |m.code| then Stuck
    else
      var n := |stack|;
      var next := pc + 1;
      match m.code[pc]
      case Push(slot) =>
        Deliver(if Lookup(env, slot) == NoneV then Error(m.w, E_VARNF) else Val(Lookup(env, slot)), next, stack, env)
      case Put(slot) =>
        if n < 1 || !stack[n - 1].V? then Stuck
        else if PopFollows(m, pc) then Running(pc + 2, stack[..n - 1], env[slot := stack[n - 1].v])
        else Running(next, stack, env[slot := stack[n - 1].v])
      case NumI(i) => Running(next, stack + [V(IntV(i))], env)
      case Imm(v) =>
        if PopFollows(m, pc) then Running(pc + 2, stack, env) else Running(next, stack + [V(v)], env)
      case Pop => if n < 1 then Stuck else Running(next, stack[..n - 1], env)
      case BinI(op) =>
        if n < 2 || !stack[n - 1].V? || !stack[n - 2].V? then Stuck
        else Deliver(Apply(m.w, op, stack[n - 2].v, stack[n - 1].v), next, stack[..n - 2], env)
      case UnI(op) =>
        if n < 1 || !stack[n - 1].V? then Stuck
        else Deliver(ApplyUn(m.w, op, stack[n - 1].v), next, stack[..n - 1], env)
      case AndI(lab) =>
        if n < 1 || !stack[n - 1].V? then Stuck
        else if !Truthy(stack[n - 1].v) then Running(lab, stack, env)
        else Running(next, stack[..n - 1], env)
      case OrI(lab) =>
        if n < 1 || !stack[n - 1].V? then Stuck
        else if Truthy(stack[n - 1].v) then Running(lab, stack, env)
        else Running(next, stack[..n - 1], env)
      case IfQues(lab) => Test(lab, next, stack, env)
      case IfI(lab) => Test(lab, next, stack, env)
      case Eif(lab) => Test(lab, next, stack, env)
      case WhileI(lab) => Test(lab, next, stack, env)
      case WhileId(slot, lab) =>
        if n < 1 || !stack[n - 1].V? then Stuck
        else Test(lab, next, stack, env[slot := stack[n - 1].v])
      case Jump(lab) => Running(lab, stack, env)
      case ForRange(slot, lab) => StepRange(m, slot, lab, next, stack, env)
      case MakeEmptyList => Running(next, stack + [V(ListV([]))], env)
      case MakeSingleton =>
        if n < 1 || !stack[n - 1].V? then Stuck
        else Deliver(FirstArg(m.w, false, stack[n - 1].v), next, stack[..n - 1], env)
      case CheckSplice =>
        if n < 1 || !stack[n - 1].V? then Stuck
        else Deliver(FirstArg(m.w, true, stack[n - 1].v), next, stack[..n - 1], env)
      case AddTail =>
        if n < 2 || !stack[n - 1].V? || !stack[n - 2].V? then Stuck
        else Deliver(NextArg(m.w, false, stack[n - 2].v, stack[n - 1].v), next, stack[..n - 2], env)
      case AppendI =>
        if n < 2 || !stack[n - 1].V? || !stack[n - 2].V? then Stuck
        else Deliver(NextArg(m.w, true, stack[n - 2].v, stack[n - 1].v), next, stack[..n - 2], env)
      case PushLabel(lab) => Running(next, stack + [L(lab)], env)
      case CatchI => if PairsBelow(stack, 1) then Running(next, stack + [CatchM(1)], env) else Stuck
      case TryExcept(k) => if PairsBelow(stack, k) then Running(next, stack + [CatchM(k)], env) else Stuck
      case EndCatch(lab) =>
        if n < 4 || !stack[n - 2].CatchM? || stack[n - 2].n != 1 || !stack[n - 1].V? then Stuck
        else Running(lab, stack[..n - 4] + [stack[n - 1]], env)
      case EndExcept(lab) =>
        if n < 1 || !stack[n - 1].CatchM? || 2 * stack[n - 1].n > n - 1 then Stuck
        else Running(lab, stack[..n - 1 - 2 * stack[n - 1].n], env)
      case TryFinally(lab) => Running(next, stack + [FinM(lab)], env)
      case EndFinally =>
        if n < 1 || !stack[n - 1].FinM? then Stuck
        else Running(next, stack[..n - 1] + [WhyS(FallThru), PayS(PVal(IntV(0)))], env)
      case ContinueI =>
        if n < 2 || !stack[n - 2].WhyS? || !stack[n - 1].PayS? then Stuck
        else if stack[n - 2].why == FallThru then Running(next, stack[..n - 2], env)
        else Unwind(stack[n - 2].why, stack[n - 1].pay, stack[..n - 2], env)
      case Exit(depth, lab) => Unwind(ExitW, PExit(depth, lab), stack, env)
      case ExitId(_, depth, lab) => Unwind(ExitW, PExit(depth, lab), stack, env)
      case Return =>
        if n < 1 || !stack[n - 1].V? then Stuck
        else Unwind(ReturnW, PVal(stack[n - 1].v), stack[..n - 1], env)
      case Return0 => Unwind(ReturnW, PVal(IntV(0)), stack, env)
      case Done => Unwind(ReturnW, PVal(IntV(0)), stack, env)
  }

  /** Pop the condition and jump if it is false. */
  function Test(lab: nat, next: nat, stack: seq<Slot>, env: Env): Config {
    var n := |stack|;
    if n < 1 || !stack[n - 1].V? then Stuck
    else Running(if Truthy(stack[n - 1].v) then next else lab, stack[..n - 1], env)
  }

  /** FOR_RANGE: the bounds stay on the stack; the counter is the lower one, and it is the upper one
      that moves once the lower one has reached MAXINT. */
  function StepRange(m: Machine, slot: nat, lab: nat, next: nat, stack: seq<Slot>, env: Env): Config {
    var n := |stack|;
    if n < 2 || !stack[n - 1].V? || !stack[n - 2].V? then Stuck
    else
      var from, to, base := stack[n - 2].v, stack[n - 1].v, stack[..n - 2];
      if !(to.IntV? && from.IntV?) && !(to.ObjV? && from.ObjV?) then
        if m.w.debug then RaiseError(E_TYPE, stack, env) else Running(lab, base, env)
      else
        var i, hi := if to.IntV? then from.num else from.obj, if to.IntV? then to.num else to.obj;
        if i > hi then Running(lab, base, env)
        else if i < MAXINT then
          Running(next, base + [V(Counter(to.IntV?, i + 1)), V(to)], env[slot := from])
        else
          Running(next, base + [V(from), V(Counter(to.IntV?, hi - 1))], env[slot := from])
  }
}
