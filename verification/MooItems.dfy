/** Code as code_gen.cc writes it before relocation: opcode bytes, and one placeholder byte for every
    operand whose width is not known yet. */
module MooItems {
  import opened MooAst
  import opened MooCode

  type Byte = i: int | 0 <= i < 256

  /** A label operand is the place of its target among the items. */
  datatype Operand = LiteralRef(v: Value) | LabelRef(at: nat) | VarRef(slot: nat) | StackRef(depth: nat)

  datatype Item = Raw(b: Byte) | Arg(operand: Operand)

  // Numbers of opcode.h, with BYTECODE_REDUCE_REF.
  const NUM_READY_VARS: int := 32
  const OP_IF: Byte := 0
  const OP_WHILE: Byte := 1
  const OP_EIF: Byte := 2
  const OP_FOR_RANGE: Byte := 6
  const OP_GET_PROP: Byte := 9
  const OP_IF_QUES: Byte := 13
  const OP_REF: Byte := 14
  const OP_MAKE_SINGLETON_LIST: Byte := 16
  const OP_CHECK_LIST_FOR_SPLICE: Byte := 17
  const OP_AND: Byte := 30
  const OP_OR: Byte := 31
  const OP_UNARY_MINUS: Byte := 32
  const OP_NOT: Byte := 33
  const OP_PUT: Byte := 34
  const OP_PUSH: Byte := 67
  const OP_IMM: Byte := 133
  const OP_MAKE_EMPTY_LIST: Byte := 134
  const OP_LIST_ADD_TAIL: Byte := 135
  const OP_LIST_APPEND: Byte := 136
  const OP_JUMP: Byte := 140
  const OP_RETURN: Byte := 141
  const OP_RETURN0: Byte := 142
  const OP_DONE: Byte := 143
  const OP_POP: Byte := 144
  const OP_EXTENDED: Byte := 145
  const OPTIM_NUM_START: Byte := 148
  const EOP_PUSH_LABEL: Byte := 4
  const EOP_END_CATCH: Byte := 5
  const EOP_END_EXCEPT: Byte := 6
  const EOP_END_FINALLY: Byte := 7
  const EOP_CONTINUE: Byte := 8
  const EOP_CATCH: Byte := 9
  const EOP_TRY_EXCEPT: Byte := 10
  const EOP_TRY_FINALLY: Byte := 11
  const EOP_WHILE_ID: Byte := 12
  const EOP_EXIT: Byte := 13
  const EOP_EXIT_ID: Byte := 14
  const EOP_COMPLEMENT: Byte := 24

  /** The opcode of a binary operator, and whether it is an extended one. */
  function BinByte(op: BinOp): (bool, Byte) {
    match op
    case MulOp => (false, 18) case DivOp => (false, 19) case ModOp => (false, 20)
    case AddOp => (false, 21) case SubOp => (false, 22)
    case EqOp => (false, 23) case NeOp => (false, 24) case LtOp => (false, 25)
    case LeOp => (false, 26) case GtOp => (false, 27) case GeOp => (false, 28) case InOp => (false, 29)
    case PropOp => (false, OP_GET_PROP) case IndexOp => (false, OP_REF)
    case ExpOp => (true, 16) case BitOrOp => (true, 19) case BitAndOp => (true, 20)
    case BitXorOp => (true, 21) case ShlOp => (true, 22) case ShrOp => (true, 23)
  }

  function Op(extended: bool, b: Byte): seq<Item> {
    if extended then [Raw(OP_EXTENDED), Raw(b)] else [Raw(b)]
  }

  /** PUT and PUSH have one opcode for each of the first variables. */
  function VarOp(op: Byte, slot: nat): seq<Item>
    requires op == OP_PUT || op == OP_PUSH
  {
    if slot >= NUM_READY_VARS then [Raw(op + NUM_READY_VARS), Arg(VarRef(slot))] else [Raw(op + slot)]
  }

  /** The items of an instruction whose label, if it has one, is at the given place. */
  function Shape(i: Instr, at: nat): seq<Item> {
    match i
    case Push(slot) => VarOp(OP_PUSH, slot)
    case Put(slot) => VarOp(OP_PUT, slot)
    case NumI(n) => [Raw((OPTIM_NUM_START + n - OPTIM_NUM_LOW) % 256)]
    case Imm(v) => [Raw(OP_IMM), Arg(LiteralRef(v))]
    case Pop => [Raw(OP_POP)]
    case BinI(op) => Op(BinByte(op).0, BinByte(op).1)
    case UnI(op) =>
      (match op
       case NegOp => [Raw(OP_UNARY_MINUS)]
       case NotOp => [Raw(OP_NOT)]
       case ComplementOp => Op(true, EOP_COMPLEMENT))
    case AndI(_) => [Raw(OP_AND), Arg(LabelRef(at))]
    case OrI(_) => [Raw(OP_OR), Arg(LabelRef(at))]
    case IfQues(_) => [Raw(OP_IF_QUES), Arg(LabelRef(at))]
    case IfI(_) => [Raw(OP_IF), Arg(LabelRef(at))]
    case Eif(_) => [Raw(OP_EIF), Arg(LabelRef(at))]
    case WhileI(_) => [Raw(OP_WHILE), Arg(LabelRef(at))]
    case WhileId(slot, _) => Op(true, EOP_WHILE_ID) + [Arg(VarRef(slot)), Arg(LabelRef(at))]
    case Jump(_) => [Raw(OP_JUMP), Arg(LabelRef(at))]
    case ForRange(slot, _) => [Raw(OP_FOR_RANGE), Arg(VarRef(slot)), Arg(LabelRef(at))]
    case MakeEmptyList => [Raw(OP_MAKE_EMPTY_LIST)]
    case MakeSingleton => [Raw(OP_MAKE_SINGLETON_LIST)]
    case CheckSplice => [Raw(OP_CHECK_LIST_FOR_SPLICE)]
    case AddTail => [Raw(OP_LIST_ADD_TAIL)]
    case AppendI => [Raw(OP_LIST_APPEND)]
    case PushLabel(_) => Op(true, EOP_PUSH_LABEL) + [Arg(LabelRef(at))]
    case CatchI => Op(true, EOP_CATCH)
    case EndCatch(_) => Op(true, EOP_END_CATCH) + [Arg(LabelRef(at))]
    case TryExcept(n) => Op(true, EOP_TRY_EXCEPT) + [Raw(n % 256)]
    case EndExcept(_) => Op(true, EOP_END_EXCEPT) + [Arg(LabelRef(at))]
    case TryFinally(_) => Op(true, EOP_TRY_FINALLY) + [Arg(LabelRef(at))]
    case EndFinally => Op(true, EOP_END_FINALLY)
    case ContinueI => Op(true, EOP_CONTINUE)
    case Exit(depth, _) => Op(true, EOP_EXIT) + [Arg(StackRef(depth)), Arg(LabelRef(at))]
    case ExitId(slot, depth, _) => Op(true, EOP_EXIT_ID) + [Arg(VarRef(slot)), Arg(StackRef(depth)), Arg(LabelRef(at))]
    case Return => [Raw(OP_RETURN)]
    case Return0 => [Raw(OP_RETURN0)]
    case Done => [Raw(OP_DONE)]
  }

  predicate HasLabel(i: Instr) {
    || i.AndI? || i.OrI? || i.IfQues? || i.IfI? || i.Eif? || i.WhileI? || i.WhileId? || i.Jump? || i.ForRange?
    || i.PushLabel? || i.EndCatch? || i.EndExcept? || i.TryFinally? || i.Exit? || i.ExitId?
  }

  function LabelOf(i: Instr): nat {
    if HasLabel(i) then i.lab else 0
  }

  function Width(i: Instr): nat {
    |Shape(i, 0)|
  }

  lemma ShapeWidth(i: Instr, at: nat)
    ensures |Shape(i, at)| == Width(i) >= 1
  {
  }

  /** Where the k-th instruction starts. */
  function Pos(code: seq<Instr>, k: nat): nat {
    if code == [] || k == 0 then 0 else Width(code[0]) + Pos(code[1..], k - 1)
  }

  /** The items of code, with labels resolved against the whole program. */
  function Flat(code: seq<Instr>, program: seq<Instr>): seq<Item> {
    if code == [] then [] else Shape(code[0], Pos(program, LabelOf(code[0]))) + Flat(code[1..], program)
  }

  lemma {:induction false} FlatAt(code: seq<Instr>, program: seq<Instr>, k: nat)
    requires k < |code|
    ensures var items, p, shape := Flat(code, program), Pos(code, k), Shape(code[k], Pos(program, LabelOf(code[k])));
            && p + |shape| <= |items| && items[p..p + |shape|] == shape && Pos(code, k + 1) == p + |shape|
    decreases |code|
  {
    hide Shape;
    ShapeWidth(code[0], Pos(program, LabelOf(code[0])));
    var first, rest := Shape(code[0], Pos(program, LabelOf(code[0]))), Flat(code[1..], program);
    assert Flat(code, program) == first + rest;
    if k == 0 {
      assert Pos(code, 1) == Width(code[0]) + Pos(code[1..], 0);
      assert (first + rest)[..|first|] == first;
    } else {
      FlatAt(code[1..], program, k - 1);
      var p, shape := Pos(code[1..], k - 1), Shape(code[k], Pos(program, LabelOf(code[k])));
      assert (first + rest)[|first| + p..|first| + p + |shape|] == rest[p..p + |shape|];
    }
  }

  lemma {:induction false} FlatSize(code: seq<Instr>, program: seq<Instr>)
    ensures |Flat(code, program)| == Pos(code, |code|)
    decreases |code|
  {
    hide Shape;
    if code != [] {
      ShapeWidth(code[0], Pos(program, LabelOf(code[0])));
      FlatSize(code[1..], program);
    }
  }

  lemma {:induction false} PosMonotone(code: seq<Instr>, j: nat, k: nat)
    requires j <= k
    ensures Pos(code, j) <= Pos(code, k)
    decreases k
  {
    if code != [] && j > 0 {
      PosMonotone(code[1..], j - 1, k - 1);
    }
  }
}
