/** What a MOO program means, read off its syntax tree: a big-step evaluator that knows nothing of
    opcodes, labels or stacks.  Only WHILE can fail to terminate, so only WHILE consumes fuel. */
module MooSemantics {
  import opened Options
  import opened MooAst

  datatype Result = Val(value: Value) | Fail(code: Value)

  /** What the core takes from outside: the verb's d flag and the primitive operators. */
  datatype World = World(debug: bool, bin: (BinOp, Value, Value) -> Result, un: (UnOp, Value) -> Result)

  type Env = map<nat, Value>

  function Lookup(env: Env, slot: nat): Value {
    if slot in env then env[slot] else NoneV
  }

  /** Without the d flag an error is the value of the operation that met it. */
  function Error(w: World, e: Value): Result {
    if w.debug then Fail(e) else Val(e)
  }

  function Settle(w: World, r: Result): Result {
    if r.Fail? then Error(w, r.code) else r
  }

  function Apply(w: World, op: BinOp, l: Value, r: Value): Result {
    if op == IndexOp && l.ListV? && r.IntV? then
      if 1 <= r.num <= |l.elems| then Val(l.elems[r.num - 1]) else Error(w, E_RANGE)
    else
      Settle(w, w.bin(op, l, r))
  }

  function ApplyUn(w: World, op: UnOp, v: Value): Result {
    Settle(w, w.un(op, v))
  }

  /** An argument list grows from its first argument. */
  function FirstArg(w: World, splice: bool, v: Value): Result {
    if !splice then Val(ListV([v])) else if v.ListV? then Val(v) else Error(w, E_TYPE)
  }

  function NextArg(w: World, splice: bool, list: Value, v: Value): Result {
    if !list.ListV? || (splice && !v.ListV?) then Error(w, E_TYPE)
    else if splice then Val(ListV(list.elems + v.elems))
    else Val(ListV(list.elems + [v]))
  }

  /** The tuple a handler receives; message, value and traceback are not modelled. */
  function Tuple(code: Value): Value {
    ListV([code, StrV(""), IntV(0), ListV([])])
  }

  /** A handler whose codes are not a list takes everything. */
  predicate Matches(codes: Value, code: Value) {
    !codes.ListV? || code in codes.elems
  }

  function Eval(w: World, e: Expr, env: Env): (Result, Env)
    decreases e
  {
    match e
    case Lit(v) => (Val(v), env)
    case Id(slot) =>
      (if Lookup(env, slot) == NoneV then Error(w, E_VARNF) else Val(Lookup(env, slot)), env)
    case Bin(op, l, r) =>
      var (v1, env1) := Eval(w, l, env);
      if v1.Fail? then (v1, env1)
      else
        var (v2, env2) := Eval(w, r, env1);
        if v2.Fail? then (v2, env2) else (Apply(w, op, v1.value, v2.value), env2)
    case Un(op, a) =>
      var (v, env1) := Eval(w, a, env);
      if v.Fail? then (v, env1) else (ApplyUn(w, op, v.value), env1)
    case And(l, r) =>
      var (v, env1) := Eval(w, l, env);
      if v.Fail? || !Truthy(v.value) then (v, env1) else Eval(w, r, env1)
    case Or(l, r) =>
      var (v, env1) := Eval(w, l, env);
      if v.Fail? || Truthy(v.value) then (v, env1) else Eval(w, r, env1)
    case IfElse(c, t, f) =>
      var (v, env1) := Eval(w, c, env);
      if v.Fail? then (v, env1) else if Truthy(v.value) then Eval(w, t, env1) else Eval(w, f, env1)
    case ListE(args) => EvalArgs(w, args, env)
    case Assign(slot, r) =>
      var (v, env1) := Eval(w, r, env);
      if v.Fail? then (v, env1) else (v, env1[slot := v.value])
    case CatchE(body, codes, except) =>
      var (cs, env1) := EvalCodes(w, codes, env);
      if cs.Fail? then (cs, env1)
      else
        var (v, env2) := Eval(w, body, env1);
        if v.Val? || !Matches(cs.value, v.code) then (v, env2)
        else match except
          case None => (Val(v.code), env2)
          case Some(d) => Eval(w, d, env2)
  }

  function EvalArgs(w: World, args: Args, env: Env): (Result, Env)
    decreases args
  {
    match args
    case ANil => (Val(ListV([])), env)
    case ACons(splice, e, rest) =>
      var (v, env1) := Eval(w, e, env);
      if v.Fail? then (v, env1)
      else
        var l := FirstArg(w, splice, v.value);
        if l.Fail? then (l, env1) else EvalMore(w, rest, l.value, env1)
  }

  function EvalMore(w: World, args: Args, list: Value, env: Env): (Result, Env)
    decreases args
  {
    match args
    case ANil => (Val(list), env)
    case ACons(splice, e, rest) =>
      var (v, env1) := Eval(w, e, env);
      if v.Fail? then (v, env1)
      else
        var l := NextArg(w, splice, list, v.value);
        if l.Fail? then (l, env1) else EvalMore(w, rest, l.value, env1)
  }

  function EvalCodes(w: World, codes: Codes, env: Env): (Result, Env)
    decreases codes
  {
    match codes
    case Any => (Val(IntV(0)), env)
    case Only(args) => EvalArgs(w, args, env)
  }

  datatype Outcome =
    | Normal
    | Raised(code: Value)
    | Returned(value: Value)
    | Broke(exit: Option<nat>)
    | Continued(exit: Option<nat>)
    | Timeout

  /** A break or continue is for this loop if it names no loop or names this one. */
  predicate ForThisLoop(exit: Option<nat>, id: Option<nat>) {
    exit == None || exit == id
  }

  function Exec(w: World, s: Stmts, env: Env, fuel: nat): (Outcome, Env)
    decreases fuel, s, 1, 0
  {
    match s
    case SNil => (Normal, env)
    case SCons(h, t) =>
      var (o, env1) := ExecStmt(w, h, env, fuel);
      if o == Normal then Exec(w, t, env1, fuel) else (o, env1)
  }

  function ExecStmt(w: World, s: Stmt, env: Env, fuel: nat): (Outcome, Env)
    decreases fuel, s, 1, 0
  {
    match s
    case ExprS(e) =>
      var (v, env1) := Eval(w, e, env);
      (if v.Fail? then Raised(v.code) else Normal, env1)
    case CondS(arms) => ExecArms(w, arms, env, fuel)
    case WhileS(id, cond, body) =>
      if fuel == 0 then (Timeout, env)
      else
        var (v, env1) := Eval(w, cond, env);
        if v.Fail? then (Raised(v.code), env1)
        else
          var env2 := if id.Some? then env1[id.value := v.value] else env1;
          if !Truthy(v.value) then (Normal, env2)
          else
            var (o, env3) := Exec(w, body, env2, fuel);
            if o == Normal || (o.Continued? && ForThisLoop(o.exit, id)) then ExecStmt(w, s, env3, fuel - 1)
            else if o.Broke? && ForThisLoop(o.exit, id) then (Normal, env3)
            else (o, env3)
    case RangeS(slot, from, to, body) =>
      var (v1, env1) := Eval(w, from, env);
      if v1.Fail? then (Raised(v1.code), env1)
      else
        var (v2, env2) := Eval(w, to, env1);
        if v2.Fail? then (Raised(v2.code), env2)
        else if v1.value.IntV? && v2.value.IntV? then
          ExecRange(w, s, true, v1.value.num, v2.value.num, env2, fuel)
        else if v1.value.ObjV? && v2.value.ObjV? then
          ExecRange(w, s, false, v1.value.obj, v2.value.obj, env2, fuel)
        else (if w.debug then Raised(E_TYPE) else Normal, env2)
    case ReturnS(None) => (Returned(IntV(0)), env)
    case ReturnS(Some(e)) =>
      var (v, env1) := Eval(w, e, env);
      (if v.Fail? then Raised(v.code) else Returned(v.value), env1)
    case TryExceptS(body, excepts) =>
      var (r, cs, env1) := EvalAllCodes(w, excepts, env);
      if r.Fail? then (Raised(r.code), env1)
      else
        var (o, env2) := Exec(w, body, env1, fuel);
        if o.Raised? then ExecHandler(w, excepts, cs, o.code, env2, fuel) else (o, env2)
    case TryFinallyS(body, handler) =>
      var (o, env1) := Exec(w, body, env, fuel);
      if o == Timeout then (o, env1)
      else
        var (h, env2) := Exec(w, handler, env1, fuel);
        (if h == Normal then o else h, env2)
    case BreakS(exit) => (Broke(exit), env)
    case ContinueS(exit) => (Continued(exit), env)
  }

  function ExecArms(w: World, arms: Arms, env: Env, fuel: nat): (Outcome, Env)
    decreases fuel, arms, 0, 0
  {
    match arms
    case Else(body) => Exec(w, body, env, fuel)
    case Arm(cond, body, rest) =>
      var (v, env1) := Eval(w, cond, env);
      if v.Fail? then (Raised(v.code), env1)
      else if Truthy(v.value) then Exec(w, body, env1, fuel)
      else ExecArms(w, rest, env1, fuel)
  }

  function Counter(isInt: bool, i: Num): Value {
    if isInt then IntV(i) else ObjV(i)
  }

  /** The body once for every i from i to hi. */
  function ExecRange(w: World, s: Stmt, isInt: bool, i: int, hi: Num, env: Env, fuel: nat): (Outcome, Env)
    requires s.RangeS? && MININT <= i
    decreases fuel, s, 0, hi - i + 1
  {
    if i > hi then (Normal, env)
    else
      var (o, env1) := Exec(w, s.body, env[s.slot := Counter(isInt, i)], fuel);
      if o == Normal || (o.Continued? && ForThisLoop(o.exit, Some(s.slot))) then
        ExecRange(w, s, isInt, i + 1, hi, env1, fuel)
      else if o.Broke? && ForThisLoop(o.exit, Some(s.slot)) then (Normal, env1)
      else (o, env1)
  }

  /** The codes of every handler, first to last; a failure among them is outside the protected body. */
  function EvalAllCodes(w: World, x: Excepts, env: Env): (r: (Result, seq<Value>, Env))
    ensures r.0.Val? ==> |r.1| == CountExcepts(x)
    decreases x
  {
    match x
    case XNil => (Val(NoneV), [], env)
    case XCons(_, codes, _, rest) =>
      var (c, env1) := EvalCodes(w, codes, env);
      if c.Fail? then (c, [], env1)
      else
        var (r, cs, env2) := EvalAllCodes(w, rest, env1);
        (r, [c.value] + cs, env2)
  }

  /** The first handler that takes the code runs; if none does the error goes on. */
  function ExecHandler(w: World, x: Excepts, cs: seq<Value>, code: Value, env: Env, fuel: nat): (Outcome, Env)
    requires |cs| == CountExcepts(x)
    decreases fuel, x, 0, 0
  {
    match x
    case XNil => (Raised(code), env)
    case XCons(slot, _, body, rest) =>
      if Matches(cs[0], code) then
        Exec(w, body, if slot.Some? then env[slot.value := Tuple(code)] else env, fuel)
      else ExecHandler(w, rest, cs[1..], code, env, fuel)
  }
}
