/** The core of the MOO language as the parser leaves it (ast.h): linked lists of statements, arms and
    arguments become the list-shaped datatypes below. */
module MooAst {
  import opened Options


  const MAXINT: int := 0x7fff_ffff
  const MININT: int := -0x8000_0000

  type Num = i: int | MININT <= i <= MAXINT

  /** The error codes of structures.h that the core raises by itself. */
  const E_TYPE: Value := ErrV(1)
  const E_VARNF: Value := ErrV(6)
  const E_RANGE: Value := ErrV(10)

  /** Other stands for floats, maps and anonymous objects, of which only the truth value matters here. */
  datatype Value =
    | NoneV
    | IntV(num: Num)
    | ObjV(obj: Num)
    | ErrV(err: nat)
    | StrV(str: string)
    | ListV(elems: seq<Value>)
    | Other(tag: nat, truth: bool)

  predicate Truthy(v: Value) {
    match v
    case IntV(n) => n != 0
    case StrV(s) => s != ""
    case ListV(l) => l != []
    case Other(_, t) => t
    case _ => false
  }

  datatype BinOp =
    | EqOp | NeOp | LtOp | LeOp | GtOp | GeOp | InOp
    | AddOp | SubOp | MulOp | DivOp | ModOp | ExpOp
    | BitOrOp | BitAndOp | BitXorOp | ShlOp | ShrOp | PropOp | IndexOp

  datatype UnOp = NegOp | NotOp | ComplementOp

  datatype Expr =
    | Lit(v: Value)
    | Id(slot: nat)
    | Bin(op: BinOp, lhs: Expr, rhs: Expr)
    | Un(uop: UnOp, arg: Expr)
    | And(lhs: Expr, rhs: Expr)
    | Or(lhs: Expr, rhs: Expr)
    | IfElse(cond: Expr, thn: Expr, els: Expr)
    | ListE(args: Args)
    | Assign(slot: nat, rhs: Expr)
    | CatchE(body: Expr, codes: Codes, except: Option<Expr>)

  datatype Args = ANil | ACons(splice: bool, e: Expr, rest: Args)

  /** The codes of a handler: ANY, or a list of expressions, which the parser never leaves empty. */
  datatype Codes = Any | Only(args: Args)

  datatype Stmt =
    | ExprS(e: Expr)
    | CondS(arms: Arms)
    | WhileS(id: Option<nat>, cond: Expr, body: Stmts)
    | RangeS(slot: nat, from: Expr, to: Expr, body: Stmts)
    | ReturnS(result: Option<Expr>)
    | TryExceptS(body: Stmts, excepts: Excepts)
    | TryFinallyS(body: Stmts, handler: Stmts)
    | BreakS(exit: Option<nat>)
    | ContinueS(exit: Option<nat>)

  datatype Stmts = SNil | SCons(head: Stmt, tail: Stmts)

  /** IF and ELSEIF arms, ending in the ELSE part, which may be empty. */
  datatype Arms = Else(body: Stmts) | Arm(cond: Expr, body: Stmts, rest: Arms)

  datatype Excepts = XNil | XCons(slot: Option<nat>, codes: Codes, body: Stmts, rest: Excepts)

  function CountExcepts(x: Excepts): nat {
    match x
    case XNil => 0
    case XCons(_, _, _, rest) => 1 + CountExcepts(rest)
  }

  /** break and continue name an enclosing loop: ids are the loop variables, outermost first. */
  predicate HasLoop(ids: seq<Option<nat>>, exit: Option<nat>) {
    match exit
    case None => ids != []
    case Some(_) => exit in ids
  }

  predicate WellScoped(s: Stmts, ids: seq<Option<nat>>) {
    match s
    case SNil => true
    case SCons(h, t) => WellScopedStmt(h, ids) && WellScoped(t, ids)
  }

  predicate WellScopedStmt(s: Stmt, ids: seq<Option<nat>>) {
    match s
    case CondS(arms) => WellScopedArms(arms, ids)
    case WhileS(id, _, body) => WellScoped(body, ids + [id])
    case RangeS(id, _, _, body) => WellScoped(body, ids + [Some(id)])
    case TryExceptS(body, excepts) => WellScoped(body, ids) && WellScopedExcepts(excepts, ids)
    case TryFinallyS(body, handler) => WellScoped(body, ids) && WellScoped(handler, ids)
    case BreakS(exit) => HasLoop(ids, exit)
    case ContinueS(exit) => HasLoop(ids, exit)
    case _ => true
  }

  predicate WellScopedArms(a: Arms, ids: seq<Option<nat>>) {
    match a
    case Else(body) => WellScoped(body, ids)
    case Arm(_, body, rest) => WellScoped(body, ids) && WellScopedArms(rest, ids)
  }

  predicate WellScopedExcepts(x: Excepts, ids: seq<Option<nat>>) {
    match x
    case XNil => true
    case XCons(_, _, body, rest) => WellScoped(body, ids) && WellScopedExcepts(rest, ids)
  }
}
