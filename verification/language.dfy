/** The source language: the fragment that is compiled, and what it means. */
module Language {

  // ----- Abstract syntax ----------------------------------------------------

  datatype BinOp = Add | Sub | Mul | Div | Rem | Shl | Shr | BitAnd | BitOr | BitXor | Lt | Le | Gt | Ge | Eq | Ne
  datatype UnOp = Neg | BitNot

  datatype Expr =
    | NilLit
    | BoolLit(b: bool)
    | IntLit(n: int)
    | Name(name: string)
    | Bin(op: BinOp, lhs: Expr, rhs: Expr)
    | Un(uop: UnOp, arg: Expr)
    | And(lhs: Expr, rhs: Expr)
    | Or(lhs: Expr, rhs: Expr)
    | Assign(target: string, rhs: Expr)
    | OpAssign(op: BinOp, target: string, rhs: Expr)   // only for operators that are not comparisons

  datatype Stmt = ExprStmt(e: Expr) | If(branches: Branches) | While(cond: Expr, body: Block)
  datatype Block = Done | Then(first: Stmt, rest: Block)
  datatype Branches = NoElse | Else(otherwise: Block) | Branch(cond: Expr, then_: Block, others: Branches)

  /** A module: statements, and the last expression if its value is to be returned. */
  datatype Module = Module(code: Block, last: Option<Expr>)
  datatype Option<T> = None | Some(value: T)

  /** Literals fit an instruction operand; names are not empty. */
  predicate PlainExpr(e: Expr)
  {
    match e
    case NilLit => true
    case BoolLit(_) => true
    case IntLit(n) => -32768 <= n <= 32767
    case Name(x) => x != ""
    case Bin(_, l, r) => PlainExpr(l) && PlainExpr(r)
    case Un(_, a) => PlainExpr(a)
    case And(l, r) => PlainExpr(l) && PlainExpr(r)
    case Or(l, r) => PlainExpr(l) && PlainExpr(r)
    case Assign(x, r) => x != "" && PlainExpr(r)
    case OpAssign(_, x, r) => x != "" && PlainExpr(r)
  }

  predicate PlainStmt(s: Stmt)
  {
    match s
    case ExprStmt(e) => PlainExpr(e)
    case If(bs) => bs.Branch? && PlainBranches(bs)
    case While(c, b) => PlainExpr(c) && PlainBlock(b)
  }

  predicate PlainBlock(b: Block)
  {
    match b
    case Done => true
    case Then(s, rest) => PlainStmt(s) && PlainBlock(rest)
  }

  predicate PlainBranches(bs: Branches)
  {
    match bs
    case NoElse => true
    case Else(b) => PlainBlock(b)
    case Branch(c, b, rest) => PlainExpr(c) && PlainBlock(b) && PlainBranches(rest)
  }

  predicate PlainModule(m: Module)
  {
    PlainBlock(m.code) && (m.last.Some? ==> PlainExpr(m.last.value))
  }

  // ----- Values -------------------------------------------------------------

  /** Small ints are unboxed; any other object is known by a number only. */
  datatype Value = Nil | Bool(b: bool) | Int(n: int) | Object(id: int)
  datatype Outcome = Returns(v: Value) | Raises(exc: Value) | Undefined

  const SMALL_MIN := -0x4000_0000_0000_0000
  const SMALL_MAX := 0x3fff_ffff_ffff_ffff
  const INT64_MIN := -0x8000_0000_0000_0000
  const INT64_MAX := 0x7fff_ffff_ffff_ffff

  /** What lies outside the fragment: integer objects that are not small, bit operations,
      methods called for operands that are not small ints, and the exceptions raised. */
  datatype Runtime = Runtime(
    box: int -> Value,
    bits: (BinOp, int, int) -> Option<int>,
    method2: (BinOp, Value, Value) -> Outcome,
    method1: (UnOp, Value) -> Outcome,
    wrongComparison: Value,
    notBoolean: Value,
    base: map<string, Value>)

  /** Division as in C: truncation toward zero. */
  function Quotient(a: int, b: int): int
    requires b != 0
  {
    if a >= 0 then a / b else -((-a) / b)
  }

  function Compares(op: BinOp, a: int, b: int): bool
    requires op in {Lt, Le, Gt, Ge, Eq, Ne}
  {
    match op
    case Lt => a < b
    case Le => a <= b
    case Gt => a > b
    case Ge => a >= b
    case Eq => a == b
    case Ne => a != b
  }

  predicate IsComparison(op: BinOp) { op in {Lt, Le, Gt, Ge, Eq, Ne} }

  /** The result of integer arithmetic in the machine's word; none where C leaves it undefined. */
  function Arithmetic(rt: Runtime, op: BinOp, a: int, b: int): Option<int>
    requires !IsComparison(op)
  {
    var r := match op
      case Add => Some(a + b)
      case Sub => Some(a - b)
      case Mul => Some(a * b)
      case Div => if b == 0 then None else Some(Quotient(a, b))
      case Rem => if b == 0 then None else Some(a - b * Quotient(a, b))
      case _ => rt.bits(op, a, b);
    if r.Some? && INT64_MIN <= r.value <= INT64_MAX then r else None
  }

  function FromInt(rt: Runtime, n: int): Value
  {
    if SMALL_MIN <= n <= SMALL_MAX then Int(n) else rt.box(n)
  }

  function Operate(rt: Runtime, op: BinOp, l: Value, r: Value): Outcome
  {
    if IsComparison(op) then
      if l.Int? && r.Int? then Returns(Bool(Compares(op, l.n, r.n)))
      else match rt.method2(op, l, r)
        case Returns(v) => if v.Int? then Returns(Bool(Compares(op, v.n, 0))) else Raises(rt.wrongComparison)
        case other => other
    else if l.Int? && r.Int? then
      match Arithmetic(rt, op, l.n, r.n)
      case Some(n) => Returns(FromInt(rt, n))
      case None => Undefined
    else rt.method2(op, l, r)
  }

  function Operate1(rt: Runtime, op: UnOp, v: Value): Outcome
  {
    if v.Int? then Returns(FromInt(rt, if op.Neg? then -v.n else -v.n - 1)) else rt.method1(op, v)
  }

  // ----- Evaluation ---------------------------------------------------------

  /** The globals of the module, by name. */
  type Store = map<string, Value>

  /** A name that the module does not define may be one of the base module. */
  function Lookup(rt: Runtime, st: Store, x: string): Value
  {
    if x in st then st[x] else if x in rt.base then rt.base[x] else Nil
  }

  datatype Result = Ok(v: Value, st: Store) | Raised(exc: Value, st: Store) | Stuck

  function FromOutcome(o: Outcome, st: Store): Result
  {
    match o
    case Returns(v) => Ok(v, st)
    case Raises(e) => Raised(e, st)
    case Undefined => Stuck
  }

  function Eval(rt: Runtime, st: Store, e: Expr): Result
    decreases e, 0
  {
    match e
    case NilLit => Ok(Nil, st)
    case BoolLit(b) => Ok(Bool(b), st)
    case IntLit(n) => Ok(Int(n), st)
    case Name(x) => Ok(Lookup(rt, st, x), st)
    case Bin(op, l, r) => EvalBin(rt, Eval(rt, st, l), op, r)
    case Un(op, a) =>
      (match Eval(rt, st, a)
       case Ok(v, st1) => FromOutcome(Operate1(rt, op, v), st1)
       case other => other)
    case And(l, r) =>
      (match Eval(rt, st, l)
       case Ok(Bool(b), st1) => if b then Eval(rt, st1, r) else Ok(Bool(false), st1)
       case Ok(_, st1) => Raised(rt.notBoolean, st1)
       case other => other)
    case Or(l, r) =>
      (match Eval(rt, st, l)
       case Ok(Bool(b), st1) => if b then Ok(Bool(true), st1) else Eval(rt, st1, r)
       case Ok(_, st1) => Raised(rt.notBoolean, st1)
       case other => other)
    case Assign(x, r) => Stored(Eval(rt, st, r), x)
    case OpAssign(op, x, r) => Stored(EvalBin(rt, Ok(Lookup(rt, st, x), st), op, r), x)
  }

  function EvalBin(rt: Runtime, left: Result, op: BinOp, r: Expr): Result
    decreases r, 1
  {
    match left
    case Ok(v, st1) =>
      (match Eval(rt, st1, r)
       case Ok(w, st2) => FromOutcome(Operate(rt, op, v, w), st2)
       case other => other)
    case other => other
  }

  function Stored(res: Result, x: string): Result
  {
    match res
    case Ok(v, st) => Ok(v, st[x := v])
    case other => other
  }

  datatype Run = Normal(st: Store) | Failed(exc: Value, st: Store) | Halted | OutOfFuel

  function Exec(rt: Runtime, st: Store, s: Stmt, fuel: nat): Run
    decreases fuel, s
  {
    match s
    case ExprStmt(e) => EffectOf(Eval(rt, st, e))
    case If(bs) => ExecBranches(rt, st, bs, fuel)
    case While(c, b) =>
      match Eval(rt, st, c)
      case Ok(Bool(false), st1) => Normal(st1)
      case Ok(Bool(true), st1) =>
        (match ExecBlock(rt, st1, b, fuel)
         case Normal(st2) => if fuel == 0 then OutOfFuel else Exec(rt, st2, s, fuel - 1)
         case other => other)
      case Ok(_, st1) => Failed(rt.notBoolean, st1)
      case Raised(e, st1) => Failed(e, st1)
      case Stuck => Halted
  }

  function EffectOf(res: Result): Run
  {
    match res
    case Ok(_, st) => Normal(st)
    case Raised(e, st) => Failed(e, st)
    case Stuck => Halted
  }

  function ExecBlock(rt: Runtime, st: Store, b: Block, fuel: nat): Run
    decreases fuel, b
  {
    match b
    case Done => Normal(st)
    case Then(s, rest) =>
      match Exec(rt, st, s, fuel)
      case Normal(st1) => ExecBlock(rt, st1, rest, fuel)
      case other => other
  }

  function ExecBranches(rt: Runtime, st: Store, bs: Branches, fuel: nat): Run
    decreases fuel, bs
  {
    match bs
    case NoElse => Normal(st)
    case Else(b) => ExecBlock(rt, st, b, fuel)
    case Branch(c, b, rest) =>
      match Eval(rt, st, c)
      case Ok(Bool(true), st1) => ExecBlock(rt, st1, b, fuel)
      case Ok(Bool(false), st1) => ExecBranches(rt, st1, rest, fuel)
      case Ok(_, st1) => Failed(rt.notBoolean, st1)
      case Raised(e, st1) => Failed(e, st1)
      case Stuck => Halted
  }

  /** What running a module comes to: the value it returns, an exception, nothing defined (an
      arithmetic overflow or a division by zero), or no end after `fuel` iterations. */
  datatype Answer = Value(v: Value, st: Store) | Exception(exc: Value, st: Store) | NoMeaning | Unfinished

  function ExecModule(rt: Runtime, st: Store, m: Module, fuel: nat): Answer
  {
    match ExecBlock(rt, st, m.code, fuel)
    case Normal(st1) =>
      if m.last.None? then Answer.Value(Nil, st1)
      else (match Eval(rt, st1, m.last.value)
            case Ok(v, st2) => Answer.Value(v, st2)
            case Raised(e, st2) => Exception(e, st2)
            case Stuck => NoMeaning)
    case Failed(e, st1) => Exception(e, st1)
    case Halted => NoMeaning
    case OutOfFuel => Unfinished
  }

  // ----- Assigned names -----------------------------------------------------

  function Assigned(e: Expr): set<string>
  {
    match e
    case Bin(_, l, r) => Assigned(l) + Assigned(r)
    case Un(_, a) => Assigned(a)
    case And(l, r) => Assigned(l) + Assigned(r)
    case Or(l, r) => Assigned(l) + Assigned(r)
    case Assign(x, r) => {x} + Assigned(r)
    case OpAssign(_, x, r) => {x} + Assigned(r)
    case _ => {}
  }

  function AssignedStmt(s: Stmt): set<string>
  {
    match s
    case ExprStmt(e) => Assigned(e)
    case If(bs) => AssignedBranches(bs)
    case While(c, b) => if c == BoolLit(false) then {} else Assigned(c) + AssignedBlock(b)
  }

  function AssignedBlock(b: Block): set<string>
  {
    match b
    case Done => {}
    case Then(s, rest) => AssignedStmt(s) + AssignedBlock(rest)
  }

  function AssignedBranches(bs: Branches): set<string>
  {
    match bs
    case NoElse => {}
    case Else(b) => AssignedBlock(b)
    case Branch(c, b, rest) => Assigned(c) + AssignedBlock(b) + AssignedBranches(rest)
  }

  /** Names assigned anywhere in the module: they exist, as nil, before it runs. */
  function AssignedModule(m: Module): set<string>
  {
    AssignedBlock(m.code) + (if m.last.Some? then Assigned(m.last.value) else {})
  }
}
