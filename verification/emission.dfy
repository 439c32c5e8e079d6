/** What the code generator emits, as a function of the syntax tree. */
module Emission {
  import opened Language
  import opened Bytecode

  /** An instruction before it is laid out in bytes: jumps name labels. */
  datatype Instr = Plain(op: nat, operand: int) | ToLabel(op: nat, target: nat)

  /** An assembler: the instructions so far, where labels have been placed, the symbols. */
  datatype Program = Program(instrs: seq<Instr>, labels: seq<int>, symbols: seq<string>)

  /** Whether everything so far has fitted the instruction format, or what was the first thing
      that did not: the index of a name or a symbol, which is an error of the module, or the
      number of a label that a jump names, which ends the process. */
  datatype Status = Fine | TooManyNames | TooManyLabels

  /** The state of the generator: the assembler, the names of the module scope by index. */
  datatype Code = Code(prog: Program, names: seq<string>, status: Status)

  const UNPLACED := -1
  const MAX_INDEX := 65535
  const MAX_LABEL := 65535

  /** The first fault is the one that counts. */
  function Noted(s: Status, fits: bool, fault: Status): Status
  {
    if s.Fine? && !fits then fault else s
  }

  // ----- The assembler ------------------------------------------------------

  function Emit(c: Code, op: nat, operand: int): Code
  {
    c.(prog := c.prog.(instrs := c.prog.instrs + [Plain(op, operand)]))
  }

  function EmitJump(c: Code, op: nat, target: nat): Code
  {
    c.(prog := c.prog.(instrs := c.prog.instrs + [ToLabel(op, target)]),
       status := Noted(c.status, target <= MAX_LABEL, TooManyLabels))
  }

  function Prepare(c: Code): Code
  {
    c.(prog := c.prog.(labels := c.prog.labels + [UNPLACED]))
  }

  function Place(c: Code, target: nat): Code
    requires target < |c.prog.labels|
  {
    c.(prog := c.prog.(labels := c.prog.labels[target := |c.prog.instrs|]))
  }

  /** The first position of `x`, or the length if it is not there. */
  function IndexOf(xs: seq<string>, x: string): (i: nat)
    ensures i <= |xs| && (i < |xs| <==> x in xs) && (i < |xs| ==> xs[i] == x) && forall k :: 0 <= k < i ==> xs[k] != x
  {
    if xs == [] then 0 else if xs[0] == x then 0 else 1 + IndexOf(xs[1..], x)
  }

  function AddName(xs: seq<string>, x: string): (r: seq<string>)
    ensures xs <= r && x in r
  {
    if x in xs then xs else xs + [x]
  }

  /** The opcode with a one-byte or a two-byte index. */
  function Indexed(c: Code, narrow: nat, index: nat): Code
  {
    var c1 := if index <= 255 then Emit(c, narrow, index) else Emit(c, narrow + 1, index);
    c1.(status := Noted(c.status, index <= MAX_INDEX, TooManyNames))
  }

  // ----- Expressions --------------------------------------------------------

  /** PUSH leaves the value on the stack, EVAL does not. */
  datatype Action = Push | EvalOnly

  function OpcodeOf(op: BinOp): nat
  {
    match op
    case Add => ADD
    case Sub => 0x11
    case Mul => 0x12
    case Div => 0x13
    case Rem => 0x14
    case Shl => 0x15
    case Shr => 0x16
    case BitAnd => 0x17
    case BitOr => 0x18
    case BitXor => 0x19
    case Lt => CMP_LT
    case Le => 0x23
    case Gt => 0x24
    case Ge => 0x25
    case Eq => 0x26
    case Ne => CMP_NE
  }

  function OpcodeOf1(op: UnOp): nat
  {
    if op.Neg? then NEG else INV
  }

  /** Load a name: by index if the scope knows it, otherwise by symbol when it runs. */
  function LoadName(c: Code, x: string): Code
  {
    if x in c.names then Indexed(c, LD_GLOB, IndexOf(c.names, x))
    else
      var symbols := AddName(c.prog.symbols, x);
      Indexed(c.(prog := c.prog.(symbols := symbols)), LD_GLOB_Y, IndexOf(symbols, x))
  }

  /** Pop into a name, which is registered if it is new. */
  function Receive(c: Code, x: string): Code
  {
    var names := AddName(c.names, x);
    Indexed(c.(names := names), ST_GLOB, IndexOf(names, x))
  }

  function DropIf(c: Code, act: Action): Code
  {
    if act.EvalOnly? then Emit(c, DROP, 0) else c
  }

  function Literal(c: Code, act: Action, op: nat, operand: int): Code
  {
    if act.EvalOnly? then c else Emit(c, op, operand)
  }

  function CompileExpr(c: Code, e: Expr, act: Action): (r: Code)
    ensures |r.prog.labels| >= |c.prog.labels|
    decreases e, 1
  {
    match e
    case NilLit => Literal(c, act, LD_NIL, 0)
    case BoolLit(b) => Literal(c, act, LD_BOOL, if b then 1 else 0)
    case IntLit(n) => if -128 <= n <= 127 then Literal(c, act, LD_INT, n) else Literal(c, act, LD_INT_W, n)
    case Name(x) => if act.EvalOnly? then c else LoadName(c, x)
    case Bin(op, l, r) => CompileBin(CompileExpr(c, l, Push), op, r, act)
    case Un(op, a) => DropIf(Emit(CompileExpr(c, a, Push), OpcodeOf1(op), 0), act)
    case And(_, _) => CompileLogical(c, e, JMP_UNLS, act)
    case Or(_, _) => CompileLogical(c, e, JMP_WHEN, act)
    case Assign(x, r) => CompileStore(CompileExpr(c, r, Push), x, act)
    case OpAssign(op, x, r) => CompileStore(CompileBin(LoadName(c, x), op, r, Push), x, act)
  }

  /** The right operand and the operation; the left operand has been pushed already. */
  function CompileBin(c: Code, op: BinOp, r: Expr, act: Action): (d: Code)
    ensures |d.prog.labels| >= |c.prog.labels|
    decreases r, 2
  {
    DropIf(Emit(CompileExpr(c, r, Push), OpcodeOf(op), 0), act)
  }

  function CompileStore(c: Code, x: string, act: Action): (d: Code)
    ensures |d.prog.labels| >= |c.prog.labels|
  {
    Receive(if act.Push? then Emit(c, DUP, 0) else c, x)
  }

  function CompileLogical(c: Code, e: Expr, jump: nat, act: Action): (d: Code)
    requires e.And? || e.Or?
    ensures |d.prog.labels| >= |c.prog.labels|
    decreases e, 0
  {
    var end := |c.prog.labels|;
    var c1 := CompileExpr(Prepare(c), e.lhs, Push);
    var c2 := Emit(EmitJump(Emit(c1, DUP, 0), jump, end), DROP, 0);
    DropIf(Place(CompileExpr(c2, e.rhs, Push), end), act)
  }

  // ----- Statements ---------------------------------------------------------

  function CompileStmt(c: Code, s: Stmt): (r: Code)
    ensures |r.prog.labels| >= |c.prog.labels|
    decreases s
  {
    match s
    case ExprStmt(e) => CompileExpr(c, e, EvalOnly)
    case If(bs) =>
      var end := |c.prog.labels|;
      Place(CompileBranches(Prepare(c), bs, end), end)
    case While(cond, body) =>
      if cond == BoolLit(false) then c
      else
        var start, end := |c.prog.labels|, |c.prog.labels| + 1;
        var c1 := Prepare(Place(Prepare(c), start));
        if cond == BoolLit(true) then EmitJump(CompileBlock(c1, body), JMP, start)
        else
          var c2 := EmitJump(CompileExpr(c1, cond, Push), JMP_UNLS, end);
          Place(EmitJump(CompileBlock(c2, body), JMP, start), end)
  }

  function CompileBlock(c: Code, b: Block): (r: Code)
    ensures |r.prog.labels| >= |c.prog.labels|
    decreases b
  {
    match b
    case Done => c
    case Then(s, rest) => CompileBlock(CompileStmt(c, s), rest)
  }

  /** The branches of an if statement; `end` is the label after the last one. */
  function CompileBranches(c: Code, bs: Branches, end: nat): (r: Code)
    ensures |r.prog.labels| >= |c.prog.labels|
    decreases bs
  {
    match bs
    case NoElse => c
    case Else(b) => CompileBlock(c, b)
    case Branch(cond, b, rest) =>
      var next := |c.prog.labels|;
      var c1 := EmitJump(CompileExpr(Prepare(c), cond, Push), JMP_UNLS, next);
      var c2 := CompileBlock(c1, b);
      var c3 := if rest.NoElse? then c2 else EmitJump(c2, JMP, end);
      CompileBranches(Place(c3, next), rest, end)
  }

  /** The code of a module that has the globals `names` already. */
  function CompileModule(names: seq<string>, m: Module): Code
  {
    var c := CompileBlock(Code(Program([], [], []), names, Fine), m.code);
    var c1 := if m.last.Some? then Emit(CompileExpr(c, m.last.value, Push), RET, 0) else c;
    Emit(c1, RET_NIL, 0)
  }
}
