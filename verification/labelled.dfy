/** The machine at the level of instructions and labels. */
module Labelled {
  import opened Language
  import opened Bytecode
  import opened Emission

  // ----- One instruction ----------------------------------------------------

  /** What an instruction other than a jump does to the stack and the globals. */
  datatype Effect = Next(stack: seq<Value>, globals: seq<Value>) | Return(v: Value) | Throw(exc: Value) | Wrong

  function BinOpOf(op: nat): Option<BinOp>
  {
    if op == ADD then Some(Add)
    else if op == 0x11 then Some(Sub)
    else if op == 0x12 then Some(Mul)
    else if op == 0x13 then Some(Div)
    else if op == 0x14 then Some(Rem)
    else if op == 0x15 then Some(Shl)
    else if op == 0x16 then Some(Shr)
    else if op == 0x17 then Some(BitAnd)
    else if op == 0x18 then Some(BitOr)
    else if op == 0x19 then Some(BitXor)
    else if op == CMP_LT then Some(Lt)
    else if op == 0x23 then Some(Le)
    else if op == 0x24 then Some(Gt)
    else if op == 0x25 then Some(Ge)
    else if op == 0x26 then Some(Eq)
    else if op == CMP_NE then Some(Ne)
    else Option.None
  }

  function Global(globals: seq<Value>, n: int): Value
  {
    if 0 <= n < |globals| then globals[n] else Nil
  }

  /** A global by symbol: of the module, or of the base module, or nil. */
  function GlobalBySymbol(rt: Runtime, names: seq<string>, globals: seq<Value>, x: string): Value
  {
    if x in names then Global(globals, IndexOf(names, x)) else if x in rt.base then rt.base[x] else Nil
  }

  function Result1(o: Outcome, stack: seq<Value>, globals: seq<Value>): Effect
  {
    match o
    case Returns(v) => Next(stack + [v], globals)
    case Raises(e) => Throw(e)
    case Undefined => Wrong
  }

  function Execute(rt: Runtime, names: seq<string>, symbols: seq<string>, op: nat, n: int, stack: seq<Value>,
      globals: seq<Value>): Effect
  {
    var h := |stack|;
    if op == LD_NIL then Next(stack + [Nil], globals)
    else if op == LD_BOOL then Next(stack + [Bool(n != 0)], globals)
    else if op == LD_INT || op == LD_INT_W then Next(stack + [Int(n)], globals)
    else if op == LD_GLOB || op == LD_GLOB_W then Next(stack + [Global(globals, n)], globals)
    else if op == LD_GLOB_Y || op == LD_GLOB_Y_W then
      if 0 <= n < |symbols| then Next(stack + [GlobalBySymbol(rt, names, globals, symbols[n])], globals) else Wrong
    else if op == RET_NIL then Return(Nil)
    else if h < 1 then Wrong
    else if op == DROP then Next(stack[..h - 1], globals)
    else if op == DUP then Next(stack + [stack[h - 1]], globals)
    else if op == ST_GLOB || op == ST_GLOB_W then
      Next(stack[..h - 1], if 0 <= n < |globals| then globals[n := stack[h - 1]] else globals)
    else if op == RET then Return(stack[h - 1])
    else if op == NEG then Result1(Operate1(rt, Neg, stack[h - 1]), stack[..h - 1], globals)
    else if op == INV then Result1(Operate1(rt, BitNot, stack[h - 1]), stack[..h - 1], globals)
    else if BinOpOf(op).Some? && h >= 2 then
      Result1(Operate(rt, BinOpOf(op).value, stack[h - 2], stack[h - 1]), stack[..h - 2], globals)
    else Wrong
  }

  /** Whether a jump is taken: always, or on the Boolean on top of the stack. */
  datatype Choice = Take(stack: seq<Value>) | Pass(stack: seq<Value>) | Refuse | NoCondition

  function Decide(op: nat, stack: seq<Value>): Choice
  {
    var h := |stack|;
    if op == JMP then Take(stack)
    else if h < 1 then NoCondition
    else if !stack[h - 1].Bool? then Refuse
    else if op == JMP_WHEN then if stack[h - 1].b then Take(stack[..h - 1]) else Pass(stack[..h - 1])
    else if op == JMP_UNLS then if stack[h - 1].b then Pass(stack[..h - 1]) else Take(stack[..h - 1])
    else NoCondition
  }

  // ----- The machine --------------------------------------------------------

  datatype Vm = Running(pc: nat, stack: seq<Value>, globals: seq<Value>) | Finished(v: Value, globals: seq<Value>)
              | Threw(exc: Value, globals: seq<Value>) | Crashed

  function Step(rt: Runtime, p: Program, names: seq<string>, vm: Vm): Vm
  {
    if !vm.Running? then vm
    else if vm.pc >= |p.instrs| then Crashed
    else match p.instrs[vm.pc]
      case Plain(op, n) =>
        (match Execute(rt, names, p.symbols, op, n, vm.stack, vm.globals)
         case Next(stack, globals) => Running(vm.pc + 1, stack, globals)
         case Return(v) => Finished(v, vm.globals)
         case Throw(e) => Threw(e, vm.globals)
         case Wrong => Crashed)
      case ToLabel(op, l) =>
        if l >= |p.labels| || p.labels[l] < 0 then Crashed
        else match Decide(op, vm.stack)
          case Take(stack) => Running(p.labels[l], stack, vm.globals)
          case Pass(stack) => Running(vm.pc + 1, stack, vm.globals)
          case Refuse => Threw(rt.notBoolean, vm.globals)
          case NoCondition => Crashed
  }

  function Steps(rt: Runtime, p: Program, names: seq<string>, vm: Vm, n: nat): Vm
    decreases n
  {
    if n == 0 then vm else Steps(rt, p, names, Step(rt, p, names, vm), n - 1)
  }

  lemma {:induction false} StepsAdd(rt: Runtime, p: Program, names: seq<string>, vm: Vm, m: nat, n: nat)
    ensures Steps(rt, p, names, vm, m + n) == Steps(rt, p, names, Steps(rt, p, names, vm, m), n)
    decreases m
  {
    if m > 0 { StepsAdd(rt, p, names, Step(rt, p, names, vm), m - 1, n); }
  }

  // ----- Programs that contain generated code -------------------------------

  ghost predicate Distinct(xs: seq<string>)
  {
    forall j, k :: 0 <= j < k < |xs| ==> xs[j] != xs[k]
  }

  /** `p` and `names` go on where the generator was in state `c`. */
  ghost predicate Extends(p: Program, names: seq<string>, c: Code)
  {
    c.prog.instrs <= p.instrs && c.prog.symbols <= p.symbols && c.names <= names && |c.prog.labels| <= |p.labels| &&
    forall l {:trigger c.prog.labels[l]} ::
      0 <= l < |c.prog.labels| && c.prog.labels[l] >= 0 ==> p.labels[l] == c.prog.labels[l]
  }

  /** The generator only adds; labels that exist already are left alone. */
  ghost predicate Grown(c: Code, d: Code)
  {
    c.prog.instrs <= d.prog.instrs && c.prog.symbols <= d.prog.symbols && c.names <= d.names &&
      c.prog.labels <= d.prog.labels &&
    (!c.status.Fine? ==> d.status == c.status)
  }

  lemma GrownSame(c: Code)
    ensures Grown(c, c)
  {
  }

  lemma GrownTrans(c: Code, d: Code, e: Code)
    requires Grown(c, d) && Grown(d, e)
    ensures Grown(c, e)
  {
  }

  lemma ExtendsEarlier(p: Program, names: seq<string>, c: Code, d: Code)
    requires Grown(c, d) && Extends(p, names, d)
    ensures Extends(p, names, c)
  {
    forall l | 0 <= l < |c.prog.labels| && c.prog.labels[l] >= 0 ensures p.labels[l] == c.prog.labels[l] {
      assert d.prog.labels[l] == c.prog.labels[l];
    }
  }

  lemma EmitGrows(c: Code, op: nat, n: int, act: Action)
    ensures Grown(c, Emit(c, op, n)) && Grown(c, DropIf(c, act)) && Grown(c, Literal(c, act, op, n))
  {
  }

  lemma LoadNameGrows(c: Code, x: string)
    ensures Grown(c, LoadName(c, x))
  {
  }

  lemma StoreGrows(c: Code, x: string, act: Action)
    ensures Grown(c, CompileStore(c, x, act))
  {
  }

  lemma SmallSteps(c: Code, x: string, act: Action, op: nat, n: int)
    ensures Grown(c, Emit(c, op, n)) && Grown(c, DropIf(c, act)) && Grown(c, LoadName(c, x)) &&
      Grown(c, CompileStore(c, x, act)) && Grown(c, Literal(c, act, op, n))
  {
    hide Grown, Emit, DropIf, LoadName, CompileStore, Literal;
    EmitGrows(c, op, n, act);
    LoadNameGrows(c, x);
    StoreGrows(c, x, act);
  }

  lemma {:induction false} CompileExprGrows(c: Code, e: Expr, act: Action)
    ensures Grown(c, CompileExpr(c, e, act))
    decreases e, 1
  {
    hide Grown, Emit, DropIf, LoadName, CompileStore, CompileLogical, CompileBin, Literal;
    match e
    case NilLit => SmallSteps(c, "", act, LD_NIL, 0);
    case BoolLit(b) => SmallSteps(c, "", act, LD_BOOL, if b then 1 else 0);
    case IntLit(n) => SmallSteps(c, "", act, if -128 <= n <= 127 then LD_INT else LD_INT_W, n);
    case Name(x) => SmallSteps(c, x, act, 0, 0); GrownSame(c);
    case Bin(op, l, r) =>
      CompileExprGrows(c, l, Push);
      CompileBinGrows(CompileExpr(c, l, Push), op, r, act);
      GrownTrans(c, CompileExpr(c, l, Push), CompileExpr(c, e, act));
    case Un(op, a) =>
      CompileExprGrows(c, a, Push);
      var c1 := CompileExpr(c, a, Push);
      SmallSteps(c1, "", act, OpcodeOf1(op), 0);
      SmallSteps(Emit(c1, OpcodeOf1(op), 0), "", act, 0, 0);
      GrownTrans(c, c1, Emit(c1, OpcodeOf1(op), 0));
      GrownTrans(c, Emit(c1, OpcodeOf1(op), 0), CompileExpr(c, e, act));
    case And(_, _) => CompileLogicalGrows(c, e, JMP_UNLS, act);
    case Or(_, _) => CompileLogicalGrows(c, e, JMP_WHEN, act);
    case Assign(x, r) =>
      CompileExprGrows(c, r, Push);
      SmallSteps(CompileExpr(c, r, Push), x, act, 0, 0);
      GrownTrans(c, CompileExpr(c, r, Push), CompileExpr(c, e, act));
    case OpAssign(op, x, r) =>
      var c1 := LoadName(c, x);
      SmallSteps(c, x, act, 0, 0);
      CompileBinGrows(c1, op, r, Push);
      GrownTrans(c, c1, CompileBin(c1, op, r, Push));
      SmallSteps(CompileBin(c1, op, r, Push), x, act, 0, 0);
      GrownTrans(c, CompileBin(c1, op, r, Push), CompileExpr(c, e, act));
  }

  lemma {:induction false} CompileBinGrows(c: Code, op: BinOp, r: Expr, act: Action)
    ensures Grown(c, CompileBin(c, op, r, act))
    decreases r, 2
  {
    CompileExprGrows(c, r, Push);
  }

  lemma {:induction false} CompileLogicalGrows(c: Code, e: Expr, jump: nat, act: Action)
    requires e.And? || e.Or?
    ensures Grown(c, CompileLogical(c, e, jump, act))
    decreases e, 0
  {
    var end := |c.prog.labels|;
    var c1 := CompileExpr(Prepare(c), e.lhs, Push);
    CompileExprGrows(Prepare(c), e.lhs, Push);
    var c2 := Emit(EmitJump(Emit(c1, DUP, 0), jump, end), DROP, 0);
    CompileExprGrows(c2, e.rhs, Push);
  }

  lemma {:induction false} CompileStmtGrows(c: Code, s: Stmt)
    ensures Grown(c, CompileStmt(c, s))
    decreases s
  {
    match s
    case ExprStmt(e) => CompileExprGrows(c, e, EvalOnly);
    case If(bs) => CompileBranchesGrows(Prepare(c), bs, |c.prog.labels|);
    case While(cond, body) =>
      if cond != BoolLit(false) { CompileWhileGrows(c, s); }
  }

  lemma {:induction false} CompileWhileGrows(c: Code, s: Stmt)
    requires s.While? && s.cond != BoolLit(false)
    ensures Grown(c, CompileStmt(c, s))
    decreases s, 0
  {
    hide CompileExpr, CompileBlock;
    var start, end := |c.prog.labels|, |c.prog.labels| + 1;
    var c1 := Prepare(Place(Prepare(c), start));
    if s.cond == BoolLit(true) {
      CompileBlockGrows(c1, s.body);
    } else {
      CompileExprGrows(c1, s.cond, Push);
      CompileBlockGrows(EmitJump(CompileExpr(c1, s.cond, Push), JMP_UNLS, end), s.body);
    }
  }

  lemma {:induction false} CompileBlockGrows(c: Code, b: Block)
    ensures Grown(c, CompileBlock(c, b))
    decreases b
  {
    if b.Then? {
      CompileStmtGrows(c, b.first);
      CompileBlockGrows(CompileStmt(c, b.first), b.rest);
    }
  }

  lemma {:induction false} CompileBranchesGrows(c: Code, bs: Branches, end: nat)
    ensures Grown(c, CompileBranches(c, bs, end))
    decreases bs
  {
    match bs
    case NoElse =>
    case Else(b) => CompileBlockGrows(c, b);
    case Branch(cond, b, rest) =>
      var next := |c.prog.labels|;
      CompileExprGrows(Prepare(c), cond, Push);
      var c1 := EmitJump(CompileExpr(Prepare(c), cond, Push), JMP_UNLS, next);
      CompileBlockGrows(c1, b);
      var c2 := CompileBlock(c1, b);
      var c3 := if rest.NoElse? then c2 else EmitJump(c2, JMP, end);
      CompileBranchesGrows(Place(c3, next), rest, end);
  }
}
