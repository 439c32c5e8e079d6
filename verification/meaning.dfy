/** What the operations on small ints compute, said without the functions that the two semantics share. */
module Meaning {
  import opened Language
  import opened Bytecode
  import opened Emission
  import opened Labelled
  import opened Assembling
  import opened ByteMachine
  import opened Wellformed
  import opened Correctness
  import opened Compiled

  // ----- Numbers ------------------------------------------------------------

  predicate SmallNumber(n: int) { -4611686018427387904 <= n <= 4611686018427387903 }
  predicate WordNumber(n: int) { -9223372036854775808 <= n <= 9223372036854775807 }

  predicate IsArithmetic(op: BinOp) { op in {Add, Sub, Mul, Div, Rem} }

  /** What is left of `a` when it has been divided by `b`: closer to zero than `b`, and on the side of `a`. */
  predicate LeftOver(a: int, b: int, left: int)
  {
    -(if b < 0 then -b else b) < left < (if b < 0 then -b else b) && (left == 0 || (left > 0 <==> a > 0))
  }

  /** What the result of an operation has to do with its operands. */
  ghost predicate Computes(op: BinOp, a: int, b: int, r: int)
    requires IsArithmetic(op)
  {
    match op
    case Add => r - b == a
    case Sub => r + b == a
    case Mul => r == a * b
    case Div => b != 0 && LeftOver(a, b, a - b * r)
    case Rem => b != 0 && LeftOver(a, b, r) && exists q: int :: a == b * q + r
    case _ => false
  }

  predicate DividesByZero(op: BinOp, b: int) { (op == Div || op == Rem) && b == 0 }

  /** There is such a result, unless something is divided by zero, and only one. */
  lemma {:induction false} OneResult(op: BinOp, a: int, b: int, r: int, s: int)
    requires IsArithmetic(op) && Computes(op, a, b, r) && Computes(op, a, b, s)
    ensures r == s
  {
    if op == Div {
      OneQuotient(a, b, r, s);
    } else if op == Rem {
      var p: int :| a == b * p + r;
      var q: int :| a == b * q + s;
      OneQuotient(a, b, p, q);
    }
  }

  /** Two multiples of `b` that are both that close to `a` are the same. */
  lemma OneQuotient(a: int, b: int, p: int, q: int)
    requires b != 0 && LeftOver(a, b, a - b * p) && LeftOver(a, b, a - b * q)
    ensures p == q
  {
    if p > q { Spread(b, p, q); } else if q > p { Spread(b, q, p); }
  }

  /** Different multiples of `b` are at least that far apart. */
  lemma Spread(b: int, p: int, q: int)
    requires p > q
    ensures b > 0 ==> b * p - b * q >= b
    ensures b < 0 ==> b * p - b * q <= b
  {
    Grows(b, p - q);
    assert b * (p - q) == b * p - b * q;
  }

  lemma Grows(b: int, d: int)
    requires d >= 1
    ensures b > 0 ==> b * d >= b
    ensures b < 0 ==> b * d <= b
  {
  }

  // ----- One instruction ----------------------------------------------------

  function Number(op: BinOp): nat
  {
    match op
    case Add => 16 case Sub => 17 case Mul => 18 case Div => 19 case Rem => 20
    case Shl => 21 case Shr => 22 case BitAnd => 23 case BitOr => 24 case BitXor => 25
    case Lt => 34 case Le => 35 case Gt => 36 case Ge => 37 case Eq => 38 case Ne => 39
  }

  /** An integer object, small or not. */
  function Boxed(rt: Runtime, n: int): Value
  {
    if SmallNumber(n) then Int(n) else rt.box(n)
  }

  lemma {:induction false} Arithmetically(rt: Runtime, op: BinOp, a: int, b: int) returns (r: int)
    requires IsArithmetic(op)
    ensures !DividesByZero(op, b) ==> Computes(op, a, b, r)
    ensures Operate(rt, op, Int(a), Int(b)) ==
      if DividesByZero(op, b) || !WordNumber(r) then Undefined else Returns(Boxed(rt, r))
  {
    match op
    case Add => r := a + b;
    case Sub => r := a - b;
    case Mul => r := a * b;
    case Div =>
      r := 0;
      if b != 0 { r := Truncated(a, b); }
    case Rem =>
      if b == 0 {
        r := 0;
      } else {
        var q := Truncated(a, b);
        r := a - b * q;
        assert a == b * q + r;
      }
  }

  lemma Truncated(a: int, b: int) returns (q: int)
    requires b != 0
    ensures q == Quotient(a, b) && LeftOver(a, b, a - b * q)
  {
    q := Quotient(a, b);
    var size := if a < 0 then -a else a;
    var left := Divided(size, b);
    if a < 0 { Opposite(b, size / b); }
  }

  /** What is left of a number that is not negative. */
  lemma Divided(a: nat, b: int) returns (left: nat)
    requires b != 0
    ensures left == a - b * (a / b) && left < (if b < 0 then -b else b) && left <= a
  {
    left := a % b;
    var q := a / b;
    assert a == b * q + left;
    if b * q < 0 { NegativeProduct(b, q, a); }
  }

  /** A negative multiple of `b` does not lie between `-|b|` and 0. */
  lemma NegativeProduct(b: int, q: int, a: nat)
    requires b * q < 0
    ensures b * q <= -(if b < 0 then -b else b)
  {
    if b > 0 {
      assert q <= -1;
      Grows(b, -q);
      Opposite(b, q);
    } else {
      assert q >= 1;
      Grows(b, q);
    }
  }

  lemma Opposite(b: int, q: int)
    ensures b * -q == -(b * q)
  {
  }

  /** Two small ints on the stack, and the result in their place. What is outside the machine's word, like a
      division by zero, has no meaning. */
  lemma {:induction false} ArithmeticExecutes(rt: Runtime, names: seq<string>, symbols: seq<string>, op: BinOp,
      a: int, b: int, stack: seq<Value>, globals: seq<Value>) returns (r: int)
    requires IsArithmetic(op) && SmallNumber(a) && SmallNumber(b)
    ensures !DividesByZero(op, b) ==> Computes(op, a, b, r)
    ensures Execute(rt, names, symbols, Number(op), 0, stack + [Int(a), Int(b)], globals) ==
      if DividesByZero(op, b) || !WordNumber(r) then Wrong else Next(stack + [Boxed(rt, r)], globals)
    ensures !op.Mul? && !DividesByZero(op, b) ==> WordNumber(r)
  {
    hide Operate, Execute;
    r := Arithmetically(rt, op, a, b);
    OperateExecutes(rt, names, symbols, op, stack, Int(a), Int(b), globals);
    assert stack + [Int(a)] + [Int(b)] == stack + [Int(a), Int(b)];
    if op.Div? && b != 0 { NotLarger(a, b, r); }
  }

  /** A quotient is no further from zero than what is divided. */
  lemma NotLarger(a: int, b: int, q: int)
    requires b != 0 && LeftOver(a, b, a - b * q)
    ensures -(if a < 0 then -a else a) <= q <= (if a < 0 then -a else a)
  {
    if q > 0 { Grows(b, q); AtLeast(b, q); } else if q < 0 { Grows(b, -q); AtLeast(b, -q); assert b * -q == -(b * q); }
  }

  lemma AtLeast(b: int, q: int)
    requires b != 0 && q >= 1
    ensures b > 0 ==> b * q >= q && b * q >= b
    ensures b < 0 ==> b * q <= -q && b * q <= b
  {
  }

  /** When a comparison is true. */
  predicate Tells(op: BinOp, a: int, b: int, v: bool)
  {
    match op
    case Lt => v <==> b - a > 0
    case Le => v <==> b - a >= 0
    case Gt => v <==> a - b > 0
    case Ge => v <==> a - b >= 0
    case Eq => v <==> a - b == 0
    case Ne => v <==> a - b != 0
    case _ => false
  }

  lemma {:induction false} ComparisonExecutes(rt: Runtime, names: seq<string>, symbols: seq<string>, op: BinOp,
      a: int, b: int, stack: seq<Value>, globals: seq<Value>) returns (v: bool)
    requires IsComparison(op)
    ensures Tells(op, a, b, v)
    ensures Execute(rt, names, symbols, Number(op), 0, stack + [Int(a), Int(b)], globals) ==
      Next(stack + [Bool(v)], globals)
  {
    hide Execute;
    v := match op case Lt => a < b case Le => a <= b case Gt => a > b case Ge => a >= b case Eq => a ==
      b case _ => a != b;
    assert stack + [Int(a)] + [Int(b)] == stack + [Int(a), Int(b)];
    OperateExecutes(rt, names, symbols, op, stack, Int(a), Int(b), globals);
  }

  /** Of less, equal and greater exactly one holds, and the other three comparisons are their opposites. */
  lemma OneOfThree(a: int, b: int, lt: bool, le: bool, gt: bool, ge: bool, eq: bool, ne: bool)
    requires Tells(Lt, a, b, lt) && Tells(Le, a, b, le) && Tells(Gt, a, b, gt) && Tells(Ge, a, b, ge)
    requires Tells(Eq, a, b, eq) && Tells(Ne, a, b, ne)
    ensures (lt || eq || gt) && !(lt && eq) && !(eq && gt) && !(lt && gt)
    ensures le == !gt && ge == !lt && ne == !eq
  {
  }

  /** Negation and inversion. */
  lemma UnaryExecutes(rt: Runtime, names: seq<string>, symbols: seq<string>, n: int, stack: seq<Value>,
      globals: seq<Value>) returns (minus: int, inverse: int)
    ensures Execute(rt, names, symbols, 26, 0, stack + [Int(n)], globals) == Next(stack + [Boxed(rt, minus)], globals)
    ensures Execute(rt, names, symbols, 27, 0, stack + [Int(n)], globals) == Next(stack + [Boxed(rt, inverse)], globals)
    ensures n + minus == 0 && n + inverse == -1
  {
    hide Execute;
    minus, inverse := -n, -n - 1;
    Operate1Executes(rt, names, symbols, Neg, stack, Int(n), globals);
    Operate1Executes(rt, names, symbols, BitNot, stack, Int(n), globals);
  }

  // ----- The other instructions, by number ----------------------------------

  /** Loads and returns, with any stack. */
  lemma LoadsExecute(rt: Runtime, names: seq<string>, symbols: seq<string>, n: int, stack: seq<Value>,
      globals: seq<Value>)
    ensures Execute(rt, names, symbols, 10, n, stack, globals) == Next(stack + [Nil], globals)
    ensures Execute(rt, names, symbols, 11, 0, stack, globals) == Next(stack + [Bool(false)], globals)
    ensures Execute(rt, names, symbols, 11, 1, stack, globals) == Next(stack + [Bool(true)], globals)
    ensures Execute(rt, names, symbols, 12, n, stack, globals) == Next(stack + [Int(n)], globals)
    ensures Execute(rt, names, symbols, 13, n, stack, globals) == Next(stack + [Int(n)], globals)
    ensures Execute(rt, names, symbols, 72, n, stack, globals) == Return(Nil)
  {
  }

  /** Instructions that take the value on top of the stack, or copy it. */
  lemma TopExecutes(rt: Runtime, names: seq<string>, symbols: seq<string>, stack: seq<Value>, v: Value,
      globals: seq<Value>)
    ensures Execute(rt, names, symbols, 6, 0, stack + [v], globals) == Next(stack, globals)
    ensures Execute(rt, names, symbols, 8, 0, stack + [v], globals) == Next(stack + [v, v], globals)
    ensures Execute(rt, names, symbols, 71, 0, stack + [v], globals) == Return(v)
  {
    assert (stack + [v])[..|stack|] == stack;
  }

  /** Globals: by index, in both widths; by name, those of the module before those of the base module. */
  lemma GlobalsExecute(rt: Runtime, names: seq<string>, symbols: seq<string>, n: nat, stack: seq<Value>, v: Value,
      globals: seq<Value>)
    requires n < |globals| == |names| && Distinct(names)
    ensures Execute(rt, names, symbols, 50, n, stack, globals) == Next(stack + [globals[n]], globals)
    ensures Execute(rt, names, symbols, 51, n, stack, globals) == Next(stack + [globals[n]], globals)
    ensures Execute(rt, names, symbols, 52, n, stack + [v], globals) == Next(stack, globals[n := v])
    ensures Execute(rt, names, symbols, 53, n, stack + [v], globals) == Next(stack, globals[n := v])
    ensures forall k :: 0 <= k < |symbols| && symbols[k] == names[n] ==>
      Execute(rt, names, symbols, 54, k, stack, globals) == Next(stack + [globals[n]], globals) ==
      Execute(rt, names, symbols, 55, k, stack, globals)
  {
    assert (stack + [v])[..|stack|] == stack;
    IndexUnique(names, names[n], n);
  }

  lemma OtherGlobals(rt: Runtime, names: seq<string>, symbols: seq<string>, k: nat, stack: seq<Value>,
      globals: seq<Value>)
    requires k < |symbols| && symbols[k] !in names
    ensures Execute(rt, names, symbols, 54, k, stack, globals) == Execute(rt, names, symbols, 55, k, stack, globals) ==
      Next(stack + [if symbols[k] in rt.base then rt.base[symbols[k]] else Nil], globals)
  {
  }

  /** A jump by a distance of one byte, from its own opcode: 64 always; 66 on true and 68 on false,
      taking the condition from the stack, which must be a Boolean. */
  lemma {:induction false} JumpSteps(rt: Runtime, code: seq<Byte>, symbols: seq<string>, names: seq<string>, pc: nat,
      distance: int, stack: seq<Value>, v: Value, globals: seq<Value>)
    requires pc + 2 <= |code| && StandFor(I8, [code[pc + 1]], distance) && pc + distance >= 0
    ensures code[pc] == 64 ==>
      ByteStep(rt, code, symbols, names, Running(pc, stack, globals)) == Running(pc + distance, stack, globals)
    ensures code[pc] == 66 || code[pc] == 68 ==>
      ByteStep(rt, code, symbols, names, Running(pc, stack + [v], globals)) ==
        if !v.Bool? then Threw(rt.notBoolean, globals)
        else Running(if v.b == (code[pc] == 66) then pc + distance else pc + 2, stack, globals)
  {
    assert (stack + [v])[..|stack|] == stack;
    assert code[pc] in {64, 66, 68} ==> OperandOf(code[pc]) == I8;
  }

  /** The same by a distance of two bytes: 65, 67 and 69. */
  lemma {:induction false} WideJumpSteps(rt: Runtime, code: seq<Byte>, symbols: seq<string>, names: seq<string>,
      pc: nat,
      distance: int, stack: seq<Value>, v: Value, globals: seq<Value>)
    requires pc + 3 <= |code| && StandFor(I16, [code[pc + 1], code[pc + 2]], distance) && pc + distance >= 0
    ensures code[pc] == 65 ==>
      ByteStep(rt, code, symbols, names, Running(pc, stack, globals)) == Running(pc + distance, stack, globals)
    ensures code[pc] == 67 || code[pc] == 69 ==>
      ByteStep(rt, code, symbols, names, Running(pc, stack + [v], globals)) ==
        if !v.Bool? then Threw(rt.notBoolean, globals)
        else Running(if v.b == (code[pc] == 67) then pc + distance else pc + 3, stack, globals)
  {
    assert (stack + [v])[..|stack|] == stack;
    assert code[pc] in {65, 67, 69} ==> OperandOf(code[pc]) == I16;
  }

  /** What an operation on the two small ints on top of a stack leaves behind. */
  ghost predicate Meant(rt: Runtime, op: BinOp, before: seq<Value>, globals: seq<Value>, e: Effect)
  {
    var h := |before|;
    h >= 2 && before[h - 2].Int? && before[h - 1].Int? ==>
      var a, b := before[h - 2].n, before[h - 1].n;
      && (IsComparison(op) ==> exists v :: Tells(op, a, b, v) && e == Next(before[..h - 2] + [Bool(v)], globals))
      && (IsArithmetic(op) && SmallNumber(a) && SmallNumber(b) ==>
        if DividesByZero(op, b) then e == Wrong
        else exists r: int ::
          Computes(op, a, b, r) && e == if WordNumber(r) then Next(before[..h - 2] + [Boxed(rt, r)], globals)
            else Wrong)
  }

  lemma {:induction false} ExecuteMeans(rt: Runtime, names: seq<string>, symbols: seq<string>, op: BinOp,
      before: seq<Value>, globals: seq<Value>)
    ensures Meant(rt, op, before, globals, Execute(rt, names, symbols, Number(op), 0, before, globals))
  {
    hide Execute, Computes, Tells, DividesByZero;
    var h := |before|;
    if h >= 2 && before[h - 2].Int? && before[h - 1].Int? {
      var a, b := before[h - 2].n, before[h - 1].n;
      assert before[..h - 2] + [Int(a), Int(b)] == before;
      if IsComparison(op) { var _ := ComparisonExecutes(rt, names, symbols, op, a, b, before[..h - 2], globals); }
      if IsArithmetic(op) && SmallNumber(a) && SmallNumber(b) {
        var _ := ArithmeticExecutes(rt, names, symbols, op, a, b, before[..h - 2], globals);
      }
    }
  }

  // ----- A whole module -----------------------------------------------------

  /** A module that is one operation on two literals, whose result it returns. */
  function OneOperation(op: BinOp, a: int, b: int): Module
  {
    Module(Done, Option.Some(Bin(op, IntLit(a), IntLit(b))))
  }

  predicate LiteralNumber(n: int) { -32768 <= n <= 32767 }

  /** The bytes that load a literal: the opcode, then the number, low byte first. */
  function LoadBytes(n: int): seq<Byte>
  {
    if -128 <= n <= 127 then [12, n % 256] else [13, n % 256, n / 256 % 256]
  }

  function LoadInstr(n: int): Instr
  {
    Plain(if -128 <= n <= 127 then LD_INT else LD_INT_W, n)
  }

  lemma OperationCode(names: seq<string>, op: BinOp, a: int, b: int)
    ensures
      var c := CompileModule(names, OneOperation(op, a, b));
      && c.prog == Program([LoadInstr(a), LoadInstr(b), Plain(OpcodeOf(op), 0), Plain(RET, 0), Plain(RET_NIL, 0)], [],
        [])
      && c.names == names && c.status.Fine?
  {
    var c := Code(Program([], [], []), names, Fine);
    assert CompileBlock(c, Done) == c;
    assert CompileExpr(c, IntLit(a), Push) == Emit(c, LoadInstr(a).op, a);
    var d := Emit(c, LoadInstr(a).op, a);
    assert CompileExpr(d, IntLit(b), Push) == Emit(d, LoadInstr(b).op, b);
    assert CompileExpr(c, Bin(op, IntLit(a), IntLit(b)), Push) == CompileBin(d, op, IntLit(b), Push);
  }

  lemma OperationGood(names: seq<string>, op: BinOp, a: int, b: int)
    requires LiteralNumber(a) && LiteralNumber(b)
    ensures Encodable(CompileModule(names, OneOperation(op, a, b)).prog)
  {
    hide CompileModule;
    OperationCode(names, op, a, b);
    assert PlainExpr(IntLit(a)) && PlainExpr(IntLit(b));
    ModuleSound(names, OneOperation(op, a, b));
  }

  /** What the module is compiled to: both operands, in their order, the operation, the return. */
  lemma {:induction false} OperationBytes(names: seq<string>, op: BinOp, a: int, b: int)
    requires LiteralNumber(a) && LiteralNumber(b)
    ensures Encodable(CompileModule(names, OneOperation(op, a, b)).prog)
    ensures Bytes(names, OneOperation(op, a, b)) == LoadBytes(a) + LoadBytes(b) + [Number(op), 71, 72]
  {
    hide CompileModule, CodeBytes, InstrBytes, Encodable, GoodInstrs, OperandOf, LoadBytes, Number;
    OperationGood(names, op, a, b);
    OperationCode(names, op, a, b);
    var p := CompileModule(names, OneOperation(op, a, b)).prog;
    AtFirst(p);
    NumberIsOpcode(op);
    NoCode(p);
    LoadsAs(p, 0, a);
    LoadsAs(p, 1, b);
    SingleByte(p, 2, OpcodeOf(op));
    SingleByte(p, 3, RET);
    SingleByte(p, 4, RET_NIL);
    OneInstr(p, 0);
    OneInstr(p, 1);
    OneInstr(p, 2);
    OneInstr(p, 3);
    OneInstr(p, 4);
    assert [] + LoadBytes(a) + LoadBytes(b) + [Number(op)] + [71] + [72] == LoadBytes(a) + LoadBytes(b) +
      [Number(op), 71, 72];
  }

  lemma {:induction false} NoCode(p: Program)
    requires GoodInstrs(p)
    ensures CodeBytes(p, 0) == []
  {
  }

  /** An instruction without an operand is one byte. */
  lemma SingleByte(p: Program, i: nat, op: nat)
    requires GoodInstrs(p) && i < |p.instrs| && p.instrs[i] == Plain(op, 0) && OperandOf(op).None? && op < 256
    ensures InstrBytes(p, i) == [op]
  {
  }

  lemma NumberIsOpcode(op: BinOp)
    ensures Number(op) == OpcodeOf(op) < 256 && OperandOf(OpcodeOf(op)).None? && OperandOf(RET).None? &&
      OperandOf(RET_NIL).None?
  {
  }

  lemma LoadsAs(p: Program, i: nat, n: int)
    requires GoodInstrs(p) && i < |p.instrs| && p.instrs[i] == LoadInstr(n) && LiteralNumber(n)
    ensures InstrBytes(p, i) == LoadBytes(n)
  {
  }

  /** Running it: after the four instructions the machine has returned what the operation computes. */
  lemma {:induction false} OperationRun(rt: Runtime, names0: seq<string>, op: BinOp, a: int, b: int, names: seq<string>,
      globals: seq<Value>, stack: seq<Value>) returns (v: Value)
    requires LiteralNumber(a) && LiteralNumber(b) && (IsArithmetic(op) || IsComparison(op))
    ensures Encodable(CompileModule(names0, OneOperation(op, a, b)).prog)
    ensures After(rt, names0, OneOperation(op, a, b), names, globals, stack, 4) ==
      if DividesByZero(op, b) then Crashed else Finished(v, globals)
    ensures
      if IsComparison(op) then v.Bool? && Tells(op, a, b, v.b)
      else !DividesByZero(op, b) ==> v.Int? && Computes(op, a, b, v.n)
  {
    hide CompileModule, Execute, Encodable, Assembled, Address;
    OperationGood(names0, op, a, b);
    OperationCode(names0, op, a, b);
    var p := CompileModule(names0, OneOperation(op, a, b)).prog;
    var vm0 := Running(0, stack, globals);
    AtFirst(p);
    var r := 0;
    var t := false;
    var e := Execute(rt, names, p.symbols, OpcodeOf(op), 0, stack + [Int(a), Int(b)], globals);
    NumberIsOpcode(op);
    if IsComparison(op) {
      t := ComparisonExecutes(rt, names, p.symbols, op, a, b, stack, globals);
      v := Bool(t);
    } else {
      r := ArithmeticExecutes(rt, names, p.symbols, op, a, b, stack, globals);
      v := Int(r);
      if !DividesByZero(op, b) { StaysSmall(op, a, b, r); }
    }
    FourSteps(rt, p, names, op, a, b, stack, globals, v);
    StepsSimulated(rt, p, names, vm0, 4);
  }

  /** How a run ends in which nothing happens but the operation. */
  ghost predicate EndsAs(op: BinOp, a: int, b: int, vm: Vm)
  {
    if DividesByZero(op, b) then vm == Crashed
    else if IsComparison(op) then vm.Finished? && vm.v.Bool? && Tells(op, a, b, vm.v.b)
    else vm.Finished? && vm.v.Int? && IsArithmetic(op) && Computes(op, a, b, vm.v.n)
  }

  predicate OnLiterals(op: BinOp, a: int, b: int)
  {
    LiteralNumber(a) && LiteralNumber(b) && (IsArithmetic(op) || IsComparison(op))
  }

  lemma {:induction false} OperationEnds(rt: Runtime, names0: seq<string>, op: BinOp, a: int, b: int,
      names: seq<string>, globals: seq<Value>, stack: seq<Value>, limit: nat)
    requires OnLiterals(op, a, b) && limit >= 4
    ensures Encodable(CompileModule(names0, OneOperation(op, a, b)).prog)
    ensures EndsAs(op, a, b, After(rt, names0, OneOperation(op, a, b), names, globals, stack, limit))
  {
    hide CompileModule, Encodable, Bytes, ByteSteps, Computes, Tells, OneOperation;
    var v := OperationRun(rt, names0, op, a, b, names, globals, stack);
    var m := OneOperation(op, a, b);
    Stopped(rt, Bytes(names0, m), CompileModule(names0, m).prog.symbols, names, Running(0, stack, globals), 4, limit);
  }

  lemma {:induction false} AtFirst(p: Program)
    requires Encodable(p)
    ensures GoodInstrs(p) && Address(p, 0) == 0
  {
  }

  /** Operations on literals stay within the small ints. */
  lemma {:induction false} StaysSmall(op: BinOp, a: int, b: int, r: int)
    requires LiteralNumber(a) && LiteralNumber(b) && IsArithmetic(op) && Computes(op, a, b, r)
    ensures SmallNumber(r) && WordNumber(r)
  {
    if op.Mul? { ProductBound(a, b); }
    if op.Div? { NotLarger(a, b, r); }
  }

  lemma ProductBound(a: int, b: int)
    requires LiteralNumber(a) && LiteralNumber(b)
    ensures -1073741824 <= a * b <= 1073741824
  {
    Between(a, b);
    Between(-a, b);
  }

  lemma Between(a: int, b: int)
    requires -32768 <= a <= 32768 && LiteralNumber(b)
    ensures a * b <= 1073741824
  {
    if a >= 0 { assert a * b <= a * 32768; } else { assert a * b == -a * -b <= -a * 32768; }
  }

  lemma {:induction false} FourSteps(rt: Runtime, p: Program, names: seq<string>, op: BinOp, a: int, b: int,
      stack: seq<Value>, globals: seq<Value>, v: Value)
    requires p.instrs == [LoadInstr(a), LoadInstr(b), Plain(OpcodeOf(op), 0), Plain(RET, 0), Plain(RET_NIL, 0)]
    requires
      var e := Execute(rt, names, p.symbols, OpcodeOf(op), 0, stack + [Int(a), Int(b)], globals);
      if DividesByZero(op, b) then e == Wrong else e == Next(stack + [v], globals)
    ensures Steps(rt, p, names, Running(0, stack, globals), 4) ==
      if DividesByZero(op, b) then Crashed else Finished(v, globals)
  {
    hide Execute;
    var vm := Running(0, stack, globals);
    LoadExecutes(rt, names, p.symbols, a, stack, globals);
    LoadExecutes(rt, names, p.symbols, b, stack + [Int(a)], globals);
    assert stack + [Int(a)] + [Int(b)] == stack + [Int(a), Int(b)];
    ThenPlain(rt, p, names, vm, 0, 0, stack, globals, LoadInstr(a).op, a);
    ThenPlain(rt, p, names, vm, 1, 1, stack + [Int(a)], globals, LoadInstr(b).op, b);
    ThenPlain(rt, p, names, vm, 2, 2, stack + [Int(a), Int(b)], globals, OpcodeOf(op), 0);
    if DividesByZero(op, b) {
      OneMore(rt, p, names, vm, 3);
    } else {
      ReturnExecutes(rt, names, p.symbols, stack, v, globals);
      ThenPlain(rt, p, names, vm, 3, 3, stack + [v], globals, RET, 0);
    }
  }

  lemma LoadExecutes(rt: Runtime, names: seq<string>, symbols: seq<string>, n: int, stack: seq<Value>,
      globals: seq<Value>)
    ensures Execute(rt, names, symbols, LoadInstr(n).op, n, stack, globals) == Next(stack + [Int(n)], globals)
  {
  }

  lemma ReturnExecutes(rt: Runtime, names: seq<string>, symbols: seq<string>, stack: seq<Value>, v: Value,
      globals: seq<Value>)
    ensures Execute(rt, names, symbols, RET, 0, stack + [v], globals) == Return(v)
  {
  }
}
