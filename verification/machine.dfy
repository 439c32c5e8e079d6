/** The machine as an object: the dispatch loop over the bytes of a module. */
module MachineObject {
  import opened Language
  import opened Bytecode
  import opened Emission
  import opened Labelled
  import opened Assembling
  import opened ByteMachine
  import opened Discipline
  import opened Correctness
  import opened Compiled
  import opened Meaning
  import opened ModuleObjects

  datatype Signal = Continue | Returned(v: Value) | Thrown(exc: Value) | Bad

  /** What an instruction left behind, as the specification has it. */
  function Left(s: Signal, stack: seq<Value>, globals: seq<Value>): Effect
  {
    match s
    case Continue => Next(stack, globals)
    case Returned(v) => Return(v)
    case Thrown(e) => Throw(e)
    case Bad => Wrong
  }

  /** At most `n` values have been popped. */
  predicate Shrunk(stack: seq<Value>, before: seq<Value>, n: nat)
  {
    stack <= before && |stack| + n >= |before|
  }

  const LOADS := {LD_NIL, LD_BOOL, LD_INT, LD_INT_W, LD_GLOB, LD_GLOB_W, LD_GLOB_Y, LD_GLOB_Y_W, RET_NIL}
  const UNARY := {DROP, DUP, RET, NEG, INV}

  class Machine {
    var stack: seq<Value>

    constructor ()
      ensures stack == []
    {
      stack := [];
    }

    method Push(v: Value)
      modifies this
      ensures stack == old(stack) + [v]
    {
      stack := stack + [v];
    }

    method Pop() returns (v: Value)
      requires stack != []
      modifies this
      ensures old(stack) == stack + [v] && stack == old(stack)[..|old(stack)| - 1]
    {
      v := stack[|stack| - 1];
      stack := stack[..|stack| - 1];
    }

    /** Put the outcome of an operation on the stack, or raise it. */
    method Settle(o: Outcome) returns (s: Signal)
      modifies this
      ensures match o
        case Returns(v) => s == Continue && stack == old(stack) + [v]
        case Raises(e) => s == Thrown(e) && stack == old(stack)
        case Undefined => s == Bad
    {
      match o
      case Returns(v) => Push(v); s := Continue;
      case Raises(e) => s := Thrown(e);
      case Undefined => s := Bad;
    }

    /** One instruction that is not a jump. */
    method Perform(rt: Runtime, mod: ModuleObj, symbols: seq<string>, op: nat, n: int) returns (s: Signal)
      requires mod.Valid()
      modifies this, mod
      ensures mod.Valid() && mod.names == old(mod.names)
      ensures Execute(rt, old(mod.names), symbols, op, n, old(stack), old(mod.globals)) == Left(s, stack, mod.globals)
      ensures forall o: BinOp :: n == 0 && op == Number(o) ==>
        Meant(rt, o, old(stack), old(mod.globals), Left(s, stack, mod.globals))
      ensures !s.Continue? ==> mod.globals == old(mod.globals)
      ensures s.Returned? || s.Thrown? ==> Shrunk(stack, old(stack), Needs(op))
    {
      hide Execute, Needs, Shrunk, Table, Meant, Number;
      forall o: BinOp | n == 0 && op == Number(o)
        ensures Meant(rt, o, stack, mod.globals, Execute(rt, mod.names, symbols, op, n, stack, mod.globals)) {
        ExecuteMeans(rt, mod.names, symbols, o, stack, mod.globals);
      }
      if op in LOADS {
        s := PerformLoad(rt, mod, symbols, op, n);
      } else if op in UNARY {
        s := PerformUnary(rt, mod, symbols, op, n);
      } else if op == ST_GLOB || op == ST_GLOB_W {
        s := PerformStore(rt, mod, symbols, op, n);
      } else {
        s := PerformBinary(rt, mod, symbols, op, n);
      }
    }

    /** Instructions that do not look at the stack. */
    method PerformLoad(rt: Runtime, mod: ModuleObj, symbols: seq<string>, op: nat, n: int) returns (s: Signal)
      requires mod.Valid() && op in LOADS
      modifies this
      ensures Execute(rt, mod.names, symbols, op, n, old(stack), mod.globals) == Left(s, stack, mod.globals)
      ensures s.Returned? || s.Thrown? ==> Shrunk(stack, old(stack), Needs(op))
    {
      hide Operate, Operate1, GlobalBySymbol, Global, Table;
      s := Continue;
      if op == LD_NIL {
        Push(Nil);
      } else if op == LD_BOOL {
        Push(Bool(n != 0));
      } else if op == LD_INT || op == LD_INT_W {
        Push(Int(n));
      } else if op == LD_GLOB || op == LD_GLOB_W {
        var v := LoadByIndex(mod, n);
        Push(v);
      } else if op == LD_GLOB_Y || op == LD_GLOB_Y_W {
        if n < 0 || n >= |symbols| { return Bad; }
        var v := LoadByName(rt, mod, symbols[n]);
        Push(v);
      } else {
        s := Returned(Nil);
      }
    }

    /** Instructions that take one value, or copy it. */
    method PerformUnary(rt: Runtime, mod: ModuleObj, symbols: seq<string>, op: nat, n: int) returns (s: Signal)
      requires mod.Valid() && op in UNARY
      modifies this
      ensures Execute(rt, mod.names, symbols, op, n, old(stack), mod.globals) == Left(s, stack, mod.globals)
      ensures s.Returned? || s.Thrown? ==> Shrunk(stack, old(stack), Needs(op))
    {
      hide Operate, Operate1, GlobalBySymbol, Global, Table;
      s := Continue;
      var h := |stack|;
      if h < 1 { return Bad; }
      if op == DROP {
        var _ := Pop();
      } else if op == DUP {
        Push(stack[h - 1]);
      } else if op == RET {
        s := Returned(stack[h - 1]);
      } else {
        var v := Pop();
        s := Settle(Operate1(rt, if op == NEG then Neg else BitNot, v));
      }
    }

    /** Pop into a global; an index without a global is passed over. */
    method PerformStore(rt: Runtime, mod: ModuleObj, symbols: seq<string>, op: nat, n: int) returns (s: Signal)
      requires mod.Valid() && (op == ST_GLOB || op == ST_GLOB_W)
      modifies this, mod
      ensures mod.Valid() && mod.names == old(mod.names)
      ensures Execute(rt, old(mod.names), symbols, op, n, old(stack), old(mod.globals)) == Left(s, stack, mod.globals)
      ensures !s.Continue? ==> mod.globals == old(mod.globals)
      ensures s.Returned? || s.Thrown? ==> Shrunk(stack, old(stack), Needs(op))
    {
      hide Operate, Operate1, GlobalBySymbol, Global, Table;
      if stack == [] { return Bad; }
      var v := Pop();
      if n >= 0 { var _ := mod.SetGlobal(n, v); }
      s := Continue;
    }

    /** Operations on two values. */
    method PerformBinary(rt: Runtime, mod: ModuleObj, symbols: seq<string>, op: nat, n: int) returns (s: Signal)
      requires mod.Valid() && op !in LOADS && op !in UNARY && op != ST_GLOB && op != ST_GLOB_W
      modifies this
      ensures Execute(rt, mod.names, symbols, op, n, old(stack), mod.globals) == Left(s, stack, mod.globals)
      ensures s.Returned? || s.Thrown? ==> Shrunk(stack, old(stack), Needs(op))
    {
      hide Operate, Operate1, GlobalBySymbol, Global, Table;
      if BinOpOf(op).None? || |stack| < 2 { return Bad; }
      var rhs := Pop();
      var lhs := Pop();
      s := Settle(Operate(rt, BinOpOf(op).value, lhs, rhs));
    }

    method LoadByIndex(mod: ModuleObj, n: int) returns (v: Value)
      requires mod.Valid()
      ensures v == Global(mod.globals, n)
    {
      v := Nil;
      if n >= 0 {
        var found := mod.GetGlobal(n);
        if found.Some? { v := found.value; }
      }
    }

    /** A name the module does not define is looked up in the base module. */
    method LoadByName(rt: Runtime, mod: ModuleObj, x: string) returns (v: Value)
      requires mod.Valid()
      ensures v == GlobalBySymbol(rt, mod.names, mod.globals, x)
    {
      var found := mod.GetGlobalByName(x);
      v := if found.Some? then found.value else if x in rt.base then rt.base[x] else Nil;
    }

    /** One turn of the dispatch loop. */
    method Tick(rt: Runtime, mod: ModuleObj, symbols: seq<string>, code: seq<Byte>, ip: nat) returns (vm: Vm)
      requires mod.Valid()
      modifies this, mod
      ensures mod.Valid() && mod.names == old(mod.names)
      ensures vm == ByteStep(rt, code, symbols, old(mod.names), Running(ip, old(stack), old(mod.globals)))
      ensures vm.Running? ==> vm.stack == stack && vm.globals == mod.globals
      ensures vm.Finished? || vm.Threw? ==> vm.globals == mod.globals
      ensures vm.Finished? || vm.Threw? ==>
        ip < |code| && Shrunk(stack, old(stack), if JumpOf(code[ip]).IsA? then 0 else Needs(code[ip]))
    {
      hide Execute, ReadOperand, OperandOf, JumpOf, Decide, Table, Needs;
      if ip >= |code| { return Crashed; }
      var op := code[ip];
      var next := ip + 1 + WidthOf(OperandOf(op));
      if next > |code| { return Crashed; }
      var n := ReadOperand(OperandOf(op), code, ip + 1);
      if JumpOf(op).IsA? {
        match Decide(JumpOf(op).base, stack)
        case Take(popped) =>
          stack := popped;
          vm := if ip + n >= 0 then Running(ip + n, stack, mod.globals) else Crashed;
        case Pass(popped) =>
          stack := popped;
          vm := Running(next, stack, mod.globals);
        case Refuse => vm := Threw(rt.notBoolean, mod.globals);
        case NoCondition => vm := Crashed;
      } else {
        var s := Perform(rt, mod, symbols, op, n);
        match s
        case Continue => vm := Running(next, stack, mod.globals);
        case Returned(v) => vm := Vm.Finished(v, mod.globals);
        case Thrown(e) => vm := Threw(e, mod.globals);
        case Bad => vm := Crashed;
      }
    }

    /** The dispatch loop, for at most `limit` instructions. */
    method Dispatch(rt: Runtime, mod: ModuleObj, symbols: seq<string>, code: seq<Byte>, limit: nat)
        returns (vm: Vm, ghost turns: nat)
      requires mod.Valid()
      modifies this, mod
      ensures mod.Valid() && mod.names == old(mod.names)
      ensures vm == ByteSteps(rt, code, symbols, mod.names, Running(0, old(stack), old(mod.globals)), limit)
      ensures vm.Running? ==> vm.stack == stack && vm.globals == mod.globals
      ensures vm.Finished? || vm.Threw? ==> vm.globals == mod.globals
      ensures vm.Finished? || vm.Threw? ==>
        StoppedAt(code, ByteSteps(rt, code, symbols, mod.names, Running(0, old(stack), old(mod.globals)), turns), stack)
    {
      hide ByteStep, Table, Shrunk;
      turns := 0;
      ghost var start := Running(0, stack, mod.globals);
      var count := 0;
      vm := Running(0, stack, mod.globals);
      while count < limit && vm.Running?
        invariant mod.Valid() && mod.names == old(mod.names) && count <= limit
        invariant vm.Running? ==> vm.stack == stack && vm.globals == mod.globals
        invariant vm.Finished? || vm.Threw? ==> vm.globals == mod.globals
        invariant ByteSteps(rt, code, symbols, mod.names, start, limit) ==
          ByteSteps(rt, code, symbols, mod.names, vm, limit - count)
        invariant vm == ByteSteps(rt, code, symbols, mod.names, start, count)
        invariant vm.Finished? || vm.Threw? ==>
          StoppedAt(code, ByteSteps(rt, code, symbols, mod.names, start, turns), stack)
      {
        turns := count;
        OneMoreByte(rt, code, symbols, mod.names, start, count);
        vm := Tick(rt, mod, symbols, code, vm.pc);
        count := count + 1;
      }
      if !vm.Running? { Halts(rt, code, symbols, mod.names, vm, limit - count); }
    }

    /** Run a compiled module: its function is pushed and invoked without arguments. Whatever the
        run comes to is what the source comes to, and the stack is as it was. */
    method RunModule(rt: Runtime, mod: ModuleObj, func: Value, code: seq<Byte>, symbols: seq<string>, limit: nat,
        ghost names0: seq<string>, ghost m: Module)
      returns (vm: Vm)
      requires mod.Valid() && Encodable(CompileModule(names0, m).prog) && CompileModule(names0, m).names <= mod.names
      requires code == Bytes(names0, m) && symbols == CompileModule(names0, m).prog.symbols
      modifies this, mod
      ensures mod.Valid() && mod.names == old(mod.names)
      ensures RunsAs(rt, m, mod.names, old(mod.globals), limit, vm, mod.globals)
      ensures forall o, a, b :: m == OneOperation(o, a, b) && OnLiterals(o, a, b) && limit >= 4 ==> EndsAs(o, a, b, vm)
      ensures vm.Finished? || vm.Threw? ==> stack == old(stack)
    {
      hide CompileModule, Bytes, ByteSteps, ExecModule, Encodable, StoppedAt, Table, StoreOf, EndsAs, OneOperation;
      ghost var globals0 := mod.globals;
      Push(func);
      var base := |stack|;
      ghost var turns;
      TableDistinct(mod.globalsMap, mod.names);
      ModuleExact(rt, names0, m, mod.names, globals0, stack, limit);
      vm, turns := Dispatch(rt, mod, symbols, code, limit);
      forall o, a, b | m == OneOperation(o, a, b) && OnLiterals(o, a, b) && limit >= 4 ensures EndsAs(o, a, b, vm) {
        OperationEnds(rt, names0, o, a, b, mod.names, globals0, old(stack) + [func], limit);
      }
      if vm.Finished? || vm.Threw? {
        StoppedAboveBase(rt, names0, m, mod.names, old(stack) + [func], globals0, turns, stack);
        stack := stack[..base - 1];
      }
    }
  }

  /** The outcome of a run and the globals it leaves are those of the source. */
  ghost predicate RunsAs(rt: Runtime, m: Module, names: seq<string>, globals0: seq<Value>, limit: nat, vm: Vm,
      globals: seq<Value>)
    requires |globals0| == |names| == |globals|
  {
    match vm
    case Running(_, _, _) => true
    case Finished(v, _) =>
      ExecModule(rt, StoreOf(names, globals0), m, limit) == Answer.Value(v, StoreOf(names, globals))
    case Threw(e, _) => ExecModule(rt, StoreOf(names, globals0), m, limit) == Exception(e, StoreOf(names, globals))
    case Crashed => ExecModule(rt, StoreOf(names, globals0), m, limit) == NoMeaning
  }

  /** The state in which an instruction ended the run, and what it left on the stack. */
  predicate StoppedAt(code: seq<Byte>, vm: Vm, stack: seq<Value>)
  {
    vm.Running? && vm.pc < |code| && Shrunk(stack, vm.stack, if JumpOf(code[vm.pc]).IsA? then 0 else Needs(code[vm.pc]))
  }

  lemma {:induction false} OneMoreByte(rt: Runtime, code: seq<Byte>, symbols: seq<string>, names: seq<string>, vm: Vm,
      n: nat)
    ensures ByteSteps(rt, code, symbols, names, vm, n + 1) ==
      ByteStep(rt, code, symbols, names, ByteSteps(rt, code, symbols, names, vm, n))
    decreases n
  {
    hide ByteStep;
    if n > 0 { OneMoreByte(rt, code, symbols, names, ByteStep(rt, code, symbols, names, vm), n - 1); }
  }

  /** When a compiled module stops, the stack below where it began is still there. */
  lemma StoppedAboveBase(rt: Runtime, names0: seq<string>, m: Module, names: seq<string>, base: seq<Value>,
      globals: seq<Value>, n: nat, stack: seq<Value>)
    requires Encodable(CompileModule(names0, m).prog)
    requires StoppedAt(Bytes(names0, m), After(rt, names0, m, names, globals, base, n), stack)
    ensures base <= stack
  {
    hide CompileModule, Levelled, Steps, ByteSteps, Assembled, Encodable, OnLevel, Needs, Address;
    var p := CompileModule(names0, m).prog;
    var lv := ModuleLevels(names0, m);
    AtStart(p);
    StartsOnLevel(p, lv, base, globals);
    StepsOnLevel(rt, p, names, lv, base, Running(0, base, globals), n);
    StepsSimulated(rt, p, names, Running(0, base, globals), n);
    AboveBase(p, lv, base, Steps(rt, p, names, Running(0, base, globals), n), stack);
  }

  lemma {:induction false} AtStart(p: Program)
    requires Encodable(p)
    ensures GoodInstrs(p) && Address(p, 0) == 0
  {
  }

  lemma StartsOnLevel(p: Program, lv: Levels, base: seq<Value>, globals: seq<Value>)
    requires Levelled(p, lv) && lv.at[0] == 0
    ensures OnLevel(p, lv, base, Running(0, base, globals))
  {
  }

  lemma AboveBase(p: Program, lv: Levels, base: seq<Value>, vm: Vm, stack: seq<Value>)
    requires Encodable(p) && Levelled(p, lv) && OnLevel(p, lv, base, vm) && vm.Running? && vm.pc <= |p.instrs|
    requires StoppedAt(Assembled(p), AtAddress(p, vm), stack)
    ensures base <= stack
  {
    hide Assembled, Needs, Address, FinalOp, CodeBytes, OperandOf;
    if vm.pc < |p.instrs| {
      assert StepFits(p, lv, vm.pc);
      ReadBack(p, vm.pc);
      FinalOps(p, vm.pc);
    } else {
      AtEnd(p);
    }
  }

  lemma {:induction false} Halts(rt: Runtime, code: seq<Byte>, symbols: seq<string>, names: seq<string>, vm: Vm, n: nat)
    requires !vm.Running?
    ensures ByteSteps(rt, code, symbols, names, vm, n) == vm
    decreases n
  {
    if n > 0 { Halts(rt, code, symbols, names, vm, n - 1); }
  }
}
