/** The generated code does what the source says, at the level of labels. */
module Correctness {
  import opened Language
  import opened Bytecode
  import opened Emission
  import opened Labelled

  // ----- Globals by index and by name ---------------------------------------

  /** The globals as the source sees them. */
  function StoreOf(names: seq<string>, globals: seq<Value>): Store
    requires |globals| == |names|
  {
    map x | x in names :: globals[IndexOf(names, x)]
  }

  lemma {:induction false} IndexUnique(names: seq<string>, x: string, k: nat)
    requires Distinct(names) && k < |names| && names[k] == x
    ensures IndexOf(names, x) == k
  {
  }

  lemma {:induction false} SameIndex(xs: seq<string>, names: seq<string>, x: string)
    requires xs <= names && x in xs && Distinct(names)
    ensures IndexOf(xs, x) == IndexOf(names, x) < |names|
  {
    IndexUnique(names, x, IndexOf(xs, x));
  }

  lemma {:induction false} StoreUpdate(names: seq<string>, globals: seq<Value>, x: string, v: Value)
    requires |globals| == |names| && Distinct(names) && x in names
    ensures StoreOf(names, globals[IndexOf(names, x) := v]) == StoreOf(names, globals)[x := v]
  {
    var i := IndexOf(names, x);
    forall y | y in names && y != x ensures IndexOf(names, y) != i {
      assert names[IndexOf(names, y)] == y;
    }
  }

  // ----- Following the code -------------------------------------------------

  lemma OneMore(rt: Runtime, p: Program, names: seq<string>, vm: Vm, n: nat)
    ensures Steps(rt, p, names, vm, n + 1) == Step(rt, p, names, Steps(rt, p, names, vm, n))
  {
    StepsAdd(rt, p, names, vm, n, 1);
    assert Steps(rt, p, names, Steps(rt, p, names, vm, n), 1) ==
      Steps(rt, p, names, Step(rt, p, names, Steps(rt, p, names, vm, n)), 0);
  }

  lemma {:induction false} ThrewStays(rt: Runtime, p: Program, names: seq<string>, e: Value, globals: seq<Value>,
      n: nat)
    ensures Steps(rt, p, names, Threw(e, globals), n) == Threw(e, globals)
    decreases n
  {
    if n > 0 { ThrewStays(rt, p, names, e, globals, n - 1); }
  }

  /** The instruction that was emitted in state `c`. */
  lemma AtEmit(p: Program, names: seq<string>, c: Code, op: nat, n: int)
    requires Extends(p, names, Emit(c, op, n))
    ensures |c.prog.instrs| < |p.instrs| && p.instrs[|c.prog.instrs|] == Plain(op, n)
  {
    var d := Emit(c, op, n);
    assert d.prog.instrs[|c.prog.instrs|] == Plain(op, n);
  }

  lemma AtJump(p: Program, names: seq<string>, c: Code, op: nat, target: nat)
    requires Extends(p, names, EmitJump(c, op, target))
    ensures |c.prog.instrs| < |p.instrs| && p.instrs[|c.prog.instrs|] == ToLabel(op, target)
  {
    var d := EmitJump(c, op, target);
    assert d.prog.instrs[|c.prog.instrs|] == ToLabel(op, target);
  }

  /** Run one plain instruction after `n` steps. */
  lemma ThenPlain(rt: Runtime, p: Program, names: seq<string>, vm: Vm, n: nat, pc: nat, stack: seq<Value>,
      globals: seq<Value>, op: nat, operand: int)
    requires Steps(rt, p, names, vm, n) == Running(pc, stack, globals) && pc < |p.instrs| &&
      p.instrs[pc] == Plain(op, operand)
    ensures Steps(rt, p, names, vm, n + 1) ==
      match Execute(rt, names, p.symbols, op, operand, stack, globals)
      case Next(stack', globals') => Running(pc + 1, stack', globals')
      case Return(v) => Finished(v, globals)
      case Throw(e) => Threw(e, globals)
      case Wrong => Crashed
  {
    OneMore(rt, p, names, vm, n);
  }

  /** Run one jump after `n` steps. */
  lemma ThenJump(rt: Runtime, p: Program, names: seq<string>, vm: Vm, n: nat, pc: nat, stack: seq<Value>,
      globals: seq<Value>, op: nat, target: nat)
    requires Steps(rt, p, names, vm, n) == Running(pc, stack, globals) && pc < |p.instrs| &&
      p.instrs[pc] == ToLabel(op, target)
    requires target < |p.labels| && p.labels[target] >= 0
    ensures Steps(rt, p, names, vm, n + 1) ==
      match Decide(op, stack)
      case Take(stack') => Running(p.labels[target], stack', globals)
      case Pass(stack') => Running(pc + 1, stack', globals)
      case Refuse => Threw(rt.notBoolean, globals)
      case NoCondition => Crashed
  {
    OneMore(rt, p, names, vm, n);
  }

  // ----- Expressions --------------------------------------------------------

  /** From state `c` to state `d` of the generator, the code computes `res`. */
  ghost predicate ExprRuns(rt: Runtime, p: Program, names: seq<string>, c: Code, d: Code, act: Action,
      stack: seq<Value>, globals: seq<Value>,
      res: Result, n: nat, globals': seq<Value>)
    requires |globals| == |names|
  {
    |globals'| == |names| &&
    var vm := Steps(rt, p, names, Running(|c.prog.instrs|, stack, globals), n);
    match res
    case Ok(v, st) =>
      st == StoreOf(names, globals') && vm == Running(|d.prog.instrs|, if act.Push? then stack + [v] else stack,
      globals')
    case Raised(e, st) => st == StoreOf(names, globals') && vm == Threw(e, globals')
    case Stuck => vm == Crashed
  }

  lemma DropRuns(rt: Runtime, p: Program, names: seq<string>, c: Code, d: Code, act: Action, stack: seq<Value>,
      globals: seq<Value>,
      res: Result, n: nat, globals': seq<Value>) returns (m: nat)
    requires |globals| == |names| && ExprRuns(rt, p, names, c, d, Push, stack, globals, res, n, globals')
    requires Extends(p, names, DropIf(d, act))
    ensures ExprRuns(rt, p, names, c, DropIf(d, act), act, stack, globals, res, m, globals')
  {
    m := n;
    if act.EvalOnly? && res.Ok? {
      AtEmit(p, names, d, DROP, 0);
      ThenPlain(rt, p, names, Running(|c.prog.instrs|, stack, globals), n, |d.prog.instrs|, stack + [res.v], globals',
        DROP, 0);
      assert (stack + [res.v])[..|stack|] == stack;
      m := n + 1;
    }
  }

  lemma LiteralRuns(rt: Runtime, p: Program, names: seq<string>, c: Code, act: Action, stack: seq<Value>,
      globals: seq<Value>,
      op: nat, operand: int, v: Value) returns (n: nat)
    requires |globals| == |names| && Extends(p, names, Literal(c, act, op, operand))
    requires Execute(rt, names, p.symbols, op, operand, stack, globals) == Next(stack + [v], globals)
    ensures ExprRuns(rt, p, names, c, Literal(c, act, op, operand), act, stack, globals, Ok(v, StoreOf(names, globals)),
      n, globals)
  {
    n := 0;
    if act.Push? {
      AtEmit(p, names, c, op, operand);
      ThenPlain(rt, p, names, Running(|c.prog.instrs|, stack, globals), 0, |c.prog.instrs|, stack, globals, op,
        operand);
      n := 1;
    }
  }

  /** An instruction with an index, whatever its width. */
  lemma IndexedAt(p: Program, names: seq<string>, c: Code, narrow: nat, index: nat)
    requires Extends(p, names, Indexed(c, narrow, index))
    ensures |c.prog.instrs| < |p.instrs| && |Indexed(c, narrow, index).prog.instrs| == |c.prog.instrs| + 1
    ensures p.instrs[|c.prog.instrs|] == Plain(if index <= 255 then narrow else narrow + 1, index)
  {
    var d := Indexed(c, narrow, index);
    assert d.prog.instrs[|c.prog.instrs|] == Plain(if index <= 255 then narrow else narrow + 1, index);
  }

  lemma LoadNameRuns(rt: Runtime, p: Program, names: seq<string>, c: Code, x: string, stack: seq<Value>,
      globals: seq<Value>)
    requires |globals| == |names| && Distinct(names) && Extends(p, names, LoadName(c, x))
    ensures ExprRuns(rt, p, names, c, LoadName(c, x), Push, stack, globals,
      Ok(Lookup(rt, StoreOf(names, globals), x), StoreOf(names, globals)), 1, globals)
  {
    hide StoreOf, Extends, Lookup, Execute, Steps, Step, Indexed;
    var vm := Running(|c.prog.instrs|, stack, globals);
    NoSteps(rt, p, names, vm);
    if x in c.names {
      var i := IndexOf(c.names, x);
      IndexedAt(p, names, c, LD_GLOB, i);
      ThenPlain(rt, p, names, vm, 0, |c.prog.instrs|, stack, globals, if i <= 255 then LD_GLOB else LD_GLOB_W, i);
      KnownLoads(rt, p, names, c, x, stack, globals);
    } else {
      var symbols := AddName(c.prog.symbols, x);
      var i := IndexOf(symbols, x);
      IndexedAt(p, names, c.(prog := c.prog.(symbols := symbols)), LD_GLOB_Y, i);
      ThenPlain(rt, p, names, vm, 0, |c.prog.instrs|, stack, globals, if i <= 255 then LD_GLOB_Y else LD_GLOB_Y_W, i);
      SymbolLoads(rt, p, names, c, x, stack, globals);
    }
  }

  lemma {:induction false} KnownLoads(rt: Runtime, p: Program, names: seq<string>, c: Code, x: string,
      stack: seq<Value>, globals: seq<Value>)
    requires |globals| == |names| && Distinct(names) && Extends(p, names, LoadName(c, x)) && x in c.names
    ensures
      var i := IndexOf(c.names, x);
      Execute(rt, names, p.symbols, if i <= 255 then LD_GLOB else LD_GLOB_W, i, stack, globals) ==
        Next(stack + [Lookup(rt, StoreOf(names, globals), x)], globals)
  {
    NamesKnown(p, names, LoadName(c, x));
    SameIndex(c.names, names, x);
  }

  lemma {:induction false} SymbolLoads(rt: Runtime, p: Program, names: seq<string>, c: Code, x: string,
      stack: seq<Value>, globals: seq<Value>)
    requires |globals| == |names| && Extends(p, names, LoadName(c, x)) && x !in c.names
    ensures
      var i := IndexOf(AddName(c.prog.symbols, x), x);
      Execute(rt, names, p.symbols, if i <= 255 then LD_GLOB_Y else LD_GLOB_Y_W, i, stack, globals) ==
        Next(stack + [Lookup(rt, StoreOf(names, globals), x)], globals)
  {
    var symbols := AddName(c.prog.symbols, x);
    var i := IndexOf(symbols, x);
    assert symbols <= p.symbols;
    assert p.symbols[i] == symbols[i] == x;
  }

  lemma StoreExecutes(rt: Runtime, names: seq<string>, symbols: seq<string>, wide: bool, i: nat, stack: seq<Value>,
      v: Value, globals: seq<Value>)
    requires i < |globals|
    ensures Execute(rt, names, symbols, if wide then ST_GLOB_W else ST_GLOB, i, stack + [v], globals) ==
      Next(stack, globals[i := v])
  {
    assert (stack + [v])[..|stack|] == stack;
  }

  /** Popping into a name. */
  lemma ReceiveRuns(rt: Runtime, p: Program, names: seq<string>, vm: Vm, n: nat, c: Code, x: string, v: Value,
      stack: seq<Value>, globals: seq<Value>)
    returns (globals': seq<Value>)
    requires |globals| == |names| && Distinct(names) && Extends(p, names, Receive(c, x))
    requires Steps(rt, p, names, vm, n) == Running(|c.prog.instrs|, stack + [v], globals)
    ensures |globals'| == |names| && StoreOf(names, globals') == StoreOf(names, globals)[x := v]
    ensures Steps(rt, p, names, vm, n + 1) == Running(|Receive(c, x).prog.instrs|, stack, globals')
  {
    hide StoreOf, Distinct, Steps, Step, Execute, Extends, AddName, IndexOf;
    var known := AddName(c.names, x);
    var i := IndexOf(known, x);
    NamesKnown(p, names, Receive(c, x));
    SameIndex(known, names, x);
    IndexedAt(p, names, c.(names := known), ST_GLOB, i);
    ThenPlain(rt, p, names, vm, n, |c.prog.instrs|, stack + [v], globals, if i <= 255 then ST_GLOB else ST_GLOB_W, i);
    StoreExecutes(rt, names, p.symbols, i > 255, i, stack, v, globals);
    globals' := globals[i := v];
    StoreUpdate(names, globals, x, v);
  }

  lemma NamesKnown(p: Program, names: seq<string>, c: Code)
    requires Extends(p, names, c)
    ensures c.names <= names
  {
  }

  lemma StoreRuns(rt: Runtime, p: Program, names: seq<string>, c: Code, d: Code, x: string, act: Action,
      stack: seq<Value>, globals: seq<Value>,
      res: Result, n: nat, globals1: seq<Value>) returns (m: nat, globals': seq<Value>)
    requires |globals| == |names| && Distinct(names) &&
      ExprRuns(rt, p, names, c, d, Push, stack, globals, res, n, globals1)
    requires Extends(p, names, CompileStore(d, x, act)) && Extends(p, names, d)
    ensures |globals'| == |names| && ExprRuns(rt, p, names, c, CompileStore(d, x, act), act, stack, globals,
      Stored(res, x), m, globals')
  {
    hide StoreOf, Distinct, Steps, Step, Extends, Receive;
    m, globals' := n, globals1;
    if res.Ok? {
      var vm := Running(|c.prog.instrs|, stack, globals);
      if act.Push? {
        DupExtends(p, names, d, x);
        AtEmit(p, names, d, DUP, 0);
        ThenPlain(rt, p, names, vm, n, |d.prog.instrs|, stack + [res.v], globals1, DUP, 0);
        globals' := ReceiveRuns(rt, p, names, vm, n + 1, Emit(d, DUP, 0), x, res.v, stack + [res.v], globals1);
        m := n + 2;
      } else {
        globals' := ReceiveRuns(rt, p, names, vm, n, d, x, res.v, stack, globals1);
        m := n + 1;
      }
    }
  }

  lemma DupExtends(p: Program, names: seq<string>, d: Code, x: string)
    requires Extends(p, names, Receive(Emit(d, DUP, 0), x))
    ensures Extends(p, names, Emit(d, DUP, 0))
  {
    ReceiveGrows(Emit(d, DUP, 0), x);
    ExtendsEarlier(p, names, Emit(d, DUP, 0), Receive(Emit(d, DUP, 0), x));
  }

  lemma ReceiveGrows(c: Code, x: string)
    ensures Grown(c, Receive(c, x))
  {
    StoreGrows(c, x, EvalOnly);
  }

  lemma BinOpcodes(op: BinOp)
    ensures BinOpOf(OpcodeOf(op)) == Some(op)
    ensures OpcodeOf(op) !in {LD_NIL, LD_BOOL, LD_INT, LD_INT_W, LD_GLOB, LD_GLOB_W, LD_GLOB_Y, LD_GLOB_Y_W, RET_NIL,
      DROP, DUP, ST_GLOB, ST_GLOB_W, RET, NEG, INV}
  {
  }

  lemma OperateExecutes(rt: Runtime, names: seq<string>, symbols: seq<string>, op: BinOp, stack: seq<Value>, v: Value,
      w: Value, globals: seq<Value>)
    ensures Execute(rt, names, symbols, OpcodeOf(op), 0, stack + [v] + [w], globals) ==
      Result1(Operate(rt, op, v, w), stack, globals)
  {
    BinOpcodes(op);
    var s2 := stack + [v] + [w];
    assert s2[..|s2| - 2] == stack && s2[|s2| - 2] == v && s2[|s2| - 1] == w;
  }

  lemma Operate1Executes(rt: Runtime, names: seq<string>, symbols: seq<string>, op: UnOp, stack: seq<Value>, v: Value,
      globals: seq<Value>)
    ensures Execute(rt, names, symbols, OpcodeOf1(op), 0, stack + [v], globals) ==
      Result1(Operate1(rt, op, v), stack, globals)
  {
    assert (stack + [v])[..|stack|] == stack;
  }

  /** An operation on the top of the stack. */
  lemma {:induction false} OperationRuns(rt: Runtime, p: Program, names: seq<string>, c: Code, d: Code,
      stack: seq<Value>, globals: seq<Value>,
      pushed: seq<Value>, globals2: seq<Value>, n: nat, op: nat, o: Outcome)
    requires |globals| == |names| == |globals2| && Extends(p, names, Emit(d, op, 0))
    requires Steps(rt, p, names, Running(|c.prog.instrs|, stack, globals), n) ==
      Running(|d.prog.instrs|, pushed, globals2)
    requires Execute(rt, names, p.symbols, op, 0, pushed, globals2) == Result1(o, stack, globals2)
    ensures ExprRuns(rt, p, names, c, Emit(d, op, 0), Push, stack, globals, FromOutcome(o, StoreOf(names, globals2)),
      n + 1, globals2)
  {
    AtEmit(p, names, d, op, 0);
    ThenPlain(rt, p, names, Running(|c.prog.instrs|, stack, globals), n, |d.prog.instrs|, pushed, globals2, op, 0);
  }

  /** Every expression of the fragment: the code computes what the source says, ends where
      the next code begins, and leaves one value or none on top of the stack. */
  lemma {:induction false} ExprCorrect(rt: Runtime, p: Program, names: seq<string>, c: Code, e: Expr, act: Action,
      stack: seq<Value>, globals: seq<Value>)
    returns (n: nat, globals': seq<Value>)
    requires |globals| == |names| && Distinct(names) && Extends(p, names, CompileExpr(c, e, act))
    ensures ExprRuns(rt, p, names, c, CompileExpr(c, e, act), act, stack, globals, Eval(rt, StoreOf(names, globals), e),
      n, globals')
    decreases e, 1
  {
    hide ExprRuns, Extends, Distinct, Receive, LoadName, Indexed, Steps, Operate, Operate1, Grown, StoreOf;
    globals' := globals;
    match e
    case NilLit => n := LiteralRuns(rt, p, names, c, act, stack, globals, LD_NIL, 0, Nil);
    case BoolLit(b) => n := LiteralRuns(rt, p, names, c, act, stack, globals, LD_BOOL, if b then 1 else 0, Bool(b));
    case IntLit(k) =>
      n := LiteralRuns(rt, p, names, c, act, stack, globals, if -128 <= k <= 127 then LD_INT else LD_INT_W, k, Int(k));
    case Name(x) =>
      if act.Push? {
        LoadNameRuns(rt, p, names, c, x, stack, globals);
        n := 1;
      } else {
        n := 0;
        NothingRuns(rt, p, names, c, stack, globals, Lookup(rt, StoreOf(names, globals), x));
      }
    case Bin(op, l, r) =>
      var c1 := CompileExpr(c, l, Push);
      CompileBinGrows(c1, op, r, act);
      ExtendsEarlier(p, names, c1, CompileBin(c1, op, r, act));
      n, globals' := ExprCorrect(rt, p, names, c, l, Push, stack, globals);
      n, globals' := BinCorrect(rt, p, names, c, c1, op, r, act, stack, globals, Eval(rt, StoreOf(names, globals), l),
        n, globals');
    case Un(op, a) => n, globals' := UnCorrect(rt, p, names, c, e, act, stack, globals);
    case And(_, _) => n, globals' := LogicalCorrect(rt, p, names, c, e, act, stack, globals);
    case Or(_, _) => n, globals' := LogicalCorrect(rt, p, names, c, e, act, stack, globals);
    case Assign(x, r) =>
      var c1 := CompileExpr(c, r, Push);
      StoreGrows(c1, x, act);
      ExtendsEarlier(p, names, c1, CompileStore(c1, x, act));
      n, globals' := ExprCorrect(rt, p, names, c, r, Push, stack, globals);
      n, globals' := StoreRuns(rt, p, names, c, c1, x, act, stack, globals, Eval(rt, StoreOf(names, globals), r), n,
        globals');
    case OpAssign(op, x, r) =>
      var c1 := LoadName(c, x);
      var c2 := CompileBin(c1, op, r, Push);
      StoreGrows(c2, x, act);
      ExtendsEarlier(p, names, c2, CompileStore(c2, x, act));
      CompileBinGrows(c1, op, r, Push);
      ExtendsEarlier(p, names, c1, c2);
      LoadNameRuns(rt, p, names, c, x, stack, globals);
      var left := Ok(Lookup(rt, StoreOf(names, globals), x), StoreOf(names, globals));
      n, globals' := BinCorrect(rt, p, names, c, c1, op, r, Push, stack, globals, left, 1, globals);
      n, globals' := StoreRuns(rt, p, names, c, c2, x, act, stack, globals, EvalBin(rt, left, op, r), n, globals');
  }

  lemma NothingRuns(rt: Runtime, p: Program, names: seq<string>, c: Code, stack: seq<Value>, globals: seq<Value>,
      v: Value)
    requires |globals| == |names|
    ensures ExprRuns(rt, p, names, c, c, EvalOnly, stack, globals, Ok(v, StoreOf(names, globals)), 0, globals)
  {
  }

  lemma {:induction false} BinCorrect(rt: Runtime, p: Program, names: seq<string>, c: Code, c1: Code, op: BinOp,
      r: Expr, act: Action, stack: seq<Value>,
      globals: seq<Value>, left: Result, n1: nat, globals1: seq<Value>)
    returns (n: nat, globals': seq<Value>)
    requires |globals| == |names| && Distinct(names) && Extends(p, names, CompileBin(c1, op, r, act))
    requires ExprRuns(rt, p, names, c, c1, Push, stack, globals, left, n1, globals1)
    ensures ExprRuns(rt, p, names, c, CompileBin(c1, op, r, act), act, stack, globals, EvalBin(rt, left, op, r), n,
      globals')
    decreases r, 2
  {
    hide Extends, Distinct, Operate, Grown, StoreOf, Execute, CompileExpr, Steps, Step, OpcodeOf;
    n, globals' := n1, globals1;
    if left.Ok? {
      var vm := Running(|c.prog.instrs|, stack, globals);
      var d := CompileExpr(c1, r, Push);
      EmitGrows(Emit(d, OpcodeOf(op), 0), 0, 0, act);
      ExtendsEarlier(p, names, Emit(d, OpcodeOf(op), 0), CompileBin(c1, op, r, act));
      EmitGrows(d, OpcodeOf(op), 0, act);
      ExtendsEarlier(p, names, d, Emit(d, OpcodeOf(op), 0));
      var n2, globals2 := ExprCorrect(rt, p, names, c1, r, Push, stack + [left.v], globals1);
      StepsAdd(rt, p, names, vm, n1, n2);
      n, globals' := n1 + n2, globals2;
      var right := Eval(rt, StoreOf(names, globals1), r);
      if right.Ok? {
        OperateExecutes(rt, names, p.symbols, op, stack, left.v, right.v, globals2);
        OperationRuns(rt, p, names, c, d, stack, globals, stack + [left.v] + [right.v], globals2, n, OpcodeOf(op),
          Operate(rt, op, left.v, right.v));
        n := DropRuns(rt, p, names, c, Emit(d, OpcodeOf(op), 0), act, stack, globals,
          FromOutcome(Operate(rt, op, left.v, right.v), StoreOf(names, globals2)), n + 1, globals2);
      }
    }
  }

  lemma {:induction false} UnCorrect(rt: Runtime, p: Program, names: seq<string>, c: Code, e: Expr, act: Action,
      stack: seq<Value>, globals: seq<Value>)
    returns (n: nat, globals': seq<Value>)
    requires e.Un? && |globals| == |names| && Distinct(names) && Extends(p, names, CompileExpr(c, e, act))
    ensures ExprRuns(rt, p, names, c, CompileExpr(c, e, act), act, stack, globals, Eval(rt, StoreOf(names, globals), e),
      n, globals')
    decreases e, 0
  {
    hide Extends, Distinct, Operate1, Grown, StoreOf, Execute;
    var op := e.uop;
    var d := CompileExpr(c, e.arg, Push);
    EmitGrows(Emit(d, OpcodeOf1(op), 0), 0, 0, act);
    ExtendsEarlier(p, names, Emit(d, OpcodeOf1(op), 0), DropIf(Emit(d, OpcodeOf1(op), 0), act));
    EmitGrows(d, OpcodeOf1(op), 0, act);
    ExtendsEarlier(p, names, d, Emit(d, OpcodeOf1(op), 0));
    n, globals' := ExprCorrect(rt, p, names, c, e.arg, Push, stack, globals);
    var inner := Eval(rt, StoreOf(names, globals), e.arg);
    if inner.Ok? {
      Operate1Executes(rt, names, p.symbols, op, stack, inner.v, globals');
      OperationRuns(rt, p, names, c, d, stack, globals, stack + [inner.v], globals', n, OpcodeOf1(op),
        Operate1(rt, op, inner.v));
      n := DropRuns(rt, p, names, c, Emit(d, OpcodeOf1(op), 0), act, stack, globals,
        FromOutcome(Operate1(rt, op, inner.v), StoreOf(names, globals')), n + 1, globals');
    }
  }

  /** The jump over the right operand, and the code behind it if it is not taken. */
  lemma LogicalJump(rt: Runtime, p: Program, names: seq<string>, vm: Vm, n: nat, c1: Code, jump: nat, end: nat,
      stack: seq<Value>, v: Value, globals: seq<Value>)
    requires Steps(rt, p, names, vm, n) == Running(|c1.prog.instrs|, stack + [v], globals) &&
      jump in {JMP_WHEN, JMP_UNLS}
    requires Extends(p, names, Emit(EmitJump(Emit(c1, DUP, 0), jump, end), DROP, 0)) && end < |p.labels| &&
      p.labels[end] >= 0
    ensures !v.Bool? ==> Steps(rt, p, names, vm, n + 2) == Threw(rt.notBoolean, globals)
    ensures v.Bool? && v.b == (jump == JMP_WHEN) ==>
      Steps(rt, p, names, vm, n + 2) == Running(p.labels[end], stack + [v], globals)
    ensures v.Bool? && v.b != (jump == JMP_WHEN) ==>
      Steps(rt, p, names, vm, n + 3) == Running(|c1.prog.instrs| + 3, stack, globals)
  {
    hide Steps, Extends;
    var c0 := Emit(c1, DUP, 0);
    var c2 := EmitJump(c0, jump, end);
    JumpGrows(c0, jump, end); EmitGrows(c2, DROP, 0, Push);
    ExtendsEarlier(p, names, c2, Emit(c2, DROP, 0));
    ExtendsEarlier(p, names, c0, c2);
    AtEmit(p, names, c1, DUP, 0);
    ThenPlain(rt, p, names, vm, n, |c1.prog.instrs|, stack + [v], globals, DUP, 0);
    AtJump(p, names, c0, jump, end);
    ThenJump(rt, p, names, vm, n + 1, |c1.prog.instrs| + 1, stack + [v] + [v], globals, jump, end);
    assert (stack + [v] + [v])[..|stack| + 1] == stack + [v];
    if v.Bool? && v.b != (jump == JMP_WHEN) {
      AtEmit(p, names, c2, DROP, 0);
      ThenPlain(rt, p, names, vm, n + 2, |c1.prog.instrs| + 2, stack + [v], globals, DROP, 0);
      assert (stack + [v])[..|stack|] == stack;
    }
  }

  lemma JumpGrows(c: Code, op: nat, target: nat)
    ensures Grown(c, EmitJump(c, op, target))
  {
  }

  /** What `&&` and `||` make of the left operand. */
  function FromLeft(rt: Runtime, e: Expr, left: Result): Result
    requires e.And? || e.Or?
  {
    match left
    case Ok(Bool(b), st1) => if b == e.And? then Eval(rt, st1, e.rhs) else Ok(Bool(b), st1)
    case Ok(_, st1) => Raised(rt.notBoolean, st1)
    case other => other
  }

  /** Short-circuit evaluation: the right operand is skipped exactly if the left one decides. */
  lemma {:induction false} LogicalRuns(rt: Runtime, p: Program, names: seq<string>, c: Code, e: Expr, jump: nat,
      stack: seq<Value>, globals: seq<Value>)
    returns (n: nat, globals': seq<Value>)
    requires (e.And? || e.Or?) && jump == (if e.And? then JMP_UNLS else JMP_WHEN) && |globals| == |names| &&
      Distinct(names)
    requires Extends(p, names, CompileLogical(c, e, jump, Push))
    ensures ExprRuns(rt, p, names, c, CompileLogical(c, e, jump, Push), Push, stack, globals,
      FromLeft(rt, e, Eval(rt, StoreOf(names, globals), e.lhs)), n, globals')
    decreases e, 0, 0
  {
    hide Distinct, Grown, StoreOf, Extends, Step, Execute, Decide, Eval, CompileExpr;
    var end := |c.prog.labels|;
    var c1 := CompileExpr(Prepare(c), e.lhs, Push);
    var c3 := Emit(EmitJump(Emit(c1, DUP, 0), jump, end), DROP, 0);
    LogicalExtends(p, names, c, e, jump, Push);
    n, globals' := ExprCorrect(rt, p, names, Prepare(c), e.lhs, Push, stack, globals);
    var left := Eval(rt, StoreOf(names, globals), e.lhs);
    if left.Ok? {
      var vm := Running(|c.prog.instrs|, stack, globals);
      LogicalJump(rt, p, names, vm, n, c1, jump, end, stack, left.v, globals');
      if left.v.Bool? && left.v.b == e.And? {
        var n2, globals2 := ExprCorrect(rt, p, names, c3, e.rhs, Push, stack, globals');
        StepsAdd(rt, p, names, vm, n + 3, n2);
        n, globals' := n + 3 + n2, globals2;
      } else {
        n := n + 2;
      }
    }
  }

  lemma {:induction false} LogicalCorrect(rt: Runtime, p: Program, names: seq<string>, c: Code, e: Expr, act: Action,
      stack: seq<Value>, globals: seq<Value>)
    returns (n: nat, globals': seq<Value>)
    requires (e.And? || e.Or?) && |globals| == |names| && Distinct(names) && Extends(p, names, CompileExpr(c, e, act))
    ensures ExprRuns(rt, p, names, c, CompileExpr(c, e, act), act, stack, globals, Eval(rt, StoreOf(names, globals), e),
      n, globals')
    decreases e, 0, 1
  {
    hide Distinct, Grown, StoreOf, Extends, ExprRuns;
    var jump := if e.And? then JMP_UNLS else JMP_WHEN;
    var c5 := CompileLogical(c, e, jump, Push);
    EmitGrows(c5, 0, 0, act);
    ExtendsEarlier(p, names, c5, DropIf(c5, act));
    n, globals' := LogicalRuns(rt, p, names, c, e, jump, stack, globals);
    n := DropRuns(rt, p, names, c, c5, act, stack, globals, Eval(rt, StoreOf(names, globals), e), n, globals');
  }

  lemma {:induction false} LogicalExtends(p: Program, names: seq<string>, c: Code, e: Expr, jump: nat, act: Action)
    requires (e.And? || e.Or?) && Extends(p, names, CompileLogical(c, e, jump, act))
    ensures
      var end := |c.prog.labels|;
      var c1 := CompileExpr(Prepare(c), e.lhs, Push);
      var c2 := EmitJump(Emit(c1, DUP, 0), jump, end);
      var c3 := Emit(c2, DROP, 0);
      var c4 := CompileExpr(c3, e.rhs, Push);
      && Extends(p, names, c1) && Extends(p, names, Emit(c1, DUP, 0)) && Extends(p, names, c2) &&
        Extends(p, names, c3) && Extends(p, names, c4)
      && end < |p.labels| && p.labels[end] == |c4.prog.instrs|
  {
    var end := |c.prog.labels|;
    var c1 := CompileExpr(Prepare(c), e.lhs, Push);
    CompileExprGrows(Prepare(c), e.lhs, Push);
    var c2 := EmitJump(Emit(c1, DUP, 0), jump, end);
    var c3 := Emit(c2, DROP, 0);
    var c4 := CompileExpr(c3, e.rhs, Push);
    CompileExprGrows(c3, e.rhs, Push);
    var c5 := Place(c4, end);
    EmitGrows(c5, 0, 0, act);
    ExtendsEarlier(p, names, c5, CompileLogical(c, e, jump, act));
    PlacedExtends(p, names, c4, end);
    ExtendsEarlier(p, names, c3, c4);
    ExtendsEarlier(p, names, c2, c3);
    ExtendsEarlier(p, names, Emit(c1, DUP, 0), c2);
    ExtendsEarlier(p, names, c1, Emit(c1, DUP, 0));
  }

  /** Before a label was placed there was one place less to agree on. */
  lemma PlacedExtends(p: Program, names: seq<string>, c: Code, target: nat)
    requires target < |c.prog.labels| && c.prog.labels[target] == UNPLACED && Extends(p, names, Place(c, target))
    ensures Extends(p, names, c) && target < |p.labels| && p.labels[target] == |c.prog.instrs|
  {
    var d := Place(c, target);
    assert d.prog.labels[target] == |c.prog.instrs|;
    forall l | 0 <= l < |c.prog.labels| && c.prog.labels[l] >= 0 ensures p.labels[l] == c.prog.labels[l] {
      assert d.prog.labels[l] == c.prog.labels[l];
    }
  }

  // ----- Statements ---------------------------------------------------------

  /** From state `c` to state `d` of the generator, the code has the effect `run`, and leaves
      the stack as it was; when the source is not done after `fuel` iterations, the machine is
      still at work after as many steps. */
  ghost predicate StmtRuns(rt: Runtime, p: Program, names: seq<string>, c: Code, d: Code, stack: seq<Value>,
      globals: seq<Value>,
      run: Run, fuel: nat, n: nat, globals': seq<Value>)
    requires |globals| == |names|
  {
    |globals'| == |names| &&
    var vm := Steps(rt, p, names, Running(|c.prog.instrs|, stack, globals), n);
    match run
    case Normal(st) => st == StoreOf(names, globals') && vm == Running(|d.prog.instrs|, stack, globals')
    case Failed(e, st) => st == StoreOf(names, globals') && vm == Threw(e, globals')
    case Halted => vm == Crashed
    case OutOfFuel => vm.Running? && n > fuel
  }

  lemma EffectRuns(rt: Runtime, p: Program, names: seq<string>, c: Code, d: Code, stack: seq<Value>,
      globals: seq<Value>,
      res: Result, fuel: nat, n: nat, globals': seq<Value>)
    requires |globals| == |names| && ExprRuns(rt, p, names, c, d, EvalOnly, stack, globals, res, n, globals')
    ensures StmtRuns(rt, p, names, c, d, stack, globals, EffectOf(res), fuel, n, globals')
  {
  }

  /** A condition and the jump that is taken unless it holds. */
  lemma ConditionRuns(rt: Runtime, p: Program, names: seq<string>, c: Code, cond: Expr, target: nat, stack: seq<Value>,
      globals: seq<Value>)
    returns (n: nat, globals': seq<Value>)
    requires |globals| == |names| && Distinct(names) &&
      Extends(p, names, EmitJump(CompileExpr(c, cond, Push), JMP_UNLS, target))
    requires target < |p.labels| && p.labels[target] >= 0
    ensures |globals'| == |names|
    ensures
      var vm := Steps(rt, p, names, Running(|c.prog.instrs|, stack, globals), n);
      match Eval(rt, StoreOf(names, globals), cond)
      case Ok(v, st) => st == StoreOf(names, globals') && vm ==
        (if !v.Bool? then Threw(rt.notBoolean, globals')
         else if v.b then Running(|CompileExpr(c, cond, Push).prog.instrs| + 1, stack, globals')
         else Running(p.labels[target], stack, globals'))
      case Raised(e, st) => st == StoreOf(names, globals') && vm == Threw(e, globals')
      case Stuck => vm == Crashed
  {
    hide Extends, Distinct, StoreOf, Steps, Step;
    var d := CompileExpr(c, cond, Push);
    JumpGrows(d, JMP_UNLS, target);
    ExtendsEarlier(p, names, d, EmitJump(d, JMP_UNLS, target));
    n, globals' := ExprCorrect(rt, p, names, c, cond, Push, stack, globals);
    var res := Eval(rt, StoreOf(names, globals), cond);
    if res.Ok? {
      AtJump(p, names, d, JMP_UNLS, target);
      ThenJump(rt, p, names, Running(|c.prog.instrs|, stack, globals), n, |d.prog.instrs|, stack + [res.v], globals',
        JMP_UNLS, target);
      assert (stack + [res.v])[..|stack|] == stack;
      n := n + 1;
    }
  }

  /** Two pieces of code, one after the other. */
  lemma {:induction false} SequenceRuns(rt: Runtime, p: Program, names: seq<string>, c: Code, d: Code, e: Code,
      stack: seq<Value>, globals: seq<Value>, globals1: seq<Value>, n: nat,
      run: Run, fuel: nat, m: nat, globals': seq<Value>)
    requires |globals| == |names| == |globals1| &&
      Steps(rt, p, names, Running(|c.prog.instrs|, stack, globals), n) == Running(|d.prog.instrs|, stack, globals1)
    requires StmtRuns(rt, p, names, d, e, stack, globals1, run, fuel, m, globals')
    ensures StmtRuns(rt, p, names, c, e, stack, globals, run, fuel, n + m, globals')
  {
    StepsAdd(rt, p, names, Running(|c.prog.instrs|, stack, globals), n, m);
  }

  /** Every statement of the fragment, run for any number of loop iterations. */
  lemma {:induction false} StmtCorrect(rt: Runtime, p: Program, names: seq<string>, c: Code, s: Stmt, fuel: nat,
      stack: seq<Value>, globals: seq<Value>)
    returns (n: nat, globals': seq<Value>)
    requires |globals| == |names| && Distinct(names) && Extends(p, names, CompileStmt(c, s))
    ensures StmtRuns(rt, p, names, c, CompileStmt(c, s), stack, globals, Exec(rt, StoreOf(names, globals), s, fuel),
      fuel, n, globals')
    decreases fuel, s, 1
  {
    hide Extends, Distinct, StoreOf, Steps, Step, StmtRuns, ExprRuns, Grown;
    match s
    case ExprStmt(e) =>
      n, globals' := ExprCorrect(rt, p, names, c, e, EvalOnly, stack, globals);
      EffectRuns(rt, p, names, c, CompileExpr(c, e, EvalOnly), stack, globals, Eval(rt, StoreOf(names, globals), e),
        fuel, n, globals');
    case If(bs) =>
      var end := |c.prog.labels|;
      var c1 := CompileBranches(Prepare(c), bs, end);
      CompileBranchesGrows(Prepare(c), bs, end);
      PreparedStays(c, c1);
      PlacedExtends(p, names, c1, end);
      n, globals' := BranchesCorrect(rt, p, names, Prepare(c), bs, end, |c1.prog.instrs|, fuel, stack, globals);
      SamePosition(rt, p, names, Prepare(c), c, c1, Place(c1, end), stack, globals,
        Exec(rt, StoreOf(names, globals), s, fuel), fuel, n, globals');
    case While(cond, body) =>
      n, globals' := WhileCorrect(rt, p, names, c, s, fuel, stack, globals);
  }

  lemma PreparedStays(c: Code, d: Code)
    requires Grown(Prepare(c), d)
    ensures |c.prog.labels| < |d.prog.labels| && d.prog.labels[|c.prog.labels|] == UNPLACED
  {
    assert Prepare(c).prog.labels[|c.prog.labels|] == UNPLACED;
  }

  /** Labels do not matter for where the code is. */
  lemma SamePosition(rt: Runtime, p: Program, names: seq<string>, c: Code, c': Code, d: Code, d': Code,
      stack: seq<Value>, globals: seq<Value>,
      run: Run, fuel: nat, n: nat, globals': seq<Value>)
    requires |globals| == |names| && StmtRuns(rt, p, names, c, d, stack, globals, run, fuel, n, globals')
    requires c'.prog.instrs == c.prog.instrs && d'.prog.instrs == d.prog.instrs
    ensures StmtRuns(rt, p, names, c', d', stack, globals, run, fuel, n, globals')
  {
  }

  lemma {:induction false} BlockCorrect(rt: Runtime, p: Program, names: seq<string>, c: Code, b: Block, fuel: nat,
      stack: seq<Value>, globals: seq<Value>)
    returns (n: nat, globals': seq<Value>)
    requires |globals| == |names| && Distinct(names) && Extends(p, names, CompileBlock(c, b))
    ensures StmtRuns(rt, p, names, c, CompileBlock(c, b), stack, globals,
      ExecBlock(rt, StoreOf(names, globals), b, fuel), fuel, n, globals')
    decreases fuel, b, 1
  {
    hide Extends, Distinct, StoreOf, Grown;
    n, globals' := 0, globals;
    if b.Then? {
      var c1 := CompileStmt(c, b.first);
      CompileBlockGrows(c1, b.rest);
      ExtendsEarlier(p, names, c1, CompileBlock(c1, b.rest));
      n, globals' := StmtCorrect(rt, p, names, c, b.first, fuel, stack, globals);
      if Exec(rt, StoreOf(names, globals), b.first, fuel).Normal? {
        var m, globals2 := BlockCorrect(rt, p, names, c1, b.rest, fuel, stack, globals');
        SequenceRuns(rt, p, names, c, c1, CompileBlock(c1, b.rest), stack, globals, globals', n,
          ExecBlock(rt, StoreOf(names, globals'), b.rest, fuel), fuel, m, globals2);
        n, globals' := n + m, globals2;
      }
    }
  }

  /** The branches of an if statement all end at `finish`, where the label `end` is. */
  lemma {:induction false} BranchesCorrect(rt: Runtime, p: Program, names: seq<string>, c: Code, bs: Branches, end: nat,
      finish: nat, fuel: nat,
      stack: seq<Value>, globals: seq<Value>)
    returns (n: nat, globals': seq<Value>)
    requires |globals| == |names| && Distinct(names) && Extends(p, names, CompileBranches(c, bs, end))
    requires end < |p.labels| && p.labels[end] == finish == |CompileBranches(c, bs, end).prog.instrs|
    ensures StmtRuns(rt, p, names, c, CompileBranches(c, bs, end), stack, globals,
      ExecBranches(rt, StoreOf(names, globals), bs, fuel), fuel, n, globals')
    decreases fuel, bs, 1
  {
    hide Extends, Distinct, StoreOf, Grown, Steps, Step;
    match bs
    case NoElse => n, globals' := 0, globals; NoSteps(rt, p, names, Running(|c.prog.instrs|, stack, globals));
    case Else(b) => n, globals' := BlockCorrect(rt, p, names, c, b, fuel, stack, globals);
    case Branch(cond, b, rest) => n, globals' := BranchCorrect(rt, p, names, c, bs, end, finish, fuel, stack, globals);
  }

  lemma {:induction false} NoSteps(rt: Runtime, p: Program, names: seq<string>, vm: Vm)
    ensures Steps(rt, p, names, vm, 0) == vm
  {
  }

  lemma {:induction false} BranchExtends(p: Program, names: seq<string>, c: Code, bs: Branches, end: nat)
    requires bs.Branch? && Extends(p, names, CompileBranches(c, bs, end))
    ensures
      var next := |c.prog.labels|;
      var c1 := EmitJump(CompileExpr(Prepare(c), bs.cond, Push), JMP_UNLS, next);
      var c2 := CompileBlock(c1, bs.then_);
      var c3 := if bs.others.NoElse? then c2 else EmitJump(c2, JMP, end);
      && next < |c3.prog.labels|
      && Extends(p, names, c1) && Extends(p, names, c2) && Extends(p, names, c3)
      && next < |p.labels| && p.labels[next] == |c3.prog.instrs|
  {
    hide Extends;
    var next := |c.prog.labels|;
    var c0 := CompileExpr(Prepare(c), bs.cond, Push);
    CompileExprGrows(Prepare(c), bs.cond, Push);
    var c1 := EmitJump(c0, JMP_UNLS, next);
    CompileBlockGrows(c1, bs.then_);
    var c2 := CompileBlock(c1, bs.then_);
    var c3 := if bs.others.NoElse? then c2 else EmitJump(c2, JMP, end);
    PreparedStays(c, c3);
    CompileBranchesGrows(Place(c3, next), bs.others, end);
    ExtendsEarlier(p, names, Place(c3, next), CompileBranches(c, bs, end));
    PlacedExtends(p, names, c3, next);
    ExtendsEarlier(p, names, c2, c3);
    ExtendsEarlier(p, names, c1, c2);
  }

  lemma {:induction false} BranchCorrect(rt: Runtime, p: Program, names: seq<string>, c: Code, bs: Branches, end: nat,
      finish: nat, fuel: nat,
      stack: seq<Value>, globals: seq<Value>)
    returns (n: nat, globals': seq<Value>)
    requires bs.Branch? && |globals| == |names| && Distinct(names) && Extends(p, names, CompileBranches(c, bs, end))
    requires end < |p.labels| && p.labels[end] == finish == |CompileBranches(c, bs, end).prog.instrs|
    ensures StmtRuns(rt, p, names, c, CompileBranches(c, bs, end), stack, globals,
      ExecBranches(rt, StoreOf(names, globals), bs, fuel), fuel, n, globals')
    decreases fuel, bs, 0
  {
    hide Extends, Distinct, StoreOf, Grown, Steps, Step, CompileExpr, CompileBlock, ExecBlock;
    var next := |c.prog.labels|;
    var c1 := EmitJump(CompileExpr(Prepare(c), bs.cond, Push), JMP_UNLS, next);
    var c2 := CompileBlock(c1, bs.then_);
    var c3 := if bs.others.NoElse? then c2 else EmitJump(c2, JMP, end);
    BranchExtends(p, names, c, bs, end);
    n, globals' := ConditionRuns(rt, p, names, Prepare(c), bs.cond, next, stack, globals);
    var res := Eval(rt, StoreOf(names, globals), bs.cond);
    if res.Ok? && res.v.Bool? {
      if res.v.b {
        var m, globals2 := BlockCorrect(rt, p, names, c1, bs.then_, fuel, stack, globals');
        var run := ExecBlock(rt, StoreOf(names, globals'), bs.then_, fuel);
        SequenceRuns(rt, p, names, c, c1, c2, stack, globals, globals', n, run, fuel, m, globals2);
        n, globals' := n + m, globals2;
        if run.Normal? && !bs.others.NoElse? {
          AtJump(p, names, c2, JMP, end);
          ThenJump(rt, p, names, Running(|c.prog.instrs|, stack, globals), n, |c2.prog.instrs|, stack, globals', JMP,
            end);
          n := n + 1;
        }
      } else {
        var m, globals2 := BranchesCorrect(rt, p, names, Place(c3, next), bs.others, end, finish, fuel, stack,
          globals');
        SequenceRuns(rt, p, names, c, Place(c3, next), CompileBranches(c, bs, end), stack, globals, globals', n,
          ExecBranches(rt, StoreOf(names, globals'), bs.others, fuel), fuel, m, globals2);
        n, globals' := n + m, globals2;
      }
    }
  }

  /** Loops: the jump at the end of the body leads back to the condition. */
  lemma {:induction false} WhileCorrect(rt: Runtime, p: Program, names: seq<string>, c: Code, s: Stmt, fuel: nat,
      stack: seq<Value>, globals: seq<Value>)
    returns (n: nat, globals': seq<Value>)
    requires s.While? && |globals| == |names| && Distinct(names) && Extends(p, names, CompileStmt(c, s))
    ensures StmtRuns(rt, p, names, c, CompileStmt(c, s), stack, globals, Exec(rt, StoreOf(names, globals), s, fuel),
      fuel, n, globals')
    decreases fuel, s, 0
  {
    hide Extends, Distinct, StoreOf, Grown, Steps, Step, CompileExpr, CompileBlock, ExecBlock;
    if s.cond == BoolLit(false) {
      n, globals' := 0, globals;
      NoSteps(rt, p, names, Running(|c.prog.instrs|, stack, globals));
    } else {
      var start := |c.prog.labels|;
      var (c1, c2, c3) := WhileParts(c, s);
      WhileExtends(p, names, c, s);
      if s.cond == BoolLit(true) {
        n, globals' := 0, globals;
        NoSteps(rt, p, names, Running(|c.prog.instrs|, stack, globals));
      } else {
        n, globals' := ConditionRuns(rt, p, names, c1, s.cond, start + 1, stack, globals);
      }
      var res := Eval(rt, StoreOf(names, globals), s.cond);
      if res.Ok? && res.v == Bool(true) {
        var m, globals2 := BlockCorrect(rt, p, names, c2, s.body, fuel, stack, globals');
        var run := ExecBlock(rt, StoreOf(names, globals'), s.body, fuel);
        SequenceRuns(rt, p, names, c, c2, c3, stack, globals, globals', n, run, fuel, m, globals2);
        n, globals' := n + m, globals2;
        if run.Normal? {
          LoopBack(rt, p, names, c, s, Running(|c.prog.instrs|, stack, globals), n, stack, globals');
          n := n + 1;
          if fuel > 0 {
            var k, globals3 := StmtCorrect(rt, p, names, c, s, fuel - 1, stack, globals');
            SequenceRuns(rt, p, names, c, c, CompileStmt(c, s), stack, globals, globals', n,
              Exec(rt, StoreOf(names, globals'), s, fuel - 1), fuel - 1, k, globals3);
            n, globals' := n + k, globals3;
          }
        }
      }
    }
  }

  /** From the end of the body back to the condition. */
  lemma LoopBack(rt: Runtime, p: Program, names: seq<string>, c: Code, s: Stmt, vm: Vm, n: nat, stack: seq<Value>,
      globals: seq<Value>)
    requires s.While? && s.cond != BoolLit(false) && Extends(p, names, CompileStmt(c, s))
    requires Steps(rt, p, names, vm, n) == Running(|WhileParts(c, s).2.prog.instrs|, stack, globals)
    ensures Steps(rt, p, names, vm, n + 1) == Running(|c.prog.instrs|, stack, globals)
  {
    hide Extends, Steps, Step, CompileStmt;
    var c3 := WhileParts(c, s).2;
    WhileExtends(p, names, c, s);
    AtJump(p, names, c3, JMP, |c.prog.labels|);
    ThenJump(rt, p, names, vm, n, |c3.prog.instrs|, stack, globals, JMP, |c.prog.labels|);
  }

  /** The states of the generator at the condition, at the body and behind it. */
  function WhileParts(c: Code, s: Stmt): (Code, Code, Code)
    requires s.While?
  {
    var start := |c.prog.labels|;
    var c1 := Prepare(Place(Prepare(c), start));
    var c2 := if s.cond == BoolLit(true) then c1 else EmitJump(CompileExpr(c1, s.cond, Push), JMP_UNLS, start + 1);
    (c1, c2, CompileBlock(c2, s.body))
  }

  lemma {:induction false} WhileExtends(p: Program, names: seq<string>, c: Code, s: Stmt)
    requires s.While? && s.cond != BoolLit(false) && Extends(p, names, CompileStmt(c, s))
    ensures
      var (c1, c2, c3) := WhileParts(c, s);
      var start := |c.prog.labels|;
      && Extends(p, names, c2) && Extends(p, names, c3) && Extends(p, names, EmitJump(c3, JMP, start))
      && start < |p.labels| && p.labels[start] == |c.prog.instrs|
      && (s.cond != BoolLit(true) ==>
        start + 1 < |p.labels| && p.labels[start + 1] == |c3.prog.instrs| + 1 == |CompileStmt(c, s).prog.instrs|)
  {
    hide Extends;
    var (c1, c2, c3) := WhileParts(c, s);
    var start := |c.prog.labels|;
    if s.cond != BoolLit(true) { CompileExprGrows(c1, s.cond, Push); }
    CompileBlockGrows(c2, s.body);
    var c4 := EmitJump(c3, JMP, start);
    if s.cond != BoolLit(true) {
      assert c1.prog.labels[start + 1] == UNPLACED;
      PlacedExtends(p, names, c4, start + 1);
    }
    assert c1.prog.labels[start] == |c.prog.instrs| == c4.prog.labels[start];
    PlaceKnown(p, names, c4, start);
    ExtendsEarlier(p, names, c3, c4);
    ExtendsEarlier(p, names, c2, c3);
  }

  lemma PlaceKnown(p: Program, names: seq<string>, c: Code, target: nat)
    requires Extends(p, names, c) && target < |c.prog.labels| && c.prog.labels[target] >= 0
    ensures target < |p.labels| && p.labels[target] == c.prog.labels[target]
  {
  }
}
