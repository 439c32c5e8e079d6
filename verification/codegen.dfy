/** The code generator as an object: it walks the syntax tree and feeds the assembler. */
module Codegen {
  import opened Language
  import opened Bytecode
  import opened Emission
  import opened Labelled
  import opened Assembling
  import opened AssemblerObject
  import opened ModuleObjects
  import opened Wellformed
  import opened LabelCount

  datatype Generated = Success(out: Output) | Error | AssertionFailed

  class Generator {
    const assembler: Assembler
    var variables: map<string, nat>      // the scope of the module: indices by name
    ghost var names: seq<string>         // the same, names by index

    ghost predicate Valid()
      reads this
    {
      Table(variables, names)
    }

    /** The state as the specification has it, as long as no error has been thrown. */
    ghost function State(): Code
      reads this, assembler
    {
      Code(assembler.Contents(), names, Fine)
    }

    constructor ()
      ensures Valid() && fresh(assembler) && State() == Code(Program([], [], []), [], Fine)
    {
      assembler := new Assembler();
      variables, names := map[], [];
    }

    // ----- Names ------------------------------------------------------------

    /** A name that is not known gets the next index. */
    method Register(x: string) returns (index: nat)
      requires Valid() && x !in variables
      modifies this
      ensures Valid() && names == old(names) + [x] && index == |old(names)|
    {
      TableGrows(variables, names, x);
      index := |variables|;
      variables := variables[x := index];
      names := names + [x];
    }

    /** An index behind an opcode; too many names are an error. */
    method EmitIndexed(narrow: nat, index: nat) returns (r: Status)
      requires Valid()
      modifies assembler
      ensures r == Indexed(old(State()), narrow, index).status
      ensures r.Fine? ==> State() == Indexed(old(State()), narrow, index)
    {
      if index <= 255 {
        assembler.Append(narrow, index);
        r := Fine;
      } else if index <= MAX_INDEX {
        assembler.Append(narrow + 1, index);
        r := Fine;
      } else {
        r := TooManyNames;
      }
    }

    method EmitLoad(x: string) returns (r: Status)
      requires Valid()
      modifies assembler
      ensures r == LoadName(old(State()), x).status
      ensures r.Fine? ==> State() == LoadName(old(State()), x)
    {
      if x in variables {
        r := EmitIndexed(LD_GLOB, variables[x]);
      } else {
        var index := assembler.Symbol(x);
        r := EmitIndexed(LD_GLOB_Y, index);
      }
    }

    method EmitStore(x: string, act: Action) returns (r: Status)
      requires Valid()
      modifies this, assembler
      ensures Valid()
      ensures r == CompileStore(old(State()), x, act).status
      ensures r.Fine? ==> State() == CompileStore(old(State()), x, act)
    {
      if act.Push? { assembler.Append(DUP, 0); }
      var index;
      if x in variables {
        index := variables[x];
      } else {
        index := Register(x);
        AppendedIndex(old(names), x, x);
      }
      r := EmitIndexed(ST_GLOB, index);
    }

    // ----- Expressions ------------------------------------------------------

    method EmitLiteral(op: nat, operand: int, act: Action)
      modifies assembler
      ensures State() == Literal(old(State()), act, op, operand)
    {
      if act.Push? { assembler.Append(op, operand); }
    }

    method EmitExpr(e: Expr, act: Action) returns (r: Status)
      requires Valid()
      modifies this, assembler
      ensures Valid()
      ensures r == CompileExpr(old(State()), e, act).status
      ensures r.Fine? ==> State() == CompileExpr(old(State()), e, act)
      decreases e, 2
    {
      hide Indexed, LoadName, CompileStore, CompileBin, CompileLogical, DropIf, Table, OpcodeOf1;
      r := Fine;
      match e
      case NilLit => EmitLiteral(LD_NIL, 0, act);
      case BoolLit(b) => EmitLiteral(LD_BOOL, if b then 1 else 0, act);
      case IntLit(n) => EmitLiteral(if -128 <= n <= 127 then LD_INT else LD_INT_W, n, act);
      case Name(x) => if act.Push? { r := EmitLoad(x); }
      case Bin(_, _, _) => r := EmitBinary(e, act);
      case Un(_, _) => r := EmitUnary(e, act);
      case And(_, _) => r := EmitLogical(e, JMP_UNLS, act);
      case Or(_, _) => r := EmitLogical(e, JMP_WHEN, act);
      case Assign(_, _) => r := EmitAssign(e, act);
      case OpAssign(_, _, _) => r := EmitOpAssign(e, act);
    }

    method EmitBinary(e: Expr, act: Action) returns (r: Status)
      requires Valid() && e.Bin?
      modifies this, assembler
      ensures Valid()
      ensures r == CompileExpr(old(State()), e, act).status
      ensures r.Fine? ==> State() == CompileExpr(old(State()), e, act)
      decreases e, 1
    {
      hide CompileBin, Table;
      ghost var c1 := CompileExpr(State(), e.lhs, Push);
      FaultBin(c1, e.op, e.rhs, act);
      r := EmitExpr(e.lhs, Push);
      if r.Fine? { r := EmitBin(e.op, e.rhs, act); }
    }

    method EmitBin(op: BinOp, e: Expr, act: Action) returns (r: Status)
      requires Valid()
      modifies this, assembler
      ensures Valid()
      ensures r == CompileBin(old(State()), op, e, act).status
      ensures r.Fine? ==> State() == CompileBin(old(State()), op, e, act)
      decreases e, 3
    {
      hide CompileExpr, OpcodeOf, Table;
      r := EmitExpr(e, Push);
      if r.Fine? {
        assembler.Append(OpcodeOf(op), 0);
        EmitDrop(act);
      }
    }

    method EmitDrop(act: Action)
      modifies assembler
      ensures State() == DropIf(old(State()), act)
    {
      if act.EvalOnly? { assembler.Append(DROP, 0); }
    }

    method EmitUnary(e: Expr, act: Action) returns (r: Status)
      requires Valid() && e.Un?
      modifies this, assembler
      ensures Valid()
      ensures r == CompileExpr(old(State()), e, act).status
      ensures r.Fine? ==> State() == CompileExpr(old(State()), e, act)
      decreases e, 1
    {
      hide OpcodeOf1, Table;
      r := EmitExpr(e.arg, Push);
      if r.Fine? {
        assembler.Append(OpcodeOf1(e.uop), 0);
        EmitDrop(act);
      }
    }

    method EmitAssign(e: Expr, act: Action) returns (r: Status)
      requires Valid() && e.Assign?
      modifies this, assembler
      ensures Valid()
      ensures r == CompileExpr(old(State()), e, act).status
      ensures r.Fine? ==> State() == CompileExpr(old(State()), e, act)
      decreases e, 1
    {
      hide CompileStore, Table;
      FaultStore(CompileExpr(State(), e.rhs, Push), e.target, act);
      r := EmitExpr(e.rhs, Push);
      if r.Fine? { r := EmitStore(e.target, act); }
    }

    method EmitOpAssign(e: Expr, act: Action) returns (r: Status)
      requires Valid() && e.OpAssign?
      modifies this, assembler
      ensures Valid()
      ensures r == CompileExpr(old(State()), e, act).status
      ensures r.Fine? ==> State() == CompileExpr(old(State()), e, act)
      decreases e, 1
    {
      hide CompileStore, LoadName, CompileBin, Table;
      ghost var c1 := LoadName(State(), e.target);
      FaultBin(c1, e.op, e.rhs, Push);
      FaultStore(CompileBin(c1, e.op, e.rhs, Push), e.target, act);
      r := EmitLoad(e.target);
      if r.Fine? { r := EmitBin(e.op, e.rhs, Push); }
      if r.Fine? { r := EmitStore(e.target, act); }
    }

    /** A jump to a label whose number does not fit ends the process. */
    method EmitJumpTo(op: nat, target: nat) returns (r: Status)
      modifies assembler
      ensures r == EmitJump(old(State()), op, target).status
      ensures r.Fine? ==> State() == EmitJump(old(State()), op, target)
    {
      var done := assembler.AppendJump(op, target);
      r := if done then Fine else TooManyLabels;
    }

    method EmitLogical(e: Expr, jump: nat, act: Action) returns (r: Status)
      requires Valid() && (e.And? || e.Or?)
      modifies this, assembler
      ensures Valid()
      ensures r == CompileLogical(old(State()), e, jump, act).status
      ensures r.Fine? ==> State() == CompileLogical(old(State()), e, jump, act)
      decreases e, 1
    {
      hide CompileExpr, Table;
      FaultLogical(State(), e, jump);
      var end := assembler.PrepareLabel();
      r := EmitExpr(e.lhs, Push);
      if !r.Fine? { return; }
      assembler.Append(DUP, 0);
      r := EmitJumpTo(jump, end);
      if !r.Fine? { return; }
      assembler.Append(DROP, 0);
      r := EmitExpr(e.rhs, Push);
      if r.Fine? {
        var _ := assembler.PlaceLabel(end);
        EmitDrop(act);
      }
    }

    // ----- Statements -------------------------------------------------------

    method EmitStmt(s: Stmt) returns (r: Status)
      requires Valid()
      modifies this, assembler
      ensures Valid()
      ensures r == CompileStmt(old(State()), s).status
      ensures r.Fine? ==> State() == CompileStmt(old(State()), s)
      decreases s
    {
      ghost var c := State();
      match s
      case ExprStmt(e) => r := EmitExpr(e, EvalOnly);
      case If(bs) =>
        OkIf(c, bs);
        var end := assembler.PrepareLabel();
        r := EmitBranches(bs, end);
        if r.Fine? { var _ := assembler.PlaceLabel(end); }
      case While(cond, body) => r := EmitWhile(s);
    }

    method EmitWhile(s: Stmt) returns (r: Status)
      requires Valid() && s.While?
      modifies this, assembler
      ensures Valid()
      ensures r == CompileStmt(old(State()), s).status
      ensures r.Fine? ==> State() == CompileStmt(old(State()), s)
      decreases s, 0
    {
      hide CompileExpr, CompileBlock, Guarded, Table;
      r := Fine;
      if s.cond == BoolLit(false) { return; }
      FaultWhile(State(), s);
      var start := assembler.PrepareLabel();
      var _ := assembler.PlaceLabel(start);
      var end := assembler.PrepareLabel();
      if s.cond == BoolLit(true) {
        r := EmitBlock(s.body);
        if r.Fine? { r := EmitJumpTo(JMP, start); }
      } else {
        r := EmitGuarded(s.cond, s.body, end);
        if r.Fine? { r := EmitJumpTo(JMP, start); }
        if r.Fine? { var _ := assembler.PlaceLabel(end); }
      }
    }

    /** A condition, and statements that are jumped over if it is false. */
    method EmitGuarded(cond: Expr, b: Block, target: nat) returns (r: Status)
      requires Valid()
      modifies this, assembler
      ensures Valid()
      ensures r == Guarded(old(State()), cond, b, target).status
      ensures r.Fine? ==> State() == Guarded(old(State()), cond, b, target)
      decreases b, 1
    {
      hide CompileExpr, CompileBlock, EmitJump, Table;
      FaultGuarded(State(), cond, b, target);
      r := EmitExpr(cond, Push);
      if r.Fine? { r := EmitJumpTo(JMP_UNLS, target); }
      if r.Fine? { r := EmitBlock(b); }
    }

    method EmitBlock(b: Block) returns (r: Status)
      requires Valid()
      modifies this, assembler
      ensures Valid()
      ensures r == CompileBlock(old(State()), b).status
      ensures r.Fine? ==> State() == CompileBlock(old(State()), b)
      decreases b, 0
    {
      r := Fine;
      if b.Then? {
        CompileBlockGrows(CompileStmt(State(), b.first), b.rest);
        r := EmitStmt(b.first);
        if r.Fine? { r := EmitBlock(b.rest); }
      }
    }

    method EmitBranches(bs: Branches, end: nat) returns (r: Status)
      requires Valid()
      modifies this, assembler
      ensures Valid()
      ensures r == CompileBranches(old(State()), bs, end).status
      ensures r.Fine? ==> State() == CompileBranches(old(State()), bs, end)
      decreases bs
    {
      hide CompileBlock, CompileExpr, Table;
      BranchesInTurn(State(), bs, end);
      match bs
      case NoElse => r := Fine;
      case Else(b) => r := EmitBlock(b);
      case Branch(cond, b, rest) =>
        r := EmitBranch(bs, end);
        if r.Fine? { r := EmitBranches(rest, end); }
    }

    /** One branch, and the jump behind the others if there are any. */
    method EmitBranch(bs: Branches, end: nat) returns (r: Status)
      requires Valid() && bs.Branch?
      modifies this, assembler
      ensures Valid()
      ensures r == FirstBranch(old(State()), bs, end).status
      ensures r.Fine? ==> State() == FirstBranch(old(State()), bs, end)
      decreases bs, 0
    {
      hide CompileBranches, Guarded, Table;
      FaultBranch(State(), bs, end);
      var next := assembler.PrepareLabel();
      r := EmitGuarded(bs.cond, bs.then_, next);
      if r.Fine? && !bs.others.NoElse? { r := EmitJumpTo(JMP, end); }
      if r.Fine? { var _ := assembler.PlaceLabel(next); }
    }

    // ----- Modules ----------------------------------------------------------

    method Clear()
      modifies this, assembler
      ensures Valid() && State() == Code(Program([], [], []), [], Fine)
    {
      assembler.Clear();
      variables, names := map[], [];
    }

    /** Known globals are registered first, in the order of their indices. */
    method LoadGlobals(mod: ModuleObj)
      requires Valid() && mod.Valid() && State() == Code(Program([], [], []), [], Fine)
      modifies this
      ensures Valid() && State() == Code(Program([], [], []), mod.names, Fine)
    {
      hide Table, Distinct;
      var known := mod.GlobalNames();
      var i := 0;
      while i < |known|
        invariant 0 <= i <= |known| && Valid() && names == known[..i]
      {
        NotYet(mod.globalsMap, known, variables, i);
        var index := Register(known[i]);
        assert index == i;
        i := i + 1;
      }
    }

    /** Names that have been registered since are added to the module, as nil. */
    method UpdateGlobals(mod: ModuleObj)
      requires Valid() && mod.Valid() && mod.names <= names
      modifies mod
      ensures mod.Valid() && mod.names == names && mod.globals == old(mod.globals) + Nils(|names| - |old(mod.names)|)
    {
      hide Table, Distinct, SetByName;
      var i := |mod.globals|;
      ghost var n := i;
      ghost var globals0 := mod.globals;
      var added := NamesByIndex();
      while i < |added|
        invariant n <= i <= |added| && mod.Valid() && mod.names == names[..i]
        invariant mod.globals == globals0 + Nils(i - n)
      {
        NewName(variables, names, mod.globals, i);
        var index := mod.SetGlobalByName(added[i], Nil);
        assert globals0 + Nils(i - n) + [Nil] == globals0 + Nils(i + 1 - n);
        i := i + 1;
      }
    }

    /** The names of the scope, collected in whatever order the map is walked. */
    method NamesByIndex() returns (out: seq<string>)
      requires Valid()
      ensures out == names
    {
      out := ByIndex(variables, names);
    }

    /** Statements, the last expression if it is to be returned, and the final return. */
    method EmitModule(m: Module) returns (r: Status)
      requires Valid() && State().prog == Program([], [], [])
      modifies this, assembler
      ensures Valid()
      ensures r == CompileModule(old(names), m).status
      ensures r.Fine? ==> State() == CompileModule(old(names), m)
    {
      hide CompileExpr, CompileBlock;
      ghost var c := CompileBlock(State(), m.code);
      if m.last.Some? { CompileExprGrows(c, m.last.value, Push); }
      r := EmitBlock(m.code);
      if r.Fine? && m.last.Some? {
        r := EmitExpr(m.last.value, Push);
        if r.Fine? { assembler.Append(RET, 0); }
      }
      if r.Fine? { assembler.Append(RET_NIL, 0); }
    }

    /** Compile one more piece of a module. If that fails, the module is as it was. */
    method Generate(mod: ModuleObj, m: Module, func: Value) returns (r: Generated)
      requires mod.Valid() && PlainModule(m)
      modifies this, assembler, mod
      ensures mod.Valid() && Generates(old(mod.names), old(mod.globals), m, func, r, mod.names, mod.globals)
      ensures r.AssertionFailed? ==> UsedInModule(m) > MAX_LABEL + 1
      ensures UsedInModule(m) > MAX_LABEL + 1 ==> !r.Success?
    {
      hide CompileModule, GoodInstrs, Table, Distinct, Published, Assembled, NoneTooFar, UsedInModule, LabelsInModule,
        IndicesFit;
      Clear();
      LoadGlobals(mod);
      ghost var names0, globals0 := mod.names, mod.globals;
      ModuleStatus(names0, m);
      var status := EmitModule(m);
      if !status.Fine? { return if status.TooManyNames? then Error else AssertionFailed; }
      WellFormed(mod.globalsMap, names0, m);
      var out := assembler.Finish();
      r := Success(out);
      if out.Output? {
        UpdateGlobals(mod);
        Publishing(names0, globals0, names, func);
        var _ := mod.SetGlobalByName("", func);
      }
    }
  }

  /** What a compilation gives, and what it leaves of the module: an error if the first fault is a name
      or a symbol too many, the end of the process if it is a label too many. In both cases, and if the
      assembler gives up, the module is unchanged. */
  ghost predicate Generates(names0: seq<string>, globals0: seq<Value>, m: Module, func: Value, r: Generated,
      names1: seq<string>, globals1: seq<Value>)
    requires |names0| == |globals0|
  {
    var c := CompileModule(names0, m);
    if !c.status.Fine? then
      r == (if c.status.TooManyNames? then Error else AssertionFailed) && names1 == names0 && globals1 == globals0
    else if !GoodInstrs(c.prog) || |c.names| < |names0| then
      false
    else if !NoneTooFar(c.prog, |c.prog.instrs|) then
      r == Success(Aborted) && names1 == names0 && globals1 == globals0
    else
      r == Success(Output.Output(Assembled(c.prog), c.prog.symbols)) &&
        (names1, globals1) == Published(names0, globals0, c.names, func)
  }

  lemma WellFormed(indices: map<string, nat>, names0: seq<string>, m: Module)
    requires Table(indices, names0) && PlainModule(m) && CompileModule(names0, m).status.Fine?
    ensures GoodInstrs(CompileModule(names0, m).prog) && names0 <= CompileModule(names0, m).names
  {
    hide CompileModule, GoodInstrs;
    ModuleSound(names0, m);
    ModuleRegisters(names0, m);
  }

  lemma Publishing(names0: seq<string>, globals0: seq<Value>, names: seq<string>, func: Value)
    requires |names0| == |globals0| && |names0| <= |names|
    ensures Published(names0, globals0, names, func) == SetByName(names, globals0 + Nils(|names| - |names0|), "", func)
  {
  }

  lemma NotYet(indices: map<string, nat>, names: seq<string>, some: map<string, nat>, i: nat)
    requires Table(indices, names) && i < |names| && Table(some, names[..i])
    ensures names[i] !in some && names[..i] + [names[i]] == names[..i + 1]
  {
    hide Table, Distinct;
    TableDistinct(indices, names);
    NotBefore(names, i);
    NotInTable(some, names[..i], names[i]);
  }

  lemma NotBefore(names: seq<string>, i: nat)
    requires Distinct(names) && i < |names|
    ensures names[i] !in names[..i]
  {
  }

  lemma {:induction false} NotInTable(indices: map<string, nat>, names: seq<string>, x: string)
    requires Table(indices, names) && x !in names
    ensures x !in indices
  {
    hide Distinct, IndexOf;
  }

  lemma NewName(indices: map<string, nat>, names: seq<string>, globals: seq<Value>, i: nat)
    requires Table(indices, names) && i < |names| && |globals| == i
    ensures SetByName(names[..i], globals, names[i], Nil) == (names[..i + 1], globals + [Nil])
  {
    assert names[i] !in names[..i];
    assert names[..i] + [names[i]] == names[..i + 1];
  }

  // ----- Parts of branches and loops ----------------------------------------

  /** A condition, a jump to `target` if it is false, and statements. */
  function Guarded(c: Code, cond: Expr, b: Block, target: nat): (d: Code)
    ensures |d.prog.labels| >= |c.prog.labels|
  {
    CompileBlock(EmitJump(CompileExpr(c, cond, Push), JMP_UNLS, target), b)
  }

  /** The first branch of an if statement. */
  function FirstBranch(c: Code, bs: Branches, end: nat): Code
    requires bs.Branch?
  {
    var c2 := Guarded(Prepare(c), bs.cond, bs.then_, |c.prog.labels|);
    Place(if bs.others.NoElse? then c2 else EmitJump(c2, JMP, end), |c.prog.labels|)
  }

  lemma {:induction false} BranchesInTurn(c: Code, bs: Branches, end: nat)
    ensures bs.Branch? ==> CompileBranches(c, bs, end) == CompileBranches(FirstBranch(c, bs, end), bs.others, end)
    ensures bs.Branch? ==> Later(FirstBranch(c, bs, end), CompileBranches(c, bs, end))
  {
    if bs.Branch? { CompileBranchesGrows(FirstBranch(c, bs, end), bs.others, end); }
  }

  // ----- Faults are never forgotten -----------------------------------------

  /** The first fault of a state is that of all states after it. */
  predicate Later(c: Code, d: Code)
  {
    !c.status.Fine? ==> d.status == c.status
  }

  lemma {:induction false} FaultBin(c: Code, op: BinOp, r: Expr, act: Action)
    ensures Later(c, CompileBin(c, op, r, act))
  {
    CompileBinGrows(c, op, r, act);
  }

  lemma FaultStore(c: Code, x: string, act: Action)
    ensures Later(c, CompileStore(c, x, act))
  {
    StoreGrows(c, x, act);
  }

  lemma {:induction false} FaultGuarded(c: Code, cond: Expr, b: Block, target: nat)
    ensures
      var c0 := CompileExpr(c, cond, Push);
      var c1 := EmitJump(c0, JMP_UNLS, target);
      Later(c0, c1) && Later(c1, Guarded(c, cond, b, target)) && Grown(c, Guarded(c, cond, b, target))
  {
    CompileExprGrows(c, cond, Push);
    CompileBlockGrows(EmitJump(CompileExpr(c, cond, Push), JMP_UNLS, target), b);
  }

  /** The label of a logical operator is still to be placed when its operands are there. */
  lemma FaultLogical(c: Code, e: Expr, jump: nat)
    requires e.And? || e.Or?
    ensures
      var end := |c.prog.labels|;
      var c1 := CompileExpr(Prepare(c), e.lhs, Push);
      var c2 := Emit(EmitJump(Emit(c1, DUP, 0), jump, end), DROP, 0);
      var c3 := CompileExpr(c2, e.rhs, Push);
      Later(c1, c3) && Later(c2, c3) && end < |c3.prog.labels| && c3.prog.labels[end] == UNPLACED
  {
    var end := |c.prog.labels|;
    var c1 := CompileExpr(Prepare(c), e.lhs, Push);
    var c2 := Emit(EmitJump(Emit(c1, DUP, 0), jump, end), DROP, 0);
    CompileExprGrows(Prepare(c), e.lhs, Push);
    CompileExprGrows(c2, e.rhs, Push);
    assert Prepare(c).prog.labels[end] == UNPLACED;
  }

  lemma {:induction false} OkIf(c: Code, bs: Branches)
    ensures
      var end := |c.prog.labels|;
      var d := CompileBranches(Prepare(c), bs, end);
      end < |d.prog.labels| && d.prog.labels[end] == UNPLACED
  {
    CompileBranchesGrows(Prepare(c), bs, |c.prog.labels|);
    assert Prepare(c).prog.labels[|c.prog.labels|] == UNPLACED;
  }

  lemma {:induction false} FaultWhile(c: Code, s: Stmt)
    requires s.While? && s.cond != BoolLit(false)
    ensures
      var start, end := |c.prog.labels|, |c.prog.labels| + 1;
      var c1 := Prepare(Place(Prepare(c), start));
      var c3 := if s.cond == BoolLit(true) then CompileBlock(c1, s.body) else Guarded(c1, s.cond, s.body, end);
      end < |c3.prog.labels| && c3.prog.labels[end] == UNPLACED && Later(c3, CompileStmt(c, s)) &&
      CompileStmt(c, s) ==
        (if s.cond == BoolLit(true) then EmitJump(c3, JMP, start) else Place(EmitJump(c3, JMP, start), end))
  {
    hide Guarded;
    var start, end := |c.prog.labels|, |c.prog.labels| + 1;
    var c1 := Prepare(Place(Prepare(c), start));
    if s.cond == BoolLit(true) {
      CompileBlockGrows(c1, s.body);
    } else {
      FaultGuarded(c1, s.cond, s.body, end);
      assert CompileStmt(c, s) == Place(EmitJump(Guarded(c1, s.cond, s.body, end), JMP, start), end) by {
        UnfoldWhile(c, s);
      }
    }
    assert c1.prog.labels[end] == UNPLACED;
  }

  lemma {:induction false} UnfoldWhile(c: Code, s: Stmt)
    requires s.While? && s.cond != BoolLit(false) && s.cond != BoolLit(true)
    ensures
      var start, end := |c.prog.labels|, |c.prog.labels| + 1;
      CompileStmt(c, s) == Place(EmitJump(Guarded(Prepare(Place(Prepare(c), start)), s.cond, s.body, end), JMP, start),
        end)
  {
    hide CompileExpr, CompileBlock;
  }

  lemma {:induction false} FaultBranch(c: Code, bs: Branches, end: nat)
    requires bs.Branch?
    ensures
      var next := |c.prog.labels|;
      var c2 := Guarded(Prepare(c), bs.cond, bs.then_, next);
      Later(c2, FirstBranch(c, bs, end)) && next < |c2.prog.labels| && c2.prog.labels[next] == UNPLACED
  {
    FaultGuarded(Prepare(c), bs.cond, bs.then_, |c.prog.labels|);
    assert Prepare(c).prog.labels[|c.prog.labels|] == UNPLACED;
  }
}
