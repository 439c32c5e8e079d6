/** Generated code fits the instruction format, and its jumps stay inside it. */
module Wellformed {
  import opened Language
  import opened Bytecode
  import opened Emission
  import opened Labelled
  import opened Assembling

  /** Operands fit; jumps lead to labels that have been placed or are going to be. */
  predicate SoundInstr(c: Code, pending: set<nat>, i: Instr)
  {
    match i
    case Plain(op, n) => op < 256 && JumpOf(op).NoJump? && InRange(OperandOf(op), n)
    case ToLabel(op, l) =>
      IsJump(op) && l <= MAX_LABEL && l < |c.prog.labels| && (l in pending || 0 <= c.prog.labels[l] <= |c.prog.instrs|)
  }

  ghost predicate Sound(c: Code, pending: set<nat>)
  {
    forall i {:trigger c.prog.instrs[i]} :: 0 <= i < |c.prog.instrs| ==> SoundInstr(c, pending, c.prog.instrs[i])
  }

  /** More labels and other symbols and names make no difference. */
  lemma SoundLater(c: Code, d: Code, pending: set<nat>)
    requires Sound(c, pending) && d.prog.instrs == c.prog.instrs && c.prog.labels <= d.prog.labels
    ensures Sound(d, pending)
  {
    forall i | 0 <= i < |d.prog.instrs| ensures SoundInstr(d, pending, d.prog.instrs[i]) {
      assert SoundInstr(c, pending, c.prog.instrs[i]);
    }
  }

  lemma EmitSound(c: Code, op: nat, n: int, pending: set<nat>)
    requires Sound(c, pending) && op < 256 && JumpOf(op).NoJump? && InRange(OperandOf(op), n)
    ensures Sound(Emit(c, op, n), pending)
  {
    var d := Emit(c, op, n);
    forall i | 0 <= i < |d.prog.instrs| ensures SoundInstr(d, pending, d.prog.instrs[i]) {
      if i < |c.prog.instrs| { assert SoundInstr(c, pending, c.prog.instrs[i]); }
    }
  }

  lemma JumpSound(c: Code, op: nat, target: nat, pending: set<nat>)
    requires Sound(c, pending) && IsJump(op) && EmitJump(c, op, target).status.Fine? && target < |c.prog.labels| &&
      (target in pending || 0 <= c.prog.labels[target] <= |c.prog.instrs|)
    ensures Sound(EmitJump(c, op, target), pending)
  {
    var d := EmitJump(c, op, target);
    forall i | 0 <= i < |d.prog.instrs| ensures SoundInstr(d, pending, d.prog.instrs[i]) {
      if i < |c.prog.instrs| { assert SoundInstr(c, pending, c.prog.instrs[i]); }
    }
  }

  lemma PlaceSound(c: Code, target: nat, pending: set<nat>)
    requires Sound(c, pending + {target}) && target < |c.prog.labels|
    ensures Sound(Place(c, target), pending)
  {
    var d := Place(c, target);
    forall i | 0 <= i < |d.prog.instrs| ensures SoundInstr(d, pending, d.prog.instrs[i]) {
      assert SoundInstr(c, pending + {target}, c.prog.instrs[i]);
    }
  }

  lemma PrepareSound(c: Code, pending: set<nat>)
    requires Sound(c, pending)
    ensures Sound(Prepare(c), pending + {|c.prog.labels|})
  {
    var d := Prepare(c);
    forall i | 0 <= i < |d.prog.instrs| ensures SoundInstr(d, pending + {|c.prog.labels|}, d.prog.instrs[i]) {
      assert SoundInstr(c, pending, c.prog.instrs[i]);
    }
  }

  lemma IndexedSound(c: Code, narrow: nat, index: nat, pending: set<nat>)
    requires Sound(c, pending) && narrow in {LD_GLOB, ST_GLOB, LD_GLOB_Y} && Indexed(c, narrow, index).status.Fine?
    ensures Sound(Indexed(c, narrow, index), pending)
  {
    if index <= 255 { EmitSound(c, narrow, index, pending); } else { EmitSound(c, narrow + 1, index, pending); }
    SoundLater(if index <= 255 then Emit(c, narrow, index)
      else Emit(c, narrow + 1, index), Indexed(c, narrow, index), pending);
  }

  lemma LoadNameSound(c: Code, x: string, pending: set<nat>)
    requires Sound(c, pending) && LoadName(c, x).status.Fine?
    ensures Sound(LoadName(c, x), pending)
  {
    if x in c.names {
      IndexedSound(c, LD_GLOB, IndexOf(c.names, x), pending);
    } else {
      var symbols := AddName(c.prog.symbols, x);
      var d := c.(prog := c.prog.(symbols := symbols));
      SoundLater(c, d, pending);
      IndexedSound(d, LD_GLOB_Y, IndexOf(symbols, x), pending);
    }
  }

  lemma StoreSound(c: Code, x: string, act: Action, pending: set<nat>)
    requires Sound(c, pending) && CompileStore(c, x, act).status.Fine?
    ensures Sound(CompileStore(c, x, act), pending)
  {
    EmitSound(c, DUP, 0, pending);
    var d := if act.Push? then Emit(c, DUP, 0) else c;
    var names := AddName(d.names, x);
    SoundLater(d, d.(names := names), pending);
    IndexedSound(d.(names := names), ST_GLOB, IndexOf(names, x), pending);
  }

  lemma DropSound(c: Code, act: Action, pending: set<nat>)
    requires Sound(c, pending)
    ensures Sound(DropIf(c, act), pending)
  {
    EmitSound(c, DROP, 0, pending);
  }

  lemma {:induction false} ExprSound(c: Code, e: Expr, act: Action, pending: set<nat>)
    requires PlainExpr(e) && Sound(c, pending) && CompileExpr(c, e, act).status.Fine?
    ensures Sound(CompileExpr(c, e, act), pending)
    decreases e, 1
  {
    hide Sound, Indexed, LoadName, Receive;
    match e
    case NilLit => EmitSound(c, LD_NIL, 0, pending);
    case BoolLit(b) => EmitSound(c, LD_BOOL, if b then 1 else 0, pending);
    case IntLit(n) => if -128 <= n <= 127 { EmitSound(c, LD_INT, n, pending); } else {
      EmitSound(c, LD_INT_W, n, pending);
    }
    case Name(x) => if act.Push? { LoadNameSound(c, x, pending); }
    case Bin(op, l, r) =>
      CompileBinGrows(CompileExpr(c, l, Push), op, r, act);
      ExprSound(c, l, Push, pending);
      BinSound(CompileExpr(c, l, Push), op, r, act, pending);
    case Un(op, a) =>
      ExprSound(c, a, Push, pending);
      EmitSound(CompileExpr(c, a, Push), OpcodeOf1(op), 0, pending);
      DropSound(Emit(CompileExpr(c, a, Push), OpcodeOf1(op), 0), act, pending);
    case And(_, _) => LogicalSound(c, e, JMP_UNLS, act, pending);
    case Or(_, _) => LogicalSound(c, e, JMP_WHEN, act, pending);
    case Assign(x, r) =>
      StoreGrows(CompileExpr(c, r, Push), x, act);
      ExprSound(c, r, Push, pending);
      StoreSound(CompileExpr(c, r, Push), x, act, pending);
    case OpAssign(op, x, r) =>
      var c1 := LoadName(c, x);
      StoreGrows(CompileBin(c1, op, r, Push), x, act);
      CompileBinGrows(c1, op, r, Push);
      LoadNameSound(c, x, pending);
      BinSound(c1, op, r, Push, pending);
      StoreSound(CompileBin(c1, op, r, Push), x, act, pending);
  }

  lemma {:induction false} BinSound(c: Code, op: BinOp, r: Expr, act: Action, pending: set<nat>)
    requires PlainExpr(r) && Sound(c, pending) && CompileBin(c, op, r, act).status.Fine?
    ensures Sound(CompileBin(c, op, r, act), pending)
    decreases r, 2
  {
    hide Sound;
    ExprSound(c, r, Push, pending);
    EmitSound(CompileExpr(c, r, Push), OpcodeOf(op), 0, pending);
    DropSound(Emit(CompileExpr(c, r, Push), OpcodeOf(op), 0), act, pending);
  }

  lemma {:induction false} LogicalSound(c: Code, e: Expr, jump: nat, act: Action, pending: set<nat>)
    requires (e.And? || e.Or?) && PlainExpr(e) && IsJump(jump) && Sound(c, pending) &&
      CompileLogical(c, e, jump, act).status.Fine?
    ensures Sound(CompileLogical(c, e, jump, act), pending)
    decreases e, 0
  {
    hide Sound;
    var end := |c.prog.labels|;
    var more := pending + {end};
    var c1 := CompileExpr(Prepare(c), e.lhs, Push);
    var c2 := EmitJump(Emit(c1, DUP, 0), jump, end);
    var c3 := Emit(c2, DROP, 0);
    CompileExprGrows(c3, e.rhs, Push);
    CompileExprGrows(Prepare(c), e.lhs, Push);
    PrepareSound(c, pending);
    ExprSound(Prepare(c), e.lhs, Push, more);
    EmitSound(c1, DUP, 0, more);
    JumpSound(Emit(c1, DUP, 0), jump, end, more);
    EmitSound(c2, DROP, 0, more);
    ExprSound(c3, e.rhs, Push, more);
    PlaceSound(CompileExpr(c3, e.rhs, Push), end, pending);
    DropSound(Place(CompileExpr(c3, e.rhs, Push), end), act, pending);
  }

  lemma {:induction false} StmtSound(c: Code, s: Stmt, pending: set<nat>)
    requires PlainStmt(s) && Sound(c, pending) && CompileStmt(c, s).status.Fine?
    ensures Sound(CompileStmt(c, s), pending)
    decreases s
  {
    hide Sound;
    match s
    case ExprStmt(e) => ExprSound(c, e, EvalOnly, pending);
    case If(bs) =>
      var end := |c.prog.labels|;
      PrepareSound(c, pending);
      CompileBranchesGrows(Prepare(c), bs, end);
      BranchesSound(Prepare(c), bs, end, pending + {end});
      PlaceSound(CompileBranches(Prepare(c), bs, end), end, pending);
    case While(cond, body) =>
      if cond != BoolLit(false) { WhileSound(c, s, pending); }
  }

  lemma {:induction false} BlockSound(c: Code, b: Block, pending: set<nat>)
    requires PlainBlock(b) && Sound(c, pending) && CompileBlock(c, b).status.Fine?
    ensures Sound(CompileBlock(c, b), pending)
    decreases b
  {
    hide Sound;
    if b.Then? {
      CompileBlockGrows(CompileStmt(c, b.first), b.rest);
      StmtSound(c, b.first, pending);
      BlockSound(CompileStmt(c, b.first), b.rest, pending);
    }
  }

  lemma {:induction false} BranchesSound(c: Code, bs: Branches, end: nat, pending: set<nat>)
    requires PlainBranches(bs) && Sound(c, pending) && end in pending && end < |c.prog.labels| &&
      CompileBranches(c, bs, end).status.Fine?
    ensures Sound(CompileBranches(c, bs, end), pending)
    decreases bs
  {
    hide Sound;
    match bs
    case NoElse =>
    case Else(b) => BlockSound(c, b, pending);
    case Branch(cond, b, rest) =>
      var next := |c.prog.labels|;
      var more := pending + {next};
      var c0 := CompileExpr(Prepare(c), cond, Push);
      var c1 := EmitJump(c0, JMP_UNLS, next);
      var c2 := CompileBlock(c1, b);
      var c3 := if rest.NoElse? then c2 else EmitJump(c2, JMP, end);
      CompileBranchesGrows(Place(c3, next), rest, end);
      CompileBlockGrows(c1, b);
      CompileExprGrows(Prepare(c), cond, Push);
      PrepareSound(c, pending);
      ExprSound(Prepare(c), cond, Push, more);
      JumpSound(c0, JMP_UNLS, next, more);
      BlockSound(c1, b, more);
      JumpSound(c2, JMP, end, more);
      PlaceSound(c3, next, pending);
      BranchesSound(Place(c3, next), rest, end, pending);
  }

  lemma {:induction false} WhileSound(c: Code, s: Stmt, pending: set<nat>)
    requires s.While? && s.cond != BoolLit(false) && PlainStmt(s) && Sound(c, pending) && CompileStmt(c, s).status.Fine?
    ensures Sound(CompileStmt(c, s), pending)
    decreases s, 0
  {
    hide Sound;
    var start, end := |c.prog.labels|, |c.prog.labels| + 1;
    var more := pending + {end};
    var placed := Place(Prepare(c), start);
    var c1 := Prepare(placed);
    PrepareSound(c, pending);
    PlaceSound(Prepare(c), start, pending);
    PrepareSound(placed, pending);
    if s.cond == BoolLit(true) {
      CompileBlockGrows(c1, s.body);
      SoundLater(placed, c1, pending);
      BlockSound(c1, s.body, pending);
      JumpSound(CompileBlock(c1, s.body), JMP, start, pending);
    } else {
      var c0 := CompileExpr(c1, s.cond, Push);
      var c2 := EmitJump(c0, JMP_UNLS, end);
      var c3 := CompileBlock(c2, s.body);
      CompileBlockGrows(c2, s.body);
      CompileExprGrows(c1, s.cond, Push);
      ExprSound(c1, s.cond, Push, more);
      JumpSound(c0, JMP_UNLS, end, more);
      BlockSound(c2, s.body, more);
      JumpSound(c3, JMP, start, more);
      PlaceSound(EmitJump(c3, JMP, start), end, pending);
    }
  }

  /** The code of a module: everything fits, and every jump lands strictly inside the code. */
  lemma ModuleSound(names: seq<string>, m: Module)
    requires PlainModule(m) && CompileModule(names, m).status.Fine?
    ensures
      var p := CompileModule(names, m).prog;
      && GoodInstrs(p)
      && (forall i {:trigger p.instrs[i]} ::
        0 <= i < |p.instrs| && p.instrs[i].ToLabel? ==> p.labels[p.instrs[i].target] < |p.instrs|)
  {
    var c0 := Code(Program([], [], []), names, Fine);
    var c := CompileBlock(c0, m.code);
    var c1 := if m.last.Some? then Emit(CompileExpr(c, m.last.value, Push), RET, 0) else c;
    if m.last.Some? { CompileExprGrows(c, m.last.value, Push); }
    BlockSound(c0, m.code, {});
    if m.last.Some? {
      ExprSound(c, m.last.value, Push, {});
      EmitSound(CompileExpr(c, m.last.value, Push), RET, 0, {});
    }
    EmitSound(c1, RET_NIL, 0, {});
    var d := Emit(c1, RET_NIL, 0);
    forall i | 0 <= i < |d.prog.instrs|
      ensures GoodInstr(d.prog, d.prog.instrs[i])
      ensures d.prog.instrs[i].ToLabel? ==> d.prog.labels[d.prog.instrs[i].target] < |d.prog.instrs|
    {
      assert SoundInstr(d, {}, d.prog.instrs[i]);
      if i < |c1.prog.instrs| { assert SoundInstr(c1, {}, c1.prog.instrs[i]); }
    }
  }

  // ----- Names --------------------------------------------------------------

  function Members(xs: seq<string>): set<string>
  {
    set x | x in xs
  }

  /** New names are registered once each, behind those that are known already. */
  ghost predicate Registers(c: Code, d: Code, added: set<string>)
  {
    c.names <= d.names && Members(d.names) == Members(c.names) + added && (Distinct(c.names) ==> Distinct(d.names))
  }

  lemma RegistersTrans(c: Code, d: Code, e: Code, s: set<string>, t: set<string>)
    requires Registers(c, d, s) && Registers(d, e, t)
    ensures Registers(c, e, s + t)
  {
  }

  lemma ReceiveRegisters(c: Code, x: string)
    ensures Registers(c, Receive(c, x), {x}) && Registers(c, CompileStore(c, x, Push), {x}) &&
      Registers(c, CompileStore(c, x, EvalOnly), {x})
  {
    var names := AddName(c.names, x);
    assert Members(names) == Members(c.names) + {x};
  }

  lemma {:induction false} ExprRegisters(c: Code, e: Expr, act: Action)
    ensures Registers(c, CompileExpr(c, e, act), Assigned(e))
    decreases e, 1
  {
    hide Registers, Indexed, Receive;
    NothingRegistered(c, c);
    match e
    case Name(x) => if act.Push? { LoadRegisters(c, x); }
    case Bin(op, l, r) =>
      ExprRegisters(c, l, Push);
      BinRegisters(CompileExpr(c, l, Push), op, r, act);
      RegistersTrans(c, CompileExpr(c, l, Push), CompileExpr(c, e, act), Assigned(l), Assigned(r));
    case Un(op, a) =>
      ExprRegisters(c, a, Push);
      NothingRegistered(CompileExpr(c, a, Push), CompileExpr(c, e, act));
      RegistersTrans(c, CompileExpr(c, a, Push), CompileExpr(c, e, act), Assigned(a), {});
      assert Assigned(a) + {} == Assigned(a);
    case And(_, _) => LogicalRegisters(c, e, JMP_UNLS, act);
    case Or(_, _) => LogicalRegisters(c, e, JMP_WHEN, act);
    case Assign(x, r) =>
      ExprRegisters(c, r, Push);
      ReceiveRegisters(CompileExpr(c, r, Push), x);
      RegistersTrans(c, CompileExpr(c, r, Push), CompileExpr(c, e, act), Assigned(r), {x});
      assert Assigned(r) + {x} == {x} + Assigned(r);
    case OpAssign(op, x, r) =>
      LoadRegisters(c, x);
      BinRegisters(LoadName(c, x), op, r, Push);
      RegistersTrans(c, LoadName(c, x), CompileBin(LoadName(c, x), op, r, Push), {}, Assigned(r));
      ReceiveRegisters(CompileBin(LoadName(c, x), op, r, Push), x);
      RegistersTrans(c, CompileBin(LoadName(c, x), op, r, Push), CompileExpr(c, e, act), {} + Assigned(r), {x});
      assert {} + Assigned(r) + {x} == {x} + Assigned(r);
    case _ => NothingRegistered(c, CompileExpr(c, e, act));
  }

  lemma NothingRegistered(c: Code, d: Code)
    ensures d.names == c.names ==> Registers(c, d, {})
  {
  }

  lemma LoadRegisters(c: Code, x: string)
    ensures Registers(c, LoadName(c, x), {})
  {
  }

  lemma {:induction false} BinRegisters(c: Code, op: BinOp, r: Expr, act: Action)
    ensures Registers(c, CompileBin(c, op, r, act), Assigned(r))
    decreases r, 2
  {
    hide Registers;
    ExprRegisters(c, r, Push);
    SameNames(c, CompileExpr(c, r, Push), CompileBin(c, op, r, act), Assigned(r));
  }

  lemma SameNames(c: Code, d: Code, d': Code, s: set<string>)
    requires Registers(c, d, s) && d'.names == d.names
    ensures Registers(c, d', s)
  {
  }

  lemma {:induction false} LogicalRegisters(c: Code, e: Expr, jump: nat, act: Action)
    requires e.And? || e.Or?
    ensures Registers(c, CompileLogical(c, e, jump, act), Assigned(e.lhs) + Assigned(e.rhs))
    decreases e, 0
  {
    hide Registers;
    var c1 := CompileExpr(Prepare(c), e.lhs, Push);
    var c3 := Emit(EmitJump(Emit(c1, DUP, 0), jump, |c.prog.labels|), DROP, 0);
    ExprRegisters(Prepare(c), e.lhs, Push);
    SameStart(c, Prepare(c), c1, Assigned(e.lhs));
    SameNames(c, c1, c3, Assigned(e.lhs));
    ExprRegisters(c3, e.rhs, Push);
    RegistersTrans(c, c3, CompileExpr(c3, e.rhs, Push), Assigned(e.lhs), Assigned(e.rhs));
    SameNames(c, CompileExpr(c3, e.rhs, Push), CompileLogical(c, e, jump, act), Assigned(e.lhs) + Assigned(e.rhs));
  }

  lemma SameStart(c: Code, c': Code, d: Code, s: set<string>)
    requires Registers(c', d, s) && c'.names == c.names
    ensures Registers(c, d, s)
  {
  }

  lemma {:induction false} StmtRegisters(c: Code, s: Stmt)
    ensures Registers(c, CompileStmt(c, s), AssignedStmt(s))
    decreases s
  {
    hide Registers;
    match s
    case ExprStmt(e) => ExprRegisters(c, e, EvalOnly);
    case If(bs) =>
      var end := |c.prog.labels|;
      BranchesRegister(Prepare(c), bs, end);
      SameStart(c, Prepare(c), CompileBranches(Prepare(c), bs, end), AssignedBranches(bs));
      SameNames(c, CompileBranches(Prepare(c), bs, end), CompileStmt(c, s), AssignedBranches(bs));
    case While(cond, body) =>
      if cond == BoolLit(false) {
        NothingRegistered(c, c);
      } else {
        var start, end := |c.prog.labels|, |c.prog.labels| + 1;
        var c1 := Prepare(Place(Prepare(c), start));
        var c2 := if cond == BoolLit(true) then c1 else EmitJump(CompileExpr(c1, cond, Push), JMP_UNLS, end);
        ExprRegisters(c1, cond, Push);
        SameNames(c1, CompileExpr(c1, cond, Push), c2, Assigned(cond));
        SameStart(c, c1, c2, Assigned(cond));
        BlockRegisters(c2, body);
        RegistersTrans(c, c2, CompileBlock(c2, body), Assigned(cond), AssignedBlock(body));
        SameNames(c, CompileBlock(c2, body), CompileStmt(c, s), Assigned(cond) + AssignedBlock(body));
      }
  }

  lemma {:induction false} BlockRegisters(c: Code, b: Block)
    ensures Registers(c, CompileBlock(c, b), AssignedBlock(b))
    decreases b
  {
    hide Registers;
    if b.Then? {
      StmtRegisters(c, b.first);
      BlockRegisters(CompileStmt(c, b.first), b.rest);
      RegistersTrans(c, CompileStmt(c, b.first), CompileBlock(c, b), AssignedStmt(b.first), AssignedBlock(b.rest));
    } else {
      NothingRegistered(c, c);
    }
  }

  lemma {:induction false} BranchesRegister(c: Code, bs: Branches, end: nat)
    ensures Registers(c, CompileBranches(c, bs, end), AssignedBranches(bs))
    decreases bs
  {
    hide Registers;
    match bs
    case NoElse => NothingRegistered(c, c);
    case Else(b) => BlockRegisters(c, b);
    case Branch(cond, b, rest) =>
      var next := |c.prog.labels|;
      var c0 := CompileExpr(Prepare(c), cond, Push);
      var c1 := EmitJump(c0, JMP_UNLS, next);
      var c2 := CompileBlock(c1, b);
      var c3 := if rest.NoElse? then c2 else EmitJump(c2, JMP, end);
      ExprRegisters(Prepare(c), cond, Push);
      SameNames(Prepare(c), c0, c1, Assigned(cond));
      SameStart(c, Prepare(c), c1, Assigned(cond));
      BlockRegisters(c1, b);
      RegistersTrans(c, c1, c2, Assigned(cond), AssignedBlock(b));
      SameNames(c, c2, Place(c3, next), Assigned(cond) + AssignedBlock(b));
      BranchesRegister(Place(c3, next), rest, end);
      RegistersTrans(c, Place(c3, next), CompileBranches(c, bs, end), Assigned(cond) + AssignedBlock(b),
        AssignedBranches(rest));
  }

  /** The scope of a module holds its old globals, at their old indices, and every name that
      is assigned anywhere in it. */
  lemma ModuleRegisters(names: seq<string>, m: Module)
    requires Distinct(names)
    ensures
      var names' := CompileModule(names, m).names;
      names <= names' && Distinct(names') && Members(names') == Members(names) + AssignedModule(m)
  {
    var c0 := Code(Program([], [], []), names, Fine);
    var c := CompileBlock(c0, m.code);
    BlockRegisters(c0, m.code);
    if m.last.Some? {
      ExprRegisters(c, m.last.value, Push);
      RegistersTrans(c0, c, CompileExpr(c, m.last.value, Push), AssignedBlock(m.code), Assigned(m.last.value));
    }
  }
}
