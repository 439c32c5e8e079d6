/** How many labels a module takes, and when the format runs out of numbers. */
module LabelCount {
  import opened Language
  import opened Bytecode
  import opened Emission

  // ----- Counting on the tree -----------------------------------------------

  /** The labels of an expression: one for each logical operator. Jumps name all of them. */
  function LabelsIn(e: Expr): nat
  {
    match e
    case Bin(_, l, r) => LabelsIn(l) + LabelsIn(r)
    case Un(_, a) => LabelsIn(a)
    case And(l, r) => 1 + LabelsIn(l) + LabelsIn(r)
    case Or(l, r) => 1 + LabelsIn(l) + LabelsIn(r)
    case Assign(_, r) => LabelsIn(r)
    case OpAssign(_, _, r) => LabelsIn(r)
    case _ => 0
  }

  function LabelsInStmt(s: Stmt): nat
  {
    match s
    case ExprStmt(e) => LabelsIn(e)
    case If(bs) => 1 + LabelsInBranches(bs)
    case While(c, b) => if c == BoolLit(false) then 0 else 2 + LabelsIn(c) + LabelsInBlock(b)
  }

  function LabelsInBlock(b: Block): nat
  {
    match b
    case Done => 0
    case Then(s, rest) => LabelsInStmt(s) + LabelsInBlock(rest)
  }

  function LabelsInBranches(bs: Branches): nat
  {
    match bs
    case NoElse => 0
    case Else(b) => LabelsInBlock(b)
    case Branch(c, b, rest) => 1 + LabelsIn(c) + LabelsInBlock(b) + LabelsInBranches(rest)
  }

  /** What is used after `skipped` labels, of which `used` have been used. */
  function Beyond(used: nat, skipped: nat, more: nat): nat
  {
    if more == 0 then used else skipped + more
  }

  /** How far jumps reach into the labels of a statement: the label behind an endless loop is
      never named, and neither is the one behind an if statement with one branch. */
  function UsedInStmt(s: Stmt): (u: nat)
    ensures u <= LabelsInStmt(s)
  {
    match s
    case ExprStmt(e) => LabelsIn(e)
    case If(bs) => Beyond(0, 1, UsedInBranches(bs))
    case While(c, b) =>
      if c == BoolLit(false) then 0
      else if c == BoolLit(true) then Beyond(1, 2, UsedInBlock(b))
      else Beyond(2 + LabelsIn(c), 2 + LabelsIn(c), UsedInBlock(b))
  }

  function UsedInBlock(b: Block): (u: nat)
    ensures u <= LabelsInBlock(b)
  {
    match b
    case Done => 0
    case Then(s, rest) => Beyond(UsedInStmt(s), LabelsInStmt(s), UsedInBlock(rest))
  }

  function UsedInBranches(bs: Branches): (u: nat)
    ensures u <= LabelsInBranches(bs)
  {
    match bs
    case NoElse => 0
    case Else(b) => UsedInBlock(b)
    case Branch(c, b, rest) =>
      Beyond(Beyond(1 + LabelsIn(c), 1 + LabelsIn(c), UsedInBlock(b)), 1 + LabelsIn(c) + LabelsInBlock(b),
        UsedInBranches(rest))
  }

  function LabelsInModule(m: Module): nat
  {
    LabelsInBlock(m.code) + if m.last.Some? then LabelsIn(m.last.value) else 0
  }

  function UsedInModule(m: Module): nat
  {
    Beyond(UsedInBlock(m.code), LabelsInBlock(m.code), if m.last.Some? then LabelsIn(m.last.value) else 0)
  }

  // ----- Counting in the code -----------------------------------------------

  function Max(m: nat, n: nat): nat { if m >= n then m else n }

  /** One more than the highest label that a jump names, or zero. */
  function Highest(instrs: seq<Instr>): nat
  {
    if instrs == [] then 0
    else
      var last := instrs[|instrs| - 1];
      Max(Highest(instrs[..|instrs| - 1]), if last.ToLabel? then last.target + 1 else 0)
  }

  /** Whether every index in the code fits sixteen bits. */
  ghost predicate IndicesFit(instrs: seq<Instr>)
  {
    forall i {:trigger instrs[i]} :: 0 <= i < |instrs| && instrs[i].Plain? ==> instrs[i].operand <= MAX_INDEX
  }

  /** The status is fine exactly if all indices and labels fit; otherwise it tells what does not. */
  ghost predicate Told(c: Code)
  {
    && (c.status.Fine? <==> Highest(c.prog.instrs) <= MAX_LABEL + 1 && IndicesFit(c.prog.instrs))
    && (c.status.TooManyLabels? ==> Highest(c.prog.instrs) > MAX_LABEL + 1)
    && (c.status.TooManyNames? ==> !IndicesFit(c.prog.instrs))
  }

  /** From `c` to `d`, `labels` labels were prepared, the first `used` of which jumps reach into. */
  ghost predicate Counted(c: Code, d: Code, labels: nat, used: nat)
  {
    && |d.prog.labels| == |c.prog.labels| + labels
    && Highest(d.prog.instrs) ==
      (if used == 0 then Highest(c.prog.instrs) else Max(Highest(c.prog.instrs), |c.prog.labels| + used))
    && (Told(c) ==> Told(d))
  }

  lemma NothingCounted(c: Code)
    ensures Counted(c, c, 0, 0)
  {
  }

  lemma CountedTrans(c: Code, d: Code, e: Code, l1: nat, u1: nat, l2: nat, u2: nat)
    requires Counted(c, d, l1, u1) && Counted(d, e, l2, u2) && u1 <= l1
    ensures Counted(c, e, l1 + l2, Beyond(u1, l1, u2))
  {
    hide Highest, Told;
  }

  lemma {:induction false} AppendedInstr(instrs: seq<Instr>, i: Instr)
    ensures Highest(instrs + [i]) == Max(Highest(instrs), if i.ToLabel? then i.target + 1 else 0)
    ensures IndicesFit(instrs + [i]) <==> IndicesFit(instrs) && (i.Plain? ==> i.operand <= MAX_INDEX)
  {
    var more := instrs + [i];
    assert more[..|more| - 1] == instrs;
    if IndicesFit(more) {
      forall k | 0 <= k < |instrs| && instrs[k].Plain? ensures instrs[k].operand <= MAX_INDEX {
        assert more[k] == instrs[k];
      }
      assert more[|instrs|] == i;
    }
  }

  lemma EmitCounted(c: Code, op: nat, n: int)
    requires n <= MAX_INDEX
    ensures Counted(c, Emit(c, op, n), 0, 0)
  {
    hide Highest, IndicesFit;
    AppendedInstr(c.prog.instrs, Plain(op, n));
  }

  /** A jump to one of the labels there are. */
  lemma JumpCounted(c: Code, op: nat, target: nat)
    ensures
      var d := EmitJump(c, op, target);
      && d.prog.labels == c.prog.labels && Highest(d.prog.instrs) == Max(Highest(c.prog.instrs), target + 1)
      && (Told(c) ==> Told(d))
  {
    hide Highest, IndicesFit;
    AppendedInstr(c.prog.instrs, ToLabel(op, target));
  }

  lemma IndexedCounted(c: Code, narrow: nat, index: nat)
    ensures Counted(c, Indexed(c, narrow, index), 0, 0)
  {
    hide Highest, IndicesFit;
    AppendedInstr(c.prog.instrs, Plain(if index <= 255 then narrow else narrow + 1, index));
  }

  lemma LoadCounted(c: Code, x: string)
    ensures Counted(c, LoadName(c, x), 0, 0)
  {
    hide Indexed, Highest, IndicesFit;
    if x in c.names {
      IndexedCounted(c, LD_GLOB, IndexOf(c.names, x));
    } else {
      var symbols := AddName(c.prog.symbols, x);
      IndexedCounted(c.(prog := c.prog.(symbols := symbols)), LD_GLOB_Y, IndexOf(symbols, x));
    }
  }

  lemma StoreCounted(c: Code, x: string, act: Action)
    ensures Counted(c, CompileStore(c, x, act), 0, 0)
  {
    hide Indexed, Highest, IndicesFit;
    var d := if act.Push? then Emit(c, DUP, 0) else c;
    EmitCounted(c, DUP, 0);
    var names := AddName(d.names, x);
    IndexedCounted(d.(names := names), ST_GLOB, IndexOf(names, x));
  }

  lemma DropCounted(c: Code, act: Action)
    ensures Counted(c, DropIf(c, act), 0, 0)
  {
    hide Highest, IndicesFit;
    EmitCounted(c, DROP, 0);
  }

  // ----- Expressions --------------------------------------------------------

  lemma {:induction false} ExprCounted(c: Code, e: Expr, act: Action)
    requires PlainExpr(e)
    ensures Counted(c, CompileExpr(c, e, act), LabelsIn(e), LabelsIn(e))
    decreases e, 1
  {
    hide Counted, Indexed, LoadName, CompileStore, CompileBin, CompileLogical;
    NothingCounted(c);
    match e
    case NilLit => EmitCounted(c, LD_NIL, 0);
    case BoolLit(b) => EmitCounted(c, LD_BOOL, if b then 1 else 0);
    case IntLit(n) => EmitCounted(c, LD_INT, n); EmitCounted(c, LD_INT_W, n);
    case Name(x) => LoadCounted(c, x);
    case Bin(op, l, r) =>
      ExprCounted(c, l, Push);
      BinCounted(CompileExpr(c, l, Push), op, r, act);
      CountedTrans(c, CompileExpr(c, l, Push), CompileExpr(c, e, act), LabelsIn(l), LabelsIn(l), LabelsIn(r),
        LabelsIn(r));
    case Un(op, a) =>
      var c1 := CompileExpr(c, a, Push);
      ExprCounted(c, a, Push);
      EmitCounted(c1, OpcodeOf1(op), 0);
      DropCounted(Emit(c1, OpcodeOf1(op), 0), act);
      CountedTrans(c, c1, Emit(c1, OpcodeOf1(op), 0), LabelsIn(a), LabelsIn(a), 0, 0);
      CountedTrans(c, Emit(c1, OpcodeOf1(op), 0), CompileExpr(c, e, act), LabelsIn(a), LabelsIn(a), 0, 0);
    case And(_, _) => LogicalCounted(c, e, JMP_UNLS, act);
    case Or(_, _) => LogicalCounted(c, e, JMP_WHEN, act);
    case Assign(x, r) =>
      ExprCounted(c, r, Push);
      StoreCounted(CompileExpr(c, r, Push), x, act);
      CountedTrans(c, CompileExpr(c, r, Push), CompileExpr(c, e, act), LabelsIn(r), LabelsIn(r), 0, 0);
    case OpAssign(op, x, r) =>
      var c1 := LoadName(c, x);
      var c2 := CompileBin(c1, op, r, Push);
      LoadCounted(c, x);
      BinCounted(c1, op, r, Push);
      CountedTrans(c, c1, c2, 0, 0, LabelsIn(r), LabelsIn(r));
      StoreCounted(c2, x, act);
      CountedTrans(c, c2, CompileExpr(c, e, act), LabelsIn(r), LabelsIn(r), 0, 0);
  }

  lemma {:induction false} BinCounted(c: Code, op: BinOp, r: Expr, act: Action)
    requires PlainExpr(r)
    ensures Counted(c, CompileBin(c, op, r, act), LabelsIn(r), LabelsIn(r))
    decreases r, 2
  {
    hide Counted;
    var c1 := CompileExpr(c, r, Push);
    var c2 := Emit(c1, OpcodeOf(op), 0);
    ExprCounted(c, r, Push);
    EmitCounted(c1, OpcodeOf(op), 0);
    CountedTrans(c, c1, c2, LabelsIn(r), LabelsIn(r), 0, 0);
    DropCounted(c2, act);
    CountedTrans(c, c2, DropIf(c2, act), LabelsIn(r), LabelsIn(r), 0, 0);
  }

  /** One label, and a jump to it behind the left operand. */
  lemma {:induction false} LogicalCounted(c: Code, e: Expr, jump: nat, act: Action)
    requires (e.And? || e.Or?) && PlainExpr(e)
    ensures Counted(c, CompileLogical(c, e, jump, act), LabelsIn(e), LabelsIn(e))
    decreases e, 0
  {
    hide CompileExpr, Highest, Told;
    var end := |c.prog.labels|;
    var c1 := CompileExpr(Prepare(c), e.lhs, Push);
    var c2 := EmitJump(Emit(c1, DUP, 0), jump, end);
    var c3 := CompileExpr(Emit(c2, DROP, 0), e.rhs, Push);
    ExprCounted(Prepare(c), e.lhs, Push);
    EmitCounted(c1, DUP, 0);
    JumpCounted(Emit(c1, DUP, 0), jump, end);
    EmitCounted(c2, DROP, 0);
    ExprCounted(Emit(c2, DROP, 0), e.rhs, Push);
    DropCounted(Place(c3, end), act);
    SameTold(c, Prepare(c));
    SameTold(c3, Place(c3, end));
  }

  /** Labels make no difference to what the status tells. */
  lemma SameTold(c: Code, d: Code)
    requires d.prog.instrs == c.prog.instrs && d.status == c.status
    ensures Told(c) ==> Told(d)
  {
  }

  // ----- Statements ---------------------------------------------------------

  lemma {:induction false} StmtCounted(c: Code, s: Stmt)
    requires PlainStmt(s)
    ensures Counted(c, CompileStmt(c, s), LabelsInStmt(s), UsedInStmt(s))
    decreases s
  {
    hide CompileExpr, CompileBlock, CompileBranches, Highest, Told;
    match s
    case ExprStmt(e) => ExprCounted(c, e, EvalOnly);
    case If(bs) =>
      var end := |c.prog.labels|;
      BranchesCounted(Prepare(c), bs, end);
      SameTold(c, Prepare(c));
      SameTold(CompileBranches(Prepare(c), bs, end), CompileStmt(c, s));
    case While(cond, body) =>
      if cond == BoolLit(false) { NothingCounted(c); }
      else if cond == BoolLit(true) { EndlessCounted(c, s); }
      else { WhileCounted(c, s); }
  }

  lemma {:induction false} EndlessCounted(c: Code, s: Stmt)
    requires PlainStmt(s) && s.While? && s.cond == BoolLit(true)
    ensures Counted(c, CompileStmt(c, s), LabelsInStmt(s), UsedInStmt(s))
    decreases s, 0
  {
    hide CompileExpr, CompileBlock, Highest, Told, IndicesFit;
    var start := |c.prog.labels|;
    var c1 := Prepare(Place(Prepare(c), start));
    SameTold(c, c1);
    BlockCounted(c1, s.body);
    JumpCounted(CompileBlock(c1, s.body), JMP, start);
  }

  lemma {:induction false} WhileCounted(c: Code, s: Stmt)
    requires PlainStmt(s) && s.While? && s.cond != BoolLit(true) && s.cond != BoolLit(false)
    ensures Counted(c, CompileStmt(c, s), LabelsInStmt(s), UsedInStmt(s))
    decreases s, 0
  {
    hide CompileExpr, CompileBlock, CompileStmt, Highest, Told, IndicesFit, EmitJump;
    var start, end := |c.prog.labels|, |c.prog.labels| + 1;
    var c1 := Prepare(Place(Prepare(c), start));
    var c2 := EmitJump(CompileExpr(c1, s.cond, Push), JMP_UNLS, end);
    SameTold(c, c1);
    HeadCounted(c1, s.cond, end);
    assert Counted(c, c2, 2 + LabelsIn(s.cond), 2 + LabelsIn(s.cond));
    BlockCounted(c2, s.body);
    CountedTrans(c, c2, CompileBlock(c2, s.body), 2 + LabelsIn(s.cond), 2 + LabelsIn(s.cond),
      LabelsInBlock(s.body), UsedInBlock(s.body));
    UnfoldWhile(c, s);
    BackCounted(c, CompileBlock(c2, s.body), start, end, LabelsInStmt(s), UsedInStmt(s));
  }

  /** The jump back, to a label that has been counted already, and the end of the loop. */
  lemma BackCounted(c: Code, d: Code, start: nat, end: nat, labels: nat, used: nat)
    requires Counted(c, d, labels, used) && start == |c.prog.labels| && end == start + 1 && 2 <= used && 2 <= labels
    ensures Counted(c, Place(EmitJump(d, JMP, start), end), labels, used)
  {
    hide Highest, Told, EmitJump;
    JumpCounted(d, JMP, start);
    SameTold(EmitJump(d, JMP, start), Place(EmitJump(d, JMP, start), end));
  }

  lemma {:induction false} UnfoldWhile(c: Code, s: Stmt)
    requires s.While? && s.cond != BoolLit(false) && s.cond != BoolLit(true)
    ensures
      var start, end := |c.prog.labels|, |c.prog.labels| + 1;
      var c1 := EmitJump(CompileExpr(Prepare(Place(Prepare(c), start)), s.cond, Push), JMP_UNLS, end);
      CompileStmt(c, s) == Place(EmitJump(CompileBlock(c1, s.body), JMP, start), end)
  {
    hide CompileExpr, CompileBlock, EmitJump, Place, Prepare;
  }

  /** A condition, and a jump to the last label there was before it. */
  lemma {:induction false} HeadCounted(c: Code, cond: Expr, target: nat)
    requires PlainExpr(cond) && target + 1 == |c.prog.labels|
    ensures
      var d := EmitJump(CompileExpr(c, cond, Push), JMP_UNLS, target);
      && |d.prog.labels| == |c.prog.labels| + LabelsIn(cond)
      && Highest(d.prog.instrs) == Max(Highest(c.prog.instrs), |c.prog.labels| + LabelsIn(cond))
      && (Told(c) ==> Told(d))
    decreases cond, 2
  {
    hide CompileExpr, Highest, Told, IndicesFit;
    ExprCounted(c, cond, Push);
    JumpCounted(CompileExpr(c, cond, Push), JMP_UNLS, target);
  }

  lemma {:induction false} BlockCounted(c: Code, b: Block)
    requires PlainBlock(b)
    ensures Counted(c, CompileBlock(c, b), LabelsInBlock(b), UsedInBlock(b))
    decreases b
  {
    hide Counted, CompileStmt;
    if b.Then? {
      StmtCounted(c, b.first);
      BlockCounted(CompileStmt(c, b.first), b.rest);
      CountedTrans(c, CompileStmt(c, b.first), CompileBlock(c, b), LabelsInStmt(b.first), UsedInStmt(b.first),
        LabelsInBlock(b.rest), UsedInBlock(b.rest));
    } else {
      NothingCounted(c);
    }
  }

  lemma {:induction false} BranchesCounted(c: Code, bs: Branches, end: nat)
    requires PlainBranches(bs) && end < |c.prog.labels|
    ensures Counted(c, CompileBranches(c, bs, end), LabelsInBranches(bs), UsedInBranches(bs))
    decreases bs
  {
    hide CompileExpr, CompileBlock, Highest, Told;
    match bs
    case NoElse => NothingCounted(c);
    case Else(b) => BlockCounted(c, b);
    case Branch(cond, b, rest) =>
      var d := FirstCounted(c, bs, end);
      BranchesCounted(d, rest, end);
      CountedTrans(c, d, CompileBranches(c, bs, end), 1 + LabelsIn(cond) + LabelsInBlock(b),
        Beyond(1 + LabelsIn(cond), 1 + LabelsIn(cond), UsedInBlock(b)), LabelsInBranches(rest), UsedInBranches(rest));
  }

  /** The first branch: its own label is above the one that all branches jump to. */
  lemma {:induction false} FirstCounted(c: Code, bs: Branches, end: nat) returns (d: Code)
    requires bs.Branch? && PlainBranches(bs) && end < |c.prog.labels|
    ensures CompileBranches(c, bs, end) == CompileBranches(d, bs.others, end) && |d.prog.labels| >= |c.prog.labels|
    ensures
      var l := 1 + LabelsIn(bs.cond);
      Counted(c, d, l + LabelsInBlock(bs.then_), Beyond(l, l, UsedInBlock(bs.then_)))
    decreases bs, 0
  {
    hide CompileExpr, CompileBlock, Highest, Told;
    var next := |c.prog.labels|;
    var c1 := EmitJump(CompileExpr(Prepare(c), bs.cond, Push), JMP_UNLS, next);
    var c2 := CompileBlock(c1, bs.then_);
    var c3 := if bs.others.NoElse? then c2 else EmitJump(c2, JMP, end);
    d := Place(c3, next);
    SameTold(c, Prepare(c));
    HeadCounted(Prepare(c), bs.cond, next);
    BlockCounted(c1, bs.then_);
    JumpCounted(c2, JMP, end);
    SameTold(c3, d);
  }

  // ----- Modules ------------------------------------------------------------

  /** Generating the code of a module fails exactly if jumps reach beyond the first 65536 labels or
      an index does not fit, and the status names one of the two that is the case. */
  lemma ModuleStatus(names: seq<string>, m: Module)
    requires PlainModule(m)
    ensures
      var c := CompileModule(names, m);
      && |c.prog.labels| == LabelsInModule(m)
      && (c.status.Fine? <==> UsedInModule(m) <= MAX_LABEL + 1 && IndicesFit(c.prog.instrs))
      && (c.status.TooManyLabels? ==> UsedInModule(m) > MAX_LABEL + 1)
      && (c.status.TooManyNames? ==> !IndicesFit(c.prog.instrs))
  {
    hide CompileExpr, CompileBlock, IndicesFit, LabelsInBlock, UsedInBlock, LabelsIn;
    var c0 := Code(Program([], [], []), names, Fine);
    assert Told(c0) by { Nothing(); }
    BlockCounted(c0, m.code);
    var c := CompileBlock(c0, m.code);
    var d := c;
    if m.last.Some? {
      var e := CompileExpr(c, m.last.value, Push);
      ExprCounted(c, m.last.value, Push);
      EmitCounted(e, RET, 0);
      d := Emit(e, RET, 0);
    }
    EmitCounted(d, RET_NIL, 0);
  }

  lemma Nothing()
    ensures Highest([]) == 0 && IndicesFit([])
  {
  }
}
