/** The height of the stack is known at every instruction of generated code. */
module Discipline {
  import opened Language
  import opened Bytecode
  import opened Emission
  import opened Labelled
  import opened Assembling

  // ----- Heights ------------------------------------------------------------

  /** How many values an instruction finds on the stack at least, and how many more it leaves. */
  function Needs(op: nat): nat
  {
    if BinOpOf(op).Some? then 2
    else if op in {DROP, DUP, ST_GLOB, ST_GLOB_W, RET, NEG, INV, JMP_WHEN, JMP_UNLS} then 1
    else 0
  }

  function Change(op: nat): int
  {
    if BinOpOf(op).Some? || op in {DROP, ST_GLOB, ST_GLOB_W, RET, JMP_WHEN, JMP_UNLS} then -1
    else if op in {JMP, NEG, INV, RET_NIL} then 0
    else 1
  }

  lemma NeverBelowZero(op: nat)
    ensures Needs(op) + Change(op) >= 0
  {
  }

  /** A height before each instruction and at the end, and one for each label. */
  datatype Levels = Levels(at: seq<nat>, ofLabel: seq<nat>)

  predicate StepFits(p: Program, lv: Levels, i: nat)
    requires i < |p.instrs| && |lv.at| == |p.instrs| + 1
  {
    var op := p.instrs[i].op;
    Needs(op) <= lv.at[i] && lv.at[i + 1] == lv.at[i] + Change(op) &&
    (p.instrs[i].ToLabel? ==> p.instrs[i].target < |lv.ofLabel| && lv.ofLabel[p.instrs[i].target] == lv.at[i + 1])
  }

  predicate LabelFits(p: Program, lv: Levels, l: nat)
    requires l < |p.labels| && |lv.at| == |p.instrs| + 1 && |lv.ofLabel| == |p.labels|
  {
    p.labels[l] < 0 || (p.labels[l] <= |p.instrs| && lv.at[p.labels[l]] == lv.ofLabel[l])
  }

  /** The heights agree along every path: from one instruction to the next, and at every label
      with all the jumps that lead to it. */
  ghost predicate Levelled(p: Program, lv: Levels)
  {
    && |lv.at| == |p.instrs| + 1 && |lv.ofLabel| == |p.labels|
    && (forall i {:trigger p.instrs[i]} :: 0 <= i < |p.instrs| ==> StepFits(p, lv, i))
    && (forall l {:trigger p.labels[l]} :: 0 <= l < |p.labels| ==> LabelFits(p, lv, l))
  }

  function Top(lv: Levels): nat
  {
    if |lv.at| == 0 then 0 else lv.at[|lv.at| - 1]
  }

  // ----- The assembler's operations -----------------------------------------

  /** `d` continues `c`, with the heights known so far and `top` at its end. */
  ghost predicate Continues(c: Code, lv: Levels, d: Code, lv': Levels, top: nat)
  {
    lv.at <= lv'.at && lv.ofLabel <= lv'.ofLabel && Levelled(d.prog, lv') && Top(lv') == top
  }

  lemma Nothing(c: Code, lv: Levels)
    requires Levelled(c.prog, lv)
    ensures Continues(c, lv, c, lv, Top(lv))
  {
  }

  lemma Trans(c: Code, lv: Levels, d: Code, lv1: Levels, h1: nat, e: Code, lv2: Levels, h2: nat)
    requires Continues(c, lv, d, lv1, h1) && Continues(d, lv1, e, lv2, h2)
    ensures Continues(c, lv, e, lv2, h2)
  {
  }

  lemma EmitLevels(c: Code, lv: Levels, op: nat, n: int) returns (lv': Levels)
    requires Levelled(c.prog, lv) && Needs(op) <= Top(lv)
    ensures Continues(c, lv, Emit(c, op, n), lv', Top(lv) + Change(op))
  {
    NeverBelowZero(op);
    lv' := lv.(at := lv.at + [Top(lv) + Change(op)]);
    var p, q := c.prog, Emit(c, op, n).prog;
    forall i | 0 <= i < |q.instrs| ensures StepFits(q, lv', i) {
      if i < |p.instrs| { assert StepFits(p, lv, i) && q.instrs[i] == p.instrs[i]; }
    }
    forall l | 0 <= l < |q.labels| ensures LabelFits(q, lv', l) {
      assert LabelFits(p, lv, l) && q.labels[l] == p.labels[l];
    }
  }

  lemma JumpLevels(c: Code, lv: Levels, op: nat, target: nat) returns (lv': Levels)
    requires Levelled(c.prog, lv) && IsJump(op) && Needs(op) <= Top(lv)
    requires target < |lv.ofLabel| && lv.ofLabel[target] == Top(lv) + Change(op)
    ensures Continues(c, lv, EmitJump(c, op, target), lv', Top(lv) + Change(op))
  {
    lv' := lv.(at := lv.at + [Top(lv) + Change(op)]);
    var p, q := c.prog, EmitJump(c, op, target).prog;
    forall i | 0 <= i < |q.instrs| ensures StepFits(q, lv', i) {
      if i < |p.instrs| { assert StepFits(p, lv, i) && q.instrs[i] == p.instrs[i]; }
    }
    forall l | 0 <= l < |q.labels| ensures LabelFits(q, lv', l) {
      assert LabelFits(p, lv, l) && q.labels[l] == p.labels[l];
    }
  }

  lemma PrepareLevels(c: Code, lv: Levels, height: nat) returns (lv': Levels)
    requires Levelled(c.prog, lv)
    ensures Continues(c, lv, Prepare(c), lv', Top(lv))
    ensures |lv'.ofLabel| == |c.prog.labels| + 1 && lv'.ofLabel[|c.prog.labels|] == height
  {
    lv' := lv.(ofLabel := lv.ofLabel + [height]);
    var p, q := c.prog, Prepare(c).prog;
    forall i | 0 <= i < |q.instrs| ensures StepFits(q, lv', i) { assert StepFits(p, lv, i); }
    forall l | 0 <= l < |q.labels| ensures LabelFits(q, lv', l) {
      if l < |p.labels| { assert LabelFits(p, lv, l) && q.labels[l] == p.labels[l]; }
    }
  }

  lemma PlaceLevels(c: Code, lv: Levels, target: nat)
    requires Levelled(c.prog, lv) && target < |c.prog.labels| && target < |lv.ofLabel| && lv.ofLabel[target] == Top(lv)
    ensures Continues(c, lv, Place(c, target), lv, Top(lv))
  {
    var p, q := c.prog, Place(c, target).prog;
    forall i | 0 <= i < |q.instrs| ensures StepFits(q, lv, i) { assert StepFits(p, lv, i); }
    forall l | 0 <= l < |q.labels| ensures LabelFits(q, lv, l) {
      assert LabelFits(p, lv, l);
      if l != target { assert q.labels[l] == p.labels[l]; }
    }
  }

  /** Other names, symbols and errors do not matter. */
  lemma SameProgram(c: Code, lv: Levels, d: Code, e: Code, lv': Levels, top: nat)
    requires Continues(c, lv, d, lv', top) && e.prog.instrs == d.prog.instrs && e.prog.labels == d.prog.labels
    ensures Continues(c, lv, e, lv', top)
  {
    forall i | 0 <= i < |e.prog.instrs| ensures StepFits(e.prog, lv', i) { assert StepFits(d.prog, lv', i); }
    forall l | 0 <= l < |e.prog.labels| ensures LabelFits(e.prog, lv', l) { assert LabelFits(d.prog, lv', l); }
  }

  lemma IndexedLevels(c: Code, lv: Levels, narrow: nat, index: nat) returns (lv': Levels)
    requires Levelled(c.prog, lv) && narrow in {LD_GLOB, LD_GLOB_Y, ST_GLOB} && Needs(narrow) <= Top(lv)
    ensures Continues(c, lv, Indexed(c, narrow, index), lv', Top(lv) + Change(narrow))
  {
    var op := if index <= 255 then narrow else narrow + 1;
    lv' := EmitLevels(c, lv, op, index);
    SameProgram(c, lv, Emit(c, op, index), Indexed(c, narrow, index), lv', Top(lv) + Change(narrow));
  }

  lemma LoadLevels(c: Code, lv: Levels, x: string) returns (lv': Levels)
    requires Levelled(c.prog, lv)
    ensures Continues(c, lv, LoadName(c, x), lv', Top(lv) + 1)
  {
    if x in c.names {
      lv' := IndexedLevels(c, lv, LD_GLOB, IndexOf(c.names, x));
    } else {
      var symbols := AddName(c.prog.symbols, x);
      var d := c.(prog := c.prog.(symbols := symbols));
      Nothing(c, lv);
      SameProgram(c, lv, c, d, lv, Top(lv));
      lv' := IndexedLevels(d, lv, LD_GLOB_Y, IndexOf(symbols, x));
    }
  }

  function Pushed(act: Action): nat
  {
    if act.Push? then 1 else 0
  }

  lemma StoreLevels(c: Code, lv: Levels, x: string, act: Action) returns (lv': Levels)
    requires Levelled(c.prog, lv) && Top(lv) >= 1
    ensures Continues(c, lv, CompileStore(c, x, act), lv', Top(lv) - 1 + Pushed(act))
  {
    hide Levelled, Indexed;
    var d, lv1 := c, lv;
    Nothing(c, lv);
    if act.Push? {
      d := Emit(c, DUP, 0);
      lv1 := EmitLevels(c, lv, DUP, 0);
    }
    var names := AddName(d.names, x);
    var e := d.(names := names);
    Nothing(d, lv1);
    SameProgram(d, lv1, d, e, lv1, Top(lv1));
    lv' := IndexedLevels(e, lv1, ST_GLOB, IndexOf(names, x));
    Trans(c, lv, d, lv1, Top(lv1), CompileStore(c, x, act), lv', Top(lv1) - 1);
  }

  lemma DropLevels(c: Code, lv: Levels, d: Code, lv1: Levels, top: nat, act: Action) returns (lv': Levels)
    requires Continues(c, lv, d, lv1, top + 1)
    ensures Continues(c, lv, DropIf(d, act), lv', top + Pushed(act))
  {
    lv' := lv1;
    if act.EvalOnly? {
      lv' := EmitLevels(d, lv1, DROP, 0);
      Trans(c, lv, d, lv1, top + 1, DropIf(d, act), lv', top);
    }
  }

  // ----- Expressions --------------------------------------------------------

  lemma LiteralLevels(c: Code, lv: Levels, act: Action, op: nat, operand: int) returns (lv': Levels)
    requires Levelled(c.prog, lv) && op in {LD_NIL, LD_BOOL, LD_INT, LD_INT_W}
    ensures Continues(c, lv, Literal(c, act, op, operand), lv', Top(lv) + Pushed(act))
  {
    lv' := lv;
    if act.Push? { lv' := EmitLevels(c, lv, op, operand); }
  }

  /** An expression leaves one value more if it is to be pushed, and none if it is not. */
  lemma {:induction false} ExprLevels(c: Code, lv: Levels, e: Expr, act: Action) returns (lv': Levels)
    requires Levelled(c.prog, lv)
    ensures Continues(c, lv, CompileExpr(c, e, act), lv', Top(lv) + Pushed(act))
    decreases e, 1
  {
    hide Levelled, Top, Indexed, LoadName, CompileStore, Literal;
    var h := Top(lv);
    match e
    case NilLit => lv' := LiteralLevels(c, lv, act, LD_NIL, 0);
    case BoolLit(b) => lv' := LiteralLevels(c, lv, act, LD_BOOL, if b then 1 else 0);
    case IntLit(n) => lv' := LiteralLevels(c, lv, act, if -128 <= n <= 127 then LD_INT else LD_INT_W, n);
    case Name(x) =>
      Nothing(c, lv);
      lv' := lv;
      if act.Push? { lv' := LoadLevels(c, lv, x); }
    case Bin(op, l, r) =>
      var d := CompileExpr(c, l, Push);
      lv' := ExprLevels(c, lv, l, Push);
      lv' := BinLevels(c, lv, d, lv', h, op, r, act);
    case Un(op, a) =>
      var d := CompileExpr(c, a, Push);
      var lv1 := ExprLevels(c, lv, a, Push);
      var lv2 := EmitLevels(d, lv1, OpcodeOf1(op), 0);
      Trans(c, lv, d, lv1, h + 1, Emit(d, OpcodeOf1(op), 0), lv2, h + 1);
      lv' := DropLevels(c, lv, Emit(d, OpcodeOf1(op), 0), lv2, h, act);
    case And(_, _) => lv' := LogicalLevels(c, lv, e, JMP_UNLS, act);
    case Or(_, _) => lv' := LogicalLevels(c, lv, e, JMP_WHEN, act);
    case Assign(x, r) =>
      var d := CompileExpr(c, r, Push);
      var lv1 := ExprLevels(c, lv, r, Push);
      lv' := StoreLevels(d, lv1, x, act);
      Trans(c, lv, d, lv1, h + 1, CompileExpr(c, e, act), lv', h + Pushed(act));
    case OpAssign(op, x, r) =>
      var d := LoadName(c, x);
      var lv1 := LoadLevels(c, lv, x);
      var lv2 := BinLevels(c, lv, d, lv1, h, op, r, Push);
      lv' := StoreLevels(CompileBin(d, op, r, Push), lv2, x, act);
      Trans(c, lv, CompileBin(d, op, r, Push), lv2, h + 1, CompileExpr(c, e, act), lv', h + Pushed(act));
  }

  lemma {:induction false} BinLevels(c: Code, lv: Levels, d: Code, lv1: Levels, h: nat, op: BinOp, r: Expr, act: Action)
      returns (lv': Levels)
    requires Continues(c, lv, d, lv1, h + 1)
    ensures Continues(c, lv, CompileBin(d, op, r, act), lv', h + Pushed(act))
    decreases r, 2
  {
    hide Levelled, Top;
    var e := CompileExpr(d, r, Push);
    var lv2 := ExprLevels(d, lv1, r, Push);
    var lv3 := EmitLevels(e, lv2, OpcodeOf(op), 0);
    Trans(c, lv, d, lv1, h + 1, e, lv2, h + 2);
    Trans(c, lv, e, lv2, h + 2, Emit(e, OpcodeOf(op), 0), lv3, h + 1);
    lv' := DropLevels(c, lv, Emit(e, OpcodeOf(op), 0), lv3, h, act);
  }

  lemma {:induction false} LogicalLevels(c: Code, lv: Levels, e: Expr, jump: nat, act: Action) returns (lv': Levels)
    requires Levelled(c.prog, lv) && (e.And? || e.Or?) && jump in {JMP_WHEN, JMP_UNLS}
    ensures Continues(c, lv, CompileLogical(c, e, jump, act), lv', Top(lv) + Pushed(act))
    decreases e, 0
  {
    hide Levelled, Top;
    var h, end := Top(lv), |c.prog.labels|;
    var c0 := Prepare(c);
    var lv0 := PrepareLevels(c, lv, h + 1);
    var c1 := CompileExpr(c0, e.lhs, Push);
    var lv1 := ExprLevels(c0, lv0, e.lhs, Push);
    Trans(c, lv, c0, lv0, h, c1, lv1, h + 1);
    var c2 := Emit(c1, DUP, 0);
    var lv2 := EmitLevels(c1, lv1, DUP, 0);
    Trans(c, lv, c1, lv1, h + 1, c2, lv2, h + 2);
    var c3 := EmitJump(c2, jump, end);
    var lv3 := JumpLevels(c2, lv2, jump, end);
    Trans(c, lv, c2, lv2, h + 2, c3, lv3, h + 1);
    var c4 := Emit(c3, DROP, 0);
    var lv4 := EmitLevels(c3, lv3, DROP, 0);
    Trans(c, lv, c3, lv3, h + 1, c4, lv4, h);
    var c5 := CompileExpr(c4, e.rhs, Push);
    var lv5 := ExprLevels(c4, lv4, e.rhs, Push);
    Trans(c, lv, c4, lv4, h, c5, lv5, h + 1);
    PlaceLevels(c5, lv5, end);
    Trans(c, lv, c5, lv5, h + 1, Place(c5, end), lv5, h + 1);
    lv' := DropLevels(c, lv, Place(c5, end), lv5, h, act);
  }

  // ----- Statements ---------------------------------------------------------

  /** Statements leave the stack as high as they find it. */
  lemma {:induction false} StmtLevels(c: Code, lv: Levels, s: Stmt) returns (lv': Levels)
    requires Levelled(c.prog, lv)
    ensures Continues(c, lv, CompileStmt(c, s), lv', Top(lv))
    decreases s
  {
    hide Levelled, Top;
    match s
    case ExprStmt(e) => lv' := ExprLevels(c, lv, e, EvalOnly);
    case If(bs) =>
      var h, end := Top(lv), |c.prog.labels|;
      var lv0 := PrepareLevels(c, lv, h);
      lv' := BranchesLevels(Prepare(c), lv0, bs, end);
      var d := CompileBranches(Prepare(c), bs, end);
      Trans(c, lv, Prepare(c), lv0, h, d, lv', h);
      PlaceLevels(d, lv', end);
      Trans(c, lv, d, lv', h, Place(d, end), lv', h);
    case While(cond, body) =>
      if cond == BoolLit(false) {
        lv' := lv;
        Nothing(c, lv);
      } else {
        lv' := WhileLevels(c, lv, s);
      }
  }

  /** The two labels of a loop, the first of which is placed. */
  lemma {:induction false} LoopLabels(c: Code, lv: Levels) returns (lv': Levels)
    requires Levelled(c.prog, lv)
    ensures
      var start := |c.prog.labels|;
      && Continues(c, lv, Prepare(Place(Prepare(c), start)), lv', Top(lv)) && |lv'.ofLabel| == start + 2
      && lv'.ofLabel[start] == lv'.ofLabel[start + 1] == Top(lv)
  {
    hide Levelled, Top;
    var h, start := Top(lv), |c.prog.labels|;
    var c0 := Prepare(c);
    var lv0 := PrepareLevels(c, lv, h);
    PlaceLevels(c0, lv0, start);
    var c1 := Place(c0, start);
    Trans(c, lv, c0, lv0, h, c1, lv0, h);
    lv' := PrepareLevels(c1, lv0, h);
    Trans(c, lv, c1, lv0, h, Prepare(c1), lv', h);
  }

  /** The condition of a loop and the jump to its end. */
  lemma {:induction false} HeadLevels(c: Code, lv: Levels, cond: Expr, end: nat) returns (lv': Levels)
    requires Levelled(c.prog, lv) && end < |lv.ofLabel| && lv.ofLabel[end] == Top(lv)
    ensures Continues(c, lv, EmitJump(CompileExpr(c, cond, Push), JMP_UNLS, end), lv', Top(lv))
    decreases cond, 2
  {
    hide Levelled, Top;
    var h := Top(lv);
    var d := CompileExpr(c, cond, Push);
    var lvd := ExprLevels(c, lv, cond, Push);
    lv' := JumpLevels(d, lvd, JMP_UNLS, end);
    Trans(c, lv, d, lvd, h + 1, EmitJump(d, JMP_UNLS, end), lv', h);
  }

  lemma {:induction false} WhileLevels(c: Code, lv: Levels, s: Stmt) returns (lv': Levels)
    requires Levelled(c.prog, lv) && s.While? && s.cond != BoolLit(false)
    ensures Continues(c, lv, CompileStmt(c, s), lv', Top(lv))
    decreases s, 0
  {
    hide Levelled, Top, CompileExpr, CompileBlock;
    var h, start, end := Top(lv), |c.prog.labels|, |c.prog.labels| + 1;
    var c1 := Prepare(Place(Prepare(c), start));
    var lv1 := LoopLabels(c, lv);
    var c2, lv2 := c1, lv1;
    if s.cond != BoolLit(true) {
      c2 := EmitJump(CompileExpr(c1, s.cond, Push), JMP_UNLS, end);
      lv2 := HeadLevels(c1, lv1, s.cond, end);
      Trans(c, lv, c1, lv1, h, c2, lv2, h);
      CompileExprGrows(c1, s.cond, Push);
    }
    var c3 := CompileBlock(c2, s.body);
    var lv3 := BlockLevels(c2, lv2, s.body);
    Trans(c, lv, c2, lv2, h, c3, lv3, h);
    var c4 := EmitJump(c3, JMP, start);
    lv' := JumpLevels(c3, lv3, JMP, start);
    Trans(c, lv, c3, lv3, h, c4, lv', h);
    if s.cond != BoolLit(true) {
      CompileBlockGrows(c2, s.body);
      PlaceLevels(c4, lv', end);
      Trans(c, lv, c4, lv', h, Place(c4, end), lv', h);
    }
  }

  lemma {:induction false} BlockLevels(c: Code, lv: Levels, b: Block) returns (lv': Levels)
    requires Levelled(c.prog, lv)
    ensures Continues(c, lv, CompileBlock(c, b), lv', Top(lv))
    decreases b
  {
    hide Levelled, Top;
    lv' := lv;
    Nothing(c, lv);
    if b.Then? {
      var d := CompileStmt(c, b.first);
      var lv1 := StmtLevels(c, lv, b.first);
      lv' := BlockLevels(d, lv1, b.rest);
      Trans(c, lv, d, lv1, Top(lv), CompileBlock(c, b), lv', Top(lv));
    }
  }

  lemma {:induction false} BranchesLevels(c: Code, lv: Levels, bs: Branches, end: nat) returns (lv': Levels)
    requires Levelled(c.prog, lv) && end < |lv.ofLabel| && lv.ofLabel[end] == Top(lv)
    ensures Continues(c, lv, CompileBranches(c, bs, end), lv', Top(lv))
    decreases bs
  {
    hide Levelled, Top;
    match bs
    case NoElse => lv' := lv; Nothing(c, lv);
    case Else(b) => lv' := BlockLevels(c, lv, b);
    case Branch(cond, b, rest) =>
      var h, next := Top(lv), |c.prog.labels|;
      var c0 := Prepare(c);
      var lv0 := PrepareLevels(c, lv, h);
      var d := CompileExpr(c0, cond, Push);
      var lvd := ExprLevels(c0, lv0, cond, Push);
      Trans(c, lv, c0, lv0, h, d, lvd, h + 1);
      var c1 := EmitJump(d, JMP_UNLS, next);
      var lv1 := JumpLevels(d, lvd, JMP_UNLS, next);
      Trans(c, lv, d, lvd, h + 1, c1, lv1, h);
      var c2 := CompileBlock(c1, b);
      var lv2 := BlockLevels(c1, lv1, b);
      Trans(c, lv, c1, lv1, h, c2, lv2, h);
      var c3, lv3 := c2, lv2;
      if !rest.NoElse? {
        c3 := EmitJump(c2, JMP, end);
        lv3 := JumpLevels(c2, lv2, JMP, end);
        Trans(c, lv, c2, lv2, h, c3, lv3, h);
      }
      PlaceLevels(c3, lv3, next);
      var c4 := Place(c3, next);
      Trans(c, lv, c3, lv3, h, c4, lv3, h);
      lv' := BranchesLevels(c4, lv3, rest, end);
      Trans(c, lv, c4, lv3, h, CompileBranches(c, bs, end), lv', h);
  }

  /** The code of a module starts at height zero and keeps all heights. */
  lemma ModuleLevels(names: seq<string>, m: Module) returns (lv: Levels)
    ensures Levelled(CompileModule(names, m).prog, lv) && lv.at[0] == 0
  {
    hide Levelled, Top;
    var c0 := Code(Program([], [], []), names, Fine);
    var lv0 := Levels([0], []);
    assert Levelled(c0.prog, lv0) && Top(lv0) == 0 by { Start(names); }
    var c := CompileBlock(c0, m.code);
    var lv1 := BlockLevels(c0, lv0, m.code);
    var c1 := c;
    if m.last.Some? {
      var d := CompileExpr(c, m.last.value, Push);
      var lvd := ExprLevels(c, lv1, m.last.value, Push);
      Trans(c0, lv0, c, lv1, 0, d, lvd, 1);
      c1 := Emit(d, RET, 0);
      lv1 := EmitLevels(d, lvd, RET, 0);
      Trans(c0, lv0, d, lvd, 1, c1, lv1, 0);
    }
    lv := EmitLevels(c1, lv1, RET_NIL, 0);
    Trans(c0, lv0, c1, lv1, 0, Emit(c1, RET_NIL, 0), lv, 0);
  }

  lemma Start(names: seq<string>)
    ensures Levelled(Program([], [], []), Levels([0], [])) && Top(Levels([0], [])) == 0
  {
  }

  // ----- Running ------------------------------------------------------------

  /** The machine's stack is `base` and, above it, as many values as the code says. */
  ghost predicate OnLevel(p: Program, lv: Levels, base: seq<Value>, vm: Vm)
  {
    vm.Running? ==> vm.pc < |lv.at| && base <= vm.stack && |vm.stack| == |base| + lv.at[vm.pc]
  }

  lemma ExecuteLevels(rt: Runtime, names: seq<string>, symbols: seq<string>, op: nat, n: int, stack: seq<Value>,
      globals: seq<Value>, base: seq<Value>)
    requires base <= stack && |stack| >= |base| + Needs(op)
    ensures
      var e := Execute(rt, names, symbols, op, n, stack, globals);
      e.Next? ==> base <= e.stack && |e.stack| == |stack| + Change(op)
  {
    hide Operate, Operate1, GlobalBySymbol;
  }

  lemma StepOnLevel(rt: Runtime, p: Program, names: seq<string>, lv: Levels, base: seq<Value>, vm: Vm)
    requires GoodInstrs(p) && Levelled(p, lv) && OnLevel(p, lv, base, vm)
    ensures OnLevel(p, lv, base, Step(rt, p, names, vm))
  {
    hide Execute, Needs, Change;
    if vm.Running? && vm.pc < |p.instrs| {
      assert StepFits(p, lv, vm.pc) && GoodInstr(p, p.instrs[vm.pc]);
      match p.instrs[vm.pc]
      case Plain(op, n) => ExecuteLevels(rt, names, p.symbols, op, n, vm.stack, vm.globals, base);
      case ToLabel(op, l) =>
        assert LabelFits(p, lv, l);
        DecideLevels(op, vm.stack, base);
    }
  }

  lemma DecideLevels(op: nat, stack: seq<Value>, base: seq<Value>)
    requires IsJump(op) && base <= stack && |stack| >= |base| + Needs(op)
    ensures Decide(op, stack).Take? ==>
      base <= Decide(op, stack).stack && |Decide(op, stack).stack| == |stack| + Change(op)
    ensures Decide(op, stack).Pass? ==>
      base <= Decide(op, stack).stack && |Decide(op, stack).stack| == |stack| + Change(op)
  {
  }

  /** At every instruction of every run the stack is as high above where it started as the
      code says, and what was on it at the start is untouched. */
  lemma {:induction false} StepsOnLevel(rt: Runtime, p: Program, names: seq<string>, lv: Levels, base: seq<Value>,
      vm: Vm, n: nat)
    requires GoodInstrs(p) && Levelled(p, lv) && OnLevel(p, lv, base, vm)
    ensures OnLevel(p, lv, base, Steps(rt, p, names, vm, n))
    decreases n
  {
    hide Step, Levelled, GoodInstrs, OnLevel;
    if n > 0 {
      StepOnLevel(rt, p, names, lv, base, vm);
      StepsOnLevel(rt, p, names, lv, base, Step(rt, p, names, vm), n - 1);
    }
  }

  /** So whatever a module does, it never touches the stack below where it began. */
  lemma {:induction false} BaseUntouched(rt: Runtime, names0: seq<string>, m: Module, names: seq<string>,
      base: seq<Value>, globals: seq<Value>, n: nat)
    requires GoodInstrs(CompileModule(names0, m).prog)
    ensures
      var vm := Steps(rt, CompileModule(names0, m).prog, names, Running(0, base, globals), n);
      vm.Running? ==> base <= vm.stack
  {
    hide Levelled, GoodInstrs, CompileModule, Steps;
    var p := CompileModule(names0, m).prog;
    var lv := ModuleLevels(names0, m);
    assert |lv.at| > 0 by { SomeLevel(p, lv); }
    StepsOnLevel(rt, p, names, lv, base, Running(0, base, globals), n);
  }

  lemma SomeLevel(p: Program, lv: Levels)
    requires Levelled(p, lv)
    ensures |lv.at| > 0
  {
  }
}
