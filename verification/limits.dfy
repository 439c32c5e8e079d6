/** Modules that reach the limits of the instruction format: where exactly compiling them goes wrong. */
module Limits {
  import opened Language
  import opened Bytecode
  import opened Emission
  import opened LabelCount
  import opened Assembling
  import opened AssemblerObject
  import opened Wellformed

  function Repeated(s: Stmt, k: nat): Block
  {
    if k == 0 then Done else Then(s, Repeated(s, k - 1))
  }

  lemma {:induction false} RepeatedPlain(s: Stmt, k: nat)
    requires PlainStmt(s)
    ensures PlainBlock(Repeated(s, k))
    decreases k
  {
    if k > 0 { RepeatedPlain(s, k - 1); }
  }

  /** A module of one statement. */
  lemma {:induction false} OneStmt(names: seq<string>, s: Stmt)
    ensures
      var c := CompileStmt(Code(Program([], [], []), names, Fine), s);
      CompileModule(names, Module(Then(s, Done), Option.None)) == Emit(c, RET_NIL, 0)
  {
    hide CompileStmt;
    var c := CompileStmt(Code(Program([], [], []), names, Fine), s);
    assert CompileBlock(c, Done) == c;
  }

  // ----- Statements that take three bytes -----------------------------------

  /** A statement whose code is three instructions without operands. */
  const FILLER := ExprStmt(Un(Neg, NilLit))

  predicate OneByte(i: Instr)
  {
    i.Plain? && OperandOf(i.op).None?
  }

  /** `d` is `c` with `n` more instructions of one byte each. */
  ghost predicate Filled(c: Code, d: Code, n: nat)
  {
    && |d.prog.instrs| == |c.prog.instrs| + n && c.prog.instrs <= d.prog.instrs
    && (forall i {:trigger d.prog.instrs[i]} :: |c.prog.instrs| <= i < |d.prog.instrs| ==> OneByte(d.prog.instrs[i]))
    && d.prog.labels == c.prog.labels && d.status == c.status
  }

  lemma {:induction false} Filling(c: Code, k: nat)
    ensures Filled(c, CompileBlock(c, Repeated(FILLER, k)), 3 * k)
    decreases k
  {
    hide OneByte;
    if k > 0 {
      OneFilling(c);
      Filling(CompileStmt(c, FILLER), k - 1);
    }
  }

  lemma {:induction false} FillerCode(c: Code)
    ensures CompileStmt(c, FILLER) == Emit(Emit(Emit(c, LD_NIL, 0), NEG, 0), DROP, 0)
  {
    hide Emit;
    assert CompileExpr(c, NilLit, Push) == Emit(c, LD_NIL, 0);
  }

  lemma {:induction false} OneFilling(c: Code)
    ensures Filled(c, CompileStmt(c, FILLER), 3)
  {
    hide CompileStmt;
    FillerCode(c);
  }

  /** Instructions without operands are a byte each. */
  lemma {:induction false} OneByteEach(p: Program, i: nat, j: nat)
    requires GoodInstrs(p) && i <= j <= |p.instrs|
    requires forall k {:trigger p.instrs[k]} :: i <= k < j ==> OneByte(p.instrs[k])
    ensures Address(p, j) == Address(p, i) + (j - i)
    decreases j
  {
    if i < j { OneByteEach(p, i, j - 1); }
  }

  lemma {:induction false} OneJump(p: Program, j: nat)
    requires GoodInstrs(p) && JumpAt(p, j) &&
      (forall i {:trigger p.instrs[i]} :: 0 <= i < |p.instrs| && i != j ==> p.instrs[i].Plain?)
    ensures Encodable(p) <==> Fits(p, j)
    ensures !Fits(p, j) ==> !Lands(p, j)
  {
    hide Fits, Lands, GoodInstrs;
    if !Fits(p, j) {
      assert !Encodable(p) by { assert JumpAt(p, j); }
      FirstMisses(p);
      var i :| JumpAt(p, i) && !Lands(p, i);
      assert i == j;
    }
  }

  // ----- A loop over more than 128 bytes ------------------------------------

  function Loop(k: nat): Module
  {
    Module(Then(While(BoolLit(true), Repeated(FILLER, k)), Done), Option.None)
  }

  lemma LoopCode(names: seq<string>, k: nat)
    ensures
      var c := CompileModule(names, Loop(k));
      && c.status.Fine? && |c.prog.instrs| == 3 * k + 2 && |c.prog.labels| == 2 && c.prog.labels[0] == 0
      && (forall i {:trigger c.prog.instrs[i]} :: 0 <= i < 3 * k ==> OneByte(c.prog.instrs[i]))
      && c.prog.instrs[3 * k] == ToLabel(JMP, 0) && c.prog.instrs[3 * k + 1] == Plain(RET_NIL, 0)
  {
    hide OneByte, CompileStmt, CompileModule, CompileBlock;
    var c0 := Code(Program([], [], []), names, Fine);
    var c1 := Prepare(Place(Prepare(c0), 0));
    var body := Repeated(FILLER, k);
    OneStmt(names, While(BoolLit(true), body));
    Filling(c1, k);
    assert CompileStmt(c0, While(BoolLit(true), body)) == EmitJump(CompileBlock(c1, body), JMP, 0) by {
      UnfoldLoop(c0, body);
    }
  }

  lemma {:induction false} UnfoldLoop(c: Code, body: Block)
    ensures
      var start := |c.prog.labels|;
      CompileStmt(c, While(BoolLit(true), body)) ==
        EmitJump(CompileBlock(Prepare(Place(Prepare(c), start)), body), JMP, start)
  {
    hide CompileBlock, EmitJump;
  }

  /** A loop with k times three bytes in it compiles for all k, but its bytes are right only up to
      k = 42: beyond 128 bytes the jump back does not land. */
  lemma FarLoop(names: seq<string>, k: nat)
    ensures
      var c := CompileModule(names, Loop(k));
      && c.status.Fine? && GoodInstrs(c.prog) && JumpAt(c.prog, 3 * k)
      && (Encodable(c.prog) <==> k <= 42)
      && (k > 42 ==> !Lands(c.prog, 3 * k))
  {
    hide CompileModule, Fits, Lands;
    var p := CompileModule(names, Loop(k)).prog;
    LoopCode(names, k);
    RepeatedPlain(FILLER, k);
    ModuleSound(names, Loop(k));
    OneByteEach(p, 0, 3 * k);
    WhatFits(p, 3 * k);
    OneJump(p, 3 * k);
  }

  // ----- A branch over more than 32767 bytes --------------------------------

  function Branching(k: nat): Module
  {
    Module(Then(If(Branch(BoolLit(true), Repeated(FILLER, k), NoElse)), Done), Option.None)
  }

  lemma BranchCode(names: seq<string>, k: nat)
    ensures
      var c := CompileModule(names, Branching(k));
      && c.status.Fine? && |c.prog.instrs| == 3 * k + 3 && |c.prog.labels| == 2 && c.prog.labels[1] == 3 * k + 2
      && c.prog.instrs[0] == Plain(LD_BOOL, 1) && c.prog.instrs[1] == ToLabel(JMP_UNLS, 1)
      && (forall i {:trigger c.prog.instrs[i]} :: 2 <= i < 3 * k + 2 ==> OneByte(c.prog.instrs[i]))
      && c.prog.instrs[3 * k + 2] == Plain(RET_NIL, 0)
  {
    hide OneByte, CompileStmt, CompileModule, CompileBlock;
    var c0 := Code(Program([], [], []), names, Fine);
    var c1 := EmitJump(Emit(Prepare(Prepare(c0)), LD_BOOL, 1), JMP_UNLS, 1);
    var body := Repeated(FILLER, k);
    OneStmt(names, If(Branch(BoolLit(true), body, NoElse)));
    Filling(c1, k);
    assert CompileStmt(c0, If(Branch(BoolLit(true), body, NoElse))) == Place(Place(CompileBlock(c1, body), 1), 0) by {
      UnfoldBranch(c0, body);
    }
  }

  lemma {:induction false} UnfoldBranch(c: Code, body: Block)
    ensures
      var end := |c.prog.labels|;
      var c1 := EmitJump(Emit(Prepare(Prepare(c)), LD_BOOL, 1), JMP_UNLS, end + 1);
      CompileStmt(c, If(Branch(BoolLit(true), body, NoElse))) == Place(Place(CompileBlock(c1, body), end + 1), end)
  {
    hide CompileBlock;
    var d := Prepare(c);
    assert CompileExpr(Prepare(d), BoolLit(true), Push) == Emit(Prepare(d), LD_BOOL, 1);
    var c3 := Place(CompileBlock(EmitJump(Emit(Prepare(d), LD_BOOL, 1), JMP_UNLS, |d.prog.labels|), body),
      |d.prog.labels|);
    assert CompileBranches(c3, NoElse, |c.prog.labels|) == c3;
  }

  /** An if statement with k times three bytes in it compiles for all k, but its bytes are right
      only up to k = 10921: beyond 32767 bytes the jump over them does not land. */
  lemma FarBranch(names: seq<string>, k: nat)
    ensures
      var c := CompileModule(names, Branching(k));
      && c.status.Fine? && GoodInstrs(c.prog) && JumpAt(c.prog, 1)
      && (Encodable(c.prog) <==> k <= 10921)
      && (k > 10921 ==> !Lands(c.prog, 1))
  {
    hide CompileModule, Fits, Lands, GoodInstrs, Address, TargetOf, Encodable;
    var p := CompileModule(names, Branching(k)).prog;
    BranchCode(names, k);
    RepeatedPlain(FILLER, k);
    assert PlainBranches(Branch(BoolLit(true), Repeated(FILLER, k), NoElse));
    ModuleSound(names, Branching(k));
    BranchSpan(p, k);
    WhatFits(p, 1);
    OneJump(p, 1);
  }

  /** How far the jump over `k` fillers goes. */
  lemma {:induction false} BranchSpan(p: Program, k: nat)
    requires GoodInstrs(p) && |p.instrs| == 3 * k + 3 && |p.labels| == 2 && p.labels[1] == 3 * k + 2
    requires p.instrs[1] == ToLabel(JMP_UNLS, 1)
    requires forall i {:trigger p.instrs[i]} :: 2 <= i < 3 * k + 2 ==> OneByte(p.instrs[i])
    ensures TargetOf(p, 1) == 3 * k + 2
    ensures Address(p, 3 * k + 2) - Address(p, 1) == 3 * k + (if k <= 13 then 2 else 3)
  {
    OneByteEach(p, 2, 3 * k + 2);
    assert Address(p, 2) == Address(p, 1) + WidthAt(p, 1);
  }

  // ----- More than 65536 labels ---------------------------------------------

  /** A statement that takes one label. */
  const CHOICE := ExprStmt(And(BoolLit(true), BoolLit(true)))

  function Choices(k: nat): Module
  {
    Module(Repeated(CHOICE, k), Option.None)
  }

  /** The code of a choice that has label number `l`. */
  function ChoiceInstrs(l: nat): seq<Instr>
  {
    [Plain(LD_BOOL, 1), Plain(DUP, 0), ToLabel(JMP_UNLS, l), Plain(DROP, 0), Plain(LD_BOOL, 1), Plain(DROP, 0)]
  }

  lemma {:induction false} ChoiceCode(c: Code)
    ensures
      var end := |c.prog.labels|;
      var c1 := Emit(EmitJump(Emit(Emit(Prepare(c), LD_BOOL, 1), DUP, 0), JMP_UNLS, end), DROP, 0);
      CompileStmt(c, CHOICE) == Emit(Place(Emit(c1, LD_BOOL, 1), end), DROP, 0)
  {
    var end := |c.prog.labels|;
    var e := And(BoolLit(true), BoolLit(true));
    var c0 := Emit(Prepare(c), LD_BOOL, 1);
    assert CompileExpr(Prepare(c), BoolLit(true), Push) == c0;
    var c1 := Emit(EmitJump(Emit(c0, DUP, 0), JMP_UNLS, end), DROP, 0);
    assert CompileExpr(c1, BoolLit(true), Push) == Emit(c1, LD_BOOL, 1);
    assert CompileLogical(c, e, JMP_UNLS, EvalOnly) == DropIf(Place(CompileExpr(c1, e.rhs, Push), end), EvalOnly);
  }

  lemma {:induction false} OneChoice(c: Code)
    ensures
      var d := CompileStmt(c, CHOICE);
      && d.prog.instrs == c.prog.instrs + ChoiceInstrs(|c.prog.labels|) &&
        d.prog.labels == c.prog.labels + [|c.prog.instrs| + 5]
      && d.status == Noted(c.status, |c.prog.labels| <= MAX_LABEL, TooManyLabels)
  {
    hide CompileStmt;
    ChoiceCode(c);
    var l := |c.prog.labels|;
    Appended6(c.prog.instrs, Plain(LD_BOOL, 1), Plain(DUP, 0), ToLabel(JMP_UNLS, l), Plain(DROP, 0), Plain(LD_BOOL, 1),
      Plain(DROP, 0));
    assert (c.prog.labels + [UNPLACED])[l := |c.prog.instrs| + 5] == c.prog.labels + [|c.prog.instrs| + 5];
  }

  lemma Appended6(xs: seq<Instr>, a: Instr, b: Instr, c: Instr, d: Instr, e: Instr, f: Instr)
    ensures xs + [a] + [b] + [c] + [d] + [e] + [f] == xs + [a, b, c, d, e, f]
  {
  }

  /** Whether `d` is `c` with `k` choices behind it. */
  ghost predicate Chosen(c: Code, d: Code, k: nat)
  {
    && |d.prog.instrs| == |c.prog.instrs| + 6 * k && c.prog.instrs <= d.prog.instrs
    && |d.prog.labels| == |c.prog.labels| + k && c.prog.labels <= d.prog.labels
    && (forall i {:trigger ChoiceAt(c, d, i)} :: 0 <= i < k ==> ChoiceAt(c, d, i))
  }

  ghost predicate ChoiceAt(c: Code, d: Code, i: nat)
  {
    var at, l := |c.prog.instrs| + 6 * i, |c.prog.labels| + i;
    && at + 6 <= |d.prog.instrs| && l < |d.prog.labels|
    && d.prog.instrs[at..at + 6] == ChoiceInstrs(l) && d.prog.labels[l] == at + 5
  }

  lemma {:induction false} ChoicesCode(c: Code, k: nat)
    ensures Chosen(c, CompileBlock(c, Repeated(CHOICE, k)), k)
    decreases k
  {
    hide ChoiceInstrs, CompileStmt;
    if k > 0 {
      var c1 := CompileStmt(c, CHOICE);
      OneChoice(c);
      ChoicesCode(c1, k - 1);
      MoreChoices(c, c1, CompileBlock(c, Repeated(CHOICE, k)), k);
    }
  }

  lemma MoreChoices(c: Code, c1: Code, d: Code, k: nat)
    requires k > 0 && Chosen(c1, d, k - 1)
    requires c1.prog.instrs == c.prog.instrs + ChoiceInstrs(|c.prog.labels|) &&
      c1.prog.labels == c.prog.labels + [|c.prog.instrs| + 5]
    ensures Chosen(c, d, k)
  {
    hide ChoiceInstrs;
    assert |ChoiceInstrs(|c.prog.labels|)| == 6 by { SixInstrs(|c.prog.labels|); }
    forall i | 0 <= i < k ensures ChoiceAt(c, d, i) {
      if i > 0 {
        assert ChoiceAt(c1, d, i - 1);
      } else {
        var at := |c.prog.instrs|;
        assert d.prog.instrs[at..at + 6] == c1.prog.instrs[at..at + 6] == ChoiceInstrs(|c.prog.labels|);
        assert d.prog.labels[|c.prog.labels|] == c1.prog.labels[|c.prog.labels|];
      }
    }
  }

  lemma SixInstrs(l: nat)
    ensures |ChoiceInstrs(l)| == 6
  {
  }

  lemma {:induction false} LabelsInChoices(k: nat)
    ensures LabelsInBlock(Repeated(CHOICE, k)) == UsedInBlock(Repeated(CHOICE, k)) == k
    decreases k
  {
    if k > 0 {
      assert LabelsIn(And(BoolLit(true), BoolLit(true))) == 1;
      LabelsInChoices(k - 1);
    }
  }

  lemma ChoicesSize(names: seq<string>, k: nat)
    ensures
      var p := CompileModule(names, Choices(k)).prog;
      |p.instrs| == 6 * k + 1 && |p.labels| == k
  {
    hide CompileBlock;
    ChoicesCode(Code(Program([], [], []), names, Fine), k);
  }

  /** Each instruction of the module is the return at the end or part of a choice. */
  lemma ChoiceInstr(names: seq<string>, k: nat, i: nat)
    requires i < |CompileModule(names, Choices(k)).prog.instrs|
    ensures
      var p := CompileModule(names, Choices(k)).prog;
      && |p.instrs| == 6 * k + 1 && |p.labels| == k
      && (if i % 6 == 2 then
            i / 6 < k && p.instrs[i] == ToLabel(JMP_UNLS, i / 6) && p.labels[i / 6] == i / 6 * 6 + 5
          else
            p.instrs[i] in {Plain(LD_BOOL, 1), Plain(DUP, 0), Plain(DROP, 0), Plain(RET_NIL, 0)})
  {
    hide CompileBlock;
    var c0 := Code(Program([], [], []), names, Fine);
    var c := CompileBlock(c0, Repeated(CHOICE, k));
    ChoicesCode(c0, k);
    if i < 6 * k {
      hide ChoiceInstrs;
      assert ChoiceAt(c0, c, i / 6);
      SixthOf(c.prog.instrs, i);
      InChoice(i / 6, i % 6);
    }
  }

  lemma SixthOf(xs: seq<Instr>, i: nat)
    requires i / 6 * 6 + 6 <= |xs|
    ensures i < |xs| && i % 6 < 6 && xs[i] == xs[6 * (i / 6)..6 * (i / 6) + 6][i % 6]
  {
    assert i == 6 * (i / 6) + i % 6;
  }

  lemma InChoice(l: nat, r: nat)
    requires r < 6
    ensures |ChoiceInstrs(l)| == 6
    ensures
      if r == 2 then ChoiceInstrs(l)[r] == ToLabel(JMP_UNLS, l)
      else ChoiceInstrs(l)[r] in {Plain(LD_BOOL, 1), Plain(DUP, 0), Plain(DROP, 0)}
  {
  }

  /** What is kept of the labels that jumps name if nothing is asserted. */
  function Cut(p: Program): Program
  {
    p.(instrs := seq(|p.instrs|, i requires 0 <= i < |p.instrs| =>
      if p.instrs[i].ToLabel? then p.instrs[i].(target := p.instrs[i].target % 65536) else p.instrs[i]))
  }

  /** The module compiles up to k = 65536. From then on it is asserted that label number 65536
      fits; if that is not checked, the jump to it goes back to label number 0, and the assembler
      gives up. */
  lemma ManyLabels(names: seq<string>, k: nat)
    ensures
      var c := CompileModule(names, Choices(k));
      && c.status == (if k <= 65536 then Fine else TooManyLabels)
      && (k > 65536 ==>
            && |c.prog.instrs| > 393218 && |c.prog.labels| == k && c.prog.instrs[393218] == ToLabel(JMP_UNLS, 65536)
            && c.prog.labels[65536] == 393221 && Cut(c.prog).instrs[393218] == ToLabel(JMP_UNLS, 0)
            && GoodInstrs(Cut(c.prog)) && !NoneTooFar(Cut(c.prog), |c.prog.instrs|))
  {
    hide CompileModule, GoodInstrs;
    var c := CompileModule(names, Choices(k));
    var p := c.prog;
    RepeatedPlain(CHOICE, k);
    LabelsInChoices(k);
    ModuleStatus(names, Choices(k));
    forall i | 0 <= i < |p.instrs| && p.instrs[i].Plain? ensures p.instrs[i].operand <= MAX_INDEX {
      ChoiceInstr(names, k, i);
    }
    ChoicesSize(names, k);
    if k > 65536 {
      ChoiceInstr(names, k, 393218);
      CutGood(names, k);
      CutGoesBack(names, k);
    }
  }

  lemma CutGood(names: seq<string>, k: nat)
    ensures GoodInstrs(Cut(CompileModule(names, Choices(k)).prog))
  {
    hide CompileModule;
    var p := CompileModule(names, Choices(k)).prog;
    forall i | 0 <= i < |p.instrs| ensures GoodInstr(Cut(p), Cut(p).instrs[i]) {
      ChoiceInstr(names, k, i);
      if i % 6 == 2 { ChoiceInstr(names, k, i / 6 % 65536 * 6 + 2); }
    }
  }

  lemma CutGoesBack(names: seq<string>, k: nat)
    requires k > 65536 && GoodInstrs(Cut(CompileModule(names, Choices(k)).prog))
    ensures
      var p := CompileModule(names, Choices(k)).prog;
      !NoneTooFar(Cut(p), |p.instrs|)
  {
    hide CompileModule, GoodInstrs;
    var p := CompileModule(names, Choices(k)).prog;
    var q := Cut(p);
    ChoicesSize(names, k);
    ChoiceInstr(names, k, 2);
    ChoiceInstr(names, k, 393218);
    assert JumpAt(q, 393218) && q.instrs[393218] == ToLabel(JMP_UNLS, 0) && q.labels[0] == 5;
    assert TargetOf(q, 393218) == 5;
    AddressGap(q, 5, 393218);
    assert TooFar(q, 393218);
  }
}
