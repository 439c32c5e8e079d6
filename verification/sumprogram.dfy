/** One program all the way: its source, its bytes, and what running them comes to. */
module SumProgram {
  import opened Language
  import opened Laws
  import opened Bytecode
  import opened Emission
  import opened Labelled
  import opened Assembling
  import opened ByteMachine
  import opened Wellformed
  import opened Correctness
  import opened Compiled
  import opened Meaning

  const NAMES := ["s", "i"]

  /** The instructions, in four parts: both names are set to 0; the condition; the body; the end. */
  const SUM_START := [Plain(LD_INT, 0), Plain(ST_GLOB, 0), Plain(LD_INT, 0), Plain(ST_GLOB, 1)]

  function SumTest(n: int): seq<Instr>
  {
    [Plain(LD_GLOB, 1), LoadInstr(n), Plain(CMP_LT, 0), ToLabel(JMP_UNLS, 1)]
  }

  const SUM_BODY := [Plain(LD_GLOB, 1), Plain(LD_INT, 1), Plain(ADD, 0), Plain(ST_GLOB, 1),
    Plain(LD_GLOB, 0), Plain(LD_GLOB, 1), Plain(ADD, 0), Plain(ST_GLOB, 0), ToLabel(JMP, 0)]

  const SUM_END := [Plain(LD_GLOB, 0), Plain(RET, 0), Plain(RET_NIL, 0)]

  function SumInstrs(n: int): seq<Instr>
  {
    SUM_START + SumTest(n) + SUM_BODY + SUM_END
  }

  function At(instrs: seq<Instr>, labels: seq<int>): Code
  {
    Code(Program(instrs, labels, []), NAMES, Fine)
  }

  lemma Indices()
    ensures IndexOf(NAMES, "s") == 0 && IndexOf(NAMES, "i") == 1 && "s" in NAMES && "i" in NAMES
  {
    assert NAMES[0] == "s" && NAMES[1] == "i" && "s"[0] != "i"[0];
  }

  /** `x` is set to a literal 0. */
  lemma {:induction false} SetCode(c: Code, x: string)
    ensures CompileStmt(c, ExprStmt(Assign(x, IntLit(0)))) == Receive(Emit(c, LD_INT, 0), x)
  {
    assert CompileExpr(c, IntLit(0), Push) == Emit(c, LD_INT, 0);
  }

  lemma StartCode()
    ensures
      var c := Code(Program([], [], []), [], Fine);
      CompileStmt(CompileStmt(c, ExprStmt(Assign("s", IntLit(0)))), ExprStmt(Assign("i", IntLit(0)))) ==
        At(SUM_START, [])
  {
    hide CompileStmt;
    var c := Code(Program([], [], []), [], Fine);
    SetCode(c, "s");
    var c1 := Receive(Emit(c, LD_INT, 0), "s");
    assert c1 == Code(Program([Plain(LD_INT, 0), Plain(ST_GLOB, 0)], [], []), ["s"], Fine);
    SetCode(c1, "i");
    assert "s"[0] != "i"[0];
    assert ["s"] + ["i"] == NAMES;
    Indices();
    assert c1.prog.instrs + [Plain(LD_INT, 0)] + [Plain(ST_GLOB, 1)] == SUM_START;
  }

  lemma {:induction false} TestCode(c: Code, n: int)
    requires c.names == NAMES && c.status.Fine?
    ensures
      var d := CompileExpr(c, Bin(Lt, COUNTER, IntLit(n)), Push);
      EmitJump(d, JMP_UNLS, 1) == c.(prog := c.prog.(instrs := c.prog.instrs + SumTest(n)))
  {
    Indices();
    var c1 := Emit(c, LD_GLOB, 1);
    assert CompileExpr(c, COUNTER, Push) == c1;
    var c2 := Emit(c1, LoadInstr(n).op, n);
    assert CompileExpr(c1, IntLit(n), Push) == c2;
    assert CompileExpr(c, Bin(Lt, COUNTER, IntLit(n)), Push) == CompileBin(c1, Lt, IntLit(n), Push) ==
      Emit(c2, CMP_LT, 0);
    assert c.prog.instrs + [Plain(LD_GLOB, 1)] + [LoadInstr(n)] + [Plain(CMP_LT, 0)] + [ToLabel(JMP_UNLS, 1)] ==
      c.prog.instrs + SumTest(n);
  }

  /** `x += e`, where the code of `e` is one load. */
  lemma {:induction false} AddCode(c: Code, x: string, e: Expr, k: nat, load: Instr)
    requires c.names == NAMES && c.status.Fine? && x in NAMES && k == IndexOf(NAMES, x) <= 1 && load.Plain?
    requires CompileExpr(Emit(c, LD_GLOB, k), e, Push) == Emit(Emit(c, LD_GLOB, k), load.op, load.operand)
    ensures CompileStmt(c, ExprStmt(OpAssign(Add, x, e))) == c.(prog := c.prog.(instrs := c.prog.instrs +
      [Plain(LD_GLOB, k), load, Plain(ADD, 0), Plain(ST_GLOB, k)]))
  {
    hide CompileStore, LoadName, CompileBin, CompileStmt, CompileExpr, IndexOf, Emit;
    OpAssignCode(c, x, e);
    KnownName(c, x, k);
    AddThem(Emit(c, LD_GLOB, k), e, load);
    EmitKeeps(c, LD_GLOB, k);
    EmitKeeps(Emit(c, LD_GLOB, k), load.op, load.operand);
    var c3 := Emit(Emit(Emit(c, LD_GLOB, k), load.op, load.operand), ADD, 0);
    EmitKeeps(Emit(Emit(c, LD_GLOB, k), load.op, load.operand), ADD, 0);
    KnownName(c3, x, k);
    FourEmits(c, LD_GLOB, k, load.op, load.operand, ADD, 0, ST_GLOB, k);
  }

  lemma EmitKeeps(c: Code, op: nat, n: int)
    ensures Emit(c, op, n).names == c.names && Emit(c, op, n).status == c.status
  {
  }

  lemma FourEmits(c: Code, op1: nat, n1: int, op2: nat, n2: int, op3: nat, n3: int, op4: nat, n4: int)
    ensures Emit(Emit(Emit(Emit(c, op1, n1), op2, n2), op3, n3), op4, n4) ==
      c.(prog := c.prog.(instrs := c.prog.instrs + [Plain(op1, n1), Plain(op2, n2), Plain(op3, n3), Plain(op4, n4)]))
  {
    assert c.prog.instrs + [Plain(op1, n1)] + [Plain(op2, n2)] + [Plain(op3, n3)] + [Plain(op4, n4)] ==
      c.prog.instrs + [Plain(op1, n1), Plain(op2, n2), Plain(op3, n3), Plain(op4, n4)];
  }

  lemma {:induction false} OpAssignCode(c: Code, x: string, e: Expr)
    ensures CompileStmt(c, ExprStmt(OpAssign(Add, x, e))) ==
      CompileStore(CompileBin(LoadName(c, x), Add, e, Push), x, EvalOnly)
  {
    hide CompileStore, LoadName, CompileBin;
  }

  lemma {:induction false} KnownName(c: Code, x: string, k: nat)
    requires c.names == NAMES && c.status.Fine? && x in NAMES && k == IndexOf(NAMES, x) <= 1
    ensures LoadName(c, x) == Emit(c, LD_GLOB, k) && CompileStore(c, x, EvalOnly) == Emit(c, ST_GLOB, k)
  {
  }

  lemma {:induction false} AddThem(c: Code, e: Expr, load: Instr)
    requires load.Plain? && CompileExpr(c, e, Push) == Emit(c, load.op, load.operand)
    ensures CompileBin(c, Add, e, Push) == Emit(Emit(c, load.op, load.operand), ADD, 0)
  {
  }

  lemma {:induction false} BodyCode(c: Code)
    requires c.names == NAMES && c.status.Fine?
    ensures EmitJump(CompileBlock(c, ADD_NEXT), JMP, 0) == c.(prog := c.prog.(instrs := c.prog.instrs + SUM_BODY))
  {
    hide CompileStmt, CompileExpr, IndexOf;
    Indices();
    LoadsOne(Emit(c, LD_GLOB, 1));
    AddCode(c, "i", IntLit(1), 1, Plain(LD_INT, 1));
    var c1 := CompileStmt(c, ADD_NEXT.first);
    LoadsCounter(Emit(c1, LD_GLOB, 0));
    AddCode(c1, "s", COUNTER, 0, Plain(LD_GLOB, 1));
    var c2 := CompileStmt(c1, ADD_NEXT.rest.first);
    TwoStmts(c, ADD_NEXT.first, ADD_NEXT.rest.first);
    assert c2.prog.instrs + [ToLabel(JMP, 0)] == c.prog.instrs + SUM_BODY;
  }

  lemma {:induction false} LoadsOne(c: Code)
    ensures CompileExpr(c, IntLit(1), Push) == Emit(c, LD_INT, 1)
  {
  }

  lemma {:induction false} LoadsCounter(c: Code)
    requires c.names == NAMES && c.status.Fine?
    ensures CompileExpr(c, COUNTER, Push) == Emit(c, LD_GLOB, 1)
  {
    Indices();
  }

  lemma {:induction false} TwoStmts(c: Code, s: Stmt, t: Stmt)
    ensures CompileBlock(c, Then(s, Then(t, Done))) == CompileStmt(CompileStmt(c, s), t)
  {
    hide CompileStmt;
    var c2 := CompileStmt(CompileStmt(c, s), t);
    assert CompileBlock(c2, Done) == c2;
    assert CompileBlock(CompileStmt(c, s), Then(t, Done)) == c2;
  }

  /** What the module is compiled to. */
  lemma {:induction false} SumCode(n: int)
    ensures
      var c := CompileModule([], SumTo(n));
      c.prog == Program(SumInstrs(n), [4, 17], []) && c.names == NAMES && c.status.Fine?
  {
    hide CompileExpr;
    var c0 := Code(Program([], [], []), [], Fine);
    var c1 := At(SUM_START, []);
    StartCode();
    var c2 := Prepare(Place(Prepare(c1), 0));
    assert c2 == At(SUM_START, [4, UNPLACED]);
    TestCode(c2, n);
    var c3 := At(SUM_START + SumTest(n), [4, UNPLACED]);
    BodyCode(c3);
    var c4 := At(SUM_START + SumTest(n) + SUM_BODY, [4, UNPLACED]);
    var c5 := At(SUM_START + SumTest(n) + SUM_BODY, [4, 17]);
    assert Place(c4, 1) == c5;
    assert CompileStmt(c1, Summing(n)) == c5;
    assert CompileBlock(c5, Done) == c5;
    assert CompileBlock(c1, Then(Summing(n), Done)) == c5;
    assert CompileBlock(c0, SumTo(n).code) == c5;
    Indices();
    LastName(c5);
    assert SUM_START + SumTest(n) + SUM_BODY + [Plain(LD_GLOB, 0)] + [Plain(RET, 0)] + [Plain(RET_NIL, 0)] ==
      SumInstrs(n);
  }

  lemma {:induction false} LastName(c: Code)
    requires c.names == NAMES && c.status.Fine?
    ensures CompileExpr(c, Name("s"), Push) == Emit(c, LD_GLOB, 0)
  {
    Indices();
  }

  // ----- The bytes ----------------------------------------------------------

  function Sum(n: int): Program
  {
    Program(SumInstrs(n), [4, 17], [])
  }

  lemma {:induction false} SumGood(n: int)
    requires LiteralNumber(n)
    ensures GoodInstrs(Sum(n)) && |SumInstrs(n)| == 20
  {
    hide CompileModule, GoodInstrs;
    SumCode(n);
    assert PlainExpr(IntLit(0)) && PlainExpr(IntLit(1)) && PlainExpr(IntLit(n)) && PlainExpr(COUNTER);
    assert PlainBlock(ADD_NEXT.rest) && PlainBlock(ADD_NEXT);
    assert PlainBlock(Then(Summing(n), Done));
    ModuleSound([], SumTo(n));
  }

  /** The next instruction, when it is one byte. */
  lemma Byte1(p: Program, i: nat, op: nat)
    requires GoodInstrs(p) && i < |p.instrs| && p.instrs[i] == Plain(op, 0) && OperandOf(op).None? && op < 256
    ensures CodeBytes(p, i + 1) == CodeBytes(p, i) + [op] && Address(p, i + 1) == Address(p, i) + 1
  {
    SingleByte(p, i, op);
    OneInstr(p, i);
  }

  /** The next instruction, when it has an operand of one byte. */
  lemma Byte2(p: Program, i: nat, op: nat, k: nat)
    requires GoodInstrs(p) && i < |p.instrs| && p.instrs[i] == Plain(op, k) && OperandOf(op) in {I8, U8} && op < 256
    requires k < 128
    ensures CodeBytes(p, i + 1) == CodeBytes(p, i) + [op, k] && Address(p, i + 1) == Address(p, i) + 2
  {
    OneInstr(p, i);
  }

  lemma ByteLoad(p: Program, i: nat, n: int)
    requires GoodInstrs(p) && i < |p.instrs| && p.instrs[i] == LoadInstr(n) && LiteralNumber(n)
    ensures CodeBytes(p, i + 1) == CodeBytes(p, i) + LoadBytes(n) && Address(p, i + 1) == Address(p, i) + |LoadBytes(n)|
  {
    LoadsAs(p, i, n);
    OneInstr(p, i);
  }

  lemma {:induction false} StartBytes(n: int)
    requires LiteralNumber(n) && GoodInstrs(Sum(n)) && |SumInstrs(n)| == 20
    ensures CodeBytes(Sum(n), 4) == [12, 0, 52, 0, 12, 0, 52, 1] && Address(Sum(n), 4) == 8
  {
    hide GoodInstrs, CodeBytes, Address, SumTest, LoadInstr;
    var p := Sum(n);
    NoCode(p);
    FirstAddress(p);
    Byte2(p, 0, LD_INT, 0);
    Byte2(p, 1, ST_GLOB, 0);
    Byte2(p, 2, LD_INT, 0);
    Byte2(p, 3, ST_GLOB, 1);
  }

  lemma {:induction false} FirstAddress(p: Program)
    requires GoodInstrs(p)
    ensures Address(p, 0) == 0
  {
  }

  lemma {:induction false} TestBytes(n: int)
    requires LiteralNumber(n) && GoodInstrs(Sum(n)) && |SumInstrs(n)| == 20
    ensures CodeBytes(Sum(n), 7) == CodeBytes(Sum(n), 4) + [50, 1] + LoadBytes(n) + [34]
    ensures Address(Sum(n), 7) == Address(Sum(n), 4) + 3 + |LoadBytes(n)|
  {
    hide GoodInstrs, CodeBytes, Address, LoadInstr, LoadBytes;
    var p := Sum(n);
    Byte2(p, 4, LD_GLOB, 1);
    ByteLoad(p, 5, n);
    Byte1(p, 6, CMP_LT);
  }

  lemma {:induction false} AddBytes(n: int)
    requires LiteralNumber(n) && GoodInstrs(Sum(n)) && |SumInstrs(n)| == 20
    ensures CodeBytes(Sum(n), 12) == CodeBytes(Sum(n), 8) + [50, 1, 12, 1, 16, 52, 1]
    ensures Address(Sum(n), 12) == Address(Sum(n), 8) + 7
  {
    hide GoodInstrs, CodeBytes, Address, SumTest, LoadInstr;
    var p := Sum(n);
    Byte2(p, 8, LD_GLOB, 1);
    Byte2(p, 9, LD_INT, 1);
    Byte1(p, 10, ADD);
    Byte2(p, 11, ST_GLOB, 1);
  }

  lemma {:induction false} NextBytes(n: int)
    requires LiteralNumber(n) && GoodInstrs(Sum(n)) && |SumInstrs(n)| == 20
    ensures CodeBytes(Sum(n), 16) == CodeBytes(Sum(n), 12) + [50, 0, 50, 1, 16, 52, 0]
    ensures Address(Sum(n), 16) == Address(Sum(n), 12) + 7
  {
    hide GoodInstrs, CodeBytes, Address, SumTest, LoadInstr;
    var p := Sum(n);
    Byte2(p, 12, LD_GLOB, 0);
    Byte2(p, 13, LD_GLOB, 1);
    Byte1(p, 14, ADD);
    Byte2(p, 15, ST_GLOB, 0);
  }

  lemma {:induction false} BodyBytes(n: int)
    requires LiteralNumber(n) && GoodInstrs(Sum(n)) && |SumInstrs(n)| == 20
    ensures CodeBytes(Sum(n), 16) == CodeBytes(Sum(n), 8) + [50, 1, 12, 1, 16, 52, 1, 50, 0, 50, 1, 16, 52, 0]
    ensures Address(Sum(n), 16) == Address(Sum(n), 8) + 14
  {
    hide GoodInstrs, CodeBytes, Address, SumInstrs;
    AddBytes(n);
    NextBytes(n);
  }

  lemma {:induction false} EndBytes(n: int)
    requires LiteralNumber(n) && GoodInstrs(Sum(n)) && |SumInstrs(n)| == 20
    ensures CodeBytes(Sum(n), 20) == CodeBytes(Sum(n), 17) + [50, 0, 71, 72]
  {
    hide GoodInstrs, CodeBytes, Address, SumTest, LoadInstr;
    var p := Sum(n);
    Byte2(p, 17, LD_GLOB, 0);
    Byte1(p, 18, RET);
    Byte1(p, 19, RET_NIL);
  }

  /** The jump out of the loop goes 18 bytes on, the one to its beginning back to the eighth byte. */
  lemma {:induction false} JumpBytes(n: int)
    requires LiteralNumber(n) && GoodInstrs(Sum(n)) && |SumInstrs(n)| == 20
    ensures InstrBytes(Sum(n), 7) == [68, 18] && InstrBytes(Sum(n), 16) == [64, 237 - |LoadBytes(n)|]
    ensures Encodable(Sum(n))
  {
    hide GoodInstrs, CodeBytes, Address, LoadBytes;
    var p := Sum(n);
    assert p.instrs[7] == ToLabel(JMP_UNLS, 1) && p.instrs[16] == ToLabel(JMP, 0);
    Addresses(n);
    WhatFits(p, 7);
    WhatFits(p, 16);
    assert 2 <= |LoadBytes(n)| <= 3 by { LoadLength(n); }
    OnlyTwoJumps(n);
  }

  lemma LoadLength(n: int)
    ensures 2 <= |LoadBytes(n)| <= 3
  {
  }

  lemma OnlyTwoJumps(n: int)
    ensures forall i {:trigger JumpAt(Sum(n), i)} :: JumpAt(Sum(n), i) ==> i == 7 || i == 16
  {
    hide LoadInstr;
    assert LoadInstr(n).Plain? by { LoadIsPlain(n); }
  }

  lemma LoadIsPlain(n: int)
    ensures LoadInstr(n).Plain?
  {
  }

  lemma {:induction false} Addresses(n: int)
    requires LiteralNumber(n) && GoodInstrs(Sum(n)) && |SumInstrs(n)| == 20
    ensures
      var p, w := Sum(n), |LoadBytes(n)|;
      Address(p, 4) == 8 && Address(p, 7) == 11 + w && Address(p, 16) == 27 + w && Address(p, 17) == 29 + w
  {
    hide GoodInstrs, CodeBytes, LoadBytes, SumInstrs;
    var p := Sum(n);
    StartBytes(n);
    TestBytes(n);
    ForwardWidth(n);
    BodyBytes(n);
    BackwardWidth(n);
  }

  lemma {:induction false} ForwardWidth(n: int)
    requires GoodInstrs(Sum(n)) && |SumInstrs(n)| == 20
    ensures Address(Sum(n), 8) == Address(Sum(n), 7) + 2
  {
    assert Sum(n).instrs[7] == ToLabel(JMP_UNLS, 1);
  }

  lemma {:induction false} BackwardWidth(n: int)
    requires GoodInstrs(Sum(n)) && |SumInstrs(n)| == 20
    ensures Address(Sum(n), 17) == Address(Sum(n), 16) + 2
  {
    assert Sum(n).instrs[16] == ToLabel(JMP, 0);
    AddressGap(Sum(n), 4, 16);
  }

  /** The code of the module, byte by byte. */
  lemma {:induction false} SumBytes(n: int)
    requires LiteralNumber(n)
    ensures Encodable(CompileModule([], SumTo(n)).prog)
    ensures Bytes([], SumTo(n)) ==
      [12, 0, 52, 0, 12, 0, 52, 1] + ([50, 1] + LoadBytes(n) + [34, 68, 18]) +
      [50, 1, 12, 1, 16, 52, 1, 50, 0, 50, 1, 16, 52, 0, 64, 237 - |LoadBytes(n)|] + [50, 0, 71, 72]
  {
    hide CompileModule, GoodInstrs, Encodable, CodeBytes, InstrBytes, LoadBytes, SumInstrs, Address;
    SumCode(n);
    SumGood(n);
    var p := Sum(n);
    JumpBytes(n);
    StartBytes(n);
    TestBytes(n);
    OneInstr(p, 7);
    BodyBytes(n);
    OneInstr(p, 16);
    EndBytes(n);
  }

  // ----- The run ------------------------------------------------------------

  lemma SumNames(names: seq<string>, globals: seq<Value>, globals': seq<Value>, n: int, total: int)
    requires NAMES <= names && Distinct(names) && |globals| == |names| == |globals'|
    requires StoreOf(names, globals') == StoreOf(names, globals)["i" := Int(n)]["s" := Int(total)]
    ensures globals' == globals[0 := Int(total)][1 := Int(n)]
  {
    assert names[0] == "s" && names[1] == "i" && "s"[0] != "i"[0];
    forall k | 0 <= k < |names| ensures globals'[k] == globals[0 := Int(total)][1 := Int(n)][k] {
      IndexUnique(names, names[k], k);
      assert StoreOf(names, globals')[names[k]] == globals'[k] && StoreOf(names, globals)[names[k]] == globals[k];
      assert k >= 2 ==> names[k] != names[0] && names[k] != names[1];
    }
  }

  /** Running these bytes: the machine returns the sum of the first `n` numbers and leaves it in the
      first global, `n` in the second. */
  lemma {:induction false} SumRun(rt: Runtime, n: nat, names: seq<string>, globals: seq<Value>, stack: seq<Value>)
    returns (steps: nat, total: nat)
    requires n <= 32767 && NAMES <= names && Distinct(names) && |globals| == |names|
    ensures 2 * total == n * (n + 1) && Encodable(CompileModule([], SumTo(n)).prog)
    ensures After(rt, [], SumTo(n), names, globals, stack, steps) ==
      Finished(Int(total), globals[0 := Int(total)][1 := Int(n)])
  {
    hide CompileModule, Encodable, Bytes, ByteSteps, StoreOf, ExecModule, Distinct, After;
    SumBytes(n);
    SumCode(n);
    total := SumIs(rt, StoreOf(names, globals), n, n);
    var globals';
    steps, globals' := ModuleCorrect(rt, [], SumTo(n), names, globals, stack, n);
    SumNames(names, globals, globals', n, total);
  }
}
