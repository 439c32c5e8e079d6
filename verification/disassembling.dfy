/** From bytes back to instructions. */
module Disassembling {
  import opened Bytecode
  import opened Emission
  import opened Assembling

  /** One instruction as the disassembler reports it. */
  datatype Line = Line(offset: nat, op: Byte, operand: Operand)
  datatype Operand = NoOperand | Number(n: int)

  function NextOf(code: seq<Byte>, at: nat): nat
    requires at < |code|
  {
    at + 1 + WidthOf(OperandOf(code[at]))
  }

  /** Instructions fill the code from `at` on: none is cut off at the end. */
  predicate Decodable(code: seq<Byte>, at: nat)
    decreases |code| - at
  {
    at == |code| || (at < |code| && NextOf(code, at) <= |code| && Decodable(code, NextOf(code, at)))
  }

  function LineAt(code: seq<Byte>, at: nat): Line
    requires at < |code| && NextOf(code, at) <= |code|
  {
    var t := OperandOf(code[at]);
    Line(at, code[at], if t == None then NoOperand else Number(ReadOperand(t, code, at + 1)))
  }

  function Decode(code: seq<Byte>, at: nat): seq<Line>
    requires Decodable(code, at)
    decreases |code| - at
  {
    if at == |code| then [] else [LineAt(code, at)] + Decode(code, NextOf(code, at))
  }

  /** The walk over the code. */
  method Disassemble(code: seq<Byte>) returns (lines: seq<Line>)
    requires Decodable(code, 0)
    ensures lines == Decode(code, 0)
  {
    hide OperandOf, ReadOperand, WidthOf;
    var at := 0;
    lines := [];
    while at < |code|
      invariant at <= |code| && Decodable(code, at) && lines + Decode(code, at) == Decode(code, 0)
    {
      var t := OperandOf(code[at]);
      var operand := if t == None then NoOperand else Number(ReadOperand(t, code, at + 1));
      var line := Line(at, code[at], operand);
      assert lines + ([line] + Decode(code, NextOf(code, at))) == (lines + [line]) + Decode(code, NextOf(code, at));
      lines := lines + [line];
      at := at + 1 + WidthOf(t);
    }
  }

  /** The instructions of a program with their addresses, and jump offsets for labels. */
  ghost function Listing(p: Program, i: nat): seq<Line>
    requires Encodable(p) && i <= |p.instrs|
    decreases |p.instrs| - i
  {
    if i == |p.instrs| then []
    else
      FitsInstr(p, i); FinalOpByte(p, i);
      var op := FinalOp(p, i) as Byte;
      [Line(Address(p, i), op, if OperandOf(op) == None then NoOperand else Number(FinalOperand(p, i)))] +
        Listing(p, i + 1)
  }

  /** Assembling, then disassembling, gives back the instructions at the addresses of the layout,
      and each jump's offset added to its own address is the address of the label's instruction. */
  lemma {:induction false} DisassembleAssembled(p: Program, i: nat)
    requires Encodable(p) && i <= |p.instrs|
    ensures Decodable(Assembled(p), Address(p, i)) && Decode(Assembled(p), Address(p, i)) == Listing(p, i)
    decreases |p.instrs| - i
  {
    hide Assembled, ReadOperand, OperandOf, FinalOp, FinalOperand, Encodable, Address;
    if i == |p.instrs| {
      AssembledEnd(p);
    } else {
      ReadBack(p, i);
      DisassembleAssembled(p, i + 1);
    }
  }

  lemma {:induction false} AssembledEnd(p: Program)
    requires Encodable(p)
    ensures |Assembled(p)| == Address(p, |p.instrs|)
  {
    FitsAll(p, |p.instrs|);
    CodeLength(p, |p.instrs|);
  }

  /** The line shows instruction number `j` as it was before it was assembled. */
  ghost predicate Shows(p: Program, j: nat, line: Line)
    requires GoodInstrs(p) && j < |p.instrs|
  {
    && line.offset == Address(p, j)
    && (p.instrs[j].Plain? ==>
          line.op == p.instrs[j].op && line.operand == if OperandOf(line.op) == None then NoOperand
            else Number(p.instrs[j].operand))
    && (p.instrs[j].ToLabel? ==>
          JumpOf(line.op) == IsA(p.instrs[j].op) && line.operand.Number? &&
            line.offset + line.operand.n == Address(p, TargetOf(p, j)))
  }

  lemma {:induction false} ListingAt(p: Program, i: nat, j: nat)
    requires Encodable(p) && i <= j < |p.instrs|
    ensures |Listing(p, i)| == |p.instrs| - i && Shows(p, j, Listing(p, i)[j - i])
    decreases j - i, |p.instrs| - i
  {
    ListingLength(p, i);
    if i == j {
      FinalOpByte(p, i);
      assert GoodInstr(p, p.instrs[i]);
    } else {
      hide Encodable;
      ListingAt(p, i + 1, j);
    }
  }

  lemma {:induction false} ListingLength(p: Program, i: nat)
    requires Encodable(p) && i <= |p.instrs|
    ensures |Listing(p, i)| == |p.instrs| - i
    decreases |p.instrs| - i
  {
    hide Encodable;
    if i < |p.instrs| { ListingLength(p, i + 1); }
  }

  /** The round trip for a whole program. */
  lemma RoundTrip(p: Program)
    requires Encodable(p)
    ensures Decodable(Assembled(p), 0) && |Decode(Assembled(p), 0)| == |p.instrs|
    ensures forall j {:trigger p.instrs[j]} :: 0 <= j < |p.instrs| ==> Shows(p, j, Decode(Assembled(p), 0)[j])
  {
    hide Shows;
    DisassembleAssembled(p, 0);
    ListingLength(p, 0);
    forall j | 0 <= j < |p.instrs| ensures Shows(p, j, Listing(p, 0)[j]) { ListingAt(p, 0, j); }
  }
}
