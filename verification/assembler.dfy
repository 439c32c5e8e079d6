/** The assembler as an object: growing arrays, and the two passes that lay code out. */
module AssemblerObject {
  import opened Bytecode
  import opened Emission
  import opened Assembling

  datatype Output = Output(code: seq<Byte>, symbols: seq<string>) | Aborted

  /** What the first pass makes of an instruction: the offset of a backward jump is filled in, the
      opcode of a long forward jump is replaced, the rest is left alone. */
  ghost function Resolved(p: Program, i: nat): Instr
    requires GoodInstrs(p) && i < |p.instrs|
  {
    if p.instrs[i].Plain? then p.instrs[i]
    else if TargetOf(p, i) <= i then Plain(p.instrs[i].op, FinalOperand(p, i))
    else ToLabel(FinalOp(p, i), p.instrs[i].target)
  }

  /** A backward jump over more than 32768 bytes: the assembler gives up. */
  ghost predicate TooFar(p: Program, i: nat)
    requires GoodInstrs(p) && JumpAt(p, i)
  {
    FinalOperand(p, i) < -32768
  }

  ghost predicate NoneTooFar(p: Program, n: nat)
    requires GoodInstrs(p)
  {
    forall i {:trigger JumpAt(p, i)} :: JumpAt(p, i) && i < n ==> !TooFar(p, i)
  }

  lemma PassOne(p: Program, i: nat)
    requires GoodInstrs(p) && i < |p.instrs|
    ensures Address(p, i + 1) == Address(p, i) + WidthAt(p, i)
    ensures p.instrs[i].Plain? ==> WidthAt(p, i) == 1 + WidthOf(OperandOf(p.instrs[i].op))
    ensures p.instrs[i].ToLabel? ==>
      (IsJump(p.instrs[i].op) && Placed(p, p.instrs[i].target) && TargetOf(p, i) == p.labels[p.instrs[i].target])
    ensures JumpAt(p, i) && TargetOf(p, i) <= i ==> WidthAt(p, i) == if FinalOperand(p, i) >= -128 then 2 else 3
    ensures JumpAt(p, i) && TargetOf(p, i) > i ==>
      WidthAt(p, i) == (if TargetOf(p, i) - i > FAR then 3 else 2) && !TooFar(p, i)
  {
    assert GoodInstr(p, p.instrs[i]);
    if JumpAt(p, i) && TargetOf(p, i) > i { AddressGap(p, i, TargetOf(p, i)); }
  }

  lemma ResolvedBytes(p: Program, i: nat)
    requires GoodInstrs(p) && i < |p.instrs|
    ensures
      var op := FinalOp(p, i);
      op < 256 && InstrBytes(p, i) == [op as Byte] + OperandBytes(OperandOf(op), FinalOperand(p, i))
    ensures Resolved(p, i).op == FinalOp(p, i)
    ensures Resolved(p, i).Plain? ==> Resolved(p, i).operand == FinalOperand(p, i)
    ensures Resolved(p, i).ToLabel? ==>
      JumpAt(p, i) && Resolved(p, i).target == p.instrs[i].target && TargetOf(p, i) == p.labels[p.instrs[i].target]
  {
    FinalOpByte(p, i);
  }

  class Assembler {
    var instrs: seq<Instr>
    var labels: seq<int>
    var symbols: seq<string>

    /** The program so far. */
    function Contents(): Program
      reads this
    {
      Program(instrs, labels, symbols)
    }

    constructor ()
      ensures Contents() == Program([], [], [])
    {
      instrs, labels, symbols := [], [], [];
    }

    method Clear()
      modifies this
      ensures Contents() == Program([], [], [])
    {
      instrs, labels, symbols := [], [], [];
    }

    method Append(op: nat, operand: int)
      modifies this
      ensures Contents() == old(Contents()).(instrs := old(instrs) + [Plain(op, operand)])
    {
      instrs := instrs + [Plain(op, operand)];
    }

    /** The number of the label is kept in sixteen bits; it is asserted that it fits. */
    method AppendJump(op: nat, target: nat) returns (done: bool)
      modifies this
      ensures done <==> target <= MAX_LABEL
      ensures Contents() ==
        if done then old(Contents()).(instrs := old(instrs) + [ToLabel(op, target)]) else old(Contents())
    {
      done := target <= MAX_LABEL;
      if done { instrs := instrs + [ToLabel(op, target)]; }
    }

    method PrepareLabel() returns (id: nat)
      modifies this
      ensures id == |old(labels)| && Contents() == old(Contents()).(labels := old(labels) + [UNPLACED])
    {
      id := |labels|;
      labels := labels + [UNPLACED];
    }

    /** A negative label stands for a new one. */
    method PlaceLabel(l: int) returns (id: nat)
      requires l < |labels| && (l >= 0 ==> labels[l] == UNPLACED)
      modifies this
      ensures id == (if l < 0 then |old(labels)| else l)
      ensures Contents() ==
        old(Contents()).(labels := (if l < 0 then old(labels) + [UNPLACED] else old(labels))[id := |instrs|])
    {
      if l < 0 { id := PrepareLabel(); } else { id := l; }
      labels := labels[id := |instrs|];
    }

    /** The index of a symbol, which is added if it is new. */
    method Symbol(x: string) returns (index: nat)
      modifies this
      ensures Contents() == old(Contents()).(symbols := AddName(old(symbols), x)) && index == IndexOf(symbols, x)
    {
      var i := 0;
      while i < |symbols|
        invariant 0 <= i <= |symbols| && Contents() == old(Contents())
        invariant forall k :: 0 <= k < i ==> symbols[k] != x
      {
        if symbols[i] == x { return i; }
        i := i + 1;
      }
      index := |symbols|;
      symbols := symbols + [x];
    }

    /** The first pass: lay out addresses, choose opcodes. */
    method Layout() returns (addresses: array<nat>, done: bool)
      requires GoodInstrs(Contents())
      modifies this
      ensures fresh(addresses) && addresses.Length == |old(instrs)| + 1 && labels == old(labels) &&
        symbols == old(symbols)
      ensures done <==> NoneTooFar(old(Contents()), |old(instrs)|)
      ensures done ==> |instrs| == |old(instrs)|
      ensures done ==> forall k {:trigger instrs[k]} :: 0 <= k < |instrs| ==> instrs[k] == Resolved(old(Contents()), k)
      ensures done ==>
        forall k {:trigger addresses[k]} :: 0 <= k <= |instrs| ==> addresses[k] == Address(old(Contents()), k)
    {
      hide GoodInstr, OperandOf, WidthAt, JumpOf;
      ghost var p := Contents();
      var n := |instrs|;
      addresses := new nat[n + 1];
      var length := 0;
      var i := 0;
      while i < n
        invariant 0 <= i <= n == |instrs| == |p.instrs| && labels == p.labels && symbols == p.symbols &&
          length == Address(p, i)
        invariant NoneTooFar(p, i)
        invariant forall k {:trigger instrs[k]} :: i <= k < n ==> instrs[k] == p.instrs[k]
        invariant forall k {:trigger instrs[k]} :: 0 <= k < i ==> instrs[k] == Resolved(p, k)
        invariant forall k {:trigger addresses[k]} :: 0 <= k < i ==> addresses[k] == Address(p, k)
      {
        var instr := instrs[i];
        addresses[i] := length;
        assert instr == p.instrs[i];
        PassOne(p, i);
        if instr.ToLabel? {
          var t := labels[instr.target];
          if t <= i {
            var offset := addresses[t] - length;
            if offset >= -128 {
              length := length + 2;
            } else if offset >= -32768 {
              length := length + 3;
            } else {
              assert JumpAt(p, i) && TooFar(p, i);
              return addresses, false;
            }
            instrs := instrs[i := Plain(instr.op, offset)];
          } else if t - i > FAR {
            instrs := instrs[i := ToLabel(instr.op + 1, instr.target)];
            length := length + 3;
          } else {
            length := length + 2;
          }
        } else {
          length := length + 1 + WidthOf(OperandOf(instr.op));
        }
        i := i + 1;
      }
      addresses[n] := length;
      done := true;
    }

    /** One opcode and its operand, of which as many bytes are written as the opcode says. */
    static method WriteInstr(code: array<Byte>, at: nat, op: Byte, operand: int) returns (next: nat)
      requires at + 1 + WidthOf(OperandOf(op)) <= code.Length
      modifies code
      ensures next == at + 1 + WidthOf(OperandOf(op))
      ensures code[..next] == old(code[..at]) + ([op] + OperandBytes(OperandOf(op), operand))
    {
      hide OperandOf;
      code[at] := op;
      next := at + 1;
      match OperandOf(op) {
        case None =>
        case I8 | U8 =>
          code[next] := Low(operand);
          next := next + 1;
        case I16 | U16 =>
          code[next], code[next + 1] := Low(operand), High(operand);
          next := next + 2;
      }
    }

    /** The second pass: write opcodes and operands. */
    method Write(addresses: array<nat>, ghost p: Program) returns (code: array<Byte>, length: nat)
      requires GoodInstrs(p) && |instrs| == |p.instrs| && labels == p.labels && addresses.Length == |instrs| + 1
      requires forall k {:trigger instrs[k]} :: 0 <= k < |instrs| ==> instrs[k] == Resolved(p, k)
      requires forall k {:trigger addresses[k]} :: 0 <= k <= |instrs| ==> addresses[k] == Address(p, k)
      ensures fresh(code) && length <= code.Length && code[..length] == Assembled(p)
    {
      hide Resolved, InstrBytes, FinalOp, FinalOperand, TargetOf, GoodInstrs, OperandOf, WidthAt, WideJump, Address;
      var n := |instrs|;
      code := new Byte[addresses[n]];
      length := 0;
      var i := 0;
      while i < n
        invariant 0 <= i <= n
        invariant length <= code.Length && code[..length] == CodeBytes(p, i)
      {
        var instr := instrs[i];
        ResolvedBytes(p, i);
        OneInstr(p, i);
        Behind(p, i + 1, n);
        var operand: int := 0;
        if instr.ToLabel? {
          OffsetWritten(p, i);
          var there: int, here: int := addresses[labels[instr.target]], addresses[i];
          operand := there - here;
        } else {
          operand := instr.operand;
        }
        assert operand == FinalOperand(p, i);
        assert |CodeBytes(p, i + 1)| == length + 1 + |OperandBytes(OperandOf(instr.op), operand)|;
        length := WriteInstr(code, length, instr.op as Byte, operand);
        i := i + 1;
      }
    }

    /** Both passes. The instructions are of no use afterwards. */
    method Finish() returns (out: Output)
      requires GoodInstrs(Contents())
      modifies this
      ensures out == if NoneTooFar(old(Contents()), |old(instrs)|) then Output.Output(Assembled(old(Contents())),
        old(symbols)) else Aborted
    {
      ghost var p := Contents();
      var addresses, done := Layout();
      if !done { return Aborted; }
      var code, length := Write(addresses, p);
      out := Output.Output(code[..length], symbols);
    }
  }

  lemma {:induction false} OffsetWritten(p: Program, i: nat)
    requires GoodInstrs(p) && i < |p.instrs| && Resolved(p, i).ToLabel?
    ensures JumpAt(p, i) && p.instrs[i].target < |p.labels| &&
      TargetOf(p, i) == p.labels[p.instrs[i].target] <= |p.instrs|
    ensures FinalOperand(p, i) == Address(p, TargetOf(p, i)) - Address(p, i)
  {
  }

  /** The second pass stays within what the first one measured. */
  lemma {:induction false} Behind(p: Program, i: nat, n: nat)
    requires GoodInstrs(p) && i <= n <= |p.instrs|
    ensures |CodeBytes(p, i)| <= Address(p, i) <= Address(p, n)
  {
    NotAhead(p, i);
    AddressGap(p, i, n);
  }

  lemma {:induction false} NotAhead(p: Program, i: nat)
    requires GoodInstrs(p) && i <= |p.instrs|
    ensures |CodeBytes(p, i)| <= Address(p, i)
    decreases i
  {
    hide InstrBytes, Fits, TargetOf, WidthAt;
    if i > 0 {
      NotAhead(p, i - 1);
      InstrBytesLength(p, i - 1);
    }
  }
}
