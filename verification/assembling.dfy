/** From instructions with labels to bytes. */
module Assembling {
  import opened Bytecode
  import opened Emission

  const FAR := 42                  // 127 / 3: this many instructions always fit a one-byte offset

  // ----- Layout -------------------------------------------------------------

  predicate Placed(p: Program, l: nat)
  {
    l < |p.labels| && 0 <= p.labels[l] <= |p.instrs|
  }

  /** The operand fits; the label has been placed, and its number fits the sixteen bits it is kept in. */
  predicate GoodInstr(p: Program, i: Instr)
  {
    match i
    case Plain(op, n) => op < 256 && JumpOf(op).NoJump? && InRange(OperandOf(op), n)
    case ToLabel(op, l) => IsJump(op) && l <= MAX_LABEL && Placed(p, l)
  }

  ghost predicate GoodInstrs(p: Program)
  {
    forall i {:trigger p.instrs[i]} :: 0 <= i < |p.instrs| ==> GoodInstr(p, p.instrs[i])
  }

  predicate JumpAt(p: Program, i: int)
  {
    0 <= i < |p.instrs| && p.instrs[i].ToLabel?
  }

  /** The index of the instruction that the jump number `i` leads to. */
  ghost function TargetOf(p: Program, i: nat): nat
    requires GoodInstrs(p) && JumpAt(p, i)
  {
    assert GoodInstr(p, p.instrs[i]);
    p.labels[p.instrs[i].target]
  }

  /** A forward jump over many instructions gets the opcode with a two-byte offset; a
      backward jump never does. */
  ghost predicate WideJump(p: Program, i: nat)
    requires GoodInstrs(p) && JumpAt(p, i)
  {
    TargetOf(p, i) > i + FAR
  }

  /** Where instruction number `i` begins, according to the first pass. */
  ghost function Address(p: Program, i: nat): nat
    requires GoodInstrs(p) && i <= |p.instrs|
    decreases i, 0
  {
    if i == 0 then 0 else Address(p, i - 1) + WidthAt(p, i - 1)
  }

  /** The bytes that the first pass sets aside: three for a backward jump over more than 128 bytes. */
  ghost function WidthAt(p: Program, i: nat): (w: nat)
    requires GoodInstrs(p) && i < |p.instrs|
    ensures 1 <= w <= 3
    decreases i, 1
  {
    assert GoodInstr(p, p.instrs[i]);
    if p.instrs[i].Plain? then 1 + WidthOf(OperandOf(p.instrs[i].op))
    else if TargetOf(p, i) <= i then
      if Address(p, i) - Address(p, TargetOf(p, i)) <= 128 then 2 else 3
    else if WideJump(p, i) then 3 else 2
  }

  /** Addresses go up by one to three bytes per instruction. */
  lemma {:induction false} AddressGap(p: Program, i: nat, j: nat)
    requires GoodInstrs(p) && i <= j <= |p.instrs|
    ensures Address(p, i) + (j - i) <= Address(p, j) <= Address(p, i) + 3 * (j - i)
    decreases j
  {
    if i < j { AddressGap(p, i, j - 1); }
  }

  // ----- Encoding -----------------------------------------------------------

  /** The opcode that is written for instruction number `i`. */
  ghost function FinalOp(p: Program, i: nat): nat
    requires GoodInstrs(p) && i < |p.instrs|
  {
    if p.instrs[i].ToLabel? && WideJump(p, i) then p.instrs[i].op + 1 else p.instrs[i].op
  }

  /** The operand: for a jump, the distance from its own opcode to its target. */
  ghost function FinalOperand(p: Program, i: nat): int
    requires GoodInstrs(p) && i < |p.instrs|
  {
    if p.instrs[i].Plain? then p.instrs[i].operand else Address(p, TargetOf(p, i)) - Address(p, i)
  }

  lemma FinalOpByte(p: Program, i: nat)
    requires GoodInstrs(p) && i < |p.instrs|
    ensures FinalOp(p, i) < 256
    ensures p.instrs[i].ToLabel? ==> OperandOf(FinalOp(p, i)) == (if WideJump(p, i) then I16 else I8)
  {
    assert GoodInstr(p, p.instrs[i]);
  }

  /** What the second pass writes; an operand that does not fit is cut off. */
  ghost function InstrBytes(p: Program, i: nat): seq<Byte>
    requires GoodInstrs(p) && i < |p.instrs|
  {
    FinalOpByte(p, i);
    [FinalOp(p, i) as Byte] + OperandBytes(OperandOf(FinalOp(p, i)), FinalOperand(p, i))
  }

  /** The code of the first `n` instructions. */
  ghost function CodeBytes(p: Program, n: nat): seq<Byte>
    requires GoodInstrs(p) && n <= |p.instrs|
  {
    if n == 0 then [] else CodeBytes(p, n - 1) + InstrBytes(p, n - 1)
  }

  ghost function Assembled(p: Program): seq<Byte>
    requires GoodInstrs(p)
  {
    CodeBytes(p, |p.instrs|)
  }

  /** The offset of a jump fits the operand of the opcode that was chosen for it. */
  ghost predicate Fits(p: Program, i: nat)
    requires GoodInstrs(p) && JumpAt(p, i)
  {
    InRange(OperandOf(FinalOp(p, i)), FinalOperand(p, i))
  }

  ghost predicate Encodable(p: Program)
  {
    GoodInstrs(p) && forall i {:trigger JumpAt(p, i)} :: JumpAt(p, i) ==> Fits(p, i)
  }

  /** What `Fits` comes to: no backward jump over more than 128 bytes, and no forward jump over
      more than 32767 bytes. A forward jump over at most 42 instructions spans at most 126 bytes;
      over more of them it gets the next opcode, and an offset of two bytes. */
  lemma {:induction false} WhatFits(p: Program, i: nat)
    requires GoodInstrs(p) && JumpAt(p, i)
    ensures Fits(p, i) <==>
      if TargetOf(p, i) <= i then Address(p, i) - Address(p, TargetOf(p, i)) <= 128
      else Address(p, TargetOf(p, i)) - Address(p, i) <= 32767
    ensures i < TargetOf(p, i) <= i + 42 ==> 1 <= FinalOperand(p, i) <= 126 && Fits(p, i)
    ensures FinalOp(p, i) == p.instrs[i].op + if TargetOf(p, i) > i + 42 then 1 else 0
  {
    var t := TargetOf(p, i);
    FinalOpByte(p, i);
    if t > i { AddressGap(p, i, t); } else { AddressGap(p, t, i); }
  }

  /** The bytes written for an instruction, and those set aside: one less for a backward jump
      that does not fit. */
  lemma {:induction false} InstrBytesLength(p: Program, i: nat)
    requires GoodInstrs(p) && i < |p.instrs|
    ensures |InstrBytes(p, i)| == WidthAt(p, i) - (if JumpAt(p, i) && TargetOf(p, i) <= i && !Fits(p, i) then 1 else 0)
    ensures |InstrBytes(p, i)| >= (if p.instrs[i].ToLabel? then 2 else 1)
  {
    FinalOpByte(p, i);
    if p.instrs[i].ToLabel? {
      WhatFits(p, i);
    }
  }

  /** Whether all jumps among the first `n` instructions fit. */
  ghost predicate FitsUpTo(p: Program, n: nat)
    requires GoodInstrs(p)
  {
    forall i {:trigger JumpAt(p, i)} :: JumpAt(p, i) && i < n ==> Fits(p, i)
  }

  lemma {:induction false} CodeLength(p: Program, n: nat)
    requires GoodInstrs(p) && n <= |p.instrs| && FitsUpTo(p, n)
    ensures |CodeBytes(p, n)| == Address(p, n)
    decreases n
  {
    hide InstrBytes, Fits, TargetOf;
    if n > 0 {
      CodeLength(p, n - 1);
      InstrBytesLength(p, n - 1);
    }
  }

  /** The bytes of instruction number `i` are in the code, behind those of the ones before. */
  lemma {:induction false} CodeSplit(p: Program, i: nat, n: nat) returns (after: seq<Byte>)
    requires GoodInstrs(p) && i < n <= |p.instrs|
    ensures CodeBytes(p, n) == CodeBytes(p, i) + InstrBytes(p, i) + after
    decreases n
  {
    hide InstrBytes, GoodInstrs;
    if i == n - 1 {
      after := [];
    } else {
      after := CodeSplit(p, i, n - 1);
      after := after + InstrBytes(p, n - 1);
    }
  }

  // ----- Reading the code ---------------------------------------------------

  lemma ReadInside(before: seq<Byte>, op: Byte, operand: int, after: seq<Byte>)
    ensures
      var code := before + ([op] + OperandBytes(OperandOf(op), operand)) + after;
      var ip := |before|;
      && ip + 1 + WidthOf(OperandOf(op)) <= |code| && code[ip] == op
      && (InRange(OperandOf(op), operand) ==> ReadOperand(OperandOf(op), code, ip + 1) == operand)
      && ReadOperand(OperandOf(op), code, ip + 1) == ReadOperand(OperandOf(op), OperandBytes(OperandOf(op), operand), 0)
  {
    hide OperandOf;
    var t := OperandOf(op);
    var bytes := OperandBytes(t, operand);
    var code := before + ([op] + bytes) + after;
    assert code == (before + [op]) + bytes + after;
    forall k | 0 <= k < |bytes| ensures code[|before| + 1 + k] == bytes[k] {}
    if InRange(t, operand) { OperandRoundTrip(t, operand, before + [op], after); }
  }

  /** What is read where the bytes of instruction number `i` begin. */
  lemma ReadAt(p: Program, i: nat)
    requires GoodInstrs(p) && i < |p.instrs|
    ensures
      var code, ip, t := Assembled(p), |CodeBytes(p, i)|, OperandOf(FinalOp(p, i));
      && ip + 1 + WidthOf(t) == |CodeBytes(p, i + 1)| <= |code| && ip < |code| && code[ip] == FinalOp(p, i)
      && (InRange(t, FinalOperand(p, i)) ==> ReadOperand(t, code, ip + 1) == FinalOperand(p, i))
      && ReadOperand(t, code, ip + 1) == ReadOperand(t, OperandBytes(t, FinalOperand(p, i)), 0)
  {
    hide OperandOf, FinalOp, FinalOperand, ReadOperand, CodeBytes, GoodInstrs;
    FinalOpByte(p, i);
    var after := CodeSplit(p, i, |p.instrs|);
    var after1 := CodeSplit(p, i, i + 1);
    ReadInside(CodeBytes(p, i), FinalOp(p, i) as Byte, FinalOperand(p, i), after);
    assert |CodeBytes(p, i + 1)| == |CodeBytes(p, i)| + |InstrBytes(p, i)| by { OneInstr(p, i); }
  }

  lemma OneInstr(p: Program, i: nat)
    requires GoodInstrs(p) && i < |p.instrs|
    ensures CodeBytes(p, i + 1) == CodeBytes(p, i) + InstrBytes(p, i)
  {
  }

  lemma FitsAll(p: Program, n: nat)
    requires Encodable(p)
    ensures FitsUpTo(p, n)
  {
  }

  lemma {:induction false} FitsInstr(p: Program, i: nat)
    requires Encodable(p) && i < |p.instrs|
    ensures InRange(OperandOf(FinalOp(p, i)), FinalOperand(p, i))
    ensures 1 + WidthOf(OperandOf(FinalOp(p, i))) == WidthAt(p, i)
  {
    assert GoodInstr(p, p.instrs[i]);
    if JumpAt(p, i) {
      assert Fits(p, i);
      FinalOpByte(p, i);
      WhatFits(p, i);
    }
  }

  /** Assembling then reading: at the address of instruction number `i` the code has its
      opcode and operand, and the next instruction follows. */
  lemma ReadBack(p: Program, i: nat)
    requires Encodable(p) && i < |p.instrs|
    ensures
      var code := Assembled(p);
      var ip := Address(p, i);
      && ip + WidthAt(p, i) == Address(p, i + 1) <= |code| && ip < |code|
      && code[ip] == FinalOp(p, i) && 1 + WidthOf(OperandOf(code[ip])) == WidthAt(p, i)
      && ReadOperand(OperandOf(code[ip]), code, ip + 1) == FinalOperand(p, i)
  {
    hide OperandOf, FinalOp, FinalOperand, OperandBytes, ReadOperand, CodeBytes, Assembled, WidthAt;
    FitsInstr(p, i);
    FitsAll(p, i);
    CodeLength(p, i);
    ReadAt(p, i);
  }

  // ----- When jumps land where they should ----------------------------------

  /** The offset that is read for the jump number `i` leads from where the jump is to where its
      target is. */
  ghost predicate Lands(p: Program, i: nat)
    requires GoodInstrs(p) && JumpAt(p, i)
  {
    var ip := |CodeBytes(p, i)|;
    var t := OperandOf(FinalOp(p, i));
    ip + 1 + WidthOf(t) <= |Assembled(p)| && ip + ReadOperand(t, Assembled(p), ip + 1) == |CodeBytes(p, TargetOf(p, i))|
  }

  /** How much the second pass can fall behind the first. */
  lemma {:induction false} FallsBehind(p: Program, i: nat, j: nat)
    requires GoodInstrs(p) && i <= j <= |p.instrs|
    ensures |CodeBytes(p, i)| + (j - i) <= |CodeBytes(p, j)|
    ensures 2 * (Address(p, j) - Address(p, i)) <= 3 * (|CodeBytes(p, j)| - |CodeBytes(p, i)|)
    decreases j
  {
    hide InstrBytes, Fits, TargetOf;
    if i < j {
      FallsBehind(p, i, j - 1);
      InstrBytesLength(p, j - 1);
    }
  }

  ghost predicate AllLand(p: Program)
    requires GoodInstrs(p)
  {
    forall i {:trigger JumpAt(p, i)} :: JumpAt(p, i) ==> Lands(p, i)
  }

  lemma LandIfAllFit(p: Program)
    requires Encodable(p)
    ensures AllLand(p)
  {
    hide OperandBytes, ReadOperand, CodeBytes, Assembled, OperandOf;
    forall i | JumpAt(p, i) ensures Lands(p, i) {
      ReadAt(p, i);
      FitsInstr(p, i);
      FitsAll(p, i);
      FitsAll(p, TargetOf(p, i));
      CodeLength(p, i);
      CodeLength(p, TargetOf(p, i));
    }
  }

  /** The first jump that does not fit does not land. */
  lemma FirstMisses(p: Program)
    requires GoodInstrs(p) && !Encodable(p)
    ensures !AllLand(p)
  {
    hide CodeBytes, Assembled, OperandOf;
    var i := FirstUnfit(p, |p.instrs|);
    var t := TargetOf(p, i);
    ReadAt(p, i);
    FinalOpByte(p, i);
    WhatFits(p, i);
    CodeLength(p, i);
    if t <= i {
      CodeLength(p, t);
    } else {
      FallsBehind(p, i, t);
    }
    assert !Lands(p, i);
  }

  /** The jumps of the assembled code land where they should if, and only if, every offset fits
      the width chosen for it: no backward jump over more than 128 bytes and no forward jump over
      more than 32767. */
  lemma AllLandIffEncodable(p: Program)
    requires GoodInstrs(p)
    ensures Encodable(p) <==> AllLand(p)
  {
    hide AllLand, Encodable;
    if Encodable(p) { LandIfAllFit(p); } else { FirstMisses(p); }
  }

  lemma {:induction false} FirstUnfit(p: Program, n: nat) returns (i: nat)
    requires GoodInstrs(p) && !FitsUpTo(p, n)
    ensures JumpAt(p, i) && !Fits(p, i) && FitsUpTo(p, i)
    decreases n
  {
    hide Fits;
    if n > 0 && !FitsUpTo(p, n - 1) {
      i := FirstUnfit(p, n - 1);
    } else {
      i :| JumpAt(p, i) && i < n && !Fits(p, i);
    }
  }

  /** Where the first pass puts an instruction is where the second pass writes it, for all
      instructions, if and only if no backward jump goes over more than 128 bytes. */
  lemma {:induction false} LayoutIffNoFarLoop(p: Program)
    requires GoodInstrs(p)
    ensures (forall i {:trigger Address(p, i)} :: 0 <= i <= |p.instrs| ==> |CodeBytes(p, i)| == Address(p, i)) <==>
            (forall i {:trigger JumpAt(p, i)} ::
              JumpAt(p, i) && TargetOf(p, i) <= i ==> Address(p, i) - Address(p, TargetOf(p, i)) <= 128)
  {
    hide CodeBytes, InstrBytes, TargetOf, Fits;
    if forall i {:trigger JumpAt(p, i)} ::
      JumpAt(p, i) && TargetOf(p, i) <= i ==> Address(p, i) - Address(p, TargetOf(p, i)) <= 128 {
      forall i | 0 <= i <= |p.instrs| ensures |CodeBytes(p, i)| == Address(p, i) { NoFarLoop(p, i); }
    } else {
      var i :| JumpAt(p, i) && TargetOf(p, i) <= i && Address(p, i) - Address(p, TargetOf(p, i)) > 128;
      WhatFits(p, i);
      InstrBytesLength(p, i);
      OneInstr(p, i);
      assert Address(p, i + 1) == Address(p, i) + WidthAt(p, i);
    }
  }

  lemma {:induction false} NoFarLoop(p: Program, n: nat)
    requires GoodInstrs(p) && n <= |p.instrs|
    requires forall i {:trigger JumpAt(p, i)} ::
      JumpAt(p, i) && TargetOf(p, i) <= i ==> Address(p, i) - Address(p, TargetOf(p, i)) <= 128
    ensures |CodeBytes(p, n)| == Address(p, n)
    decreases n
  {
    hide InstrBytes, TargetOf, Fits;
    if n > 0 {
      NoFarLoop(p, n - 1);
      InstrBytesLength(p, n - 1);
      if JumpAt(p, n - 1) { WhatFits(p, n - 1); }
    }
  }
}
