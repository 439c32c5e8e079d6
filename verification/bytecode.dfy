/** The instruction set: opcodes and the operands that follow them. */
module Bytecode {

  const DROP := 0x06
  const DUP := 0x08
  const LD_NIL := 0x0a
  const LD_BOOL := 0x0b
  const LD_INT := 0x0c
  const LD_INT_W := 0x0d
  const ADD := 0x10
  const NEG := 0x1a
  const INV := 0x1b
  const CMP_LT := 0x22
  const CMP_NE := 0x27
  const LD_GLOB := 0x32
  const LD_GLOB_W := 0x33
  const ST_GLOB := 0x34
  const ST_GLOB_W := 0x35
  const LD_GLOB_Y := 0x36
  const LD_GLOB_Y_W := 0x37
  const JMP := 0x40
  const JMP_W := 0x41
  const JMP_WHEN := 0x42
  const JMP_WHEN_W := 0x43
  const JMP_UNLS := 0x44
  const JMP_UNLS_W := 0x45
  const RET := 0x47
  const RET_NIL := 0x48

  datatype OperandType = None | I8 | U8 | I16 | U16

  /** The table of operand types, for all opcodes. */
  function OperandOf(op: nat): OperandType
  {
    if op in {0x0c, 0x0e, 0x40, 0x42, 0x44} then I8
    else if op in {0x0d, 0x41, 0x43, 0x45} then I16
    else if op in {0x05, 0x07, 0x09, 0x0b, 0x28, 0x2a, 0x2c, 0x2d, 0x2e, 0x30, 0x32, 0x34, 0x36, 0x38, 0x3a, 0x3c, 0x49,
      0x4a, 0x4e, 0x50, 0x52, 0x54, 0x56} then U8
    else if op in {0x29, 0x2b, 0x2f, 0x31, 0x33, 0x35, 0x37, 0x39, 0x3b, 0x3d, 0x46, 0x4f, 0x51, 0x53, 0x55,
      0x57} then U16
    else None
  }

  function WidthOf(t: OperandType): nat
  {
    match t
    case None => 0
    case I8 => 1
    case U8 => 1
    case I16 => 2
    case U16 => 2
  }

  predicate InRange(t: OperandType, n: int)
  {
    match t
    case None => n == 0
    case I8 => -128 <= n <= 127
    case U8 => 0 <= n <= 255
    case I16 => -32768 <= n <= 32767
    case U16 => 0 <= n <= 65535
  }

  type Byte = n: nat | n < 256

  /** The low byte of a number, as a cast to an unsigned byte gives it. */
  function Low(n: int): Byte { n % 256 }
  function High(n: int): Byte { (n / 256) % 256 }

  /** The bytes of an operand; two-byte operands are stored low byte first. */
  function OperandBytes(t: OperandType, n: int): seq<Byte>
  {
    match t
    case None => []
    case I8 => [Low(n)]
    case U8 => [Low(n)]
    case I16 => [Low(n), High(n)]
    case U16 => [Low(n), High(n)]
  }

  function Word(low: int, high: int): int { low + 256 * high }

  function Signed(n: int, bits: nat): int
  {
    if n >= bits / 2 then n - bits else n
  }

  /** The operand at `ip`, as the machine and the disassembler read it. */
  function ReadOperand(t: OperandType, code: seq<Byte>, ip: nat): int
    requires ip + WidthOf(t) <= |code|
  {
    match t
    case None => 0
    case I8 => Signed(code[ip], 256)
    case U8 => code[ip]
    case I16 => Signed(Word(code[ip], code[ip + 1]), 65536)
    case U16 => Word(code[ip], code[ip + 1])
  }

  /** Reading back what has been written. */
  lemma OperandRoundTrip(t: OperandType, n: int, before: seq<Byte>, after: seq<Byte>)
    requires InRange(t, n)
    ensures |OperandBytes(t, n)| == WidthOf(t)
    ensures ReadOperand(t, before + OperandBytes(t, n) + after, |before|) == n
  {
    var code := before + OperandBytes(t, n) + after;
    if t != None {
      assert code[|before|] == Low(n);
      if t.I16? || t.U16? { assert code[|before| + 1] == High(n); }
    }
  }

  /** The number that bytes stand for, low byte first; a signed one counts down from the next power. */
  predicate StandFor(t: OperandType, s: seq<int>, n: int)
  {
    InRange(t, n) &&
    match t
    case None => s == []
    case I8 => |s| == 1 && (s[0] == n || s[0] - 256 == n)
    case U8 => |s| == 1 && s[0] == n
    case I16 => |s| == 2 && (s[0] + 256 * s[1] == n || s[0] + 256 * s[1] - 65536 == n)
    case U16 => |s| == 2 && s[0] + 256 * s[1] == n
  }

  /** What is written stands for the operand, and what is read is what the bytes there stand for. */
  lemma OperandNumbers(t: OperandType, n: int, code: seq<Byte>, ip: nat)
    ensures InRange(t, n) ==> StandFor(t, OperandBytes(t, n), n)
    ensures ip + WidthOf(t) <= |code| ==> StandFor(t, code[ip..ip + WidthOf(t)], ReadOperand(t, code, ip))
  {
    assert n == n % 256 + 256 * (n / 256);
    assert n / 256 == n / 256 % 256 + 256 * (n / 256 / 256);
  }

  /** A jump opcode with a two-byte offset follows the one with a one-byte offset. */
  predicate IsJump(op: nat) { op in {JMP, JMP_WHEN, JMP_UNLS} }

  datatype JumpKind = IsA(base: nat) | NoJump

  /** The jump that an opcode stands for, whatever the width of its offset. */
  function JumpOf(op: nat): JumpKind
  {
    if op == JMP || op == JMP_W then IsA(JMP)
    else if op == JMP_WHEN || op == JMP_WHEN_W then IsA(JMP_WHEN)
    else if op == JMP_UNLS || op == JMP_UNLS_W then IsA(JMP_UNLS)
    else NoJump
  }
}
