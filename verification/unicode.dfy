/** UTF-8 as in section 3 of RFC 3629, but for all codes of up to 21 bits. */
module Unicode {

  type Char8 = bv8
  type Code = bv32

  const LARGEST: Code := 0x1fffff

  // ----- Bits ---------------------------------------------------------------

  /** The low byte, as a cast gives it. */
  function Cut(x: Code): Char8
  {
    (x & 0xff) as bv8
  }

  function First2(code: Code): Char8 { 0xc0 | Cut(code >> 6) }
  function First3(code: Code): Char8 { 0xe0 | Cut(code >> 12) }
  function First4(code: Code): Char8 { 0xf0 | Cut(code >> 18) }

  /** The continuation bytes for the lowest six bits, the next six, and the next. */
  function Low6(code: Code): Char8 { 0x80 | Cut(code & 0x3f) }
  function Mid6(code: Code): Char8 { 0x80 | Cut((code >> 6) & 0x3f) }
  function High6(code: Code): Char8 { 0x80 | Cut((code >> 12) & 0x3f) }

  predicate Single(c: Char8) { c & 0x80 == 0 }
  predicate Leads2(c: Char8) { c & 0xe0 == 0xc0 }
  predicate Leads3(c: Char8) { c & 0xf0 == 0xe0 }
  predicate Leads4(c: Char8) { c & 0xf8 == 0xf0 }
  predicate Follows(c: Char8) { c & 0xc0 == 0x80 }

  function Join1(a: Char8): Code { a as bv32 }
  function Join2(a: Char8, b: Char8): Code { ((a & 0x1f) as bv32 << 6) | ((b & 0x3f) as bv32) }
  function Join3(a: Char8, b: Char8, c: Char8): Code
  {
    ((a & 0x0f) as bv32 << 12) | ((b & 0x3f) as bv32 << 6) | ((c & 0x3f) as bv32)
  }
  function Join4(a: Char8, b: Char8, c: Char8, d: Char8): Code
  {
    ((a & 0x07) as bv32 << 18) | ((b & 0x3f) as bv32 << 12) | ((c & 0x3f) as bv32 << 6) | ((d & 0x3f) as bv32)
  }

  // ----- One character ------------------------------------------------------

  /** How many bytes a code takes; none if it is too large. */
  function Width(code: Code): nat
  {
    if code < 0x80 then 1 else if code <= 0x7ff then 2 else if code <= 0xffff then 3 else if code <= LARGEST then 4
      else 0
  }

  function Encode(code: Code): seq<Char8>
  {
    match Width(code)
    case 0 => []
    case 1 => [Cut(code)]
    case 2 => [First2(code), Low6(code)]
    case 3 => [First3(code), Mid6(code), Low6(code)]
    case _ => [First4(code), High6(code), Mid6(code), Low6(code)]
  }

  /** The length that the first byte tells; zero if it cannot be one. */
  function LengthByFirst(c: Char8): nat
  {
    if Single(c) then 1 else if Leads2(c) then 2 else if Leads3(c) then 3 else if Leads4(c) then 4 else 0
  }

  /** The length of the character at the start of `limit` bytes, all of which are checked; what is
      wrong is told by a negative number. No byte behind the character is looked at. */
  function CheckedLength(s: seq<Char8>, limit: nat): int
  {
    if limit < 1 || |s| < 1 then -1
    else if Single(s[0]) then 1
    else if limit < 2 || |s| < 2 then -1
    else if !Follows(s[1]) then -2
    else if Leads2(s[0]) then 2
    else if limit < 3 || |s| < 3 then -1
    else if !Follows(s[2]) then -3
    else if Leads3(s[0]) then 3
    else if limit < 4 || |s| < 4 then -1
    else if !Follows(s[3]) then -4
    else if Leads4(s[0]) then 4
    else -1
  }

  datatype Decoded = Char(code: Code, length: nat) | Malformed

  function Decode(s: seq<Char8>): Decoded
  {
    match CheckedLength(s, 4)
    case 1 => Char(Join1(s[0]), 1)
    case 2 => Char(Join2(s[0], s[1]), 2)
    case 3 => Char(Join3(s[0], s[1], s[2]), 3)
    case 4 => Char(Join4(s[0], s[1], s[2], s[3]), 4)
    case _ => Malformed
  }

  // ----- Bit by bit ---------------------------------------------------------

  lemma OneByte(code: Code)
    requires code < 0x80
    ensures Single(Cut(code)) && Join1(Cut(code)) == code && (code != 0 ==> Cut(code) != 0)
    ensures code == 0 ==> Encode(code) == [0]
  {
  }

  lemma TwoBytes(code: Code)
    requires 0x80 <= code <= 0x7ff
    ensures
      var a, b := First2(code), Low6(code);
      !Single(a) && Leads2(a) && Follows(b) && a != 0 && b != 0 && Join2(a, b) == code
  {
  }

  lemma ThreeBytes(code: Code)
    requires 0x7ff < code <= 0xffff
    ensures
      var a, b, c := First3(code), Mid6(code), Low6(code);
      !Single(a) && !Leads2(a) && Leads3(a) && Follows(b) && Follows(c) && a != 0 && b != 0 && c != 0 &&
        Join3(a, b, c) == code
  {
  }

  lemma FourBytes(code: Code)
    requires 0xffff < code <= LARGEST
    ensures
      var a, b, c, d := First4(code), High6(code), Mid6(code), Low6(code);
      && !Single(a) && !Leads2(a) && !Leads3(a) && Leads4(a) && Follows(b) && Follows(c) && Follows(d)
      && a != 0 && b != 0 && c != 0 && d != 0 && Join4(a, b, c, d) == code
  {
  }

  lemma Widths(code: Code)
    requires code <= LARGEST
    ensures 1 <= Width(code) <= 4
    ensures Width(code) == 1 ==> code < 0x80
    ensures Width(code) == 2 ==> 0x80 <= code <= 0x7ff
    ensures Width(code) == 3 ==> 0x7ff < code <= 0xffff
    ensures Width(code) == 4 ==> 0xffff < code <= LARGEST
  {
  }

  ghost predicate NoZero(s: seq<Char8>)
  {
    forall i {:trigger s[i]} :: 0 <= i < |s| ==> s[i] != 0
  }

  /** Decoding what has been encoded gives back the code, whatever follows. */
  lemma RoundTrip(code: Code, rest: seq<Char8>)
    requires code <= LARGEST
    ensures Decode(Encode(code) + rest) == Char(code, |Encode(code)|)
    ensures |Encode(code)| == Width(code) >= 1 &&
      LengthByFirst(Encode(code)[0]) == |Encode(code)| == CheckedLength(Encode(code) + rest, 4)
    ensures code != 0 ==> NoZero(Encode(code))
    ensures code == 0 ==> Encode(code) == [0]
  {
    hide Cut, First2, First3, First4, Low6, Mid6, High6, Single, Leads2, Leads3, Leads4, Follows, Join1, Join2, Join3,
      Join4, Width;
    Widths(code);
    match Width(code)
    case 1 => OneByte(code);
    case 2 => TwoBytes(code);
    case 3 => ThreeBytes(code);
    case _ => FourBytes(code);
  }

  // ----- Bytes as numbers ---------------------------------------------------

  /** What a byte adds to `base`. The numbers below stay far below the largest of 32 bits. */
  function Over(c: Char8, base: Code): Code { (c as bv32) - base }

  predicate Continues(c: Char8) { 0x80 <= c < 0xc0 }

  /** The number that leading and continuation bytes make. */
  function Number2(a: Char8, b: Char8): Code { Over(a, 0xc0) * 64 + Over(b, 0x80) }
  function Number3(a: Char8, b: Char8, c: Char8): Code
  {
    Over(a, 0xe0) * 4096 + Over(b, 0x80) * 64 + Over(c, 0x80)
  }
  function Number4(a: Char8, b: Char8, c: Char8, d: Char8): Code
  {
    Over(a, 0xf0) * 262144 + Over(b, 0x80) * 4096 + Over(c, 0x80) * 64 + Over(d, 0x80)
  }

  /** The bytes `s` stand for `code`: six bits in each byte but the first, the highest first. */
  predicate StandsFor(s: seq<Char8>, code: Code)
  {
    if code < 0x80 then |s| == 1 && s[0] as bv32 == code
    else if code < 0x800 then
      && |s| == 2 && 0xc0 <= s[0] < 0xe0 && Continues(s[1])
      && Number2(s[0], s[1]) == code
    else if code < 0x1_0000 then
      && |s| == 3 && 0xe0 <= s[0] < 0xf0 && Continues(s[1]) && Continues(s[2])
      && Number3(s[0], s[1], s[2]) == code
    else if code < 0x20_0000 then
      && |s| == 4 && 0xf0 <= s[0] < 0xf8 && Continues(s[1]) && Continues(s[2]) && Continues(s[3])
      && Number4(s[0], s[1], s[2], s[3]) == code
    else s == []
  }

  lemma TwoNumbers(code: Code)
    requires 0x80 <= code < 0x800
    ensures 0xc0 <= First2(code) < 0xe0 && Continues(Low6(code)) && Number2(First2(code), Low6(code)) == code
  {
  }

  lemma ThreeNumbers(code: Code)
    requires 0x800 <= code < 0x1_0000
    ensures 0xe0 <= First3(code) < 0xf0 && Continues(Mid6(code)) && Continues(Low6(code))
    ensures Number3(First3(code), Mid6(code), Low6(code)) == code
  {
  }

  lemma FourNumbers(code: Code)
    requires 0x1_0000 <= code < 0x20_0000
    ensures 0xf0 <= First4(code) < 0xf8 && Continues(High6(code)) && Continues(Mid6(code)) && Continues(Low6(code))
    ensures Number4(First4(code), High6(code), Mid6(code), Low6(code)) == code
  {
  }

  lemma WidthNumbers(code: Code)
    ensures Width(code) ==
      if code < 0x80 then 1 else if code < 0x800 then 2 else if code < 0x1_0000 then 3 else if code < 0x20_0000 then 4
      else 0
  {
  }

  /** The encoding of a code stands for it. */
  lemma EncodeStandsFor(code: Code)
    ensures StandsFor(Encode(code), code)
  {
    hide Width, First2, First3, First4, Low6, Mid6, High6, Over, Continues;
    WidthNumbers(code);
    if code < 0x80 {
      OneNumber(code);
    } else if code < 0x800 {
      TwoNumbers(code);
    } else if code < 0x1_0000 {
      ThreeNumbers(code);
    } else if code < 0x20_0000 {
      FourNumbers(code);
    }
  }

  lemma OneNumber(code: Code)
    requires code < 0x80
    ensures Cut(code) as bv32 == code
  {
  }

  lemma TwoBack(a: Char8, b: Char8)
    requires 0xc0 <= a < 0xe0 && Continues(b)
    ensures First2(Number2(a, b)) == a && Low6(Number2(a, b)) == b
  {
  }

  lemma ThreeBack(a: Char8, b: Char8, c: Char8)
    requires 0xe0 <= a < 0xf0 && Continues(b) && Continues(c)
    ensures
      var code := Number3(a, b, c);
      First3(code) == a && Mid6(code) == b && Low6(code) == c
  {
  }

  lemma FourBack(a: Char8, b: Char8, c: Char8, d: Char8)
    requires 0xf0 <= a < 0xf8 && Continues(b) && Continues(c) && Continues(d)
    ensures
      var code := Number4(a, b, c, d);
      First4(code) == a && High6(code) == b && Mid6(code) == c && Low6(code) == d
  {
  }

  /** No other bytes do. */
  lemma OneEncoding(s: seq<Char8>, code: Code)
    requires StandsFor(s, code)
    ensures s == Encode(code)
  {
    hide Width, First2, First3, First4, Low6, Mid6, High6, Over, Continues;
    WidthNumbers(code);
    if code < 0x80 {
      OneNumber(code);
      SameByte(s[0], Cut(code));
    } else if code < 0x800 {
      TwoBack(s[0], s[1]);
    } else if code < 0x1_0000 {
      ThreeBack(s[0], s[1], s[2]);
    } else if code < 0x20_0000 {
      FourBack(s[0], s[1], s[2], s[3]);
    }
  }

  lemma SameByte(a: Char8, b: Char8)
    requires a as bv32 == b as bv32
    ensures a == b
  {
  }

  /** Decoding any bytes: which ones begin with a character, and what its number is. */
  lemma DecodeNumbers(s: seq<Char8>)
    ensures Decode(s) ==
      if |s| >= 1 && s[0] < 0x80 then Char(s[0] as bv32, 1)
      else if |s| >= 2 && 0xc0 <= s[0] < 0xe0 && Continues(s[1]) then
        Char(Number2(s[0], s[1]), 2)
      else if |s| >= 3 && 0xe0 <= s[0] < 0xf0 && Continues(s[1]) && Continues(s[2]) then
        Char(Number3(s[0], s[1], s[2]), 3)
      else if |s| >= 4 && 0xf0 <= s[0] < 0xf8 && Continues(s[1]) && Continues(s[2]) && Continues(s[3]) then
        Char(Number4(s[0], s[1], s[2], s[3]), 4)
      else Malformed
  {
  }

  /** The length that the first byte tells, by its number. */
  lemma LengthNumbers(c: Char8)
    ensures LengthByFirst(c) ==
      if c < 0x80 then 1 else if c < 0xc0 then 0 else if c < 0xe0 then 2 else if c < 0xf0 then 3
      else if c < 0xf8 then 4 else 0
  {
  }

  // ----- Strings ------------------------------------------------------------

  predicate Small(codes: seq<Code>)
  {
    forall i {:trigger codes[i]} :: 0 <= i < |codes| ==> codes[i] <= LARGEST
  }

  /** How many codes there are before the first zero. */
  function UntilZero(codes: seq<Code>): (n: nat)
    ensures n <= |codes| && (n < |codes| ==> codes[n] == 0)
    ensures forall i {:trigger codes[i]} :: 0 <= i < n ==> codes[i] != 0
  {
    if codes == [] || codes[0] == 0 then 0 else 1 + UntilZero(codes[1..])
  }

  function EncodeAll(codes: seq<Code>): seq<Char8>
  {
    if codes == [] then [] else EncodeAll(codes[..|codes| - 1]) + Encode(codes[|codes| - 1])
  }

  lemma EncodeNext(codes: seq<Code>, i: nat)
    requires i < |codes|
    ensures EncodeAll(codes[..i + 1]) == EncodeAll(codes[..i]) + Encode(codes[i])
  {
    assert codes[..i + 1][..i] == codes[..i];
  }

  /** The character number `i` stands where the first `i` characters end, and the string ends
      where they all do. */
  lemma {:induction false} EncodeSplit(codes: seq<Code>, i: nat, n: nat) returns (rest: seq<Char8>)
    requires i < n <= |codes|
    ensures EncodeAll(codes[..n]) == EncodeAll(codes[..i]) + Encode(codes[i]) + rest
    decreases n
  {
    hide Encode, EncodeAll;
    EncodeNext(codes, n - 1);
    if i == n - 1 {
      rest := [];
    } else {
      rest := EncodeSplit(codes, i, n - 1);
      rest := rest + Encode(codes[n - 1]);
    }
  }

  /** What is read where character number `i` begins. */
  lemma CharAt(codes: seq<Code>, i: nat, after: seq<Char8>)
    requires i < |codes| && Small(codes)
    ensures
      var s, p := EncodeAll(codes) + after, |EncodeAll(codes[..i])|;
      && p < |s| && Decode(s[p..]) == Char(codes[i], Width(codes[i])) &&
        CheckedLength(s[p..], 4) == LengthByFirst(s[p]) == Width(codes[i]) >= 1
      && p + Width(codes[i]) == |EncodeAll(codes[..i + 1])| <= |EncodeAll(codes)| && (codes[i] != 0 <==> s[p] != 0)
  {
    hide Decode, CheckedLength, LengthByFirst, Width, Encode;
    var s, p := EncodeAll(codes) + after, |EncodeAll(codes[..i])|;
    assert codes[..|codes|] == codes;
    var rest := EncodeSplit(codes, i, |codes|);
    EncodeNext(codes, i);
    RoundTrip(codes[i], rest + after);
    assert s[p..] == Encode(codes[i]) + (rest + after);
    assert s[p] == Encode(codes[i])[0];
  }

  /** Characters of the string, one after the other. */
  function DecodeAll(s: seq<Char8>): seq<Code>
    decreases |s|
  {
    match Decode(s)
    case Char(code, n) => if 0 < n <= |s| then [code] + DecodeAll(s[n..]) else []
    case Malformed => []
  }

  /** Decoding a whole string gives back its codes; so different codes have different strings. */
  lemma {:induction false} StringRoundTrip(codes: seq<Code>)
    requires Small(codes)
    ensures DecodeAll(EncodeAll(codes)) == codes
  {
    assert codes[0..] == codes && EncodeAll(codes[..0]) == [];
    DecodeFrom(codes, 0);
    assert EncodeAll(codes)[0..] == EncodeAll(codes);
  }

  lemma {:induction false} DecodeFrom(codes: seq<Code>, i: nat)
    requires Small(codes) && i <= |codes|
    ensures |EncodeAll(codes[..i])| <= |EncodeAll(codes)| &&
      DecodeAll(EncodeAll(codes)[|EncodeAll(codes[..i])|..]) == codes[i..]
    decreases |codes| - i
  {
    hide Decode, Width, Encode, EncodeAll, CheckedLength, LengthByFirst;
    var s, p := EncodeAll(codes), |EncodeAll(codes[..i])|;
    if i < |codes| {
      CharAt(codes, i, []);
      assert s + [] == s;
      DecodeFrom(codes, i + 1);
      assert s[p..][Width(codes[i])..] == s[|EncodeAll(codes[..i + 1])|..];
    } else {
      assert codes[..i] == codes && s[p..] == [];
      assert DecodeAll([]) == [] by { DecodeNothing(); }
    }
  }

  lemma DecodeNothing()
    ensures Decode([]) == Malformed && DecodeAll([]) == []
  {
  }

  // ----- The same in place --------------------------------------------------

  /** Write the bytes of a code into a buffer of four. */
  method FromUnicode(code: Code, buffer: array<Char8>) returns (n: nat)
    requires buffer.Length >= 4
    modifies buffer
    ensures n == Width(code) <= 4 && buffer[..n] == Encode(code) && buffer[n..] == old(buffer[n..])
    ensures StandsFor(buffer[..n], code)
  {
    hide Cut, First2, First3, First4, Low6, Mid6, High6, StandsFor;
    EncodeStandsFor(code);
    if code < 0x80 {
      buffer[0] := Cut(code);
      return 1;
    }
    if code <= 0x7ff {
      buffer[0], buffer[1] := First2(code), Low6(code);
      return 2;
    }
    if code <= 0xffff {
      buffer[0], buffer[1], buffer[2] := First3(code), Mid6(code), Low6(code);
      return 3;
    }
    if code <= LARGEST {
      buffer[0], buffer[1], buffer[2], buffer[3] := First4(code), High6(code), Mid6(code), Low6(code);
      return 4;
    }
    return 0;
  }

  /** The number of characters of `s` up to a zero byte or to its end. For a string that has been
      encoded that is how many codes there are before the first zero. */
  method CheckedStringLength(s: seq<Char8>, ghost codes: seq<Code>) returns (length: int)
    requires Small(codes) && s == EncodeAll(codes)
    ensures length == UntilZero(codes)
  {
    hide Width, Decode, CheckedLength, LengthByFirst, EncodeAll;
    assert codes[..|codes|] == codes;
    Empty(codes);
    assert s + [] == s;
    length := 0;
    var p := 0;
    if |s| == 0 {
      if codes != [] { CharAt(codes, 0, []); }
      return 0;
    }
    while true
      invariant 0 <= length <= UntilZero(codes) && p == |EncodeAll(codes[..length])| < |s|
      decreases |codes| - length
    {
      assert length < |codes|;
      CharAt(codes, length, []);
      if s[p] == 0 { return; }
      var n := CheckedLength(s[p..], 4);
      if n == 0 { return -1 - p; }
      p := p + n;
      length := length + 1;
      if p >= |s| {
        if p > |s| { return -1 - (p - n); }
        if length < |codes| { CharAt(codes, length, []); }
        return;
      }
    }
  }

  lemma Empty(codes: seq<Code>)
    ensures EncodeAll(codes[..0]) == [] && EncodeAll([]) == []
  {
  }

  datatype Option = At(offset: nat) | Null

  /** Skip `count` characters of a string that ends with a zero byte, or as many as there are before the first. */
  method SkipPrefix(s: seq<Char8>, count: nat, ghost codes: seq<Code>) returns (p: Option)
    requires Small(codes) && s == EncodeAll(codes) + [0]
    ensures p == At(|EncodeAll(codes[..if count < UntilZero(codes) then count else UntilZero(codes)])|)
  {
    hide Width, Decode, CheckedLength, LengthByFirst, EncodeAll;
    assert codes[..|codes|] == codes;
    Empty(codes);
    var at, left := 0, count;
    ghost var done := 0;
    while left > 0
      invariant 0 <= done <= UntilZero(codes) && done + left == count && at == |EncodeAll(codes[..done])| < |s|
    {
      left := left - 1;
      if done < |codes| { CharAt(codes, done, [0]); }
      if s[at] == 0 { break; }
      var n := LengthByFirst(s[at]);
      if n == 0 { return Null; }
      at := at + n;
      done := done + 1;
    }
    p := At(at);
  }
}
