/** The value types of the line-oriented machine (src/types.rs): the
    `u32` wrapper types, the four-word `Line`, its 16-byte form, and the
    closed `Instruction` set with its line codec.

    Byte order: the source converts words with `to_ne_bytes` /
    `from_ne_bytes` (native endianness). This model fixes little-endian. */
module Types {

  type u8 = x: int | 0 <= x < 0x100
  type u32 = x: int | 0 <= x < 0x1_0000_0000
  type i32 = x: int | -0x8000_0000 <= x < 0x8000_0000

  const U32_MAX: u32 := 0xFFFF_FFFF

  // ---------------------------------------------------------------------
  // Wrapper types: each is a reinterpretation of one `u32` word.
  // ---------------------------------------------------------------------

  datatype Address = Address(bits: u32)
  {
    /** `Address::incr`. Rust's `+= 1` panics in a debug build at
        `u32::MAX`, so the caller must stay below it. */
    function Incr(): (r: Address)
      requires bits < U32_MAX
      ensures r.bits == bits + 1
      ensures r.bits > bits
    {
      Address(bits + 1)
    }
  }

  datatype UnsignedInteger = UnsignedInteger(bits: u32)

  datatype SignedInteger = SignedInteger(value: i32)

  /** A 32-bit float, kept as its bit pattern: the source converts to and
      from `u32` through bytes, which never changes the bits. */
  datatype Float = Float(bits: u32)

  /** `From<u32> for SignedInteger`: `val as i32`, two's complement. */
  function SignedFromU32(x: u32): (s: SignedInteger)
    ensures s.value % 0x1_0000_0000 == x
    ensures s.value < 0 <==> x >= 0x8000_0000
  {
    if x < 0x8000_0000 then SignedInteger(x) else SignedInteger(x - 0x1_0000_0000)
  }

  /** `From<SignedInteger> for u32`: `val.0 as u32`, two's complement. */
  function SignedToU32(s: SignedInteger): (x: u32)
    ensures x % 0x1_0000_0000 == s.value % 0x1_0000_0000
    ensures x >= 0x8000_0000 <==> s.value < 0
  {
    if s.value >= 0 then s.value else s.value + 0x1_0000_0000
  }

  lemma SignedRoundTrip(x: u32, s: SignedInteger)
    ensures SignedToU32(SignedFromU32(x)) == x
    ensures SignedFromU32(SignedToU32(s)) == s
  {
  }

  /** `From<u32> for Float` and back: `f32::from_ne_bytes(val.to_ne_bytes())`. */
  function FloatFromU32(x: u32): Float
  {
    Float(x)
  }

  function FloatToU32(f: Float): u32
  {
    f.bits
  }

  lemma FloatRoundTrip(x: u32, f: Float)
    ensures FloatToU32(FloatFromU32(x)) == x
    ensures FloatFromU32(FloatToU32(f)) == f
  {
  }

  // ---------------------------------------------------------------------
  // Lines and their byte form.
  // ---------------------------------------------------------------------

  /** `Line { data: [u32; 4] }`. */
  type Line = s: seq<u32> | |s| == 4 witness [0, 0, 0, 0]

  /** `Line::default()`. */
  const DefaultLine: Line := [0, 0, 0, 0]

  /** `Line::new`. */
  function NewLine(op0: u32, op1: u32, op2: u32, op3: u32): Line
  {
    [op0, op1, op2, op3]
  }

  type Bytes16 = s: seq<u8> | |s| == 16 witness seq(16, _ => 0)

  /** The four bytes of a word, least significant first. */
  function WordBytes(w: u32): (b: seq<u8>)
    ensures |b| == 4
    ensures WordFromBytes(b) == w
  {
    var q1 := w / 0x100;
    var q2 := q1 / 0x100;
    var q3 := q2 / 0x100;
    assert q2 == w / 0x1_0000 && q3 == w / 0x100_0000;
    [w % 0x100, q1 % 0x100, q2 % 0x100, q3]
  }

  /** The word whose little-endian bytes are `b`. */
  function WordFromBytes(b: seq<u8>): u32
    requires |b| == 4
  {
    var b0, b1, b2, b3: int := b[0], b[1], b[2], b[3];
    b0 + 0x100 * b1 + 0x1_0000 * b2 + 0x100_0000 * b3
  }

  lemma WordFromBytesInverse(b: seq<u8>)
    requires |b| == 4
    ensures WordBytes(WordFromBytes(b)) == b
  {
    var b0, b1, b2, b3: int := b[0], b[1], b[2], b[3];
    var w := WordFromBytes(b);
    var q2 := b2 + 0x100 * b3;
    var q1 := b1 + 0x100 * q2;
    assert w == b0 + 0x100 * q1;
    assert w / 0x100 == q1 && w % 0x100 == b0;
    assert q1 / 0x100 == q2 && q1 % 0x100 == b1;
    assert q2 / 0x100 == b3 && q2 % 0x100 == b2;
  }

  /** The byte layout `Line::as_bytes` produces: word `i` occupies bytes
      `4i .. 4i+4`. */
  function LineBytes(line: Line): (b: Bytes16)
    ensures forall i :: 0 <= i < 4 ==> b[4 * i .. 4 * i + 4] == WordBytes(line[i])
  {
    WordBytes(line[0]) + WordBytes(line[1]) + WordBytes(line[2]) + WordBytes(line[3])
  }

  /** `From<[u8; 16]> for Line` (and `From<&[u8; 16]>`, which has the same
      body). */
  function LineFromBytes(b: Bytes16): (line: Line)
    ensures LineBytes(line) == b
  {
    var line := [WordFromBytes(b[0..4]), WordFromBytes(b[4..8]),
                 WordFromBytes(b[8..12]), WordFromBytes(b[12..16])];
    WordFromBytesInverse(b[0..4]);
    WordFromBytesInverse(b[4..8]);
    WordFromBytesInverse(b[8..12]);
    WordFromBytesInverse(b[12..16]);
    assert LineBytes(line) == b[0..4] + b[4..8] + b[8..12] + b[12..16];
    line
  }

  lemma LineBytesRoundTrip(line: Line)
    ensures LineFromBytes(LineBytes(line)) == line
  {
    var b := LineBytes(line);
    assert b[0..4] == WordBytes(line[0]);
    assert b[4..8] == WordBytes(line[1]);
    assert b[8..12] == WordBytes(line[2]);
    assert b[12..16] == WordBytes(line[3]);
  }

  /** `Line::as_bytes`: fills a zeroed 16-byte array one word at a time. */
  method AsBytes(line: Line) returns (res: Bytes16)
    ensures res == LineBytes(line)
    ensures LineFromBytes(res) == line
  {
    ghost var spec := LineBytes(line);
    var a := new u8[16](_ => 0);
    for i := 0 to 4
      invariant a[..4 * i] == spec[..4 * i]
    {
      var wb := WordBytes(line[i]);
      assert spec[4 * i .. 4 * i + 4] == wb;
      a[4 * i], a[4 * i + 1], a[4 * i + 2], a[4 * i + 3] := wb[0], wb[1], wb[2], wb[3];
      assert a[..4 * (i + 1)] == a[..4 * i] + wb;
      assert spec[..4 * (i + 1)] == spec[..4 * i] + wb;
    }
    assert a[..] == a[..16];
    res := a[..];
    LineBytesRoundTrip(line);
  }

  // ---------------------------------------------------------------------
  // The closed instruction set.
  // ---------------------------------------------------------------------

  datatype Instruction =
      // Jumps
    | Jump(to: Address)
    | JumpIfNotEqual(cmpLeft: Address, cmpRight: Address, to: Address)
    | JumpIfLessThan(cmpLeft: Address, cmpRight: Address, to: Address)
      // Maths on integers
    | AddIntegerUnsigned(left: Address, right: Address, to: Address)
    | AddConstIntegerUnsigned(left: Address, uRight: UnsignedInteger, to: Address)
    | AddIntegerSigned(left: Address, right: Address, to: Address)
    | AddConstIntegerSigned(left: Address, sRight: SignedInteger, to: Address)
    | SubtractIntegerUnsigned(left: Address, right: Address, to: Address)
    | SubtractConstIntegerUnsigned(left: Address, uRight: UnsignedInteger, to: Address)
    | SubtractIntegerSigned(left: Address, right: Address, to: Address)
    | SubtractConstIntegerSigned(left: Address, sRight: SignedInteger, to: Address)
    | MultiplyIntegerUnsigned(left: Address, right: Address, to: Address)
    | MultiplyConstIntegerUnsigned(left: Address, uRight: UnsignedInteger, to: Address)
    | MultiplyIntegerSigned(left: Address, right: Address, to: Address)
    | MultiplyConstIntegerSigned(left: Address, sRight: SignedInteger, to: Address)
    | DivideIntegerUnsigned(left: Address, right: Address, to: Address)
    | DivideConstIntegerUnsigned(left: Address, uRight: UnsignedInteger, to: Address)
    | DivideIntegerSigned(left: Address, right: Address, to: Address)
    | DivideConstIntegerSigned(left: Address, sRight: SignedInteger, to: Address)
      // Maths on floats
    | AddFloat(left: Address, right: Address, to: Address)
    | AddConstFloat(left: Address, fRight: Float, to: Address)
    | SubtractFloat(left: Address, right: Address, to: Address)
    | SubtractConstFloat(left: Address, fRight: Float, to: Address)
    | MultiplyFloat(left: Address, right: Address, to: Address)
    | MultiplyConstFloat(left: Address, fRight: Float, to: Address)
    | DivideFloat(left: Address, right: Address, to: Address)
    | DivideConstFloat(left: Address, fRight: Float, to: Address)
      // Memory movement
    | MoveStatic(source: Address, to: Address)
    | MoveIndirect(source: Address, to: Address)
    | MoveIntegerUnsigned(uValue: UnsignedInteger, to: Address)
    | MoveIntegerSigned(sValue: SignedInteger, to: Address)
    | MoveFloat(fValue: Float, to: Address)
      // Syscall
    | Syscall(syscall: UnsignedInteger, argument: Address)
      // NOP
    | NoOperation

  /** Every opcode the instruction table declares. */
  const Opcodes: set<u32> := {
    0x01, 0x02, 0x03,
    0x11, 0x12, 0x13, 0x14, 0x21, 0x22, 0x23, 0x24,
    0x31, 0x32, 0x33, 0x34, 0x41, 0x42, 0x43, 0x44,
    0x51, 0x52, 0x53, 0x54, 0x55, 0x56, 0x57, 0x58,
    0x61, 0x62, 0x63, 0x64, 0x65,
    0x71,
    0x00
  }

  /** The opcode word of an instruction. */
  function Opcode(instr: Instruction): (op: u32)
    ensures op in Opcodes
  {
    match instr
    case Jump(_) => 0x01
    case JumpIfNotEqual(_, _, _) => 0x02
    case JumpIfLessThan(_, _, _) => 0x03
    case AddIntegerUnsigned(_, _, _) => 0x11
    case AddConstIntegerUnsigned(_, _, _) => 0x12
    case AddIntegerSigned(_, _, _) => 0x13
    case AddConstIntegerSigned(_, _, _) => 0x14
    case SubtractIntegerUnsigned(_, _, _) => 0x21
    case SubtractConstIntegerUnsigned(_, _, _) => 0x22
    case SubtractIntegerSigned(_, _, _) => 0x23
    case SubtractConstIntegerSigned(_, _, _) => 0x24
    case MultiplyIntegerUnsigned(_, _, _) => 0x31
    case MultiplyConstIntegerUnsigned(_, _, _) => 0x32
    case MultiplyIntegerSigned(_, _, _) => 0x33
    case MultiplyConstIntegerSigned(_, _, _) => 0x34
    case DivideIntegerUnsigned(_, _, _) => 0x41
    case DivideConstIntegerUnsigned(_, _, _) => 0x42
    case DivideIntegerSigned(_, _, _) => 0x43
    case DivideConstIntegerSigned(_, _, _) => 0x44
    case AddFloat(_, _, _) => 0x51
    case AddConstFloat(_, _, _) => 0x52
    case SubtractFloat(_, _, _) => 0x53
    case SubtractConstFloat(_, _, _) => 0x54
    case MultiplyFloat(_, _, _) => 0x55
    case MultiplyConstFloat(_, _, _) => 0x56
    case DivideFloat(_, _, _) => 0x57
    case DivideConstFloat(_, _, _) => 0x58
    case MoveStatic(_, _) => 0x61
    case MoveIndirect(_, _) => 0x62
    case MoveIntegerUnsigned(_, _) => 0x63
    case MoveIntegerSigned(_, _) => 0x64
    case MoveFloat(_, _) => 0x65
    case Syscall(_, _) => 0x71
    case NoOperation => 0x00
  }

  /** The operand words of an instruction, in declaration order. */
  function Operands(instr: Instruction): (ws: seq<u32>)
    ensures |ws| <= 3
  {
    match instr
    case Jump(t) => [t.bits]
    case JumpIfNotEqual(l, r, t) => [l.bits, r.bits, t.bits]
    case JumpIfLessThan(l, r, t) => [l.bits, r.bits, t.bits]
    case AddIntegerUnsigned(l, r, t) => [l.bits, r.bits, t.bits]
    case AddConstIntegerUnsigned(l, r, t) => [l.bits, r.bits, t.bits]
    case AddIntegerSigned(l, r, t) => [l.bits, r.bits, t.bits]
    case AddConstIntegerSigned(l, r, t) => [l.bits, SignedToU32(r), t.bits]
    case SubtractIntegerUnsigned(l, r, t) => [l.bits, r.bits, t.bits]
    case SubtractConstIntegerUnsigned(l, r, t) => [l.bits, r.bits, t.bits]
    case SubtractIntegerSigned(l, r, t) => [l.bits, r.bits, t.bits]
    case SubtractConstIntegerSigned(l, r, t) => [l.bits, SignedToU32(r), t.bits]
    case MultiplyIntegerUnsigned(l, r, t) => [l.bits, r.bits, t.bits]
    case MultiplyConstIntegerUnsigned(l, r, t) => [l.bits, r.bits, t.bits]
    case MultiplyIntegerSigned(l, r, t) => [l.bits, r.bits, t.bits]
    case MultiplyConstIntegerSigned(l, r, t) => [l.bits, SignedToU32(r), t.bits]
    case DivideIntegerUnsigned(l, r, t) => [l.bits, r.bits, t.bits]
    case DivideConstIntegerUnsigned(l, r, t) => [l.bits, r.bits, t.bits]
    case DivideIntegerSigned(l, r, t) => [l.bits, r.bits, t.bits]
    case DivideConstIntegerSigned(l, r, t) => [l.bits, SignedToU32(r), t.bits]
    case AddFloat(l, r, t) => [l.bits, r.bits, t.bits]
    case AddConstFloat(l, r, t) => [l.bits, FloatToU32(r), t.bits]
    case SubtractFloat(l, r, t) => [l.bits, r.bits, t.bits]
    case SubtractConstFloat(l, r, t) => [l.bits, FloatToU32(r), t.bits]
    case MultiplyFloat(l, r, t) => [l.bits, r.bits, t.bits]
    case MultiplyConstFloat(l, r, t) => [l.bits, FloatToU32(r), t.bits]
    case DivideFloat(l, r, t) => [l.bits, r.bits, t.bits]
    case DivideConstFloat(l, r, t) => [l.bits, FloatToU32(r), t.bits]
    case MoveStatic(s, t) => [s.bits, t.bits]
    case MoveIndirect(s, t) => [s.bits, t.bits]
    case MoveIntegerUnsigned(v, t) => [v.bits, t.bits]
    case MoveIntegerSigned(v, t) => [SignedToU32(v), t.bits]
    case MoveFloat(v, t) => [FloatToU32(v), t.bits]
    case Syscall(s, a) => [s.bits, a.bits]
    case NoOperation => []
  }

  /** `From<Line> for Instruction`: word 0 selects the variant, the
      following words are its operands in order, and a word 0 that names
      no declared opcode gives `NoOperation`. */
  function Decode(line: Line): (instr: Instruction)
    ensures line[0] !in Opcodes ==> instr == NoOperation
    ensures line[0] in Opcodes ==> Opcode(instr) == line[0]
    ensures line[0] in Opcodes ==>
              forall k :: 0 <= k < |Operands(instr)| ==> Operands(instr)[k] == line[k + 1]
  {
    var a1, a2, a3 := Address(line[1]), Address(line[2]), Address(line[3]);
    match line[0]
    case 0x01 => Jump(a1)
    case 0x02 => JumpIfNotEqual(a1, a2, a3)
    case 0x03 => JumpIfLessThan(a1, a2, a3)
    case 0x11 => AddIntegerUnsigned(a1, a2, a3)
    case 0x12 => AddConstIntegerUnsigned(a1, UnsignedInteger(line[2]), a3)
    case 0x13 => AddIntegerSigned(a1, a2, a3)
    case 0x14 => AddConstIntegerSigned(a1, SignedFromU32(line[2]), a3)
    case 0x21 => SubtractIntegerUnsigned(a1, a2, a3)
    case 0x22 => SubtractConstIntegerUnsigned(a1, UnsignedInteger(line[2]), a3)
    case 0x23 => SubtractIntegerSigned(a1, a2, a3)
    case 0x24 => SubtractConstIntegerSigned(a1, SignedFromU32(line[2]), a3)
    case 0x31 => MultiplyIntegerUnsigned(a1, a2, a3)
    case 0x32 => MultiplyConstIntegerUnsigned(a1, UnsignedInteger(line[2]), a3)
    case 0x33 => MultiplyIntegerSigned(a1, a2, a3)
    case 0x34 => MultiplyConstIntegerSigned(a1, SignedFromU32(line[2]), a3)
    case 0x41 => DivideIntegerUnsigned(a1, a2, a3)
    case 0x42 => DivideConstIntegerUnsigned(a1, UnsignedInteger(line[2]), a3)
    case 0x43 => DivideIntegerSigned(a1, a2, a3)
    case 0x44 => DivideConstIntegerSigned(a1, SignedFromU32(line[2]), a3)
    case 0x51 => AddFloat(a1, a2, a3)
    case 0x52 => AddConstFloat(a1, FloatFromU32(line[2]), a3)
    case 0x53 => SubtractFloat(a1, a2, a3)
    case 0x54 => SubtractConstFloat(a1, FloatFromU32(line[2]), a3)
    case 0x55 => MultiplyFloat(a1, a2, a3)
    case 0x56 => MultiplyConstFloat(a1, FloatFromU32(line[2]), a3)
    case 0x57 => DivideFloat(a1, a2, a3)
    case 0x58 => DivideConstFloat(a1, FloatFromU32(line[2]), a3)
    case 0x61 => MoveStatic(a1, a2)
    case 0x62 => MoveIndirect(a1, a2)
    case 0x63 => MoveIntegerUnsigned(UnsignedInteger(line[1]), a2)
    case 0x64 => MoveIntegerSigned(SignedFromU32(line[1]), a2)
    case 0x65 => MoveFloat(FloatFromU32(line[1]), a2)
    case 0x71 => Syscall(UnsignedInteger(line[1]), a2)
    case 0x00 => NoOperation
    case _ => NoOperation
  }

  /** `From<Instruction> for Line`, as a value: the opcode, the operands,
      and zero for every unused word. Decoding it gives the instruction
      back. */
  function Encode(instr: Instruction): (line: Line)
    ensures Decode(line) == instr
  {
    var ops := Operands(instr);
    var line: Line := [Opcode(instr)] + ops + seq(3 - |ops|, _ => 0);
    line
  }

  /** A line that `Encode` can produce: a declared opcode, and zero in
      every word the opcode does not use. */
  predicate Canonical(line: Line)
  {
    && line[0] in Opcodes
    && forall k :: 1 + |Operands(Decode(line))| <= k < 4 ==> line[k] == 0
  }

  lemma EncodeDecode(line: Line)
    requires Canonical(line)
    ensures Encode(Decode(line)) == line
  {
    var ops := Operands(Decode(line));
    assert Encode(Decode(line)) == [line[0]] + ops + seq(3 - |ops|, _ => 0);
  }

  /** `From<Instruction> for Line`, as the source runs it: start from the
      default line, store the opcode in word 0, then store each operand at
      a running index. */
  method ToLine(instr: Instruction) returns (line: Line)
    ensures line[0] == Opcode(instr)
    ensures forall k :: 1 <= k <= |Operands(instr)| ==> line[k] == Operands(instr)[k - 1]
    ensures forall k :: |Operands(instr)| < k < 4 ==> line[k] == 0
    ensures line == Encode(instr)
  {
    line := DefaultLine;
    line := line[0 := Opcode(instr)];
    var operands := Operands(instr);
    var idx := 0;
    while idx < |operands|
      invariant 0 <= idx <= |operands|
      invariant line[0] == Opcode(instr)
      invariant forall k :: 1 <= k <= idx ==> line[k] == operands[k - 1]
      invariant forall k :: idx < k < 4 ==> line[k] == 0
    {
      idx := idx + 1;
      line := line[idx := operands[idx - 1]];
    }
    assert line == [Opcode(instr)] + operands + seq(3 - |operands|, _ => 0);
  }

  /** The unit tests of src/types.rs. */
  lemma DecodeExamples()
    ensures Decode(DefaultLine) == NoOperation
    ensures Decode([999, 0, 0, 0]) == NoOperation
    ensures Decode([1, 10, 0, 0]) == Jump(Address(10))
    ensures Decode([2, 10, 11, 12]) == JumpIfNotEqual(Address(10), Address(11), Address(12))
  {
  }
}
