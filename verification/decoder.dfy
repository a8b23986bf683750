/** The opcode decoder `CPU::parse_opcode` (src/main.rs:166-229): a total
    function from 16-bit words to instructions that masks fixed bit fields,
    and falls back to a jump to the program start for every word it does not
    recognise. */
module Decoder {
  import opened RegisterFile
  import opened Instructions

  /** The instruction the decoder yields when no pattern matches
      (src/main.rs:168). */
  const Fallback: Instruction := Jump(0x200)

  /** The register named by bits 11-8 of the word. */
  function OperandX(w: bv16): (r: Reg)
    ensures r == V(((w >> 8) & 0xF) as bv4)
  {
    RegisterOf(((w >> 8) & 0x0F) as bv8)
  }

  /** The register named by bits 7-4 of the word. */
  function OperandY(w: bv16): (r: Reg)
    ensures r == V(((w >> 4) & 0xF) as bv4)
  {
    RegisterOf(((w >> 4) & 0x0F) as bv8)
  }

  /** Family 0 compares the whole word (src/main.rs:171-178). Which word
      gives which instruction is stated on `Decode` by `DecodeSystemWords`. */
  function DecodeSystem(w: bv16): (ins: Instruction)
    requires w & 0xF000 == 0x0000
    ensures ins == Nop || ins == ClearScreen || ins == Return || ins == Fallback
    ensures ins == Fallback <==> !Recognized(w)
  {
    match w
    case 0x0000 => Nop
    case 0x00E0 => ClearScreen
    case 0x00EE => Return
    case _ => Fallback
  }

  /** Family 8 is selected by `w & 0xF00F` (src/main.rs:186-199). Which
      selector gives which operation is stated on `Decode`, against the
      encoder, by `DecodeCorrect` and the two round trips. */
  function DecodeArithmetic(w: bv16, x: Reg, y: Reg): (ins: Instruction)
    requires w & 0xF000 == 0x8000
    ensures ins == Fallback <==> !Recognized(w)
    ensures ins != Fallback ==> ins.HasY() && ins.x == x && ins.y == y
  {
    match w & 0xF00F
    case 0x8000 => Copy(x, y)
    case 0x8001 => Or(x, y)
    case 0x8002 => And(x, y)
    case 0x8003 => Xor(x, y)
    case 0x8004 => AddReg(x, y)
    case 0x8005 => SubX(x, y)
    case 0x8006 => ShiftRight(x, y)
    case 0x8007 => SubY(x, y)
    case 0x800E => ShiftLeft(x, y)
    case _ => Fallback
  }

  /** Family E is selected by `w & 0xF0FF` (src/main.rs:205-211); the
      selector-to-operation table is stated on `Decode`, as for family 8. */
  function DecodeKeys(w: bv16, x: Reg): (ins: Instruction)
    requires w & 0xF000 == 0xE000
    ensures ins == Fallback <==> !Recognized(w)
    ensures ins != Fallback ==> ins.HasX() && !ins.HasY() && !ins.HasImmediate() && ins.x == x
  {
    match w & 0xF0FF
    case 0xE09E => SkipKey(x)
    case 0xE0A1 => SkipNotKey(x)
    case _ => Fallback
  }

  /** Family F is selected by `w & 0xF0FF` (src/main.rs:212-225); the
      selector-to-operation table is stated on `Decode`, as for family 8. */
  function DecodeMisc(w: bv16, x: Reg): (ins: Instruction)
    requires w & 0xF000 == 0xF000
    ensures ins == Fallback <==> !Recognized(w)
    ensures ins != Fallback ==> ins.HasX() && !ins.HasY() && !ins.HasImmediate() && ins.x == x
  {
    match w & 0xF0FF
    case 0xF007 => GetDelay(x)
    case 0xF00A => WaitKey(x)
    case 0xF015 => SetDelay(x)
    case 0xF018 => SetSound(x)
    case 0xF01E => AddI(x)
    case 0xF029 => Sprite(x)
    case 0xF033 => Bcd(x)
    case 0xF055 => Dump(x)
    case 0xF065 => Load(x)
    case _ => Fallback
  }

  /** The decoder proper (src/main.rs:166-229). */
  function Decode(w: bv16): (ins: Instruction)
    ensures !Recognized(w) ==> ins == Fallback
  {
    var x := OperandX(w);
    var y := OperandY(w);
    var nn := (w & 0x00FF) as bv8;
    var nnn := w & 0x0FFF;
    match w & 0xF000
    case 0x0000 => DecodeSystem(w)
    case 0x1000 => Jump(nnn)
    case 0x2000 => Call(nnn)
    case 0x3000 => SkipEq(x, nn)
    case 0x4000 => SkipNeq(x, nn)
    case 0x5000 => SkipRegEq(x, y)
    case 0x6000 => Set(x, nn)
    case 0x7000 => Add(x, nn)
    case 0x8000 => DecodeArithmetic(w, x, y)
    case 0x9000 => SkipRegNeq(x, y)
    case 0xA000 => SetI(nnn)
    case 0xB000 => JumpV0(nnn)
    case 0xC000 => Rand(x, nn)
    case 0xD000 => Draw(x, y, (w & 0x000F) as bv8)
    case 0xE000 => DecodeKeys(w, x)
    case 0xF000 => DecodeMisc(w, x)
    case _ => Fallback
  }

  /** The bits of `w` that the decoder reads: all of them, except the low
      nibble of families 5 and 9. */
  function Significant(w: bv16): (s: bv16)
    ensures Canonical(w) ==> s == w
  {
    if w & 0xF000 == 0x5000 || w & 0xF000 == 0x9000 then w & 0xFFF0 else w
  }

  /** What the decoder promises of the instruction `ins` it yields for the
      word `w`: register operands are the general registers named by bits
      11-8 and 7-4, immediates are the low byte, the sprite height is the
      low nibble, addresses are the low twelve bits, a recognised word is
      the encoding of its instruction up to the ignored bits, and every other
      word yields the fallback jump. */
  ghost predicate Decodes(w: bv16, ins: Instruction) {
    && ins.WellFormed()
    && (ins.HasX() ==> ins.x == V(((w >> 8) & 0xF) as bv4))
    && (ins.HasY() ==> ins.y == V(((w >> 4) & 0xF) as bv4))
    && (ins.HasImmediate() ==> ins.value == (w & 0xFF) as bv8)
    && (ins.Draw? ==> ins.height == (w & 0xF) as bv8)
    && (ins.HasAddress() ==> ins.address == w & 0x0FFF || ins == Fallback)
    && (Recognized(w) ==> !ins.NativeCall? && Encode(ins) == Significant(w))
    && (!Recognized(w) ==> ins == Fallback)
  }

  /** The decoder keeps its promises on every word. */
  lemma DecodeCorrect(w: bv16)
    ensures Decodes(w, Decode(w))
  {
    match w & 0xF000
    case 0x0000 => DecodesFamily0(w);
    case 0x1000 => DecodesFamily1(w);
    case 0x2000 => DecodesFamily2(w);
    case 0x3000 => DecodesFamily3(w);
    case 0x4000 => DecodesFamily4(w);
    case 0x5000 => DecodesFamily5(w);
    case 0x6000 => DecodesFamily6(w);
    case 0x7000 => DecodesFamily7(w);
    case 0x8000 => DecodesFamily8(w);
    case 0x9000 => DecodesFamily9(w);
    case 0xA000 => DecodesFamilyA(w);
    case 0xB000 => DecodesFamilyB(w);
    case 0xC000 => DecodesFamilyC(w);
    case 0xD000 => DecodesFamilyD(w);
    case 0xE000 => DecodesFamilyE(w);
    case 0xF000 => DecodesFamilyF(w);
    case _ =>
  }

  // One lemma per family nibble, so that each proof obligation stays small.

  lemma DecodesFamily0(w: bv16)
    requires w & 0xF000 == 0x0000
    ensures Decodes(w, Decode(w))
  {
  }

  lemma DecodesFamily1(w: bv16)
    requires w & 0xF000 == 0x1000
    ensures Decodes(w, Decode(w))
  {
    assert Decode(w) == Jump(w & 0x0FFF);
    assert Recognized(w);
  }

  lemma DecodesFamily2(w: bv16)
    requires w & 0xF000 == 0x2000
    ensures Decodes(w, Decode(w))
  {
    assert Decode(w) == Call(w & 0x0FFF);
    assert Recognized(w);
  }

  lemma DecodesFamily3(w: bv16)
    requires w & 0xF000 == 0x3000
    ensures Decodes(w, Decode(w))
  {
    assert Decode(w) == SkipEq(OperandX(w), (w & 0xFF) as bv8);
    assert Recognized(w);
  }

  lemma DecodesFamily4(w: bv16)
    requires w & 0xF000 == 0x4000
    ensures Decodes(w, Decode(w))
  {
    assert Decode(w) == SkipNeq(OperandX(w), (w & 0xFF) as bv8);
    assert Recognized(w);
  }

  lemma DecodesFamily5(w: bv16)
    requires w & 0xF000 == 0x5000
    ensures Decodes(w, Decode(w))
  {
    assert Decode(w) == SkipRegEq(OperandX(w), OperandY(w));
    assert Recognized(w);
  }

  lemma DecodesFamily6(w: bv16)
    requires w & 0xF000 == 0x6000
    ensures Decodes(w, Decode(w))
  {
    assert Decode(w) == Set(OperandX(w), (w & 0xFF) as bv8);
    assert Recognized(w);
  }

  lemma DecodesFamily7(w: bv16)
    requires w & 0xF000 == 0x7000
    ensures Decodes(w, Decode(w))
  {
    assert Decode(w) == Add(OperandX(w), (w & 0xFF) as bv8);
    assert Recognized(w);
  }

  lemma DecodesFamily8(w: bv16)
    requires w & 0xF000 == 0x8000
    ensures Decodes(w, Decode(w))
  {
  }

  lemma DecodesFamily9(w: bv16)
    requires w & 0xF000 == 0x9000
    ensures Decodes(w, Decode(w))
  {
    assert Decode(w) == SkipRegNeq(OperandX(w), OperandY(w));
    assert Recognized(w);
  }

  lemma DecodesFamilyA(w: bv16)
    requires w & 0xF000 == 0xA000
    ensures Decodes(w, Decode(w))
  {
    assert Decode(w) == SetI(w & 0x0FFF);
    assert Recognized(w);
  }

  lemma DecodesFamilyB(w: bv16)
    requires w & 0xF000 == 0xB000
    ensures Decodes(w, Decode(w))
  {
    assert Decode(w) == JumpV0(w & 0x0FFF);
    assert Recognized(w);
  }

  lemma DecodesFamilyC(w: bv16)
    requires w & 0xF000 == 0xC000
    ensures Decodes(w, Decode(w))
  {
    assert Decode(w) == Rand(OperandX(w), (w & 0xFF) as bv8);
    assert Recognized(w);
  }

  lemma DecodesFamilyD(w: bv16)
    requires w & 0xF000 == 0xD000
    ensures Decodes(w, Decode(w))
  {
    assert Decode(w) == Draw(OperandX(w), OperandY(w), (w & 0xF) as bv8);
    assert Recognized(w);
  }

  lemma DecodesFamilyE(w: bv16)
    requires w & 0xF000 == 0xE000
    ensures Decodes(w, Decode(w))
  {
  }

  lemma DecodesFamilyF(w: bv16)
    requires w & 0xF000 == 0xF000
    ensures Decodes(w, Decode(w))
  {
  }

  /** Register operands always name a general register, the one numbered
      by bits 11-8 (first operand) or 7-4 (second operand); never I or PC.
      Immediates are the low byte, the sprite height is the low nibble, and
      every address fits in twelve bits. */
  lemma DecodeOperands(w: bv16)
    ensures var ins := Decode(w);
      && (ins.HasX() ==> ins.x.V? && ins.x.x == ((w >> 8) & 0xF) as bv4)
      && (ins.HasY() ==> ins.y.V? && ins.y.x == ((w >> 4) & 0xF) as bv4)
      && (ins.HasImmediate() ==> ins.value == (w & 0xFF) as bv8)
      && (ins.Draw? ==> ins.height == (w & 0xF) as bv8 && ins.height < 16)
      && (ins.HasAddress() ==> ins.address < 0x1000)
  {
    DecodeCorrect(w);
  }

  /** Family 0 compares the whole word: three literal words have a meaning,
      every other 0NNN word falls back. */
  lemma DecodeSystemWords(w: bv16)
    requires w & 0xF000 == 0
    ensures w == 0x0000 <==> Decode(w) == Nop
    ensures w == 0x00E0 <==> Decode(w) == ClearScreen
    ensures w == 0x00EE <==> Decode(w) == Return
    ensures (w != 0x0000 && w != 0x00E0 && w != 0x00EE) <==> Decode(w) == Fallback
  {
  }

  /** Families 5 and 9 decode to a register comparison whatever the low
      nibble holds. */
  lemma DecodeIgnoresSkipLowNibble(w: bv16)
    requires w & 0xF000 == 0x5000 || w & 0xF000 == 0x9000
    ensures Decode(w).SkipRegEq? <==> w & 0xF000 == 0x5000
    ensures Decode(w).SkipRegNeq? <==> w & 0xF000 == 0x9000
    ensures Decode(w) == Decode(w & 0xFFF0)
  {
  }

  /** Family 8 selects its operation by `w & 0xF00F`, families E and F by
      `w & 0xF0FF`: the word falls back exactly when the selector is none of
      the sub-opcodes, and the selector alone chooses the operation, so two
      words of the same family with the same selector decode to the same
      operation on their own register operands. */
  lemma DecodeSubTables(w: bv16, w': bv16)
    requires w & 0xF000 == w' & 0xF000
    requires w & 0xF000 == 0x8000 || w & 0xF000 == 0xE000 || w & 0xF000 == 0xF000
    ensures w & 0xF000 == 0x8000 ==>
      (Decode(w) == Fallback <==>
         w & 0xF00F !in {0x8000, 0x8001, 0x8002, 0x8003, 0x8004, 0x8005,
                         0x8006, 0x8007, 0x800E})
    ensures w & 0xF000 == 0xE000 ==>
      (Decode(w) == Fallback <==> w & 0xF0FF !in {0xE09E, 0xE0A1})
    ensures w & 0xF000 == 0xF000 ==>
      (Decode(w) == Fallback <==>
         w & 0xF0FF !in {0xF007, 0xF00A, 0xF015, 0xF018, 0xF01E, 0xF029,
                         0xF033, 0xF055, 0xF065})
    ensures w & 0xF000 == 0x8000 && Recognized(w) && w & 0xF00F == w' & 0xF00F
            ==> Decode(w).HasY()
                && Decode(w') == Decode(w).(x := OperandX(w'), y := OperandY(w'))
    ensures w & 0xF000 != 0x8000 && Recognized(w) && w & 0xF0FF == w' & 0xF0FF
            ==> Decode(w).HasX()
                && Decode(w') == Decode(w).(x := OperandX(w'))
  {
    if w & 0xF000 == 0x8000 {
      ArithmeticSelector(w, w');
    } else if w & 0xF000 == 0xE000 {
      KeySelector(w, w');
    } else {
      MiscSelector(w, w');
    }
  }

  // One lemma per sub-table, so that each proof obligation stays small.

  lemma ArithmeticSelector(w: bv16, w': bv16)
    requires w & 0xF000 == 0x8000 && w' & 0xF000 == 0x8000
    ensures Decode(w) == Fallback <==>
      w & 0xF00F !in {0x8000, 0x8001, 0x8002, 0x8003, 0x8004, 0x8005,
                      0x8006, 0x8007, 0x800E}
    ensures Recognized(w) && w & 0xF00F == w' & 0xF00F
            ==> Decode(w).HasY()
                && Decode(w') == Decode(w).(x := OperandX(w'), y := OperandY(w'))
  {
    assert Decode(w) == DecodeArithmetic(w, OperandX(w), OperandY(w));
    assert Decode(w') == DecodeArithmetic(w', OperandX(w'), OperandY(w'));
  }

  lemma KeySelector(w: bv16, w': bv16)
    requires w & 0xF000 == 0xE000 && w' & 0xF000 == 0xE000
    ensures Decode(w) == Fallback <==> w & 0xF0FF !in {0xE09E, 0xE0A1}
    ensures Recognized(w) && w & 0xF0FF == w' & 0xF0FF
            ==> Decode(w).HasX() && Decode(w') == Decode(w).(x := OperandX(w'))
  {
    assert Decode(w) == DecodeKeys(w, OperandX(w));
    assert Decode(w') == DecodeKeys(w', OperandX(w'));
  }

  lemma MiscSelector(w: bv16, w': bv16)
    requires w & 0xF000 == 0xF000 && w' & 0xF000 == 0xF000
    ensures Decode(w) == Fallback <==>
      w & 0xF0FF !in {0xF007, 0xF00A, 0xF015, 0xF018, 0xF01E, 0xF029,
                      0xF033, 0xF055, 0xF065}
    ensures Recognized(w) && w & 0xF0FF == w' & 0xF0FF
            ==> Decode(w).HasX() && Decode(w') == Decode(w).(x := OperandX(w'))
  {
    assert Decode(w) == DecodeMisc(w, OperandX(w));
    assert Decode(w') == DecodeMisc(w', OperandX(w'));
  }

  /** Encoding undoes decoding on the words the decoder recognises, up to
      the low nibble that families 5 and 9 ignore; every other word decodes
      to the fallback jump. */
  lemma EncodeDecode(w: bv16)
    ensures Recognized(w) ==> Decode(w).WellFormed() && !Decode(w).NativeCall?
    ensures Recognized(w) ==> Encode(Decode(w)) == Significant(w)
    ensures Canonical(w) ==> Encode(Decode(w)) == w
    ensures !Recognized(w) ==> Decode(w) == Fallback
  {
    DecodeCorrect(w);
  }

  /** On canonical words decoding is injective. */
  lemma DecodeInjective(w: bv16, w': bv16)
    requires Canonical(w) && Canonical(w')
    requires Decode(w) == Decode(w')
    ensures w == w'
  {
    EncodeDecode(w);
    EncodeDecode(w');
  }

  /** Decoding undoes encoding: every well-formed instruction other than
      the native call, which the decoder never produces, survives the round
      trip. */
  lemma DecodeEncode(ins: Instruction)
    requires ins.WellFormed() && !ins.NativeCall?
    ensures Decode(Encode(ins)) == ins
  {
    if ins.HasY() {
      DecodeEncodeTwoRegisters(ins);
    } else if ins.HasX() {
      DecodeEncodeOneRegister(ins);
    } else {
      DecodeEncodeNoRegister(ins);
    }
  }

  /** The round trip for the variants without register operands. */
  lemma DecodeEncodeNoRegister(ins: Instruction)
    requires ins.WellFormed() && !ins.NativeCall? && !ins.HasX()
    ensures Decode(Encode(ins)) == ins
  {
    match ins
    case Nop => DecodeEncodeSystem();
    case ClearScreen => DecodeEncodeSystem();
    case Return => DecodeEncodeSystem();
    case Jump(a) => DecodeEncodeJump(a);
    case Call(a) => DecodeEncodeCall(a);
    case SetI(a) => DecodeEncodeSetI(a);
    case JumpV0(a) => DecodeEncodeJumpV0(a);
    case _ => assert false;
  }

  /** The round trip for the variants with one register operand. */
  lemma DecodeEncodeOneRegister(ins: Instruction)
    requires ins.WellFormed() && ins.HasX() && !ins.HasY()
    ensures Decode(Encode(ins)) == ins
  {
    match ins
    case SkipEq(x, n) => DecodeEncodeSkipEq(x, n);
    case SkipNeq(x, n) => DecodeEncodeSkipNeq(x, n);
    case Set(x, n) => DecodeEncodeSet(x, n);
    case Add(x, n) => DecodeEncodeAdd(x, n);
    case Rand(x, n) => DecodeEncodeRand(x, n);
    case SkipKey(x) => DecodeEncodeSkipKey(x);
    case SkipNotKey(x) => DecodeEncodeSkipNotKey(x);
    case GetDelay(x) => DecodeEncodeGetDelay(x);
    case WaitKey(x) => DecodeEncodeWaitKey(x);
    case SetDelay(x) => DecodeEncodeSetDelay(x);
    case SetSound(x) => DecodeEncodeSetSound(x);
    case AddI(x) => DecodeEncodeAddI(x);
    case Sprite(x) => DecodeEncodeSprite(x);
    case Bcd(x) => DecodeEncodeBcd(x);
    case Dump(x) => DecodeEncodeDump(x);
    case Load(x) => DecodeEncodeLoad(x);
    case _ => assert false;
  }

  /** The round trip for the variants with two register operands. */
  lemma DecodeEncodeTwoRegisters(ins: Instruction)
    requires ins.WellFormed() && ins.HasY()
    ensures Decode(Encode(ins)) == ins
  {
    match ins
    case SkipRegEq(x, y) => DecodeEncodeSkipRegEq(x, y);
    case Copy(x, y) => DecodeEncodeCopy(x, y);
    case Or(x, y) => DecodeEncodeOr(x, y);
    case And(x, y) => DecodeEncodeAnd(x, y);
    case Xor(x, y) => DecodeEncodeXor(x, y);
    case AddReg(x, y) => DecodeEncodeAddReg(x, y);
    case SubX(x, y) => DecodeEncodeSubX(x, y);
    case ShiftRight(x, y) => DecodeEncodeShiftRight(x, y);
    case SubY(x, y) => DecodeEncodeSubY(x, y);
    case ShiftLeft(x, y) => DecodeEncodeShiftLeft(x, y);
    case SkipRegNeq(x, y) => DecodeEncodeSkipRegNeq(x, y);
    case Draw(x, y, h) => DecodeEncodeDraw(x, y, h);
    case _ => assert false;
  }

  // One lemma per variant, so that each proof obligation stays small.

  lemma DecodeEncodeSystem()
    ensures Decode(Encode(Nop)) == Nop
    ensures Decode(Encode(ClearScreen)) == ClearScreen
    ensures Decode(Encode(Return)) == Return
  {
  }

  lemma DecodeEncodeJump(a: bv16)
    requires a < 0x1000
    ensures Decode(Encode(Jump(a))) == Jump(a)
  {
  }

  lemma DecodeEncodeCall(a: bv16)
    requires a < 0x1000
    ensures Decode(Encode(Call(a))) == Call(a)
  {
  }

  lemma DecodeEncodeSkipEq(x: Reg, n: bv8)
    requires x.V?
    ensures Decode(Encode(SkipEq(x, n))) == SkipEq(x, n)
  {
  }

  lemma DecodeEncodeSkipNeq(x: Reg, n: bv8)
    requires x.V?
    ensures Decode(Encode(SkipNeq(x, n))) == SkipNeq(x, n)
  {
  }

  lemma DecodeEncodeSkipRegEq(x: Reg, y: Reg)
    requires x.V? && y.V?
    ensures Decode(Encode(SkipRegEq(x, y))) == SkipRegEq(x, y)
  {
  }

  lemma DecodeEncodeSet(x: Reg, n: bv8)
    requires x.V?
    ensures Decode(Encode(Set(x, n))) == Set(x, n)
  {
  }

  lemma DecodeEncodeAdd(x: Reg, n: bv8)
    requires x.V?
    ensures Decode(Encode(Add(x, n))) == Add(x, n)
  {
  }

  lemma DecodeEncodeCopy(x: Reg, y: Reg)
    requires x.V? && y.V?
    ensures Decode(Encode(Copy(x, y))) == Copy(x, y)
  {
  }

  lemma DecodeEncodeOr(x: Reg, y: Reg)
    requires x.V? && y.V?
    ensures Decode(Encode(Or(x, y))) == Or(x, y)
  {
  }

  lemma DecodeEncodeAnd(x: Reg, y: Reg)
    requires x.V? && y.V?
    ensures Decode(Encode(And(x, y))) == And(x, y)
  {
  }

  lemma DecodeEncodeXor(x: Reg, y: Reg)
    requires x.V? && y.V?
    ensures Decode(Encode(Xor(x, y))) == Xor(x, y)
  {
  }

  lemma DecodeEncodeAddReg(x: Reg, y: Reg)
    requires x.V? && y.V?
    ensures Decode(Encode(AddReg(x, y))) == AddReg(x, y)
  {
  }

  lemma DecodeEncodeSubX(x: Reg, y: Reg)
    requires x.V? && y.V?
    ensures Decode(Encode(SubX(x, y))) == SubX(x, y)
  {
  }

  lemma DecodeEncodeShiftRight(x: Reg, y: Reg)
    requires x.V? && y.V?
    ensures Decode(Encode(ShiftRight(x, y))) == ShiftRight(x, y)
  {
  }

  lemma DecodeEncodeSubY(x: Reg, y: Reg)
    requires x.V? && y.V?
    ensures Decode(Encode(SubY(x, y))) == SubY(x, y)
  {
  }

  lemma DecodeEncodeShiftLeft(x: Reg, y: Reg)
    requires x.V? && y.V?
    ensures Decode(Encode(ShiftLeft(x, y))) == ShiftLeft(x, y)
  {
  }

  lemma DecodeEncodeSkipRegNeq(x: Reg, y: Reg)
    requires x.V? && y.V?
    ensures Decode(Encode(SkipRegNeq(x, y))) == SkipRegNeq(x, y)
  {
  }

  lemma DecodeEncodeSetI(a: bv16)
    requires a < 0x1000
    ensures Decode(Encode(SetI(a))) == SetI(a)
  {
  }

  lemma DecodeEncodeJumpV0(a: bv16)
    requires a < 0x1000
    ensures Decode(Encode(JumpV0(a))) == JumpV0(a)
  {
  }

  lemma DecodeEncodeRand(x: Reg, n: bv8)
    requires x.V?
    ensures Decode(Encode(Rand(x, n))) == Rand(x, n)
  {
  }

  lemma DecodeEncodeDraw(x: Reg, y: Reg, h: bv8)
    requires x.V? && y.V? && h < 16
    ensures Decode(Encode(Draw(x, y, h))) == Draw(x, y, h)
  {
  }

  lemma DecodeEncodeSkipKey(x: Reg)
    requires x.V?
    ensures Decode(Encode(SkipKey(x))) == SkipKey(x)
  {
  }

  lemma DecodeEncodeSkipNotKey(x: Reg)
    requires x.V?
    ensures Decode(Encode(SkipNotKey(x))) == SkipNotKey(x)
  {
  }

  lemma DecodeEncodeGetDelay(x: Reg)
    requires x.V?
    ensures Decode(Encode(GetDelay(x))) == GetDelay(x)
  {
  }

  lemma DecodeEncodeWaitKey(x: Reg)
    requires x.V?
    ensures Decode(Encode(WaitKey(x))) == WaitKey(x)
  {
  }

  lemma DecodeEncodeSetDelay(x: Reg)
    requires x.V?
    ensures Decode(Encode(SetDelay(x))) == SetDelay(x)
  {
  }

  lemma DecodeEncodeSetSound(x: Reg)
    requires x.V?
    ensures Decode(Encode(SetSound(x))) == SetSound(x)
  {
  }

  lemma DecodeEncodeAddI(x: Reg)
    requires x.V?
    ensures Decode(Encode(AddI(x))) == AddI(x)
  {
  }

  lemma DecodeEncodeSprite(x: Reg)
    requires x.V?
    ensures Decode(Encode(Sprite(x))) == Sprite(x)
  {
  }

  lemma DecodeEncodeBcd(x: Reg)
    requires x.V?
    ensures Decode(Encode(Bcd(x))) == Bcd(x)
  {
  }

  lemma DecodeEncodeDump(x: Reg)
    requires x.V?
    ensures Decode(Encode(Dump(x))) == Dump(x)
  {
  }

  lemma DecodeEncodeLoad(x: Reg)
    requires x.V?
    ensures Decode(Encode(Load(x))) == Load(x)
  {
  }

}
