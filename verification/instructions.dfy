/** The decoded form of a CHIP-8 instruction word (src/main.rs:56-95), and an
    encoder that writes each well-formed instruction back as the word the
    CHIP-8 instruction set assigns to it. The encoder is the reference the
    decoder is proved against. */
module Instructions {
  import opened RegisterFile

  /** One variant per member of the source's `Instruction` enumeration, in
      the same order. `x` and `y` are the register operands (the source's
      `register`/`register1` and `register2`), `value` an 8-bit immediate and
      `address` a 12-bit address (the source's `SETI` calls it `value`). */
  datatype Instruction =
    | Nop                                   // 0000
    | NativeCall(address: bv16)             // 0NNN, never produced by the decoder
    | ClearScreen                           // 00E0, the source's `Display`
    | Return                                // 00EE
    | Jump(address: bv16)                   // 1NNN
    | Call(address: bv16)                   // 2NNN
    | SkipEq(x: Reg, value: bv8)            // 3XNN
    | SkipNeq(x: Reg, value: bv8)           // 4XNN
    | SkipRegEq(x: Reg, y: Reg)             // 5XY0
    | Set(x: Reg, value: bv8)               // 6XNN
    | Add(x: Reg, value: bv8)               // 7XNN
    | Copy(x: Reg, y: Reg)                  // 8XY0
    | Or(x: Reg, y: Reg)                    // 8XY1
    | And(x: Reg, y: Reg)                   // 8XY2
    | Xor(x: Reg, y: Reg)                   // 8XY3
    | AddReg(x: Reg, y: Reg)                // 8XY4
    | SubX(x: Reg, y: Reg)                  // 8XY5
    | ShiftRight(x: Reg, y: Reg)            // 8XY6
    | SubY(x: Reg, y: Reg)                  // 8XY7
    | ShiftLeft(x: Reg, y: Reg)             // 8XYE
    | SkipRegNeq(x: Reg, y: Reg)            // 9XY0
    | SetI(address: bv16)                   // ANNN
    | JumpV0(address: bv16)                 // BNNN
    | Rand(x: Reg, value: bv8)              // CXNN
    | Draw(x: Reg, y: Reg, height: bv8)     // DXYN
    | SkipKey(x: Reg)                       // EX9E
    | SkipNotKey(x: Reg)                    // EXA1
    | GetDelay(x: Reg)                      // FX07
    | WaitKey(x: Reg)                       // FX0A
    | SetDelay(x: Reg)                      // FX15
    | SetSound(x: Reg)                      // FX18
    | AddI(x: Reg)                          // FX1E
    | Sprite(x: Reg)                        // FX29
    | Bcd(x: Reg)                           // FX33
    | Dump(x: Reg)                          // FX55
    | Load(x: Reg)                          // FX65
  {
    /** The variant carries an `address` operand. */
    predicate HasAddress() {
      NativeCall? || Jump? || Call? || SetI? || JumpV0?
    }

    /** The variant carries an 8-bit immediate `value`. */
    predicate HasImmediate() {
      SkipEq? || SkipNeq? || Set? || Add? || Rand?
    }

    /** The variant carries a second register operand `y`. */
    predicate HasY() {
      SkipRegEq? || Copy? || Or? || And? || Xor? || AddReg? || SubX?
      || ShiftRight? || SubY? || ShiftLeft? || SkipRegNeq? || Draw?
    }

    /** The variant carries a first register operand `x`. */
    predicate HasX() {
      HasY() || HasImmediate() || SkipKey? || SkipNotKey? || GetDelay?
      || WaitKey? || SetDelay? || SetSound? || AddI? || Sprite? || Bcd?
      || Dump? || Load?
    }

    /** The operands fit the bit fields of an instruction word: general
        registers only, 12-bit addresses and a 4-bit sprite height. */
    predicate WellFormed() {
      match this
      case NativeCall(a) => a < 0x1000
      case Jump(a) => a < 0x1000
      case Call(a) => a < 0x1000
      case SetI(a) => a < 0x1000
      case JumpV0(a) => a < 0x1000
      case Draw(x, y, h) => x.V? && y.V? && h < 16
      case _ => (HasX() ==> x.V?) && (HasY() ==> y.V?)
    }
  }

  /** The register number of a general register, as a 16-bit value. */
  function Nibble(r: Reg): (n: bv16)
    requires r.V?
    ensures n < 16
  {
    r.x as bv16
  }

  /** The word of the CHIP-8 instruction set that denotes `ins`. */
  function Encode(ins: Instruction): (w: bv16)
    requires ins.WellFormed()
  {
    match ins
    case Nop => 0x0000
    case NativeCall(a) => a
    case ClearScreen => 0x00E0
    case Return => 0x00EE
    case Jump(a) => 0x1000 | a
    case Call(a) => 0x2000 | a
    case SkipEq(x, n) => 0x3000 | (Nibble(x) << 8) | (n as bv16)
    case SkipNeq(x, n) => 0x4000 | (Nibble(x) << 8) | (n as bv16)
    case SkipRegEq(x, y) => 0x5000 | (Nibble(x) << 8) | (Nibble(y) << 4)
    case Set(x, n) => 0x6000 | (Nibble(x) << 8) | (n as bv16)
    case Add(x, n) => 0x7000 | (Nibble(x) << 8) | (n as bv16)
    case Copy(x, y) => 0x8000 | (Nibble(x) << 8) | (Nibble(y) << 4)
    case Or(x, y) => 0x8001 | (Nibble(x) << 8) | (Nibble(y) << 4)
    case And(x, y) => 0x8002 | (Nibble(x) << 8) | (Nibble(y) << 4)
    case Xor(x, y) => 0x8003 | (Nibble(x) << 8) | (Nibble(y) << 4)
    case AddReg(x, y) => 0x8004 | (Nibble(x) << 8) | (Nibble(y) << 4)
    case SubX(x, y) => 0x8005 | (Nibble(x) << 8) | (Nibble(y) << 4)
    case ShiftRight(x, y) => 0x8006 | (Nibble(x) << 8) | (Nibble(y) << 4)
    case SubY(x, y) => 0x8007 | (Nibble(x) << 8) | (Nibble(y) << 4)
    case ShiftLeft(x, y) => 0x800E | (Nibble(x) << 8) | (Nibble(y) << 4)
    case SkipRegNeq(x, y) => 0x9000 | (Nibble(x) << 8) | (Nibble(y) << 4)
    case SetI(a) => 0xA000 | a
    case JumpV0(a) => 0xB000 | a
    case Rand(x, n) => 0xC000 | (Nibble(x) << 8) | (n as bv16)
    case Draw(x, y, h) => 0xD000 | (Nibble(x) << 8) | (Nibble(y) << 4) | (h as bv16)
    case SkipKey(x) => 0xE09E | (Nibble(x) << 8)
    case SkipNotKey(x) => 0xE0A1 | (Nibble(x) << 8)
    case GetDelay(x) => 0xF007 | (Nibble(x) << 8)
    case WaitKey(x) => 0xF00A | (Nibble(x) << 8)
    case SetDelay(x) => 0xF015 | (Nibble(x) << 8)
    case SetSound(x) => 0xF018 | (Nibble(x) << 8)
    case AddI(x) => 0xF01E | (Nibble(x) << 8)
    case Sprite(x) => 0xF029 | (Nibble(x) << 8)
    case Bcd(x) => 0xF033 | (Nibble(x) << 8)
    case Dump(x) => 0xF055 | (Nibble(x) << 8)
    case Load(x) => 0xF065 | (Nibble(x) << 8)
  }

  /** The words the decoder gives a meaning of their own to, stated on the
      top nibble and the low bits: all of families 1-7 and 9-D, three literal
      words of family 0, the nine sub-opcodes of family 8 and the defined low
      bytes of families E and F. */
  predicate Recognized(w: bv16) {
    var family := w >> 12;
    var low := w & 0xF;
    var lowByte := w & 0xFF;
    if family == 0x0 then w == 0x0000 || w == 0x00E0 || w == 0x00EE
    else if family == 0x8 then low <= 7 || low == 0xE
    else if family == 0xE then lowByte == 0x9E || lowByte == 0xA1
    else if family == 0xF then
      || lowByte == 0x07 || lowByte == 0x0A || lowByte == 0x15
      || lowByte == 0x18 || lowByte == 0x1E || lowByte == 0x29
      || lowByte == 0x33 || lowByte == 0x55 || lowByte == 0x65
    else true
  }

  /** A recognized word whose bits are all significant: families 5 and 9
      ignore their low nibble, so only the form with a zero low nibble is
      canonical. */
  predicate Canonical(w: bv16) {
    && Recognized(w)
    && ((w >> 12 == 0x5 || w >> 12 == 0x9) ==> w & 0xF == 0)
  }

  /** Encoding never produces a word the decoder would ignore. */
  lemma EncodeIsCanonical(ins: Instruction)
    requires ins.WellFormed() && !ins.NativeCall?
    ensures Canonical(Encode(ins))
  {
  }
}
