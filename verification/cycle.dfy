/** Properties of whole interpreter cycles (`CPU::cycle`, src/main.rs:160-164),
    stated on the two bytes at PC rather than on the decoded instruction. */
module CycleProperties {
  import opened RegisterFile
  import opened Instructions
  import opened Decoder
  import opened Machine

  /** The top nibble of the byte at PC. */
  function FamilyAt(c: Cpu): bv8
    requires CanFetch(c)
  {
    c.memory[c.regs.pc] >> 4
  }

  /** The twelve-bit address held in the word at PC. */
  function AddressAt(c: Cpu): bv16
    requires CanFetch(c)
  {
    (((c.memory[c.regs.pc] & 0x0F) as bv16) << 8) | (c.memory[c.regs.pc as int + 1] as bv16)
  }

  /** The bit fields of the fetched word, read off the two bytes at PC. */
  lemma FetchedFields(c: Cpu)
    requires CanFetch(c)
    ensures var w := Fetch(c).word;
      && w & 0xF000 == (FamilyAt(c) as bv16) << 12
      && OperandX(w) == V((c.memory[c.regs.pc] & 0x0F) as bv4)
      && (w & 0xFF) as bv8 == c.memory[c.regs.pc as int + 1]
      && w & 0x0FFF == AddressAt(c)
  {
    FetchedFamily(c);
    FetchedRegister(c);
    FetchedLowByte(c);
    FetchedAddress(c);
  }

  lemma FetchedFamily(c: Cpu)
    requires CanFetch(c)
    ensures Fetch(c).word & 0xF000 == (FamilyAt(c) as bv16) << 12
  {
    FamilyOfHighByte(Fetch(c).word, c.memory[c.regs.pc]);
  }

  lemma FetchedRegister(c: Cpu)
    requires CanFetch(c)
    ensures OperandX(Fetch(c).word) == V((c.memory[c.regs.pc] & 0x0F) as bv4)
  {
    RegisterOfHighByte(Fetch(c).word, c.memory[c.regs.pc]);
  }

  lemma FetchedLowByte(c: Cpu)
    requires CanFetch(c)
    ensures (Fetch(c).word & 0xFF) as bv8 == c.memory[c.regs.pc as int + 1]
  {
    LowByteOfWord(Fetch(c).word, c.memory[c.regs.pc as int + 1]);
  }

  lemma FetchedAddress(c: Cpu)
    requires CanFetch(c)
    ensures Fetch(c).word & 0x0FFF == AddressAt(c)
  {
    var high, low := c.memory[c.regs.pc], c.memory[c.regs.pc as int + 1];
    AddressOfBytes(Fetch(c).word, high, low);
    assert AddressAt(c) == (((high & 0x0F) as bv16) << 8) | (low as bv16);
  }

  // One lemma per bit field of a word given by its high and low byte.

  lemma FamilyOfHighByte(w: bv16, high: bv8)
    requires w >> 8 == high as bv16
    ensures w & 0xF000 == ((high >> 4) as bv16) << 12
  {
  }

  lemma RegisterOfHighByte(w: bv16, high: bv8)
    requires w >> 8 == high as bv16
    ensures OperandX(w) == V((high & 0x0F) as bv4)
  {
  }

  lemma LowByteOfWord(w: bv16, low: bv8)
    requires w & 0xFF == low as bv16
    ensures (w & 0xFF) as bv8 == low
  {
  }

  lemma AddressOfBytes(w: bv16, high: bv8, low: bv8)
    requires w >> 8 == high as bv16 && w & 0xFF == low as bv16
    ensures w & 0x0FFF == (((high & 0x0F) as bv16) << 8) | (low as bv16)
  {
  }

  /** A call word 2NNN at address p pushes p + 2, the address of the word
      after the call, and continues at NNN; registers other than PC and all
      of memory are untouched. */
  lemma CycleCallPushesReturnAddress(c: Cpu)
    requires CanFetch(c) && FamilyAt(c) == 0x2
    ensures Cycle(c).stack == c.stack + [c.regs.pc + 2]
    ensures Cycle(c).regs.pc == AddressAt(c)
    ensures Cycle(c).regs.v == c.regs.v && Cycle(c).regs.i == c.regs.i
    ensures Cycle(c).memory == c.memory
  {
    var w := Fetch(c).word;
    FetchedFields(c);
    assert Decode(w) == Call(AddressAt(c));
  }

  /** A jump word 1NNN continues at NNN and changes nothing else. */
  lemma CycleJump(c: Cpu)
    requires CanFetch(c) && FamilyAt(c) == 0x1
    ensures Cycle(c) == c.(regs := c.regs.(pc := AddressAt(c)))
  {
    var w := Fetch(c).word;
    FetchedFields(c);
    assert Decode(w) == Jump(AddressAt(c));
  }

  /** A word 6XNN writes NN into VX, advances PC by 2 and changes nothing
      else. */
  lemma CycleSet(c: Cpu)
    requires CanFetch(c) && FamilyAt(c) == 0x6
    ensures var x := V((c.memory[c.regs.pc] & 0x0F) as bv4);
      && Read(Cycle(c).regs, x) == c.memory[c.regs.pc as int + 1] as bv16
      && (forall t :: t != x && t != PC ==> Read(Cycle(c).regs, t) == Read(c.regs, t))
    ensures Cycle(c).regs.pc as int == c.regs.pc as int + 2
    ensures Cycle(c).memory == c.memory && Cycle(c).stack == c.stack
  {
    DecodeSetAt(c);
  }

  /** The word 6XNN at PC decodes to a write of NN into VX. */
  lemma DecodeSetAt(c: Cpu)
    requires CanFetch(c) && FamilyAt(c) == 0x6
    ensures Decode(Fetch(c).word)
              == Set(V((c.memory[c.regs.pc] & 0x0F) as bv4), c.memory[c.regs.pc as int + 1])
  {
    var w := Fetch(c).word;
    FetchedFields(c);
    assert Decode(w) == Set(OperandX(w), (w & 0xFF) as bv8);
  }

  /** A word ANNN sets I to NNN, advances PC by 2 and changes nothing
      else. */
  lemma CycleSetIndex(c: Cpu)
    requires CanFetch(c) && FamilyAt(c) == 0xA
    ensures Cycle(c).regs.i == AddressAt(c)
    ensures Cycle(c).regs.pc as int == c.regs.pc as int + 2
    ensures Cycle(c).regs.v == c.regs.v
    ensures Cycle(c).memory == c.memory && Cycle(c).stack == c.stack
  {
    var w := Fetch(c).word;
    FetchedFields(c);
    assert Decode(w) == SetI(AddressAt(c));
  }

  /** A word that decodes to an instruction `execute` has no code for only
      advances PC by 2. */
  lemma CycleUnexecuted(c: Cpu)
    requires CanFetch(c)
    requires var ins := Decode(Fetch(c).word);
      !(ins.Call? || ins.Jump? || ins.Set? || ins.SetI?)
    ensures Cycle(c) == c.(regs := c.regs.(pc := c.regs.pc + 2))
  {
  }

  /** A word the decoder does not recognise sends the machine back to the
      program start and changes nothing else. */
  lemma CycleUnrecognised(c: Cpu)
    requires CanFetch(c) && !Recognized(Fetch(c).word)
    ensures Cycle(c) == c.(regs := c.regs.(pc := ProgramStart as bv16))
  {
    var f := Fetch(c);
    assert Decode(f.word) == Fallback;
    ExecuteFallback(f.cpu);
  }

  /** Executing the decoder's fallback is a jump to the program start. */
  lemma ExecuteFallback(c: Cpu)
    ensures Execute(c, Fallback) == c.(regs := c.regs.(pc := ProgramStart as bv16))
  {
    assert Fallback == Jump(0x200);
    assert ProgramStart as bv16 == 0x200;
    assert Execute(c, Jump(0x200)) == JumpTo(c, 0x200);
  }
}
