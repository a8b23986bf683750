/** The machine state of the interpreter (`struct CPU`, src/main.rs:97-101)
    and the operations on it: power-on and reset, placing a program image,
    fetching a word, executing a decoded instruction and one full cycle
    (src/main.rs:106-276). */
module Machine {
  import opened RegisterFile
  import opened Instructions
  import opened Decoder

  const MemorySize: nat := 4096

  /** Programs are placed, and start running, at this address
      (src/main.rs:110-112). */
  const ProgramStart: nat := 0x200

  type Memory = m: seq<bv8> | |m| == MemorySize witness seq(MemorySize, _ => 0 as bv8)

  /** The whole machine: registers, 4096 bytes of memory and the call
      stack, which is an unbounded vector in the source. */
  datatype Cpu = Cpu(regs: Registers, memory: Memory, stack: seq<bv16>)

  /** The state of a machine just reset: every register zero, every memory
      cell zero, and a stack holding sixteen zero entries (the source creates
      the stack as sixteen zeros, not empty). */
  ghost predicate IsReset(c: Cpu) {
    && (forall t :: Read(c.regs, t) == 0)
    && (forall a :: 0 <= a < |c.memory| ==> c.memory[a] == 0)
    && |c.stack| == 16
    && (forall k :: 0 <= k < |c.stack| ==> c.stack[k] == 0)
  }

  /** `CPU::new` (src/main.rs:128-134). */
  function NewCpu(): (c: Cpu)
    ensures IsReset(c)
  {
    Cpu(NewRegisters(), seq(MemorySize, _ => 0), seq(16, _ => 0))
  }

  /** `CPU::initialize` (src/main.rs:136-158): each register is cleared by
      XOR-ing it with itself, memory and stack are replaced. */
  function Initialize(c: Cpu): (r: Cpu)
    ensures IsReset(r)
  {
    var v := c.regs.v;
    var regs := Registers(seq(16, k requires 0 <= k < 16 => v[k] ^ v[k]),
                          c.regs.i ^ c.regs.i, c.regs.pc ^ c.regs.pc);
    Cpu(regs, seq(MemorySize, _ => 0), seq(16, _ => 0))
  }

  /** There is exactly one reset state. */
  lemma ResetIsUnique(a: Cpu, b: Cpu)
    requires IsReset(a) && IsReset(b)
    ensures a == b
  {
    ReadDeterminesRegisters(a.regs, b.regs);
    assert a.memory == b.memory;
    assert a.stack == b.stack;
  }

  /** Re-initialising any machine gives the power-on state. */
  lemma InitializeIsNew(c: Cpu)
    ensures Initialize(c) == NewCpu()
  {
    ResetIsUnique(Initialize(c), NewCpu());
  }

  /** The memory-placement part of `load_rom` (src/main.rs:109-112): copies
      the image byte by byte to memory starting at 0x200 and points PC at it.
      An image that does not fit makes the source index past the end of
      memory, so it is excluded here. */
  method LoadRom(c: Cpu, rom: seq<bv8>) returns (r: Cpu)
    requires |rom| <= MemorySize - ProgramStart
    ensures forall k :: 0 <= k < |rom| ==> r.memory[ProgramStart + k] == rom[k]
    ensures forall a :: 0 <= a < MemorySize && !(ProgramStart <= a < ProgramStart + |rom|)
              ==> r.memory[a] == c.memory[a]
    ensures r.regs.pc == ProgramStart as bv16
    ensures r.regs.v == c.regs.v && r.regs.i == c.regs.i && r.stack == c.stack
  {
    var memory: Memory := c.memory;
    for y := 0 to |rom|
      invariant forall k :: 0 <= k < y ==> memory[ProgramStart + k] == rom[k]
      invariant forall a :: 0 <= a < ProgramStart ==> memory[a] == c.memory[a]
      invariant forall a :: ProgramStart + y <= a < MemorySize ==> memory[a] == c.memory[a]
    {
      memory := memory[ProgramStart + y := rom[y]];
    }
    r := c.(regs := c.regs.(pc := ProgramStart as bv16), memory := memory);
  }

  /** The PC addresses a whole instruction word in memory; reading past the
      end of memory panics in the source. */
  predicate CanFetch(c: Cpu) {
    c.regs.pc as int + 1 < MemorySize
  }

  datatype Fetched = Fetched(word: bv16, cpu: Cpu)

  /** `CPU::fetch_instruction` (src/main.rs:119-126). */
  function Fetch(c: Cpu): (f: Fetched)
    requires CanFetch(c)
    ensures f.word >> 8 == c.memory[c.regs.pc] as bv16
    ensures f.word & 0xFF == c.memory[c.regs.pc as int + 1] as bv16
    ensures f.cpu.regs.pc as int == c.regs.pc as int + 2
    ensures f.cpu.regs.v == c.regs.v && f.cpu.regs.i == c.regs.i
    ensures f.cpu.memory == c.memory && f.cpu.stack == c.stack
  {
    var pc := c.regs.pc;
    var high := c.memory[pc];
    var low := c.memory[pc as int + 1];
    AdvanceByTwo(pc);
    Fetched(((high as bv16) << 8) | (low as bv16), c.(regs := c.regs.(pc := pc + 2)))
  }

  /** Adding 2 to a program counter that lies in memory does not wrap. */
  lemma AdvanceByTwo(pc: bv16)
    requires pc as int + 1 < MemorySize
    ensures (pc + 2) as int == pc as int + 2
  {
    assert pc < 4095;
  }

  /** The fetched word, read as a number, is the byte at PC times 256 plus
      the byte after it: memory holds instructions high byte first. */
  lemma FetchIsBigEndian(c: Cpu)
    requires CanFetch(c)
    ensures Fetch(c).word as int
              == c.memory[c.regs.pc] as int * 256 + c.memory[c.regs.pc as int + 1] as int
  {
    WordOfHalves(Fetch(c).word, c.memory[c.regs.pc], c.memory[c.regs.pc as int + 1]);
  }

  /** A word with the given high and low byte is the number high * 256 + low. */
  lemma WordOfHalves(w: bv16, high: bv8, low: bv8)
    requires w >> 8 == high as bv16 && w & 0xFF == low as bv16
    ensures w as int == high as int * 256 + low as int
  {
    assert w == ((high as bv16) << 8) | (low as bv16);
    WordOfBytes(high, low);
  }

  /** Two bytes combined high-byte-first form the number high * 256 + low. */
  lemma WordOfBytes(high: bv8, low: bv8)
    ensures (((high as bv16) << 8) | (low as bv16)) as int == high as int * 256 + low as int
  {
  }

  /** `CPU::SET` (src/main.rs:250-272): writes the named register only; a
      value written to I or PC is zero-extended. */
  function SetRegister(c: Cpu, target: Reg, value: bv8): (r: Cpu)
    ensures Read(r.regs, target) == value as bv16
    ensures forall t :: t != target ==> Read(r.regs, t) == Read(c.regs, t)
    ensures r.memory == c.memory && r.stack == c.stack
  {
    match target
    case V(x) => c.(regs := c.regs.(v := c.regs.v[x as int := value]))
    case I => c.(regs := c.regs.(i := value as bv16))
    case PC => c.(regs := c.regs.(pc := value as bv16))
  }

  /** `CPU::SETI` (src/main.rs:241-243): sets I only. */
  function SetIndex(c: Cpu, value: bv16): (r: Cpu)
    ensures Read(r.regs, I) == value
    ensures forall t :: t != I ==> Read(r.regs, t) == Read(c.regs, t)
    ensures r.memory == c.memory && r.stack == c.stack
  {
    c.(regs := c.regs.(i := value))
  }

  /** `CPU::JUMP` (src/main.rs:274-276): sets PC only. */
  function JumpTo(c: Cpu, address: bv16): (r: Cpu)
    ensures Read(r.regs, PC) == address
    ensures forall t :: t != PC ==> Read(r.regs, t) == Read(c.regs, t)
    ensures r.memory == c.memory && r.stack == c.stack
  {
    c.(regs := c.regs.(pc := address))
  }

  /** `CPU::Call` (src/main.rs:245-248): pushes exactly one entry, the PC
      before the call, and jumps. */
  function CallSubroutine(c: Cpu, address: bv16): (r: Cpu)
    ensures |r.stack| == |c.stack| + 1
    ensures r.stack[..|c.stack|] == c.stack && r.stack[|c.stack|] == c.regs.pc
    ensures Read(r.regs, PC) == address
    ensures forall t :: t != PC ==> Read(r.regs, t) == Read(c.regs, t)
    ensures r.memory == c.memory
  {
    c.(stack := c.stack + [c.regs.pc], regs := c.regs.(pc := address))
  }

  /** The register an instruction writes, if `execute` gives it an effect. */
  predicate Writes(ins: Instruction, t: Reg) {
    || ((ins.Call? || ins.Jump?) && t == PC)
    || (ins.Set? && t == ins.x)
    || (ins.SetI? && t == I)
  }

  /** `CPU::execute` (src/main.rs:231-239): a call pushes the current PC and
      jumps, a jump sets PC, `SET` writes its register and `SETI` sets I;
      every other instruction leaves the machine exactly as it was. */
  function Execute(c: Cpu, ins: Instruction): (r: Cpu)
    ensures r.memory == c.memory
    ensures forall t :: Read(r.regs, t) != Read(c.regs, t) ==> Writes(ins, t)
    ensures !ins.Call? ==> r.stack == c.stack
    ensures !(ins.Call? || ins.Jump? || ins.Set? || ins.SetI?) ==> r == c
    ensures ins.Call? ==> r.stack == c.stack + [c.regs.pc] && r.regs.pc == ins.address
    ensures ins.Jump? ==> r.regs.pc == ins.address
    ensures ins.Set? ==> Read(r.regs, ins.x) == ins.value as bv16
    ensures ins.SetI? ==> r.regs.i == ins.address
  {
    if ins.Call? then CallSubroutine(c, ins.address)
    else if ins.Jump? then JumpTo(c, ins.address)
    else if ins.Set? then SetRegister(c, ins.x, ins.value)
    else if ins.SetI? then SetIndex(c, ins.address)
    else c
  }

  /** `CPU::cycle` (src/main.rs:160-164): fetch, decode, execute. No cycle
      writes memory, and the only change to the stack is a push of the
      address after the fetched word. */
  function Cycle(c: Cpu): (r: Cpu)
    requires CanFetch(c)
    ensures r.memory == c.memory
    ensures r.stack == c.stack || r.stack == c.stack + [c.regs.pc + 2]
  {
    var f := Fetch(c);
    Execute(f.cpu, Decode(f.word))
  }
}
