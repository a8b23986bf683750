/** The register file of the CHIP-8 interpreter: sixteen 8-bit general
    registers V0..VF, the 16-bit index register I and the 16-bit program
    counter PC, together with the register identifiers the decoder hands to
    the executor (src/main.rs:6-52). */
module RegisterFile {

  /** A register identifier. The sixteen general registers V0..VF are
      identified by their number, so that V(0xA) is VA; `I` and `PC` are the
      two 16-bit registers that share the same identifier space. */
  datatype Reg = V(x: bv4) | I | PC

  /** The sixteen general registers, indexed by register number. */
  type Bank = s: seq<bv8> | |s| == 16 witness seq(16, _ => 0 as bv8)

  datatype Registers = Registers(v: Bank, i: bv16, pc: bv16)

  /** Maps a register number to its identifier; any value outside 0x0..0xF
      becomes PC (src/main.rs:31-50). */
  function RegisterOf(value: bv8): (r: Reg)
    ensures value < 16 ==> r == V(value as bv4)
    ensures 16 <= value ==> r == PC
  {
    match value
    case 0x0 => V(0x0)
    case 0x1 => V(0x1)
    case 0x2 => V(0x2)
    case 0x3 => V(0x3)
    case 0x4 => V(0x4)
    case 0x5 => V(0x5)
    case 0x6 => V(0x6)
    case 0x7 => V(0x7)
    case 0x8 => V(0x8)
    case 0x9 => V(0x9)
    case 0xA => V(0xA)
    case 0xB => V(0xB)
    case 0xC => V(0xC)
    case 0xD => V(0xD)
    case 0xE => V(0xE)
    case 0xF => V(0xF)
    case _ => PC
  }

  /** The content of register `t`, zero-extended to 16 bits when `t` is a
      general register. This is the uniform lookup surface the contracts of
      the executor are stated in. */
  function Read(regs: Registers, t: Reg): bv16
  {
    match t
    case V(x) => regs.v[x as int] as bv16
    case I => regs.i
    case PC => regs.pc
  }

  /** Every register of the power-on state is zero (src/main.rs:13-19). */
  function NewRegisters(): (regs: Registers)
    ensures forall t :: Read(regs, t) == 0
  {
    Registers(seq(16, _ => 0), 0, 0)
  }

  /** Two register files agree on every register identifier exactly when
      they are equal: `Read` loses nothing. */
  lemma ReadDeterminesRegisters(a: Registers, b: Registers)
    requires forall t :: Read(a, t) == Read(b, t)
    ensures a == b
  {
    forall k | 0 <= k < 16
      ensures a.v[k] == b.v[k]
    {
      assert Read(a, V(k as bv4)) == Read(b, V(k as bv4));
    }
    assert Read(a, I) == Read(b, I);
    assert Read(a, PC) == Read(b, PC);
  }
}
