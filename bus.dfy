/** The memory bus: a 16-bit address space dispatched over fixed banks.
    Only the two ROM banks are backed by storage that the bus reads and writes;
    every other listed region reads as 0 and ignores writes. */
module Bus {

  import opened Bits

  const ROM_BANK_SIZE: nat := 16384
  const EXTERNAL_RAM_SIZE: nat := 8192
  const WRAM_BANK_SIZE: nat := 4096

  /** The five bank arrays of the chip, as values. */
  datatype Banks = Banks(
    rom0: seq<u8>,    // fixed ROM bank, 0x0000..=0x3FFF
    romN: seq<u8>,    // switchable ROM bank, 0x4000..=0x7FFF
    extRam: seq<u8>,  // external RAM bank, never read or written by the bus
    wram0: seq<u8>,   // work RAM bank 0, never read or written by the bus
    wramN: seq<u8>)   // work RAM bank N, never read or written by the bus
  {
    predicate Valid() {
      |rom0| == ROM_BANK_SIZE && |romN| == ROM_BANK_SIZE &&
      |extRam| == EXTERNAL_RAM_SIZE && |wram0| == WRAM_BANK_SIZE && |wramN| == WRAM_BANK_SIZE
    }
  }

  /** Every bank filled with zeros. */
  function Zeroed(): (m: Banks)
    ensures m.Valid()
    ensures forall i :: 0 <= i < ROM_BANK_SIZE ==> m.rom0[i] == 0 && m.romN[i] == 0
  {
    Banks(seq(ROM_BANK_SIZE, _ => 0), seq(ROM_BANK_SIZE, _ => 0),
          seq(EXTERNAL_RAM_SIZE, _ => 0), seq(WRAM_BANK_SIZE, _ => 0), seq(WRAM_BANK_SIZE, _ => 0))
  }

  /** The arms of the address match shared by reads and writes. Addresses are
      Rust `usize`, so values above 0xFFFF occur (a fetch at `pc + 2`) and fall
      into the catch-all arm like the unlisted gaps do. */
  datatype Region =
    | RomBank0 | RomBankN | VideoRam | ExternalRam | WorkRam0 | WorkRamN
    | Oam | IoRegisters | HighRam | InterruptEnable | Unlisted

  function RegionOf(addr: nat): (r: Region)
    ensures r == Unlisted <==> (0xE000 <= addr <= 0xFDFF || 0xFEA0 <= addr <= 0xFEFF || addr > 0xFFFF)
    ensures (r == RomBank0 || r == RomBankN) <==> addr <= 0x7FFF
  {
    if addr <= 0x3FFF then RomBank0
    else if addr <= 0x7FFF then RomBankN
    else if addr <= 0x9FFF then VideoRam
    else if addr <= 0xBFFF then ExternalRam
    else if addr <= 0xCFFF then WorkRam0
    else if addr <= 0xDFFF then WorkRamN
    else if 0xFE00 <= addr <= 0xFE9F then Oam
    else if 0xFF00 <= addr <= 0xFF7F then IoRegisters
    else if 0xFF80 <= addr <= 0xFFFE then HighRam
    else if addr == 0xFFFF then InterruptEnable
    else Unlisted
  }

  /** `read_memory`: the banked byte in the ROM regions, 0 in the other listed
      regions, 0xFF for an unlisted address. */
  function Read(m: Banks, addr: nat): u8
    requires m.Valid()
  {
    match RegionOf(addr)
    case RomBank0 => m.rom0[addr]
    case RomBankN => m.romN[addr - 0x4000]
    case Unlisted => 0xFF
    case _ => 0x00
  }

  /** `write_memory`: stores into the ROM banks only; a write anywhere else is
      dropped. A write is read back at its own address, disturbs no other
      address, and never touches the RAM banks. */
  function Write(m: Banks, addr: nat, value: u8): (r: Banks)
    requires m.Valid()
    ensures r.Valid()
    ensures addr <= 0x7FFF ==> Read(r, addr) == value
    ensures addr > 0x7FFF ==> r == m
    ensures forall other :: other != addr ==> Read(r, other) == Read(m, other)
    ensures r.extRam == m.extRam && r.wram0 == m.wram0 && r.wramN == m.wramN
  {
    match RegionOf(addr)
    case RomBank0 => m.(rom0 := m.rom0[addr := value])
    case RomBankN => m.(romN := m.romN[addr - 0x4000 := value])
    case _ => m
  }

  /** What a read returns, range by range. */
  lemma ReadByRange(m: Banks, addr: nat)
    requires m.Valid()
    ensures addr <= 0x3FFF ==> Read(m, addr) == m.rom0[addr]
    ensures 0x4000 <= addr <= 0x7FFF ==> Read(m, addr) == m.romN[addr - 0x4000]
    ensures 0x8000 <= addr <= 0xDFFF ==> Read(m, addr) == 0
    ensures 0xFE00 <= addr <= 0xFE9F ==> Read(m, addr) == 0
    ensures 0xFF00 <= addr <= 0xFFFF ==> Read(m, addr) == 0
    ensures (0xE000 <= addr <= 0xFDFF || 0xFEA0 <= addr <= 0xFEFF || addr > 0xFFFF) ==> Read(m, addr) == 0xFF
  {
  }

  /** A write to ROM changes exactly one element of exactly one bank. */
  lemma WriteChangesOneElement(m: Banks, addr: nat, value: u8)
    requires m.Valid()
    ensures addr <= 0x3FFF ==> Write(m, addr, value) == m.(rom0 := m.rom0[addr := value])
    ensures 0x4000 <= addr <= 0x7FFF ==> Write(m, addr, value) == m.(romN := m.romN[addr - 0x4000 := value])
  {
  }

  /** Video RAM, external RAM and work RAM are not backed in this version: a
      byte written there is dropped and the address still reads 0. */
  lemma RamWritesAreDropped(m: Banks, addr: nat, value: u8)
    requires m.Valid() && 0x8000 <= addr <= 0xDFFF
    ensures Write(m, addr, value) == m
    ensures Read(Write(m, addr, value), addr) == 0
  {
  }
}
