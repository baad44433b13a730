/** `Chip`: the register file, the flags and the five bank arrays of the
    emulator, updated in place. Every method is proved to leave exactly the
    state that the matching function of module Cpu computes from the state
    before the call. */
module Machine {

  import opened Bits
  import opened Bus
  import Cpu

  class Chip {
    var a: u8
    var b: u8
    var c: u8
    var d: u8
    var e: u8
    var h: u8
    var l: u8
    var instr: u8
    var sp: u16
    var pc: u16
    var byte2: u8
    var byte3: u8
    var flags: Cpu.Flags
    const romBank0: array<u8>
    const romBankN: array<u8>
    const externalRamBankN: array<u8>
    const wramBank0: array<u8>
    const wramBankN: array<u8>

    /** The banks have their fixed sizes and are five distinct arrays. */
    ghost predicate Valid()
    {
      romBank0.Length == ROM_BANK_SIZE && romBankN.Length == ROM_BANK_SIZE &&
      externalRamBankN.Length == EXTERNAL_RAM_SIZE &&
      wramBank0.Length == WRAM_BANK_SIZE && wramBankN.Length == WRAM_BANK_SIZE &&
      romBank0 != romBankN
    }

    /** The whole chip as a value. */
    ghost function Snapshot(): (s: Cpu.State)
      reads this, romBank0, romBankN, externalRamBankN, wramBank0, wramBankN
      requires Valid()
      ensures s.Valid()
    {
      Cpu.State(a, b, c, d, e, h, l, instr, sp, pc, byte2, byte3, flags,
                Banks(romBank0[..], romBankN[..], externalRamBankN[..], wramBank0[..], wramBankN[..]))
    }

    /** `Chip::new`. */
    constructor ()
      ensures Valid() && Snapshot() == Cpu.New()
      ensures fresh(romBank0) && fresh(romBankN) && fresh(externalRamBankN)
      ensures fresh(wramBank0) && fresh(wramBankN)
    {
      a, b, c, d, e, h, l := 0, 0, 0, 0, 0, 0, 0;
      instr, sp, pc, byte2, byte3 := 0, 0, 0, 0, 0;
      flags := Cpu.Flags(0, 0, 0, 0);
      romBank0 := new u8[ROM_BANK_SIZE](_ => 0);
      romBankN := new u8[ROM_BANK_SIZE](_ => 0);
      externalRamBankN := new u8[EXTERNAL_RAM_SIZE](_ => 0);
      wramBank0 := new u8[WRAM_BANK_SIZE](_ => 0);
      wramBankN := new u8[WRAM_BANK_SIZE](_ => 0);
      new;
      assert romBank0[..] == seq(ROM_BANK_SIZE, _ => 0);
      assert romBankN[..] == seq(ROM_BANK_SIZE, _ => 0);
      assert externalRamBankN[..] == seq(EXTERNAL_RAM_SIZE, _ => 0);
      assert wramBank0[..] == seq(WRAM_BANK_SIZE, _ => 0);
      assert wramBankN[..] == seq(WRAM_BANK_SIZE, _ => 0);
    }

    /** The copy step of `load_rom`, given the bytes the file held. */
    method LoadRom(rom: seq<u8>) returns (status: Cpu.Status)
      requires Valid()
      modifies this, romBank0
      ensures Valid()
      ensures Cpu.Outcome(status, Snapshot()) == Cpu.LoadRom(old(Snapshot()), rom)
    {
      for i := 0 to ROM_BANK_SIZE
        invariant i <= |rom|
        invariant forall k :: 0 <= k < i ==> romBank0[k] == rom[k]
        invariant forall k :: i <= k < ROM_BANK_SIZE ==> romBank0[k] == old(romBank0[k])
        invariant unchanged(this)
      {
        if i >= |rom| {
          // `rom_buf.get(i).unwrap()` panics
          assert romBank0[..] == rom + old(romBank0[..])[|rom|..];
          return Cpu.Failed(Cpu.RomTooShort(|rom|));
        }
        romBank0[i] := rom[i];
      }
      assert romBank0[..] == rom[..ROM_BANK_SIZE];
      pc := 0x0100;
      status := Cpu.Ok;
    }

    /** `write_memory`. */
    method WriteMemory(addr: nat, value: u8)
      requires Valid()
      modifies romBank0, romBankN
      ensures Snapshot() == old(Snapshot()).(mem := Write(old(Snapshot()).mem, addr, value))
    {
      match RegionOf(addr)
      case RomBank0 => romBank0[addr] := value;
      case RomBankN => romBankN[addr - 0x4000] := value;
      case _ =>
    }

    /** `read_memory`. */
    function ReadMemory(addr: nat): (r: u8)
      reads this, romBank0, romBankN, externalRamBankN, wramBank0, wramBankN
      requires Valid()
      ensures r == Read(Snapshot().mem, addr)
    {
      match RegionOf(addr)
      case RomBank0 => romBank0[addr]
      case RomBankN => romBankN[addr - 0x4000]
      case Unlisted => 0xFF
      case _ => 0x00
    }

    /** `fetch`. */
    method Fetch() returns (status: Cpu.Status)
      requires Valid()
      modifies this
      ensures Cpu.Outcome(status, Snapshot()) == Cpu.Fetch(old(Snapshot()))
    {
      instr := ReadMemory(pc);
      var arg1 := ReadMemory(pc + 1);
      var arg2 := ReadMemory(pc + 2);
      byte2 := arg1;
      byte3 := arg2;
      if pc == 0xFFFF {
        return Cpu.Failed(Cpu.PcOverflow);
      }
      pc := pc + 1;
      // the trace print computes `pc + 10`, then slices `rom_bank_0[pc..pc + 10]`
      if pc > Cpu.TRACE_LAST_WORD_PC {
        return Cpu.Failed(Cpu.PcOverflow);
      }
      if pc > Cpu.TRACE_LAST_PC {
        return Cpu.Failed(Cpu.TraceSliceOutOfRange);
      }
      status := Cpu.Ok;
    }

    /** `execute`. */
    method Execute() returns (status: Cpu.Status)
      requires Valid()
      modifies this, romBank0, romBankN
      ensures Cpu.Outcome(status, Snapshot()) == Cpu.Execute(old(Snapshot()))
    {
      var next := 0;
      if instr == 0x00 {
      } else if instr == 0x32 {
        status := LddHlA();
        if status.Failed? {
          return;
        }
      } else if instr == 0x0E || instr == 0x06 {
        LdRr();
        next := 1;
      } else if instr == 0xC3 {
        JmpNn();
      } else if 0xA8 <= instr <= 0xAF {
        XorR();
      } else if instr == 0x01 || instr == 0x11 || instr == 0x21 || instr == 0x31 {
        LdRrNn();
        next := 2;
      } else {
        return Cpu.Failed(Cpu.Unimplemented(instr));
      }
      if pc + next > 0xFFFF {
        return Cpu.Failed(Cpu.PcOverflow);
      }
      pc := pc + next;
      status := Cpu.Ok;
    }

    /** `ld_rr`. */
    method LdRr()
      requires Valid()
      modifies this
      ensures Snapshot() == Cpu.LdRr(old(Snapshot()))
    {
      if instr == 0x0E {
        c := byte2;
      } else if instr == 0x06 {
        b := byte2;
      }
    }

    /** `ldd_hl_a`. */
    method LddHlA() returns (status: Cpu.Status)
      requires Valid()
      modifies this, romBank0, romBankN
      ensures Cpu.Outcome(status, Snapshot()) == Cpu.LddHlA(old(Snapshot()))
    {
      var hl := Word(h, l);
      WriteMemory(hl, a);
      if hl == 0 {
        return Cpu.Failed(Cpu.HlUnderflow);
      }
      hl := hl - 1;
      h := High(hl);
      l := Low(hl);
      status := Cpu.Ok;
    }

    /** `xor_r`; `execute` calls it only for 0xA8..=0xAF. */
    method XorR()
      requires Valid() && 0xA8 <= instr <= 0xAF
      modifies this
      ensures Snapshot() == Cpu.XorR(old(Snapshot()))
    {
      var value;
      var code := instr % 0x10;
      if code == 0x8 {
        value := b;
      } else if code == 0x9 {
        value := c;
      } else if code == 0xA {
        value := d;
      } else if code == 0xB {
        value := e;
      } else if code == 0xC {
        value := h;
      } else if code == 0xD {
        value := l;
      } else if code == 0xE {
        value := ReadMemory(Word(h, l));
      } else {
        value := a;
      }
      a := Xor(a, value);
      flags := flags.(zero := if a == 0 then 1 else 0);
    }

    /** `jmp_nn`. */
    method JmpNn()
      requires Valid()
      modifies this
      ensures Snapshot() == Cpu.JmpNn(old(Snapshot()))
    {
      pc := Word(byte3, byte2);
    }

    /** `ld_rr_nn`. */
    method LdRrNn()
      requires Valid()
      modifies this
      ensures Snapshot() == Cpu.LdRrNn(old(Snapshot()))
    {
      if instr == 0x01 {
        b, c := byte3, byte2;
      } else if instr == 0x11 {
        d, e := byte3, byte2;
      } else if instr == 0x21 {
        h, l := byte3, byte2;
      } else if instr == 0x31 {
        sp := Word(byte3, byte2);
      }
    }
  }
}
