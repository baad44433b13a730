# SM83 (Game Boy) CPU core in Dafny

This project models the CPU core of a small Game Boy emulator: the `Chip` state, its
banked memory bus, the fetch step, and the opcode dispatcher with its five
handlers (`src/cpu/chip.rs`). The model follows the code as it is written.

- **Bits** defines bytes (`u8`) and words (`u16`) as bounded integers. It joins a
  register pair `hi << 8 | lo` and splits a word into its high and low bytes, with
  the source's own shifts (`>> 8`, `<< 8 >> 8`). It also defines `u8` XOR.
- **Bus** holds the five bank arrays of the chip as values (`Banks`), plus one
  function for the address match that `read_memory` and `write_memory` share
  (`RegionOf`). On top of that come the read and write themselves.
- **Cpu** holds the register state as a value (`State`). It has one function for
  each operation of the chip: `New`, `LoadRom`, `Fetch`, the handlers, `Execute`.
  Each returns an `Outcome`: a status (`Ok` or `Failed(fault)`) and the state left
  behind. A Rust panic or `std::process::exit` becomes a `Fault`. When a fault
  occurs, the state is the one at the point where the source stops.
- **Properties** holds the lemmas that state what each operation does.
- **Machine.Chip** is the class with the mutable fields and the five `array<u8>`
  banks. Each of its methods is proved to leave exactly the state (and status)
  that the matching Cpu function computes from the state before the call.
  `Execute` lists only the two ROM arrays in its `modifies` clause. So the frame
  conditions themselves show that external RAM and both work RAM banks never change.

Integer overflow follows Rust's debug build, where checked `u16` arithmetic panics:
- `pc += 1` in `fetch`: fault `PcOverflow`.
- `pc += next` in `execute`: fault `PcOverflow`.
- `pc -= 1` on HL in `ldd_hl_a`: fault `HlUnderflow`.
- `self.pc + 10` in the trace print of `fetch` (chip.rs:119), which overflows
  when the incremented `pc` is above 0xFFF5: fault `PcOverflow`.

None of these wraps.

Memory addresses are Rust `usize` values (`nat` here). So `fetch` can read at
`pc + 1` and `pc + 2` beyond 0xFFFF, and those addresses read 0xFF.

Points where this version of the code differs from a working Game Boy, all
modelled as written:
- `xor_r` sets Zero to `(a == 0) as u8` (chip.rs:169). That is 1 exactly when the
  result is 0 and 0 otherwise. N, H and Carry are not touched.
- Writes to 0x8000..=0xDFFF are dropped (chip.rs:84-87), and those addresses read
  0 (chip.rs:99-102). On real hardware, work RAM and external RAM read back what
  was written.
- `load_rom` copies only the first 16384 bytes of the image, into `rom_bank_0`
  (chip.rs:75-77). `rom_bank_n` is never loaded. An image shorter than 16384 bytes
  panics at `rom_buf.get(i).unwrap()`, after the bytes it has are copied.
- `pc += 1` (chip.rs:118), `pc += next` (chip.rs:134) and the HL decrement
  (chip.rs:148) are checked `u16` operations that panic rather than wrap.
- The trace print at chip.rs:119 stops `fetch` once the incremented `pc` passes
  0x3FF6. Up to 0xFFF5 the slice `rom_bank_0[pc..pc + 10]` is out of bounds
  (fault `TraceSliceOutOfRange`). Above 0xFFF5, `pc + 10` overflows first
  (fault `PcOverflow`).

## Model

| member | source | states |
|---|---|---|
| `Bits.Word` | src/cpu/chip.rs:146 | joining `(hi << 8) OR lo` is undone by `High` and `Low`: they return exactly `hi` and `lo` |
| `Bits.SplitJoin` | src/cpu/chip.rs:148-150 | the H and L that `ldd_hl_a` stores, joined again, give the decremented word back |
| `Bits.LowIsTruncation` | src/cpu/chip.rs:150 | `w << 8 >> 8` on a `u16` is the low byte `w % 256` |
| `Bits.XorZero` | src/cpu/chip.rs:168-169 | a XOR is 0 exactly when its two operands are equal |
| `Bus.Zeroed` | src/cpu/chip.rs:63-67 | every bank has its size and the ROM banks are all zero |
| `Bus.Write` | src/cpu/chip.rs:80-94 | a write to 0x0000..=0x7FFF is read back at its address; any other write leaves the banks unchanged; no other address changes; the RAM banks never change |
| `Bus.ReadByRange` | src/cpu/chip.rs:95-110 | reads return `rom_bank_0[a]`, `rom_bank_n[a - 0x4000]`, 0 for the listed unbacked ranges, and 0xFF for 0xE000..=0xFDFF, 0xFEA0..=0xFEFF and above 0xFFFF |
| `Bus.WriteChangesOneElement` | src/cpu/chip.rs:82-83 | a ROM write changes exactly one element of exactly one bank |
| `Bus.RamWritesAreDropped` | src/cpu/chip.rs:84-87 | a write to 0x8000..=0xDFFF changes nothing, and the address still reads 0 |
| `Cpu.New` | src/cpu/chip.rs:48-69 | a new chip has valid banks and every ROM address reads 0 |
| `Cpu.LoadRom` | src/cpu/chip.rs:75-78 | the copy keeps every bank at its size; its full effect is stated by `Properties.LoadRomCopiesImage` |
| `Cpu.Fetch` | src/cpu/chip.rs:111-120 | a fetch keeps every bank as it was; its full effect is stated by `Properties.FetchLoadsThreeBytes` |
| `Cpu.LddHlA` | src/cpu/chip.rs:145-151 | the store keeps every bank at its size; its full effect is stated by `Properties.StoreDecrementHl` |
| `Cpu.Execute` | src/cpu/chip.rs:122-135 | execute never changes external RAM, either work RAM bank, `instr`, `byte2` or `byte3`; it fails with `Unimplemented(instr)` exactly when the opcode is outside {0x00, 0x32, 0x06, 0x0E, 0xC3, 0xA8..=0xAF, 0x01, 0x11, 0x21, 0x31}, and then leaves the state untouched |
| `Cpu.Cycle` | src/main.rs:17-20 | one fetch followed by one execute keeps every bank at its size (used to state `Properties.EntryPointLoadsBc` and `Cpu.Run`) |
| `Cpu.Run` | src/main.rs:17-20 | any number of fetch/execute cycles leaves external RAM and both work RAM banks as they were |
| `Properties.FetchLoadsThreeBytes` | src/cpu/chip.rs:111-120 | `instr`, `byte2`, `byte3` become the bytes read at `pc`, `pc + 1`, `pc + 2`; `pc` grows by exactly 1 unless it is 0xFFFF (which panics); nothing else changes; the fetch succeeds exactly when the old `pc` is below 0x3FF6, fails with `TraceSliceOutOfRange` exactly when it is in 0x3FF6..0xFFF5, and otherwise fails with `PcOverflow` |
| `Properties.LoadRomCopiesImage` | src/cpu/chip.rs:75-78 | the copy succeeds exactly when the image has at least 16384 bytes; then `rom_bank_0[i] == rom[i]` for every `i < 16384`, every fixed-bank address reads `rom[addr]`, and `pc == 0x0100`; a short image copies its bytes, keeps the rest of the bank and `pc`, and fails with `RomTooShort`; no other field changes |
| `Properties.NopChangesNothing` | src/cpu/chip.rs:126 | NOP leaves the whole state unchanged |
| `Properties.LoadByteImmediate` | src/cpu/chip.rs:128 | 0x06 / 0x0E set B / C to `byte2`, add 1 to `pc` (or panic at 0xFFFF), and keep everything else |
| `Properties.LoadWordImmediate` | src/cpu/chip.rs:131 | 0x01 / 0x11 / 0x21 set (B,C) / (D,E) / (H,L) to (`byte3`,`byte2`), so the pair equals the immediate; 0x31 sets SP to `(byte3 << 8) OR byte2`; `pc` grows by 2 exactly when it stays below 0x10000, otherwise `PcOverflow`; all else unchanged |
| `Properties.JumpSetsPc` | src/cpu/chip.rs:172-176 | JP nn sets `pc` to exactly `(byte3 << 8) OR byte2`, with no extra advance, and changes nothing else |
| `Properties.StoreDecrementHl` | src/cpu/chip.rs:145-151 | LD (HL-),A writes A through the bus at the original HL (readable there when HL is in ROM); if HL > 0, HL becomes HL − 1 and only H, L and memory change; if HL is 0 it fails with `HlUnderflow` after the write |
| `Cpu.XorOperand` | src/cpu/chip.rs:154-167 | the nibble match of `xor_r` picks the operand given by the 8-bit operand table `Cpu.R8` (B, C, D, E, H, L, byte at HL, A) at the opcode's low three bits |
| `Cpu.XorR` | src/cpu/chip.rs:153-170 | A becomes A XOR the `Cpu.R8` operand; Zero is 1 exactly when the new A is 0 and 0 otherwise; nothing else changes; the whole instruction is stated by `Properties.XorSetsZero` |
| `Cpu.LdRr` | src/cpu/chip.rs:137-143 | 0x06 puts `byte2` in B, 0x0E puts it in C, any other opcode changes nothing, and no field but B and C ever changes; the whole instruction is stated by `Properties.LoadByteImmediate` |
| `Cpu.JmpNn` | src/cpu/chip.rs:172-176 | the new `pc` has high byte `byte3` and low byte `byte2`, and nothing else changes |
| `Cpu.LdRrNn` | src/cpu/chip.rs:178-186 | 0x01 / 0x11 / 0x21 make BC / DE / HL equal to the immediate with only that pair changed; 0x31 makes SP's bytes `byte3`, `byte2` with only SP changed; any other opcode changes nothing |
| `Bus.RegionOf` | src/cpu/chip.rs:81-92 | an address falls in the catch-all arm exactly when it is in 0xE000..=0xFDFF, 0xFEA0..=0xFEFF or above 0xFFFF, and in a ROM arm exactly when it is at most 0x7FFF |
| `Bus.Read` | src/cpu/chip.rs:95-110 | the read itself; what it returns range by range is stated by `Bus.ReadByRange`, and its partner `Bus.Write` is read back through it |
| `Properties.XorSetsZero` | src/cpu/chip.rs:153-170 | XOR r sets A to A XOR operand and Zero to 1 exactly when the new A is 0 (0 otherwise), that is exactly when A equalled the operand; N, H, Carry, `pc`, memory and the other registers are kept |
| `Properties.XorAClearsA` | src/cpu/chip.rs:130 | XOR A always gives A == 0 and Zero == 1 |
| `Properties.EntryPointLoadsBc` | src/cpu/chip.rs:75-135 | an image with `01 34 12` at 0x0100, after loading, one fetch and one execute, gives B = 0x12, C = 0x34, BC = 0x1234 and `pc` = 0x0103 |
| `Machine.Chip.constructor` | src/cpu/chip.rs:48-69 | the new chip equals `Cpu.New()` and its five arrays are fresh |
| `Machine.Chip.LoadRom` | src/cpu/chip.rs:75-78 | the copy loop leaves exactly the status and state of `Cpu.LoadRom`; only `rom_bank_0` and `pc` can change |
| `Machine.Chip.WriteMemory` | src/cpu/chip.rs:80-94 | the arrays afterwards are exactly `Bus.Write` of the arrays before; only the two ROM arrays can change |
| `Machine.Chip.ReadMemory` | src/cpu/chip.rs:95-110 | the byte read from the arrays is `Bus.Read` of the arrays |
| `Machine.Chip.Fetch` | src/cpu/chip.rs:111-120 | leaves exactly the status and state of `Cpu.Fetch`; no array can change |
| `Machine.Chip.Execute` | src/cpu/chip.rs:122-135 | leaves exactly the status and state of `Cpu.Execute`; only the two ROM arrays can change |
| `Machine.Chip.LdRr` | src/cpu/chip.rs:137-143 | leaves exactly the state of `Cpu.LdRr`: C or B takes `byte2`, any other opcode changes nothing |
| `Machine.Chip.LddHlA` | src/cpu/chip.rs:145-151 | leaves exactly the status and state of `Cpu.LddHlA` |
| `Machine.Chip.XorR` | src/cpu/chip.rs:153-170 | leaves exactly the state of `Cpu.XorR` |
| `Machine.Chip.JmpNn` | src/cpu/chip.rs:172-176 | leaves exactly the state of `Cpu.JmpNn`: only `pc` changes |
| `Machine.Chip.LdRrNn` | src/cpu/chip.rs:178-186 | leaves exactly the state of `Cpu.LdRrNn`: one pair or SP takes the immediate, any other opcode changes nothing |

`Cpu.R8` is the instruction set's 8-bit operand table (codes 0..=7 name B, C,
D, E, H, L, the byte at HL, and A). It is a reference definition that `chip.rs`
does not contain; the nibble match of `xor_r` is proved against it.
`Cpu.Advance` (the `pc += next` of chip.rs:134) has no contract of its own.
`Cpu.Execute` and the lemmas about each opcode describe it.

## Left out

- The file access of `load_rom` (`File::open`, `read_to_end` and their panics on a
  missing or unreadable file) is I/O. The ROM image is a `seq<u8>` parameter instead.
- The `println!` diagnostics are output only. The trace print in `fetch` is kept
  only for its two panics: the `u16` overflow of `pc + 10` and the slice bounds.
- `std::process::exit` on an unknown opcode is the status `Failed(Unimplemented(op))`,
  with the state unchanged.
- The `panic!` arm of `xor_r` for a low nibble outside 0x8..=0xF cannot be reached
  from `execute`. `XorR` requires `0xA8 <= instr <= 0xAF`, which is what its one
  caller guarantees.
- Panics stop the process. The model returns the state at the point of the panic,
  and nothing runs after it.
- Rust's release build wraps `u16` arithmetic instead of panicking. Only the debug
  behaviour is modelled.
- The command line and the endless driver loop of `src/main.rs` are glue. `Cpu.Run`
  bounds that loop to `n` cycles, only to state what holds across cycles.
- Every opcode, flag rule, operand table and stack operation that `chip.rs` does
  not implement is missing, because the file has no code for them.
- The `Debug` derivations of `Flags` and `Chip` are formatting only.
