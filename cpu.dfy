/** The SM83 register state and the spec of each `Chip` operation, as functions
    from a state value to an outcome. The class `Machine.Chip` implements each
    one on mutable fields and arrays and is proved equal to these functions. */
module Cpu {

  import opened Bits
  import opened Bus

  /** One `u8` per flag, as the source stores them. */
  datatype Flags = Flags(zero: u8, n: u8, h: u8, carry: u8)

  datatype State = State(
    a: u8, b: u8, c: u8, d: u8, e: u8, h: u8, l: u8,
    instr: u8,                // the opcode read by the last fetch
    sp: u16, pc: u16,
    byte2: u8, byte3: u8,     // the two bytes after the opcode
    flags: Flags,
    mem: Banks)
  {
    predicate Valid() { mem.Valid() }
    function BC(): u16 { Word(b, c) }
    function DE(): u16 { Word(d, e) }
    function HL(): u16 { Word(h, l) }
    /** The 16-bit immediate of a three-byte instruction, `byte3 << 8 | byte2`. */
    function Immediate(): u16 { Word(byte3, byte2) }
  }

  /** The ways the source stops: a Rust panic or `std::process::exit`. */
  datatype Fault =
    | PcOverflow              // `u16` addition to `pc` overflows
    | TraceSliceOutOfRange    // the trace slice `rom_bank_0[pc..pc + 10]` is out of bounds
    | HlUnderflow             // `u16` subtraction from HL underflows
    | Unimplemented(opcode: u8)
    | RomTooShort(length: nat)

  datatype Status = Ok | Failed(fault: Fault)

  /** The status of an operation and the state it leaves. On a fault this is
      the state at the point where the source stops. */
  datatype Outcome = Outcome(status: Status, state: State)

  /** Largest `pc`, after its increment, for which `pc + 10` fits in `u16`. */
  const TRACE_LAST_WORD_PC: u16 := 0xFFF5
  /** Largest `pc`, after its increment, for which `pc + 10 <= 16384`. */
  const TRACE_LAST_PC: u16 := 0x3FF6

  /** `Chip::new`: every register, flag and memory byte is zero. */
  function New(): (s: State)
    ensures s.Valid()
    ensures forall addr :: addr <= 0x7FFF ==> Read(s.mem, addr) == 0
  {
    State(0, 0, 0, 0, 0, 0, 0, 0, 0, 0, 0, 0, Flags(0, 0, 0, 0), Zeroed())
  }

  /** The copy loop of `load_rom`: `rom_bank_0[i] = rom[i]` for each index of
      the bank, panicking at the first index past the end of the image, then
      `pc = 0x0100`. */
  function LoadRom(s: State, rom: seq<u8>): (r: Outcome)
    requires s.Valid()
    ensures r.state.Valid()
  {
    if |rom| >= ROM_BANK_SIZE then
      Outcome(Ok, s.(mem := s.mem.(rom0 := rom[..ROM_BANK_SIZE]), pc := 0x0100))
    else
      Outcome(Failed(RomTooShort(|rom|)), s.(mem := s.mem.(rom0 := rom + s.mem.rom0[|rom|..])))
  }

  /** `fetch`: read the opcode and the two bytes after it, then `pc += 1`; the
      trace print of `rom_bank_0[pc..pc + 10]` first computes `pc + 10` in
      `u16`, which overflows when `pc > 0xFFF5`, and then slices, which is out
      of bounds when `pc > 0x3FF6`. */
  function Fetch(s: State): (r: Outcome)
    requires s.Valid()
    ensures r.state.Valid()
    ensures r.state.mem == s.mem
  {
    var fetched := s.(instr := Read(s.mem, s.pc),
                      byte2 := Read(s.mem, s.pc + 1),
                      byte3 := Read(s.mem, s.pc + 2));
    if s.pc == 0xFFFF then Outcome(Failed(PcOverflow), fetched)
    else
      var advanced := fetched.(pc := s.pc + 1);
      if advanced.pc > TRACE_LAST_WORD_PC then Outcome(Failed(PcOverflow), advanced)
      else if advanced.pc > TRACE_LAST_PC then Outcome(Failed(TraceSliceOutOfRange), advanced)
      else Outcome(Ok, advanced)
  }

  /** `ld_rr`: LD C,n (0x0E) and LD B,n (0x06); any other opcode does nothing. */
  function LdRr(s: State): (r: State)
    ensures s.instr == 0x06 ==> r.b == s.byte2
    ensures s.instr == 0x0E ==> r.c == s.byte2
    ensures s.instr != 0x06 && s.instr != 0x0E ==> r == s
    ensures r == s.(b := r.b, c := r.c)
  {
    if s.instr == 0x0E then s.(c := s.byte2)
    else if s.instr == 0x06 then s.(b := s.byte2)
    else s
  }

  /** `ldd_hl_a`: LD (HL-),A. A is written through the bus at HL, then HL is
      decremented, which panics when HL is 0 (after the write). */
  function LddHlA(s: State): (r: Outcome)
    requires s.Valid()
    ensures r.state.Valid()
  {
    var hl := s.HL();
    var written := s.(mem := Write(s.mem, hl, s.a));
    if hl == 0 then Outcome(Failed(HlUnderflow), written)
    else
      var hl' := hl - 1;
      Outcome(Ok, written.(h := High(hl'), l := Low(hl')))
  }

  /** The 8-bit operand table of the instruction set: codes 0..=7 name B, C,
      D, E, H, L, the byte at HL, and A. */
  function R8(s: State, code: u8): u8
    requires s.Valid() && code < 8
  {
    match code
    case 0 => s.b
    case 1 => s.c
    case 2 => s.d
    case 3 => s.e
    case 4 => s.h
    case 5 => s.l
    case 6 => Read(s.mem, s.HL())
    case _ => s.a
  }

  /** The operand of `xor_r`, chosen by `instr & 0x0F` (the low nibble):
      0x8..=0xD are B, C, D, E, H, L, 0xE is the byte at HL and 0xF is A. This
      is the operand table indexed by the low three bits of the opcode. */
  function XorOperand(s: State): (v: u8)
    requires s.Valid()
    requires 0xA8 <= s.instr <= 0xAF
    ensures v == R8(s, s.instr % 8)
  {
    var code := s.instr % 0x10;
    if code == 0x8 then s.b
    else if code == 0x9 then s.c
    else if code == 0xA then s.d
    else if code == 0xB then s.e
    else if code == 0xC then s.h
    else if code == 0xD then s.l
    else if code == 0xE then Read(s.mem, s.HL())
    else s.a
  }

  /** `xor_r`: XOR r (0xA8..=0xAF). A becomes A XOR operand and Zero becomes
      `(a == 0) as u8`; the other flags are left as they are. */
  function XorR(s: State): (r: State)
    requires s.Valid()
    requires 0xA8 <= s.instr <= 0xAF
    ensures r.a == Xor(s.a, R8(s, s.instr % 8))
    ensures r.flags.zero == 1 <==> r.a == 0
    ensures r.flags.zero == 0 <==> r.a != 0
    ensures r == s.(a := r.a, flags := s.flags.(zero := r.flags.zero))
  {
    var result := Xor(s.a, XorOperand(s));
    s.(a := result, flags := s.flags.(zero := if result == 0 then 1 else 0))
  }

  /** `jmp_nn`: JP nn (0xC3), `pc = byte3 << 8 | byte2`. */
  function JmpNn(s: State): (r: State)
    ensures High(r.pc) == s.byte3 && Low(r.pc) == s.byte2
    ensures r == s.(pc := r.pc)
  {
    s.(pc := s.Immediate())
  }

  /** `ld_rr_nn`: LD BC,nn / LD DE,nn / LD HL,nn / LD SP,nn; any other opcode
      does nothing. */
  function LdRrNn(s: State): (r: State)
    ensures s.instr == 0x01 ==> r.BC() == s.Immediate() && r == s.(b := s.byte3, c := s.byte2)
    ensures s.instr == 0x11 ==> r.DE() == s.Immediate() && r == s.(d := s.byte3, e := s.byte2)
    ensures s.instr == 0x21 ==> r.HL() == s.Immediate() && r == s.(h := s.byte3, l := s.byte2)
    ensures s.instr == 0x31 ==> High(r.sp) == s.byte3 && Low(r.sp) == s.byte2 && r == s.(sp := r.sp)
    ensures s.instr != 0x01 && s.instr != 0x11 && s.instr != 0x21 && s.instr != 0x31 ==> r == s
  {
    if s.instr == 0x01 then s.(b := s.byte3, c := s.byte2)
    else if s.instr == 0x11 then s.(d := s.byte3, e := s.byte2)
    else if s.instr == 0x21 then s.(h := s.byte3, l := s.byte2)
    else if s.instr == 0x31 then s.(sp := s.Immediate())
    else s
  }

  /** `self.pc += next` at the end of `execute`, which panics on overflow. */
  function Advance(s: State, next: u16): Outcome
    requires next <= 2
  {
    if s.pc + next > 0xFFFF then Outcome(Failed(PcOverflow), s)
    else Outcome(Ok, s.(pc := s.pc + next))
  }

  /** The opcodes that `execute` matches. */
  predicate Implemented(op: u8)
  {
    op == 0x00 || op == 0x32 || op == 0x0E || op == 0x06 || op == 0xC3 ||
    (0xA8 <= op <= 0xAF) ||
    op == 0x01 || op == 0x11 || op == 0x21 || op == 0x31
  }

  /** `execute`: run the handler of `instr`, then add its extra length `next`
      to `pc`; an opcode outside the table ends the process. Memory bytes
      change only in the ROM banks, the fetched bytes are never changed, and
      the state is untouched on an unimplemented opcode. */
  function Execute(s: State): (r: Outcome)
    requires s.Valid()
    ensures r.state.Valid()
    ensures r.state.mem.extRam == s.mem.extRam && r.state.mem.wram0 == s.mem.wram0
    ensures r.state.mem.wramN == s.mem.wramN
    ensures r.state.instr == s.instr && r.state.byte2 == s.byte2 && r.state.byte3 == s.byte3
    ensures r.status == Failed(Unimplemented(s.instr)) <==> !Implemented(s.instr)
    ensures !Implemented(s.instr) ==> r.state == s
  {
    var op := s.instr;
    if op == 0x00 then Advance(s, 0)
    else if op == 0x32 then
      var handled := LddHlA(s);
      if handled.status.Failed? then handled else Advance(handled.state, 0)
    else if op == 0x0E || op == 0x06 then Advance(LdRr(s), 1)
    else if op == 0xC3 then Advance(JmpNn(s), 0)
    else if 0xA8 <= op <= 0xAF then Advance(XorR(s), 0)
    else if op == 0x01 || op == 0x11 || op == 0x21 || op == 0x31 then Advance(LdRrNn(s), 2)
    else Outcome(Failed(Unimplemented(op)), s)
  }

  /** One iteration of the driver loop: `fetch` then `execute`. */
  function Cycle(s: State): (r: Outcome)
    requires s.Valid()
    ensures r.state.Valid()
  {
    var fetched := Fetch(s);
    if fetched.status.Failed? then fetched else Execute(fetched.state)
  }

  /** At most `n` iterations of the driver loop, stopping at the first fault.
      However long it runs, the external RAM and both work RAM banks keep
      their contents. */
  function Run(s: State, n: nat): (r: Outcome)
    requires s.Valid()
    ensures r.state.Valid()
    ensures r.state.mem.extRam == s.mem.extRam && r.state.mem.wram0 == s.mem.wram0
    ensures r.state.mem.wramN == s.mem.wramN
    decreases n
  {
    if n == 0 then Outcome(Ok, s)
    else
      var stepped := Cycle(s);
      if stepped.status.Failed? then stepped else Run(stepped.state, n - 1)
  }
}
