/** What the operations of the chip promise, stated over the spec functions of
    module Cpu. */
module Properties {

  import opened Bits
  import opened Bus
  import opened Cpu

  /** `fetch` loads the opcode and the two bytes after it from the bus and
      adds exactly 1 to `pc`; registers, flags, SP and memory stay as they
      were. It stops on `pc == 0xFFFF` before the increment, and after it when
      the trace slice does not fit in the fixed bank. */
  lemma FetchLoadsThreeBytes(s: State)
    requires s.Valid()
    ensures var r := Fetch(s);
      r.state.instr == Read(s.mem, s.pc) &&
      r.state.byte2 == Read(s.mem, s.pc + 1) &&
      r.state.byte3 == Read(s.mem, s.pc + 2) &&
      r.state == s.(instr := r.state.instr, byte2 := r.state.byte2, byte3 := r.state.byte3, pc := r.state.pc)
    ensures var r := Fetch(s);
      (s.pc == 0xFFFF ==> r.status == Failed(PcOverflow) && r.state.pc == s.pc) &&
      (s.pc != 0xFFFF ==> r.state.pc == s.pc + 1)
    ensures Fetch(s).status == Ok <==> s.pc < TRACE_LAST_PC
    ensures Fetch(s).status != Ok ==> Fetch(s).status == Failed(PcOverflow) || Fetch(s).status == Failed(TraceSliceOutOfRange)
    ensures Fetch(s).status == Failed(TraceSliceOutOfRange) <==> TRACE_LAST_PC <= s.pc < TRACE_LAST_WORD_PC
  {
  }

  /** The copy step of `load_rom` succeeds exactly when the image fills the
      fixed bank; then the bank holds the first 16384 bytes of the image and
      `pc` is 0x0100, and nothing else changes. A short image panics after
      copying what it has, before `pc` is set. */
  lemma LoadRomCopiesImage(s: State, rom: seq<u8>)
    requires s.Valid()
    ensures var r := LoadRom(s, rom);
      (r.status == Ok <==> |rom| >= ROM_BANK_SIZE) &&
      r.state == s.(mem := s.mem.(rom0 := r.state.mem.rom0), pc := r.state.pc)
    ensures var r := LoadRom(s, rom);
      r.status == Ok ==>
        r.state.pc == 0x0100 &&
        (forall i :: 0 <= i < ROM_BANK_SIZE ==> r.state.mem.rom0[i] == rom[i]) &&
        (forall addr: nat :: addr <= 0x3FFF ==> Read(r.state.mem, addr) == rom[addr])
    ensures var r := LoadRom(s, rom);
      r.status != Ok ==>
        r.status == Failed(RomTooShort(|rom|)) && r.state.pc == s.pc &&
        (forall i :: 0 <= i < |rom| ==> r.state.mem.rom0[i] == rom[i]) &&
        (forall i :: |rom| <= i < ROM_BANK_SIZE ==> r.state.mem.rom0[i] == s.mem.rom0[i])
  {
  }

  /** NOP (0x00) changes nothing at all. */
  lemma NopChangesNothing(s: State)
    requires s.Valid() && s.instr == 0x00
    ensures Execute(s) == Outcome(Ok, s)
  {
  }

  /** LD B,n (0x06) and LD C,n (0x0E) load `byte2` into the register and step
      `pc` over the immediate; every other register is kept. */
  lemma LoadByteImmediate(s: State)
    requires s.Valid() && (s.instr == 0x06 || s.instr == 0x0E)
    ensures var r := Execute(s);
      var loaded := if s.instr == 0x06 then s.(b := s.byte2) else s.(c := s.byte2);
      (s.pc != 0xFFFF ==> r == Outcome(Ok, loaded.(pc := s.pc + 1))) &&
      (s.pc == 0xFFFF ==> r == Outcome(Failed(PcOverflow), loaded))
  {
  }

  /** LD BC,nn (0x01), LD DE,nn (0x11), LD HL,nn (0x21) and LD SP,nn (0x31)
      make the pair equal to `byte3 << 8 | byte2` and step `pc` over the two
      immediate bytes; every other register is kept. */
  lemma LoadWordImmediate(s: State)
    requires s.Valid() && (s.instr == 0x01 || s.instr == 0x11 || s.instr == 0x21 || s.instr == 0x31)
    ensures var r := Execute(s);
      (r.status == Ok <==> s.pc <= 0xFFFD) &&
      (r.status == Ok ==> r.state.pc == s.pc + 2) &&
      (r.status != Ok ==> r.status == Failed(PcOverflow) && r.state.pc == s.pc)
    ensures var r := Execute(s).state.(pc := s.pc);
      (s.instr == 0x01 ==> r == s.(b := s.byte3, c := s.byte2) && r.BC() == s.Immediate()) &&
      (s.instr == 0x11 ==> r == s.(d := s.byte3, e := s.byte2) && r.DE() == s.Immediate()) &&
      (s.instr == 0x21 ==> r == s.(h := s.byte3, l := s.byte2) && r.HL() == s.Immediate()) &&
      (s.instr == 0x31 ==> r == s.(sp := s.Immediate()))
  {
  }

  /** JP nn (0xC3) sets `pc` to exactly `byte3 << 8 | byte2`, with no extra
      advance, and changes nothing else. */
  lemma JumpSetsPc(s: State)
    requires s.Valid() && s.instr == 0xC3
    ensures Execute(s) == Outcome(Ok, s.(pc := Word(s.byte3, s.byte2)))
    ensures High(Execute(s).state.pc) == s.byte3 && Low(Execute(s).state.pc) == s.byte2
  {
  }

  /** LD (HL-),A (0x32) writes A through the bus at the original HL and then
      leaves HL one lower, split into H and L; `pc` gets no extra advance. When
      HL is 0 the decrement panics after the write. */
  lemma StoreDecrementHl(s: State)
    requires s.Valid() && s.instr == 0x32
    ensures var r := Execute(s);
      r.state.mem == Write(s.mem, s.HL(), s.a) &&
      (s.HL() <= 0x7FFF ==> Read(r.state.mem, s.HL()) == s.a)
    ensures var r := Execute(s);
      s.HL() != 0 ==>
        r.status == Ok && r.state.HL() == s.HL() - 1 &&
        r.state == s.(mem := r.state.mem, h := r.state.h, l := r.state.l)
    ensures var r := Execute(s);
      s.HL() == 0 ==> r == Outcome(Failed(HlUnderflow), s.(mem := r.state.mem))
  {
    if s.HL() != 0 {
      SplitJoin(s.HL() - 1);
    }
  }

  /** XOR r (0xA8..=0xAF) puts A XOR operand into A, sets Zero to 1 exactly
      when the new A is 0 and to 0 otherwise, so exactly when A equalled the
      operand, and keeps N, H, Carry, `pc`, memory and the other registers. */
  lemma XorSetsZero(s: State)
    requires s.Valid() && 0xA8 <= s.instr <= 0xAF
    ensures var r := Execute(s);
      r.status == Ok &&
      r.state.a == Xor(s.a, R8(s, s.instr % 8)) &&
      (r.state.flags.zero == 1 <==> r.state.a == 0) &&
      (r.state.flags.zero == 0 <==> r.state.a != 0) &&
      (r.state.flags.zero == 1 <==> s.a == R8(s, s.instr % 8)) &&
      r.state == s.(a := r.state.a, flags := s.flags.(zero := r.state.flags.zero))
  {
    XorZero(s.a, R8(s, s.instr % 8));
  }

  /** XOR A (0xAF) always clears A and sets Zero. */
  lemma XorAClearsA(s: State)
    requires s.Valid() && s.instr == 0xAF
    ensures Execute(s).state.a == 0 && Execute(s).state.flags.zero == 1
  {
  }

  /** A ROM whose entry point holds `01 34 12` (LD BC,0x1234): after loading
      it into a new chip and one fetch and execute, BC is 0x1234 and `pc` is
      0x0103. */
  lemma EntryPointLoadsBc(rom: seq<u8>)
    requires |rom| >= ROM_BANK_SIZE
    requires rom[0x100] == 0x01 && rom[0x101] == 0x34 && rom[0x102] == 0x12
    ensures var loaded := LoadRom(New(), rom);
      var r := Cycle(loaded.state);
      loaded.status == Ok && r.status == Ok &&
      r.state.b == 0x12 && r.state.c == 0x34 && r.state.BC() == 0x1234 && r.state.pc == 0x0103
  {
  }
}
