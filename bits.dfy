/** Machine words of the SM83 core: bytes are Rust `u8`, words are Rust `u16`.
    Both are bounded integers; a Rust operation that would leave the range
    (an overflowing `+=` or `-=`) is checked by the caller and never wraps.
    XOR goes through `bv8`, the only bitwise operation whose value is not a
    plain byte or word arithmetic. */
module Bits {

  type u8 = x: int | 0 <= x < 0x100
  type u16 = x: int | 0 <= x < 0x1_0000

  /** `((hi as u16) << 8) as u16 | lo as u16`: a register pair or an immediate
      word, high byte first. The shifted byte and `lo` share no bit, so the OR
      is a sum. */
  function Word(hi: u8, lo: u8): (w: u16)
    ensures High(w) == hi && Low(w) == lo
  {
    hi * 0x100 + lo
  }

  /** `(w >> 8) as u8`: the high byte of a word. */
  function High(w: u16): u8
  {
    w / 0x100
  }

  /** `(w << 8 >> 8) as u8`: the `u16` left shift drops the high byte, the
      right shift brings the low byte back. */
  function Low(w: u16): u8
  {
    (w * 0x100) % 0x1_0000 / 0x100
  }

  /** Splitting a word into its bytes and joining them again gives the word back. */
  lemma SplitJoin(w: u16)
    ensures Word(High(w), Low(w)) == w
  {
    LowIsTruncation(w);
  }

  /** The low byte is the word truncated to 8 bits, as `w as u8` would give. */
  lemma LowIsTruncation(w: u16)
    ensures Low(w) == w % 0x100
  {
  }

  /** `x ^ y` on `u8`. */
  function Xor(x: u8, y: u8): u8
  {
    ((x as bv8) ^ (y as bv8)) as u8
  }

  lemma ByteRoundTrip(x: u8)
    ensures (x as bv8) as int == x
  {
  }

  lemma BitsXorZero(p: bv8, q: bv8)
    ensures p ^ q == 0 <==> p == q
  {
  }

  /** A XOR is zero exactly when its operands are equal. */
  lemma XorZero(x: u8, y: u8)
    ensures Xor(x, y) == 0 <==> x == y
  {
    ByteRoundTrip(x);
    ByteRoundTrip(y);
    BitsXorZero(x as bv8, y as bv8);
  }
}
