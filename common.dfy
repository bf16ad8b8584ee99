/**
 * Fixed-width machine words and the bit helpers every subsystem of the
 * emulator shares: BIT, BIT_SET and BETWEEN, and the high/low split of a
 * 16-bit word.
 */
module Common {

  type u8 = bv8
  type u16 = bv16
  type u32 = bv32

  datatype Option<T> = None | Some(value: T)

  /** BIT(x, n): whether bit n of a byte is set. */
  predicate Bit(x: u8, n: u8)
    requires n < 8
  {
    (x >> n) & 1 == 1
  }

  /** BIT_SET(x, n, on): bit n becomes `on`, every other bit is kept. */
  function BitSet(x: u8, n: u8, on: bool): u8
    requires n < 8
  {
    if on then x | (1 << n) else x & !(1 << n)
  }

  /** BIT_SET gives bit n the new value and keeps every other bit. */
  lemma BitSetBits(x: u8, n: u8, on: bool)
    requires n < 8
    ensures Bit(BitSet(x, n, on), n) == on
    ensures forall i: u8 :: i < 8 && i != n ==> Bit(BitSet(x, n, on), i) == Bit(x, i)
  {
  }

  /** BETWEEN(a, lo, hi): inclusive range test on a 16-bit address. */
  predicate Between(a: u16, lo: u16, hi: u16)
  {
    lo <= a <= hi
  }

  /** The high byte of a 16-bit word. */
  function Hi(w: u16): u8
  {
    (w >> 8) as u8
  }

  /** The low byte of a 16-bit word. */
  function Lo(w: u16): u8
  {
    (w & 0xFF) as u8
  }

  /** `hi << 8 | lo`, the way register pairs and little-endian words are built. */
  function Word(hi: u8, lo: u8): (w: u16)
    ensures Hi(w) == hi && Lo(w) == lo
  {
    ((hi as u16) << 8) | lo as u16
  }

  lemma WordOfHalves(w: u16)
    ensures Word(Hi(w), Lo(w)) == w
  {
  }

  /**
   * A byte read as a signed C `char` and converted to a 16-bit word: the low
   * byte is kept and the high byte copies the sign bit.
   */
  function SignExtend(b: u8): u16
  {
    if b < 0x80 then b as u16 else 0xFF00 | b as u16
  }

  /** Sign extension keeps the low byte and fills the high byte with bit 7. */
  lemma SignExtendHalves(b: u8)
    ensures Lo(SignExtend(b)) == b
    ensures Hi(SignExtend(b)) == (if Bit(b, 7) then 0xFF else 0x00)
  {
  }

  /** The next 16-bit word, wrapping from 0xFFFF to 0. */
  function Succ(w: u16): u16
  {
    w + 1
  }

  /** The previous 16-bit word, wrapping from 0 to 0xFFFF. */
  function Pred(w: u16): u16
  {
    w - 1
  }

  /** A 64 KiB address space: the byte each 16-bit address holds. */
  type Memory = u16 -> u8

  /** The address space after one byte is stored at `at`. */
  function Store(m: Memory, at: u16, v: u8): (m': Memory)
    ensures m'(at) == v
  {
    x => if x == at then v else m(x)
  }

  /** A store changes the byte at its own address and no other. */
  lemma LoadAfterStore(m: Memory, at: u16, v: u8, x: u16)
    ensures Store(m, at, v)(x) == if x == at then v else m(x)
  {
  }

  /** bus_write16: the high byte at `at + 1` first, then the low byte at `at`. */
  function Store16(m: Memory, at: u16, w: u16): Memory
  {
    Store(Store(m, Succ(at), Hi(w)), at, Lo(w))
  }

  /** bus_read16: the low byte at `at`, the high byte at `at + 1`. */
  function Load16(m: Memory, at: u16): u16
  {
    Word(m(Succ(at)), m(at))
  }

  /** A word stored with bus_write16 reads back whole with bus_read16. */
  lemma Load16AfterStore16(m: Memory, at: u16, w: u16)
    ensures Load16(Store16(m, at, w), at) == w
  {
    assert Succ(at) != at;
    WordOfHalves(w);
  }

  /** Two 16-bit words with the same value as naturals are the same word. */
  lemma NatOfInjective(x: u16, y: u16)
    requires x as nat == y as nat
    ensures x == y
  {
    assert x == (x as nat) as u16;
    assert y == (y as nat) as u16;
  }
}
