/**
 * Fixed-width unsigned integers of the C sources, as bounded `int`s, and the
 * wrap-around arithmetic that `uint64_t` and `int64_t` perform on them.
 */
module Words {

  const TWO_8: int := 0x100
  const TWO_32: int := 0x1_0000_0000
  const TWO_63: int := 0x8000_0000_0000_0000
  const TWO_64: int := 0x1_0000_0000_0000_0000

  type u8 = x: int | 0 <= x < TWO_8
  type u32 = x: int | 0 <= x < TWO_32
  type u64 = x: int | 0 <= x < TWO_64

  /** `a + b` on `uint64_t`: the sum modulo 2^64. */
  function Add64(a: u64, b: u64): (r: u64)
    ensures r == a + b || r == a + b - TWO_64
    ensures a + b < TWO_64 ==> r == a + b
  {
    (a + b) % TWO_64
  }

  /** `a - b` on `uint64_t`: the difference modulo 2^64. */
  function Sub64(a: u64, b: u64): (r: u64)
    ensures Add64(b, r) == a
    ensures b <= a ==> r == a - b
    ensures a < b ==> r == a - b + TWO_64
  {
    (a - b) % TWO_64
  }

  /** The cast `(int64_t)a`: the two's-complement reading of the same 64 bits. */
  function Signed64(a: u64): (r: int)
    ensures -TWO_63 <= r < TWO_63
    ensures r % TWO_64 == a
  {
    if a < TWO_63 then a else a - TWO_64
  }

  function Min(a: int, b: int): (r: int)
    ensures r <= a && r <= b
    ensures r == a || r == b
  {
    if a < b then a else b
  }

  /** `x >> 32`, which fits a `uint32_t`. */
  function HighWord(x: bv64): bv32 {
    (x >> 32) as bv32
  }

  /** `(uint32_t)x`, the low 32 bits. */
  function LowWord(x: bv64): bv32 {
    (x & 0xFFFF_FFFF) as bv32
  }

  /** `((uint64_t)hi << 32) | lo`. */
  function JoinWords(hi: bv32, lo: bv32): (x: bv64)
    ensures HighWord(x) == hi && LowWord(x) == lo
  {
    ((hi as bv64) << 32) | (lo as bv64)
  }

  lemma SplitJoin(x: bv64)
    ensures JoinWords(HighWord(x), LowWord(x)) == x
  {
  }
}
