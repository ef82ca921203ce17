/** Go's 64-bit signed integers, whose arithmetic wraps. */
module Int64 {

  const MAX_INT64 := 0x7FFF_FFFF_FFFF_FFFF

  /** The value a 64-bit signed integer keeps of `x`. */
  function Wrap64(x: int): int
  {
    var low := x % 0x1_0000_0000_0000_0000;
    if low > MAX_INT64 then low - 0x1_0000_0000_0000_0000 else low
  }

  lemma SmallIsKept(x: int)
    requires 0 <= x <= MAX_INT64
    ensures Wrap64(x) == x
  {
  }

  lemma WrapStaysInRange(x: int)
    ensures -MAX_INT64 - 1 <= Wrap64(x) <= MAX_INT64
  {
  }

  lemma EvenStaysEven(x: int)
    requires x % 2 == 0
    ensures Wrap64(x) % 2 == 0
  {
    var half, rounds := x / 2, x / 0x1_0000_0000_0000_0000;
    var low := x % 0x1_0000_0000_0000_0000;
    assert low == 2 * (half - 0x8000_0000_0000_0000 * rounds);
  }

  /** Wrapping keeps the low 64 bits. */
  lemma WrapKeepsLowBits(x: int)
    ensures (x - Wrap64(x)) % 0x1_0000_0000_0000_0000 == 0
  {
    var low, rounds := x % 0x1_0000_0000_0000_0000, x / 0x1_0000_0000_0000_0000;
    assert x - low == 0x1_0000_0000_0000_0000 * rounds;
    assert x - Wrap64(x) == 0x1_0000_0000_0000_0000 * (if low > MAX_INT64 then rounds + 1 else rounds);
  }
}
