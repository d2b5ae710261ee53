/** The fixed-width integers of the C sources, and the value conversions between them.
    Everything else is modelled on unbounded integers. */
module Machine {
  const TWO16: int := 0x1_0000
  const TWO32: int := 0x1_0000_0000
  const TWO64: int := 0x1_0000_0000_0000_0000

  type u4 = x: int | 0 <= x < 16
  type u16 = x: int | 0 <= x < TWO16
  type u32 = x: int | 0 <= x < TWO32
  type u64 = x: int | 0 <= x < TWO64

  /** C's conversion of an integer to an unsigned type keeps the value modulo the width. */
  function ToU16(x: int): u16 { x % TWO16 }

  function ToU32(x: int): u32 { x % TWO32 }

  function ToU64(x: int): u64 { x % TWO64 }

  function Min(a: int, b: int): int { if a <= b then a else b }

  function Max(a: int, b: int): int { if a <= b then b else a }

  datatype Option<+T> = None | Some(value: T)

  /** The sequence read from its last element to its first. */
  function Reverse<T>(s: seq<T>): seq<T> {
    seq(|s|, i requires 0 <= i < |s| => s[|s| - 1 - i])
  }

  lemma MulLe(a: int, b: int, k: nat)
    requires a <= b
    ensures a * k <= b * k
  {}

  lemma DivLe(x: int, y: int, k: int)
    requires k > 0 && x * k <= y
    ensures x <= y / k
  {
    var d := x - y / k;
    assert d * k == x * k - (y / k) * k;
    if d > 0 {
      MulLe(1, d, k);
      assert false;
    }
  }
}
