/** Shared value types. */
module Common {

  datatype Option<+T> = None | Some(value: T)

  datatype Result<+T, +E> = Ok(value: T) | Err(error: E)

  const U8_LIMIT := 0x100
  const U32_LIMIT := 0x1_0000_0000
  const U64_LIMIT := 0x1_0000_0000_0000_0000

  type U8 = n: int | 0 <= n < U8_LIMIT
  type U32 = n: int | 0 <= n < U32_LIMIT
  type U64 = n: int | 0 <= n < U64_LIMIT

  /** `usize` on the 64-bit targets the source is written for. */
  type Usize = U64

  type Bytes = seq<U8>

  function SaturatingAdd(a: Usize, b: Usize): (sum: Usize) {
    if a + b < U64_LIMIT then a + b else U64_LIMIT - 1
  }

  function SaturatingSub(a: nat, b: nat): nat { if b <= a then a - b else 0 }

  function Zeros(n: nat): Bytes { seq(n, _ => 0) }

  lemma Multiple(w: nat, d: int)
    requires 0 < w
    ensures 0 < d ==> w <= w * d
    ensures d < 0 ==> w * d + w <= 0
  {
  }

  lemma Residue(q: nat, r: nat, w: nat)
    requires r < w
    ensures (w * q + r) % w == r
  {
    var x := w * q + r;
    var d, m := x / w, x % w;
    assert w * d + m == x;
    assert w * (q - d) == m - r;
    Multiple(w, q - d);
  }
}
