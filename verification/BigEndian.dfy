/** Big-endian integers, as `to_be_bytes` and `from_be_bytes` lay them out. */
module BigEndian {
  import opened Common

  function Pow256(width: nat): nat {
    if width == 0 then 1 else 256 * Pow256(width - 1)
  }

  function Be(n: nat, width: nat): (b: Bytes)
    ensures |b| == width
  {
    if width == 0 then [] else Be(n / 256, width - 1) + [n % 256]
  }

  function FromBe(b: Bytes): nat {
    if b == [] then 0 else 256 * FromBe(b[..|b| - 1]) + b[|b| - 1]
  }

  /** Decoding undoes encoding on everything the width can hold. */
  lemma {:induction false} DecodeEncoded(n: nat, width: nat)
    requires n < Pow256(width)
    ensures FromBe(Be(n, width)) == n
  {
    if width != 0 {
      DecodeEncoded(n / 256, width - 1);
      var b := Be(n, width);
      assert b[..|b| - 1] == Be(n / 256, width - 1);
    }
  }

  /** Every byte string is the encoding of what it decodes to. */
  lemma {:induction false} EncodeDecoded(b: Bytes)
    ensures FromBe(b) < Pow256(|b|)
    ensures Be(FromBe(b), |b|) == b
  {
    if b != [] {
      EncodeDecoded(b[..|b| - 1]);
      assert b == b[..|b| - 1] + [b[|b| - 1]];
    }
  }

  // ---------------------------------------------------------------- which byte is which

  lemma Quotient(q: nat, r: nat, w: nat)
    requires r < w
    ensures (w * q + r) / w == q
  {
    var x := w * q + r;
    var d, m := x / w, x % w;
    assert w * d + m == x;
    assert w * (q - d) == m - r;
    Multiple(w, q - d);
  }

  lemma DivideTwice(n: nat, p: nat)
    requires 0 < p
    ensures n / 256 / p == n / (256 * p)
  {
    var q, r := n / 256, n % 256;
    var d, m := q / p, q % p;
    assert n == 256 * (p * d + m) + r;
    assert n == (256 * p) * d + (256 * m + r);
    Quotient(d, 256 * m + r, 256 * p);
  }

  lemma {:induction false} Pow256Positive(width: nat)
    ensures 0 < Pow256(width)
  {
    if width != 0 { Pow256Positive(width - 1); }
  }

  /** The most significant byte comes first: byte `i` is the digit of weight 256^(width - 1 - i). */
  lemma {:induction false} ByteAt(n: nat, width: nat, i: nat)
    requires i < width
    ensures 0 < Pow256(width - 1 - i)
    ensures Be(n, width)[i] == n / Pow256(width - 1 - i) % 256
  {
    Pow256Positive(width - 1 - i);
    if i + 1 == width {
      assert Pow256(0) == 1;
    } else {
      ByteAt(n / 256, width - 1, i);
      var p := Pow256(width - 2 - i);
      assert Pow256(width - 1 - i) == 256 * p;
      DivideTwice(n, p);
    }
  }

  lemma Widths()
    ensures Pow256(4) == U32_LIMIT && Pow256(8) == U64_LIMIT
  {
    assert Pow256(4) == U32_LIMIT;
    assert Pow256(8) == 256 * 256 * 256 * 256 * Pow256(4);
  }

  function Be32(n: U32): Bytes { Be(n, 4) }

  function Be64(n: U64): Bytes { Be(n, 8) }

  function U32At(b: Bytes, at: nat): (n: U32)
    requires at + 4 <= |b|
  {
    EncodeDecoded(b[at..at + 4]);
    Widths();
    FromBe(b[at..at + 4])
  }

  function U64At(b: Bytes, at: nat): (n: U64)
    requires at + 8 <= |b|
  {
    EncodeDecoded(b[at..at + 8]);
    Widths();
    FromBe(b[at..at + 8])
  }

  /** Four bytes read as one word, most significant first. */
  lemma U32Bytes(b: Bytes, at: nat)
    requires at + 4 <= |b|
    ensures U32At(b, at) ==
      0x100_0000 * (b[at] as int) + 0x1_0000 * (b[at + 1] as int) + 0x100 * (b[at + 2] as int) + (b[at + 3] as int)
  {
    var w := b[at..at + 4];
    assert w[..3][..2] == w[..2] && w[..2][..1] == w[..1] && w[..1][..0] == [];
    assert FromBe(w[..1]) == w[0];
    assert FromBe(w[..2]) == 256 * FromBe(w[..1]) + w[1];
    assert FromBe(w[..3]) == 256 * FromBe(w[..2]) + w[2];
  }

  lemma {:induction false} FromBeSplit(x: Bytes, y: Bytes)
    ensures FromBe(x + y) == FromBe(x) * Pow256(|y|) + FromBe(y)
  {
    if y == [] {
      assert x + y == x;
    } else {
      var n := |y| - 1;
      assert (x + y)[..|x + y| - 1] == x + y[..n];
      FromBeSplit(x, y[..n]);
      assert 256 * (FromBe(x) * Pow256(n)) == FromBe(x) * (256 * Pow256(n));
    }
  }

  /** Eight bytes are two words, the high one first. */
  lemma U64Bytes(b: Bytes, at: nat)
    requires at + 8 <= |b|
    ensures U64At(b, at) == U32At(b, at) * 0x1_0000_0000 + U32At(b, at + 4)
  {
    assert b[at..at + 8] == b[at..at + 4] + b[at + 4..at + 8];
    FromBeSplit(b[at..at + 4], b[at + 4..at + 8]);
    Widths();
  }

  lemma ReadBe32(b: Bytes, at: nat, n: U32)
    requires at + 4 <= |b|
    ensures U32At(b, at) == n <==> b[at..at + 4] == Be32(n)
  {
    Widths();
    DecodeEncoded(n, 4);
    EncodeDecoded(b[at..at + 4]);
  }

  lemma ReadBe64(b: Bytes, at: nat, n: U64)
    requires at + 8 <= |b|
    ensures U64At(b, at) == n <==> b[at..at + 8] == Be64(n)
  {
    Widths();
    DecodeEncoded(n, 8);
    EncodeDecoded(b[at..at + 8]);
  }
}
