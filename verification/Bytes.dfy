/** Bytes and the big-endian integer codec shared by the record logs and the index keys. */
module Bytes {
  type byte = b: int | 0 <= b < 256
  type bytes = seq<byte>

  /** 256 to the power k. */
  function Pow256(k: nat): (p: nat)
    ensures p > 0
  {
    if k == 0 then 1 else 256 * Pow256(k - 1)
  }

  /** The low k bytes of v, most significant first. */
  function Be(k: nat, v: nat): (b: bytes)
    ensures |b| == k
  {
    if k == 0 then [] else Be(k - 1, v / 256) + [v % 256]
  }

  /** Value of a big-endian byte string. */
  function FromBe(b: bytes): nat {
    if b == [] then 0 else FromBe(b[..|b| - 1]) * 256 + b[|b| - 1]
  }

  /** Decoding gives back every value that fits in k bytes. */
  lemma {:induction false} BeRoundTrip(k: nat, v: nat)
    requires v < Pow256(k)
    ensures FromBe(Be(k, v)) == v
  {
    if k > 0 {
      BeRoundTrip(k - 1, v / 256);
      assert Be(k, v)[..k - 1] == Be(k - 1, v / 256);
    }
  }

  /** Every byte string is the encoding of its value in its own width. */
  lemma {:induction false} FromBeRoundTrip(b: bytes)
    ensures FromBe(b) < Pow256(|b|) && Be(|b|, FromBe(b)) == b
  {
    if b != [] {
      FromBeRoundTrip(b[..|b| - 1]);
      assert b == b[..|b| - 1] + [b[|b| - 1]];
    }
  }

  lemma Pow256Values()
    ensures Pow256(4) == 0x1_0000_0000 && Pow256(8) == 0x1_0000_0000_0000_0000
  {
    assert Pow256(2) == 65536;
    assert Pow256(4) == 65536 * Pow256(2);
    assert Pow256(6) == 65536 * Pow256(4);
  }

  /** Fill a k-byte buffer from its last byte to its first. */
  method WriteBe(k: nat, v: nat) returns (buf: array<byte>)
    ensures fresh(buf) && buf[..] == Be(k, v)
  {
    buf := new byte[k];
    var rest, i := v, k;
    while i > 0
      invariant i <= k
      invariant Be(k, v) == Be(i, rest) + buf[i..]
    {
      i := i - 1;
      buf[i] := rest % 256;
      rest := rest / 256;
      assert buf[i..] == [buf[i]] + buf[i + 1..];
    }
  }

  method ReadBe(b: bytes) returns (v: nat)
    ensures v == FromBe(b)
  {
    v := 0;
    for i := 0 to |b|
      invariant v == FromBe(b[..i])
    {
      assert b[..i + 1][..i] == b[..i];
      v := v * 256 + b[i];
    }
    assert b[..|b|] == b;
  }
}
