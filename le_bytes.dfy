/**
 * Little-endian byte encoding of unsigned integers: `u64::to_le_bytes` and
 * `u64::from_le_bytes`, which the dispatcher uses to forward the transfer
 * amount to the hook handler.
 */
module LeBytes {
  import opened Types

  /** 256 to the power n: one more than the largest value n bytes can hold. */
  function Pow256(n: nat): (r: nat)
    ensures r > 0
  {
    if n == 0 then 1 else 256 * Pow256(n - 1)
  }

  lemma Pow256Eight()
    ensures Pow256(8) == 0x1_0000_0000_0000_0000
  {
  }

  /** The n least significant bytes of x, least significant first. */
  function Encode(x: nat, n: nat): (r: seq<Byte>)
    requires x < Pow256(n)
    ensures |r| == n
  {
    if n == 0 then [] else [x % 256] + Encode(x / 256, n - 1)
  }

  /** The number whose little-endian bytes are bs. */
  function Decode(bs: seq<Byte>): (r: nat)
    ensures r < Pow256(|bs|)
  {
    if bs == [] then 0 else bs[0] + 256 * Decode(bs[1..])
  }

  /** Decoding an encoding gives back the number. */
  lemma {:induction false} DecodeEncode(x: nat, n: nat)
    requires x < Pow256(n)
    ensures Decode(Encode(x, n)) == x
  {
    if n > 0 {
      var tail := Encode(x / 256, n - 1);
      assert Encode(x, n)[1..] == tail;
      DecodeEncode(x / 256, n - 1);
    }
  }

  /** Encoding a decoded byte string gives back the bytes. */
  lemma {:induction false} EncodeDecode(bs: seq<Byte>)
    ensures Encode(Decode(bs), |bs|) == bs
  {
    if bs != [] {
      var d := Decode(bs[1..]);
      assert Decode(bs) == bs[0] + 256 * d;
      assert Decode(bs) % 256 == bs[0];
      assert Decode(bs) / 256 == d;
      EncodeDecode(bs[1..]);
    }
  }

  /** `u64::to_le_bytes`. */
  function ToLeBytes(x: U64): (r: seq<Byte>)
    ensures |r| == 8
    ensures Decode(r) == x
  {
    Pow256Eight();
    DecodeEncode(x, 8);
    Encode(x, 8)
  }

  /** `u64::from_le_bytes`. */
  function FromLeBytes(bs: seq<Byte>): (r: U64)
    requires |bs| == 8
    ensures ToLeBytes(r) == bs
  {
    Pow256Eight();
    EncodeDecode(bs);
    Decode(bs)
  }

  /** Reading back the bytes `to_le_bytes` produced gives the amount. */
  lemma LeRoundTrip(x: U64)
    ensures FromLeBytes(ToLeBytes(x)) == x
  {
    Pow256Eight();
    DecodeEncode(x, 8);
  }

  /** Every 8-byte string is the encoding of exactly one u64. */
  lemma LeBytesRoundTrip(bs: seq<Byte>)
    requires |bs| == 8
    ensures ToLeBytes(FromLeBytes(bs)) == bs
  {
    EncodeDecode(bs);
  }

  /** The encoding is injective: distinct amounts give distinct bytes. */
  lemma ToLeBytesInjective(x: U64, y: U64)
    ensures ToLeBytes(x) == ToLeBytes(y) <==> x == y
  {
    LeRoundTrip(x);
    LeRoundTrip(y);
  }

  /** The first byte is the least significant one: 500 is [0xf4, 0x01, 0, 0, 0, 0, 0, 0]. */
  lemma ToLeBytesExample()
    ensures ToLeBytes(500) == [0xf4, 0x01, 0, 0, 0, 0, 0, 0]
  {
  }
}
