/** The Borsh binary format, as far as the two programs' records and
    instructions use it: fixed-width little-endian unsigned integers,
    one-byte booleans, one-byte enum variant indices, and raw byte arrays.
    Decoding a whole value (`try_from_slice`) fails unless every byte of
    the input is consumed. */
module Borsh {

  datatype Option<+T> = None | Some(value: T)

  type Byte = b: int | 0 <= b < 0x100
  type U32 = x: int | 0 <= x < 0x1_0000_0000
  type U64 = x: int | 0 <= x < 0x1_0000_0000_0000_0000

  /** The largest u64. */
  const U64_MAX: int := 0xFFFF_FFFF_FFFF_FFFF

  /** 256^n, the number of values an n-byte field can hold. */
  function Pow256(n: nat): (r: nat)
    ensures r > 0
  {
    if n == 0 then 1 else 256 * Pow256(n - 1)
  }

  lemma Pow256Widths()
    ensures Pow256(1) == 0x100
    ensures Pow256(4) == 0x1_0000_0000
    ensures Pow256(8) == 0x1_0000_0000_0000_0000
  {
    assert Pow256(1) == 0x100;
    assert Pow256(2) == 0x1_0000;
    assert Pow256(3) == 0x100_0000;
    assert Pow256(4) == 0x1_0000_0000;
    assert Pow256(5) == 0x100_0000_0000;
    assert Pow256(6) == 0x1_0000_0000_0000;
    assert Pow256(7) == 0x100_0000_0000_0000;
  }

  /** The n-byte little-endian encoding of x. */
  function EncodeLE(x: nat, n: nat): (r: seq<Byte>)
    requires x < Pow256(n)
    ensures |r| == n
  {
    if n == 0 then [] else [x % 256] + EncodeLE(x / 256, n - 1)
  }

  /** The number a little-endian byte string denotes. */
  function DecodeLE(s: seq<Byte>): (r: nat)
    ensures r < Pow256(|s|)
  {
    if s == [] then 0 else s[0] + 256 * DecodeLE(s[1..])
  }

  lemma {:induction false} DecodeEncodeLE(x: nat, n: nat)
    requires x < Pow256(n)
    ensures DecodeLE(EncodeLE(x, n)) == x
  {
    if n > 0 {
      var e := EncodeLE(x, n);
      assert e[1..] == EncodeLE(x / 256, n - 1);
      DecodeEncodeLE(x / 256, n - 1);
    }
  }

  lemma {:induction false} EncodeDecodeLE(s: seq<Byte>)
    ensures EncodeLE(DecodeLE(s), |s|) == s
  {
    if s != [] {
      var d := DecodeLE(s[1..]);
      assert DecodeLE(s) % 256 == s[0] && DecodeLE(s) / 256 == d;
      EncodeDecodeLE(s[1..]);
    }
  }

  function EncodeU32(x: U32): (r: seq<Byte>)
    ensures |r| == 4
  {
    Pow256Widths();
    EncodeLE(x, 4)
  }

  function DecodeU32(s: seq<Byte>): (r: U32)
    requires |s| == 4
    ensures EncodeU32(r) == s
  {
    Pow256Widths();
    EncodeDecodeLE(s);
    DecodeLE(s)
  }

  function EncodeU64(x: U64): (r: seq<Byte>)
    ensures |r| == 8
  {
    Pow256Widths();
    EncodeLE(x, 8)
  }

  function DecodeU64(s: seq<Byte>): (r: U64)
    requires |s| == 8
    ensures EncodeU64(r) == s
  {
    Pow256Widths();
    EncodeDecodeLE(s);
    DecodeLE(s)
  }

  lemma DecodeEncodeU32(x: U32)
    ensures DecodeU32(EncodeU32(x)) == x
  {
    Pow256Widths();
    DecodeEncodeLE(x, 4);
  }

  lemma DecodeEncodeU64(x: U64)
    ensures DecodeU64(EncodeU64(x)) == x
  {
    Pow256Widths();
    DecodeEncodeLE(x, 8);
  }

  function EncodeBool(b: bool): (r: Byte)
    ensures r < 2
  {
    if b then 1 else 0
  }

  /** Borsh accepts only 0 (false) and 1 (true) for a boolean. */
  function DecodeBool(x: Byte): (r: Option<bool>)
    ensures r.Some? <==> x < 2
    ensures r.Some? ==> EncodeBool(r.value) == x
  {
    if x == 0 then Some(false) else if x == 1 then Some(true) else None
  }

  /** A buffer of n zero bytes, as freshly allocated account data is. */
  function Zeros(n: nat): (r: seq<Byte>)
    ensures |r| == n && forall i :: 0 <= i < n ==> r[i] == 0
  {
    seq(n, _ => 0)
  }
}
