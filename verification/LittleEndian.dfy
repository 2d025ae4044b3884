/** The eight-byte little-endian encoding that the shared counter is stored in. */
module LittleEndian {
  type byte = x: int | 0 <= x < 256

  const TWO_64: nat := 0x1_0000_0000_0000_0000

  type uint64 = x: int | 0 <= x < TWO_64

  function Pow256(n: nat): (p: nat)
    ensures p > 0
  {
    if n == 0 then 1 else 256 * Pow256(n - 1)
  }

  function Encode(v: nat, n: nat): (bs: seq<byte>)
    ensures |bs| == n
  {
    if n == 0 then [] else [v % 256] + Encode(v / 256, n - 1)
  }

  function Decode(bs: seq<byte>): nat {
    if bs == [] then 0 else bs[0] + 256 * Decode(bs[1..])
  }

  lemma {:induction false} DecodeEncodeSmall(v: nat, n: nat)
    requires v < Pow256(n)
    ensures Decode(Encode(v, n)) == v
  {
    if n > 0 {
      assert v / 256 < Pow256(n - 1);
      DecodeEncodeSmall(v / 256, n - 1);
      assert Encode(v, n)[1..] == Encode(v / 256, n - 1);
    }
  }

  /** The low byte comes first: byte number i has the weight 256^i. */
  lemma {:induction false} DecodeConcat(low: seq<byte>, high: seq<byte>)
    ensures Decode(low + high) == Decode(low) + Pow256(|low|) * Decode(high)
    ensures forall b: byte :: Decode([b]) == b
  {
    if low == [] {
      assert low + high == high;
    } else {
      DecodeConcat(low[1..], high);
      assert (low + high)[1..] == low[1..] + high;
      Scale(Decode(low[1..]), Pow256(|low| - 1), Decode(high));
    }
  }

  lemma Scale(x: nat, p: nat, d: nat)
    ensures 256 * (x + p * d) == 256 * x + (256 * p) * d
  {
  }

  /** Writing a 64-bit value and reading it back. */
  lemma DecodeEncode(v: uint64)
    ensures Decode(Encode(v, 8)) == v
  {
    assert Pow256(8) == TWO_64 by {
      assert Pow256(4) == 0x1_0000_0000;
    }
    DecodeEncodeSmall(v, 8);
  }

  /** Reading any bytes and writing them back: the encoding is onto. */
  lemma {:induction false} EncodeDecode(bs: seq<byte>)
    ensures Encode(Decode(bs), |bs|) == bs
  {
    if bs != [] {
      var d := Decode(bs[1..]);
      assert (bs[0] + 256 * d) % 256 == bs[0] && (bs[0] + 256 * d) / 256 == d;
      EncodeDecode(bs[1..]);
    }
  }

  /** binary.LittleEndian.PutUint64: fills the first eight bytes in place. */
  method PutUint64(buf: array<byte>, v: uint64)
    requires 8 <= buf.Length
    modifies buf
    ensures buf[..8] == Encode(v, 8)
    ensures buf[8..] == old(buf[8..])
  {
    var rest: nat := v;
    for i := 0 to 8
      invariant buf[..i] + Encode(rest, 8 - i) == Encode(v, 8)
      invariant buf[8..] == old(buf[8..])
    {
      ghost var done := buf[..i];
      buf[i] := rest % 256;
      assert buf[..i + 1] == done + [rest % 256];
      rest := rest / 256;
    }
  }
}
