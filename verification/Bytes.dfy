/**
 Bytes, big-endian numbers and fixed-width packing: the vocabulary of every
 binary record in the owned-command chain.
 */
module Bytes {

  type byte = b: int | 0 <= b < 256

  /** A digest function such as SHA-256; nothing is known about it but its type. */
  type Hash = seq<byte> -> seq<byte>

  datatype Result<+T> = Ok(value: T) | Rejected
  datatype Option<+T> = None | Some(value: T)

  function Pow256(width: nat): (p: nat)
    ensures p >= 1
  {
    if width == 0 then 1 else 256 * Pow256(width - 1)
  }

  function BigEndian(n: nat, width: nat): (bs: seq<byte>)
    requires n < Pow256(width)
    ensures |bs| == width
  {
    if width == 0 then [] else BigEndian(n / 256, width - 1) + [n % 256]
  }

  function Number(bs: seq<byte>): nat {
    if bs == [] then 0 else Number(bs[..|bs| - 1]) * 256 + bs[|bs| - 1]
  }

  lemma {:induction false} NumberBound(bs: seq<byte>)
    ensures Number(bs) < Pow256(|bs|)
  {
    if bs != [] {
      NumberBound(bs[..|bs| - 1]);
    }
  }

  lemma {:induction false} NumberOfBigEndian(n: nat, width: nat)
    requires n < Pow256(width)
    ensures Number(BigEndian(n, width)) == n
  {
    if width > 0 {
      NumberOfBigEndian(n / 256, width - 1);
      var bs := BigEndian(n, width);
      assert bs[..|bs| - 1] == BigEndian(n / 256, width - 1);
    }
  }

  lemma {:induction false} BigEndianOfNumber(bs: seq<byte>)
    ensures Number(bs) < Pow256(|bs|)
    ensures BigEndian(Number(bs), |bs|) == bs
  {
    NumberBound(bs);
    if bs != [] {
      var front := bs[..|bs| - 1];
      BigEndianOfNumber(front);
      assert Number(bs) / 256 == Number(front) && Number(bs) % 256 == bs[|bs| - 1];
      assert bs == front + [bs[|bs| - 1]];
    }
  }

  lemma Powers()
    ensures Pow256(1) == 0x100 && Pow256(2) == 0x1_0000 && Pow256(4) == 0x1_0000_0000
    ensures Pow256(8) == 0x1_0000_0000_0000_0000
    ensures Pow256(16) == 0x1_0000_0000_0000_0000_0000_0000_0000_0000
  {
    assert Pow256(4) == 256 * (256 * (256 * (256 * Pow256(0))));
    assert Pow256(8) == 256 * (256 * (256 * (256 * Pow256(4))));
    assert Pow256(12) == 256 * (256 * (256 * (256 * Pow256(8))));
    assert Pow256(16) == 256 * (256 * (256 * (256 * Pow256(12))));
  }

  // ---------- consecutive fixed-width fields ----------

  function Total(widths: seq<nat>): nat {
    if widths == [] then 0 else widths[0] + Total(widths[1..])
  }

  lemma {:induction false} TotalAppend(a: seq<nat>, b: seq<nat>)
    ensures Total(a + b) == Total(a) + Total(b)
  {
    if a == [] {
      assert a + b == b;
    } else {
      assert (a + b)[1..] == a[1..] + b;
      TotalAppend(a[1..], b);
    }
  }

  lemma TotalThree(x: nat, y: nat, z: nat)
    ensures Total([x, y, z]) == x + y + z
  {
    assert [x, y, z][1..] == [y, z] && [y, z][1..] == [z] && [z][1..] == [];
    assert Total([y, z]) == y + Total([z]);
  }

  lemma TotalFour(w: nat, x: nat, y: nat, z: nat)
    ensures Total([w, x, y, z]) == w + x + y + z
  {
    assert [w, x, y, z][1..] == [x, y, z];
    TotalThree(x, y, z);
  }

  ghost predicate Fits(values: seq<nat>, widths: seq<nat>) {
    |values| == |widths| && forall i :: 0 <= i < |values| ==> values[i] < Pow256(widths[i])
  }

  function Pack(values: seq<nat>, widths: seq<nat>): (bs: seq<byte>)
    requires Fits(values, widths)
    ensures |bs| == Total(widths)
  {
    if values == [] then [] else BigEndian(values[0], widths[0]) + Pack(values[1..], widths[1..])
  }

  function Unpack(bs: seq<byte>, widths: seq<nat>): (values: seq<nat>)
    requires |bs| == Total(widths)
    ensures |values| == |widths|
  {
    if widths == [] then [] else [Number(bs[..widths[0]])] + Unpack(bs[widths[0]..], widths[1..])
  }

  lemma {:induction false} UnpackPack(values: seq<nat>, widths: seq<nat>)
    requires Fits(values, widths)
    ensures Unpack(Pack(values, widths), widths) == values
  {
    if values != [] {
      var bs := Pack(values, widths);
      assert bs[..widths[0]] == BigEndian(values[0], widths[0]);
      assert bs[widths[0]..] == Pack(values[1..], widths[1..]);
      NumberOfBigEndian(values[0], widths[0]);
      UnpackPack(values[1..], widths[1..]);
    }
  }

  lemma {:induction false} PackUnpack(bs: seq<byte>, widths: seq<nat>)
    requires |bs| == Total(widths)
    ensures Fits(Unpack(bs, widths), widths)
    ensures Pack(Unpack(bs, widths), widths) == bs
  {
    if widths != [] {
      BigEndianOfNumber(bs[..widths[0]]);
      PackUnpack(bs[widths[0]..], widths[1..]);
      assert bs == bs[..widths[0]] + bs[widths[0]..];
      assert Unpack(bs, widths)[1..] == Unpack(bs[widths[0]..], widths[1..]);
    }
  }
}
