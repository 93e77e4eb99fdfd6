/**
 The 154-byte manifest that announces a frozen command, and its codec.
 */
module Manifests {
  import opened Bytes

  const CHUNK: nat := 65536
  const INTEGER_LIMIT: nat := 0x7FFF_FFFF_FFFF_FFFF
  const REQUEST_LIMIT: nat := 2097152
  const OUTPUT_LIMIT: nat := 16777216
  const MANIFEST_SIZE: nat := 154
  const WIDTHS: seq<nat> := [4, 4, 8, 8, 8, 8, 16, 8, 8, 16, 16]

  datatype Manifest = Manifest(
    nonce: seq<byte>, capture: bool, search: bool, jsonSize: nat, limit: nat, hostEnvelope: nat,
    argc: nat, envc: nat, dirc: nat, argumentBytes: nat, cwdBytes: nat,
    environmentBytes: nat, directoryBytes: nat, recordBytes: nat, digest: seq<byte>)
  {
    predicate Valid() {
      && |nonce| == 16 && |digest| == 32
      && 1 <= jsonSize <= REQUEST_LIMIT
      && 1 <= limit <= OUTPUT_LIMIT
      && 1 <= hostEnvelope <= INTEGER_LIMIT
      && 1 <= argc <= 4096
      && envc <= hostEnvelope / 3
      && (if search then 1 else 0) <= dirc <= INTEGER_LIMIT
      && (search || dirc == 0)
      && 1 <= argumentBytes <= argc * 0x7FFF_FFFF_FFFF_FFFF
      && 1 <= cwdBytes <= INTEGER_LIMIT
      && environmentBytes <= hostEnvelope
      && directoryBytes <= dirc * 0x7FFF_FFFF_FFFF_FFFF
      && recordBytes == 32 + 8 * argc + 14 * envc + 8 * dirc
                        + argumentBytes + cwdBytes + environmentBytes + directoryBytes
      && recordBytes < 0x8000_0000_0000_0000_0000_0000_0000_0000
    }

    function Numbers(): (r: seq<nat>)
      ensures |r| == 11
      ensures r[0] == jsonSize && r[1] == limit && r[2] == hostEnvelope && r[3] == argc
      ensures r[4] == envc && r[5] == dirc && r[6] == argumentBytes && r[7] == cwdBytes
      ensures r[8] == environmentBytes && r[9] == directoryBytes && r[10] == recordBytes
    {
      [jsonSize, limit, hostEnvelope, argc, envc, dirc, argumentBytes, cwdBytes,
       environmentBytes, directoryBytes, recordBytes]
    }

    function Flags(): byte {
      (if capture then 1 else 0) + (if search then 2 else 0)
    }
  }

  lemma WidthsFit(m: Manifest)
    requires m.Valid()
    ensures Fits(m.Numbers(), WIDTHS)
  {
    Powers();
  }

  lemma WidthsTotal()
    ensures Total(WIDTHS) == 104
  {
    assert WIDTHS == [4, 4, 8, 8] + ([8, 8, 16, 8] + [8, 16, 16]);
    TotalAppend([4, 4, 8, 8], [8, 8, 16, 8] + [8, 16, 16]);
    TotalAppend([8, 8, 16, 8], [8, 16, 16]);
    TotalFour(4, 4, 8, 8); TotalFour(8, 8, 16, 8); TotalThree(8, 16, 16);
  }

  /** `encode` validates first, so an invalid manifest has no encoding. */
  function Encode(m: Manifest): (r: Result<seq<byte>>)
    ensures r.Ok? <==> m.Valid()
    ensures r.Ok? ==> |r.value| == MANIFEST_SIZE
  {
    if !m.Valid() then Rejected
    else
      WidthsFit(m); WidthsTotal();
      Ok([1, m.Flags()] + m.nonce + Pack(m.Numbers(), WIDTHS) + m.digest)
  }

  function Decode(content: seq<byte>): (r: Result<Manifest>)
    ensures r.Ok? ==> r.value.Valid() && |content| == MANIFEST_SIZE
  {
    if |content| != MANIFEST_SIZE || content[0] != 1 || content[1] >= 4 then Rejected
    else
      WidthsTotal();
      var n := Unpack(content[18..122], WIDTHS);
      var m := Manifest(content[2..18], content[1] % 2 == 1, content[1] / 2 == 1,
                        n[0], n[1], n[2], n[3], n[4], n[5], n[6], n[7], n[8], n[9], n[10], content[122..]);
      if m.Valid() then Ok(m) else Rejected
  }

  /** Half of the bijection: reading back a valid manifest gives the same manifest. */
  lemma DecodeEncode(m: Manifest)
    requires m.Valid()
    ensures Decode(Encode(m).value) == Ok(m)
  {
    WidthsFit(m); WidthsTotal();
    hide Manifest.Valid, Pack, Unpack, Total, Pow256, Fits;
    var numbers := Pack(m.Numbers(), WIDTHS);
    var content := Encode(m).value;
    assert content[2..18] == m.nonce;
    assert content[18..122] == numbers;
    assert content[122..] == m.digest;
    UnpackPack(m.Numbers(), WIDTHS);
    assert Unpack(content[18..122], WIDTHS) == m.Numbers();
    assert content[0] == 1 && content[1] == m.Flags();
    assert (content[1] % 2 == 1) == m.capture && (content[1] / 2 == 1) == m.search;
  }

  /** The other half: every accepted content is the encoding of what it decodes to. */
  lemma EncodeDecode(content: seq<byte>)
    requires Decode(content).Ok?
    ensures Encode(Decode(content).value) == Ok(content)
  {
    WidthsTotal();
    hide Manifest.Valid, Pack, Unpack, Total, Pow256, Fits;
    var m := Decode(content).value;
    PackUnpack(content[18..122], WIDTHS);
    assert m.Numbers() == Unpack(content[18..122], WIDTHS);
    assert content == [1, m.Flags()] + content[2..18] + content[18..122] + content[122..];
  }
}
