/**
 The record on the wire: the chunks of a frozen command are exactly the DATA
 frames the wire admits, and the worker that reads them decodes that command.
 */
module Transports {
  import opened Bytes
  import opened Manifests
  import opened Records
  import opened Decoders
  import opened Chunker
  import opened Wires
  import opened Pipes

  function DataBodies(fs: seq<Frame>): seq<seq<byte>> {
    if fs == [] then []
    else DataBodies(fs[..|fs| - 1]) + (if fs[|fs| - 1].tag == DATA then [fs[|fs| - 1].body] else [])
  }

  lemma {:induction false} DataBodiesPrefix(fs: seq<Frame>, gs: seq<Frame>)
    requires fs <= gs
    ensures DataBodies(fs) <= DataBodies(gs)
  {
    if |fs| < |gs| {
      DataBodiesPrefix(fs, gs[..|gs| - 1]);
    } else {
      assert fs == gs;
    }
  }

  predicate Bounded(chunks: seq<seq<byte>>) { forall i :: 0 <= i < |chunks| ==> |chunks[i]| <= CHUNK }

  /** A first frame, then one DATA frame for each chunk. */
  function RecordFrames(first: Frame, chunks: seq<seq<byte>>): (fs: seq<Frame>)
    requires Bounded(chunks)
    decreases |chunks|
  {
    if chunks == [] then [first]
    else RecordFrames(first, chunks[..|chunks| - 1]) + [Frame(DATA, chunks[|chunks| - 1])]
  }

  function ManifestFrame(m: Manifest): Frame
    requires m.Valid()
  {
    Frame(MANIFEST, Encode(m).value)
  }

  lemma ManifestAgreed(t: Terms, m: Manifest)
    requires m.Valid() && t.expected == Some(m)
    ensures Agreed(t, ManifestFrame(m)) && |ManifestFrame(m).body| == MANIFEST_SIZE
  {
    DecodeEncode(m);
    hide Encode, Decode, Manifest.Valid;
  }

  lemma IsManifest(m: Manifest)
    requires m.Valid()
    ensures ManifestFrame(m).tag == MANIFEST
  {
    hide Manifest.Valid;
  }

  lemma ManifestPasses(t: Terms, before: seq<Frame>, f: Frame)
    requires f.tag == MANIFEST && |f.body| == MANIFEST_SIZE && Agreed(t, f) && Lawful(t, before)
    requires LedgerOf(t, before).manifest.None? && LedgerOf(t, before).scalars < SCALAR_COUNT
    ensures Lawful(t, before + [f])
    ensures LedgerOf(t, before + [f]).manifest == t.expected && LedgerOf(t, before + [f]).data == 0
  {
    Plus(t, before, f);
    LedgerTells(t, before);
    hide Lawful, LedgerOf, Decode, Manifest.Valid, Agreed;
  }

  lemma DataPasses(t: Terms, m: Manifest, before: seq<Frame>, chunk: seq<byte>, sent: nat)
    requires Lawful(t, before) && LedgerOf(t, before).manifest == Some(m) && LedgerOf(t, before).data == sent
    requires sent < m.recordBytes && |chunk| == Demanded(m.recordBytes, sent)
    ensures var f: Frame := Frame(DATA, chunk);
            && Lawful(t, before + [f]) && LedgerOf(t, before + [f]).manifest == Some(m)
            && LedgerOf(t, before + [f]).data == sent + |chunk|
  {
    var f: Frame := Frame(DATA, chunk);
    Plus(t, before, f);
    hide Lawful, LedgerOf, Decode, Manifest.Valid;
  }

  lemma CutTake(bs: seq<byte>, k: nat)
    requires k <= |Cut(bs)|
    ensures Bounded(Cut(bs)[..k])
  {
    forall i | 0 <= i < k ensures |Cut(bs)[i]| <= CHUNK { CutSizes(bs, i); }
  }

  lemma DemandedNext(total: nat, k: nat)
    requires k > 0 && (k - 1) * 65536 < total
    ensures (k - 1) * 65536 + Demanded(total, (k - 1) * 65536) == if k * 65536 <= total then k * 65536 else total
  {
  }

  lemma FewerBounded(chunks: seq<seq<byte>>, k: nat)
    requires 0 < k <= |chunks| && Bounded(chunks[..k])
    ensures Bounded(chunks[..k - 1])
  {
    forall i | 0 <= i < k - 1 ensures |chunks[..k - 1][i]| == |chunks[..k][i]| {}
  }

  /** Every prefix of a frozen record's own frames is lawful after any lawful beginning without a manifest. */
  lemma {:induction false} ChunksPass(t: Terms, m: Manifest, bs: seq<byte>, before: seq<Frame>, k: nat)
    requires m.Valid() && t.expected == Some(m) && |bs| == m.recordBytes && k <= |Cut(bs)|
    requires Lawful(t, before) && LedgerOf(t, before).manifest.None? && LedgerOf(t, before).scalars < SCALAR_COUNT
    requires Bounded(Cut(bs)[..k])
    ensures var fs := before + RecordFrames(ManifestFrame(m), Cut(bs)[..k]);
            && Lawful(t, fs) && LedgerOf(t, fs).manifest == Some(m)
            && LedgerOf(t, fs).data == if k * 65536 <= |bs| then k * 65536 else |bs|
    decreases k
  {
    assert CHUNK == 65536;
    hide *;
    var first := ManifestFrame(m);
    if k == 0 {
      ManifestAgreed(t, m);
      IsManifest(m);
      ManifestPasses(t, before, first);
      FramesStart(first, Cut(bs)[..0]);
    } else {
      CutTake(bs, k - 1);
      FewerBounded(Cut(bs), k);
      ChunksPass(t, m, bs, before, k - 1);
      CutSizes(bs, k - 1);
      DemandedNext(|bs|, k);
      FramesNext(first, Cut(bs), k, before);
      DataPasses(t, m, before + RecordFrames(first, Cut(bs)[..k - 1]), Cut(bs)[k - 1], (k - 1) * 65536);
    }
  }

  lemma FramesStart(first: Frame, chunks: seq<seq<byte>>)
    requires chunks == []
    ensures RecordFrames(first, chunks) == [first]
  {
  }

  lemma FramesNext(first: Frame, chunks: seq<seq<byte>>, k: nat, before: seq<Frame>)
    requires 0 < k <= |chunks| && Bounded(chunks[..k])
    ensures Bounded(chunks[..k - 1]) && |chunks[k - 1]| <= CHUNK
    ensures before + RecordFrames(first, chunks[..k])
            == (before + RecordFrames(first, chunks[..k - 1])) + [Frame(DATA, chunks[k - 1])]
  {
    assert chunks[..k][k - 1] == chunks[k - 1];
    assert chunks[..k][..k - 1] == chunks[..k - 1];
  }

  lemma {:induction false} NoData(t: Terms, fs: seq<Frame>)
    requires Lawful(t, fs) && LedgerOf(t, fs).manifest.None?
    ensures DataBodies(fs) == []
  {
    hide Decode;
    if fs != [] { NoData(t, fs[..|fs| - 1]); }
  }

  lemma {:induction false} FramesBodies(first: Frame, chunks: seq<seq<byte>>)
    requires Bounded(chunks) && first.tag != DATA
    ensures DataBodies(RecordFrames(first, chunks)) == chunks
    decreases |chunks|
  {
    if chunks == [] {
      assert [first][..0] == [];
    } else {
      var front := RecordFrames(first, chunks[..|chunks| - 1]);
      FramesBodies(first, chunks[..|chunks| - 1]);
      assert RecordFrames(first, chunks)[..|front|] == front;
    }
  }

  lemma {:induction false} BodiesPlus(fs: seq<Frame>, gs: seq<Frame>)
    ensures DataBodies(fs + gs) == DataBodies(fs) + DataBodies(gs)
    decreases |gs|
  {
    if gs == [] {
      assert fs + gs == fs;
    } else {
      var n := |gs| - 1;
      BodiesPlus(fs, gs[..n]);
      assert (fs + gs)[..|fs| + n] == fs + gs[..n];
    }
  }

  /** Main result: after any lawful beginning, the manifest and the chunks of its record pass, and the record is complete. */
  lemma RecordPasses(t: Terms, sha: Hash, m: Manifest, c: Command, before: seq<Frame>)
    requires Frozen(sha, m, c) && t.expected == Some(m)
    requires Lawful(t, before) && LedgerOf(t, before).manifest.None? && LedgerOf(t, before).scalars < SCALAR_COUNT
    ensures Bounded(Cut(Record(c)))
    ensures var fs := before + RecordFrames(ManifestFrame(m), Cut(Record(c)));
            && Lawful(t, fs) && DataBodies(fs) == Cut(Record(c))
            && LedgerOf(t, fs).manifest == Some(m) && !LedgerOf(t, fs).InRecord()
  {
    RecordLength(c);
    assert |Record(c)| == m.recordBytes && m.Valid();
    var chunks := Cut(Record(c));
    assert chunks[..|chunks|] == chunks;
    hide *;
    CutTake(Record(c), |chunks|);
    ChunksPass(t, m, Record(c), before, |chunks|);
    CutReaches(Record(c));
    NoData(t, before);
    FramesBodies(ManifestFrame(m), chunks);
    BodiesPlus(before, RecordFrames(ManifestFrame(m), chunks));
    RecordOver(LedgerOf(t, before + RecordFrames(ManifestFrame(m), chunks)), m);
  }

  lemma RecordOver(l: Ledger, m: Manifest)
    requires l.manifest == Some(m) && l.data >= m.recordBytes
    ensures !l.InRecord()
  {
  }

  lemma {:induction false} CutReaches(bs: seq<byte>)
    ensures |Cut(bs)| * 65536 >= |bs|
    decreases |bs|
  {
    if |bs| > CHUNK { CutReaches(bs[CHUNK..]); }
  }

  lemma {:induction false} PayloadBodies(fs: seq<Frame>)
    ensures Payload(fs) == |Flatten(DataBodies(fs))|
  {
    if fs == [] {
      FlattenNothing();
    } else {
      var front := fs[..|fs| - 1];
      PayloadBodies(front);
      if fs[|fs| - 1].tag == DATA { FlattenSnoc(DataBodies(front), fs[|fs| - 1].body); }
      else { assert DataBodies(fs) == DataBodies(front); }
    }
  }

  /** The next chunk of a record is the bytes due there, in the size due there. */
  lemma NextChunk(bs: seq<byte>, n: nat, body: seq<byte>)
    requires n <= |Cut(bs)| && Flatten(Cut(bs)[..n]) + body <= bs
    requires |Flatten(Cut(bs)[..n])| < |bs| && |body| == Demanded(|bs|, |Flatten(Cut(bs)[..n])|)
    ensures n < |Cut(bs)| && Cut(bs)[n] == body
  {
    var chunks := Cut(bs);
    FlattenCut(bs);
    assert chunks[..|chunks|] == chunks;
    hide Cut, Flatten, Demanded;
    CutSizes(bs, n);
    assert n * CHUNK == |bs[..n * CHUNK]|;
    assert chunks == chunks[..n] + [chunks[n]] + chunks[n + 1..];
    FlattenSnoc(chunks[..n], chunks[n]);
    FlattenAppend(chunks[..n] + [chunks[n]], chunks[n + 1..]);
    SameStep(Flatten(chunks[..n]), chunks[n], body, bs);
  }

  lemma SameStep(front: seq<byte>, a: seq<byte>, b: seq<byte>, bs: seq<byte>)
    requires front + a <= bs && front + b <= bs && |a| == |b|
    ensures a == b
  {
    assert a == bs[|front|..|front| + |a|] && b == bs[|front|..|front| + |b|];
  }

  /** Main result: no other cut passes. Whatever lawful frames carry bytes of a record of the announced size, their bodies are its chunks. */
  lemma {:induction false} OnlyTheCutPasses(t: Terms, bs: seq<byte>, fs: seq<Frame>)
    requires Lawful(t, fs) && t.expected.Some? && |bs| == t.expected.value.recordBytes && Flatten(DataBodies(fs)) <= bs
    ensures DataBodies(fs) <= Cut(bs)
  {
    hide Cut, Flatten, Decode, Demanded;
    if fs != [] {
      var front, f := fs[..|fs| - 1], fs[|fs| - 1];
      if f.tag == DATA {
        FlattenSnoc(DataBodies(front), f.body);
        assert Flatten(DataBodies(front)) <= Flatten(DataBodies(front)) + f.body <= bs;
        OnlyTheCutPasses(t, bs, front);
        assert DataBodies(front) == Cut(bs)[..|DataBodies(front)|];
        LedgerTells(t, front);
        PayloadBodies(front);
        DueIsDemanded(t, LedgerOf(t, front), f);
        NextChunk(bs, |DataBodies(front)|, f.body);
      } else {
        assert DataBodies(fs) == DataBodies(front);
        OnlyTheCutPasses(t, bs, front);
      }
    }
  }

  lemma DueIsDemanded(t: Terms, l: Ledger, f: Frame)
    requires f.tag == DATA && Admits(t, l, f) && (l.manifest.Some? ==> l.manifest == t.expected)
    ensures t.expected.Some? && l.data < t.expected.value.recordBytes && |f.body| == Demanded(t.expected.value.recordBytes, l.data)
  {
    hide Decode;
  }

  lemma ChunksDecode(sha: Hash, m: Manifest, c: Command, bodies: seq<seq<byte>>)
    requires Frozen(sha, m, c) && bodies == Cut(Record(c))
    ensures FedAll(sha, m, Fresh, bodies) == Live(Reading(Complete, c), [], Record(c))
  {
    forall i | 0 <= i < |bodies| ensures 0 < |bodies[i]| <= CHUNK { CutSizes(Record(c), i); }
    FlattenCut(Record(c));
    hide Cut, Frozen, FedAll, Pieces, Flatten;
    AnySplitDecodes(sha, m, c, bodies);
  }

  /**
   Main result: over any interleaving, if the sender queues only chunks of the frozen record, then what the
   worker has read when as many DATA frames arrived decodes to exactly the frozen command.
   */
  lemma RecordCrosses(t: Terms, sha: Hash, m: Manifest, c: Command, routes: Routes, actions: seq<Action>)
    requires Frozen(sha, m, c) && CarefulRun(t, Initial(routes), actions)
    ensures var w := Run(t, Initial(routes), actions);
            DataBodies(w.queued) <= Cut(Record(c)) ==>
              && DataBodies(w.read) <= Cut(Record(c))
              && (|DataBodies(w.read)| == |Cut(Record(c))| ==>
                    FedAll(sha, m, Fresh, DataBodies(w.read)) == Live(Reading(Complete, c), [], Record(c)))
  {
    assert Countable(c);
    hide *;
    ReadsAPrefix(t, routes, actions);
    var w := Run(t, Initial(routes), actions);
    DataBodiesPrefix(w.read, w.queued);
    var chunks := Cut(Record(c));
    if DataBodies(w.queued) <= chunks && |DataBodies(w.read)| == |chunks| {
      ChunksDecode(sha, m, c, DataBodies(w.read));
    }
  }
}
