/**
 `FrozenCommand.chunks`: the printed pieces regrouped into transport chunks.
 */
module Chunker {
  import opened Bytes
  import opened Manifests
  import opened Records

  /** A byte string cut every CHUNK bytes; only the last part may be shorter, and none is empty. */
  function Cut(bs: seq<byte>): seq<seq<byte>> {
    if bs == [] then []
    else if |bs| <= CHUNK then [bs]
    else [bs[..CHUNK]] + Cut(bs[CHUNK..])
  }

  lemma {:induction false} FlattenCut(bs: seq<byte>)
    ensures Flatten(Cut(bs)) == bs
    decreases |bs|
  {
    if bs == [] {
    } else if |bs| <= CHUNK {
      FlattenTwo(bs, []);
    } else {
      FlattenCut(bs[CHUNK..]);
      assert Cut(bs)[1..] == Cut(bs[CHUNK..]);
      assert bs == bs[..CHUNK] + bs[CHUNK..];
    }
  }

  /** The size the wire demands of every DATA frame: a full chunk, or all that is left. */
  function Demanded(total: nat, sent: nat): nat
    requires sent <= total
  {
    if total - sent < CHUNK then total - sent else CHUNK
  }

  lemma {:induction false} CutSizes(bs: seq<byte>, i: nat)
    requires i < |Cut(bs)|
    ensures i * CHUNK < |bs|
    ensures |Cut(bs)[i]| == Demanded(|bs|, i * CHUNK) > 0
    ensures Flatten(Cut(bs)[..i]) == bs[..i * CHUNK]
    decreases |bs|
  {
    if |bs| > CHUNK && i > 0 {
      var tail := bs[CHUNK..];
      CutSizes(tail, i - 1);
      assert Cut(bs)[..i] == [bs[..CHUNK]] + Cut(tail)[..i - 1];
      assert Cut(bs)[..i][1..] == Cut(tail)[..i - 1];
      assert bs[..i * CHUNK] == bs[..CHUNK] + tail[..(i - 1) * CHUNK];
    }
  }

  ghost predicate AllFull(chunks: seq<seq<byte>>) {
    forall i :: 0 <= i < |chunks| ==> |chunks[i]| == CHUNK
  }

  lemma {:induction false} CutOfFull(chunks: seq<seq<byte>>, last: seq<byte>)
    requires AllFull(chunks) && |last| < CHUNK
    ensures Cut(Flatten(chunks) + last) == if last == [] then chunks else chunks + [last]
  {
    if chunks == [] {
      assert Flatten(chunks) + last == last;
    } else {
      var first, rest := chunks[0], chunks[1..];
      CutOfFull(rest, last);
      var bs := Flatten(chunks) + last;
      assert bs == first + (Flatten(rest) + last);
      assert bs[..CHUNK] == first && bs[CHUNK..] == Flatten(rest) + last;
      if |bs| == CHUNK {
        assert Flatten(rest) + last == [];
        assert Cut(Flatten(rest) + last) == [];
      }
      assert chunks == [first] + rest;
    }
  }

  /** The generator's loop: fill one pending buffer, emit it when it is full, flush the remainder. */
  method Chunks(pieces: seq<seq<byte>>) returns (chunks: seq<seq<byte>>)
    ensures chunks == Cut(Flatten(pieces))
  {
    hide Flatten, Cut;
    FlattenNothing();
    chunks := [];
    var pending: seq<byte> := [];
    for i := 0 to |pieces|
      invariant AllFull(chunks) && |pending| < CHUNK
      invariant Flatten(chunks) + pending == Flatten(pieces[..i])
    {
      var remaining := pieces[i];
      ghost var goal := Flatten(pieces[..i]) + remaining;
      FlattenSnoc(pieces[..i], pieces[i]);
      assert pieces[..i] + [pieces[i]] == pieces[..i + 1];
      while remaining != []
        invariant AllFull(chunks) && |pending| < CHUNK
        invariant Flatten(chunks) + pending + remaining == goal
        decreases |remaining|
      {
        var take := if CHUNK - |pending| < |remaining| then CHUNK - |pending| else |remaining|;
        ghost var before := Flatten(chunks) + pending + remaining;
        pending := pending + remaining[..take];
        remaining := remaining[take..];
        assert Flatten(chunks) + pending + remaining == before;
        if |pending| == CHUNK {
          FlattenSnoc(chunks, pending);
          chunks := chunks + [pending];
          pending := [];
          assert Flatten(chunks) + pending + remaining == before;
        }
      }
      assert Flatten(chunks) + pending + [] == Flatten(chunks) + pending;
    }
    assert pieces[..|pieces|] == pieces;
    CutOfFull(chunks, pending);
    if pending != [] {
      chunks := chunks + [pending];
    }
  }

  lemma FlattenNothing()
    ensures Flatten([]) == []
  {
  }

  lemma FlattenSnoc(a: seq<seq<byte>>, x: seq<byte>)
    ensures Flatten(a + [x]) == Flatten(a) + x
  {
    FlattenAppend(a, [x]);
    FlattenTwo(x, []);
  }

  /** What `FrozenCommand.chunks` sends for a frozen command is its record, in the sizes the wire demands. */
  method RecordChunks(c: Command) returns (chunks: seq<seq<byte>>)
    requires Countable(c)
    ensures Flatten(chunks) == Record(c)
    ensures forall i :: 0 <= i < |chunks| ==>
              i * CHUNK < RecordSize(c) && 0 < |chunks[i]| == Demanded(RecordSize(c), i * CHUNK)
  {
    chunks := Chunks(Pieces(c));
    FlattenCut(Record(c));
    RecordLength(c);
    forall i | 0 <= i < |chunks|
      ensures i * CHUNK < RecordSize(c) && 0 < |chunks[i]| == Demanded(RecordSize(c), i * CHUNK)
    {
      CutSizes(Record(c), i);
    }
  }
}
