/**
 Two wire ends joined by a FIFO pipe, under any interleaving of queueing,
 partial writes, route retirement, closing and partial reads.
 */
module Pipes {
  import opened Bytes
  import opened Manifests
  import opened Wires

  // ---------- lawful frame sequences ----------

  function LedgerOf(t: Terms, fs: seq<Frame>): Ledger {
    if fs == [] then Blank else After(t, LedgerOf(t, fs[..|fs| - 1]), fs[|fs| - 1])
  }

  /** Every frame is one its ledger admits: exactly the sequences a reader accepts. */
  predicate Lawful(t: Terms, fs: seq<Frame>) {
    fs == [] || (Lawful(t, fs[..|fs| - 1]) && Admits(t, LedgerOf(t, fs[..|fs| - 1]), fs[|fs| - 1]))
  }

  function Stream(fs: seq<Frame>): seq<byte> {
    if fs == [] then [] else Stream(fs[..|fs| - 1]) + Encoded(fs[|fs| - 1])
  }

  lemma Plus(t: Terms, fs: seq<Frame>, f: Frame)
    ensures LedgerOf(t, fs + [f]) == After(t, LedgerOf(t, fs), f)
    ensures Lawful(t, fs + [f]) <==> Lawful(t, fs) && Admits(t, LedgerOf(t, fs), f)
    ensures Stream(fs + [f]) == Stream(fs) + Encoded(f)
  {
    assert (fs + [f])[..|fs|] == fs;
  }

  lemma {:induction false} LawfulAt(t: Terms, fs: seq<Frame>, i: nat)
    requires Lawful(t, fs) && i < |fs|
    ensures Lawful(t, fs[..i]) && Admits(t, LedgerOf(t, fs[..i]), fs[i])
  {
    if i < |fs| - 1 {
      var front := fs[..|fs| - 1];
      LawfulAt(t, front, i);
      assert front[..i] == fs[..i];
    }
  }

  /** The bytes from frame i on. */
  lemma {:induction false} StreamAt(fs: seq<Frame>, i: nat) returns (tail: seq<byte>)
    requires i < |fs|
    ensures Stream(fs) == Stream(fs[..i]) + Encoded(fs[i]) + tail
    ensures i == |fs| - 1 ==> tail == []
  {
    if i == |fs| - 1 {
      tail := [];
    } else {
      var front := fs[..|fs| - 1];
      var rest := StreamAt(front, i);
      assert front[..i] == fs[..i];
      tail := rest + Encoded(fs[|fs| - 1]);
    }
  }

  // ---------- the system ----------

  datatype World = World(
    sender: Sender, receiver: Receiver,
    queued: seq<Frame>,           // frames whose queueing was accepted
    written: seq<byte>,           // every byte that ever entered the pipe
    origin: seq<Option<nat>>,     // the route on whose behalf each of them was written
    taken: nat,                   // how many of them left the pipe again
    read: seq<Frame>,             // frames the reader returned
    faulted: bool)                // an `os.read` raised

  datatype Action =
    | Enqueue(frame: Frame, route: Option<nat>)
    | Push(answer: Answer)
    | Retire(number: nat)
    | Shut
    | Pull(count: nat)            // os.read with this many bytes; none means EAGAIN, or EOF on a drained closed pipe
    | Break                       // os.read raises

  function Repeat(route: Option<nat>, n: nat): (r: seq<Option<nat>>)
    ensures |r| == n && forall i :: 0 <= i < n ==> r[i] == route
  {
    if n == 0 then [] else Repeat(route, n - 1) + [route]
  }

  function Pushed(w: World, answer: Answer): World {
    if !Possible(w.sender, answer) then w
    else
      var (s, count) := Flush(w.sender, answer);
      if w.sender.out.None? then w.(sender := s)
      else
        var out := w.sender.out.value;
        var end := out.offset + count;
        if end > |Encoded(out.frame)| then w
        else
        w.(sender := s, written := w.written + Encoded(out.frame)[out.offset..end], origin := w.origin + Repeat(out.route, count))
  }

  function ArrivalOf(w: World, count: nat): Arrival
    requires w.taken <= |w.written|
  {
    if 0 < count <= |w.written| - w.taken then Chunk(w.written[w.taken..w.taken + count])
    else if w.taken == |w.written| && !w.sender.open then End
    else Nothing
  }

  function Pulled(t: Terms, w: World, a: Arrival): World {
    if !Deliverable(w.receiver, a) then w
    else
      var (r, f) := Take(t, w.receiver, a);
      w.(receiver := r, read := if f.Some? && |f.value.body| <= CHUNK then w.read + [f.value] else w.read,
         taken := if a.Chunk? && w.receiver.Receiver? && !w.receiver.eof then w.taken + |a.bytes| else w.taken,
         faulted := w.faulted || a.Fault?)
  }

  function Step(t: Terms, w: World, a: Action): World {
    match a
    case Enqueue(frame, route) =>
      (var (s, ok) := Queue(t, w.sender, frame, route);
       w.(sender := s, queued := if ok then w.queued + [frame] else w.queued))
    case Push(answer) => Pushed(w, answer)
    case Retire(number) => w.(sender := RetireRoute(w.sender, number))
    case Shut => w.(sender := CloseWriter(w.sender))
    case Pull(count) => if w.taken <= |w.written| then Pulled(t, w, ArrivalOf(w, count)) else w
    case Break => Pulled(t, w, Fault)
  }

  function Run(t: Terms, w: World, actions: seq<Action>): World
    decreases |actions|
  {
    if actions == [] then w else Run(t, Step(t, w, actions[0]), actions[1..])
  }

  function Initial(routes: Routes): World {
    World(Sender(Blank, None, false, true, routes), Receiver(Blank, None, [], false), [], [], [], 0, [], false)
  }

  /** How much of the pending frame has left: its offset, or more once a write failed part-way. */
  function Gone(w: World): int
    requires w.queued != []
  {
    |w.written| - |Stream(w.queued[..|w.queued| - 1])|
  }

  /** The bytes this flush puts on the pipe are the ones due there; with an unfailed writer they always are. */
  predicate Resumes(w: World, answer: Answer) {
    w.sender.out.Some? && Possible(w.sender, answer) ==>
      var whole, from, n := Encoded(w.sender.out.value.frame), w.sender.out.value.offset, Flush(w.sender, answer).1;
      && w.queued != [] && 0 <= Gone(w) && Gone(w) + n <= |whole| && from + n <= |whole|
      && whole[from..from + n] == whole[Gone(w)..Gone(w) + n]
  }

  /** A manifest or data frame is accepted, or refused before the ledger moves. */
  predicate Minded(t: Terms, s: Sender, frame: Frame, route: Option<nat>) {
    frame.tag == MANIFEST || frame.tag == DATA ==> Queue(t, s, frame, route).1 || Queue(t, s, frame, route).0 == s
  }

  /**
   What the wire leaves to its callers. They keep it by queueing the manifest first, giving routes to grants only,
   and never flushing after a failed write; `InvExactly` shows that no more could be allowed.
   */
  predicate Careful(t: Terms, w: World, a: Action) {
    match a
    case Enqueue(frame, route) => Minded(t, w.sender, frame, route)
    case Push(answer) => Resumes(w, answer)
    case _ => true
  }

  predicate CarefulRun(t: Terms, w: World, actions: seq<Action>)
    decreases |actions|
  {
    actions == [] || (Careful(t, w, actions[0]) && CarefulRun(t, Step(t, w, actions[0]), actions[1..]))
  }

  // ---------- the invariant ----------

  /** The sender's own ledger may have counted refused frames, but only in the two counters. */
  predicate Leads(own: Ledger, l: Ledger) {
    own.manifest == l.manifest && own.data == l.data && own.scalars >= l.scalars && own.diagnostics >= l.diagnostics
  }

  ghost predicate SenderSound(t: Terms, s: Sender, queued: seq<Frame>, written: seq<byte>) {
    && Lawful(t, queued)
    && Leads(s.ledger, LedgerOf(t, queued))
    && written <= Stream(queued)
    && (match s.out
        case None => s.open && !s.failed ==> written == Stream(queued)
        case Some(out) =>
          && s.open
          && queued != [] && queued[|queued| - 1] == out.frame && out.offset < |Encoded(out.frame)|
          && Stream(queued[..|queued| - 1]) <= written
          && (!s.failed ==> written == Stream(queued[..|queued| - 1]) + Encoded(out.frame)[..out.offset]))
  }

  /** What a live reader knows after the bytes s. */
  ghost predicate Reading(t: Terms, read: seq<Frame>, r: Receiver, s: seq<byte>) {
    && r.Receiver? && Lawful(t, read) && r.ledger == LedgerOf(t, read) && s == Stream(read) + r.buffer
    && match r.header
       case None => |r.buffer| < 5
       case Some(h) => 5 <= |r.buffer| < 5 + h.1 && HeaderOf(t, r.ledger, r.buffer[..5]) == r.header
  }

  /** The stream stops strictly inside frame i. */
  ghost predicate CutInside(written: seq<byte>, queued: seq<Frame>, i: nat) {
    i < |queued| && Stream(queued[..i]) < written && written < Stream(queued[..i]) + Encoded(queued[i])
  }

  ghost predicate ReceiverSound(t: Terms, w: World) {
    && w.taken <= |w.written|
    && w.read <= w.queued
    && match w.receiver
       case Poisoned =>
         w.faulted || (!w.sender.open && w.taken == |w.written| && CutInside(w.written, w.queued, |w.read|))
       case Receiver(_, _, buffer, eof) =>
         && Reading(t, w.read, w.receiver, w.written[..w.taken])
         && (eof ==> !w.sender.open && w.taken == |w.written| && buffer == [])
  }

  ghost predicate Inv(t: Terms, w: World) {
    SenderSound(t, w.sender, w.queued, w.written) && ReceiverSound(t, w)
  }

  lemma InitialSound(t: Terms, routes: Routes)
    ensures Inv(t, Initial(routes))
  {
  }

  lemma PrefixPlus(a: seq<byte>, b: seq<byte>, c: seq<byte>)
    requires a <= b
    ensures a <= b + c
  {
  }

  /** Nothing the sender does disturbs what the reader already knows. */
  lemma ReceiverUndisturbed(t: Terms, w: World, w': World)
    requires ReceiverSound(t, w)
    requires w'.receiver == w.receiver && w'.read == w.read && w'.taken == w.taken && w'.faulted == w.faulted
    requires w.queued <= w'.queued && w.written <= w'.written
    requires !w.sender.open ==> !w'.sender.open && w'.written == w.written
    ensures ReceiverSound(t, w')
  {
    hide Reading, Stream, Encoded;
    assert w'.written[..w.taken] == w.written[..w.taken];
    if |w.read| < |w.queued| { assert w'.queued[..|w.read|] == w.queued[..|w.read|]; }
  }

  lemma QueueKeeps(t: Terms, s: Sender, queued: seq<Frame>, written: seq<byte>, frame: Frame, route: Option<nat>)
    requires SenderSound(t, s, queued, written)
    requires Minded(t, s, frame, route)
    ensures var (s', ok) := Queue(t, s, frame, route);
            SenderSound(t, s', if ok then queued + [frame] else queued, written) && (!s.open ==> !s'.open)
  {
    Plus(t, queued, frame);
    EncodedLong(frame);
    hide Lawful, LedgerOf, Stream, Encoded, Decode, Agreed;
    PrefixPlus(written, Stream(queued), Encoded(frame));
    assert (queued + [frame])[..|queued|] == queued;
    assert Encoded(frame)[..0] == [];
    assert Stream(queued) + [] == Stream(queued);
  }

  lemma EnqueueKeeps(t: Terms, w: World, frame: Frame, route: Option<nat>)
    requires Inv(t, w) && Careful(t, w, Enqueue(frame, route))
    ensures Inv(t, Step(t, w, Enqueue(frame, route)))
  {
    QueueKeeps(t, w.sender, w.queued, w.written, frame, route);
    hide Lawful, LedgerOf, Stream, SenderSound, ReceiverSound, Queue;
    ReceiverUndisturbed(t, w, Step(t, w, Enqueue(frame, route)));
  }

  lemma EncodedLong(f: Frame)
    ensures |Encoded(f)| == 5 + |f.body|
  {
  }

  /** A write of the next bytes of the frame at the end of the queue stays on the stream. */
  lemma WriteStays(front: seq<byte>, frame: seq<byte>, from: nat, to: nat)
    requires from <= to <= |frame|
    ensures front + frame[..from] + frame[from..to] == front + frame[..to] <= front + frame
    ensures to == |frame| ==> front + frame[..to] == front + frame
  {
  }

  /** One flush of an open sender: the ways it can leave the frame. */
  lemma FlushOutcome(s: Sender, answer: Answer)
    requires s.out.Some? && s.open && Possible(s, answer)
    requires s.out.value.offset < |Encoded(s.out.value.frame)|
    ensures var (s', n) := Flush(s, answer);
            var out, size := s.out.value, |Encoded(s.out.value.frame)|;
            && s'.ledger == s.ledger && out.offset + n <= size
            && (match s'.out
                case None => (s'.open && s'.failed == s.failed && out.offset + n == size) || (!s'.open && n == 0)
                case Some(out') =>
                  && s'.open && out'.frame == out.frame && out'.offset < size && (s.failed ==> s'.failed)
                  && (!s'.failed ==> out'.offset == out.offset + n))
  {
    hide Encoded;
  }

  /** What stands on the pipe while a frame is pending: all frames before it and some of its own bytes. */
  lemma GoneBytes(t: Terms, w: World)
    requires SenderSound(t, w.sender, w.queued, w.written) && w.sender.out.Some?
    ensures var front, whole := w.queued[..|w.queued| - 1], Encoded(w.sender.out.value.frame);
            && Stream(w.queued) == Stream(front) + whole && 0 <= Gone(w) <= |whole|
            && w.written == Stream(front) + whole[..Gone(w)]
            && (!w.sender.failed ==> Gone(w) == w.sender.out.value.offset)
  {
    hide *;
    SoundParts(t, w.sender, w.queued, w.written);
    var front, f := w.queued[..|w.queued| - 1], w.sender.out.value.frame;
    Plus(t, front, f);
    assert front + [f] == w.queued;
    GoneIs(w);
    BetweenFrames(Stream(front), Encoded(f), w.written);
    if !w.sender.failed { TakeLength(Stream(front), Encoded(f), w.sender.out.value.offset); }
  }

  lemma GoneIs(w: World)
    requires w.queued != []
    ensures Gone(w) == |w.written| - |Stream(w.queued[..|w.queued| - 1])|
  {
    hide Stream;
  }

  lemma TakeLength(front: seq<byte>, whole: seq<byte>, n: nat)
    requires n <= |whole|
    ensures |front + whole[..n]| == |front| + n
  {
  }

  lemma BetweenFrames(front: seq<byte>, whole: seq<byte>, written: seq<byte>)
    requires front <= written <= front + whole
    ensures |written| - |front| <= |whole| && written == front + whole[..|written| - |front|]
  {
    var n := |written| - |front|;
    assert written == (front + whole)[..|front| + n];
  }

  lemma FlushKeeps(t: Terms, w: World, answer: Answer)
    requires SenderSound(t, w.sender, w.queued, w.written) && w.sender.out.Some? && Possible(w.sender, answer) && Resumes(w, answer)
    ensures var (s', n) := Flush(w.sender, answer);
            var out := w.sender.out.value;
            && out.offset + n <= |Encoded(out.frame)| && (n > 0 ==> s'.open)
            && SenderSound(t, s', w.queued, w.written + Encoded(out.frame)[out.offset..out.offset + n])
  {
    hide *;
    SoundParts(t, w.sender, w.queued, w.written);
    var out, n, from := w.sender.out.value, Flush(w.sender, answer).1, Gone(w);
    var front, whole := w.queued[..|w.queued| - 1], Encoded(out.frame);
    GoneBytes(t, w);
    FlushOutcome(w.sender, answer);
    ResumesMeans(w, answer);
    WriteStays(Stream(front), whole, from, from + n);
    SoundAgain(t, Flush(w.sender, answer).0, w.queued, Stream(front) + whole[..from + n], out.frame);
  }

  lemma SoundParts(t: Terms, s: Sender, queued: seq<Frame>, written: seq<byte>)
    requires SenderSound(t, s, queued, written) && s.out.Some?
    ensures Lawful(t, queued) && Leads(s.ledger, LedgerOf(t, queued)) && written <= Stream(queued)
    ensures s.open && queued != [] && queued[|queued| - 1] == s.out.value.frame && s.out.value.offset < |Encoded(s.out.value.frame)|
    ensures var front := Stream(queued[..|queued| - 1]);
            front <= written && (!s.failed ==> written == front + Encoded(s.out.value.frame)[..s.out.value.offset])
  {
    hide Lawful, Leads, LedgerOf, Stream, Encoded;
  }

  lemma SoundAgain(t: Terms, s: Sender, queued: seq<Frame>, written: seq<byte>, frame: Frame)
    requires Lawful(t, queued) && Leads(s.ledger, LedgerOf(t, queued)) && written <= Stream(queued)
    requires queued != [] && queued[|queued| - 1] == frame
    requires match s.out
             case None => s.open && !s.failed ==> written == Stream(queued)
             case Some(out) =>
               && s.open && out.frame == frame && out.offset < |Encoded(frame)| && Stream(queued[..|queued| - 1]) <= written
               && (!s.failed ==> written == Stream(queued[..|queued| - 1]) + Encoded(frame)[..out.offset])
    ensures SenderSound(t, s, queued, written)
  {
    hide Lawful, LedgerOf, Stream, Encoded, Leads;
  }

  lemma PushKeeps(t: Terms, w: World, answer: Answer)
    requires Inv(t, w) && Careful(t, w, Push(answer))
    ensures Inv(t, Step(t, w, Push(answer)))
  {
    hide ReceiverSound, Lawful, LedgerOf, Stream, Encoded;
    if w.sender.out.Some? && Possible(w.sender, answer) {
      FlushKeeps(t, w, answer);
      hide Flush, SenderSound, Resumes;
      ReceiverUndisturbed(t, w, Step(t, w, Push(answer)));
    }
  }

  /** The bytes beyond the frames already read are the beginning of the next queued frame. */
  lemma Ahead(t: Terms, queued: seq<Frame>, read: seq<Frame>, buffer: seq<byte>) returns (next: Frame)
    requires Lawful(t, queued) && read <= queued && buffer != [] && Stream(read) + buffer <= Stream(queued)
    ensures |read| < |queued| && next == queued[|read|]
    ensures Admits(t, LedgerOf(t, read), next)
    ensures |buffer| <= |Encoded(next)| ==> buffer <= Encoded(next)
    ensures |buffer| >= 5 ==> buffer[..5] <= Encoded(next)
  {
    assert queued[..|read|] == read;
    assert |read| == |queued| ==> read == queued;
    next := queued[|read|];
    LawfulAt(t, queued, |read|);
    var tail := StreamAt(queued, |read|);
    EncodedLong(next);
    hide Lawful, LedgerOf, Stream, Encoded, Admits;
    Cancel(Stream(read), buffer, Encoded(next), tail);
  }

  lemma Cancel(a: seq<byte>, b: seq<byte>, c: seq<byte>, d: seq<byte>)
    requires a + b <= a + c + d
    ensures |b| <= |c| ==> b <= c
    ensures |b| >= 5 && |c| >= 5 ==> b[..5] <= c
  {
    forall k | 0 <= k < |b| && k < |c| ensures b[k] == c[k] {
      assert b[k] == (a + b)[|a| + k] == (a + c + d)[|a| + k];
    }
  }

  /** Five bytes that begin an admitted frame are read as its header. */
  lemma HeaderRead(t: Terms, l: Ledger, f: Frame, buffer: seq<byte>)
    requires Admits(t, l, f) && |buffer| >= 5 && buffer <= Encoded(f)
    ensures HeaderOf(t, l, buffer[..5]) == Some((f.tag, |f.body|))
  {
    HeaderSize(f);
    hide Shaped, Number;
    assert buffer[..5] == Header(f);
  }

  /** What `Take` must do with bytes that begin the frame next. */
  ghost predicate TakesPart(t: Terms, read: seq<Frame>, r: Receiver, bytes: seq<byte>, next: Frame)
    requires Deliverable(r, Chunk(bytes))
  {
    var (r', f) := Take(t, r, Chunk(bytes));
    var buffer := r.buffer + bytes;
    && r'.Receiver? && r'.eof == r.eof
    && (if |buffer| == 5 + |next.body|
        then f == Some(next) && r' == Receiver(After(t, r.ledger, next), None, [], r.eof)
        else f == None && r' == Receiver(r.ledger, if |buffer| < 5 then None else Some((next.tag, |next.body|)), buffer, r.eof)
             && |buffer| < 5 + |next.body|)
  }

  lemma TakeHeaderPart(t: Terms, read: seq<Frame>, r: Receiver, bytes: seq<byte>, next: Frame)
    requires r.Receiver? && !r.eof && r.header.None? && |r.buffer| < 5 && Deliverable(r, Chunk(bytes))
    requires |r.buffer + bytes| == 5 ==> HeaderOf(t, r.ledger, r.buffer + bytes) == Some((next.tag, |next.body|))
    requires 0 < |next.body|
    ensures TakesPart(t, read, r, bytes, next)
  {
    hide HeaderOf, Admits;
  }

  lemma TakeBodyPart(t: Terms, read: seq<Frame>, r: Receiver, bytes: seq<byte>, next: Frame)
    requires r.Receiver? && !r.eof && r.header == Some((next.tag, |next.body|)) && 5 <= |r.buffer|
    requires Deliverable(r, Chunk(bytes)) && Admits(t, r.ledger, next)
    requires |r.buffer + bytes| == 5 + |next.body| ==> (r.buffer + bytes)[5..] == next.body
    ensures TakesPart(t, read, r, bytes, next)
  {
    hide HeaderOf, Admits, After;
  }

  lemma TakesNext(t: Terms, queued: seq<Frame>, read: seq<Frame>, r: Receiver, s: seq<byte>, bytes: seq<byte>)
    returns (next: Frame)
    requires Lawful(t, queued) && read <= queued && Reading(t, read, r, s) && !r.eof
    requires Deliverable(r, Chunk(bytes)) && s + bytes <= Stream(queued)
    ensures TakesPart(t, read, r, bytes, next) && Admits(t, r.ledger, next) && read + [next] <= queued
    ensures |r.buffer + bytes| == 5 + |next.body| ==> r.buffer + bytes == Encoded(next)
    ensures |r.buffer + bytes| >= 5 ==> HeaderOf(t, r.ledger, (r.buffer + bytes)[..5]) == Some((next.tag, |next.body|))
  {
    hide *;
    ReadingParts(t, read, r, s);
    SomeBytes(r, bytes);
    var buffer := r.buffer + bytes;
    assert s + bytes == Stream(read) + buffer;
    next := Ahead(t, queued, read, buffer);
    EncodedLong(next);
    SizePositive(t, r.ledger, next);
    assert read + [next] <= queued;
    if |buffer| >= 5 {
      HeaderRead(t, r.ledger, next, buffer[..5]);
      assert buffer[..5][..5] == buffer[..5];
    }
    if r.header.None? {
      if |buffer| == 5 { assert buffer[..5] == buffer; }
      TakeHeaderPart(t, read, r, bytes, next);
    } else {
      assert buffer[..5] == r.buffer[..5];
      if |buffer| == 5 + |next.body| { BodyOfEncoded(next); }
      TakeBodyPart(t, read, r, bytes, next);
    }
  }

  lemma SomeBytes(r: Receiver, bytes: seq<byte>)
    requires Deliverable(r, Chunk(bytes))
    ensures bytes != []
  {
  }

  lemma ReadingParts(t: Terms, read: seq<Frame>, r: Receiver, s: seq<byte>)
    requires Reading(t, read, r, s)
    ensures r.Receiver? && r.ledger == LedgerOf(t, read) && s == Stream(read) + r.buffer
    ensures r.header.None? ==> |r.buffer| < 5
    ensures r.header.Some? ==> 5 <= |r.buffer| && HeaderOf(t, r.ledger, r.buffer[..5]) == r.header
  {
    hide Lawful, LedgerOf, Stream, HeaderOf;
  }

  lemma BodyOfEncoded(f: Frame)
    ensures Encoded(f)[5..] == f.body
  {
  }

  /** Bytes of a lawful stream never poison its reader, in whatever portions they arrive. */
  lemma TakeKeeps(t: Terms, queued: seq<Frame>, read: seq<Frame>, r: Receiver, s: seq<byte>, bytes: seq<byte>)
    requires Lawful(t, queued) && read <= queued && Reading(t, read, r, s) && !r.eof
    requires Deliverable(r, Chunk(bytes)) && s + bytes <= Stream(queued)
    ensures var (r', f) := Take(t, r, Chunk(bytes));
            && (f.Some? ==> |f.value.body| <= CHUNK)
            && var read' := if f.Some? then read + [f.value] else read;
               Reading(t, read', r', s + bytes) && !r'.eof && read' <= queued
  {
    var next := TakesNext(t, queued, read, r, s, bytes);
    hide Lawful, LedgerOf, Stream, HeaderOf, Encoded, Admits, Take, After, Reading;
    if |r.buffer + bytes| == 5 + |next.body| {
      WholeKeeps(t, read, r, s, bytes, next);
    } else {
      PartKeeps(t, read, r, s, bytes, next);
    }
  }

  lemma PartKeeps(t: Terms, read: seq<Frame>, r: Receiver, s: seq<byte>, bytes: seq<byte>, next: Frame)
    requires Reading(t, read, r, s) && |r.buffer + bytes| < 5 + |next.body|
    requires |r.buffer + bytes| >= 5 ==> HeaderOf(t, r.ledger, (r.buffer + bytes)[..5]) == Some((next.tag, |next.body|))
    ensures var header := if |r.buffer + bytes| < 5 then None else Some((next.tag, |next.body|));
            Reading(t, read, Receiver(r.ledger, header, r.buffer + bytes, r.eof), s + bytes)
  {
    hide Lawful, LedgerOf, Stream, HeaderOf;
    assert s + bytes == Stream(read) + (r.buffer + bytes);
  }

  lemma WholeKeeps(t: Terms, read: seq<Frame>, r: Receiver, s: seq<byte>, bytes: seq<byte>, next: Frame)
    requires Reading(t, read, r, s) && r.buffer + bytes == Encoded(next) && Admits(t, r.ledger, next)
    ensures Reading(t, read + [next], Receiver(After(t, r.ledger, next), None, [], r.eof), s + bytes)
  {
    Plus(t, read, next);
    hide Lawful, LedgerOf, Stream, HeaderOf, Encoded, Admits, After;
    assert s + bytes == Stream(read) + (r.buffer + bytes);
  }

  lemma PullKeeps(t: Terms, w: World, count: nat)
    requires Inv(t, w)
    ensures Inv(t, Step(t, w, Pull(count)))
  {
    var a := ArrivalOf(w, count);
    if !Deliverable(w.receiver, a) || w.receiver.Poisoned? || w.receiver.eof || a.Nothing? {
      assert Pulled(t, w, a) == w;
    } else if a.Chunk? {
      hide Inv;
      ChunkKeeps(t, w, a.bytes);
    } else {
      hide Inv;
      EndKeeps(t, w);
    }
  }

  lemma ChunkKeeps(t: Terms, w: World, bytes: seq<byte>)
    requires Inv(t, w) && w.receiver.Receiver? && !w.receiver.eof && Deliverable(w.receiver, Chunk(bytes))
    requires w.taken + |bytes| <= |w.written| && bytes == w.written[w.taken..w.taken + |bytes|]
    ensures Inv(t, Pulled(t, w, Chunk(bytes)))
  {
    assert w.written[..w.taken + |bytes|] == w.written[..w.taken] + bytes;
    TakeKeeps(t, w.queued, w.read, w.receiver, w.written[..w.taken], bytes);
    hide Reading, Lawful, LedgerOf, Stream, HeaderOf, Admits, Take, SenderSound;
  }

  /** A reader with a nonempty buffer stands strictly inside the next frame. */
  lemma PartialIsInside(t: Terms, queued: seq<Frame>, read: seq<Frame>, r: Receiver, s: seq<byte>)
    requires Lawful(t, queued) && read <= queued && Reading(t, read, r, s) && r.buffer != [] && s <= Stream(queued)
    ensures CutInside(s, queued, |read|)
  {
    var next := Ahead(t, queued, read, r.buffer);
    assert queued[..|read|] == read;
    EncodedLong(next);
    hide Lawful, LedgerOf, Stream, HeaderOf, Encoded, Admits;
    if r.header.Some? {
      HeaderRead(t, r.ledger, next, r.buffer[..5]);
      assert r.buffer[..5][..5] == r.buffer[..5];
    }
  }

  lemma EndKeeps(t: Terms, w: World)
    requires Inv(t, w) && w.receiver.Receiver? && !w.receiver.eof && w.taken == |w.written| && !w.sender.open
    ensures Inv(t, Pulled(t, w, End))
  {
    assert w.written[..w.taken] == w.written;
    if w.receiver.buffer != [] { PartialIsInside(t, w.queued, w.read, w.receiver, w.written); }
    hide Lawful, LedgerOf, HeaderOf, Stream, SenderSound, CutInside;
  }

  lemma BreakKeeps(t: Terms, w: World)
    requires Inv(t, w)
    ensures Inv(t, Pulled(t, w, Fault))
  {
    hide Lawful, LedgerOf, HeaderOf, Stream, SenderSound;
  }

  lemma StepKeeps(t: Terms, w: World, a: Action)
    requires Inv(t, w) && Careful(t, w, a)
    ensures Inv(t, Step(t, w, a))
  {
    hide Inv;
    match a
    case Enqueue(frame, route) => EnqueueKeeps(t, w, frame, route);
    case Push(answer) => PushKeeps(t, w, answer);
    case Pull(count) => PullKeeps(t, w, count);
    case Break => BreakKeeps(t, w);
    case Retire(number) => RetireKeeps(t, w, number);
    case Shut => ShutKeeps(t, w);
  }

  lemma RetireKeeps(t: Terms, w: World, number: nat)
    requires Inv(t, w)
    ensures Inv(t, Step(t, w, Retire(number)))
  {
    hide Lawful, LedgerOf, HeaderOf, Stream, Reading;
  }

  lemma ShutKeeps(t: Terms, w: World)
    requires Inv(t, w)
    ensures Inv(t, Step(t, w, Shut))
  {
    hide Lawful, LedgerOf, HeaderOf, Stream, Reading;
  }

  lemma SizePositive(t: Terms, l: Ledger, f: Frame)
    requires Admits(t, l, f)
    ensures 0 < |f.body| <= CHUNK
  {
  }
  lemma {:induction false} RunKeeps(t: Terms, w: World, actions: seq<Action>)
    requires Inv(t, w) && CarefulRun(t, w, actions)
    ensures Inv(t, Run(t, w, actions))
    decreases |actions|
  {
    hide Inv, Step, Careful;
    if actions != [] {
      StepKeeps(t, w, actions[0]);
      RunKeeps(t, Step(t, w, actions[0]), actions[1..]);
    }
  }

  /**
   Main result: under every interleaving, what was read is a prefix of what was queued, and only a failing
   read, or an end of stream inside a frame that the writer abandoned, poisons the reader.
   */
  lemma ReadsAPrefix(t: Terms, routes: Routes, actions: seq<Action>)
    requires CarefulRun(t, Initial(routes), actions)
    ensures var w := Run(t, Initial(routes), actions);
            && w.read <= w.queued && Lawful(t, w.queued)
            && (w.receiver.Poisoned? && !w.faulted ==>
                  !w.sender.open && w.taken == |w.written| && CutInside(w.written, w.queued, |w.read|))
  {
    InitialSound(t, routes);
    RunKeeps(t, Initial(routes), actions);
    hide Run, CarefulRun, Lawful, CutInside;
  }

  /** Once a healthy writer is idle and the pipe is drained, every queued frame has been read. */
  lemma DrainedIsComplete(t: Terms, routes: Routes, actions: seq<Action>)
    requires CarefulRun(t, Initial(routes), actions)
    ensures var w := Run(t, Initial(routes), actions);
            w.sender.out.None? && w.sender.open && !w.sender.failed && w.taken == |w.written| && w.receiver.Receiver?
            ==> w.read == w.queued
  {
    InitialSound(t, routes);
    RunKeeps(t, Initial(routes), actions);
    var w := Run(t, Initial(routes), actions);
    hide Run, CarefulRun, Lawful, Reading, CutInside;
    if w.sender.out.None? && w.sender.open && !w.sender.failed && w.taken == |w.written| && w.receiver.Receiver? {
      WholeIsRead(t, w);
    }
  }

  lemma WholeIsRead(t: Terms, w: World)
    requires Inv(t, w) && w.receiver.Receiver? && w.taken == |w.written| && w.written == Stream(w.queued)
    ensures w.read == w.queued
  {
    assert w.written[..w.taken] == w.written;
    var r := w.receiver;
    if |w.read| < |w.queued| {
      var tail := StreamAt(w.queued, |w.read|);
      assert w.queued[..|w.read|] == w.read;
      EncodedLong(w.queued[|w.read|]);
      assert r.buffer != [];
      PartialIsInside(t, w.queued, w.read, r, w.written);
    } else {
      assert w.read == w.queued;
    }
  }

  // ---------- no scalar inside a record ----------

  function Payload(fs: seq<Frame>): nat {
    if fs == [] then 0
    else Payload(fs[..|fs| - 1]) + (if fs[|fs| - 1].tag == DATA then |fs[|fs| - 1].body| else 0)
  }

  /** The ledger is a function of the frames: payload so far, and whether the manifest has passed. */
  lemma {:induction false} LedgerTells(t: Terms, fs: seq<Frame>)
    requires Lawful(t, fs)
    ensures var l := LedgerOf(t, fs);
            && l.data == Payload(fs)
            && (l.manifest.Some? <==> exists i :: 0 <= i < |fs| && fs[i].tag == MANIFEST)
            && (if l.manifest.Some? then l.manifest == t.expected && l.data <= t.expected.value.recordBytes else l.data == 0)
  {
    hide Decode;
    if fs != [] {
      var front := fs[..|fs| - 1];
      LedgerTells(t, front);
      var l := LedgerOf(t, front);
      if l.manifest.Some? {
        var i :| 0 <= i < |front| && front[i].tag == MANIFEST;
        assert fs[i].tag == MANIFEST;
      } else if fs[|fs| - 1].tag != MANIFEST {
        forall i | 0 <= i < |fs| ensures fs[i].tag != MANIFEST {
          if i < |front| { assert fs[i] == front[i]; }
        }
      }
    }
  }

  /** After the manifest, a frame is DATA exactly while the record is unfinished, and then of the one size due. */
  lemma NoScalarInsideRecord(t: Terms, fs: seq<Frame>, i: nat, k: nat)
    requires Lawful(t, fs) && i < k < |fs| && fs[i].tag == MANIFEST
    ensures t.expected.Some? && Payload(fs[..i + 1]) == 0 && fs[k].tag != MANIFEST
    ensures var left := t.expected.value.recordBytes - Payload(fs[..k]);
            && (fs[k].tag == DATA <==> left > 0)
            && (fs[k].tag == DATA ==> |fs[k].body| == if left < CHUNK then left else CHUNK)
  {
    LawfulAt(t, fs, k);
    LawfulAt(t, fs, i);
    LedgerTells(t, fs[..k]);
    LedgerTells(t, fs[..i]);
    assert fs[..k][i] == fs[i];
    assert fs[..i + 1][..i] == fs[..i];
    hide Lawful, LedgerOf, Decode;
  }

  // ---------- silence ----------

  /** A retired route never puts another byte on the stream, whatever is called in whatever order. */
  lemma {:induction false} RetiredIsSilent(t: Terms, w: World, actions: seq<Action>, r: nat)
    requires r in w.sender.routes && w.sender.routes[r].retired
    ensures var w' := Run(t, w, actions);
            w.origin <= w'.origin && forall k :: |w.origin| <= k < |w'.origin| ==> w'.origin[k] != Some(r)
    decreases |actions|
  {
    if actions != [] {
      var w1 := Step(t, w, actions[0]);
      RetiredStep(t, w, actions[0], r);
      RetiredIsSilent(t, w1, actions[1..], r);
    }
  }

  lemma RetiredPush(w: World, answer: Answer, r: nat)
    requires r in w.sender.routes && w.sender.routes[r].retired
    ensures var w' := Pushed(w, answer);
            && r in w'.sender.routes && w'.sender.routes[r].retired
            && w.origin <= w'.origin && forall k :: |w.origin| <= k < |w'.origin| ==> w'.origin[k] != Some(r)
  {
    hide Encoded;
  }

  lemma RetiredStep(t: Terms, w: World, a: Action, r: nat)
    requires r in w.sender.routes && w.sender.routes[r].retired
    ensures var w' := Step(t, w, a);
            && r in w'.sender.routes && w'.sender.routes[r].retired
            && w.origin <= w'.origin && forall k :: |w.origin| <= k < |w'.origin| ==> w'.origin[k] != Some(r)
  {
    hide Shaped, Encoded, Take, Decode, Pushed, Agreed, After;
    if a.Push? { RetiredPush(w, a.answer, r); }
  }

  /** No flush while a failed write is pending: the habit of every caller. */
  predicate StopsAtFailure(t: Terms, w: World, actions: seq<Action>)
    decreases |actions|
  {
    actions == [] || ((actions[0].Push? && w.sender.failed ==> w.sender.out.None?) && StopsAtFailure(t, Step(t, w, actions[0]), actions[1..]))
  }

  /** A frame that was abandoned half-written is the last thing on the stream. */
  lemma {:induction false} AbandonedIsLast(t: Terms, w: World, actions: seq<Action>)
    requires w.sender.out.Some? ==> w.sender.open && StopsAtFailure(t, w, actions)
    requires w.sender.failed || !w.sender.open
    ensures Run(t, w, actions).written == w.written
    decreases |actions|
  {
    if actions != [] {
      var w1 := Step(t, w, actions[0]);
      SilentStep(t, w, actions[0]);
      hide Step;
      AbandonedIsLast(t, w1, actions[1..]);
    }
  }

  lemma SilentStep(t: Terms, w: World, a: Action)
    requires w.sender.out.Some? ==> w.sender.open && (a.Push? ==> !w.sender.failed)
    requires w.sender.failed || !w.sender.open
    ensures var w' := Step(t, w, a);
            && w'.written == w.written && (w'.sender.failed || !w'.sender.open)
            && (w'.sender.out.Some? ==> w.sender.out.Some? && w'.sender.open)
  {
    hide Shaped, Encoded, Take, Decode;
  }

  /** With nothing pending, a stream that is not whole frames is final. */
  lemma PartialIsLast(t: Terms, w: World, actions: seq<Action>)
    requires Inv(t, w) && w.sender.out.None? && w.written != Stream(w.queued)
    ensures Run(t, w, actions).written == w.written
  {
    AbandonedIsLast(t, w, actions);
  }

  // ---------- why the habits are needed ----------

  lemma SecondByte(f: Frame)
    ensures Encoded(f)[0] == f.tag != 0 && Encoded(f)[1] == 0
  {
    HeaderSize(f);
    var h := Header(f)[1..5];
    assert h[..3][..2][..1][..0] == [];
    assert Number(h[..3][..2][..1]) == h[0];
    assert Number(h[..3][..2]) == Number(h[..3][..2][..1]) * 256 + h[1];
    assert Number(h[..3]) == Number(h[..3][..2]) * 256 + h[2];
    assert Number(h) == Number(h[..3]) * 256 + h[3];
  }

  lemma RunTwo(t: Terms, w: World, a: Action, b: Action)
    ensures Run(t, w, [a, b]) == Step(t, Step(t, w, a), b)
  {
    assert [a, b][1..] == [b] && [b][1..] == [];
    assert Run(t, Step(t, w, a), [b]) == Run(t, Step(t, Step(t, w, a), b), []);
  }

  lemma PrefixExactly(before: seq<byte>, front: seq<byte>, whole: seq<byte>, gone: nat, from: nat, n: nat)
    requires gone <= |whole| && from + n <= |whole| && before == front + whole[..gone]
    ensures before + whole[from..from + n] <= front + whole
            <==> gone + n <= |whole| && whole[from..from + n] == whole[gone..gone + n]
  {
    var sent, written := whole[from..from + n], before + whole[from..from + n];
    if written <= front + whole {
      var due := whole[gone..gone + n];
      forall k | 0 <= k < n ensures sent[k] == due[k] {
        assert written[|front| + gone + k] == (front + whole)[|front| + gone + k];
      }
      assert sent == due;
    }
    if gone + n <= |whole| && whole[from..from + n] == whole[gone..gone + n] { WriteStays(front, whole, gone, gone + n); }
  }

  lemma SenderPart(t: Terms, w: World)
    requires Inv(t, w)
    ensures SenderSound(t, w.sender, w.queued, w.written)
  {
    hide SenderSound, ReceiverSound;
  }

  lemma PushWrites(t: Terms, w: World, answer: Answer)
    requires w.sender.out.Some? && Possible(w.sender, answer)
    requires w.sender.out.value.offset + Flush(w.sender, answer).1 <= |Encoded(w.sender.out.value.frame)|
    ensures var w', out, n := Step(t, w, Push(answer)), w.sender.out.value, Flush(w.sender, answer).1;
            w'.queued == w.queued && w'.written == w.written + Encoded(out.frame)[out.offset..out.offset + n]
  {
    hide Encoded, Flush;
  }

  lemma ResumesMeans(w: World, answer: Answer)
    requires w.sender.out.Some? && Possible(w.sender, answer) && w.queued != []
    requires w.sender.out.value.offset + Flush(w.sender, answer).1 <= |Encoded(w.sender.out.value.frame)|
    ensures var whole, from, n := Encoded(w.sender.out.value.frame), w.sender.out.value.offset, Flush(w.sender, answer).1;
            Resumes(w, answer) <==> 0 <= Gone(w) && Gone(w) + n <= |whole| && whole[from..from + n] == whole[Gone(w)..Gone(w) + n]
  {
    hide Encoded, Flush, Gone;
  }

  /** A flush keeps the stream what was queued exactly when it resumes where the pipe stands. */
  lemma PushExactly(t: Terms, w: World, answer: Answer)
    requires Inv(t, w) && w.sender.out.Some? && Possible(w.sender, answer)
    ensures var w' := Step(t, w, Push(answer)); w'.queued == w.queued && (w'.written <= Stream(w'.queued) <==> Resumes(w, answer))
  {
    hide *;
    var out, n := w.sender.out.value, Flush(w.sender, answer).1;
    SenderPart(t, w);
    SoundParts(t, w.sender, w.queued, w.written);
    GoneBytes(t, w);
    FlushOutcome(w.sender, answer);
    PushWrites(t, w, answer);
    ResumesMeans(w, answer);
    PrefixExactly(w.written, Stream(w.queued[..|w.queued| - 1]), Encoded(out.frame), Gone(w), out.offset, n);
  }

  /** A manifest or data frame refused after the ledger moved leaves a ledger that no longer tells what was queued. */
  lemma RefusalMisleads(t: Terms, w: World, frame: Frame, route: Option<nat>)
    requires Inv(t, w) && !Minded(t, w.sender, frame, route)
    ensures var w' := Step(t, w, Enqueue(frame, route));
            w'.queued == w.queued && !Leads(w'.sender.ledger, LedgerOf(t, w'.queued))
  {
    hide Lawful, LedgerOf, Stream, Encoded, Decode, ReceiverSound, RouteUsable;
  }

  /**
   What every caller does: only CREATE_W and RUN_TOOL have routes, the manifest is sent before the scalars run out,
   and a failed write is never followed by a flush.
   */
  predicate Habit(w: World, a: Action) {
    match a
    case Enqueue(frame, route) =>
      frame.tag == MANIFEST || frame.tag == DATA ==> route.None? && (frame.tag == MANIFEST ==> w.sender.ledger.scalars < SCALAR_COUNT)
    case Push(_) => w.sender.failed ==> w.sender.out.None?
    case _ => true
  }

  lemma HabitsAreCareful(t: Terms, w: World, a: Action)
    requires Inv(t, w) && Habit(w, a)
    ensures Careful(t, w, a)
  {
    if a.Push? && w.sender.out.Some? && Possible(w.sender, a.answer) {
      SenderPart(t, w);
      hide *;
      SoundParts(t, w.sender, w.queued, w.written);
      GoneBytes(t, w);
      FlushOutcome(w.sender, a.answer);
      ResumesMeans(w, a.answer);
      PushIsCareful(t, w, a.answer);
    } else {
      hide Lawful, LedgerOf, Stream, Encoded, Decode, ReceiverSound, Leads, Flush;
    }
  }

  lemma PushIsCareful(t: Terms, w: World, answer: Answer)
    requires Resumes(w, answer)
    ensures Careful(t, w, Push(answer))
  {
    hide Resumes;
  }

  /** Main result: a step keeps the invariant exactly when it is a careful one, so the theorems ask for no more than they must. */
  lemma InvExactly(t: Terms, w: World, a: Action)
    requires Inv(t, w)
    ensures Inv(t, Step(t, w, a)) <==> Careful(t, w, a)
  {
    if Careful(t, w, a) { StepKeeps(t, w, a); }
    else if a.Enqueue? {
      RefusalMisleads(t, w, a.frame, a.route);
      hide Minded, Leads, Lawful, LedgerOf, Stream, ReceiverSound;
    } else {
      PushExactly(t, w, a.answer);
      hide Resumes, Leads, Lawful, LedgerOf, Stream, ReceiverSound;
    }
  }

  /** One write that breaks off after n bytes: the stream is n bytes further, the frame is not. */
  lemma BrokenPush(t: Terms, w: World, n: nat)
    requires SenderSound(t, w.sender, w.queued, w.written) && w.sender.out.Some? && !w.sender.failed && Possible(w.sender, Broke(n))
    requires !RouteRetired(w.sender) && !RouteLost(w.sender)
    ensures var w' := Step(t, w, Push(Broke(n)));
            && w'.queued == w.queued && w'.sender == Attempted(w.sender).(failed := true)
            && w'.queued != [] && w'.sender.out == w.sender.out && Gone(w') == w.sender.out.value.offset + n
            && !RouteRetired(w'.sender) && !RouteLost(w'.sender)
  {
    GoneBytes(t, w);
    hide Encoded, Stream, Lawful, LedgerOf;
  }

  /**
   Main result: after a write that broke off with n bytes gone, another flush of k bytes keeps the stream a prefix of
   what was queued exactly when the repeated bytes are the due ones. A write that broke off before any byte left is
   harmless.
   */
  lemma FlushAfterFailure(t: Terms, w: World, n: nat, k: nat)
    requires Inv(t, w) && !w.sender.failed && w.sender.out.Some? && !RouteRetired(w.sender) && !RouteLost(w.sender)
    requires Possible(w.sender, Broke(n)) && Possible(w.sender, Wrote(k))
    ensures var w' := Run(t, w, [Push(Broke(n)), Push(Wrote(k))]);
            var whole, from := Encoded(w.sender.out.value.frame), w.sender.out.value.offset;
            && w'.queued == w.queued
            && (w'.written <= Stream(w'.queued) <==> from + n + k <= |whole| && whole[from..from + k] == whole[from + n..from + n + k])
            && (n == 0 ==> w'.written <= Stream(w'.queued))
  {
    hide *;
    var w1 := Step(t, w, Push(Broke(n)));
    RunTwo(t, w, Push(Broke(n)), Push(Wrote(k)));
    BrokenWorld(t, w, n);
    SamePossible(w.sender, w1.sender, k);
    RetryCount(w1.sender, k);
    PushExactly(t, w1, Wrote(k));
    ResumesMeans(w1, Wrote(k));
  }

  lemma BrokenWorld(t: Terms, w: World, n: nat)
    requires Inv(t, w) && !w.sender.failed && w.sender.out.Some? && !RouteRetired(w.sender) && !RouteLost(w.sender)
    requires Possible(w.sender, Broke(n))
    ensures var w' := Step(t, w, Push(Broke(n)));
            && Inv(t, w') && w'.queued == w.queued != [] && w'.sender.out == w.sender.out
            && Gone(w') == w.sender.out.value.offset + n && !RouteRetired(w'.sender) && !RouteLost(w'.sender)
  {
    BrokenPush(t, w, n);
    BrokenIsCareful(t, w, n);
    hide Inv, Step, Gone, Possible, RouteRetired, RouteLost;
    StepKeeps(t, w, Push(Broke(n)));
  }

  lemma SamePossible(s: Sender, s': Sender, k: nat)
    requires s'.out == s.out && s.out.Some? && Possible(s, Wrote(k))
    ensures Possible(s', Wrote(k)) && s.out.value.offset + k <= |Encoded(s.out.value.frame)|
  {
    hide Encoded;
  }

  lemma RetryCount(s: Sender, k: nat)
    requires s.out.Some? && Possible(s, Wrote(k)) && !RouteRetired(s) && !RouteLost(s)
    ensures Flush(s, Wrote(k)).1 == k
  {
    hide Encoded, RouteRetired, RouteLost;
  }

  /** An unfailed writer always resumes where the pipe stands. */
  lemma BrokenIsCareful(t: Terms, w: World, n: nat)
    requires Inv(t, w) && !w.sender.failed && w.sender.out.Some? && Possible(w.sender, Broke(n))
    ensures Careful(t, w, Push(Broke(n)))
  {
    GoneBytes(t, w);
    FlushOutcome(w.sender, Broke(n));
    hide Encoded, Stream, Lawful, LedgerOf, ReceiverSound, Flush;
  }

  lemma PossibleOne(s: Sender)
    requires s.out.Some? && s.out.value.offset == 0
    ensures Possible(s, Broke(1)) && Possible(s, Wrote(1))
  {
    EncodedLong(s.out.value.frame);
    hide Encoded;
  }

  /** So repeating the first byte of any frame, whatever it is, leaves what was queued: no frame begins with two equal bytes. */
  lemma FlushAfterFailureRepeats(t: Terms, w: World)
    requires Inv(t, w) && !w.sender.failed && w.sender.out.Some? && w.sender.out.value.offset == 0
    requires !RouteRetired(w.sender) && !RouteLost(w.sender)
    ensures var w' := Run(t, w, [Push(Broke(1)), Push(Wrote(1))]); !(w'.written <= Stream(w'.queued))
  {
    hide *;
    var f := w.sender.out.value.frame;
    SecondByte(f);
    EncodedLong(f);
    PossibleOne(w.sender);
    FlushAfterFailure(t, w, 1, 1);
    assert Encoded(f)[..1][0] != Encoded(f)[1..2][0];
  }

  /** A manifest refused as the seventeenth scalar still opens the record, and the data that follows misleads the reader. */
  lemma LateManifestMisleads(t: Terms, w: World, manifest: Frame, data: Frame)
    requires t.expected.Some? && t.expected.value.Valid()
    requires Inv(t, w) && w.sender.out.None? && w.sender.open && !w.sender.failed
    requires w.sender.ledger.manifest.None? && w.sender.ledger.data == 0 && w.sender.ledger.scalars >= SCALAR_COUNT
    requires manifest.tag == MANIFEST && |manifest.body| == MANIFEST_SIZE && Agreed(t, manifest)
    requires data.tag == DATA && |data.body| == Noted(t, w.sender.ledger, manifest).Due()
    ensures var w' := Run(t, w, [Enqueue(manifest, None), Enqueue(data, None)]);
            && w'.queued == w.queued + [data]
            && HeaderOf(t, LedgerOf(t, w.queued), Header(data)).None?
  {
    RunTwo(t, w, Enqueue(manifest, None), Enqueue(data, None));
    DataNeedsManifest(t, LedgerOf(t, w.queued), data);
    NothingOpened(t, w);
    RefusedManifest(t, w, manifest);
    hide Inv, Decode, Run, HeaderOf, Agreed, Step, LedgerOf, Manifest.Valid;
    AcceptedData(t, w, manifest, data);
  }

  lemma NothingOpened(t: Terms, w: World)
    requires Inv(t, w)
    ensures LedgerOf(t, w.queued).manifest == w.sender.ledger.manifest
  {
    hide LedgerOf, Lawful, Stream, Encoded, ReceiverSound;
  }

  lemma RefusedManifest(t: Terms, w: World, manifest: Frame)
    requires w.sender.out.None? && w.sender.open && !w.sender.failed
    requires w.sender.ledger.manifest.None? && w.sender.ledger.scalars >= SCALAR_COUNT
    requires manifest.tag == MANIFEST && |manifest.body| == MANIFEST_SIZE && Agreed(t, manifest)
    ensures var l := Noted(t, w.sender.ledger, manifest);
            Step(t, w, Enqueue(manifest, None)) == w.(sender := w.sender.(ledger := l.(scalars := l.scalars + 1)))
  {
    hide Agreed;
  }

  lemma AcceptedData(t: Terms, w: World, manifest: Frame, data: Frame)
    requires t.expected.Some? && t.expected.value.Valid() && manifest.tag == MANIFEST
    requires w.sender.out.None? && w.sender.open && !w.sender.failed && w.sender.ledger.data == 0
    requires data.tag == DATA && |data.body| == Noted(t, w.sender.ledger, manifest).Due()
    ensures var l := Noted(t, w.sender.ledger, manifest);
            Step(t, w.(sender := w.sender.(ledger := l.(scalars := l.scalars + 1))), Enqueue(data, None)).queued == w.queued + [data]
  {
    hide Agreed;
    assert Agreed(t, data) by { NotAManifest(t, data); }
  }

  lemma NotAManifest(t: Terms, f: Frame)
    requires f.tag != MANIFEST
    ensures Agreed(t, f)
  {
  }

  lemma DataNeedsManifest(t: Terms, l: Ledger, data: Frame)
    requires data.tag == DATA && l.manifest.None?
    ensures HeaderOf(t, l, Header(data)).None?
  {
  }
}
