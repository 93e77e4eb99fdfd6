/**
 The framed wire between two roles of the chain: frames, the ledger both ends
 keep about them, one-shot grant routes, and the object with its partial reads
 and writes.
 */
module Wires {
  import opened Bytes
  import opened Manifests

  const MANIFEST: byte := 0x20
  const DATA: byte := 0x21
  const FENCE_EVENT: byte := 0x30
  const FENCE_ACK: byte := 0x31
  const SCALAR_LIMIT: nat := 1024
  const SCALAR_COUNT: nat := 16
  const DIAGNOSTIC_COUNT: nat := 13

  predicate Known(code: byte) {
    1 <= code <= 14 || code == MANIFEST || code == DATA || code == FENCE_EVENT || code == FENCE_ACK
  }

  type Tag = t: byte | Known(t) witness 1
  datatype AnyFrame = Frame(tag: Tag, body: seq<byte>)
  type Frame = f: AnyFrame | |f.body| <= CHUNK witness Frame(1, [])

  /** The five header bytes: the tag and the big-endian size of the body. */
  function Header(f: Frame): (h: seq<byte>)
    ensures |h| == 5 && h[0] == f.tag
  {
    Powers();
    [f.tag] + BigEndian(|f.body|, 4)
  }

  function Encoded(f: Frame): seq<byte> {
    Header(f) + f.body
  }

  lemma HeaderSize(f: Frame)
    ensures Number(Header(f)[1..5]) == |f.body|
  {
    Powers();
    assert Header(f)[1..5] == BigEndian(|f.body|, 4);
    NumberOfBigEndian(|f.body|, 4);
  }

  // ---------- the ledger of one direction ----------

  /** What both ends of a wire must agree on before it is used. */
  datatype Terms = Terms(expected: Option<Manifest>, diagnostics: bool)

  datatype Ledger = Ledger(manifest: Option<Manifest>, data: nat, scalars: nat, diagnostics: nat)
  {
    predicate InRecord() {
      manifest.Some? && data < manifest.value.recordBytes
    }

    /** The size of the next DATA frame. */
    function Due(): nat
      requires InRecord()
    {
      var left := manifest.value.recordBytes - data;
      if left < CHUNK then left else CHUNK
    }
  }

  const Blank := Ledger(None, 0, 0, 0)

  predicate Diagnostic(tag: Tag) {
    tag == FENCE_EVENT || tag == FENCE_ACK
  }

  /** `_shape` without a payload: what the header alone must satisfy. */
  predicate Shaped(t: Terms, l: Ledger, tag: Tag, size: nat) {
    && size <= CHUNK
    && (if tag == DATA then l.InRecord() && size == l.Due()
        else if tag == MANIFEST then size == MANIFEST_SIZE && l.manifest.None?
        else if Diagnostic(tag) then t.diagnostics && (if tag == FENCE_EVENT then 69 <= size <= 2117 else size == 28)
        else 0 < size <= SCALAR_LIMIT)
    && (l.InRecord() ==> tag == DATA)
  }

  /** The only manifest that may pass is the expected one. */
  predicate Agreed(t: Terms, f: Frame) {
    f.tag == MANIFEST ==> t.expected.Some? && Decode(f.body) == Ok(t.expected.value)
  }

  /** The ledger as `_shape` leaves it when the payload is known. */
  function Noted(t: Terms, l: Ledger, f: Frame): Ledger {
    if f.tag == MANIFEST then l.(manifest := t.expected)
    else if f.tag == DATA then l.(data := l.data + |f.body|)
    else l
  }

  function Counted(l: Ledger, tag: Tag): Ledger {
    if Diagnostic(tag) then l.(diagnostics := l.diagnostics + 1)
    else if tag != DATA then l.(scalars := l.scalars + 1)
    else l
  }

  predicate InBudget(l: Ledger, tag: Tag) {
    if Diagnostic(tag) then l.diagnostics <= DIAGNOSTIC_COUNT
    else tag == DATA || l.scalars <= SCALAR_COUNT
  }

  function After(t: Terms, l: Ledger, f: Frame): Ledger {
    Counted(Noted(t, l, f), f.tag)
  }

  predicate Admits(t: Terms, l: Ledger, f: Frame) {
    Shaped(t, l, f.tag, |f.body|) && Agreed(t, f) && InBudget(After(t, l, f), f.tag)
  }

  // ---------- grant routes ----------

  datatype Route = Route(tag: Tag, queued: bool, attempted: bool, retired: bool)
  {
    predicate Fresh() { !queued && !attempted && !retired }
    function Retire(): Route { this.(retired := true, queued := false) }
  }

  type Routes = map<nat, Route>

  // ---------- the sending half ----------

  datatype Out = Out(frame: Frame, offset: nat, route: Option<nat>)

  datatype Sender = Sender(ledger: Ledger, out: Option<Out>, failed: bool, open: bool, routes: Routes)

  predicate RouteUsable(routes: Routes, route: Option<nat>, tag: Tag) {
    route.Some? ==> route.value in routes && routes[route.value].tag == tag && routes[route.value].Fresh()
  }

  /** `queue`: note that a refusal can come after the ledger has already moved. */
  function Queue(t: Terms, s: Sender, f: Frame, route: Option<nat>): (Sender, bool) {
    if s.out.Some? || s.failed || !s.open || !Shaped(t, s.ledger, f.tag, |f.body|) || !Agreed(t, f) then (s, false)
    else
      var l := After(t, s.ledger, f);
      if !InBudget(l, f.tag) || !RouteUsable(s.routes, route, f.tag) then (s.(ledger := l), false)
      else
        var routes := if route.None? then s.routes
                      else s.routes[route.value := s.routes[route.value].(queued := true)];
        (s.(ledger := l, out := Some(Out(f, 0, route)), routes := routes), true)
  }

  /** How one `os.write` can end. `Broke(n)`: an exception arrived after n bytes had already left. */
  datatype Answer = Wrote(count: nat) | Blocked | Broke(count: nat)

  predicate Possible(s: Sender, answer: Answer) {
    answer.Blocked? || (s.out.Some? && answer.count <= CHUNK && s.out.value.offset + answer.count <= |Encoded(s.out.value.frame)|)
  }

  function Attempted(s: Sender): Sender
    requires s.out.Some?
  {
    var route := s.out.value.route;
    if route.Some? && route.value in s.routes
    then s.(routes := s.routes[route.value := s.routes[route.value].(attempted := true)])
    else s
  }

  predicate RouteRetired(s: Sender) {
    s.out.Some? && s.out.value.route.Some? && s.out.value.route.value in s.routes
    && s.routes[s.out.value.route.value].retired
  }

  predicate RouteLost(s: Sender) {
    s.out.Some? && s.out.value.route.Some? && s.out.value.route.value in s.routes
    && !s.routes[s.out.value.route.value].queued
  }

  /** The `os.write` of a flush; a count of zero is refused like a failure. */
  function Write(s: Sender, answer: Answer): (Sender, nat)
    requires s.out.Some? && Possible(s, answer)
  {
    var out := s.out.value;
    match answer
    case Blocked => (s, 0)
    case Broke(count) => (s.(failed := true), count)
    case Wrote(count) =>
      if count == 0 then (s.(failed := true), 0)
      else if out.offset + count == |Encoded(out.frame)| then (s.(out := None), count)
      else (s.(out := Some(out.(offset := out.offset + count))), count)
  }

  /** `flush`: the sender afterwards and how many bytes reached the pipe. */
  function Flush(s: Sender, answer: Answer): (Sender, nat)
    requires Possible(s, answer)
  {
    if s.out.None? then (s, 0)
    else if RouteRetired(s) then (s.(failed := s.out.value.offset != 0, out := None, open := false), 0)
    else if RouteLost(s) then (s.(failed := true), 0)
    else Write(Attempted(s), answer)
  }

  function RetireRoute(s: Sender, route: nat): Sender {
    if route in s.routes then s.(routes := s.routes[route := s.routes[route].Retire()]) else s
  }

  function CloseWriter(s: Sender): Sender {
    if s.out.None? then s.(open := false)
    else
      var retired := if s.out.value.route.Some? then RetireRoute(s, s.out.value.route.value) else s;
      retired.(failed := true, out := None, open := false)
  }

  // ---------- the receiving half ----------

  datatype Receiver =
    | Poisoned
    | Receiver(ledger: Ledger, header: Option<(Tag, nat)>, buffer: seq<byte>, eof: bool)
  {
    function Needed(): int
      requires Receiver?
    {
      (if header.None? then 5 else 5 + header.value.1) - |buffer|
    }
  }

  /** How one `os.read` can end. */
  datatype Arrival = Nothing | Chunk(bytes: seq<byte>) | End | Fault

  predicate Deliverable(r: Receiver, a: Arrival) {
    a.Chunk? ==> r.Receiver? && 0 < |a.bytes| <= CHUNK && |a.bytes| <= r.Needed()
  }

  /** A header of five bytes, if it names a tag and a size that may come now. */
  function HeaderOf(t: Terms, l: Ledger, bs: seq<byte>): Option<(Tag, nat)>
    requires |bs| == 5
  {
    if Known(bs[0]) && Shaped(t, l, bs[0], Number(bs[1..5])) then Some((bs[0], Number(bs[1..5]))) else None
  }

  function Completed(t: Terms, r: Receiver): (Receiver, Option<AnyFrame>)
    requires r.Receiver? && r.header.Some? && |r.buffer| == 5 + r.header.value.1
  {
    var (tag, size) := r.header.value;
    if size > CHUNK then (Poisoned, None)
    else
      var f: Frame := Frame(tag, r.buffer[5..]);
      if Admits(t, r.ledger, f) then (Receiver(After(t, r.ledger, f), None, [], r.eof), Some(f)) else (Poisoned, None)
  }

  /** The part of `read` around one `os.read`. Poison keeps nothing: no later read looks at the rest. */
  function Take(t: Terms, r: Receiver, a: Arrival): (Receiver, Option<AnyFrame>)
    requires Deliverable(r, a)
  {
    if r.Poisoned? || r.eof then (r, None)
    else match a
      case Nothing => (r, None)
      case Fault => (Poisoned, None)
      case End => (if r.buffer == [] then r.(eof := true) else Poisoned, None)
      case Chunk(bytes) =>
        var r' := r.(buffer := r.buffer + bytes);
        if r.header.None? then
          if |r'.buffer| < 5 then (r', None)
          else
            var header := HeaderOf(t, r.ledger, r'.buffer);
            if header.None? then (Poisoned, None)
            else if header.value.1 == 0 then Completed(t, r'.(header := header))
            else (r'.(header := header), None)
        else if |r'.buffer| < 5 + r.header.value.1 then (r', None)
        else Completed(t, r')
  }
}
