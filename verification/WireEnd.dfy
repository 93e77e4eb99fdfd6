/**
 The wire object: one original reader and writer pair, with the partial writes
 and reads of its flush and read loops.
 */
module WireEnds {
  import opened Bytes
  import opened Manifests
  import opened Wires

  /** One `read` call: a header that has just completed is followed at once by one read of its body. */
  function ReadCall(t: Terms, r: Receiver, first: Arrival, second: Arrival): (Receiver, Option<AnyFrame>)
    requires Deliverable(r, first)
    requires Deliverable(Take(t, r, first).0, second)
  {
    var (r1, f) := Take(t, r, first);
    if r.Receiver? && r.header.None? && r1.Receiver? && r1.header.Some? then Take(t, r1, second) else (r1, f)
  }

  class Wire {
    const terms: Terms
    var outgoing: Ledger
    var incoming: Ledger
    var buffer: seq<byte>
    var header: Option<(Tag, nat)>
    var poisoned: bool
    var eof: bool
    var writeFailed: bool
    var writerOpen: bool
    var out: Option<seq<byte>>
    var outOffset: nat
    var outRoute: Option<nat>
    var routes: Routes
    ghost var outFrame: Frame

    ghost predicate Valid() reads this {
      && (out.Some? ==> out.value == Encoded(outFrame) && outOffset < |out.value|)
      && (!poisoned ==> if header.None? then |buffer| < 5
                        else 0 < header.value.1 <= CHUNK && 5 <= |buffer| < 5 + header.value.1)
    }

    ghost function Sending(): Sender reads this {
      Sender(outgoing, if out.None? then None else Some(Out(outFrame, outOffset, outRoute)), writeFailed, writerOpen, routes)
    }

    ghost function Receiving(): Receiver reads this {
      if poisoned then Poisoned else Receiver(incoming, header, buffer, eof)
    }

    constructor (terms: Terms, routes: Routes)
      ensures Valid() && this.terms == terms
      ensures Sending() == Sender(Blank, None, false, true, routes) && Receiving() == Receiver(Blank, None, [], false)
    {
      this.terms, this.routes := terms, routes;
      outgoing, incoming, buffer, header := Blank, Blank, [], None;
      poisoned, eof, writeFailed, writerOpen := false, false, false, true;
      out, outOffset, outRoute, outFrame := None, 0, None, Frame(1, []);
    }

    /** `_shape` for a frame about to leave: refuse it, or note it in the outgoing ledger. */
    method ShapeOutgoing(f: Frame) returns (ok: bool)
      modifies `outgoing
      ensures ok <==> Shaped(terms, old(outgoing), f.tag, |f.body|) && Agreed(terms, f)
      ensures outgoing == if ok then Noted(terms, old(outgoing), f) else old(outgoing)
    {
      if !Shaped(terms, outgoing, f.tag, |f.body|) { return false; }
      if f.tag == MANIFEST {
        var decoded := Decode(f.body);
        if !(terms.expected.Some? && decoded == Ok(terms.expected.value)) { return false; }
        outgoing := outgoing.(manifest := Some(decoded.value));
      }
      if f.tag == DATA {
        outgoing := outgoing.(data := outgoing.data + |f.body|);
      }
      return true;
    }

    method Queue(f: Frame, route: Option<nat>) returns (ok: bool)
      requires Valid()
      modifies this
      ensures Valid()
      ensures (Sending(), ok) == Wires.Queue(terms, old(Sending()), f, route)
      ensures Receiving() == old(Receiving())
    {
      hide Shaped, Agreed, Encoded, Counted, InBudget, Noted;
      if out.Some? || writeFailed || !writerOpen { return false; }
      var shaped := ShapeOutgoing(f);
      if !shaped { return false; }
      var counted := Count(f.tag);
      if !counted { return false; }
      if route.Some? {
        if route.value !in routes || routes[route.value].tag != f.tag || !routes[route.value].Fresh() { return false; }
        routes := routes[route.value := routes[route.value].(queued := true)];
      }
      out, outOffset, outRoute, outFrame := Some(Encoded(f)), 0, route, f;
      EncodedSize(f);
      return true;
    }

    /** The budgets of scalars and diagnostics; an overdrawn budget stays overdrawn. */
    method Count(tag: Tag) returns (ok: bool)
      modifies `outgoing
      ensures outgoing == Counted(old(outgoing), tag) && ok == InBudget(outgoing, tag)
    {
      if Diagnostic(tag) {
        outgoing := outgoing.(diagnostics := outgoing.diagnostics + 1);
        return outgoing.diagnostics <= DIAGNOSTIC_COUNT;
      } else if tag != DATA {
        outgoing := outgoing.(scalars := outgoing.scalars + 1);
        return outgoing.scalars <= SCALAR_COUNT;
      }
      return true;
    }

    /** One flush: whether the wire is idle afterwards, and how many bytes entered the pipe. */
    method Flush(answer: Answer) returns (idle: bool, count: nat)
      requires Valid() && Possible(Sending(), answer)
      modifies this
      ensures Valid()
      ensures Sending() == Wires.Flush(old(Sending()), answer).0 && count == Wires.Flush(old(Sending()), answer).1
      ensures idle ==> out.None? && writerOpen == old(writerOpen)
      ensures Receiving() == old(Receiving())
    {
      hide Encoded;
      if out.None? { return true, 0; }
      if outRoute.Some? && outRoute.value in routes {
        if routes[outRoute.value].retired {
          writeFailed := outOffset != 0;
          out := None;
          writerOpen := false;
          return false, 0;
        }
        if !routes[outRoute.value].queued {
          writeFailed := true;
          return false, 0;
        }
        routes := routes[outRoute.value := routes[outRoute.value].(attempted := true)];
      }
      ghost var tried := Attempted(old(Sending()));
      assert Sending() == tried;
      hide *;
      idle, count := Write(answer);
    }

    /** The `os.write` inside a flush. */
    method Write(answer: Answer) returns (idle: bool, count: nat)
      requires Valid() && out.Some? && Possible(Sending(), answer)
      modifies `writeFailed, `out, `outOffset
      ensures Valid() && idle == out.None?
      ensures (Sending(), count) == Wires.Write(old(Sending()), answer)
      ensures Receiving() == old(Receiving())
    {
      hide Encoded;
      match answer {
        case Blocked =>
          return false, 0;
        case Broke(n) =>
          writeFailed := true;
          return false, n;
        case Wrote(n) =>
          if n == 0 {
            writeFailed := true;
            return false, 0;
          }
          if outOffset + n == |out.value| {
            out := None;
            return true, n;
          }
          outOffset := outOffset + n;
          return false, n;
      }
    }

    method CloseWriter()
      requires Valid()
      modifies this
      ensures Valid()
      ensures Sending() == Wires.CloseWriter(old(Sending())) && Receiving() == old(Receiving())
    {
      if out.Some? {
        writeFailed := true;
        if outRoute.Some? && outRoute.value in routes {
          routes := routes[outRoute.value := routes[outRoute.value].Retire()];
        }
        out := None;
      }
      writerOpen := false;
    }

    method Read(first: Arrival, second: Arrival) returns (frame: Option<AnyFrame>)
      requires Valid() && !poisoned && Deliverable(Receiving(), first)
      requires Deliverable(Take(terms, Receiving(), first).0, second)
      modifies this
      ensures Valid()
      ensures (Receiving(), frame) == ReadCall(terms, old(Receiving()), first, second)
      ensures Sending() == old(Sending())
    {
      hide Shaped, Admits, HeaderOf;
      var awaited := header.None?;
      frame := ReadOnce(first);
      if awaited && !poisoned && header.Some? {
        frame := ReadOnce(second);
      }
    }

    /** The part of a `read` call around one `os.read`. */
    method ReadOnce(a: Arrival) returns (frame: Option<AnyFrame>)
      requires Valid() && !poisoned && Deliverable(Receiving(), a)
      modifies `incoming, `buffer, `header, `poisoned, `eof
      ensures Valid()
      ensures (Receiving(), frame) == Take(terms, old(Receiving()), a)
    {
      hide Shaped, Admits, Number, After;
      if eof { return None; }
      match a {
        case Nothing =>
          return None;
        case Fault =>
          poisoned := true;
          return None;
        case End =>
          eof := true;
          poisoned := buffer != [];
          return None;
        case Chunk(bytes) =>
          buffer := buffer + bytes;
      }
      if header.None? {
        if |buffer| < 5 { return None; }
        header := HeaderOf(terms, incoming, buffer);
        if header.None? {
          poisoned := true;
          return None;
        }
        PositiveSize(terms, incoming, header.value.0, header.value.1);
        return None;
      }
      if |buffer| != 5 + header.value.1 { return None; }
      var f: Frame := Frame(header.value.0, buffer[5..]);
      if !Admits(terms, incoming, f) {
        poisoned := true;
        return None;
      }
      incoming := After(terms, incoming, f);
      header, buffer := None, [];
      return Some(f);
    }
  }

  lemma EncodedSize(f: Frame)
    ensures |Encoded(f)| == 5 + |f.body|
  {
  }

  /** No admissible header announces an empty body, so `read` always waits for one. */
  lemma PositiveSize(t: Terms, l: Ledger, tag: Tag, size: nat)
    requires Shaped(t, l, tag, size)
    ensures 0 < size <= CHUNK
  {
  }
}
