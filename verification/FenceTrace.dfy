/**
 The fence observation: its wire form, and the independent decoder that the
 outer process runs over the events of the custodian's final publication.
 */
module FenceTraces {
  import opened Bytes

  datatype Edge = Before | Partial | After
  datatype Outcome = Pending | Succeeded | Failed | Unknown

  /** PENDING_CREATE, PENDING_WRITE, DATA_FSYNC, PENDING_CLOSE, FINAL_LINK, DIRECTORY_FSYNC. */
  type Operation = n: nat | 1 <= n <= 6 witness 1

  datatype Identity = Identity(device: nat, inode: nat, uid: nat, gid: nat, mode: nat, links: nat)
  const REGULAR_0600: nat := 0x8180
  const SEQUENCE_LIMIT: nat := 0x7FFF_FFFF_FFFF_FFFF
  const HEAD: nat := 69
  const WIDTHS: seq<nat> := [8, 1, 1, 1, 1, 2, 2, 1, 1, 8, 8, 4, 4, 4, 4, 2]

  datatype Event = Event(
    nonce: seq<byte>, sequence: nat, ordinal: nat, operation: Operation, edge: Edge, outcome: Outcome,
    written: nat, total: nat, syncFlags: nat, identityState: nat, identity: Option<Identity>, operand: seq<byte>)
  {
    predicate HasFailed() { outcome.Failed? || outcome.Unknown? }
  }

  predicate GoodIdentity(i: Identity) {
    && i.device < 0x1_0000_0000_0000_0000 && 1 <= i.inode < 0x1_0000_0000_0000_0000
    && i.uid < 0x1_0000_0000 && i.gid < 0x1_0000_0000
    && i.mode == REGULAR_0600 && i.links == 1
  }

  /** The admission checks of `encode`. */
  predicate Encodable(e: Event) {
    && |e.nonce| == 16 && 1 <= e.sequence <= SEQUENCE_LIMIT && 1 <= e.ordinal <= 13
    && 2 <= e.total <= 4096 && e.written <= e.total && e.syncFlags <= 3 && e.identityState <= 2
    && (if e.identityState == 1 then e.identity.Some? && GoodIdentity(e.identity.value) else e.identity.None?)
    && (if e.edge.Partial?
        then e.operation == 2 && e.outcome.Succeeded? && e.identityState == 1
             && |e.operand| == e.total / 2 && 0 < e.written <= |e.operand| && e.syncFlags == 0
        else e.operand == [])
    && (e.edge.Before? <==> e.outcome.Pending?)
  }

  function EdgeCode(edge: Edge): nat { match edge case Before => 0 case Partial => 1 case After => 2 }

  function OutcomeCode(outcome: Outcome): nat {
    match outcome case Pending => 0 case Succeeded => 1 case Failed => 2 case Unknown => 3
  }

  function EdgeOf(code: nat): Option<Edge> {
    if code == 0 then Some(Before) else if code == 1 then Some(Partial) else if code == 2 then Some(After) else None
  }

  function OutcomeOf(code: nat): Option<Outcome> {
    if code == 0 then Some(Pending) else if code == 1 then Some(Succeeded)
    else if code == 2 then Some(Failed) else if code == 3 then Some(Unknown) else None
  }

  function Fields(e: Event): (r: seq<nat>)
    ensures |r| == 16
    ensures r[0] == e.sequence && r[1] == e.ordinal && r[2] == e.operation && r[3] == EdgeCode(e.edge)
    ensures r[4] == OutcomeCode(e.outcome) && r[5] == e.written && r[6] == e.total && r[7] == e.syncFlags
    ensures r[8] == e.identityState && r[15] == |e.operand|
    ensures e.identity.Some? ==>
              var i := e.identity.value;
              r[9] == i.device && r[10] == i.inode && r[11] == i.uid && r[12] == i.gid && r[13] == i.mode && r[14] == i.links
    ensures e.identity.None? ==> r[9] == r[10] == r[11] == r[12] == r[13] == r[14] == 0
  {
    var i := if e.identity.Some? then e.identity.value else Identity(0, 0, 0, 0, 0, 0);
    [e.sequence, e.ordinal, e.operation, EdgeCode(e.edge), OutcomeCode(e.outcome), e.written, e.total, e.syncFlags,
     e.identityState, i.device, i.inode, i.uid, i.gid, i.mode, i.links, |e.operand|]
  }

  lemma FieldsFit(e: Event)
    requires Encodable(e)
    ensures Fits(Fields(e), WIDTHS)
  {
    Powers();
    var f := Fields(e);
    hide Fields;
    forall k | 0 <= k < |f| ensures f[k] < Pow256(WIDTHS[k]) {
    }
  }

  lemma WidthsTotal()
    ensures Total(WIDTHS) == 52
  {
    assert WIDTHS == [8, 1, 1, 1] + ([1, 2, 2, 1] + ([1, 8, 8, 4] + [4, 4, 4, 2]));
    TotalAppend([8, 1, 1, 1], [1, 2, 2, 1] + ([1, 8, 8, 4] + [4, 4, 4, 2]));
    TotalAppend([1, 2, 2, 1], [1, 8, 8, 4] + [4, 4, 4, 2]);
    TotalAppend([1, 8, 8, 4], [4, 4, 4, 2]);
    TotalFour(8, 1, 1, 1); TotalFour(1, 2, 2, 1); TotalFour(1, 8, 8, 4); TotalFour(4, 4, 4, 2);
  }

  function Encode(e: Event): (r: Result<seq<byte>>)
    ensures r.Ok? <==> Encodable(e)
    ensures r.Ok? ==> |r.value| == HEAD + |e.operand|
  {
    if !Encodable(e) then Rejected
    else
      FieldsFit(e); WidthsTotal();
      Ok([1] + e.nonce + Pack(Fields(e), WIDTHS) + e.operand)
  }

  /** The event the sixteen numbers stand for; an unbound identity must be written as zeros. */
  function Interpret(f: seq<nat>, nonce: seq<byte>, operand: seq<byte>): Option<Event>
    requires |f| == 16
  {
    var identity := Identity(f[9], f[10], f[11], f[12], f[13], f[14]);
    if !(1 <= f[2] <= 6) || EdgeOf(f[3]).None? || OutcomeOf(f[4]).None?
       || (f[8] != 1 && identity != Identity(0, 0, 0, 0, 0, 0))
    then None
    else Some(Event(nonce, f[0], f[1], f[2], EdgeOf(f[3]).value, OutcomeOf(f[4]).value, f[5], f[6], f[7],
                    f[8], if f[8] == 1 then Some(identity) else None, operand))
  }

  lemma InterpretFields(e: Event)
    requires Encodable(e)
    ensures Interpret(Fields(e), e.nonce, e.operand) == Some(e)
  {
    var f := Fields(e);
    hide Fields, GoodIdentity;
    assert EdgeOf(f[3]) == Some(e.edge) && OutcomeOf(f[4]) == Some(e.outcome);
  }

  function Decode(content: seq<byte>): Result<Event>
  {
    if !(HEAD <= |content| <= 2117) || content[0] != 1 then Rejected
    else
      WidthsTotal();
      var f := Unpack(content[17..69], WIDTHS);
      if |content| != HEAD + f[15] then Rejected
      else
        var e := Interpret(f, content[1..17], content[69..]);
        if e.None? || Encode(e.value) != Ok(content) then Rejected else Ok(e.value)
  }

  /** Whatever is decoded is an encodable event whose encoding is exactly the content received. */
  lemma EncodeDecode(content: seq<byte>)
    requires Decode(content).Ok?
    ensures Encodable(Decode(content).value) && Encode(Decode(content).value) == Ok(content)
  {
    hide Interpret, Encodable, Unpack;
    var e := Decode(content).value;
    assert Encode(e).Ok?;
  }

  lemma DecodeFrom(content: seq<byte>, e: Event, f: seq<nat>)
    requires HEAD <= |content| <= 2117 && content[0] == 1 && |content| == HEAD + |e.operand|
    requires content[1..17] == e.nonce && content[69..] == e.operand
    requires Total(WIDTHS) == 52 && Unpack(content[17..69], WIDTHS) == f && f[15] == |e.operand|
    requires Interpret(f, e.nonce, e.operand) == Some(e) && Encode(e) == Ok(content)
    ensures Decode(content) == Ok(e)
  {
    hide Interpret, Encodable, Unpack, Total, Encode;
  }

  /** Every event that can be encoded is decoded to itself. */
  lemma DecodeEncode(e: Event)
    requires Encodable(e)
    ensures Decode(Encode(e).value) == Ok(e)
  {
    hide Interpret, Unpack, Fields, Pack, Total, Fits, GoodIdentity, Decode;
    FieldsFit(e); WidthsTotal(); InterpretFields(e);
    UnpackPack(Fields(e), WIDTHS);
    EnvelopeSlices(e.nonce, Pack(Fields(e), WIDTHS), e.operand);
    DecodeFrom(Encode(e).value, e, Fields(e));
  }

  lemma EnvelopeSlices(nonce: seq<byte>, packed: seq<byte>, operand: seq<byte>)
    requires |nonce| == 16 && |packed| == 52
    ensures var c := [1] + nonce + packed + operand;
            |c| == 69 + |operand| && c[0] == 1 && c[1..17] == nonce && c[17..69] == packed && c[69..] == operand
  {
  }

  // ---------- the decoder ----------

  /** One flag set contains another: bit 1 is the data sync, bit 2 the directory sync. */
  predicate Covers(flags: nat, earlier: nat)
    requires flags <= 3 && earlier <= 3
  {
    (earlier % 2 == 1 ==> flags % 2 == 1) && (earlier >= 2 ==> flags >= 2)
  }

  datatype Trace = Trace(ordinal: nat, operation: nat, edge: Edge, identity: Option<Identity>,
                         total: Option<nat>, written: nat, syncFlags: nat, finished: bool)

  const Opening := Trace(0, 1, Before, None, None, 0, 0, false)

  /** `accept` on a decoded event: the next trace, or a refusal that poisons the decoder. */
  function Judge(nonce: seq<byte>, sequence: nat, uid: nat, t: Trace, e: Event): Result<Trace>
  {
    var total := if t.total.Some? then t.total.value else e.total;
    if t.finished || !Encodable(e) || e.nonce != nonce || e.sequence != sequence || e.ordinal != t.ordinal + 1
       || e.operation != t.operation
       || !(e.edge == t.edge || (e.HasFailed() && t.edge.Partial? && e.edge.After?))
       || e.total != total || e.written < t.written || t.syncFlags > 3 || !Covers(e.syncFlags, t.syncFlags)
       || !FactsAgree(t, e) || !IdentityAgrees(uid, t, e)
    then Rejected
    else
      var moved := t.(ordinal := t.ordinal + 1, total := Some(total), written := e.written, syncFlags := e.syncFlags,
                      identity := if t.identity.None? && !e.HasFailed() && e.identityState == 1 then e.identity else t.identity);
      if e.HasFailed() then Ok(moved.(finished := true))
      else if e.edge.Before? then Ok(moved.(edge := if t.operation == 2 then Partial else After))
      else if e.edge.Partial? then Ok(moved.(edge := After))
      else Ok(moved.(operation := t.operation + 1, edge := Before, finished := t.operation + 1 == 7))
  }

  predicate FactsAgree(t: Trace, e: Event) {
    if e.HasFailed() then e.edge.After? && e.syncFlags == t.syncFlags
    else match e.edge
      case Before => e.written == t.written && e.syncFlags == t.syncFlags
      case Partial => t.operation == 2
      case After =>
        && e.written == (if t.operation >= 2 then e.total else 0)
        && e.syncFlags == (if t.operation == 6 then 3 else if t.operation >= 3 then 1 else 0)
  }

  predicate IdentityAgrees(uid: nat, t: Trace, e: Event) {
    if t.operation == 1 && e.edge.Before? then e.identityState == 0
    else if !e.HasFailed() then
      && e.identityState == 1 && e.identity.Some? && e.identity.value.uid == uid
      && (t.identity.None? ==> t.operation == 1 && e.edge.After?)
      && (t.identity.Some? ==> e.identity == t.identity)
    else if e.identityState == 1 then e.identity == t.identity
    else e.identityState == 2 || (t.operation == 1 && e.identityState == 0)
  }

  /** The decoder run over a whole stream of events. */
  function Follow(nonce: seq<byte>, sequence: nat, uid: nat, es: seq<Event>): Result<Trace> {
    if es == [] then Ok(Opening)
    else
      var before := Follow(nonce, sequence, uid, es[..|es| - 1]);
      if before.Rejected? then Rejected else Judge(nonce, sequence, uid, before.value, es[|es| - 1])
  }

  lemma FollowPlus(nonce: seq<byte>, sequence: nat, uid: nat, es: seq<Event>, e: Event)
    ensures Follow(nonce, sequence, uid, es + [e]) ==
            var before := Follow(nonce, sequence, uid, es);
            if before.Rejected? then Rejected else Judge(nonce, sequence, uid, before.value, e)
  {
    assert (es + [e])[..|es|] == es;
  }

  class FenceObservationDecoder {
    const nonce: seq<byte>
    const sequence: nat
    const uid: nat
    var trace: Trace
    var poisoned: bool
    ghost var accepted: seq<Event>

    ghost predicate Valid() reads this {
      Follow(nonce, sequence, uid, accepted) == Ok(trace)
    }

    constructor (nonce: seq<byte>, sequence: nat, uid: nat)
      ensures Valid() && !poisoned && accepted == []
      ensures this.nonce == nonce && this.sequence == sequence && this.uid == uid
    {
      this.nonce, this.sequence, this.uid := nonce, sequence, uid;
      trace, poisoned, accepted := Opening, false, [];
    }

    method Accept(content: seq<byte>) returns (r: Result<Event>)
      requires Valid()
      modifies this
      ensures Valid()
      ensures r.Ok? <==> !old(poisoned) && Decode(content).Ok?
                         && Follow(nonce, sequence, uid, old(accepted) + [Decode(content).value]).Ok?
      ensures r.Ok? ==> r == Decode(content) && accepted == old(accepted) + [r.value] && !poisoned
      ensures r.Rejected? ==> poisoned && accepted == old(accepted)
    {
      hide Follow, Judge, Decode;
      if poisoned { return Rejected; }
      var event := Decode(content);
      if event.Rejected? {
        poisoned := true;
        return Rejected;
      }
      FollowPlus(nonce, sequence, uid, accepted, event.value);
      var next := Judge(nonce, sequence, uid, trace, event.value);
      if next.Rejected? {
        poisoned := true;
        return Rejected;
      }
      trace := next.value;
      accepted := accepted + [event.value];
      return event;
    }
  }
}
