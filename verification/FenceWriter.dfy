/**
 The custodian's one-use publication of the command fence, with a failure
 possible at every effect and at every delivery of an observation.
 */
module FenceWriters {
  import opened Bytes
  import opened FenceTraces
  import opened FenceSchedules

  /**
   How one checkpoint goes: acknowledged; the tail deadline cuts it off; the observer is already lost; the wire
   refuses the event; or the event goes out and no acknowledgement follows, with or without the deadline passing.
   */
  datatype Delivery = Acknowledged | Cut | Lost | Refused | Unanswered(late: bool)

  /** Every answer the operating system and the observer will give, in the order in which they are asked. */
  datatype World = World(fails: nat -> bool, counts: nat -> nat, identity: Identity, deliveries: nat -> Delivery)

  function FirstStep(op: nat): nat
    requires 1 <= op <= 7
  {
    if op == 1 then 0 else if op == 2 then 2 else if op == 7 then 13 else 2 * op - 1
  }

  lemma LawfulAppend(nonce: seq<byte>, sequence: nat, uid: nat, es: seq<Event>, e: Event)
    requires Lawful(nonce, sequence, uid, es) && LawfulAt(nonce, sequence, uid, es + [e], |es|)
    ensures Lawful(nonce, sequence, uid, es + [e])
  {
    LawfulPlus(nonce, sequence, uid, es, e);
  }

  /** Whatever part of the stream reaches the observer is itself lawful. */
  lemma LawfulPrefix(nonce: seq<byte>, sequence: nat, uid: nat, es: seq<Event>, n: nat)
    requires Lawful(nonce, sequence, uid, es) && n <= |es|
    ensures Lawful(nonce, sequence, uid, es[..n])
    ensures Follow(nonce, sequence, uid, es[..n]).Ok?
  {
    forall i | 0 <= i < n ensures LawfulAt(nonce, sequence, uid, es[..n], i) {
      assert LawfulAt(nonce, sequence, uid, es, i);
      assert es[..n][i] == es[i] && es[..n][0] == es[0];
      assert i > 0 ==> es[..n][i - 1] == es[i - 1] && es[..n][1] == es[1];
    }
    AcceptsExactlyTheSchedule(nonce, sequence, uid, es[..n]);
  }

  class FenceWriter {
    const nonce: seq<byte>
    const sequence: nat
    const uid: nat
    const content: seq<byte>
    const total: nat
    const traced: bool
    const world: World
    var effects: nat
    var checkpoints: nat
    var written: nat
    var syncFlags: nat
    var creationIdentity: Option<Identity>
    var identityUnavailable: bool
    var attempted: bool
    var complete: bool
    var retired: bool
    var events: seq<Event>
    ghost var mishap: bool

    // `mishap` remembers that some effect failed, some count or identity was not acceptable, or a deadline passed.

    /** What was put on the wire is lawful, whatever happened. */
    ghost predicate Valid() reads this {
      && |nonce| == 16 && 1 <= sequence <= SEQUENCE_LIMIT && 2 <= total <= 4096 && total == |content|
      && Lawful(nonce, sequence, uid, events)
      && (!traced ==> events == [])
      && written <= total && syncFlags <= 3
      && (creationIdentity.Some? ==> GoodIdentity(creationIdentity.value) && creationIdentity.value.uid == uid)
    }

    predicate Listening() reads this { traced && !retired }

    /** All thirteen events are out and none reports a failure. */
    predicate Full() reads this { |events| == 13 && !events[12].HasFailed() }

    lemma FullEndsTheSchedule()
      requires Valid() && Full()
      ensures events[12].operation == 6 && events[12].edge.After?
    {
      assert LawfulAt(nonce, sequence, uid, events, 12);
    }

    /** A live observer has seen everything up to step n, with the current facts. */
    ghost predicate Reported(n: nat) reads this {
      Listening() ==>
        && |events| == n
        && (forall i :: 0 <= i < n ==> !events[i].HasFailed())
        && (n > 0 ==> events[0].total == total)
        && (n > 1 ==> creationIdentity.Some? && events[1].identity == creationIdentity)
        && WrittenBefore(events, n) == written && FlagsBefore(events, n) == syncFlags
    }

    ghost predicate Ready(op: nat) reads this {
      && 1 <= op <= 7 && Reported(FirstStep(op)) && !identityUnavailable
      && (creationIdentity.Some? <==> op >= 2)
      && written == (if op <= 2 then 0 else total)
      && syncFlags == (if op <= 3 then 0 else if op <= 6 then 1 else 3)
    }

    constructor (nonce: seq<byte>, sequence: nat, uid: nat, content: seq<byte>, traced: bool, world: World)
      requires |nonce| == 16 && 1 <= sequence <= SEQUENCE_LIMIT && 2 <= |content| <= 4096
      ensures Valid() && Ready(1) && !attempted && !complete && events == [] && !retired && !mishap
      ensures this.traced == traced && this.content == content
    {
      this.nonce, this.sequence, this.uid, this.content, this.total := nonce, sequence, uid, content, |content|;
      this.traced, this.world := traced, world;
      effects, checkpoints, written, syncFlags := 0, 0, 0, 0;
      creationIdentity, identityUnavailable := None, false;
      attempted, complete, retired, events, mishap := false, false, false, [], false;
    }

    /** One call into the operating system, or one deadline check. */
    method Effect() returns (ok: bool)
      modifies this`mishap, this`effects
      ensures mishap <==> old(mishap) || !ok
    {
      ok := !world.fails(effects);
      mishap := mishap || !ok;
      effects := effects + 1;
    }

    method Effects(n: nat) returns (ok: bool)
      modifies this`mishap, this`effects
      ensures mishap <==> old(mishap) || !ok
    {
      ok := true;
      for i := 0 to n
        invariant mishap <==> old(mishap) || !ok
      {
        if ok { ok := Effect(); }
      }
    }

    function NextEvent(op: Operation, edge: Edge, outcome: Outcome, operand: seq<byte>): Event
      reads this
    {
      var identity := if identityUnavailable then None else creationIdentity;
      var state := if identity.Some? then 1 else if op == 1 && edge.Before? then 0 else 2;
      Event(nonce, sequence, |events| + 1, op, edge, outcome, written, total, syncFlags, state, identity, operand)
    }

    method Checkpoint(op: Operation, edge: Edge, outcome: Outcome, operand: seq<byte>) returns (ok: bool)
      requires Valid()
      requires Listening() ==>
                 LawfulAt(nonce, sequence, uid, events + [NextEvent(op, edge, outcome, operand)], |events|)
      modifies this`mishap, this`checkpoints, this`retired, this`events
      ensures Valid()
      ensures old(retired) ==> retired
      ensures events == old(events) || events == old(events + [NextEvent(op, edge, outcome, operand)])
      ensures ok && Listening() ==> events == old(events + [NextEvent(op, edge, outcome, operand)])
      ensures !old(Listening()) ==> events == old(events)
      ensures mishap <==> old(mishap) || !ok
    {
      ok := true;
      if traced {
        var delivery := world.deliveries(checkpoints);
        checkpoints := checkpoints + 1;
        if delivery.Cut? {
          mishap := true;
          return false;
        }
        if retired { return true; }
        if delivery.Lost? || delivery.Refused? {
          retired := true;
          return true;
        }
        var event := NextEvent(op, edge, outcome, operand);
        LawfulAppend(nonce, sequence, uid, events, event);
        events := events + [event];
        if delivery.Unanswered? {
          retired, mishap := true, mishap || delivery.late;
          return !delivery.late;
        }
      }
    }

    method Create() returns (ok: bool)
      requires Valid() && creationIdentity.None?
      modifies this`mishap, this`effects, this`creationIdentity
      ensures Valid() && ok == creationIdentity.Some?
      ensures mishap <==> old(mishap) || !ok
    {
      ok := Effects(4);
      if ok && GoodIdentity(world.identity) && world.identity.uid == uid {
        creationIdentity := Some(world.identity);
      } else {
        ok, mishap := false, true;
      }
    }

    /** The observed write: half the content first, its effect checked and reported, then the rest. */
    method WritePrefix() returns (ok: bool)
      requires Valid() && traced && written == 0 && syncFlags == 0 && creationIdentity.Some? && !identityUnavailable
      requires Reported(3)
      modifies this`mishap, this`effects, this`checkpoints, this`retired, this`events, this`written, this`identityUnavailable
      ensures Valid() && written <= total / 2 && (old(retired) ==> retired)
      ensures ok ==> Reported(4) && !identityUnavailable
      ensures !ok ==> Stalled(2)
      ensures Full() ==> old(Full())
      ensures mishap <==> old(mishap) || !ok
    {
      ok := Effect();
      if !ok { return; }
      var count := world.counts(effects);
      if !(1 <= count <= total / 2) {
        mishap := true;
        return false;
      }
      written := count;
      ok := Effects(2);
      if !ok {
        identityUnavailable := true;
        return;
      }
      ok := Checkpoint(2, Partial, Succeeded, Half());
      if Full() { FullEndsTheSchedule(); }
    }

    function Half(): (operand: seq<byte>)
      requires total == |content|
      ensures |operand| == total / 2
    {
      content[..total / 2]
    }

    /** Enough to report that operation op did not succeed. */
    ghost predicate Stalled(op: nat) reads this {
      && 1 <= op <= 6 && creationIdentity.Some? == (op >= 2)
      && (Listening() ==>
        && (|events| == FirstStep(op) + 1 || (op == 2 && |events| == 4))
        && (forall i :: 0 <= i < |events| ==> !events[i].HasFailed())
        && events[0].total == total
        && (op >= 2 ==> events[1].identity == creationIdentity)
        && WrittenBefore(events, |events|) <= written && FlagsBefore(events, |events|) == syncFlags)
    }

    method Write() returns (ok: bool)
      requires Valid() && written == 0 && syncFlags == 0 && creationIdentity.Some? && !identityUnavailable
      requires Reported(3)
      modifies this`mishap, this`effects, this`checkpoints, this`retired, this`events, this`written, this`identityUnavailable
      ensures Valid() && (old(retired) ==> retired)
      ensures if ok then written == total && !identityUnavailable && (Listening() ==> Stalled(2) && |events| == 4)
              else Stalled(2)
      ensures Full() ==> old(Full())
      ensures mishap <==> old(mishap) || !ok
    {
      ok := true;
      if traced {
        ok := WritePrefix();
        if !ok { return; }
      }
      while written < total
        invariant Valid() && !identityUnavailable && Stalled(2) && (Listening() ==> |events| == 4)
        invariant (Full() ==> old(Full())) && (old(retired) ==> retired) && mishap == old(mishap)
      {
        ok := Effects(2);
        if !ok { return; }
        var count := world.counts(effects);
        if !(1 <= count <= total - written) {
          mishap := true;
          return false;
        }
        written := written + count;
      }
      ok := Effect();
      assert Stalled(2);
    }

    /** The six bodies; success leaves the facts the next operation starts from. */
    method Body(op: Operation) returns (ok: bool)
      requires Valid() && Announced(op)
      modifies this`mishap, this`effects, this`checkpoints, this`retired, this`events, this`written, this`syncFlags,
               this`identityUnavailable, this`creationIdentity
      ensures Valid() && (old(retired) ==> retired)
      ensures if ok then Done(op) else Stalled(op)
      ensures Full() ==> old(Full())
      ensures mishap <==> old(mishap) || !ok
    {
      if op == 1 {
        ok := Create();
      } else if op == 2 {
        ok := Write();
      } else if op == 3 {
        ok := Effect();
        if ok { syncFlags := 1; }
      } else if op == 4 {
        ok := Effect();
      } else if op == 5 {
        ok := Effects(6);
      } else {
        ok := Effect();
        if ok { syncFlags := 3; }
      }
    }

    ghost predicate Announced(op: nat) reads this {
      && 1 <= op <= 6 && Reported(FirstStep(op) + 1) && !identityUnavailable
      && (creationIdentity.Some? <==> op >= 2)
      && written == (if op <= 2 then 0 else total)
      && syncFlags == (if op <= 3 then 0 else 1)
    }

    ghost predicate Done(op: nat) reads this {
      && 1 <= op <= 6 && creationIdentity.Some? && !identityUnavailable
      && written == (if op == 1 then 0 else total)
      && syncFlags == (if op <= 2 then 0 else if op <= 5 then 1 else 3)
      && (Listening() ==>
        && |events| == FirstStep(op + 1) - 1
        && (forall i :: 0 <= i < |events| ==> !events[i].HasFailed())
        && events[0].total == total
        && (op >= 2 ==> events[1].identity == creationIdentity)
        && WrittenBefore(events, |events|) <= written
        && FlagsBefore(events, |events|) == (if op <= 3 then 0 else 1))
    }

    lemma BeforeIsLawful(op: Operation)
      requires Valid() && Ready(op) && Listening()
      ensures LawfulAt(nonce, sequence, uid, events + [NextEvent(op, Before, Pending, [])], |events|)
    {
    }

    lemma AfterIsLawful(op: Operation)
      requires Valid() && Done(op) && Listening()
      ensures LawfulAt(nonce, sequence, uid, events + [NextEvent(op, After, Succeeded, [])], |events|)
    {
    }

    lemma FailureIsLawful(op: Operation)
      requires Valid() && Stalled(op) && Listening()
      ensures LawfulAt(nonce, sequence, uid, events + [NextEvent(op, After, Unknown, [])], |events|)
    {
      var e := NextEvent(op, After, Unknown, []);
      var all, n := events + [e], |events|;
      assert all[n] == e && all[n - 1] == events[n - 1] && all[0] == events[0];
      assert Placed(nonce, sequence, all, n);
      assert Measured(all, n);
      if op >= 2 { assert all[1] == events[1]; }
      assert Bound(uid, all, n);
    }

    /** Deadline, namespace, and the event that announces the operation. */
    method Announce(op: Operation) returns (ok: bool)
      requires Valid() && Ready(op) && !Full()
      modifies this`mishap, this`effects, this`checkpoints, this`retired, this`events
      ensures Valid() && (old(retired) ==> retired) && !Full()
      ensures ok ==> Announced(op)
      ensures mishap <==> old(mishap) || !ok
    {
      ok := Effects(7);
      if !ok { return; }
      if Listening() { BeforeIsLawful(op); }
      ok := Checkpoint(op, Before, Pending, []);
      if Full() { FullEndsTheSchedule(); }
      if !ok { return; }
      ok := Effect();
    }

    /** The event that reports how the operation went. */
    method Report(op: Operation, succeeded: bool) returns (ok: bool)
      requires Valid() && !Full() && (if succeeded then Done(op) else Stalled(op))
      modifies this`mishap, this`checkpoints, this`retired, this`events
      ensures Valid() && (old(retired) ==> retired)
      ensures ok && succeeded ==> Ready(op + 1)
      ensures mishap <==> old(mishap) || !ok
      ensures Full() ==> op == 6 && written == total && syncFlags == 3
    {
      if succeeded {
        if Listening() { AfterIsLawful(op); }
        ok := Checkpoint(op, After, Succeeded, []);
      } else {
        if Listening() { FailureIsLawful(op); }
        ok := Checkpoint(op, After, Unknown, []);
      }
      if Full() { FullEndsTheSchedule(); }
    }

    method Perform(op: Operation) returns (ok: bool)
      requires Valid() && Ready(op) && !Full()
      modifies this`mishap, this`effects, this`checkpoints, this`retired, this`events, this`written, this`syncFlags,
               this`identityUnavailable, this`creationIdentity
      ensures Valid() && (old(retired) ==> retired)
      ensures ok ==> Ready(op + 1)
      ensures mishap <==> old(mishap) || !ok
      ensures Full() ==> op == 6 && written == total && syncFlags == 3
    {
      ok := Announce(op);
      if !ok { return; }
      ok := Body(op);
      var reported := Report(op, ok);
      ok := ok && reported;
    }

    /** The one-use publication. */
    method Publish() returns (ok: bool)
      requires Valid() && Ready(1) && !attempted && !complete && events == [] && !retired && !mishap
      modifies this
      ensures Valid() && attempted && ok == complete
      ensures complete <==> !mishap
      ensures Follow(nonce, sequence, uid, events).Ok?
      ensures complete ==> written == total && syncFlags == 3 && creationIdentity.Some?
      ensures complete && Listening() ==> Full()
      ensures Full() ==> written == total && syncFlags == 3
    {
      attempted := true;
      ok := true;
      var op := 1;
      while op <= 6 && ok
        invariant 1 <= op <= 7 && Valid() && attempted && !complete
        invariant (ok ==> Ready(op)) && (ok <==> !mishap)
        invariant op <= 6 ==> !Full()
        invariant Full() ==> written == total && syncFlags == 3
      {
        ok := Perform(op);
        op := op + 1;
      }
      complete := ok;
      AcceptsExactlyTheSchedule(nonce, sequence, uid, events);
    }
  }
}
