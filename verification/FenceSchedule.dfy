/**
 The thirteen-step schedule, stated without reference to the decoder's state,
 and the theorem that the decoder accepts exactly the streams that obey it.
 */
module FenceSchedules {
  import opened Bytes
  import opened FenceTraces

  const STEPS: nat := 13

  /** Create, write, sync, close, link, sync: two events each, and a third for the write. */
  function StepOperation(i: nat): Operation
    requires i < STEPS
  {
    if i < 2 then 1 else if i < 5 then 2 else (i + 1) / 2
  }

  function StepEdge(i: nat): Edge
    requires i < STEPS
  {
    if i == 3 then Partial else if i == 0 || i == 2 || (i >= 5 && i % 2 == 1) then Before else After
  }

  function WrittenBefore(es: seq<Event>, i: nat): nat
    requires i <= |es|
  {
    if i == 0 then 0 else es[i - 1].written
  }

  function FlagsBefore(es: seq<Event>, i: nat): nat
    requires i <= |es|
  {
    if i == 0 then 0 else es[i - 1].syncFlags
  }

  /** Event i names the command, follows no failure and sits at its place in the schedule. */
  ghost predicate Placed(nonce: seq<byte>, sequence: nat, es: seq<Event>, i: nat)
    requires i < |es|
  {
    var e := es[i];
    && i < STEPS && Encodable(e)
    && e.nonce == nonce && e.sequence == sequence && e.ordinal == i + 1 && e.total == es[0].total
    && (i > 0 ==> !es[i - 1].HasFailed())
    && e.operation == StepOperation(i)
    && (if e.HasFailed() then e.edge.After? && !StepEdge(i).Before? else e.edge == StepEdge(i))
  }

  /** Bytes written never shrink; the flags grow at the two syncs and nowhere else. */
  ghost predicate Measured(es: seq<Event>, i: nat)
    requires i < |es|
  {
    var e := es[i];
    && WrittenBefore(es, i) <= e.written
    && (if e.HasFailed() then e.syncFlags == FlagsBefore(es, i)
        else if e.edge.Before? then e.written == WrittenBefore(es, i) && e.syncFlags == FlagsBefore(es, i)
        else if e.edge.After? then
          e.written == (if e.operation == 1 then 0 else e.total)
          && e.syncFlags == (if e.operation <= 2 then 0 else if e.operation <= 5 then 1 else 3)
        else true)
  }

  /** The file is bound by the second event and stays the same file, owned by the same user. */
  ghost predicate Bound(uid: nat, es: seq<Event>, i: nat)
    requires i < |es|
  {
    var e := es[i];
    if i == 0 then e.identityState == 0
    else if !e.HasFailed() then
      e.identityState == 1 && e.identity == es[1].identity && e.identity.Some? && e.identity.value.uid == uid
    else (e.identityState == 1 ==> i > 1 && e.identity == es[1].identity) && (e.identityState == 0 ==> i == 1)
  }

  ghost predicate LawfulAt(nonce: seq<byte>, sequence: nat, uid: nat, es: seq<Event>, i: nat)
    requires i < |es|
  {
    Placed(nonce, sequence, es, i) && Measured(es, i) && Bound(uid, es, i)
  }

  ghost predicate Lawful(nonce: seq<byte>, sequence: nat, uid: nat, es: seq<Event>) {
    forall i :: 0 <= i < |es| ==> LawfulAt(nonce, sequence, uid, es, i)
  }

  /** What the decoder must remember of a lawful stream. */
  ghost function Summary(es: seq<Event>): Trace
    requires |es| <= STEPS
  {
    var n := |es|;
    if n == 0 then Opening
    else
      var last := es[n - 1];
      var at := if last.HasFailed() then n - 1 else n;
      Trace(n, if at == STEPS then 7 else StepOperation(at), if at == STEPS then Before else StepEdge(at),
            if n >= 2 && !es[1].HasFailed() then es[1].identity else None,
            Some(es[0].total), last.written, last.syncFlags, last.HasFailed() || n == STEPS)
  }

  lemma LawfulLength(nonce: seq<byte>, sequence: nat, uid: nat, es: seq<Event>)
    requires Lawful(nonce, sequence, uid, es)
    ensures |es| <= STEPS
    ensures forall i :: 0 <= i < |es| - 1 ==> !es[i].HasFailed()
  {
    if es != [] {
      assert LawfulAt(nonce, sequence, uid, es, |es| - 1);
    }
    forall i | 0 <= i < |es| - 1 ensures !es[i].HasFailed() {
      assert LawfulAt(nonce, sequence, uid, es, i + 1);
    }
  }

  lemma LawfulPlus(nonce: seq<byte>, sequence: nat, uid: nat, es: seq<Event>, e: Event)
    ensures Lawful(nonce, sequence, uid, es + [e]) <==>
            Lawful(nonce, sequence, uid, es) && LawfulAt(nonce, sequence, uid, es + [e], |es|)
  {
    var all := es + [e];
    forall i | 0 <= i < |es|
      ensures LawfulAt(nonce, sequence, uid, all, i) == LawfulAt(nonce, sequence, uid, es, i)
    {
      assert all[i] == es[i] && all[0] == es[0];
      assert i > 0 ==> all[i - 1] == es[i - 1] && all[1] == es[1];
    }
    if Lawful(nonce, sequence, uid, es) && LawfulAt(nonce, sequence, uid, all, |es|) {
      forall i | 0 <= i < |all| ensures LawfulAt(nonce, sequence, uid, all, i) {
        if i < |es| { assert LawfulAt(nonce, sequence, uid, es, i); }
      }
    }
    if Lawful(nonce, sequence, uid, all) {
      forall i | 0 <= i < |es| ensures LawfulAt(nonce, sequence, uid, es, i) {
        assert LawfulAt(nonce, sequence, uid, all, i);
      }
    }
  }

  function FlagsAt(i: nat): nat {
    if i <= 5 then 0 else if i <= 11 then 1 else 3
  }

  lemma {:induction false} FlagsByPosition(nonce: seq<byte>, sequence: nat, uid: nat, es: seq<Event>, i: nat)
    requires Lawful(nonce, sequence, uid, es) && i < |es|
    ensures es[i].syncFlags == if es[i].HasFailed() then (if i == 0 then 0 else FlagsAt(i - 1)) else FlagsAt(i)
  {
    assert LawfulAt(nonce, sequence, uid, es, i);
    if i > 0 {
      FlagsByPosition(nonce, sequence, uid, es, i - 1);
    }
  }

  lemma JudgedIsLawful(nonce: seq<byte>, sequence: nat, uid: nat, es: seq<Event>, e: Event)
    requires Lawful(nonce, sequence, uid, es)
    requires |es| <= STEPS && Judge(nonce, sequence, uid, Summary(es), e).Ok?
    ensures LawfulAt(nonce, sequence, uid, es + [e], |es|)
  {
    LawfulLength(nonce, sequence, uid, es);
    var n, all := |es|, es + [e];
    if n > 0 {
      assert LawfulAt(nonce, sequence, uid, es, n - 1);
      FlagsByPosition(nonce, sequence, uid, es, n - 1);
    }
    if n > 1 { assert LawfulAt(nonce, sequence, uid, es, 1); }
    assert n > 0 ==> all[0] == es[0] && all[n - 1] == es[n - 1];
    assert n > 1 ==> all[1] == es[1];
  }

  lemma LawfulIsJudged(nonce: seq<byte>, sequence: nat, uid: nat, es: seq<Event>, e: Event)
    requires Lawful(nonce, sequence, uid, es) && LawfulAt(nonce, sequence, uid, es + [e], |es|)
    requires |es| <= STEPS
    ensures Judge(nonce, sequence, uid, Summary(es), e).Ok?
  {
    LawfulLength(nonce, sequence, uid, es);
    var n, all := |es|, es + [e];
    if n > 0 {
      assert LawfulAt(nonce, sequence, uid, es, n - 1);
      FlagsByPosition(nonce, sequence, uid, es, n - 1);
    }
    if n > 1 { assert LawfulAt(nonce, sequence, uid, es, 1); }
    assert n > 0 ==> all[0] == es[0] && all[n - 1] == es[n - 1];
    assert n > 1 ==> all[1] == es[1];
  }

  /** The decoder's verdict on the next event is the law's verdict on the longer stream. */
  lemma JudgeIsLawful(nonce: seq<byte>, sequence: nat, uid: nat, es: seq<Event>, e: Event)
    requires Lawful(nonce, sequence, uid, es)
    ensures |es| <= STEPS
    ensures Judge(nonce, sequence, uid, Summary(es), e).Ok? <==> LawfulAt(nonce, sequence, uid, es + [e], |es|)
  {
    hide Judge, LawfulAt, Lawful, Summary;
    LawfulLength(nonce, sequence, uid, es);
    if Judge(nonce, sequence, uid, Summary(es), e).Ok? { JudgedIsLawful(nonce, sequence, uid, es, e); }
    if LawfulAt(nonce, sequence, uid, es + [e], |es|) { LawfulIsJudged(nonce, sequence, uid, es, e); }
  }

  lemma JudgeSummarizes(nonce: seq<byte>, sequence: nat, uid: nat, es: seq<Event>, e: Event)
    requires Lawful(nonce, sequence, uid, es) && LawfulAt(nonce, sequence, uid, es + [e], |es|)
    requires |es| <= STEPS && Judge(nonce, sequence, uid, Summary(es), e).Ok?
    ensures |es| < STEPS && Judge(nonce, sequence, uid, Summary(es), e).value == Summary(es + [e])
  {
    LawfulLength(nonce, sequence, uid, es);
    var n, all := |es|, es + [e];
    if n > 0 {
      assert LawfulAt(nonce, sequence, uid, es, n - 1);
    }
    if n > 1 { assert LawfulAt(nonce, sequence, uid, es, 1); }
    assert n > 0 ==> all[0] == es[0] && all[n - 1] == es[n - 1];
    assert n > 1 ==> all[1] == es[1];
  }

  /** Main result: the decoder accepts a stream exactly when it is lawful. */
  lemma {:induction false} AcceptsExactlyTheSchedule(nonce: seq<byte>, sequence: nat, uid: nat, es: seq<Event>)
    ensures Follow(nonce, sequence, uid, es).Ok? <==> Lawful(nonce, sequence, uid, es)
    ensures Lawful(nonce, sequence, uid, es)
            ==> |es| <= STEPS && Follow(nonce, sequence, uid, es) == Ok(Summary(es))
    decreases |es|
  {
    hide Judge, LawfulAt;
    if es != [] {
      var before, e := es[..|es| - 1], es[|es| - 1];
      assert es == before + [e];
      AcceptsExactlyTheSchedule(nonce, sequence, uid, before);
      FollowPlus(nonce, sequence, uid, before, e);
      LawfulPlus(nonce, sequence, uid, before, e);
      if Lawful(nonce, sequence, uid, before) {
        JudgeIsLawful(nonce, sequence, uid, before, e);
        if LawfulAt(nonce, sequence, uid, es, |before|) { JudgeSummarizes(nonce, sequence, uid, before, e); }
      }
    }
  }

  /** A stream that completes has all thirteen events, no failure, every byte written and both syncs done. */
  lemma CompletionIsTotal(nonce: seq<byte>, sequence: nat, uid: nat, es: seq<Event>)
    requires Lawful(nonce, sequence, uid, es)
    ensures |es| <= STEPS
    ensures (Summary(es).finished && !es[|es| - 1].HasFailed()) <==> (|es| == STEPS && !es[STEPS - 1].HasFailed())
    ensures |es| == STEPS && !es[STEPS - 1].HasFailed()
            ==> es[12].written == es[12].total && es[12].syncFlags == 3
                && forall i :: 1 <= i < STEPS ==> es[i].identity == es[1].identity && es[1].identity.Some?
  {
    LawfulLength(nonce, sequence, uid, es);
    if |es| == STEPS {
      assert LawfulAt(nonce, sequence, uid, es, 12) && LawfulAt(nonce, sequence, uid, es, 1);
      if !es[12].HasFailed() {
        forall i | 1 <= i < STEPS ensures es[i].identity == es[1].identity {
          assert LawfulAt(nonce, sequence, uid, es, i);
          assert i < 12 ==> !es[i].HasFailed();
        }
      }
    }
  }

  /** Facts only grow along a lawful stream. */
  lemma {:induction false} FactsGrow(nonce: seq<byte>, sequence: nat, uid: nat, es: seq<Event>, i: nat, j: nat)
    requires Lawful(nonce, sequence, uid, es) && i <= j < |es|
    ensures es[i].written <= es[j].written <= es[j].total == es[i].total
    ensures es[i].syncFlags <= 3 && es[j].syncFlags <= 3 && Covers(es[j].syncFlags, es[i].syncFlags)
    decreases j - i
  {
    assert LawfulAt(nonce, sequence, uid, es, j);
    assert LawfulAt(nonce, sequence, uid, es, i);
    FlagsByPosition(nonce, sequence, uid, es, i);
    FlagsByPosition(nonce, sequence, uid, es, j);
    if i < j {
      FactsGrow(nonce, sequence, uid, es, i, j - 1);
      assert LawfulAt(nonce, sequence, uid, es, j - 1);
    }
  }
}
