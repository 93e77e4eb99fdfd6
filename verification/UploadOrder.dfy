/**
 O's cross-checks of the last frame: which FINAL frames of an honest C they let through.
 */
module UploadOrders {
  import opened Bytes
  import opened Uploads
  import opened UploadInvariants
  import UploadOuters
  import UploadCustodians
  import UploadKeepers
  import UploadResults
  import Children

  /** Everything sent towards O and not yet read, oldest first. */
  function Pending(l: Link): seq<Frame> { l.pipe + l.queue }

  /** Nothing follows a FINAL frame. */
  predicate FinalLast(l: Link) {
    forall i :: 0 <= i < |Pending(l)| - 1 ==> !Pending(l)[i].Final?
  }

  predicate Coming(l: Link, tag: Tag) { exists i :: 0 <= i < |l.pipe| && TagOf(l.pipe[i]) == tag }

  /** A valid stream loses nothing: what C wrote in full, O has accepted or will still read. */
  predicate Told(o: Outer, co: Link) {
    !o.Is(OIsInvalid) ==>
      && (TReady in co.written ==> o.ready.Some? || Coming(co, TReady))
      && (TStatus in co.written ==> o.status.Some? || Coming(co, TStatus))
  }

  /** Only an ended C has a FINAL frame to send. */
  predicate FinalSent(c: Custodian, l: Link) {
    FinalLast(l) && (c.terminal.None? ==> forall i :: 0 <= i < |Pending(l)| ==> !Pending(l)[i].Final?)
  }

  predicate Ordered(s: State) { Told(s.o, s.co) && FinalSent(s.c, s.co) }

  // ---------- links ----------

  lemma QueueOrder(c: Custodian, c': Custodian, l: Link, f: Frame)
    requires FinalSent(c, l) && c.terminal.None? && (f.Final? ==> c'.terminal.Some?)
    ensures FinalSent(c', Queue(l, f))
  {
    assert Pending(Queue(l, f)) == Pending(l) + [f];
  }

  lemma WriteOrder(o: Outer, c: Custodian, l: Link)
    requires l.queue != [] && FinalSent(c, l) && Told(o, l)
    ensures FinalSent(c, Write(l)) && Told(o, Write(l))
  {
    assert Pending(Write(l)) == Pending(l);
    var l' := Write(l);
    assert l'.pipe[|l.pipe|] == l.queue[0];
    forall tag | Coming(l, tag) ensures Coming(l', tag) {
      var i :| 0 <= i < |l.pipe| && TagOf(l.pipe[i]) == tag;
      assert l'.pipe[i] == l.pipe[i];
    }
  }

  lemma DropOrder(o: Outer, c: Custodian, c': Custodian, l: Link)
    requires l.queue != [] && FinalSent(c, l) && Told(o, l) && (c'.terminal.None? ==> c.terminal.None?)
    ensures FinalSent(c', Drop(l)) && Told(o, Drop(l))
  {
    var l' := Drop(l);
    forall i | 0 <= i < |Pending(l')| ensures Pending(l')[i] == Pending(l)[if i < |l.pipe| then i else i + 1] {}
  }

  lemma TakeOrder(c: Custodian, l: Link)
    requires l.pipe != [] && FinalSent(c, l)
    ensures FinalSent(c, Take(l))
  {
    assert Pending(Take(l)) == Pending(l)[1..];
  }

  lemma TakeTold(p: Setup, o: Outer, oc: Link, l: Link)
    requires l.pipe != [] && Told(o, l)
    ensures var r := OuterReceives(p, o, oc, l.pipe[0]);
            Told(if r.Some? then r.value else OFailing(o).Set({OIsInvalid}), Take(l))
  {
    var r := OuterReceives(p, o, oc, l.pipe[0]);
    forall tag | Coming(l, tag) && TagOf(l.pipe[0]) != tag ensures Coming(Take(l), tag) {
      var i :| 0 <= i < |l.pipe| && TagOf(l.pipe[i]) == tag;
      assert Take(l).pipe[i - 1] == l.pipe[i];
    }
    if r.Some? { Accepts(p, o, oc, l.pipe[0]); }
    hide OuterReceives, Coming;
  }

  lemma Accepts(p: Setup, o: Outer, oc: Link, f: Frame)
    requires OuterReceives(p, o, oc, f).Some?
    ensures var o' := OuterReceives(p, o, oc, f).value;
            && (TagOf(f) == TReady ==> o'.ready.Some?) && (TagOf(f) == TStatus ==> o'.status.Some?)
            && (o.ready.Some? ==> o'.ready.Some?) && (o.status.Some? ==> o'.status.Some?)
            && (o'.Is(OIsInvalid) <==> o.Is(OIsInvalid))
  {
    hide FinalAdmissible, GoodTerminal;
  }

  // ---------- every step keeps the order ----------

  lemma OuterOrder(p: Setup, s: State, a: OuterAction)
    requires OuterEnabled(p, s, a) && Ordered(s)
    ensures Ordered(OuterStep(p, s, a))
  {
    UploadOuters.Untouched(p, s, a);
    if a.OReceive? {
      TakeTold(p, s.o, s.oc, s.co);
      TakeOrder(s.c, s.co);
      hide OuterReceives, Told, FinalSent;
    } else {
      Lasting(p, s, a);
      hide OuterStep, OuterEnabled, Coming, FinalSent;
    }
  }

  lemma Lasting(p: Setup, s: State, a: OuterAction)
    requires OuterEnabled(p, s, a) && !a.OReceive?
    ensures var o' := OuterStep(p, s, a).o;
            o'.ready == s.o.ready && o'.status == s.o.status && (s.o.Is(OIsInvalid) ==> o'.Is(OIsInvalid))
  {
    hide OuterReceives;
  }

  lemma BodyOrder(p: Setup, s: State, x: CustodianBody)
    requires CustodianBodyEnabled(p, s, x) && FinalSent(s.c, s.co)
    ensures var s' := CustodianBodyStep(p, s, x);
            FinalSent(s'.c, s'.co) && s'.co.pipe == s.co.pipe && s'.co.written == s.co.written && s'.o == s.o
  {
    var c' := CustodianBodyStep(p, s, x).c;
    QueueOrder(s.c, c', s.co, Hello(p.c, p.o, p.c, p.c));
    if x.CHear? {
      var r := CustodianHears(p, s.c, s.ck, s.k.Is(KHasMoved), s.kc.pipe[0]);
      if r.Some? {
        Forwarded(p, s.c, s.ck, s.k.Is(KHasMoved), s.kc.pipe[0]);
        if r.value.1.Some? { QueueOrder(s.c, c', s.co, r.value.1.value); }
      }
    }
    hide CustodianHears, CustodianReceives, FinalLast, Pending;
  }

  lemma Forwarded(p: Setup, c: Custodian, ck: Link, moved: bool, f: Frame)
    requires CustodianHears(p, c, ck, moved, f).Some?
    ensures CustodianHears(p, c, ck, moved, f).value.1.Some? ==> !CustodianHears(p, c, ck, moved, f).value.1.value.Final?
    ensures CustodianHears(p, c, ck, moved, f).value.0.terminal == c.terminal
  {
    hide ReleaseAgrees;
  }

  lemma TailOrder(p: Setup, s: State, x: CustodianTail)
    requires CustodianTailEnabled(p, s, x) && FinalSent(s.c, s.co)
    ensures var s' := CustodianTailStep(p, s, x);
            FinalSent(s'.c, s'.co) && s'.co.pipe == s.co.pipe && s'.co.written == s.co.written && s'.o == s.o
  {
    var c' := CustodianTailStep(p, s, x).c;
    if c'.terminal.Some? { QueueOrder(s.c, c', s.co, Final(c'.terminal.value)); }
    hide FinalLast, Pending, FinalOf, CutOff, GroupEmpty, ReadyToFinish;
  }

  lemma CustodianOrder(p: Setup, s: State, a: CustodianAction)
    requires CustodianEnabled(p, s, a) && Ordered(s)
    ensures Ordered(CustodianStep(p, s, a))
  {
    if a.CBody? {
      BodyOrder(p, s, a.body);
      hide CustodianBodyStep, CustodianBodyEnabled, FinalSent;
    } else if a.CTail? {
      TailOrder(p, s, a.tail);
      hide CustodianTailStep, CustodianTailEnabled, FinalSent;
    } else {
      if a.CWrite? && a.up { WriteOrder(s.o, s.c, s.co); }
      if a.CDrop? && a.up { DropOrder(s.o, s.c, CFailing(s.c), s.co); }
      assert Pending(s.co) == Pending(s.co.(attempted := CustodianStep(p, s, a).co.attempted));
      hide Told, FinalLast, Pending, CustodianSettled;
      if a.CBegin? && a.up { BeginOrder(s.o, s.c, s.co); }
    }
  }

  lemma BeginOrder(o: Outer, c: Custodian, l: Link)
    requires l.queue != [] && FinalSent(c, l) && Told(o, l)
    ensures FinalSent(c, Begin(l)) && Told(o, Begin(l))
  {
    assert Pending(Begin(l)) == Pending(l);
    assert Begin(l).pipe == l.pipe;
    assert forall tag :: Coming(Begin(l), tag) == Coming(l, tag);
  }

  lemma StepOrder(p: Setup, s: State, action: Action)
    requires Ordered(s)
    ensures Ordered(Step(p, s, action))
  {
    hide Ordered, OuterStep, CustodianStep, OuterEnabled, CustodianEnabled;
    match action
    case OAct(x) => if OuterEnabled(p, s, x) { OuterOrder(p, s, x); }
    case CAct(x) => if CustodianEnabled(p, s, x) { CustodianOrder(p, s, x); }
    case KAct(x) => if KeeperEnabled(p, s, x) { UploadKeepers.Untouched(p, s, x); SameOrder(s, KeeperStep(p, s, x)); }
                    hide KeeperStep, KeeperEnabled;
    case Sys(x) => if SystemEnabled(s, x) { SameOrder(s, SystemStep(s, x)); }
  }

  lemma SameOrder(s: State, s': State)
    requires Ordered(s) && s'.o == s.o && s'.c == s.c && s'.co == s.co
    ensures Ordered(s')
  {
  }

  lemma {:induction false} AdvanceOrder(p: Setup, s: State, actions: seq<Action>)
    requires Ordered(s)
    ensures Ordered(Advance(p, s, actions))
    decreases |actions|
  {
    hide Ordered, Step;
    if actions != [] {
      StepOrder(p, s, actions[0]);
      AdvanceOrder(p, Step(p, s, actions[0]), actions[1..]);
    }
  }

  // ---------- the last frame passes ----------

  /** A FINAL frame at the head of the pipe is all there is to read, so O has heard everything C wrote before it. */
  lemma HeardAll(s: State)
    requires Ordered(s) && s.co.pipe != [] && s.co.pipe[0].Final? && !s.o.Is(OIsInvalid)
    ensures TReady in s.co.written ==> s.o.ready.Some?
    ensures TStatus in s.co.written ==> s.o.status.Some?
  {
    assert Pending(s.co)[0] == s.co.pipe[0];
    assert |Pending(s.co)| == 1;
  }

  lemma FinalPasses(p: Setup, s: State, t: Terminal)
    requires Distinct(p) && Inv(p, s) && s.c.terminal == Some(t)
    requires TReady in s.co.written ==> s.o.ready.Some?
    requires TStatus in s.co.written ==> s.o.status.Some?
    ensures FinalAdmissible(p, s.o, s.oc.attempted, s.oc.written, t)
            <==> TRun in s.oc.attempted || !t.validator.Unresolved?
    ensures t.confirmed ==> FinalAdmissible(p, s.o, s.oc.attempted, s.oc.written, t)
  {
    assert s.oc.written <= s.oc.attempted;
    hide Links, GroupEmpty, GroupConfirmed, Cooperative, Children.GoodStatus, GoodRecord;
  }

  /**
   Main result: of the FINAL frames an honest C can send on a stream O still trusts, O's cross-checks refuse exactly
   those that leave the validator unresolved although O never began to grant RUN; every confirmed one passes.
   */
  lemma HonestFinalsPass(p: Setup, actions: seq<Action>)
    requires Distinct(p)
    ensures var s := Advance(p, Initial, actions);
            s.co.pipe != [] && s.co.pipe[0].Final? && !s.o.Is(OIsInvalid) ==>
              var t := s.co.pipe[0].terminal;
              && (FinalAdmissible(p, s.o, s.oc.attempted, s.oc.written, t)
                  <==> TRun in s.oc.attempted || !t.validator.Unresolved?)
              && (t.confirmed ==> FinalAdmissible(p, s.o, s.oc.attempted, s.oc.written, t))
  {
    UploadResults.Reachable(p, actions);
    AdvanceOrder(p, Initial, actions);
    var s := Advance(p, Initial, actions);
    hide Advance;
    if s.co.pipe != [] && s.co.pipe[0].Final? && !s.o.Is(OIsInvalid) {
      HeardAll(s);
      assert Held(s.co, s.co.pipe[0]);
      assert JustCO(p, s.c, s.co.pipe[0]);
      FinalPasses(p, s, s.co.pipe[0].terminal);
    }
    hide *;
  }

  // ---------- the refused family is reachable ----------

  ghost predicate Reached(p: Setup, s: State) {
    exists actions :: Advance(p, Initial, actions) == s
  }

  lemma {:induction false} AdvancePlus(p: Setup, s: State, actions: seq<Action>, a: Action)
    ensures Advance(p, s, actions + [a]) == Step(p, Advance(p, s, actions), a)
    decreases |actions|
  {
    hide Step;
    if actions == [] {
      assert ([] + [a])[1..] == [];
      assert Advance(p, Step(p, s, a), []) == Step(p, s, a);
    } else {
      assert (actions + [a])[1..] == actions[1..] + [a];
      AdvancePlus(p, Step(p, s, actions[0]), actions[1..], a);
    }
  }

  lemma {:induction false} OneMore(p: Setup, s: State, a: Action)
    requires Reached(p, s)
    ensures Reached(p, Step(p, s, a))
  {
    hide Step, Advance;
    var actions :| Advance(p, Initial, actions) == s;
    AdvancePlus(p, Initial, actions, a);
  }

  /** C exists and has greeted O. */
  function Greeted(p: Setup): State {
    Initial.(
      o := Initial.o.(spawn := Published), c := Initial.c.Set({CSentHello}), cp := Alive,
      co := Link([], [Hello(p.c, p.o, p.c, p.c)], {THello}, {THello}))
  }

  /** C holds its configuration. */
  function Configured(p: Setup): State {
    Initial.(
      o := Outer({OGotHello}, Published, {TConfig}, None, None, None, None, None),
      c := Custodian({CSentHello}, NotTried, Some(p.command), None, None, None, None, None),
      cp := Alive, oc := Link([], [], {TConfig}, {TConfig}), co := Link([], [], {THello}, {THello}))
  }

  /** O admitted the capture, and C set out to create K. */
  function Admitted(p: Setup): State {
    Configured(p).(
      o := Outer({OGotHello}, Published, {TConfig, TAdmit}, None, None, None, None, None),
      c := Custodian({CSentHello, CGotAdmit}, Trying, Some(p.command), None, None, None, None, None),
      oc := Link([], [], {TConfig, TAdmit}, {TConfig, TAdmit}))
  }

  /** C was cut off and wrote its last frame. */
  function CutShort(p: Setup): State {
    var t := Terminal(Failed, false, Unresolved, Unresolved, Open);
    Admitted(p).(
      c := Custodian({CSentHello, CGotAdmit, CIsClosed, CRoutesRetired, CIsUnsure}, Trying, Some(p.command), None, None, None, None, Some(t)),
      co := Link([], [Final(t)], {THello, TFinal}, {THello, TFinal}))
  }

  lemma {:induction false} GreetedIsReached(p: Setup)
    ensures Reached(p, Greeted(p))
  {
    var s1 := Initial.(o := Initial.o.(spawn := Trying));
    var s2 := s1.(cp := Alive);
    var s3 := s2.(o := Initial.o.(spawn := Published));
    var s4 := s3.(c := Initial.c.Set({CSentHello}), co := Link([Hello(p.c, p.o, p.c, p.c)], [], {}, {}));
    assert Step(p, Initial, OAct(OTry)) == s1 && Step(p, s1, Sys(BearC)) == s2 && Step(p, s2, OAct(OPublish)) == s3;
    assert Step(p, s3, CAct(CBody(CGreet))) == s4 && Step(p, s4, CAct(CWrite(true))) == Greeted(p);
    hide Step, Reached;
    Start(p);
    OneMore(p, Initial, OAct(OTry));
    OneMore(p, s1, Sys(BearC));
    OneMore(p, s2, OAct(OPublish));
    OneMore(p, s3, CAct(CBody(CGreet)));
    OneMore(p, s4, CAct(CWrite(true)));
  }

  lemma Start(p: Setup)
    ensures Reached(p, Initial)
  {
    assert Advance(p, Initial, []) == Initial;
  }

  lemma {:induction false} ConfiguredIsReached(p: Setup)
    ensures Reached(p, Configured(p))
  {
    GreetedIsReached(p);
    hide Reached, Advance, FinalAdmissible, GoodTerminal, CustodianHears, CustodianTailStep, KeeperEnabled, KeeperStep, SystemStep;
    var s0 := Greeted(p);
    var s1 := s0.(o := Outer({OGotHello}, Published, {}, None, None, None, None, None), co := Link([], [], {THello}, {THello}));
    var s2 := s1.(o := Outer({OGotHello}, Published, {TConfig}, None, None, None, None, None), oc := Link([Config(p.command)], [], {}, {}));
    var s3 := s2.(oc := Link([], [Config(p.command)], {TConfig}, {TConfig}));
    assert Step(p, s0, OAct(OReceive)) == s1 && Step(p, s1, OAct(OAsk(TConfig))) == s2 && Step(p, s2, OAct(OWrite)) == s3;
    assert Step(p, s3, CAct(CBody(CReceive))) == Configured(p);
    hide Step;
    OneMore(p, s0, OAct(OReceive));
    OneMore(p, s1, OAct(OAsk(TConfig)));
    OneMore(p, s2, OAct(OWrite));
    OneMore(p, s3, CAct(CBody(CReceive)));
  }

  lemma {:induction false} AdmittedIsReached(p: Setup)
    ensures Reached(p, Admitted(p))
  {
    ConfiguredIsReached(p);
    hide Reached, Advance, FinalAdmissible, GoodTerminal, CustodianHears, CustodianTailStep, KeeperEnabled, KeeperStep, SystemStep;
    var s0 := Configured(p);
    var s1 := s0.(o := Admitted(p).o, oc := Link([Admit], [], {TConfig}, {TConfig}));
    var s2 := s1.(oc := Link([], [Admit], {TConfig, TAdmit}, {TConfig, TAdmit}));
    assert Step(p, s0, OAct(OAsk(TAdmit))) == s1 && Step(p, s1, OAct(OWrite)) == s2;
    assert Step(p, s2, CAct(CBody(CReceive))) == Admitted(p);
    hide Step;
    OneMore(p, s0, OAct(OAsk(TAdmit)));
    OneMore(p, s1, OAct(OWrite));
    OneMore(p, s2, CAct(CBody(CReceive)));
  }

  lemma {:induction false} CutShortIsReached(p: Setup)
    ensures Reached(p, CutShort(p))
  {
    AdmittedIsReached(p);
    hide Reached, Advance, OuterEnabled, OuterStep, CustodianBodyStep, KeeperEnabled, KeeperStep, SystemStep, FinalOf;
    var s0 := Admitted(p);
    var s1 := s0.(c := CutShort(p).c, co := Link([CutShort(p).co.pipe[0]], [], {THello}, {THello}));
    assert Step(p, s0, CAct(CTail(CCutOff))) == s1 && Step(p, s1, CAct(CWrite(true))) == CutShort(p);
    hide Step;
    OneMore(p, s0, CAct(CTail(CCutOff)));
    OneMore(p, s1, CAct(CWrite(true)));
  }

  /**
   The refused family is real, whatever the process numbers are: C is cut off while it creates K, before RUN was ever
   asked for, and O refuses the honest last frame of a stream it still trusts.
   */
  lemma AnUngrantedFinalIsRefused(p: Setup) returns (actions: seq<Action>)
    ensures var s := Advance(p, Initial, actions);
            && s.co.pipe != [] && s.co.pipe[0].Final? && !s.o.Is(OIsInvalid) && GoodTerminal(s.co.pipe[0].terminal)
            && TRun !in s.oc.attempted && s.co.pipe[0].terminal.validator.Unresolved?
            && !FinalAdmissible(p, s.o, s.oc.attempted, s.oc.written, s.co.pipe[0].terminal)
            && OuterEnabled(p, s, OReceive) && Step(p, s, OAct(OReceive)).o.Is(OIsInvalid)
  {
    CutShortIsReached(p);
    hide Advance;
    actions :| Advance(p, Initial, actions) == CutShort(p);
  }
}
