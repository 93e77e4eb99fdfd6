/**
 Every step of C keeps the invariant of the upload capture.
 */
module UploadCustodians {
  import opened Bytes
  import opened Uploads
  import opened UploadInvariants
  import Children

  // ---------- frames C takes ----------

  lemma ReceivesLocal(p: Setup, c: Custodian, co: Link, oc: Link, f: Frame, o: Outer)
    requires CLocal(p, c) && c.terminal.None? && CustodianReceives(c, co.written, f).Some? && TagOf(f) in oc.written
    requires JustOC(p, o, f) && CrossOC(oc, c)
    ensures var c' := CustodianReceives(c, co.written, f).value.0;
            && CLocal(p, c') && CGrows(c, c') && CrossOC(oc, c')
            && c' == c.(flags := c'.flags, spawn := c'.spawn, config := c'.config)
            && (c'.spawn == c.spawn || (c.spawn.NotTried? && c'.spawn.Trying?))
            && (c'.Is(CSawAbsent) <==> c.Is(CSawAbsent))
            && (CustodianReceives(c, co.written, f).value.1 ==> c'.Is(CForwardedRun))
  {
  }

  lemma HearsLocal(p: Setup, c: Custodian, k: Keeper, ck: Link, f: Frame)
    requires CLocal(p, c) && c.terminal.None? && CustodianHears(p, c, ck, k.Is(KHasMoved), f).Some?
    requires JustKC(p, k, f) && CrossKC(c, k)
    ensures var c' := CustodianHears(p, c, ck, k.Is(KHasMoved), f).value.0; CLocal(p, c') && CrossKC(c', k)
  {
    hide ReleaseAgrees, Children.GoodStatus;
  }

  lemma HearsSteady(p: Setup, c: Custodian, moved: bool, ck: Link, f: Frame)
    requires CustodianHears(p, c, ck, moved, f).Some?
    ensures var c' := CustodianHears(p, c, ck, moved, f).value.0;
            && CGrows(c, c') && c' == c.(flags := c'.flags, moved := c'.moved, status := c'.status, released := c'.released)
            && (c'.Is(CSawAbsent) <==> c.Is(CSawAbsent)) && (c'.Is(CForwardedRun) <==> c.Is(CForwardedRun))
            && (c'.Is(CGotAdmit) <==> c.Is(CGotAdmit)) && (c'.Is(CGotCommit) <==> c.Is(CGotCommit))
  {
    hide ReleaseAgrees, Children.GoodStatus;
  }

  lemma HearsReleased(p: Setup, c: Custodian, k: Keeper, ck: Link, f: Frame)
    requires CLocal(p, c) && CReleased(p, c) && c.terminal.None? && CustodianHears(p, c, ck, k.Is(KHasMoved), f).Some?
    requires JustKC(p, k, f) && KLocal(p, k)
    ensures CReleased(p, CustodianHears(p, c, ck, k.Is(KHasMoved), f).value.0)
  {
    hide GoodRecord, Children.GoodStatus;
  }

  lemma HearsForwards(p: Setup, c: Custodian, ck: Link, keeperMoved: bool, f: Frame)
    requires CustodianHears(p, c, ck, keeperMoved, f).Some? && CustodianHears(p, c, ck, keeperMoved, f).value.1.Some?
    ensures JustCO(p, CustodianHears(p, c, ck, keeperMoved, f).value.0, CustodianHears(p, c, ck, keeperMoved, f).value.1.value)
  {
    hide ReleaseAgrees, Children.GoodStatus;
  }

  // ---------- C's other steps ----------

  predicate Plain(x: CustodianBody) { !x.CReceive? && !x.CHear? }

  /** What no step but the receipt of a frame touches. */
  predicate Steady(c: Custodian, c': Custodian) {
    && c'.config == c.config && c'.moved == c.moved && c'.status == c.status && c'.released == c.released
    && (c'.Is(CGotAdmit) <==> c.Is(CGotAdmit)) && (c'.Is(CForwardedRun) <==> c.Is(CForwardedRun))
    && (c'.Is(CGotCommit) <==> c.Is(CGotCommit)) && (c'.Is(CHasGroup) <==> c.Is(CHasGroup))
  }

  lemma BodyGrants(p: Setup, s: State, x: CustodianBody)
    requires CustodianBodyEnabled(p, s, x) && Plain(x) && CLocal(p, s.c)
    ensures CGrants(p, CustodianBodyStep(p, s, x).c)
  {
    hide CustodianReceives, CustodianHears, Children.GoodStatus;
  }

  lemma BodyTidy(p: Setup, s: State, x: CustodianBody)
    requires CustodianBodyEnabled(p, s, x) && Plain(x) && CLocal(p, s.c)
    ensures var c' := CustodianBodyStep(p, s, x).c; CTidy(c') && CGrows(s.c, c')
  {
    hide CustodianReceives, CustodianHears, Children.GoodStatus, CGrants;
  }

  lemma TailTidy(p: Setup, s: State, x: CustodianTail)
    requires CustodianTailEnabled(p, s, x) && CTidy(s.c)
    requires Ended(s.kp) ==> Children.GoodStatus(s.kp.status)
    ensures CTidy(CustodianTailStep(p, s, x).c)
  {
    hide FinalOf, CutOff, GroupEmpty, ReadyToFinish, Children.GoodStatus;
  }

  lemma TailGrows(p: Setup, s: State, x: CustodianTail)
    requires CustodianTailEnabled(p, s, x)
    ensures CGrows(s.c, CustodianTailStep(p, s, x).c)
  {
    hide FinalOf, CutOff, GroupEmpty, ReadyToFinish;
  }

  lemma TailGrants(p: Setup, s: State, x: CustodianTail)
    requires CustodianTailEnabled(p, s, x) && CGrants(p, s.c)
    ensures CGrants(p, CustodianTailStep(p, s, x).c)
  {
    TailSteady(p, s, x);
    TailGrows(p, s, x);
    hide CustodianTailStep, CustodianTailEnabled, Children.GoodStatus;
  }

  lemma BodySteady(p: Setup, s: State, x: CustodianBody)
    requires CustodianBodyEnabled(p, s, x) && Plain(x)
    ensures var c' := CustodianBodyStep(p, s, x).c;
            Steady(s.c, c') && c'.terminal.None? && c'.wait == s.c.wait && (c'.Is(CSawAbsent) <==> s.c.Is(CSawAbsent))
  {
    hide CustodianReceives, CustodianHears;
  }

  lemma TailSteady(p: Setup, s: State, x: CustodianTail)
    requires CustodianTailEnabled(p, s, x)
    ensures var c' := CustodianTailStep(p, s, x).c;
            && Steady(s.c, c') && (x.CFinish? || x.CCutOff? || c'.terminal.None?) && c'.spawn == s.c.spawn
            && (c'.Is(CSawAbsent) ==> s.c.Is(CSawAbsent) || (x == CProbe(true) && GroupEmpty(s)))
  {
    TailSame(p, s, x);
    TailAbsence(p, s, x);
    hide Steady, CustodianTailStep, CustodianTailEnabled;
  }

  lemma TailSame(p: Setup, s: State, x: CustodianTail)
    requires CustodianTailEnabled(p, s, x)
    ensures var c' := CustodianTailStep(p, s, x).c;
            Steady(s.c, c') && (x.CFinish? || x.CCutOff? || c'.terminal.None?) && c'.spawn == s.c.spawn
  {
    TailQuiet(p, s, x);
    hide CustodianTailStep, CustodianTailEnabled;
  }

  /** Cleanup only sets flags of its own, and takes K's status. */
  lemma TailQuiet(p: Setup, s: State, x: CustodianTail)
    requires CustodianTailEnabled(p, s, x)
    ensures var c, c' := s.c, CustodianTailStep(p, s, x).c;
            && c' == c.(flags := c'.flags, wait := c'.wait, terminal := c'.terminal) && (x.CFinish? || x.CCutOff? || c'.terminal.None?)
            && c.flags <= c'.flags
            && c'.flags <= c.flags + {CSawAbsent, CGroupRetired, CRoutesRetired, CHasFailed, CIsClosed, CIsUnsure, CAskedRelease,
                                      CBeganWait, CIsBroken}
  {
    hide FinalOf, CutOff, GroupEmpty, ReadyToFinish;
  }

  lemma TailAbsence(p: Setup, s: State, x: CustodianTail)
    requires CustodianTailEnabled(p, s, x)
    ensures CustodianTailStep(p, s, x).c.Is(CSawAbsent) ==> s.c.Is(CSawAbsent) || (x == CProbe(true) && GroupEmpty(s))
  {
    hide FinalOf, CutOff, GroupEmpty, ReadyToFinish;
  }

  lemma FinishEnded(p: Setup, s: State, settled: bool)
    requires CustodianTailEnabled(p, s, CFinish(settled)) && CLocal(p, s.c) && CReleased(p, s.c)
    ensures var s' := CustodianTailStep(p, s, CFinish(settled)); CEnded(p, s'.c, s'.co.written)
  {
    var c := s.c;
    var c' := CustodianTailStep(p, s, CFinish(settled)).c;
    assert c' == c.(terminal := Some(FinalOf(p, c, s.co.written, settled)));
    SameRecords(p, c, c');
    assert c'.flags == c.flags;
    assert c.Is(CIsClosed);
    hide CLocal, CReleased, GoodRecord, Children.GoodStatus, KeeperRecord, ValidatorRecord, GroupRecord, RecordsConfirmed;
  }

  /** The records depend on the facts, not on how C ends. */
  lemma SameRecords(p: Setup, c: Custodian, c': Custodian)
    requires c'.spawn == c.spawn && c'.moved == c.moved && c'.status == c.status && c'.released == c.released && c'.wait == c.wait
    requires (c'.Is(CIsClosed) <==> c.Is(CIsClosed)) && (c'.Is(CHasGroup) <==> c.Is(CHasGroup))
    requires (c'.Is(CGroupRetired) <==> c.Is(CGroupRetired)) && (c'.Is(CSawAbsent) <==> c.Is(CSawAbsent)) && (c'.Is(CSawEof) <==> c.Is(CSawEof))
    ensures KeeperRecord(p, c') == KeeperRecord(p, c) && ValidatorRecord(p, c') == ValidatorRecord(p, c)
    ensures GroupRecord(p, c') == GroupRecord(p, c) && (RecordsConfirmed(p, c') <==> RecordsConfirmed(p, c))
  {
  }

  lemma CutOffEnded(p: Setup, s: State)
    requires CustodianTailEnabled(p, s, CCutOff)
    ensures var s' := CustodianTailStep(p, s, CCutOff); CEnded(p, s'.c, s'.co.written)
  {
    var c' := CustodianTailStep(p, s, CCutOff).c;
    SameRecords(p, c'.(terminal := None), c');
    hide KeeperRecord, ValidatorRecord, GroupRecord, RecordsConfirmed;
  }

  // ---------- C's links ----------

  lemma BodyLinks(p: Setup, s: State, x: CustodianBody)
    requires CustodianBodyEnabled(p, s, x) && Plain(x) && CGrants(p, s.c) && CGrows(s.c, CustodianBodyStep(p, s, x).c)
    requires LinkCO(p, s.c, s.co) && LinkCK(p, s.c, s.ck) && Shape(s.co) && Shape(s.ck) && RunEarned(s.c, s.ck)
    ensures var s' := CustodianBodyStep(p, s, x);
            LinkCO(p, s'.c, s'.co) && LinkCK(p, s'.c, s'.ck) && Shape(s'.co) && Shape(s'.ck) && RunEarned(s'.c, s'.ck)
  {
    var s' := CustodianBodyStep(p, s, x);
    COMonotone(p, s.c, s'.c, s.co);
    CKMonotone(p, s.c, s'.c, s.ck);
    Queued(s.co, Hello(p.c, p.o, p.c, p.c));
    Queued(s.ck, Cancel);
    if s.c.config.Some? { Queued(s.ck, Config(s.c.config.value)); }
    hide Shape, Held, CustodianReceives, CustodianHears;
  }

  lemma TailLinks(p: Setup, s: State, x: CustodianTail)
    requires CustodianTailEnabled(p, s, x) && CGrows(s.c, CustodianTailStep(p, s, x).c)
    requires LinkCO(p, s.c, s.co) && LinkCK(p, s.c, s.ck) && Shape(s.co) && Shape(s.ck) && RunEarned(s.c, s.ck)
    ensures var s' := CustodianTailStep(p, s, x);
            LinkCO(p, s'.c, s'.co) && LinkCK(p, s'.c, s'.ck) && Shape(s'.co) && Shape(s'.ck) && RunEarned(s'.c, s'.ck)
  {
    var s' := CustodianTailStep(p, s, x);
    COMonotone(p, s.c, s'.c, s.co);
    CKMonotone(p, s.c, s'.c, s.ck);
    var retired := GroupRetired(p.k, s.c.Is(CSawAbsent));
    Queued(s.ck, retired);
    Queued(Queue(s.ck, retired), Release);
    if s'.c.terminal.Some? { Queued(s.co, Final(s'.c.terminal.value)); }
    hide Shape, Held, FinalOf, CutOff, GroupEmpty, ReadyToFinish;
  }

  lemma ReceiveLinks(p: Setup, s: State, c': Custodian, forward: bool)
    requires CGrows(s.c, c') && (forward ==> c'.Is(CForwardedRun))
    requires LinkCK(p, s.c, s.ck) && Shape(s.ck) && RunEarned(s.c, s.ck)
    ensures var ck := if forward then Queue(s.ck, Run) else s.ck; LinkCK(p, c', ck) && Shape(ck) && RunEarned(c', ck)
  {
    CKMonotone(p, s.c, c', s.ck);
    Queued(s.ck, Run);
    hide Shape, Held;
  }

  lemma HearLinks(p: Setup, s: State, c': Custodian, forward: Option<Frame>)
    requires CGrows(s.c, c') && (forward.Some? ==> JustCO(p, c', forward.value))
    requires LinkCO(p, s.c, s.co) && Shape(s.co)
    ensures LinkCO(p, c', Offered(s.co, forward)) && Shape(Offered(s.co, forward))
    ensures Offered(s.co, forward).written == s.co.written
  {
    COMonotone(p, s.c, c', s.co);
    if forward.Some? { Queued(s.co, forward.value); }
    hide Shape, Held, JustCO;
  }

  // ---------- writes, failures and death ----------

  lemma FailingLocal(p: Setup, c: Custodian, more: set<CustodianFlag>)
    requires CLocal(p, c) && CReleased(p, c)
    requires more <= {CParentShut, CKeeperShut, CIsUnsure}
    ensures var c' := CFailing(c).Set(more);
            CLocal(p, c') && CReleased(p, c') && CGrows(c, c') && Steady(c, c') && c'.spawn == c.spawn && c'.wait == c.wait
            && (c'.Is(CSawAbsent) <==> c.Is(CSawAbsent))
    ensures CFailing(c).Set({}) == CFailing(c)
  {
    hide GoodRecord, Children.GoodStatus;
  }

  lemma FailingEnded(p: Setup, c: Custodian, more: set<CustodianFlag>, written: set<Tag>)
    requires CEnded(p, c, written) && more <= {CParentShut, CKeeperShut, CIsUnsure}
    ensures CEnded(p, CFailing(c).Set(more), written)
  {
    if c.terminal.Some? { SameRecords(p, c, CFailing(c).Set(more)); }
    hide KeeperRecord, ValidatorRecord, GroupRecord, RecordsConfirmed;
  }

  lemma WriteLinks(p: Setup, s: State, up: bool)
    requires Out(s, up).queue != []
    requires LinkCO(p, s.c, s.co) && LinkCK(p, s.c, s.ck) && Shape(s.co) && Shape(s.ck) && RunEarned(s.c, s.ck)
    ensures forall l :: l in [Begin(Out(s, up)), Write(Out(s, up)), Drop(Out(s, up))] ==>
              var s' := Outward(s, up, l);
              LinkCO(p, s.c, s'.co) && LinkCK(p, s.c, s'.ck) && Shape(s'.co) && Shape(s'.ck) && RunEarned(s.c, s'.ck)
              && s.co.written <= s'.co.written
  {
    var l := Out(s, up);
    Begun(l); Wrote(l); Dropped(l);
    assert Held(l, l.queue[0]);
    if !up { assert JustCK(p, s.c, l.queue[0]); }
    hide Shape, Held;
  }

  // ---------- all of it together ----------

  /** The parts of the invariant that C's steps may disturb. */
  ghost predicate Mine(p: Setup, s: State) {
    && CLocal(p, s.c) && CReleased(p, s.c) && CEnded(p, s.c, s.co.written) && CrossOC(s.oc, s.c) && CrossKC(s.c, s.k)
    && LinkCO(p, s.c, s.co) && LinkCK(p, s.c, s.ck) && Shape(s.co) && Shape(s.ck) && RunEarned(s.c, s.ck)
  }

  lemma ReceiveMine(p: Setup, s: State)
    requires CustodianBodyEnabled(p, s, CReceive) && Inv(p, s)
    ensures Mine(p, CustodianBodyStep(p, s, CReceive)) && CGrows(s.c, CustodianBodyStep(p, s, CReceive).c)
  {
    var f := s.oc.pipe[0];
    Took(s.oc);
    assert JustOC(p, s.o, f);
    FailingLocal(p, s.c, {});
    var r := CustodianReceives(s.c, s.co.written, f);
    if r.Some? {
      ReceivesLocal(p, s.c, s.co, s.oc, f, s.o);
      ReceiveLinks(p, s, r.value.0, r.value.1);
      COMonotone(p, s.c, r.value.0, s.co);
    } else {
      COMonotone(p, s.c, CFailing(s.c), s.co);
      CKMonotone(p, s.c, CFailing(s.c), s.ck);
    }
    hide CustodianReceives, CLocal, CGrows, LinkCO, LinkCK, LinkOC, LinkKC, Shape, JustOC, Held, KLocal, OLocal, ProcC, ProcK, ProcV, Absent;
  }

  lemma HearMine(p: Setup, s: State)
    requires CustodianBodyEnabled(p, s, CHear) && Inv(p, s)
    ensures Mine(p, CustodianBodyStep(p, s, CHear)) && CGrows(s.c, CustodianBodyStep(p, s, CHear).c)
  {
    var f := s.kc.pipe[0];
    Took(s.kc);
    assert JustKC(p, s.k, f);
    FailingLocal(p, s.c, {CIsUnsure});
    var moved := s.k.Is(KHasMoved);
    var r := CustodianHears(p, s.c, s.ck, moved, f);
    if r.Some? {
      HearsLocal(p, s.c, s.k, s.ck, f);
      HearsSteady(p, s.c, moved, s.ck, f);
      HearsReleased(p, s.c, s.k, s.ck, f);
      if r.value.1.Some? { HearsForwards(p, s.c, s.ck, moved, f); }
      HearLinks(p, s, r.value.0, r.value.1);
      CKMonotone(p, s.c, r.value.0, s.ck);
    } else {
      COMonotone(p, s.c, CFailing(s.c).Set({CIsUnsure}), s.co);
      CKMonotone(p, s.c, CFailing(s.c).Set({CIsUnsure}), s.ck);
    }
    hide CustodianHears, CLocal, CGrows, LinkCO, LinkCK, LinkOC, LinkKC, Shape, JustKC, JustCO, Held, KLocal, OLocal, ProcC, ProcK, ProcV, Absent, CReleased;
  }

  lemma BodyMine(p: Setup, s: State, x: CustodianBody)
    requires CustodianBodyEnabled(p, s, x) && Plain(x) && Mine(p, s)
    ensures Mine(p, CustodianBodyStep(p, s, x)) && CGrows(s.c, CustodianBodyStep(p, s, x).c)
  {
    var s' := CustodianBodyStep(p, s, x);
    BodyGrants(p, s, x);
    BodyTidy(p, s, x);
    BodySteady(p, s, x);
    BodyLinks(p, s, x);
    assert s'.oc == s.oc && s'.k == s.k by { hide CustodianReceives, CustodianHears; }
    hide CustodianBodyStep, CustodianBodyEnabled, CGrants, CTidy, CGrows, LinkCO, LinkCK, Shape, RunEarned;
  }

  lemma TailMine(p: Setup, s: State, x: CustodianTail)
    requires CustodianTailEnabled(p, s, x) && Mine(p, s) && (Ended(s.kp) ==> Children.GoodStatus(s.kp.status))
    ensures Mine(p, CustodianTailStep(p, s, x)) && CGrows(s.c, CustodianTailStep(p, s, x).c)
  {
    var s' := CustodianTailStep(p, s, x);
    TailGrants(p, s, x);
    TailTidy(p, s, x);
    TailSteady(p, s, x);
    TailGrows(p, s, x);
    TailLinks(p, s, x);
    if x.CFinish? { FinishEnded(p, s, x.settled); } else if x.CCutOff? { CutOffEnded(p, s); }
    assert s'.oc == s.oc && s'.k == s.k by { hide FinalOf, CutOff, GroupEmpty, ReadyToFinish; }
    hide CustodianTailStep, CustodianTailEnabled, CGrants, CTidy, CGrows, LinkCO, LinkCK, Shape, RunEarned;
  }

  /** Steps outside C's body and tail. */
  predicate Other(a: CustodianAction) { !a.CBody? && !a.CTail? }

  function Extra(a: CustodianAction): set<CustodianFlag> {
    if a.CShut? then (if a.up then {CParentShut, CIsUnsure} else if a.sure then {CKeeperShut} else {CKeeperShut, CIsUnsure})
    else if a.CUnsure? then {CIsUnsure} else {}
  }

  lemma OtherMine(p: Setup, s: State, a: CustodianAction)
    requires CustodianEnabled(p, s, a) && Other(a) && Mine(p, s)
    ensures Mine(p, CustodianStep(p, s, a)) && CGrows(s.c, CustodianStep(p, s, a).c)
  {
    var failing := CFailing(s.c).Set(Extra(a));
    FailingLocal(p, s.c, Extra(a));
    FailingEnded(p, s.c, Extra(a), s.co.written);
    if a.CBegin? || a.CWrite? || a.CDrop? { WriteLinks(p, s, a.up); }
    if a.CDrop? {
      var l := Drop(Out(s, a.up));
      var moved := Outward(s, a.up, l);
      assert l in [Begin(Out(s, a.up)), Write(Out(s, a.up)), l];
      COMonotone(p, s.c, failing, moved.co);
      CKMonotone(p, s.c, failing, moved.ck);
    } else if a.CBegin? {
      assert Begin(Out(s, a.up)) in [Begin(Out(s, a.up)), Write(Out(s, a.up)), Drop(Out(s, a.up))];
    } else if a.CWrite? {
      assert Write(Out(s, a.up)) in [Begin(Out(s, a.up)), Write(Out(s, a.up)), Drop(Out(s, a.up))];
    } else {
      COMonotone(p, s.c, failing, s.co);
      CKMonotone(p, s.c, failing, s.ck);
    }
    hide CLocal, CGrows, LinkCO, LinkCK, Shape, KeeperRecord, ValidatorRecord, GroupRecord, RecordsConfirmed, CustodianSettled;
  }

  /** What C's steps leave alone. */
  lemma Untouched(p: Setup, s: State, a: CustodianAction)
    requires CustodianEnabled(p, s, a)
    ensures var s' := CustodianStep(p, s, a);
            && s'.o == s.o && s'.k == s.k && s'.vp == s.vp && s'.kin == s.kin
            && s'.oc == (if a == CBody(CReceive) then Take(s.oc) else s.oc) && s'.kc == (if a == CBody(CHear) then Take(s.kc) else s.kc)
            && (s'.cp == s.cp || (a.CExit? && s'.cp.Zombie? && s'.c == s.c && s'.kp == s.kp))
            && s'.kp == (if a == CTail(CWait) then Reaped(s.kp.status) else s.kp)
  {
    hide CustodianReceives, CustodianHears, FinalOf, CutOff, GroupEmpty, ReadyToFinish, CustodianSettled;
  }

  /** How a step of C changes its one creation and its one wait. */
  lemma SpawnStep(p: Setup, s: State, a: CustodianAction)
    requires CustodianEnabled(p, s, a) && CGrants(p, s.c)
    ensures var c' := CustodianStep(p, s, a).c;
            && (c'.spawn == s.c.spawn || (s.c.spawn.NotTried? && c'.spawn.Trying?) || s.c.spawn.Trying?)
            && (c'.spawn.Never? ==> s.c.spawn.Never? || s.kp.Unborn?) && (c'.spawn.Published? ==> s.c.spawn.Published? || !s.kp.Unborn?)
            && (c'.spawn.NotTried? ==> s.c.spawn.NotTried?)
            && c'.wait == (if a == CTail(CWait) then Some(s.kp.status) else s.c.wait) && (a == CTail(CWait) ==> s.kp.Zombie?)
  {
    hide FinalOf, CutOff, GroupEmpty, ReadyToFinish, CustodianSettled, ReleaseAgrees, Children.GoodStatus;
    if a == CBody(CReceive) || a == CBody(CHear) {} else { hide CustodianReceives, CustodianHears; }
  }

  lemma AbsenceStep(p: Setup, s: State, a: CustodianAction)
    requires CustodianEnabled(p, s, a) && Inv(p, s)
    ensures CustodianStep(p, s, a).c.Is(CSawAbsent) ==> s.c.Is(CSawAbsent) || (GroupEmpty(s) && s.k.Is(KHasMoved))
  {
    if a == CBody(CReceive) {
      var r := CustodianReceives(s.c, s.co.written, s.oc.pipe[0]);
      Took(s.oc);
      if r.Some? { ReceivesLocal(p, s.c, s.co, s.oc, s.oc.pipe[0], s.o); }
      hide CustodianReceives, LinkOC, LinkCO, LinkCK, LinkKC, Shape, CLocal, CReleased, CEnded, CrossOC, CrossKC, GroupEmpty;
    } else if a == CBody(CHear) {
      var r := CustodianHears(p, s.c, s.ck, s.k.Is(KHasMoved), s.kc.pipe[0]);
      if r.Some? { HearsSteady(p, s.c, s.k.Is(KHasMoved), s.ck, s.kc.pipe[0]); }
      hide CustodianHears, LinkOC, LinkCO, LinkCK, LinkKC, Shape, CLocal, CReleased, CEnded, CrossOC, CrossKC, GroupEmpty;
    } else if a.CBody? {
      BodySteady(p, s, a.body);
      hide CustodianBodyStep, CustodianBodyEnabled, Links, Locals, Crosses, Processes, GroupEmpty;
    } else if a.CTail? {
      TailSteady(p, s, a.tail);
      assert CTidy(s.c) && CGrants(p, s.c);
      hide CustodianTailStep, Links, CReleased, CEnded, KLocal, OLocal, Crosses, ProcC, ProcV, Absent, ReadyToFinish;
    } else {
      FailingLocal(p, s.c, Extra(a));
      hide CLocal, CReleased, CEnded, Links, Crosses, Processes, GroupEmpty, CustodianSettled;
    }
  }

  lemma CustodianProcess(p: Setup, s: State, a: CustodianAction)
    requires CustodianEnabled(p, s, a) && Inv(p, s)
    ensures var s' := CustodianStep(p, s, a); ProcC(s') && ProcK(p, s') && ProcV(s') && Absent(s')
  {
    Untouched(p, s, a);
    SpawnStep(p, s, a);
    AbsenceStep(p, s, a);
    assert s.cp.Alive?;
    hide CustodianStep, CustodianEnabled, Links, Locals, Crosses, GroupConfirmed, Cooperative, Children.GoodStatus;
  }

  lemma Relied(p: Setup, o: Outer, c: Custodian, c': Custodian, k: Keeper)
    requires CrossCO(p, o, c) && CrossCK(c, k) && CGrows(c, c')
    ensures CrossCO(p, o, c') && CrossCK(c', k)
  {
  }

  lemma CustodianMine(p: Setup, s: State, a: CustodianAction)
    requires CustodianEnabled(p, s, a) && Inv(p, s)
    ensures Mine(p, CustodianStep(p, s, a)) && CGrows(s.c, CustodianStep(p, s, a).c)
  {
    assert Mine(p, s) && (Ended(s.kp) ==> Children.GoodStatus(s.kp.status));
    if a == CBody(CReceive) { ReceiveMine(p, s); }
    else if a == CBody(CHear) { HearMine(p, s); }
    else if a.CBody? { BodyMine(p, s, a.body); }
    else if a.CTail? { TailMine(p, s, a.tail); }
    else { OtherMine(p, s, a); }
    hide Mine, CGrows, Inv, CustodianBodyStep, CustodianTailStep, CustodianBodyEnabled, CustodianTailEnabled;
  }

  lemma CustodianKeeps(p: Setup, s: State, a: CustodianAction)
    requires CustodianEnabled(p, s, a) && Inv(p, s)
    ensures Inv(p, CustodianStep(p, s, a))
  {
    Untouched(p, s, a);
    CustodianMine(p, s, a);
    CustodianProcess(p, s, a);
    Relied(p, s.o, s.c, CustodianStep(p, s, a).c, s.k);
    if a == CBody(CReceive) { Took(s.oc); }
    if a == CBody(CHear) { Took(s.kc); }
    hide CustodianStep, CustodianEnabled, CLocal, CReleased, CEnded, CrossOC, CrossCO, CrossCK, CrossKC, LinkCO, LinkCK, Shape, RunEarned;
    hide KLocal, OLocal, ProcC, ProcK, ProcV, Absent, JustOC, JustKC, CGrows, Held;
  }
}
