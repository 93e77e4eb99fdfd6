/**
 One complete honest capture, step by step: an upload can be authorised.
 */
module UploadRuns {
  import opened Bytes
  import opened Uploads
  import opened UploadInvariants
  import opened UploadOrders
  import Children

  const TWO: set<Tag> := {TConfig, TAdmit}
  const THREE: set<Tag> := {TConfig, TAdmit, TRun}

  /** Nothing queued; what was written is `tags`, and `pipe` is still to be read. */
  function Sent(pipe: seq<Frame>, tags: set<Tag>): Link { Link([], pipe, tags, tags) }

  /** One frame queued behind what was written and read. */
  function Unsent(f: Frame, tags: set<Tag>): Link { Link([f], [], tags, tags) }

  function OuterAfter(p: Setup, reserved: bool): Outer {
    Outer({OGotHello}, Published, if reserved then THREE else TWO, if reserved then Some(p.k) else None, None, None, None, None)
  }

  const UP0: set<CustodianFlag> := {CSentHello, CGotAdmit, CIsClosed}
  const UP1: set<CustodianFlag> := {CSentHello, CGotAdmit, CIsClosed, CHasGroup}
  const UP2: set<CustodianFlag> := {CSentHello, CGotAdmit, CIsClosed, CHasGroup, CForwardedRun}

  function CustodianAfter(p: Setup, flags: set<CustodianFlag>, moved: Option<nat>): Custodian {
    Custodian(flags, Published, Some(p.command), moved, None, None, None, None)
  }

  // ---------- K comes up ----------

  function KeeperWaiting(p: Setup): Keeper { Keeper({KHasGroup, KSentHello}, NotTried, Some(p.command), None, None) }

  /** K holds its group and configuration, and its greeting is on the way to C. */
  function KeeperUp(p: Setup): State {
    State(OuterAfter(p, false), CustodianAfter(p, UP0, None), KeeperWaiting(p),
          Alive, Alive, Unborn, false,
          Sent([], TWO), Sent([], {THello}), Sent([], {TConfig}), Sent([Hello(p.k, p.c, p.c, p.k)], {THello}))
  }

  /** C published K and sent it the configuration. */
  function KeeperBorn(p: Setup): State {
    State(OuterAfter(p, false), CustodianAfter(p, UP0, None), Initial.k, Alive, Alive, Unborn, false,
          Sent([], TWO), Sent([], {THello}), Sent([Config(p.command)], {TConfig}), EMPTY)
  }

  lemma {:induction false} KeeperIsBorn(p: Setup)
    ensures Reached(p, KeeperBorn(p))
  {
    AdmittedIsReached(p);
    hide Reached, Advance, OuterEnabled, OuterStep, CustodianTailStep, CustodianReceives, CustodianHears, KeeperEnabled, KeeperStep, FinalOf;
    var s0 := Admitted(p);
    var s1 := s0.(kp := Alive);
    var s2 := KeeperBorn(p).(ck := Unsent(Config(p.command), {}));
    assert Step(p, s0, Sys(BearK)) == s1 && Step(p, s1, CAct(CBody(CPublish))) == s2;
    assert Step(p, s2, CAct(CWrite(false))) == KeeperBorn(p);
    hide Step;
    OneMore(p, s0, Sys(BearK));
    OneMore(p, s1, CAct(CBody(CPublish)));
    OneMore(p, s2, CAct(CWrite(false)));
  }

  lemma {:induction false} KeeperIsUp(p: Setup)
    ensures Reached(p, KeeperUp(p))
  {
    KeeperIsBorn(p);
    hide Reached, Advance, OuterEnabled, OuterStep, CustodianEnabled, CustodianStep, SystemStep;
    var s0 := KeeperBorn(p);
    var s1 := s0.(k := Keeper({KHasGroup}, NotTried, None, None, None));
    var s2 := s1.(k := Keeper({KHasGroup, KSentHello}, NotTried, None, None, None), kc := Unsent(Hello(p.k, p.c, p.c, p.k), {}));
    var s3 := s2.(kc := Sent([Hello(p.k, p.c, p.c, p.k)], {THello}));
    assert Step(p, s0, KAct(KBody(KSettle))) == s1 && Step(p, s1, KAct(KBody(KGreet))) == s2;
    assert Step(p, s2, KAct(KWrite)) == s3 && Step(p, s3, KAct(KBody(KReceive))) == KeeperUp(p);
    hide Step;
    OneMore(p, s0, KAct(KBody(KSettle)));
    OneMore(p, s1, KAct(KBody(KGreet)));
    OneMore(p, s2, KAct(KWrite));
    OneMore(p, s3, KAct(KBody(KReceive)));
  }

  // ---------- O grants RUN, K creates V ----------

  function Reserving(p: Setup): State {
    State(OuterAfter(p, true), CustodianAfter(p, UP1, None), KeeperWaiting(p), Alive, Alive, Unborn, false,
          Sent([Run], THREE), Sent([], {THello, TReserved}), Sent([], {TConfig}), Sent([], {THello}))
  }

  lemma {:induction false} ReservationIsHeard(p: Setup)
    requires Distinct(p)
    ensures Reached(p, Reserving(p))
  {
    KeeperIsUp(p);
    hide Reached, Advance, FinalAdmissible, GoodTerminal, CustodianTailStep, KeeperEnabled, KeeperStep, SystemStep, ReleaseAgrees;
    var s0 := KeeperUp(p);
    var s1 := s0.(c := CustodianAfter(p, UP1, None), co := Unsent(Reserved(p.k, p.k, p.c), {THello}), kc := Sent([], {THello}));
    var s2 := s1.(co := Sent([Reserved(p.k, p.k, p.c)], {THello, TReserved}));
    var s3 := s2.(o := OuterAfter(p, false).(reserved := Some(p.k)), co := Sent([], {THello, TReserved}));
    var s4 := s3.(o := OuterAfter(p, true), oc := Unsent(Run, TWO));
    assert Step(p, s0, CAct(CBody(CHear))) == s1 && Step(p, s1, CAct(CWrite(true))) == s2;
    assert Step(p, s2, OAct(OReceive)) == s3 && Step(p, s3, OAct(OAsk(TRun))) == s4 && Step(p, s4, OAct(OWrite)) == Reserving(p);
    hide Step;
    OneMore(p, s0, CAct(CBody(CHear)));
    OneMore(p, s1, CAct(CWrite(true)));
    OneMore(p, s2, OAct(OReceive));
    OneMore(p, s3, OAct(OAsk(TRun)));
    OneMore(p, s4, OAct(OWrite));
  }

  function KeeperGranted(p: Setup): Keeper {
    Keeper({KHasGroup, KSentHello, KGotRun}, Trying, Some(p.command), None, None)
  }

  function Granted(p: Setup): State {
    State(OuterAfter(p, true), CustodianAfter(p, UP2, None), KeeperGranted(p), Alive, Alive, Alive, false,
          Sent([], THREE), Sent([], {THello, TReserved}), Sent([], {TConfig, TRun}), Sent([], {THello}))
  }

  function Forwarded(p: Setup): State {
    State(OuterAfter(p, true), CustodianAfter(p, UP2, None), KeeperWaiting(p), Alive, Alive, Unborn, false,
          Sent([], THREE), Sent([], {THello, TReserved}), Sent([Run], {TConfig, TRun}), Sent([], {THello}))
  }

  lemma {:induction false} RunIsForwarded(p: Setup)
    requires Distinct(p)
    ensures Reached(p, Forwarded(p))
  {
    ReservationIsHeard(p);
    hide Reached, Advance, OuterEnabled, OuterStep, CustodianTailStep, CustodianHears, KeeperEnabled, KeeperStep, SystemStep;
    var s0 := Reserving(p);
    var s1 := s0.(c := CustodianAfter(p, UP2, None), oc := Sent([], THREE), ck := Unsent(Run, {TConfig}));
    assert Step(p, s0, CAct(CBody(CReceive))) == s1 && Step(p, s1, CAct(CWrite(false))) == Forwarded(p);
    hide Step;
    OneMore(p, s0, CAct(CBody(CReceive)));
    OneMore(p, s1, CAct(CWrite(false)));
  }

  lemma {:induction false} RunIsGranted(p: Setup)
    requires Distinct(p)
    ensures Reached(p, Granted(p))
  {
    RunIsForwarded(p);
    hide Reached, Advance, OuterEnabled, OuterStep, CustodianEnabled, CustodianStep;
    var s0 := Forwarded(p);
    var s1 := s0.(k := KeeperGranted(p), ck := Sent([], {TConfig, TRun}));
    assert Step(p, s0, KAct(KBody(KReceive))) == s1 && Step(p, s1, Sys(BearV)) == Granted(p);
    hide Step;
    OneMore(p, s0, KAct(KBody(KReceive)));
    OneMore(p, s1, Sys(BearV));
  }

  function KeeperMoved(p: Setup, wait: Option<Status>): Keeper {
    Keeper({KHasGroup, KSentHello, KGotRun, KIsClosed, KHasMoved}, Published, Some(p.command), wait, None)
  }

  function OuterReadied(p: Setup, status: Option<Status>): Outer {
    Outer({OGotHello, OClosedStdin}, Published, THREE, Some(p.k), Some(p.v), status, None, None)
  }

  /** V runs the configuration, and O knows it as ready. */
  function Readied(p: Setup): State {
    State(OuterReadied(p, None), CustodianAfter(p, UP2, Some(p.v)), KeeperMoved(p, None), Alive, Alive, Alive, false,
          Sent([], THREE), Sent([], {THello, TReserved, TReady}), Sent([], {TConfig, TRun}), Sent([], {THello, TMoved}))
  }

  function Presenting(p: Setup): State {
    State(OuterAfter(p, true), CustodianAfter(p, UP2, Some(p.v)), KeeperMoved(p, None), Alive, Alive, Alive, false,
          Sent([], THREE), Sent([Ready(p.v, p.k, p.c)], {THello, TReserved, TReady}), Sent([], {TConfig, TRun}), Sent([], {THello, TMoved}))
  }

  function Moving(p: Setup): State {
    State(OuterAfter(p, true), CustodianAfter(p, UP2, None), KeeperMoved(p, None), Alive, Alive, Alive, false,
          Sent([], THREE), Sent([], {THello, TReserved}), Sent([], {TConfig, TRun}), Sent([Moved(p.v, p.k, p.c)], {THello, TMoved}))
  }

  lemma {:induction false} MoveIsWritten(p: Setup)
    requires Distinct(p)
    ensures Reached(p, Moving(p))
  {
    RunIsGranted(p);
    hide Reached, Advance, FinalAdmissible, GoodTerminal, CustodianTailStep, CustodianReceives, KeeperReceives, SystemStep, ReleaseAgrees;
    var s0 := Granted(p);
    var s1 := s0.(k := KeeperMoved(p, None), kc := Unsent(Moved(p.v, p.k, p.c), {THello}));
    assert Step(p, s0, KAct(KBody(KPublish(true)))) == s1 && Step(p, s1, KAct(KWrite)) == Moving(p);
    hide Step;
    OneMore(p, s0, KAct(KBody(KPublish(true))));
    OneMore(p, s1, KAct(KWrite));
  }

  lemma {:induction false} ReadyIsWritten(p: Setup)
    requires Distinct(p)
    ensures Reached(p, Presenting(p))
  {
    MoveIsWritten(p);
    hide Reached, Advance, OuterEnabled, OuterStep, CustodianTailStep, CustodianReceives, KeeperStep, SystemStep, ReleaseAgrees;
    var s0 := Moving(p);
    var s1 := s0.(c := CustodianAfter(p, UP2, Some(p.v)), co := Unsent(Ready(p.v, p.k, p.c), {THello, TReserved}), kc := Sent([], {THello, TMoved}));
    assert Step(p, s0, CAct(CBody(CHear))) == s1 && Step(p, s1, CAct(CWrite(true))) == Presenting(p);
    hide Step;
    OneMore(p, s0, CAct(CBody(CHear)));
    OneMore(p, s1, CAct(CWrite(true)));
  }

  lemma {:induction false} ValidatorIsReady(p: Setup)
    requires Distinct(p)
    ensures Reached(p, Readied(p))
  {
    ReadyIsWritten(p);
    hide Reached, Advance, FinalAdmissible, GoodTerminal, CustodianEnabled, CustodianStep, KeeperEnabled, KeeperStep, SystemStep;
    var s0 := Presenting(p);
    var s1 := s0.(o := Outer({OGotHello}, Published, THREE, Some(p.k), Some(p.v), None, None, None), co := Sent([], {THello, TReserved, TReady}));
    assert Step(p, s0, OAct(OReceive)) == s1 && Step(p, s1, OAct(OCloseStdin)) == Readied(p);
    hide Step;
    OneMore(p, s0, OAct(OReceive));
    OneMore(p, s1, OAct(OCloseStdin));
  }

  // ---------- V ends, O commits ----------

  function KeeperWaited(p: Setup): Keeper {
    Keeper({KHasGroup, KSentHello, KGotRun, KIsClosed, KHasMoved, KSentStatus}, Published, Some(p.command), Some(CLEAN), None)
  }

  const CLEANING: set<CustodianFlag> := {CSentHello, CGotAdmit, CIsClosed, CHasGroup, CForwardedRun, CIsCleaning}
  const COMMITTED: set<CustodianFlag> := {CSentHello, CGotAdmit, CIsClosed, CHasGroup, CForwardedRun, CIsCleaning, CGotCommit}

  function CustodianTold(p: Setup, flags: set<CustodianFlag>): Custodian {
    Custodian(flags, Published, Some(p.command), Some(p.v), Some(CLEAN), None, None, None)
  }

  const UP: set<Tag> := {THello, TReserved, TReady, TStatus}
  const DONE: set<Tag> := {THello, TMoved, TStatus}

  /** V was reaped by K, and its status is on the way to O. */
  function Told(p: Setup): State {
    State(OuterReadied(p, None), CustodianTold(p, CLEANING), KeeperWaited(p), Alive, Alive, Reaped(CLEAN), false,
          Sent([], THREE), Sent([StatusOf(p.v, CLEAN)], UP), Sent([], {TConfig, TRun}), Sent([], DONE))
  }

  function Judged(p: Setup): State {
    State(OuterReadied(p, None), CustodianAfter(p, UP2, Some(p.v)), KeeperWaited(p), Alive, Alive, Reaped(CLEAN), false,
          Sent([], THREE), Sent([], {THello, TReserved, TReady}), Sent([], {TConfig, TRun}), Sent([StatusOf(p.v, CLEAN)], DONE))
  }

  function Validated(p: Setup): State {
    State(OuterReadied(p, None), CustodianAfter(p, UP2, Some(p.v)), KeeperMoved(p, Some(CLEAN)), Alive, Alive, Reaped(CLEAN), false,
          Sent([], THREE), Sent([], {THello, TReserved, TReady}), Sent([], {TConfig, TRun}), Sent([], {THello, TMoved}))
  }

  lemma {:induction false} ValidatorEnds(p: Setup)
    requires Distinct(p)
    ensures Reached(p, Validated(p))
  {
    ValidatorIsReady(p);
    hide Reached, Advance, OuterEnabled, OuterStep, CustodianEnabled, CustodianStep, KeeperReceives;
    var s0 := Readied(p);
    var s1 := s0.(vp := Zombie(CLEAN));
    assert Step(p, s0, Sys(EndV(CLEAN))) == s1 && Step(p, s1, KAct(KBody(KWait))) == Validated(p);
    hide Step;
    OneMore(p, s0, Sys(EndV(CLEAN)));
    OneMore(p, s1, KAct(KBody(KWait)));
  }

  lemma {:induction false} ValidatorIsReaped(p: Setup)
    requires Distinct(p)
    ensures Reached(p, Judged(p))
  {
    ValidatorEnds(p);
    hide Reached, Advance, OuterEnabled, OuterStep, CustodianEnabled, CustodianStep, KeeperReceives, SystemEnabled, SystemStep;
    var s0 := Validated(p);
    var s1 := s0.(k := KeeperWaited(p), kc := Unsent(StatusOf(p.v, CLEAN), {THello, TMoved}));
    assert Step(p, s0, KAct(KBody(KStatus))) == s1 && Step(p, s1, KAct(KWrite)) == Judged(p);
    hide Step;
    OneMore(p, s0, KAct(KBody(KStatus)));
    OneMore(p, s1, KAct(KWrite));
  }

  lemma {:induction false} StatusIsTold(p: Setup)
    requires Distinct(p)
    ensures Reached(p, Told(p))
  {
    ValidatorIsReaped(p);
    hide Reached, Advance, OuterEnabled, OuterStep, KeeperEnabled, KeeperStep, CustodianTailStep, CustodianReceives, ReleaseAgrees, SystemStep;
    var s0 := Judged(p);
    var s1 := s0.(c := CustodianTold(p, CLEANING), co := Unsent(StatusOf(p.v, CLEAN), {THello, TReserved, TReady}), kc := Sent([], DONE));
    assert Step(p, s0, CAct(CBody(CHear))) == s1 && Step(p, s1, CAct(CWrite(true))) == Told(p);
    hide Step;
    OneMore(p, s0, CAct(CBody(CHear)));
    OneMore(p, s1, CAct(CWrite(true)));
  }

  const FOUR: set<Tag> := {TConfig, TAdmit, TRun, TCommit}

  function OuterDone(p: Setup, asked: set<Tag>, final: Option<Terminal>): Outer {
    Outer({OGotHello, OClosedStdin, OSawStdout, OSawStderr}, Published, asked, Some(p.k), Some(p.v), Some(CLEAN), final, None)
  }

  function Committed(p: Setup): State {
    State(OuterDone(p, FOUR, None), CustodianTold(p, COMMITTED), KeeperWaited(p), Alive, Alive, Reaped(CLEAN), false,
          Sent([], FOUR), Sent([], UP), Sent([], {TConfig, TRun}), Sent([], DONE))
  }

  function Seen(p: Setup): State {
    State(OuterDone(p, THREE, None), CustodianTold(p, CLEANING), KeeperWaited(p), Alive, Alive, Reaped(CLEAN), false,
          Sent([], THREE), Sent([], UP), Sent([], {TConfig, TRun}), Sent([], DONE))
  }

  lemma {:induction false} OutputIsSeen(p: Setup)
    requires Distinct(p)
    ensures Reached(p, Seen(p))
  {
    StatusIsTold(p);
    hide Reached, Advance, FinalAdmissible, GoodTerminal, CustodianTailStep, CustodianHears, KeeperEnabled, KeeperStep, SystemStep;
    var s0 := Told(p);
    var s1 := s0.(o := OuterReadied(p, Some(CLEAN)), co := Sent([], UP));
    var s2 := s1.(o := Outer({OGotHello, OClosedStdin, OSawStdout}, Published, THREE, Some(p.k), Some(p.v), Some(CLEAN), None, None));
    assert Step(p, s0, OAct(OReceive)) == s1 && Step(p, s1, OAct(OOutputEof(false))) == s2 && Step(p, s2, OAct(OOutputEof(true))) == Seen(p);
    hide Step;
    OneMore(p, s0, OAct(OReceive));
    OneMore(p, s1, OAct(OOutputEof(false)));
    OneMore(p, s2, OAct(OOutputEof(true)));
  }

  lemma {:induction false} CommitIsAsked(p: Setup)
    requires Distinct(p)
    ensures Reached(p, Seen(p).(o := OuterDone(p, FOUR, None), oc := Unsent(Commit, THREE)))
  {
    OutputIsSeen(p);
    hide Reached, Advance, OuterReceives, CustodianEnabled, CustodianStep, KeeperEnabled, KeeperStep, SystemStep, SystemEnabled;
    var s0 := Seen(p);
    assert Step(p, s0, OAct(OAsk(TCommit))) == s0.(o := OuterDone(p, FOUR, None), oc := Unsent(Commit, THREE));
    hide Step;
    OneMore(p, s0, OAct(OAsk(TCommit)));
  }

  lemma {:induction false} CommitIsGiven(p: Setup)
    requires Distinct(p)
    ensures Reached(p, Committed(p))
  {
    CommitIsAsked(p);
    hide Reached, Advance, OuterReceives, CustodianTailEnabled, CustodianTailStep, CustodianHears, KeeperEnabled, KeeperStep, SystemStep, SystemEnabled;
    var s1 := Seen(p).(o := OuterDone(p, FOUR, None), oc := Unsent(Commit, THREE));
    var s2 := s1.(oc := Sent([Commit], FOUR));
    assert Step(p, s1, OAct(OWrite)) == s2 && Step(p, s2, CAct(CBody(CReceive))) == Committed(p);
    hide Step;
    OneMore(p, s1, OAct(OWrite));
    OneMore(p, s2, CAct(CBody(CReceive)));
  }

  // ---------- the group is retired, K released ----------

  /** What C's last steps ask of its latches. */
  lemma CustodianFlags()
    ensures ABSENT == COMMITTED + {CSawAbsent, CGroupRetired, CRoutesRetired} && RETIRED == ABSENT + {CAskedRelease}
    ensures HEARD == RETIRED + {CKeeperShut} && ENDED == HEARD + {CSawEof} && WAITED == ENDED + {CBeganWait}
    ensures CHasGroup in COMMITTED && CIsCleaning in COMMITTED && CIsClosed in COMMITTED && CGotCommit in COMMITTED
    ensures CHasFailed !in WAITED && CIsUnsure !in WAITED && CIsBroken !in WAITED && CIsPoisoned !in WAITED && CParentShut !in WAITED
    ensures CKeeperShut !in RETIRED && CSawEof !in HEARD && CBeganWait !in ENDED && CAskedRelease !in ABSENT
    ensures CRoutesRetired !in COMMITTED && CGroupRetired !in COMMITTED
  {
  }

  const ABSENT: set<CustodianFlag> :=
    {CSentHello, CGotAdmit, CIsClosed, CHasGroup, CForwardedRun, CIsCleaning, CGotCommit, CSawAbsent, CGroupRetired, CRoutesRetired}
  const RETIRED: set<CustodianFlag> :=
    {CSentHello, CGotAdmit, CIsClosed, CHasGroup, CForwardedRun, CIsCleaning, CGotCommit, CSawAbsent, CGroupRetired, CRoutesRetired,
     CAskedRelease}
  const HEARD: set<CustodianFlag> :=
    {CSentHello, CGotAdmit, CIsClosed, CHasGroup, CForwardedRun, CIsCleaning, CGotCommit, CSawAbsent, CGroupRetired, CRoutesRetired,
     CAskedRelease, CKeeperShut}
  const ENDED: set<CustodianFlag> :=
    {CSentHello, CGotAdmit, CIsClosed, CHasGroup, CForwardedRun, CIsCleaning, CGotCommit, CSawAbsent, CGroupRetired, CRoutesRetired,
     CAskedRelease, CKeeperShut, CSawEof}
  const WAITED: set<CustodianFlag> :=
    {CSentHello, CGotAdmit, CIsClosed, CHasGroup, CForwardedRun, CIsCleaning, CGotCommit, CSawAbsent, CGroupRetired, CRoutesRetired,
     CAskedRelease, CKeeperShut, CSawEof, CBeganWait}

  const DOWN: set<Tag> := {TConfig, TRun, TGroupRetired, TRelease}

  function Retiring(p: Setup): State {
    State(OuterDone(p, FOUR, None), CustodianTold(p, RETIRED), KeeperWaited(p), Alive, Alive, Reaped(CLEAN), false,
          Sent([], FOUR), Sent([], UP), Sent([GroupRetired(p.k, true), Release], DOWN), Sent([], DONE))
  }

  function Emptied(p: Setup): State {
    State(OuterDone(p, FOUR, None), CustodianTold(p, RETIRED), KeeperWaited(p), Alive, Alive, Reaped(CLEAN), false,
          Sent([], FOUR), Sent([], UP), Link([GroupRetired(p.k, true), Release], [], {TConfig, TRun}, {TConfig, TRun}), Sent([], DONE))
  }

  lemma {:induction false} AbsenceIsSeen(p: Setup)
    requires Distinct(p)
    ensures Reached(p, Emptied(p))
  {
    CommitIsGiven(p);
    CustodianFlags();
    hide COMMITTED, ABSENT, RETIRED, HEARD, ENDED, WAITED, Reached, Advance, OuterEnabled, OuterStep, CustodianReceives, CustodianHears, KeeperEnabled, KeeperStep, SystemStep, FinalOf;
    var s0 := Committed(p);
    var s1 := s0.(c := CustodianTold(p, ABSENT));
    assert Step(p, s0, CAct(CTail(CProbe(true)))) == s1 && Step(p, s1, CAct(CTail(CRelease))) == Emptied(p);
    hide Step;
    OneMore(p, s0, CAct(CTail(CProbe(true))));
    OneMore(p, s1, CAct(CTail(CRelease)));
  }

  lemma {:induction false} GroupIsRetired(p: Setup)
    requires Distinct(p)
    ensures Reached(p, Retiring(p))
  {
    AbsenceIsSeen(p);
    CustodianFlags();
    hide COMMITTED, ABSENT, RETIRED, HEARD, ENDED, WAITED, Reached, Advance, OuterEnabled, OuterStep, CustodianReceives, CustodianHears, KeeperEnabled, KeeperStep, SystemStep, FinalOf;
    var s0 := Emptied(p);
    var s1 := s0.(ck := Link([Release], [GroupRetired(p.k, true)], {TConfig, TRun, TGroupRetired}, {TConfig, TRun, TGroupRetired}));
    assert Step(p, s0, CAct(CWrite(false))) == s1 && Step(p, s1, CAct(CWrite(false))) == Retiring(p);
    hide Step;
    OneMore(p, s0, CAct(CWrite(false)));
    OneMore(p, s1, CAct(CWrite(false)));
  }

  /** What K's last steps ask of its latches. */
  lemma KeeperFlags()
    ensures FREED == GIVEN + {KGotRelease} && GONE == FREED + {KHasEnded}
    ensures KHasFailed !in GONE && KIsLocal !in GONE && KIsUnsure !in GONE && KIsBroken !in GONE && KIsPoisoned !in GONE && KIsShut !in GONE
    ensures KGotRelease !in GIVEN && KHasEnded !in FREED
    ensures KHasGroup in GIVEN && KHasMoved in GIVEN && KIsClosed in GIVEN && KGotRetirement in GIVEN && KWasAbsent in GIVEN && KIsRetired in GIVEN
  {
  }

  const GIVEN: set<KeeperFlag> := {KHasGroup, KSentHello, KGotRun, KIsClosed, KHasMoved, KSentStatus, KIsRetired, KGotRetirement, KWasAbsent}
  const FREED: set<KeeperFlag> :=
    {KHasGroup, KSentHello, KGotRun, KIsClosed, KHasMoved, KSentStatus, KIsRetired, KGotRetirement, KWasAbsent, KGotRelease}
  const GONE: set<KeeperFlag> :=
    {KHasGroup, KSentHello, KGotRun, KIsClosed, KHasMoved, KSentStatus, KIsRetired, KGotRetirement, KWasAbsent, KGotRelease, KHasEnded}

  function KeeperReleased(p: Setup, flags: set<KeeperFlag>, terminal: Option<Record>): Keeper {
    Keeper(flags, Published, Some(p.command), Some(CLEAN), terminal)
  }

  const LAST: set<Tag> := {THello, TMoved, TStatus, TReleased}

  /** K said its last word and left with exit 0. */
  function Left(p: Setup): State {
    State(OuterDone(p, FOUR, None), CustodianTold(p, RETIRED), KeeperReleased(p, GONE, Some(Waited(p.v, CLEAN))),
          Alive, Zombie(CLEAN), Reaped(CLEAN), false,
          Sent([], FOUR), Sent([], UP), Sent([], DOWN), Sent([Released(Waited(p.v, CLEAN))], LAST))
  }

  function Freed(p: Setup): State {
    State(OuterDone(p, FOUR, None), CustodianTold(p, RETIRED), KeeperReleased(p, GONE, Some(Waited(p.v, CLEAN))), Alive, Alive, Reaped(CLEAN), false,
          Sent([], FOUR), Sent([], UP), Sent([], DOWN), Unsent(Released(Waited(p.v, CLEAN)), DONE))
  }

  function Relieved(p: Setup): State {
    State(OuterDone(p, FOUR, None), CustodianTold(p, RETIRED), KeeperReleased(p, FREED, None), Alive, Alive, Reaped(CLEAN), false,
          Sent([], FOUR), Sent([], UP), Sent([], DOWN), Sent([], DONE))
  }

  lemma {:induction false} ReleaseIsHeard(p: Setup)
    requires Distinct(p)
    ensures Reached(p, Relieved(p))
  {
    GroupIsRetired(p);
    KeeperFlags();
    hide GIVEN, FREED, GONE, Reached, Advance, OuterEnabled, OuterStep, CustodianEnabled, CustodianStep, SystemEnabled, SystemStep, MayFinish, RecordOf, GroupConfirmed, Releasing, GroupEmpty;
    var s0 := Retiring(p);
    var s1 := s0.(k := KeeperReleased(p, GIVEN, None), ck := Sent([Release], DOWN));
    assert Step(p, s0, KAct(KBody(KReceive))) == s1 && Step(p, s1, KAct(KBody(KReceive))) == Relieved(p);
    hide Step;
    OneMore(p, s0, KAct(KBody(KReceive)));
    OneMore(p, s1, KAct(KBody(KReceive)));
  }

  lemma {:induction false} KeeperIsReleased(p: Setup)
    requires Distinct(p)
    ensures Reached(p, Freed(p))
  {
    ReleaseIsHeard(p);
    KeeperFlags();
    hide GIVEN, FREED, GONE, Reached, Advance, OuterEnabled, OuterStep, CustodianEnabled, CustodianStep, SystemStep, KeeperReceives;
    var s0 := Relieved(p);
    assert Step(p, s0, KAct(KBody(KFinish(true)))) == Freed(p);
    hide Step;
    OneMore(p, s0, KAct(KBody(KFinish(true))));
  }

  lemma {:induction false} KeeperLeaves(p: Setup)
    requires Distinct(p)
    ensures Reached(p, Left(p))
  {
    KeeperIsReleased(p);
    KeeperFlags();
    hide GIVEN, FREED, GONE, Reached, Advance, OuterEnabled, OuterStep, CustodianEnabled, CustodianStep, SystemEnabled, SystemStep, KeeperBodyEnabled, KeeperBodyStep;
    var s0 := Freed(p);
    var s1 := s0.(kc := Sent([Released(Waited(p.v, CLEAN))], LAST));
    assert Step(p, s0, KAct(KWrite)) == s1 && Step(p, s1, KAct(KExit(CLEAN))) == Left(p);
    hide Step;
    OneMore(p, s0, KAct(KWrite));
    OneMore(p, s1, KAct(KExit(CLEAN)));
  }

  // ---------- C and O finish ----------

  function CustodianOver(p: Setup, flags: set<CustodianFlag>, wait: Option<Status>, terminal: Option<Terminal>): Custodian {
    Custodian(flags, Published, Some(p.command), Some(p.v), Some(CLEAN), Some(Waited(p.v, CLEAN)), wait, terminal)
  }

  function Reaping(p: Setup): State {
    State(OuterDone(p, FOUR, None), CustodianOver(p, WAITED, Some(CLEAN), None), KeeperReleased(p, GONE, Some(Waited(p.v, CLEAN))),
          Alive, Reaped(CLEAN), Reaped(CLEAN), false, Sent([], FOUR), Sent([], UP), Sent([], DOWN), Sent([], LAST))
  }

  function Heard(p: Setup): State {
    State(OuterDone(p, FOUR, None), CustodianOver(p, ENDED, None, None), KeeperReleased(p, GONE, Some(Waited(p.v, CLEAN))),
          Alive, Zombie(CLEAN), Reaped(CLEAN), false, Sent([], FOUR), Sent([], UP), Sent([], DOWN), Sent([], LAST))
  }

  lemma {:induction false} KeeperIsHeard(p: Setup)
    requires Distinct(p)
    ensures Reached(p, Heard(p))
  {
    KeeperLeaves(p);
    CustodianFlags();
    hide COMMITTED, ABSENT, RETIRED, HEARD, ENDED, WAITED, Reached, Advance, OuterEnabled, OuterStep, CustodianReceives, KeeperEnabled, KeeperStep, SystemStep, FinalOf;
    var s0 := Left(p);
    var s1 := s0.(c := CustodianOver(p, HEARD, None, None), kc := Sent([], LAST));
    assert Step(p, s0, CAct(CBody(CHear))) == s1 && Step(p, s1, CAct(CBody(CKeeperEof))) == Heard(p);
    hide Step;
    OneMore(p, s0, CAct(CBody(CHear)));
    OneMore(p, s1, CAct(CBody(CKeeperEof)));
  }

  lemma {:induction false} KeeperIsReaped(p: Setup)
    requires Distinct(p)
    ensures Reached(p, Reaping(p))
  {
    KeeperIsHeard(p);
    CustodianFlags();
    hide COMMITTED, ABSENT, RETIRED, HEARD, ENDED, WAITED, Reached, Advance, OuterEnabled, OuterStep, CustodianReceives, KeeperEnabled, KeeperStep, SystemStep, FinalOf;
    var s0 := Heard(p);
    var s1 := s0.(c := CustodianOver(p, WAITED, None, None));
    assert Step(p, s0, CAct(CTail(CBeginWait))) == s1 && Step(p, s1, CAct(CTail(CWait))) == Reaping(p);
    hide Step;
    OneMore(p, s0, CAct(CTail(CBeginWait)));
    OneMore(p, s1, CAct(CTail(CWait)));
  }

  function Verdict(p: Setup): Terminal { Terminal(Accepted, true, Waited(p.k, CLEAN), Waited(p.v, CLEAN), Retired(p.k, true)) }

  const ALL: set<Tag> := {THello, TReserved, TReady, TStatus, TFinal}

  /** C reported its verdict and left with exit 0. */
  function Reported(p: Setup): State {
    State(OuterDone(p, FOUR, None), CustodianOver(p, WAITED, Some(CLEAN), Some(Verdict(p))), KeeperReleased(p, GONE, Some(Waited(p.v, CLEAN))),
          Zombie(CLEAN), Reaped(CLEAN), Reaped(CLEAN), false, Sent([], FOUR), Sent([Final(Verdict(p))], ALL), Sent([], DOWN), Sent([], LAST))
  }

  function Judging(p: Setup): State {
    State(OuterDone(p, FOUR, None), CustodianOver(p, WAITED, Some(CLEAN), Some(Verdict(p))), KeeperReleased(p, GONE, Some(Waited(p.v, CLEAN))),
          Alive, Reaped(CLEAN), Reaped(CLEAN), false, Sent([], FOUR), Unsent(Final(Verdict(p)), UP), Sent([], DOWN), Sent([], LAST))
  }

  lemma {:induction false} VerdictIsReached(p: Setup)
    requires Distinct(p)
    ensures Reached(p, Judging(p))
  {
    KeeperIsReaped(p);
    CustodianFlags();
    hide COMMITTED, ABSENT, RETIRED, HEARD, ENDED, WAITED, Reached, Advance, OuterEnabled, OuterStep, CustodianReceives, CustodianHears, KeeperEnabled, KeeperStep, SystemStep;
    var s0 := Reaping(p);
    assert Step(p, s0, CAct(CTail(CFinish(true)))) == Judging(p);
    hide Step;
    OneMore(p, s0, CAct(CTail(CFinish(true))));
  }

  lemma {:induction false} VerdictIsReported(p: Setup)
    requires Distinct(p)
    ensures Reached(p, Reported(p))
  {
    VerdictIsReached(p);
    CustodianFlags();
    hide COMMITTED, ABSENT, RETIRED, HEARD, ENDED, WAITED, Reached, Advance, OuterEnabled, OuterStep, CustodianBodyEnabled, CustodianBodyStep, CustodianTailEnabled, CustodianTailStep, KeeperEnabled,
         KeeperStep, SystemStep;
    var s0 := Judging(p);
    var s1 := s0.(co := Sent([Final(Verdict(p))], ALL));
    assert Step(p, s0, CAct(CWrite(true))) == s1 && Step(p, s1, CAct(CExit(CLEAN))) == Reported(p);
    hide Step;
    OneMore(p, s0, CAct(CWrite(true)));
    OneMore(p, s1, CAct(CExit(CLEAN)));
  }

  function OuterOver(p: Setup, wait: Option<Status>): Outer {
    Outer({OGotHello, OClosedStdin, OSawStdout, OSawStderr, OSawEof, ODecodedEof}, Published, FOUR, Some(p.k), Some(p.v), Some(CLEAN),
          Some(Verdict(p)), wait)
  }

  function Finished(p: Setup): State {
    State(OuterOver(p, Some(CLEAN)), CustodianOver(p, WAITED, Some(CLEAN), Some(Verdict(p))),
          KeeperReleased(p, GONE, Some(Waited(p.v, CLEAN))), Reaped(CLEAN), Reaped(CLEAN), Reaped(CLEAN), false,
          Sent([], FOUR), Sent([], ALL), Sent([], DOWN), Sent([], LAST))
  }

  lemma {:induction false} VerdictIsHeard(p: Setup)
    requires Distinct(p)
    ensures Reached(p, Reported(p).(o := OuterDone(p, FOUR, Some(Verdict(p))), co := Sent([], ALL)))
  {
    VerdictIsReported(p);
    hide Reached, Advance, CustodianEnabled, CustodianStep, KeeperEnabled, KeeperStep, SystemEnabled, SystemStep;
    var s0 := Reported(p);
    assert Step(p, s0, OAct(OReceive)) == s0.(o := OuterDone(p, FOUR, Some(Verdict(p))), co := Sent([], ALL));
    hide Step;
    OneMore(p, s0, OAct(OReceive));
  }

  lemma {:induction false} CaptureIsFinished(p: Setup)
    requires Distinct(p)
    ensures Reached(p, Finished(p))
  {
    VerdictIsHeard(p);
    hide Reached, Advance, OuterReceives, CustodianEnabled, CustodianStep, KeeperEnabled, KeeperStep, SystemEnabled, SystemStep;
    var s1 := Reported(p).(o := OuterDone(p, FOUR, Some(Verdict(p))), co := Sent([], ALL));
    var s2 := s1.(o := OuterOver(p, None));
    assert Step(p, s1, OAct(OEof)) == s2 && Step(p, s2, OAct(OWait)) == Finished(p);
    hide Step;
    OneMore(p, s1, OAct(OEof));
    OneMore(p, s2, OAct(OWait));
  }

  /** Authorisation is not empty: with any four distinct process numbers a run of O, C, K and V ends in an authorised upload. */
  lemma AnUploadIsAuthorised(p: Setup) returns (actions: seq<Action>)
    requires Distinct(p)
    ensures Authorised(Advance(p, Initial, actions))
  {
    CaptureIsFinished(p);
    hide Advance;
    actions :| Advance(p, Initial, actions) == Finished(p);
  }
}
