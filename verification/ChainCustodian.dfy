/**
 Every step of C keeps the invariant of the chain.
 */
module ChainCustodians {
  import opened Bytes
  import opened Manifests
  import opened Records
  import opened Decoders
  import opened Chunker
  import opened Chains
  import opened ChainInvariants
  import opened ChainLinks

  ghost predicate CLocal(k: Setup, c: Custodian) {
    CGrants(k, c) && CCleanup(c) && CResult(k, c)
  }

  lemma SendLocal(k: Setup, s: State, x: CustodianSend)
    requires CustodianSendEnabled(k, s, x) && CLocal(k, s.c)
    ensures var s' := CustodianSendStep(k, s, x); CLocal(k, s'.c) && CGrows(s.c, s'.c)
  {
    hide CustodianReceives, CustodianHears, GoodSettlement, AllRelayed;
  }

  lemma MoveGrants(k: Setup, s: State, x: CustodianMove)
    requires CustodianMoveEnabled(k, s, x) && CLocal(k, s.c)
    ensures var s' := CustodianMoveStep(k, s, x); CGrants(k, s'.c) && CGrows(s.c, s'.c)
  {
    hide CustodianReceives, CustodianHears, GoodSettlement, AllRelayed, CCleanup, CResult;
  }

  lemma MoveCleanup(k: Setup, s: State, x: CustodianMove)
    requires CustodianMoveEnabled(k, s, x) && CLocal(k, s.c)
    ensures var s' := CustodianMoveStep(k, s, x); CCleanup(s'.c)
  {
    hide CustodianReceives, CustodianHears, GoodSettlement, AllRelayed, CResult;
  }

  lemma MoveResult(k: Setup, s: State, x: CustodianMove)
    requires CustodianMoveEnabled(k, s, x) && CLocal(k, s.c)
    ensures var s' := CustodianMoveStep(k, s, x); CResult(k, s'.c)
  {
    hide CustodianReceives, CustodianHears, GoodSettlement, AllRelayed;
  }

  lemma WatchGrants(k: Setup, s: State, x: CustodianWatch)
    requires CustodianWatchEnabled(k, s, x) && CLocal(k, s.c)
    ensures var s' := CustodianWatchStep(k, s, x); CGrants(k, s'.c) && CGrows(s.c, s'.c)
  {
    hide CustodianReceives, CustodianHears, GoodSettlement, AllRelayed, CCleanup, CResult;
  }

  lemma WatchCleanup(k: Setup, s: State, x: CustodianWatch)
    requires CustodianWatchEnabled(k, s, x) && CLocal(k, s.c)
    ensures var s' := CustodianWatchStep(k, s, x); CCleanup(s'.c)
  {
    hide CustodianReceives, CustodianHears, GoodSettlement, AllRelayed, CResult, CGrants;
  }

  lemma WatchResult(k: Setup, s: State, x: CustodianWatch)
    requires CustodianWatchEnabled(k, s, x) && CLocal(k, s.c)
    ensures var s' := CustodianWatchStep(k, s, x); CResult(k, s'.c)
  {
    hide CustodianReceives, CustodianHears, GoodSettlement, AllRelayed;
  }

  lemma CleanGrants(k: Setup, s: State, x: CustodianClean)
    requires CustodianCleanEnabled(k, s, x) && CLocal(k, s.c)
    ensures var s' := CustodianCleanStep(k, s, x); CGrants(k, s'.c) && CGrows(s.c, s'.c)
  {
    hide CustodianReceives, CustodianHears, GoodSettlement, AllRelayed, CCleanup, CResult;
  }

  lemma CleanCleanup(k: Setup, s: State, x: CustodianClean)
    requires CustodianCleanEnabled(k, s, x) && CLocal(k, s.c)
    ensures var s' := CustodianCleanStep(k, s, x); CCleanup(s'.c)
  {
    hide CustodianReceives, CustodianHears, GoodSettlement, AllRelayed, CResult;
  }

  lemma CleanResult(k: Setup, s: State, x: CustodianClean)
    requires CustodianCleanEnabled(k, s, x) && CLocal(k, s.c)
    ensures var s' := CustodianCleanStep(k, s, x); CResult(k, s'.c)
  {
    hide CustodianReceives, CustodianHears, GoodSettlement, AllRelayed;
  }

  /** C's last steps change neither its phase nor its creation, and set no flag that a grant depends on. */
  ghost predicate Quiet(c: Custodian, c': Custodian) {
    && c' == c.(flags := c'.flags) && c.flags <= c'.flags
    && c'.flags <= c.flags + {CHasSettled, CIsProducer, CSentSeal, CTriedPublish, CHasFence, CHasFailed, CSentFinal, CIsFinished, CRetiredRoutes}
  }

  lemma EndQuiet(k: Setup, s: State, x: CustodianEnd)
    requires CustodianEndEnabled(k, s, x)
    ensures Quiet(s.c, CustodianEndStep(k, s, x).c)
  {
    hide Verdict, FinalFrame, ProducerSettled;
  }

  lemma EndCloses(k: Setup, s: State, x: CustodianEnd)
    requires CustodianEndEnabled(k, s, x) && CCleanup(s.c) && !x.CExit?
    ensures s.c.Is(CIsClosing)
  {
  }

  lemma QuietGrants(k: Setup, c: Custodian, c': Custodian)
    requires CGrants(k, c) && Quiet(c, c') && c.Is(CIsClosing)
    ensures CGrants(k, c') && CGrows(c, c')
  {
    hide CRank;
  }

  lemma EndGrants(k: Setup, s: State, x: CustodianEnd)
    requires CustodianEndEnabled(k, s, x) && CLocal(k, s.c)
    ensures var s' := CustodianEndStep(k, s, x); CGrants(k, s'.c) && CGrows(s.c, s'.c)
  {
    hide CGrants, CCleanup, CResult;
    if !x.CExit? {
      EndQuiet(k, s, x);
      EndCloses(k, s, x);
      hide CGrows, CustodianEndStep, CustodianEndEnabled;
      QuietGrants(k, s.c, CustodianEndStep(k, s, x).c);
    } else {
      hide Verdict, FinalFrame;
    }
  }

  lemma EndCleanup(k: Setup, s: State, x: CustodianEnd)
    requires CustodianEndEnabled(k, s, x) && CLocal(k, s.c)
    ensures var s' := CustodianEndStep(k, s, x); CCleanup(s'.c)
  {
    hide CustodianReceives, CustodianHears, GoodSettlement, AllRelayed, CResult, Verdict, FinalFrame;
  }

  lemma EndResult(k: Setup, s: State, x: CustodianEnd)
    requires CustodianEndEnabled(k, s, x) && CLocal(k, s.c)
    ensures var s' := CustodianEndStep(k, s, x); CResult(k, s'.c)
  {
    hide CustodianReceives, CustodianHears, GoodSettlement, AllRelayed;
  }

  lemma SourceGranted(k: Setup, c: Custodian, stderr: bool, size: nat)
    requires CGrants(k, c) && CCleanup(c)
    ensures var c' := Keeping(k.manifest.limit, c, stderr, size); CGrants(k, c') && CCleanup(c') && CGrows(c, c')
  {
    hide Kept, CRank;
  }

  lemma SourceResult(k: Setup, c: Custodian, stderr: bool, size: nat)
    requires CResult(k, c) && k.manifest.capture && CCleanup(c) && !c.Is(CHasSettled)
    ensures CResult(k, Keeping(k.manifest.limit, c, stderr, size))
  {
    hide GoodSettlement;
  }

  lemma SourceLocal(k: Setup, c: Custodian, stderr: bool, size: nat)
    requires CLocal(k, c) && k.manifest.capture && !c.Is(CHasSettled)
    ensures var c' := Keeping(k.manifest.limit, c, stderr, size); CLocal(k, c') && CGrows(c, c')
  {
    hide CGrants, CCleanup, CResult, CGrows, Keeping;
    SourceGranted(k, c, stderr, size);
    SourceResult(k, c, stderr, size);
  }

  lemma ReceivesGranted(k: Setup, c: Custodian, m: Message)
    requires CGrants(k, c) && CustodianReceives(k, c, m).Some? && !c.Is(CIsClosing)
    ensures var c' := CustodianReceives(k, c, m).value; CGrants(k, c') && CGrows(c, c')
  {
  }

  lemma ReceivesClean(k: Setup, c: Custodian, m: Message)
    requires CCleanup(c) && CResult(k, c) && CustodianReceives(k, c, m).Some?
    ensures var c' := CustodianReceives(k, c, m).value; CCleanup(c') && CResult(k, c')
  {
    hide GoodSettlement, CRank;
  }

  lemma ReceivesLocal(k: Setup, c: Custodian, m: Message)
    requires CLocal(k, c) && CustodianReceives(k, c, m).Some? && !c.Is(CIsClosing)
    ensures var c' := CustodianReceives(k, c, m).value; CLocal(k, c') && CGrows(c, c')
  {
    hide CGrants, CCleanup, CResult, CGrows, CustodianReceives;
    ReceivesGranted(k, c, m);
    ReceivesClean(k, c, m);
  }

  lemma HearsGranted(k: Setup, c: Custodian, m: Message)
    requires CGrants(k, c) && CustodianHears(c, m).Some?
    ensures var c' := CustodianHears(c, m).value; CGrants(k, c') && CGrows(c, c')
  {
    hide GoodSettlement;
  }

  lemma HearsClean(c: Custodian, m: Message)
    requires CCleanup(c) && CustodianHears(c, m).Some?
    ensures CCleanup(CustodianHears(c, m).value)
  {
    hide GoodSettlement, CRank;
  }

  lemma HearsResult(k: Setup, c: Custodian, m: Message)
    requires CResult(k, c) && CustodianHears(c, m).Some? && !c.Is(CIsShut)
    ensures CResult(k, CustodianHears(c, m).value)
  {
    hide GoodSettlement, CRank;
  }

  lemma HearsLocal(k: Setup, c: Custodian, m: Message)
    requires CLocal(k, c) && CustodianHears(c, m).Some? && !c.Is(CIsShut)
    ensures var c' := CustodianHears(c, m).value; CLocal(k, c') && CGrows(c, c')
  {
    hide CGrants, CCleanup, CResult, CGrows, CustodianHears;
    HearsGranted(k, c, m);
    HearsClean(c, m);
    HearsResult(k, c, m);
  }

  lemma CustodianLocal(k: Setup, s: State, act: CustodianAction)
    requires CustodianEnabled(k, s, act) && CLocal(k, s.c)
    ensures var s' := CustodianStep(k, s, act); CLocal(k, s'.c) && CGrows(s.c, s'.c)
  {
    hide CustodianReceives, CustodianHears, Keeping, CLocal, CGrants, CCleanup, CResult, CGrows;
    hide CustodianSendStep, CustodianMoveStep, CustodianWatchStep, CustodianCleanStep, CustodianEndStep;
    match act
    case CSend(x) => SendLocal(k, s, x);
    case CMove(x) => MoveGrants(k, s, x); MoveCleanup(k, s, x); MoveResult(k, s, x); Together(k, CustodianMoveStep(k, s, x).c);
    case CWatch(x) => WatchGrants(k, s, x); WatchCleanup(k, s, x); WatchResult(k, s, x); Together(k, CustodianWatchStep(k, s, x).c);
    case CClean(x) => CleanGrants(k, s, x); CleanCleanup(k, s, x); CleanResult(k, s, x); Together(k, CustodianCleanStep(k, s, x).c);
    case CEnd(x) => EndGrants(k, s, x); EndCleanup(k, s, x); EndResult(k, s, x); Together(k, CustodianEndStep(k, s, x).c);
    case CSource(stderr, size) => SourceLocal(k, s.c, stderr, size);
    case CReceive =>
      if CustodianReceives(k, s.c, s.oc[0]).Some? { ReceivesLocal(k, s.c, s.oc[0]); } else { FailingLocal(k, s.c, {}); }
    case CHear =>
      if CustodianHears(s.c, s.ac[0]).Some? { HearsLocal(k, s.c, s.ac[0]); } else { FailingLocal(k, s.c, {CIsBroken}); }
  }

  lemma Together(k: Setup, c: Custodian)
    requires CGrants(k, c) && CCleanup(c) && CResult(k, c)
    ensures CLocal(k, c)
  {
  }

  lemma FailingGranted(k: Setup, c: Custodian, more: set<CustodianFlag>)
    requires CGrants(k, c) && CCleanup(c) && (more == {} || more == {CIsBroken})
    ensures var c' := CFailing(c).Set(more); CGrants(k, c') && CCleanup(c') && CGrows(c, c')
    ensures CFailing(c).Set({}) == CFailing(c)
  {
    hide CRank;
  }

  lemma FailingResult(k: Setup, c: Custodian, more: set<CustodianFlag>)
    requires CResult(k, c) && (more == {} || (more == {CIsBroken} && !c.Is(CIsShut)))
    ensures CResult(k, CFailing(c).Set(more))
  {
    hide GoodSettlement;
  }

  lemma FailingLocal(k: Setup, c: Custodian, more: set<CustodianFlag>)
    requires CLocal(k, c) && (more == {} || (more == {CIsBroken} && !c.Is(CIsShut)))
    ensures CLocal(k, CFailing(c).Set(more)) && CGrows(c, CFailing(c).Set(more)) && CFailing(c).Set({}) == CFailing(c)
  {
    FailingGranted(k, c, more);
    FailingResult(k, c, more);
    hide CGrants, CCleanup, CResult, CGrows, CFailing;
  }

  // ---------- what C does to the rest of the world ----------

  ghost predicate OnlyC(s: State, s': State) {
    s' == s.(c := s'.c, oc := s'.oc, co := s'.co, ca := s'.ca, ac := s'.ac, cp := s'.cp, ap := s'.ap)
  }

  /** Without a frame from A or from O, C learns nothing new and gains no grant. */
  ghost predicate SameNews(c: Custodian, c': Custodian) {
    && c'.work == c.work && c'.Is(CGotReady) == c.Is(CGotReady) && c'.got == c.got
    && (CRank(c'.phase) >= 2 ==> CRank(c.phase) >= 2) && (CRank(c'.phase) >= 8 ==> CRank(c.phase) >= 8)
    && (CRank(c'.phase) >= 13 ==> CRank(c.phase) >= 13)
    && (CRank(c'.phase) >= 12 ==> CRank(c.phase) >= 12 || c.Is(CGotReady))
  }

  ghost predicate Takes(k: Setup, s: State, s': State) {
    if s'.oc != s.oc then
      s.oc != [] && s'.oc == s.oc[1..] && CustodianReceives(k, s.c, s.oc[0]) == Some(s'.c) && s'.ac == s.ac && s'.ca == s.ca && s'.co == s.co
    else if s'.ac != s.ac then
      s.ac != [] && s'.ac == s.ac[1..] && CustodianHears(s.c, s.ac[0]) == Some(s'.c) && s'.ca == s.ca && s'.co == s.co
    else SameNews(s.c, s'.c)
  }

  /** A frame sent to A, with the relayed chunk if it is one. */
  ghost predicate Relayed(c: Custodian, c': Custodian, m: Message) {
    if m.Data? then c.forwarded < |c.got| && m.bytes == c.got[c.forwarded] && c'.forwarded == c.forwarded + 1
    else c'.forwarded == c.forwarded
  }

  /** A frame sent to O is true, and a claim of settled producers follows the seal. */
  ghost predicate Reported(k: Setup, s: State, c': Custodian, m: Message) {
    && JustCO(k, s.o, c', s.a, m)
    && (m.Final? && m.terminal.producer ==> s.c.Is(CSentSeal))
    && (c'.Is(CSentSeal) ==> s.c.Is(CSentSeal) || m.Sealed?)
  }

  ghost predicate Puts(k: Setup, s: State, s': State) {
    && Pushed(s.ca, s'.ca)
    && (if s'.ca == s.ca then s'.c.forwarded == s.c.forwarded
        else JustCA(s'.c, s'.ca[|s.ca|]) && Relayed(s.c, s'.c, s'.ca[|s.ca|]))
    && Pushed(s.co, s'.co)
    && (if s'.co == s.co then s'.c.Is(CSentSeal) == s.c.Is(CSentSeal) else Reported(k, s, s'.c, s'.co[|s.co|]))
  }

  ghost predicate Touches(s: State, s': State) {
    && (s'.c.spawn.NotTried? ==> s.c.spawn.NotTried?) && (s'.c.spawn.Published? ==> s.c.spawn.Published? || !s.ap.Unborn?)
    && (s'.c.Is(CSawAbsent) ==> s.c.Is(CSawAbsent) || GroupEmpty(s))
    && s.cp.Alive?
    && (s'.cp == s.cp || (s'.cp.Zombie? && (s'.cp.receipt == Exit(HELPER_OK) || s'.cp.receipt == Exit(HELPER_FAILED) ==>
                                              s'.c.Is(CSentFinal) && s'.c.Is(CIsProducer))))
    && (if s'.ap == s.ap then s'.c.wait == s.c.wait
        else s.ap.Zombie? && s'.ap == Reaped(s.ap.receipt) && s.c.wait == None && s'.c.wait == Some(s.ap.receipt))
  }

  ghost predicate CustodianEffect(k: Setup, s: State, s': State) {
    OnlyC(s, s') && Takes(k, s, s') && Puts(k, s, s') && Touches(s, s')
  }

  lemma SendTakes(k: Setup, s: State, x: CustodianSend)
    requires CustodianSendEnabled(k, s, x)
    ensures OnlyC(s, CustodianSendStep(k, s, x)) && Takes(k, s, CustodianSendStep(k, s, x))
  {
    hide CustodianReceives, CustodianHears;
  }

  lemma SendPuts(k: Setup, s: State, x: CustodianSend)
    requires CustodianSendEnabled(k, s, x) && CGrants(k, s.c) && CrossCA(s.c, s.a)
    ensures Puts(k, s, CustodianSendStep(k, s, x))
  {
    hide FrameEarned;
  }

  lemma SendTouches(k: Setup, s: State, x: CustodianSend)
    requires CustodianSendEnabled(k, s, x) && s.cp.Alive?
    ensures Touches(s, CustodianSendStep(k, s, x))
  {
    hide GroupEmpty;
  }

  lemma SendEffect(k: Setup, s: State, x: CustodianSend)
    requires CustodianSendEnabled(k, s, x) && CLocal(k, s.c) && CrossCA(s.c, s.a) && s.cp.Alive?
    ensures CustodianEffect(k, s, CustodianSendStep(k, s, x))
  {
    hide CGrants, CCleanup, CResult, CrossCA, OnlyC, Takes, Puts, Touches, CustodianSendStep, CustodianSendEnabled;
    SendTakes(k, s, x);
    SendPuts(k, s, x);
    SendTouches(k, s, x);
  }

  lemma MoveEffect(k: Setup, s: State, x: CustodianMove)
    requires CustodianMoveEnabled(k, s, x) && CLocal(k, s.c) && s.cp.Alive?
    ensures CustodianEffect(k, s, CustodianMoveStep(k, s, x))
  {
    hide CCleanup, CResult, GoodSettlement, AllRelayed, CustodianReceives, CustodianHears, FrameEarned;
  }

  lemma WatchEffect(k: Setup, s: State, x: CustodianWatch)
    requires CustodianWatchEnabled(k, s, x) && s.cp.Alive?
    ensures CustodianEffect(k, s, CustodianWatchStep(k, s, x))
  {
    hide GoodSettlement, CustodianReceives, CustodianHears, FrameEarned;
  }

  lemma CleanEffect(k: Setup, s: State, x: CustodianClean)
    requires CustodianCleanEnabled(k, s, x) && s.cp.Alive?
    ensures CustodianEffect(k, s, CustodianCleanStep(k, s, x))
  {
    hide GoodSettlement, CustodianReceives, CustodianHears, FrameEarned, GroupEmpty;
  }

  lemma EndEffect(k: Setup, s: State, x: CustodianEnd)
    requires CustodianEndEnabled(k, s, x) && CLocal(k, s.c) && s.cp.Alive?
    requires x.CFinal? ==> FrameEarned(k, s.o, s.c, FinalFrame(s.c, x.relay))
    ensures CustodianEffect(k, s, CustodianEndStep(k, s, x))
  {
    EndMoves(k, s, x);
    EndReports(k, s, x);
    hide CCleanup, CGrants, CResult, OnlyC, Takes, Puts, Touches, CustodianEndStep, CustodianEndEnabled, FrameEarned;
  }

  lemma EndMoves(k: Setup, s: State, x: CustodianEnd)
    requires CustodianEndEnabled(k, s, x) && s.cp.Alive?
    ensures var s' := CustodianEndStep(k, s, x); OnlyC(s, s') && Takes(k, s, s') && Touches(s, s')
  {
    hide CustodianReceives, CustodianHears, FinalFrame, Verdict, ProducerSettled, GroupEmpty;
  }

  lemma EndReports(k: Setup, s: State, x: CustodianEnd)
    requires CustodianEndEnabled(k, s, x) && CCleanup(s.c) && CResult(k, s.c)
    requires x.CFinal? ==> FrameEarned(k, s.o, s.c, FinalFrame(s.c, x.relay))
    ensures Puts(k, s, CustodianEndStep(k, s, x))
  {
    hide CResult, CCleanup, GoodSettlement, FrameSound, FinalFrame, Verdict, ProducerSettled;
    assert x.CFinal? ==> FinalFrame(s.c, x.relay).producer == s.c.Is(CIsProducer) by { FinalProducer(s.c, x); }
  }

  lemma FinalProducer(c: Custodian, x: CustodianEnd)
    ensures x.CFinal? ==> FinalFrame(c, x.relay).producer == c.Is(CIsProducer)
  {
  }

  lemma SourceEffect(k: Setup, s: State, stderr: bool, size: nat)
    requires s.cp.Alive?
    ensures CustodianEffect(k, s, s.(c := Keeping(k.manifest.limit, s.c, stderr, size)))
  {
    hide GoodSettlement, CustodianReceives, CustodianHears, FrameEarned, Kept;
  }

  lemma ReceivesFrame(k: Setup, c: Custodian, m: Message)
    requires CustodianReceives(k, c, m).Some?
    ensures var c' := CustodianReceives(k, c, m).value;
            && c'.forwarded == c.forwarded && c'.wait == c.wait && c'.spawn == c.spawn && c'.work == c.work
            && c'.Is(CSentSeal) == c.Is(CSentSeal) && c'.Is(CSawAbsent) == c.Is(CSawAbsent) && c'.Is(CGotReady) == c.Is(CGotReady)
            && c'.got == c.got + (if m.Data? then [m.bytes] else [])
  {
  }

  lemma HearsFrame(c: Custodian, m: Message)
    requires CustodianHears(c, m).Some?
    ensures var c' := CustodianHears(c, m).value;
            && c'.forwarded == c.forwarded && c'.wait == c.wait && c'.spawn == c.spawn && c'.got == c.got
            && c'.Is(CSentSeal) == c.Is(CSentSeal) && c'.Is(CSawAbsent) == c.Is(CSawAbsent)
            && (c'.Is(CGotReady) <==> c.Is(CGotReady) || m.Ready?)
            && (c'.work == c.work || (m.WorkDone? && c.work.None? && c'.work == Some(m.settlement)))
  {
    hide GoodSettlement;
  }

  lemma TakeEffect(k: Setup, s: State, act: CustodianAction)
    requires CustodianEnabled(k, s, act) && (act.CReceive? || act.CHear?)
    ensures CustodianEffect(k, s, CustodianStep(k, s, act))
  {
    hide CustodianReceives, CustodianHears, GroupEmpty, FrameEarned;
    if act.CReceive? {
      if CustodianReceives(k, s.c, s.oc[0]).Some? { ReceivesFrame(k, s.c, s.oc[0]); }
    } else {
      if CustodianHears(s.c, s.ac[0]).Some? { HearsFrame(s.c, s.ac[0]); }
    }
  }

  // ---------- the final frame ----------

  /** What C knows about the settlement it holds once its producers are settled. */
  lemma SettledWork(k: Setup, c: Custodian, a: Anchor)
    requires CLocal(k, c) && ALocal(a) && AReport(a) && CrossCA(c, a) && c.Is(CIsProducer)
    ensures c.work.Some? && GoodSettlement(c.work.value) && c.work.value.producer
    ensures c.work.value.run ==> c.Is(CTriedRun)
    ensures c.Is(CTriedRun) ==> !c.work.value.noChild
    ensures k.journalled ==> c.Is(CHasWriter) && c.Is(CWriterReady)
    ensures !c.Is(CHasFailed) ==> c.Is(CTriedRun)
  {
    hide GoodSettlement;
  }

  lemma FinalSound(k: Setup, c: Custodian, relay: bool)
    requires CGrants(k, c) && CResult(k, c)
    requires c.Is(CIsProducer) ==>
               && c.work.Some? && GoodSettlement(c.work.value) && c.work.value.producer
               && (c.work.value.run ==> c.Is(CTriedRun)) && (c.Is(CTriedRun) ==> !c.work.value.noChild)
               && (k.journalled ==> c.Is(CHasWriter) && (!c.Is(CHasFailed) ==> c.Is(CHasFence)))
               && (!c.Is(CHasFailed) ==> c.Is(CTriedRun))
    ensures FrameSound(k, FinalFrame(c, relay))
  {
    hide ProducerFacts;
    if c.work.Some? { assert GoodSettlement(c.work.value); }
  }

  lemma FinalEarned(k: Setup, s: State, relay: bool)
    requires CLocal(k, s.c) && ALocal(s.a) && AReport(s.a) && CrossCA(s.c, s.a) && CrossOC(s.o, s.c)
    requires CustodianEndEnabled(k, s, CFinal(relay))
    ensures FrameEarned(k, s.o, s.c, FinalFrame(s.c, relay))
  {
    if s.c.Is(CIsProducer) { SettledWork(k, s.c, s.a); }
    hide GoodSettlement, CCleanup, ALocal, AReport, CrossCA, FrameSound, NoTargetOf, Verdict;
    FinalSound(k, s.c, relay);
  }

  lemma CustodianEffects(k: Setup, s: State, act: CustodianAction)
    requires Honest(k) && CustodianEnabled(k, s, act) && Locals(k, s) && Crosses(k, s)
    ensures CustodianEffect(k, s, CustodianStep(k, s, act))
  {
    hide CustodianReceives, CustodianHears, Keeping, CustodianEffect, CrossOC, CrossCA, CrossAW, CrossOA, CrossFinal;
    hide OLocal, CGrants, CCleanup, CResult, ALocal, AReport, WLocal, FrameEarned;
    hide CustodianSendEnabled, CustodianMoveEnabled, CustodianWatchEnabled, CustodianCleanEnabled, CustodianEndEnabled;
    hide CustodianSendStep, CustodianMoveStep, CustodianWatchStep, CustodianCleanStep, CustodianEndStep;
    match act
    case CSend(x) => SendEffect(k, s, x);
    case CMove(x) => MoveEffect(k, s, x);
    case CWatch(x) => WatchEffect(k, s, x);
    case CClean(x) => CleanEffect(k, s, x);
    case CEnd(x) =>
      if x.CFinal? { FinalEarned(k, s, x.relay); }
      EndEffect(k, s, x);
    case CSource(stderr, size) => SourceEffect(k, s, stderr, size);
    case CReceive => TakeEffect(k, s, act);
    case CHear => TakeEffect(k, s, act);
  }

  // ---------- the invariant ----------

  lemma ReceivesGrants(k: Setup, o: Outer, c: Custodian, m: Message)
    requires CrossOC(o, c) && JustOC(o, m) && CustodianReceives(k, c, m).Some?
    ensures CrossOC(o, CustodianReceives(k, c, m).value)
    ensures var c' := CustodianReceives(k, c, m).value;
            (CRank(c'.phase) >= 12 ==> CRank(c.phase) >= 12)
  {
  }

  lemma HearsRank(c: Custodian, m: Message)
    requires CustodianHears(c, m).Some?
    ensures var c' := CustodianHears(c, m).value;
            CRank(c'.phase) == CRank(c.phase) || (CRank(c.phase) == 4 && CRank(c'.phase) == 5)
  {
    hide GoodSettlement;
  }

  lemma CustodianCrosses(k: Setup, s: State, s': State)
    requires Honest(k) && CustodianEffect(k, s, s') && CGrows(s.c, s'.c) && Crosses(k, s) && Links(k, s)
    ensures Crosses(k, s')
  {
    hide Honest, CustodianReceives, CustodianHears, FrameSound, Puts, Touches, CrossAW, SealFirst, Seals, CRank, ARank, ORank;
    hide LinkCA, LinkAW, LinkWA, LinkCO, Order;
    if s'.oc != s.oc {
      assert s.oc[0] in s.oc;
      ReceivesGrants(k, s.o, s.c, s.oc[0]);
      ReceivesFrame(k, s.c, s.oc[0]);
    } else if s'.ac != s.ac {
      assert s.ac[0] in s.ac;
      HearsFrame(s.c, s.ac[0]);
      HearsRank(s.c, s.ac[0]);
    }
  }

  lemma CustodianLinks(k: Setup, s: State, s': State)
    requires Honest(k) && CustodianEffect(k, s, s') && CGrows(s.c, s'.c) && Links(k, s)
    ensures Links(k, s')
  {
    hide Honest, CustodianReceives, CustodianHears, FrameSound, Touches, SameNews, SealFirst, Seals, Relayed;
    hide LinkAW, LinkWA, JustOC, JustAC;
    forall m | m in s'.ca ensures JustCA(s'.c, m) {
      if m in s.ca { assert JustCA(s.c, m); }
    }
    forall m | m in s'.co ensures JustCO(k, s'.o, s'.c, s'.a, m) {
      if m in s.co { assert JustCO(k, s.o, s.c, s.a, m); }
    }
    assert forall m :: m in s'.oc ==> m in s.oc;
    assert forall m :: m in s'.ac ==> m in s.ac;
    if s'.co != s.co {
      var m := s'.co[|s.co|];
      SealFirstPlus(s.co, s.o.Is(OGotSeal), m);
      SealsPlus(s.co, m);
    }
  }

  lemma CustodianFlows(k: Setup, s: State, s': State)
    requires Honest(k) && CustodianEffect(k, s, s') && Flows(k, s)
    ensures Flows(k, s')
  {
    hide Honest, Cargo, FlowAW, CustodianReceives, CustodianHears, DataOf, Touches, Reported, JustCA;
    if s'.oc != s.oc {
      ReceivesFrame(k, s.c, s.oc[0]);
      DataFirst(s.oc);
      assert s'.c.got[..s.c.forwarded] == s.c.got[..s.c.forwarded];
    } else if s'.ac != s.ac {
      HearsFrame(s.c, s.ac[0]);
    }
    if s'.ca != s.ca {
      var m := s'.ca[|s.ca|];
      DataPlus(s.ca, m);
      if m.Data? { assert s.c.got[..s.c.forwarded + 1] == s.c.got[..s.c.forwarded] + [m.bytes]; }
    }
  }

  lemma CustodianProcesses(k: Setup, s: State, s': State)
    requires Honest(k) && CustodianEffect(k, s, s') && Processes(s)
    ensures Processes(s')
  {
    hide Honest, CustodianReceives, CustodianHears, Puts, SameNews;
    if s'.oc != s.oc {
      ReceivesFrame(k, s.c, s.oc[0]);
    } else if s'.ac != s.ac {
      HearsFrame(s.c, s.ac[0]);
    }
  }

  lemma CustodianKeeps(k: Setup, s: State, act: CustodianAction)
    requires Honest(k) && CustodianEnabled(k, s, act) && Inv(k, s)
    ensures Inv(k, CustodianStep(k, s, act))
  {
    CustodianLocal(k, s, act);
    CustodianEffects(k, s, act);
    var s' := CustodianStep(k, s, act);
    hide Honest, OLocal, CGrants, CCleanup, CResult, ALocal, AReport, WLocal, CustodianStep, CustodianEnabled, CGrows;
    hide Crosses, Links, Flows, Processes, Takes, Puts, Touches;
    CustodianCrosses(k, s, s');
    CustodianLinks(k, s, s');
    CustodianFlows(k, s, s');
    CustodianProcesses(k, s, s');
  }
}
