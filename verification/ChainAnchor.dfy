/**
 Every step of A keeps the invariant of the chain.
 */
module ChainAnchors {
  import opened Bytes
  import opened Manifests
  import opened Records
  import opened Decoders
  import opened Chunker
  import opened Chains
  import opened ChainInvariants
  import opened ChainLinks

  // ---------- A's own facts ----------

  lemma SendLocal(k: Setup, s: State, x: AnchorSend)
    requires AnchorSendEnabled(k, s, x) && ALocal(s.a) && AReport(s.a)
    ensures var s' := AnchorSendStep(k, s, x); ALocal(s'.a) && AGrows(s.a, s'.a)
  {
    hide AnchorReceives, AnchorHears, GoodSettlement, AllRelayed, BuildWork;
  }

  lemma SendReport(k: Setup, s: State, x: AnchorSend)
    requires AnchorSendEnabled(k, s, x) && ALocal(s.a) && AReport(s.a)
    ensures AReport(AnchorSendStep(k, s, x).a)
  {
    hide AnchorReceives, AnchorHears, GoodSettlement, AllRelayed;
  }

  lemma MoveLocal(k: Setup, s: State, x: AnchorMove)
    requires AnchorMoveEnabled(k, s, x) && ALocal(s.a) && AReport(s.a)
    ensures var s' := AnchorMoveStep(k, s, x); ALocal(s'.a) && AGrows(s.a, s'.a)
  {
    hide AnchorReceives, AnchorHears, GoodSettlement, AllRelayed, BuildWork;
  }

  lemma MoveReport(k: Setup, s: State, x: AnchorMove)
    requires AnchorMoveEnabled(k, s, x) && ALocal(s.a) && AReport(s.a)
    ensures AReport(AnchorMoveStep(k, s, x).a)
  {
    hide AnchorReceives, AnchorHears, GoodSettlement, AllRelayed;
  }

  lemma WatchLocal(k: Setup, s: State, x: AnchorWatch)
    requires AnchorWatchEnabled(k, s, x) && ALocal(s.a) && AReport(s.a)
    ensures var s' := AnchorWatchStep(k, s, x); ALocal(s'.a) && AGrows(s.a, s'.a)
  {
    hide AnchorReceives, AnchorHears, GoodSettlement, AllRelayed, BuildWork;
  }

  lemma WatchReport(k: Setup, s: State, x: AnchorWatch)
    requires AnchorWatchEnabled(k, s, x) && ALocal(s.a) && AReport(s.a)
    ensures AReport(AnchorWatchStep(k, s, x).a)
  {
    hide AnchorReceives, AnchorHears, GoodSettlement, AllRelayed;
  }

  lemma CleanLocal(k: Setup, s: State, x: AnchorClean)
    requires AnchorCleanEnabled(k, s, x) && ALocal(s.a) && AReport(s.a)
    ensures var s' := AnchorCleanStep(k, s, x); ALocal(s'.a) && AGrows(s.a, s'.a)
  {
    hide AnchorReceives, AnchorHears, GoodSettlement, AllRelayed, BuildWork;
  }

  lemma CleanReport(k: Setup, s: State, x: AnchorClean)
    requires AnchorCleanEnabled(k, s, x) && ALocal(s.a) && AReport(s.a)
    ensures AReport(AnchorCleanStep(k, s, x).a)
  {
    hide AnchorReceives, AnchorHears, GoodSettlement, AllRelayed;
  }

  lemma ReceivesLocal(a: Anchor, m: Message)
    requires ALocal(a) && AReport(a) && AnchorReceives(a, m).Some? && !a.Is(AIsClosing)
    ensures var a' := AnchorReceives(a, m).value; ALocal(a') && AReport(a') && AGrows(a, a')
  {
    hide GoodSettlement;
  }

  lemma HearsLocal(a: Anchor, m: Message)
    requires ALocal(a) && AReport(a) && AnchorHears(a, m).Some? && !a.Is(AIsShut)
    ensures var a' := AnchorHears(a, m).value; ALocal(a') && AReport(a') && AGrows(a, a')
  {
    hide GoodSettlement;
  }

  lemma FailingLocal(a: Anchor, more: set<AnchorFlag>)
    requires ALocal(a) && AReport(a) && (more == {} || more == {AIsBroken} || more == {AIsFinished})
    ensures ALocal(AFailing(a).Set(more)) && AReport(AFailing(a).Set(more)) && AGrows(a, AFailing(a).Set(more))
    ensures AFailing(a).Set({}) == AFailing(a)
  {
    hide GoodSettlement;
  }

  lemma GroupDoneLocal(a: Anchor)
    requires ALocal(a) && AReport(a) && a.Is(ASentWork)
    ensures var a' := a.Set({AGotGroupDone}); ALocal(a') && AReport(a') && AGrows(a, a')
  {
    hide GoodSettlement;
  }

  lemma AnchorLocal(k: Setup, s: State, act: AnchorAction)
    requires AnchorEnabled(k, s, act) && ALocal(s.a) && AReport(s.a)
    ensures var s' := AnchorStep(k, s, act); ALocal(s'.a) && AReport(s'.a) && AGrows(s.a, s'.a)
  {
    hide AnchorReceives, AnchorHears, ALocal, AReport, AGrows;
    hide AnchorSendStep, AnchorMoveStep, AnchorWatchStep, AnchorCleanStep;
    match act
    case ASend(x) => SendLocal(k, s, x); SendReport(k, s, x);
    case AMove(x) => MoveLocal(k, s, x); MoveReport(k, s, x);
    case AWatch(x) => WatchLocal(k, s, x); WatchReport(k, s, x);
    case AClean(x) => CleanLocal(k, s, x); CleanReport(k, s, x);
    case AReceive =>
      if AnchorReceives(s.a, s.ca[0]).Some? { ReceivesLocal(s.a, s.ca[0]); } else { FailingLocal(s.a, {}); }
    case AHear =>
      if AnchorHears(s.a, s.wa[0]).Some? { HearsLocal(s.a, s.wa[0]); } else { FailingLocal(s.a, {AIsBroken}); }
    case AAwait =>
      if s.ca[0].GroupDone? { GroupDoneLocal(s.a); }
      else if s.ca[0].Stop? { FailingLocal(s.a, {}); }
      else { FailingLocal(s.a, {AIsFinished}); }
  }

  // ---------- what A does to the rest of the world ----------

  ghost predicate OnlyA(s: State, s': State) {
    s' == s.(a := s'.a, ca := s'.ca, ac := s'.ac, aw := s'.aw, wa := s'.wa, ap := s'.ap, wp := s'.wp)
  }

  /** What A can only have from the frame it has just taken from C. */
  ghost predicate FromC(a: Anchor, a': Anchor, m: Message) {
    && a'.got == a.got + (if m.Data? then [m.bytes] else [])
    && (ARank(a'.phase) >= 4 ==> ARank(a.phase) >= 4 || m.CreateW?)
    && (ARank(a'.phase) >= 13 ==> ARank(a.phase) >= 13 || m.RunTool?)
    && (a'.Is(AGotGroupDone) ==> a.Is(AGotGroupDone) || m.GroupDone?)
    && a'.Is(AWorkerIsReady) == a.Is(AWorkerIsReady)
  }

  ghost predicate Still(a: Anchor, a': Anchor) {
    && a'.got == a.got
    && (ARank(a'.phase) >= 4 ==> ARank(a.phase) >= 4) && (ARank(a'.phase) >= 13 ==> ARank(a.phase) >= 13)
    && a'.Is(AGotGroupDone) == a.Is(AGotGroupDone)
  }

  ghost predicate Takes(s: State, s': State) {
    && (if s'.ca == s.ca then Still(s.a, s'.a)
        else s.ca != [] && s'.ca == s.ca[1..] && FromC(s.a, s'.a, s.ca[0]) && s'.wa == s.wa)
    && (if s'.wa == s.wa then s'.a.Is(AWorkerIsReady) == s.a.Is(AWorkerIsReady)
        else s.wa != [] && s'.wa == s.wa[1..] && (s'.a.Is(AWorkerIsReady) ==> s.a.Is(AWorkerIsReady) || s.wa[0].Ready?))
    && (s'.a.Is(ASawRefused) ==> s.a.Is(ASawRefused) || (s'.wa != s.wa && s.wa[0].ExecRefused?))
  }

  /** A frame sent to W, with the relayed chunk if it is one. */
  ghost predicate Relayed(a: Anchor, a': Anchor, m: Message) {
    if m.Data? then a.forwarded < |a.got| && m.bytes == a.got[a.forwarded] && a'.forwarded == a.forwarded + 1
    else a'.forwarded == a.forwarded
  }

  ghost predicate Puts(s: State, s': State) {
    && Pushed(s.aw, s'.aw)
    && (if s'.aw == s.aw then s'.a.forwarded == s.a.forwarded
        else JustAW(s'.a, s'.aw[|s.aw|]) && Relayed(s.a, s'.a, s'.aw[|s.aw|]))
    && Pushed(s.ac, s'.ac)
    && (s'.ac != s.ac ==> JustAC(s'.a, s'.ac[|s.ac|]))
  }

  ghost predicate Touches(s: State, s': State) {
    && s.ap.Alive?
    && (s'.a.spawn.NotTried? ==> s.a.spawn.NotTried?) && (s'.a.spawn.Published? ==> s.a.spawn.Published? || !s.wp.Unborn?)
    && (s'.ap == s.ap || (s'.ap.Zombie? && (s'.ap.receipt == Exit(HELPER_OK) || s'.ap.receipt == Exit(HELPER_FAILED) ==>
                                              && s'.a.Is(AGotGroupDone) && s'.a.Is(ASentDone)
                                              && (s'.ap.receipt == Exit(HELPER_OK) ==> !s'.a.Is(AHasFailed)))))
    && (if s'.wp == s.wp then s'.a.wait == s.a.wait
        else s.wp.Zombie? && s'.wp == Reaped(s.wp.receipt) && s.a.wait == None && s'.a.wait == Some(s.wp.receipt))
  }

  ghost predicate AnchorEffect(s: State, s': State) {
    OnlyA(s, s') && Takes(s, s') && Puts(s, s') && Touches(s, s')
  }

  lemma SendTakes(k: Setup, s: State, x: AnchorSend)
    requires AnchorSendEnabled(k, s, x)
    ensures OnlyA(s, AnchorSendStep(k, s, x)) && Takes(s, AnchorSendStep(k, s, x))
  {
    hide AllRelayed;
  }

  lemma SendPuts(k: Setup, s: State, x: AnchorSend)
    requires AnchorSendEnabled(k, s, x) && ALocal(s.a) && AReport(s.a)
    ensures Puts(s, AnchorSendStep(k, s, x))
  {
    hide GoodSettlement, AllRelayed;
  }

  lemma SendTouches(k: Setup, s: State, x: AnchorSend)
    requires AnchorSendEnabled(k, s, x) && s.ap.Alive?
    ensures Touches(s, AnchorSendStep(k, s, x))
  {
    hide AllRelayed;
  }

  lemma SendEffect(k: Setup, s: State, x: AnchorSend)
    requires AnchorSendEnabled(k, s, x) && ALocal(s.a) && AReport(s.a) && s.ap.Alive?
    ensures AnchorEffect(s, AnchorSendStep(k, s, x))
  {
    SendTakes(k, s, x);
    SendPuts(k, s, x);
    SendTouches(k, s, x);
    hide OnlyA, Takes, Puts, Touches, AnchorSendStep;
  }

  lemma MoveEffect(k: Setup, s: State, x: AnchorMove)
    requires AnchorMoveEnabled(k, s, x) && ALocal(s.a) && AReport(s.a) && s.ap.Alive?
    ensures AnchorEffect(s, AnchorMoveStep(k, s, x))
  {
    hide GoodSettlement, AllRelayed, AnchorReceives, AnchorHears, BuildWork;
  }

  lemma WatchEffect(k: Setup, s: State, x: AnchorWatch)
    requires AnchorWatchEnabled(k, s, x) && ALocal(s.a) && AReport(s.a) && s.ap.Alive?
    ensures AnchorEffect(s, AnchorWatchStep(k, s, x))
  {
    hide GoodSettlement, AllRelayed, AnchorReceives, AnchorHears, BuildWork;
  }

  lemma CleanEffect(k: Setup, s: State, x: AnchorClean)
    requires AnchorCleanEnabled(k, s, x) && ALocal(s.a) && AReport(s.a) && s.ap.Alive?
    ensures AnchorEffect(s, AnchorCleanStep(k, s, x))
  {
    hide GoodSettlement, AllRelayed, AnchorReceives, AnchorHears, BuildWork;
  }

  lemma ReceivesFrame(a: Anchor, m: Message)
    requires AnchorReceives(a, m).Some?
    ensures var a' := AnchorReceives(a, m).value;
            && FromC(a, a', m) && a'.forwarded == a.forwarded && a'.wait == a.wait && a'.spawn == a.spawn
            && a'.Is(ASawRefused) == a.Is(ASawRefused)
  {
  }

  lemma HearsFrame(a: Anchor, m: Message)
    requires AnchorHears(a, m).Some?
    ensures var a' := AnchorHears(a, m).value;
            && Still(a, a') && a'.forwarded == a.forwarded && a'.wait == a.wait && a'.spawn == a.spawn
            && (a'.Is(AWorkerIsReady) ==> a.Is(AWorkerIsReady) || m.Ready?)
            && (a'.Is(ASawRefused) ==> a.Is(ASawRefused) || m.ExecRefused?)
  {
  }

  lemma TakeEffect(k: Setup, s: State, act: AnchorAction)
    requires AnchorEnabled(k, s, act) && (act.AReceive? || act.AHear? || act.AAwait?)
    ensures AnchorEffect(s, AnchorStep(k, s, act))
  {
    hide AnchorReceives, AnchorHears;
    if act.AReceive? {
      if AnchorReceives(s.a, s.ca[0]).Some? { ReceivesFrame(s.a, s.ca[0]); }
    } else if act.AHear? {
      if AnchorHears(s.a, s.wa[0]).Some? { HearsFrame(s.a, s.wa[0]); }
    }
  }

  lemma AnchorEffects(k: Setup, s: State, act: AnchorAction)
    requires AnchorEnabled(k, s, act) && ALocal(s.a) && AReport(s.a)
    ensures AnchorEffect(s, AnchorStep(k, s, act))
  {
    hide AnchorReceives, AnchorHears, AnchorEffect, ALocal, AReport;
    hide AnchorSendEnabled, AnchorMoveEnabled, AnchorWatchEnabled, AnchorCleanEnabled;
    hide AnchorSendStep, AnchorMoveStep, AnchorWatchStep, AnchorCleanStep;
    match act
    case ASend(x) => SendEffect(k, s, x);
    case AMove(x) => MoveEffect(k, s, x);
    case AWatch(x) => WatchEffect(k, s, x);
    case AClean(x) => CleanEffect(k, s, x);
    case AReceive => TakeEffect(k, s, act);
    case AHear => TakeEffect(k, s, act);
    case AAwait => TakeEffect(k, s, act);
  }

  // ---------- the invariant ----------

  lemma AnchorCrosses(k: Setup, s: State, s': State)
    requires Honest(k) && AnchorEffect(s, s') && AGrows(s.a, s'.a) && Crosses(k, s) && Links(k, s)
    ensures Crosses(k, s')
  {
    hide Honest, FrameSound, Puts, Touches, CrossOC, CrossFinal, SealFirst, Seals, CRank, ARank, ORank, WDone, Released;
    hide LinkOC, LinkAW, LinkAC, LinkCO, Order;
    if s'.ca != s.ca { assert s.ca[0] in s.ca; }
    if s'.wa != s.wa { assert s.wa[0] in s.wa; }
  }

  lemma AnchorLinks(k: Setup, s: State, s': State)
    requires Honest(k) && AnchorEffect(s, s') && AGrows(s.a, s'.a) && Links(k, s)
    ensures Links(k, s')
  {
    hide Honest, FrameSound, Touches, FromC, Still, SealFirst, Seals, Relayed, WDone;
    hide LinkOC, JustCA, Order;
    forall m | m in s'.aw ensures JustAW(s'.a, m) {
      if m in s.aw { assert JustAW(s.a, m); }
    }
    forall m | m in s'.ac ensures JustAC(s'.a, m) {
      if m in s.ac { assert JustAC(s.a, m); }
    }
    forall m | m in s'.co ensures JustCO(k, s'.o, s'.c, s'.a, m) {
      assert JustCO(k, s.o, s.c, s.a, m);
    }
    assert forall m :: m in s'.ca ==> m in s.ca;
    assert forall m :: m in s'.wa ==> m in s.wa;
  }

  lemma AnchorFlows(k: Setup, s: State, s': State)
    requires Honest(k) && AnchorEffect(s, s') && Flows(k, s)
    ensures Flows(k, s')
  {
    hide Honest, FlowOC, DataOf, Touches, JustAW, JustAC, ARank;
    if s'.ca != s.ca {
      DataFirst(s.ca);
      assert s'.a.got[..s.a.forwarded] == s.a.got[..s.a.forwarded];
    }
    if s'.aw != s.aw {
      var m := s'.aw[|s.aw|];
      DataPlus(s.aw, m);
      if m.Data? { assert s.a.got[..s.a.forwarded + 1] == s.a.got[..s.a.forwarded] + [m.bytes]; }
    }
  }

  lemma AnchorProcesses(k: Setup, s: State, s': State)
    requires AnchorEffect(s, s') && AGrows(s.a, s'.a) && Processes(s)
    ensures Processes(s')
  {
    hide ProcC, Puts, FromC, Still, ARank;
    assert s.ap.Alive?;
  }

  lemma AnchorKeeps(k: Setup, s: State, act: AnchorAction)
    requires Honest(k) && AnchorEnabled(k, s, act) && Inv(k, s)
    ensures Inv(k, AnchorStep(k, s, act))
  {
    AnchorLocal(k, s, act);
    AnchorEffects(k, s, act);
    var s' := AnchorStep(k, s, act);
    hide Honest, OLocal, CGrants, CCleanup, CResult, ALocal, AReport, WLocal, AnchorStep, AnchorEnabled, AGrows;
    hide Crosses, Links, Flows, Processes, Takes, Puts, Touches;
    AnchorCrosses(k, s, s');
    AnchorLinks(k, s, s');
    AnchorFlows(k, s, s');
    AnchorProcesses(k, s, s');
  }
}
