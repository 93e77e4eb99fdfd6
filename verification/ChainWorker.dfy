/**
 Every step of W and of the operating system keeps the invariant, and so does every run.
 */
module ChainRuns {
  import opened Bytes
  import opened Manifests
  import opened Records
  import opened Decoders
  import opened Chunker
  import opened Chains
  import opened ChainInvariants
  import opened ChainLinks
  import ChainOuters
  import ChainCustodians
  import ChainAnchors

  // ---------- W ----------

  lemma {:induction false} FedAllPlus(sha: Hash, m: Manifest, s: Session, pieces: seq<seq<byte>>, piece: seq<byte>)
    requires Sound(m, s)
    ensures FedAll(sha, m, s, pieces + [piece]) == Fed(sha, m, FedAll(sha, m, s, pieces), piece)
    decreases |pieces|
  {
    hide Fed, Sound;
    if pieces == [] {
      assert ([] + [piece])[1..] == [];
      assert FedAll(sha, m, s, [piece]) == FedAll(sha, m, Fed(sha, m, s, piece), []);
    } else {
      assert (pieces + [piece])[1..] == pieces[1..] + [piece];
      FedAllPlus(sha, m, Fed(sha, m, s, pieces[0]), pieces[1..], piece);
    }
  }

  /** A complete decoder refuses every further byte, so what it decoded stays. */
  lemma DoneRefuses(k: Setup, w: Worker, bytes: seq<byte>)
    requires Honest(k) && WDone(k, w)
    ensures SessionOf(k, w.(fed := w.fed + [bytes])) == Poisoned
  {
    StartClean(k.manifest);
    FedAllPlus(k.sha, k.manifest, Fresh, w.fed, bytes);
    hide FedAll, Honest, Drive;
  }

  lemma WorkerTakes(k: Setup, w: Worker, m: Message)
    requires Honest(k) && WLocal(k, w) && WorkerReceives(k, w, m).Some?
    ensures var w' := WorkerReceives(k, w, m).value;
            && WLocal(k, w') && (WDone(k, w) ==> WDone(k, w'))
            && (Released(w'.phase) ==> Released(w.phase) || m.RunTool?)
            && w'.fed == w.fed + (if m.Data? then [m.bytes] else []) && !w'.phase.WStart?
            && (w.phase.WRefused? ==> w'.phase.WRefused?)
  {
    if m.Data? && WDone(k, w) { DoneRefuses(k, w, m.bytes); }
    hide Honest;
    assert forall v: Worker :: v.fed == w.fed ==> SessionOf(k, v) == SessionOf(k, w);
  }

  ghost predicate WorkerEffect(k: Setup, s: State, s': State)
    requires Honest(k)
  {
    && s' == s.(w := s'.w, aw := s'.aw, wa := s'.wa)
    && WLocal(k, s'.w) && (WDone(k, s.w) ==> WDone(k, s'.w)) && (s.w.phase.WRefused? ==> s'.w.phase.WRefused?)
    && (if s'.aw == s.aw then s'.w.fed == s.w.fed && (Released(s'.w.phase) ==> Released(s.w.phase))
        else s.aw != [] && s'.aw == s.aw[1..] && s'.w.fed == s.w.fed + (if s.aw[0].Data? then [s.aw[0].bytes] else [])
             && (Released(s'.w.phase) ==> Released(s.w.phase) || s.aw[0].RunTool?))
    && Pushed(s.wa, s'.wa) && (s'.wa != s.wa ==> JustWA(k, s'.w, s'.wa[|s.wa|]))
    && s.wp.Alive?
  }

  lemma WorkerEffects(k: Setup, s: State, x: WorkerAction)
    requires Honest(k) && WorkerEnabled(k, s, x) && WLocal(k, s.w)
    ensures WorkerEffect(k, s, WorkerStep(k, s, x))
  {
    hide Honest, WorkerReceives, FedAll;
    assert forall v: Worker :: v.fed == s.w.fed ==> SessionOf(k, v) == SessionOf(k, s.w);
    if x.WReceive? && WorkerReceives(k, s.w, s.aw[0]).Some? { WorkerTakes(k, s.w, s.aw[0]); }
  }

  lemma WorkerKeeps(k: Setup, s: State, x: WorkerAction)
    requires Honest(k) && WorkerEnabled(k, s, x) && Inv(k, s)
    ensures Inv(k, WorkerStep(k, s, x))
  {
    WorkerEffects(k, s, x);
    var s' := WorkerStep(k, s, x);
    hide Honest, OLocal, CGrants, CCleanup, CResult, ALocal, AReport, WLocal, WorkerStep, WorkerEnabled;
    hide CrossOC, CrossCA, CrossOA, CrossFinal, FlowOC, FlowCA, LinkOC, LinkCA, LinkAC, LinkCO, Order, ProcC, ProcA;
    WorkerRelations(k, s, s');
  }

  lemma WorkerRelations(k: Setup, s: State, s': State)
    requires Honest(k) && WorkerEffect(k, s, s')
    requires CrossAW(k, s.a, s.w) && LinkAW(s.a, s.aw) && LinkWA(k, s.w, s.wa) && FlowAW(s.a, s.w, s.aw) && ProcW(s.a, s.w, s.ap, s.wp)
    ensures CrossAW(k, s'.a, s'.w) && LinkAW(s'.a, s'.aw) && LinkWA(k, s'.w, s'.wa) && FlowAW(s'.a, s'.w, s'.aw)
    ensures ProcW(s'.a, s'.w, s'.ap, s'.wp)
  {
    hide Honest, WDone, Released, DataOf, WLocal;
    if s'.aw != s.aw {
      assert s.aw[0] in s.aw;
      DataFirst(s.aw);
    }
    assert forall m :: m in s'.aw ==> m in s.aw;
    forall m | m in s'.wa ensures JustWA(k, s'.w, m) {
      if m in s.wa { assert JustWA(k, s.w, m); }
    }
  }

  // ---------- the operating system ----------

  lemma SystemKeeps(k: Setup, s: State, x: SystemAction)
    requires Honest(k) && SystemEnabled(s, x) && Inv(k, s)
    ensures Inv(k, SystemStep(s, x))
  {
    SystemProcesses(s, x);
    var s' := SystemStep(s, x);
    assert s' == s.(cp := s'.cp, ap := s'.ap, wp := s'.wp, descendants := s'.descendants);
    hide Honest, Locals, Crosses, Links, Flows, Processes, SystemStep, SystemEnabled;
    SameRoles(k, s, s');
  }

  lemma SameRoles(k: Setup, s: State, s': State)
    requires Honest(k) && s' == s.(cp := s'.cp, ap := s'.ap, wp := s'.wp, descendants := s'.descendants)
    requires Locals(k, s) && Crosses(k, s) && Links(k, s) && Flows(k, s)
    ensures Locals(k, s') && Crosses(k, s') && Links(k, s') && Flows(k, s')
  {
    hide Honest, OLocal, CGrants, CCleanup, CResult, ALocal, AReport, WLocal;
    hide CrossOC, CrossCA, CrossAW, CrossOA, CrossFinal, FlowOC, FlowCA, FlowAW;
    hide LinkOC, LinkCA, LinkAW, LinkWA, LinkAC, LinkCO, Order;
  }

  /** In particular no step of the system, and no creation still in flight, refills a group seen absent. */
  lemma SystemProcesses(s: State, x: SystemAction)
    requires SystemEnabled(s, x) && Processes(s) && ALocal(s.a) && CCleanup(s.c)
    ensures Processes(SystemStep(s, x))
  {
    hide CRank, ARank;
  }

  // ---------- runs ----------

  lemma InitialRoles(k: Setup)
    requires Honest(k)
    ensures Locals(k, Initial) && Crosses(k, Initial)
  {
    StartClean(k.manifest);
    hide Honest, GoodSettlement, ProducerFacts, FrameEarned;
  }

  lemma InitialInv(k: Setup)
    requires Honest(k)
    ensures Inv(k, Initial)
  {
    InitialRoles(k);
    hide Honest, Locals, Crosses;
    assert Cargo(k)[..0] == [];
  }

  lemma StepKeeps(k: Setup, s: State, action: Action)
    requires Honest(k) && Inv(k, s)
    ensures Inv(k, Step(k, s, action))
  {
    hide Honest, Inv, OuterStep, CustodianStep, AnchorStep, WorkerStep, SystemStep;
    hide OuterEnabled, CustodianEnabled, AnchorEnabled, WorkerEnabled, SystemEnabled;
    match action
    case OAct(x) => if OuterEnabled(k, s, x) { ChainOuters.OuterKeeps(k, s, x); }
    case CAct(x) => if CustodianEnabled(k, s, x) { ChainCustodians.CustodianKeeps(k, s, x); }
    case AAct(x) => if AnchorEnabled(k, s, x) { ChainAnchors.AnchorKeeps(k, s, x); }
    case WAct(x) => if WorkerEnabled(k, s, x) { WorkerKeeps(k, s, x); }
    case Sys(x) => if SystemEnabled(s, x) { SystemKeeps(k, s, x); }
  }

  lemma {:induction false} RunKeeps(k: Setup, s: State, actions: seq<Action>)
    requires Honest(k) && Inv(k, s)
    ensures Inv(k, Run(k, s, actions))
    decreases |actions|
  {
    hide Honest, Inv, Step;
    if actions != [] {
      StepKeeps(k, s, actions[0]);
      RunKeeps(k, Step(k, s, actions[0]), actions[1..]);
    }
  }

  lemma Reachable(k: Setup, actions: seq<Action>)
    requires Honest(k)
    ensures Inv(k, Run(k, Initial, actions))
  {
    hide Honest, Inv, Run;
    InitialInv(k);
    RunKeeps(k, Initial, actions);
  }
}
