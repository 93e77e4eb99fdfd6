/**
 What the roles do next when nothing goes wrong: each lemma continues any reached state of its kind by a few
 honest steps of the chain and states the whole state after them.
 */
module ChainLegs {
  import opened Bytes
  import opened Manifests
  import opened Records
  import opened Decoders
  import opened Chunker
  import opened Chains
  import opened ChainPaths

  /** Nothing is on its way, and no role has failed, closed or retired its routes. */
  predicate Calm(s: State) {
    && s.oc == [] && s.co == [] && s.ca == [] && s.ac == [] && s.aw == [] && s.wa == [] && s.cp.Alive? && !s.descendants
    && s.o.flags !! {OHasFailed, OIsClosing, ORetiredRoutes, OIsBroken, OGotSeal, OBeganWait, OSawEof, OIsUnknown, OLostOutput}
    && s.c.flags !! {CHasFailed, CIsClosing, CRetiredRoutes, CIsBroken, CIsShut, CIsFinished, CSentGroupDone}
    && s.a.flags !! {AHasFailed, AIsClosing, ARetiredRoutes, AIsBroken, AIsShut, AIsFinished}
  }

  // ---------- the three helpers come up ----------

  lemma {:induction false} AnchorComesUp(k: Setup, s: State) returns (t: State)
    requires Honest(k) && Reached(k, s) && Calm(s) && s.c.phase.CBound? && s.c.spawn.NotTried? && s.ap.Unborn? && s.a.phase.AStart?
    ensures Reached(k, t) && Calm(t.(ac := []))
    ensures t == s.(c := s.c.(phase := CSpawned, spawn := Published), a := s.a.(phase := AGreeted), ap := Alive, ac := [Hello])
  {
    hide Honest, Reached, FedAll, Cargo;
    t := CMoves(k, s, CSpawn);
    t := SSteps(k, t, BearA);
    t := CMoves(k, t, CPublish);
    t := ASends(k, t, AGreet);
  }

  lemma {:induction false} AnchorIsConfigured(k: Setup, s: State) returns (t: State)
    requires Honest(k) && Reached(k, s) && Calm(s.(ac := [])) && s.ac == [Hello] && s.c.phase.CSpawned? && s.ap.Alive? && s.a.phase.AGreeted?
    ensures Reached(k, t) && Calm(t.(ac := [])) && t == s.(c := s.c.(phase := CPreparing), a := s.a.(phase := APrepared), ac := [Prepared])
  {
    hide Honest, Reached, FedAll, Cargo;
    t := CListens(k, s);
    t := CSends(k, t, CConfigure);
    t := ATakes(k, t);
    t := ASends(k, t, APrepare);
  }

  lemma {:induction false} PreparedIsTold(k: Setup, s: State) returns (t: State)
    requires Honest(k) && Reached(k, s) && Calm(s.(ac := [])) && s.ac == [Prepared] && s.c.phase.CPreparing? && s.c.work.None?
    requires !s.c.Is(CGotPrepared) && s.o.phase.Preparing? && !s.o.Is(OGotPrepared)
    ensures Reached(k, t) && Calm(t)
    ensures t == s.(c := s.c.(phase := CPrepared).Set({CGotPrepared}), o := s.o.Set({OGotPrepared}), ac := [])
  {
    hide Honest, Reached, FedAll, Cargo, TerminalAdmissible;
    t := CListens(k, s);
    t := CSends(k, t, CForwardPrepared);
    t := OHears(k, t);
  }

  lemma {:induction false} CreateIsReserved(k: Setup, s: State) returns (t: State)
    requires Honest(k) && Reached(k, s) && Calm(s) && s.o.phase.Preparing? && s.o.Is(OGotPrepared) && s.o.spawn.Published?
    requires (k.journalled ==> s.o.Is(OSentBinding)) && s.o.flags !! {OTriedCreate, OTriedRun}
    ensures Reached(k, t) && Calm(t) && t == s.(o := s.o.(phase := Granting).Set({OHoldsPermit}).Set({OTriedCreate}))
  {
    hide Honest, Reached, FedAll, Cargo, TerminalAdmissible;
    t := OSteps(k, s, OReserve);
    t := OSteps(k, t, OAttemptCreate);
  }

  lemma {:induction false} CreateIsGranted(k: Setup, s: State) returns (t: State)
    requires Honest(k) && Reached(k, s) && Calm(s) && s.o.phase.Granting? && s.c.phase.CPrepared?
    ensures Reached(k, t) && Calm(t) && t == s.(c := s.c.(phase := CGranted), o := s.o.(phase := Transferring))
  {
    hide Honest, Reached, FedAll, Cargo, TerminalAdmissible;
    t := OSteps(k, s, ODeliverCreate);
    t := CTakes(k, t);
  }

  lemma {:induction false} CreateIsPassedOn(k: Setup, s: State) returns (t: State)
    requires Honest(k) && Reached(k, s) && Calm(s) && s.c.phase.CGranted? && s.a.phase.APrepared? && s.ap.Alive?
    ensures Reached(k, t) && Calm(t)
    ensures t == s.(c := s.c.(phase := CTransferring).Set({CTriedCreate}), a := s.a.(phase := ACreating).Set({ATriedCreate}))
  {
    hide Honest, Reached, FedAll, Cargo;
    t := CMoves(k, s, CAttemptCreate);
    t := CSends(k, t, CDeliverCreate);
    t := ATakes(k, t);
    t := AMoves(k, t, AAttemptCreate);
  }

  lemma {:induction false} WorkerComesUp(k: Setup, s: State) returns (t: State)
    requires Honest(k) && Reached(k, s) && Calm(s) && s.a.phase.ACreating? && s.ap.Alive? && s.a.spawn.NotTried? && s.wp.Unborn? && s.w.phase.WStart?
    ensures Reached(k, t) && Calm(t.(wa := []))
    ensures t == s.(a := s.a.(phase := ASpawned, spawn := Published), w := s.w.(phase := WGreeted), wp := Alive, wa := [Hello])
  {
    hide Honest, Reached, FedAll, Cargo;
    t := AMoves(k, s, ASpawn);
    t := SSteps(k, t, BearW);
    t := AMoves(k, t, APublish);
    t := WSteps(k, t, WGreet);
  }

  lemma {:induction false} WorkerIsConfigured(k: Setup, s: State) returns (t: State)
    requires Honest(k) && Reached(k, s) && Calm(s.(wa := [])) && s.wa == [Hello] && s.a.phase.ASpawned? && s.ap.Alive? && s.wp.Alive?
    requires !s.a.Is(AHasMoved) && s.w.phase.WGreeted?
    ensures Reached(k, t) && Calm(t)
    ensures t == s.(a := s.a.(phase := ATransferring).Set({AHasMoved}), w := s.w.(phase := WConfigured), wa := [])
  {
    hide Honest, Reached, FedAll, Cargo;
    t := AListens(k, s);
    t := AMoves(k, t, AnchorMove.AMove);
    t := ASends(k, t, AConfigure);
    t := WSteps(k, t, WReceive);
  }

  // ---------- the record goes through ----------

  lemma {:induction false} ManifestIsSent(k: Setup, s: State) returns (t: State)
    requires Honest(k) && Reached(k, s) && Calm(s) && s.o.phase.Transferring? && !s.o.Is(OSentManifest)
    requires s.c.phase.CTransferring? && !s.c.Is(CGotManifest) && !s.c.Is(CPassedManifest)
    ensures Reached(k, t) && Calm(t.(ca := []))
    ensures t == s.(o := s.o.Set({OSentManifest}), c := s.c.Set({CGotManifest}).Set({CPassedManifest}), ca := [Announce])
  {
    hide Honest, Reached, FedAll, Cargo, TerminalAdmissible;
    t := OSteps(k, s, OAnnounce);
    t := CTakes(k, t);
    t := CSends(k, t, CForwardManifest);
  }

  lemma {:induction false} ManifestIsHeard(k: Setup, s: State) returns (t: State)
    requires Honest(k) && Reached(k, s) && Calm(s.(ca := [])) && s.ca == [Announce] && s.ap.Alive? && s.wp.Alive?
    requires s.a.phase.ATransferring? && !s.a.Is(AGotManifest) && !s.a.Is(APassedManifest) && s.w.phase.WConfigured?
    ensures Reached(k, t) && Calm(t)
    ensures t == s.(a := s.a.Set({AGotManifest}).Set({APassedManifest}), w := s.w.(phase := WLoading), ca := [])
  {
    hide Honest, Reached, FedAll, Cargo;
    t := ATakes(k, s);
    t := ASends(k, t, AForwardManifest);
    t := WSteps(k, t, WReceive);
  }

  lemma {:induction false} ChunkIsSent(k: Setup, s: State) returns (t: State)
    requires Honest(k) && Reached(k, s) && Calm(s) && s.o.phase.Transferring? && s.o.Is(OSentManifest) && s.o.sent < |Cargo(k)|
    requires s.c.phase.CTransferring? && s.c.Is(CGotManifest) && s.c.Is(CPassedManifest) && s.c.forwarded == |s.c.got|
    ensures Reached(k, t) && Calm(t.(ca := []))
    ensures t == s.(o := s.o.(sent := s.o.sent + 1), c := s.c.(got := s.c.got + [Cargo(k)[s.o.sent]], forwarded := s.c.forwarded + 1),
                    ca := [Data(Cargo(k)[s.o.sent])])
  {
    hide Honest, Reached, FedAll, Cargo, TerminalAdmissible;
    t := OSteps(k, s, OSendData);
    t := CTakes(k, t);
    t := CSends(k, t, CForwardData);
  }

  lemma {:induction false} ChunkIsLoaded(k: Setup, s: State, bytes: seq<byte>) returns (t: State)
    requires Honest(k) && Reached(k, s) && Calm(s.(ca := [])) && s.ca == [Data(bytes)] && s.ap.Alive? && s.wp.Alive?
    requires s.a.phase.ATransferring? && s.a.Is(AGotManifest) && s.a.Is(APassedManifest) && s.a.forwarded == |s.a.got|
    requires s.w.phase.WLoading? && SessionOf(k, s.w.(fed := s.w.fed + [bytes])).Live?
    ensures Reached(k, t) && Calm(t)
    ensures t == s.(a := s.a.(got := s.a.got + [bytes], forwarded := s.a.forwarded + 1), w := s.w.(fed := s.w.fed + [bytes]), ca := [])
  {
    hide Honest, Reached, FedAll, Cargo, SessionOf;
    t := ATakes(k, s);
    t := ASends(k, t, AForwardData);
    t := WSteps(k, t, WReceive);
  }

  // ---------- the worker is released and becomes the command ----------

  lemma {:induction false} RecordIsVerified(k: Setup, s: State) returns (t: State)
    requires Honest(k) && Reached(k, s) && Calm(s) && s.ap.Alive? && s.wp.Alive?
    requires s.o.phase.Transferring? && s.o.Is(OSentManifest) && s.o.sent == |Cargo(k)|
    requires s.c.phase.CTransferring? && s.c.Is(CPassedManifest) && s.c.forwarded == |s.c.got| && AllRelayed(k, s.c.got)
    requires s.a.phase.ATransferring? && s.a.Is(APassedManifest) && s.a.forwarded == |s.a.got| && AllRelayed(k, s.a.got)
    requires s.w.phase.WLoading? && SessionOf(k, s.w).Done()
    ensures Reached(k, t) && Calm(t)
    ensures t == s.(o := s.o.(phase := Awaiting), c := s.c.(phase := CAwaiting), a := s.a.(phase := AVerified), w := s.w.(phase := WLoaded))
  {
    hide Honest, Reached, FedAll, Cargo, AllRelayed, SessionOf;
    t := OSteps(k, s, OAwait);
    t := CMoves(k, t, CVerify);
    t := AMoves(k, t, AVerify);
    t := WSteps(k, t, WFinish);
  }

  lemma {:induction false} ReadyGoesUp(k: Setup, s: State) returns (t: State)
    requires Honest(k) && Reached(k, s) && Calm(s) && s.ap.Alive? && s.wp.Alive? && s.w.phase.WLoaded? && s.a.phase.AVerified?
    requires s.c.phase.CAwaiting? && s.c.work.None? && !s.c.Is(CGotReady)
    ensures Reached(k, t) && Calm(t)
    ensures t == s.(c := s.c.Set({CGotReady}), a := s.a.Set({AWorkerIsReady}).(phase := AReadied), w := s.w.(phase := WReadied))
  {
    hide Honest, Reached, FedAll, Cargo;
    t := WSteps(k, s, WReady);
    t := AListens(k, t);
    t := ASends(k, t, ASendReady);
    t := CListens(k, t);
  }

  lemma {:induction false} RunIsGranted(k: Setup, s: State) returns (t: State)
    requires Honest(k) && Reached(k, s) && Calm(s) && s.c.phase.CAwaiting? && s.c.Is(CGotReady) && s.c.work.None?
    requires s.o.phase.Awaiting? && s.o.Is(OTriedCreate) && !s.o.Is(OGotReady)
    ensures Reached(k, t) && Calm(t.(oc := []))
    ensures t == s.(o := s.o.Set({OGotReady}).(phase := Running).Set({OTriedRun}), c := s.c.(phase := CReadied), oc := [RunTool])
  {
    hide Honest, Reached, FedAll, Cargo, TerminalAdmissible;
    t := CSends(k, s, CForwardReady);
    t := OHears(k, t);
    t := OSteps(k, t, OAttemptRun);
    t := OSteps(k, t, ODeliverRun);
  }

  lemma {:induction false} RunIsPassedOn(k: Setup, s: State) returns (t: State)
    requires Honest(k) && Reached(k, s) && Calm(s.(oc := [])) && s.oc == [RunTool] && s.c.phase.CReadied? && s.ap.Alive? && s.a.phase.AReadied?
    ensures Reached(k, t) && Calm(t)
    ensures t == s.(c := s.c.(phase := CRunning).Set({CTriedRun}), a := s.a.(phase := AReleased), oc := [])
  {
    hide Honest, Reached, FedAll, Cargo;
    t := CTakes(k, s);
    t := CMoves(k, t, CAttemptRun);
    t := CSends(k, t, CDeliverRun);
    t := ATakes(k, t);
  }

  lemma {:induction false} WorkerIsReleased(k: Setup, s: State) returns (t: State)
    requires Honest(k) && Reached(k, s) && Calm(s) && s.ap.Alive? && s.wp.Alive? && s.a.phase.AReleased? && s.w.phase.WReadied?
    ensures Reached(k, t) && Calm(t)
    ensures t == s.(a := s.a.(phase := ARunning).Set({ATriedRun}), w := s.w.(phase := WReleased))
  {
    hide Honest, Reached, FedAll, Cargo;
    t := AMoves(k, s, AAttemptRun);
    t := ASends(k, t, ADeliverRun);
    t := WSteps(k, t, WReceive);
  }

  lemma {:induction false} WorkerExecutes(k: Setup, s: State) returns (t: State)
    requires Honest(k) && Reached(k, s) && Calm(s) && s.ap.Alive? && s.wp.Alive? && s.a.phase.ARunning? && s.w.phase.WReleased?
    requires s.a.Is(ATriedRun) && s.a.Is(AWorkerIsReady) && s.a.flags !! {ASawArmed, ASawRefused}
    ensures Reached(k, t) && Calm(t)
    ensures t == s.(a := s.a.Set({ASawArmed}), w := s.w.(phase := WTarget), wp := Zombie(Exit(0)))
  {
    hide Honest, Reached, FedAll, Cargo;
    t := WSteps(k, s, WArm);
    t := AListens(k, t);
    t := WSteps(k, t, WExec);
    t := SSteps(k, t, EndW(Exit(0)));
  }

  // ---------- A settles ----------

  lemma {:induction false} WorkerIsReaped(k: Setup, s: State) returns (t: State)
    requires Honest(k) && Reached(k, s) && Calm(s) && s.ap.Alive? && s.wp == Zombie(Exit(0)) && s.a.phase.ARunning? && s.w.phase.WTarget?
    requires s.a.wait.None? && s.a.Is(ASawArmed)
    ensures Reached(k, t) && Calm(t)
    ensures t == s.(a := s.a.Set({ABeganWait}).(wait := Some(Exit(0)), phase := ADone).Set({ASawEof}), wp := Reaped(Exit(0)))
  {
    hide Honest, Reached, FedAll, Cargo;
    t := AWatches(k, s, ABeginWait);
    t := AWatches(k, t, AWait);
    t := AWatches(k, t, AEof);
    t := AMoves(k, t, AFinishBody);
  }

  const WORK := Settlement(true, true, false, true, Some(Exit(0)), true, false, true, true)

  lemma {:induction false} AnchorSettles(k: Setup, s: State) returns (t: State)
    requires Honest(k) && Reached(k, s) && Calm(s) && s.ap.Alive? && s.a.phase.ADone? && s.a.spawn.Published?
    requires s.a.wait == Some(Exit(0)) && s.a.work.None?
    requires {ATriedCreate, ATriedRun, AHasMoved, ASawArmed, ASawEof, ABeganWait} <= s.a.flags && s.a.flags !! {AHasNoChild, ASawRefused, ASentWork}
    ensures Reached(k, t)
    ensures t == s.(a := s.a.Set({AIsClosing, ARetiredRoutes}).Set({AIsShut}).(work := Some(WORK)).Set({ASentWork}), ac := [WorkDone(WORK)])
  {
    hide Honest, Reached, FedAll, Cargo;
    t := ACleans(k, s, AClose);
    t := ACleans(k, t, AShut);
    t := ACleans(k, t, AWork(true));
    t := ASends(k, t, ASendWork);
  }

  // ---------- C settles ----------

  /** Nothing is on its way. */
  predicate Still(s: State) {
    s.oc == [] && s.co == [] && s.ca == [] && s.ac == [] && s.aw == [] && s.wa == [] && !s.descendants
  }

  lemma {:induction false} GroupIsRetired(k: Setup, s: State) returns (t: State)
    requires Honest(k) && Reached(k, s) && Still(s.(ac := [])) && s.ac == [WorkDone(WORK)] && s.cp.Alive?
    requires s.c.phase.CRunning? && s.c.work.None? && s.c.spawn.Published? && s.c.Is(CTriedCreate) && s.c.Is(CTriedRun)
    requires s.c.flags !! {CHasFailed, CIsClosing, CRetiredRoutes, CIsBroken, CIsShut, CIsFinished, CSentGroupDone, CGroupRetired, CBeganWait}
    requires s.a.Is(AHasMoved) && s.wp.Reaped?
    ensures Reached(k, t)
    ensures t == s.(c := s.c.(work := Some(WORK), phase := CDone).Set({CIsClosing, CRetiredRoutes}).Set({CSawAbsent}).Set({CGroupRetired}), ac := [])
  {
    hide Honest, Reached, FedAll, Cargo;
    t := CListens(k, s);
    t := CMoves(k, t, CFinishBody);
    t := CCleans(k, t, CClose);
    t := CCleans(k, t, CSignalGroup(true));
    t := CCleans(k, t, CRetireGroup);
  }

  lemma {:induction false} AnchorLeaves(k: Setup, s: State) returns (t: State)
    requires Honest(k) && Reached(k, s) && Still(s) && s.cp.Alive? && s.ap.Alive?
    requires s.c.work == Some(WORK) && s.c.Is(CGroupRetired) && s.c.Is(CSawAbsent)
    requires s.c.flags !! {CSentGroupDone, CBeganWait, CIsBroken, CIsShut, CIsFinished}
    requires s.a.work == Some(WORK) && s.a.Is(ASentWork) && s.a.flags !! {AGotGroupDone, ASentDone, AIsFinished, AHasFailed}
    ensures Reached(k, t)
    ensures t == s.(c := s.c.Set({CSentGroupDone}), a := s.a.Set({AGotGroupDone}).Set({ASentDone}).Set({AIsFinished}),
                    ap := Zombie(Exit(HELPER_OK)), ac := [AnchorDone(WORK)])
  {
    hide Honest, Reached, FedAll, Cargo;
    t := CCleans(k, s, CGroupDone);
    t := AAwaits(k, t);
    t := ASends(k, t, ASendDone);
    t := ACleans(k, t, ACloseUp);
    t := ACleans(k, t, AExit(true));
  }

  lemma {:induction false} AnchorIsHeard(k: Setup, s: State) returns (t: State)
    requires Honest(k) && Reached(k, s) && Still(s.(ac := [])) && s.ac == [AnchorDone(WORK)] && s.cp.Alive? && s.ap.Zombie?
    requires s.c.phase.CDone? && s.c.work == Some(WORK) && s.c.terminal.None?
    requires {CIsClosing, CGroupRetired, CSentGroupDone} <= s.c.flags && s.c.flags !! {CIsBroken, CIsShut, CIsFinished}
    ensures Reached(k, t) && t == s.(c := s.c.(terminal := Some(WORK)).Set({CSawEof}), ac := [])
  {
    hide Honest, Reached, FedAll, Cargo;
    t := CListens(k, s);
    t := CWatches(k, t, CAnchorEof);
  }

  lemma {:induction false} AnchorIsReaped(k: Setup, s: State) returns (t: State)
    requires Honest(k) && Reached(k, s) && s.cp.Alive? && s.ap == Zombie(Exit(HELPER_OK)) && s.c.spawn.Published? && s.c.wait.None?
    requires {CIsClosing, CGroupRetired} <= s.c.flags && s.c.flags !! {CBeganWait, CIsShut, CIsFinished}
    ensures Reached(k, t)
    ensures t == s.(c := s.c.(wait := Some(Exit(HELPER_OK))).Set({CBeganWait}).Set({CIsShut}), ap := Reaped(Exit(HELPER_OK)))
  {
    hide Honest, Reached, FedAll, Cargo;
    t := CCleans(k, s, CBeginWait);
    t := CCleans(k, t, CWait);
    t := CCleans(k, t, CShut);
  }

  lemma {:induction false} ProducerIsSettled(k: Setup, s: State) returns (t: State)
    requires Honest(k) && Reached(k, s) && s.cp.Alive? && s.c.spawn.Published? && s.c.wait == Some(Exit(HELPER_OK))
    requires s.c.work == Some(WORK) && s.c.terminal == Some(WORK)
    requires {CIsClosing, CSawAbsent, CGroupRetired, CSawEof, CIsShut, CRetiredRoutes} <= s.c.flags
    requires s.c.flags !! {CHasSettled, CIsBroken, CLostSource, CIsUnknown, CIsFinished}
    ensures Reached(k, t)
    ensures t == s.(c := s.c.Set({CSawStdoutEof}).Set({CSawStderrEof}).Set({CHasSettled, CIsProducer}))
  {
    hide Honest, Reached, FedAll, Cargo;
    t := CWatches(k, s, CSourceEof(false));
    t := CWatches(k, t, CSourceEof(true));
    t := CEnds(k, t, CSettle);
  }

  /** C seals, and publishes the fence of a journalled command. */
  function Sealing(k: Setup, c: Custodian): Custodian {
    if k.journalled then c.Set({CSentSeal}).Set({CTriedPublish, CHasFence}) else c.Set({CSentSeal})
  }

  lemma {:induction false} SealIsSent(k: Setup, s: State) returns (t: State)
    requires Honest(k) && Reached(k, s) && Still(s) && s.cp.Alive? && s.c.Is(CIsProducer)
    requires s.c.flags !! {CSentSeal, CTriedPublish, CSentFinal, CIsFinished}
    requires k.journalled ==> s.c.Is(CHasWriter) && s.c.Is(CWriterReady)
    requires s.o.Is(OGotHello) && !s.o.Is(OGotSeal) && s.o.terminal.None? && !s.o.Is(OIsBroken)
    ensures Reached(k, t)
    ensures t == s.(c := Sealing(k, s.c), o := s.o.Set({OGotSeal, ORetiredRoutes}))
  {
    hide Honest, Reached, FedAll, Cargo, TerminalAdmissible;
    t := CEnds(k, s, CSeal);
    t := OHears(k, t);
    if k.journalled { t := CEnds(k, t, CPublishFence(true)); }
  }

  function Report(k: Setup): Terminal {
    Terminal(true, true, None, Some(Exit(0)), true, true, 0, 0, if k.journalled then Some(true) else None)
  }

  lemma {:induction false} FinalIsSent(k: Setup, s: State) returns (t: State)
    requires Honest(k) && Reached(k, s) && Still(s) && s.cp.Alive?
    requires s.c.work == Some(WORK) && s.c.wait == Some(Exit(HELPER_OK)) && s.c.outputs == (0, 0)
    requires {CHasSettled, CIsProducer, CSentSeal, CTriedCreate, CTriedRun} <= s.c.flags
    requires s.c.flags !! {CSentFinal, COverflowed, CLostSource, CHasFailed, CIsUnknown, CIsFinished}
    requires s.c.Is(CHasWriter) == k.journalled && (k.journalled ==> s.c.Is(CTriedPublish) && s.c.Is(CHasFence))
    ensures Reached(k, t)
    ensures t == s.(c := s.c.Set({CSentFinal}).Set({CIsFinished}), cp := Zombie(Exit(HELPER_OK)), co := [Final(Report(k))])
  {
    hide Honest, Reached, FedAll, Cargo;
    t := CEnds(k, s, CFinal(true));
    t := CEnds(k, t, CCloseUp);
    t := CEnds(k, t, CExit(true));
  }

  // ---------- O ends ----------

  lemma ReportIsAdmissible(k: Setup, o: Outer)
    requires Honest(k) && {OTriedCreate, OGotPrepared, OTriedRun, OGotReady, OGotSeal} <= o.flags
    ensures TerminalAdmissible(k, o, Report(k))
  {
    hide Honest, Cargo;
  }

  lemma {:induction false} ReportIsRead(k: Setup, s: State) returns (t: State)
    requires Honest(k) && Reached(k, s) && s.co == [Final(Report(k))] && s.o.terminal.None?
    requires {OGotHello, OTriedCreate, OGotPrepared, OTriedRun, OGotReady, OGotSeal} <= s.o.flags && !s.o.Is(OIsBroken)
    ensures Reached(k, t) && t == s.(o := s.o.(terminal := Some(Report(k))), co := [])
  {
    ReportIsAdmissible(k, s.o);
    hide Honest, Reached, TerminalAdmissible, Report;
    t := OHears(k, s);
  }

  lemma {:induction false} StreamsEnd(k: Setup, s: State) returns (t: State)
    requires Honest(k) && Reached(k, s) && s.co == [] && s.cp.Zombie?
    ensures Reached(k, t) && t == s.(o := s.o.Set({OSawEof}).Set({OSawStdoutEof}).Set({OSawStderrEof}))
  {
    hide Honest, Reached, Cargo;
    t := OSteps(k, s, OEof);
    t := OSteps(k, t, OOutputEof(false));
    t := OSteps(k, t, OOutputEof(true));
  }

  lemma {:induction false} CustodianIsReaped(k: Setup, s: State) returns (t: State)
    requires Honest(k) && Reached(k, s) && s.cp == Zombie(Exit(HELPER_OK)) && s.o.terminal.Some? && s.o.wait.None?
    requires s.o.phase.Running? && s.o.spawn.Published?
    requires {OSawEof, OSawStdoutEof, OSawStderrEof} <= s.o.flags && s.o.flags !! {OIsClosing, OIsBroken, OLostOutput, OIsShut, OBeganWait}
    ensures Reached(k, t)
    ensures t == s.(o := s.o.(wait := Some(Exit(HELPER_OK))).Set({OIsClosing, ORetiredRoutes}).Set({OIsShut}).Set({OBeganWait}),
                    cp := Reaped(Exit(HELPER_OK)))
  {
    hide Honest, Reached, FedAll, Cargo, TerminalAdmissible;
    t := OSteps(k, s, OClose);
    t := OSteps(k, t, OShut);
    t := OSteps(k, t, OBeginWait);
    t := OSteps(k, t, OWait);
  }
}
