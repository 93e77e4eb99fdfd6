/**
 The inductive invariant of the chain. Every fact a role relies on is justified
 by a monotone fact of the role that sent the frame, so a frame in flight stays
 justified whatever happens meanwhile.
 */
module ChainInvariants {
  import opened Bytes
  import opened Manifests
  import opened Records
  import opened Decoders
  import opened Chunker
  import opened Chains

  // ---------- how far each body has come ----------

  function ORank(p: OuterPhase): nat {
    match p
    case Idle => 0 case Starting => 1 case Preparing => 2 case Reserved => 3 case Granting => 4
    case Transferring => 5 case Awaiting => 6 case Releasing => 7 case Running => 8
  }

  function CRank(p: CustodianPhase): nat {
    match p
    case CStart => 0 case CGreeted => 1 case CConfigured => 2 case CBound => 3 case CSpawned => 4 case CAnchored => 5
    case CPreparing => 6 case CPrepared => 7 case CGranted => 8 case CGranting => 9 case CTransferring => 10
    case CAwaiting => 11 case CReadied => 12 case CReleased => 13 case CReleasing => 14 case CRunning => 15 case CDone => 16
  }

  function ARank(p: AnchorPhase): nat {
    match p
    case AStart => 0 case AGreeted => 1 case AConfigured => 2 case APrepared => 3 case AGranted => 4 case ACreating => 5
    case ASpawned => 6 case AMapped => 7 case AMoved => 8 case ATransferring => 9 case AVerified => 10
    case AWorkerReady => 11 case AReadied => 12 case AReleased => 13 case AReleasing => 14 case ARunning => 15 case ADone => 16
  }

  // ---------- facts about one role alone ----------

  ghost predicate OLocal(k: Setup, o: Outer)
    requires Honest(k)
  {
    var rank := ORank(o.phase);
    && (rank >= 1 ==> o.spawn.Published?) && (o.Is(OGotHello) ==> rank >= 1) && (rank >= 2 ==> o.Is(OGotHello))
    && (o.Is(OHoldsPermit) ==> o.Is(OGotPrepared)) && (o.Is(OGotPrepared) ==> rank >= 2) && (rank >= 3 ==> o.Is(OHoldsPermit))
    && (o.Is(OTriedCreate) <==> rank >= 4) && (o.Is(OTriedRun) <==> rank >= 7)
    && (rank >= 7 ==> o.Is(OGotReady)) && (o.Is(OGotReady) ==> o.Is(OTriedCreate))
    && o.sent <= |Cargo(k)| && (rank >= 6 ==> o.sent == |Cargo(k)|)
    && (o.Is(OHasFailed) || o.Is(OIsClosing) || o.Is(OGotSeal) ==> o.Is(ORetiredRoutes))
    && (o.Is(OGotSeal) ==> o.Is(OGotHello))
    && (o.Is(OBeganWait) ==> o.Is(OIsClosing) && o.spawn.Published?) && (o.wait.Some? ==> o.Is(OBeganWait))
  }

  /** What `_producer_settled` established stays true until C ends. */
  ghost predicate ProducerFacts(c: Custodian) {
    && c.spawn.Published?
    && (c.wait == Some(Exit(HELPER_OK)) || c.wait == Some(Exit(HELPER_FAILED)))
    && c.Is(CSawAbsent) && c.Is(CGroupRetired) && c.Is(CSawEof) && c.Is(CIsShut) && c.Is(CRetiredRoutes)
    && c.work.Some? && c.work.value.producer && c.terminal == c.work && !c.Is(CIsBroken)
    && c.Is(CSawStdoutEof) && c.Is(CSawStderrEof) && !c.Is(CLostSource)
  }

  ghost predicate CGrants(k: Setup, c: Custodian) {
    var rank := CRank(c.phase);
    && (!c.spawn.NotTried? ==> rank >= 3) && (rank >= 4 ==> c.spawn.Published?)
    && (c.Is(CTriedCreate) <==> rank >= 9) && (c.Is(CTriedRun) <==> rank >= 14)
    && (c.Is(CHasFailed) || c.Is(CIsClosing) ==> c.Is(CRetiredRoutes))
    && (c.Is(CIsClosing) && !c.Is(CHasFailed) ==> c.phase.CDone?) && (c.phase.CDone? ==> c.work.Some?)
    && (c.Is(CHasWriter) ==> k.journalled) && (c.phase.CConfigured? ==> k.journalled)
    && (k.journalled && rank >= 3 ==> c.Is(CHasWriter) && c.Is(CWriterReady))
    && c.forwarded <= |c.got|
  }

  ghost predicate CCleanup(c: Custodian) {
    && (c.Is(CSentGroupDone) ==> c.Is(CGroupRetired) && c.Is(CSawAbsent)) && (c.Is(CGroupRetired) ==> c.Is(CIsClosing) && c.spawn.Published?)
    && (c.Is(CBeganWait) ==> c.Is(CGroupRetired)) && (c.wait.Some? ==> c.Is(CBeganWait)) && (c.Is(CSawAbsent) ==> c.spawn.Published? && c.Is(CIsClosing))
    && (c.Is(CIsShut) ==> c.Is(CIsClosing) && (c.spawn.Published? ==> c.Is(CBeganWait)))
    && (c.Is(CIsProducer) ==> c.Is(CHasSettled))
    && (c.Is(CHasSettled) ==> c.Is(CIsClosing) && (c.spawn.Published? ==> c.Is(CIsShut)))
    && (c.Is(CIsClosing) ==> !c.spawn.Trying?)
    && (c.terminal.Some? ==> c.terminal == c.work && c.Is(CSentGroupDone))
  }

  ghost predicate CResult(k: Setup, c: Custodian) {
    && (c.work.Some? ==>
          GoodSettlement(c.work.value) && (c.work.value.create ==> c.Is(CTriedCreate)) && (c.work.value.run ==> c.Is(CTriedRun)))
    && (c.Is(CIsProducer) ==> ProducerFacts(c))
    && (c.Is(CSentSeal) ==> c.Is(CIsProducer))
    && (c.Is(CTriedPublish) ==> c.Is(CIsProducer)) && (c.Is(CHasFence) ==> c.Is(CTriedPublish))
    && (c.Is(CTriedPublish) && !c.Is(CHasFailed) ==> c.Is(CHasFence))
    && c.outputs.0 + c.outputs.1 <= k.manifest.limit && (!k.manifest.capture ==> c.outputs == (0, 0))
  }

  ghost predicate ALocal(a: Anchor) {
    var rank := ARank(a.phase);
    && (!a.spawn.NotTried? ==> a.Is(ATriedCreate)) && (rank >= 6 ==> a.spawn.Published?)
    && (a.Is(ATriedCreate) <==> rank >= 5) && (a.Is(ATriedRun) <==> rank >= 14)
    && (a.Is(AHasFailed) || a.Is(AIsClosing) ==> a.Is(ARetiredRoutes))
    && (a.Is(AIsClosing) && !a.Is(AHasFailed) ==> a.phase.ADone?)
    && (rank >= 8 ==> a.Is(AHasMoved)) && (a.Is(AHasMoved) ==> a.spawn.Published? || (a.Is(AIsClosing) && a.Is(AHasNoChild)))
    && (a.Is(AHasNoChild) ==> a.Is(AIsClosing) && a.spawn.NotTried?) && (a.Is(AIsClosing) ==> !a.spawn.Trying?)
    && (a.Is(AIsClosing) && a.spawn.NotTried? ==> a.Is(AHasNoChild))
    && (a.Is(AWorkerIsReady) <==> rank >= 11)
    && (a.wait.Some? ==> a.Is(ABeganWait)) && (a.Is(ABeganWait) ==> a.spawn.Published? && a.Is(AHasMoved))
    && (a.Is(ASawArmed) ==> a.Is(ATriedRun)) && (a.Is(ASawRefused) ==> a.Is(ASawArmed))
    && (a.phase.ADone? ==> a.wait.Some? && a.Is(ASawArmed))
    && (a.Is(AIsShut) ==> a.Is(AIsClosing) && (a.Is(AHasNoChild) ==> a.Is(AHasMoved)))
    && a.forwarded <= |a.got|
  }

  ghost predicate AReport(a: Anchor) {
    && (a.work.Some? ==>
          var w := a.work.value;
          && a.Is(AIsShut) && GoodSettlement(w)
          && w.create == a.Is(ATriedCreate) && w.run == a.Is(ATriedRun) && w.noChild == a.Is(AHasNoChild) && w.moved == a.Is(AHasMoved)
          && w.wait == a.wait && w.armed == a.Is(ASawArmed) && w.rejected == a.Is(ASawRefused))
    && (a.Is(ASentWork) ==> a.work.Some? && a.work.value.producer)
    && (a.Is(AGotGroupDone) ==> a.Is(ASentWork)) && (a.Is(ASentDone) ==> a.Is(AGotGroupDone))
  }

  ghost predicate WDone(k: Setup, w: Worker)
    requires Honest(k)
  {
    SessionOf(k, w).Done()
  }

  ghost predicate Loaded(p: WorkerPhase) {
    p.WLoaded? || p.WReadied? || Released(p)
  }

  ghost predicate Released(p: WorkerPhase) {
    p.WReleased? || p.WArmed? || p.WTarget? || p.WRefused?
  }

  ghost predicate WLocal(k: Setup, w: Worker)
    requires Honest(k)
  {
    SessionOf(k, w).Live? && (Loaded(w.phase) ==> WDone(k, w))
  }

  // ---------- facts across roles ----------

  ghost predicate CrossOC(o: Outer, c: Custodian) {
    && (CRank(c.phase) >= 2 ==> ORank(o.phase) >= 2)
    && (CRank(c.phase) >= 8 ==> o.Is(OTriedCreate))
    && (CRank(c.phase) >= 13 ==> o.Is(OTriedRun))
  }

  ghost predicate CrossCA(c: Custodian, a: Anchor) {
    && (ARank(a.phase) >= 4 ==> c.Is(CTriedCreate))
    && (ARank(a.phase) >= 13 ==> c.Is(CTriedRun))
    && (CRank(c.phase) >= 12 || c.Is(CGotReady) ==> a.Is(AWorkerIsReady))
    && (c.work.Some? ==> c.work == a.work && a.Is(ASentWork))
    && (a.Is(AGotGroupDone) ==> c.Is(CSentGroupDone))
  }

  ghost predicate CrossAW(k: Setup, a: Anchor, w: Worker)
    requires Honest(k)
  {
    && (Released(w.phase) ==> a.Is(ATriedRun))
    && (a.Is(AWorkerIsReady) ==> WDone(k, w))
    && (a.Is(ASawRefused) ==> w.phase.WRefused?)
  }

  ghost predicate CrossOA(o: Outer, a: Anchor) {
    o.Is(OGotReady) ==> a.Is(AWorkerIsReady)
  }

  /** Everything O's `_terminal` asks of the frame by itself. */
  ghost predicate FrameSound(k: Setup, f: Terminal) {
    && (f.wait.Some? ==> GoodReceipt(f.wait.value))
    && (f.fence.Some? ==> k.journalled) && (f.producer ==> (f.fence.Some? <==> k.journalled))
    && (f.run ==> f.create)
    && (f.noTarget.Some? ==> f.producer) && (f.producer ==> f.run || f.noTarget.Some?)
    && (f.fence == Some(true) ==> f.producer)
    && (f.result ==> f.producer && f.wait.Some? && f.run && (k.journalled ==> f.fence == Some(true)))
    && f.stdout + f.stderr <= k.manifest.limit && (k.manifest.capture || (f.stdout == 0 && f.stderr == 0))
    && (f.noTarget == Some(NoWorkerCreation) ==> f.wait.None? && !f.run)
    && (f.noTarget == Some(ClosedBeforeRun) || f.noTarget == Some(ExecRejected) ==> f.wait.Some? && f.wait.value.Signal?)
    && (f.noTarget == Some(ExecRejected) ==> f.run)
  }

  ghost predicate FrameEarned(k: Setup, o: Outer, c: Custodian, f: Terminal) {
    && FrameSound(k, f) && (f.create ==> o.Is(OTriedCreate)) && (f.run ==> o.Is(OTriedRun))
    && (f.producer ==> c.Is(CSentSeal) && c.work.Some? && f.wait == c.work.value.wait && f.noTarget == NoTargetOf(c.work.value))
  }

  ghost predicate CrossFinal(k: Setup, o: Outer, c: Custodian) {
    && (o.Is(OGotSeal) ==> c.Is(CSentSeal))
    && (o.terminal.Some? ==> FrameEarned(k, o, c, o.terminal.value))
  }

  // ---------- frames in flight ----------

  ghost predicate JustOC(o: Outer, m: Message) {
    && (m.Config? ==> ORank(o.phase) >= 2)
    && (m.CreateW? ==> o.Is(OTriedCreate)) && (m.RunTool? ==> o.Is(OTriedRun))
  }

  ghost predicate JustCA(c: Custodian, m: Message) {
    && (m.CreateW? ==> c.Is(CTriedCreate)) && (m.RunTool? ==> c.Is(CTriedRun)) && (m.GroupDone? ==> c.Is(CSentGroupDone))
  }

  ghost predicate JustAW(a: Anchor, m: Message) {
    m.RunTool? ==> a.Is(ATriedRun)
  }

  ghost predicate JustWA(k: Setup, w: Worker, m: Message)
    requires Honest(k)
  {
    (m.Ready? ==> WDone(k, w)) && (m.ExecRefused? ==> w.phase.WRefused?)
  }

  ghost predicate JustAC(a: Anchor, m: Message) {
    && (m.Ready? ==> a.Is(AWorkerIsReady))
    && (m.WorkDone? ==> a.Is(ASentWork) && a.work == Some(m.settlement))
    && (m.AnchorDone? ==> a.Is(ASentDone) && a.work == Some(m.settlement))
  }

  ghost predicate JustCO(k: Setup, o: Outer, c: Custodian, a: Anchor, m: Message) {
    && (m.Ready? ==> a.Is(AWorkerIsReady))
    && (m.Sealed? ==> c.Is(CSentSeal))
    && (m.Final? ==> FrameEarned(k, o, c, m.terminal))
  }

  ghost predicate LinkOC(o: Outer, l: Link) { forall m :: m in l ==> JustOC(o, m) }
  ghost predicate LinkCA(c: Custodian, l: Link) { forall m :: m in l ==> JustCA(c, m) }
  ghost predicate LinkAW(a: Anchor, l: Link) { forall m :: m in l ==> JustAW(a, m) }
  ghost predicate LinkWA(k: Setup, w: Worker, l: Link) requires Honest(k) { forall m :: m in l ==> JustWA(k, w, m) }
  ghost predicate LinkAC(a: Anchor, l: Link) { forall m :: m in l ==> JustAC(a, m) }
  ghost predicate LinkCO(k: Setup, o: Outer, c: Custodian, a: Anchor, l: Link) { forall m :: m in l ==> JustCO(k, o, c, a, m) }

  /** The seal precedes every frame that claims a settled producer. */
  predicate SealFirst(l: Link, sealed: bool)
    decreases |l|
  {
    l == [] || ((l[0].Final? && l[0].terminal.producer ==> sealed) && SealFirst(l[1..], sealed || l[0].Sealed?))
  }

  predicate Seals(l: Link) { exists i :: 0 <= i < |l| && l[i].Sealed? }

  ghost predicate Order(o: Outer, c: Custodian, l: Link) {
    SealFirst(l, o.Is(OGotSeal)) && (c.Is(CSentSeal) ==> o.Is(OGotSeal) || Seals(l))
  }

  // ---------- the record on its way ----------

  function DataOf(l: Link): seq<seq<byte>> {
    if l == [] then [] else DataOf(l[..|l| - 1]) + (if l[|l| - 1].Data? then [l[|l| - 1].bytes] else [])
  }

  ghost predicate FlowOC(k: Setup, o: Outer, c: Custodian, l: Link)
    requires Honest(k)
  {
    o.sent <= |Cargo(k)| && c.got + DataOf(l) == Cargo(k)[..o.sent]
  }

  ghost predicate FlowCA(c: Custodian, a: Anchor, l: Link) {
    c.forwarded <= |c.got| && a.got + DataOf(l) == c.got[..c.forwarded]
  }

  ghost predicate FlowAW(a: Anchor, w: Worker, l: Link) {
    a.forwarded <= |a.got| && w.fed + DataOf(l) == a.got[..a.forwarded]
  }

  // ---------- processes ----------

  ghost predicate ProcC(o: Outer, c: Custodian, cp: Process) {
    && (o.spawn.NotTried? ==> cp.Unborn?) && (o.spawn.Published? ==> !cp.Unborn?)
    && (cp.Unborn? ==> c.spawn.NotTried? && !c.Is(CIsClosing) && CRank(c.phase) == 0)
    && (forall r :: o.wait == Some(r) ==> cp == Reaped(r))
    && (cp.Reaped? ==> o.wait.Some?)
    && (Ended(cp) && (cp.receipt == Exit(HELPER_OK) || cp.receipt == Exit(HELPER_FAILED)) ==>
          c.Is(CSentFinal) && c.Is(CIsProducer))
  }

  ghost predicate ProcA(c: Custodian, a: Anchor, ap: Process) {
    && (c.spawn.NotTried? ==> ap.Unborn?) && (c.spawn.Published? ==> !ap.Unborn?)
    && (ap.Unborn? ==> a.spawn.NotTried? && !a.Is(AIsClosing) && ARank(a.phase) == 0)
    && (forall r :: c.wait == Some(r) ==> ap == Reaped(r))
    && (ap.Reaped? ==> c.wait.Some?)
    && (Ended(ap) && (ap.receipt == Exit(HELPER_OK) || ap.receipt == Exit(HELPER_FAILED)) ==>
          a.Is(AGotGroupDone) && a.Is(ASentDone) && (ap.receipt == Exit(HELPER_OK) ==> !a.Is(AHasFailed)))
  }

  /** Only A reaps W, unless A ended before and left W to the system. */
  ghost predicate ProcW(a: Anchor, w: Worker, ap: Process, wp: Process) {
    && (a.spawn.NotTried? ==> wp.Unborn?) && (a.spawn.Published? ==> !wp.Unborn?)
    && (wp.Unborn? ==> w.phase.WStart?)
    && (forall r :: a.wait == Some(r) ==> wp == Reaped(r))
    && (wp.Reaped? ==> a.wait.Some? || Ended(ap))
    && (Ended(wp) ==> GoodReceipt(wp.receipt))
  }

  ghost predicate Group(s: State) {
    s.c.Is(CSawAbsent) ==> GroupEmpty(s)
  }

  ghost predicate Locals(k: Setup, s: State)
    requires Honest(k)
  {
    OLocal(k, s.o) && CGrants(k, s.c) && CCleanup(s.c) && CResult(k, s.c) && ALocal(s.a) && AReport(s.a) && WLocal(k, s.w)
  }

  ghost predicate Crosses(k: Setup, s: State)
    requires Honest(k)
  {
    CrossOC(s.o, s.c) && CrossCA(s.c, s.a) && CrossAW(k, s.a, s.w) && CrossOA(s.o, s.a) && CrossFinal(k, s.o, s.c)
  }

  ghost predicate Links(k: Setup, s: State)
    requires Honest(k)
  {
    && LinkOC(s.o, s.oc) && LinkCA(s.c, s.ca) && LinkAW(s.a, s.aw)
    && LinkWA(k, s.w, s.wa) && LinkAC(s.a, s.ac) && LinkCO(k, s.o, s.c, s.a, s.co) && Order(s.o, s.c, s.co)
  }

  ghost predicate Flows(k: Setup, s: State)
    requires Honest(k)
  {
    FlowOC(k, s.o, s.c, s.oc) && FlowCA(s.c, s.a, s.ca) && FlowAW(s.a, s.w, s.aw)
  }

  ghost predicate Processes(s: State) {
    ProcC(s.o, s.c, s.cp) && ProcA(s.c, s.a, s.ap) && ProcW(s.a, s.w, s.ap, s.wp) && Group(s)
  }

  ghost predicate Inv(k: Setup, s: State)
    requires Honest(k)
  {
    Locals(k, s) && Crosses(k, s) && Links(k, s) && Flows(k, s) && Processes(s)
  }
}
