/**
 The owned-command chain as a state machine over four processes and six FIFO
 links: O (the caller) runs C (the custodian), C runs A (the anchor of the
 command's process group), A runs W (the worker that becomes the command).

 One action is one step of one role, or one step of the operating system. A
 failure, a signal, a lost peer or a passed deadline may strike at any step.
 */
module Chains {
  import opened Bytes
  import opened Manifests
  import opened Records
  import opened Decoders
  import opened Chunker

  // ---------- processes and receipts ----------

  datatype Receipt = Exit(code: nat) | Signal(number: nat)

  const HELPER_OK: nat := 0
  const HELPER_FAILED: nat := 2
  const HELPER_UNKNOWN: nat := 70
  const SIGNALS: nat := 65

  predicate GoodReceipt(r: Receipt) {
    match r case Exit(code) => code <= 255 case Signal(number) => 1 <= number < SIGNALS
  }

  datatype Process = Unborn | Alive | Zombie(receipt: Receipt) | Reaped(receipt: Receipt)

  /** The one creation a role may attempt: the attempt is recorded before the process can exist. */
  datatype Spawn = NotTried | Trying | Published | Lost

  // ---------- messages ----------

  datatype Settlement = Settlement(
    create: bool, run: bool, noChild: bool, moved: bool, wait: Option<Receipt>,
    armed: bool, rejected: bool, producer: bool, result: bool)

  /** `_settlement_fields`: what A itself checks before it sends, and C again when it receives. */
  predicate GoodSettlement(s: Settlement) {
    && (s.wait.Some? ==> GoodReceipt(s.wait.value))
    && !(s.noChild && s.wait.Some?)
    && (s.run ==> s.create) && (s.armed ==> s.run) && (s.rejected ==> s.armed)
    && (s.producer ==>
      && s.moved && (s.noChild || s.wait.Some?)
      && (if s.noChild then !s.run && !s.armed && !s.rejected
          else s.wait.value.Exit? ==> s.run && s.armed && !s.rejected)
      && (s.rejected ==> s.wait.Some? && s.wait.value.Signal?))
    && (s.result ==> s.producer && (s.run ==> s.armed))
  }

  datatype NoTarget = NoWorkerCreation | ClosedBeforeRun | ExecRejected

  datatype Terminal = Terminal(
    create: bool, run: bool, noTarget: Option<NoTarget>, wait: Option<Receipt>,
    producer: bool, result: bool, stdout: nat, stderr: nat, fence: Option<bool>)

  datatype Message =
    | Hello | Config | Binding | Prepared | CreateW | Announce | Data(bytes: seq<byte>) | Ready | RunTool
    | ExecArmed | ExecRefused | WorkDone(settlement: Settlement) | GroupDone | AnchorDone(settlement: Settlement)
    | Sealed | Final(terminal: Terminal) | Stop

  type Link = seq<Message>

  // ---------- the four roles ----------

  // A role is its place in its body, its one creation, what it once recorded (the
  // flags are latches: nothing ever clears one), and the values it still needs.

  datatype OuterPhase = Idle | Starting | Preparing | Reserved | Granting | Transferring | Awaiting | Releasing | Running

  datatype OuterFlag =
    | OHasFailed | OIsClosing | OGotHello | OSentBinding | OGotPrepared | OHoldsPermit | OTriedCreate | OTriedRun
    | ORetiredRoutes | OSentManifest | OGotReady | OGotSeal | OIsBroken | OSawEof | OSawStdoutEof | OSawStderrEof
    | OLostOutput | OIsShut | OBeganWait | OIsUnknown

  datatype Outer = Outer(
    phase: OuterPhase, spawn: Spawn, flags: set<OuterFlag>, sent: nat,
    terminal: Option<Terminal>, outputs: (nat, nat), wait: Option<Receipt>)
  {
    predicate Is(f: OuterFlag) { f in flags }
    function Set(fs: set<OuterFlag>): Outer { this.(flags := flags + fs) }
  }

  datatype CustodianPhase =
    | CStart | CGreeted | CConfigured | CBound | CSpawned | CAnchored | CPreparing | CPrepared | CGranted | CGranting
    | CTransferring | CAwaiting | CReadied | CReleased | CReleasing | CRunning | CDone

  datatype CustodianFlag =
    | CHasFailed | CIsClosing | CHasWriter | CWriterReady | CGotPrepared | CGotReady | CTriedCreate | CTriedRun
    | CRetiredRoutes | CGotManifest | CPassedManifest | CIsBroken | CSawEof | CSawAbsent | CGroupRetired | CSentGroupDone
    | CBeganWait | CSawStdoutEof | CSawStderrEof | CLostSource | COverflowed | CIsShut | CHasSettled | CIsProducer
    | CSentSeal | CTriedPublish | CHasFence | CSentFinal | CIsUnknown | CIsFinished

  datatype Custodian = Custodian(
    phase: CustodianPhase, spawn: Spawn, flags: set<CustodianFlag>, got: seq<seq<byte>>, forwarded: nat,
    work: Option<Settlement>, terminal: Option<Settlement>, wait: Option<Receipt>, outputs: (nat, nat))
  {
    predicate Is(f: CustodianFlag) { f in flags }
    function Set(fs: set<CustodianFlag>): Custodian { this.(flags := flags + fs) }
  }

  datatype AnchorPhase =
    | AStart | AGreeted | AConfigured | APrepared | AGranted | ACreating | ASpawned | AMapped | AMoved | ATransferring
    | AVerified | AWorkerReady | AReadied | AReleased | AReleasing | ARunning | ADone

  datatype AnchorFlag =
    | AHasFailed | AIsClosing | ATriedCreate | ATriedRun | ARetiredRoutes | AHasMoved | AGotManifest | APassedManifest
    | AWorkerIsReady | ASawArmed | ASawRefused | AIsBroken | ASawEof | ABeganWait | AHasNoChild | AIsShut
    | ASentWork | AGotGroupDone | ASentDone | AIsFinished

  datatype Anchor = Anchor(
    phase: AnchorPhase, spawn: Spawn, flags: set<AnchorFlag>, got: seq<seq<byte>>, forwarded: nat,
    wait: Option<Receipt>, work: Option<Settlement>)
  {
    predicate Is(f: AnchorFlag) { f in flags }
    function Set(fs: set<AnchorFlag>): Anchor { this.(flags := flags + fs) }
  }

  datatype WorkerPhase = WStart | WGreeted | WConfigured | WLoading | WLoaded | WReadied | WReleased | WArmed | WTarget | WRefused | WStuck

  datatype Worker = Worker(phase: WorkerPhase, fed: seq<seq<byte>>)

  // ---------- the whole ----------

  /** What O froze before anything was created; the digest function is a parameter. */
  datatype Setup = Setup(sha: Hash, manifest: Manifest, command: Command, journalled: bool)

  ghost predicate Honest(k: Setup) {
    Frozen(k.sha, k.manifest, k.command)
  }

  /** The relays forward until the announced size is reached and the digest agrees. */
  predicate AllRelayed(k: Setup, got: seq<seq<byte>>) {
    |Flatten(got)| == k.manifest.recordBytes && k.sha(Flatten(got)) == k.manifest.digest
  }

  function Cargo(k: Setup): seq<seq<byte>>
    requires Honest(k)
  {
    Cut(Record(k.command))
  }

  datatype State = State(
    o: Outer, c: Custodian, a: Anchor, w: Worker,
    cp: Process, ap: Process, wp: Process, descendants: bool,
    oc: Link, co: Link, ca: Link, ac: Link, aw: Link, wa: Link)

  const Initial := State(
    Outer(Idle, NotTried, {}, 0, None, (0, 0), None), Custodian(CStart, NotTried, {}, [], 0, None, None, None, (0, 0)),
    Anchor(AStart, NotTried, {}, [], 0, None, None), Worker(WStart, []),
    Unborn, Unborn, Unborn, false, [], [], [], [], [], [])

  /** The group G: A until it moves away, W until it is reaped, and what W left behind. */
  predicate GroupEmpty(s: State) {
    && (s.ap.Unborn? || s.ap.Reaped? || s.a.Is(AHasMoved))
    && (s.wp.Unborn? || s.wp.Reaped?)
    && !s.descendants
  }

  predicate Ended(p: Process) { p.Zombie? || p.Reaped? }

  function Failing(o: Outer): Outer { o.Set({OHasFailed, ORetiredRoutes}) }
  function CFailing(c: Custodian): Custodian { c.Set({CHasFailed, CRetiredRoutes}) }
  function AFailing(a: Anchor): Anchor { a.Set({AHasFailed, ARetiredRoutes}) }

  // ---------- O ----------

  /** The decisive reservation that the one-use create permit is issued and consumed under. */
  predicate Reservation(k: Setup, s: State) {
    && s.o.Is(OGotPrepared) && s.o.spawn.Published? && !s.o.Is(OBeganWait) && !s.o.Is(ORetiredRoutes) && !s.o.Is(OSawEof) && !s.o.Is(OIsBroken) && !s.o.Is(OGotSeal)
    && !s.o.Is(OTriedCreate) && !s.o.Is(OTriedRun)
  }

  datatype OuterAction =
    | OSpawn | OPublish | OLose | OConfigure | OBind | OReserve | OAttemptCreate | ODeliverCreate | OAnnounce | OSendData
    | OAwait | OAttemptRun | ODeliverRun | OReceive | OBreak | OEof | OOutput(second: bool, size: nat) | OOutputEof(second: bool)
    | OFail | OClose | OStop | OShut | OBeginWait | OWait | OUnknown

  predicate OuterEnabled(k: Setup, s: State, a: OuterAction)
    requires Honest(k)
  {
    var o := s.o;
    var body := !o.Is(OHasFailed) && !o.Is(OIsClosing);
    match a
    case OSpawn => body && o.phase.Idle? && o.spawn.NotTried?
    case OPublish => o.spawn.Trying? && !s.cp.Unborn?
    case OLose => o.spawn.Trying? && (o.Is(OHasFailed) || o.Is(OIsClosing))
    case OConfigure => body && o.phase.Starting? && o.Is(OGotHello)
    case OBind => body && o.phase.Preparing? && k.journalled && !o.Is(OSentBinding)
    case OReserve => body && o.phase.Preparing? && (k.journalled ==> o.Is(OSentBinding)) && Reservation(k, s)
    case OAttemptCreate => body && o.phase.Reserved? && !o.Is(ORetiredRoutes)
    case ODeliverCreate => body && o.phase.Granting? && !o.Is(ORetiredRoutes)
    case OAnnounce => body && o.phase.Transferring? && !o.Is(OSentManifest)
    case OSendData => body && o.phase.Transferring? && o.Is(OSentManifest) && o.sent < |Cargo(k)|
    case OAwait => body && o.phase.Transferring? && o.Is(OSentManifest) && o.sent == |Cargo(k)|
    case OAttemptRun => body && o.phase.Awaiting? && o.Is(OGotReady) && !o.Is(OGotSeal) && !o.Is(ORetiredRoutes)
    case ODeliverRun => body && o.phase.Releasing? && !o.Is(ORetiredRoutes)
    case OReceive => s.co != [] && !o.Is(OIsBroken)
    case OBreak => true
    case OEof => (s.co == [] || o.Is(OIsBroken)) && (s.c.Is(CIsFinished) || Ended(s.cp))
    case OOutput(_, _) => true
    case OOutputEof(_) => true
    case OFail => true
    case OClose => !o.Is(OIsClosing) && !o.spawn.Trying?
               && (o.Is(OHasFailed) || (o.phase.Running? && o.terminal.Some? && o.Is(OSawEof) && o.Is(OSawStdoutEof) && o.Is(OSawStderrEof)
                                && !o.Is(OIsBroken) && !o.Is(OLostOutput)))
    case OStop => o.Is(OIsClosing) && o.terminal.None? && !o.Is(OIsShut) && o.spawn.Published?
    case OShut => o.Is(OIsClosing) && !o.Is(OIsShut)
    case OBeginWait => o.Is(OIsClosing) && o.Is(OIsShut) && o.spawn.Published? && !o.Is(OBeganWait)
    case OWait => o.Is(OBeganWait) && o.wait.None? && s.cp.Zombie?
    case OUnknown => true
  }

  /** `_terminal`: O's cross-checks of the custodian's last frame against what O itself granted and saw. */
  predicate TerminalAdmissible(k: Setup, o: Outer, f: Terminal) {
    && (f.wait.Some? ==> GoodReceipt(f.wait.value))
    && f.stdout <= OUTPUT_LIMIT && f.stderr <= OUTPUT_LIMIT
    && (f.fence.Some? <==> k.journalled)
    && (f.run ==> f.create)
    && (f.create ==> o.Is(OTriedCreate) && o.Is(OGotPrepared))
    && (f.run ==> o.Is(OTriedRun) && o.Is(OGotReady))
    && (f.producer ==> o.Is(OGotSeal))
    && (f.noTarget.Some? ==> f.producer)
    && (f.producer ==> f.run || f.noTarget.Some?)
    && (f.fence == Some(true) ==> f.producer)
    && (f.result ==> f.producer && f.wait.Some? && f.run && o.Is(OGotReady) && (k.journalled ==> f.fence == Some(true)))
    && f.stdout + f.stderr <= k.manifest.limit
    && (k.manifest.capture || (f.stdout == 0 && f.stderr == 0))
    && (f.noTarget == Some(NoWorkerCreation) ==> f.wait.None? && !f.run)
    && (f.noTarget == Some(ClosedBeforeRun) || f.noTarget == Some(ExecRejected) ==> f.wait.Some? && f.wait.value.Signal?)
    && (f.noTarget == Some(ExecRejected) ==> f.run)
  }

  /** `_frame` at O; a refused frame stays unread and breaks the protocol for good. */
  function OuterReceives(k: Setup, o: Outer, m: Message): (r: Option<Outer>)
    ensures r.Some? ==> r.value.sent == o.sent && r.value.wait == o.wait && r.value.spawn == o.spawn && r.value.phase == o.phase
  {
    if m.Hello? && o.phase.Starting? && !o.Is(OGotHello) && o.spawn.Published? && !o.Is(OBeganWait) then Some(o.Set({OGotHello}))
    else if m.Prepared? && o.phase.Preparing? && !o.Is(OGotPrepared) then Some(o.Set({OGotPrepared}))
    else if m.Ready? && (o.phase.Transferring? || o.phase.Awaiting?) && o.Is(OTriedCreate) && !o.Is(OGotReady) && !o.Is(OGotSeal)
    then Some(o.Set({OGotReady}))
    else if m.Sealed? && o.Is(OGotHello) && !o.Is(OGotSeal) && o.terminal.None? then Some(o.Set({OGotSeal, ORetiredRoutes}))
    else if m.Final? && o.Is(OGotHello) && o.terminal.None? && TerminalAdmissible(k, o, m.terminal)
    then Some(o.(terminal := Some(m.terminal)))
    else None
  }

  function OuterStep(k: Setup, s: State, a: OuterAction): State
    requires Honest(k) && OuterEnabled(k, s, a)
  {
    var o := s.o;
    match a
    case OSpawn => s.(o := o.(spawn := Trying))
    case OPublish => s.(o := o.(spawn := Published, phase := if o.phase.Idle? then Starting else o.phase))
    case OLose => s.(o := o.(spawn := Lost))
    case OConfigure => s.(o := o.(phase := Preparing), oc := s.oc + [Config])
    case OBind => s.(o := o.Set({OSentBinding}), oc := s.oc + [Binding])
    case OReserve => s.(o := o.(phase := Reserved).Set({OHoldsPermit}))
    case OAttemptCreate => s.(o := o.(phase := Granting).Set({OTriedCreate}))
    case ODeliverCreate => s.(o := o.(phase := Transferring), oc := s.oc + [CreateW])
    case OAnnounce => s.(o := o.Set({OSentManifest}), oc := s.oc + [Announce])
    case OSendData => s.(o := o.(sent := o.sent + 1), oc := s.oc + [Data(Cargo(k)[o.sent])])
    case OAwait => s.(o := o.(phase := Awaiting))
    case OAttemptRun => s.(o := o.(phase := Releasing).Set({OTriedRun}))
    case ODeliverRun => s.(o := o.(phase := Running), oc := s.oc + [RunTool])
    case OReceive =>
      (var r := OuterReceives(k, o, s.co[0]);
       if r.Some? then s.(o := r.value, co := s.co[1..]) else s.(o := Failing(o).Set({OIsBroken})))
    case OBreak => s.(o := Failing(o).Set({OIsBroken}))
    case OEof => s.(o := o.Set({OSawEof}))
    case OOutput(second, size) =>
      s.(o := o.(outputs := if second then (o.outputs.0, o.outputs.1 + size) else (o.outputs.0 + size, o.outputs.1)))
    case OOutputEof(second) => s.(o := o.Set(if second then {OSawStderrEof} else {OSawStdoutEof}))
    case OFail => s.(o := Failing(o))
    case OClose => s.(o := o.Set({OIsClosing, ORetiredRoutes}))
    case OStop => s.(oc := s.oc + [Stop])
    case OShut => s.(o := o.Set({OIsShut}))
    case OBeginWait => s.(o := o.Set({OBeganWait}))
    case OWait => s.(o := o.(wait := Some(s.cp.receipt)), cp := Reaped(s.cp.receipt))
    case OUnknown => s.(o := Failing(o).Set({OIsUnknown}))
  }

  /** `original_finality` for a created C. */
  predicate Finality(s: State) {
    var o := s.o;
    && o.Is(OIsClosing) && !o.Is(OIsUnknown) && o.spawn.Published?
    && (o.wait == Some(Exit(HELPER_OK)) || o.wait == Some(Exit(HELPER_FAILED)))
    && o.terminal.Some? && o.terminal.value.producer && o.Is(OGotSeal)
    && o.Is(OSawEof) && !o.Is(OIsBroken) && o.Is(OSawStdoutEof) && o.Is(OSawStderrEof) && !o.Is(OLostOutput)
    && o.outputs == (o.terminal.value.stdout, o.terminal.value.stderr)
  }

  // ---------- C ----------

  /** Frames C's body sends. */
  datatype CustodianSend =
    | CGreet | CConfigure | CForwardPrepared | CDeliverCreate | CForwardManifest | CForwardData | CForwardReady | CDeliverRun

  /** Steps of C's body and creator that send nothing. */
  datatype CustodianMove =
    | CPrepareWriter(ok: bool) | CSpawn | CPublish | CLose | CAttemptCreate | CVerify | CAttemptRun | CFinishBody

  /** What C may observe at any time. */
  datatype CustodianWatch =
    | CAnchorBreak | CAnchorEof | CSourceEof(second: bool) | CSourceFail | CFail | CUnknown

  /** C's settlement of its producers. */
  datatype CustodianClean =
    | CClose | CStop | CSignalGroup(absent: bool) | CRetireGroup | CGroupDone | CKillAnchor | CBeginWait | CWait | CShut

  /** C's last lines: seal, fence, final frame, exit. */
  datatype CustodianEnd =
    | CSettle | CSeal | CPublishFence(ok: bool) | CFinal(relay: bool) | CCloseUp | CExit(clean: bool)

  datatype CustodianAction =
    | CSend(send: CustodianSend) | CMove(move: CustodianMove) | CWatch(watch: CustodianWatch) | CClean(clean: CustodianClean) | CEnd(end: CustodianEnd)
    | CReceive | CHear | CSource(stderr: bool, size: nat)

  /** `_AnchorGroup.check`, made before `terminate` and `probe` alike: the only states in which the group may be signalled or probed. */
  predicate GroupUsable(c: Custodian) {
    c.Is(CIsClosing) && c.spawn.Published? && !c.Is(CGroupRetired) && !c.Is(CBeganWait)
  }

  /** Where C's body waits for a frame of O: between them it only watches for the end of the stream. */
  predicate ReadsOuter(c: Custodian) {
    || c.phase.CGreeted? || (c.phase.CConfigured? && !c.Is(CHasWriter)) || c.phase.CPrepared?
    || (c.phase.CTransferring? && (!c.Is(CGotManifest) || (c.Is(CPassedManifest) && c.forwarded == |c.got|)))
    || c.phase.CReadied? || c.phase.CRunning?
  }

  predicate ReadsAnchor(p: CustodianPhase) {
    p.CSpawned? || p.CPreparing? || p.CAwaiting? || p.CRunning?
  }

  predicate CustodianSendEnabled(k: Setup, s: State, x: CustodianSend) {
    var c := s.c;
    var body := !c.Is(CHasFailed) && !c.Is(CIsClosing);
    match x
    case CGreet => body && c.phase.CStart?
    case CConfigure => body && c.phase.CAnchored?
    case CForwardPrepared => body && c.phase.CPreparing? && c.Is(CGotPrepared) && c.work.None?
    case CDeliverCreate => body && c.phase.CGranting? && !c.Is(CRetiredRoutes)
    case CForwardManifest => body && c.phase.CTransferring? && c.Is(CGotManifest) && !c.Is(CPassedManifest)
    case CForwardData => body && c.phase.CTransferring? && c.Is(CPassedManifest) && c.forwarded < |c.got|
    case CForwardReady => body && c.phase.CAwaiting? && c.Is(CGotReady) && c.work.None?
    case CDeliverRun => body && c.phase.CReleasing? && !c.Is(CRetiredRoutes)
  }

  predicate CustodianMoveEnabled(k: Setup, s: State, x: CustodianMove) {
    var c := s.c;
    var body := !c.Is(CHasFailed) && !c.Is(CIsClosing);
    match x
    case CPrepareWriter(_) => body && c.phase.CConfigured? && c.Is(CHasWriter) && !c.Is(CWriterReady)
    case CSpawn => body && c.phase.CBound? && c.spawn.NotTried?
    case CPublish => c.spawn.Trying? && !s.ap.Unborn?
    case CLose => c.spawn.Trying? && (c.Is(CHasFailed) || c.Is(CIsClosing))
    case CAttemptCreate => body && c.phase.CGranted? && !c.Is(CRetiredRoutes)
    case CVerify => body && c.phase.CTransferring? && c.Is(CPassedManifest) && c.forwarded == |c.got| && AllRelayed(k, c.got)
    case CAttemptRun => body && c.phase.CReleased? && !c.Is(CRetiredRoutes)
    case CFinishBody => body && c.phase.CRunning? && c.work.Some?
  }

  predicate CustodianWatchEnabled(k: Setup, s: State, x: CustodianWatch) {
    var c := s.c;
    match x
    case CAnchorBreak => !c.Is(CIsShut)
    case CAnchorEof => (s.ac == [] || c.Is(CIsBroken)) && (s.a.Is(AIsFinished) || Ended(s.ap)) && !c.Is(CIsShut)
    case CSourceEof(_) => !c.Is(CHasSettled)
    case CSourceFail => !c.Is(CHasSettled)
    case CFail => true
    case CUnknown => true
  }

  predicate CustodianCleanEnabled(k: Setup, s: State, x: CustodianClean) {
    var c := s.c;
    match x
    case CClose => !c.Is(CIsClosing) && !c.spawn.Trying? && (c.Is(CHasFailed) || c.phase.CDone?)
    case CStop => c.Is(CIsClosing) && c.work.None? && !c.Is(CIsShut) && c.spawn.Published? && !c.Is(CGroupRetired)
    case CSignalGroup(absent) => GroupUsable(c) && (absent ==> GroupEmpty(s))
    case CRetireGroup => c.Is(CIsClosing) && c.spawn.Published?
    case CGroupDone =>
      c.Is(CGroupRetired) && !c.Is(CSentGroupDone) && !c.Is(CBeganWait) && c.Is(CSawAbsent) && c.work.Some? && c.work.value.producer && !c.Is(CIsBroken) && !c.Is(CIsShut)
    case CKillAnchor => c.Is(CGroupRetired) && c.terminal.None? && !c.Is(CBeganWait) && c.spawn.Published?
    case CBeginWait => c.Is(CGroupRetired) && c.spawn.Published? && !c.Is(CBeganWait)
    case CWait => c.Is(CBeganWait) && c.wait.None? && s.ap.Zombie?
    case CShut => c.Is(CIsClosing) && !c.Is(CIsShut) && (c.spawn.Published? ==> c.Is(CBeganWait))
  }

  predicate CustodianEndEnabled(k: Setup, s: State, x: CustodianEnd) {
    var c := s.c;
    match x
    case CSettle => c.Is(CIsClosing) && !c.Is(CHasSettled) && (c.spawn.Published? ==> c.Is(CIsShut))
    case CSeal => c.Is(CIsProducer) && !c.Is(CSentSeal) && !c.Is(CTriedPublish) && !c.Is(CSentFinal)
    case CPublishFence(_) => c.Is(CIsProducer) && c.Is(CHasWriter) && c.Is(CWriterReady) && !c.Is(CTriedPublish) && !c.Is(CSentFinal)
    case CFinal(_) =>
      c.Is(CHasSettled) && !c.Is(CSentFinal)
      && (c.Is(CIsProducer) ==> c.Is(CSentSeal) && (c.Is(CHasWriter) && c.Is(CWriterReady) ==> c.Is(CTriedPublish)))
    case CCloseUp => c.Is(CHasSettled)
    case CExit(_) => c.Is(CIsFinished)
  }

  predicate CustodianEnabled(k: Setup, s: State, act: CustodianAction) {
    var c := s.c;
    s.cp.Alive? && (c.Is(CIsFinished) ==> act.CEnd? && act.end.CExit?) &&
    match act
    case CSend(x) => CustodianSendEnabled(k, s, x)
    case CMove(x) => CustodianMoveEnabled(k, s, x)
    case CWatch(x) => CustodianWatchEnabled(k, s, x)
    case CClean(x) => CustodianCleanEnabled(k, s, x)
    case CEnd(x) => CustodianEndEnabled(k, s, x)
    case CReceive => !c.Is(CHasFailed) && !c.Is(CIsClosing) && ReadsOuter(c) && s.oc != []
    case CHear => (ReadsAnchor(c.phase) || c.Is(CIsClosing)) && s.ac != [] && !c.Is(CIsBroken) && !c.Is(CIsShut)
    case CSource(_, _) => k.manifest.capture && !c.Is(CHasSettled)
  }

  /** `_producer_settled`. */
  predicate ProducerSettled(c: Custodian) {
    && c.spawn.Published?
    && (c.wait == Some(Exit(HELPER_OK)) || c.wait == Some(Exit(HELPER_FAILED)))
    && c.Is(CSawAbsent) && c.Is(CGroupRetired) && c.Is(CSawEof) && c.Is(CIsShut)
    && c.work.Some? && c.work.value.producer && c.terminal == c.work && !c.Is(CIsBroken)
    && c.Is(CSawStdoutEof) && c.Is(CSawStderrEof) && !c.Is(CLostSource) && c.Is(CRetiredRoutes) && !c.Is(CIsUnknown)
  }

  /** Frames C accepts from O, one by one in its body's order. */
  function CustodianReceives(k: Setup, c: Custodian, m: Message): Option<Custodian> {
    if m.Config? && c.phase.CGreeted? then Some(c.(phase := if k.journalled then CConfigured else CBound))
    else if m.Binding? && c.phase.CConfigured? && !c.Is(CHasWriter) then Some(c.Set({CHasWriter}))
    else if m.CreateW? && c.phase.CPrepared? then Some(c.(phase := CGranted))
    else if m.Announce? && c.phase.CTransferring? && !c.Is(CGotManifest) then Some(c.Set({CGotManifest}))
    else if m.Data? && c.phase.CTransferring? && c.Is(CPassedManifest) && c.forwarded == |c.got| then Some(c.(got := c.got + [m.bytes]))
    else if m.RunTool? && c.phase.CReadied? then Some(c.(phase := CReleased))
    else None
  }

  predicate Anchored(p: CustodianPhase) {
    !p.CStart? && !p.CGreeted? && !p.CConfigured? && !p.CBound? && !p.CSpawned?
  }

  /** `_anchor_frame`: HELLO is admitted by the body, everything else in any phase after it. */
  function CustodianHears(c: Custodian, m: Message): Option<Custodian> {
    if m.Hello? && c.phase.CSpawned? && !c.Is(CIsClosing) then Some(c.(phase := CAnchored))
    else if !Anchored(c.phase) then None
    else if c.work.Some? then
      if m.AnchorDone? && c.Is(CSentGroupDone) && c.Is(CGroupRetired) && c.work == Some(m.settlement) && c.terminal.None?
         && GoodSettlement(m.settlement)
      then Some(c.(terminal := Some(m.settlement))) else None
    else if c.Is(CSentGroupDone) then None
    else if m.Prepared? && c.phase.CPreparing? && !c.Is(CGotPrepared) then Some(c.Set({CGotPrepared}))
    else if m.Ready? && (c.phase.CGranting? || c.phase.CTransferring? || c.phase.CAwaiting?) && !c.Is(CGotReady)
    then Some(c.Set({CGotReady}))
    else if m.WorkDone? && GoodSettlement(m.settlement)
            && (m.settlement.create ==> c.Is(CTriedCreate)) && (m.settlement.run ==> c.Is(CTriedRun))
    then Some(c.(work := Some(m.settlement)))
    else None
  }

  /** Output is kept only up to the limit; anything more is an overflow. */
  function Kept(limit: nat, outputs: (nat, nat), size: nat): (kept: nat)
    ensures kept <= size && (outputs.0 + outputs.1 <= limit ==> outputs.0 + outputs.1 + kept <= limit)
  {
    var left := if outputs.0 + outputs.1 < limit then limit - outputs.0 - outputs.1 else 0;
    if size < left then size else left
  }

  function Keeping(limit: nat, c: Custodian, stderr: bool, size: nat): Custodian {
    var kept := Kept(limit, c.outputs, size);
    var more := c.(outputs := if stderr then (c.outputs.0, c.outputs.1 + kept) else (c.outputs.0 + kept, c.outputs.1));
    if kept < size then CFailing(more).Set({COverflowed}) else more
  }

  function NoTargetOf(w: Settlement): Option<NoTarget> {
    if w.noChild then Some(NoWorkerCreation)
    else if !w.run then Some(ClosedBeforeRun)
    else if w.rejected && w.result then Some(ExecRejected)
    else None
  }

  /** The verdict of `finish`. It never looks at the fence. */
  predicate Verdict(c: Custodian, relay: bool) {
    && c.Is(CIsProducer) && c.work.Some? && c.work.value.result && !c.Is(COverflowed)
    && c.wait == Some(Exit(HELPER_OK)) && !c.Is(CLostSource) && relay && !c.Is(CHasFailed)
  }

  function FinalFrame(c: Custodian, relay: bool): Terminal {
    var producer := c.Is(CIsProducer);
    Terminal(c.Is(CTriedCreate), c.Is(CTriedRun),
             if producer && c.work.Some? then NoTargetOf(c.work.value) else None,
             if c.work.Some? then c.work.value.wait else None,
             producer, Verdict(c, relay), c.outputs.0, c.outputs.1,
             if c.Is(CHasWriter) then Some(c.Is(CHasFence)) else None)
  }

  function CustodianSendStep(k: Setup, s: State, x: CustodianSend): State
    requires CustodianSendEnabled(k, s, x)
  {
    var c := s.c;
    match x
    case CGreet => s.(c := c.(phase := CGreeted), co := s.co + [Hello])
    case CConfigure => s.(c := c.(phase := CPreparing), ca := s.ca + [Config])
    case CForwardPrepared => s.(c := c.(phase := CPrepared), co := s.co + [Prepared])
    case CDeliverCreate => s.(c := c.(phase := CTransferring), ca := s.ca + [CreateW])
    case CForwardManifest => s.(c := c.Set({CPassedManifest}), ca := s.ca + [Announce])
    case CForwardData => s.(c := c.(forwarded := c.forwarded + 1), ca := s.ca + [Data(c.got[c.forwarded])])
    case CForwardReady => s.(c := c.(phase := CReadied), co := s.co + [Ready])
    case CDeliverRun => s.(c := c.(phase := CRunning), ca := s.ca + [RunTool])
  }

  function CustodianMoveStep(k: Setup, s: State, x: CustodianMove): State
    requires CustodianMoveEnabled(k, s, x)
  {
    var c := s.c;
    match x
    case CPrepareWriter(ok) =>
      if ok then s.(c := c.(phase := CBound).Set({CWriterReady})) else s.(c := CFailing(c))
    case CSpawn => s.(c := c.(spawn := Trying))
    case CPublish => s.(c := c.(spawn := Published, phase := if c.phase.CBound? then CSpawned else c.phase))
    case CLose => s.(c := c.(spawn := Lost))
    case CAttemptCreate => s.(c := c.(phase := CGranting).Set({CTriedCreate}))
    case CVerify => s.(c := c.(phase := CAwaiting))
    case CAttemptRun => s.(c := c.(phase := CReleasing).Set({CTriedRun}))
    case CFinishBody => s.(c := c.(phase := CDone))
  }

  function CustodianWatchStep(k: Setup, s: State, x: CustodianWatch): State
    requires CustodianWatchEnabled(k, s, x)
  {
    var c := s.c;
    match x
    case CAnchorBreak => s.(c := CFailing(c).Set({CIsBroken}))
    case CAnchorEof => s.(c := c.Set({CSawEof}))
    case CSourceEof(second) => s.(c := c.Set(if second then {CSawStderrEof} else {CSawStdoutEof}))
    case CSourceFail => s.(c := CFailing(c).Set({CLostSource}))
    case CFail => s.(c := CFailing(c))
    case CUnknown => s.(c := CFailing(c).Set({CIsUnknown}))
  }

  function CustodianCleanStep(k: Setup, s: State, x: CustodianClean): State
    requires CustodianCleanEnabled(k, s, x)
  {
    var c := s.c;
    match x
    case CClose => s.(c := c.Set({CIsClosing, CRetiredRoutes}))
    case CStop => s.(ca := s.ca + [Stop])
    case CSignalGroup(absent) => s.(c := if absent then c.Set({CSawAbsent}) else c)
    case CRetireGroup => s.(c := c.Set({CGroupRetired}))
    case CGroupDone => s.(c := c.Set({CSentGroupDone}), ca := s.ca + [GroupDone])
    case CKillAnchor => s
    case CBeginWait => s.(c := c.Set({CBeganWait}))
    case CWait => s.(c := c.(wait := Some(s.ap.receipt)), ap := Reaped(s.ap.receipt))
    case CShut => s.(c := c.Set({CIsShut}))
  }

  function CustodianEndStep(k: Setup, s: State, x: CustodianEnd): State
    requires CustodianEndEnabled(k, s, x)
  {
    var c := s.c;
    match x
    case CSettle => s.(c := c.Set(if ProducerSettled(c) then {CHasSettled, CIsProducer} else {CHasSettled}))
    case CSeal => s.(c := c.Set({CSentSeal}), co := s.co + [Sealed])
    case CPublishFence(ok) =>
      if ok then s.(c := c.Set({CTriedPublish, CHasFence})) else s.(c := CFailing(c).Set({CTriedPublish}))
    case CFinal(relay) =>
      s.(c := c.Set(if Verdict(c, relay) then {CSentFinal} else {CSentFinal, CHasFailed}), co := s.co + [Final(FinalFrame(c, relay))])
    case CCloseUp => s.(c := c.Set({CIsFinished}))
    case CExit(clean) =>
      s.(cp := Zombie(Exit(if !(clean && c.Is(CIsProducer) && c.Is(CSentFinal) && !c.Is(CIsUnknown)) then HELPER_UNKNOWN
                           else if c.Is(CHasFailed) then HELPER_FAILED else HELPER_OK)))
  }

  function CustodianStep(k: Setup, s: State, act: CustodianAction): State
    requires CustodianEnabled(k, s, act)
  {
    var c := s.c;
    match act
    case CSend(x) => CustodianSendStep(k, s, x)
    case CMove(x) => CustodianMoveStep(k, s, x)
    case CWatch(x) => CustodianWatchStep(k, s, x)
    case CClean(x) => CustodianCleanStep(k, s, x)
    case CEnd(x) => CustodianEndStep(k, s, x)
    case CReceive =>
      (var r := CustodianReceives(k, c, s.oc[0]);
       if r.Some? then s.(c := r.value, oc := s.oc[1..]) else s.(c := CFailing(c)))
    case CHear =>
      (var r := CustodianHears(c, s.ac[0]);
       if r.Some? then s.(c := r.value, ac := s.ac[1..]) else s.(c := CFailing(c).Set({CIsBroken})))
    case CSource(stderr, size) => s.(c := Keeping(k.manifest.limit, c, stderr, size))
  }

  // ---------- A ----------

  /** Frames A sends. */
  datatype AnchorSend =
    | AGreet | APrepare | AConfigure | AForwardManifest | AForwardData | ASendReady | ADeliverRun | ASendWork | ASendDone

  /** Steps of A's body and creator that send nothing. */
  datatype AnchorMove =
    | AAttemptCreate | ASpawn | APublish | ALose | AMove | AVerify | AAttemptRun | AFinishBody

  /** What A may observe of W, and its waits. */
  datatype AnchorWatch =
    | ABreak | AEof | AFail | ABeginWait | AWait

  /** A's own settlement. */
  datatype AnchorClean =
    | AClose | AMoveAway | AShut | AWork(known: bool) | ACloseUp | AExit(clean: bool)

  datatype AnchorAction =
    | ASend(send: AnchorSend) | AMove(move: AnchorMove) | AWatch(watch: AnchorWatch) | AClean(clean: AnchorClean) | AReceive | AHear | AAwait

  predicate ReadsCustodian(a: Anchor) {
    || a.phase.AGreeted? || a.phase.APrepared?
    || (a.phase.ATransferring? && (!a.Is(AGotManifest) || (a.Is(APassedManifest) && a.forwarded == |a.got|)))
    || a.phase.AReadied? || a.phase.ARunning?
  }

  predicate ReadsWorker(p: AnchorPhase) {
    p.ASpawned? || p.AVerified? || p.ARunning?
  }

  predicate AnchorSendEnabled(k: Setup, s: State, x: AnchorSend) {
    var a := s.a;
    var body := !a.Is(AHasFailed) && !a.Is(AIsClosing);
    match x
    case AGreet => body && a.phase.AStart?
    case APrepare => body && a.phase.AConfigured?
    case AConfigure => body && a.phase.AMoved?
    case AForwardManifest => body && a.phase.ATransferring? && a.Is(AGotManifest) && !a.Is(APassedManifest)
    case AForwardData => body && a.phase.ATransferring? && a.Is(APassedManifest) && a.forwarded < |a.got|
    case ASendReady => body && a.phase.AWorkerReady?
    case ADeliverRun => body && a.phase.AReleasing? && !a.Is(ARetiredRoutes)
    case ASendWork => a.work.Some? && a.work.value.producer && !a.Is(ASentWork)
    case ASendDone => a.Is(AGotGroupDone) && a.work.Some? && !a.Is(ASentDone)
  }

  predicate AnchorMoveEnabled(k: Setup, s: State, x: AnchorMove) {
    var a := s.a;
    var body := !a.Is(AHasFailed) && !a.Is(AIsClosing);
    match x
    case AAttemptCreate => body && a.phase.AGranted? && !a.Is(ARetiredRoutes)
    case ASpawn => body && a.phase.ACreating? && a.spawn.NotTried?
    case APublish => a.spawn.Trying? && !s.wp.Unborn?
    case ALose => a.spawn.Trying? && (a.Is(AHasFailed) || a.Is(AIsClosing))
    case AMove => body && a.phase.AMapped? && !a.Is(AHasMoved)
    case AVerify => body && a.phase.ATransferring? && a.Is(APassedManifest) && a.forwarded == |a.got| && AllRelayed(k, a.got)
    case AAttemptRun => body && a.phase.AReleased? && !a.Is(ARetiredRoutes)
    case AFinishBody => body && a.phase.ARunning? && a.wait.Some? && a.Is(ASawEof) && a.Is(ASawArmed) && !a.Is(AIsBroken)
  }

  predicate AnchorWatchEnabled(k: Setup, s: State, x: AnchorWatch) {
    var a := s.a;
    var body := !a.Is(AHasFailed) && !a.Is(AIsClosing);
    match x
    case ABreak => !a.Is(AIsShut)
    case AEof => (s.wa == [] || a.Is(AIsBroken)) && (s.w.phase.WTarget? || Ended(s.wp)) && !a.Is(AIsShut)
    case AFail => true
    case ABeginWait => (body && a.phase.ARunning?) || (a.Is(AIsClosing) && a.spawn.Published? && a.Is(AHasMoved) && !a.Is(AIsShut))
    case AWait => a.Is(ABeganWait) && a.wait.None? && s.wp.Zombie? && !a.Is(AIsShut)
  }

  predicate AnchorCleanEnabled(k: Setup, s: State, x: AnchorClean) {
    var a := s.a;
    match x
    case AClose => !a.Is(AIsClosing) && !a.spawn.Trying? && (a.Is(AHasFailed) || a.phase.ADone?)
    case AMoveAway => a.Is(AIsClosing) && a.Is(AHasNoChild) && !a.Is(AHasMoved)
    case AShut => a.Is(AIsClosing) && !a.Is(AIsShut) && (a.Is(AHasNoChild) ==> a.Is(AHasMoved)) && (a.spawn.Published? ==> a.Is(AHasMoved) && a.Is(ABeganWait))
    case AWork(_) => a.Is(AIsShut) && a.work.None?
    case ACloseUp => a.work.Some?
    case AExit(_) => a.Is(AIsFinished)
  }

  predicate AnchorEnabled(k: Setup, s: State, act: AnchorAction) {
    var a := s.a;
    s.ap.Alive? && (a.Is(AIsFinished) ==> act.AClean? && act.clean.AExit?) &&
    match act
    case ASend(x) => AnchorSendEnabled(k, s, x)
    case AMove(x) => AnchorMoveEnabled(k, s, x)
    case AWatch(x) => AnchorWatchEnabled(k, s, x)
    case AClean(x) => AnchorCleanEnabled(k, s, x)
    case AReceive => !a.Is(AHasFailed) && !a.Is(AIsClosing) && ReadsCustodian(a) && s.ca != []
    case AHear => (ReadsWorker(a.phase) || a.Is(AIsClosing)) && s.wa != [] && !a.Is(AIsBroken) && !a.Is(AIsShut)
    case AAwait => a.Is(ASentWork) && !a.Is(AGotGroupDone) && s.ca != []
  }

  /** The settlement `finish` reports; `known` is that every descriptor and creator was settled. */
  function BuildWork(a: Anchor, known: bool): Settlement {
    var producer := a.Is(AHasMoved) && (a.Is(AHasNoChild) || (a.wait.Some? && a.Is(ASawEof))) && known;
    Settlement(a.Is(ATriedCreate), a.Is(ATriedRun), a.Is(AHasNoChild), a.Is(AHasMoved), a.wait, a.Is(ASawArmed), a.Is(ASawRefused),
               producer, producer && !a.Is(AIsBroken) && (!a.Is(ATriedRun) || a.Is(ASawArmed)))
  }

  function AnchorReceives(a: Anchor, m: Message): Option<Anchor> {
    if m.Config? && a.phase.AGreeted? then Some(a.(phase := AConfigured))
    else if m.CreateW? && a.phase.APrepared? then Some(a.(phase := AGranted))
    else if m.Announce? && a.phase.ATransferring? && !a.Is(AGotManifest) then Some(a.Set({AGotManifest}))
    else if m.Data? && a.phase.ATransferring? && a.Is(APassedManifest) && a.forwarded == |a.got| then Some(a.(got := a.got + [m.bytes]))
    else if m.RunTool? && a.phase.AReadied? then Some(a.(phase := AReleased))
    else None
  }

  /** HELLO and READY are awaited by the body; the last two frames are taken by the running body or by cleanup. */
  function AnchorHears(a: Anchor, m: Message): Option<Anchor> {
    if m.Hello? && a.phase.ASpawned? && !a.Is(AIsClosing) then Some(a.(phase := AMapped))
    else if m.Ready? && a.phase.AVerified? && !a.Is(AIsClosing) then Some(a.(phase := AWorkerReady).Set({AWorkerIsReady}))
    else if m.ExecArmed? && (a.phase.ARunning? || a.Is(AIsClosing)) && a.Is(ATriedRun) && a.Is(AWorkerIsReady) && !a.Is(ASawArmed) && !a.Is(ASawRefused)
    then Some(a.Set({ASawArmed}))
    else if m.ExecRefused? && (a.phase.ARunning? || a.Is(AIsClosing)) && a.Is(ASawArmed) && !a.Is(ASawRefused) then Some(a.Set({ASawRefused}))
    else None
  }

  function AnchorSendStep(k: Setup, s: State, x: AnchorSend): State
    requires AnchorSendEnabled(k, s, x)
  {
    var a := s.a;
    match x
    case AGreet => s.(a := a.(phase := AGreeted), ac := s.ac + [Hello])
    case APrepare => s.(a := a.(phase := APrepared), ac := s.ac + [Prepared])
    case AConfigure => s.(a := a.(phase := ATransferring), aw := s.aw + [Config])
    case AForwardManifest => s.(a := a.Set({APassedManifest}), aw := s.aw + [Announce])
    case AForwardData => s.(a := a.(forwarded := a.forwarded + 1), aw := s.aw + [Data(a.got[a.forwarded])])
    case ASendReady => s.(a := a.(phase := AReadied), ac := s.ac + [Ready])
    case ADeliverRun => s.(a := a.(phase := ARunning), aw := s.aw + [RunTool])
    case ASendWork => s.(a := a.Set({ASentWork}), ac := s.ac + [WorkDone(a.work.value)])
    case ASendDone => s.(a := a.Set({ASentDone}), ac := s.ac + [AnchorDone(a.work.value)])
  }

  function AnchorMoveStep(k: Setup, s: State, x: AnchorMove): State
    requires AnchorMoveEnabled(k, s, x)
  {
    var a := s.a;
    match x
    case AAttemptCreate => s.(a := a.(phase := ACreating).Set({ATriedCreate}))
    case ASpawn => s.(a := a.(spawn := Trying))
    case APublish => s.(a := a.(spawn := Published, phase := if a.phase.ACreating? then ASpawned else a.phase))
    case ALose => s.(a := a.(spawn := Lost))
    case AMove => s.(a := a.(phase := AMoved).Set({AHasMoved}))
    case AVerify => s.(a := a.(phase := AVerified))
    case AAttemptRun => s.(a := a.(phase := AReleasing).Set({ATriedRun}))
    case AFinishBody => s.(a := a.(phase := ADone))
  }

  function AnchorWatchStep(k: Setup, s: State, x: AnchorWatch): State
    requires AnchorWatchEnabled(k, s, x)
  {
    var a := s.a;
    match x
    case ABreak => s.(a := AFailing(a).Set({AIsBroken}))
    case AEof => s.(a := a.Set({ASawEof}))
    case AFail => s.(a := AFailing(a))
    case ABeginWait => s.(a := a.Set({ABeganWait}))
    case AWait => s.(a := a.(wait := Some(s.wp.receipt)), wp := Reaped(s.wp.receipt))
  }

  function AnchorCleanStep(k: Setup, s: State, x: AnchorClean): State
    requires AnchorCleanEnabled(k, s, x)
  {
    var a := s.a;
    match x
    case AClose => s.(a := a.Set(if a.spawn.NotTried? then {AIsClosing, ARetiredRoutes, AHasNoChild} else {AIsClosing, ARetiredRoutes}))
    case AMoveAway => s.(a := a.Set({AHasMoved}))
    case AShut => s.(a := a.Set({AIsShut}))
    case AWork(known) =>
      (var work := BuildWork(a, known);
       if GoodSettlement(work) then s.(a := a.(work := Some(work))) else s.(ap := Zombie(Exit(HELPER_UNKNOWN))))
    case ACloseUp => s.(a := a.Set({AIsFinished}))
    case AExit(clean) =>
      s.(ap := Zombie(Exit(if !(clean && a.Is(AGotGroupDone) && a.Is(ASentDone)) then HELPER_UNKNOWN
                           else if a.Is(AHasFailed) then HELPER_FAILED else HELPER_OK)))
  }

  function AnchorStep(k: Setup, s: State, act: AnchorAction): State
    requires AnchorEnabled(k, s, act)
  {
    var a := s.a;
    match act
    case ASend(x) => AnchorSendStep(k, s, x)
    case AMove(x) => AnchorMoveStep(k, s, x)
    case AWatch(x) => AnchorWatchStep(k, s, x)
    case AClean(x) => AnchorCleanStep(k, s, x)
    case AReceive =>
      (var r := AnchorReceives(a, s.ca[0]);
       if r.Some? then s.(a := r.value, ca := s.ca[1..]) else s.(a := AFailing(a)))
    case AHear =>
      (var r := AnchorHears(a, s.wa[0]);
       if r.Some? then s.(a := r.value, wa := s.wa[1..]) else s.(a := AFailing(a).Set({AIsBroken})))
    case AAwait =>
      if s.ca[0].GroupDone? then s.(a := a.Set({AGotGroupDone}), ca := s.ca[1..])
      else if s.ca[0].Stop? then s.(a := AFailing(a), ca := s.ca[1..])
      else s.(a := AFailing(a).Set({AIsFinished}))
  }

  // ---------- W ----------

  datatype WorkerAction = WGreet | WReceive | WFinish | WReady | WArm | WExec | WRefuse

  ghost function SessionOf(k: Setup, w: Worker): (s: Session)
    requires Honest(k)
    ensures Sound(k.manifest, s)
  {
    assert Sound(k.manifest, Fresh) by { StartClean(k.manifest); }
    FedAll(k.sha, k.manifest, Fresh, w.fed)
  }

  ghost predicate WorkerEnabled(k: Setup, s: State, x: WorkerAction)
    requires Honest(k)
  {
    var w := s.w;
    s.wp.Alive? &&
    match x
    case WGreet => w.phase.WStart?
    case WReceive => s.aw != [] && (w.phase.WGreeted? || w.phase.WConfigured? || w.phase.WLoading? || w.phase.WReadied?)
    case WFinish => w.phase.WLoading? && SessionOf(k, w).Done()
    case WReady => w.phase.WLoaded?
    case WArm => w.phase.WReleased?
    case WExec => w.phase.WArmed?
    case WRefuse => w.phase.WArmed?
  }

  ghost function WorkerReceives(k: Setup, w: Worker, m: Message): Option<Worker>
    requires Honest(k)
  {
    if m.Config? && w.phase.WGreeted? then Some(w.(phase := WConfigured))
    else if m.Announce? && w.phase.WConfigured? then Some(w.(phase := WLoading))
    else if m.Data? && w.phase.WLoading? && SessionOf(k, w.(fed := w.fed + [m.bytes])).Live?
    then Some(w.(fed := w.fed + [m.bytes]))
    else if m.RunTool? && w.phase.WReadied? then Some(w.(phase := WReleased))
    else None
  }

  ghost function WorkerStep(k: Setup, s: State, x: WorkerAction): State
    requires Honest(k) && WorkerEnabled(k, s, x)
  {
    var w := s.w;
    match x
    case WGreet => s.(w := w.(phase := WGreeted), wa := s.wa + [Hello])
    case WReceive =>
      (var r := WorkerReceives(k, w, s.aw[0]);
       if r.Some? then s.(w := r.value, aw := s.aw[1..]) else s.(w := w.(phase := WStuck)))
    case WFinish => s.(w := w.(phase := WLoaded))
    case WReady => s.(w := w.(phase := WReadied), wa := s.wa + [Ready])
    case WArm => s.(w := w.(phase := WArmed), wa := s.wa + [ExecArmed])
    case WExec => s.(w := w.(phase := WTarget))
    case WRefuse => s.(w := w.(phase := WRefused), wa := s.wa + [ExecRefused])
  }

  // ---------- the operating system ----------

  datatype SystemAction =
    | BearC | BearA | BearW | KillC(receipt: Receipt) | KillA(receipt: Receipt) | EndW(receipt: Receipt) | AdoptW | Fork | EndDescendants

  /** A helper reports 0 or 2 only from its own last line; every other death looks different. */
  predicate Abnormal(r: Receipt) {
    GoodReceipt(r) && r != Exit(HELPER_OK) && r != Exit(HELPER_FAILED)
  }

  predicate SystemEnabled(s: State, x: SystemAction) {
    match x
    case BearC => s.o.spawn.Trying? && s.cp.Unborn?
    case BearA => s.c.spawn.Trying? && s.ap.Unborn? && s.cp.Alive?
    case BearW => s.a.spawn.Trying? && s.wp.Unborn? && s.ap.Alive?
    case KillC(r) => s.cp.Alive? && Abnormal(r)
    case KillA(r) => s.ap.Alive? && Abnormal(r)
    case EndW(r) => s.wp.Alive? && GoodReceipt(r)
    case AdoptW => s.wp.Zombie? && Ended(s.ap)
    case Fork => s.wp.Alive? || s.descendants
    case EndDescendants => true
  }

  function SystemStep(s: State, x: SystemAction): State
    requires SystemEnabled(s, x)
  {
    match x
    case BearC => s.(cp := Alive)
    case BearA => s.(ap := Alive)
    case BearW => s.(wp := Alive)
    case KillC(r) => s.(cp := Zombie(r))
    case KillA(r) => s.(ap := Zombie(r))
    case EndW(r) => s.(wp := Zombie(r))
    case AdoptW => s.(wp := Reaped(s.wp.receipt))
    case Fork => s.(descendants := true)
    case EndDescendants => s.(descendants := false)
  }

  // ---------- runs ----------

  datatype Action = OAct(o: OuterAction) | CAct(c: CustodianAction) | AAct(a: AnchorAction) | WAct(w: WorkerAction) | Sys(x: SystemAction)

  /** A disabled action changes nothing, so every list of actions is an interleaving. */
  ghost function Step(k: Setup, s: State, action: Action): State
    requires Honest(k)
  {
    match action
    case OAct(x) => if OuterEnabled(k, s, x) then OuterStep(k, s, x) else s
    case CAct(x) => if CustodianEnabled(k, s, x) then CustodianStep(k, s, x) else s
    case AAct(x) => if AnchorEnabled(k, s, x) then AnchorStep(k, s, x) else s
    case WAct(x) => if WorkerEnabled(k, s, x) then WorkerStep(k, s, x) else s
    case Sys(x) => if SystemEnabled(s, x) then SystemStep(s, x) else s
  }

  ghost function Run(k: Setup, s: State, actions: seq<Action>): State
    requires Honest(k)
    decreases |actions|
  {
    if actions == [] then s else Run(k, Step(k, s, actions[0]), actions[1..])
  }
}
