/**
 The chain can do its work: every frozen command, journalled or not and of any size, has a run in which
 each role does its next honest step, the worker executes it, and O's finality is reached.
 */
module ChainWitnesses {
  import opened Bytes
  import opened Manifests
  import opened Records
  import opened Decoders
  import opened Chunker
  import opened Chains
  import opened ChainPaths
  import opened ChainLegs
  import ChainRuns

  // ---------- from the start to the waiting worker ----------

  /** The binding of a journalled command is settled before A exists. */
  function Bound(k: Setup): State {
    var (of, cf) := if k.journalled then ({OGotHello, OSentBinding}, {CHasWriter, CWriterReady}) else ({OGotHello}, {});
    Published0.(o := Published0.o.(phase := Preparing, flags := of), c := Initial.c.(phase := CBound, flags := cf))
  }

  lemma {:induction false} CustodianIsTold(k: Setup) returns (t: State)
    requires Honest(k)
    ensures Reached(k, t)
    ensures t == Published0.(o := Published0.o.(phase := Preparing, flags := {OGotHello}),
                             c := Initial.c.(phase := if k.journalled then CConfigured else CBound))
  {
    Begins(k);
    hide Honest, Reached, FedAll, Cargo, TerminalAdmissible;
    t := CSends(k, Published0, CGreet);
    t := OHears(k, t);
    t := OSteps(k, t, OConfigure);
    t := CTakes(k, t);
  }

  lemma BoundIsCalm(k: Setup)
    ensures Calm(Bound(k))
  {
  }

  lemma {:induction false} BindingIsTaken(k: Setup) returns (t: State)
    requires Honest(k) && k.journalled
    ensures Reached(k, t)
    ensures t == Published0.(o := Published0.o.(phase := Preparing, flags := {OGotHello, OSentBinding}),
                             c := Initial.c.(phase := CConfigured, flags := {CHasWriter}))
  {
    t := CustodianIsTold(k);
    hide Honest, Reached, FedAll, Cargo, TerminalAdmissible;
    t := OSteps(k, t, OBind);
    t := CTakes(k, t);
  }

  lemma {:induction false} BindingIsMade(k: Setup) returns (t: State)
    requires Honest(k)
    ensures Reached(k, t) && Calm(t) && t == Bound(k)
  {
    BoundIsCalm(k);
    if k.journalled {
      t := BindingIsTaken(k);
      hide Honest, Reached, Calm;
      t := CMoves(k, t, CPrepareWriter(true));
    } else {
      t := CustodianIsTold(k);
    }
  }

  /** O, C and A once C is told that A is prepared, and once the worker waits for the record. */
  function OuterBefore(k: Setup): Outer { Bound(k).o.Set({OGotPrepared}) }
  function CustodianBefore(k: Setup): Custodian { Bound(k).c.(phase := CPrepared, spawn := Published).Set({CGotPrepared}) }
  function OuterAfter(k: Setup): Outer { OuterBefore(k).(phase := Transferring).Set({OHoldsPermit}).Set({OTriedCreate}) }
  function CustodianAfter(k: Setup): Custodian { CustodianBefore(k).(phase := CTransferring).Set({CTriedCreate}) }
  const AnchorBefore := Initial.a.(phase := APrepared)
  const AnchorAfter :=
    AnchorBefore.(phase := ACreating).Set({ATriedCreate}).(phase := ASpawned, spawn := Published).(phase := ATransferring).Set({AHasMoved})

  lemma {:induction false} ChainComesUp(k: Setup) returns (t: State)
    requires Honest(k)
    ensures Reached(k, t) && Calm(t)
    ensures t.o == OuterBefore(k) && t.c == CustodianBefore(k) && t.a == AnchorBefore && t.w == Initial.w && t.ap.Alive? && t.wp.Unborn?
  {
    t := BindingIsMade(k);
    hide Honest, Reached, Calm, Run, Step;
    t := AnchorComesUp(k, t);
    t := AnchorIsConfigured(k, t);
    t := PreparedIsTold(k, t);
  }

  lemma {:induction false} CreateIsPassed(k: Setup) returns (t: State)
    requires Honest(k)
    ensures Reached(k, t) && Calm(t)
    ensures t.o == OuterAfter(k) && t.c == CustodianAfter(k) && t.a == AnchorBefore.(phase := ACreating).Set({ATriedCreate})
    ensures t.w == Initial.w && t.ap.Alive? && t.wp.Unborn?
  {
    t := ChainComesUp(k);
    BeforeFacts(k);
    hide Honest, Reached, Calm, Run, Step, OuterBefore, CustodianBefore;
    t := CreateIsReserved(k, t);
    t := CreateIsGranted(k, t);
    t := CreateIsPassedOn(k, t);
  }

  lemma BeforeFacts(k: Setup)
    ensures var o := OuterBefore(k); o.phase.Preparing? && o.Is(OGotPrepared) && o.spawn.Published? && o.flags !! {OTriedCreate, OTriedRun}
    ensures k.journalled ==> OuterBefore(k).Is(OSentBinding)
    ensures CustodianBefore(k).phase.CPrepared?
  {
  }

  lemma {:induction false} WorkerIsUp(k: Setup) returns (t: State)
    requires Honest(k)
    ensures Reached(k, t) && Calm(t) && t.o == OuterAfter(k) && t.c == CustodianAfter(k) && t.a == AnchorAfter
    ensures t.w == Worker(WConfigured, []) && t.ap.Alive? && t.wp.Alive?
  {
    t := CreateIsPassed(k);
    hide Honest, Reached, Calm, Run, Step, OuterAfter, CustodianAfter;
    t := WorkerComesUp(k, t);
    t := WorkerIsConfigured(k, t);
  }

  // ---------- the record ----------

  function OuterSent(k: Setup, n: nat): Outer { OuterAfter(k).Set({OSentManifest}).(sent := n) }
  function CustodianSent(k: Setup, fed: seq<seq<byte>>): Custodian {
    CustodianAfter(k).Set({CGotManifest}).Set({CPassedManifest}).(got := fed, forwarded := |fed|)
  }
  function AnchorSent(fed: seq<seq<byte>>): Anchor { AnchorAfter.Set({AGotManifest}).Set({APassedManifest}).(got := fed, forwarded := |fed|) }

  /** The manifest is through, and every hop passed on the first `n` chunks. */
  ghost predicate Carried(k: Setup, s: State, n: nat)
    requires Honest(k)
  {
    && n <= |Cargo(k)| && Calm(s) && s.ap.Alive? && s.wp.Alive?
    && s.o == OuterSent(k, n) && s.c == CustodianSent(k, Cargo(k)[..n])
    && s.a == AnchorSent(Cargo(k)[..n]) && s.w == Worker(WLoading, Cargo(k)[..n])
  }

  lemma AfterFacts(k: Setup)
    ensures OuterAfter(k).phase.Transferring? && !OuterAfter(k).Is(OSentManifest) && OuterAfter(k).sent == 0
    ensures var c := CustodianAfter(k); c.phase.CTransferring? && !c.Is(CGotManifest) && !c.Is(CPassedManifest) && c.got == [] && c.forwarded == 0
    ensures AnchorAfter.phase.ATransferring? && !AnchorAfter.Is(AGotManifest) && !AnchorAfter.Is(APassedManifest)
    ensures AnchorAfter.got == [] && AnchorAfter.forwarded == 0
  {
  }

  lemma {:induction false} ManifestGoesThrough(k: Setup) returns (t: State)
    requires Honest(k)
    ensures Reached(k, t) && Carried(k, t, 0)
  {
    t := WorkerIsUp(k);
    AfterFacts(k);
    hide Honest, Reached, Calm, Cargo, OuterAfter, CustodianAfter, AnchorAfter;
    t := ManifestIsSent(k, t);
    t := ManifestIsHeard(k, t);
  }

  /** Every prefix of the record's chunks is welcome, and all of them together complete the decoder. */
  lemma CargoDecodes(k: Setup)
    requires Honest(k)
    ensures SessionOf(k, Worker(WLoading, Cargo(k))).Done() && AllRelayed(k, Cargo(k))
  {
    forall i | 0 <= i < |Cargo(k)| ensures 0 < |Cargo(k)[i]| <= CHUNK { CutSizes(Record(k.command), i); }
    FlattenCut(Record(k.command));
    RecordLength(k.command);
    assert k.manifest.recordBytes == |Record(k.command)| && k.manifest.digest == k.sha(Record(k.command));
    hide Cut, FedAll, Pieces, Flatten, Frozen;
    assert Frozen(k.sha, k.manifest, k.command);
    AnySplitDecodes(k.sha, k.manifest, k.command, Cargo(k));
  }

  lemma {:induction false} PrefixIsLive(k: Setup, n: nat)
    requires Honest(k) && n <= |Cargo(k)|
    ensures SessionOf(k, Worker(WLoading, Cargo(k)[..n])).Live?
    decreases |Cargo(k)| - n
  {
    if n == |Cargo(k)| {
      assert Cargo(k)[..n] == Cargo(k);
      CargoDecodes(k);
    } else {
      PrefixIsLive(k, n + 1);
      assert Cargo(k)[..n + 1] == Cargo(k)[..n] + [Cargo(k)[n]];
      StartClean(k.manifest);
      ChainRuns.FedAllPlus(k.sha, k.manifest, Fresh, Cargo(k)[..n], Cargo(k)[n]);
    }
  }

  /** Each hop's state after one more chunk. */
  lemma SentOneMore(k: Setup, n: nat, fed: seq<seq<byte>>, bytes: seq<byte>)
    ensures OuterSent(k, n).(sent := n + 1) == OuterSent(k, n + 1)
    ensures var o := OuterSent(k, n); o.phase.Transferring? && o.Is(OSentManifest) && o.sent == n
    ensures var c := CustodianSent(k, fed); c.phase.CTransferring? && c.Is(CGotManifest) && c.Is(CPassedManifest)
    ensures CustodianSent(k, fed).got == fed && CustodianSent(k, fed).forwarded == |fed|
    ensures CustodianSent(k, fed).(got := fed + [bytes], forwarded := |fed| + 1) == CustodianSent(k, fed + [bytes])
    ensures var a := AnchorSent(fed); a.phase.ATransferring? && a.Is(AGotManifest) && a.Is(APassedManifest) && a.got == fed && a.forwarded == |fed|
    ensures AnchorSent(fed).(got := fed + [bytes], forwarded := |fed| + 1) == AnchorSent(fed + [bytes])
  {
    AfterFacts(k);
    hide OuterAfter, CustodianAfter, AnchorAfter;
  }

  lemma ChunkIsWelcome(k: Setup, n: nat)
    requires Honest(k) && n < |Cargo(k)|
    ensures Cargo(k)[..n + 1] == Cargo(k)[..n] + [Cargo(k)[n]] && |Cargo(k)[..n]| == n
    ensures SessionOf(k, Worker(WLoading, Cargo(k)[..n] + [Cargo(k)[n]])).Live?
  {
    assert Cargo(k)[..n + 1] == Cargo(k)[..n] + [Cargo(k)[n]];
    PrefixIsLive(k, n + 1);
  }

  lemma {:induction false} ChunkCrosses(k: Setup, s: State) returns (t: State)
    requires Honest(k) && Reached(k, s) && Calm(s) && s.ap.Alive? && s.wp.Alive?
    requires s.o.phase.Transferring? && s.o.Is(OSentManifest) && s.o.sent < |Cargo(k)|
    requires s.c.phase.CTransferring? && s.c.Is(CGotManifest) && s.c.Is(CPassedManifest) && s.c.forwarded == |s.c.got|
    requires s.a.phase.ATransferring? && s.a.Is(AGotManifest) && s.a.Is(APassedManifest) && s.a.forwarded == |s.a.got|
    requires s.w.phase.WLoading? && SessionOf(k, Worker(WLoading, s.w.fed + [Cargo(k)[s.o.sent]])).Live?
    ensures Reached(k, t) && Calm(t)
    ensures var b := Cargo(k)[s.o.sent];
            t == s.(o := s.o.(sent := s.o.sent + 1), c := s.c.(got := s.c.got + [b], forwarded := s.c.forwarded + 1),
                    a := s.a.(got := s.a.got + [b], forwarded := s.a.forwarded + 1), w := s.w.(fed := s.w.fed + [b]))
  {
    assert s.ca == [];
    hide Honest, Reached, Calm, Cargo, SessionOf;
    t := ChunkIsSent(k, s);
    t := ChunkIsLoaded(k, t, Cargo(k)[s.o.sent]);
  }

  lemma {:induction false} ChunkGoesThrough(k: Setup, s: State, n: nat) returns (t: State)
    requires Honest(k) && Reached(k, s) && n < |Cargo(k)| && Carried(k, s, n)
    ensures Reached(k, t) && Carried(k, t, n + 1)
  {
    SentOneMore(k, n, Cargo(k)[..n], Cargo(k)[n]);
    ChunkIsWelcome(k, n);
    hide Honest, Reached, Calm, Cargo, OuterSent, CustodianSent, AnchorSent, SessionOf;
    t := ChunkCrosses(k, s);
  }

  lemma {:induction false} RecordGoesThrough(k: Setup, n: nat) returns (t: State)
    requires Honest(k) && n <= |Cargo(k)|
    ensures Reached(k, t) && Carried(k, t, n)
  {
    hide Honest, Reached, Carried, Cargo;
    if n == 0 {
      t := ManifestGoesThrough(k);
    } else {
      t := RecordGoesThrough(k, n - 1);
      t := ChunkGoesThrough(k, t, n - 1);
    }
  }

  // ---------- from the record to the end ----------

  /** What the rest of the run needs of each role besides its place. */
  predicate OYoung(o: Outer) {
    && o.spawn.Published? && o.terminal.None? && o.wait.None? && o.outputs == (0, 0)
    && {OGotHello, OGotPrepared, OTriedCreate} <= o.flags && o.flags !! {OIsShut, OIsClosing, OIsBroken, OLostOutput, OBeganWait, OIsUnknown}
  }

  predicate CYoung(k: Setup, c: Custodian) {
    && c.spawn.Published? && c.work.None? && c.terminal.None? && c.wait.None? && c.outputs == (0, 0)
    && c.Is(CTriedCreate) && c.Is(CHasWriter) == k.journalled && (k.journalled ==> c.Is(CWriterReady))
    && c.flags !! {CGroupRetired, CBeganWait, CHasSettled, CSentSeal, CTriedPublish, CSentFinal, COverflowed, CLostSource, CIsUnknown}
  }

  predicate AYoung(a: Anchor) {
    && a.spawn.Published? && a.work.None? && a.Is(ATriedCreate) && a.Is(AHasMoved)
    && a.flags !! {ASawRefused, AHasNoChild, ASentWork, AGotGroupDone, ASentDone}
  }

  lemma OuterIsYoung(k: Setup, n: nat)
    ensures var o := OuterSent(k, n); OYoung(o) && o.phase.Transferring? && o.Is(OSentManifest) && !o.Is(OGotReady) && o.sent == n
  {
  }

  lemma CustodianIsYoung(k: Setup, fed: seq<seq<byte>>)
    ensures CYoung(k, CustodianSent(k, fed))
    ensures var c := CustodianSent(k, fed); c.phase.CTransferring? && c.Is(CPassedManifest) && !c.Is(CGotReady)
    ensures CustodianSent(k, fed).got == fed && CustodianSent(k, fed).forwarded == |fed|
  {
  }

  lemma AnchorIsYoung(fed: seq<seq<byte>>)
    ensures AYoung(AnchorSent(fed)) && AnchorSent(fed).wait.None?
    ensures var a := AnchorSent(fed); a.phase.ATransferring? && a.Is(APassedManifest) && !a.Is(ASawArmed) && a.got == fed && a.forwarded == |fed|
  {
  }

  /** What the rest of the run knows of the places: links calm, helpers up. */
  ghost predicate Working(k: Setup, s: State)
    requires Honest(k)
  {
    Reached(k, s) && Calm(s) && OYoung(s.o) && CYoung(k, s.c) && AYoung(s.a) && s.ap.Alive? && s.a.wait.None?
  }

  lemma FullIsYoung(k: Setup, s: State)
    requires Honest(k) && Carried(k, s, |Cargo(k)|)
    ensures OYoung(s.o) && s.o.phase.Transferring? && s.o.Is(OSentManifest) && !s.o.Is(OGotReady) && s.o.sent == |Cargo(k)|
    ensures CYoung(k, s.c) && s.c.phase.CTransferring? && s.c.Is(CPassedManifest) && !s.c.Is(CGotReady)
    ensures s.c.got == Cargo(k) && s.c.forwarded == |s.c.got|
    ensures AYoung(s.a) && s.a.phase.ATransferring? && s.a.Is(APassedManifest) && !s.a.Is(ASawArmed) && s.a.wait.None?
    ensures s.a.got == Cargo(k) && s.a.forwarded == |s.a.got| && s.w == Worker(WLoading, Cargo(k)) && Calm(s) && s.ap.Alive? && s.wp.Alive?
  {
    hide Honest, Cargo, Calm, OuterSent, CustodianSent, AnchorSent, OYoung, CYoung, AYoung;
    assert Cargo(k)[..|Cargo(k)|] == Cargo(k);
    OuterIsYoung(k, |Cargo(k)|);
    CustodianIsYoung(k, Cargo(k));
    AnchorIsYoung(Cargo(k));
  }

  lemma StaysYoung(k: Setup, s: State)
    ensures forall p: OuterPhase :: OYoung(s.o.(phase := p)) == OYoung(s.o)
    ensures forall p: CustodianPhase :: CYoung(k, s.c.(phase := p)) == CYoung(k, s.c)
    ensures forall p: AnchorPhase :: AYoung(s.a.(phase := p)) == AYoung(s.a)
  {
  }

  lemma {:induction false} RecordIsLoaded(k: Setup) returns (t: State)
    requires Honest(k)
    ensures Working(k, t) && t.wp.Alive? && t.w == Worker(WLoaded, Cargo(k))
    ensures t.o.phase.Awaiting? && !t.o.Is(OGotReady) && t.c.phase.CAwaiting? && !t.c.Is(CGotReady) && t.a.phase.AVerified? && !t.a.Is(ASawArmed)
  {
    t := RecordGoesThrough(k, |Cargo(k)|);
    CargoDecodes(k);
    FullIsYoung(k, t);
    StaysYoung(k, t);
    hide Honest, Reached, Calm, Cargo, Carried, SessionOf, AllRelayed, OYoung, CYoung, AYoung;
    t := RecordIsVerified(k, t);
  }

  /** The decoded worker said READY, and C knows. */
  lemma {:induction false} WorkerIsReady(k: Setup) returns (t: State)
    requires Honest(k)
    ensures Working(k, t) && t.wp.Alive? && t.w == Worker(WReadied, Cargo(k))
    ensures t.o.phase.Awaiting? && !t.o.Is(OGotReady) && t.c.phase.CAwaiting? && t.c.Is(CGotReady)
    ensures t.a.phase.AReadied? && t.a.Is(AWorkerIsReady) && !t.a.Is(ASawArmed)
  {
    t := RecordIsLoaded(k);
    hide Honest, Reached, Calm, Cargo;
    t := ReadyGoesUp(k, t);
  }

  lemma {:induction false} CommandIsReleased(k: Setup) returns (t: State)
    requires Honest(k)
    ensures Working(k, t) && t.wp.Alive? && t.w == Worker(WReadied, Cargo(k))
    ensures t.o.phase.Running? && t.o.Is(OGotReady) && t.o.Is(OTriedRun)
    ensures t.c.phase.CRunning? && t.c.Is(CTriedRun) && t.a.phase.AReleased? && t.a.Is(AWorkerIsReady) && !t.a.Is(ASawArmed)
  {
    t := WorkerIsReady(k);
    hide Honest, Reached, Calm, Cargo;
    t := RunIsGranted(k, t);
    t := RunIsPassedOn(k, t);
  }

  lemma {:induction false} CommandRuns(k: Setup) returns (t: State)
    requires Honest(k)
    ensures Working(k, t) && t.wp == Zombie(Exit(0)) && t.w == Worker(WTarget, Cargo(k))
    ensures t.o.phase.Running? && t.o.Is(OGotReady) && t.o.Is(OTriedRun)
    ensures t.c.phase.CRunning? && t.c.Is(CTriedRun) && t.a.phase.ARunning? && t.a.Is(ATriedRun) && t.a.Is(ASawArmed)
  {
    t := CommandIsReleased(k);
    hide Honest, Reached, Calm, Cargo, OYoung, CYoung;
    t := WorkerIsReleased(k, t);
    t := WorkerExecutes(k, t);
  }

  // ---------- everything is settled ----------

  lemma {:induction false} WorkerIsOver(k: Setup) returns (t: State)
    requires Honest(k)
    ensures Reached(k, t) && Calm(t) && t.ap.Alive? && t.wp == Reaped(Exit(0)) && t.w == Worker(WTarget, Cargo(k))
    ensures OYoung(t.o) && t.o.phase.Running? && t.o.Is(OGotReady) && t.o.Is(OTriedRun)
    ensures CYoung(k, t.c) && t.c.phase.CRunning? && t.c.Is(CTriedRun)
    ensures AYoung(t.a) && t.a.phase.ADone? && t.a.wait == Some(Exit(0)) && {ATriedRun, ASawArmed, ASawEof, ABeganWait} <= t.a.flags
  {
    t := CommandRuns(k);
    hide Honest, Reached, Calm, Cargo, OYoung, CYoung;
    t := WorkerIsReaped(k, t);
  }

  /** O granted RUN and heard nothing since. */
  predicate Released(o: Outer) { OYoung(o) && o.phase.Running? && o.Is(OGotReady) && o.Is(OTriedRun) && !o.Is(OGotSeal) }

  lemma {:induction false} AnchorIsSettled(k: Setup) returns (t: State)
    requires Honest(k)
    ensures Reached(k, t) && Still(t.(ac := [])) && t.ac == [WorkDone(WORK)] && t.cp.Alive? && t.ap.Alive? && t.wp == Reaped(Exit(0))
    ensures t.w == Worker(WTarget, Cargo(k)) && Released(t.o)
    ensures CYoung(k, t.c) && t.c.phase.CRunning? && t.c.Is(CTriedRun)
    ensures t.c.flags !! {CHasFailed, CIsClosing, CRetiredRoutes, CIsBroken, CIsShut, CIsFinished, CSentGroupDone}
    ensures t.a.work == Some(WORK) && t.a.Is(AHasMoved) && t.a.Is(ASentWork) && t.a.flags !! {AGotGroupDone, ASentDone, AIsFinished, AHasFailed}
  {
    t := WorkerIsOver(k);
    hide Honest, Reached, Cargo, OYoung, CYoung;
    t := AnchorSettles(k, t);
  }

  /** C holds A's settlement and knows the group absent. */
  predicate CRetired(k: Setup, c: Custodian) {
    && c.spawn.Published? && c.work == Some(WORK) && c.outputs == (0, 0) && c.phase.CDone?
    && {CTriedCreate, CTriedRun, CIsClosing, CRetiredRoutes, CSawAbsent, CGroupRetired} <= c.flags
    && c.Is(CHasWriter) == k.journalled && (k.journalled ==> c.Is(CWriterReady))
    && c.flags !! {CIsBroken, CLostSource, CIsUnknown, CIsFinished, CSentSeal, CTriedPublish, CSentFinal, COverflowed, CHasFailed}
  }

  lemma RetiredNow(k: Setup, c: Custodian)
    requires CYoung(k, c) && c.Is(CTriedRun) && c.flags !! {CHasFailed, CIsBroken, CIsFinished}
    ensures CRetired(k, c.(work := Some(WORK), phase := CDone).Set({CIsClosing, CRetiredRoutes}).Set({CSawAbsent}).Set({CGroupRetired}))
  {
  }

  lemma RetiredFacts(k: Setup, c: Custodian)
    requires CRetired(k, c)
    ensures c.spawn.Published? && c.phase.CDone? && c.work == Some(WORK) && {CIsClosing, CRetiredRoutes, CSawAbsent, CGroupRetired} <= c.flags
    ensures c.flags !! {CIsBroken, CLostSource, CIsUnknown, CIsFinished, CSentSeal, CTriedPublish, CSentFinal}
    ensures c.Is(CHasWriter) == k.journalled && (k.journalled ==> c.Is(CWriterReady))
  {
  }

  lemma RetiredReleases(k: Setup, c: Custodian)
    requires CRetired(k, c)
    ensures CRetired(k, c.Set({CSentGroupDone}).(terminal := Some(WORK)).Set({CSawEof}))
  {
  }

  lemma RetiredWaits(k: Setup, c: Custodian)
    requires CRetired(k, c)
    ensures CRetired(k, c.(wait := Some(Exit(HELPER_OK))).Set({CBeganWait}).Set({CIsShut}))
  {
  }

  lemma RetiredSettles(k: Setup, c: Custodian)
    requires CRetired(k, c)
    ensures CRetired(k, c.Set({CSawStdoutEof}).Set({CSawStderrEof}).Set({CHasSettled, CIsProducer}))
  {
  }

  lemma {:induction false} GroupIsAbsent(k: Setup) returns (t: State)
    requires Honest(k)
    ensures Reached(k, t) && Still(t) && t.cp.Alive? && t.ap.Alive? && t.wp == Reaped(Exit(0))
    ensures t.w == Worker(WTarget, Cargo(k)) && Released(t.o)
    ensures CRetired(k, t.c) && t.c.wait.None? && t.c.terminal.None? && t.c.flags !! {CSentGroupDone, CBeganWait, CIsShut, CHasSettled}
    ensures t.a.work == Some(WORK) && t.a.Is(ASentWork) && t.a.flags !! {AGotGroupDone, ASentDone, AIsFinished, AHasFailed}
  {
    t := AnchorIsSettled(k);
    RetiredNow(k, t.c);
    assert t.c.wait.None? && t.c.terminal.None? && t.c.work.None? && t.c.spawn.Published?;
    assert t.c.Is(CTriedCreate) && !t.c.Is(CHasSettled) && !t.c.Is(CBeganWait) && !t.c.Is(CGroupRetired);
    hide Honest, Reached, Cargo, Released, CYoung, CRetired;
    t := GroupIsRetired(k, t);
  }

  lemma {:induction false} AnchorIsReleased(k: Setup) returns (t: State)
    requires Honest(k)
    ensures Reached(k, t) && Still(t) && t.cp.Alive? && t.ap == Zombie(Exit(HELPER_OK)) && t.wp == Reaped(Exit(0))
    ensures t.w == Worker(WTarget, Cargo(k)) && Released(t.o)
    ensures CRetired(k, t.c) && t.c.wait.None? && t.c.terminal == Some(WORK) && t.c.Is(CSawEof) && t.c.flags !! {CBeganWait, CIsShut, CHasSettled}
  {
    t := GroupIsAbsent(k);
    RetiredReleases(k, t.c);
    RetiredFacts(k, t.c);
    hide Honest, Reached, Cargo, Released, CRetired;
    t := AnchorLeaves(k, t);
    t := AnchorIsHeard(k, t);
  }

  lemma {:induction false} AnchorIsGone(k: Setup) returns (t: State)
    requires Honest(k)
    ensures Reached(k, t) && Still(t) && t.cp.Alive? && t.wp == Reaped(Exit(0))
    ensures t.w == Worker(WTarget, Cargo(k)) && Released(t.o)
    ensures CRetired(k, t.c) && t.c.wait == Some(Exit(HELPER_OK)) && t.c.Is(CIsProducer) && t.c.Is(CHasSettled)
  {
    t := AnchorIsReleased(k);
    RetiredWaits(k, t.c);
    RetiredFacts(k, t.c);
    hide Honest, Reached, Cargo, Released, CRetired;
    t := AnchorIsReaped(k, t);
    RetiredSettles(k, t.c);
    t := ProducerIsSettled(k, t);
  }

  /** O was told that everything is settled, before C's last frame. */
  lemma {:induction false} CustodianIsSealed(k: Setup) returns (t: State)
    requires Honest(k)
    ensures Reached(k, t) && Still(t) && t.cp.Alive? && t.wp == Reaped(Exit(0)) && t.w == Worker(WTarget, Cargo(k))
    ensures OYoung(t.o) && t.o.phase.Running? && {OGotReady, OTriedRun, OGotSeal} <= t.o.flags
    ensures exists c :: CRetired(k, c) && c.wait == Some(Exit(HELPER_OK)) && c.Is(CIsProducer) && c.Is(CHasSettled) && t.c == Sealing(k, c)
  {
    t := AnchorIsGone(k);
    var c := t.c;
    RetiredFacts(k, c);
    hide Honest, Reached, Cargo, CRetired, Sealing;
    t := SealIsSent(k, t);
  }

  lemma SealedFacts(k: Setup, c: Custodian)
    requires CRetired(k, c) && c.Is(CIsProducer) && c.Is(CHasSettled)
    ensures var d := Sealing(k, c);
            && d.work == Some(WORK) && d.outputs == (0, 0) && d.wait == c.wait && d.Is(CHasWriter) == k.journalled
            && {CHasSettled, CIsProducer, CSentSeal, CTriedCreate, CTriedRun} <= d.flags
            && d.flags !! {CSentFinal, COverflowed, CLostSource, CHasFailed, CIsUnknown, CIsFinished}
            && (k.journalled ==> d.Is(CTriedPublish) && d.Is(CHasFence))
  {
  }

  lemma {:induction false} CustodianIsDone(k: Setup) returns (t: State)
    requires Honest(k)
    ensures Reached(k, t) && t.cp == Zombie(Exit(HELPER_OK)) && t.co == [Final(Report(k))]
    ensures t.wp == Reaped(Exit(0)) && t.w == Worker(WTarget, Cargo(k))
    ensures OYoung(t.o) && t.o.phase.Running? && {OGotReady, OTriedRun, OGotSeal} <= t.o.flags
  {
    t := CustodianIsSealed(k);
    var c :| CRetired(k, c) && c.wait == Some(Exit(HELPER_OK)) && c.Is(CIsProducer) && c.Is(CHasSettled) && t.c == Sealing(k, c);
    SealedFacts(k, c);
    hide Honest, Reached, Cargo, OYoung, CRetired, Sealing;
    t := FinalIsSent(k, t);
  }

  /** The report O accepts closes everything. */
  lemma {:induction false} ReportIsOver(k: Setup) returns (t: State)
    requires Honest(k)
    ensures Reached(k, t) && t.cp == Zombie(Exit(HELPER_OK)) && t.wp == Reaped(Exit(0)) && t.w == Worker(WTarget, Cargo(k))
    ensures OYoung(t.o.(terminal := None)) && t.o.phase.Running? && {OGotSeal, OSawEof, OSawStdoutEof, OSawStderrEof} <= t.o.flags
    ensures t.o.terminal == Some(Report(k))
  {
    t := CustodianIsDone(k);
    hide Honest, Cargo, Reached, Report;
    t := ReportIsRead(k, t);
    t := StreamsEnd(k, t);
  }

  lemma {:induction false} FinalityIsReached(k: Setup) returns (t: State)
    requires Honest(k)
    ensures Reached(k, t) && Finality(t) && t.o.terminal == Some(Report(k)) && t.wp == Reaped(Exit(0)) && t.w == Worker(WTarget, Cargo(k))
  {
    t := ReportIsOver(k);
    hide Honest, Cargo, Reached;
    t := CustodianIsReaped(k, t);
  }

  /**
   Main result: every frozen command has a run in which the worker reads exactly its record, executes it, and
   O's finality is reached with a successful report.
   */
  lemma {:induction false} EveryCommandCanFinish(k: Setup) returns (actions: seq<Action>)
    requires Honest(k)
    ensures var s := Run(k, Initial, actions);
            && Finality(s) && s.o.terminal.value.result
            && s.w.phase.WTarget? && Flatten(s.w.fed) == Record(k.command) && s.wp == Reaped(Exit(0))
  {
    var t := FinalityIsReached(k);
    FlattenCut(Record(k.command));
    hide Honest, Run, Finality;
    actions :| Run(k, Initial, actions) == t;
  }
}
