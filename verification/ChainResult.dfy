/**
 What the chain guarantees in every interleaving: when a worker may execute, what
 a published finality means, and which final frames O accepts.
 */
module ChainResults {
  import opened Bytes
  import opened Manifests
  import opened Records
  import opened Decoders
  import opened Chunker
  import opened Chains
  import opened ChainInvariants
  import opened ChainPaths
  import opened ChainRuns
  import ChainCustodians

  // ---------- authority to execute ----------

  lemma {:induction false} FlattenPrefix(a: seq<seq<byte>>, b: seq<seq<byte>>)
    requires a <= b
    ensures Flatten(a) <= Flatten(b)
  {
    FlattenAppend(a, b[|a|..]);
    assert a + b[|a|..] == b;
  }

  /** Pieces of the frozen record that complete the decoder decode to the frozen command and to nothing else. */
  lemma DecodedIsFrozen(k: Setup, fed: seq<seq<byte>>)
    requires Honest(k) && fed <= Cargo(k)
    requires SessionOf(k, Worker(WStart, fed)).Done()
    ensures SessionOf(k, Worker(WStart, fed)).reading.command == k.command
  {
    var c := SessionOf(k, Worker(WStart, fed)).reading.command;
    StartClean(k.manifest);
    OnlyTheRecordCompletes(k.sha, k.manifest, fed);
    FlattenPrefix(fed, Cargo(k));
    FlattenCut(Record(k.command));
    RecordLength(c);
    RecordLength(k.command);
    RecordsAreUnambiguous(k.sha, k.manifest, c, k.command);
  }

  lemma FedIsCargo(k: Setup, s: State)
    requires Honest(k) && Flows(k, s)
    ensures s.w.fed <= Cargo(k)
  {
    hide Honest, Cargo, DataOf;
    assert s.w.fed <= s.a.got[..s.a.forwarded] <= s.a.got;
    assert s.a.got <= s.c.got[..s.c.forwarded] <= s.c.got;
    assert s.c.got <= Cargo(k)[..s.o.sent] <= Cargo(k);
  }

  lemma DoneIsFrozen(k: Setup, s: State)
    requires Honest(k) && Inv(k, s) && WDone(k, s.w)
    ensures SessionOf(k, s.w).reading.command == k.command
  {
    FedIsCargo(k, s);
    assert SessionOf(k, s.w) == SessionOf(k, Worker(WStart, s.w.fed));
    hide Honest, Inv, FedAll;
    DecodedIsFrozen(k, s.w.fed);
  }

  predicate AboutToExecute(p: WorkerPhase) { p.WArmed? || p.WTarget? || p.WRefused? }

  /**
   Main result: a worker that enters its exec loop holds exactly the command O froze, and O had by then
   consumed its create permit, sent the grant to create, received READY and sent the grant to run.
   */
  lemma ExecutionIsAuthorised(k: Setup, actions: seq<Action>)
    requires Honest(k)
    ensures var s := Run(k, Initial, actions);
            AboutToExecute(s.w.phase) ==>
              && SessionOf(k, s.w).Done() && SessionOf(k, s.w).reading.command == k.command
              && s.o.Is(OHoldsPermit) && s.o.Is(OTriedCreate) && s.o.Is(OGotReady) && s.o.Is(OTriedRun)
  {
    Reachable(k, actions);
    var s := Run(k, Initial, actions);
    hide Honest, Run;
    if AboutToExecute(s.w.phase) {
      DoneIsFrozen(k, s);
      hide SessionOf, Links, Flows, Processes;
    }
  }

  /** No worker process exists before O consumed its permit, and O never releases a worker that has not decoded the whole command. */
  lemma GrantsAreOrdered(k: Setup, actions: seq<Action>)
    requires Honest(k)
    ensures var s := Run(k, Initial, actions);
            && (!s.wp.Unborn? ==> s.o.Is(OHoldsPermit) && s.o.Is(OTriedCreate))
            && (s.o.Is(OGotReady) ==> SessionOf(k, s.w).Done() && SessionOf(k, s.w).reading.command == k.command)
            && (s.o.Is(OTriedRun) ==> s.o.Is(OGotReady))
            && (s.o.Is(OTriedCreate) ==> s.o.Is(OHoldsPermit) && s.o.Is(OGotPrepared))
  {
    Reachable(k, actions);
    var s := Run(k, Initial, actions);
    hide Honest, Run;
    if s.o.Is(OGotReady) {
      assert WDone(k, s.w);
      DoneIsFrozen(k, s);
    }
    hide SessionOf, Links, Flows;
  }

  // ---------- finality ----------

  /** What O may believe once it publishes an original finality for a created C: each parent holds its child's own receipt. */
  ghost predicate Settled(s: State) {
    && s.cp.Reaped? && s.ap.Reaped? && (s.wp.Unborn? || s.wp.Reaped?)
    && s.o.wait == Some(s.cp.receipt) && s.c.wait == Some(s.ap.receipt) && (s.wp.Reaped? ==> s.a.wait == Some(s.wp.receipt))
    && GroupEmpty(s)
    && s.c.Is(CSawAbsent) && s.c.Is(CGroupRetired) && s.c.Is(CBeganWait)
    && s.c.Is(CSawStdoutEof) && s.c.Is(CSawStderrEof) && s.o.Is(OSawStdoutEof) && s.o.Is(OSawStderrEof)
    && s.o.Is(ORetiredRoutes) && s.c.Is(CRetiredRoutes)
  }

  /** The reported wait is the worker's own receipt, and a no-target claim is true of the worker. */
  ghost predicate Truthful(s: State, f: Terminal) {
    && (f.wait.Some? <==> s.wp.Reaped?) && (f.wait.Some? ==> s.wp == Reaped(f.wait.value))
    && (f.noTarget == Some(NoWorkerCreation) ==> s.wp.Unborn?)
    && (f.noTarget.Some? ==> !s.w.phase.WTarget?)
    && (f.result ==> s.wp.Reaped? && s.o.Is(OTriedRun))
  }

  lemma ProducerIsSettled(k: Setup, s: State)
    requires Honest(k) && Inv(k, s) && s.c.Is(CIsProducer)
    ensures s.ap.Reaped? && (s.wp.Unborn? || s.wp.Reaped?) && GroupEmpty(s)
    ensures ProducerFacts(s.c) && s.c.Is(CBeganWait) && s.c.work == s.a.work && s.c.work.Some?
    ensures (s.c.work.value.wait.Some? <==> s.wp.Reaped?) && (s.c.work.value.wait.Some? ==> s.wp == Reaped(s.c.work.value.wait.value))
    ensures s.c.work.value.noChild ==> s.wp.Unborn?
  {
    hide Honest, Links, Flows, OLocal, WLocal, CrossOC, CrossAW, CrossOA, CrossFinal, CRank, ARank;
    assert GoodSettlement(s.c.work.value);
  }

  lemma FinalityIsSettled(k: Setup, s: State)
    requires Honest(k) && Inv(k, s) && Finality(s)
    ensures Settled(s) && Truthful(s, s.o.terminal.value)
  {
    hide Honest, Links, Flows, GroupEmpty, CRank, GoodSettlement;
    ProducerIsSettled(k, s);
    var f := s.o.terminal.value;
    assert FrameEarned(k, s.o, s.c, f);
    NoTargetIsTrue(k, s);
  }

  lemma NoTargetIsTrue(k: Setup, s: State)
    requires Honest(k) && Inv(k, s) && s.c.work.Some? && s.c.work == s.a.work
    ensures NoTargetOf(s.c.work.value).Some? ==> !s.w.phase.WTarget?
  {
    hide Honest, Links, Flows, CGrants, CCleanup, CResult, OLocal, CrossOC, CrossOA, CrossFinal, ProcC, ProcA, Group;
  }

  /**
   Main result: whenever O's finality for a created C holds, C, A and W have each been reaped by their own
   parent, the group is empty and was seen absent, both outputs ended, and O's report about W is W's own receipt.
   */
  lemma FinalityMeansSettled(k: Setup, actions: seq<Action>)
    requires Honest(k)
    ensures var s := Run(k, Initial, actions);
            Finality(s) ==> Settled(s) && Truthful(s, s.o.terminal.value)
  {
    Reachable(k, actions);
    var s := Run(k, Initial, actions);
    hide Honest, Run, Settled, Truthful, Finality, Inv;
    if Finality(s) { FinalityIsSettled(k, s); }
  }

  // ---------- after finality ----------

  /** The part of finality that nothing can undo. */
  ghost predicate Over(s: State) {
    && s.o.Is(OIsClosing) && s.o.terminal.Some? && s.o.spawn.Published? && s.o.Is(ORetiredRoutes)
    && s.cp.Reaped? && s.ap.Reaped? && (s.wp.Unborn? || s.wp.Reaped?) && !s.descendants
  }

  lemma OverStays(k: Setup, s: State, action: Action)
    requires Honest(k) && Over(s)
    ensures var s' := Step(k, s, action);
            Over(s') && s'.oc == s.oc && s'.ca == s.ca && s'.aw == s.aw && s'.w == s.w && s'.wp == s.wp
  {
    hide Honest, TerminalAdmissible, Cargo, FedAll;
    if action.OAct? && OuterEnabled(k, s, action.o) { OuterOver(k, s, action.o); }
  }

  lemma OuterOver(k: Setup, s: State, x: OuterAction)
    requires Honest(k) && Over(s) && OuterEnabled(k, s, x)
    ensures var s' := OuterStep(k, s, x);
            Over(s') && s'.oc == s.oc && s'.ca == s.ca && s'.aw == s.aw && s'.w == s.w && s'.wp == s.wp
  {
    hide Honest, TerminalAdmissible, Cargo;
  }

  /** Main result: after finality no step of any kind sends another grant, and no process of the chain lives again. */
  lemma {:induction false} SilenceAfterFinality(k: Setup, s: State, more: seq<Action>)
    requires Honest(k) && Over(s)
    ensures var s' := Run(k, s, more);
            Over(s') && s'.oc == s.oc && s'.ca == s.ca && s'.aw == s.aw && s'.w == s.w && s'.wp == s.wp
    decreases |more|
  {
    hide Honest, Over, Step;
    if more != [] {
      OverStays(k, s, more[0]);
      SilenceAfterFinality(k, Step(k, s, more[0]), more[1..]);
    }
  }

  lemma FinalityIsOver(k: Setup, s: State)
    requires Honest(k) && Inv(k, s) && Finality(s)
    ensures Over(s)
  {
    FinalityIsSettled(k, s);
    hide Honest, Links, Flows, Crosses, CGrants, CCleanup, CResult, ALocal, AReport, WLocal;
  }

  /** Main result, from the start: once O published its finality, nothing more goes towards a child in any continuation. */
  lemma FinalityIsForever(k: Setup, actions: seq<Action>, more: seq<Action>)
    requires Honest(k)
    ensures var s := Run(k, Initial, actions);
            Finality(s) ==>
              var s' := Run(k, s, more);
              && Over(s') && s'.oc == s.oc && s'.ca == s.ca && s'.aw == s.aw && s'.w == s.w && s'.wp == s.wp
  {
    Reachable(k, actions);
    hide Honest, Run, Over, Finality, Inv;
    var s := Run(k, Initial, actions);
    if Finality(s) {
      FinalityIsOver(k, s);
      SilenceAfterFinality(k, s, more);
    }
  }

  // ---------- signals and waits ----------

  /** Once C has begun to wait for A, whose process number may then be reused, C can neither signal nor probe that number. */
  lemma NoSignalAfterWait(k: Setup, actions: seq<Action>)
    requires Honest(k)
    ensures var s := Run(k, Initial, actions);
            s.ap.Reaped? || s.c.Is(CBeganWait) ==>
              && (forall absent: bool :: !CustodianCleanEnabled(k, s, CSignalGroup(absent)))
              && !CustodianCleanEnabled(k, s, CKillAnchor)
  {
    Reachable(k, actions);
    hide Honest, Run, Links, Flows, Crosses, CResult, CGrants, ALocal, AReport, WLocal, OLocal;
  }

  /** The group's absence can only be observed before that wait, so finality's absence was. */
  lemma {:induction false} AbsenceIsOlder(k: Setup, s: State, more: seq<Action>)
    requires Honest(k) && s.c.Is(CBeganWait)
    ensures Run(k, s, more).c.Is(CSawAbsent) == s.c.Is(CSawAbsent)
    decreases |more|
  {
    hide Honest, Step;
    if more != [] {
      AbsenceStays(k, s, more[0]);
      AbsenceIsOlder(k, Step(k, s, more[0]), more[1..]);
    }
  }

  lemma AbsenceStays(k: Setup, s: State, action: Action)
    requires Honest(k) && s.c.Is(CBeganWait)
    ensures var s' := Step(k, s, action); s'.c.Is(CBeganWait) && s'.c.Is(CSawAbsent) == s.c.Is(CSawAbsent)
  {
    hide Honest, CustodianStep, CustodianEnabled;
    if action.CAct? && CustodianEnabled(k, s, action.c) {
      CustodianAbsence(k, s, action.c);
    } else if !action.CAct? {
      OtherRoles(k, s, action);
    }
  }

  lemma CustodianAbsence(k: Setup, s: State, act: CustodianAction)
    requires CustodianEnabled(k, s, act) && s.c.Is(CBeganWait)
    ensures var c := CustodianStep(k, s, act).c; c.Is(CBeganWait) && c.Is(CSawAbsent) == s.c.Is(CSawAbsent)
  {
    if act.CReceive? || act.CHear? {
      hide GoodSettlement, CustodianReceives, CustodianHears, GroupEmpty;
      if act.CReceive? && CustodianReceives(k, s.c, s.oc[0]).Some? { ChainCustodians.ReceivesFrame(k, s.c, s.oc[0]); ReceivesKeepsWait(k, s.c, s.oc[0]); }
      else if act.CHear? && CustodianHears(s.c, s.ac[0]).Some? { ChainCustodians.HearsFrame(s.c, s.ac[0]); HearsKeepsWait(s.c, s.ac[0]); }
    } else if act.CSend? || act.CMove? || act.CSource? {
      BodyAbsence(k, s, act);
      hide CustodianStep, CustodianEnabled;
    } else {
      TailAbsence(k, s, act);
      hide CustodianStep, CustodianEnabled;
    }
  }

  lemma BodyAbsence(k: Setup, s: State, act: CustodianAction)
    requires CustodianEnabled(k, s, act) && (act.CSend? || act.CMove? || act.CSource?)
    ensures var c := CustodianStep(k, s, act).c; c.Is(CBeganWait) == s.c.Is(CBeganWait) && c.Is(CSawAbsent) == s.c.Is(CSawAbsent)
  {
    hide AllRelayed, Kept;
  }

  lemma TailAbsence(k: Setup, s: State, act: CustodianAction)
    requires CustodianEnabled(k, s, act) && (act.CWatch? || act.CClean? || act.CEnd?) && s.c.Is(CBeganWait)
    ensures var c := CustodianStep(k, s, act).c; c.Is(CBeganWait) && c.Is(CSawAbsent) == s.c.Is(CSawAbsent)
  {
    hide CustodianWatchStep, CustodianCleanStep, CustodianEndStep, CustodianWatchEnabled, CustodianCleanEnabled, CustodianEndEnabled;
    if act.CWatch? { WatchAbsence(k, s, act.watch); }
    else if act.CClean? { CleanAbsence(k, s, act.clean); }
    else { ChainCustodians.EndQuiet(k, s, act.end); }
  }

  lemma WatchAbsence(k: Setup, s: State, x: CustodianWatch)
    requires CustodianWatchEnabled(k, s, x) && s.c.Is(CBeganWait)
    ensures var c := CustodianWatchStep(k, s, x).c; c.Is(CBeganWait) && c.Is(CSawAbsent) == s.c.Is(CSawAbsent)
  {
  }

  lemma CleanAbsence(k: Setup, s: State, x: CustodianClean)
    requires CustodianCleanEnabled(k, s, x) && s.c.Is(CBeganWait)
    ensures var c := CustodianCleanStep(k, s, x).c; c.Is(CBeganWait) && c.Is(CSawAbsent) == s.c.Is(CSawAbsent)
  {
    hide GroupEmpty;
  }

  lemma ReceivesKeepsWait(k: Setup, c: Custodian, m: Message)
    requires CustodianReceives(k, c, m).Some?
    ensures CustodianReceives(k, c, m).value.Is(CBeganWait) == c.Is(CBeganWait)
  {
  }

  lemma HearsKeepsWait(c: Custodian, m: Message)
    requires CustodianHears(c, m).Some?
    ensures CustodianHears(c, m).value.Is(CBeganWait) == c.Is(CBeganWait)
  {
    hide GoodSettlement;
  }

  lemma OtherRoles(k: Setup, s: State, action: Action)
    requires Honest(k) && !action.CAct?
    ensures Step(k, s, action).c == s.c
  {
    hide Honest, OuterEnabled, AnchorEnabled, WorkerEnabled, SystemEnabled;
  }

  // ---------- O's cross-checks ----------

  /**
   Main result: of the final frames an honest C can send, O's cross-checks refuse exactly those of a journalled
   command whose C never got as far as its fence writer; every frame that claims settled producers passes.
   */
  lemma FinalFramesPass(k: Setup, actions: seq<Action>)
    requires Honest(k)
    ensures var s := Run(k, Initial, actions);
            s.co != [] && s.co[0].Final? ==>
              var f := s.co[0].terminal;
              && (TerminalAdmissible(k, s.o, f) <==> (k.journalled ==> f.fence.Some?))
              && (f.producer ==> TerminalAdmissible(k, s.o, f))
              && (f.result ==> f.producer && f.run && f.wait.Some? && (k.journalled ==> f.fence == Some(true)))
  {
    Reachable(k, actions);
    var s := Run(k, Initial, actions);
    hide Run;
    assert k.manifest.Valid();
    hide Honest;
    if s.co != [] && s.co[0].Final? {
      assert s.co[0] in s.co;
      FinalPasses(k, s, s.co[0].terminal);
    }
  }

  lemma FinalPasses(k: Setup, s: State, f: Terminal)
    requires Honest(k) && k.manifest.limit <= OUTPUT_LIMIT
    requires OLocal(k, s.o) && FrameEarned(k, s.o, s.c, f) && (f.producer ==> s.o.Is(OGotSeal))
    ensures TerminalAdmissible(k, s.o, f) <==> (k.journalled ==> f.fence.Some?)
    ensures f.producer ==> TerminalAdmissible(k, s.o, f)
    ensures f.result ==> f.producer && f.run && f.wait.Some? && (k.journalled ==> f.fence == Some(true))
  {
    hide Honest, Cargo, GoodReceipt;
  }

  /** The refused family is real: C may fail before its writer exists, and its last frame then lacks the fence O insists on. */
  lemma AnEarlyFailureIsRefused(k: Setup) returns (actions: seq<Action>)
    requires Honest(k) && k.journalled
    ensures var s := Run(k, Initial, actions);
            s.co != [] && s.co[0].Final? && !s.co[0].terminal.producer && !TerminalAdmissible(k, s.o, s.co[0].terminal)
  {
    hide Honest, Run, Step;
    actions := FailedCustodian(k);
    LastFrame(k, Run(k, Initial, actions));
    RunPlus(k, Initial, actions, CAct(CEnd(CFinal(false))));
    actions := actions + [CAct(CEnd(CFinal(false)))];
  }

  lemma FailedCustodian(k: Setup) returns (actions: seq<Action>)
    requires Honest(k)
    ensures Run(k, Initial, actions)
            == Published0.(c := Initial.c.(flags := {CHasFailed, CRetiredRoutes, CIsClosing, CIsShut, CHasSettled}))
  {
    RunNothing(k, Initial);
    Starts(k); Fails(k); Settles(k);
    hide *;
    actions := [];
    actions := Extended(k, actions, OAct(OSpawn));
    actions := Extended(k, actions, Sys(BearC));
    actions := Extended(k, actions, OAct(OPublish));
    actions := Extended(k, actions, CAct(CWatch(CFail)));
    actions := Extended(k, actions, CAct(CClean(CClose)));
    actions := Extended(k, actions, CAct(CClean(CShut)));
    actions := Extended(k, actions, CAct(CEnd(CSettle)));
  }

  lemma Settles(k: Setup)
    requires Honest(k)
    ensures Step(k, Step(k, Published0.(c := Initial.c.(flags := {CHasFailed, CRetiredRoutes, CIsClosing})), CAct(CClean(CShut))),
                 CAct(CEnd(CSettle)))
            == Published0.(c := Initial.c.(flags := {CHasFailed, CRetiredRoutes, CIsClosing, CIsShut, CHasSettled}))
  {
    hide Honest, FedAll;
    var s := Published0.(c := Initial.c.(flags := {CHasFailed, CRetiredRoutes, CIsClosing}));
    assert Step(k, s, CAct(CClean(CShut))) == Published0.(c := Initial.c.(flags := {CHasFailed, CRetiredRoutes, CIsClosing, CIsShut}));
  }

  lemma Fails(k: Setup)
    requires Honest(k)
    ensures Step(k, Step(k, Published0, CAct(CWatch(CFail))), CAct(CClean(CClose)))
            == Published0.(c := Initial.c.(flags := {CHasFailed, CRetiredRoutes, CIsClosing}))
  {
    hide Honest, FedAll;
    assert Step(k, Published0, CAct(CWatch(CFail))) == Published0.(c := Initial.c.(flags := {CHasFailed, CRetiredRoutes}));
  }

  lemma LastFrame(k: Setup, s: State)
    requires Honest(k) && k.journalled
    requires s == Published0.(c := Initial.c.(flags := {CHasFailed, CRetiredRoutes, CIsClosing, CIsShut, CHasSettled}))
    ensures var s' := Step(k, s, CAct(CEnd(CFinal(false))));
            s'.co != [] && s'.co[0].Final? && !s'.co[0].terminal.producer && !TerminalAdmissible(k, s'.o, s'.co[0].terminal)
  {
    hide Honest, FedAll;
    assert CustodianEnabled(k, s, CEnd(CFinal(false)));
  }
}
