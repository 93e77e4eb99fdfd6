/**
 Every step of O keeps the invariant of the chain.
 */
module ChainOuters {
  import opened Bytes
  import opened Manifests
  import opened Records
  import opened Decoders
  import opened Chunker
  import opened Chains
  import opened ChainInvariants
  import opened ChainLinks

  predicate OuterCreates(x: OuterAction) {
    x.OSpawn? || x.OPublish? || x.OLose? || x.OConfigure? || x.OBind? || x.OReserve? || x.OAttemptCreate? || x.ODeliverCreate?
  }

  predicate OuterSends(x: OuterAction) {
    x.OAnnounce? || x.OSendData? || x.OAwait? || x.OAttemptRun? || x.ODeliverRun?
  }

  lemma OuterLocalCreates(k: Setup, s: State, x: OuterAction)
    requires Honest(k) && OuterEnabled(k, s, x) && OLocal(k, s.o) && OuterCreates(x)
    ensures var s' := OuterStep(k, s, x); OLocal(k, s'.o) && OGrows(s.o, s'.o)
  {
    hide Honest, Cargo, TerminalAdmissible;
  }

  lemma OuterLocalSends(k: Setup, s: State, x: OuterAction)
    requires Honest(k) && OuterEnabled(k, s, x) && OLocal(k, s.o) && OuterSends(x)
    ensures var s' := OuterStep(k, s, x); OLocal(k, s'.o) && OGrows(s.o, s'.o)
  {
    hide Honest, Cargo, TerminalAdmissible;
  }

  lemma OuterLocalReceives(k: Setup, o: Outer, m: Message)
    requires Honest(k) && OLocal(k, o) && OuterReceives(k, o, m).Some?
    ensures var o' := OuterReceives(k, o, m).value; OLocal(k, o') && OGrows(o, o')
  {
    hide Honest, Cargo, TerminalAdmissible;
  }

  predicate OuterFails(x: OuterAction) {
    x.OBreak? || x.OFail? || x.OUnknown?
  }

  predicate OuterWatches(x: OuterAction) {
    x.OEof? || x.OOutput? || x.OOutputEof?
  }

  predicate OuterCleans(x: OuterAction) {
    x.OClose? || x.OStop? || x.OShut? || x.OBeginWait? || x.OWait?
  }

  lemma OuterLocalFails(k: Setup, s: State, x: OuterAction)
    requires Honest(k) && OuterEnabled(k, s, x) && OLocal(k, s.o) && OuterFails(x)
    ensures var s' := OuterStep(k, s, x); OLocal(k, s'.o) && OGrows(s.o, s'.o)
  {
    hide Honest, Cargo, OuterReceives;
  }

  lemma OuterLocalWatches(k: Setup, s: State, x: OuterAction)
    requires Honest(k) && OuterEnabled(k, s, x) && OLocal(k, s.o) && OuterWatches(x)
    ensures var s' := OuterStep(k, s, x); OLocal(k, s'.o) && OGrows(s.o, s'.o)
  {
    hide Honest, Cargo, OuterReceives;
  }

  lemma OuterLocalCleans(k: Setup, s: State, x: OuterAction)
    requires Honest(k) && OuterEnabled(k, s, x) && OLocal(k, s.o) && OuterCleans(x)
    ensures var s' := OuterStep(k, s, x); OLocal(k, s'.o) && OGrows(s.o, s'.o)
  {
    hide Honest, Cargo, OuterReceives;
  }

  lemma OuterLocal(k: Setup, s: State, x: OuterAction)
    requires Honest(k) && OuterEnabled(k, s, x) && OLocal(k, s.o)
    ensures var s' := OuterStep(k, s, x); OLocal(k, s'.o) && OGrows(s.o, s'.o)
  {
    hide Honest, Cargo, OuterReceives, OLocal, OGrows;
    if OuterCreates(x) { OuterLocalCreates(k, s, x); }
    else if OuterSends(x) { OuterLocalSends(k, s, x); }
    else if OuterFails(x) { OuterLocalFails(k, s, x); }
    else if OuterWatches(x) { OuterLocalWatches(k, s, x); }
    else if OuterCleans(x) { OuterLocalCleans(k, s, x); }
    else if OuterReceives(k, s.o, s.co[0]).Some? { OuterLocalReceives(k, s.o, s.co[0]); }
    else { assert x.OReceive?; OuterLocalFails(k, s, OBreak); }
  }

  /** What one step of O can do to the rest of the world, and which of its own facts it leaves alone. */
  ghost predicate OuterEffect(k: Setup, s: State, s': State)
    requires Honest(k)
  {
    var o, o' := s.o, s'.o;
    && s' == s.(o := o', oc := s'.oc, co := s'.co, cp := s'.cp)
    && (o'.spawn.NotTried? ==> o.spawn.NotTried?) && (o'.spawn.Published? ==> o.spawn.Published? || !s.cp.Unborn?)
    && (if s'.co == s.co then SameView(o, o')
        else s.co != [] && s'.co == s.co[1..] && OuterReceives(k, o, s.co[0]) == Some(o') && s'.oc == s.oc && s'.cp == s.cp)
    && Pushed(s.oc, s'.oc)
    && (if s'.oc == s.oc then o'.sent == o.sent else JustOC(o', s'.oc[|s.oc|]) && Shipped(k, o, o', s'.oc[|s.oc|]))
    && (if s'.cp == s.cp then o'.wait == o.wait
        else s.cp.Zombie? && s'.cp == Reaped(s.cp.receipt) && o.wait == None && o'.wait == Some(s.cp.receipt))
  }

  ghost predicate SameView(o: Outer, o': Outer) {
    o'.Is(OGotReady) == o.Is(OGotReady) && o'.Is(OGotSeal) == o.Is(OGotSeal) && o'.terminal == o.terminal
  }

  ghost predicate Shipped(k: Setup, o: Outer, o': Outer, m: Message)
    requires Honest(k)
  {
    if m.Data? then o.sent < |Cargo(k)| && m.bytes == Cargo(k)[o.sent] && o'.sent == o.sent + 1 else o'.sent == o.sent
  }

  lemma OuterEffectSends(k: Setup, s: State, x: OuterAction)
    requires Honest(k) && OuterEnabled(k, s, x) && OLocal(k, s.o) && (OuterCreates(x) || OuterSends(x))
    ensures OuterEffect(k, s, OuterStep(k, s, x))
  {
    hide Honest, Cargo, OuterReceives;
  }

  lemma OuterEffectWatches(k: Setup, s: State, x: OuterAction)
    requires Honest(k) && OuterEnabled(k, s, x) && (OuterFails(x) || OuterWatches(x))
    ensures OuterEffect(k, s, OuterStep(k, s, x))
  {
    hide Honest, Cargo, OuterReceives;
  }

  lemma OuterEffectCleans(k: Setup, s: State, x: OuterAction)
    requires Honest(k) && OuterEnabled(k, s, x) && OuterCleans(x)
    ensures OuterEffect(k, s, OuterStep(k, s, x))
  {
    hide Honest, Cargo, OuterReceives;
  }

  lemma OuterReceivesFrame(k: Setup, o: Outer, m: Message)
    requires OuterReceives(k, o, m).Some?
    ensures var o' := OuterReceives(k, o, m).value;
            && o'.sent == o.sent && o'.wait == o.wait && o'.spawn == o.spawn
            && (o'.Is(OGotSeal) <==> o.Is(OGotSeal) || m.Sealed?)
  {
    hide TerminalAdmissible;
  }

  lemma OuterEffects(k: Setup, s: State, x: OuterAction)
    requires Honest(k) && OuterEnabled(k, s, x) && OLocal(k, s.o)
    ensures OuterEffect(k, s, OuterStep(k, s, x))
  {
    hide Honest, Cargo, OuterReceives, OLocal;
    if x.OReceive? {
      if OuterReceives(k, s.o, s.co[0]).Some? { OuterReceivesFrame(k, s.o, s.co[0]); }
    } else if OuterCreates(x) || OuterSends(x) {
      OuterEffectSends(k, s, x);
    } else if OuterCleans(x) {
      OuterEffectCleans(k, s, x);
    } else {
      OuterEffectWatches(k, s, x);
    }
  }

  lemma OuterCrosses(k: Setup, s: State, s': State)
    requires Honest(k) && OuterEffect(k, s, s') && OGrows(s.o, s'.o) && Crosses(k, s) && Links(k, s)
    ensures Crosses(k, s')
  {
    hide Honest, Cargo, CrossCA, CrossAW, LinkOC, LinkCA, LinkAW, LinkWA, LinkAC, SealFirst, Seals, FrameSound, TerminalAdmissible;
    if s'.co != s.co { assert s.co[0] in s.co; }
  }

  lemma OuterLinks(k: Setup, s: State, s': State)
    requires Honest(k) && OuterEffect(k, s, s') && OGrows(s.o, s'.o) && Links(k, s)
    ensures Links(k, s')
  {
    hide Honest, Cargo, LinkCA, LinkAW, LinkWA, LinkAC, Seals, FrameSound, OuterReceives;
    forall m | m in s'.co ensures m in s.co && JustCO(k, s'.o, s'.c, s'.a, m) {
      assert JustCO(k, s.o, s.c, s.a, m);
    }
    if s'.co != s.co {
      OuterReceivesFrame(k, s.o, s.co[0]);
      if Seals(s.co) && !s.co[0].Sealed? { SealsTail(s.co); }
    }
  }

  lemma OuterFlows(k: Setup, s: State, s': State)
    requires Honest(k) && OuterEffect(k, s, s') && OLocal(k, s'.o) && Flows(k, s)
    ensures Flows(k, s')
  {
    hide Honest, Cargo, FlowCA, FlowAW, OuterReceives, DataOf;
    if s'.co != s.co { OuterReceivesFrame(k, s.o, s.co[0]); }
    if s'.oc != s.oc {
      var m := s'.oc[|s.oc|];
      DataPlus(s.oc, m);
      if m.Data? { assert Cargo(k)[..s.o.sent + 1] == Cargo(k)[..s.o.sent] + [m.bytes]; }
    }
  }

  lemma OuterProcesses(k: Setup, s: State, s': State)
    requires Honest(k) && OuterEffect(k, s, s') && Processes(s)
    ensures Processes(s')
  {
    hide Honest, Cargo, ProcA, ProcW, OuterReceives;
    if s'.co != s.co { OuterReceivesFrame(k, s.o, s.co[0]); }
  }

  lemma OuterKeeps(k: Setup, s: State, x: OuterAction)
    requires Honest(k) && OuterEnabled(k, s, x) && Inv(k, s)
    ensures Inv(k, OuterStep(k, s, x))
  {
    OuterLocal(k, s, x);
    OuterEffects(k, s, x);
    var s' := OuterStep(k, s, x);
    hide Honest, OLocal, CGrants, CCleanup, CResult, ALocal, AReport, WLocal, OuterStep, OuterEnabled, OGrows;
    hide Crosses, Links, Flows, Processes, SameView, OuterReceives, JustOC, Shipped;
    OuterCrosses(k, s, s');
    OuterLinks(k, s, s');
    OuterFlows(k, s, s');
    OuterProcesses(k, s, s');
  }
}
