/**
 Runs of the chain step by step: what a concrete list of actions reaches.
 */
module ChainPaths {
  import opened Bytes
  import opened Chains

  ghost predicate Reached(k: Setup, s: State)
    requires Honest(k)
  {
    exists actions :: Run(k, Initial, actions) == s
  }

  lemma {:induction false} Goes(k: Setup, s: State, a: Action, s': State)
    requires Honest(k) && Reached(k, s) && Step(k, s, a) == s'
    ensures Reached(k, s')
  {
    hide Honest, Step, Run;
    var actions :| Run(k, Initial, actions) == s;
    RunPlus(k, Initial, actions, a);
  }

  lemma RunNothing(k: Setup, s: State)
    requires Honest(k)
    ensures Run(k, s, []) == s
  {
  }

  lemma {:induction false} RunPlus(k: Setup, s: State, actions: seq<Action>, a: Action)
    requires Honest(k)
    ensures Run(k, s, actions + [a]) == Step(k, Run(k, s, actions), a)
    decreases |actions|
  {
    hide Honest, Step;
    if actions == [] {
      assert ([] + [a])[1..] == [];
      assert Run(k, Step(k, s, a), []) == Step(k, s, a);
    } else {
      assert (actions + [a])[1..] == actions[1..] + [a];
      RunPlus(k, Step(k, s, actions[0]), actions[1..], a);
    }
  }

  lemma Extended(k: Setup, actions: seq<Action>, a: Action) returns (longer: seq<Action>)
    requires Honest(k)
    ensures Run(k, Initial, longer) == Step(k, Run(k, Initial, actions), a)
  {
    RunPlus(k, Initial, actions, a);
    longer := actions + [a];
  }

  // ---------- C is started ----------

  const Published0 := Initial.(o := Initial.o.(spawn := Published, phase := Starting), cp := Alive)

  lemma Starts(k: Setup)
    requires Honest(k)
    ensures Step(k, Step(k, Step(k, Initial, OAct(OSpawn)), Sys(BearC)), OAct(OPublish)) == Published0
  {
    hide Honest, Cargo;
    assert Step(k, Initial, OAct(OSpawn)) == Initial.(o := Initial.o.(spawn := Trying));
  }

  lemma {:induction false} Begins(k: Setup)
    requires Honest(k)
    ensures Reached(k, Published0)
  {
    RunNothing(k, Initial);
    Starts(k);
    assert Reached(k, Initial) by { assert Run(k, Initial, []) == Initial; }
    hide Honest, Reached, Step, Run;
    var s1 := Step(k, Initial, OAct(OSpawn));
    var s2 := Step(k, s1, Sys(BearC));
    Goes(k, Initial, OAct(OSpawn), s1);
    Goes(k, s1, Sys(BearC), s2);
    Goes(k, s2, OAct(OPublish), Published0);
  }

  // ---------- one step of one role ----------

  lemma {:induction false} CSends(k: Setup, s: State, x: CustodianSend) returns (t: State)
    requires Honest(k) && Reached(k, s)
    requires s.cp.Alive? && !s.c.Is(CIsFinished) && CustodianSendEnabled(k, s, x)
    ensures t == CustodianSendStep(k, s, x) && Reached(k, t)
  {
    hide Honest, Reached, CustodianSendEnabled, CustodianSendStep;
    t := CustodianSendStep(k, s, x);
    Goes(k, s, CAct(CSend(x)), t);
  }

  lemma {:induction false} CMoves(k: Setup, s: State, x: CustodianMove) returns (t: State)
    requires Honest(k) && Reached(k, s)
    requires s.cp.Alive? && !s.c.Is(CIsFinished) && CustodianMoveEnabled(k, s, x)
    ensures t == CustodianMoveStep(k, s, x) && Reached(k, t)
  {
    hide Honest, Reached, CustodianMoveEnabled, CustodianMoveStep;
    t := CustodianMoveStep(k, s, x);
    Goes(k, s, CAct(CMove(x)), t);
  }

  lemma {:induction false} CWatches(k: Setup, s: State, x: CustodianWatch) returns (t: State)
    requires Honest(k) && Reached(k, s)
    requires s.cp.Alive? && !s.c.Is(CIsFinished) && CustodianWatchEnabled(k, s, x)
    ensures t == CustodianWatchStep(k, s, x) && Reached(k, t)
  {
    hide Honest, Reached, CustodianWatchEnabled, CustodianWatchStep;
    t := CustodianWatchStep(k, s, x);
    Goes(k, s, CAct(CWatch(x)), t);
  }

  lemma {:induction false} CCleans(k: Setup, s: State, x: CustodianClean) returns (t: State)
    requires Honest(k) && Reached(k, s)
    requires s.cp.Alive? && !s.c.Is(CIsFinished) && CustodianCleanEnabled(k, s, x)
    ensures t == CustodianCleanStep(k, s, x) && Reached(k, t)
  {
    hide Honest, Reached, CustodianCleanEnabled, CustodianCleanStep;
    t := CustodianCleanStep(k, s, x);
    Goes(k, s, CAct(CClean(x)), t);
  }

  lemma {:induction false} CEnds(k: Setup, s: State, x: CustodianEnd) returns (t: State)
    requires Honest(k) && Reached(k, s)
    requires s.cp.Alive? && (s.c.Is(CIsFinished) ==> x.CExit?) && CustodianEndEnabled(k, s, x)
    ensures t == CustodianEndStep(k, s, x) && Reached(k, t)
  {
    hide Honest, Reached, CustodianEndEnabled, CustodianEndStep;
    t := CustodianEndStep(k, s, x);
    Goes(k, s, CAct(CEnd(x)), t);
  }

  lemma {:induction false} CTakes(k: Setup, s: State) returns (t: State)
    requires Honest(k) && Reached(k, s)
    requires s.cp.Alive? && !s.c.Is(CIsFinished) && !s.c.Is(CHasFailed) && !s.c.Is(CIsClosing)
             && ReadsOuter(s.c) && s.oc != [] && CustodianReceives(k, s.c, s.oc[0]).Some?
    ensures t == s.(c := CustodianReceives(k, s.c, s.oc[0]).value, oc := s.oc[1..]) && Reached(k, t)
  {
    hide Honest, Reached, ReadsOuter, CustodianReceives;
    t := s.(c := CustodianReceives(k, s.c, s.oc[0]).value, oc := s.oc[1..]);
    Goes(k, s, CAct(CReceive), t);
  }

  lemma {:induction false} CListens(k: Setup, s: State) returns (t: State)
    requires Honest(k) && Reached(k, s)
    requires s.cp.Alive? && !s.c.Is(CIsFinished) && (ReadsAnchor(s.c.phase) || s.c.Is(CIsClosing))
             && s.ac != [] && !s.c.Is(CIsBroken) && !s.c.Is(CIsShut) && CustodianHears(s.c, s.ac[0]).Some?
    ensures t == s.(c := CustodianHears(s.c, s.ac[0]).value, ac := s.ac[1..]) && Reached(k, t)
  {
    hide Honest, Reached, ReadsAnchor, CustodianHears;
    t := s.(c := CustodianHears(s.c, s.ac[0]).value, ac := s.ac[1..]);
    Goes(k, s, CAct(CHear), t);
  }

  lemma {:induction false} ASends(k: Setup, s: State, x: AnchorSend) returns (t: State)
    requires Honest(k) && Reached(k, s)
    requires s.ap.Alive? && !s.a.Is(AIsFinished) && AnchorSendEnabled(k, s, x)
    ensures t == AnchorSendStep(k, s, x) && Reached(k, t)
  {
    hide Honest, Reached, AnchorSendEnabled, AnchorSendStep;
    t := AnchorSendStep(k, s, x);
    Goes(k, s, AAct(ASend(x)), t);
  }

  lemma {:induction false} AMoves(k: Setup, s: State, x: AnchorMove) returns (t: State)
    requires Honest(k) && Reached(k, s)
    requires s.ap.Alive? && !s.a.Is(AIsFinished) && AnchorMoveEnabled(k, s, x)
    ensures t == AnchorMoveStep(k, s, x) && Reached(k, t)
  {
    hide Honest, Reached, AnchorMoveEnabled, AnchorMoveStep;
    t := AnchorMoveStep(k, s, x);
    Goes(k, s, AAct(AnchorAction.AMove(x)), t);
  }

  lemma {:induction false} AWatches(k: Setup, s: State, x: AnchorWatch) returns (t: State)
    requires Honest(k) && Reached(k, s)
    requires s.ap.Alive? && !s.a.Is(AIsFinished) && AnchorWatchEnabled(k, s, x)
    ensures t == AnchorWatchStep(k, s, x) && Reached(k, t)
  {
    hide Honest, Reached, AnchorWatchEnabled, AnchorWatchStep;
    t := AnchorWatchStep(k, s, x);
    Goes(k, s, AAct(AWatch(x)), t);
  }

  lemma {:induction false} ACleans(k: Setup, s: State, x: AnchorClean) returns (t: State)
    requires Honest(k) && Reached(k, s)
    requires s.ap.Alive? && (s.a.Is(AIsFinished) ==> x.AExit?) && AnchorCleanEnabled(k, s, x)
    ensures t == AnchorCleanStep(k, s, x) && Reached(k, t)
  {
    hide Honest, Reached, AnchorCleanEnabled, AnchorCleanStep;
    t := AnchorCleanStep(k, s, x);
    Goes(k, s, AAct(AClean(x)), t);
  }

  lemma {:induction false} ATakes(k: Setup, s: State) returns (t: State)
    requires Honest(k) && Reached(k, s)
    requires s.ap.Alive? && !s.a.Is(AIsFinished) && !s.a.Is(AHasFailed) && !s.a.Is(AIsClosing)
             && ReadsCustodian(s.a) && s.ca != [] && AnchorReceives(s.a, s.ca[0]).Some?
    ensures t == s.(a := AnchorReceives(s.a, s.ca[0]).value, ca := s.ca[1..]) && Reached(k, t)
  {
    hide Honest, Reached, ReadsCustodian, AnchorReceives;
    t := s.(a := AnchorReceives(s.a, s.ca[0]).value, ca := s.ca[1..]);
    Goes(k, s, AAct(AReceive), t);
  }

  lemma {:induction false} AListens(k: Setup, s: State) returns (t: State)
    requires Honest(k) && Reached(k, s)
    requires s.ap.Alive? && !s.a.Is(AIsFinished) && (ReadsWorker(s.a.phase) || s.a.Is(AIsClosing))
             && s.wa != [] && !s.a.Is(AIsBroken) && !s.a.Is(AIsShut) && AnchorHears(s.a, s.wa[0]).Some?
    ensures t == s.(a := AnchorHears(s.a, s.wa[0]).value, wa := s.wa[1..]) && Reached(k, t)
  {
    hide Honest, Reached, ReadsWorker, AnchorHears;
    t := s.(a := AnchorHears(s.a, s.wa[0]).value, wa := s.wa[1..]);
    Goes(k, s, AAct(AHear), t);
  }

  lemma {:induction false} AAwaits(k: Setup, s: State) returns (t: State)
    requires Honest(k) && Reached(k, s)
    requires s.ap.Alive? && !s.a.Is(AIsFinished) && s.a.Is(ASentWork) && !s.a.Is(AGotGroupDone) && s.ca != [] && s.ca[0].GroupDone?
    ensures t == s.(a := s.a.Set({AGotGroupDone}), ca := s.ca[1..]) && Reached(k, t)
  {
    hide Honest, Reached, AnchorReceives;
    t := s.(a := s.a.Set({AGotGroupDone}), ca := s.ca[1..]);
    Goes(k, s, AAct(AAwait), t);
  }

  lemma {:induction false} OSteps(k: Setup, s: State, x: OuterAction) returns (t: State)
    requires Honest(k) && Reached(k, s)
    requires OuterEnabled(k, s, x)
    ensures t == OuterStep(k, s, x) && Reached(k, t)
  {
    hide Honest, Reached, OuterEnabled, OuterStep;
    t := OuterStep(k, s, x);
    Goes(k, s, OAct(x), t);
  }

  lemma {:induction false} WSteps(k: Setup, s: State, x: WorkerAction) returns (t: State)
    requires Honest(k) && Reached(k, s)
    requires WorkerEnabled(k, s, x)
    ensures t == WorkerStep(k, s, x) && Reached(k, t)
  {
    hide Honest, Reached, WorkerEnabled, WorkerStep;
    t := WorkerStep(k, s, x);
    Goes(k, s, WAct(x), t);
  }

  lemma {:induction false} SSteps(k: Setup, s: State, x: SystemAction) returns (t: State)
    requires Honest(k) && Reached(k, s)
    requires SystemEnabled(s, x)
    ensures t == SystemStep(s, x) && Reached(k, t)
  {
    hide Honest, Reached, SystemEnabled, SystemStep;
    t := SystemStep(s, x);
    Goes(k, s, Sys(x), t);
  }

  lemma {:induction false} OHears(k: Setup, s: State) returns (t: State)
    requires Honest(k) && Reached(k, s)
    requires s.co != [] && !s.o.Is(OIsBroken) && OuterReceives(k, s.o, s.co[0]).Some?
    ensures t == s.(o := OuterReceives(k, s.o, s.co[0]).value, co := s.co[1..]) && Reached(k, t)
  {
    hide Honest, Reached, OuterReceives, Cargo;
    t := s.(o := OuterReceives(k, s.o, s.co[0]).value, co := s.co[1..]);
    Goes(k, s, OAct(OReceive), t);
  }
}
