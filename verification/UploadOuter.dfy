/**
 Every step of O, and of the system, keeps the invariant of the upload capture.
 */
module UploadOuters {
  import opened Bytes
  import opened Uploads
  import opened UploadInvariants
  import Children

  lemma ReceivesLocal(p: Setup, o: Outer, oc: Link, f: Frame)
    requires OLocal(o, oc) && OuterReceives(p, o, oc, f).Some?
    ensures var o' := OuterReceives(p, o, oc, f).value;
            OLocal(o', oc) && OGrows(o, o') && o'.spawn == o.spawn && o'.wait == o.wait
  {
    hide GoodTerminal, FinalAdmissible;
  }

  lemma ReceivesCross(p: Setup, o: Outer, oc: Link, c: Custodian, f: Frame)
    requires CrossCO(p, o, c) && JustCO(p, c, f) && OuterReceives(p, o, oc, f).Some?
    ensures CrossCO(p, OuterReceives(p, o, oc, f).value, c)
  {
    hide GoodTerminal, FinalAdmissible;
  }

  lemma StepLocal(p: Setup, s: State, a: OuterAction)
    requires OuterEnabled(p, s, a) && !a.OReceive? && OLocal(s.o, s.oc) && LinkOC(p, s.o, s.oc)
    ensures var s' := OuterStep(p, s, a); OLocal(s'.o, s'.oc) && OGrows(s.o, s'.o)
  {
    hide OuterReceives;
    if s.oc.queue != [] {
      assert Held(s.oc, s.oc.queue[0]);
      assert JustOC(p, s.o, s.oc.queue[0]);
    }
    hide LinkOC;
  }

  lemma StepLink(p: Setup, s: State, a: OuterAction)
    requires OuterEnabled(p, s, a) && OLocal(s.o, s.oc) && LinkOC(p, s.o, s.oc) && Shape(s.oc)
    requires OGrows(s.o, OuterStep(p, s, a).o)
    ensures var s' := OuterStep(p, s, a); LinkOC(p, s'.o, s'.oc) && Shape(s'.oc)
  {
    var s' := OuterStep(p, s, a);
    OCMonotone(p, s.o, s'.o, s.oc);
    if s.oc.queue != [] { Begun(s.oc); Wrote(s.oc); }
    if a.OAsk? { Queued(s.oc, Asked(p, a.tag)); }
    if a.OCancel? { Queued(s.oc.(queue := []), Cancel); }
    Emptied(s.oc);
    hide OuterReceives, Shape, OGrows;
  }

  lemma Emptied(l: Link)
    ensures forall g :: Held(l.(queue := []), g) ==> Held(l, g)
    ensures Shape(l) ==> Shape(l.(queue := []))
  {
  }

  lemma StepCross(p: Setup, s: State, a: OuterAction)
    requires OuterEnabled(p, s, a) && !a.OReceive? && CrossCO(p, s.o, s.c) && CrossOC(s.oc, s.c)
    ensures var s' := OuterStep(p, s, a); CrossCO(p, s'.o, s'.c) && CrossOC(s'.oc, s'.c)
  {
    hide OuterReceives;
  }

  /** What O's steps leave alone. */
  lemma Untouched(p: Setup, s: State, a: OuterAction)
    requires OuterEnabled(p, s, a)
    ensures var s' := OuterStep(p, s, a);
            && s'.c == s.c && s'.k == s.k && s'.kp == s.kp && s'.vp == s.vp && s'.kin == s.kin && s'.ck == s.ck && s'.kc == s.kc
            && s'.co.written == s.co.written
            && (if a.OReceive? then s'.co == Take(s.co) && s'.oc == s.oc && s'.cp == s.cp else s'.co == s.co)
  {
    hide OuterReceives;
  }

  lemma StepProcess(p: Setup, s: State, a: OuterAction)
    requires OuterEnabled(p, s, a) && ProcC(s) && OLocal(s.o, s.oc)
    ensures ProcC(OuterStep(p, s, a))
  {
    hide FinalAdmissible, GoodTerminal;
    if a.OReceive? && OuterReceives(p, s.o, s.oc, s.co.pipe[0]).Some? { ReceivesLocal(p, s.o, s.oc, s.co.pipe[0]); }
    hide OuterReceives;
  }

  lemma OuterLinks(p: Setup, s: State, a: OuterAction)
    requires OuterEnabled(p, s, a) && Links(p, s)
    requires OLocal(s.o, s.oc) && OGrows(s.o, OuterStep(p, s, a).o)
    ensures Links(p, OuterStep(p, s, a))
  {
    Untouched(p, s, a);
    StepLink(p, s, a);
    if a.OReceive? { Took(s.co); }
    hide OuterStep, OuterEnabled, Shape, LinkOC, LinkCK, LinkKC, RunEarned, JustCO;
  }

  lemma OuterLocals(p: Setup, s: State, a: OuterAction)
    requires OuterEnabled(p, s, a) && Locals(p, s) && Crosses(p, s) && Links(p, s)
    ensures var s' := OuterStep(p, s, a); OLocal(s'.o, s'.oc) && OGrows(s.o, s'.o) && CrossCO(p, s'.o, s.c) && CrossOC(s'.oc, s.c)
  {
    Untouched(p, s, a);
    if a.OReceive? {
      var f := s.co.pipe[0];
      assert Held(s.co, f);
      assert JustCO(p, s.c, f);
      if OuterReceives(p, s.o, s.oc, f).Some? { ReceivesLocal(p, s.o, s.oc, f); ReceivesCross(p, s.o, s.oc, s.c, f); }
      hide OuterReceives, Links, JustCO;
    } else {
      StepLocal(p, s, a);
      StepCross(p, s, a);
      hide *;
    }
  }

  lemma OuterKeeps(p: Setup, s: State, a: OuterAction)
    requires OuterEnabled(p, s, a) && Inv(p, s)
    ensures Inv(p, OuterStep(p, s, a))
  {
    OuterLocals(p, s, a);
    OuterLinks(p, s, a);
    StepProcess(p, s, a);
    Untouched(p, s, a);
    hide OuterStep, OuterEnabled, Links, OLocal, CLocal, CReleased, CEnded, KLocal, CrossOC, CrossCO, CrossCK, CrossKC, ProcC;
  }

  lemma SystemKeeps(p: Setup, s: State, x: SystemAction)
    requires SystemEnabled(s, x) && Inv(p, s)
    ensures Inv(p, SystemStep(s, x))
  {
    hide LinkOC, LinkCO, LinkCK, LinkKC, Shape, RunEarned, CReleased, CEnded, CrossOC, CrossCO, OLocal;
  }
}
