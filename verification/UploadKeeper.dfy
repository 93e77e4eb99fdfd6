/**
 Every step of K keeps the invariant of the upload capture.
 */
module UploadKeepers {
  import opened Bytes
  import opened Uploads
  import opened UploadInvariants
  import Children

  lemma ReceivesLocal(p: Setup, k: Keeper, c: Custodian, f: Frame)
    requires KLocal(p, k) && !k.Is(KHasEnded) && JustCK(p, c, f) && CrossCK(c, k) && KeeperReceives(p, k, f).Some?
    ensures var k' := KeeperReceives(p, k, f).value;
            KLocal(p, k') && KGrows(k, k') && CrossCK(c, k') && k'.wait == k.wait && k'.terminal == k.terminal
            && (k'.spawn == k.spawn || (k.spawn.NotTried? && k'.spawn.Trying? && !k.Is(KHasMoved)))
            && (k'.Is(KHasMoved) <==> k.Is(KHasMoved)) && (k'.Is(KSawAbsent) <==> k.Is(KSawAbsent))
  {
  }

  lemma BodyLocal(p: Setup, s: State, x: KeeperBody)
    requires KeeperBodyEnabled(p, s, x) && KLocal(p, s.k) && ProcV(s) && !x.KReceive?
    ensures var s' := KeeperBodyStep(p, s, x); KLocal(p, s'.k) && KGrows(s.k, s'.k)
  {
    BodyGrows(p, s, x);
    BodySound(p, s, x);
    hide KLocal, KGrows, KeeperBodyStep, KeeperBodyEnabled, ProcV;
  }

  lemma BodyGrows(p: Setup, s: State, x: KeeperBody)
    requires KeeperBodyEnabled(p, s, x) && KLocal(p, s.k) && !x.KReceive?
    ensures KGrows(s.k, KeeperBodyStep(p, s, x).k)
  {
    hide KeeperReceives, GroupEmpty;
  }

  lemma BodySound(p: Setup, s: State, x: KeeperBody)
    requires KeeperBodyEnabled(p, s, x) && KLocal(p, s.k) && ProcV(s) && !x.KReceive?
    ensures KLocal(p, KeeperBodyStep(p, s, x).k)
  {
    if x.KFinish? || x.KCutOff? { EndSound(p, s, x); }
    else if x.KPublish? || x.KLose? || x.KNever? || x.KWait? { SpawnSound(p, s, x); }
    else { FlagSound(p, s, x); }
    hide KLocal, KeeperBodyStep, KeeperBodyEnabled, ProcV;
  }

  lemma EndSound(p: Setup, s: State, x: KeeperBody)
    requires KeeperBodyEnabled(p, s, x) && KLocal(p, s.k) && (x.KFinish? || x.KCutOff?)
    ensures KLocal(p, KeeperBodyStep(p, s, x).k)
  {
    hide GroupEmpty;
  }

  lemma SpawnSound(p: Setup, s: State, x: KeeperBody)
    requires KeeperBodyEnabled(p, s, x) && KLocal(p, s.k) && ProcV(s) && (x.KPublish? || x.KLose? || x.KNever? || x.KWait?)
    ensures KLocal(p, KeeperBodyStep(p, s, x).k)
  {
    hide GroupEmpty, RecordOf;
    assert s.k.terminal.None? || s.k.Is(KHasEnded);
  }

  lemma FlagSound(p: Setup, s: State, x: KeeperBody)
    requires KeeperBodyEnabled(p, s, x) && KLocal(p, s.k)
    requires x.KSettle? || x.KGreet? || x.KMoveIdle? || x.KBreakWait? || x.KStatus? || x.KProbe?
    ensures KLocal(p, KeeperBodyStep(p, s, x).k)
  {
    hide GroupEmpty, RecordOf;
    assert s.k.terminal.None? || s.k.Is(KHasEnded);
  }

  lemma BodyCross(p: Setup, s: State, x: KeeperBody)
    requires KeeperBodyEnabled(p, s, x) && !x.KReceive? && CrossCK(s.c, s.k)
    ensures CrossCK(s.c, KeeperBodyStep(p, s, x).k)
  {
    hide KeeperReceives, GroupEmpty, RecordOf, GroupConfirmed;
  }

  lemma BodyLink(p: Setup, s: State, x: KeeperBody)
    requires KeeperBodyEnabled(p, s, x) && !x.KReceive? && LinkKC(p, s.k, s.kc) && Shape(s.kc)
    requires KGrows(s.k, KeeperBodyStep(p, s, x).k)
    ensures var s' := KeeperBodyStep(p, s, x); LinkKC(p, s'.k, s'.kc) && Shape(s'.kc)
  {
    var s' := KeeperBodyStep(p, s, x);
    KCMonotone(p, s.k, s'.k, s.kc);
    Queued(s.kc, Hello(p.k, p.c, p.c, p.k));
    Queued(s.kc, Moved(p.v, p.k, p.c));
    if x.KStatus? { Queued(s.kc, StatusOf(p.v, s.k.wait.value)); }
    if s'.k.terminal.Some? { Queued(s.kc, Released(s'.k.terminal.value)); }
    hide KeeperReceives, Shape, KGrows, Held, GroupEmpty, RecordOf, GroupConfirmed;
  }

  lemma BodyProcess(p: Setup, s: State, x: KeeperBody)
    requires KeeperBodyEnabled(p, s, x) && !x.KReceive? && KLocal(p, s.k) && ProcV(s) && Absent(s)
    ensures var s' := KeeperBodyStep(p, s, x); ProcV(s') && Absent(s')
  {
    hide KeeperReceives, RecordOf, GroupConfirmed;
  }

  /** What K's steps leave alone. */
  lemma Untouched(p: Setup, s: State, a: KeeperAction)
    requires KeeperEnabled(p, s, a)
    ensures var s' := KeeperStep(p, s, a);
            && s'.o == s.o && s'.c == s.c && s'.cp == s.cp && s'.kin == s.kin && s'.oc == s.oc && s'.co == s.co
            && (if a == KBody(KReceive) then s'.ck == Take(s.ck) && s'.kc == s.kc && s'.vp == s.vp else s'.ck == s.ck)
            && (s'.kp == s.kp || (a.KExit? && s'.kp == Zombie(a.status) && s'.k == s.k && s'.kc == s.kc && s'.vp == s.vp))
            && (s'.vp == s.vp || (s.vp.Zombie? && s'.vp == Reaped(s.vp.status)))
  {
    hide KeeperReceives, GroupEmpty, RecordOf, GroupConfirmed, MayFinish;
  }

  /** Steps outside K's body only fail it or move frames along. */
  lemma OtherLocal(p: Setup, s: State, a: KeeperAction)
    requires KeeperEnabled(p, s, a) && !a.KBody? && KLocal(p, s.k) && CrossCK(s.c, s.k)
    ensures var s' := KeeperStep(p, s, a);
            KLocal(p, s'.k) && KGrows(s.k, s'.k) && CrossCK(s.c, s'.k) && s'.k.spawn == s.k.spawn && s'.k.wait == s.k.wait
            && (s'.k.Is(KHasMoved) <==> s.k.Is(KHasMoved)) && (s'.k.Is(KSawAbsent) <==> s.k.Is(KSawAbsent))
  {
    hide KeeperSettled, Cooperative;
  }

  lemma OtherLink(p: Setup, s: State, a: KeeperAction)
    requires KeeperEnabled(p, s, a) && !a.KBody? && LinkKC(p, s.k, s.kc) && Shape(s.kc)
    requires KGrows(s.k, KeeperStep(p, s, a).k)
    ensures var s' := KeeperStep(p, s, a); LinkKC(p, s'.k, s'.kc) && Shape(s'.kc)
  {
    KCMonotone(p, s.k, KeeperStep(p, s, a).k, s.kc);
    if s.kc.queue != [] { Begun(s.kc); Wrote(s.kc); Dropped(s.kc); }
    hide KeeperSettled, Cooperative, KGrows, Shape, Held, JustKC;
  }

  lemma KeeperLocals(p: Setup, s: State, a: KeeperAction)
    requires KeeperEnabled(p, s, a) && Inv(p, s)
    ensures var s' := KeeperStep(p, s, a);
            KLocal(p, s'.k) && KGrows(s.k, s'.k) && CrossCK(s.c, s'.k) && LinkKC(p, s'.k, s'.kc) && Shape(s'.kc)
            && ProcV(s') && Absent(s')
  {
    if a == KBody(KReceive) {
      var f := s.ck.pipe[0];
      assert Held(s.ck, f);
      assert JustCK(p, s.c, f);
      if KeeperReceives(p, s.k, f).Some? { ReceivesLocal(p, s.k, s.c, f); } else { OtherLocal(p, s, KFail); }
      KCMonotone(p, s.k, KeeperStep(p, s, a).k, s.kc);
      hide KeeperReceives, KLocal, KGrows, CrossCK, LinkKC, Shape, CLocal, CReleased, CEnded, OLocal, LinkOC, LinkCO, LinkCK;
    } else if a.KBody? {
      BodyLocal(p, s, a.body);
      BodyCross(p, s, a.body);
      BodyLink(p, s, a.body);
      BodyProcess(p, s, a.body);
      hide KeeperBodyStep, KeeperBodyEnabled, KLocal, KGrows, CrossCK, LinkKC, Shape, ProcV, Absent;
    } else {
      OtherLocal(p, s, a);
      OtherLink(p, s, a);
      Untouched(p, s, a);
      hide KeeperStep, KLocal, KGrows, CrossCK, LinkKC, Shape, CLocal, CReleased, CEnded, OLocal, LinkOC, LinkCO, LinkCK;
    }
  }

  lemma KeeperProcess(p: Setup, s: State, a: KeeperAction)
    requires KeeperEnabled(p, s, a) && ProcK(p, s)
    ensures ProcK(p, KeeperStep(p, s, a))
  {
    Untouched(p, s, a);
    hide KeeperBodyEnabled, KeeperStep, GroupConfirmed, Cooperative, GroupEmpty;
  }

  lemma Relied(c: Custodian, k: Keeper, k': Keeper)
    requires CrossKC(c, k) && KGrows(k, k')
    ensures CrossKC(c, k')
  {
  }

  lemma KeeperKeeps(p: Setup, s: State, a: KeeperAction)
    requires KeeperEnabled(p, s, a) && Inv(p, s)
    ensures Inv(p, KeeperStep(p, s, a))
  {
    KeeperLocals(p, s, a);
    KeeperProcess(p, s, a);
    Untouched(p, s, a);
    Relied(s.c, s.k, KeeperStep(p, s, a).k);
    if a == KBody(KReceive) { Took(s.ck); }
    hide KeeperStep, KeeperEnabled, KLocal, KGrows, CrossCK, CrossKC, CrossOC, CrossCO, LinkKC, LinkOC, LinkCO, Shape, CLocal, CReleased, CEnded, OLocal;
    hide JustCK, ProcK, ProcV, Absent, Held;
  }
}
