/**
 What an authorised upload, and a confirmed cleanup, mean.
 */
module UploadResults {
  import opened Bytes
  import opened Uploads
  import opened UploadInvariants
  import UploadOuters
  import UploadCustodians
  import UploadKeepers
  import Children

  lemma StepKeeps(p: Setup, s: State, action: Action)
    requires Inv(p, s)
    ensures Inv(p, Step(p, s, action))
  {
    match action
    case OAct(x) => if OuterEnabled(p, s, x) { UploadOuters.OuterKeeps(p, s, x); }
    case CAct(x) => if CustodianEnabled(p, s, x) { UploadCustodians.CustodianKeeps(p, s, x); }
    case KAct(x) => if KeeperEnabled(p, s, x) { UploadKeepers.KeeperKeeps(p, s, x); }
    case Sys(x) => if SystemEnabled(s, x) { UploadOuters.SystemKeeps(p, s, x); }
    hide *;
  }

  lemma {:induction false} AdvanceKeeps(p: Setup, s: State, actions: seq<Action>)
    requires Inv(p, s)
    ensures Inv(p, Advance(p, s, actions))
    decreases |actions|
  {
    hide Inv, Step;
    if actions != [] {
      StepKeeps(p, s, actions[0]);
      AdvanceKeeps(p, Step(p, s, actions[0]), actions[1..]);
    }
  }

  lemma Reachable(p: Setup, actions: seq<Action>)
    ensures Inv(p, Advance(p, Initial, actions))
  {
    InitialInv(p);
    AdvanceKeeps(p, Initial, actions);
  }

  // ---------- authorisation ----------

  /** V ran O's configuration after every grant, and all that it was is over. */
  predicate Earned(p: Setup, s: State) {
    && s.cp == Reaped(CLEAN) && s.kp == Reaped(CLEAN) && s.vp == Reaped(CLEAN) && GroupEmpty(s)
    && s.o.wait == Some(CLEAN) && s.c.wait == Some(CLEAN) && s.k.wait == Some(CLEAN)
    && s.k.config == Some(p.command)
    && s.k.Is(KGotRun) && s.c.Is(CForwardedRun) && TRun in s.oc.written && TAdmit in s.oc.written
    && s.c.Is(CSawAbsent) && s.c.Is(CGroupRetired) && Cooperative(s.k)
    && s.c.Is(CGotCommit) && CommitEarned(s.o)
    && s.o.reserved == Some(p.k) && s.o.ready == Some(p.v)
    && s.o.final == Some(Terminal(Accepted, true, Waited(p.k, CLEAN), Waited(p.v, CLEAN), Retired(p.k, true)))
  }

  lemma AuthorisedIsEarned(p: Setup, s: State)
    requires Inv(p, s) && Authorised(s)
    ensures Earned(p, s)
  {
    hide Links, GroupEmpty, GroupConfirmed, Cooperative, Children.GoodStatus, GoodRecord;
  }

  /**
   Main result: an upload is authorised only if V ran O's own configuration after RUN and was reaped by K with
   exit 0, K was reaped by C and C by O with exit 0, V's group was seen absent and is empty, O committed only after
   STATUS, both output ends and the stdin close, and every number in FINAL is the one reserved, readied and real.
   */
  lemma UploadIsEarned(p: Setup, actions: seq<Action>)
    ensures var s := Advance(p, Initial, actions); Authorised(s) ==> Earned(p, s)
  {
    Reachable(p, actions);
    var s := Advance(p, Initial, actions);
    hide Inv, Authorised, Earned, Advance;
    if Authorised(s) { AuthorisedIsEarned(p, s); }
  }

  // ---------- confirmed cleanup ----------

  /** Nothing of the capture runs any more, and O's records about it are true. */
  predicate Over(p: Setup, s: State, t: Terminal) {
    && s.cp.Reaped? && GroupEmpty(s) && !s.kin
    && (t.keeper.NotAttempted? ==> s.kp.Unborn? && s.vp.Unborn?)
    && (t.keeper.Waited? ==> t.keeper.pid == p.k && s.kp == Reaped(t.keeper.status) && Reserved02(t.keeper.status))
    && (t.validator.NotAttempted? <==> s.vp.Unborn?)
    && (t.validator.Waited? ==> t.validator.pid == p.v && s.vp == Reaped(t.validator.status))
    && !t.keeper.Unresolved? && !t.validator.Unresolved?
  }

  lemma FinalityIsOver(p: Setup, s: State)
    requires Inv(p, s) && Finality(s.o)
    ensures Over(p, s, s.o.final.value)
  {
    hide Links, GroupConfirmed, Cooperative, Children.GoodStatus, GoodRecord;
  }

  /** Main result: whenever O's cleanup is confirmed, whatever the outcome, no process of the capture is left and each record is true. */
  lemma CleanupIsReal(p: Setup, actions: seq<Action>)
    ensures var s := Advance(p, Initial, actions); Finality(s.o) ==> Over(p, s, s.o.final.value)
  {
    Reachable(p, actions);
    var s := Advance(p, Initial, actions);
    hide Inv, Finality, Over, Advance;
    if Finality(s.o) { FinalityIsOver(p, s); }
  }

  // ---------- order of the grants ----------

  /** Main result: no validator exists before O granted RUN, no keeper before ADMIT, and COMMIT is never begun early. */
  lemma GrantsComeFirst(p: Setup, actions: seq<Action>)
    ensures var s := Advance(p, Initial, actions);
            && (!s.kp.Unborn? ==> TAdmit in s.oc.written && s.c.config == Some(p.command))
            && (!s.vp.Unborn? ==> TRun in s.oc.written && s.o.reserved == Some(p.k) && s.k.config == Some(p.command))
            && (TCommit in s.oc.attempted ==>
                  CommitEarned(s.o) && s.o.ready == Some(p.v) && s.k.wait == Some(CLEAN) && s.vp == Reaped(CLEAN))
  {
    Reachable(p, actions);
    var s := Advance(p, Initial, actions);
    hide Advance, CReleased, CEnded, GroupEmpty, GroupConfirmed, Cooperative, Children.GoodStatus, LinkOC, LinkCO, LinkCK, LinkKC;
    OrderOf(p, s);
  }

  lemma OrderOf(p: Setup, s: State)
    requires Inv(p, s)
    ensures !s.kp.Unborn? ==> TAdmit in s.oc.written && s.c.config == Some(p.command)
    ensures !s.vp.Unborn? ==> TRun in s.oc.written && s.o.reserved == Some(p.k) && s.k.config == Some(p.command)
    ensures TCommit in s.oc.attempted ==>
              CommitEarned(s.o) && s.o.ready == Some(p.v) && s.k.wait == Some(CLEAN) && s.vp == Reaped(CLEAN)
  {
    hide CReleased, CEnded, GroupEmpty, GroupConfirmed, Cooperative, Children.GoodStatus, LinkOC, LinkCO, LinkCK, LinkKC;
  }

  // ---------- the last frame ----------

  lemma FinishIsGood(p: Setup, c: Custodian, written: set<Tag>, settled: bool)
    requires CLocal(p, c) && CReleased(p, c) && ReadyToFinish(p, c) && c.terminal.None?
    ensures GoodTerminal(FinalOf(p, c, written, settled))
  {
    hide Children.GoodStatus;
    var v := ValidatorRecord(p, c);
    assert v.Waited? && v.status.Exited? && Children.GoodStatus(v.status) ==> v.status.code >= 0 by { GoodExit(v); }
  }

  lemma GoodExit(v: Record)
    ensures v.Waited? && v.status.Exited? && Children.GoodStatus(v.status) ==> v.status.code >= 0
  {
  }

  /** Main result: every FINAL frame C can build meets the demands that its own encoder and O's decoder make of one. */
  lemma FinalFramesAreGood(p: Setup, actions: seq<Action>, settled: bool)
    ensures var s := Advance(p, Initial, actions);
            && (CustodianTailEnabled(p, s, CFinish(settled)) ==> GoodTerminal(FinalOf(p, s.c, s.co.written, settled)))
            && GoodTerminal(CutOff(p, s.c))
  {
    Reachable(p, actions);
    var s := Advance(p, Initial, actions);
    hide Advance, Links, Crosses, Processes, CEnded, OLocal, KLocal;
    if CustodianTailEnabled(p, s, CFinish(settled)) { FinishIsGood(p, s.c, s.co.written, settled); }
    CutOffIsGood(p, s.c);
  }

  lemma CutOffIsGood(p: Setup, c: Custodian)
    requires CLocal(p, c) && CReleased(p, c)
    ensures GoodTerminal(CutOff(p, c))
  {
    hide Children.GoodStatus;
  }
}
