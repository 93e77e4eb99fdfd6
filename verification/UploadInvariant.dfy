/**
 The inductive invariant of the upload capture. A frame in flight is justified by a fact
 of its sender that never changes again, so it stays justified whatever happens meanwhile.
 */
module UploadInvariants {
  import opened Bytes
  import opened Uploads
  import Children

  // ---------- facts about one role alone ----------

  /** What O had seen when it asked for the late grant. */
  predicate CommitEarned(o: Outer) {
    Succeeded(o) && o.Is(OSawStdout) && o.Is(OSawStderr) && o.Is(OClosedStdin)
  }

  predicate OLocal(o: Outer, oc: Link) {
    && (o.reserved.Some? ==> o.Is(OGotHello) && TAdmit in oc.written)
    && (o.ready.Some? ==> o.reserved.Some? && TRun in oc.written)
    && (o.status.Some? ==> o.ready.Some?)
    && (o.wait.Some? ==> o.spawn.Published?)
    && (TCommit in oc.attempted ==> CommitEarned(o)) && (TRun in oc.attempted ==> o.reserved.Some?)
  }

  predicate CGrants(p: Setup, c: Custodian) {
    && (c.Is(CGotAdmit) <==> !c.spawn.NotTried?) && (c.Is(CGotAdmit) ==> c.config.Some?)
    && (c.config.Some? ==> c.config.value == p.command)
    && (c.Is(CHasGroup) ==> c.spawn.Published?) && (c.Is(CForwardedRun) ==> c.Is(CHasGroup))
    && (c.moved.Some? ==> c.moved.value == p.v && c.Is(CHasGroup))
    && (c.status.Some? ==> c.moved.Some? && Children.GoodStatus(c.status.value))
    && (c.Is(CGotCommit) ==> c.status == Some(CLEAN))
  }

  predicate CTidy(c: Custodian) {
    && (c.Is(CGroupRetired) ==> c.Is(CHasGroup)) && (c.Is(CSawAbsent) ==> c.Is(CGroupRetired))
    && (c.Is(CBeganWait) ==> c.spawn.Published?) && (c.wait.Some? ==> c.Is(CBeganWait) && Children.GoodStatus(c.wait.value))
    && (c.Is(CHasFailed) || c.Is(CIsCleaning) ==> c.Is(CIsClosed)) && (c.spawn.Published? || c.spawn.Never? ==> c.Is(CIsClosed))
  }

  predicate CLocal(p: Setup, c: Custodian) { CGrants(p, c) && CTidy(c) }

  predicate CReleased(p: Setup, c: Custodian) {
    c.released.Some? ==>
      && GoodRecord(c.released.value)
      && (c.moved.Some? ==> !c.released.value.NotAttempted?)
      && (c.released.value.Waited? ==> c.released.value.pid == p.v)
      && (c.status.Some? ==> c.released.value == Waited(p.v, c.status.value))
  }

  /** What C's last frame says stays what C's facts say. */
  predicate CEnded(p: Setup, c: Custodian, written: set<Tag>) {
    c.terminal.Some? ==>
      var t := c.terminal.value;
      && c.Is(CIsClosed) && t.keeper == KeeperRecord(p, c) && t.validator == ValidatorRecord(p, c) && t.group == GroupRecord(p, c)
      && (t.confirmed ==> RecordsConfirmed(p, c)) && (!t.confirmed ==> t.outcome.Failed?)
      && (!t.outcome.Failed? ==>
            && c.wait == Some(CLEAN) && t.validator.Waited? && t.validator.status.Exited? && c.status.Some? && c.moved.Some?
            && (t.outcome.Accepted? <==> t.validator.status.code == 0) && (t.outcome.Accepted? ==> c.Is(CGotCommit))
            && TReady in written && TStatus in written)
  }

  predicate KLocal(p: Setup, k: Keeper) {
    && (k.Is(KGotRun) <==> !k.spawn.NotTried?) && (k.Is(KGotRun) ==> k.config.Some?)
    && (k.config.Some? ==> k.config.value == p.command)
    && (k.Is(KHasMoved) ==> k.Is(KIsClosed) && !k.spawn.Trying? && k.Is(KHasGroup))
    && (k.spawn.Published? || k.spawn.Never? ==> k.Is(KIsClosed))
    && (k.wait.Some? ==> k.spawn.Published? && Children.GoodStatus(k.wait.value))
    && (k.Is(KGotRelease) ==> k.Is(KGotRetirement)) && (k.Is(KGotRetirement) ==> k.Is(KIsClosed))
    && (k.Is(KHasFailed) ==> k.Is(KIsClosed)) && (k.Is(KWasAbsent) ==> k.Is(KHasMoved))
    && (k.terminal.Some? ==> k.Is(KHasEnded) && k.Is(KIsClosed) && k.terminal.value == RecordOf(p, k))
  }

  // ---------- facts across roles ----------

  predicate CrossOC(oc: Link, c: Custodian) {
    && (c.Is(CGotAdmit) ==> TAdmit in oc.written) && (c.Is(CForwardedRun) ==> TRun in oc.written)
    && (c.Is(CGotCommit) ==> TCommit in oc.written)
  }

  predicate CrossCO(p: Setup, o: Outer, c: Custodian) {
    && (o.reserved.Some? ==> o.reserved.value == p.k && c.Is(CHasGroup))
    && (o.ready.Some? ==> c.moved == o.ready) && (o.status.Some? ==> c.status == o.status)
    && (o.final.Some? ==> c.terminal == o.final)
  }

  predicate CrossCK(c: Custodian, k: Keeper) {
    (k.Is(KGotRun) ==> c.Is(CForwardedRun)) && (k.Is(KWasAbsent) ==> c.Is(CSawAbsent))
  }

  predicate CrossKC(c: Custodian, k: Keeper) {
    && (c.moved.Some? ==> k.spawn.Published? && k.Is(KHasMoved))
    && (c.status.Some? ==> k.wait == c.status)
    && (c.released.Some? ==> k.terminal == c.released)
  }

  // ---------- frames in flight ----------

  predicate Held(l: Link, f: Frame) { f in l.queue || f in l.pipe }

  predicate JustOC(p: Setup, o: Outer, f: Frame) {
    && (f.Config? ==> f.command == p.command) && (f.Run? ==> o.reserved.Some?) && (f.Commit? ==> CommitEarned(o))
  }

  predicate JustCO(p: Setup, c: Custodian, f: Frame) {
    && (f.Reserved? ==> f.keeper == p.k && c.Is(CHasGroup))
    && (f.Ready? ==> c.moved == Some(f.validator))
    && (f.StatusOf? ==> c.moved == Some(f.validator) && c.status == Some(f.status))
    && (f.Final? ==> c.terminal == Some(f.terminal))
  }

  predicate JustCK(p: Setup, c: Custodian, f: Frame) {
    && (f.Config? ==> f.command == p.command) && (f.Run? ==> c.Is(CForwardedRun))
    && (f.GroupRetired? && f.absent ==> c.Is(CSawAbsent))
  }

  predicate JustKC(p: Setup, k: Keeper, f: Frame) {
    && (f.Moved? ==> f.validator == p.v && k.spawn.Published? && k.Is(KHasMoved))
    && (f.StatusOf? ==> f.validator == p.v && k.wait == Some(f.status))
    && (f.Released? ==> k.terminal == Some(f.record))
  }

  ghost predicate LinkOC(p: Setup, o: Outer, l: Link) { forall f :: Held(l, f) ==> JustOC(p, o, f) }
  ghost predicate LinkCO(p: Setup, c: Custodian, l: Link) { forall f :: Held(l, f) ==> JustCO(p, c, f) }
  ghost predicate LinkCK(p: Setup, c: Custodian, l: Link) { forall f :: Held(l, f) ==> JustCK(p, c, f) }
  ghost predicate LinkKC(p: Setup, k: Keeper, l: Link) { forall f :: Held(l, f) ==> JustKC(p, k, f) }

  /** Kinds are begun before they are written, and written before they are in the pipe. */
  ghost predicate Shape(l: Link) {
    l.written <= l.attempted && forall f :: f in l.pipe ==> TagOf(f) in l.written
  }

  /** RUN goes to K only after O's grant went through. */
  predicate RunEarned(c: Custodian, ck: Link) { TRun in ck.attempted ==> c.Is(CForwardedRun) }

  // ---------- processes ----------

  predicate ProcC(s: State) {
    && (s.o.spawn.NotTried? || s.o.spawn.Never? ==> s.cp.Unborn?) && (s.o.spawn.Published? ==> !s.cp.Unborn?)
    && (s.cp.Unborn? ==> s.c == Initial.c)
    && (s.o.wait.Some? ==> s.cp == Reaped(s.o.wait.value)) && (s.cp.Reaped? ==> s.o.wait.Some?)
  }

  predicate ProcK(p: Setup, s: State) {
    && (s.c.spawn.NotTried? || s.c.spawn.Never? ==> s.kp.Unborn?) && (s.c.spawn.Published? ==> !s.kp.Unborn?)
    && (s.kp.Unborn? ==> s.k == Initial.k)
    && (s.c.wait.Some? ==> s.kp == Reaped(s.c.wait.value)) && (s.kp.Reaped? ==> s.c.wait.Some?)
    && (Ended(s.kp) && Reserved02(s.kp.status) ==> s.k.terminal.Some? && !s.k.terminal.value.Unresolved? && GroupConfirmed(s.k))
    && (Ended(s.kp) && s.kp.status == CLEAN ==> Cooperative(s.k))
    && (Ended(s.kp) ==> Children.GoodStatus(s.kp.status))
  }

  predicate ProcV(s: State) {
    && (s.k.spawn.NotTried? || s.k.spawn.Never? ==> s.vp.Unborn?) && (s.k.spawn.Published? ==> !s.vp.Unborn?)
    && (s.k.wait.Some? ==> s.vp == Reaped(s.k.wait.value))
    && (s.kin ==> !s.vp.Unborn?) && (Ended(s.vp) ==> Children.GoodStatus(s.vp.status))
  }

  /** The group was seen absent: it is empty, and nothing can enter it again. */
  predicate Absent(s: State) {
    s.c.Is(CSawAbsent) || s.k.Is(KSawAbsent) ==> GroupEmpty(s) && s.k.Is(KHasMoved)
  }

  // ---------- the whole ----------

  predicate Locals(p: Setup, s: State) {
    OLocal(s.o, s.oc) && CLocal(p, s.c) && CReleased(p, s.c) && CEnded(p, s.c, s.co.written) && KLocal(p, s.k)
  }

  predicate Crosses(p: Setup, s: State) {
    CrossOC(s.oc, s.c) && CrossCO(p, s.o, s.c) && CrossCK(s.c, s.k) && CrossKC(s.c, s.k)
  }

  ghost predicate Links(p: Setup, s: State) {
    && LinkOC(p, s.o, s.oc) && LinkCO(p, s.c, s.co) && LinkCK(p, s.c, s.ck) && LinkKC(p, s.k, s.kc)
    && Shape(s.oc) && Shape(s.co) && Shape(s.ck) && Shape(s.kc) && RunEarned(s.c, s.ck)
  }

  predicate Processes(p: Setup, s: State) { ProcC(s) && ProcK(p, s) && ProcV(s) && Absent(s) }

  ghost predicate Inv(p: Setup, s: State) { Locals(p, s) && Crosses(p, s) && Links(p, s) && Processes(p, s) }

  lemma InitialInv(p: Setup)
    ensures Inv(p, Initial)
  {
  }

  // ---------- what only grows ----------

  predicate Kept<T(==)>(before: Option<T>, after: Option<T>) { before.Some? ==> after == before }

  predicate OGrows(o: Outer, o': Outer) {
    o.flags <= o'.flags && Kept(o.reserved, o'.reserved) && Kept(o.ready, o'.ready) && Kept(o.status, o'.status) && Kept(o.final, o'.final)
  }

  predicate CGrows(c: Custodian, c': Custodian) {
    c.flags <= c'.flags && Kept(c.moved, c'.moved) && Kept(c.status, c'.status) && Kept(c.released, c'.released) && Kept(c.terminal, c'.terminal)
  }

  predicate KGrows(k: Keeper, k': Keeper) {
    k.flags <= k'.flags && Kept(k.wait, k'.wait) && Kept(k.terminal, k'.terminal) && (k.spawn.Published? ==> k'.spawn.Published?)
  }

  lemma OCMonotone(p: Setup, o: Outer, o': Outer, l: Link)
    requires LinkOC(p, o, l) && OGrows(o, o')
    ensures LinkOC(p, o', l)
  {
    forall f | Held(l, f) ensures JustOC(p, o', f) { assert JustOC(p, o, f); }
  }

  lemma COMonotone(p: Setup, c: Custodian, c': Custodian, l: Link)
    requires LinkCO(p, c, l) && CGrows(c, c')
    ensures LinkCO(p, c', l)
  {
    forall f | Held(l, f) ensures JustCO(p, c', f) { assert JustCO(p, c, f); }
  }

  lemma CKMonotone(p: Setup, c: Custodian, c': Custodian, l: Link)
    requires LinkCK(p, c, l) && CGrows(c, c')
    ensures LinkCK(p, c', l)
  {
    forall f | Held(l, f) ensures JustCK(p, c', f) { assert JustCK(p, c, f); }
  }

  lemma KCMonotone(p: Setup, k: Keeper, k': Keeper, l: Link)
    requires LinkKC(p, k, l) && KGrows(k, k')
    ensures LinkKC(p, k', l)
  {
    forall f | Held(l, f) ensures JustKC(p, k', f) { assert JustKC(p, k, f); }
  }

  // ---------- links as values ----------

  lemma Queued(l: Link, f: Frame)
    ensures forall g :: Held(Queue(l, f), g) <==> Held(l, g) || g == f
    ensures Shape(l) ==> Shape(Queue(l, f))
  {
  }

  lemma Begun(l: Link)
    requires l.queue != []
    ensures forall g :: Held(Begin(l), g) <==> Held(l, g)
    ensures Shape(l) ==> Shape(Begin(l))
    ensures Held(l, l.queue[0])
  {
  }

  lemma Wrote(l: Link)
    requires l.queue != []
    ensures forall g :: Held(Write(l), g) ==> Held(l, g)
    ensures Shape(l) ==> Shape(Write(l))
    ensures Held(l, l.queue[0])
  {
  }

  lemma Dropped(l: Link)
    requires l.queue != []
    ensures forall g :: Held(Drop(l), g) ==> Held(l, g)
    ensures Shape(l) ==> Shape(Drop(l))
  {
  }

  lemma Took(l: Link)
    requires l.pipe != []
    ensures forall g :: Held(Take(l), g) ==> Held(l, g)
    ensures Shape(l) ==> Shape(Take(l)) && TagOf(l.pipe[0]) in l.written
    ensures Held(l, l.pipe[0])
  {
  }
}
