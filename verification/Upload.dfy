/**
 The capture that authorises an upload, as a state machine over four processes: O (the
 caller) runs C (the custodian), C runs K (the keeper of a process group), K runs V (the
 validator). An upload is authorised by what O learns over framed FIFO pipes.

 One action is one step of one role or of the operating system. A failure, a lost peer,
 a cancelled grant or a passed deadline may strike at any step.
 */
module Uploads {
  import opened Bytes
  import Children

  type Status = Children.Status

  function Exited(code: int): Status { Children.Exited(code) }

  const CLEAN: Status := Children.Exited(0)
  const SETTLED_FAILURE: Status := Children.Exited(2)

  // ---------- frames ----------

  datatype Record = NotAttempted | Unresolved | Waited(pid: nat, status: Status)
  datatype Group = NotCreated | Open | Retired(id: nat, absent: bool)
  datatype Outcome = Accepted | Refused | Failed
  datatype Terminal = Terminal(outcome: Outcome, confirmed: bool, keeper: Record, validator: Record, group: Group)

  datatype Frame =
    | Config(command: nat) | Admit | Run | Commit | Cancel
    | Hello(pid: nat, parent: nat, session: nat, group: nat)
    | Reserved(keeper: nat, id: nat, session: nat)
    | Moved(validator: nat, id: nat, keeperGroup: nat)
    | Ready(validator: nat, id: nat, keeperGroup: nat)
    | StatusOf(validator: nat, status: Status)
    | GroupRetired(id: nat, absent: bool) | Release | Released(record: Record)
    | Final(terminal: Terminal)

  datatype Tag =
    | TConfig | TAdmit | TRun | TCommit | TCancel | THello | TReserved | TMoved | TReady | TStatus
    | TGroupRetired | TRelease | TReleased | TFinal

  function TagOf(f: Frame): Tag {
    match f
    case Config(_) => TConfig case Admit => TAdmit case Run => TRun case Commit => TCommit case Cancel => TCancel
    case Hello(_, _, _, _) => THello case Reserved(_, _, _) => TReserved case Moved(_, _, _) => TMoved
    case Ready(_, _, _) => TReady case StatusOf(_, _) => TStatus case GroupRetired(_, _) => TGroupRetired
    case Release => TRelease case Released(_) => TReleased case Final(_) => TFinal
  }

  /** Frames that may only be written while their sender may still launch. */
  const POSITIVE: set<Tag> := {THello, TAdmit, TReserved, TRun, TMoved, TReady, TStatus, TCommit}

  predicate GoodRecord(r: Record) { r.Waited? ==> Children.GoodStatus(r.status) }

  predicate Unsettled(t: Terminal) {
    t.keeper.Unresolved? || t.validator.Unresolved? || t.group.Open? || (t.group.Retired? && !t.group.absent)
  }

  /** `Protocol.terminal!`: what sender and receiver alike demand of a FINAL frame. */
  predicate GoodTerminal(t: Terminal) {
    && GoodRecord(t.keeper) && GoodRecord(t.validator)
    && (t.keeper.NotAttempted? ==> t.validator.NotAttempted? && t.group.NotCreated? && t.outcome.Failed?)
    && (t.group.NotCreated? ==> t.validator.NotAttempted?)
    && (t.group.Retired? && t.keeper.Waited? ==> t.group.id == t.keeper.pid)
    && (Unsettled(t) ==> !t.confirmed && t.outcome.Failed?)
    && (!t.confirmed ==> t.outcome.Failed?)
    && (t.validator.NotAttempted? ==> t.outcome.Failed?)
    && (!t.outcome.Failed? ==>
          && t.keeper.Waited? && t.keeper.status == CLEAN
          && t.validator.Waited? && t.validator.status.Exited?
          && t.group.Retired? && t.group.absent
          && (t.outcome.Accepted? <==> t.validator.status.code == 0))
  }

  /** One direction of a pipe: frames still with the writer, frames in the pipe, and which kinds were begun and written in full. */
  datatype Link = Link(queue: seq<Frame>, pipe: seq<Frame>, attempted: set<Tag>, written: set<Tag>)

  const EMPTY := Link([], [], {}, {})

  function Queue(l: Link, f: Frame): Link { l.(queue := l.queue + [f]) }
  function Begin(l: Link): Link requires l.queue != [] { l.(attempted := l.attempted + {TagOf(l.queue[0])}) }
  function Write(l: Link): Link requires l.queue != [] {
    l.(queue := l.queue[1..], pipe := l.pipe + [l.queue[0]],
       attempted := l.attempted + {TagOf(l.queue[0])}, written := l.written + {TagOf(l.queue[0])})
  }
  function Drop(l: Link): Link requires l.queue != [] { l.(queue := l.queue[1..]) }
  function Take(l: Link): Link requires l.pipe != [] { l.(pipe := l.pipe[1..]) }

  // ---------- the roles ----------

  datatype Process = Unborn | Alive | Zombie(status: Status) | Reaped(status: Status)

  /** A creation: never begun, under way, published, lost, or settled without any attempt. */
  datatype Spawn = NotTried | Trying | Published | Lost | Never

  datatype OuterFlag =
    | OGotHello | OSawStdout | OSawStderr | OClosedStdin | OHasFailed | OIsShut | OIsInvalid | OSawEof | ODecodedEof
    | OIsUnknown | OOverflowed

  datatype Outer = Outer(
    flags: set<OuterFlag>, spawn: Spawn, asked: set<Tag>, reserved: Option<nat>, ready: Option<nat>, status: Option<Status>,
    final: Option<Terminal>, wait: Option<Status>)
  {
    predicate Is(f: OuterFlag) { f in flags }
    function Set(fs: set<OuterFlag>): Outer { this.(flags := flags + fs) }
  }

  datatype CustodianFlag =
    | CSentHello | CGotAdmit | CIsClosed | CHasGroup | CSawAbsent | CGroupRetired | CRoutesRetired | CForwardedRun | CGotCommit
    | CIsCleaning | CHasFailed | CIsUnsure | CSentCancel | CAskedRelease | CBeganWait | CIsBroken | CSawEof | CIsPoisoned
    | CKeeperShut | CParentShut

  datatype Custodian = Custodian(
    flags: set<CustodianFlag>, spawn: Spawn, config: Option<nat>, moved: Option<nat>, status: Option<Status>,
    released: Option<Record>, wait: Option<Status>, terminal: Option<Terminal>)
  {
    predicate Is(f: CustodianFlag) { f in flags }
    function Set(fs: set<CustodianFlag>): Custodian { this.(flags := flags + fs) }
    /** `launch_allowed?` */
    predicate Allowed() { !Is(CHasFailed) && terminal.None? }
  }

  datatype KeeperFlag =
    | KHasGroup | KSentHello | KGotRun | KIsClosed | KHasMoved | KSentStatus | KIsRetired | KSawAbsent | KGotRetirement
    | KWasAbsent | KGotRelease | KHasFailed | KIsLocal | KIsUnsure | KIsBroken | KHasEnded | KIsPoisoned | KIsShut

  datatype Keeper = Keeper(
    flags: set<KeeperFlag>, spawn: Spawn, config: Option<nat>, wait: Option<Status>, terminal: Option<Record>)
  {
    predicate Is(f: KeeperFlag) { f in flags }
    function Set(fs: set<KeeperFlag>): Keeper { this.(flags := flags + fs) }
    predicate Allowed() { !Is(KHasFailed) && !Is(KHasEnded) }
  }

  /** The process numbers the system gives out, and the configuration O froze before anything was created. */
  datatype Setup = Setup(o: nat, c: nat, k: nat, v: nat, command: nat)

  /** The four processes hold their numbers together, so the numbers differ. */
  predicate Distinct(p: Setup) {
    p.o != p.c && p.o != p.k && p.o != p.v && p.c != p.k && p.c != p.v && p.k != p.v
  }

  datatype State = State(
    o: Outer, c: Custodian, k: Keeper, cp: Process, kp: Process, vp: Process, kin: bool,
    oc: Link, co: Link, ck: Link, kc: Link)

  const Initial := State(
    Outer({}, NotTried, {}, None, None, None, None, None),
    Custodian({}, NotTried, None, None, None, None, None, None),
    Keeper({}, NotTried, None, None, None),
    Unborn, Unborn, Unborn, false, EMPTY, EMPTY, EMPTY, EMPTY)

  predicate Ended(p: Process) { p.Zombie? || p.Reaped? }

  /** The group G: K until it moves away, V until it is reaped, and what V left behind. */
  predicate GroupEmpty(s: State) {
    && (s.kp.Unborn? || s.kp.Reaped? || s.k.Is(KHasMoved))
    && (s.vp.Unborn? || s.vp.Reaped?)
    && !s.kin
  }

  function OFailing(o: Outer): Outer { o.Set({OHasFailed}) }

  function CFailing(c: Custodian): Custodian {
    c.Set(if c.terminal.Some? then {CHasFailed, CIsClosed, CIsPoisoned} else {CHasFailed, CIsClosed})
  }

  function KFailing(k: Keeper): Keeper {
    k.Set(if k.Is(KHasEnded) then {KHasFailed, KIsClosed, KIsPoisoned} else {KHasFailed, KIsClosed})
  }

  // ---------- O ----------

  datatype OuterAction =
    | OTry | OPublish | OLose | ONever | OAsk(tag: Tag) | OCancel | OBegin | OWrite | OShut | OReceive | OInvalid | OEof
    | OOutputEof(second: bool) | OCloseStdin | OFail | OUnknown | OOverflow | OWait

  predicate Succeeded(o: Outer) { o.status == Some(CLEAN) }

  /** When `advance_protocol` queues each frame. */
  predicate MayAsk(o: Outer, written: set<Tag>, tag: Tag) {
    match tag
    case TConfig => o.spawn.Published?
    case TAdmit => o.Is(OGotHello) && TConfig in written
    case TRun => o.reserved.Some? && TAdmit in written
    case TCommit => Succeeded(o) && o.Is(OSawStdout) && o.Is(OSawStderr) && o.Is(OClosedStdin) && !o.Is(OIsUnknown)
    case _ => false
  }

  function Asked(p: Setup, tag: Tag): Frame {
    if tag == TConfig then Config(p.command) else if tag == TAdmit then Admit else if tag == TRun then Run else Commit
  }

  const GRANTS: set<Tag> := {TAdmit, TRun, TCommit}

  predicate OuterEnabled(p: Setup, s: State, a: OuterAction) {
    var o := s.o;
    match a
    case OTry => !o.Is(OHasFailed) && o.spawn.NotTried?
    case OPublish => o.spawn.Trying? && !s.cp.Unborn?
    case OLose => o.spawn.Trying?
    case ONever => o.spawn.Trying? && s.cp.Unborn?
    case OAsk(tag) => !o.Is(OHasFailed) && !o.Is(OIsShut) && o.final.None? && tag !in o.asked && MayAsk(o, s.oc.written, tag)
    case OCancel =>
      o.Is(OHasFailed) && !o.Is(OIsShut) && o.final.None? && TCancel !in o.asked && TConfig in s.oc.written
      && (s.oc.queue != [] ==> TagOf(s.oc.queue[0]) !in s.oc.attempted)
    case OBegin => !o.Is(OIsShut) && s.oc.queue != [] && (TagOf(s.oc.queue[0]) in GRANTS ==> !o.Is(OHasFailed))
    case OWrite => !o.Is(OIsShut) && s.oc.queue != [] && (TagOf(s.oc.queue[0]) in GRANTS ==> !o.Is(OHasFailed))
    case OShut => o.Is(OHasFailed) || o.final.Some?
    case OReceive => !o.Is(OIsInvalid) && !o.Is(OSawEof) && s.co.pipe != []
    case OInvalid => true
    case OEof => !o.Is(OSawEof) && s.co.pipe == [] && Ended(s.cp)
    case OOutputEof(_) => true
    case OCloseStdin => o.ready.Some? && TRun in s.oc.written
    case OFail => true
    case OUnknown => true
    case OOverflow => true
    case OWait => o.spawn.Published? && o.wait.None? && s.cp.Zombie?
  }

  /** `validate_final`: O's cross-checks of C's last frame against what O itself granted and saw. */
  predicate FinalAdmissible(p: Setup, o: Outer, attempted: set<Tag>, written: set<Tag>, t: Terminal) {
    && (if o.reserved.Some? then
          && !t.keeper.NotAttempted? && !t.group.NotCreated?
          && (t.keeper.Waited? ==> Some(t.keeper.pid) == o.reserved)
          && (t.group.Retired? ==> Some(t.group.id) == o.reserved)
        else TAdmit !in attempted ==> t.keeper.NotAttempted?)
    && (TRun !in attempted ==> t.validator.NotAttempted?)
    && (o.ready.Some? && t.validator.Waited? ==> Some(t.validator.pid) == o.ready)
    && (o.ready.Some? ==> !t.validator.NotAttempted?)
    && (t.keeper.Waited? ==> t.keeper.pid != p.c && t.keeper.pid != p.o)
    && (t.validator.Waited? ==> t.validator.pid != p.c && t.validator.pid != p.o
                                && (t.keeper.Waited? ==> t.validator.pid != t.keeper.pid))
    && (o.status.Some? ==> t.validator.Waited? && Some(t.validator.pid) == o.ready && Some(t.validator.status) == o.status)
    && (t.outcome.Accepted? ==>
          TCommit in written && o.ready.Some? && Succeeded(o) && o.Is(OSawStdout) && o.Is(OSawStderr) && o.Is(OClosedStdin))
    && (t.outcome.Refused? ==> o.ready.Some? && o.status.Some? && !Succeeded(o))
  }

  /** `receive_frame`; nothing means a protocol error, which invalidates the stream for good. */
  function OuterReceives(p: Setup, o: Outer, oc: Link, f: Frame): Option<Outer> {
    if o.final.Some? then None
    else if f.Hello? then
      if !o.Is(OGotHello) && o.spawn.Published? && f == Hello(p.c, p.o, p.c, p.c) then Some(o.Set({OGotHello})) else None
    else if f.Reserved? then
      if o.Is(OGotHello) && TAdmit in oc.written && o.reserved.None? && f.session == p.c && f.keeper == f.id
         && f.keeper != p.c && f.keeper != p.o
      then Some(o.(reserved := Some(f.keeper))) else None
    else if f.Ready? then
      if o.reserved.Some? && TRun in oc.written && o.ready.None? && Some(f.id) == o.reserved && f.keeperGroup == p.c
         && f.validator != p.c && f.validator != p.o && Some(f.validator) != o.reserved
      then Some(o.(ready := Some(f.validator))) else None
    else if f.StatusOf? then
      if o.ready == Some(f.validator) && o.status.None? && Children.GoodStatus(f.status)
      then
        var seen := o.(status := Some(f.status));
        Some(if f.status == CLEAN then seen else OFailing(seen))
      else None
    else if f.Final? then
      if o.spawn.Published? && GoodTerminal(f.terminal) && FinalAdmissible(p, o, oc.attempted, oc.written, f.terminal)
      then
        var seen := o.(final := Some(f.terminal));
        Some(if f.terminal.outcome.Accepted? then seen
             else if f.terminal.confirmed then OFailing(seen) else OFailing(seen).Set({OIsUnknown}))
      else None
    else None
  }

  function OuterStep(p: Setup, s: State, a: OuterAction): State
    requires OuterEnabled(p, s, a)
  {
    var o := s.o;
    match a
    case OTry => s.(o := o.(spawn := Trying))
    case OPublish => s.(o := o.(spawn := Published))
    case OLose => s.(o := OFailing(o.(spawn := Lost)).Set({OIsUnknown}))
    case ONever => s.(o := OFailing(o.(spawn := Never)))
    case OAsk(tag) => s.(o := o.(asked := o.asked + {tag}), oc := Queue(s.oc, Asked(p, tag)))
    case OCancel => s.(o := o.(asked := o.asked + {TCancel}), oc := Queue(s.oc.(queue := []), Cancel))
    case OBegin => s.(oc := Begin(s.oc))
    case OWrite => s.(oc := Write(s.oc), o := if s.oc.queue[0].Cancel? then o.Set({OIsShut}) else o)
    case OShut => s.(o := o.Set({OIsShut}), oc := s.oc.(queue := []))
    case OReceive =>
      (var r := OuterReceives(p, o, s.oc, s.co.pipe[0]);
       s.(o := if r.Some? then r.value else OFailing(o).Set({OIsInvalid}), co := Take(s.co)))
    case OInvalid => s.(o := OFailing(o).Set({OIsInvalid}))
    case OEof =>
      s.(o := if o.final.None? then OFailing(o).Set({OSawEof, OIsInvalid})
              else if o.Is(OIsInvalid) then o.Set({OSawEof}) else o.Set({OSawEof, ODecodedEof}))
    case OOutputEof(second) => s.(o := o.Set(if second then {OSawStderr} else {OSawStdout}))
    case OCloseStdin => s.(o := o.Set({OClosedStdin}))
    case OFail => s.(o := OFailing(o))
    case OUnknown => s.(o := OFailing(o).Set({OIsUnknown}))
    case OOverflow => s.(o := OFailing(o).Set({OOverflowed}))
    case OWait => s.(o := o.(wait := Some(s.cp.status)), cp := Reaped(s.cp.status))
  }

  /** `finality_confirmed?` once C exists: physical cleanup, not the validation result. */
  predicate Finality(o: Outer) {
    && !o.Is(OIsUnknown) && o.spawn.Published? && o.final.Some? && o.final.value.confirmed
    && !o.Is(OIsInvalid) && o.Is(OSawEof) && o.Is(ODecodedEof) && o.Is(OSawStdout) && o.Is(OSawStderr)
    && o.wait == Some(if o.final.value.outcome.Failed? then SETTLED_FAILURE else CLEAN)
  }

  /** `successful_offer?`: the upload may go ahead. */
  predicate Authorised(s: State) {
    && Finality(s.o) && !s.o.Is(OHasFailed) && s.o.final.value.outcome.Accepted?
    && TCommit in s.oc.written && Succeeded(s.o) && s.o.Is(OClosedStdin) && !s.o.Is(OOverflowed)
  }

  // ---------- C ----------

  /** Grants and notices C accepts from O; the second result is whether RUN goes on to K. */
  function CustodianReceives(c: Custodian, coWritten: set<Tag>, f: Frame): Option<(Custodian, bool)> {
    if f.Config? && c.config.None? && c.Is(CSentHello) && c.Allowed() then Some((c.(config := Some(f.command)), false))
    else if f.Admit? && c.config.Some? && !c.Is(CGotAdmit) && !c.Is(CIsClosed) && c.Allowed()
    then Some((c.(spawn := Trying).Set({CGotAdmit}), false))
    else if f.Run? && c.Is(CHasGroup) && TReserved in coWritten && !c.Is(CForwardedRun) && !c.Is(CIsCleaning)
            && !c.Is(CGroupRetired) && !c.Is(CKeeperShut) && c.Allowed()
    then Some((c.Set({CForwardedRun}), true))
    else if f.Commit? && c.status == Some(CLEAN) && TStatus in coWritten && !c.Is(CGotCommit) && c.Allowed()
    then Some((c.Set({CGotCommit}), false))
    else None
  }

  /** `accept_released`: K's last word must agree with all C heard before. */
  predicate ReleaseAgrees(p: Setup, c: Custodian, ck: Link, r: Record) {
    && GoodRecord(r)
    && (TRun !in ck.attempted ==> r.NotAttempted?)
    && (r.Waited? ==> r.pid != p.c && r.pid != p.o && r.pid != p.k && (c.moved.Some? ==> Some(r.pid) == c.moved))
    && (r.NotAttempted? ==> c.moved.None?)
    && (c.status.Some? ==> c.moved.Some? && r == Waited(c.moved.value, c.status.value))
  }

  /** Frames C accepts from K, with the frame that goes on to O, if any. */
  function CustodianHears(p: Setup, c: Custodian, ck: Link, keeperMoved: bool, f: Frame): Option<(Custodian, Option<Frame>)> {
    if c.released.Some? then None
    else if f.Hello? && c.spawn.Published? && !c.Is(CBeganWait) && !c.Is(CHasGroup) && f == Hello(p.k, p.c, p.c, p.k) then
      var c' := c.Set({CHasGroup});
      var c'' := if keeperMoved then CFailing(c') else c';
      Some((c'', if c''.Allowed() then Some(Reserved(p.k, p.k, p.c)) else None))
    else if f.Moved? && c.Is(CHasGroup) && !c.Is(CGroupRetired) && c.moved.None? && TRun in ck.written && f.id == p.k
            && f.keeperGroup == p.c && f.validator != p.c && f.validator != p.o && f.validator != p.k && keeperMoved then
      Some((c.(moved := Some(f.validator)), if c.Allowed() then Some(Ready(f.validator, p.k, p.c)) else None))
    else if f.StatusOf? && c.moved == Some(f.validator) && c.status.None? && Children.GoodStatus(f.status) then
      Some((c.(status := Some(f.status)).Set({CIsCleaning, CIsClosed}), if c.Allowed() then Some(StatusOf(f.validator, f.status)) else None))
    else if f.Released? && ReleaseAgrees(p, c, ck, f.record) then
      var c' := c.(released := Some(f.record)).Set({CKeeperShut, CIsCleaning, CIsClosed});
      Some((if c.Is(CAskedRelease) && c.status.Some? then c' else CFailing(c'), None))
    else None
  }

  function KeeperRecord(p: Setup, c: Custodian): Record {
    if c.wait.Some? then Waited(p.k, c.wait.value)
    else if c.Is(CIsClosed) && (c.spawn.NotTried? || c.spawn.Never?) then NotAttempted else Unresolved
  }

  function ValidatorRecord(p: Setup, c: Custodian): Record {
    if KeeperRecord(p, c).NotAttempted? then NotAttempted
    else if c.released.Some? then c.released.value
    else if c.status.Some? && c.moved.Some? then Waited(c.moved.value, c.status.value) else Unresolved
  }

  function GroupRecord(p: Setup, c: Custodian): Group {
    if KeeperRecord(p, c).NotAttempted? then NotCreated
    else if c.Is(CHasGroup) && c.Is(CGroupRetired) then Retired(p.k, c.Is(CSawAbsent)) else Open
  }

  /** `records_confirmed?` */
  predicate RecordsConfirmed(p: Setup, c: Custodian) {
    KeeperRecord(p, c).NotAttempted? ||
    (&& (c.wait == Some(CLEAN) || c.wait == Some(SETTLED_FAILURE))
     && !ValidatorRecord(p, c).Unresolved?
     && c.Is(CHasGroup) && c.Is(CGroupRetired) && c.Is(CSawAbsent) && c.released.Some? && c.Is(CSawEof))
  }

  /** `finish_if_ready`; `settled` is that C closed every descriptor and creator of its own. */
  function FinalOf(p: Setup, c: Custodian, coWritten: set<Tag>, settled: bool): Terminal {
    var confirmed := settled && !c.Is(CIsUnsure) && RecordsConfirmed(p, c);
    var validator := ValidatorRecord(p, c);
    var outcome :=
      if !c.Is(CHasFailed) && confirmed && c.wait == Some(CLEAN) && validator.Waited? && validator.status.Exited?
         && c.status.Some? && c.moved.Some? && TReady in coWritten && TStatus in coWritten
      then (if validator.status.code == 0 && c.Is(CGotCommit) then Accepted else Refused) else Failed;
    Terminal(outcome, confirmed, KeeperRecord(p, c), validator, GroupRecord(p, c))
  }

  function CutOff(p: Setup, c: Custodian): Terminal {
    Terminal(Failed, false, KeeperRecord(p, c), ValidatorRecord(p, c), GroupRecord(p, c))
  }

  predicate ReadyToFinish(p: Setup, c: Custodian) {
    && c.Is(CIsCleaning) && c.Is(CRoutesRetired) && !c.spawn.Trying?
    && (c.spawn.Published? ==> (c.wait.Some? && (c.Is(CSawEof) || c.Is(CIsUnsure))) || c.Is(CIsBroken))
    && var v := ValidatorRecord(p, c);
       v.Waited? && v.status == CLEAN ==> c.Is(CHasFailed) || c.Is(CGotCommit)
  }

  /** C's exchange with O and K. */
  datatype CustodianBody =
    | CGreet | CReceive | CHear | CPublish | CLose | CNever | CClean | CCancel | CKeeperEof

  /** C's cleanup of the group and of K, and its last frame. */
  datatype CustodianTail =
    | CProbe(absent: bool) | CRetireGroup | CRetireRoutes | CRelease | CBeginWait | CWait | CBreakWait
    | CFinish(settled: bool) | CCutOff

  /** What may happen to C at any time: writes, refused writes, failures and its death. */
  datatype CustodianAction =
    | CBody(body: CustodianBody) | CTail(tail: CustodianTail) | CBegin(up: bool) | CWrite(up: bool) | CDrop(up: bool) | CShut(up: bool, sure: bool)
    | CFail | CUnsure | CExit(status: Status)

  predicate CustodianBodyEnabled(p: Setup, s: State, x: CustodianBody) {
    var c := s.c;
    c.terminal.None? &&
    match x
    case CGreet => !c.Is(CHasFailed) && !c.Is(CSentHello)
    case CReceive => s.oc.pipe != []
    case CHear => c.spawn.Published? && s.kc.pipe != [] && !c.Is(CSawEof)
    case CPublish => c.spawn.Trying? && !s.kp.Unborn?
    case CLose => c.spawn.Trying?
    case CNever => c.spawn.Trying? && s.kp.Unborn?
    case CClean => c.Is(CHasFailed)
    case CCancel => c.Is(CHasFailed) && c.spawn.Published? && !c.Is(CSentCancel) && c.released.None? && !c.Is(CKeeperShut)
    case CKeeperEof => c.spawn.Published? && s.kc.pipe == [] && Ended(s.kp)
  }

  predicate CustodianTailEnabled(p: Setup, s: State, x: CustodianTail) {
    var c := s.c;
    c.terminal.None? &&
    match x
    case CProbe(absent) => c.Is(CIsCleaning) && c.Is(CHasGroup) && !c.Is(CRoutesRetired) && !c.Is(CGroupRetired) && !c.Is(CBeganWait) && (absent ==> GroupEmpty(s))
    case CRetireGroup => c.Is(CIsCleaning) && c.Is(CHasGroup) && !c.Is(CRoutesRetired)
    case CRetireRoutes => c.Is(CIsCleaning) && !c.Is(CHasGroup) && !c.spawn.Trying?
    case CRelease =>
      c.Is(CRoutesRetired) && c.Is(CHasGroup) && c.Is(CGroupRetired) && !c.Is(CAskedRelease) && c.released.None?
      && !c.Is(CKeeperShut) && !c.Is(CSawEof)
    case CBeginWait => c.Is(CIsCleaning) && c.Is(CRoutesRetired) && c.spawn.Published? && (c.Is(CHasGroup) ==> c.Is(CGroupRetired))
    case CWait => c.Is(CBeganWait) && !c.Is(CIsBroken) && c.wait.None? && s.kp.Zombie?
    case CBreakWait => c.Is(CBeganWait) && c.wait.None?
    case CFinish(_) => ReadyToFinish(p, c)
    case CCutOff => true
  }

  /** `settled_exit_code`: exit 0 and 2 are reserved for C's own completed last line. */
  predicate CustodianSettled(p: Setup, s: State) {
    var c := s.c;
    && c.terminal.Some? && !c.Is(CIsPoisoned) && TFinal in s.co.written && s.co.queue == [] && !c.Is(CParentShut)
    && !c.Is(CIsUnsure) && c.Is(CRoutesRetired) && c.terminal.value.confirmed && RecordsConfirmed(p, c)
    && c.terminal.value.keeper == KeeperRecord(p, c) && c.terminal.value.validator == ValidatorRecord(p, c)
    && c.terminal.value.group == GroupRecord(p, c)
  }

  predicate Reserved02(st: Status) { st == CLEAN || st == SETTLED_FAILURE }

  predicate CustodianEnabled(p: Setup, s: State, a: CustodianAction) {
    var c := s.c;
    s.cp.Alive? &&
    match a
    case CBody(x) => CustodianBodyEnabled(p, s, x)
    case CTail(x) => CustodianTailEnabled(p, s, x)
    case CBegin(up) => Writable(s, up) && (TagOf(Out(s, up).queue[0]) in POSITIVE ==> c.Allowed())
    case CWrite(up) => Writable(s, up) && (TagOf(Out(s, up).queue[0]) in POSITIVE ==> c.Allowed())
    case CDrop(up) => Writable(s, up) && TagOf(Out(s, up).queue[0]) in POSITIVE && !c.Allowed()
    case CShut(up, sure) => true
    case CFail => true
    case CUnsure => true
    case CExit(st) =>
      Children.GoodStatus(st)
      && (Reserved02(st) ==> CustodianSettled(p, s) && (st == SETTLED_FAILURE <==> c.terminal.value.outcome.Failed?))
  }

  /** C's two writers: up to O, down to K. */
  function Out(s: State, up: bool): Link { if up then s.co else s.ck }

  predicate Writable(s: State, up: bool) {
    Out(s, up).queue != [] && !s.c.Is(if up then CParentShut else CKeeperShut)
  }

  function Outward(s: State, up: bool, l: Link): State { if up then s.(co := l) else s.(ck := l) }

  function Offered(l: Link, f: Option<Frame>): Link { if f.Some? then Queue(l, f.value) else l }

  function CustodianBodyStep(p: Setup, s: State, x: CustodianBody): State
    requires CustodianBodyEnabled(p, s, x)
  {
    var c := s.c;
    match x
    case CGreet => s.(c := c.Set({CSentHello}), co := Queue(s.co, Hello(p.c, p.o, p.c, p.c)))
    case CReceive =>
      (var r := CustodianReceives(c, s.co.written, s.oc.pipe[0]);
       if r.Some? then s.(c := r.value.0, oc := Take(s.oc), ck := if r.value.1 then Queue(s.ck, Run) else s.ck)
       else s.(c := CFailing(c), oc := Take(s.oc)))
    case CHear =>
      (var r := CustodianHears(p, c, s.ck, s.k.Is(KHasMoved), s.kc.pipe[0]);
       if r.Some? then s.(c := r.value.0, kc := Take(s.kc), co := Offered(s.co, r.value.1))
       else s.(c := CFailing(c).Set({CIsUnsure}), kc := Take(s.kc)))
    case CPublish =>
      s.(c := c.(spawn := Published).Set({CIsClosed}),
         ck := if c.Allowed() && c.config.Some? then Queue(s.ck, Config(c.config.value)) else s.ck)
    case CLose => s.(c := CFailing(c.(spawn := Lost)).Set({CIsUnsure}))
    case CNever => s.(c := CFailing(c.(spawn := Never)))
    case CClean => s.(c := c.Set({CIsCleaning, CIsClosed}))
    case CCancel => s.(c := c.Set({CSentCancel}), ck := Queue(s.ck, Cancel))
    case CKeeperEof =>
      s.(c := if c.released.Some? && c.Is(CAskedRelease) then c.Set({CSawEof}) else CFailing(c).Set({CSawEof}))
  }

  function CustodianTailStep(p: Setup, s: State, x: CustodianTail): State
    requires CustodianTailEnabled(p, s, x)
  {
    var c := s.c;
    match x
    case CProbe(absent) => s.(c := if absent then c.Set({CSawAbsent, CGroupRetired, CRoutesRetired}) else c)
    case CRetireGroup =>
      s.(c := if c.Is(CSawAbsent) then c.Set({CGroupRetired, CRoutesRetired})
              else CFailing(c).Set({CGroupRetired, CRoutesRetired, CIsUnsure}))
    case CRetireRoutes => s.(c := c.Set({CRoutesRetired}))
    case CRelease =>
      s.(c := c.Set({CAskedRelease}), ck := Queue(Queue(s.ck, GroupRetired(p.k, c.Is(CSawAbsent))), Release))
    case CBeginWait => s.(c := c.Set({CBeganWait}))
    case CWait =>
      s.(c := (var w := c.(wait := Some(s.kp.status));
               if s.kp.status == CLEAN then w
               else if s.kp.status == SETTLED_FAILURE then CFailing(w) else CFailing(w).Set({CIsUnsure})),
         kp := Reaped(s.kp.status))
    case CBreakWait => s.(c := CFailing(c).Set({CIsBroken, CIsUnsure}))
    case CFinish(settled) => Ending(s, FinalOf(p, c, s.co.written, settled))
    case CCutOff =>
      (var sealed := c.Set(if c.Is(CHasGroup) then {CIsClosed, CGroupRetired, CRoutesRetired, CIsUnsure}
                           else {CIsClosed, CRoutesRetired, CIsUnsure});
       Ending(s.(c := sealed), CutOff(p, sealed)))
  }

  /** `start_terminal`: the last frame is queued, unless there is no way left to send it. */
  function Ending(s: State, t: Terminal): State {
    s.(c := s.c.(terminal := Some(t)),
       co := if s.c.Is(CParentShut) then s.co else Queue(s.co, Final(t)))
  }

  function CustodianStep(p: Setup, s: State, a: CustodianAction): State
    requires CustodianEnabled(p, s, a)
  {
    var c := s.c;
    match a
    case CBody(x) => CustodianBodyStep(p, s, x)
    case CTail(x) => CustodianTailStep(p, s, x)
    case CBegin(up) => Outward(s, up, Begin(Out(s, up)))
    case CWrite(up) => Outward(s, up, Write(Out(s, up)))
    case CDrop(up) => Outward(s.(c := CFailing(c)), up, Drop(Out(s, up)))
    case CShut(up, sure) =>
      s.(c := CFailing(c).Set(if up then {CParentShut, CIsUnsure} else if sure then {CKeeperShut} else {CKeeperShut, CIsUnsure}))
    case CFail => s.(c := CFailing(c))
    case CUnsure => s.(c := CFailing(c).Set({CIsUnsure}))
    case CExit(st) => s.(cp := Zombie(st))
  }

  // ---------- K ----------

  function KeeperReceives(p: Setup, k: Keeper, f: Frame): Option<Keeper> {
    if f.Config? && k.config.None? && k.Is(KSentHello) && k.Allowed() then Some(k.(config := Some(f.command)))
    else if f.Run? && k.config.Some? && !k.Is(KGotRun) && !k.Is(KIsClosed) && !k.Is(KIsRetired) && !k.Is(KGotRetirement)
            && !k.Is(KGotRelease) && !k.Is(KHasMoved) && k.Allowed()
    then Some(k.(spawn := Trying).Set({KGotRun}))
    else if f.GroupRetired? && k.Is(KHasGroup) && f.id == p.k && !k.Is(KGotRetirement)
            && (f.absent ==> k.Is(KHasMoved) && k.Is(KIsClosed) && !k.spawn.Trying? && !k.spawn.Lost?)
    then
      var k' := k.Set({KIsClosed, KIsRetired, KGotRetirement});
      Some(if f.absent then k'.Set({KWasAbsent}) else KFailing(k'))
    else if f.Release? && k.Is(KGotRetirement) && !k.Is(KGotRelease) then Some(k.Set({KGotRelease}))
    else if f.Cancel? then Some(KFailing(k))
    else None
  }

  function RecordOf(p: Setup, k: Keeper): Record {
    if k.wait.Some? then Waited(p.v, k.wait.value)
    else if k.Is(KIsClosed) && (k.spawn.NotTried? || k.spawn.Never?) then NotAttempted else Unresolved
  }

  predicate GroupConfirmed(k: Keeper) {
    k.Is(KWasAbsent) || (k.Is(KIsRetired) && k.Is(KSawAbsent)) || !k.Is(KHasGroup)
  }

  predicate Cooperative(k: Keeper) {
    k.Is(KGotRelease) && k.Is(KGotRetirement) && k.Is(KWasAbsent) && !k.Is(KIsLocal)
  }

  predicate MayFinish(k: Keeper) {
    && !k.spawn.Trying? && (k.spawn.Published? ==> k.wait.Some? || k.Is(KIsBroken))
    && (if k.Is(KGotRelease) then k.Is(KIsRetired)
        else k.Is(KHasFailed) && k.Is(KIsLocal) && (k.Is(KHasGroup) ==> k.Is(KIsRetired) && k.Is(KSawAbsent)))
  }

  datatype KeeperBody =
    | KSettle | KGreet | KReceive | KPublish(moved: bool) | KLose | KNever(moved: bool) | KMoveIdle | KWait | KBreakWait
    | KStatus | KProbe(absent: bool) | KFinish(settled: bool) | KCutOff

  datatype KeeperAction =
    | KBody(body: KeeperBody) | KBegin | KWrite | KDrop | KShut | KFail | KUnsure | KExit(status: Status)

  predicate KeeperBodyEnabled(p: Setup, s: State, x: KeeperBody) {
    var k := s.k;
    !k.Is(KHasEnded) &&
    match x
    case KSettle => !k.Is(KHasFailed) && !k.Is(KHasGroup)
    case KGreet => k.Is(KHasGroup) && k.Allowed() && !k.Is(KSentHello)
    case KReceive => s.ck.pipe != []
    case KPublish(moved) => k.spawn.Trying? && !s.vp.Unborn? && (moved ==> k.Is(KHasGroup))
    case KLose => k.spawn.Trying?
    case KNever(moved) => k.spawn.Trying? && s.vp.Unborn? && (moved ==> k.Is(KHasGroup))
    case KMoveIdle => k.Is(KHasFailed) && k.spawn.NotTried?
    case KWait => k.spawn.Published? && k.wait.None? && !k.Is(KIsBroken) && s.vp.Zombie?
    case KBreakWait => k.spawn.Published? && k.wait.None?
    case KStatus => k.wait.Some? && TMoved in s.kc.written && !k.Is(KSentStatus) && k.Allowed()
    case KProbe(absent) => k.Is(KHasFailed) && k.Is(KHasGroup) && !k.Is(KIsRetired) && k.Is(KHasMoved) && (absent ==> GroupEmpty(s))
    case KFinish(_) => MayFinish(k)
    case KCutOff => true
  }

  predicate KeeperSettled(p: Setup, s: State) {
    var k := s.k;
    && k.terminal.Some? && !k.Is(KIsPoisoned) && TReleased in s.kc.written && s.kc.queue == [] && !k.Is(KIsShut)
    && !k.Is(KIsUnsure) && k.terminal.value == RecordOf(p, k) && !k.terminal.value.Unresolved? && GroupConfirmed(k)
  }

  predicate KeeperEnabled(p: Setup, s: State, a: KeeperAction) {
    var k := s.k;
    s.kp.Alive? &&
    match a
    case KBody(x) => KeeperBodyEnabled(p, s, x)
    case KBegin => s.kc.queue != [] && !k.Is(KIsShut) && (TagOf(s.kc.queue[0]) in POSITIVE ==> k.Allowed())
    case KWrite => s.kc.queue != [] && !k.Is(KIsShut) && (TagOf(s.kc.queue[0]) in POSITIVE ==> k.Allowed())
    case KDrop => s.kc.queue != [] && !k.Is(KIsShut) && TagOf(s.kc.queue[0]) in POSITIVE && !k.Allowed()
    case KShut => true
    case KFail => true
    case KUnsure => true
    case KExit(st) =>
      Children.GoodStatus(st) && (Reserved02(st) ==> KeeperSettled(p, s) && (st == CLEAN <==> Cooperative(k)))
  }

  function KeeperBodyStep(p: Setup, s: State, x: KeeperBody): State
    requires KeeperBodyEnabled(p, s, x)
  {
    var k := s.k;
    match x
    case KSettle => s.(k := k.Set({KHasGroup}))
    case KGreet => s.(k := k.Set({KSentHello}), kc := Queue(s.kc, Hello(p.k, p.c, p.c, p.k)))
    case KReceive =>
      (var r := KeeperReceives(p, k, s.ck.pipe[0]);
       s.(k := if r.Some? then r.value else KFailing(k).Set({KIsLocal}), ck := Take(s.ck)))
    case KPublish(moved) =>
      (var k' := k.(spawn := Published).Set({KIsClosed});
       if !moved then s.(k := KFailing(k').Set({KIsLocal}))
       else s.(k := k'.Set({KHasMoved}), kc := if k.Allowed() then Queue(s.kc, Moved(p.v, p.k, p.c)) else s.kc))
    case KLose => s.(k := KFailing(k.(spawn := Lost)).Set({KIsLocal, KIsUnsure}))
    case KNever(moved) =>
      s.(k := (var k' := KFailing(k.(spawn := Never)).Set({KIsLocal}); if moved then k'.Set({KHasMoved}) else k'))
    case KMoveIdle => s.(k := k.Set(if k.Is(KHasGroup) then {KIsClosed, KHasMoved} else {KIsClosed}))
    case KWait => s.(k := k.(wait := Some(s.vp.status)), vp := Reaped(s.vp.status))
    case KBreakWait => s.(k := KFailing(k).Set({KIsBroken, KIsUnsure, KIsLocal}))
    case KStatus => s.(k := k.Set({KSentStatus}), kc := Queue(s.kc, StatusOf(p.v, k.wait.value)))
    case KProbe(absent) => s.(k := if absent then k.Set({KSawAbsent, KIsRetired}) else k)
    case KFinish(settled) =>
      if settled && !k.Is(KIsUnsure) && !RecordOf(p, k).Unresolved? && GroupConfirmed(k)
      then Releasing(s, RecordOf(p, k))
      else s.(k := k.Set({KHasEnded, KIsPoisoned}))
    case KCutOff =>
      (var k' := k.Set({KIsClosed, KIsRetired, KIsUnsure}); Releasing(s.(k := k'), RecordOf(p, k')))
  }

  function Releasing(s: State, r: Record): State {
    s.(k := s.k.(terminal := Some(r)).Set({KHasEnded}), kc := if s.k.Is(KIsShut) then s.kc else Queue(s.kc, Released(r)))
  }

  function KeeperStep(p: Setup, s: State, a: KeeperAction): State
    requires KeeperEnabled(p, s, a)
  {
    var k := s.k;
    match a
    case KBody(x) => KeeperBodyStep(p, s, x)
    case KBegin => s.(kc := Begin(s.kc))
    case KWrite => s.(kc := Write(s.kc))
    case KDrop => s.(k := KFailing(k).Set({KIsLocal}), kc := Drop(s.kc))
    case KShut => s.(k := KFailing(k).Set({KIsShut, KIsLocal, KIsUnsure}))
    case KFail => s.(k := KFailing(k).Set({KIsLocal}))
    case KUnsure => s.(k := KFailing(k).Set({KIsLocal, KIsUnsure}))
    case KExit(st) => s.(kp := Zombie(st))
  }

  // ---------- the operating system ----------

  datatype SystemAction = BearC | BearK | BearV | EndV(status: Status) | AdoptV | KinBorn | KinGone

  predicate SystemEnabled(s: State, x: SystemAction) {
    match x
    case BearC => s.o.spawn.Trying? && s.cp.Unborn?
    case BearK => s.c.spawn.Trying? && s.kp.Unborn? && s.cp.Alive?
    case BearV => s.k.spawn.Trying? && s.vp.Unborn? && s.kp.Alive?
    case EndV(st) => s.vp.Alive? && Children.GoodStatus(st)
    case AdoptV => s.vp.Zombie? && Ended(s.kp)
    case KinBorn => s.vp.Alive? || s.kin
    case KinGone => true
  }

  function SystemStep(s: State, x: SystemAction): State
    requires SystemEnabled(s, x)
  {
    match x
    case BearC => s.(cp := Alive)
    case BearK => s.(kp := Alive)
    case BearV => s.(vp := Alive)
    case EndV(st) => s.(vp := Zombie(st))
    case AdoptV => s.(vp := Reaped(s.vp.status))
    case KinBorn => s.(kin := true)
    case KinGone => s.(kin := false)
  }

  // ---------- runs ----------

  datatype Action = OAct(o: OuterAction) | CAct(c: CustodianAction) | KAct(k: KeeperAction) | Sys(x: SystemAction)

  /** A disabled action changes nothing, so every list of actions is an interleaving. */
  function Step(p: Setup, s: State, action: Action): State {
    match action
    case OAct(x) => if OuterEnabled(p, s, x) then OuterStep(p, s, x) else s
    case CAct(x) => if CustodianEnabled(p, s, x) then CustodianStep(p, s, x) else s
    case KAct(x) => if KeeperEnabled(p, s, x) then KeeperStep(p, s, x) else s
    case Sys(x) => if SystemEnabled(s, x) then SystemStep(s, x) else s
  }

  function Advance(p: Setup, s: State, actions: seq<Action>): State
    decreases |actions|
  {
    if actions == [] then s else Advance(p, Step(p, s, actions[0]), actions[1..])
  }
}
