/**
 Custody of a spawned child. Its number stays reserved until its own parent waits for
 it, so every route that uses the number is retired before the first wait.
 */
module Children {
  import opened Bytes

  datatype Status = Exited(code: int) | Signalled(number: int)

  const NSIG := 65

  predicate GoodStatus(s: Status) {
    match s
    case Exited(code) => 0 <= code <= 255
    case Signalled(number) => 0 < number < NSIG
  }

  datatype Receipt = Receipt(pid: nat, status: Status)

  datatype Stage = Unpublished | Owned | InFlight | Pollable | Reaped | Unknown

  datatype ChildState = ChildState(stage: Stage, pid: Option<nat>, retired: bool, waiter: Option<nat>, receipt: Option<Receipt>)

  const UNBORN := ChildState(Unpublished, None, false, None, None)

  function Publish(pid: nat): ChildState { UNBORN.(stage := Owned, pid := Some(pid)) }

  const LOST := UNBORN.(stage := Unknown, retired := true)

  /** The guard of every signal and group probe: the child was never waited for. */
  predicate MaySignal(c: ChildState) { c.stage == Owned && !c.retired && c.pid.Some? }

  predicate MayWait(c: ChildState) { c.stage in {Owned, Pollable} && c.pid.Some? }

  /** The first half of `poll_wait`: another thread's wait loses the child, this thread's retires the number. */
  function Begin(c: ChildState, thread: nat): ChildState {
    if !MayWait(c) then c
    else if c.waiter.Some? && c.waiter != Some(thread) then c.(stage := Unknown, retired := true)
    else c.(stage := InFlight, retired := true, waiter := Some(thread))
  }

  /** What `waitpid` with WNOHANG comes to. */
  datatype WaitReturn = Idle | Took(pid: nat, status: Status) | Raised

  /** The second half: only a genuine idle return allows another wait, only a genuine status is a receipt. */
  function End(c: ChildState, returned: WaitReturn): ChildState {
    match returned
    case Idle => c.(stage := Pollable)
    case Raised => c.(stage := Unknown)
    case Took(pid, status) =>
      if c.pid == Some(pid) && GoodStatus(status) then c.(stage := Reaped, receipt := Some(Receipt(pid, status)))
      else c.(stage := Unknown)
  }

  // ---------- a child as the original keeps it ----------

  class Child {
    var stage: Stage
    var pid: Option<nat>
    var retired: bool
    var waiter: Option<nat>
    var receipt: Option<Receipt>

    function Value(): ChildState
      reads this
    {
      ChildState(stage, pid, retired, waiter, receipt)
    }

    ghost predicate Valid()
      reads this
    {
      (stage == Reaped <==> receipt.Some?) && (stage in {InFlight, Pollable, Reaped} ==> retired)
    }

    constructor ()
      ensures Valid() && Value() == UNBORN
    {
      stage, pid, retired, waiter, receipt := Unpublished, None, false, None, None;
    }

    method Published(number: nat)
      requires Value() == UNBORN
      modifies this
      ensures Valid() && Value() == Publish(number)
    {
      stage, pid := Owned, Some(number);
    }

    method RetireNumeric()
      requires Valid()
      modifies this`retired
      ensures Valid() && Value() == old(Value()).(retired := true)
    {
      retired := true;
    }

    /** `poll_wait`; `called` says whether the system was asked at all. */
    method PollWait(thread: nat, returned: WaitReturn) returns (got: Option<Receipt>, called: bool)
      requires Valid()
      modifies this
      ensures Valid() && got == receipt
      ensures called <==> MayWait(old(Value())) && (old(waiter).None? || old(waiter) == Some(thread))
      ensures Value() == if called then End(Begin(old(Value()), thread), returned) else Begin(old(Value()), thread)
      ensures called ==> retired && waiter == Some(thread)
      ensures old(stage) in {Reaped, InFlight, Unknown} ==> !called && Value() == old(Value())
    {
      if stage == Reaped || !(stage == Owned || stage == Pollable) || pid.None? { return receipt, false; }
      if waiter.Some? && waiter != Some(thread) {
        retired, stage := true, Unknown;
        return None, false;
      }
      waiter, retired, stage := Some(thread), true, InFlight;
      called := true;
      match returned {
        case Idle => stage := Pollable;
        case Raised => stage := Unknown;
        case Took(number, status) =>
          if pid == Some(number) && GoodStatus(status) {
            receipt, stage := Some(Receipt(number, status)), Reaped;
          } else {
            stage := Unknown;
          }
      }
      got := receipt;
    }
  }

  // ---------- every child of a process, and everybody else's ----------

  /** A process table entry: the child record it belongs to, if any, and how it ended. */
  datatype Process = Process(child: Option<nat>, ended: Option<Status>)

  datatype Event =
    | SignalCall(child: nat, hit: Option<nat>)
    | WaitCall(child: nat, thread: nat, hit: Option<nat>)
    | Consumed(child: nat, status: Status)

  datatype Machine = Machine(table: map<nat, Process>, children: map<nat, ChildState>, log: seq<Event>)

  datatype Action =
    | Spawn(child: nat, pid: nat)
    | SpawnLost(child: nat, leaked: Option<nat>)
    | Exit(pid: nat, status: Status)
    | Signal(child: nat)
    | Retire(child: nat)
    | BeginWait(child: nat, thread: nat)
    | EndIdle(child: nat)
    | EndTook(child: nat)
    | EndRaised(child: nat, consumed: bool)
    | OtherSpawn(pid: nat)
    | OtherReap(pid: nat)

  /** Whose child a number denotes at this moment. */
  function Denotes(table: map<nat, Process>, pid: Option<nat>): Option<nat> {
    if pid.Some? && pid.value in table then table[pid.value].child else None
  }

  function Ended(m: Machine, c: nat): Option<Status> {
    if c in m.children && m.children[c].pid.Some? && m.children[c].pid.value in m.table
    then m.table[m.children[c].pid.value].ended else None
  }

  predicate Waiting(m: Machine, c: nat) { c in m.children && m.children[c].stage == InFlight && m.children[c].pid.Some? }

  predicate Enabled(m: Machine, a: Action) {
    match a
    case Spawn(c, p) => c !in m.children && p !in m.table
    case SpawnLost(c, p) => c !in m.children && (p.Some? ==> p.value !in m.table)
    case Exit(p, s) => p in m.table && m.table[p].ended.None?
    case Signal(c) => c in m.children && MaySignal(m.children[c])
    case Retire(c) => c in m.children
    case BeginWait(c, t) => c in m.children
    case EndIdle(c) => Waiting(m, c) && Ended(m, c).None?
    case EndTook(c) => Waiting(m, c) && Ended(m, c).Some?
    case EndRaised(c, consumed) => Waiting(m, c) && (consumed ==> Ended(m, c).Some?)
    case OtherSpawn(p) => p !in m.table
    case OtherReap(p) => p in m.table && m.table[p].child.None? && m.table[p].ended.Some?
  }

  function Put(m: Machine, c: nat, s: ChildState): Machine { m.(children := m.children[c := s]) }

  function Bind(m: Machine, pid: nat, p: Process): Machine { m.(table := m.table[pid := p]) }

  function Logged(m: Machine, e: Event): Machine { m.(log := m.log + [e]) }

  /** The kernel hands the status over and frees the number. */
  function Consume(m: Machine, c: nat): Machine
    requires Waiting(m, c) && Ended(m, c).Some?
  {
    Logged(m.(table := m.table - {m.children[c].pid.value}), Consumed(c, Ended(m, c).value))
  }

  function Apply(m: Machine, a: Action): Machine
    requires Enabled(m, a)
  {
    match a
    case Spawn(c, p) => Put(Bind(m, p, Process(Some(c), None)), c, Publish(p))
    case SpawnLost(c, p) =>
      var lost := Put(m, c, LOST);
      if p.Some? then Bind(lost, p.value, Process(Some(c), None)) else lost
    case Exit(p, s) => Bind(m, p, m.table[p].(ended := Some(s)))
    case Signal(c) => Logged(m, SignalCall(c, Denotes(m.table, m.children[c].pid)))
    case Retire(c) => Put(m, c, m.children[c].(retired := true))
    case BeginWait(c, t) =>
      var s := Begin(m.children[c], t);
      var begun := Put(m, c, s);
      if s.stage == InFlight && m.children[c].stage != InFlight
      then Logged(begun, WaitCall(c, t, Denotes(m.table, s.pid))) else begun
    case EndIdle(c) => Put(m, c, End(m.children[c], Idle))
    case EndTook(c) => Put(Consume(m, c), c, End(m.children[c], Took(m.children[c].pid.value, Ended(m, c).value)))
    case EndRaised(c, consumed) => Put(if consumed then Consume(m, c) else m, c, End(m.children[c], Raised))
    case OtherSpawn(p) => Bind(m, p, Process(None, None))
    case OtherReap(p) => m.(table := m.table - {p})
  }

  function Run(m: Machine, actions: seq<Action>): Option<Machine> {
    if actions == [] then Some(m)
    else
      var mid, last := Run(m, actions[..|actions| - 1]), actions[|actions| - 1];
      if mid.Some? && Enabled(mid.value, last) then Some(Apply(mid.value, last)) else None
  }

  /** Before the first spawn every process belongs to somebody else. */
  function Start(others: set<nat>): Machine {
    Machine(map p | p in others :: Process(None, None), map[], [])
  }

  // ---------- the invariant, part by part ----------

  predicate Held(s: ChildState) { s.stage in {Owned, InFlight, Pollable} }

  predicate Shaped(s: ChildState) {
    && (s.stage == Reaped <==> s.receipt.Some?)
    && (Held(s) ==> s.pid.Some?)
    && (s.waiter.Some? ==> s.retired)
    && (s.stage in {InFlight, Pollable} ==> s.waiter.Some?)
  }

  predicate ChildrenShaped(children: map<nat, ChildState>) { forall c :: c in children ==> Shaped(children[c]) }

  /** A child that may still be waited for keeps its number. */
  predicate Bound(table: map<nat, Process>, children: map<nat, ChildState>) {
    forall c :: c in children && Held(children[c]) ==> Denotes(table, children[c].pid) == Some(c)
  }

  predicate Claims(children: map<nat, ChildState>, c: nat, pid: nat) {
    c in children && ((children[c].pid == Some(pid) && Held(children[c])) || children[c].stage == Unknown)
  }

  predicate Kept(table: map<nat, Process>, children: map<nat, ChildState>) {
    forall p :: p in table && table[p].child.Some? ==> Claims(children, table[p].child.value, p)
  }

  /** What one log entry says about its child now. */
  predicate Entry(e: Event, children: map<nat, ChildState>) {
    && e.child in children
    && var s := children[e.child];
       match e
       case SignalCall(c, hit) => hit == Some(c)
       case WaitCall(c, t, hit) => hit == Some(c) && s.retired && s.waiter == Some(t)
       case Consumed(c, status) =>
         s.retired && s.stage in {Reaped, Unknown} && (s.receipt.Some? ==> s.receipt.value.status == status)
  }

  /** What may follow what in the log of one child. */
  predicate Ordered(first: Event, second: Event) {
    first.child == second.child ==>
      && (first.WaitCall? || first.Consumed? ==> !second.SignalCall?)
      && (first.Consumed? ==> !second.WaitCall? && !second.Consumed?)
      && (first.WaitCall? && second.WaitCall? ==> first.thread == second.thread)
  }

  predicate LogGood(log: seq<Event>, children: map<nat, ChildState>) {
    && (forall k :: 0 <= k < |log| ==> Entry(log[k], children))
    && (forall j, k :: 0 <= j < k < |log| ==> Ordered(log[j], log[k]))
  }

  predicate Receipted(log: seq<Event>, children: map<nat, ChildState>) {
    forall c :: c in children && children[c].receipt.Some? ==>
      children[c].pid == Some(children[c].receipt.value.pid) && Consumed(c, children[c].receipt.value.status) in log
  }

  predicate Inv(m: Machine) {
    && ChildrenShaped(m.children) && Bound(m.table, m.children) && Kept(m.table, m.children)
    && LogGood(m.log, m.children) && Receipted(m.log, m.children)
  }

  // ---------- every step keeps it ----------

  /** A step of one child record that keeps its number and only closes doors. */
  predicate Closes(old0: ChildState, new0: ChildState) {
    && new0.pid == old0.pid && (old0.retired ==> new0.retired)
    && (old0.waiter.Some? ==> new0.waiter == old0.waiter)
    && (old0.stage in {Reaped, Unknown} ==> new0 == old0.(retired := new0.retired))
  }

  lemma LogKeeps(log: seq<Event>, children: map<nat, ChildState>, c: nat, s: ChildState)
    requires LogGood(log, children)
    requires c in children ==> Closes(children[c], s)
    ensures LogGood(log, children[c := s])
  {
    forall k | 0 <= k < |log| ensures Entry(log[k], children[c := s]) {
      assert Entry(log[k], children);
    }
  }

  lemma LogGrows(log: seq<Event>, children: map<nat, ChildState>, e: Event)
    requires LogGood(log, children) && Entry(e, children)
    requires forall k :: 0 <= k < |log| ==> Ordered(log[k], e)
    ensures LogGood(log + [e], children)
  {
    var longer := log + [e];
    hide Entry, Ordered;
    forall j, k | 0 <= j < k < |longer| ensures Ordered(longer[j], longer[k]) {
      if k < |log| { assert Ordered(log[j], log[k]); }
    }
  }

  lemma MoveKeeps(m: Machine, c: nat, s: ChildState)
    requires Inv(m) && Shaped(s) && c in m.children && Closes(m.children[c], s)
    requires Held(s) <==> Held(m.children[c])
    requires s.receipt == m.children[c].receipt
    ensures Inv(Put(m, c, s))
  {
    LogKeeps(m.log, m.children, c, s);
    hide LogGood;
  }

  /** A fresh number that becomes somebody's: it was nobody's before. */
  lemma BindKeeps(m: Machine, p: nat, entry: Process)
    requires Inv(m)
    requires if p in m.table then entry.child == m.table[p].child else entry.child.None?
    ensures Inv(Bind(m, p, entry))
  {
  }

  lemma OtherReapKeeps(m: Machine, p: nat)
    requires Inv(m) && Enabled(m, OtherReap(p))
    ensures Inv(Apply(m, OtherReap(p)))
  {
  }

  lemma SpawnKeeps(m: Machine, c: nat, p: nat)
    requires Inv(m) && Enabled(m, Spawn(c, p))
    ensures Inv(Apply(m, Spawn(c, p)))
  {
    LogKeeps(m.log, m.children, c, Publish(p));
    hide LogGood;
  }

  lemma SpawnLostKeeps(m: Machine, c: nat, p: Option<nat>)
    requires Inv(m) && Enabled(m, SpawnLost(c, p))
    ensures Inv(Apply(m, SpawnLost(c, p)))
  {
    LogKeeps(m.log, m.children, c, LOST);
    hide LogGood;
  }

  lemma SignalKeeps(m: Machine, c: nat)
    requires Inv(m) && Enabled(m, Signal(c))
    ensures Inv(Apply(m, Signal(c)))
  {
    var e := SignalCall(c, Denotes(m.table, m.children[c].pid));
    forall k | 0 <= k < |m.log| ensures Ordered(m.log[k], e) { assert Entry(m.log[k], m.children); }
    LogGrows(m.log, m.children, e);
    hide LogGood;
  }

  lemma BeginKeeps(m: Machine, c: nat, t: nat)
    requires Inv(m) && Enabled(m, BeginWait(c, t))
    ensures Inv(Apply(m, BeginWait(c, t)))
  {
    var s := Begin(m.children[c], t);
    var e := WaitCall(c, t, Denotes(m.table, s.pid));
    assert Shaped(m.children[c]);
    LogKeeps(m.log, m.children, c, s);
    var after := m.children[c := s];
    if s.stage == InFlight && m.children[c].stage != InFlight {
      forall k | 0 <= k < |m.log| ensures Ordered(m.log[k], e) { assert Entry(m.log[k], m.children); }
      LogGrows(m.log, after, e);
    }
    hide LogGood;
  }

  lemma EndKeeps(m: Machine, c: nat, returned: WaitReturn)
    requires Inv(m) && Waiting(m, c) && returned in {Idle, Raised}
    ensures Inv(Put(m, c, End(m.children[c], returned)))
  {
    assert Shaped(m.children[c]);
    LogKeeps(m.log, m.children, c, End(m.children[c], returned));
    hide LogGood;
  }

  lemma ConsumeKeeps(m: Machine, c: nat, returned: WaitReturn)
    requires Inv(m) && Waiting(m, c) && Ended(m, c).Some?
    requires returned == Raised || returned == Took(m.children[c].pid.value, Ended(m, c).value)
    ensures Inv(Put(Consume(m, c), c, End(m.children[c], returned)))
  {
    var s := End(m.children[c], returned);
    var e := Consumed(c, Ended(m, c).value);
    assert Shaped(m.children[c]);
    LogKeeps(m.log, m.children, c, s);
    forall k | 0 <= k < |m.log| ensures Ordered(m.log[k], e) { assert Entry(m.log[k], m.children); }
    LogGrows(m.log, m.children[c := s], e);
    hide LogGood;
  }

  lemma StepKeeps(m: Machine, a: Action)
    requires Inv(m) && Enabled(m, a)
    ensures Inv(Apply(m, a))
  {
    match a
    case Spawn(c, p) => SpawnKeeps(m, c, p);
    case SpawnLost(c, p) => SpawnLostKeeps(m, c, p);
    case Exit(p, s) => BindKeeps(m, p, m.table[p].(ended := Some(s)));
    case Signal(c) => SignalKeeps(m, c);
    case Retire(c) => assert Shaped(m.children[c]); MoveKeeps(m, c, m.children[c].(retired := true));
    case BeginWait(c, t) => BeginKeeps(m, c, t);
    case EndIdle(c) => EndKeeps(m, c, Idle);
    case EndTook(c) => ConsumeKeeps(m, c, Took(m.children[c].pid.value, Ended(m, c).value));
    case EndRaised(c, consumed) => if consumed { ConsumeKeeps(m, c, Raised); } else { EndKeeps(m, c, Raised); }
    case OtherSpawn(p) => BindKeeps(m, p, Process(None, None));
    case OtherReap(p) => OtherReapKeeps(m, p);
  }

  lemma {:induction false} RunKeeps(m: Machine, actions: seq<Action>)
    requires Inv(m) && Run(m, actions).Some?
    ensures Inv(Run(m, actions).value)
  {
    if actions != [] {
      RunKeeps(m, actions[..|actions| - 1]);
      StepKeeps(Run(m, actions[..|actions| - 1]).value, actions[|actions| - 1]);
    }
  }

  // ---------- what custody promises ----------

  /** The processes, children and calls after a run; an impossible run leaves the start. */
  function After(others: set<nat>, actions: seq<Action>): Machine {
    var end := Run(Start(others), actions);
    if end.Some? then end.value else Start(others)
  }

  lemma AfterGood(others: set<nat>, actions: seq<Action>)
    ensures Inv(After(others, actions))
  {
    if Run(Start(others), actions).Some? { RunKeeps(Start(others), actions); }
  }

  /** Main result: no signal, probe or wait ever reaches a process other than the original child. */
  lemma CallsHitTheOriginal(others: set<nat>, actions: seq<Action>, e: Event)
    ensures e in After(others, actions).log ==>
              match e
              case SignalCall(c, hit) => hit == Some(c)
              case WaitCall(c, t, hit) => hit == Some(c)
              case Consumed(c, status) => c in After(others, actions).children
  {
    AfterGood(others, actions);
    var m := After(others, actions);
    hide After;
    if e in m.log { InLog(m, e); }
  }

  lemma InLog(m: Machine, e: Event)
    requires Inv(m) && e in m.log
    ensures Entry(e, m.children)
  {
    var k :| 0 <= k < |m.log| && m.log[k] == e;
    assert Entry(m.log[k], m.children);
  }

  /** Main result: after the first wait no signal or probe, one waiting thread only, and after the reaping wait no wait at all. */
  lemma WaitsAreFinal(others: set<nat>, actions: seq<Action>)
    ensures var log := After(others, actions).log;
            forall j, k :: 0 <= j < k < |log| ==> Ordered(log[j], log[k])
  {
    AfterGood(others, actions);
    hide After;
  }

  /** Main result: a receipt is the status the kernel handed over for that very child. */
  lemma ReceiptsAreGenuine(others: set<nat>, actions: seq<Action>, c: nat)
    ensures var m := After(others, actions);
            c in m.children ==>
              var s := m.children[c];
              && (s.stage == Reaped <==> s.receipt.Some?)
              && (s.receipt.Some? ==> s.pid == Some(s.receipt.value.pid) && Consumed(c, s.receipt.value.status) in m.log)
  {
    AfterGood(others, actions);
    var m := After(others, actions);
    hide After;
    assert c in m.children ==> Shaped(m.children[c]);
  }

  /** Main result: while a signal or group probe is possible, the number and so the group it names are still the child's. */
  lemma SignalRouteIsPinned(others: set<nat>, actions: seq<Action>, c: nat)
    ensures var m := After(others, actions);
            Enabled(m, Signal(c)) ==>
              && Denotes(m.table, m.children[c].pid) == Some(c)
              && forall e :: e in m.log && e.child == c ==> e.SignalCall?
  {
    AfterGood(others, actions);
    var m := After(others, actions);
    hide After;
    if Enabled(m, Signal(c)) {
      assert Shaped(m.children[c]);
      forall e | e in m.log && e.child == c ensures e.SignalCall? { InLog(m, e); }
    }
  }
}
