/**
 Custody of raw descriptors. A descriptor number is reused by the system as soon as it
 is free, so a lease gives its number up before the one close call it will ever make.
 */
module Descriptors {
  import opened Bytes

  datatype Stage = New | Acquiring | Open | Closing | Closed | Unknown

  /** A lease; `inFlight` is the number a running `close` took with it. */
  datatype Lease = Lease(stage: Stage, fd: Option<nat>, inFlight: Option<nat>, original: Option<nat>,
                         validated: bool, borrowers: set<nat>)

  const FRESH := Lease(New, None, None, None, false, {})

  /** What the system's close call comes to. Only a confirmed return says that the number is free. */
  datatype CloseReturn = Confirmed | Failed | NotCalled

  function Publish(l: Lease, number: nat): Result<Lease> {
    if l.stage == New || l.stage == Acquiring then Ok(l.(stage := Open, fd := Some(number), original := Some(number)))
    else Rejected
  }

  function Fileno(l: Lease): Option<nat> { if l.stage == Open && l.validated then l.fd else None }

  function Borrow(l: Lease, owner: nat): Result<Lease> {
    if Fileno(l).Some? then Ok(l.(borrowers := l.borrowers + {owner})) else Rejected
  }

  function Release(l: Lease, owner: nat): Lease { l.(borrowers := l.borrowers - {owner}) }

  /** The first half of `close`: the number leaves the lease before the call. */
  function Retire(l: Lease): Result<Lease> {
    if l.stage == Open && l.fd.Some? && l.borrowers == {}
    then Ok(l.(stage := Closing, fd := None, inFlight := l.fd, validated := false)) else Rejected
  }

  /** The second half: whatever is not confirmed stays unknown for ever. */
  function Settle(l: Lease, returned: CloseReturn): Lease {
    l.(stage := if returned == Confirmed then Closed else Unknown, inFlight := None)
  }

  // ---------- a lease as the original keeps it ----------

  class FdLease {
    var stage: Stage
    var fd: Option<nat>
    var original: Option<nat>
    var validated: bool
    var borrowers: set<nat>

    function Value(): Lease
      reads this
    {
      Lease(stage, fd, None, original, validated, borrowers)
    }

    constructor ()
      ensures Value() == FRESH
    {
      stage, fd, original, validated, borrowers := New, None, None, false, {};
    }

    method Published(number: nat) returns (ok: bool)
      modifies this
      ensures ok <==> Publish(old(Value()), number).Ok?
      ensures Value() == if ok then Publish(old(Value()), number).value else old(Value())
    {
      ok := stage == New || stage == Acquiring;
      if ok { fd, original, stage := Some(number), Some(number), Open; }
    }

    method BorrowFor(owner: nat) returns (number: Option<nat>)
      modifies this`borrowers
      ensures number == Fileno(old(Value()))
      ensures Value() == if number.Some? then Borrow(old(Value()), owner).value else old(Value())
    {
      number := if stage == Open && validated then fd else None;
      if number.Some? { borrowers := borrowers + {owner}; }
    }

    method ReleaseFor(owner: nat)
      modifies this`borrowers
      ensures Value() == Release(old(Value()), owner)
    {
      borrowers := borrowers - {owner};
    }

    /** `close`; `called` is the number handed to the system, if the call was made at all. */
    method Close(returned: CloseReturn) returns (ok: bool, called: Option<nat>)
      modifies this
      ensures ok <==> old(stage) == New || old(stage) == Closed || (Retire(old(Value())).Ok? && returned == Confirmed)
      ensures called.Some? <==> Retire(old(Value())).Ok? && returned != NotCalled
      ensures called.Some? ==> called == old(fd) && old(borrowers) == {} && fd.None? && stage in {Closed, Unknown}
      ensures Value() == if Retire(old(Value())).Ok? then Settle(Retire(old(Value())).value, returned) else old(Value())
    {
      called := None;
      if stage == New || stage == Closed { return true, None; }
      if stage != Open || fd.None? || borrowers != {} { return false, None; }
      var number := fd;
      stage, fd, validated := Closing, None, false;
      if returned != NotCalled { called := number; }
      ok := returned == Confirmed;
      stage := if ok then Closed else Unknown;
    }
  }

  // ---------- every lease of a process, and everybody else ----------

  /** Who a table entry was opened for: a lease (each obtains one entry at most), a role the process was started with, or other code. */
  datatype Owner = Leased(lease: nat) | Role | Other | Leaked

  /** A close call: what its number denoted at that moment, and who was borrowing the lease. */
  datatype Call = Call(lease: nat, hit: Option<Owner>, borrowers: set<nat>)

  /** The descriptor table of the process, its leases and the close calls made so far. */
  datatype Machine = Machine(table: map<nat, Owner>, leases: map<nat, Lease>, roles: set<nat>, log: seq<Call>)

  datatype Action =
    | Reserve(lease: nat)
    | Acquire(lease: nat)
    | Refuse(lease: nat)                          // the duplication failed: nothing was opened
    | Obtain(lease: nat, number: nat)             // the system opened `number` and the lease learned it
    | Lose(lease: nat, leaked: Option<nat>)       // opened or not, the number never reached the lease
    | Adopt(lease: nat, number: nat)              // an inherited role descriptor
    | Validate(lease: nat)
    | Lend(lease: nat, owner: nat)
    | Return(lease: nat, owner: nat)
    | Give(lease: nat)                            // the first half of `close`
    | Finish(lease: nat, returned: CloseReturn, freed: bool)
    | OtherOpen(number: nat)
    | OtherClose(number: nat)

  predicate Has(m: Machine, i: nat, stage: Stage) { i in m.leases && m.leases[i].stage == stage }

  predicate Was(l: Lease, number: nat) { l.original == Some(number) }

  predicate Unused(leases: map<nat, Lease>, number: nat) {
    forall j :: j in leases ==> !Was(leases[j], number)
  }

  predicate Enabled(m: Machine, a: Action) {
    match a
    case Reserve(i) => i !in m.leases
    case Acquire(i) => Has(m, i, New)
    case Refuse(i) => Has(m, i, Acquiring)
    case Obtain(i, n) => Has(m, i, Acquiring) && n !in m.table
    case Lose(i, n) => Has(m, i, Acquiring) && (n.Some? ==> n.value !in m.table)
    case Adopt(i, n) => Has(m, i, New) && n in m.roles && Unused(m.leases, n)
    case Validate(i) => Has(m, i, Open)
    case Lend(i, b) => i in m.leases && Borrow(m.leases[i], b).Ok?
    case Return(i, b) => i in m.leases
    case Give(i) => i in m.leases && Retire(m.leases[i]).Ok?
    case Finish(i, returned, freed) => Has(m, i, Closing) && (returned == Confirmed ==> freed) && (returned == NotCalled ==> !freed)
    case OtherOpen(n) => n !in m.table
    case OtherClose(n) => Denotes(m.table, n) == Some(Other)
  }

  function Denotes(table: map<nat, Owner>, number: nat): Option<Owner> {
    if number in table then Some(table[number]) else None
  }

  function With(m: Machine, i: nat, l: Lease): Machine { m.(leases := m.leases[i := l]) }

  function Tagged(m: Machine, number: nat, owner: Owner): Machine { m.(table := m.table[number := owner]) }

  /** The number a lease answers for. */
  function Answers(l: Lease): Option<nat> {
    if l.stage == Open then l.fd else if l.stage == Closing then l.inFlight else None
  }

  function Apply(m: Machine, a: Action): Machine
    requires Enabled(m, a)
  {
    match a
    case Reserve(i) => With(m, i, FRESH)
    case Acquire(i) => With(m, i, m.leases[i].(stage := Acquiring))
    case Refuse(i) => With(m, i, m.leases[i].(stage := New))
    case Obtain(i, n) => With(Tagged(m, n, Leased(i)), i, Publish(m.leases[i], n).value)
    case Lose(i, n) =>
      var lost := With(m, i, m.leases[i].(stage := Unknown));
      if n.Some? then Tagged(lost, n.value, Leaked) else lost
    case Adopt(i, n) => With(Tagged(m, n, Leased(i)), i, Publish(m.leases[i], n).value)
    case Validate(i) => With(m, i, m.leases[i].(validated := true))
    case Lend(i, b) => With(m, i, Borrow(m.leases[i], b).value)
    case Return(i, b) => With(m, i, Release(m.leases[i], b))
    case Give(i) => With(m, i, Retire(m.leases[i]).value)
    case Finish(i, returned, freed) =>
      var l := m.leases[i];
      var settled := With(m, i, Settle(l, returned));
      var number := Answers(l);
      if returned == NotCalled || number.None? then settled
      else settled.(table := if freed then m.table - {number.value} else m.table,
                    log := m.log + [Call(i, Denotes(m.table, number.value), l.borrowers)])
    case OtherOpen(n) => Tagged(m, n, Other)
    case OtherClose(n) => m.(table := m.table - {n})
  }

  /** A process begins with its role descriptors and whatever else was open. */
  function Start(roles: set<nat>, others: set<nat>): Machine {
    Machine(map n | n in roles + others :: if n in roles then Role else Other, map[], roles, [])
  }

  /** The machine after a run, or nothing when some action was not possible. */
  function Run(m: Machine, actions: seq<Action>): Option<Machine> {
    if actions == [] then Some(m)
    else
      var mid, last := Run(m, actions[..|actions| - 1]), actions[|actions| - 1];
      if mid.Some? && Enabled(mid.value, last) then Some(Apply(mid.value, last)) else None
  }

  // ---------- the invariant, part by part ----------

  predicate Shaped(l: Lease) {
    && (l.stage == Open <==> l.fd.Some?)
    && (l.stage == Closing <==> l.inFlight.Some?)
    && (l.borrowers != {} ==> l.stage == Open)
    && (l.stage in {New, Acquiring} ==> l.original.None?)
  }

  predicate LeasesShaped(leases: map<nat, Lease>) { forall i :: i in leases ==> Shaped(leases[i]) }

  /** Open and closing leases still denote the entry they were given. */
  predicate Bound(table: map<nat, Owner>, leases: map<nat, Lease>) {
    forall i :: i in leases && Answers(leases[i]).Some? ==> Denotes(table, Answers(leases[i]).value) == Some(Leased(i))
  }

  predicate Claims(leases: map<nat, Lease>, i: nat, number: nat) {
    i in leases && (Answers(leases[i]) == Some(number) || leases[i].stage == Unknown)
  }

  /** A leased entry belongs to a lease that answers for it, or has lost track of it for good. */
  predicate Kept(table: map<nat, Owner>, leases: map<nat, Lease>) {
    forall n :: n in table && table[n].Leased? ==> Claims(leases, table[n].lease, n)
  }

  /** A role descriptor nobody adopted is still there for its adopter. */
  predicate Waiting(table: map<nat, Owner>, leases: map<nat, Lease>, roles: set<nat>) {
    forall n :: n in roles && Unused(leases, n) ==> Denotes(table, n) == Some(Role)
  }

  predicate Logged(log: seq<Call>, leases: map<nat, Lease>) {
    && (forall k :: 0 <= k < |log| ==>
          log[k].lease in leases && leases[log[k].lease].stage in {Closed, Unknown}
          && log[k].hit == Some(Leased(log[k].lease)) && log[k].borrowers == {})
    && (forall j, k :: 0 <= j < k < |log| ==> log[j].lease != log[k].lease)
  }

  predicate Inv(m: Machine) {
    && LeasesShaped(m.leases) && Bound(m.table, m.leases) && Kept(m.table, m.leases)
    && Waiting(m.table, m.leases, m.roles) && Logged(m.log, m.leases)
  }

  // ---------- every step keeps it ----------

  /** Steps that only move one lease, which goes on answering for the same number. */
  lemma LeaseKeeps(m: Machine, i: nat, l: Lease)
    requires Inv(m) && Shaped(l)
    requires if i in m.leases then l.original == m.leases[i].original && Answers(l) == Answers(m.leases[i])
                                   && (m.leases[i].stage in {Closed, Unknown} ==> l.stage == m.leases[i].stage)
             else l == FRESH
    ensures Inv(With(m, i, l))
  {
    UnusedBefore(m.leases, i, l);
  }

  lemma UnusedBefore(leases: map<nat, Lease>, i: nat, l: Lease)
    requires i in leases ==> leases[i].original.None? || l.original == leases[i].original
    ensures forall n :: Unused(leases[i := l], n) ==> Unused(leases, n) && !Was(l, n)
  {
    forall n | Unused(leases[i := l], n) ensures Unused(leases, n) && !Was(l, n) {
      assert i in leases[i := l];
      forall j | j in leases ensures !Was(leases[j], n) { assert j in leases[i := l]; }
    }
  }

  /** A lease that was never given a number publishes the one tagged for it. */
  lemma GiveKeeps(m: Machine, i: nat, n: nat)
    requires Inv(m) && i in m.leases && Publish(m.leases[i], n).Ok? && m.leases[i].stage in {New, Acquiring}
    requires n !in m.table || (m.table[n] == Role && Unused(m.leases, n) && n in m.roles)
    ensures Inv(With(Tagged(m, n, Leased(i)), i, Publish(m.leases[i], n).value))
  {
    var l := Publish(m.leases[i], n).value;
    assert Shaped(m.leases[i]);
    UnusedBefore(m.leases, i, l);
    NoneAnswers(m, n);
  }

  /** A number that is free, or still waiting for its role, is answered for by nobody. */
  lemma NoneAnswers(m: Machine, n: nat)
    requires Bound(m.table, m.leases) && (n in m.table ==> !m.table[n].Leased?)
    ensures forall i :: i in m.leases ==> Answers(m.leases[i]) != Some(n)
  {
  }

  lemma OpenKeeps(m: Machine, n: nat, owner: Owner)
    requires Inv(m) && n !in m.table && !owner.Leased?
    ensures Inv(Tagged(m, n, owner))
  {
  }

  lemma LoggedGrows(log: seq<Call>, leases: map<nat, Lease>, i: nat, l: Lease, call: Call)
    requires Logged(log, leases) && i in leases && leases[i].stage == Closing && l.stage in {Closed, Unknown}
    ensures Logged(log, leases[i := l])
    ensures call == Call(i, Some(Leased(i)), {}) ==> Logged(log + [call], leases[i := l])
  {
  }

  lemma FinishKeeps(m: Machine, i: nat, returned: CloseReturn, freed: bool)
    requires Inv(m) && Enabled(m, Finish(i, returned, freed))
    ensures Inv(Apply(m, Finish(i, returned, freed)))
  {
    var l := m.leases[i];
    assert Shaped(l) && Shaped(Settle(l, returned));
    UnusedBefore(m.leases, i, Settle(l, returned));
    LoggedGrows(m.log, m.leases, i, Settle(l, returned), Call(i, Denotes(m.table, l.inFlight.value), l.borrowers));
    hide Logged, Unused;
  }

  lemma OtherCloseKeeps(m: Machine, n: nat)
    requires Inv(m) && Enabled(m, OtherClose(n))
    ensures Inv(Apply(m, OtherClose(n)))
  {
  }

  lemma StepKeeps(m: Machine, a: Action)
    requires Inv(m) && Enabled(m, a)
    ensures Inv(Apply(m, a))
  {
    assert forall i :: i in m.leases ==> Shaped(m.leases[i]);
    match a
    case Reserve(i) => LeaseKeeps(m, i, FRESH);
    case Acquire(i) => LeaseKeeps(m, i, m.leases[i].(stage := Acquiring));
    case Refuse(i) => LeaseKeeps(m, i, m.leases[i].(stage := New));
    case Obtain(i, n) => GiveKeeps(m, i, n);
    case Lose(i, n) =>
      LeaseKeeps(m, i, m.leases[i].(stage := Unknown));
      if n.Some? { OpenKeeps(With(m, i, m.leases[i].(stage := Unknown)), n.value, Leaked); }
    case Adopt(i, n) => GiveKeeps(m, i, n);
    case Validate(i) => LeaseKeeps(m, i, m.leases[i].(validated := true));
    case Lend(i, b) => LeaseKeeps(m, i, Borrow(m.leases[i], b).value);
    case Return(i, b) => LeaseKeeps(m, i, Release(m.leases[i], b));
    case Give(i) => LeaseKeeps(m, i, Retire(m.leases[i]).value);
    case Finish(i, returned, freed) => FinishKeeps(m, i, returned, freed);
    case OtherOpen(n) => OpenKeeps(m, n, Other);
    case OtherClose(n) => OtherCloseKeeps(m, n);
  }

  // ---------- what custody promises ----------

  lemma StartKeeps(roles: set<nat>, others: set<nat>)
    ensures Inv(Start(roles, others))
  {
  }

  lemma {:induction false} RunKeeps(m: Machine, actions: seq<Action>)
    requires Inv(m) && Run(m, actions).Some?
    ensures Inv(Run(m, actions).value)
  {
    if actions != [] {
      RunKeeps(m, actions[..|actions| - 1]);
      StepKeeps(Run(m, actions[..|actions| - 1]).value, actions[|actions| - 1]);
    }
  }

  /**
   Main result: in every run, whatever other code opens and closes, every close call
   hits the entry its own lease obtained, nobody is borrowing it, and no lease makes two.
   */
  lemma EveryCloseIsOwn(roles: set<nat>, others: set<nat>, actions: seq<Action>)
    ensures var end := Run(Start(roles, others), actions);
            end.Some? ==>
              && (forall k :: 0 <= k < |end.value.log| ==>
                    end.value.log[k].hit == Some(Leased(end.value.log[k].lease)) && end.value.log[k].borrowers == {})
              && (forall j, k :: 0 <= j < k < |end.value.log| ==> end.value.log[j].lease != end.value.log[k].lease)
  {
    StartKeeps(roles, others);
    if Run(Start(roles, others), actions).Some? { RunKeeps(Start(roles, others), actions); }
    hide Run;
  }

  /** Main result: a borrowed lease is open, its number denotes its own entry, and no other lease answers for that number. */
  lemma BorrowedIsLive(roles: set<nat>, others: set<nat>, actions: seq<Action>, i: nat)
    ensures var end := Run(Start(roles, others), actions);
            end.Some? && i in end.value.leases && end.value.leases[i].borrowers != {} ==>
              var m := end.value;
              && m.leases[i].stage == Open && m.leases[i].fd.Some?
              && Denotes(m.table, m.leases[i].fd.value) == Some(Leased(i))
              && !Enabled(m, Give(i))
              && forall j :: j in m.leases && Answers(m.leases[j]) == m.leases[i].fd ==> j == i
  {
    StartKeeps(roles, others);
    var end := Run(Start(roles, others), actions);
    if end.Some? {
      RunKeeps(Start(roles, others), actions);
      assert i in end.value.leases ==> Shaped(end.value.leases[i]);
    }
    hide Run;
  }

  /** Main result: a lease that says it is closed has nothing left open. */
  lemma ClosedIsGone(roles: set<nat>, others: set<nat>, actions: seq<Action>, i: nat)
    ensures var end := Run(Start(roles, others), actions);
            end.Some? && Has(end.value, i, Closed) ==> forall n :: Denotes(end.value.table, n) != Some(Leased(i))
  {
    StartKeeps(roles, others);
    var end := Run(Start(roles, others), actions);
    if end.Some? && Has(end.value, i, Closed) {
      RunKeeps(Start(roles, others), actions);
      hide Run;
      forall n | n in end.value.table && end.value.table[n].Leased? ensures end.value.table[n].lease != i {
        assert Claims(end.value.leases, end.value.table[n].lease, n);
      }
    }
  }

  /** One lease, alone in the process. */
  function Alone(table: map<nat, Owner>, l: Lease, log: seq<Call>): Machine { Machine(table, map[0 := l], {}, log) }

  /** The run in which a close reports failure although the number was freed, and other code is then given that number. */
  function Reused(n: nat): seq<Action> {
    [Reserve(0), Acquire(0), Obtain(0, n), Give(0), Finish(0, Failed, true), OtherOpen(n)]
  }

  function Stages(n: nat): seq<Machine> {
    var held := Publish(FRESH, n).value;
    var given := Retire(held).value;
    var log := [Call(0, Some(Leased(0)), {})];
    [Start({}, {}), Alone(map[], FRESH, []), Alone(map[], FRESH.(stage := Acquiring), []), Alone(map[n := Leased(0)], held, []),
     Alone(map[n := Leased(0)], given, []), Alone(map[], Settle(given, Failed), log), Alone(map[n := Other], Settle(given, Failed), log)]
  }

  predicate Leads(m: Machine, a: Action, after: Machine) { Enabled(m, a) && Apply(m, a) == after }

  lemma Opening(n: nat)
    ensures forall k :: 0 <= k < 3 ==> Leads(Stages(n)[k], Reused(n)[k], Stages(n)[k + 1])
  {
    assert Start({}, {}) == Machine(map[], map[], {}, []);
  }

  lemma Losing(n: nat)
    ensures forall k :: 3 <= k < 6 ==> Leads(Stages(n)[k], Reused(n)[k], Stages(n)[k + 1])
  {
    assert map[n := Leased(0)] - {n} == map[];
  }

  lemma {:induction false} Follows(n: nat, k: nat)
    requires k <= 6
    ensures Run(Start({}, {}), Reused(n)[..k]) == Some(Stages(n)[k])
  {
    if k > 0 {
      Follows(n, k - 1);
      Opening(n);
      Losing(n);
      assert Leads(Stages(n)[k - 1], Reused(n)[k - 1], Stages(n)[k]);
      hide Stages, Enabled, Apply;
      assert Reused(n)[..k][..k - 1] == Reused(n)[..k - 1];
    }
  }

  /** Why an unconfirmed close is never tried again: by then the number may be somebody else's. */
  lemma RetryWouldHitOthers(n: nat)
    ensures exists m :: Run(Start({}, {}), Reused(n)) == Some(m)
                        && Has(m, 0, Unknown) && m.leases[0].original == Some(n) && Denotes(m.table, n) == Some(Other)
  {
    Follows(n, 6);
    assert Reused(n)[..6] == Reused(n);
    var m := Stages(n)[6];
    assert Has(m, 0, Unknown);
  }
}
