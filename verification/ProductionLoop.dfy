/**
 The reconciler's own loops: validated reads, one guarded mutation with its polling, and
 `execute`. The Store's answers are an input; the reader's verdict and `next_action` are
 functions of which only their specification is known.
 */
module ProductionLoops {
  import opened Bytes
  import opened CreateGuards
  import opened Screenshots
  import opened Productions
  import opened ProductionGoals
  import opened ProductionPlans
  import opened ProductionRuns

  /** What `validated_read` lets through after `previous`. */
  ghost predicate Valid(s: Snapshot, previous: Option<Readback>, removing: Option<Id>, c: Readback) {
    Accepts(s, c) && WellRead(c) && (previous.Some? ==> Progress(s, previous.value, c, removing))
  }

  /**
   `classify` with `progress!` as one verdict, and `next_action`; nothing means waiting for Apple. What is chosen may
   differ from one moment to the next for the same readback, as upload offers and expiry times are read apart from it.
   */
  datatype Rules = Rules(accepts: (Option<Readback>, Option<Id>, Readback) -> bool, next: (nat, Readback, set<string>) -> Option<Action>)

  ghost predicate Faithful(s: Snapshot, rules: Rules) {
    && (forall previous, removing, c :: rules.accepts(previous, removing, c) <==> Valid(s, previous, removing, c))
    && (forall moment, c, replaced :: rules.next(moment, c, replaced).Some? ==> Chooses(s, c, replaced, rules.next(moment, c, replaced).value))
  }

  class AppleProduction {
    const s: Snapshot
    const rules: Rules
    var previous: Option<Readback>
    var wrote: bool
    var replaced: set<string>
    var removing: Option<Id>
    var dispatched: nat

    constructor (s: Snapshot, rules: Rules)
      requires Faithful(s, rules)
      ensures this.s == s && this.rules == rules && previous.None? && !wrote && replaced == {} && removing.None? && dispatched == 0
    {
      this.s, this.rules := s, rules;
      previous, wrote, replaced, removing, dispatched := None, false, {}, None, 0;
    }

    /** Between two actions: the last readback was accepted and nothing is being removed. */
    ghost predicate Settled()
      reads this
    {
      && Faithful(s, rules) && previous.Some? && Accepts(s, previous.value) && WellRead(previous.value) && removing.None?
      && (wrote <==> dispatched > 0)
    }

    /** `validated_read`: only an accepted readback becomes the previous one. */
    method ValidatedRead(c: Readback) returns (ok: bool)
      requires Faithful(s, rules)
      modifies this`previous
      ensures ok <==> Valid(s, old(previous), removing, c)
      ensures previous == if ok then Some(c) else old(previous)
    {
      ok := rules.accepts(previous, removing, c);
      if ok { previous := Some(c); }
    }

    /** `next_action`, at the moment when so many answers were read. */
    method NextAction(moment: nat) returns (action: Option<Action>)
      requires Settled()
      ensures action.Some? ==> Chooses(s, previous.value, replaced, action.value)
    {
      action := rules.next(moment, previous.value, replaced);
    }

    /** One chosen action as `execute` and `mutate` carry it out; `at` is how many answers were read. */
    method Act(a: Action, answers: seq<Readback>, from: nat) returns (ok: bool, at: nat)
      requires Settled() && Prepared(s) && Chooses(s, previous.value, replaced, a) && from <= |answers|
      modifies this
      ensures from <= at <= |answers| && (ok ==> Settled() && at > from && previous == Some(answers[at - 1]))
      ensures dispatched == old(dispatched) + 1 || dispatched == old(dispatched)
      ensures dispatched == old(dispatched) + 1 <==>
                from < |answers| && answers[from] == old(previous.value)
                && Valid(s, old(previous), if a.Remove? then Some(a.id) else None, answers[from])
      ensures ok ==> if dispatched > old(dispatched) then Completed(s, old(previous.value), a, previous.value)
                     else previous != old(previous) && at == from + 1
      ensures a.Remove? ==> PendingAt(s, old(previous.value), a.place, a.index)
      ensures replaced == old(replaced) + (if a.Remove? then {PathAt(s, old(previous.value), a.place, a.index)} else {})
      ensures ok ==> dispatched + Weight(s, previous.value, replaced)
                     <= old(dispatched) + Weight(s, old(previous.value), old(replaced))
    {
      hide Accepts, WellRead, Progress, Chooses, Completed, Weight, Prepared, PendingAt, PathAt, Path, Faithful;
      at := from;
      var current, used := previous.value, replaced;
      RemovalIsPending(s, current, replaced, a);
      if a.Remove? {
        replaced, removing := replaced + {PathAt(s, current, a.place, a.index)}, Some(a.id);
      }
      if at == |answers| { return false, at; }
      ok := ValidatedRead(answers[at]);
      if !ok { return; }
      at := at + 1;
      ghost var path := [current, previous.value];
      Longer(s, [current], removing, previous.value);
      assert [current] + [previous.value] == path;
      ghost var under := removing;
      if previous.value != current {
        removing := None;
        EndRound(current, used, if a.Remove? then Replacing(a, path, false) else Waiting(path));
        return;
      }
      wrote, dispatched := true, dispatched + 1;
      while at < |answers|
        invariant from < at <= |answers| && removing == under && wrote && dispatched == old(dispatched) + 1
        invariant replaced == used + (if a.Remove? then {PathAt(s, current, a.place, a.index)} else {})
        invariant previous == Some(answers[at - 1])
        invariant Path(s, path, under) && |path| > 1 && path[0] == current && previous == Some(Last(path))
      {
        ok := ValidatedRead(answers[at]);
        if !ok { return; }
        Longer(s, path, under, answers[at]);
        path := path + [answers[at]];
        at := at + 1;
        if Completed(s, current, a, previous.value) {
          removing := None;
          EndRound(current, used, if a.Remove? then Replacing(a, path, true) else Writing(a, path));
          return;
        }
      }
      ok := false;
    }

    /** A round paid for what it dispatched. */
    lemma EndRound(current: Readback, used: set<string>, r: Round)
      requires Prepared(s) && RoundFrom(s, current, used, r)
      ensures Weight(s, Last(r.path), ReplacedAfter(s, current, used, r)) + Dispatched(r) <= Weight(s, current, used)
      ensures Accepts(s, Last(r.path)) && WellRead(Last(r.path))
    {
      RoundDrops(s, current, used, r);
      hide Weight, Dispatched, ReplacedAfter, Accepts, WellRead, Progress, Chooses, Completed;
      assert Path(s, r.path, if r.Replacing? then Some(r.action.id) else None);
    }

    /**
     `execute` from its first read on. Whatever the Store answers, the loop dispatches no more than the weight of the first readback, plus one
     mutation that was never seen completed.
     */
    method Execute(answers: seq<Readback>) returns (done: bool)
      requires Prepared(s) && Faithful(s, rules) && previous.None? && !wrote && replaced == {} && removing.None? && dispatched == 0
      modifies this
      ensures answers == [] || !Valid(s, None, None, answers[0]) ==> dispatched == 0 && !done
      ensures answers != [] && Valid(s, None, None, answers[0]) ==>
                dispatched <= Weight(s, answers[0], {}) + (if done then 0 else 1)
      ensures done ==> Settled() && dispatched + Weight(s, previous.value, replaced) <= Weight(s, answers[0], {})
    {
      hide Accepts, WellRead, Progress, Chooses, Weight, Prepared, Path, Faithful;
      if answers == [] { return false; }
      done := ValidatedRead(answers[0]);
      if !done { return; }
      var at := 1;
      while at < |answers|
        invariant done && 1 <= at <= |answers| && Settled()
        invariant dispatched + Weight(s, previous.value, replaced) <= Weight(s, answers[0], {})
      {
        var action := NextAction(at);
        if action.Some? {
          done, at := Act(action.value, answers, at);
        } else {
          ghost var current := previous.value;
          done := ValidatedRead(answers[at]);
          at := at + 1;
          if done {
            Longer(s, [current], None, previous.value);
            assert [current] + [previous.value] == [current, previous.value];
            EndRound(current, replaced, Waiting([current, previous.value]));
          }
        }
        if !done { return; }
      }
    }
  }

  lemma RemovalIsPending(s: Snapshot, c: Readback, replaced: set<string>, a: Action)
    requires Chooses(s, c, replaced, a)
    ensures a.Remove? ==> PendingAt(s, c, a.place, a.index)
  {
    hide PendingAt, PathAt, PlanSet;
  }

  /** One more accepted readback; a single accepted readback is a path already. */
  lemma Longer(s: Snapshot, path: seq<Readback>, removing: Option<Id>, c: Readback)
    requires Path(s, path, removing) || (|path| == 1 && Accepts(s, path[0]) && WellRead(path[0]))
    requires path != [] && Valid(s, Some(Last(path)), removing, c)
    ensures Path(s, path + [c], removing)
  {
    hide Accepts, WellRead, Progress;
    var longer := path + [c];
    forall i | 0 <= i < |longer| - 1 ensures Progress(s, longer[i], longer[i + 1], removing) {
      if i < |path| - 1 { assert Progress(s, path[i], path[i + 1], removing); }
    }
  }
}
