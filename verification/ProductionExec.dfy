/**
 An armed execution: readbacks, creates and replacements in any order the
 reconciler allows, and the proof that its guard never denies a chosen create.
 */
module ProductionExecs {
  import opened Bytes
  import opened CreateGuards
  import opened CreateDispatches
  import opened Screenshots
  import opened Productions
  import opened ProductionGoals
  import opened ProductionPlans
  import opened ProductionInventories
  import opened ProductionRuns
  import opened ProductionGuards

  // ---------- identities and missing resources across one readback ----------

  predicate IsRemoved(r: Removal, k: Key) {
    r.Some? && r.value.0 == k
  }

  /** A reservation that is not the removed one keeps its place among the additions and its identity. */
  lemma ShotStays(s: Snapshot, b: Readback, c: Readback, r: Removal, place: Place, t: nat)
    requires SetPersists(s, b, c, r, place) && ShotIdAt(s, b, place, t).Some? && ShotIdAt(s, b, place, t) != RemovingId(r)
    ensures ShotIdAt(s, c, place, t) == ShotIdAt(s, b, place, t)
  {
    ShotIdParts(s, b, place, t);
    hide PlanSet, CaseAt, SetAt, ShotIdAt, RemovingId;
    var p := PlanAt(s, b, place).value;
    ShotIdMakes(s, c, place, t, Position(p.additions, t));
  }

  lemma ShotPersists(s: Snapshot, b: Readback, c: Readback, r: Removal, k: Key)
    requires Succeeds(s, b, c, r) && k.ShotKey? && IdOf(s, b, k).Some? && !IsRemoved(r, k)
    ensures IdOf(s, c, k) == IdOf(s, b, k)
  {
    var place: Place := (k.locale, k.display);
    assert WellRead(b) && Sole(s, b, r);
    hide *;
    ShotKeyId(s, b, k, IdOf(s, b, k).value);
    EverySetPersists(s, b, c, r, place);
    NotTheRemoved(s, b, r, k);
    ShotStays(s, b, c, r, place, k.order);
    ShotIdIs(s, c, k);
  }

  /** Two targets of one set never share a reservation. */
  lemma OneTarget(s: Snapshot, b: Readback, place: Place, t: nat, u: nat, id: Id)
    requires ShotIdAt(s, b, place, t) == Some(id) == ShotIdAt(s, b, place, u) && DistinctIds(ShotsOf(SetAt(b.version, place)))
    ensures t == u
  {
    hide *;
    ShotIdParts(s, b, place, t);
    ShotIdParts(s, b, place, u);
    var p := PlanAt(s, b, place).value;
    SameIndex(ShotsOf(SetAt(b.version, place)), p.kept + Position(p.additions, t), p.kept + Position(p.additions, u));
  }

  lemma SameIndex(shots: seq<Shot>, i: nat, j: nat)
    requires DistinctIds(shots) && i < |shots| && j < |shots| && shots[i].id == shots[j].id
    ensures i == j
  {
  }

  lemma SoleShot(s: Snapshot, b: Readback, r: Removal, place: Place, t: nat)
    requires Sole(s, b, r) && r.Some? && ShotIdAt(s, b, place, t) == Some(r.value.1)
    ensures r.value.0.ShotKey? && place == (r.value.0.locale, r.value.0.display) && IdOf(s, b, r.value.0) == Some(r.value.1)
  {
    ShotIdParts(s, b, place, t);
    hide IdOf, PlanAt, SetAt, ShotIdAt, Kept, Position;
  }

  lemma IdsDiffer(b: Readback, place: Place)
    requires WellRead(b)
    ensures DistinctIds(ShotsOf(SetAt(b.version, place)))
  {
    hide DistinctIds, SetAt;
  }

  /** Only its own key carries the identity under removal. */
  lemma RemovedKeyIsSole(s: Snapshot, b: Readback, r: Removal, k: Key)
    requires WellRead(b) && Sole(s, b, r) && k.ShotKey? && r.Some? && IdOf(s, b, k) == Some(r.value.1)
    ensures r.value.0 == k
  {
    hide *;
    var place: Place := (k.locale, k.display);
    ShotKeyId(s, b, k, r.value.1);
    SoleShot(s, b, r, place, k.order);
    ShotKeyId(s, b, r.value.0, r.value.1);
    IdsDiffer(b, place);
    OneTarget(s, b, place, k.order, r.value.0.order, r.value.1);
  }

  lemma NotTheRemoved(s: Snapshot, b: Readback, r: Removal, k: Key)
    requires WellRead(b) && Sole(s, b, r) && k.ShotKey? && IdOf(s, b, k).Some? && !IsRemoved(r, k)
    ensures IdOf(s, b, k) != RemovingId(r)
  {
    hide WellRead, Sole, IdOf;
    if r.Some? && IdOf(s, b, k) == Some(r.value.1) { RemovedKeyIsSole(s, b, r, k); }
  }

  /** Main step: an accepted readback keeps the identity of everything that is not being removed. */
  lemma IdentityPersists(s: Snapshot, b: Readback, c: Readback, r: Removal, k: Key)
    requires Succeeds(s, b, c, r) && IdOf(s, b, k).Some? && !IsRemoved(r, k)
    ensures IdOf(s, c, k) == IdOf(s, b, k)
  {
    hide Accepts, Progress, WellRead, Sole, Prepared, IdOf, RemovingId;
    if k.ShotKey? { ShotPersists(s, b, c, r, k); } else { PlainPersists(s, b, c, RemovingId(r), k); }
  }

  lemma UnreservedParts(p: Plan, t: nat)
    requires Unreserved(p, t)
    ensures t in p.additions && p.additions != []
  {
  }

  lemma UnreservedUnless(s: Snapshot, c: Readback, place: Place, t: nat)
    requires place in s.target.shots && PlanAt(s, c, place).Ok? && t in PlanAt(s, c, place).value.additions
    ensures Unreserved(PlanAt(s, c, place).value, t) <==> ShotIdAt(s, c, place, t).None?
  {
    SuffixOf(s, c, place);
    hide PlanSet, CaseAt, SetAt;
    var p := PlanAt(s, c, place).value;
    var i := Position(p.additions, t);
    assert forall j :: 0 <= j < |p.additions| && p.additions[j] == t ==> j == i;
  }

  lemma MissingShotShrinks(s: Snapshot, b: Readback, c: Readback, r: Removal, k: Key)
    requires Succeeds(s, b, c, r) && k.ShotKey? && IsMissing(s, c, k) && !IsRemoved(r, k)
    ensures IsMissing(s, b, k)
  {
    hide *;
    var place: Place := (k.locale, k.display);
    MissingShotIs(s, c, k);
    MissingShotIs(s, b, k);
    EverySetPersists(s, b, c, r, place);
    AdditionsPersist(s, b, c, r, place);
    UnreservedParts(PlanAt(s, c, place).value, k.order);
    UnreservedUnless(s, c, place, k.order);
    UnreservedUnless(s, b, place, k.order);
    ShotIdIs(s, b, k);
    ShotIdIs(s, c, k);
    if IdOf(s, b, k).Some? { ShotPersists(s, b, c, r, k); }
  }

  lemma MissingShotIs(s: Snapshot, c: Readback, k: Key)
    requires k.ShotKey?
    ensures var place := (k.locale, k.display);
            IsMissing(s, c, k) <==>
              && place in s.target.shots && k.order < |s.target.shots[place]| && s.target.shots[place][k.order].sha == k.sha
              && PlanAt(s, c, place).Ok? && Unreserved(PlanAt(s, c, place).value, k.order)
  {
    hide PlanAt, Unreserved;
  }

  lemma AdditionsPersist(s: Snapshot, b: Readback, c: Readback, r: Removal, place: Place)
    requires SetPersists(s, b, c, r, place)
    ensures PlanAt(s, b, place).Ok? && PlanAt(s, c, place).Ok?
    ensures forall t :: t in PlanAt(s, c, place).value.additions ==> t in PlanAt(s, b, place).value.additions
  {
    hide PlanAt;
  }

  lemma MissingSetShrinks(s: Snapshot, b: Readback, c: Readback, r: Removal, k: Key)
    requires Succeeds(s, b, c, r) && k.SetKey? && IsMissing(s, c, k) && !IsRemoved(r, k)
    ensures IsMissing(s, b, k)
  {
    var place: Place := (k.locale, k.display);
    EverySetPersists(s, b, c, r, place);
    var p, q := PlanAt(s, b, place).value, PlanAt(s, c, place).value;
    assert q.additions[0] in q.additions;
    if IdOf(s, b, k).Some? { IdentityPersists(s, b, c, r, k); }
    hide Succeeds, PlanSet, CaseAt, SetAt;
  }

  lemma MissingShrinks(s: Snapshot, b: Readback, c: Readback, r: Removal, k: Key)
    requires Succeeds(s, b, c, r) && IsMissing(s, c, k) && !IsRemoved(r, k)
    ensures IsMissing(s, b, k)
  {
    hide Succeeds, PlanSet, Selected, Unreserved;
    if k.ShotKey? { MissingShotShrinks(s, b, c, r, k); }
    else if k.SetKey? { MissingSetShrinks(s, b, c, r, k); }
    else if IdOf(s, b, k).Some? { IdentityPersists(s, b, c, r, k); }
  }

  // ---------- the execution ----------

  /** A create that was dispatched and not yet seen completed: the readback it was chosen from, and the action. */
  type Write = Option<(Readback, Action)>

  datatype Exec = Exec(current: Readback, guard: Guard, removing: Removal, writing: Write)

  function WrittenKey(s: Snapshot, w: Write): Option<Key> {
    if w.Some? then CreatedBy(s, w.value.0, w.value.1) else None
  }

  /** `mutate` polls until the readback satisfies the action's own test. */
  function StillWriting(s: Snapshot, w: Write, c: Readback): Write {
    if w.Some? && Completed(s, w.value.0, w.value.1, c) then None else w
  }

  /** The calls `observe_creates` makes for one readback. */
  ghost predicate Observing(s: Snapshot, c: Readback, calls: seq<Call>) {
    && (forall i :: 0 <= i < |calls| ==> Observation(s, c, calls[i]))
    && (forall k :: IdOf(s, c, k).Some? ==> Observe(k, IdOf(s, c, k).value) in calls)
    && (c.info.Some? ==> ResolveAutomatic(c.info.value.id) in calls)
  }

  ghost predicate Observation(s: Snapshot, c: Readback, call: Call) {
    (call.Observe? && IdOf(s, c, call.key) == Some(call.id)) || (call.ResolveAutomatic? && InfoId(c) == Some(call.id))
  }

  /** Every call of the list succeeds. */
  predicate AllSucceed(g: Guard, calls: seq<Call>)
    decreases |calls|
  {
    calls == [] || (Apply(g, calls[0]).1 && AllSucceed(Apply(g, calls[0]).0, calls[1..]))
  }

  /**
   What happens between two looks at the guard. A replacement ends when its identity is gone, or at once when the
   fresh readback differs from the one it was chosen from: `mutate` then returns without deleting anything.
   */
  datatype Event =
    | Read(c: Readback, calls: seq<Call>)
    | Create(a: Action, response: Option<Id>)
    | Replace(place: Place, index: nat, id: Id)
    | Removed
    | Abandoned(c: Readback, calls: seq<Call>)

  function ReservationNode(s: Snapshot, c: Readback, place: Place, index: nat): Node
    requires PendingAt(s, c, place, index) && SetAt(c.version, place).Some?
    requires PlanAt(s, c, place).value.additions[index] < |s.target.shots[place]|
  {
    var t := PlanAt(s, c, place).value.additions[index];
    MakeNode(ShotKey(place.0, place.1, t, s.target.shots[place][t].sha), Present(SetAt(c.version, place).value.id), [])
  }

  /** One `validated_read` with its `observe_creates`. */
  ghost predicate Readable(s: Snapshot, e: Exec, c: Readback, calls: seq<Call>) {
    && Succeeds(s, e.current, c, e.removing) && WellRead(c) && Sole(s, c, e.removing)
    && Observing(s, c, calls) && AllSucceed(e.guard, calls)
  }

  /** When an event may happen: readbacks as validated, creates and replacements as chosen, one at a time. */
  ghost predicate Possible(s: Snapshot, e: Exec, ev: Event) {
    match ev
    case Read(c, calls) => Readable(s, e, c, calls)
    case Create(a, _) => e.removing.None? && e.writing.None? && Chooses(s, e.current, {}, a) && CreatedBy(s, e.current, a).Some?
    case Replace(place, index, id) =>
      && e.removing.None? && e.writing.None? && Chooses(s, e.current, {}, Remove(place, index, id))
      && PendingAt(s, e.current, place, index) && SetAt(e.current.version, place).Some?
      && PlanAt(s, e.current, place).value.additions[index] < |s.target.shots[place]|
      && Apply(e.guard, Permit(ReservationNode(s, e.current, place, index), id)).1
      && Sole(s, e.current, Some((ReservationNode(s, e.current, place, index).key, id)))
    case Removed => e.removing.Some? && IdOf(s, e.current, e.removing.value.0) != Some(e.removing.value.1)
    case Abandoned(c, calls) => e.removing.Some? && Readable(s, e, c, calls)
  }

  function Observed(s: Snapshot, e: Exec, c: Readback, calls: seq<Call>): Exec {
    e.(current := c, guard := CreateDispatches.Run(e.guard, calls), writing := StillWriting(s, e.writing, c))
  }

  ghost function After(s: Snapshot, e: Exec, ev: Event): Exec
    requires Possible(s, e, ev)
  {
    match ev
    case Read(c, calls) => Observed(s, e, c, calls)
    case Create(a, response) =>
      var k := CreatedBy(s, e.current, a).value;
      ChosenIsCreatable(s, e.current, {}, a);
      var sent := Apply(e.guard, Consume(k, ParentIdAt(s, e.current, k).value)).0;
      e.(guard := if response.Some? then Apply(sent, Resolve(k, response.value)).0 else sent, writing := Some((e.current, a)))
    case Replace(place, index, id) =>
      var node := ReservationNode(s, e.current, place, index);
      e.(guard := Apply(e.guard, Permit(node, id)).0, removing := Some((node.key, id)))
    case Removed => e.(removing := None)
    case Abandoned(c, calls) => Observed(s, e, c, calls).(removing := None)
  }

  // ---------- the invariant ----------

  ghost predicate NodeFits(s: Snapshot, c: Readback, k: Key, n: Node) {
    && (match n.parent
        case Present(id) => ParentIdAt(s, c, k) == Some(id)
        case Missing(p) => ParentKey(k) == Some(p)
        case Automatic => k.InfoKey?)
    && (forall d :: d in n.dependencies ==> d == VersionKey || ParentKey(k) == Some(d))
    && (k == VersionKey ==> n.dependencies == [])
  }

  ghost predicate Known(s: Snapshot, c: Readback, resolved: map<Slot, Id>, r: Removal) {
    && (forall k :: IdOf(s, c, k).Some? && !(r.Some? && r.value.0 == k && IdOf(s, c, k) == Some(r.value.1)) ==>
          Created(k) in resolved && resolved[Created(k)] == IdOf(s, c, k).value)
    && (c.info.Some? ==> AutomaticInfo in resolved && resolved[AutomaticInfo] == c.info.value.id)
  }

  ghost predicate Planned(s: Snapshot, c: Readback, nodes: map<Key, Node>, replacement: map<Key, Id>) {
    forall k :: IsMissing(s, c, k) || k in replacement ==> k in nodes && NodeFits(s, c, k, nodes[k])
  }

  ghost predicate UsedIsShown(s: Snapshot, c: Readback, used: map<Key, Option<Id>>, w: Write) {
    forall k :: k in used ==> IdOf(s, c, k).Some? || WrittenKey(s, w) == Some(k)
  }

  /** A create in flight was chosen from an accepted readback. */
  ghost predicate WriteSound(s: Snapshot, w: Write) {
    w.Some? ==> Chooses(s, w.value.0, {}, w.value.1) && Accepts(s, w.value.0) && WellRead(w.value.0)
  }

  ghost predicate RemovalSound(s: Snapshot, c: Readback, g: Guard, r: Removal) {
    r.Some? ==> r.value.0 in g.replacement && r.value.0 !in g.used && r.value.0.ShotKey? && Sole(s, c, r)
  }

  ghost predicate Sound(s: Snapshot, e: Exec) {
    && Prepared(s) && Accepts(s, e.current) && WellRead(e.current)
    && e.guard.armed
    && Known(s, e.current, e.guard.resolved, e.removing)
    && Planned(s, e.current, e.guard.nodes, e.guard.replacement)
    && UsedIsShown(s, e.current, e.guard.used, e.writing)
    && WriteSound(s, e.writing)
    && RemovalSound(s, e.current, e.guard, e.removing)
    && (e.removing.Some? ==> e.writing.None?)
  }

  /** Main step: while nothing is being removed, the guard grants every creatable resource but the one being written. */
  lemma ChosenIsGranted(s: Snapshot, e: Exec, k: Key)
    requires Sound(s, e) && e.removing.None? && WrittenKey(s, e.writing) != Some(k) && Creatable(s, e.current, k)
    ensures Consumable(e.guard, k, ParentIdAt(s, e.current, k).value)
  {
    hide Accepts, WellRead, Prepared, PlanSet, Selected, WrittenKey, WriteSound, RemovalSound;
    var c, g := e.current, e.guard;
    assert k in g.nodes && NodeFits(s, c, k, g.nodes[k]);
    var n := g.nodes[k];
    MissingHasNoId(s, c, k);
    assert k !in g.used;
    hide IdOf, IsMissing;
    if ParentKey(k).Some? { assert ParentIdAt(s, c, k) == IdOf(s, c, ParentKey(k).value); }
    if c.version.Some? { assert IdOf(s, c, VersionKey).Some? by { VersionHasId(s, c); } }
  }

  lemma VersionHasId(s: Snapshot, c: Readback)
    requires c.version.Some?
    ensures IdOf(s, c, VersionKey).Some?
  {
  }

  lemma MissingHasNoId(s: Snapshot, c: Readback, k: Key)
    requires IsMissing(s, c, k)
    ensures IdOf(s, c, k).None?
  {
    hide PlanSet, Selected, Unreserved;
    if k.ShotKey? {
      var place: Place := (k.locale, k.display);
      UnreservedParts(PlanAt(s, c, place).value, k.order);
      UnreservedUnless(s, c, place, k.order);
    }
  }

  // ---------- observing one readback ----------

  function SlotId(s: Snapshot, c: Readback, slot: Slot): Option<Id> {
    match slot case Created(k) => IdOf(s, c, k) case AutomaticInfo => InfoId(c)
  }

  predicate Agrees(s: Snapshot, c: Readback, resolved: map<Slot, Id>, slot: Slot) {
    slot in resolved && SlotId(s, c, slot) == Some(resolved[slot])
  }

  function SlotOf(call: Call): Slot {
    if call.Observe? then Created(call.key) else AutomaticInfo
  }

  /** What successful observations leave alone. */
  predicate SameGrants(g: Guard, g': Guard) {
    g'.armed == g.armed && g'.nodes == g.nodes && g'.replacement == g.replacement && g'.used.Keys == g.used.Keys
  }

  lemma ResolvedAgrees(s: Snapshot, c: Readback, g: Guard, k: Key, id: Id, slot: Slot)
    requires IdOf(s, c, k) == Some(id) && Resolved(g, k, id).1
    ensures var g' := Resolved(g, k, id).0;
            && SameGrants(g, g') && g'.used == g.used && Agrees(s, c, g'.resolved, Created(k))
            && (Agrees(s, c, g.resolved, slot) ==> Agrees(s, c, g'.resolved, slot))
  {
    hide GoodId, IdOf, Noted;
  }

  lemma ObserveOne(s: Snapshot, c: Readback, g: Guard, call: Call, slot: Slot)
    requires Observation(s, c, call) && Apply(g, call).1
    ensures var g' := Apply(g, call).0;
            && SameGrants(g, g') && Agrees(s, c, g'.resolved, SlotOf(call))
            && (Agrees(s, c, g.resolved, slot) ==> Agrees(s, c, g'.resolved, slot))
  {
    if call.Observe? {
      ResolvedAgrees(s, c, g, call.key, call.id, slot);
      hide Resolved, IdOf, Agrees;
    } else {
      hide GoodId, IdOf, Noted;
    }
  }

  lemma {:induction false} ObserveRun(s: Snapshot, c: Readback, g: Guard, calls: seq<Call>, slot: Slot)
    requires (forall i :: 0 <= i < |calls| ==> Observation(s, c, calls[i])) && AllSucceed(g, calls)
    ensures var g' := CreateDispatches.Run(g, calls);
            && SameGrants(g, g')
            && (Agrees(s, c, g.resolved, slot) || (exists i :: 0 <= i < |calls| && SlotOf(calls[i]) == slot) ==>
                  Agrees(s, c, g'.resolved, slot))
    decreases |calls|
  {
    hide Apply, IdOf, Agrees;
    assert forall i :: 0 <= i < |calls| ==> calls[i].Observe? || calls[i].ResolveAutomatic?;
    if calls != [] {
      assert Observation(s, c, calls[0]);
      ObserveOne(s, c, g, calls[0], slot);
      hide Observation;
      var rest := calls[1..];
      assert forall i :: 0 <= i < |rest| ==> rest[i] == calls[i + 1] && Observation(s, c, rest[i]);
      ObserveRun(s, c, Apply(g, calls[0]).0, rest, slot);
      if exists i :: 0 <= i < |calls| && SlotOf(calls[i]) == slot {
        var i :| 0 <= i < |calls| && SlotOf(calls[i]) == slot;
        if i > 0 { assert SlotOf(rest[i - 1]) == slot; }
      }
    }
  }

  lemma ObservedIsKnown(s: Snapshot, c: Readback, g: Guard, calls: seq<Call>)
    requires Observing(s, c, calls) && AllSucceed(g, calls)
    ensures SameGrants(g, CreateDispatches.Run(g, calls)) && Known(s, c, CreateDispatches.Run(g, calls).resolved, None)
  {
    hide Apply, IdOf, AllSucceed;
    var g' := CreateDispatches.Run(g, calls);
    ObserveRun(s, c, g, calls, AutomaticInfo);
    if c.info.Some? {
      var i :| 0 <= i < |calls| && calls[i] == ResolveAutomatic(c.info.value.id);
      assert SlotOf(calls[i]) == AutomaticInfo;
    }
    forall k | IdOf(s, c, k).Some? ensures Created(k) in g'.resolved && g'.resolved[Created(k)] == IdOf(s, c, k).value {
      ObserveRun(s, c, g, calls, Created(k));
      var i :| 0 <= i < |calls| && calls[i] == Observe(k, IdOf(s, c, k).value);
      assert SlotOf(calls[i]) == Created(k);
    }
  }

  // ---------- every event keeps the invariant ----------

  lemma InfoPersists(s: Snapshot, b: Readback, c: Readback, r: Removal)
    requires Succeeds(s, b, c, r) && InfoId(b).Some?
    ensures InfoId(c) == InfoId(b)
  {
    assert Progress(s, b, c, RemovingId(r));
    hide Prepared, Accepts, WellRead, Sole, TextsAccepted, MayMove, ReviewProgress, ShotsProgress, SetAt, SelectedAt, VersionProgress;
    assert InfoProgress(s, b.info.value, c.info.value);
  }

  lemma ParentPersists(s: Snapshot, b: Readback, c: Readback, r: Removal, k: Key)
    requires Succeeds(s, b, c, r) && (r.Some? ==> r.value.0.ShotKey?) && ParentIdAt(s, b, k).Some?
    ensures ParentIdAt(s, c, k) == ParentIdAt(s, b, k)
  {
    hide Succeeds, IdOf, InfoId;
    if k.InfoKey? {
      InfoPersists(s, b, c, r);
    } else if ParentKey(k).Some? {
      assert !IsRemoved(r, ParentKey(k).value);
      IdentityPersists(s, b, c, r, ParentKey(k).value);
    }
  }

  lemma FitsPersists(s: Snapshot, b: Readback, c: Readback, r: Removal, k: Key, n: Node)
    requires Succeeds(s, b, c, r) && (r.Some? ==> r.value.0.ShotKey?) && NodeFits(s, b, k, n)
    ensures NodeFits(s, c, k, n)
  {
    hide Succeeds, IdOf, ParentIdAt;
    if n.parent.Present? { ParentPersists(s, b, c, r, k); }
  }

  lemma ReadPlanned(s: Snapshot, b: Readback, c: Readback, r: Removal, nodes: map<Key, Node>, replacement: map<Key, Id>)
    requires Succeeds(s, b, c, r) && (r.Some? ==> r.value.0.ShotKey? && r.value.0 in replacement)
    requires Planned(s, b, nodes, replacement)
    ensures Planned(s, c, nodes, replacement)
  {
    hide Succeeds, IsMissing, NodeFits;
    forall k | IsMissing(s, c, k) || k in replacement ensures k in nodes && NodeFits(s, c, k, nodes[k]) {
      if k !in replacement { MissingShrinks(s, b, c, r, k); }
      FitsPersists(s, b, c, r, k, nodes[k]);
    }
  }

  lemma ReadShown(s: Snapshot, b: Readback, c: Readback, r: Removal, used: map<Key, Option<Id>>, w: Write)
    requires Succeeds(s, b, c, r) && WellRead(c) && (r.Some? ==> r.value.0 !in used) && UsedIsShown(s, b, used, w) && WriteSound(s, w)
    ensures UsedIsShown(s, c, used, StillWriting(s, w, c)) && WriteSound(s, StillWriting(s, w, c))
  {
    assert Prepared(s) && Accepts(s, c);
    if w.Some? && Completed(s, w.value.0, w.value.1, c) && WrittenKey(s, w).Some? {
      CompletedIsShown(s, w.value.0, {}, w.value.1, c);
    }
    hide Succeeds, IdOf, WriteSound, WrittenKey, Completed, Prepared, Accepts, WellRead;
    forall k | k in used ensures IdOf(s, c, k).Some? || WrittenKey(s, StillWriting(s, w, c)) == Some(k) {
      if IdOf(s, b, k).Some? { IdentityPersists(s, b, c, r, k); }
    }
  }

  lemma ReadKeeps(s: Snapshot, e: Exec, c: Readback, calls: seq<Call>)
    requires Sound(s, e) && Readable(s, e, c, calls)
    ensures Sound(s, Observed(s, e, c, calls)) && Known(s, c, Observed(s, e, c, calls).guard.resolved, None)
  {
    hide Prepared, Accepts, WellRead, IdOf, Apply, IsMissing, NodeFits, Progress, Sole, WriteSound, Completed;
    ObservedIsKnown(s, c, e.guard, calls);
    ReadPlanned(s, e.current, c, e.removing, e.guard.nodes, e.guard.replacement);
    ReadShown(s, e.current, c, e.removing, e.guard.used, e.writing);
    hide Observing, AllSucceed, CreateDispatches.Run, Planned, UsedIsShown;
    KnownUnder(s, c, CreateDispatches.Run(e.guard, calls).resolved, e.removing);
    hide Known;
  }

  /** A replacement given up: everything the readback shows is known again, so nothing needs the exception any more. */
  lemma AbandonKeeps(s: Snapshot, e: Exec, c: Readback, calls: seq<Call>)
    requires Sound(s, e) && e.removing.Some? && Readable(s, e, c, calls)
    ensures Sound(s, Observed(s, e, c, calls).(removing := None))
  {
    ReadKeeps(s, e, c, calls);
    hide Readable, Known, Planned, UsedIsShown, WriteSound, Prepared, Accepts, WellRead, StillWriting, CreateDispatches.Run;
  }

  /** When the poll of a deletion is satisfied, the replacement ends. */
  lemma DeletedIsRemoved(s: Snapshot, e: Exec, index: nat)
    requires e.removing.Some?
    requires var k := e.removing.value.0;
             k.ShotKey? && Completed(s, e.current, Remove((k.locale, k.display), index, e.removing.value.1), e.current)
    ensures Possible(s, e, Removed)
  {
    var c, k, id := e.current, e.removing.value.0, e.removing.value.1;
    var shots := ShotsOf(SetAt(c.version, (k.locale, k.display)));
    assert forall i :: 0 <= i < |shots| ==> shots[i].id != id;
    hide *;
    if IdOf(s, c, k) == Some(id) {
      ShotKeyId(s, c, k, id);
      ShotIdParts(s, c, (k.locale, k.display), k.order);
    }
    StillThere(s, e);
  }

  lemma StillThere(s: Snapshot, e: Exec)
    requires e.removing.Some? && IdOf(s, e.current, e.removing.value.0) != Some(e.removing.value.1)
    ensures Possible(s, e, Removed)
  {
    hide IdOf;
  }

  lemma KnownUnder(s: Snapshot, c: Readback, resolved: map<Slot, Id>, r: Removal)
    requires Known(s, c, resolved, None)
    ensures Known(s, c, resolved, r)
  {
    hide IdOf;
  }

  lemma CreateKnown(s: Snapshot, c: Readback, g: Guard, k: Key, response: Option<Id>)
    requires Known(s, c, g.resolved, None) && IdOf(s, c, k).None?
    ensures response.Some? ==> Known(s, c, Apply(g, Resolve(k, response.value)).0.resolved, None)
    ensures response.Some? ==>
              var g' := Apply(g, Resolve(k, response.value)).0; SameGrants(g, g') && g'.used == g.used
  {
    hide IdOf, GoodId, Noted;
  }

  lemma ConsumedState(g: Guard, k: Key, parent: Id)
    requires Consumable(g, k, parent)
    ensures Apply(g, Consume(k, parent)).0 == g.(used := g.used[k := None], dispatched := g.dispatched + [k])
  {
    hide Consumable;
  }

  lemma UsedGrows(s: Snapshot, c: Readback, used: map<Key, Option<Id>>, a: Action)
    requires UsedIsShown(s, c, used, None) && CreatedBy(s, c, a).Some?
    ensures UsedIsShown(s, c, used[CreatedBy(s, c, a).value := None], Some((c, a)))
  {
    hide IdOf, CreatedBy;
  }

  lemma ChoiceSound(s: Snapshot, c: Readback, a: Action)
    requires Chooses(s, c, {}, a) && Accepts(s, c) && WellRead(c)
    ensures WriteSound(s, Some((c, a)))
  {
    hide Chooses, Accepts, WellRead;
  }

  lemma CreateKeeps(s: Snapshot, e: Exec, a: Action, response: Option<Id>)
    requires Sound(s, e) && Possible(s, e, Create(a, response))
    ensures Sound(s, After(s, e, Create(a, response)))
  {
    hide Prepared, Accepts, WellRead, IdOf, IsMissing, NodeFits, Consumable, ParentIdAt, Chooses, CreatedBy, Known, Planned, UsedIsShown, WriteSound;
    var k := CreatedBy(s, e.current, a).value;
    ChosenIsCreatable(s, e.current, {}, a);
    ChosenIsGranted(s, e, k);
    MissingHasNoId(s, e.current, k);
    ConsumedState(e.guard, k, ParentIdAt(s, e.current, k).value);
    var sent := Apply(e.guard, Consume(k, ParentIdAt(s, e.current, k).value)).0;
    hide Apply, Creatable;
    CreateKnown(s, e.current, sent, k, response);
    UsedGrows(s, e.current, e.guard.used, a);
    ChoiceSound(s, e.current, a);
  }

  lemma RemovalIdentity(s: Snapshot, c: Readback, place: Place, index: nat, id: Id)
    requires Chooses(s, c, {}, Remove(place, index, id)) && PendingAt(s, c, place, index) && SetAt(c.version, place).Some?
    requires PlanAt(s, c, place).value.additions[index] < |s.target.shots[place]|
    ensures var node := ReservationNode(s, c, place, index);
            && node.key.ShotKey? && IdOf(s, c, node.key) == Some(id) && NodeFits(s, c, node.key, node)
  {
    hide BeforeShots, PlanSet, CaseAt, Position;
    ShotIdMakes(s, c, place, PlanAt(s, c, place).value.additions[index], index);
    assert (place.0, place.1) == place;
  }

  lemma ReplaceKeeps(s: Snapshot, e: Exec, place: Place, index: nat, id: Id)
    requires Sound(s, e) && Possible(s, e, Replace(place, index, id))
    ensures Sound(s, After(s, e, Replace(place, index, id)))
  {
    hide Prepared, Accepts, WellRead, IdOf, IsMissing, NodeFits, Chooses, PendingAt, ReservationNode, Sole, PlanSet;
    RemovalIdentity(s, e.current, place, index, id);
    var node := ReservationNode(s, e.current, place, index);
    PermitKnown(s, e.current, e.guard, node, id);
    hide Apply, Known, Planned;
  }

  lemma PermitKnown(s: Snapshot, c: Readback, g: Guard, node: Node, id: Id)
    requires Known(s, c, g.resolved, None) && Planned(s, c, g.nodes, g.replacement) && NodeFits(s, c, node.key, node)
    requires IdOf(s, c, node.key) == Some(id) && Apply(g, Permit(node, id)).1
    ensures var g' := Apply(g, Permit(node, id)).0;
            && Known(s, c, g'.resolved, Some((node.key, id))) && Planned(s, c, g'.nodes, g'.replacement)
            && g'.armed == g.armed && g'.used == g.used && node.key in g'.replacement && node.key !in g'.used
  {
    hide IdOf, IsMissing, NodeFits;
  }

  lemma EventKeeps(s: Snapshot, e: Exec, ev: Event)
    requires Sound(s, e) && Possible(s, e, ev)
    ensures Sound(s, After(s, e, ev))
  {
    match ev
    case Read(c, calls) => ReadKeeps(s, e, c, calls);
    case Create(a, response) => CreateKeeps(s, e, a, response);
    case Replace(place, index, id) => ReplaceKeeps(s, e, place, index, id);
    case Removed => hide Prepared, Accepts, WellRead, IdOf, Planned, UsedIsShown, Sole, WriteSound;
    case Abandoned(c, calls) => AbandonKeeps(s, e, c, calls);
  }

  ghost predicate PossibleRun(s: Snapshot, e: Exec, evs: seq<Event>)
    decreases |evs|
  {
    evs == [] || (Possible(s, e, evs[0]) && PossibleRun(s, After(s, e, evs[0]), evs[1..]))
  }

  ghost function RunOf(s: Snapshot, e: Exec, evs: seq<Event>): Exec
    requires PossibleRun(s, e, evs)
    decreases |evs|
  {
    if evs == [] then e else RunOf(s, After(s, e, evs[0]), evs[1..])
  }

  lemma {:induction false} RunKeeps(s: Snapshot, e: Exec, evs: seq<Event>)
    requires Sound(s, e) && PossibleRun(s, e, evs)
    ensures Sound(s, RunOf(s, e, evs))
    decreases |evs|
  {
    hide Sound, Possible, After;
    if evs != [] {
      EventKeeps(s, e, evs[0]);
      RunKeeps(s, After(s, e, evs[0]), evs[1..]);
    }
  }

  // ---------- arming ----------

  /** The state right after arming the inventory of an observed, accepted start. */
  ghost predicate Armed(s: Snapshot, c: Readback, g: Guard, nodes: seq<Node>, e: Exec) {
    && Prepared(s) && Accepts(s, c) && WellRead(c) && InfoSettled(c) && CreateNodes(s, c, nodes)
    && Known(s, c, g.resolved, None) && !g.armed && g.used == map[] && g.replacement == map[]
    && exists resuming, confirmed: bool ::
         Apply(g, Arm(nodes, true, resuming, confirmed)).1
         && e == Exec(c, Apply(g, Arm(nodes, true, resuming, confirmed)).0, None, None)
  }

  /**
   Main result: the list `create_nodes` builds is armed unless it is too long, belongs to another target or lacks
   the operator's confirmation, and then the execution starts as the theorem below asks.
   */
  lemma ArmingSucceeds(s: Snapshot, c: Readback, o: Order, g: Guard, fits: bool, resuming: bool, confirmed: bool)
    requires Prepared(s) && Enumerates(s, o) && Accepts(s, c) && WellRead(c) && InfoSettled(c)
    requires Known(s, c, g.resolved, None) && !g.armed && g.used == map[] && g.replacement == map[]
    ensures CreateList(s, c, o).Some?
    ensures var nodes := CreateList(s, c, o).value;
            var acceptable := |nodes| <= INVENTORY_LIMIT && Distinct(Keys(nodes)) && Orderable(nodes) && fits;
            var (armed, ok) := Apply(g, Arm(nodes, acceptable, resuming, confirmed));
            && (ok <==> |nodes| <= INVENTORY_LIMIT && fits && (resuming && nodes != [] ==> confirmed))
            && (ok ==> Armed(s, c, g, nodes, Exec(c, armed, None, None)))
  {
    AcceptedIsListed(s, c, o);
    InventoryIsOrderable(s, c, o);
    hide CreateList, Prepared, Accepts, WellRead, InfoSettled, CreateNodes, Known, Distinct, Orderable, Enumerates, NodeMap, Keys, Ranked;
    var nodes := CreateList(s, c, o).value;
    if |nodes| <= INVENTORY_LIMIT && fits && (resuming && nodes != [] ==> confirmed) {
      assert Apply(g, Arm(nodes, true, resuming, confirmed)).1;
    }
  }

  lemma NodeForFits(s: Snapshot, c: Readback, k: Key)
    requires InfoSettled(c)
    ensures NodeFits(s, c, k, NodeFor(s, c, k))
  {
    hide IdOf;
  }

  lemma {:induction false} ArmedIsSound(s: Snapshot, c: Readback, g: Guard, nodes: seq<Node>, e: Exec)
    requires Armed(s, c, g, nodes, e)
    ensures Sound(s, e)
  {
    hide Prepared, Accepts, WellRead, NodeMap, Keys, CreateKeys, IdOf, NodeFor, NodeFits, IsMissing;
    assert e.guard.nodes == NodeMap(nodes);
    forall k | IsMissing(s, c, k) ensures k in e.guard.nodes && NodeFits(s, c, k, e.guard.nodes[k]) {
      InCreateKeys(s, c, k);
      KeysOf(nodes, k);
      NodeForFits(s, c, k);
    }
  }

  /**
   Main result: after arming, in every run of accepted readbacks, creates, lost or received responses and
   replacements, finished or given up, each create the reconciler chooses is granted by the guard. Only the one
   create still being polled for could be chosen a second time, and `mutate` chooses nothing while it polls.
   */
  lemma NeverDenied(s: Snapshot, c: Readback, g: Guard, nodes: seq<Node>, e: Exec, evs: seq<Event>, replaced: set<string>, a: Action)
    requires Armed(s, c, g, nodes, e) && PossibleRun(s, e, evs)
    ensures var now := RunOf(s, e, evs);
            now.removing.None? && Chooses(s, now.current, replaced, a) && CreatedBy(s, now.current, a).Some? ==>
              var k := CreatedBy(s, now.current, a).value;
              WrittenKey(s, now.writing) != Some(k) ==>
                ParentIdAt(s, now.current, k).Some? && Consumable(now.guard, k, ParentIdAt(s, now.current, k).value)
  {
    ArmedIsSound(s, c, g, nodes, e);
    RunKeeps(s, e, evs);
    var now := RunOf(s, e, evs);
    hide Armed, PossibleRun, RunOf, Chooses, CreatedBy, Consumable, Sound, WrittenKey;
    if now.removing.None? && Chooses(s, now.current, replaced, a) && CreatedBy(s, now.current, a).Some? {
      var k := CreatedBy(s, now.current, a).value;
      ChosenIsCreatable(s, now.current, replaced, a);
      if WrittenKey(s, now.writing) != Some(k) { ChosenIsGranted(s, now, k); }
    }
  }

  // ---------- such executions exist ----------

  const EMPTY_STORE := Readback(None, None, Reference(None, None, ""), [], BLANK, None)
  const FIRST_SHOT := TargetShot("mrk-n-a.png", 1, "sha", "md5", "a.png")

  /** A first release: nothing in the Store yet, one locale and one screenshot to create. */
  const FIRST_RELEASE := Snapshot(
    EMPTY_STORE,
    Target("holder", map["en" := ["text"]], [Some("GAMES")], map["en" := ["name"]], map[("en", "phone") := [FIRST_SHOT]], "build", "contact"),
    "n", "digest")

  lemma {:induction false} NothingShown(k: Case)
    requires !k.fixed && k.base.None? && |k.targets| <= CAP
    ensures PlanSet(k, None) == Ok(Plan(0, Additions([], k.targets), []))
  {
    hide Additions, Reserves, Matches;
    assert Kept(k, None) == [] && k.Prior() == [];
  }

  lemma FirstReleaseIsAccepted()
    ensures var s := FIRST_RELEASE; Prepared(s) && Accepts(s, s.before) && WellRead(s.before) && InfoSettled(s.before)
  {
    var s := FIRST_RELEASE;
    forall place: Place ensures PlanAt(s, s.before, place).Ok? {
      hide PlanSet;
      NothingShown(CaseAt(s, place));
    }
    assert Owned(s.nonce, FIRST_SHOT.fileName);
    hide PlanSet, PlanAt, CaseAt;
    assert MatchingReviews([], None) == [] && Others([], None) == [];
  }

  lemma FirstReleaseIsListed(o: Order)
    requires o == Order(["en"], ["en"], [("en", "phone")])
    ensures Enumerates(FIRST_RELEASE, o)
  {
  }

  lemma NothingKnown(s: Snapshot)
    ensures Known(s, EMPTY_STORE, map[], None)
  {
    forall k ensures IdOf(s, EMPTY_STORE, k).None? {
      if k.ShotKey? && IdOf(s, EMPTY_STORE, k).Some? {
        hide ShotIdAt, PlanAt;
        ShotKeyId(s, EMPTY_STORE, k, IdOf(s, EMPTY_STORE, k).value);
        ShotIdParts(s, EMPTY_STORE, (k.locale, k.display), k.order);
      }
    }
    hide IdOf;
  }

  lemma FirstReleaseArms() returns (nodes: seq<Node>, e: Exec)
    ensures Armed(FIRST_RELEASE, EMPTY_STORE, Unarmed, nodes, e)
  {
    var s, c, o := FIRST_RELEASE, EMPTY_STORE, Order(["en"], ["en"], [("en", "phone")]);
    FirstReleaseIsAccepted();
    FirstReleaseIsListed(o);
    NothingKnown(s);
    AcceptedIsListed(s, c, o);
    hide CreateList, Enumerates, Prepared, Accepts, WellRead, InfoSettled, Known, Armed, Keys, NodeMap, Orderable, Distinct;
    ArmingSucceeds(s, c, o, Unarmed, true, false, false);
    ListBound(s, c, o);
    nodes := CreateList(s, c, o).value;
    var acceptable := |nodes| <= INVENTORY_LIMIT && Distinct(Keys(nodes)) && Orderable(nodes) && true;
    e := Exec(c, Apply(Unarmed, Arm(nodes, acceptable, false, false)).0, None, None);
    hide Apply;
  }

  /** The theorem is not empty: the list of a first release arms a fresh guard, and its first create is chosen and granted. */
  lemma AFirstReleaseRuns() returns (nodes: seq<Node>, e: Exec)
    ensures Armed(FIRST_RELEASE, EMPTY_STORE, Unarmed, nodes, e)
    ensures Possible(FIRST_RELEASE, e, Create(CreateVersion, None)) && Consumable(e.guard, VersionKey, APP)
  {
    nodes, e := FirstReleaseArms();
    VersionComesFirst(FIRST_RELEASE, EMPTY_STORE, Unarmed, nodes, e);
    hide Armed, Consumable, Possible;
  }

  lemma VersionComesFirst(s: Snapshot, c: Readback, g: Guard, nodes: seq<Node>, e: Exec)
    requires Armed(s, c, g, nodes, e) && c.version.None?
    ensures Possible(s, e, Create(CreateVersion, None)) && Consumable(e.guard, VersionKey, APP)
  {
    assert e.current == c && e.removing.None? && e.writing.None?;
    assert PossibleRun(s, e, []) && RunOf(s, e, []) == e;
    hide Armed, Consumable;
    NeverDenied(s, c, g, nodes, e, [], {}, CreateVersion);
    assert CreatedBy(s, c, CreateVersion) == Some(VersionKey) && ParentIdAt(s, c, VersionKey) == Some(APP);
  }
}
