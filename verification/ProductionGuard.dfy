/**
 The reconciler with its create guard: every create it chooses after arming is one
 the guard grants.
 */
module ProductionGuards {
  import opened Bytes
  import opened CreateGuards
  import opened CreateDispatches
  import opened Screenshots
  import opened Productions
  import opened ProductionGoals
  import opened ProductionPlans
  import opened ProductionRuns

  // ---------- which creates are chosen ----------

  /** The logical resource an action would create, if it creates one. */
  function CreatedBy(s: Snapshot, c: Readback, a: Action): Option<Key> {
    match a
    case CreateVersion => Some(VersionKey)
    case WriteText(l) => if IdOf(s, c, TextKey(l)).None? then Some(TextKey(l)) else None
    case WriteInfoText(l) => if IdOf(s, c, InfoKey(l)).None? then Some(InfoKey(l)) else None
    case WritePrivate => if IdOf(s, c, DetailKey(s.digest)).None? then Some(DetailKey(s.digest)) else None
    case CreateSet(place) => Some(SetKey(place.0, place.1))
    case Reserve(place, index) =>
      if place in s.target.shots && PlanAt(s, c, place).Ok? && index < |PlanAt(s, c, place).value.additions|
         && PlanAt(s, c, place).value.additions[index] < |s.target.shots[place]|
      then
        var t := PlanAt(s, c, place).value.additions[index];
        Some(ShotKey(place.0, place.1, t, s.target.shots[place][t].sha))
      else None
    case CreateReview => Some(ReviewKey)
    case AddItem => Some(ItemKey)
    case _ => None
  }

  /** What is known about every create that is chosen: it is missing, and its parent and the version are there. */
  ghost predicate Creatable(s: Snapshot, c: Readback, k: Key) {
    IsMissing(s, c, k) && ParentIdAt(s, c, k).Some? && (k != VersionKey ==> c.version.Some?)
  }

  lemma PlainCreates(s: Snapshot, c: Readback, replaced: set<string>, a: Action)
    requires Chooses(s, c, replaced, a) && CreatedBy(s, c, a).Some? && !a.CreateSet? && !a.Reserve?
    ensures Creatable(s, c, CreatedBy(s, c, a).value)
  {
    hide PlanSet, Selected, Position, TextsDone, CategoriesDone, IsSubmitted;
  }

  lemma ShotCreates(s: Snapshot, c: Readback, replaced: set<string>, a: Action)
    requires Chooses(s, c, replaced, a) && (a.CreateSet? || a.Reserve?)
    ensures CreatedBy(s, c, a).Some? && Creatable(s, c, CreatedBy(s, c, a).value)
  {
    hide PlanSet, Selected, Position, TextsDone, CategoriesDone, IsSubmitted;
    if a.Reserve? {
      TargetInRange(s, c, a.place, a.index);
      UnreservedAt(PlanAt(s, c, a.place).value, a.index);
    }
    assert (a.place.0, a.place.1) == a.place;
  }

  lemma ChosenIsCreatable(s: Snapshot, c: Readback, replaced: set<string>, a: Action)
    requires Chooses(s, c, replaced, a) && CreatedBy(s, c, a).Some?
    ensures Creatable(s, c, CreatedBy(s, c, a).value)
  {
    hide Chooses, CreatedBy, Creatable;
    if a.CreateSet? || a.Reserve? { ShotCreates(s, c, replaced, a); } else { PlainCreates(s, c, replaced, a); }
  }

  // ---------- a create seen completed has its identity ----------

  /** No kept screenshot, prepared or inherited, ever carries the name of a planned addition. */
  lemma PriorNames(k: Case, now: Option<ShotSet>, t: nat)
    requires PlanSet(k, now).Ok? && t in PlanSet(k, now).value.additions
    ensures t < |k.targets| && forall j :: 0 <= j < |k.Prior()| ==> k.Prior()[j].fileName != k.targets[t].fileName
  {
    var p := PlanSet(k, now).value;
    var x :| 0 <= x < |p.additions| && p.additions[x] == t;
    hide Additions, MatchCount, KeptIntact, Reserves, Kept;
  }

  lemma NamedIsBeyond(k: Case, now: Option<ShotSet>, next: Option<ShotSet>, t: nat, i: nat)
    requires PlanSet(k, now).Ok? && PlanSet(k, next).Ok? && t in PlanSet(k, now).value.additions
    requires t < |k.targets| && i < |ShotsOf(next)| && ShotsOf(next)[i].fileName == k.targets[t].fileName
    ensures |Kept(k, next)| <= i
  {
    PriorNames(k, now, t);
    PlanParts(k, next);
    var kept, shots := Kept(k, next), ShotsOf(next);
    hide PlanSet, Additions, MatchCount, Reserves;
    assert i < |kept| ==> SameContent(shots[i], kept[i]) && kept == k.Prior();
  }

  /** An addition whose name is shown later stands among the reservations of the later plan. */
  lemma NamedIsReserved(k: Case, now: Option<ShotSet>, next: Option<ShotSet>, t: nat, i: nat) returns (x: nat)
    requires PlanSet(k, now).Ok? && PlanSet(k, next).Ok? && DistinctNames(k.targets) && t in PlanSet(k, now).value.additions
    requires t < |k.targets| && i < |ShotsOf(next)| && ShotsOf(next)[i].fileName == k.targets[t].fileName
    ensures var q := PlanSet(k, next).value; x < |q.suffix| <= |q.additions| && q.additions[x] == t
  {
    NamedIsBeyond(k, now, next, t, i);
    PlanParts(k, next);
    var q, kept, shots := PlanSet(k, next).value, Kept(k, next), ShotsOf(next);
    hide PlanSet, Additions, MatchCount, Kept, KeptIntact;
    x := i - |kept|;
    assert q.suffix[x] == shots[i] && Reserves(q.suffix[x], k.targets[q.additions[x]]);
  }

  lemma ShotIdMakes(s: Snapshot, c: Readback, place: Place, t: nat, i: nat)
    requires place in s.target.shots && PlanAt(s, c, place).Ok?
    requires var q := PlanAt(s, c, place).value; i < |q.suffix| && i < |q.additions| && q.additions[i] == t
    ensures ShotIdAt(s, c, place, t) == Some(PlanAt(s, c, place).value.suffix[i].id)
  {
    SuffixOf(s, c, place);
    hide PlanSet, CaseAt, SetAt;
    PositionOf(PlanAt(s, c, place).value.additions, i);
  }

  lemma ShotIdIs(s: Snapshot, c: Readback, k: Key)
    requires k.ShotKey? && (k.locale, k.display) in s.target.shots && k.order < |s.target.shots[(k.locale, k.display)]|
    requires s.target.shots[(k.locale, k.display)][k.order].sha == k.sha
    ensures IdOf(s, c, k) == ShotIdAt(s, c, (k.locale, k.display), k.order)
  {
    hide ShotIdAt;
  }

  lemma ReserveShows(s: Snapshot, b: Readback, replaced: set<string>, place: Place, index: nat, c: Readback) returns (t: nat, i: nat)
    requires Chooses(s, b, replaced, Reserve(place, index)) && Completed(s, b, Reserve(place, index), c)
    ensures place in s.target.shots && t < |s.target.shots[place]| && PlanAt(s, b, place).Ok? && t in PlanAt(s, b, place).value.additions
    ensures CreatedBy(s, b, Reserve(place, index)) == Some(ShotKey(place.0, place.1, t, s.target.shots[place][t].sha))
    ensures i < |ShotsOf(SetAt(c.version, place))| && ShotsOf(SetAt(c.version, place))[i].fileName == s.target.shots[place][t].fileName
  {
    TargetInRange(s, b, place, index);
    hide BeforeShots, PlanAt, SetAt;
    t := PlanAt(s, b, place).value.additions[index];
    var shots := ShotsOf(SetAt(c.version, place));
    i :| 0 <= i < |shots| && shots[i].fileName == s.target.shots[place][t].fileName;
  }

  lemma ShownAt(s: Snapshot, c: Readback, place: Place, t: nat, x: nat)
    requires place in s.target.shots && t < |s.target.shots[place]| && PlanAt(s, c, place).Ok?
    requires var q := PlanAt(s, c, place).value; x < |q.suffix| <= |q.additions| && q.additions[x] == t
    ensures IdOf(s, c, ShotKey(place.0, place.1, t, s.target.shots[place][t].sha)).Some?
  {
    var k := ShotKey(place.0, place.1, t, s.target.shots[place][t].sha);
    assert (k.locale, k.display) == place;
    hide *;
    ShotIdMakes(s, c, place, t, x);
    ShotIdIs(s, c, k);
  }

  lemma ReserveIsShown(s: Snapshot, b: Readback, replaced: set<string>, place: Place, index: nat, c: Readback)
    requires Prepared(s) && PlanAt(s, c, place).Ok?
    requires Chooses(s, b, replaced, Reserve(place, index)) && Completed(s, b, Reserve(place, index), c)
    ensures CreatedBy(s, b, Reserve(place, index)).Some? && IdOf(s, c, CreatedBy(s, b, Reserve(place, index)).value).Some?
  {
    var t, i := ReserveShows(s, b, replaced, place, index, c);
    CaseNames(s, place);
    PlansAre(s, b, place);
    PlansAre(s, c, place);
    hide *;
    var x := NamedIsReserved(CaseAt(s, place), SetAt(b.version, place), SetAt(c.version, place), t, i);
    ShownAt(s, c, place, t, x);
  }

  lemma PlansAre(s: Snapshot, c: Readback, place: Place)
    requires place in s.target.shots
    ensures PlanAt(s, c, place) == PlanSet(CaseAt(s, place), SetAt(c.version, place)) && CaseAt(s, place).targets == s.target.shots[place]
  {
    hide PlanSet, SetAt;
  }

  lemma TextIsShown(s: Snapshot, b: Readback, replaced: set<string>, a: Action, c: Readback)
    requires Chooses(s, b, replaced, a) && Completed(s, b, a, c) && CreatedBy(s, b, a).Some? && (a.WriteText? || a.WriteInfoText?)
    ensures IdOf(s, c, CreatedBy(s, b, a).value).Some?
  {
    hide BeforeInfo, Editable, TextsDone, CategoriesDone;
  }

  /** A blank detail is not what the target asks for once it has been found to differ. */
  lemma DetailIsShown(s: Snapshot, b: Readback, replaced: set<string>, c: Readback)
    requires WellRead(b) && WellRead(c) && Chooses(s, b, replaced, WritePrivate) && Completed(s, b, WritePrivate, c)
    ensures CreatedBy(s, b, WritePrivate).Some? ==> IdOf(s, c, CreatedBy(s, b, WritePrivate).value).Some?
  {
    hide TextsDone, CategoriesDone, DistinctIds, IsSubmitted;
  }

  lemma PlainIsShown(s: Snapshot, b: Readback, a: Action, c: Readback)
    requires Completed(s, b, a, c) && (a.CreateVersion? || a.CreateSet? || a.CreateReview? || a.AddItem?)
    ensures CreatedBy(s, b, a).Some? && IdOf(s, c, CreatedBy(s, b, a).value).Some?
  {
    hide Selected, SetAt;
    if a.CreateSet? { assert (a.place.0, a.place.1) == a.place; }
  }

  /** Main step: once the poll of a create is satisfied, the resource it created is shown with an identity. */
  lemma CompletedIsShown(s: Snapshot, b: Readback, replaced: set<string>, a: Action, c: Readback)
    requires Prepared(s) && WellRead(b) && WellRead(c) && Accepts(s, c)
    requires Chooses(s, b, replaced, a) && CreatedBy(s, b, a).Some? && Completed(s, b, a, c)
    ensures IdOf(s, c, CreatedBy(s, b, a).value).Some?
  {
    if a.Reserve? { PlansOk(s, c, a.place); }
    hide Accepts, Prepared, WellRead, Chooses, Completed, IdOf, PlanAt;
    if a.Reserve? { ReserveIsShown(s, b, replaced, a.place, a.index, c); }
    else if a.WriteText? || a.WriteInfoText? { TextIsShown(s, b, replaced, a, c); }
    else if a.WritePrivate? { DetailIsShown(s, b, replaced, c); }
    else { PlainIsShown(s, b, a, c); }
  }

  // ---------- identities along accepted readbacks ----------

  /** A reservation under removal, by logical key and identity. */
  type Removal = Option<(Key, Id)>

  function RemovingId(r: Removal): Option<Id> {
    if r.Some? then Some(r.value.1) else None
  }

  /** The identity being removed belongs to that reservation alone. */
  ghost predicate Sole(s: Snapshot, c: Readback, r: Removal) {
    r.Some? ==>
      forall place: Place, i :: 0 <= i < |ShotsOf(SetAt(c.version, place))| && ShotsOf(SetAt(c.version, place))[i].id == r.value.1 ==>
        r.value.0.ShotKey? && place == (r.value.0.locale, r.value.0.display) && IdOf(s, c, r.value.0) == Some(r.value.1)
  }

  lemma PlainPersists(s: Snapshot, b: Readback, c: Readback, removing: Option<Id>, k: Key)
    requires Accepts(s, b) && Accepts(s, c) && Progress(s, b, c, removing) && !k.ShotKey? && IdOf(s, b, k).Some?
    ensures IdOf(s, c, k) == IdOf(s, b, k)
  {
    hide PlansAccepted, MayMove, Position;
    match k
    case TextKey(l) => assert l in Entries(b.version);
    case ItemKey => ItemPersists(b, c);
    case _ =>
  }

  lemma ItemPersists(b: Readback, c: Readback)
    requires SelectedAt(b).Ok? && SelectedAt(c).Ok? && ReviewProgress(SelectedAt(b).value, SelectedAt(c).value)
    requires SelectedAt(b).value.Some? && SelectedAt(b).value.value.items != []
    ensures SelectedAt(c).value.Some? && SelectedAt(c).value.value.items != []
    ensures SelectedAt(c).value.value.items[0].id == SelectedAt(b).value.value.items[0].id
  {
    var before, after := SelectedAt(b).value.value.items, SelectedAt(c).value.value.items;
    var j :| 0 <= j < |after| && ItemProgress(before[0], after[j]);
    hide MayMove;
  }

  // ---------- one set while its last reservation is being removed ----------

  /** Exactly the shot at r carries the identity under removal, and it is one of the operation's own. */
  ghost predicate RemovedAt(k: Case, b: ShotSet, id: Id, r: nat) {
    && r < |b.shots| && |Kept(k, Some(b))| <= r
    && forall i :: 0 <= i < |b.shots| ==> (b.shots[i].id == id <==> i == r)
  }

  lemma {:induction false} WithoutOne(shots: seq<Shot>, id: Id, r: nat)
    requires r < |shots| && forall i :: 0 <= i < |shots| ==> (shots[i].id == id <==> i == r)
    ensures Without(shots, Some(id)) == shots[..r] + shots[r + 1..]
  {
    var front := shots[..|shots| - 1];
    if r == |shots| - 1 {
      assert Without(front, Some(id)) == front;
    } else {
      WithoutOne(front, id, r);
      assert shots[r + 1..] == front[r + 1..] + [shots[|shots| - 1]];
    }
  }

  lemma ShotsAround(k: Case, b: ShotSet, c: ShotSet, id: Id, r: nat)
    requires RemovedAt(k, b, id, r) && ShotsProgress(b.shots, c.shots, Some(id))
    ensures |b.shots| - 1 <= |c.shots|
    ensures forall i :: 0 <= i < r ==> ShotProgress(b.shots[i], c.shots[i])
    ensures forall i :: r < i < |b.shots| ==> ShotProgress(b.shots[i], c.shots[i - 1])
  {
    WithoutOne(b.shots, id, r);
    hide Kept, ShotProgress, Without;
    var kept := Without(b.shots, Some(id));
    assert forall i :: 0 <= i < r ==> kept[i] == b.shots[i];
    forall i | r < i < |b.shots| ensures ShotProgress(b.shots[i], c.shots[i - 1]) {
      assert kept[i - 1] == b.shots[i];
      assert ShotProgress(kept[i - 1], c.shots[i - 1]);
    }
  }

  ghost predicate OwnNames(k: Case) {
    forall i :: 0 <= i < |k.targets| ==> Owned(k.nonce, k.targets[i].fileName)
  }

  lemma SuffixNames(k: Case, now: ShotSet, i: nat)
    requires PlanSet(k, Some(now)).Ok? && |Kept(k, Some(now))| <= i < |now.shots|
    ensures var p := PlanSet(k, Some(now)).value;
            && p.additions == Additions(Kept(k, Some(now)), k.targets)
            && i - |Kept(k, Some(now))| < |p.additions| && p.additions[i - |Kept(k, Some(now))|] < |k.targets|
            && now.shots[i].fileName == k.targets[p.additions[i - |Kept(k, Some(now))|]].fileName
  {
    PlanParts(k, Some(now));
    var p := PlanSet(k, Some(now)).value;
    assert p.suffix[i - p.kept] == now.shots[i];
    assert Reserves(p.suffix[i - p.kept], k.targets[p.additions[i - p.kept]]);
    hide PlanSet, Additions, KeptIntact, Kept;
  }

  /** While something else is shown before or after it, the removed reservation leaves the kept list alone. */
  lemma KeptStays(k: Case, b: ShotSet, c: ShotSet, id: Id, r: nat)
    requires PlanSet(k, Some(b)).Ok? && OwnNames(k) && RemovedAt(k, b, id, r) && ShotsProgress(b.shots, c.shots, Some(id))
    requires |b.shots| > 1
    ensures Kept(k, Some(c)) == Kept(k, Some(b))
  {
    ShotsAround(k, b, c, id, r);
    if r == 0 { SuffixNames(k, b, 1); }
    hide PlanSet, Additions, Without, ShotsProgress;
  }

  /** If something stood behind the removed reservation, its successor would have to carry two names. */
  lemma NamesWouldMeet(k: Case, b: ShotSet, c: ShotSet, id: Id, r: nat) returns (x: nat, y: nat)
    requires PlanSet(k, Some(b)).Ok? && PlanSet(k, Some(c)).Ok? && OwnNames(k)
    requires RemovedAt(k, b, id, r) && ShotsProgress(b.shots, c.shots, Some(id)) && r + 1 < |b.shots|
    ensures x < y < |k.targets| && k.targets[x].fileName == k.targets[y].fileName
  {
    ShotsAround(k, b, c, id, r);
    assert ShotProgress(b.shots[r + 1], c.shots[r]);
    KeptStays(k, b, c, id, r);
    hide PlanSet, Additions, Kept, ShotsProgress, OwnNames;
    x, y := TwoNames(k, b, c, r);
  }

  /** Both sets name the shot by the addition it stands for, and those two additions differ. */
  lemma TwoNames(k: Case, b: ShotSet, c: ShotSet, r: nat) returns (x: nat, y: nat)
    requires PlanSet(k, Some(b)).Ok? && PlanSet(k, Some(c)).Ok? && Kept(k, Some(c)) == Kept(k, Some(b))
    requires |Kept(k, Some(b))| <= r && r + 1 < |b.shots| && r < |c.shots| && ShotProgress(b.shots[r + 1], c.shots[r])
    ensures x < y < |k.targets| && k.targets[x].fileName == k.targets[y].fileName
  {
    hide PlanSet, Additions, Kept, ShotProgress;
    SuffixNames(k, b, r + 1);
    SuffixNames(k, c, r);
    SameName(b.shots[r + 1], c.shots[r]);
    var i := r - |Kept(k, Some(b))|;
    var xs := Additions(Kept(k, Some(b)), k.targets);
    x, y := xs[i], xs[i + 1];
    hide *;
  }

  lemma SameName(b: Shot, c: Shot)
    requires ShotProgress(b, c)
    ensures b.fileName == c.fileName
  {
  }

  /** A removed reservation is the last of its set in every accepted pair of readbacks. */
  lemma RemovedIsLast(k: Case, b: ShotSet, c: ShotSet, id: Id, r: nat)
    requires PlanSet(k, Some(b)).Ok? && PlanSet(k, Some(c)).Ok? && OwnNames(k) && DistinctNames(k.targets)
    requires RemovedAt(k, b, id, r) && ShotsProgress(b.shots, c.shots, Some(id))
    ensures r == |b.shots| - 1
  {
    hide PlanSet, Additions, Without, ShotsProgress, Kept;
    if r + 1 < |b.shots| { var x, y := NamesWouldMeet(k, b, c, id, r); }
  }

  /** Everything before the removed reservation keeps its place and identity, and additions only shrink. */
  lemma RemovalPersists(k: Case, b: ShotSet, c: ShotSet, id: Id, r: nat)
    requires PlanSet(k, Some(b)).Ok? && PlanSet(k, Some(c)).Ok? && OwnNames(k) && DistinctNames(k.targets)
    requires RemovedAt(k, b, id, r) && ShotsProgress(b.shots, c.shots, Some(id))
    ensures var p, q := PlanSet(k, Some(b)).value, PlanSet(k, Some(c)).value;
            && (forall t :: t in q.additions ==> t in p.additions)
            && (forall i :: 0 <= i < |p.suffix| && p.suffix[i].id != id ==>
                  q.additions == p.additions && i < |q.suffix| && q.suffix[i].id == p.suffix[i].id)
  {
    RemovedIsLast(k, b, c, id, r);
    ShotsAround(k, b, c, id, r);
    if |b.shots| > 1 {
      KeptStays(k, b, c, id, r);
      SuffixPersists(k, b, c, id);
    } else {
      SingleRemoved(k, b, c);
      NothingElse(k, b, id);
    }
    hide *;
  }

  lemma SuffixPersists(k: Case, b: ShotSet, c: ShotSet, id: Id)
    requires PlanSet(k, Some(b)).Ok? && PlanSet(k, Some(c)).Ok? && Kept(k, Some(c)) == Kept(k, Some(b))
    requires |b.shots| > 1 && RemovedAt(k, b, id, |b.shots| - 1) && |b.shots| - 1 <= |c.shots|
    requires forall i :: 0 <= i < |b.shots| - 1 ==> ShotProgress(b.shots[i], c.shots[i])
    ensures var p, q := PlanSet(k, Some(b)).value, PlanSet(k, Some(c)).value;
            && q.additions == p.additions
            && forall i :: 0 <= i < |p.suffix| && p.suffix[i].id != id ==> i < |q.suffix| && q.suffix[i].id == p.suffix[i].id
  {
    PlanParts(k, Some(b));
    PlanParts(k, Some(c));
    hide PlanSet, Additions, Kept, KeptIntact, Reserves, MatchCount;
    var p, q := PlanSet(k, Some(b)).value, PlanSet(k, Some(c)).value;
    forall i | 0 <= i < |p.suffix| && p.suffix[i].id != id ensures i < |q.suffix| && q.suffix[i].id == p.suffix[i].id {
      assert p.suffix[i] == b.shots[p.kept + i];
      assert ShotProgress(b.shots[p.kept + i], c.shots[p.kept + i]);
    }
  }

  lemma NothingElse(k: Case, b: ShotSet, id: Id)
    requires PlanSet(k, Some(b)).Ok? && |b.shots| == 1 && RemovedAt(k, b, id, 0)
    ensures var p := PlanSet(k, Some(b)).value; forall i :: 0 <= i < |p.suffix| ==> p.suffix[i].id == id
  {
    PlanParts(k, Some(b));
    hide PlanSet, Additions, Kept, KeptIntact, Reserves, MatchCount;
    var p := PlanSet(k, Some(b)).value;
    assert forall i :: 0 <= i < |p.suffix| ==> p.suffix[i] == b.shots[p.kept + i];
  }

  lemma SingleRemoved(k: Case, b: ShotSet, c: ShotSet)
    requires PlanSet(k, Some(b)).Ok? && PlanSet(k, Some(c)).Ok? && Kept(k, Some(b)) == []
    ensures forall t :: t in PlanSet(k, Some(c)).value.additions ==> t in PlanSet(k, Some(b)).value.additions
  {
    PlanParts(k, Some(b));
    PlanParts(k, Some(c));
    var q := PlanSet(k, Some(c)).value;
    hide PlanSet, Additions, Kept, KeptIntact, Reserves;
    forall t | t in q.additions ensures t in Additions([], k.targets) {
      AdditionsShrink(Kept(k, Some(c)), k.targets, t);
    }
  }

  // ---------- what a readback leaves in place ----------

  /** The relation of two successive readbacks that the persistence of identities rests on. */
  ghost predicate Succeeds(s: Snapshot, b: Readback, c: Readback, r: Removal) {
    && Prepared(s) && Accepts(s, b) && Accepts(s, c) && WellRead(b) && Sole(s, b, r)
    && Progress(s, b, c, RemovingId(r))
  }

  /** Where one set stands: untouched by the removal, or holding exactly the removed reservation at one index. */
  ghost predicate Untouched(b: ShotSet, r: Removal) {
    forall i :: 0 <= i < |b.shots| ==> Some(b.shots[i].id) != RemovingId(r)
  }

  lemma CaseNames(s: Snapshot, place: Place)
    requires Prepared(s)
    ensures OwnNames(CaseAt(s, place)) && DistinctNames(CaseAt(s, place).targets)
  {
    hide SetAt;
  }

  lemma {:induction false} PositionOf(xs: seq<nat>, i: nat)
    requires i < |xs| && forall x, y :: 0 <= x < y < |xs| ==> xs[x] < xs[y]
    ensures Position(xs, xs[i]) == i
  {
    var p := Position(xs, xs[i]);
    assert xs[i] in xs;
  }

  lemma ShotIdParts(s: Snapshot, c: Readback, place: Place, t: nat)
    requires ShotIdAt(s, c, place, t).Some?
    ensures place in s.target.shots && PlanAt(s, c, place).Ok? && SetAt(c.version, place).Some?
    ensures var p, shots := PlanAt(s, c, place).value, ShotsOf(SetAt(c.version, place));
            var i := Position(p.additions, t);
            && i < |p.suffix| <= |p.additions| && p.additions[i] == t && p.suffix[i].id == ShotIdAt(s, c, place, t).value
            && p.kept == |Kept(CaseAt(s, place), SetAt(c.version, place))| && p.kept + i < |shots| && shots[p.kept + i] == p.suffix[i]
  {
    PlanParts(CaseAt(s, place), SetAt(c.version, place));
    hide PlanSet, CaseAt, Additions, Kept, KeptIntact, Reserves;
  }

  lemma UntouchedPersists(s: Snapshot, b: Readback, c: Readback, r: Removal, place: Place)
    requires Succeeds(s, b, c, r) && SetAt(b.version, place).Some? && Untouched(SetAt(b.version, place).value, r)
    requires SetAt(b.version, place).value.shots != []
    ensures Continues(s, b, c, place)
  {
    hide *;
    var now := SetAt(b.version, place).value;
    SetSucceeds(s, b, c, r, place);
    NothingTaken(now, r);
    SameProgress(now.shots, SetAt(c.version, place).value.shots, RemovingId(r));
    NotEmpty(now, SetAt(b.version, place));
    SetContinues(s, b, c, place);
  }

  lemma SetSucceeds(s: Snapshot, b: Readback, c: Readback, r: Removal, place: Place)
    requires Succeeds(s, b, c, r) && SetAt(b.version, place).Some?
    ensures PlanAt(s, b, place).Ok? && PlanAt(s, c, place).Ok? && SetAt(c.version, place).Some?
    ensures ShotsProgress(SetAt(b.version, place).value.shots, SetAt(c.version, place).value.shots, RemovingId(r))
  {
    PlansOk(s, b, place);
    PlansOk(s, c, place);
    hide Accepts, PlanAt, SetAt, ShotsProgress, Prepared, WellRead, Sole;
  }

  lemma NothingTaken(now: ShotSet, r: Removal)
    requires Untouched(now, r)
    ensures Without(now.shots, RemovingId(r)) == Without(now.shots, None)
  {
    assert Without(now.shots, None) == now.shots;
    hide Without;
  }

  lemma SameProgress(b: seq<Shot>, c: seq<Shot>, removing: Option<Id>)
    requires ShotsProgress(b, c, removing) && Without(b, removing) == Without(b, None)
    ensures ShotsProgress(b, c, None)
  {
  }

  lemma NotEmpty(now: ShotSet, at: Option<ShotSet>)
    requires at == Some(now) && now.shots != []
    ensures ShotsOf(at) != []
  {
  }

  /** A set that holds the identity under removal holds it once, among the operation's reservations. */
  lemma TouchedIsRemoved(s: Snapshot, b: Readback, r: Removal, place: Place) returns (at: nat)
    requires DistinctIds(ShotsOf(SetAt(b.version, place))) && Sole(s, b, r)
    requires SetAt(b.version, place).Some? && !Untouched(SetAt(b.version, place).value, r)
    ensures r.Some? && RemovedAt(CaseAt(s, place), SetAt(b.version, place).value, r.value.1, at)
    ensures r.value.0.ShotKey? && place == (r.value.0.locale, r.value.0.display) && IdOf(s, b, r.value.0) == Some(r.value.1)
    ensures ShotIdAt(s, b, place, r.value.0.order) == Some(r.value.1)
  {
    TouchedKey(s, b, r, place);
    ShotKeyId(s, b, r.value.0, r.value.1);
    hide *;
    at := RemovedIndex(s, b, place, r.value.0.order, r.value.1);
  }

  lemma TouchedKey(s: Snapshot, b: Readback, r: Removal, place: Place)
    requires Sole(s, b, r) && SetAt(b.version, place).Some? && !Untouched(SetAt(b.version, place).value, r)
    ensures r.Some? && r.value.0.ShotKey? && place == (r.value.0.locale, r.value.0.display)
    ensures IdOf(s, b, r.value.0) == Some(r.value.1)
  {
    var now := SetAt(b.version, place).value;
    var j :| 0 <= j < |now.shots| && Some(now.shots[j].id) == RemovingId(r);
    assert ShotsOf(SetAt(b.version, place))[j].id == r.value.1;
    hide IdOf, SetAt;
  }

  lemma ShotKeyId(s: Snapshot, c: Readback, k: Key, id: Id)
    requires k.ShotKey? && IdOf(s, c, k) == Some(id)
    ensures ShotIdAt(s, c, (k.locale, k.display), k.order) == Some(id)
    ensures (k.locale, k.display) in s.target.shots && k.order < |s.target.shots[(k.locale, k.display)]|
    ensures s.target.shots[(k.locale, k.display)][k.order].sha == k.sha
  {
    hide ShotIdAt;
  }

  lemma RemovedIndex(s: Snapshot, b: Readback, place: Place, t: nat, id: Id) returns (at: nat)
    requires ShotIdAt(s, b, place, t) == Some(id) && DistinctIds(ShotsOf(SetAt(b.version, place)))
    ensures SetAt(b.version, place).Some? && RemovedAt(CaseAt(s, place), SetAt(b.version, place).value, id, at)
  {
    hide PlanSet, CaseAt, SetAt, Kept, Additions, Position, ShotIdAt;
    ShotIdParts(s, b, place, t);
    var p := PlanAt(s, b, place).value;
    at := p.kept + Position(p.additions, t);
    OnlyOne(CaseAt(s, place), SetAt(b.version, place).value, id, at);
  }

  lemma OnlyOne(k: Case, b: ShotSet, id: Id, at: nat)
    requires DistinctIds(b.shots) && |Kept(k, Some(b))| <= at < |b.shots| && b.shots[at].id == id
    ensures RemovedAt(k, b, id, at)
  {
    hide Kept;
  }

  /** The state of one set after a readback that may have removed a reservation from it. */
  ghost predicate SetPersists(s: Snapshot, b: Readback, c: Readback, r: Removal, place: Place) {
    PlanAt(s, b, place).Ok? && PlanAt(s, c, place).Ok? &&
    var p, q := PlanAt(s, b, place).value, PlanAt(s, c, place).value;
    && (forall t :: t in q.additions ==> t in p.additions)
    && (forall i :: 0 <= i < |p.suffix| && Some(p.suffix[i].id) != RemovingId(r) ==>
          q.additions == p.additions && i < |q.suffix| && q.suffix[i].id == p.suffix[i].id)
  }

  lemma EmptyPersists(s: Snapshot, b: Readback, c: Readback, r: Removal, place: Place)
    requires PlanAt(s, b, place).Ok? && PlanAt(s, c, place).Ok? && ShotsOf(SetAt(b.version, place)) == []
    ensures SetPersists(s, b, c, r, place)
  {
    var k, now, next := CaseAt(s, place), SetAt(b.version, place), SetAt(c.version, place);
    PlanParts(k, now);
    EmptyAdditions(k, now, next);
    hide PlanSet, Additions, Kept, KeptIntact, Reserves;
  }

  lemma EmptyAdditions(k: Case, now: Option<ShotSet>, c: Option<ShotSet>)
    requires PlanSet(k, now).Ok? && PlanSet(k, c).Ok? && ShotsOf(now) == []
    ensures forall t :: t in PlanSet(k, c).value.additions ==> t in PlanSet(k, now).value.additions
  {
    PlanParts(k, now);
    PlanParts(k, c);
    var p, q := PlanSet(k, now).value, PlanSet(k, c).value;
    hide PlanSet, MatchCount, Reserves, KeptIntact;
    forall t | t in q.additions ensures t in p.additions {
      EveryTargetIsShown(Kept(k, now), k.targets, t);
      EveryTargetIsShown(Kept(k, c), k.targets, t);
      EmptyKept(k, now, c, t);
    }
  }

  lemma ContinuesPersists(s: Snapshot, b: Readback, c: Readback, r: Removal, place: Place)
    requires PlanAt(s, b, place).Ok? && Continues(s, b, c, place)
    ensures SetPersists(s, b, c, r, place)
  {
    hide PlanSet, CaseAt, SetAt;
  }

  lemma RemovalAtPersists(s: Snapshot, b: Readback, c: Readback, r: Removal, place: Place)
    requires Prepared(s) && r.Some? && PlanAt(s, b, place).Ok? && PlanAt(s, c, place).Ok? && Sole(s, b, r)
    requires SetAt(b.version, place).Some? && SetAt(c.version, place).Some? && DistinctIds(ShotsOf(SetAt(b.version, place)))
    requires !Untouched(SetAt(b.version, place).value, r)
    requires ShotsProgress(SetAt(b.version, place).value.shots, SetAt(c.version, place).value.shots, RemovingId(r))
    ensures SetPersists(s, b, c, r, place)
  {
    hide PlanSet, CaseAt, SetAt, Prepared, Sole, Untouched, ShotsProgress, RemovedAt, DistinctIds, DistinctNames;
    var at := TouchedIsRemoved(s, b, r, place);
    CaseNames(s, place);
    RemovalPersists(CaseAt(s, place), SetAt(b.version, place).value, SetAt(c.version, place).value, r.value.1, at);
  }

  lemma EverySetPersists(s: Snapshot, b: Readback, c: Readback, r: Removal, place: Place)
    requires Succeeds(s, b, c, r)
    ensures SetPersists(s, b, c, r, place)
  {
    assert PlanAt(s, b, place).Ok? && PlanAt(s, c, place).Ok?;
    assert DistinctIds(ShotsOf(SetAt(b.version, place)));
    if ShotsOf(SetAt(b.version, place)) == [] {
      hide *;
      EmptyPersists(s, b, c, r, place);
    } else if Untouched(SetAt(b.version, place).value, r) {
      UntouchedPersists(s, b, c, r, place);
      hide *;
      ContinuesPersists(s, b, c, r, place);
    } else {
      assert SetAt(c.version, place).Some?
             && ShotsProgress(SetAt(b.version, place).value.shots, SetAt(c.version, place).value.shots, RemovingId(r));
      hide *;
      RemovalAtPersists(s, b, c, r, place);
    }
  }
}
