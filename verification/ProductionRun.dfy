/**
 The reconciler's loop: one chosen action at a time, each bracketed by accepted
 readbacks, and the measure that bounds how many of them are ever dispatched.
 */
module ProductionRuns {
  import opened Bytes
  import opened CreateGuards
  import opened Screenshots
  import opened Productions
  import opened ProductionGoals
  import opened ProductionPlans

  datatype Action =
    | CreateVersion | PatchCopyright | WriteText(locale: string) | PatchCategories | WriteInfoText(locale: string) | WritePrivate
    | CreateSet(place: Place) | Reserve(place: Place, index: nat) | Remove(place: Place, index: nat, id: Id)
    | Commit(place: Place, index: nat, id: Id) | SelectBuild | CreateReview | AddItem | Submit

  // ---------- next_action ----------

  predicate TextDiffers(target: map<string, Text>, actual: map<string, Entry>, l: string, fields: nat) {
    l in target && (l !in actual || exists f :: 0 <= f < fields && Field(actual[l].texts, f) != Field(target[l], f))
  }

  predicate TextsDone(target: map<string, Text>, actual: map<string, Entry>, fields: nat) {
    forall l :: l in target ==> !TextDiffers(target, actual, l, fields)
  }

  predicate CategoriesDone(s: Snapshot, i: AppInfo) {
    forall n :: 0 <= n < CATEGORIES ==> Category(i.categories, n) == Category(s.target.categories, n)
  }

  predicate IsSubmitted(c: Readback) {
    SelectedAt(c).Ok? && SelectedAt(c).value.Some? && Submitted(SelectedAt(c).value.value)
  }

  /** An unsubmitted, editable version: nothing else is ever written to. */
  predicate Editable(c: Readback) {
    c.version.Some? && !IsSubmitted(c) && c.version.value.state in ["PREPARE_FOR_SUBMISSION", "READY_FOR_REVIEW"]
  }

  predicate BeforeInfo(s: Snapshot, c: Readback) {
    Editable(c) && c.version.value.copyright == s.target.copyright
    && TextsDone(s.target.texts, Entries(c.version), VERSION_FIELDS) && c.info.Some?
  }

  predicate BeforeShots(s: Snapshot, c: Readback) {
    BeforeInfo(s, c) && CategoriesDone(s, c.info.value)
    && TextsDone(s.target.infoTexts, InfoEntries(c.info), INFO_FIELDS) && c.private == s.target.private
  }

  ghost predicate AfterShots(s: Snapshot, c: Readback) {
    BeforeShots(s, c) && forall place: Place :: PlanAt(s, c, place).Ok? ==> PlanAt(s, c, place).value.Final()
  }

  /** The first addition that is not complete yet stands at this index. */
  predicate Pending(p: Plan, index: nat) {
    index < |p.additions| && index <= |p.suffix|
    && (forall i :: 0 <= i < index ==> p.suffix[i].delivery.Complete?)
    && (index < |p.suffix| ==> !p.suffix[index].delivery.Complete?)
  }

  predicate PendingAt(s: Snapshot, c: Readback, place: Place, index: nat) {
    BeforeShots(s, c) && place in s.target.shots && PlanAt(s, c, place).Ok? && Pending(PlanAt(s, c, place).value, index)
  }

  function PathAt(s: Snapshot, c: Readback, place: Place, index: nat): string
    requires PendingAt(s, c, place, index)
  {
    s.target.shots[place][PlanAt(s, c, place).value.additions[index]].path
  }

  /** `next_action`, except that it may take the locales and sets of one kind in any order. */
  ghost predicate Chooses(s: Snapshot, c: Readback, replaced: set<string>, a: Action) {
    match a
    case CreateVersion => c.version.None?
    case PatchCopyright => Editable(c) && c.version.value.copyright != s.target.copyright
    case WriteText(l) =>
      Editable(c) && c.version.value.copyright == s.target.copyright
      && TextDiffers(s.target.texts, Entries(c.version), l, VERSION_FIELDS)
    case PatchCategories => BeforeInfo(s, c) && !CategoriesDone(s, c.info.value)
    case WriteInfoText(l) =>
      BeforeInfo(s, c) && CategoriesDone(s, c.info.value) && TextDiffers(s.target.infoTexts, InfoEntries(c.info), l, INFO_FIELDS)
    case WritePrivate =>
      BeforeInfo(s, c) && CategoriesDone(s, c.info.value)
      && TextsDone(s.target.infoTexts, InfoEntries(c.info), INFO_FIELDS) && c.private != s.target.private
    case CreateSet(place) => PendingAt(s, c, place, 0) && SetAt(c.version, place).None? && place.0 in c.version.value.locales
    case Reserve(place, index) =>
      PendingAt(s, c, place, index) && SetAt(c.version, place).Some? && index == |PlanAt(s, c, place).value.suffix|
    case Remove(place, index, id) =>
      && PendingAt(s, c, place, index)
      && var p := PlanAt(s, c, place).value;
         && index == |p.suffix| - 1 && p.suffix[index].id == id
         && (p.suffix[index].delivery.Failed? || p.suffix[index].delivery.AwaitingUpload?)
         && PathAt(s, c, place, index) !in replaced
    case Commit(place, index, id) =>
      && PendingAt(s, c, place, index)
      && var p := PlanAt(s, c, place).value;
         index < |p.suffix| && p.suffix[index].id == id && p.suffix[index].delivery.AwaitingUpload?
    case SelectBuild => AfterShots(s, c) && c.version.value.build != Some(s.target.build)
    case CreateReview => AfterShots(s, c) && c.version.value.build == Some(s.target.build) && SelectedAt(c) == Ok(None)
    case AddItem =>
      AfterShots(s, c) && c.version.value.build == Some(s.target.build)
      && SelectedAt(c).Ok? && SelectedAt(c).value.Some? && SelectedAt(c).value.value.items == []
    case Submit =>
      AfterShots(s, c) && c.version.value.build == Some(s.target.build)
      && SelectedAt(c).Ok? && SelectedAt(c).value.Some? && SelectedAt(c).value.value.items != []
  }

  /** The `complete` test that ends the action's polling. */
  predicate Completed(s: Snapshot, b: Readback, a: Action, c: Readback) {
    match a
    case CreateVersion => c.version.Some?
    case PatchCopyright => c.version.Some? && c.version.value.copyright == s.target.copyright
    case WriteText(l) => l in s.target.texts && !TextDiffers(s.target.texts, Entries(c.version), l, VERSION_FIELDS)
    case PatchCategories => c.info.Some? && CategoriesDone(s, c.info.value)
    case WriteInfoText(l) => l in s.target.infoTexts && !TextDiffers(s.target.infoTexts, InfoEntries(c.info), l, INFO_FIELDS)
    case WritePrivate => c.private == s.target.private
    case CreateSet(place) => SetAt(c.version, place).Some?
    case Reserve(place, index) =>
      PendingAt(s, b, place, index) && SetAt(c.version, place).Some?
      && var t := s.target.shots[place][PlanAt(s, b, place).value.additions[index]];
         exists i :: 0 <= i < |ShotsOf(SetAt(c.version, place))| && ShotsOf(SetAt(c.version, place))[i].fileName == t.fileName
    case Remove(place, _, id) => forall i :: 0 <= i < |ShotsOf(SetAt(c.version, place))| ==> ShotsOf(SetAt(c.version, place))[i].id != id
    case Commit(place, _, id) =>
      var shots := ShotsOf(SetAt(c.version, place));
      exists i :: 0 <= i < |shots| && shots[i].id == id && (shots[i].delivery.UploadComplete? || shots[i].delivery.Complete?)
    case SelectBuild => c.version.Some? && c.version.value.build == Some(s.target.build)
    case CreateReview => SelectedAt(c).Ok? && SelectedAt(c).value.Some?
    case AddItem => SelectedAt(c).Ok? && SelectedAt(c).value.Some? && |SelectedAt(c).value.value.items| == 1
    case Submit => IsSubmitted(c)
  }

  // ---------- every completed action closes a goal ----------

  ghost predicate Closes(s: Snapshot, b: Readback, c: Readback, g: Goal) {
    g in AllGoals(s) && Open(s, b, g) && !Open(s, c, g)
  }

  lemma FixedGoals(s: Snapshot)
    ensures {HasVersion, HasCopyright, HasPrivate, HasBuild, HasReview, HasItem, HasSubmitted} <= AllGoals(s)
  {
  }

  lemma PlainClosed(s: Snapshot, b: Readback, replaced: set<string>, a: Action, c: Readback) returns (g: Goal)
    requires Chooses(s, b, replaced, a) && Completed(s, b, a, c)
    requires a.CreateVersion? || a.PatchCopyright? || a.WritePrivate? || a.SelectBuild?
    ensures Closes(s, b, c, g)
  {
    FixedGoals(s);
    hide Selected, TextsDone, CategoriesDone, PlanSet, AllGoals;
    g := if a.CreateVersion? then HasVersion else if a.PatchCopyright? then HasCopyright
         else if a.WritePrivate? then HasPrivate else HasBuild;
  }

  lemma ReviewClosed(s: Snapshot, b: Readback, replaced: set<string>, a: Action, c: Readback) returns (g: Goal)
    requires Chooses(s, b, replaced, a) && Completed(s, b, a, c)
    requires a.CreateReview? || a.AddItem? || a.Submit?
    ensures Closes(s, b, c, g)
  {
    FixedGoals(s);
    hide Selected, TextsDone, CategoriesDone, PlanSet, Submitted, AllGoals;
    g := if a.CreateReview? then HasReview else if a.AddItem? then HasItem else HasSubmitted;
  }

  lemma DifferingField(target: map<string, Text>, actual: map<string, Entry>, l: string, fields: nat) returns (f: nat)
    requires fields > 0 && TextDiffers(target, actual, l, fields)
    ensures f < fields && (l !in actual || Field(actual[l].texts, f) != Field(target[l], f))
  {
    if l !in actual { f := 0; } else { f :| f < fields && Field(actual[l].texts, f) != Field(target[l], f); }
  }

  lemma TextClosed(s: Snapshot, b: Readback, replaced: set<string>, a: Action, c: Readback) returns (g: Goal)
    requires Chooses(s, b, replaced, a) && Completed(s, b, a, c)
    requires a.WriteText? || a.WriteInfoText? || a.PatchCategories?
    ensures Closes(s, b, c, g)
  {
    hide Selected, PlanSet, TextsDone;
    if a.WriteText? {
      var f := DifferingField(s.target.texts, Entries(b.version), a.locale, VERSION_FIELDS);
      g := HasText(a.locale, f);
    } else if a.WriteInfoText? {
      var f := DifferingField(s.target.infoTexts, InfoEntries(b.info), a.locale, INFO_FIELDS);
      g := HasInfoText(a.locale, f);
    } else {
      var n: nat :| n < CATEGORIES && Category(b.info.value.categories, n) != Category(s.target.categories, n);
      g := HasCategory(n);
    }
  }

  /** The name of an addition without a reservation is not shown anywhere in its set. */
  lemma NameIsAbsent(k: Case, now: Option<ShotSet>, x: nat, i: nat)
    requires PlanSet(k, now).Ok? && DistinctNames(k.targets)
    requires |PlanSet(k, now).value.suffix| <= x < |PlanSet(k, now).value.additions| && i < |ShotsOf(now)|
    ensures PlanSet(k, now).value.additions[x] < |k.targets|
    ensures ShotsOf(now)[i].fileName != k.targets[PlanSet(k, now).value.additions[x]].fileName
  {
    PlanParts(k, now);
    var p := PlanSet(k, now).value;
    var kept, shots := Kept(k, now), ShotsOf(now);
    NamesDoNotCollide(k, now, p.additions[x]);
    hide PlanSet, Additions, MatchCount;
    if i < |kept| {
      assert SameContent(shots[i], kept[i]);
    } else {
      var j := i - |kept|;
      assert p.suffix[j] == shots[i] && Reserves(p.suffix[j], k.targets[p.additions[j]]);
      assert p.additions[j] < p.additions[x];
    }
  }

  lemma NameIsReserved(k: Case, now: Option<ShotSet>, t: nat, i: nat)
    requires PlanSet(k, now).Ok? && DistinctNames(k.targets) && t < |k.targets|
    requires i < |ShotsOf(now)| && ShotsOf(now)[i].fileName == k.targets[t].fileName
    ensures !Unreserved(PlanSet(k, now).value, t)
  {
    var p := PlanSet(k, now).value;
    forall x | |p.suffix| <= x < |p.additions| ensures p.additions[x] != t { NameIsAbsent(k, now, x, i); }
    hide PlanSet, DistinctNames;
  }

  lemma NamesDoNotCollide(k: Case, now: Option<ShotSet>, t: nat)
    requires PlanSet(k, now).Ok? && t in PlanSet(k, now).value.additions
    ensures forall j :: 0 <= j < |Kept(k, now)| ==> Kept(k, now)[j].fileName != k.targets[t].fileName
  {
    var p := PlanSet(k, now).value;
    var x :| 0 <= x < |p.additions| && p.additions[x] == t;
    hide Additions, MatchCount, KeptIntact, Reserves;
  }

  lemma UnreservedAt(p: Plan, index: nat)
    requires |p.suffix| <= index < |p.additions|
    ensures Unreserved(p, p.additions[index])
  {
  }

  lemma ShotGoals(s: Snapshot, place: Place, t: nat)
    requires place in s.target.shots
    ensures HasSet(place) in AllGoals(s)
    ensures t < |s.target.shots[place]| ==> HasReservation(place, t) in AllGoals(s) && HasUpload(place, t) in AllGoals(s)
  {
  }

  lemma SetClosed(s: Snapshot, b: Readback, replaced: set<string>, place: Place, c: Readback)
    requires Chooses(s, b, replaced, CreateSet(place)) && Completed(s, b, CreateSet(place), c)
    ensures Closes(s, b, c, HasSet(place))
  {
    ShotGoals(s, place, 0);
    SetChosen(s, b, replaced, place, c);
    SetOpen(s, b, place);
    SetOpen(s, c, place);
    hide *;
    ClosesBy(s, b, c, HasSet(place));
  }

  lemma SetOpen(s: Snapshot, c: Readback, place: Place)
    ensures place in s.target.shots && PlanAt(s, c, place).Ok? && SetAt(c.version, place).None? && PlanAt(s, c, place).value.additions != []
            ==> Open(s, c, HasSet(place))
    ensures SetAt(c.version, place).Some? ==> !Open(s, c, HasSet(place))
  {
    hide PlanSet;
  }

  lemma SetChosen(s: Snapshot, b: Readback, replaced: set<string>, place: Place, c: Readback)
    requires Chooses(s, b, replaced, CreateSet(place)) && Completed(s, b, CreateSet(place), c)
    ensures place in s.target.shots && PlanAt(s, b, place).Ok? && PlanAt(s, b, place).value.additions != []
    ensures SetAt(b.version, place).None? && SetAt(c.version, place).Some?
  {
    hide PlanSet, BeforeShots;
  }

  lemma ReservationClosed(s: Snapshot, b: Readback, replaced: set<string>, place: Place, index: nat, c: Readback) returns (g: Goal)
    requires Prepared(s) && Chooses(s, b, replaced, Reserve(place, index)) && Completed(s, b, Reserve(place, index), c)
    requires PlanAt(s, c, place).Ok?
    ensures Closes(s, b, c, g)
  {
    hide BeforeShots, AllGoals, Unuploaded, PlanSet;
    var p := PlanAt(s, b, place).value;
    var t := p.additions[index];
    g := HasReservation(place, t);
    TargetInRange(s, b, place, index);
    ShotGoals(s, place, t);
    UnreservedAt(p, index);
    var shots := ShotsOf(SetAt(c.version, place));
    var i :| 0 <= i < |shots| && shots[i].fileName == s.target.shots[place][t].fileName;
    hide Unreserved;
    NameIsReserved(CaseAt(s, place), SetAt(c.version, place), t, i);
  }

  lemma TargetInRange(s: Snapshot, b: Readback, place: Place, index: nat)
    requires place in s.target.shots && PlanAt(s, b, place).Ok? && index < |PlanAt(s, b, place).value.additions|
    ensures PlanAt(s, b, place).value.additions[index] < |s.target.shots[place]|
  {
    PlanParts(CaseAt(s, place), SetAt(b.version, place));
  }

  /** Identities within one set are distinct: the readback is keyed by them. */
  predicate DistinctIds(shots: seq<Shot>) {
    forall i, j :: 0 <= i < j < |shots| ==> shots[i].id != shots[j].id
  }

  lemma CommitChosen(s: Snapshot, b: Readback, replaced: set<string>, a: Action)
    requires Chooses(s, b, replaced, a) && a.Commit?
    ensures a.place in s.target.shots && PlanAt(s, b, a.place).Ok?
    ensures var p := PlanAt(s, b, a.place).value;
            a.index < |p.suffix| && a.index < |p.additions| && p.suffix[a.index].id == a.id && p.suffix[a.index].delivery.AwaitingUpload?
  {
    hide PlanSet, BeforeShots;
  }

  /** A committed reservation keeps its identity and place while accepted readbacks follow, so its upload goal is closed. */
  lemma CommitClosed(s: Snapshot, b: Readback, place: Place, index: nat, id: Id, c: Readback) returns (g: Goal)
    requires Completed(s, b, Commit(place, index, id), c) && place in s.target.shots
    requires PlanAt(s, b, place).Ok? && PlanAt(s, c, place).Ok? && DistinctIds(ShotsOf(SetAt(c.version, place)))
    requires var p, q := PlanAt(s, b, place).value, PlanAt(s, c, place).value;
             && index < |p.suffix| && index < |p.additions| && p.suffix[index].id == id && p.suffix[index].delivery.AwaitingUpload?
             && q.additions == p.additions && |p.suffix| <= |q.suffix|
             && forall i :: 0 <= i < |p.suffix| ==> q.suffix[i].id == p.suffix[i].id
    ensures Closes(s, b, c, g)
  {
    hide *;
    TargetInRange(s, b, place, index);
    var p, q := PlanAt(s, b, place).value, PlanAt(s, c, place).value;
    var shots := ShotsOf(SetAt(c.version, place));
    var i := CommitShows(s, b, place, index, id, c);
    SuffixOf(s, c, place);
    CommittedIsUploaded(p, q, shots, index, i);
    UploadCloses(s, b, c, place, p.additions[index]);
    g := HasUpload(place, p.additions[index]);
  }

  lemma CommitShows(s: Snapshot, b: Readback, place: Place, index: nat, id: Id, c: Readback) returns (i: nat)
    requires Completed(s, b, Commit(place, index, id), c)
    ensures var shots := ShotsOf(SetAt(c.version, place));
            i < |shots| && shots[i].id == id && !shots[i].delivery.AwaitingUpload?
  {
    var shots := ShotsOf(SetAt(c.version, place));
    i :| 0 <= i < |shots| && shots[i].id == id && (shots[i].delivery.UploadComplete? || shots[i].delivery.Complete?);
  }

  lemma SuffixOf(s: Snapshot, c: Readback, place: Place)
    requires PlanAt(s, c, place).Ok?
    ensures var q, shots := PlanAt(s, c, place).value, ShotsOf(SetAt(c.version, place));
            && q.kept <= |shots| && q.suffix == shots[q.kept..] && |q.suffix| <= |q.additions|
            && forall x, y :: 0 <= x < y < |q.additions| ==> q.additions[x] < q.additions[y]
  {
    PlanParts(CaseAt(s, place), SetAt(c.version, place));
    hide PlanSet, KeptIntact, Reserves, Kept;
  }

  lemma UploadCloses(s: Snapshot, b: Readback, c: Readback, place: Place, t: nat)
    requires place in s.target.shots && t < |s.target.shots[place]| && PlanAt(s, b, place).Ok? && PlanAt(s, c, place).Ok?
    requires Unuploaded(PlanAt(s, b, place).value, t) && !Unuploaded(PlanAt(s, c, place).value, t)
    ensures Closes(s, b, c, HasUpload(place, t))
  {
    ShotGoals(s, place, t);
    UploadOpen(s, b, place, t);
    UploadOpen(s, c, place, t);
    hide *;
    assert HasUpload(place, t) in AllGoals(s) && Open(s, b, HasUpload(place, t)) && !Open(s, c, HasUpload(place, t));
    ClosesBy(s, b, c, HasUpload(place, t));
  }

  lemma ClosesBy(s: Snapshot, b: Readback, c: Readback, g: Goal)
    requires g in AllGoals(s) && Open(s, b, g) && !Open(s, c, g)
    ensures Closes(s, b, c, g)
  {
    hide AllGoals, Open;
  }

  lemma UploadOpen(s: Snapshot, c: Readback, place: Place, t: nat)
    requires place in s.target.shots && t < |s.target.shots[place]| && PlanAt(s, c, place).Ok?
    ensures Open(s, c, HasUpload(place, t)) <==> Unuploaded(PlanAt(s, c, place).value, t)
  {
    hide Unuploaded, PlanSet;
  }

  lemma CommittedIsUploaded(p: Plan, q: Plan, shots: seq<Shot>, index: nat, i: nat)
    requires q.additions == p.additions && |p.suffix| <= |q.suffix| <= |q.additions|
    requires forall x :: 0 <= x < |p.suffix| ==> q.suffix[x].id == p.suffix[x].id
    requires forall x, y :: 0 <= x < y < |q.additions| ==> q.additions[x] < q.additions[y]
    requires q.kept <= |shots| && q.suffix == shots[q.kept..] && DistinctIds(shots)
    requires index < |p.suffix| && p.suffix[index].delivery.AwaitingUpload?
    requires i < |shots| && shots[i].id == p.suffix[index].id && !shots[i].delivery.AwaitingUpload?
    ensures Unuploaded(p, p.additions[index]) && !Unuploaded(q, p.additions[index])
  {
    assert q.suffix[index] == shots[q.kept + index];
    assert i == q.kept + index;
  }

  // ---------- readbacks between two decisions ----------

  /** What `read` itself guarantees: identities within a set are distinct, and without a review detail the private value is blank. */
  ghost predicate WellRead(c: Readback) {
    && (forall place: Place :: DistinctIds(ShotsOf(SetAt(c.version, place))))
    && (c.version.None? || c.version.value.detail.None? ==> c.private == BLANK)
  }

  /** Successive validated readbacks. */
  ghost predicate Path(s: Snapshot, rs: seq<Readback>, removing: Option<Id>) {
    && rs != []
    && (forall i :: 0 <= i < |rs| ==> Accepts(s, rs[i]) && WellRead(rs[i]))
    && (forall i :: 0 <= i < |rs| - 1 ==> Progress(s, rs[i], rs[i + 1], removing))
  }

  function Last(rs: seq<Readback>): Readback
    requires rs != []
  {
    rs[|rs| - 1]
  }

  lemma PathFront(s: Snapshot, rs: seq<Readback>, removing: Option<Id>)
    requires Path(s, rs, removing) && |rs| > 1
    ensures Path(s, rs[..|rs| - 1], removing)
    ensures Accepts(s, Last(rs)) && Progress(s, Last(rs[..|rs| - 1]), Last(rs), removing)
  {
    hide Accepts, Progress, WellRead;
    var front := rs[..|rs| - 1];
    assert Progress(s, rs[|rs| - 2], rs[|rs| - 2 + 1], removing);
    forall i | 0 <= i < |front| - 1 ensures Progress(s, front[i], front[i + 1], removing) {
      assert Progress(s, rs[i], rs[i + 1], removing);
    }
  }

  lemma {:induction false} PathShrinks(s: Snapshot, rs: seq<Readback>)
    requires Path(s, rs, None)
    ensures OpenGoals(s, Last(rs)) <= OpenGoals(s, rs[0])
  {
    hide Accepts, Progress, WellRead, OpenGoals;
    if |rs| > 1 {
      PathFront(s, rs, None);
      PathShrinks(s, rs[..|rs| - 1]);
      assert Accepts(s, rs[|rs| - 2]);
      OpenGoalsShrink(s, rs[|rs| - 2], Last(rs));
    }
  }

  /** Along a path a set that shows something keeps its plan, and its reservations their identities. */
  ghost predicate Continues(s: Snapshot, b: Readback, c: Readback, place: Place)
    requires PlanAt(s, b, place).Ok?
  {
    PlanAt(s, c, place).Ok? && SetAt(c.version, place).Some? &&
    var p, q := PlanAt(s, b, place).value, PlanAt(s, c, place).value;
    && q.additions == p.additions && |p.suffix| <= |q.suffix|
    && forall i :: 0 <= i < |p.suffix| ==> q.suffix[i].id == p.suffix[i].id
  }

  lemma {:induction false} PathContinues(s: Snapshot, rs: seq<Readback>, place: Place)
    requires Path(s, rs, None) && ShotsOf(SetAt(rs[0].version, place)) != []
    ensures PlanAt(s, rs[0], place).Ok? && ShotsOf(SetAt(Last(rs).version, place)) != []
    ensures Continues(s, rs[0], Last(rs), place)
  {
    assert Accepts(s, rs[0]);
    if |rs| > 1 {
      PathFront(s, rs, None);
      PathContinues(s, rs[..|rs| - 1], place);
      StepContinues(s, rs[|rs| - 2], Last(rs), place);
      hide Path, Accepts, Progress, PlanSet;
    }
  }

  lemma StepContinues(s: Snapshot, b: Readback, c: Readback, place: Place)
    requires PlanAt(s, b, place).Ok? && Accepts(s, c) && Progress(s, b, c, None)
    requires ShotsOf(SetAt(b.version, place)) != [] && SetAt(b.version, place).Some?
    ensures Continues(s, b, c, place) && ShotsOf(SetAt(c.version, place)) != []
  {
    assert PlanAt(s, c, place).Ok?;
    assert SetAt(c.version, place).Some? && ShotsProgress(SetAt(b.version, place).value.shots, SetAt(c.version, place).value.shots, None);
    hide *;
    SetContinues(s, b, c, place);
  }

  lemma SetContinues(s: Snapshot, b: Readback, c: Readback, place: Place)
    requires PlanAt(s, b, place).Ok? && PlanAt(s, c, place).Ok? && ShotsOf(SetAt(b.version, place)) != []
    requires SetAt(b.version, place).Some? && SetAt(c.version, place).Some?
    requires ShotsProgress(SetAt(b.version, place).value.shots, SetAt(c.version, place).value.shots, None)
    ensures Continues(s, b, c, place) && ShotsOf(SetAt(c.version, place)) != []
  {
    var now, next := SetAt(b.version, place).value, SetAt(c.version, place).value;
    PlanContinues(CaseAt(s, place), now, next);
    assert Without(now.shots, None) == now.shots;
    hide PlanSet, Without, CaseAt, SetAt;
  }

  // ---------- the measure ----------

  datatype Round =
    | Waiting(path: seq<Readback>)
    | Writing(action: Action, path: seq<Readback>)
    | Replacing(action: Action, path: seq<Readback>, dispatched: bool)

  ghost predicate RoundFrom(s: Snapshot, c: Readback, replaced: set<string>, r: Round) {
    r.path != [] && r.path[0] == c &&
    match r
    case Waiting(path) => Path(s, path, None)
    case Writing(a, path) => Path(s, path, None) && !a.Remove? && Chooses(s, c, replaced, a) && Completed(s, c, a, Last(path))
    case Replacing(a, path, dispatched) =>
      a.Remove? && Path(s, path, Some(a.id)) && Chooses(s, c, replaced, a) && (dispatched ==> Completed(s, c, a, Last(path)))
  }

  ghost function ReplacedAfter(s: Snapshot, c: Readback, replaced: set<string>, r: Round): set<string>
    requires RoundFrom(s, c, replaced, r)
  {
    if r.Replacing? then replaced + {PathAt(s, c, r.action.place, r.action.index)} else replaced
  }

  function Dispatched(r: Round): nat {
    if r.Writing? || (r.Replacing? && r.dispatched) then 1 else 0
  }

  function ReplacementPaths(s: Snapshot): set<string> {
    set place, t | place in s.target.shots && 0 <= t < |s.target.shots[place]| :: s.target.shots[place][t].path
  }

  /** Unused replacements first, then the goals still open. */
  function Weight(s: Snapshot, c: Readback, replaced: set<string>): nat {
    Measure(|ReplacementPaths(s) - replaced|, |AllGoals(s)|, |OpenGoals(s, c)|)
  }

  function Measure(unused: nat, all: nat, open: nat): nat {
    unused * (all + 1) + open
  }

  lemma {:induction false} GoalSubset(a: set<Goal>, b: set<Goal>)
    requires a <= b
    ensures |a| <= |b| && (a != b ==> |a| < |b|)
  {
    if a != {} {
      var x :| x in a;
      GoalSubset(a - {x}, b - {x});
      assert a == (a - {x}) + {x} && b == (b - {x}) + {x};
    }
  }

  lemma OpenBound(s: Snapshot, c: Readback)
    ensures |OpenGoals(s, c)| <= |AllGoals(s)|
  {
    hide AllGoals, Open;
    GoalSubset(OpenGoals(s, c), AllGoals(s));
  }

  lemma WritingCloses(s: Snapshot, c: Readback, replaced: set<string>, a: Action, path: seq<Readback>)
    requires Prepared(s) && RoundFrom(s, c, replaced, Writing(a, path))
    ensures exists g :: Closes(s, c, Last(path), g)
  {
    assert Accepts(s, Last(path)) && WellRead(Last(path));
    hide AllGoals, Open, Accepts;
    if a.CreateVersion? || a.PatchCopyright? || a.WritePrivate? || a.SelectBuild? { var g := PlainClosed(s, c, replaced, a, Last(path)); }
    else if a.CreateReview? || a.AddItem? || a.Submit? { var g := ReviewClosed(s, c, replaced, a, Last(path)); }
    else if a.WriteText? || a.WriteInfoText? || a.PatchCategories? { var g := TextClosed(s, c, replaced, a, Last(path)); }
    else if a.CreateSet? { SetClosed(s, c, replaced, a.place, Last(path)); }
    else if a.Reserve? { PlansOk(s, Last(path), a.place); var g := ReservationClosed(s, c, replaced, a.place, a.index, Last(path)); }
    else { PlansOk(s, Last(path), a.place); CommitCloses(s, c, replaced, a, path); }
  }

  lemma PlansOk(s: Snapshot, c: Readback, place: Place)
    requires Accepts(s, c)
    ensures PlanAt(s, c, place).Ok?
  {
  }

  lemma CommitCloses(s: Snapshot, c: Readback, replaced: set<string>, a: Action, path: seq<Readback>)
    requires RoundFrom(s, c, replaced, Writing(a, path)) && a.Commit?
    ensures exists g :: Closes(s, c, Last(path), g)
  {
    assert WellRead(Last(path));
    CommitChosen(s, c, replaced, a);
    PlanParts(CaseAt(s, a.place), SetAt(c.version, a.place));
    hide AllGoals, Open, Accepts, PlanSet, Chooses, Completed, Path;
    PathContinues(s, path, a.place);
    var g := CommitClosed(s, c, a.place, a.index, a.id, Last(path));
  }

  lemma {:induction false} Product(used: nat, unused: nat, m: nat)
    requires used + 1 <= unused
    ensures used * m + m <= unused * m
    decreases unused
  {
    assert unused * m == (unused - 1) * m + m;
    if used + 1 < unused { Product(used, unused - 1, m); }
  }

  lemma RoundDrops(s: Snapshot, c: Readback, replaced: set<string>, r: Round)
    requires Prepared(s) && RoundFrom(s, c, replaced, r)
    ensures Weight(s, Last(r.path), ReplacedAfter(s, c, replaced, r)) + Dispatched(r) <= Weight(s, c, replaced)
  {
    var end := Last(r.path);
    if r.Replacing? {
      ReplacingDrops(s, c, replaced, r.action.place, r.action.index, end);
      hide Weight, Path, Chooses, Completed, PendingAt, PathAt;
    } else {
      PathShrinks(s, r.path);
      GoalSubset(OpenGoals(s, end), OpenGoals(s, c));
      if r.Writing? { WritingShrinks(s, c, replaced, r.action, r.path); }
      hide Open, AllGoals, OpenGoals, Path, Chooses, Completed, ReplacementPaths;
    }
  }

  lemma WritingShrinks(s: Snapshot, c: Readback, replaced: set<string>, a: Action, path: seq<Readback>)
    requires Prepared(s) && RoundFrom(s, c, replaced, Writing(a, path))
    ensures OpenGoals(s, Last(path)) != OpenGoals(s, c)
  {
    WritingCloses(s, c, replaced, a, path);
    var g :| Closes(s, c, Last(path), g);
    hide Open, AllGoals, RoundFrom, Prepared;
    assert g in OpenGoals(s, c) && g !in OpenGoals(s, Last(path));
  }

  lemma ReplacingDrops(s: Snapshot, c: Readback, replaced: set<string>, place: Place, index: nat, end: Readback)
    requires PendingAt(s, c, place, index) && PathAt(s, c, place, index) !in replaced
    ensures Weight(s, end, replaced + {PathAt(s, c, place, index)}) + 1 <= Weight(s, c, replaced)
  {
    OpenBound(s, end);
    PathIsReplacement(s, c, place, index);
    hide OpenGoals, AllGoals, PendingAt, PathAt, ReplacementPaths, Measure;
    ReplacementCounts(ReplacementPaths(s), replaced, PathAt(s, c, place, index), |AllGoals(s)|, |OpenGoals(s, c)|, |OpenGoals(s, end)|);
  }

  lemma ReplacementCounts(paths: set<string>, replaced: set<string>, path: string, all: nat, before: nat, after: nat)
    requires path in paths && path !in replaced && after <= all
    ensures Measure(|paths - (replaced + {path})|, all, after) + 1 <= Measure(|paths - replaced|, all, before)
  {
    var unused := paths - replaced;
    assert paths - (replaced + {path}) == unused - {path};
    Product(|unused - {path}|, |unused|, all + 1);
  }

  lemma PathIsReplacement(s: Snapshot, c: Readback, place: Place, index: nat)
    requires PendingAt(s, c, place, index)
    ensures PathAt(s, c, place, index) in ReplacementPaths(s)
  {
    TargetInRange(s, c, place, index);
    hide PlanSet, BeforeShots;
  }

  ghost predicate Rounds(s: Snapshot, c: Readback, replaced: set<string>, rs: seq<Round>)
    decreases |rs|
  {
    rs == [] || (RoundFrom(s, c, replaced, rs[0]) && Rounds(s, Last(rs[0].path), ReplacedAfter(s, c, replaced, rs[0]), rs[1..]))
  }

  function Dispatches(rs: seq<Round>): nat {
    if rs == [] then 0 else Dispatched(rs[0]) + Dispatches(rs[1..])
  }

  lemma {:induction false} DispatchesDrop(s: Snapshot, c: Readback, replaced: set<string>, rs: seq<Round>)
    requires Prepared(s) && Rounds(s, c, replaced, rs)
    ensures Dispatches(rs) <= Weight(s, c, replaced)
    decreases |rs|
  {
    assert rs != [] ==> rs[0].path != [];
    hide RoundFrom, Weight, Prepared, ReplacedAfter;
    if rs != [] {
      RoundDrops(s, c, replaced, rs[0]);
      DispatchesDrop(s, Last(rs[0].path), ReplacedAfter(s, c, replaced, rs[0]), rs[1..]);
    }
  }

  /**
   Main result: whatever the Store answers, the completed mutations of a run are bounded by the weight of its
   first accepted readback, hence by the prepared snapshot alone.
   */
  lemma {:induction false} DispatchesAreBounded(s: Snapshot, c: Readback, replaced: set<string>, rs: seq<Round>)
    requires Prepared(s) && Rounds(s, c, replaced, rs)
    ensures Dispatches(rs) <= Weight(s, c, replaced) <= (|ReplacementPaths(s)| + 1) * (|AllGoals(s)| + 1)
  {
    DispatchesDrop(s, c, replaced, rs);
    WeightBound(s, c, replaced);
    hide *;
  }

  lemma WeightBound(s: Snapshot, c: Readback, replaced: set<string>)
    ensures Weight(s, c, replaced) <= (|ReplacementPaths(s)| + 1) * (|AllGoals(s)| + 1)
  {
    OpenBound(s, c);
    hide OpenGoals, AllGoals, ReplacementPaths;
    PathSubset(ReplacementPaths(s) - replaced, ReplacementPaths(s));
    var u, v, n := |ReplacementPaths(s) - replaced|, |ReplacementPaths(s)|, |AllGoals(s)|;
    assert u * (n + 1) <= v * (n + 1);
    assert (v + 1) * (n + 1) == v * (n + 1) + (n + 1);
  }

  lemma {:induction false} PathSubset(a: set<string>, b: set<string>)
    requires a <= b
    ensures |a| <= |b|
  {
    if a != {} {
      var x :| x in a;
      PathSubset(a - {x}, b - {x});
    }
  }
}
