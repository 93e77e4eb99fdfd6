/**
 The distance of a readback from the target, as the set of goals still open, and
 the action that the reconciler chooses next.
 */
module ProductionGoals {
  import opened Bytes
  import opened CreateGuards
  import opened Screenshots
  import opened Productions

  datatype Goal =
    | HasVersion | HasCopyright | HasText(locale: string, field: nat) | HasInfoText(locale: string, field: nat)
    | HasCategory(index: nat) | HasPrivate | HasSet(place: Place) | HasReservation(place: Place, target: nat)
    | HasUpload(place: Place, target: nat) | HasBuild | HasReview | HasItem | HasSubmitted

  function AllGoals(s: Snapshot): set<Goal> {
    {HasVersion, HasCopyright, HasPrivate, HasBuild, HasReview, HasItem, HasSubmitted}
    + (set l, f | l in s.target.texts && 0 <= f < VERSION_FIELDS :: HasText(l, f))
    + (set l, f | l in s.target.infoTexts && 0 <= f < INFO_FIELDS :: HasInfoText(l, f))
    + (set i | 0 <= i < CATEGORIES :: HasCategory(i))
    + (set p | p in s.target.shots :: HasSet(p))
    + (set p, t | p in s.target.shots && 0 <= t < |s.target.shots[p]| :: HasReservation(p, t))
    + (set p, t | p in s.target.shots && 0 <= t < |s.target.shots[p]| :: HasUpload(p, t))
  }

  /** Target t is an addition of this plan and its reservation is not there yet. */
  predicate Unreserved(p: Plan, t: nat) {
    exists i :: |p.suffix| <= i < |p.additions| && p.additions[i] == t
  }

  predicate Unuploaded(p: Plan, t: nat) {
    exists i :: 0 <= i < |p.additions| && p.additions[i] == t && (i >= |p.suffix| || p.suffix[i].delivery.AwaitingUpload?)
  }

  predicate OpenText(v: Option<AppVersion>, target: map<string, Text>, l: string, f: nat) {
    l in target && f < VERSION_FIELDS
    && (v.None? || l !in v.value.locales || Field(v.value.locales[l].entry.texts, f) != Field(target[l], f))
  }

  predicate OpenInfoText(i: Option<AppInfo>, target: map<string, Text>, l: string, f: nat) {
    l in target && f < INFO_FIELDS
    && (i.None? || l !in i.value.locales || Field(i.value.locales[l].texts, f) != Field(target[l], f))
  }

  predicate OpenAt(s: Snapshot, c: Readback, place: Place, g: Goal)
    requires g.HasSet? || g.HasReservation? || g.HasUpload?
  {
    place in s.target.shots && PlanAt(s, c, place).Ok? &&
    var p := PlanAt(s, c, place).value;
    if g.HasSet? then SetAt(c.version, place).None? && p.additions != []
    else if g.HasReservation? then Unreserved(p, g.target)
    else Unuploaded(p, g.target)
  }

  predicate Open(s: Snapshot, c: Readback, g: Goal) {
    match g
    case HasVersion => c.version.None?
    case HasCopyright => c.version.None? || c.version.value.copyright != s.target.copyright
    case HasText(l, f) => OpenText(c.version, s.target.texts, l, f)
    case HasInfoText(l, f) => OpenInfoText(c.info, s.target.infoTexts, l, f)
    case HasCategory(i) =>
      i < CATEGORIES && (c.info.None? || Category(c.info.value.categories, i) != Category(s.target.categories, i))
    case HasPrivate => c.private != s.target.private
    case HasSet(place) => OpenAt(s, c, place, g)
    case HasReservation(place, _) => OpenAt(s, c, place, g)
    case HasUpload(place, _) => OpenAt(s, c, place, g)
    case HasBuild => c.version.None? || c.version.value.build != Some(s.target.build)
    case HasReview => !(SelectedAt(c).Ok? && SelectedAt(c).value.Some?)
    case HasItem => !(SelectedAt(c).Ok? && SelectedAt(c).value.Some? && SelectedAt(c).value.value.items != [])
    case HasSubmitted => !(SelectedAt(c).Ok? && SelectedAt(c).value.Some? && Submitted(SelectedAt(c).value.value))
  }

  function OpenGoals(s: Snapshot, c: Readback): set<Goal> {
    set g | g in AllGoals(s) && Open(s, c, g)
  }

  // ---------- readbacks never reopen a goal ----------

  lemma ReviewOrderMonotone(b: string, c: string)
    requires MayMove(REVIEW_ORDER, b, c) && b in ["WAITING_FOR_REVIEW", "IN_REVIEW", "COMPLETING", "COMPLETE"]
    ensures c in ["WAITING_FOR_REVIEW", "IN_REVIEW", "COMPLETING", "COMPLETE"]
  {
    var i, j :| 0 <= i <= j < |REVIEW_ORDER| && REVIEW_ORDER[i] == b && REVIEW_ORDER[j] == c;
    assert i >= 1;
  }

  lemma ReviewGoalsStay(s: Snapshot, b: Readback, c: Readback, g: Goal)
    requires SelectedAt(b).Ok? && SelectedAt(c).Ok? && ReviewProgress(SelectedAt(b).value, SelectedAt(c).value)
    requires g.HasReview? || g.HasItem? || g.HasSubmitted?
    ensures Open(s, c, g) ==> Open(s, b, g)
  {
    hide Selected;
    var before, after := SelectedAt(b).value, SelectedAt(c).value;
    if before.Some? {
      if before.value.items != [] {
        assert exists j :: 0 <= j < |after.value.items| && ItemProgress(before.value.items[0], after.value.items[j]);
      }
      if Submitted(before.value) {
        ReviewOrderMonotone(before.value.state, after.value.state);
        SelectedSize(c);
      }
    }
  }

  lemma SelectedSize(c: Readback)
    requires SelectedAt(c).Ok? && SelectedAt(c).value.Some? && SelectedAt(c).value.value.state != "READY_FOR_REVIEW"
    ensures |SelectedAt(c).value.value.items| == 1
  {
  }

  lemma TextGoalsStay(s: Snapshot, b: Readback, c: Readback, g: Goal)
    requires b.version.Some? ==> c.version.Some? && VersionProgress(s, b.version.value, c.version.value)
    requires b.info.Some? ==> c.info.Some? && InfoProgress(s, b.info.value, c.info.value)
    requires g.HasText? || g.HasInfoText? || g.HasVersion? || g.HasCopyright? || g.HasBuild? || g.HasCategory?
    requires c.version.Some? ==> c.version.value.build.None? || c.version.value.build == Some(s.target.build)
    ensures Open(s, c, g) ==> Open(s, b, g)
  {
    hide MayMove;
    if g.HasText? && b.version.Some? && g.locale in s.target.texts && g.field < VERSION_FIELDS && g.locale in b.version.value.locales {
      assert g.locale in Entries(b.version);
      assert FieldAccepted(Entries(b.version), s.target.texts, g.locale, true, g.field, Field(Entries(c.version)[g.locale].texts, g.field));
    }
    if g.HasInfoText? && b.info.Some? && g.locale in s.target.infoTexts && g.field < INFO_FIELDS && g.locale in b.info.value.locales {
      assert FieldAccepted(InfoEntries(b.info), s.target.infoTexts, g.locale, true, g.field, Field(c.info.value.locales[g.locale].texts, g.field));
    }
  }

  // ---------- screenshot plans along progress ----------

  /** What one accepted set can turn into while nothing is being removed. */
  ghost predicate PlanGrows(p: Plan, q: Plan) {
    && (forall t :: Unreserved(q, t) ==> Unreserved(p, t)) && (forall t :: Unuploaded(q, t) ==> Unuploaded(p, t))
    && (q.additions != [] ==> p.additions != [])
  }

  /** Once a set shows anything, its kept list is decided and its reservations only grow. */
  lemma PlanContinues(k: Case, b: ShotSet, c: ShotSet)
    requires PlanSet(k, Some(b)).Ok? && PlanSet(k, Some(c)).Ok?
    requires ShotsProgress(b.shots, c.shots, None) && b.shots != []
    ensures var p, q := PlanSet(k, Some(b)).value, PlanSet(k, Some(c)).value;
            && Kept(k, Some(b)) == Kept(k, Some(c)) && q.additions == p.additions && |p.suffix| <= |q.suffix|
            && forall i :: 0 <= i < |p.suffix| ==> ShotProgress(p.suffix[i], q.suffix[i])
  {
    hide *;
    var p, q := PlanSet(k, Some(b)).value, PlanSet(k, Some(c)).value;
    SameKept(k, b, c);
    PlanParts(k, Some(b));
    PlanParts(k, Some(c));
    ShownShots(Some(b), b);
    ShownShots(Some(c), c);
    SuffixContinues(b.shots, c.shots, p.kept);
  }

  lemma ShownShots(now: Option<ShotSet>, b: ShotSet)
    requires now == Some(b)
    ensures ShotsOf(now) == b.shots
  {
  }

  lemma SuffixContinues(b: seq<Shot>, c: seq<Shot>, kept: nat)
    requires kept <= |b| <= |c| && forall i :: 0 <= i < |b| ==> ShotProgress(b[i], c[i])
    ensures |b[kept..]| <= |c[kept..]| && forall i :: 0 <= i < |b[kept..]| ==> ShotProgress(b[kept..][i], c[kept..][i])
  {
    hide ShotProgress;
    forall i | 0 <= i < |b[kept..]| ensures ShotProgress(b[kept..][i], c[kept..][i]) {
      assert ShotProgress(b[kept + i], c[kept + i]);
    }
  }

  lemma SameKept(k: Case, b: ShotSet, c: ShotSet)
    requires ShotsProgress(b.shots, c.shots, None) && b.shots != []
    ensures Kept(k, Some(b)) == Kept(k, Some(c))
    ensures |b.shots| <= |c.shots| && forall i :: 0 <= i < |b.shots| ==> ShotProgress(b.shots[i], c.shots[i])
  {
    assert Without(b.shots, None) == b.shots;
    hide Without;
    assert ShotProgress(b.shots[0], c.shots[0]);
  }

  lemma ContinuedGrows(p: Plan, q: Plan)
    requires q.additions == p.additions && |p.suffix| <= |q.suffix|
    requires forall i :: 0 <= i < |p.suffix| ==> ShotProgress(p.suffix[i], q.suffix[i])
    ensures PlanGrows(p, q)
  {
    forall t | Unuploaded(q, t) ensures Unuploaded(p, t) {
      var i :| 0 <= i < |q.additions| && q.additions[i] == t && (i >= |q.suffix| || q.suffix[i].delivery.AwaitingUpload?);
      if i < |p.suffix| { assert ShotProgress(p.suffix[i], q.suffix[i]); }
      assert p.additions[i] == t;
    }
    forall t | Unreserved(q, t) ensures Unreserved(p, t) {
      var i :| |q.suffix| <= i < |q.additions| && q.additions[i] == t;
      assert p.additions[i] == t;
    }
  }

  /** From an empty or missing set any accepted set is progress: its additions are among those planned before. */
  lemma EmptyGrows(k: Case, now: Option<ShotSet>, c: Option<ShotSet>)
    requires PlanSet(k, now).Ok? && PlanSet(k, c).Ok? && ShotsOf(now) == []
    ensures PlanGrows(PlanSet(k, now).value, PlanSet(k, c).value)
  {
    PlanParts(k, now);
    PlanParts(k, c);
    var p, q := PlanSet(k, now).value, PlanSet(k, c).value;
    hide PlanSet, MatchCount, Reserves, KeptIntact;
    forall t | t in q.additions ensures t in p.additions {
      EveryTargetIsShown(Kept(k, now), k.targets, t);
      EveryTargetIsShown(Kept(k, c), k.targets, t);
      EmptyKept(k, now, c, t);
    }
    hide Additions, Kept;
    MembersGrow(p, q);
  }

  lemma EmptyKept(k: Case, now: Option<ShotSet>, c: Option<ShotSet>, t: nat)
    requires t < |k.targets| && ShotsOf(now) == [] && MatchCount(Kept(k, c), k.targets[t]) == 0
    ensures MatchCount(Kept(k, now), k.targets[t]) == 0
  {
  }

  lemma MembersGrow(p: Plan, q: Plan)
    requires p.suffix == [] && forall t :: t in q.additions ==> t in p.additions
    ensures PlanGrows(p, q)
  {
    forall t | Unuploaded(q, t) || Unreserved(q, t) ensures Unuploaded(p, t) && Unreserved(p, t) {
      assert t in q.additions;
      var i :| 0 <= i < |p.additions| && p.additions[i] == t;
    }
    if q.additions != [] { assert q.additions[0] in q.additions; }
  }

  lemma ShotGoalsStay(s: Snapshot, b: Readback, c: Readback, g: Goal)
    requires g.HasSet? || g.HasReservation? || g.HasUpload?
    requires PlanAt(s, b, g.place).Ok? && PlanAt(s, c, g.place).Ok?
    requires SetAt(b.version, g.place).Some? ==>
               SetAt(c.version, g.place).Some? && ShotsProgress(SetAt(b.version, g.place).value.shots, SetAt(c.version, g.place).value.shots, None)
    ensures Open(s, c, g) ==> Open(s, b, g)
  {
    var k, now, next := CaseAt(s, g.place), SetAt(b.version, g.place), SetAt(c.version, g.place);
    hide PlanSet, Unreserved, Unuploaded, CaseAt, ShotsProgress;
    if ShotsOf(now) == [] {
      EmptyGrows(k, now, next);
    } else {
      PlanContinues(k, now.value, next.value);
      ContinuedGrows(PlanSet(k, now).value, PlanSet(k, next).value);
    }
  }

  /** Main step: while nothing is being removed, an accepted readback opens no goal that was closed before it. */
  lemma GoalsStayClosed(s: Snapshot, b: Readback, c: Readback, g: Goal)
    requires Accepts(s, b) && Accepts(s, c) && Progress(s, b, c, None)
    ensures Open(s, c, g) ==> Open(s, b, g)
  {
    if g.HasReview? || g.HasItem? || g.HasSubmitted? {
      ReviewGoalsStay(s, b, c, g);
    } else if g.HasSet? || g.HasReservation? || g.HasUpload? {
      ShotGoalsStay(s, b, c, g);
    } else if !g.HasPrivate? {
      TextGoalsStay(s, b, c, g);
    }
  }

  lemma OpenGoalsShrink(s: Snapshot, b: Readback, c: Readback)
    requires Accepts(s, b) && Accepts(s, c) && Progress(s, b, c, None)
    ensures OpenGoals(s, c) <= OpenGoals(s, b)
  {
    hide AllGoals, Open, Accepts, Progress;
    forall g | g in OpenGoals(s, c) ensures g in OpenGoals(s, b) {
      GoalsStayClosed(s, b, c, g);
    }
  }
}
