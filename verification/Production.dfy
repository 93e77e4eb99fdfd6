/**
 The Apple production reconciler: what a full readback contains, which readbacks
 are accepted against the prepared snapshot, and which may follow each other.
 */
module Productions {
  import opened Bytes
  import opened CreateGuards
  import opened Screenshots

  // ---------- data ----------

  type Text = seq<string>
  const VERSION_FIELDS: nat := 6
  const INFO_FIELDS: nat := 5
  const CATEGORIES: nat := 6

  /** A field of a text record; fields beyond the record read as empty. */
  function Field(t: Text, f: nat): string {
    if f < |t| then t[f] else ""
  }

  function Category(cs: seq<Option<string>>, i: nat): Option<string> {
    if i < |cs| then cs[i] else None
  }

  datatype Entry = Entry(id: Id, texts: Text)
  datatype VersionText = VersionText(entry: Entry, sets: map<string, ShotSet>)

  /** `proper` is app, platform, version string, MANUAL release and no date, which never vary here. */
  datatype AppVersion = AppVersion(
    id: Id, proper: bool, state: string, build: Option<Id>, copyright: string,
    locales: map<string, VersionText>, detail: Option<Id>, phased: Option<string>)

  datatype AppInfo = AppInfo(id: Id, state: string, categories: seq<Option<string>>, locales: map<string, Entry>)
  datatype ReviewItem = ReviewItem(id: Id, state: string, resource: (string, Id))
  datatype Review = Review(id: Id, state: string, ios: bool, items: seq<ReviewItem>)
  datatype Reference = Reference(live: Option<AppVersion>, info: Option<AppInfo>, unrelated: string)

  datatype Readback = Readback(
    version: Option<AppVersion>, info: Option<AppInfo>, reference: Reference, reviews: seq<Review>,
    private: string, livePrivate: Option<string>)

  /** The private value `private_record` gives a version that has no review detail. */
  const BLANK: string := ""

  type Place = (string, string)

  datatype Target = Target(
    copyright: string, texts: map<string, Text>, categories: seq<Option<string>>, infoTexts: map<string, Text>,
    shots: map<Place, seq<TargetShot>>, build: Id, private: string)

  datatype Snapshot = Snapshot(before: Readback, target: Target, nonce: string, digest: string)

  // ---------- transition tables ----------

  const VERSION_ORDER := ["PREPARE_FOR_SUBMISSION", "READY_FOR_REVIEW", "WAITING_FOR_REVIEW", "IN_REVIEW", "ACCEPTED",
                          "PENDING_DEVELOPER_RELEASE"]
  const INFO_ORDER := ["PREPARE_FOR_SUBMISSION", "READY_FOR_REVIEW", "WAITING_FOR_REVIEW", "IN_REVIEW", "ACCEPTED",
                       "PENDING_RELEASE"]
  const REVIEW_ORDER := ["READY_FOR_REVIEW", "WAITING_FOR_REVIEW", "IN_REVIEW", "COMPLETING", "COMPLETE"]
  const ITEM_ORDER := ["READY_FOR_REVIEW", "ACCEPTED", "APPROVED"]

  /** Each table lists, for a state, that state and every later one. */
  predicate MayMove(order: seq<string>, before: string, after: string) {
    exists i, j :: 0 <= i <= j < |order| && order[i] == before && order[j] == after
  }

  predicate DeliveryMayMove(before: Delivery, after: Delivery) {
    match before
    case AwaitingUpload => !after.OtherDelivery?
    case UploadComplete => after.UploadComplete? || after.Complete? || after.Failed?
    case Complete => after.Complete?
    case Failed => after.Failed?
    case OtherDelivery => false
  }

  // ---------- localizations ----------

  function Entries(v: Option<AppVersion>): map<string, Entry> {
    if v.None? then map[] else map l | l in v.value.locales :: v.value.locales[l].entry
  }

  function InfoEntries(i: Option<AppInfo>): map<string, Entry> {
    if i.None? then map[] else i.value.locales
  }

  predicate FieldAccepted(baseline: map<string, Entry>, target: map<string, Text>, l: string, fixed: bool, f: nat, v: string)
    requires l in target
  {
    || v == Field(target[l], f)
    || (l in baseline && v == Field(baseline[l].texts, f))
    || (v == "" && !(fixed && l in baseline))
  }

  /** `localization_phase!` without its verdict. */
  predicate TextsAccepted(baseline: map<string, Entry>, target: map<string, Text>, actual: map<string, Entry>, fields: nat, fixed: bool) {
    && (forall l :: l in actual ==> l in target)
    && (fixed ==> forall l :: l in baseline ==> l in actual)
    && (forall l :: l in actual ==>
          && (fixed && l in baseline ==> actual[l].id == baseline[l].id)
          && forall f :: 0 <= f < fields ==> FieldAccepted(baseline, target, l, fixed, f, Field(actual[l].texts, f)))
  }

  // ---------- screenshots ----------

  function SetAt(v: Option<AppVersion>, place: Place): Option<ShotSet> {
    if v.Some? && place.0 in v.value.locales && place.1 in v.value.locales[place.0].sets
    then Some(v.value.locales[place.0].sets[place.1]) else None
  }

  function Base(s: Snapshot): Option<AppVersion> {
    if s.before.version.Some? then s.before.version else s.before.reference.live
  }

  function TargetsAt(s: Snapshot, place: Place): seq<TargetShot> {
    if place in s.target.shots then s.target.shots[place] else []
  }

  function CaseAt(s: Snapshot, place: Place): Case {
    Case(s.before.version.Some?, s.nonce, SetAt(Base(s), place), TargetsAt(s, place))
  }

  function PlanAt(s: Snapshot, c: Readback, place: Place): Result<Plan> {
    PlanSet(CaseAt(s, place), SetAt(c.version, place))
  }

  ghost predicate PlansAccepted(s: Snapshot, c: Readback) {
    && (forall place: Place :: SetAt(c.version, place).Some? ==> SetAt(Base(s), place).Some? || place in s.target.shots)
    && (s.before.version.Some? ==> forall place: Place :: SetAt(Base(s), place).Some? ==> SetAt(c.version, place).Some?)
    && (forall place: Place :: PlanAt(s, c, place).Ok?)
  }

  // ---------- review submissions ----------

  function VersionId(c: Readback): Option<Id> {
    if c.version.Some? then Some(c.version.value.id) else None
  }

  predicate Points(item: ReviewItem, version: Option<Id>) {
    version.Some? && item.resource == ("appStoreVersions", version.value)
  }

  predicate Matching(r: Review, version: Option<Id>) {
    r.ios && (r.state != "COMPLETE" || exists i :: 0 <= i < |r.items| && Points(r.items[i], version))
  }

  function MatchingReviews(rs: seq<Review>, version: Option<Id>): (m: seq<Review>)
    ensures forall r :: r in m ==> r in rs && Matching(r, version)
  {
    if rs == [] then []
    else
      var front := MatchingReviews(rs[..|rs| - 1], version);
      if Matching(rs[|rs| - 1], version) then front + [rs[|rs| - 1]] else front
  }

  /** `selected_submission`: the one open or intended submission, if its membership is safe. */
  function Selected(rs: seq<Review>, version: Option<Id>): Result<Option<Review>> {
    var m := MatchingReviews(rs, version);
    if |m| > 1 then Rejected
    else if m == [] then Ok(None)
    else
      var r := m[0];
      if r.state !in REVIEW_ORDER then Rejected
      else if r.items == [] && r.state == "READY_FOR_REVIEW" then Ok(Some(r))
      else if |r.items| == 1 && Points(r.items[0], version) && r.items[0].state in ITEM_ORDER then Ok(Some(r))
      else Rejected
  }

  function SelectedAt(c: Readback): Result<Option<Review>> {
    Selected(c.reviews, VersionId(c))
  }

  function Others(rs: seq<Review>, selected: Option<Review>): seq<Review> {
    if rs == [] then []
    else
      var front := Others(rs[..|rs| - 1], selected);
      if selected.Some? && rs[|rs| - 1].id == selected.value.id then front else front + [rs[|rs| - 1]]
  }

  predicate SameMembers(a: seq<ReviewItem>, b: seq<ReviewItem>) {
    |a| == |b| && forall i :: 0 <= i < |a| ==> a[i].id == b[i].id && a[i].resource == b[i].resource
  }

  predicate ReviewAccepted(s: Snapshot, c: Readback) {
    && SelectedAt(s.before).Ok? && SelectedAt(c).Ok?
    && var prior, actual := SelectedAt(s.before).value, SelectedAt(c).value;
       && Others(s.before.reviews, prior) == Others(c.reviews, actual)
       && (prior.Some? ==>
             && actual.Some? && actual.value.id == prior.value.id
             && MayMove(REVIEW_ORDER, prior.value.state, actual.value.state)
             && (prior.value.items != [] ==> SameMembers(actual.value.items, prior.value.items)))
       && (actual.Some? && actual.value.state == "COMPLETE" ==> actual.value.items[0].state == "APPROVED")
  }

  predicate Submitted(r: Review) {
    r.state in ["WAITING_FOR_REVIEW", "IN_REVIEW", "COMPLETING", "COMPLETE"] && |r.items| == 1
  }

  // ---------- classification ----------

  predicate PrivateAccepted(s: Snapshot, c: Readback) {
    var inherits := s.before.version.None? && s.before.reference.live.Some?;
    && (inherits ==> c.livePrivate == s.before.livePrivate)
    && (c.private == s.target.private || c.private == s.before.private
        || (inherits && s.before.livePrivate == Some(c.private)))
  }

  predicate VersionAccepted(s: Snapshot, v: AppVersion) {
    var prior, live := s.before.version, s.before.reference.live;
    && v.proper
    && MayMove(VERSION_ORDER, if prior.Some? then prior.value.state else "PREPARE_FOR_SUBMISSION", v.state)
    && (v.build.None? || v.build == Some(s.target.build))
    && (prior.Some? && prior.value.build.Some? ==> v.build == prior.value.build)
    && v.phased == (if prior.Some? then prior.value.phased else None)
    && (prior.Some? && prior.value.detail.Some? ==> v.detail == prior.value.detail)
    && (|| v.copyright == s.target.copyright
        || v.copyright == (if prior.Some? then prior.value.copyright else if live.Some? then live.value.copyright else "")
        || (v.copyright == "" && prior.None?))
    && TextsAccepted(Entries(Base(s)), s.target.texts, Entries(Some(v)), VERSION_FIELDS, prior.Some?)
  }

  predicate InfoAccepted(s: Snapshot, i: AppInfo) {
    var prior := s.before.info;
    var base := if prior.Some? then prior else s.before.reference.info;
    && MayMove(INFO_ORDER, if prior.Some? then prior.value.state else "PREPARE_FOR_SUBMISSION", i.state)
    && (forall n :: 0 <= n < CATEGORIES ==>
          || Category(i.categories, n) == Category(s.target.categories, n)
          || Category(i.categories, n) == (if base.Some? then Category(base.value.categories, n) else None)
          || (Category(i.categories, n).None? && prior.None?))
    && TextsAccepted(InfoEntries(base), s.target.infoTexts, InfoEntries(Some(i)), INFO_FIELDS, prior.Some?)
  }

  /** `classify` without its verdict: the readback is a state this operation may have produced. */
  ghost predicate Accepts(s: Snapshot, c: Readback) {
    && c.reference == s.before.reference
    && PrivateAccepted(s, c)
    && (s.before.version.Some? ==> c.version.Some? && c.version.value.id == s.before.version.value.id)
    && (c.version.Some? ==> VersionAccepted(s, c.version.value))
    && (s.before.info.Some? ==> c.info.Some? && c.info.value.id == s.before.info.value.id)
    && (c.info.Some? ==> InfoAccepted(s, c.info.value))
    && PlansAccepted(s, c)
    && ReviewAccepted(s, c)
  }

  // ---------- progress ----------

  predicate VersionProgress(s: Snapshot, b: AppVersion, c: AppVersion) {
    && c.id == b.id && MayMove(VERSION_ORDER, b.state, c.state)
    && TextsAccepted(Entries(Some(b)), s.target.texts, Entries(Some(c)), VERSION_FIELDS, true)
    && (b.detail.Some? ==> c.detail == b.detail)
    && (b.build.Some? ==> c.build == b.build)
    && (b.copyright == s.target.copyright ==> c.copyright == s.target.copyright)
  }

  predicate InfoProgress(s: Snapshot, b: AppInfo, c: AppInfo) {
    && c.id == b.id && MayMove(INFO_ORDER, b.state, c.state)
    && TextsAccepted(InfoEntries(Some(b)), s.target.infoTexts, InfoEntries(Some(c)), INFO_FIELDS, true)
    && (forall n :: 0 <= n < CATEGORIES && Category(b.categories, n) == Category(s.target.categories, n) ==>
          Category(c.categories, n) == Category(b.categories, n))
  }

  function Without(shots: seq<Shot>, removing: Option<Id>): (r: seq<Shot>)
    ensures |r| <= |shots|
    ensures (forall i :: 0 <= i < |shots| ==> Some(shots[i].id) != removing) ==> r == shots
  {
    if shots == [] then []
    else
      var front := Without(shots[..|shots| - 1], removing);
      if Some(shots[|shots| - 1].id) == removing then front else front + [shots[|shots| - 1]]
  }

  predicate ShotProgress(b: Shot, c: Shot) {
    && c.id == b.id && c.fileName == b.fileName && c.size == b.size
    && (b.checksum != "" ==> c.checksum == b.checksum)
    && DeliveryMayMove(b.delivery, c.delivery)
  }

  predicate ShotsProgress(b: seq<Shot>, c: seq<Shot>, removing: Option<Id>) {
    var kept := Without(b, removing);
    |kept| <= |c| && forall i :: 0 <= i < |kept| ==> ShotProgress(kept[i], c[i])
  }

  predicate ReviewProgress(b: Option<Review>, c: Option<Review>) {
    b.Some? ==>
      && c.Some? && c.value.id == b.value.id && MayMove(REVIEW_ORDER, b.value.state, c.value.state)
      && forall i :: 0 <= i < |b.value.items| ==>
           exists j :: 0 <= j < |c.value.items| && ItemProgress(b.value.items[i], c.value.items[j])
  }

  predicate ItemProgress(b: ReviewItem, c: ReviewItem) {
    c.id == b.id && c.resource == b.resource && MayMove(ITEM_ORDER, b.state, c.state)
  }

  /** `progress!`: what may be read after b, while the screenshot `removing` is being removed. */
  ghost predicate Progress(s: Snapshot, b: Readback, c: Readback, removing: Option<Id>) {
    && (b.version.Some? ==> c.version.Some? && VersionProgress(s, b.version.value, c.version.value))
    && (b.info.Some? ==> c.info.Some? && InfoProgress(s, b.info.value, c.info.value))
    && (forall place: Place :: SetAt(b.version, place).Some? ==>
          && SetAt(c.version, place).Some? && SetAt(c.version, place).value.id == SetAt(b.version, place).value.id
          && ShotsProgress(SetAt(b.version, place).value.shots, SetAt(c.version, place).value.shots, removing))
    && SelectedAt(b).Ok? && SelectedAt(c).Ok? && ReviewProgress(SelectedAt(b).value, SelectedAt(c).value)
    && (b.private == s.target.private ==> c.private == s.target.private)
  }
}
