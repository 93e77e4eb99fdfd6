/**
 The inventory of missing resources that `create_nodes` arms, and the identities
 that a readback gives to the resources it shows.
 */
module ProductionPlans {
  import opened Bytes
  import opened CreateGuards
  import opened Screenshots
  import opened Productions
  import opened ProductionGoals

  const APP: Id := "app"

  /** What preparation and `metadata_target` guarantee of every snapshot that is executed. */
  ghost predicate Prepared(s: Snapshot) {
    && (forall place: Place :: place in s.target.shots ==> place.0 in s.target.texts)
    && (forall place: Place :: place in s.target.shots ==> DistinctNames(s.target.shots[place]))
    && (forall place: Place, i :: place in s.target.shots && 0 <= i < |s.target.shots[place]| ==>
          Owned(s.nonce, s.target.shots[place][i].fileName))
  }

  /** Names carry the content digest, and the digests of one set are distinct. */
  predicate DistinctNames(ts: seq<TargetShot>) {
    forall i, j :: 0 <= i < j < |ts| ==> ts[i].fileName != ts[j].fileName
  }

  /** The position of target t among the additions, or their number. */
  function Position(xs: seq<nat>, t: nat): (i: nat)
    ensures i <= |xs| && (i < |xs| ==> xs[i] == t) && (i == |xs| <==> t !in xs)
  {
    if xs == [] then 0
    else if xs[0] == t then 0
    else
      assert t in xs <==> t in xs[1..];
      1 + Position(xs[1..], t)
  }

  function ShotIdAt(s: Snapshot, c: Readback, place: Place, t: nat): Option<Id> {
    if place in s.target.shots && PlanAt(s, c, place).Ok? then
      var p := PlanAt(s, c, place).value;
      var i := Position(p.additions, t);
      if i < |p.suffix| && i < |p.additions| then Some(p.suffix[i].id) else None
    else None
  }

  /** The identity under which `observe_creates` reports a logical resource. */
  function IdOf(s: Snapshot, c: Readback, k: Key): Option<Id> {
    match k
    case VersionKey => VersionId(c)
    case TextKey(l) =>
      if c.version.Some? && l in c.version.value.locales then Some(c.version.value.locales[l].entry.id) else None
    case InfoKey(l) => if c.info.Some? && l in c.info.value.locales then Some(c.info.value.locales[l].id) else None
    case DetailKey(digest) => if c.version.Some? && digest == s.digest then c.version.value.detail else None
    case SetKey(l, d) => var set0 := SetAt(c.version, (l, d)); if set0.Some? then Some(set0.value.id) else None
    case ShotKey(l, d, t, sha) =>
      if (l, d) in s.target.shots && t < |s.target.shots[(l, d)]| && s.target.shots[(l, d)][t].sha == sha
      then ShotIdAt(s, c, (l, d), t) else None
    case ReviewKey => if SelectedAt(c).Ok? && SelectedAt(c).value.Some? then Some(SelectedAt(c).value.value.id) else None
    case ItemKey =>
      if SelectedAt(c).Ok? && SelectedAt(c).value.Some? && SelectedAt(c).value.value.items != []
      then Some(SelectedAt(c).value.value.items[0].id) else None
    case BetaTextKey(_) => None
    case BetaReviewKey => None
    case BetaGroupKey(_) => None
  }

  /** The resource a create hangs under, if that is itself a logical resource. */
  function ParentKey(k: Key): Option<Key> {
    match k
    case TextKey(_) => Some(VersionKey)
    case DetailKey(_) => Some(VersionKey)
    case SetKey(l, _) => Some(TextKey(l))
    case ShotKey(l, d, _, _) => Some(SetKey(l, d))
    case ItemKey => Some(ReviewKey)
    case _ => None
  }

  function InfoId(c: Readback): Option<Id> {
    if c.info.Some? then Some(c.info.value.id) else None
  }

  /** The parent identity that the next create passes to the guard. */
  function ParentIdAt(s: Snapshot, c: Readback, k: Key): Option<Id> {
    if k.InfoKey? then InfoId(c)
    else if ParentKey(k).Some? then IdOf(s, c, ParentKey(k).value)
    else Some(APP)
  }

  // ---------- the inventory ----------

  function MissingShots(s: Snapshot, c: Readback): set<Key> {
    set place, t | place in s.target.shots && 0 <= t < |s.target.shots[place]|
                   && PlanAt(s, c, place).Ok? && Unreserved(PlanAt(s, c, place).value, t)
      :: ShotKey(place.0, place.1, t, s.target.shots[place][t].sha)
  }

  function MissingSets(s: Snapshot, c: Readback): set<Key> {
    set place | place in s.target.shots && PlanAt(s, c, place).Ok? && PlanAt(s, c, place).value.additions != []
                && SetAt(c.version, place).None?
      :: SetKey(place.0, place.1)
  }

  function CreateKeys(s: Snapshot, c: Readback): set<Key> {
    (if IdOf(s, c, VersionKey).None? then {VersionKey} else {})
    + (set l | l in s.target.texts && IdOf(s, c, TextKey(l)).None? :: TextKey(l))
    + (set l | l in s.target.infoTexts && IdOf(s, c, InfoKey(l)).None? :: InfoKey(l))
    + (if IdOf(s, c, DetailKey(s.digest)).None? then {DetailKey(s.digest)} else {})
    + MissingSets(s, c) + MissingShots(s, c)
    + (if IdOf(s, c, ReviewKey).None? then {ReviewKey} else {})
    + (if IdOf(s, c, ItemKey).None? then {ItemKey} else {})
  }

  /** Membership in the inventory, key by key. */
  predicate IsMissing(s: Snapshot, c: Readback, k: Key) {
    match k
    case TextKey(l) => l in s.target.texts && IdOf(s, c, k).None?
    case InfoKey(l) => l in s.target.infoTexts && IdOf(s, c, k).None?
    case DetailKey(digest) => digest == s.digest && IdOf(s, c, k).None?
    case SetKey(l, d) =>
      (l, d) in s.target.shots && PlanAt(s, c, (l, d)).Ok? && PlanAt(s, c, (l, d)).value.additions != [] && IdOf(s, c, k).None?
    case ShotKey(l, d, t, sha) =>
      && (l, d) in s.target.shots && t < |s.target.shots[(l, d)]| && s.target.shots[(l, d)][t].sha == sha
      && PlanAt(s, c, (l, d)).Ok? && Unreserved(PlanAt(s, c, (l, d)).value, t)
    case BetaTextKey(_) => false
    case BetaReviewKey => false
    case BetaGroupKey(_) => false
    case VersionKey => IdOf(s, c, k).None?
    case ReviewKey => IdOf(s, c, k).None?
    case ItemKey => IdOf(s, c, k).None?
  }

  lemma InShots(s: Snapshot, c: Readback, k: Key)
    ensures k in MissingShots(s, c) <==> k.ShotKey? && IsMissing(s, c, k)
    ensures k in MissingSets(s, c) <==> k.SetKey? && IsMissing(s, c, k)
  {
    hide PlanSet, Unreserved;
    if k.ShotKey? && IsMissing(s, c, k) {
      var place := (k.locale, k.display);
      assert place.0 == k.locale && place.1 == k.display;
    }
    if k.SetKey? && IsMissing(s, c, k) {
      var place := (k.locale, k.display);
      assert place.0 == k.locale && place.1 == k.display;
    }
  }

  lemma InCreateKeys(s: Snapshot, c: Readback, k: Key)
    ensures k in CreateKeys(s, c) <==> IsMissing(s, c, k)
  {
    InShots(s, c, k);
    hide MissingShots, MissingSets, PlanSet, Unreserved, Selected;
  }

  function VersionDependency(c: Readback): seq<Key> {
    if c.version.Some? then [] else [VersionKey]
  }

  /** The node `create_nodes` builds for a missing resource. */
  function NodeFor(s: Snapshot, c: Readback, k: Key): (n: Node)
    ensures n.key == k
  {
    var parent := if k.InfoKey? then (if c.info.Some? then Present(c.info.value.id) else Automatic)
                  else if ParentIdAt(s, c, k).Some? then Present(ParentIdAt(s, c, k).value)
                  else if ParentKey(k).Some? then Missing(ParentKey(k).value) else Present(APP);
    MakeNode(k, parent, if k.ReviewKey? || k.ItemKey? then VersionDependency(c) else [])
  }

  /** A list of exactly the nodes of the missing resources, in any order. */
  ghost predicate CreateNodes(s: Snapshot, c: Readback, nodes: seq<Node>) {
    && (forall n :: n in nodes ==> n.key in CreateKeys(s, c) && n == NodeFor(s, c, n.key))
    && (forall k :: k in CreateKeys(s, c) ==> k in Keys(nodes))
  }

  /** `create_nodes` refuses a version whose AppInfo has not appeared yet. */
  predicate InfoSettled(c: Readback) {
    c.version.Some? ==> c.info.Some?
  }

  lemma ParentIsMissing(s: Snapshot, c: Readback, k: Key)
    requires Prepared(s) && IsMissing(s, c, k) && ParentKey(k).Some? && IdOf(s, c, ParentKey(k).value).None?
    ensures IsMissing(s, c, ParentKey(k).value)
  {
    hide PlanSet, Selected, DistinctNames, Position, ShotIdAt;
    match k
    case ShotKey(l, d, t, _) =>
      var p := PlanAt(s, c, (l, d)).value;
      assert Unreserved(p, t);
      assert p.additions != [];
    case SetKey(l, d) =>
      assert (l, d).0 in s.target.texts;
    case _ =>
  }

  lemma MissingParents(s: Snapshot, c: Readback, k: Key)
    requires Prepared(s) && k in CreateKeys(s, c) && ParentKey(k).Some? && IdOf(s, c, ParentKey(k).value).None?
    ensures ParentKey(k).value in CreateKeys(s, c)
  {
    InCreateKeys(s, c, k);
    InCreateKeys(s, c, ParentKey(k).value);
    hide CreateKeys, IsMissing, Prepared;
    ParentIsMissing(s, c, k);
  }

  lemma ParentRank(k: Key)
    ensures ParentKey(k).Some? ==> Rank(ParentKey(k).value) < Rank(k)
    ensures k.InfoKey? || k.ReviewKey? || k.ItemKey? ==> Rank(VersionKey) < Rank(k)
  {
  }

  /** A node depends on its parent if that is missing, or on a missing version. */
  lemma NodeDependencies(s: Snapshot, c: Readback, k: Key, d: Key)
    requires InfoSettled(c) && d in NodeFor(s, c, k).dependencies
    ensures || (ParentKey(k) == Some(d) && IdOf(s, c, d).None?)
            || (d == VersionKey && c.version.None? && (k.InfoKey? || k.ReviewKey? || k.ItemKey?))
  {
    hide IdOf;
  }

  lemma VersionMissing(s: Snapshot, c: Readback)
    requires c.version.None?
    ensures VersionKey in CreateKeys(s, c)
  {
    InCreateKeys(s, c, VersionKey);
    hide CreateKeys;
  }

  lemma DependenciesOf(s: Snapshot, c: Readback, k: Key, d: Key)
    requires Prepared(s) && InfoSettled(c) && k in CreateKeys(s, c) && d in NodeFor(s, c, k).dependencies
    ensures d in CreateKeys(s, c) && Rank(d) < Rank(k)
  {
    hide *;
    NodeDependencies(s, c, k, d);
    ParentRank(k);
    if ParentKey(k) == Some(d) && IdOf(s, c, d).None? {
      MissingParents(s, c, k);
    } else {
      VersionMissing(s, c);
    }
  }

  lemma {:induction false} KeysOf(nodes: seq<Node>, k: Key)
    ensures k in Keys(nodes) <==> exists n :: n in nodes && n.key == k
  {
    if k in Keys(nodes) {
      var i :| 0 <= i < |Keys(nodes)| && Keys(nodes)[i] == k;
      assert nodes[i] in nodes;
    }
    if exists n :: n in nodes && n.key == k {
      var n :| n in nodes && n.key == k;
      var i :| 0 <= i < |nodes| && nodes[i] == n;
      assert Keys(nodes)[i] == k;
    }
  }

  /** Such a list holds whatever its nodes depend on, at a lower rank. */
  lemma {:induction false} InventoryIsRanked(s: Snapshot, c: Readback, nodes: seq<Node>)
    requires Prepared(s) && InfoSettled(c) && CreateNodes(s, c, nodes)
    ensures Ranked(nodes)
  {
    hide CreateKeys, NodeFor, Keys, Prepared;
    forall n, d | n in nodes && d in n.dependencies ensures d in Keys(nodes) && Rank(d) < Rank(n.key) {
      DependenciesOf(s, c, n.key, d);
    }
  }
}
