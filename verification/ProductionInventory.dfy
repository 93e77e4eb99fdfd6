/**
 The list that `create_nodes` builds, stage by stage, and the proof that it is the
 inventory of the missing resources: each of them once, and orderable.
 */
module ProductionInventories {
  import opened Bytes
  import opened CreateGuards
  import opened Screenshots
  import opened Productions
  import opened ProductionGoals
  import opened ProductionPlans

  // ---------- create_nodes ----------

  /** The order in which the target lists its locales and its screenshot sets. */
  datatype Order = Order(texts: seq<string>, infoTexts: seq<string>, places: seq<Place>)

  predicate NoRepeat<T(==)>(xs: seq<T>) {
    forall i, j :: 0 <= i < j < |xs| ==> xs[i] != xs[j]
  }

  /** Every target locale and place once; a place without targets may be listed too, and adds nothing. */
  ghost predicate Enumerates(s: Snapshot, o: Order) {
    && NoRepeat(o.texts) && (forall l :: l in o.texts <==> l in s.target.texts)
    && NoRepeat(o.infoTexts) && (forall l :: l in o.infoTexts <==> l in s.target.infoTexts)
    && NoRepeat(o.places) && (forall place :: place in s.target.shots ==> place in o.places)
  }

  function VersionParent(c: Readback): Parent {
    if c.version.Some? then Present(c.version.value.id) else Missing(VersionKey)
  }

  function InfoParent(c: Readback): Parent {
    if c.info.Some? then Present(c.info.value.id) else Automatic
  }

  function TextParent(c: Readback, l: string): Parent {
    if l in Entries(c.version) then Present(Entries(c.version)[l].id) else Missing(TextKey(l))
  }

  function SetParent(c: Readback, place: Place): Parent {
    if SetAt(c.version, place).Some? then Present(SetAt(c.version, place).value.id) else Missing(SetKey(place.0, place.1))
  }

  function LocaleKey(info: bool, l: string): Key {
    if info then InfoKey(l) else TextKey(l)
  }

  /** One of the two loops over target locales: those that are shown are skipped. */
  function LocaleNodes(info: bool, shown: map<string, Entry>, parent: Parent, ls: seq<string>): (ns: seq<Node>)
    ensures forall n :: n in ns ==>
              exists i :: 0 <= i < |ls| && ls[i] !in shown && n == MakeNode(LocaleKey(info, ls[i]), parent, [])
    ensures forall l :: l in ls && l !in shown ==> MakeNode(LocaleKey(info, l), parent, []) in ns
  {
    if ls == [] then []
    else
      var l := ls[|ls| - 1];
      var front := LocaleNodes(info, shown, parent, ls[..|ls| - 1]);
      assert forall i :: 0 <= i < |ls| - 1 ==> ls[..|ls| - 1][i] == ls[i];
      if l in shown then front else front + [MakeNode(LocaleKey(info, l), parent, [])]
  }

  function ShotKeyOf(place: Place, targets: seq<TargetShot>, t: nat): Key
    requires t < |targets|
  {
    ShotKey(place.0, place.1, t, targets[t].sha)
  }

  /** The additions that have no reservation yet. */
  function ShotNodes(place: Place, targets: seq<TargetShot>, additions: seq<nat>, reserved: nat, parent: Parent): (ns: seq<Node>)
    requires forall i :: 0 <= i < |additions| ==> additions[i] < |targets|
    ensures forall n :: n in ns ==>
              exists i :: reserved <= i < |additions| && n == MakeNode(ShotKeyOf(place, targets, additions[i]), parent, [])
    ensures forall i :: reserved <= i < |additions| ==> MakeNode(ShotKeyOf(place, targets, additions[i]), parent, []) in ns
  {
    if |additions| <= reserved then []
    else
      ShotNodes(place, targets, additions[..|additions| - 1], reserved, parent)
      + [MakeNode(ShotKeyOf(place, targets, additions[|additions| - 1]), parent, [])]
  }

  function SetNodes(c: Readback, place: Place): seq<Node> {
    if SetAt(c.version, place).Some? then [] else [MakeNode(SetKey(place.0, place.1), TextParent(c, place.0), [])]
  }

  function PlaceNodes(s: Snapshot, c: Readback, place: Place): seq<Node>
    requires PlanAt(s, c, place).Ok?
  {
    var p := PlanAt(s, c, place).value;
    AdditionsInRange(s, c, place);
    if p.additions == [] then []
    else SetNodes(c, place) + ShotNodes(place, TargetsAt(s, place), p.additions, |p.suffix|, SetParent(c, place))
  }

  lemma AdditionsInRange(s: Snapshot, c: Readback, place: Place)
    requires PlanAt(s, c, place).Ok?
    ensures var p := PlanAt(s, c, place).value;
            && (forall i :: 0 <= i < |p.additions| ==> p.additions[i] < |TargetsAt(s, place)|)
            && (forall i, j :: 0 <= i < j < |p.additions| ==> p.additions[i] < p.additions[j])
            && (p.additions != [] ==> place in s.target.shots)
  {
    PlanParts(CaseAt(s, place), SetAt(c.version, place));
    hide PlanSet, KeptIntact, Reserves, Kept;
  }

  predicate AllPlanned(s: Snapshot, c: Readback, places: seq<Place>) {
    forall i :: 0 <= i < |places| ==> PlanAt(s, c, places[i]).Ok?
  }

  function AllPlaceNodes(s: Snapshot, c: Readback, places: seq<Place>): seq<Node>
    requires AllPlanned(s, c, places)
  {
    if places == [] then []
    else AllPlaceNodes(s, c, places[..|places| - 1]) + PlaceNodes(s, c, places[|places| - 1])
  }

  function VersionNodes(c: Readback): seq<Node> {
    if c.version.Some? then [] else [MakeNode(VersionKey, Present(APP), [])]
  }

  function DetailNodes(s: Snapshot, c: Readback): seq<Node> {
    if c.version.Some? && c.version.value.detail.Some? then [] else [MakeNode(DetailKey(s.digest), VersionParent(c), [])]
  }

  function ReviewNodes(c: Readback): seq<Node>
    requires SelectedAt(c).Ok?
  {
    var review := SelectedAt(c).value;
    var first := if review.Some? then [] else [MakeNode(ReviewKey, Present(APP), VersionDependency(c))];
    var parent := if review.Some? then Present(review.value.id) else Missing(ReviewKey);
    if review.Some? && review.value.items != [] then first else first + [MakeNode(ItemKey, parent, VersionDependency(c))]
  }

  /** `create_nodes`; nothing where it raises. */
  function CreateList(s: Snapshot, c: Readback, o: Order): Option<seq<Node>> {
    if !InfoSettled(c) || !AllPlanned(s, c, o.places) || !SelectedAt(c).Ok? then None
    else
      Some(VersionNodes(c)
           + LocaleNodes(false, Entries(c.version), VersionParent(c), o.texts)
           + LocaleNodes(true, InfoEntries(c.info), InfoParent(c), o.infoTexts)
           + DetailNodes(s, c) + AllPlaceNodes(s, c, o.places) + ReviewNodes(c))
  }

  // ---------- each stage lists exactly its missing resources ----------

  /** The stage of `create_nodes` that lists a resource; beta resources belong to no stage. */
  function Stage(k: Key): nat {
    match k
    case VersionKey => 0
    case TextKey(_) => 1
    case InfoKey(_) => 2
    case DetailKey(_) => 3
    case SetKey(_, _) => 4
    case ShotKey(_, _, _, _) => 4
    case ReviewKey => 5
    case ItemKey => 5
    case BetaTextKey(_) => 6
    case BetaReviewKey => 6
    case BetaGroupKey(_) => 6
  }

  /** These nodes are those of the missing resources of these stages, each once. */
  ghost predicate Staged(s: Snapshot, c: Readback, ns: seq<Node>, lo: nat, hi: nat) {
    && Distinct(Keys(ns))
    && (forall n :: n in ns ==> lo <= Stage(n.key) < hi && IsMissing(s, c, n.key) && n == NodeFor(s, c, n.key))
    && (forall k :: IsMissing(s, c, k) && lo <= Stage(k) < hi ==> NodeFor(s, c, k) in ns)
  }

  lemma {:induction false} KeysPlus(a: seq<Node>, b: seq<Node>)
    ensures Keys(a + b) == Keys(a) + Keys(b)
  {
    forall i | 0 <= i < |a + b| ensures Keys(a + b)[i] == (Keys(a) + Keys(b))[i] {
    }
  }

  /** Lists of distinct keys with no key in common join to a list of distinct keys. */
  lemma {:induction false} DistinctPlus(a: seq<Node>, b: seq<Node>)
    requires Distinct(Keys(a)) && Distinct(Keys(b))
    requires forall n, m :: n in a && m in b ==> n.key != m.key
    ensures Distinct(Keys(a + b))
  {
    KeysPlus(a, b);
    var ks := Keys(a) + Keys(b);
    forall i, j | 0 <= i < j < |ks| ensures ks[i] != ks[j] {
      if i < |a| <= j { assert a[i] in a && b[j - |a|] in b; }
    }
  }

  lemma {:induction false} StagesJoin(s: Snapshot, c: Readback, a: seq<Node>, b: seq<Node>, lo: nat, mid: nat, hi: nat)
    requires lo <= mid <= hi && Staged(s, c, a, lo, mid) && Staged(s, c, b, mid, hi)
    ensures Staged(s, c, a + b, lo, hi)
  {
    hide IsMissing, NodeFor, Keys, Distinct, Stage;
    DistinctPlus(a, b);
  }

  lemma {:induction false} VersionStaged(s: Snapshot, c: Readback)
    ensures Staged(s, c, VersionNodes(c), 0, 1)
  {
  }

  lemma {:induction false} DetailStaged(s: Snapshot, c: Readback)
    ensures Staged(s, c, DetailNodes(s, c), 3, 4)
  {
    hide PlanSet, Selected, Position;
  }

  lemma {:induction false} LocalesDistinct(info: bool, shown: map<string, Entry>, parent: Parent, ls: seq<string>)
    requires NoRepeat(ls)
    ensures Distinct(Keys(LocaleNodes(info, shown, parent, ls)))
  {
    if ls != [] {
      var rest := ls[..|ls| - 1];
      var front := LocaleNodes(info, shown, parent, rest);
      LocalesDistinct(info, shown, parent, rest);
      var last := [MakeNode(LocaleKey(info, ls[|ls| - 1]), parent, [])];
      forall n, m | n in front && m in last ensures n.key != m.key {
        var i :| 0 <= i < |rest| && n == MakeNode(LocaleKey(info, rest[i]), parent, []);
      }
      DistinctPlus(front, last);
    }
  }

  lemma LocaleNode(s: Snapshot, c: Readback, info: bool, l: string)
    ensures var (wanted, shown) := if info then (s.target.infoTexts, InfoEntries(c.info)) else (s.target.texts, Entries(c.version));
            IsMissing(s, c, LocaleKey(info, l)) <==> l in wanted && l !in shown
    ensures NodeFor(s, c, LocaleKey(info, l)) == MakeNode(LocaleKey(info, l), if info then InfoParent(c) else VersionParent(c), [])
    ensures Stage(LocaleKey(info, l)) == if info then 2 else 1
  {
    hide PlanSet, Selected, Position;
  }

  lemma StageLocale(k: Key)
    ensures Stage(k) == 1 ==> k.TextKey? && k == LocaleKey(false, k.locale)
    ensures Stage(k) == 2 ==> k.InfoKey? && k == LocaleKey(true, k.locale)
  {
  }

  lemma {:induction false} LocalesStaged(s: Snapshot, c: Readback, info: bool, ls: seq<string>)
    requires NoRepeat(ls) && forall l :: l in ls <==> l in (if info then s.target.infoTexts else s.target.texts)
    ensures var (shown, parent) := if info then (InfoEntries(c.info), InfoParent(c)) else (Entries(c.version), VersionParent(c));
            var stage := if info then 2 else 1;
            Staged(s, c, LocaleNodes(info, shown, parent, ls), stage, stage + 1)
  {
    hide *;
    var (shown, parent) := if info then (InfoEntries(c.info), InfoParent(c)) else (Entries(c.version), VersionParent(c));
    var stage := if info then 2 else 1;
    var ns := LocaleNodes(info, shown, parent, ls);
    LocalesDistinct(info, shown, parent, ls);
    forall n | n in ns ensures stage <= Stage(n.key) < stage + 1 && IsMissing(s, c, n.key) && n == NodeFor(s, c, n.key) {
      var i :| 0 <= i < |ls| && ls[i] !in shown && n == MakeNode(LocaleKey(info, ls[i]), parent, []);
      LocaleNode(s, c, info, ls[i]);
      assert ls[i] in ls;
      assert n == NodeFor(s, c, LocaleKey(info, ls[i])) && n.key == LocaleKey(info, ls[i]);
    }
    forall k | IsMissing(s, c, k) && stage <= Stage(k) < stage + 1 ensures NodeFor(s, c, k) in ns {
      StageLocale(k);
      LocaleNode(s, c, info, k.locale);
      assert k == LocaleKey(info, k.locale) && k.locale in ls && k.locale !in shown;
    }
    StagedIs(s, c, ns, stage, stage + 1);
  }

  lemma StagedIs(s: Snapshot, c: Readback, ns: seq<Node>, lo: nat, hi: nat)
    requires Distinct(Keys(ns))
    requires forall n :: n in ns ==> lo <= Stage(n.key) < hi && IsMissing(s, c, n.key) && n == NodeFor(s, c, n.key)
    requires forall k :: IsMissing(s, c, k) && lo <= Stage(k) < hi ==> NodeFor(s, c, k) in ns
    ensures Staged(s, c, ns, lo, hi)
  {
    hide Keys, Distinct, Stage, IsMissing, NodeFor;
  }

  lemma ReviewNode(s: Snapshot, c: Readback)
    requires SelectedAt(c).Ok?
    ensures IsMissing(s, c, ReviewKey) <==> SelectedAt(c).value.None?
    ensures NodeFor(s, c, ReviewKey) == MakeNode(ReviewKey, Present(APP), VersionDependency(c))
  {
    hide PlanSet, Selected, Position;
  }

  lemma ItemNode(s: Snapshot, c: Readback)
    requires SelectedAt(c).Ok?
    ensures IsMissing(s, c, ItemKey) <==> SelectedAt(c).value.None? || SelectedAt(c).value.value.items == []
    ensures NodeFor(s, c, ItemKey) ==
            MakeNode(ItemKey, if SelectedAt(c).value.Some? then Present(SelectedAt(c).value.value.id) else Missing(ReviewKey), VersionDependency(c))
  {
    hide PlanSet, Selected, Position;
  }

  lemma ReviewMembers(s: Snapshot, c: Readback)
    requires SelectedAt(c).Ok?
    ensures var ns := ReviewNodes(c);
            && Distinct(Keys(ns))
            && (forall n :: n in ns ==> Stage(n.key) == 5 && n == NodeFor(s, c, n.key) && IsMissing(s, c, n.key))
            && (IsMissing(s, c, ReviewKey) ==> NodeFor(s, c, ReviewKey) in ns)
            && (IsMissing(s, c, ItemKey) ==> NodeFor(s, c, ItemKey) in ns)
  {
    ReviewNode(s, c);
    ItemNode(s, c);
    hide SelectedAt, IsMissing, NodeFor, VersionDependency, MakeNode, Keys;
  }

  lemma StageOfReviews(k: Key)
    ensures Stage(k) == 5 <==> k == ReviewKey || k == ItemKey
  {
  }

  lemma {:induction false} ReviewStaged(s: Snapshot, c: Readback)
    requires SelectedAt(c).Ok?
    ensures Staged(s, c, ReviewNodes(c), 5, 6)
  {
    ReviewMembers(s, c);
    hide ReviewNodes, Keys, Distinct, IsMissing, NodeFor, SelectedAt, Stage;
    forall k | IsMissing(s, c, k) && 5 <= Stage(k) < 6 ensures NodeFor(s, c, k) in ReviewNodes(c) { StageOfReviews(k); }
  }

  // ---------- the screenshot sets ----------

  function PlaceOf(k: Key): Place {
    if k.SetKey? || k.ShotKey? then (k.locale, k.display) else ("", "")
  }

  /** These nodes are those of the missing sets and reservations of these places, each once. */
  ghost predicate Listed(s: Snapshot, c: Readback, ns: seq<Node>, places: seq<Place>) {
    && Distinct(Keys(ns))
    && (forall n :: n in ns <==> Stage(n.key) == 4 && PlaceOf(n.key) in places && IsMissing(s, c, n.key) && n == NodeFor(s, c, n.key))
  }

  lemma SetIsMissing(s: Snapshot, c: Readback, place: Place)
    requires PlanAt(s, c, place).Ok?
    ensures IsMissing(s, c, SetKey(place.0, place.1)) <==>
            place in s.target.shots && PlanAt(s, c, place).value.additions != [] && SetAt(c.version, place).None?
  {
    assert (place.0, place.1) == place;
    hide PlanAt, SetAt, NodeFor;
  }

  lemma SetNode(s: Snapshot, c: Readback, place: Place)
    requires PlanAt(s, c, place).Ok?
    ensures var k := SetKey(place.0, place.1);
            && (IsMissing(s, c, k) <==> place in s.target.shots && PlanAt(s, c, place).value.additions != [] && SetAt(c.version, place).None?)
            && NodeFor(s, c, k) == MakeNode(k, TextParent(c, place.0), []) && Stage(k) == 4 && PlaceOf(k) == place
  {
    SetIsMissing(s, c, place);
    hide PlanAt, SetAt, IsMissing;
  }

  lemma ShotNode(s: Snapshot, c: Readback, place: Place, t: nat)
    requires PlanAt(s, c, place).Ok? && place in s.target.shots && t < |s.target.shots[place]|
    ensures var k := ShotKeyOf(place, s.target.shots[place], t);
            && (IsMissing(s, c, k) <==> Unreserved(PlanAt(s, c, place).value, t))
            && NodeFor(s, c, k) == MakeNode(k, SetParent(c, place), []) && Stage(k) == 4 && PlaceOf(k) == place
  {
    assert (place.0, place.1) == place;
    hide PlanSet, Selected, Position, SetAt, Unreserved;
  }

  lemma {:induction false} ShotsKeep(place: Place, targets: seq<TargetShot>, additions: seq<nat>, reserved: nat, parent: Parent, n: Node)
    requires forall i :: 0 <= i < |additions| ==> additions[i] < |targets|
    requires n in ShotNodes(place, targets, additions, reserved, parent)
    ensures n.key.ShotKey? && exists i :: 0 <= i < |additions| && additions[i] == n.key.order
  {
    hide ShotNodes;
    var i :| reserved <= i < |additions| && n == MakeNode(ShotKeyOf(place, targets, additions[i]), parent, []);
    assert n.key.order == additions[i];
  }

  lemma {:induction false} ShotsDistinct(place: Place, targets: seq<TargetShot>, additions: seq<nat>, reserved: nat, parent: Parent)
    requires forall i :: 0 <= i < |additions| ==> additions[i] < |targets|
    requires forall i, j :: 0 <= i < j < |additions| ==> additions[i] < additions[j]
    ensures Distinct(Keys(ShotNodes(place, targets, additions, reserved, parent)))
  {
    hide Keys, Distinct;
    if |additions| <= reserved {
      DistinctFew([]);
    } else {
      var rest, t := additions[..|additions| - 1], additions[|additions| - 1];
      var front, last := ShotNodes(place, targets, rest, reserved, parent), MakeNode(ShotKeyOf(place, targets, t), parent, []);
      assert ShotNodes(place, targets, additions, reserved, parent) == front + [last] && last.key.order == t;
      hide ShotNodes, MakeNode, ShotKeyOf;
      ShotsDistinct(place, targets, rest, reserved, parent);
      forall n, m | n in front && m in [last] ensures n.key != m.key { ShotsKeep(place, targets, rest, reserved, parent, n); }
      DistinctFew([last]);
      DistinctPlus(front, [last]);
    }
  }

  lemma DistinctFew(ns: seq<Node>)
    requires |ns| <= 1
    ensures Distinct(Keys(ns))
  {
  }

  /** The shots of one place, from the first unreserved addition on. */
  lemma {:induction false} ShotsListed(s: Snapshot, c: Readback, place: Place, n: Node)
    requires PlanAt(s, c, place).Ok? && place in s.target.shots
    ensures var p := PlanAt(s, c, place).value;
            && (forall i :: 0 <= i < |p.additions| ==> p.additions[i] < |s.target.shots[place]|)
            && (n in ShotNodes(place, s.target.shots[place], p.additions, |p.suffix|, SetParent(c, place)) <==>
                  n.key.ShotKey? && PlaceOf(n.key) == place && IsMissing(s, c, n.key) && n == NodeFor(s, c, n.key))
  {
    var p, ts := PlanAt(s, c, place).value, s.target.shots[place];
    AdditionsInRange(s, c, place);
    var ns := ShotNodes(place, ts, p.additions, |p.suffix|, SetParent(c, place));
    hide IsMissing, NodeFor, MakeNode, SetParent, PlanAt, ShotNodes, TargetsAt;
    if n in ns {
      var i :| |p.suffix| <= i < |p.additions| && n == MakeNode(ShotKeyOf(place, ts, p.additions[i]), SetParent(c, place), []);
      ShotNode(s, c, place, p.additions[i]);
      assert n.key == ShotKeyOf(place, ts, p.additions[i]);
    }
    if n.key.ShotKey? && PlaceOf(n.key) == place && IsMissing(s, c, n.key) && n == NodeFor(s, c, n.key) {
      MissingShot(s, c, place, n.key);
      ShotNode(s, c, place, n.key.order);
      var i :| |p.suffix| <= i < |p.additions| && p.additions[i] == n.key.order;
    }
  }

  lemma MissingShot(s: Snapshot, c: Readback, place: Place, k: Key)
    requires k.ShotKey? && PlaceOf(k) == place && IsMissing(s, c, k)
    ensures place in s.target.shots && k.order < |s.target.shots[place]| && k == ShotKeyOf(place, s.target.shots[place], k.order)
  {
    hide PlanSet, Unreserved;
  }

  lemma SetsMembers(s: Snapshot, c: Readback, place: Place, n: Node)
    requires PlanAt(s, c, place).Ok? && PlanAt(s, c, place).value.additions != [] && place in s.target.shots
    ensures n in SetNodes(c, place) <==> n.key.SetKey? && PlaceOf(n.key) == place && IsMissing(s, c, n.key) && n == NodeFor(s, c, n.key)
  {
    SetNode(s, c, place);
    hide IsMissing, NodeFor, MakeNode, PlanAt, SetAt, TextParent;
    if n.key.SetKey? && PlaceOf(n.key) == place { assert n.key == SetKey(place.0, place.1); }
  }

  /** What is missing at a place makes its plan's additions nonempty. */
  lemma MissingAdds(s: Snapshot, c: Readback, k: Key)
    requires Stage(k) == 4 && IsMissing(s, c, k) && PlanAt(s, c, PlaceOf(k)).Ok?
    ensures PlanAt(s, c, PlaceOf(k)).value.additions != []
  {
    hide PlanSet;
  }

  lemma PlaceParts(s: Snapshot, c: Readback, place: Place)
    requires PlanAt(s, c, place).Ok?
    ensures var p := PlanAt(s, c, place).value;
            if p.additions == [] then PlaceNodes(s, c, place) == []
            else
              && place in s.target.shots && (forall i :: 0 <= i < |p.additions| ==> p.additions[i] < |s.target.shots[place]|)
              && PlaceNodes(s, c, place) ==
                 SetNodes(c, place) + ShotNodes(place, s.target.shots[place], p.additions, |p.suffix|, SetParent(c, place))
  {
    AdditionsInRange(s, c, place);
    hide PlanAt, SetNodes, ShotNodes, SetParent;
  }

  lemma StageOfPlaces(k: Key)
    ensures Stage(k) == 4 <==> k.SetKey? || k.ShotKey?
  {
  }

  lemma PlaceMembers(s: Snapshot, c: Readback, place: Place, n: Node)
    requires PlanAt(s, c, place).Ok?
    ensures n in PlaceNodes(s, c, place) <==> Stage(n.key) == 4 && PlaceOf(n.key) == place && IsMissing(s, c, n.key) && n == NodeFor(s, c, n.key)
  {
    PlaceParts(s, c, place);
    StageOfPlaces(n.key);
    hide *;
    if PlanAt(s, c, place).value.additions != [] {
      SetsMembers(s, c, place, n);
      ShotsListed(s, c, place, n);
    } else if Stage(n.key) == 4 && PlaceOf(n.key) == place && IsMissing(s, c, n.key) {
      MissingAdds(s, c, n.key);
    }
  }

  lemma {:induction false} PlaceListed(s: Snapshot, c: Readback, place: Place)
    requires PlanAt(s, c, place).Ok?
    ensures Listed(s, c, PlaceNodes(s, c, place), [place])
  {
    AdditionsInRange(s, c, place);
    var p := PlanAt(s, c, place).value;
    hide IsMissing, NodeFor, PlanAt, ShotNodes, SetParent, MakeNode, TextParent, SetAt;
    if p.additions != [] {
      var shots := ShotNodes(place, TargetsAt(s, place), p.additions, |p.suffix|, SetParent(c, place));
      ShotsDistinct(place, TargetsAt(s, place), p.additions, |p.suffix|, SetParent(c, place));
      forall n, m | n in SetNodes(c, place) && m in shots ensures n.key != m.key {
        SetsMembers(s, c, place, n);
        ShotsListed(s, c, place, m);
      }
      assert Distinct(Keys(SetNodes(c, place)));
      hide SetNodes, Keys, Distinct;
      DistinctPlus(SetNodes(c, place), shots);
    }
    hide Keys, Distinct, PlaceNodes;
    forall n ensures n in PlaceNodes(s, c, place) <==>
                     Stage(n.key) == 4 && PlaceOf(n.key) in [place] && IsMissing(s, c, n.key) && n == NodeFor(s, c, n.key) {
      PlaceMembers(s, c, place, n);
    }
  }

  /** Lists of disjoint places join. */
  lemma {:induction false} ListsJoin(s: Snapshot, c: Readback, a: seq<Node>, b: seq<Node>, ps: seq<Place>, qs: seq<Place>)
    requires Listed(s, c, a, ps) && Listed(s, c, b, qs) && forall p :: p in ps ==> p !in qs
    ensures Listed(s, c, a + b, ps + qs)
  {
    hide IsMissing, NodeFor, Keys, Distinct, Stage, PlaceOf;
    DistinctPlus(a, b);
  }

  lemma {:induction false} AllListed(s: Snapshot, c: Readback, places: seq<Place>)
    requires AllPlanned(s, c, places) && NoRepeat(places)
    ensures Listed(s, c, AllPlaceNodes(s, c, places), places)
  {
    hide PlanAt, PlaceNodes, Listed;
    if places != [] {
      var rest, last := places[..|places| - 1], places[|places| - 1];
      assert PlanAt(s, c, last).Ok?;
      RestOf(places);
      assert AllPlanned(s, c, rest);
      AllListed(s, c, rest);
      PlaceListed(s, c, last);
      ListsJoin(s, c, AllPlaceNodes(s, c, rest), PlaceNodes(s, c, last), rest, [last]);
    } else {
      NothingListed(s, c);
    }
  }

  lemma RestOf(places: seq<Place>)
    requires NoRepeat(places) && places != []
    ensures var rest, last := places[..|places| - 1], places[|places| - 1];
            NoRepeat(rest) && last !in rest && rest + [last] == places
  {
  }

  lemma NothingListed(s: Snapshot, c: Readback)
    ensures Listed(s, c, [], [])
  {
    hide IsMissing, NodeFor, Stage, PlaceOf;
  }

  lemma {:induction false} PlacesStaged(s: Snapshot, c: Readback, places: seq<Place>)
    requires AllPlanned(s, c, places) && NoRepeat(places) && forall place :: place in s.target.shots ==> place in places
    ensures Staged(s, c, AllPlaceNodes(s, c, places), 4, 5)
  {
    AllListed(s, c, places);
    forall k | IsMissing(s, c, k) && Stage(k) == 4 ensures PlaceOf(k) in places {
      hide Listed, AllPlaceNodes, IsMissing, Stage;
      MissingPlace(s, c, k);
    }
    hide *;
    ListedIsStaged(s, c, AllPlaceNodes(s, c, places), places);
  }

  lemma {:induction false} ListedIsStaged(s: Snapshot, c: Readback, ns: seq<Node>, places: seq<Place>)
    requires Listed(s, c, ns, places) && forall k :: IsMissing(s, c, k) && Stage(k) == 4 ==> PlaceOf(k) in places
    ensures Staged(s, c, ns, 4, 5)
  {
    hide Keys, Distinct, NodeFor, IsMissing, Stage, PlaceOf;
    forall k | IsMissing(s, c, k) && 4 <= Stage(k) < 5 ensures NodeFor(s, c, k) in ns {
      assert NodeFor(s, c, k).key == k;
    }
  }

  lemma MissingPlace(s: Snapshot, c: Readback, k: Key)
    requires IsMissing(s, c, k) && Stage(k) == 4
    ensures PlaceOf(k) in s.target.shots
  {
    hide PlanSet, Unreserved;
  }

  // ---------- the whole list ----------

  lemma {:induction false} ListStaged(s: Snapshot, c: Readback, o: Order)
    requires Enumerates(s, o) && CreateList(s, c, o).Some?
    ensures Staged(s, c, CreateList(s, c, o).value, 0, 6)
  {
    VersionStaged(s, c);
    LocalesStaged(s, c, false, o.texts);
    LocalesStaged(s, c, true, o.infoTexts);
    DetailStaged(s, c);
    PlacesStaged(s, c, o.places);
    ReviewStaged(s, c);
    hide Staged, VersionNodes, LocaleNodes, DetailNodes, AllPlaceNodes, ReviewNodes, Entries, InfoEntries, VersionParent, InfoParent;
    var texts := LocaleNodes(false, Entries(c.version), VersionParent(c), o.texts);
    var infos := LocaleNodes(true, InfoEntries(c.info), InfoParent(c), o.infoTexts);
    var l1 := VersionNodes(c) + texts;
    StagesJoin(s, c, VersionNodes(c), texts, 0, 1, 2);
    var l2 := l1 + infos;
    StagesJoin(s, c, l1, infos, 0, 2, 3);
    var l3 := l2 + DetailNodes(s, c);
    StagesJoin(s, c, l2, DetailNodes(s, c), 0, 3, 4);
    var l4 := l3 + AllPlaceNodes(s, c, o.places);
    StagesJoin(s, c, l3, AllPlaceNodes(s, c, o.places), 0, 4, 5);
    StagesJoin(s, c, l4, ReviewNodes(c), 0, 5, 6);
  }

  lemma MissingHasStage(s: Snapshot, c: Readback, k: Key)
    requires IsMissing(s, c, k)
    ensures Stage(k) < 6
  {
    hide IdOf, PlanSet, Unreserved;
  }

  /** Main step: the list is exactly the inventory of the missing resources, and no key occurs twice. */
  lemma {:induction false} ListIsInventory(s: Snapshot, c: Readback, o: Order)
    requires Enumerates(s, o) && CreateList(s, c, o).Some?
    ensures Distinct(Keys(CreateList(s, c, o).value)) && CreateNodes(s, c, CreateList(s, c, o).value)
  {
    var nodes := CreateList(s, c, o).value;
    ListStaged(s, c, o);
    hide CreateList, Distinct, Keys, IsMissing, NodeFor, CreateKeys, Enumerates, Stage;
    forall n | n in nodes ensures n.key in CreateKeys(s, c) { InCreateKeys(s, c, n.key); }
    forall k | k in CreateKeys(s, c) ensures k in Keys(nodes) {
      InCreateKeys(s, c, k);
      MissingHasStage(s, c, k);
      KeysOf(nodes, k);
      assert NodeFor(s, c, k) in nodes;
    }
  }

  /**
   Main result: whatever is missing, the list that `create_nodes` builds has distinct keys and a closed, acyclic
   dependency relation, so the guard finds an order for it.
   */
  lemma {:induction false} InventoryIsOrderable(s: Snapshot, c: Readback, o: Order)
    requires Prepared(s) && Enumerates(s, o) && CreateList(s, c, o).Some?
    ensures var nodes := CreateList(s, c, o).value;
            Distinct(Keys(nodes)) && CreateNodes(s, c, nodes) && Ranked(nodes) && Orderable(nodes)
  {
    ListIsInventory(s, c, o);
    assert InfoSettled(c);
    hide CreateList, Enumerates, Orderable, Prepared, CreateNodes, Distinct, Keys, Ranked, InfoSettled;
    InventoryIsRanked(s, c, CreateList(s, c, o).value);
    RankedIsOrderable(CreateList(s, c, o).value);
  }

  lemma {:induction false} LocalesBound(info: bool, shown: map<string, Entry>, parent: Parent, ls: seq<string>)
    ensures |LocaleNodes(info, shown, parent, ls)| <= |ls|
  {
    if ls != [] { LocalesBound(info, shown, parent, ls[..|ls| - 1]); }
  }

  lemma {:induction false} ShotsBound(place: Place, targets: seq<TargetShot>, additions: seq<nat>, reserved: nat, parent: Parent)
    requires forall i :: 0 <= i < |additions| ==> additions[i] < |targets|
    ensures |ShotNodes(place, targets, additions, reserved, parent)| <= |additions|
  {
    if |additions| > reserved { ShotsBound(place, targets, additions[..|additions| - 1], reserved, parent); }
  }

  lemma {:induction false} PlacesBound(s: Snapshot, c: Readback, places: seq<Place>)
    requires AllPlanned(s, c, places)
    ensures |AllPlaceNodes(s, c, places)| <= (CAP + 1) * |places|
  {
    if places != [] {
      var place := places[|places| - 1];
      var p := PlanAt(s, c, place).value;
      PlacesBound(s, c, places[..|places| - 1]);
      PlanParts(CaseAt(s, place), SetAt(c.version, place));
      hide PlanSet, CaseAt, SetAt, KeptIntact, Reserves, Kept;
      AdditionsInRange(s, c, place);
      ShotsBound(place, TargetsAt(s, place), p.additions, |p.suffix|, SetParent(c, place));
    }
  }

  /** The ten-image cap bounds the list, so the guard's limit is only met by many places or locales. */
  lemma {:induction false} ListBound(s: Snapshot, c: Readback, o: Order)
    requires CreateList(s, c, o).Some?
    ensures |CreateList(s, c, o).value| <= 4 + |o.texts| + |o.infoTexts| + (CAP + 1) * |o.places|
  {
    LocalesBound(false, Entries(c.version), VersionParent(c), o.texts);
    LocalesBound(true, InfoEntries(c.info), InfoParent(c), o.infoTexts);
    PlacesBound(s, c, o.places);
    hide LocaleNodes, AllPlaceNodes, Selected, PlanAt;
  }

  /** `create_nodes` raises on no accepted readback whose AppInfo has appeared with its version. */
  lemma AcceptedIsListed(s: Snapshot, c: Readback, o: Order)
    requires Accepts(s, c)
    ensures CreateList(s, c, o).Some? <==> InfoSettled(c)
  {
    hide PlanAt, Selected;
  }

  lemma {:induction false} SomeListing<T>(keys: set<T>) returns (xs: seq<T>)
    ensures NoRepeat(xs) && (set x | x in xs) == keys
  {
    if keys == {} { return []; }
    var x :| x in keys;
    var rest := SomeListing(keys - {x});
    xs := rest + [x];
    assert (set z | z in rest) + {x} == keys;
    forall y | y in keys ensures y in xs { assert y == x || y in (set z | z in rest); }
    forall y | y in xs ensures y in keys { assert y == x || y in (set z | z in rest); }
  }

  lemma EveryTargetIsEnumerable(s: Snapshot) returns (o: Order)
    ensures Enumerates(s, o)
  {
    var texts: seq<string> := SomeListing(s.target.texts.Keys);
    var infoTexts: seq<string> := SomeListing(s.target.infoTexts.Keys);
    var places: seq<Place> := SomeListing(s.target.shots.Keys);
    forall l | l in s.target.texts ensures l in texts { assert l in (set x | x in texts); }
    forall l | l in s.target.infoTexts ensures l in infoTexts { assert l in (set x | x in infoTexts); }
    forall place | place in s.target.shots ensures place in places { assert place in (set x | x in places); }
    o := Order(texts, infoTexts, places);
  }
}
