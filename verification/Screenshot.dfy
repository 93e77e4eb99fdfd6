/**
 The screenshot plan of one set: what is kept, what is added in which order, and
 the ten-image cap.
 */
module Screenshots {
  import opened Bytes
  import opened CreateGuards

  const CAP: nat := 10

  datatype Delivery = AwaitingUpload | UploadComplete | Complete | Failed | OtherDelivery

  datatype Shot = Shot(id: Id, fileName: string, size: nat, checksum: string, delivery: Delivery)

  datatype ShotSet = ShotSet(id: Id, shots: seq<Shot>)

  datatype TargetShot = TargetShot(fileName: string, size: nat, sha: string, checksum: string, path: string)

  predicate SameContent(a: Shot, b: Shot) {
    a.fileName == b.fileName && a.size == b.size && a.checksum == b.checksum
  }

  predicate Matches(shot: Shot, t: TargetShot) {
    shot.size == t.size && shot.checksum == t.checksum
  }

  function MatchCount(kept: seq<Shot>, t: TargetShot): nat {
    if kept == [] then 0
    else MatchCount(kept[..|kept| - 1], t) + (if Matches(kept[|kept| - 1], t) then 1 else 0)
  }

  /** The indices of the targets that no kept screenshot already shows, in target order. */
  function Additions(kept: seq<Shot>, targets: seq<TargetShot>): (xs: seq<nat>)
    ensures |xs| <= |targets|
    ensures forall i :: 0 <= i < |xs| ==> xs[i] < |targets| && MatchCount(kept, targets[xs[i]]) == 0
    ensures forall i, j :: 0 <= i < j < |xs| ==> xs[i] < xs[j]
  {
    if targets == [] then []
    else
      var front := Additions(kept, targets[..|targets| - 1]);
      if MatchCount(kept, targets[|targets| - 1]) == 0 then front + [|targets| - 1] else front
  }

  /** How one set is judged: a fixed version keeps its own shots, a new one may have inherited the live ones. */
  datatype Case = Case(fixed: bool, nonce: string, base: Option<ShotSet>, targets: seq<TargetShot>)
  {
    function Prior(): seq<Shot> { if base.Some? then base.value.shots else [] }
  }

  /** The operation's own reservations carry its nonce in their names. */
  predicate Owned(nonce: string, fileName: string) {
    "mrk-" + nonce + "-" <= fileName
  }

  function ShotsOf(now: Option<ShotSet>): seq<Shot> {
    if now.Some? then now.value.shots else []
  }

  function Kept(k: Case, now: Option<ShotSet>): seq<Shot> {
    var shots := ShotsOf(now);
    if k.fixed || (shots != [] && !Owned(k.nonce, shots[0].fileName)) then k.Prior() else []
  }

  datatype Plan = Plan(kept: nat, additions: seq<nat>, suffix: seq<Shot>)
  {
    /** Everything is there and delivered. */
    predicate Final() {
      |suffix| == |additions| && forall i :: 0 <= i < |suffix| ==> suffix[i].delivery.Complete?
    }
  }

  predicate KeptIntact(k: Case, kept: seq<Shot>, shots: seq<Shot>) {
    |kept| <= |shots|
    && forall i :: 0 <= i < |kept| ==>
         SameContent(shots[i], kept[i]) && shots[i].delivery.Complete? && (k.fixed ==> shots[i].id == kept[i].id)
  }

  /** A reservation that may stand where target t is due. */
  predicate Reserves(shot: Shot, t: TargetShot) {
    && shot.fileName == t.fileName && shot.size == t.size && (shot.checksum == "" || shot.checksum == t.checksum)
    && !shot.delivery.OtherDelivery?
    && (shot.delivery.UploadComplete? || shot.delivery.Complete? ==> shot.checksum == t.checksum)
  }

  /** One key of `screenshot_plan`: the plan, or a refusal. */
  function PlanSet(k: Case, now: Option<ShotSet>): Result<Plan> {
    var kept, shots := Kept(k, now), ShotsOf(now);
    var additions := Additions(kept, k.targets);
    var prior := k.Prior();
    if k.fixed && k.base.Some? && (now.None? || now.value.id != k.base.value.id) then Rejected
    else if !KeptIntact(k, kept, shots) then Rejected
    else if exists i :: 0 <= i < |k.targets| && MatchCount(kept, k.targets[i]) > 1 then Rejected
    else if exists i, j :: 0 <= i < |additions| && 0 <= j < |prior| && prior[j].fileName == k.targets[additions[i]].fileName then Rejected
    else if !k.fixed && |prior| + |Additions(prior, k.targets)| > CAP then Rejected
    else if |kept| + |additions| > CAP then Rejected
    else
      var suffix := shots[|kept|..];
      if |suffix| > |additions| then Rejected
      else if exists i :: 0 <= i < |suffix| && !Reserves(suffix[i], k.targets[additions[i]]) then Rejected
      else Ok(Plan(|kept|, additions, suffix))
  }

  // ---------- what an accepted set looks like ----------

  /** The parts of an accepted plan. */
  lemma PlanParts(k: Case, now: Option<ShotSet>)
    requires PlanSet(k, now).Ok?
    ensures var p, kept, shots := PlanSet(k, now).value, Kept(k, now), ShotsOf(now);
            && p.kept == |kept| <= |shots| && p.additions == Additions(kept, k.targets) && p.suffix == shots[|kept|..]
            && KeptIntact(k, kept, shots) && |p.suffix| <= |p.additions| && p.kept + |p.additions| <= CAP
            && (forall i :: 0 <= i < |p.suffix| ==> Reserves(p.suffix[i], k.targets[p.additions[i]]))
            && (k.fixed && k.base.Some? ==> now.Some? && now.value.id == k.base.value.id)
  {
    hide Additions, MatchCount, Matches, Kept, Reserves, SameContent;
  }

  /** Main result: an accepted set is the kept list, intact, followed by reservations for the additions in order. */
  lemma AcceptedShape(k: Case, now: Option<ShotSet>)
    requires PlanSet(k, now).Ok?
    ensures var p, shots := PlanSet(k, now).value, ShotsOf(now);
            && |shots| == p.kept + |p.suffix| <= p.kept + |p.additions| <= CAP
            && (forall i :: 0 <= i < p.kept ==> SameContent(shots[i], Kept(k, now)[i]) && shots[i].delivery.Complete?)
            && (forall i :: 0 <= i < |p.suffix| ==>
                  shots[p.kept + i] == p.suffix[i] && p.suffix[i].fileName == k.targets[p.additions[i]].fileName)
            && (p.Final() <==> |shots| == p.kept + |p.additions| && forall i :: 0 <= i < |shots| ==> shots[i].delivery.Complete?)
  {
    PlanParts(k, now);
    var p, shots := PlanSet(k, now).value, ShotsOf(now);
    hide Additions, PlanSet, Kept, SameContent;
    SuffixIs(p, shots);
    FinalMeans(p, shots);
  }

  lemma SuffixIs(p: Plan, shots: seq<Shot>)
    requires p.kept <= |shots| && p.suffix == shots[p.kept..]
    ensures forall i :: 0 <= i < |p.suffix| ==> shots[p.kept + i] == p.suffix[i]
  {
  }

  lemma FinalMeans(p: Plan, shots: seq<Shot>)
    requires p.kept <= |shots| && p.suffix == shots[p.kept..]
    requires forall i :: 0 <= i < p.kept ==> shots[i].delivery.Complete?
    ensures p.Final() <==> |shots| == p.kept + |p.additions| && forall i :: 0 <= i < |shots| ==> shots[i].delivery.Complete?
  {
    if p.Final() {
      forall i | 0 <= i < |shots| ensures shots[i].delivery.Complete? {
        if i >= p.kept { assert shots[i] == p.suffix[i - p.kept]; }
      }
    }
  }

  /** Every target is shown: by a kept screenshot, or by the reservation that stands for it. */
  lemma {:induction false} EveryTargetIsShown(kept: seq<Shot>, targets: seq<TargetShot>, t: nat)
    requires t < |targets|
    ensures MatchCount(kept, targets[t]) == 0 <==> t in Additions(kept, targets)
  {
    var front := targets[..|targets| - 1];
    if t < |targets| - 1 {
      EveryTargetIsShown(kept, front, t);
      assert front[t] == targets[t];
    }
  }

  lemma {:induction false} NothingKept(targets: seq<TargetShot>)
    ensures |Additions([], targets)| == |targets|
    ensures forall i :: 0 <= i < |targets| ==> Additions([], targets)[i] == i
  {
    if targets != [] {
      NothingKept(targets[..|targets| - 1]);
    }
  }

  /**
   Main result: the check made before the version exists settles the cap. Whether Apple later creates the version
   empty or with cloned live assets, neither list with its additions can exceed ten images.
   */
  lemma CapIsSettledEarly(k: Case, now: Option<ShotSet>)
    requires !k.fixed && |k.targets| <= CAP && PlanSet(k, None).Ok?
    ensures |Kept(k, now)| + |Additions(Kept(k, now), k.targets)| <= CAP
  {
    NothingKept(k.targets);
    hide Additions;
  }

  // ---------- how plans evolve ----------

  /** Additions only shrink when the kept list turns out to be the inherited one. */
  lemma AdditionsShrink(kept: seq<Shot>, targets: seq<TargetShot>, t: nat)
    requires t in Additions(kept, targets)
    ensures t in Additions([], targets)
  {
    var i :| 0 <= i < |Additions(kept, targets)| && Additions(kept, targets)[i] == t;
    EveryTargetIsShown([], targets, t);
  }
}
