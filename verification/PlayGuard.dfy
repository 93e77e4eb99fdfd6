/**
 The guard around one Play edit: what the destination and source tracks must look
 like after the update, before the commit and in the readback after the commit.
 */
module PlayGuards {
  import opened Bytes
  import opened PlayTracks

  // ---------- releases that mention a version code ----------

  function Codes(release: Json): Json {
    if release.JObject? && "versionCodes" in release.fields then release.fields["versionCodes"] else JArray([])
  }

  predicate Mentions(release: Json, code: string) {
    Codes(release).JArray? && JString(code) in Codes(release).items
  }

  function Matching(releases: seq<Json>, code: string, wanted: bool): seq<Json> {
    if releases == [] then []
    else
      var front, last := Matching(releases[..|releases| - 1], code, wanted), releases[|releases| - 1];
      if Mentions(last, code) == wanted then front + [last] else front
  }

  function WithCode(state: State, code: string): seq<Json> { Matching(state.releases, code, true) }

  function WithoutCode(env: Env, state: State, code: string): seq<Json> {
    Sort(env.text, Matching(state.releases, code, false))
  }

  lemma {:induction false} MatchingCounts(releases: seq<Json>, code: string, wanted: bool, x: Json)
    ensures multiset(Matching(releases, code, wanted))[x] ==
            if Mentions(x, code) == wanted then multiset(releases)[x] else 0
  {
    if releases != [] {
      var front, last := releases[..|releases| - 1], releases[|releases| - 1];
      MatchingCounts(front, code, wanted, x);
      assert releases == front + [last];
      assert multiset(Matching(front, code, wanted) + [last]) == multiset(Matching(front, code, wanted)) + multiset{last};
    }
  }

  /** A track is its releases with the code and its releases without it. */
  lemma MatchingSplits(releases: seq<Json>, code: string)
    ensures multiset(releases) == multiset(Matching(releases, code, true)) + multiset(Matching(releases, code, false))
  {
    hide Matching, Mentions;
    var yes, no := multiset(Matching(releases, code, true)), multiset(Matching(releases, code, false));
    forall x ensures multiset(releases)[x] == (yes + no)[x] {
      MatchingCounts(releases, code, true, x);
      MatchingCounts(releases, code, false, x);
    }
  }

  // ---------- the two release shapes ----------

  function Status(env: Env, release: Json): string {
    if release.JObject? && "status" in release.fields then env.plain(release.fields["status"]) else env.plain(JNull)
  }

  /** A release that carries the code, only the code, and the wanted status. */
  predicate Singleton(env: Env, release: Json, code: string, status: string) {
    Codes(release) == JArray([JString(code)]) && Status(env, release) == status
  }

  /** `require_target_release!`, and `require_source_release!` with the status "completed". */
  function RequireRelease(env: Env, state: State, code: string, status: string): Result<Json> {
    var matches := WithCode(state, code);
    if |matches| == 1 && Singleton(env, matches[0], code, status) then Ok(matches[0]) else Rejected
  }

  function WithoutNotes(release: Json): Json {
    if release.JObject?
    then JObject(map k | k in release.fields && k != "releaseNotes" :: release.fields[k]) else release
  }

  predicate AgreesWith(target: Json, baseline: Option<Json>, notesMayChange: bool) {
    match baseline
    case None => true
    case Some(first) =>
      if notesMayChange then WithoutNotes(target) == WithoutNotes(first) else target == first
  }

  /** `verify_preserved_destination!`. */
  function Preserved(env: Env, before: State, code: string, status: string, baseline: Option<Json>,
                     current: State, notesMayChange: bool): Result<Json> {
    var unrelated := WithoutCode(env, before, code);
    if |before.releases| != |unrelated| then Rejected
    else if unrelated != WithoutCode(env, current, code) then Rejected
    else if |current.releases| != |before.releases| + 1 then Rejected
    else
      var target := RequireRelease(env, current, code, status);
      if target.Ok? && AgreesWith(target.value, baseline, notesMayChange) then target else Rejected
  }

  /** The track gained `target` and nothing else changed. */
  predicate Gained(before: State, current: State, target: Json, code: string) {
    && multiset(current.releases) == multiset(before.releases) + multiset{target}
    && forall r :: r in before.releases ==> !Mentions(r, code)
  }

  lemma FreshCode(releases: seq<Json>, code: string)
    ensures |Matching(releases, code, false)| == |releases| <==> forall r :: r in releases ==> !Mentions(r, code)
    ensures Matching(releases, code, true) == [] <==> forall r :: r in releases ==> !Mentions(r, code)
  {
    hide Matching, Mentions;
    MatchingSplits(releases, code);
    var yes, no := Matching(releases, code, true), Matching(releases, code, false);
    Sizes(releases, yes, no);
    forall r ensures r in yes <==> r in releases && Mentions(r, code) {
      MatchingCounts(releases, code, true, r);
      assert (r in releases <==> r in multiset(releases)) && (r in yes <==> r in multiset(yes));
    }
    if yes != [] { assert yes[0] in yes; }
  }

  lemma Sizes<T>(all: seq<T>, a: seq<T>, b: seq<T>)
    requires multiset(all) == multiset(a) + multiset(b)
    ensures |all| == |a| + |b|
  {
    assert |multiset(all)| == |all| && |multiset(a)| == |a| && |multiset(b)| == |b|;
  }

  /**
   Main result: the destination check passes exactly when the destination is, as a
   collection, the state before the edit plus one release that is a singleton for a
   code the track did not have, and that agrees with the first observation.
   */
  lemma PreservedExactly(env: Env, before: State, code: string, status: string, baseline: Option<Json>,
                         current: State, notesMayChange: bool, target: Json)
    requires Injective(env.text)
    ensures Preserved(env, before, code, status, baseline, current, notesMayChange) == Ok(target) <==>
            Gained(before, current, target, code) && Singleton(env, target, code, status)
            && AgreesWith(target, baseline, notesMayChange)
  {
    var was, now := Matching(before.releases, code, false), Matching(current.releases, code, false);
    SortForgetsOrder(env.text, was, now);
    GainedExactly(before, current, code, target);
    PreservedSteps(env, before, code, status, baseline, current, notesMayChange, target);
    if Singleton(env, target, code, status) {
      SingletonMentions(env, target, code, status);
    }
    hide *;
  }

  lemma PreservedSteps(env: Env, before: State, code: string, status: string, baseline: Option<Json>,
                       current: State, notesMayChange: bool, target: Json)
    ensures var was, now := Matching(before.releases, code, false), Matching(current.releases, code, false);
            Preserved(env, before, code, status, baseline, current, notesMayChange) == Ok(target) <==>
            |before.releases| == |was| && Sort(env.text, was) == Sort(env.text, now)
            && |current.releases| == |before.releases| + 1 && Matching(current.releases, code, true) == [target]
            && Singleton(env, target, code, status) && AgreesWith(target, baseline, notesMayChange)
  {
    RequiredIs(env, current, code, status, target);
    assert |Sort(env.text, Matching(before.releases, code, false))| == |Matching(before.releases, code, false)|;
    hide Sort, Matching, AgreesWith, Singleton, RequireRelease;
  }

  lemma RequiredIs(env: Env, state: State, code: string, status: string, release: Json)
    ensures RequireRelease(env, state, code, status) == Ok(release) <==>
            Matching(state.releases, code, true) == [release] && Singleton(env, release, code, status)
  {
    var found := Matching(state.releases, code, true);
    hide Matching, Singleton;
    if |found| == 1 { assert found == [found[0]]; }
  }

  lemma SingletonMentions(env: Env, target: Json, code: string, status: string)
    requires Singleton(env, target, code, status)
    ensures Mentions(target, code)
  {
    assert JString(code) in [JString(code)];
  }

  /** The counting half of the destination check. */
  lemma GainedExactly(before: State, current: State, code: string, target: Json)
    ensures var was, now := Matching(before.releases, code, false), Matching(current.releases, code, false);
            Mentions(target, code) ==>
            (Gained(before, current, target, code) <==>
             |before.releases| == |was| && multiset(was) == multiset(now)
             && |current.releases| == |before.releases| + 1 && Matching(current.releases, code, true) == [target])
  {
    var was, now := Matching(before.releases, code, false), Matching(current.releases, code, false);
    var rest, found := Matching(before.releases, code, true), Matching(current.releases, code, true);
    FreshCode(before.releases, code);
    MatchingSplits(before.releases, code);
    MatchingSplits(current.releases, code);
    Sizes(before.releases, rest, was);
    if Mentions(target, code) && Gained(before, current, target, code) {
      GainedIsFound(before, current, target, code);
      hide Matching, Mentions;
      assert rest == [] && multiset(was) == multiset(before.releases);
      assert |multiset(current.releases)| == |current.releases| && |multiset(before.releases)| == |before.releases|;
    } else if |before.releases| == |was| && multiset(was) == multiset(now) && found == [target] {
      hide Matching, Mentions;
      assert rest == [];
      assert multiset(current.releases) == multiset(before.releases) + multiset{target};
    }
  }

  lemma GainedIsFound(before: State, current: State, target: Json, code: string)
    requires Gained(before, current, target, code) && Mentions(target, code)
    ensures Matching(current.releases, code, true) == [target]
    ensures multiset(Matching(current.releases, code, false)) == multiset(before.releases)
  {
    var yes, no := Matching(current.releases, code, true), Matching(current.releases, code, false);
    hide Matching, Mentions;
    forall x ensures multiset(yes)[x] == multiset{target}[x] && multiset(no)[x] == multiset(before.releases)[x] {
      MatchingCounts(current.releases, code, true, x);
      MatchingCounts(current.releases, code, false, x);
      assert x in multiset(before.releases) <==> x in before.releases;
    }
    OnlyOne(yes, target);
    assert multiset(no) == multiset(before.releases);
  }

  lemma OnlyOne<T>(xs: seq<T>, x: T)
    requires forall y :: multiset(xs)[y] == multiset{x}[y]
    ensures xs == [x]
  {
    assert multiset(xs) == multiset{x};
    assert |xs| == |multiset(xs)| == 1;
    assert xs[0] in multiset(xs);
  }

  // ---------- the promoted source ----------

  datatype Transition = Retained | Deactivated

  /** `verify_source_transition!`. */
  function SourceMove(env: Env, before: State, code: string, prior: Option<Transition>, current: State): Result<Transition> {
    if WithoutCode(env, current, code) != WithoutCode(env, before, code) then Rejected
    else if WithCode(current, code) == [] then
      if current == before.(releases := WithoutCode(env, before, code)) then Ok(Deactivated) else Rejected
    else if RequireRelease(env, current, code, "completed").Rejected? || current != before then Rejected
    else if prior == Some(Deactivated) then Rejected
    else Ok(Retained)
  }

  /** The source lost `release` and nothing else changed. */
  predicate Lost(before: State, current: State, release: Json) {
    current.track == before.track && multiset(before.releases) == multiset(current.releases) + multiset{release}
  }

  /**
   Main result: the source check passes exactly when the source is untouched and was
   never seen deactivated, or has lost exactly the promoted release.
   */
  lemma SourceMoveExactly(env: Env, before: State, code: string, prior: Option<Transition>, current: State, release: Json)
    requires Injective(env.text) && Sorted(env.text, current.releases)
    requires RequireRelease(env, before, code, "completed") == Ok(release)
    ensures SourceMove(env, before, code, prior, current) == Ok(Retained) <==>
            current == before && prior != Some(Deactivated)
    ensures SourceMove(env, before, code, prior, current) == Ok(Deactivated) <==> Lost(before, current, release)
  {
    RequiredIs(env, before, code, "completed", release);
    assert Mentions(release, code) by { assert JString(code) in [JString(code)]; }
    DeactivatedExactly(env, before, code, current, release);
    hide Sort, Singleton, Mentions, RequireRelease, Matching, Lost, Injective, Sorted;
  }

  lemma DeactivatedExactly(env: Env, before: State, code: string, current: State, release: Json)
    requires Injective(env.text) && Sorted(env.text, current.releases)
    requires WithCode(before, code) == [release] && Mentions(release, code)
    ensures Lost(before, current, release) <==>
            WithoutCode(env, current, code) == WithoutCode(env, before, code) && WithCode(current, code) == []
            && current == before.(releases := WithoutCode(env, before, code))
  {
    var was, now := Matching(before.releases, code, false), Matching(current.releases, code, false);
    MatchingSplits(before.releases, code);
    SortSorted(env.text, was);
    hide Sort, Mentions;
    assert multiset(before.releases) == multiset(was) + multiset{release};
    if Lost(before, current, release) {
      LostIsUnrelated(before, current, code, release);
      MatchingSplits(current.releases, code);
      hide Matching;
      assert multiset(current.releases) == multiset(was);
      SortedUnique(env.text, current.releases, Sort(env.text, was));
      SortForgetsOrder(env.text, was, now);
    }
  }

  lemma LostIsUnrelated(before: State, current: State, code: string, release: Json)
    requires Lost(before, current, release) && Mentions(release, code)
    requires multiset(before.releases) == multiset(Matching(before.releases, code, false)) + multiset{release}
    ensures Matching(current.releases, code, true) == []
    ensures multiset(Matching(current.releases, code, false)) == multiset(Matching(before.releases, code, false))
  {
    var yes, no := Matching(current.releases, code, true), Matching(current.releases, code, false);
    var was := Matching(before.releases, code, false);
    hide Matching, Mentions;
    forall x ensures multiset(yes)[x] == 0 && multiset(no)[x] == multiset(was)[x] {
      MatchingCounts(current.releases, code, true, x);
      MatchingCounts(current.releases, code, false, x);
      MatchingCounts(before.releases, code, false, x);
      assert multiset(current.releases) == multiset(before.releases) - multiset{release};
    }
    assert multiset(no) == multiset(was);
    assert multiset(yes) == multiset{};
    assert |yes| == |multiset(yes)| == 0;
  }

  /** The source check against a prior finding leaves the finding `next`; without a source nothing is found. */
  predicate Moved(env: Env, source: Option<State>, code: string, prior: Option<Transition>, now: State, next: Option<Transition>) {
    if source.None? then next == prior
    else next.Some? && SourceMove(env, source.value, code, prior, now) == Ok(next.value)
  }

  predicate SourceFits(env: Env, source: Option<State>, code: string, prior: Option<Transition>, now: State) {
    source.None? || SourceMove(env, source.value, code, prior, now).Ok?
  }

  // ---------- one guarded edit ----------

  class PlayGuard {
    const env: Env
    const before: State
    const code: string
    const status: string
    const source: Option<State>
    const promoted: Option<Json>
    var baseline: Option<Json>
    var expected: Option<State>
    var transition: Option<Transition>

    /** What is already known of the edit, in terms of the state before it. */
    ghost predicate Valid()
      reads this
    {
      && Injective(env.text)
      && (source.Some? <==> promoted.Some?)
      && (source.Some? ==> RequireRelease(env, source.value, code, "completed") == Ok(promoted.value))
      && (baseline.Some? ==> Singleton(env, baseline.value, code, status))
      && (expected.Some? ==> baseline.Some?)
      && (expected.Some? ==>
            exists target :: Gained(before, expected.value, target, code) && Singleton(env, target, code, status)
                             && AgreesWith(target, baseline, true))
    }

    constructor (env: Env, before: State, code: string, status: string, source: Option<State>, promoted: Option<Json>)
      requires Injective(env.text) && (source.Some? <==> promoted.Some?)
      requires source.Some? ==> RequireRelease(env, source.value, code, "completed") == Ok(promoted.value)
      ensures Valid() && baseline.None? && expected.None? && transition.None?
      ensures this.env == env && this.before == before && this.code == code && this.status == status
      ensures this.source == source && this.promoted == promoted
    {
      this.env, this.before, this.code, this.status := env, before, code, status;
      this.source, this.promoted := source, promoted;
      baseline, expected, transition := None, None, None;
    }

    /** `verify_source_transition!`: a source once seen deactivated stays deactivated. */
    method VerifySource(sourceNow: State) returns (ok: bool)
      requires Valid()
      modifies this`transition
      ensures Valid()
      ensures ok <==> SourceFits(env, source, code, old(transition), sourceNow)
      ensures if ok then Moved(env, source, code, old(transition), sourceNow, transition) else transition == old(transition)
    {
      if source.None? { return true; }
      var move := SourceMove(env, source.value, code, transition, sourceNow);
      if move.Rejected? { return false; }
      transition := Some(move.value);
      return true;
    }

    /** `verify_initial_update!`: the target as first observed becomes the baseline. */
    method VerifyInitial(destination: State, sourceNow: State) returns (ok: bool)
      requires Valid() && baseline.None? && expected.None?
      requires Sorted(env.text, destination.releases) && Sorted(env.text, sourceNow.releases)
      modifies this
      ensures Valid() && expected.None?
      ensures ok <==> Preserved(env, before, code, status, None, destination, false).Ok?
                      && SourceFits(env, source, code, old(transition), sourceNow)
      ensures ok ==> baseline.Some? && Gained(before, destination, baseline.value, code)
      ensures !ok ==> baseline.None?
      ensures if ok then Moved(env, source, code, old(transition), sourceNow, transition) else transition == old(transition)
    {
      var target := Preserved(env, before, code, status, baseline, destination, false);
      if target.Rejected? { return false; }
      var moved := VerifySource(sourceNow);
      if !moved { return false; }
      PreservedExactly(env, before, code, status, None, destination, false, target.value);
      baseline := Some(target.value);
      return true;
    }

    /** `verify_guard_before_commit!`: the validated edit is what the commit must show. */
    method VerifyBeforeCommit(destination: State, sourceNow: State) returns (ok: bool)
      requires Valid() && baseline.Some?
      requires Sorted(env.text, destination.releases) && Sorted(env.text, sourceNow.releases)
      modifies this`expected, this`transition
      ensures Valid()
      ensures ok <==> Preserved(env, before, code, status, baseline, destination, true).Ok?
                      && SourceFits(env, source, code, old(transition), sourceNow)
      ensures ok ==> expected == Some(destination)
      ensures if ok then Moved(env, source, code, old(transition), sourceNow, transition) else transition == old(transition)
    {
      var target := Preserved(env, before, code, status, baseline, destination, true);
      if target.Rejected? { return false; }
      PreservedExactly(env, before, code, status, baseline, destination, true, target.value);
      expected := Some(destination);
      var moved := VerifySource(sourceNow);
      if !moved { return false; }
      return true;
    }

    /**
     `verify_committed_state!`. On success the committed destination is the state
     before the edit plus one singleton target that differs from the first
     observation only in its notes; the source is untouched or lost exactly the
     promoted release, and never regained it.
     */
    method VerifyCommitted(destination: State, sourceNow: State) returns (ok: bool)
      requires Valid()
      requires Sorted(env.text, destination.releases) && Sorted(env.text, sourceNow.releases)
      modifies this`transition
      ensures Valid()
      ensures ok <==> expected == Some(destination)
                      && SourceFits(env, source, code, old(transition), sourceNow)
      ensures ok ==> baseline.Some?
      ensures ok ==> exists target :: Gained(before, destination, target, code) && Singleton(env, target, code, status)
                                      && AgreesWith(target, baseline, true)
      ensures ok && source.Some? ==>
                if transition == Some(Retained) then sourceNow == source.value && old(transition) != Some(Deactivated)
                else transition == Some(Deactivated) && Lost(source.value, sourceNow, promoted.value)
    {
      if expected != Some(destination) { return false; }
      var moved := VerifySource(sourceNow);
      if !moved { return false; }
      if source.Some? {
        SourceMoveExactly(env, source.value, code, old(transition), sourceNow, promoted.value);
      }
      return true;
    }
  }

  /** `update_track` and `promote_track` up to the write: refused when the code is already there or not promotable. */
  method Prepare(env: Env, before: State, code: string, status: string, source: Option<State>) returns (g: PlayGuard?)
    requires Injective(env.text)
    ensures g == null <==> (exists r :: r in before.releases && Mentions(r, code))
                           || (source.Some? && RequireRelease(env, source.value, code, "completed").Rejected?)
    ensures g != null ==> fresh(g) && g.Valid() && g.before == before && g.code == code && g.status == status
                          && g.source == source && g.baseline.None? && g.expected.None? && g.transition.None?
  {
    var promoted := None;
    if source.Some? {
      var release := RequireRelease(env, source.value, code, "completed");
      if release.Rejected? { return null; }
      promoted := Some(release.value);
    }
    FreshCode(before.releases, code);
    MatchingSplits(before.releases, code);
    assert |multiset(before.releases)| == |before.releases|;
    if WithCode(before, code) != [] {
      assert |multiset(Matching(before.releases, code, true))| > 0;
      return null;
    }
    g := new PlayGuard(env, before, code, status, source, promoted);
  }

  /** Two states that both lost the promoted release are the same state: a deactivation has one outcome. */
  lemma DeactivationIsUnique(env: Env, before: State, a: State, b: State, release: Json)
    requires Injective(env.text) && Sorted(env.text, a.releases) && Sorted(env.text, b.releases)
    requires Lost(before, a, release) && Lost(before, b, release)
    ensures a == b
  {
    hide Sorted, Injective;
    assert multiset(a.releases) == multiset(before.releases) - multiset{release} == multiset(b.releases);
    SortedUnique(env.text, a.releases, b.releases);
  }
}
