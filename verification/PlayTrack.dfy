/**
 Canonical Play track states: a track is compared as an unordered collection of
 normalized releases.
 */
module PlayTracks {
  import opened Bytes

  /** A JSON value. Objects are unordered, exactly as the hashes of the original compare. */
  datatype Json =
    | JNull | JBool(flag: bool) | JNumber(digits: string) | JString(text: string)
    | JArray(items: seq<Json>) | JObject(fields: map<string, Json>)

  /** Canonical JSON text (taken to be injective), decimal spelling of a fraction, and `to_s`. */
  datatype Env = Env(text: Json -> string, decimal: Json -> Option<string>, plain: Json -> string)

  ghost predicate Injective(text: Json -> string) {
    forall a, b :: text(a) == text(b) ==> a == b
  }

  // ---------- sorting by text ----------

  function Before(a: string, b: string): bool {
    if a == "" then true else if b == "" then false
    else if a[0] == b[0] then Before(a[1..], b[1..]) else a[0] < b[0]
  }

  lemma {:induction false} BeforeTotal(a: string, b: string)
    ensures Before(a, b) || Before(b, a)
    ensures Before(a, b) && Before(b, a) ==> a == b
  {
    if a != "" && b != "" && a[0] == b[0] {
      BeforeTotal(a[1..], b[1..]);
      assert a == [a[0]] + a[1..] && b == [b[0]] + b[1..];
    }
  }

  lemma {:induction false} BeforeTransitive(a: string, b: string, c: string)
    requires Before(a, b) && Before(b, c)
    ensures Before(a, c)
  {
    if a != "" && b != "" && c != "" && a[0] == b[0] == c[0] { BeforeTransitive(a[1..], b[1..], c[1..]); }
  }

  function Insert(text: Json -> string, x: Json, xs: seq<Json>): (r: seq<Json>)
    ensures multiset(r) == multiset(xs) + multiset{x} && |r| == |xs| + 1
  {
    if xs == [] then [x]
    else if Before(text(x), text(xs[0])) then
      assert multiset([x] + xs) == multiset{x} + multiset(xs);
      [x] + xs
    else
      var rest := Insert(text, x, xs[1..]);
      assert xs == [xs[0]] + xs[1..];
      assert multiset([xs[0]] + rest) == multiset{xs[0]} + multiset(rest);
      [xs[0]] + rest
  }

  /** `sort_by` canonical text. */
  function Sort(text: Json -> string, xs: seq<Json>): (r: seq<Json>)
    ensures multiset(r) == multiset(xs) && |r| == |xs|
  {
    if xs == [] then []
    else
      assert xs == [xs[0]] + xs[1..];
      Insert(text, xs[0], Sort(text, xs[1..]))
  }

  predicate Sorted(text: Json -> string, xs: seq<Json>) {
    forall i, j :: 0 <= i < j < |xs| ==> Before(text(xs[i]), text(xs[j]))
  }

  lemma {:induction false} InsertSorted(text: Json -> string, x: Json, xs: seq<Json>)
    requires Sorted(text, xs)
    ensures Sorted(text, Insert(text, x, xs))
  {
    if xs != [] {
      BeforeTotal(text(x), text(xs[0]));
      if Before(text(x), text(xs[0])) {
        forall j | 0 <= j < |xs| ensures Before(text(x), text(xs[j])) {
          if j > 0 { BeforeTransitive(text(x), text(xs[0]), text(xs[j])); }
        }
      } else {
        var rest := Insert(text, x, xs[1..]);
        InsertSorted(text, x, xs[1..]);
        forall j | 0 <= j < |rest| ensures Before(text(xs[0]), text(rest[j])) {
          assert rest[j] in multiset(rest);
          if rest[j] != x {
            assert rest[j] in multiset(xs[1..]);
            assert rest[j] in xs[1..];
          }
        }
      }
    }
  }

  lemma {:induction false} SortSorted(text: Json -> string, xs: seq<Json>)
    ensures Sorted(text, Sort(text, xs))
  {
    if xs != [] {
      SortSorted(text, xs[1..]);
      InsertSorted(text, xs[0], Sort(text, xs[1..]));
    }
  }

  /** Two sorted lists with the same elements are the same list. */
  lemma {:induction false} SortedUnique(text: Json -> string, xs: seq<Json>, ys: seq<Json>)
    requires Injective(text) && Sorted(text, xs) && Sorted(text, ys) && multiset(xs) == multiset(ys)
    ensures xs == ys
  {
    if xs == [] {
      assert |ys| == |multiset(ys)| == 0;
    } else {
      assert |xs| == |multiset(xs)| && |ys| == |multiset(ys)|;
      HeadsMeet(text, xs, ys);
      assert xs == [xs[0]] + xs[1..] && ys == [ys[0]] + ys[1..];
      assert multiset(xs[1..]) == multiset(xs) - multiset{xs[0]};
      assert multiset(ys[1..]) == multiset(ys) - multiset{ys[0]};
      SortedUnique(text, xs[1..], ys[1..]);
    }
  }

  lemma HeadsMeet(text: Json -> string, xs: seq<Json>, ys: seq<Json>)
    requires Injective(text) && Sorted(text, xs) && Sorted(text, ys) && multiset(xs) == multiset(ys)
    requires xs != [] && ys != []
    ensures xs[0] == ys[0]
  {
    assert xs[0] in multiset(ys) && ys[0] in multiset(xs);
    var i :| 0 <= i < |ys| && ys[i] == xs[0];
    var j :| 0 <= j < |xs| && xs[j] == ys[0];
    BeforeTotal(text(xs[0]), text(xs[0]));
    BeforeTotal(text(xs[0]), text(ys[0]));
  }

  /** The order a list came in is irrelevant. */
  lemma SortForgetsOrder(text: Json -> string, xs: seq<Json>, ys: seq<Json>)
    requires Injective(text)
    ensures Sort(text, xs) == Sort(text, ys) <==> multiset(xs) == multiset(ys)
  {
    SortSorted(text, xs);
    SortSorted(text, ys);
    hide Sort, Sorted;
    if multiset(xs) == multiset(ys) { SortedUnique(text, Sort(text, xs), Sort(text, ys)); }
  }

  // ---------- normalizing a release ----------

  /** Ruby's `Array(value)`. */
  function Items(j: Json): seq<Json> {
    if j.JArray? then j.items else if j.JNull? then [] else [j]
  }

  function Spelled(env: Env, xs: seq<Json>): seq<Json> {
    seq(|xs|, i requires 0 <= i < |xs| => JString(env.plain(xs[i])))
  }

  function SortedCodes(env: Env, j: Json): Json {
    JArray(Sort(env.text, Spelled(env, Items(j))))
  }

  function WithoutNulls(m: map<string, Json>): map<string, Json> {
    map k | k in m && !m[k].JNull? && !(k == "releaseNotes" && m[k] == JArray([])) :: m[k]
  }

  function Targeting(env: Env, j: Json): Json {
    if j.JObject? && "countries" in j.fields
    then JObject(j.fields["countries" := SortedCodes(env, j.fields["countries"])]) else j
  }

  function NormalField(env: Env, key: string, j: Json): Json {
    if key == "versionCodes" then SortedCodes(env, j)
    else if key == "releaseNotes" then JArray(Sort(env.text, Items(j)))
    else if key == "countryTargeting" then Targeting(env, j)
    else if key == "userFraction" then (var d := env.decimal(j); if d.Some? then JString(d.value) else j)
    else j
  }

  /** `normalize_release`; an out-of-range rollout fraction is refused. */
  function Normalize(env: Env, r: Json): Result<Json> {
    if !r.JObject? then Rejected
    else
      var m := WithoutNulls(r.fields);
      if "userFraction" in m && env.decimal(m["userFraction"]).None? then Rejected
      else Ok(JObject(map k | k in m :: NormalField(env, k, m[k])))
  }

  /** The same list up to order. */
  predicate Reordered(a: Json, b: Json) {
    a == b || (a.JArray? && b.JArray? && multiset(a.items) == multiset(b.items))
  }

  predicate SameTargeting(a: Json, b: Json) {
    || a == b
    || (a.JObject? && b.JObject? && a.fields.Keys == b.fields.Keys
        && forall k :: k in a.fields ==> if k == "countries" then Reordered(a.fields[k], b.fields[k]) else a.fields[k] == b.fields[k])
  }

  /** The same release with its codes, notes and countries reordered, and unset fields spelled either way. */
  predicate SameRelease(a: Json, b: Json) {
    a.JObject? && b.JObject? &&
    var m, n := WithoutNulls(a.fields), WithoutNulls(b.fields);
    && m.Keys == n.Keys
    && forall k :: k in m ==>
         if k == "versionCodes" || k == "releaseNotes" then Reordered(m[k], n[k])
         else if k == "countryTargeting" then SameTargeting(m[k], n[k])
         else m[k] == n[k]
  }

  lemma {:induction false} SpelledMultiset(env: Env, xs: seq<Json>, ys: seq<Json>)
    requires multiset(xs) == multiset(ys)
    ensures multiset(Spelled(env, xs)) == multiset(Spelled(env, ys))
    decreases |xs|
  {
    hide Spelled;
    if xs != [] {
      var a, b, x := Peel(env, xs, ys);
      SpelledMultiset(env, a, b);
    } else {
      assert |ys| == |multiset(ys)| == 0;
    }
  }

  /** Take one common element out of two lists that hold the same elements. */
  lemma Peel(env: Env, xs: seq<Json>, ys: seq<Json>) returns (a: seq<Json>, b: seq<Json>, x: Json)
    requires xs != [] && multiset(xs) == multiset(ys)
    ensures |a| < |xs| && multiset(a) == multiset(b)
    ensures multiset(Spelled(env, xs)) == multiset(Spelled(env, a)) + multiset{JString(env.plain(x))}
    ensures multiset(Spelled(env, ys)) == multiset(Spelled(env, b)) + multiset{JString(env.plain(x))}
  {
    x := xs[0];
    var j := Place(x, xs, ys);
    a := TakeOut(env, xs, 0);
    b := TakeOut(env, ys, j);
    hide *;
  }

  lemma TakeOut(env: Env, xs: seq<Json>, j: nat) returns (rest: seq<Json>)
    requires j < |xs|
    ensures |rest| + 1 == |xs| && multiset(rest) == multiset(xs) - multiset{xs[j]}
    ensures multiset(Spelled(env, xs)) == multiset(Spelled(env, rest)) + multiset{JString(env.plain(xs[j]))}
  {
    rest := xs[..j] + xs[j + 1..];
    Without(xs, j);
    SpelledWithout(env, xs, j);
    hide *;
  }

  lemma Place<T>(x: T, xs: seq<T>, ys: seq<T>) returns (j: nat)
    requires multiset(xs) == multiset(ys) && x in xs
    ensures j < |ys| && ys[j] == x
  {
    assert x in multiset(ys);
    j :| 0 <= j < |ys| && ys[j] == x;
  }

  lemma Without<T>(xs: seq<T>, j: nat)
    requires j < |xs|
    ensures multiset(xs) == multiset(xs[..j] + xs[j + 1..]) + multiset{xs[j]}
    ensures multiset(xs[..j] + xs[j + 1..]) == multiset(xs) - multiset{xs[j]}
  {
    assert xs == xs[..j] + ([xs[j]] + xs[j + 1..]);
  }

  lemma SpelledWithout(env: Env, xs: seq<Json>, j: nat)
    requires j < |xs|
    ensures multiset(Spelled(env, xs)) ==
            multiset(Spelled(env, xs[..j] + xs[j + 1..])) + multiset{JString(env.plain(xs[j]))}
  {
    var all := Spelled(env, xs);
    assert all[..j] + all[j + 1..] == Spelled(env, xs[..j] + xs[j + 1..]);
    Without(all, j);
  }

  lemma CodesForgetOrder(env: Env, a: Json, b: Json)
    requires Injective(env.text) && Reordered(a, b)
    ensures SortedCodes(env, a) == SortedCodes(env, b)
  {
    hide Sort, Spelled, Injective;
    if a != b {
      SpelledMultiset(env, a.items, b.items);
      SortForgetsOrder(env.text, Spelled(env, a.items), Spelled(env, b.items));
    }
  }

  lemma TargetingForgetsOrder(env: Env, a: Json, b: Json)
    requires Injective(env.text) && SameTargeting(a, b)
    ensures Targeting(env, a) == Targeting(env, b)
  {
    hide Injective, SortedCodes;
    if a.JObject? && b.JObject? {
      if "countries" in a.fields {
        CodesForgetOrder(env, a.fields["countries"], b.fields["countries"]);
        assert Targeting(env, a).fields == Targeting(env, b).fields;
      } else {
        assert a.fields == b.fields;
      }
    }
  }

  lemma FieldForgetsOrder(env: Env, key: string, a: Json, b: Json)
    requires Injective(env.text)
    requires if key == "versionCodes" || key == "releaseNotes" then Reordered(a, b)
             else if key == "countryTargeting" then SameTargeting(a, b) else a == b
    ensures NormalField(env, key, a) == NormalField(env, key, b)
  {
    hide Injective, Sort, SortedCodes, Targeting, SameTargeting;
    if key == "versionCodes" { CodesForgetOrder(env, a, b); }
    else if key == "releaseNotes" { if a != b { SortForgetsOrder(env.text, a.items, b.items); } }
    else if key == "countryTargeting" { TargetingForgetsOrder(env, a, b); }
  }

  /** Reordering the codes, notes, countries or keys of a release does not change its normal form. */
  lemma NormalFormForgetsOrder(env: Env, a: Json, b: Json)
    requires Injective(env.text) && SameRelease(a, b)
    ensures Normalize(env, a) == Normalize(env, b)
  {
    var m, n := WithoutNulls(a.fields), WithoutNulls(b.fields);
    hide Injective, WithoutNulls, NormalField, SameTargeting, Reordered;
    forall k | k in m ensures k in n && NormalField(env, k, m[k]) == NormalField(env, k, n[k]) {
      FieldForgetsOrder(env, k, m[k], n[k]);
    }
    if Normalize(env, a).Ok? && Normalize(env, b).Ok? {
      assert Normalize(env, a).value.fields == Normalize(env, b).value.fields;
    }
  }

  // ---------- track states ----------

  datatype State = State(track: string, releases: seq<Json>)

  function NormalizeAll(env: Env, rs: seq<Json>): (r: Result<seq<Json>>)
    ensures r.Ok? ==> |r.value| == |rs| && forall i :: 0 <= i < |rs| ==> Normalize(env, rs[i]) == Ok(r.value[i])
  {
    if rs == [] then Ok([])
    else
      var front, last := NormalizeAll(env, rs[..|rs| - 1]), Normalize(env, rs[|rs| - 1]);
      if front.Rejected? || last.Rejected? then Rejected else Ok(front.value + [last.value])
  }

  /** `track_state`. */
  function TrackState(env: Env, track: string, releases: seq<Json>): Result<State> {
    var normal := NormalizeAll(env, releases);
    if normal.Rejected? then Rejected else Ok(State(track, Sort(env.text, normal.value)))
  }

  /** Main result: two readings of a track agree exactly when they hold the same normalized releases, in any order. */
  lemma StatesAgree(env: Env, track: string, xs: seq<Json>, ys: seq<Json>)
    requires Injective(env.text) && NormalizeAll(env, xs).Ok? && NormalizeAll(env, ys).Ok?
    ensures TrackState(env, track, xs) == TrackState(env, track, ys) <==>
            multiset(NormalizeAll(env, xs).value) == multiset(NormalizeAll(env, ys).value)
  {
    hide NormalizeAll, Sort, Injective;
    SortForgetsOrder(env.text, NormalizeAll(env, xs).value, NormalizeAll(env, ys).value);
  }

  /** Release by release the same, under one reordering. */
  ghost predicate SameReleases(xs: seq<Json>, ys: seq<Json>) {
    |xs| == |ys| && forall i :: 0 <= i < |xs| ==> xs[i] == ys[i] || SameRelease(xs[i], ys[i])
  }

  lemma {:induction false} AlikeNormalize(env: Env, xs: seq<Json>, ys: seq<Json>)
    requires Injective(env.text) && SameReleases(xs, ys)
    ensures NormalizeAll(env, xs) == NormalizeAll(env, ys)
  {
    hide SameRelease, Normalize, Injective;
    if xs != [] {
      var n := |xs| - 1;
      AlikeNormalize(env, xs[..n], ys[..n]);
      if xs[n] != ys[n] { NormalFormForgetsOrder(env, xs[n], ys[n]); }
    }
  }

  lemma {:induction false} AllNormal(env: Env, rs: seq<Json>)
    ensures NormalizeAll(env, rs).Ok? <==> forall r :: r in rs ==> Normalize(env, r).Ok?
  {
    hide Normalize;
    if rs != [] { AllNormal(env, rs[..|rs| - 1]); }
  }

  lemma {:induction false} NormalWithout(env: Env, rs: seq<Json>, j: nat)
    requires j < |rs| && NormalizeAll(env, rs).Ok?
    ensures var rest := rs[..j] + rs[j + 1..];
            NormalizeAll(env, rest).Ok?
            && multiset(NormalizeAll(env, rs).value) == multiset(NormalizeAll(env, rest).value) + multiset{Normalize(env, rs[j]).value}
  {
    hide *;
    var rest, all := rs[..j] + rs[j + 1..], NormalizeAll(env, rs).value;
    AllNormal(env, rs);
    AllNormal(env, rest);
    Without(all, j);
    assert NormalizeAll(env, rest).value == all[..j] + all[j + 1..];
  }

  lemma RefusalForgetsOrder(env: Env, xs: seq<Json>, ys: seq<Json>)
    requires multiset(xs) == multiset(ys)
    ensures NormalizeAll(env, xs).Ok? <==> NormalizeAll(env, ys).Ok?
  {
    AllNormal(env, xs);
    AllNormal(env, ys);
    hide *;
    assert forall r :: r in xs <==> r in multiset(xs);
    assert forall r :: r in ys <==> r in multiset(ys);
  }

  lemma {:induction false} NormalMultiset(env: Env, xs: seq<Json>, ys: seq<Json>)
    requires multiset(xs) == multiset(ys) && NormalizeAll(env, xs).Ok? && NormalizeAll(env, ys).Ok?
    ensures multiset(NormalizeAll(env, xs).value) == multiset(NormalizeAll(env, ys).value)
    decreases |xs|
  {
    hide *;
    if xs != [] {
      var a, b, n := NormalPeel(env, xs, ys);
      NormalMultiset(env, a, b);
    } else {
      assert |ys| == |multiset(ys)| == 0;
    }
  }

  /** Take one common release out of two lists that hold the same ones. */
  lemma NormalPeel(env: Env, xs: seq<Json>, ys: seq<Json>) returns (a: seq<Json>, b: seq<Json>, n: Json)
    requires xs != [] && multiset(xs) == multiset(ys) && NormalizeAll(env, xs).Ok? && NormalizeAll(env, ys).Ok?
    ensures |a| < |xs| && multiset(a) == multiset(b) && NormalizeAll(env, a).Ok? && NormalizeAll(env, b).Ok?
    ensures multiset(NormalizeAll(env, xs).value) == multiset(NormalizeAll(env, a).value) + multiset{n}
    ensures multiset(NormalizeAll(env, ys).value) == multiset(NormalizeAll(env, b).value) + multiset{n}
  {
    hide *;
    var j := Place(xs[0], xs, ys);
    n := Normalize(env, xs[0]).value;
    a := NormalTakeOut(env, xs, 0);
    b := NormalTakeOut(env, ys, j);
  }

  lemma NormalTakeOut(env: Env, rs: seq<Json>, j: nat) returns (rest: seq<Json>)
    requires j < |rs| && NormalizeAll(env, rs).Ok?
    ensures |rest| + 1 == |rs| && multiset(rest) == multiset(rs) - multiset{rs[j]} && NormalizeAll(env, rest).Ok?
    ensures multiset(NormalizeAll(env, rs).value) == multiset(NormalizeAll(env, rest).value) + multiset{Normalize(env, rs[j]).value}
  {
    hide *;
    rest := rs[..j] + rs[j + 1..];
    Without(rs, j);
    NormalWithout(env, rs, j);
  }

  /**
   Main result: two raw release lists that match release by release in some order, each with its codes, notes,
   countries and keys in any order, are read as the same track, or both refused.
   */
  lemma TrackForgetsOrder(env: Env, track: string, xs: seq<Json>, zs: seq<Json>, ys: seq<Json>)
    requires Injective(env.text) && SameReleases(xs, zs) && multiset(zs) == multiset(ys)
    ensures TrackState(env, track, xs) == TrackState(env, track, ys)
  {
    AlikeNormalize(env, xs, zs);
    RefusalForgetsOrder(env, zs, ys);
    hide NormalizeAll, Sort, Injective, SameReleases;
    if NormalizeAll(env, zs).Ok? {
      NormalMultiset(env, zs, ys);
      StatesAgree(env, track, zs, ys);
    }
  }
}
