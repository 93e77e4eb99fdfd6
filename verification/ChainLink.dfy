/**
 What only grows along a run, and how frames enter and leave a link.
 */
module ChainLinks {
  import opened Bytes
  import opened Manifests
  import opened Records
  import opened Decoders
  import opened Chunker
  import opened Chains
  import opened ChainInvariants

  // ---------- what can only grow ----------

  ghost predicate OGrows(o: Outer, o': Outer) {
    ORank(o.phase) <= ORank(o'.phase) && o.flags <= o'.flags
  }

  ghost predicate CGrows(c: Custodian, c': Custodian) {
    && CRank(c.phase) <= CRank(c'.phase) && c.flags <= c'.flags
    && (c.work.Some? ==> c'.work == c.work)
  }

  ghost predicate AGrows(a: Anchor, a': Anchor) {
    && ARank(a.phase) <= ARank(a'.phase) && a.flags <= a'.flags
    && (a.work.Some? ==> a'.work == a.work)
  }

  // ---------- links as values ----------

  lemma {:induction false} SealFirstPlus(l: Link, sealed: bool, m: Message)
    requires SealFirst(l, sealed)
    requires m.Final? && m.terminal.producer ==> sealed || Seals(l)
    ensures SealFirst(l + [m], sealed)
    decreases |l|
  {
    if l == [] {
      assert (l + [m])[1..] == [];
    } else {
      assert (l + [m])[1..] == l[1..] + [m];
      if Seals(l) && !l[0].Sealed? {
        var i :| 0 <= i < |l| && l[i].Sealed?;
        assert l[1..][i - 1].Sealed?;
      }
      SealFirstPlus(l[1..], sealed || l[0].Sealed?, m);
    }
  }

  lemma SealsPlus(l: Link, m: Message)
    ensures Seals(l + [m]) <==> Seals(l) || m.Sealed?
  {
    if Seals(l) {
      var i :| 0 <= i < |l| && l[i].Sealed?;
      assert (l + [m])[i].Sealed?;
    }
    if m.Sealed? { assert (l + [m])[|l|].Sealed?; }
    if Seals(l + [m]) {
      var i :| 0 <= i < |l + [m]| && (l + [m])[i].Sealed?;
      assert i < |l| ==> l[i].Sealed?;
    }
  }

  lemma SealsTail(l: Link)
    requires l != [] && Seals(l) && !l[0].Sealed?
    ensures Seals(l[1..])
  {
    var i :| 0 <= i < |l| && l[i].Sealed?;
    assert l[1..][i - 1].Sealed?;
  }

  lemma DataPlus(l: Link, m: Message)
    ensures DataOf(l + [m]) == DataOf(l) + (if m.Data? then [m.bytes] else [])
  {
    assert (l + [m])[..|l|] == l;
  }

  lemma {:induction false} DataFirst(l: Link)
    requires l != []
    ensures DataOf(l) == (if l[0].Data? then [l[0].bytes] else []) + DataOf(l[1..])
    decreases |l|
  {
    if |l| == 1 {
      assert l[..0] == [] && l[1..] == [];
    } else {
      var front, last := l[..|l| - 1], l[|l| - 1];
      DataFirst(front);
      assert front[1..] + [last] == l[1..];
      DataPlus(front[1..], last);
    }
  }

  /** A link is left alone or gets one more frame. */
  ghost predicate Pushed(l: Link, l': Link) {
    l' == l || (|l'| == |l| + 1 && l' == l + [l'[|l|]])
  }
}
