/**
 The Play operation journal: bounded by compaction, yet it never forgets that a
 mutation was dispatched.
 */
module Journals {
  import opened Bytes

  const MAX_JOURNAL_HISTORY: nat := 256
  const DISPATCH_PHASES := ["mutation-dispatched", "mapping-recovery-dispatched"]

  /** A row: its phase, and the time and failure fields that never matter here. */
  datatype Row = Row(phase: string, detail: string)

  function FirstIndex(h: seq<Row>, phase: string): (i: Option<nat>)
    ensures i.Some? ==> i.value < |h| && h[i.value].phase == phase && forall j :: 0 <= j < i.value ==> h[j].phase != phase
    ensures i.None? ==> forall j :: 0 <= j < |h| ==> h[j].phase != phase
  {
    if h == [] then None
    else
      var front := FirstIndex(h[..|h| - 1], phase);
      if front.Some? then front else if h[|h| - 1].phase == phase then Some(|h| - 1) else None
  }

  function Retained(h: seq<Row>): nat {
    (if FirstIndex(h, DISPATCH_PHASES[0]).Some? then 1 else 0) + (if FirstIndex(h, DISPATCH_PHASES[1]).Some? then 1 else 0)
  }

  /** Whether position i survives: the first row of each dispatch phase does, and the end of the history. */
  predicate Keeps(h: seq<Row>, i: nat) {
    || |h| <= MAX_JOURNAL_HISTORY
    || i >= |h| - (MAX_JOURNAL_HISTORY - Retained(h))
    || FirstIndex(h, DISPATCH_PHASES[0]) == Some(i) || FirstIndex(h, DISPATCH_PHASES[1]) == Some(i)
  }

  predicate Increasing(idx: seq<nat>) {
    forall a, b :: 0 <= a < b < |idx| ==> idx[a] < idx[b]
  }

  predicate Below(idx: seq<nat>, n: nat) {
    forall a :: 0 <= a < |idx| ==> idx[a] < n
  }

  /** The surviving positions below n, in order. */
  function Survivors(h: seq<Row>, n: nat): (ps: seq<nat>)
    ensures Increasing(ps) && Below(ps, n) && |ps| <= n
    ensures forall i: nat :: i in ps <==> i < n && Keeps(h, i)
  {
    if n == 0 then []
    else
      var front := Survivors(h, n - 1);
      assert forall i: nat :: i in front + [n - 1] <==> i in front || i == n - 1;
      if Keeps(h, n - 1) then front + [n - 1] else front
  }

  function Pick<T>(xs: seq<T>, ps: seq<nat>): (r: seq<T>)
    requires Below(ps, |xs|)
    ensures |r| == |ps| && forall i :: 0 <= i < |ps| ==> r[i] == xs[ps[i]]
  {
    if ps == [] then [] else Pick(xs, ps[..|ps| - 1]) + [xs[ps[|ps| - 1]]]
  }

  /** `compact_journal_history`. */
  function Compact(h: seq<Row>): seq<Row> {
    Pick(h, Survivors(h, |h|))
  }

  // ---------- the bound ----------

  lemma {:induction false} SurvivorCount(h: seq<Row>, n: nat)
    requires |h| > MAX_JOURNAL_HISTORY && n <= |h|
    ensures var start := |h| - (MAX_JOURNAL_HISTORY - Retained(h));
            |Survivors(h, n)| <= (if n <= start then 0 else n - start)
                                 + (if FirstIndex(h, DISPATCH_PHASES[0]).Some? && FirstIndex(h, DISPATCH_PHASES[0]).value < n then 1 else 0)
                                 + (if FirstIndex(h, DISPATCH_PHASES[1]).Some? && FirstIndex(h, DISPATCH_PHASES[1]).value < n then 1 else 0)
  {
    if n > 0 { SurvivorCount(h, n - 1); }
  }

  lemma {:induction false} CompactBound(h: seq<Row>)
    ensures |Compact(h)| <= MAX_JOURNAL_HISTORY
  {
    if |h| > MAX_JOURNAL_HISTORY { SurvivorCount(h, |h|); }
  }

  // ---------- what survives many compactions ----------

  /** The journal is the log at the positions idx. */
  ghost predicate Shows(log: seq<Row>, idx: seq<nat>, journal: seq<Row>) {
    Increasing(idx) && Below(idx, |log|) && journal == Pick(log, idx)
  }

  /** The last 254 rows of the log, and the first row of every dispatch phase ever recorded. */
  ghost predicate Remembers(log: seq<Row>, idx: seq<nat>) {
    && (forall p: nat :: p < |log| && p >= |log| - 254 ==> p in idx)
    && (forall d :: 0 <= d < |DISPATCH_PHASES| && FirstIndex(log, DISPATCH_PHASES[d]).Some? ==>
          FirstIndex(log, DISPATCH_PHASES[d]).value in idx)
  }

  ghost predicate Faithful(log: seq<Row>, journal: seq<Row>) {
    |journal| <= MAX_JOURNAL_HISTORY && exists idx: seq<nat> :: Shows(log, idx, journal) && Remembers(log, idx)
  }

  lemma FirstPlus(log: seq<Row>, row: Row, phase: string)
    ensures FirstIndex(log + [row], phase) ==
            if FirstIndex(log, phase).Some? then FirstIndex(log, phase)
            else if row.phase == phase then Some(|log|) else None
  {
    assert (log + [row])[..|log|] == log;
  }

  /** In a journal that remembers, the first row of a dispatch phase is the log's first row of it. */
  lemma FirstShown(log: seq<Row>, idx: seq<nat>, journal: seq<Row>, phase: string, i: nat)
    requires Shows(log, idx, journal) && i < |idx|
    requires FirstIndex(log, phase) == Some(idx[i])
    ensures FirstIndex(journal, phase) == Some(i)
  {
    hide FirstIndex, Pick;
    assert journal[i].phase == phase;
    forall j | 0 <= j < i ensures journal[j].phase != phase {
      assert idx[j] < idx[i];
    }
  }

  lemma ExtendedShows(log: seq<Row>, idx: seq<nat>, journal: seq<Row>, row: Row)
    requires Shows(log, idx, journal) && Remembers(log, idx)
    ensures Shows(log + [row], idx + [|log|], journal + [row]) && Remembers(log + [row], idx + [|log|])
  {
    var idx', log' := idx + [|log|], log + [row];
    assert forall p: nat :: p in idx' <==> p in idx || p == |log|;
    forall d | 0 <= d < |DISPATCH_PHASES| && FirstIndex(log', DISPATCH_PHASES[d]).Some?
      ensures FirstIndex(log', DISPATCH_PHASES[d]).value in idx'
    {
      FirstPlus(log, row, DISPATCH_PHASES[d]);
    }
    assert Pick(log', idx') == journal + [row];
  }

  lemma TailKept(log: seq<Row>, idx: seq<nat>, h: seq<Row>, p: nat)
    requires Shows(log, idx, h) && p in idx && p >= |log| - 254
    ensures p in Pick(idx, Survivors(h, |h|))
  {
    var i: nat :| i < |idx| && idx[i] == p;
    TailPosition(log, idx, i);
    hide Survivors, FirstIndex;
    KeptAt(h, idx, i);
  }

  lemma FirstKept(log: seq<Row>, idx: seq<nat>, h: seq<Row>, d: nat)
    requires Shows(log, idx, h) && d < |DISPATCH_PHASES|
    requires FirstIndex(log, DISPATCH_PHASES[d]).Some? && FirstIndex(log, DISPATCH_PHASES[d]).value in idx
    ensures FirstIndex(log, DISPATCH_PHASES[d]).value in Pick(idx, Survivors(h, |h|))
  {
    var i: nat :| i < |idx| && idx[i] == FirstIndex(log, DISPATCH_PHASES[d]).value;
    FirstShown(log, idx, h, DISPATCH_PHASES[d], i);
    hide Survivors, FirstIndex;
    KeptAt(h, idx, i);
  }

  lemma {:induction false} CompactedShows(log: seq<Row>, idx: seq<nat>, h: seq<Row>)
    requires Shows(log, idx, h) && Remembers(log, idx)
    ensures var kept := Pick(idx, Survivors(h, |h|)); Shows(log, kept, Compact(h)) && Remembers(log, kept)
  {
    PickedShows(log, idx, h, Survivors(h, |h|));
    hide *;
    var kept := Pick(idx, Survivors(h, |h|));
    forall p: nat | p < |log| && p >= |log| - 254 ensures p in kept {
      TailRemembered(log, idx, p);
      TailKept(log, idx, h, p);
    }
    forall d | 0 <= d < |DISPATCH_PHASES| && FirstIndex(log, DISPATCH_PHASES[d]).Some?
      ensures FirstIndex(log, DISPATCH_PHASES[d]).value in kept
    {
      FirstRemembered(log, idx, d);
      FirstKept(log, idx, h, d);
    }
    Remembering(log, kept);
  }

  lemma TailRemembered(log: seq<Row>, idx: seq<nat>, p: nat)
    requires Remembers(log, idx) && p < |log| && p >= |log| - 254
    ensures p in idx
  {
    hide FirstIndex;
  }

  lemma FirstRemembered(log: seq<Row>, idx: seq<nat>, d: nat)
    requires Remembers(log, idx) && d < |DISPATCH_PHASES| && FirstIndex(log, DISPATCH_PHASES[d]).Some?
    ensures FirstIndex(log, DISPATCH_PHASES[d]).value in idx
  {
    hide FirstIndex;
  }

  lemma Remembering(log: seq<Row>, idx: seq<nat>)
    requires forall p: nat :: p < |log| && p >= |log| - 254 ==> p in idx
    requires forall d :: 0 <= d < |DISPATCH_PHASES| && FirstIndex(log, DISPATCH_PHASES[d]).Some? ==>
               FirstIndex(log, DISPATCH_PHASES[d]).value in idx
    ensures Remembers(log, idx)
  {
    hide FirstIndex;
  }

  lemma {:induction false} PickedShows(log: seq<Row>, idx: seq<nat>, h: seq<Row>, ps: seq<nat>)
    requires Shows(log, idx, h) && Increasing(ps) && Below(ps, |h|)
    ensures Shows(log, Pick(idx, ps), Pick(h, ps))
  {
    var kept := Pick(idx, ps);
    assert Pick(log, kept) == Pick(h, ps);
  }

  lemma KeptAt(h: seq<Row>, idx: seq<nat>, i: nat)
    requires i < |h| == |idx| && Keeps(h, i)
    ensures idx[i] in Pick(idx, Survivors(h, |h|))
  {
    var ps := Survivors(h, |h|);
    var a :| 0 <= a < |ps| && ps[a] == i;
    assert Pick(idx, ps)[a] == idx[i];
  }

  /** Increasing positions of a log leave at most as many positions behind one as the log has rows behind it. */
  lemma {:induction false} TailPosition(log: seq<Row>, idx: seq<nat>, i: nat)
    requires Increasing(idx) && Below(idx, |log|) && i < |idx|
    ensures |idx| - i <= |log| - idx[i]
    decreases |idx| - i
  {
    if i + 1 < |idx| { TailPosition(log, idx, i + 1); }
  }

  lemma {:induction false} AppendFaithful(log: seq<Row>, journal: seq<Row>, row: Row)
    requires Faithful(log, journal)
    ensures Faithful(log + [row], Compact(journal + [row]))
  {
    var idx: seq<nat> :| Shows(log, idx, journal) && Remembers(log, idx);
    ExtendedShows(log, idx, journal, row);
    CompactFaithful(log + [row], idx + [|log|], journal + [row]);
    hide *;
  }

  lemma {:induction false} CompactFaithful(log: seq<Row>, idx: seq<nat>, h: seq<Row>)
    requires Shows(log, idx, h) && Remembers(log, idx)
    ensures Faithful(log, Compact(h))
  {
    CompactedShows(log, idx, h);
    CompactBound(h);
    hide Compact, Shows, Remembers, Survivors;
  }

  lemma NothingShown()
    ensures Faithful([], [])
  {
    var none: seq<nat> := [];
    assert Shows([], none, []) && Remembers([], none);
  }

  function Replay(rows: seq<Row>): seq<Row> {
    if rows == [] then [] else Compact(Replay(rows[..|rows| - 1]) + [rows[|rows| - 1]])
  }

  /**
   Main result: after any number of appends and compactions the journal has at most 256 rows, is an
   order-preserving part of the whole log with all of its last 254 rows, and still holds the log's first row
   of each dispatch phase.
   */
  lemma {:induction false} JournalIsFaithful(rows: seq<Row>)
    ensures Faithful(rows, Replay(rows))
  {
    hide Compact;
    if rows == [] {
      NothingShown();
    } else {
      JournalIsFaithful(rows[..|rows| - 1]);
      AppendFaithful(rows[..|rows| - 1], Replay(rows[..|rows| - 1]), rows[|rows| - 1]);
      assert rows == rows[..|rows| - 1] + [rows[|rows| - 1]];
    }
  }

  /** A dispatch that was ever recorded is still recorded. */
  lemma {:induction false} DispatchIsRemembered(rows: seq<Row>, d: nat)
    requires d < |DISPATCH_PHASES|
    ensures (exists i :: 0 <= i < |rows| && rows[i].phase == DISPATCH_PHASES[d]) <==>
            (exists i :: 0 <= i < |Replay(rows)| && Replay(rows)[i].phase == DISPATCH_PHASES[d])
  {
    JournalIsFaithful(rows);
    var journal := Replay(rows);
    var idx: seq<nat> :| Shows(rows, idx, journal) && Remembers(rows, idx);
    hide Replay;
    if exists i :: 0 <= i < |rows| && rows[i].phase == DISPATCH_PHASES[d] {
      var f := FirstIndex(rows, DISPATCH_PHASES[d]);
      var a :| 0 <= a < |idx| && idx[a] == f.value;
      assert journal[a].phase == DISPATCH_PHASES[d];
    }
    if exists i :: 0 <= i < |journal| && journal[i].phase == DISPATCH_PHASES[d] {
      var i :| 0 <= i < |journal| && journal[i].phase == DISPATCH_PHASES[d];
      assert rows[idx[i]].phase == DISPATCH_PHASES[d];
    }
  }

  // ---------- the journal object ----------

  /** The single local writer: it refuses a file that changed underneath it. */
  class PlayJournal {
    var history: seq<Row>
    ghost var log: seq<Row>

    ghost predicate Valid() reads this { Faithful(log, history) }

    constructor ()
      ensures Valid() && history == [] && log == []
    {
      history, log := [], [];
      NothingShown();
    }

    method Persist(previous: seq<Row>, row: Row, written: bool) returns (ok: bool)
      requires Valid()
      modifies this
      ensures Valid()
      ensures ok <==> previous == old(history) && written
      ensures if ok then history == Compact(old(history) + [row]) && log == old(log) + [row]
              else history == old(history) && log == old(log)
    {
      if previous != history || !written { return false; }
      AppendFaithful(log, history, row);
      history := Compact(previous + [row]);
      log := log + [row];
      return true;
    }
  }
}
