/**
 The mutable half of the create guard: arming, dispatching, resolving and the
 one replacement of a screenshot reservation.
 */
module CreateDispatches {
  import opened Bytes
  import opened CreateGuards

  /** Resolved identities are kept per logical key, and once for the automatically created AppInfo. */
  datatype Slot = Created(key: Key) | AutomaticInfo

  datatype Guard = Guard(
    armed: bool, inventory: seq<Key>, nodes: map<Key, Node>,
    used: map<Key, Option<Id>>, resolved: map<Slot, Id>, replacement: map<Key, Id>, operatorRetry: bool,
    dispatched: seq<Key>,              // every POST ever allowed, in order
    identities: map<Slot, seq<Id>>)    // for each slot, the identities it took one after another

  const Unarmed := Guard(false, [], map[], map[], map[], map[], false, [], map[])

  datatype Call =
    | Arm(creates: seq<Node>, acceptable: bool, resuming: bool, confirmed: bool)
    | Resolve(key: Key, id: Id)
    | ResolveAutomatic(id: Id)
    | Permit(node: Node, original: Id)
    | Consume(key: Key, parent: Id)
    | Observe(key: Key, id: Id)

  function NodeMap(nodes: seq<Node>): (m: map<Key, Node>)
    ensures forall k :: k in m ==> m[k] in nodes && m[k].key == k
    ensures forall n :: n in nodes ==> n.key in m
  {
    if nodes == [] then map[] else NodeMap(nodes[..|nodes| - 1])[nodes[|nodes| - 1].key := nodes[|nodes| - 1]]
  }

  function History(g: Guard, slot: Slot): seq<Id> {
    if slot in g.identities then g.identities[slot] else []
  }

  function Noted(h: seq<Id>, id: Id): seq<Id> {
    if h != [] && h[|h| - 1] == id then h else h + [id]
  }

  function Take(g: Guard, slot: Slot, id: Id): Guard {
    g.(resolved := g.resolved[slot := id], identities := g.identities[slot := Noted(History(g, slot), id)])
  }

  /** `resolve!`: an identity may change only from a replaced reservation, and only once its creation was dispatched. */
  function Resolved(g: Guard, key: Key, id: Id): (Guard, bool) {
    var slot := Created(key);
    if slot in g.resolved && g.resolved[slot] != id
       && !(key in g.replacement && g.replacement[key] == g.resolved[slot] && key in g.used)
    then (g, false)
    else if !GoodId(id) then (g, false)
    else (Take(g, slot, id), true)
  }

  function ParentId(resolved: map<Slot, Id>, parent: Parent): Option<Id> {
    match parent
    case Present(id) => Some(id)
    case Missing(k) => if Created(k) in resolved then Some(resolved[Created(k)]) else None
    case Automatic => if AutomaticInfo in resolved then Some(resolved[AutomaticInfo]) else None
  }

  /** When `consume!` grants a POST. */
  predicate Consumable(g: Guard, key: Key, parent: Id) {
    && g.armed && key in g.nodes && key !in g.used
    && ParentId(g.resolved, g.nodes[key].parent) == Some(parent)
    && forall d :: d in g.nodes[key].dependencies ==> Created(d) in g.resolved
  }

  /** Each call either succeeds or raises; some leave traces even when they raise. */
  function Apply(g: Guard, call: Call): (Guard, bool) {
    match call
    case Arm(creates, acceptable, resuming, confirmed) =>
      if g.armed || !acceptable then (g, false)
      else
        var bound := g.(armed := true, inventory := Keys(creates));
        if resuming && creates != [] && !confirmed then (bound, false)
        else (bound.(nodes := NodeMap(creates), operatorRetry := resuming && creates != []), true)
    case Resolve(key, id) => Resolved(g, key, id)
    case ResolveAutomatic(id) =>
      if !GoodId(id) || (AutomaticInfo in g.resolved && g.resolved[AutomaticInfo] != id) then (g, false)
      else (Take(g, AutomaticInfo, id), true)
    case Permit(node, original) =>
      if node.key in g.used || node.key in g.replacement || !node.key.ShotKey? then (g, false)
      else (g.(replacement := g.replacement[node.key := original], nodes := g.nodes[node.key := node],
               resolved := g.resolved - {Created(node.key)}), true)
    case Consume(key, parent) =>
      if !Consumable(g, key, parent) then (g, false)
      else (g.(used := g.used[key := None], dispatched := g.dispatched + [key]), true)
    case Observe(key, id) =>
      var (next, ok) := Resolved(g, key, id);
      if !ok then (next, false)
      else (if key in next.used then next.(used := next.used[key := Some(id)]) else next, true)
  }

  function Run(g: Guard, calls: seq<Call>): Guard
    decreases |calls|
  {
    if calls == [] then g else Run(Apply(g, calls[0]).0, calls[1..])
  }

  // ---------- at most one dispatch ----------

  ghost predicate OnceEach(dispatched: seq<Key>, used: map<Key, Option<Id>>) {
    Distinct(dispatched) && forall k :: k in dispatched <==> k in used
  }

  lemma ResolvedKeepsUse(g: Guard, key: Key, id: Id)
    ensures Resolved(g, key, id).0.used == g.used && Resolved(g, key, id).0.dispatched == g.dispatched
  {
    hide GoodId;
  }

  lemma ConsumeOnce(dispatched: seq<Key>, used: map<Key, Option<Id>>, key: Key)
    requires OnceEach(dispatched, used) && key !in used
    ensures OnceEach(dispatched + [key], used[key := None])
  {
    var d := dispatched + [key];
    forall i, j | 0 <= i < j < |d| ensures d[i] != d[j] {
      if j == |dispatched| { assert d[i] in dispatched; }
    }
  }

  lemma OtherCalls(g: Guard, call: Call)
    requires !call.Consume? && !call.Observe?
    ensures Apply(g, call).0.dispatched == g.dispatched && Apply(g, call).0.used == g.used
  {
    hide NodeMap, Keys, GoodId;
    if call.Resolve? { ResolvedKeepsUse(g, call.key, call.id); }
    hide Resolved;
  }

  lemma ObserveCall(g: Guard, key: Key, id: Id)
    ensures Apply(g, Observe(key, id)).0.dispatched == g.dispatched && Apply(g, Observe(key, id)).0.used.Keys == g.used.Keys
  {
    ResolvedKeepsUse(g, key, id);
    hide Resolved;
  }

  lemma ApplyOnce(g: Guard, call: Call)
    requires OnceEach(g.dispatched, g.used)
    ensures var g' := Apply(g, call).0; OnceEach(g'.dispatched, g'.used) && g.dispatched <= g'.dispatched
  {
    if call.Consume? {
      if Consumable(g, call.key, call.parent) { ConsumeOnce(g.dispatched, g.used, call.key); }
      hide OnceEach;
    } else {
      if call.Observe? { ObserveCall(g, call.key, call.id); } else { OtherCalls(g, call); }
      hide Apply;
    }
  }

  /** Main result: over any sequence of guard calls no logical resource is dispatched twice, replacements included. */
  lemma {:induction false} DispatchedOnce(g: Guard, calls: seq<Call>)
    requires OnceEach(g.dispatched, g.used)
    ensures var g' := Run(g, calls); OnceEach(g'.dispatched, g'.used) && g.dispatched <= g'.dispatched
    decreases |calls|
  {
    hide Apply, OnceEach;
    if calls != [] {
      ApplyOnce(g, calls[0]);
      DispatchedOnce(Apply(g, calls[0]).0, calls[1..]);
    }
  }

  // ---------- identities ----------

  /** `permit_replacement!` is given the reservation's current identity, if it has one. */
  predicate Faithful(g: Guard, call: Call) {
    call.Permit? ==> Created(call.node.key) in g.resolved ==> g.resolved[Created(call.node.key)] == call.original
  }

  predicate FaithfulRun(g: Guard, calls: seq<Call>)
    decreases |calls|
  {
    calls == [] || (Faithful(g, calls[0]) && FaithfulRun(Apply(g, calls[0]).0, calls[1..]))
  }

  function Current(g: Guard, slot: Slot): Option<Id> {
    if slot in g.resolved then Some(g.resolved[slot]) else None
  }

  function Original(g: Guard, slot: Slot): Option<Id> {
    if slot.Created? && slot.key in g.replacement then Some(g.replacement[slot.key]) else None
  }

  /** The identities h of one slot: at most one change, and only away from the identity given up for replacement. */
  ghost predicate Steady(h: seq<Id>, current: Option<Id>, original: Option<Id>) {
    && |h| <= 2
    && (current.Some? ==> h != [] && h[|h| - 1] == current.value)
    && (original.None? ==> |h| <= 1 && (h != [] ==> current.Some?))
    && (original.Some? ==>
      && (current.None? ==> h == [] || h == [original.value])
      && (|h| == 2 ==> h[0] == original.value != h[1] && current.Some?))
  }

  ghost predicate SteadyAt(g: Guard, slot: Slot) {
    Steady(History(g, slot), Current(g, slot), Original(g, slot))
  }

  lemma TakeSteady(h: seq<Id>, current: Option<Id>, original: Option<Id>, id: Id)
    requires Steady(h, current, original)
    requires current.Some? && current.value != id ==> original == current
    ensures Steady(Noted(h, id), Some(id), original)
  {
  }

  lemma ResolvedSteady(g: Guard, key: Key, id: Id, slot: Slot)
    requires SteadyAt(g, slot)
    ensures SteadyAt(Resolved(g, key, id).0, slot)
  {
    hide GoodId;
    if slot == Created(key) && Resolved(g, key, id).1 {
      hide Steady;
      TakeSteady(History(g, slot), Current(g, slot), Original(g, slot), id);
    }
  }

  lemma AutomaticSteady(g: Guard, id: Id, slot: Slot)
    requires SteadyAt(g, slot)
    ensures SteadyAt(Apply(g, ResolveAutomatic(id)).0, slot)
  {
    hide GoodId;
    if slot == AutomaticInfo && Apply(g, ResolveAutomatic(id)).1 {
      hide Steady;
      TakeSteady(History(g, slot), Current(g, slot), Original(g, slot), id);
    }
  }

  lemma PermitSteady(g: Guard, node: Node, original: Id, slot: Slot)
    requires SteadyAt(g, slot) && Faithful(g, Permit(node, original))
    ensures SteadyAt(Apply(g, Permit(node, original)).0, slot)
  {
  }

  lemma ApplySteady(g: Guard, call: Call, slot: Slot)
    requires SteadyAt(g, slot) && Faithful(g, call)
    ensures SteadyAt(Apply(g, call).0, slot)
  {
    match call
    case Resolve(key, id) => ResolvedSteady(g, key, id, slot); hide *;
    case Observe(key, id) => ResolvedSteady(g, key, id, slot); hide Resolved, Steady;
    case ResolveAutomatic(id) => AutomaticSteady(g, id, slot); hide *;
    case Permit(node, original) => PermitSteady(g, node, original, slot); hide *;
    case Consume(_, _) => hide Steady, Consumable;
    case Arm(_, _, _, _) => hide Steady, NodeMap, Keys;
  }

  /** Main result: each identity changes at most once, from the identity that was replaced to one single successor. */
  lemma {:induction false} IdentityChangesOnce(g: Guard, calls: seq<Call>, slot: Slot)
    requires SteadyAt(g, slot) && FaithfulRun(g, calls)
    ensures SteadyAt(Run(g, calls), slot)
    decreases |calls|
  {
    hide Apply, SteadyAt, Faithful;
    if calls != [] {
      ApplySteady(g, calls[0], slot);
      IdentityChangesOnce(Apply(g, calls[0]).0, calls[1..], slot);
    }
  }

  /** The two results for a fresh guard, spelled out. */
  lemma GuardedRun(calls: seq<Call>, slot: Slot)
    ensures var g := Run(Unarmed, calls);
            && Distinct(g.dispatched)
            && (FaithfulRun(Unarmed, calls) ==>
                  && |History(g, slot)| <= 2
                  && (|History(g, slot)| == 2 ==> slot.Created? && slot.key in g.replacement
                                                  && History(g, slot)[0] == g.replacement[slot.key]))
  {
    DispatchedOnce(Unarmed, calls);
    if FaithfulRun(Unarmed, calls) { IdentityChangesOnce(Unarmed, calls, slot); }
    hide Run, FaithfulRun;
  }

  /** A replacement that names another identity than the current one lets the identity change twice. */
  lemma UnfaithfulPermitChangesTwice(g: Guard, node: Node, other: Id, third: Id)
    requires g.armed && node.key.ShotKey? && node.key !in g.used && node.key !in g.replacement
    requires node.parent.Present? && node.dependencies == []
    requires Created(node.key) in g.resolved && SteadyAt(g, Created(node.key))
    requires g.resolved[Created(node.key)] != other && other != third && GoodId(other) && GoodId(third)
    ensures var calls := [Permit(node, other), Observe(node.key, other), Consume(node.key, node.parent.id), Resolve(node.key, third)];
            History(Run(g, calls), Created(node.key)) == [g.resolved[Created(node.key)], other, third]
  {
    hide GoodId;
    var slot := Created(node.key);
    assert History(g, slot) == [g.resolved[slot]];
    var g1 := Apply(g, Permit(node, other)).0;
    var g2 := Apply(g1, Observe(node.key, other)).0;
    assert History(g2, slot) == [g.resolved[slot], other];
    var g3 := Apply(g2, Consume(node.key, node.parent.id)).0;
    assert node.key in g3.used && g3.resolved[slot] == other == g3.replacement[node.key];
    var g4 := Apply(g3, Resolve(node.key, third)).0;
    hide Apply;
    RunFour(g, Permit(node, other), Observe(node.key, other), Consume(node.key, node.parent.id), Resolve(node.key, third));
  }

  lemma RunFour(g: Guard, a: Call, b: Call, c: Call, d: Call)
    ensures Run(g, [a, b, c, d]) == Apply(Apply(Apply(Apply(g, a).0, b).0, c).0, d).0
  {
    hide Apply;
    var g1 := Apply(g, a).0;
    var g2 := Apply(g1, b).0;
    var g3 := Apply(g2, c).0;
    assert [a, b, c, d][1..] == [b, c, d] && [b, c, d][1..] == [c, d] && [c, d][1..] == [d] && [d][1..] == [];
    assert Run(g, [a, b, c, d]) == Run(g1, [b, c, d]) == Run(g2, [c, d]) == Run(g3, [d]) == Run(Apply(g3, d).0, []);
  }

  // ---------- the guard object ----------

  class AppleCreateRetry {
    var armed: bool
    var inventory: seq<Key>
    var nodes: map<Key, Node>
    var used: map<Key, Option<Id>>
    var resolved: map<Slot, Id>
    var replacement: map<Key, Id>
    var operatorRetry: bool
    ghost var dispatched: seq<Key>
    ghost var identities: map<Slot, seq<Id>>

    ghost function View(): Guard reads this {
      Guard(armed, inventory, nodes, used, resolved, replacement, operatorRetry, dispatched, identities)
    }

    constructor ()
      ensures View() == Unarmed
    {
      armed, inventory, nodes, used, resolved, replacement := false, [], map[], map[], map[], map[];
      operatorRetry, dispatched, identities := false, [], map[];
    }

    /** The inventory is bound before the confirmation is looked at, so a refused arming still cannot be repeated. */
    method Arm(creates: seq<Node>, fits: bool, resuming: bool, confirmed: bool) returns (ok: bool)
      modifies this
      ensures var acceptable := |creates| <= INVENTORY_LIMIT && Distinct(Keys(creates)) && Orderable(creates) && fits;
              (View(), ok) == Apply(old(View()), Call.Arm(creates, acceptable, resuming, confirmed))
    {
      if armed { return false; }
      var built := BuildInventory(creates);
      if !built || !fits { return false; }
      hide Orderable, Keys, NodeMap, Distinct;
      armed, inventory := true, Keys(creates);
      if resuming && creates != [] {
        if !confirmed { return false; }
        operatorRetry := true;
      } else {
        operatorRetry := false;
      }
      nodes := NodeMap(creates);
      return true;
    }

    method Resolve(key: Key, id: Id) returns (ok: bool)
      modifies `resolved, `identities
      ensures (View(), ok) == Resolved(old(View()), key, id)
    {
      hide GoodId;
      var slot := Created(key);
      if slot in resolved && resolved[slot] != id {
        if !(key in replacement && replacement[key] == resolved[slot] && key in used) { return false; }
      }
      if !GoodId(id) { return false; }
      identities := identities[slot := Noted(History(View(), slot), id)];
      resolved := resolved[slot := id];
      return true;
    }

    method ResolveAutomatic(id: Id) returns (ok: bool)
      modifies `resolved, `identities
      ensures (View(), ok) == Apply(old(View()), Call.ResolveAutomatic(id))
    {
      hide GoodId;
      if !GoodId(id) { return false; }
      if AutomaticInfo in resolved && resolved[AutomaticInfo] != id { return false; }
      identities := identities[AutomaticInfo := Noted(History(View(), AutomaticInfo), id)];
      resolved := resolved[AutomaticInfo := id];
      return true;
    }

    method PermitReplacement(node: Node, original: Id) returns (ok: bool)
      modifies `replacement, `nodes, `resolved
      ensures (View(), ok) == Apply(old(View()), Permit(node, original))
    {
      if node.key in used || node.key in replacement || !node.key.ShotKey? { return false; }
      replacement := replacement[node.key := original];
      nodes := nodes[node.key := node];
      resolved := resolved - {Created(node.key)};
      return true;
    }

    /** A granted POST is recorded as used before it can be sent. */
    method Consume(key: Key, parent: Id) returns (ok: bool)
      modifies `used, `dispatched
      ensures (View(), ok) == Apply(old(View()), Call.Consume(key, parent))
    {
      hide Distinct;
      if !armed || key !in nodes || key in used { return false; }
      var node := nodes[key];
      var expected := ParentId(resolved, node.parent);
      if expected != Some(parent) { return false; }
      if exists d :: d in node.dependencies && Created(d) !in resolved { return false; }
      used := used[key := None];
      dispatched := dispatched + [key];
      return true;
    }

    method Observe(key: Key, id: Id) returns (ok: bool)
      modifies `resolved, `identities, `used
      ensures (View(), ok) == Apply(old(View()), Call.Observe(key, id))
    {
      ok := Resolve(key, id);
      hide Resolved;
      if ok && key in used {
        used := used[key := Some(id)];
      }
    }
  }
}
