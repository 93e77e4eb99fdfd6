/**
 The create guard of the Apple reconciler: an acyclic inventory of missing
 resources, one dispatch per logical resource, and stable resource identities.
 */
module CreateGuards {
  import opened Bytes

  type Id = string

  /** A logical identity: the resource type with its locator. Its digest is taken to be injective. */
  datatype Key =
    | VersionKey | TextKey(locale: string) | InfoKey(locale: string) | DetailKey(digest: string)
    | SetKey(locale: string, display: string) | ShotKey(locale: string, display: string, order: nat, sha: string)
    | ReviewKey | ItemKey
    | BetaTextKey(locale: string) | BetaReviewKey | BetaGroupKey(id: string)

  datatype Parent = Present(id: Id) | Missing(key: Key) | Automatic

  datatype Node = Node(key: Key, parent: Parent, dependencies: seq<Key>)

  /** `node`: the parent is a dependency when it is itself still to be created. */
  function MakeNode(key: Key, parent: Parent, dependencies: seq<Key>): (n: Node)
    ensures parent.Missing? ==> parent.key in n.dependencies
    ensures parent.Automatic? ==> VersionKey in n.dependencies
    ensures forall d :: d in dependencies ==> d in n.dependencies
  {
    match parent
    case Present(_) => Node(key, parent, dependencies)
    case Missing(k) => Node(key, parent, dependencies + [k])
    case Automatic => Node(key, parent, dependencies + [VersionKey])
  }

  predicate GoodId(id: Id) {
    1 <= |id| <= 255
    && forall i :: 0 <= i < |id| ==>
         'A' <= id[i] <= 'Z' || 'a' <= id[i] <= 'z' || '0' <= id[i] <= '9' || id[i] == '_' || id[i] == '.' || id[i] == '-'
  }

  // ---------- the inventory ----------

  const INVENTORY_LIMIT: nat := 2000

  function Keys(nodes: seq<Node>): (ks: seq<Key>)
    ensures |ks| == |nodes| && forall i :: 0 <= i < |nodes| ==> ks[i] == nodes[i].key
  {
    if nodes == [] then [] else Keys(nodes[..|nodes| - 1]) + [nodes[|nodes| - 1].key]
  }

  predicate Distinct(ks: seq<Key>) {
    forall i, j :: 0 <= i < j < |ks| ==> ks[i] != ks[j]
  }

  predicate Ready(n: Node, completed: seq<Key>) {
    forall d :: d in n.dependencies ==> d in completed
  }

  /** Each key of the order is a node whose dependencies all come before it. */
  ghost predicate Follows(nodes: seq<Node>, order: seq<Key>) {
    forall i :: 0 <= i < |order| ==> Placed(nodes, order, i)
  }

  ghost predicate Placed(nodes: seq<Node>, order: seq<Key>, i: nat)
    requires i < |order|
  {
    exists j :: 0 <= j < |nodes| && nodes[j].key == order[i] && Ready(nodes[j], order[..i])
  }

  /** A topological order: every node, once, after everything it depends on. */
  ghost predicate Topological(nodes: seq<Node>, order: seq<Key>) {
    Distinct(order) && Follows(nodes, order) && Covered(nodes, order)
  }

  ghost predicate Orderable(nodes: seq<Node>) {
    exists order :: Topological(nodes, order)
  }

  /** The nodes of one round: not completed yet, with every dependency completed. */
  function Available(nodes: seq<Node>, completed: seq<Key>): (ks: seq<Key>)
    ensures forall k :: k in ks <==> exists i :: 0 <= i < |nodes| && nodes[i].key == k && k !in completed && Ready(nodes[i], completed)
    ensures |ks| <= |nodes|
  {
    if nodes == [] then []
    else
      var last := nodes[|nodes| - 1];
      var front := Available(nodes[..|nodes| - 1], completed);
      assert forall k :: k in front ==> exists i :: 0 <= i < |nodes| - 1 && nodes[i].key == k && k !in completed && Ready(nodes[i], completed);
      if last.key !in completed && Ready(last, completed) then front + [last.key] else front
  }

  lemma {:induction false} AvailableDistinct(nodes: seq<Node>, completed: seq<Key>)
    requires Distinct(Keys(nodes))
    ensures Distinct(Available(nodes, completed))
  {
    if nodes != [] {
      var front := nodes[..|nodes| - 1];
      assert Keys(front) == Keys(nodes)[..|nodes| - 1];
      AvailableDistinct(front, completed);
      forall k | k in Available(front, completed) ensures k != nodes[|nodes| - 1].key {
        var i :| 0 <= i < |front| && front[i].key == k;
        assert Keys(nodes)[i] == k;
      }
    }
  }

  /** One more round keeps an order an order: all of the round's dependencies were completed before it. */
  lemma {:induction false} RoundFollows(nodes: seq<Node>, completed: seq<Key>, round: seq<Key>)
    requires Follows(nodes, completed) && round == Available(nodes, completed)
    ensures Follows(nodes, completed + round)
  {
    var order := completed + round;
    forall i | 0 <= i < |order| ensures Placed(nodes, order, i) {
      if i < |completed| {
        assert Placed(nodes, completed, i);
        assert order[..i] == completed[..i];
      } else {
        assert order[i] == round[i - |completed|] && order[i] in round;
        var j :| 0 <= j < |nodes| && nodes[j].key == order[i] && Ready(nodes[j], completed);
        assert order[..i] == completed + round[..i - |completed|];
      }
    }
  }

  lemma {:induction false} RoundDistinct(nodes: seq<Node>, completed: seq<Key>, round: seq<Key>)
    requires Distinct(Keys(nodes)) && Distinct(completed) && round == Available(nodes, completed)
    ensures Distinct(completed + round)
  {
    AvailableDistinct(nodes, completed);
    hide Available;
    forall i, j | 0 <= i < j < |completed + round| ensures (completed + round)[i] != (completed + round)[j] {
      if i < |completed| <= j {
        assert (completed + round)[j] in round;
        assert completed[i] in completed;
      }
    }
  }

  /** A round can only be empty before the end if no order exists: its first uncompleted node would be available. */
  lemma {:induction false} StuckIsUnorderable(nodes: seq<Node>, completed: seq<Key>, order: seq<Key>, i: nat)
    requires Available(nodes, completed) == [] && Follows(nodes, order) && i <= |order|
    ensures forall j :: 0 <= j < i ==> order[j] in completed
    decreases i
  {
    if i > 0 {
      StuckIsUnorderable(nodes, completed, order, i - 1);
      assert Placed(nodes, order, i - 1);
      var n :| 0 <= n < |nodes| && nodes[n].key == order[i - 1] && Ready(nodes[n], order[..i - 1]);
      assert forall d :: d in order[..i - 1] ==> d in completed;
      assert Ready(nodes[n], completed);
      assert order[i - 1] !in Available(nodes, completed);
    }
  }

  lemma {:induction false} FollowsMembers(nodes: seq<Node>, order: seq<Key>, k: Key)
    requires Follows(nodes, order) && k in order
    ensures k in Keys(nodes)
  {
    var i :| 0 <= i < |order| && order[i] == k;
    assert Placed(nodes, order, i);
    var j :| 0 <= j < |nodes| && nodes[j].key == order[i];
    assert Keys(nodes)[j] == k;
  }

  function Elements(ks: seq<Key>): set<Key> {
    set k | k in ks
  }

  lemma {:induction false} DistinctSize(ks: seq<Key>)
    requires Distinct(ks)
    ensures |Elements(ks)| == |ks|
  {
    if ks != [] {
      var front := ks[..|ks| - 1];
      DistinctSize(front);
      assert Elements(ks) == Elements(front) + {ks[|ks| - 1]};
    }
  }

  predicate Among(a: seq<Key>, b: seq<Key>) {
    forall k :: k in a ==> k in b
  }

  predicate Covered(nodes: seq<Node>, completed: seq<Key>) {
    forall n :: n in nodes ==> n.key in completed
  }

  lemma {:induction false} FollowsAmong(nodes: seq<Node>, order: seq<Key>)
    requires Follows(nodes, order)
    ensures Among(order, Keys(nodes))
  {
    forall k | k in order ensures k in Keys(nodes) { FollowsMembers(nodes, order, k); }
  }

  lemma SameElements(ks: seq<Key>, cs: seq<Key>)
    requires Distinct(ks) && Distinct(cs) && Among(cs, ks)
    ensures |cs| <= |ks| && (|cs| == |ks| <==> Among(ks, cs))
  {
    DistinctSize(ks);
    DistinctSize(cs);
    hide Distinct;
    SubsetSize(Elements(cs), Elements(ks));
    if Among(ks, cs) { assert Elements(cs) == Elements(ks); }
    if Elements(cs) == Elements(ks) {
      forall k | k in ks ensures k in cs { assert k in Elements(ks); }
    }
  }

  lemma {:induction false} NodesAreKeys(nodes: seq<Node>, completed: seq<Key>)
    ensures Among(Keys(nodes), completed) <==> Covered(nodes, completed)
  {
    var ks := Keys(nodes);
    if Among(ks, completed) {
      forall n | n in nodes ensures n.key in completed {
        var i :| 0 <= i < |nodes| && nodes[i] == n;
        assert ks[i] in ks;
      }
    }
    if Covered(nodes, completed) {
      forall k | k in ks ensures k in completed {
        var i :| 0 <= i < |ks| && ks[i] == k;
        assert nodes[i] in nodes;
      }
    }
  }

  /** Distinct keys taken from the inventory are no more than the inventory, and as many only if they are all of it. */
  lemma {:induction false} CompleteCovers(nodes: seq<Node>, completed: seq<Key>)
    requires Distinct(Keys(nodes)) && Distinct(completed) && Follows(nodes, completed)
    ensures |completed| <= |nodes|
    ensures |completed| == |nodes| <==> Covered(nodes, completed)
  {
    FollowsAmong(nodes, completed);
    NodesAreKeys(nodes, completed);
    SameElements(Keys(nodes), completed);
  }

  lemma {:induction false} SubsetSize(a: set<Key>, b: set<Key>)
    requires a <= b
    ensures |a| <= |b| && (|a| == |b| ==> a == b)
  {
    if a != {} {
      var x :| x in a;
      SubsetSize(a - {x}, b - {x});
      assert a == (a - {x}) + {x} && b == (b - {x}) + {x};
    }
  }

  /** `build_inventory`: rounds of available nodes until all are completed or a round is empty. */
  method BuildInventory(nodes: seq<Node>) returns (ok: bool)
    ensures ok <==> |nodes| <= INVENTORY_LIMIT && Distinct(Keys(nodes)) && Orderable(nodes)
  {
    if |nodes| > INVENTORY_LIMIT { return false; }
    var keys := Keys(nodes);
    if !Distinct(keys) { return false; }
    var completed: seq<Key> := [];
    CompleteCovers(nodes, completed);
    while |completed| != |keys|
      invariant Distinct(completed) && Follows(nodes, completed) && |completed| <= |nodes|
      decreases |nodes| - |completed|
    {
      var round := Available(nodes, completed);
      if round == [] {
        CompleteCovers(nodes, completed);
        forall order | Topological(nodes, order) ensures false {
          StuckIsUnorderable(nodes, completed, order, |order|);
        }
        return false;
      }
      RoundFollows(nodes, completed, round);
      RoundDistinct(nodes, completed, round);
      CompleteCovers(nodes, completed + round);
      completed := completed + round;
    }
    CompleteCovers(nodes, completed);
    assert Topological(nodes, completed);
    return true;
  }
  // ---------- inventories with a rank ----------

  /** The depth of a production resource below the application. */
  function Rank(k: Key): nat {
    match k
    case VersionKey => 0
    case TextKey(_) => 1
    case InfoKey(_) => 1
    case DetailKey(_) => 1
    case ReviewKey => 1
    case SetKey(_, _) => 2
    case ItemKey => 2
    case ShotKey(_, _, _, _) => 3
    case BetaTextKey(_) => 0
    case BetaReviewKey => 0
    case BetaGroupKey(_) => 0
  }

  ghost predicate Ranked(nodes: seq<Node>) {
    forall n, d :: n in nodes && d in n.dependencies ==> d in Keys(nodes) && Rank(d) < Rank(n.key)
  }

  function KeysBelow(nodes: seq<Node>, r: nat): (ks: seq<Key>)
    ensures forall k :: k in ks <==> k in Keys(nodes) && Rank(k) < r
    decreases r
  {
    if r == 0 then [] else
    var below := KeysBelow(nodes, r - 1);
    var layer := KeysAt(nodes, r - 1);
    assert forall k :: k in below + layer <==> k in below || k in layer;
    below + layer
  }

  function KeysAt(nodes: seq<Node>, r: nat): (ks: seq<Key>)
    ensures forall k :: k in ks <==> k in Keys(nodes) && Rank(k) == r
  {
    if nodes == [] then []
    else
      var last := nodes[|nodes| - 1];
      var front := KeysAt(nodes[..|nodes| - 1], r);
      assert Keys(nodes) == Keys(nodes[..|nodes| - 1]) + [last.key];
      if Rank(last.key) == r then front + [last.key] else front
  }

  lemma {:induction false} KeysAtDistinct(nodes: seq<Node>, r: nat)
    requires Distinct(Keys(nodes))
    ensures Distinct(KeysAt(nodes, r))
  {
    if nodes != [] {
      var front, last := nodes[..|nodes| - 1], nodes[|nodes| - 1];
      assert Keys(front) == Keys(nodes)[..|nodes| - 1];
      KeysAtDistinct(front, r);
      forall i | 0 <= i < |front| ensures Keys(front)[i] != last.key {
        assert Keys(front)[i] == Keys(nodes)[i] && Keys(nodes)[|nodes| - 1] == last.key;
      }
      assert last.key !in Keys(front);
    }
  }

  lemma {:induction false} KeysBelowOrdered(nodes: seq<Node>, r: nat)
    requires Distinct(Keys(nodes)) && Ranked(nodes)
    ensures Distinct(KeysBelow(nodes, r)) && Follows(nodes, KeysBelow(nodes, r))
    decreases r
  {
    if r > 0 {
      var below, layer := KeysBelow(nodes, r - 1), KeysAt(nodes, r - 1);
      KeysBelowOrdered(nodes, r - 1);
      KeysAtDistinct(nodes, r - 1);
      var order := below + layer;
      assert KeysBelow(nodes, r) == order;
      forall i | 0 <= i < |order| ensures Placed(nodes, order, i) {
        if i < |below| {
          assert Placed(nodes, below, i);
          assert order[..i] == below[..i];
        } else {
          LayerPlaced(nodes, below, layer, r, i);
        }
      }
      forall i, j | 0 <= i < j < |order| ensures order[i] != order[j] {
        if i < |below| <= j {
          assert order[i] in below && order[j] in layer;
        }
      }
    }
  }

  lemma {:induction false} LayerPlaced(nodes: seq<Node>, below: seq<Key>, layer: seq<Key>, r: nat, i: nat)
    requires r > 0 && below == KeysBelow(nodes, r - 1) && layer == KeysAt(nodes, r - 1) && Ranked(nodes)
    requires |below| <= i < |below + layer|
    ensures Placed(nodes, below + layer, i)
  {
    var order := below + layer;
    assert order[i] in layer;
    var j :| 0 <= j < |Keys(nodes)| && Keys(nodes)[j] == order[i];
    assert nodes[j] in nodes;
    assert order[..i] == below + layer[..i - |below|];
    assert forall d :: d in nodes[j].dependencies ==> d in below;
    assert Ready(nodes[j], order[..i]);
  }

  /** Distinct keys with closed, rank-decreasing dependencies always have a topological order. */
  lemma {:induction false} RankedIsOrderable(nodes: seq<Node>)
    requires Distinct(Keys(nodes)) && Ranked(nodes)
    ensures Orderable(nodes)
  {
    var order := KeysBelow(nodes, 4);
    KeysBelowOrdered(nodes, 4);
    forall n | n in nodes ensures n.key in order {
      var i :| 0 <= i < |nodes| && nodes[i] == n;
      assert Keys(nodes)[i] in Keys(nodes);
      assert Rank(n.key) < 4;
    }
    assert Topological(nodes, order);
  }
}
