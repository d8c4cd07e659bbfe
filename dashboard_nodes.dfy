/**
 * What the dashboard graph promises about its nodes: one node per user id and per
 * transaction id, the one inserted first, and every edge joining drawn nodes.
 */
module DashboardNodes {
  import opened Records
  import opened Graph
  import opened DashboardSpec

  lemma IdsSnoc(ns: seq<Node>, n: Node)
    ensures UserIds(ns + [n]) == UserIds(ns) + (if n.UserNode? then {n.id} else {})
    ensures TxIds(ns + [n]) == TxIds(ns) + (if n.TxNode? then {n.id} else {})
  {
    assert forall m :: m in ns + [n] <==> m in ns || m == n;
  }

  /** The dots drawn are exactly the users ensured, the boxes exactly the transactions inserted. */
  lemma {:induction false} DedupNodesSeen(ops: seq<Op>)
    ensures UserIds(DedupNodes(ops)) == SeenUsers(ops)
    ensures TxIds(DedupNodes(ops)) == SeenTxs(ops)
  {
    if ops != [] {
      var front := ops[..|ops| - 1];
      DedupNodesSeen(front);
      var d := DedupNodes(front);
      match ops[|ops| - 1]
      case EnsureUserOp(u) =>
        IdsSnoc(d, UserNode(u, CreatedHalfSize));
      case EnsureTxOp(x, c) =>
        IdsSnoc(d, TxNode(x, c));
      case AddEdgeOp(_) =>
    }
  }

  lemma UniqueSnoc(ns: seq<Node>, n: Node)
    requires NodesUnique(ns)
    requires n.UserNode? ==> n.id !in UserIds(ns)
    requires n.TxNode? ==> n.id !in TxIds(ns)
    ensures NodesUnique(ns + [n])
  {
    forall i, j | 0 <= i < j < |ns + [n]|
      ensures !((ns + [n])[i].UserNode? == (ns + [n])[j].UserNode? && (ns + [n])[i].id == (ns + [n])[j].id)
    {
      if j == |ns| {
        assert (ns + [n])[i] == ns[i] && ns[i] in ns;
      }
    }
  }

  /** No user id and no transaction id is drawn twice. */
  lemma {:induction false} DedupNodesUnique(ops: seq<Op>)
    ensures NodesUnique(DedupNodes(ops))
  {
    if ops != [] {
      var front := ops[..|ops| - 1];
      DedupNodesUnique(front);
      DedupNodesSeen(front);
      var d := DedupNodes(front);
      match ops[|ops| - 1]
      case EnsureUserOp(u) =>
        if u !in SeenUsers(front) {
          UniqueSnoc(d, UserNode(u, CreatedHalfSize));
        }
      case EnsureTxOp(x, c) =>
        if x !in SeenTxs(front) {
          UniqueSnoc(d, TxNode(x, c));
        }
      case AddEdgeOp(_) =>
    }
  }

  /** A transaction id is seen exactly when some step inserted its box. */
  lemma {:induction false} SeenTxsMembers(ops: seq<Op>, x: string)
    ensures x in SeenTxs(ops) <==> exists m :: 0 <= m < |ops| && ops[m].EnsureTxOp? && ops[m].txId == x
  {
    if ops != [] {
      var front := ops[..|ops| - 1];
      SeenTxsMembers(front, x);
      if exists m :: 0 <= m < |front| && front[m].EnsureTxOp? && front[m].txId == x {
        var m :| 0 <= m < |front| && front[m].EnsureTxOp? && front[m].txId == x;
        assert ops[m] == front[m];
      }
      if exists m :: 0 <= m < |ops| && ops[m].EnsureTxOp? && ops[m].txId == x {
        var m :| 0 <= m < |ops| && ops[m].EnsureTxOp? && ops[m].txId == x;
        if m < |front| {
          assert front[m] == ops[m];
        }
      }
    }
  }

  /** Step i is the first to insert the box of its transaction id. */
  predicate FirstBoxStep(ops: seq<Op>, i: int)
  {
    0 <= i < |ops| && ops[i].EnsureTxOp? &&
    forall m :: 0 <= m < i ==> !(ops[m].EnsureTxOp? && ops[m].txId == ops[i].txId)
  }

  /** The box drawn for a transaction id carries the class of the first step that inserted it. */
  lemma {:induction false} FirstBoxWins(ops: seq<Op>, i: int)
    requires FirstBoxStep(ops, i)
    ensures TxNode(ops[i].txId, ops[i].txClass) in DedupNodes(ops)
  {
    var front := ops[..|ops| - 1];
    if i < |front| {
      assert FirstBoxStep(front, i);
      FirstBoxWins(front, i);
    } else {
      SeenTxsMembers(front, ops[i].txId);
      assert forall m :: 0 <= m < |front| ==> front[m] == ops[m];
    }
  }

  /** Later insertions never recolour a box: every box for the id of the first
      inserting step has that step's class. */
  lemma BoxClassFixedAtFirst(ops: seq<Op>, i: int, n: Node)
    requires FirstBoxStep(ops, i)
    requires n in DedupNodes(ops) && n.TxNode? && n.id == ops[i].txId
    ensures n.txClass == ops[i].txClass
  {
    FirstBoxWins(ops, i);
    DedupNodesUnique(ops);
    var d := DedupNodes(ops);
    var a :| 0 <= a < |d| && d[a] == n;
    var b :| 0 <= b < |d| && d[b] == TxNode(ops[i].txId, ops[i].txClass);
    assert a == b;
  }

  /** Appending edges never lowers a node's degree. */
  lemma {:induction false} TouchesGrow(es: seq<Edge>, more: seq<Edge>, x: string)
    ensures Touches(es, x) <= Touches(es + more, x)
    decreases |more|
  {
    if more != [] {
      var front := more[..|more| - 1];
      TouchesGrow(es, front, x);
      var all := es + more;
      assert all[..|all| - 1] == es + front;
      assert Touches(all, x) >= Touches(all[..|all| - 1], x);
    } else {
      assert es + more == es;
    }
  }

  /** A dot is never made smaller by more edges, and a box is never resized. */
  lemma SizeMonotone(n: Node, es: seq<Edge>, more: seq<Edge>)
    ensures n.UserNode? ==> SizedNode(n, es).halfSize <= SizedNode(n, es + more).halfSize
    ensures n.UserNode? ==> SizedNode(n, es).id == n.id
    ensures n.TxNode? ==> SizedNode(n, es) == n
  {
    if n.UserNode? {
      TouchesGrow(es, more, n.id);
    }
  }

  /** Resizing changes no id and no kind. */
  lemma SizedKeepsIds(ns: seq<Node>, es: seq<Edge>)
    ensures UserIds(Sized(ns, es)) == UserIds(ns)
    ensures TxIds(Sized(ns, es)) == TxIds(ns)
    ensures NodesUnique(ns) ==> NodesUnique(Sized(ns, es))
  {
    var r := Sized(ns, es);
    forall x | x in UserIds(r) ensures x in UserIds(ns) {
      var k :| 0 <= k < |r| && r[k].UserNode? && r[k].id == x;
      assert ns[k] in ns;
    }
    forall x | x in UserIds(ns) ensures x in UserIds(r) {
      var k :| 0 <= k < |ns| && ns[k].UserNode? && ns[k].id == x;
      assert r[k] in r;
    }
    forall x | x in TxIds(r) ensures x in TxIds(ns) {
      var k :| 0 <= k < |r| && r[k].TxNode? && r[k].id == x;
      assert ns[k] in ns;
    }
    forall x | x in TxIds(ns) ensures x in TxIds(r) {
      var k :| 0 <= k < |ns| && ns[k].TxNode? && ns[k].id == x;
      assert r[k] in r;
    }
  }
}
