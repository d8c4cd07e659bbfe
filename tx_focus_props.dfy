/**
 * What the transaction panel's graph satisfies for every input: the focal box
 * comes first and every other node is a user dot, ids are drawn once, every
 * edge joins drawn nodes, the edges are the deduplicated credit, debit and
 * shared-link edges the filter lets through, and the "no connections" notice
 * appears exactly when no edge is drawn.
 */
module TxFocusProps {
  import opened Records
  import opened Graph
  import opened TxFocus
  import opened TxFocusGraph

  function NodeIds(ns: seq<Node>): set<string>
  {
    set n | n in ns :: n.id
  }

  predicate IdsDistinct(ns: seq<Node>)
  {
    forall i, j :: 0 <= i < j < |ns| ==> ns[i].id != ns[j].id
  }

  /** Every drawn edge joins two drawn nodes. */
  ghost predicate Closed(s: FocusState)
  {
    forall e :: e in s.edges ==> e.from in s.seenNodes && e.to in s.seenNodes
  }

  /** The builder between two statements of the effect once the box is in: the
      seen-sets hold exactly what was drawn, each id is drawn once, the box is
      first, every later node is a user dot of the created size, and the graph is
      closed. */
  ghost predicate Shaped(s: FocusState, box: Node)
  {
    && s.seenNodes == NodeIds(s.nodes)
    && IdsDistinct(s.nodes)
    && s.seenEdges == KeysOf(s.edges, Bar)
    && |s.nodes| >= 1 && s.nodes[0] == box
    && (forall k :: 1 <= k < |s.nodes| ==> s.nodes[k] == UserNode(s.nodes[k].id, CreatedHalfSize))
    && Closed(s)
  }

  /** Without edges only the box is drawn. */
  predicate BareBox(s: FocusState)
  {
    s.edges == [] ==> |s.nodes| == 1
  }

  /** With only the box drawn there is no edge. */
  predicate LoneBoxNoEdges(s: FocusState)
  {
    |s.nodes| == 1 ==> s.edges == []
  }

  lemma NodeIdsSnoc(ns: seq<Node>, n: Node)
    ensures NodeIds(ns + [n]) == NodeIds(ns) + {n.id}
  {
    assert forall m :: m in ns + [n] <==> m in ns || m == n;
  }

  lemma EnsureKeeps(s: FocusState, box: Node, u: string)
    requires Shaped(s, box)
    ensures var t := Step(s, EnsureUserOp(u));
      Shaped(t, box) && u in t.seenNodes && s.seenNodes <= t.seenNodes && t.edges == s.edges
  {
    if u !in s.seenNodes {
      var ns := s.nodes + [UserNode(u, CreatedHalfSize)];
      NodeIdsSnoc(s.nodes, UserNode(u, CreatedHalfSize));
      forall i, j | 0 <= i < j < |ns| ensures ns[i].id != ns[j].id {
        if j == |s.nodes| {
          assert ns[i] == s.nodes[i] && s.nodes[i] in s.nodes;
        }
      }
    }
  }

  lemma AddKeeps(s: FocusState, box: Node, e: Edge)
    requires Shaped(s, box) && e.from in s.seenNodes && e.to in s.seenNodes
    ensures var t := Step(s, AddEdgeOp(e));
      Shaped(t, box) && t.edges != [] && t.nodes == s.nodes && t.seenNodes == s.seenNodes
  {
    var es := s.edges + [e];
    assert es[..|s.edges|] == s.edges;
  }

  /** A drawn user other than the box means at least two nodes. */
  lemma NotLone(s: FocusState, box: Node, u: string)
    requires Shaped(s, box) && u in s.seenNodes && u != box.id
    ensures |s.nodes| >= 2
  {
    var n :| n in s.nodes && n.id == u;
  }

  lemma {:induction false} CreditOpsKeep(s: FocusState, box: Node, senders: seq<string>)
    requires Shaped(s, box) && BareBox(s)
    ensures var t := Replay(s, CreditOps(senders, box.id));
      Shaped(t, box) && BareBox(t) && (LoneBoxNoEdges(s) && box.id !in senders ==> LoneBoxNoEdges(t))
  {
    if senders != [] {
      var front, u := senders[..|senders| - 1], senders[|senders| - 1];
      CreditOpsKeep(s, box, front);
      var s0 := Replay(s, CreditOps(front, box.id));
      ReplaySnoc2(s, CreditOps(front, box.id), EnsureUserOp(u), AddEdgeOp(CreditEdge(u, box.id)));
      EnsureKeeps(s0, box, u);
      var s1 := Step(s0, EnsureUserOp(u));
      assert box in s1.nodes;
      AddKeeps(s1, box, CreditEdge(u, box.id));
      if box.id !in senders {
        assert u in senders;
        NotLone(s1, box, u);
      }
    }
  }

  lemma {:induction false} DebitOpsKeep(s: FocusState, box: Node, receivers: seq<string>)
    requires Shaped(s, box) && BareBox(s)
    ensures var t := Replay(s, DebitOps(receivers, box.id));
      Shaped(t, box) && BareBox(t) && (LoneBoxNoEdges(s) && box.id !in receivers ==> LoneBoxNoEdges(t))
  {
    if receivers != [] {
      var front, u := receivers[..|receivers| - 1], receivers[|receivers| - 1];
      DebitOpsKeep(s, box, front);
      var s0 := Replay(s, DebitOps(front, box.id));
      ReplaySnoc2(s, DebitOps(front, box.id), EnsureUserOp(u), AddEdgeOp(DebitEdge(box.id, u)));
      EnsureKeeps(s0, box, u);
      var s1 := Step(s0, EnsureUserOp(u));
      assert box in s1.nodes;
      AddKeeps(s1, box, DebitEdge(box.id, u));
      if box.id !in receivers {
        assert u in receivers;
        NotLone(s1, box, u);
      }
    }
  }

  /** No shared link starts at the focal id. */
  predicate LinksAvoid(links: seq<SharedLink>, id: string)
  {
    forall k :: 0 <= k < |links| ==> links[k].u1 != id
  }

  /** The ops of one shared link keep the shape; they draw a second node unless the
      link starts at the box. */
  lemma LinkStepKeeps(s0: FocusState, box: Node, l: SharedLink, filter: string)
    requires Shaped(s0, box) && BareBox(s0)
    ensures var t := Replay(s0, if ShowsLink(filter, l.relation) then [EnsureUserOp(l.u1), EnsureUserOp(l.u2), AddEdgeOp(LinkEdge(l))] else []);
      Shaped(t, box) && BareBox(t) && (LoneBoxNoEdges(s0) && l.u1 != box.id ==> LoneBoxNoEdges(t))
  {
    if ShowsLink(filter, l.relation) {
      ReplaySnoc3(s0, [], EnsureUserOp(l.u1), EnsureUserOp(l.u2), AddEdgeOp(LinkEdge(l)));
      assert [] + [EnsureUserOp(l.u1), EnsureUserOp(l.u2), AddEdgeOp(LinkEdge(l))]
          == [EnsureUserOp(l.u1), EnsureUserOp(l.u2), AddEdgeOp(LinkEdge(l))];
      EnsureKeeps(s0, box, l.u1);
      var s1 := Step(s0, EnsureUserOp(l.u1));
      EnsureKeeps(s1, box, l.u2);
      var s2 := Step(s1, EnsureUserOp(l.u2));
      AddKeeps(s2, box, LinkEdge(l));
      if l.u1 != box.id {
        NotLone(s2, box, l.u1);
      }
    }
  }

  lemma LinksAvoidFront(links: seq<SharedLink>, id: string)
    requires links != [] && LinksAvoid(links, id)
    ensures LinksAvoid(links[..|links| - 1], id) && links[|links| - 1].u1 != id
  {
  }

  lemma {:induction false} LinkOpsKeep(s: FocusState, box: Node, links: seq<SharedLink>, filter: string)
    requires Shaped(s, box) && BareBox(s)
    ensures var t := Replay(s, LinkOps(links, filter));
      Shaped(t, box) && BareBox(t) && (LoneBoxNoEdges(s) && LinksAvoid(links, box.id) ==> LoneBoxNoEdges(t))
  {
    if links != [] {
      var front, l := links[..|links| - 1], links[|links| - 1];
      var step := if ShowsLink(filter, l.relation) then [EnsureUserOp(l.u1), EnsureUserOp(l.u2), AddEdgeOp(LinkEdge(l))] else [];
      assert LinkOps(links, filter) == LinkOps(front, filter) + step;
      LinkOpsKeep(s, box, front, filter);
      ReplayConcat(s, LinkOps(front, filter), step);
      LinkStepKeeps(Replay(s, LinkOps(front, filter)), box, l, filter);
      if LinksAvoid(links, box.id) {
        LinksAvoidFront(links, box.id);
      }
    }
  }

  /** The box the panel draws for a transaction. */
  function FocusBox(id: string, found: seq<Tx>): Node
  {
    TxNode(id, ClassOf(StatusOf(found, id)))
  }

  /** The panel's graph replays the box, then the credits, the debits and the links. */
  lemma FocusReplaySplit(id: string, found: seq<Tx>, senders: seq<string>, receivers: seq<string>,
                         links: seq<SharedLink>, filter: string)
    ensures var credits := if Shown(filter, Credit) then CreditOps(senders, id) else [];
      var debits := if Shown(filter, Debit) then DebitOps(receivers, id) else [];
      FocusGraphOf(id, found, senders, receivers, links, filter)
        == Replay(Replay(Replay(Replay(Blank, [FocusBoxOp(id, ClassOf(StatusOf(found, id)))]), credits), debits), LinkOps(links, filter))
  {
    var head := [FocusBoxOp(id, ClassOf(StatusOf(found, id)))];
    var credits := if Shown(filter, Credit) then CreditOps(senders, id) else [];
    var debits := if Shown(filter, Debit) then DebitOps(receivers, id) else [];
    ReplayConcat(Blank, head, credits);
    ReplayConcat(Blank, head + credits, debits);
    ReplayConcat(Blank, head + credits + debits, LinkOps(links, filter));
  }

  /** After the box alone, only the box is drawn. */
  lemma FocusHeadKeeps(id: string, found: seq<Tx>)
    ensures var s := Replay(Blank, [FocusBoxOp(id, ClassOf(StatusOf(found, id)))]);
      Shaped(s, FocusBox(id, found)) && BareBox(s) && LoneBoxNoEdges(s)
  {
    var box := FocusBox(id, found);
    var head := [FocusBoxOp(id, ClassOf(StatusOf(found, id)))];
    ReplayOne(Blank, head[0]);
    assert Replay(Blank, head) == FocusState([box], [], {id}, {});
    assert NodeIds([box]) == {id} by {
      assert forall m :: m in [box] <==> m == box;
    }
  }

  lemma CreditsPhase(s: FocusState, box: Node, senders: seq<string>, filter: string)
    requires Shaped(s, box) && BareBox(s)
    ensures var t := Replay(s, if Shown(filter, Credit) then CreditOps(senders, box.id) else []);
      Shaped(t, box) && BareBox(t) && (LoneBoxNoEdges(s) && box.id !in senders ==> LoneBoxNoEdges(t))
  {
    if Shown(filter, Credit) {
      CreditOpsKeep(s, box, senders);
    }
  }

  lemma DebitsPhase(s: FocusState, box: Node, receivers: seq<string>, filter: string)
    requires Shaped(s, box) && BareBox(s)
    ensures var t := Replay(s, if Shown(filter, Debit) then DebitOps(receivers, box.id) else []);
      Shaped(t, box) && BareBox(t) && (LoneBoxNoEdges(s) && box.id !in receivers ==> LoneBoxNoEdges(t))
  {
    if Shown(filter, Debit) {
      DebitOpsKeep(s, box, receivers);
    }
  }

  lemma FocusGraphKeeps(id: string, found: seq<Tx>, senders: seq<string>, receivers: seq<string>,
                        links: seq<SharedLink>, filter: string)
    ensures var g := FocusGraphOf(id, found, senders, receivers, links, filter);
      Shaped(g, FocusBox(id, found)) && BareBox(g)
    ensures var g := FocusGraphOf(id, found, senders, receivers, links, filter);
      id !in senders && id !in receivers && LinksAvoid(links, id) ==> LoneBoxNoEdges(g)
  {
    var box := FocusBox(id, found);
    var s0 := Replay(Blank, [FocusBoxOp(id, ClassOf(StatusOf(found, id)))]);
    var s1 := Replay(s0, if Shown(filter, Credit) then CreditOps(senders, id) else []);
    var s2 := Replay(s1, if Shown(filter, Debit) then DebitOps(receivers, id) else []);
    FocusReplaySplit(id, found, senders, receivers, links, filter);
    FocusHeadKeeps(id, found);
    CreditsPhase(s0, box, senders, filter);
    DebitsPhase(s1, box, receivers, filter);
    LinkOpsKeep(s2, box, links, filter);
  }

  /** The graph the panel draws: the focal box first, coloured by the status of the
      first search result with its id; every other node a user dot of the created
      size (linked transactions never become nodes); no id drawn twice; every edge
      joining two drawn nodes. */
  lemma FocusGraphShape(id: string, found: seq<Tx>, senders: seq<string>, receivers: seq<string>,
                        links: seq<SharedLink>, filter: string)
    ensures var g := FocusGraphOf(id, found, senders, receivers, links, filter);
      && |g.nodes| >= 1 && g.nodes[0] == TxNode(id, ClassOf(StatusOf(found, id)))
      && (forall k :: 1 <= k < |g.nodes| ==> g.nodes[k].UserNode? && g.nodes[k].halfSize == CreatedHalfSize)
      && IdsDistinct(g.nodes)
      && (forall e :: e in g.edges ==> e.from in NodeIds(g.nodes) && e.to in NodeIds(g.nodes))
  {
    FocusGraphKeeps(id, found, senders, receivers, links, filter);
  }

  /** "No connections match this filter" is shown (at most one node drawn) exactly when
      no edge is drawn, provided no user id equals the transaction id. */
  lemma NoConnectionsNotice(id: string, found: seq<Tx>, senders: seq<string>, receivers: seq<string>,
                            links: seq<SharedLink>, filter: string)
    requires id !in senders && id !in receivers && LinksAvoid(links, id)
    ensures var g := FocusGraphOf(id, found, senders, receivers, links, filter);
      |g.nodes| <= 1 <==> g.edges == []
  {
    FocusGraphKeeps(id, found, senders, receivers, links, filter);
  }

  /** The proviso is needed: a sender whose id is the transaction id is not drawn
      again, so the box stands alone while its credit edge to itself is drawn. */
  lemma SelfSenderLeavesBoxAlone()
    ensures var g := FocusGraphOf("X", [], ["X"], [], [], "all");
      |g.nodes| == 1 && |g.edges| == 1
  {
    var box := FocusBoxOp("X", ClearTx);
    var a, b := EnsureUserOp("X"), AddEdgeOp(CreditEdge("X", "X"));
    assert CreditOps(["X"], "X") == [a, b] by {
      assert ["X"][..0] == [];
    }
    assert FocusOps("X", [], ["X"], [], [], "all") == [box] + [a, b];
    ReplaySnoc2(Blank, [box], a, b);
    assert [box][..0] == [];
    var s0 := Replay(Blank, [box]);
    assert s0 == Step(Blank, box);
    assert s0 == FocusState([TxNode("X", ClearTx)], [], {"X"}, {});
    var s1 := Step(s0, a);
    assert s1 == s0;
  }

  // ---------------- the edges ----------------

  /** The edges `addEdge` is called with, in order. */
  function Attempts(ops: seq<FocusOp>): seq<Edge>
  {
    if ops == [] then []
    else Attempts(ops[..|ops| - 1]) + (if ops[|ops| - 1].AddEdgeOp? then [ops[|ops| - 1].edge] else [])
  }

  /** Reference definition of what the panel asks to draw: the credit edge of every
      sender and the debit edge of every receiver when the filter shows them, then
      the edge of every shared link the filter shows. */
  function RequestedEdges(id: string, senders: seq<string>, receivers: seq<string>,
                          links: seq<SharedLink>, filter: string): seq<Edge>
  {
    (if Shown(filter, Credit) then CreditEdges(senders, id) else [])
      + (if Shown(filter, Debit) then DebitEdges(id, receivers) else [])
      + ShownLinkEdges(links, filter)
  }

  function CreditEdges(senders: seq<string>, id: string): (es: seq<Edge>)
    ensures |es| == |senders|
  {
    if senders == [] then [] else CreditEdges(senders[..|senders| - 1], id) + [CreditEdge(senders[|senders| - 1], id)]
  }

  function DebitEdges(id: string, receivers: seq<string>): (es: seq<Edge>)
    ensures |es| == |receivers|
  {
    if receivers == [] then [] else DebitEdges(id, receivers[..|receivers| - 1]) + [DebitEdge(id, receivers[|receivers| - 1])]
  }

  function ShownLinkEdges(links: seq<SharedLink>, filter: string): seq<Edge>
  {
    if links == [] then []
    else
      var l := links[|links| - 1];
      ShownLinkEdges(links[..|links| - 1], filter) + (if ShowsLink(filter, l.relation) then [LinkEdge(l)] else [])
  }

  lemma {:induction false} AttemptsConcat(a: seq<FocusOp>, b: seq<FocusOp>)
    ensures Attempts(a + b) == Attempts(a) + Attempts(b)
    decreases |b|
  {
    if b == [] {
      assert a + b == a;
    } else {
      var b0 := b[..|b| - 1];
      AttemptsConcat(a, b0);
      assert (a + b)[..|a + b| - 1] == a + b0;
    }
  }

  lemma AttemptsPair(a: FocusOp, e: Edge)
    requires !a.AddEdgeOp?
    ensures Attempts([a, AddEdgeOp(e)]) == [e]
  {
    assert [a][..0] == [];
    assert Attempts([a]) == [];
    assert [a, AddEdgeOp(e)][..1] == [a];
  }

  lemma AttemptsTriple(a: FocusOp, b: FocusOp, e: Edge)
    requires !a.AddEdgeOp? && !b.AddEdgeOp?
    ensures Attempts([a, b, AddEdgeOp(e)]) == [e]
  {
    assert [a][..0] == [];
    assert Attempts([a]) == [];
    assert [a, b][..1] == [a];
    assert Attempts([a, b]) == [];
    assert [a, b, AddEdgeOp(e)][..2] == [a, b];
  }

  lemma {:induction false} CreditAttempts(senders: seq<string>, id: string)
    ensures Attempts(CreditOps(senders, id)) == CreditEdges(senders, id)
  {
    if senders != [] {
      var front, u := senders[..|senders| - 1], senders[|senders| - 1];
      CreditAttempts(front, id);
      AttemptsConcat(CreditOps(front, id), [EnsureUserOp(u), AddEdgeOp(CreditEdge(u, id))]);
      AttemptsPair(EnsureUserOp(u), CreditEdge(u, id));
    }
  }

  lemma {:induction false} DebitAttempts(receivers: seq<string>, id: string)
    ensures Attempts(DebitOps(receivers, id)) == DebitEdges(id, receivers)
  {
    if receivers != [] {
      var front, u := receivers[..|receivers| - 1], receivers[|receivers| - 1];
      DebitAttempts(front, id);
      AttemptsConcat(DebitOps(front, id), [EnsureUserOp(u), AddEdgeOp(DebitEdge(id, u))]);
      AttemptsPair(EnsureUserOp(u), DebitEdge(id, u));
    }
  }

  lemma {:induction false} LinkAttempts(links: seq<SharedLink>, filter: string)
    ensures Attempts(LinkOps(links, filter)) == ShownLinkEdges(links, filter)
  {
    if links != [] {
      var front, l := links[..|links| - 1], links[|links| - 1];
      LinkAttempts(front, filter);
      if ShowsLink(filter, l.relation) {
        var three := [EnsureUserOp(l.u1), EnsureUserOp(l.u2), AddEdgeOp(LinkEdge(l))];
        AttemptsConcat(LinkOps(front, filter), three);
        AttemptsTriple(EnsureUserOp(l.u1), EnsureUserOp(l.u2), LinkEdge(l));
      } else {
        assert LinkOps(links, filter) == LinkOps(front, filter) + [];
        assert LinkOps(front, filter) + [] == LinkOps(front, filter);
        assert ShownLinkEdges(front, filter) + [] == ShownLinkEdges(front, filter);
      }
    }
  }

  /** Replaying from the empty builder keeps the first edge per key. */
  lemma {:induction false} ReplayEdges(ops: seq<FocusOp>)
    ensures Replay(Blank, ops).edges == DedupEdges(Attempts(ops), Bar)
    ensures Replay(Blank, ops).seenEdges == KeysOf(Attempts(ops), Bar)
  {
    if ops != [] {
      var front, op := ops[..|ops| - 1], ops[|ops| - 1];
      ReplayEdges(front);
      if op.AddEdgeOp? {
        var es := Attempts(front);
        assert (es + [op.edge])[..|es|] == es;
      } else {
        assert Attempts(ops) == Attempts(front) + [];
        assert Attempts(front) + [] == Attempts(front);
      }
    }
  }

  /** The effect calls `addEdge` with exactly the requested edges, in order. */
  lemma FocusAttempts(id: string, found: seq<Tx>, senders: seq<string>, receivers: seq<string>,
                      links: seq<SharedLink>, filter: string)
    ensures Attempts(FocusOps(id, found, senders, receivers, links, filter)) == RequestedEdges(id, senders, receivers, links, filter)
  {
    var head := [FocusBoxOp(id, ClassOf(StatusOf(found, id)))];
    var credits := if Shown(filter, Credit) then CreditOps(senders, id) else [];
    var debits := if Shown(filter, Debit) then DebitOps(receivers, id) else [];
    var c := if Shown(filter, Credit) then CreditEdges(senders, id) else [];
    var d := if Shown(filter, Debit) then DebitEdges(id, receivers) else [];
    var l := ShownLinkEdges(links, filter);
    assert Attempts(credits) == c by {
      if Shown(filter, Credit) {
        CreditAttempts(senders, id);
      }
    }
    assert Attempts(debits) == d by {
      if Shown(filter, Debit) {
        DebitAttempts(receivers, id);
      }
    }
    LinkAttempts(links, filter);
    assert Attempts(head) == [] by {
      assert head[..0] == [];
    }
    assert Attempts(head + credits) == c by {
      AttemptsConcat(head, credits);
      assert [] + c == c;
    }
    AttemptsConcat(head + credits, debits);
    AttemptsConcat(head + credits + debits, LinkOps(links, filter));
  }

  /** The panel's edges are the requested edges, deduplicated on their key: the first
      request per key is drawn, keys are distinct, and every requested key is drawn. */
  lemma FocusEdges(id: string, found: seq<Tx>, senders: seq<string>, receivers: seq<string>,
                   links: seq<SharedLink>, filter: string)
    ensures var g := FocusGraphOf(id, found, senders, receivers, links, filter);
      && g.edges == DedupEdges(RequestedEdges(id, senders, receivers, links, filter), Bar)
      && KeysDistinct(g.edges, Bar)
      && KeysOf(g.edges, Bar) == KeysOf(RequestedEdges(id, senders, receivers, links, filter), Bar)
  {
    var ops := FocusOps(id, found, senders, receivers, links, filter);
    FocusAttempts(id, found, senders, receivers, links, filter);
    ReplayEdges(ops);
    DedupEdgesDistinct(Attempts(ops), Bar);
    DedupEdgesKeys(Attempts(ops), Bar);
  }

  /** Every drawn edge is a credit edge of a sender, a debit edge of a receiver or the
      edge of a shared link, of a relation the filter shows. */
  lemma FocusEdgesShown(id: string, found: seq<Tx>, senders: seq<string>, receivers: seq<string>,
                        links: seq<SharedLink>, filter: string, e: Edge)
    requires e in FocusGraphOf(id, found, senders, receivers, links, filter).edges
    ensures Shown(filter, e.relation)
    ensures || (e.relation == Credit && exists k :: 0 <= k < |senders| && e == CreditEdge(senders[k], id))
            || (e.relation == Debit && exists k :: 0 <= k < |receivers| && e == DebitEdge(id, receivers[k]))
            || (exists l :: l in links && e == LinkEdge(l) && ShowsLink(filter, l.relation))
  {
    FocusEdges(id, found, senders, receivers, links, filter);
    var req := RequestedEdges(id, senders, receivers, links, filter);
    DedupEdgesDrawn(req, Bar);
    assert e in req;
    if Shown(filter, Credit) && e in CreditEdges(senders, id) {
      CreditEdgesMembers(senders, id, e);
    } else if Shown(filter, Debit) && e in DebitEdges(id, receivers) {
      DebitEdgesMembers(id, receivers, e);
    } else {
      ShownLinkEdgesFrom(links, filter, e);
    }
  }

  lemma {:induction false} CreditEdgesMembers(senders: seq<string>, id: string, e: Edge)
    ensures e in CreditEdges(senders, id) <==> exists k :: 0 <= k < |senders| && e == CreditEdge(senders[k], id)
  {
    if senders != [] {
      var front := senders[..|senders| - 1];
      CreditEdgesMembers(front, id, e);
      if exists k :: 0 <= k < |front| && e == CreditEdge(front[k], id) {
        var k :| 0 <= k < |front| && e == CreditEdge(front[k], id);
        assert senders[k] == front[k];
      }
      if exists k :: 0 <= k < |senders| && e == CreditEdge(senders[k], id) {
        var k :| 0 <= k < |senders| && e == CreditEdge(senders[k], id);
        if k < |front| {
          assert front[k] == senders[k];
        }
      }
    }
  }

  lemma {:induction false} DebitEdgesMembers(id: string, receivers: seq<string>, e: Edge)
    ensures e in DebitEdges(id, receivers) <==> exists k :: 0 <= k < |receivers| && e == DebitEdge(id, receivers[k])
  {
    if receivers != [] {
      var front := receivers[..|receivers| - 1];
      DebitEdgesMembers(id, front, e);
      if exists k :: 0 <= k < |front| && e == DebitEdge(id, front[k]) {
        var k :| 0 <= k < |front| && e == DebitEdge(id, front[k]);
        assert receivers[k] == front[k];
      }
      if exists k :: 0 <= k < |receivers| && e == DebitEdge(id, receivers[k]) {
        var k :| 0 <= k < |receivers| && e == DebitEdge(id, receivers[k]);
        if k < |front| {
          assert front[k] == receivers[k];
        }
      }
    }
  }

  lemma {:induction false} ShownLinkEdgesFrom(links: seq<SharedLink>, filter: string, e: Edge)
    requires e in ShownLinkEdges(links, filter)
    ensures exists l :: l in links && e == LinkEdge(l) && ShowsLink(filter, l.relation)
    ensures Shown(filter, e.relation)
  {
    var front, l := links[..|links| - 1], links[|links| - 1];
    if e in ShownLinkEdges(front, filter) {
      ShownLinkEdgesFrom(front, filter, e);
      var m :| m in front && e == LinkEdge(m) && ShowsLink(filter, m.relation);
      assert m in links;
    } else {
      assert l in links;
    }
  }
}
