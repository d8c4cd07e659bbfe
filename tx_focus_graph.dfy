/**
 * The transaction panel's graph: the focal transaction as a box, its senders
 * and receivers as dots joined to it by credit and debit arrows, and the
 * shared-attribute links between users, each gated by the panel's filter.
 * One seen-set holds the ids of every node drawn (transaction and users
 * alike), and edges are deduplicated on `${from}|${to}|${label}`.
 */
module TxFocusGraph {
  import opened Records
  import opened Graph
  import DashboardSpec
  import opened TxFocus

  /** The separator of this panel's edge keys. */
  const Bar := "|"

  /** Whether the panel's filter lets edges of relation r through: "all" lets
      everything through, every other filter exactly its own relation. */
  predicate Shown(filter: string, r: Relation)
  {
    || filter == "all"
    || (filter == "credit" && r == Credit)
    || (filter == "debit" && r == Debit)
    || (filter == "email" && r == SharedEmail)
    || (filter == "phone" && r == SharedPhone)
    || (filter == "address" && r == SharedAddress)
    || (filter == "payment" && r == SharedPayment)
  }

  /** The shared-link test: "all", or the filter naming the link's type. A link of
      any other relation is never shown (the panel only makes shared links). */
  predicate ShowsLink(filter: string, r: Relation)
  {
    || filter == "all"
    || (filter == "email" && r == SharedEmail)
    || (filter == "phone" && r == SharedPhone)
    || (filter == "address" && r == SharedAddress)
    || (filter == "payment" && r == SharedPayment)
  }

  function CreditEdge(uid: string, id: string): Edge
  {
    Edge(uid, id, Credit, DashboardSpec.CreditCaption(uid, id))
  }

  function DebitEdge(id: string, uid: string): Edge
  {
    Edge(id, uid, Debit, DashboardSpec.DebitCaption(id, uid))
  }

  /** The dashed edge of a shared link, captioned `${type} · ${val}`. */
  function LinkEdge(l: SharedLink): Edge
  {
    Edge(l.u1, l.u2, l.relation, DashboardSpec.GroupCaption(l.relation, l.val))
  }

  // ---------------- the builder's steps ----------------

  /** The three things the effect does to the arrays: push the focal box,
      `ensureUser`, `addEdge`. */
  datatype FocusOp = FocusBoxOp(id: string, txClass: TxClass) | EnsureUserOp(uid: string) | AddEdgeOp(edge: Edge)

  /** nodesArr, edgesArr, seenNodes and seenEdges. */
  datatype FocusState = FocusState(nodes: seq<Node>, edges: seq<Edge>, seenNodes: set<string>, seenEdges: set<string>)

  const Blank := FocusState([], [], {}, {})

  function Step(s: FocusState, op: FocusOp): FocusState
  {
    match op
    case FocusBoxOp(x, c) =>
      if x in s.seenNodes then s else s.(seenNodes := s.seenNodes + {x}, nodes := s.nodes + [TxNode(x, c)])
    case EnsureUserOp(u) =>
      if u in s.seenNodes then s else s.(seenNodes := s.seenNodes + {u}, nodes := s.nodes + [UserNode(u, CreatedHalfSize)])
    case AddEdgeOp(e) =>
      if EdgeKey(e, Bar) in s.seenEdges then s else s.(seenEdges := s.seenEdges + {EdgeKey(e, Bar)}, edges := s.edges + [e])
  }

  function Replay(s: FocusState, ops: seq<FocusOp>): FocusState
  {
    if ops == [] then s else Step(Replay(s, ops[..|ops| - 1]), ops[|ops| - 1])
  }

  /** One sender: `ensureUser(uid); addEdge(uid, id, ...)`. */
  function CreditOps(senders: seq<string>, id: string): seq<FocusOp>
  {
    if senders == [] then []
    else
      var u := senders[|senders| - 1];
      CreditOps(senders[..|senders| - 1], id) + [EnsureUserOp(u), AddEdgeOp(CreditEdge(u, id))]
  }

  /** One receiver: `ensureUser(uid); addEdge(id, uid, ...)`. */
  function DebitOps(receivers: seq<string>, id: string): seq<FocusOp>
  {
    if receivers == [] then []
    else
      var u := receivers[|receivers| - 1];
      DebitOps(receivers[..|receivers| - 1], id) + [EnsureUserOp(u), AddEdgeOp(DebitEdge(id, u))]
  }

  /** One shared link, when the filter shows its type: both users, then the edge. */
  function LinkOps(links: seq<SharedLink>, filter: string): seq<FocusOp>
  {
    if links == [] then []
    else
      var l := links[|links| - 1];
      LinkOps(links[..|links| - 1], filter) +
        (if ShowsLink(filter, l.relation) then [EnsureUserOp(l.u1), EnsureUserOp(l.u2), AddEdgeOp(LinkEdge(l))] else [])
  }

  /** Everything the effect does, in order. `found` is the transaction search result,
      whose first entry with the focal id gives the box its colour. */
  function FocusOps(id: string, found: seq<Tx>, senders: seq<string>, receivers: seq<string>,
                    links: seq<SharedLink>, filter: string): seq<FocusOp>
  {
    [FocusBoxOp(id, ClassOf(StatusOf(found, id)))]
      + (if Shown(filter, Credit) then CreditOps(senders, id) else [])
      + (if Shown(filter, Debit) then DebitOps(receivers, id) else [])
      + LinkOps(links, filter)
  }

  /** The graph the panel shows. */
  function FocusGraphOf(id: string, found: seq<Tx>, senders: seq<string>, receivers: seq<string>,
                        links: seq<SharedLink>, filter: string): FocusState
  {
    Replay(Blank, FocusOps(id, found, senders, receivers, links, filter))
  }

  // ---------------- the builder ----------------

  class FocusBuilder {
    var nodes: seq<Node>
    var edges: seq<Edge>
    var seenNodes: set<string>
    var seenEdges: set<string>

    function State(): FocusState
      reads this
    {
      FocusState(nodes, edges, seenNodes, seenEdges)
    }

    constructor ()
      ensures State() == Blank
    {
      nodes, edges, seenNodes, seenEdges := [], [], {}, {};
    }

    /** The focal box, pushed unless its id was seen. */
    method AddFocusBox(id: string, c: TxClass)
      modifies this
      ensures State() == Step(old(State()), FocusBoxOp(id, c))
    {
      if id !in seenNodes {
        seenNodes := seenNodes + {id};
        nodes := nodes + [TxNode(id, c)];
      }
    }

    /** `ensureUser`: a dot for a user not seen yet. */
    method EnsureUser(uid: string)
      modifies this
      ensures State() == Step(old(State()), EnsureUserOp(uid))
    {
      if uid !in seenNodes {
        seenNodes := seenNodes + {uid};
        nodes := nodes + [UserNode(uid, CreatedHalfSize)];
      }
    }

    /** `addEdge`: an edge whose key was seen is dropped. */
    method AddEdge(e: Edge)
      modifies this
      ensures State() == Step(old(State()), AddEdgeOp(e))
    {
      var k := e.from + Bar + e.to + Bar + e.caption;
      if k !in seenEdges {
        seenEdges := seenEdges + {k};
        edges := edges + [e];
      }
    }
  }

  lemma ReplayOne(s: FocusState, a: FocusOp)
    ensures Replay(s, [a]) == Step(s, a)
  {
    assert [a][..0] == [];
  }

  lemma ReplaySnoc2(s: FocusState, ops: seq<FocusOp>, a: FocusOp, b: FocusOp)
    ensures Replay(s, ops + [a, b]) == Step(Step(Replay(s, ops), a), b)
  {
    assert (ops + [a, b])[..|ops| + 1] == ops + [a];
    assert (ops + [a])[..|ops|] == ops;
  }

  lemma ReplaySnoc3(s: FocusState, ops: seq<FocusOp>, a: FocusOp, b: FocusOp, c: FocusOp)
    ensures Replay(s, ops + [a, b, c]) == Step(Step(Step(Replay(s, ops), a), b), c)
  {
    assert (ops + [a, b, c])[..|ops| + 2] == ops + [a, b];
    ReplaySnoc2(s, ops, a, b);
  }

  lemma {:induction false} ReplayConcat(s: FocusState, a: seq<FocusOp>, b: seq<FocusOp>)
    ensures Replay(s, a + b) == Replay(Replay(s, a), b)
    decreases |b|
  {
    if b == [] {
      assert a + b == a;
    } else {
      var b0 := b[..|b| - 1];
      ReplayConcat(s, a, b0);
      assert (a + b)[..|a + b| - 1] == a + b0;
    }
  }

  /** `senderIds.forEach(uid => { ensureUser(uid); addEdge(uid, id, ...) })`. */
  method AddCredits(g: FocusBuilder, senders: seq<string>, id: string)
    modifies g
    ensures g.State() == Replay(old(g.State()), CreditOps(senders, id))
  {
    ghost var s0 := g.State();
    for k := 0 to |senders|
      invariant g.State() == Replay(s0, CreditOps(senders[..k], id))
    {
      assert senders[..k + 1][..k] == senders[..k];
      ReplaySnoc2(s0, CreditOps(senders[..k], id), EnsureUserOp(senders[k]), AddEdgeOp(CreditEdge(senders[k], id)));
      g.EnsureUser(senders[k]);
      g.AddEdge(CreditEdge(senders[k], id));
    }
    assert senders[..|senders|] == senders;
  }

  /** `receiverIds.forEach(uid => { ensureUser(uid); addEdge(id, uid, ...) })`. */
  method AddDebits(g: FocusBuilder, receivers: seq<string>, id: string)
    modifies g
    ensures g.State() == Replay(old(g.State()), DebitOps(receivers, id))
  {
    ghost var s0 := g.State();
    for k := 0 to |receivers|
      invariant g.State() == Replay(s0, DebitOps(receivers[..k], id))
    {
      assert receivers[..k + 1][..k] == receivers[..k];
      ReplaySnoc2(s0, DebitOps(receivers[..k], id), EnsureUserOp(receivers[k]), AddEdgeOp(DebitEdge(id, receivers[k])));
      g.EnsureUser(receivers[k]);
      g.AddEdge(DebitEdge(id, receivers[k]));
    }
    assert receivers[..|receivers|] == receivers;
  }

  /** `sharedLinks.forEach(...)`: a link whose type the filter shows gets both users and its edge. */
  method AddLinks(g: FocusBuilder, links: seq<SharedLink>, filter: string)
    modifies g
    ensures g.State() == Replay(old(g.State()), LinkOps(links, filter))
  {
    ghost var s0 := g.State();
    var showAll := filter == "all";
    for k := 0 to |links|
      invariant g.State() == Replay(s0, LinkOps(links[..k], filter))
    {
      var l := links[k];
      assert links[..k + 1][..k] == links[..k];
      var show := showAll || (filter == "email" && l.relation == SharedEmail) || (filter == "phone" && l.relation == SharedPhone)
        || (filter == "address" && l.relation == SharedAddress) || (filter == "payment" && l.relation == SharedPayment);
      if show {
        assert LinkOps(links[..k + 1], filter) == LinkOps(links[..k], filter) + [EnsureUserOp(l.u1), EnsureUserOp(l.u2), AddEdgeOp(LinkEdge(l))];
        ReplaySnoc3(s0, LinkOps(links[..k], filter), EnsureUserOp(l.u1), EnsureUserOp(l.u2), AddEdgeOp(LinkEdge(l)));
        g.EnsureUser(l.u1);
        g.EnsureUser(l.u2);
        g.AddEdge(LinkEdge(l));
      } else {
        assert LinkOps(links[..k + 1], filter) == LinkOps(links[..k], filter) + [] == LinkOps(links[..k], filter);
      }
    }
    assert links[..|links|] == links;
  }

  /** The effect of the panel: the box, then the credit, debit and shared-link loops. */
  method BuildFocusGraph(id: string, found: seq<Tx>, senders: seq<string>, receivers: seq<string>,
                         links: seq<SharedLink>, filter: string)
    returns (nodes: seq<Node>, edges: seq<Edge>)
    ensures nodes == FocusGraphOf(id, found, senders, receivers, links, filter).nodes
    ensures edges == FocusGraphOf(id, found, senders, receivers, links, filter).edges
  {
    var g := new FocusBuilder();
    var box := ClassOf(StatusOf(found, id));
    g.AddFocusBox(id, box);
    ghost var head := [FocusBoxOp(id, box)];
    assert head[..0] == [];
    assert g.State() == Replay(Blank, head);
    ghost var credits := if Shown(filter, Credit) then CreditOps(senders, id) else [];
    ghost var debits := if Shown(filter, Debit) then DebitOps(receivers, id) else [];
    var showAll := filter == "all";
    if showAll || filter == "credit" {
      AddCredits(g, senders, id);
    }
    ReplayConcat(Blank, head, credits);
    if showAll || filter == "debit" {
      AddDebits(g, receivers, id);
    }
    ReplayConcat(Blank, head + credits, debits);
    AddLinks(g, links, filter);
    ReplayConcat(Blank, head + credits + debits, LinkOps(links, filter));
    nodes, edges := g.nodes, g.edges;
  }
}
