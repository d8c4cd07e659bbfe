/**
 * The dashboard's graph assembler (`buildGraphNodes`): a builder whose node list,
 * edge list, seen-sets and degree table grow step by step.
 */
module DashboardGraph {
  import opened Records
  import opened Pairs
  import opened AttributeIndex
  import opened Filters
  import opened Graph
  import opened DashboardSpec
  import opened DashboardNodes

  /** Running one more row of a shared group after the rows before it. */
  lemma SharedRowsStep(s0: BuildState, ids: seq<string>, i: nat, r: Relation, caption: string)
    requires i < |ids|
    ensures Run(s0, SharedRowsOps(ids, i + 1, r, caption))
      == Run(Run(s0, SharedRowsOps(ids, i, r, caption)), SharedRowOps(ids, i, |ids|, r, caption))
  {
    RunConcat(s0, SharedRowsOps(ids, i, r, caption), SharedRowOps(ids, i, |ids|, r, caption));
  }

  lemma SharedGroupOps(ids: seq<string>, r: Relation, val: string, txs: seq<Tx>)
    requires IsShared(r) && |ids| >= 2
    ensures GroupOps(ids, r, val, txs) == SharedRowsOps(ids, |ids|, r, GroupCaption(r, val))
  {
  }

  /** Running one more row of an IP or device group after the rows before it. */
  lemma ContextRowsStep(s0: BuildState, ids: seq<string>, i: nat, cap: nat, r: Relation, caption: string, txs: seq<Tx>)
    requires i < cap <= |ids|
    ensures Run(s0, ContextRowsOps(ids, i + 1, cap, r, caption, txs))
      == Run(Run(s0, ContextRowsOps(ids, i, cap, r, caption, txs)), [LookedUp(txs, ids[i])] + ContextRowOps(ids, i, cap, r, caption, txs))
  {
    var rows := ContextRowsOps(ids, i, cap, r, caption, txs);
    var row := [LookedUp(txs, ids[i])] + ContextRowOps(ids, i, cap, r, caption, txs);
    RunConcat(s0, rows, row);
    assert rows + row == ContextRowsOps(ids, i + 1, cap, r, caption, txs);
  }

  lemma ContextGroupOps(ids: seq<string>, r: Relation, val: string, txs: seq<Tx>)
    requires IsContext(r) && |ids| >= 2
    ensures GroupOps(ids, r, val, txs)
      == ContextRowsOps(ids, Min(|ids|, ContextCap), Min(|ids|, ContextCap), r, GroupCaption(r, val), txs)
  {
  }

  class GraphBuilder {
    var nodes: seq<Node>
    var edges: seq<Edge>
    var seenUsers: set<string>
    var seenTxs: set<string>
    var seenEdges: set<string>
    var userDegree: map<string, nat>

    /** The builder's fields as one value. */
    function State(): BuildState
      reads this
    {
      BuildState(nodes, edges, seenUsers, seenTxs, seenEdges, userDegree)
    }

    /** Every edge drawn so far joins nodes drawn so far. */
    ghost predicate Valid()
      reads this
    {
      Closed(State())
    }

    constructor ()
      ensures Valid() && State() == Init
    {
      nodes, edges := [], [];
      seenUsers, seenTxs, seenEdges := {}, {}, {};
      userDegree := map[];
    }

    method BumpDegree(x: string)
      modifies this`userDegree
      ensures userDegree == Bump(old(userDegree), x)
    {
      userDegree := userDegree[x := DegreeOf(userDegree, x) + 1];
    }

    /** `addEdge`: an edge whose key was seen is dropped; otherwise both ends' degrees
        go up and the edge is appended. */
    method AddEdge(from: string, to: string, r: Relation, caption: string)
      requires Valid() && EndpointsIn(Edge(from, to, r, caption), seenUsers, seenTxs)
      modifies this
      ensures Valid()
      ensures State() == Apply(old(State()), AddEdgeOp(Edge(from, to, r, caption)))
    {
      ApplyKeepsClosed(State(), AddEdgeOp(Edge(from, to, r, caption)));
      var key := from + Sep + to + Sep + caption;
      assert key == EdgeKey(Edge(from, to, r, caption), Sep);
      if key in seenEdges {
        return;
      }
      seenEdges := seenEdges + {key};
      BumpDegree(from);
      BumpDegree(to);
      edges := edges + [Edge(from, to, r, caption)];
    }

    /** `ensureUser`: a user id not seen yet becomes a dot of the initial size. */
    method EnsureUser(uid: string)
      requires Valid()
      modifies this
      ensures Valid() && uid in seenUsers && old(seenUsers) <= seenUsers && seenTxs == old(seenTxs)
      ensures State() == Apply(old(State()), EnsureUserOp(uid))
    {
      ApplyKeepsClosed(State(), EnsureUserOp(uid));
      if uid !in seenUsers {
        seenUsers := seenUsers + {uid};
        nodes := nodes + [UserNode(uid, CreatedHalfSize)];
      }
    }

    /** A transaction id not seen yet becomes a box of the given colour class. */
    method EnsureTx(id: string, c: TxClass)
      requires Valid()
      modifies this
      ensures Valid() && id in seenTxs && old(seenTxs) <= seenTxs && seenUsers == old(seenUsers)
      ensures State() == Apply(old(State()), EnsureTxOp(id, c))
    {
      ApplyKeepsClosed(State(), EnsureTxOp(id, c));
      if id !in seenTxs {
        seenTxs := seenTxs + {id};
        nodes := nodes + [TxNode(id, c)];
      }
    }

    /** One transaction: its users and its box, then its credit and debit edges. */
    method AddTransaction(tx: Tx, f: FilterConfig)
      requires Valid()
      modifies this
      ensures Valid()
      ensures State() == Run(old(State()), TxOps(tx, f))
    {
      AddTxNodes(tx, f);
      AddTxEdges(tx, f);
      RunConcat(old(State()), TxNodeOps(tx, f), TxEdgeOps(tx, f));
    }

    /** The sender and receiver dots (when users are shown), then the box. */
    method AddTxNodes(tx: Tx, f: FilterConfig)
      requires Valid()
      modifies this
      ensures Valid()
      ensures f.users ==> tx.senderId in seenUsers && tx.receiverId in seenUsers
      ensures f.txs ==> tx.id in seenTxs
      ensures State() == Run(old(State()), TxNodeOps(tx, f))
    {
      ghost var u := if f.users then [EnsureUserOp(tx.senderId), EnsureUserOp(tx.receiverId)] else [];
      ghost var t := if f.txs then [EnsureTxOp(tx.id, ClassOf(tx.status))] else [];
      if f.users {
        EnsureUser(tx.senderId);
        EnsureUser(tx.receiverId);
        RunTwo(old(State()), EnsureUserOp(tx.senderId), EnsureUserOp(tx.receiverId));
      }
      ghost var s1 := State();
      if f.txs {
        EnsureTx(tx.id, ClassOf(tx.status));
        RunOne(s1, EnsureTxOp(tx.id, ClassOf(tx.status)));
      }
      RunConcat(old(State()), u, t);
    }

    /** The credit and debit edges of one transaction, once its nodes are in. */
    method AddTxEdges(tx: Tx, f: FilterConfig)
      requires Valid()
      requires f.users ==> tx.senderId in seenUsers && tx.receiverId in seenUsers
      requires f.txs ==> tx.id in seenTxs
      modifies this
      ensures Valid()
      ensures State() == Run(old(State()), TxEdgeOps(tx, f))
    {
      var credit := Edge(tx.senderId, tx.id, Credit, CreditCaption(tx.senderId, tx.id));
      var debit := Edge(tx.id, tx.receiverId, Debit, DebitCaption(tx.id, tx.receiverId));
      if f.credit && f.users && f.txs {
        AddEdge(credit.from, credit.to, credit.relation, credit.caption);
        RunOne(old(State()), AddEdgeOp(credit));
      }
      ghost var s1 := State();
      ghost var c := if f.credit && f.users && f.txs then [AddEdgeOp(credit)] else [];
      ghost var d := if f.debit && f.users && f.txs then [AddEdgeOp(debit)] else [];
      if f.debit && f.users && f.txs {
        AddEdge(debit.from, debit.to, debit.relation, debit.caption);
        RunOne(s1, AddEdgeOp(debit));
      }
      RunConcat(old(State()), c, d);
    }

    /** Step 1: every transaction in order. */
    method AddTransactions(txs: seq<Tx>, f: FilterConfig)
      requires Valid()
      modifies this
      ensures Valid()
      ensures State() == Run(old(State()), TxsOps(txs, f))
    {
      for i := 0 to |txs|
        invariant Valid()
        invariant State() == Run(old(State()), TxsOps(txs[..i], f))
      {
        assert txs[..i + 1][..i] == txs[..i];
        AddTransaction(txs[i], f);
        RunConcat(old(State()), TxsOps(txs[..i], f), TxOps(txs[i], f));
      }
      assert txs[..|txs|] == txs;
    }

    /** One pair of a shared-attribute group: both users, then the edge. */
    method AddSharedPair(ids: seq<string>, i: nat, j: nat, r: Relation, caption: string)
      requires Valid() && IsShared(r) && i < |ids| && j < |ids|
      modifies this
      ensures Valid()
      ensures State() == Run(old(State()), [EnsureUserOp(ids[i]), EnsureUserOp(ids[j]), AddEdgeOp(Edge(ids[i], ids[j], r, caption))])
    {
      EnsureUser(ids[i]);
      EnsureUser(ids[j]);
      AddEdge(ids[i], ids[j], r, caption);
      RunThree(old(State()), EnsureUserOp(ids[i]), EnsureUserOp(ids[j]), AddEdgeOp(Edge(ids[i], ids[j], r, caption)));
    }

    /** The inner loop of row i of a shared-attribute group: ids[i] paired with every later id. */
    method AddSharedRow(ids: seq<string>, i: nat, r: Relation, caption: string)
      requires Valid() && IsShared(r) && i < |ids|
      modifies this
      ensures Valid()
      ensures State() == Run(old(State()), SharedRowOps(ids, i, |ids|, r, caption))
    {
      ghost var done: seq<Op> := [];
      for j := i + 1 to |ids|
        invariant Valid()
        invariant done == SharedRowOps(ids, i, j, r, caption)
        invariant State() == Run(old(State()), done)
      {
        AddSharedPair(ids, i, j, r, caption);
        ghost var step := [EnsureUserOp(ids[i]), EnsureUserOp(ids[j]), AddEdgeOp(Edge(ids[i], ids[j], r, caption))];
        RunConcat(old(State()), done, step);
        done := done + step;
      }
    }

    /** One group of a shared user attribute: every pair of its ids, earlier to later. */
    method AddSharedGroup(ids: seq<string>, r: Relation, val: string, ghost txs: seq<Tx>)
      requires Valid() && IsShared(r)
      modifies this
      ensures Valid()
      ensures State() == Run(old(State()), GroupOps(ids, r, val, txs))
    {
      if |ids| < 2 {
        return;
      }
      AddSharedRows(ids, r, GroupCaption(r, val));
      SharedGroupOps(ids, r, val, txs);
    }

    /** The two loops over a shared group's ids. */
    method AddSharedRows(ids: seq<string>, r: Relation, caption: string)
      requires Valid() && IsShared(r)
      modifies this
      ensures Valid()
      ensures State() == Run(old(State()), SharedRowsOps(ids, |ids|, r, caption))
    {
      ghost var s0 := State();
      for i := 0 to |ids|
        invariant Valid()
        invariant State() == Run(s0, SharedRowsOps(ids, i, r, caption))
      {
        AddSharedRow(ids, i, r, caption);
        SharedRowsStep(s0, ids, i, r, caption);
      }
    }

    /** One pair of an IP or device group: the later id's box, then the edge. */
    method AddContextPair(ids: seq<string>, i: nat, j: nat, r: Relation, caption: string, txs: seq<Tx>)
      requires Valid() && IsContext(r) && i < |ids| && j < |ids| && ids[i] in seenTxs
      modifies this
      ensures Valid() && ids[i] in seenTxs
      ensures State() == Run(old(State()), [LookedUp(txs, ids[j]), AddEdgeOp(Edge(ids[i], ids[j], r, caption))])
    {
      EnsureTx(ids[j], ClassOf(StatusOf(txs, ids[j])));
      AddEdge(ids[i], ids[j], r, caption);
      RunTwo(old(State()), LookedUp(txs, ids[j]), AddEdgeOp(Edge(ids[i], ids[j], r, caption)));
    }

    /** Row i of an IP or device group: the box of ids[i], then its pairs with the
        later ids among the first `cap`. */
    method AddContextRow(ids: seq<string>, i: nat, cap: nat, r: Relation, caption: string, txs: seq<Tx>)
      requires Valid() && IsContext(r) && i < cap <= |ids|
      modifies this
      ensures Valid()
      ensures State() == Run(old(State()), [LookedUp(txs, ids[i])] + ContextRowOps(ids, i, cap, r, caption, txs))
    {
      EnsureTx(ids[i], ClassOf(StatusOf(txs, ids[i])));
      RunOne(old(State()), LookedUp(txs, ids[i]));
      ghost var done := [LookedUp(txs, ids[i])];
      for j := i + 1 to cap
        invariant Valid() && ids[i] in seenTxs
        invariant done == [LookedUp(txs, ids[i])] + ContextRowOps(ids, i, j, r, caption, txs)
        invariant State() == Run(old(State()), done)
      {
        AddContextPair(ids, i, j, r, caption, txs);
        ghost var step := [LookedUp(txs, ids[j]), AddEdgeOp(Edge(ids[i], ids[j], r, caption))];
        RunConcat(old(State()), done, step);
        done := done + step;
      }
    }

    /** One IP or device group: the boxes of its first eight ids and every pair among them. */
    method AddContextGroup(ids: seq<string>, r: Relation, val: string, txs: seq<Tx>)
      requires Valid() && IsContext(r)
      modifies this
      ensures Valid()
      ensures State() == Run(old(State()), GroupOps(ids, r, val, txs))
    {
      if |ids| < 2 {
        return;
      }
      var cap := Min(|ids|, ContextCap);
      var caption := GroupCaption(r, val);
      ghost var s0 := State();
      for i := 0 to cap
        invariant Valid()
        invariant State() == Run(s0, ContextRowsOps(ids, i, cap, r, caption, txs))
      {
        AddContextRow(ids, i, cap, r, caption, txs);
        ContextRowsStep(s0, ids, i, cap, r, caption, txs);
      }
      ContextGroupOps(ids, r, val, txs);
    }

    /** One attribute map, entry by entry in insertion order. */
    method AddIndex(idx: Index, r: Relation, txs: seq<Tx>)
      requires Valid() && (IsShared(r) || IsContext(r)) && WellFormed(idx)
      modifies this
      ensures Valid()
      ensures State() == Run(old(State()), IndexOps(idx, r, txs, |idx.keys|))
    {
      for t := 0 to |idx.keys|
        invariant Valid()
        invariant State() == Run(old(State()), IndexOps(idx, r, txs, t))
      {
        var val := idx.keys[t];
        ghost var before := IndexOps(idx, r, txs, t);
        if IsShared(r) {
          AddSharedGroup(idx.groups[val], r, val, txs);
        } else {
          AddContextGroup(idx.groups[val], r, val, txs);
        }
        RunConcat(old(State()), before, GroupOps(idx.groups[val], r, val, txs));
      }
    }

    /** One section: a map whose flag is on. */
    method AddSection(idx: Index, r: Relation, on: bool, txs: seq<Tx>)
      requires Valid() && (IsShared(r) || IsContext(r)) && WellFormed(idx)
      modifies this
      ensures Valid()
      ensures State() == Run(old(State()), SectionOps(idx, r, on, txs))
    {
      if on {
        AddIndex(idx, r, txs);
      }
    }

    /** Shared email, phone, address and payment, when users are shown. */
    method AddUserSections(ix: Indices, f: FilterConfig, txs: seq<Tx>)
      requires Valid() && IndicesWellFormed(ix)
      modifies this
      ensures Valid()
      ensures State() == Run(old(State()), UserSectionOps(ix, f, txs))
    {
      if !f.users {
        return;
      }
      var s0 := SectionOps(ix.email, SharedEmail, f.email, txs);
      var s1 := SectionOps(ix.phone, SharedPhone, f.phone, txs);
      var s2 := SectionOps(ix.address, SharedAddress, f.address, txs);
      var s3 := SectionOps(ix.payment, SharedPayment, f.payment, txs);
      AddSection(ix.email, SharedEmail, f.email, txs);
      AddSection(ix.phone, SharedPhone, f.phone, txs);
      RunConcat(old(State()), s0, s1);
      AddSection(ix.address, SharedAddress, f.address, txs);
      RunConcat(old(State()), s0 + s1, s2);
      AddSection(ix.payment, SharedPayment, f.payment, txs);
      RunConcat(old(State()), s0 + s1 + s2, s3);
    }

    /** Same IP, then same device, when transactions are shown. */
    method AddContextSections(ix: Indices, f: FilterConfig, txs: seq<Tx>)
      requires Valid() && IndicesWellFormed(ix)
      modifies this
      ensures Valid()
      ensures State() == Run(old(State()), ContextSectionOps(ix, f, txs))
    {
      if !f.txs {
        return;
      }
      AddSection(ix.ip, SameIp, f.ip, txs);
      AddSection(ix.device, SameDevice, f.device, txs);
      RunConcat(old(State()), SectionOps(ix.ip, SameIp, f.ip, txs), SectionOps(ix.device, SameDevice, f.device, txs));
    }

    /** The final pass: every dot takes the size its degree gives; boxes keep theirs. */
    method ScaleUserSizes()
      modifies this`nodes
      ensures nodes == Resized(old(nodes), userDegree)
    {
      for i := 0 to |nodes|
        invariant |nodes| == |old(nodes)|
        invariant forall k :: 0 <= k < i ==> nodes[k] == ResizedNode(old(nodes)[k], userDegree)
        invariant forall k :: i <= k < |nodes| ==> nodes[k] == old(nodes)[k]
      {
        var n := nodes[i];
        if n.UserNode? {
          nodes := nodes[i := UserNode(n.id, HalfSize(DegreeOf(userDegree, n.id)))];
        }
      }
    }
  }

  /** A dot resized from the degree table. */
  function ResizedNode(n: Node, degree: map<string, nat>): Node
  {
    if n.UserNode? then UserNode(n.id, HalfSize(DegreeOf(degree, n.id))) else n
  }

  function Resized(ns: seq<Node>, degree: map<string, nat>): (r: seq<Node>)
    ensures |r| == |ns| && forall k :: 0 <= k < |ns| ==> r[k] == ResizedNode(ns[k], degree)
  {
    seq(|ns|, k requires 0 <= k < |ns| => ResizedNode(ns[k], degree))
  }

  /** `buildGraphNodes`: the drawn edges are the `addEdge` calls with repeated keys
      dropped, the drawn nodes are the insertions with repeated ids dropped, each dot
      sized by how many drawn edges touch it, and every edge joins drawn nodes. */
  method BuildGraphNodes(txs: seq<Tx>, ix: Indices, f: FilterConfig) returns (nodes: seq<Node>, edges: seq<Edge>)
    requires IndicesWellFormed(ix)
    ensures edges == DedupEdges(EdgesOf(BuildOps(txs, ix, f)), Sep)
    ensures nodes == Sized(DedupNodes(BuildOps(txs, ix, f)), edges)
    ensures NodesUnique(nodes)
    ensures forall e :: e in edges ==> EndpointsIn(e, UserIds(nodes), TxIds(nodes))
  {
    var b := new GraphBuilder();
    b.AddTransactions(txs, f);
    b.AddUserSections(ix, f, txs);
    RunConcat(Init, TxsOps(txs, f), UserSectionOps(ix, f, txs));
    b.AddContextSections(ix, f, txs);
    RunConcat(Init, TxsOps(txs, f) + UserSectionOps(ix, f, txs), ContextSectionOps(ix, f, txs));
    ghost var ops := BuildOps(txs, ix, f);
    RunNodes(ops);
    RunEdges(ops);
    RunDegree(ops);
    b.ScaleUserSizes();
    nodes, edges := b.nodes, b.edges;
    forall k | 0 <= k < |nodes|
      ensures nodes[k] == SizedNode(DedupNodes(ops)[k], edges)
    {
      if nodes[k].UserNode? {
        DegreeTableCounts(edges, nodes[k].id);
      }
    }
    DedupNodesSeen(ops);
    DedupNodesUnique(ops);
    SizedKeepsIds(DedupNodes(ops), edges);
  }
}
