/**
 * Reference definitions for the dashboard graph: the sequence of node and edge
 * insertions `buildGraphNodes` attempts, in its fixed order, and what
 * deduplication and degree sizing make of them.
 */
module DashboardSpec {
  import opened Records
  import opened Pairs
  import opened AttributeIndex
  import opened Filters
  import opened Graph

  /** The separator of the dashboard's edge key `${from}||${to}||${label}`. */
  const Sep: string := "||"

  /** How many ids of one IP or device group take part in pairing. */
  const ContextCap: nat := 8

  /** The six attribute maps handed to the assembler. */
  datatype Indices = Indices(email: Index, phone: Index, address: Index, payment: Index, ip: Index, device: Index)

  ghost predicate IndicesWellFormed(ix: Indices)
  {
    WellFormed(ix.email) && WellFormed(ix.phone) && WellFormed(ix.address) &&
    WellFormed(ix.payment) && WellFormed(ix.ip) && WellFormed(ix.device)
  }

  /** One step of the assembler: `ensureUser`, the insertion of a transaction box
      (skipped when its id was seen), or `addEdge`. */
  datatype Op = EnsureUserOp(uid: string) | EnsureTxOp(txId: string, txClass: TxClass) | AddEdgeOp(edge: Edge)

  function Min(a: nat, b: nat): nat { if a <= b then a else b }

  // ---------------- captions ----------------

  /** The caption text of each pairwise relation. */
  function RelationText(r: Relation): string
  {
    match r
    case Credit => "CREDIT"
    case Debit => "DEBIT"
    case SharedEmail => "SHARED EMAIL"
    case SharedPhone => "SHARED PHONE"
    case SharedAddress => "SHARED ADDRESS"
    case SharedPayment => "SHARED PAYMENT"
    case SameIp => "SAME IP"
    case SameDevice => "SAME DEVICE"
  }

  /** What every caption of relation r starts with: its text, then " — " for credit
      and debit, " · " for the attribute relations. */
  function CaptionHead(r: Relation): string
  {
    RelationText(r) + (if r.Credit? || r.Debit? then " \U{2014} " else " \U{00B7} ")
  }

  /** `CREDIT — ${sid} → ${txId}` */
  function CreditCaption(sid: string, txId: string): string
  {
    CaptionHead(Credit) + sid + " \U{2192} " + txId
  }

  /** `DEBIT — ${txId} → ${rid}` */
  function DebitCaption(txId: string, rid: string): string
  {
    CaptionHead(Debit) + txId + " \U{2192} " + rid
  }

  /** `${label} · ${val}`: the shared value is part of the caption, hence of the key. */
  function GroupCaption(r: Relation, val: string): string
  {
    CaptionHead(r) + val
  }

  /** Reads the relation back from the first letters of a caption. */
  function RelationOfCaption(c: string): Option<Relation>
  {
    if |c| < 8 then None
    else if c[0] == 'C' then Some(Credit)
    else if c[0] == 'D' then Some(Debit)
    else if |c| < 9 then None
    else if c[1] == 'H' then
      (if c[7] == 'E' then Some(SharedEmail) else if c[7] == 'A' then Some(SharedAddress)
       else if c[8] == 'H' then Some(SharedPhone) else Some(SharedPayment))
    else if c[5] == 'I' then Some(SameIp) else Some(SameDevice)
  }

  /** A caption names its relation: whatever follows the head, the relation can be
      read back, so captions of different relations never coincide. */
  lemma CaptionNamesRelation(r: Relation, x: string)
    ensures RelationOfCaption(CaptionHead(r) + x) == Some(r)
  {
    var h := CaptionHead(r);
    var c := h + x;
    assert |h| >= 8 && c[0] == h[0] && c[1] == h[1] && c[5] == h[5] && c[7] == h[7];
    assert |h| >= 9 ==> c[8] == h[8];
    match r
    case Credit =>
    case Debit =>
    case SharedEmail =>
    case SharedPhone =>
    case SharedAddress =>
    case SharedPayment =>
    case SameIp =>
    case SameDevice =>
  }

  predicate IsShared(r: Relation)
  {
    r.SharedEmail? || r.SharedPhone? || r.SharedAddress? || r.SharedPayment?
  }

  predicate IsContext(r: Relation)
  {
    r.SameIp? || r.SameDevice?
  }

  /** How many leading ids of a group of n take part in pairing: all of them for a
      shared user attribute, at most eight for an IP or device. */
  function CapFor(r: Relation, n: nat): nat
  {
    if IsContext(r) then Min(n, ContextCap) else n
  }

  // ---------------- step 1: transactions ----------------

  /** The nodes ensured for one transaction: its two users, then its box. */
  function TxNodeOps(tx: Tx, f: FilterConfig): seq<Op>
  {
    (if f.users then [EnsureUserOp(tx.senderId), EnsureUserOp(tx.receiverId)] else []) +
    (if f.txs then [EnsureTxOp(tx.id, ClassOf(tx.status))] else [])
  }

  /** The credit edge sender -> transaction and the debit edge transaction -> receiver,
      each only when its flag, users and transactions are all on. */
  function TxEdgeOps(tx: Tx, f: FilterConfig): seq<Op>
  {
    (if f.credit && f.users && f.txs then [AddEdgeOp(CreditEdge(tx))] else []) +
    (if f.debit && f.users && f.txs then [AddEdgeOp(DebitEdge(tx))] else [])
  }

  function CreditEdge(tx: Tx): Edge
  {
    Edge(tx.senderId, tx.id, Credit, CreditCaption(tx.senderId, tx.id))
  }

  function DebitEdge(tx: Tx): Edge
  {
    Edge(tx.id, tx.receiverId, Debit, DebitCaption(tx.id, tx.receiverId))
  }

  /** The steps taken for one transaction. */
  function TxOps(tx: Tx, f: FilterConfig): seq<Op>
  {
    TxNodeOps(tx, f) + TxEdgeOps(tx, f)
  }

  function TxsOps(txs: seq<Tx>, f: FilterConfig): seq<Op>
  {
    if txs == [] then [] else TxsOps(txs[..|txs| - 1], f) + TxOps(txs[|txs| - 1], f)
  }

  // ---------------- pairs of one group ----------------

  /** Shared user attribute, inner loop of row i stopped before j: for every later id
      ids[k], `ensureUser(ids[i]); ensureUser(ids[k]); addEdge(ids[i], ids[k], ...)`. */
  function SharedRowOps(ids: seq<string>, i: nat, j: nat, r: Relation, caption: string): seq<Op>
    requires i < j <= |ids|
  {
    if j == i + 1 then []
    else
      SharedRowOps(ids, i, j - 1, r, caption) +
      [EnsureUserOp(ids[i]), EnsureUserOp(ids[j - 1]), AddEdgeOp(Edge(ids[i], ids[j - 1], r, caption))]
  }

  /** Shared user attribute, the first i rows of the outer loop. */
  function SharedRowsOps(ids: seq<string>, i: nat, r: Relation, caption: string): seq<Op>
    requires i <= |ids|
  {
    if i == 0 then [] else SharedRowsOps(ids, i - 1, r, caption) + SharedRowOps(ids, i - 1, |ids|, r, caption)
  }

  /** The box for an id met in an IP or device group, coloured after the first
      transaction with that id (clear when there is none). */
  function LookedUp(txs: seq<Tx>, id: string): Op
  {
    EnsureTxOp(id, ClassOf(StatusOf(txs, id)))
  }

  /** IP or device, inner loop of row i stopped before j: for every later id ids[k],
      its box, then the edge ids[i] -> ids[k]. */
  function ContextRowOps(ids: seq<string>, i: nat, j: nat, r: Relation, caption: string, txs: seq<Tx>): seq<Op>
    requires i < j <= |ids|
  {
    if j == i + 1 then []
    else
      ContextRowOps(ids, i, j - 1, r, caption, txs) +
      [LookedUp(txs, ids[j - 1]), AddEdgeOp(Edge(ids[i], ids[j - 1], r, caption))]
  }

  /** IP or device, the first i rows of the outer loop over the first m ids: each row
      inserts the box of ids[i], then runs its inner loop. */
  function ContextRowsOps(ids: seq<string>, i: nat, m: nat, r: Relation, caption: string, txs: seq<Tx>): seq<Op>
    requires i <= m <= |ids|
  {
    if i == 0 then []
    else
      ContextRowsOps(ids, i - 1, m, r, caption, txs) + [LookedUp(txs, ids[i - 1])] +
      ContextRowOps(ids, i - 1, m, r, caption, txs)
  }

  /** The steps for one entry (value -> ids) of an attribute map; fewer than two ids add nothing. */
  function GroupOps(ids: seq<string>, r: Relation, val: string, txs: seq<Tx>): seq<Op>
  {
    if |ids| < 2 then []
    else if IsContext(r) then
      ContextRowsOps(ids, Min(|ids|, ContextCap), Min(|ids|, ContextCap), r, GroupCaption(r, val), txs)
    else SharedRowsOps(ids, |ids|, r, GroupCaption(r, val))
  }

  // ---------------- one map, in Object.entries order ----------------

  /** The steps for the first t entries of a map. */
  function IndexOps(idx: Index, r: Relation, txs: seq<Tx>, t: nat): seq<Op>
    requires WellFormed(idx) && t <= |idx.keys|
  {
    if t == 0 then []
    else IndexOps(idx, r, txs, t - 1) + GroupOps(idx.groups[idx.keys[t - 1]], r, idx.keys[t - 1], txs)
  }

  /** One relation section: nothing when its flag is off. */
  function SectionOps(idx: Index, r: Relation, on: bool, txs: seq<Tx>): seq<Op>
    requires WellFormed(idx)
  {
    if on then IndexOps(idx, r, txs, |idx.keys|) else []
  }

  // ---------------- the whole build ----------------

  /** The four shared user attributes, in order, when users are shown. */
  function UserSectionOps(ix: Indices, f: FilterConfig, txs: seq<Tx>): seq<Op>
    requires IndicesWellFormed(ix)
  {
    if f.users then
      SectionOps(ix.email, SharedEmail, f.email, txs) + SectionOps(ix.phone, SharedPhone, f.phone, txs) +
      SectionOps(ix.address, SharedAddress, f.address, txs) + SectionOps(ix.payment, SharedPayment, f.payment, txs)
    else []
  }

  /** Same IP, then same device, when transactions are shown. */
  function ContextSectionOps(ix: Indices, f: FilterConfig, txs: seq<Tx>): seq<Op>
    requires IndicesWellFormed(ix)
  {
    if f.txs then SectionOps(ix.ip, SameIp, f.ip, txs) + SectionOps(ix.device, SameDevice, f.device, txs) else []
  }

  /** Every step of `buildGraphNodes`, in order. */
  function BuildOps(txs: seq<Tx>, ix: Indices, f: FilterConfig): seq<Op>
    requires IndicesWellFormed(ix)
  {
    TxsOps(txs, f) + UserSectionOps(ix, f, txs) + ContextSectionOps(ix, f, txs)
  }

  /** The `addEdge` calls among the steps. */
  function EdgesOf(ops: seq<Op>): seq<Edge>
  {
    if ops == [] then []
    else EdgesOf(ops[..|ops| - 1]) + (if ops[|ops| - 1].AddEdgeOp? then [ops[|ops| - 1].edge] else [])
  }

  // ---------------- node deduplication ----------------

  /** The user ids ensured so far: the content of `seenUsers`. */
  function SeenUsers(t: seq<Op>): set<string>
  {
    if t == [] then {}
    else SeenUsers(t[..|t| - 1]) + (if t[|t| - 1].EnsureUserOp? then {t[|t| - 1].uid} else {})
  }

  /** The transaction ids inserted so far: the content of `seenTxs`. */
  function SeenTxs(t: seq<Op>): set<string>
  {
    if t == [] then {}
    else SeenTxs(t[..|t| - 1]) + (if t[|t| - 1].EnsureTxOp? then {t[|t| - 1].txId} else {})
  }

  /** The nodes actually pushed: a user id or a transaction id already seen is skipped. */
  function DedupNodes(t: seq<Op>): seq<Node>
  {
    if t == [] then []
    else
      var front := t[..|t| - 1];
      match t[|t| - 1]
      case EnsureUserOp(u) =>
        if u in SeenUsers(front) then DedupNodes(front) else DedupNodes(front) + [UserNode(u, CreatedHalfSize)]
      case EnsureTxOp(x, cl) =>
        if x in SeenTxs(front) then DedupNodes(front) else DedupNodes(front) + [TxNode(x, cl)]
      case AddEdgeOp(_) => DedupNodes(front)
  }

  // ---------------- degree and size ----------------

  /** How many of the edges touch x, an edge from x to x counting twice. */
  function Touches(es: seq<Edge>, x: string): nat
  {
    if es == [] then 0
    else
      var e := es[|es| - 1];
      Touches(es[..|es| - 1], x) + (if e.from == x then 1 else 0) + (if e.to == x then 1 else 0)
  }

  /** The degree table's entry for x, 0 when absent (`userDegree[x] || 0`). */
  function DegreeOf(degree: map<string, nat>, x: string): nat
  {
    if x in degree then degree[x] else 0
  }

  /** `bumpDegree(x)`. */
  function Bump(degree: map<string, nat>, x: string): (d: map<string, nat>)
    ensures DegreeOf(d, x) == DegreeOf(degree, x) + 1
    ensures forall y :: y != x ==> DegreeOf(d, y) == DegreeOf(degree, y)
  {
    degree[x := DegreeOf(degree, x) + 1]
  }

  /** The table obtained by bumping both ends of every edge, in order. */
  function DegreeTable(es: seq<Edge>): map<string, nat>
  {
    if es == [] then map[]
    else Bump(Bump(DegreeTable(es[..|es| - 1]), es[|es| - 1].from), es[|es| - 1].to)
  }

  // ---------------- the assembler's state, step by step ----------------

  /** The assembler's local state: node and edge arrays, the seen-sets and the degree table. */
  datatype BuildState = BuildState(
    nodes: seq<Node>, edges: seq<Edge>,
    seenUsers: set<string>, seenTxs: set<string>, seenEdges: set<string>,
    degree: map<string, nat>)

  const Init := BuildState([], [], {}, {}, {}, map[])

  /** The effect of one step. */
  function Apply(s: BuildState, op: Op): BuildState
  {
    match op
    case EnsureUserOp(u) =>
      if u in s.seenUsers then s
      else s.(seenUsers := s.seenUsers + {u}, nodes := s.nodes + [UserNode(u, CreatedHalfSize)])
    case EnsureTxOp(x, c) =>
      if x in s.seenTxs then s
      else s.(seenTxs := s.seenTxs + {x}, nodes := s.nodes + [TxNode(x, c)])
    case AddEdgeOp(e) =>
      if EdgeKey(e, Sep) in s.seenEdges then s
      else s.(seenEdges := s.seenEdges + {EdgeKey(e, Sep)}, degree := Bump(Bump(s.degree, e.from), e.to),
              edges := s.edges + [e])
  }

  /** The state after a sequence of steps. */
  function Run(s: BuildState, ops: seq<Op>): BuildState
  {
    if ops == [] then s else Apply(Run(s, ops[..|ops| - 1]), ops[|ops| - 1])
  }

  /** Running the steps from the empty state keeps the first node per id, and the
      seen-sets hold exactly the ids met. */
  lemma {:induction false} RunNodes(ops: seq<Op>)
    ensures Run(Init, ops).nodes == DedupNodes(ops)
    ensures Run(Init, ops).seenUsers == SeenUsers(ops)
    ensures Run(Init, ops).seenTxs == SeenTxs(ops)
  {
    if ops != [] {
      RunNodes(ops[..|ops| - 1]);
    }
  }

  /** Running the steps from the empty state keeps the first edge per key, and the
      key set holds exactly the keys met. */
  lemma {:induction false} RunEdges(ops: seq<Op>)
    ensures Run(Init, ops).edges == DedupEdges(EdgesOf(ops), Sep)
    ensures Run(Init, ops).seenEdges == KeysOf(EdgesOf(ops), Sep)
  {
    if ops != [] {
      var front, op := ops[..|ops| - 1], ops[|ops| - 1];
      RunEdges(front);
      if op.AddEdgeOp? {
        var es := EdgesOf(front);
        assert EdgesOf(ops) == es + [op.edge];
        assert (es + [op.edge])[..|es|] == es;
      } else {
        assert EdgesOf(ops) == EdgesOf(front);
      }
    }
  }

  /** The degree table is always the one of the edges kept so far. */
  lemma {:induction false} RunDegree(ops: seq<Op>)
    ensures Run(Init, ops).degree == DegreeTable(Run(Init, ops).edges)
  {
    if ops != [] {
      var front, op := ops[..|ops| - 1], ops[|ops| - 1];
      RunDegree(front);
      var s := Run(Init, front);
      if op.AddEdgeOp? && EdgeKey(op.edge, Sep) !in s.seenEdges {
        var ke := s.edges + [op.edge];
        assert ke[..|s.edges|] == s.edges;
      }
    }
  }

  lemma {:induction false} RunConcat(s: BuildState, a: seq<Op>, b: seq<Op>)
    ensures Run(s, a + b) == Run(Run(s, a), b)
  {
    if b == [] {
      assert a + b == a;
    } else {
      var b0 := b[..|b| - 1];
      RunConcat(s, a, b0);
      assert (a + b)[..|a + b| - 1] == a + b0;
    }
  }

  lemma RunSnoc(s: BuildState, ops: seq<Op>, op: Op)
    ensures Run(s, ops + [op]) == Apply(Run(s, ops), op)
  {
    assert (ops + [op])[..|ops|] == ops;
  }

  lemma RunOne(s: BuildState, a: Op)
    ensures Run(s, [a]) == Apply(s, a)
  {
    assert [a][..0] == [];
  }

  lemma RunTwo(s: BuildState, a: Op, b: Op)
    ensures Run(s, [a, b]) == Apply(Apply(s, a), b)
  {
    assert [a, b][..1] == [a];
    RunOne(s, a);
  }

  lemma RunThree(s: BuildState, a: Op, b: Op, c: Op)
    ensures Run(s, [a, b, c]) == Apply(Apply(Apply(s, a), b), c)
  {
    assert [a, b, c][..2] == [a, b];
    RunTwo(s, a, b);
  }

  /** Every drawn edge joins nodes already drawn, of the kinds its relation connects. */
  ghost predicate Closed(s: BuildState)
  {
    forall e :: e in s.edges ==> EndpointsIn(e, s.seenUsers, s.seenTxs)
  }

  /** A step keeps the drawing closed when an edge it adds has both ends seen. */
  lemma ApplyKeepsClosed(s: BuildState, op: Op)
    requires Closed(s)
    requires op.AddEdgeOp? ==> EndpointsIn(op.edge, s.seenUsers, s.seenTxs)
    ensures Closed(Apply(s, op))
    ensures s.seenUsers <= Apply(s, op).seenUsers && s.seenTxs <= Apply(s, op).seenTxs
  {
  }

  /** The table holds, for every id, the number of edge ends at it. */
  lemma {:induction false} DegreeTableCounts(es: seq<Edge>, x: string)
    ensures DegreeOf(DegreeTable(es), x) == Touches(es, x)
  {
    if es != [] {
      DegreeTableCounts(es[..|es| - 1], x);
    }
  }

  /** 2 * min(10 + 1.5 * degree, 30). */
  function HalfSize(degree: nat): (h: nat)
    ensures 20 <= h <= 60
    ensures h == 60 <==> degree >= 14
  {
    Min(20 + 3 * degree, 60)
  }

  /** The final sizing pass: every dot is resized from its degree, boxes are kept. */
  function SizedNode(n: Node, es: seq<Edge>): Node
  {
    if n.UserNode? then UserNode(n.id, HalfSize(Touches(es, n.id))) else n
  }

  function Sized(ns: seq<Node>, es: seq<Edge>): (r: seq<Node>)
    ensures |r| == |ns|
    ensures forall k :: 0 <= k < |ns| ==> r[k] == SizedNode(ns[k], es)
  {
    seq(|ns|, k requires 0 <= k < |ns| => SizedNode(ns[k], es))
  }

  // ---------------- what the renderer may rely on ----------------

  /** The ids of the dots among the nodes. */
  function UserIds(ns: seq<Node>): set<string>
  {
    set n | n in ns && n.UserNode? :: n.id
  }

  /** The ids of the boxes among the nodes. */
  function TxIds(ns: seq<Node>): set<string>
  {
    set n | n in ns && n.TxNode? :: n.id
  }

  /** Both ends of an edge are nodes of the kind its relation connects. */
  predicate EndpointsIn(e: Edge, users: set<string>, txs: set<string>)
  {
    match e.relation
    case Credit => e.from in users && e.to in txs
    case Debit => e.from in txs && e.to in users
    case SameIp => e.from in txs && e.to in txs
    case SameDevice => e.from in txs && e.to in txs
    case _ => e.from in users && e.to in users
  }

  /** No user id and no transaction id is drawn twice. */
  predicate NodesUnique(ns: seq<Node>)
  {
    forall i, j :: 0 <= i < j < |ns| ==> !(ns[i].UserNode? == ns[j].UserNode? && ns[i].id == ns[j].id)
  }
}
