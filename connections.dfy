/**
 * The backend's shaping of relationship query rows into the JSON it returns.
 * Both relationship endpoints walk the rows in order, skip a row whose
 * `<rel>_<node id>` key was already met, and append the node to a bucket: for a
 * user, by relationship type; for a transaction, by whether the node carries the
 * User label.
 */
module Connections {
  import opened Records

  /** The properties of a returned node; the `id` property may be missing. */
  datatype NodeData = NodeData(id: Option<string>, props: map<string, string>)

  /** One row of a relationship query: `rel_type`, `node_type` (labels), `node_data`. */
  datatype Row = Row(relType: string, labels: seq<string>, node: NodeData)

  /** `node.get('id', '')`. */
  function IdOrEmpty(n: NodeData): string
  {
    match n.id
    case Some(x) => x
    case None => ""
  }

  /** `f"{rel}_{node.get('id','')}"`. */
  function DedupKey(r: Row): string
  {
    r.relType + "_" + IdOrEmpty(r.node)
  }

  /** The keys met in the rows: the `seen` set after them. */
  function Keys(rows: seq<Row>): set<string>
  {
    if rows == [] then {} else Keys(rows[..|rows| - 1]) + {DedupKey(rows[|rows| - 1])}
  }

  /** The rows that survive the `seen` check: each one's key was not met before it. */
  function Kept(rows: seq<Row>): (kept: seq<Row>)
    ensures |kept| <= |rows|
  {
    if rows == [] then []
    else
      var front, r := rows[..|rows| - 1], rows[|rows| - 1];
      Kept(front) + (if DedupKey(r) in Keys(front) then [] else [r])
  }

  /** Row k is the first of its key. */
  predicate FirstOfKey(rows: seq<Row>, k: nat)
    requires k < |rows|
  {
    forall j :: 0 <= j < k ==> DedupKey(rows[j]) != DedupKey(rows[k])
  }

  // ---------------- the user endpoint ----------------

  /** The six lists of the user endpoint's `connections`. */
  datatype Bucket = SentTo | SharedEmail | SharedPhone | SharedAddress | SharedPayment | Transactions

  /** Where a relationship type is filed; any other type is dropped. */
  function BucketOf(rel: string): Option<Bucket>
  {
    if rel == "SENT" then Some(SentTo)
    else if rel == "SHARED_EMAIL" then Some(SharedEmail)
    else if rel == "SHARED_PHONE" then Some(SharedPhone)
    else if rel == "SHARED_ADDRESS" then Some(SharedAddress)
    else if rel == "SHARED_PAYMENT" then Some(SharedPayment)
    else if rel == "INITIATED" || rel == "RECEIVED" then Some(Transactions)
    else None
  }

  /** The nodes of the rows filed under b, in row order. */
  function Select(rows: seq<Row>, b: Bucket): (nodes: seq<NodeData>)
    ensures |nodes| <= |rows|
  {
    if rows == [] then []
    else
      var r := rows[|rows| - 1];
      Select(rows[..|rows| - 1], b) + (if BucketOf(r.relType) == Some(b) then [r.node] else [])
  }

  /** The rows whose type no bucket takes. */
  function Dropped(rows: seq<Row>): (n: nat)
    ensures n <= |rows|
  {
    if rows == [] then 0
    else Dropped(rows[..|rows| - 1]) + (if BucketOf(rows[|rows| - 1].relType).None? then 1 else 0)
  }

  /** The sizes of all six buckets together. */
  function Filed(rows: seq<Row>): nat
  {
    |Select(rows, SentTo)| + |Select(rows, SharedEmail)| + |Select(rows, SharedPhone)|
      + |Select(rows, SharedAddress)| + |Select(rows, SharedPayment)| + |Select(rows, Transactions)|
  }

  const NoConnections: map<Bucket, seq<NodeData>> :=
    map[SentTo := [], SharedEmail := [], SharedPhone := [], SharedAddress := [], SharedPayment := [], Transactions := []]

  lemma NoConnectionsEmpty()
    ensures forall b: Bucket :: b in NoConnections && NoConnections[b] == []
  {
    forall b: Bucket
      ensures b in NoConnections && NoConnections[b] == []
    {
      match b
      case SentTo =>
      case SharedEmail =>
      case SharedPhone =>
      case SharedAddress =>
      case SharedPayment =>
      case Transactions =>
    }
  }

  /** Files one row that passed the `seen` check. */
  function FileRow(c: map<Bucket, seq<NodeData>>, r: Row): map<Bucket, seq<NodeData>>
    requires forall b: Bucket :: b in c
  {
    match BucketOf(r.relType)
    case Some(b) => c[b := c[b] + [r.node]]
    case None => c
  }

  /** The loop of `get_user_relationships`: every bucket ends up holding, in row
      order, the nodes of the kept rows of its types. */
  method UserConnections(rows: seq<Row>) returns (c: map<Bucket, seq<NodeData>>)
    ensures forall b: Bucket :: b in c && c[b] == Select(Kept(rows), b)
  {
    c := NoConnections;
    var seen: set<string> := {};
    ghost var kept: seq<Row> := [];
    var i := 0;
    assert rows[..0] == [];
    NoConnectionsEmpty();
    while i < |rows|
      invariant i <= |rows|
      invariant seen == Keys(rows[..i]) && kept == Kept(rows[..i])
      invariant forall b: Bucket :: b in c && c[b] == Select(kept, b)
    {
      var r := rows[i];
      var key := DedupKey(r);
      KeptStep(rows, i);
      if key !in seen {
        seen := seen + {key};
        FileRowSelects(c, kept, r);
        c := FileRow(c, r);
        kept := kept + [r];
      }
      i := i + 1;
    }
    assert rows[..|rows|] == rows;
  }

  /** Filing a row extends exactly its bucket's list by its node. */
  lemma FileRowSelects(c: map<Bucket, seq<NodeData>>, kept: seq<Row>, r: Row)
    requires forall b: Bucket :: b in c && c[b] == Select(kept, b)
    ensures forall b: Bucket :: b in FileRow(c, r) && FileRow(c, r)[b] == Select(kept + [r], b)
  {
    assert (kept + [r])[..|kept|] == kept;
  }

  /** One more row: its key joins the seen keys, and it is kept when its key is new. */
  lemma KeptStep(rows: seq<Row>, i: nat)
    requires i < |rows|
    ensures Keys(rows[..i + 1]) == Keys(rows[..i]) + {DedupKey(rows[i])}
    ensures DedupKey(rows[i]) !in Keys(rows[..i]) ==> Kept(rows[..i + 1]) == Kept(rows[..i]) + [rows[i]]
    ensures DedupKey(rows[i]) in Keys(rows[..i]) ==> Kept(rows[..i + 1]) == Kept(rows[..i])
  {
    assert rows[..i + 1] == rows[..i] + [rows[i]];
    assert rows[..i + 1][..i] == rows[..i];
    assert Kept(rows[..i]) + [] == Kept(rows[..i]);
  }

  // ---------------- the transaction endpoint ----------------

  /** An entry of `users` or `linked_transactions`: the node and the relationship type. */
  datatype Linked = Linked(data: NodeData, linkType: string)

  predicate IsUserRow(r: Row)
  {
    "User" in r.labels
  }

  /** The rows with the User label, as `{data, link_type}` entries, in row order. */
  function UserEntries(rows: seq<Row>): (es: seq<Linked>)
    ensures |es| <= |rows|
  {
    if rows == [] then []
    else
      var r := rows[|rows| - 1];
      UserEntries(rows[..|rows| - 1]) + (if IsUserRow(r) then [Linked(r.node, r.relType)] else [])
  }

  /** The other rows, in row order. */
  function OtherEntries(rows: seq<Row>): (es: seq<Linked>)
    ensures |es| <= |rows|
  {
    if rows == [] then []
    else
      var r := rows[|rows| - 1];
      OtherEntries(rows[..|rows| - 1]) + (if IsUserRow(r) then [] else [Linked(r.node, r.relType)])
  }

  /** The loop of `get_transaction_relationships`. */
  method TxConnections(rows: seq<Row>) returns (users: seq<Linked>, linked: seq<Linked>)
    ensures users == UserEntries(Kept(rows)) && linked == OtherEntries(Kept(rows))
  {
    users, linked := [], [];
    var seen: set<string> := {};
    ghost var kept: seq<Row> := [];
    var i := 0;
    assert rows[..0] == [];
    while i < |rows|
      invariant i <= |rows|
      invariant seen == Keys(rows[..i]) && kept == Kept(rows[..i])
      invariant users == UserEntries(kept) && linked == OtherEntries(kept)
    {
      var r := rows[i];
      var key := DedupKey(r);
      KeptStep(rows, i);
      if key !in seen {
        seen := seen + {key};
        EntriesSnoc(kept, r);
        kept := kept + [r];
        if IsUserRow(r) {
          users := users + [Linked(r.node, r.relType)];
        } else {
          linked := linked + [Linked(r.node, r.relType)];
        }
      }
      i := i + 1;
    }
    assert rows[..|rows|] == rows;
  }

  /** Filing one more kept row extends exactly one of the two lists. */
  lemma EntriesSnoc(kept: seq<Row>, r: Row)
    ensures UserEntries(kept + [r]) == UserEntries(kept) + (if IsUserRow(r) then [Linked(r.node, r.relType)] else [])
    ensures OtherEntries(kept + [r]) == OtherEntries(kept) + (if IsUserRow(r) then [] else [Linked(r.node, r.relType)])
  {
    assert (kept + [r])[..|kept|] == kept;
  }

  // ---------------- properties ----------------

  lemma KeysSnoc(rows: seq<Row>, r: Row)
    ensures Keys(rows + [r]) == Keys(rows) + {DedupKey(r)}
  {
    assert (rows + [r])[..|rows|] == rows;
  }

  /** A key is met in the rows exactly when some row has it. */
  lemma KeysMembers(rows: seq<Row>, key: string)
    ensures key in Keys(rows) <==> exists k :: 0 <= k < |rows| && DedupKey(rows[k]) == key
  {
    if key in Keys(rows) {
      KeysSound(rows, key);
    }
    if exists k :: 0 <= k < |rows| && DedupKey(rows[k]) == key {
      var k :| 0 <= k < |rows| && DedupKey(rows[k]) == key;
      KeysComplete(rows, k);
    }
  }

  lemma {:induction false} KeysSound(rows: seq<Row>, key: string)
    requires key in Keys(rows)
    ensures exists k :: 0 <= k < |rows| && DedupKey(rows[k]) == key
  {
    var front := rows[..|rows| - 1];
    if key in Keys(front) {
      KeysSound(front, key);
      var k :| 0 <= k < |front| && DedupKey(front[k]) == key;
      assert rows[k] == front[k];
    } else {
      assert DedupKey(rows[|rows| - 1]) == key;
    }
  }

  lemma {:induction false} KeysComplete(rows: seq<Row>, k: nat)
    requires k < |rows|
    ensures DedupKey(rows[k]) in Keys(rows)
  {
    var front := rows[..|rows| - 1];
    if k < |front| {
      KeysComplete(front, k);
      assert front[k] == rows[k];
    }
  }

  /** The last row is the first of its key exactly when its key is new. */
  lemma LastKeyNew(rows: seq<Row>)
    requires rows != []
    ensures FirstOfKey(rows, |rows| - 1) <==> DedupKey(rows[|rows| - 1]) !in Keys(rows[..|rows| - 1])
  {
    var front := rows[..|rows| - 1];
    KeysMembers(front, DedupKey(rows[|rows| - 1]));
    assert forall j :: 0 <= j < |front| ==> front[j] == rows[j];
  }

  /** The kept rows carry pairwise different keys, and between them every key of the input. */
  lemma {:induction false} KeptKeys(rows: seq<Row>)
    ensures forall i, j :: 0 <= i < j < |Kept(rows)| ==> DedupKey(Kept(rows)[i]) != DedupKey(Kept(rows)[j])
    ensures Keys(Kept(rows)) == Keys(rows)
  {
    if rows != [] {
      var front, r := rows[..|rows| - 1], rows[|rows| - 1];
      assert rows == front + [r];
      KeptKeys(front);
      KeysSnoc(front, r);
      var kf := Kept(front);
      if DedupKey(r) !in Keys(front) {
        KeysSnoc(kf, r);
        assert Kept(rows) == kf + [r];
        forall i | 0 <= i < |kf|
          ensures DedupKey(kf[i]) != DedupKey(r)
        {
          KeysComplete(kf, i);
        }
      } else {
        assert Kept(rows) == kf;
      }
    }
  }

  /** Every kept row stands in the rows at a position that is the first of its key. */
  lemma {:induction false} KeptAreFirsts(rows: seq<Row>, x: Row)
    requires x in Kept(rows)
    ensures exists k :: 0 <= k < |rows| && rows[k] == x && FirstOfKey(rows, k)
  {
    var front, r := rows[..|rows| - 1], rows[|rows| - 1];
    if x in Kept(front) {
      KeptAreFirsts(front, x);
      var k :| 0 <= k < |front| && front[k] == x && FirstOfKey(front, k);
      FirstOfKeyPrefix(rows, |front|, k);
    } else {
      LastKeyNew(rows);
      assert x == r && DedupKey(r) !in Keys(front);
    }
  }

  /** The row at every position that is the first of its key is kept. */
  lemma {:induction false} FirstsAreKept(rows: seq<Row>, k: nat)
    requires k < |rows| && FirstOfKey(rows, k)
    ensures rows[k] in Kept(rows)
  {
    var front, r := rows[..|rows| - 1], rows[|rows| - 1];
    if k < |front| {
      FirstOfKeyPrefix(rows, |front|, k);
      FirstsAreKept(front, k);
      assert front[k] == rows[k];
    } else {
      LastKeyNew(rows);
    }
  }

  /** A row value is kept exactly when it stands at a position that is the first of its key. */
  lemma KeptMembers(rows: seq<Row>, x: Row)
    ensures x in Kept(rows) <==> exists k :: 0 <= k < |rows| && rows[k] == x && FirstOfKey(rows, k)
  {
    if x in Kept(rows) {
      KeptAreFirsts(rows, x);
    }
    if exists k :: 0 <= k < |rows| && rows[k] == x && FirstOfKey(rows, k) {
      var k :| 0 <= k < |rows| && rows[k] == x && FirstOfKey(rows, k);
      FirstsAreKept(rows, k);
    }
  }

  /** Being first of one's key is decided by the rows before. */
  lemma FirstOfKeyPrefix(rows: seq<Row>, n: nat, k: nat)
    requires k < n <= |rows|
    ensures FirstOfKey(rows[..n], k) <==> FirstOfKey(rows, k)
  {
    assert forall j :: 0 <= j <= k ==> rows[..n][j] == rows[j];
  }

  /** A node is in bucket b exactly when a row of b's types carries it. */
  lemma SelectMembers(rows: seq<Row>, b: Bucket, x: NodeData)
    ensures x in Select(rows, b) <==> exists k :: 0 <= k < |rows| && rows[k].node == x && BucketOf(rows[k].relType) == Some(b)
  {
    if x in Select(rows, b) {
      SelectSound(rows, b, x);
    }
    if exists k :: 0 <= k < |rows| && rows[k].node == x && BucketOf(rows[k].relType) == Some(b) {
      var k :| 0 <= k < |rows| && rows[k].node == x && BucketOf(rows[k].relType) == Some(b);
      SelectComplete(rows, b, k);
    }
  }

  lemma {:induction false} SelectSound(rows: seq<Row>, b: Bucket, x: NodeData)
    requires x in Select(rows, b)
    ensures exists k :: 0 <= k < |rows| && rows[k].node == x && BucketOf(rows[k].relType) == Some(b)
  {
    var front, r := rows[..|rows| - 1], rows[|rows| - 1];
    if x in Select(front, b) {
      SelectSound(front, b, x);
      var k :| 0 <= k < |front| && front[k].node == x && BucketOf(front[k].relType) == Some(b);
      assert rows[k] == front[k];
    } else {
      assert r.node == x && BucketOf(r.relType) == Some(b);
    }
  }

  lemma {:induction false} SelectComplete(rows: seq<Row>, b: Bucket, k: nat)
    requires k < |rows| && BucketOf(rows[k].relType) == Some(b)
    ensures rows[k].node in Select(rows, b)
  {
    var front := rows[..|rows| - 1];
    if k < |front| {
      SelectComplete(front, b, k);
      assert front[k] == rows[k];
    }
  }

  /** Filing keeps row order: the rows of a + b are filed as those of a, then those of b. */
  lemma {:induction false} SelectConcat(a: seq<Row>, c: seq<Row>, b: Bucket)
    ensures Select(a + c, b) == Select(a, b) + Select(c, b)
  {
    if c != [] {
      var front := c[..|c| - 1];
      assert (a + c)[..|a + c| - 1] == a + front;
      SelectConcat(a, front, b);
    } else {
      assert a + c == a;
    }
  }

  /** Every row lands in exactly one bucket or is dropped. */
  lemma {:induction false} BucketsPartition(rows: seq<Row>)
    ensures Filed(rows) + Dropped(rows) == |rows|
  {
    if rows != [] {
      BucketsPartition(rows[..|rows| - 1]);
    }
  }

  /** The transaction endpoint files every kept row exactly once, in one of its two lists. */
  lemma {:induction false} EntriesPartition(rows: seq<Row>)
    ensures |UserEntries(rows)| + |OtherEntries(rows)| == |rows|
  {
    if rows != [] {
      EntriesPartition(rows[..|rows| - 1]);
    }
  }

  /** An entry is in `users` exactly when a User-labelled row gave it. */
  lemma UserEntriesMembers(rows: seq<Row>, e: Linked)
    ensures e in UserEntries(rows) <==> exists k :: 0 <= k < |rows| && IsUserRow(rows[k]) && e == Linked(rows[k].node, rows[k].relType)
  {
    if e in UserEntries(rows) {
      UserEntriesSound(rows, e);
    }
    if exists k :: 0 <= k < |rows| && IsUserRow(rows[k]) && e == Linked(rows[k].node, rows[k].relType) {
      var k :| 0 <= k < |rows| && IsUserRow(rows[k]) && e == Linked(rows[k].node, rows[k].relType);
      UserEntriesComplete(rows, k);
    }
  }

  lemma {:induction false} UserEntriesSound(rows: seq<Row>, e: Linked)
    requires e in UserEntries(rows)
    ensures exists k :: 0 <= k < |rows| && IsUserRow(rows[k]) && e == Linked(rows[k].node, rows[k].relType)
  {
    var front, r := rows[..|rows| - 1], rows[|rows| - 1];
    if e in UserEntries(front) {
      UserEntriesSound(front, e);
      var k :| 0 <= k < |front| && IsUserRow(front[k]) && e == Linked(front[k].node, front[k].relType);
      assert rows[k] == front[k];
    } else {
      assert IsUserRow(r) && e == Linked(r.node, r.relType);
    }
  }

  lemma {:induction false} UserEntriesComplete(rows: seq<Row>, k: nat)
    requires k < |rows| && IsUserRow(rows[k])
    ensures Linked(rows[k].node, rows[k].relType) in UserEntries(rows)
  {
    var front := rows[..|rows| - 1];
    if k < |front| {
      UserEntriesComplete(front, k);
      assert front[k] == rows[k];
    }
  }

  /** An entry is in `linked_transactions` exactly when a row without the User label gave it. */
  lemma OtherEntriesMembers(rows: seq<Row>, e: Linked)
    ensures e in OtherEntries(rows) <==> exists k :: 0 <= k < |rows| && !IsUserRow(rows[k]) && e == Linked(rows[k].node, rows[k].relType)
  {
    if e in OtherEntries(rows) {
      OtherEntriesSound(rows, e);
    }
    if exists k :: 0 <= k < |rows| && !IsUserRow(rows[k]) && e == Linked(rows[k].node, rows[k].relType) {
      var k :| 0 <= k < |rows| && !IsUserRow(rows[k]) && e == Linked(rows[k].node, rows[k].relType);
      OtherEntriesComplete(rows, k);
    }
  }

  lemma {:induction false} OtherEntriesSound(rows: seq<Row>, e: Linked)
    requires e in OtherEntries(rows)
    ensures exists k :: 0 <= k < |rows| && !IsUserRow(rows[k]) && e == Linked(rows[k].node, rows[k].relType)
  {
    var front, r := rows[..|rows| - 1], rows[|rows| - 1];
    if e in OtherEntries(front) {
      OtherEntriesSound(front, e);
      var k :| 0 <= k < |front| && !IsUserRow(front[k]) && e == Linked(front[k].node, front[k].relType);
      assert rows[k] == front[k];
    } else {
      assert !IsUserRow(r) && e == Linked(r.node, r.relType);
    }
  }

  lemma {:induction false} OtherEntriesComplete(rows: seq<Row>, k: nat)
    requires k < |rows| && !IsUserRow(rows[k])
    ensures Linked(rows[k].node, rows[k].relType) in OtherEntries(rows)
  {
    var front := rows[..|rows| - 1];
    if k < |front| {
      OtherEntriesComplete(front, k);
      assert front[k] == rows[k];
    }
  }

  /** Two rows of one type whose nodes both lack an id share the key `<rel>_`, so only
      the first of them is returned. */
  lemma MissingIdsCollapse(rel: string, n1: NodeData, n2: NodeData)
    requires n1.id.None? && n2.id.None? && n1 != n2
    ensures Kept([Row(rel, ["User"], n1), Row(rel, ["User"], n2)]) == [Row(rel, ["User"], n1)]
  {
    var rows := [Row(rel, ["User"], n1), Row(rel, ["User"], n2)];
    assert rows[..1] == [rows[0]];
    assert [rows[0]][..0] == [];
    assert rows[0] in rows[..1] && DedupKey(rows[1]) == DedupKey(rows[0]);
    assert DedupKey(rows[1]) in Keys(rows[..1]);
  }
}
