/**
 * What the dashboard graph promises: which edges a group yields and how many,
 * which filter admits which edge, that switching one filter off removes exactly
 * that relation's edges, and that the drawn graph is well formed.
 */
module DashboardProps {
  import opened Records
  import opened Pairs
  import opened AttributeIndex
  import opened Filters
  import opened Graph
  import opened DashboardSpec

  // ---------------- edge sequences ----------------

  /** A non-empty sequence is its front plus its last element, also after a prefix. */
  lemma SplitLast<T>(a: seq<T>, b: seq<T>)
    requires b != []
    ensures b == b[..|b| - 1] + [b[|b| - 1]]
    ensures a + b == (a + b[..|b| - 1]) + [b[|b| - 1]]
  {
  }

  lemma ConcatAssoc<T>(x: seq<T>, y: seq<T>, z: seq<T>)
    ensures (x + y) + z == x + (y + z)
  {
  }

  lemma EdgesOfSnoc(a: seq<Op>, op: Op)
    ensures EdgesOf(a + [op]) == EdgesOf(a) + (if op.AddEdgeOp? then [op.edge] else [])
  {
    assert (a + [op])[..|a|] == a;
  }

  lemma {:induction false} EdgesOfConcat(a: seq<Op>, b: seq<Op>)
    ensures EdgesOf(a + b) == EdgesOf(a) + EdgesOf(b)
  {
    if b == [] {
      assert a + b == a;
    } else {
      var b0 := b[..|b| - 1];
      EdgesOfConcat(a, b0);
      EdgesOfConcatInduct(a, b0, b);
    }
  }

  lemma EdgesOfConcatInduct(a: seq<Op>, b0: seq<Op>, b: seq<Op>)
    requires b != [] && b0 == b[..|b| - 1]
    requires EdgesOf(a + b0) == EdgesOf(a) + EdgesOf(b0)
    ensures EdgesOf(a + b) == EdgesOf(a) + EdgesOf(b)
  {
    var op := b[|b| - 1];
    SplitLast(a, b);
    EdgesOfSnoc(a + b0, op);
    EdgesOfSnoc(b0, op);
    ConcatAssoc(EdgesOf(a), EdgesOf(b0), if op.AddEdgeOp? then [op.edge] else []);
  }

  /** ids[k], or "" past the end. */
  function At(ids: seq<string>, k: nat): string
  {
    if k < |ids| then ids[k] else ""
  }

  /** The edges of a list of index pairs into `ids`, in the same order. */
  function PairEdges(ids: seq<string>, ps: seq<(nat, nat)>, r: Relation, caption: string): (es: seq<Edge>)
    ensures |es| == |ps|
  {
    if ps == [] then []
    else PairEdges(ids, ps[..|ps| - 1], r, caption) + [Edge(At(ids, ps[|ps| - 1].0), At(ids, ps[|ps| - 1].1), r, caption)]
  }

  lemma {:induction false} PairEdgesConcat(ids: seq<string>, a: seq<(nat, nat)>, b: seq<(nat, nat)>, r: Relation, caption: string)
    ensures PairEdges(ids, a + b, r, caption) == PairEdges(ids, a, r, caption) + PairEdges(ids, b, r, caption)
  {
    if b == [] {
      assert a + b == a;
    } else {
      var b0 := b[..|b| - 1];
      PairEdgesConcat(ids, a, b0, r, caption);
      PairEdgesConcatInduct(ids, a, b0, b, r, caption);
    }
  }

  lemma PairEdgesConcatInduct(ids: seq<string>, a: seq<(nat, nat)>, b0: seq<(nat, nat)>, b: seq<(nat, nat)>, r: Relation, caption: string)
    requires b != [] && b0 == b[..|b| - 1]
    requires PairEdges(ids, a + b0, r, caption) == PairEdges(ids, a, r, caption) + PairEdges(ids, b0, r, caption)
    ensures PairEdges(ids, a + b, r, caption) == PairEdges(ids, a, r, caption) + PairEdges(ids, b, r, caption)
  {
    var p := b[|b| - 1];
    SplitLast(a, b);
    PairEdgesSnoc(ids, a + b0, p, r, caption);
    PairEdgesSnoc(ids, b0, p, r, caption);
    ConcatAssoc(PairEdges(ids, a, r, caption), PairEdges(ids, b0, r, caption), [Edge(At(ids, p.0), At(ids, p.1), r, caption)]);
  }

  lemma {:induction false} PairEdgesMembers(ids: seq<string>, ps: seq<(nat, nat)>, r: Relation, caption: string, e: Edge)
    ensures |PairEdges(ids, ps, r, caption)| == |ps|
    ensures e in PairEdges(ids, ps, r, caption) <==>
      exists k :: 0 <= k < |ps| && e == Edge(At(ids, ps[k].0), At(ids, ps[k].1), r, caption)
  {
    if ps != [] {
      var front := ps[..|ps| - 1];
      PairEdgesMembers(ids, front, r, caption, e);
      if exists k :: 0 <= k < |front| && e == Edge(At(ids, front[k].0), At(ids, front[k].1), r, caption) {
        var k :| 0 <= k < |front| && e == Edge(At(ids, front[k].0), At(ids, front[k].1), r, caption);
        assert ps[k] == front[k];
      }
      if exists k :: 0 <= k < |ps| && e == Edge(At(ids, ps[k].0), At(ids, ps[k].1), r, caption) {
        var k :| 0 <= k < |ps| && e == Edge(At(ids, ps[k].0), At(ids, ps[k].1), r, caption);
        if k < |front| {
          assert front[k] == ps[k];
        }
      }
    }
  }

  lemma PairEdgesSnoc(ids: seq<string>, ps: seq<(nat, nat)>, p: (nat, nat), r: Relation, caption: string)
    ensures PairEdges(ids, ps + [p], r, caption) == PairEdges(ids, ps, r, caption) + [Edge(At(ids, p.0), At(ids, p.1), r, caption)]
  {
    assert (ps + [p])[..|ps|] == ps;
  }

  /** The edges of one more pair of a row. */
  lemma PairEdgesRowStep(ids: seq<string>, i: nat, k: nat, j: nat, r: Relation, caption: string)
    requires i < k && j == k + 1
    ensures PairEdges(ids, Row(i, j), r, caption)
         == PairEdges(ids, Row(i, k), r, caption) + [Edge(At(ids, i), At(ids, k), r, caption)]
  {
    var p: (nat, nat) := (i, k);
    assert Row(i, j) == Row(i, k) + [p];
    PairEdgesSnoc(ids, Row(i, k), p, r, caption);
  }

  /** The edges of one more row of the outer loop. */
  lemma PairEdgesRowsStep(ids: seq<string>, k: nat, i: nat, n: nat, r: Relation, caption: string)
    requires i == k + 1
    ensures PairEdges(ids, Rows(i, n), r, caption)
         == PairEdges(ids, Rows(k, n), r, caption) + PairEdges(ids, Row(k, n), r, caption)
  {
    assert Rows(i, n) == Rows(k, n) + Row(k, n);
    PairEdgesConcat(ids, Rows(k, n), Row(k, n), r, caption);
  }

  /** One more pass of a shared-attribute inner loop adds exactly one edge. */
  lemma SharedRowStep(ids: seq<string>, i: nat, k: nat, j: nat, r: Relation, caption: string)
    requires i < k && j == k + 1 <= |ids|
    ensures EdgesOf(SharedRowOps(ids, i, j, r, caption))
         == EdgesOf(SharedRowOps(ids, i, k, r, caption)) + [Edge(ids[i], ids[k], r, caption)]
  {
    var e := Edge(ids[i], ids[k], r, caption);
    var boxes := [EnsureUserOp(ids[i]), EnsureUserOp(ids[k])];
    var pass := boxes + [AddEdgeOp(e)];
    assert SharedRowOps(ids, i, j, r, caption) == SharedRowOps(ids, i, k, r, caption) + pass;
    EdgesOfConcat(SharedRowOps(ids, i, k, r, caption), pass);
    EdgesOfPass(boxes, e);
  }

  /** A pass of an inner loop: steps that draw no edge, then one edge. */
  lemma EdgesOfPass(boxes: seq<Op>, e: Edge)
    requires forall k :: 0 <= k < |boxes| ==> !boxes[k].AddEdgeOp?
    ensures EdgesOf(boxes + [AddEdgeOp(e)]) == [e]
  {
    EdgesOfSnoc(boxes, AddEdgeOp(e));
    NoEdges(boxes);
  }

  lemma {:induction false} NoEdges(boxes: seq<Op>)
    requires forall k :: 0 <= k < |boxes| ==> !boxes[k].AddEdgeOp?
    ensures EdgesOf(boxes) == []
  {
    if boxes != [] {
      NoEdges(boxes[..|boxes| - 1]);
    }
  }

  /** The inner loop of a shared-attribute row draws the edges of `Row`. */
  lemma {:induction false} SharedRowEdges(ids: seq<string>, i: nat, j: nat, r: Relation, caption: string)
    requires i < j <= |ids|
    ensures EdgesOf(SharedRowOps(ids, i, j, r, caption)) == PairEdges(ids, Row(i, j), r, caption)
  {
    if j > i + 1 {
      var k: nat := j - 1;
      SharedRowEdges(ids, i, k, r, caption);
      SharedRowInduct(ids, i, k, j, r, caption);
    }
  }

  lemma SharedRowInduct(ids: seq<string>, i: nat, k: nat, j: nat, r: Relation, caption: string)
    requires i < k && j == k + 1 <= |ids|
    requires EdgesOf(SharedRowOps(ids, i, k, r, caption)) == PairEdges(ids, Row(i, k), r, caption)
    ensures EdgesOf(SharedRowOps(ids, i, j, r, caption)) == PairEdges(ids, Row(i, j), r, caption)
  {
    SharedRowStep(ids, i, k, j, r, caption);
    PairEdgesRowStep(ids, i, k, j, r, caption);
  }

  /** One more pass of an IP or device inner loop adds exactly one edge. */
  lemma ContextRowStep(ids: seq<string>, i: nat, k: nat, j: nat, r: Relation, caption: string, txs: seq<Tx>)
    requires i < k && j == k + 1 <= |ids|
    ensures EdgesOf(ContextRowOps(ids, i, j, r, caption, txs))
         == EdgesOf(ContextRowOps(ids, i, k, r, caption, txs)) + [Edge(ids[i], ids[k], r, caption)]
  {
    var e := Edge(ids[i], ids[k], r, caption);
    var boxes := [LookedUp(txs, ids[k])];
    var pass := boxes + [AddEdgeOp(e)];
    assert ContextRowOps(ids, i, j, r, caption, txs) == ContextRowOps(ids, i, k, r, caption, txs) + pass;
    EdgesOfConcat(ContextRowOps(ids, i, k, r, caption, txs), pass);
    EdgesOfPass(boxes, e);
  }

  /** The inner loop of an IP or device row draws the edges of `Row` as well. */
  lemma {:induction false} ContextRowEdges(ids: seq<string>, i: nat, j: nat, r: Relation, caption: string, txs: seq<Tx>)
    requires i < j <= |ids|
    ensures EdgesOf(ContextRowOps(ids, i, j, r, caption, txs)) == PairEdges(ids, Row(i, j), r, caption)
  {
    if j > i + 1 {
      var k: nat := j - 1;
      ContextRowEdges(ids, i, k, r, caption, txs);
      ContextRowInduct(ids, i, k, j, r, caption, txs);
    }
  }

  lemma ContextRowInduct(ids: seq<string>, i: nat, k: nat, j: nat, r: Relation, caption: string, txs: seq<Tx>)
    requires i < k && j == k + 1 <= |ids|
    requires EdgesOf(ContextRowOps(ids, i, k, r, caption, txs)) == PairEdges(ids, Row(i, k), r, caption)
    ensures EdgesOf(ContextRowOps(ids, i, j, r, caption, txs)) == PairEdges(ids, Row(i, j), r, caption)
  {
    ContextRowStep(ids, i, k, j, r, caption, txs);
    PairEdgesRowStep(ids, i, k, j, r, caption);
  }

  /** The outer loop of a shared-attribute group adds one row at a time. */
  lemma SharedRowsStep(ids: seq<string>, k: nat, i: nat, r: Relation, caption: string)
    requires i == k + 1 <= |ids|
    ensures EdgesOf(SharedRowsOps(ids, i, r, caption))
         == EdgesOf(SharedRowsOps(ids, k, r, caption)) + EdgesOf(SharedRowOps(ids, k, |ids|, r, caption))
  {
    assert SharedRowsOps(ids, i, r, caption) == SharedRowsOps(ids, k, r, caption) + SharedRowOps(ids, k, |ids|, r, caption);
    EdgesOfConcat(SharedRowsOps(ids, k, r, caption), SharedRowOps(ids, k, |ids|, r, caption));
  }

  /** If the first k rows draw their pairs, the first k + 1 rows do. */
  lemma SharedRowsInduct(ids: seq<string>, k: nat, i: nat, r: Relation, caption: string)
    requires i == k + 1 <= |ids|
    requires EdgesOf(SharedRowsOps(ids, k, r, caption)) == PairEdges(ids, Rows(k, |ids|), r, caption)
    ensures EdgesOf(SharedRowsOps(ids, i, r, caption)) == PairEdges(ids, Rows(i, |ids|), r, caption)
  {
    SharedRowEdges(ids, k, |ids|, r, caption);
    SharedRowsStep(ids, k, i, r, caption);
    PairEdgesRowsStep(ids, k, i, |ids|, r, caption);
  }

  lemma {:induction false} SharedRowsEdges(ids: seq<string>, i: nat, r: Relation, caption: string)
    requires i <= |ids|
    ensures EdgesOf(SharedRowsOps(ids, i, r, caption)) == PairEdges(ids, Rows(i, |ids|), r, caption)
  {
    if i > 0 {
      var k: nat := i - 1;
      SharedRowsEdges(ids, k, r, caption);
      SharedRowsInduct(ids, k, i, r, caption);
    }
  }

  /** The outer loop of an IP or device group adds one row at a time; the lookup before it draws no edge. */
  lemma ContextRowsStep(ids: seq<string>, k: nat, i: nat, m: nat, r: Relation, caption: string, txs: seq<Tx>)
    requires i == k + 1 <= m <= |ids|
    ensures EdgesOf(ContextRowsOps(ids, i, m, r, caption, txs))
         == EdgesOf(ContextRowsOps(ids, k, m, r, caption, txs)) + EdgesOf(ContextRowOps(ids, k, m, r, caption, txs))
  {
    ContextRowsOpsUnfold(ids, k, i, m, r, caption, txs);
    EdgesAroundBox(ContextRowsOps(ids, k, m, r, caption, txs), LookedUp(txs, ids[k]), ContextRowOps(ids, k, m, r, caption, txs));
  }

  lemma ContextRowsOpsUnfold(ids: seq<string>, k: nat, i: nat, m: nat, r: Relation, caption: string, txs: seq<Tx>)
    requires i == k + 1 <= m <= |ids|
    ensures ContextRowsOps(ids, i, m, r, caption, txs)
         == (ContextRowsOps(ids, k, m, r, caption, txs) + [LookedUp(txs, ids[k])]) + ContextRowOps(ids, k, m, r, caption, txs)
  {
  }

  /** A step that draws no edge between two runs of steps adds nothing to their edges. */
  lemma EdgesAroundBox(prev: seq<Op>, t: Op, row: seq<Op>)
    requires !t.AddEdgeOp?
    ensures EdgesOf((prev + [t]) + row) == EdgesOf(prev) + EdgesOf(row)
  {
    EdgesOfConcat(prev + [t], row);
    EdgesOfSnoc(prev, t);
    assert EdgesOf(prev) + [] == EdgesOf(prev);
  }

  /** If the first k rows draw their pairs, the first k + 1 rows do. */
  lemma ContextRowsInduct(ids: seq<string>, k: nat, i: nat, m: nat, r: Relation, caption: string, txs: seq<Tx>)
    requires i == k + 1 <= m <= |ids|
    requires EdgesOf(ContextRowsOps(ids, k, m, r, caption, txs)) == PairEdges(ids, Rows(k, m), r, caption)
    ensures EdgesOf(ContextRowsOps(ids, i, m, r, caption, txs)) == PairEdges(ids, Rows(i, m), r, caption)
  {
    ContextRowEdges(ids, k, m, r, caption, txs);
    ContextRowsStep(ids, k, i, m, r, caption, txs);
    PairEdgesRowsStep(ids, k, i, m, r, caption);
  }

  lemma {:induction false} ContextRowsEdges(ids: seq<string>, i: nat, m: nat, r: Relation, caption: string, txs: seq<Tx>)
    requires i <= m <= |ids|
    ensures EdgesOf(ContextRowsOps(ids, i, m, r, caption, txs)) == PairEdges(ids, Rows(i, m), r, caption)
  {
    if i > 0 {
      var k: nat := i - 1;
      ContextRowsEdges(ids, k, m, r, caption, txs);
      ContextRowsInduct(ids, k, i, m, r, caption, txs);
    }
  }

  // ---------------- one group ----------------

  /** The edges one map entry yields: every pair a < b among its first `CapFor` ids
      (all of them for a shared user attribute, the first eight for an IP or a device),
      in loop order, none when the entry has fewer than two ids. */
  lemma GroupEdgesArePairs(ids: seq<string>, r: Relation, val: string, txs: seq<Tx>)
    ensures CapFor(r, |ids|) <= |ids|
    ensures EdgesOf(GroupOps(ids, r, val, txs))
         == if |ids| < 2 then [] else PairEdges(ids, AllPairs(CapFor(r, |ids|)), r, GroupCaption(r, val))
  {
    if |ids| >= 2 {
      var m := CapFor(r, |ids|);
      if IsContext(r) {
        ContextRowsEdges(ids, m, m, r, GroupCaption(r, val), txs);
      } else {
        SharedRowsEdges(ids, |ids|, r, GroupCaption(r, val));
      }
    }
  }

  /** A group whose first m ids are paired yields m(m-1)/2 edges. */
  lemma GroupEdgeCount(ids: seq<string>, r: Relation, val: string, txs: seq<Tx>)
    ensures 2 * |EdgesOf(GroupOps(ids, r, val, txs))| == CapFor(r, |ids|) * (CapFor(r, |ids|) - 1)
  {
    GroupEdgesArePairs(ids, r, val, txs);
    AllPairsCount(CapFor(r, |ids|));
  }

  /** An IP or device group never yields more than 28 edges, however many transactions share the value. */
  lemma ContextGroupAtMost28(ids: seq<string>, r: Relation, val: string, txs: seq<Tx>)
    requires IsContext(r)
    ensures |EdgesOf(GroupOps(ids, r, val, txs))| <= 28
  {
    GroupEdgeCount(ids, r, val, txs);
    var m: int := CapFor(r, |ids|);
    assert 0 <= m <= 8;
    assert m * (m - 1) <= 56 by {
      if m > 0 {
        assert m * (m - 1) <= 8 * (m - 1) <= 56;
      }
    }
  }

  /** An edge among the pairs of the first m ids joins two of them, a < b < m. */
  lemma PairEdgeIsPair(ids: seq<string>, m: nat, r: Relation, c: string, e: Edge)
    requires m <= |ids|
    requires e in PairEdges(ids, AllPairs(m), r, c)
    ensures exists a: nat, b: nat :: a < b < m && e == Edge(ids[a], ids[b], r, c)
  {
    var ps := AllPairs(m);
    PairEdgesMembers(ids, ps, r, c, e);
    var k :| 0 <= k < |ps| && e == Edge(At(ids, ps[k].0), At(ids, ps[k].1), r, c);
    var a, b := ps[k].0, ps[k].1;
    AllPairsExactly(m, a, b);
    assert ps[k] in ps;
    assert a < b < m && e == Edge(ids[a], ids[b], r, c);
  }

  /** Every pair a < b < m of the first m ids has its edge. */
  lemma PairIsPairEdge(ids: seq<string>, m: nat, r: Relation, c: string, a: nat, b: nat)
    requires m <= |ids| && a < b < m
    ensures Edge(ids[a], ids[b], r, c) in PairEdges(ids, AllPairs(m), r, c)
  {
    var ps := AllPairs(m);
    var e := Edge(ids[a], ids[b], r, c);
    PairEdgesMembers(ids, ps, r, c, e);
    AllPairsExactly(m, a, b);
    var k :| 0 <= k < |ps| && ps[k] == (a, b);
    assert e == Edge(At(ids, ps[k].0), At(ids, ps[k].1), r, c);
  }

  /** An edge comes out of a group exactly when it joins ids[a] to ids[b] for some
      a < b below the cap, labelled with the relation and the shared value. */
  lemma GroupEdgeMembers(ids: seq<string>, r: Relation, val: string, txs: seq<Tx>, e: Edge)
    ensures e in EdgesOf(GroupOps(ids, r, val, txs)) <==>
      exists a: nat, b: nat :: a < b < CapFor(r, |ids|) && e == Edge(ids[a], ids[b], r, GroupCaption(r, val))
  {
    GroupEdgesArePairs(ids, r, val, txs);
    var m := CapFor(r, |ids|);
    var c := GroupCaption(r, val);
    if |ids| >= 2 {
      if e in PairEdges(ids, AllPairs(m), r, c) {
        PairEdgeIsPair(ids, m, r, c, e);
      }
      if exists a: nat, b: nat :: a < b < m && e == Edge(ids[a], ids[b], r, c) {
        var a: nat, b: nat :| a < b < m && e == Edge(ids[a], ids[b], r, c);
        PairIsPairEdge(ids, m, r, c, a, b);
      }
    }
  }
}
