/**
 * The order in which the engine enumerates the unordered pairs of a group:
 * `for (i = 0; i < n; i++) for (j = i + 1; j < n; j++)`. Every pairwise
 * expansion in the dashboard graph and in the transaction panel follows it.
 */
module Pairs {

  /** The pairs (i, b) with i < b < j, in increasing b: one pass of the inner loop
      stopped before j. */
  function Row(i: nat, j: nat): (r: seq<(nat, nat)>)
    ensures |r| == if j <= i + 1 then 0 else j - i - 1
    decreases j
  {
    if j <= i + 1 then [] else Row(i, j - 1) + [(i, j - 1)]
  }

  /** The k-th pair of a row is (i, i + 1 + k). */
  lemma {:induction false} RowAt(i: nat, j: nat, k: nat)
    requires k < |Row(i, j)|
    ensures Row(i, j)[k] == (i, i + 1 + k) && i + 1 + k < j
    decreases j
  {
    if k < |Row(i, j - 1)| {
      RowAt(i, j - 1, k);
    }
  }

  /** The pairs (a, b) with a < i and a < b < n: the outer loop stopped before i. */
  function Rows(i: nat, n: nat): seq<(nat, nat)>
  {
    if i == 0 then [] else Rows(i - 1, n) + Row(i - 1, n)
  }

  /** Every pair the outer loop stopped before i has produced is some (a, b) with a < i and a < b < n. */
  lemma {:induction false} RowsAt(i: nat, n: nat, k: nat)
    requires k < |Rows(i, n)|
    ensures Rows(i, n)[k].0 < i && Rows(i, n)[k].0 < Rows(i, n)[k].1 < n
  {
    var front := Rows(i - 1, n);
    if k < |front| {
      RowsAt(i - 1, n, k);
    } else {
      RowAt(i - 1, n, k - |front|);
    }
  }

  /** Every unordered pair of positions below n. */
  function AllPairs(n: nat): seq<(nat, nat)>
  {
    Rows(n, n)
  }

  /** Lexicographic order on pairs. */
  predicate LexLess(p: (nat, nat), q: (nat, nat))
  {
    p.0 < q.0 || (p.0 == q.0 && p.1 < q.1)
  }

  /** The outer loop stopped before i has produced sum over a < i of (n - 1 - a) pairs. */
  lemma {:induction false} RowsCount(i: nat, n: nat)
    requires i <= n
    ensures 2 * |Rows(i, n)| == 2 * i * n - i * (i + 1)
  {
    if i > 0 {
      var k: nat := i - 1;
      RowsCount(k, n);
      RowsCountInduct(k, i, n);
    }
  }

  lemma RowsCountInduct(k: nat, i: nat, n: nat)
    requires i == k + 1 <= n
    requires 2 * |Rows(k, n)| == 2 * k * n - k * (k + 1)
    ensures 2 * |Rows(i, n)| == 2 * i * n - i * (i + 1)
  {
    RowsUnfold(k, i, n);
    CountArith(k, i, n, |Rows(k, n)|);
  }

  /** The rows before i are the rows before k = i - 1 followed by row k. */
  lemma RowsUnfold(k: nat, i: nat, n: nat)
    requires i == k + 1
    ensures Rows(i, n) == Rows(k, n) + Row(k, n)
  {
  }

  lemma CountArith(k: nat, i: nat, n: nat, c: int)
    requires i == k + 1 <= n && 2 * c == 2 * k * n - k * (k + 1)
    ensures 2 * (c + (n - i)) == 2 * i * n - i * (i + 1)
  {
    assert 2 * i * n == 2 * k * n + 2 * n;
    assert i * (i + 1) == k * (k + 1) + 2 * k + 2;
  }

  /** A group of n ids yields exactly n(n-1)/2 pairs. */
  lemma AllPairsCount(n: nat)
    ensures 2 * |AllPairs(n)| == n * (n - 1)
  {
    RowsCount(n, n);
  }

  /** Every pair a < b < n with a below the outer bound has been produced. */
  lemma {:induction false} RowsComplete(i: nat, n: nat, a: nat, b: nat)
    requires a < i && a < b < n
    ensures (a, b) in Rows(i, n)
  {
    if a == i - 1 {
      RowAt(i - 1, n, b - i);
    } else {
      RowsComplete(i - 1, n, a, b);
    }
  }

  /** AllPairs(n) holds exactly the pairs a < b < n. */
  lemma AllPairsExactly(n: nat, a: nat, b: nat)
    ensures (a, b) in AllPairs(n) <==> a < b < n
  {
    if a < b < n {
      RowsComplete(n, n, a, b);
    }
    if (a, b) in AllPairs(n) {
      var k :| 0 <= k < |AllPairs(n)| && AllPairs(n)[k] == (a, b);
      RowsAt(n, n, k);
    }
  }

  /** Pairs come out strictly increasing in lexicographic order, so none twice. */
  lemma {:induction false} RowsSorted(i: nat, n: nat)
    ensures forall k, l :: 0 <= k < l < |Rows(i, n)| ==> LexLess(Rows(i, n)[k], Rows(i, n)[l])
  {
    if i > 0 {
      RowsSorted(i - 1, n);
      var front, back := Rows(i - 1, n), Row(i - 1, n);
      assert Rows(i, n) == front + back;
      forall k, l | 0 <= k < l < |front + back|
        ensures LexLess((front + back)[k], (front + back)[l])
      {
        if l < |front| {
        } else if k < |front| {
          assert (front + back)[k] == front[k];
          assert (front + back)[l] == back[l - |front|];
          RowsAt(i - 1, n, k);
          RowAt(i - 1, n, l - |front|);
        } else {
          assert (front + back)[k] == back[k - |front|];
          assert (front + back)[l] == back[l - |front|];
          RowAt(i - 1, n, k - |front|);
          RowAt(i - 1, n, l - |front|);
        }
      }
    }
  }
}
