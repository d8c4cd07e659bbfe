/**
 * Nodes and edges as the renderer receives them, the edge identity key and
 * edge deduplication, shared by the dashboard graph and the transaction panel.
 */
module Graph {
  import opened Records

  /** The relation an edge stands for (the source tells them apart by colour and label). */
  datatype Relation =
    | Credit | Debit
    | SharedEmail | SharedPhone | SharedAddress | SharedPayment
    | SameIp | SameDevice

  datatype Edge = Edge(from: string, to: string, relation: Relation, caption: string)

  /** A user is drawn as a dot whose size is kept in half-units (`halfSize` = 2 * size);
      a transaction is drawn as a box coloured by its class. */
  datatype Node = UserNode(id: string, halfSize: nat) | TxNode(id: string, txClass: TxClass)

  /** The size every user dot is created with (16), in half-units. */
  const CreatedHalfSize: nat := 32

  /** The deduplication key `${from}<sep>${to}<sep>${label}`, the label being the caption. */
  function EdgeKey(e: Edge, sep: string): string
  {
    e.from + sep + e.to + sep + e.caption
  }

  /** The keys of a sequence of edges: the content of the seen-edges Set. */
  function KeysOf(es: seq<Edge>, sep: string): set<string>
  {
    if es == [] then {} else KeysOf(es[..|es| - 1], sep) + {EdgeKey(es[|es| - 1], sep)}
  }

  /** The edges that `addEdge` actually pushes when it is called with `trace` in
      order: an edge whose key was already seen is skipped. */
  function DedupEdges(trace: seq<Edge>, sep: string): seq<Edge>
  {
    if trace == [] then []
    else
      var front, e := trace[..|trace| - 1], trace[|trace| - 1];
      if EdgeKey(e, sep) in KeysOf(front, sep) then DedupEdges(front, sep)
      else DedupEdges(front, sep) + [e]
  }

  /** No two edges in `es` share a key. */
  predicate KeysDistinct(es: seq<Edge>, sep: string)
  {
    forall i, j :: 0 <= i < j < |es| ==> EdgeKey(es[i], sep) != EdgeKey(es[j], sep)
  }

  /** `i` is the first position of `t` whose edge carries key `k`. */
  predicate FirstWithKey(t: seq<Edge>, i: int, sep: string)
  {
    0 <= i < |t| && forall m :: 0 <= m < i ==> EdgeKey(t[m], sep) != EdgeKey(t[i], sep)
  }

  lemma {:induction false} KeysOfMembers(es: seq<Edge>, sep: string)
    ensures forall k :: k in KeysOf(es, sep) <==> exists i :: 0 <= i < |es| && EdgeKey(es[i], sep) == k
  {
    if es != [] {
      var front := es[..|es| - 1];
      KeysOfMembers(front, sep);
      forall k | k in KeysOf(es, sep)
        ensures exists i :: 0 <= i < |es| && EdgeKey(es[i], sep) == k
      {
        if k in KeysOf(front, sep) {
          var i :| 0 <= i < |front| && EdgeKey(front[i], sep) == k;
          assert es[i] == front[i];
        }
      }
      forall k, i | 0 <= i < |es| && EdgeKey(es[i], sep) == k
        ensures k in KeysOf(es, sep)
      {
        if i < |front| {
          assert front[i] == es[i];
        }
      }
    }
  }

  /** The pushed edges are drawn from the attempted ones and are no more numerous. */
  lemma {:induction false} DedupEdgesDrawn(trace: seq<Edge>, sep: string)
    ensures forall e :: e in DedupEdges(trace, sep) ==> e in trace
    ensures |DedupEdges(trace, sep)| <= |trace|
  {
    if trace != [] {
      DedupEdgesDrawn(trace[..|trace| - 1], sep);
    }
  }

  /** Every attempted key is present among the pushed edges, and no other. */
  lemma {:induction false} DedupEdgesKeys(trace: seq<Edge>, sep: string)
    ensures KeysOf(DedupEdges(trace, sep), sep) == KeysOf(trace, sep)
  {
    if trace != [] {
      DedupEdgesKeys(trace[..|trace| - 1], sep);
    }
  }

  /** The pushed edges have pairwise distinct keys. */
  lemma {:induction false} DedupEdgesDistinct(trace: seq<Edge>, sep: string)
    ensures KeysDistinct(DedupEdges(trace, sep), sep)
  {
    if trace != [] {
      var front, e := trace[..|trace| - 1], trace[|trace| - 1];
      DedupEdgesDistinct(front, sep);
      DedupEdgesKeys(front, sep);
      var d := DedupEdges(front, sep);
      if EdgeKey(e, sep) !in KeysOf(front, sep) {
        KeysOfMembers(d, sep);
        forall i, j | 0 <= i < j < |d + [e]|
          ensures EdgeKey((d + [e])[i], sep) != EdgeKey((d + [e])[j], sep)
        {
          if j == |d| {
            assert (d + [e])[i] == d[i];
          }
        }
      }
    }
  }

  /** The edge kept for a key is the first one attempted with it. */
  lemma {:induction false} DedupEdgesFirstWins(trace: seq<Edge>, sep: string, i: int)
    requires FirstWithKey(trace, i, sep)
    ensures trace[i] in DedupEdges(trace, sep)
  {
    var front, e := trace[..|trace| - 1], trace[|trace| - 1];
    if i < |front| {
      assert FirstWithKey(front, i, sep);
      DedupEdgesFirstWins(front, sep, i);
    } else {
      KeysOfMembers(front, sep);
      assert forall m :: 0 <= m < |front| ==> front[m] == trace[m];
      assert EdgeKey(e, sep) !in KeysOf(front, sep);
    }
  }

  /** Two attempts between the same endpoints with different captions have different
      keys: the same pair sharing two different values gets two edges. */
  lemma DifferentLabelsDifferentKeys(a: Edge, b: Edge, sep: string)
    requires a.from == b.from && a.to == b.to && a.caption != b.caption
    ensures EdgeKey(a, sep) != EdgeKey(b, sep)
  {
    var p := a.from + sep + a.to + sep;
    assert EdgeKey(a, sep)[|p|..] == a.caption;
    assert EdgeKey(b, sep)[|p|..] == b.caption;
  }

  /** Splitting at the first occurrence of a separator character is unique. */
  lemma SplitAtSeparator(a: string, x: string, b: string, y: string, c: char)
    requires c !in a && c !in b
    requires a + [c] + x == b + [c] + y
    ensures a == b && x == y
  {
    var s := a + [c] + x;
    assert s[|a|] == c && s[|b|] == c;
    assert |a| == |b|;
    assert a == s[..|a|] == b;
    assert x == s[|a| + 1..] == y;
  }

  /** When no endpoint id contains the separator's first character, the key
      determines the endpoints and the caption. */
  lemma KeyInjective(a: Edge, b: Edge, sep: string)
    requires |sep| > 0
    requires sep[0] !in a.from && sep[0] !in a.to && sep[0] !in b.from && sep[0] !in b.to
    requires EdgeKey(a, sep) == EdgeKey(b, sep)
    ensures a.from == b.from && a.to == b.to && a.caption == b.caption
  {
    KeyShape(a, sep);
    KeyShape(b, sep);
    SplitAtSep(a.from, a.to + sep + a.caption, b.from, b.to + sep + b.caption, sep);
    SplitAtSep(a.to, a.caption, b.to, b.caption, sep);
  }

  lemma KeyShape(e: Edge, sep: string)
    ensures EdgeKey(e, sep) == e.from + sep + (e.to + sep + e.caption)
  {
  }

  /** Splitting at the first occurrence of a separator is unique when its first
      character is in neither head. */
  lemma SplitAtSep(a: string, x: string, b: string, y: string, sep: string)
    requires |sep| > 0 && sep[0] !in a && sep[0] !in b
    requires a + sep + x == b + sep + y
    ensures a == b && x == y
  {
    var c, rest := sep[0], sep[1..];
    SepShape(a, sep, x);
    SepShape(b, sep, y);
    SplitAtSeparator(a, rest + x, b, rest + y, c);
    DropSame(rest, x, y);
  }

  lemma SepShape(a: string, sep: string, x: string)
    requires |sep| > 0
    ensures a + sep + x == a + [sep[0]] + (sep[1..] + x)
  {
    assert sep == [sep[0]] + sep[1..];
  }

  lemma DropSame(p: string, x: string, y: string)
    requires p + x == p + y
    ensures x == y
  {
    assert x == (p + x)[|p|..];
    assert y == (p + y)[|p|..];
  }
}
