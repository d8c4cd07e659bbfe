/**
 * What the filter record does to the dashboard graph: an edge is drawn only when
 * its flags are on, and switching one relation's flag off removes exactly the
 * edges of that relation and nothing else.
 */
module DashboardFilters {
  import opened Records
  import opened Pairs
  import opened AttributeIndex
  import opened Filters
  import opened Graph
  import opened DashboardSpec
  import opened DashboardProps

  /** The flags an edge of relation r needs: credit and debit need users,
      transactions and their own flag; a shared user attribute needs users and
      its flag; same IP and same device need transactions and their flag. */
  predicate Allowed(r: Relation, f: FilterConfig)
  {
    match r
    case Credit => f.users && f.txs && f.credit
    case Debit => f.users && f.txs && f.debit
    case SharedEmail => f.users && f.email
    case SharedPhone => f.users && f.phone
    case SharedAddress => f.users && f.address
    case SharedPayment => f.users && f.payment
    case SameIp => f.txs && f.ip
    case SameDevice => f.txs && f.device
  }

  /** The relation's own switch. */
  function Flag(f: FilterConfig, r: Relation): bool
  {
    match r
    case Credit => f.credit
    case Debit => f.debit
    case SharedEmail => f.email
    case SharedPhone => f.phone
    case SharedAddress => f.address
    case SharedPayment => f.payment
    case SameIp => f.ip
    case SameDevice => f.device
  }

  /** The filter record with r's switch turned off. */
  function Disable(f: FilterConfig, r: Relation): (g: FilterConfig)
    ensures !Flag(g, r)
    ensures g.users == f.users && g.txs == f.txs
  {
    FilterConfig(
      f.users, f.txs, f.credit && r != Credit, f.debit && r != Debit,
      f.email && r != SharedEmail, f.phone && r != SharedPhone,
      f.address && r != SharedAddress, f.payment && r != SharedPayment,
      f.ip && r != SameIp, f.device && r != SameDevice)
  }

  /** The edges of `es` that are not of relation r, in order. */
  function Without(es: seq<Edge>, r: Relation): seq<Edge>
  {
    if es == [] then []
    else Without(es[..|es| - 1], r) + (if es[|es| - 1].relation == r then [] else [es[|es| - 1]])
  }

  /** An edge survives the removal exactly when it is not of relation r. */
  lemma {:induction false} WithoutMembers(es: seq<Edge>, r: Relation, e: Edge)
    ensures e in Without(es, r) <==> e in es && e.relation != r
  {
    if es != [] {
      var front, x := es[..|es| - 1], es[|es| - 1];
      assert es == front + [x];
      WithoutMembers(front, r, e);
    }
  }

  /** Removing the only relation present leaves nothing. */
  lemma {:induction false} WithoutAll(es: seq<Edge>, r: Relation)
    requires forall e :: e in es ==> e.relation == r
    ensures Without(es, r) == []
  {
    if es != [] {
      var front := es[..|es| - 1];
      assert forall e :: e in front ==> e in es;
      WithoutAll(front, r);
    }
  }

  lemma {:induction false} WithoutConcat(a: seq<Edge>, b: seq<Edge>, r: Relation)
    ensures Without(a + b, r) == Without(a, r) + Without(b, r)
  {
    if b == [] {
      assert a + b == a;
    } else {
      WithoutConcat(a, b[..|b| - 1], r);
      assert (a + b)[..|a + b| - 1] == a + b[..|b| - 1];
    }
  }

  /** Removing a relation no edge has changes nothing. */
  lemma {:induction false} WithoutNone(es: seq<Edge>, r: Relation)
    requires forall e :: e in es ==> e.relation != r
    ensures Without(es, r) == es
  {
    if es != [] {
      var front, x := es[..|es| - 1], es[|es| - 1];
      assert es == front + [x];
      forall e | e in front
        ensures e.relation != r
      {
        assert e in es;
      }
      WithoutNone(front, r);
      WithoutSnoc(front, x, r);
    }
  }

  // ---------------- well-labelled edges ----------------

  /** The caption of the edge names the edge's relation. */
  predicate Labelled(e: Edge)
  {
    RelationOfCaption(e.caption) == Some(e.relation)
  }

  /** Neither end of the edge contains the key separator's character. */
  predicate BarFree(e: Edge)
  {
    '|' !in e.from && '|' !in e.to
  }

  predicate IdsBarFree(ids: seq<string>)
  {
    forall k :: 0 <= k < |ids| ==> '|' !in ids[k]
  }

  /** No id handed to the assembler contains '|'. */
  ghost predicate InputBarFree(txs: seq<Tx>, ix: Indices)
  {
    && (forall tx :: tx in txs ==> '|' !in tx.id && '|' !in tx.senderId && '|' !in tx.receiverId)
    && GroupsBarFree(ix.email) && GroupsBarFree(ix.phone) && GroupsBarFree(ix.address)
    && GroupsBarFree(ix.payment) && GroupsBarFree(ix.ip) && GroupsBarFree(ix.device)
  }

  ghost predicate GroupsBarFree(idx: Index)
  {
    forall v :: v in idx.groups ==> IdsBarFree(idx.groups[v])
  }

  /** What each edge of a list of attempts is known to satisfy. */
  ghost predicate Shaped(es: seq<Edge>, f: FilterConfig, barFree: bool)
  {
    forall e :: e in es ==> Allowed(e.relation, f) && Labelled(e) && (barFree ==> BarFree(e))
  }

  lemma ShapedConcat(a: seq<Edge>, b: seq<Edge>, f: FilterConfig, barFree: bool)
    requires Shaped(a, f, barFree) && Shaped(b, f, barFree)
    ensures Shaped(a + b, f, barFree)
  {
  }

  // ---------------- the transaction step ----------------

  /** The ensured nodes of a transaction draw no edge. */
  lemma {:induction false} NoEdgeOps(ops: seq<Op>)
    requires forall k :: 0 <= k < |ops| ==> !ops[k].AddEdgeOp?
    ensures EdgesOf(ops) == []
  {
    if ops != [] {
      NoEdgeOps(ops[..|ops| - 1]);
    }
  }

  lemma EdgesOfOne(e: Edge)
    ensures EdgesOf([AddEdgeOp(e)]) == [e]
  {
    EdgesOfSnoc([], AddEdgeOp(e));
    assert [] + [AddEdgeOp(e)] == [AddEdgeOp(e)];
  }

  /** One transaction attempts its credit edge, then its debit edge, each when its flags are on. */
  lemma TxOpsEdges(tx: Tx, f: FilterConfig)
    ensures EdgesOf(TxOps(tx, f))
         == (if f.credit && f.users && f.txs then [CreditEdge(tx)] else []) +
            (if f.debit && f.users && f.txs then [DebitEdge(tx)] else [])
  {
    var ns := TxNodeOps(tx, f);
    var c := if f.credit && f.users && f.txs then [AddEdgeOp(CreditEdge(tx))] else [];
    var d := if f.debit && f.users && f.txs then [AddEdgeOp(DebitEdge(tx))] else [];
    NoEdgeOps(ns);
    EdgesOfConcat(ns, c + d);
    EdgesOfConcat(c, d);
    EdgesOfOne(CreditEdge(tx));
    EdgesOfOne(DebitEdge(tx));
  }

  lemma CreditDebitLabelled(tx: Tx)
    ensures Labelled(CreditEdge(tx)) && Labelled(DebitEdge(tx))
  {
    var sid, rid := tx.senderId, tx.receiverId;
    assert CreditCaption(sid, tx.id) == CaptionHead(Credit) + (sid + " \U{2192} " + tx.id);
    assert DebitCaption(tx.id, rid) == CaptionHead(Debit) + (tx.id + " \U{2192} " + rid);
    CaptionNamesRelation(Credit, sid + " \U{2192} " + tx.id);
    CaptionNamesRelation(Debit, tx.id + " \U{2192} " + rid);
  }

  lemma TxOpsShaped(tx: Tx, f: FilterConfig, barFree: bool)
    requires barFree ==> '|' !in tx.id && '|' !in tx.senderId && '|' !in tx.receiverId
    ensures Shaped(EdgesOf(TxOps(tx, f)), f, barFree)
  {
    TxOpsEdges(tx, f);
    CreditDebitLabelled(tx);
  }

  lemma {:induction false} TxsEdgesShaped(txs: seq<Tx>, f: FilterConfig, barFree: bool)
    requires barFree ==> forall tx :: tx in txs ==> '|' !in tx.id && '|' !in tx.senderId && '|' !in tx.receiverId
    ensures Shaped(EdgesOf(TxsOps(txs, f)), f, barFree)
  {
    if txs != [] {
      var front, tx := txs[..|txs| - 1], txs[|txs| - 1];
      assert forall t :: t in front ==> t in txs;
      TxsEdgesShaped(front, f, barFree);
      TxOpsShaped(tx, f, barFree);
      EdgesOfConcat(TxsOps(front, f), TxOps(tx, f));
      ShapedConcat(EdgesOf(TxsOps(front, f)), EdgesOf(TxOps(tx, f)), f, barFree);
    }
  }

  lemma WithoutOne(e: Edge, r: Relation)
    ensures Without([e], r) == if e.relation == r then [] else [e]
  {
    assert [e][..0] == [];
  }

  /** The credit or debit attempt of one transaction, present when `on`. */
  function Maybe(on: bool, e: Edge): seq<Edge>
  {
    if on then [e] else []
  }

  lemma WithoutMaybe(on: bool, e: Edge, r: Relation)
    ensures Without(Maybe(on, e), r) == Maybe(on && e.relation != r, e)
  {
    if on {
      WithoutOne(e, r);
    }
  }

  lemma TxOpsDisable(tx: Tx, f: FilterConfig, r: Relation)
    ensures EdgesOf(TxOps(tx, Disable(f, r))) == Without(EdgesOf(TxOps(tx, f)), r)
  {
    var g := Disable(f, r);
    var on := f.users && f.txs;
    TxOpsEdges(tx, f);
    TxOpsEdges(tx, g);
    var c, d := Maybe(f.credit && on, CreditEdge(tx)), Maybe(f.debit && on, DebitEdge(tx));
    assert EdgesOf(TxOps(tx, f)) == c + d;
    assert EdgesOf(TxOps(tx, g)) == Maybe(g.credit && on, CreditEdge(tx)) + Maybe(g.debit && on, DebitEdge(tx));
    WithoutConcat(c, d, r);
    WithoutMaybe(f.credit && on, CreditEdge(tx), r);
    WithoutMaybe(f.debit && on, DebitEdge(tx), r);
  }

  /** Turning r off removes exactly the credit or debit attempts of relation r. */
  lemma {:induction false} TxsEdgesDisable(txs: seq<Tx>, f: FilterConfig, r: Relation)
    ensures EdgesOf(TxsOps(txs, Disable(f, r))) == Without(EdgesOf(TxsOps(txs, f)), r)
  {
    if txs != [] {
      var front, tx := txs[..|txs| - 1], txs[|txs| - 1];
      var g := Disable(f, r);
      TxsEdgesDisable(front, f, r);
      EdgesOfConcat(TxsOps(front, f), TxOps(tx, f));
      EdgesOfConcat(TxsOps(front, g), TxOps(tx, g));
      WithoutConcat(EdgesOf(TxsOps(front, f)), EdgesOf(TxOps(tx, f)), r);
      TxOpsDisable(tx, f, r);
    }
  }

  // ---------------- the attribute sections ----------------

  /** Every attempt of a list of pairs carries the relation and caption given, and
      joins two of the ids (or the empty id past their end). */
  lemma {:induction false} PairEdgesShape(ids: seq<string>, ps: seq<(nat, nat)>, r: Relation, caption: string)
    ensures forall e :: e in PairEdges(ids, ps, r, caption) ==>
      e.relation == r && e.caption == caption && (IdsBarFree(ids) ==> BarFree(e))
  {
    if ps != [] {
      PairEdgesShape(ids, ps[..|ps| - 1], r, caption);
    }
  }

  /** The attempts of one map entry are of relation r and labelled with it. */
  lemma GroupEdgesShape(ids: seq<string>, r: Relation, val: string, txs: seq<Tx>)
    ensures forall e :: e in EdgesOf(GroupOps(ids, r, val, txs)) ==>
      e.relation == r && Labelled(e) && (IdsBarFree(ids) ==> BarFree(e))
  {
    GroupEdgesArePairs(ids, r, val, txs);
    if |ids| >= 2 {
      PairEdgesShape(ids, AllPairs(CapFor(r, |ids|)), r, GroupCaption(r, val));
      CaptionNamesRelation(r, val);
    }
  }

  lemma {:induction false} IndexEdgesShape(idx: Index, r: Relation, txs: seq<Tx>, t: nat)
    requires WellFormed(idx) && t <= |idx.keys|
    ensures forall e :: e in EdgesOf(IndexOps(idx, r, txs, t)) ==>
      e.relation == r && Labelled(e) && (GroupsBarFree(idx) ==> BarFree(e))
  {
    if t > 0 {
      var v := idx.keys[t - 1];
      IndexEdgesShape(idx, r, txs, t - 1);
      EdgesOfConcat(IndexOps(idx, r, txs, t - 1), GroupOps(idx.groups[v], r, v, txs));
      GroupEdgesShape(idx.groups[v], r, v, txs);
    }
  }

  /** A section draws nothing when its switch is off, and only its own relation otherwise. */
  lemma SectionEdgesShape(idx: Index, r: Relation, on: bool, txs: seq<Tx>)
    requires WellFormed(idx)
    ensures !on ==> EdgesOf(SectionOps(idx, r, on, txs)) == []
    ensures forall e :: e in EdgesOf(SectionOps(idx, r, on, txs)) ==>
      e.relation == r && Labelled(e) && (GroupsBarFree(idx) ==> BarFree(e))
  {
    if on {
      IndexEdgesShape(idx, r, txs, |idx.keys|);
    }
  }

  /** Turning r off empties r's own section and leaves every other section alone. */
  lemma SectionDisable(idx: Index, s: Relation, on: bool, r: Relation, txs: seq<Tx>)
    requires WellFormed(idx)
    ensures EdgesOf(SectionOps(idx, s, on && s != r, txs)) == Without(EdgesOf(SectionOps(idx, s, on, txs)), r)
  {
    SectionEdgesShape(idx, s, on, txs);
    if s == r {
      WithoutAll(EdgesOf(SectionOps(idx, s, on, txs)), r);
    } else {
      WithoutNone(EdgesOf(SectionOps(idx, s, on, txs)), r);
    }
  }

  lemma EdgesOfFour(a: seq<Op>, b: seq<Op>, c: seq<Op>, d: seq<Op>)
    ensures EdgesOf(a + b + c + d) == EdgesOf(a) + EdgesOf(b) + EdgesOf(c) + EdgesOf(d)
  {
    EdgesOfConcat(a + b + c, d);
    EdgesOfConcat(a + b, c);
    EdgesOfConcat(a, b);
  }

  lemma WithoutFour(a: seq<Edge>, b: seq<Edge>, c: seq<Edge>, d: seq<Edge>, r: Relation)
    ensures Without(a + b + c + d, r) == Without(a, r) + Without(b, r) + Without(c, r) + Without(d, r)
  {
    WithoutConcat(a + b + c, d, r);
    WithoutConcat(a + b, c, r);
    WithoutConcat(a, b, r);
  }

  /** A section switched on only when its relation is allowed draws only allowed edges. */
  lemma SectionShaped(idx: Index, r: Relation, on: bool, txs: seq<Tx>, f: FilterConfig, barFree: bool)
    requires WellFormed(idx)
    requires on ==> Allowed(r, f)
    requires barFree ==> GroupsBarFree(idx)
    ensures Shaped(EdgesOf(SectionOps(idx, r, on, txs)), f, barFree)
  {
    SectionEdgesShape(idx, r, on, txs);
  }

  lemma UserSectionsShaped(ix: Indices, f: FilterConfig, txs: seq<Tx>, barFree: bool)
    requires IndicesWellFormed(ix)
    requires barFree ==> GroupsBarFree(ix.email) && GroupsBarFree(ix.phone) && GroupsBarFree(ix.address) && GroupsBarFree(ix.payment)
    ensures Shaped(EdgesOf(UserSectionOps(ix, f, txs)), f, barFree)
  {
    if f.users {
      var a, b := SectionOps(ix.email, SharedEmail, f.email, txs), SectionOps(ix.phone, SharedPhone, f.phone, txs);
      var c, d := SectionOps(ix.address, SharedAddress, f.address, txs), SectionOps(ix.payment, SharedPayment, f.payment, txs);
      EdgesOfFour(a, b, c, d);
      SectionShaped(ix.email, SharedEmail, f.email, txs, f, barFree);
      SectionShaped(ix.phone, SharedPhone, f.phone, txs, f, barFree);
      SectionShaped(ix.address, SharedAddress, f.address, txs, f, barFree);
      SectionShaped(ix.payment, SharedPayment, f.payment, txs, f, barFree);
      ShapedConcat(EdgesOf(a), EdgesOf(b), f, barFree);
      ShapedConcat(EdgesOf(a) + EdgesOf(b), EdgesOf(c), f, barFree);
      ShapedConcat(EdgesOf(a) + EdgesOf(b) + EdgesOf(c), EdgesOf(d), f, barFree);
    } else {
      assert EdgesOf(UserSectionOps(ix, f, txs)) == [];
    }
  }

  lemma ContextSectionsShaped(ix: Indices, f: FilterConfig, txs: seq<Tx>, barFree: bool)
    requires IndicesWellFormed(ix)
    requires barFree ==> GroupsBarFree(ix.ip) && GroupsBarFree(ix.device)
    ensures Shaped(EdgesOf(ContextSectionOps(ix, f, txs)), f, barFree)
  {
    if f.txs {
      var a, b := SectionOps(ix.ip, SameIp, f.ip, txs), SectionOps(ix.device, SameDevice, f.device, txs);
      EdgesOfConcat(a, b);
      SectionShaped(ix.ip, SameIp, f.ip, txs, f, barFree);
      SectionShaped(ix.device, SameDevice, f.device, txs, f, barFree);
      ShapedConcat(EdgesOf(a), EdgesOf(b), f, barFree);
    } else {
      assert EdgesOf(ContextSectionOps(ix, f, txs)) == [];
    }
  }

  lemma UserSectionsDisable(ix: Indices, f: FilterConfig, txs: seq<Tx>, r: Relation)
    requires IndicesWellFormed(ix)
    ensures EdgesOf(UserSectionOps(ix, Disable(f, r), txs)) == Without(EdgesOf(UserSectionOps(ix, f, txs)), r)
  {
    var g := Disable(f, r);
    if f.users {
      var a, b := SectionOps(ix.email, SharedEmail, f.email, txs), SectionOps(ix.phone, SharedPhone, f.phone, txs);
      var c, d := SectionOps(ix.address, SharedAddress, f.address, txs), SectionOps(ix.payment, SharedPayment, f.payment, txs);
      var a', b' := SectionOps(ix.email, SharedEmail, g.email, txs), SectionOps(ix.phone, SharedPhone, g.phone, txs);
      var c', d' := SectionOps(ix.address, SharedAddress, g.address, txs), SectionOps(ix.payment, SharedPayment, g.payment, txs);
      EdgesOfFour(a, b, c, d);
      EdgesOfFour(a', b', c', d');
      WithoutFour(EdgesOf(a), EdgesOf(b), EdgesOf(c), EdgesOf(d), r);
      SectionDisable(ix.email, SharedEmail, f.email, r, txs);
      SectionDisable(ix.phone, SharedPhone, f.phone, r, txs);
      SectionDisable(ix.address, SharedAddress, f.address, r, txs);
      SectionDisable(ix.payment, SharedPayment, f.payment, r, txs);
    }
  }

  lemma ContextSectionsDisable(ix: Indices, f: FilterConfig, txs: seq<Tx>, r: Relation)
    requires IndicesWellFormed(ix)
    ensures EdgesOf(ContextSectionOps(ix, Disable(f, r), txs)) == Without(EdgesOf(ContextSectionOps(ix, f, txs)), r)
  {
    var g := Disable(f, r);
    if f.txs {
      var a, b := SectionOps(ix.ip, SameIp, f.ip, txs), SectionOps(ix.device, SameDevice, f.device, txs);
      var a', b' := SectionOps(ix.ip, SameIp, g.ip, txs), SectionOps(ix.device, SameDevice, g.device, txs);
      EdgesOfConcat(a, b);
      EdgesOfConcat(a', b');
      WithoutConcat(EdgesOf(a), EdgesOf(b), r);
      SectionDisable(ix.ip, SameIp, f.ip, r, txs);
      SectionDisable(ix.device, SameDevice, f.device, r, txs);
    }
  }

  // ---------------- the whole build ----------------

  /** Every attempted edge is allowed by the filter record and names its relation
      in its caption; with bar-free ids its ends are bar-free too. */
  lemma BuildEdgesShaped(txs: seq<Tx>, ix: Indices, f: FilterConfig, barFree: bool)
    requires IndicesWellFormed(ix)
    requires barFree ==> InputBarFree(txs, ix)
    ensures Shaped(EdgesOf(BuildOps(txs, ix, f)), f, barFree)
  {
    var a, b, c := TxsOps(txs, f), UserSectionOps(ix, f, txs), ContextSectionOps(ix, f, txs);
    EdgesOfConcat(a + b, c);
    EdgesOfConcat(a, b);
    TxsEdgesShaped(txs, f, barFree);
    UserSectionsShaped(ix, f, txs, barFree);
    ContextSectionsShaped(ix, f, txs, barFree);
  }

  /** Before deduplication, turning r off removes exactly the attempts of relation r. */
  lemma BuildEdgesDisable(txs: seq<Tx>, ix: Indices, f: FilterConfig, r: Relation)
    requires IndicesWellFormed(ix)
    ensures EdgesOf(BuildOps(txs, ix, Disable(f, r))) == Without(EdgesOf(BuildOps(txs, ix, f)), r)
  {
    var g := Disable(f, r);
    var a, b, c := TxsOps(txs, f), UserSectionOps(ix, f, txs), ContextSectionOps(ix, f, txs);
    var a', b', c' := TxsOps(txs, g), UserSectionOps(ix, g, txs), ContextSectionOps(ix, g, txs);
    EdgesOfConcat(a + b, c);
    EdgesOfConcat(a, b);
    EdgesOfConcat(a' + b', c');
    EdgesOfConcat(a', b');
    WithoutConcat(EdgesOf(a) + EdgesOf(b), EdgesOf(c), r);
    WithoutConcat(EdgesOf(a), EdgesOf(b), r);
    TxsEdgesDisable(txs, f, r);
    UserSectionsDisable(ix, f, txs, r);
    ContextSectionsDisable(ix, f, txs, r);
  }

  // ---------------- deduplication commutes with removing a relation ----------------

  /** No attempt of relation r shares its key with an attempt of another relation. */
  ghost predicate KeySeparated(t: seq<Edge>, r: Relation, sep: string)
  {
    forall a, b :: a in t && b in t && a.relation == r && b.relation != r ==> EdgeKey(a, sep) != EdgeKey(b, sep)
  }

  lemma WithoutSnoc(front: seq<Edge>, e: Edge, r: Relation)
    ensures Without(front + [e], r) == Without(front, r) + (if e.relation == r then [] else [e])
  {
    assert (front + [e])[..|front|] == front;
  }

  lemma DedupSnoc(front: seq<Edge>, e: Edge, sep: string)
    ensures DedupEdges(front + [e], sep)
         == if EdgeKey(e, sep) in KeysOf(front, sep) then DedupEdges(front, sep) else DedupEdges(front, sep) + [e]
  {
    assert (front + [e])[..|front|] == front;
  }

  lemma KeySeparatedFront(front: seq<Edge>, e: Edge, r: Relation, sep: string)
    requires KeySeparated(front + [e], r, sep)
    ensures KeySeparated(front, r, sep)
  {
    assert forall x :: x in front ==> x in front + [e];
  }

  /** An attempt outside relation r meets its key among the earlier attempts exactly
      when it meets it among the earlier attempts outside r. */
  lemma KeySeenWithout(front: seq<Edge>, e: Edge, r: Relation, sep: string)
    requires KeySeparated(front + [e], r, sep) && e.relation != r
    ensures EdgeKey(e, sep) in KeysOf(Without(front, r), sep) <==> EdgeKey(e, sep) in KeysOf(front, sep)
  {
    var w := Without(front, r);
    KeysOfMembers(front, sep);
    KeysOfMembers(w, sep);
    if EdgeKey(e, sep) in KeysOf(front, sep) {
      var i :| 0 <= i < |front| && EdgeKey(front[i], sep) == EdgeKey(e, sep);
      assert front[i] in front + [e] && e in front + [e];
      WithoutMembers(front, r, front[i]);
      assert front[i] in w;
      var j :| 0 <= j < |w| && w[j] == front[i];
    }
    if EdgeKey(e, sep) in KeysOf(w, sep) {
      var i :| 0 <= i < |w| && EdgeKey(w[i], sep) == EdgeKey(e, sep);
      WithoutMembers(front, r, w[i]);
      var j :| 0 <= j < |front| && front[j] == w[i];
    }
  }

  lemma DedupWithoutInduct(front: seq<Edge>, e: Edge, t: seq<Edge>, r: Relation, sep: string)
    requires t == front + [e] && KeySeparated(t, r, sep)
    requires DedupEdges(Without(front, r), sep) == Without(DedupEdges(front, sep), r)
    ensures DedupEdges(Without(t, r), sep) == Without(DedupEdges(t, sep), r)
  {
    var d, k := DedupEdges(front, sep), EdgeKey(e, sep);
    DedupSnoc(front, e, sep);
    WithoutSnoc(front, e, r);
    WithoutSnoc(d, e, r);
    if e.relation == r {
      assert Without(t, r) == Without(front, r);
      assert Without(d + [e], r) == Without(d, r);
    } else {
      var w := Without(front, r);
      assert Without(t, r) == w + [e];
      assert Without(d + [e], r) == Without(d, r) + [e];
      DedupSnoc(w, e, sep);
      KeySeenWithout(front, e, r, sep);
      if k in KeysOf(front, sep) {
        assert DedupEdges(t, sep) == d;
        assert DedupEdges(w + [e], sep) == DedupEdges(w, sep);
      } else {
        assert DedupEdges(t, sep) == d + [e];
        assert DedupEdges(w + [e], sep) == DedupEdges(w, sep) + [e];
      }
    }
  }

  /** When keys never cross relations, deduplicating and then removing r is the same
      as removing r and then deduplicating. */
  lemma {:induction false} DedupWithout(t: seq<Edge>, r: Relation, sep: string)
    requires KeySeparated(t, r, sep)
    ensures DedupEdges(Without(t, r), sep) == Without(DedupEdges(t, sep), r)
  {
    if t != [] {
      var front, e := t[..|t| - 1], t[|t| - 1];
      assert t == front + [e];
      KeySeparatedFront(front, e, r, sep);
      DedupWithout(front, r, sep);
      DedupWithoutInduct(front, e, t, r, sep);
    }
  }

  /** Labelled, bar-free attempts never share a key across relations. */
  lemma SeparatedByCaption(t: seq<Edge>, r: Relation)
    requires forall e :: e in t ==> Labelled(e) && BarFree(e)
    ensures KeySeparated(t, r, Sep)
  {
    forall a, b | a in t && b in t && a.relation == r && b.relation != r
      ensures EdgeKey(a, Sep) != EdgeKey(b, Sep)
    {
      if EdgeKey(a, Sep) == EdgeKey(b, Sep) {
        KeyInjective(a, b, Sep);
        assert false;
      }
    }
  }

  /** The edges the dashboard draws for a filter record. */
  function DrawnEdges(txs: seq<Tx>, ix: Indices, f: FilterConfig): seq<Edge>
    requires IndicesWellFormed(ix)
  {
    DedupEdges(EdgesOf(BuildOps(txs, ix, f)), Sep)
  }

  /** Every drawn edge is allowed by the filter record. */
  lemma DrawnEdgesAllowed(txs: seq<Tx>, ix: Indices, f: FilterConfig, e: Edge)
    requires IndicesWellFormed(ix)
    requires e in DrawnEdges(txs, ix, f)
    ensures Allowed(e.relation, f)
  {
    BuildEdgesShaped(txs, ix, f, false);
    DedupEdgesDrawn(EdgesOf(BuildOps(txs, ix, f)), Sep);
  }

  /** Turning one relation's switch off takes exactly that relation's edges out of the
      drawn graph and keeps every other edge, in order, provided no id contains '|'. */
  lemma DisableRemovesExactlyItsEdges(txs: seq<Tx>, ix: Indices, f: FilterConfig, r: Relation)
    requires IndicesWellFormed(ix) && InputBarFree(txs, ix)
    ensures DrawnEdges(txs, ix, Disable(f, r)) == Without(DrawnEdges(txs, ix, f), r)
  {
    var t := EdgesOf(BuildOps(txs, ix, f));
    BuildEdgesDisable(txs, ix, f, r);
    BuildEdgesShaped(txs, ix, f, true);
    SeparatedByCaption(t, r);
    DedupWithout(t, r, Sep);
  }
}
