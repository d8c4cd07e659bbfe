/**
 * The transaction panel's data step: splitting the users of the
 * transaction-relationship response into senders and receivers, and
 * `findShared`, which lists every pair of users sharing an attribute value in
 * a group that touches one of them.
 */
module TxFocus {
  import opened Records
  import opened Pairs
  import opened AttributeIndex
  import opened Graph

  /** A user entry of the response: the user's id and how it is linked to the transaction. */
  datatype UserLink = UserLink(id: string, linkType: string)

  /** The ids of the entries linked by `linkType`, in response order
      (`users.filter(u => u.link_type === t).map(u => u.data.id)`). */
  function LinkedIds(us: seq<UserLink>, linkType: string): (ids: seq<string>)
    ensures |ids| <= |us|
  {
    if us == [] then []
    else LinkedIds(us[..|us| - 1], linkType) + (if us[|us| - 1].linkType == linkType then [us[|us| - 1].id] else [])
  }

  lemma LinkedIdsMembers(us: seq<UserLink>, linkType: string, x: string)
    ensures x in LinkedIds(us, linkType) <==> exists k :: 0 <= k < |us| && us[k].linkType == linkType && us[k].id == x
  {
    if x in LinkedIds(us, linkType) {
      LinkedIdsSound(us, linkType, x);
    }
    if exists k :: 0 <= k < |us| && us[k].linkType == linkType && us[k].id == x {
      var k :| 0 <= k < |us| && us[k].linkType == linkType && us[k].id == x;
      LinkedIdsComplete(us, linkType, k);
    }
  }

  /** Every id listed comes from a link of the type. */
  lemma {:induction false} LinkedIdsSound(us: seq<UserLink>, linkType: string, x: string)
    requires x in LinkedIds(us, linkType)
    ensures exists k :: 0 <= k < |us| && us[k].linkType == linkType && us[k].id == x
  {
    var front, last := us[..|us| - 1], us[|us| - 1];
    if x in LinkedIds(front, linkType) {
      LinkedIdsSound(front, linkType, x);
      var k :| 0 <= k < |front| && front[k].linkType == linkType && front[k].id == x;
      assert us[k] == front[k];
    } else {
      assert last.linkType == linkType && last.id == x;
    }
  }

  /** Every link of the type has its id listed. */
  lemma {:induction false} LinkedIdsComplete(us: seq<UserLink>, linkType: string, k: nat)
    requires k < |us| && us[k].linkType == linkType
    ensures us[k].id in LinkedIds(us, linkType)
  {
    var front := us[..|us| - 1];
    if k < |front| {
      LinkedIdsComplete(front, linkType, k);
      assert front[k] == us[k];
    }
  }

  function SenderIds(us: seq<UserLink>): seq<string>
  {
    LinkedIds(us, "INITIATED")
  }

  function ReceiverIds(us: seq<UserLink>): seq<string>
  {
    LinkedIds(us, "RECEIVED")
  }

  /** The senders and receivers together. */
  function InvolvedIds(us: seq<UserLink>): set<string>
  {
    (set x | x in SenderIds(us)) + (set x | x in ReceiverIds(us))
  }

  // ---------------- shared links ----------------

  /** Two users sharing the attribute value `val` of relation `relation`. */
  datatype SharedLink = SharedLink(u1: string, u2: string, relation: Relation, val: string)

  /** ids[k], or "" past the end. */
  function At(ids: seq<string>, k: nat): string
  {
    if k < |ids| then ids[k] else ""
  }

  /** The links of a list of index pairs into `ids`, in the same order. */
  function PairLinks(ids: seq<string>, ps: seq<(nat, nat)>, r: Relation, val: string): (ls: seq<SharedLink>)
    ensures |ls| == |ps|
  {
    if ps == [] then []
    else PairLinks(ids, ps[..|ps| - 1], r, val) + [SharedLink(At(ids, ps[|ps| - 1].0), At(ids, ps[|ps| - 1].1), r, val)]
  }

  /** Some id of the group is a sender or a receiver (`ids.some(uid => involvedIds.has(uid))`). */
  predicate TouchesInvolved(ids: seq<string>, involved: set<string>)
  {
    exists k :: 0 <= k < |ids| && ids[k] in involved
  }

  /** The links of one map entry: every pair a < b of its ids, in loop order, when the
      group has two ids or more and one of them is involved; none otherwise. */
  function GroupLinks(ids: seq<string>, r: Relation, val: string, involved: set<string>): seq<SharedLink>
  {
    if !TouchesInvolved(ids, involved) || |ids| < 2 then [] else PairLinks(ids, AllPairs(|ids|), r, val)
  }

  /** The links of the first t entries of a map, in Object.entries order. */
  function MapLinks(idx: Index, r: Relation, involved: set<string>, t: nat): seq<SharedLink>
    requires WellFormed(idx) && t <= |idx.keys|
  {
    if t == 0 then []
    else MapLinks(idx, r, involved, t - 1) + GroupLinks(idx.groups[idx.keys[t - 1]], r, idx.keys[t - 1], involved)
  }

  lemma PairLinksSnoc(ids: seq<string>, ps: seq<(nat, nat)>, p: (nat, nat), r: Relation, val: string)
    ensures PairLinks(ids, ps + [p], r, val) == PairLinks(ids, ps, r, val) + [SharedLink(At(ids, p.0), At(ids, p.1), r, val)]
  {
    assert (ps + [p])[..|ps|] == ps;
  }

  lemma {:induction false} PairLinksConcat(ids: seq<string>, ps: seq<(nat, nat)>, qs: seq<(nat, nat)>, r: Relation, val: string)
    ensures PairLinks(ids, ps + qs, r, val) == PairLinks(ids, ps, r, val) + PairLinks(ids, qs, r, val)
    decreases |qs|
  {
    if qs != [] {
      var front, q := qs[..|qs| - 1], qs[|qs| - 1];
      assert qs == front + [q];
      assert ps + qs == (ps + front) + [q];
      PairLinksSnoc(ids, ps + front, q, r, val);
      PairLinksConcat(ids, ps, front, r, val);
      PairLinksSnoc(ids, front, q, r, val);
    } else {
      assert ps + qs == ps;
    }
  }

  lemma AppendAssoc(a: seq<SharedLink>, b: seq<SharedLink>, c: seq<SharedLink>)
    ensures (a + b) + c == a + (b + c)
  {
  }

  /** One pass of the inner loop appends the link of (i, j). */
  lemma AppendRowStep(ids: seq<string>, i: nat, j: nat, r: Relation, val: string, links: seq<SharedLink>, out: seq<SharedLink>)
    requires i < j < |ids| && out == links + PairLinks(ids, Row(i, j), r, val)
    ensures out + [SharedLink(ids[i], ids[j], r, val)] == links + PairLinks(ids, Row(i, j + 1), r, val)
  {
    var p: (nat, nat) := (i, j);
    assert Row(i, j + 1) == Row(i, j) + [p];
    PairLinksSnoc(ids, Row(i, j), p, r, val);
    AppendAssoc(links, PairLinks(ids, Row(i, j), r, val), [SharedLink(ids[i], ids[j], r, val)]);
  }

  /** The inner loop of `findShared`: appends the links of (i, i+1), ..., (i, |ids|-1). */
  method AppendRow(ids: seq<string>, i: nat, r: Relation, val: string, links: seq<SharedLink>) returns (out: seq<SharedLink>)
    requires i < |ids|
    ensures out == links + PairLinks(ids, Row(i, |ids|), r, val)
  {
    out := links;
    for j := i + 1 to |ids|
      invariant out == links + PairLinks(ids, Row(i, j), r, val)
    {
      AppendRowStep(ids, i, j, r, val, links, out);
      out := out + [SharedLink(ids[i], ids[j], r, val)];
    }
  }

  /** One pass of the outer loop appends row i. */
  lemma AppendRowsStep(ids: seq<string>, k: nat, i: nat, r: Relation, val: string, links: seq<SharedLink>, out: seq<SharedLink>)
    requires i == k + 1 && out == (links + PairLinks(ids, Rows(k, |ids|), r, val)) + PairLinks(ids, Row(k, |ids|), r, val)
    ensures out == links + PairLinks(ids, Rows(i, |ids|), r, val)
  {
    RowsUnfold(k, i, |ids|);
    PairLinksConcat(ids, Rows(k, |ids|), Row(k, |ids|), r, val);
    AppendAssoc(links, PairLinks(ids, Rows(k, |ids|), r, val), PairLinks(ids, Row(k, |ids|), r, val));
  }

  /** The two nested loops of `findShared` over one group: appends the link of every
      pair i < j of its ids, row by row. */
  method AppendPairLinks(ids: seq<string>, r: Relation, val: string, links: seq<SharedLink>) returns (out: seq<SharedLink>)
    ensures out == links + PairLinks(ids, AllPairs(|ids|), r, val)
  {
    out := links;
    for i := 0 to |ids|
      invariant out == links + PairLinks(ids, Rows(i, |ids|), r, val)
    {
      out := AppendRow(ids, i, r, val, out);
      AppendRowsStep(ids, i, i + 1, r, val, links, out);
    }
  }

  /** `findShared(map, type)`: appends the links of every entry of the map to `links`. */
  method FindShared(idx: Index, r: Relation, involved: set<string>, links: seq<SharedLink>) returns (out: seq<SharedLink>)
    requires WellFormed(idx)
    ensures out == links + MapLinks(idx, r, involved, |idx.keys|)
  {
    out := links;
    for t := 0 to |idx.keys|
      invariant out == links + MapLinks(idx, r, involved, t)
    {
      var val := idx.keys[t];
      var ids := idx.groups[val];
      ghost var done := MapLinks(idx, r, involved, t);
      ghost var group := GroupLinks(ids, r, val, involved);
      assert MapLinks(idx, r, involved, t + 1) == done + group;
      if TouchesInvolved(ids, involved) && |ids| >= 2 {
        out := AppendPairLinks(ids, r, val, out);
        assert out == (links + done) + group;
      } else {
        assert group == [];
      }
      AppendAssoc(links, done, group);
    }
  }

  /** The four findShared calls, on the email, phone, address and payment maps of all users. */
  function AllSharedLinks(email: Index, phone: Index, address: Index, payment: Index, involved: set<string>): seq<SharedLink>
    requires WellFormed(email) && WellFormed(phone) && WellFormed(address) && WellFormed(payment)
  {
    MapLinks(email, SharedEmail, involved, |email.keys|) + MapLinks(phone, SharedPhone, involved, |phone.keys|) +
    MapLinks(address, SharedAddress, involved, |address.keys|) + MapLinks(payment, SharedPayment, involved, |payment.keys|)
  }

  /** The load step after the three fetches: index every user, then find the shared links. */
  method LoadSharedLinks(users: seq<User>, us: seq<UserLink>)
    returns (links: seq<SharedLink>, email: Index, phone: Index, address: Index, payment: Index)
    ensures email == IndexOf(UserEntries(users, EmailField)) && phone == IndexOf(UserEntries(users, PhoneField))
    ensures address == IndexOf(UserEntries(users, AddressField)) && payment == IndexOf(UserEntries(users, PaymentField))
    ensures WellFormed(email) && WellFormed(phone) && WellFormed(address) && WellFormed(payment)
    ensures links == AllSharedLinks(email, phone, address, payment, InvolvedIds(us))
  {
    var involved := InvolvedIds(us);
    email, phone, address, payment := BuildUserIndices(users);
    IndexOfWellFormed(UserEntries(users, EmailField));
    IndexOfWellFormed(UserEntries(users, PhoneField));
    IndexOfWellFormed(UserEntries(users, AddressField));
    IndexOfWellFormed(UserEntries(users, PaymentField));
    ghost var a := MapLinks(email, SharedEmail, involved, |email.keys|);
    ghost var b := MapLinks(phone, SharedPhone, involved, |phone.keys|);
    ghost var c := MapLinks(address, SharedAddress, involved, |address.keys|);
    ghost var d := MapLinks(payment, SharedPayment, involved, |payment.keys|);
    links := FindShared(email, SharedEmail, involved, []);
    assert links == a;
    links := FindShared(phone, SharedPhone, involved, links);
    links := FindShared(address, SharedAddress, involved, links);
    links := FindShared(payment, SharedPayment, involved, links);
    assert links == a + b + c + d;
  }

  // ---------------- what a group contributes ----------------

  lemma {:induction false} PairLinksMembers(ids: seq<string>, ps: seq<(nat, nat)>, r: Relation, val: string, l: SharedLink)
    ensures l in PairLinks(ids, ps, r, val) <==>
      exists k :: 0 <= k < |ps| && l == SharedLink(At(ids, ps[k].0), At(ids, ps[k].1), r, val)
  {
    if ps != [] {
      var front := ps[..|ps| - 1];
      PairLinksMembers(ids, front, r, val, l);
      if exists k :: 0 <= k < |front| && l == SharedLink(At(ids, front[k].0), At(ids, front[k].1), r, val) {
        var k :| 0 <= k < |front| && l == SharedLink(At(ids, front[k].0), At(ids, front[k].1), r, val);
        assert ps[k] == front[k];
      }
      if exists k :: 0 <= k < |ps| && l == SharedLink(At(ids, ps[k].0), At(ids, ps[k].1), r, val) {
        var k :| 0 <= k < |ps| && l == SharedLink(At(ids, ps[k].0), At(ids, ps[k].1), r, val);
        if k < |front| {
          assert front[k] == ps[k];
        }
      }
    }
  }

  /** A link comes out of a group exactly when the group touches an involved user and
      the link joins ids[a] to ids[b] for some a < b. */
  lemma GroupLinksMembers(ids: seq<string>, r: Relation, val: string, involved: set<string>, l: SharedLink)
    ensures l in GroupLinks(ids, r, val, involved) <==>
      TouchesInvolved(ids, involved) && exists a: nat, b: nat :: a < b < |ids| && l == SharedLink(ids[a], ids[b], r, val)
  {
    var n := |ids|;
    if TouchesInvolved(ids, involved) && n >= 2 {
      var ps := AllPairs(n);
      PairLinksMembers(ids, ps, r, val, l);
      if l in PairLinks(ids, ps, r, val) {
        var k :| 0 <= k < |ps| && l == SharedLink(At(ids, ps[k].0), At(ids, ps[k].1), r, val);
        AllPairsExactly(n, ps[k].0, ps[k].1);
        assert ps[k] in ps;
      }
      if exists a: nat, b: nat :: a < b < n && l == SharedLink(ids[a], ids[b], r, val) {
        var a: nat, b: nat :| a < b < n && l == SharedLink(ids[a], ids[b], r, val);
        AllPairsExactly(n, a, b);
        var k :| 0 <= k < |ps| && ps[k] == (a, b);
        assert l == SharedLink(At(ids, ps[k].0), At(ids, ps[k].1), r, val);
      }
    }
  }

  /** A group of k ids touching an involved user yields k(k-1)/2 links, any other group none. */
  lemma GroupLinksCount(ids: seq<string>, r: Relation, val: string, involved: set<string>)
    ensures 2 * |GroupLinks(ids, r, val, involved)| == if TouchesInvolved(ids, involved) then |ids| * (|ids| - 1) else 0
  {
    if TouchesInvolved(ids, involved) {
      AllPairsCount(|ids|);
    }
  }

  /** A link of one group joins two of its ids under its value and relation. */
  lemma LinkFromGroup(ids: seq<string>, r: Relation, v: string, involved: set<string>, l: SharedLink)
    requires l in GroupLinks(ids, r, v, involved)
    ensures l.relation == r && l.val == v
    ensures |ids| >= 2 && TouchesInvolved(ids, involved) && l.u1 in ids && l.u2 in ids
  {
    GroupLinksMembers(ids, r, v, involved, l);
    var a: nat, b: nat :| a < b < |ids| && l == SharedLink(ids[a], ids[b], r, v);
  }

  /** A link of the first k + 1 entries comes from the first k or from entry k. */
  lemma MapLinksSplit(idx: Index, r: Relation, involved: set<string>, k: nat, t: nat, l: SharedLink)
    requires WellFormed(idx) && t == k + 1 && t <= |idx.keys|
    requires l in MapLinks(idx, r, involved, t)
    ensures l in MapLinks(idx, r, involved, k) || l in GroupLinks(idx.groups[idx.keys[k]], r, idx.keys[k], involved)
  {
    assert MapLinks(idx, r, involved, t) == MapLinks(idx, r, involved, k) + GroupLinks(idx.groups[idx.keys[k]], r, idx.keys[k], involved);
  }

  /** Every link of a map comes from one of its entries with two ids or more, one of
      them involved, and joins two ids of that entry under the entry's value. */
  lemma {:induction false} MapLinksFromInvolvedGroups(idx: Index, r: Relation, involved: set<string>, t: nat, l: SharedLink)
    requires WellFormed(idx) && t <= |idx.keys|
    requires l in MapLinks(idx, r, involved, t)
    ensures l.relation == r && l.val in idx.groups
    ensures var ids := idx.groups[l.val];
      |ids| >= 2 && TouchesInvolved(ids, involved) && l.u1 in ids && l.u2 in ids
  {
    var k: nat := t - 1;
    MapLinksSplit(idx, r, involved, k, t, l);
    if l in MapLinks(idx, r, involved, k) {
      MapLinksFromInvolvedGroups(idx, r, involved, k, l);
    } else {
      LinkFromGroup(idx.groups[idx.keys[k]], r, idx.keys[k], involved, l);
    }
  }

  /** The links are not limited to pairs with an involved user: a group with one
      involved user links the other two members to each other as well. */
  lemma UninvolvedUsersLinked()
    ensures SharedLink("U2", "U3", SharedEmail, "a@x.com") in GroupLinks(["U1", "U2", "U3"], SharedEmail, "a@x.com", {"U1"})
  {
    var ids := ["U1", "U2", "U3"];
    assert ids[0] in {"U1"};
    GroupLinksMembers(ids, SharedEmail, "a@x.com", {"U1"}, SharedLink("U2", "U3", SharedEmail, "a@x.com"));
    assert SharedLink("U2", "U3", SharedEmail, "a@x.com") == SharedLink(ids[1], ids[2], SharedEmail, "a@x.com");
  }
}
