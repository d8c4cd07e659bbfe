/**
 * The detail list under the transaction panel's graph: one row per sender, per
 * receiver, per end of every shared link and per linked transaction, in that
 * order, shown six to a page. It is built once per load and does not follow the
 * graph's filter; the linked transactions appear here and nowhere in the graph.
 */
module TxDetail {
  import opened Graph
  import opened TxFocus
  import DashboardSpec
  import Pagination

  /** An entry of `linked_transactions`: a transaction reached over SAME_IP or SAME_DEVICE. */
  datatype LinkedTx = LinkedTx(id: string, linkType: string)

  /** A row of the list: whom it names and the type text shown beside it. */
  datatype DetailItem = DetailItem(uid: string, kind: string)

  const SentKind: string := "Credit (Sent)"
  const ReceivedKind: string := "Debit (Received)"

  /** `s.replace(/_/g, " ")`. */
  function Spaced(s: string): (r: string)
    ensures |r| == |s|
    ensures forall i :: 0 <= i < |s| ==> r[i] == (if s[i] == '_' then ' ' else s[i])
    ensures forall i :: 0 <= i < |r| ==> r[i] != '_'
  {
    if s == [] then []
    else Spaced(s[..|s| - 1]) + [if s[|s| - 1] == '_' then ' ' else s[|s| - 1]]
  }

  /** One row of the given type per id, in order. */
  function Tagged(ids: seq<string>, kind: string): (items: seq<DetailItem>)
    ensures |items| == |ids|
  {
    if ids == [] then [] else Tagged(ids[..|ids| - 1], kind) + [DetailItem(ids[|ids| - 1], kind)]
  }

  /** Both ends of every shared link, typed by the link's relation. */
  function LinkItems(links: seq<SharedLink>): (items: seq<DetailItem>)
    ensures |items| == 2 * |links|
  {
    if links == [] then []
    else
      var l := links[|links| - 1];
      var kind := DashboardSpec.RelationText(l.relation);
      LinkItems(links[..|links| - 1]) + [DetailItem(l.u1, kind), DetailItem(l.u2, kind)]
  }

  /** One row per linked transaction, typed by its link with underscores spaced out. */
  function LinkedItems(linked: seq<LinkedTx>): (items: seq<DetailItem>)
    ensures |items| == |linked|
  {
    if linked == [] then []
    else
      var t := linked[|linked| - 1];
      LinkedItems(linked[..|linked| - 1]) + [DetailItem(t.id, Spaced(t.linkType))]
  }

  /** `allDetailItems`. */
  function DetailItems(senders: seq<string>, receivers: seq<string>, links: seq<SharedLink>, linked: seq<LinkedTx>): seq<DetailItem>
  {
    Tagged(senders, SentKind) + Tagged(receivers, ReceivedKind) + LinkItems(links) + LinkedItems(linked)
  }

  /** The page of the list that is shown. */
  function DetailPage(items: seq<DetailItem>, page: nat): seq<DetailItem>
  {
    Pagination.PageItems(items, page, Pagination.DetailPer)
  }

  lemma {:induction false} TaggedAt(ids: seq<string>, kind: string, k: nat)
    requires k < |ids|
    ensures Tagged(ids, kind)[k] == DetailItem(ids[k], kind)
  {
    if k < |ids| - 1 {
      TaggedAt(ids[..|ids| - 1], kind, k);
    }
  }

  lemma {:induction false} LinkItemsAt(links: seq<SharedLink>, k: nat)
    requires k < |links|
    ensures var kind := DashboardSpec.RelationText(links[k].relation);
      LinkItems(links)[2 * k] == DetailItem(links[k].u1, kind)
      && LinkItems(links)[2 * k + 1] == DetailItem(links[k].u2, kind)
  {
    if k < |links| - 1 {
      LinkItemsAt(links[..|links| - 1], k);
    }
  }

  lemma {:induction false} LinkedItemsAt(linked: seq<LinkedTx>, k: nat)
    requires k < |linked|
    ensures LinkedItems(linked)[k] == DetailItem(linked[k].id, Spaced(linked[k].linkType))
  {
    if k < |linked| - 1 {
      LinkedItemsAt(linked[..|linked| - 1], k);
    }
  }

  /** The list has one row per sender, per receiver, two per shared link and one per
      linked transaction; it opens with the senders, then the receivers, each typed
      by its direction. */
  lemma DetailHead(senders: seq<string>, receivers: seq<string>, links: seq<SharedLink>, linked: seq<LinkedTx>)
    ensures var items := DetailItems(senders, receivers, links, linked);
      var s := |senders|;
      && |items| == s + |receivers| + 2 * |links| + |linked|
      && (forall k :: 0 <= k < s ==> items[k] == DetailItem(senders[k], SentKind))
      && (forall k :: 0 <= k < |receivers| ==> items[s + k] == DetailItem(receivers[k], ReceivedKind))
  {
    var a, b := Tagged(senders, SentKind), Tagged(receivers, ReceivedKind);
    var rest := LinkItems(links) + LinkedItems(linked);
    var items := DetailItems(senders, receivers, links, linked);
    assert items == a + b + rest;
    forall k | 0 <= k < |senders|
      ensures items[k] == DetailItem(senders[k], SentKind)
    {
      TaggedAt(senders, SentKind, k);
      assert items[k] == a[k];
    }
    forall k | 0 <= k < |receivers|
      ensures items[|a| + k] == DetailItem(receivers[k], ReceivedKind)
    {
      TaggedAt(receivers, ReceivedKind, k);
      assert items[|a| + k] == b[k];
    }
  }

  /** After senders and receivers come both ends of each shared link, in link order,
      typed by the link's relation. */
  lemma DetailLinks(senders: seq<string>, receivers: seq<string>, links: seq<SharedLink>, linked: seq<LinkedTx>)
    ensures var items := DetailItems(senders, receivers, links, linked);
      var s := |senders| + |receivers|;
      forall k :: 0 <= k < |links| ==>
        && items[s + 2 * k] == DetailItem(links[k].u1, DashboardSpec.RelationText(links[k].relation))
        && items[s + 2 * k + 1] == DetailItem(links[k].u2, DashboardSpec.RelationText(links[k].relation))
  {
    var head := Tagged(senders, SentKind) + Tagged(receivers, ReceivedKind);
    var c := LinkItems(links);
    var items := DetailItems(senders, receivers, links, linked);
    assert items == head + c + LinkedItems(linked);
    forall k | 0 <= k < |links|
      ensures items[|head| + 2 * k] == DetailItem(links[k].u1, DashboardSpec.RelationText(links[k].relation))
      ensures items[|head| + 2 * k + 1] == DetailItem(links[k].u2, DashboardSpec.RelationText(links[k].relation))
    {
      LinkItemsAt(links, k);
      assert items[|head| + 2 * k] == c[2 * k];
      assert items[|head| + 2 * k + 1] == c[2 * k + 1];
    }
  }

  /** The list ends with the linked transactions, typed by their link with underscores
      spaced out. */
  lemma DetailLinked(senders: seq<string>, receivers: seq<string>, links: seq<SharedLink>, linked: seq<LinkedTx>)
    ensures var items := DetailItems(senders, receivers, links, linked);
      var s := |senders| + |receivers| + 2 * |links|;
      forall k :: 0 <= k < |linked| ==> items[s + k] == DetailItem(linked[k].id, Spaced(linked[k].linkType))
  {
    var front := Tagged(senders, SentKind) + Tagged(receivers, ReceivedKind) + LinkItems(links);
    var d := LinkedItems(linked);
    var items := DetailItems(senders, receivers, links, linked);
    assert items == front + d;
    forall k | 0 <= k < |linked|
      ensures items[|front| + k] == DetailItem(linked[k].id, Spaced(linked[k].linkType))
    {
      LinkedItemsAt(linked, k);
      assert items[|front| + k] == d[k];
    }
  }

  /** Paging the list from its first page to its last shows every row once, in order,
      and each page holds at most six rows. */
  lemma DetailPaging(items: seq<DetailItem>, page: nat)
    ensures Pagination.PagesUpTo(items, Pagination.DetailPer, Pagination.TotalPages(|items|, Pagination.DetailPer)) == items
    ensures |DetailPage(items, page)| <= Pagination.DetailPer
  {
    Pagination.PagesPartition(items, Pagination.DetailPer);
    Pagination.PageSize(items, page, Pagination.DetailPer);
  }
}
