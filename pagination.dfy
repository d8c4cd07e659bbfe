/**
 * Paging as the pages do it: the connection panels cut an in-memory list into
 * fixed-size pages and disable their buttons at the ends; the user and
 * transaction lists move a server-side `skip` by the page size and never
 * disable a button.
 */
module Pagination {

  /** Page size of the user connection panel. */
  const PerPage: nat := 10

  /** Page size of the transaction panel's detail list. */
  const DetailPer: nat := 6

  /** Page size of the user and transaction lists. */
  const ListLimit: nat := 50

  /** `Math.ceil(n / per)`. */
  function TotalPages(n: nat, per: nat): nat
    requires per > 0
  {
    (n + per - 1) / per
  }

  /** `Array.prototype.slice(a, b)` for non-negative bounds: both are clamped to the length. */
  function Slice<T>(s: seq<T>, a: nat, b: nat): (r: seq<T>)
  {
    var lo := if a < |s| then a else |s|;
    var hi := if b < |s| then b else |s|;
    if lo <= hi then s[lo..hi] else []
  }

  /** `items.slice(page * per, (page + 1) * per)`. */
  function PageItems<T>(items: seq<T>, page: nat, per: nat): seq<T>
  {
    Slice(items, page * per, (page + 1) * per)
  }

  /** The Prev button is disabled on the first page. */
  predicate PrevDisabled(page: nat)
  {
    page == 0
  }

  /** The Next button is disabled once the page reaches the end of the list. */
  predicate NextDisabled(page: nat, per: nat, n: nat)
  {
    (page + 1) * per >= n
  }

  /** The pages before `count`, concatenated. */
  function PagesUpTo<T>(items: seq<T>, per: nat, count: nat): seq<T>
  {
    if count == 0 then [] else PagesUpTo(items, per, count - 1) + PageItems(items, count - 1, per)
  }

  lemma MulStep(p: nat, per: nat)
    ensures (p + 1) * per == p * per + per
  {
  }

  /** The first `count` pages are the first count * per items. */
  lemma {:induction false} PagesUpToPrefix<T>(items: seq<T>, per: nat, count: nat)
    requires count * per <= |items|
    ensures PagesUpTo(items, per, count) == items[..count * per]
  {
    if count > 0 {
      MulStep(count - 1, per);
      PagesUpToPrefix(items, per, count - 1);
      assert items[..(count - 1) * per] + items[(count - 1) * per..count * per] == items[..count * per];
    }
  }

  /** A page's size: full before the last page, the remainder on the last, nothing after. */
  lemma PageSize<T>(items: seq<T>, page: nat, per: nat)
    requires per > 0
    ensures var t := TotalPages(|items|, per);
      && (page + 1 < t ==> |PageItems(items, page, per)| == per)
      && (page + 1 == t ==> 0 < |PageItems(items, page, per)| <= per && |PageItems(items, page, per)| == |items| - page * per)
      && (page >= t ==> PageItems(items, page, per) == [])
  {
    var n, t := |items|, TotalPages(|items|, per);
    MulStep(page, per);
    CeilBounds(n, per);
    if page + 1 < t {
      MulLe(page + 2, t, per);
      MulStep(page + 1, per);
    } else if page + 1 == t {
      assert (page + 1) * per == t * per;
    } else {
      MulLe(t, page, per);
    }
  }

  lemma MulLe(a: nat, b: nat, per: nat)
    requires a <= b
    ensures a * per <= b * per
  {
    assert b * per - a * per == (b - a) * per;
  }

  /** (t - 1) * per < n <= t * per for t = ceil(n / per), when n > 0. */
  lemma CeilBounds(n: nat, per: nat)
    requires per > 0
    ensures var t := TotalPages(n, per);
      && n <= t * per
      && (n > 0 ==> t >= 1 && (t - 1) * per < n)
      && (n == 0 ==> t == 0)
  {
    var t := TotalPages(n, per);
    var m := n + per - 1;
    assert m == per * t + m % per;
    assert per * t == t * per;
    if n > 0 {
      MulStep(t - 1, per);
    }
  }

  /** Walking the pages 0 .. TotalPages - 1 shows every item once, in order. */
  lemma PagesPartition<T>(items: seq<T>, per: nat)
    requires per > 0
    ensures PagesUpTo(items, per, TotalPages(|items|, per)) == items
  {
    var t := TotalPages(|items|, per);
    CeilBounds(|items|, per);
    if t > 0 {
      PagesCover(items, per, t - 1);
    }
  }

  /** Enough pages to reach the end cover the whole list. */
  lemma PagesCover<T>(items: seq<T>, per: nat, last: nat)
    requires last * per <= |items| <= (last + 1) * per
    ensures PagesUpTo(items, per, last + 1) == items
  {
    PagesUpToPrefix(items, per, last);
    LastPage(items, per, last);
    assert items[..last * per] + items[last * per..] == items;
  }

  /** The last page holds everything after the full pages. */
  lemma LastPage<T>(items: seq<T>, per: nat, last: nat)
    requires last * per <= |items| <= (last + 1) * per
    ensures PageItems(items, last, per) == items[last * per..]
  {
  }

  /** Next is enabled exactly when a further page exists. */
  lemma NextEnabledIffMorePages(page: nat, per: nat, n: nat)
    requires per > 0
    ensures !NextDisabled(page, per, n) <==> page + 1 < TotalPages(n, per)
  {
    var t := TotalPages(n, per);
    CeilBounds(n, per);
    if page + 1 < t {
      MulLe(page + 2, t, per);
      MulStep(page + 1, per);
      assert (page + 1) * per < n;
    }
    if (page + 1) * per < n {
      if page + 1 >= t {
        MulLe(t, page + 1, per);
      }
    }
  }

  /** The range caption `page*per + 1 – min((page+1)*per, n)`: its end is the last shown
      item's position, for every page that exists. */
  lemma RangeCaption<T>(items: seq<T>, page: nat, per: nat)
    requires per > 0 && page < TotalPages(|items|, per)
    ensures var last := if (page + 1) * per < |items| then (page + 1) * per else |items|;
      last == page * per + |PageItems(items, page, per)| && page * per + 1 <= last
  {
    PageSize(items, page, per);
    MulStep(page, per);
    if page + 1 < TotalPages(|items|, per) {
      NextEnabledIffMorePages(page, per, |items|);
    }
  }

  // ---------------- server-side lists ----------------

  /** `setSkip(s => Math.max(0, s - limit))`. */
  function PrevSkip(skip: nat, limit: nat): nat
  {
    if skip >= limit then skip - limit else 0
  }

  /** `setSkip(s => s + limit)`: never stopped at the end. */
  function NextSkip(skip: nat, limit: nat): nat
  {
    skip + limit
  }

  /** `Page ${Math.floor(skip / limit) + 1}`. */
  function PageNumber(skip: nat, limit: nat): nat
    requires limit > 0
  {
    skip / limit + 1
  }

  /** From skip 0, Prev and Next only reach multiples of the page size; Next moves one
      page on, Prev one page back but never before page 1. */
  lemma SkipSteps(skip: nat, limit: nat)
    requires limit > 0 && skip % limit == 0
    ensures NextSkip(skip, limit) % limit == 0 && PrevSkip(skip, limit) % limit == 0
    ensures PageNumber(NextSkip(skip, limit), limit) == PageNumber(skip, limit) + 1
    ensures PageNumber(PrevSkip(skip, limit), limit) == if skip == 0 then 1 else PageNumber(skip, limit) - 1
  {
    var q := skip / limit;
    DivUnique(skip, limit, q, 0);
    MulStep(q, limit);
    DivUnique(NextSkip(skip, limit), limit, q + 1, 0);
    if skip >= limit {
      MulStep(q - 1, limit);
      DivUnique(PrevSkip(skip, limit), limit, q - 1, 0);
    } else {
      DivUnique(0, limit, 0, 0);
    }
  }

  /** Division is determined by quotient and remainder. */
  lemma DivUnique(x: nat, d: nat, q: nat, r: nat)
    requires d > 0 && r < d && x == q * d + r
    ensures x / d == q && x % d == r
  {
    var q', r' := x / d, x % d;
    assert x == q' * d + r' && 0 <= r' < d;
    if q' > q {
      MulLe(q + 1, q', d);
      MulStep(q, d);
    } else if q' < q {
      MulLe(q' + 1, q, d);
      MulStep(q', d);
    }
  }
}
