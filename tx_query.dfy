/**
 * How the transaction list endpoint turns its query parameters into the
 * filtering part of its database query, its sort direction, and the shape of
 * its answer.
 */
module TxQuery {
  import opened Records

  /** A bound query parameter. Amounts are floats in the service; here they are whole
      numbers, since only their presence shapes the query. */
  datatype Param = Text(s: string) | Amount(a: int) | Count(n: int)

  /** The endpoint's inputs; `None` is a parameter left out of the request. */
  datatype TxQuery = TxQuery(
    search: Option<string>, status: Option<string>,
    minAmount: Option<int>, maxAmount: Option<int>,
    order: string, limit: int, skip: int)

  const SearchClause: string :=
    "(toLower(t.id) CONTAINS toLower($search) OR toLower(t.sender_id) CONTAINS toLower($search) OR toLower(t.receiver_id) CONTAINS toLower($search))"
  const StatusClause: string := "t.status = $status"
  const MinClause: string := "t.amount >= $min_amount"
  const MaxClause: string := "t.amount <= $max_amount"

  /** A text parameter counts as given when it is present and not empty (`if search:`). */
  predicate Given(s: Option<string>)
  {
    s.Some? && s.value != ""
  }

  /** The place of each clause in the list. */
  function Rank(c: string): nat
  {
    if c == SearchClause then 0 else if c == StatusClause then 1 else if c == MinClause then 2 else 3
  }

  /** The parameter each clause refers to. */
  function ParamName(c: string): string
  {
    if c == SearchClause then "search" else if c == StatusClause then "status"
    else if c == MinClause then "min_amount" else "max_amount"
  }

  /** The `filters` list. */
  function Filters(q: TxQuery): seq<string>
  {
    (if Given(q.search) then [SearchClause] else [])
      + (if Given(q.status) then [StatusClause] else [])
      + (if q.minAmount.Some? then [MinClause] else [])
      + (if q.maxAmount.Some? then [MaxClause] else [])
  }

  /** The `params` dictionary. */
  function Params(q: TxQuery): map<string, Param>
  {
    var p0 := map["skip" := Count(q.skip), "limit" := Count(q.limit)];
    var p1 := if Given(q.search) then p0["search" := Text(q.search.value)] else p0;
    var p2 := if Given(q.status) then p1["status" := Text(q.status.value)] else p1;
    var p3 := if q.minAmount.Some? then p2["min_amount" := Amount(q.minAmount.value)] else p2;
    if q.maxAmount.Some? then p3["max_amount" := Amount(q.maxAmount.value)] else p3
  }

  /** The appends of `get_transactions`, one condition after the other. */
  method BuildFilters(q: TxQuery) returns (filters: seq<string>, params: map<string, Param>)
    ensures filters == Filters(q) && params == Params(q)
  {
    filters := [];
    params := map["skip" := Count(q.skip), "limit" := Count(q.limit)];
    if q.search.Some? && q.search.value != "" {
      filters := filters + [SearchClause];
      params := params["search" := Text(q.search.value)];
    }
    if q.status.Some? && q.status.value != "" {
      filters := filters + [StatusClause];
      params := params["status" := Text(q.status.value)];
    }
    if q.minAmount.Some? {
      filters := filters + [MinClause];
      params := params["min_amount" := Amount(q.minAmount.value)];
    }
    if q.maxAmount.Some? {
      filters := filters + [MaxClause];
      params := params["max_amount" := Amount(q.maxAmount.value)];
    }
  }

  /** `sep.join(xs)`. */
  function Join(xs: seq<string>, sep: string): string
  {
    if xs == [] then ""
    else if |xs| == 1 then xs[0]
    else Join(xs[..|xs| - 1], sep) + sep + xs[|xs| - 1]
  }

  /** `("WHERE " + " AND ".join(filters)) if filters else ""`. */
  function Where(filters: seq<string>): string
  {
    if filters == [] then "" else "WHERE " + Join(filters, " AND ")
  }

  /** `"DESC" if order == "desc" else "ASC"`. */
  function OrderDir(order: string): (dir: string)
    ensures dir == "DESC" || dir == "ASC"
  {
    if order == "desc" then "DESC" else "ASC"
  }

  /** The endpoint's answer: `{"data": data, "total": len(data)}`. */
  datatype Listing<T> = Listing(data: seq<T>, total: nat)

  /** The largest page size the endpoint accepts (`Query(50, le=500)`). */
  const MaxLimit: int := 500

  function Min(a: int, b: int): int
  {
    if a <= b then a else b
  }

  /** The rows `SKIP $skip LIMIT $limit` leaves of the ordered matches. */
  function Window<T>(matches: seq<T>, skip: nat, limit: nat): seq<T>
  {
    matches[Min(skip, |matches|)..Min(skip + limit, |matches|)]
  }

  /** The answer for the ordered matches of the query. A `limit` above 500 is refused
      by the parameter validation, and a negative `skip` or `limit` by the database;
      either way there is no listing. Otherwise the answer is the requested window
      and `total` is the length of that window. */
  function Respond<T>(matches: seq<T>, skip: int, limit: int): (r: Option<Listing<T>>)
    ensures r.Some? ==> r.value.total == |r.value.data| <= limit
  {
    if limit > MaxLimit || skip < 0 || limit < 0 then None
    else
      var data := Window(matches, skip, limit);
      Some(Listing(data, |data|))
  }

  // ---------------- properties ----------------

  /** Each clause is present exactly when its parameter is given; an amount bound
      counts as given whenever present, zero included, a text one only when non-empty. */
  lemma FiltersPresence(q: TxQuery)
    ensures SearchClause in Filters(q) <==> Given(q.search)
    ensures StatusClause in Filters(q) <==> Given(q.status)
    ensures MinClause in Filters(q) <==> q.minAmount.Some?
    ensures MaxClause in Filters(q) <==> q.maxAmount.Some?
    ensures forall c :: c in Filters(q) ==> c in {SearchClause, StatusClause, MinClause, MaxClause}
  {
    var f := Filters(q);
    assert SearchClause != StatusClause && SearchClause != MinClause && SearchClause != MaxClause;
    assert StatusClause[2] != MinClause[2] && StatusClause[2] != MaxClause[2];
    assert MinClause[9] != MaxClause[9];
  }

  /** The clauses appear in the order search, status, minimum, maximum, each at most once. */
  lemma FiltersOrdered(q: TxQuery)
    ensures forall i, j :: 0 <= i < j < |Filters(q)| ==> Rank(Filters(q)[i]) < Rank(Filters(q)[j])
    ensures |Filters(q)| <= 4
  {
    assert SearchClause != StatusClause && SearchClause != MinClause && SearchClause != MaxClause;
    assert StatusClause[2] != MinClause[2] && StatusClause[2] != MaxClause[2];
    assert MinClause[9] != MaxClause[9];
    assert Rank(SearchClause) == 0 && Rank(StatusClause) == 1 && Rank(MinClause) == 2 && Rank(MaxClause) == 3;
  }

  /** Each parameter is bound exactly when its clause is present, and to the value it was given. */
  lemma ParamsBound(q: TxQuery)
    ensures "search" in Params(q) <==> Given(q.search)
    ensures "status" in Params(q) <==> Given(q.status)
    ensures "min_amount" in Params(q) <==> q.minAmount.Some?
    ensures "max_amount" in Params(q) <==> q.maxAmount.Some?
    ensures Given(q.search) ==> Params(q)["search"] == Text(q.search.value)
    ensures Given(q.status) ==> Params(q)["status"] == Text(q.status.value)
    ensures q.minAmount.Some? ==> Params(q)["min_amount"] == Amount(q.minAmount.value)
    ensures q.maxAmount.Some? ==> Params(q)["max_amount"] == Amount(q.maxAmount.value)
    ensures Params(q)["skip"] == Count(q.skip) && Params(q)["limit"] == Count(q.limit)
  {
    assert "search"[1] != "status"[1] && "search"[0] != "min_amount"[0] && "search"[0] != "max_amount"[0];
    assert "status"[0] != "min_amount"[0] && "status"[0] != "max_amount"[0] && "min_amount"[1] != "max_amount"[1];
    assert "skip"[1] != "search"[1] && "skip"[1] != "status"[1] && "skip"[0] != "min_amount"[0] && "skip"[0] != "max_amount"[0];
    assert "limit"[0] != "search"[0] && "limit"[0] != "status"[0] && "limit"[0] != "min_amount"[0] && "limit"[0] != "max_amount"[0];
  }

  /** Every clause's parameter is bound. */
  lemma ClausesBound(q: TxQuery)
    ensures forall c :: c in Filters(q) ==> ParamName(c) in Params(q)
  {
    FiltersPresence(q);
    ParamsBound(q);
    assert SearchClause != StatusClause && SearchClause != MinClause && SearchClause != MaxClause;
    assert StatusClause[2] != MinClause[2] && StatusClause[2] != MaxClause[2];
    assert MinClause[9] != MaxClause[9];
  }

  /** The query has no WHERE part exactly when no filter is given. */
  lemma WhereEmptyIff(q: TxQuery)
    ensures Where(Filters(q)) == "" <==> !Given(q.search) && !Given(q.status) && q.minAmount.None? && q.maxAmount.None?
  {
    if Filters(q) != [] {
      assert Where(Filters(q))[0] == 'W';
    }
  }

  /** Joining one more item puts the separator before it. */
  lemma JoinSnoc(xs: seq<string>, sep: string, x: string)
    requires xs != []
    ensures Join(xs + [x], sep) == Join(xs, sep) + sep + x
  {
    assert (xs + [x])[..|xs|] == xs;
  }

  /** With every filter given, the WHERE part names them all in order, separated by AND. */
  lemma AllFilters(q: TxQuery)
    requires Given(q.search) && Given(q.status) && q.minAmount.Some? && q.maxAmount.Some?
    ensures Where(Filters(q)) == "WHERE " + SearchClause + " AND " + StatusClause + " AND " + MinClause + " AND " + MaxClause
  {
    assert Filters(q) == [SearchClause, StatusClause, MinClause, MaxClause];
    JoinSnoc([SearchClause], " AND ", StatusClause);
    assert [SearchClause] + [StatusClause] == [SearchClause, StatusClause];
    JoinSnoc([SearchClause, StatusClause], " AND ", MinClause);
    assert [SearchClause, StatusClause] + [MinClause] == [SearchClause, StatusClause, MinClause];
    JoinSnoc([SearchClause, StatusClause, MinClause], " AND ", MaxClause);
    assert [SearchClause, StatusClause, MinClause] + [MaxClause] == [SearchClause, StatusClause, MinClause, MaxClause];
  }

  /** Zero amount bounds still filter, while an empty search or status does not. */
  lemma ZeroBoundsFilter(q: TxQuery)
    requires q.search == Some("") && q.status == None && q.minAmount == Some(0) && q.maxAmount == Some(0)
    ensures Where(Filters(q)) == "WHERE " + MinClause + " AND " + MaxClause
  {
    assert Filters(q) == [MinClause, MaxClause];
    JoinSnoc([MinClause], " AND ", MaxClause);
    assert [MinClause] + [MaxClause] == [MinClause, MaxClause];
  }

  /** There is an answer exactly for a skip and a limit the service accepts; it holds
      the matches from position `skip` on, at most `limit` of them, and its `total`
      counts the rows returned, not the rows that match. */
  lemma RespondWindow<T>(matches: seq<T>, skip: int, limit: int)
    ensures Respond(matches, skip, limit).Some? <==> 0 <= skip && 0 <= limit <= MaxLimit
    ensures Respond(matches, skip, limit).Some? ==>
      var r := Respond(matches, skip, limit).value;
      && r.total == |r.data|
      && r.total == Min(limit, if |matches| <= skip then 0 else |matches| - skip)
      && (forall k :: 0 <= k < r.total ==> r.data[k] == matches[skip + k])
  {
  }

  /** Two consecutive pages together are the double-size page. */
  lemma RespondConsecutive<T>(matches: seq<T>, skip: nat, limit: nat)
    requires 2 * limit <= MaxLimit
    ensures Respond(matches, skip, limit).Some? && Respond(matches, skip + limit, limit).Some?
    ensures Respond(matches, skip, limit).value.data + Respond(matches, skip + limit, limit).value.data
         == Respond(matches, skip, 2 * limit).value.data
  {
    var n := |matches|;
    var a, b, c := Min(skip, n), Min(skip + limit, n), Min(skip + 2 * limit, n);
    assert matches[a..b] + matches[b..c] == matches[a..c];
  }

  /** `total` is not the number of matches: with more matches than the limit it is the limit. */
  lemma TotalIsPageLength<T>(matches: seq<T>, limit: nat)
    requires 0 < limit <= MaxLimit && |matches| > limit
    ensures Respond(matches, 0, limit).Some?
    ensures Respond(matches, 0, limit).value.total == limit < |matches|
  {
  }

  /** The sort is descending exactly for the lower-case word "desc"; any other value,
      "DESC" included, sorts ascending. */
  lemma OrderDirIff(order: string)
    ensures OrderDir(order) == "DESC" <==> order == "desc"
    ensures OrderDir("DESC") == "ASC"
  {
    assert "DESC" != "desc";
  }
}
