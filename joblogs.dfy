/**
 * The log listing: GET with filter, sort and paging parameters. It builds a
 * filter and a one-key sort, asks the database for one page of records and
 * for the number of records the filter matches, and returns both with the
 * paging parameters echoed back.
 */
module JobLogs {
  import opened Wrappers
  import opened Js
  import opened QueryFilter

  /** The query parameters; None when a parameter is absent. */
  datatype JobLogQuery = JobLogQuery(
    criteria: Criteria,
    page: Option<int>,
    limit: Option<int>,
    sortField: Option<string>,
    sortOrder: Option<string>)

  /** A database call the handler made. */
  datatype DbCall =
    | Find(filter: map<string, Value>, sort: map<string, Value>, skip: int, limit: int)
    | Count(filter: map<string, Value>)

  /** `page`, defaulting to 1. */
  function Page(q: JobLogQuery): int
  {
    if q.page.Some? then q.page.value else 1
  }

  /** `limit`, defaulting to 20. */
  function Limit(q: JobLogQuery): int
  {
    if q.limit.Some? then q.limit.value else 20
  }

  /** `sortField`, defaulting to `timestamp`. */
  function SortField(q: JobLogQuery): string
  {
    OrDefault(q.sortField, "timestamp")
  }

  /** `sortOrder`, defaulting to `desc`. */
  function SortOrder(q: JobLogQuery): string
  {
    OrDefault(q.sortOrder, "desc")
  }

  /** The number of records before the requested page. No range check is made on `page` or `limit`. */
  function Skip(page: int, limit: int): (r: int)
    ensures page == 1 ==> r == 0
    ensures 1 <= page && 0 <= limit ==> 0 <= r
  {
    (page - 1) * limit
  }

  /** Without a `page` parameter the listing starts at the first record, whatever the limit. */
  lemma DefaultPageSkipsNothing(q: JobLogQuery)
    requires q.page.None?
    ensures Skip(Page(q), Limit(q)) == 0
  {
  }

  /** Consecutive pages are adjacent: each page starts exactly `limit` records after the one before it. */
  lemma PagesAreAdjacent(page: int, limit: int)
    ensures Skip(page + 1, limit) == Skip(page, limit) + limit
  {
  }

  /** Page `page` of size `limit` starts at `(page - 1) * limit` and no page before it reaches that far. */
  lemma {:induction false} PagesDoNotOverlap(p1: int, p2: int, limit: nat)
    requires 1 <= p1 < p2
    decreases p2 - p1
    ensures Skip(p1, limit) + limit <= Skip(p2, limit)
  {
    if p1 + 1 < p2 {
      PagesDoNotOverlap(p1 + 1, p2, limit);
    }
    PagesAreAdjacent(p1, limit);
  }

  /** The property name whose assignment on a plain object sets its prototype instead of a property. */
  const ProtoKey := "__proto__"

  /**
   * The sort document, built as `sort[sortField] = ...`: one key, ascending
   * only for `asc`. The one exception is the name `__proto__`: assigning to
   * it reaches the inherited `__proto__` setter, which ignores a number, so
   * the document stays empty.
   */
  method BuildSort(sortField: string, sortOrder: string) returns (sort: map<string, Value>)
    ensures sortField == ProtoKey <==> sort == map[]
    ensures sortField != ProtoKey ==> sort.Keys == {sortField}
    ensures sortField != ProtoKey ==> (sort[sortField] == Num(1.0) <==> sortOrder == "asc")
    ensures sortField != ProtoKey ==> (sort[sortField] == Num(-1.0) <==> sortOrder != "asc")
  {
    sort := map[];
    if sortField != ProtoKey {
      sort := sort[sortField := if sortOrder == "asc" then Num(1.0) else Num(-1.0)];
      assert sortField in sort;
    }
  }

  /** `{data, total, page, limit}`. */
  function ListingBody(data: Value, total: nat, page: int, limit: int): (r: Value)
    ensures r.Obj? && r.fields.Keys == {"data", "total", "page", "limit"}
    ensures r.fields["data"] == data && r.fields["total"] == Num(total as real)
    ensures r.fields["page"] == Num(page as real) && r.fields["limit"] == Num(limit as real)
  {
    Obj(map["data" := data, "total" := Num(total as real), "page" := Num(page as real), "limit" := Num(limit as real)])
  }

  /**
   * The GET handler. `found` is the page the database returns or the error
   * it throws, `counted` the number of matching records or the error;
   * `calls` records the database calls made.
   */
  method HandleJobLogs(q: JobLogQuery, toDate: string -> Instant, found: Result<Value, Thrown>, counted: Result<nat, Thrown>)
    returns (status: int, body: Value, ghost calls: seq<DbCall>)
    // the page query: filter, one-key sort, skip and limit
    ensures 1 <= |calls| <= 2 && calls[0].Find?
    ensures IsFilter(calls[0].filter, q.criteria, toDate)
    ensures SortField(q) == ProtoKey ==> calls[0].sort == map[]
    ensures SortField(q) != ProtoKey ==> calls[0].sort.Keys == {SortField(q)}
    ensures SortField(q) != ProtoKey ==>
              calls[0].sort[SortField(q)] == (if SortOrder(q) == "asc" then Num(1.0) else Num(-1.0))
    ensures calls[0].skip == Skip(Page(q), Limit(q)) && calls[0].limit == Limit(q)
    // the count runs after the page query, with the same filter
    ensures |calls| == 2 <==> found.Success?
    ensures |calls| == 2 ==> calls[1] == Count(calls[0].filter)
    // the response
    ensures status == 200 <==> found.Success? && counted.Success?
    ensures status == 200 ==> body == ListingBody(found.value, counted.value, Page(q), Limit(q))
    ensures found.Failure? ==> status == 500 && body == ErrorBody("Server error", Str(found.error.message))
    ensures found.Success? && counted.Failure? ==> status == 500 && body == ErrorBody("Server error", Str(counted.error.message))
  {
    var filter := BuildFilter(q.criteria, toDate);
    var sort := BuildSort(SortField(q), SortOrder(q));
    calls := [Find(filter, sort, Skip(Page(q), Limit(q)), Limit(q))];
    if found.Failure? {
      return 500, ErrorBody("Server error", Str(found.error.message)), calls;
    }
    calls := calls + [Count(filter)];
    if counted.Failure? {
      return 500, ErrorBody("Server error", Str(counted.error.message)), calls;
    }
    status, body := 200, ListingBody(found.value, counted.value, Page(q), Limit(q));
  }
}
