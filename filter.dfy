/**
 * The match filter that the log listing and both metric endpoints build from
 * the same four query parameters: a date range on `timestamp`, the client
 * (`transactionSourceName`) and the country (`country_code`).
 */
module QueryFilter {
  import opened Wrappers
  import opened Js

  /** The filtering query parameters; None when a parameter is absent. */
  datatype Criteria = Criteria(startDate: Option<string>, endDate: Option<string>, client: Option<string>, country: Option<string>)

  /** `v` is the date-range object for these dates: `$gte` exactly when a start date is given, `$lte` exactly when an end date is. */
  predicate IsDateRange(v: Value, c: Criteria, toDate: string -> Instant)
  {
    && v.Obj?
    && v.fields.Keys <= {"$gte", "$lte"}
    && ("$gte" in v.fields <==> Given(c.startDate))
    && ("$lte" in v.fields <==> Given(c.endDate))
    && (Given(c.startDate) ==> v.fields["$gte"] == DateObj(toDate(c.startDate.value)))
    && (Given(c.endDate) ==> v.fields["$lte"] == DateObj(toDate(c.endDate.value)))
  }

  /**
   * `filter` is the filter for these criteria: `timestamp` exactly when a
   * start or end date is given, the client and the country exactly when
   * given, and no other key.
   */
  predicate IsFilter(filter: map<string, Value>, c: Criteria, toDate: string -> Instant)
  {
    && filter.Keys <= {"timestamp", "transactionSourceName", "country_code"}
    && ("timestamp" in filter <==> Given(c.startDate) || Given(c.endDate))
    && ("timestamp" in filter ==> IsDateRange(filter["timestamp"], c, toDate))
    && ("transactionSourceName" in filter <==> Given(c.client))
    && (Given(c.client) ==> filter["transactionSourceName"] == Str(c.client.value))
    && ("country_code" in filter <==> Given(c.country))
    && (Given(c.country) ==> filter["country_code"] == Str(c.country.value))
  }

  /** Builds the filter one property at a time, as the route handlers do. */
  method BuildFilter(c: Criteria, toDate: string -> Instant) returns (filter: map<string, Value>)
    ensures IsFilter(filter, c, toDate)
  {
    filter := map[];
    if Given(c.startDate) || Given(c.endDate) {
      var range := map[];
      if Given(c.startDate) {
        range := range["$gte" := DateObj(toDate(c.startDate.value))];
      }
      if Given(c.endDate) {
        range := range["$lte" := DateObj(toDate(c.endDate.value))];
      }
      filter := filter["timestamp" := Obj(range)];
    }
    if Given(c.client) {
      filter := filter["transactionSourceName" := Str(c.client.value)];
    }
    if Given(c.country) {
      filter := filter["country_code" := Str(c.country.value)];
    }
  }

  /** The filter is determined by the criteria: two filters that both meet `IsFilter` are equal. */
  lemma FilterDetermined(f1: map<string, Value>, f2: map<string, Value>, c: Criteria, toDate: string -> Instant)
    requires IsFilter(f1, c, toDate) && IsFilter(f2, c, toDate)
    ensures f1 == f2
  {
    if "timestamp" in f1 {
      var r1, r2 := f1["timestamp"].fields, f2["timestamp"].fields;
      assert r1.Keys == r2.Keys;
      assert r1 == r2;
    }
    assert f1.Keys == f2.Keys;
  }

  /** With no parameter given, the filter is empty and so matches every record. */
  lemma EmptyCriteriaEmptyFilter(filter: map<string, Value>, toDate: string -> Instant)
    requires IsFilter(filter, Criteria(None, None, None, None), toDate)
    ensures filter == map[]
  {
    assert filter.Keys == {};
  }
}
