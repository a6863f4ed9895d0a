/**
 * The metric endpoints: `/general` groups the log records by a field and
 * reports the average or total of one progress counter per group; `/delta`
 * reports, per group, how much a progress counter changed between the first
 * and the last record of the period. Each builds an aggregation pipeline;
 * the database's execution of it is outside the model.
 */
module Metrics {
  import opened Wrappers
  import opened Js
  import opened QueryFilter

  /** The query parameters of both endpoints; None when a parameter is absent. */
  datatype MetricsQuery = MetricsQuery(field: Option<string>, groupBy: Option<string>, criteria: Criteria, agg: Option<string>)

  /** `groupBy`, defaulting to the client name. */
  function GroupBy(q: MetricsQuery): string
  {
    OrDefault(q.groupBy, "transactionSourceName")
  }

  /** `agg`, defaulting to `average`. */
  function Agg(q: MetricsQuery): string
  {
    OrDefault(q.agg, "average")
  }

  /** The field path of a progress counter, as a pipeline expression. */
  function CounterPath(field: string): string
  {
    "$progress." + field
  }

  /** `{$sum: 1}`: counts the records of a group. */
  const CountOne: Value := Single("$sum", Num(1.0))

  /** The name of the accumulator `/general` computes: `total` for `agg == 'sum'`, `average` for anything else. */
  function Accumulator(agg: string): string
  {
    if agg == "sum" then "total" else "average"
  }

  /**
   * The `$group` stage of `/general`, built one property at a time: the group
   * key, the record count, and either a sum or an average of the counter.
   */
  method BuildGroupStage(groupBy: string, field: string, agg: string) returns (group: map<string, Value>)
    ensures group.Keys == {"_id", "count", Accumulator(agg)}
    ensures group["_id"] == Str("$" + groupBy) && group["count"] == CountOne
    ensures "total" in group <==> agg == "sum"
    ensures "average" in group <==> agg != "sum"
    ensures agg == "sum" ==> group["total"] == Single("$sum", Str(CounterPath(field)))
    ensures agg != "sum" ==> group["average"] == Single("$avg", Str(CounterPath(field)))
  {
    group := map["_id" := Str("$" + groupBy), "count" := CountOne];
    if agg == "sum" {
      group := group["total" := Single("$sum", Str(CounterPath(field)))];
    } else {
      group := group["average" := Single("$avg", Str(CounterPath(field)))];
    }
  }

  /** `[ {$match}, {$group}, {$sort} ]`, sorted by the accumulator, largest first. */
  function GeneralPipeline(filter: map<string, Value>, group: map<string, Value>, agg: string): (r: seq<Value>)
    ensures |r| == 3 && r[0] == Single("$match", Obj(filter)) && r[1] == Single("$group", Obj(group))
    ensures agg == "sum" ==> r[2] == Single("$sort", Single("total", Num(-1.0)))
    ensures agg != "sum" ==> r[2] == Single("$sort", Single("average", Num(-1.0)))
  {
    [ Single("$match", Obj(filter)),
      Single("$group", Obj(group)),
      Single("$sort", Single(Accumulator(agg), Num(-1.0))) ]
  }

  /** The five stages of `/delta`. */
  function DeltaPipeline(filter: map<string, Value>, groupBy: string, field: string): (r: seq<Value>)
    ensures |r| == 5 && r[0] == Single("$match", Obj(filter))
    ensures r[1] == Single("$sort", Single("timestamp", Num(1.0))) && r[4] == Single("$sort", Single("delta", Num(-1.0)))
  {
    [ Single("$match", Obj(filter)),
      Single("$sort", Single("timestamp", Num(1.0))),
      Single("$group", Obj(DeltaGroup(groupBy, field))),
      Single("$project", Obj(DeltaProject)),
      Single("$sort", Single("delta", Num(-1.0))) ]
  }

  /** The `$group` stage of `/delta`: the first and last value of the counter in time order, and the record count. */
  function DeltaGroup(groupBy: string, field: string): map<string, Value>
  {
    map[
      "_id" := Str("$" + groupBy),
      "first" := Single("$first", Str(CounterPath(field))),
      "last" := Single("$last", Str(CounterPath(field))),
      "count" := CountOne]
  }

  /** The `$project` stage of `/delta`: `delta = last - first`, keeping first, last and count. */
  const DeltaProject: map<string, Value> := map[
    "delta" := Single("$subtract", Arr([Str("$last"), Str("$first")])),
    "first" := Num(1.0),
    "last" := Num(1.0),
    "count" := Num(1.0)]

  /** The operator names of a pipeline, stage by stage. */
  function Operators(pipeline: seq<Value>): (r: seq<set<string>>)
    ensures |r| == |pipeline|
  {
    seq(|pipeline|, i requires 0 <= i < |pipeline| => StageKeys(pipeline[i]))
  }

  /** The argument of a one-key stage object. */
  function Arg(stage: Value, op: string): Value
    requires stage.Obj? && op in stage.fields
  {
    stage.fields[op]
  }

  /**
   * `/general` is match, group, sort; the sort orders groups by the
   * accumulator the group stage computes, descending; the group key is the
   * requested field, and every group carries its record count.
   */
  lemma {:induction false} GeneralPipelineShape(filter: map<string, Value>, groupBy: string, field: string, agg: string, group: map<string, Value>)
    requires group.Keys == {"_id", "count", Accumulator(agg)}
    requires group["_id"] == Str("$" + groupBy) && group["count"] == CountOne
    ensures var p := GeneralPipeline(filter, group, agg);
      && Operators(p) == [{"$match"}, {"$group"}, {"$sort"}]
      && Arg(p[0], "$match") == Obj(filter)
      && Arg(p[2], "$sort").Obj?
      && Arg(p[2], "$sort").fields.Keys <= Arg(p[1], "$group").fields.Keys - {"_id", "count"}
      && Arg(p[2], "$sort").fields.Values == {Num(-1.0)}
  {
    var p := GeneralPipeline(filter, group, agg);
    assert Operators(p)[0] == {"$match"} && Operators(p)[1] == {"$group"} && Operators(p)[2] == {"$sort"};
    var sort := Arg(p[2], "$sort").fields;
    assert sort.Keys == {Accumulator(agg)};
    assert sort[Accumulator(agg)] == Num(-1.0);
    assert sort.Values == {Num(-1.0)};
  }

  /**
   * `/delta` is match, sort by time ascending, group, project, sort by delta
   * descending; the project stage reads only fields the group stage
   * outputs, and the final sort is on the field the project stage computes.
   */
  lemma DeltaPipelineShape(filter: map<string, Value>, groupBy: string, field: string)
    ensures var p := DeltaPipeline(filter, groupBy, field);
      && Operators(p) == [{"$match"}, {"$sort"}, {"$group"}, {"$project"}, {"$sort"}]
      && Arg(p[0], "$match") == Obj(filter)
      && Arg(p[1], "$sort") == Single("timestamp", Num(1.0))
      && Arg(p[2], "$group").fields["_id"] == Str("$" + groupBy)
      && Arg(p[2], "$group").fields["count"] == CountOne
      && Arg(p[2], "$group").fields["first"] == Single("$first", Str(CounterPath(field)))
      && Arg(p[2], "$group").fields["last"] == Single("$last", Str(CounterPath(field)))
      && Arg(p[3], "$project").fields.Keys == {"delta", "first", "last", "count"}
      && Arg(p[3], "$project").fields.Keys - {"delta"} <= Arg(p[2], "$group").fields.Keys
      && Arg(p[3], "$project").fields["delta"] == Single("$subtract", Arr([Str("$last"), Str("$first")]))
      && Arg(p[4], "$sort") == Single("delta", Num(-1.0))
      && "delta" in Arg(p[3], "$project").fields
  {
    var p := DeltaPipeline(filter, groupBy, field);
    var group, project := DeltaGroup(groupBy, field), DeltaProject;
    assert group.Keys == {"_id", "first", "last", "count"};
    assert project.Keys == {"delta", "first", "last", "count"};
    assert Arg(p[2], "$group") == Obj(group);
    assert Arg(p[3], "$project") == Obj(project);
    DeltaOperators(p);
  }

  /** The operator names of the `/delta` pipeline. */
  lemma DeltaOperators(p: seq<Value>)
    requires |p| == 5 && p[0].Obj? && p[0].fields.Keys == {"$match"} && p[1].Obj? && p[1].fields.Keys == {"$sort"}
    requires p[2].Obj? && p[2].fields.Keys == {"$group"} && p[3].Obj? && p[3].fields.Keys == {"$project"}
    requires p[4].Obj? && p[4].fields.Keys == {"$sort"}
    ensures Operators(p) == [{"$match"}, {"$sort"}, {"$group"}, {"$project"}, {"$sort"}]
  {
    assert Operators(p)[0] == {"$match"} && Operators(p)[1] == {"$sort"} && Operators(p)[2] == {"$group"};
    assert Operators(p)[3] == {"$project"} && Operators(p)[4] == {"$sort"};
  }

  /** The catch of both metric handlers. */
  function ServerError(err: Thrown): (r: Value)
    ensures r.Obj? && r.fields.Keys == {"error", "details"} && r.fields["details"] == Str(err.message)
      && r.fields["error"] == Str("Server error")
  {
    ErrorBody("Server error", Str(err.message))
  }

  const MissingField: Value := Single("error", Str("Missing field parameter"))

  /**
   * GET `/general`. `aggregated` is what the database returns for the
   * pipeline or the error it throws; `calls` records the pipelines run.
   */
  method HandleGeneral(q: MetricsQuery, toDate: string -> Instant, aggregated: Result<Value, Thrown>)
    returns (status: int, body: Value, ghost calls: seq<seq<Value>>)
    ensures !Given(q.field) ==> status == 400 && body == MissingField && calls == []
    ensures Given(q.field) ==> |calls| == 1
    ensures Given(q.field) ==> exists filter: map<string, Value>, group: map<string, Value> ::
              && IsFilter(filter, q.criteria, toDate)
              && group.Keys == {"_id", "count", Accumulator(Agg(q))}
              && group["_id"] == Str("$" + GroupBy(q)) && group["count"] == CountOne
              && group[Accumulator(Agg(q))] == Single(if Agg(q) == "sum" then "$sum" else "$avg", Str(CounterPath(q.field.value)))
              && calls[0] == GeneralPipeline(filter, group, Agg(q))
    ensures status == 200 <==> Given(q.field) && aggregated.Success?
    ensures status == 200 ==> body == aggregated.value
    ensures Given(q.field) && aggregated.Failure? ==> status == 500 && body == ServerError(aggregated.error)
  {
    calls := [];
    if !Given(q.field) {
      return 400, MissingField, calls;
    }
    var filter := BuildFilter(q.criteria, toDate);
    var group := BuildGroupStage(GroupBy(q), q.field.value, Agg(q));
    calls := calls + [GeneralPipeline(filter, group, Agg(q))];
    match aggregated
    case Success(results) => status, body := 200, results;
    case Failure(err) => status, body := 500, ServerError(err);
  }

  /** GET `/delta`, with the same field check, filter and error handling as `/general`. */
  method HandleDelta(q: MetricsQuery, toDate: string -> Instant, aggregated: Result<Value, Thrown>)
    returns (status: int, body: Value, ghost calls: seq<seq<Value>>)
    ensures !Given(q.field) ==> status == 400 && body == MissingField && calls == []
    ensures Given(q.field) ==> |calls| == 1
    ensures Given(q.field) ==> exists filter: map<string, Value> ::
              IsFilter(filter, q.criteria, toDate) && calls[0] == DeltaPipeline(filter, GroupBy(q), q.field.value)
    ensures status == 200 <==> Given(q.field) && aggregated.Success?
    ensures status == 200 ==> body == aggregated.value
    ensures Given(q.field) && aggregated.Failure? ==> status == 500 && body == ServerError(aggregated.error)
  {
    calls := [];
    if !Given(q.field) {
      return 400, MissingField, calls;
    }
    var filter := BuildFilter(q.criteria, toDate);
    calls := calls + [DeltaPipeline(filter, GroupBy(q), q.field.value)];
    match aggregated
    case Success(results) => status, body := 200, results;
    case Failure(err) => status, body := 500, ServerError(err);
  }
}
