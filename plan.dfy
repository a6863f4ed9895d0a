/**
 * Turning the language model's first reply into the aggregation pipeline the
 * chat route runs: pick the text to parse (the fenced block, or the whole
 * reply), parse it, and convert the string bounds of the first stage's
 * `$match.timestamp` into dates.
 */
module QueryPlan {
  import opened Wrappers
  import opened Js
  import opened Fence

  /**
   * The text handed to `JSON.parse`: the captured text of the leftmost fenced
   * block if there is one, otherwise the whole reply.
   */
  function PlanText(content: string): (r: string)
    ensures FencedBlock(content).None? ==> r == content
    ensures FencedBlock(content).Some? ==> r == FencedBlock(content).value
    ensures FencedBlock(content).Some? ==> |r| + 7 <= |content| && forall k :: 0 <= k < |r| ==> !FenceAt(r + "```", k)
  {
    match FencedBlock(content)
    case Some(block) => block
    case None => content
  }

  /**
   * The inner `try` of the chat route: `parse` stands for `JSON.parse`, which
   * yields a value or a SyntaxError message. A block that fails to parse is
   * not retried as the whole reply.
   */
  function ExtractPlan(content: string, parse: string -> Result<Value, string>): (r: Result<Value, string>)
    ensures FencedBlock(content).Some? ==> r == parse(FencedBlock(content).value)
    ensures FencedBlock(content).None? ==> r == parse(content)
  {
    parse(PlanText(content))
  }

  /** Prose in which no three backticks start, then a fenced block (empty or `json` tag) with no fence starting inside its body: the plan is that block's parse. */
  lemma ExtractFencedPlan(prose: string, tag: string, body: string, rest: string, parse: string -> Result<Value, string>)
    requires tag == "" || tag == "json"
    requires forall k :: 0 <= k < |prose| ==> !FenceAt(prose, k)
    requires forall k :: 0 <= k < |body| ==> !FenceAt(body + "```", k)
    ensures ExtractPlan(prose + "```" + tag + "\n" + body + "```" + rest, parse) == parse(body)
  {
    SingleBlockCaptured(prose, tag, body, rest);
  }

  /** A reply without three backticks is parsed whole. */
  lemma ExtractUnfencedPlan(content: string, parse: string -> Result<Value, string>)
    requires forall k :: !FenceAt(content, k)
    ensures ExtractPlan(content, parse) == parse(content)
  {
    NoFenceNoBlock(content);
  }

  /** When a fenced block is found but does not parse, its parse error is the result: there is no fallback to the whole reply. */
  lemma NoFallbackAfterFencedBlock(content: string, parse: string -> Result<Value, string>)
    requires FencedBlock(content).Some?
    requires parse(FencedBlock(content).value).Failure?
    ensures ExtractPlan(content, parse).Failure?
    ensures ExtractPlan(content, parse).error == parse(FencedBlock(content).value).error
  {
  }

  /** The four comparison bounds that are converted to dates. */
  const BoundKeys: set<string> := {"$gte", "$gt", "$lte", "$lt"}

  /** One bound after conversion: a truthy string becomes `new Date(string)`, anything else is kept. */
  function CoercedBound(v: Value, toDate: string -> Instant): Value
  {
    if Truthy(v) && v.Str? then DateObj(toDate(v.s)) else v
  }

  /** The timestamp object after all four bounds have been converted. */
  function CoercedBounds(ts: map<string, Value>, toDate: string -> Instant): (r: map<string, Value>)
    ensures r.Keys == ts.Keys
  {
    map k | k in ts :: if k in BoundKeys then CoercedBound(ts[k], toDate) else ts[k]
  }

  /** Converts one bound of `ts` in place, as one `if` line of the source does. */
  method CoerceBound(ts: map<string, Value>, key: string, toDate: string -> Instant) returns (r: map<string, Value>)
    ensures r.Keys == ts.Keys
    ensures key in ts ==> r[key] == CoercedBound(ts[key], toDate)
    ensures forall k :: k in ts && k != key ==> r[k] == ts[k]
  {
    r := ts;
    if key in r && Truthy(r[key]) && r[key].Str? {
      r := r[key := DateObj(toDate(r[key].s))];
    }
  }

  /**
   * The four assignments of the source, one after another, on the timestamp
   * object: the result is the specification `CoercedBounds`.
   */
  method CoerceBoundsInPlace(ts: map<string, Value>, toDate: string -> Instant) returns (r: map<string, Value>)
    ensures r == CoercedBounds(ts, toDate)
  {
    r := CoerceBound(ts, "$gte", toDate);
    r := CoerceBound(r, "$gt", toDate);
    r := CoerceBound(r, "$lte", toDate);
    r := CoerceBound(r, "$lt", toDate);
  }

  /**
   * `pipeline[0]?.$match?.timestamp` when `pipeline` is an array and that
   * value is truthy; None when the guard of the conversion is false.
   */
  function TimestampFilter(plan: Value): (r: Option<Value>)
    ensures r.Some? <==>
      && plan.Arr? && |plan.items| > 0
      && Get(plan.items[0], "$match").Some?
      && Get(Get(plan.items[0], "$match").value, "timestamp").Some?
      && Truthy(Get(Get(plan.items[0], "$match").value, "timestamp").value)
    ensures r.Some? ==> r == Get(Get(plan.items[0], "$match").value, "timestamp")
  {
    if plan.Arr? && |plan.items| > 0 then
      match Get(plan.items[0], "$match")
      case Some(m) =>
        (match Get(m, "timestamp")
         case Some(ts) => if Truthy(ts) then Some(ts) else None
         case None => None)
      case None => None
    else None
  }

  /** The plan with its first stage's `$match.timestamp` replaced by `ts`. */
  function WithTimestampFilter(plan: Value, ts: Value): (r: Value)
    requires TimestampFilter(plan).Some?
  {
    var stage := plan.items[0].fields;
    var m := stage["$match"].fields;
    Arr(plan.items[0 := Obj(stage["$match" := Obj(m["timestamp" := ts])])])
  }

  /**
   * The plan handed to the aggregate call. Only an object-valued timestamp
   * filter has bound properties to convert; on a truthy string, number or
   * array each `ts.$gte` read is undefined and nothing changes.
   */
  function Normalize(plan: Value, toDate: string -> Instant): (r: Value)
    ensures !plan.Arr? ==> r == plan
    ensures plan.Arr? ==> r.Arr? && |r.items| == |plan.items|
    ensures TimestampFilter(plan).None? ==> r == plan
    ensures TimestampFilter(plan).Some? && !TimestampFilter(plan).value.Obj? ==> r == plan
  {
    match TimestampFilter(plan)
    case Some(Obj(ts)) => WithTimestampFilter(plan, Obj(CoercedBounds(ts, toDate)))
    case _ => plan
  }

  /** The bounds that the conversion turns into dates: exactly the truthy strings under the four bound keys. */
  lemma CoercedBoundsExactly(ts: map<string, Value>, toDate: string -> Instant, k: string)
    requires k in ts
    ensures CoercedBounds(ts, toDate)[k] != ts[k] ==> k in BoundKeys && ts[k].Str? && ts[k].s != ""
    ensures k in BoundKeys && ts[k].Str? && ts[k].s != "" ==> CoercedBounds(ts, toDate)[k] == DateObj(toDate(ts[k].s))
  {
  }

  /**
   * What normalisation leaves alone: a value that is not an array, or whose
   * first stage has no truthy `$match.timestamp`, passes through unchanged;
   * otherwise the array keeps its length and every later stage, the first
   * stage keeps its other keys, `$match` keeps its other keys, and the
   * timestamp object keeps its keys and every value except converted bounds.
   */
  lemma NormalizeFrame(plan: Value, toDate: string -> Instant)
    ensures !plan.Arr? ==> Normalize(plan, toDate) == plan
    ensures TimestampFilter(plan).None? ==> Normalize(plan, toDate) == plan
    ensures TimestampFilter(plan).Some? && !TimestampFilter(plan).value.Obj? ==> Normalize(plan, toDate) == plan
    ensures plan.Arr? ==> Normalize(plan, toDate).Arr? && |Normalize(plan, toDate).items| == |plan.items|
    ensures plan.Arr? && |plan.items| > 0 ==> Normalize(plan, toDate).items[1..] == plan.items[1..]
    ensures TimestampFilter(plan).Some? && TimestampFilter(plan).value.Obj? ==>
      var stage := plan.items[0].fields;
      var m := stage["$match"].fields;
      var ts := m["timestamp"].fields;
      var stage' := Normalize(plan, toDate).items[0].fields;
      && stage'.Keys == stage.Keys
      && (forall k :: k in stage && k != "$match" ==> stage'[k] == stage[k])
      && stage'["$match"].Obj?
      && stage'["$match"].fields.Keys == m.Keys
      && (forall k :: k in m && k != "timestamp" ==> stage'["$match"].fields[k] == m[k])
      && stage'["$match"].fields["timestamp"] == Obj(CoercedBounds(ts, toDate))
  {
  }

  /** Converted bounds are dates, not strings, so converting twice changes nothing. */
  lemma {:induction false} CoercedBoundsIdempotent(ts: map<string, Value>, toDate: string -> Instant)
    ensures CoercedBounds(CoercedBounds(ts, toDate), toDate) == CoercedBounds(ts, toDate)
  {
    var once := CoercedBounds(ts, toDate);
    forall k | k in once
      ensures CoercedBounds(once, toDate)[k] == once[k]
    {
      if k in BoundKeys && Truthy(ts[k]) && ts[k].Str? {
        assert once[k].DateObj?;
      }
    }
  }

  /** Normalising an already normalised plan leaves it unchanged. */
  lemma NormalizeIdempotent(plan: Value, toDate: string -> Instant)
    ensures Normalize(Normalize(plan, toDate), toDate) == Normalize(plan, toDate)
  {
    match TimestampFilter(plan)
    case Some(Obj(ts)) =>
      var once := Normalize(plan, toDate);
      var coerced := CoercedBounds(ts, toDate);
      assert TimestampFilter(once) == Some(Obj(coerced));
      CoercedBoundsIdempotent(ts, toDate);
      var stage := once.items[0].fields;
      var m := stage["$match"].fields;
      assert m["timestamp" := Obj(coerced)] == m;
      assert stage["$match" := Obj(m)] == stage;
      assert once.items[0 := Obj(stage)] == once.items;
    case _ =>
  }

  /** Normalisation keeps the operator of every stage, so the shape of the plan is unchanged. */
  lemma NormalizeKeepsOperators(plan: Value, toDate: string -> Instant, i: nat)
    requires plan.Arr? && i < |plan.items|
    ensures Normalize(plan, toDate).Arr? && |Normalize(plan, toDate).items| == |plan.items|
    ensures StageKeys(Normalize(plan, toDate).items[i]) == StageKeys(plan.items[i])
  {
    NormalizeFrame(plan, toDate);
    if i == 0 && TimestampFilter(plan).Some? && TimestampFilter(plan).value.Obj? {
      var stage := plan.items[0].fields;
      var stage' := Normalize(plan, toDate).items[0].fields;
      assert stage'.Keys == stage.Keys;
    } else if i > 0 {
      assert Normalize(plan, toDate).items[i] == Normalize(plan, toDate).items[1..][i - 1];
    }
  }

  /**
   * An example plan whose first stage is
   * `{"$match": {"timestamp": {"$gte": "2025-07-01T00:00:00Z"}}}`: the bound
   * becomes the date of that string, and normalising again changes nothing.
   */
  lemma JulyFirstExample(toDate: string -> Instant)
    ensures var plan := Arr([Single("$match", Single("timestamp", Single("$gte", Str("2025-07-01T00:00:00Z"))))]);
            && Normalize(plan, toDate) == Arr([Single("$match", Single("timestamp", Single("$gte", DateObj(toDate("2025-07-01T00:00:00Z")))))])
            && Normalize(Normalize(plan, toDate), toDate) == Normalize(plan, toDate)
  {
    var plan := Arr([Single("$match", Single("timestamp", Single("$gte", Str("2025-07-01T00:00:00Z"))))]);
    var ts := map["$gte" := Str("2025-07-01T00:00:00Z")];
    var ts' := map["$gte" := DateObj(toDate("2025-07-01T00:00:00Z"))];
    assert TimestampFilter(plan) == Some(Obj(ts));
    assert CoercedBounds(ts, toDate) == ts';
    var m := map["timestamp" := Obj(ts)];
    assert m["timestamp" := Obj(ts')] == map["timestamp" := Obj(ts')];
    var stage := map["$match" := Obj(m)];
    assert stage["$match" := Single("timestamp", Obj(ts'))] == map["$match" := Single("timestamp", Obj(ts'))];
    NormalizeIdempotent(plan, toDate);
  }
}
