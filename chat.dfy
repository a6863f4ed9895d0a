/**
 * The chat route's POST handler: check the question and the API key, ask the
 * language model for an aggregation pipeline, extract and normalise it, run
 * it, ask the model to summarise the result, and map every failure to one
 * `{error, details}` body with a fixed status.
 *
 * The two completion calls and the aggregate call are outside the model:
 * their outcomes are inputs, and a ghost trace records which calls were made,
 * in which order, and with what arguments.
 */
module Chat {
  import opened Wrappers
  import opened Js
  import opened Fence
  import opened QueryPlan

  /** Reading `reply.data.choices[0].message.content`: it throws (no choice or message), is undefined, or is a value. */
  datatype ContentRead = Threw(message: string) | Undefined | Content(v: Value)

  /** The outcome of one call to the completion service. */
  datatype Completion = Replied(content: ContentRead) | CallFailed(err: Thrown)

  /**
   * Everything the handler learns from outside: the two completion outcomes,
   * the aggregate outcome, `JSON.parse` and `new Date(...)`, and whether
   * building the summary prompt (string conversion of the question,
   * `JSON.stringify` of the result) succeeded or threw a TypeError with the
   * given message.
   */
  datatype Upstream = Upstream(
    planReply: Completion,
    parse: string -> Result<Value, string>,
    toDate: string -> Instant,
    aggregated: Result<Value, Thrown>,
    summaryPrompt: Result<string, string>,
    summaryReply: Completion)

  /** An outbound call the handler made. */
  datatype Call = Generate(question: Value) | Aggregate(plan: Value) | Summarize(question: Value, data: Value)

  const ParseFailure := "Failed to parse aggregation pipeline from LLM response."

  /** The error name the database driver uses for a rejected command. */
  predicate IsMongoError(name: string)
  {
    name == "MongoError" || name == "MongoServerError"
  }

  /**
   * The `catch` of the handler. An error with a response is the completion
   * service's, with the upstream message when it is truthy; otherwise a
   * database error by name; otherwise a generic error. Every branch is 500.
   */
  function Classify(err: Thrown): (r: Value)
    ensures r.Obj? && r.fields.Keys == {"error", "details"}
    ensures r.fields["error"] == Str("AI API error") <==> err.response.Some?
    ensures r.fields["error"] == Str("Database error") <==> err.response.None? && IsMongoError(err.name)
    ensures r.fields["error"] == Str("AI or DB error") <==> err.response.None? && !IsMongoError(err.name)
    ensures err.response.None? ==> r.fields["details"] == Str(err.message)
    ensures err.response.Some? && !Present(err.response.value.errorMessage) ==> r.fields["details"] == Str(err.message)
    ensures err.response.Some? && Present(err.response.value.errorMessage) ==> r.fields["details"] == err.response.value.errorMessage.value
  {
    if err.response.Some? then
      var upstream := err.response.value.errorMessage;
      ErrorBody("AI API error", if Present(upstream) then upstream.value else Str(err.message))
    else if IsMongoError(err.name) then
      ErrorBody("Database error", Str(err.message))
    else
      ErrorBody("AI or DB error", Str(err.message))
  }

  /**
   * The reply content as the string `content.match` needs; a TypeError
   * message otherwise (the texts are those of the V8 engine).
   */
  function ContentText(c: ContentRead): (r: Result<string, string>)
    ensures r.Success? <==> c.Content? && c.v.Str?
    ensures r.Success? ==> r.value == c.v.s
    ensures c.Threw? ==> r == Failure(c.message)
  {
    match c
    case Threw(message) => Failure(message)
    case Undefined => Failure("Cannot read properties of undefined (reading 'match')")
    case Content(Null) => Failure("Cannot read properties of null (reading 'match')")
    case Content(Str(s)) => Success(s)
    case Content(_) => Failure("content.match is not a function")
  }

  /** The inner `try`: read the content and extract the plan; any failure is a parse failure. */
  function PlanFromReply(c: ContentRead, parse: string -> Result<Value, string>): (r: Result<Value, string>)
    ensures c.Content? && c.v.Str? ==> r == ExtractPlan(c.v.s, parse)
    ensures !(c.Content? && c.v.Str?) ==> r.Failure? && r.error == ContentText(c).error
  {
    match ContentText(c)
    case Success(text) => ExtractPlan(text, parse)
    case Failure(message) => Failure(message)
  }

  /**
   * `{data, summary}`. An undefined summary is dropped when the body is
   * serialised, so the body then holds `data` alone.
   */
  function SuccessBody(data: Value, summary: ContentRead): (r: Value)
    requires !summary.Threw?
    ensures r.Obj? && "data" in r.fields && r.fields["data"] == data && "error" !in r.fields
    ensures r.fields.Keys == if summary.Content? then {"data", "summary"} else {"data"}
    ensures summary.Content? ==> r.fields["summary"] == summary.v
  {
    match summary
    case Content(v) => Obj(map["data" := data, "summary" := v])
    case Undefined => Single("data", data)
  }

  /** The question check and the credential check both pass. */
  predicate Admitted(question: Option<Value>, apiKey: Option<string>)
  {
    Present(question) && Given(apiKey)
  }

  /** The first reply arrived and a plan was parsed from it. */
  predicate PlanReady(question: Option<Value>, apiKey: Option<string>, up: Upstream)
  {
    Admitted(question, apiKey) && up.planReply.Replied? && PlanFromReply(up.planReply.content, up.parse).Success?
  }

  /** The aggregate call succeeded. */
  predicate Executed(question: Option<Value>, apiKey: Option<string>, up: Upstream)
  {
    PlanReady(question, apiKey, up) && up.aggregated.Success?
  }

  /** The summary prompt was built from the question and the result. */
  predicate Prompted(question: Option<Value>, apiKey: Option<string>, up: Upstream)
  {
    Executed(question, apiKey, up) && up.summaryPrompt.Success?
  }

  /** The summary reply arrived and its content could be read. */
  predicate Summarized(question: Option<Value>, apiKey: Option<string>, up: Upstream)
  {
    Prompted(question, apiKey, up) && up.summaryReply.Replied? && !up.summaryReply.content.Threw?
  }

  /**
   * The POST handler. `question` is `req.body.question` (None when
   * undefined) and `apiKey` the configured key. The handler returns the
   * status and the JSON body it sends, and the calls it made.
   */
  method HandleChat(question: Option<Value>, apiKey: Option<string>, up: Upstream)
    returns (status: int, body: Value, ghost calls: seq<Call>)
    // the guards, before any call
    ensures !Present(question) ==> status == 400 && body == Single("error", Str("Missing question")) && calls == []
    ensures Present(question) && !Given(apiKey) ==>
              status == 500 && body == Single("error", Str("GROQ_API_KEY is not configured")) && calls == []
    // the calls, in their fixed order, each made exactly when the step before it succeeded
    ensures |calls| <= 3
    ensures |calls| >= 1 <==> Admitted(question, apiKey)
    ensures |calls| >= 1 ==> calls[0] == Generate(question.value)
    ensures |calls| >= 2 <==> PlanReady(question, apiKey, up)
    ensures |calls| >= 2 ==> calls[1] == Aggregate(Normalize(PlanFromReply(up.planReply.content, up.parse).value, up.toDate))
    ensures |calls| == 3 <==> Prompted(question, apiKey, up)
    ensures |calls| == 3 ==> calls[2] == Summarize(question.value, up.aggregated.value)
    // the response: all or nothing
    ensures status == 200 <==> Summarized(question, apiKey, up)
    ensures status == 200 ==> body == SuccessBody(up.aggregated.value, up.summaryReply.content)
    ensures status != 200 ==> body.Obj? && "error" in body.fields && "data" !in body.fields
    // the error taxonomy
    ensures |calls| == 1 && up.planReply.CallFailed? ==> status == 500 && body == Classify(up.planReply.err)
    ensures |calls| == 1 && up.planReply.Replied? ==>
              status == 400 && body == ErrorBody(ParseFailure, Str(PlanFromReply(up.planReply.content, up.parse).error))
    ensures |calls| == 2 && up.aggregated.Failure? ==> status == 500 && body == Classify(up.aggregated.error)
    ensures |calls| == 2 && up.aggregated.Success? ==>
              status == 500 && body == Classify(Thrown("TypeError", up.summaryPrompt.error, None))
    ensures |calls| == 3 && up.summaryReply.CallFailed? ==> status == 500 && body == Classify(up.summaryReply.err)
    ensures |calls| == 3 && up.summaryReply.Replied? && up.summaryReply.content.Threw? ==>
              status == 500 && body == Classify(Thrown("TypeError", up.summaryReply.content.message, None))
  {
    calls := [];
    if !Present(question) {
      return 400, Single("error", Str("Missing question")), calls;
    }
    if !Given(apiKey) {
      return 500, Single("error", Str("GROQ_API_KEY is not configured")), calls;
    }

    // 1. ask for a pipeline
    calls := calls + [Generate(question.value)];
    if up.planReply.CallFailed? {
      return 500, Classify(up.planReply.err), calls;
    }
    var parsed := PlanFromReply(up.planReply.content, up.parse);
    if parsed.Failure? {
      return 400, ErrorBody(ParseFailure, Str(parsed.error)), calls;
    }

    // convert the first stage's timestamp bounds in place
    var plan := parsed.value;
    var filter := TimestampFilter(plan);
    if filter.Some? && filter.value.Obj? {
      var ts := CoerceBoundsInPlace(filter.value.fields, up.toDate);
      plan := WithTimestampFilter(plan, Obj(ts));
    }

    // 2. run it
    calls := calls + [Aggregate(plan)];
    if up.aggregated.Failure? {
      return 500, Classify(up.aggregated.error), calls;
    }
    var result := up.aggregated.value;

    // 3. ask for a summary
    if up.summaryPrompt.Failure? {
      return 500, Classify(Thrown("TypeError", up.summaryPrompt.error, None)), calls;
    }
    calls := calls + [Summarize(question.value, result)];
    if up.summaryReply.CallFailed? {
      return 500, Classify(up.summaryReply.err), calls;
    }
    if up.summaryReply.content.Threw? {
      return 500, Classify(Thrown("TypeError", up.summaryReply.content.message, None)), calls;
    }

    // 4. both the data and the summary
    status, body := 200, SuccessBody(result, up.summaryReply.content);
  }

  /**
   * A full run: the first reply holds the plan text in a `json` fence after
   * some prose, the database returns `rows`, and the summary reply has text.
   * The body is the rows and the summary, and the three calls are made in
   * order with the parsed, normalised plan.
   */
  method FencedReplyRun(question: string, prose: string, planText: string, parse: string -> Result<Value, string>,
                        toDate: string -> Instant, plan: Value, rows: Value, summary: string)
    returns (status: int, body: Value, ghost calls: seq<Call>)
    requires question != ""
    requires forall k :: 0 <= k < |prose| ==> !FenceAt(prose, k)
    requires forall k :: 0 <= k < |planText| ==> !FenceAt(planText + "```", k)
    requires parse(planText) == Success(plan)
    ensures status == 200
    ensures body == Obj(map["data" := rows, "summary" := Str(summary)])
    ensures calls == [Generate(Str(question)), Aggregate(Normalize(plan, toDate)), Summarize(Str(question), rows)]
  {
    var reply := prose + "```" + "json" + "\n" + planText + "```" + "";
    ExtractFencedPlan(prose, "json", planText, "", parse);
    var up := Upstream(Replied(Content(Str(reply))), parse, toDate, Success(rows), Success("prompt"), Replied(Content(Str(summary))));
    status, body, calls := HandleChat(Some(Str(question)), Some("key"), up);
  }
}
