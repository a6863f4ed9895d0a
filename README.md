# Job-logs dashboard back end: query construction and the chat pipeline

This project models the three route handlers of the dashboard's back end
that carry logic, and proves properties of them:

- **The chat assistant** (`backend/routes/chat.js`, POST `/`): the handler
  checks the question and the API key, asks the language model for a MongoDB
  aggregation pipeline, extracts it from the reply (the leftmost fenced code
  block, or the whole reply), parses it, converts the string bounds of the
  first stage's `$match.timestamp` into dates, runs it, asks the model for a
  summary, and maps every failure to one `{error, details}` body.
- **The metric endpoints** (`backend/routes/metrics.js`, `/general` and
  `/delta`): a match filter, a group stage and the pipelines handed to the
  database.
- **The log listing** (`backend/routes/joblogs.js`, GET `/`): the filter,
  the one-key sort, skip and limit, the count query and the response body.

Modules, one per concern:

- `Wrappers` (`wrappers.dfy`): `Option` and `Result`.
- `Js` (`js.dfy`): JavaScript values (`Value`: null, booleans, numbers,
  strings, arrays, objects as maps, `Date` objects), truthiness, thrown errors
  and the `{error, details}` body.
- `Fence` (`fence.dfy`): the scan of `/```(?:json)?\n([\s\S]*?)```/`,
  written out concretely: an opening fence, the optional tag, the newline,
  the lazy capture up to the first closing fence, and the leftmost start.
- `QueryPlan` (`plan.dfy`): the text handed to `JSON.parse`, and the
  timestamp-bound conversion, as a specification function and as the
  source's four in-place assignments.
- `Chat` (`chat.dfy`): the handler as a method with a ghost trace of the
  outbound calls; the error classifier.
- `QueryFilter` (`filter.dfy`): the date/client/country filter, which
  `joblogs.js` and both handlers of `metrics.js` build with the same code.
- `Metrics` (`metrics.dfy`) and `JobLogs` (`joblogs.dfy`): the request-to-query builders and their handlers.

External services are inputs. `JSON.parse` is a parameter
`parse: string -> Result<Value, string>` (a value or the SyntaxError
message); `new Date(s)` is a parameter `toDate: string -> Instant` (total:
a bad string gives an Invalid Date). The outcomes of the two completion
calls, of the aggregate call, and of the find and count calls are
parameters, and so is whether building the summary prompt throws (a TypeError, with its message); each handler returns, as a ghost out-parameter, the calls it
made and their arguments.

Behaviour of the code worth noting:

- A parsed plan that is not an array (or any JSON value at all) is not
  rejected: it skips the date conversion and goes to the aggregate call as it is.
- Reading the first reply's content is inside the parse `try`: a reply
  without `choices[0].message`, or with non-string content, gives the 400
  parse error with the TypeError's message.
- A completion-service failure without an HTTP response (a network error)
  and a summary reply without `choices[0].message` are not "AI API error":
  they fall to the generic `AI or DB error`. So does a failure to build the
  summary prompt (a question whose string conversion throws, such as an
  object with a non-callable `toString`): the summary call is then not made.
- A summary reply whose `content` is undefined yields the body `{data}`
  alone, because serialisation drops the undefined `summary`
  (`Chat.SuccessBody`).
- In the log listing, `sortField=__proto__` leaves the sort document empty:
  `sort[sortField] = ...` then calls the inherited `__proto__` setter, which
  ignores a number, so the page is fetched unsorted (`JobLogs.BuildSort`).

## Model

| member | source | states |
|---|---|---|
| `Fence.OpenerEnd` | backend/routes/chat.js:52 | an opener at i is three backticks followed by `json` and a newline or by a newline alone, and every such position is an opener; the capture starts after that text (4 or 8 characters on), inside the text |
| `Fence.OpenerText` | backend/routes/chat.js:52 | the text from an opening fence to the capture start is three backticks, an empty or `json` tag, and a newline |
| `Fence.MatchAt` | backend/routes/chat.js:52 | a match at i starts with three backticks, fits in the text with both fences and the newline, and no fence starts inside its capture, so the capture runs to the first closing fence; `Fence.MatchAtShape` gives the layout |
| `Fence.MatchAtShape` | backend/routes/chat.js:52 | a match at i is the text before i, three backticks, an empty or `json` tag, a newline, the capture, three backticks and the rest; with `Fence.MatchOfSlices`, the exact characterisation of a match |
| `Fence.FencedBlock` | backend/routes/chat.js:52 | no block exactly when no position matches; a found block is at least 7 characters shorter than the reply and holds no fence |
| `Fence.CloseFrom` | backend/routes/chat.js:52 | the lazy capture ends at the first closing fence at or after its start, and there is none when no three backticks follow |
| `Fence.SearchFrom` | backend/routes/chat.js:52 | the result is the match at the leftmost position that has one; None exactly when no position has a match |
| `Fence.LeftmostMatch` | backend/routes/chat.js:52 | a match at position i with no match before it is what `content.match` captures |
| `Fence.NoFenceNoBlock` | backend/routes/chat.js:52-53 | a reply without three backticks has no fenced block |
| `Fence.FencedBlockShape` | backend/routes/chat.js:52 | a found block is laid out as text, fence, empty or `json` tag, newline, capture, fence, rest; no fence starts inside the capture |
| `Fence.MatchOfSlices` | backend/routes/chat.js:52 | three backticks, an empty or `json` tag, a newline, a body inside which no three backticks start, and three backticks, starting at i: the match at i captures exactly the body (the converse of `Fence.FencedBlockShape`) |
| `Fence.SingleBlockCaptured` | backend/routes/chat.js:52 | prose in which no three backticks start (inline code is allowed), one fenced block with no three backticks starting inside its body, then anything: the capture is exactly that body |
| `QueryPlan.PlanText` | backend/routes/chat.js:53 | the whole reply when there is no block; otherwise the block, a fence-free text at least 7 characters shorter than the reply |
| `QueryPlan.ExtractPlan` | backend/routes/chat.js:52-53 | the parse of the block when one is found, with no fallback; the parse of the whole reply otherwise |
| `QueryPlan.ExtractFencedPlan` | backend/routes/chat.js:52-53 | for a reply of prose in which no three backticks start, one fenced block with no fence inside its body, and anything after, the plan is the parse of the block body alone |
| `QueryPlan.ExtractUnfencedPlan` | backend/routes/chat.js:53 | a reply without three backticks is parsed whole |
| `QueryPlan.NoFallbackAfterFencedBlock` | backend/routes/chat.js:47-61 | a found block that fails to parse gives its parse error; the whole reply is not tried |
| `QueryPlan.CoercedBounds` | backend/routes/chat.js:66-70 | the conversion keeps exactly the keys of the timestamp object |
| `QueryPlan.CoerceBound` | backend/routes/chat.js:67 | one in-place assignment converts that one bound when it is a truthy string and leaves every other property as it was |
| `QueryPlan.CoerceBoundsInPlace` | backend/routes/chat.js:66-70 | the four assignments in sequence give the specification `CoercedBounds` |
| `QueryPlan.TimestampFilter` | backend/routes/chat.js:65 | the conversion fires exactly for a non-empty array whose first element has a `$match` with a truthy `timestamp`, and is handed that `pipeline[0].$match.timestamp` value |
| `QueryPlan.Normalize` | backend/routes/chat.js:64-71 | a non-array, a plan without a truthy first-stage `$match.timestamp`, or one whose timestamp is not an object passes unchanged; an array keeps its length |
| `QueryPlan.CoercedBoundsExactly` | backend/routes/chat.js:67-70 | a property changes only if it is one of `$gte`, `$gt`, `$lte`, `$lt` holding a non-empty string, and each such bound becomes the date of that string |
| `QueryPlan.NormalizeFrame` | backend/routes/chat.js:64-71 | a non-array, a plan the guard rejects, or a timestamp that is not an object passes unchanged; otherwise length and every later stage are kept, the first stage and its `$match` keep all other keys, and only the timestamp object is replaced by its converted form |
| `QueryPlan.CoercedBoundsIdempotent` | backend/routes/chat.js:67-70 | converting converted bounds changes nothing, since dates are not strings |
| `QueryPlan.NormalizeIdempotent` | backend/routes/chat.js:64-71 | normalising a normalised plan changes nothing |
| `QueryPlan.NormalizeKeepsOperators` | backend/routes/chat.js:65-71 | every stage keeps its operator keys |
| `QueryPlan.JulyFirstExample` | backend/routes/chat.js:65-67 | `{"$match": {"timestamp": {"$gte": "2025-07-01T00:00:00Z"}}}` gets the date of that string as its bound, and a second pass changes nothing |
| `Chat.ContentText` | backend/routes/chat.js:49-52 | the reply content is usable exactly when it is a string; a throwing read gives its own message |
| `Chat.PlanFromReply` | backend/routes/chat.js:47-55 | string content is extracted and parsed; any other content is a failure carrying the read's TypeError message |
| `Chat.Classify` | backend/routes/chat.js:96-119 | an error with a response is `AI API error` (details the truthy upstream message, else `err.message`); otherwise `MongoError`/`MongoServerError` is `Database error`; otherwise `AI or DB error`; always `{error, details}` |
| `Chat.SuccessBody` | backend/routes/chat.js:92-94 | the success body is exactly `{data, summary}` with the aggregate result as `data`, or `{data}` alone when the reply content is undefined |
| `Chat.HandleChat` | backend/routes/chat.js:15-120 | falsy question gives 400 and a missing key 500, both before any call; calls happen in the order generate, aggregate, summarise, each exactly when the previous step succeeded (the summary call also needs the summary prompt to be built); the aggregate receives the normalised parsed plan; a parse failure gives 400 with the parser message; a failed prompt build gives 500 `AI or DB error` with its TypeError message; 200 exactly on full success, and every other body has `error` and no `data` |
| `Chat.FencedReplyRun` | backend/routes/chat.js:27-94 | a reply of prose in which no three backticks start, then the plan in a `json` fence, a successful aggregate and a textual summary give 200 with `{data, summary}` after exactly the three calls |
| `Js.Truthy` | backend/routes/chat.js:17 | falsy exactly for `null`, `false`, `0` and `""` |
| `Js.OrDefault` | backend/routes/metrics.js:8 | a destructuring default applies only to an absent parameter |
| `QueryFilter.BuildFilter` | backend/routes/joblogs.js:19-26 | `timestamp` exactly when a start or end date is given, with `$gte`/`$lte` each exactly when its date is; client and country exactly when given; no other key |
| `QueryFilter.FilterDetermined` | backend/routes/metrics.js:10-17 | the filter specification determines the filter uniquely |
| `QueryFilter.EmptyCriteriaEmptyFilter` | backend/routes/metrics.js:45-52 | with no criteria given the filter is empty |
| `Metrics.BuildGroupStage` | backend/routes/metrics.js:18-28 | the group key is `"$" + groupBy`, every group counts its records, and it has `total: {$sum}` exactly for `agg == 'sum'` and `average: {$avg}` otherwise, over `$progress.<field>` |
| `Metrics.GeneralPipeline` | backend/routes/metrics.js:29-33 | three stages: the match filter, the group stage, and a sort on `total` for `sum` and on `average` otherwise, descending |
| `Metrics.GeneralPipelineShape` | backend/routes/metrics.js:29-33 | the pipeline is match, group, sort; the sort is on the accumulator the group computes, descending |
| `Metrics.DeltaPipeline` | backend/routes/metrics.js:55-71 | five stages, starting with the match filter and a sort by time ascending, ending with a sort by delta descending |
| `Metrics.DeltaPipelineShape` | backend/routes/metrics.js:55-71 | the pipeline is match, sort by time ascending, group with `$first`/`$last` of the counter and the count, project exactly `delta = last - first` with first, last and count (all group outputs), sort by delta descending |
| `Metrics.ServerError` | backend/routes/metrics.js:35-36 | a thrown error gives `{error: 'Server error', details: err.message}` |
| `Metrics.HandleGeneral` | backend/routes/metrics.js:6-38 | missing field gives 400 with no aggregate; otherwise exactly one aggregate with the match/group/sort pipeline built from the filter and group specifications; 200 with the results, or 500 `Server error` |
| `Metrics.HandleDelta` | backend/routes/metrics.js:41-76 | missing field gives 400 with no aggregate; otherwise exactly one aggregate with the five-stage delta pipeline; 200 with the results, or 500 `Server error` |
| `JobLogs.Skip` | backend/routes/joblogs.js:33 | page 1 skips nothing, and no page from 1 on with a non-negative limit has a negative skip |
| `JobLogs.DefaultPageSkipsNothing` | backend/routes/joblogs.js:13 | without a `page` parameter the skip is 0, whatever the limit |
| `JobLogs.PagesAreAdjacent` | backend/routes/joblogs.js:33 | page p + 1 starts `limit` records after page p |
| `JobLogs.PagesDoNotOverlap` | backend/routes/joblogs.js:33 | an earlier page ends no later than a later page starts |
| `JobLogs.BuildSort` | backend/routes/joblogs.js:28-29 | the sort has the one key `sortField`, with 1 exactly for `asc` and -1 otherwise; it is empty exactly when `sortField` is `__proto__`, whose assignment hits the inherited prototype setter, which ignores a number |
| `JobLogs.ListingBody` | backend/routes/joblogs.js:38-43 | the body is exactly `{data, total, page, limit}` with page and limit as numbers |
| `JobLogs.HandleJobLogs` | backend/routes/joblogs.js:6-47 | the find gets the specified filter, the one-key sort (default `timestamp` descending; empty for `__proto__`), skip `(page - 1) * limit` and the limit; the count runs only after the find succeeds and with the same filter; 200 with the listing body, else 500 `Server error` |

## Left out

- The HTTP calls to the completion service (URL, model name, bearer header, the two prompts and the `JSON.stringify` of the result in the summary prompt): their outcomes are inputs.
- `JSON.parse` and `new Date(...)`: parameters with no interpretation; the JSON grammar and ISO-8601 date parsing are not modelled.
- The database's execution of `aggregate`, `find` and `countDocuments`: outcomes are inputs. That `find` returns at most `limit` records, sorting, grouping and `$avg` floating point are its behaviour and are not modelled; the model states what is handed to it.
- The order of properties in JavaScript objects: objects are maps. No property order matters to the documents the handlers build (each sort document has one key), but the parsed plan handed to `aggregate` is a map too, so the key order of a multi-key `$sort` (or of any other order-sensitive stage) written by the language model is lost, where the source keeps it.
- In-place update of the parsed plan: the conversion is modelled on values. `JSON.parse` returns a fresh tree without sharing, so updating `pipeline[0].$match.timestamp` in place and rebuilding that path are the same.
- `Number(...)` on query-string values and arithmetic on strings: `page` and `limit` are integers, with no range check, as in the source. A parameter given twice (an array in Express) is not modelled: parameters are absent or one string.
- The TypeError messages of `Chat.ContentText` are the V8 texts; other engines word them differently.
- A request without a body (`req.body` undefined) throws before the handler's `try`; Express's own error handler is not modelled.
- The GET health endpoint of the chat route, `console.error` logging, router wiring, and all of `frontend/src` (rendering, charts, concurrent fetching).
- `QueryPlan.CoercedBounds`: its own contract states only that keys are kept; what happens to each key is stated by `QueryPlan.CoercedBoundsExactly`.
