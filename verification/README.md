# Verified model of the DuckDB Datadog extension

This project models the algorithmic cores of the extension in Dafny 4.11 and proves what they promise.
`dafny verify dfyconfig.toml` checks everything. Each module follows one piece of the C++ code:

- **Searching** (`SearchQuery`, `Pushdown`, `SearchWindow`, `EventRows`, `PagedScan`, `SearchScan`). SQL predicates
  are weakened into Datadog search text and an outward-rounded millisecond window, a cursor-driven scan
  fetches pages of events under a row budget, the events become rows, and DuckDB applies the predicates
  again. `SearchScan.SelectRows` is the end-to-end result: the pipeline returns exactly what fetching
  everything and then filtering would, under a condition that `SearchScan.RefinesIff` proves exact.
- **Writing traces** (`HexIds`, `SpanAttributes`, `Grouping`, `ProtoWire`, `TraceProto`, `TraceReader`,
  `Json`, `AgentBody`, `WriteTraces`, `TraceDelivery`). Identifier parsing, attribute resolution, grouping,
  and the two encoders. `TraceReader` is a reader for the protobuf wire format (Protocol Buffers Encoding, "Base 128
  Varints", "Length-Delimited Records", "Maps") and serves as the specification of the hand-written
  encoder; the agent's JSON tree and the protobuf payload are proved to carry the same data. `TraceDelivery` says
  what a receiver reads for each row of the table.
- **Sending logs** (`IntakeMapping`, `Batching`, `Retry`, `IntakeClient`, `PoolProtocol`, `SendLogs`).
  Greedy batching is optimal, the retry loop stores a batch at most once exactly under the stated
  condition, the connection pool is safe under every interleaving, and a whole call stores a prefix of
  its input, all of it when it succeeds.
- **Serving the intake** (`IntakeLines`, `IntakeServer`, `IntakeConcurrency`, `ListenUri`,
  `ListenerRegistry`, `RegistryProtocol`, `IntakeRuns`). Reading request bodies, transactional appending under
  concurrency, and the registry of listeners with its URI parser.
- **Windows and alerts** (`ServiceMapWindow`, `OpenAlerts`). Exact-range endpoint arithmetic and the
  page-numbered scan of open monitor groups.
- `Prelude`, `Text`, `Entries`, `Cells`, `LongDouble` and `Folds` hold the integers, string primitives, key-value
  lists, table cells, rounding and folds that the others use.

Code that updates state is modelled by classes and loops whose `ensures` equate the result or the new
state with a specification function; the lemmas are about those functions. Protocols are state machines
with one step per critical section or unlocked action, and their theorems quantify over every run.

What is assumed of the outside world appears as a parameter or a hypothesis: what a server answers
(`Retry.Script`, `PagedScan.Server`), that `service:v` and `status:v` select at least the events whose own field
is `v` and that an absolute window is inclusive for the events' own times (`EventRows.Honest`), which
outcomes mean that a request was stored (the predicate `stores`), what a JSON parser returns, what the clock says, whether a bind or an append
fails. How the server's `long double` rounds is a parameter too (`IntakeMapping.Outside.round`): the
conversion of integer milliseconds to nanoseconds is exact with a 64-bit mantissa and not with a 53-bit one.

## Where the code and its documentation differ

The model follows the code.

- The repository's README.md:472-475 says that log batches are re-sent only after failures before any data
  was sent and after rate limits. src/datadog_client.cpp:496 also re-sends after server errors.
  `Retry.AtMostOnceIff` gives the exact condition for at-most-once storage and
  `Retry.ServerErrorsCanDuplicate` the server that breaks it.
- src/datadog_client.cpp:481 shifts by the attempt number, which C++ leaves undefined from 64 on. The
  model takes those values from outside; `Retry.WaitsWithinIff` shows that the documented waits of 1 to 60
  seconds hold exactly for budgets of at most 64 retries.
- src/datadog_server.cpp:803-811 compares the options of a running server with the requested ones but not
  the metrics table: `RegistryProtocol.MetricsTableIgnored` and `RegistryProtocol.ReusedHasOptionsIff`.
- src/datadog_json.cpp:194-208 checks epoch seconds as if they could be negative, but every text with a
  leading minus sign was already taken for a relative value:
  `ServiceMapWindow.NegativeEpochIsRefused`.
- The user's query is put in parentheses without being checked. An unbalanced one escapes from them
  (`SearchQuery.UnbalancedQueryEscapes`) and an empty one does not compose
  (`SearchQuery.EmptyQueryDoesNotCompose`);
  `SearchWindow.ComposesSafelyIff`, `SearchWindow.PushesSafelyIff` and `SearchScan.RefinesIff` say exactly when
  pushing terms is safe.
- src/datadog_server.cpp:244-246 computes nanoseconds in `long double`. Where that is a double, integer times
  are shifted: `IntakeMapping.DoubleConvertsExactlyIff` and `IntakeMapping.DoubleShiftsTime`.
- src/datadog_server.cpp:573-596 answers 500 when building the 202 answer fails, after the rows were stored:
  `IntakeConcurrency.IntakeIsAtomic` says exactly what each answer means and `IntakeRuns.FailedAnswerStores` is
  such a run.
- src/datadog_server.cpp:820-836 closes a removed server outside the lock, so a listener can be started again
  before its old server is closed: `RegistryProtocol.TwoServersAtOnce`.
- A present but zero parent id is written by the JSON encoder and omitted by the protobuf encoder; the two
  modes agree exactly when there is none (`AgentBody.ModesAgreeIff`), which
  `WriteTraces.NoZeroParents` shows for every table.

## Model

| member | source | states |
|---|---|---|
| HexIds.ParseDatadogHexId | src/datadog_json.cpp:577-617 | accepts exactly 1 to 32 hex digits after trimming and an optional `0x`; the shifted words are the quotient and remainder of the denoted number by 2^64 |
| HexIds.WriteHighHex | src/datadog_json.cpp:603-616 | the high word is written as its shortest lower-case hex text |
| HexIds.ShortHexDenotes | src/datadog_json.cpp:603-616 | that text has no leading zero, denotes the word, and is empty only for zero |
| HexIds.ShortHexUnique | src/datadog_json.cpp:603-616 | no other text without leading zero denotes the same word |
| HexIds.ShiftInDigit | src/datadog_json.cpp:592-601 | one step over the two words multiplies the 128-bit number by 16 and adds the digit, losing no bit |
| HexIds.SplitIsExact | src/datadog_json.cpp:577-617 | the two parts recombine to the number, and the high part is empty exactly below 2^64 |
| HexIds.ParseIsExact | src/datadog_json.cpp:577-617 | for every accepted text, high times 2^64 plus low is the number its digits denote |
| HexIds.DigitPlaces | src/datadog_json.cpp:590-596 | the digit at place d of the lower-case and of the upper-case alphabet has value d |
| HexIds.CaseDoesNotMatter | src/datadog_json.cpp:577-617 | an id in other letter case is accepted alike and denotes the same number |
| HexIds.PrefixDoesNotMatter | src/datadog_json.cpp:580-585 | 1 to 32 digits denote the same number bare, after `0x` and after `0X` |
| HexIds.CanonicalIdRoundTrip | src/datadog_json.cpp:577-617 | high hex followed by 16 padded digits of low is accepted again and gives the same pair |
| HexIds.TraceKeyInjective | src/datadog_json.cpp:697-706 | the grouping key text determines both id words |
| HexIds.TraceKeyIdentifiesNumber | src/datadog_trace_proto.cpp:122-133 | two id texts give the same key exactly when they denote the same 128-bit number |
| SpanAttributes.Resolution.MergeAttributesIntoResolved | src/datadog_json.cpp:622-665 | merging a JSON attribute object records the first candidate of every unclaimed key |
| SpanAttributes.ResolveDatadogAgentSpanAttributes | src/datadog_json.cpp:667-683 | meta and metrics are the first-wins resolution of the candidates |
| SpanAttributes.FirstWinsSelects | src/datadog_json.cpp:667-683 | the resolved entry of a key is the first candidate with that key |
| SpanAttributes.ResolutionPrecedence | src/datadog_json.cpp:667-683 | per key: trace id high bits, then non-empty reserved meta, then span attributes, then resource attributes |
| SpanAttributes.EmptyReservedDoesNotBlock | src/datadog_json.cpp:667-683 | an empty reserved value leaves the key to a later source |
| SpanAttributes.ResolvedKeysUnique | src/datadog_json.cpp:622-683 | keys are unique within and across meta and metrics, and every candidate key is resolved |
| Grouping.SameGroupIffSameKey | src/datadog_json.cpp:692-706 | two elements share a group exactly when their keys are equal |
| Grouping.GroupsArePermutation | src/datadog_json.cpp:692-706 | the groups together are a permutation of the input |
| Grouping.FirstSeenKeys | src/datadog_json.cpp:692-706 | the group keys are the keys that occur, each once |
| Grouping.FirstSeenInOrder | src/datadog_json.cpp:692-706 | groups are in the order in which their keys first appear |
| Grouping.GroupMembers | src/datadog_json.cpp:692-706 | a group holds exactly the elements with its key |
| Grouping.GroupCount | src/datadog_trace_proto.cpp:119-137 | there are as many groups as distinct keys and none is empty |
| Grouping.GroupBySnoc | src/datadog_trace_proto.cpp:119-137 | one more element extends its own group or opens a group at the end |
| ProtoWire.AppendVarint | src/datadog_trace_proto.cpp:19-25 | appends the base-128 varint of the value |
| ProtoWire.AppendVarintField | src/datadog_trace_proto.cpp:32-39 | appends a varint field, nothing for zero |
| ProtoWire.AppendLenDelimited | src/datadog_trace_proto.cpp:45-50 | appends a length-delimited field, empty ones included |
| ProtoWire.AppendStringField | src/datadog_trace_proto.cpp:52-57 | appends a string field, nothing for the empty string |
| ProtoWire.AppendDoubleField | src/datadog_trace_proto.cpp:59-68 | appends the 8 little-endian bytes of the bit pattern |
| ProtoWire.VarintRoundTrip | src/datadog_trace_proto.cpp:19-25 | reading a varint gives the value and leaves the rest |
| ProtoWire.VarintLength | src/datadog_trace_proto.cpp:19-25 | a varint has exactly as many bytes as its value has base-128 digits |
| ProtoWire.FieldRoundTrip | src/datadog_trace_proto.cpp:27-68 | reading one field of any wire type gives the field and leaves the rest |
| ProtoWire.MessageRoundTrip | src/datadog_trace_proto.cpp:19-68 | reading a message gives its fields in order |
| TraceProto.EncodeSpan | src/datadog_trace_proto.cpp:85-113 | the bytes are the message of the span's fields |
| TraceProto.EncodeChunks | src/datadog_trace_proto.cpp:117-137 | the chunks are the messages of the groups, in first-appearance order |
| TraceProto.EncodeDatadogAgentPayload | src/datadog_trace_proto.cpp:115-155 | the bytes are the payload message and the count is the number of traces |
| TraceReader.SpanRoundTrip | src/datadog_trace_proto.cpp:85-113 | reading a span message gives every field, defaults for the omitted ones |
| TraceReader.ChunkRoundTrip | src/datadog_trace_proto.cpp:117-137 | reading a chunk gives priority 1 and its spans in order |
| TraceReader.TracerRoundTrip | src/datadog_trace_proto.cpp:138-148 | reading the tracer payload gives its chunks, language and environment |
| TraceReader.PayloadRoundTrip | src/datadog_trace_proto.cpp:115-155 | reading the whole payload gives host name, environment, and all chunks and spans in order |
| TraceReader.DeliveredAttributes | src/datadog_trace_proto.cpp:100-111 | although map decoding keeps the last entry of a key, no resolved attribute is lost |
| TraceReader.NegativeTakesTenBytes | src/datadog_trace_proto.cpp:41-43 | exactly the negative int64 values take ten bytes |
| AgentBody.BuildSpanObject | src/datadog_json.cpp:708-746 | the span object has the members of the JSON encoder in its order |
| AgentBody.BuildDatadogAgentTracesBody | src/datadog_json.cpp:685-757 | the body is the array of trace arrays and the count their number |
| AgentBody.SpanObjectRoundTrip | src/datadog_json.cpp:708-746 | reading a span object gives every field of the span |
| AgentBody.TracesBodyRoundTrip | src/datadog_json.cpp:685-757 | reading the body gives the groups in order |
| AgentBody.ModesAgreeIff | src/datadog_json.cpp:685-757 | JSON tree and protobuf payload carry the same traces exactly when no present parent id is zero |
| WriteTraces.ReadIdField | src/write_traces.cpp:182-203 | an id cell gives the split of the number it denotes, integers and texts alike |
| WriteTraces.BuildAgentSpanFromRow | src/write_traces.cpp:266-342 | the span of a row or the reason for skipping it; `TraceDelivery` states what they show of the row |
| WriteTraces.DatadogWriteTracesFunction | src/write_traces.cpp:344-398 | one request at most, with the spans of all valid rows; `ok`, `skipped` or NULL per row; no results when sending fails |
| WriteTraces.NoZeroParents | src/write_traces.cpp:276-281 | no row yields a span with a zero parent id |
| WriteTraces.ModesDeliverTheSame | src/write_traces.cpp:384-394 | for every table, the agent mode and the direct mode deliver the same traces |
| WriteTraces.GroupedByTraceNumber | src/write_traces.cpp:266-275 | the spans of two rows are sent in one trace exactly when their trace id cells denote the same number |
| TraceDelivery.RequestTellsRows | src/write_traces.cpp:266-398 | in either mode, the traces read out of the request hold one span for each usable row and no other; it shows the row's ids, texts or their defaults, times, error and reserved cells, each in its own field |
| TraceDelivery.HighWordArrives | src/write_traces.cpp:266-271 | the high word of a trace id arrives under `_dd.p.tid` as its shortest hexadecimal text |
| TraceDelivery.AttributesArrive | src/datadog_json.cpp:622-683 | an attribute outside the reserved keys arrives by its kind: numbers as the same metric, booleans as `true` or `false`, text unchanged, nulls nowhere; the span's first value before the resource's |
| TraceDelivery.SkipReasons | src/write_traces.cpp:266-286 | a row is sent exactly when its ids and start time are usable, and otherwise reported with the first reason |
| SearchQuery.BuildDatadogSearchQuery | src/datadog_json.cpp:360-376 | the composed text: the query alone, the terms alone for `*`, else both |
| SearchQuery.ComposedQueryParses | src/datadog_json.cpp:360-376 | parsing the composed text gives the user's query conjoined with every term |
| SearchQuery.ComposedQueryMeaning | src/datadog_json.cpp:360-376 | the composed text selects what the user's query and all terms select, `*` acting as true |
| SearchQuery.UnbalancedQueryEscapes | src/datadog_json.cpp:360-376 | an unbalanced query is no query on its own but composes to one whose terms bind to a part only |
| SearchQuery.EmptyQueryDoesNotCompose | src/datadog_json.cpp:360-376 | an empty query composes to a text that is no query |
| Pushdown.RoundsOutward | src/logs_table.cpp:522-538 | floor and ceiling to milliseconds bracket the time for negative values too, within int64 |
| Pushdown.ReverseComparisonSound | src/logs_table.cpp:507-520 | a reversed comparison with swapped operands has the same three-valued truth |
| Pushdown.DatadogFilterPushdown.AddDatadogQueryTerm | src/logs_table.cpp:540-547 | a term is added once |
| Pushdown.DatadogFilterPushdown.TryPushDatadogComparison | src/logs_table.cpp:549-621 | the new terms and bounds are those of the comparison |
| Pushdown.DatadogFilterPushdown.TryPushDatadogExpression | src/logs_table.cpp:623-638 | conjunctions are pushed part by part and any other shape is left alone |
| Pushdown.DatadogFilterPushdown.CollectDatadogSearchPushdown | src/logs_table.cpp:640-649 | all filters are pushed in order |
| Pushdown.PushColumnSound | src/logs_table.cpp:549-621 | what one comparison pushes admits every row on which it is true |
| Pushdown.PushAllSound | src/logs_table.cpp:549-649 | what is pushed for a list of predicate trees admits every row on which all are true in three-valued logic |
| Pushdown.PushAllWellFormed | src/logs_table.cpp:491-621 | every pushed term is a plain search term and every bound fits int64 |
| Pushdown.PushedTermsIff | src/logs_table.cpp:549-649 | exactly the equations of a facet column with a safe value, at the top or inside conjunctions, become terms |
| Pushdown.BoundsArePushed | src/logs_table.cpp:549-649 | every bound on the time column there is pushed, rounded outward |
| SearchWindow.TryParseEpochMilliseconds | src/datadog_json.cpp:378-397 | accepts exactly the integer texts within int64 |
| SearchWindow.ResolveDatadogSearch | src/datadog_json.cpp:399-427 | the request text and window, and whether the window is empty |
| SearchWindow.WindowAgrees | src/datadog_json.cpp:399-427 | narrowing the window changes nothing for a row within the pushed bounds |
| SearchWindow.ComposesSafelyIff | src/datadog_json.cpp:360-376 | conjoining satisfied terms is invisible to every server exactly when the user's query is well-formed or there are no terms |
| SearchWindow.PushesSafelyIff | src/logs_table.cpp:549-662 | pushing is invisible behind the residual filter for every server exactly when the user's query is well-formed or no term is pushed, or when no row can satisfy the filters within the window |
| EventRows.MapEvent | src/logs_table.cpp:200-281 | each output slot of a log event is the named column of its row, NULL for columns without data and virtual ones |
| EventRows.MapSpanEvent | src/traces_table.cpp:301-418 | the same for a span event |
| EventRows.LogFacets | src/logs_table.cpp:235-254 | `service_name` is the event's own `service` and `severity_text` its own `status` |
| EventRows.RowTimeIsEventTime | src/logs_table.cpp:210-219 | the time column of a row is the parsed `timestamp` of a log event, `start_timestamp` of a span event |
| EventRows.HonestIsFaithful | src/logs_table.cpp:660-661 | a server that judges the events' own fields and times is faithful for the columns the scans push on, so the right facet is asked for each column |
| PagedScan.Scan.FetchNextPage | src/logs_table.cpp:352-389 | one page is requested at the cursor with the remaining limit, and the state follows the reply |
| PagedScan.Scan.DatadogLogsScan | src/logs_table.cpp:452-489 | one call emits the next chunk and leaves the specified state |
| PagedScan.CallInv | src/traces_table.cpp:462-599 | every call keeps the invariant: positive page limits until the end, reserved limits and emitted rows within the cap |
| PagedScan.OneFetchSuffices | src/logs_table.cpp:461-464 | a fetch leaves a row in the buffer or finishes the scan, so the loop runs once |
| PagedScan.RunBounds | src/logs_table.cpp:352-489 | over every run against any server, a failing last request included: rows within the cap, limits reserved within the cap, at most ceil(cap / page size) requests |
| PagedScan.EmptyChunkIsFinal | src/logs_table.cpp:452-489 | an empty chunk is only emitted by an exhausted scan |
| PagedScan.WholeTarget | src/datadog_json.cpp:900-916 | all rows are due without a cap, and with one exactly the rows up to it |
| PagedScan.ReadAll | src/logs_table.cpp:352-489 | against a server that pages through a list, the chunks are exactly its first rows up to the cap |
| SearchScan.PushdownComplexFilter | src/logs_table.cpp:651-662 | nothing is pushed for a capped scan, everything pushable otherwise |
| SearchScan.InitGlobal | src/logs_table.cpp:439-450 | a scan of an empty window starts finished |
| SearchScan.FilterText | src/logs_table.cpp:651-662 | a filter `service_name = 'v'` asks for `service:v`, and `severity_text = 'v'` on logs for `status:v` |
| SearchScan.RefinesIff | src/traces_table.cpp:601-611 | with or without a cap, the result is that of fetching everything and then filtering, on every server, exactly under that condition |
| SearchScan.SelectRows | src/logs_table.cpp:352-662 | end to end and for any query text, the result is what the residual filter leaves of the pushed request, capped; it is the filtered list of the user's own search if no term is pushed next to a malformed query |
| Batching.NextLogBatch | src/send_logs.cpp:281-291 | the index loop stops at the furthest greedy end |
| Batching.NextPointBatch | src/send_metrics.cpp:321-330 | the count loop stops at the same end for the same sizes |
| Batching.CutPoints | src/send_metrics.cpp:316-337 | the metrics loop cuts at the greedy ends |
| Batching.FurthestIsMaximal | src/send_logs.cpp:281-291 | the greedy end is feasible and no feasible batch from there reaches further |
| Batching.GreedyCutIsBest | src/send_logs.cpp:280-298 | the greedy cut is feasible and complete, and no feasible cut has fewer batches |
| Batching.SlicesCover | src/send_logs.cpp:280-298 | the batches of a cut concatenate to the input |
| Batching.SliceLimits | src/send_logs.cpp:280-298 | every batch has 1 to 1000 items and at most 4 MiB, a single larger item excepted |
| Retry.RateLimitRetryDelaySeconds | src/datadog_client.cpp:233-252 | the advised seconds plus one, clamped to 60, from the first usable header, else the exponential wait |
| Retry.RateLimitWaits | src/datadog_client.cpp:233-252 | the reset header counts before `Retry-After`; n seconds advised make the wait min(n + 1, 60) |
| Retry.RetriedIff | src/datadog_client.cpp:484-500 | while the budget lasts exactly the four pre-send errors, 429 and server errors are retried |
| Retry.LastOutcomeDecides | src/datadog_client.cpp:473-506 | without an interrupt a call is delivered exactly if its last reply is in 200..299, and else throws that reply's status or the transport error |
| Retry.FirstReplyDelivers | src/datadog_client.cpp:500-505 | a first reply in 200..299 means one request, no wait, delivered |
| Retry.AttemptsBounded | src/datadog_client.cpp:473-506 | at most `retries + 1` requests, with a wait between any two |
| Retry.AtMostOnceIff | src/datadog_client.cpp:203-213 | no call stores its batch twice exactly when no retried outcome means "stored" |
| Retry.ServerErrorsCanDuplicate | src/datadog_client.cpp:496-499 | a server that stores and then answers with a server error gets the batch twice |
| Retry.DeliveredExactlyOnce | src/datadog_client.cpp:473-506 | under that condition a normal return means stored exactly once |
| Retry.WaitsWithinIff | src/datadog_client.cpp:233-252 | every wait is in 1..60 seconds, whatever undefined shifts give, exactly for budgets up to 64 |
| Retry.TotalBackoffIs | src/datadog_client.cpp:481-499 | n exponential waits total 2^n - 1 up to six and 63 + 60(n - 6) beyond |
| Retry.RefusedCallWaits | src/datadog_client.cpp:473-499 | the total wait of a call that never connects |
| IntakeClient.DatadogClient.AcquireIntakeConnection | src/datadog_client.cpp:167-177 | takes the newest idle connection, or opens one |
| IntakeClient.DatadogClient.ReleaseIntakeConnection | src/datadog_client.cpp:179-185 | the connection becomes the newest idle one |
| IntakeClient.DatadogClient.PostUntilDone | src/datadog_client.cpp:473-506 | the loop behaves as the retry policy says; exactly after a transport error the next request goes over a connection not used before |
| IntakeClient.DatadogClient.SendLogs | src/datadog_client.cpp:411-508 | the call ends as its last outcome says, at once and delivered after a first reply in 200..299; its connection returns to the pool exactly when the batch was delivered |
| PoolProtocol.StepPreserves | src/datadog_client.cpp:156-185 | every step of every thread keeps conservation of connections |
| PoolProtocol.ExclusiveOwnership | src/datadog_client.cpp:471-505 | in every interleaving a live connection is idle once or held by one thread, and idle ones succeeded last |
| PoolProtocol.SendIsARun | src/datadog_client.cpp:473-506 | the steps of one undisturbed thread are the call itself: as many requests as the retry policy makes, and the pool grows exactly when the batch was delivered |
| PoolProtocol.NeverReenters | src/datadog_client.cpp:476-505 | a connection that saw a transport error or was destroyed is never pooled or held again |
| IntakeMapping.BuildDatadogIntakeBody | src/datadog_json.cpp:851-898 | the body is the array of the logs' intake objects |
| IntakeMapping.BlockSurvives | src/datadog_json.cpp:835-839 | the whole resource block arrives among the log attributes, whatever was mined from it |
| IntakeMapping.BlockHostSurvives | src/datadog_json.cpp:808-813 | without a host column, the block's host arrives as the row's host |
| IntakeMapping.JoinIsCommas | src/datadog_json.cpp:814-833 | joining the string tags of the block's array gives their comma list, elements of other types left out |
| IntakeMapping.BlockTagsSurvive | src/datadog_json.cpp:814-833 | without a tag column, the block's trimmed, non-empty, comma-free tags arrive as the same list |
| IntakeMapping.MergeJsonObjectAttributes | src/datadog_json.cpp:762-792 | custom attributes are added unless the key is already set |
| IntakeMapping.ColumnsAreSent | src/datadog_json.cpp:851-898 | every non-empty column is sent under its own key, whatever the attributes say |
| IntakeMapping.MapIntakeLog | src/datadog_server.cpp:350-398 | the row of an intake object: time, ids, service, severity, status, message and both attribute blocks; none for a value that is no object |
| IntakeMapping.FieldsSurvive | src/datadog_server.cpp:350-398 | non-empty message, service and status arrive as sent, and the status with its severity number |
| IntakeMapping.IdsSurvive | src/datadog_server.cpp:350-398 | a trace or span id arrives unless the agent's own key carries another string, which then arrives instead |
| IntakeMapping.AttributesSurvive | src/datadog_server.cpp:320-348 | the value of every key that arrives among the log attributes |
| IntakeMapping.CustomAttributesSurvive | src/datadog_server.cpp:320-348 | custom attributes outside the reserved and column keys arrive unchanged |
| IntakeMapping.TimeSurvives | src/datadog_server.cpp:239-263 | a nanosecond time arrives truncated to its millisecond exactly when the server's `long double` conversion of it is exact |
| IntakeMapping.ExtendedConvertsExactly | src/datadog_server.cpp:243-246 | with a 64-bit mantissa the conversion is exact for every time |
| IntakeMapping.DoubleConvertsExactlyIff | src/datadog_server.cpp:243-246 | with a 53-bit mantissa it is exact just for times that a double represents |
| IntakeMapping.DoubleShiftsTime | src/datadog_server.cpp:243-246 | with a 53-bit mantissa the time 1700000000123 ms arrives 64 ns late |
| IntakeMapping.TagsSurvive | src/datadog_server.cpp:287-318 | a list of trimmed, non-empty, comma-free tags arrives as the same list |
| IntakeMapping.HostSurvives | src/datadog_server.cpp:287-318 | a non-empty host column arrives in the resource attributes |
| IntakeMapping.SourceSurvives | src/datadog_server.cpp:287-318 | a non-empty source column arrives in the resource attributes |
| SendLogs.DatadogSendLogsFunction | src/send_logs.cpp:248-299 | the bodies posted are those of the greedy batches up to the first failure; `ok` or NULL per row, no results on failure |
| SendLogs.RowsAreStoredOnce | src/send_logs.cpp:280-298 | a successful call stores the non-NULL rows once each and in order, a failed one a prefix of them |
| SendLogs.PromptRepliesDeliver | src/send_logs.cpp:280-298 | when the first reply to every batch is in 200..299, every batch is posted once, the call succeeds and all rows are stored |
| SendLogs.BatchLimits | src/send_logs.cpp:280-298 | a request holds 1 to 1000 logs, estimated at no more than 4 MiB unless it is a single log |
| SendLogs.CellsSurvive | src/send_logs.cpp:209-246 | every non-empty message, service, status, host, source and id cell arrives in its own column of the served row; the source defaults to `duckdb` |
| SendLogs.TagCellSurvives | src/send_logs.cpp:209-246 | a tag cell listing clean tags arrives as that list |
| SendLogs.AttributeCellSurvives | src/send_logs.cpp:209-246 | a custom attribute outside the column keys arrives unchanged from its own cell |
| SendLogs.BlockCellSurvives | src/send_logs.cpp:209-246 | the whole resource block arrives from its own cell |
| SendLogs.OtherTimesSurvive | src/send_logs.cpp:182-207 | a millisecond column arrives as such and a date truncated to its millisecond, when the server converts exactly |
| SendLogs.RowTimeSurvives | src/send_logs.cpp:182-246 | an integer nanosecond time arrives truncated, whichever time column it is in, when the server converts it exactly |
| SendLogs.SeveritySurvives | src/send_logs.cpp:88-108 | a severity number without a status text arrives as the first number of its range of four |
| SendLogs.StatusSpellings | src/datadog_server.cpp:175-196 | other spellings of a status have the usual one's severity number, in any letter case |
| IntakeLines.RowsFromIsLines | src/datadog_server.cpp:425-438 | the line loop reads exactly the non-empty trimmed pieces between newlines |
| IntakeServer.ParseIntakeBody | src/datadog_server.cpp:400-443 | the rows of all documents of a body, or a refusal of the whole body |
| IntakeServer.BodyIsRefusedIff | src/datadog_server.cpp:400-443 | a body is refused exactly when one of its documents (each non-empty line for the three line types, else the whole body) is no JSON object and no array of at most 1000 objects |
| IntakeServer.TimingSafeEqual | src/datadog_server.cpp:198-207 | the constant-time comparison is equality |
| IntakeServer.DatadogServer.Append | src/datadog_server.cpp:743-764 | all rows reach the table or none |
| IntakeServer.DatadogServer.HandleLogs | src/datadog_server.cpp:573-596 | 413 exactly beyond the body limit; 403 exactly for a wrong or missing key within it; 400 exactly for a refused body or an invalid-input error of the database; 500 exactly for its other errors or a failing answer; a request is stored and counted as a whole or not at all, and only with the right key |
| IntakeServer.BatchIsAccepted | src/datadog_server.cpp:400-419 | every batch the sender cuts is within the intake's array limit and maps log by log, in order |
| IntakeConcurrency.IntakeIsAtomic | src/datadog_server.cpp:573-596 | under every interleaving the tables are the complete row lists of the committed requests in commit order; 202 means present in one piece and counted; 400, 403 and 413 mean absent; 500 means present exactly when counted and not empty |
| IntakeRuns.HandleIsARun | src/datadog_server.cpp:573-596 | the steps of an undisturbed request answer, store and count what one call of the handler does |
| IntakeRuns.FailedAnswerStores | src/datadog_server.cpp:589-595 | a run that answers 500 although the whole request is in the table |
| IntakeConcurrency.RowCounterIsExact | src/datadog_server.cpp:585-587 | the row counter is the sum over the requests that reached it, and equals the table sizes exactly when none with rows is on its way |
| ListenUri.DatadogListenUri | src/datadog_server.cpp:67-119 | the listener a URI names, or a refusal |
| ListenUri.CheckHost | src/datadog_server.cpp:95-99 | the character check of a host |
| ListenUri.ParsePort | src/datadog_server.cpp:143-154 | a fully read number in 1..65535 |
| ListenUri.CanonicalRoundTrip | src/datadog_server.cpp:67-119 | parsing the canonical text of a listener gives the listener back |
| ListenUri.Defaults | src/datadog_server.cpp:67-119 | without a port 10518 is meant, and without anything after the scheme localhost |
| ListenUri.KeyIdentifiesListener | src/datadog_server.cpp:67-119 | two accepted URIs have the same key exactly when host, kind and port agree |
| ListenerRegistry.DatadogServerExtensionInfo.Start | src/datadog_server.cpp:796-818 | reuses, refuses or registers a server as decided from the registered options; every other entry stays |
| ListenerRegistry.DatadogServerExtensionInfo.Stop | src/datadog_server.cpp:820-836 | removes and closes the server of the key, leaving the others listening |
| ListenerRegistry.DatadogServerExtensionInfo.StopAll | src/datadog_server.cpp:840-854 | removes and closes all |
| RegistryProtocol.RegistryIsSafe | src/datadog_server.cpp:796-854 | under every interleaving no two registered servers have the same listener; two unclosed ones share it only while the remover of one has yet to close it; a removed one is closed by its remover only |
| RegistryProtocol.LocalUnlessAllowed | src/datadog_server.cpp:540-556 | in every reachable state a server without `allow_other_hostname` listens on this machine only, and every server has a table, a body limit and threads |
| RegistryProtocol.TwoServersAtOnce | src/datadog_server.cpp:820-836 | a run with two unclosed servers of one listener, since removing and closing are separate steps |
| RegistryProtocol.StopIsARun | src/datadog_server.cpp:820-836 | the steps of an undisturbed `Stop` remove and close the server of the key and leave everything else |
| RegistryProtocol.StopAllIsARun | src/datadog_server.cpp:840-854 | the steps of an undisturbed `StopAll` remove and close every registered server |
| RegistryProtocol.RemovedAreClosedOnce | src/datadog_server.cpp:820-854 | once no thread has anything left to close, every removed server was closed exactly once |
| RegistryProtocol.StartIsIdempotent | src/datadog_server.cpp:796-818 | in every reachable state, starting again with the same options reuses the server and changes nothing |
| RegistryProtocol.ReusedHasOptionsIff | src/datadog_server.cpp:803-811 | a reused server has the requested options exactly when the metrics tables agree too |
| RegistryProtocol.MetricsTableIgnored | src/datadog_server.cpp:803-811 | two starts that differ in the metrics table share the first one's server |
| ServiceMapWindow.ParseMagnitude | src/datadog_json.cpp:154-166 | the digits' value when it fits int64, with no overflow on the way |
| ServiceMapWindow.ParseRelativeDurationSeconds | src/datadog_json.cpp:126-172 | the seconds of a relative text, positive and within int64 |
| ServiceMapWindow.ResolveDatadogServiceMapEndpoint | src/datadog_json.cpp:174-214 | the endpoint a text denotes |
| ServiceMapWindow.EndpointIsGrammar | src/datadog_json.cpp:126-214 | exactly the texts of the grammar whose value fits are accepted, with their mathematical value |
| ServiceMapWindow.NegativeEpochIsRefused | src/datadog_json.cpp:187-208 | a minus sign and digits are never epoch seconds |
| ServiceMapWindow.ResolveDatadogServiceMapWindow | src/datadog_json.cpp:216-231 | the range check by seconds is the check that the nanoseconds fit |
| ServiceMapWindow.WindowIsGrammar | src/service_dependencies_table.cpp:122-127 | accepted endpoints are in order and times 10^9 within int64, and nothing else is refused |
| OpenAlerts.OpenAlertsScan.FetchNextPage | src/alerts_table.cpp:102-126 | one more page is received and its open groups are buffered |
| OpenAlerts.OpenAlertsScan.DatadogOpenAlertsScan | src/alerts_table.cpp:135-152 | terminates, emits the next rows, and emits an empty chunk only at the end |
| OpenAlerts.ReadOpenAlerts | src/alerts_table.cpp:102-152 | the chunks together are the open groups, in order, of the part of the list the total makes the scan look at |
| OpenAlerts.EmittedStatuses | src/alerts_table.cpp:43-45 | a group looked at is emitted exactly when its status is Alert, Warn or No Data |
| OpenAlerts.CompleteIff | src/alerts_table.cpp:121-125 | with a reported total the whole list is seen exactly when the total reaches into its last page |
| OpenAlerts.CompleteTotals | src/alerts_table.cpp:121-125 | truthful, missing and exaggerated totals all let the scan see every group |

## Left out

- HTTP, TLS, sockets, sleeping and compression: a request is an arbitrary outcome, time is the sum of the waits.
- JSON text: values are algebraic, parsing is a function parameter, and the size estimate is only bounded as an estimate.
- Strings have no embedded NUL and one character per byte, since the builders copy C strings.
- Percent-encoding, base-URL normalisation, site and secret handling, attach options, catalogs and binding: no state to reason about. A scan yields whole rows by column name; `EventRows.MapEvent` is the projection of one event.
- Timestamps given as dates or doubles, and DuckDB casts: `IntakeMapping.Outside` and `Cells.Cell` take the converted value.
- The JSON text columns of both tables and the derived span columns (duration, kind, status; src/traces_table.cpp:133-299): any function of the event (`EventRows.Reading.other`), since nothing is pushed on them.
- The clock is read once per intake request, not once per log.
- The grouping loops keep indexes of groups where the C++ code keeps pointers into its arrays; aliasing of those arrays is not modelled.
- Emscripten branches: thin calls into a library that is not part of this model.
- The retry loops of `AuthenticatedRequest`, `SendMetrics` and the trace senders (src/datadog_client.cpp:255-362, 510-800): the same shape as `SendLogs` with other status sets.
- The row loop of `send_datadog_metrics`, the series body and its parsing (src/send_metrics.cpp:200-340, src/datadog_server.cpp:447-490): doubles and one-branch checks; its batching loop is modelled, and its handler appears in `IntakeConcurrency` as requests for the second table.
- src/metrics_table.cpp: rests on library accessors and floating point.
- Parsing of service dependencies, log indexes and alert pages (src/datadog_json.cpp:83-124, 233-358): shape checks and de-duplication.
- Termination of an unlimited scan against a server that keeps inventing cursors: the code does not promise it, only a repeated cursor is detected.
- Facet values are matched by the server at least as broadly as SQL equality; how much more broadly is the server's business and the residual filter removes it.
