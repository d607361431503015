/**
 `write_datadog_traces`: turning table rows into spans, reporting every row, and sending the spans
 in one of the two modes.
 */
module WriteTraces {
  import opened Cells
  import opened Prelude
  import opened Text
  import opened HexIds
  import opened Grouping
  import opened TraceProto
  import AgentBody
  import Json
  import SpanAttributes
  import TraceReader

  datatype Row =
    | NullRow
    | SpanRow(
        traceId: Cell,
        spanId: Cell,
        parentSpanId: Cell,
        name: Cell,
        resource: Cell,
        service: Cell,
        spanType: Cell,
        start: Cell,
        duration: Cell,
        kind: Cell,
        statusCode: Cell,
        statusMessage: Cell,
        traceState: Cell,
        events: Cell,
        links: Cell,
        spanAttributes: SpanAttributes.AttributeSource,
        resourceAttributes: SpanAttributes.AttributeSource)

  datatype RowResult = NullResult | OkResult | SkippedResult(reason: string)

  /** The number an id cell denotes, when it is an id at all. */
  function IdNumber(cell: Cell): Option<nat> {
    match cell
    case Integral(value) => if 0 <= value < TWO_64 then Some(value) else None
    case Other(text, _, _) => if IsHexId(text) then Some(IdValue(text)) else None
    case _ => None
  }

  method ReadIdField(cell: Cell) returns (r: Option<SplitId>)
    ensures r == match IdNumber(cell) { case None => None case Some(n) => Some(Split(n)) }
  {
    match cell {
      case Absent => return None;
      case NullCell => return None;
      case Integral(value) =>
        if 0 <= value < TWO_64 {
          return Some(SplitId(value, ""));
        }
        return None;
      case Other(text, _, _) =>
        r := ParseDatadogHexId(text);
    }
  }

  function SpanKind(kind: int): Option<string> {
    if kind == 1 then Some("internal")
    else if kind == 2 then Some("server")
    else if kind == 3 then Some("client")
    else if kind == 4 then Some("producer")
    else if kind == 5 then Some("consumer")
    else None
  }

  function ReservedEntry(key: string, cell: Cell): seq<(string, string)> {
    if StringField(cell) == "" then [] else [(key, StringField(cell))]
  }

  function KindEntry(row: Row): seq<(string, string)>
    requires row.SpanRow?
  {
    var kind := match IntegerField(row.kind) { case None => None case Some(k) => SpanKind(k) };
    if kind.Some? then [("span.kind", kind.value)] else []
  }

  /** The reserved meta entries of a row, in the order the code adds them. */
  function ReservedMeta(row: Row): seq<(string, string)>
    requires row.SpanRow?
  {
    KindEntry(row)
    + ReservedEntry("error.message", row.statusMessage)
    + ReservedEntry("w3c.tracestate", row.traceState)
    + ReservedEntry("events", row.events)
    + ReservedEntry("_dd.span_links", row.links)
  }

  /** The span a row denotes, or why it denotes none; the ids are checked before the start time. */
  function SpanOf(row: Row): Result<AgentSpan, string>
    requires row.SpanRow?
  {
    var traceId, spanId, parentId := IdNumber(row.traceId), IdNumber(row.spanId), IdNumber(row.parentSpanId);
    var start, duration := TimestampField(row.start), IntegerField(row.duration);
    if traceId.None? then Err("missing or invalid trace_id")
    else if spanId.None? then Err("missing or invalid span_id")
    else if start.None? then Err("missing or invalid start_time_unix_nano")
    else
      var name := OrDefault(StringField(row.name), "unnamed_operation");
      var isServer := IntegerField(row.kind) == Some(2);
      Ok(SpanAttributes.AgentSpan(
           Split(traceId.value),
           spanId.value % TWO_64,
           // The code compares the low word with zero.
           if parentId.Some? && parentId.value % TWO_64 != 0 then Some(parentId.value % TWO_64) else None,
           OrDefault(StringField(row.service), "unknown-service"),
           name,
           OrDefault(StringField(row.resource), name),
           if StringField(row.spanType) == "" && isServer then "web" else StringField(row.spanType),
           start.value,
           if duration.Some? && duration.value >= 0 then duration.value else 0,
           IntegerField(row.statusCode) == Some(2),
           ReservedMeta(row),
           row.spanAttributes,
           row.resourceAttributes))
  }

  /** An empty field adds no entry. */
  method AddReserved(meta: seq<(string, string)>, key: string, cell: Cell) returns (longer: seq<(string, string)>)
    ensures longer == meta + ReservedEntry(key, cell)
  {
    longer := meta;
    var text := StringField(cell);
    if text != "" {
      longer := longer + [(key, text)];
    }
  }

  method BuildReservedMeta(row: Row) returns (meta: seq<(string, string)>, isServer: bool)
    requires row.SpanRow?
    ensures meta == ReservedMeta(row)
    ensures isServer <==> IntegerField(row.kind) == Some(2)
  {
    meta := [];
    isServer := false;
    var kind := IntegerField(row.kind);
    if kind.Some? {
      var kindText := SpanKind(kind.value);
      if kindText.Some? {
        meta := meta + [("span.kind", kindText.value)];
        isServer := kind.value == 2;
      }
    }
    assert meta == KindEntry(row);
    meta := AddReserved(meta, "error.message", row.statusMessage);
    meta := AddReserved(meta, "w3c.tracestate", row.traceState);
    meta := AddReserved(meta, "events", row.events);
    meta := AddReserved(meta, "_dd.span_links", row.links);
  }

  method BuildAgentSpanFromRow(row: Row) returns (r: Result<AgentSpan, string>)
    requires row.SpanRow?
    ensures r == SpanOf(row)
  {
    var traceId := ReadIdField(row.traceId);
    if traceId.None? {
      return Err("missing or invalid trace_id");
    }
    var spanId := ReadIdField(row.spanId);
    if spanId.None? {
      return Err("missing or invalid span_id");
    }
    var parentId: Option<uint64> := None;
    var parent := ReadIdField(row.parentSpanId);
    if parent.Some? && parent.value.low != 0 {
      parentId := Some(parent.value.low);
    }
    var start := TimestampField(row.start);
    if start.None? {
      return Err("missing or invalid start_time_unix_nano");
    }
    var durationNs: int64 := 0;
    var duration := IntegerField(row.duration);
    if duration.Some? && duration.value >= 0 {
      durationNs := duration.value;
    }
    var service := StringField(row.service);
    if service == "" {
      service := "unknown-service";
    }
    var name := StringField(row.name);
    if name == "" {
      name := "unnamed_operation";
    }
    var resource := StringField(row.resource);
    if resource == "" {
      resource := name;
    }
    var spanType := StringField(row.spanType);
    var meta, isServer := BuildReservedMeta(row);
    if spanType == "" && isServer {
      spanType := "web";
    }
    var error := IntegerField(row.statusCode) == Some(2);
    r := Ok(SpanAttributes.AgentSpan(traceId.value, spanId.value.low, parentId, service, name, resource, spanType,
                                     start.value, durationNs, error, meta, row.spanAttributes, row.resourceAttributes));
  }

  /** The spans of the rows that denote one, in row order. */
  function SpansOf(rows: seq<Row>): seq<AgentSpan> {
    if rows == [] then []
    else
      var rest, row := SpansOf(rows[..|rows| - 1]), rows[|rows| - 1];
      if row.SpanRow? && SpanOf(row).Ok? then rest + [SpanOf(row).value] else rest
  }

  function ResultOf(row: Row): RowResult {
    if row.NullRow? then NullResult
    else if SpanOf(row).Ok? then OkResult
    else SkippedResult(SpanOf(row).error)
  }

  /** The one request of a call. */
  datatype Request = Protobuf(payload: string, traceCount: nat) | AgentJson(body: Json.Json, traceCount: nat)

  /** What the one request of a call carries, when it is made. */
  function RequestFor(spans: seq<AgentSpan>, directIntake: bool): Request {
    if directIntake then Protobuf(PayloadBytes(spans, "", ""), |GroupBy(spans, SpanKey)|)
    else AgentJson(AgentBody.TracesBody(spans), |GroupBy(spans, SpanKey)|)
  }

  /** Rows before `n` are either recorded for the final `ok` or hold their result already. */
  ghost predicate Collected(rows: seq<Row>, n: nat, slots: seq<RowResult>, sourceRows: seq<nat>)
    requires n <= |rows|
  {
    && |slots| == |rows|
    && (forall r :: r in sourceRows ==> r < n && ResultOf(rows[r]) == OkResult)
    && (forall r :: 0 <= r < n ==> r in sourceRows || slots[r] == ResultOf(rows[r]))
  }

  method CollectSpans(rows: seq<Row>) returns (slots: seq<RowResult>, spans: seq<AgentSpan>, sourceRows: seq<nat>)
    ensures Collected(rows, |rows|, slots, sourceRows)
    ensures spans == SpansOf(rows) && |sourceRows| == |spans|
  {
    slots := seq(|rows|, _ => NullResult);
    spans, sourceRows := [], [];
    for i := 0 to |rows|
      invariant Collected(rows, i, slots, sourceRows)
      invariant spans == SpansOf(rows[..i]) && |sourceRows| == |spans|
    {
      assert rows[..i + 1][..i] == rows[..i];
      var row := rows[i];
      if row.NullRow? {
        slots := slots[i := NullResult];
        continue;
      }
      var built := BuildAgentSpanFromRow(row);
      if built.Err? {
        slots := slots[i := SkippedResult(built.error)];
        continue;
      }
      spans := spans + [built.value];
      sourceRows := sourceRows + [i];
    }
    assert rows[..|rows|] == rows;
  }

  method MarkSent(ghost rows: seq<Row>, before: seq<RowResult>, sourceRows: seq<nat>) returns (slots: seq<RowResult>)
    requires Collected(rows, |rows|, before, sourceRows)
    ensures |slots| == |rows| && forall r :: 0 <= r < |rows| ==> slots[r] == ResultOf(rows[r])
  {
    slots := before;
    for k := 0 to |sourceRows|
      invariant |slots| == |rows|
      invariant forall r :: 0 <= r < |rows| ==> r in sourceRows[k..] || slots[r] == ResultOf(rows[r])
    {
      var row := sourceRows[k];
      assert row in sourceRows;
      assert sourceRows[k..] == [row] + sourceRows[k + 1..];
      slots := slots[row := OkResult];
    }
  }

  method BuildRequest(spans: seq<AgentSpan>, directIntake: bool) returns (request: Request)
    ensures request == RequestFor(spans, directIntake)
  {
    if directIntake {
      var payload, traceCount := EncodeDatadogAgentPayload(spans, "", "");
      request := Protobuf(payload, traceCount);
    } else {
      var body, traceCount := AgentBody.BuildDatadogAgentTracesBody(spans);
      request := AgentJson(body, traceCount);
    }
  }

  /**
   `accepted` is what the client reports for the request; a failed send throws, which is the None
   result. No request is made when no row denotes a span.
   */
  method DatadogWriteTracesFunction(rows: seq<Row>, directIntake: bool, accepted: bool)
    returns (results: Option<seq<RowResult>>, request: Option<Request>)
    ensures request == if SpansOf(rows) == [] then None else Some(RequestFor(SpansOf(rows), directIntake))
    ensures results.None? <==> SpansOf(rows) != [] && !accepted
    ensures results.Some? ==>
              && |results.value| == |rows|
              && forall r :: 0 <= r < |rows| ==> results.value[r] == ResultOf(rows[r])
  {
    var slots, spans, sourceRows := CollectSpans(rows);
    if spans == [] {
      assert sourceRows == [];
      return Some(slots), None;
    }
    var sent := BuildRequest(spans, directIntake);
    request := Some(sent);
    if !accepted {
      return None, request;
    }
    slots := MarkSent(rows, slots, sourceRows);
    results := Some(slots);
  }

  /** No row yields a span with a zero parent id. */
  lemma {:induction false} NoZeroParents(rows: seq<Row>)
    ensures AgentBody.ParentsNonZero(SpansOf(rows))
  {
    if rows != [] {
      NoZeroParents(rows[..|rows| - 1]);
    }
  }

  /** For every table, the agent and the direct mode deliver the same traces. */
  lemma ModesDeliverTheSame(rows: seq<Row>)
    requires |PayloadBytes(SpansOf(rows), "", "")| < TWO_64
    ensures var read := TraceReader.ReadAgentPayload(PayloadBytes(SpansOf(rows), "", ""));
            read.Some? && AgentBody.ReadTracesBody(AgentBody.TracesBody(SpansOf(rows)))
                       == Some(AgentBody.PayloadTraces(read.value))
  {
    NoZeroParents(rows);
    AgentBody.ModesAgreeIff(SpansOf(rows), "", "");
  }

  lemma IdNumberBound(cell: Cell)
    requires IdNumber(cell).Some?
    ensures IdNumber(cell).value < TWO_64 * TWO_64
  {
    if cell.Other? {
      IdValueBound(cell.text);
    }
  }

  lemma SameKeyIffSameNumber(a: Row, b: Row)
    requires a.SpanRow? && b.SpanRow? && SpanOf(a).Ok? && SpanOf(b).Ok?
    ensures SpanKey(SpanOf(a).value) == SpanKey(SpanOf(b).value) <==> IdNumber(a.traceId) == IdNumber(b.traceId)
  {
    IdNumberBound(a.traceId);
    IdNumberBound(b.traceId);
    SplitIsExact(IdNumber(a.traceId).value);
    SplitIsExact(IdNumber(b.traceId).value);
    if SpanKey(SpanOf(a).value) == SpanKey(SpanOf(b).value) {
      TraceKeyInjective(SpanOf(a).value.traceId, SpanOf(b).value.traceId);
    }
  }

  lemma {:induction false} SpanIsSent(rows: seq<Row>, i: nat, span: AgentSpan)
    requires i < |rows| && rows[i].SpanRow? && SpanOf(rows[i]) == Ok(span)
    ensures span in SpansOf(rows)
  {
    if i < |rows| - 1 {
      SpanIsSent(rows[..|rows| - 1], i, span);
    }
  }

  /** The spans of two rows are sent in one trace exactly when their trace id cells denote the same number. */
  lemma GroupedByTraceNumber(rows: seq<Row>, i: nat, j: nat)
    requires i < |rows| && rows[i].SpanRow? && SpanOf(rows[i]).Ok?
    requires j < |rows| && rows[j].SpanRow? && SpanOf(rows[j]).Ok?
    ensures var groups := GroupBy(SpansOf(rows), SpanKey);
            IdNumber(rows[i].traceId) == IdNumber(rows[j].traceId) <==>
            exists g :: 0 <= g < |groups| && SpanOf(rows[i]).value in groups[g] && SpanOf(rows[j]).value in groups[g]
  {
    var spans := SpansOf(rows);
    var a, b := SpanOf(rows[i]).value, SpanOf(rows[j]).value;
    SpanIsSent(rows, i, a);
    SpanIsSent(rows, j, b);
    var p: nat :| p < |spans| && spans[p] == a;
    var q: nat :| q < |spans| && spans[q] == b;
    SameKeyIffSameNumber(rows[i], rows[j]);
    SameGroupIffSameKey(spans, SpanKey, p, q);
  }
}
