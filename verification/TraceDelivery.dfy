/**
 What a receiver of `write_datadog_traces` finds: in either mode, every usable row is there as a span, and
 the span shows each cell of the row where Datadog looks for it.
 */
module TraceDelivery {
  import opened Cells
  import opened Entries
  import opened Grouping
  import opened HexIds
  import opened Prelude
  import opened SpanAttributes
  import opened TraceProto
  import opened TraceReader
  import opened WriteTraces
  import AgentBody

  // ----- what a span shows of a row -----

  /** The row can form a span. */
  predicate IsUsable(row: Row) {
    row.SpanRow? && IdNumber(row.traceId).Some? && IdNumber(row.spanId).Some? && TimestampField(row.start).Some?
  }

  /** The low words of the ids; a zero parent is none. */
  predicate ShowsIds(span: WireSpan, row: Row)
    requires IsUsable(row)
  {
    && span.traceId == IdNumber(row.traceId).value % TWO_64
    && span.spanId == IdNumber(row.spanId).value % TWO_64
    && span.parentId == match IdNumber(row.parentSpanId) {
                          case None => None
                          case Some(n) => if n % TWO_64 == 0 then None else Some(n % TWO_64)
                        }
  }

  predicate ShowsTexts(span: WireSpan, row: Row)
    requires IsUsable(row)
  {
    && span.service == (if StringField(row.service) != "" then StringField(row.service) else "unknown-service")
    && span.name == (if StringField(row.name) != "" then StringField(row.name) else "unnamed_operation")
    && span.resource == (if StringField(row.resource) != "" then StringField(row.resource) else span.name)
    && span.spanType == (if StringField(row.spanType) != "" then StringField(row.spanType)
                         else if IntegerField(row.kind) == Some(2) then "web" else "")
  }

  predicate ShowsTimes(span: WireSpan, row: Row)
    requires IsUsable(row)
  {
    && Some(span.startNs) == TimestampField(row.start)
    && (span.durationNs > 0 ==> IntegerField(row.duration) == Some(span.durationNs))
    && (span.durationNs == 0 <==> IntegerField(row.duration).None? || IntegerField(row.duration).value <= 0)
    && span.durationNs >= 0
    && span.error == if IntegerField(row.statusCode) == Some(2) then 1 else 0
  }

  predicate HasMeta(span: WireSpan, key: string, text: string) {
    key in span.meta && span.meta[key] == text
  }

  /** Every reserved cell under its own key, and the high word of the trace id as a hexadecimal number. */
  predicate ShowsMeta(span: WireSpan, row: Row)
    requires IsUsable(row)
  {
    && (StringField(row.statusMessage) != "" ==> HasMeta(span, "error.message", StringField(row.statusMessage)))
    && (StringField(row.traceState) != "" ==> HasMeta(span, "w3c.tracestate", StringField(row.traceState)))
    && (StringField(row.events) != "" ==> HasMeta(span, "events", StringField(row.events)))
    && (StringField(row.links) != "" ==> HasMeta(span, "_dd.span_links", StringField(row.links)))
    && (IntegerField(row.kind) == Some(1) ==> HasMeta(span, "span.kind", "internal"))
    && (IntegerField(row.kind) == Some(2) ==> HasMeta(span, "span.kind", "server"))
    && (IntegerField(row.kind) == Some(3) ==> HasMeta(span, "span.kind", "client"))
    && (IntegerField(row.kind) == Some(4) ==> HasMeta(span, "span.kind", "producer"))
    && (IntegerField(row.kind) == Some(5) ==> HasMeta(span, "span.kind", "consumer"))
    && (IdNumber(row.traceId).value >= TWO_64 ==>
          && "_dd.p.tid" in span.meta && IsShortHex(span.meta["_dd.p.tid"])
          && HexValue(span.meta["_dd.p.tid"]) == IdNumber(row.traceId).value / TWO_64)
  }

  predicate Shows(span: WireSpan, row: Row)
    requires IsUsable(row)
  {
    ShowsIds(span, row) && ShowsTexts(span, row) && ShowsTimes(span, row) && ShowsMeta(span, row)
  }

  // ----- the reserved entries -----

  lemma {:induction false} ReservedLookup(meta: seq<(string, string)>, key: string)
    requires forall i :: 0 <= i < |meta| ==> meta[i].1 != ""
    ensures Lookup(ReservedCandidates(meta), key) ==
            match Lookup(meta, key) { case Some(text) => Some(Meta(text)) case None => None }
  {
    if meta != [] {
      var init, last := meta[..|meta| - 1], meta[|meta| - 1];
      ReservedLookup(init, key);
      assert meta == init + [last];
      LookupSnoc(init, last.0, last.1, key);
      LookupSnoc(ReservedCandidates(init), last.0, Meta(last.1), key);
    }
  }

  lemma EntryLookup(key: string, cell: Cell, wanted: string)
    ensures Lookup(ReservedEntry(key, cell), wanted) ==
            if key == wanted && StringField(cell) != "" then Some(StringField(cell)) else None
  {
    if StringField(cell) != "" {
      assert [(key, StringField(cell))][1..] == [];
    }
  }

  lemma ReservedMetaLookup(row: Row, key: string)
    requires row.SpanRow?
    ensures Lookup(ReservedMeta(row), key) ==
            OrElse(Lookup(KindEntry(row), key),
            OrElse(Lookup(ReservedEntry("error.message", row.statusMessage), key),
            OrElse(Lookup(ReservedEntry("w3c.tracestate", row.traceState), key),
            OrElse(Lookup(ReservedEntry("events", row.events), key),
                   Lookup(ReservedEntry("_dd.span_links", row.links), key)))))
  {
    var a, b := KindEntry(row), ReservedEntry("error.message", row.statusMessage);
    var c, d := ReservedEntry("w3c.tracestate", row.traceState), ReservedEntry("events", row.events);
    var e := ReservedEntry("_dd.span_links", row.links);
    LookupAppend(a + b + c + d, e, key);
    LookupAppend(a + b + c, d, key);
    LookupAppend(a + b, c, key);
    LookupAppend(a, b, key);
  }

  lemma KindLookup(row: Row, key: string)
    requires row.SpanRow?
    ensures key != "span.kind" ==> Lookup(KindEntry(row), key) == None
    ensures IntegerField(row.kind) == Some(1) ==> Lookup(KindEntry(row), "span.kind") == Some("internal")
    ensures IntegerField(row.kind) == Some(2) ==> Lookup(KindEntry(row), "span.kind") == Some("server")
    ensures IntegerField(row.kind) == Some(3) ==> Lookup(KindEntry(row), "span.kind") == Some("client")
    ensures IntegerField(row.kind) == Some(4) ==> Lookup(KindEntry(row), "span.kind") == Some("producer")
    ensures IntegerField(row.kind) == Some(5) ==> Lookup(KindEntry(row), "span.kind") == Some("consumer")
  {
    assert KindEntry(row) == [] || KindEntry(row)[1..] == [];
  }

  function OfCell(cell: Cell): Option<string> {
    if StringField(cell) == "" then None else Some(StringField(cell))
  }

  const RESERVED_META := {"span.kind", "error.message", "w3c.tracestate", "events", "_dd.span_links"}

  /** Each reserved key is looked up in its own cell, and no other key has an entry. */
  lemma ReservedCells(row: Row)
    requires row.SpanRow?
    ensures var meta := ReservedMeta(row);
            && Lookup(meta, "span.kind") == Lookup(KindEntry(row), "span.kind")
            && (StringField(row.statusMessage) != "" ==>
                  Lookup(meta, "error.message") == Some(StringField(row.statusMessage)))
            && (StringField(row.traceState) != "" ==>
                  Lookup(meta, "w3c.tracestate") == Some(StringField(row.traceState)))
            && (StringField(row.events) != "" ==> Lookup(meta, "events") == Some(StringField(row.events)))
            && (StringField(row.links) != "" ==> Lookup(meta, "_dd.span_links") == Some(StringField(row.links)))
    ensures forall key :: key !in RESERVED_META ==> Lookup(ReservedMeta(row), key) == None
  {
    forall key: string
      ensures Lookup(ReservedMeta(row), key) ==
              if key == "span.kind" then Lookup(KindEntry(row), key)
              else if key == "error.message" then OfCell(row.statusMessage)
              else if key == "w3c.tracestate" then OfCell(row.traceState)
              else if key == "events" then OfCell(row.events)
              else if key == "_dd.span_links" then OfCell(row.links)
              else None
    {
      ReservedMetaLookup(row, key);
      KindLookup(row, key);
      EntryLookup("error.message", row.statusMessage, key);
      EntryLookup("w3c.tracestate", row.traceState, key);
      EntryLookup("events", row.events, key);
      EntryLookup("_dd.span_links", row.links, key);
    }
  }

  lemma ReservedNotEmpty(row: Row)
    requires row.SpanRow?
    ensures forall i :: 0 <= i < |ReservedMeta(row)| ==> ReservedMeta(row)[i].1 != ""
  {
  }

  lemma ReservedOfSpan(span: AgentSpan, key: string, text: string)
    requires key != TID_KEY && Lookup(ReservedCandidates(span.meta), key) == Some(Meta(text))
    ensures HasMeta(Delivered(span), key, text)
  {
    ResolutionPrecedence(span, key);
    DeliveredAttributes(span, key);
  }

  /** A reserved entry arrives under its key. */
  lemma ReservedArrives(row: Row, key: string, text: string)
    requires IsUsable(row) && key != TID_KEY && Lookup(ReservedMeta(row), key) == Some(text)
    ensures HasMeta(Delivered(SpanOf(row).value), key, text)
  {
    ReservedNotEmpty(row);
    ReservedLookup(ReservedMeta(row), key);
    ReservedOfSpan(SpanOf(row).value, key, text);
  }

  lemma HighWordArrives(row: Row)
    requires IsUsable(row) && IdNumber(row.traceId).value >= TWO_64
    ensures var span := Delivered(SpanOf(row).value);
            && "_dd.p.tid" in span.meta && IsShortHex(span.meta["_dd.p.tid"])
            && HexValue(span.meta["_dd.p.tid"]) == IdNumber(row.traceId).value / TWO_64
  {
    var span := SpanOf(row).value;
    ShortHexDenotes(IdNumber(row.traceId).value / TWO_64);
    ResolutionPrecedence(span, TID_KEY);
    DeliveredAttributes(span, TID_KEY);
  }

  lemma MetaArrives(row: Row)
    requires IsUsable(row)
    ensures ShowsMeta(Delivered(SpanOf(row).value), row)
  {
    ReservedCells(row);
    KindLookup(row, "span.kind");
    forall key: string, text: string | key in RESERVED_META && Lookup(ReservedMeta(row), key) == Some(text)
      ensures HasMeta(Delivered(SpanOf(row).value), key, text)
    {
      assert key != TID_KEY;
      ReservedArrives(row, key, text);
    }
    if IdNumber(row.traceId).value >= TWO_64 {
      HighWordArrives(row);
    }
  }

  /** The span of a usable row shows the row; only usable rows have a span. */
  lemma SpanShowsRow(row: Row)
    requires row.SpanRow?
    ensures SpanOf(row).Ok? <==> IsUsable(row)
    ensures IsUsable(row) ==> Shows(Delivered(SpanOf(row).value), row)
  {
    if IsUsable(row) {
      MetaArrives(row);
    }
  }

  // ----- attributes -----

  /** What becomes of an attribute under its key, by its kind. */
  predicate Arrives(span: WireSpan, key: string, value: AttributeValue) {
    match value
    case Text(text) => HasMeta(span, key, text) && key !in span.metrics
    case Number(bits) => key !in span.meta && key in span.metrics && span.metrics[key] == bits
    case Boolean(flag) => HasMeta(span, key, if flag then "true" else "false") && key !in span.metrics
    case Compound(Some(written)) => HasMeta(span, key, written) && key !in span.metrics
    case _ => key !in span.meta && key !in span.metrics
  }

  /** A null, or an object that cannot be written. */
  predicate IsNothing(value: AttributeValue) {
    value == Null || value == Compound(None)
  }

  /** The source says nothing under the key. */
  predicate IsSilent(source: AttributeSource, key: string) {
    source.Members? ==>
      forall i :: 0 <= i < |source.members| && source.members[i].0 == key ==> IsNothing(source.members[i].1)
  }

  /** The first thing the source says under the key. */
  predicate IsFirst(source: AttributeSource, key: string, value: AttributeValue, i: nat) {
    && source.Members? && i < |source.members| && source.members[i] == (key, value) && !IsNothing(value)
    && IsSilent(Members(source.members[..i]), key)
  }

  lemma {:induction false} SilentLookup(members: seq<(string, AttributeValue)>, key: string)
    requires IsSilent(Members(members), key)
    ensures Lookup(MemberCandidates(members), key) == None
  {
    if members != [] {
      var init, last := members[..|members| - 1], members[|members| - 1];
      SilentLookup(init, key);
      LookupAppend(MemberCandidates(init), MemberCandidate(last.0, last.1), key);
      assert MemberCandidate(last.0, last.1) == [] || MemberCandidate(last.0, last.1)[1..] == [];
    }
  }

  lemma {:induction false} FirstLookup(
      members: seq<(string, AttributeValue)>, key: string, value: AttributeValue, i: nat)
    requires IsFirst(Members(members), key, value, i)
    ensures EntryOf(value).Some? && Lookup(MemberCandidates(members), key) == EntryOf(value)
  {
    var init, last := members[..|members| - 1], members[|members| - 1];
    LookupAppend(MemberCandidates(init), MemberCandidate(last.0, last.1), key);
    if i == |members| - 1 {
      SilentLookup(init, key);
    } else {
      assert init[..i] == members[..i];
      FirstLookup(init, key, value, i);
    }
  }

  lemma SilentSource(source: AttributeSource, key: string)
    requires IsSilent(source, key)
    ensures Lookup(SourceCandidates(source), key) == None
  {
    if source.Members? {
      SilentLookup(source.members, key);
    }
  }

  lemma UnreservedKey(span: AgentSpan, key: string)
    requires key != TID_KEY && Lookup(ReservedCandidates(span.meta), key) == None
    ensures Lookup(Resolve(span), key) ==
            OrElse(Lookup(SourceCandidates(span.spanAttributes), key),
                   Lookup(SourceCandidates(span.resourceAttributes), key))
  {
    ResolutionPrecedence(span, key);
    assert TidCandidates(span.traceId.highHex) == [] || TidCandidates(span.traceId.highHex)[1..] == [];
  }

  lemma NoReservedCandidate(row: Row, key: string)
    requires row.SpanRow? && key !in RESERVED_META
    ensures Lookup(ReservedCandidates(ReservedMeta(row)), key) == None
  {
    ReservedCells(row);
    ReservedNotEmpty(row);
    ReservedLookup(ReservedMeta(row), key);
  }

  /** Outside the reserved keys, attributes of the span come first and those of the resource second. */
  lemma AttributeSources(row: Row, key: string)
    requires IsUsable(row) && key !in RESERVED_META && key != TID_KEY
    ensures Lookup(Resolve(SpanOf(row).value), key) ==
            OrElse(Lookup(SourceCandidates(row.spanAttributes), key),
                   Lookup(SourceCandidates(row.resourceAttributes), key))
  {
    NoReservedCandidate(row, key);
    UnreservedKey(SpanOf(row).value, key);
  }

  lemma EntryArrives(row: Row, key: string, value: AttributeValue)
    requires IsUsable(row) && EntryOf(value).Some? && Lookup(Resolve(SpanOf(row).value), key) == EntryOf(value)
    ensures Arrives(Delivered(SpanOf(row).value), key, value)
  {
    DeliveredAttributes(SpanOf(row).value, key);
  }

  /**
   An attribute outside the reserved keys arrives as its kind asks: the first value of the span's own
   attributes, else the first of the resource's, else nothing. Nulls arrive nowhere and block nothing.
   */
  lemma AttributesArrive(row: Row, key: string, value: AttributeValue, i: nat)
    requires IsUsable(row)
    requires key !in {"_dd.p.tid", "span.kind", "error.message", "w3c.tracestate", "events", "_dd.span_links"}
    ensures IsFirst(row.spanAttributes, key, value, i) ==> Arrives(Delivered(SpanOf(row).value), key, value)
    ensures IsSilent(row.spanAttributes, key) && IsFirst(row.resourceAttributes, key, value, i) ==>
              Arrives(Delivered(SpanOf(row).value), key, value)
    ensures IsSilent(row.spanAttributes, key) && IsSilent(row.resourceAttributes, key) ==>
              Arrives(Delivered(SpanOf(row).value), key, Null)
  {
    AttributeSources(row, key);
    if IsFirst(row.spanAttributes, key, value, i) {
      FirstLookup(row.spanAttributes.members, key, value, i);
      EntryArrives(row, key, value);
    }
    if IsSilent(row.spanAttributes, key) {
      SilentSource(row.spanAttributes, key);
      if IsFirst(row.resourceAttributes, key, value, i) {
        FirstLookup(row.resourceAttributes.members, key, value, i);
        EntryArrives(row, key, value);
      }
      if IsSilent(row.resourceAttributes, key) {
        SilentSource(row.resourceAttributes, key);
        DeliveredAttributes(SpanOf(row).value, key);
      }
    }
  }

  // ----- every row, in either mode -----

  /** The traces a receiver reads out of the request. */
  function Received(request: Request): Option<seq<seq<WireSpan>>> {
    match request
    case Protobuf(payload, _) =>
      var read := ReadAgentPayload(payload);
      if read.Some? then Some(AgentBody.PayloadTraces(read.value)) else None
    case AgentJson(body, _) => AgentBody.ReadTracesBody(body)
  }

  ghost predicate IsFound(traces: seq<seq<WireSpan>>, row: Row)
    requires IsUsable(row)
  {
    exists g, k :: 0 <= g < |traces| && 0 <= k < |traces[g]| && Shows(traces[g][k], row)
  }

  ghost predicate IsExplained(span: WireSpan, rows: seq<Row>) {
    exists i :: 0 <= i < |rows| && IsUsable(rows[i]) && Shows(span, rows[i])
  }

  /** The traces hold one span for each usable row, which shows it, and nothing else. */
  ghost predicate Tell(traces: seq<seq<WireSpan>>, rows: seq<Row>) {
    && (forall i :: 0 <= i < |rows| && IsUsable(rows[i]) ==> IsFound(traces, rows[i]))
    && (forall g, k :: 0 <= g < |traces| && 0 <= k < |traces[g]| ==> IsExplained(traces[g][k], rows))
    && |Concat(traces)| == |Filter(IsUsable, rows)|
  }

  lemma {:induction false} SentSpanHasRow(rows: seq<Row>, span: AgentSpan)
    requires span in SpansOf(rows)
    ensures exists i :: 0 <= i < |rows| && IsUsable(rows[i]) && SpanOf(rows[i]) == Ok(span)
  {
    var init, last := rows[..|rows| - 1], |rows| - 1;
    if rows[last].SpanRow? && SpanOf(rows[last]) == Ok(span) {
      SpanShowsRow(rows[last]);
    } else {
      SentSpanHasRow(init, span);
      var i :| 0 <= i < |init| && IsUsable(init[i]) && SpanOf(init[i]) == Ok(span);
      assert rows[i] == init[i];
    }
  }

  lemma {:induction false} SentCount(rows: seq<Row>)
    ensures |SpansOf(rows)| == |Filter(IsUsable, rows)|
  {
    if rows != [] {
      var init, last := rows[..|rows| - 1], rows[|rows| - 1];
      SentCount(init);
      if last.SpanRow? {
        SpanShowsRow(last);
      }
      FilterAppend(IsUsable, init, [last]);
      assert rows == init + [last] && [last][1..] == [];
    }
  }

  lemma {:induction false} DeliveredSize(groups: seq<seq<AgentSpan>>)
    ensures |Concat(AgentBody.DeliveredGroups(groups))| == |Concat(groups)|
  {
    if groups != [] {
      DeliveredSize(groups[1..]);
      assert AgentBody.DeliveredGroups(groups)[1..] == AgentBody.DeliveredGroups(groups[1..]);
    }
  }

  /** Where a span is in the traces that are delivered. */
  lemma PlaceOf(spans: seq<AgentSpan>, span: AgentSpan) returns (g: nat, k: nat)
    requires span in spans
    ensures var traces := AgentBody.DeliveredGroups(GroupBy(spans, SpanKey));
            g < |traces| && k < |traces[g]| && traces[g][k] == Delivered(span)
  {
    var groups := GroupBy(spans, SpanKey);
    var p: nat :| p < |spans| && spans[p] == span;
    SameGroupIffSameKey(spans, SpanKey, p, p);
    g :| g < |groups| && span in groups[g];
    k :| k < |groups[g]| && groups[g][k] == span;
  }

  lemma RowIsFound(rows: seq<Row>, i: nat)
    requires i < |rows| && IsUsable(rows[i])
    ensures IsFound(AgentBody.DeliveredGroups(GroupBy(SpansOf(rows), SpanKey)), rows[i])
  {
    SpanShowsRow(rows[i]);
    var span := SpanOf(rows[i]).value;
    SpanIsSent(rows, i, span);
    var g, k := PlaceOf(SpansOf(rows), span);
    var traces := AgentBody.DeliveredGroups(GroupBy(SpansOf(rows), SpanKey));
    assert Shows(traces[g][k], rows[i]);
  }

  lemma SpanIsExplained(rows: seq<Row>, g: nat, k: nat)
    requires var groups := GroupBy(SpansOf(rows), SpanKey); g < |groups| && k < |groups[g]|
    ensures IsExplained(Delivered(GroupBy(SpansOf(rows), SpanKey)[g][k]), rows)
  {
    var groups := GroupBy(SpansOf(rows), SpanKey);
    GroupMembers(SpansOf(rows), SpanKey, g, groups[g][k]);
    SentSpanHasRow(rows, groups[g][k]);
    var i :| 0 <= i < |rows| && IsUsable(rows[i]) && SpanOf(rows[i]) == Ok(groups[g][k]);
    SpanShowsRow(rows[i]);
  }

  lemma DeliveredCount(rows: seq<Row>)
    ensures |Concat(AgentBody.DeliveredGroups(GroupBy(SpansOf(rows), SpanKey)))| == |Filter(IsUsable, rows)|
  {
    var spans := SpansOf(rows);
    DeliveredSize(GroupBy(spans, SpanKey));
    GroupsArePermutation(spans, SpanKey);
    assert |multiset(Concat(GroupBy(spans, SpanKey)))| == |multiset(spans)|;
    SentCount(rows);
  }

  lemma DeliveredTell(rows: seq<Row>)
    ensures Tell(AgentBody.DeliveredGroups(GroupBy(SpansOf(rows), SpanKey)), rows)
  {
    var groups := GroupBy(SpansOf(rows), SpanKey);
    var traces := AgentBody.DeliveredGroups(groups);
    forall i | 0 <= i < |rows| && IsUsable(rows[i])
      ensures IsFound(traces, rows[i])
    {
      RowIsFound(rows, i);
    }
    forall g, k | 0 <= g < |traces| && 0 <= k < |traces[g]|
      ensures IsExplained(traces[g][k], rows)
    {
      SpanIsExplained(rows, g, k);
      assert traces[g][k] == Delivered(groups[g][k]);
    }
    DeliveredCount(rows);
  }

  /**
   The one request of a call is of the mode asked for, and what a receiver reads out of it are spans that
   show the usable rows: one for each, and no other. The trace count is the number of traces read.
   */
  lemma RequestTellsRows(rows: seq<Row>, directIntake: bool)
    requires directIntake ==> |PayloadBytes(SpansOf(rows), "", "")| < TWO_64
    ensures var request := RequestFor(SpansOf(rows), directIntake);
            && (request.Protobuf? <==> directIntake)
            && Received(request).Some? && Tell(Received(request).value, rows)
            && request.traceCount == |Received(request).value|
  {
    var spans := SpansOf(rows);
    var groups := GroupBy(spans, SpanKey);
    DeliveredTell(rows);
    if directIntake {
      PayloadRoundTrip(spans, "", "");
      assert AgentBody.PayloadTraces(DeliveredPayload(spans, "", "")) == AgentBody.DeliveredGroups(groups);
    } else {
      NoZeroParents(rows);
      AgentBody.TracesBodyRoundTrip(spans);
      AgentBody.GroupsAgreeIff(spans);
    }
  }

  /** A row that can form no span is reported with the first reason, in the order of the checks. */
  lemma SkipReasons(row: Row)
    ensures row.NullRow? ==> ResultOf(row) == NullResult
    ensures IsUsable(row) <==> ResultOf(row) == OkResult
    ensures row.SpanRow? && !IsUsable(row) ==>
              ResultOf(row) == SkippedResult(
                if IdNumber(row.traceId).None? then "missing or invalid trace_id"
                else if IdNumber(row.spanId).None? then "missing or invalid span_id"
                else "missing or invalid start_time_unix_nano")
  {
  }
}
