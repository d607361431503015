/**
 How an event of the search API becomes a row of `read_datadog_logs` or `read_datadog_traces`, and what is
 assumed of a server that searches such events.
 */
module EventRows {
  import opened Prelude
  import opened Pushdown
  import opened SearchWindow
  import Entries
  import IntakeMapping
  import Json

  /**
   What a row takes from outside: reading a time, and the columns that hold JSON text or are computed from
   parts of the event that no search term or window is about.
   */
  datatype Reading = Reading(time: string -> Option<int64>, other: (string, Event) -> Value)

  const LOG_COLUMNS := [
    "time_unix_nano", "observed_time_unix_nano", "trace_id", "span_id", "service_name", "service_namespace",
    "service_instance_id", "severity_number", "severity_text", "event_name", "body", "resource_attributes",
    "scope_name", "scope_version", "scope_attributes", "log_attributes", "dropped_attributes_count", "flags"]

  const SPAN_COLUMNS := [
    "start_time_unix_nano", "duration_time_unix_nano", "trace_id", "span_id", "parent_span_id", "trace_state",
    "service_name", "service_namespace", "service_instance_id", "name", "kind", "status_code",
    "status_status_message", "resource_attributes", "scope_name", "scope_version", "scope_attributes",
    "span_attributes", "events_json", "links_json", "dropped_attributes_count", "dropped_events_count",
    "dropped_links_count", "flags"]

  // ----- the fields of an event -----

  function Part(value: Json.Json, key: string): Json.Json {
    match Json.Get(value, key)
    case Some(part) => part
    case None => Json.Null
  }

  /** A text field of the event itself, not of its custom attributes. */
  function EventField(event: Event, field: string): Option<string> {
    Json.GetString(Part(event, "attributes"), field)
  }

  /** A text field of the custom attributes. */
  function CustomField(event: Event, group: string, field: string): Option<string> {
    Json.GetString(Part(Part(event, "attributes"), group), field)
  }

  function TextValue(text: Option<string>): Value {
    match text
    case Some(t) => Varchar(t)
    case None => NullValue
  }

  function TimeValue(text: Option<string>, reading: Reading): Value {
    match text
    case Some(t) => if reading.time(t).Some? then TimestampNs(reading.time(t).value) else NullValue
    case None => NullValue
  }

  /** An INTEGER value. */
  function IntegerValue(i: int): Value {
    OtherValue(0, i)
  }

  // ----- the columns of a row -----

  function LogColumn(event: Event, reading: Reading, column: string): Value {
    if column == "time_unix_nano" || column == "observed_time_unix_nano" then
      TimeValue(EventField(event, "timestamp"), reading)
    else if column == "trace_id" || column == "span_id" then TextValue(CustomField(event, "attributes", column))
    else if column == "service_name" then TextValue(EventField(event, "service"))
    else if column == "severity_number" then
      match EventField(event, "status")
      case Some(status) => IntegerValue(IntakeMapping.StatusToSeverityNumber(status))
      case None => NullValue
    else if column == "severity_text" then TextValue(EventField(event, "status"))
    else if column == "body" then TextValue(EventField(event, "message"))
    else if column == "resource_attributes" || column == "log_attributes" then reading.other(column, event)
    else NullValue
  }

  function LogRow(event: Event, reading: Reading): Row {
    map column | column in LOG_COLUMNS :: LogColumn(event, reading, column)
  }

  /** The operation name, which is a custom attribute where there is one. */
  function SpanName(event: Event): Option<string> {
    Entries.OrElse(CustomField(event, "custom", "operation_name"),
                   Entries.OrElse(EventField(event, "operation_name"), EventField(event, "resource_name")))
  }

  /** The columns of a span that are computed from several parts of the event. */
  const DERIVED_COLUMNS := {
    "duration_time_unix_nano", "kind", "status_code", "status_status_message", "resource_attributes",
    "span_attributes"}

  function SpanColumn(event: Event, reading: Reading, column: string): Value {
    if column == "start_time_unix_nano" then TimeValue(EventField(event, "start_timestamp"), reading)
    else if column == "trace_id" || column == "span_id" then TextValue(EventField(event, column))
    else if column == "parent_span_id" then TextValue(EventField(event, "parent_id"))
    else if column == "service_name" then TextValue(EventField(event, "service"))
    else if column == "name" then TextValue(SpanName(event))
    else if column in DERIVED_COLUMNS then reading.other(column, event)
    else NullValue
  }

  function SpanRow(event: Event, reading: Reading): Row {
    map column | column in SPAN_COLUMNS :: SpanColumn(event, reading, column)
  }

  // ----- mapping an event to the projected columns -----

  const COL_TIME: nat := 0
  const COL_OBSERVED_TIME: nat := 1
  const COL_TRACE_ID: nat := 2
  const COL_SPAN_ID: nat := 3
  const COL_SERVICE_NAME: nat := 4
  const COL_SEVERITY_NUMBER: nat := 7
  const COL_SEVERITY_TEXT: nat := 8
  const COL_BODY: nat := 10
  const COL_RESOURCE_ATTRS: nat := 11
  const COL_LOG_ATTRS: nat := 15

  /** A column of a row by its index; a virtual column is NULL. */
  function At(row: Row, columns: seq<string>, index: nat): Value {
    if index < |columns| then ColumnValue(row, columns[index]) else NullValue
  }

  lemma NoLogData(item: Event, column: nat, reading: Reading)
    requires column in {5, 6, 9, 12, 13, 14, 16, 17}
    ensures LogColumn(item, reading, LOG_COLUMNS[column]) == NullValue
  {
  }

  lemma WrittenLogColumn(item: Event, column: nat, reading: Reading)
    requires column in {11, 15}
    ensures LogColumn(item, reading, LOG_COLUMNS[column]) == reading.other(LOG_COLUMNS[column], item)
  {
  }

  /** The value of one output slot; columns without data and virtual columns stay NULL. */
  method MapSlot(item: Event, column: nat, reading: Reading) returns (value: Value)
    ensures value == if column < |LOG_COLUMNS| then LogColumn(item, reading, LOG_COLUMNS[column]) else NullValue
  {
    value := NullValue;
    if column == COL_TIME || column == COL_OBSERVED_TIME {
      value := TimeValue(EventField(item, "timestamp"), reading);
    } else if column == COL_TRACE_ID {
      value := TextValue(CustomField(item, "attributes", "trace_id"));
    } else if column == COL_SPAN_ID {
      value := TextValue(CustomField(item, "attributes", "span_id"));
    } else if column == COL_SERVICE_NAME {
      value := TextValue(EventField(item, "service"));
    } else if column == COL_SEVERITY_NUMBER {
      var status := EventField(item, "status");
      if status.Some? {
        value := IntegerValue(IntakeMapping.StatusToSeverityNumber(status.value));
      }
    } else if column == COL_SEVERITY_TEXT {
      value := TextValue(EventField(item, "status"));
    } else if column == COL_BODY {
      value := TextValue(EventField(item, "message"));
    } else if column == COL_RESOURCE_ATTRS || column == COL_LOG_ATTRS {
      WrittenLogColumn(item, column, reading);
      value := reading.other(LOG_COLUMNS[column], item);
    } else if column < |LOG_COLUMNS| {
      NoLogData(item, column, reading);
    }
  }

  lemma LogSlot(item: Event, column: nat, reading: Reading)
    ensures At(LogRow(item, reading), LOG_COLUMNS, column) ==
            if column < |LOG_COLUMNS| then LogColumn(item, reading, LOG_COLUMNS[column]) else NullValue
  {
  }

  /** The slots hold the projected columns of the event's row. */
  method MapEvent(item: Event, columnIds: seq<nat>, reading: Reading) returns (row: seq<Value>)
    ensures |row| == |columnIds|
    ensures forall c :: 0 <= c < |columnIds| ==> row[c] == At(LogRow(item, reading), LOG_COLUMNS, columnIds[c])
  {
    row := [];
    for c := 0 to |columnIds|
      invariant |row| == c
      invariant forall k :: 0 <= k < c ==> row[k] == At(LogRow(item, reading), LOG_COLUMNS, columnIds[k])
    {
      var value := MapSlot(item, columnIds[c], reading);
      LogSlot(item, columnIds[c], reading);
      row := row + [value];
    }
  }

  const SPAN_COL_START_TIME: nat := 0
  const SPAN_COL_DURATION: nat := 1
  const SPAN_COL_TRACE_ID: nat := 2
  const SPAN_COL_SPAN_ID: nat := 3
  const SPAN_COL_PARENT_SPAN_ID: nat := 4
  const SPAN_COL_SERVICE_NAME: nat := 6
  const SPAN_COL_NAME: nat := 9
  const SPAN_COL_KIND: nat := 10
  const SPAN_COL_RESOURCE_ATTRS: nat := 13
  const SPAN_COL_SPAN_ATTRS: nat := 17

  lemma NoSpanData(item: Event, column: nat, reading: Reading)
    requires column in {5, 7, 8, 14, 15, 16, 18, 19, 20, 21, 22, 23}
    ensures SpanColumn(item, reading, SPAN_COLUMNS[column]) == NullValue
  {
  }

  lemma DerivedSpanColumn(item: Event, column: nat, reading: Reading)
    requires column in {1, 10, 11, 12, 13, 17}
    ensures SpanColumn(item, reading, SPAN_COLUMNS[column]) == reading.other(SPAN_COLUMNS[column], item)
  {
  }

  method MapSpanSlot(item: Event, column: nat, reading: Reading) returns (value: Value)
    ensures value == if column < |SPAN_COLUMNS| then SpanColumn(item, reading, SPAN_COLUMNS[column]) else NullValue
  {
    value := NullValue;
    if column == SPAN_COL_START_TIME {
      value := TimeValue(EventField(item, "start_timestamp"), reading);
    } else if column == SPAN_COL_TRACE_ID {
      value := TextValue(EventField(item, "trace_id"));
    } else if column == SPAN_COL_SPAN_ID {
      value := TextValue(EventField(item, "span_id"));
    } else if column == SPAN_COL_PARENT_SPAN_ID {
      value := TextValue(EventField(item, "parent_id"));
    } else if column == SPAN_COL_SERVICE_NAME {
      value := TextValue(EventField(item, "service"));
    } else if column == SPAN_COL_NAME {
      var name := CustomField(item, "custom", "operation_name");
      if name.None? {
        name := EventField(item, "operation_name");
      }
      if name.None? {
        name := EventField(item, "resource_name");
      }
      value := TextValue(name);
    } else if column == SPAN_COL_DURATION || SPAN_COL_KIND <= column <= SPAN_COL_RESOURCE_ATTRS
              || column == SPAN_COL_SPAN_ATTRS {
      DerivedSpanColumn(item, column, reading);
      value := reading.other(SPAN_COLUMNS[column], item);
    } else if column < |SPAN_COLUMNS| {
      NoSpanData(item, column, reading);
    }
  }

  lemma SpanSlot(item: Event, column: nat, reading: Reading)
    ensures At(SpanRow(item, reading), SPAN_COLUMNS, column) ==
            if column < |SPAN_COLUMNS| then SpanColumn(item, reading, SPAN_COLUMNS[column]) else NullValue
  {
  }

  method MapSpanEvent(item: Event, columnIds: seq<nat>, reading: Reading) returns (row: seq<Value>)
    ensures |row| == |columnIds|
    ensures forall c :: 0 <= c < |columnIds| ==> row[c] == At(SpanRow(item, reading), SPAN_COLUMNS, columnIds[c])
  {
    row := [];
    for c := 0 to |columnIds|
      invariant |row| == c
      invariant forall k :: 0 <= k < c ==> row[k] == At(SpanRow(item, reading), SPAN_COLUMNS, columnIds[k])
    {
      var value := MapSpanSlot(item, columnIds[c], reading);
      SpanSlot(item, columnIds[c], reading);
      row := row + [value];
    }
  }

  // ----- the tables, and a server that knows nothing of them -----

  datatype Kind = Logs | Spans

  /** The field in which an event of this kind carries its time. */
  function TimeField(kind: Kind): string {
    match kind
    case Logs => "timestamp"
    case Spans => "start_timestamp"
  }

  /** The columns that the two scans push predicates on. */
  function TableOf(kind: Kind, reading: Reading): Table {
    match kind
    case Logs =>
      Table(event => LogRow(event, reading), "time_unix_nano",
            [("service_name", "service"), ("severity_text", "status")])
    case Spans =>
      Table(event => SpanRow(event, reading), "start_time_unix_nano", [("service_name", "service")])
  }

  /** Assumption on the server: `service:v` and `status:v` select at least the events whose own field is `v`. */
  ghost predicate JudgesFields(judge: string -> bool, event: Event) {
    forall field, v :: field in {"service", "status"} && IsSafeFacetValue(v) && EventField(event, field) == Some(v) ==>
      judge(field + ":" + v)
  }

  function EventTime(kind: Kind, reading: Reading, event: Event): Option<int64> {
    match EventField(event, TimeField(kind))
    case Some(text) => reading.time(text)
    case None => None
  }

  /**
   What is assumed of the server, in terms of its events alone: its terms judge the events' own fields, and
   a window of absolute endpoints is inclusive for the events' own times.
   */
  ghost predicate Honest(src: Source, kind: Kind, reading: Reading) {
    && (forall event :: event in src.relation ==> JudgesFields(t => src.judge(t, event), event))
    && (forall event, from, to :: event in src.relation && EpochMillis(from).Some? && EpochMillis(to).Some?
                                  && EventTime(kind, reading, event).Some? ==>
          (src.inWindow(from, to, event) <==>
           InMillis(EpochMillis(from).value, EpochMillis(to).value, EventTime(kind, reading, event).value)))
  }

  lemma FacetsArePlain(kind: Kind, reading: Reading)
    ensures ArePlainFacets(TableOf(kind, reading).facets)
  {
  }

  /** The time column of a row is the time of its event. */
  lemma RowTimeIsEventTime(kind: Kind, reading: Reading, event: Event)
    ensures var time := EventTime(kind, reading, event);
            RowTime(TableOf(kind, reading), event) == if time.Some? then TimestampNs(time.value) else NullValue
  {
    match kind {
      case Logs => assert LOG_COLUMNS[0] == "time_unix_nano";
      case Spans => assert SPAN_COLUMNS[0] == "start_time_unix_nano";
    }
  }

  /** The facet columns of a row are the fields of its event that the facets name. */
  lemma LogFacets(reading: Reading, event: Event)
    ensures ColumnValue(LogRow(event, reading), "service_name") == TextValue(EventField(event, "service"))
    ensures ColumnValue(LogRow(event, reading), "severity_text") == TextValue(EventField(event, "status"))
  {
    assert LOG_COLUMNS[4] == "service_name" && LOG_COLUMNS[8] == "severity_text";
  }

  lemma SpanFacets(reading: Reading, event: Event)
    ensures ColumnValue(SpanRow(event, reading), "service_name") == TextValue(EventField(event, "service"))
  {
    assert SPAN_COLUMNS[6] == "service_name";
  }

  lemma FieldsAreFacets(kind: Kind, reading: Reading, judge: string -> bool, event: Event)
    requires JudgesFields(judge, event)
    ensures JudgesFacets(TableOf(kind, reading).facets, judge, TableOf(kind, reading).row(event))
  {
    LogFacets(reading, event);
    SpanFacets(reading, event);
    var table := TableOf(kind, reading);
    forall i, v | 0 <= i < |table.facets| && IsSafeFacetValue(v)
                  && ColumnValue(table.row(event), table.facets[i].0) == Varchar(v)
      ensures judge(table.facets[i].1 + ":" + v)
    {
      assert EventField(event, table.facets[i].1) == Some(v);
    }
  }

  /** What the scans need of the server follows from the assumption about its events. */
  lemma HonestIsFaithful(src: Source, kind: Kind, reading: Reading)
    requires Honest(src, kind, reading)
    ensures Faithful(src, TableOf(kind, reading))
  {
    forall event | event in src.relation
      ensures JudgesFacets(TableOf(kind, reading).facets, t => src.judge(t, event), TableOf(kind, reading).row(event))
    {
      FieldsAreFacets(kind, reading, t => src.judge(t, event), event);
    }
    forall event: Event
      ensures RowTime(TableOf(kind, reading), event) ==
              if EventTime(kind, reading, event).Some? then TimestampNs(EventTime(kind, reading, event).value)
              else NullValue
    {
      RowTimeIsEventTime(kind, reading, event);
    }
  }
}
