/**
 The log intake object: what `send_datadog_logs` puts into it, what `datadog_serve` reads out of it,
 and what survives the trip.
 */
module IntakeMapping {
  import opened Entries
  import opened Prelude
  import opened Text
  import opened Json
  import opened LongDouble

  /** A JSON column: its text, and what parsing it gives (None when it is not valid JSON). */
  datatype JsonColumn = JsonColumn(text: string, parsed: Option<Json>)

  datatype IntakeLog = IntakeLog(
    message: string,
    service: string,
    status: string,
    hostname: string,
    ddsource: string,
    ddtags: string,
    timestampMs: Option<int64>,
    traceId: string,
    spanId: string,
    logAttributes: JsonColumn,
    resourceAttributes: JsonColumn)

  /** The members of a usable attribute column: non-empty text that parses to an object. */
  function ObjectOf(column: JsonColumn): Option<Members> {
    if column.text == "" || column.parsed.None? || !column.parsed.value.Obj? then None
    else Some(column.parsed.value.members)
  }

  /** The estimate the batching limits are checked against. */
  function EstimateDatadogIntakeLogBytes(log: IntakeLog): nat {
    256 + |log.message| + |log.service| + |log.status| + |log.hostname| + |log.ddsource| + |log.ddtags|
    + |log.traceId| + |log.spanId| + |log.logAttributes.text| + |log.resourceAttributes.text|
  }

  // ----- sending: the object -----

  function TimestampMember(ms: Option<int64>): Members {
    if ms.None? then [] else [("timestamp", Int(ms.value))]
  }

  function ReservedMembers(log: IntakeLog): Members {
    StringMember("message", log.message) + StringMember("service", log.service) + StringMember("status", log.status)
    + StringMember("ddsource", log.ddsource) + StringMember("hostname", log.hostname)
    + StringMember("ddtags", log.ddtags) + TimestampMember(log.timestampMs)
    + StringMember("trace_id", log.traceId) + StringMember("span_id", log.spanId)
  }

  /** Join the string elements of a tag array with commas; elements of other types are skipped. */
  function JoinTags(tags: seq<Json>): string {
    if tags == [] then ""
    else
      var joined, last := JoinTags(tags[..|tags| - 1]), tags[|tags| - 1];
      if !last.Str? then joined
      else if joined == "" then last.text
      else joined + "," + last.text
  }

  function HostMember(resource: Members, haveHostname: bool): Members {
    if haveHostname then []
    else
      match Lookup<Json>(resource, "host")
      case Some(Str(host)) => [("hostname", Str(host))]
      case _ => []
  }

  function TagsMember(resource: Members, haveDdtags: bool): Members {
    if haveDdtags then []
    else
      match Lookup<Json>(resource, "ddtags")
      case Some(Arr(tags)) => StringMember("ddtags", JoinTags(tags))
      case _ => []
  }

  function ResourceMembers(log: IntakeLog): Members {
    match ObjectOf(log.resourceAttributes)
    case None => []
    case Some(resource) =>
      HostMember(resource, log.hostname != "") + TagsMember(resource, log.ddtags != "")
      + [("resource_attributes", Obj(resource))]
  }

  /** Add the members whose key is not taken yet. */
  function MergeMembers(dest: Members, source: Members): Members {
    if source == [] then dest
    else
      var before, last := MergeMembers(dest, source[..|source| - 1]), source[|source| - 1];
      if Lookup(before, last.0).Some? then before else before + [last]
  }

  function CustomMembers(log: IntakeLog): Members {
    match ObjectOf(log.logAttributes)
    case None => []
    case Some(members) => members
  }

  function IntakeMembers(log: IntakeLog): Members {
    MergeMembers(ReservedMembers(log) + ResourceMembers(log), CustomMembers(log))
  }

  function IntakeObject(log: IntakeLog): Json {
    Obj(IntakeMembers(log))
  }

  function IntakeBody(logs: seq<IntakeLog>): Json {
    Arr(seq(|logs|, i requires 0 <= i < |logs| => IntakeObject(logs[i])))
  }

  method MergeJsonObjectAttributes(dest: Members, source: JsonColumn) returns (r: Members)
    ensures r == match ObjectOf(source) { case None => dest case Some(members) => MergeMembers(dest, members) }
  {
    r := dest;
    if source.text == "" || source.parsed.None? || !source.parsed.value.Obj? {
      return;
    }
    var members := source.parsed.value.members;
    for i := 0 to |members|
      invariant r == MergeMembers(dest, members[..i])
    {
      assert members[..i + 1][..i] == members[..i];
      if Lookup(r, members[i].0).Some? {
        continue;
      }
      r := r + [members[i]];
    }
    assert members[..|members|] == members;
  }

  method JoinTagArray(tags: seq<Json>) returns (joined: string)
    ensures joined == JoinTags(tags)
  {
    joined := "";
    for i := 0 to |tags|
      invariant joined == JoinTags(tags[..i])
    {
      assert tags[..i + 1][..i] == tags[..i];
      if !tags[i].Str? {
        continue;
      }
      if joined != "" {
        joined := joined + ",";
      }
      joined := joined + tags[i].text;
    }
    assert tags[..|tags|] == tags;
  }

  method ApplyResourceAttributes(obj: Members, column: JsonColumn, haveHostname: bool, haveDdtags: bool)
    returns (r: Members)
    ensures r == obj + match ObjectOf(column) {
                         case None => []
                         case Some(resource) =>
                           HostMember(resource, haveHostname) + TagsMember(resource, haveDdtags)
                           + [("resource_attributes", Obj(resource))]
                       }
  {
    r := obj;
    if column.text == "" || column.parsed.None? || !column.parsed.value.Obj? {
      return;
    }
    var resource := column.parsed.value.members;
    if !haveHostname {
      match Lookup<Json>(resource, "host") {
        case Some(Str(host)) => r := r + [("hostname", Str(host))];
        case _ =>
      }
    }
    assert r == obj + HostMember(resource, haveHostname);
    if !haveDdtags {
      match Lookup<Json>(resource, "ddtags") {
        case Some(Arr(tags)) =>
          var joined := JoinTagArray(tags);
          if joined != "" {
            r := r + [("ddtags", Str(joined))];
          }
        case _ =>
      }
    }
    assert r == obj + HostMember(resource, haveHostname) + TagsMember(resource, haveDdtags);
    r := r + [("resource_attributes", Obj(resource))];
  }

  /** A string column is left out when it is empty. */
  method AddString(obj: Members, key: string, text: string) returns (r: Members)
    ensures r == obj + StringMember(key, text)
  {
    r := obj;
    if text != "" {
      r := r + [(key, Str(text))];
    }
  }

  method BuildReserved(log: IntakeLog) returns (obj: Members)
    ensures obj == ReservedMembers(log)
  {
    obj := AddString([], "message", log.message);
    obj := AddString(obj, "service", log.service);
    obj := AddString(obj, "status", log.status);
    obj := AddString(obj, "ddsource", log.ddsource);
    obj := AddString(obj, "hostname", log.hostname);
    obj := AddString(obj, "ddtags", log.ddtags);
    if log.timestampMs.Some? {
      obj := obj + [("timestamp", Int(log.timestampMs.value))];
    }
    assert obj + [] == obj;
    obj := AddString(obj, "trace_id", log.traceId);
    obj := AddString(obj, "span_id", log.spanId);
    assert [] + StringMember("message", log.message) == StringMember("message", log.message);
  }

  method BuildIntakeObject(log: IntakeLog) returns (r: Json)
    ensures r == IntakeObject(log)
  {
    var obj := BuildReserved(log);
    obj := ApplyResourceAttributes(obj, log.resourceAttributes, log.hostname != "", log.ddtags != "");
    assert obj == ReservedMembers(log) + ResourceMembers(log);
    ghost var columns := obj;
    obj := MergeJsonObjectAttributes(obj, log.logAttributes);
    assert MergeMembers(columns, []) == columns;
    r := Obj(obj);
  }

  method BuildDatadogIntakeBody(logs: seq<IntakeLog>) returns (body: Json)
    ensures body == IntakeBody(logs)
  {
    var items: seq<Json> := [];
    for i := 0 to |logs|
      invariant |items| == i && forall k :: 0 <= k < i ==> items[k] == IntakeObject(logs[k])
    {
      var obj := BuildIntakeObject(logs[i]);
      items := items + [obj];
    }
    body := Arr(items);
    assert items == IntakeBody(logs).items;
  }

  // ----- serving: the row -----

  /** The message column: a string as it is, any other value as its JSON text. */
  datatype Body = NoBody | TextBody(text: string) | JsonBody(value: Json)

  datatype IntakeRow = IntakeRow(
    eventNanos: int64,
    observedNanos: int64,
    traceId: Option<string>,
    spanId: Option<string>,
    service: Option<string>,
    severityNumber: Option<int>,
    status: Option<string>,
    body: Body,
    resourceAttributes: Option<Members>,
    logAttributes: Option<Members>)

  /**
   What the mapping takes from outside: the current time, how `long double` rounds a whole number, and
   the conversions of a timestamp that is a double, out of range, or no number.
   */
  datatype Outside = Outside(
    nowNanos: int64,
    round: int -> int,
    ofDouble: Double -> int64,
    ofWide: int -> int64,
    ofText: string -> Option<int64>)

  /** A whole number of milliseconds times a million, in `long double`. */
  function RoundedNanos(ms: int, outside: Outside): int {
    outside.round(outside.round(ms) * NANOS_PER_MILLISECOND)
  }

  /** Digits are milliseconds, multiplied as integers; any other text is read as a date. */
  function TextNanos(text: string, outside: Outside): int64 {
    var parsed := Stoll(text);
    if parsed.Some? && parsed.value.consumed == |text| then
      var nanos := parsed.value.value * NANOS_PER_MILLISECOND;
      if FitsInt64(nanos) then nanos else outside.ofWide(parsed.value.value)
    else
      match outside.ofText(text)
      case Some(nanos) => nanos
      case None => outside.nowNanos
  }

  function EventNanos(value: Option<Json>, outside: Outside): int64 {
    match value
    case Some(Int(ms)) =>
      if FitsInt64(ms) && FitsInt64(RoundedNanos(ms, outside)) then RoundedNanos(ms, outside) else outside.ofWide(ms)
    case Some(Real(bits)) => outside.ofDouble(bits)
    case Some(Str(text)) => TextNanos(text, outside)
    case _ => outside.nowNanos
  }

  function StatusToSeverityNumber(status: string): int {
    var value := Lower(status);
    if value == "trace" then 1
    else if value == "debug" then 5
    else if value in {"info", "notice", "ok"} then 9
    else if value in {"warn", "warning"} then 13
    else if value in {"error", "err"} then 17
    else if value in {"critical", "crit", "alert", "emergency", "fatal"} then 21
    else 0
  }

  /** The trimmed pieces that are not empty. */
  function TagList(pieces: seq<string>): seq<Json> {
    if pieces == [] then []
    else
      var rest, tag := TagList(pieces[..|pieces| - 1]), Trim(pieces[|pieces| - 1]);
      if tag == "" then rest else rest + [Str(tag)]
  }

  function OptionalMember(key: string, value: Option<string>): Members {
    if value.None? then [] else [(key, Str(value.value))]
  }

  function ServedHost(obj: Json): Option<string> {
    if GetString(obj, "hostname").Some? then GetString(obj, "hostname") else GetString(obj, "host")
  }

  function ServedResource(obj: Json): Option<Members> {
    var host, tags, source := ServedHost(obj), GetString(obj, "ddtags"), GetString(obj, "ddsource");
    if host.None? && tags.None? && source.None? then None
    else Some(OptionalMember("host", host) + OptionalMember("ddsource", source)
              + (if tags.None? then [] else [("ddtags", Arr(TagList(SplitOn(tags.value, ','))))]))
  }

  const RESERVED_KEYS := {"message", "service", "status", "timestamp", "hostname", "host", "ddtags", "ddsource"}

  function Unreserved(members: Members): Members {
    if members == [] then []
    else
      var rest, last := Unreserved(members[..|members| - 1]), members[|members| - 1];
      if last.0 in RESERVED_KEYS then rest else rest + [last]
  }

  function ServedAttributes(members: Members): Option<Members> {
    if Unreserved(members) == [] then None else Some(Unreserved(members))
  }

  function FirstString(obj: Json, key: string, fallback: string): Option<string> {
    if GetString(obj, key).Some? then GetString(obj, key) else GetString(obj, fallback)
  }

  function ServedBody(obj: Json): Body {
    match Get(obj, "message")
    case None => NoBody
    case Some(Str(text)) => if text == "" then NoBody else TextBody(text)
    case Some(value) => JsonBody(value)
  }

  function SeverityOf(status: Option<string>): Option<int> {
    if status.None? then None else Some(StatusToSeverityNumber(status.value))
  }

  /** The row of one intake object; a value that is not an object is rejected. */
  function ServedRow(value: Json, outside: Outside): Option<IntakeRow> {
    if !value.Obj? then None
    else Some(IntakeRow(
                EventNanos(Get(value, "timestamp"), outside),
                outside.nowNanos,
                FirstString(value, "dd.trace_id", "trace_id"),
                FirstString(value, "dd.span_id", "span_id"),
                GetString(value, "service"),
                SeverityOf(GetString(value, "status")),
                GetString(value, "status"),
                ServedBody(value),
                ServedResource(value),
                ServedAttributes(value.members)))
  }

  method BuildLogAttributes(members: Members) returns (r: Option<Members>)
    ensures r == ServedAttributes(members)
  {
    var root: Members := [];
    for i := 0 to |members|
      invariant root == Unreserved(members[..i])
    {
      assert members[..i + 1][..i] == members[..i];
      if members[i].0 in RESERVED_KEYS {
        continue;
      }
      root := root + [members[i]];
    }
    assert members[..|members|] == members;
    r := if root == [] then None else Some(root);
  }

  method BuildResourceAttributes(obj: Json) returns (r: Option<Members>)
    ensures r == ServedResource(obj)
  {
    var hostname := GetString(obj, "hostname");
    if hostname.None? {
      hostname := GetString(obj, "host");
    }
    var tags, source := GetString(obj, "ddtags"), GetString(obj, "ddsource");
    if hostname.None? && tags.None? && source.None? {
      return None;
    }
    var root := OptionalMember("host", hostname);
    root := root + OptionalMember("ddsource", source);
    if tags.Some? {
      var pieces := SplitOn(tags.value, ',');
      var items: seq<Json> := [];
      for i := 0 to |pieces|
        invariant items == TagList(pieces[..i])
      {
        assert pieces[..i + 1][..i] == pieces[..i];
        var tag := Trim(pieces[i]);
        if tag != "" {
          items := items + [Str(tag)];
        }
      }
      assert pieces[..|pieces|] == pieces;
      root := root + [("ddtags", Arr(items))];
    }
    assert root + [] == root;
    r := Some(root);
  }

  method MapIntakeLog(value: Json, outside: Outside) returns (r: Option<IntakeRow>)
    ensures r == ServedRow(value, outside)
  {
    if !value.Obj? {
      return None;
    }
    var event := EventNanos(Get(value, "timestamp"), outside);
    var traceId := GetString(value, "dd.trace_id");
    if traceId.None? {
      traceId := GetString(value, "trace_id");
    }
    var spanId := GetString(value, "dd.span_id");
    if spanId.None? {
      spanId := GetString(value, "span_id");
    }
    var status := GetString(value, "status");
    var severityNumber: Option<int> := None;
    if status.Some? {
      severityNumber := Some(StatusToSeverityNumber(status.value));
    }
    var resourceAttributes := BuildResourceAttributes(value);
    var logAttributes := BuildLogAttributes(value.members);
    r := Some(IntakeRow(event, outside.nowNanos, traceId, spanId, GetString(value, "service"), severityNumber,
                        status, ServedBody(value), resourceAttributes, logAttributes));
  }

  // ----- where each key of the object comes from -----

  function StringOrNone(text: string): Option<Json> {
    if text == "" then None else Some(Str(text))
  }

  lemma StringMemberLookup(key: string, text: string, wanted: string)
    ensures Lookup(StringMember(key, text), wanted) == if key == wanted then StringOrNone(text) else None
  {
    if text != "" {
      assert [(key, Str(text))][1..] == [];
    }
  }

  /** The reserved members under the keys the mapping looks at. */
  function ReservedValue(log: IntakeLog, key: string): Option<Json> {
    if key == "message" then StringOrNone(log.message)
    else if key == "service" then StringOrNone(log.service)
    else if key == "status" then StringOrNone(log.status)
    else if key == "ddsource" then StringOrNone(log.ddsource)
    else if key == "hostname" then StringOrNone(log.hostname)
    else if key == "ddtags" then StringOrNone(log.ddtags)
    else if key == "timestamp" then (if log.timestampMs.None? then None else Some(Int(log.timestampMs.value)))
    else if key == "trace_id" then StringOrNone(log.traceId)
    else if key == "span_id" then StringOrNone(log.spanId)
    else None
  }

  lemma ReservedLookup(log: IntakeLog, key: string)
    ensures Lookup(ReservedMembers(log), key) == ReservedValue(log, key)
  {
    var m1, m2 := StringMember("message", log.message), StringMember("service", log.service);
    var m3, m4 := StringMember("status", log.status), StringMember("ddsource", log.ddsource);
    var m5, m6 := StringMember("hostname", log.hostname), StringMember("ddtags", log.ddtags);
    var m7, m8 := TimestampMember(log.timestampMs), StringMember("trace_id", log.traceId);
    var m9 := StringMember("span_id", log.spanId);
    LookupAppend(m1 + m2 + m3 + m4 + m5 + m6 + m7 + m8, m9, key);
    LookupAppend(m1 + m2 + m3 + m4 + m5 + m6 + m7, m8, key);
    LookupAppend(m1 + m2 + m3 + m4 + m5 + m6, m7, key);
    LookupAppend(m1 + m2 + m3 + m4 + m5, m6, key);
    LookupAppend(m1 + m2 + m3 + m4, m5, key);
    LookupAppend(m1 + m2 + m3, m4, key);
    LookupAppend(m1 + m2, m3, key);
    LookupAppend(m1, m2, key);
    StringMemberLookup("message", log.message, key);
    StringMemberLookup("service", log.service, key);
    StringMemberLookup("status", log.status, key);
    StringMemberLookup("ddsource", log.ddsource, key);
    StringMemberLookup("hostname", log.hostname, key);
    StringMemberLookup("ddtags", log.ddtags, key);
    StringMemberLookup("trace_id", log.traceId, key);
    StringMemberLookup("span_id", log.spanId, key);
    if log.timestampMs.Some? {
      assert [("timestamp", Int(log.timestampMs.value))][1..] == [];
    }
  }

  /** Merged members never replace what is there, and add every other key. */
  lemma {:induction false} MergeLookup(dest: Members, source: Members, key: string)
    ensures Lookup(MergeMembers(dest, source), key) == OrElse(Lookup(dest, key), Lookup(source, key))
  {
    if source != [] {
      var init, last := source[..|source| - 1], source[|source| - 1];
      MergeLookup(dest, init, key);
      MergeLookup(dest, init, last.0);
      assert source == init + [last];
      LookupSnoc(init, last.0, last.1, key);
      LookupSnoc(MergeMembers(dest, init), last.0, last.1, key);
    }
  }

  /** Reserved columns first, then what the resource block contributes, then the custom attributes. */
  lemma IntakeLookup(log: IntakeLog, key: string)
    ensures Get(IntakeObject(log), key) ==
            OrElse(ReservedValue(log, key), OrElse(Lookup(ResourceMembers(log), key), Lookup(CustomMembers(log), key)))
  {
    MergeLookup(ReservedMembers(log) + ResourceMembers(log), CustomMembers(log), key);
    LookupAppend(ReservedMembers(log), ResourceMembers(log), key);
    ReservedLookup(log, key);
  }

  lemma IdsAreSent(log: IntakeLog)
    ensures log.traceId != "" ==> GetString(IntakeObject(log), "trace_id") == Some(log.traceId)
    ensures log.spanId != "" ==> GetString(IntakeObject(log), "span_id") == Some(log.spanId)
    ensures log.timestampMs.Some? ==> Get(IntakeObject(log), "timestamp") == Some(Int(log.timestampMs.value))
  {
    IntakeLookup(log, "trace_id");
    IntakeLookup(log, "span_id");
    IntakeLookup(log, "timestamp");
  }

  lemma OriginIsSent(log: IntakeLog)
    ensures log.ddsource != "" ==> GetString(IntakeObject(log), "ddsource") == Some(log.ddsource)
    ensures log.hostname != "" ==> GetString(IntakeObject(log), "hostname") == Some(log.hostname)
    ensures log.ddtags != "" ==> GetString(IntakeObject(log), "ddtags") == Some(log.ddtags)
  {
    IntakeLookup(log, "ddsource");
    IntakeLookup(log, "hostname");
    IntakeLookup(log, "ddtags");
  }

  /** Every non-empty column is sent under its own key, whatever the attributes say. */
  lemma ColumnsAreSent(log: IntakeLog)
    ensures log.message != "" ==> GetString(IntakeObject(log), "message") == Some(log.message)
    ensures log.service != "" ==> GetString(IntakeObject(log), "service") == Some(log.service)
    ensures log.status != "" ==> GetString(IntakeObject(log), "status") == Some(log.status)
    ensures log.ddsource != "" ==> GetString(IntakeObject(log), "ddsource") == Some(log.ddsource)
    ensures log.hostname != "" ==> GetString(IntakeObject(log), "hostname") == Some(log.hostname)
    ensures log.ddtags != "" ==> GetString(IntakeObject(log), "ddtags") == Some(log.ddtags)
    ensures log.traceId != "" ==> GetString(IntakeObject(log), "trace_id") == Some(log.traceId)
    ensures log.spanId != "" ==> GetString(IntakeObject(log), "span_id") == Some(log.spanId)
    ensures log.timestampMs.Some? ==> Get(IntakeObject(log), "timestamp") == Some(Int(log.timestampMs.value))
  {
    IntakeLookup(log, "message");
    IntakeLookup(log, "service");
    IntakeLookup(log, "status");
    OriginIsSent(log);
    IdsAreSent(log);
  }

  lemma {:induction false} UnreservedLookup(members: Members, key: string)
    ensures Lookup(Unreserved(members), key) == if key in RESERVED_KEYS then None else Lookup(members, key)
  {
    if members != [] {
      var init, last := members[..|members| - 1], members[|members| - 1];
      UnreservedLookup(init, key);
      assert members == init + [last];
      LookupSnoc(init, last.0, last.1, key);
      LookupSnoc(Unreserved(init), last.0, last.1, key);
    }
  }

  /** The resource block contributes at most these keys. */
  lemma ResourceLookup(log: IntakeLog, key: string)
    requires key != "hostname" && key != "ddtags" && key != "resource_attributes"
    ensures Lookup(ResourceMembers(log), key) == None
  {
    match ObjectOf(log.resourceAttributes) {
      case None =>
      case Some(resource) =>
        var host, tags := HostMember(resource, log.hostname != ""), TagsMember(resource, log.ddtags != "");
        LookupSnoc(host + tags, "resource_attributes", Obj(resource), key);
        LookupAppend(host, tags, key);
        assert host == [] || host[1..] == [];
        assert tags == [] || tags[1..] == [];
    }
  }

  // ----- what survives sending and serving -----

  function Sent(log: IntakeLog, outside: Outside): IntakeRow {
    ServedRow(IntakeObject(log), outside).value
  }

  /** Non-empty message, service and status arrive as they were sent. */
  lemma FieldsSurvive(log: IntakeLog, outside: Outside)
    ensures log.message != "" ==> Sent(log, outside).body == TextBody(log.message)
    ensures log.service != "" ==> Sent(log, outside).service == Some(log.service)
    ensures log.status != "" ==>
              && Sent(log, outside).status == Some(log.status)
              && Sent(log, outside).severityNumber == Some(StatusToSeverityNumber(log.status))
  {
    IntakeLookup(log, "message");
    IntakeLookup(log, "service");
    IntakeLookup(log, "status");
  }

  /** The id that arrives: a custom attribute carrying the agent's own key as a string takes precedence. */
  function ArrivingId(custom: Option<Json>, id: string): string {
    match custom
    case Some(Str(text)) => text
    case _ => id
  }

  /** A key whose third character is a dot is not a column's key. */
  lemma OnlyCustom(log: IntakeLog, key: string)
    requires |key| > 2 && key[2] == '.'
    ensures Get(IntakeObject(log), key) == Lookup(CustomMembers(log), key)
  {
    IntakeLookup(log, key);
    assert "message"[2] != '.' && "service"[2] != '.' && "status"[2] != '.' && "ddsource"[2] != '.';
    assert "hostname"[2] != '.' && "ddtags"[2] != '.' && "timestamp"[2] != '.' && "trace_id"[2] != '.';
    assert "span_id"[2] != '.' && "resource_attributes"[2] != '.';
    ResourceLookup(log, key);
  }

  lemma AgentKeys(log: IntakeLog)
    ensures Get(IntakeObject(log), "dd.trace_id") == Lookup(CustomMembers(log), "dd.trace_id")
    ensures Get(IntakeObject(log), "dd.span_id") == Lookup(CustomMembers(log), "dd.span_id")
  {
    OnlyCustom(log, "dd.trace_id");
    OnlyCustom(log, "dd.span_id");
  }

  /** Trace ids arrive, and arrive unchanged exactly when no such attribute says otherwise. */
  lemma IdsSurvive(log: IntakeLog, outside: Outside)
    ensures log.traceId != "" ==>
              Sent(log, outside).traceId == Some(ArrivingId(Lookup(CustomMembers(log), "dd.trace_id"), log.traceId))
    ensures log.spanId != "" ==>
              Sent(log, outside).spanId == Some(ArrivingId(Lookup(CustomMembers(log), "dd.span_id"), log.spanId))
  {
    AgentKeys(log);
    IdsAreSent(log);
  }

  /** The served attributes, an absent column reading as none. */
  function ServedMembers(row: IntakeRow): Members {
    if row.logAttributes.None? then [] else row.logAttributes.value
  }

  /**
   A custom attribute arrives exactly when the server does not reserve its key and no column took it
   first; then its first value arrives.
   */
  lemma AttributesSurvive(log: IntakeLog, outside: Outside, key: string)
    ensures Lookup(ServedMembers(Sent(log, outside)), key) ==
            if key in RESERVED_KEYS then None
            else OrElse(ReservedValue(log, key),
                        OrElse(Lookup(ResourceMembers(log), key), Lookup(CustomMembers(log), key)))
  {
    IntakeLookup(log, key);
    UnreservedLookup(IntakeMembers(log), key);
  }

  lemma NotReserved(log: IntakeLog, key: string)
    requires key !in RESERVED_KEYS && key != "trace_id" && key != "span_id"
    ensures ReservedValue(log, key) == None
  {
  }

  /** For keys that no column can take, the attribute map survives unchanged. */
  lemma CustomAttributesSurvive(log: IntakeLog, outside: Outside, key: string)
    requires key !in RESERVED_KEYS && key != "trace_id" && key != "span_id" && key != "resource_attributes"
    ensures Lookup(ServedMembers(Sent(log, outside)), key) == Lookup(CustomMembers(log), key)
  {
    AttributesSurvive(log, outside, key);
    ResourceLookup(log, key);
    NotReserved(log, key);
  }

  // ----- time -----

  /** An integer nanosecond column is reduced to milliseconds by truncation. */
  function SentMillis(nanos: int64): int64 {
    TruncDiv(nanos, NANOS_PER_MILLISECOND)
  }

  /** The time sent, truncated toward 1970 to a whole millisecond. */
  function Truncated(nanos: int64): int64 {
    nanos - TruncMod(nanos, NANOS_PER_MILLISECOND)
  }

  /** The server's floating point conversion of the milliseconds is exact. */
  predicate ConvertsExactly(nanos: int64, outside: Outside) {
    RoundedNanos(SentMillis(nanos), outside) == Truncated(nanos)
  }

  /** The time that arrives is the truncated one exactly when the server's conversion is exact. */
  lemma TimeSurvives(log: IntakeLog, outside: Outside, nanos: int64)
    requires log.timestampMs == Some(SentMillis(nanos))
    ensures ConvertsExactly(nanos, outside) ==> Sent(log, outside).eventNanos == Truncated(nanos)
    ensures FitsInt64(RoundedNanos(SentMillis(nanos), outside)) ==>
              (Sent(log, outside).eventNanos == Truncated(nanos) <==> ConvertsExactly(nanos, outside))
  {
    IntakeLookup(log, "timestamp");
  }

  lemma MillisecondsOf(nanos: int64)
    ensures SentMillis(nanos) * NANOS_PER_MILLISECOND == Truncated(nanos)
    ensures FitsInt64(SentMillis(nanos)) && Max(SentMillis(nanos), -SentMillis(nanos)) < 0x20_0000_0000_0000
  {
  }

  /** Where `long double` has a 64-bit mantissa, the conversion is always exact. */
  lemma ExtendedConvertsExactly(nanos: int64, outside: Outside)
    requires forall x :: outside.round(x) == Rounded(64, x)
    ensures ConvertsExactly(nanos, outside)
  {
    MillisecondsOf(nanos);
    ExtendedKeepsInt64(SentMillis(nanos));
    ExtendedKeepsInt64(Truncated(nanos));
  }

  /** Where it is a double, the conversion is exact just for times that a double can represent. */
  lemma DoubleConvertsExactlyIff(nanos: int64, outside: Outside)
    requires forall x :: outside.round(x) == Rounded(53, x)
    ensures var magnitude := Max(Truncated(nanos), -Truncated(nanos));
            ConvertsExactly(nanos, outside) <==> magnitude % Ulp(53, magnitude) == 0
  {
    MillisecondsOf(nanos);
    DoubleMantissa();
    ShortIsKept(53, SentMillis(nanos));
    RoundedIff(53, Truncated(nanos));
  }

  lemma DoubleShiftsNanos(outside: Outside)
    requires forall x :: outside.round(x) == Rounded(53, x)
    ensures RoundedNanos(1_700_000_000_123, outside) == 1_700_000_000_123_000_064
  {
    DoubleMantissa();
    ShortIsKept(53, 1_700_000_000_123);
    DoubleIsOff();
  }

  lemma ArrivingTime(log: IntakeLog, outside: Outside, ms: int64)
    requires log.timestampMs == Some(ms)
    ensures Sent(log, outside).eventNanos == EventNanos(Some(Int(ms)), outside)
  {
    IntakeLookup(log, "timestamp");
  }

  /** There this time arrives 64 nanoseconds late. */
  lemma DoubleShiftsTime(log: IntakeLog, outside: Outside)
    requires forall x :: outside.round(x) == Rounded(53, x)
    requires log.timestampMs == Some(1_700_000_000_123)
    ensures Sent(log, outside).eventNanos == 1_700_000_000_123_000_064
  {
    DoubleShiftsNanos(outside);
    ArrivingTime(log, outside, 1_700_000_000_123);
  }

  // ----- tags -----

  /** A tag that neither trimming nor splitting changes. */
  predicate IsCleanTag(tag: string) {
    && tag != ""
    && !IsSpace(tag[0]) && !IsSpace(tag[|tag| - 1])
    && forall i :: 0 <= i < |tag| ==> tag[i] != ','
  }

  function Commas(tags: seq<string>): string {
    if |tags| == 0 then ""
    else if |tags| == 1 then tags[0]
    else tags[0] + "," + Commas(tags[1..])
  }

  lemma {:induction false} SplitCommas(tags: seq<string>)
    requires tags != [] && forall i :: 0 <= i < |tags| ==> IsCleanTag(tags[i])
    ensures SplitOn(Commas(tags), ',') == tags
  {
    if |tags| == 1 {
      SplitPiece(tags[0], "", ',');
    } else {
      SplitPiece(tags[0], Commas(tags[1..]), ',');
      SplitCommas(tags[1..]);
      assert tags == [tags[0]] + tags[1..];
    }
  }

  function TagStrings(tags: seq<string>): seq<Json> {
    seq(|tags|, i requires 0 <= i < |tags| => Str(tags[i]))
  }

  lemma {:induction false} CleanTagList(tags: seq<string>)
    requires forall i :: 0 <= i < |tags| ==> IsCleanTag(tags[i])
    ensures TagList(tags) == TagStrings(tags)
  {
    if tags != [] {
      CleanTagList(tags[..|tags| - 1]);
      TrimIsIdentity(tags[|tags| - 1]);
      assert TagStrings(tags) == TagStrings(tags[..|tags| - 1]) + [Str(tags[|tags| - 1])];
    }
  }

  lemma CommasNotEmpty(tags: seq<string>)
    requires tags != [] && IsCleanTag(tags[0])
    ensures Commas(tags) != ""
  {
  }

  lemma TagsInResource(obj: Json, text: string)
    requires GetString(obj, "ddtags") == Some(text)
    ensures ServedResource(obj).Some?
    ensures Lookup(ServedResource(obj).value, "ddtags") == Some(Arr(TagList(SplitOn(text, ','))))
  {
    var host, source := OptionalMember("host", ServedHost(obj)), OptionalMember("ddsource", GetString(obj, "ddsource"));
    LookupSnoc(host + source, "ddtags", Arr(TagList(SplitOn(text, ','))), "ddtags");
    LookupAppend(host, source, "ddtags");
    assert host == [] || host[1..] == [];
    assert source == [] || source[1..] == [];
  }

  /** A list of clean tags arrives as the same list. */
  lemma TagsSurvive(log: IntakeLog, outside: Outside, tags: seq<string>)
    requires tags != [] && forall i :: 0 <= i < |tags| ==> IsCleanTag(tags[i])
    requires log.ddtags == Commas(tags)
    ensures var resource := Sent(log, outside).resourceAttributes;
            resource.Some? && Lookup(resource.value, "ddtags") == Some(Arr(TagStrings(tags)))
  {
    SplitCommas(tags);
    CleanTagList(tags);
    CommasNotEmpty(tags);
    OriginIsSent(log);
    TagsInResource(IntakeObject(log), log.ddtags);
  }

  // ----- what the resource block contributes -----

  /** The members mined from the block, and the block itself. */
  lemma BlockLookup(log: IntakeLog, resource: Members, key: string)
    requires ObjectOf(log.resourceAttributes) == Some(resource)
    ensures Lookup(ResourceMembers(log), key) ==
            OrElse(Lookup(HostMember(resource, log.hostname != ""), key),
                   OrElse(Lookup(TagsMember(resource, log.ddtags != ""), key),
                          if key == "resource_attributes" then Some(Obj(resource)) else None))
  {
    var host, tags := HostMember(resource, log.hostname != ""), TagsMember(resource, log.ddtags != "");
    LookupSnoc(host + tags, "resource_attributes", Obj(resource), key);
    LookupAppend(host, tags, key);
  }

  lemma MinedKeys(resource: Members, haveHostname: bool, haveDdtags: bool, key: string)
    ensures key != "hostname" ==> Lookup(HostMember(resource, haveHostname), key) == None
    ensures key != "ddtags" ==> Lookup(TagsMember(resource, haveDdtags), key) == None
  {
    var host, tags := HostMember(resource, haveHostname), TagsMember(resource, haveDdtags);
    assert host == [] || host[1..] == [];
    assert tags == [] || tags[1..] == [];
  }

  /** The whole block arrives among the log attributes. */
  lemma BlockSurvives(log: IntakeLog, outside: Outside, resource: Members)
    requires ObjectOf(log.resourceAttributes) == Some(resource)
    ensures Lookup(ServedMembers(Sent(log, outside)), "resource_attributes") == Some(Obj(resource))
  {
    AttributesSurvive(log, outside, "resource_attributes");
    BlockLookup(log, resource, "resource_attributes");
    MinedKeys(resource, log.hostname != "", log.ddtags != "", "resource_attributes");
  }

  lemma HostInResource(obj: Json, host: string)
    requires GetString(obj, "hostname") == Some(host)
    ensures ServedResource(obj).Some? && Lookup(ServedResource(obj).value, "host") == Some(Str(host))
  {
    var tagText := GetString(obj, "ddtags");
    var tags := if tagText.None? then [] else [("ddtags", Arr(TagList(SplitOn(tagText.value, ','))))];
    var first := OptionalMember("host", ServedHost(obj));
    var source := OptionalMember("ddsource", GetString(obj, "ddsource"));
    LookupAppend(first + source, tags, "host");
    LookupAppend(first, source, "host");
  }

  /** A non-empty host column arrives. */
  lemma HostSurvives(log: IntakeLog, outside: Outside)
    requires log.hostname != ""
    ensures var served := Sent(log, outside).resourceAttributes;
            served.Some? && Lookup(served.value, "host") == Some(Str(log.hostname))
  {
    IntakeLookup(log, "hostname");
    HostInResource(IntakeObject(log), log.hostname);
  }

  lemma SourceInResource(obj: Json, source: string)
    requires GetString(obj, "ddsource") == Some(source)
    ensures ServedResource(obj).Some? && Lookup(ServedResource(obj).value, "ddsource") == Some(Str(source))
  {
    var tagText := GetString(obj, "ddtags");
    var tags := if tagText.None? then [] else [("ddtags", Arr(TagList(SplitOn(tagText.value, ','))))];
    var host := OptionalMember("host", ServedHost(obj));
    LookupAppend(host + [("ddsource", Str(source))], tags, "ddsource");
    LookupSnoc(host, "ddsource", Str(source), "ddsource");
    assert host == [] || host[1..] == [];
  }

  /** A non-empty source column arrives. */
  lemma SourceSurvives(log: IntakeLog, outside: Outside)
    requires log.ddsource != ""
    ensures var served := Sent(log, outside).resourceAttributes;
            served.Some? && Lookup(served.value, "ddsource") == Some(Str(log.ddsource))
  {
    IntakeLookup(log, "ddsource");
    SourceInResource(IntakeObject(log), log.ddsource);
  }

  lemma BlockHost(log: IntakeLog, resource: Members, host: string)
    requires log.hostname == "" && ObjectOf(log.resourceAttributes) == Some(resource)
    requires Lookup(resource, "host") == Some(Str(host))
    ensures GetString(IntakeObject(log), "hostname") == Some(host)
  {
    IntakeLookup(log, "hostname");
    BlockLookup(log, resource, "hostname");
    assert HostMember(resource, false) == [("hostname", Str(host))];
  }

  /** Without a host column, the host of the resource block arrives. */
  lemma BlockHostSurvives(log: IntakeLog, outside: Outside, resource: Members, host: string)
    requires log.hostname == "" && ObjectOf(log.resourceAttributes) == Some(resource)
    requires Lookup(resource, "host") == Some(Str(host))
    ensures var served := Sent(log, outside).resourceAttributes;
            served.Some? && Lookup(served.value, "host") == Some(Str(host))
  {
    BlockHost(log, resource, host);
    HostInResource(IntakeObject(log), host);
  }

  /** The string elements of an array, in order. */
  function Strings(items: seq<Json>): seq<string> {
    if items == [] then []
    else
      var rest, last := Strings(items[..|items| - 1]), items[|items| - 1];
      if last.Str? then rest + [last.text] else rest
  }

  lemma {:induction false} CommasSnoc(tags: seq<string>, last: string)
    requires tags != []
    ensures Commas(tags + [last]) == Commas(tags) + "," + last
  {
    assert (tags + [last])[0] == tags[0] && (tags + [last])[1..] == tags[1..] + [last];
    if |tags| > 1 {
      CommasSnoc(tags[1..], last);
      assert tags[0] + "," + (Commas(tags[1..]) + "," + last) == tags[0] + "," + Commas(tags[1..]) + "," + last;
    }
  }

  /** The sender's join is the comma list that the server's split undoes. */
  lemma {:induction false} JoinIsCommas(items: seq<Json>)
    requires forall i :: 0 <= i < |Strings(items)| ==> IsCleanTag(Strings(items)[i])
    ensures JoinTags(items) == Commas(Strings(items))
  {
    if items != [] {
      var init, last := items[..|items| - 1], items[|items| - 1];
      var before := Strings(init);
      assert forall i :: 0 <= i < |before| ==> before[i] == Strings(items)[i];
      JoinIsCommas(init);
      if last.Str? && before != [] {
        CommasNotEmpty(before);
        CommasSnoc(before, last.text);
      }
    }
  }

  lemma BlockTags(log: IntakeLog, resource: Members, items: seq<Json>)
    requires log.ddtags == "" && ObjectOf(log.resourceAttributes) == Some(resource)
    requires Lookup(resource, "ddtags") == Some(Arr(items)) && JoinTags(items) != ""
    ensures GetString(IntakeObject(log), "ddtags") == Some(JoinTags(items))
  {
    IntakeLookup(log, "ddtags");
    BlockLookup(log, resource, "ddtags");
    MinedKeys(resource, log.hostname != "", false, "ddtags");
    assert TagsMember(resource, false) == [("ddtags", Str(JoinTags(items)))];
  }

  /** Without a tag column, the clean string tags of the block's array arrive as the same list. */
  lemma BlockTagsSurvive(log: IntakeLog, outside: Outside, resource: Members, items: seq<Json>)
    requires log.ddtags == "" && ObjectOf(log.resourceAttributes) == Some(resource)
    requires Lookup(resource, "ddtags") == Some(Arr(items)) && Strings(items) != []
    requires forall i :: 0 <= i < |Strings(items)| ==> IsCleanTag(Strings(items)[i])
    ensures var served := Sent(log, outside).resourceAttributes;
            served.Some? && Lookup(served.value, "ddtags") == Some(Arr(TagStrings(Strings(items))))
  {
    var tags := Strings(items);
    JoinIsCommas(items);
    CommasNotEmpty(tags);
    BlockTags(log, resource, items);
    SplitCommas(tags);
    CleanTagList(tags);
    TagsInResource(IntakeObject(log), JoinTags(items));
  }
}
