/**
 `send_datadog_logs` as a whole: from table rows to batches to requests, one result per row, and what
 the intake has stored when the call ends.
 */
module SendLogs {
  import opened Prelude
  import opened Batching
  import opened Cells
  import opened IntakeClient
  import opened IntakeMapping
  import opened Retry
  import Entries
  import Json
  import Text

  datatype LogRow =
    | NullLog
    | LogStruct(
        message: Cell,
        service: Cell,
        status: Cell,
        hostname: Cell,
        ddsource: Cell,
        ddtags: Cell,
        timestamp: Cell,
        observedTimestamp: Cell,
        traceId: Cell,
        spanId: Cell,
        severityNumber: Cell,
        logAttributes: JsonColumn,
        resourceAttributes: JsonColumn)

  /** The state of a result slot: unwritten slots hold no value. */
  datatype Slot = Unset | NullSlot | OkSlot

  /** A time column in milliseconds. */
  function TimestampMs(cell: Cell, isNanos: bool): Option<int64> {
    match cell
    case Integral(raw) =>
      if !FitsInt64(raw) then None else if isNanos then Some(TruncDiv(raw, NANOS_PER_MILLISECOND)) else Some(raw)
    case Other(_, Some(nanos), _) => Some(TruncDiv(nanos, NANOS_PER_MILLISECOND))
    case _ => None
  }

  /** The status of an OTLP severity number; none outside 1 to 24. */
  function SeverityNumberToStatus(number: int): string {
    if 1 <= number <= 4 then "trace"
    else if 5 <= number <= 8 then "debug"
    else if 9 <= number <= 12 then "info"
    else if 13 <= number <= 16 then "warn"
    else if 17 <= number <= 20 then "error"
    else if 21 <= number <= 24 then "critical"
    else ""
  }

  /** The severity column counts when it casts to a 32-bit integer. */
  function SeverityStatus(cell: Cell): string {
    match IntegerField(cell)
    case Some(number) => if -0x8000_0000 <= number <= 0x7FFF_FFFF then SeverityNumberToStatus(number) else ""
    case None => ""
  }

  /** The log a row denotes. The observed time counts only when the row has no usable time of its own. */
  function LogOf(row: LogRow, isNanos: bool): IntakeLog
    requires row.LogStruct?
  {
    var time := TimestampMs(row.timestamp, isNanos);
    IntakeLog(
      StringField(row.message),
      StringField(row.service),
      OrDefault(StringField(row.status), SeverityStatus(row.severityNumber)),
      StringField(row.hostname),
      OrDefault(StringField(row.ddsource), "duckdb"),
      StringField(row.ddtags),
      if time.Some? then time else TimestampMs(row.observedTimestamp, true),
      StringField(row.traceId),
      StringField(row.spanId),
      row.logAttributes,
      row.resourceAttributes)
  }

  function LogsOf(rows: seq<LogRow>, isNanos: bool): seq<IntakeLog> {
    if rows == [] then []
    else
      var rest, row := LogsOf(rows[..|rows| - 1], isNanos), rows[|rows| - 1];
      if row.NullLog? then rest else rest + [LogOf(row, isNanos)]
  }

  function Sizes(logs: seq<IntakeLog>): seq<nat> {
    seq(|logs|, i requires 0 <= i < |logs| => EstimateDatadogIntakeLogBytes(logs[i]))
  }

  function LogBatches(logs: seq<IntakeLog>): seq<seq<IntakeLog>> {
    Batches(logs, Sizes(logs))
  }

  function ResultSlot(row: LogRow): Slot {
    if row.NullLog? then NullSlot else OkSlot
  }

  // ----- sending batch after batch -----

  /** The bodies that the call posts, its first failure included. */
  function Posted(batches: seq<seq<IntakeLog>>, scripts: nat -> Script, retries: nat, k: nat): seq<Json.Json>
    decreases |batches|
  {
    if batches == [] then []
    else
      [IntakeBody(batches[0])]
      + if Send(scripts(k), retries, 0).result == Delivered then Posted(batches[1..], scripts, retries, k + 1) else []
  }

  /** Why the call fails; None when every batch is delivered. */
  function Failure(n: nat, scripts: nat -> Script, retries: nat, k: nat): Option<SendResult>
    decreases n
  {
    if n == 0 then None
    else
      var result := Send(scripts(k), retries, 0).result;
      if result == Delivered then Failure(n - 1, scripts, retries, k + 1) else Some(result)
  }

  function Times<T>(s: seq<T>, n: nat): seq<T> {
    if n == 0 then [] else s + Times(s, n - 1)
  }

  /** What the intake stores, when the outcomes in `stores` are those after which a request is stored. */
  function Stored<T>(
      batches: seq<seq<T>>, scripts: nat -> Script, retries: nat, stores: Outcome -> bool, k: nat): seq<T>
    decreases |batches|
  {
    if batches == [] then []
    else
      var run := Send(scripts(k), retries, 0);
      Times(batches[0], StoredCount(scripts(k), stores, 0, run.posts))
      + if run.result == Delivered then Stored(batches[1..], scripts, retries, stores, k + 1) else []
  }

  // ----- the call -----

  /** Slots of NULL rows are set, and the row of every log is remembered. */
  ghost predicate Collected(rows: seq<LogRow>, n: nat, slots: seq<Slot>, sourceRows: seq<nat>)
    requires n <= |rows|
  {
    && |slots| == |rows|
    && (forall r :: r in sourceRows ==> r < n && rows[r].LogStruct?)
    && (forall r :: 0 <= r < n ==> if rows[r].NullLog? then slots[r] == NullSlot else r in sourceRows)
  }

  method CollectLogs(rows: seq<LogRow>, isNanos: bool)
    returns (slots: seq<Slot>, logs: seq<IntakeLog>, sourceRows: seq<nat>)
    ensures Collected(rows, |rows|, slots, sourceRows)
    ensures logs == LogsOf(rows, isNanos) && |sourceRows| == |logs|
  {
    slots := seq(|rows|, _ => Unset);
    logs, sourceRows := [], [];
    for i := 0 to |rows|
      invariant Collected(rows, i, slots, sourceRows)
      invariant logs == LogsOf(rows[..i], isNanos) && |sourceRows| == |logs|
    {
      assert rows[..i + 1][..i] == rows[..i];
      if rows[i].NullLog? {
        slots := slots[i := NullSlot];
        continue;
      }
      logs := logs + [LogOf(rows[i], isNanos)];
      sourceRows := sourceRows + [i];
    }
    assert rows[..|rows|] == rows;
  }

  /** Every slot holds its final value but those of the logs from `offset` on. */
  ghost predicate Marked(rows: seq<LogRow>, slots: seq<Slot>, sourceRows: seq<nat>, offset: nat)
    requires offset <= |sourceRows|
  {
    && |slots| == |rows|
    && (forall r :: r in sourceRows ==> r < |rows| && rows[r].LogStruct?)
    && forall r :: 0 <= r < |rows| ==> r in sourceRows[offset..] || slots[r] == ResultSlot(rows[r])
  }

  lemma AllMarked(rows: seq<LogRow>, slots: seq<Slot>, sourceRows: seq<nat>)
    requires Marked(rows, slots, sourceRows, |sourceRows|)
    ensures |slots| == |rows|
    ensures forall r :: 0 <= r < |rows| ==> slots[r] == if rows[r].NullLog? then NullSlot else OkSlot
  {
  }

  method MarkOk(ghost rows: seq<LogRow>, before: seq<Slot>, sourceRows: seq<nat>, offset: nat, end: nat)
    returns (slots: seq<Slot>)
    requires offset <= end <= |sourceRows| && Marked(rows, before, sourceRows, offset)
    ensures Marked(rows, slots, sourceRows, end)
  {
    slots := before;
    for k := offset to end
      invariant Marked(rows, slots, sourceRows, k)
    {
      var row := sourceRows[k];
      assert row in sourceRows;
      assert sourceRows[k..] == [row] + sourceRows[k + 1..];
      slots := slots[row := OkSlot];
    }
  }

  /** The batches of the logs from `offset` on. */
  ghost function BatchesFrom(logs: seq<IntakeLog>, offset: nat): seq<seq<IntakeLog>>
    requires offset <= |logs|
  {
    GreedyIsCut(Sizes(logs), offset);
    Slices(logs, Sizes(logs), offset, GreedyEnds(Sizes(logs), offset))
  }

  /** With these bodies posted and batch `k` next, the rest of the call completes it as specified. */
  ghost predicate OnTrack(
      logs: seq<IntakeLog>, scripts: nat -> Script, retries: nat, offset: nat, k: nat, bodies: seq<Json.Json>)
    requires offset <= |logs|
  {
    var rest, batches := BatchesFrom(logs, offset), LogBatches(logs);
    && bodies + Posted(rest, scripts, retries, k) == Posted(batches, scripts, retries, 0)
    && Failure(|rest|, scripts, retries, k) == Failure(|batches|, scripts, retries, 0)
  }

  lemma NextBatch(logs: seq<IntakeLog>, offset: nat, end: nat)
    requires offset < |logs| && end == Furthest(Sizes(logs), offset, offset + 1)
    ensures BatchesFrom(logs, offset) == [logs[offset..end]] + BatchesFrom(logs, end)
  {
    GreedyIsCut(Sizes(logs), offset);
    assert GreedyEnds(Sizes(logs), offset)[1..] == GreedyEnds(Sizes(logs), end);
  }

  lemma PostedFirst(
      batch: seq<IntakeLog>, next: seq<seq<IntakeLog>>, scripts: nat -> Script, retries: nat, k: nat,
      bodies: seq<Json.Json>)
    ensures var result, sent := Send(scripts(k), retries, 0).result, bodies + [IntakeBody(batch)];
            bodies + Posted([batch] + next, scripts, retries, k) ==
            if result == Delivered then sent + Posted(next, scripts, retries, k + 1) else sent
  {
    assert ([batch] + next)[1..] == next;
    var body, rest := IntakeBody(batch), Posted(next, scripts, retries, k + 1);
    assert bodies + ([body] + rest) == bodies + [body] + rest;
    assert bodies + ([body] + []) == bodies + [body];
  }

  lemma BatchSent(
      logs: seq<IntakeLog>, scripts: nat -> Script, retries: nat, offset: nat, k: nat, bodies: seq<Json.Json>, end: nat)
    requires offset < |logs| && end == Furthest(Sizes(logs), offset, offset + 1)
    requires OnTrack(logs, scripts, retries, offset, k, bodies)
    ensures var result, sent := Send(scripts(k), retries, 0).result, bodies + [IntakeBody(logs[offset..end])];
            if result == Delivered then OnTrack(logs, scripts, retries, end, k + 1, sent)
            else sent == Posted(LogBatches(logs), scripts, retries, 0)
                 && Failure(|LogBatches(logs)|, scripts, retries, 0) == Some(result)
  {
    NextBatch(logs, offset, end);
    PostedFirst(logs[offset..end], BatchesFrom(logs, end), scripts, retries, k, bodies);
  }

  lemma AllSent(logs: seq<IntakeLog>, scripts: nat -> Script, retries: nat, k: nat, bodies: seq<Json.Json>)
    requires OnTrack(logs, scripts, retries, |logs|, k, bodies)
    ensures bodies == Posted(LogBatches(logs), scripts, retries, 0)
    ensures Failure(|LogBatches(logs)|, scripts, retries, 0) == None
  {
    assert BatchesFrom(logs, |logs|) == [];
    assert bodies + [] == bodies;
  }

  /** Cut, build and send the next batch. */
  method SendBatch(client: DatadogClient, logs: seq<IntakeLog>, offset: nat, script: Script)
    returns (batchEnd: nat, body: Json.Json, run: SendRun)
    requires client.Valid() && offset < |logs|
    modifies client, client.intakePool
    ensures client.Valid()
    ensures forall i :: 0 <= i < |client.intakePool| ==>
              client.intakePool[i] in old(client.intakePool) || fresh(client.intakePool[i])
    ensures batchEnd == Furthest(Sizes(logs), offset, offset + 1)
    ensures body == IntakeBody(logs[offset..batchEnd])
    ensures run == Send(script, client.retries, 0)
  {
    batchEnd := NextLogBatch(Sizes(logs), offset);
    body := BuildDatadogIntakeBody(logs[offset..batchEnd]);
    run := client.SendLogs(script);
  }

  /** `scripts(k)` is what the `k`-th batch meets. A failed batch throws: the call then has no results. */
  method DatadogSendLogsFunction(client: DatadogClient, rows: seq<LogRow>, isNanos: bool, scripts: nat -> Script)
    returns (results: Result<seq<Slot>, SendResult>, bodies: seq<Json.Json>)
    requires client.Valid()
    modifies client, client.intakePool
    ensures client.Valid()
    ensures bodies == Posted(LogBatches(LogsOf(rows, isNanos)), scripts, client.retries, 0)
    ensures match Failure(|LogBatches(LogsOf(rows, isNanos))|, scripts, client.retries, 0)
            case Some(failure) => results == Err(failure)
            case None => results.Ok? && |results.value| == |rows|
                         && forall r :: 0 <= r < |rows| ==>
                              results.value[r] == if rows[r].NullLog? then NullSlot else OkSlot
  {
    var slots, logs, sourceRows := CollectLogs(rows, isNanos);
    bodies := [];
    assert Marked(rows, slots, sourceRows, 0) by {
      assert sourceRows[0..] == sourceRows;
    }
    var offset, k := 0, 0;
    while offset < |logs|
      invariant offset <= |logs|
      invariant client.Valid()
      invariant forall i :: 0 <= i < |client.intakePool| ==>
                  client.intakePool[i] in old(client.intakePool) || fresh(client.intakePool[i])
      invariant Marked(rows, slots, sourceRows, offset)
      invariant OnTrack(logs, scripts, client.retries, offset, k, bodies)
    {
      var batchEnd, body, run := SendBatch(client, logs, offset, scripts(k));
      BatchSent(logs, scripts, client.retries, offset, k, bodies, batchEnd);
      bodies := bodies + [body];
      if run.result != Delivered {
        return Err(run.result), bodies;
      }
      slots := MarkOk(rows, slots, sourceRows, offset, batchEnd);
      offset := batchEnd;
      k := k + 1;
    }
    AllSent(logs, scripts, client.retries, k, bodies);
    AllMarked(rows, slots, sourceRows);
    results := Ok(slots);
  }

  // ----- what the intake holds afterwards -----

  lemma PrefixAfter<T>(a: seq<T>, b: seq<T>, c: seq<T>)
    requires b <= c
    ensures a + b <= a + c
  {
  }

  lemma TimesOnce<T>(s: seq<T>)
    ensures Times(s, 1) == s && Times(s, 0) == []
  {
    assert Times(s, 1) == s + Times(s, 0);
  }

  lemma {:induction false} SizesOfSlices(logs: seq<IntakeLog>, first: nat, ends: seq<nat>, k: nat)
    requires first <= |logs| && IsCut(Sizes(logs), first, ends) && k < |ends|
    ensures Slices(Sizes(logs), Sizes(logs), first, ends)[k] == Sizes(Slices(logs, Sizes(logs), first, ends)[k])
    decreases |ends|
  {
    if k > 0 {
      SizesOfSlices(logs, ends[0], ends[1..], k - 1);
    }
  }

  /** A request holds 1 to 1000 logs, estimated at no more than 4 MiB unless it is a single log. */
  lemma BatchLimits(logs: seq<IntakeLog>, k: nat)
    requires k < |LogBatches(logs)|
    ensures var batch := LogBatches(logs)[k];
            && 1 <= |batch| <= 1000
            && (|batch| == 1 || RangeBytes(Sizes(batch), 0, |batch|) <= 4 * 1024 * 1024)
  {
    GreedyIsCut(Sizes(logs), 0);
    SliceLimits(logs, Sizes(logs), 0, GreedyEnds(Sizes(logs), 0), k);
    SizesOfSlices(logs, 0, GreedyEnds(Sizes(logs), 0), k);
  }

  /**
   If only pre-send errors, 429 and server errors mean "not stored", the intake stores each log at most
   once and in order: whole batches up to the failing one, every batch when the call succeeds.
   */
  lemma {:induction false} StoredIsPrefix<T>(
      batches: seq<seq<T>>, scripts: nat -> Script, retries: nat, stores: Outcome -> bool, k: nat)
    requires forall o :: IsRetried(o) ==> !stores(o)
    requires forall o :: IsSuccess(o) ==> stores(o)
    ensures Stored(batches, scripts, retries, stores, k) <= Concat(batches)
    ensures Failure(|batches|, scripts, retries, k).None? ==>
              Stored(batches, scripts, retries, stores, k) == Concat(batches)
    decreases |batches|
  {
    if batches != [] {
      DeliveredExactlyOnce(scripts(k), retries, stores);
      TimesOnce(batches[0]);
      if Send(scripts(k), retries, 0).result == Delivered {
        StoredIsPrefix(batches[1..], scripts, retries, stores, k + 1);
        PrefixAfter(batches[0], Stored(batches[1..], scripts, retries, stores, k + 1), Concat(batches[1..]));
      } else {
        assert Times(batches[0], StoredCount(scripts(k), stores, 0, Send(scripts(k), retries, 0).posts)) <= batches[0];
      }
    }
  }

  /** A successful call stores exactly the non-NULL rows, once each and in row order; a failed one a prefix. */
  lemma RowsAreStoredOnce(
      rows: seq<LogRow>, isNanos: bool, scripts: nat -> Script, retries: nat, stores: Outcome -> bool)
    requires forall o :: IsRetried(o) ==> !stores(o)
    requires forall o :: IsSuccess(o) ==> stores(o)
    ensures var logs := LogsOf(rows, isNanos);
            var stored := Stored(LogBatches(logs), scripts, retries, stores, 0);
            stored <= logs && (Failure(|LogBatches(logs)|, scripts, retries, 0).None? ==> stored == logs)
  {
    var logs := LogsOf(rows, isNanos);
    var sizes := Sizes(logs);
    StoredIsPrefix(LogBatches(logs), scripts, retries, stores, 0);
    GreedyIsCut(sizes, 0);
    SlicesCover(logs, sizes, 0, GreedyEnds(sizes, 0));
    assert logs[0..] == logs;
  }

  lemma {:induction false} PromptBatches<T>(
      batches: seq<seq<T>>, scripts: nat -> Script, retries: nat, stores: Outcome -> bool, k: nat)
    requires forall i :: !scripts(i).interrupted(0) && IsSuccess(scripts(i).outcome(0))
    requires forall o :: IsSuccess(o) ==> stores(o)
    ensures Failure(|batches|, scripts, retries, k) == None
    ensures Stored(batches, scripts, retries, stores, k) == Concat(batches)
    decreases |batches|
  {
    if batches != [] {
      var script := scripts(k);
      FirstReplyDelivers(script, retries);
      assert StoredCount(script, stores, 1, 0) == 0 && StoredCount(script, stores, 0, 1) == 1;
      TimesOnce(batches[0]);
      PromptBatches(batches[1..], scripts, retries, stores, k + 1);
    }
  }

  lemma {:induction false} PromptBodies(batches: seq<seq<IntakeLog>>, scripts: nat -> Script, retries: nat, k: nat)
    requires forall i :: !scripts(i).interrupted(0) && IsSuccess(scripts(i).outcome(0))
    ensures Posted(batches, scripts, retries, k) ==
            seq(|batches|, i requires 0 <= i < |batches| => IntakeBody(batches[i]))
    decreases |batches|
  {
    if batches != [] {
      FirstReplyDelivers(scripts(k), retries);
      PromptBodies(batches[1..], scripts, retries, k + 1);
    }
  }

  /**
   When the first reply to every batch is in 200..299 the call succeeds, every batch is posted once, and all
   logs are stored: whatever else such servers do, and whichever other outcomes mean "stored".
   */
  lemma PromptRepliesDeliver(
      rows: seq<LogRow>, isNanos: bool, scripts: nat -> Script, retries: nat, stores: Outcome -> bool)
    requires forall i :: !scripts(i).interrupted(0)
    requires forall i :: scripts(i).outcome(0).Replied? && 200 <= scripts(i).outcome(0).status < 300
    requires forall o: Outcome :: o.Replied? && 200 <= o.status < 300 ==> stores(o)
    ensures var logs := LogsOf(rows, isNanos);
            var batches := LogBatches(logs);
            && Failure(|batches|, scripts, retries, 0) == None
            && Posted(batches, scripts, retries, 0) ==
               seq(|batches|, i requires 0 <= i < |batches| => IntakeBody(batches[i]))
            && Stored(batches, scripts, retries, stores, 0) == logs
  {
    var logs := LogsOf(rows, isNanos);
    PromptBatches(LogBatches(logs), scripts, retries, stores, 0);
    PromptBodies(LogBatches(logs), scripts, retries, 0);
    GreedyIsCut(Sizes(logs), 0);
    SlicesCover(logs, Sizes(logs), 0, GreedyEnds(Sizes(logs), 0));
    assert logs[0..] == logs;
  }

  /** An integer nanosecond time arrives truncated, whichever time column it is in, if the server converts exactly. */
  lemma RowTimeSurvives(row: LogRow, isNanos: bool, outside: Outside, nanos: int64)
    requires row.LogStruct? && ConvertsExactly(nanos, outside)
    requires if TimestampMs(row.timestamp, isNanos).Some? then isNanos && row.timestamp == Integral(nanos)
             else row.observedTimestamp == Integral(nanos)
    ensures Sent(LogOf(row, isNanos), outside).eventNanos == Truncated(nanos)
  {
    TimeSurvives(LogOf(row, isNanos), outside, nanos);
  }

  /** Times in milliseconds arrive as such, and dates truncated to the millisecond, if the server converts exactly. */
  lemma OtherTimesSurvive(row: LogRow, isNanos: bool, outside: Outside, time: int64)
    requires row.LogStruct?
    ensures !isNanos && row.timestamp == Integral(time) && FitsInt64(time * 1_000_000)
            && RoundedNanos(time, outside) == time * 1_000_000 ==>
              Sent(LogOf(row, isNanos), outside).eventNanos == time * 1_000_000
    ensures row.timestamp.Other? && row.timestamp.asTimestampNs == Some(time) && ConvertsExactly(time, outside) ==>
              Sent(LogOf(row, isNanos), outside).eventNanos == Truncated(time)
  {
    if !isNanos && row.timestamp == Integral(time) {
      ArrivingTime(LogOf(row, isNanos), outside, time);
    }
    if row.timestamp.Other? && row.timestamp.asTimestampNs == Some(time) {
      TimeSurvives(LogOf(row, isNanos), outside, time);
    }
  }

  /** The value under a key of the served resource attributes. */
  function ServedValue(served: IntakeRow, key: string): Option<Json.Json> {
    if served.resourceAttributes.None? then None else Entries.Lookup(served.resourceAttributes.value, key)
  }

  lemma ServedTexts(log: IntakeLog, outside: Outside)
    ensures log.hostname != "" ==> ServedValue(Sent(log, outside), "host") == Some(Json.Str(log.hostname))
    ensures log.ddsource != "" ==> ServedValue(Sent(log, outside), "ddsource") == Some(Json.Str(log.ddsource))
  {
    if log.hostname != "" {
      HostSurvives(log, outside);
    }
    if log.ddsource != "" {
      SourceSurvives(log, outside);
    }
  }

  lemma IdCellsArrive(row: LogRow, isNanos: bool, outside: Outside)
    requires row.LogStruct?
    ensures var custom, served := CustomMembers(LogOf(row, isNanos)), Sent(LogOf(row, isNanos), outside);
            && (StringField(row.traceId) != "" && Json.GetString(Json.Obj(custom), "dd.trace_id").None? ==>
                  served.traceId == Some(StringField(row.traceId)))
            && (StringField(row.spanId) != "" && Json.GetString(Json.Obj(custom), "dd.span_id").None? ==>
                  served.spanId == Some(StringField(row.spanId)))
  {
    IdsSurvive(LogOf(row, isNanos), outside);
  }

  /**
   Every non-empty cell arrives in its own column of the served row. The source is "duckdb" without a cell,
   and an id gives way only to the agent's own key.
   */
  lemma CellsSurvive(row: LogRow, isNanos: bool, outside: Outside)
    requires row.LogStruct?
    ensures var custom, served := CustomMembers(LogOf(row, isNanos)), Sent(LogOf(row, isNanos), outside);
            && (StringField(row.message) != "" ==> served.body == TextBody(StringField(row.message)))
            && (StringField(row.service) != "" ==> served.service == Some(StringField(row.service)))
            && (StringField(row.status) != "" ==> served.status == Some(StringField(row.status)))
            && (StringField(row.hostname) != "" ==>
                  ServedValue(served, "host") == Some(Json.Str(StringField(row.hostname))))
            && ServedValue(served, "ddsource") ==
               Some(Json.Str(if StringField(row.ddsource) != "" then StringField(row.ddsource) else "duckdb"))
            && (StringField(row.traceId) != "" && Json.GetString(Json.Obj(custom), "dd.trace_id").None? ==>
                  served.traceId == Some(StringField(row.traceId)))
            && (StringField(row.spanId) != "" && Json.GetString(Json.Obj(custom), "dd.span_id").None? ==>
                  served.spanId == Some(StringField(row.spanId)))
  {
    FieldsSurvive(LogOf(row, isNanos), outside);
    ServedTexts(LogOf(row, isNanos), outside);
    IdCellsArrive(row, isNanos, outside);
  }

  /** A tag cell that lists clean tags arrives as that list. */
  lemma TagCellSurvives(row: LogRow, isNanos: bool, outside: Outside, tags: seq<string>)
    requires row.LogStruct? && StringField(row.ddtags) == Commas(tags)
    requires tags != [] && forall i :: 0 <= i < |tags| ==> IsCleanTag(tags[i])
    ensures ServedValue(Sent(LogOf(row, isNanos), outside), "ddtags") == Some(Json.Arr(TagStrings(tags)))
  {
    TagsSurvive(LogOf(row, isNanos), outside, tags);
  }

  /** Custom attributes outside the keys of columns arrive unchanged, from their own cell. */
  lemma AttributeCellSurvives(row: LogRow, isNanos: bool, outside: Outside, members: Json.Members, key: string)
    requires row.LogStruct? && ObjectOf(row.logAttributes) == Some(members)
    requires key !in {"message", "service", "status", "timestamp", "hostname", "host", "ddtags", "ddsource"}
    requires key !in {"trace_id", "span_id", "resource_attributes"}
    ensures Entries.Lookup(ServedMembers(Sent(LogOf(row, isNanos), outside)), key) == Entries.Lookup(members, key)
  {
    CustomAttributesSurvive(LogOf(row, isNanos), outside, key);
  }

  /** So does the whole resource block. */
  lemma BlockCellSurvives(row: LogRow, isNanos: bool, outside: Outside, resource: Json.Members)
    requires row.LogStruct? && ObjectOf(row.resourceAttributes) == Some(resource)
    ensures Entries.Lookup(ServedMembers(Sent(LogOf(row, isNanos), outside)), "resource_attributes")
         == Some(Json.Obj(resource))
  {
    BlockSurvives(LogOf(row, isNanos), outside, resource);
  }

  lemma LowerStatus(status: string)
    requires forall i :: 0 <= i < |status| ==> status[i] >= 'a'
    ensures Text.Lower(status) == status
  {
  }

  /** The server's table turns the sender's status texts back into numbers. */
  lemma StatusNumbers()
    ensures StatusToSeverityNumber("trace") == 1 && StatusToSeverityNumber("debug") == 5
    ensures StatusToSeverityNumber("info") == 9 && StatusToSeverityNumber("warn") == 13
    ensures StatusToSeverityNumber("error") == 17 && StatusToSeverityNumber("critical") == 21
  {
    LowerStatus("trace");
    LowerStatus("debug");
    LowerStatus("info");
    LowerStatus("warn");
    LowerStatus("error");
    LowerStatus("critical");
  }

  /** Other spellings of a status have the number of the usual one, and letter case makes no difference. */
  lemma StatusSpellings(status: string)
    ensures StatusToSeverityNumber("notice") == StatusToSeverityNumber("ok") == 9
    ensures StatusToSeverityNumber("warning") == 13 && StatusToSeverityNumber("err") == 17
    ensures StatusToSeverityNumber("crit") == StatusToSeverityNumber("alert") == 21
    ensures StatusToSeverityNumber("emergency") == StatusToSeverityNumber("fatal") == 21
    ensures StatusToSeverityNumber(Text.Lower(status)) == StatusToSeverityNumber(status)
  {
    LowerStatus("notice");
    LowerStatus("ok");
    LowerStatus("warning");
    LowerStatus("err");
    LowerStatus("crit");
    LowerStatus("alert");
    LowerStatus("emergency");
    LowerStatus("fatal");
    assert Text.Lower(Text.Lower(status)) == Text.Lower(status);
  }

  lemma SeverityColumn(row: LogRow, isNanos: bool, number: int)
    requires row.LogStruct? && StringField(row.status) == ""
    requires row.severityNumber == Integral(number) && 1 <= number <= 24
    ensures LogOf(row, isNanos).status == SeverityNumberToStatus(number) != ""
  {
  }

  lemma SeverityRange(number: int)
    requires 1 <= number <= 24
    ensures StatusToSeverityNumber(SeverityNumberToStatus(number)) == (number - 1) / 4 * 4 + 1
  {
    StatusNumbers();
  }

  lemma SentSeverity(log: IntakeLog, outside: Outside, status: string)
    requires log.status == status != ""
    ensures Sent(log, outside).severityNumber == Some(StatusToSeverityNumber(status))
  {
    FieldsSurvive(log, outside);
  }

  /** A severity number without a status text arrives as the first number of its range of four. */
  lemma SeveritySurvives(row: LogRow, isNanos: bool, outside: Outside, number: int)
    requires row.LogStruct? && StringField(row.status) == ""
    requires row.severityNumber == Integral(number) && 1 <= number <= 24
    ensures Sent(LogOf(row, isNanos), outside).severityNumber == Some((number - 1) / 4 * 4 + 1)
  {
    SeverityColumn(row, isNanos, number);
    SeverityRange(number);
    SentSeverity(LogOf(row, isNanos), outside, SeverityNumberToStatus(number));
  }
}
