/**
 The log intake of `datadog_serve`: validating a request, reading its rows, and appending them in one
 transaction.
 */
module IntakeServer {
  import opened Prelude
  import opened Text
  import opened Json
  import opened IntakeLines
  import opened IntakeMapping
  import Batching
  import SendLogs

  const MAX_INTAKE_ARRAY: nat := 1000

  /** The JSON reader: None for text that is not one JSON value. */
  type Parser = string -> Option<Json>

  // ----- reading a body -----

  function MapAll(items: seq<Json>, outside: Outside): Option<seq<IntakeRow>> {
    if items == [] then Some([])
    else
      var rest, last := MapAll(items[..|items| - 1], outside), ServedRow(items[|items| - 1], outside);
      if rest.None? || last.None? then None else Some(rest.value + [last.value])
  }

  /** The rows of one document; None is a document that is refused. */
  function DocumentRows(document: Option<Json>, outside: Outside): Option<seq<IntakeRow>> {
    match document
    case Some(Arr(items)) => if |items| > MAX_INTAKE_ARRAY then None else MapAll(items, outside)
    case Some(value) => if value.Obj? then MapAll([value], outside) else None
    case None => None
  }

  function DocumentReader(parse: Parser, outside: Outside): Reader<IntakeRow> {
    (text: string) => DocumentRows(parse(text), outside)
  }

  predicate OneDocumentPerLine(contentType: string) {
    Lower(contentType[..Find(contentType, ';', 0)]) in {"application/x-ndjson", "application/ndjson", "text/plain"}
  }

  /** The rows of a request body; one refused document refuses the whole body. */
  function BodyRows(contentType: string, body: string, parse: Parser, outside: Outside): Option<seq<IntakeRow>> {
    AllRows(if OneDocumentPerLine(contentType) then Lines(body, 0) else [body], DocumentReader(parse, outside))
  }

  /** An item that is not an object refuses the array, whatever follows it. */
  lemma {:induction false} RefusedItem(items: seq<Json>, i: nat, outside: Outside)
    requires i < |items| && ServedRow(items[i], outside).None?
    ensures MapAll(items, outside).None?
  {
    if i < |items| - 1 {
      RefusedItem(items[..|items| - 1], i, outside);
    }
  }

  method MapArray(items: seq<Json>, outside: Outside) returns (r: Option<seq<IntakeRow>>)
    ensures r == MapAll(items, outside)
  {
    var rows: seq<IntakeRow> := [];
    for i := 0 to |items|
      invariant MapAll(items[..i], outside) == Some(rows)
    {
      assert items[..i + 1][..i] == items[..i];
      var row := MapIntakeLog(items[i], outside);
      if row.None? {
        RefusedItem(items, i, outside);
        return None;
      }
      rows := rows + [row.value];
    }
    assert items[..|items|] == items;
    r := Some(rows);
  }

  lemma {:induction false} MapAllOf(items: seq<Json>, rows: seq<IntakeRow>, outside: Outside)
    requires |items| == |rows| && forall i :: 0 <= i < |items| ==> ServedRow(items[i], outside) == Some(rows[i])
    ensures MapAll(items, outside) == Some(rows)
  {
    if items != [] {
      MapAllOf(items[..|items| - 1], rows[..|rows| - 1], outside);
      assert rows == rows[..|rows| - 1] + [rows[|rows| - 1]];
    }
  }

  method ParseJsonDocument(text: string, parse: Parser, outside: Outside, rows: seq<IntakeRow>)
    returns (r: Option<seq<IntakeRow>>)
    ensures r == InFront(rows, DocumentRows(parse(text), outside))
  {
    var root := parse(text);
    if root.None? {
      return None;
    }
    if root.value.Arr? {
      if |root.value.items| > MAX_INTAKE_ARRAY {
        return None;
      }
      var more := MapArray(root.value.items, outside);
      if more.None? {
        return None;
      }
      r := Some(rows + more.value);
    } else if root.value.Obj? {
      var row := MapIntakeLog(root.value, outside);
      MapAllOf([root.value], [row.value], outside);
      r := Some(rows + [row.value]);
    } else {
      r := None;
    }
  }

  method ParseLine(line: string, parse: Parser, outside: Outside, rows: seq<IntakeRow>)
    returns (r: Option<seq<IntakeRow>>)
    ensures r == InFront(rows, LineRows(line, DocumentReader(parse, outside)))
  {
    if line == "" {
      assert rows + [] == rows;
      return Some(rows);
    }
    r := ParseJsonDocument(line, parse, outside, rows);
  }

  /** The line at `begin`, and where the next one starts. */
  method ParseNextLine(body: string, begin: nat, parse: Parser, outside: Outside, rows: seq<IntakeRow>)
    returns (r: Option<seq<IntakeRow>>, next: nat)
    requires begin < |body|
    ensures begin < next && next == Find(body, '\n', begin) + 1
    ensures var read := DocumentReader(parse, outside);
            InFront(rows, RowsFrom(body, begin, read)) == Then(r, RowsFrom(body, next, read))
  {
    NextRows(body, begin, DocumentReader(parse, outside), rows);
    var end := Find(body, '\n', begin);
    r := ParseLine(Trim(body[begin..end]), parse, outside, rows);
    next := end + 1;
  }

  method ParseLines(body: string, parse: Parser, outside: Outside) returns (r: Option<seq<IntakeRow>>)
    ensures r == RowsFrom(body, 0, DocumentReader(parse, outside))
  {
    var rows: seq<IntakeRow> := [];
    var begin := 0;
    ghost var read := DocumentReader(parse, outside);
    ghost var all := RowsFrom(body, 0, read);
    NothingInFront(all);
    while begin < |body|
      invariant InFront(rows, RowsFrom(body, begin, read)) == all
      decreases |body| - begin
    {
      var more;
      more, begin := ParseNextLine(body, begin, parse, outside, rows);
      if more.None? {
        return None;
      }
      rows := more.value;
    }
    assert rows + [] == rows;
    r := Some(rows);
  }

  method ParseIntakeBody(contentType: string, body: string, parse: Parser, outside: Outside)
    returns (r: Option<seq<IntakeRow>>)
    ensures r == BodyRows(contentType, body, parse, outside)
  {
    var mediaType := Lower(contentType[..Find(contentType, ';', 0)]);
    if mediaType == "application/x-ndjson" || mediaType == "application/ndjson" || mediaType == "text/plain" {
      RowsFromIsLines(body, 0, DocumentReader(parse, outside));
      r := ParseLines(body, parse, outside);
    } else {
      OneDocument(body, DocumentReader(parse, outside));
      NothingInFront(DocumentRows(parse(body), outside));
      r := ParseJsonDocument(body, parse, outside, []);
    }
  }

  // ----- what is refused -----

  /** No JSON, neither an object nor an array, more than a thousand elements, or one that is no object. */
  predicate IsRefused(document: Option<Json>) {
    match document
    case None => true
    case Some(Arr(items)) => |items| > 1000 || exists i :: 0 <= i < |items| && !items[i].Obj?
    case Some(value) => !value.Obj?
  }

  lemma {:induction false} MapAllRefusesIff(items: seq<Json>, outside: Outside)
    ensures MapAll(items, outside).None? <==> exists i :: 0 <= i < |items| && !items[i].Obj?
  {
    if items != [] {
      var init := items[..|items| - 1];
      MapAllRefusesIff(init, outside);
      assert forall i :: 0 <= i < |init| ==> init[i] == items[i];
    }
  }

  lemma DocumentIsRefusedIff(document: Option<Json>, outside: Outside)
    ensures DocumentRows(document, outside).None? <==> IsRefused(document)
  {
    if document.Some? && document.value.Arr? {
      MapAllRefusesIff(document.value.items, outside);
    } else if document.Some? && document.value.Obj? {
      MapAllRefusesIff([document.value], outside);
    }
  }

  /** A body is refused exactly when one of its documents is: its non-empty lines, or the body as a whole. */
  lemma BodyIsRefusedIff(contentType: string, body: string, parse: Parser, outside: Outside)
    ensures BodyRows(contentType, body, parse, outside).None? <==>
            if Lower(contentType[..Find(contentType, ';', 0)])
               in {"application/x-ndjson", "application/ndjson", "text/plain"}
            then exists i :: 0 <= i < |Lines(body, 0)| && IsRefused(parse(Lines(body, 0)[i]))
            else IsRefused(parse(body))
  {
    var read := DocumentReader(parse, outside);
    forall text: string
      ensures read(text).None? <==> IsRefused(parse(text))
    {
      DocumentIsRefusedIff(parse(text), outside);
    }
    if OneDocumentPerLine(contentType) {
      RefusedIff(Lines(body, 0), read);
    } else {
      OneDocument(body, read);
    }
  }

  // ----- handling a request -----

  datatype Config = Config(apiKey: seq<bv8>, maxBodyBytes: nat)

  datatype Request = Request(contentType: string, suppliedKey: seq<bv8>, body: string)

  lemma NoDifference(difference: bv8, a: bv8, b: bv8)
    ensures difference | (a ^ b) == 0 <==> difference == 0 && a == b
  {
  }

  /** Compares without stopping at the first difference. */
  method TimingSafeEqual(left: seq<bv8>, right: seq<bv8>) returns (equal: bool)
    ensures equal <==> left == right
  {
    if |left| != |right| {
      return false;
    }
    var difference: bv8 := 0;
    for i := 0 to |left|
      invariant difference == 0 <==> left[..i] == right[..i]
    {
      PrefixSnoc(left, i);
      PrefixSnoc(right, i);
      NoDifference(difference, left[i], right[i]);
      assert left[..i + 1] == right[..i + 1] <==> left[..i] == right[..i] && left[i] == right[i];
      difference := difference | (left[i] ^ right[i]);
    }
    assert left[..|left|] == left && right[..|left|] == right;
    equal := difference == 0;
  }

  /** What a request asks for: the status it is refused with, or the rows to append. */
  function Verdict(config: Config, request: Request, parse: Parser, outside: Outside): Result<seq<IntakeRow>, int> {
    if |request.body| > config.maxBodyBytes then Err(413)
    else if config.apiKey != [] && request.suppliedKey != config.apiKey then Err(403)
    else
      match BodyRows(request.contentType, request.body, parse, outside)
      case None => Err(400)
      case Some(rows) => Ok(rows)
  }

  /**
   An exception on the way: of the database after this many rows, `invalid` telling which handler catches
   it, or while the answer is built, after everything was stored and counted.
   */
  datatype Fault = InAppend(after: nat, invalid: bool) | WhileAnswering

  predicate AppendFails(rows: seq<IntakeRow>, fault: Option<Fault>) {
    rows != [] && fault.Some? && fault.value.InAppend? && fault.value.after <= |rows|
  }

  /** The request's rows end up in the table. */
  predicate Stores(verdict: Result<seq<IntakeRow>, int>, fault: Option<Fault>) {
    verdict.Ok? && !AppendFails(verdict.value, fault)
  }

  function Status(verdict: Result<seq<IntakeRow>, int>, fault: Option<Fault>): int {
    match verdict
    case Err(refusal) => refusal
    case Ok(rows) =>
      if AppendFails(rows, fault) then (if fault.value.invalid then 400 else 500)
      else if fault == Some(WhileAnswering) then 500
      else 202
  }

  class DatadogServer {
    const config: Config
    var table: seq<IntakeRow>
    var transaction: Option<seq<IntakeRow>>
    var totalRequests: nat
    var totalRows: nat

    constructor (config: Config, table: seq<IntakeRow>)
      ensures this.config == config && this.table == table
      ensures transaction == None && totalRequests == 0 && totalRows == 0
    {
      this.config := config;
      this.table := table;
      transaction := None;
      totalRequests, totalRows := 0, 0;
    }

    method Commit()
      requires transaction.Some?
      modifies this`table, this`transaction
      ensures table == old(table) + old(transaction.value) && transaction == None
    {
      table := table + transaction.value;
      transaction := None;
    }

    method Rollback()
      modifies this`transaction
      ensures transaction == None
    {
      transaction := None;
    }

    /** All rows or none reach the table. */
    method Append(rows: seq<IntakeRow>, fault: Option<Fault>) returns (failed: bool)
      requires transaction.None?
      modifies this`table, this`transaction
      ensures transaction.None?
      ensures failed <==> AppendFails(rows, fault)
      ensures table == if failed then old(table) else old(table) + rows
    {
      if rows == [] {
        return false;
      }
      transaction := Some([]);
      for i := 0 to |rows|
        invariant transaction == Some(rows[..i]) && table == old(table)
        invariant AppendFails(rows, fault) ==> fault.value.after >= i
      {
        if fault.Some? && fault.value.InAppend? && fault.value.after == i {
          Rollback();
          return true;
        }
        PrefixSnoc(rows, i);
        transaction := Some(transaction.value + [rows[i]]);
      }
      if fault.Some? && fault.value.InAppend? && fault.value.after == |rows| {
        Rollback();
        return true;
      }
      assert rows[..|rows|] == rows;
      Commit();
      failed := false;
    }

    ghost predicate Unchanged(tableBefore: seq<IntakeRow>, rowsBefore: nat, requestsBefore: nat)
      reads this
    {
      table == tableBefore && totalRows == rowsBefore && totalRequests == requestsBefore
    }

    /** Within the body limit and, when the server has a key, with that very key. */
    predicate Admitted(request: Request) {
      |request.body| <= config.maxBodyBytes && (config.apiKey == [] || request.suppliedKey == config.apiKey)
    }

    /**
     The rows are stored and counted, or nothing changes. An answer of 202 means stored; any other answer
     means that nothing changed, unless building the answer itself failed.
     */
    method HandleLogs(request: Request, parse: Parser, outside: Outside, fault: Option<Fault>) returns (status: int)
      requires transaction.None?
      modifies this
      ensures transaction.None?
      ensures var verdict := Verdict(config, request, parse, outside);
              && status == Status(verdict, fault)
              && (if Stores(verdict, fault) then
                    && table == old(table) + verdict.value
                    && totalRows == old(totalRows) + |verdict.value|
                    && totalRequests == old(totalRequests) + 1
                  else Unchanged(old(table), old(totalRows), old(totalRequests)))
      ensures status == 413 <==> |request.body| > config.maxBodyBytes
      ensures status == 403 <==>
                |request.body| <= config.maxBodyBytes && config.apiKey != [] && request.suppliedKey != config.apiKey
      ensures status == 400 <==>
                && Admitted(request)
                && var rows := BodyRows(request.contentType, request.body, parse, outside);
                   rows.None? || (AppendFails(rows.value, fault) && fault.value.invalid)
      ensures status == 500 <==>
                && Admitted(request)
                && var rows := BodyRows(request.contentType, request.body, parse, outside);
                   && rows.Some?
                   && if AppendFails(rows.value, fault) then !fault.value.invalid else fault == Some(WhileAnswering)
      ensures status in {202, 400, 403, 413, 500}
      ensures !Unchanged(old(table), old(totalRows), old(totalRequests)) ==>
                config.apiKey == [] || request.suppliedKey == config.apiKey
      ensures status == 202 ==> Stores(Verdict(config, request, parse, outside), fault)
      ensures status != 202 && fault != Some(WhileAnswering) ==>
                Unchanged(old(table), old(totalRows), old(totalRequests))
    {
      if |request.body| > config.maxBodyBytes {
        return 413;
      }
      var sameKey := TimingSafeEqual(request.suppliedKey, config.apiKey);
      if config.apiKey != [] && !sameKey {
        return 403;
      }
      var rows := ParseIntakeBody(request.contentType, request.body, parse, outside);
      if rows.None? {
        return 400;
      }
      var failed := Append(rows.value, fault);
      if failed {
        return if fault.value.invalid then 400 else 500;
      }
      totalRequests := totalRequests + 1;
      totalRows := totalRows + |rows.value|;
      if fault == Some(WhileAnswering) {
        return 500;
      }
      status := 202;
    }
  }

  // ----- a sender's batch -----

  function SentRows(logs: seq<IntakeLog>, outside: Outside): seq<IntakeRow> {
    seq(|logs|, i requires 0 <= i < |logs| => Sent(logs[i], outside))
  }

  lemma ServedIsSent(log: IntakeLog, outside: Outside)
    ensures ServedRow(IntakeObject(log), outside) == Some(Sent(log, outside))
  {
  }

  /** A body of at most as many logs as the intake allows becomes their rows. */
  lemma BatchDocument(logs: seq<IntakeLog>, outside: Outside)
    requires |logs| <= MAX_INTAKE_ARRAY
    ensures DocumentRows(Some(IntakeBody(logs)), outside) == Some(SentRows(logs, outside))
  {
    var items := IntakeBody(logs).items;
    forall i | 0 <= i < |items|
      ensures ServedRow(items[i], outside) == Some(SentRows(logs, outside)[i])
    {
      ServedIsSent(logs[i], outside);
    }
    MapAllOf(items, SentRows(logs, outside), outside);
  }

  lemma JsonIsNotLines()
    ensures !OneDocumentPerLine("application/json")
  {
    var s := "application/json";
    var media := Lower(s[..Find(s, ';', 0)]);
    assert |media| <= 16 && |"application/x-ndjson"| == 20 && |"application/ndjson"| == 18;
    assert media != "" ==> media[0] == 'a';
    assert "text/plain"[0] == 't';
  }

  lemma BatchWithinLimit(logs: seq<IntakeLog>, k: nat)
    requires k < |SendLogs.LogBatches(logs)|
    ensures |SendLogs.LogBatches(logs)[k]| <= 1000
  {
    var sizes := SendLogs.Sizes(logs);
    Batching.GreedyIsCut(sizes, 0);
    Batching.SliceLimits(logs, sizes, 0, Batching.GreedyEnds(sizes, 0), k);
  }

  /**
   Every batch that `send_datadog_logs` cuts is one that `datadog_serve` accepts, log by log and in
   order: the sender's count limit is within the intake's array limit.
   */
  lemma BatchIsAccepted(logs: seq<IntakeLog>, k: nat, parse: Parser, text: string, outside: Outside)
    requires k < |SendLogs.LogBatches(logs)|
    requires parse(text) == Some(IntakeBody(SendLogs.LogBatches(logs)[k]))
    ensures BodyRows("application/json", text, parse, outside) == Some(SentRows(SendLogs.LogBatches(logs)[k], outside))
  {
    BatchWithinLimit(logs, k);
    BatchDocument(SendLogs.LogBatches(logs)[k], outside);
    JsonIsNotLines();
    OneDocument(text, DocumentReader(parse, outside));
  }
}
