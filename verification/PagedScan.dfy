/**
 The cursor-driven, row-budgeted scan behind `read_datadog_logs` and `read_datadog_traces`: what it
 keeps against any server, and what it emits against one that follows the paging protocol.
 */
module PagedScan {
  import opened Prelude

  /** Rows DuckDB takes from one call. */
  const STANDARD_VECTOR_SIZE: nat := 2048

  /** `maxRows` 0 means no limit. */
  datatype Settings = Settings(pageSize: int, maxRows: int)

  /** The checks on the scan settings that the paging depends on. */
  predicate ValidSettings(settings: Settings) {
    1 <= settings.pageSize <= 1000 && 0 <= settings.maxRows
  }

  predicate MaxRowsReached(settings: Settings, emitted: nat) {
    settings.maxRows > 0 && emitted >= settings.maxRows
  }

  /** The limit to request next, given the limits reserved so far. */
  function PageLimit(settings: Settings, used: nat): int {
    if settings.maxRows <= 0 then settings.pageSize
    else if used >= settings.maxRows then 0
    else Min(settings.pageSize, settings.maxRows - used)
  }

  /** One reply; a broken one makes the scan throw. `after` is the next-page cursor, if it is a string. */
  datatype Response<+R> = Broken | Page(rows: seq<R>, after: Option<string>)

  /** A server answers a request by its number, its cursor and its limit: any behaviour at all. */
  type Server<!R> = (nat, string, int) -> Response<R>

  /** The fields of the scan; `requests` counts the pages asked for. */
  datatype State<R> = State(
    buffer: seq<R>,
    cursor: string,
    budget: nat,
    emitted: nat,
    finished: bool,
    requests: nat)

  /** The scan of an empty window starts out finished. */
  function Initial<R>(empty: bool): State<R> {
    State([], "", 0, 0, empty, 0)
  }

  // ----- one step, as a function -----

  function Fetched<R>(settings: Settings, s: State<R>, rows: seq<R>, after: Option<string>): State<R>
    requires PageLimit(settings, s.budget) > 0
  {
    var budget := s.budget + PageLimit(settings, s.budget);
    var last := PageLimit(settings, budget) == 0 || after == None || after == Some("") || rows == []
                || after == Some(s.cursor);
    var cursor := if last then s.cursor else after.value;
    State(s.buffer + rows, cursor, budget, s.emitted, s.finished || last, s.requests + 1)
  }

  /** Rows left in the cap. */
  function Allowance<R>(settings: Settings, s: State<R>): nat {
    if settings.maxRows <= 0 then |s.buffer|
    else if s.emitted >= settings.maxRows then 0
    else settings.maxRows - s.emitted
  }

  /** How many rows the next chunk takes from the buffer. */
  function ChunkSize<R>(settings: Settings, s: State<R>): nat {
    Min(STANDARD_VECTOR_SIZE, Min(|s.buffer|, Allowance(settings, s)))
  }

  /** The buffer after a chunk was taken; reaching the cap drops the rest. */
  function Emitted<R>(settings: Settings, s: State<R>, count: nat): State<R>
    requires count <= |s.buffer|
  {
    var emitted := s.emitted + count;
    if MaxRowsReached(settings, emitted) && s.buffer != []
    then s.(buffer := [], emitted := emitted, finished := true)
    else s.(buffer := s.buffer[count..], emitted := emitted)
  }

  /** A call first stops a scan whose cap is reached. */
  function Capped<R>(settings: Settings, s: State<R>): State<R> {
    if MaxRowsReached(settings, s.emitted) then s.(buffer := [], finished := true) else s
  }

  /** Pages are fetched until there is a row or the scan is finished; None when a reply is broken. */
  function Refilled<R>(settings: Settings, server: Server<R>, s: State<R>): Option<State<R>>
    requires !s.finished ==> PageLimit(settings, s.budget) > 0
  {
    if s.buffer != [] || s.finished then Some(s)
    else
      match server(s.requests, s.cursor, PageLimit(settings, s.budget))
      case Broken => None
      case Page(rows, after) => Some(Fetched(settings, s, rows, after))
  }

  function ScanCall<R>(settings: Settings, server: Server<R>, s: State<R>): Option<(State<R>, seq<R>)>
    requires !s.finished ==> PageLimit(settings, s.budget) > 0
  {
    match Refilled(settings, server, Capped(settings, s))
    case None => None
    case Some(full) =>
      var count := ChunkSize(settings, full);
      Some((Emitted(settings, full, count), full.buffer[..count]))
  }

  // ----- what every step keeps, whatever the server does -----

  /** What so many full pages hold. */
  function FullPages(settings: Settings, requests: nat): int {
    if requests == 0 then 0 else FullPages(settings, requests - 1) + settings.pageSize
  }

  /** The reserved limits are full pages up to the cap, and an unfinished scan has budget left. */
  predicate Inv<R>(settings: Settings, s: State<R>) {
    && ValidSettings(settings)
    && (settings.maxRows == 0 ==> s.budget == FullPages(settings, s.requests))
    && (settings.maxRows > 0 ==>
          && s.budget == Min(FullPages(settings, s.requests), settings.maxRows)
          && (s.requests > 0 ==> FullPages(settings, s.requests - 1) < settings.maxRows)
          && s.emitted <= settings.maxRows)
    && (!s.finished ==> PageLimit(settings, s.budget) > 0)
  }

  lemma InitialInv<R>(settings: Settings, empty: bool)
    requires ValidSettings(settings)
    ensures Inv(settings, Initial<R>(empty))
  {
  }

  lemma FetchedInv<R>(settings: Settings, s: State<R>, rows: seq<R>, after: Option<string>)
    requires Inv(settings, s) && !s.finished
    ensures Inv(settings, Fetched(settings, s, rows, after))
  {
    assert FullPages(settings, s.requests + 1) == FullPages(settings, s.requests) + settings.pageSize;
  }

  lemma EmittedInv<R>(settings: Settings, s: State<R>, count: nat)
    requires Inv(settings, s) && count <= ChunkSize(settings, s)
    ensures Inv(settings, Emitted(settings, s, count))
  {
  }

  lemma RefilledInv<R>(settings: Settings, server: Server<R>, s: State<R>)
    requires Inv(settings, s)
    ensures var r := Refilled(settings, server, s);
            r.Some? ==>
              && Inv(settings, r.value) && r.value.emitted == s.emitted
              && (r.value.buffer != [] || r.value.finished)
  {
    if s.buffer == [] && !s.finished {
      var reply := server(s.requests, s.cursor, PageLimit(settings, s.budget));
      if reply.Page? {
        FetchedInv(settings, s, reply.rows, reply.after);
      }
    }
  }

  lemma CallInv<R>(settings: Settings, server: Server<R>, s: State<R>)
    requires Inv(settings, s)
    ensures var r := ScanCall(settings, server, s);
            r.Some? ==>
              && Inv(settings, r.value.0)
              && r.value.0.emitted == s.emitted + |r.value.1|
              && (r.value.1 == [] ==> r.value.0.finished && r.value.0.buffer == [])
  {
    var capped := Capped(settings, s);
    var full := Refilled(settings, server, capped);
    RefilledInv(settings, server, capped);
    if full.Some? {
      EmittedInv(settings, full.value, ChunkSize(settings, full.value));
    }
  }

  /** One fetch either yields a row or finishes the scan, so the refill loop runs at most once. */
  lemma OneFetchSuffices<R>(settings: Settings, s: State<R>, rows: seq<R>, after: Option<string>)
    requires PageLimit(settings, s.budget) > 0
    ensures var t := Fetched(settings, s, rows, after); t.buffer != [] || t.finished
  {
  }

  // ----- the scan -----

  lemma TakeOne<R>(s: seq<R>, n: nat)
    requires n < |s|
    ensures s[..n] + [s[n..][0]] == s[..n + 1] && s[n..][1..] == s[n + 1..]
  {
  }

  class Scan<R> {
    const settings: Settings
    var buffer: seq<R>
    var cursor: string
    var rowBudgetUsed: nat
    var totalEmitted: nat
    var finished: bool
    /** The number of requests sent; the code does not count them, the server may. */
    var requests: nat

    constructor (settings: Settings, empty: bool)
      ensures this.settings == settings && View() == Initial(empty)
    {
      this.settings := settings;
      buffer, cursor, rowBudgetUsed, totalEmitted, finished, requests := [], "", 0, 0, empty, 0;
    }

    function View(): State<R>
      reads this
    {
      State(buffer, cursor, rowBudgetUsed, totalEmitted, finished, requests)
    }

    /** The assertion `page_limit > 0` of the code is the precondition. */
    method FetchNextPage(server: Server<R>) returns (ok: bool)
      requires PageLimit(settings, rowBudgetUsed) > 0
      modifies this
      ensures var reply := server(old(requests), old(cursor), PageLimit(settings, old(rowBudgetUsed)));
              && (ok <==> reply.Page?)
              && (ok ==> View() == Fetched(settings, old(View()), reply.rows, reply.after))
    {
      var pageLimit := PageLimit(settings, rowBudgetUsed);
      var response := server(requests, cursor, pageLimit);
      requests := requests + 1;
      rowBudgetUsed := rowBudgetUsed + pageLimit;
      if response.Broken? {
        return false;
      }
      var pageRows := |response.rows|;
      buffer := buffer + response.rows;
      var after := response.after;
      if PageLimit(settings, rowBudgetUsed) == 0 || after.None? || after.value == "" || pageRows == 0
         || cursor == after.value {
        finished := true;
      } else {
        cursor := after.value;
      }
      ok := true;
    }

    /** Fetch as many pages as it takes to get a row or to finish. */
    method Refill(server: Server<R>) returns (ok: bool)
      requires !finished ==> PageLimit(settings, rowBudgetUsed) > 0
      modifies this
      ensures Refilled(settings, server, old(View())) == if ok then Some(View()) else None
    {
      ghost var start := View();
      while buffer == [] && !finished
        invariant View() == start || ((buffer != [] || finished) && Refilled(settings, server, start) == Some(View()))
        decreases buffer == [] && !finished
      {
        ok := FetchNextPage(server);
        if !ok {
          return;
        }
      }
      ok := true;
    }

    method DatadogLogsScan(server: Server<R>) returns (output: Option<seq<R>>)
      requires settings.maxRows >= 0
      requires !finished ==> PageLimit(settings, rowBudgetUsed) > 0
      modifies this
      ensures var r := ScanCall(settings, server, old(View()));
              if r.None? then output == None else output == Some(r.value.1) && View() == r.value.0
    {
      if MaxRowsReached(settings, totalEmitted) {
        finished := true;
        buffer := [];
      }
      assert View() == Capped(settings, old(View()));
      var ok := Refill(server);
      if !ok {
        return None;
      }
      var chunk := Emit();
      output := Some(chunk);
    }

    method Emit() returns (chunk: seq<R>)
      requires settings.maxRows >= 0
      modifies this
      ensures chunk == old(buffer)[..ChunkSize(settings, old(View()))]
      ensures View() == Emitted(settings, old(View()), ChunkSize(settings, old(View())))
    {
      chunk := [];
      ghost var start := View();
      while |chunk| < STANDARD_VECTOR_SIZE && buffer != []
        invariant |chunk| <= |start.buffer| && chunk == start.buffer[..|chunk|]
        invariant |chunk| <= ChunkSize(settings, start)
        invariant View() == start.(buffer := start.buffer[|chunk|..], emitted := start.emitted + |chunk|)
        invariant |chunk| > 0 ==> !MaxRowsReached(settings, totalEmitted)
        decreases |buffer|
      {
        if MaxRowsReached(settings, totalEmitted) {
          finished := true;
          buffer := [];
          return;
        }
        TakeOne(start.buffer, |chunk|);
        chunk := chunk + [buffer[0]];
        buffer := buffer[1..];
        totalEmitted := totalEmitted + 1;
        if MaxRowsReached(settings, totalEmitted) {
          finished := true;
          buffer := [];
          return;
        }
      }
    }
  }

  // ----- every run against an arbitrary server -----

  /** A run: the state reached, the rows emitted, and whether the last call threw. */
  datatype Progress<R> = Progress(state: State<R>, rows: seq<R>, thrown: bool)

  /** The state after a broken reply, whose request counts like one that brought nothing. */
  function Thrown<R>(settings: Settings, s: State<R>): State<R>
    requires PageLimit(settings, s.budget) > 0
  {
    Fetched(settings, s, [], None)
  }

  /** One more call, unless an earlier one threw. */
  function NextCall<R>(settings: Settings, server: Server<R>, p: Progress<R>): Progress<R>
    requires Inv(settings, p.state)
  {
    if p.thrown then p
    else
      match ScanCall(settings, server, p.state)
      case None => Progress(Thrown(settings, Capped(settings, p.state)), p.rows, true)
      case Some((t, chunk)) => Progress(t, p.rows + chunk, false)
  }

  lemma NextCallInv<R>(settings: Settings, server: Server<R>, p: Progress<R>)
    requires Inv(settings, p.state) && |p.rows| == p.state.emitted
    ensures var q := NextCall(settings, server, p); Inv(settings, q.state) && |q.rows| == q.state.emitted
  {
    if !p.thrown {
      CallInv(settings, server, p.state);
      if ScanCall(settings, server, p.state).None? {
        FetchedInv(settings, Capped(settings, p.state), [], None);
      }
    }
  }

  /** `n` calls in a row from the beginning, or up to the one that throws. */
  function Run<R>(settings: Settings, server: Server<R>, empty: bool, n: nat): (p: Progress<R>)
    requires ValidSettings(settings)
    ensures Inv(settings, p.state) && |p.rows| == p.state.emitted
  {
    if n == 0 then Progress(Initial(empty), [], false)
    else
      var before := Run(settings, server, empty, n - 1);
      NextCallInv(settings, server, before);
      NextCall(settings, server, before)
  }

  function CeilDiv(a: nat, b: nat): nat
    requires b > 0
  {
    (a + b - 1) / b
  }

  lemma ProductMonotone(a: int, b: int, d: int)
    requires d > 0 && a >= b
    ensures a * d >= b * d
  {
    assert a * d == b * d + (a - b) * d;
  }

  lemma LessFromProduct(a: int, b: int, d: int)
    requires d > 0 && a * d < b * d
    ensures a < b
  {
    if a >= b {
      ProductMonotone(a, b, d);
    }
  }

  lemma RequestBound(requests: nat, pageSize: nat, maxRows: nat)
    requires pageSize > 0 && maxRows > 0
    requires requests > 0 ==> (requests - 1) * pageSize < maxRows
    ensures requests <= CeilDiv(maxRows, pageSize)
  {
    if requests > 0 {
      var q := (maxRows + pageSize - 1) / pageSize;
      assert maxRows + pageSize - 1 < q * pageSize + pageSize by {
        var r := (maxRows + pageSize - 1) % pageSize;
        assert maxRows + pageSize - 1 == pageSize * q + r;
        assert pageSize * q == q * pageSize;
      }
      assert (requests - 1) * pageSize < q * pageSize;
      LessFromProduct(requests - 1, q, pageSize);
    }
  }

  lemma {:induction false} FullPagesIs(settings: Settings, requests: nat)
    ensures FullPages(settings, requests) == requests * settings.pageSize
  {
    if requests > 0 {
      FullPagesIs(settings, requests - 1);
    }
  }

  /**
   Over any run against any server, a failing last call included: the rows emitted never exceed the cap,
   the reserved limits sum to at most the cap, and no more pages are requested than the cap needs.
   */
  lemma {:induction false} RunBounds<R>(settings: Settings, server: Server<R>, empty: bool, n: nat)
    requires ValidSettings(settings)
    ensures var p := Run(settings, server, empty, n);
            && |p.rows| == p.state.emitted
            && (settings.maxRows > 0 ==>
                  && |p.rows| <= settings.maxRows
                  && p.state.budget <= settings.maxRows
                  && p.state.requests <= CeilDiv(settings.maxRows, settings.pageSize))
            && (!p.state.finished ==> PageLimit(settings, p.state.budget) > 0)
  {
    if settings.maxRows > 0 {
      var requests := Run(settings, server, empty, n).state.requests;
      if requests > 0 {
        FullPagesIs(settings, requests - 1);
      }
      RequestBound(requests, settings.pageSize, settings.maxRows);
    }
  }

  /** An empty chunk means the scan is exhausted: from then on nothing is fetched or emitted. */
  lemma EmptyChunkIsFinal<R>(settings: Settings, server: Server<R>, s: State<R>)
    requires Inv(settings, s) && ScanCall(settings, server, s).Some?
    requires ScanCall(settings, server, s).value.1 == []
    ensures var t := ScanCall(settings, server, s).value.0;
            t.finished && t.buffer == [] && ScanCall(settings, server, t) == Some((t, []))
  {
    CallInv(settings, server, s);
  }

  // ----- a server that follows the protocol -----

  ghost predicate PagesAt<R>(reply: Response<R>, rows: seq<R>, at: nat -> string, p: nat, limit: int)
    requires p <= |rows| && limit > 0
  {
    var next := Min(p + limit, |rows|);
    && reply.Page?
    && reply.rows == rows[p..next]
    && (next < |rows| ==> reply.after == Some(at(next)))
    && (next == |rows| ==> reply.after in {None, Some(""), Some(at(next))})
  }

  /**
   The server pages through `rows` in order: a request at the cursor of position `p` gets as many rows
   as its limit and the end allow, and the cursor of the position after them. At the end the cursor
   may be missing, empty, or that of the end.
   */
  ghost predicate Pages<R(!new)>(server: Server<R>, rows: seq<R>, at: nat -> string) {
    && at(0) == ""
    && (forall p, q :: 0 <= p < q <= |rows| ==> at(p) != at(q))
    && (forall n, p, limit :: 0 <= p <= |rows| && limit > 0 ==> PagesAt(server(n, at(p), limit), rows, at, p, limit))
  }

  /** The rows such a scan is due to emit. */
  function Target<R>(settings: Settings, rows: seq<R>): nat {
    if settings.maxRows > 0 then Min(settings.maxRows, |rows|) else |rows|
  }

  /** All rows are due without a cap, and with one the rows up to it. */
  lemma WholeTarget<R>(settings: Settings, rows: seq<R>)
    requires ValidSettings(settings)
    ensures settings.maxRows == 0 ==> rows[..Target(settings, rows)] == rows
    ensures settings.maxRows > 0 ==> Target(settings, rows) == Min(settings.maxRows, |rows|)
  {
  }

  /** The buffer holds what was fetched and not emitted, and the cursor is that of the next row. */
  ghost predicate InStep<R>(settings: Settings, s: State<R>, rows: seq<R>, at: nat -> string) {
    && s.emitted <= Target(settings, rows)
    && if MaxRowsReached(settings, s.emitted) then true
       else
         var fetched := Min(s.budget, |rows|);
         && s.emitted <= fetched
         && s.buffer == rows[s.emitted..fetched]
         && (!s.finished ==> s.cursor == at(fetched))
         && (s.finished ==> fetched == Target(settings, rows))
  }

  lemma FetchedInStep<R(!new)>(settings: Settings, server: Server<R>, s: State<R>, rows: seq<R>, at: nat -> string)
    requires Inv(settings, s) && !s.finished && Pages(server, rows, at)
    requires InStep(settings, s, rows, at) && !MaxRowsReached(settings, s.emitted)
    ensures var reply := server(s.requests, s.cursor, PageLimit(settings, s.budget));
            reply.Page? && InStep(settings, Fetched(settings, s, reply.rows, reply.after), rows, at)
  {
    var p, limit := Min(s.budget, |rows|), PageLimit(settings, s.budget);
    var reply := server(s.requests, at(p), limit);
    assert PagesAt(reply, rows, at, p, limit);
    var next := Min(p + limit, |rows|);
    assert rows[s.emitted..p] + rows[p..next] == rows[s.emitted..next];
    var t := Fetched(settings, s, reply.rows, reply.after);
    assert Min(t.budget, |rows|) == next;
    if next < |rows| {
      assert at(next) != at(p) && at(next) != at(0);
    }
  }

  /** From `s` to `t` the scan emitted this chunk, the next rows; none only if all rows due were emitted. */
  ghost predicate Emits<R>(
      settings: Settings, s: State<R>, t: State<R>, chunk: seq<R>, rows: seq<R>, at: nat -> string)
  {
    && InStep(settings, t, rows, at)
    && t.emitted == s.emitted + |chunk| <= |rows|
    && chunk == rows[s.emitted..t.emitted]
    && (chunk == [] ==> t.emitted == Target(settings, rows))
    && (s.finished ==> t.finished)
  }

  lemma EmittedInStep<R>(settings: Settings, s: State<R>, rows: seq<R>, at: nat -> string)
    requires Inv(settings, s) && InStep(settings, s, rows, at) && (s.buffer != [] || s.finished)
    requires !MaxRowsReached(settings, s.emitted)
    ensures var count := ChunkSize(settings, s);
            Emits(settings, s, Emitted(settings, s, count), s.buffer[..count], rows, at)
  {
  }

  /** The state a chunk is taken from. */
  lemma RefilledInStep<R(!new)>(settings: Settings, server: Server<R>, s: State<R>, rows: seq<R>, at: nat -> string)
    requires Inv(settings, s) && InStep(settings, s, rows, at) && !MaxRowsReached(settings, s.emitted)
    requires s.finished || Pages(server, rows, at)
    ensures var r := Refilled(settings, server, s);
            && r.Some?
            && Inv(settings, r.value) && InStep(settings, r.value, rows, at)
            && r.value.emitted == s.emitted
            && (r.value.buffer != [] || r.value.finished)
            && (s.finished ==> r.value.finished)
  {
    if s.buffer == [] && !s.finished {
      FetchedInStep(settings, server, s, rows, at);
      var reply := server(s.requests, s.cursor, PageLimit(settings, s.budget));
      FetchedInv(settings, s, reply.rows, reply.after);
    }
  }

  /** A call at the cap emits nothing and changes nothing but the buffer. */
  lemma CappedCall<R>(settings: Settings, server: Server<R>, s: State<R>, rows: seq<R>, at: nat -> string)
    requires Inv(settings, s) && InStep(settings, s, rows, at) && MaxRowsReached(settings, s.emitted)
    ensures var t := s.(buffer := [], finished := true);
            ScanCall(settings, server, s) == Some((t, [])) && Emits(settings, s, t, [], rows, at)
  {
  }

  /** Below the cap a call emits from the refilled buffer. */
  lemma UncappedCall<R>(settings: Settings, server: Server<R>, s: State<R>, full: State<R>)
    requires Inv(settings, s) && !MaxRowsReached(settings, s.emitted) && Refilled(settings, server, s) == Some(full)
    ensures var count := ChunkSize(settings, full);
            ScanCall(settings, server, s) == Some((Emitted(settings, full, count), full.buffer[..count]))
  {
  }

  lemma EmitsFrom<R>(
      settings: Settings, s: State<R>, full: State<R>, t: State<R>, chunk: seq<R>, rows: seq<R>, at: nat -> string)
    requires Emits(settings, full, t, chunk, rows, at)
    requires full.emitted == s.emitted && (s.finished ==> full.finished)
    ensures Emits(settings, s, t, chunk, rows, at)
  {
  }

  lemma BelowCapInStep<R(!new)>(
      settings: Settings, server: Server<R>, s: State<R>, rows: seq<R>, at: nat -> string)
    requires Inv(settings, s) && InStep(settings, s, rows, at) && !MaxRowsReached(settings, s.emitted)
    requires s.finished || Pages(server, rows, at)
    ensures var r := ScanCall(settings, server, s);
            r.Some? && Emits(settings, s, r.value.0, r.value.1, rows, at)
  {
    RefilledInStep(settings, server, s, rows, at);
    var full := Refilled(settings, server, s).value;
    var count := ChunkSize(settings, full);
    UncappedCall(settings, server, s, full);
    EmittedInStep(settings, full, rows, at);
    EmitsFrom(settings, s, full, Emitted(settings, full, count), full.buffer[..count], rows, at);
  }

  lemma CallInStep<R(!new)>(settings: Settings, server: Server<R>, s: State<R>, rows: seq<R>, at: nat -> string)
    requires Inv(settings, s) && InStep(settings, s, rows, at)
    requires s.finished || Pages(server, rows, at)
    ensures var r := ScanCall(settings, server, s);
            r.Some? && Emits(settings, s, r.value.0, r.value.1, rows, at)
  {
    if MaxRowsReached(settings, s.emitted) {
      CappedCall(settings, server, s, rows, at);
    } else {
      BelowCapInStep(settings, server, s, rows, at);
    }
  }

  /** What has been read so far is a prefix of the rows, and the scan is in step with the server. */
  ghost predicate Reading<R(!new)>(
      settings: Settings, server: Server<R>, s: State<R>, rows: seq<R>, at: nat -> string, all: seq<R>)
  {
    && InStep(settings, s, rows, at)
    && (s.finished || Pages(server, rows, at))
    && s.emitted <= |rows| && all == rows[..s.emitted]
  }

  lemma ReadingNext<R(!new)>(
      settings: Settings, server: Server<R>, s: State<R>, t: State<R>, chunk: seq<R>, rows: seq<R>, at: nat -> string,
      all: seq<R>)
    requires Reading(settings, server, s, rows, at, all) && Emits(settings, s, t, chunk, rows, at)
    ensures Reading(settings, server, t, rows, at, all + chunk)
  {
    assert rows[..s.emitted] + rows[s.emitted..t.emitted] == rows[..t.emitted];
  }

  /** One call while reading; an empty chunk means that everything due was read. */
  lemma ReadStep<R(!new)>(
      settings: Settings, server: Server<R>, s: State<R>, rows: seq<R>, at: nat -> string, all: seq<R>)
    requires Inv(settings, s) && Reading(settings, server, s, rows, at, all)
    ensures var r := ScanCall(settings, server, s);
            && r.Some?
            && Inv(settings, r.value.0) && Reading(settings, server, r.value.0, rows, at, all + r.value.1)
            && r.value.0.emitted == s.emitted + |r.value.1|
            && (r.value.1 == [] ==> all == rows[..Target(settings, rows)])
  {
    CallInv(settings, server, s);
    CallInStep(settings, server, s, rows, at);
    var (t, chunk) := ScanCall(settings, server, s).value;
    ReadingNext(settings, server, s, t, chunk, rows, at, all);
  }

  /**
   DuckDB calls the scan until it gets an empty chunk. Against a paging server that ends, and the
   chunks together are exactly the first rows, up to the cap. The scan of an empty window asks nothing
   of the server.
   */
  method ReadAll<R(!new)>(scan: Scan<R>, empty: bool, server: Server<R>, ghost rows: seq<R>, ghost at: nat -> string)
    returns (all: seq<R>)
    requires ValidSettings(scan.settings) && scan.View() == Initial(empty)
    requires if empty then rows == [] else Pages(server, rows, at)
    modifies scan
    ensures all == rows[..Target(scan.settings, rows)]
  {
    all := [];
    InitialInv<R>(scan.settings, empty);
    var more := true;
    while more
      invariant Inv(scan.settings, scan.View())
      invariant Reading(scan.settings, server, scan.View(), rows, at, all)
      invariant !more ==> all == rows[..Target(scan.settings, rows)]
      decreases more, |rows| - scan.View().emitted
    {
      ReadStep(scan.settings, server, scan.View(), rows, at, all);
      var chunk := scan.DatadogLogsScan(server);
      assert all + [] == all;
      all := all + chunk.value;
      more := chunk.value != [];
    }
  }
}
