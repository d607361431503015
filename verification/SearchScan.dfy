/**
 A query over the logs or traces table from end to end: predicates pushed down, the window resolved,
 the pages of events scanned and mapped to rows, and DuckDB's residual filter on top.
 */
module SearchScan {
  import opened Prelude
  import opened EventRows
  import opened PagedScan
  import opened Pushdown
  import opened SearchQuery
  import opened SearchWindow

  /** The search endpoint: a paging server for every query and window. */
  type Endpoint = (string, string, string) -> Server<Event>

  ghost predicate PagesThrough(server: Server<Event>, events: seq<Event>) {
    exists at: nat -> string :: Pages(server, events, at)
  }

  /** For every query the endpoint pages through the selected events. */
  ghost predicate Serves(endpoint: Endpoint, src: Source) {
    forall query, from, to :: PagesThrough(endpoint(query, from, to), Search(src, query, from, to))
  }

  /** What is pushed: nothing for a capped scan, because the cap counts unfiltered rows. */
  function PushedFor(settings: Settings, w: Where, table: Table): Pushed {
    if settings.maxRows > 0 then NOTHING_PUSHED else PushedBy(w, table)
  }

  method PushdownComplexFilter(settings: Settings, w: Where, table: Table) returns (pushdown: DatadogFilterPushdown)
    ensures fresh(pushdown) && pushdown.View() == PushedFor(settings, w, table)
  {
    pushdown := new DatadogFilterPushdown();
    if settings.maxRows > 0 {
      return;
    }
    pushdown.CollectDatadogSearchPushdown(w.get, table.timeColumn, table.facets, w.filters);
  }

  method InitGlobal(settings: Settings, query: string, from: string, to: string, pushdown: DatadogFilterPushdown)
    returns (scan: Scan<Event>, resolved: Resolved)
    ensures fresh(scan) && scan.settings == settings
    ensures resolved == ResolvedSearch(query, from, to, pushdown.View())
    ensures scan.View() == Initial(resolved.empty)
  {
    resolved := ResolveDatadogSearch(query, from, to, pushdown);
    scan := new Scan(settings, resolved.empty);
  }

  /** The facets by which the two scans push. */
  lemma TableFacets(reading: Reading)
    ensures FacetOf(TableOf(Logs, reading).facets, "service_name") == Some("service")
    ensures FacetOf(TableOf(Logs, reading).facets, "severity_text") == Some("status")
    ensures FacetOf(TableOf(Spans, reading).facets, "service_name") == Some("service")
  {
    var facets := TableOf(Logs, reading).facets;
    assert facets[1..][0] == ("severity_text", "status");
    assert "service_name"[2] != "severity_text"[2];
  }

  /** Of one filter `column = 'v'` on a facet column, the request asks for that field of the events. */
  lemma FilterText(kind: Kind, reading: Reading, get: LogicalGet, outer: (ColumnRef, Row) -> Value, column: ColumnRef,
                   v: string, from: string, to: string)
    requires IsSafeFacetValue(v)
    ensures var w := Where(get, outer, [Comparison(Equal, Column(column), Constant(Varchar(v)))]);
            var query := ResolvedSearch("*", from, to, PushedBy(w, TableOf(kind, reading))).query;
            && (ResolvedColumn(get, column) == Some("service_name") ==> query == "service:" + v)
            && (ResolvedColumn(get, column) == Some("severity_text") && kind == Logs ==> query == "status:" + v)
  {
    TableFacets(reading);
    var table := TableOf(kind, reading);
    var e := Comparison(Equal, Column(column), Constant(Varchar(v)));
    var pushed := PushExpr(NOTHING_PUSHED, get, table.timeColumn, table.facets, e);
    assert [e][0] == e && [e][1..] == [];
    assert PushAll(pushed, get, table.timeColumn, table.facets, []) == pushed;
    assert PushedBy(Where(get, outer, [e]), table) == pushed;
    var name := ResolvedColumn(get, column);
    if name.Some? && FacetOf(table.facets, name.value).Some? {
      assert pushed.terms == [FacetOf(table.facets, name.value).value + ":" + v];
    }
    assert "service" + ":" + v == "service:" + v && "status" + ":" + v == "status:" + v;
  }

  // ----- from events to rows -----

  function RowsOf(table: Table, events: seq<Event>): seq<Row> {
    seq(|events|, i requires 0 <= i < |events| => table.row(events[i]))
  }

  method MapEvents(table: Table, events: seq<Event>) returns (rows: seq<Row>)
    ensures rows == RowsOf(table, events)
  {
    rows := [];
    for i := 0 to |events|
      invariant rows == RowsOf(table, events[..i])
    {
      rows := rows + [table.row(events[i])];
    }
    assert events[..|events|] == events;
  }

  /** Filtering the rows is filtering the events by their rows. */
  lemma {:induction false} FilterRows(table: Table, w: Where, events: seq<Event>)
    ensures Filter(row => Keeps(w.get, w.outer, w.filters, row), RowsOf(table, events)) ==
            RowsOf(table, Filter(event => KeepsEvent(w, table, event), events))
  {
    if events != [] {
      FilterRows(table, w, events[1..]);
      assert RowsOf(table, events)[1..] == RowsOf(table, events[1..]);
      var kept := Filter(event => KeepsEvent(w, table, event), events[1..]);
      assert RowsOf(table, [events[0]] + kept) == [table.row(events[0])] + RowsOf(table, kept);
    }
  }

  /** What the residual filter leaves of a scan of these events, which stops at the cap. */
  function Scanned(settings: Settings, w: Where, table: Table, events: seq<Event>): seq<Row>
    requires ValidSettings(settings)
  {
    Filter(row => Keeps(w.get, w.outer, w.filters, row), RowsOf(table, events[..Target(settings, events)]))
  }

  /** The events the pushed request has on a server. */
  function SentEvents(settings: Settings, src: Source, w: Where, table: Table, query: string, from: string, to: string)
    : seq<Event>
  {
    PushedEvents(src, ResolvedSearch(query, from, to, PushedFor(settings, w, table)))
  }

  // ----- pushing changes nothing -----

  lemma UncappedScan(settings: Settings, w: Where, table: Table, events: seq<Event>)
    requires ValidSettings(settings) && settings.maxRows == 0
    ensures Scanned(settings, w, table, events) == RowsOf(table, Filter(event => KeepsEvent(w, table, event), events))
  {
    assert events[..|events|] == events;
    FilterRows(table, w, events);
  }

  /** A capped scan sends the user's own request. */
  lemma CappedSendsPlain(settings: Settings, src: Source, w: Where, table: Table, query: string, from: string,
                         to: string)
    requires settings.maxRows > 0
    ensures SentEvents(settings, src, w, table, query, from, to) == Search(src, query, from, to)
  {
    assert ResolvedSearch(query, from, to, NOTHING_PUSHED) == Resolved(query, from, to, false);
  }

  /** If the query may be pushed, the result is the one without pushdown. */
  lemma PushedForRefines(settings: Settings, src: Source, w: Where, kind: Kind, reading: Reading, query: string,
                         from: string, to: string)
    requires ValidSettings(settings) && Honest(src, kind, reading)
    requires MayPush(query, PushedFor(settings, w, TableOf(kind, reading)).terms)
    ensures var table := TableOf(kind, reading);
            Scanned(settings, w, table, SentEvents(settings, src, w, table, query, from, to))
            == Scanned(settings, w, table, Search(src, query, from, to))
  {
    var table := TableOf(kind, reading);
    if settings.maxRows == 0 {
      FacetsArePlain(kind, reading);
      HonestIsFaithful(src, kind, reading);
      PushdownRefines(src, w, table, query, from, to);
      UncappedScan(settings, w, table, SentEvents(settings, src, w, table, query, from, to));
      UncappedScan(settings, w, table, Search(src, query, from, to));
    } else {
      CappedSendsPlain(settings, src, w, table, query, from, to);
    }
  }

  /** On every server, the result is that of fetching everything and filtering then. */
  ghost predicate Refines(settings: Settings, w: Where, kind: Kind, reading: Reading, query: string, from: string,
                          to: string)
    requires ValidSettings(settings)
  {
    var table := TableOf(kind, reading);
    forall src: Source :: Honest(src, kind, reading) ==>
      Scanned(settings, w, table, SentEvents(settings, src, w, table, query, from, to))
      == Scanned(settings, w, table, Search(src, query, from, to))
  }

  lemma OneEventIsHonest(kind: Kind, reading: Reading, event: Event, query: string, accepts: bool)
    ensures Honest(OneEventSource(TableOf(kind, reading), event, query, accepts), kind, reading)
  {
    RowTimeIsEventTime(kind, reading, event);
  }

  /** An uncapped scan that pushes a term next to a malformed query is wrong on some server. */
  lemma UnsafeScan(settings: Settings, w: Where, kind: Kind, reading: Reading, query: string, from: string, to: string)
    requires ValidSettings(settings) && settings.maxRows == 0
    requires !MayPush(query, PushedBy(w, TableOf(kind, reading)).terms)
    requires Matters(w, TableOf(kind, reading), from, to)
    ensures !Refines(settings, w, kind, reading, query, from, to)
  {
    var table := TableOf(kind, reading);
    FacetsArePlain(kind, reading);
    var event :| KeepsEvent(w, table, event) && MayHold(from, to, table, event);
    var accepts := UnsafePush(w, table, query, from, to, event);
    var src := OneEventSource(table, event, query, accepts);
    OneEventIsHonest(kind, reading, event, query, accepts);
    UncappedScan(settings, w, table, SentEvents(settings, src, w, table, query, from, to));
    UncappedScan(settings, w, table, Search(src, query, from, to));
  }

  /** Filters that no row can satisfy within the window leave nothing either way. */
  lemma IdleScan(settings: Settings, src: Source, w: Where, kind: Kind, reading: Reading, query: string, from: string,
                 to: string)
    requires ValidSettings(settings) && settings.maxRows == 0 && Honest(src, kind, reading)
    requires !Matters(w, TableOf(kind, reading), from, to)
    ensures var table := TableOf(kind, reading);
            Scanned(settings, w, table, SentEvents(settings, src, w, table, query, from, to))
            == Scanned(settings, w, table, Search(src, query, from, to))
  {
    var table := TableOf(kind, reading);
    FacetsArePlain(kind, reading);
    HonestIsFaithful(src, kind, reading);
    NothingMatters(src, w, table, query, from, to);
    UncappedScan(settings, w, table, SentEvents(settings, src, w, table, query, from, to));
    UncappedScan(settings, w, table, Search(src, query, from, to));
  }

  /**
   The result is the right one on every server exactly when the user's query is well-formed or no term is
   pushed (so always for a capped scan), or when no row can satisfy the filters within the window.
   */
  lemma RefinesIff(settings: Settings, w: Where, kind: Kind, reading: Reading, query: string, from: string, to: string)
    requires ValidSettings(settings)
    ensures Refines(settings, w, kind, reading, query, from, to) <==>
            MayPush(query, PushedFor(settings, w, TableOf(kind, reading)).terms)
            || !Matters(w, TableOf(kind, reading), from, to)
  {
    if MayPush(query, PushedFor(settings, w, TableOf(kind, reading)).terms) {
      forall src: Source | Honest(src, kind, reading) {
        PushedForRefines(settings, src, w, kind, reading, query, from, to);
      }
    } else if Matters(w, TableOf(kind, reading), from, to) {
      UnsafeScan(settings, w, kind, reading, query, from, to);
    } else {
      forall src: Source | Honest(src, kind, reading) {
        IdleScan(settings, src, w, kind, reading, query, from, to);
      }
    }
  }

  /**
   The whole pipeline returns what DuckDB's filter leaves of the pushed request's events, up to the cap. That
   is what fetching everything and then filtering would return, unless a term is pushed next to a malformed
   query.
   */
  method SelectRows(settings: Settings, w: Where, kind: Kind, reading: Reading, query: string, from: string,
                    to: string, endpoint: Endpoint, ghost src: Source)
    returns (result: seq<Row>)
    requires ValidSettings(settings) && Honest(src, kind, reading) && Serves(endpoint, src)
    ensures var table := TableOf(kind, reading);
            && result == Scanned(settings, w, table, SentEvents(settings, src, w, table, query, from, to))
            && (MayPush(query, PushedFor(settings, w, table).terms) ==>
                  result == Scanned(settings, w, table, Search(src, query, from, to)))
  {
    var table := TableOf(kind, reading);
    var pushdown := PushdownComplexFilter(settings, w, table);
    var scan, resolved := InitGlobal(settings, query, from, to, pushdown);
    ghost var selected := PushedEvents(src, resolved);
    var server := endpoint(resolved.query, resolved.from, resolved.to);
    ghost var at: nat -> string := n => "";
    if !resolved.empty {
      assert PagesThrough(server, selected);
      at :| Pages(server, selected, at);
    }
    var events := ReadAll(scan, resolved.empty, server, selected, at);
    var rows := MapEvents(table, events);
    result := Filter(row => Keeps(w.get, w.outer, w.filters, row), rows);
    if MayPush(query, PushedFor(settings, w, table).terms) {
      PushedForRefines(settings, src, w, kind, reading, query, from, to);
    }
  }
}
