/**
 Resolving the pushed search against the user's query and window, and the proof that pushing
 predicates to the server changes nothing once the WHERE clause is applied again.
 */
module SearchWindow {
  import opened Prelude
  import opened Text
  import opened SearchQuery
  import opened Pushdown
  import Json

  datatype Resolved = Resolved(query: string, from: string, to: string, empty: bool)

  /** An absolute endpoint: a decimal number of milliseconds that fits 64 bits. */
  function EpochMillis(text: string): Option<int> {
    if IsIntegerText(text) && FitsInt64(IntegerTextValue(text)) then Some(IntegerTextValue(text)) else None
  }

  method TryParseEpochMilliseconds(value: string) returns (r: Option<int>)
    ensures r == EpochMillis(value)
  {
    if value == "" {
      return None;
    }
    var offset := if value[0] == '-' then 1 else 0;
    if offset == |value| {
      return None;
    }
    for i := offset to |value|
      invariant forall k :: offset <= k < i ==> IsDigit(value[k])
    {
      if !IsDigit(value[i]) {
        assert !IsIntegerText(value) by {
          assert value[offset..][i - offset] == value[i];
          assert value[0..] == value;
        }
        return None;
      }
    }
    assert IsIntegerText(value) by {
      assert value[0..] == value;
    }
    StollOfIntegerText(value);
    var parsed := Stoll(value);
    r := if parsed.Some? then Some(parsed.value.value) else None;
  }

  /** The request: the composed query, and the intersected window when both endpoints are absolute. */
  function ResolvedSearch(query: string, from: string, to: string, p: Pushed): Resolved {
    var text := SearchText(query, p.terms);
    if p.lowerMs.None? && p.upperMs.None? then Resolved(text, from, to, false)
    else if EpochMillis(from).None? || EpochMillis(to).None? then Resolved(text, from, to, false)
    else
      var lower := if p.lowerMs.Some? then Max(EpochMillis(from).value, p.lowerMs.value) else EpochMillis(from).value;
      var upper := if p.upperMs.Some? then Min(EpochMillis(to).value, p.upperMs.value) else EpochMillis(to).value;
      Resolved(text, IntText(lower), IntText(upper), lower > upper)
  }

  method ResolveDatadogSearch(query: string, from: string, to: string, pushdown: DatadogFilterPushdown)
    returns (r: Resolved)
    ensures r == ResolvedSearch(query, from, to, pushdown.View())
  {
    var text := BuildDatadogSearchQuery(query, pushdown.queryTerms);
    r := Resolved(text, from, to, false);
    if !pushdown.hasLowerBoundMs && !pushdown.hasUpperBoundMs {
      return;
    }
    var fromMs := TryParseEpochMilliseconds(from);
    if fromMs.None? {
      return;
    }
    var toMs := TryParseEpochMilliseconds(to);
    if toMs.None? {
      return;
    }
    var lowerBoundMs, upperBoundMs := fromMs.value, toMs.value;
    if pushdown.hasLowerBoundMs {
      lowerBoundMs := Max(lowerBoundMs, pushdown.lowerBoundMs);
    }
    if pushdown.hasUpperBoundMs {
      upperBoundMs := Min(upperBoundMs, pushdown.upperBoundMs);
    }
    r := Resolved(text, IntText(lowerBoundMs), IntText(upperBoundMs), lowerBoundMs > upperBoundMs);
  }

  // ----- the server -----

  /** An event, as the search API reports it. */
  type Event = Json.Json

  /**
   The events behind the search endpoint, and how it judges a term and a window. What it makes of a
   text that is no query is arbitrary.
   */
  datatype Source = Source(
    relation: seq<Event>,
    judge: (string, Event) -> bool,
    malformed: (string, Event) -> bool,
    inWindow: (string, string, Event) -> bool)

  predicate Matches(src: Source, query: string, event: Event) {
    match ParseQuery(query)
    case Some(q) => Selects(q, t => src.judge(t, event))
    case None => src.malformed(query, event)
  }

  predicate Selected(src: Source, query: string, from: string, to: string, event: Event) {
    Matches(src, query, event) && src.inWindow(from, to, event)
  }

  /** The events of a search, in the server's order. */
  function Search(src: Source, query: string, from: string, to: string): seq<Event> {
    Filter(event => Selected(src, query, from, to, event), src.relation)
  }

  /** The time, in nanoseconds, lies in the inclusive window of two endpoints in milliseconds. */
  predicate InMillis(lowerMs: int, upperMs: int, nanos: int) {
    lowerMs * 1_000_000 <= nanos <= upperMs * 1_000_000
  }

  /** The row of an event, the column that carries its time, and the columns that have a Datadog facet. */
  datatype Table = Table(row: Event -> Row, timeColumn: string, facets: seq<(string, string)>)

  function RowTime(table: Table, event: Event): Value {
    ColumnValue(table.row(event), table.timeColumn)
  }

  /**
   What the server has to do for the rows of a table: a facet term selects at least the events whose row has
   that value, and a window of absolute endpoints is inclusive. Anything else is arbitrary.
   */
  ghost predicate Faithful(src: Source, table: Table) {
    && (forall event :: event in src.relation ==>
          JudgesFacets(table.facets, t => src.judge(t, event), table.row(event)))
    && (forall event, from, to :: event in src.relation && EpochMillis(from).Some? && EpochMillis(to).Some?
                                  && RowTime(table, event).TimestampNs? ==>
          (src.inWindow(from, to, event) <==>
           InMillis(EpochMillis(from).value, EpochMillis(to).value, RowTime(table, event).nanos)))
  }

  // ----- refinement -----

  lemma FilterStep<T>(keep: T -> bool, p: T -> bool, s: seq<T>)
    requires s != []
    ensures Filter(keep, Filter(p, s)) ==
            (if keep(s[0]) && p(s[0]) then [s[0]] else []) + Filter(keep, Filter(p, s[1..]))
  {
    if p(s[0]) {
      var rest := Filter(p, s[1..]);
      assert ([s[0]] + rest)[1..] == rest;
    }
  }

  /** Two selections that agree on what the residual filter keeps. */
  lemma {:induction false} FilterAgrees<T>(keep: T -> bool, p: T -> bool, q: T -> bool, s: seq<T>)
    requires forall x :: x in s && keep(x) ==> (p(x) <==> q(x))
    ensures Filter(keep, Filter(p, s)) == Filter(keep, Filter(q, s))
  {
    if s != [] {
      FilterAgrees(keep, p, q, s[1..]);
      FilterStep(keep, p, s);
      FilterStep(keep, q, s);
    }
  }

  lemma {:induction false} FilterNone<T>(p: T -> bool, s: seq<T>)
    requires forall x :: x in s ==> !p(x)
    ensures Filter(p, s) == []
  {
    if s != [] {
      FilterNone(p, s[1..]);
    }
  }

  /** The user's query must be well-formed as soon as a term is conjoined to it. */
  predicate MayPush(query: string, terms: seq<string>) {
    ParseQuery(query).Some? || terms == []
  }

  lemma TextAgrees(src: Source, query: string, terms: seq<string>, event: Event)
    requires ArePlainTerms(terms) && MayPush(query, terms) && forall t :: t in terms ==> src.judge(t, event)
    ensures Matches(src, query, event) <==> Matches(src, SearchText(query, terms), event)
  {
    if terms != [] {
      ComposedQueryMeaning(query, terms, t => src.judge(t, event));
    }
  }

  /** Conjoining terms that an event satisfies leaves the server's judgement of the event alone. */
  ghost predicate ComposesSafely(query: string, terms: seq<string>) {
    forall src: Source, event: Event :: (forall t :: t in terms ==> src.judge(t, event)) ==>
      (Matches(src, query, event) <==> Matches(src, SearchText(query, terms), event))
  }

  /** A server that treats the malformed query unlike the composed one. */
  lemma Disagrees(query: string, terms: seq<string>)
    requires ParseQuery(query) == None && terms != [] && query != "*"
    ensures !ComposesSafely(query, terms)
  {
    var composed, event := SearchText(query, terms), Json.Null;
    assert |composed| > |query|;
    var judge := (t: string, e: Event) => true;
    var accepts := match ParseQuery(composed) { case Some(q) => Selects(q, t => judge(t, event)) case None => false };
    var malformed := (text: string, e: Event) => text == query && !accepts;
    var src := Source([], judge, malformed, (from: string, to: string, e: Event) => true);
    assert Matches(src, query, event) <==> !accepts;
    assert Matches(src, composed, event) <==> accepts;
  }

  /** Query composition is safe for every server exactly when the user's query may be composed. */
  lemma ComposesSafelyIff(query: string, terms: seq<string>)
    requires ArePlainTerms(terms)
    ensures ComposesSafely(query, terms) <==> MayPush(query, terms)
  {
    if MayPush(query, terms) {
      forall src: Source, event: Event | forall t :: t in terms ==> src.judge(t, event)
        ensures Matches(src, query, event) <==> Matches(src, SearchText(query, terms), event)
      {
        TextAgrees(src, query, terms, event);
      }
    } else {
      StarParses();
      Disagrees(query, terms);
    }
  }

  lemma WindowAgrees(src: Source, table: Table, query: string, from: string, to: string, p: Pushed, event: Event)
    requires WellFormed(p)
    requires Faithful(src, table) && event in src.relation
    requires Admits(p, table.timeColumn, t => src.judge(t, event), table.row(event))
    ensures var r := ResolvedSearch(query, from, to, p);
            src.inWindow(from, to, event) <==> !r.empty && src.inWindow(r.from, r.to, event)
  {
    var r := ResolvedSearch(query, from, to, p);
    if (p.lowerMs.Some? || p.upperMs.Some?) && EpochMillis(from).Some? && EpochMillis(to).Some? {
      var lower := if p.lowerMs.Some? then Max(EpochMillis(from).value, p.lowerMs.value) else EpochMillis(from).value;
      var upper := if p.upperMs.Some? then Min(EpochMillis(to).value, p.upperMs.value) else EpochMillis(to).value;
      IntTextDenotes(lower);
      IntTextDenotes(upper);
      assert EpochMillis(r.from) == Some(lower) && EpochMillis(r.to) == Some(upper);
      var nanos := RowTime(table, event).nanos;
      assert InMillis(EpochMillis(from).value, EpochMillis(to).value, nanos) <==> InMillis(lower, upper, nanos);
    }
  }

  /** An event whose row the residual filter keeps is selected by the pushed request exactly as by the plain one. */
  lemma KeptEventAgrees(src: Source, table: Table, query: string, from: string, to: string, p: Pushed, event: Event)
    requires MayPush(query, p.terms) && WellFormed(p)
    requires Faithful(src, table) && event in src.relation
    requires Admits(p, table.timeColumn, t => src.judge(t, event), table.row(event))
    ensures var r := ResolvedSearch(query, from, to, p);
            Selected(src, query, from, to, event) <==> !r.empty && Selected(src, r.query, r.from, r.to, event)
  {
    TextAgrees(src, query, p.terms, event);
    WindowAgrees(src, table, query, from, to, p, event);
  }

  /** The events a scan of the pushed request can see; an empty window is not requested at all. */
  function PushedEvents(src: Source, r: Resolved): seq<Event> {
    if r.empty then [] else Search(src, r.query, r.from, r.to)
  }

  lemma SelectionsAgree(src: Source, keep: Event -> bool, query: string, from: string, to: string, r: Resolved)
    requires forall event :: event in src.relation && keep(event) ==>
               (Selected(src, query, from, to, event) <==> !r.empty && Selected(src, r.query, r.from, r.to, event))
    ensures Filter(keep, PushedEvents(src, r)) == Filter(keep, Search(src, query, from, to))
  {
    var plain := event => Selected(src, query, from, to, event);
    var pushed := event => Selected(src, r.query, r.from, r.to, event);
    if r.empty {
      FilterAgrees(keep, plain, event => false, src.relation);
      FilterNone((event: Event) => false, src.relation);
    } else {
      FilterAgrees(keep, plain, pushed, src.relation);
    }
  }

  /** A WHERE clause above the scan of a table; `outer` gives the values of columns of other tables. */
  datatype Where = Where(get: LogicalGet, outer: (ColumnRef, Row) -> Value, filters: seq<Expr>)

  function PushedBy(w: Where, table: Table): Pushed {
    PushAll(NOTHING_PUSHED, w.get, table.timeColumn, table.facets, w.filters)
  }

  /** DuckDB keeps the row of the event. */
  predicate KeepsEvent(w: Where, table: Table, event: Event) {
    Keeps(w.get, w.outer, w.filters, table.row(event))
  }

  /** On this server, the filter leaves of the pushed request what it leaves of the plain one. */
  predicate Invisible(src: Source, w: Where, table: Table, query: string, from: string, to: string) {
    var r := ResolvedSearch(query, from, to, PushedBy(w, table));
    Filter(event => KeepsEvent(w, table, event), PushedEvents(src, r))
    == Filter(event => KeepsEvent(w, table, event), Search(src, query, from, to))
  }

  /** If the query may be pushed, pushing is invisible behind the residual filter. */
  lemma PushdownRefines(src: Source, w: Where, table: Table, query: string, from: string, to: string)
    requires ArePlainFacets(table.facets) && Faithful(src, table) && MayPush(query, PushedBy(w, table).terms)
    ensures Invisible(src, w, table, query, from, to)
  {
    var p := PushedBy(w, table);
    PushAllWellFormed(NOTHING_PUSHED, w.get, table.timeColumn, table.facets, w.filters);
    var r := ResolvedSearch(query, from, to, p);
    var keep := event => KeepsEvent(w, table, event);
    forall event | event in src.relation && keep(event)
      ensures Selected(src, query, from, to, event) <==> !r.empty && Selected(src, r.query, r.from, r.to, event)
    {
      PushAllSound(NOTHING_PUSHED, w.get, w.outer, table.timeColumn, table.facets, t => src.judge(t, event),
                   table.row(event), w.filters);
      KeptEventAgrees(src, table, query, from, to, p, event);
    }
    SelectionsAgree(src, keep, query, from, to, r);
  }

  // ----- exactly when -----

  /** A window of absolute endpoints says which times it holds; any other window may hold anything. */
  predicate MayHold(from: string, to: string, table: Table, event: Event) {
    EpochMillis(from).Some? && EpochMillis(to).Some? && RowTime(table, event).TimestampNs? ==>
      InMillis(EpochMillis(from).value, EpochMillis(to).value, RowTime(table, event).nanos)
  }

  /** The row of some event satisfies the filters and may lie in the window, so that the request matters. */
  ghost predicate Matters(w: Where, table: Table, from: string, to: string) {
    exists event: Event :: KeepsEvent(w, table, event) && MayHold(from, to, table, event)
  }

  /** For every server, pushing these filters is invisible behind the residual filter. */
  ghost predicate PushesSafely(w: Where, table: Table, query: string, from: string, to: string) {
    forall src: Source :: Faithful(src, table) ==> Invisible(src, w, table, query, from, to)
  }

  /** Filters that keep no row the window may hold leave nothing on either side. */
  lemma NothingMatters(src: Source, w: Where, table: Table, query: string, from: string, to: string)
    requires ArePlainFacets(table.facets) && Faithful(src, table)
    requires !Matters(w, table, from, to)
    ensures Invisible(src, w, table, query, from, to)
  {
    var p := PushedBy(w, table);
    PushAllWellFormed(NOTHING_PUSHED, w.get, table.timeColumn, table.facets, w.filters);
    var r := ResolvedSearch(query, from, to, p);
    var keep := event => KeepsEvent(w, table, event);
    forall event | event in src.relation && keep(event)
      ensures Selected(src, query, from, to, event) <==> !r.empty && Selected(src, r.query, r.from, r.to, event)
    {
      PushAllSound(NOTHING_PUSHED, w.get, w.outer, table.timeColumn, table.facets, t => src.judge(t, event),
                   table.row(event), w.filters);
      WindowAgrees(src, table, query, from, to, p, event);
      assert !MayHold(from, to, table, event);
    }
    SelectionsAgree(src, keep, query, from, to, r);
  }

  /** A server with one event that judges every term true, and treats just this malformed text specially. */
  function OneEventSource(table: Table, event: Event, query: string, accepts: bool): Source {
    Source(
      [event],
      (t: string, e: Event) => true,
      (text: string, e: Event) => text == query && accepts,
      (from: string, to: string, e: Event) => MayHold(from, to, table, e))
  }

  lemma OneEventIsFaithful(table: Table, event: Event, query: string, accepts: bool)
    ensures Faithful(OneEventSource(table, event, query, accepts), table)
  {
  }

  lemma FilterOne<T>(keep: T -> bool, p: T -> bool, x: T)
    requires keep(x)
    ensures Filter(keep, Filter(p, [x])) == if p(x) then [x] else []
  {
    assert [x][1..] == [];
  }

  /** Whatever the server makes of the composed text, some server makes something else of the malformed one. */
  lemma UnsafePush(w: Where, table: Table, query: string, from: string, to: string, event: Event)
    returns (accepts: bool)
    requires ArePlainFacets(table.facets) && !MayPush(query, PushedBy(w, table).terms)
    requires KeepsEvent(w, table, event) && MayHold(from, to, table, event)
    ensures var src := OneEventSource(table, event, query, accepts);
            var r := ResolvedSearch(query, from, to, PushedBy(w, table));
            |Filter(e => KeepsEvent(w, table, e), PushedEvents(src, r))| !=
            |Filter(e => KeepsEvent(w, table, e), Search(src, query, from, to))|
  {
    var p := PushedBy(w, table);
    PushAllWellFormed(NOTHING_PUSHED, w.get, table.timeColumn, table.facets, w.filters);
    var r := ResolvedSearch(query, from, to, p);
    StarParses();
    var composed := SearchText(query, p.terms);
    assert |composed| > |query| && r.query == composed;
    var plain := OneEventSource(table, event, query, true);
    accepts := !Matches(plain, composed, event);
    var src := OneEventSource(table, event, query, accepts);
    OneEventIsFaithful(table, event, query, accepts);
    assert Matches(src, composed, event) == Matches(plain, composed, event);
    PushAllSound(NOTHING_PUSHED, w.get, w.outer, table.timeColumn, table.facets, t => src.judge(t, event),
                 table.row(event), w.filters);
    WindowAgrees(src, table, query, from, to, p, event);
    var keep := e => KeepsEvent(w, table, e);
    assert Selected(src, query, from, to, event) == accepts;
    FilterOne(keep, e => Selected(src, query, from, to, e), event);
    FilterOne(keep, e => Selected(src, r.query, r.from, r.to, e), event);
  }

  /**
   Pushing is invisible for every server exactly when the user's query is well-formed or no term is pushed,
   or when no row can satisfy the filters within the window anyway.
   */
  lemma PushesSafelyIff(w: Where, table: Table, query: string, from: string, to: string)
    requires ArePlainFacets(table.facets)
    ensures PushesSafely(w, table, query, from, to) <==>
            MayPush(query, PushedBy(w, table).terms) || !Matters(w, table, from, to)
  {
    if MayPush(query, PushedBy(w, table).terms) {
      forall src: Source | Faithful(src, table) {
        PushdownRefines(src, w, table, query, from, to);
      }
    } else if Matters(w, table, from, to) {
      var event :| KeepsEvent(w, table, event) && MayHold(from, to, table, event);
      var accepts := UnsafePush(w, table, query, from, to, event);
      OneEventIsFaithful(table, event, query, accepts);
    } else {
      forall src: Source | Faithful(src, table) {
        NothingMatters(src, w, table, query, from, to);
      }
    }
  }
}
