/**
 Weakening SQL predicates into Datadog search terms and an outward-rounded time window, with SQL's
 three-valued logic as the meaning of the predicates.
 */
module Pushdown {
  import opened Prelude
  import opened Text
  import opened SearchQuery

  // ----- rows, predicates and their meaning -----

  datatype Value = NullValue | Varchar(text: string) | TimestampNs(nanos: int64) | OtherValue(kind: nat, rank: int)

  /** A row of the scan; a column that is not there reads as NULL. */
  type Row = map<string, Value>

  function ColumnValue(row: Row, name: string): Value {
    if name in row then row[name] else NullValue
  }

  datatype Tri = True | False | Unknown

  datatype Comparator =
    | Equal | NotEqual | Less | LessOrEqual | Greater | GreaterOrEqual | DistinctFrom | NotDistinctFrom

  datatype ColumnRef = ColumnRef(depth: nat, tableIndex: nat, columnIndex: nat)

  /** An operand that is neither a column nor a constant is some function of the row. */
  datatype Operand = Column(column: ColumnRef) | Constant(value: Value) | Computed(compute: Row -> Value)

  /** A predicate that is neither a comparison nor a conjunction nor a disjunction is some function of the row. */
  datatype Expr =
    | Comparison(op: Comparator, left: Operand, right: Operand)
    | Conjunction(children: seq<Expr>)
    | Disjunction(children: seq<Expr>)
    | OtherExpr(truth: Row -> Tri)

  /** The scan a predicate sits above: its table index, the projected columns and the column names. */
  datatype LogicalGet = LogicalGet(tableIndex: nat, columnIds: seq<nat>, names: seq<string>)

  /** The name of the scan's column a reference means, if it is one. */
  function ResolvedColumn(get: LogicalGet, column: ColumnRef): Option<string> {
    if column.depth != 0 || column.tableIndex != get.tableIndex || column.columnIndex >= |get.columnIds| then None
    else if get.columnIds[column.columnIndex] >= |get.names| then None
    else Some(get.names[get.columnIds[column.columnIndex]])
  }

  predicate TextLess(a: string, b: string) {
    if b == "" then false
    else if a == "" then true
    else a[0] < b[0] || (a[0] == b[0] && TextLess(a[1..], b[1..]))
  }

  function Truth(b: bool): Tri {
    if b then True else False
  }

  predicate SameValue(a: Value, b: Value) {
    a == b
  }

  predicate ValueLess(a: Value, b: Value) {
    match (a, b)
    case (Varchar(x), Varchar(y)) => TextLess(x, y)
    case (TimestampNs(x), TimestampNs(y)) => x < y
    case (OtherValue(_, x), OtherValue(_, y)) => x < y
    case _ => false
  }

  /** SQL comparison: NULL makes it unknown, except for the two null-safe comparators. */
  function Compare(op: Comparator, a: Value, b: Value): Tri {
    if op == DistinctFrom then Truth(!SameValue(a, b))
    else if op == NotDistinctFrom then Truth(SameValue(a, b))
    else if a.NullValue? || b.NullValue? then Unknown
    else
      match op
      case Equal => Truth(SameValue(a, b))
      case NotEqual => Truth(!SameValue(a, b))
      case Less => Truth(ValueLess(a, b))
      case LessOrEqual => Truth(ValueLess(a, b) || SameValue(a, b))
      case Greater => Truth(ValueLess(b, a))
      case _ => Truth(ValueLess(b, a) || SameValue(a, b))
  }

  /** `outer` gives the value of a reference that is not a column of the scan. */
  function Operate(get: LogicalGet, outer: (ColumnRef, Row) -> Value, operand: Operand, row: Row): Value {
    match operand
    case Column(column) =>
      var name := ResolvedColumn(get, column);
      if name.Some? then ColumnValue(row, name.value) else outer(column, row)
    case Constant(value) => value
    case Computed(compute) => compute(row)
  }

  function Eval(get: LogicalGet, outer: (ColumnRef, Row) -> Value, e: Expr, row: Row): Tri
    decreases e
  {
    match e
    case Comparison(op, left, right) =>
      Compare(op, Operate(get, outer, left, row), Operate(get, outer, right, row))
    case Conjunction(children) => EvalAll(get, outer, children, row)
    case Disjunction(children) => EvalAny(get, outer, children, row)
    case OtherExpr(truth) => truth(row)
  }

  function EvalAll(get: LogicalGet, outer: (ColumnRef, Row) -> Value, es: seq<Expr>, row: Row): Tri
    decreases es
  {
    if es == [] then True
    else
      match (Eval(get, outer, es[0], row), EvalAll(get, outer, es[1..], row))
      case (False, _) => False
      case (_, False) => False
      case (True, True) => True
      case _ => Unknown
  }

  function EvalAny(get: LogicalGet, outer: (ColumnRef, Row) -> Value, es: seq<Expr>, row: Row): Tri
    decreases es
  {
    if es == [] then False
    else
      match (Eval(get, outer, es[0], row), EvalAny(get, outer, es[1..], row))
      case (True, _) => True
      case (_, True) => True
      case (False, False) => False
      case _ => Unknown
  }

  /** A WHERE clause keeps the rows for which every filter is true. */
  predicate Keeps(get: LogicalGet, outer: (ColumnRef, Row) -> Value, filters: seq<Expr>, row: Row) {
    EvalAll(get, outer, filters, row) == True
  }

  // ----- milliseconds around an instant -----

  function FloorMillis(nanos: int): int {
    var millis := TruncDiv(nanos, NANOS_PER_MILLISECOND);
    if TruncMod(nanos, NANOS_PER_MILLISECOND) < 0 then millis - 1 else millis
  }

  function CeilMillis(nanos: int): int {
    var millis := TruncDiv(nanos, NANOS_PER_MILLISECOND);
    if TruncMod(nanos, NANOS_PER_MILLISECOND) > 0 then millis + 1 else millis
  }

  /** The tightest whole milliseconds around an instant, before 1970 too. */
  lemma RoundsOutward(nanos: int)
    ensures FloorMillis(nanos) * NANOS_PER_MILLISECOND <= nanos < (FloorMillis(nanos) + 1) * NANOS_PER_MILLISECOND
    ensures (CeilMillis(nanos) - 1) * NANOS_PER_MILLISECOND < nanos <= CeilMillis(nanos) * NANOS_PER_MILLISECOND
    ensures FitsInt64(nanos) ==> FitsInt64(FloorMillis(nanos)) && FitsInt64(CeilMillis(nanos))
  {
  }

  // ----- the pushed search -----

  /** The value of a `DatadogFilterPushdown`. */
  datatype Pushed = Pushed(terms: seq<string>, lowerMs: Option<int>, upperMs: Option<int>)

  const NOTHING_PUSHED := Pushed([], None, None)

  /** Letters, digits, `_`, `.`, and `-` except in front. */
  predicate IsSafeFacetChar(c: char, first: bool) {
    'a' <= c <= 'z' || 'A' <= c <= 'Z' || '0' <= c <= '9' || c == '_' || c == '.' || (c == '-' && !first)
  }

  predicate IsSafeFacetValue(value: string) {
    value != "" && forall i :: 0 <= i < |value| ==> IsSafeFacetChar(value[i], i == 0)
  }

  function ReverseComparison(op: Comparator): Comparator {
    match op
    case Less => Greater
    case LessOrEqual => GreaterOrEqual
    case Greater => Less
    case GreaterOrEqual => LessOrEqual
    case _ => op
  }

  /** The column and constant of a comparison between the two, turned so that the column is on the left. */
  function Oriented(op: Comparator, left: Operand, right: Operand): Option<(ColumnRef, Comparator, Value)> {
    if left.Column? && right.Constant? then Some((left.column, op, right.value))
    else if right.Column? && left.Constant? then Some((right.column, ReverseComparison(op), left.value))
    else None
  }

  /** The facet of the first entry for a column. */
  function FacetOf(facets: seq<(string, string)>, name: string): Option<string> {
    if facets == [] then None
    else if facets[0].0 == name then Some(facets[0].1)
    else FacetOf(facets[1..], name)
  }

  function PushTerm(p: Pushed, term: string): Pushed {
    if term in p.terms then p else p.(terms := p.terms + [term])
  }

  function PushBound(p: Pushed, op: Comparator, nanos: int): Pushed {
    if op == Greater || op == GreaterOrEqual then
      if p.lowerMs.None? || FloorMillis(nanos) > p.lowerMs.value then p.(lowerMs := Some(FloorMillis(nanos))) else p
    else if op == Less || op == LessOrEqual then
      if p.upperMs.None? || CeilMillis(nanos) < p.upperMs.value then p.(upperMs := Some(CeilMillis(nanos))) else p
    else p
  }

  /** What a comparison of a named column with a non-null constant contributes. */
  function PushColumn(p: Pushed, timeColumn: string, facets: seq<(string, string)>,
                      name: string, op: Comparator, value: Value): Pushed {
    var facet := FacetOf(facets, name);
    if facet.Some? then
      if op == Equal && value.Varchar? && IsSafeFacetValue(value.text)
      then PushTerm(p, facet.value + ":" + value.text) else p
    else if name == timeColumn && value.TimestampNs? then PushBound(p, op, value.nanos)
    else p
  }

  function PushComparison(p: Pushed, get: LogicalGet, timeColumn: string, facets: seq<(string, string)>,
                          op: Comparator, left: Operand, right: Operand): Pushed {
    match Oriented(op, left, right)
    case None => p
    case Some((column, turned, value)) =>
      var name := ResolvedColumn(get, column);
      if name.None? || value.NullValue? then p
      else PushColumn(p, timeColumn, facets, name.value, turned, value)
  }

  /** Only comparisons and conjunctions contribute; everything else is left to the residual filter. */
  function PushExpr(p: Pushed, get: LogicalGet, timeColumn: string, facets: seq<(string, string)>, e: Expr): Pushed
    decreases e
  {
    match e
    case Comparison(op, left, right) => PushComparison(p, get, timeColumn, facets, op, left, right)
    case Conjunction(children) => PushAll(p, get, timeColumn, facets, children)
    case _ => p
  }

  function PushAll(p: Pushed, get: LogicalGet, timeColumn: string, facets: seq<(string, string)>, es: seq<Expr>): Pushed
    decreases es
  {
    if es == [] then p
    else PushAll(PushExpr(p, get, timeColumn, facets, es[0]), get, timeColumn, facets, es[1..])
  }

  // ----- the collector -----

  class DatadogFilterPushdown {
    var queryTerms: seq<string>
    var hasLowerBoundMs: bool
    var lowerBoundMs: int
    var hasUpperBoundMs: bool
    var upperBoundMs: int

    constructor ()
      ensures View() == NOTHING_PUSHED
    {
      queryTerms, hasLowerBoundMs, lowerBoundMs, hasUpperBoundMs, upperBoundMs := [], false, 0, false, 0;
    }

    function View(): Pushed
      reads this
    {
      Pushed(queryTerms,
             if hasLowerBoundMs then Some(lowerBoundMs) else None,
             if hasUpperBoundMs then Some(upperBoundMs) else None)
    }

    method AddDatadogQueryTerm(term: string)
      modifies this
      ensures View() == PushTerm(old(View()), term)
    {
      for i := 0 to |queryTerms|
        invariant unchanged(this)
        invariant term !in queryTerms[..i]
      {
        if queryTerms[i] == term {
          return;
        }
        PrefixSnoc(queryTerms, i);
      }
      assert queryTerms[..|queryTerms|] == queryTerms;
      queryTerms := queryTerms + [term];
    }

    method TryPushColumn(timeColumn: string, facets: seq<(string, string)>, name: string, op: Comparator, value: Value)
      modifies this
      ensures View() == PushColumn(old(View()), timeColumn, facets, name, op, value)
    {
      for i := 0 to |facets|
        invariant FacetOf(facets, name) == FacetOf(facets[i..], name) && unchanged(this)
      {
        if name != facets[i].0 {
          continue;
        }
        if op != Equal || !value.Varchar? {
          return;
        }
        if !IsSafeFacetValue(value.text) {
          return;
        }
        AddDatadogQueryTerm(facets[i].1 + ":" + value.text);
        return;
      }
      if name != timeColumn || !value.TimestampNs? {
        return;
      }
      match op {
        case Greater => RaiseLower(value.nanos);
        case GreaterOrEqual => RaiseLower(value.nanos);
        case Less => LowerUpper(value.nanos);
        case LessOrEqual => LowerUpper(value.nanos);
        case _ =>
      }
    }

    method RaiseLower(nanos: int)
      modifies this
      ensures View() == PushBound(old(View()), Greater, nanos)
    {
      var millis := FloorMillis(nanos);
      if !hasLowerBoundMs || millis > lowerBoundMs {
        hasLowerBoundMs := true;
        lowerBoundMs := millis;
      }
    }

    method LowerUpper(nanos: int)
      modifies this
      ensures View() == PushBound(old(View()), Less, nanos)
    {
      var millis := CeilMillis(nanos);
      if !hasUpperBoundMs || millis < upperBoundMs {
        hasUpperBoundMs := true;
        upperBoundMs := millis;
      }
    }

    method TryPushDatadogComparison(get: LogicalGet, timeColumn: string, facets: seq<(string, string)>,
                                    op: Comparator, left: Operand, right: Operand)
      modifies this
      ensures View() == PushComparison(old(View()), get, timeColumn, facets, op, left, right)
    {
      var oriented := Oriented(op, left, right);
      if oriented.None? {
        return;
      }
      var (column, turned, value) := oriented.value;
      if column.depth != 0 || column.tableIndex != get.tableIndex || column.columnIndex >= |get.columnIds|
         || value.NullValue? {
        return;
      }
      var sourceColumn := get.columnIds[column.columnIndex];
      if sourceColumn >= |get.names| {
        return;
      }
      TryPushColumn(timeColumn, facets, get.names[sourceColumn], turned, value);
    }

    method TryPushDatadogExpression(get: LogicalGet, timeColumn: string, facets: seq<(string, string)>, e: Expr)
      modifies this
      ensures View() == PushExpr(old(View()), get, timeColumn, facets, e)
      decreases e, 1
    {
      match e {
        case Comparison(op, left, right) =>
          TryPushDatadogComparison(get, timeColumn, facets, op, left, right);
        case Conjunction(children) =>
          CollectDatadogSearchPushdown(get, timeColumn, facets, children);
        case _ =>
      }
    }

    /** Also the loop over the children of a conjunction. */
    method CollectDatadogSearchPushdown(get: LogicalGet, timeColumn: string, facets: seq<(string, string)>,
                                        es: seq<Expr>)
      modifies this
      ensures View() == PushAll(old(View()), get, timeColumn, facets, es)
      decreases es, 0
    {
      for i := 0 to |es|
        invariant PushAll(View(), get, timeColumn, facets, es[i..]) == PushAll(old(View()), get, timeColumn, facets, es)
      {
        assert es[i..][0] == es[i] && es[i..][1..] == es[i + 1..];
        TryPushDatadogExpression(get, timeColumn, facets, es[i]);
      }
    }
  }

  // ----- what was pushed is implied by the predicate -----

  /** The row satisfies everything pushed so far: each term as the server judges it, and the bounds. */
  predicate Admits(p: Pushed, timeColumn: string, judge: string -> bool, row: Row) {
    && (forall t :: t in p.terms ==> judge(t))
    && (p.lowerMs.Some? ==>
          && ColumnValue(row, timeColumn).TimestampNs?
          && p.lowerMs.value * NANOS_PER_MILLISECOND <= ColumnValue(row, timeColumn).nanos)
    && (p.upperMs.Some? ==>
          && ColumnValue(row, timeColumn).TimestampNs?
          && ColumnValue(row, timeColumn).nanos <= p.upperMs.value * NANOS_PER_MILLISECOND)
  }

  /** `facet:v` selects at least the rows whose column equals `v`. */
  ghost predicate JudgesFacets(facets: seq<(string, string)>, judge: string -> bool, row: Row) {
    forall i, v :: 0 <= i < |facets| && IsSafeFacetValue(v) && ColumnValue(row, facets[i].0) == Varchar(v) ==>
      judge(facets[i].1 + ":" + v)
  }

  lemma {:induction false} FacetOfIsListed(facets: seq<(string, string)>, name: string)
    requires FacetOf(facets, name).Some?
    ensures exists i :: 0 <= i < |facets| && facets[i] == (name, FacetOf(facets, name).value)
  {
    if facets[0].0 == name {
      assert facets[0] == (name, FacetOf(facets, name).value);
    } else {
      FacetOfIsListed(facets[1..], name);
      var i :| 0 <= i < |facets[1..]| && facets[1..][i] == (name, FacetOf(facets, name).value);
      assert facets[i + 1] == (name, FacetOf(facets, name).value);
    }
  }

  /** Turning a comparison around does not change it. */
  lemma ReverseComparisonSound(op: Comparator, a: Value, b: Value)
    ensures Compare(op, a, b) == Compare(ReverseComparison(op), b, a)
  {
  }

  lemma PushColumnSound(p: Pushed, timeColumn: string, facets: seq<(string, string)>, judge: string -> bool, row: Row,
                        name: string, op: Comparator, value: Value)
    requires Admits(p, timeColumn, judge, row) && JudgesFacets(facets, judge, row)
    requires !value.NullValue? && Compare(op, ColumnValue(row, name), value) == True
    ensures Admits(PushColumn(p, timeColumn, facets, name, op, value), timeColumn, judge, row)
  {
    var facet := FacetOf(facets, name);
    if facet.Some? {
      if op == Equal && value.Varchar? && IsSafeFacetValue(value.text) {
        FacetOfIsListed(facets, name);
        assert judge(facet.value + ":" + value.text);
      }
    } else if name == timeColumn && value.TimestampNs? {
      RoundsOutward(value.nanos);
    }
  }

  lemma PushComparisonSound(p: Pushed, get: LogicalGet, outer: (ColumnRef, Row) -> Value, timeColumn: string,
                            facets: seq<(string, string)>, judge: string -> bool, row: Row,
                            op: Comparator, left: Operand, right: Operand)
    requires Admits(p, timeColumn, judge, row) && JudgesFacets(facets, judge, row)
    requires Eval(get, outer, Comparison(op, left, right), row) == True
    ensures Admits(PushComparison(p, get, timeColumn, facets, op, left, right), timeColumn, judge, row)
  {
    match Oriented(op, left, right) {
      case None =>
      case Some((column, turned, value)) =>
        var name := ResolvedColumn(get, column);
        if name.Some? && !value.NullValue? {
          ReverseComparisonSound(op, value, ColumnValue(row, name.value));
          PushColumnSound(p, timeColumn, facets, judge, row, name.value, turned, value);
        }
    }
  }

  /** A row the predicate accepts satisfies whatever the predicate contributed. */
  lemma {:induction false} PushExprSound(
      p: Pushed, get: LogicalGet, outer: (ColumnRef, Row) -> Value, timeColumn: string,
      facets: seq<(string, string)>, judge: string -> bool, row: Row, e: Expr)
    requires Admits(p, timeColumn, judge, row) && JudgesFacets(facets, judge, row)
    requires Eval(get, outer, e, row) == True
    ensures Admits(PushExpr(p, get, timeColumn, facets, e), timeColumn, judge, row)
    decreases e
  {
    match e {
      case Comparison(op, left, right) =>
        PushComparisonSound(p, get, outer, timeColumn, facets, judge, row, op, left, right);
      case Conjunction(children) =>
        PushAllSound(p, get, outer, timeColumn, facets, judge, row, children);
      case _ =>
    }
  }

  lemma {:induction false} PushAllSound(
      p: Pushed, get: LogicalGet, outer: (ColumnRef, Row) -> Value, timeColumn: string,
      facets: seq<(string, string)>, judge: string -> bool, row: Row, es: seq<Expr>)
    requires Admits(p, timeColumn, judge, row) && JudgesFacets(facets, judge, row)
    requires EvalAll(get, outer, es, row) == True
    ensures Admits(PushAll(p, get, timeColumn, facets, es), timeColumn, judge, row)
    decreases es
  {
    if es != [] {
      PushExprSound(p, get, outer, timeColumn, facets, judge, row, es[0]);
      PushAllSound(PushExpr(p, get, timeColumn, facets, es[0]), get, outer, timeColumn, facets, judge, row, es[1..]);
    }
  }

  // ----- what can be pushed at all -----

  /** Facet names that make a term one word. */
  predicate ArePlainFacets(facets: seq<(string, string)>) {
    forall i :: 0 <= i < |facets| ==>
      facets[i].1 != "" && forall k :: 0 <= k < |facets[i].1| ==> IsWordChar(facets[i].1[k])
  }

  /** Terms fit the query grammar as single words, never repeat, and bounds fit 64 bits. */
  predicate WellFormed(p: Pushed) {
    && ArePlainTerms(p.terms)
    && (forall i, j :: 0 <= i < j < |p.terms| ==> p.terms[i] != p.terms[j])
    && (p.lowerMs.Some? ==> FitsInt64(p.lowerMs.value))
    && (p.upperMs.Some? ==> FitsInt64(p.upperMs.value))
  }

  lemma FacetTermIsPlain(facet: string, value: string)
    requires facet != "" && (forall k :: 0 <= k < |facet| ==> IsWordChar(facet[k])) && IsSafeFacetValue(value)
    ensures IsPlainTerm(facet + ":" + value)
  {
    var t := facet + ":" + value;
    assert t[|facet|] == ':' && |t| >= 3;
    forall i | 0 <= i < |t|
      ensures IsWordChar(t[i])
    {
      if i > |facet| {
        assert t[i] == value[i - |facet| - 1];
      }
    }
  }

  lemma PushColumnWellFormed(p: Pushed, timeColumn: string, facets: seq<(string, string)>,
                             name: string, op: Comparator, value: Value)
    requires WellFormed(p) && ArePlainFacets(facets)
    ensures WellFormed(PushColumn(p, timeColumn, facets, name, op, value))
  {
    var facet := FacetOf(facets, name);
    if facet.Some? {
      if op == Equal && value.Varchar? && IsSafeFacetValue(value.text) {
        FacetOfIsListed(facets, name);
        FacetTermIsPlain(facet.value, value.text);
      }
    } else if value.TimestampNs? {
      RoundsOutward(value.nanos);
    }
  }

  lemma {:induction false} PushExprWellFormed(p: Pushed, get: LogicalGet, timeColumn: string,
                                              facets: seq<(string, string)>, e: Expr)
    requires WellFormed(p) && ArePlainFacets(facets)
    ensures WellFormed(PushExpr(p, get, timeColumn, facets, e))
    decreases e
  {
    match e {
      case Comparison(op, left, right) =>
        match Oriented(op, left, right) {
          case None =>
          case Some((column, turned, value)) =>
            var name := ResolvedColumn(get, column);
            if name.Some? {
              PushColumnWellFormed(p, timeColumn, facets, name.value, turned, value);
            }
        }
      case Conjunction(children) =>
        PushAllWellFormed(p, get, timeColumn, facets, children);
      case _ =>
    }
  }

  lemma {:induction false} PushAllWellFormed(p: Pushed, get: LogicalGet, timeColumn: string,
                                             facets: seq<(string, string)>, es: seq<Expr>)
    requires WellFormed(p) && ArePlainFacets(facets)
    ensures WellFormed(PushAll(p, get, timeColumn, facets, es))
    decreases es
  {
    if es != [] {
      PushExprWellFormed(p, get, timeColumn, facets, es[0]);
      PushAllWellFormed(PushExpr(p, get, timeColumn, facets, es[0]), get, timeColumn, facets, es[1..]);
    }
  }

  // ----- exactly what is pushed -----

  /** The term of `column = 'v'`: for a facet column and a safe value. */
  function FacetTerm(get: LogicalGet, facets: seq<(string, string)>, column: ColumnRef, value: Value): Option<string> {
    var name := ResolvedColumn(get, column);
    if name.None? || FacetOf(facets, name.value).None? || !value.Varchar? || !IsSafeFacetValue(value.text) then None
    else Some(FacetOf(facets, name.value).value + ":" + value.text)
  }

  /** The predicate, or a member of its conjunctions, equates a facet column with the value of this term. */
  predicate AsksTerm(get: LogicalGet, facets: seq<(string, string)>, e: Expr, term: string)
    decreases e
  {
    match e
    case Comparison(Equal, Column(column), Constant(value)) => FacetTerm(get, facets, column, value) == Some(term)
    case Comparison(Equal, Constant(value), Column(column)) => FacetTerm(get, facets, column, value) == Some(term)
    case Conjunction(children) => exists i :: 0 <= i < |children| && AsksTerm(get, facets, children[i], term)
    case _ => false
  }

  /** The column holds the event time. */
  predicate IsTime(get: LogicalGet, timeColumn: string, facets: seq<(string, string)>, column: ColumnRef) {
    ResolvedColumn(get, column) == Some(timeColumn) && FacetOf(facets, timeColumn).None?
  }

  /** The predicate, or a member of its conjunctions, bounds the event time from below by this instant. */
  predicate AsksLower(get: LogicalGet, timeColumn: string, facets: seq<(string, string)>, e: Expr, nanos: int)
    decreases e
  {
    match e
    case Comparison(op, Column(column), Constant(TimestampNs(t))) =>
      IsTime(get, timeColumn, facets, column) && (op == Greater || op == GreaterOrEqual) && t == nanos
    case Comparison(op, Constant(TimestampNs(t)), Column(column)) =>
      IsTime(get, timeColumn, facets, column) && (op == Less || op == LessOrEqual) && t == nanos
    case Conjunction(children) =>
      exists i :: 0 <= i < |children| && AsksLower(get, timeColumn, facets, children[i], nanos)
    case _ => false
  }

  /** The same from above. */
  predicate AsksUpper(get: LogicalGet, timeColumn: string, facets: seq<(string, string)>, e: Expr, nanos: int)
    decreases e
  {
    match e
    case Comparison(op, Column(column), Constant(TimestampNs(t))) =>
      IsTime(get, timeColumn, facets, column) && (op == Less || op == LessOrEqual) && t == nanos
    case Comparison(op, Constant(TimestampNs(t)), Column(column)) =>
      IsTime(get, timeColumn, facets, column) && (op == Greater || op == GreaterOrEqual) && t == nanos
    case Conjunction(children) =>
      exists i :: 0 <= i < |children| && AsksUpper(get, timeColumn, facets, children[i], nanos)
    case _ => false
  }

  lemma {:induction false} ExprTermsIff(p: Pushed, get: LogicalGet, timeColumn: string,
                                        facets: seq<(string, string)>, e: Expr, term: string)
    ensures term in PushExpr(p, get, timeColumn, facets, e).terms <==> term in p.terms || AsksTerm(get, facets, e, term)
    decreases e
  {
    if e.Conjunction? {
      AllTermsIff(p, get, timeColumn, facets, e.children, term);
    }
  }

  lemma {:induction false} AllTermsIff(p: Pushed, get: LogicalGet, timeColumn: string,
                                       facets: seq<(string, string)>, es: seq<Expr>, term: string)
    ensures term in PushAll(p, get, timeColumn, facets, es).terms <==>
            term in p.terms || exists i :: 0 <= i < |es| && AsksTerm(get, facets, es[i], term)
    decreases es
  {
    if es != [] {
      ExprTermsIff(p, get, timeColumn, facets, es[0], term);
      AllTermsIff(PushExpr(p, get, timeColumn, facets, es[0]), get, timeColumn, facets, es[1..], term);
      assert forall i :: 0 < i < |es| ==> es[i] == es[1..][i - 1];
    }
  }

  /** The terms pushed are those of the equations with facet columns among the filters, and no others. */
  lemma PushedTermsIff(get: LogicalGet, timeColumn: string, facets: seq<(string, string)>, es: seq<Expr>, term: string)
    ensures term in PushAll(NOTHING_PUSHED, get, timeColumn, facets, es).terms <==>
            exists i :: 0 <= i < |es| && AsksTerm(get, facets, es[i], term)
  {
    AllTermsIff(NOTHING_PUSHED, get, timeColumn, facets, es, term);
  }

  predicate AtLeast(bound: Option<int>, ms: int) {
    bound.Some? && bound.value >= ms
  }

  predicate AtMost(bound: Option<int>, ms: int) {
    bound.Some? && bound.value <= ms
  }

  lemma {:induction false} ExprBounds(p: Pushed, get: LogicalGet, timeColumn: string,
                                      facets: seq<(string, string)>, e: Expr, ms: int, nanos: int)
    ensures var q := PushExpr(p, get, timeColumn, facets, e);
            && (AtLeast(p.lowerMs, ms) ==> AtLeast(q.lowerMs, ms))
            && (AtMost(p.upperMs, ms) ==> AtMost(q.upperMs, ms))
            && (AsksLower(get, timeColumn, facets, e, nanos) ==> AtLeast(q.lowerMs, FloorMillis(nanos)))
            && (AsksUpper(get, timeColumn, facets, e, nanos) ==> AtMost(q.upperMs, CeilMillis(nanos)))
    decreases e
  {
    if e.Conjunction? {
      AllBounds(p, get, timeColumn, facets, e.children, ms, nanos);
    }
  }

  lemma {:induction false} AllBounds(p: Pushed, get: LogicalGet, timeColumn: string,
                                     facets: seq<(string, string)>, es: seq<Expr>, ms: int, nanos: int)
    ensures var q := PushAll(p, get, timeColumn, facets, es);
            && (AtLeast(p.lowerMs, ms) ==> AtLeast(q.lowerMs, ms))
            && (AtMost(p.upperMs, ms) ==> AtMost(q.upperMs, ms))
            && (forall i :: 0 <= i < |es| && AsksLower(get, timeColumn, facets, es[i], nanos) ==>
                  AtLeast(q.lowerMs, FloorMillis(nanos)))
            && (forall i :: 0 <= i < |es| && AsksUpper(get, timeColumn, facets, es[i], nanos) ==>
                  AtMost(q.upperMs, CeilMillis(nanos)))
    decreases es
  {
    if es != [] {
      var first := PushExpr(p, get, timeColumn, facets, es[0]);
      ExprBounds(p, get, timeColumn, facets, es[0], ms, nanos);
      AllBounds(first, get, timeColumn, facets, es[1..], ms, nanos);
      AllBounds(first, get, timeColumn, facets, es[1..], FloorMillis(nanos), nanos);
      AllBounds(first, get, timeColumn, facets, es[1..], CeilMillis(nanos), nanos);
      assert forall i :: 0 < i < |es| ==> es[i] == es[1..][i - 1];
    }
  }

  /** Every bound on the event time among the filters is pushed, rounded outward to milliseconds. */
  lemma BoundsArePushed(get: LogicalGet, timeColumn: string, facets: seq<(string, string)>, es: seq<Expr>, nanos: int)
    ensures var q := PushAll(NOTHING_PUSHED, get, timeColumn, facets, es);
            && (forall i :: 0 <= i < |es| && AsksLower(get, timeColumn, facets, es[i], nanos) ==>
                  AtLeast(q.lowerMs, FloorMillis(nanos)))
            && (forall i :: 0 <= i < |es| && AsksUpper(get, timeColumn, facets, es[i], nanos) ==>
                  AtMost(q.upperMs, CeilMillis(nanos)))
  {
    AllBounds(NOTHING_PUSHED, get, timeColumn, facets, es, 0, nanos);
  }
}
