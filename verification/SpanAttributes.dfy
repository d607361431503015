/**
 The span record of the trace write path and the resolution of its attributes: which value each
 meta (text) or metric (number) key gets when several sources name it.
 */
module SpanAttributes {
  import opened Entries
  import opened Prelude
  import opened HexIds

  /**
   A member value of a parsed attribute object, seen through the accessors the resolver uses:
   a number through its double value, an object or array through the text the JSON writer gives
   for it (None when the writer fails).
   */
  datatype AttributeValue =
    | Text(text: string)
    | Number(bits: Double)
    | Boolean(flag: bool)
    | Compound(written: Option<string>)
    | Null

  /** An attribute column: its members in order, or text that is empty, malformed or not an object. */
  datatype AttributeSource = Unusable | Members(members: seq<(string, AttributeValue)>)

  datatype AgentSpan = AgentSpan(
    traceId: SplitId,
    spanId: uint64,
    parentId: Option<uint64>,
    service: string,
    name: string,
    resource: string,
    spanType: string,
    startNs: int64,
    durationNs: int64,
    error: bool,
    meta: seq<(string, string)>,
    spanAttributes: AttributeSource,
    resourceAttributes: AttributeSource)

  /** What a key resolves to. */
  datatype Entry = Meta(text: string) | Metric(bits: Double)

  type Candidate = (string, Entry)

  const TID_KEY: string := "_dd.p.tid"

  // ----- the specification -----

  function EntryOf(value: AttributeValue): Option<Entry> {
    match value
    case Text(text) => Some(Meta(text))
    case Number(bits) => Some(Metric(bits))
    case Boolean(flag) => Some(Meta(if flag then "true" else "false"))
    case Compound(Some(written)) => Some(Meta(written))
    case Compound(None) => None
    case Null => None
  }

  /** A null or unwritable member is no candidate. */
  function MemberCandidate(key: string, value: AttributeValue): seq<Candidate> {
    match EntryOf(value)
    case Some(entry) => [(key, entry)]
    case None => []
  }

  function MemberCandidates(members: seq<(string, AttributeValue)>): seq<Candidate> {
    if members == [] then []
    else
      var last := members[|members| - 1];
      MemberCandidates(members[..|members| - 1]) + MemberCandidate(last.0, last.1)
  }

  function SourceCandidates(source: AttributeSource): seq<Candidate> {
    match source
    case Unusable => []
    case Members(members) => MemberCandidates(members)
  }

  /** The reserved entries with a non-empty value. */
  function ReservedCandidates(meta: seq<(string, string)>): seq<Candidate> {
    if meta == [] then []
    else
      var rest := ReservedCandidates(meta[..|meta| - 1]);
      var (key, text) := meta[|meta| - 1];
      if text == "" then rest else rest + [(key, Meta(text))]
  }

  function TidCandidates(highHex: string): seq<Candidate> {
    if highHex == "" then [] else [(TID_KEY, Meta(highHex))]
  }

  /** Every candidate, in order of precedence. */
  function Candidates(span: AgentSpan): seq<Candidate> {
    TidCandidates(span.traceId.highHex) + ReservedCandidates(span.meta)
    + SourceCandidates(span.spanAttributes) + SourceCandidates(span.resourceAttributes)
  }

  function Keys<V>(s: seq<(string, V)>): set<string> {
    set i | 0 <= i < |s| :: s[i].0
  }

  /** Keep a candidate when no earlier one has its key. */
  function FirstWins(candidates: seq<Candidate>): seq<Candidate> {
    if candidates == [] then []
    else
      var init, last := candidates[..|candidates| - 1], candidates[|candidates| - 1];
      if last.0 in Keys(init) then FirstWins(init) else FirstWins(init) + [last]
  }

  function Resolve(span: AgentSpan): seq<Candidate> {
    FirstWins(Candidates(span))
  }

  function MetaOf(entries: seq<Candidate>): seq<(string, string)> {
    if entries == [] then []
    else
      var rest := MetaOf(entries[..|entries| - 1]);
      match entries[|entries| - 1].1
      case Meta(text) => rest + [(entries[|entries| - 1].0, text)]
      case Metric(_) => rest
  }

  function MetricsOf(entries: seq<Candidate>): seq<(string, Double)> {
    if entries == [] then []
    else
      var rest := MetricsOf(entries[..|entries| - 1]);
      match entries[|entries| - 1].1
      case Meta(_) => rest
      case Metric(bits) => rest + [(entries[|entries| - 1].0, bits)]
  }

  function ResolvedMeta(span: AgentSpan): seq<(string, string)> {
    MetaOf(Resolve(span))
  }

  function ResolvedMetrics(span: AgentSpan): seq<(string, Double)> {
    MetricsOf(Resolve(span))
  }

  // ----- the resolver -----

  /** How a member value is entered: nulls and values that cannot be written are not. */
  method EntryFor(value: AttributeValue) returns (entry: Option<Entry>)
    ensures entry == EntryOf(value)
  {
    entry := None;
    match value {
      case Text(text) => entry := Some(Meta(text));
      case Number(bits) => entry := Some(Metric(bits));
      case Boolean(flag) => entry := Some(Meta(if flag then "true" else "false"));
      case Compound(written) =>
        if written.Some? {
          entry := Some(Meta(written.value));
        }
      case Null =>
    }
  }

  lemma NextMember(before: seq<Candidate>, members: seq<(string, AttributeValue)>, i: nat)
    requires i < |members|
    ensures before + MemberCandidates(members[..i + 1])
         == before + MemberCandidates(members[..i]) + MemberCandidate(members[i].0, members[i].1)
  {
    assert members[..i + 1][..i] == members[..i];
  }

  predicate UniqueKeys<V>(s: seq<(string, V)>) {
    forall i, j :: 0 <= i < j < |s| ==> s[i].0 != s[j].0
  }

  lemma KeysSnoc<V>(s: seq<(string, V)>, x: (string, V))
    ensures Keys(s + [x]) == Keys(s) + {x.0}
    ensures UniqueKeys(s) && x.0 !in Keys(s) ==> UniqueKeys(s + [x])
  {
    assert (s + [x])[|s|] == x;
    assert forall i :: 0 <= i < |s| ==> (s + [x])[i] == s[i] && s[i].0 in Keys(s);
  }

  /** The lists and the set of claimed keys that the merge functions update by reference. */
  class Resolution {
    var meta: seq<(string, string)>
    var metrics: seq<(string, Double)>
    var seen: set<string>

    /** The resolution so far is the first-wins choice among `candidates`. */
    ghost predicate Resolves(candidates: seq<Candidate>)
      reads this
    {
      && seen == Keys(candidates)
      && meta == MetaOf(FirstWins(candidates))
      && metrics == MetricsOf(FirstWins(candidates))
    }

    constructor ()
      ensures Resolves([])
    {
      meta, metrics, seen := [], [], {};
    }

    /** A claimed key is left alone, a new one is recorded. */
    method Record(key: string, entry: Entry, ghost candidates: seq<Candidate>)
      requires Resolves(candidates) && key !in seen
      modifies this
      ensures Resolves(candidates + [(key, entry)])
    {
      ghost var now := candidates + [(key, entry)];
      assert now[..|now| - 1] == candidates;
      KeysSnoc(candidates, (key, entry));
      ghost var chosen := FirstWins(candidates);
      assert (chosen + [(key, entry)])[..|chosen|] == chosen;
      match entry {
        case Meta(text) => meta := meta + [(key, text)];
        case Metric(bits) => metrics := metrics + [(key, bits)];
      }
      seen := seen + {key};
    }

    /** Losing candidates change nothing. */
    lemma SkipClaimed(key: string, entry: Entry, candidates: seq<Candidate>)
      requires Resolves(candidates) && key in seen
      ensures Resolves(candidates + [(key, entry)])
    {
      var now := candidates + [(key, entry)];
      assert now[..|now| - 1] == candidates;
      KeysSnoc(candidates, (key, entry));
    }

    method MergeMember(key: string, value: AttributeValue, ghost candidates: seq<Candidate>)
      requires Resolves(candidates)
      modifies this
      ensures Resolves(candidates + MemberCandidate(key, value))
    {
      assert candidates + [] == candidates;
      if key in seen {
        if EntryOf(value).Some? {
          SkipClaimed(key, EntryOf(value).value, candidates);
        }
        return;
      }
      var entry := EntryFor(value);
      if entry.Some? {
        Record(key, entry.value, candidates);
      }
    }

    method MergeAttributesIntoResolved(source: AttributeSource, ghost candidates: seq<Candidate>)
      requires Resolves(candidates)
      modifies this
      ensures Resolves(candidates + SourceCandidates(source))
    {
      assert candidates + [] == candidates;
      if source.Unusable? {
        return;
      }
      for i := 0 to |source.members|
        invariant Resolves(candidates + MemberCandidates(source.members[..i]))
      {
        var (key, value) := source.members[i];
        NextMember(candidates, source.members, i);
        MergeMember(key, value, candidates + MemberCandidates(source.members[..i]));
      }
      assert source.members[..|source.members|] == source.members;
    }

    method MergeReserved(reserved: seq<(string, string)>, ghost candidates: seq<Candidate>)
      requires Resolves(candidates)
      modifies this
      ensures Resolves(candidates + ReservedCandidates(reserved))
    {
      assert candidates + [] == candidates;
      ghost var done: seq<Candidate> := [];
      for i := 0 to |reserved|
        invariant done == ReservedCandidates(reserved[..i])
        invariant Resolves(candidates + done)
      {
        var (key, text) := reserved[i];
        assert reserved[..i + 1][..i] == reserved[..i];
        if text != "" {
          ghost var was := done;
          done := done + [(key, Meta(text))];
          assert candidates + done == (candidates + was) + [(key, Meta(text))];
          if key !in seen {
            Record(key, Meta(text), candidates + was);
          } else {
            SkipClaimed(key, Meta(text), candidates + was);
          }
        }
      }
      assert reserved[..|reserved|] == reserved;
    }
  }

  method ResolveDatadogAgentSpanAttributes(span: AgentSpan)
    returns (meta: seq<(string, string)>, metrics: seq<(string, Double)>)
    ensures meta == ResolvedMeta(span) && metrics == ResolvedMetrics(span)
  {
    var r := new Resolution();
    ghost var c: seq<Candidate> := [];
    if span.traceId.highHex != "" {
      r.Record(TID_KEY, Meta(span.traceId.highHex), c);
      c := c + [(TID_KEY, Meta(span.traceId.highHex))];
    }
    assert c == TidCandidates(span.traceId.highHex);
    r.MergeReserved(span.meta, c);
    c := c + ReservedCandidates(span.meta);
    r.MergeAttributesIntoResolved(span.spanAttributes, c);
    c := c + SourceCandidates(span.spanAttributes);
    r.MergeAttributesIntoResolved(span.resourceAttributes, c);
    meta, metrics := r.meta, r.metrics;
  }

  // ----- what resolution means, key by key -----

  lemma {:induction false} LookupPresent<V>(s: seq<(string, V)>, key: string)
    ensures Lookup(s, key).Some? <==> key in Keys(s)
  {
    if s != [] {
      LookupPresent(s[1..], key);
      if key in Keys(s[1..]) {
        var i :| 0 <= i < |s[1..]| && s[1..][i].0 == key;
        assert s[i + 1].0 == key;
      }
      if key in Keys(s) && s[0].0 != key {
        var i :| 0 <= i < |s| && s[i].0 == key;
        assert s[1..][i - 1].0 == key;
      }
    }
  }

  lemma {:induction false} FirstWinsKeepsKeys(c: seq<Candidate>)
    ensures Keys(FirstWins(c)) == Keys(c) && UniqueKeys(FirstWins(c))
  {
    if c != [] {
      var init, last := c[..|c| - 1], c[|c| - 1];
      FirstWinsKeepsKeys(init);
      var chosen := FirstWins(init);
      assert Keys(c) == Keys(init) + {last.0} by {
        assert forall i :: 0 <= i < |init| ==> c[i] == init[i];
        assert c[|init|] == last;
      }
      if last.0 !in Keys(init) {
        assert forall i :: 0 <= i < |chosen| ==> chosen[i].0 in Keys(chosen);
        assert Keys(chosen + [last]) == Keys(chosen) + {last.0} by {
          assert (chosen + [last])[|chosen|] == last;
          assert forall i :: 0 <= i < |chosen| ==> (chosen + [last])[i] == chosen[i];
        }
      }
    }
  }

  /** First-wins selection keeps, for every key, exactly its first candidate. */
  lemma {:induction false} FirstWinsSelects(c: seq<Candidate>, key: string)
    ensures Lookup(FirstWins(c), key) == Lookup(c, key)
  {
    if c != [] {
      var init, last := c[..|c| - 1], c[|c| - 1];
      assert c == init + [last];
      FirstWinsSelects(init, key);
      LookupAppend(init, [last], key);
      LookupAppend(FirstWins(init), [last], key);
      LookupPresent(init, key);
    }
  }

  /**
   The resolved entry of every key comes from the first source that offers one: the trace id,
   then the non-empty reserved entries, then the span attributes, then the resource attributes.
   */
  lemma ResolutionPrecedence(span: AgentSpan, key: string)
    ensures Lookup(Resolve(span), key) ==
            OrElse(Lookup(TidCandidates(span.traceId.highHex), key),
            OrElse(Lookup(ReservedCandidates(span.meta), key),
            OrElse(Lookup(SourceCandidates(span.spanAttributes), key),
                   Lookup(SourceCandidates(span.resourceAttributes), key))))
  {
    var a, b := TidCandidates(span.traceId.highHex), ReservedCandidates(span.meta);
    var c, d := SourceCandidates(span.spanAttributes), SourceCandidates(span.resourceAttributes);
    FirstWinsSelects(Candidates(span), key);
    LookupAppend(a + b + c, d, key);
    LookupAppend(a + b, c, key);
    LookupAppend(a, b, key);
  }

  lemma {:induction false} EmptyReservedIsNoCandidate(meta: seq<(string, string)>, key: string)
    requires forall i :: 0 <= i < |meta| && meta[i].0 == key ==> meta[i].1 == ""
    ensures Lookup(ReservedCandidates(meta), key) == None
  {
    if meta != [] {
      var init, last := meta[..|meta| - 1], meta[|meta| - 1];
      EmptyReservedIsNoCandidate(init, key);
      LookupAppend(ReservedCandidates(init), [(last.0, Meta(last.1))], key);
    }
  }

  /** An empty reserved value leaves its key to the later sources. */
  lemma EmptyReservedDoesNotBlock(span: AgentSpan, key: string)
    requires key != TID_KEY
    requires forall i :: 0 <= i < |span.meta| && span.meta[i].0 == key ==> span.meta[i].1 == ""
    ensures Lookup(Resolve(span), key) ==
            OrElse(Lookup(SourceCandidates(span.spanAttributes), key),
                   Lookup(SourceCandidates(span.resourceAttributes), key))
  {
    ResolutionPrecedence(span, key);
    EmptyReservedIsNoCandidate(span.meta, key);
  }

  /** Splitting a duplicate-free list into meta and metrics keeps every entry and separates the keys. */
  lemma {:induction false} SplitKeepsEntries(r: seq<Candidate>)
    requires UniqueKeys(r)
    ensures UniqueKeys(MetaOf(r)) && UniqueKeys(MetricsOf(r))
    ensures Keys(MetaOf(r)) !! Keys(MetricsOf(r)) && Keys(MetaOf(r)) + Keys(MetricsOf(r)) == Keys(r)
    ensures |MetaOf(r)| + |MetricsOf(r)| == |r|
  {
    if r != [] {
      var init, last := r[..|r| - 1], r[|r| - 1];
      SplitKeepsEntries(init);
      assert r == init + [last];
      KeysSnoc(init, last);
      assert last.0 !in Keys(init);
      match last.1 {
        case Meta(text) => KeysSnoc(MetaOf(init), (last.0, text));
        case Metric(bits) => KeysSnoc(MetricsOf(init), (last.0, bits));
      }
    }
  }

  /** Keys are unique across meta and metrics together. */
  lemma ResolvedKeysUnique(span: AgentSpan)
    ensures UniqueKeys(ResolvedMeta(span)) && UniqueKeys(ResolvedMetrics(span))
    ensures Keys(ResolvedMeta(span)) !! Keys(ResolvedMetrics(span))
    ensures Keys(ResolvedMeta(span)) + Keys(ResolvedMetrics(span)) == Keys(Candidates(span))
  {
    FirstWinsKeepsKeys(Candidates(span));
    SplitKeepsEntries(Resolve(span));
  }
}
