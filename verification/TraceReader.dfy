/**
 A reader for the `AgentPayload` messages, and the proof that it returns every span that
 `EncodeDatadogAgentPayload` was given, in groups, in order and with every field.
 */
module TraceReader {
  import opened Entries
  import opened Prelude
  import opened Folds
  import opened Grouping
  import opened ProtoWire
  import opened TraceProto
  import SpanAttributes

  // ----- the reader -----

  /** Decode a message from its default value; fields the message does not know are skipped. */
  function ReadAs<A>(apply: (A, Field) -> Option<A>, default: A, bytes: string): Option<A> {
    match ReadMessage(bytes)
    case None => None
    case Some(fields) => Fold(apply, default, fields)
  }

  function SignedInt32(value: uint64): int {
    var low := value % 0x1_0000_0000;
    if low < 0x8000_0000 then low else low - 0x1_0000_0000
  }

  function ApplyStringEntry(entry: (string, string), f: Field): Option<(string, string)> {
    match f
    case Bytes(number, payload) =>
      Some(if number == 1 then (payload, entry.1) else if number == 2 then (entry.0, payload) else entry)
    case _ => Some(entry)
  }

  function ApplyDoubleEntry(entry: (string, Double), f: Field): Option<(string, Double)> {
    match f
    case Bytes(number, payload) => Some(if number == 1 then (payload, entry.1) else entry)
    case Fixed64(number, bits) => Some(if number == 2 then (entry.0, bits) else entry)
    case Varint(_, _) => Some(entry)
  }

  const EMPTY_SPAN := WireSpan("", "", "", 0, 0, None, 0, 0, 0, map[], map[], "")

  /** A map field keeps the last entry of each key. */
  function ApplySpan(span: WireSpan, f: Field): Option<WireSpan> {
    match f
    case Varint(number, value) =>
      Some(if number == 4 then span.(traceId := value)
           else if number == 5 then span.(spanId := value)
           else if number == 6 then span.(parentId := Some(value))
           else if number == 7 then span.(startNs := Signed(value))
           else if number == 8 then span.(durationNs := Signed(value))
           else if number == 9 then span.(error := SignedInt32(value))
           else span)
    case Fixed64(_, _) => Some(span)
    case Bytes(number, payload) =>
      if number == 1 then Some(span.(service := payload))
      else if number == 2 then Some(span.(name := payload))
      else if number == 3 then Some(span.(resource := payload))
      else if number == 10 then
        match ReadAs(ApplyStringEntry, ("", ""), payload)
        case None => None
        case Some(entry) => Some(span.(meta := span.meta[entry.0 := entry.1]))
      else if number == 11 then
        match ReadAs(ApplyDoubleEntry, ("", 0), payload)
        case None => None
        case Some(entry) => Some(span.(metrics := span.metrics[entry.0 := entry.1]))
      else if number == 12 then Some(span.(spanType := payload))
      else Some(span)
  }

  function ApplyChunk(chunk: WireChunk, f: Field): Option<WireChunk> {
    match f
    case Varint(number, value) => Some(if number == 1 then chunk.(priority := SignedInt32(value)) else chunk)
    case Fixed64(_, _) => Some(chunk)
    case Bytes(number, payload) =>
      if number == 3 then
        match ReadAs(ApplySpan, EMPTY_SPAN, payload)
        case None => None
        case Some(span) => Some(chunk.(spans := chunk.spans + [span]))
      else Some(chunk)
  }

  function ApplyTracer(tracer: WireTracer, f: Field): Option<WireTracer> {
    match f
    case Bytes(number, payload) =>
      if number == 2 then Some(tracer.(language := payload))
      else if number == 6 then
        match ReadAs(ApplyChunk, WireChunk(0, []), payload)
        case None => None
        case Some(chunk) => Some(tracer.(chunks := tracer.chunks + [chunk]))
      else if number == 8 then Some(tracer.(env := payload))
      else if number == 9 then Some(tracer.(hostname := payload))
      else Some(tracer)
    case _ => Some(tracer)
  }

  function ApplyPayload(p: WirePayload, f: Field): Option<WirePayload> {
    match f
    case Bytes(number, payload) =>
      if number == 1 then Some(p.(hostname := payload))
      else if number == 2 then Some(p.(env := payload))
      else if number == 5 then
        match ReadAs(ApplyTracer, WireTracer("", [], "", ""), payload)
        case None => None
        case Some(tracer) => Some(p.(tracers := p.tracers + [tracer]))
      else if number == 7 then Some(p.(agentVersion := payload))
      else Some(p)
    case _ => Some(p)
  }

  function ReadAgentPayload(bytes: string): Option<WirePayload> {
    ReadAs(ApplyPayload, WirePayload("", "", [], ""), bytes)
  }

  // ----- what a reader should get -----

  function Merged<V>(m: map<string, V>, entries: seq<(string, V)>): map<string, V> {
    if entries == [] then m
    else
      var last := entries[|entries| - 1];
      Merged(m, entries[..|entries| - 1])[last.0 := last.1]
  }

  /** A span on the wire: a zero parent is indistinguishable from an absent one. */
  function Delivered(span: AgentSpan): WireSpan {
    WireSpan(
      span.service, span.name, span.resource, span.traceId.low, span.spanId,
      if span.parentId == Some(0) then None else span.parentId,
      span.startNs, span.durationNs, if span.error then 1 else 0,
      Merged(map[], SpanAttributes.ResolvedMeta(span)), Merged(map[], SpanAttributes.ResolvedMetrics(span)),
      span.spanType)
  }

  function DeliveredGroup(group: seq<AgentSpan>): seq<WireSpan> {
    seq(|group|, i requires 0 <= i < |group| => Delivered(group[i]))
  }

  function DeliveredChunks(groups: seq<seq<AgentSpan>>): seq<WireChunk> {
    seq(|groups|, i requires 0 <= i < |groups| => WireChunk(1, DeliveredGroup(groups[i])))
  }

  function DeliveredPayload(spans: seq<AgentSpan>, hostname: string, env: string): WirePayload {
    WirePayload(hostname, env,
                [WireTracer("duckdb", DeliveredChunks(GroupBy(spans, SpanKey)), env, hostname)],
                "duckdb-datadog")
  }

  lemma {:induction false} MergedLookup<V>(entries: seq<(string, V)>, key: string)
    requires SpanAttributes.UniqueKeys(entries)
    ensures Lookup(entries, key) ==
            if key in Merged(map[], entries) then Some(Merged(map[], entries)[key]) else None
  {
    if entries != [] {
      var init, last := entries[..|entries| - 1], entries[|entries| - 1];
      MergedLookup(init, key);
      assert entries == init + [last];
      LookupAppend(init, [last], key);
      SpanAttributes.LookupPresent(init, key);
      assert last.0 !in SpanAttributes.Keys(init);
    }
  }

  /** Turning a duplicate-free list into a map, last entry wins, loses nothing. */
  lemma {:induction false} MergedCount<V>(entries: seq<(string, V)>)
    requires SpanAttributes.UniqueKeys(entries)
    ensures |Merged(map[], entries)| == |entries|
  {
    if entries != [] {
      var init, last := entries[..|entries| - 1], entries[|entries| - 1];
      MergedCount(init);
      MergedLookup(init, last.0);
      SpanAttributes.LookupPresent(init, last.0);
      assert last.0 !in SpanAttributes.Keys(init);
    }
  }

  lemma {:induction false} SplitLookup(r: seq<SpanAttributes.Candidate>, key: string)
    requires SpanAttributes.UniqueKeys(r)
    ensures Lookup(r, key) ==
            match Lookup(SpanAttributes.MetaOf(r), key)
            case Some(text) => Some(SpanAttributes.Meta(text))
            case None =>
              match Lookup(SpanAttributes.MetricsOf(r), key)
              case Some(bits) => Some(SpanAttributes.Metric(bits))
              case None => None
  {
    if r != [] {
      var init, last := r[..|r| - 1], r[|r| - 1];
      SplitLookup(init, key);
      assert r == init + [last];
      LookupAppend(init, [last], key);
      SpanAttributes.LookupPresent(init, key);
      assert last.0 !in SpanAttributes.Keys(init);
      match last.1 {
        case Meta(text) => LookupAppend(SpanAttributes.MetaOf(init), [(last.0, text)], key);
        case Metric(bits) => LookupAppend(SpanAttributes.MetricsOf(init), [(last.0, bits)], key);
      }
    }
  }

  /** What a reader finds under a key is what the resolver chose for it. */
  lemma DeliveredAttributes(span: AgentSpan, key: string)
    ensures var d := Delivered(span);
            Lookup(SpanAttributes.Resolve(span), key) ==
            if key in d.meta then Some(SpanAttributes.Meta(d.meta[key]))
            else if key in d.metrics then Some(SpanAttributes.Metric(d.metrics[key]))
            else None
    ensures key !in Delivered(span).meta || key !in Delivered(span).metrics
    ensures |Delivered(span).meta| + |Delivered(span).metrics| == |SpanAttributes.Resolve(span)|
  {
    SpanAttributes.LookupPresent(SpanAttributes.ResolvedMeta(span), key);
    SpanAttributes.LookupPresent(SpanAttributes.ResolvedMetrics(span), key);
    SpanAttributes.ResolvedKeysUnique(span);
    SpanAttributes.FirstWinsKeepsKeys(SpanAttributes.Candidates(span));
    SpanAttributes.SplitKeepsEntries(SpanAttributes.Resolve(span));
    MergedLookup(SpanAttributes.ResolvedMeta(span), key);
    MergedLookup(SpanAttributes.ResolvedMetrics(span), key);
    MergedCount(SpanAttributes.ResolvedMeta(span));
    MergedCount(SpanAttributes.ResolvedMetrics(span));
    SplitLookup(SpanAttributes.Resolve(span), key);
  }

  // ----- the round trip -----

  predicate Numbered(fields: seq<Field>) {
    forall i :: 0 <= i < |fields| ==> 0 < fields[i].number < 0x2000_0000
  }

  lemma ReadBack<A>(apply: (A, Field) -> Option<A>, default: A, fields: seq<Field>)
    requires Numbered(fields) && |MessageBytes(fields)| < TWO_64
    ensures ReadAs(apply, default, MessageBytes(fields)) == Fold(apply, default, fields)
  {
    MessageRoundTrip(fields);
  }

  lemma FieldHolds(f: Field)
    requires f.Bytes?
    ensures |f.payload| <= |FieldBytes(f)|
  {
  }

  /** A nested payload is no longer than the message around it. */
  lemma NestedFits(before: seq<Field>, f: Field, after: seq<Field>)
    requires f.Bytes?
    ensures |f.payload| <= |MessageBytes(before + [f] + after)|
  {
    MessageAppend(before + [f], after);
    MessageSnoc(before, f);
    FieldHolds(f);
  }

  lemma StringEntryRoundTrip(key: string, value: string)
    requires |MessageBytes(StringEntry(key, value))| < TWO_64
    ensures ReadAs(ApplyStringEntry, ("", ""), MessageBytes(StringEntry(key, value))) == Some((key, value))
  {
    ReadBack(ApplyStringEntry, ("", ""), StringEntry(key, value));
    FoldOne(ApplyStringEntry, ("", ""), Bytes(1, key));
    FoldOne(ApplyStringEntry, (key, ""), Bytes(2, value));
    FoldThen(ApplyStringEntry, ("", ""), (key, ""), (key, value), StringField(1, key), StringField(2, value));
  }

  lemma DoubleEntryRoundTrip(key: string, value: Double)
    requires |MessageBytes(DoubleEntry(key, value))| < TWO_64
    ensures ReadAs(ApplyDoubleEntry, ("", 0), MessageBytes(DoubleEntry(key, value))) == Some((key, value))
  {
    ReadBack(ApplyDoubleEntry, ("", 0), DoubleEntry(key, value));
    FoldOne(ApplyDoubleEntry, ("", 0), Bytes(1, key));
    FoldOne(ApplyDoubleEntry, (key, 0), Fixed64(2, value));
    FoldThen(ApplyDoubleEntry, ("", 0), (key, 0), (key, value), StringField(1, key), [Fixed64(2, value)]);
  }

  lemma MetaStep(span: WireSpan, key: string, value: string)
    requires |MessageBytes(StringEntry(key, value))| < TWO_64
    ensures ApplySpan(span, Bytes(10, MessageBytes(StringEntry(key, value)))) ==
            Some(span.(meta := span.meta[key := value]))
  {
    StringEntryRoundTrip(key, value);
  }

  lemma MetricStep(span: WireSpan, key: string, value: Double)
    requires |MessageBytes(DoubleEntry(key, value))| < TWO_64
    ensures ApplySpan(span, Bytes(11, MessageBytes(DoubleEntry(key, value)))) ==
            Some(span.(metrics := span.metrics[key := value]))
  {
    DoubleEntryRoundTrip(key, value);
  }

  lemma MergedSnoc<V>(m: map<string, V>, entries: seq<(string, V)>, i: nat)
    requires i < |entries|
    ensures Merged(m, entries[..0]) == m
    ensures Merged(m, entries[..i + 1]) == Merged(m, entries[..i])[entries[i].0 := entries[i].1]
  {
    assert entries[..i + 1][..i] == entries[..i];
  }

  lemma FoldMeta(span: WireSpan, meta: seq<(string, string)>)
    requires forall i :: 0 <= i < |meta| ==> |StringEntries(meta)[i]| < TWO_64
    ensures Fold(ApplySpan, span, Repeated(10, StringEntries(meta))) ==
            Some(span.(meta := Merged(span.meta, meta)))
  {
    var states := seq(|meta| + 1, i requires 0 <= i <= |meta| => span.(meta := Merged(span.meta, meta[..i])));
    forall i | 0 <= i < |meta|
      ensures ApplySpan(states[i], Bytes(10, StringEntries(meta)[i])) == Some(states[i + 1])
    {
      assert |StringEntries(meta)[i]| < TWO_64;
      MetaStep(states[i], meta[i].0, meta[i].1);
      MergedSnoc(span.meta, meta, i);
    }
    FoldThrough(ApplySpan, Repeated(10, StringEntries(meta)), states);
    assert meta[..|meta|] == meta;
  }

  lemma FoldMetrics(span: WireSpan, metrics: seq<(string, Double)>)
    requires forall i :: 0 <= i < |metrics| ==> |DoubleEntries(metrics)[i]| < TWO_64
    ensures Fold(ApplySpan, span, Repeated(11, DoubleEntries(metrics))) ==
            Some(span.(metrics := Merged(span.metrics, metrics)))
  {
    var states := seq(|metrics| + 1, i requires 0 <= i <= |metrics| =>
                      span.(metrics := Merged(span.metrics, metrics[..i])));
    forall i | 0 <= i < |metrics|
      ensures ApplySpan(states[i], Bytes(11, DoubleEntries(metrics)[i])) == Some(states[i + 1])
    {
      assert |DoubleEntries(metrics)[i]| < TWO_64;
      MetricStep(states[i], metrics[i].0, metrics[i].1);
      MergedSnoc(span.metrics, metrics, i);
    }
    FoldThrough(ApplySpan, Repeated(11, DoubleEntries(metrics)), states);
    assert metrics[..|metrics|] == metrics;
  }

  /** The scalar part of a delivered span. */
  function DeliveredHead(span: AgentSpan): WireSpan {
    WireSpan(
      span.service, span.name, span.resource, span.traceId.low, span.spanId,
      if span.parentId == Some(0) then None else span.parentId,
      span.startNs, span.durationNs, if span.error then 1 else 0, map[], map[], "")
  }

  /** An omitted zero and a written value both leave the field with that value. */
  lemma FoldVarint(before: WireSpan, after: WireSpan, number: nat, value: uint64)
    requires ApplySpan(before, Varint(number, value)) == Some(after)
    requires value == 0 ==> before == after
    ensures Fold(ApplySpan, before, VarintField(number, value)) == Some(after)
  {
    FoldOne(ApplySpan, before, Varint(number, value));
  }

  lemma FoldString(before: WireSpan, after: WireSpan, number: nat, value: string)
    requires ApplySpan(before, Bytes(number, value)) == Some(after)
    requires value == "" ==> before == after
    ensures Fold(ApplySpan, before, StringField(number, value)) == Some(after)
  {
    FoldOne(ApplySpan, before, Bytes(number, value));
  }

  lemma FoldTimes(span: AgentSpan, s6: WireSpan, f6: seq<Field>)
    requires Fold(ApplySpan, EMPTY_SPAN, f6) == Some(s6)
    requires f6 == StringField(1, span.service) + StringField(2, span.name) + StringField(3, span.resource)
                   + VarintField(4, span.traceId.low) + VarintField(5, span.spanId) + ParentField(span)
    requires s6 == DeliveredHead(span).(startNs := 0, durationNs := 0, error := 0)
    ensures Fold(ApplySpan, EMPTY_SPAN, HeadFields(span)) == Some(DeliveredHead(span))
  {
    var s7 := s6.(startNs := span.startNs);
    var f7 := f6 + VarintField(7, Unsigned(span.startNs));
    FoldVarint(s6, s7, 7, Unsigned(span.startNs));
    FoldThen(ApplySpan, EMPTY_SPAN, s6, s7, f6, VarintField(7, Unsigned(span.startNs)));
    var s8 := s7.(durationNs := span.durationNs);
    var f8 := f7 + VarintField(8, Unsigned(span.durationNs));
    FoldVarint(s7, s8, 8, Unsigned(span.durationNs));
    FoldThen(ApplySpan, EMPTY_SPAN, s7, s8, f7, VarintField(8, Unsigned(span.durationNs)));
    if span.error {
      FoldVarint(s8, DeliveredHead(span), 9, 1);
      FoldThen(ApplySpan, EMPTY_SPAN, s8, DeliveredHead(span), f8, VarintField(9, 1));
    } else {
      assert f8 + [] == f8;
    }
  }

  lemma FoldParent(span: AgentSpan, s5: WireSpan, s6: WireSpan)
    requires s5.parentId == None && s6 == s5.(parentId := DeliveredHead(span).parentId)
    ensures Fold(ApplySpan, s5, ParentField(span)) == Some(s6)
  {
    if span.parentId.Some? && span.parentId.value != 0 {
      FoldOne(ApplySpan, s5, Varint(6, span.parentId.value));
    }
  }

  lemma FoldNumbers(span: AgentSpan, s3: WireSpan, f3: seq<Field>)
    requires Fold(ApplySpan, EMPTY_SPAN, f3) == Some(s3)
    requires f3 == StringField(1, span.service) + StringField(2, span.name) + StringField(3, span.resource)
    requires s3 == EMPTY_SPAN.(service := span.service, name := span.name, resource := span.resource)
    ensures Fold(ApplySpan, EMPTY_SPAN, HeadFields(span)) == Some(DeliveredHead(span))
  {
    var s4 := s3.(traceId := span.traceId.low);
    var f4 := f3 + VarintField(4, span.traceId.low);
    FoldVarint(s3, s4, 4, span.traceId.low);
    FoldThen(ApplySpan, EMPTY_SPAN, s3, s4, f3, VarintField(4, span.traceId.low));
    var s5 := s4.(spanId := span.spanId);
    var f5 := f4 + VarintField(5, span.spanId);
    FoldVarint(s4, s5, 5, span.spanId);
    FoldThen(ApplySpan, EMPTY_SPAN, s4, s5, f4, VarintField(5, span.spanId));
    var s6 := s5.(parentId := DeliveredHead(span).parentId);
    var f6 := f5 + ParentField(span);
    FoldParent(span, s5, s6);
    FoldThen(ApplySpan, EMPTY_SPAN, s5, s6, f5, ParentField(span));
    FoldTimes(span, s6, f6);
  }

  lemma FoldHead(span: AgentSpan)
    ensures Fold(ApplySpan, EMPTY_SPAN, HeadFields(span)) == Some(DeliveredHead(span))
  {
    var s0 := EMPTY_SPAN;
    var f1 := StringField(1, span.service);
    var s1 := s0.(service := span.service);
    FoldString(s0, s1, 1, span.service);
    var s2 := s1.(name := span.name);
    FoldString(s1, s2, 2, span.name);
    FoldThen(ApplySpan, s0, s1, s2, f1, StringField(2, span.name));
    var f2 := f1 + StringField(2, span.name);
    var s3 := s2.(resource := span.resource);
    FoldString(s2, s3, 3, span.resource);
    FoldThen(ApplySpan, s0, s2, s3, f2, StringField(3, span.resource));
    FoldNumbers(span, s3, f2 + StringField(3, span.resource));
  }

  lemma NumberedAppend(a: seq<Field>, b: seq<Field>)
    requires Numbered(a) && Numbered(b)
    ensures Numbered(a + b)
  {
  }

  lemma NumberedTexts(span: AgentSpan)
    ensures Numbered(StringField(1, span.service) + StringField(2, span.name) + StringField(3, span.resource))
  {
  }

  lemma NumberedIds(span: AgentSpan)
    ensures Numbered(VarintField(4, span.traceId.low) + VarintField(5, span.spanId) + ParentField(span))
  {
  }

  lemma NumberedHead(span: AgentSpan)
    ensures Numbered(HeadFields(span))
  {
    var texts := StringField(1, span.service) + StringField(2, span.name) + StringField(3, span.resource);
    var ids := VarintField(4, span.traceId.low) + VarintField(5, span.spanId) + ParentField(span);
    NumberedTexts(span);
    NumberedIds(span);
    NumberedAppend(texts, ids);
    NumberedAppend(texts + ids, VarintField(7, Unsigned(span.startNs)));
    NumberedAppend(texts + ids + VarintField(7, Unsigned(span.startNs)), VarintField(8, Unsigned(span.durationNs)));
    assert HeadFields(span) == texts + ids + VarintField(7, Unsigned(span.startNs))
                               + VarintField(8, Unsigned(span.durationNs)) + ErrorField(span);
    NumberedAppend(texts + ids + VarintField(7, Unsigned(span.startNs)) + VarintField(8, Unsigned(span.durationNs)),
                   ErrorField(span));
  }

  lemma NumberedSpan(span: AgentSpan)
    ensures Numbered(SpanFields(span))
  {
    var meta := StringEntries(SpanAttributes.ResolvedMeta(span));
    var metrics := DoubleEntries(SpanAttributes.ResolvedMetrics(span));
    NumberedHead(span);
    NumberedAppend(HeadFields(span), Repeated(10, meta));
    NumberedAppend(HeadFields(span) + Repeated(10, meta), Repeated(11, metrics));
    NumberedAppend(HeadFields(span) + Repeated(10, meta) + Repeated(11, metrics), StringField(12, span.spanType));
  }

  lemma AroundItem<T>(before: seq<T>, middle: seq<T>, after: seq<T>, i: nat)
    requires i < |middle|
    ensures before + middle + after == before + middle[..i] + [middle[i]] + (middle[i + 1..] + after)
  {
  }

  lemma RepeatedPayloadFits(before: seq<Field>, number: nat, payloads: seq<string>, after: seq<Field>, i: nat)
    requires i < |payloads|
    ensures |payloads[i]| <= |MessageBytes(before + Repeated(number, payloads) + after)|
  {
    var repeated := Repeated(number, payloads);
    AroundItem(before, repeated, after, i);
    NestedFits(before + repeated[..i], Bytes(number, payloads[i]), repeated[i + 1..] + after);
  }

  /** The payloads of a repeated field fit when the message around them does. */
  lemma RepeatedFits(before: seq<Field>, number: nat, payloads: seq<string>, after: seq<Field>)
    requires |MessageBytes(before + Repeated(number, payloads) + after)| < TWO_64
    ensures forall i :: 0 <= i < |payloads| ==> |payloads[i]| < TWO_64
  {
    forall i | 0 <= i < |payloads|
      ensures |payloads[i]| < TWO_64
    {
      RepeatedPayloadFits(before, number, payloads, after, i);
    }
  }

  /** The attribute entries of a span fit when the span does. */
  lemma EntriesFit(span: AgentSpan, meta: seq<string>, metrics: seq<string>)
    requires |SpanBytes(span)| < TWO_64
    requires meta == StringEntries(SpanAttributes.ResolvedMeta(span))
    requires metrics == DoubleEntries(SpanAttributes.ResolvedMetrics(span))
    ensures forall i :: 0 <= i < |meta| ==> |meta[i]| < TWO_64
    ensures forall i :: 0 <= i < |metrics| ==> |metrics[i]| < TWO_64
  {
    var head, tail := HeadFields(span), StringField(12, span.spanType);
    RepeatedFits(head + Repeated(10, meta), 11, metrics, tail);
    assert head + Repeated(10, meta) + Repeated(11, metrics) + tail
        == head + Repeated(10, meta) + (Repeated(11, metrics) + tail);
    RepeatedFits(head, 10, meta, Repeated(11, metrics) + tail);
  }

  lemma FoldAttributes(s0: WireSpan, f0: seq<Field>, meta: seq<(string, string)>, metrics: seq<(string, Double)>)
    requires forall i :: 0 <= i < |meta| ==> |StringEntries(meta)[i]| < TWO_64
    requires forall i :: 0 <= i < |metrics| ==> |DoubleEntries(metrics)[i]| < TWO_64
    requires Fold(ApplySpan, EMPTY_SPAN, f0) == Some(s0) && s0.meta == map[] && s0.metrics == map[]
    ensures Fold(ApplySpan, EMPTY_SPAN, f0 + Repeated(10, StringEntries(meta)) + Repeated(11, DoubleEntries(metrics)))
         == Some(s0.(meta := Merged(map[], meta), metrics := Merged(map[], metrics)))
  {
    var s1 := s0.(meta := Merged(map[], meta));
    FoldMeta(s0, meta);
    FoldThen(ApplySpan, EMPTY_SPAN, s0, s1, f0, Repeated(10, StringEntries(meta)));
    var s2 := s1.(metrics := Merged(map[], metrics));
    FoldMetrics(s1, metrics);
    FoldThen(ApplySpan, EMPTY_SPAN, s1, s2, f0 + Repeated(10, StringEntries(meta)),
             Repeated(11, DoubleEntries(metrics)));
  }

  lemma FoldSpanType(s2: WireSpan, f2: seq<Field>, spanType: string)
    requires Fold(ApplySpan, EMPTY_SPAN, f2) == Some(s2) && s2.spanType == ""
    ensures Fold(ApplySpan, EMPTY_SPAN, f2 + StringField(12, spanType)) == Some(s2.(spanType := spanType))
  {
    FoldString(s2, s2.(spanType := spanType), 12, spanType);
    FoldThen(ApplySpan, EMPTY_SPAN, s2, s2.(spanType := spanType), f2, StringField(12, spanType));
  }

  lemma FoldSpan(s0: WireSpan, f0: seq<Field>, meta: seq<(string, string)>, metrics: seq<(string, Double)>,
                 spanType: string)
    requires forall i :: 0 <= i < |meta| ==> |StringEntries(meta)[i]| < TWO_64
    requires forall i :: 0 <= i < |metrics| ==> |DoubleEntries(metrics)[i]| < TWO_64
    requires Fold(ApplySpan, EMPTY_SPAN, f0) == Some(s0)
    requires s0.meta == map[] && s0.metrics == map[] && s0.spanType == ""
    ensures Fold(ApplySpan, EMPTY_SPAN, f0 + Repeated(10, StringEntries(meta))
                       + Repeated(11, DoubleEntries(metrics)) + StringField(12, spanType))
         == Some(s0.(meta := Merged(map[], meta), metrics := Merged(map[], metrics), spanType := spanType))
  {
    var s2 := s0.(meta := Merged(map[], meta), metrics := Merged(map[], metrics));
    FoldAttributes(s0, f0, meta, metrics);
    FoldSpanType(s2, f0 + Repeated(10, StringEntries(meta)) + Repeated(11, DoubleEntries(metrics)), spanType);
  }

  /** One span survives encoding: omitted fields come back as their defaults. */
  lemma SpanRoundTrip(span: AgentSpan)
    requires |SpanBytes(span)| < TWO_64
    ensures ReadAs(ApplySpan, EMPTY_SPAN, SpanBytes(span)) == Some(Delivered(span))
  {
    var meta, metrics := SpanAttributes.ResolvedMeta(span), SpanAttributes.ResolvedMetrics(span);
    EntriesFit(span, StringEntries(meta), DoubleEntries(metrics));
    NumberedSpan(span);
    ReadBack(ApplySpan, EMPTY_SPAN, SpanFields(span));
    FoldHead(span);
    FoldSpan(DeliveredHead(span), HeadFields(span), meta, metrics, span.spanType);
  }

  lemma SpanStep(chunk: WireChunk, span: AgentSpan)
    requires |SpanBytes(span)| < TWO_64
    ensures ApplyChunk(chunk, Bytes(3, SpanBytes(span))) == Some(chunk.(spans := chunk.spans + [Delivered(span)]))
  {
    SpanRoundTrip(span);
  }

  lemma AfterPrefixSnoc<T>(a: seq<T>, b: seq<T>, i: nat)
    requires i < |b|
    ensures a + b[..i] + [b[i]] == a + b[..i + 1]
  {
  }

  lemma NextSpan(chunk: WireChunk, group: seq<AgentSpan>, i: nat)
    requires i < |group| && |SpanBytes(group[i])| < TWO_64
    ensures ApplyChunk(chunk.(spans := chunk.spans + DeliveredGroup(group)[..i]), Bytes(3, SpanBytes(group[i])))
         == Some(chunk.(spans := chunk.spans + DeliveredGroup(group)[..i + 1]))
  {
    var spans := DeliveredGroup(group);
    SpanStep(chunk.(spans := chunk.spans + spans[..i]), group[i]);
    AfterPrefixSnoc(chunk.spans, spans, i);
  }

  lemma FoldSpans(chunk: WireChunk, group: seq<AgentSpan>)
    requires forall i :: 0 <= i < |group| ==> |SpanMessages(group)[i]| < TWO_64
    ensures Fold(ApplyChunk, chunk, Repeated(3, SpanMessages(group))) ==
            Some(chunk.(spans := chunk.spans + DeliveredGroup(group)))
  {
    var states := seq(|group| + 1, i requires 0 <= i <= |group| =>
                      chunk.(spans := chunk.spans + DeliveredGroup(group)[..i]));
    forall i | 0 <= i < |group|
      ensures ApplyChunk(states[i], Bytes(3, SpanMessages(group)[i])) == Some(states[i + 1])
    {
      assert |SpanMessages(group)[i]| < TWO_64;
      NextSpan(chunk, group, i);
    }
    FoldThrough(ApplyChunk, Repeated(3, SpanMessages(group)), states);
    assert chunk.spans + DeliveredGroup(group)[..0] == chunk.spans;
    assert DeliveredGroup(group)[..|group|] == DeliveredGroup(group);
  }

  lemma FoldPriority()
    ensures Fold(ApplyChunk, WireChunk(0, []), VarintField(1, 1)) == Some(WireChunk(1, []))
  {
    FoldOne(ApplyChunk, WireChunk(0, []), Varint(1, 1));
  }

  lemma ChunkRoundTrip(group: seq<AgentSpan>)
    requires |ChunkBytes(group)| < TWO_64
    ensures ReadAs(ApplyChunk, WireChunk(0, []), ChunkBytes(group)) == Some(WireChunk(1, DeliveredGroup(group)))
  {
    assert ChunkFields(group) + [] == ChunkFields(group);
    RepeatedFits(VarintField(1, 1), 3, SpanMessages(group), []);
    ReadBack(ApplyChunk, WireChunk(0, []), ChunkFields(group));
    FoldPriority();
    FoldSpans(WireChunk(1, []), group);
    assert [] + DeliveredGroup(group) == DeliveredGroup(group);
    FoldThen(ApplyChunk, WireChunk(0, []), WireChunk(1, []), WireChunk(1, DeliveredGroup(group)),
             VarintField(1, 1), Repeated(3, SpanMessages(group)));
  }

  lemma ChunkStep(tracer: WireTracer, group: seq<AgentSpan>)
    requires |ChunkBytes(group)| < TWO_64
    ensures ApplyTracer(tracer, Bytes(6, ChunkBytes(group)))
         == Some(tracer.(chunks := tracer.chunks + [WireChunk(1, DeliveredGroup(group))]))
  {
    ChunkRoundTrip(group);
  }

  lemma FoldChunks(tracer: WireTracer, groups: seq<seq<AgentSpan>>)
    requires forall i :: 0 <= i < |groups| ==> |ChunkMessages(groups)[i]| < TWO_64
    ensures Fold(ApplyTracer, tracer, Repeated(6, ChunkMessages(groups))) ==
            Some(tracer.(chunks := tracer.chunks + DeliveredChunks(groups)))
  {
    var states := seq(|groups| + 1, i requires 0 <= i <= |groups| =>
                      tracer.(chunks := tracer.chunks + DeliveredChunks(groups)[..i]));
    forall i | 0 <= i < |groups|
      ensures ApplyTracer(states[i], Bytes(6, ChunkMessages(groups)[i])) == Some(states[i + 1])
    {
      assert |ChunkMessages(groups)[i]| < TWO_64;
      ChunkStep(states[i], groups[i]);
      AfterPrefixSnoc(tracer.chunks, DeliveredChunks(groups), i);
    }
    FoldThrough(ApplyTracer, Repeated(6, ChunkMessages(groups)), states);
    assert tracer.chunks + DeliveredChunks(groups)[..0] == tracer.chunks;
    assert DeliveredChunks(groups)[..|groups|] == DeliveredChunks(groups);
  }

  lemma FoldTracerString(before: WireTracer, after: WireTracer, number: nat, value: string)
    requires ApplyTracer(before, Bytes(number, value)) == Some(after)
    requires value == "" ==> before == after
    ensures Fold(ApplyTracer, before, StringField(number, value)) == Some(after)
  {
    FoldOne(ApplyTracer, before, Bytes(number, value));
  }

  lemma FoldPayloadString(before: WirePayload, after: WirePayload, number: nat, value: string)
    requires ApplyPayload(before, Bytes(number, value)) == Some(after)
    requires value == "" ==> before == after
    ensures Fold(ApplyPayload, before, StringField(number, value)) == Some(after)
  {
    FoldOne(ApplyPayload, before, Bytes(number, value));
  }

  lemma FoldTracer(groups: seq<seq<AgentSpan>>, hostname: string, env: string)
    requires forall i :: 0 <= i < |groups| ==> |ChunkMessages(groups)[i]| < TWO_64
    ensures Fold(ApplyTracer, WireTracer("", [], "", ""), TracerFields(groups, hostname, env))
         == Some(WireTracer("duckdb", DeliveredChunks(groups), env, hostname))
  {
    var t0 := WireTracer("", [], "", "");
    var t1 := t0.(language := "duckdb");
    var f1 := StringField(2, "duckdb");
    FoldTracerString(t0, t1, 2, "duckdb");
    var t2 := t1.(chunks := DeliveredChunks(groups));
    FoldChunks(t1, groups);
    assert [] + DeliveredChunks(groups) == DeliveredChunks(groups);
    FoldThen(ApplyTracer, t0, t1, t2, f1, Repeated(6, ChunkMessages(groups)));
    var f2 := f1 + Repeated(6, ChunkMessages(groups));
    var t3 := t2.(env := env);
    FoldTracerString(t2, t3, 8, env);
    FoldThen(ApplyTracer, t0, t2, t3, f2, StringField(8, env));
    var t4 := t3.(hostname := hostname);
    FoldTracerString(t3, t4, 9, hostname);
    FoldThen(ApplyTracer, t0, t3, t4, f2 + StringField(8, env), StringField(9, hostname));
  }

  lemma TracerRoundTrip(groups: seq<seq<AgentSpan>>, hostname: string, env: string)
    requires |MessageBytes(TracerFields(groups, hostname, env))| < TWO_64
    ensures ReadAs(ApplyTracer, WireTracer("", [], "", ""), MessageBytes(TracerFields(groups, hostname, env)))
         == Some(WireTracer("duckdb", DeliveredChunks(groups), env, hostname))
  {
    var f0, f1 := StringField(2, "duckdb"), Repeated(6, ChunkMessages(groups));
    var f2 := StringField(8, env) + StringField(9, hostname);
    assert TracerFields(groups, hostname, env) == f0 + f1 + f2;
    RepeatedFits(f0, 6, ChunkMessages(groups), f2);
    ReadBack(ApplyTracer, WireTracer("", [], "", ""), TracerFields(groups, hostname, env));
    FoldTracer(groups, hostname, env);
  }

  lemma TracerFits(spans: seq<AgentSpan>, hostname: string, env: string)
    requires |PayloadBytes(spans, hostname, env)| < TWO_64
    ensures |MessageBytes(TracerFields(GroupBy(spans, SpanKey), hostname, env))| < TWO_64
    ensures Numbered(PayloadFields(spans, hostname, env))
  {
    var head, tail := StringField(1, hostname) + StringField(2, env), StringField(7, "duckdb-datadog");
    var tracer := MessageBytes(TracerFields(GroupBy(spans, SpanKey), hostname, env));
    assert Numbered(head) && Numbered(tail);
    NumberedAppend(head, [Bytes(5, tracer)]);
    NumberedAppend(head + [Bytes(5, tracer)], tail);
    NestedFits(head, Bytes(5, tracer), tail);
  }

  lemma TracerStep(p: WirePayload, groups: seq<seq<AgentSpan>>, hostname: string, env: string)
    requires |MessageBytes(TracerFields(groups, hostname, env))| < TWO_64
    ensures ApplyPayload(p, Bytes(5, MessageBytes(TracerFields(groups, hostname, env))))
         == Some(p.(tracers := p.tracers + [WireTracer("duckdb", DeliveredChunks(groups), env, hostname)]))
  {
    TracerRoundTrip(groups, hostname, env);
  }

  lemma FoldTail(groups: seq<seq<AgentSpan>>, hostname: string, env: string, p2: WirePayload, head: seq<Field>)
    requires |MessageBytes(TracerFields(groups, hostname, env))| < TWO_64
    requires Fold(ApplyPayload, WirePayload("", "", [], ""), head) == Some(p2)
    requires p2 == WirePayload(hostname, env, [], "")
    ensures Fold(ApplyPayload, WirePayload("", "", [], ""),
                       head + [Bytes(5, MessageBytes(TracerFields(groups, hostname, env)))]
                       + StringField(7, "duckdb-datadog"))
         == Some(WirePayload(hostname, env, [WireTracer("duckdb", DeliveredChunks(groups), env, hostname)],
                             "duckdb-datadog"))
  {
    var p0 := WirePayload("", "", [], "");
    var f := Bytes(5, MessageBytes(TracerFields(groups, hostname, env)));
    var tracer := WireTracer("duckdb", DeliveredChunks(groups), env, hostname);
    var p3 := p2.(tracers := [tracer]);
    TracerStep(p2, groups, hostname, env);
    assert [] + [tracer] == [tracer];
    FoldSnoc(ApplyPayload, p0, p2, p3, head, f);
    var p4 := p3.(agentVersion := "duckdb-datadog");
    FoldPayloadString(p3, p4, 7, "duckdb-datadog");
    FoldThen(ApplyPayload, p0, p3, p4, head + [f], StringField(7, "duckdb-datadog"));
  }

  lemma FoldPayload(groups: seq<seq<AgentSpan>>, hostname: string, env: string)
    requires |MessageBytes(TracerFields(groups, hostname, env))| < TWO_64
    ensures Fold(ApplyPayload, WirePayload("", "", [], ""),
                       StringField(1, hostname) + StringField(2, env)
                       + [Bytes(5, MessageBytes(TracerFields(groups, hostname, env)))]
                       + StringField(7, "duckdb-datadog"))
         == Some(WirePayload(hostname, env, [WireTracer("duckdb", DeliveredChunks(groups), env, hostname)],
                             "duckdb-datadog"))
  {
    var p0 := WirePayload("", "", [], "");
    var p1 := p0.(hostname := hostname);
    FoldPayloadString(p0, p1, 1, hostname);
    var p2 := p1.(env := env);
    FoldPayloadString(p1, p2, 2, env);
    var head := StringField(1, hostname) + StringField(2, env);
    FoldThen(ApplyPayload, p0, p1, p2, StringField(1, hostname), StringField(2, env));
    FoldTail(groups, hostname, env, p2, head);
  }

  /**
   The whole payload survives: hostname, environment, one chunk per trace in first-seen order with
   sampling priority 1, and every field of every span. The only requirement is that the payload is
   addressable.
   */
  lemma PayloadRoundTrip(spans: seq<AgentSpan>, hostname: string, env: string)
    requires |PayloadBytes(spans, hostname, env)| < TWO_64
    ensures ReadAgentPayload(PayloadBytes(spans, hostname, env)) == Some(DeliveredPayload(spans, hostname, env))
  {
    TracerFits(spans, hostname, env);
    ReadBack(ApplyPayload, WirePayload("", "", [], ""), PayloadFields(spans, hostname, env));
    FoldPayload(GroupBy(spans, SpanKey), hostname, env);
  }

  lemma {:induction false} VarintAtMost(value: nat, n: nat)
    requires n > 0 && value < Pow128(n)
    ensures |VarintBytes(value)| <= n
  {
    assert Pow128(1) == 0x80;
    if value >= 0x80 {
      VarintAtMost(value / 0x80, n - 1);
    }
  }

  /** A negative start or duration takes a ten-byte varint. */
  lemma NegativeTakesTenBytes(value: int64)
    ensures value < 0 <==> |VarintBytes(Unsigned(value))| == 10
  {
    TenBytesSuffice();
    if value < 0 {
      VarintLength(Unsigned(value), 10);
    } else {
      VarintAtMost(Unsigned(value), 9);
    }
  }
}
