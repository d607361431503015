/**
 The JSON body sent to a Datadog Agent, a reader for it, and the proof that the agent and the
 direct mode deliver the same traces.
 */
module AgentBody {
  import opened Prelude
  import opened Folds
  import opened Grouping
  import opened HexIds
  import opened Json
  import opened TraceProto
  import opened TraceReader
  import ProtoWire
  import SpanAttributes

  // ----- what is written -----

  function MetaMembers(meta: seq<(string, string)>): Members {
    seq(|meta|, i requires 0 <= i < |meta| => (meta[i].0, Str(meta[i].1)))
  }

  function MetricMembers(metrics: seq<(string, Double)>): Members {
    seq(|metrics|, i requires 0 <= i < |metrics| => (metrics[i].0, Real(metrics[i].1)))
  }

  function ParentMember(span: AgentSpan): Members {
    if span.parentId.Some? then [("parent_id", Int(span.parentId.value))] else []
  }

  function ErrorMember(span: AgentSpan): Members {
    if span.error then [("error", Int(1))] else []
  }

  /** An object-valued member that is left out when it would be empty. */
  function ObjectMember(key: string, members: Members): Members {
    if members == [] then [] else [(key, Obj(members))]
  }

  function IdMembers(span: AgentSpan): Members {
    [("trace_id", Int(span.traceId.low)), ("span_id", Int(span.spanId))] + ParentMember(span)
  }

  function TextMembers(span: AgentSpan): Members {
    StringMember("service", span.service) + StringMember("name", span.name)
    + StringMember("resource", span.resource) + StringMember("type", span.spanType)
  }

  function TimeMembers(span: AgentSpan): Members {
    [("start", Int(span.startNs)), ("duration", Int(span.durationNs))] + ErrorMember(span)
  }

  function AttributeMembers(span: AgentSpan): Members {
    ObjectMember("meta", MetaMembers(SpanAttributes.ResolvedMeta(span)))
    + ObjectMember("metrics", MetricMembers(SpanAttributes.ResolvedMetrics(span)))
  }

  function SpanObject(span: AgentSpan): Json {
    Obj(IdMembers(span) + TextMembers(span) + TimeMembers(span) + AttributeMembers(span))
  }

  function TraceArray(group: seq<AgentSpan>): seq<Json> {
    seq(|group|, i requires 0 <= i < |group| => SpanObject(group[i]))
  }

  function TraceArrays(groups: seq<seq<AgentSpan>>): seq<Json> {
    seq(|groups|, i requires 0 <= i < |groups| => Arr(TraceArray(groups[i])))
  }

  function TracesBody(spans: seq<AgentSpan>): Json {
    Arr(TraceArrays(GroupBy(spans, SpanKey)))
  }

  // ----- the builder -----

  method BuildTextMembers(span: AgentSpan) returns (obj: Members)
    ensures obj == TextMembers(span)
  {
    obj := [];
    if span.service != "" {
      obj := obj + [("service", Str(span.service))];
    }
    if span.name != "" {
      obj := obj + [("name", Str(span.name))];
    }
    if span.resource != "" {
      obj := obj + [("resource", Str(span.resource))];
    }
    if span.spanType != "" {
      obj := obj + [("type", Str(span.spanType))];
    }
  }

  method BuildAttributeMembers(span: AgentSpan) returns (obj: Members)
    ensures obj == AttributeMembers(span)
  {
    obj := [];
    var resolvedMeta, resolvedMetrics := SpanAttributes.ResolveDatadogAgentSpanAttributes(span);
    if resolvedMeta != [] {
      var meta: Members := [];
      for i := 0 to |resolvedMeta|
        invariant meta == MetaMembers(resolvedMeta[..i])
      {
        meta := meta + [(resolvedMeta[i].0, Str(resolvedMeta[i].1))];
      }
      assert resolvedMeta[..|resolvedMeta|] == resolvedMeta;
      obj := obj + [("meta", Obj(meta))];
    }
    assert obj == ObjectMember("meta", MetaMembers(resolvedMeta));
    if resolvedMetrics != [] {
      var metrics: Members := [];
      for i := 0 to |resolvedMetrics|
        invariant metrics == MetricMembers(resolvedMetrics[..i])
      {
        metrics := metrics + [(resolvedMetrics[i].0, Real(resolvedMetrics[i].1))];
      }
      assert resolvedMetrics[..|resolvedMetrics|] == resolvedMetrics;
      obj := obj + [("metrics", Obj(metrics))];
    }
  }

  method BuildSpanObject(span: AgentSpan) returns (r: Json)
    ensures r == SpanObject(span)
  {
    var obj: Members := [];
    obj := obj + [("trace_id", Int(span.traceId.low))];
    obj := obj + [("span_id", Int(span.spanId))];
    if span.parentId.Some? {
      obj := obj + [("parent_id", Int(span.parentId.value))];
    }
    assert obj == IdMembers(span);
    var texts := BuildTextMembers(span);
    obj := obj + texts;
    obj := obj + [("start", Int(span.startNs))];
    obj := obj + [("duration", Int(span.durationNs))];
    if span.error {
      obj := obj + [("error", Int(1))];
    }
    assert obj == IdMembers(span) + TextMembers(span) + TimeMembers(span);
    var attributes := BuildAttributeMembers(span);
    r := Obj(obj + attributes);
  }

  ghost predicate HoldsGroups(traces: seq<seq<Json>>, groups: seq<seq<AgentSpan>>) {
    |traces| == |groups| && forall g :: 0 <= g < |groups| ==> traces[g] == TraceArray(groups[g])
  }

  lemma TraceArraySnoc(group: seq<AgentSpan>, span: AgentSpan)
    ensures TraceArray(group + [span]) == TraceArray(group) + [SpanObject(span)]
  {
  }

  method AppendSpanObject(trace: seq<Json>, ghost group: seq<AgentSpan>, span: AgentSpan) returns (longer: seq<Json>)
    requires trace == TraceArray(group)
    ensures longer == TraceArray(group + [span])
  {
    var obj := BuildSpanObject(span);
    TraceArraySnoc(group, span);
    longer := trace + [obj];
  }

  lemma HoldsLonger(traces: seq<seq<Json>>, groups: seq<seq<AgentSpan>>, g: nat, longer: seq<Json>, span: AgentSpan)
    requires HoldsGroups(traces, groups) && g < |groups| && longer == TraceArray(groups[g] + [span])
    ensures HoldsGroups(traces[g := longer], groups[g := groups[g] + [span]])
  {
  }

  /** The array a trace key maps to is modelled by its position among the traces. */
  method BuildTraceArrays(spans: seq<AgentSpan>) returns (traces: seq<seq<Json>>, traceCount: nat)
    ensures HoldsGroups(traces, GroupBy(spans, SpanKey)) && traceCount == |traces|
  {
    traces := [];
    traceCount := 0;
    var traceArrays: map<string, nat> := map[];
    for i := 0 to |spans|
      invariant Indexes(traceArrays, FirstSeen(spans[..i], SpanKey))
      invariant HoldsGroups(traces, GroupBy(spans[..i], SpanKey)) && traceCount == |traces|
    {
      var span := spans[i];
      ghost var groups := GroupBy(spans[..i], SpanKey);
      assert spans[..i + 1] == spans[..i] + [span];
      NextGroup(spans[..i], span, traceArrays);
      var traceKey := TraceKey(span.traceId);
      var trace: nat;
      if traceKey !in traceArrays {
        trace := |traces|;
        traces := traces + [[]];
        traceArrays := traceArrays[traceKey := trace];
        traceCount := traceCount + 1;
        groups := groups + [[]];
      } else {
        trace := traceArrays[traceKey];
      }
      var longer := AppendSpanObject(traces[trace], groups[trace], span);
      HoldsLonger(traces, groups, trace, longer, span);
      assert groups[trace := groups[trace] + [span]] == GroupBy(spans[..i + 1], SpanKey);
      traces := traces[trace := longer];
    }
    assert spans[..|spans|] == spans;
  }

  method BuildDatadogAgentTracesBody(spans: seq<AgentSpan>) returns (body: Json, traceCount: nat)
    ensures body == TracesBody(spans)
    ensures traceCount == |GroupBy(spans, SpanKey)|
  {
    var traces;
    traces, traceCount := BuildTraceArrays(spans);
    body := Arr(seq(|traces|, i requires 0 <= i < |traces| => Arr(traces[i])));
    assert body.items == TraceArrays(GroupBy(spans, SpanKey));
  }

  // ----- the reader -----

  function ApplyMetaMember(m: map<string, string>, member: (string, Json)): Option<map<string, string>> {
    if member.1.Str? then Some(m[member.0 := member.1.text]) else None
  }

  function ApplyMetricMember(m: map<string, Double>, member: (string, Json)): Option<map<string, Double>> {
    if member.1.Real? then Some(m[member.0 := member.1.bits]) else None
  }

  function ApplyIntMember(span: WireSpan, key: string, value: int): Option<WireSpan> {
    if key == "trace_id" then if 0 <= value < TWO_64 then Some(span.(traceId := value)) else None
    else if key == "span_id" then if 0 <= value < TWO_64 then Some(span.(spanId := value)) else None
    else if key == "parent_id" then if 0 <= value < TWO_64 then Some(span.(parentId := Some(value))) else None
    else if key == "start" then if FitsInt64(value) then Some(span.(startNs := value)) else None
    else if key == "duration" then if FitsInt64(value) then Some(span.(durationNs := value)) else None
    else if key == "error" then Some(span.(error := value))
    else None
  }

  function ApplyTextMember(span: WireSpan, key: string, text: string): Option<WireSpan> {
    if key == "service" then Some(span.(service := text))
    else if key == "name" then Some(span.(name := text))
    else if key == "resource" then Some(span.(resource := text))
    else if key == "type" then Some(span.(spanType := text))
    else None
  }

  function ApplyObjectMember(span: WireSpan, key: string, members: Members): Option<WireSpan> {
    if key == "meta" then
      match Fold(ApplyMetaMember, map[], members)
      case Some(meta) => Some(span.(meta := meta))
      case None => None
    else if key == "metrics" then
      match Fold(ApplyMetricMember, map[], members)
      case Some(metrics) => Some(span.(metrics := metrics))
      case None => None
    else None
  }

  /** One member of a span object; an unknown key or a wrong type is an error. */
  function ApplyMember(span: WireSpan, member: (string, Json)): Option<WireSpan> {
    match member.1
    case Int(value) => ApplyIntMember(span, member.0, value)
    case Str(text) => ApplyTextMember(span, member.0, text)
    case Obj(members) => ApplyObjectMember(span, member.0, members)
    case _ => None
  }

  function ReadSpanObject(value: Json): Option<WireSpan> {
    if value.Obj? then Fold(ApplyMember, EMPTY_SPAN, value.members) else None
  }

  function ApplyTraceSpan(trace: seq<WireSpan>, value: Json): Option<seq<WireSpan>> {
    match ReadSpanObject(value)
    case Some(span) => Some(trace + [span])
    case None => None
  }

  function ApplyTrace(traces: seq<seq<WireSpan>>, value: Json): Option<seq<seq<WireSpan>>> {
    if !value.Arr? then None
    else
      match Fold(ApplyTraceSpan, [], value.items)
      case Some(trace) => Some(traces + [trace])
      case None => None
  }

  function ReadTracesBody(body: Json): Option<seq<seq<WireSpan>>> {
    if body.Arr? then Fold(ApplyTrace, [], body.items) else None
  }

  // ----- reading back -----

  /** Unlike the protobuf payload, the object shows a parent id whenever there is one. */
  function ReadSpan(span: AgentSpan): WireSpan {
    Delivered(span).(parentId := span.parentId)
  }

  function ReadGroup(group: seq<AgentSpan>): seq<WireSpan> {
    seq(|group|, i requires 0 <= i < |group| => ReadSpan(group[i]))
  }

  function ReadGroups(groups: seq<seq<AgentSpan>>): seq<seq<WireSpan>> {
    seq(|groups|, i requires 0 <= i < |groups| => ReadGroup(groups[i]))
  }

  lemma FoldMetaMembers(meta: seq<(string, string)>)
    ensures Fold(ApplyMetaMember, map[], MetaMembers(meta)) == Some(Merged(map[], meta))
  {
    var states := seq(|meta| + 1, i requires 0 <= i <= |meta| => Merged(map[], meta[..i]));
    forall i | 0 <= i < |meta|
      ensures ApplyMetaMember(states[i], MetaMembers(meta)[i]) == Some(states[i + 1])
    {
      MergedSnoc(map[], meta, i);
    }
    FoldThrough(ApplyMetaMember, MetaMembers(meta), states);
    assert meta[..|meta|] == meta;
  }

  lemma FoldMetricMembers(metrics: seq<(string, Double)>)
    ensures Fold(ApplyMetricMember, map[], MetricMembers(metrics)) == Some(Merged(map[], metrics))
  {
    var states := seq(|metrics| + 1, i requires 0 <= i <= |metrics| => Merged(map[], metrics[..i]));
    forall i | 0 <= i < |metrics|
      ensures ApplyMetricMember(states[i], MetricMembers(metrics)[i]) == Some(states[i + 1])
    {
      MergedSnoc(map[], metrics, i);
    }
    FoldThrough(ApplyMetricMember, MetricMembers(metrics), states);
    assert metrics[..|metrics|] == metrics;
  }

  lemma FoldTextMember(before: WireSpan, after: WireSpan, key: string, text: string)
    requires ApplyTextMember(before, key, text) == Some(after)
    requires text == "" ==> before == after
    ensures Fold(ApplyMember, before, StringMember(key, text)) == Some(after)
  {
    FoldOne(ApplyMember, before, (key, Str(text)));
  }

  lemma FoldIntMember(before: WireSpan, after: WireSpan, key: string, value: int)
    requires ApplyIntMember(before, key, value) == Some(after)
    ensures Fold(ApplyMember, before, [(key, Int(value))]) == Some(after)
  {
    FoldOne(ApplyMember, before, (key, Int(value)));
  }

  lemma FoldIds(span: AgentSpan)
    ensures Fold(ApplyMember, EMPTY_SPAN, IdMembers(span)) ==
            Some(EMPTY_SPAN.(traceId := span.traceId.low, spanId := span.spanId, parentId := span.parentId))
  {
    var s1 := EMPTY_SPAN.(traceId := span.traceId.low);
    var s2 := s1.(spanId := span.spanId);
    var m1, m2 := [("trace_id", Int(span.traceId.low))], [("span_id", Int(span.spanId))];
    FoldIntMember(EMPTY_SPAN, s1, "trace_id", span.traceId.low);
    FoldIntMember(s1, s2, "span_id", span.spanId);
    FoldThen(ApplyMember, EMPTY_SPAN, s1, s2, m1, m2);
    var s3 := s2.(parentId := span.parentId);
    if span.parentId.Some? {
      FoldIntMember(s2, s3, "parent_id", span.parentId.value);
    }
    FoldThen(ApplyMember, EMPTY_SPAN, s2, s3, m1 + m2, ParentMember(span));
    assert m1 + m2 + ParentMember(span) == IdMembers(span);
  }

  lemma FoldTexts(s0: WireSpan, span: AgentSpan)
    requires s0.service == s0.name == s0.resource == s0.spanType == ""
    ensures Fold(ApplyMember, s0, TextMembers(span)) ==
            Some(s0.(service := span.service, name := span.name, resource := span.resource, spanType := span.spanType))
  {
    var m1, m2 := StringMember("service", span.service), StringMember("name", span.name);
    var m3, m4 := StringMember("resource", span.resource), StringMember("type", span.spanType);
    var s1 := s0.(service := span.service);
    FoldTextMember(s0, s1, "service", span.service);
    var s2 := s1.(name := span.name);
    FoldTextMember(s1, s2, "name", span.name);
    FoldThen(ApplyMember, s0, s1, s2, m1, m2);
    var s3 := s2.(resource := span.resource);
    FoldTextMember(s2, s3, "resource", span.resource);
    FoldThen(ApplyMember, s0, s2, s3, m1 + m2, m3);
    var s4 := s3.(spanType := span.spanType);
    FoldTextMember(s3, s4, "type", span.spanType);
    FoldThen(ApplyMember, s0, s3, s4, m1 + m2 + m3, m4);
  }

  lemma FoldTimes(s0: WireSpan, span: AgentSpan)
    requires s0.error == 0
    ensures Fold(ApplyMember, s0, TimeMembers(span)) ==
            Some(s0.(startNs := span.startNs, durationNs := span.durationNs, error := if span.error then 1 else 0))
  {
    var m1, m2 := [("start", Int(span.startNs))], [("duration", Int(span.durationNs))];
    var s1 := s0.(startNs := span.startNs);
    FoldIntMember(s0, s1, "start", span.startNs);
    var s2 := s1.(durationNs := span.durationNs);
    FoldIntMember(s1, s2, "duration", span.durationNs);
    FoldThen(ApplyMember, s0, s1, s2, m1, m2);
    var s3 := s2.(error := if span.error then 1 else 0);
    if span.error {
      FoldIntMember(s2, s3, "error", 1);
    }
    FoldThen(ApplyMember, s0, s2, s3, m1 + m2, ErrorMember(span));
    assert m1 + m2 + ErrorMember(span) == TimeMembers(span);
  }

  lemma FoldAttributes(s0: WireSpan, meta: seq<(string, string)>, metrics: seq<(string, Double)>)
    requires s0.meta == map[] && s0.metrics == map[]
    ensures Fold(ApplyMember, s0, ObjectMember("meta", MetaMembers(meta))
                                  + ObjectMember("metrics", MetricMembers(metrics)))
         == Some(s0.(meta := Merged(map[], meta), metrics := Merged(map[], metrics)))
  {
    var s1 := s0.(meta := Merged(map[], meta));
    FoldMetaMembers(meta);
    FoldOne(ApplyMember, s0, ("meta", Obj(MetaMembers(meta))));
    var s2 := s1.(metrics := Merged(map[], metrics));
    FoldMetricMembers(metrics);
    FoldOne(ApplyMember, s1, ("metrics", Obj(MetricMembers(metrics))));
    FoldThen(ApplyMember, s0, s1, s2, ObjectMember("meta", MetaMembers(meta)),
             ObjectMember("metrics", MetricMembers(metrics)));
  }

  lemma SpanObjectRoundTrip(span: AgentSpan)
    ensures ReadSpanObject(SpanObject(span)) == Some(ReadSpan(span))
  {
    var s1 := EMPTY_SPAN.(traceId := span.traceId.low, spanId := span.spanId, parentId := span.parentId);
    FoldIds(span);
    var s2 := s1.(service := span.service, name := span.name, resource := span.resource, spanType := span.spanType);
    FoldTexts(s1, span);
    FoldThen(ApplyMember, EMPTY_SPAN, s1, s2, IdMembers(span), TextMembers(span));
    var s3 := s2.(startNs := span.startNs, durationNs := span.durationNs, error := if span.error then 1 else 0);
    FoldTimes(s2, span);
    FoldThen(ApplyMember, EMPTY_SPAN, s2, s3, IdMembers(span) + TextMembers(span), TimeMembers(span));
    FoldAttributes(s3, SpanAttributes.ResolvedMeta(span), SpanAttributes.ResolvedMetrics(span));
    FoldThen(ApplyMember, EMPTY_SPAN, s3, ReadSpan(span),
             IdMembers(span) + TextMembers(span) + TimeMembers(span), AttributeMembers(span));
  }

  lemma NextTraceSpan(trace: seq<WireSpan>, span: AgentSpan)
    ensures ApplyTraceSpan(trace, SpanObject(span)) == Some(trace + [ReadSpan(span)])
  {
    SpanObjectRoundTrip(span);
  }

  lemma TraceArrayRoundTrip(group: seq<AgentSpan>)
    ensures Fold(ApplyTraceSpan, [], TraceArray(group)) == Some(ReadGroup(group))
  {
    var spans := ReadGroup(group);
    var states := seq(|spans| + 1, i requires 0 <= i <= |spans| => spans[..i]);
    forall i | 0 <= i < |group|
      ensures ApplyTraceSpan(states[i], TraceArray(group)[i]) == Some(states[i + 1])
    {
      NextTraceSpan(spans[..i], group[i]);
      PrefixSnoc(spans, i);
    }
    FoldThrough(ApplyTraceSpan, TraceArray(group), states);
    assert spans[..|spans|] == spans;
  }

  /** Every trace and every span of the JSON body is read back, in order. */
  lemma TracesBodyRoundTrip(spans: seq<AgentSpan>)
    ensures ReadTracesBody(TracesBody(spans)) == Some(ReadGroups(GroupBy(spans, SpanKey)))
  {
    var groups := GroupBy(spans, SpanKey);
    var traces := ReadGroups(groups);
    var states := seq(|traces| + 1, i requires 0 <= i <= |traces| => traces[..i]);
    forall i | 0 <= i < |groups|
      ensures ApplyTrace(states[i], TraceArrays(groups)[i]) == Some(states[i + 1])
    {
      TraceArrayRoundTrip(groups[i]);
      PrefixSnoc(traces, i);
    }
    FoldThrough(ApplyTrace, TraceArrays(groups), states);
    assert traces[..|traces|] == traces;
  }

  // ----- agreement of the two modes -----

  /** The traces a reader finds in the protobuf payload. */
  function PayloadTraces(p: WirePayload): seq<seq<WireSpan>> {
    if |p.tracers| != 1 then []
    else seq(|p.tracers[0].chunks|, i requires 0 <= i < |p.tracers[0].chunks| => p.tracers[0].chunks[i].spans)
  }

  /** Every parent id that is present is non-zero. */
  predicate ParentsNonZero(spans: seq<AgentSpan>) {
    forall i :: 0 <= i < |spans| ==> spans[i].parentId != Some(0)
  }

  function DeliveredGroups(groups: seq<seq<AgentSpan>>): seq<seq<WireSpan>> {
    seq(|groups|, i requires 0 <= i < |groups| => DeliveredGroup(groups[i]))
  }

  lemma GroupsAgreeIff(spans: seq<AgentSpan>)
    ensures ReadGroups(GroupBy(spans, SpanKey)) == DeliveredGroups(GroupBy(spans, SpanKey)) <==> ParentsNonZero(spans)
  {
    var groups := GroupBy(spans, SpanKey);
    if ParentsNonZero(spans) {
      forall g | 0 <= g < |groups|
        ensures ReadGroup(groups[g]) == DeliveredGroup(groups[g])
      {
        forall j | 0 <= j < |groups[g]|
          ensures ReadSpan(groups[g][j]) == Delivered(groups[g][j])
        {
          GroupMembers(spans, SpanKey, g, groups[g][j]);
        }
      }
    }
    if ReadGroups(groups) == DeliveredGroups(groups) {
      forall i | 0 <= i < |spans|
        ensures spans[i].parentId != Some(0)
      {
        SameGroupIffSameKey(spans, SpanKey, i, i);
        var g :| 0 <= g < |groups| && spans[i] in groups[g];
        var j :| 0 <= j < |groups[g]| && groups[g][j] == spans[i];
        assert ReadGroups(groups)[g][j] == DeliveredGroups(groups)[g][j];
        assert ReadSpan(spans[i]) == Delivered(spans[i]);
      }
    }
  }

  /**
   The two modes deliver the same traces, spans, meta and metrics in the same order exactly when no
   span carries a present but zero parent id: the JSON body shows such an id, the payload drops it.
   */
  lemma ModesAgreeIff(spans: seq<AgentSpan>, hostname: string, env: string)
    requires |PayloadBytes(spans, hostname, env)| < TWO_64
    ensures ReadAgentPayload(PayloadBytes(spans, hostname, env)).Some?
    ensures ReadTracesBody(TracesBody(spans)) ==
            Some(PayloadTraces(ReadAgentPayload(PayloadBytes(spans, hostname, env)).value))
            <==> ParentsNonZero(spans)
  {
    PayloadRoundTrip(spans, hostname, env);
    TracesBodyRoundTrip(spans);
    var groups := GroupBy(spans, SpanKey);
    assert PayloadTraces(DeliveredPayload(spans, hostname, env)) == DeliveredGroups(groups);
    GroupsAgreeIff(spans);
  }
}
