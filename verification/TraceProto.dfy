/**
 The protobuf `AgentPayload` of direct trace intake: its hand-written encoder and a reader for the
 four nested messages, which gets back every span that was encoded.
 */
module TraceProto {
  import opened Prelude
  import opened Grouping
  import opened HexIds
  import opened ProtoWire
  import SpanAttributes

  type AgentSpan = SpanAttributes.AgentSpan

  /** A span as a reader of either trace format sees it. */
  datatype WireSpan = WireSpan(
    service: string,
    name: string,
    resource: string,
    traceId: uint64,
    spanId: uint64,
    parentId: Option<uint64>,
    startNs: int64,
    durationNs: int64,
    error: int,
    meta: map<string, string>,
    metrics: map<string, Double>,
    spanType: string)

  datatype WireChunk = WireChunk(priority: int, spans: seq<WireSpan>)

  datatype WireTracer = WireTracer(language: string, chunks: seq<WireChunk>, env: string, hostname: string)

  datatype WirePayload = WirePayload(hostname: string, env: string, tracers: seq<WireTracer>, agentVersion: string)

  function SpanKey(span: AgentSpan): string {
    TraceKey(span.traceId)
  }

  // ----- what is written -----

  function StringEntry(key: string, value: string): seq<Field> {
    StringField(1, key) + StringField(2, value)
  }

  function DoubleEntry(key: string, value: Double): seq<Field> {
    StringField(1, key) + [Fixed64(2, value)]
  }

  function StringEntries(meta: seq<(string, string)>): seq<string> {
    seq(|meta|, i requires 0 <= i < |meta| => MessageBytes(StringEntry(meta[i].0, meta[i].1)))
  }

  function DoubleEntries(metrics: seq<(string, Double)>): seq<string> {
    seq(|metrics|, i requires 0 <= i < |metrics| => MessageBytes(DoubleEntry(metrics[i].0, metrics[i].1)))
  }

  function ParentField(span: AgentSpan): seq<Field> {
    if span.parentId.Some? then VarintField(6, span.parentId.value) else []
  }

  function ErrorField(span: AgentSpan): seq<Field> {
    if span.error then VarintField(9, 1) else []
  }

  /** The scalar fields that precede the attribute maps. */
  function HeadFields(span: AgentSpan): seq<Field> {
    StringField(1, span.service) + StringField(2, span.name) + StringField(3, span.resource)
    + VarintField(4, span.traceId.low) + VarintField(5, span.spanId)
    + ParentField(span)
    + VarintField(7, Unsigned(span.startNs)) + VarintField(8, Unsigned(span.durationNs))
    + ErrorField(span)
  }

  function SpanFields(span: AgentSpan): seq<Field> {
    HeadFields(span)
    + Repeated(10, StringEntries(SpanAttributes.ResolvedMeta(span)))
    + Repeated(11, DoubleEntries(SpanAttributes.ResolvedMetrics(span)))
    + StringField(12, span.spanType)
  }

  function SpanBytes(span: AgentSpan): string {
    MessageBytes(SpanFields(span))
  }

  function SpanMessages(group: seq<AgentSpan>): seq<string> {
    seq(|group|, i requires 0 <= i < |group| => SpanBytes(group[i]))
  }

  function ChunkFields(group: seq<AgentSpan>): seq<Field> {
    VarintField(1, 1) + Repeated(3, SpanMessages(group))
  }

  function ChunkBytes(group: seq<AgentSpan>): string {
    MessageBytes(ChunkFields(group))
  }

  function ChunkMessages(groups: seq<seq<AgentSpan>>): seq<string> {
    seq(|groups|, i requires 0 <= i < |groups| => ChunkBytes(groups[i]))
  }

  function TracerFields(groups: seq<seq<AgentSpan>>, hostname: string, env: string): seq<Field> {
    StringField(2, "duckdb")
    + Repeated(6, ChunkMessages(groups))
    + StringField(8, env) + StringField(9, hostname)
  }

  function PayloadFields(spans: seq<AgentSpan>, hostname: string, env: string): seq<Field> {
    StringField(1, hostname) + StringField(2, env)
    + [Bytes(5, MessageBytes(TracerFields(GroupBy(spans, SpanKey), hostname, env)))]
    + StringField(7, "duckdb-datadog")
  }

  function PayloadBytes(spans: seq<AgentSpan>, hostname: string, env: string): string {
    MessageBytes(PayloadFields(spans, hostname, env))
  }

  // ----- the encoder -----

  method StringMapEntry(key: string, value: string) returns (entry: string)
    ensures entry == MessageBytes(StringEntry(key, value))
  {
    var out := new ByteString();
    AppendStringField(out, [], 1, key);
    assert [] + StringField(1, key) == StringField(1, key);
    AppendStringField(out, StringField(1, key), 2, value);
    entry := out.bytes;
  }

  method DoubleMapEntry(key: string, value: Double) returns (entry: string)
    ensures entry == MessageBytes(DoubleEntry(key, value))
  {
    var out := new ByteString();
    AppendStringField(out, [], 1, key);
    assert [] + StringField(1, key) == StringField(1, key);
    AppendDoubleField(out, StringField(1, key), 2, value);
    entry := out.bytes;
  }

  method AppendHead(out: ByteString, span: AgentSpan)
    requires out.Holds([])
    modifies out
    ensures out.Holds(HeadFields(span))
  {
    AppendStringField(out, [], 1, span.service);
    ghost var done := [] + StringField(1, span.service);
    assert done == StringField(1, span.service);
    AppendStringField(out, done, 2, span.name);
    done := done + StringField(2, span.name);
    AppendStringField(out, done, 3, span.resource);
    done := done + StringField(3, span.resource);
    AppendVarintField(out, done, 4, span.traceId.low);
    done := done + VarintField(4, span.traceId.low);
    AppendVarintField(out, done, 5, span.spanId);
    done := done + VarintField(5, span.spanId);
    if span.parentId.Some? {
      AppendVarintField(out, done, 6, span.parentId.value);
    }
    assert done + [] == done;
    done := done + ParentField(span);
    AppendInt64Field(out, done, 7, span.startNs);
    done := done + VarintField(7, Unsigned(span.startNs));
    AppendInt64Field(out, done, 8, span.durationNs);
    done := done + VarintField(8, Unsigned(span.durationNs));
    if span.error {
      AppendVarintField(out, done, 9, 1);
    }
    assert done + [] == done;
  }

  method AppendMeta(out: ByteString, ghost done: seq<Field>, meta: seq<(string, string)>)
    requires out.Holds(done)
    modifies out
    ensures out.Holds(done + Repeated(10, StringEntries(meta)))
  {
    ghost var entries := StringEntries(meta);
    assert done + Repeated(10, entries[..0]) == done;
    for i := 0 to |meta|
      invariant out.Holds(done + Repeated(10, entries[..i]))
    {
      var entry := StringMapEntry(meta[i].0, meta[i].1);
      AppendLenDelimited(out, done + Repeated(10, entries[..i]), 10, entry);
      RepeatedSnoc(done, 10, entries, i);
    }
    assert entries[..|meta|] == entries;
  }

  method AppendMetrics(out: ByteString, ghost done: seq<Field>, metrics: seq<(string, Double)>)
    requires out.Holds(done)
    modifies out
    ensures out.Holds(done + Repeated(11, DoubleEntries(metrics)))
  {
    ghost var entries := DoubleEntries(metrics);
    assert done + Repeated(11, entries[..0]) == done;
    for i := 0 to |metrics|
      invariant out.Holds(done + Repeated(11, entries[..i]))
    {
      var entry := DoubleMapEntry(metrics[i].0, metrics[i].1);
      AppendLenDelimited(out, done + Repeated(11, entries[..i]), 11, entry);
      RepeatedSnoc(done, 11, entries, i);
    }
    assert entries[..|metrics|] == entries;
  }

  method EncodeSpan(span: AgentSpan) returns (bytes: string)
    ensures bytes == SpanBytes(span)
  {
    var out := new ByteString();
    AppendHead(out, span);
    ghost var done := HeadFields(span);
    var meta, metrics := SpanAttributes.ResolveDatadogAgentSpanAttributes(span);
    AppendMeta(out, done, meta);
    done := done + Repeated(10, StringEntries(meta));
    AppendMetrics(out, done, metrics);
    done := done + Repeated(11, DoubleEntries(metrics));
    AppendStringField(out, done, 12, span.spanType);
    bytes := out.bytes;
  }

  /** The chunk index maps each key to the position of its group. */
  ghost predicate Indexes(index: map<string, nat>, keys: seq<string>) {
    && (forall k :: k in index <==> k in keys)
    && (forall k :: k in index ==> index[k] < |keys| && keys[index[k]] == k)
  }

  ghost predicate EncodesGroups(chunks: seq<string>, groups: seq<seq<AgentSpan>>) {
    |chunks| == |groups| && forall g :: 0 <= g < |groups| ==> chunks[g] == ChunkBytes(groups[g])
  }

  lemma ChunkFieldsSnoc(group: seq<AgentSpan>, span: AgentSpan)
    ensures ChunkFields(group + [span]) == ChunkFields(group) + [Bytes(3, SpanBytes(span))]
  {
  }

  method AppendToMessage(bytes: string, ghost fields: seq<Field>, number: nat, payload: string) returns (longer: string)
    requires bytes == MessageBytes(fields)
    ensures longer == MessageBytes(fields + [Bytes(number, payload)])
  {
    var out := new ByteString();
    out.bytes := bytes;
    AppendLenDelimited(out, fields, number, payload);
    longer := out.bytes;
  }

  method AppendSpan(chunk: string, ghost group: seq<AgentSpan>, span: AgentSpan) returns (longer: string)
    requires chunk == ChunkBytes(group)
    ensures longer == ChunkBytes(group + [span])
  {
    var encoded := EncodeSpan(span);
    longer := AppendToMessage(chunk, ChunkFields(group), 3, encoded);
    ChunkFieldsSnoc(group, span);
  }

  method NewChunk() returns (chunk: string)
    ensures chunk == ChunkBytes([])
  {
    var out := new ByteString();
    AppendVarintField(out, [], 1, 1);
    assert ChunkFields([]) == [] + VarintField(1, 1);
    chunk := out.bytes;
  }

  /** Where the next span goes, and what that does to the grouping. */
  lemma NextGroup(prefix: seq<AgentSpan>, span: AgentSpan, index: map<string, nat>)
    requires Indexes(index, FirstSeen(prefix, SpanKey))
    ensures var keys, groups, key := FirstSeen(prefix, SpanKey), GroupBy(prefix, SpanKey), SpanKey(span);
            if key in index then
              && index[key] < |groups|
              && FirstSeen(prefix + [span], SpanKey) == keys
              && GroupBy(prefix + [span], SpanKey) == groups[index[key] := groups[index[key]] + [span]]
            else
              && Indexes(index[key := |groups|], keys + [key])
              && FirstSeen(prefix + [span], SpanKey) == keys + [key]
              && GroupBy(prefix + [span], SpanKey) == groups + [[] + [span]]
  {
    GroupBySnoc(prefix, span, SpanKey);
    assert [] + [span] == [span];
  }

  method EncodeChunks(spans: seq<AgentSpan>) returns (chunks: seq<string>, traceCount: nat)
    ensures EncodesGroups(chunks, GroupBy(spans, SpanKey)) && traceCount == |chunks|
  {
    chunks := [];
    traceCount := 0;
    var chunkByTrace: map<string, nat> := map[];
    for i := 0 to |spans|
      invariant Indexes(chunkByTrace, FirstSeen(spans[..i], SpanKey))
      invariant EncodesGroups(chunks, GroupBy(spans[..i], SpanKey)) && traceCount == |chunks|
    {
      var span := spans[i];
      ghost var groups := GroupBy(spans[..i], SpanKey);
      assert spans[..i + 1] == spans[..i] + [span];
      NextGroup(spans[..i], span, chunkByTrace);
      var traceKey := TraceKey(span.traceId);
      var chunkIndex: nat;
      if traceKey !in chunkByTrace {
        chunkIndex := |chunks|;
        var chunk := NewChunk();
        chunks := chunks + [chunk];
        chunkByTrace := chunkByTrace[traceKey := chunkIndex];
        traceCount := traceCount + 1;
        groups := groups + [[]];
      } else {
        chunkIndex := chunkByTrace[traceKey];
      }
      var longer := AppendSpan(chunks[chunkIndex], groups[chunkIndex], span);
      chunks := chunks[chunkIndex := longer];
    }
    assert spans[..|spans|] == spans;
  }

  method EncodeTracer(chunks: seq<string>, ghost groups: seq<seq<AgentSpan>>, hostname: string, env: string)
    returns (bytes: string)
    requires EncodesGroups(chunks, groups)
    ensures bytes == MessageBytes(TracerFields(groups, hostname, env))
  {
    var out := new ByteString();
    AppendStringField(out, [], 2, "duckdb");
    ghost var head, messages := StringField(2, "duckdb"), ChunkMessages(groups);
    assert [] + head == head;
    assert head + Repeated(6, messages[..0]) == head;
    for i := 0 to |chunks|
      invariant out.Holds(head + Repeated(6, messages[..i]))
    {
      AppendLenDelimited(out, head + Repeated(6, messages[..i]), 6, chunks[i]);
      RepeatedSnoc(head, 6, messages, i);
    }
    assert messages[..|chunks|] == messages;
    head := head + Repeated(6, messages);
    AppendStringField(out, head, 8, env);
    AppendStringField(out, head + StringField(8, env), 9, hostname);
    bytes := out.bytes;
  }

  method EncodeDatadogAgentPayload(spans: seq<AgentSpan>, hostname: string, env: string)
    returns (bytes: string, traceCount: nat)
    ensures bytes == PayloadBytes(spans, hostname, env)
    ensures traceCount == |GroupBy(spans, SpanKey)|
  {
    var chunks;
    chunks, traceCount := EncodeChunks(spans);
    var tracer := EncodeTracer(chunks, GroupBy(spans, SpanKey), hostname, env);
    var out := new ByteString();
    AppendStringField(out, [], 1, hostname);
    ghost var done := StringField(1, hostname);
    assert [] + done == done;
    AppendStringField(out, done, 2, env);
    done := done + StringField(2, env);
    AppendLenDelimited(out, done, 5, tracer);
    done := done + [Bytes(5, tracer)];
    AppendStringField(out, done, 7, "duckdb-datadog");
    bytes := out.bytes;
  }
}
