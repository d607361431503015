/**
 Any number of threads starting and stopping intake servers. `Start` runs under the registry lock as a
 whole; `Stop` and `StopAll` remove under the lock and close afterwards, so removing and closing are
 separate steps.
 */
module RegistryProtocol {
  import opened Prelude
  import opened ListenerRegistry
  import opened ListenUri
  import Text

  /** A server, its key, and its history: the thread that removed it, and the threads that closed it. */
  datatype Server = Server(uri: Listener, key: string, config: Config, remover: Option<nat>, closers: seq<nat>)

  /** `toClose[t]` are the servers that thread `t` removed and has not closed yet. */
  datatype State = State(registry: map<string, nat>, servers: seq<Server>, toClose: seq<seq<nat>>)

  datatype Step =
    | Start(uri: Listener, config: Config, binds: bool)
    | Remove(thread: nat, key: string)
    | RemoveAll(thread: nat, order: seq<nat>)
    | CloseNext(thread: nat)

  datatype StartResult = Reused(server: nat) | Created(server: nat) | Failed(error: StartError)

  /** `order` lists the registered servers, each once, in whatever order the hash map iterates. */
  ghost predicate Lists(s: State, order: seq<nat>) {
    && Distinct(order)
    && (forall id :: id in order <==> id in s.registry.Values)
  }

  ghost predicate Enabled(s: State, step: Step) {
    match step
    case Start(uri, _, _) => ListenUri.Valid(uri)
    case Remove(t, key) => t < |s.toClose| && s.toClose[t] == [] && key in s.registry
    case RemoveAll(t, order) => t < |s.toClose| && s.toClose[t] == [] && Lists(s, order)
    case CloseNext(t) => t < |s.toClose| && s.toClose[t] != []
  }

  /** The options of the server registered under a key. */
  function Current(s: State, key: string): Option<Config> {
    if key in s.registry && s.registry[key] < |s.servers| then Some(s.servers[s.registry[key]].config) else None
  }

  function StartOutcome(s: State, uri: Listener, config: Config, binds: bool): StartResult {
    var key := Canonical(uri);
    match Decide(Current(s, key), uri, config, binds)
    case Reuse => if key in s.registry then Reused(s.registry[key]) else Failed(Refused)
    case Create => Created(|s.servers|)
    case Refuse(error) => Failed(error)
  }

  function Mark(servers: seq<Server>, ids: seq<nat>, thread: nat): (marked: seq<Server>)
    ensures |marked| == |servers|
  {
    seq(|servers|, i requires 0 <= i < |servers| =>
      if i in ids then servers[i].(remover := Some(thread)) else servers[i])
  }

  function WithServer(s: State, uri: Listener, config: Config): State {
    s.(registry := s.registry[Canonical(uri) := |s.servers|],
       servers := s.servers + [Server(uri, Canonical(uri), config, None, [])])
  }

  /** The state after thread `t` took these servers out of the registry. */
  function TakenOut(s: State, registry: map<string, nat>, ids: seq<nat>, t: nat): State
    requires t < |s.toClose|
  {
    State(registry, Mark(s.servers, ids, t), s.toClose[t := ids])
  }

  function Apply(s: State, step: Step): State
    requires Enabled(s, step)
  {
    match step
    case Start(uri, config, binds) =>
      if StartOutcome(s, uri, config, binds).Created? then
        WithServer(s, uri, config)
      else s
    case Remove(t, key) =>
      TakenOut(s, s.registry - {key}, [s.registry[key]], t)
    case RemoveAll(t, order) =>
      TakenOut(s, map[], order, t)
    case CloseNext(t) =>
      var id := s.toClose[t][0];
      s.(servers := if id < |s.servers| then s.servers[id := s.servers[id].(closers := s.servers[id].closers + [t])]
                    else s.servers,
         toClose := s.toClose[t := s.toClose[t][1..]])
  }

  // ----- the invariant -----

  /** A server is registered until removed, then waits with its remover until that thread closes it. */
  ghost predicate ServerInv(s: State, id: nat)
    requires id < |s.servers|
  {
    var server := s.servers[id];
    match server.remover
    case None => server.key in s.registry && s.registry[server.key] == id && server.closers == []
    case Some(t) => t < |s.toClose| && server.closers == if id in s.toClose[t] then [] else [t]
  }

  ghost predicate ServersInv(s: State) {
    forall id :: 0 <= id < |s.servers| ==> ServerInv(s, id)
  }

  ghost predicate RegistryInv(s: State) {
    forall key :: key in s.registry ==>
      && s.registry[key] < |s.servers|
      && s.servers[s.registry[key]].key == key
      && s.servers[s.registry[key]].remover == None
  }

  /** A thread's list holds servers it removed, each once. */
  ghost predicate ListInv(s: State, t: nat)
    requires t < |s.toClose|
  {
    && Distinct(s.toClose[t])
    && forall id :: id in s.toClose[t] ==> id < |s.servers| && s.servers[id].remover == Some(t)
  }

  ghost predicate ListsInv(s: State) {
    forall t :: 0 <= t < |s.toClose| ==> ListInv(s, t)
  }

  ghost predicate KeysInv(s: State) {
    forall id :: 0 <= id < |s.servers| ==>
      ListenUri.Valid(s.servers[id].uri) && s.servers[id].key == Canonical(s.servers[id].uri)
  }

  ghost predicate Inv(s: State) {
    ServersInv(s) && RegistryInv(s) && ListsInv(s) && KeysInv(s)
  }

  lemma StartPreserves(s: State, uri: Listener, config: Config)
    requires ListenUri.Valid(uri) && Canonical(uri) !in s.registry && Inv(s)
    ensures Inv(WithServer(s, uri, config))
  {
    var t := WithServer(s, uri, config);
    forall id | 0 <= id < |t.servers|
      ensures ServerInv(t, id)
    {
      if id < |s.servers| {
        assert ServerInv(s, id);
      }
    }
    assert RegistryInv(t);
    forall u | 0 <= u < |t.toClose|
      ensures ListInv(t, u)
    {
      assert ListInv(s, u);
    }
    assert KeysInv(t);
  }

  /** A server is registered exactly when it was not removed. */
  lemma RegisteredIff(s: State, id: nat)
    requires Inv(s)
    ensures id in s.registry.Values <==> id < |s.servers| && s.servers[id].remover == None
  {
    if id in s.registry.Values {
      var key :| key in s.registry && s.registry[key] == id;
    }
    if id < |s.servers| && s.servers[id].remover == None {
      assert ServerInv(s, id);
      assert s.registry[s.servers[id].key] in s.registry.Values;
    }
  }

  /** These are registered servers, and `registry` is what is left without them. */
  ghost predicate Leaves(s: State, registry: map<string, nat>, ids: seq<nat>, t: nat) {
    && t < |s.toClose| && s.toClose[t] == [] && Distinct(ids)
    && (forall id :: id in ids ==> id < |s.servers| && s.servers[id].remover == None)
    && (forall key :: key in registry <==> key in s.registry && s.registry[key] !in ids)
    && forall key :: key in registry ==> registry[key] == s.registry[key]
  }

  lemma TakeOutServer(s: State, registry: map<string, nat>, ids: seq<nat>, t: nat, id: nat)
    requires Inv(s) && Leaves(s, registry, ids, t) && id < |s.servers|
    ensures ServerInv(TakenOut(s, registry, ids, t), id)
  {
    assert ServerInv(s, id);
  }

  lemma TakeOutRegistry(s: State, registry: map<string, nat>, ids: seq<nat>, t: nat)
    requires RegistryInv(s) && Leaves(s, registry, ids, t)
    ensures RegistryInv(TakenOut(s, registry, ids, t))
  {
  }

  lemma TakeOutList(s: State, registry: map<string, nat>, ids: seq<nat>, t: nat, u: nat)
    requires ListsInv(s) && Leaves(s, registry, ids, t) && u < |s.toClose|
    ensures ListInv(TakenOut(s, registry, ids, t), u)
  {
    assert ListInv(s, u);
  }

  /** Taking out registered servers, and just those, keeps the invariant. */
  lemma TakeOutPreserves(s: State, registry: map<string, nat>, ids: seq<nat>, t: nat)
    requires Inv(s) && Leaves(s, registry, ids, t)
    ensures Inv(TakenOut(s, registry, ids, t))
  {
    var after := TakenOut(s, registry, ids, t);
    forall id | 0 <= id < |after.servers|
      ensures ServerInv(after, id)
    {
      TakeOutServer(s, registry, ids, t, id);
    }
    TakeOutRegistry(s, registry, ids, t);
    forall u | 0 <= u < |after.toClose|
      ensures ListInv(after, u)
    {
      TakeOutList(s, registry, ids, t, u);
    }
    assert KeysInv(after);
  }

  lemma RemovePreserves(s: State, t: nat, key: string)
    requires Enabled(s, Remove(t, key)) && Inv(s)
    ensures Inv(Apply(s, Remove(t, key)))
  {
    var id := s.registry[key];
    assert id in s.registry.Values;
    RegisteredIff(s, id);
    assert Leaves(s, s.registry - {key}, [id], t);
    TakeOutPreserves(s, s.registry - {key}, [id], t);
  }

  lemma RemoveAllPreserves(s: State, t: nat, order: seq<nat>)
    requires Enabled(s, RemoveAll(t, order)) && Inv(s)
    ensures Inv(Apply(s, RemoveAll(t, order)))
  {
    forall key | key in s.registry
      ensures s.registry[key] in order
    {
      assert s.registry[key] in s.registry.Values;
    }
    forall id | id in order
      ensures id < |s.servers| && s.servers[id].remover == None
    {
      RegisteredIff(s, id);
    }
    TakeOutPreserves(s, map[], order, t);
  }

  lemma TailOfList(ids: seq<nat>)
    requires Distinct(ids) && ids != []
    ensures Distinct(ids[1..]) && ids[0] !in ids[1..]
    ensures forall id :: id in ids <==> id == ids[0] || id in ids[1..]
  {
    assert ids == [ids[0]] + ids[1..];
    forall i, j | 0 <= i < j < |ids[1..]|
      ensures ids[1..][i] != ids[1..][j]
    {
      assert ids[i + 1] != ids[j + 1];
    }
    forall i | 0 <= i < |ids[1..]|
      ensures ids[1..][i] != ids[0]
    {
      assert ids[i + 1] != ids[0];
    }
  }

  lemma ClosePreserves(s: State, step: Step)
    requires step.CloseNext? && Enabled(s, step) && Inv(s)
    ensures Inv(Apply(s, step))
  {
    var t := Apply(s, step);
    var mine := s.toClose[step.thread];
    assert ListInv(s, step.thread);
    TailOfList(mine);
    forall id | 0 <= id < |t.servers|
      ensures ServerInv(t, id)
    {
      assert ServerInv(s, id);
    }
    assert RegistryInv(t);
    forall u | 0 <= u < |t.toClose|
      ensures ListInv(t, u)
    {
      assert ListInv(s, u);
    }
    assert KeysInv(t);
  }

  lemma StepPreserves(s: State, step: Step)
    requires Enabled(s, step) && Inv(s)
    ensures Inv(Apply(s, step))
  {
    match step {
      case Start(uri, config, binds) =>
        if StartOutcome(s, uri, config, binds).Created? {
          StartPreserves(s, uri, config);
        }
      case Remove(t, key) => RemovePreserves(s, t, key);
      case RemoveAll(t, order) => RemoveAllPreserves(s, t, order);
      case CloseNext(_) => ClosePreserves(s, step);
    }
  }

  // ----- runs -----

  function Initial(threads: nat): State {
    State(map[], [], seq(threads, _ => []))
  }

  /** The state after these steps; None when one of them was not enabled. */
  ghost function Run(s: State, steps: seq<Step>): Option<State>
    decreases |steps|
  {
    if steps == [] then Some(s)
    else if !Enabled(s, steps[0]) then None
    else Run(Apply(s, steps[0]), steps[1..])
  }

  lemma {:induction false} RunPreserves(s: State, steps: seq<Step>)
    requires Inv(s) && Run(s, steps).Some?
    ensures Inv(Run(s, steps).value)
    decreases |steps|
  {
    if steps != [] {
      StepPreserves(s, steps[0]);
      RunPreserves(Apply(s, steps[0]), steps[1..]);
    }
  }

  ghost predicate ClosedByRemover(s: State, id: nat)
    requires id < |s.servers|
  {
    match s.servers[id].remover
    case None => s.servers[id].closers == []
    case Some(t) => t < |s.toClose| && s.servers[id].closers == if id in s.toClose[t] then [] else [t]
  }

  /** The server was removed, and its remover has yet to close it. */
  ghost predicate WaitsForClose(s: State, id: nat)
    requires id < |s.servers|
  {
    s.servers[id].remover.Some? && s.servers[id].remover.value < |s.toClose|
    && id in s.toClose[s.servers[id].remover.value]
  }

  /** Two servers that were not removed have different listeners. */
  ghost predicate OneRegistered(s: State, a: nat, b: nat)
    requires a < |s.servers| && b < |s.servers|
  {
    s.servers[a].remover == None && s.servers[b].remover == None ==> s.servers[a].uri != s.servers[b].uri
  }

  /** Of two servers with one listener that are both not closed, one waits for its remover. */
  ghost predicate OneListener(s: State, a: nat, b: nat)
    requires a < |s.servers| && b < |s.servers|
  {
    s.servers[a].uri == s.servers[b].uri && s.servers[a].closers == [] && s.servers[b].closers == [] ==>
      WaitsForClose(s, a) || WaitsForClose(s, b)
  }

  /**
   Under every interleaving, no two registered servers have the same listener; two unclosed ones share a
   listener only while a thread that removed one of them has yet to close it; and a removed server is
   closed by the thread that removed it and by nobody else: already, or next on its list.
   */
  lemma RegistryIsSafe(threads: nat, steps: seq<Step>)
    requires Run(Initial(threads), steps).Some?
    ensures var s := Run(Initial(threads), steps).value;
            && (forall a, b :: 0 <= a < b < |s.servers| ==> OneRegistered(s, a, b) && OneListener(s, a, b))
            && forall id :: 0 <= id < |s.servers| ==> ClosedByRemover(s, id)
  {
    RunPreserves(Initial(threads), steps);
    var s := Run(Initial(threads), steps).value;
    forall id | 0 <= id < |s.servers|
      ensures ClosedByRemover(s, id)
      ensures s.servers[id].remover.Some? && s.servers[id].closers == [] ==> WaitsForClose(s, id)
    {
      assert ServerInv(s, id);
    }
    forall a, b | 0 <= a < b < |s.servers|
      ensures OneRegistered(s, a, b) && OneListener(s, a, b)
    {
      assert ServerInv(s, a) && ServerInv(s, b);
    }
  }

  /** Every server passed the checks of its constructor. */
  ghost predicate AllStartable(s: State) {
    forall id :: 0 <= id < |s.servers| ==> Startable(s.servers[id].uri, s.servers[id].config)
  }

  lemma StepKeepsStartable(s: State, step: Step)
    requires Enabled(s, step) && AllStartable(s)
    ensures AllStartable(Apply(s, step))
  {
    var t := Apply(s, step);
    forall id | 0 <= id < |t.servers|
      ensures Startable(t.servers[id].uri, t.servers[id].config)
    {
      if id < |s.servers| {
        assert Startable(s.servers[id].uri, s.servers[id].config);
        assert t.servers[id].uri == s.servers[id].uri && t.servers[id].config == s.servers[id].config;
      }
    }
  }

  lemma {:induction false} RunKeepsStartable(s: State, steps: seq<Step>)
    requires AllStartable(s) && Run(s, steps).Some?
    ensures AllStartable(Run(s, steps).value)
    decreases |steps|
  {
    if steps != [] {
      StepKeepsStartable(s, steps[0]);
      RunKeepsStartable(Apply(s, steps[0]), steps[1..]);
    }
  }

  /**
   In every reachable state, a server that was not allowed another host name listens on this machine only,
   and every server has a table to write to, a body limit and threads.
   */
  lemma LocalUnlessAllowed(threads: nat, steps: seq<Step>, id: nat)
    requires Run(Initial(threads), steps).Some? && id < |Run(Initial(threads), steps).value.servers|
    ensures var server := Run(Initial(threads), steps).value.servers[id];
            && (!server.config.allowOtherHostname ==>
                  Text.Lower(server.uri.host) == "localhost" || server.uri.host in {"127.0.0.1", "::1"})
            && server.config.schemaName != "" && server.config.tableName != ""
            && server.config.maxBodyBytes > 0 && server.config.httpThreads > 0
  {
    RunKeepsStartable(Initial(threads), steps);
  }

  lemma RunOne(s: State, step: Step, rest: seq<Step>)
    requires Enabled(s, step)
    ensures Run(s, [step] + rest) == Run(Apply(s, step), rest)
    ensures Run(s, [step]) == Some(Apply(s, step))
  {
    assert ([step] + rest)[1..] == rest;
    assert [step][1..] == [];
  }

  /** Removing and closing are two steps: a listener can be started again while its old server is not closed. */
  lemma TwoServersAtOnce(uri: Listener, config: Config)
    requires ListenUri.Valid(uri) && Startable(uri, config)
    ensures var steps := [Start(uri, config, true)] + ([Remove(0, Canonical(uri))] + [Start(uri, config, true)]);
            var end := Run(Initial(1), steps);
            && end.Some? && |end.value.servers| == 2
            && end.value.servers[0].uri == end.value.servers[1].uri == uri
            && end.value.servers[0].closers == end.value.servers[1].closers == []
  {
    var start, remove := Start(uri, config, true), Remove(0, Canonical(uri));
    var started := Apply(Initial(1), start);
    var removed := Apply(started, remove);
    RunOne(Initial(1), start, [remove] + [start]);
    RunOne(started, remove, [start]);
    RunOne(removed, start, []);
  }

  /** Once no thread has anything left to close, every removed server has been closed exactly once, by its remover. */
  lemma RemovedAreClosedOnce(threads: nat, steps: seq<Step>, id: nat)
    requires Run(Initial(threads), steps).Some?
    requires var s := Run(Initial(threads), steps).value;
             id < |s.servers| && s.servers[id].remover.Some? && forall t :: 0 <= t < |s.toClose| ==> s.toClose[t] == []
    ensures var s := Run(Initial(threads), steps).value;
            s.servers[id].closers == [s.servers[id].remover.value]
  {
    RegistryIsSafe(threads, steps);
    assert ClosedByRemover(Run(Initial(threads), steps).value, id);
  }

  lemma RegisteredUri(s: State, uri: Listener)
    requires Inv(s) && ListenUri.Valid(uri) && Canonical(uri) in s.registry
    ensures s.registry[Canonical(uri)] < |s.servers| && s.servers[s.registry[Canonical(uri)]].uri == uri
  {
    CanonicalRoundTrip(uri);
    CanonicalRoundTrip(s.servers[s.registry[Canonical(uri)]].uri);
  }

  /** In every reachable state, starting a listener again with the options it runs with changes nothing. */
  lemma StartIsIdempotent(threads: nat, steps: seq<Step>, uri: Listener, config: Config, binds: bool, again: bool)
    requires ListenUri.Valid(uri) && Run(Initial(threads), steps).Some?
    requires !StartOutcome(Run(Initial(threads), steps).value, uri, config, binds).Failed?
    ensures var once := Apply(Run(Initial(threads), steps).value, Start(uri, config, binds));
            && Canonical(uri) in once.registry
            && StartOutcome(once, uri, config, again) == Reused(once.registry[Canonical(uri)])
            && Apply(once, Start(uri, config, again)) == once
            && once.registry[Canonical(uri)] < |once.servers|
            && once.servers[once.registry[Canonical(uri)]].uri == uri
  {
    RunPreserves(Initial(threads), steps);
    var s := Run(Initial(threads), steps).value;
    StepPreserves(s, Start(uri, config, binds));
    RegisteredUri(Apply(s, Start(uri, config, binds)), uri);
  }

  /** A reused server has the requested configuration exactly when the metrics tables agree too. */
  lemma ReusedHasOptionsIff(s: State, uri: Listener, config: Config, binds: bool)
    requires Inv(s) && StartOutcome(s, uri, config, binds).Reused?
    ensures var current := s.servers[StartOutcome(s, uri, config, binds).server].config;
            current == config <==> current.metricsTableName == config.metricsTableName
  {
  }

  /** Two starts that differ in the metrics table only: the second caller silently gets the first one's table. */
  lemma MetricsTableIgnored(uri: Listener)
    requires ListenUri.Valid(uri)
    ensures exists a: Config, b: Config ::
              a != b && StartOutcome(Apply(Initial(0), Start(uri, a, true)), uri, b, true) == Reused(0)
  {
    var a := Config("main", "datadog_logs", "datadog_metric_series", "", true, true, 5 * 1024 * 1024, 8);
    var b := a.(metricsTableName := "other");
    assert Apply(Initial(0), Start(uri, a, true)).registry[Canonical(uri)] == 0;
    assert StartOutcome(Apply(Initial(0), Start(uri, a, true)), uri, b, true) == Reused(0);
  }

  // ----- one thread on its own -----

  /** The servers after thread `t` closed those in `ids`. */
  function Closed(servers: seq<Server>, ids: seq<nat>, t: nat): (closed: seq<Server>)
    ensures |closed| == |servers|
  {
    seq(|servers|, i requires 0 <= i < |servers| =>
      if i in ids then servers[i].(closers := servers[i].closers + [t]) else servers[i])
  }

  function CloseSteps(t: nat, n: nat): seq<Step> {
    if n == 0 then [] else [CloseNext(t)] + CloseSteps(t, n - 1)
  }

  lemma CloseFirst(servers: seq<Server>, ids: seq<nat>, t: nat)
    requires Distinct(ids) && ids != [] && ids[0] < |servers|
    ensures var first := servers[ids[0]];
            Closed(servers[ids[0] := first.(closers := first.closers + [t])], ids[1..], t) == Closed(servers, ids, t)
  {
    TailOfList(ids);
  }

  /** The state once thread `t` has closed everything on its list. */
  function AllClosed(s: State, t: nat): State
    requires t < |s.toClose|
  {
    State(s.registry, Closed(s.servers, s.toClose[t], t), s.toClose[t := []])
  }

  /** One more is closed, with the same servers closed in the end. */
  lemma CloseNextEffect(s: State, t: nat)
    requires Inv(s) && t < |s.toClose| && s.toClose[t] != []
    ensures var next := Apply(s, CloseNext(t));
            && |next.toClose| == |s.toClose| && |next.toClose[t]| == |s.toClose[t]| - 1
            && AllClosed(next, t) == AllClosed(s, t)
  {
    assert ListInv(s, t) && s.toClose[t][0] in s.toClose[t];
    CloseFirst(s.servers, s.toClose[t], t);
  }

  /** Closing everything on its list, a thread closes exactly those servers, each once. */
  lemma {:induction false} CloseAllIsARun(s: State, t: nat)
    requires Inv(s) && t < |s.toClose|
    ensures Run(s, CloseSteps(t, |s.toClose[t]|)) == Some(AllClosed(s, t))
    decreases |s.toClose[t]|
  {
    if s.toClose[t] == [] {
      assert AllClosed(s, t) == s;
    } else {
      CloseNextEffect(s, t);
      ClosePreserves(s, CloseNext(t));
      CloseAllIsARun(Apply(s, CloseNext(t)), t);
      RunOne(s, CloseNext(t), CloseSteps(t, |s.toClose[t]| - 1));
    }
  }

  /** A server that thread `t` removed and closed. */
  function Stopped(server: Server, t: nat): Server {
    server.(remover := Some(t), closers := [t])
  }

  lemma MarkAndClose(servers: seq<Server>, id: nat, t: nat)
    requires id < |servers| && servers[id].closers == []
    ensures Closed(Mark(servers, [id], t), [id], t) == servers[id := Stopped(servers[id], t)]
  {
    var closed := Closed(Mark(servers, [id], t), [id], t);
    assert closed[id] == Stopped(servers[id], t) by {
      assert [] + [t] == [t];
    }
    assert forall i :: 0 <= i < |servers| && i != id ==> closed[i] == servers[i];
  }

  /** `Stop` by a thread on its own: the server under the key is removed and closed, everything else stays. */
  lemma StopIsARun(s: State, t: nat, key: string)
    requires Inv(s) && Enabled(s, Remove(t, key))
    ensures var id := s.registry[key];
            && id < |s.servers|
            && Run(s, [Remove(t, key)] + CloseSteps(t, 1))
            == Some(State(s.registry - {key}, s.servers[id := Stopped(s.servers[id], t)], s.toClose))
  {
    var id := s.registry[key];
    assert id in s.registry.Values;
    RegisteredIff(s, id);
    assert ServerInv(s, id);
    RunOne(s, Remove(t, key), CloseSteps(t, 1));
    RemovePreserves(s, t, key);
    var removed := TakenOut(s, s.registry - {key}, [id], t);
    assert removed.toClose[t] == [id] && removed == Apply(s, Remove(t, key));
    CloseAllIsARun(removed, t);
    MarkAndClose(s.servers, id, t);
    assert removed.toClose[t := []] == s.toClose;
  }

  /** `StopAll` by a thread on its own: every registered server is removed and closed. */
  lemma StopAllIsARun(s: State, t: nat, order: seq<nat>)
    requires Inv(s) && Enabled(s, RemoveAll(t, order))
    ensures var end := Run(s, [RemoveAll(t, order)] + CloseSteps(t, |order|));
            && end.Some? && end.value.registry == map[] && end.value.toClose == s.toClose
            && |end.value.servers| == |s.servers|
            && forall id :: 0 <= id < |s.servers| ==>
                 end.value.servers[id] ==
                 if s.servers[id].remover == None then Stopped(s.servers[id], t) else s.servers[id]
  {
    RunOne(s, RemoveAll(t, order), CloseSteps(t, |order|));
    RemoveAllPreserves(s, t, order);
    var removed := Apply(s, RemoveAll(t, order));
    CloseAllIsARun(removed, t);
    assert removed.toClose[t := []] == s.toClose;
    forall id | 0 <= id < |s.servers|
      ensures Closed(removed.servers, order, t)[id] ==
              if s.servers[id].remover == None then Stopped(s.servers[id], t) else s.servers[id]
    {
      RegisteredIff(s, id);
      assert ServerInv(s, id);
    }
  }
}
