/**
 Any number of sender threads sharing one pool of intake connections. A state holds every connection
 ever created; each step is one critical section or one unlocked action of one thread.
 */
module PoolProtocol {
  import opened Prelude
  import opened Retry

  /** Where a thread is in `SendLogs`, and the connection its local pointer owns there. */
  datatype Phase =
    | Outside
    | Creating
    | Ready(connection: nat, attempt: nat)
    | Waiting(connection: nat, attempt: nat)
    | Releasing(connection: nat)

  /** `latest[c]` is the outcome of the latest request on connection `c`. */
  datatype State = State(
    pool: seq<nat>,
    threads: seq<Phase>,
    closed: set<nat>,
    latest: seq<Option<Outcome>>)

  datatype Step =
    | TakePooled(thread: nat)
    | FindEmpty(thread: nat)
    | Create(thread: nat)
    | Post(thread: nat, outcome: Outcome, script: Script)
    | Resume(thread: nat)
    | Throw(thread: nat)
    | Release(thread: nat)

  predicate Holding(phase: Phase) {
    phase.Ready? || phase.Waiting? || phase.Releasing?
  }

  predicate Enabled(s: State, step: Step) {
    step.thread < |s.threads| &&
    var phase := s.threads[step.thread];
    match step
    case TakePooled(_) => phase.Outside? && s.pool != []
    case FindEmpty(_) => phase.Outside? && s.pool == []
    case Create(_) => phase.Creating?
    case Post(_, _, _) => phase.Ready? && phase.connection < |s.latest|
    case Resume(_) => phase.Waiting?
    case Throw(_) => Holding(phase)
    case Release(_) => phase.Releasing?
  }

  function Move(s: State, thread: nat, phase: Phase): State
    requires thread < |s.threads|
  {
    s.(threads := s.threads[thread := phase])
  }

  /** The thread's connection is destroyed and its call ends. */
  function Close(s: State, thread: nat): State
    requires thread < |s.threads| && Holding(s.threads[thread])
  {
    Move(s.(closed := s.closed + {s.threads[thread].connection}), thread, Outside)
  }

  /** A new connection, held by the thread. */
  function Open(s: State, thread: nat, attempt: nat): State
    requires thread < |s.threads|
  {
    Move(s.(latest := s.latest + [None]), thread, Ready(|s.latest|, attempt))
  }

  /** After a transport error the connection is replaced before anything else happens. */
  function Replace(s: State, thread: nat, attempt: nat): State
    requires thread < |s.threads| && Holding(s.threads[thread])
  {
    Open(Close(s, thread), thread, attempt)
  }

  function AfterPost(s: State, thread: nat, outcome: Outcome, script: Script, retries: nat): State
    requires thread < |s.threads| && s.threads[thread].Ready?
  {
    var attempt := s.threads[thread].attempt;
    var here := if outcome.Failed? then Replace(s, thread, attempt) else s;
    match Decide(script, outcome, attempt, retries)
    case Retry(_) => Move(here, thread, Waiting(here.threads[thread].connection, attempt))
    case Finish(Delivered) => Move(here, thread, Releasing(here.threads[thread].connection))
    case Finish(_) => Close(here, thread)
  }

  function Apply(s: State, step: Step, retries: nat): State
    requires Enabled(s, step)
  {
    var t := step.thread;
    match step
    case TakePooled(_) =>
      Move(s.(pool := s.pool[..|s.pool| - 1]), t, Ready(s.pool[|s.pool| - 1], 0))
    case FindEmpty(_) => Move(s, t, Creating)
    case Create(_) => Open(s, t, 0)
    case Post(_, outcome, script) =>
      var c := s.threads[t].connection;
      AfterPost(s.(latest := s.latest[c := Some(outcome)]), t, outcome, script, retries)
    case Resume(_) => Move(s, t, Ready(s.threads[t].connection, s.threads[t].attempt + 1))
    case Throw(_) => Close(s, t)
    case Release(_) => Move(s.(pool := s.pool + [s.threads[t].connection]), t, Outside)
  }

  // ----- the invariant -----

  function Holds(phase: Phase, c: nat): nat {
    if Holding(phase) && phase.connection == c then 1 else 0
  }

  /** How many threads hold connection `c`. */
  function Holders(threads: seq<Phase>, c: nat): nat {
    if threads == [] then 0 else Holds(threads[0], c) + Holders(threads[1..], c)
  }

  /** How often connection `c` is in the pool. */
  function Pooled(pool: seq<nat>, c: nat): nat {
    if pool == [] then 0 else Pooled(pool[..|pool| - 1], c) + if pool[|pool| - 1] == c then 1 else 0
  }

  function Owners(s: State, c: nat): nat {
    Pooled(s.pool, c) + Holders(s.threads, c) + if c in s.closed then 1 else 0
  }

  /** No connection is lost or duplicated: each one created is pooled, held or closed, and only once. */
  ghost predicate Conserved(s: State) {
    forall c: nat :: Owners(s, c) == if c < |s.latest| then 1 else 0
  }

  predicate Succeeded(s: State, c: nat) {
    c < |s.latest| && s.latest[c].Some? && IsSuccess(s.latest[c].value)
  }

  predicate LatestFailed(s: State, c: nat) {
    c < |s.latest| && s.latest[c].Some? && s.latest[c].value.Failed?
  }

  /** Idle connections, and those about to be, finished their latest request with a success. */
  ghost predicate OnlySuccessIdle(s: State) {
    && (forall i :: 0 <= i < |s.pool| ==> Succeeded(s, s.pool[i]))
    && forall t :: 0 <= t < |s.threads| && s.threads[t].Releasing? ==> Succeeded(s, s.threads[t].connection)
  }

  ghost predicate FailedClosed(s: State) {
    forall c :: LatestFailed(s, c) ==> c in s.closed
  }

  ghost predicate Inv(s: State) {
    Conserved(s) && OnlySuccessIdle(s) && FailedClosed(s)
  }

  lemma {:induction false} HoldersUpdate(threads: seq<Phase>, t: nat, phase: Phase, c: nat)
    requires t < |threads|
    ensures Holders(threads[t := phase], c) + Holds(threads[t], c) == Holders(threads, c) + Holds(phase, c)
  {
    if t == 0 {
      assert threads[t := phase][1..] == threads[1..];
    } else {
      HoldersUpdate(threads[1..], t - 1, phase, c);
      assert threads[t := phase][1..] == threads[1..][t - 1 := phase];
    }
  }

  lemma {:induction false} HeldBy(threads: seq<Phase>, t: nat)
    requires t < |threads| && Holding(threads[t])
    ensures Holders(threads, threads[t].connection) >= 1
  {
    if t > 0 {
      HeldBy(threads[1..], t - 1);
    }
  }

  lemma {:induction false} HeldByTwo(threads: seq<Phase>, t: nat, u: nat)
    requires t < u < |threads| && Holding(threads[t]) && Holding(threads[u])
    requires threads[t].connection == threads[u].connection
    ensures Holders(threads, threads[t].connection) >= 2
  {
    if t == 0 {
      HeldBy(threads[1..], u - 1);
    } else {
      HeldByTwo(threads[1..], t - 1, u - 1);
    }
  }

  lemma {:induction false} PooledAt(pool: seq<nat>, i: nat)
    requires i < |pool|
    ensures Pooled(pool, pool[i]) >= 1
  {
    if i < |pool| - 1 {
      PooledAt(pool[..|pool| - 1], i);
    }
  }

  lemma {:induction false} PooledTwice(pool: seq<nat>, i: nat, j: nat)
    requires i < j < |pool| && pool[i] == pool[j]
    ensures Pooled(pool, pool[i]) >= 2
  {
    if j < |pool| - 1 {
      PooledTwice(pool[..|pool| - 1], i, j);
    } else {
      PooledAt(pool[..|pool| - 1], i);
    }
  }

  lemma PooledPush(pool: seq<nat>, x: nat, c: nat)
    ensures Pooled(pool + [x], c) == Pooled(pool, c) + if x == c then 1 else 0
  {
    assert (pool + [x])[..|pool|] == pool;
  }

  /** A held connection has exactly one holder, and is neither pooled nor closed. */
  lemma HeldExclusively(s: State, t: nat)
    requires Conserved(s) && t < |s.threads| && Holding(s.threads[t])
    ensures var c := s.threads[t].connection;
            && c < |s.latest| && c !in s.pool && c !in s.closed
            && forall u :: 0 <= u < |s.threads| && u != t && Holding(s.threads[u]) ==> s.threads[u].connection != c
  {
    var c := s.threads[t].connection;
    HeldBy(s.threads, t);
    assert Owners(s, c) <= 1;
    forall i | 0 <= i < |s.pool|
      ensures s.pool[i] != c
    {
      PooledAt(s.pool, i);
    }
    forall u | 0 <= u < |s.threads| && u != t && Holding(s.threads[u])
      ensures s.threads[u].connection != c
    {
      if s.threads[u].connection == c {
        HeldByTwo(s.threads, if t < u then t else u, if t < u then u else t);
      }
    }
  }

  /** An idle connection is pooled once, and neither held nor closed. */
  lemma PooledOnce(s: State, i: nat)
    requires Conserved(s) && i < |s.pool|
    ensures var c := s.pool[i];
            && c < |s.latest| && c !in s.closed
            && (forall j :: 0 <= j < |s.pool| && j != i ==> s.pool[j] != c)
            && forall t :: 0 <= t < |s.threads| && Holding(s.threads[t]) ==> s.threads[t].connection != c
  {
    var c := s.pool[i];
    PooledAt(s.pool, i);
    assert Owners(s, c) <= 1;
    forall j | 0 <= j < |s.pool| && j != i
      ensures s.pool[j] != c
    {
      if s.pool[j] == c {
        PooledTwice(s.pool, if i < j then i else j, if i < j then j else i);
      }
    }
    forall t | 0 <= t < |s.threads| && Holding(s.threads[t])
      ensures s.threads[t].connection != c
    {
      HeldBy(s.threads, t);
    }
  }

  lemma {:induction false} NotPooled(pool: seq<nat>, c: nat)
    requires c !in pool
    ensures Pooled(pool, c) == 0
  {
    if pool != [] {
      NotPooled(pool[..|pool| - 1], c);
    }
  }

  predicate IsHeld(threads: seq<Phase>, c: nat) {
    exists t :: 0 <= t < |threads| && Holding(threads[t]) && threads[t].connection == c
  }

  lemma {:induction false} NotHeld(threads: seq<Phase>, c: nat)
    requires forall t :: 0 <= t < |threads| && Holding(threads[t]) ==> threads[t].connection != c
    ensures Holders(threads, c) == 0
  {
    if threads != [] {
      NotHeld(threads[1..], c);
    }
  }

  /** No live connection is lost: it is idle or held. */
  lemma LiveIsOwned(s: State, c: nat)
    requires Conserved(s) && c < |s.latest| && c !in s.closed
    ensures c in s.pool || IsHeld(s.threads, c)
  {
    assert Owners(s, c) == 1;
    if c !in s.pool && !IsHeld(s.threads, c) {
      NotPooled(s.pool, c);
      NotHeld(s.threads, c);
    }
  }

  // ----- conservation -----

  lemma MoveOwners(s: State, t: nat, phase: Phase, c: nat)
    requires t < |s.threads|
    ensures Owners(Move(s, t, phase), c) + Holds(s.threads[t], c) == Owners(s, c) + Holds(phase, c)
  {
    HoldersUpdate(s.threads, t, phase, c);
  }

  lemma MoveConserves(s: State, t: nat, phase: Phase)
    requires t < |s.threads| && Conserved(s) && forall c: nat :: Holds(phase, c) == Holds(s.threads[t], c)
    ensures Conserved(Move(s, t, phase))
  {
    forall c: nat
      ensures Owners(Move(s, t, phase), c) == if c < |s.latest| then 1 else 0
    {
      MoveOwners(s, t, phase, c);
    }
  }

  lemma CloseConserves(s: State, t: nat)
    requires t < |s.threads| && Conserved(s) && Holding(s.threads[t])
    ensures Conserved(Close(s, t))
  {
    HeldExclusively(s, t);
    forall c: nat
      ensures Owners(Close(s, t), c) == if c < |s.latest| then 1 else 0
    {
      HoldersUpdate(s.threads, t, Outside, c);
      assert Owners(s, c) == if c < |s.latest| then 1 else 0;
    }
  }

  lemma OpenConserves(s: State, t: nat, attempt: nat)
    requires t < |s.threads| && Conserved(s) && !Holding(s.threads[t])
    ensures Conserved(Open(s, t, attempt))
  {
    forall c: nat
      ensures Owners(Open(s, t, attempt), c) == if c < |s.latest| + 1 then 1 else 0
    {
      HoldersUpdate(s.threads, t, Ready(|s.latest|, attempt), c);
      assert Owners(s, c) == if c < |s.latest| then 1 else 0;
    }
  }

  lemma TakeConserves(s: State, t: nat)
    requires Enabled(s, TakePooled(t)) && Conserved(s)
    ensures Conserved(Apply(s, TakePooled(t), 0))
  {
    forall c: nat
      ensures Owners(Apply(s, TakePooled(t), 0), c) == if c < |s.latest| then 1 else 0
    {
      HoldersUpdate(s.threads, t, Ready(s.pool[|s.pool| - 1], 0), c);
      assert Owners(s, c) == if c < |s.latest| then 1 else 0;
    }
  }

  lemma ReleaseConserves(s: State, t: nat)
    requires Enabled(s, Release(t)) && Conserved(s)
    ensures Conserved(Apply(s, Release(t), 0))
  {
    forall c: nat
      ensures Owners(Apply(s, Release(t), 0), c) == if c < |s.latest| then 1 else 0
    {
      HoldersUpdate(s.threads, t, Outside, c);
      PooledPush(s.pool, s.threads[t].connection, c);
      assert Owners(s, c) == if c < |s.latest| then 1 else 0;
    }
  }

  // ----- steps -----

  /** The state right after the request, before the thread acts on its outcome. */
  function Recorded(s: State, c: nat, outcome: Outcome): State
    requires c < |s.latest|
  {
    s.(latest := s.latest[c := Some(outcome)])
  }

  /** The state in which the thread acts on the outcome, its connection replaced after a transport error. */
  function Settled(s: State, t: nat, outcome: Outcome): State
    requires t < |s.threads| && s.threads[t].Ready? && s.threads[t].connection < |s.latest|
  {
    var recorded := Recorded(s, s.threads[t].connection, outcome);
    if outcome.Failed? then Replace(recorded, t, s.threads[t].attempt) else recorded
  }

  lemma RecordedConserves(s: State, c: nat, outcome: Outcome)
    requires Conserved(s) && c < |s.latest|
    ensures Conserved(Recorded(s, c, outcome))
  {
    forall k: nat
      ensures Owners(Recorded(s, c, outcome), k) == if k < |s.latest| then 1 else 0
    {
      assert Owners(s, k) == if k < |s.latest| then 1 else 0;
    }
  }

  lemma SettledKeeps(s: State, t: nat, outcome: Outcome)
    requires t < |s.threads| && s.threads[t].Ready? && Inv(s) && s.threads[t].connection < |s.latest|
    ensures Inv(Settled(s, t, outcome)) && Settled(s, t, outcome).threads[t].Ready?
  {
    var c := s.threads[t].connection;
    HeldExclusively(s, t);
    RecordedConserves(s, c, outcome);
    if outcome.Failed? {
      CloseConserves(Recorded(s, c, outcome), t);
      OpenConserves(Close(Recorded(s, c, outcome), t), t, s.threads[t].attempt);
    }
  }

  lemma ThrowPreserves(s: State, t: nat)
    requires Enabled(s, Throw(t)) && Inv(s)
    ensures Inv(Close(s, t))
  {
    CloseConserves(s, t);
  }

  lemma PostPreserves(s: State, t: nat, outcome: Outcome, script: Script, retries: nat)
    requires Enabled(s, Post(t, outcome, script)) && Inv(s)
    ensures Inv(Apply(s, Post(t, outcome, script), retries))
  {
    var attempt := s.threads[t].attempt;
    var here := Settled(s, t, outcome);
    SettledKeeps(s, t, outcome);
    match Decide(script, outcome, attempt, retries) {
      case Retry(_) => MoveConserves(here, t, Waiting(here.threads[t].connection, attempt));
      case Finish(Delivered) =>
        assert Succeeded(here, here.threads[t].connection);
        MoveConserves(here, t, Releasing(here.threads[t].connection));
      case Finish(_) => ThrowPreserves(here, t);
    }
  }

  lemma StepPreserves(s: State, step: Step, retries: nat)
    requires Enabled(s, step) && Inv(s)
    ensures Inv(Apply(s, step, retries))
  {
    var t := step.thread;
    match step {
      case TakePooled(_) => TakeConserves(s, t);
      case FindEmpty(_) => MoveConserves(s, t, Creating);
      case Create(_) => OpenConserves(s, t, 0);
      case Post(_, outcome, script) => PostPreserves(s, t, outcome, script, retries);
      case Resume(_) => MoveConserves(s, t, Ready(s.threads[t].connection, s.threads[t].attempt + 1));
      case Throw(_) => ThrowPreserves(s, t);
      case Release(_) => ReleaseConserves(s, t);
    }
  }

  lemma ClosedStays(s: State, step: Step, retries: nat)
    requires Enabled(s, step)
    ensures s.closed <= Apply(s, step, retries).closed
  {
  }

  // ----- runs -----

  /** The state after these steps; None when one of them was not enabled. */
  function Run(s: State, steps: seq<Step>, retries: nat): Option<State>
    decreases |steps|
  {
    if steps == [] then Some(s)
    else if !Enabled(s, steps[0]) then None
    else Run(Apply(s, steps[0], retries), steps[1..], retries)
  }

  function Initial(n: nat): State {
    State([], seq(n, _ => Outside), {}, [])
  }

  lemma {:induction false} NobodyHolds(threads: seq<Phase>, c: nat)
    requires forall t :: 0 <= t < |threads| ==> threads[t] == Outside
    ensures Holders(threads, c) == 0
  {
    if threads != [] {
      NobodyHolds(threads[1..], c);
    }
  }

  lemma InitialInv(n: nat)
    ensures Inv(Initial(n))
  {
    forall c: nat
      ensures Owners(Initial(n), c) == 0
    {
      NobodyHolds(Initial(n).threads, c);
    }
  }

  lemma {:induction false} RunPreserves(s: State, steps: seq<Step>, retries: nat)
    requires Inv(s) && Run(s, steps, retries).Some?
    ensures var end := Run(s, steps, retries).value;
            Inv(end) && s.closed <= end.closed
    decreases |steps|
  {
    if steps != [] {
      StepPreserves(s, steps[0], retries);
      ClosedStays(s, steps[0], retries);
      RunPreserves(Apply(s, steps[0], retries), steps[1..], retries);
    }
  }

  /**
   Under every interleaving of any number of threads, every live connection is idle or held; an idle one
   is pooled once, held by nobody and finished its latest request with a success; a held one has a single
   holder.
   */
  lemma ExclusiveOwnership(n: nat, steps: seq<Step>, retries: nat)
    requires Run(Initial(n), steps, retries).Some?
    ensures var s := Run(Initial(n), steps, retries).value;
            && (forall i, j :: 0 <= i < j < |s.pool| ==> s.pool[i] != s.pool[j])
            && (forall i :: 0 <= i < |s.pool| ==> Succeeded(s, s.pool[i]))
            && (forall t, u :: 0 <= t < u < |s.threads| && Holding(s.threads[t]) && Holding(s.threads[u]) ==>
                  s.threads[t].connection != s.threads[u].connection)
            && (forall t :: 0 <= t < |s.threads| && Holding(s.threads[t]) ==> s.threads[t].connection !in s.pool)
            && (forall c :: 0 <= c < |s.latest| && c !in s.closed ==> c in s.pool || IsHeld(s.threads, c))
  {
    InitialInv(n);
    RunPreserves(Initial(n), steps, retries);
    var s := Run(Initial(n), steps, retries).value;
    forall i | 0 <= i < |s.pool|
      ensures forall j :: i < j < |s.pool| ==> s.pool[i] != s.pool[j]
      ensures Succeeded(s, s.pool[i])
    {
      PooledOnce(s, i);
    }
    forall t | 0 <= t < |s.threads| && Holding(s.threads[t])
      ensures s.threads[t].connection !in s.pool
      ensures forall u :: t < u < |s.threads| && Holding(s.threads[u]) ==>
                s.threads[t].connection != s.threads[u].connection
    {
      HeldExclusively(s, t);
    }
    forall c | 0 <= c < |s.latest| && c !in s.closed
      ensures c in s.pool || IsHeld(s.threads, c)
    {
      LiveIsOwned(s, c);
    }
  }

  /** A connection that was destroyed, or whose request met a transport error, is never pooled or held again. */
  lemma NeverReenters(n: nat, before: seq<Step>, after: seq<Step>, retries: nat, c: nat)
    requires Run(Initial(n), before, retries).Some?
    requires Run(Run(Initial(n), before, retries).value, after, retries).Some?
    requires var s := Run(Initial(n), before, retries).value;
             c in s.closed || LatestFailed(s, c)
    ensures var end := Run(Run(Initial(n), before, retries).value, after, retries).value;
            && c !in end.pool
            && forall t :: 0 <= t < |end.threads| && Holding(end.threads[t]) ==> end.threads[t].connection != c
  {
    InitialInv(n);
    RunPreserves(Initial(n), before, retries);
    var s := Run(Initial(n), before, retries).value;
    RunPreserves(s, after, retries);
    var end := Run(s, after, retries).value;
    assert c in end.closed;
    forall i | 0 <= i < |end.pool|
      ensures end.pool[i] != c
    {
      PooledOnce(end, i);
    }
    forall t | 0 <= t < |end.threads| && Holding(end.threads[t])
      ensures end.threads[t].connection != c
    {
      HeldExclusively(end, t);
    }
  }

  // ----- one thread on its own -----

  /** The steps of a thread that has a connection and makes attempt `attempt` of its call next. */
  function SendSteps(t: nat, script: Script, retries: nat, attempt: nat): seq<Step>
    decreases if attempt <= retries then retries - attempt + 1 else 0
  {
    if script.interrupted(attempt) then [Throw(t)]
    else
      var post := Post(t, script.outcome(attempt), script);
      match Decide(script, script.outcome(attempt), attempt, retries)
      case Finish(Delivered) => [post, Release(t)]
      case Finish(_) => [post]
      case Retry(_) =>
        if script.interruptedWait(attempt) then [post, Throw(t)]
        else [post, Resume(t)] + SendSteps(t, script, retries, attempt + 1)
  }

  /** The requests among these steps. */
  function Posts(steps: seq<Step>): nat {
    if steps == [] then 0 else (if steps[0].Post? then 1 else 0) + Posts(steps[1..])
  }

  lemma RunOne(s: State, step: Step, rest: seq<Step>, retries: nat)
    requires Enabled(s, step)
    ensures Run(s, [step] + rest, retries) == Run(Apply(s, step, retries), rest, retries)
    ensures Posts([step] + rest) == (if step.Post? then 1 else 0) + Posts(rest)
    ensures [step] + [] == [step]
  {
    assert ([step] + rest)[1..] == rest;
  }

  lemma RunTwo(s: State, first: Step, second: Step, rest: seq<Step>, retries: nat)
    requires Enabled(s, first) && Enabled(Apply(s, first, retries), second)
    ensures Run(s, [first, second] + rest, retries) ==
            Run(Apply(Apply(s, first, retries), second, retries), rest, retries)
    ensures first.Post? && !second.Post? ==> Posts([first, second] + rest) == 1 + Posts(rest)
    ensures [first, second] + [] == [first, second]
  {
    assert [first, second] + rest == [first] + ([second] + rest);
    RunOne(s, first, [second] + rest, retries);
    RunOne(Apply(s, first, retries), second, rest, retries);
  }

  /** What the call of a thread that runs undisturbed leaves behind. */
  ghost predicate EndsLike(s: State, t: nat, end: State, run: SendRun)
    requires t < |s.threads|
  {
    && end.threads == s.threads[t := Outside]
    && if run.result == Delivered then |end.pool| == |s.pool| + 1 && end.pool[..|s.pool|] == s.pool
       else end.pool == s.pool
  }

  /** Ending the call from a state that differs in the thread's phase only is ending it from here. */
  lemma EndsLikeLater(s: State, later: State, t: nat, end: State, rest: SendRun, run: SendRun)
    requires t < |s.threads| == |later.threads| && later.pool == s.pool
    requires later.threads == s.threads[t := later.threads[t]]
    requires EndsLike(later, t, end, rest) && run.result == rest.result
    ensures EndsLike(s, t, end, run)
  {
  }

  /** After a request the thread's connection is one that exists, and only its own phase has changed. */
  lemma PostEffect(s: State, t: nat, script: Script, retries: nat)
    requires Inv(s) && t < |s.threads| && s.threads[t].Ready?
    ensures var attempt := s.threads[t].attempt;
            var outcome := script.outcome(attempt);
            && Enabled(s, Post(t, outcome, script))
            && var after := Apply(s, Post(t, outcome, script), retries);
               && after.pool == s.pool && |after.threads| == |s.threads|
               && after.threads == s.threads[t := after.threads[t]]
               && match Decide(script, outcome, attempt, retries)
                  case Retry(_) => after.threads[t].Waiting? && after.threads[t].attempt == attempt
                  case Finish(Delivered) => after.threads[t].Releasing?
                  case Finish(_) => after.threads[t].Outside?
  {
    HeldExclusively(s, t);
  }

  /**
   The steps of one thread are `SendLogs`: undisturbed they post as many requests as the retry policy
   does, and the pool grows by the thread's connection exactly when the batch was delivered.
   */
  lemma {:induction false} SendIsARun(s: State, t: nat, script: Script, retries: nat, attempt: nat)
    requires Inv(s) && t < |s.threads| && s.threads[t].Ready? && s.threads[t].attempt == attempt <= retries
    ensures var steps, run := SendSteps(t, script, retries, attempt), Send(script, retries, attempt);
            && Posts(steps) == run.posts
            && Run(s, steps, retries).Some?
            && EndsLike(s, t, Run(s, steps, retries).value, run)
    decreases retries - attempt
  {
    if script.interrupted(attempt) {
      RunOne(s, Throw(t), [], retries);
      return;
    }
    var post := Post(t, script.outcome(attempt), script);
    PostEffect(s, t, script, retries);
    PostPreserves(s, t, script.outcome(attempt), script, retries);
    var after := Apply(s, post, retries);
    match Decide(script, script.outcome(attempt), attempt, retries) {
      case Finish(Delivered) => RunTwo(s, post, Release(t), [], retries);
      case Finish(_) => RunOne(s, post, [], retries);
      case Retry(_) =>
        if script.interruptedWait(attempt) {
          RunTwo(s, post, Throw(t), [], retries);
        } else {
          var ready := Apply(after, Resume(t), retries);
          StepPreserves(after, Resume(t), retries);
          var rest := SendSteps(t, script, retries, attempt + 1);
          SendIsARun(ready, t, script, retries, attempt + 1);
          RunTwo(s, post, Resume(t), rest, retries);
          EndsLikeLater(s, ready, t, Run(ready, rest, retries).value, Send(script, retries, attempt + 1),
                        Send(script, retries, attempt));
        }
    }
  }
}
