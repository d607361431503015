/** The client's pool of intake connections and the retry loop of `SendLogs` over it. */
module IntakeClient {
  import opened Prelude
  import opened Retry

  /** A keep-alive connection; the outcome of its latest request is recorded. */
  class Connection {
    var lastOutcome: Option<Outcome>

    constructor ()
      ensures lastOutcome == None
    {
      lastOutcome := None;
    }

    method Post(outcome: Outcome)
      modifies this
      ensures lastOutcome == Some(outcome)
    {
      lastOutcome := Some(outcome);
    }
  }

  /** A run that goes on after these waits, each of which followed a request. */
  function Resumed(waits: seq<nat>, rest: SendRun): SendRun {
    SendRun(rest.result, |waits| + rest.posts, waits + rest.waits)
  }

  lemma ResumedStep(script: Script, retries: nat, attempt: nat, waits: seq<nat>)
    ensures waits + [] == waits
    ensures var decision := Decide(script, script.outcome(attempt), attempt, retries);
            !script.interrupted(attempt) && decision.Retry? && !script.interruptedWait(attempt) ==>
              Resumed(waits, Send(script, retries, attempt)) ==
              Resumed(waits + [decision.wait], Send(script, retries, attempt + 1))
  {
    var decision := Decide(script, script.outcome(attempt), attempt, retries);
    if decision.Retry? {
      var rest := Send(script, retries, attempt + 1);
      assert waits + ([decision.wait] + rest.waits) == waits + [decision.wait] + rest.waits;
    }
  }

  /** A connection is replaced by one not used before after a transport error, and kept otherwise. */
  ghost predicate FollowsErrors(script: Script, used: seq<Connection>) {
    forall k :: 0 <= k < |used| - 1 ==>
      if script.outcome(k).Failed? then used[k + 1] !in used[..k + 1] else used[k + 1] == used[k]
  }

  lemma FollowsOne(script: Script, used: seq<Connection>, next: Connection)
    requires used != [] && FollowsErrors(script, used)
    requires if script.outcome(|used| - 1).Failed? then next !in used else next == used[|used| - 1]
    ensures FollowsErrors(script, used + [next])
  {
    var longer := used + [next];
    forall k | 0 <= k < |longer| - 1
      ensures if script.outcome(k).Failed? then longer[k + 1] !in longer[..k + 1] else longer[k + 1] == longer[k]
    {
      assert longer[..k + 1] == used[..k + 1];
    }
  }

  class DatadogClient {
    const retries: nat
    var intakePool: seq<Connection>

    /** No connection is pooled twice, and each finished its latest request with a success. */
    ghost predicate Valid()
      reads this, intakePool
    {
      && (forall i, j :: 0 <= i < j < |intakePool| ==> intakePool[i] != intakePool[j])
      && forall i :: 0 <= i < |intakePool| ==>
           intakePool[i].lastOutcome.Some? && IsSuccess(intakePool[i].lastOutcome.value)
    }

    /** The pool without the connection the next send will take. */
    ghost function Rest(): seq<Connection>
      reads this
    {
      if intakePool == [] then [] else intakePool[..|intakePool| - 1]
    }

    constructor (retries: nat)
      ensures this.retries == retries && intakePool == [] && Valid()
    {
      this.retries := retries;
      intakePool := [];
    }

    method AcquireIntakeConnection() returns (c: Connection)
      requires Valid()
      modifies this
      ensures Valid() && intakePool == old(Rest()) && c !in intakePool
      ensures if old(intakePool) == [] then fresh(c) else c == old(intakePool)[|old(intakePool)| - 1]
    {
      if intakePool != [] {
        c := intakePool[|intakePool| - 1];
        intakePool := intakePool[..|intakePool| - 1];
        return;
      }
      c := new Connection();
    }

    method ReleaseIntakeConnection(c: Connection)
      requires Valid() && c !in intakePool
      requires c.lastOutcome.Some? && IsSuccess(c.lastOutcome.value)
      modifies this
      ensures Valid() && intakePool == old(intakePool) + [c]
    {
      intakePool := intakePool + [c];
    }

    /** What the loop does after an attempt; the waits of rate limits come from the reply's headers. */
    method AfterAttempt(script: Script, outcome: Outcome, attempt: nat) returns (decision: Decision)
      ensures decision == Decide(script, outcome, attempt, retries)
    {
      match outcome {
        case Failed(error) =>
          if attempt >= retries || !IsPreSendTransportError(error) {
            return Finish(TransportFailure(error));
          }
          return Decision.Retry(Backoff(script, attempt));
        case Replied(status, _, _) =>
          if status == 429 && attempt < retries {
            var wait := RateLimitRetryDelaySeconds(script, outcome, attempt);
            return Decision.Retry(wait);
          }
          if status >= 500 && attempt < retries {
            return Decision.Retry(Backoff(script, attempt));
          }
          if status < 200 || status >= 300 {
            return Finish(HttpFailure(status));
          }
          return Finish(Delivered);
      }
    }

    /** One request and what comes of it; after a transport error a new connection takes the place of this one. */
    method Attempt(current: Connection, script: Script, attempt: nat) returns (next: Connection, decision: Decision)
      modifies current
      ensures decision == Decide(script, script.outcome(attempt), attempt, retries)
      ensures if script.outcome(attempt).Failed? then fresh(next)
              else next == current && next.lastOutcome == Some(script.outcome(attempt))
    {
      next := current;
      var outcome := script.outcome(attempt);
      next.Post(outcome);
      if outcome.Failed? {
        next := new Connection();
      }
      decision := AfterAttempt(script, outcome, attempt);
    }

    /**
     The loop of a call. `used` are the connections of its requests, and then the one left: the first is
     the given one, and exactly after a transport error a new one takes its place.
     */
    method PostUntilDone(first: Connection, script: Script)
      returns (run: SendRun, last: Connection, ghost used: seq<Connection>)
      modifies first
      ensures run == Send(script, retries, 0)
      ensures |used| == run.posts + 1 && used[0] == first && used[run.posts] == last
      ensures FollowsErrors(script, used)
      ensures last == first || fresh(last)
      ensures run.result == Delivered ==> last.lastOutcome.Some? && IsSuccess(last.lastOutcome.value)
    {
      last := first;
      used := [first];
      var attempt, waits := 0, [];
      while true
        invariant attempt <= retries && |waits| == attempt && |used| == attempt + 1
        invariant used[0] == first && used[attempt] == last && FollowsErrors(script, used)
        invariant forall k :: 0 <= k < |used| ==> used[k] == first || fresh(used[k])
        invariant Send(script, retries, 0) == Resumed(waits, Send(script, retries, attempt))
        decreases retries - attempt
      {
        ResumedStep(script, retries, attempt, waits);
        if script.interrupted(attempt) {
          return SendRun(Interrupted, attempt, waits), last, used;
        }
        var decision;
        last, decision := Attempt(last, script, attempt);
        FollowsOne(script, used, last);
        used := used + [last];
        match decision {
          case Finish(result) =>
            return SendRun(result, attempt + 1, waits), last, used;
          case Retry(wait) =>
            waits := waits + [wait];
            if script.interruptedWait(attempt) {
              return SendRun(Interrupted, attempt + 1, waits), last, used;
            }
        }
        attempt := attempt + 1;
      }
    }

    /**
     The call follows the retry policy; its connection returns to the pool exactly when the batch was
     delivered, and everything else in the pool is left alone.
     */
    method SendLogs(script: Script) returns (run: SendRun)
      requires Valid()
      modifies this, intakePool
      ensures run == Send(script, retries, 0)
      ensures run.result != Interrupted ==> run.posts > 0 && run.result == Conclusion(script.outcome(run.posts - 1))
      ensures !script.interrupted(0) && script.outcome(0).Replied? && 200 <= script.outcome(0).status < 300 ==>
                run == SendRun(Delivered, 1, [])
      ensures Valid() && forall i :: 0 <= i < |intakePool| ==> intakePool[i] in old(intakePool) || fresh(intakePool[i])
      ensures if run.result == Delivered then
                |intakePool| == |old(Rest())| + 1 && intakePool[..|old(Rest())|] == old(Rest())
              else intakePool == old(Rest())
    {
      var connection := AcquireIntakeConnection();
      ghost var used;
      run, connection, used := PostUntilDone(connection, script);
      LastOutcomeDecides(script, retries, 0);
      if run.result == Delivered {
        ReleaseIntakeConnection(connection);
      }
    }
  }
}
