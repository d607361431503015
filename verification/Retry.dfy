/**
 Sending one batch to the non-idempotent intake endpoint: which outcomes are retried, how long the
 client waits, and how often the batch can be stored.
 */
module Retry {
  import opened Prelude
  import opened Text

  /** The transport errors of the HTTP library, as far as the code tells them apart. */
  datatype TransportError = Connection | ConnectionTimeout | BindIPAddress | ProxyConnection | OtherError(code: int)

  datatype Outcome =
    | Failed(error: TransportError)
    | Replied(status: int, rateLimitReset: Option<string>, retryAfter: Option<string>)

  /** Errors that happen before any request byte reaches the server. */
  predicate IsPreSendTransportError(error: TransportError) {
    error.Connection? || error.ConnectionTimeout? || error.BindIPAddress? || error.ProxyConnection?
  }

  predicate IsSuccess(outcome: Outcome) {
    outcome.Replied? && 200 <= outcome.status < 300
  }

  datatype SendResult = Delivered | TransportFailure(error: TransportError) | HttpFailure(status: int) | Interrupted

  /**
   Everything one call meets: the outcome of each attempt, the interrupt flag before each attempt and
   during each wait, and the values of shifts by 64 or more, which C++ leaves undefined.
   */
  datatype Script = Script(
    outcome: nat -> Outcome,
    interrupted: nat -> bool,
    interruptedWait: nat -> bool,
    wideShift: nat -> uint64)

  // ----- waiting -----

  function Backoff(script: Script, attempt: nat): nat {
    Min(if attempt < 64 then Pow2(attempt) else script.wideShift(attempt), 60)
  }

  /** The wait a header advises; None when it is missing or does not start with a number that fits. */
  function AdvisedDelay(header: Option<string>): Option<nat> {
    if header.None? then None
    else
      match Stoll(header.value)
      case None => None
      case Some(scanned) =>
        if scanned.value > 59 then Some(60) else Some(Max(scanned.value, 0) + 1)
  }

  function RateLimitDelay(script: Script, outcome: Outcome, attempt: nat): nat
    requires outcome.Replied?
  {
    match AdvisedDelay(outcome.rateLimitReset)
    case Some(seconds) => seconds
    case None =>
      match AdvisedDelay(outcome.retryAfter)
      case Some(seconds) => seconds
      case None => Backoff(script, attempt)
  }

  method RateLimitRetryDelaySeconds(script: Script, outcome: Outcome, attempt: nat) returns (seconds: nat)
    requires outcome.Replied?
    ensures seconds == RateLimitDelay(script, outcome, attempt)
  {
    var headers := [outcome.rateLimitReset, outcome.retryAfter];
    assert headers[0] == outcome.rateLimitReset && headers[1] == outcome.retryAfter;
    for i := 0 to 2
      invariant forall k :: 0 <= k < i ==> AdvisedDelay(headers[k]) == None
    {
      if headers[i].None? {
        continue;
      }
      var parsed := Stoll(headers[i].value);
      if parsed.Some? {
        var secs := parsed.value.value;
        if secs < 0 {
          secs := 0;
        }
        if secs > 59 {
          return 60;
        }
        return secs + 1;
      }
    }
    return Backoff(script, attempt);
  }

  // ----- the retry policy -----

  datatype Decision = Retry(wait: nat) | Finish(result: SendResult)

  /** What the loop does after an attempt. */
  function Decide(script: Script, outcome: Outcome, attempt: nat, retries: nat): Decision {
    match outcome
    case Failed(error) =>
      if attempt >= retries || !IsPreSendTransportError(error) then Finish(TransportFailure(error))
      else Retry(Backoff(script, attempt))
    case Replied(status, _, _) =>
      if status == 429 && attempt < retries then Retry(RateLimitDelay(script, outcome, attempt))
      else if status >= 500 && attempt < retries then Retry(Backoff(script, attempt))
      else if status < 200 || status >= 300 then Finish(HttpFailure(status))
      else Finish(Delivered)
  }

  /** The record of a call: its result, the number of requests posted and the waits between them. */
  datatype SendRun = SendRun(result: SendResult, posts: nat, waits: seq<nat>)

  /** A call from its `attempt`-th attempt on. */
  function Send(script: Script, retries: nat, attempt: nat): SendRun
    decreases if attempt <= retries then retries - attempt + 1 else 0
  {
    if script.interrupted(attempt) then SendRun(Interrupted, 0, [])
    else
      match Decide(script, script.outcome(attempt), attempt, retries)
      case Finish(result) => SendRun(result, 1, [])
      case Retry(wait) =>
        if script.interruptedWait(attempt) then SendRun(Interrupted, 1, [wait])
        else
          var rest := Send(script, retries, attempt + 1);
          SendRun(rest.result, 1 + rest.posts, [wait] + rest.waits)
  }

  // ----- what a call comes to -----

  /** The outcomes that are retried, while the budget lasts. */
  lemma RetriedIff(script: Script, outcome: Outcome, attempt: nat, retries: nat)
    ensures Decide(script, outcome, attempt, retries).Retry? <==>
            && attempt < retries
            && if outcome.Failed? then
                 outcome.error in {TransportError.Connection, ConnectionTimeout, BindIPAddress, ProxyConnection}
               else outcome.status == 429 || outcome.status >= 500
  {
  }

  /** What the last outcome of a call that was not interrupted makes it return or throw. */
  function Conclusion(last: Outcome): SendResult {
    match last
    case Failed(error) => TransportFailure(error)
    case Replied(status, _, _) => if 200 <= status < 300 then Delivered else HttpFailure(status)
  }

  /** Without an interrupt a call ends as its last outcome says: delivered exactly by a reply in 200..299. */
  lemma {:induction false} LastOutcomeDecides(script: Script, retries: nat, attempt: nat)
    requires attempt <= retries
    ensures var run := Send(script, retries, attempt);
            run.result != Interrupted ==>
              run.posts > 0 && run.result == Conclusion(script.outcome(attempt + run.posts - 1))
    ensures Send(script, retries, attempt).result == Interrupted ==>
              exists k :: script.interrupted(k) || script.interruptedWait(k)
    decreases retries - attempt
  {
    if !script.interrupted(attempt) && attempt < retries && !script.interruptedWait(attempt) {
      LastOutcomeDecides(script, retries, attempt + 1);
    }
  }

  /** A first reply in 200..299 ends the call: one request, no wait, delivered. */
  lemma FirstReplyDelivers(script: Script, retries: nat)
    requires !script.interrupted(0) && script.outcome(0).Replied? && 200 <= script.outcome(0).status < 300
    ensures Send(script, retries, 0) == SendRun(Delivered, 1, [])
  {
  }

  lemma AdvisedSeconds(n: nat)
    requires n <= INT64_MAX
    ensures AdvisedDelay(Some(Decimal(n))) == Some(Min(n + 1, 60))
  {
    IntTextDenotes(n);
    StollOfIntegerText(Decimal(n));
  }

  /**
   After a rate limit the reset header counts, then `Retry-After`, each with a second on top and at most a
   minute; without either the wait is exponential.
   */
  lemma RateLimitWaits(script: Script, outcome: Outcome, attempt: nat, n: nat)
    requires outcome.Replied? && n <= INT64_MAX && attempt < 64
    ensures outcome.rateLimitReset == Some(Decimal(n)) ==> RateLimitDelay(script, outcome, attempt) == Min(n + 1, 60)
    ensures outcome.rateLimitReset == None && outcome.retryAfter == Some(Decimal(n)) ==>
              RateLimitDelay(script, outcome, attempt) == Min(n + 1, 60)
    ensures outcome.rateLimitReset == None == outcome.retryAfter ==>
              RateLimitDelay(script, outcome, attempt) == Min(Pow2(attempt), 60)
  {
    AdvisedSeconds(n);
  }

  // ----- how often a batch is stored -----

  /** The outcomes after which the loop tries again while its budget lasts. */
  predicate IsRetried(outcome: Outcome) {
    match outcome
    case Failed(error) => IsPreSendTransportError(error)
    case Replied(status, _, _) => status == 429 || status >= 500
  }

  /** Attempts among the first `n` from `attempt` on whose outcome satisfies `stores`. */
  function StoredCount(script: Script, stores: Outcome -> bool, attempt: nat, n: nat): nat
    decreases n
  {
    if n == 0 then 0
    else (if stores(script.outcome(attempt)) then 1 else 0) + StoredCount(script, stores, attempt + 1, n - 1)
  }

  /** At most `retries + 1` requests, with one wait between any two of them. */
  lemma {:induction false} AttemptsBounded(script: Script, retries: nat, attempt: nat)
    requires attempt <= retries
    ensures Send(script, retries, attempt).posts <= retries - attempt + 1
    ensures |Send(script, retries, attempt).waits| <= retries - attempt
    decreases retries - attempt
  {
    if attempt < retries {
      AttemptsBounded(script, retries, attempt + 1);
    }
  }

  /** Every request but the last ended in a retried outcome; a delivered batch ended in success. */
  lemma {:induction false} OnlyLastCanStore(script: Script, retries: nat, attempt: nat, stores: Outcome -> bool)
    requires attempt <= retries
    requires forall o :: IsRetried(o) ==> !stores(o)
    ensures StoredCount(script, stores, attempt, Send(script, retries, attempt).posts) <= 1
    ensures Send(script, retries, attempt).result == Delivered && (forall o :: IsSuccess(o) ==> stores(o)) ==>
              StoredCount(script, stores, attempt, Send(script, retries, attempt).posts) == 1
    decreases retries - attempt
  {
    if !script.interrupted(attempt) {
      var outcome := script.outcome(attempt);
      match Decide(script, outcome, attempt, retries) {
        case Finish(result) =>
          assert StoredCount(script, stores, attempt + 1, 0) == 0;
        case Retry(wait) =>
          assert IsRetried(outcome);
          if script.interruptedWait(attempt) {
            assert StoredCount(script, stores, attempt + 1, 0) == 0;
          } else {
            OnlyLastCanStore(script, retries, attempt + 1, stores);
          }
      }
    }
  }

  /** No call stores a batch twice, whatever the server does and however large the budget. */
  ghost predicate AtMostOnce(stores: Outcome -> bool) {
    forall script: Script, retries: nat :: StoredCount(script, stores, 0, Send(script, retries, 0).posts) <= 1
  }

  /** The same retried outcome twice. */
  lemma StoredTwice(o: Outcome, stores: Outcome -> bool)
    requires IsRetried(o) && stores(o)
    ensures exists script: Script, retries: nat :: StoredCount(script, stores, 0, Send(script, retries, 0).posts) > 1
  {
    var script := Script(k => o, k => false, k => false, k => 0);
    assert Decide(script, o, 0, 1).Retry? && Decide(script, o, 1, 1).Finish?;
    assert Send(script, 1, 1).posts == 1 && Send(script, 1, 0).posts == 2;
    assert StoredCount(script, stores, 2, 0) == 0;
    assert StoredCount(script, stores, 1, 1) == 1;
    assert StoredCount(script, stores, 0, 2) == 2;
    assert StoredCount(script, stores, 0, Send(script, 1, 0).posts) > 1;
  }

  /**
   When an attempt may have stored its batch for the outcomes in `stores`, no call stores twice
   exactly if no retried outcome (pre-send error, 429 or a server error) is among them.
   */
  lemma AtMostOnceIff(stores: Outcome -> bool)
    ensures AtMostOnce(stores) <==> forall o :: IsRetried(o) ==> !stores(o)
  {
    if forall o :: IsRetried(o) ==> !stores(o) {
      forall script: Script, retries: nat
        ensures StoredCount(script, stores, 0, Send(script, retries, 0).posts) <= 1
      {
        OnlyLastCanStore(script, retries, 0, stores);
      }
    }
    if AtMostOnce(stores) {
      forall o | IsRetried(o)
        ensures !stores(o)
      {
        if stores(o) {
          StoredTwice(o, stores);
        }
      }
    }
  }

  /**
   A server that stores a batch and then answers with a server error receives it twice: those are
   retried although a stored batch is possible.
   */
  lemma ServerErrorsCanDuplicate()
    ensures !AtMostOnce((o: Outcome) => o.Replied? && (IsSuccess(o) || o.status >= 500))
  {
    var stores := (o: Outcome) => o.Replied? && (IsSuccess(o) || o.status >= 500);
    var o := Replied(500, None, None);
    assert IsRetried(o) && stores(o);
    StoredTwice(o, stores);
  }

  /** If only pre-send errors, 429 and server errors mean "not stored", a normal return means stored once. */
  lemma DeliveredExactlyOnce(script: Script, retries: nat, stores: Outcome -> bool)
    requires forall o :: IsRetried(o) ==> !stores(o)
    requires forall o :: IsSuccess(o) ==> stores(o)
    ensures Send(script, retries, 0).posts <= retries + 1
    ensures StoredCount(script, stores, 0, Send(script, retries, 0).posts) <= 1
    ensures Send(script, retries, 0).result == Delivered ==>
              StoredCount(script, stores, 0, Send(script, retries, 0).posts) == 1
  {
    AttemptsBounded(script, retries, 0);
    OnlyLastCanStore(script, retries, 0, stores);
  }

  // ----- how long a call waits -----

  predicate AllWithin(waits: seq<nat>) {
    forall i :: 0 <= i < |waits| ==> 1 <= waits[i] <= 60
  }

  lemma {:induction false} WaitsWithin(script: Script, retries: nat, attempt: nat)
    requires attempt <= retries <= 64
    ensures AllWithin(Send(script, retries, attempt).waits)
    decreases retries - attempt
  {
    if attempt < retries {
      Pow2AtLeast(attempt);
      WaitsWithin(script, retries, attempt + 1);
    }
  }

  /** A server that refuses every connection makes the client wait the exponential schedule. */
  lemma {:induction false} PureBackoff(script: Script, retries: nat, attempt: nat)
    requires attempt <= retries
    requires forall k :: script.outcome(k) == Failed(Connection) && !script.interrupted(k) && !script.interruptedWait(k)
    ensures var waits := Send(script, retries, attempt).waits;
            |waits| == retries - attempt && forall i :: 0 <= i < |waits| ==> waits[i] == Backoff(script, attempt + i)
    decreases retries - attempt
  {
    assert script.outcome(attempt) == Failed(Connection);
    assert !script.interrupted(attempt) && !script.interruptedWait(attempt);
    if attempt < retries {
      PureBackoff(script, retries, attempt + 1);
    }
  }

  /** Every wait lies in 1..60 seconds, whatever undefined shifts give, exactly for budgets up to 64. */
  lemma WaitsWithinIff(retries: nat)
    ensures (forall script: Script :: AllWithin(Send(script, retries, 0).waits)) <==> retries <= 64
  {
    if retries <= 64 {
      forall script: Script
        ensures AllWithin(Send(script, retries, 0).waits)
      {
        WaitsWithin(script, retries, 0);
      }
    } else {
      var script := Script(k => Failed(Connection), k => false, k => false, k => 0);
      PureBackoff(script, retries, 0);
      assert Send(script, retries, 0).waits[64] == Backoff(script, 64) == 0;
    }
  }

  /** The total of the first `n` exponential waits. */
  function TotalBackoff(script: Script, n: nat): nat {
    if n == 0 then 0 else TotalBackoff(script, n - 1) + Backoff(script, n - 1)
  }

  lemma {:induction false} Pow2Grows(n: nat)
    requires n >= 6
    ensures Pow2(n) >= 64
  {
    if n == 6 {
      assert Pow2(6) == 64;
    } else {
      Pow2Grows(n - 1);
    }
  }

  lemma SmallPow2(n: nat)
    requires n < 6
    ensures Pow2(n) <= 32
  {
    assert Pow2(0) == 1 && Pow2(1) == 2 && Pow2(2) == 4 && Pow2(3) == 8 && Pow2(4) == 16 && Pow2(5) == 32;
  }

  /** The closed form of the schedule: doubling up to 32 seconds, then a minute each. */
  lemma {:induction false} TotalBackoffIs(script: Script, n: nat)
    requires n <= 64
    ensures n <= 6 ==> TotalBackoff(script, n) == Pow2(n) - 1
    ensures n > 6 ==> TotalBackoff(script, n) == 63 + 60 * (n - 6)
  {
    if n > 0 {
      TotalBackoffIs(script, n - 1);
      if n <= 6 {
        SmallPow2(n - 1);
      } else {
        Pow2Grows(n - 1);
        assert Pow2(6) == 64;
      }
    }
  }

  lemma {:induction false} SumIsTotal(script: Script, waits: seq<nat>, attempt: nat)
    requires forall i :: 0 <= i < |waits| ==> waits[i] == Backoff(script, attempt + i)
    ensures TotalBackoff(script, attempt) + Sum(waits) == TotalBackoff(script, attempt + |waits|)
    decreases |waits|
  {
    if waits != [] {
      assert waits[0] == Backoff(script, attempt);
      SumIsTotal(script, waits[1..], attempt + 1);
    }
  }

  /** The whole wait of a call that never connects. */
  lemma RefusedCallWaits(script: Script, retries: nat)
    requires retries <= 64
    requires forall k :: script.outcome(k) == Failed(Connection) && !script.interrupted(k) && !script.interruptedWait(k)
    ensures Sum(Send(script, retries, 0).waits) == if retries <= 6 then Pow2(retries) - 1 else 63 + 60 * (retries - 6)
  {
    PureBackoff(script, retries, 0);
    SumIsTotal(script, Send(script, retries, 0).waits, 0);
    TotalBackoffIs(script, retries);
  }
}
