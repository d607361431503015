/**
 The link between the handler of the intake server and the concurrent protocol: the steps of a request
 that nobody disturbs are one call of the handler.
 */
module IntakeRuns {
  import opened Prelude
  import opened IntakeConcurrency
  import opened IntakeMapping
  import opened IntakeServer

  type IntakeRequest = IntakeConcurrency.Request<IntakeRow>
  type IntakeState = State<IntakeRow>

  // ----- the steps of one request -----

  function AppendSteps(i: nat, n: nat): seq<Step> {
    if n == 0 then [] else AppendSteps(i, n - 1) + [AppendRow(i)]
  }

  function AnswerStep(i: nat, fault: Option<Fault>): Step {
    if fault == Some(WhileAnswering) then AnswerFails(i) else Answer(i)
  }

  function CountSteps(i: nat, fault: Option<Fault>): seq<Step> {
    [CountRequest(i)] + ([CountRows(i)] + [AnswerStep(i, fault)])
  }

  /** From the lock to the answer, for a request with rows. */
  function TransactionSteps(i: nat, rows: seq<IntakeRow>, fault: Option<Fault>): seq<Step> {
    if AppendFails(rows, fault) then
      [Lock(i)] + (AppendSteps(i, fault.value.after) + [Fail(i, Status(Ok(rows), fault))])
    else
      [Lock(i)] + (AppendSteps(i, |rows|) + ([Commit(i)] + CountSteps(i, fault)))
  }

  function RequestSteps(i: nat, verdict: Result<seq<IntakeRow>, int>, fault: Option<Fault>): seq<Step> {
    [Validate(i)]
    + match verdict
      case Err(_) => []
      case Ok(rows) => if rows == [] then CountSteps(i, fault) else TransactionSteps(i, rows, fault)
  }

  // ----- what they do -----

  lemma {:induction false} RunAppend(
      requests: seq<IntakeRequest>, s: IntakeState, first: seq<Step>, second: seq<Step>)
    requires Run(requests, s, first).Some?
    ensures Run(requests, s, first + second) == Run(requests, Run(requests, s, first).value, second)
    decreases |first|
  {
    if first == [] {
      assert first + second == second;
    } else {
      assert (first + second)[1..] == first[1..] + second;
      RunAppend(requests, Apply(requests, s, first[0]), first[1..], second);
    }
  }

  /** After the first step the others follow; the last step needs nothing after it. */
  lemma {:induction false} Follow(requests: seq<IntakeRequest>, s: IntakeState, step: Step, rest: seq<Step>)
    requires Enabled(requests, s, step)
    ensures Run(requests, s, [step] + rest) == Run(requests, Apply(requests, s, step), rest)
    ensures Run(requests, s, [step]) == Some(Apply(requests, s, step))
  {
    RunOne(requests, s, step, rest);
    RunOne(requests, s, step, []);
    assert [step] + [] == [step];
  }

  /** The state after `n` rows were appended to the open transaction. */
  function WithRows(requests: seq<IntakeRequest>, s: IntakeState, i: nat, n: nat): IntakeState
    requires i < |requests| && Shape(requests, s) && n <= |Rows(requests[i])|
  {
    s.(pending := Rows(requests[i])[..n], phases := s.phases[i := Appending(n)])
  }

  lemma {:induction false} AppendRun(requests: seq<IntakeRequest>, s: IntakeState, i: nat, n: nat)
    requires i < |requests| && Shape(requests, s) && n <= |Rows(requests[i])|
    requires s.phases[i] == Appending(0) && s.pending == []
    ensures Run(requests, s, AppendSteps(i, n)) == Some(WithRows(requests, s, i, n))
  {
    if n > 0 {
      AppendRun(requests, s, i, n - 1);
      RunAppend(requests, s, AppendSteps(i, n - 1), [AppendRow(i)]);
      Follow(requests, WithRows(requests, s, i, n - 1), AppendRow(i), []);
      PrefixSnoc(Rows(requests[i]), n - 1);
      assert s.phases[i := Appending(n - 1)][i := Appending(n)] == s.phases[i := Appending(n)];
    } else {
      assert s.phases[i := Appending(0)] == s.phases;
    }
  }

  /** The state after the counters were raised and the answer was given. */
  function Counted(requests: seq<IntakeRequest>, s: IntakeState, i: nat, status: int): IntakeState
    requires i < |requests| && Shape(requests, s)
  {
    s.(totalRequests := s.totalRequests + 1, totalRows := s.totalRows + |Rows(requests[i])|,
       counted := s.counted[i := true], phases := s.phases[i := Answered(status)])
  }

  lemma {:induction false} CountRun(requests: seq<IntakeRequest>, s: IntakeState, i: nat, fault: Option<Fault>)
    requires i < |requests| && Shape(requests, s) && s.phases[i] == Stored
    ensures Run(requests, s, CountSteps(i, fault))
         == Some(Counted(requests, s, i, if fault == Some(WhileAnswering) then 500 else 202))
  {
    var s1 := Apply(requests, s, CountRequest(i));
    var s2 := Apply(requests, s1, CountRows(i));
    Follow(requests, s, CountRequest(i), [CountRows(i)] + [AnswerStep(i, fault)]);
    Follow(requests, s1, CountRows(i), [AnswerStep(i, fault)]);
    Follow(requests, s2, AnswerStep(i, fault), []);
    var answered := Answered(if fault == Some(WhileAnswering) then 500 else 202);
    assert s.phases[i := RequestCounted][i := RowsCounted][i := answered] == s.phases[i := answered];
  }

  /** What a handled request leaves behind: as much as one call of the handler, and its answer. */
  ghost predicate Handled(requests: seq<IntakeRequest>, s: IntakeState, end: IntakeState, i: nat,
                          verdict: Result<seq<IntakeRow>, int>, fault: Option<Fault>)
    requires i < |s.phases|
  {
    && end.phases == s.phases[i := Answered(Status(verdict, fault))]
    && end.lock == None && end.series == s.series
    && (if Stores(verdict, fault) then
          && end.logs == s.logs + verdict.value
          && end.totalRows == s.totalRows + |verdict.value|
          && end.totalRequests == s.totalRequests + 1
        else end.logs == s.logs && end.totalRows == s.totalRows && end.totalRequests == s.totalRequests)
  }

  lemma {:induction false} FailedRun(
      requests: seq<IntakeRequest>, s: IntakeState, i: nat, rows: seq<IntakeRow>, fault: Option<Fault>)
    requires i < |requests| && Shape(requests, s) && requests[i] == IntakeConcurrency.Request(Ok(rows), false)
    requires s.phases[i] == Appending(0) && s.pending == [] && s.lock == Some(i) && AppendFails(rows, fault)
    ensures var end := Run(requests, s, AppendSteps(i, fault.value.after) + [Fail(i, Status(Ok(rows), fault))]);
            end.Some? && Handled(requests, s, end.value, i, Ok(rows), fault)
  {
    var n, fail := fault.value.after, Fail(i, Status(Ok(rows), fault));
    AppendRun(requests, s, i, n);
    RunAppend(requests, s, AppendSteps(i, n), [fail]);
    Follow(requests, WithRows(requests, s, i, n), fail, []);
  }

  lemma {:induction false} CommittedRun(
      requests: seq<IntakeRequest>, s: IntakeState, i: nat, rows: seq<IntakeRow>, fault: Option<Fault>)
    requires i < |requests| && Shape(requests, s) && requests[i] == IntakeConcurrency.Request(Ok(rows), false)
    requires s.phases[i] == Appending(0) && s.pending == [] && s.lock == Some(i) && !AppendFails(rows, fault)
    ensures var end := Run(requests, s, AppendSteps(i, |rows|) + ([Commit(i)] + CountSteps(i, fault)));
            end.Some? && Handled(requests, s, end.value, i, Ok(rows), fault)
  {
    AppendRun(requests, s, i, |rows|);
    RunAppend(requests, s, AppendSteps(i, |rows|), [Commit(i)] + CountSteps(i, fault));
    assert rows[..|rows|] == rows;
    var appended := WithRows(requests, s, i, |rows|);
    Follow(requests, appended, Commit(i), CountSteps(i, fault));
    CountRun(requests, Apply(requests, appended, Commit(i)), i, fault);
  }

  /** The steps of an undisturbed log request answer, store and count what one call of the handler does. */
  lemma {:induction false} HandleIsARun(
      requests: seq<IntakeRequest>, s: IntakeState, i: nat, verdict: Result<seq<IntakeRow>, int>, fault: Option<Fault>)
    requires i < |requests| && Shape(requests, s) && requests[i] == IntakeConcurrency.Request(verdict, false)
    requires s.phases[i] == Received && s.lock == None
    ensures var end := Run(requests, s, RequestSteps(i, verdict, fault));
            end.Some? && Handled(requests, s, end.value, i, verdict, fault)
  {
    var validated := Apply(requests, s, Validate(i));
    match verdict {
      case Err(_) =>
        Follow(requests, s, Validate(i), []);
      case Ok(rows) =>
        if rows == [] {
          Follow(requests, s, Validate(i), CountSteps(i, fault));
          CountRun(requests, validated, i, fault);
          assert s.logs + [] == s.logs;
        } else {
          Follow(requests, s, Validate(i), TransactionSteps(i, rows, fault));
          var locked := Apply(requests, validated, Lock(i));
          if AppendFails(rows, fault) {
            Follow(requests, validated, Lock(i), AppendSteps(i, fault.value.after) + [Fail(i, Status(verdict, fault))]);
            FailedRun(requests, locked, i, rows, fault);
          } else {
            Follow(requests, validated, Lock(i), AppendSteps(i, |rows|) + ([Commit(i)] + CountSteps(i, fault)));
            CommittedRun(requests, locked, i, rows, fault);
          }
        }
    }
  }

  /** An answer of 500 does not mean "not stored": here the whole request is in the table. */
  lemma {:induction false} FailedAnswerStores(rows: seq<IntakeRow>)
    requires rows != []
    ensures var requests := [IntakeConcurrency.Request(Ok(rows), false)];
            var end := Run(requests, Initial(requests), RequestSteps(0, Ok(rows), Some(WhileAnswering)));
            end.Some? && end.value.phases == [Answered(500)] && end.value.logs == rows && end.value.totalRows == |rows|
  {
    var requests := [IntakeConcurrency.Request(Ok(rows), false)];
    HandleIsARun(requests, Initial(requests), 0, Ok(rows), Some(WhileAnswering));
    assert [] + rows == rows;
  }
}
