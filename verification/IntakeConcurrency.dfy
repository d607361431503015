/**
 Concurrent intake requests over one writer. Each request is handled by a thread of its own; a step is
 one action of one thread, and the actions between taking and releasing the writer lock are separate
 steps of an open transaction.
 */
module IntakeConcurrency {
  import opened Prelude

  /** What validation makes of a request (its rows, or the status it is refused with), and its table. */
  datatype Request<R> = Request(verdict: Result<seq<R>, int>, series: bool)

  datatype Phase =
    | Received
    | Waiting
    | Appending(k: nat)
    | Stored
    | RequestCounted
    | RowsCounted
    | Answered(status: int)

  /**
   `pending` is what the open transaction holds. `commits`, `stored` and `counted` record the history:
   the commit order, which requests got past appending, and which reached the row counter.
   */
  datatype State<R> = State(
    logs: seq<R>,
    series: seq<R>,
    pending: seq<R>,
    lock: Option<nat>,
    phases: seq<Phase>,
    totalRequests: nat,
    totalRows: nat,
    commits: seq<nat>,
    stored: seq<bool>,
    counted: seq<bool>)

  datatype Step =
    | Validate(i: nat)
    | Lock(i: nat)
    | AppendRow(i: nat)
    | Commit(i: nat)
    | Fail(i: nat, status: int)
    | CountRequest(i: nat)
    | CountRows(i: nat)
    | Answer(i: nat)
    | AnswerFails(i: nat)

  function Rows<R>(r: Request<R>): seq<R> {
    if r.verdict.Ok? then r.verdict.value else []
  }

  predicate Refusals<R>(requests: seq<Request<R>>) {
    forall i :: 0 <= i < |requests| && requests[i].verdict.Err? ==> requests[i].verdict.error in {400, 403, 413, 500}
  }

  /** As many threads as requests, and no refusal with the status of an accepted request. */
  predicate Shape<R>(requests: seq<Request<R>>, s: State<R>) {
    && |s.phases| == |s.stored| == |s.counted| == |requests|
    && Refusals(requests)
  }

  predicate Enabled<R>(requests: seq<Request<R>>, s: State<R>, step: Step) {
    step.i < |requests| && Shape(requests, s) &&
    var phase, rows := s.phases[step.i], Rows(requests[step.i]);
    match step
    case Validate(_) => phase.Received?
    case Lock(_) => phase.Waiting? && s.lock.None?
    case AppendRow(_) => phase.Appending? && phase.k < |rows|
    case Commit(_) => phase.Appending? && phase.k == |rows|
    // Any exception between taking the lock and the end of the commit; the catch clause picks 400 or 500.
    case Fail(_, status) => phase.Appending? && status in {400, 500}
    case CountRequest(_) => phase.Stored?
    case CountRows(_) => phase.RequestCounted?
    case Answer(_) => phase.RowsCounted?
    // Building the answer throws after everything was counted.
    case AnswerFails(_) => phase.RowsCounted?
  }

  function At<R>(s: State<R>, i: nat, phase: Phase): State<R>
    requires i < |s.phases|
  {
    s.(phases := s.phases[i := phase])
  }

  function Apply<R>(requests: seq<Request<R>>, s: State<R>, step: Step): State<R>
    requires Enabled(requests, s, step)
  {
    var i, rows := step.i, Rows(requests[step.i]);
    match step
    case Validate(_) =>
      (match requests[i].verdict
       case Err(status) => At(s, i, Answered(status))
       case Ok(_) => if rows == [] then At(s.(stored := s.stored[i := true]), i, Stored) else At(s, i, Waiting))
    case Lock(_) => At(s.(lock := Some(i), pending := []), i, Appending(0))
    case AppendRow(_) => At(s.(pending := s.pending + [rows[s.phases[i].k]]), i, Appending(s.phases[i].k + 1))
    case Commit(_) =>
      At(s.(logs := if requests[i].series then s.logs else s.logs + s.pending,
            series := if requests[i].series then s.series + s.pending else s.series,
            pending := [], lock := None, commits := s.commits + [i], stored := s.stored[i := true]), i, Stored)
    case Fail(_, status) => At(s.(pending := [], lock := None), i, Answered(status))
    case CountRequest(_) => At(s.(totalRequests := s.totalRequests + 1), i, RequestCounted)
    case CountRows(_) =>
      At(s.(totalRows := s.totalRows + |rows|, counted := s.counted[i := true]), i, RowsCounted)
    case Answer(_) => At(s, i, Answered(202))
    case AnswerFails(_) => At(s, i, Answered(500))
  }

  // ----- the invariant -----

  /** The rows of the committed requests for one table, in commit order. */
  function Committed<R>(requests: seq<Request<R>>, commits: seq<nat>, series: bool): seq<R> {
    if commits == [] then []
    else
      var rest, i := Committed(requests, commits[..|commits| - 1], series), commits[|commits| - 1];
      if i < |requests| && requests[i].series == series then rest + Rows(requests[i]) else rest
  }

  /** The rows of the flagged requests together. */
  function Total<R>(requests: seq<Request<R>>, flags: seq<bool>): nat
    requires |flags| == |requests|
  {
    if requests == [] then 0
    else (if flags[0] then |Rows(requests[0])| else 0) + Total(requests[1..], flags[1..])
  }

  predicate Past(phase: Phase) {
    phase.Stored? || phase.RequestCounted? || phase.RowsCounted?
  }

  /** What the phase of one request says about the history. */
  ghost predicate RequestInv<R>(requests: seq<Request<R>>, s: State<R>, i: nat)
    requires Shape(requests, s) && i < |requests|
  {
    var phase := s.phases[i];
    && (phase.Received? || phase.Waiting? || phase.Appending? ==> !s.stored[i])
    && (Past(phase) || phase == Answered(202) ==> s.stored[i])
    && (phase.RowsCounted? || phase == Answered(202) ==> s.counted[i])
    && (phase.Stored? || phase.RequestCounted? ==> !s.counted[i])
    && (s.counted[i] ==> s.stored[i])
    && (s.stored[i] ==> requests[i].verdict.Ok? && (Rows(requests[i]) == [] || i in s.commits))
    && (phase.Waiting? || phase.Appending? ==> requests[i].verdict.Ok? && Rows(requests[i]) != [])
    && (i in s.commits ==> s.stored[i])
    && (phase.Appending? <==> s.lock == Some(i))
    && (phase.Appending? ==> phase.k <= |Rows(requests[i])| && s.pending == Rows(requests[i])[..phase.k])
    && (i in s.commits ==> Rows(requests[i]) != [])
    && (phase.Answered? && requests[i].verdict.Err? ==> phase.status == requests[i].verdict.error)
    && (phase.Answered? ==> phase.status in {202, 400, 403, 413, 500})
    && (phase.Answered? && phase.status != 202 ==>
          (s.stored[i] <==> s.counted[i]) && (s.stored[i] ==> phase.status == 500))
  }

  /** The tables hold exactly the committed requests, whole and in commit order. */
  ghost predicate TablesInv<R>(requests: seq<Request<R>>, s: State<R>) {
    && s.logs == Committed(requests, s.commits, false)
    && s.series == Committed(requests, s.commits, true)
    && (forall a :: 0 <= a < |s.commits| ==> s.commits[a] < |requests|)
    && Distinct(s.commits)
  }

  ghost predicate TotalsInv<R>(requests: seq<Request<R>>, s: State<R>)
    requires Shape(requests, s)
  {
    && s.totalRows == Total(requests, s.counted)
    && |s.logs| + |s.series| == Total(requests, s.stored)
  }

  ghost predicate Inv<R>(requests: seq<Request<R>>, s: State<R>) {
    && Shape(requests, s)
    && (forall i :: 0 <= i < |requests| ==> RequestInv(requests, s, i))
    && TablesInv(requests, s)
    && TotalsInv(requests, s)
  }

  lemma {:induction false} TotalFlag<R>(requests: seq<Request<R>>, flags: seq<bool>, i: nat)
    requires |flags| == |requests| && i < |requests| && !flags[i]
    ensures Total(requests, flags[i := true]) == Total(requests, flags) + |Rows(requests[i])|
  {
    if i == 0 {
      assert flags[i := true][1..] == flags[1..];
    } else {
      TotalFlag(requests[1..], flags[1..], i - 1);
      assert flags[i := true][1..] == flags[1..][i - 1 := true];
    }
  }

  lemma CommittedSnoc<R>(requests: seq<Request<R>>, commits: seq<nat>, i: nat, series: bool)
    requires i < |requests|
    ensures Committed(requests, commits + [i], series) ==
            if requests[i].series == series then Committed(requests, commits, series) + Rows(requests[i])
            else Committed(requests, commits, series)
  {
    assert (commits + [i])[..|commits|] == commits;
  }

  // ----- every step keeps it -----

  lemma RequestsKeep<R>(requests: seq<Request<R>>, s: State<R>, step: Step)
    requires Enabled(requests, s, step) && Inv(requests, s)
    ensures forall i :: 0 <= i < |requests| ==> RequestInv(requests, Apply(requests, s, step), i)
  {
    var t := Apply(requests, s, step);
    assert RequestInv(requests, s, step.i);
    forall i | 0 <= i < |requests|
      ensures RequestInv(requests, t, i)
    {
      assert RequestInv(requests, s, i);
      if step.AppendRow? && i == step.i {
        PrefixSnoc(Rows(requests[i]), s.phases[i].k);
      }
    }
  }

  lemma TablesKeep<R>(requests: seq<Request<R>>, s: State<R>, step: Step)
    requires Enabled(requests, s, step) && Inv(requests, s)
    ensures TablesInv(requests, Apply(requests, s, step))
  {
    assert RequestInv(requests, s, step.i);
    if step.Commit? {
      var i := step.i;
      assert Rows(requests[i])[..|Rows(requests[i])|] == Rows(requests[i]);
      CommittedSnoc(requests, s.commits, i, false);
      CommittedSnoc(requests, s.commits, i, true);
    }
  }

  lemma TotalsKeep<R>(requests: seq<Request<R>>, s: State<R>, step: Step)
    requires Enabled(requests, s, step) && Inv(requests, s)
    ensures TotalsInv(requests, Apply(requests, s, step))
  {
    var i := step.i;
    assert RequestInv(requests, s, i);
    if step.Commit? || (step.Validate? && requests[i].verdict.Ok? && Rows(requests[i]) == []) {
      TotalFlag(requests, s.stored, i);
    }
    if step.CountRows? {
      TotalFlag(requests, s.counted, i);
    }
  }

  // ----- runs -----

  function Initial<R>(requests: seq<Request<R>>): State<R> {
    State([], [], [], None, seq(|requests|, _ => Received), 0, 0, [],
          seq(|requests|, _ => false), seq(|requests|, _ => false))
  }

  /** The state after these steps; None when one of them was not enabled. */
  function Run<R>(requests: seq<Request<R>>, s: State<R>, steps: seq<Step>): Option<State<R>>
    decreases |steps|
  {
    if steps == [] then Some(s)
    else if !Enabled(requests, s, steps[0]) then None
    else Run(requests, Apply(requests, s, steps[0]), steps[1..])
  }

  lemma RunOne<R>(requests: seq<Request<R>>, s: State<R>, step: Step, rest: seq<Step>)
    requires Enabled(requests, s, step)
    ensures Run(requests, s, [step] + rest) == Run(requests, Apply(requests, s, step), rest)
  {
    assert ([step] + rest)[1..] == rest;
  }

  lemma {:induction false} NothingFlagged<R>(requests: seq<Request<R>>, flags: seq<bool>)
    requires |flags| == |requests| && forall i :: 0 <= i < |flags| ==> !flags[i]
    ensures Total(requests, flags) == 0
  {
    if requests != [] {
      NothingFlagged(requests[1..], flags[1..]);
    }
  }

  lemma {:induction false} RunKeeps<R>(requests: seq<Request<R>>, s: State<R>, steps: seq<Step>)
    requires Inv(requests, s) && Run(requests, s, steps).Some?
    ensures Inv(requests, Run(requests, s, steps).value)
    decreases |steps|
  {
    if steps != [] {
      RequestsKeep(requests, s, steps[0]);
      TablesKeep(requests, s, steps[0]);
      TotalsKeep(requests, s, steps[0]);
      RunKeeps(requests, Apply(requests, s, steps[0]), steps[1..]);
    }
  }

  lemma Reachable<R>(requests: seq<Request<R>>, steps: seq<Step>)
    requires Refusals(requests) && Run(requests, Initial(requests), steps).Some?
    ensures Inv(requests, Run(requests, Initial(requests), steps).value)
  {
    NothingFlagged(requests, Initial(requests).stored);
    NothingFlagged(requests, Initial(requests).counted);
    RunKeeps(requests, Initial(requests), steps);
  }

  // ----- what the server promises -----

  /** The table a request writes to. */
  function Table<R>(s: State<R>, series: bool): seq<R> {
    if series then s.series else s.logs
  }

  ghost predicate AppearsAt<R>(part: seq<R>, whole: seq<R>, start: nat) {
    start + |part| <= |whole| && whole[start..start + |part|] == part
  }

  /** `part` appears in `whole` in one piece. */
  ghost predicate Contiguous<R>(part: seq<R>, whole: seq<R>) {
    exists start: nat :: AppearsAt(part, whole, start)
  }

  lemma {:induction false} CommittedContiguous<R>(requests: seq<Request<R>>, commits: seq<nat>, i: nat)
    requires i in commits && i < |requests|
    ensures Contiguous(Rows(requests[i]), Committed(requests, commits, requests[i].series))
  {
    var series, rows := requests[i].series, Rows(requests[i]);
    var init, last := commits[..|commits| - 1], commits[|commits| - 1];
    assert commits == init + [last];
    var before, whole := Committed(requests, init, series), Committed(requests, commits, series);
    if last == i {
      assert AppearsAt(rows, whole, |before|);
    } else {
      CommittedContiguous(requests, init, i);
      var start: nat :| AppearsAt(rows, before, start);
      assert before <= whole;
      assert AppearsAt(rows, whole, start);
    }
  }

  /** What the answer to request `i` says about the tables. */
  ghost predicate AnswerIsTrue<R>(requests: seq<Request<R>>, s: State<R>, i: nat)
    requires Shape(requests, s) && i < |requests|
  {
    match s.phases[i]
    case Answered(status) =>
      && status in {202, 400, 403, 413, 500}
      && (status == 202 ==> s.counted[i] && Contiguous(Rows(requests[i]), Table(s, requests[i].series)))
      && (status in {400, 403, 413} ==> i !in s.commits && !s.counted[i])
      && (status == 500 ==> (i in s.commits <==> s.counted[i] && Rows(requests[i]) != []))
    case _ => true
  }

  /**
   In every reachable state the tables are the complete row lists of the committed requests in commit
   order. A request answered with 202 is there in one piece and counted; one answered with 400, 403 or 413
   contributes nothing; one answered with 500 contributes exactly when it was counted and has rows.
   */
  lemma IntakeIsAtomic<R>(requests: seq<Request<R>>, steps: seq<Step>)
    requires Refusals(requests) && Run(requests, Initial(requests), steps).Some?
    ensures var s := Run(requests, Initial(requests), steps).value;
            && Shape(requests, s)
            && s.logs == Committed(requests, s.commits, false)
            && s.series == Committed(requests, s.commits, true)
            && Distinct(s.commits)
            && (forall i :: 0 <= i < |requests| ==> AnswerIsTrue(requests, s, i))
            && (forall i :: 0 <= i < |requests| && requests[i].verdict.Err? ==> i !in s.commits)
  {
    Reachable(requests, steps);
    var s := Run(requests, Initial(requests), steps).value;
    forall i | 0 <= i < |requests|
      ensures AnswerIsTrue(requests, s, i)
      ensures requests[i].verdict.Err? ==> i !in s.commits
    {
      assert RequestInv(requests, s, i);
      if s.phases[i] == Answered(202) {
        if Rows(requests[i]) == [] {
          assert AppearsAt(Rows(requests[i]), Table(s, requests[i].series), 0);
        } else {
          CommittedContiguous(requests, s.commits, i);
        }
      }
    }
  }

  lemma {:induction false} TotalsAgree<R>(requests: seq<Request<R>>, some: seq<bool>, all: seq<bool>)
    requires |some| == |all| == |requests| && forall i :: 0 <= i < |requests| && some[i] ==> all[i]
    ensures Total(requests, some) <= Total(requests, all)
    ensures Total(requests, some) == Total(requests, all) <==>
            forall i :: 0 <= i < |requests| && all[i] && Rows(requests[i]) != [] ==> some[i]
  {
    if requests != [] {
      TotalsAgree(requests[1..], some[1..], all[1..]);
      assert (forall i :: 0 <= i < |requests| && all[i] && Rows(requests[i]) != [] ==> some[i]) <==>
             (all[0] && Rows(requests[0]) != [] ==> some[0]) &&
             forall i :: 0 <= i < |requests| - 1 && all[1..][i] && Rows(requests[1..][i]) != [] ==> some[1..][i];
    }
  }

  /**
   The row counter is the sum over the requests that reached it, so it equals the size of the two
   tables exactly when no stored request with rows is still on its way to the counter.
   */
  lemma RowCounterIsExact<R>(requests: seq<Request<R>>, steps: seq<Step>)
    requires Refusals(requests) && Run(requests, Initial(requests), steps).Some?
    ensures var s := Run(requests, Initial(requests), steps).value;
            && Shape(requests, s)
            && s.totalRows == Total(requests, s.counted)
            && s.totalRows <= |s.logs| + |s.series|
            && (s.totalRows == |s.logs| + |s.series| <==>
                forall i :: 0 <= i < |requests| && s.stored[i] && Rows(requests[i]) != [] ==> s.counted[i])
  {
    Reachable(requests, steps);
    var s := Run(requests, Initial(requests), steps).value;
    forall i | 0 <= i < |requests|
      ensures s.counted[i] ==> s.stored[i]
    {
      assert RequestInv(requests, s, i);
    }
    TotalsAgree(requests, s.counted, s.stored);
  }
}
