/** What the queue writes into its rows, field by field and run by run. */
module OperationMeaning {
  import opened Sums
  import opened OperationQueue
  import opened OperationStore

  // ---------- requests, claims and recovery ----------

  /** The stages of an operation, in the order in which they are executed. */
  lemma StagesInOrder(kind: Kind)
    ensures Stages(kind) == match kind
                            case Prepare => [DailyStage, ReportsStage, ParseStage]
                            case SyncDaily => [DailyStage]
                            case SyncSalesLimits => [LimitsStage]
                            case SyncReports => [ReportsStage]
                            case ParseReports => [ParseStage]
  {
  }

  /** A request is accepted exactly when no row holds the slot. It appends one queued row, in the slot,
      with nothing done yet out of three stages for a preparation and one for anything else. */
  lemma RequestIs(q: Queue, kind: Kind)
    ensures var after := Next(q, Enqueue(kind));
            if exists op :: op in q.ops && op.activeSlot == Some(1) then after == q
            else
              && after.worker == q.worker && |after.ops| == |q.ops| + 1 && after.ops[..|q.ops|] == q.ops
              && var row := after.ops[|q.ops|];
                 && row.kind == kind && row.status == Queued && row.activeSlot == Some(1) && row.currentStage == None
                 && row.stageCompleted == 0 && row.stageTotal == (if kind == Prepare then 3 else 1)
                 && row.runIds == [] && row.latestNav == None && !row.error
                 && row.written == row.failed == row.created == row.settled == row.executions == row.positions == 0
  {
    if op :| op in q.ops && op.activeSlot == Some(1) {
      var i :| 0 <= i < |q.ops| && q.ops[i] == op;
      assert SlotTaken(q.ops);
    }
  }

  /** An idle worker takes the earliest queued row: it runs from now on, in its first stage, and nothing
      else about it or about any other row changes. */
  lemma ClaimTakesEarliest(ops: seq<Operation>, i: nat)
    requires i < |ops| && ops[i].status == Queued && forall j :: 0 <= j < i ==> ops[j].status != Queued
    ensures var after := Next(Queue(ops, Idle), Claim);
            && after.worker == Working(i, false, [])
            && after.ops == ops[i := ops[i].(status := Running, currentStage := Some(Stages(ops[i].kind)[0]))]
  {
    ClaimIs(ops, i);
  }

  /** A restart fails the running rows, frees the slot and changes nothing else about any row. */
  lemma RestartFailsRunning(ops: seq<Operation>, i: nat)
    requires i < |ops|
    ensures var after := Next(Queue(ops, Down), Restart).ops;
            && |after| == |ops|
            && after[i] == if ops[i].status == Running
                           then ops[i].(status := Failed, activeSlot := None, error := true) else ops[i]
  {
  }

  /** A crash leaves every row as it is and the worker down, whatever it was doing. */
  lemma CrashKeepsRows(q: Queue)
    ensures Next(q, Crash).ops == q.ops && Next(q, Crash).worker == Down
  {
  }

  /** While a stage is outstanding an operation cannot complete, and after the last one nothing but
      completing, a crash or a request for other work can happen to the queue. */
  lemma StagesBeforeCompletion(q: Queue, e: Event)
    requires q.worker.Working? && q.worker.id < |q.ops|
    ensures var n, done := |Stages(q.ops[q.worker.id].kind)|, |q.worker.results|;
            && (e.Complete? && (q.worker.begun || done != n) ==> Next(q, e) == q)
            && (done == n && !q.worker.begun && (e.BeginStage? || e.FinishStage? || e.StageRaises?) ==> Next(q, e) == q)
            && (e.Claim? || e.Restart? ==> Next(q, e) == q)
  {
    hide Stages;
  }

  // ---------- the counters of an execution ----------

  function SumInts(xs: seq<int>): int
  {
    if xs == [] then 0 else SumInts(xs[..|xs| - 1]) + xs[|xs| - 1]
  }

  /** All ingestion runs of some stages, in order. */
  function Runs(rs: seq<StageResult>): seq<IngestionRun>
  {
    if rs == [] then [] else Runs(rs[..|rs| - 1]) + rs[|rs| - 1].runs
  }

  function Ids(runs: seq<IngestionRun>): (r: seq<int>)
    ensures |r| == |runs|
  {
    seq(|runs|, i requires 0 <= i < |runs| => runs[i].id)
  }

  function Writtens(runs: seq<IngestionRun>): (r: seq<int>)
    ensures |r| == |runs|
  {
    seq(|runs|, i requires 0 <= i < |runs| => runs[i].written)
  }

  function Faileds(runs: seq<IngestionRun>): (r: seq<int>)
    ensures |r| == |runs|
  {
    seq(|runs|, i requires 0 <= i < |runs| => runs[i].failed)
  }

  lemma {:induction false} SumIntsAppend(a: seq<int>, b: seq<int>)
    ensures SumInts(a + b) == SumInts(a) + SumInts(b)
  {
    if b == [] {
      assert a + b == a;
    } else {
      assert (a + b)[..|a + b| - 1] == a + b[..|b| - 1];
      SumIntsAppend(a, b[..|b| - 1]);
    }
  }

  lemma {:induction false} RunTotals(runs: seq<IngestionRun>)
    ensures TotalWritten(runs) == SumInts(Writtens(runs)) && TotalFailed(runs) == SumInts(Faileds(runs))
    ensures RunIds(runs) == Ids(runs)
  {
    if runs != [] {
      var n := |runs| - 1;
      RunTotals(runs[..n]);
      assert Writtens(runs)[..n] == Writtens(runs[..n]) && Faileds(runs)[..n] == Faileds(runs[..n]);
    }
  }

  lemma {:induction false} WrittenTotal(rs: seq<StageResult>, amount: StageResult -> int)
    requires forall r :: amount(r) == TotalWritten(r.runs)
    ensures Total(rs, amount) == SumInts(Writtens(Runs(rs)))
  {
    if rs != [] {
      var n := |rs| - 1;
      WrittenTotal(rs[..n], amount);
      RunTotals(rs[n].runs);
      assert Writtens(Runs(rs)) == Writtens(Runs(rs[..n])) + Writtens(rs[n].runs);
      SumIntsAppend(Writtens(Runs(rs[..n])), Writtens(rs[n].runs));
    }
  }

  lemma {:induction false} FailedTotal(rs: seq<StageResult>, amount: StageResult -> int)
    requires forall r :: amount(r) == TotalFailed(r.runs)
    ensures Total(rs, amount) == SumInts(Faileds(Runs(rs)))
  {
    if rs != [] {
      var n := |rs| - 1;
      FailedTotal(rs[..n], amount);
      RunTotals(rs[n].runs);
      assert Faileds(Runs(rs)) == Faileds(Runs(rs[..n])) + Faileds(rs[n].runs);
      SumIntsAppend(Faileds(Runs(rs[..n])), Faileds(rs[n].runs));
    }
  }

  lemma {:induction false} IdsOfRuns(rs: seq<StageResult>)
    ensures AllRunIds(rs) == Ids(Runs(rs))
  {
    if rs != [] {
      IdsOfRuns(rs[..|rs| - 1]);
      RunTotals(rs[|rs| - 1].runs);
      assert Ids(Runs(rs)) == Ids(Runs(rs[..|rs| - 1])) + Ids(rs[|rs| - 1].runs);
    }
  }

  datatype Counter = CREATED | SETTLED | EXECUTIONS | POSITIONS

  function CountOf(r: StageResult, c: Counter): int
  {
    match c
    case CREATED => r.created
    case SETTLED => r.settled
    case EXECUTIONS => r.executions
    case POSITIONS => r.positions
  }

  function Counts(rs: seq<StageResult>, c: Counter): (s: seq<int>)
    ensures |s| == |rs|
  {
    seq(|rs|, i requires 0 <= i < |rs| => CountOf(rs[i], c))
  }

  lemma {:induction false} CounterTotal(rs: seq<StageResult>, amount: StageResult -> int, c: Counter)
    requires forall r :: amount(r) == CountOf(r, c)
    ensures Total(rs, amount) == SumInts(Counts(rs, c))
  {
    if rs != [] {
      CounterTotal(rs[..|rs| - 1], amount, c);
      assert Counts(rs, c)[..|rs| - 1] == Counts(rs[..|rs| - 1], c);
    }
  }

  /** The stage reported a NAV date and no later one did. */
  ghost predicate LastToReport(rs: seq<StageResult>, i: int)
  {
    0 <= i < |rs| && rs[i].latestNav.Some? && forall j :: i < j < |rs| ==> rs[j].latestNav.None?
  }

  /** The last NAV date that some stage reported, or the one before if none did. */
  ghost predicate LatestIs(rs: seq<StageResult>, before: Option<int>, now: Option<int>)
  {
    && (forall i :: LastToReport(rs, i) ==> now == rs[i].latestNav)
    && ((forall i :: !LastToReport(rs, i)) ==> now == before)
  }

  lemma LastStage(rs: seq<StageResult>, i: int)
    requires rs != []
    ensures var n := |rs| - 1;
            LastToReport(rs, i)
            <==> if rs[n].latestNav.Some? then i == n else LastToReport(rs[..n], i)
  {
    var n := |rs| - 1;
    if 0 <= i < n { assert rs[..n][i] == rs[i]; }
    if LastToReport(rs[..n], i) && rs[n].latestNav.None? {
      forall j | i < j < |rs| ensures rs[j].latestNav.None? {
        if j < n { assert rs[..n][j] == rs[j]; }
      }
    }
  }

  lemma {:induction false} LatestNavIs(rs: seq<StageResult>, before: Option<int>)
    ensures LatestIs(rs, before, LatestNav(rs, before))
  {
    if rs != [] {
      hide LastToReport;
      var n := |rs| - 1;
      forall i { LastStage(rs, i); }
      if rs[n].latestNav.None? {
        LatestNavIs(rs[..n], before);
        forall i ensures LastToReport(rs[..n], i) <==> LastToReport(rs, i) { LastStage(rs, i); }
        forall i | LastToReport(rs, i) ensures 0 <= i < n && rs[..n][i] == rs[i] { InRange(rs[..n], i); }
      } else {
        assert LastToReport(rs, n);
      }
    }
  }

  lemma InRange(rs: seq<StageResult>, i: int)
    requires LastToReport(rs, i)
    ensures 0 <= i < |rs|
  {
  }

  /** Every counter has grown by the total over all runs or stages. */
  ghost predicate Grown(was: Operation, now: Operation, rs: seq<StageResult>)
  {
    && now.runIds == was.runIds + Ids(Runs(rs))
    && now.written == was.written + SumInts(Writtens(Runs(rs)))
    && now.failed == was.failed + SumInts(Faileds(Runs(rs)))
    && now.created == was.created + SumInts(Counts(rs, CREATED))
    && now.settled == was.settled + SumInts(Counts(rs, SETTLED))
    && now.executions == was.executions + SumInts(Counts(rs, EXECUTIONS))
    && now.positions == was.positions + SumInts(Counts(rs, POSITIONS))
    && LatestIs(rs, was.latestNav, now.latestNav)
  }

  lemma AddedUpIsGrown(was: Operation, now: Operation, rs: seq<StageResult>)
    requires AddedUp(was, now, rs)
    ensures Grown(was, now, rs)
  {
    hide Total, SumInts, Runs, LatestNav, LatestIs, AllRunIds, TotalWritten, TotalFailed;
    var written, failed := (r: StageResult) => TotalWritten(r.runs), (r: StageResult) => TotalFailed(r.runs);
    WrittenTotal(rs, written);
    FailedTotal(rs, failed);
    var created, settled := (r: StageResult) => r.created, (r: StageResult) => r.settled;
    CounterTotal(rs, created, CREATED);
    CounterTotal(rs, settled, SETTLED);
    var executions, positions := (r: StageResult) => r.executions, (r: StageResult) => r.positions;
    CounterTotal(rs, executions, EXECUTIONS);
    CounterTotal(rs, positions, POSITIONS);
    IdsOfRuns(rs);
    LatestNavIs(rs, was.latestNav);
  }

  // ---------- how an execution ends ----------

  ghost predicate OthersKept(ops: seq<Operation>, q: Queue, id: nat)
  {
    |q.ops| == |ops| && forall i :: 0 <= i < |ops| && i != id ==> q.ops[i] == ops[i]
  }

  lemma StepKeepsOthers(ops: seq<Operation>, q: Queue, id: nat, e: Event)
    requires q.worker.Working? && q.worker.id == id < |q.ops| && OthersKept(ops, q, id)
    requires e.BeginStage? || e.FinishStage? || e.StageRaises? || e.Complete?
    ensures OthersKept(ops, Next(q, e), id)
  {
    hide Recorded, Ended, CombinedStatus;
  }

  lemma {:induction false} StagesKeepOthers(ops: seq<Operation>, id: nat, outcomes: Outcomes, k: nat)
    requires id < |ops| && k <= |Stages(ops[id].kind)| && AllReturn(outcomes, k)
    ensures OthersKept(ops, Run(Queue(ops, Working(id, false, [])), Commits(outcomes, k)), id)
  {
    var start := Queue(ops, Working(id, false, []));
    hide Run, Next, OthersKept, Stages;
    if k == 0 {
      RunNothing(start);
      assert OthersKept(ops, start, id) by { AllKept(ops, start, id); }
    } else {
      StagesKeepOthers(ops, id, outcomes, k - 1);
      StagesAddUp(ops, id, outcomes, k - 1);
      RunStage(start, outcomes, k - 1);
      var q := Run(start, Commits(outcomes, k - 1));
      assert q.worker == Working(id, false, ResultsOf(outcomes, k - 1));
      StepKeepsOthers(ops, q, id, BeginStage);
      BeginsStage(q, id, ops[id].kind, ResultsOf(outcomes, k - 1), ops);
      StepKeepsOthers(ops, Next(q, BeginStage), id, CommitOf(outcomes(k - 1)));
    }
  }

  lemma AllKept(ops: seq<Operation>, q: Queue, id: nat)
    requires q.ops == ops
    ensures OthersKept(ops, q, id)
  {
  }

  lemma BeginsStage(q: Queue, id: nat, kind: Kind, rs: seq<StageResult>, ops: seq<Operation>)
    requires q.worker == Working(id, false, rs) && id < |q.ops|
    ensures Next(q, BeginStage).worker.Working? && Next(q, BeginStage).worker.id == id < |Next(q, BeginStage).ops|
  {
    hide Stages;
  }

  /** All stages return: the counters have grown by everything the stages report, the row is out of the
      slot without an error, and no other row has changed. */
  lemma ExecutionSucceeds(ops: seq<Operation>, id: nat, outcomes: Outcomes)
    requires id < |ops| && AllReturn(outcomes, |Stages(ops[id].kind)|)
    ensures var n := |Stages(ops[id].kind)|;
            var q := Run(Queue(ops, Working(id, false, [])), Commits(outcomes, n) + [Complete]);
            && q.worker == Idle && OthersKept(ops, q, id)
            && Grown(ops[id], q.ops[id], ResultsOf(outcomes, n))
            && q.ops[id].activeSlot == None && q.ops[id].currentStage == None && !q.ops[id].error
            && (q.ops[id].status == Partial
                <==> (exists i: nat :: i < n && outcomes(i).r.status != Succeeded)
                     && exists i: nat :: i < n && outcomes(i).r.status != Failed)
  {
    hide Run, Grown, CombinedStatus, OthersKept, AddedUp;
    var n := |Stages(ops[id].kind)|;
    var start := Queue(ops, Working(id, false, []));
    ExecutionAddsUp(ops, id, outcomes);
    StagesAddUp(ops, id, outcomes, n);
    StagesKeepOthers(ops, id, outcomes, n);
    RunOneMore(start, Commits(outcomes, n), Complete);
    var before := Run(start, Commits(outcomes, n));
    StepKeepsOthers(ops, before, id, Complete);
    SameKind(ops[id], before.ops[id], ResultsOf(outcomes, n));
    AddedUpIsGrown(ops[id], Run(start, Commits(outcomes, n) + [Complete]).ops[id], ResultsOf(outcomes, n));
    PartialOtherwise(ResultsOf(outcomes, n));
  }

  lemma PartialOtherwise(rs: seq<StageResult>)
    ensures CombinedStatus(rs) in {Succeeded, Failed, Partial}
  {
  }

  /** The stage after `k` that return raises: the row has failed with an error and is out of the slot,
      with exactly those `k` stages on record, in counters and in progress. */
  lemma ExecutionFails(ops: seq<Operation>, id: nat, outcomes: Outcomes, k: nat)
    requires Safe(Queue(ops, Working(id, false, []))) && k < |Stages(ops[id].kind)|
    requires AllReturn(outcomes, k) && outcomes(k).Raised?
    ensures var q := Run(Queue(ops, Working(id, false, [])), Commits(outcomes, k + 1));
            && q.worker == Idle && OthersKept(ops, q, id)
            && Grown(ops[id], q.ops[id], ResultsOf(outcomes, k)) && q.ops[id].stageCompleted == k
            && q.ops[id].status == Failed && q.ops[id].error
            && q.ops[id].activeSlot == None && q.ops[id].currentStage == None
  {
    hide Run, Grown, OthersKept, AddedUp, Stages, OneActive, RowSound;
    var start := Queue(ops, Working(id, false, []));
    var before := Run(start, Commits(outcomes, k));
    StagesAddUp(ops, id, outcomes, k);
    StagesKeepOthers(ops, id, outcomes, k);
    RunSafeFrom(start, Commits(outcomes, k));
    RunStage(start, outcomes, k);
    StepKeepsOthers(ops, before, id, BeginStage);
    BeginsStage(before, id, ops[id].kind, ResultsOf(outcomes, k), ops);
    StepKeepsOthers(ops, Next(before, BeginStage), id, StageRaises);
    SameKind(ops[id], before.ops[id], ResultsOf(outcomes, k));
    RaisedAddsUp(ops[id], before.ops[id], ResultsOf(outcomes, k), Some(Stages(ops[id].kind)[k]));
    AddedUpIsGrown(ops[id], Ended(before.ops[id].(currentStage := Some(Stages(ops[id].kind)[k])), Failed, true),
                   ResultsOf(outcomes, k));
  }

  lemma RaisedAddsUp(was: Operation, now: Operation, rs: seq<StageResult>, stage: Option<Stage>)
    requires AddedUp(was, now, rs)
    ensures AddedUp(was, Ended(now.(currentStage := stage), Failed, true), rs)
  {
  }
}
