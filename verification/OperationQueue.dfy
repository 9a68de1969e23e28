/** The durable operation queue (backend/app/operation_queue.py) as a state machine over its
    commits: the API enqueues, one worker claims and executes, and either may be interrupted
    between any two commits. */
module OperationQueue {
  import opened Sums
  import opened Calendar

  datatype Kind = Prepare | SyncDaily | SyncSalesLimits | SyncReports | ParseReports

  datatype Stage = DailyStage | LimitsStage | ReportsStage | ParseStage

  datatype Status = Queued | Running | Succeeded | Partial | Failed

  datatype IngestionRun = IngestionRun(id: int, written: int, failed: int)

  datatype StageResult = StageResult(
    status: Status, runs: seq<IngestionRun>, created: int, settled: int, executions: int, positions: int,
    latestNav: Option<Date>)

  datatype Operation = Operation(
    kind: Kind, status: Status, activeSlot: Option<int>, currentStage: Option<Stage>,
    stageCompleted: nat, stageTotal: nat, runIds: seq<int>, written: int, failed: int,
    created: int, settled: int, executions: int, positions: int, latestNav: Option<Date>, error: bool)

  function StageTotal(kind: Kind): nat
  {
    match kind
    case Prepare => 3
    case SyncDaily => 1
    case SyncSalesLimits => 1
    case SyncReports => 1
    case ParseReports => 1
  }

  function Stages(kind: Kind): seq<Stage>
  {
    match kind
    case Prepare => [DailyStage, ReportsStage, ParseStage]
    case SyncDaily => [DailyStage]
    case SyncSalesLimits => [LimitsStage]
    case SyncReports => [ReportsStage]
    case ParseReports => [ParseStage]
  }

  /** The two tables of the source agree; the progress constraint of the table relies on it. */
  lemma StageTablesAgree(kind: Kind)
    ensures |Stages(kind)| == StageTotal(kind) > 0
  {
  }

  function NewOperation(kind: Kind): Operation
  {
    Operation(kind, Queued, Some(1), None, 0, StageTotal(kind), [], 0, 0, 0, 0, 0, 0, None, false)
  }

  function RunIds(runs: seq<IngestionRun>): seq<int>
  {
    seq(|runs|, i requires 0 <= i < |runs| => runs[i].id)
  }

  function TotalWritten(runs: seq<IngestionRun>): int
  {
    if runs == [] then 0 else TotalWritten(runs[..|runs| - 1]) + runs[|runs| - 1].written
  }

  function TotalFailed(runs: seq<IngestionRun>): int
  {
    if runs == [] then 0 else TotalFailed(runs[..|runs| - 1]) + runs[|runs| - 1].failed
  }

  function Recorded(op: Operation, index: nat, r: StageResult): Operation
  {
    op.(stageCompleted := index, runIds := op.runIds + RunIds(r.runs),
        written := op.written + TotalWritten(r.runs), failed := op.failed + TotalFailed(r.runs),
        created := op.created + r.created, settled := op.settled + r.settled,
        executions := op.executions + r.executions, positions := op.positions + r.positions,
        latestNav := if r.latestNav.Some? then r.latestNav else op.latestNav)
  }

  function CombinedStatus(results: seq<StageResult>): Status
  {
    if results != [] && forall r :: r in results ==> r.status == Succeeded then Succeeded
    else if results != [] && forall r :: r in results ==> r.status == Failed then Failed
    else Partial
  }

  predicate IsActive(op: Operation)
  {
    op.status == Queued || op.status == Running
  }

  // ---------- the transition system ----------

  /** Where the worker process is: `done` stages committed, `begun` within the next one. */
  datatype Worker = Down | Idle | Working(id: nat, begun: bool, results: seq<StageResult>)

  datatype Queue = Queue(ops: seq<Operation>, worker: Worker)

  datatype Event =
    | Enqueue(kind: Kind)
    | Claim
    | BeginStage
    | FinishStage(r: StageResult)
    | StageRaises
    | Complete
    | Crash
    | Restart

  predicate SlotTaken(ops: seq<Operation>)
  {
    exists i :: 0 <= i < |ops| && ops[i].activeSlot == Some(1)
  }

  predicate IsNextQueued(ops: seq<Operation>, i: nat)
  {
    i < |ops| && ops[i].status == Queued && forall j :: 0 <= j < i ==> ops[j].status != Queued
  }

  function Claimed(op: Operation): Operation
  {
    op.(status := Running, currentStage := Some(Stages(op.kind)[0]))
  }

  function Ended(op: Operation, status: Status, error: bool): Operation
  {
    op.(status := status, activeSlot := None, currentStage := None, error := error)
  }

  /** Recovery leaves the interrupted stage on record. */
  function Recovered(ops: seq<Operation>): (r: seq<Operation>)
    ensures |r| == |ops|
  {
    seq(|ops|, i requires 0 <= i < |ops| => if ops[i].status == Running then Interrupted(ops[i]) else ops[i])
  }

  function Interrupted(op: Operation): Operation
  {
    op.(status := Failed, activeSlot := None, error := true)
  }

  /** One commit; an event that cannot happen in a state leaves it unchanged. */
  ghost function Next(q: Queue, e: Event): Queue
  {
    match e
    case Enqueue(kind) => if SlotTaken(q.ops) then q else q.(ops := q.ops + [NewOperation(kind)])
    case Claim =>
      if q.worker.Idle? && exists i: nat :: IsNextQueued(q.ops, i)
      then var i: nat :| IsNextQueued(q.ops, i); Queue(q.ops[i := Claimed(q.ops[i])], Working(i, false, []))
      else q
    case Crash => if q.worker.Down? then q else q.(worker := Down)
    case Restart => if q.worker.Down? then Queue(Recovered(q.ops), Idle) else q
    case _ =>
      if q.worker.Working? && q.worker.id < |q.ops| then WorkerStep(q, e, q.worker.id, q.ops[q.worker.id]) else q
  }

  ghost function WorkerStep(q: Queue, e: Event, id: nat, op: Operation): Queue
    requires q.worker.Working? && id == q.worker.id < |q.ops| && op == q.ops[id]
  {
    var done := |q.worker.results|;
    match e
    case BeginStage =>
      if !q.worker.begun && done < |Stages(op.kind)|
      then Queue(q.ops[id := op.(currentStage := Some(Stages(op.kind)[done]))], q.worker.(begun := true)) else q
    case FinishStage(r) =>
      if q.worker.begun
      then Queue(q.ops[id := Recorded(op, done + 1, r)], Working(id, false, q.worker.results + [r])) else q
    case StageRaises =>
      if done < |Stages(op.kind)| then Queue(q.ops[id := Ended(op, Failed, true)], Idle) else q
    case Complete =>
      if !q.worker.begun && done == |Stages(op.kind)|
      then Queue(q.ops[id := Ended(op, CombinedStatus(q.worker.results), false)], Idle) else q
    case _ => q
  }

  ghost function Run(q: Queue, events: seq<Event>): Queue
    decreases events
  {
    if events == [] then q else Run(Next(q, events[0]), events[1..])
  }

  ghost const START: Queue := Queue([], Down)

  // ---------- the invariant ----------

  /** The constraints of one row: slot and status agree, progress stays in range, and an
      execution that ended without an error has gone through all its stages. */
  ghost predicate RowSound(op: Operation)
  {
    && (op.activeSlot == Some(1) <==> IsActive(op)) && (op.activeSlot.Some? ==> op.activeSlot == Some(1))
    && op.stageTotal == StageTotal(op.kind) && op.stageCompleted <= op.stageTotal
    && (op.status == Queued ==> op.stageCompleted == 0)
    && (!IsActive(op) && !op.error ==> op.stageCompleted == op.stageTotal)
    && (IsActive(op) ==> !op.error)
  }

  ghost predicate OneActive(ops: seq<Operation>)
  {
    forall i, j :: 0 <= i < j < |ops| && IsActive(ops[i]) ==> !IsActive(ops[j])
  }

  ghost predicate WorkerSound(q: Queue)
  {
    match q.worker
    case Down => true
    case Idle => forall i :: 0 <= i < |q.ops| ==> q.ops[i].status != Running
    case Working(id, begun, results) =>
      && id < |q.ops| && q.ops[id].status == Running
      && q.ops[id].stageCompleted == |results|
      && (begun ==> |results| < q.ops[id].stageTotal)
  }

  ghost predicate Safe(q: Queue)
  {
    && (forall i :: 0 <= i < |q.ops| ==> RowSound(q.ops[i]))
    && OneActive(q.ops)
    && WorkerSound(q)
  }

  lemma ReplaceRow(q: Queue, id: nat, op: Operation, worker: Worker)
    requires Safe(q) && id < |q.ops| && RowSound(op) && IsActive(q.ops[id])
    ensures var ops := q.ops[id := op];
            && (forall i :: 0 <= i < |ops| ==> RowSound(ops[i])) && OneActive(ops)
            && forall i :: 0 <= i < |ops| && i != id ==> !IsActive(ops[i])
  {
    hide RowSound;
  }

  lemma WorkerStepSafe(q: Queue, e: Event)
    requires Safe(q) && q.worker.Working?
    ensures Safe(WorkerStep(q, e, q.worker.id, q.ops[q.worker.id]))
  {
    hide OneActive, TotalWritten, TotalFailed, RunIds, CombinedStatus;
    var id, done := q.worker.id, |q.worker.results|;
    var op := q.ops[id];
    assert RowSound(op);
    StageTablesAgree(op.kind);
    CombinedIsFinal(q.worker.results);
    var next := WorkerStep(q, e, id, op);
    if next != q {
      ReplaceRow(q, id, next.ops[id], next.worker);
      assert next.ops == q.ops[id := next.ops[id]];
    }
  }

  lemma CombinedIsFinal(results: seq<StageResult>)
    ensures CombinedStatus(results) != Queued && CombinedStatus(results) != Running
  {
  }

  lemma StepSafe(q: Queue, e: Event)
    requires Safe(q)
    ensures Safe(Next(q, e))
  {
    match e
    case Enqueue(kind) => EnqueueSafe(q, kind);
    case Claim => ClaimSafe(q);
    case Crash =>
    case Restart => RestartSafe(q);
    case _ => if q.worker.Working? { WorkerStepSafe(q, e); }
  }

  lemma EnqueueSafe(q: Queue, kind: Kind)
    requires Safe(q)
    ensures Safe(Next(q, Enqueue(kind)))
  {
    if !SlotTaken(q.ops) {
      assert forall i :: 0 <= i < |q.ops| ==> RowSound(q.ops[i]) && q.ops[i].activeSlot != Some(1);
    }
  }

  lemma ClaimSafe(q: Queue)
    requires Safe(q)
    ensures Safe(Next(q, Claim))
  {
    if q.worker.Idle? && exists i: nat :: IsNextQueued(q.ops, i) {
      var next := Next(q, Claim);
      var i := next.worker.id;
      assert RowSound(q.ops[i]);
      StageTablesAgree(q.ops[i].kind);
      ReplaceRow(q, i, Claimed(q.ops[i]), next.worker);
    }
  }

  lemma RestartSafe(q: Queue)
    requires Safe(q)
    ensures Safe(Next(q, Restart))
  {
    if q.worker.Down? {
      var ops := Recovered(q.ops);
      forall i | 0 <= i < |ops|
        ensures RowSound(ops[i]) && ops[i].status != Running && (IsActive(ops[i]) ==> IsActive(q.ops[i]))
      {
        assert RowSound(q.ops[i]);
      }
    }
  }

  lemma {:induction false} RunSafeFrom(q: Queue, events: seq<Event>)
    requires Safe(q)
    ensures Safe(Run(q, events))
    decreases events
  {
    if events != [] {
      StepSafe(q, events[0]);
      RunSafeFrom(Next(q, events[0]), events[1..]);
    }
  }

  /** Over every interleaving of requests, commits, exceptions, crashes and restarts. */
  lemma EveryRunIsSafe(events: seq<Event>)
    ensures Safe(Run(START, events))
  {
    RunSafeFrom(START, events);
  }

  // ---------- what never goes back ----------

  /** Rows are only appended; a finished row never changes; progress never falls. */
  ghost predicate Advances(a: seq<Operation>, b: seq<Operation>)
  {
    && |a| <= |b|
    && forall i :: 0 <= i < |a| ==>
         && b[i].kind == a[i].kind && b[i].stageTotal == a[i].stageTotal
         && a[i].stageCompleted <= b[i].stageCompleted
         && a[i].runIds <= b[i].runIds
         && (!IsActive(a[i]) ==> b[i] == a[i])
         && (a[i].status == Running ==> b[i].status != Queued)
  }

  lemma WorkerStepAdvances(q: Queue, e: Event)
    requires Safe(q) && q.worker.Working?
    ensures Advances(q.ops, WorkerStep(q, e, q.worker.id, q.ops[q.worker.id]).ops)
  {
    hide TotalWritten, TotalFailed, RunIds, RowSound, OneActive;
    CombinedIsFinal(q.worker.results);
  }

  lemma StepAdvances(q: Queue, e: Event)
    requires Safe(q)
    ensures Advances(q.ops, Next(q, e).ops)
  {
    hide TotalWritten, TotalFailed, RunIds, OneActive;
    match e
    case Enqueue(kind) =>
    case Claim =>
    case Crash =>
    case Restart =>
    case _ => if q.worker.Working? { WorkerStepAdvances(q, e); }
  }

  lemma {:induction false} RunAdvances(q: Queue, events: seq<Event>)
    requires Safe(q)
    ensures Advances(q.ops, Run(q, events).ops)
    decreases events
  {
    if events != [] {
      StepSafe(q, events[0]);
      StepAdvances(q, events[0]);
      RunAdvances(Next(q, events[0]), events[1..]);
    }
  }

  // ---------- requests cannot disturb an execution ----------

  lemma BusyRejects(q: Queue, kind: Kind)
    requires Safe(q) && q.worker.Working?
    ensures Next(q, Enqueue(kind)) == q
  {
    assert RowSound(q.ops[q.worker.id]);
  }

  ghost function WithoutRequests(events: seq<Event>): seq<Event>
    decreases events
  {
    if events == [] then []
    else (if events[0].Enqueue? then [] else [events[0]]) + WithoutRequests(events[1..])
  }

  /** The worker is executing before each of the events. */
  ghost predicate BusyThroughout(q: Queue, events: seq<Event>)
    decreases events
  {
    events == [] || (q.worker.Working? && BusyThroughout(Next(q, events[0]), events[1..]))
  }

  /** An execution is as good as atomic: requests arriving between its commits are all
      rejected and change nothing, wherever they fall. */
  lemma {:induction false} ExecutionIsUndisturbed(q: Queue, events: seq<Event>)
    requires Safe(q) && BusyThroughout(q, events)
    ensures Run(q, events) == Run(q, WithoutRequests(events))
    decreases events
  {
    if events != [] {
      StepSafe(q, events[0]);
      ExecutionIsUndisturbed(Next(q, events[0]), events[1..]);
      var rest := WithoutRequests(events[1..]);
      if events[0].Enqueue? {
        BusyRejects(q, events[0].kind);
        assert [] + rest == rest;
      } else {
        assert ([events[0]] + rest)[0] == events[0] && ([events[0]] + rest)[1..] == rest;
      }
    }
  }

  /** After a crash and a restart nothing is running, at most one row was failed, and a
      request is accepted unless one is still queued. */
  lemma RestartFrees(q: Queue, kind: Kind)
    requires Safe(q) && q.worker.Down?
    ensures var after := Next(q, Restart);
            && (forall i :: 0 <= i < |after.ops| ==> after.ops[i].status != Running)
            && (forall i, j :: 0 <= i < j < |after.ops| && after.ops[i] != q.ops[i] ==> after.ops[j] == q.ops[j])
            && (Next(after, Enqueue(kind)).ops == after.ops
                <==> exists i :: 0 <= i < |q.ops| && q.ops[i].status == Queued)
  {
    var after := Next(q, Restart);
    forall i | 0 <= i < |q.ops| ensures after.ops[i].activeSlot == Some(1) <==> q.ops[i].status == Queued {
      assert RowSound(q.ops[i]);
    }
    if i :| 0 <= i < |q.ops| && q.ops[i].status == Queued {
      assert after.ops[i].activeSlot == Some(1);
    }
  }
}
