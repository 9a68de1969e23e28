/** The functions of the queue module over the stored rows. */
module OperationStore {
  import opened Sums
  import opened OperationQueue

  /** What running a stage did: it returned a result, or it raised. */
  datatype Outcome = Returned(r: StageResult) | Raised

  /** What the stages of an operation do when they are run, by position. */
  type Outcomes = nat -> Outcome

  function CommitOf(outcome: Outcome): Event
  {
    if outcome.Returned? then FinishStage(outcome.r) else StageRaises
  }

  /** The commits of the first `k` stages of an execution. */
  ghost function Commits(outcomes: Outcomes, k: nat): seq<Event>
  {
    if k == 0 then [] else Commits(outcomes, k - 1) + [BeginStage, CommitOf(outcomes(k - 1))]
  }

  ghost predicate AllReturn(outcomes: Outcomes, k: nat)
  {
    forall i: nat :: i < k ==> outcomes(i).Returned?
  }

  /** A whole execution of `n` stages: all of them and then completion, or up to the first one
      that raises. */
  ghost predicate IsExecution(outcomes: Outcomes, n: nat, events: seq<Event>)
  {
    || (AllReturn(outcomes, n) && events == Commits(outcomes, n) + [Complete])
    || exists k: nat :: k < n && AllReturn(outcomes, k) && outcomes(k).Raised? && events == Commits(outcomes, k + 1)
  }

  lemma {:induction false} RunAppend(q: Queue, a: seq<Event>, b: seq<Event>)
    ensures Run(q, a + b) == Run(Run(q, a), b)
    decreases a
  {
    if a == [] {
      assert [] + b == b;
    } else {
      assert (a + b)[0] == a[0] && (a + b)[1..] == a[1..] + b;
      RunAppend(Next(q, a[0]), a[1..], b);
    }
  }

  lemma RunOneMore(q: Queue, a: seq<Event>, e: Event)
    ensures Run(q, a + [e]) == Next(Run(q, a), e)
  {
    RunAppend(q, a, [e]);
    assert Run(Next(Run(q, a), e), [e][1..]) == Next(Run(q, a), e);
  }

  lemma RunStage(q: Queue, outcomes: Outcomes, k: nat)
    ensures Run(q, Commits(outcomes, k + 1))
            == Next(Next(Run(q, Commits(outcomes, k)), BeginStage), CommitOf(outcomes(k)))
  {
    hide Next;
    var a := Commits(outcomes, k);
    RunOneMore(q, a, BeginStage);
    RunOneMore(q, a + [BeginStage], CommitOf(outcomes(k)));
    assert a + [BeginStage] + [CommitOf(outcomes(k))] == Commits(outcomes, k + 1);
  }

  lemma NextQueuedIsUnique(ops: seq<Operation>, i: nat, j: nat)
    requires IsNextQueued(ops, i) && IsNextQueued(ops, j)
    ensures i == j
  {
  }

  lemma ClaimIs(ops: seq<Operation>, i: nat)
    requires IsNextQueued(ops, i)
    ensures Next(Queue(ops, Idle), Claim) == Queue(ops[i := Claimed(ops[i])], Working(i, false, []))
  {
    var q := Queue(ops, Idle);
    var j: nat :| IsNextQueued(ops, j) && Next(q, Claim) == Queue(ops[j := Claimed(ops[j])], Working(j, false, []));
    NextQueuedIsUnique(ops, i, j);
  }

  class DataOperations {
    var ops: seq<Operation>

    constructor ()
      ensures ops == []
    {
      ops := [];
    }

    /** The new row's id, or the id of the active operation that owns the slot. */
    method EnqueueOperation(kind: Kind) returns (r: Result<nat, nat>)
      modifies this
      ensures forall worker :: Queue(ops, worker) == Next(Queue(old(ops), worker), Enqueue(kind))
      ensures match r
              case Ok(id) => !SlotTaken(old(ops)) && id == |old(ops)| && ops == old(ops) + [NewOperation(kind)]
              case Err(id) => ops == old(ops) && id < |ops| && ops[id].activeSlot == Some(1)
    {
      if !SlotTaken(ops) {
        r := Ok(|ops|);
        ops := ops + [NewOperation(kind)];
        return;
      }
      var i := |ops| - 1;
      while ops[i].activeSlot != Some(1)
        invariant 0 <= i < |ops| && ops == old(ops)
        invariant exists j :: 0 <= j <= i && ops[j].activeSlot == Some(1)
        decreases i
      {
        i := i - 1;
      }
      r := Err(i);
    }

    method ClaimNextOperation() returns (r: Option<nat>)
      modifies this
      ensures Next(Queue(old(ops), Idle), Claim) == Queue(ops, if r.Some? then Working(r.value, false, []) else Idle)
    {
      var i := 0;
      while i < |ops| && ops[i].status != Queued
        invariant 0 <= i <= |ops| && ops == old(ops)
        invariant forall j :: 0 <= j < i ==> ops[j].status != Queued
      {
        i := i + 1;
      }
      if i == |ops| {
        return None;
      }
      ClaimIs(ops, i);
      ops := ops[i := Claimed(ops[i])];
      r := Some(i);
    }

    /** Runs the stages one after the other, committing between them; the first one that
        raises ends the operation as failed. An operation that is not running is refused. */
    method ExecuteOperation(id: nat, outcomes: Outcomes) returns (r: Option<Operation>, ghost events: seq<Event>)
      modifies this
      ensures r.None? <==> (id >= |old(ops)| || old(ops)[id].status != Running)
      ensures r.None? ==> ops == old(ops)
      ensures r.Some? ==> (id < |ops| && r.value == ops[id]
                           && IsExecution(outcomes, |Stages(old(ops)[id].kind)|, events)
                           && Run(Queue(old(ops), Working(id, false, [])), events) == Queue(ops, Idle)
                           && (r.value.error <==> !AllReturn(outcomes, |Stages(old(ops)[id].kind)|)))
    {
      events := [];
      if id >= |ops| || ops[id].status != Running {
        return None, events;
      }
      hide Run, Recorded, CombinedStatus;
      ghost var q := Queue(ops, Working(id, false, []));
      var stages := Stages(ops[id].kind);
      var results: seq<StageResult> := [];
      RunNothing(q);
      for k := 0 to |stages|
        invariant |ops| == |old(ops)| && ops[id].kind == old(ops)[id].kind
        invariant |results| == k && AllReturn(outcomes, k)
        invariant Run(q, Commits(outcomes, k)) == Queue(ops, Working(id, false, results))
      {
        RunStage(q, outcomes, k);
        ops := ops[id := ops[id].(currentStage := Some(stages[k]))];
        var outcome := outcomes(k);
        if outcome.Raised? {
          ops := ops[id := Ended(ops[id], Failed, true)];
          events := Commits(outcomes, k + 1);
          return Some(ops[id]), events;
        }
        results := results + [outcome.r];
        RecordedKind(ops[id], k + 1, outcome.r);
        ops := ops[id := Recorded(ops[id], k + 1, outcome.r)];
      }
      RunOneMore(q, Commits(outcomes, |stages|), Complete);
      ops := ops[id := Ended(ops[id], CombinedStatus(results), false)];
      events := Commits(outcomes, |stages|) + [Complete];
      r := Some(ops[id]);
    }

    /** Fails whatever a previous worker left running. */
    method RecoverInterruptedOperations() returns (recovered: nat)
      modifies this
      ensures Queue(ops, Idle) == Next(Queue(old(ops), Down), Restart)
      ensures recovered == |RunningBelow(old(ops), |old(ops)|)|
    {
      hide Interrupted, RunningBelow;
      recovered := 0;
      var before, table := ops, ops;
      ghost var seen: set<int> := {};
      assert RunningBelow(before, 0) == {} by { NoneRunning(before); }
      for i := 0 to |before|
        invariant |table| == |before|
        invariant forall j :: 0 <= j < |before| ==> table[j] == if j < i then Recovered(before)[j] else before[j]
        invariant seen == RunningBelow(before, i) && recovered == |seen|
      {
        OneMoreRunning(before, i);
        if table[i].status == Running {
          table := table[i := Interrupted(table[i])];
          recovered := recovered + 1;
          seen := seen + {i};
        }
      }
      assert table == Recovered(before);
      ops := table;
    }
  }

  lemma NoneRunning(ops: seq<Operation>)
    ensures RunningBelow(ops, 0) == {}
  {
  }

  ghost function RunningBelow(ops: seq<Operation>, k: nat): set<int>
    requires k <= |ops|
  {
    set i | 0 <= i < k && ops[i].status == Running
  }

  lemma OneMoreRunning(ops: seq<Operation>, k: nat)
    requires k < |ops|
    ensures RunningBelow(ops, k + 1) == RunningBelow(ops, k) + (if ops[k].status == Running then {k} else {})
    ensures k !in RunningBelow(ops, k)
  {
  }

  lemma RunNothing(q: Queue)
    ensures Run(q, []) == q
  {
  }

  lemma RecordedKind(op: Operation, index: nat, r: StageResult)
    ensures Recorded(op, index, r).kind == op.kind
  {
  }

  // ---------- what an execution leaves behind ----------

  /** From a safe state with the operation just claimed, an execution ends in a safe state with
      the worker idle and the operation finished; without an error every stage is on record. */
  lemma ExecutionEnds(ops: seq<Operation>, id: nat, outcomes: Outcomes, events: seq<Event>, after: seq<Operation>)
    requires Safe(Queue(ops, Working(id, false, [])))
    requires IsExecution(outcomes, |Stages(ops[id].kind)|, events)
    requires Run(Queue(ops, Working(id, false, [])), events) == Queue(after, Idle)
    ensures Safe(Queue(after, Idle)) && Advances(ops, after)
    ensures id < |after| && !IsActive(after[id])
    ensures !after[id].error ==> after[id].stageCompleted == after[id].stageTotal
  {
    hide Run, Next, IsExecution, OneActive;
    RunSafeFrom(Queue(ops, Working(id, false, [])), events);
    RunAdvances(Queue(ops, Working(id, false, [])), events);
    assert RowSound(after[id]);
  }

  // ---------- what an execution adds up ----------

  ghost function ResultsOf(outcomes: Outcomes, k: nat): (rs: seq<StageResult>)
    requires AllReturn(outcomes, k)
    ensures |rs| == k
  {
    if k == 0 then [] else ResultsOf(outcomes, k - 1) + [outcomes(k - 1).r]
  }

  ghost function Total(rs: seq<StageResult>, amount: StageResult -> int): int
  {
    if rs == [] then 0 else Total(rs[..|rs| - 1], amount) + amount(rs[|rs| - 1])
  }

  ghost function AllRunIds(rs: seq<StageResult>): seq<int>
  {
    if rs == [] then [] else AllRunIds(rs[..|rs| - 1]) + RunIds(rs[|rs| - 1].runs)
  }

  ghost function LatestNav(rs: seq<StageResult>, before: Option<int>): Option<int>
  {
    if rs == [] then before
    else if rs[|rs| - 1].latestNav.Some? then rs[|rs| - 1].latestNav
    else LatestNav(rs[..|rs| - 1], before)
  }

  /** Every counter of the row has grown by the total over the results, all ingestion runs are on
      record in order, and the NAV date is the last one reported. */
  ghost predicate AddedUp(was: Operation, now: Operation, rs: seq<StageResult>)
  {
    && now.kind == was.kind && now.runIds == was.runIds + AllRunIds(rs)
    && now.written == was.written + Total(rs, (r: StageResult) => TotalWritten(r.runs))
    && now.failed == was.failed + Total(rs, (r: StageResult) => TotalFailed(r.runs))
    && now.created == was.created + Total(rs, (r: StageResult) => r.created)
    && now.settled == was.settled + Total(rs, (r: StageResult) => r.settled)
    && now.executions == was.executions + Total(rs, (r: StageResult) => r.executions)
    && now.positions == was.positions + Total(rs, (r: StageResult) => r.positions)
    && now.latestNav == LatestNav(rs, was.latestNav)
  }

  lemma OneMoreAdded(
    was: Operation, now: Operation, rs: seq<StageResult>, index: nat, r: StageResult, stage: Option<Stage>)
    requires AddedUp(was, now, rs)
    ensures AddedUp(was, Recorded(now.(currentStage := stage), index, r), rs + [r])
  {
    hide TotalWritten, TotalFailed, RunIds;
    assert (rs + [r])[..|rs|] == rs;
  }

  /** After `k` stages that return. */
  ghost predicate Staged(q: Queue, was: Operation, rows: nat, id: nat, rs: seq<StageResult>)
  {
    q.worker == Working(id, false, rs) && id < |q.ops| == rows && AddedUp(was, q.ops[id], rs)
  }

  lemma {:induction false} StagesAddUp(ops: seq<Operation>, id: nat, outcomes: Outcomes, k: nat)
    requires id < |ops| && k <= |Stages(ops[id].kind)| && AllReturn(outcomes, k)
    ensures Staged(Run(Queue(ops, Working(id, false, [])), Commits(outcomes, k)), ops[id], |ops|, id,
                   ResultsOf(outcomes, k))
  {
    hide Run, Stages;
    if k == 0 {
      RunNothing(Queue(ops, Working(id, false, [])));
    } else {
      hide Staged, Next;
      StagesAddUp(ops, id, outcomes, k - 1);
      RunStage(Queue(ops, Working(id, false, [])), outcomes, k - 1);
      StageEffect(Run(Queue(ops, Working(id, false, [])), Commits(outcomes, k - 1)), ops[id], |ops|, id,
                  ResultsOf(outcomes, k - 1), outcomes(k - 1).r);
    }
  }

  /** The two commits of a stage that returns. */
  lemma StageEffect(q: Queue, was: Operation, rows: nat, id: nat, rs: seq<StageResult>, r: StageResult)
    requires Staged(q, was, rows, id, rs) && |rs| < |Stages(was.kind)|
    ensures Staged(Next(Next(q, BeginStage), FinishStage(r)), was, rows, id, rs + [r])
  {
    hide Recorded, Stages, AddedUp;
    SameKind(was, q.ops[id], rs);
    OneMoreAdded(was, q.ops[id], rs, |rs| + 1, r, Some(Stages(was.kind)[|rs|]));
  }

  lemma SameKind(was: Operation, now: Operation, rs: seq<StageResult>)
    requires AddedUp(was, now, rs)
    ensures now.kind == was.kind
  {
  }

  /** An execution whose stages all return leaves the totals over its stages, and succeeds if and
      only if every stage did, fails if and only if every stage did. */
  lemma ExecutionAddsUp(ops: seq<Operation>, id: nat, outcomes: Outcomes)
    requires id < |ops| && AllReturn(outcomes, |Stages(ops[id].kind)|)
    ensures var n := |Stages(ops[id].kind)|;
            var q := Run(Queue(ops, Working(id, false, [])), Commits(outcomes, n) + [Complete]);
            q.worker == Idle && |q.ops| == |ops| && AddedUp(ops[id], q.ops[id], ResultsOf(outcomes, n))
            && (q.ops[id].status == Succeeded <==> forall i: nat :: i < n ==> outcomes(i).r.status == Succeeded)
            && (q.ops[id].status == Failed <==> forall i: nat :: i < n ==> outcomes(i).r.status == Failed)
  {
    hide Run, AddedUp, CombinedStatus;
    var n := |Stages(ops[id].kind)|;
    StagesAddUp(ops, id, outcomes, n);
    var before := Run(Queue(ops, Working(id, false, [])), Commits(outcomes, n));
    SameKind(ops[id], before.ops[id], ResultsOf(outcomes, n));
    RunOneMore(Queue(ops, Working(id, false, [])), Commits(outcomes, n), Complete);
    EndedAddsUp(ops[id], before.ops[id], ResultsOf(outcomes, n), CombinedStatus(ResultsOf(outcomes, n)));
    StatusesOf(outcomes, n);
    StageTablesAgree(ops[id].kind);
    CombinedMeans(ResultsOf(outcomes, n));
  }

  lemma EndedAddsUp(was: Operation, now: Operation, rs: seq<StageResult>, status: Status)
    requires AddedUp(was, now, rs)
    ensures AddedUp(was, Ended(now, status, false), rs)
  {
  }

  lemma {:induction false} StatusesOf(outcomes: Outcomes, n: nat)
    requires AllReturn(outcomes, n)
    ensures forall i: nat :: i < n ==> ResultsOf(outcomes, n)[i] == outcomes(i).r
  {
    if n > 0 { StatusesOf(outcomes, n - 1); }
  }

  lemma CombinedMeans(results: seq<StageResult>)
    requires results != []
    ensures CombinedStatus(results) == Succeeded <==> forall i :: 0 <= i < |results| ==> results[i].status == Succeeded
    ensures CombinedStatus(results) == Failed <==> forall i :: 0 <= i < |results| ==> results[i].status == Failed
  {
    assert results[0] in results;
  }
}
