/** The scheduler: ready tasks ordered by priority with a boost for waiting, then packed greedily
    under a concurrency limit and a cost budget. */
module Scheduling {
  import opened Prelude
  import opened Ordering
  import Staffing

  datatype ScheduledRun = ScheduledRun(task: nat, agent: nat, priority: I32, cost: U64)

  datatype Reason = CancelledBeforeDispatch | GlobalConcurrencyLimit | BatchCostBudget

  datatype Deferral = Deferral(task: nat, reason: Reason)

  datatype ScheduleBatch = ScheduleBatch(runs: seq<ScheduledRun>, deferred: seq<Deferral>, total: U64)

  datatype Constraints = Constraints(concurrency: nat, budget: U64, cancelled: set<nat>)

  datatype Inputs = Inputs(
    assignments: seq<Staffing.StaffingAssignment>,
    priorities: map<nat, I32>, waits: map<nat, U32>, costs: map<nat, U64>)

  // ---------------------------------------------------------------- priorities

  /** Ten points for each cycle waited, saturating twice on the way. */
  function Boost(waited: U32): I32 {
    Min(Min(waited, I32_MAX) * 10, I32_MAX)
  }

  /** `i32::saturating_add` of a boost, which is never negative. */
  function Boosted(base: I32, waited: U32): I32 {
    Min(base + Boost(waited), I32_MAX)
  }

  /** The agent of a task: the last assignment made for it. */
  function AgentFor(assignments: seq<Staffing.StaffingAssignment>, task: nat): Option<nat> {
    if assignments == [] then None
    else if assignments[|assignments| - 1].taskId == task then Some(assignments[|assignments| - 1].agentId)
    else AgentFor(assignments[..|assignments| - 1], task)
  }

  function BaseOf(inputs: Inputs, task: nat): I32 {
    if task in inputs.priorities then inputs.priorities[task] else 0
  }

  function WaitOf(inputs: Inputs, task: nat): U32 {
    if task in inputs.waits then inputs.waits[task] else 0
  }

  function Candidate(inputs: Inputs, task: nat, agent: nat): ScheduledRun {
    var cost := if task in inputs.costs then inputs.costs[task] else 1;
    ScheduledRun(task, agent, Boosted(BaseOf(inputs, task), WaitOf(inputs, task)), cost)
  }

  /** The ready tasks that have an agent, in ready order. */
  function Candidates(inputs: Inputs, ready: seq<nat>): seq<ScheduledRun> {
    if ready == [] then []
    else
      var agent := AgentFor(inputs.assignments, ready[0]);
      (if agent.Some? then [Candidate(inputs, ready[0], agent.value)] else []) + Candidates(inputs, ready[1..])
  }

  const ByPriority: ScheduledRun -> Key := (r: ScheduledRun) => (-(r.priority as int), r.task as int)

  // ---------------------------------------------------------------- packing

  /** What one turn of the loop does with a candidate. */
  function Place(b: ScheduleBatch, r: ScheduledRun, c: Constraints): ScheduleBatch {
    if r.task in c.cancelled then b.(deferred := b.deferred + [Deferral(r.task, CancelledBeforeDispatch)])
    else if |b.runs| >= c.concurrency then b.(deferred := b.deferred + [Deferral(r.task, GlobalConcurrencyLimit)])
    else if SatAddU64(b.total, r.cost) > c.budget then b.(deferred := b.deferred + [Deferral(r.task, BatchCostBudget)])
    else ScheduleBatch(b.runs + [r], b.deferred, SatAddU64(b.total, r.cost))
  }

  function Pack(queue: seq<ScheduledRun>, c: Constraints): ScheduleBatch {
    if queue == [] then ScheduleBatch([], [], 0) else Place(Pack(queue[..|queue| - 1], c), queue[|queue| - 1], c)
  }

  function Queue(inputs: Inputs, ready: seq<nat>): seq<ScheduledRun> {
    SortBy(Candidates(inputs, ready), ByPriority)
  }

  class AgentScheduler {
    const concurrencyLimit: nat

    constructor (limit: nat)
      ensures concurrencyLimit == limit
    {
      concurrencyLimit := limit;
    }

    method ScheduleWithConstraints(ready: seq<nat>, inputs: Inputs, cancelled: set<nat>, budget: U64)
      returns (batch: ScheduleBatch)
      ensures batch == Pack(Queue(inputs, ready), Constraints(concurrencyLimit, budget, cancelled))
    {
      var queue := Queue(inputs, ready);
      var runs, deferred, total := [], [], 0;
      for k := 0 to |queue|
        invariant
          ScheduleBatch(runs, deferred, total) == Pack(queue[..k], Constraints(concurrencyLimit, budget, cancelled))
      {
        var candidate := queue[k];
        assert queue[..k + 1][..k] == queue[..k];
        if candidate.task in cancelled {
          deferred := deferred + [Deferral(candidate.task, CancelledBeforeDispatch)];
          continue;
        }
        if |runs| >= concurrencyLimit {
          deferred := deferred + [Deferral(candidate.task, GlobalConcurrencyLimit)];
          continue;
        }
        if SatAddU64(total, candidate.cost) > budget {
          deferred := deferred + [Deferral(candidate.task, BatchCostBudget)];
          continue;
        }
        total := SatAddU64(total, candidate.cost);
        runs := runs + [candidate];
      }
      assert queue[..|queue|] == queue;
      batch := ScheduleBatch(runs, deferred, total);
    }
  }

  // ---------------------------------------------------------------- what a batch is

  function RunTasks(runs: seq<ScheduledRun>): seq<nat> {
    if runs == [] then [] else RunTasks(runs[..|runs| - 1]) + [runs[|runs| - 1].task]
  }

  function DeferredTasks(deferred: seq<Deferral>): seq<nat> {
    if deferred == [] then [] else DeferredTasks(deferred[..|deferred| - 1]) + [deferred[|deferred| - 1].task]
  }

  function TotalCost(runs: seq<ScheduledRun>): nat {
    if runs == [] then 0 else TotalCost(runs[..|runs| - 1]) + runs[|runs| - 1].cost
  }

  /** Every candidate ends up in the batch or in the deferrals, once. */
  lemma {:induction false} BatchPartitionsTheQueue(queue: seq<ScheduledRun>, c: Constraints)
    ensures multiset(RunTasks(Pack(queue, c).runs)) + multiset(DeferredTasks(Pack(queue, c).deferred))
      == multiset(RunTasks(queue))
  {
    if queue != [] {
      var front, last := queue[..|queue| - 1], queue[|queue| - 1];
      BatchPartitionsTheQueue(front, c);
      PlaceAppends(Pack(front, c), last, c);
      OneMore(RunTasks(Pack(front, c).runs), DeferredTasks(Pack(front, c).deferred), last.task);
      assert RunTasks(queue) == RunTasks(front) + [last.task];
    }
  }

  lemma PlaceAppends(b: ScheduleBatch, r: ScheduledRun, c: Constraints)
    ensures
      var runs, deferred := RunTasks(Place(b, r, c).runs), DeferredTasks(Place(b, r, c).deferred);
      || (runs == RunTasks(b.runs) + [r.task] && deferred == DeferredTasks(b.deferred))
      || (runs == RunTasks(b.runs) && deferred == DeferredTasks(b.deferred) + [r.task])
  {
    var after := Place(b, r, c);
    if after.runs == b.runs {
      assert after.deferred[..|after.deferred| - 1] == b.deferred;
    } else {
      assert after.runs[..|after.runs| - 1] == b.runs;
    }
  }

  lemma OneMore(runs: seq<nat>, deferred: seq<nat>, task: nat)
    ensures multiset(runs + [task]) + multiset(deferred) == multiset(runs) + multiset(deferred) + multiset{task}
    ensures multiset(runs) + multiset(deferred + [task]) == multiset(runs) + multiset(deferred) + multiset{task}
  {
  }

  lemma PlaceRespectsTheLimits(b: ScheduleBatch, r: ScheduledRun, c: Constraints)
    requires |b.runs| <= c.concurrency
    requires b.total == Min(TotalCost(b.runs), U64_MAX) <= c.budget
    ensures |Place(b, r, c).runs| <= c.concurrency
    ensures Place(b, r, c).total == Min(TotalCost(Place(b, r, c).runs), U64_MAX) <= c.budget
    ensures Place(b, r, c).runs == b.runs || (r.task !in c.cancelled && Place(b, r, c).runs == b.runs + [r])
  {
  }

  /** The batch keeps within the limits and runs nothing cancelled. Its total is the true sum of its
      costs up to saturation, so the sum fits any budget below the largest integer. */
  lemma {:induction false} BatchRespectsTheLimits(queue: seq<ScheduledRun>, c: Constraints)
    ensures |Pack(queue, c).runs| <= c.concurrency
    ensures Pack(queue, c).total == Min(TotalCost(Pack(queue, c).runs), U64_MAX) <= c.budget
    ensures c.budget < U64_MAX ==> TotalCost(Pack(queue, c).runs) <= c.budget
    ensures forall r :: r in Pack(queue, c).runs ==> r in queue && r.task !in c.cancelled
  {
    if queue != [] {
      var front, last := queue[..|queue| - 1], queue[|queue| - 1];
      BatchRespectsTheLimits(front, c);
      PlaceRespectsTheLimits(Pack(front, c), last, c);
      assert queue == front + [last];
    }
  }

  /** Two runs, the first as expensive as a cost can be. */
  const TooExpensive: seq<ScheduledRun> := [ScheduledRun(0, 0, 0, U64_MAX), ScheduledRun(1, 0, 0, 1)]

  /** Under the largest budget the total saturates: the batch runs both and costs more than it
      reports and than the budget allows. */
  lemma LargestBudgetIsExceeded()
    ensures
      var batch := Pack(TooExpensive, Constraints(2, U64_MAX, {}));
      batch.runs == TooExpensive && batch.total == U64_MAX && TotalCost(batch.runs) == U64_MAX + 1
  {
    var c := Constraints(2, U64_MAX, {});
    assert TooExpensive[..1][..0] == [] && TooExpensive[..1][0] == TooExpensive[0];
    assert Pack(TooExpensive[..1], c) == ScheduleBatch([TooExpensive[0]], [], U64_MAX);
    assert Pack(TooExpensive, c).runs == [TooExpensive[0]] + [TooExpensive[1]];
    assert TotalCost(TooExpensive[..1]) == U64_MAX;
  }

  /** A budget bounds the true cost of every batch if and only if it is not the largest integer. */
  lemma BudgetBoundsCostIff(budget: U64)
    ensures (forall queue, c: Constraints :: c.budget == budget ==> TotalCost(Pack(queue, c).runs) <= budget)
        <==> budget < U64_MAX
  {
    if budget < U64_MAX {
      forall queue, c: Constraints | c.budget == budget ensures TotalCost(Pack(queue, c).runs) <= budget {
        BatchRespectsTheLimits(queue, c);
      }
    } else {
      LargestBudgetIsExceeded();
      assert Constraints(2, U64_MAX, {}).budget == budget;
    }
  }

  /** Why a deferral was right, seen from the finished batch. */
  ghost predicate Justified(d: Deferral, queue: seq<ScheduledRun>, b: ScheduleBatch, c: Constraints) {
    exists r :: r in queue && r.task == d.task &&
      match d.reason
      case CancelledBeforeDispatch => r.task in c.cancelled
      case GlobalConcurrencyLimit =>
        && r.task !in c.cancelled && |b.runs| == c.concurrency
        && forall s :: s in b.runs ==> !Less(ByPriority(r), ByPriority(s))
      case BatchCostBudget => r.task !in c.cancelled && b.total + r.cost > c.budget
  }

  lemma JustifiedLater(d: Deferral, queue: seq<ScheduledRun>, last: ScheduledRun, b: ScheduleBatch, c: Constraints)
    requires Justified(d, queue, b, c)
    requires |b.runs| <= c.concurrency && c.budget <= U64_MAX
    ensures Justified(d, queue + [last], Place(b, last, c), c)
  {
  }

  lemma NewlyJustified(queue: seq<ScheduledRun>, last: ScheduledRun, b: ScheduleBatch, c: Constraints, d: Deferral)
    requires |b.runs| <= c.concurrency
    requires forall s :: s in b.runs ==> s in queue
    requires forall s :: s in queue ==> !Less(ByPriority(last), ByPriority(s))
    requires Place(b, last, c).deferred == b.deferred + [d]
    ensures Justified(d, queue + [last], Place(b, last, c), c)
  {
    assert d == Place(b, last, c).deferred[|b.deferred|];
    assert last in queue + [last];
  }

  /** A deferral names its true reason: the task was cancelled, or the batch is full of tasks that
      come before it, or it does not fit what is left of the budget when the batch is finished. */
  lemma {:induction false} DeferralsAreJustified(queue: seq<ScheduledRun>, c: Constraints, d: Deferral)
    requires Sorted(queue, ByPriority)
    requires d in Pack(queue, c).deferred
    ensures Justified(d, queue, Pack(queue, c), c)
  {
    var front, last := queue[..|queue| - 1], queue[|queue| - 1];
    var before := Pack(front, c);
    assert queue == front + [last];
    BatchRespectsTheLimits(front, c);
    if d in before.deferred {
      DeferralsAreJustified(front, c, d);
      JustifiedLater(d, front, last, before, c);
    } else {
      NewlyJustified(front, last, before, c, d);
    }
  }

  /** With slots left over, every deferred task was cancelled or is too expensive for what is left. */
  lemma SpareSlotsMeanNothingFits(inputs: Inputs, ready: seq<nat>, c: Constraints, d: Deferral)
    requires d in Pack(Queue(inputs, ready), c).deferred && |Pack(Queue(inputs, ready), c).runs| < c.concurrency
    ensures exists r ::
        && r in Candidates(inputs, ready)
        && r.task == d.task
        && (r.task in c.cancelled || Pack(Queue(inputs, ready), c).total + r.cost > c.budget)
  {
    DeferralsAreJustified(Queue(inputs, ready), c, d);
    RearrangementMembers(Queue(inputs, ready), Candidates(inputs, ready));
  }

  lemma {:induction false} CandidatesAreReady(inputs: Inputs, ready: seq<nat>, r: ScheduledRun)
    ensures r in Candidates(inputs, ready) <==>
        && r.task in ready
        && AgentFor(inputs.assignments, r.task) == Some(r.agent)
        && r == Candidate(inputs, r.task, r.agent)
  {
    if ready != [] {
      CandidatesAreReady(inputs, ready[1..], r);
      assert ready == [ready[0]] + ready[1..];
    }
  }

  lemma {:induction false} TasksInOrder(runs: seq<ScheduledRun>)
    ensures |RunTasks(runs)| == |runs| && forall i :: 0 <= i < |runs| ==> RunTasks(runs)[i] == runs[i].task
  {
    if runs != [] {
      TasksInOrder(runs[..|runs| - 1]);
    }
  }

  lemma {:induction false} CandidatesDiffer(inputs: Inputs, ready: seq<nat>)
    requires AllDifferent(ready)
    ensures AllDifferent(Candidates(inputs, ready))
  {
    if ready != [] {
      var rest := Candidates(inputs, ready[1..]);
      CandidatesDiffer(inputs, ready[1..]);
      forall j | 0 <= j < |rest| ensures rest[j].task != ready[0] {
        CandidatesAreReady(inputs, ready[1..], rest[j]);
        assert rest[j] in rest;
      }
    }
  }

  lemma QueueTasksDiffer(inputs: Inputs, ready: seq<nat>)
    requires AllDifferent(ready)
    ensures AllDifferent(RunTasks(Queue(inputs, ready)))
  {
    var queue, all := Queue(inputs, ready), Candidates(inputs, ready);
    CandidatesDiffer(inputs, ready);
    TasksInOrder(queue);
    forall i, j | 0 <= i < j < |queue| ensures queue[i].task != queue[j].task {
      RearrangedStaysDistinct(all, queue, i, j);
      CandidatesAreReady(inputs, ready, queue[i]);
      CandidatesAreReady(inputs, ready, queue[j]);
    }
  }

  lemma QueuedIff(inputs: Inputs, ready: seq<nat>, task: nat)
    ensures task in RunTasks(Queue(inputs, ready)) <==> task in ready && AgentFor(inputs.assignments, task).Some?
  {
    var queue, all := Queue(inputs, ready), Candidates(inputs, ready);
    RearrangementMembers(queue, all);
    TasksInOrder(queue);
    if task in RunTasks(queue) {
      var i :| 0 <= i < |queue| && queue[i].task == task;
      assert queue[i] in queue;
      CandidatesAreReady(inputs, ready, queue[i]);
    }
    if task in ready && AgentFor(inputs.assignments, task).Some? {
      var r := Candidate(inputs, task, AgentFor(inputs.assignments, task).value);
      CandidatesAreReady(inputs, ready, r);
      var i :| 0 <= i < |queue| && queue[i] == r;
      assert RunTasks(queue)[i] == task;
    }
  }

  /** Each ready task that has an agent is in the batch or in the deferrals, once; no other task is
      in either. */
  lemma EveryReadyTaskOnce(inputs: Inputs, ready: seq<nat>, c: Constraints, task: nat)
    requires AllDifferent(ready)
    ensures
      var batch := Pack(Queue(inputs, ready), c);
      multiset(RunTasks(batch.runs))[task] + multiset(DeferredTasks(batch.deferred))[task]
      == if task in ready && AgentFor(inputs.assignments, task).Some? then 1 else 0
  {
    BatchPartitionsTheQueue(Queue(inputs, ready), c);
    QueueTasksDiffer(inputs, ready);
    QueuedIff(inputs, ready, task);
    OnceEach(RunTasks(Queue(inputs, ready)), task);
  }

  /** A task's agent is the one its last assignment names. */
  lemma {:induction false} AgentIsTheLastAssigned(assignments: seq<Staffing.StaffingAssignment>, task: nat, agent: nat)
    ensures AgentFor(assignments, task) == Some(agent) <==>
        exists i :: 0 <= i < |assignments| && assignments[i].taskId == task && assignments[i].agentId == agent
          && forall j :: i < j < |assignments| ==> assignments[j].taskId != task
    ensures AgentFor(assignments, task).None? <==> forall i :: 0 <= i < |assignments| ==> assignments[i].taskId != task
  {
    if assignments != [] {
      var n := |assignments| - 1;
      AgentIsTheLastAssigned(assignments[..n], task, agent);
      if assignments[n].taskId != task {
        assert forall i :: 0 <= i < n ==> assignments[..n][i] == assignments[i];
      }
    }
  }

  /** What runs, on the inputs: a ready task under the agent of its last assignment, at the cost stated
      for it, or one, and with its priority raised by ten for each cycle waited, both saturating. */
  lemma RunsAreAsStated(inputs: Inputs, ready: seq<nat>, c: Constraints, r: ScheduledRun)
    requires r in Pack(Queue(inputs, ready), c).runs
    ensures
      var base: int := if r.task in inputs.priorities then inputs.priorities[r.task] else 0;
      var waited: int := if r.task in inputs.waits then inputs.waits[r.task] else 0;
      && r.task in ready && r.task !in c.cancelled
      && (exists i :: 0 <= i < |inputs.assignments| && inputs.assignments[i].taskId == r.task
            && inputs.assignments[i].agentId == r.agent
            && forall j :: i < j < |inputs.assignments| ==> inputs.assignments[j].taskId != r.task)
      && r.cost == (if r.task in inputs.costs then inputs.costs[r.task] else 1)
      && r.priority == Min(base + Min(10 * waited, I32_MAX), I32_MAX)
  {
    BatchRespectsTheLimits(Queue(inputs, ready), c);
    RearrangementMembers(Queue(inputs, ready), Candidates(inputs, ready));
    CandidatesAreReady(inputs, ready, r);
    AgentIsTheLastAssigned(inputs.assignments, r.task, r.agent);
  }

  /** The queue is ordered by priority, highest first, and then by task. */
  lemma QueueIsOrdered(inputs: Inputs, ready: seq<nat>, i: nat, j: nat)
    requires i < j < |Queue(inputs, ready)|
    ensures
      var a, b := Queue(inputs, ready)[i], Queue(inputs, ready)[j];
      a.priority > b.priority || (a.priority == b.priority && a.task <= b.task)
  {
    var queue := Queue(inputs, ready);
    assert !Less(ByPriority(queue[j]), ByPriority(queue[i]));
  }

  // ---------------------------------------------------------------- waiting

  /** Enough waiting lifts a task above a priority exactly when the full boost does: for a base of
      zero or more, above every priority but the highest; for a negative base, only above what the
      base leaves of the full boost. */
  lemma OutranksEventuallyIff(base: I32, other: I32)
    ensures (exists w: U32 :: Boosted(base, w) > other) <==> base + I32_MAX > other && I32_MAX > other
  {
    if base + I32_MAX > other && I32_MAX > other {
      var w: U32 := I32_MAX;
      assert Boosted(base, w) > other;
    }
  }

  /** How long a task has to wait to rise above a priority that waiting can reach at all. */
  lemma BoundedWait(base: I32, waited: U32, other: I32)
    ensures Boosted(base, waited) > other <==>
        base + I32_MAX > other && I32_MAX > other && waited >= (other - base) / 10 + 1
  {
  }

  lemma {:induction false} FirstIsTaken(queue: seq<ScheduledRun>, c: Constraints)
    requires queue != [] && queue[0].task !in c.cancelled && c.concurrency > 0 && queue[0].cost <= c.budget
    ensures queue[0] in Pack(queue, c).runs
  {
    var front := queue[..|queue| - 1];
    if front != [] {
      FirstIsTaken(front, c);
    } else {
      assert Pack(front, c) == ScheduleBatch([], [], 0);
    }
  }

  lemma HighestIsFirst(queue: seq<ScheduledRun>, r: ScheduledRun)
    requires Sorted(queue, ByPriority) && r in queue
    requires forall s :: s in queue && s != r ==> s.priority < r.priority
    ensures queue[0] == r
  {
  }

  /** No starvation: a task that is not cancelled and within the budget is in the batch once it has
      waited a tenth of what the highest competing priority has over its base, plus one, provided
      that waiting can lift its base above that priority. Bases of at least zero always can. */
  lemma LongWaitersRun(inputs: Inputs, ready: seq<nat>, c: Constraints, task: nat, agent: nat, highest: I32)
    requires task in ready && AgentFor(inputs.assignments, task) == Some(agent)
    requires BaseOf(inputs, task) + I32_MAX > highest && I32_MAX > highest
    requires WaitOf(inputs, task) >= (highest - BaseOf(inputs, task)) / 10 + 1
    requires forall s :: s in Candidates(inputs, ready) && s.task != task ==> s.priority <= highest
    requires task !in c.cancelled && c.concurrency > 0 && Candidate(inputs, task, agent).cost <= c.budget
    ensures Candidate(inputs, task, agent) in Pack(Queue(inputs, ready), c).runs
  {
    var r, queue := Candidate(inputs, task, agent), Queue(inputs, ready);
    BoundedWait(BaseOf(inputs, task), WaitOf(inputs, task), highest);
    RearrangementMembers(queue, Candidates(inputs, ready));
    forall s | s in queue ensures s in Candidates(inputs, ready) && (s.task == task ==> s == r) {
      CandidatesAreReady(inputs, ready, s);
    }
    CandidatesAreReady(inputs, ready, r);
    HighestIsFirst(queue, r);
    FirstIsTaken(queue, c);
  }

  lemma HeadComesFirst(queue: seq<ScheduledRun>, r: ScheduledRun)
    requires Sorted(queue, ByPriority) && r in queue
    ensures queue[0].priority >= r.priority && (queue[0].priority == r.priority ==> queue[0].task <= r.task)
  {
    var k :| 0 <= k < |queue| && queue[k] == r;
    assert k > 0 ==> !Less(ByPriority(queue[k]), ByPriority(queue[0]));
  }

  /** At the top the order is decided by the task id alone: with one slot, and a runnable task at
      the head of the queue, a task that competes with one of the highest priority and a smaller id
      is left out however long it has waited. */
  lemma SaturationStarves(queue: seq<ScheduledRun>, c: Constraints, one: ScheduledRun, two: ScheduledRun, base: I32,
      waited: U32)
    requires Sorted(queue, ByPriority) && one in queue && two in queue
    requires one.priority == I32_MAX && two.priority == Boosted(base, waited) && one.task < two.task
    requires c.concurrency == 1 && queue[0].task !in c.cancelled && queue[0].cost <= c.budget
    ensures two !in Pack(queue, c).runs
  {
    OneSlotRunsTheHead(queue, c);
    HeadComesFirst(queue, one);
  }

  // ---------------------------------------------------------------- who ever runs in a single slot

  /** The same inputs, but the task has waited `w` cycles. */
  function Waited(inputs: Inputs, task: nat, w: U32): Inputs {
    inputs.(waits := inputs.waits[task := w])
  }

  /** The task with the most that waiting can give it. */
  function AtBest(inputs: Inputs, task: nat, agent: nat): ScheduledRun {
    Candidate(Waited(inputs, task, U32_MAX), task, agent)
  }

  lemma OthersStay(inputs: Inputs, ready: seq<nat>, task: nat, w: U32, s: ScheduledRun)
    requires s.task != task
    ensures s in Candidates(Waited(inputs, task, w), ready) <==> s in Candidates(inputs, ready)
  {
    CandidatesAreReady(inputs, ready, s);
    CandidatesAreReady(Waited(inputs, task, w), ready, s);
  }

  lemma {:induction false} OneSlotRunsTheHead(queue: seq<ScheduledRun>, c: Constraints)
    requires queue != [] && queue[0].task !in c.cancelled && c.concurrency == 1 && queue[0].cost <= c.budget
    ensures Pack(queue, c).runs == [queue[0]]
  {
    FirstIsTaken(queue, c);
    BatchRespectsTheLimits(queue, c);
  }

  /** The run comes before every other one. */
  ghost predicate Outranks(r: ScheduledRun, all: seq<ScheduledRun>) {
    forall s :: s in all && s.task != r.task ==> Less(ByPriority(r), ByPriority(s))
  }

  lemma FirstIffOutranks(queue: seq<ScheduledRun>, r: ScheduledRun)
    requires Sorted(queue, ByPriority) && r in queue
    requires forall s :: s in queue && s.task == r.task ==> s == r
    ensures queue[0] == r <==> Outranks(r, queue)
  {
    var k :| 0 <= k < |queue| && queue[k] == r;
    assert k > 0 ==> !Less(ByPriority(queue[k]), ByPriority(queue[0]));
    if queue[0] == r {
      forall s | s in queue && s.task != r.task ensures Less(ByPriority(r), ByPriority(s)) {
        var j :| 0 <= j < |queue| && queue[j] == s;
        assert !Less(ByPriority(queue[j]), ByPriority(queue[0]));
      }
    } else {
      assert queue[0] in queue;
    }
  }

  /** With one slot and candidates that could each run alone, a task runs exactly when it comes
      before every other candidate. */
  lemma RunsIffOutranks(inputs: Inputs, ready: seq<nat>, c: Constraints, r: ScheduledRun)
    requires r in Candidates(inputs, ready) && c.concurrency == 1
    requires forall s :: s in Candidates(inputs, ready) ==> s.task !in c.cancelled && s.cost <= c.budget
    ensures r in Pack(Queue(inputs, ready), c).runs <==> Outranks(r, Candidates(inputs, ready))
  {
    var queue := Queue(inputs, ready);
    RearrangementMembers(queue, Candidates(inputs, ready));
    forall s | s in queue && s.task == r.task ensures s == r {
      CandidatesAreReady(inputs, ready, s);
      CandidatesAreReady(inputs, ready, r);
    }
    FirstIffOutranks(queue, r);
    assert queue[0] in queue;
    OneSlotRunsTheHead(queue, c);
  }

  lemma OutranksSame(inputs: Inputs, ready: seq<nat>, task: nat, w: U32, r: ScheduledRun)
    requires r.task == task
    ensures Outranks(r, Candidates(Waited(inputs, task, w), ready)) <==> Outranks(r, Candidates(inputs, ready))
  {
    forall s: ScheduledRun | s.task != task
      ensures s in Candidates(Waited(inputs, task, w), ready) <==> s in Candidates(inputs, ready)
    {
      OthersStay(inputs, ready, task, w, s);
    }
  }

  lemma MoreWaitingOutranks(inputs: Inputs, ready: seq<nat>, task: nat, agent: nat, w: U32)
    requires Outranks(Candidate(Waited(inputs, task, w), task, agent), Candidates(inputs, ready))
    ensures Outranks(AtBest(inputs, task, agent), Candidates(inputs, ready))
  {
    var r, best := Candidate(Waited(inputs, task, w), task, agent), AtBest(inputs, task, agent);
    assert r.priority <= best.priority && r.task == best.task;
  }

  lemma RunsWhenWaited(inputs: Inputs, ready: seq<nat>, c: Constraints, task: nat, agent: nat, w: U32)
    requires task in ready && AgentFor(inputs.assignments, task) == Some(agent) && c.concurrency == 1
    requires forall s :: s in Candidates(inputs, ready) ==> s.task !in c.cancelled && s.cost <= c.budget
    ensures
      var later := Waited(inputs, task, w);
      var r := Candidate(later, task, agent);
      r in Pack(Queue(later, ready), c).runs <==> Outranks(r, Candidates(inputs, ready))
  {
    var later := Waited(inputs, task, w);
    var r, was := Candidate(later, task, agent), Candidate(inputs, task, agent);
    CandidatesAreReady(inputs, ready, was);
    CandidatesAreReady(later, ready, r);
    forall s | s in Candidates(later, ready) ensures s.task !in c.cancelled && s.cost <= c.budget {
      if s.task == task {
        CandidatesAreReady(later, ready, s);
      } else {
        OthersStay(inputs, ready, task, w, s);
      }
    }
    RunsIffOutranks(later, ready, c, r);
    OutranksSame(inputs, ready, task, w, r);
  }

  /** With one slot and candidates that could each run alone, some number of waits brings a task
      into the batch if and only if, at the full boost, it comes before every other candidate: by
      priority, or by its id at equal priority. Against any other it starves. */
  lemma RunsEventuallyIff(inputs: Inputs, ready: seq<nat>, c: Constraints, task: nat, agent: nat)
    requires task in ready && AgentFor(inputs.assignments, task) == Some(agent) && c.concurrency == 1
    requires forall s :: s in Candidates(inputs, ready) ==> s.task !in c.cancelled && s.cost <= c.budget
    ensures
      (exists w: U32 ::
         Candidate(Waited(inputs, task, w), task, agent) in Pack(Queue(Waited(inputs, task, w), ready), c).runs)
      <==> Outranks(AtBest(inputs, task, agent), Candidates(inputs, ready))
  {
    forall w: U32 |
      Candidate(Waited(inputs, task, w), task, agent) in Pack(Queue(Waited(inputs, task, w), ready), c).runs
      ensures Outranks(AtBest(inputs, task, agent), Candidates(inputs, ready))
    {
      RunsWhenWaited(inputs, ready, c, task, agent, w);
      MoreWaitingOutranks(inputs, ready, task, agent, w);
    }
    RunsWhenWaited(inputs, ready, c, task, agent, U32_MAX);
  }
}
