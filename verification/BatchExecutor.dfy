/** The bounded executor: a few workers drain one shared queue into one shared list of
    outcomes. Whatever the interleaving, the caller sees a sequential map and a sort. */
module BatchExecutor {
  import opened Prelude
  import opened Ordering
  import opened Text
  import ProfileContract

  type RunId = nat
  type TaskId = nat
  type AgentDefinitionId = nat

  datatype PlanningBudget = PlanningBudget(
    maxPlanningIterations: U8,
    maxPlannerTokens: U32,
    maxPlanDepth: U8,
    maxWallTimeMillis: U64,
    maxDiscoveryActions: U32)

  /** One run to execute. `cancelled` is its cancellation token, which no other dispatch
      shares; `request` is whatever else the handler reads. */
  datatype Dispatch<Q> = Dispatch(
    runId: RunId,
    taskId: TaskId,
    agentDefinitionId: AgentDefinitionId,
    role: ProfileContract.AgentRole,
    profile: ProfileContract.AgentProfile,
    objective: string,
    maxTurns: U8,
    deadlineMillis: I64,
    planningBudget: Option<PlanningBudget>,
    contextFingerprint: string,
    tokenCost: U32,
    cancelled: bool,
    request: Q)

  datatype AgentError =
    | ZeroParallelism
    | ProfileRejected(why: ProfileContract.ProfileError)
    | DuplicateRun(run: RunId)
    | DispatchInvalid(run: RunId)
    | PlannerBudgetMissing(run: RunId)
    | PlannerBudgetInvalid(run: RunId)
    | CancelledBeforeStart(run: RunId)
    | DeadlineExceeded(run: RunId)
    | HandlerPanicked(run: RunId)
    | HandlerFailed(code: string)

  datatype HandlerExit<R> = Returned(result: R) | Failed(code: string) | Panicked

  datatype Outcome<R> = Outcome(
    runId: RunId,
    taskId: TaskId,
    agentDefinitionId: AgentDefinitionId,
    result: Option<R>,
    error: Option<AgentError>)

  // ---------------------------------------------------------------- admission

  predicate BudgetSound(b: PlanningBudget, maxTurns: U8, tokenCost: U32) {
    && b.maxPlanningIterations != 0 && maxTurns <= b.maxPlanningIterations
    && b.maxPlanDepth != 0 && b.maxWallTimeMillis != 0 && b.maxDiscoveryActions != 0
    && tokenCost <= b.maxPlannerTokens
  }

  /** Why a dispatch is refused after the runs in `earlier` were admitted. */
  function DispatchError<Q>(d: Dispatch<Q>, earlier: set<RunId>): Option<AgentError> {
    if ProfileContract.Verdict(d.profile).Some? then Some(ProfileRejected(ProfileContract.Verdict(d.profile).value))
    else if d.runId in earlier then Some(DuplicateRun(d.runId))
    else if Blank(d.objective) || d.maxTurns == 0 || d.maxTurns > d.profile.modelPolicy.maxTurns
         || d.profile.role != d.role || Blank(d.contextFingerprint)
    then Some(DispatchInvalid(d.runId))
    else if d.role != ProfileContract.Planner then None
    else if d.planningBudget.None? then Some(PlannerBudgetMissing(d.runId))
    else if !BudgetSound(d.planningBudget.value, d.maxTurns, d.tokenCost) then Some(PlannerBudgetInvalid(d.runId))
    else None
  }

  function RunIds<Q>(ds: seq<Dispatch<Q>>): set<RunId> {
    set i | 0 <= i < |ds| :: ds[i].runId
  }

  /** The verdict on the `k`-th dispatch of a batch. */
  function ErrorAt<Q>(ds: seq<Dispatch<Q>>, k: nat): Option<AgentError>
    requires k < |ds|
  {
    DispatchError(ds[k], RunIds(ds[..k]))
  }

  ghost predicate Admitted<Q>(ds: seq<Dispatch<Q>>) {
    forall k :: 0 <= k < |ds| ==> ErrorAt(ds, k).None?
  }

  lemma AdmitsOneMore<Q>(ds: seq<Dispatch<Q>>, k: nat)
    requires k < |ds| && Admitted(ds[..k]) && ErrorAt(ds, k).None?
    ensures Admitted(ds[..k + 1]) && RunIds(ds[..k + 1]) == RunIds(ds[..k]) + {ds[k].runId}
  {
    var more := ds[..k + 1];
    forall i: nat | i < k + 1 ensures ErrorAt(more, i).None? {
      assert more[..i] == ds[..i];
      if i < k {
        assert ErrorAt(ds[..k], i).None?;
        assert ds[..k][..i] == ds[..i];
      }
    }
    assert forall i :: 0 <= i < k ==> more[i] == ds[..k][i];
    assert more[k] == ds[k];
  }

  ghost predicate DistinctRuns<Q>(ds: seq<Dispatch<Q>>) {
    forall i, j :: 0 <= i < j < |ds| ==> ds[i].runId != ds[j].runId
  }

  lemma AdmittedRunsDiffer<Q>(ds: seq<Dispatch<Q>>)
    requires Admitted(ds)
    ensures DistinctRuns(ds)
  {
    forall i, j | 0 <= i < j < |ds| ensures ds[i].runId != ds[j].runId {
      assert ErrorAt(ds, j).None?;
      assert ds[..j][i] == ds[i];
      assert ds[i].runId in RunIds(ds[..j]);
    }
  }

  /** The dispatch itself is in order, its planning budget aside. */
  ghost predicate WellPosed<Q>(d: Dispatch<Q>) {
    && d.profile.role == d.role && !Blank(d.objective) && !Blank(d.contextFingerprint)
    && 1 <= d.maxTurns <= d.profile.modelPolicy.maxTurns
  }

  /** The budget covers the turns and the context of the dispatch, and leaves room to plan. */
  predicate Covers<Q>(b: PlanningBudget, d: Dispatch<Q>) {
    && 1 <= b.maxPlanningIterations && d.maxTurns <= b.maxPlanningIterations && d.tokenCost <= b.maxPlannerTokens
    && 1 <= b.maxPlanDepth && 1 <= b.maxWallTimeMillis && 1 <= b.maxDiscoveryActions
  }

  /** What the source asks of a single dispatch. */
  ghost predicate Acceptable<Q>(d: Dispatch<Q>) {
    && ProfileContract.Verdict(d.profile).None? && WellPosed(d)
    && (d.role == ProfileContract.Planner ==> d.planningBudget.Some? && Covers(d.planningBudget.value, d))
  }

  /** A batch is admitted exactly when its runs differ and each dispatch is acceptable by itself. */
  lemma AdmittedIff<Q>(ds: seq<Dispatch<Q>>)
    ensures Admitted(ds) <==> DistinctRuns(ds) && forall k :: 0 <= k < |ds| ==> Acceptable(ds[k])
  {
    if Admitted(ds) {
      AdmittedRunsDiffer(ds);
      forall k | 0 <= k < |ds| ensures Acceptable(ds[k]) {
        assert ErrorAt(ds, k).None?;
      }
    } else if DistinctRuns(ds) {
      var k: nat :| k < |ds| && ErrorAt(ds, k).Some?;
      assert ds[k].runId !in RunIds(ds[..k]);
      assert !Acceptable(ds[k]);
    }
  }

  /** The error of a refused dispatch: the profile comes first, then a run seen before, then the
      dispatch itself, then a planner's missing budget, then one that does not cover it. */
  lemma RefusalsInOrder<Q>(ds: seq<Dispatch<Q>>, k: nat)
    requires k < |ds|
    ensures
      var d, e, verdict := ds[k], ErrorAt(ds, k), ProfileContract.Verdict(ds[k].profile);
      var seen := exists i :: 0 <= i < k && ds[i].runId == d.runId;
      var plans := verdict.None? && !seen && WellPosed(d) && d.role == ProfileContract.Planner;
      && (verdict.Some? ==> e == Some(ProfileRejected(verdict.value)))
      && (e == Some(DuplicateRun(d.runId)) <==> verdict.None? && seen)
      && (e == Some(DispatchInvalid(d.runId)) <==> verdict.None? && !seen && !WellPosed(d))
      && (e == Some(PlannerBudgetMissing(d.runId)) <==> plans && d.planningBudget.None?)
      && (e == Some(PlannerBudgetInvalid(d.runId)) <==>
            plans && d.planningBudget.Some? && !Covers(d.planningBudget.value, d))
      && (e.None? <==> !seen && Acceptable(d))
  {
    SeenBefore(ds, k);
  }

  lemma SeenBefore<Q>(ds: seq<Dispatch<Q>>, k: nat)
    requires k < |ds|
    ensures ds[k].runId in RunIds(ds[..k]) <==> exists i :: 0 <= i < k && ds[i].runId == ds[k].runId
  {
    if i :| 0 <= i < k && ds[i].runId == ds[k].runId {
      assert ds[..k][i] == ds[i];
    }
  }

  // ---------------------------------------------------------------- one run

  /** What a caller learns about a dispatch, on its fields and the handler alone. */
  ghost predicate Reports<Q, R(!new)>(handler: Dispatch<Q> -> HandlerExit<R>, now: I64, d: Dispatch<Q>, o: Outcome<R>) {
    var runs := !d.cancelled && now < d.deadlineMillis;
    && o.runId == d.runId && o.taskId == d.taskId && o.agentDefinitionId == d.agentDefinitionId
    && (o.error == Some(CancelledBeforeStart(d.runId)) <==> d.cancelled)
    && (o.error == Some(DeadlineExceeded(d.runId)) <==> !d.cancelled && now >= d.deadlineMillis)
    && (o.error == Some(HandlerPanicked(d.runId)) <==> runs && handler(d).Panicked?)
    && (o.error.Some? && o.error.value.HandlerFailed? <==> runs && handler(d).Failed?)
    && (runs && handler(d).Failed? ==> o.error == Some(HandlerFailed(handler(d).code)))
    && (o.result.Some? <==> o.error.None?) && (o.result.Some? <==> runs && handler(d).Returned?)
    && (runs && handler(d).Returned? ==> o.result == Some(handler(d).result))
  }

  /** Whether the executor cancels the token of a dispatch itself. */
  predicate Overdue<Q>(d: Dispatch<Q>, now: I64) {
    !d.cancelled && now >= d.deadlineMillis
  }

  /** What becomes of one dispatch, on its own. */
  function Settle<Q, R(!new)>(handler: Dispatch<Q> -> HandlerExit<R>, now: I64, d: Dispatch<Q>): (o: Outcome<R>)
    ensures o.runId == d.runId && o.taskId == d.taskId && o.result.Some? != o.error.Some?
  {
    var blank: Outcome<R> := Outcome(d.runId, d.taskId, d.agentDefinitionId, None, None);
    if d.cancelled then blank.(error := Some(CancelledBeforeStart(d.runId)))
    else if now >= d.deadlineMillis then blank.(error := Some(DeadlineExceeded(d.runId)))
    else match handler(d)
      case Returned(result) => blank.(result := Some(result))
      case Failed(code) => blank.(error := Some(HandlerFailed(code)))
      case Panicked => blank.(error := Some(HandlerPanicked(d.runId)))
  }

  function Sequential<Q, R(!new)>(handler: Dispatch<Q> -> HandlerExit<R>, now: I64, ds: seq<Dispatch<Q>>):
      (r: seq<Outcome<R>>)
    ensures |r| == |ds| && forall i :: 0 <= i < |ds| ==> r[i] == Settle(handler, now, ds[i])
  {
    if ds == [] then [] else [Settle(handler, now, ds[0])] + Sequential(handler, now, ds[1..])
  }

  function OutcomeKey<R>(o: Outcome<R>): Key {
    (o.taskId, o.runId)
  }

  // ---------------------------------------------------------------- the pool

  datatype Worker<Q> = Idle | Holding(dispatch: Dispatch<Q>) | Stopped

  /** `tripped` collects the runs whose token the pool itself cancelled. */
  datatype Pool<Q, R> = Pool(
    queue: seq<Dispatch<Q>>,
    workers: seq<Worker<Q>>,
    outcomes: seq<Outcome<R>>,
    tripped: set<RunId>)

  /** The next locked step of worker `w`: take a dispatch, stop on an empty queue, or
      report the dispatch in hand. */
  function Advance<Q, R(!new)>(handler: Dispatch<Q> -> HandlerExit<R>, now: I64, p: Pool<Q, R>, w: nat): Pool<Q, R>
    requires w < |p.workers|
  {
    match p.workers[w]
    case Idle =>
      if p.queue == [] then p.(workers := p.workers[w := Stopped])
      else p.(queue := p.queue[1..], workers := p.workers[w := Holding(p.queue[0])])
    case Holding(d) =>
      p.(outcomes := p.outcomes + [Settle(handler, now, d)],
         workers := p.workers[w := Idle],
         tripped := if !d.cancelled && now >= d.deadlineMillis then p.tripped + {d.runId} else p.tripped)
    case Stopped => p
  }

  ghost predicate AllStopped<Q>(workers: seq<Worker<Q>>) {
    forall w :: 0 <= w < |workers| ==> workers[w].Stopped?
  }

  /** The outcome a worker is about to report. */
  function InHand<Q, R(!new)>(handler: Dispatch<Q> -> HandlerExit<R>, now: I64, worker: Worker<Q>): Option<Outcome<R>> {
    if worker.Holding? then Some(Settle(handler, now, worker.dispatch)) else None
  }

  function InHands<Q, R(!new)>(handler: Dispatch<Q> -> HandlerExit<R>, now: I64, workers: seq<Worker<Q>>):
      seq<Option<Outcome<R>>>
  {
    seq(|workers|, i requires 0 <= i < |workers| => InHand(handler, now, workers[i]))
  }

  ghost function Single<T>(o: Option<T>): multiset<T> {
    if o.Some? then multiset{o.value} else multiset{}
  }

  ghost function Somes<T>(s: seq<Option<T>>): multiset<T> {
    if s == [] then multiset{} else Single(s[0]) + Somes(s[1..])
  }

  lemma {:induction false} SomesChange<T>(s: seq<Option<T>>, i: nat, next: Option<T>)
    requires i < |s|
    ensures Somes(s[i := next]) + Single(s[i]) == Somes(s) + Single(next)
  {
    if i == 0 {
      assert s[i := next][1..] == s[1..];
      Exchange(Single(next), Somes(s[1..]), Single(s[i]));
    } else {
      assert s[i := next][1..] == s[1..][i - 1 := next];
      SomesChange(s[1..], i - 1, next);
      Carry(Single(s[0]), Somes(s[1..][i - 1 := next]), Somes(s[1..]), Single(s[i]), Single(next));
    }
  }

  lemma Exchange<T>(x: multiset<T>, rest: multiset<T>, y: multiset<T>)
    ensures (x + rest) + y == (y + rest) + x
  {
  }

  lemma Carry<T>(head: multiset<T>, a: multiset<T>, b: multiset<T>, x: multiset<T>, y: multiset<T>)
    requires a + x == b + y
    ensures (head + a) + x == (head + b) + y
  {
    assert (head + a) + x == head + (a + x);
    assert (head + b) + y == head + (b + y);
  }

  lemma {:induction false} SomesOfNothing<T>(s: seq<Option<T>>)
    requires forall i :: 0 <= i < |s| ==> s[i].None?
    ensures Somes(s) == multiset{}
  {
    if s != [] {
      SomesOfNothing(s[1..]);
    }
  }

  /** All outcomes the pool has reported, is working on, or still has queued. */
  ghost function Owed<Q, R(!new)>(handler: Dispatch<Q> -> HandlerExit<R>, now: I64, p: Pool<Q, R>):
      multiset<Outcome<R>>
  {
    multiset(p.outcomes) + Somes(InHands(handler, now, p.workers)) + multiset(Sequential<Q, R>(handler, now, p.queue))
  }

  lemma HandsChange<Q, R(!new)>(handler: Dispatch<Q> -> HandlerExit<R>, now: I64, workers: seq<Worker<Q>>, w: nat,
      next: Worker<Q>)
    requires w < |workers|
    ensures Somes(InHands<Q, R>(handler, now, workers[w := next])) + Single(InHand<Q, R>(handler, now, workers[w]))
         == Somes(InHands<Q, R>(handler, now, workers)) + Single(InHand<Q, R>(handler, now, next))
  {
    var hands, hand := InHands<Q, R>(handler, now, workers), InHand<Q, R>(handler, now, next);
    assert InHands<Q, R>(handler, now, workers[w := next]) == hands[w := hand];
    SomesChange(hands, w, hand);
  }

  lemma QueueToHand<T>(queue: seq<T>, more: multiset<T>, hands: multiset<T>, hands': multiset<T>)
    requires queue != [] && hands' == hands + multiset{queue[0]}
    ensures more + hands' + multiset(queue[1..]) == more + hands + multiset(queue)
  {
    assert queue == [queue[0]] + queue[1..];
  }

  lemma HandToList<T>(reported: seq<T>, o: T, hands: multiset<T>, hands': multiset<T>, more: multiset<T>)
    requires hands' + multiset{o} == hands
    ensures multiset(reported + [o]) + hands' + more == multiset(reported) + hands + more
  {
  }

  lemma TakeConserves<Q, R(!new)>(handler: Dispatch<Q> -> HandlerExit<R>, now: I64, p: Pool<Q, R>, w: nat)
    requires w < |p.workers| && p.workers[w].Idle? && p.queue != []
    ensures Owed(handler, now, Advance(handler, now, p, w)) == Owed(handler, now, p)
  {
    var q := Advance(handler, now, p, w);
    var hands, hands' := Somes(InHands<Q, R>(handler, now, p.workers)), Somes(InHands<Q, R>(handler, now, q.workers));
    HandsChange<Q, R>(handler, now, p.workers, w, q.workers[w]);
    assert hands' + multiset{} == hands';
    var all := Sequential<Q, R>(handler, now, p.queue);
    assert Sequential<Q, R>(handler, now, q.queue) == all[1..];
    QueueToHand(all, multiset(p.outcomes), hands, hands');
  }

  lemma ReportConserves<Q, R(!new)>(handler: Dispatch<Q> -> HandlerExit<R>, now: I64, p: Pool<Q, R>, w: nat)
    requires w < |p.workers| && p.workers[w].Holding?
    ensures Owed(handler, now, Advance(handler, now, p, w)) == Owed(handler, now, p)
  {
    var q := Advance(handler, now, p, w);
    var hands, hands' := Somes(InHands<Q, R>(handler, now, p.workers)), Somes(InHands<Q, R>(handler, now, q.workers));
    HandsChange<Q, R>(handler, now, p.workers, w, Idle);
    assert hands + multiset{} == hands;
    HandToList(p.outcomes, Settle(handler, now, p.workers[w].dispatch), hands, hands',
               multiset(Sequential<Q, R>(handler, now, p.queue)));
  }

  lemma StopConserves<Q, R(!new)>(handler: Dispatch<Q> -> HandlerExit<R>, now: I64, p: Pool<Q, R>, w: nat)
    requires w < |p.workers| && p.workers[w].Idle? && p.queue == []
    ensures Owed(handler, now, Advance(handler, now, p, w)) == Owed(handler, now, p)
  {
    assert InHands<Q, R>(handler, now, p.workers[w := Stopped]) == InHands<Q, R>(handler, now, p.workers);
  }

  /** Steps move outcomes along; they neither lose nor repeat one. */
  lemma StepConserves<Q, R(!new)>(handler: Dispatch<Q> -> HandlerExit<R>, now: I64, p: Pool<Q, R>, w: nat)
    requires w < |p.workers|
    ensures Owed(handler, now, Advance(handler, now, p, w)) == Owed(handler, now, p)
  {
    match p.workers[w]
    case Idle =>
      if p.queue == [] { StopConserves(handler, now, p, w); } else { TakeConserves(handler, now, p, w); }
    case Holding(_) =>
      ReportConserves(handler, now, p, w);
    case Stopped =>
  }

  function Weight<Q>(workers: seq<Worker<Q>>): nat {
    if workers == [] then 0
    else (match workers[0] case Idle => 1 case Holding(_) => 2 case Stopped => 0) + Weight(workers[1..])
  }

  /** The number of steps the pool still has to take. */
  function Remaining<Q, R>(p: Pool<Q, R>): nat {
    2 * |p.queue| + Weight(p.workers)
  }

  lemma {:induction false} WeightChange<Q>(workers: seq<Worker<Q>>, w: nat, next: Worker<Q>)
    requires w < |workers|
    ensures Weight(workers[w := next]) + Weight([workers[w]]) == Weight(workers) + Weight([next])
  {
    if w == 0 {
      assert workers[w := next][1..] == workers[1..];
    } else {
      assert workers[w := next][1..] == workers[1..][w - 1 := next];
      WeightChange(workers[1..], w - 1, next);
    }
  }

  /** Every step of a worker that has not stopped brings the end exactly one step nearer. */
  lemma StepProgresses<Q, R(!new)>(handler: Dispatch<Q> -> HandlerExit<R>, now: I64, p: Pool<Q, R>, w: nat)
    requires w < |p.workers| && !p.workers[w].Stopped?
    ensures Remaining(Advance(handler, now, p, w)) == Remaining(p) - 1
  {
    WeightChange(p.workers, w, Advance(handler, now, p, w).workers[w]);
  }

  lemma {:induction false} NothingRemains<Q>(workers: seq<Worker<Q>>)
    ensures Weight(workers) == 0 <==> AllStopped(workers)
  {
    if workers != [] {
      NothingRemains(workers[1..]);
      assert AllStopped(workers[1..]) && workers[0].Stopped? ==>
          forall w :: 0 < w < |workers| ==> workers[w] == workers[1..][w - 1];
      if AllStopped(workers) {
        assert forall w :: 0 <= w < |workers| - 1 ==> workers[1..][w] == workers[w + 1];
      }
    }
  }

  function Tripped<R>(outcomes: seq<Outcome<R>>): set<RunId> {
    set i | 0 <= i < |outcomes| && outcomes[i].error == Some(DeadlineExceeded(outcomes[i].runId)) :: outcomes[i].runId
  }

  ghost predicate StoppedWhenEmpty<Q>(queue: seq<Dispatch<Q>>, workers: seq<Worker<Q>>) {
    queue == [] || forall w :: 0 <= w < |workers| ==> !workers[w].Stopped?
  }

  lemma StepStops<Q, R(!new)>(handler: Dispatch<Q> -> HandlerExit<R>, now: I64, p: Pool<Q, R>, w: nat)
    requires StoppedWhenEmpty(p.queue, p.workers) && w < |p.workers|
    ensures
      var q := Advance(handler, now, p, w);
      StoppedWhenEmpty(q.queue, q.workers)
  {
  }

  /** What every step keeps: a worker stops only on an empty queue, the outcomes owed are
      those of the batch, and exactly the overdue runs were tripped. */
  ghost predicate PoolInvariant<Q, R(!new)>(handler: Dispatch<Q> -> HandlerExit<R>, now: I64, ds: seq<Dispatch<Q>>,
      p: Pool<Q, R>)
  {
    && p.workers != []
    && StoppedWhenEmpty(p.queue, p.workers)
    && Owed(handler, now, p) == multiset(Sequential<Q, R>(handler, now, ds))
    && p.tripped == Tripped(p.outcomes)
  }

  lemma StepKeepsInvariant<Q, R(!new)>(handler: Dispatch<Q> -> HandlerExit<R>, now: I64, ds: seq<Dispatch<Q>>,
      p: Pool<Q, R>, w: nat)
    requires PoolInvariant(handler, now, ds, p) && w < |p.workers|
    ensures PoolInvariant(handler, now, ds, Advance(handler, now, p, w))
  {
    StepConserves(handler, now, p, w);
    StepTrips(handler, now, p, w);
    StepStops(handler, now, p, w);
  }

  lemma StepTrips<Q, R(!new)>(handler: Dispatch<Q> -> HandlerExit<R>, now: I64, p: Pool<Q, R>, w: nat)
    requires w < |p.workers| && p.tripped == Tripped(p.outcomes)
    ensures Advance(handler, now, p, w).tripped == Tripped(Advance(handler, now, p, w).outcomes)
  {
    if p.workers[w].Holding? {
      TrippedGrows(p.outcomes, Settle(handler, now, p.workers[w].dispatch));
    }
  }

  lemma TrippedGrows<R>(outcomes: seq<Outcome<R>>, o: Outcome<R>)
    ensures Tripped(outcomes + [o])
         == Tripped(outcomes) + if o.error == Some(DeadlineExceeded(o.runId)) then {o.runId} else {}
  {
    var more := outcomes + [o];
    assert forall i :: 0 <= i < |outcomes| ==> more[i] == outcomes[i];
    assert more[|outcomes|] == o;
    forall r | r in Tripped(outcomes) ensures r in Tripped(more) {
      var i :| 0 <= i < |outcomes| && outcomes[i].error == Some(DeadlineExceeded(outcomes[i].runId))
          && r == outcomes[i].runId;
      assert more[i] == outcomes[i];
    }
  }

  function Initial<Q, R>(ds: seq<Dispatch<Q>>, workerCount: nat): Pool<Q, R> {
    Pool(ds, seq(workerCount, _ => Idle), [], {})
  }

  lemma {:induction false} IdleWeight<Q>(n: nat)
    ensures Weight<Q>(seq(n, _ => Idle)) == n
  {
    if n > 0 {
      IdleWeight<Q>(n - 1);
      assert seq(n, _ => Worker<Q>.Idle)[1..] == seq(n - 1, _ => Worker<Q>.Idle);
    }
  }

  lemma InitialInvariant<Q, R(!new)>(handler: Dispatch<Q> -> HandlerExit<R>, now: I64, ds: seq<Dispatch<Q>>,
      workerCount: nat)
    requires workerCount > 0
    ensures PoolInvariant<Q, R>(handler, now, ds, Initial(ds, workerCount))
    ensures Remaining<Q, R>(Initial(ds, workerCount)) == 2 * |ds| + workerCount
  {
    IdleWeight<Q>(workerCount);
    SomesOfNothing(InHands<Q, R>(handler, now, Initial<Q, R>(ds, workerCount).workers));
  }

  /** Outcomes of an admitted batch are told apart by their task and run. */
  lemma OutcomesDiffer<Q, R(!new)>(ds: seq<Dispatch<Q>>, all: seq<Outcome<R>>)
    requires DistinctRuns(ds) && |all| == |ds|
    requires forall i :: 0 <= i < |ds| ==> all[i].runId == ds[i].runId
    ensures forall x, y :: x in all && y in all && OutcomeKey(x) == OutcomeKey(y) ==> x == y
  {
  }

  lemma SameOutcomes<R(!new)>(a: seq<Outcome<R>>, b: seq<Outcome<R>>)
    requires multiset(a) == multiset(b)
    requires forall x, y :: x in b && y in b && OutcomeKey(x) == OutcomeKey(y) ==> x == y
    ensures SortBy(a, OutcomeKey) == SortBy(b, OutcomeKey) && Tripped(a) == Tripped(b)
  {
    RearrangementMembers(a, b);
    SortForgetsOrder(a, b, OutcomeKey);
    TrippedByMembers(a, b);
    TrippedByMembers(b, a);
  }

  lemma NothingElseOwed<T>(reported: seq<T>, queued: seq<T>, owed: multiset<T>)
    requires queued == [] && multiset(reported) + multiset{} + multiset(queued) == owed
    ensures multiset(reported) == owed
  {
  }

  /** A finished pool has reported the batch, in some order. */
  lemma FinishedPool<Q, R(!new)>(handler: Dispatch<Q> -> HandlerExit<R>, now: I64, ds: seq<Dispatch<Q>>, p: Pool<Q, R>)
    requires DistinctRuns(ds) && PoolInvariant(handler, now, ds, p) && AllStopped(p.workers)
    ensures SortBy(p.outcomes, OutcomeKey) == SortBy(Sequential<Q, R>(handler, now, ds), OutcomeKey)
    ensures p.tripped == Tripped(Sequential<Q, R>(handler, now, ds))
  {
    var all := Sequential<Q, R>(handler, now, ds);
    assert p.workers[0].Stopped?;
    SomesOfNothing(InHands<Q, R>(handler, now, p.workers));
    NothingElseOwed(p.outcomes, Sequential<Q, R>(handler, now, p.queue), multiset(all));
    OutcomesDiffer(ds, all);
    SameOutcomes(p.outcomes, all);
  }

  lemma TrippedByMembers<R(!new)>(few: seq<Outcome<R>>, many: seq<Outcome<R>>)
    requires forall o :: o in few ==> o in many
    ensures Tripped(few) <= Tripped(many)
  {
    forall i | 0 <= i < |few| && few[i].error == Some(DeadlineExceeded(few[i].runId))
      ensures few[i].runId in Tripped(many)
    {
      assert few[i] in many;
      var j :| 0 <= j < |many| && many[j] == few[i];
    }
  }

  /** Some outcome of a list reports on the dispatch. */
  ghost predicate Reported<Q, R(!new)>(handler: Dispatch<Q> -> HandlerExit<R>, now: I64, d: Dispatch<Q>,
      out: seq<Outcome<R>>)
  {
    exists o :: o in out && Reports(handler, now, d, o)
  }

  /** The list reports on every dispatch, on nothing else, and is sorted without ties by task and
      run. */
  ghost predicate ReportsAll<Q, R(!new)>(handler: Dispatch<Q> -> HandlerExit<R>, now: I64, ds: seq<Dispatch<Q>>,
      out: seq<Outcome<R>>)
  {
    && |out| == |ds|
    && (forall i, j :: 0 <= i < j < |out| ==>
          out[i].taskId < out[j].taskId || (out[i].taskId == out[j].taskId && out[i].runId < out[j].runId))
    && (forall k :: 0 <= k < |ds| ==> Reported(handler, now, ds[k], out))
  }

  lemma SettledReports<Q, R(!new)>(handler: Dispatch<Q> -> HandlerExit<R>, now: I64, d: Dispatch<Q>)
    ensures Reports(handler, now, d, Settle(handler, now, d))
  {
  }

  /** Outcomes of different runs differ. */
  lemma SequentialDiffers<Q, R(!new)>(handler: Dispatch<Q> -> HandlerExit<R>, now: I64, ds: seq<Dispatch<Q>>)
    requires DistinctRuns(ds)
    ensures AllDifferent(Sequential<Q, R>(handler, now, ds))
  {
    var all := Sequential<Q, R>(handler, now, ds);
    forall i, j | 0 <= i < j < |all| ensures all[i] != all[j] {
      assert all[i].runId == ds[i].runId && all[j].runId == ds[j].runId;
    }
  }

  lemma SortedOutcomesReport<Q, R(!new)>(handler: Dispatch<Q> -> HandlerExit<R>, now: I64, ds: seq<Dispatch<Q>>)
    requires DistinctRuns(ds)
    ensures ReportsAll(handler, now, ds, SortBy(Sequential<Q, R>(handler, now, ds), OutcomeKey))
  {
    var all := Sequential<Q, R>(handler, now, ds);
    var out := SortBy(all, OutcomeKey);
    RearrangementMembers(out, all);
    SequentialDiffers<Q, R>(handler, now, ds);
    OutcomesDiffer(ds, all);
    DistinctSortStrictly(all, OutcomeKey);
    forall k | 0 <= k < |ds| ensures Reported(handler, now, ds[k], out) {
      SettledReports<Q, R>(handler, now, ds[k]);
      assert all[k] in all;
    }
  }

  /** Exactly the runs of overdue dispatches. */
  ghost predicate TripsOverdue<Q>(ds: seq<Dispatch<Q>>, now: I64, tripped: set<RunId>) {
    forall run :: run in tripped <==> exists k :: 0 <= k < |ds| && ds[k].runId == run && Overdue(ds[k], now)
  }

  lemma TrippedAreOverdue<Q, R(!new)>(handler: Dispatch<Q> -> HandlerExit<R>, now: I64, ds: seq<Dispatch<Q>>)
    ensures TripsOverdue(ds, now, Tripped(Sequential<Q, R>(handler, now, ds)))
  {
    var all := Sequential<Q, R>(handler, now, ds);
    forall k | 0 <= k < |ds|
      ensures all[k].error == Some(DeadlineExceeded(all[k].runId)) <==> Overdue(ds[k], now)
    {
      SettledReports<Q, R>(handler, now, ds[k]);
    }
    forall run
      ensures run in Tripped(all) <==> exists k :: 0 <= k < |ds| && ds[k].runId == run && Overdue(ds[k], now)
    {
      if k :| 0 <= k < |ds| && ds[k].runId == run && Overdue(ds[k], now) {
        assert all[k].runId == run;
      }
    }
  }

  // ---------------------------------------------------------------- every interleaving

  /** The pool after the workers took turns in the order of `schedule`. */
  function Run<Q, R(!new)>(handler: Dispatch<Q> -> HandlerExit<R>, now: I64, p: Pool<Q, R>, schedule: seq<nat>):
      Pool<Q, R>
    decreases |schedule|
  {
    if schedule == [] then p
    else
      var w := schedule[|schedule| - 1];
      var before := Run(handler, now, p, schedule[..|schedule| - 1]);
      if w < |before.workers| then Advance(handler, now, before, w) else before
  }

  lemma {:induction false} RunKeepsInvariant<Q, R(!new)>(handler: Dispatch<Q> -> HandlerExit<R>, now: I64,
      ds: seq<Dispatch<Q>>, p: Pool<Q, R>, schedule: seq<nat>)
    requires PoolInvariant(handler, now, ds, p)
    ensures PoolInvariant(handler, now, ds, Run(handler, now, p, schedule))
  {
    if schedule != [] {
      var w := schedule[|schedule| - 1];
      RunKeepsInvariant(handler, now, ds, p, schedule[..|schedule| - 1]);
      var before := Run(handler, now, p, schedule[..|schedule| - 1]);
      if w < |before.workers| {
        StepKeepsInvariant(handler, now, ds, before, w);
      }
    }
  }

  lemma {:induction false} RunTakesTime<Q, R(!new)>(handler: Dispatch<Q> -> HandlerExit<R>, now: I64, p: Pool<Q, R>,
      schedule: seq<nat>)
    ensures Remaining(Run(handler, now, p, schedule)) + |schedule| >= Remaining(p)
  {
    if schedule != [] {
      var w := schedule[|schedule| - 1];
      RunTakesTime(handler, now, p, schedule[..|schedule| - 1]);
      var before := Run(handler, now, p, schedule[..|schedule| - 1]);
      if w < |before.workers| && !before.workers[w].Stopped? {
        StepProgresses(handler, now, before, w);
      }
    }
  }

  /** However the workers are scheduled, a pool that came to rest holds exactly the
      sequential outcomes once they are sorted, and it took at least two steps a dispatch
      and one a worker to get there. */
  lemma EveryScheduleAgrees<Q, R(!new)>(handler: Dispatch<Q> -> HandlerExit<R>, now: I64, ds: seq<Dispatch<Q>>,
      workerCount: nat, schedule: seq<nat>)
    requires DistinctRuns(ds) && workerCount > 0
    requires AllStopped(Run(handler, now, Initial<Q, R>(ds, workerCount), schedule).workers)
    ensures SortBy(Run(handler, now, Initial<Q, R>(ds, workerCount), schedule).outcomes, OutcomeKey)
         == SortBy(Sequential<Q, R>(handler, now, ds), OutcomeKey)
    ensures |schedule| >= 2 * |ds| + workerCount
  {
    var start := Initial<Q, R>(ds, workerCount);
    var end := Run(handler, now, start, schedule);
    InitialInvariant<Q, R>(handler, now, ds, workerCount);
    RunKeepsInvariant(handler, now, ds, start, schedule);
    RunTakesTime(handler, now, start, schedule);
    FinishedPool(handler, now, ds, end);
    NothingRemains(end.workers);
  }

  // ---------------------------------------------------------------- the executor

  class BoundedAgentExecutor<Q(==), R(==,!new)> {
    const handler: Dispatch<Q> -> HandlerExit<R>
    const maxParallel: nat

    constructor (handler: Dispatch<Q> -> HandlerExit<R>, maxParallel: nat)
      requires maxParallel > 0
      ensures this.handler == handler && this.maxParallel == maxParallel
    {
      this.handler := handler;
      this.maxParallel := maxParallel;
    }

    /** The public constructor, which refuses a pool without workers. */
    static method New(handler: Dispatch<Q> -> HandlerExit<R>, maxParallel: nat)
      returns (r: Result<BoundedAgentExecutor<Q, R>, AgentError>)
      ensures r.Ok? <==> maxParallel > 0
      ensures r.Ok? ==> fresh(r.value) && r.value.handler == handler && r.value.maxParallel == maxParallel
      ensures r.Err? ==> r.error == ZeroParallelism
    {
      if maxParallel == 0 {
        return Err(ZeroParallelism);
      }
      var executor := new BoundedAgentExecutor(handler, maxParallel);
      return Ok(executor);
    }

    method Admit(ds: seq<Dispatch<Q>>) returns (r: Result<(), AgentError>)
      ensures r.Ok? <==> Admitted(ds)
      ensures r.Err? ==> exists k :: 0 <= k < |ds| && ErrorAt(ds, k) == Some(r.error) && Admitted(ds[..k])
    {
      var runIds: set<RunId> := {};
      for k := 0 to |ds|
        invariant runIds == RunIds(ds[..k])
        invariant Admitted(ds[..k])
      {
        var verdict := DispatchError(ds[k], runIds);
        if verdict.Some? {
          assert ErrorAt(ds, k) == verdict;
          return Err(verdict.value);
        }
        runIds := runIds + {ds[k].runId};
        AdmitsOneMore(ds, k);
      }
      assert ds[..|ds|] == ds;
      return Ok(());
    }

    /** The workers at work: the scheduler picks any that has not stopped, any time. */
    method Work(ds: seq<Dispatch<Q>>, now: I64, workerCount: nat)
      returns (outcomes: seq<Outcome<R>>, tripped: set<RunId>)
      requires workerCount > 0 && DistinctRuns(ds)
      ensures SortBy(outcomes, OutcomeKey) == SortBy(Sequential(handler, now, ds), OutcomeKey)
      ensures tripped == Tripped(Sequential(handler, now, ds))
    {
      var pool: Pool<Q, R> := Initial(ds, workerCount);
      InitialInvariant<Q, R>(handler, now, ds, workerCount);
      while exists w :: 0 <= w < |pool.workers| && !pool.workers[w].Stopped?
        invariant PoolInvariant(handler, now, ds, pool)
        decreases Remaining(pool)
      {
        var w :| 0 <= w < |pool.workers| && !pool.workers[w].Stopped?;
        StepKeepsInvariant(handler, now, ds, pool, w);
        StepProgresses(handler, now, pool, w);
        pool := Advance(handler, now, pool, w);
      }
      FinishedPool(handler, now, ds, pool);
      return pool.outcomes, pool.tripped;
    }

    /** Runs an admitted batch: every dispatch is reported on exactly once, by what its token, the
        clock and the handler say, in the order of tasks and runs. */
    method ExecuteBatch(ds: seq<Dispatch<Q>>, now: I64)
      returns (r: Result<seq<Outcome<R>>, AgentError>, tripped: set<RunId>)
      requires maxParallel > 0
      ensures r.Ok? <==> Admitted(ds)
      ensures r.Err? ==> exists k :: 0 <= k < |ds| && ErrorAt(ds, k) == Some(r.error) && Admitted(ds[..k])
      ensures r.Err? ==> tripped == {}
      ensures r.Ok? ==> r.value == SortBy(Sequential(handler, now, ds), OutcomeKey)
      ensures r.Ok? ==> ReportsAll(handler, now, ds, r.value)
      ensures r.Ok? ==> TripsOverdue(ds, now, tripped)
    {
      var admission := Admit(ds);
      if admission.Err? {
        return Err(admission.error), {};
      }
      AdmittedRunsDiffer(ds);
      SortedOutcomesReport(handler, now, ds);
      TrippedAreOverdue(handler, now, ds);
      if ds == [] {
        return Ok([]), {};
      }
      var outcomes;
      outcomes, tripped := Work(ds, now, Min(maxParallel, |ds|));
      r := Ok(SortBy(outcomes, OutcomeKey));
    }
  }
}
