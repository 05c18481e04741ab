/** The staffing router: a greedy assignment of tasks to agents that never overbooks the catalog. */
module Staffing {
  import opened Prelude
  import opened Ordering
  import opened Capacity
  import ProfileContract

  datatype StaffingTask = StaffingTask(
    taskId: nat, requiredCapabilities: set<nat>,
    preferredRoles: set<ProfileContract.AgentRole>, forbiddenAgents: set<nat>)

  datatype StaffingAssignment = StaffingAssignment(taskId: nat, agentId: nat, score: int)

  datatype StaffingError = NoCapableAgent(taskId: nat)

  /** How many of these assignments went to an agent. */
  function Load(out: seq<StaffingAssignment>, id: nat): nat {
    if out == [] then 0 else Load(out[..|out| - 1], id) + if out[|out| - 1].agentId == id then 1 else 0
  }

  predicate Eligible(c: Catalog, task: StaffingTask, id: nat, taken: nat) {
    && id in c.definitions
    && id !in task.forbiddenAgents
    && task.requiredCapabilities <= c.definitions[id].capabilities
    && c.Available(id)
    && c.Active(id) + taken < c.definitions[id].maxConcurrency
  }

  function Score(c: Catalog, task: StaffingTask, id: nat, taken: nat): int
    requires id in c.definitions
  {
    |task.preferredRoles * c.definitions[id].roles| * 100 - c.definitions[id].costWeight - taken * 25
  }

  /** `a` is the choice for a task after the assignments made so far: it may take the task, no
      agent that may take it scores higher, and among equal scores it has the smallest id. */
  ghost predicate Best(c: Catalog, task: StaffingTask, out: seq<StaffingAssignment>, a: StaffingAssignment) {
    && a.taskId == task.taskId
    && Eligible(c, task, a.agentId, Load(out, a.agentId))
    && a.score == Score(c, task, a.agentId, Load(out, a.agentId))
    && forall b :: Eligible(c, task, b, Load(out, b)) ==>
         Score(c, task, b, Load(out, b)) < a.score || (Score(c, task, b, Load(out, b)) == a.score && a.agentId <= b)
  }

  /** Each task, in order, got the best agent left. */
  ghost predicate Chosen(c: Catalog, tasks: seq<StaffingTask>, out: seq<StaffingAssignment>) {
    && |out| <= |tasks|
    && forall i {:trigger Best(c, tasks[i], out[..i], out[i])} ::
         0 <= i < |out| ==> Best(c, tasks[i], out[..i], out[i])
  }

  /** The best choices so far leave the next task without an eligible agent. */
  ghost predicate Stuck(c: Catalog, tasks: seq<StaffingTask>, out: seq<StaffingAssignment>) {
    Chosen(c, tasks, out) && |out| < |tasks| && forall b :: !Eligible(c, tasks[|out|], b, Load(out, b))
  }

  /** What a score is made of: it starts at zero, each preferred role the agent has is worth a hundred,
      each unit of cost weight takes one off, and each assignment it already got twenty-five. */
  lemma ScoreIsMadeOf(c: Catalog, task: StaffingTask, id: nat, taken: nat, role: ProfileContract.AgentRole, more: U32)
    requires id in c.definitions && c.definitions[id].costWeight + more <= U32_MAX
    ensures
      var d := c.definitions[id];
      var plain := c.(definitions := c.definitions[id := d.(roles := {}, costWeight := 0)]);
      var versed := c.(definitions := c.definitions[id := d.(roles := d.roles + {role})]);
      var dearer := c.(definitions := c.definitions[id := d.(costWeight := d.costWeight + more)]);
      && Score(plain, task, id, 0) == 0
      && Score(versed, task, id, taken) - Score(c, task, id, taken)
         == (if role in task.preferredRoles && role !in d.roles then 100 else 0)
      && Score(c, task, id, taken) - Score(dearer, task, id, taken) == more
      && Score(c, task, id, taken) - Score(c, task, id, taken + 1) == 25
  {
    var d := c.definitions[id];
    assert task.preferredRoles * {} == {};
    if role in task.preferredRoles && role !in d.roles {
      assert task.preferredRoles * (d.roles + {role}) == task.preferredRoles * d.roles + {role};
    } else {
      assert task.preferredRoles * (d.roles + {role}) == task.preferredRoles * d.roles;
    }
  }

  /** Nobody is assigned what it may not do: an assigned agent is in the catalog, not forbidden, has
      every capability, and has a slot left besides its runs and the assignments before. */
  lemma AssignedMayWork(c: Catalog, tasks: seq<StaffingTask>, out: seq<StaffingAssignment>, i: nat)
    requires Chosen(c, tasks, out) && i < |out|
    ensures
      var id, task := out[i].agentId, tasks[i];
      && id in c.definitions && id !in task.forbiddenAgents
      && (forall x :: x in task.requiredCapabilities ==> x in c.definitions[id].capabilities)
      && c.Active(id) + Load(out[..i], id) < c.definitions[id].maxConcurrency
      && out[i].taskId == task.taskId
  {
    assert Best(c, tasks[i], out[..i], out[i]);
  }

  /** The assigned agent is the best that may take the task: more preferred roles, less cost and less
      load count for it, and the smaller id decides between equals. */
  lemma NobodyIsBetter(c: Catalog, tasks: seq<StaffingTask>, out: seq<StaffingAssignment>, i: nat, b: nat)
    requires Chosen(c, tasks, out) && i < |out|
    requires b in c.definitions && b !in tasks[i].forbiddenAgents
    requires tasks[i].requiredCapabilities <= c.definitions[b].capabilities
    requires c.Active(b) + Load(out[..i], b) < c.definitions[b].maxConcurrency
    ensures
      var a, wanted := out[i].agentId, tasks[i].preferredRoles;
      a in c.definitions &&
      var mine := 100 * |wanted * c.definitions[a].roles| - c.definitions[a].costWeight - 25 * Load(out[..i], a);
      var theirs := 100 * |wanted * c.definitions[b].roles| - c.definitions[b].costWeight - 25 * Load(out[..i], b);
      out[i].score == mine && (mine > theirs || (mine == theirs && a <= b))
  {
    assert Best(c, tasks[i], out[..i], out[i]);
    assert Eligible(c, tasks[i], b, Load(out[..i], b));
  }

  /** A task is refused only if every agent lacks something: each is forbidden, incapable or full. */
  lemma StuckMeansNobodyMay(c: Catalog, tasks: seq<StaffingTask>, out: seq<StaffingAssignment>, id: nat)
    requires Stuck(c, tasks, out) && id in c.definitions
    ensures
      var task := tasks[|out|];
      || id in task.forbiddenAgents
      || (exists x :: x in task.requiredCapabilities && x !in c.definitions[id].capabilities)
      || c.Active(id) + Load(out, id) >= c.definitions[id].maxConcurrency
  {
    assert !Eligible(c, tasks[|out|], id, Load(out, id));
  }

  // ---------------------------------------------------------------- the router

  function Eligibility(c: Catalog, task: StaffingTask, load: map<nat, nat>): nat -> bool {
    (id: nat) => Eligible(c, task, id, if id in load then load[id] else 0)
  }

  /** Highest score first, then smallest id. */
  function Ranking(c: Catalog, task: StaffingTask, load: map<nat, nat>): nat -> Key {
    (id: nat) => (if id in c.definitions then -Score(c, task, id, if id in load then load[id] else 0) else 0, id as int)
  }

  ghost predicate Counts(load: map<nat, nat>, out: seq<StaffingAssignment>) {
    forall id: nat :: Load(out, id) == if id in load then load[id] else 0
  }

  lemma HeadRanksFirst(ids: seq<nat>, key: nat -> Key, id: nat)
    requires id in ids
    ensures SortBy(ids, key) != [] && SortBy(ids, key)[0] in ids
    ensures !Less(key(id), key(SortBy(ids, key)[0]))
  {
    var sorted := SortBy(ids, key);
    RearrangementMembers(sorted, ids);
    var k :| 0 <= k < |sorted| && sorted[k] == id;
    assert k > 0 ==> !Less(key(sorted[k]), key(sorted[0]));
    assert !Less(key(id), key(id));
  }

  lemma HeadIsBest(c: Catalog, task: StaffingTask, load: map<nat, nat>, out: seq<StaffingAssignment>, ids: seq<nat>)
    requires Counts(load, out)
    requires forall id :: id in ids <==> id in c.definitions && Eligibility(c, task, load)(id)
    requires ids != []
    ensures
      var ranked := SortBy(ids, Ranking(c, task, load));
      && ranked != []
      && ranked[0] in c.definitions
      && Best(c, task, out, StaffingAssignment(task.taskId, ranked[0], Score(c, task, ranked[0], Load(out, ranked[0]))))
  {
    var key := Ranking(c, task, load);
    HeadRanksFirst(ids, key, ids[0]);
    var head := SortBy(ids, key)[0];
    forall b | Eligible(c, task, b, Load(out, b))
      ensures
        var mine, theirs := Score(c, task, head, Load(out, head)), Score(c, task, b, Load(out, b));
        theirs < mine || (theirs == mine && head <= b)
    {
      assert b in ids;
      HeadRanksFirst(ids, key, b);
    }
  }

  class StaffingRouter {
    /** The candidates for one task, ranked, and the first of them taken. */
    static method Choose(c: Catalog, task: StaffingTask, load: map<nat, nat>, ghost out: seq<StaffingAssignment>)
      returns (r: Option<StaffingAssignment>)
      requires Counts(load, out)
      ensures r.Some? ==> Best(c, task, out, r.value)
      ensures r.None? ==> forall b :: !Eligible(c, task, b, Load(out, b))
    {
      AscendingIsExact(c.definitions.Keys);
      var candidates := Filter(Ascending(c.definitions.Keys), Eligibility(c, task, load));
      if candidates == [] {
        forall b ensures !Eligible(c, task, b, Load(out, b)) {
          assert b !in candidates;
          assert b in c.definitions ==> b in Ascending(c.definitions.Keys);
        }
        return None;
      }
      HeadIsBest(c, task, load, out, candidates);
      var agent := SortBy(candidates, Ranking(c, task, load))[0];
      r := Some(StaffingAssignment(task.taskId, agent,
          Score(c, task, agent, if agent in load then load[agent] else 0)));
    }

    static method Assign(tasks: seq<StaffingTask>, catalog: AgentCatalog)
      returns (r: Result<seq<StaffingAssignment>, StaffingError>)
      ensures r.Ok? ==> |r.value| == |tasks| && Chosen(catalog.State(), tasks, r.value)
      ensures r.Err? ==> exists out :: Stuck(catalog.State(), tasks, out) && r.error.taskId == tasks[|out|].taskId
    {
      var c := catalog.State();
      var load: map<nat, nat> := map[];
      var output := [];
      for i := 0 to |tasks|
        invariant |output| == i && Chosen(c, tasks, output)
        invariant Counts(load, output)
      {
        var choice := Choose(c, tasks[i], load, output);
        if choice.None? {
          assert Stuck(c, tasks, output);
          return Err(NoCapableAgent(tasks[i].taskId));
        }
        ExtendChosen(c, tasks, output, choice.value);
        ExtendCounts(load, output, choice.value);
        var agent := choice.value.agentId;
        load := load[agent := (if agent in load then load[agent] else 0) + 1];
        output := output + [choice.value];
      }
      r := Ok(output);
    }
  }

  lemma ExtendCounts(load: map<nat, nat>, out: seq<StaffingAssignment>, a: StaffingAssignment)
    requires Counts(load, out)
    ensures Counts(load[a.agentId := (if a.agentId in load then load[a.agentId] else 0) + 1], out + [a])
  {
  }

  lemma ExtendChosen(c: Catalog, tasks: seq<StaffingTask>, out: seq<StaffingAssignment>, a: StaffingAssignment)
    requires Chosen(c, tasks, out) && |out| < |tasks| && Best(c, tasks[|out|], out, a)
    ensures Chosen(c, tasks, out + [a])
    ensures (out + [a])[..|out|] == out
  {
    var more := out + [a];
    forall i | 0 <= i < |more| ensures Best(c, tasks[i], more[..i], more[i]) {
      assert more[..i] == out[..i];
      assert out[..|out|] == out;
    }
  }

  // ---------------------------------------------------------------- the assignment is determined

  lemma BestIsUnique(c: Catalog, task: StaffingTask, out: seq<StaffingAssignment>, a: StaffingAssignment,
      b: StaffingAssignment)
    requires Best(c, task, out, a) && Best(c, task, out, b)
    ensures a == b
  {
  }

  lemma {:induction false} ChosenIsUnique(c: Catalog, tasks: seq<StaffingTask>, a: seq<StaffingAssignment>,
      b: seq<StaffingAssignment>, n: nat)
    requires Chosen(c, tasks, a) && Chosen(c, tasks, b) && n <= |a| && n <= |b|
    ensures a[..n] == b[..n]
  {
    if n > 0 {
      ChosenIsUnique(c, tasks, a, b, n - 1);
      assert Best(c, tasks[n - 1], a[..n - 1], a[n - 1]) && Best(c, tasks[n - 1], b[..n - 1], b[n - 1]);
      BestIsUnique(c, tasks[n - 1], a[..n - 1], a[n - 1], b[n - 1]);
      assert a[..n] == a[..n - 1] + [a[n - 1]] && b[..n] == b[..n - 1] + [b[n - 1]];
    }
  }

  /** A request the router can answer never gets stuck on the way: success and failure exclude
      each other, so the answer depends on the tasks and the catalog alone. */
  lemma SuccessExcludesFailure(c: Catalog, tasks: seq<StaffingTask>, all: seq<StaffingAssignment>,
      some: seq<StaffingAssignment>)
    requires Chosen(c, tasks, all) && |all| == |tasks|
    ensures !Stuck(c, tasks, some)
  {
    if Chosen(c, tasks, some) && |some| < |tasks| {
      ChosenIsUnique(c, tasks, all, some, |some|);
      assert some[..|some|] == some;
      assert Best(c, tasks[|some|], all[..|some|], all[|some|]);
    }
  }

  // ---------------------------------------------------------------- the assignment can be reserved

  /** The catalog after reserving the first `n` assignments in order, and whether all went well. */
  function ReserveEach(c: Catalog, out: seq<StaffingAssignment>, n: nat): (Catalog, bool)
    requires n <= |out|
  {
    if n == 0 then (c, true)
    else
      var before := ReserveEach(c, out, n - 1);
      var step := ReserveOutcome(before.0, out[n - 1].agentId);
      (step.0, before.1 && step.1.Ok?)
  }

  ghost predicate Booked(c: Catalog, booked: Catalog, out: seq<StaffingAssignment>) {
    booked.definitions == c.definitions && forall id :: booked.Active(id) == c.Active(id) + Load(out, id)
  }

  lemma ReserveBooks(c: Catalog, before: Catalog, out: seq<StaffingAssignment>, a: StaffingAssignment)
    requires Booked(c, before, out)
    requires
      a.agentId in c.definitions && c.Active(a.agentId) + Load(out, a.agentId) < c.definitions[a.agentId].maxConcurrency
    ensures ReserveOutcome(before, a.agentId).1.Ok?
    ensures Booked(c, ReserveOutcome(before, a.agentId).0, out + [a])
  {
  }

  /** Reserving the assignments in order succeeds for every one of them. */
  lemma {:induction false} AssignmentsCanBeReserved(c: Catalog, tasks: seq<StaffingTask>, out: seq<StaffingAssignment>,
      n: nat)
    requires Chosen(c, tasks, out) && n <= |out|
    ensures ReserveEach(c, out, n).1
    ensures Booked(c, ReserveEach(c, out, n).0, out[..n])
  {
    if n > 0 {
      AssignmentsCanBeReserved(c, tasks, out, n - 1);
      assert Best(c, tasks[n - 1], out[..n - 1], out[n - 1]);
      ReserveBooks(c, ReserveEach(c, out, n - 1).0, out[..n - 1], out[n - 1]);
      assert out[..n] == out[..n - 1] + [out[n - 1]];
    }
  }
}
