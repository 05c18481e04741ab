/** Structured concurrency: the registry of running agents, in which a parent may not
    finish before its children and cancelling a run cancels everything below it. */
module CancellationTree {
  import opened Prelude
  import opened Ordering

  type RunId = nat

  datatype AgentError =
    | RunControlExists
    | ParentRunControlMissing
    | ParentRunCancelling
    | RunControlMissing
    | RunHasActiveChildren

  /** Shared, one-way cancellation flag; every holder sees the same object. */
  class CancellationToken {
    var cancelled: bool

    constructor ()
      ensures !cancelled
    {
      cancelled := false;
    }

    method Cancel()
      modifies this
      ensures cancelled
    {
      cancelled := true;
    }
  }

  datatype Activity = Running | CancelRequested

  datatype RunControl = RunControl(
    parent: Option<RunId>,
    children: set<RunId>,
    token: CancellationToken,
    activity: Activity)

  type Runs = map<RunId, RunControl>

  // ---------------------------------------------------------------- the forest

  /** `c` is registered with `p` as its parent. */
  predicate IsChild(runs: Runs, c: RunId, p: RunId) {
    c in runs && runs[c].parent == Some(p)
  }

  /** Parent links and child links name each other, and name registered runs only. */
  ghost predicate Mirrored(runs: Runs) {
    && (forall c, p :: IsChild(runs, c, p) ==> p in runs && c in runs[p].children)
    && (forall c, p :: p in runs && c in runs[p].children ==> IsChild(runs, c, p))
  }

  /** Some numbering grows from every parent to its child. */
  ghost predicate RankedBy(runs: Runs, rank: map<RunId, nat>) {
    && runs.Keys <= rank.Keys
    && (forall c, p :: IsChild(runs, c, p) && p in runs ==> rank[p] < rank[c])
  }

  /** A cancelled parent has only cancelled children. */
  ghost predicate CancelledDownward(runs: Runs) {
    forall c, p :: IsChild(runs, c, p) && p in runs ==>
      runs[p].activity == CancelRequested ==> runs[c].activity == CancelRequested
  }

  ghost predicate Forest(runs: Runs) {
    && Mirrored(runs)
    && CancelledDownward(runs)
    && exists rank :: RankedBy(runs, rank)
  }

  /** A line of descent: each run is the registered parent of the next. */
  ghost predicate Line(runs: Runs, line: seq<RunId>) {
    && line != []
    && (forall i :: 0 <= i < |line| ==> line[i] in runs)
    && (forall i :: 0 < i < |line| ==> IsChild(runs, line[i], line[i - 1]))
  }

  ghost predicate LineBetween(runs: Runs, line: seq<RunId>, top: RunId, bottom: RunId) {
    Line(runs, line) && line[0] == top && line[|line| - 1] == bottom
  }

  /** `x` is `root` or one of its transitive descendants, following parent links only. */
  ghost predicate Descends(runs: Runs, x: RunId, root: RunId) {
    exists line :: LineBetween(runs, line, root, x)
  }

  lemma DescendsFromParent(runs: Runs, x: RunId, p: RunId, root: RunId)
    requires IsChild(runs, x, p) && Descends(runs, p, root)
    ensures Descends(runs, x, root)
  {
    var line :| LineBetween(runs, line, root, p);
    assert LineBetween(runs, line + [x], root, x);
  }

  ghost function Subtree(runs: Runs, root: RunId): set<RunId> {
    set x | x in runs && Descends(runs, x, root)
  }

  lemma {:induction false} RankGrowsAlong(runs: Runs, rank: map<RunId, nat>, line: seq<RunId>)
    requires RankedBy(runs, rank) && Line(runs, line)
    ensures rank[line[0]] + |line| - 1 <= rank[line[|line| - 1]]
  {
    if |line| > 1 {
      RankGrowsAlong(runs, rank, line[..|line| - 1]);
      assert IsChild(runs, line[|line| - 1], line[|line| - 2]);
    }
  }

  /** No run is its own ancestor. */
  lemma ForestHasNoCycles(runs: Runs, line: seq<RunId>)
    requires Forest(runs) && Line(runs, line) && |line| > 1
    ensures line[0] != line[|line| - 1]
  {
    var rank :| RankedBy(runs, rank);
    RankGrowsAlong(runs, rank, line);
  }

  /** Cancellation reaches every descendant of a cancelled run. */
  lemma {:induction false} CancelledBelow(runs: Runs, line: seq<RunId>)
    requires Forest(runs) && Line(runs, line) && runs[line[0]].activity == CancelRequested
    ensures runs[line[|line| - 1]].activity == CancelRequested
  {
    if |line| > 1 {
      CancelledBelow(runs, line[..|line| - 1]);
      assert IsChild(runs, line[|line| - 1], line[|line| - 2]);
    }
  }

  // ---------------------------------------------------------------- the operations on values

  function RegisterError(runs: Runs, run: RunId, parent: Option<RunId>): Option<AgentError> {
    if run in runs then Some(RunControlExists)
    else if parent.None? then None
    else if parent.value !in runs then Some(ParentRunControlMissing)
    else if runs[parent.value].activity == CancelRequested then Some(ParentRunCancelling)
    else None
  }

  function Registered(runs: Runs, run: RunId, parent: Option<RunId>, token: CancellationToken): Runs
    requires RegisterError(runs, run, parent).None?
  {
    var linked :=
      if parent.None? then runs
      else runs[parent.value := runs[parent.value].(children := runs[parent.value].children + {run})];
    linked[run := RunControl(parent, {}, token, Running)]
  }

  function FinishError(runs: Runs, run: RunId): Option<AgentError> {
    if run !in runs then Some(RunControlMissing)
    else if runs[run].children != {} then Some(RunHasActiveChildren)
    else None
  }

  function Finished(runs: Runs, run: RunId): Runs
    requires FinishError(runs, run).None?
  {
    var parent := runs[run].parent;
    var rest := runs - {run};
    if parent.Some? && parent.value in rest
    then rest[parent.value := rest[parent.value].(children := rest[parent.value].children - {run})]
    else rest
  }

  /** Exactly the runs in `chosen` have cancellation requested on top of what was requested. */
  function Marked(runs: Runs, chosen: set<RunId>): Runs {
    map r | r in runs :: if r in chosen then runs[r].(activity := CancelRequested) else runs[r]
  }

  /** Why a registration is refused, and in which order of precedence. */
  lemma RegistrationRefusedIff(runs: Runs, run: RunId, parent: Option<RunId>)
    ensures
      var e := RegisterError(runs, run, parent);
      && (e == Some(RunControlExists) <==> run in runs)
      && (e == Some(ParentRunControlMissing) <==> run !in runs && parent.Some? && parent.value !in runs)
      && (e == Some(ParentRunCancelling) <==>
            run !in runs && parent.Some? && parent.value in runs && runs[parent.value].activity.CancelRequested?)
      && (e.None? <==>
            run !in runs && (parent.Some? ==> parent.value in runs && runs[parent.value].activity.Running?))
  {
  }

  /** A registration adds one running leaf and touches nothing but its parent's children. */
  lemma RegisterAddsOne(runs: Runs, run: RunId, parent: Option<RunId>, token: CancellationToken)
    requires RegisterError(runs, run, parent).None?
    ensures
      var after := Registered(runs, run, parent, token);
      && after.Keys == runs.Keys + {run}
      && after[run].parent == parent && after[run].children == {} && after[run].token == token
      && after[run].activity.Running?
      && forall x :: x in runs ==>
           && after[x].parent == runs[x].parent && after[x].token == runs[x].token
           && after[x].activity == runs[x].activity
           && (forall c :: c in after[x].children <==> c in runs[x].children || (c == run && parent == Some(x)))
  {
  }

  /** Finishing is refused for an unknown run and for one with registered children, and only then. */
  lemma FinishRefusedIff(runs: Runs, run: RunId)
    requires Forest(runs)
    ensures
      var e := FinishError(runs, run);
      && (e == Some(RunControlMissing) <==> run !in runs)
      && (e == Some(RunHasActiveChildren) <==> run in runs && exists c :: IsChild(runs, c, run))
      && (e.None? <==> run in runs && !exists c :: IsChild(runs, c, run))
  {
    if run in runs && runs[run].children != {} {
      var c :| c in runs[run].children;
      assert IsChild(runs, c, run);
    }
  }

  /** Finishing removes the run and its parent's link to it, and nothing else. */
  lemma FinishRemovesOne(runs: Runs, run: RunId)
    requires Forest(runs) && FinishError(runs, run).None?
    ensures
      var after := Finished(runs, run);
      && after.Keys == runs.Keys - {run}
      && forall x :: x in after ==>
           && after[x].parent == runs[x].parent && after[x].token == runs[x].token
           && after[x].activity == runs[x].activity
           && (forall c :: c in after[x].children <==> c in runs[x].children && c != run)
  {
    forall x | x in runs && run in runs[x].children ensures runs[run].parent == Some(x) {
      assert IsChild(runs, run, x);
    }
  }

  /** A parent whose last child has finished can be finished itself. */
  lemma LastChildFreesParent(runs: Runs, run: RunId, parent: RunId)
    requires Forest(runs) && FinishError(runs, run).None? && IsChild(runs, run, parent)
    ensures FinishError(Finished(runs, run), parent).None? <==> runs[parent].children == {run}
  {
    var after := Finished(runs, run);
    FinishRemovesOne(runs, run);
    assert parent in runs && run in runs[parent].children;
    if after[parent].children == {} {
      assert forall c :: c in runs[parent].children ==> c == run;
    }
  }

  /** Cancelling requests it of the run and everything below it, and touches nothing else. */
  lemma CancelMarksTheSubtree(runs: Runs, root: RunId)
    ensures
      var after := Marked(runs, Subtree(runs, root));
      && after.Keys == runs.Keys
      && forall x :: x in runs ==>
           && after[x].parent == runs[x].parent && after[x].token == runs[x].token
           && after[x].children == runs[x].children
           && (after[x].activity.CancelRequested? <==> runs[x].activity.CancelRequested? || Descends(runs, x, root))
  {
  }

  lemma RegisterKeepsForest(runs: Runs, run: RunId, parent: Option<RunId>, token: CancellationToken)
    requires Forest(runs) && RegisterError(runs, run, parent).None?
    ensures Forest(Registered(runs, run, parent, token))
  {
    var after := Registered(runs, run, parent, token);
    var rank :| RankedBy(runs, rank);
    var rank' := rank[run := if parent.Some? then rank[parent.value] + 1 else 0];
    forall c, p | IsChild(after, c, p)
      ensures p in after && c in after[p].children && rank'[p] < rank'[c]
      ensures after[p].activity == CancelRequested ==> after[c].activity == CancelRequested
    {
      assert c != run ==> IsChild(runs, c, p);
    }
    forall c, p | p in after && c in after[p].children
      ensures IsChild(after, c, p)
    {
      assert p in runs && (c == run || c in runs[p].children);
    }
    assert RankedBy(after, rank');
  }

  lemma FinishKeepsForest(runs: Runs, run: RunId)
    requires Forest(runs) && FinishError(runs, run).None?
    ensures Forest(Finished(runs, run))
  {
    var after := Finished(runs, run);
    var rank :| RankedBy(runs, rank);
    forall c, p | IsChild(after, c, p)
      ensures p in after && c in after[p].children && rank[p] < rank[c]
      ensures after[p].activity == CancelRequested ==> after[c].activity == CancelRequested
    {
      assert IsChild(runs, c, p) && c in runs[p].children;
    }
    forall c, p | p in after && c in after[p].children
      ensures IsChild(after, c, p)
    {
      assert c in runs[p].children;
      assert IsChild(runs, c, p);
    }
    assert RankedBy(after, rank);
  }

  lemma MarkKeepsForest(runs: Runs, root: RunId)
    requires Forest(runs)
    ensures Forest(Marked(runs, Subtree(runs, root)))
  {
    var after := Marked(runs, Subtree(runs, root));
    var rank :| RankedBy(runs, rank);
    forall c, p | IsChild(after, c, p)
      ensures p in after && c in after[p].children && rank[p] < rank[c]
      ensures after[p].activity == CancelRequested ==> after[c].activity == CancelRequested
    {
      assert IsChild(runs, c, p);
      if p in Subtree(runs, root) {
        DescendsFromParent(runs, c, p, root);
      }
    }
    forall c, p | p in after && c in after[p].children
      ensures IsChild(after, c, p)
    {
      assert c in runs[p].children && IsChild(runs, c, p);
    }
    assert RankedBy(after, rank);
  }

  // ---------------------------------------------------------------- the traversal

  ghost predicate NoRepeats(s: seq<RunId>) {
    forall i, j :: 0 <= i < j < |s| ==> s[i] != s[j]
  }

  ghost function Members(s: seq<RunId>): set<RunId> {
    set x | x in s
  }

  /** What the traversal knows while `done` is visited and `stack` waits: nothing was met
      twice, everything met but the root was met through its visited parent and ranks no
      lower than the root, and every child of a visited run was met. */
  ghost predicate Frontier(runs: Runs, rank: map<RunId, nat>, root: RunId, done: seq<RunId>, stack: seq<RunId>) {
    && RankedBy(runs, rank)
    && NoRepeats(done) && NoRepeats(stack)
    && (forall x :: x in stack ==> x !in done)
    && root in runs && (root in done || root in stack)
    && (forall x :: x in done || x in stack ==> x in runs && rank[root] <= rank[x])
    && (forall x :: x in done || x in stack ==>
          x == root || (runs[x].parent.Some? && IsChild(runs, x, runs[x].parent.value) && runs[x].parent.value in done))
    && (forall x, c :: x in done && c in runs[x].children ==> c in done || c in stack)
  }

  /** Without a visited set, a popped run's children are still all new. */
  lemma ChildrenAreNew(runs: Runs, rank: map<RunId, nat>, root: RunId, done: seq<RunId>, stack: seq<RunId>, c: RunId)
    requires Mirrored(runs) && Frontier(runs, rank, root, done, stack) && stack != []
    requires c in runs[stack[|stack| - 1]].children
    ensures c !in done && c !in stack
    ensures IsChild(runs, c, stack[|stack| - 1]) && rank[root] <= rank[c]
  {
  }

  lemma FrontierStep(runs: Runs, rank: map<RunId, nat>, root: RunId, done: seq<RunId>, stack: seq<RunId>,
      pushed: seq<RunId>)
    requires Mirrored(runs) && Frontier(runs, rank, root, done, stack) && stack != []
    requires NoRepeats(pushed)
    requires stack[|stack| - 1] in runs
    requires forall c :: c in pushed <==> c in runs[stack[|stack| - 1]].children
    ensures Frontier(runs, rank, root, done + [stack[|stack| - 1]], stack[..|stack| - 1] + pushed)
  {
    var current, below := stack[|stack| - 1], stack[..|stack| - 1];
    assert stack == below + [current] && current in stack;
    NoRepeatsConcat(below, [current]);
    assert current !in below && forall x :: x in stack <==> x in below || x == current;
    forall c | c in pushed
      ensures c !in done && c !in stack
      ensures IsChild(runs, c, current) && rank[root] <= rank[c]
    {
      ChildrenAreNew(runs, rank, root, done, stack, c);
    }
    NoRepeatsConcat(done, [current]);
    NoRepeatsConcat(below, pushed);
    assert forall x :: x in done + [current] <==> x in done || x == current;
    assert forall x :: x in below + pushed <==> x in below || x in pushed;
  }

  lemma NoRepeatsConcat(a: seq<RunId>, b: seq<RunId>)
    ensures NoRepeats(a + b) <==> NoRepeats(a) && NoRepeats(b) && forall x :: x in a ==> x !in b
  {
    var s := a + b;
    if NoRepeats(s) {
      assert forall i :: 0 <= i < |a| ==> a[i] == s[i];
      assert forall i :: 0 <= i < |b| ==> b[i] == s[|a| + i];
    } else {
      var i, j :| 0 <= i < j < |s| && s[i] == s[j];
      assert i < |a| ==> s[i] in a;
      assert j >= |a| ==> s[j] in b && s[j] == b[j - |a|];
      assert i >= |a| ==> s[i] == b[i - |a|];
    }
  }

  lemma FrontierEnd(runs: Runs, rank: map<RunId, nat>, root: RunId, done: seq<RunId>)
    requires Mirrored(runs) && Frontier(runs, rank, root, done, [])
    ensures NoRepeats(done)
    ensures Members(done) == Subtree(runs, root)
  {
    forall x | x in Subtree(runs, root) ensures x in done {
      var line :| LineBetween(runs, line, root, x);
      LineVisited(runs, rank, root, done, line);
    }
    forall x | x in done ensures Descends(runs, x, root) {
      VisitedDescends(runs, rank, root, done, x);
    }
  }

  lemma {:induction false} LineVisited(runs: Runs, rank: map<RunId, nat>, root: RunId, done: seq<RunId>,
      line: seq<RunId>)
    requires Mirrored(runs) && Frontier(runs, rank, root, done, [])
    requires Line(runs, line) && line[0] == root
    ensures line[|line| - 1] in done
  {
    if |line| > 1 {
      LineVisited(runs, rank, root, done, line[..|line| - 1]);
      assert IsChild(runs, line[|line| - 1], line[|line| - 2]);
    }
  }

  lemma {:induction false} VisitedDescends(runs: Runs, rank: map<RunId, nat>, root: RunId, done: seq<RunId>, x: RunId)
    requires Frontier(runs, rank, root, done, []) && x in done
    ensures Descends(runs, x, root)
    decreases rank[x]
  {
    if x == root {
      assert LineBetween(runs, [root], root, root);
    } else {
      var p := runs[x].parent.value;
      assert IsChild(runs, x, p);
      VisitedDescends(runs, rank, root, done, p);
      DescendsFromParent(runs, x, p, root);
    }
  }

  lemma PoppedIsFresh(runs: Runs, rank: map<RunId, nat>, root: RunId, done: seq<RunId>, stack: seq<RunId>)
    requires Frontier(runs, rank, root, done, stack) && stack != []
    ensures
      var current := stack[|stack| - 1];
      && current in runs && current !in Members(done)
      && |done + [current]| <= |runs|
      && Members(done + [current]) == Members(done) + {current}
  {
    var current := stack[|stack| - 1];
    assert current in stack;
    NoRepeatsConcat(done, stack);
    NoRepeatsBound(done + stack, runs.Keys);
  }

  lemma MarkOneMore(runs: Runs, chosen: set<RunId>, run: RunId)
    requires run in runs
    ensures Marked(runs, chosen + {run}) == Marked(runs, chosen)[run := runs[run].(activity := CancelRequested)]
  {
  }

  /** One turn of the loop, on values. */
  lemma PopStep(runs: Runs, rank: map<RunId, nat>, root: RunId, done: seq<RunId>, stack: seq<RunId>)
    requires Mirrored(runs) && Frontier(runs, rank, root, done, stack) && stack != []
    ensures
      var current := stack[|stack| - 1];
      var done' := done + [current];
      && current in runs && current !in Members(done)
      && |done'| <= |runs|
      && Members(done') == Members(done) + {current}
      && Frontier(runs, rank, root, done', stack[..|stack| - 1] + Ascending(runs[current].children))
      && Marked(runs, Members(done'))
         == Marked(runs, Members(done))[current := runs[current].(activity := CancelRequested)]
  {
    var current := stack[|stack| - 1];
    PoppedIsFresh(runs, rank, root, done, stack);
    MarkOneMore(runs, Members(done), current);
    AscendingIsExact(runs[current].children);
    FrontierStep(runs, rank, root, done, stack, Ascending(runs[current].children));
  }

  lemma {:induction false} NoRepeatsBound(s: seq<RunId>, members: set<RunId>)
    requires NoRepeats(s) && forall x :: x in s ==> x in members
    ensures |s| <= |members|
  {
    if s != [] {
      var last := s[|s| - 1];
      NoRepeatsBound(s[..|s| - 1], members - {last});
    }
  }

  // ---------------------------------------------------------------- the registry

  /** No two runs share a token. */
  ghost predicate OwnTokens(runs: Runs) {
    forall a, b :: a in runs && b in runs && a != b ==> runs[a].token != runs[b].token
  }

  class RunCancellationTree {
    var runs: Runs

    ghost predicate Valid()
      reads this, set r | r in runs :: runs[r].token
    {
      && Forest(runs)
      && OwnTokens(runs)
      && (forall r :: r in runs && runs[r].activity == CancelRequested ==> runs[r].token.cancelled)
    }

    constructor ()
      ensures Valid() && runs == map[]
    {
      runs := map[];
      new;
      assert RankedBy(runs, map[]);
    }

    method Register(run: RunId, parent: Option<RunId>) returns (r: Result<CancellationToken, AgentError>)
      requires Valid()
      modifies this
      ensures Valid()
      ensures match RegisterError(old(runs), run, parent)
              case Some(e) => r == Err(e) && runs == old(runs)
              case None => r.Ok? && fresh(r.value) && !r.value.cancelled
                           && runs == Registered(old(runs), run, parent, r.value)
    {
      if run in runs {
        return Err(RunControlExists);
      }
      if parent.Some? {
        if parent.value !in runs {
          return Err(ParentRunControlMissing);
        }
        if runs[parent.value].activity == CancelRequested {
          return Err(ParentRunCancelling);
        }
      }
      var token := new CancellationToken();
      RegisterKeepsForest(runs, run, parent, token);
      if parent.Some? {
        var control := runs[parent.value];
        runs := runs[parent.value := control.(children := control.children + {run})];
      }
      runs := runs[run := RunControl(parent, {}, token, Running)];
      return Ok(token);
    }

    function Token(run: RunId): (r: Option<CancellationToken>)
      reads this
      ensures r.Some? <==> run in runs
      ensures r.Some? ==> r.value == runs[run].token
    {
      if run in runs then Some(runs[run].token) else None
    }

    /** Depth-first from `run`, with no record of what was visited. */
    method CancelSubtree(run: RunId) returns (r: Result<seq<RunId>, AgentError>)
      requires Valid()
      modifies this, set x | x in runs :: runs[x].token
      ensures Valid()
      ensures run !in old(runs) ==> r == Err(RunControlMissing) && runs == old(runs)
      ensures run in old(runs) ==>
                && r == Ok(Ascending(Subtree(old(runs), run)))
                && runs == Marked(old(runs), Subtree(old(runs), run))
      ensures forall x :: x in old(runs) ==>
                runs[x].token.cancelled == (old(runs[x].token.cancelled)
                                            || (run in old(runs) && x in Subtree(old(runs), run)))
    {
      if run !in runs {
        return Err(RunControlMissing);
      }
      var cancelled := Sweep(run);
      MarkKeepsForest(old(runs), run);
      SortIsAscending(cancelled, Subtree(old(runs), run));
      return Ok(SortBy(cancelled, (x: nat) => (x as int, 0)));
    }

    /** The traversal itself; `cancelled` lists the visited runs in the order of visiting. */
    method Sweep(run: RunId) returns (cancelled: seq<RunId>)
      requires Forest(runs) && run in runs
      requires OwnTokens(runs)
      modifies this, set x | x in runs :: runs[x].token
      ensures NoRepeats(cancelled) && Members(cancelled) == Subtree(old(runs), run)
      ensures runs == Marked(old(runs), Members(cancelled))
      ensures forall x :: x in old(runs) ==>
                old(runs)[x].token.cancelled == (old(runs[x].token.cancelled) || x in Members(cancelled))
    {
      var stack := [run];
      cancelled := [];
      ghost var rank :| RankedBy(runs, rank);
      while stack != []
        invariant Frontier(old(runs), rank, run, cancelled, stack)
        invariant runs == Marked(old(runs), Members(cancelled))
        invariant forall x :: x in old(runs) ==>
                    old(runs)[x].token.cancelled == (old(runs[x].token.cancelled) || x in Members(cancelled))
        decreases |old(runs)| - |cancelled|
      {
        cancelled, stack := Visit(old(runs), rank, run, cancelled, stack);
      }
      FrontierEnd(old(runs), rank, run, cancelled);
    }

    /** Pops one run, pushes its children and requests its cancellation. */
    method Visit(ghost before: Runs, ghost rank: map<RunId, nat>, ghost root: RunId, done: seq<RunId>,
        stack: seq<RunId>)
      returns (done': seq<RunId>, stack': seq<RunId>)
      requires Mirrored(before) && Frontier(before, rank, root, done, stack) && stack != []
      requires runs == Marked(before, Members(done)) && OwnTokens(before)
      modifies this, set x | x in before :: before[x].token
      ensures |done'| == |done| + 1 <= |before|
      ensures Frontier(before, rank, root, done', stack')
      ensures runs == Marked(before, Members(done'))
      ensures Members(done) <= Members(done')
      ensures forall x :: x in before ==>
                before[x].token.cancelled == (old(before[x].token.cancelled) || x in Members(done') - Members(done))
    {
      PopStep(before, rank, root, done, stack);
      var current := stack[|stack| - 1];
      var control := runs[current];
      stack' := stack[..|stack| - 1] + Ascending(control.children);
      runs := runs[current := control.(activity := CancelRequested)];
      control.token.Cancel();
      done' := done + [current];
    }

    method Finish(run: RunId) returns (r: Result<(), AgentError>)
      requires Valid()
      modifies this
      ensures Valid()
      ensures match FinishError(old(runs), run)
              case Some(e) => r == Err(e) && runs == old(runs)
              case None => r == Ok(()) && runs == Finished(old(runs), run)
    {
      if run !in runs {
        return Err(RunControlMissing);
      }
      if runs[run].children != {} {
        return Err(RunHasActiveChildren);
      }
      FinishKeepsForest(runs, run);
      var parent := runs[run].parent;
      runs := runs - {run};
      if parent.Some? && parent.value in runs {
        var control := runs[parent.value];
        runs := runs[parent.value := control.(children := control.children - {run})];
      }
      return Ok(());
    }

    method ActiveRunIds() returns (ids: seq<RunId>)
      ensures StrictlyAscending(ids) && forall r :: r in ids <==> r in runs
    {
      AscendingIsExact(runs.Keys);
      ids := Ascending(runs.Keys);
    }
  }

  // ---------------------------------------------------------------- whole histories

  datatype Op =
    | Register(run: RunId, parent: Option<RunId>, token: CancellationToken)
    | Cancel(run: RunId)
    | Finish(run: RunId)

  /** One call; a refused call leaves the registry alone. */
  ghost function Apply(runs: Runs, op: Op): Runs {
    match op
    case Register(run, parent, token) =>
      if RegisterError(runs, run, parent).None? then Registered(runs, run, parent, token) else runs
    case Cancel(run) =>
      if run in runs then Marked(runs, Subtree(runs, run)) else runs
    case Finish(run) =>
      if FinishError(runs, run).None? then Finished(runs, run) else runs
  }

  /** The registry after the first `n` calls of a history. */
  ghost function After(history: seq<Op>, n: nat): Runs
    requires n <= |history|
  {
    if n == 0 then map[] else Apply(After(history, n - 1), history[n - 1])
  }

  lemma {:induction false} EveryRegistryIsAForest(history: seq<Op>, n: nat)
    requires n <= |history|
    ensures Forest(After(history, n))
  {
    if n == 0 {
      assert RankedBy(map[], map[]);
    } else {
      EveryRegistryIsAForest(history, n - 1);
      var runs := After(history, n - 1);
      match history[n - 1]
      case Register(run, parent, token) =>
        if RegisterError(runs, run, parent).None? { RegisterKeepsForest(runs, run, parent, token); }
      case Cancel(run) =>
        if run in runs { MarkKeepsForest(runs, run); }
      case Finish(run) =>
        if FinishError(runs, run).None? { FinishKeepsForest(runs, run); }
    }
  }

  lemma LinkSurvives(runs: Runs, op: Op, child: RunId, parent: RunId)
    requires Forest(runs) && IsChild(runs, child, parent)
    requires child in Apply(runs, op)
    ensures IsChild(Apply(runs, op), child, parent)
  {
  }

  /** `child` is registered under `parent` by call number `born` and is still registered
      after each call up to `now`. */
  ghost predicate LivesUnder(history: seq<Op>, born: nat, now: nat, child: RunId, parent: RunId) {
    && born < now <= |history|
    && history[born].Register? && history[born].run == child && history[born].parent == Some(parent)
    && child !in After(history, born)
    && (forall k :: born < k <= now ==> child in After(history, k))
  }

  lemma {:induction false} LinkStands(history: seq<Op>, born: nat, now: nat, child: RunId, parent: RunId)
    requires LivesUnder(history, born, now, child, parent)
    ensures IsChild(After(history, now), child, parent)
    ensures parent in After(history, now) && child in After(history, now)[parent].children
  {
    var runs := After(history, now - 1);
    EveryRegistryIsAForest(history, now - 1);
    EveryRegistryIsAForest(history, now);
    if now != born + 1 {
      LinkStands(history, born, now - 1, child, parent);
      LinkSurvives(runs, history[now - 1], child, parent);
    }
    assert IsChild(After(history, now), child, parent);
  }

  /** A parent's life encloses its child's: from the registration of `child` under `parent`
      for as long as `child` stays registered, `parent` is registered too, the link between
      the two never changes, and every attempt to finish the parent is refused. */
  lemma ParentOutlivesChild(history: seq<Op>, born: nat, now: nat, child: RunId, parent: RunId)
    requires LivesUnder(history, born, now, child, parent)
    ensures forall k :: born <= k <= now ==> parent in After(history, k)
    ensures forall k :: born < k <= now ==> IsChild(After(history, k), child, parent)
    ensures forall k :: born < k < now && history[k] == Finish(parent) ==>
              FinishError(After(history, k), parent) == Some(RunHasActiveChildren)
  {
    forall k | born < k <= now
      ensures IsChild(After(history, k), child, parent)
      ensures parent in After(history, k) && child in After(history, k)[parent].children
    {
      LinkStands(history, born, k, child, parent);
    }
    assert After(history, born + 1) == Apply(After(history, born), history[born]);
  }

  lemma RequestSurvives(runs: Runs, op: Op, run: RunId)
    requires Forest(runs) && run in runs && run in Apply(runs, op)
    requires runs[run].activity == CancelRequested
    ensures Apply(runs, op)[run].activity == CancelRequested
  {
  }

  /** A cancellation request stands, call after call, until the run is finished. */
  lemma {:induction false} CancellationStands(history: seq<Op>, n: nat, m: nat, run: RunId)
    requires n <= m <= |history|
    requires forall k :: n <= k <= m ==> run in After(history, k)
    requires After(history, n)[run].activity == CancelRequested
    ensures After(history, m)[run].activity == CancelRequested
  {
    if n < m {
      CancellationStands(history, n, m - 1, run);
      EveryRegistryIsAForest(history, m - 1);
      assert run in After(history, m);
      RequestSurvives(After(history, m - 1), history[m - 1], run);
    }
  }

  /** Cancelling a run closes it: as long as it stays registered, whatever else is called, nothing
      can be registered below it. */
  lemma CancelledTakesNoChildren(history: seq<Op>, n: nat, m: nat, run: RunId, root: RunId, child: RunId)
    requires n < m <= |history| && history[n] == Cancel(root) && root in After(history, n)
    requires forall k :: n <= k <= m ==> run in After(history, k)
    requires Descends(After(history, n), run, root) && child !in After(history, m)
    ensures RegisterError(After(history, m), child, Some(run)) == Some(ParentRunCancelling)
  {
    CancelMarksTheSubtree(After(history, n), root);
    CancellationStands(history, n + 1, m, run);
  }

  /** A finished run is gone until it is registered again. */
  lemma {:induction false} FinishedIsGone(history: seq<Op>, n: nat, m: nat, run: RunId)
    requires n < m <= |history| && history[n] == Finish(run) && FinishError(After(history, n), run).None?
    requires forall k :: n < k < m && history[k].Register? ==> history[k].run != run
    ensures run !in After(history, m)
  {
    EveryRegistryIsAForest(history, m - 1);
    if n + 1 < m {
      FinishedIsGone(history, n, m - 1, run);
      if history[m - 1].Finish? && FinishError(After(history, m - 1), history[m - 1].run).None? {
        FinishRemovesOne(After(history, m - 1), history[m - 1].run);
      }
    } else {
      FinishRemovesOne(After(history, n), run);
    }
  }
}
