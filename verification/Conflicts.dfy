/** The coordinator's search for conflicts among agent results: overlapping changed paths and
    differing decisions on a shared subject. */
module Conflicts {
  import opened Prelude
  import opened Ordering
  import opened FileLeases
  import Text

  datatype Envelope = Envelope(agent: nat, changedFiles: seq<Path>, claims: map<nat, string>)

  datatype Conflict =
    | FileOverlap(leftAgent: nat, rightAgent: nat, leftPath: Path, rightPath: Path)
    | DecisionMismatch(leftAgent: nat, rightAgent: nat, subject: nat, leftValue: string, rightValue: string)

  datatype Meeting = Meeting(id: nat, missionId: nat, participants: set<nat>, conflicts: seq<Conflict>, createdAt: I64)

  datatype CoordinationOutcome = CoordinationOutcome(conflicts: seq<Conflict>, meeting: Option<Meeting>)

  // ---------------------------------------------------------------- the conflicts in search order

  /** What `n` rounds of a loop add to a list, one after the other. */
  function Rounds<T>(n: nat, round: nat -> seq<T>): seq<T> {
    if n == 0 then [] else Rounds(n - 1, round) + round(n - 1)
  }

  lemma {:induction false} RoundsMembers<T>(n: nat, round: nat -> seq<T>, x: T)
    ensures x in Rounds(n, round) <==> exists i: nat :: i < n && x in round(i)
  {
    if n > 0 {
      RoundsMembers(n - 1, round, x);
    }
  }

  lemma {:induction false} IdleRounds<T>(n: nat, round: nat -> seq<T>)
    requires forall i: nat :: i < n ==> round(i) == []
    ensures Rounds(n, round) == []
  {
    if n > 0 {
      IdleRounds(n - 1, round);
    }
  }

  lemma NextRound<T>(n: nat, round: nat -> seq<T>, done: seq<T>, next: seq<T>)
    requires done == Rounds(n, round) && next == round(n)
    ensures done + next == Rounds(n + 1, round)
  {
  }

  function PathPair(left: Envelope, right: Envelope, a: nat): nat -> seq<Conflict> {
    (b: nat) =>
      if a < |left.changedFiles| && b < |right.changedFiles| && Overlap(left.changedFiles[a], right.changedFiles[b])
      then [FileOverlap(left.agent, right.agent, left.changedFiles[a], right.changedFiles[b])] else []
  }

  function LeftPath(left: Envelope, right: Envelope): nat -> seq<Conflict> {
    (a: nat) => Rounds(|right.changedFiles|, PathPair(left, right, a))
  }

  predicate Differ(left: Envelope, right: Envelope, subject: nat) {
    && subject in left.claims && subject in right.claims
    && Text.Trim(left.claims[subject]) != Text.Trim(right.claims[subject])
  }

  function Mismatch(left: Envelope, right: Envelope, subject: nat): Conflict
    requires subject in left.claims && subject in right.claims
  {
    DecisionMismatch(left.agent, right.agent, subject, left.claims[subject], right.claims[subject])
  }

  /** The left decisions are visited in the order of their subjects. */
  function Decision(left: Envelope, right: Envelope): nat -> seq<Conflict> {
    (k: nat) =>
      var subjects := Ascending(left.claims.Keys);
      if k < |subjects| && Differ(left, right, subjects[k]) then [Mismatch(left, right, subjects[k])] else []
  }

  function PathConflicts(left: Envelope, right: Envelope): seq<Conflict> {
    Rounds(|left.changedFiles|, LeftPath(left, right))
  }

  function ClaimConflicts(left: Envelope, right: Envelope): seq<Conflict> {
    Rounds(|left.claims|, Decision(left, right))
  }

  function Between(left: Envelope, right: Envelope): seq<Conflict> {
    PathConflicts(left, right) + ClaimConflicts(left, right)
  }

  function LaterResult(results: seq<Envelope>, i: nat): nat -> seq<Conflict> {
    (j: nat) =>
      if i < j < |results| then Between(results[i], results[j]) else []
  }

  function EarlierResult(results: seq<Envelope>): nat -> seq<Conflict> {
    (i: nat) => Rounds(|results|, LaterResult(results, i))
  }

  function Found(results: seq<Envelope>): seq<Conflict> {
    Rounds(|results|, EarlierResult(results))
  }

  // ---------------------------------------------------------------- the nested loops

  /** `later` gives the conflicts of result `i` with each later result. */
  ghost predicate Describes(later: nat -> seq<Conflict>, results: seq<Envelope>, i: nat)
    requires i < |results|
  {
    forall j: nat {:trigger Between(results[i], results[j])} ::
      i < j < |results| ==> later(j) == Between(results[i], results[j])
  }

  method DetectConflicts(results: seq<Envelope>) returns (conflicts: seq<Conflict>)
    ensures conflicts == Found(results)
  {
    conflicts := [];
    for i := 0 to |results|
      invariant conflicts == Rounds(i, EarlierResult(results))
    {
      NothingEarlier(results, i);
      var found := CompareWithLater(results, i, LaterResult(results, i));
      conflicts := conflicts + found;
    }
  }

  lemma NothingEarlier(results: seq<Envelope>, i: nat)
    requires i < |results|
    ensures Rounds(i + 1, LaterResult(results, i)) == []
    ensures Describes(LaterResult(results, i), results, i)
  {
    IdleRounds(i + 1, LaterResult(results, i));
  }

  method CompareWithLater(results: seq<Envelope>, i: nat, ghost later: nat -> seq<Conflict>)
    returns (conflicts: seq<Conflict>)
    requires i < |results|
    requires Rounds(i + 1, later) == []
    requires Describes(later, results, i)
    ensures conflicts == Rounds(|results|, later)
  {
    conflicts := [];
    for j := i + 1 to |results|
      invariant conflicts == Rounds(j, later)
    {
      var found := Compare(results, i, j, later);
      NextRound(j, later, conflicts, found);
      conflicts := conflicts + found;
    }
  }

  method Compare(results: seq<Envelope>, i: nat, j: nat, ghost later: nat -> seq<Conflict>)
    returns (conflicts: seq<Conflict>)
    requires i < j < |results| && Describes(later, results, i)
    ensures conflicts == later(j)
  {
    var paths := ComparePaths(results[i], results[j]);
    var claims := CompareClaims(results[i], results[j]);
    conflicts := paths + claims;
    assert conflicts == Between(results[i], results[j]);
  }

  method ComparePaths(left: Envelope, right: Envelope) returns (conflicts: seq<Conflict>)
    ensures conflicts == PathConflicts(left, right)
  {
    conflicts := [];
    for a := 0 to |left.changedFiles|
      invariant conflicts == Rounds(a, LeftPath(left, right))
    {
      ghost var before := conflicts;
      for b := 0 to |right.changedFiles|
        invariant conflicts == before + Rounds(b, PathPair(left, right, a))
      {
        if Overlap(left.changedFiles[a], right.changedFiles[b]) {
          conflicts := conflicts + [FileOverlap(left.agent, right.agent, left.changedFiles[a], right.changedFiles[b])];
        }
      }
    }
  }

  method CompareClaims(left: Envelope, right: Envelope) returns (conflicts: seq<Conflict>)
    ensures conflicts == ClaimConflicts(left, right)
  {
    var subjects := Ascending(left.claims.Keys);
    AscendingIsExact(left.claims.Keys);
    conflicts := CompareSubjects(left, right, subjects, Decision(left, right));
  }

  method CompareSubjects(left: Envelope, right: Envelope, subjects: seq<nat>, ghost decision: nat -> seq<Conflict>)
    returns (conflicts: seq<Conflict>)
    requires forall k: nat {:trigger Differ(left, right, subjects[k])} ::
        k < |subjects| ==>
          decision(k) == if Differ(left, right, subjects[k]) then [Mismatch(left, right, subjects[k])] else []
    ensures conflicts == Rounds(|subjects|, decision)
  {
    conflicts := [];
    for k := 0 to |subjects|
      invariant conflicts == Rounds(k, decision)
    {
      var found := if Differ(left, right, subjects[k]) then [Mismatch(left, right, subjects[k])] else [];
      NextRound(k, decision, conflicts, found);
      conflicts := conflicts + found;
    }
  }

  // ---------------------------------------------------------------- exactness

  /** A conflict between two results. */
  ghost predicate Clash(left: Envelope, right: Envelope, c: Conflict) {
    && c.leftAgent == left.agent && c.rightAgent == right.agent
    && match c
       case FileOverlap(_, _, p, q) => p in left.changedFiles && q in right.changedFiles && Overlap(p, q)
       case DecisionMismatch(_, _, subject, u, v) =>
         && subject in left.claims && left.claims[subject] == u
         && subject in right.claims && right.claims[subject] == v
         && Text.Trim(u) != Text.Trim(v)
  }

  ghost predicate ClashAt(results: seq<Envelope>, i: nat, k: nat, c: Conflict)
    requires i < |results| && k < |results|
  {
    Clash(results[i], results[k], c)
  }

  lemma PathConflictsExact(left: Envelope, right: Envelope, c: Conflict)
    ensures c in PathConflicts(left, right) <==> c.FileOverlap? && Clash(left, right, c)
  {
    RoundsMembers(|left.changedFiles|, LeftPath(left, right), c);
    forall a: nat | a < |left.changedFiles|
      ensures
        c in LeftPath(left, right)(a) <==> exists b: nat :: b < |right.changedFiles| && c in PathPair(left, right, a)(b)
    {
      RoundsMembers(|right.changedFiles|, PathPair(left, right, a), c);
    }
    if c.FileOverlap? && Clash(left, right, c) {
      var a: nat :| a < |left.changedFiles| && left.changedFiles[a] == c.leftPath;
      var b: nat :| b < |right.changedFiles| && right.changedFiles[b] == c.rightPath;
      assert c in PathPair(left, right, a)(b);
      assert c in LeftPath(left, right)(a);
    }
  }

  lemma ClaimConflictsExact(left: Envelope, right: Envelope, c: Conflict)
    ensures c in ClaimConflicts(left, right) <==> c.DecisionMismatch? && Clash(left, right, c)
  {
    var subjects := Ascending(left.claims.Keys);
    AscendingIsExact(left.claims.Keys);
    RoundsMembers(|subjects|, Decision(left, right), c);
    DecisionExact(left, right, subjects, Decision(left, right), c);
  }

  lemma DecisionExact(left: Envelope, right: Envelope, subjects: seq<nat>, decision: nat -> seq<Conflict>, c: Conflict)
    requires forall x :: x in subjects <==> x in left.claims
    requires forall k: nat {:trigger decision(k)} ::
        k < |subjects| ==>
          decision(k) == if Differ(left, right, subjects[k]) then [Mismatch(left, right, subjects[k])] else []
    ensures (exists k: nat :: k < |subjects| && c in decision(k)) <==> c.DecisionMismatch? && Clash(left, right, c)
  {
    if k: nat :| k < |subjects| && c in decision(k) {
      assert c == Mismatch(left, right, subjects[k]);
    }
    if c.DecisionMismatch? && Clash(left, right, c) {
      assert c.subject in subjects;
      var k: nat :| k < |subjects| && subjects[k] == c.subject;
      assert c in decision(k);
    }
  }

  lemma LaterResultExact(results: seq<Envelope>, i: nat, k: nat, c: Conflict)
    requires i < |results| && k < |results|
    ensures c in LaterResult(results, i)(k) <==> i < k && ClashAt(results, i, k, c)
  {
    PathConflictsExact(results[i], results[k], c);
    ClaimConflictsExact(results[i], results[k], c);
  }

  lemma EarlierResultExact(results: seq<Envelope>, i: nat, c: Conflict)
    requires i < |results|
    ensures c in EarlierResult(results)(i) <==> exists k: nat :: i < k < |results| && ClashAt(results, i, k, c)
  {
    RoundsMembers(|results|, LaterResult(results, i), c);
    forall k: nat | k < |results| ensures c in LaterResult(results, i)(k) <==> i < k && ClashAt(results, i, k, c) {
      LaterResultExact(results, i, k, c);
    }
  }

  /** The search reports exactly the clashes of an earlier result with a later one. */
  lemma ConflictsAreExact(results: seq<Envelope>, c: Conflict)
    ensures c in Found(results) <==> exists i: nat, k: nat :: i < k < |results| && ClashAt(results, i, k, c)
  {
    RoundsMembers(|results|, EarlierResult(results), c);
    forall i: nat | i < |results|
      ensures c in EarlierResult(results)(i) <==> exists k: nat :: i < k < |results| && ClashAt(results, i, k, c)
    {
      EarlierResultExact(results, i, c);
    }
    if i: nat, k: nat :| i < k < |results| && ClashAt(results, i, k, c) {
      assert c in EarlierResult(results)(i);
    }
  }

  // ---------------------------------------------------------------- leases rule file conflicts out

  /** A run may write a path that lies under one of its leases. */
  ghost predicate Covered(leases: Table, run: nat, path: Path) {
    exists p :: p in leases && leases[p].owner == run && p <= path
  }

  lemma CoveredPathsAreApart(leases: Table, left: nat, right: nat, p: Path, q: Path)
    requires Exclusive(leases) && left != right
    requires Covered(leases, left, p) && Covered(leases, right, q)
    ensures !Overlap(p, q)
  {
  }

  /** When the changed paths of each result lie under leases its own run holds, and the runs are
      pairwise different, no file conflict is reported, after any history of the lease table. */
  lemma LeasedChangesNeverOverlap(ops: seq<Op>, results: seq<Envelope>, runs: seq<nat>, c: Conflict)
    requires |runs| == |results|
    requires forall i, k :: 0 <= i < k < |runs| ==> runs[i] != runs[k]
    requires forall i, p :: 0 <= i < |results| && p in results[i].changedFiles ==> Covered(After(ops), runs[i], p)
    requires c in Found(results)
    ensures c.DecisionMismatch?
  {
    LeasesAreExclusive(ops);
    ConflictsAreExact(results, c);
    var i: nat, k: nat :| i < k < |results| && ClashAt(results, i, k, c);
    if c.FileOverlap? {
      CoveredPathsAreApart(After(ops), runs[i], runs[k], c.leftPath, c.rightPath);
    }
  }

  // ---------------------------------------------------------------- the coordinator

  /** A meeting is called exactly when some earlier result clashes with a later one. It invites
      every agent with a result and the coordinator, and lists the conflicts found. */
  method Inspect(coordinator: nat, missionId: nat, results: seq<Envelope>, meetingId: nat, now: I64)
    returns (outcome: CoordinationOutcome)
    ensures outcome.conflicts == Found(results)
    ensures outcome.meeting.Some? <==> exists i: nat, k: nat, c :: i < k < |results| && ClashAt(results, i, k, c)
    ensures outcome.meeting.Some? ==> outcome.meeting.value.conflicts == outcome.conflicts
    ensures outcome.meeting.Some? ==>
        && outcome.meeting.value.id == meetingId
        && outcome.meeting.value.missionId == missionId
        && outcome.meeting.value.createdAt == now
    ensures outcome.meeting.Some? ==>
        forall a ::
          a in outcome.meeting.value.participants <==>
            a == coordinator || exists i :: 0 <= i < |results| && results[i].agent == a
  {
    var conflicts := DetectConflicts(results);
    if conflicts == [] {
      forall i: nat, k: nat, c | i < k < |results| && ClashAt(results, i, k, c) ensures false {
        ConflictsAreExact(results, c);
      }
      return CoordinationOutcome(conflicts, None);
    }
    ConflictsAreExact(results, conflicts[0]);
    var participants := (set r | r in results :: r.agent) + {coordinator};
    outcome := CoordinationOutcome(conflicts, Some(Meeting(meetingId, missionId, participants, conflicts, now)));
  }
}
