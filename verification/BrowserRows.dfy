/** The session's row in the journal and the runtime's status when several threads use the runtime.
    A failure gives the status up before it writes the row, so another thread may come in between. */
module BrowserRows {
  import opened Prelude
  import opened BrowserJournal
  import opened BrowserRuntime
  import opened BrowserThreads
  import opened BrowserRaces
  import BrowserRuns

  ghost predicate AtRest(s: Shared) {
    forall t: ThreadId :: PhaseOf(s, t).Idle?
  }

  function RowOf(config: Config, j: Journal): Option<SessionStatus> {
    if config.sessionId in j.sessions then Some(j.sessions[config.sessionId].status) else None
  }

  /** The row shows the status; a session nobody has used has no row. */
  predicate Mirrored(config: Config, s: Shared) {
    RowOf(config, s.journal) == Some(s.state.status) || (s.state.status.Closed? && RowOf(config, s.journal).None?)
  }

  /** The status each move of a run gives the session, if it sets one. */
  function Changes(config: Config, moves: seq<Move>): nat -> Option<SessionStatus> {
    (k: nat) => if k < |moves| then Sets(Seen(config, moves, k), moves[k]) else None
  }

  /** The status each move writes to the session's row, if it writes one. */
  function RowWrites(config: Config, moves: seq<Move>): nat -> Option<SessionStatus> {
    (k: nat) => if k < |moves| then Writes(Seen(config, moves, k), moves[k]) else None
  }

  function Statuses(config: Config, moves: seq<Move>): nat -> Option<SessionStatus> {
    (k: nat) => if k <= |moves| then Some(After(config, moves[..k]).state.status) else None
  }

  function Phases(config: Config, moves: seq<Move>, t: ThreadId): nat -> Phase {
    (k: nat) => if k <= |moves| then PhaseOf(After(config, moves[..k]), t) else Idle
  }

  function Rows(config: Config, moves: seq<Move>): nat -> Option<SessionStatus> {
    (k: nat) => if k <= |moves| then RowOf(config, After(config, moves[..k]).journal) else None
  }

  /** The thread changed the status and has not written the row. */
  predicate OwesRow(phase: Phase) {
    phase.Marking? || phase.Stopping?
  }

  // ---------------------------------------------------------------- one step

  lemma TurnSets(config: Config, v: View, m: Move)
    ensures Turn(config, v, m).state.status == Sets(v, m).GetOr(v.state.status)
  {
  }

  lemma TurnWrites(config: Config, v: View, m: Move)
    ensures RowOf(config, Turn(config, v, m).journal)
      == if Writes(v, m).Some? then Writes(v, m) else RowOf(config, v.journal)
  {
    if Enabled(v.phase, m) && m.Finish? {
      var p := v.phase;
      BrowserRuns.UpdateKeepsSessions(v.journal, p.id, p.outcome, p.summary, p.error, m.now);
    }
  }

  lemma TurnOwes(config: Config, v: View, m: Move)
    requires PhaseSound(v.phase)
    ensures
      var w := Turn(config, v, m);
      && (Sets(v, m).Some? && Writes(v, m).None? ==> OwesRow(w.phase))
      && (w.phase.Marking? ==> w == v || (Sets(v, m) == Some(w.phase.status) && Writes(v, m).None?))
    ensures OwesRow(v.phase) ==> Turn(config, v, m) == v || Writes(v, m).Some?
  {
  }

  lemma WhatIsWritten(v: View, m: Move)
    ensures Writes(v, m).Some? && Sets(v, m).Some? ==> Writes(v, m) == Sets(v, m)
    ensures Writes(v, m).Some? && Sets(v, m).None? ==>
        m.MarkRow? && v.phase.Marking? && Writes(v, m) == Some(v.phase.status)
    ensures v.phase.Marking? ==> Sets(v, m).None?
  {
  }

  // ---------------------------------------------------------------- a stretch of a run

  /** What a step sets, or else what was there. */
  function Kept(change: Option<SessionStatus>, before: Option<SessionStatus>): Option<SessionStatus> {
    if change.Some? then change else before
  }

  /** Step `k` makes the last of the changes before `n`. */
  ghost predicate LastOf(change: nat -> Option<SessionStatus>, n: nat, k: nat) {
    k < n && change(k).Some? && forall j: nat :: k < j < n ==> change(j).None?
  }

  /** A value stays what the last change made it. */
  lemma {:induction false} LastStands(value: nat -> Option<SessionStatus>, change: nat -> Option<SessionStatus>, k: nat,
      n: nat)
    requires LastOf(change, n, k)
    requires forall j: nat :: j < n ==> value(j + 1) == Kept(change(j), value(j))
    ensures value(n) == change(k)
  {
    if k + 1 < n {
      LastStands(value, change, k, n - 1);
    }
  }

  lemma {:induction false} LastExists(change: nat -> Option<SessionStatus>, n: nat, k: nat)
    requires k < n && change(k).Some?
    ensures exists l: nat :: k <= l && LastOf(change, n, l)
    decreases n - k
  {
    if j: nat :| k < j < n && change(j).Some? {
      LastExists(change, n, j);
    } else {
      assert LastOf(change, n, k);
    }
  }

  lemma StatusMoves(config: Config, moves: seq<Move>, k: nat)
    requires k < |moves|
    ensures Statuses(config, moves)(k + 1) == Kept(Changes(config, moves)(k), Statuses(config, moves)(k))
  {
    NextMove(config, moves, k);
    TurnSets(config, Seen(config, moves, k), moves[k]);
  }

  lemma RowMoves(config: Config, moves: seq<Move>, k: nat)
    requires k < |moves|
    ensures Rows(config, moves)(k + 1) == Kept(RowWrites(config, moves)(k), Rows(config, moves)(k))
  {
    NextMove(config, moves, k);
    TurnWrites(config, Seen(config, moves, k), moves[k]);
  }

  lemma PhaseMoves(config: Config, moves: seq<Move>, k: nat, t: ThreadId)
    requires k < |moves|
    ensures
      var p, q := Phases(config, moves, t)(k), Phases(config, moves, t)(k + 1);
      && (moves[k].t == t && Changes(config, moves)(k).Some? && RowWrites(config, moves)(k).None? ==> OwesRow(q))
      && (OwesRow(p) ==> q == p || RowWrites(config, moves)(k).Some?)
      && (q.Marking? ==> q == p || (moves[k].t == t && Changes(config, moves)(k) == Some(q.status)))
  {
    NextMove(config, moves, k);
    AlwaysSoundPhases(config, moves[..k], t);
    if moves[k].t == t {
      TurnOwes(config, Seen(config, moves, k), moves[k]);
    }
  }

  lemma {:induction false} HoldsOnwards(holds: nat -> bool, a: nat, n: nat)
    requires a <= n && holds(a)
    requires forall k: nat :: a <= k < n && holds(k) ==> holds(k + 1)
    ensures holds(n)
  {
    if a < n {
      HoldsOnwards(holds, a, n - 1);
    }
  }

  /** Until something is written, a thread that changed the status owes the row. */
  lemma OwedUntilWritten(config: Config, moves: seq<Move>, i: nat, n: nat)
    requires i < n <= |moves| && Changes(config, moves)(i).Some?
    requires forall j: nat :: i <= j < n ==> RowWrites(config, moves)(j).None?
    ensures OwesRow(Phases(config, moves, moves[i].t)(n))
  {
    var t := moves[i].t;
    PhaseMoves(config, moves, i, t);
    forall k: nat | i < k < n && OwesRow(Phases(config, moves, t)(k)) ensures OwesRow(Phases(config, moves, t)(k + 1)) {
      PhaseMoves(config, moves, k, t);
    }
    HoldsOnwards((k: nat) => OwesRow(Phases(config, moves, t)(k)), i + 1, n);
  }

  /** Thread `t` set the status with move `i` and owes its row at `n`. */
  ghost predicate OwingSince(config: Config, moves: seq<Move>, i: nat, n: nat, t: ThreadId)
    requires i < n <= |moves|
  {
    var phase := Phases(config, moves, t);
    && phase(n).Marking? && moves[i].t == t && Changes(config, moves)(i) == Some(phase(n).status)
    && forall k: nat :: i < k <= n ==> phase(k) == phase(n)
  }

  /** Step `i` enters the phase that lasts until `n`. */
  ghost predicate EntersFor(phase: nat -> Phase, i: nat, n: nat) {
    i < n && phase(i) != phase(i + 1) && forall k: nat :: i < k <= n ==> phase(k) == phase(n)
  }

  lemma {:induction false} EnteredBefore(phase: nat -> Phase, n: nat)
    requires phase(0) != phase(n)
    ensures exists i: nat :: EntersFor(phase, i, n)
  {
    if phase(n - 1) == phase(n) {
      EnteredBefore(phase, n - 1);
      var i: nat :| EntersFor(phase, i, n - 1);
      assert EntersFor(phase, i, n);
    } else {
      assert EntersFor(phase, n - 1, n);
    }
  }

  lemma MarkingMeansOwing(config: Config, moves: seq<Move>, n: nat, t: ThreadId)
    requires n <= |moves| && Phases(config, moves, t)(n).Marking?
    ensures exists i: nat :: i < n && OwingSince(config, moves, i, n, t)
  {
    EnteredBefore(Phases(config, moves, t), n);
    var i: nat :| EntersFor(Phases(config, moves, t), i, n);
    PhaseMoves(config, moves, i, t);
    assert OwingSince(config, moves, i, n, t);
  }

  // ---------------------------------------------------------------- when the row shows the status

  /** Between move `i`, with which a thread set the status, and its last row write at `j`, another
      thread set a different status for good, at `k`. */
  ghost predicate Overtaken(config: Config, moves: seq<Move>, i: nat, k: nat, j: nat) {
    && i < k < j < |moves| && moves[j].MarkRow? && OwingSince(config, moves, i, j, moves[j].t)
    && LastOf(RowWrites(config, moves), |moves|, j) && LastOf(Changes(config, moves), |moves|, k)
    && moves[k].t != moves[j].t
    && Changes(config, moves)(k) != Changes(config, moves)(i)
  }

  lemma {:induction false} UnchangedStands(value: nat -> Option<SessionStatus>, change: nat -> Option<SessionStatus>,
      n: nat)
    requires forall j: nat :: j < n ==> change(j).None? && value(j + 1) == Kept(change(j), value(j))
    ensures value(n) == value(0)
  {
    if n > 0 {
      UnchangedStands(value, change, n - 1);
    }
  }

  /** Only a row of a changed status is written. */
  lemma WrittenMeansChanged(config: Config, moves: seq<Move>, j: nat)
    requires j < |moves| && RowWrites(config, moves)(j).Some?
    ensures exists i: nat :: i <= j && Changes(config, moves)(i).Some?
  {
    WhatIsWritten(Seen(config, moves, j), moves[j]);
    if Changes(config, moves)(j).None? {
      MarkingMeansOwing(config, moves, j, moves[j].t);
      var i: nat :| i < j && OwingSince(config, moves, i, j, moves[j].t);
      assert Changes(config, moves)(i).Some?;
    }
  }

  lemma Untouched(config: Config, moves: seq<Move>)
    requires forall k: nat :: k < |moves| ==> Changes(config, moves)(k).None?
    ensures
      var s := After(config, moves);
      s.state.status.Closed? && RowOf(config, s.journal).None?
  {
    forall j: nat | j < |moves|
      ensures Statuses(config, moves)(j + 1) == Kept(Changes(config, moves)(j), Statuses(config, moves)(j))
      ensures RowWrites(config, moves)(j).None?
      ensures Rows(config, moves)(j + 1) == Kept(RowWrites(config, moves)(j), Rows(config, moves)(j))
    {
      StatusMoves(config, moves, j);
      RowMoves(config, moves, j);
      if RowWrites(config, moves)(j).Some? {
        WrittenMeansChanged(config, moves, j);
      }
    }
    UnchangedStands(Statuses(config, moves), Changes(config, moves), |moves|);
    UnchangedStands(Rows(config, moves), RowWrites(config, moves), |moves|);
    assert moves[..|moves|] == moves && moves[..0] == [];
  }

  /** At rest the last change of the status was followed, or accompanied, by a row write. */
  lemma LastSetIsWritten(config: Config, moves: seq<Move>, k: nat)
    requires AtRest(After(config, moves)) && LastOf(Changes(config, moves), |moves|, k)
    ensures exists j: nat :: k <= j && LastOf(RowWrites(config, moves), |moves|, j)
  {
    assert moves[..|moves|] == moves;
    if j: nat :| k <= j < |moves| && RowWrites(config, moves)(j).Some? {
      LastExists(RowWrites(config, moves), |moves|, j);
    } else {
      OwedUntilWritten(config, moves, k, |moves|);
    }
  }

  /** A write after the last change was owed since an earlier change, or since that one. */
  lemma LateWrite(config: Config, moves: seq<Move>, k: nat, j: nat)
    requires LastOf(Changes(config, moves), |moves|, k) && LastOf(RowWrites(config, moves), |moves|, j) && k < j
    ensures moves[j].MarkRow?
    ensures exists i: nat ::
        && i <= k && OwingSince(config, moves, i, j, moves[j].t)
        && Changes(config, moves)(i) == RowWrites(config, moves)(j)
        && (i < k ==> moves[k].t != moves[j].t)
  {
    var t := moves[j].t;
    assert Changes(config, moves)(j).None?;
    WhatIsWritten(Seen(config, moves, j), moves[j]);
    MarkingMeansOwing(config, moves, j, t);
    var i: nat :| i < j && OwingSince(config, moves, i, j, t);
    WhatIsWritten(Seen(config, moves, k), moves[k]);
    assert i < k ==> Phases(config, moves, t)(k) == Phases(config, moves, t)(j);
  }

  lemma FinalStatus(config: Config, moves: seq<Move>, k: nat)
    requires LastOf(Changes(config, moves), |moves|, k)
    ensures Some(After(config, moves).state.status) == Changes(config, moves)(k)
  {
    forall j: nat | j < |moves|
      ensures Statuses(config, moves)(j + 1) == Kept(Changes(config, moves)(j), Statuses(config, moves)(j))
    {
      StatusMoves(config, moves, j);
    }
    LastStands(Statuses(config, moves), Changes(config, moves), k, |moves|);
    assert moves[..|moves|] == moves;
  }

  lemma FinalRow(config: Config, moves: seq<Move>, j: nat)
    requires LastOf(RowWrites(config, moves), |moves|, j)
    ensures RowOf(config, After(config, moves).journal) == RowWrites(config, moves)(j)
  {
    forall l: nat | l < |moves|
      ensures Rows(config, moves)(l + 1) == Kept(RowWrites(config, moves)(l), Rows(config, moves)(l))
    {
      RowMoves(config, moves, l);
    }
    LastStands(Rows(config, moves), RowWrites(config, moves), j, |moves|);
    assert moves[..|moves|] == moves;
  }

  lemma FinalValues(config: Config, moves: seq<Move>, k: nat, j: nat)
    requires LastOf(Changes(config, moves), |moves|, k) && LastOf(RowWrites(config, moves), |moves|, j)
    ensures Mirrored(config, After(config, moves)) <==> RowWrites(config, moves)(j) == Changes(config, moves)(k)
  {
    FinalStatus(config, moves, k);
    FinalRow(config, moves, j);
  }

  lemma OvertakenDiffers(config: Config, moves: seq<Move>, i: nat, k: nat, j: nat, last: nat, written: nat)
    requires Overtaken(config, moves, i, k, j)
    requires LastOf(Changes(config, moves), |moves|, last) && LastOf(RowWrites(config, moves), |moves|, written)
    ensures RowWrites(config, moves)(written) != Changes(config, moves)(last)
  {
    assert k == last && j == written;
    assert Changes(config, moves)(j).None?;
    WhatIsWritten(Seen(config, moves, j), moves[j]);
  }

  lemma DiffersOvertaken(config: Config, moves: seq<Move>, k: nat, j: nat)
    requires LastOf(Changes(config, moves), |moves|, k) && LastOf(RowWrites(config, moves), |moves|, j) && k <= j
    requires RowWrites(config, moves)(j) != Changes(config, moves)(k)
    ensures exists i: nat :: Overtaken(config, moves, i, k, j)
  {
    WhatIsWritten(Seen(config, moves, k), moves[k]);
    LateWrite(config, moves, k, j);
    var i: nat :|
      && i <= k && OwingSince(config, moves, i, j, moves[j].t)
      && Changes(config, moves)(i) == RowWrites(config, moves)(j) && (i < k ==> moves[k].t != moves[j].t);
    assert Overtaken(config, moves, i, k, j);
  }

  /** When no call is under way the session's row shows the runtime's status if and only if the
      last row write was not overtaken. */
  lemma RowMirrorsIff(config: Config, moves: seq<Move>)
    requires AtRest(After(config, moves))
    ensures Mirrored(config, After(config, moves)) <==>
        !exists i: nat, k: nat, j: nat :: Overtaken(config, moves, i, k, j)
  {
    if l: nat :| l < |moves| && Changes(config, moves)(l).Some? {
      LastExists(Changes(config, moves), |moves|, l);
      var k: nat :| LastOf(Changes(config, moves), |moves|, k);
      LastSetIsWritten(config, moves, k);
      var j: nat :| k <= j && LastOf(RowWrites(config, moves), |moves|, j);
      FinalValues(config, moves, k, j);
      if RowWrites(config, moves)(j) != Changes(config, moves)(k) {
        DiffersOvertaken(config, moves, k, j);
      } else if x: nat, y: nat, z: nat :| Overtaken(config, moves, x, y, z) {
        OvertakenDiffers(config, moves, x, y, z, k, j);
      }
    } else {
      Untouched(config, moves);
    }
  }

  // ---------------------------------------------------------------- a run that leaves the row behind

  /** The adapter fails thread 0, which gives up the state before it writes the row. */
  function FailingAnswer(o: nat): seq<Move> {
    VisitChecked(o) + [Forward(0, Err(AdapterFailure(0))), TakeAnswer(0)]
  }

  lemma FailingTurns(config: Config, v: View, id: nat, o: nat)
    requires v.phase == Cleared(id, Visit(o))
    ensures
      var w := Turn(config, Turn(config, v, Forward(0, Err(AdapterFailure(0)))), TakeAnswer(0));
      && w.phase == Marking(NeedsReconciliation, Failing(id, AdapterFailure(0)))
      && w.state == v.state.(status := NeedsReconciliation)
  {
    AnswerTaken(config, v, 0, Err(AdapterFailure(0)));
  }

  lemma AnswerFails(config: Config, o: nat)
    requires o in config.allowedOrigins
    ensures
      var s := After(config, FailingAnswer(o));
      && s.state.status.NeedsReconciliation?
      && PhaseOf(s, 0) == Marking(NeedsReconciliation, Failing(1, AdapterFailure(0)))
      && forall t: ThreadId :: t != 0 ==> PhaseOf(s, t) == Idle
  {
    VisitIsChecked(config, o);
    FailingTurns(config, ViewOf(After(config, VisitChecked(o)), 0), 1, o);
    TwoMore(config, VisitChecked(o), Forward(0, Err(AdapterFailure(0))), TakeAnswer(0));
  }

  lemma EndingTurns(config: Config, v: View, id: nat)
    requires v.phase == Marking(NeedsReconciliation, Failing(id, AdapterFailure(0)))
    ensures
      var w := Ending(config, v, 0, 0);
      w.phase.Idle? && w.state == v.state && RowOf(config, w.journal) == Some(NeedsReconciliation)
  {
    MarkedEnds(config, v, 0, NeedsReconciliation, id, AdapterFailure(0), 0);
    var marked := UpsertOutcome(v.journal, config.sessionId, NeedsReconciliation, 0);
    BrowserRuns.UpdateKeepsSessions(marked, id, Failed, None, Some(AdapterFailure(0)), 0);
  }

  /** Thread 1 opens the session again before thread 0 writes its row: with no call under way the
      session is ready and its row asks for reconciliation. */
  lemma RowFallsBehind(config: Config, o: nat)
    requires o in config.allowedOrigins
    ensures
      var s := After(config, (FailingAnswer(o) + Launch(1)) + [MarkRow(0, 0), Finish(0, 0)]);
      AtRest(s) && s.state.status.Ready? && RowOf(config, s.journal) == Some(NeedsReconciliation)
  {
    AnswerFails(config, o);
    LaunchRuns(config, FailingAnswer(o), 1);
    EndingTurns(config, ViewOf(After(config, FailingAnswer(o) + Launch(1)), 0), 1);
    TwoMore(config, FailingAnswer(o) + Launch(1), MarkRow(0, 0), Finish(0, 0));
  }
}
