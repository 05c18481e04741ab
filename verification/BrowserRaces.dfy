/** What holds when any number of threads use one browser runtime, whichever way their steps
    interleave, and exactly where the checks of a call no longer protect it. */
module BrowserRaces {
  import opened Prelude
  import opened BrowserJournal
  import opened BrowserRuntime
  import opened BrowserThreads
  import BrowserRuns

  /** After its row a thread launches the browser, ends its action, or is done; an action ends
      completed or failed. */
  predicate PhaseSound(phase: Phase) {
    && (phase.Marking? ==> phase.next.Launching? || phase.next.Idle? || phase.next.Finishing?)
    && (phase.Marking? && phase.next.Finishing? ==> !phase.next.outcome.Running?)
    && (phase.Finishing? ==> !phase.outcome.Running?)
  }

  lemma TurnKeepsPhase(config: Config, v: View, m: Move)
    requires PhaseSound(v.phase)
    ensures PhaseSound(Turn(config, v, m).phase)
  {
  }

  lemma {:induction false} AlwaysSoundPhases(config: Config, moves: seq<Move>, t: ThreadId)
    ensures PhaseSound(PhaseOf(After(config, moves), t))
  {
    if moves != [] {
      var before, m := moves[..|moves| - 1], moves[|moves| - 1];
      AlwaysSoundPhases(config, before, t);
      AlwaysSoundPhases(config, before, m.t);
      TurnKeepsPhase(config, ViewOf(After(config, before), m.t), m);
    }
  }

  /** What the thread of move `k` sees when it takes it. */
  function Seen(config: Config, moves: seq<Move>, k: nat): View
    requires k < |moves|
  {
    ViewOf(After(config, moves[..k]), moves[k].t)
  }

  lemma NextMove(config: Config, moves: seq<Move>, k: nat)
    requires k < |moves|
    ensures
      var v, s := Turn(config, Seen(config, moves, k), moves[k]), After(config, moves[..k + 1]);
      && s.state == v.state && s.journal == v.journal && s.calls == v.calls
      && PhaseOf(s, moves[k].t) == v.phase
      && forall t :: t != moves[k].t ==> PhaseOf(s, t) == PhaseOf(After(config, moves[..k]), t)
  {
    OneMoreMove(config, moves, k);
  }

  // ---------------------------------------------------------------- what the adapter is given

  /** The command is one the configuration allows; a navigation leads to an allowed origin. */
  ghost predicate Allowed(config: Config, c: Command) {
    && BrowserRuns.WithinPolicy(config, c)
    && (c.NavigateTo? ==> c.origin.Some? && c.origin.value in config.allowedOrigins)
  }

  ghost predicate PhaseAllowed(config: Config, phase: Phase) {
    phase.Cleared? || phase.Answered? ==> Allowed(config, phase.c)
  }

  ghost predicate WithinConfig(config: Config, s: Shared) {
    && (s.state.currentOrigin.Some? ==> s.state.currentOrigin.value in config.allowedOrigins)
    && (forall t :: t in s.phases ==> PhaseAllowed(config, s.phases[t]))
    && (forall i :: 0 <= i < |s.calls| ==> s.calls[i].Executed? && Allowed(config, s.calls[i].command))
  }

  lemma ClearedIsAllowed(config: Config, currentOrigin: Option<nat>, c: Command)
    requires CommandRefusal(config, currentOrigin, c).None?
    ensures Allowed(config, c)
  {
  }

  lemma TurnKeepsConfig(config: Config, v: View, m: Move)
    requires PhaseSound(v.phase)
    requires v.state.currentOrigin.Some? ==> v.state.currentOrigin.value in config.allowedOrigins
    requires PhaseAllowed(config, v.phase)
    ensures
      var w := Turn(config, v, m);
      && (w.state.currentOrigin.Some? ==> w.state.currentOrigin.value in config.allowedOrigins)
      && PhaseAllowed(config, w.phase)
      && (w.calls == v.calls
          || (v.phase.Cleared? && w.calls == v.calls + [Executed(v.phase.c, v.state.status, v.state.currentOrigin)]))
  {
    if m.CheckCommand? && v.phase.Admitted? && CommandRefusal(config, v.state.currentOrigin, v.phase.c).None? {
      ClearedIsAllowed(config, v.state.currentOrigin, v.phase.c);
    }
  }

  lemma MoveKeepsConfig(config: Config, s: Shared, m: Move)
    requires PhaseSound(PhaseOf(s, m.t))
    requires WithinConfig(config, s)
    ensures WithinConfig(config, Next(config, s, m))
  {
    assert PhaseAllowed(config, PhaseOf(s, m.t));
    TurnKeepsConfig(config, ViewOf(s, m.t), m);
  }

  /** However the threads interleave, the adapter only ever sees commands the configuration allows,
      and the believed origin is absent or allowed. */
  lemma {:induction false} PolicyHoldsInEveryInterleaving(config: Config, moves: seq<Move>)
    ensures WithinConfig(config, After(config, moves))
  {
    if moves != [] {
      PolicyHoldsInEveryInterleaving(config, moves[..|moves| - 1]);
      AlwaysSoundPhases(config, moves[..|moves| - 1], moves[|moves| - 1].t);
      MoveKeepsConfig(config, After(config, moves[..|moves| - 1]), moves[|moves| - 1]);
    }
  }

  // ---------------------------------------------------------------- actions and the threads that began them

  /** The action a thread has begun and not yet ended. */
  function Owned(phase: Phase): Option<nat> {
    match phase
    case Begun(id, _) => Some(id)
    case Admitted(id, _) => Some(id)
    case Cleared(id, _) => Some(id)
    case Answered(id, _, _) => Some(id)
    case HandoffBegun(id) => Some(id)
    case Handing(id) => Some(id)
    case Relaunching(id) => Some(id)
    case Finishing(id, _, _, _) => Some(id)
    case Marking(_, next) => if next.Finishing? then Some(next.id) else None
    case _ => None
  }

  ghost predicate RunningIn(j: Journal, id: nat) {
    exists i :: 0 <= i < |j.actions| && j.actions[i].record.id == id && j.actions[i].record.status.Running?
  }

  lemma BeginRuns(j: Journal, record: ActionRecord, id: nat)
    requires record.status.Running?
    ensures
      var begun := BeginOutcome(j, record);
      RunningIn(begun.0, id) <==> RunningIn(j, id) || (begun.1.Ok? && id == record.id)
    ensures BeginOutcome(j, record).1.Ok? ==> !RunningIn(j, record.id)
  {
    var begun := BeginOutcome(j, record).0;
    if BeginOutcome(j, record).1.Ok? {
      assert begun.actions[|j.actions|].record.id == record.id;
      if RunningIn(j, id) {
        var i :| 0 <= i < |j.actions| && j.actions[i].record.id == id && j.actions[i].record.status.Running?;
        assert begun.actions[i] == j.actions[i];
      }
    }
  }

  lemma UpdateStops(j: Journal, id: nat, outcome: ActionStatus, summary: Option<string>, error: Option<BrowserError>,
      now: I64, other: nat)
    requires Sound(j) && RunningIn(j, id) && !outcome.Running?
    ensures
      var r := UpdateOutcome(j, id, outcome, summary, error, now).1;
      r.Ok? && r.value.id == id && r.value.status == outcome && r.value.error == error
    ensures
      RunningIn(UpdateOutcome(j, id, outcome, summary, error, now).0, other) <==> RunningIn(j, other) && other != id
  {
    var i :| 0 <= i < |j.actions| && j.actions[i].record.id == id && j.actions[i].record.status.Running?;
    var after := UpdateOutcome(j, id, outcome, summary, error, now).0;
    assert Find(j.actions, id) == Some(i) && RowSound(j.actions[i]);
    if RunningIn(j, other) && other != id {
      var k :| 0 <= k < |j.actions| && j.actions[k].record.id == other && j.actions[k].record.status.Running?;
      assert after.actions[k] == j.actions[k];
    }
  }

  predicate Begins(m: Move) {
    m.Begin? || m.HandoffBegin? || m.ReclaimBegin?
  }

  /** Between its first and its last step a call keeps its action. */
  lemma TurnKeepsAction(config: Config, v: View, m: Move)
    requires PhaseSound(v.phase) && !Begins(m) && !m.Finish?
    ensures
      var w := Turn(config, v, m);
      Owned(w.phase) == Owned(v.phase) && w.journal.actions == v.journal.actions
  {
  }

  lemma TurnBegins(config: Config, v: View, m: Move)
    requires Enabled(v.phase, m) && Begins(m)
    ensures
      var w, begun := Turn(config, v, m), BeginOutcome(v.journal, RecordOf(config, m));
      && w.journal == begun.0 && Owned(v.phase).None?
      && Owned(w.phase) == if begun.1.Ok? then Some(m.id) else None
  {
  }

  lemma TurnFinishes(config: Config, v: View, m: Move)
    requires Enabled(v.phase, m) && m.Finish?
    ensures
      var w, p := Turn(config, v, m), v.phase;
      && w.journal == UpdateOutcome(v.journal, p.id, p.outcome, p.summary, p.error, m.now).0
      && Owned(p) == Some(p.id) && Owned(w.phase).None?
  {
  }

  /** What a step does to the running actions: one more where it begins one, one less where it ends
      one. */
  lemma TurnRuns(config: Config, v: View, m: Move, id: nat)
    requires Sound(v.journal) && PhaseSound(v.phase)
    requires Owned(v.phase).Some? ==> RunningIn(v.journal, Owned(v.phase).value)
    ensures
      var w := Turn(config, v, m);
      && Sound(w.journal)
      && (RunningIn(w.journal, id) <==>
            (RunningIn(v.journal, id) && Owned(v.phase) != Some(id)) || Owned(w.phase) == Some(id))
      && (Owned(w.phase).Some? ==> Owned(v.phase) == Owned(w.phase) || !RunningIn(v.journal, Owned(w.phase).value))
  {
    if !Enabled(v.phase, m) {
    } else if Begins(m) {
      TurnBegins(config, v, m);
      BeginKeepsSound(v.journal, RecordOf(config, m));
      BeginRuns(v.journal, RecordOf(config, m), id);
    } else if m.Finish? {
      var p := v.phase;
      TurnFinishes(config, v, m);
      UpdateKeepsSound(v.journal, p.id, p.outcome, p.summary, p.error, m.now);
      UpdateStops(v.journal, p.id, p.outcome, p.summary, p.error, m.now, id);
    } else {
      TurnKeepsAction(config, v, m);
    }
  }

  /** Thread `t` has begun the action and not yet ended it. */
  predicate Owns(s: Shared, t: ThreadId, id: nat) {
    Owned(PhaseOf(s, t)) == Some(id)
  }

  /** The running actions are those of the threads, each of one thread only. */
  ghost predicate Accounted(s: Shared) {
    && Sound(s.journal)
    && (forall t: ThreadId, id: nat :: Owns(s, t, id) ==> RunningIn(s.journal, id))
    && (forall t: ThreadId, u: ThreadId, id: nat :: Owns(s, t, id) && Owns(s, u, id) ==> t == u)
    && (forall id: nat :: RunningIn(s.journal, id) ==> exists t: ThreadId :: Owns(s, t, id))
  }

  /** How one step changes the accounts of one action. */
  lemma MoveAccounts(config: Config, s: Shared, m: Move, id: nat)
    requires Accounted(s) && PhaseSound(PhaseOf(s, m.t))
    ensures
      var s' := Next(config, s, m);
      && Sound(s'.journal)
      && (forall t: ThreadId :: t != m.t ==> (Owns(s', t, id) <==> Owns(s, t, id)))
      && (RunningIn(s'.journal, id) <==> (RunningIn(s.journal, id) && !Owns(s, m.t, id)) || Owns(s', m.t, id))
      && (Owns(s', m.t, id) ==> Owns(s, m.t, id) || !RunningIn(s.journal, id))
  {
    var v := ViewOf(s, m.t);
    if Owned(v.phase).Some? {
      assert Owns(s, m.t, Owned(v.phase).value);
    }
    TurnRuns(config, v, m, id);
  }

  lemma MoveKeepsAccounts(config: Config, s: Shared, m: Move)
    requires Accounted(s) && PhaseSound(PhaseOf(s, m.t))
    ensures Accounted(Next(config, s, m))
  {
    var s' := Next(config, s, m);
    forall id: nat
      ensures forall t: ThreadId :: Owns(s', t, id) ==> RunningIn(s'.journal, id)
      ensures forall t: ThreadId, u: ThreadId :: Owns(s', t, id) && Owns(s', u, id) ==> t == u
      ensures RunningIn(s'.journal, id) ==> exists t: ThreadId :: Owns(s', t, id)
    {
      MoveAccounts(config, s, m, id);
    }
    MoveAccounts(config, s, m, 0);
  }

  lemma {:induction false} AlwaysAccounted(config: Config, moves: seq<Move>)
    ensures Accounted(After(config, moves))
  {
    if moves != [] {
      var before, m := moves[..|moves| - 1], moves[|moves| - 1];
      AlwaysAccounted(config, before);
      AlwaysSoundPhases(config, before, m.t);
      MoveKeepsAccounts(config, After(config, before), m);
    }
  }

  /** In every interleaving the journal holds a running action exactly while one thread, and no
      other, is between beginning and ending it: when its call has returned it has ended. */
  lemma RunningMeansUnderWay(config: Config, moves: seq<Move>, id: nat)
    ensures
      var s := After(config, moves);
      RunningIn(s.journal, id) <==> exists t: ThreadId :: Owns(s, t, id)
    ensures
      var s := After(config, moves);
      forall t: ThreadId, u: ThreadId :: Owns(s, t, id) && Owns(s, u, id) ==> t == u
  {
    AlwaysAccounted(config, moves);
  }

  lemma OwnedRuns(config: Config, moves: seq<Move>, t: ThreadId, id: nat)
    requires Owns(After(config, moves), t, id)
    ensures Sound(After(config, moves).journal) && RunningIn(After(config, moves).journal, id)
  {
    AlwaysAccounted(config, moves);
  }

  /** The last step of a call always ends its action, with the outcome of the call. */
  lemma FinishEndsTheAction(config: Config, moves: seq<Move>, t: ThreadId, now: I64)
    requires PhaseOf(After(config, moves), t).Finishing?
    ensures
      var s, p := After(config, moves), PhaseOf(After(config, moves), t);
      var closed := UpdateOutcome(s.journal, p.id, p.outcome, p.summary, p.error, now);
      && Next(config, s, Finish(t, now)).journal == closed.0
      && closed.1.Ok? && !RunningIn(closed.0, p.id)
      && closed.1.value.id == p.id && closed.1.value.status == p.outcome && closed.1.value.error == p.error
  {
    var s, p := After(config, moves), PhaseOf(After(config, moves), t);
    OwnedRuns(config, moves, t, p.id);
    AlwaysSoundPhases(config, moves, t);
    TurnFinishes(config, ViewOf(s, t), Finish(t, now));
    UpdateStops(s.journal, p.id, p.outcome, p.summary, p.error, now, p.id);
  }

  // ---------------------------------------------------------------- steps that undo a check

  /** A failed answer, the start or end of a close, the end of a handoff, a failed launch, a failed
      reclaim. */
  predicate TakesOut(v: View, m: Move) {
    && Enabled(v.phase, m)
    && (
      || (m.TakeAnswer? && v.phase.answer.Err?) || m.CloseStart? || m.CloseEnd? || m.HandoffEnd?
      || (m.OpenEnd? && m.launch.Err?) || (m.ReclaimEnd? && m.reply.Err?))
  }

  /** A successful launch or reclaim. */
  predicate PutsBack(v: View, m: Move) {
    Enabled(v.phase, m) && ((m.OpenEnd? && m.launch.Ok?) || (m.ReclaimEnd? && m.reply.Ok?))
  }

  /** An accepted navigation. */
  predicate Restores(config: Config, v: View, m: Move) {
    Accepts(config, v, m) && v.phase.c.NavigateTo?
  }

  lemma TurnReadiness(config: Config, v: View, m: Move)
    ensures Turn(config, v, m).state.status.Ready? <==> PutsBack(v, m) || (v.state.status.Ready? && !TakesOut(v, m))
  {
  }

  lemma TurnOrigin(config: Config, v: View, m: Move)
    ensures Turn(config, v, m).state.currentOrigin.Some? <==>
        Restores(config, v, m) || (v.state.currentOrigin.Some? && !Forgets(v, m))
  {
  }

  /** Step `k` drops something, and no later step before `n` raises it again. */
  ghost predicate DropStands(drops: nat -> bool, raises: nat -> bool, k: nat, n: nat) {
    k < n && drops(k) && forall j: nat :: k < j < n ==> !raises(j)
  }

  /** What held at `a` fails at `n` exactly when some step dropped it for good. */
  lemma {:induction false} FailsIffDropped(holds: nat -> bool, drops: nat -> bool, raises: nat -> bool, a: nat, n: nat)
    requires a <= n && holds(a)
    requires forall k: nat :: a <= k < n ==> (holds(k + 1) <==> raises(k) || (holds(k) && !drops(k)))
    requires forall k: nat :: a <= k < n && drops(k) ==> !raises(k)
    ensures !holds(n) <==> exists k: nat :: a <= k && DropStands(drops, raises, k, n)
  {
    if a < n {
      FailsIffDropped(holds, drops, raises, a, n - 1);
      if drops(n - 1) {
        assert DropStands(drops, raises, n - 1, n);
      } else if !holds(n) {
        var k: nat :| a <= k && DropStands(drops, raises, k, n - 1);
        assert DropStands(drops, raises, k, n);
      } else {
        forall k: nat | a <= k && DropStands(drops, raises, k, n) ensures false {
          assert DropStands(drops, raises, k, n - 1);
        }
      }
    }
  }

  function ReadyBefore(config: Config, moves: seq<Move>): nat -> bool {
    (k: nat) => k <= |moves| && After(config, moves[..k]).state.status.Ready?
  }

  function OriginBefore(config: Config, moves: seq<Move>): nat -> bool {
    (k: nat) => k <= |moves| && After(config, moves[..k]).state.currentOrigin.Some?
  }

  /** The moves of a run that take the session out of the ready state. */
  function Outs(config: Config, moves: seq<Move>): nat -> bool {
    (k: nat) => k < |moves| && TakesOut(Seen(config, moves, k), moves[k])
  }

  function Backs(config: Config, moves: seq<Move>): nat -> bool {
    (k: nat) => k < |moves| && PutsBack(Seen(config, moves, k), moves[k])
  }

  /** The moves of a run that forget the origin. */
  function Forgettings(config: Config, moves: seq<Move>): nat -> bool {
    (k: nat) => k < |moves| && Forgets(Seen(config, moves, k), moves[k])
  }

  function Restorings(config: Config, moves: seq<Move>): nat -> bool {
    (k: nat) => k < |moves| && Restores(config, Seen(config, moves, k), moves[k])
  }

  lemma ReadinessMoves(config: Config, moves: seq<Move>, k: nat)
    requires k < |moves|
    ensures ReadyBefore(config, moves)(k + 1) <==>
        Backs(config, moves)(k) || (ReadyBefore(config, moves)(k) && !Outs(config, moves)(k))
    ensures Outs(config, moves)(k) ==> !Backs(config, moves)(k)
  {
    NextMove(config, moves, k);
    TurnReadiness(config, Seen(config, moves, k), moves[k]);
  }

  lemma OriginMoves(config: Config, moves: seq<Move>, k: nat)
    requires k < |moves|
    ensures OriginBefore(config, moves)(k + 1) <==>
        Restorings(config, moves)(k) || (OriginBefore(config, moves)(k) && !Forgettings(config, moves)(k))
    ensures Forgettings(config, moves)(k) ==> !Restorings(config, moves)(k)
  {
    NextMove(config, moves, k);
    TurnOrigin(config, Seen(config, moves, k), moves[k]);
  }

  lemma ReadyUnlessTakenOut(config: Config, moves: seq<Move>, a: nat, n: nat)
    requires a <= n <= |moves| && ReadyBefore(config, moves)(a)
    ensures !ReadyBefore(config, moves)(n) <==>
        exists k: nat :: a <= k && DropStands(Outs(config, moves), Backs(config, moves), k, n)
  {
    forall k: nat | a <= k < n
      ensures ReadyBefore(config, moves)(k + 1) <==>
          Backs(config, moves)(k) || (ReadyBefore(config, moves)(k) && !Outs(config, moves)(k))
      ensures Outs(config, moves)(k) ==> !Backs(config, moves)(k)
    {
      ReadinessMoves(config, moves, k);
    }
    FailsIffDropped(ReadyBefore(config, moves), Outs(config, moves), Backs(config, moves), a, n);
  }

  lemma OriginUnlessForgotten(config: Config, moves: seq<Move>, a: nat, n: nat)
    requires a <= n <= |moves| && OriginBefore(config, moves)(a)
    ensures !OriginBefore(config, moves)(n) <==>
        exists k: nat :: a <= k && DropStands(Forgettings(config, moves), Restorings(config, moves), k, n)
  {
    forall k: nat | a <= k < n
      ensures OriginBefore(config, moves)(k + 1) <==>
          Restorings(config, moves)(k) || (OriginBefore(config, moves)(k) && !Forgettings(config, moves)(k))
      ensures Forgettings(config, moves)(k) ==> !Restorings(config, moves)(k)
    {
      OriginMoves(config, moves, k);
    }
    FailsIffDropped(OriginBefore(config, moves), Forgettings(config, moves), Restorings(config, moves), a, n);
  }

  // ---------------------------------------------------------------- a command between its checks and the adapter

  /** Move `c` is the status check thread `t` passed, and up to move `d` it did nothing else. */
  ghost predicate StatusChecked(config: Config, moves: seq<Move>, c: nat, d: nat, t: ThreadId)
    requires c < d < |moves|
  {
    && moves[c].CheckStatus? && moves[c].t == t && PhaseOf(After(config, moves[..c]), t).Begun?
    && forall k: nat :: c < k <= d ==> PhaseOf(After(config, moves[..k]), t).Admitted?
  }

  /** Move `d` is the command check thread `t` passed, and up to move `n` it did nothing else. */
  ghost predicate CommandChecked(config: Config, moves: seq<Move>, d: nat, n: nat, t: ThreadId)
    requires d < n < |moves|
  {
    && moves[d].CheckCommand? && moves[d].t == t
    && PhaseOf(After(config, moves[..n]), t).Cleared?
    && forall k: nat :: d < k <= n ==> PhaseOf(After(config, moves[..k]), t) == PhaseOf(After(config, moves[..n]), t)
  }

  /** Thread `t` checks status and command at `c` and `d` and passes the command on at `n`. */
  ghost predicate Forwarding(config: Config, moves: seq<Move>, c: nat, d: nat, n: nat, t: ThreadId) {
    && c < d < n < |moves| && moves[n].Forward? && moves[n].t == t
    && StatusChecked(config, moves, c, d, t) && CommandChecked(config, moves, d, n, t)
  }

  lemma AdmittedWhenReady(config: Config, v: View, m: Move)
    requires m.CheckStatus? && v.phase.Begun? && Turn(config, v, m).phase.Admitted?
    ensures Turn(config, v, m).state.status.Ready?
  {
  }

  lemma ClearedWithOrigin(config: Config, v: View, m: Move)
    requires m.CheckCommand? && v.phase.Admitted? && Turn(config, v, m).phase.Cleared?
    ensures Turn(config, v, m).phase.c.NavigateTo? || Turn(config, v, m).state.currentOrigin.Some?
  {
  }

  lemma PassedStatusCheck(config: Config, moves: seq<Move>, c: nat, d: nat, t: ThreadId)
    requires c < d < |moves| && StatusChecked(config, moves, c, d, t)
    ensures ReadyBefore(config, moves)(c + 1)
  {
    NextMove(config, moves, c);
    assert PhaseOf(After(config, moves[..c + 1]), t).Admitted?;
    AdmittedWhenReady(config, Seen(config, moves, c), moves[c]);
  }

  lemma PassedCommandCheck(config: Config, moves: seq<Move>, c: nat, d: nat, n: nat, t: ThreadId)
    requires Forwarding(config, moves, c, d, n, t) && !Seen(config, moves, n).phase.c.NavigateTo?
    ensures OriginBefore(config, moves)(d + 1)
  {
    NextMove(config, moves, d);
    assert PhaseOf(After(config, moves[..d]), t).Admitted?;
    assert PhaseOf(After(config, moves[..d + 1]), t) == PhaseOf(After(config, moves[..n]), t);
    ClearedWithOrigin(config, Seen(config, moves, d), moves[d]);
  }

  lemma CheckedThreadUndoesNothing(v: View, m: Move)
    requires v.phase.Admitted? || v.phase.Cleared?
    ensures !TakesOut(v, m) && !Forgets(v, m)
  {
  }

  /** While its command is under way a thread undoes none of its checks. */
  lemma UndoneByAnother(config: Config, moves: seq<Move>, c: nat, d: nat, n: nat, t: ThreadId, k: nat)
    requires Forwarding(config, moves, c, d, n, t) && c < k < n
    requires Outs(config, moves)(k) || Forgettings(config, moves)(k)
    ensures moves[k].t != t
  {
    if moves[k].t == t {
      assert k <= d ==> PhaseOf(After(config, moves[..k]), t).Admitted?;
      assert d < k ==> PhaseOf(After(config, moves[..k]), t) == PhaseOf(After(config, moves[..n]), t);
      CheckedThreadUndoesNothing(Seen(config, moves, k), moves[k]);
    }
  }

  /** Another thread took the session out of the ready state after move `c`, and none put it back. */
  ghost predicate TakenOut(config: Config, moves: seq<Move>, c: nat, n: nat, t: ThreadId)
    requires n <= |moves|
  {
    exists k: nat ::
      c < k < n && moves[k].t != t && DropStands(Outs(config, moves), Backs(config, moves), k, n)
  }

  /** Another thread made the runtime forget the origin after move `d`, and no navigation has been
      accepted since. */
  ghost predicate OriginLost(config: Config, moves: seq<Move>, d: nat, n: nat, t: ThreadId)
    requires n <= |moves|
  {
    exists k: nat ::
      d < k < n && moves[k].t != t && DropStands(Forgettings(config, moves), Restorings(config, moves), k, n)
  }

  /** The guard of the adapter fails for a command that passed its checks if and only if another
      thread took the session out of the ready state since the status check, or the command needs
      an origin and another thread made the runtime forget it since the command check. */
  lemma GuardFailsIff(config: Config, moves: seq<Move>, c: nat, d: nat, n: nat, t: ThreadId)
    requires Forwarding(config, moves, c, d, n, t)
    ensures
      var s, command := After(config, moves[..n]), Seen(config, moves, n).phase.c;
      var call := Executed(command, s.state.status, s.state.currentOrigin);
      && After(config, moves[..n + 1]).calls == s.calls + [call]
      && (!BrowserRuns.Permitted(config, call) <==>
            TakenOut(config, moves, c, n, t) || (!command.NavigateTo? && OriginLost(config, moves, d, n, t)))
  {
    PassedStatusCheck(config, moves, c, d, t);
    GuardHoldsIff(config, moves, n);
    TakenOutIff(config, moves, c, d, n, t);
    if !Seen(config, moves, n).phase.c.NavigateTo? {
      PassedCommandCheck(config, moves, c, d, n, t);
      OriginLostIff(config, moves, c, d, n, t);
    }
  }

  lemma TakenOutIff(config: Config, moves: seq<Move>, c: nat, d: nat, n: nat, t: ThreadId)
    requires Forwarding(config, moves, c, d, n, t) && ReadyBefore(config, moves)(c + 1)
    ensures TakenOut(config, moves, c, n, t) <==> !ReadyBefore(config, moves)(n)
  {
    ReadyUnlessTakenOut(config, moves, c + 1, n);
    forall k: nat | c < k < n && Outs(config, moves)(k) ensures moves[k].t != t {
      UndoneByAnother(config, moves, c, d, n, t, k);
    }
  }

  lemma OriginLostIff(config: Config, moves: seq<Move>, c: nat, d: nat, n: nat, t: ThreadId)
    requires Forwarding(config, moves, c, d, n, t) && OriginBefore(config, moves)(d + 1)
    ensures OriginLost(config, moves, d, n, t) <==> !OriginBefore(config, moves)(n)
  {
    OriginUnlessForgotten(config, moves, d + 1, n);
    forall k: nat | d < k < n && Forgettings(config, moves)(k) ensures moves[k].t != t {
      UndoneByAnother(config, moves, c, d, n, t, k);
    }
  }

  /** The policy is checked for good, so the guard comes down to readiness and the origin. */
  lemma GuardHoldsIff(config: Config, moves: seq<Move>, n: nat)
    requires n < |moves| && moves[n].Forward? && Seen(config, moves, n).phase.Cleared?
    ensures
      var s, command := After(config, moves[..n]), Seen(config, moves, n).phase.c;
      var call := Executed(command, s.state.status, s.state.currentOrigin);
      && After(config, moves[..n + 1]).calls == s.calls + [call]
      && (BrowserRuns.Permitted(config, call) <==>
            ReadyBefore(config, moves)(n) && (command.NavigateTo? || OriginBefore(config, moves)(n)))
  {
    NextMove(config, moves, n);
    PolicyHoldsInEveryInterleaving(config, moves[..n]);
    assert PhaseAllowed(config, PhaseOf(After(config, moves[..n]), moves[n].t));
  }

  /** A thread that no other overtakes passes its command on under the guard. */
  lemma AloneIsGuarded(config: Config, moves: seq<Move>, c: nat, d: nat, n: nat, t: ThreadId)
    requires Forwarding(config, moves, c, d, n, t)
    requires forall k :: c < k < n ==> moves[k].t == t
    ensures
      var s := After(config, moves[..n]);
      BrowserRuns.Permitted(config, Executed(Seen(config, moves, n).phase.c, s.state.status, s.state.currentOrigin))
  {
    GuardFailsIff(config, moves, c, d, n, t);
  }

  lemma TurnsToChecked(config: Config, v: View, m: Move)
    requires PhaseSound(v.phase)
    ensures
      var w := Turn(config, v, m);
      && (w.phase.Admitted? ==> v.phase.Admitted? || (m.CheckStatus? && v.phase.Begun?))
      && (w.phase.Cleared? ==> v.phase == w.phase || (m.CheckCommand? && v.phase.Admitted?))
  {
  }

  lemma CheckedStep(config: Config, moves: seq<Move>, k: nat, t: ThreadId)
    requires k < |moves|
    ensures
      var p, q := PhaseOf(After(config, moves[..k]), t), PhaseOf(After(config, moves[..k + 1]), t);
      && (q.Admitted? ==> p.Admitted? || (moves[k].t == t && moves[k].CheckStatus? && p.Begun?))
      && (q.Cleared? ==> p == q || (moves[k].t == t && moves[k].CheckCommand? && p.Admitted?))
  {
    NextMove(config, moves, k);
    AlwaysSoundPhases(config, moves[..k], t);
    if moves[k].t == t {
      TurnsToChecked(config, Seen(config, moves, k), moves[k]);
    }
  }

  lemma StillAdmitted(config: Config, moves: seq<Move>, c: nat, d: nat, t: ThreadId)
    requires c + 1 < d < |moves| && StatusChecked(config, moves, c, d - 1, t)
    requires PhaseOf(After(config, moves[..d]), t).Admitted?
    ensures StatusChecked(config, moves, c, d, t)
  {
    forall k: nat | c < k <= d ensures PhaseOf(After(config, moves[..k]), t).Admitted? {
      assert k < d ==> PhaseOf(After(config, moves[..k]), t).Admitted?;
    }
  }

  lemma {:induction false} AdmittedSince(config: Config, moves: seq<Move>, d: nat, t: ThreadId)
    requires d < |moves| && PhaseOf(After(config, moves[..d]), t).Admitted?
    ensures exists c: nat :: c < d && StatusChecked(config, moves, c, d, t)
  {
    assert d > 0;
    CheckedStep(config, moves, d - 1, t);
    if PhaseOf(After(config, moves[..d - 1]), t).Admitted? {
      AdmittedSince(config, moves, d - 1, t);
      var c: nat :| c < d - 1 && StatusChecked(config, moves, c, d - 1, t);
      StillAdmitted(config, moves, c, d, t);
    } else {
      assert StatusChecked(config, moves, d - 1, d, t);
    }
  }

  lemma StillChecked(config: Config, moves: seq<Move>, d: nat, n: nat, t: ThreadId)
    requires d + 1 < n < |moves| && CommandChecked(config, moves, d, n - 1, t)
    requires PhaseOf(After(config, moves[..n - 1]), t) == PhaseOf(After(config, moves[..n]), t)
    ensures CommandChecked(config, moves, d, n, t)
  {
    forall k: nat | d < k <= n ensures PhaseOf(After(config, moves[..k]), t) == PhaseOf(After(config, moves[..n]), t) {
      assert k < n ==> PhaseOf(After(config, moves[..k]), t) == PhaseOf(After(config, moves[..n - 1]), t);
    }
  }

  lemma {:induction false} ClearedSince(config: Config, moves: seq<Move>, n: nat, t: ThreadId)
    requires n < |moves| && PhaseOf(After(config, moves[..n]), t).Cleared?
    ensures exists d: nat ::
        && d < n && CommandChecked(config, moves, d, n, t)
        && PhaseOf(After(config, moves[..d]), t).Admitted?
  {
    assert n > 0;
    CheckedStep(config, moves, n - 1, t);
    if PhaseOf(After(config, moves[..n - 1]), t).Cleared? {
      ClearedSince(config, moves, n - 1, t);
      var d: nat :| d < n - 1 && CommandChecked(config, moves, d, n - 1, t)
          && PhaseOf(After(config, moves[..d]), t).Admitted?;
      StillChecked(config, moves, d, n, t);
    } else {
      assert CommandChecked(config, moves, n - 1, n, t);
    }
  }

  /** Every command the adapter is given was checked before, status first. */
  lemma EveryCommandWasChecked(config: Config, moves: seq<Move>, n: nat)
    requires n < |moves| && moves[n].Forward? && Seen(config, moves, n).phase.Cleared?
    ensures exists c: nat, d: nat :: Forwarding(config, moves, c, d, n, moves[n].t)
  {
    var t := moves[n].t;
    ClearedSince(config, moves, n, t);
    var d: nat :| d < n && CommandChecked(config, moves, d, n, t) && PhaseOf(After(config, moves[..d]), t).Admitted?;
    AdmittedSince(config, moves, d, t);
    var c: nat :| c < d && StatusChecked(config, moves, c, d, t);
    assert Forwarding(config, moves, c, d, n, t);
  }

  // ---------------------------------------------------------------- two runs in which the guard fails

  /** Thread `t` has moved on and sees `v`; the other threads stand where they stood. */
  ghost predicate MovedTo(s: Shared, s': Shared, t: ThreadId, v: View) {
    ViewOf(s', t) == v && forall u: ThreadId :: u != t ==> PhaseOf(s', u) == PhaseOf(s, u)
  }

  lemma OneMore(config: Config, moves: seq<Move>, m: Move)
    ensures
      var s, s' := After(config, moves), After(config, moves + [m]);
      MovedTo(s, s', m.t, Turn(config, ViewOf(s, m.t), m))
  {
    assert (moves + [m])[..|moves|] == moves;
  }

  lemma TwoMore(config: Config, moves: seq<Move>, a: Move, b: Move)
    requires a.t == b.t
    ensures
      var s, s' := After(config, moves), After(config, moves + [a, b]);
      MovedTo(s, s', a.t, Turn(config, Turn(config, ViewOf(s, a.t), a), b))
  {
    OneMore(config, moves, a);
    OneMore(config, moves + [a], b);
    assert moves + [a] + [b] == moves + [a, b];
  }

  lemma ThreeMore(config: Config, moves: seq<Move>, a: Move, b: Move, c: Move)
    requires a.t == b.t == c.t
    ensures
      var s, s' := After(config, moves), After(config, moves + [a, b, c]);
      MovedTo(s, s', a.t, Turn(config, Turn(config, Turn(config, ViewOf(s, a.t), a), b), c))
  {
    TwoMore(config, moves, a, b);
    OneMore(config, moves + [a, b], c);
    assert moves + [a, b] + [c] == moves + [a, b, c];
  }

  /** The steps of thread `t` that open the session. */
  function Launch(t: ThreadId): seq<Move> {
    [OpenStart(t), MarkRow(t, 0), OpenEnd(t, Ok(()), 0)]
  }

  /** The steps of thread `t` that close it. */
  function Shut(t: ThreadId): seq<Move> {
    [CloseStart(t), CloseEnd(t, Ok(()), 0)]
  }

  /** The steps of thread `t` up to the end of its checks. */
  function Checks(t: ThreadId, id: nat, c: Command): seq<Move> {
    [Begin(t, id, c, None, 0, 0), CheckStatus(t, true), CheckCommand(t)]
  }

  /** The adapter answers, and the thread finishes its call. */
  function Answers(t: ThreadId): seq<Move> {
    [Forward(t, Ok(UnitAnswer)), TakeAnswer(t), Finish(t, 0)]
  }

  lemma LaunchTurns(config: Config, v: View, t: ThreadId)
    requires v.phase.Idle? && Startable(v.state.status)
    ensures Turn(config, Turn(config, Turn(config, v, OpenStart(t)), MarkRow(t, 0)), OpenEnd(t, Ok(()), 0))
      == View(v.state.(status := Ready, currentOrigin := None),
           UpsertOutcome(UpsertOutcome(v.journal, config.sessionId, Starting, 0), config.sessionId, Ready, 0),
           Idle, v.calls)
  {
  }

  lemma LaunchRuns(config: Config, moves: seq<Move>, t: ThreadId)
    requires
      var s := After(config, moves);
      Startable(s.state.status) && PhaseOf(s, t).Idle?
    ensures
      var s, s' := After(config, moves), After(config, moves + Launch(t));
      && s'.state == s.state.(status := Ready, currentOrigin := None) && s'.calls == s.calls
      && s'.journal.actions == s.journal.actions
      && MovedTo(s, s', t, ViewOf(s', t).(phase := Idle))
  {
    LaunchTurns(config, ViewOf(After(config, moves), t), t);
    ThreeMore(config, moves, OpenStart(t), MarkRow(t, 0), OpenEnd(t, Ok(()), 0));
  }

  lemma ShutTurns(config: Config, v: View, t: ThreadId)
    requires v.phase.Idle? && v.state.status.Ready?
    ensures Turn(config, Turn(config, v, CloseStart(t)), CloseEnd(t, Ok(()), 0))
      == View(v.state.(status := Closed, currentOrigin := None), UpsertOutcome(v.journal, config.sessionId, Closed, 0),
           Idle, v.calls)
  {
  }

  lemma ShutRuns(config: Config, moves: seq<Move>, t: ThreadId)
    requires
      var s := After(config, moves);
      s.state.status.Ready? && PhaseOf(s, t).Idle?
    ensures
      var s, s' := After(config, moves), After(config, moves + Shut(t));
      && s'.state == s.state.(status := Closed, currentOrigin := None) && s'.calls == s.calls
      && s'.journal.actions == s.journal.actions
      && MovedTo(s, s', t, ViewOf(s', t).(phase := Idle))
  {
    ShutTurns(config, ViewOf(After(config, moves), t), t);
    TwoMore(config, moves, CloseStart(t), CloseEnd(t, Ok(()), 0));
  }

  lemma ChecksRun(config: Config, moves: seq<Move>, t: ThreadId, id: nat, c: Command)
    requires
      var s := After(config, moves);
      && s.state.status.Ready? && PhaseOf(s, t).Idle? && Find(s.journal.actions, id).None?
      && CommandRefusal(config, s.state.currentOrigin, c).None?
    ensures
      var s, s' := After(config, moves), After(config, moves + Checks(t, id, c));
      && s'.state == s.state && s'.calls == s.calls
      && s'.journal == BeginOutcome(s.journal, RecordOf(config, Begin(t, id, c, None, 0, 0))).0
      && MovedTo(s, s', t, ViewOf(s', t).(phase := Cleared(id, c)))
  {
    var begin := Begin(t, id, c, None, 0, 0);
    ChecksInOneGo(config, ViewOf(After(config, moves), t), begin, true);
    ThreeMore(config, moves, begin, CheckStatus(t, true), CheckCommand(t));
  }

  lemma AnswersTurns(config: Config, v: View, t: ThreadId, id: nat, o: nat)
    requires v.phase == Cleared(id, NavigateTo(Some(o), None))
    ensures
      var w := Turn(config, Turn(config, Turn(config, v, Forward(t, Ok(UnitAnswer))), TakeAnswer(t)), Finish(t, 0));
      && w.phase.Idle?
      && w.state == v.state.(currentOrigin := Some(o), generation := SatAddU64(v.state.generation, 1))
      && w.journal == UpdateOutcome(v.journal, id, Completed, Some("navigate"), None, 0).0
  {
    AnswerTaken(config, v, t, Ok(UnitAnswer));
    FinishingEnds(config, Turn(config, Turn(config, v, Forward(t, Ok(UnitAnswer))), TakeAnswer(t)), t, 0);
  }

  lemma AnswersRun(config: Config, moves: seq<Move>, t: ThreadId, id: nat, o: nat)
    requires PhaseOf(After(config, moves), t) == Cleared(id, NavigateTo(Some(o), None))
    ensures
      var s, s' := After(config, moves), After(config, moves + Answers(t));
      && s'.state == s.state.(currentOrigin := Some(o), generation := SatAddU64(s.state.generation, 1))
      && s'.journal == UpdateOutcome(s.journal, id, Completed, Some("navigate"), None, 0).0
      && MovedTo(s, s', t, ViewOf(s', t).(phase := Idle))
  {
    AnswersTurns(config, ViewOf(After(config, moves), t), t, id, o);
    ThreeMore(config, moves, Forward(t, Ok(UnitAnswer)), TakeAnswer(t), Finish(t, 0));
  }

  function Visit(o: nat): Command {
    NavigateTo(Some(o), None)
  }

  /** Thread 0 opens the session and has a navigation checked. */
  function VisitChecked(o: nat): seq<Move> {
    ([] + Launch(0)) + Checks(0, 1, Visit(o))
  }

  lemma VisitIsChecked(config: Config, o: nat)
    requires o in config.allowedOrigins
    ensures
      var s := After(config, VisitChecked(o));
      && s.state == INITIAL.(status := Ready) && s.calls == []
      && PhaseOf(s, 0) == Cleared(1, Visit(o)) && (forall t: ThreadId :: t != 0 ==> PhaseOf(s, t) == Idle)
      && |s.journal.actions| == 1 && s.journal.actions[0].record.id == 1
  {
    LaunchRuns(config, [], 0);
    ChecksRun(config, [] + Launch(0), 0, 1, Visit(o));
  }

  /** A checked navigation reaches the adapter of a session another thread has closed. */
  lemma CommandAfterClose(config: Config, o: nat)
    requires o in config.allowedOrigins
    ensures
      var closed := VisitChecked(o) + Shut(1);
      After(config, closed + [Forward(0, Ok(UnitAnswer))]).calls == [Executed(Visit(o), Closed, None)]
  {
    VisitIsChecked(config, o);
    ShutRuns(config, VisitChecked(o), 1);
    OneMore(config, VisitChecked(o) + Shut(1), Forward(0, Ok(UnitAnswer)));
  }

  /** After the navigation thread 0 has a click checked; thread 1 closes the session and opens it
      again. */
  function ClickOvertaken(o: nat): seq<Move> {
    (((VisitChecked(o) + Answers(0)) + Checks(0, 2, ClickOn(7))) + Shut(1)) + Launch(1)
  }

  lemma VisitedThenChecked(config: Config, o: nat)
    requires o in config.allowedOrigins
    ensures
      var s := After(config, (VisitChecked(o) + Answers(0)) + Checks(0, 2, ClickOn(7)));
      && s.state.status.Ready? && PhaseOf(s, 0) == Cleared(2, ClickOn(7)) && PhaseOf(s, 1) == Idle
  {
    VisitIsChecked(config, o);
    AnswersRun(config, VisitChecked(o), 0, 1, o);
    assert Find(After(config, VisitChecked(o) + Answers(0)).journal.actions, 2).None?;
    ChecksRun(config, VisitChecked(o) + Answers(0), 0, 2, ClickOn(7));
  }

  lemma ClickIsOvertaken(config: Config, o: nat)
    requires o in config.allowedOrigins
    ensures
      var s := After(config, ClickOvertaken(o));
      s.state.status.Ready? && s.state.currentOrigin.None? && PhaseOf(s, 0) == Cleared(2, ClickOn(7))
  {
    var clicking := (VisitChecked(o) + Answers(0)) + Checks(0, 2, ClickOn(7));
    VisitedThenChecked(config, o);
    ShutRuns(config, clicking, 1);
    LaunchRuns(config, clicking + Shut(1), 1);
  }

  /** A checked click reaches a ready session that has no origin any more. */
  lemma ClickWithoutOrigin(config: Config, o: nat)
    requires o in config.allowedOrigins
    ensures
      var s := After(config, ClickOvertaken(o));
      var call := Executed(ClickOn(7), Ready, None);
      && After(config, ClickOvertaken(o) + [Forward(0, Ok(UnitAnswer))]).calls == s.calls + [call]
      && !BrowserRuns.Permitted(config, call)
  {
    ClickIsOvertaken(config, o);
    OneMore(config, ClickOvertaken(o), Forward(0, Ok(UnitAnswer)));
  }
}
