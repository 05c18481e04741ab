/** Runs of the browser runtime: complete calls in any order with any adapter answers, processes
    that die in the middle of a call, and recovery afterwards. */
module BrowserRuns {
  import opened Prelude
  import opened BrowserJournal
  import opened BrowserRuntime
  import opened Numbering
  import Ordering

  // ---------------------------------------------------------------- one action, from begin to end

  /** Nothing is running. */
  ghost predicate Quiet(actions: seq<ActionRow>) {
    forall i :: 0 <= i < |actions| ==> !actions[i].status.Running?
  }

  /** The journal once an action is begun. */
  ghost predicate JustBegun(was: seq<ActionRow>, now: Journal, id: nat) {
    && |now.actions| == |was| + 1 && now.actions[..|was|] == was
    && now.actions[|was|].record.id == id
    && now.actions[|was|].record.status.Running? && now.actions[|was|].status.Running?
  }

  /** The action begun last is closed, in the state and with the error that were reported. */
  ghost predicate JustEnded(was: seq<ActionRow>, now: seq<ActionRow>, id: nat, error: Option<BrowserError>) {
    && |now| == |was| + 1 && now[..|was|] == was
    && now[|was|].record.id == id && now[|was|].record.error == error && now[|was|].record.completedAt.Some?
    && now[|was|].status == (if error.None? then Completed else Failed)
  }

  lemma BeginBegins(j: Journal, record: ActionRecord)
    requires Fresh(record)
    ensures BeginOutcome(j, record).1.Ok? ==> JustBegun(j.actions, BeginOutcome(j, record).0, record.id)
    ensures BeginOutcome(j, record).0.sessions == j.sessions
    ensures BeginOutcome(j, record).1.Err? <==> exists i :: 0 <= i < |j.actions| && j.actions[i].record.id == record.id
  {
  }

  lemma UpdateEnds(was: seq<ActionRow>, j: Journal, id: nat, status: ActionStatus, summary: Option<string>,
      error: Option<BrowserError>, now: I64)
    requires JustBegun(was, j, id)
    requires status == if error.None? then Completed else Failed
    ensures UpdateOutcome(j, id, status, summary, error, now).1.Ok?
    ensures JustEnded(was, UpdateOutcome(j, id, status, summary, error, now).0.actions, id, error)
    ensures UpdateOutcome(j, id, status, summary, error, now).0.sessions == j.sessions
  {
  }

  function ErrorOf<T>(r: Result<T, BrowserError>): Option<BrowserError> {
    if r.Err? then Some(r.error) else None
  }

  lemma PassOnEnds(config: Config, was: seq<ActionRow>, w: World, id: nat, c: Command,
      answer: Result<Answer, BrowserError>, now: I64)
    requires JustBegun(was, w.journal, id)
    ensures var r := PassOn(config, w, id, c, answer, now); JustEnded(was, r.0.journal.actions, id, ErrorOf(r.1))
    ensures
      var r := PassOn(config, w, id, c, answer, now);
      r.1
      == if answer.Err?
         then answer
         else if Objection(config, c, answer.value).Some? then Err(Objection(config, c, answer.value).value) else answer
  {
  }

  lemma HandOverEnds(config: Config, was: seq<ActionRow>, w: World, id: nat, to: SessionStatus, summary: string,
      reply: Reply, now: I64)
    requires JustBegun(was, w.journal, id)
    ensures
      var r := HandOver(config, w, id, to, summary, reply, now);
      r.1 == reply && JustEnded(was, r.0.journal.actions, id, ErrorOf(reply))
  {
    if reply.Ok? {
      assert reply.value == ();
      UpdateEnds(was, UpsertOutcome(w.journal, config.sessionId, to, now), id, Completed, Some(summary), None, now);
    } else {
      UpdateEnds(was, UpsertOutcome(w.journal, config.sessionId, NeedsReconciliation, now), id, Failed, None,
          Some(reply.error), now);
    }
  }

  /** The error of a call whose action id is already in the journal, if it is. */
  ghost predicate Known(j: Journal, id: nat) {
    exists i :: 0 <= i < |j.actions| && j.actions[i].record.id == id
  }

  /** When an execution returns, its action is in the journal and closed: completed if the call
      succeeded, failed with the error the call returned otherwise. A known action id changes
      nothing at all. No other action is touched. */
  lemma ExecuteEndsItsAction(config: Config, w: World, id: nat, c: Command, hash: nat, alive: bool,
      answer: Result<Answer, BrowserError>, now: I64)
    ensures
      var r := ExecuteOutcome(config, w, id, c, hash, alive, answer, now);
      if Known(w.journal, id)
      then r == (w, Err(DuplicateAction))
      else JustEnded(w.journal.actions, r.0.journal.actions, id, ErrorOf(r.1))
    ensures
      var r := ExecuteOutcome(config, w, id, c, hash, alive, answer, now);
      !Known(w.journal, id) ==>
        ErrorOf(r.1)
        == (if Refusal(config, w.state, alive, c).Some? then Refusal(config, w.state, alive, c)
            else if answer.Err? then Some(answer.error)
            else Objection(config, c, answer.value))
  {
    var record := ActionFor(config, w.state, id, c, hash, now);
    BeginBegins(w.journal, record);
    var begun := BeginOutcome(w.journal, record);
    if begun.1.Ok? {
      var refusal := Refusal(config, w.state, alive, c);
      if refusal.Some? {
        UpdateEnds(w.journal.actions, begun.0, id, Failed, None, refusal, now);
      } else {
        PassOnEnds(config, w.journal.actions, w.(journal := begun.0), id, c, answer, now);
      }
    }
  }

  lemma HandoffEndsItsAction(config: Config, w: World, id: nat, hash: nat, alive: bool, reply: Reply, now: I64)
    ensures
      var r := HandoffOutcome(config, w, id, hash, alive, reply, now);
      if Known(w.journal, id)
      then r == (w, Err(DuplicateAction))
      else JustEnded(w.journal.actions, r.0.journal.actions, id, ErrorOf(r.1))
  {
    var record := NewRecord(id, config.sessionId, ActionKind.Handoff, w.state.currentOrigin, None, hash, now);
    BeginBegins(w.journal, record);
    var begun := BeginOutcome(w.journal, record);
    if begun.1.Ok? {
      if !w.state.status.Ready? || !alive {
        UpdateEnds(w.journal.actions, begun.0, id, Failed, None, Some(SessionNotReady), now);
      } else {
        HandOverEnds(config, w.journal.actions, World(w.state, begun.0, w.calls + [HandedOff]), id, UserControl,
            "visible-user-control", reply, now);
      }
    }
  }

  lemma ReclaimEndsItsAction(config: Config, w: World, id: nat, hash: nat, close: Reply, launch: Reply, now: I64)
    ensures
      var r := ReclaimOutcome(config, w, id, hash, close, launch, now);
      if !w.state.status.UserControl?
      then r == (w, Err(NotInUserControl))
      else if Known(w.journal, id)
           then r == (w, Err(DuplicateAction))
           else JustEnded(w.journal.actions, r.0.journal.actions, id, ErrorOf(r.1))
  {
    var record := NewRecord(id, config.sessionId, ActionKind.Reclaim, None, None, hash, now);
    BeginBegins(w.journal, record);
    var begun := BeginOutcome(w.journal, record);
    if w.state.status.UserControl? && begun.1.Ok? {
      var closing := World(w.state, begun.0, w.calls + RelaunchCalls(close));
      HandOverEnds(config, w.journal.actions, closing, id, Ready, "agent-control-restored",
          if close.Ok? then launch else close, now);
    }
  }

  // ---------------------------------------------------------------- runs

  datatype Event =
    | OpenCall(launch: Reply, now: I64)
    | ExecuteCall(id: nat, c: Command, hash: nat, alive: bool, answer: Result<Answer, BrowserError>, now: I64)
    | CloseCall(reply: Reply, now: I64)
    | HandoffCall(id: nat, hash: nat, alive: bool, reply: Reply, now: I64)
    | ReclaimCall(id: nat, hash: nat, close: Reply, launch: Reply, now: I64)
    | DieInExecute(id: nat, c: Command, hash: nat, alive: bool, marked: bool, now: I64)
    | DieInTransition(written: seq<Op>)
    | RecoverCall(now: I64)

  /** The process dies after journaling an action and, if it got that far, passing it on; `marked`
      if the adapter failed and the session row was already set to reconciliation. */
  function Died(config: Config, w: World, id: nat, c: Command, hash: nat, alive: bool, marked: bool, now: I64): World {
    var begun := BeginOutcome(w.journal, ActionFor(config, w.state, id, c, hash, now));
    var passedOn := begun.1.Ok? && Refusal(config, w.state, alive, c).None?;
    World(INITIAL,
      if passedOn && marked then UpsertOutcome(begun.0, config.sessionId, NeedsReconciliation, now) else begun.0,
      if passedOn then w.calls + [Executed(c, w.state.status, w.state.currentOrigin)] else w.calls)
  }

  function Step(config: Config, w: World, e: Event): World {
    match e
    case OpenCall(launch, now) => OpenOutcome(config, w, launch, now).0
    case ExecuteCall(id, c, hash, alive, answer, now) => ExecuteOutcome(config, w, id, c, hash, alive, answer, now).0
    case CloseCall(reply, now) => CloseOutcome(config, w, reply, now).0
    case HandoffCall(id, hash, alive, reply, now) => HandoffOutcome(config, w, id, hash, alive, reply, now).0
    case ReclaimCall(id, hash, close, launch, now) => ReclaimOutcome(config, w, id, hash, close, launch, now).0
    case DieInExecute(id, c, hash, alive, marked, now) => Died(config, w, id, c, hash, alive, marked, now)
    case DieInTransition(written) => World(INITIAL, BrowserJournal.From(w.journal, written), w.calls)
    case RecoverCall(now) => w.(journal := RecoverOutcome(w.journal, now))
  }

  function Onward(config: Config, w: World, events: seq<Event>): World {
    if events == [] then w else Step(config, Onward(config, w, events[..|events| - 1]), events[|events| - 1])
  }

  const START: World := World(INITIAL, EMPTY, [])

  function After(config: Config, events: seq<Event>): World {
    Onward(config, START, events)
  }

  /** What the transfer and secrecy policy allows to reach the adapter. */
  ghost predicate WithinPolicy(config: Config, c: Command) {
    match c
    case TypeInto(_, text, classification) => !classification.UserSecret? && |text| <= 16384 && '\0' !in text
    case UploadTo(_, path) =>
      config.allowUploads && path.Some? && exists root :: root in config.uploadRoots && root <= path.value
    case DownloadFrom(_) => config.allowDownloads
    case _ => true
  }

  /** The adapter is given a command only by a ready session on an allowed origin, within the
      policy; a navigation must itself lead to an allowed origin. */
  ghost predicate Permitted(config: Config, call: AdapterCall) {
    call.Executed? ==>
      && call.status.Ready?
      && WithinPolicy(config, call.command)
      && var origin := if call.command.NavigateTo? then call.command.origin else call.origin;
         origin.Some? && origin.value in config.allowedOrigins
  }

  ghost predicate Safe(config: Config, w: World) {
    && (w.state.currentOrigin.Some? ==> w.state.currentOrigin.value in config.allowedOrigins)
    && (w.state.status.Closed? || w.state.status.UserControl? ==> w.state.currentOrigin.None?)
    && !w.state.status.Starting? && !w.state.status.Closing?
    && forall i :: 0 <= i < |w.calls| ==> Permitted(config, w.calls[i])
  }

  lemma PassOnIsSafe(config: Config, w: World, id: nat, c: Command, alive: bool, answer: Result<Answer, BrowserError>,
      now: I64)
    requires Safe(config, w) && Refusal(config, w.state, alive, c).None?
    ensures Safe(config, PassOn(config, w, id, c, answer, now).0)
  {
    assert Permitted(config, Executed(c, w.state.status, w.state.currentOrigin));
  }

  lemma ExecuteIsSafe(config: Config, w: World, id: nat, c: Command, hash: nat, alive: bool,
      answer: Result<Answer, BrowserError>, now: I64)
    requires Safe(config, w)
    ensures Safe(config, ExecuteOutcome(config, w, id, c, hash, alive, answer, now).0)
  {
    var begun := BeginOutcome(w.journal, ActionFor(config, w.state, id, c, hash, now));
    if Refusal(config, w.state, alive, c).None? {
      PassOnIsSafe(config, w.(journal := begun.0), id, c, alive, answer, now);
    }
  }

  lemma StepIsSafe(config: Config, w: World, e: Event)
    requires Safe(config, w)
    ensures Safe(config, Step(config, w, e))
  {
    match e {
      case OpenCall(launch, now) =>
      case ExecuteCall(id, c, hash, alive, answer, now) => ExecuteIsSafe(config, w, id, c, hash, alive, answer, now);
      case CloseCall(reply, now) =>
      case HandoffCall(id, hash, alive, reply, now) =>
      case ReclaimCall(id, hash, close, launch, now) =>
      case DieInExecute(id, c, hash, alive, marked, now) =>
        assert Refusal(config, w.state, alive, c).None? ==>
            Permitted(config, Executed(c, w.state.status, w.state.currentOrigin));
      case DieInTransition(written) =>
      case RecoverCall(now) =>
    }
  }

  /** In every run the adapter executes commands only for a ready session with an allowed origin,
      and the origin the runtime believes in is absent or allowed. */
  lemma {:induction false} AdapterIsGuarded(config: Config, events: seq<Event>)
    ensures Safe(config, After(config, events))
  {
    if events != [] {
      AdapterIsGuarded(config, events[..|events| - 1]);
      StepIsSafe(config, After(config, events[..|events| - 1]), events[|events| - 1]);
    }
  }

  // ---------------------------------------------------------------- the journal over a run

  ghost predicate Wellbehaved(e: Event) {
    e.DieInTransition? ==> AllProper(e.written)
  }

  predicate Dies(e: Event) {
    e.DieInExecute? || e.DieInTransition?
  }

  /** Closing the last action keeps the journal in order; so does the whole call. */
  lemma EndedStaysQuiet(was: seq<ActionRow>, now: seq<ActionRow>, id: nat, error: Option<BrowserError>)
    requires Quiet(was) && JustEnded(was, now, id, error)
    ensures Quiet(now)
  {
  }

  /** A complete call leaves no action running behind it. */
  lemma CallsStayQuiet(config: Config, w: World, e: Event)
    requires Quiet(w.journal.actions) && !Dies(e)
    ensures Quiet(Step(config, w, e).journal.actions)
  {
    match e {
      case OpenCall(launch, now) =>
      case ExecuteCall(id, c, hash, alive, answer, now) =>
        ExecuteEndsItsAction(config, w, id, c, hash, alive, answer, now);
        var r := ExecuteOutcome(config, w, id, c, hash, alive, answer, now);
        if !Known(w.journal, id) { EndedStaysQuiet(w.journal.actions, r.0.journal.actions, id, ErrorOf(r.1)); }
      case CloseCall(reply, now) =>
      case HandoffCall(id, hash, alive, reply, now) =>
        HandoffEndsItsAction(config, w, id, hash, alive, reply, now);
        var r := HandoffOutcome(config, w, id, hash, alive, reply, now);
        if !Known(w.journal, id) { EndedStaysQuiet(w.journal.actions, r.0.journal.actions, id, ErrorOf(r.1)); }
      case ReclaimCall(id, hash, close, launch, now) =>
        ReclaimEndsItsAction(config, w, id, hash, close, launch, now);
        var r := ReclaimOutcome(config, w, id, hash, close, launch, now);
        if w.state.status.UserControl? && !Known(w.journal, id) {
          EndedStaysQuiet(w.journal.actions, r.0.journal.actions, id, ErrorOf(r.1));
        }
      case RecoverCall(now) =>
    }
  }

  /** Between a recovery and the next process that dies, every action in the journal has ended. */
  lemma {:induction false} NothingIsLeftRunning(config: Config, events: seq<Event>, now: I64, more: seq<Event>)
    requires forall e :: e in more ==> !Dies(e)
    ensures Quiet(Onward(config, Step(config, After(config, events), RecoverCall(now)), more).journal.actions)
  {
    var recovered := Step(config, After(config, events), RecoverCall(now));
    assert Quiet(recovered.journal.actions);
    if more != [] {
      NothingIsLeftRunning(config, events, now, more[..|more| - 1]);
      CallsStayQuiet(config, Onward(config, recovered, more[..|more| - 1]), more[|more| - 1]);
    }
  }

  // ---------------------------------------------------------------- a run is a history of the journal

  lemma FromOne(j: Journal, a: Op)
    ensures BrowserJournal.From(j, [a]) == BrowserJournal.Step(j, a)
  {
  }

  lemma {:induction false} FromConcat(j: Journal, a: seq<Op>, b: seq<Op>)
    ensures BrowserJournal.From(j, a + b) == BrowserJournal.From(BrowserJournal.From(j, a), b)
    decreases |b|
  {
    if b == [] {
      assert a + b == a;
    } else {
      assert (a + b)[..|a + b| - 1] == a + b[..|b| - 1];
      FromConcat(j, a, b[..|b| - 1]);
    }
  }

  /** The journal writes a piece of a call amounts to. */
  ghost predicate Writes(was: Journal, now: Journal, ops: seq<Op>) {
    AllProper(ops) && now == BrowserJournal.From(was, ops)
  }

  /** Some history of proper journal operations leads from one journal to the other. */
  ghost predicate Reaches(was: Journal, now: Journal) {
    exists ops :: Writes(was, now, ops)
  }

  lemma ReachesOn(a: Journal, b: Journal, op: Op)
    requires Reaches(a, b) && Proper(op)
    ensures Reaches(a, BrowserJournal.Step(b, op))
  {
    var ops :| Writes(a, b, ops);
    FromConcat(a, ops, [op]);
    FromOne(b, op);
    assert Writes(a, BrowserJournal.Step(b, op), ops + [op]);
  }

  lemma ReachesSelf(j: Journal)
    ensures Reaches(j, j)
  {
    assert Writes(j, j, []);
  }

  lemma ExecuteReaches(config: Config, w: World, id: nat, c: Command, hash: nat, alive: bool,
      answer: Result<Answer, BrowserError>, now: I64)
    ensures Reaches(w.journal, ExecuteOutcome(config, w, id, c, hash, alive, answer, now).0.journal)
  {
    var record := ActionFor(config, w.state, id, c, hash, now);
    var begun := BeginOutcome(w.journal, record);
    ReachesSelf(w.journal);
    ReachesOn(w.journal, w.journal, BeginOp(record));
    var refusal := Refusal(config, w.state, alive, c);
    if begun.1.Ok? {
      if refusal.Some? {
        ReachesOn(w.journal, begun.0, UpdateOp(id, Failed, None, refusal, now));
      } else if answer.Err? {
        ReachesOn(w.journal, begun.0, UpsertOp(config.sessionId, NeedsReconciliation, now));
        ReachesOn(w.journal, UpsertOutcome(begun.0, config.sessionId, NeedsReconciliation, now), UpdateOp(id, Failed,
            None, Some(answer.error), now));
      } else {
        ReachesOn(w.journal, begun.0, UpdateOp(id, Failed, None, Objection(config, c, answer.value), now));
        ReachesOn(w.journal, begun.0, UpdateOp(id, Completed, Some(Summary(c)), None, now));
      }
    }
  }

  lemma HandOverReaches(config: Config, start: Journal, w: World, id: nat, to: SessionStatus, summary: string,
      reply: Reply, now: I64)
    requires Reaches(start, w.journal)
    ensures Reaches(start, HandOver(config, w, id, to, summary, reply, now).0.journal)
  {
    if reply.Ok? {
      ReachesOn(start, w.journal, UpsertOp(config.sessionId, to, now));
      ReachesOn(start, UpsertOutcome(w.journal, config.sessionId, to, now), UpdateOp(id, Completed, Some(summary), None,
          now));
    } else {
      ReachesOn(start, w.journal, UpsertOp(config.sessionId, NeedsReconciliation, now));
      ReachesOn(start, UpsertOutcome(w.journal, config.sessionId, NeedsReconciliation, now), UpdateOp(id, Failed, None,
          Some(reply.error), now));
    }
  }

  lemma HandoffReaches(config: Config, w: World, id: nat, hash: nat, alive: bool, reply: Reply, now: I64)
    ensures Reaches(w.journal, HandoffOutcome(config, w, id, hash, alive, reply, now).0.journal)
  {
    var record := NewRecord(id, config.sessionId, ActionKind.Handoff, w.state.currentOrigin, None, hash, now);
    var begun := BeginOutcome(w.journal, record);
    ReachesSelf(w.journal);
    ReachesOn(w.journal, w.journal, BeginOp(record));
    ReachesOn(w.journal, begun.0, UpdateOp(id, Failed, None, Some(SessionNotReady), now));
    HandOverReaches(config, w.journal, World(w.state, begun.0, w.calls + [HandedOff]), id, UserControl,
        "visible-user-control", reply, now);
  }

  lemma ReclaimReaches(config: Config, w: World, id: nat, hash: nat, close: Reply, launch: Reply, now: I64)
    ensures Reaches(w.journal, ReclaimOutcome(config, w, id, hash, close, launch, now).0.journal)
  {
    var record := NewRecord(id, config.sessionId, ActionKind.Reclaim, None, None, hash, now);
    var begun := BeginOutcome(w.journal, record);
    ReachesSelf(w.journal);
    ReachesOn(w.journal, w.journal, BeginOp(record));
    var closing := World(w.state, begun.0, w.calls + RelaunchCalls(close));
    HandOverReaches(config, w.journal, closing, id, Ready, "agent-control-restored",
        if close.Ok? then launch else close, now);
  }

  lemma OpenReaches(config: Config, w: World, launch: Reply, now: I64)
    ensures Reaches(w.journal, OpenOutcome(config, w, launch, now).0.journal)
  {
    var status := if launch.Ok? then Ready else SessionFailed;
    ReachesSelf(w.journal);
    ReachesOn(w.journal, w.journal, UpsertOp(config.sessionId, Starting, now));
    ReachesOn(w.journal, UpsertOutcome(w.journal, config.sessionId, Starting, now), UpsertOp(config.sessionId, status,
        now));
  }

  lemma StepReaches(config: Config, w: World, e: Event)
    requires Wellbehaved(e)
    ensures Reaches(w.journal, Step(config, w, e).journal)
  {
    ReachesSelf(w.journal);
    match e {
      case OpenCall(launch, now) => OpenReaches(config, w, launch, now);
      case ExecuteCall(id, c, hash, alive, answer, now) => ExecuteReaches(config, w, id, c, hash, alive, answer, now);
      case CloseCall(reply, now) => ReachesOn(w.journal, w.journal, UpsertOp(config.sessionId,
          if reply.Ok? then Closed else NeedsReconciliation, now));
      case HandoffCall(id, hash, alive, reply, now) => HandoffReaches(config, w, id, hash, alive, reply, now);
      case ReclaimCall(id, hash, close, launch, now) => ReclaimReaches(config, w, id, hash, close, launch, now);
      case DieInExecute(id, c, hash, alive, marked, now) =>
        var record := ActionFor(config, w.state, id, c, hash, now);
        ReachesOn(w.journal, w.journal, BeginOp(record));
        ReachesOn(w.journal, BeginOutcome(w.journal, record).0, UpsertOp(config.sessionId, NeedsReconciliation, now));
      case DieInTransition(written) => assert Writes(w.journal, BrowserJournal.From(w.journal, written), written);
      case RecoverCall(now) => ReachesOn(w.journal, w.journal, RecoverOp(now));
    }
  }

  lemma {:induction false} RunReaches(config: Config, w: World, events: seq<Event>)
    requires forall e :: e in events ==> Wellbehaved(e)
    ensures Reaches(w.journal, Onward(config, w, events).journal)
  {
    if events == [] {
      ReachesSelf(w.journal);
    } else {
      var before, e := events[..|events| - 1], events[|events| - 1];
      RunReaches(config, w, before);
      StepReaches(config, Onward(config, w, before), e);
      ReachesTogether(w.journal, Onward(config, w, before).journal, Onward(config, w, events).journal);
    }
  }

  lemma ReachesTogether(a: Journal, b: Journal, c: Journal)
    requires Reaches(a, b) && Reaches(b, c)
    ensures Reaches(a, c)
  {
    var first :| Writes(a, b, first);
    var second :| Writes(b, c, second);
    FromConcat(a, first, second);
    assert Writes(a, c, first + second);
  }

  /** Over any run, with processes dying anywhere, an action that has ended never changes again. */
  lemma ActionsEndForGood(config: Config, events: seq<Event>, more: seq<Event>, i: nat)
    requires forall e :: e in events || e in more ==> Wellbehaved(e)
    requires var w := After(config, events); i < |w.journal.actions| && !w.journal.actions[i].status.Running?
    ensures
      var w := After(config, events);
      && i < |Onward(config, w, more).journal.actions|
      && Onward(config, w, more).journal.actions[i] == w.journal.actions[i]
  {
    var w := After(config, events);
    RunReaches(config, START, events);
    RunReaches(config, w, more);
    ReachableStaysSound(EMPTY, w.journal);
    var ops :| Writes(w.journal, Onward(config, w, more).journal, ops);
    EndedIsForever(w.journal, ops, i);
  }

  lemma ReachableStaysSound(a: Journal, b: Journal)
    requires Sound(a) && Reaches(a, b)
    ensures Sound(b)
  {
    var ops :| Writes(a, b, ops);
    StaysSound(a, ops);
  }

  /** The actions of a session are numbered 1, 2, 3 and so on in the order they were begun. */
  lemma ActionsAreNumbered(config: Config, events: seq<Event>, session: nat, k: nat)
    requires forall e :: e in events ==> Wellbehaved(e)
    requires var w := After(config, events); k < |Ordering.Filter(w.journal.actions, InLane(SessionOf, session))|
    ensures
      var w := After(config, events);
      Ordering.Filter(w.journal.actions, InLane(SessionOf, session))[k].record.sequence == k + 1
  {
    var w := After(config, events);
    RunReaches(config, START, events);
    ReachableStaysSound(EMPTY, w.journal);
    LaneRunsFromOne(w.journal.actions, SessionOf, SequenceOf, session, k);
  }

  // ---------------------------------------------------------------- the session row follows the runtime

  /** Once a session has left the closed state, its row in the journal shows the runtime's status. */
  ghost predicate Mirrors(config: Config, w: World) {
    !w.state.status.Closed? ==>
      && config.sessionId in w.journal.sessions
      && w.journal.sessions[config.sessionId].status == w.state.status
  }

  lemma UpdateKeepsSessions(j: Journal, id: nat, status: ActionStatus, summary: Option<string>,
      error: Option<BrowserError>, now: I64)
    ensures UpdateOutcome(j, id, status, summary, error, now).0.sessions == j.sessions
  {
  }

  lemma ExecuteMirrors(config: Config, w: World, id: nat, c: Command, hash: nat, alive: bool,
      answer: Result<Answer, BrowserError>, now: I64)
    requires Mirrors(config, w)
    ensures Mirrors(config, ExecuteOutcome(config, w, id, c, hash, alive, answer, now).0)
  {
    var begun := BeginOutcome(w.journal, ActionFor(config, w.state, id, c, hash, now));
    assert begun.0.sessions == w.journal.sessions;
    var refusal := Refusal(config, w.state, alive, c);
    if refusal.Some? {
      UpdateKeepsSessions(begun.0, id, Failed, None, refusal, now);
    } else if answer.Err? {
      UpdateKeepsSessions(UpsertOutcome(begun.0, config.sessionId, NeedsReconciliation, now), id, Failed, None,
          Some(answer.error), now);
    } else {
      UpdateKeepsSessions(begun.0, id, Failed, None, Objection(config, c, answer.value), now);
      UpdateKeepsSessions(begun.0, id, Completed, Some(Summary(c)), None, now);
    }
  }

  lemma HandOverMirrors(config: Config, w: World, id: nat, to: SessionStatus, summary: string, reply: Reply, now: I64)
    ensures Mirrors(config, HandOver(config, w, id, to, summary, reply, now).0)
  {
    if reply.Ok? {
      UpdateKeepsSessions(UpsertOutcome(w.journal, config.sessionId, to, now), id, Completed, Some(summary), None, now);
    } else {
      UpdateKeepsSessions(UpsertOutcome(w.journal, config.sessionId, NeedsReconciliation, now), id, Failed, None,
          Some(reply.error), now);
    }
  }

  lemma HandoffMirrors(config: Config, w: World, id: nat, hash: nat, alive: bool, reply: Reply, now: I64)
    requires Mirrors(config, w)
    ensures Mirrors(config, HandoffOutcome(config, w, id, hash, alive, reply, now).0)
  {
    var begun := BeginOutcome(w.journal, NewRecord(id, config.sessionId, ActionKind.Handoff, w.state.currentOrigin,
        None, hash, now));
    UpdateKeepsSessions(begun.0, id, Failed, None, Some(SessionNotReady), now);
    HandOverMirrors(config, World(w.state, begun.0, w.calls + [HandedOff]), id, UserControl, "visible-user-control",
        reply, now);
  }

  lemma ReclaimMirrors(config: Config, w: World, id: nat, hash: nat, close: Reply, launch: Reply, now: I64)
    requires Mirrors(config, w)
    ensures Mirrors(config, ReclaimOutcome(config, w, id, hash, close, launch, now).0)
  {
    var begun := BeginOutcome(w.journal, NewRecord(id, config.sessionId, ActionKind.Reclaim, None, None, hash, now));
    var closing := World(w.state, begun.0, w.calls + RelaunchCalls(close));
    HandOverMirrors(config, closing, id, Ready, "agent-control-restored",
        if close.Ok? then launch else close, now);
  }

  lemma SessionRowFollows(config: Config, w: World, e: Event)
    requires Mirrors(config, w) && !e.RecoverCall?
    ensures Mirrors(config, Step(config, w, e))
  {
    match e {
      case OpenCall(launch, now) =>
      case ExecuteCall(id, c, hash, alive, answer, now) => ExecuteMirrors(config, w, id, c, hash, alive, answer, now);
      case CloseCall(reply, now) =>
      case HandoffCall(id, hash, alive, reply, now) => HandoffMirrors(config, w, id, hash, alive, reply, now);
      case ReclaimCall(id, hash, close, launch, now) => ReclaimMirrors(config, w, id, hash, close, launch, now);
      case DieInExecute(id, c, hash, alive, marked, now) =>
      case DieInTransition(written) =>
    }
  }

  /** In every run in which recovery only happens at the start of a process, the session row shows
      the status of a session that is not closed. */
  lemma {:induction false} SessionRowMirrors(config: Config, events: seq<Event>)
    requires forall i :: 0 <= i < |events| && events[i].RecoverCall? ==> i == 0 || Dies(events[i - 1])
    ensures Mirrors(config, After(config, events))
  {
    if events != [] {
      var before, e := events[..|events| - 1], events[|events| - 1];
      SessionRowMirrors(config, before);
      if e.RecoverCall? {
        FreshAfterDeath(config, before);
      } else {
        SessionRowFollows(config, After(config, before), e);
      }
    }
  }

  lemma FreshAfterDeath(config: Config, events: seq<Event>)
    requires events == [] || Dies(events[|events| - 1])
    ensures After(config, events).state == INITIAL
  {
  }

  // ---------------------------------------------------------------- the snapshot generation

  /** The call is an execution whose snapshot is accepted with a generation below the current one. */
  ghost predicate SetsBack(config: Config, w: World, e: Event) {
    && e.ExecuteCall? && e.c.TakeSnapshot? && !Known(w.journal, e.id)
    && Refusal(config, w.state, e.alive, e.c).None?
    && e.answer.Ok? && Fits(config, e.c, e.answer.value) && e.answer.value.generation < w.state.generation
  }


  /** The generation is not monotone: it falls exactly when a snapshot is accepted whose own
      generation is lower. Every other call leaves it alone or raises it. */
  lemma GenerationFallsIff(config: Config, w: World, e: Event)
    requires !Dies(e)
    ensures Step(config, w, e).state.generation < w.state.generation <==> SetsBack(config, w, e)
  {
  }

  lemma OneMoreEvent(config: Config, events: seq<Event>, e: Event)
    ensures After(config, events + [e]) == Step(config, After(config, events), e)
  {
    assert (events + [e])[..|events|] == events;
  }

  lemma OpenedAndNavigated(config: Config, origin: nat)
    requires origin in config.allowedOrigins
    ensures
      var events := [OpenCall(Ok(()), 0)]
          + [ExecuteCall(1, NavigateTo(Some(origin), None), 0, true, Ok(UnitAnswer), 0)];
      var w := After(config, events);
      w.state == RuntimeState(Ready, Some(origin), 1) && !Known(w.journal, 2)
  {
    var open := OpenCall(Ok(()), 0);
    var go := ExecuteCall(1, NavigateTo(Some(origin), None), 0, true, Ok(UnitAnswer), 0);
    OneMoreEvent(config, [], open);
    assert [] + [open] == [open];
    OneMoreEvent(config, [open], go);
    var w := After(config, [open]);
    assert w.state == RuntimeState(Ready, None, 0) && w.journal.actions == [];
    ExecuteEndsItsAction(config, w, 1, go.c, 0, true, go.answer, 0);
  }

  /** It does fall: after opening and navigating, an accepted snapshot of generation zero takes it
      from one to zero. */
  lemma GenerationFalls(config: Config, origin: nat)
    requires origin in config.allowedOrigins
    ensures
      var events := [OpenCall(Ok(()), 0)]
          + [ExecuteCall(1, NavigateTo(Some(origin), None), 0, true, Ok(UnitAnswer), 0)];
      var more := events + [ExecuteCall(2, TakeSnapshot, 0, true, Ok(SnapshotAnswer(0, 0)), 0)];
      After(config, events).state.generation == 1 && After(config, more).state.generation == 0
  {
    var events := [OpenCall(Ok(()), 0)]
          + [ExecuteCall(1, NavigateTo(Some(origin), None), 0, true, Ok(UnitAnswer), 0)];
    var snapshot := ExecuteCall(2, TakeSnapshot, 0, true, Ok(SnapshotAnswer(0, 0)), 0);
    OpenedAndNavigated(config, origin);
    OneMoreEvent(config, events, snapshot);
    GenerationFallsIff(config, After(config, events), snapshot);
  }
}
