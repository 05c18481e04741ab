/** Several threads on one browser runtime. A call locks the state and the journal once for each of
    its steps, so another thread may act between any two of them. */
module BrowserThreads {
  import opened Prelude
  import opened BrowserJournal
  import opened BrowserRuntime

  type ThreadId = nat

  /** Where a thread stands between two steps of its call. `Marking` owes the journal a session row,
      `Finishing` owes it the end of an action. */
  datatype Phase =
    | Idle
    | Begun(id: nat, c: Command)
    | Admitted(id: nat, c: Command)
    | Cleared(id: nat, c: Command)
    | Answered(id: nat, c: Command, answer: Result<Answer, BrowserError>)
    | Launching
    | Stopping
    | HandoffBegun(id: nat)
    | Handing(id: nat)
    | Reclaiming
    | Relaunching(id: nat)
    | Marking(status: SessionStatus, next: Phase)
    | Finishing(id: nat, outcome: ActionStatus, summary: Option<string>, error: Option<BrowserError>)

  /** What one thread sees: the state, the journal, its own phase, and the commands the adapter was
      given. */
  datatype View = View(state: RuntimeState, journal: Journal, phase: Phase, calls: seq<AdapterCall>)

  /** The same with the phases of all threads. */
  datatype Shared = Shared(state: RuntimeState, journal: Journal, phases: map<ThreadId, Phase>, calls: seq<AdapterCall>)

  const START: Shared := Shared(INITIAL, EMPTY, map[], [])

  datatype Move =
    | Begin(t: ThreadId, id: nat, c: Command, origin: Option<nat>, hash: nat, now: I64)
    | CheckStatus(t: ThreadId, alive: bool)
    | CheckCommand(t: ThreadId)
    | Forward(t: ThreadId, answer: Result<Answer, BrowserError>)
    | TakeAnswer(t: ThreadId)
    | OpenStart(t: ThreadId)
    | OpenEnd(t: ThreadId, launch: Reply, now: I64)
    | CloseStart(t: ThreadId)
    | CloseEnd(t: ThreadId, reply: Reply, now: I64)
    | HandoffBegin(t: ThreadId, id: nat, origin: Option<nat>, hash: nat, now: I64)
    | HandoffCheck(t: ThreadId, alive: bool)
    | HandoffEnd(t: ThreadId, reply: Reply, now: I64)
    | ReclaimCheck(t: ThreadId)
    | ReclaimBegin(t: ThreadId, id: nat, hash: nat, now: I64)
    | ReclaimEnd(t: ThreadId, reply: Reply, now: I64)
    | MarkRow(t: ThreadId, now: I64)
    | Finish(t: ThreadId, now: I64)

  function PhaseOf(s: Shared, t: ThreadId): Phase {
    if t in s.phases then s.phases[t] else Idle
  }

  function ViewOf(s: Shared, t: ThreadId): View {
    View(s.state, s.journal, PhaseOf(s, t), s.calls)
  }

  /** The move is the next step of its thread. */
  predicate Enabled(phase: Phase, m: Move) {
    match m
    case CheckStatus(_, _) => phase.Begun?
    case CheckCommand(_) => phase.Admitted?
    case Forward(_, _) => phase.Cleared?
    case TakeAnswer(_) => phase.Answered?
    case OpenEnd(_, _, _) => phase.Launching?
    case CloseEnd(_, _, _) => phase.Stopping?
    case HandoffCheck(_, _) => phase.HandoffBegun?
    case HandoffEnd(_, _, _) => phase.Handing?
    case ReclaimBegin(_, _, _, _) => phase.Reclaiming?
    case ReclaimEnd(_, _, _) => phase.Relaunching?
    case MarkRow(_, _) => phase.Marking?
    case Finish(_, _) => phase.Finishing?
    case _ => phase.Idle?
  }

  function Failing(id: nat, error: BrowserError): Phase {
    Finishing(id, Failed, None, Some(error))
  }

  function RecordOf(config: Config, m: Move): ActionRecord
    requires m.Begin? || m.HandoffBegin? || m.ReclaimBegin?
  {
    match m
    case Begin(_, id, c, origin, hash, now) =>
      NewRecord(id, config.sessionId, KindOf(c), if c.NavigateTo? then c.origin else origin, Target(c), hash, now)
    case HandoffBegin(_, id, origin, hash, now) =>
      NewRecord(id, config.sessionId, ActionKind.Handoff, origin, None, hash, now)
    case ReclaimBegin(_, id, hash, now) =>
      NewRecord(id, config.sessionId, ActionKind.Reclaim, None, None, hash, now)
  }

  predicate Startable(status: SessionStatus) {
    status.Closed? || status.SessionFailed? || status.NeedsReconciliation?
  }

  /** The status a step gives the session, if it sets one. */
  function Sets(v: View, m: Move): Option<SessionStatus> {
    if !Enabled(v.phase, m) then None
    else
      match m
      case TakeAnswer(_) => if v.phase.answer.Err? then Some(NeedsReconciliation) else None
      case OpenStart(_) => if Startable(v.state.status) then Some(Starting) else None
      case OpenEnd(_, launch, _) => Some(if launch.Ok? then Ready else SessionFailed)
      case CloseStart(_) => if v.state.status.Closed? then None else Some(Closing)
      case CloseEnd(_, reply, _) => Some(if reply.Ok? then Closed else NeedsReconciliation)
      case HandoffEnd(_, reply, _) => Some(if reply.Ok? then UserControl else NeedsReconciliation)
      case ReclaimEnd(_, reply, _) => Some(if reply.Ok? then Ready else NeedsReconciliation)
      case _ => None
  }

  /** The status a step writes to the session's row, if it writes one: a success under the state
      lock, a failure and the start of a launch after giving it up. */
  function Writes(v: View, m: Move): Option<SessionStatus> {
    if !Enabled(v.phase, m) then None
    else
      match m
      case OpenEnd(_, launch, _) => if launch.Ok? then Some(Ready) else None
      case CloseEnd(_, reply, _) => Some(if reply.Ok? then Closed else NeedsReconciliation)
      case HandoffEnd(_, reply, _) => if reply.Ok? then Some(UserControl) else None
      case ReclaimEnd(_, reply, _) => if reply.Ok? then Some(Ready) else None
      case MarkRow(_, _) => Some(v.phase.status)
      case _ => None
  }

  /** The move forgets the origin: the browser was closed, launched or handed over. */
  predicate Forgets(v: View, m: Move) {
    && Enabled(v.phase, m)
    && (m.CloseEnd? || (m.HandoffEnd? && m.reply.Ok?) || (m.OpenEnd? && m.launch.Ok?) || (m.ReclaimEnd? && m.reply.Ok?))
  }

  /** What a thread does next after the answer of the adapter. */
  function AfterAnswer(config: Config, id: nat, c: Command, answer: Result<Answer, BrowserError>): Phase {
    match answer
    case Err(e) => Marking(NeedsReconciliation, Failing(id, e))
    case Ok(a) =>
      if Objection(config, c, a).Some? then Failing(id, Objection(config, c, a).value)
      else Finishing(id, Completed, Some(Summary(c)), None)
  }

  /** The phase a step leaves its thread in. */
  function PhaseAfter(config: Config, v: View, m: Move): Phase
    requires Enabled(v.phase, m)
  {
    var phase := v.phase;
    match m
    case Begin(_, id, c, _, _, _) =>
      if BeginOutcome(v.journal, RecordOf(config, m)).1.Ok? then Begun(id, c) else Idle
    case CheckStatus(_, alive) =>
      if v.state.status.Ready? && alive then Admitted(phase.id, phase.c) else Failing(phase.id, SessionNotReady)
    case CheckCommand(_) =>
      var refusal := CommandRefusal(config, v.state.currentOrigin, phase.c);
      if refusal.None? then Cleared(phase.id, phase.c) else Failing(phase.id, refusal.value)
    case Forward(_, answer) => Answered(phase.id, phase.c, answer)
    case TakeAnswer(_) => AfterAnswer(config, phase.id, phase.c, phase.answer)
    case OpenStart(_) => if Startable(v.state.status) then Marking(Starting, Launching) else Idle
    case OpenEnd(_, launch, _) => if launch.Ok? then Idle else Marking(SessionFailed, Idle)
    case CloseStart(_) => if v.state.status.Closed? then Idle else Stopping
    case CloseEnd(_, _, _) => Idle
    case HandoffBegin(_, id, _, _, _) =>
      if BeginOutcome(v.journal, RecordOf(config, m)).1.Ok? then HandoffBegun(id) else Idle
    case HandoffCheck(_, alive) =>
      if v.state.status.Ready? && alive then Handing(phase.id) else Failing(phase.id, SessionNotReady)
    case HandoffEnd(_, reply, _) =>
      if reply.Ok? then Finishing(phase.id, Completed, Some("visible-user-control"), None)
      else Marking(NeedsReconciliation, Failing(phase.id, reply.error))
    case ReclaimCheck(_) => if v.state.status.UserControl? then Reclaiming else Idle
    case ReclaimBegin(_, id, _, _) =>
      if BeginOutcome(v.journal, RecordOf(config, m)).1.Ok? then Relaunching(id) else Idle
    case ReclaimEnd(_, reply, _) =>
      if reply.Ok? then Finishing(phase.id, Completed, Some("agent-control-restored"), None)
      else Marking(NeedsReconciliation, Failing(phase.id, reply.error))
    case MarkRow(_, _) => phase.next
    case Finish(_, _) => Idle
  }

  /** The answer is taken as it is, so what it changes becomes the state. */
  predicate Accepts(config: Config, v: View, m: Move) {
    && Enabled(v.phase, m) && m.TakeAnswer? && v.phase.answer.Ok?
    && Objection(config, v.phase.c, v.phase.answer.value).None?
  }

  function StateAfter(config: Config, v: View, m: Move): RuntimeState {
    var moved := if Sets(v, m).Some? then v.state.(status := Sets(v, m).value) else v.state;
    var kept := if Forgets(v, m) then moved.(currentOrigin := None) else moved;
    if Accepts(config, v, m) then Applied(kept, v.phase.c, v.phase.answer.value)
    else if Forgets(v, m) && (m.HandoffEnd? || m.ReclaimEnd?) then
      kept.(generation := SatAddU64(kept.generation, 1))
    else kept
  }

  function JournalAfter(config: Config, v: View, m: Move): Journal
    requires Enabled(v.phase, m)
  {
    var phase := v.phase;
    if m.Begin? || m.HandoffBegin? || m.ReclaimBegin? then BeginOutcome(v.journal, RecordOf(config, m)).0
    else if m.Finish? then UpdateOutcome(v.journal, phase.id, phase.outcome, phase.summary, phase.error, m.now).0
    else if Writes(v, m).Some? then UpsertOutcome(v.journal, config.sessionId, Writes(v, m).value, m.now)
    else v.journal
  }

  function Turn(config: Config, v: View, m: Move): View {
    if !Enabled(v.phase, m) then v
    else
      View(StateAfter(config, v, m), JournalAfter(config, v, m), PhaseAfter(config, v, m),
        if m.Forward? then v.calls + [Executed(v.phase.c, v.state.status, v.state.currentOrigin)] else v.calls)
  }

  /** A step of one thread; a step that is not the next one of its thread does nothing. */
  function Next(config: Config, s: Shared, m: Move): Shared {
    var v := Turn(config, ViewOf(s, m.t), m);
    Shared(v.state, v.journal, s.phases[m.t := v.phase], v.calls)
  }

  function After(config: Config, moves: seq<Move>): Shared {
    if moves == [] then START else Next(config, After(config, moves[..|moves| - 1]), moves[|moves| - 1])
  }

  lemma OneMoreMove(config: Config, moves: seq<Move>, k: nat)
    requires k < |moves|
    ensures After(config, moves[..k + 1]) == Next(config, After(config, moves[..k]), moves[k])
  {
    assert moves[..k + 1][..k] == moves[..k];
  }

  // ---------------------------------------------------------------- a call without interruption

  /** The thread is done, and state and journal are those of `w`. */
  ghost predicate Leaves(v: View, w: World) {
    v.phase.Idle? && v.state == w.state && v.journal == w.journal
  }

  /** The last two steps of a call. */
  function Ending(config: Config, v: View, t: ThreadId, now: I64): View {
    Turn(config, Turn(config, v, MarkRow(t, now)), Finish(t, now))
  }

  lemma OpenInOneGo(config: Config, v: View, w: World, t: ThreadId, launch: Reply, now: I64)
    requires v.phase.Idle? && w.state == v.state && w.journal == v.journal
    ensures
      var launched := Turn(config, Turn(config, v, OpenStart(t)), MarkRow(t, now));
      Leaves(Ending(config, Turn(config, launched, OpenEnd(t, launch, now)), t, now),
        OpenOutcome(config, w, launch, now).0)
  {
  }

  lemma CloseInOneGo(config: Config, v: View, w: World, t: ThreadId, reply: Reply, now: I64)
    requires v.phase.Idle? && w.state == v.state && w.journal == v.journal
    ensures Leaves(Turn(config, Turn(config, v, CloseStart(t)), CloseEnd(t, reply, now)),
        CloseOutcome(config, w, reply, now).0)
  {
  }

  lemma FinishingEnds(config: Config, v: View, t: ThreadId, now: I64)
    requires v.phase.Finishing?
    ensures
      var p := v.phase;
      Leaves(Ending(config, v, t, now),
        World(v.state, UpdateOutcome(v.journal, p.id, p.outcome, p.summary, p.error, now).0, v.calls))
    ensures Ending(config, v, t, now).calls == v.calls
  {
  }

  lemma MarkedEnds(config: Config, v: View, t: ThreadId, status: SessionStatus, id: nat, error: BrowserError, now: I64)
    requires v.phase == Marking(status, Failing(id, error))
    ensures
      var marked := UpsertOutcome(v.journal, config.sessionId, status, now);
      Leaves(Ending(config, v, t, now), World(v.state, FailWith(marked, id, error, now).0, v.calls))
    ensures Ending(config, v, t, now).calls == v.calls
  {
  }

  lemma AnswerTaken(config: Config, v: View, t: ThreadId, answer: Result<Answer, BrowserError>)
    requires v.phase.Cleared?
    ensures
      var taken := Turn(config, Turn(config, v, Forward(t, answer)), TakeAnswer(t));
      var c, calls := v.phase.c, v.calls + [Executed(v.phase.c, v.state.status, v.state.currentOrigin)];
      taken == View(
        if answer.Err? then v.state.(status := NeedsReconciliation)
        else if Objection(config, c, answer.value).Some? then v.state
        else Applied(v.state, c, answer.value),
        v.journal, AfterAnswer(config, v.phase.id, c, answer), calls)
  {
  }

  lemma AnswerEnds(config: Config, v: View, w: World, t: ThreadId, id: nat, c: Command,
      answer: Result<Answer, BrowserError>, now: I64)
    requires v.phase == Cleared(id, c) && w.state == v.state && w.journal == v.journal && w.calls == v.calls
    ensures
      var end := Ending(config, Turn(config, Turn(config, v, Forward(t, answer)), TakeAnswer(t)), t, now);
      var whole := PassOn(config, w, id, c, answer, now).0;
      Leaves(end, whole) && end.calls == whole.calls
  {
    var taken := Turn(config, Turn(config, v, Forward(t, answer)), TakeAnswer(t));
    AnswerTaken(config, v, t, answer);
    if answer.Err? {
      MarkedEnds(config, taken, t, NeedsReconciliation, id, answer.error, now);
    } else {
      FinishingEnds(config, taken, t, now);
    }
  }

  /** The steps of an execution up to the end of its checks. */
  function Checked(config: Config, v: View, begin: Move, alive: bool): View {
    Turn(config, Turn(config, Turn(config, v, begin), CheckStatus(begin.t, alive)), CheckCommand(begin.t))
  }

  lemma ChecksInOneGo(config: Config, v: View, begin: Move, alive: bool)
    requires begin.Begin? && v.phase.Idle?
    ensures
      var begun, refusal := BeginOutcome(v.journal, RecordOf(config, begin)), Refusal(config, v.state, alive, begin.c);
      Checked(config, v, begin, alive)
      == v.(journal := begun.0, phase :=
           if begun.1.Err? then Idle
           else if refusal.Some? then Failing(begin.id, refusal.value)
           else Cleared(begin.id, begin.c))
  {
  }

  /** Without another thread the steps of an execution do to state, journal and adapter what the
      whole call does. */
  lemma ExecutionInOneGo(config: Config, v: View, w: World, begin: Move, alive: bool,
      answer: Result<Answer, BrowserError>)
    requires begin.Begin? && begin.origin == v.state.currentOrigin && v.phase.Idle?
    requires w.state == v.state && w.journal == v.journal && w.calls == v.calls
    ensures
      var answered := Turn(config, Turn(config, Checked(config, v, begin, alive), Forward(begin.t, answer)),
        TakeAnswer(begin.t));
      var end := Ending(config, answered, begin.t, begin.now);
      var whole := ExecuteOutcome(config, w, begin.id, begin.c, begin.hash, alive, answer, begin.now).0;
      Leaves(end, whole) && end.calls == whole.calls
  {
    var t, now, record := begin.t, begin.now, RecordOf(config, begin);
    var checked := Checked(config, v, begin, alive);
    var begun := BeginOutcome(v.journal, record);
    ChecksInOneGo(config, v, begin, alive);
    assert record == ActionFor(config, w.state, begin.id, begin.c, begin.hash, now);
    if checked.phase.Cleared? {
      AnswerEnds(config, checked, w.(journal := begun.0), t, begin.id, begin.c, answer, now);
    } else if checked.phase.Finishing? {
      FinishingEnds(config, checked, t, now);
    }
  }

  lemma HandoffTurn(config: Config, v: View, t: ThreadId, reply: Reply, now: I64)
    requires v.phase.Handing?
    ensures Turn(config, v, HandoffEnd(t, reply, now)) ==
      if reply.Ok? then
        View(RuntimeState(UserControl, None, SatAddU64(v.state.generation, 1)),
          UpsertOutcome(v.journal, config.sessionId, UserControl, now),
          Finishing(v.phase.id, Completed, Some("visible-user-control"), None), v.calls)
      else
        v.(state := v.state.(status := NeedsReconciliation),
          phase := Marking(NeedsReconciliation, Failing(v.phase.id, reply.error)))
  {
  }

  lemma HandoffEnds(config: Config, v: View, w: World, t: ThreadId, id: nat, reply: Reply, now: I64)
    requires v.phase == Handing(id) && w.state == v.state && w.journal == v.journal
    ensures Leaves(Ending(config, Turn(config, v, HandoffEnd(t, reply, now)), t, now),
        HandOver(config, w, id, UserControl, "visible-user-control", reply, now).0)
  {
    var turned := Turn(config, v, HandoffEnd(t, reply, now));
    HandoffTurn(config, v, t, reply, now);
    if reply.Ok? {
      FinishingEnds(config, turned, t, now);
    } else {
      MarkedEnds(config, turned, t, NeedsReconciliation, id, reply.error, now);
    }
  }

  lemma HandoffSkipped(config: Config, v: View, t: ThreadId, reply: Reply, now: I64)
    requires v.phase.Idle? || v.phase.Finishing?
    ensures
      var end, p := Ending(config, Turn(config, v, HandoffEnd(t, reply, now)), t, now), v.phase;
      && end.phase.Idle? && end.state == v.state
      && end.journal == if p.Idle? then v.journal
           else UpdateOutcome(v.journal, p.id, p.outcome, p.summary, p.error, now).0
  {
  }

  /** The steps of a handoff up to its check. */
  function CheckedHandoff(config: Config, v: View, begin: Move, alive: bool): View {
    Turn(config, Turn(config, v, begin), HandoffCheck(begin.t, alive))
  }

  lemma HandoffChecksInOneGo(config: Config, v: View, begin: Move, alive: bool)
    requires begin.HandoffBegin? && v.phase.Idle?
    ensures
      var begun := BeginOutcome(v.journal, RecordOf(config, begin));
      CheckedHandoff(config, v, begin, alive)
      == v.(journal := begun.0, phase :=
           if begun.1.Err? then Idle
           else if v.state.status.Ready? && alive then Handing(begin.id)
           else Failing(begin.id, SessionNotReady))
  {
  }

  lemma HandoffInOneGo(config: Config, v: View, w: World, begin: Move, alive: bool, reply: Reply)
    requires begin.HandoffBegin? && begin.origin == v.state.currentOrigin && v.phase.Idle?
    requires w.state == v.state && w.journal == v.journal
    ensures
      var handing := CheckedHandoff(config, v, begin, alive);
      Leaves(Ending(config, Turn(config, handing, HandoffEnd(begin.t, reply, begin.now)), begin.t, begin.now),
        HandoffOutcome(config, w, begin.id, begin.hash, alive, reply, begin.now).0)
  {
    var t, now := begin.t, begin.now;
    var begun := BeginOutcome(v.journal, RecordOf(config, begin));
    var handing := CheckedHandoff(config, v, begin, alive);
    HandoffChecksInOneGo(config, v, begin, alive);
    if handing.phase.Handing? {
      var handed := World(w.state, begun.0, w.calls + [HandedOff]);
      HandoffEnds(config, handing, handed, t, begin.id, reply, now);
      assert HandoffOutcome(config, w, begin.id, begin.hash, alive, reply, now)
          == HandOver(config, handed, begin.id, UserControl, "visible-user-control", reply, now);
    } else {
      HandoffSkipped(config, handing, t, reply, now);
    }
  }

  lemma ReclaimTurn(config: Config, v: View, t: ThreadId, reply: Reply, now: I64)
    requires v.phase.Relaunching?
    ensures Turn(config, v, ReclaimEnd(t, reply, now)) ==
      if reply.Ok? then
        View(RuntimeState(Ready, None, SatAddU64(v.state.generation, 1)),
          UpsertOutcome(v.journal, config.sessionId, Ready, now),
          Finishing(v.phase.id, Completed, Some("agent-control-restored"), None), v.calls)
      else
        v.(state := v.state.(status := NeedsReconciliation),
          phase := Marking(NeedsReconciliation, Failing(v.phase.id, reply.error)))
  {
  }

  lemma ReclaimEnds(config: Config, v: View, w: World, t: ThreadId, id: nat, reply: Reply, now: I64)
    requires v.phase == Relaunching(id) && w.state == v.state && w.journal == v.journal
    ensures Leaves(Ending(config, Turn(config, v, ReclaimEnd(t, reply, now)), t, now),
        HandOver(config, w, id, Ready, "agent-control-restored", reply, now).0)
  {
    var turned := Turn(config, v, ReclaimEnd(t, reply, now));
    ReclaimTurn(config, v, t, reply, now);
    if reply.Ok? {
      FinishingEnds(config, turned, t, now);
    } else {
      MarkedEnds(config, turned, t, NeedsReconciliation, id, reply.error, now);
    }
  }

  lemma ReclaimBeginsInOneGo(config: Config, v: View, begin: Move)
    requires begin.ReclaimBegin? && v.phase.Idle?
    ensures
      var begun := BeginOutcome(v.journal, RecordOf(config, begin));
      Turn(config, Turn(config, v, ReclaimCheck(begin.t)), begin)
      == if !v.state.status.UserControl? then v
         else v.(journal := begun.0, phase := if begun.1.Err? then Idle else Relaunching(begin.id))
  {
  }

  lemma ReclaimInOneGo(config: Config, v: View, w: World, begin: Move, close: Reply, launch: Reply)
    requires begin.ReclaimBegin? && v.phase.Idle? && w.state == v.state && w.journal == v.journal
    ensures
      var relaunching := Turn(config, Turn(config, v, ReclaimCheck(begin.t)), begin);
      var reply := if close.Ok? then launch else close;
      Leaves(Ending(config, Turn(config, relaunching, ReclaimEnd(begin.t, reply, begin.now)), begin.t, begin.now),
        ReclaimOutcome(config, w, begin.id, begin.hash, close, launch, begin.now).0)
  {
    var t, now, reply := begin.t, begin.now, if close.Ok? then launch else close;
    var begun := BeginOutcome(v.journal, RecordOf(config, begin));
    var relaunching := Turn(config, Turn(config, v, ReclaimCheck(t)), begin);
    ReclaimBeginsInOneGo(config, v, begin);
    if relaunching.phase.Relaunching? {
      ReclaimEnds(config, relaunching, World(w.state, begun.0, w.calls + RelaunchCalls(close)), t, begin.id, reply,
        now);
    }
  }
}
