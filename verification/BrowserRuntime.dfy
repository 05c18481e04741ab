/** The browser runtime: a session state machine over an adapter whose every call may fail, with
    each action journaled before the adapter sees it. */
module BrowserRuntime {
  import opened Prelude
  import opened BrowserJournal
  import opened FileLeases

  datatype Config = Config(
    sessionId: nat, allowedOrigins: set<nat>, allowUploads: bool, allowDownloads: bool,
    uploadRoots: seq<Path>, artifactDirectory: Path, downloadDirectory: Path)

  datatype Label = Public | ProjectPrivate | UserSecret

  /** A navigation carries the origin parsed from its URL, if it has one; an upload carries its
      canonical path, if it exists. */
  datatype Command =
    | NavigateTo(origin: Option<nat>, redacted: Option<nat>)
    | TakeSnapshot
    | ClickOn(ref: nat)
    | TypeInto(ref: nat, text: string, classification: Label)
    | ReadFrom(ref: nat)
    | InspectAt(ref: nat)
    | WaitFor
    | TakeScreenshot
    | UploadTo(ref: nat, path: Option<Path>)
    | DownloadFrom(ref: nat)

  datatype Answer =
    | UnitAnswer | SnapshotAnswer(generation: U64, nodes: nat) | TextAnswer(text: string)
    | InspectAnswer | ArtifactAnswer(mimeType: string, path: Path)

  datatype RuntimeState = RuntimeState(status: SessionStatus, currentOrigin: Option<nat>, generation: U64)

  /** What was asked of the adapter, with the state in which a command was passed on. */
  datatype AdapterCall = Launched | Executed(command: Command, status: SessionStatus,
      origin: Option<nat>) | ClosedDown | HandedOff

  datatype World = World(state: RuntimeState, journal: Journal, calls: seq<AdapterCall>)

  const INITIAL: RuntimeState := RuntimeState(Closed, None, 0)

  type Reply = Result<(), BrowserError>

  // ---------------------------------------------------------------- checks

  function KindOf(c: Command): ActionKind {
    match c
    case NavigateTo(_, _) => Navigate
    case TakeSnapshot => Snapshot
    case ClickOn(_) => Click
    case TypeInto(_, _, _) => Type
    case ReadFrom(_) => Read
    case InspectAt(_) => Inspect
    case WaitFor => Wait
    case TakeScreenshot => Screenshot
    case UploadTo(_, _) => Upload
    case DownloadFrom(_) => Download
  }

  function Summary(c: Command): string {
    match c
    case NavigateTo(_, _) => "navigate"
    case TakeSnapshot => "snapshot"
    case ClickOn(_) => "click"
    case TypeInto(_, _, _) => "type"
    case ReadFrom(_) => "read"
    case InspectAt(_) => "inspect"
    case WaitFor => "wait"
    case TakeScreenshot => "screenshot"
    case UploadTo(_, _) => "upload"
    case DownloadFrom(_) => "download"
  }

  function Target(c: Command): Option<nat> {
    match c
    case NavigateTo(_, redacted) => redacted
    case ClickOn(ref) => Some(ref)
    case TypeInto(ref, _, _) => Some(ref)
    case ReadFrom(ref) => Some(ref)
    case InspectAt(ref) => Some(ref)
    case UploadTo(ref, _) => Some(ref)
    case DownloadFrom(ref) => Some(ref)
    case TakeSnapshot => None
    case WaitFor => None
    case TakeScreenshot => None
  }

  function OriginRefusal(config: Config, origin: Option<nat>): Option<BrowserError> {
    if origin.None? then Some(OriginUnavailable)
    else if origin.value !in config.allowedOrigins then Some(OriginNotAllowed)
    else None
  }

  /** Why a command may not run in a ready session, if it may not. */
  function CommandRefusal(config: Config, currentOrigin: Option<nat>, c: Command): Option<BrowserError> {
    match c
    case NavigateTo(origin, _) =>
      if origin.None? then Some(OriginInvalid)
      else if origin.value !in config.allowedOrigins then Some(OriginNotAllowed) else None
    case TypeInto(_, text, classification) =>
      if classification.UserSecret? then Some(SecretInput)
      else if |text| > 16384 || '\0' in text then Some(TextInvalid)
      else OriginRefusal(config, currentOrigin)
    case UploadTo(_, path) =>
      if !config.allowUploads then Some(UploadDisabled)
      else if path.None? then Some(UploadPath)
      else if !exists root :: root in config.uploadRoots && root <= path.value then Some(UploadOutsideRoots)
      else OriginRefusal(config, currentOrigin)
    case DownloadFrom(_) =>
      if !config.allowDownloads then Some(DownloadDisabled) else OriginRefusal(config, currentOrigin)
    case _ => OriginRefusal(config, currentOrigin)
  }

  /** Why a command is not passed on to the adapter, if it is not. */
  function Refusal(config: Config, state: RuntimeState, alive: bool, c: Command): Option<BrowserError> {
    if !state.status.Ready? || !alive then Some(SessionNotReady) else CommandRefusal(config, state.currentOrigin, c)
  }

  /** The adapter's answer has the shape the command calls for. */
  predicate Fits(config: Config, c: Command, a: Answer) {
    match c
    case TakeSnapshot => a.SnapshotAnswer? && a.nodes <= 500
    case ReadFrom(_) => a.TextAnswer? && |a.text| <= 1000000
    case InspectAt(_) => a.InspectAnswer?
    case TakeScreenshot => a.ArtifactAnswer? && a.mimeType == "image/png" && config.artifactDirectory <= a.path
    case DownloadFrom(_) => a.ArtifactAnswer? && config.downloadDirectory <= a.path
    case _ => a.UnitAnswer?
  }

  /** What is wrong with the adapter's answer, if anything is. */
  function Objection(config: Config, c: Command, a: Answer): Option<BrowserError> {
    if !Fits(config, c, a) then Some(ResultMismatch)
    else if c.NavigateTo? && c.origin.None? then Some(OriginInvalid)
    else None
  }

  function Applied(state: RuntimeState, c: Command, a: Answer): RuntimeState {
    match c
    case NavigateTo(origin, _) =>
      if origin.None? then state else state.(currentOrigin := origin, generation := SatAddU64(state.generation, 1))
    case TakeSnapshot => if a.SnapshotAnswer? then state.(generation := a.generation) else state
    case ClickOn(_) => state.(generation := SatAddU64(state.generation, 1))
    case TypeInto(_, _, _) => state.(generation := SatAddU64(state.generation, 1))
    case _ => state
  }

  // ---------------------------------------------------------------- the calls on values

  function NewRecord(id: nat, session: nat, kind: ActionKind, origin: Option<nat>, target: Option<nat>, hash: nat,
      now: I64): ActionRecord
  {
    ActionRecord(id, session, 0, kind, Running, origin, target, hash, None, None, now, None)
  }

  function ActionFor(config: Config, state: RuntimeState, id: nat, c: Command, hash: nat, now: I64): ActionRecord {
    var origin := if c.NavigateTo? then c.origin else state.currentOrigin;
    NewRecord(id, config.sessionId, KindOf(c), origin, Target(c), hash, now)
  }

  /** Closing an action as failed; should the journal object, its error takes over. */
  function FailWith(j: Journal, id: nat, error: BrowserError, now: I64): (Journal, BrowserError) {
    var closed := UpdateOutcome(j, id, Failed, None, Some(error), now);
    (closed.0, if closed.1.Err? then closed.1.error else error)
  }

  function CompleteWith(j: Journal, id: nat, summary: string, now: I64): (Journal, Reply) {
    var closed := UpdateOutcome(j, id, Completed, Some(summary), None, now);
    (closed.0, if closed.1.Err? then Err(closed.1.error) else Ok(()))
  }

  function OpenOutcome(config: Config, w: World, launch: Reply, now: I64): (World, Reply) {
    match w.state.status
    case Ready => (w, Ok(()))
    case UserControl => (w, Err(UserControlActive))
    case Starting => (w, Err(TransitionActive))
    case Closing => (w, Err(TransitionActive))
    case _ =>
      var starting := UpsertOutcome(w.journal, config.sessionId, Starting, now);
      var state :=
        if launch.Ok? then w.state.(status := Ready, currentOrigin := None) else w.state.(status := SessionFailed);
      (World(state, UpsertOutcome(starting, config.sessionId, state.status, now), w.calls + [Launched]), launch)
  }

  /** What follows once an action is journaled and checked. */
  function PassOn(config: Config, w: World, id: nat, c: Command, answer: Result<Answer, BrowserError>,
      now: I64): (World, Result<Answer, BrowserError>)
  {
    var calls := w.calls + [Executed(c, w.state.status, w.state.currentOrigin)];
    match answer
    case Ok(a) =>
      var objection := Objection(config, c, a);
      if objection.Some? then
        var closed := FailWith(w.journal, id, objection.value, now);
        (World(w.state, closed.0, calls), Err(closed.1))
      else
        var closed := CompleteWith(w.journal, id, Summary(c), now);
        (World(Applied(w.state, c, a), closed.0, calls), if closed.1.Ok? then Ok(a) else Err(closed.1.error))
    case Err(e) =>
      var closed := FailWith(UpsertOutcome(w.journal, config.sessionId, NeedsReconciliation, now), id, e, now);
      (World(w.state.(status := NeedsReconciliation), closed.0, calls), Err(closed.1))
  }

  function ExecuteOutcome(config: Config, w: World, id: nat, c: Command, hash: nat, alive: bool,
      answer: Result<Answer, BrowserError>, now: I64): (World, Result<Answer, BrowserError>)
  {
    var begun := BeginOutcome(w.journal, ActionFor(config, w.state, id, c, hash, now));
    if begun.1.Err? then (w, Err(begun.1.error))
    else
      var refusal := Refusal(config, w.state, alive, c);
      if refusal.Some? then
        var closed := FailWith(begun.0, id, refusal.value, now);
        (w.(journal := closed.0), Err(closed.1))
      else PassOn(config, w.(journal := begun.0), id, c, answer, now)
  }

  function CloseOutcome(config: Config, w: World, reply: Reply, now: I64): (World, Reply) {
    if w.state.status.Closed? then (w, Ok(()))
    else
      var status := if reply.Ok? then Closed else NeedsReconciliation;
      var journal := UpsertOutcome(w.journal, config.sessionId, status, now);
      (World(w.state.(status := status, currentOrigin := None), journal, w.calls + [ClosedDown]), reply)
  }

  /** The shared ending of a hand-over: the new status on success, reconciliation on failure. */
  function HandOver(config: Config, w: World, id: nat, to: SessionStatus, summary: string, reply: Reply,
      now: I64): (World, Reply)
  {
    if reply.Ok? then
      var closed := CompleteWith(UpsertOutcome(w.journal, config.sessionId, to, now), id, summary, now);
      (World(RuntimeState(to, None, SatAddU64(w.state.generation, 1)), closed.0, w.calls), closed.1)
    else
      var closed := FailWith(UpsertOutcome(w.journal, config.sessionId, NeedsReconciliation, now), id, reply.error,
          now);
      (World(w.state.(status := NeedsReconciliation), closed.0, w.calls), Err(closed.1))
  }

  function HandoffOutcome(config: Config, w: World, id: nat, hash: nat, alive: bool, reply: Reply, now: I64): (World,
      Reply)
  {
    var begun := BeginOutcome(w.journal, NewRecord(id, config.sessionId, ActionKind.Handoff, w.state.currentOrigin,
        None, hash, now));
    if begun.1.Err? then (w, Err(begun.1.error))
    else if !w.state.status.Ready? || !alive then
      var closed := FailWith(begun.0, id, SessionNotReady, now);
      (w.(journal := closed.0), Err(closed.1))
    else
      var handing := World(w.state, begun.0, w.calls + [HandedOff]);
      HandOver(config, handing, id, UserControl, "visible-user-control", reply, now)
  }

  /** Closing comes first, and only a successful close is followed by a launch. */
  function RelaunchCalls(close: Reply): seq<AdapterCall> {
    if close.Ok? then [ClosedDown, Launched] else [ClosedDown]
  }

  function ReclaimOutcome(config: Config, w: World, id: nat, hash: nat, close: Reply, launch: Reply, now: I64): (World,
      Reply)
  {
    if !w.state.status.UserControl? then (w, Err(NotInUserControl))
    else
      var begun := BeginOutcome(w.journal, NewRecord(id, config.sessionId, ActionKind.Reclaim, None, None, hash, now));
      if begun.1.Err? then (w, Err(begun.1.error))
      else
        var closing := World(w.state, begun.0, w.calls + RelaunchCalls(close));
        HandOver(config, closing, id, Ready, "agent-control-restored", if close.Ok? then launch else close, now)
  }

  // ---------------------------------------------------------------- the runtime object

  class BrowserRuntime {
    const config: Config
    const journal: SqliteBrowserJournal
    var status: SessionStatus
    var currentOrigin: Option<nat>
    var generation: U64
    var calls: seq<AdapterCall>

    function Seen(): World
      reads this, journal
    {
      World(RuntimeState(status, currentOrigin, generation), journal.State(), calls)
    }

    ghost predicate Valid()
      reads this, journal
    {
      journal.Valid()
    }

    constructor (config: Config, journal: SqliteBrowserJournal)
      requires journal.Valid()
      ensures Valid() && this.config == config && this.journal == journal
      ensures Seen() == World(INITIAL, journal.State(), [])
    {
      this.config, this.journal := config, journal;
      status, currentOrigin, generation, calls := Closed, None, 0, [];
    }

    method Open(launch: Reply, now: I64) returns (r: Reply)
      requires Valid()
      modifies this, journal
      ensures Valid()
      ensures (Seen(), r) == OpenOutcome(config, old(Seen()), launch, now)
    {
      match status {
        case Ready => return Ok(());
        case UserControl => return Err(UserControlActive);
        case Starting => return Err(TransitionActive);
        case Closing => return Err(TransitionActive);
        case _ =>
      }
      status := Starting;
      journal.UpsertSession(config.sessionId, Starting, now);
      calls := calls + [Launched];
      if launch.Ok? {
        status, currentOrigin := Ready, None;
        journal.UpsertSession(config.sessionId, Ready, now);
      } else {
        status := SessionFailed;
        journal.UpsertSession(config.sessionId, SessionFailed, now);
      }
      r := launch;
    }

    method Execute(id: nat, c: Command, hash: nat, alive: bool, answer: Result<Answer, BrowserError>, now: I64)
      returns (r: Result<Answer, BrowserError>)
      requires Valid()
      modifies this, journal
      ensures Valid()
      ensures (Seen(), r) == ExecuteOutcome(config, old(Seen()), id, c, hash, alive, answer, now)
    {
      var begun := journal.Begin(ActionFor(config, RuntimeState(status, currentOrigin, generation), id, c, hash, now));
      if begun.Err? {
        return Err(begun.error);
      }
      var refusal := Refusal(config, RuntimeState(status, currentOrigin, generation), alive, c);
      if refusal.Some? {
        var closed := journal.Fail(id, refusal.value, now);
        return Err(if closed.Err? then closed.error else refusal.value);
      }
      r := Forward(id, c, answer, now);
    }

    method Forward(id: nat, c: Command, answer: Result<Answer, BrowserError>, now: I64)
      returns (r: Result<Answer, BrowserError>)
      requires Valid()
      modifies this, journal
      ensures Valid()
      ensures (Seen(), r) == PassOn(config, old(Seen()), id, c, answer, now)
    {
      calls := calls + [Executed(c, status, currentOrigin)];
      if answer.Err? {
        status := NeedsReconciliation;
        journal.UpsertSession(config.sessionId, NeedsReconciliation, now);
        var closed := journal.Fail(id, answer.error, now);
        return Err(if closed.Err? then closed.error else answer.error);
      }
      var objection := Objection(config, c, answer.value);
      if objection.Some? {
        var closed := journal.Fail(id, objection.value, now);
        return Err(if closed.Err? then closed.error else objection.value);
      }
      ApplyResultState(c, answer.value);
      var closed := journal.Complete(id, Summary(c), now);
      r := if closed.Err? then Err(closed.error) else Ok(answer.value);
    }

    method ApplyResultState(c: Command, a: Answer)
      modifies this`currentOrigin, this`generation
      ensures RuntimeState(status, currentOrigin, generation)
        == Applied(old(RuntimeState(status, currentOrigin, generation)), c, a)
    {
      match c {
        case NavigateTo(origin, _) =>
          if origin.Some? {
            currentOrigin := origin;
            generation := SatAddU64(generation, 1);
          }
        case TakeSnapshot =>
          if a.SnapshotAnswer? {
            generation := a.generation;
          }
        case ClickOn(_) => generation := SatAddU64(generation, 1);
        case TypeInto(_, _, _) => generation := SatAddU64(generation, 1);
        case _ =>
      }
    }

    method Close(reply: Reply, now: I64) returns (r: Reply)
      requires Valid()
      modifies this, journal
      ensures Valid()
      ensures (Seen(), r) == CloseOutcome(config, old(Seen()), reply, now)
    {
      if status.Closed? {
        return Ok(());
      }
      status := Closing;
      calls := calls + [ClosedDown];
      status := if reply.Ok? then Closed else NeedsReconciliation;
      currentOrigin := None;
      journal.UpsertSession(config.sessionId, status, now);
      r := reply;
    }

    method HandOverTo(id: nat, to: SessionStatus, summary: string, reply: Reply, now: I64) returns (r: Reply)
      requires Valid()
      modifies this, journal
      ensures Valid()
      ensures (Seen(), r) == HandOver(config, old(Seen()), id, to, summary, reply, now)
    {
      if reply.Err? {
        status := NeedsReconciliation;
        journal.UpsertSession(config.sessionId, NeedsReconciliation, now);
        var failed := journal.Fail(id, reply.error, now);
        return Err(if failed.Err? then failed.error else reply.error);
      }
      status, currentOrigin, generation := to, None, SatAddU64(generation, 1);
      journal.UpsertSession(config.sessionId, to, now);
      var completed := journal.Complete(id, summary, now);
      r := if completed.Err? then Err(completed.error) else Ok(());
    }

    method Handoff(id: nat, hash: nat, alive: bool, reply: Reply, now: I64) returns (r: Reply)
      requires Valid()
      modifies this, journal
      ensures Valid()
      ensures (Seen(), r) == HandoffOutcome(config, old(Seen()), id, hash, alive, reply, now)
    {
      var begun := journal.Begin(NewRecord(id, config.sessionId, ActionKind.Handoff, currentOrigin, None, hash, now));
      if begun.Err? {
        return Err(begun.error);
      }
      if !status.Ready? || !alive {
        var closed := journal.Fail(id, SessionNotReady, now);
        return Err(if closed.Err? then closed.error else SessionNotReady);
      }
      calls := calls + [HandedOff];
      r := HandOverTo(id, UserControl, "visible-user-control", reply, now);
    }

    method Reclaim(id: nat, hash: nat, close: Reply, launch: Reply, now: I64) returns (r: Reply)
      requires Valid()
      modifies this, journal
      ensures Valid()
      ensures (Seen(), r) == ReclaimOutcome(config, old(Seen()), id, hash, close, launch, now)
    {
      if !status.UserControl? {
        return Err(NotInUserControl);
      }
      var begun := journal.Begin(NewRecord(id, config.sessionId, ActionKind.Reclaim, None, None, hash, now));
      if begun.Err? {
        return Err(begun.error);
      }
      calls := calls + RelaunchCalls(close);
      r := HandOverTo(id, Ready, "agent-control-restored", if close.Ok? then launch else close, now);
    }
  }
}
