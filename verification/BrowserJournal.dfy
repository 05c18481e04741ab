/** The write-ahead journal of browser actions: an action is recorded as running before it is
    carried out, is closed once, and is marked uncertain when the process stopped in between. */
module BrowserJournal {
  import opened Prelude
  import opened Ordering
  import opened Numbering

  datatype SessionStatus = Closed | Starting | Ready | UserControl | Closing | SessionFailed | NeedsReconciliation

  datatype ActionKind =
    | Open | Navigate | Snapshot | Click | Type | Read | Inspect | Wait | Screenshot | Upload | Download
    | Close | Handoff | Reclaim

  datatype ActionStatus = Running | Completed | Failed | Uncertain

  datatype BrowserError =
    | UserControlActive | TransitionActive | SessionNotReady | NotInUserControl | AdapterFailure(code: nat)
    | OriginInvalid | OriginNotAllowed | OriginUnavailable
    | SecretInput | TextInvalid | UploadDisabled | UploadPath | UploadOutsideRoots | DownloadDisabled | ResultMismatch
    | DuplicateAction | ActionMissing | ActionNotRunning | ProcessInterrupted

  datatype ActionRecord = ActionRecord(
    id: nat, sessionId: nat, sequence: nat, action: ActionKind, status: ActionStatus,
    origin: Option<nat>, target: Option<nat>, argumentsHash: nat,
    summary: Option<string>, error: Option<BrowserError>, startedAt: I64, completedAt: Option<I64>)

  /** A row keeps the status and the time of completion again in columns. */
  datatype ActionRow = ActionRow(record: ActionRecord, status: ActionStatus, completedAt: Option<I64>)

  datatype SessionRow = SessionRow(status: SessionStatus, updatedAt: I64)

  datatype Journal = Journal(actions: seq<ActionRow>, sessions: map<nat, SessionRow>)

  const EMPTY: Journal := Journal([], map[])

  const SessionOf: ActionRow -> nat := (r: ActionRow) => r.record.sessionId

  const SequenceOf: ActionRow -> nat := (r: ActionRow) => r.record.sequence

  const BySequence: ActionRow -> Key := (r: ActionRow) => (r.record.sequence as int, 0)

  // ---------------------------------------------------------------- the operations on values

  /** The position of an action, if it was ever begun. */
  function Find(actions: seq<ActionRow>, id: nat): (at: Option<nat>)
    ensures at.Some? ==> at.value < |actions| && actions[at.value].record.id == id
    ensures at.None? ==> forall i :: 0 <= i < |actions| ==> actions[i].record.id != id
  {
    if actions == [] then None
    else if actions[|actions| - 1].record.id == id then Some(|actions| - 1)
    else Find(actions[..|actions| - 1], id)
  }

  function BeginOutcome(j: Journal, record: ActionRecord): (Journal, Result<ActionRecord, BrowserError>) {
    var stored := record.(sequence := Top(j.actions, SessionOf, SequenceOf, record.sessionId) + 1);
    if Find(j.actions, record.id).Some? then (j, Err(DuplicateAction))
    else (j.(actions := j.actions + [ActionRow(stored, Running, None)]), Ok(stored))
  }

  /** A closed record. */
  function Ended(record: ActionRecord, status: ActionStatus, summary: Option<string>, error: Option<BrowserError>,
      now: I64): ActionRecord
  {
    record.(status := status, summary := summary, error := error, completedAt := Some(now))
  }

  function UpdateOutcome(j: Journal, id: nat, status: ActionStatus, summary: Option<string>,
      error: Option<BrowserError>, now: I64): (Journal, Result<ActionRecord, BrowserError>)
  {
    var at := Find(j.actions, id);
    if at.None? then (j, Err(ActionMissing))
    else if !j.actions[at.value].record.status.Running? then (j, Err(ActionNotRunning))
    else
      var record := Ended(j.actions[at.value].record, status, summary, error, now);
      var closed := j.(actions := j.actions[at.value := ActionRow(record, status, Some(now))]);
      (if j.actions[at.value].status.Running? then closed else j, Ok(record))
  }

  function UpsertOutcome(j: Journal, session: nat, status: SessionStatus, now: I64): Journal {
    j.(sessions := j.sessions[session := SessionRow(status, now)])
  }

  predicate InFlight(status: SessionStatus) {
    status.Starting? || status.Ready? || status.UserControl? || status.Closing?
  }

  function Interrupted(row: ActionRow, now: I64): ActionRow {
    var record := row.record.(status := Uncertain, error := Some(ProcessInterrupted), completedAt := Some(now));
    ActionRow(record, Uncertain, Some(now))
  }

  function RecoverActions(actions: seq<ActionRow>, now: I64): (r: seq<ActionRow>)
    ensures |r| == |actions|
  {
    seq(|actions|, i requires 0 <= i < |actions| =>
      if actions[i].status.Running? then Interrupted(actions[i], now) else actions[i])
  }

  function RecoverSessions(sessions: map<nat, SessionRow>, now: I64): map<nat, SessionRow> {
    map s | s in sessions :: if InFlight(sessions[s].status) then SessionRow(NeedsReconciliation, now) else sessions[s]
  }

  function RecoverOutcome(j: Journal, now: I64): Journal {
    Journal(RecoverActions(j.actions, now), RecoverSessions(j.sessions, now))
  }

  function RunningCount(actions: seq<ActionRow>): nat {
    if actions == [] then 0
    else RunningCount(actions[..|actions| - 1]) + if actions[|actions| - 1].status.Running? then 1 else 0
  }

  // ---------------------------------------------------------------- the invariant

  ghost predicate RowSound(row: ActionRow) {
    && row.record.status == row.status
    && row.record.completedAt == row.completedAt
    && (row.completedAt.None? <==> row.status.Running?)
  }

  ghost predicate SoundActions(actions: seq<ActionRow>) {
    && Numbered(actions, SessionOf, SequenceOf)
    && (forall i, k :: 0 <= i < k < |actions| ==> actions[i].record.id != actions[k].record.id)
    && (forall i :: 0 <= i < |actions| ==> RowSound(actions[i]))
  }

  ghost predicate Sound(j: Journal) {
    SoundActions(j.actions)
  }

  /** What a record looks like when its action is about to start. */
  predicate Fresh(record: ActionRecord) {
    record.status.Running? && record.completedAt.None?
  }

  lemma BeginKeepsSound(j: Journal, record: ActionRecord)
    requires Sound(j) && Fresh(record)
    ensures Sound(BeginOutcome(j, record).0)
  {
    if Find(j.actions, record.id).None? {
      AppendKeepsSound(j.actions,
          ActionRow(record.(sequence := Top(j.actions, SessionOf, SequenceOf, record.sessionId) + 1), Running, None));
    }
  }

  lemma AppendKeepsSound(actions: seq<ActionRow>, row: ActionRow)
    requires SoundActions(actions) && RowSound(row)
    requires forall i :: 0 <= i < |actions| ==> actions[i].record.id != row.record.id
    requires row.record.sequence == Top(actions, SessionOf, SequenceOf, row.record.sessionId) + 1
    ensures SoundActions(actions + [row])
  {
    AppendNumbered(actions, SessionOf, SequenceOf, row);
  }

  lemma RewriteKeepsSound(was: seq<ActionRow>, now: seq<ActionRow>)
    requires SoundActions(was) && |now| == |was|
    requires forall i ::
        0 <= i < |now| ==>
          && now[i].record.sessionId == was[i].record.sessionId
          && now[i].record.sequence == was[i].record.sequence
          && now[i].record.id == was[i].record.id
          && RowSound(now[i])
    ensures SoundActions(now)
  {
    RewriteNumbered(was, now, SessionOf, SequenceOf);
  }

  lemma UpdateKeepsSound(j: Journal, id: nat, status: ActionStatus, summary: Option<string>,
      error: Option<BrowserError>, now: I64)
    requires Sound(j) && !status.Running?
    ensures Sound(UpdateOutcome(j, id, status, summary, error, now).0)
  {
    RewriteKeepsSound(j.actions, UpdateOutcome(j, id, status, summary, error, now).0.actions);
  }

  lemma RecoverKeepsSound(j: Journal, now: I64)
    requires Sound(j)
    ensures Sound(RecoverOutcome(j, now))
  {
    RewriteKeepsSound(j.actions, RecoverActions(j.actions, now));
  }

  // ---------------------------------------------------------------- the operations on the fields of the rows

  /** An action is begun unless its id is known: at the end, as it was given, running, and numbered
      after the actions its session already has. */
  lemma BeginStores(j: Journal, record: ActionRecord)
    requires Sound(j)
    ensures
      var (after, r) := BeginOutcome(j, record);
      var known := exists row :: row in j.actions && row.record.id == record.id;
      var stored := record.(sequence := Count(j.actions, SessionOf, record.sessionId) + 1);
      && after.sessions == j.sessions
      && (known ==> r == Err(DuplicateAction) && after.actions == j.actions)
      && (!known ==> r == Ok(stored) && after.actions == j.actions + [ActionRow(stored, Running, None)])
  {
    TopIsCount(j.actions, SessionOf, SequenceOf, record.sessionId);
    if row :| row in j.actions && row.record.id == record.id {
      var i :| 0 <= i < |j.actions| && j.actions[i] == row;
    }
  }

  /** Ending an action takes effect exactly on a running action of that id, in record and columns. */
  lemma UpdateCloses(j: Journal, id: nat, status: ActionStatus, summary: Option<string>, error: Option<BrowserError>,
      now: I64, i: nat)
    requires Sound(j) && i < |j.actions|
    ensures
      var (after, r) := UpdateOutcome(j, id, status, summary, error, now);
      var was := j.actions[i];
      var closed := was.record.(status := status, summary := summary, error := error, completedAt := Some(now));
      && after.sessions == j.sessions && |after.actions| == |j.actions|
      && (was.record.id == id && was.record.status.Running? ==>
            r == Ok(closed) && after.actions[i] == ActionRow(closed, status, Some(now)))
      && (was.record.id == id && !was.record.status.Running? ==> r == Err(ActionNotRunning) && after == j)
      && (was.record.id != id ==> after.actions[i] == was)
  {
    assert RowSound(j.actions[i]);
    var at := Find(j.actions, id);
    assert at.Some? ==> RowSound(j.actions[at.value]);
    if at.Some? && j.actions[i].record.id == id {
      assert at.value == i;
    }
  }

  /** Ending an unknown action fails and changes nothing. */
  lemma UnknownIsNotEnded(j: Journal, id: nat, status: ActionStatus, summary: Option<string>,
      error: Option<BrowserError>, now: I64)
    requires forall row :: row in j.actions ==> row.record.id != id
    ensures UpdateOutcome(j, id, status, summary, error, now) == (j, Err(ActionMissing))
  {
    assert forall i :: 0 <= i < |j.actions| ==> j.actions[i] in j.actions;
  }

  /** Recovery calls every running action uncertain, interrupted at this time, and sends every session
      that was starting, ready, handed over or closing to reconciliation; nothing else changes. */
  lemma RecoverMarks(j: Journal, now: I64)
    requires Sound(j)
    ensures
      var after := RecoverOutcome(j, now);
      && |after.actions| == |j.actions|
      && (forall i :: 0 <= i < |j.actions| ==>
            after.actions[i] ==
              if !j.actions[i].record.status.Running? then j.actions[i]
              else ActionRow(
                j.actions[i].record.(status := Uncertain, error := Some(ProcessInterrupted), completedAt := Some(now)),
                Uncertain, Some(now)))
      && after.sessions.Keys == j.sessions.Keys
      && (forall s :: s in j.sessions ==>
            after.sessions[s] ==
              if j.sessions[s].status in {Starting, Ready, UserControl, Closing}
              then SessionRow(NeedsReconciliation, now) else j.sessions[s])
  {
    assert forall i :: 0 <= i < |j.actions| ==> RowSound(j.actions[i]);
  }

  /** The number a recovery returns is that of the positions of running actions. */
  lemma {:induction false} CountsTheRunning(actions: seq<ActionRow>)
    ensures RunningCount(actions) == |set i | 0 <= i < |actions| && actions[i].status.Running?|
  {
    var running := set i | 0 <= i < |actions| && actions[i].status.Running?;
    if actions != [] {
      var n := |actions| - 1;
      var before := set i | 0 <= i < n && actions[..n][i].status.Running?;
      CountsTheRunning(actions[..n]);
      assert running == before + if actions[n].status.Running? then {n} else {};
    }
  }

  // ---------------------------------------------------------------- the journal object

  class SqliteBrowserJournal {
    var actions: seq<ActionRow>
    var sessions: map<nat, SessionRow>

    function State(): Journal
      reads this
    {
      Journal(actions, sessions)
    }

    ghost predicate Valid()
      reads this
    {
      Sound(State())
    }

    constructor ()
      ensures Valid() && State() == EMPTY
    {
      actions, sessions := [], map[];
    }

    method UpsertSession(session: nat, status: SessionStatus, now: I64)
      requires Valid()
      modifies this`sessions
      ensures Valid()
      ensures State() == UpsertOutcome(old(State()), session, status, now)
    {
      sessions := sessions[session := SessionRow(status, now)];
    }

    method Begin(record: ActionRecord) returns (r: Result<ActionRecord, BrowserError>)
      requires Valid() && Fresh(record)
      modifies this`actions
      ensures Valid()
      ensures (State(), r) == BeginOutcome(old(State()), record)
    {
      BeginKeepsSound(State(), record);
      var stored := record.(sequence := Top(actions, SessionOf, SequenceOf, record.sessionId) + 1);
      if Find(actions, record.id).Some? {
        return Err(DuplicateAction);
      }
      actions := actions + [ActionRow(stored, Running, None)];
      r := Ok(stored);
    }

    method Update(id: nat, status: ActionStatus, summary: Option<string>, error: Option<BrowserError>, now: I64)
      returns (r: Result<ActionRecord, BrowserError>)
      requires Valid() && !status.Running?
      modifies this`actions
      ensures Valid()
      ensures (State(), r) == UpdateOutcome(old(State()), id, status, summary, error, now)
    {
      UpdateKeepsSound(State(), id, status, summary, error, now);
      var at := Find(actions, id);
      if at.None? {
        return Err(ActionMissing);
      }
      var record := actions[at.value].record;
      if !record.status.Running? {
        return Err(ActionNotRunning);
      }
      record := record.(status := status, summary := summary, error := error, completedAt := Some(now));
      if actions[at.value].status.Running? {
        actions := actions[at.value := ActionRow(record, status, Some(now))];
      }
      r := Ok(record);
    }

    method Complete(id: nat, summary: string, now: I64) returns (r: Result<ActionRecord, BrowserError>)
      requires Valid()
      modifies this`actions
      ensures Valid()
      ensures (State(), r) == UpdateOutcome(old(State()), id, Completed, Some(summary), None, now)
    {
      r := Update(id, Completed, Some(summary), None, now);
    }

    method Fail(id: nat, error: BrowserError, now: I64) returns (r: Result<ActionRecord, BrowserError>)
      requires Valid()
      modifies this`actions
      ensures Valid()
      ensures (State(), r) == UpdateOutcome(old(State()), id, Failed, None, Some(error), now)
    {
      r := Update(id, Failed, None, Some(error), now);
    }

    /** The actions of a session in the order of their sequences. */
    method List(session: nat) returns (records: seq<ActionRecord>)
      requires Valid()
      ensures |records| == Count(actions, SessionOf, session)
      ensures forall k :: 0 <= k < |records| ==> records[k].sequence == k + 1 && records[k].sessionId == session
      ensures
        forall r :: r in records <==> exists i :: 0 <= i < |actions| && actions[i].record == r && r.sessionId == session
    {
      var selected := Filter(actions, InLane(SessionOf, session));
      LaneLength(actions, SessionOf, session);
      SelectedInOrder(actions, session);
      var ordered := SortBy(selected, BySequence);
      records := seq(|ordered|, k requires 0 <= k < |ordered| => ordered[k].record);
      ListedRecords(actions, session, records);
    }

    /** The updates of the recovery: one for each action found running. */
    method MarkInterrupted(now: I64) returns (count: nat)
      modifies this`actions
      ensures actions == RecoverActions(old(actions), now)
      ensures count == RunningCount(old(actions))
    {
      var was := actions;
      count := 0;
      for i := 0 to |was|
        invariant |actions| == |was|
        invariant forall k ::
            0 <= k < |was| ==>
              actions[k] == if k < i && was[k].status.Running? then Interrupted(was[k], now) else was[k]
        invariant count == RunningCount(was[..i])
      {
        assert was[..i + 1][..i] == was[..i];
        if was[i].status.Running? {
          actions := actions[i := Interrupted(was[i], now)];
          count := count + 1;
        }
      }
      assert was[..|was|] == was;
    }

    method RecoverInterrupted(now: I64) returns (count: nat)
      requires Valid()
      modifies this
      ensures Valid()
      ensures State() == RecoverOutcome(old(State()), now)
      ensures count == RunningCount(old(actions))
    {
      RecoverKeepsSound(State(), now);
      count := MarkInterrupted(now);
      sessions := RecoverSessions(sessions, now);
    }
  }

  /** The actions of a session stand in the order of their sequences already. */
  lemma SelectedInOrder(actions: seq<ActionRow>, session: nat)
    requires SoundActions(actions)
    ensures
      var selected := Filter(actions, InLane(SessionOf, session));
      && SortBy(selected, BySequence) == selected
      && forall k :: 0 <= k < |selected| ==>
           selected[k].record.sequence == k + 1 && selected[k].record.sessionId == session
  {
    var selected := Filter(actions, InLane(SessionOf, session));
    forall k | 0 <= k < |selected|
      ensures selected[k].record.sequence == k + 1 && selected[k].record.sessionId == session
    {
      LaneRunsFromOne(actions, SessionOf, SequenceOf, session, k);
      assert selected[k] in selected;
    }
    assert Sorted(selected, BySequence);
    SortOfSorted(selected, BySequence);
  }

  lemma ListedRecords(actions: seq<ActionRow>, session: nat, records: seq<ActionRecord>)
    requires
      var selected := Filter(actions, InLane(SessionOf, session));
      |records| == |selected| && forall k :: 0 <= k < |records| ==> records[k] == selected[k].record
    ensures
      forall r :: r in records <==> exists i :: 0 <= i < |actions| && actions[i].record == r && r.sessionId == session
  {
    var selected := Filter(actions, InLane(SessionOf, session));
    forall r | r in records
      ensures exists i :: 0 <= i < |actions| && actions[i].record == r && r.sessionId == session
    {
      var k :| 0 <= k < |records| && records[k] == r;
      assert selected[k] in selected;
      var i :| 0 <= i < |actions| && actions[i] == selected[k];
    }
    forall i | 0 <= i < |actions| && actions[i].record.sessionId == session ensures actions[i].record in records {
      assert actions[i] in selected;
      var k :| 0 <= k < |selected| && selected[k] == actions[i];
      assert records[k] == actions[i].record;
    }
  }

  // ---------------------------------------------------------------- histories of the journal

  datatype Op =
    | BeginOp(record: ActionRecord)
    | UpdateOp(id: nat, status: ActionStatus, summary: Option<string>, error: Option<BrowserError>, now: I64)
    | UpsertOp(session: nat, sessionStatus: SessionStatus, now: I64)
    | RecoverOp(now: I64)

  /** What the callers of the journal keep to. */
  predicate Proper(op: Op) {
    (op.BeginOp? ==> Fresh(op.record)) && (op.UpdateOp? ==> !op.status.Running?)
  }

  function Step(j: Journal, op: Op): Journal {
    match op
    case BeginOp(record) => BeginOutcome(j, record).0
    case UpdateOp(id, status, summary, error, now) => UpdateOutcome(j, id, status, summary, error, now).0
    case UpsertOp(session, status, now) => UpsertOutcome(j, session, status, now)
    case RecoverOp(now) => RecoverOutcome(j, now)
  }

  function From(j: Journal, ops: seq<Op>): Journal {
    if ops == [] then j else Step(From(j, ops[..|ops| - 1]), ops[|ops| - 1])
  }

  ghost predicate AllProper(ops: seq<Op>) {
    forall op :: op in ops ==> Proper(op)
  }

  lemma StepKeepsSound(j: Journal, op: Op)
    requires Sound(j) && Proper(op)
    ensures Sound(Step(j, op))
  {
    match op {
      case BeginOp(record) => BeginKeepsSound(j, record);
      case UpdateOp(id, status, summary, error, now) => UpdateKeepsSound(j, id, status, summary, error, now);
      case UpsertOp(session, status, now) =>
      case RecoverOp(now) => RecoverKeepsSound(j, now);
    }
  }

  lemma {:induction false} StaysSound(j: Journal, ops: seq<Op>)
    requires Sound(j) && AllProper(ops)
    ensures Sound(From(j, ops))
  {
    if ops != [] {
      StaysSound(j, ops[..|ops| - 1]);
      StepKeepsSound(From(j, ops[..|ops| - 1]), ops[|ops| - 1]);
    }
  }

  /** The actions of each session are numbered 1, 2, 3 and so on in the order they were begun. */
  lemma SessionActionsAreNumbered(ops: seq<Op>, session: nat, k: nat)
    requires AllProper(ops)
    requires k < |Filter(From(EMPTY, ops).actions, InLane(SessionOf, session))|
    ensures Filter(From(EMPTY, ops).actions, InLane(SessionOf, session))[k].record.sequence == k + 1
  {
    StaysSound(EMPTY, ops);
    LaneRunsFromOne(From(EMPTY, ops).actions, SessionOf, SequenceOf, session, k);
  }

  /** An action that is no longer running is never changed again. */
  lemma {:induction false} EndedIsForever(j: Journal, ops: seq<Op>, i: nat)
    requires Sound(j) && AllProper(ops) && i < |j.actions| && !j.actions[i].status.Running?
    ensures i < |From(j, ops).actions| && From(j, ops).actions[i] == j.actions[i]
  {
    if ops != [] {
      EndedIsForever(j, ops[..|ops| - 1], i);
      StaysSound(j, ops[..|ops| - 1]);
      EndedStays(From(j, ops[..|ops| - 1]), ops[|ops| - 1], i);
    }
  }

  lemma EndedStays(j: Journal, op: Op, i: nat)
    requires Sound(j) && i < |j.actions| && !j.actions[i].status.Running?
    ensures i < |Step(j, op).actions| && Step(j, op).actions[i] == j.actions[i]
  {
    assert RowSound(j.actions[i]);
  }

  /** After recovery nothing is running and no session is in flight, whatever was cut off before;
      actions that had ended and sessions at rest are as they were. */
  lemma RecoveryLeavesNothingOpen(ops: seq<Op>, now: I64)
    requires AllProper(ops)
    ensures
      var before, after := From(EMPTY, ops), RecoverOutcome(From(EMPTY, ops), now);
      && |after.actions| == |before.actions|
      && forall i ::
           0 <= i < |after.actions| ==>
             && !after.actions[i].record.status.Running?
             && (if before.actions[i].record.status.Running? then after.actions[i].record.status.Uncertain?
                 else after.actions[i] == before.actions[i])
    ensures
      var before, after := From(EMPTY, ops), RecoverOutcome(From(EMPTY, ops), now);
      && after.sessions.Keys == before.sessions.Keys
      && forall s ::
           s in after.sessions ==>
             && !InFlight(after.sessions[s].status)
             && (InFlight(before.sessions[s].status) || after.sessions[s] == before.sessions[s])
  {
    StaysSound(EMPTY, ops);
    var before := From(EMPTY, ops);
    assert forall i :: 0 <= i < |before.actions| ==> RowSound(before.actions[i]);
  }
}
