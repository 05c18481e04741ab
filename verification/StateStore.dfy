/** Rows that are replaced only over the version their writer names. Nothing here depends on what
    the rows hold, so endpoints and sessions share it. */
module VersionedRows {
  import opened Prelude

  datatype Row<T> = Row(state: T, version: U64)

  datatype Attempt<T> = Insert(id: nat, state: T, version: U64) | Replace(id: nat, expected: U64, state: T)

  /** The new version can be bound to the statement, which takes signed integers. */
  predicate Bindable(expected: U64) {
    SatAddU64(expected, 1) <= I64_MAX
  }

  predicate Accepted<T>(rows: map<nat, Row<T>>, a: Attempt<T>) {
    match a
    case Insert(id, _, version) => version == 1 && id !in rows
    case Replace(id, expected, _) => Bindable(expected) && id in rows && rows[id].version == expected
  }

  function Apply<T>(rows: map<nat, Row<T>>, a: Attempt<T>): map<nat, Row<T>> {
    if !Accepted(rows, a) then rows
    else match a
      case Insert(id, state, version) => rows[id := Row(state, version)]
      case Replace(id, expected, state) => rows[id := Row(state, SatAddU64(expected, 1))]
  }

  function From<T>(rows: map<nat, Row<T>>, history: seq<Attempt<T>>): map<nat, Row<T>> {
    if history == [] then rows else Apply(From(rows, history[..|history| - 1]), history[|history| - 1])
  }

  function After<T>(history: seq<Attempt<T>>): map<nat, Row<T>> {
    From(map[], history)
  }

  /** A row only ever moves on to later versions, and an unchanged version means an unchanged row. */
  lemma {:induction false} RowsMoveOn<T>(rows: map<nat, Row<T>>, more: seq<Attempt<T>>, id: nat)
    requires id in rows
    ensures id in From(rows, more) && rows[id].version <= From(rows, more)[id].version
    ensures From(rows, more)[id].version == rows[id].version ==> From(rows, more)[id] == rows[id]
    decreases |more|
  {
    if more != [] {
      RowsMoveOn(rows, more[..|more| - 1], id);
    }
  }

  /** No lost update: a replacement over the version a client read is accepted exactly if the row is
      still what the client read, whatever the other clients attempted in between; at the end of
      the version range it is never accepted. */
  lemma ReplacesWhatWasRead<T>(rows: map<nat, Row<T>>, more: seq<Attempt<T>>, id: nat, state: T)
    requires id in rows
    ensures Accepted(From(rows, more), Replace(id, rows[id].version, state)) <==>
        rows[id].version < I64_MAX && id in From(rows, more) && From(rows, more)[id] == rows[id]
  {
    RowsMoveOn(rows, more, id);
  }

  ghost function Successors<T>(history: seq<Attempt<T>>, id: nat, version: U64): nat {
    if history == [] then 0
    else
      var before, a := history[..|history| - 1], history[|history| - 1];
      var done := a.Replace? && a.id == id && a.expected == version && Accepted(After(before), a);
      Successors(before, id, version) + if done then 1 else 0
  }

  lemma {:induction false} VersionsStartAtOne<T>(history: seq<Attempt<T>>, id: nat)
    requires id in After(history)
    ensures 1 <= After(history)[id].version <= I64_MAX
  {
    var before := history[..|history| - 1];
    if id in After(before) {
      VersionsStartAtOne(before, id);
    }
  }

  /** Each version of a row is replaced at most once, and once exactly when the row has moved past it. */
  lemma {:induction false} EachVersionHasOneSuccessor<T>(history: seq<Attempt<T>>, id: nat, version: U64)
    ensures Successors(history, id, version)
      == if id in After(history) && 1 <= version < After(history)[id].version then 1 else 0
  {
    if history != [] {
      var before := history[..|history| - 1];
      EachVersionHasOneSuccessor(before, id, version);
      if id in After(before) {
        VersionsStartAtOne(before, id);
      }
    }
  }

  /** What an accepted attempt stores, and under which version; no other row changes. */
  lemma AcceptedIsStored<T>(rows: map<nat, Row<T>>, a: Attempt<T>)
    ensures Accepted(rows, a) ==>
        && Apply(rows, a).Keys == rows.Keys + {a.id} && Apply(rows, a)[a.id].state == a.state
        && Apply(rows, a)[a.id].version == (if a.Insert? then 1 else rows[a.id].version + 1)
        && forall other :: other in rows && other != a.id ==> Apply(rows, a)[other] == rows[other]
    ensures !Accepted(rows, a) ==> Apply(rows, a) == rows
    ensures Accepted(rows, a) <==>
        if a.Insert? then a.version == 1 && a.id !in rows
        else a.id in rows && rows[a.id].version == a.expected && a.expected < I64_MAX
  {
  }

  /** What the last accepted attempt on a row stored. */
  function LastStored<T>(history: seq<Attempt<T>>, id: nat): Option<T> {
    if history == [] then None
    else
      var before, a := history[..|history| - 1], history[|history| - 1];
      if a.id == id && Accepted(After(before), a) then Some(a.state) else LastStored(before, id)
  }

  /** A row holds what the last accepted attempt on it stored; without one there is no row. */
  lemma {:induction false} RowIsTheLastStored<T>(history: seq<Attempt<T>>, id: nat)
    ensures LastStored(history, id) == if id in After(history) then Some(After(history)[id].state) else None
  {
    if history != [] {
      RowIsTheLastStored(history[..|history| - 1], id);
    }
  }

  /** A second replacement over the same version is never accepted. */
  lemma SecondReplacementNever<T>(rows: map<nat, Row<T>>, id: nat, version: U64, first: T, second: T)
    requires Accepted(rows, Replace(id, version, first))
    ensures !Accepted(Apply(rows, Replace(id, version, first)), Replace(id, version, second))
  {
  }
}

/** The store of agent endpoints and sessions. */
module StateStore {
  import opened Prelude
  import opened Ordering
  import opened VersionedRows
  import ProfileContract

  datatype EndpointStatus = Offline | Idle | Busy | Draining | EndpointFailed

  datatype AgentEndpoint = AgentEndpoint(
    id: nat, definitionId: nat, instanceId: nat, status: EndpointStatus, generation: U64,
    activeRuns: nat, maxConcurrency: nat, lastHeartbeat: I64, version: U64)

  datatype SessionStatus =
    | Prepared | Running | WaitingTool | WaitingApproval | Submitted | Completed | CancelRequested | Cancelled | Failed

  datatype AgentSession = AgentSession(
    id: nat, missionId: nat, taskId: nat, runId: nat, parentRunId: Option<nat>, endpointId: nat, agentDefinitionId: nat,
    role: ProfileContract.AgentRole, status: SessionStatus, contextFingerprint: nat, previousResponseId: Option<nat>,
    createdAt: I64, updatedAt: I64, version: U64)

  /** A session row repeats its status and its time of change in columns. */
  datatype SessionRow = SessionRow(json: AgentSession, status: SessionStatus, updatedAt: I64)

  datatype StoreError = InitialVersion | Duplicate | CasConflict | VersionOutOfRange

  /** What an update reports: a version the statement cannot take, a conflict, or success. */
  function UpdateReply<T>(rows: map<nat, Row<T>>, id: nat, expected: U64): Result<(), StoreError> {
    if !Bindable(expected) then Err(VersionOutOfRange)
    else if id in rows && rows[id].version == expected then Ok(())
    else Err(CasConflict)
  }

  /** The version the caller's copy leaves with: only a conflict puts the expected one back. */
  function VersionLeft(expected: U64, reply: Result<(), StoreError>): U64 {
    if reply == Err(CasConflict) then expected else SatAddU64(expected, 1)
  }

  predicate Recoverable(s: SessionStatus) {
    s.Prepared? || s.Running? || s.WaitingTool? || s.WaitingApproval? || s.CancelRequested?
  }

  /** Sessions in a final state, or submitted, are not recovered. */
  lemma RecoverableIff(s: SessionStatus)
    ensures Recoverable(s) <==> s !in {Submitted, Completed, Cancelled, Failed}
  {
  }

  /** What an update answers, and what the caller's copy leaves with. */
  lemma UpdateAnswers<T>(rows: map<nat, Row<T>>, id: nat, expected: U64)
    ensures
      var r, there := UpdateReply(rows, id, expected), id in rows && rows[id].version == expected;
      && (r == Err(VersionOutOfRange) <==> expected >= I64_MAX)
      && (r.Ok? <==> there && expected < I64_MAX)
      && (r == Err(CasConflict) <==> !there && expected < I64_MAX)
      && VersionLeft(expected, r)
         == (if r == Err(CasConflict) then expected else if expected == U64_MAX then expected else expected + 1)
  {
  }

  const ToRecover: SessionRow -> bool := (r: SessionRow) => Recoverable(r.json.status)

  function RowOf(s: AgentSession): SessionRow {
    SessionRow(s, s.status, s.updatedAt)
  }

  /** The serialised state and the columns tell the same story. */
  ghost predicate EndpointsAgree(rows: map<nat, Row<AgentEndpoint>>) {
    forall id :: id in rows ==> rows[id].state.id == id && rows[id].state.version == rows[id].version
  }

  ghost predicate SessionsAgree(rows: map<nat, Row<SessionRow>>) {
    forall id ::
      id in rows ==>
        && rows[id].state == RowOf(rows[id].state.json)
        && rows[id].state.json.id == id && rows[id].state.json.version == rows[id].version
  }

  const ByAge: SessionRow -> Key := (r: SessionRow) => (r.updatedAt as int, r.json.id as int)

  ghost predicate Listed(rows: map<nat, Row<SessionRow>>, out: seq<AgentSession>) {
    && (forall s :: s in out <==> s.id in rows && rows[s.id].state.json == s && Recoverable(s.status))
    && (forall i, j ::
          0 <= i < j < |out| ==>
            || out[i].updatedAt < out[j].updatedAt
            || (out[i].updatedAt == out[j].updatedAt && out[i].id < out[j].id))
  }

  class AgentStateStore {
    var endpoints: map<nat, Row<AgentEndpoint>>
    var sessions: map<nat, Row<SessionRow>>

    ghost predicate Valid()
      reads this
    {
      EndpointsAgree(endpoints) && SessionsAgree(sessions)
    }

    constructor ()
      ensures Valid() && endpoints == map[] && sessions == map[]
    {
      endpoints, sessions := map[], map[];
    }

    method CreateEndpoint(e: AgentEndpoint) returns (r: Result<(), StoreError>)
      requires Valid()
      modifies this`endpoints
      ensures Valid()
      ensures endpoints == Apply(old(endpoints), Insert(e.id, e, e.version))
      ensures
        r == if e.version != 1 then Err(InitialVersion) else if e.id in old(endpoints) then Err(Duplicate) else Ok(())
    {
      if e.version != 1 {
        return Err(InitialVersion);
      }
      if e.id in endpoints {
        return Err(Duplicate);
      }
      endpoints := endpoints[e.id := Row(e, e.version)];
      r := Ok(());
    }

    method UpdateEndpoint(expected: U64, e: AgentEndpoint) returns (r: Result<(), StoreError>, e': AgentEndpoint)
      requires Valid()
      modifies this`endpoints
      ensures Valid()
      ensures endpoints == Apply(old(endpoints), Replace(e.id, expected, e'))
      ensures r == UpdateReply(old(endpoints), e.id, expected)
      ensures e' == e.(version := VersionLeft(expected, r))
    {
      e' := e.(version := SatAddU64(expected, 1));
      if e'.version > I64_MAX {
        return Err(VersionOutOfRange), e';
      }
      if !(e.id in endpoints && endpoints[e.id].version == expected) {
        e' := e'.(version := expected);
        return Err(CasConflict), e';
      }
      endpoints := endpoints[e.id := Row(e', e'.version)];
      r := Ok(());
    }

    method CreateSession(s: AgentSession) returns (r: Result<(), StoreError>)
      requires Valid()
      modifies this`sessions
      ensures Valid()
      ensures sessions == Apply(old(sessions), Insert(s.id, RowOf(s), s.version))
      ensures
        r == if s.version != 1 then Err(InitialVersion) else if s.id in old(sessions) then Err(Duplicate) else Ok(())
    {
      if s.version != 1 {
        return Err(InitialVersion);
      }
      if s.id in sessions {
        return Err(Duplicate);
      }
      sessions := sessions[s.id := Row(SessionRow(s, s.status, s.updatedAt), s.version)];
      r := Ok(());
    }

    method UpdateSession(expected: U64, s: AgentSession) returns (r: Result<(), StoreError>, s': AgentSession)
      requires Valid()
      modifies this`sessions
      ensures Valid()
      ensures sessions == Apply(old(sessions), Replace(s.id, expected, RowOf(s')))
      ensures r == UpdateReply(old(sessions), s.id, expected)
      ensures s' == s.(version := VersionLeft(expected, r))
    {
      s' := s.(version := SatAddU64(expected, 1));
      if s'.version > I64_MAX {
        return Err(VersionOutOfRange), s';
      }
      if !(s.id in sessions && sessions[s.id].version == expected) {
        s' := s'.(version := expected);
        return Err(CasConflict), s';
      }
      sessions := sessions[s.id := Row(SessionRow(s', s'.status, s'.updatedAt), s'.version)];
      r := Ok(());
    }

    method SessionIds() returns (ids: seq<nat>)
      ensures StrictlyAscending(ids) && forall x :: x in ids <==> x in sessions
    {
      AscendingIsExact(sessions.Keys);
      ids := Ascending(sessions.Keys);
    }

    /** Every session row, in the order of the ids. */
    method AllSessions() returns (table: seq<SessionRow>)
      requires Valid()
      ensures forall r :: r in table <==> r.json.id in sessions && sessions[r.json.id].state == r
      ensures forall i, j :: 0 <= i < j < |table| ==> table[i] != table[j]
    {
      var ids := SessionIds();
      table := [];
      for k := 0 to |ids|
        invariant |table| == k
        invariant forall i :: 0 <= i < k ==> table[i] == sessions[ids[i]].state
      {
        table := table + [sessions[ids[k]].state];
      }
      ListedOnce(sessions, ids, table);
    }

    /** The recoverable sessions, each once, the longest untouched first and ties by id. */
    method RecoverableSessions() returns (out: seq<AgentSession>)
      requires Valid()
      ensures Listed(sessions, out)
    {
      var table := AllSessions();
      var ordered := SortBy(table, ByAge);
      DistinctSortStrictly(table, ByAge);
      RearrangementMembers(ordered, table);
      var kept := Filter(ordered, ToRecover);
      FilterStaysStrict(ordered, ByAge, ToRecover);
      out := seq(|kept|, i requires 0 <= i < |kept| => kept[i].json);
      KeptAreListed(sessions, kept, out);
    }
  }

  lemma ListedOnce(rows: map<nat, Row<SessionRow>>, ids: seq<nat>, table: seq<SessionRow>)
    requires SessionsAgree(rows) && StrictlyAscending(ids) && |table| == |ids|
    requires forall x :: x in ids <==> x in rows
    requires forall i :: 0 <= i < |ids| ==> table[i] == rows[ids[i]].state
    ensures forall r :: r in table <==> r.json.id in rows && rows[r.json.id].state == r
    ensures forall i, j :: 0 <= i < j < |table| ==> table[i] != table[j]
  {
  }

  lemma KeptAreListed(rows: map<nat, Row<SessionRow>>, kept: seq<SessionRow>, out: seq<AgentSession>)
    requires SessionsAgree(rows) && StrictlySorted(kept, ByAge)
    requires forall r :: r in kept <==> r.json.id in rows && rows[r.json.id].state == r && Recoverable(r.json.status)
    requires |out| == |kept| && forall i :: 0 <= i < |out| ==> out[i] == kept[i].json
    ensures Listed(rows, out)
  {
  }
}
