/** Runs of many clients over the escrow table. A client reads, other clients act, and only then
    does it write; the version check decides whether the write takes effect. */
module BudgetRuns {
  import opened Prelude
  import opened BudgetEscrow

  datatype Event =
    | Reserve(mission: nat, run: nat, request: Request, policy: Policy, now: I64)
    | ReadForCharge(client: nat, run: nat, tokens: U64, toolCalls: U64, now: I64)
    | ReadForRelease(client: nat, run: nat, status: Status)
    | Write(client: nat)

  /** The table, and what each client has read and not yet written. */
  datatype System = System(rows: Table, pending: map<nat, Intent>)

  const START: System := System(map[], map[])

  ghost function Step(s: System, e: Event): System {
    match e
    case Reserve(mission, run, request, policy, now) =>
      s.(rows := ReserveOutcome(s.rows, mission, run, request, policy, now).0)
    case ReadForCharge(client, run, tokens, toolCalls, now) =>
      var r := ChargeRead(s.rows, run, tokens, toolCalls, now);
      if r.Ok? then s.(pending := s.pending[client := r.value]) else s
    case ReadForRelease(client, run, status) =>
      var r := ReleaseRead(s.rows, run, status);
      if r.Proceed? then s.(pending := s.pending[client := r.intent]) else s
    case Write(client) =>
      if client in s.pending then System(WriteOutcome(s.rows, s.pending[client]).0, s.pending - {client}) else s
  }

  ghost function From(s: System, events: seq<Event>): System {
    if events == [] then s else Step(From(s, events[..|events| - 1]), events[|events| - 1])
  }

  ghost function After(events: seq<Event>): System {
    From(START, events)
  }

  // ---------------------------------------------------------------- versions pin contents

  /** What a client read is still the row's content if the version has not moved on. */
  ghost predicate Pinned(rows: Table, i: Intent) {
    && IntentSound(i) && i.run in rows
    && i.was.version <= rows[i.run].version
    && (i.was.version == rows[i.run].version ==> rows[i.run].json == i.was)
  }

  ghost predicate Consistent(s: System) {
    && Sound(s.rows)
    && (forall c :: c in s.pending ==> Pinned(s.rows, s.pending[c]))
  }

  /** How a step may change a row: not at all, or to the next version. */
  ghost predicate MovesOn(was: Row, now: Row) {
    now == was || (was.status.Active? && now.version == was.version + 1)
  }

  lemma ReserveMoves(rows: Table, mission: nat, run: nat, r: Request, p: Policy, now: I64, other: nat)
    requires Sound(rows) && other in rows
    ensures
      var after := ReserveOutcome(rows, mission, run, r, p, now).0; other in after && MovesOn(rows[other], after[other])
  {
  }

  lemma StepMoves(s: System, e: Event, other: nat)
    requires Consistent(s) && other in s.rows
    ensures other in Step(s, e).rows && MovesOn(s.rows[other], Step(s, e).rows[other])
  {
    match e {
      case Reserve(mission, run, request, policy, now) => ReserveMoves(s.rows, mission, run, request, policy, now,
          other);
      case ReadForCharge(_, _, _, _, _) =>
      case ReadForRelease(_, _, _) =>
      case Write(client) =>
    }
  }

  lemma StaysPinned(rows: Table, after: Table, i: Intent)
    requires Pinned(rows, i) && i.run in after && MovesOn(rows[i.run], after[i.run])
    ensures Pinned(after, i)
  {
  }

  lemma StepKeepsSound(s: System, e: Event)
    requires Consistent(s)
    ensures Sound(Step(s, e).rows)
  {
    match e {
      case Reserve(mission, run, request, policy, now) => ReserveKeepsSound(s.rows, mission, run, request, policy, now);
      case ReadForCharge(_, _, _, _, _) =>
      case ReadForRelease(_, _, _) =>
      case Write(client) => if client in s.pending { WriteKeepsSound(s.rows, s.pending[client]); }
    }
  }

  /** A fresh reservation starts at version one. */
  lemma NewRowsStartAtOne(s: System, e: Event, run: nat)
    requires run in Step(s, e).rows && run !in s.rows
    ensures e.Reserve? && e.run == run && Step(s, e).rows[run] == RowFor(Opened(e.mission, run, e.request, e.now))
  {
  }

  lemma StepKeepsPins(s: System, e: Event)
    requires Consistent(s)
    ensures forall c :: c in Step(s, e).pending ==> Pinned(Step(s, e).rows, Step(s, e).pending[c])
  {
    var after := Step(s, e);
    forall c | c in after.pending ensures Pinned(after.rows, after.pending[c]) {
      if c in s.pending && after.pending[c] == s.pending[c] {
        StepMoves(s, e, s.pending[c].run);
        StaysPinned(s.rows, after.rows, s.pending[c]);
      } else {
        assert after.rows == s.rows;
        ReadsAreSound(s.rows, e.run, if e.ReadForCharge? then e.tokens else 0,
            if e.ReadForCharge? then e.toolCalls else 0, if e.ReadForCharge? then e.now else 0,
            if e.ReadForRelease? then e.status else Expired);
        assert RowSound(e.run, s.rows[e.run]);
      }
    }
  }

  /** In every run the columns agree with the serialised escrow, no escrow is overdrawn, and an
      unchanged version means unchanged contents for every reader. */
  lemma {:induction false} AlwaysConsistent(events: seq<Event>)
    ensures Consistent(After(events))
  {
    if events != [] {
      var before, e := After(events[..|events| - 1]), events[|events| - 1];
      AlwaysConsistent(events[..|events| - 1]);
      StepKeepsSound(before, e);
      StepKeepsPins(before, e);
    }
  }

  // ---------------------------------------------------------------- no update is lost

  /** The event is a write that takes effect. */
  ghost predicate TakesEffect(s: System, e: Event) {
    e.Write? && e.client in s.pending && WriteOutcome(s.rows, s.pending[e.client]).1.Ok?
  }

  ghost predicate Succeeds(s: System, e: Event, run: nat, version: U64) {
    TakesEffect(s, e) && s.pending[e.client].run == run && s.pending[e.client].was.version == version
  }

  /** How many writes to an escrow took effect over a given version. */
  ghost function Successors(events: seq<Event>, run: nat, version: U64): nat {
    if events == [] then 0
    else
      var before, e := events[..|events| - 1], events[|events| - 1];
      Successors(before, run, version) + if Succeeds(After(before), e, run, version) then 1 else 0
  }

  lemma {:induction false} SuccessorsMovedOn(events: seq<Event>, run: nat, version: U64)
    ensures Successors(events, run, version) <= 1
    ensures
      Successors(events, run, version) == 1 ==> run in After(events).rows && After(events).rows[run].version > version
  {
    if events != [] {
      var before, e := events[..|events| - 1], events[|events| - 1];
      SuccessorsMovedOn(before, run, version);
      AlwaysConsistent(before);
      if run in After(before).rows {
        StepMoves(After(before), e, run);
      }
    }
  }

  /** At most one write takes effect over each version of an escrow. */
  lemma EachVersionHasOneSuccessor(events: seq<Event>, run: nat, version: U64)
    ensures Successors(events, run, version) <= 1
  {
    SuccessorsMovedOn(events, run, version);
  }

  /** Two clients read the same version: once one of them has written, the other cannot, not even
      at the end of the version range. */
  lemma SecondWriterNeverWins(rows: Table, first: Intent, second: Intent)
    requires IntentSound(first) && IntentSound(second) && first.run == second.run
    requires first.was.version == second.was.version && WriteOutcome(rows, first).1.Ok?
    ensures WriteOutcome(WriteOutcome(rows, first).0, second) == (WriteOutcome(rows, first).0, Err(CasConflict))
  {
  }

  // ---------------------------------------------------------------- conservation

  /** The tokens and tool calls of the charges that returned successfully. */
  ghost function Charged(events: seq<Event>, run: nat): (nat, nat) {
    if events == [] then (0, 0)
    else
      var s, e, rest := After(events[..|events| - 1]), events[|events| - 1], Charged(events[..|events| - 1], run);
      if TakesEffect(s, e) && s.pending[e.client].run == run
      then (rest.0 + s.pending[e.client].tokens, rest.1 + s.pending[e.client].toolCalls) else rest
  }

  ghost predicate Accounts(e: Escrow, charged: (nat, nat)) {
    e.consumedTokens == Min(charged.0, U64_MAX) && e.consumedToolCalls == Min(charged.1, U64_MAX)
  }

  lemma StepAccounts(s: System, e: Event, run: nat, charged: (nat, nat))
    requires Consistent(s)
    requires if run in s.rows then Accounts(s.rows[run].json, charged) else charged == (0, 0)
    ensures
      var now := if TakesEffect(s, e) && s.pending[e.client].run == run then (charged.0 + s.pending[e.client].tokens,
          charged.1 + s.pending[e.client].toolCalls) else charged;
      if run in Step(s, e).rows then Accounts(Step(s, e).rows[run].json, now) else now == (0, 0)
  {
    if run in s.rows {
      assert RowSound(run, s.rows[run]);
      StepMoves(s, e, run);
    } else if run in Step(s, e).rows {
      NewRowsStartAtOne(s, e, run);
    }
    if TakesEffect(s, e) && s.pending[e.client].run == run {
      assert Pinned(s.rows, s.pending[e.client]);
    }
  }

  lemma {:induction false} AccountsBalance(events: seq<Event>, run: nat)
    ensures
      if run in After(events).rows
      then Accounts(After(events).rows[run].json, Charged(events, run))
      else Charged(events, run) == (0, 0)
  {
    if events != [] {
      var before := events[..|events| - 1];
      AccountsBalance(before, run);
      AlwaysConsistent(before);
      StepAccounts(After(before), events[|events| - 1], run, Charged(before, run));
    }
  }

  /** However the clients interleave, an escrow's consumption is the sum of the charges that
      succeeded. Only an escrow that reserves the largest integer can stop counting, there. */
  lemma ConsumedIsTheSumOfCharges(events: seq<Event>, run: nat)
    requires run in After(events).rows
    ensures
      var e := After(events).rows[run].json;
      e.consumedTokens == Min(Charged(events, run).0, U64_MAX) <= e.reservedTokens
    ensures
      var e := After(events).rows[run].json;
      e.consumedToolCalls == Min(Charged(events, run).1, U64_MAX) <= e.reservedToolCalls
    ensures
      var e := After(events).rows[run].json; e.reservedTokens < U64_MAX ==> e.consumedTokens == Charged(events, run).0
    ensures
      var e := After(events).rows[run].json;
      e.reservedToolCalls < U64_MAX ==> e.consumedToolCalls == Charged(events, run).1
  {
    AccountsBalance(events, run);
    AlwaysConsistent(events);
    assert RowSound(run, After(events).rows[run]);
  }

  lemma OneMoreEvent(events: seq<Event>, e: Event, run: nat)
    ensures After(events + [e]) == Step(After(events), e)
    ensures
      var s, rest := After(events), Charged(events, run);
      Charged(events + [e], run) ==
        if TakesEffect(s, e) && s.pending[e.client].run == run
        then (rest.0 + s.pending[e.client].tokens, rest.1 + s.pending[e.client].toolCalls) else rest
  {
    assert (events + [e])[..|events|] == events;
  }

  lemma EmptyTableAdmits(mission: nat, r: Request, p: Policy)
    requires RequestSound(r, p)
    ensures Refusal(map[], mission, r, p).None?
  {
    var none: Table := map[];
    assert ActiveRuns(none, mission) == {};
  }

  lemma FirstReservation(mission: nat, run: nat, r: Request, p: Policy)
    requires RequestSound(r, p)
    ensures After([Reserve(mission, run, r, p, 0)]) == System(map[run := RowFor(Opened(mission, run, r, 0))], map[])
  {
    var none: Table := map[];
    EmptyTableAdmits(mission, r, p);
    assert Swept(none, 0) == none;
    OneMoreEvent([], Reserve(mission, run, r, p, 0), run);
    assert [] + [Reserve(mission, run, r, p, 0)] == [Reserve(mission, run, r, p, 0)];
    assert none[run := RowFor(Opened(mission, run, r, 0))] == map[run := RowFor(Opened(mission, run, r, 0))];
  }

  /** A client alone with one escrow: its charge takes effect and is counted. */
  lemma ChargeAlone(events: seq<Event>, e: Escrow, tokens: U64)
    requires After(events) == System(map[0 := RowFor(e)], map[]) && e.runId == 0 && e.version < 100
    requires e.status.Active? && e.expires > 0 && SatAddU64(e.consumedTokens, tokens) <= e.reservedTokens
    requires e.consumedToolCalls == 0
    ensures
      var more := events + [ReadForCharge(0, 0, tokens, 0, 0)] + [Write(0)];
      var next := e.(consumedTokens := SatAddU64(e.consumedTokens, tokens), version := e.version + 1);
      && After(more) == System(map[0 := RowFor(next)], map[])
      && Charged(more, 0).0 == Charged(events, 0).0 + tokens
  {
    var next := e.(consumedTokens := SatAddU64(e.consumedTokens, tokens), version := e.version + 1);
    OneMoreEvent(events, ReadForCharge(0, 0, tokens, 0, 0), 0);
    assert ChargeRead(map[0 := RowFor(e)], 0, tokens, 0, 0) == Ok(Intent(0, e, next, false, tokens, 0));
    OneMoreEvent(events + [ReadForCharge(0, 0, tokens, 0, 0)], Write(0), 0);
    assert map[0 := RowFor(e)][0 := RowFor(next)] == map[0 := RowFor(next)];
  }

  /** At the largest reservation consumption does stop counting: after a charge for all of it a
      further charge still succeeds. */
  lemma LargestEscrowStopsCounting(p: Policy)
    requires p.maxAgents > 0 && p.maxParallelAgents > 0 && p.maxTotalTokens == U64_MAX && p.maxRuntimeMillis > 0
    ensures
      var open := Reserve(0, 0, Request(U64_MAX, 0, 1, 0), p, 0);
      var charges := [ReadForCharge(0, 0, U64_MAX, 0, 0), Write(0), ReadForCharge(0, 0, 1, 0, 0), Write(0)];
      var events := [open] + charges;
      && Charged(events, 0).0 == U64_MAX + 1
      && 0 in After(events).rows && After(events).rows[0].json.consumedTokens == U64_MAX
  {
    var open := Reserve(0, 0, Request(U64_MAX, 0, 1, 0), p, 0);
    var charges := [ReadForCharge(0, 0, U64_MAX, 0, 0), Write(0), ReadForCharge(0, 0, 1, 0, 0), Write(0)];
    var e := Opened(0, 0, open.request, 0);
    FirstReservation(0, 0, open.request, p);
    assert Charged([open], 0).0 == 0;
    var once := [open] + [charges[0]] + [charges[1]];
    ChargeAlone([open], e, U64_MAX);
    ChargeAlone(once, e.(consumedTokens := U64_MAX, version := 2), 1);
    assert [open] + charges == once + [charges[2]] + [charges[3]];
  }

  // ---------------------------------------------------------------- terminal states

  lemma {:induction false} TerminalStays(s: System, more: seq<Event>, run: nat)
    requires Consistent(s)
    requires run in s.rows && !s.rows[run].status.Active?
    ensures Consistent(From(s, more))
    ensures run in From(s, more).rows && From(s, more).rows[run] == s.rows[run]
    decreases |more|
  {
    if more != [] {
      var before, e := From(s, more[..|more| - 1]), more[|more| - 1];
      TerminalStays(s, more[..|more| - 1], run);
      StepKeepsSound(before, e);
      StepKeepsPins(before, e);
      StepMoves(before, e, run);
    }
  }

  /** An escrow that has left the active state never changes again. */
  lemma TerminalIsForever(events: seq<Event>, more: seq<Event>, run: nat)
    requires run in After(events).rows && !After(events).rows[run].status.Active?
    ensures run in From(After(events), more).rows && From(After(events), more).rows[run] == After(events).rows[run]
  {
    AlwaysConsistent(events);
    TerminalStays(After(events), more, run);
  }

  // ---------------------------------------------------------------- reservations

  /** Reserving a run again returns what is stored for it, whatever is asked, and at most lets the
      expiry sweep through; a failed reservation changes nothing. */
  lemma ReserveIsIdempotent(events: seq<Event>, mission: nat, run: nat, r: Request, p: Policy, now: I64)
    ensures
      var rows := After(events).rows;
      run in rows && RequestSound(r, p) ==>
        ReserveOutcome(rows, mission, run, r, p, now) ==
          if Readable(Swept(rows, now)[run]) then (Swept(rows, now), Ok(Swept(rows, now)[run].json))
          else (rows, Err(EscrowUnreadable))
    ensures
      var rows := After(events).rows;
      ReserveOutcome(rows, mission, run, r, p, now).1.Err? ==> ReserveOutcome(rows, mission, run, r, p, now).0 == rows
    ensures
      var rows := After(events).rows;
      ReserveOutcome(rows, mission, run, r, p, now).1.Ok? ==>
        && run in ReserveOutcome(rows, mission, run, r, p, now).0
        && ReserveOutcome(rows, mission, run, r, p, now).0[run].json
           == ReserveOutcome(rows, mission, run, r, p, now).1.value
  {
  }

  /** A mission holds no more than its policy allows. */
  ghost predicate Within(rows: Table, mission: nat, p: Policy) {
    && |ActiveRuns(rows, mission)| <= p.maxAgents
    && Held(rows, mission, Tokens) <= p.maxTotalTokens
    && Held(rows, mission, ToolCalls) <= p.maxToolCalls
    && Held(rows, mission, Runtime) <= p.maxRuntimeMillis
  }

  ghost predicate BelowSaturation(p: Policy) {
    p.maxTotalTokens < U64_MAX && p.maxToolCalls < U64_MAX && p.maxRuntimeMillis < U64_MAX
  }

  /** The reservations of a row never change, and a row never becomes active again. */
  ghost predicate Shrinks(rows: Table, after: Table) {
    forall run ::
      run in rows ==>
        && run in after
        && after[run].missionId == rows[run].missionId
        && (after[run].status.Active? ==> rows[run].status.Active?)
        && forall what :: Reserved(after[run].json, what) == Reserved(rows[run].json, what)
  }

  lemma HeldShrinks(rows: Table, after: Table, mission: nat, what: Resource)
    requires Shrinks(rows, after)
    requires forall run :: run in after ==> run in rows
    ensures |ActiveRuns(after, mission)| <= |ActiveRuns(rows, mission)|
    ensures Held(after, mission, what) <= Held(rows, mission, what)
  {
    var few, many := ActiveRuns(after, mission), ActiveRuns(rows, mission);
    assert few <= many;
    assert |few| <= |many| by { assert many == few + (many - few); }
    SumCongruence(few, ReservedBy(after, what), ReservedBy(rows, what));
    SumMonotone(few, many, ReservedBy(rows, what));
  }

  lemma ActiveWithOneMore(rows: Table, run: nat, row: Row, mission: nat)
    requires run !in rows && row.status.Active?
    ensures ActiveRuns(rows[run := row], mission)
      == ActiveRuns(rows, mission) + if row.missionId == mission then {run} else {}
  {
  }

  lemma HeldWithOneMore(rows: Table, run: nat, row: Row, mission: nat, what: Resource)
    requires run !in rows && row.status.Active?
    ensures Held(rows[run := row], mission, what)
      == Held(rows, mission, what) + if row.missionId == mission then Reserved(row.json, what) else 0
    ensures
      |ActiveRuns(rows[run := row], mission)| == |ActiveRuns(rows, mission)| + if row.missionId == mission then 1 else 0
  {
    var was := ActiveRuns(rows, mission);
    var before, after := ReservedBy(rows, what), ReservedBy(rows[run := row], what);
    ActiveWithOneMore(rows, run, row, mission);
    if row.missionId == mission {
      SumWithOneMore(was, run, before, after);
      assert ActiveRuns(rows[run := row], mission) == was + {run};
      assert after(run) == Reserved(row.json, what);
    } else {
      SumCongruence(was, after, before);
      assert ActiveRuns(rows[run := row], mission) == was;
    }
  }

  lemma SweepShrinks(rows: Table, now: I64)
    ensures Shrinks(rows, Swept(rows, now))
  {
  }

  lemma OpenStaysWithin(rows: Table, mission: nat, run: nat, r: Request, p: Policy, now: I64, other: nat)
    requires Within(rows, other, p) && BelowSaturation(p)
    requires run !in rows && Refusal(rows, mission, r, p).None?
    ensures Within(rows[run := RowFor(Opened(mission, run, r, now))], other, p)
  {
    var row := RowFor(Opened(mission, run, r, now));
    HeldWithOneMore(rows, run, row, other, Tokens);
    HeldWithOneMore(rows, run, row, other, ToolCalls);
    HeldWithOneMore(rows, run, row, other, Runtime);
  }

  lemma SweepStaysWithin(rows: Table, now: I64, mission: nat, p: Policy)
    requires Within(rows, mission, p)
    ensures Within(Swept(rows, now), mission, p)
  {
    SweepShrinks(rows, now);
    HeldShrinks(rows, Swept(rows, now), mission, Tokens);
    HeldShrinks(rows, Swept(rows, now), mission, ToolCalls);
    HeldShrinks(rows, Swept(rows, now), mission, Runtime);
  }

  lemma ReserveStaysWithin(rows: Table, mission: nat, run: nat, r: Request, p: Policy, now: I64, other: nat)
    requires Within(rows, other, p) && BelowSaturation(p)
    ensures Within(ReserveOutcome(rows, mission, run, r, p, now).0, other, p)
  {
    var swept := Swept(rows, now);
    SweepStaysWithin(rows, now, other, p);
    if RequestSound(r, p) && run !in swept && Refusal(swept, mission, r, p).None? {
      OpenStaysWithin(swept, mission, run, r, p, now, other);
    }
  }

  lemma WriteShrinks(rows: Table, i: Intent)
    requires Sound(rows) && Pinned(rows, i)
    ensures Shrinks(rows, WriteOutcome(rows, i).0)
  {
    assert RowSound(i.run, rows[i.run]);
  }

  lemma WriteStaysWithin(rows: Table, i: Intent, p: Policy, mission: nat)
    requires Within(rows, mission, p) && Sound(rows) && Pinned(rows, i)
    ensures Within(WriteOutcome(rows, i).0, mission, p)
  {
    var after := WriteOutcome(rows, i).0;
    WriteShrinks(rows, i);
    HeldShrinks(rows, after, mission, Tokens);
    HeldShrinks(rows, after, mission, ToolCalls);
    HeldShrinks(rows, after, mission, Runtime);
  }

  /** Under one policy with maxima below saturation, the active escrows of every mission stay
      within it at all times: their number, and their tokens, tool calls and run time together. */
  lemma {:induction false} MissionsStayWithinPolicy(events: seq<Event>, p: Policy, mission: nat)
    requires BelowSaturation(p)
    requires forall i :: 0 <= i < |events| && events[i].Reserve? ==> events[i].policy == p
    ensures Within(After(events).rows, mission, p)
  {
    if events == [] {
      assert ActiveRuns(START.rows, mission) == {};
    } else {
      var before, e := events[..|events| - 1], events[|events| - 1];
      MissionsStayWithinPolicy(before, p, mission);
      AlwaysConsistent(before);
      if e.Reserve? {
        ReserveStaysWithin(After(before).rows, e.mission, e.run, e.request, p, e.now, mission);
      } else if e.Write? && e.client in After(before).pending {
        WriteStaysWithin(After(before).rows, After(before).pending[e.client], p, mission);
      }
    }
  }

  /** One more request passes a limit exactly when the sum fits it, except that the largest limit
      lets everything through. */
  lemma LimitHoldsIff(held: nat, more: U64, limit: U64)
    ensures !Exceeds(held, more, limit) <==> held + more <= limit || limit == U64_MAX
  {
  }

  lemma HeldByOne(one: Row, what: Resource)
    requires one.missionId == 0 && one.status.Active?
    ensures Held(map[0 := one], 0, what) == Reserved(one.json, what) && |ActiveRuns(map[0 := one], 0)| == 1
  {
    var none: Table := map[];
    assert ActiveRuns(none, 0) == {};
    assert none[0 := one] == map[0 := one];
    HeldWithOneMore(none, 0, one, 0, what);
  }

  lemma SecondIsAdmitted(one: Row, r: Request, p: Policy)
    requires one == RowFor(Opened(0, 0, Request(1, 0, 1, 0), 0)) && r == Request(U64_MAX, 0, 1, 0)
    requires p.maxAgents > 1 && p.maxParallelAgents > 0 && p.maxTotalTokens == U64_MAX && p.maxRuntimeMillis > 1
    ensures ReserveOutcome(map[0 := one], 0, 1, r, p, 0).0 == (map[0 := one])[1 := RowFor(Opened(0, 1, r, 0))]
  {
    HeldByOne(one, Tokens);
    HeldByOne(one, ToolCalls);
    HeldByOne(one, Runtime);
    assert Swept(map[0 := one], 0) == map[0 := one];
  }

  /** The largest limit can indeed be exceeded, by two reservations in a row. */
  lemma LargestLimitIsExceeded(p: Policy)
    requires p.maxAgents > 1 && p.maxParallelAgents > 0 && p.maxTotalTokens == U64_MAX && p.maxRuntimeMillis > 1
    ensures
      var events := [Reserve(0, 0, Request(1, 0, 1, 0), p, 0), Reserve(0, 1, Request(U64_MAX, 0, 1, 0), p, 0)];
      Held(After(events).rows, 0, Tokens) == p.maxTotalTokens + 1
  {
    var first, second := Request(1, 0, 1, 0), Request(U64_MAX, 0, 1, 0);
    var one, two := RowFor(Opened(0, 0, first, 0)), RowFor(Opened(0, 1, second, 0));
    FirstReservation(0, 0, first, p);
    OneMoreEvent([Reserve(0, 0, first, p, 0)], Reserve(0, 1, second, p, 0), 0);
    assert [Reserve(0, 0, first, p, 0)] + [Reserve(0, 1, second, p, 0)]
        == [Reserve(0, 0, first, p, 0), Reserve(0, 1, second, p, 0)];
    SecondIsAdmitted(one, second, p);
    HeldByOne(one, Tokens);
    HeldWithOneMore(map[0 := one], 1, two, 0, Tokens);
  }
}
