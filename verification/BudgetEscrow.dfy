/** Budget escrows: reservations under a policy, and charges and releases that read a row and then
    write it back under a version check, so that clients may interleave between the two. */
module BudgetEscrow {
  import opened Prelude

  datatype Policy = Policy(maxAgents: nat, maxParallelAgents: nat, maxTotalTokens: U64, maxToolCalls: U64,
      maxRuntimeMillis: U64, maxRetries: U32)

  datatype Request = Request(tokens: U64, toolCalls: U64, runtimeMillis: U64, retries: U32)

  datatype Status = Active | Completed | Failed | Cancelled | Expired

  /** The escrow as it is serialised into a row. */
  datatype Escrow = Escrow(
    missionId: nat, runId: nat,
    reservedTokens: U64, consumedTokens: U64, reservedToolCalls: U64, consumedToolCalls: U64,
    reservedRuntime: U64, reservedRetries: U32,
    status: Status, expires: I64, version: U64)

  /** A row keeps some of the escrow again in columns of its own. A version above the signed range
      stands for the float the database computes there. */
  datatype Row = Row(missionId: nat, json: Escrow, status: Status, expires: I64, version: U64)

  type Table = map<nat, Row>

  datatype BudgetError =
    | RequestInvalid | AgentLimit | TokenLimit | ToolLimit | RuntimeLimit
    | Missing | NotActive | EscrowExpired | TokenEscrow | ToolEscrow | ReleaseActive | CasConflict
    | TotalsOutOfRange | VersionOutOfRange | EscrowUnreadable

  // ---------------------------------------------------------------- reserve

  predicate RequestSound(r: Request, p: Policy) {
    && 0 < r.tokens <= p.maxTotalTokens
    && r.toolCalls <= p.maxToolCalls
    && 0 < r.runtimeMillis <= p.maxRuntimeMillis
    && r.retries <= p.maxRetries
    && p.maxAgents > 0 && p.maxParallelAgents > 0
  }

  /** A version that became a float no longer parses as an integer. */
  predicate Readable(row: Row) {
    row.json.version <= I64_MAX
  }

  function Lapse(row: Row): Row {
    var version := SatAddU64(row.version, 1);
    row.(status := Expired, version := version, json := row.json.(status := Expired, version := version))
  }

  /** The expiry sweep at the start of every reservation. */
  function Swept(rows: Table, now: I64): Table {
    map run | run in rows ::
      if rows[run].status.Active? && rows[run].expires <= now then Lapse(rows[run]) else rows[run]
  }

  function ActiveRuns(rows: Table, mission: nat): set<nat> {
    set run | run in rows && rows[run].missionId == mission && rows[run].status.Active?
  }

  datatype Resource = Tokens | ToolCalls | Runtime

  function Reserved(e: Escrow, what: Resource): U64 {
    match what
    case Tokens => e.reservedTokens
    case ToolCalls => e.reservedToolCalls
    case Runtime => e.reservedRuntime
  }

  function ReservedBy(rows: Table, what: Resource): nat -> nat {
    (run: nat) => if run in rows then Reserved(rows[run].json, what) else 0
  }

  /** What the active escrows of a mission hold together. */
  ghost function Held(rows: Table, mission: nat, what: Resource): nat {
    SumOver(ActiveRuns(rows, mission), ReservedBy(rows, what))
  }

  predicate Exceeds(held: nat, more: U64, limit: U64) {
    Min(held + more, U64_MAX) > limit
  }

  function Opened(mission: nat, run: nat, r: Request, now: I64): Escrow {
    var expires := SatAddI64(now, Min(Max(r.runtimeMillis, 1), I64_MAX));
    Escrow(mission, run, r.tokens, 0, r.toolCalls, 0, r.runtimeMillis, r.retries, Active, expires, 1)
  }

  function RowFor(e: Escrow): Row {
    Row(e.missionId, e, e.status, e.expires, e.version)
  }

  /** The totals come back as signed integers or not at all. */
  ghost predicate TotalsReadable(rows: Table, mission: nat) {
    && Held(rows, mission, Tokens) <= I64_MAX
    && Held(rows, mission, ToolCalls) <= I64_MAX
    && Held(rows, mission, Runtime) <= I64_MAX
  }

  ghost function Refusal(rows: Table, mission: nat, r: Request, p: Policy): Option<BudgetError> {
    if !TotalsReadable(rows, mission) then Some(TotalsOutOfRange)
    else if |ActiveRuns(rows, mission)| >= p.maxAgents then Some(AgentLimit)
    else if Exceeds(Held(rows, mission, Tokens), r.tokens, p.maxTotalTokens) then Some(TokenLimit)
    else if Exceeds(Held(rows, mission, ToolCalls), r.toolCalls, p.maxToolCalls) then Some(ToolLimit)
    else if Exceeds(Held(rows, mission, Runtime), r.runtimeMillis, p.maxRuntimeMillis) then Some(RuntimeLimit)
    else None
  }

  ghost function ReserveOutcome(rows: Table, mission: nat, run: nat, r: Request, p: Policy, now: I64): (Table,
      Result<Escrow, BudgetError>)
  {
    if !RequestSound(r, p) then (rows, Err(RequestInvalid))
    else
      var swept := Swept(rows, now);
      if run in swept then
        if Readable(swept[run]) then (swept, Ok(swept[run].json)) else (rows, Err(EscrowUnreadable))
      else
        var refusal := Refusal(swept, mission, r, p);
        if refusal.Some? then (rows, Err(refusal.value))
        else (swept[run := RowFor(Opened(mission, run, r, now))], Ok(Opened(mission, run, r, now)))
  }

  // ---------------------------------------------------------------- charge and release, read and write

  /** What a client carries from its read to its write. */
  datatype Intent = Intent(run: nat, was: Escrow, next: Escrow, release: bool, tokens: U64, toolCalls: U64)

  function ChargeRead(rows: Table, run: nat, tokens: U64, toolCalls: U64, now: I64): Result<Intent, BudgetError> {
    if run !in rows then Err(Missing)
    else if !Readable(rows[run]) then Err(EscrowUnreadable)
    else
      var e := rows[run].json;
      if !e.status.Active? then Err(NotActive)
      else if now >= e.expires then Err(EscrowExpired)
      else
        var nextTokens, nextTools := SatAddU64(e.consumedTokens, tokens), SatAddU64(e.consumedToolCalls, toolCalls);
        if nextTokens > e.reservedTokens then Err(TokenEscrow)
        else if nextTools > e.reservedToolCalls then Err(ToolEscrow)
        else
          var version := SatAddU64(e.version, 1);
          var next := e.(consumedTokens := nextTokens, consumedToolCalls := nextTools, version := version);
          Ok(Intent(run, e, next, false, tokens, toolCalls))
  }

  datatype ReleaseStart = Refused(error: BudgetError) | Settled(escrow: Escrow) | Proceed(intent: Intent)

  function ReleaseRead(rows: Table, run: nat, status: Status): ReleaseStart {
    if status.Active? then Refused(ReleaseActive)
    else if run !in rows then Refused(Missing)
    else if !Readable(rows[run]) then Refused(EscrowUnreadable)
    else if !rows[run].json.status.Active? then Settled(rows[run].json)
    else
      var e := rows[run].json;
      Proceed(Intent(run, e, e.(status := status, version := SatAddU64(e.version, 1)), true, 0, 0))
  }

  predicate Writable(rows: Table, i: Intent) {
    i.run in rows && rows[i.run].version == i.was.version && rows[i.run].status.Active?
  }

  /** The conditional update: a charge leaves the status column alone. */
  function Written(row: Row, i: Intent): Row {
    row.(json := i.next, version := i.next.version, status := if i.release then i.next.status else row.status)
  }

  /** A version above the signed range cannot be bound to the statement, which then does not run. */
  function WriteOutcome(rows: Table, i: Intent): (Table, Result<Escrow, BudgetError>) {
    if i.next.version > I64_MAX then (rows, Err(VersionOutOfRange))
    else if Writable(rows, i) then (rows[i.run := Written(rows[i.run], i)], Ok(i.next)) else (rows, Err(CasConflict))
  }

  // ---------------------------------------------------------------- one client alone

  function ReleaseOutcome(rows: Table, run: nat, status: Status): (Table, Result<Escrow, BudgetError>) {
    match ReleaseRead(rows, run, status)
    case Refused(e) => (rows, Err(e))
    case Settled(escrow) => (rows, Ok(escrow))
    case Proceed(i) => WriteOutcome(rows, i)
  }

  /** A charge that finds the escrow past its time releases it before failing. */
  function ChargeOutcome(rows: Table, run: nat, tokens: U64, toolCalls: U64, now: I64): (Table,
      Result<Escrow, BudgetError>)
  {
    match ChargeRead(rows, run, tokens, toolCalls, now)
    case Ok(i) => WriteOutcome(rows, i)
    case Err(e) =>
      if e.EscrowExpired? then
        var released := ReleaseOutcome(rows, run, Expired);
        (released.0, if released.1.Err? then Err(released.1.error) else Err(EscrowExpired))
      else (rows, Err(e))
  }

  // ---------------------------------------------------------------- rows in order

  /** Columns and serialised escrow agree, and nothing is consumed beyond what is reserved. */
  ghost predicate RowSound(run: nat, row: Row) {
    && row.json.runId == run && row.json.missionId == row.missionId
    && row.json.status == row.status && row.json.expires == row.expires && row.json.version == row.version
    && 1 <= row.version <= I64_MAX + 1 && (row.version > I64_MAX ==> row.status.Expired?)
    && row.json.consumedTokens <= row.json.reservedTokens
    && row.json.consumedToolCalls <= row.json.reservedToolCalls
  }

  ghost predicate Sound(rows: Table) {
    forall run :: run in rows ==> RowSound(run, rows[run])
  }

  /** What both kinds of write do to the escrow they read. */
  ghost predicate IntentSound(i: Intent) {
    && i.was.status.Active? && i.was.runId == i.run
    && i.was.version <= I64_MAX && i.next.version == i.was.version + 1
    && i.next.consumedTokens == SatAddU64(i.was.consumedTokens, i.tokens) <= i.was.reservedTokens
    && i.next.consumedToolCalls == SatAddU64(i.was.consumedToolCalls, i.toolCalls) <= i.was.reservedToolCalls
    && i.next == i.was.(
         consumedTokens := i.next.consumedTokens, consumedToolCalls := i.next.consumedToolCalls,
         version := i.next.version, status := i.next.status)
    && (i.next.status.Active? <==> !i.release)
  }

  lemma ReadsAreSound(rows: Table, run: nat, tokens: U64, toolCalls: U64, now: I64, status: Status)
    requires Sound(rows)
    ensures
      var r := ChargeRead(rows, run, tokens, toolCalls, now);
      r.Ok? ==> IntentSound(r.value) && r.value.run == run && run in rows && r.value.was == rows[run].json
    ensures
      var r := ReleaseRead(rows, run, status);
      r.Proceed? ==> IntentSound(r.intent) && r.intent.run == run && run in rows && r.intent.was == rows[run].json
  {
  }

  lemma ReserveKeepsSound(rows: Table, mission: nat, run: nat, r: Request, p: Policy, now: I64)
    requires Sound(rows)
    ensures Sound(ReserveOutcome(rows, mission, run, r, p, now).0)
  {
    forall other | other in rows ensures RowSound(other, Swept(rows, now)[other]) {
      assert RowSound(other, rows[other]);
    }
  }

  /** A write over the very row that was read keeps the table in order. */
  lemma WriteKeepsSound(rows: Table, i: Intent)
    requires Sound(rows) && IntentSound(i)
    requires Writable(rows, i) ==> rows[i.run].json == i.was
    ensures Sound(WriteOutcome(rows, i).0)
  {
  }

  /** Without interleaving, the version check never fails. */
  lemma AloneNeverConflicts(rows: Table, run: nat, tokens: U64, toolCalls: U64, now: I64, status: Status)
    requires Sound(rows)
    ensures
      && Sound(ChargeOutcome(rows, run, tokens, toolCalls, now).0)
      && ChargeOutcome(rows, run, tokens, toolCalls, now).1 != Err(CasConflict)
    ensures Sound(ReleaseOutcome(rows, run, status).0) && ReleaseOutcome(rows, run, status).1 != Err(CasConflict)
  {
  }

  // ---------------------------------------------------------------- the operations on the fields of the rows

  /** A request within its policy. */
  ghost predicate WithinPolicy(r: Request, p: Policy) {
    && 1 <= r.tokens && r.tokens <= p.maxTotalTokens && r.toolCalls <= p.maxToolCalls
    && 1 <= r.runtimeMillis && r.runtimeMillis <= p.maxRuntimeMillis
    && r.retries <= p.maxRetries && 1 <= p.maxAgents && 1 <= p.maxParallelAgents
  }

  /** The runs of a mission whose escrows are active and not past their time. */
  function RunningOf(rows: Table, mission: nat, now: I64): set<nat> {
    set run | run in rows && rows[run].missionId == mission && rows[run].status == Active && now < rows[run].expires
  }

  /** What they have reserved of a resource together. */
  ghost function Booked(rows: Table, mission: nat, now: I64, what: Resource): nat {
    SumOver(RunningOf(rows, mission, now), ReservedBy(rows, what))
  }

  lemma EachResource(rows: Table, run: nat)
    requires run in rows
    ensures ReservedBy(rows, Tokens)(run) == rows[run].json.reservedTokens
    ensures ReservedBy(rows, ToolCalls)(run) == rows[run].json.reservedToolCalls
    ensures ReservedBy(rows, Runtime)(run) == rows[run].json.reservedRuntime
  {
  }

  lemma SweepLeavesRunning(rows: Table, mission: nat, now: I64, what: Resource)
    ensures ActiveRuns(Swept(rows, now), mission) == RunningOf(rows, mission, now)
    ensures Held(Swept(rows, now), mission, what) == Booked(rows, mission, now, what)
  {
    var swept := Swept(rows, now);
    SumCongruence(RunningOf(rows, mission, now), ReservedBy(swept, what), ReservedBy(rows, what));
  }

  /** The sum fits the limit, or nothing can exceed it. */
  predicate Fits(held: nat, more: U64, limit: U64) {
    held + more <= limit || limit == U64_MAX
  }

  lemma ExceedsUnlessFits(held: nat, more: U64, limit: U64)
    ensures Exceeds(held, more, limit) <==> !Fits(held, more, limit)
  {
  }

  /** The refusal of a request within the policy, told from the escrows that still run: totals that
      cannot be read first, then the count, tokens, tool calls and time. */
  lemma RefusalFromTotals(rows: Table, mission: nat, r: Request, p: Policy, now: I64)
    ensures Refusal(Swept(rows, now), mission, r, p) ==
      var tokens, tools := Booked(rows, mission, now, Tokens), Booked(rows, mission, now, ToolCalls);
      var time := Booked(rows, mission, now, Runtime);
      if tokens > I64_MAX || tools > I64_MAX || time > I64_MAX then Some(TotalsOutOfRange)
      else if |RunningOf(rows, mission, now)| >= p.maxAgents then Some(AgentLimit)
      else if !Fits(tokens, r.tokens, p.maxTotalTokens) then Some(TokenLimit)
      else if !Fits(tools, r.toolCalls, p.maxToolCalls) then Some(ToolLimit)
      else if !Fits(time, r.runtimeMillis, p.maxRuntimeMillis) then Some(RuntimeLimit)
      else None
  {
    SweepLeavesRunning(rows, mission, now, Tokens);
    SweepLeavesRunning(rows, mission, now, ToolCalls);
    SweepLeavesRunning(rows, mission, now, Runtime);
    ExceedsUnlessFits(Booked(rows, mission, now, Tokens), r.tokens, p.maxTotalTokens);
    ExceedsUnlessFits(Booked(rows, mission, now, ToolCalls), r.toolCalls, p.maxToolCalls);
    ExceedsUnlessFits(Booked(rows, mission, now, Runtime), r.runtimeMillis, p.maxRuntimeMillis);
  }

  /** A new run gets its escrow exactly if the request is within the policy, the totals of its mission can
      be read, and with it neither the count nor any total exceeds its limit. Escrows past their time
      no longer count. */
  lemma ReserveSucceedsIff(rows: Table, mission: nat, run: nat, r: Request, p: Policy, now: I64)
    requires run !in rows
    ensures ReserveOutcome(rows, mission, run, r, p, now).1.Ok? <==>
        && WithinPolicy(r, p)
        && Booked(rows, mission, now, Tokens) <= I64_MAX && Booked(rows, mission, now, ToolCalls) <= I64_MAX
        && Booked(rows, mission, now, Runtime) <= I64_MAX
        && |RunningOf(rows, mission, now)| < p.maxAgents
        && Fits(Booked(rows, mission, now, Tokens), r.tokens, p.maxTotalTokens)
        && Fits(Booked(rows, mission, now, ToolCalls), r.toolCalls, p.maxToolCalls)
        && Fits(Booked(rows, mission, now, Runtime), r.runtimeMillis, p.maxRuntimeMillis)
  {
    RefusalFromTotals(rows, mission, r, p, now);
  }

  /** A request beyond its policy is refused whatever is stored, and changes nothing. */
  lemma BeyondPolicyIsInvalid(rows: Table, mission: nat, run: nat, r: Request, p: Policy, now: I64)
    ensures ReserveOutcome(rows, mission, run, r, p, now) == (rows, Err(RequestInvalid)) <==> !WithinPolicy(r, p)
  {
  }

  /** A new escrow reserves what was asked for, has consumed nothing and lasts for the run time. */
  lemma NewEscrowAsAsked(rows: Table, mission: nat, run: nat, r: Request, p: Policy, now: I64)
    requires run !in rows && ReserveOutcome(rows, mission, run, r, p, now).1.Ok?
    ensures
      var after := ReserveOutcome(rows, mission, run, r, p, now).0;
      var e := ReserveOutcome(rows, mission, run, r, p, now).1.value;
      && e.missionId == mission && e.runId == run && e.status.Active? && e.version == 1
      && e.reservedTokens == r.tokens && e.reservedToolCalls == r.toolCalls
      && e.reservedRuntime == r.runtimeMillis && e.reservedRetries == r.retries
      && e.consumedTokens == 0 && e.consumedToolCalls == 0
      && e.expires == Min(now + Min(r.runtimeMillis, I64_MAX), I64_MAX)
      && after.Keys == rows.Keys + {run} && after[run].json == e
      && after[run].missionId == mission && after[run].status.Active? && after[run].expires == e.expires
      && after[run].version == 1
  {
  }

  /** What a successful reservation does to the other escrows: those active and past their time expire
      and move to their next version, the rest stay as they are. */
  lemma ReserveExpiresTheOverdue(rows: Table, mission: nat, run: nat, r: Request, p: Policy, now: I64, other: nat)
    requires Sound(rows) && other in rows && ReserveOutcome(rows, mission, run, r, p, now).1.Ok?
    ensures
      var after := ReserveOutcome(rows, mission, run, r, p, now).0;
      && other in after
      && if rows[other].status.Active? && rows[other].expires <= now then
           && after[other].status.Expired? && after[other].version == rows[other].version + 1
           && after[other].missionId == rows[other].missionId && after[other].expires == rows[other].expires
           && after[other].json == rows[other].json.(status := Expired, version := rows[other].version + 1)
         else after[other] == rows[other]
  {
    assert RowSound(other, rows[other]);
  }

  /** A charge succeeds exactly if the escrow is there, can be read, is active and not past its time,
      both sums stay within the reservation, and a further version can be written. */
  lemma ChargeSucceedsIff(rows: Table, run: nat, tokens: U64, toolCalls: U64, now: I64)
    requires Sound(rows)
    ensures ChargeOutcome(rows, run, tokens, toolCalls, now).1.Ok? <==>
        && run in rows && rows[run].status.Active? && now < rows[run].expires && rows[run].version < I64_MAX
        && Fits(rows[run].json.consumedTokens, tokens, rows[run].json.reservedTokens)
        && Fits(rows[run].json.consumedToolCalls, toolCalls, rows[run].json.reservedToolCalls)
  {
    if run in rows {
      assert RowSound(run, rows[run]);
    }
  }

  /** A successful charge adds to the consumption and the version of its escrow, and to nothing else. */
  lemma ChargeAddsUp(rows: Table, run: nat, tokens: U64, toolCalls: U64, now: I64)
    requires Sound(rows) && ChargeOutcome(rows, run, tokens, toolCalls, now).1.Ok?
    ensures
      var (after, r) := ChargeOutcome(rows, run, tokens, toolCalls, now);
      && run in rows && after.Keys == rows.Keys && after[run].json == r.value
      && r.value.consumedTokens == Min(rows[run].json.consumedTokens + tokens, U64_MAX)
      && r.value.consumedToolCalls == Min(rows[run].json.consumedToolCalls + toolCalls, U64_MAX)
      && r.value.version == rows[run].version + 1 && after[run].version == rows[run].version + 1
      && r.value == rows[run].json.(consumedTokens := r.value.consumedTokens,
           consumedToolCalls := r.value.consumedToolCalls, version := r.value.version)
      && after[run].status == rows[run].status && after[run].expires == rows[run].expires
      && after[run].missionId == rows[run].missionId
      && forall other :: other in rows && other != run ==> after[other] == rows[other]
  {
    assert RowSound(run, rows[run]);
  }

  /** A failed charge says why. It changes nothing, except that it expires an active escrow past its
      time. */
  lemma ChargeFailsBecause(rows: Table, run: nat, tokens: U64, toolCalls: U64, now: I64)
    requires Sound(rows) && ChargeOutcome(rows, run, tokens, toolCalls, now).1.Err?
    ensures
      var (after, r) := ChargeOutcome(rows, run, tokens, toolCalls, now);
      var overdue := run in rows && rows[run].status.Active? && rows[run].expires <= now;
      var open := run in rows && rows[run].status.Active? && now < rows[run].expires;
      && (r.error.Missing? <==> run !in rows)
      && (r.error.NotActive? <==> run in rows && rows[run].version <= I64_MAX && !rows[run].status.Active?)
      && (r.error.EscrowUnreadable? <==> run in rows && rows[run].version > I64_MAX)
      && (r.error.EscrowExpired? <==> overdue && rows[run].version < I64_MAX)
      && (r.error.TokenEscrow? <==>
            open && !Fits(rows[run].json.consumedTokens, tokens, rows[run].json.reservedTokens))
      && (r.error.ToolEscrow? <==>
            && open && Fits(rows[run].json.consumedTokens, tokens, rows[run].json.reservedTokens)
            && !Fits(rows[run].json.consumedToolCalls, toolCalls, rows[run].json.reservedToolCalls))
      && (!r.error.EscrowExpired? ==> after == rows)
      && (r.error.EscrowExpired? ==>
            && after.Keys == rows.Keys && after[run].status.Expired? && after[run].json.status.Expired?
            && after[run].version == rows[run].version + 1
            && after[run].json == rows[run].json.(status := Expired, version := rows[run].version + 1)
            && forall other :: other in rows && other != run ==> after[other] == rows[other])
  {
    if run in rows {
      assert RowSound(run, rows[run]);
    }
  }

  /** A release of an active escrow gives it the status and its next version; one that is settled is
      returned as it is. */
  lemma ReleaseSettles(rows: Table, run: nat, status: Status)
    requires Sound(rows)
    ensures
      var (after, r) := ReleaseOutcome(rows, run, status);
      var there := !status.Active? && run in rows && rows[run].version <= I64_MAX;
      var last := there && rows[run].status.Active? && rows[run].version == I64_MAX;
      && (status.Active? <==> r == Err(ReleaseActive))
      && (!status.Active? && run !in rows <==> r == Err(Missing))
      && (!status.Active? && run in rows && rows[run].version > I64_MAX <==> r == Err(EscrowUnreadable))
      && (last <==> r == Err(VersionOutOfRange))
      && (r.Ok? <==> there && !last)
      && (r.Err? ==> after == rows)
      && (r.Ok? && !rows[run].status.Active? ==> after == rows && r.value == rows[run].json)
      && (r.Ok? && rows[run].status.Active? ==>
            && after.Keys == rows.Keys && after[run].json == r.value && after[run].status == status
            && r.value == rows[run].json.(status := status, version := rows[run].version + 1)
            && after[run].version == rows[run].version + 1
            && after[run].expires == rows[run].expires && after[run].missionId == rows[run].missionId
            && forall other :: other in rows && other != run ==> after[other] == rows[other])
  {
    if run in rows {
      assert RowSound(run, rows[run]);
    }
  }

  // ---------------------------------------------------------------- the manager

  class AgentBudgetManager {
    var rows: Table

    ghost predicate Valid()
      reads this
    {
      Sound(rows)
    }

    constructor ()
      ensures Valid() && rows == map[]
    {
      rows := map[];
    }

    /** One sum of the aggregate query. */
    method Total(table: Table, runs: set<nat>, what: Resource) returns (sum: nat)
      requires runs <= table.Keys
      ensures sum == SumOver(runs, ReservedBy(table, what))
    {
      ghost var reserved := ReservedBy(table, what);
      var rest := runs;
      sum := 0;
      while rest != {}
        invariant rest <= runs
        invariant sum + SumOver(rest, reserved) == SumOver(runs, reserved)
        decreases |rest|
      {
        var run :| run in rest;
        SumSplit(rest, reserved, run);
        sum := sum + Reserved(table[run].json, what);
        rest := rest - {run};
      }
    }

    /** The aggregate query of a reservation. */
    method Totals(table: Table, mission: nat) returns (active: nat, tokens: nat, tools: nat, runtime: nat)
      ensures active == |ActiveRuns(table, mission)|
      ensures
        && tokens == Held(table, mission, Tokens)
        && tools == Held(table, mission, ToolCalls)
        && runtime == Held(table, mission, Runtime)
    {
      var runs := ActiveRuns(table, mission);
      active := |runs|;
      tokens := Total(table, runs, Tokens);
      tools := Total(table, runs, ToolCalls);
      runtime := Total(table, runs, Runtime);
    }

    /** Everything up to the commit is one transaction: a refusal undoes the sweep as well. */
    method Reserve(mission: nat, run: nat, request: Request, policy: Policy, now: I64)
      returns (r: Result<Escrow, BudgetError>)
      requires Valid()
      modifies this
      ensures Valid()
      ensures (rows, r) == ReserveOutcome(old(rows), mission, run, request, policy, now)
    {
      ReserveKeepsSound(rows, mission, run, request, policy, now);
      if !RequestSound(request, policy) {
        return Err(RequestInvalid);
      }
      var transaction := Swept(rows, now);
      if run in transaction {
        if !Readable(transaction[run]) {
          return Err(EscrowUnreadable);
        }
        rows := transaction;
        return Ok(transaction[run].json);
      }
      var active, tokens, tools, runtime := Totals(transaction, mission);
      if tokens > I64_MAX || tools > I64_MAX || runtime > I64_MAX {
        return Err(TotalsOutOfRange);
      }
      if active >= policy.maxAgents {
        return Err(AgentLimit);
      }
      if Exceeds(tokens, request.tokens, policy.maxTotalTokens) {
        return Err(TokenLimit);
      }
      if Exceeds(tools, request.toolCalls, policy.maxToolCalls) {
        return Err(ToolLimit);
      }
      if Exceeds(runtime, request.runtimeMillis, policy.maxRuntimeMillis) {
        return Err(RuntimeLimit);
      }
      var escrow := Opened(mission, run, request, now);
      rows := transaction[run := RowFor(escrow)];
      r := Ok(escrow);
    }

    method Charge(run: nat, tokens: U64, toolCalls: U64, now: I64) returns (r: Result<Escrow, BudgetError>)
      requires Valid()
      modifies this
      ensures Valid()
      ensures (rows, r) == ChargeOutcome(old(rows), run, tokens, toolCalls, now)
    {
      AloneNeverConflicts(rows, run, tokens, toolCalls, now, Expired);
      if run !in rows {
        return Err(Missing);
      }
      if !Readable(rows[run]) {
        return Err(EscrowUnreadable);
      }
      var escrow := rows[run].json;
      if !escrow.status.Active? {
        return Err(NotActive);
      }
      if now >= escrow.expires {
        var released := Release(run, Expired);
        return if released.Err? then released else Err(EscrowExpired);
      }
      var nextTokens, nextTools := SatAddU64(escrow.consumedTokens, tokens), SatAddU64(escrow.consumedToolCalls,
          toolCalls);
      if nextTokens > escrow.reservedTokens {
        return Err(TokenEscrow);
      }
      if nextTools > escrow.reservedToolCalls {
        return Err(ToolEscrow);
      }
      var expected := escrow.version;
      escrow := escrow.(consumedTokens := nextTokens, consumedToolCalls := nextTools,
          version := SatAddU64(escrow.version, 1));
      if escrow.version > I64_MAX {
        return Err(VersionOutOfRange);
      }
      if !(rows[run].version == expected && rows[run].status.Active?) {
        return Err(CasConflict);
      }
      rows := rows[run := rows[run].(json := escrow, version := escrow.version)];
      r := Ok(escrow);
    }

    method Release(run: nat, status: Status) returns (r: Result<Escrow, BudgetError>)
      requires Valid()
      modifies this
      ensures Valid()
      ensures (rows, r) == ReleaseOutcome(old(rows), run, status)
    {
      AloneNeverConflicts(rows, run, 0, 0, 0, status);
      if status.Active? {
        return Err(ReleaseActive);
      }
      if run !in rows {
        return Err(Missing);
      }
      if !Readable(rows[run]) {
        return Err(EscrowUnreadable);
      }
      var escrow := rows[run].json;
      if !escrow.status.Active? {
        return Ok(escrow);
      }
      var expected := escrow.version;
      escrow := escrow.(status := status, version := SatAddU64(escrow.version, 1));
      if escrow.version > I64_MAX {
        return Err(VersionOutOfRange);
      }
      if !(rows[run].version == expected && rows[run].status.Active?) {
        return Err(CasConflict);
      }
      rows := rows[run := rows[run].(json := escrow, status := status, version := escrow.version)];
      r := Ok(escrow);
    }
  }
}
