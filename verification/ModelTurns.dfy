/** One call of the model handler: a resumable turn over a stored continuation, driven by
    the events of one model stream, under a turn budget and a tool-call ledger. */
module ModelTurns {
  import opened Prelude
  import opened Text
  import opened ToolLedger
  import ProfileContract

  type ResponseId = nat
  type ToolName = string
  type ErrorCode = string

  datatype Speaker = User | Developer | Assistant

  /** The fixed texts with which the handler steers the model. */
  datatype Notice = Finalization | Convergence | StuckRecovery | StuckStop | ToolBudget

  datatype InputItem =
    | Message(speaker: Speaker, content: string)
    | Instruction(notice: Notice)
    | ToolOutput(callId: nat, content: string)

  datatype ToolCall = ToolCall(callId: nat, name: string, arguments: string)

  datatype Usage = Usage(input: U64, output: U64, reasoning: U64, cachedInput: U64, cacheWrite: U64)

  datatype StreamItem =
    | Started(responseId: ResponseId)
    | TextDelta(delta: string)
    | ReasoningDelta
    | UsageReport(usage: Usage)
    | ToolRequested(call: ToolCall)
    | Completed
    | Incomplete(reason: Option<string>)
    | StreamError(code: ErrorCode)
    | StreamUnwinds

  datatype Metrics = Metrics(turns: U32, usage: Usage, toolCalls: U64)

  datatype Continuation = Continuation(
    instructions: string,
    transcript: seq<InputItem>,
    nextInput: seq<InputItem>,
    tools: seq<ToolName>,
    previousResponseId: Option<ResponseId>,
    output: string,
    nextTurn: U8,
    maxTurns: U8,
    conversationContinuation: bool,
    metrics: Metrics,
    changedFiles: seq<string>,
    recentToolFingerprints: seq<Fingerprint>,
    stuckRecoveries: U8)

  datatype Request = Request(
    role: ProfileContract.AgentRole,
    profile: ProfileContract.AgentProfile,
    objective: string,
    taskContract: string,
    stableInstructions: string,
    dynamicContext: string,
    steering: seq<string>,
    tools: seq<ToolName>,
    maxTurns: U8,
    continuation: Option<Continuation>)

  /** Starting the stream fails, unwinds, or yields items; so may taking an item from it. */
  datatype Reply = StartFailed(code: ErrorCode) | StartUnwinds | Stream(items: seq<StreamItem>)

  /** The gate's answer: cancelled while waiting, behind a warm lane, or leading one. */
  datatype Admission = Refused | Follower | Leader

  /** What the handler meets: the runtime's view, the cache policy, the gate and the model. */
  datatype Surroundings = Surroundings(
    viewError: Option<ErrorCode>,
    conversationContinuation: bool,
    cachePolicyError: Option<ErrorCode>,
    gate: Admission,
    reply: Reply)

  datatype ModelRequest = ModelRequest(
    instructions: string,
    input: seq<InputItem>,
    tools: seq<ToolName>,
    previousResponseId: Option<ResponseId>)

  /** `Unwound` is a call that panics; the executor catches it. */
  datatype TurnError =
    | ModelFailed(code: ErrorCode)
    | Unwound
    | ProfileRejected(why: ProfileContract.ProfileError)
    | RoleMismatch
    | CancelledAtGate
    | ModelIncomplete(reason: string)
    | NoCompletion
    | EmptyResult

  datatype CheckpointStatus = PartialBudget | StuckRecoverable | StuckExhaustedStatus

  datatype TurnResult =
    | Rejected(error: TurnError)
    | Checkpoint(status: CheckpointStatus, state: Continuation)
    | WaitingTool(state: Continuation, responseId: Option<ResponseId>, calls: seq<ToolCall>)
    | Finished(state: Continuation)

  /** What a leader tells the gate about its lane, if anything. */
  datatype LaneReport = NoReport | ReportedReady | ReportedFailed

  // ---------------------------------------------------------------- before the model is called

  function JoinParts(a: string, b: string): string {
    if a == "" then b else if b == "" then a else a + "\n" + b
  }

  function Steering(messages: seq<string>): seq<InputItem> {
    if messages == [] then [] else [Message(User, "[Steering]\n" + messages[0])] + Steering(messages[1..])
  }

  function Push(s: Continuation, items: seq<InputItem>): Continuation {
    s.(nextInput := s.nextInput + items,
       transcript := if s.conversationContinuation then s.transcript else s.transcript + items)
  }

  function Resumed(c: Continuation, req: Request): Continuation {
    Push(c.(maxTurns := Max(c.maxTurns, req.maxTurns)), Steering(req.steering))
  }

  function Opened(req: Request, contractText: string, conversationContinuation: bool): Continuation {
    var taskData := JoinParts(req.taskContract, req.dynamicContext);
    var input := (if taskData == "" then [] else [Message(Developer, taskData)])
                 + [Message(User, req.objective)] + Steering(req.steering);
    Continuation(JoinParts(contractText, req.stableInstructions),
                 input, input, req.tools, None, "", 0, req.maxTurns, conversationContinuation,
                 Metrics(0, Usage(0, 0, 0, 0, 0), 0), [], [], 0)
  }

  /** A stored continuation is taken up, a missing one is opened from the contract. */
  function Prepared(req: Request, contractText: string, conversationContinuation: bool): Continuation {
    if req.continuation.Some? then Resumed(req.continuation.value, req)
    else Opened(req, contractText, conversationContinuation)
  }

  predicate FinalTurn(s: Continuation) {
    Min(s.nextTurn + 1, U8_MAX) >= s.maxTurns
  }

  /** The last turn and the turns past the target are announced to the model. */
  function Announced(s: Continuation, targetTurns: U8): Continuation {
    if FinalTurn(s) then Push(s, [Instruction(Finalization)])
    else if s.nextTurn >= targetTurns then Push(s, [Instruction(Convergence)])
    else s
  }

  function Asked(s: Continuation): ModelRequest {
    ModelRequest(s.instructions, s.nextInput, if FinalTurn(s) then [] else s.tools, s.previousResponseId)
  }

  // ---------------------------------------------------------------- the stream

  datatype Progress = Progress(
    state: Continuation,
    responseId: Option<ResponseId>,
    turnOutput: string,
    calls: seq<ToolCall>,
    completed: bool,
    ready: bool,
    report: LaneReport)

  function AddUsage(a: Usage, b: Usage): Usage {
    Usage(SatAddU64(a.input, b.input), SatAddU64(a.output, b.output), SatAddU64(a.reasoning, b.reasoning),
          SatAddU64(a.cachedInput, b.cachedInput), SatAddU64(a.cacheWrite, b.cacheWrite))
  }

  predicate Breaks(item: StreamItem) {
    item.StreamError? || item.Incomplete? || item.StreamUnwinds?
  }

  function Absorb(p: Progress, item: StreamItem): Progress
    requires !Breaks(item)
  {
    match item
    case Started(id) =>
      p.(responseId := Some(id), ready := true, report := if p.ready then p.report else ReportedReady)
    case TextDelta(delta) =>
      p.(state := p.state.(output := p.state.output + delta), turnOutput := p.turnOutput + delta)
    case ReasoningDelta => p
    case UsageReport(usage) =>
      p.(state := p.state.(metrics := p.state.metrics.(usage := AddUsage(p.state.metrics.usage, usage))))
    case ToolRequested(call) => p.(calls := p.calls + [call])
    case Completed => p.(completed := true)
  }

  /** The report a leader makes when the stream is over or has failed. */
  function Closed(p: Progress): Progress {
    if p.ready then p else p.(report := ReportedFailed)
  }

  function Drain(p: Progress, items: seq<StreamItem>): (Progress, Option<TurnError>)
    decreases |items|
  {
    if items == [] then (Closed(p), None)
    else match items[0]
      case StreamError(code) => (Closed(p), Some(ModelFailed(code)))
      case Incomplete(reason) => (p, Some(ModelIncomplete(reason.GetOr("unknown"))))
      case StreamUnwinds => (p, Some(Unwound))
      case _ => Drain(Absorb(p, items[0]), items[1..])
  }

  function Begin(s: Continuation, leader: bool): Progress {
    Progress(s, None, "", [], false, !leader, NoReport)
  }

  // ---------------------------------------------------------------- after the stream

  function FingerprintOf(call: ToolCall): Fingerprint {
    call.name + ":" + call.arguments
  }

  function Fingerprints(calls: seq<ToolCall>): (f: seq<Fingerprint>)
    ensures |f| == |calls|
  {
    if calls == [] then [] else [FingerprintOf(calls[0])] + Fingerprints(calls[1..])
  }

  function LedgerOf(s: Continuation): Ledger {
    Ledger(s.recentToolFingerprints, s.metrics.toolCalls, s.stuckRecoveries)
  }

  function WithLedger(s: Continuation, l: Ledger): Continuation {
    s.(recentToolFingerprints := l.recent, metrics := s.metrics.(toolCalls := l.toolCalls),
       stuckRecoveries := l.stuckRecoveries)
  }

  function LimitsOf(profile: ProfileContract.AgentProfile): Limits {
    Limits(profile.modelPolicy.maxStuckRecoveries, profile.modelPolicy.maxToolCalls)
  }

  function Restarted(s: Continuation, notice: Notice): Continuation {
    Push(s.(previousResponseId := None, conversationContinuation := false, nextInput := s.transcript),
         [Instruction(notice)])
  }

  function Counted(s: Continuation): Continuation {
    s.(nextTurn := Min(s.nextTurn + 1, U8_MAX), metrics := s.metrics.(turns := Min(s.metrics.turns + 1, U32_MAX)))
  }

  function JudgeCalls(s: Continuation, profile: ProfileContract.AgentProfile, p: Progress): TurnResult {
    var (judgement, ledger) := Judge(LedgerOf(s), LimitsOf(profile), Fingerprints(p.calls));
    var noted := WithLedger(s, ledger);
    match judgement
    case RecoverableStuck => Checkpoint(StuckRecoverable, Restarted(noted, StuckRecovery))
    case StuckExhausted => Checkpoint(StuckExhaustedStatus, Restarted(noted, StuckStop))
    case OverToolBudget => Checkpoint(PartialBudget, Restarted(noted.(tools := []), ToolBudget))
    case Accepted =>
      WaitingTool(
        if !noted.conversationContinuation && p.turnOutput != ""
        then noted.(transcript := noted.transcript + [Message(Assistant, p.turnOutput)]) else noted,
        p.responseId, p.calls)
  }

  predicate Contains(s: string, part: string) {
    part <= s || (s != "" && Contains(s[1..], part))
  }

  function Concluded(profile: ProfileContract.AgentProfile, p: Progress): TurnResult {
    if !p.completed then Rejected(NoCompletion)
    else
      var s := Counted(p.state);
      if p.calls != [] then JudgeCalls(s, profile, p)
      else if Blank(s.output) then Rejected(EmptyResult)
      else if Contains(p.turnOutput, "[PARTIAL_HANDOFF]") then Checkpoint(PartialBudget, s)
      else Finished(s)
  }

  // ---------------------------------------------------------------- the whole call

  /** The result of a call, what was asked of the model if anything, and the lane report. */
  datatype Call = Call(result: TurnResult, asked: Option<ModelRequest>, report: LaneReport)

  /** The call from the point where the continuation is prepared. */
  function TurnFrom(prepared: Continuation, profile: ProfileContract.AgentProfile, around: Surroundings): Call {
    if prepared.nextTurn >= prepared.maxTurns then Call(Checkpoint(PartialBudget, prepared), None, NoReport)
    else if around.cachePolicyError.Some? then
      Call(Rejected(ModelFailed(around.cachePolicyError.value)), None, NoReport)
    else if around.gate.Refused? then Call(Rejected(CancelledAtGate), None, NoReport)
    else
      var state := Announced(prepared, profile.modelPolicy.targetTurns);
      match around.reply
      case StartFailed(code) =>
        Call(Rejected(ModelFailed(code)), Some(Asked(state)), if around.gate.Leader? then ReportedFailed else NoReport)
      case StartUnwinds => Call(Rejected(Unwound), Some(Asked(state)), NoReport)
      case Stream(items) =>
        var (p, error) := Drain(Begin(state, around.gate.Leader?), items);
        Call(if error.Some? then Rejected(error.value) else Concluded(profile, p), Some(Asked(state)), p.report)
  }

  /** Why a call is refused before its continuation is looked at. */
  function Refusal(req: Request, around: Surroundings): Option<TurnError> {
    var verdict := ProfileContract.Verdict(req.profile);
    if around.viewError.Some? then Some(ModelFailed(around.viewError.value))
    else if verdict.Some? then Some(ProfileRejected(verdict.value))
    else if req.profile.role != req.role then Some(RoleMismatch)
    else None
  }

  function Turn(refusal: Option<TurnError>, prepared: Continuation, profile: ProfileContract.AgentProfile,
                around: Surroundings): Call
  {
    if refusal.Some? then Call(Rejected(refusal.value), None, NoReport) else TurnFrom(prepared, profile, around)
  }

  method Execute(req: Request, around: Surroundings)
    returns (result: TurnResult, asked: Option<ModelRequest>, report: LaneReport)
    ensures Call(result, asked, report)
         == Turn(Refusal(req, around),
                 Prepared(req, ProfileContract.RenderContract(req.profile), around.conversationContinuation),
                 req.profile, around)
  {
    asked, report := None, NoReport;
    if around.viewError.Some? {
      return Rejected(ModelFailed(around.viewError.value)), asked, report;
    }
    var sound := ProfileContract.Validate(req.profile);
    if sound.Err? {
      return Rejected(ProfileRejected(sound.error)), asked, report;
    }
    if req.profile.role != req.role {
      return Rejected(RoleMismatch), asked, report;
    }
    var contractText := ProfileContract.RenderContract(req.profile);
    result, asked, report :=
      ExecuteFrom(Prepared(req, contractText, around.conversationContinuation), req.profile, around);
  }

  method ExecuteFrom(prepared: Continuation, profile: ProfileContract.AgentProfile, around: Surroundings)
    returns (result: TurnResult, asked: Option<ModelRequest>, report: LaneReport)
    ensures Call(result, asked, report) == TurnFrom(prepared, profile, around)
  {
    asked, report := None, NoReport;
    if prepared.nextTurn >= prepared.maxTurns {
      return Checkpoint(PartialBudget, prepared), asked, report;
    }
    if around.cachePolicyError.Some? {
      return Rejected(ModelFailed(around.cachePolicyError.value)), asked, report;
    }
    if around.gate.Refused? {
      return Rejected(CancelledAtGate), asked, report;
    }
    var state := Announced(prepared, profile.modelPolicy.targetTurns);
    asked := Some(Asked(state));
    if around.reply.StartFailed? {
      if around.gate.Leader? {
        report := ReportedFailed;
      }
      return Rejected(ModelFailed(around.reply.code)), asked, report;
    }
    if around.reply.StartUnwinds? {
      return Rejected(Unwound), asked, report;
    }
    result, report := Consume(profile, Begin(state, around.gate.Leader?), around.reply.items);
  }

  /** The event loop and the verdict after it. */
  method Consume(profile: ProfileContract.AgentProfile, start: Progress, items: seq<StreamItem>)
    returns (result: TurnResult, report: LaneReport)
    ensures var (p, error) := Drain(start, items);
            && report == p.report
            && result == if error.Some? then Rejected(error.value) else Concluded(profile, p)
  {
    var state := start.state;
    var responseId, turnOutput, calls := start.responseId, start.turnOutput, start.calls;
    var completed, ready := start.completed, start.ready;
    report := start.report;
    for i := 0 to |items|
      invariant Drain(start, items)
             == Drain(Progress(state, responseId, turnOutput, calls, completed, ready, report), items[i..])
    {
      assert items[i..][0] == items[i] && items[i..][1..] == items[i + 1..];
      match items[i] {
        case StreamError(code) =>
          if !ready {
            report := ReportedFailed;
          }
          return Rejected(ModelFailed(code)), report;
        case Started(id) =>
          responseId := Some(id);
          if !ready {
            report := ReportedReady;
            ready := true;
          }
        case TextDelta(delta) =>
          state := state.(output := state.output + delta);
          turnOutput := turnOutput + delta;
        case UsageReport(usage) =>
          state := state.(metrics := state.metrics.(usage := AddUsage(state.metrics.usage, usage)));
        case ToolRequested(call) =>
          calls := calls + [call];
        case Completed =>
          completed := true;
        case Incomplete(reason) =>
          return Rejected(ModelIncomplete(reason.GetOr("unknown"))), report;
        case StreamUnwinds =>
          return Rejected(Unwound), report;
        case ReasoningDelta =>
      }
    }
    if !ready {
      report := ReportedFailed;
    }
    result := Concluded(profile, Progress(state, responseId, turnOutput, calls, completed, ready, report));
  }

  // ---------------------------------------------------------------- the lane

  /** The exits of the event loop that report nothing: an incomplete model and a panic. */
  predicate Silent(item: StreamItem) {
    item.Incomplete? || item.StreamUnwinds?
  }

  /** The stream ends silently before it has started and before it fails. */
  ghost predicate EndsUnstarted(items: seq<StreamItem>) {
    exists i ::
      0 <= i < |items| && Silent(items[i]) && forall j :: 0 <= j < i ==> !items[j].Started? && !Breaks(items[j])
  }

  lemma {:induction false} ReportIsFinal(p: Progress, items: seq<StreamItem>)
    requires p.ready
    ensures Drain(p, items).0.report == p.report
    decreases |items|
  {
    if items != [] && !Breaks(items[0]) {
      ReportIsFinal(Absorb(p, items[0]), items[1..]);
    }
  }

  lemma {:induction false} UnreportedDrain(p: Progress, items: seq<StreamItem>)
    requires !p.ready && p.report == NoReport
    ensures Drain(p, items).0.report == NoReport <==> EndsUnstarted(items)
    decreases |items|
  {
    if items == [] || items[0].StreamError? {
    } else if Silent(items[0]) {
      assert Silent(items[0]);
    } else if items[0].Started? {
      ReportIsFinal(Absorb(p, items[0]), items[1..]);
    } else {
      UnreportedDrain(Absorb(p, items[0]), items[1..]);
      EndsLater(items);
    }
  }

  lemma EndsLater(items: seq<StreamItem>)
    requires items != [] && !Breaks(items[0]) && !items[0].Started?
    ensures EndsUnstarted(items) <==> EndsUnstarted(items[1..])
  {
    var rest := items[1..];
    if EndsUnstarted(items) {
      var i :| 0 <= i < |items| && Silent(items[i])
          && forall j :: 0 <= j < i ==> !items[j].Started? && !Breaks(items[j]);
      assert rest[i - 1] == items[i];
      assert forall j :: 0 <= j < i - 1 ==> rest[j] == items[j + 1];
    }
    if EndsUnstarted(rest) {
      var i :| 0 <= i < |rest| && Silent(rest[i]) && forall j :: 0 <= j < i ==> !rest[j].Started? && !Breaks(rest[j]);
      assert items[i + 1] == rest[i];
      assert forall j :: 1 <= j < i + 1 ==> items[j] == rest[j - 1];
    }
  }

  /** A leader's call ends without a report to the gate. */
  ghost predicate LeavesSilently(reply: Reply) {
    reply.StartUnwinds? || (reply.Stream? && EndsUnstarted(reply.items))
  }

  /** Followers never report. A leader that called the model leaves its lane without a report
      exactly when starting the stream unwinds, or the stream is incomplete or unwinds before it
      started and before it failed. */
  lemma WhoLeavesTheLane(prepared: Continuation, profile: ProfileContract.AgentProfile, around: Surroundings)
    requires TurnFrom(prepared, profile, around).asked.Some?
    ensures around.gate.Follower? ==> TurnFrom(prepared, profile, around).report == NoReport
    ensures around.gate.Leader? ==>
        (TurnFrom(prepared, profile, around).report == NoReport <==> LeavesSilently(around.reply))
  {
    if around.reply.Stream? {
      var start := Begin(Announced(prepared, profile.modelPolicy.targetTurns), around.gate.Leader?);
      if start.ready {
        ReportIsFinal(start, around.reply.items);
      } else {
        UnreportedDrain(start, around.reply.items);
      }
    }
  }
}
