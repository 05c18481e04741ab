/** What one call of the model handler answers, told from the items of the stream: the text they add
    up to, the calls they ask for, and whether the stream breaks or completes. */
module TurnAnswers {
  import opened Prelude
  import opened Text
  import opened ToolLedger
  import opened ModelTurns
  import ProfileContract

  // ---------------------------------------------------------------- reading the items

  /** All the text of the stream. */
  function TextOf(items: seq<StreamItem>): string {
    if items == [] then "" else (if items[0].TextDelta? then items[0].delta else "") + TextOf(items[1..])
  }

  /** All the tool calls, in the order they were asked for. */
  function CallsOf(items: seq<StreamItem>): seq<ToolCall> {
    if items == [] then [] else (if items[0].ToolRequested? then [items[0].call] else []) + CallsOf(items[1..])
  }

  /** The id the stream was started under last. */
  function ResponseOf(items: seq<StreamItem>): Option<ResponseId> {
    if items == [] then None
    else if ResponseOf(items[1..]).Some? then ResponseOf(items[1..])
    else if items[0].Started? then Some(items[0].responseId) else None
  }

  /** One figure of the usage reports, added up without a bound. */
  function Reported(items: seq<StreamItem>, figure: Usage -> U64): nat {
    if items == [] then 0
    else (if items[0].UsageReport? then figure(items[0].usage) else 0) + Reported(items[1..], figure)
  }

  ghost predicate Whole(items: seq<StreamItem>) {
    forall i :: 0 <= i < |items| ==> !items[i].StreamError? && !items[i].Incomplete? && !items[i].StreamUnwinds?
  }

  ghost predicate BreaksFirstAt(items: seq<StreamItem>, i: nat) {
    i < |items| && Breaks(items[i]) && Whole(items[..i])
  }

  ghost predicate Completes(items: seq<StreamItem>) {
    exists i :: 0 <= i < |items| && items[i].Completed?
  }

  const Input: Usage -> U64 := (u: Usage) => u.input
  const Output: Usage -> U64 := (u: Usage) => u.output
  const Reasoning: Usage -> U64 := (u: Usage) => u.reasoning
  const CachedInput: Usage -> U64 := (u: Usage) => u.cachedInput
  const CacheWrite: Usage -> U64 := (u: Usage) => u.cacheWrite

  /** The usage after the stream: each figure is the true sum, up to the largest integer. */
  function UsageAfter(before: Usage, items: seq<StreamItem>): Usage {
    Usage(
      Min(before.input + Reported(items, Input), U64_MAX),
      Min(before.output + Reported(items, Output), U64_MAX),
      Min(before.reasoning + Reported(items, Reasoning), U64_MAX),
      Min(before.cachedInput + Reported(items, CachedInput), U64_MAX),
      Min(before.cacheWrite + Reported(items, CacheWrite), U64_MAX))
  }

  lemma WholeTail(items: seq<StreamItem>)
    requires items != []
    ensures Whole(items) <==> !Breaks(items[0]) && Whole(items[1..])
    ensures Completes(items) <==> items[0].Completed? || Completes(items[1..])
  {
    assert forall i :: 0 < i < |items| ==> items[i] == items[1..][i - 1];
    if i :| 0 <= i < |items[1..]| && items[1..][i].Completed? {
      assert items[i + 1].Completed?;
    }
  }

  lemma UsageOneMore(before: Usage, items: seq<StreamItem>)
    requires items != []
    ensures UsageAfter(before, items)
      == UsageAfter(if items[0].UsageReport? then AddUsage(before, items[0].usage) else before, items[1..])
  {
  }

  /** From `p` to `q` the text, the calls, the usage and the response id grew as the items say. */
  predicate Grown(p: Progress, q: Progress, items: seq<StreamItem>) {
    && q.state == p.state.(
         output := p.state.output + TextOf(items),
         metrics := p.state.metrics.(usage := UsageAfter(p.state.metrics.usage, items)))
    && q.turnOutput == p.turnOutput + TextOf(items)
    && q.calls == p.calls + CallsOf(items)
    && q.responseId == if ResponseOf(items).Some? then ResponseOf(items) else p.responseId
  }

  lemma Regroup<T>(a: seq<T>, b: seq<T>, c: seq<T>)
    ensures a + b + c == a + (b + c)
  {
  }

  lemma GrownByText(p: Progress, q: Progress, items: seq<StreamItem>)
    requires items != [] && items[0].TextDelta? && Grown(Absorb(p, items[0]), q, items[1..])
    ensures Grown(p, q, items)
  {
    Regroup(p.state.output, items[0].delta, TextOf(items[1..]));
    Regroup(p.turnOutput, items[0].delta, TextOf(items[1..]));
    assert CallsOf(items) == CallsOf(items[1..]);
  }

  lemma GrownByCall(p: Progress, q: Progress, items: seq<StreamItem>)
    requires items != [] && items[0].ToolRequested? && Grown(Absorb(p, items[0]), q, items[1..])
    ensures Grown(p, q, items)
  {
    Regroup(p.calls, [items[0].call], CallsOf(items[1..]));
    assert TextOf(items) == TextOf(items[1..]);
  }

  lemma GrownByOther(p: Progress, q: Progress, items: seq<StreamItem>)
    requires items != [] && !Breaks(items[0]) && !items[0].TextDelta? && !items[0].ToolRequested?
    requires Grown(Absorb(p, items[0]), q, items[1..])
    ensures Grown(p, q, items)
  {
    UsageOneMore(p.state.metrics.usage, items);
    assert TextOf(items) == TextOf(items[1..]);
    assert CallsOf(items) == CallsOf(items[1..]);
  }

  /** Where a stream without a break leaves the call. */
  lemma {:induction false} WholeDrain(p: Progress, items: seq<StreamItem>)
    requires Whole(items)
    ensures Drain(p, items).1.None? && Grown(p, Drain(p, items).0, items)
    ensures Drain(p, items).0.completed == (p.completed || Completes(items))
    decreases |items|
  {
    if items != [] {
      WholeTail(items);
      WholeDrain(Absorb(p, items[0]), items[1..]);
      if items[0].TextDelta? {
        GrownByText(p, Drain(p, items).0, items);
      } else if items[0].ToolRequested? {
        GrownByCall(p, Drain(p, items).0, items);
      } else {
        GrownByOther(p, Drain(p, items).0, items);
      }
    }
  }

  /** The first break decides, whatever came before and whatever follows. */
  lemma {:induction false} BrokenDrain(p: Progress, items: seq<StreamItem>, i: nat)
    requires BreaksFirstAt(items, i)
    ensures
      var error := Drain(p, items).1;
      && (items[i].StreamError? ==> error == Some(ModelFailed(items[i].code)))
      && (items[i].StreamUnwinds? ==> error == Some(Unwound))
      && (items[i].Incomplete? ==>
            error == Some(ModelIncomplete(if items[i].reason.Some? then items[i].reason.value else "unknown")))
    decreases |items|
  {
    if i > 0 {
      assert items[..i][0] == items[0];
      assert items[..i][1..] == items[1..][..i - 1];
      WholeTail(items[..i]);
      BrokenDrain(Absorb(p, items[0]), items[1..], i - 1);
    }
  }

  lemma {:induction false} WholeOrBroken(items: seq<StreamItem>) returns (i: nat)
    ensures !Whole(items) ==> BreaksFirstAt(items, i)
  {
    i := 0;
    if items != [] {
      if !Breaks(items[0]) {
        var k := WholeOrBroken(items[1..]);
        i := k + 1;
        WholeTail(items);
        if !Whole(items) {
          assert items[..i][0] == items[0] && items[..i][1..] == items[1..][..k];
          WholeTail(items[..i]);
        }
      } else {
        assert items[..0] == [];
      }
    }
  }

  // ---------------------------------------------------------------- what is asked of the model

  /** The model is called and answers with a stream. */
  predicate Streams(prepared: Continuation, around: Surroundings) {
    && prepared.nextTurn < prepared.maxTurns
    && around.cachePolicyError.None? && !around.gate.Refused? && around.reply.Stream?
  }

  predicate LastTurn(s: Continuation) {
    s.nextTurn + 1 >= s.maxTurns
  }

  /** The notice that goes with the turn. */
  function NoticeOf(s: Continuation, targetTurns: U8): seq<InputItem> {
    if LastTurn(s) then [Instruction(Finalization)]
    else if s.nextTurn >= targetTurns then [Instruction(Convergence)]
    else []
  }

  /** The model is asked unless no turn is left, the cache policy fails or the gate refuses. It gets the
      pending input and the notice of the turn, and no tools on the last turn. */
  lemma WhatIsAsked(prepared: Continuation, profile: ProfileContract.AgentProfile, around: Surroundings)
    ensures
      var asked := TurnFrom(prepared, profile, around).asked;
      && (asked.Some? <==>
            prepared.nextTurn < prepared.maxTurns && around.cachePolicyError.None? && !around.gate.Refused?)
      && (asked.Some? ==>
            && asked.value.instructions == prepared.instructions
            && asked.value.input == prepared.nextInput + NoticeOf(prepared, profile.modelPolicy.targetTurns)
            && asked.value.tools == (if LastTurn(prepared) then [] else prepared.tools)
            && asked.value.previousResponseId == prepared.previousResponseId)
      && (asked.None? ==> TurnFrom(prepared, profile, around).report.NoReport?)
  {
    assert prepared.nextInput + [] == prepared.nextInput;
  }

  /** What ends a call before a stream: no turn left, a cache policy, the gate, or the start itself. */
  lemma AnswerWithoutStream(prepared: Continuation, profile: ProfileContract.AgentProfile, around: Surroundings)
    ensures
      var r, spent := TurnFrom(prepared, profile, around).result, prepared.nextTurn >= prepared.maxTurns;
      var refused := around.cachePolicyError.Some? || around.gate.Refused?;
      && (spent ==> r == Checkpoint(PartialBudget, prepared))
      && (!spent && around.cachePolicyError.Some? ==> r == Rejected(ModelFailed(around.cachePolicyError.value)))
      && (!spent && around.cachePolicyError.None? && around.gate.Refused? ==> r == Rejected(CancelledAtGate))
      && (!spent && !refused && around.reply.StartFailed? ==> r == Rejected(ModelFailed(around.reply.code)))
      && (!spent && !refused && around.reply.StartUnwinds? ==> r == Rejected(Unwound))
  {
  }

  // ---------------------------------------------------------------- the answer to a broken stream

  lemma AnswerToABreak(prepared: Continuation, profile: ProfileContract.AgentProfile, around: Surroundings, i: nat)
    requires Streams(prepared, around) && BreaksFirstAt(around.reply.items, i)
    ensures
      var r, item := TurnFrom(prepared, profile, around).result, around.reply.items[i];
      && (item.StreamError? ==> r == Rejected(ModelFailed(item.code)))
      && (item.StreamUnwinds? ==> r == Rejected(Unwound))
      && (item.Incomplete? ==> r == Rejected(ModelIncomplete(item.reason.GetOr("unknown"))))
  {
    BrokenDrain(Begin(Announced(prepared, profile.modelPolicy.targetTurns), around.gate.Leader?),
      around.reply.items, i);
  }

  // ---------------------------------------------------------------- the answer to a whole stream

  /** The continuation as the turn found it, with its notice. */
  function Noticed(s: Continuation, targetTurns: U8): Continuation {
    var notice := NoticeOf(s, targetTurns);
    s.(nextInput := s.nextInput + notice,
       transcript := if s.conversationContinuation then s.transcript else s.transcript + notice)
  }

  /** What every completed turn does to a continuation: one turn, the text and the usage. */
  function TurnDone(s: Continuation, items: seq<StreamItem>): Continuation
    requires s.nextTurn < s.maxTurns
  {
    s.(nextTurn := s.nextTurn + 1,
       output := s.output + TextOf(items),
       metrics := s.metrics.(turns := Min(s.metrics.turns + 1, U32_MAX), usage := UsageAfter(s.metrics.usage, items)))
  }

  lemma AnnouncedIsNoticed(s: Continuation, targetTurns: U8)
    requires s.nextTurn < s.maxTurns
    ensures Announced(s, targetTurns) == Noticed(s, targetTurns)
  {
    assert s.nextInput + [] == s.nextInput && s.transcript + [] == s.transcript;
  }

  /** A whole stream is judged from what its items add up to. */
  lemma WholeIsConcluded(prepared: Continuation, profile: ProfileContract.AgentProfile, around: Surroundings)
    requires Streams(prepared, around) && Whole(around.reply.items)
    ensures
      var items := around.reply.items;
      var s := Noticed(prepared, profile.modelPolicy.targetTurns);
      exists p: Progress ::
        && TurnFrom(prepared, profile, around).result == Concluded(profile, p)
        && p.completed == Completes(items) && p.calls == CallsOf(items) && p.turnOutput == TextOf(items)
        && p.responseId == ResponseOf(items) && Counted(p.state) == TurnDone(s, items)
  {
    var items := around.reply.items;
    var start := Begin(Announced(prepared, profile.modelPolicy.targetTurns), around.gate.Leader?);
    AnnouncedIsNoticed(prepared, profile.modelPolicy.targetTurns);
    WholeDrain(start, items);
    var p := Drain(start, items).0;
    assert "" + TextOf(items) == TextOf(items) && [] + CallsOf(items) == CallsOf(items);
    assert Counted(p.state) == TurnDone(Noticed(prepared, profile.modelPolicy.targetTurns), items);
  }

  /** The text holds the marker of a partial handoff. */
  ghost predicate HandsOver(text: string) {
    exists i :: 0 <= i <= |text| && "[PARTIAL_HANDOFF]" <= text[i..]
  }

  lemma {:induction false} ContainsIff(text: string, part: string)
    ensures Contains(text, part) <==> exists i :: 0 <= i <= |text| && part <= text[i..]
  {
    if part <= text {
      assert text[0..] == text;
    } else if text != "" {
      ContainsIff(text[1..], part);
      if i :| 0 <= i <= |text| && part <= text[i..] {
        assert i > 0 ==> text[1..][i - 1..] == text[i..];
        assert text[0..] == text;
      }
      if i :| 0 <= i <= |text[1..]| && part <= text[1..][i..] {
        assert text[i + 1..] == text[1..][i..];
      }
    } else {
      assert text[0..] == text;
    }
  }

  /** The answer when no tools are asked for. A call is finished if and only if its stream is whole and
      completes, something was ever written, and this turn's text does not hand over. */
  lemma PlainAnswer(prepared: Continuation, profile: ProfileContract.AgentProfile, around: Surroundings)
    requires Streams(prepared, around)
    ensures
      var items, r := around.reply.items, TurnFrom(prepared, profile, around).result;
      var plain := Whole(items) && Completes(items) && CallsOf(items) == [];
      var blank := Blank(prepared.output + TextOf(items));
      && (r.Finished? <==> plain && !blank && !HandsOver(TextOf(items)))
      && (plain && !blank && HandsOver(TextOf(items)) ==> r.Checkpoint? && r.status.PartialBudget?)
      && (r == Rejected(EmptyResult) <==> plain && blank)
      && (r == Rejected(NoCompletion) <==> Whole(items) && !Completes(items))
      && (plain && !blank ==>
            && (r.Finished? || r.Checkpoint?)
            && r.state == TurnDone(Noticed(prepared, profile.modelPolicy.targetTurns), items))
  {
    var items := around.reply.items;
    ContainsIff(TextOf(items), "[PARTIAL_HANDOFF]");
    if Whole(items) {
      WholeIsConcluded(prepared, profile, around);
    } else {
      var i := WholeOrBroken(items);
      AnswerToABreak(prepared, profile, around, i);
    }
  }

  // ---------------------------------------------------------------- the answer when tools are asked for

  function PrintsOf(calls: seq<ToolCall>): (f: seq<Fingerprint>)
    ensures |f| == |calls|
  {
    seq(|calls|, i requires 0 <= i < |calls| => calls[i].name + ":" + calls[i].arguments)
  }

  lemma {:induction false} PrintsAreFingerprints(calls: seq<ToolCall>)
    ensures Fingerprints(calls) == PrintsOf(calls)
  {
    if calls != [] {
      PrintsAreFingerprints(calls[1..]);
    }
  }

  /** The calls on record once these are asked for as well. */
  function OnRecord(s: Continuation, calls: seq<ToolCall>): seq<Fingerprint> {
    s.recentToolFingerprints + PrintsOf(calls)
  }

  predicate ThreeAlike(s: seq<Fingerprint>) {
    var n := |s|;
    n >= 3 && s[n - 1] == s[n - 2] && s[n - 2] == s[n - 3]
  }

  /** The last twelve of them. */
  function LastTwelve(s: seq<Fingerprint>): seq<Fingerprint> {
    s[(if |s| > 12 then |s| - 12 else 0)..]
  }

  lemma TwelveAreEnough(s: seq<Fingerprint>)
    ensures Last(WINDOW, s) == LastTwelve(s)
    ensures Repeated(LastTwelve(s)) <==> ThreeAlike(s)
  {
  }

  /** The verdict, given the record it leaves and whether that ends in three equal calls. */
  lemma JudgedByRecord(l: Ledger, limits: Limits, prints: seq<Fingerprint>, recent: seq<Fingerprint>, alike: bool)
    requires Last(WINDOW, l.recent + prints) == recent && (Repeated(recent) <==> alike)
    ensures
      var (j, after) := Judge(l, limits, prints);
      var over := l.toolCalls + |prints| > limits.maxToolCalls;
      && (j.RecoverableStuck? <==> alike && l.stuckRecoveries < limits.maxStuckRecoveries)
      && (j.StuckExhausted? <==> alike && l.stuckRecoveries >= limits.maxStuckRecoveries)
      && (j.OverToolBudget? <==> !alike && over)
      && (j.Accepted? <==> !alike && !over)
      && after.recent == recent
      && after.toolCalls == (if j.Accepted? then l.toolCalls + |prints| else l.toolCalls)
      && after.stuckRecoveries == (if j.RecoverableStuck? then l.stuckRecoveries + 1 else l.stuckRecoveries)
  {
  }

  lemma JudgedOnRecord(s: Continuation, limits: Limits, calls: seq<ToolCall>)
    ensures
      var (j, l) := Judge(LedgerOf(s), limits, Fingerprints(calls));
      var alike, over := ThreeAlike(OnRecord(s, calls)), s.metrics.toolCalls + |calls| > limits.maxToolCalls;
      && (j.RecoverableStuck? <==> alike && s.stuckRecoveries < limits.maxStuckRecoveries)
      && (j.StuckExhausted? <==> alike && s.stuckRecoveries >= limits.maxStuckRecoveries)
      && (j.OverToolBudget? <==> !alike && over)
      && (j.Accepted? <==> !alike && !over)
      && l.recent == LastTwelve(OnRecord(s, calls))
      && l.toolCalls == (if j.Accepted? then s.metrics.toolCalls + |calls| else s.metrics.toolCalls)
      && l.stuckRecoveries == (if j.RecoverableStuck? then s.stuckRecoveries + 1 else s.stuckRecoveries)
  {
    var tail := OnRecord(s, calls);
    PrintsAreFingerprints(calls);
    TwelveAreEnough(tail);
    JudgedByRecord(LedgerOf(s), limits, PrintsOf(calls), LastTwelve(tail), ThreeAlike(tail));
  }

  /** Which answer a whole, complete stream with tool calls gets: a checkpoint if the last three calls on
      record are alike or the calls exceed the budget, and the calls themselves otherwise. */
  lemma ToolAnswer(prepared: Continuation, profile: ProfileContract.AgentProfile, around: Surroundings)
    requires Streams(prepared, around)
    requires Whole(around.reply.items) && Completes(around.reply.items) && CallsOf(around.reply.items) != []
    ensures
      var items, r := around.reply.items, TurnFrom(prepared, profile, around).result;
      var calls, policy := CallsOf(items), profile.modelPolicy;
      var alike := ThreeAlike(OnRecord(prepared, calls));
      var over := prepared.metrics.toolCalls + |calls| > policy.maxToolCalls;
      && (r.WaitingTool? <==> !alike && !over)
      && (r.WaitingTool? ==> r.calls == calls && r.responseId == ResponseOf(items))
      && (r.Checkpoint? <==> alike || over)
      && (r.Checkpoint? ==>
            && (r.status.StuckRecoverable? <==> alike && prepared.stuckRecoveries < policy.maxStuckRecoveries)
            && (r.status.StuckExhaustedStatus? <==> alike && prepared.stuckRecoveries >= policy.maxStuckRecoveries)
            && (r.status.PartialBudget? <==> !alike))
  {
    WholeIsConcluded(prepared, profile, around);
    JudgedOnRecord(prepared, LimitsOf(profile), CallsOf(around.reply.items));
  }

  /** What a call that waits for its tools leaves: the turn is done, the calls are counted and on
      record, and without a server-side conversation the text joins the transcript. */
  lemma WaitingLeaves(prepared: Continuation, profile: ProfileContract.AgentProfile, around: Surroundings)
    requires Streams(prepared, around) && TurnFrom(prepared, profile, around).result.WaitingTool?
    ensures
      var items, s := around.reply.items, TurnFrom(prepared, profile, around).result.state;
      var done := TurnDone(Noticed(prepared, profile.modelPolicy.targetTurns), items);
      var said :=
        if done.conversationContinuation || TextOf(items) == "" then [] else [Message(Assistant, TextOf(items))];
      && s.metrics.toolCalls == prepared.metrics.toolCalls + |CallsOf(items)|
      && s.metrics == done.metrics.(toolCalls := s.metrics.toolCalls)
      && s.recentToolFingerprints == LastTwelve(OnRecord(prepared, CallsOf(items)))
      && s.transcript == done.transcript + said
      && s == done.(
           metrics := s.metrics, recentToolFingerprints := s.recentToolFingerprints, transcript := s.transcript)
  {
    PlainAnswer(prepared, profile, around);
    var items := around.reply.items;
    if !Whole(items) {
      var i := WholeOrBroken(items);
      AnswerToABreak(prepared, profile, around, i);
    } else {
      WholeIsConcluded(prepared, profile, around);
      JudgedOnRecord(prepared, LimitsOf(profile), CallsOf(items));
    }
  }

  /** What rejected calls leave: the turn is done and the calls are on record but not counted. The
      next turn starts afresh from the transcript and the reason; over the budget the tools go. */
  lemma RejectedCallsLeave(prepared: Continuation, profile: ProfileContract.AgentProfile, around: Surroundings)
    requires Streams(prepared, around)
    requires Whole(around.reply.items) && Completes(around.reply.items) && CallsOf(around.reply.items) != []
    requires TurnFrom(prepared, profile, around).result.Checkpoint?
    ensures
      var items, r := around.reply.items, TurnFrom(prepared, profile, around).result;
      var s, done := r.state, TurnDone(Noticed(prepared, profile.modelPolicy.targetTurns), items);
      var notice := Instruction(if r.status.StuckRecoverable? then StuckRecovery
        else if r.status.PartialBudget? then ToolBudget else StuckStop);
      && s.previousResponseId.None? && !s.conversationContinuation
      && s.transcript == done.transcript + [notice] && s.nextInput == done.transcript + [notice]
      && s.tools == (if r.status.PartialBudget? then [] else prepared.tools)
      && s.recentToolFingerprints == LastTwelve(OnRecord(prepared, CallsOf(items)))
      && s.stuckRecoveries == prepared.stuckRecoveries + (if r.status.StuckRecoverable? then 1 else 0)
      && s.instructions == done.instructions && s.output == done.output && s.nextTurn == done.nextTurn
      && s.maxTurns == done.maxTurns && s.metrics == done.metrics && s.changedFiles == done.changedFiles
  {
    WholeIsConcluded(prepared, profile, around);
    JudgedOnRecord(prepared, LimitsOf(profile), CallsOf(around.reply.items));
  }

  // ---------------------------------------------------------------- before the first turn

  /** A new continuation: the contract and the stable instructions first, then task data if there is
      any, the objective and the steering messages, in this order; every counter at zero. */
  lemma OpenedFresh(req: Request, contractText: string, conversation: bool)
    requires req.continuation.None?
    ensures
      var s := Prepared(req, contractText, conversation);
      var data := JoinParts(req.taskContract, req.dynamicContext);
      var first: nat := if data == "" then 0 else 1;
      && s.instructions == JoinParts(contractText, req.stableInstructions)
      && |s.nextInput| == first + 1 + |req.steering|
      && (first == 1 ==> s.nextInput[0] == Message(Developer, data))
      && s.nextInput[first] == Message(User, req.objective)
      && (forall i :: 0 <= i < |req.steering| ==>
            s.nextInput[first + 1 + i] == Message(User, "[Steering]\n" + req.steering[i]))
      && s.transcript == s.nextInput && s.tools == req.tools && s.previousResponseId.None? && s.output == ""
      && s.nextTurn == 0 && s.maxTurns == req.maxTurns && s.conversationContinuation == conversation
      && s.metrics == Metrics(0, Usage(0, 0, 0, 0, 0), 0) && LedgerOf(s) == FRESH && s.changedFiles == []
  {
    SteeringInOrder(req.steering);
  }

  /** A stored continuation gets the steering messages behind its pending input, and behind its
      transcript without a server-side conversation; its turn limit may only rise. */
  lemma ResumedFurther(req: Request, contractText: string, conversation: bool)
    requires req.continuation.Some?
    ensures
      var s, was := Prepared(req, contractText, conversation), req.continuation.value;
      && s.maxTurns == (if req.maxTurns > was.maxTurns then req.maxTurns else was.maxTurns)
      && |s.nextInput| == |was.nextInput| + |req.steering| && s.nextInput[..|was.nextInput|] == was.nextInput
      && (forall i :: 0 <= i < |req.steering| ==>
            s.nextInput[|was.nextInput| + i] == Message(User, "[Steering]\n" + req.steering[i]))
      && s.transcript
         == was.transcript + (if was.conversationContinuation then [] else s.nextInput[|was.nextInput|..])
      && s == was.(maxTurns := s.maxTurns, nextInput := s.nextInput, transcript := s.transcript)
  {
    SteeringInOrder(req.steering);
  }

  lemma {:induction false} SteeringInOrder(messages: seq<string>)
    ensures |ModelTurns.Steering(messages)| == |messages|
    ensures forall i :: 0 <= i < |messages| ==>
        ModelTurns.Steering(messages)[i] == Message(User, "[Steering]\n" + messages[i])
  {
    if messages != [] {
      SteeringInOrder(messages[1..]);
    }
  }

  lemma JoinedParts(a: string, b: string)
    ensures JoinParts(a, b) == if a != "" && b != "" then a + "\n" + b else a + b
  {
  }

  /** A call is refused before anything else when the model's view fails, its profile is unsound or
      its role is another, in this order; then nothing is asked and nothing reported. */
  lemma RefusedFirst(req: Request, around: Surroundings, prepared: Continuation)
    ensures
      var refusal, verdict := Refusal(req, around), ProfileContract.Verdict(req.profile);
      && (refusal.None? <==> around.viewError.None? && verdict.None? && req.profile.role == req.role)
      && (around.viewError.Some? ==> refusal == Some(ModelFailed(around.viewError.value)))
      && (around.viewError.None? && verdict.Some? ==> refusal == Some(TurnError.ProfileRejected(verdict.value)))
      && (refusal == Some(RoleMismatch) <==>
            around.viewError.None? && verdict.None? && req.profile.role != req.role)
      && (refusal.Some? ==>
            Turn(refusal, prepared, req.profile, around) == Call(Rejected(refusal.value), None, NoReport))
      && (refusal.None? ==> Turn(refusal, prepared, req.profile, around) == TurnFrom(prepared, req.profile, around))
  {
  }

  // ---------------------------------------------------------------- what a leader reports

  ghost predicate StartsWhole(items: seq<StreamItem>) {
    exists i :: 0 <= i < |items| && items[i].Started? && Whole(items[..i])
  }

  lemma StartsLater(items: seq<StreamItem>)
    requires items != [] && !items[0].Started? && !Breaks(items[0])
    ensures StartsWhole(items) <==> StartsWhole(items[1..])
  {
    if i :| 0 <= i < |items| && items[i].Started? && Whole(items[..i]) {
      assert items[1..][i - 1] == items[i] && items[..i][1..] == items[1..][..i - 1];
      WholeTail(items[..i]);
    }
    if i :| 0 <= i < |items[1..]| && items[1..][i].Started? && Whole(items[1..][..i]) {
      assert items[i + 1] == items[1..][i] && items[..i + 1][1..] == items[1..][..i];
      WholeTail(items[..i + 1]);
    }
  }

  lemma {:induction false} ReadyIffStarts(p: Progress, items: seq<StreamItem>)
    requires !p.ready && p.report.NoReport?
    ensures Drain(p, items).0.report.ReportedReady? <==> StartsWhole(items)
    decreases |items|
  {
    if items == [] {
    } else if items[0].Started? {
      assert items[..0] == [];
      ReportIsFinal(Absorb(p, items[0]), items[1..]);
    } else if Breaks(items[0]) {
      forall i | 0 <= i < |items| && items[i].Started? ensures !Whole(items[..i]) {
        assert items[..i][0] == items[0];
      }
    } else {
      ReadyIffStarts(Absorb(p, items[0]), items[1..]);
      StartsLater(items);
    }
  }

  /** A leader that asked the model reports its lane ready exactly when the stream started before it
      broke; otherwise it reports a failure, unless it leaves silently. */
  lemma LeaderReports(prepared: Continuation, profile: ProfileContract.AgentProfile, around: Surroundings)
    requires TurnFrom(prepared, profile, around).asked.Some? && around.gate.Leader?
    ensures
      var report := TurnFrom(prepared, profile, around).report;
      && (report.ReportedReady? <==> around.reply.Stream? && StartsWhole(around.reply.items))
      && (report.NoReport? <==> LeavesSilently(around.reply))
  {
    WhoLeavesTheLane(prepared, profile, around);
    if around.reply.Stream? {
      ReadyIffStarts(Begin(Announced(prepared, profile.modelPolicy.targetTurns), true), around.reply.items);
    }
  }
}
