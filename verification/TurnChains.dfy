/** Chains of resumed calls under one profile: what the budgets guarantee from the first
    call to the last. */
module TurnChains {
  import opened Prelude
  import opened ToolLedger
  import opened ModelTurns
  import ProfileContract

  function StateOf(result: TurnResult): Option<Continuation> {
    match result
    case Rejected(_) => None
    case Checkpoint(_, s) => Some(s)
    case WaitingTool(s, _, _) => Some(s)
    case Finished(s) => Some(s)
  }

  predicate SameCounters(a: Continuation, b: Continuation) {
    a.nextTurn == b.nextTurn && LedgerOf(a) == LedgerOf(b)
  }

  // ---------------------------------------------------------------- one call

  lemma {:induction false} DrainKeepsCounters(p: Progress, items: seq<StreamItem>)
    ensures SameCounters(p.state, Drain(p, items).0.state)
    ensures Drain(p, items).0.state.maxTurns == p.state.maxTurns
    decreases |items|
  {
    if items != [] && !Breaks(items[0]) {
      DrainKeepsCounters(Absorb(p, items[0]), items[1..]);
    }
  }


  lemma JudgedCounts(s: Continuation, profile: ProfileContract.AgentProfile, p: Progress)
    ensures
      var r := JudgeCalls(s, profile, p);
      && !r.Rejected?
      && StateOf(r).value.nextTurn == s.nextTurn && StateOf(r).value.maxTurns == s.maxTurns
      && LedgerOf(StateOf(r).value) == Judge(LedgerOf(s), LimitsOf(profile), Fingerprints(p.calls)).1
  {
  }

  /** What the end of a completed turn does to the counters. */
  lemma ConcludedCounts(profile: ProfileContract.AgentProfile, p: Progress)
    requires !Concluded(profile, p).Rejected?
    ensures
      var s := StateOf(Concluded(profile, p)).value;
      && s.nextTurn == Min(p.state.nextTurn + 1, U8_MAX)
      && s.maxTurns == p.state.maxTurns
      && LedgerOf(s) == if p.calls == [] then LedgerOf(p.state)
                        else Judge(LedgerOf(p.state), LimitsOf(profile), Fingerprints(p.calls)).1
  {
    JudgedCounts(Counted(p.state), profile, p);
  }

  /** Which result a judgement leads to. */
  lemma ConcludedAsJudged(profile: ProfileContract.AgentProfile, p: Progress)
    requires !Concluded(profile, p).Rejected? && p.calls != []
    ensures
      var r, j := Concluded(profile, p), Judge(LedgerOf(p.state), LimitsOf(profile), Fingerprints(p.calls)).0;
      && (j == Accepted <==> r.WaitingTool?)
      && (j == Accepted ==> r.calls == p.calls)
      && (j == RecoverableStuck <==> r.Checkpoint? && r.status == StuckRecoverable)
      && (j == StuckExhausted <==> r.Checkpoint? && r.status == StuckExhaustedStatus)
      && (j == OverToolBudget <==> r.Checkpoint? && r.status == PartialBudget)
  {
  }

  lemma AnnouncedKeepsCounters(s: Continuation, targetTurns: U8)
    ensures SameCounters(s, Announced(s, targetTurns)) && Announced(s, targetTurns).maxTurns == s.maxTurns
  {
  }

  /** Where the stream leaves a call that was not refused before it. */
  function Drained(prepared: Continuation, profile: ProfileContract.AgentProfile, around: Surroundings): Progress
    requires around.reply.Stream?
  {
    Drain(Begin(Announced(prepared, profile.modelPolicy.targetTurns), around.gate.Leader?), around.reply.items).0
  }

  lemma CompletedTurn(prepared: Continuation, profile: ProfileContract.AgentProfile, around: Surroundings)
    requires prepared.nextTurn < prepared.maxTurns && !TurnFrom(prepared, profile, around).result.Rejected?
    ensures around.reply.Stream? && TurnFrom(prepared, profile, around).asked.Some?
    ensures TurnFrom(prepared, profile, around).result == Concluded(profile, Drained(prepared, profile, around))
    ensures SameCounters(prepared, Drained(prepared, profile, around).state)
    ensures Drained(prepared, profile, around).state.maxTurns == prepared.maxTurns
  {
    AnnouncedKeepsCounters(prepared, profile.modelPolicy.targetTurns);
    DrainKeepsCounters(Begin(Announced(prepared, profile.modelPolicy.targetTurns), around.gate.Leader?),
                       around.reply.items);
  }

  /** A model turn that completes uses up exactly one turn of a budget it never exceeds; a
      continuation without turns left is checkpointed as it is, and the model is not called. */
  lemma TurnSpendsOne(prepared: Continuation, profile: ProfileContract.AgentProfile, around: Surroundings)
    ensures prepared.nextTurn >= prepared.maxTurns ==>
      TurnFrom(prepared, profile, around) == Call(Checkpoint(PartialBudget, prepared), None, NoReport)
    ensures prepared.nextTurn < prepared.maxTurns && !TurnFrom(prepared, profile, around).result.Rejected? ==>
      var call := TurnFrom(prepared, profile, around);
      && call.asked.Some?
      && StateOf(call.result).value.maxTurns == prepared.maxTurns
      && StateOf(call.result).value.nextTurn == prepared.nextTurn + 1 <= prepared.maxTurns
  {
    if prepared.nextTurn < prepared.maxTurns && !TurnFrom(prepared, profile, around).result.Rejected? {
      CompletedTurn(prepared, profile, around);
      ConcludedCounts(profile, Drained(prepared, profile, around));
    }
  }

  // ---------------------------------------------------------------- what a call leaves behind

  /** One call of a chain. Nothing below depends on which refusal the handler finds for it
      or on the contract text it prints. */
  datatype Link = Link(req: Request, around: Surroundings, refusal: Option<TurnError>, contractText: string)

  function PreparedFor(link: Link): Continuation {
    Prepared(link.req, link.contractText, link.around.conversationContinuation)
  }

  function CallOf(link: Link): Call {
    Turn(link.refusal, PreparedFor(link), link.req.profile, link.around)
  }

  /** The continuation a call stored if any, whether it completed a model turn, the tool
      calls of that turn, those handed out for execution, and whether the call was
      checkpointed as stuck and recoverable. */
  datatype Effect = Effect(
    after: Option<Continuation>,
    completes: bool,
    calls: seq<Fingerprint>,
    handedOut: seq<Fingerprint>,
    recovery: bool)

  function EffectOf(link: Link): Effect {
    var call := CallOf(link);
    var completes := call.asked.Some? && !call.result.Rejected?;
    Effect(
      StateOf(call.result),
      completes,
      if completes && link.around.reply.Stream?
      then Fingerprints(Drained(PreparedFor(link), link.req.profile, link.around).calls) else [],
      if call.result.WaitingTool? then Fingerprints(call.result.calls) else [],
      call.result.Checkpoint? && call.result.status == StuckRecoverable)
  }

  function TurnsUsed(before: Option<Continuation>): nat {
    if before.Some? then before.value.nextTurn else 0
  }

  function LedgerBefore(before: Option<Continuation>): Ledger {
    if before.Some? then LedgerOf(before.value) else FRESH
  }

  /** How the effect of a call follows from the counters it started with. */
  ghost predicate Lawful(before: Option<Continuation>, e: Effect, profile: ProfileContract.AgentProfile) {
    && (e.after.None? ==> !e.completes && e.calls == [])
    && (e.after.Some? ==>
          && e.after.value.nextTurn == TurnsUsed(before) + (if e.completes then 1 else 0)
          && (e.completes ==> e.after.value.nextTurn <= profile.modelPolicy.maxTurns))
    && (if e.calls == [] then
          && e.handedOut == [] && !e.recovery
          && (e.after.Some? ==> LedgerOf(e.after.value) == LedgerBefore(before))
        else
          var (judgement, ledger) := Judge(LedgerBefore(before), LimitsOf(profile), e.calls);
          && LedgerOf(e.after.value) == ledger
          && e.handedOut == (if judgement == Accepted then e.calls else [])
          && (e.recovery <==> judgement == RecoverableStuck))
  }

  /** The call resumes from `before`: between two calls the caller may add tool outputs,
      rebind the response, replace the transcript and raise the turn limit, but it leaves
      the counters alone. */
  predicate Follows(before: Option<Continuation>, link: Link, profile: ProfileContract.AgentProfile) {
    && link.req.profile == profile
    && link.req.maxTurns <= profile.modelPolicy.maxTurns
    && (if before.None? then link.req.continuation.None?
        else && link.req.continuation.Some?
             && SameCounters(before.value, link.req.continuation.value)
             && link.req.continuation.value.maxTurns <= profile.modelPolicy.maxTurns)
  }

  lemma PreparedCounters(link: Link, before: Option<Continuation>, profile: ProfileContract.AgentProfile)
    requires Follows(before, link, profile)
    ensures PreparedFor(link).maxTurns <= profile.modelPolicy.maxTurns
    ensures PreparedFor(link).nextTurn == TurnsUsed(before)
    ensures LedgerOf(PreparedFor(link)) == LedgerBefore(before)
  {
  }

  lemma EffectIsLawful(link: Link, before: Option<Continuation>, profile: ProfileContract.AgentProfile)
    requires Follows(before, link, profile)
    ensures Lawful(before, EffectOf(link), profile)
  {
    var prepared := PreparedFor(link);
    PreparedCounters(link, before, profile);
    if !CallOf(link).result.Rejected? {
      TurnSpendsOne(prepared, profile, link.around);
      if prepared.nextTurn < prepared.maxTurns {
        CompletedTurn(prepared, profile, link.around);
        var p := Drained(prepared, profile, link.around);
        ConcludedCounts(profile, p);
        if p.calls != [] {
          ConcludedAsJudged(profile, p);
        }
      }
    }
  }

  // ---------------------------------------------------------------- chains

  /** The continuation in force after a chain; a refused call leaves the former one. */
  function Carried(effects: seq<Effect>): Option<Continuation> {
    if effects == [] then None
    else
      var last := effects[|effects| - 1];
      if last.after.Some? then last.after else Carried(effects[..|effects| - 1])
  }

  function CompletedTurns(effects: seq<Effect>): nat {
    if effects == [] then 0
    else CompletedTurns(effects[..|effects| - 1]) + if effects[|effects| - 1].completes then 1 else 0
  }

  function Recoveries(effects: seq<Effect>): nat {
    if effects == [] then 0
    else Recoveries(effects[..|effects| - 1]) + if effects[|effects| - 1].recovery then 1 else 0
  }

  /** The tool calls handed out for execution along the chain. */
  function HandedOut(effects: seq<Effect>): seq<Fingerprint> {
    if effects == [] then []
    else if effects[|effects| - 1].handedOut == [] then HandedOut(effects[..|effects| - 1])
    else HandedOut(effects[..|effects| - 1]) + effects[|effects| - 1].handedOut
  }

  /** The turns of a chain that asked for tools, as the ledger saw them. */
  function ToolTurns(effects: seq<Effect>): seq<seq<Fingerprint>> {
    if effects == [] then []
    else
      var calls := effects[|effects| - 1].calls;
      if calls == [] then ToolTurns(effects[..|effects| - 1]) else ToolTurns(effects[..|effects| - 1]) + [calls]
  }

  ghost predicate LawfulChain(effects: seq<Effect>, profile: ProfileContract.AgentProfile) {
    effects == [] ||
    (LawfulChain(effects[..|effects| - 1], profile)
     && Lawful(Carried(effects[..|effects| - 1]), effects[|effects| - 1], profile))
  }

  function Effects(chain: seq<Link>): (e: seq<Effect>)
    ensures |e| == |chain|
  {
    if chain == [] then [] else Effects(chain[..|chain| - 1]) + [EffectOf(chain[|chain| - 1])]
  }

  /** Each call resumes from the continuation that the calls before it left in force. */
  ghost predicate Linked(chain: seq<Link>, profile: ProfileContract.AgentProfile) {
    chain == [] ||
    (Linked(chain[..|chain| - 1], profile)
     && Follows(Carried(Effects(chain[..|chain| - 1])), chain[|chain| - 1], profile))
  }

  lemma {:induction false} LinkedChainIsLawful(chain: seq<Link>, profile: ProfileContract.AgentProfile)
    requires Linked(chain, profile)
    ensures LawfulChain(Effects(chain), profile)
  {
    if chain != [] {
      var n := |chain| - 1;
      LinkedChainIsLawful(chain[..n], profile);
      EffectIsLawful(chain[n], Carried(Effects(chain[..n])), profile);
      var effects, last := Effects(chain[..n]), EffectOf(chain[n]);
      assert (effects + [last])[..n] == effects;
    }
  }

  lemma LedgerStep(limits: Limits, turns: seq<seq<Fingerprint>>, calls: seq<Fingerprint>)
    ensures
      var (judgement, ledger) := Judge(LedgerAfter(limits, turns), limits, calls);
      && LedgerAfter(limits, turns + [calls]) == ledger
      && Executed(limits, turns + [calls])
         == (if judgement == Accepted then Executed(limits, turns) + calls else Executed(limits, turns))
      && Occurrences(limits, turns + [calls], RecoverableStuck)
         == Occurrences(limits, turns, RecoverableStuck) + if judgement == RecoverableStuck then 1 else 0
  {
  }

  /** The counters carried by a chain are those of its completed turns and of its ledger. */
  lemma {:induction false} ChainCounts(effects: seq<Effect>, profile: ProfileContract.AgentProfile)
    requires LawfulChain(effects, profile)
    ensures TurnsUsed(Carried(effects)) == CompletedTurns(effects) <= profile.modelPolicy.maxTurns
    ensures LedgerBefore(Carried(effects)) == LedgerAfter(LimitsOf(profile), ToolTurns(effects))
  {
    if effects != [] {
      var n := |effects| - 1;
      ChainCounts(effects[..n], profile);
      if effects[n].calls != [] {
        LedgerStep(LimitsOf(profile), ToolTurns(effects[..n]), effects[n].calls);
      }
    }
  }

  /** What a chain hands out and how often it recovers is what the ledger says. */
  lemma {:induction false} ChainAsLedger(effects: seq<Effect>, profile: ProfileContract.AgentProfile)
    requires LawfulChain(effects, profile)
    ensures HandedOut(effects) == Executed(LimitsOf(profile), ToolTurns(effects))
    ensures Recoveries(effects) == Occurrences(LimitsOf(profile), ToolTurns(effects), RecoverableStuck)
  {
    if effects != [] {
      var n := |effects| - 1;
      ChainAsLedger(effects[..n], profile);
      ChainCounts(effects[..n], profile);
      if effects[n].calls != [] {
        LedgerStep(LimitsOf(profile), ToolTurns(effects[..n]), effects[n].calls);
      }
    }
  }

  /** From the first call to the last, however often the run is resumed: model turns, tool
      calls and stuck recoveries stay within the profile's budgets. */
  lemma ChainKeepsItsBudgets(chain: seq<Link>, profile: ProfileContract.AgentProfile)
    requires Linked(chain, profile)
    ensures CompletedTurns(Effects(chain)) <= profile.modelPolicy.maxTurns
    ensures |HandedOut(Effects(chain))| <= profile.modelPolicy.maxToolCalls
    ensures Recoveries(Effects(chain)) <= profile.modelPolicy.maxStuckRecoveries
  {
    LinkedChainIsLawful(chain, profile);
    ChainCounts(Effects(chain), profile);
    ChainAsLedger(Effects(chain), profile);
    BudgetsHold(LimitsOf(profile), ToolTurns(Effects(chain)));
  }

  ghost predicate OneCallPerTurn(effects: seq<Effect>) {
    forall i :: 0 <= i < |effects| ==> |effects[i].calls| <= 1
  }

  lemma {:induction false} ToolTurnsAreSingle(effects: seq<Effect>)
    requires OneCallPerTurn(effects)
    ensures AtMost(ToolTurns(effects), 1)
  {
    if effects != [] {
      ToolTurnsAreSingle(effects[..|effects| - 1]);
    }
  }

  /** With one tool call per turn no call is handed out three times in a row. */
  lemma NoCallThreeTimesInARow(chain: seq<Link>, profile: ProfileContract.AgentProfile)
    requires Linked(chain, profile) && OneCallPerTurn(Effects(chain))
    ensures NoTriple(HandedOut(Effects(chain)))
  {
    LinkedChainIsLawful(chain, profile);
    ChainAsLedger(Effects(chain), profile);
    ToolTurnsAreSingle(Effects(chain));
    SingleCallsStayInStep(LimitsOf(profile), ToolTurns(Effects(chain)));
  }
}
