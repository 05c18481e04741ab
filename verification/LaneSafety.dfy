/** The model handler at the cache gate: which streams can leave a lane warming without a leader. */
module LaneSafety {
  import opened Prelude
  import opened CacheAffinity
  import ModelTurns
  import ProfileContract

  /** A thread passes the gate, or a leading thread returns from its call of the handler. */
  datatype Act =
    | Enter(t: ThreadId, key: LaneKey, cancelled: bool, now: Instant)
    | Return(t: ThreadId, prepared: ModelTurns.Continuation, profile: ProfileContract.AgentProfile,
             around: ModelTurns.Surroundings, now: Instant)

  /** A leader gets past the gate, so it asks the model. */
  ghost predicate FromLeader(a: Act) {
    a.Return? ==> a.around.gate.Leader? && ModelTurns.TurnFrom(a.prepared, a.profile, a.around).asked.Some?
  }

  /** What the gate sees of an act: the report of the call, or a silent exit. */
  function EventOf(a: Act): Event {
    match a
    case Enter(t, key, cancelled, now) => Pass(t, key, cancelled, now)
    case Return(t, prepared, profile, around, now) =>
      match ModelTurns.TurnFrom(prepared, profile, around).report
      case ReportedReady => Ready(t, now)
      case ReportedFailed => Failure(t)
      case NoReport => Leave(t)
  }

  function Events(acts: seq<Act>): (history: seq<Event>)
    ensures |history| == |acts|
  {
    seq(|acts|, i requires 0 <= i < |acts| => EventOf(acts[i]))
  }

  /** A leading thread returns from a call that ended silently. */
  ghost predicate CutShort(acts: seq<Act>, i: nat)
    requires i < |acts|
  {
    && acts[i].Return? && PhaseOf(After(Events(acts)[..i]), acts[i].t).Leading?
    && ModelTurns.LeavesSilently(acts[i].around.reply)
  }

  lemma LeavesWhenCutShort(acts: seq<Act>, i: nat)
    requires i < |acts| && FromLeader(acts[i])
    ensures CutShort(acts, i) <==> Events(acts)[i].Leave? && Enabled(After(Events(acts)[..i]), Events(acts)[i])
  {
    if acts[i].Return? {
      ModelTurns.WhoLeavesTheLane(acts[i].prepared, acts[i].profile, acts[i].around);
    }
  }

  /** In every run of handlers at the gate, each warming lane has a live leader if and only if no
      leader's call ended silently: starting the stream unwound, or the stream was incomplete or
      unwound before it started. All other exits report to the gate. */
  lemma LanesAreLedIff(acts: seq<Act>)
    requires forall i :: 0 <= i < |acts| ==> FromLeader(acts[i])
    ensures EveryWarmingLaneIsLed(After(Events(acts))) <==> !exists i :: 0 <= i < |acts| && CutShort(acts, i)
  {
    LedUnlessSomeoneLeft(Events(acts));
    forall i: nat | i < |acts|
      ensures CutShort(acts, i) <==> Events(acts)[i].Leave? && Enabled(After(Events(acts)[..i]), Events(acts)[i])
    {
      LeavesWhenCutShort(acts, i);
    }
  }

  /** The first leader of a lane whose call ends silently. */
  function StrandingRun(key: LaneKey, prepared: ModelTurns.Continuation, profile: ProfileContract.AgentProfile,
      reply: ModelTurns.Reply): seq<Act>
  {
    [Enter(0, key, false, 0),
     Return(0, prepared, profile, ModelTurns.Surroundings(None, true, None, ModelTurns.Leader, reply), 0)]
  }

  lemma FirstPassLeads(key: LaneKey)
    ensures PhaseOf(After([Pass(0, key, false, 0)]), 0) == Leading(key)
  {
    var pass := Pass(0, key, false, 0);
    assert [pass][..0] == [];
    assert After([pass]) == Step(START, pass);
    assert Decide(START.lanes, key, false, 0) == Lead;
  }

  predicate EndsAtOnce(reply: ModelTurns.Reply) {
    || reply == ModelTurns.StartUnwinds
    || reply == ModelTurns.Stream([ModelTurns.Incomplete(None)])
    || reply == ModelTurns.Stream([ModelTurns.StreamUnwinds])
  }

  lemma EndingAtOnceIsSilent(reply: ModelTurns.Reply)
    requires EndsAtOnce(reply)
    ensures ModelTurns.LeavesSilently(reply)
  {
    if reply.Stream? {
      assert ModelTurns.Silent(reply.items[0]);
    }
  }

  /** Lanes do get stranded: one leader is enough, whether the model is incomplete at once or the
      stream unwinds. */
  lemma LaneIsStranded(key: LaneKey, prepared: ModelTurns.Continuation, profile: ProfileContract.AgentProfile,
      reply: ModelTurns.Reply)
    requires prepared.nextTurn < prepared.maxTurns && EndsAtOnce(reply)
    ensures
      var acts := StrandingRun(key, prepared, profile, reply);
      && FromLeader(acts[0]) && FromLeader(acts[1]) && CutShort(acts, 1)
      && !EveryWarmingLaneIsLed(After(Events(acts)))
  {
    var acts := StrandingRun(key, prepared, profile, reply);
    EndingAtOnceIsSilent(reply);
    FirstPassLeads(key);
    assert Events(acts)[..1] == [Pass(0, key, false, 0)];
    assert CutShort(acts, 1);
    LanesAreLedIff(acts);
  }
}
