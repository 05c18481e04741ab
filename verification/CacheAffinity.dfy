/** The prompt-cache gate: of the threads that share a cache key, one leads and warms the
    cache while the others wait. Threads are modelled by their locked steps, in any order. */
module CacheAffinity {
  import opened Prelude

  type LaneKey = nat
  type ThreadId = nat
  type Instant = int

  const MAX_LANES: nat := 128
  const WARM_MILLIS: int := 240_000

  datatype Lane = Lane(warming: bool, warmedUntil: Option<Instant>)

  type Lanes = map<LaneKey, Lane>

  predicate Warm(lane: Lane, now: Instant) {
    lane.warmedUntil.Some? && lane.warmedUntil.value > now
  }

  /** What one pass of the waiting loop decides: give up, wait for a change, proceed behind
      a warm lane, or proceed as the leader that warms it. */
  datatype Verdict = Cancelled | Wait | Follow | Lead

  function Decide(lanes: Lanes, key: LaneKey, cancelled: bool, now: Instant): Verdict {
    if cancelled then Cancelled
    else if key in lanes && lanes[key].warming then Wait
    else if key in lanes && Warm(lanes[key], now) then Follow
    else Lead
  }

  function Pruned(lanes: Lanes, now: Instant): Lanes {
    if |lanes| >= MAX_LANES
    then map k | k in lanes && (lanes[k].warming || Warm(lanes[k], now)) :: lanes[k]
    else lanes
  }

  function Entered(lanes: Lanes, key: LaneKey, cancelled: bool, now: Instant): Lanes {
    if Decide(lanes, key, cancelled, now) == Lead
    then Pruned(lanes, now)[key := Lane(true, None)]
    else lanes
  }

  function Readied(lanes: Lanes, key: LaneKey, now: Instant): Lanes {
    lanes[key := Lane(false, Some(now + WARM_MILLIS))]
  }

  function Dropped(lanes: Lanes, key: LaneKey): Lanes {
    lanes - {key}
  }

  // ---------------------------------------------------------------- the gate

  class PromptCacheAffinityGate {
    var lanes: Lanes

    constructor ()
      ensures lanes == map[]
    {
      lanes := map[];
    }

    /** One pass of `enter` under the lock; the caller repeats it after `Wait`. */
    method Enter(key: LaneKey, cancelled: bool, now: Instant) returns (v: Verdict)
      modifies this
      ensures v == Decide(old(lanes), key, cancelled, now)
      ensures lanes == Entered(old(lanes), key, cancelled, now)
    {
      if cancelled {
        return Cancelled;
      }
      if key in lanes && lanes[key].warming {
        return Wait;
      }
      if key in lanes && Warm(lanes[key], now) {
        return Follow;
      }
      if |lanes| >= MAX_LANES {
        lanes := map k | k in lanes && (lanes[k].warming || Warm(lanes[k], now)) :: lanes[k];
      }
      lanes := lanes[key := Lane(true, None)];
      return Lead;
    }

    method MarkReady(key: LaneKey, now: Instant)
      modifies this
      ensures lanes == Readied(old(lanes), key, now)
    {
      lanes := lanes[key := Lane(false, Some(now + WARM_MILLIS))];
    }

    method MarkFailed(key: LaneKey)
      modifies this
      ensures lanes == Dropped(old(lanes), key)
    {
      lanes := lanes - {key};
    }
  }

  /** Pruning drops neither a lane that is warming nor one that is still warm. */
  lemma PruneKeepsLive(lanes: Lanes, now: Instant, k: LaneKey)
    requires k in lanes && (lanes[k].warming || Warm(lanes[k], now))
    ensures k in Pruned(lanes, now) && Pruned(lanes, now)[k] == lanes[k]
  {
  }

  /** What a pass decides, on the lane of its key: a cancelled one gives up before it looks, a warming
      lane is waited for, a warm one followed, and any other led. */
  lemma PassDecides(lanes: Lanes, key: LaneKey, cancelled: bool, now: Instant)
    ensures
      var v := Decide(lanes, key, cancelled, now);
      var warm := key in lanes && lanes[key].warmedUntil.Some? && now < lanes[key].warmedUntil.value;
      && (v.Cancelled? <==> cancelled)
      && (v.Wait? <==> !cancelled && key in lanes && lanes[key].warming)
      && (v.Follow? <==> !cancelled && warm && !lanes[key].warming)
      && (v.Lead? <==> !cancelled && !warm && (key in lanes ==> !lanes[key].warming))
  {
  }

  /** What a pass leaves: only leading changes lanes. The leader's lane is warming; of the others, up
      to 127 all stay, and from 128 on exactly those that are warming or still warm. */
  lemma PassLeaves(lanes: Lanes, key: LaneKey, cancelled: bool, now: Instant)
    ensures
      var after := Entered(lanes, key, cancelled, now);
      if !Decide(lanes, key, cancelled, now).Lead? then after == lanes
      else
        && key in after && after[key].warming && after[key].warmedUntil.None?
        && (forall k :: k in after && k != key ==> k in lanes && after[k] == lanes[k])
        && (forall k :: k in lanes && k != key ==>
              (k in after <==>
                 || |lanes| < 128 || lanes[k].warming
                 || (lanes[k].warmedUntil.Some? && now < lanes[k].warmedUntil.value)))
  {
  }

  /** A ready report warms the lane for four minutes, a failure drops it; no other lane changes. */
  lemma ReportsLeave(lanes: Lanes, key: LaneKey, now: Instant, k: LaneKey)
    ensures
      var ready, failed := Readied(lanes, key, now), Dropped(lanes, key);
      && (k in ready <==> k == key || k in lanes) && (k in failed <==> k != key && k in lanes)
      && ready[key] == Lane(false, Some(now + 4 * 60 * 1000))
      && (k != key && k in lanes ==> ready[k] == lanes[k] && failed[k] == lanes[k])
  {
  }

  // ---------------------------------------------------------------- threads at the gate

  /** A thread is outside the gate, or leads a lane and has not reported on it yet. */
  datatype Phase = Outside | Leading(key: LaneKey)

  /** `abandoned` remembers the lanes whose leader left without a report. */
  datatype System = System(lanes: Lanes, phases: map<ThreadId, Phase>, abandoned: set<LaneKey>)

  function PhaseOf(s: System, t: ThreadId): Phase {
    if t in s.phases then s.phases[t] else Outside
  }

  datatype Event =
    | Pass(t: ThreadId, key: LaneKey, cancelled: bool, now: Instant)
    | Ready(t: ThreadId, now: Instant)
    | Failure(t: ThreadId)
    | Leave(t: ThreadId)

  /** Only a thread outside may pass the gate, and only a leader reports or leaves. */
  predicate Enabled(s: System, e: Event) {
    if e.Pass? then PhaseOf(s, e.t).Outside? else PhaseOf(s, e.t).Leading?
  }

  function Next(s: System, e: Event): System
    requires Enabled(s, e)
  {
    match e
    case Pass(t, key, cancelled, now) =>
      var lanes := Entered(s.lanes, key, cancelled, now);
      if Decide(s.lanes, key, cancelled, now) == Lead
      then s.(lanes := lanes, phases := s.phases[t := Leading(key)])
      else s.(lanes := lanes)
    case Ready(t, now) =>
      System(Readied(s.lanes, PhaseOf(s, t).key, now), s.phases[t := Outside], s.abandoned)
    case Failure(t) =>
      System(Dropped(s.lanes, PhaseOf(s, t).key), s.phases[t := Outside], s.abandoned)
    case Leave(t) =>
      System(s.lanes, s.phases[t := Outside], s.abandoned + {PhaseOf(s, t).key})
  }

  ghost predicate Leads(s: System, t: ThreadId, k: LaneKey) {
    PhaseOf(s, t) == Leading(k)
  }

  /** Leaders and warming lanes correspond one to one, abandoned lanes aside. */
  ghost predicate Coordinated(s: System) {
    && (forall t, k :: Leads(s, t, k) ==> k in s.lanes && s.lanes[k].warming && k !in s.abandoned)
    && (forall t, u, k :: Leads(s, t, k) && Leads(s, u, k) ==> t == u)
    && (forall k :: k in s.lanes && s.lanes[k].warming && k !in s.abandoned ==> exists t :: Leads(s, t, k))
    && (forall k :: k in s.abandoned ==> k in s.lanes && s.lanes[k].warming)
  }

  const START := System(map[], map[], {})

  /** Disabled events change nothing, so every list of events is a history. */
  function Step(s: System, e: Event): System {
    if Enabled(s, e) then Next(s, e) else s
  }

  function After(history: seq<Event>): System {
    if history == [] then START else Step(After(history[..|history| - 1]), history[|history| - 1])
  }

  lemma StepKeepsCoordination(s: System, e: Event)
    requires Coordinated(s)
    ensures Coordinated(Step(s, e))
  {
    if Enabled(s, e) {
      var s' := Step(s, e);
      forall t, k | Leads(s', t, k)
        ensures k in s'.lanes && s'.lanes[k].warming && k !in s'.abandoned
      {
        assert t != e.t ==> Leads(s, t, k);
        assert !e.Pass? ==> Leads(s, e.t, PhaseOf(s, e.t).key);
      }
      forall t, u, k | Leads(s', t, k) && Leads(s', u, k)
        ensures t == u
      {
        assert t != e.t ==> Leads(s, t, k);
        assert u != e.t ==> Leads(s, u, k);
      }
      forall k | k in s'.lanes && s'.lanes[k].warming && k !in s'.abandoned
        ensures exists t :: Leads(s', t, k)
      {
        LaneHasLeader(s, e, k);
      }
      assert !e.Pass? ==> Leads(s, e.t, PhaseOf(s, e.t).key);
    }
  }

  lemma LaneHasLeader(s: System, e: Event, k: LaneKey)
    requires Coordinated(s) && Enabled(s, e)
    requires k in Next(s, e).lanes && Next(s, e).lanes[k].warming && k !in Next(s, e).abandoned
    ensures exists t :: Leads(Next(s, e), t, k)
  {
    if Leads(Next(s, e), e.t, k) {
    } else {
      assert k in s.lanes && s.lanes[k].warming && k !in s.abandoned;
      var t :| Leads(s, t, k);
      assert !e.Pass? ==> Leads(s, e.t, PhaseOf(s, e.t).key);
      assert t != e.t;
      assert Leads(Next(s, e), t, k);
    }
  }

  /** In every history each lane has at most one leader that has not reported, its lane is
      warming, and each warming lane has such a leader unless it was abandoned. */
  lemma {:induction false} AlwaysCoordinated(history: seq<Event>)
    ensures Coordinated(After(history))
  {
    if history != [] {
      AlwaysCoordinated(history[..|history| - 1]);
      StepKeepsCoordination(After(history[..|history| - 1]), history[|history| - 1]);
    }
  }

  // ---------------------------------------------------------------- abandoned lanes

  /** Some leader left without a report. */
  ghost predicate SomeoneLeft(history: seq<Event>) {
    exists i :: 0 <= i < |history| && history[i].Leave? && Enabled(After(history[..i]), history[i])
  }

  ghost predicate EveryWarmingLaneIsLed(s: System) {
    forall k :: k in s.lanes && s.lanes[k].warming ==> exists t :: Leads(s, t, k)
  }

  lemma {:induction false} AbandonedBy(history: seq<Event>)
    ensures After(history).abandoned != {} <==> SomeoneLeft(history)
  {
    if history != [] {
      var n := |history| - 1;
      var prefix := history[..n];
      AbandonedBy(prefix);
      assert forall i :: 0 <= i < n ==> prefix[i] == history[i] && prefix[..i] == history[..i];
      if Enabled(After(prefix), history[n]) && history[n].Leave? {
        assert PhaseOf(After(prefix), history[n].t).key in After(history).abandoned;
      } else {
        assert After(history).abandoned == After(prefix).abandoned;
      }
    }
  }

  /** The gate never strands a lane exactly when every leader reports before it leaves. */
  lemma LedUnlessSomeoneLeft(history: seq<Event>)
    ensures EveryWarmingLaneIsLed(After(history)) <==> !SomeoneLeft(history)
  {
    AlwaysCoordinated(history);
    AbandonedBy(history);
    var s := After(history);
    if s.abandoned != {} {
      var k :| k in s.abandoned;
      assert k in s.lanes && s.lanes[k].warming;
      assert !exists t :: Leads(s, t, k);
    }
  }

  /** A stranded lane stays stranded: every later pass on its key waits or is cancelled. */
  lemma {:induction false} StrandedForever(history: seq<Event>, later: seq<Event>, k: LaneKey, cancelled: bool,
      now: Instant)
    requires k in After(history).abandoned
    ensures k in After(history + later).abandoned
    ensures Decide(After(history + later).lanes, k, cancelled, now) in {Verdict.Cancelled, Wait}
  {
    AlwaysCoordinated(history + later);
    if later == [] {
      assert history + later == history;
    } else {
      var n := |later| - 1;
      StrandedForever(history, later[..n], k, cancelled, now);
      assert (history + later)[..|history| + n] == history + later[..n];
      assert (history + later)[|history| + n] == later[n];
    }
  }

  /** While no lane is stranded, a waiting thread waits for a leader that can act, and
      either report of that leader lets the waiting thread through. */
  lemma WaitersAreReleased(history: seq<Event>, key: LaneKey, now: Instant, later: Instant)
    requires !SomeoneLeft(history) && Decide(After(history).lanes, key, false, now) == Wait
    requires later < now + WARM_MILLIS
    ensures exists t ::
      && Leads(After(history), t, key)
      && Decide(Step(After(history), Ready(t, now)).lanes, key, false, later) == Follow
      && Decide(Step(After(history), Failure(t)).lanes, key, false, later) == Lead
  {
    LedUnlessSomeoneLeft(history);
    var s := After(history);
    var t :| Leads(s, t, key);
    assert Decide(Step(s, Ready(t, now)).lanes, key, false, later) == Follow;
  }

  // ---------------------------------------------------------------- warm lanes

  /** Some leader of the lane reported ready at `at`. */
  ghost predicate ReportedReady(history: seq<Event>, k: LaneKey, at: Instant) {
    exists i :: 0 <= i < |history| && history[i].Ready? && history[i].now == at
                && PhaseOf(After(history[..i]), history[i].t) == Leading(k)
  }

  lemma ReadyRemembered(history: seq<Event>, e: Event, k: LaneKey, at: Instant)
    requires ReportedReady(history, k, at)
    ensures ReportedReady(history + [e], k, at)
  {
    var i :| 0 <= i < |history| && history[i].Ready? && history[i].now == at
             && PhaseOf(After(history[..i]), history[i].t) == Leading(k);
    assert (history + [e])[i] == history[i] && (history + [e])[..i] == history[..i];
  }

  lemma {:induction false} WarmthIsReported(history: seq<Event>, k: LaneKey)
    requires k in After(history).lanes && !After(history).lanes[k].warming
    ensures After(history).lanes[k].warmedUntil.Some?
    ensures ReportedReady(history, k, After(history).lanes[k].warmedUntil.value - WARM_MILLIS)
  {
    var n := |history| - 1;
    var prefix, e := history[..n], history[n];
    var s := After(prefix);
    assert history == prefix + [e];
    if e.Ready? && Enabled(s, e) && PhaseOf(s, e.t).key == k {
      assert history[n] == e && history[..n] == prefix;
    } else {
      assert k in s.lanes && s.lanes[k] == After(history).lanes[k];
      WarmthIsReported(prefix, k);
      ReadyRemembered(prefix, e, k, s.lanes[k].warmedUntil.value - WARM_MILLIS);
    }
  }

  /** A follower proceeds only behind a leader that reported ready less than four minutes ago. */
  lemma FollowersFollowALeader(history: seq<Event>, key: LaneKey, now: Instant)
    requires Decide(After(history).lanes, key, false, now) == Follow
    ensures exists at :: ReportedReady(history, key, at) && now < at + WARM_MILLIS
  {
    WarmthIsReported(history, key);
    assert ReportedReady(history, key, After(history).lanes[key].warmedUntil.value - WARM_MILLIS);
  }

  /** A lane that is warm until `until` cannot be changed before: nobody leads it, and pruning keeps
      it. */
  lemma WarmLaneKept(s: System, e: Event, key: LaneKey, until: Instant)
    requires Coordinated(s) && key in s.lanes && s.lanes[key] == Lane(false, Some(until))
    requires e.Pass? ==> e.now < until
    ensures key in Step(s, e).lanes && Step(s, e).lanes[key] == s.lanes[key]
  {
    if Enabled(s, e) {
      if e.Pass? {
        PruneKeepsLive(s.lanes, e.now, key);
      } else {
        assert Leads(s, e.t, PhaseOf(s, e.t).key);
      }
    }
  }

  /** Once a leader has reported ready every pass on its key follows until four minutes are over,
      whatever the other threads do in between and however many lanes are pruned. */
  lemma {:induction false} WarmLaneIsFollowed(history: seq<Event>, later: seq<Event>, t: ThreadId, key: LaneKey,
      at: Instant, now: Instant)
    requires Leads(After(history), t, key) && now < at + WARM_MILLIS
    requires forall e :: e in later && e.Pass? ==> e.now < at + WARM_MILLIS
    ensures
      var lanes := After(history + [Ready(t, at)] + later).lanes;
      key in lanes && lanes[key] == Lane(false, Some(at + WARM_MILLIS)) && Decide(lanes, key, false, now) == Follow
  {
    var reported := history + [Ready(t, at)];
    if later == [] {
      assert reported + later == reported && reported[..|history|] == history;
    } else {
      var n := |later| - 1;
      WarmLaneIsFollowed(history, later[..n], t, key, at, now);
      assert (reported + later)[..|reported| + n] == reported + later[..n];
      AlwaysCoordinated(reported + later[..n]);
      WarmLaneKept(After(reported + later[..n]), later[n], key, at + WARM_MILLIS);
    }
  }
}
