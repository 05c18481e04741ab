/** What the calls of the browser runtime answer and leave behind, told from configuration, state and
    the adapter's answer. */
module BrowserCalls {
  import opened Prelude
  import opened BrowserJournal
  import opened BrowserRuntime
  import opened FileLeases
  import BrowserRuns

  // ---------------------------------------------------------------- opening and closing

  /** A ready session stays as it is; one in use or in transition is refused; any other is launched,
      and is ready without an origin or has failed, as the adapter says. */
  lemma OpenLaunches(config: Config, w: World, launch: Reply, now: I64)
    ensures
      var (after, r) := OpenOutcome(config, w, launch, now);
      var launches := w.state.status in {Closed, SessionFailed, NeedsReconciliation};
      && (w.state.status.Ready? ==> r == Ok(()) && after == w)
      && (w.state.status.UserControl? ==> r == Err(UserControlActive) && after == w)
      && (w.state.status in {Starting, Closing} ==> r == Err(TransitionActive) && after == w)
      && (launches ==>
            && r == launch && after.calls == w.calls + [Launched] && after.state.generation == w.state.generation
            && (launch.Ok? ==> after.state.status.Ready? && after.state.currentOrigin.None?)
            && (launch.Err? ==> after.state.status.SessionFailed? && after.state.currentOrigin == w.state.currentOrigin)
            && after.journal.actions == w.journal.actions
            && after.journal.sessions == w.journal.sessions[config.sessionId := SessionRow(after.state.status, now)])
  {
  }

  /** Closing forgets the origin and ends closed, or in need of reconciliation if the adapter failed. */
  lemma CloseForgets(config: Config, w: World, reply: Reply, now: I64)
    ensures
      var (after, r) := CloseOutcome(config, w, reply, now);
      && (w.state.status.Closed? ==> r == Ok(()) && after == w)
      && (!w.state.status.Closed? ==>
            && r == reply && after.calls == w.calls + [ClosedDown]
            && (after.state.status.Closed? <==> reply.Ok?)
            && (after.state.status.NeedsReconciliation? <==> reply.Err?)
            && after.state.currentOrigin.None? && after.state.generation == w.state.generation
            && after.journal.actions == w.journal.actions
            && after.journal.sessions == w.journal.sessions[config.sessionId := SessionRow(after.state.status, now)])
  {
  }

  // ---------------------------------------------------------------- executing a command

  /** The believed origin is one the configuration allows. */
  predicate OnAllowedOrigin(config: Config, state: RuntimeState) {
    state.currentOrigin.Some? && state.currentOrigin.value in config.allowedOrigins
  }

  /** A ready session may run the command. */
  ghost predicate MayRun(config: Config, state: RuntimeState, c: Command) {
    && (c.NavigateTo? ==> exists o :: o in config.allowedOrigins && c.origin == Some(o))
    && (!c.NavigateTo? ==> OnAllowedOrigin(config, state))
    && (c.TypeInto? ==>
          c.classification in {Public, ProjectPrivate} && |c.text| <= 16384
          && forall i :: 0 <= i < |c.text| ==> c.text[i] != '\0')
    && (c.UploadTo? ==>
          config.allowUploads && c.path.Some? && exists root :: root in config.uploadRoots && Under(c.path.value, root))
    && (c.DownloadFrom? ==> config.allowDownloads)
  }

  /** The answer is of the kind the command asks for, and small enough or in the right place. */
  predicate RightAnswer(config: Config, c: Command, a: Answer) {
    && (a.UnitAnswer? <==> c.NavigateTo? || c.ClickOn? || c.TypeInto? || c.WaitFor? || c.UploadTo?)
    && (a.SnapshotAnswer? <==> c.TakeSnapshot?) && (a.SnapshotAnswer? ==> a.nodes <= 500)
    && (a.TextAnswer? <==> c.ReadFrom?) && (a.TextAnswer? ==> |a.text| <= 1000000)
    && (a.InspectAnswer? <==> c.InspectAt?)
    && (a.ArtifactAnswer? <==> c.TakeScreenshot? || c.DownloadFrom?)
    && (c.TakeScreenshot? && a.ArtifactAnswer? ==>
          a.mimeType == "image/png" && Under(a.path, config.artifactDirectory))
    && (c.DownloadFrom? && a.ArtifactAnswer? ==> Under(a.path, config.downloadDirectory))
  }

  lemma MayRunIff(config: Config, state: RuntimeState, c: Command)
    ensures CommandRefusal(config, state.currentOrigin, c).None? <==> MayRun(config, state, c)
  {
    if c.UploadTo? && c.path.Some? {
      assert forall root :: root in config.uploadRoots ==> (root <= c.path.value <==> Under(c.path.value, root));
    }
  }

  lemma RightAnswerIff(config: Config, c: Command, a: Answer)
    requires c.NavigateTo? ==> c.origin.Some?
    ensures Objection(config, c, a).None? <==> RightAnswer(config, c, a)
  {
  }

  /** A command is carried out if and only if its action is new, the session is ready and alive and may
      run it, and the adapter answers, rightly; then its answer is returned. */
  lemma ExecuteSucceedsIff(config: Config, w: World, id: nat, c: Command, hash: nat, alive: bool,
      answer: Result<Answer, BrowserError>, now: I64)
    ensures
      var r := ExecuteOutcome(config, w, id, c, hash, alive, answer, now).1;
      && (r.Ok? <==>
            && !BrowserRuns.Known(w.journal, id) && w.state.status.Ready? && alive && MayRun(config, w.state, c)
            && answer.Ok? && RightAnswer(config, c, answer.value))
      && (r.Ok? ==> r == answer)
  {
    BrowserRuns.ExecuteEndsItsAction(config, w, id, c, hash, alive, answer, now);
    MayRunIff(config, w.state, c);
    if answer.Ok? && MayRun(config, w.state, c) {
      RightAnswerIff(config, c, answer.value);
    }
  }

  /** Why an execution fails: a known action, a refused command, the adapter's own error, or an answer
      that is not what the command asked for. */
  lemma ExecuteFailsBecause(config: Config, w: World, id: nat, c: Command, hash: nat, alive: bool,
      answer: Result<Answer, BrowserError>, now: I64)
    ensures
      var (after, r) := ExecuteOutcome(config, w, id, c, hash, alive, answer, now);
      var refusal := Refusal(config, w.state, alive, c);
      && (BrowserRuns.Known(w.journal, id) ==> r == Err(DuplicateAction) && after == w)
      && (!BrowserRuns.Known(w.journal, id) && refusal.Some? ==> r == Err(refusal.value))
      && (!BrowserRuns.Known(w.journal, id) && refusal.None? && answer.Err? ==> r == answer)
      && (!BrowserRuns.Known(w.journal, id) && refusal.None? && answer.Ok? && !RightAnswer(config, c, answer.value) ==>
            r == Err(ResultMismatch))
  {
    BrowserRuns.ExecuteEndsItsAction(config, w, id, c, hash, alive, answer, now);
    MayRunIff(config, w.state, c);
    if answer.Ok? && MayRun(config, w.state, c) {
      RightAnswerIff(config, c, answer.value);
    }
  }

  /** The adapter is given the command, in the state it then was, exactly if the checks pass. */
  lemma AdapterIsAsked(config: Config, w: World, id: nat, c: Command, hash: nat, alive: bool,
      answer: Result<Answer, BrowserError>, now: I64)
    ensures ExecuteOutcome(config, w, id, c, hash, alive, answer, now).0.calls ==
        if !BrowserRuns.Known(w.journal, id) && w.state.status.Ready? && alive && MayRun(config, w.state, c)
        then w.calls + [Executed(c, w.state.status, w.state.currentOrigin)] else w.calls
  {
    BrowserRuns.BeginBegins(w.journal, ActionFor(config, w.state, id, c, hash, now));
    MayRunIff(config, w.state, c);
  }

  /** Why a command that is not passed on is refused: the session first, then what is wrong with the
      command, then the origin it needs. */
  lemma RefusalNamesTheReason(config: Config, state: RuntimeState, alive: bool, c: Command)
    ensures
      var e, live := Refusal(config, state, alive, c), state.status.Ready? && alive;
      && (e.None? <==> live && MayRun(config, state, c))
      && (e == Some(SessionNotReady) <==> !live)
      && (e == Some(OriginInvalid) <==> live && c.NavigateTo? && c.origin.None?)
      && (e == Some(SecretInput) <==> live && c.TypeInto? && c.classification.UserSecret?)
      && (e == Some(TextInvalid) <==>
            live && c.TypeInto? && !c.classification.UserSecret? && (|c.text| > 16384 || '\0' in c.text))
      && (e == Some(UploadDisabled) <==> live && c.UploadTo? && !config.allowUploads)
      && (e == Some(UploadPath) <==> live && c.UploadTo? && config.allowUploads && c.path.None?)
      && (e == Some(DownloadDisabled) <==> live && c.DownloadFrom? && !config.allowDownloads)
      && (e == Some(OriginUnavailable) ==> live && !c.NavigateTo? && state.currentOrigin.None?)
      && (e == Some(OriginNotAllowed) ==>
            live && if c.NavigateTo? then c.origin.Some? && c.origin.value !in config.allowedOrigins
            else state.currentOrigin.Some? && state.currentOrigin.value !in config.allowedOrigins)
  {
    MayRunIff(config, state, c);
  }

  /** What an execution does to the state. An adapter failure asks for reconciliation. A command that is
      carried out moves the origin if it navigates, and the generation if it navigates, clicks or types,
      by one, or takes a snapshot, to the snapshot's. Nothing else changes it. */
  lemma ExecuteMovesState(config: Config, w: World, id: nat, c: Command, hash: nat, alive: bool,
      answer: Result<Answer, BrowserError>, now: I64)
    ensures
      var (after, r) := ExecuteOutcome(config, w, id, c, hash, alive, answer, now);
      var asked := after.calls != w.calls;
      && after.state.status == (if asked && answer.Err? then NeedsReconciliation else w.state.status)
      && after.state.currentOrigin == (if r.Ok? && c.NavigateTo? then c.origin else w.state.currentOrigin)
      && after.state.generation ==
         (if r.Ok? && (c.NavigateTo? || c.ClickOn? || c.TypeInto?) then Min(w.state.generation + 1, U64_MAX)
          else if r.Ok? && c.TakeSnapshot? then r.value.generation
          else w.state.generation)
  {
    BrowserRuns.ExecuteEndsItsAction(config, w, id, c, hash, alive, answer, now);
    AdapterIsAsked(config, w, id, c, hash, alive, answer, now);
    assert |w.calls + [Executed(c, w.state.status, w.state.currentOrigin)]| == |w.calls| + 1;
  }

  // ---------------------------------------------------------------- what the journal says about a command

  /** The kind of action, its target and its summary, command by command. */
  lemma KindOfCommand(c: Command)
    ensures
      var k := KindOf(c);
      && (k.Navigate? <==> c.NavigateTo?) && (k.Snapshot? <==> c.TakeSnapshot?) && (k.Click? <==> c.ClickOn?)
      && (k.Type? <==> c.TypeInto?) && (k.Read? <==> c.ReadFrom?) && (k.Inspect? <==> c.InspectAt?)
      && (k.Wait? <==> c.WaitFor?) && (k.Screenshot? <==> c.TakeScreenshot?) && (k.Upload? <==> c.UploadTo?)
      && (k.Download? <==> c.DownloadFrom?)
  {
  }

  /** The name the source derives from a kind of action. */
  function KindName(k: ActionKind): string {
    match k
    case Open => "Open"
    case Navigate => "Navigate"
    case Snapshot => "Snapshot"
    case Click => "Click"
    case Type => "Type"
    case Read => "Read"
    case Inspect => "Inspect"
    case Wait => "Wait"
    case Screenshot => "Screenshot"
    case Upload => "Upload"
    case Download => "Download"
    case Close => "Close"
    case Handoff => "Handoff"
    case Reclaim => "Reclaim"
  }

  function Lower(s: string): (r: string)
    ensures |r| == |s|
  {
    seq(|s|, i requires 0 <= i < |s| =>
      if 'A' <= s[i] <= 'Z' then (s[i] as int - 'A' as int + 'a' as int) as char else s[i])
  }

  /** The summary of a command is the name of its kind in lower case. */
  lemma SummaryIsTheKind(c: Command)
    ensures Summary(c) == Lower(KindName(KindOf(c)))
  {
  }

  /** A new command is on the journal as the last action of its session: its kind, origin, target and
      hash, begun now; ended now with its summary, or with the error returned. */
  lemma CommandIsJournaled(config: Config, w: World, id: nat, c: Command, hash: nat, alive: bool,
      answer: Result<Answer, BrowserError>, now: I64)
    requires Sound(w.journal) && !BrowserRuns.Known(w.journal, id)
    ensures
      var (after, r) := ExecuteOutcome(config, w, id, c, hash, alive, answer, now);
      var n := |w.journal.actions|;
      |after.journal.actions| == n + 1 && after.journal.actions[..n] == w.journal.actions &&
      var record := after.journal.actions[n].record;
      && record.id == id && record.sessionId == config.sessionId && record.action == KindOf(c)
      && record.origin == (if c.NavigateTo? then c.origin else w.state.currentOrigin)
      && record.target == (if c.NavigateTo? then c.redacted
           else if c.TakeSnapshot? || c.WaitFor? || c.TakeScreenshot? then None else Some(c.ref))
      && record.argumentsHash == hash && record.startedAt == now && record.completedAt == Some(now)
      && (r.Ok? ==> record.status.Completed? && record.summary == Some(Summary(c)) && record.error.None?)
      && (r.Err? ==> record.status.Failed? && record.summary.None? && record.error == Some(r.error))
  {
    BrowserRuns.ExecuteEndsItsAction(config, w, id, c, hash, alive, answer, now);
  }

  // ---------------------------------------------------------------- handing over and taking back

  /** A handoff takes place exactly if its action is new, the session ready and alive and the adapter
      willing; then the user has control, without an origin and one generation later. A session that
      was asked in vain needs reconciliation. */
  lemma HandoffGivesControl(config: Config, w: World, id: nat, hash: nat, alive: bool, reply: Reply, now: I64)
    ensures
      var (after, r) := HandoffOutcome(config, w, id, hash, alive, reply, now);
      var asked := !BrowserRuns.Known(w.journal, id) && w.state.status.Ready? && alive;
      && (r.Ok? <==> asked && reply.Ok?)
      && after.calls == (if asked then w.calls + [HandedOff] else w.calls)
      && (r.Ok? ==> after.state == RuntimeState(UserControl, None, Min(w.state.generation + 1, U64_MAX)))
      && (asked && reply.Err? ==> r == reply && after.state == w.state.(status := NeedsReconciliation))
      && (!asked ==> after.state == w.state)
      && (BrowserRuns.Known(w.journal, id) ==> r == Err(DuplicateAction) && after == w)
  {
    BrowserRuns.HandoffEndsItsAction(config, w, id, hash, alive, reply, now);
    BrowserRuns.BeginBegins(w.journal,
      NewRecord(id, config.sessionId, ActionKind.Handoff, w.state.currentOrigin, None, hash, now));
  }

  /** A reclaim takes place exactly if the user has control, its action is new, and the adapter closes
      and launches; then the session is ready, without an origin and one generation later. */
  lemma ReclaimTakesControl(config: Config, w: World, id: nat, hash: nat, close: Reply, launch: Reply, now: I64)
    ensures
      var (after, r) := ReclaimOutcome(config, w, id, hash, close, launch, now);
      var asked := w.state.status.UserControl? && !BrowserRuns.Known(w.journal, id);
      && (r.Ok? <==> asked && close.Ok? && launch.Ok?)
      && (!w.state.status.UserControl? ==> r == Err(NotInUserControl) && after == w)
      && (w.state.status.UserControl? && BrowserRuns.Known(w.journal, id) ==> r == Err(DuplicateAction) && after == w)
      && after.calls ==
         (if !asked then w.calls else if close.Ok? then w.calls + [ClosedDown, Launched] else w.calls + [ClosedDown])
      && (r.Ok? ==> after.state == RuntimeState(Ready, None, Min(w.state.generation + 1, U64_MAX)))
      && (asked && r.Err? ==>
            r == (if close.Err? then close else launch) && after.state == w.state.(status := NeedsReconciliation))
  {
    BrowserRuns.ReclaimEndsItsAction(config, w, id, hash, close, launch, now);
    BrowserRuns.BeginBegins(w.journal,
      NewRecord(id, config.sessionId, ActionKind.Reclaim, None, None, hash, now));
  }

  /** What the journal says about the last action of a handoff or a reclaim. */
  ghost predicate TransitionJournaled(config: Config, was: Journal, now: Journal, id: nat, kind: ActionKind,
      origin: Option<nat>, hash: nat, time: I64, r: Reply, summary: string)
  {
    var n := |was.actions|;
    |now.actions| == n + 1 && now.actions[..n] == was.actions &&
    var record := now.actions[n].record;
    && record.id == id && record.sessionId == config.sessionId && record.action == kind
    && record.origin == origin && record.target.None? && record.argumentsHash == hash
    && record.startedAt == time && record.completedAt == Some(time)
    && (r.Ok? ==> record.status.Completed? && record.summary == Some(summary) && record.error.None?)
    && (r.Err? ==> record.status.Failed? && record.summary.None? && record.error == Some(r.error))
  }

  lemma HandoffIsJournaled(config: Config, w: World, id: nat, hash: nat, alive: bool, reply: Reply, now: I64)
    requires !BrowserRuns.Known(w.journal, id)
    ensures
      var (after, r) := HandoffOutcome(config, w, id, hash, alive, reply, now);
      TransitionJournaled(config, w.journal, after.journal, id, ActionKind.Handoff, w.state.currentOrigin, hash, now,
        r, "visible-user-control")
  {
    BrowserRuns.HandoffEndsItsAction(config, w, id, hash, alive, reply, now);
  }

  lemma ReclaimIsJournaled(config: Config, w: World, id: nat, hash: nat, close: Reply, launch: Reply, now: I64)
    requires w.state.status.UserControl? && !BrowserRuns.Known(w.journal, id)
    ensures
      var (after, r) := ReclaimOutcome(config, w, id, hash, close, launch, now);
      TransitionJournaled(config, w.journal, after.journal, id, ActionKind.Reclaim, None, hash, now, r,
        "agent-control-restored")
  {
    BrowserRuns.ReclaimEndsItsAction(config, w, id, hash, close, launch, now);
  }
}
