/** The invariant of the whole master and its preservation by every event. */
module MasterRuns {
  import opened Types
  import opened Policy
  import opened MasterState
  import opened MasterInvariant
  import opened MasterFrame
  import opened Debounce
  import opened Persist
  import opened MasterWorld
  import Trace

  // ----- The invariant -----

  /** At most one runner is in flight, exactly while the phase is Running, and the local
      shutdown is still the one the runner was started for. */
  ghost predicate RunnerInv(s: State, runners: seq<Call>) {
    && |runners| <= 1
    && (IsRunning(s) <==> |runners| == 1)
    && (|runners| == 1 ==> s.local == Some(runners[0].local))
  }

  /** A pending decision to start: if its command is automatic and live, the local shutdown
      is still there; and if a local shutdown of that command is there, it is one that
      holds the grounds of the decision. */
  ghost predicate DecisionInv(s: State, issued: set<CommandId>, b: Begin) {
    && b.Begin? && b.trigger != NoTrigger
    && (b.commandId != "" ==> b.commandId in issued)
    && (LiveAutomatic(s, b.commandId) ==> Follows(s, b.commandId))
    && (Follows(s, b.commandId) ==> Grounded(s.local.value, b.trigger))
  }

  /** Ack handlers only decide for commands, and only that every node has finished. */
  ghost predicate BeginsInv(s: State, issued: set<CommandId>, begins: multiset<Begin>) {
    forall b :: b in begins ==> DecisionInv(s, issued, b) && b.commandId != "" && b.trigger == RemoteComplete
  }

  ghost predicate WatcherInv(s: State, issued: set<CommandId>, runners: seq<Call>, watcher: Watcher) {
    && (watcher.Deciding? ==> DecisionInv(s, issued, watcher.begin))
    && (watcher.Waiting? <==> |runners| == 1 && runners[0].byWatcher)
  }

  ghost predicate DueInv(s: State, due: seq<string>) {
    && s.episode.Some?
    && NoDuplicates(due)
    && forall name :: name in due ==> name !in s.episode.value.fired
  }

  /** Some unreachable policy has seen the UPS silent for its whole threshold. */
  ghost predicate SilenceVouches(cfg: Config, s: State, at: Time) {
    && SilentFor(s, at).Some?
    && exists i :: 0 <= i < |cfg.policies| && 0 < cfg.policies[i].unreachableFor <= SilentFor(s, at).value
  }

  ghost predicate PollInv(cfg: Config, s: State, poll: Poll) {
    match poll
    case Idle => true
    case Got(_, _) => s.ups.lastErrorAt.None?
    case Adjusted(reading, _) => s.ups.lastErrorAt.None? && (reading.onBattery <==> s.episode.Some?)
    case ToEvaluate(maybe, _) => maybe.Some? ==> maybe.value.onBattery && s.episode.Some? && s.upsConfirmed
    case ToVouch(due, at) => DueInv(s, due) && SilenceVouches(cfg, s, at)
    case ToApply(due, _) => DueInv(s, due) && s.upsConfirmed
  }

  /** An automatic local shutdown without an episode outlived one that a reading ended,
      and that reading confirms the UPS before anything else is polled. */
  ghost predicate OutlivedInv(s: State, poll: Poll) {
    s.episode.None? && AutoLocal(s) ==> s.upsConfirmed || (poll.Adjusted? && !poll.reading.onBattery)
  }

  /** A process that restored an episode which powered the master off is unconfirmed
      until it reads the UPS or has a local shutdown fail. */
  ghost predicate ProcessInv(s: State, poll: Poll, process: Process) {
    process.restoredPoweredOff && !process.sawReading && !process.runFailed ==>
      && s.episode.Some? && s.episode.value.masterPoweredOff && !s.upsConfirmed
      && (poll.Idle? || (poll.ToEvaluate? && poll.maybe.None?))
  }

  ghost predicate SnapshotInv(cfg: Config, snap: Snapshot) {
    && Inv(cfg, Load(cfg, snap, 0))
    && (snap.episode.Some? ==> snap.episode.value.matchSince == map[] && snap.episode.value.seen == [])
  }

  /** The file and every snapshot load into a state with the invariant; ids are never
      reused; and the snapshots, the file they started from and the current state form a
      chain along which commands only advance. */
  ghost predicate ChainInv(cfg: Config, s: State, store: Store<Snapshot>, issued: set<CommandId>) {
    && StoreInv(store)
    && "" !in issued
    && s.commands.Keys <= issued
    && (forall n :: 0 <= n <= |store.log| ==>
          && SnapshotInv(cfg, Content(store, n))
          && Content(store, n).commands.Keys <= issued
          && CommandsAdvance(Content(store, n).commands, s.commands))
    && (forall m, n :: 0 <= m < n <= |store.log| ==>
          CommandsAdvance(Content(store, m).commands, Content(store, n).commands))
  }

  ghost predicate WorldInv(cfg: Config, w: World) {
    && ValidConfig(cfg)
    && Inv(cfg, w.s)
    && RunnerInv(w.s, w.runners)
    && BeginsInv(w.s, w.issued, w.begins)
    && WatcherInv(w.s, w.issued, w.runners, w.watcher)
    && PollInv(cfg, w.s, w.poll)
    && (w.s.episode.Some? ==> DebounceInv(cfg, w.s.episode.value))
    && OutlivedInv(w.s, w.poll)
    && ProcessInv(w.s, w.poll, w.process)
    && ChainInv(cfg, w.s, w.store, w.issued)
  }

  // ----- Every section is sound -----

  predicate InMemory(e: Event) { !e.Restart? && !e.DiskWrite? }

  lemma ViewIsIrrelevant(cfg: Config, s: State, t: State)
    requires Inv(cfg, s)
    requires t == s.(ups := t.ups, upsConfirmed := t.upsConfirmed)
    ensures Sound(cfg, s, Quiet(t))
  {
  }

  lemma PollSectionSound(cfg: Config, w: World, e: Event)
    requires Inv(cfg, w.s) && PollInv(cfg, w.s, w.poll) && w.s.commands.Keys <= w.issued && Enabled(w, e)
    requires e.PollOk? || e.PollFail? || e.PollEpisode? || e.PollConfirm? || e.PollPolicies? || e.PollVouch?
             || e.PollApply?
    ensures Sound(cfg, w.s, Section(cfg, w, e))
  {
    match e
    case PollOk(reading, at) => ViewIsIrrelevant(cfg, w.s, RecordSuccess(w.s, reading, at));
    case PollFail(at) => ViewIsIrrelevant(cfg, w.s, RecordError(w.s, at));
    case PollEpisode => StartEpisodeSound(cfg, w.s, w.poll.at); EndEpisodeSound(cfg, w.s);
    case PollConfirm => ViewIsIrrelevant(cfg, w.s, Confirm(w.s));
    case PollPolicies =>
      EvaluatePoliciesSound(cfg, w.s, w.poll.maybe, w.poll.at);
      QuietIsSound(cfg, w.s);
      QuietIsSound(cfg, EvaluatePolicies(cfg, w.s, w.poll.maybe, w.poll.at).state);
    case PollVouch => ViewIsIrrelevant(cfg, w.s, Confirm(w.s));
    case PollApply(clients, id) => ApplyPolicyMatchSound(cfg, w.s, w.poll.due, clients, w.poll.at, id);
  }

  lemma RunnerSectionSound(cfg: Config, w: World, e: Event)
    requires Inv(cfg, w.s) && RunnerInv(w.s, w.runners) && Enabled(w, e)
    requires BeginsInv(w.s, w.issued, w.begins) && WatcherInv(w.s, w.issued, w.runners, w.watcher)
    requires e.BeginRun? || e.FinishRun?
    ensures Sound(cfg, w.s, Section(cfg, w, e))
  {
    QuietIsSound(cfg, w.s);
    match e
    case BeginRun(begin, _, at) =>
      if begin.Begin? {
        BeginLocalSound(cfg, w.s, begin.commandId, begin.trigger, at);
      }
    case FinishRun(index, failed) => FinishLocalSound(cfg, w.s, w.runners[index].local.commandId, failed);
  }

  lemma WatcherSectionSound(cfg: Config, w: World, e: Event)
    requires Inv(cfg, w.s) && Enabled(w, e) && (e.WatchTimeouts? || e.WatchRetry? || e.WatchLocal?)
    ensures Sound(cfg, w.s, Section(cfg, w, e))
  {
    match e
    case WatchTimeouts(now, dropped) => MarkTimedOutSound(cfg, w.s, now, dropped);
    case WatchRetry(now, clients) => RetrySound(cfg, w.s, clients, now);
    case WatchLocal(now, maybe) => EvaluateLocalSound(cfg, w.s, maybe, now);
  }

  lemma RequestSectionSound(cfg: Config, w: World, e: Event)
    requires Inv(cfg, w.s) && w.s.commands.Keys <= w.issued && Enabled(w, e)
    requires e.AckArrives? || e.Reconnect? || e.Manual? || e.Reset?
    ensures Sound(cfg, w.s, Section(cfg, w, e))
  {
    QuietIsSound(cfg, w.s);
    match e
    case AckArrives(id, node, ack, now) => RecordUpdateSound(cfg, w.s, id, node, ack, now);
    case Reconnect(node, tags, now) => ReplaySound(cfg, w.s, node, tags, now);
    case Manual(request, clients, now, id) => TriggerSound(cfg, w.s, request, clients, now, id);
    case Reset => ResetSound(cfg, w.s);
  }

  lemma SectionSound(cfg: Config, w: World, e: Event)
    requires WorldInv(cfg, w) && Enabled(w, e)
    ensures Sound(cfg, w.s, Section(cfg, w, e))
  {
    QuietIsSound(cfg, w.s);
    match e
    case WatchTimeouts(_, _) => WatcherSectionSound(cfg, w, e);
    case WatchRetry(_, _) => WatcherSectionSound(cfg, w, e);
    case WatchLocal(_, _) => WatcherSectionSound(cfg, w, e);
    case BeginRun(_, _, _) => RunnerSectionSound(cfg, w, e);
    case FinishRun(_, _) => RunnerSectionSound(cfg, w, e);
    case AckArrives(_, _, _, _) => RequestSectionSound(cfg, w, e);
    case Reconnect(_, _, _) => RequestSectionSound(cfg, w, e);
    case Manual(_, _, _, _) => RequestSectionSound(cfg, w, e);
    case Reset => RequestSectionSound(cfg, w, e);
    case DirectoryChange =>
    case DiskWrite(_, _) =>
    case Restart(_, _) =>
    case _ => PollSectionSound(cfg, w, e);
  }

  // ----- Every section keeps to its part of the state -----

  predicate IsPoll(e: Event) {
    e.PollOk? || e.PollFail? || e.PollEpisode? || e.PollConfirm? || e.PollPolicies? || e.PollVouch? || e.PollApply?
  }

  function NewId(e: Event): CommandId {
    match e
    case PollApply(_, id) => id
    case Manual(_, _, _, id) => id
    case _ => ""
  }

  /** What the sections of the polling goroutine do to the state, by event. */
  ghost predicate PollFrame(cfg: Config, w: World, e: Event, t: State) {
    match e
    case PollOk(reading, at) => t == RecordSuccess(w.s, reading, at)
    case PollFail(at) => t == RecordError(w.s, at)
    case PollEpisode =>
      w.poll.Got? &&
      if w.poll.reading.onBattery then t == StartEpisode(w.s, w.poll.at).state
      else
        && t.episode.None? && RunningKept(w.s, t) && t.commands.Keys == w.s.commands.Keys
        && t.ups == w.s.ups && t.startedAt == w.s.startedAt && t.upsConfirmed == w.s.upsConfirmed
        && (t.local.Some? ==> t.local == w.s.local)
        && (w.s.episode.None? && AutoLocal(t) ==> AutoLocal(w.s))
    case PollConfirm => t == Confirm(w.s)
    case PollPolicies =>
      && w.poll.ToEvaluate?
      && t == EvaluatePolicies(cfg, w.s, w.poll.maybe, w.poll.at).state
    case PollVouch => t == Confirm(w.s)
    case PollApply(_, id) => Applied(w.s, t, id)
    case _ => true
  }

  ghost predicate SectionFrame(cfg: Config, w: World, e: Event, t: State) {
    if IsPoll(e) then PollFrame(cfg, w, e, t)
    else if e.BeginRun? then
      if Starts(w, e) then t == BeginLocal(w.s, e.begin.commandId, e.begin.trigger, e.at) else t == w.s
    else if e.FinishRun? then
      e.index < |w.runners| && t == FinishLocal(w.s, w.runners[e.index].local.commandId, e.failed).state
    else
      && Frame(w.s, t, NewId(e))
      && (t.upsConfirmed ==> w.s.upsConfirmed || (e.WatchLocal? && WatcherMayConfirm(cfg, w.s, e.now)))
  }

  lemma PollKeepsToPart(cfg: Config, w: World, e: Event)
    requires Enabled(w, e) && IsPoll(e) && w.s.commands.Keys <= w.issued
    ensures PollFrame(cfg, w, e, Section(cfg, w, e).state)
  {
    match e
    case PollEpisode => EndFrame(w.s);
    case PollApply(clients, id) => ApplyFrame(cfg, w.s, w.poll.due, clients, w.poll.at, id);
    case _ =>
  }

  lemma SectionKeepsToPart(cfg: Config, w: World, e: Event)
    requires Enabled(w, e) && w.s.commands.Keys <= w.issued
    ensures SectionFrame(cfg, w, e, Section(cfg, w, e).state)
  {
    match e
    case WatchTimeouts(now, dropped) => TimeoutsFrame(w.s, now, dropped);
    case WatchRetry(now, clients) => RetryFrame(cfg, w.s, clients, now);
    case WatchLocal(now, maybe) => LocalFrame(cfg, w.s, maybe, now);
    case BeginRun(_, _, _) =>
    case FinishRun(_, _) =>
    case AckArrives(id, node, ack, now) => AckFrame(w.s, id, node, ack, now);
    case Reconnect(node, tags, now) => ReplayFrame(cfg, w.s, node, tags, now);
    case Manual(request, clients, now, id) =>
    case Reset => ResetFrame(w.s);
    case DirectoryChange =>
    case DiskWrite(_, _) =>
    case Restart(_, _) =>
    case _ => PollKeepsToPart(cfg, w, e);
  }

  /** Only the watcher arms a local shutdown without a command, and the local shutdown of a
      live automatic command stays in place. */
  ghost predicate ArmsRightly(s: State, e: Event, t: State) {
    && (e.WatchLocal? || (Follows(t, "") ==> Follows(s, "")))
    && FollowerKept(s, t)
  }

  lemma PollArms(cfg: Config, w: World, e: Event)
    requires Inv(cfg, w.s) && w.s.commands.Keys <= w.issued && Enabled(w, e) && IsPoll(e)
    ensures ArmsRightly(w.s, e, Section(cfg, w, e).state)
  {
    match e
    case PollEpisode =>
      LinePowerKeepsFollower(cfg, w.s);
      OthersArmForCommand(cfg, w.s, "", {}, map[], Request({}, {}, None, None), 0, "");
    case PollApply(clients, id) =>
      ApplyArmsForCommand(cfg, w.s, w.poll.due, clients, w.poll.at, id);
      ApplyKeepsFollower(cfg, w.s, w.poll.due, clients, w.poll.at, id);
    case _ =>
  }

  lemma TimeoutsArm(s: State, now: Time, dropped: set<CommandId>)
    ensures MarkTimedOutCommands(s, now, dropped).state.local == s.local
  {
  }

  lemma RunnerArms(cfg: Config, w: World, e: Event)
    requires e.BeginRun? || e.FinishRun?
    ensures ArmsRightly(w.s, e, Section(cfg, w, e).state)
  {
  }

  lemma WatcherArms(cfg: Config, w: World, e: Event)
    requires Inv(cfg, w.s) && Enabled(w, e) && (e.WatchTimeouts? || e.WatchRetry? || e.WatchLocal?)
    ensures ArmsRightly(w.s, e, Section(cfg, w, e).state)
  {
    match e
    case WatchTimeouts(now, dropped) => TimeoutsArm(w.s, now, dropped);
    case WatchRetry(now, clients) =>
      OthersArmForCommand(cfg, w.s, "", {}, clients, Request({}, {}, None, None), now, "");
    case WatchLocal(now, maybe) => WatcherKeepsFollower(cfg, w.s, maybe, now);
  }

  lemma SectionArms(cfg: Config, w: World, e: Event)
    requires Inv(cfg, w.s) && w.s.commands.Keys <= w.issued && Enabled(w, e) && InMemory(e)
    ensures ArmsRightly(w.s, e, Section(cfg, w, e).state)
  {
    var r := Request({}, {}, None, None);
    match e
    case WatchTimeouts(_, _) => WatcherArms(cfg, w, e);
    case WatchRetry(_, _) => WatcherArms(cfg, w, e);
    case WatchLocal(_, _) => WatcherArms(cfg, w, e);
    case BeginRun(_, _, _) => RunnerArms(cfg, w, e);
    case FinishRun(_, _) => RunnerArms(cfg, w, e);
    case AckArrives(id, node, ack, now) => AckKeepsFollower(w.s, id, node, ack, now);
    case Reconnect(node, tags, now) => OthersArmForCommand(cfg, w.s, node, tags, map[], r, now, "");
    case Manual(request, clients, now, id) =>
      OthersArmForCommand(cfg, w.s, "", {}, clients, request, now, id);
      TriggerKeepsFollower(cfg, w.s, request, clients, now, id);
    case Reset =>
      OthersArmForCommand(cfg, w.s, "", {}, map[], r, 0, "");
      LinePowerKeepsFollower(cfg, w.s);
    case DirectoryChange =>
    case _ => PollArms(cfg, w, e);
  }

  /** All that the preservation proofs use about a section. */
  ghost predicate Good(cfg: Config, w: World, e: Event, o: Outcome) {
    && Enabled(w, e) && InMemory(e)
    && Sound(cfg, w.s, o)
    && SectionFrame(cfg, w, e, o.state)
    && ArmsRightly(w.s, e, o.state)
    && (o.begin.Begin? ==> e.WatchLocal? || (e.AckArrives? && o.begin.commandId != "" && o.begin.trigger == RemoteComplete))
  }

  /** Only the watcher and the ack handlers decide to start the local shutdown, the latter
      for their command. */
  lemma OnlyTwoDecide(cfg: Config, w: World, e: Event)
    requires "" !in w.s.commands && Section(cfg, w, e).begin.Begin?
    ensures e.WatchLocal? || (e.AckArrives? && e.id != "" && Section(cfg, w, e).begin == Begin(e.id, RemoteComplete))
  {
  }

  lemma SectionGood(cfg: Config, w: World, e: Event)
    requires WorldInv(cfg, w) && Enabled(w, e) && InMemory(e)
    ensures Good(cfg, w, e, Section(cfg, w, e))
  {
    SectionSound(cfg, w, e);
    SectionKeepsToPart(cfg, w, e);
    SectionArms(cfg, w, e);
    if Section(cfg, w, e).begin.Begin? {
      OnlyTwoDecide(cfg, w, e);
    }
  }

  /** A local shutdown in place after a section was there before or was just armed. */
  lemma SectionLocalOrigin(cfg: Config, w: World, e: Event, o: Outcome)
    requires Enabled(w, e) && InMemory(e) && SectionFrame(cfg, w, e, o.state)
    ensures LocalOrigin(w.s, o.state)
  {
  }

  // ----- The runner -----

  lemma RunnerKept(cfg: Config, w: World, e: Event, o: Outcome)
    requires RunnerInv(w.s, w.runners) && SectionFrame(cfg, w, e, o.state)
    ensures RunnerInv(o.state, RunnersNext(w, e, o))
  {
    if e.FinishRun? {
      RunnerReturns(cfg, w, e, o);
    } else if !e.BeginRun? {
      assert RunningKept(w.s, o.state);
    }
  }

  lemma RunnerReturns(cfg: Config, w: World, e: Event, o: Outcome)
    requires RunnerInv(w.s, w.runners) && SectionFrame(cfg, w, e, o.state) && e.FinishRun?
    ensures RunnerInv(o.state, RunnersNext(w, e, o))
  {
  }

  // ----- Decisions to start the local shutdown -----

  /** A local shutdown of the decision's command was there before: the section did not arm
      one that the decision was not taken for. */
  lemma DecisionCore(cfg: Config, s: State, issued: set<CommandId>, t: State, b: Begin)
    requires Inv(cfg, t) && CommandsAdvance(s.commands, t.commands) && LocalOrigin(s, t)
    requires forall id :: id in t.commands && id !in s.commands ==> id !in issued
    requires DecisionInv(s, issued, b) && FollowerKept(s, t)
    requires b.commandId == "" && Follows(t, "") ==> Follows(s, "")
    ensures Follows(t, b.commandId) ==> SameLocal(s.local, t.local)
    ensures forall more :: issued <= more ==> DecisionInv(t, more, b)
  {
    var id := b.commandId;
    assert LiveAutomatic(t, id) ==> LiveAutomatic(s, id) && Follows(s, id) && SameLocal(s.local, t.local);
    if Follows(t, id) && !SameLocal(s.local, t.local) {
      assert id != "" && id in t.commands && id in s.commands;
      assert LiveAutomatic(t, id);
    }
  }

  lemma DecisionKept(cfg: Config, w: World, e: Event, o: Outcome, b: Begin)
    requires WorldInv(cfg, w) && Good(cfg, w, e, o)
    requires DecisionInv(w.s, w.issued, b) && (b.commandId == "" ==> !e.WatchLocal?)
    ensures DecisionInv(o.state, IssuedNext(w, e), b)
    ensures Follows(o.state, b.commandId) ==> SameLocal(w.s.local, o.state.local)
  {
    IdsKept(cfg, w, e, o);
    SectionLocalOrigin(cfg, w, e, o);
    DecisionCore(cfg, w.s, w.issued, o.state, b);
    assert w.issued <= IssuedNext(w, e);
  }

  lemma NewDecision(cfg: Config, w: World, e: Event, o: Outcome)
    requires WorldInv(cfg, w) && Good(cfg, w, e, o) && o.begin.Begin?
    ensures DecisionInv(o.state, IssuedNext(w, e), o.begin)
  {
    IdsKept(cfg, w, e, o);
  }

  lemma BeginsKept(cfg: Config, w: World, e: Event, o: Outcome)
    requires WorldInv(cfg, w) && Good(cfg, w, e, o)
    ensures BeginsInv(o.state, IssuedNext(w, e), BeginsNext(w, e, o))
  {
    forall b | b in BeginsNext(w, e, o)
      ensures DecisionInv(o.state, IssuedNext(w, e), b) && b.commandId != "" && b.trigger == RemoteComplete
    {
      if b in w.begins {
        DecisionKept(cfg, w, e, o, b);
      } else {
        NewDecision(cfg, w, e, o);
      }
    }
  }

  lemma WatcherCalls(cfg: Config, w: World, e: Event, o: Outcome)
    requires RunnerInv(w.s, w.runners) && WatcherInv(w.s, w.issued, w.runners, w.watcher)
    requires Enabled(w, e) && SectionFrame(cfg, w, e, o.state)
    ensures var next := RunnersNext(w, e, o);
            WatcherNext(w, e, o).Waiting? <==> |next| == 1 && next[0].byWatcher
  {
  }

  lemma WatcherKept(cfg: Config, w: World, e: Event, o: Outcome)
    requires WorldInv(cfg, w) && Good(cfg, w, e, o)
    ensures WatcherInv(o.state, IssuedNext(w, e), RunnersNext(w, e, o), WatcherNext(w, e, o))
  {
    WatcherCalls(cfg, w, e, o);
    if WatcherNext(w, e, o).Deciding? {
      if e.WatchLocal? {
        NewDecision(cfg, w, e, o);
      } else {
        DecisionKept(cfg, w, e, o, w.watcher.begin);
      }
    }
  }

  // ----- The polling goroutine -----

  /** What a poll's evaluation hands over to the next lock. */
  lemma EvaluationHandsOver(cfg: Config, w: World)
    requires ValidConfig(cfg) && PollInv(cfg, w.s, w.poll) && w.poll.ToEvaluate?
    requires w.s.episode.Some? ==> DebounceInv(cfg, w.s.episode.value)
    ensures var v := EvaluatePolicies(cfg, w.s, w.poll.maybe, w.poll.at);
            && (v.due != [] || v.vouched ==> DueInv(v.state, v.due))
            && (v.vouched ==> SilenceVouches(cfg, v.state, w.poll.at) && !AwaitingReadingAfterPowerOff(w.s))
            && (v.due != [] && !v.vouched ==> v.state.upsConfirmed)
            && (v.state.episode.Some? ==> DebounceInv(cfg, v.state.episode.value))
  {
    if w.s.episode.Some? {
      var silent := SilentFor(w.s, w.poll.at);
      var silentFor := if w.poll.maybe.None? && silent.Some? then silent.value else 0;
      DueIsFresh(cfg.policies, |cfg.policies|, w.s.episode.value, w.poll.maybe, silentFor, w.poll.at);
    }
    if w.poll.maybe.Some? {
      if w.s.episode.Some? {
        TimersRefineHistory(cfg, w.s, w.poll.maybe.value, w.poll.at);
      }
    } else {
      DueOnFailedPoll(cfg, w.s, w.poll.at);
    }
  }

  lemma PollKept(cfg: Config, w: World, e: Event, o: Outcome)
    requires ValidConfig(cfg) && PollInv(cfg, w.s, w.poll)
    requires w.s.episode.Some? ==> DebounceInv(cfg, w.s.episode.value)
    requires Enabled(w, e) && InMemory(e) && SectionFrame(cfg, w, e, o.state)
    ensures PollInv(cfg, o.state, PollNext(cfg, w, e))
  {
    if e.PollPolicies? {
      EvaluationHandsOver(cfg, w);
    }
  }

  lemma DebounceKept(cfg: Config, w: World, e: Event, o: Outcome)
    requires ValidConfig(cfg) && PollInv(cfg, w.s, w.poll)
    requires w.s.episode.Some? ==> DebounceInv(cfg, w.s.episode.value)
    requires SectionFrame(cfg, w, e, o.state)
    ensures o.state.episode.Some? ==> DebounceInv(cfg, o.state.episode.value)
  {
    var t := o.state;
    if e.PollPolicies? {
      EvaluationHandsOver(cfg, w);
    } else if t.episode.Some? && w.s.episode.Some? {
      assert w.s.episode.value.fired <= t.episode.value.fired;
      forall i | 0 <= i < |cfg.policies| && cfg.policies[i].unreachableFor <= 0
                 && cfg.policies[i].name !in t.episode.value.fired
        ensures TimerOk(t.episode.value, cfg.policies[i])
      {
        assert TimerOk(w.s.episode.value, cfg.policies[i]);
      }
    }
  }

  // ----- Confirmation -----

  lemma OutlivedKept(cfg: Config, w: World, e: Event, o: Outcome)
    requires WorldInv(cfg, w) && Good(cfg, w, e, o)
    ensures OutlivedInv(o.state, PollNext(cfg, w, e))
  {
  }

  lemma ProcessKept(cfg: Config, w: World, e: Event, o: Outcome)
    requires WorldInv(cfg, w) && Good(cfg, w, e, o)
    ensures ProcessInv(o.state, PollNext(cfg, w, e), ProcessNext(w, e))
  {
    if e.PollPolicies? {
      EvaluationHandsOver(cfg, w);
    }
  }

  // ----- The chain of snapshots -----

  lemma IdsKept(cfg: Config, w: World, e: Event, o: Outcome)
    requires w.s.commands.Keys <= w.issued && "" !in w.issued
    requires Enabled(w, e) && InMemory(e) && SectionFrame(cfg, w, e, o.state) && "" !in o.state.commands
    ensures o.state.commands.Keys <= IssuedNext(w, e) && "" !in IssuedNext(w, e)
    ensures forall id :: id in o.state.commands && id !in w.s.commands ==> id !in w.issued
  {
  }

  lemma ChainAdvances(a: map<CommandId, Command>, s: map<CommandId, Command>, t: map<CommandId, Command>,
                      issued: set<CommandId>)
    requires CommandsAdvance(a, s) && CommandsAdvance(s, t)
    requires a.Keys <= issued
    requires forall id :: id in t && id !in s ==> id !in issued
    ensures CommandsAdvance(a, t)
  {
    forall id | id in a && id in t
      ensures Advances(a[id], t[id])
    {
    }
  }

  lemma ChainStep(cfg: Config, s: State, store: Store<Snapshot>, issued: set<CommandId>, t: State,
                  issued': set<CommandId>)
    requires ChainInv(cfg, s, store, issued) && CommandsAdvance(s.commands, t.commands)
    requires t.commands.Keys <= issued' && issued <= issued' && "" !in issued'
    requires forall id :: id in t.commands && id !in s.commands ==> id !in issued
    ensures ChainInv(cfg, t, store, issued')
  {
    forall n | 0 <= n <= |store.log|
      ensures CommandsAdvance(Content(store, n).commands, t.commands)
    {
      ChainAdvances(Content(store, n).commands, s.commands, t.commands, issued);
    }
  }

  lemma ChainTake(cfg: Config, s: State, store: Store<Snapshot>, issued: set<CommandId>)
    requires ChainInv(cfg, s, store, issued) && Inv(cfg, s)
    ensures ChainInv(cfg, s, Take(store, Capture(s)), issued)
  {
    assert CommandsAdvance(s.commands, s.commands);
    ChainLonger(cfg, s, store, issued, Capture(s));
  }

  lemma ChainLonger(cfg: Config, s: State, store: Store<Snapshot>, issued: set<CommandId>, snap: Snapshot)
    requires ChainInv(cfg, s, store, issued) && SnapshotInv(cfg, snap)
    requires snap.commands == s.commands && CommandsAdvance(s.commands, s.commands)
    ensures ChainInv(cfg, s, Take(store, snap), issued)
  {
    forall n | 0 <= n <= |store.log|
      ensures Content(Take(store, snap), n) == Content(store, n)
    {
      TakeKeepsContents(store, snap, n);
    }
    assert Content(Take(store, snap), |store.log| + 1) == snap;
  }

  lemma ChainKept(cfg: Config, w: World, e: Event, o: Outcome)
    requires WorldInv(cfg, w) && Good(cfg, w, e, o)
    ensures ChainInv(cfg, o.state, if o.saved then Take(w.store, Capture(o.state)) else w.store, IssuedNext(w, e))
  {
    IdsKept(cfg, w, e, o);
    ChainStep(cfg, w.s, w.store, w.issued, o.state, IssuedNext(w, e));
    ChainTake(cfg, o.state, w.store, IssuedNext(w, e));
  }

  // ----- Disk and restart -----

  lemma DiskWriteKept(cfg: Config, w: World, e: Event)
    requires WorldInv(cfg, w) && Enabled(w, e) && e.DiskWrite?
    ensures WorldInv(cfg, Next(cfg, w, e))
  {
    var st := Next(cfg, w, e).store;
    forall n | 0 <= n <= |st.log|
      ensures Content(st, n) == Content(w.store, n)
    {
    }
  }

  lemma BootSound(cfg: Config, disk: Snapshot, issued: set<CommandId>, at: Time)
    requires ValidConfig(cfg) && SnapshotInv(cfg, disk)
    requires disk.commands.Keys <= issued && "" !in issued
    ensures WorldInv(cfg, Boot(cfg, disk, issued, at))
  {
    var w := Boot(cfg, disk, issued, at);
    assert Inv(cfg, w.s);
    assert forall id :: id in disk.commands ==> Advances(disk.commands[id], disk.commands[id]);
    if w.s.episode.Some? {
      forall i | 0 <= i < |cfg.policies| ensures TimerOk(w.s.episode.value, cfg.policies[i]) { }
    }
  }

  lemma RestartKept(cfg: Config, w: World, e: Event)
    requires WorldInv(cfg, w) && e.Restart?
    ensures WorldInv(cfg, Next(cfg, w, e))
  {
    assert SnapshotInv(cfg, Content(w.store, w.store.writtenSeq));
    BootSound(cfg, if e.fileLost then EMPTY_SNAPSHOT else w.store.disk, w.issued, e.at);
  }

  lemma AdvanceKeeps(cfg: Config, w: World, e: Event, o: Outcome)
    requires WorldInv(cfg, w) && Good(cfg, w, e, o)
    ensures WorldInv(cfg, Advance(cfg, w, e, o))
  {
    RunnerKept(cfg, w, e, o);
    PollKept(cfg, w, e, o);
    DebounceKept(cfg, w, e, o);
    OutlivedKept(cfg, w, e, o);
    ProcessKept(cfg, w, e, o);
    ChainKept(cfg, w, e, o);
    BeginsKept(cfg, w, e, o);
    WatcherKept(cfg, w, e, o);
  }

  lemma NextIsAdvance(cfg: Config, w: World, e: Event)
    requires InMemory(e)
    ensures Next(cfg, w, e) == Advance(cfg, w, e, Section(cfg, w, e))
  {
  }

  /** Every event keeps the invariant of the whole master. */
  lemma StepKeeps(cfg: Config, w: World, e: Event)
    requires WorldInv(cfg, w) && Enabled(w, e)
    ensures WorldInv(cfg, Next(cfg, w, e))
  {
    if e.DiskWrite? {
      DiskWriteKept(cfg, w, e);
    } else if e.Restart? {
      RestartKept(cfg, w, e);
    } else {
      SectionGood(cfg, w, e);
      AdvanceKeeps(cfg, w, e, Section(cfg, w, e));
      NextIsAdvance(cfg, w, e);
    }
  }

  lemma {:induction false} RunKeeps(cfg: Config, w: World, events: seq<Event>)
    requires WorldInv(cfg, w) && RunOk(cfg, w, events)
    ensures WorldInv(cfg, RunFrom(cfg, w, events))
  {
    if events != [] {
      RunKeeps(cfg, w, events[..|events| - 1]);
      StepKeeps(cfg, RunFrom(cfg, w, events[..|events| - 1]), events[|events| - 1]);
    }
  }

  lemma RunExtends(cfg: Config, w: World, events: seq<Event>, e: Event)
    requires RunOk(cfg, w, events) && Enabled(RunFrom(cfg, w, events), e)
    ensures RunOk(cfg, w, events + [e])
    ensures RunFrom(cfg, w, events + [e]) == Next(cfg, RunFrom(cfg, w, events), e)
  {
    assert (events + [e])[..|events|] == events;
  }

  lemma {:induction false} RunIsTrace(cfg: Config, w: World, events: seq<Event>, step: (World, Event) -> World)
    requires forall v, e :: step(v, e) == Next(cfg, v, e)
    ensures RunFrom(cfg, w, events) == Trace.Last(step, w, events)
    ensures RunOk(cfg, w, events) <==> Trace.AllEnabled(Enabled, step, w, events)
  {
    if events != [] {
      RunIsTrace(cfg, w, events[..|events| - 1], step);
    }
  }

  /** Two runs in a row are a run. */
  lemma RunConcat(cfg: Config, w: World, a: seq<Event>, b: seq<Event>)
    requires RunOk(cfg, w, a) && RunOk(cfg, RunFrom(cfg, w, a), b)
    ensures RunOk(cfg, w, a + b)
    ensures RunFrom(cfg, w, a + b) == RunFrom(cfg, RunFrom(cfg, w, a), b)
  {
    var step := (v: World, e: Event) => Next(cfg, v, e);
    RunIsTrace(cfg, w, a, step);
    RunIsTrace(cfg, RunFrom(cfg, w, a), b, step);
    RunIsTrace(cfg, w, a + b, step);
    Trace.Concat(Enabled, step, w, a, b);
  }

  lemma TwoSteps(cfg: Config, w: World, e: Event, f: Event)
    requires Enabled(w, e) && Enabled(Next(cfg, w, e), f)
    ensures RunOk(cfg, w, [e, f]) && RunFrom(cfg, w, [e, f]) == Next(cfg, Next(cfg, w, e), f)
  {
    var step := (v: World, e: Event) => Next(cfg, v, e);
    RunIsTrace(cfg, w, [e, f], step);
    Trace.Two(Enabled, step, w, e, f);
  }

  lemma ReachableStep(cfg: Config, w: World, e: Event)
    requires Reachable(cfg, w) && Enabled(w, e)
    ensures Reachable(cfg, Next(cfg, w, e))
  {
    var at: Time, events: seq<Event> :|
      RunOk(cfg, First(cfg, at), events) && RunFrom(cfg, First(cfg, at), events) == w;
    RunExtends(cfg, First(cfg, at), events, e);
  }

  lemma FirstReachable(cfg: Config, at: Time)
    ensures Reachable(cfg, First(cfg, at))
  {
    var none: seq<Event> := [];
    assert RunOk(cfg, First(cfg, at), none) && RunFrom(cfg, First(cfg, at), none) == First(cfg, at);
  }

  /** The first start ever, with no state file, has the invariant. */
  lemma FirstSound(cfg: Config, at: Time)
    requires ValidConfig(cfg)
    ensures WorldInv(cfg, First(cfg, at))
  {
    BootSound(cfg, EMPTY_SNAPSHOT, FIRST_BOOT_IDS, at);
  }

  lemma ReachableInv(cfg: Config, w: World)
    requires ValidConfig(cfg) && Reachable(cfg, w)
    ensures WorldInv(cfg, w)
  {
    var at: Time, events: seq<Event> :|
      RunOk(cfg, First(cfg, at), events) && RunFrom(cfg, First(cfg, at), events) == w;
    FirstSound(cfg, at);
    RunKeeps(cfg, First(cfg, at), events);
  }
}
