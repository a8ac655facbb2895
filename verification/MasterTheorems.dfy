/** What the master guarantees in every reachable state and over every run: its commands,
    its local shutdown, and when it trusts what it knows of the UPS. */
module MasterTheorems {
  import opened Types
  import opened Policy
  import opened MasterState
  import opened MasterInvariant
  import opened MasterFrame
  import opened Debounce
  import opened Persist
  import opened MasterWorld
  import opened MasterRuns

  // ----- The active command -----

  /** The active id names an existing command that is not disabled; it is automatic
      exactly when it is the episode's; at most one automatic command is not disabled;
      and shutdownIssued says whether a command is active. */
  lemma ActiveCommandIsConsistent(cfg: Config, w: World)
    requires ValidConfig(cfg) && Reachable(cfg, w)
    ensures w.s.shutdownIssued <==> w.s.active != ""
    ensures w.s.active != "" ==>
              && w.s.active in w.s.commands
              && !w.s.commands[w.s.active].replayDisabled
              && (w.s.commands[w.s.active].auto <==>
                    w.s.episode.Some? && w.s.episode.value.commandId == w.s.active)
    ensures w.s.episode.Some? && w.s.episode.value.commandId != "" ==>
              w.s.active == w.s.episode.value.commandId
    ensures forall a, b :: LiveAutomatic(w.s, a) && LiveAutomatic(w.s, b) ==> a == b
  {
    ReachableInv(cfg, w);
  }

  // ----- The runner of the local shutdown -----

  lemma AtMostOneRunner(cfg: Config, w: World)
    requires ValidConfig(cfg) && Reachable(cfg, w)
    ensures |w.runners| <= 1
    ensures |w.runners| == 1 <==> w.s.local.Some? && w.s.local.value.phase == Running
    ensures |w.runners| == 1 ==> w.s.local == Some(w.runners[0].local)
  {
    ReachableInv(cfg, w);
  }

  /** While a runner is in flight, nothing but its own return or a crash touches the
      local shutdown it was started for, and no second runner starts. */
  lemma RunnerIsUndisturbed(cfg: Config, w: World, e: Event)
    requires ValidConfig(cfg) && Reachable(cfg, w) && Enabled(w, e)
    requires |w.runners| == 1 && !e.FinishRun? && !e.Restart?
    ensures Next(cfg, w, e).runners == w.runners
    ensures Next(cfg, w, e).s.local == w.s.local
  {
    ReachableInv(cfg, w);
    if InMemory(e) {
      SectionGood(cfg, w, e);
      UndisturbedStep(cfg, w, e, Section(cfg, w, e));
      NextIsAdvance(cfg, w, e);
    }
  }

  lemma UndisturbedStep(cfg: Config, w: World, e: Event, o: Outcome)
    requires RunnerInv(w.s, w.runners) && |w.runners| == 1
    requires SectionFrame(cfg, w, e, o.state) && InMemory(e) && !e.FinishRun?
    ensures RunnersNext(w, e, o) == w.runners && o.state.local == w.s.local
  {
  }

  /** A returning runner settles exactly the local shutdown it was started for. */
  lemma RunnerSettlesItsOwn(cfg: Config, w: World, e: Event)
    requires ValidConfig(cfg) && Reachable(cfg, w) && Enabled(w, e) && e.FinishRun?
    ensures |w.runners| == 1 && w.s.local == Some(w.runners[0].local)
    ensures Next(cfg, w, e).s.local == Some(w.runners[0].local.(phase := if e.failed then RunFailed else Completed))
    ensures Next(cfg, w, e).runners == []
  {
    ReachableInv(cfg, w);
    SettlesOwn(cfg, w, e);
  }

  lemma SettlesOwn(cfg: Config, w: World, e: Event)
    requires RunnerInv(w.s, w.runners) && Enabled(w, e) && e.FinishRun?
    ensures |w.runners| == 1 && w.s.local == Some(w.runners[0].local)
    ensures Section(cfg, w, e).state.local ==
            Some(w.runners[0].local.(phase := if e.failed then RunFailed else Completed))
    ensures RunnersNext(w, e, Section(cfg, w, e)) == []
  {
  }

  // ----- How commands evolve -----

  /** Within a process: a command that is still there has only advanced, whatever happened
      in between, and a dropped one never comes back. */
  lemma {:induction false} CommandsOnlyAdvance(cfg: Config, w: World, events: seq<Event>)
    requires WorldInv(cfg, w) && RunOk(cfg, w, events) && NoRestart(events)
    ensures WorldInv(cfg, RunFrom(cfg, w, events))
    ensures AdvancedTo(w, RunFrom(cfg, w, events))
  {
    RunKeeps(cfg, w, events);
    if events == [] {
      assert forall id :: id in w.s.commands ==> Advances(w.s.commands[id], w.s.commands[id]);
    } else {
      var before := events[..|events| - 1];
      CommandsOnlyAdvance(cfg, w, before);
      AdvanceFurther(cfg, w, RunFrom(cfg, w, before), events[|events| - 1]);
    }
  }

  ghost predicate AdvancedTo(w: World, v: World) {
    && CommandsAdvance(w.s.commands, v.s.commands)
    && w.issued <= v.issued
    && forall id :: id in v.s.commands && id in w.issued ==> id in w.s.commands
  }

  lemma AdvanceFurther(cfg: Config, w: World, v: World, e: Event)
    requires WorldInv(cfg, w) && WorldInv(cfg, v) && AdvancedTo(w, v) && Enabled(v, e) && !e.Restart?
    ensures AdvancedTo(w, Next(cfg, v, e))
  {
    if InMemory(e) {
      SectionGood(cfg, v, e);
      var o := Section(cfg, v, e);
      IdsKept(cfg, v, e, o);
      ChainAdvances(w.s.commands, v.s.commands, o.state.commands, v.issued);
      NextIsAdvance(cfg, v, e);
    }
  }

  predicate TimedOut(s: State, id: CommandId, node: NodeId) {
    id in s.commands && HasStatus(s.commands[id], node, Timeout)
  }

  /** No ack makes a node time out, and no step but the master's own timeout scan does. */
  lemma TimeoutIsMasterAssigned(cfg: Config, w: World, e: Event, id: CommandId, node: NodeId)
    requires Enabled(w, e) && InMemory(e)
    requires !TimedOut(w.s, id, node) && TimedOut(Section(cfg, w, e).state, id, node)
    ensures e.WatchTimeouts?
  {
    if !e.WatchTimeouts? {
      UpdatesComeFromAcks(cfg, w, e, id, node);
      AckIsNoTimeout(w.s, Section(cfg, w, e).state, id, node, e);
    }
  }

  lemma AckIsNoTimeout(s: State, t: State, id: CommandId, node: NodeId, e: Event)
    requires UpdateFromAck(s, t, id, node, e) && TimedOut(t, id, node)
    ensures TimedOut(s, id, node)
  {
  }

  /** Outside the timeout scan, a node's status changes only by an ack that reports it. */
  ghost predicate UpdateFromAck(s: State, t: State, id: CommandId, node: NodeId, e: Event) {
    id in t.commands && node in t.commands[id].updates ==>
      || (id in s.commands && node in s.commands[id].updates && t.commands[id].updates[node] == s.commands[id].updates[node])
      || (&& e.AckArrives? && e.id == id && e.node == node && t.commands[id].updates[node] == e.ack
          && Classify(e.ack.status).reportable)
  }

  lemma ApplyKeepsUpdates(cfg: Config, s: State, names: seq<string>, clients: map<NodeId, set<Tag>>, now: Time,
                          newId: CommandId, id: CommandId, node: NodeId)
    ensures UpdateFromAck(s, ApplyPolicyMatch(cfg, s, names, clients, now, newId).state, id, node, Reset)
  {
  }

  lemma PollKeepsUpdates(cfg: Config, w: World, e: Event, id: CommandId, node: NodeId)
    requires Enabled(w, e) && IsPoll(e)
    ensures UpdateFromAck(w.s, Section(cfg, w, e).state, id, node, e)
  {
    match e
    case PollApply(clients, newId) => ApplyKeepsUpdates(cfg, w.s, w.poll.due, clients, w.poll.at, newId, id, node);
    case _ =>
  }

  lemma WatcherKeepsCommands(cfg: Config, s: State, reading: Option<Reading>, now: Time)
    ensures EvaluateLocalShutdown(cfg, s, reading, now).state.commands == s.commands
  {
    WatcherCases(cfg, s, reading, now);
    if s.local.Some? {
      DriveSends(Heard(cfg, s, reading, now), EffectiveEmergency(cfg, s, reading, now), now);
    }
  }

  lemma UpdatesComeFromAcks(cfg: Config, w: World, e: Event, id: CommandId, node: NodeId)
    requires Enabled(w, e) && !e.WatchTimeouts?
    ensures UpdateFromAck(w.s, Section(cfg, w, e).state, id, node, e)
  {
    if IsPoll(e) {
      PollKeepsUpdates(cfg, w, e, id, node);
    } else if e.WatchLocal? {
      WatcherKeepsCommands(cfg, w.s, e.maybe, e.now);
    }
  }

  // ----- A command that is no longer to be delivered -----

  predicate NoRestart(events: seq<Event>) { forall e :: e in events ==> !e.Restart? }

  lemma DisabledNotSentNow(cfg: Config, w: World, e: Event, id: CommandId)
    requires WorldInv(cfg, w) && Enabled(w, e) && id in w.issued
    requires id in w.s.commands ==> w.s.commands[id].replayDisabled
    ensures Section(cfg, w, e).send.Send? ==> Section(cfg, w, e).send.commandId != id
  {
    if InMemory(e) {
      SectionGood(cfg, w, e);
      IdsKept(cfg, w, e, Section(cfg, w, e));
    }
  }

  /** Once a command is disabled, it stays disabled or is dropped, and no step decides to
      send it to any node, however the process goes on and whatever its local shutdown
      does. */
  lemma DisabledNeverSent(cfg: Config, w: World, events: seq<Event>, id: CommandId, e: Event)
    requires WorldInv(cfg, w) && id in w.s.commands && w.s.commands[id].replayDisabled
    requires RunOk(cfg, w, events) && NoRestart(events) && Enabled(RunFrom(cfg, w, events), e)
    ensures var v := RunFrom(cfg, w, events);
            && (id in v.s.commands ==> v.s.commands[id].replayDisabled)
            && (Section(cfg, v, e).send.Send? ==> Section(cfg, v, e).send.commandId != id)
  {
    CommandsOnlyAdvance(cfg, w, events);
    DisabledNotSentNow(cfg, RunFrom(cfg, w, events), e, id);
  }

  /** The command is disabled, or dropped, and no local shutdown follows it. */
  ghost predicate Cancelled(s: State, issued: set<CommandId>, id: CommandId) {
    && id != "" && id in issued
    && (id in s.commands ==> s.commands[id].replayDisabled)
    && !Follows(s, id)
  }

  /** Reset disables the active command and the episode's, whatever is running; no local
      shutdown is left of them unless it is running. */
  lemma ResetDisables(cfg: Config, w: World, id: CommandId)
    requires WorldInv(cfg, w) && id in w.s.commands
    requires id == w.s.active || (w.s.episode.Some? && w.s.episode.value.commandId == id)
    ensures var t := Next(cfg, w, Reset);
            && id in t.s.commands && t.s.commands[id].replayDisabled
            && (Cancelled(t.s, t.issued, id) <==> !(IsRunning(w.s) && Follows(w.s, id)))
  {
  }

  /** Line power disables the episode's command in the same way. */
  lemma LinePowerDisables(cfg: Config, w: World)
    requires WorldInv(cfg, w) && w.s.episode.Some? && w.s.episode.value.commandId != ""
    requires w.poll.Got? && !w.poll.reading.onBattery
    ensures var id := w.s.episode.value.commandId;
            var t := Next(cfg, w, PollEpisode);
            && id in t.s.commands && t.s.commands[id].replayDisabled
            && (Cancelled(t.s, t.issued, id) <==> !(IsRunning(w.s) && Follows(w.s, id)))
  {
  }

  /** A new episode command disables the operator's, and leaves no local shutdown of it but
      one that is running, or has completed and is not replaced by waiting for all nodes. */
  lemma SupersedeDisables(cfg: Config, w: World, clients: map<NodeId, set<Tag>>, id: CommandId)
    requires WorldInv(cfg, w) && Enabled(w, PollApply(clients, id)) && w.poll.due != []
    requires w.s.episode.value.commandId == "" && w.s.active != ""
    ensures var t := Next(cfg, w, PollApply(clients, id));
            && w.s.active in t.s.commands && t.s.commands[w.s.active].replayDisabled
            && (Cancelled(t.s, t.issued, w.s.active) <==>
                  !(Follows(w.s, w.s.active) &&
                    (IsRunning(w.s) ||
                     (w.s.local.value.phase == Completed && !TargetOf(cfg.policies, w.poll.due).all))))
  {
    UnfiredAll(w.s.episode.value.fired, w.poll.due);
    Superseded(cfg, w.s, w.poll.due, clients, w.poll.at, id);
    NextIsAdvance(cfg, w, PollApply(clients, id));
  }

  lemma Superseded(cfg: Config, s: State, names: seq<string>, clients: map<NodeId, set<Tag>>, now: Time,
                   id: CommandId)
    requires Inv(cfg, s) && s.episode.Some? && s.episode.value.commandId == "" && s.active != ""
    requires names != [] && Unfired(s.episode.value.fired, names) == names && id !in s.commands
    ensures var t := ApplyPolicyMatch(cfg, s, names, clients, now, id).state;
            && s.active in t.commands && t.commands[s.active].replayDisabled
            && (Follows(t, s.active) <==>
                  Follows(s, s.active) &&
                  (IsRunning(s) || (s.local.value.phase == Completed && !TargetOf(cfg.policies, names).all)))
  {
  }

  lemma CancelledNext(cfg: Config, w: World, e: Event, id: CommandId)
    requires WorldInv(cfg, w) && Enabled(w, e) && !e.Restart? && Cancelled(w.s, w.issued, id)
    ensures Cancelled(Next(cfg, w, e).s, Next(cfg, w, e).issued, id)
  {
    if InMemory(e) {
      SectionGood(cfg, w, e);
      var o := Section(cfg, w, e);
      IdsKept(cfg, w, e, o);
      SectionLocalOrigin(cfg, w, e, o);
      NextIsAdvance(cfg, w, e);
    }
  }

  /** Once a command is cancelled, no local shutdown of it is ever in place again in this
      process: none starts. */
  lemma {:induction false} CancelledNeverStarts(cfg: Config, w: World, events: seq<Event>, id: CommandId)
    requires WorldInv(cfg, w) && Cancelled(w.s, w.issued, id)
    requires RunOk(cfg, w, events) && NoRestart(events)
    ensures var v := RunFrom(cfg, w, events);
            && WorldInv(cfg, v) && Cancelled(v.s, v.issued, id)
            && forall e :: Starts(v, e) ==> e.begin.commandId != id
  {
    RunKeeps(cfg, w, events);
    if events != [] {
      var before := events[..|events| - 1];
      var e := events[|events| - 1];
      var v := RunFrom(cfg, w, before);
      CancelledNeverStarts(cfg, w, before, id);
      CancelledNext(cfg, v, e, id);
    }
  }

  // ----- Decisions to start the local shutdown -----

  /** The decision has been taken and its goroutine has not reached the lock again. */
  predicate PendingDecision(w: World, begin: Begin, byWatcher: bool) {
    if byWatcher then w.watcher == Deciding(begin) else begin in w.begins
  }

  /** The watcher has not taken its next step. */
  predicate WatcherUntouched(events: seq<Event>) {
    forall e :: e in events ==> !(e.BeginRun? && e.byWatcher)
  }

  /** From `w` on, the local shutdown has been the one of this decision in every state. */
  ghost predicate KeptThroughout(cfg: Config, w: World, events: seq<Event>, id: CommandId) {
    forall n :: 0 <= n <= |events| ==>
      var s := RunFrom(cfg, w, events[..n]).s;
      Follows(s, id) && SameLocal(w.s.local, s.local)
  }

  /** One more step of the fate of a decision. */
  lemma DecisionStep(cfg: Config, v: World, e: Event, b: Begin)
    requires WorldInv(cfg, v) && Enabled(v, e) && !e.Restart? && DecisionInv(v.s, v.issued, b)
    requires b.commandId == "" ==> v.watcher == Deciding(b) && !(e.BeginRun? && e.byWatcher)
    ensures var t := Next(cfg, v, e);
            && DecisionInv(t.s, t.issued, b)
            && (Follows(t.s, b.commandId) ==> SameLocal(v.s.local, t.s.local) && Follows(v.s, b.commandId))
  {
    if InMemory(e) {
      SectionGood(cfg, v, e);
      DecisionKept(cfg, v, e, Section(cfg, v, e), b);
      NextIsAdvance(cfg, v, e);
    }
  }

  /** A watcher that has decided does nothing before it acts on the decision. */
  lemma WatcherStaysDeciding(cfg: Config, v: World, e: Event)
    requires v.watcher.Deciding? && WatcherInv(v.s, v.issued, v.runners, v.watcher) && |v.runners| <= 1 && Enabled(v, e)
    requires !e.Restart? && !(e.BeginRun? && e.byWatcher)
    ensures Next(cfg, v, e).watcher == v.watcher
  {
  }

  /** The fate of a decision, over every run of the process: the local shutdown is of the
      decision's command only if it has been the same one all along. */
  lemma {:induction false} DecisionFate(cfg: Config, w: World, events: seq<Event>, b: Begin)
    requires WorldInv(cfg, w) && DecisionInv(w.s, w.issued, b)
    requires b.commandId == "" ==> w.watcher == Deciding(b) && WatcherUntouched(events)
    requires RunOk(cfg, w, events) && NoRestart(events)
    ensures var v := RunFrom(cfg, w, events);
            && WorldInv(cfg, v) && DecisionInv(v.s, v.issued, b)
            && (b.commandId == "" ==> v.watcher == Deciding(b))
            && (Follows(v.s, b.commandId) ==> KeptThroughout(cfg, w, events, b.commandId))
  {
    RunKeeps(cfg, w, events);
    if events == [] {
      assert events[..0] == events;
    } else {
      var before := events[..|events| - 1];
      var e := events[|events| - 1];
      DecisionFate(cfg, w, before, b);
      DecisionStep(cfg, RunFrom(cfg, w, before), e, b);
      if b.commandId == "" {
        WatcherStaysDeciding(cfg, RunFrom(cfg, w, before), e);
      }
      if Follows(RunFrom(cfg, w, events).s, b.commandId) {
        KeptOneMore(cfg, w, events, b.commandId);
      }
    }
  }

  lemma KeptOneMore(cfg: Config, w: World, events: seq<Event>, id: CommandId)
    requires events != [] && KeptThroughout(cfg, w, events[..|events| - 1], id)
    requires Follows(RunFrom(cfg, w, events).s, id)
    requires SameLocal(RunFrom(cfg, w, events[..|events| - 1]).s.local, RunFrom(cfg, w, events).s.local)
    ensures KeptThroughout(cfg, w, events, id)
  {
    var before := events[..|events| - 1];
    assert before[..|before|] == before && events[..|events|] == events;
    forall n | 0 <= n < |events|
      ensures RunFrom(cfg, w, events[..n]) == RunFrom(cfg, w, before[..n])
    {
      assert events[..n] == before[..n];
    }
  }

  /** A decision that is cancelled before it reaches the lock never executes: it starts a
      runner exactly when the local shutdown it was taken for has been in place in every
      state since, and is neither running nor completed. This holds for decisions of the
      watcher, with or without a command, and for those of ack handlers. */
  lemma CancelledDecisionNeverStarts(cfg: Config, w: World, events: seq<Event>, begin: Begin, byWatcher: bool, at: Time)
    requires WorldInv(cfg, w) && PendingDecision(w, begin, byWatcher)
    requires RunOk(cfg, w, events) && NoRestart(events) && (byWatcher ==> WatcherUntouched(events))
    ensures var v := RunFrom(cfg, w, events);
            Starts(v, BeginRun(begin, byWatcher, at)) <==>
              && KeptThroughout(cfg, w, events, begin.commandId)
              && v.s.local.Some? && !LocalTerminal(v.s.local.value.phase)
  {
    assert DecisionInv(w.s, w.issued, begin) && (begin.commandId == "" ==> byWatcher);
    DecisionFate(cfg, w, events, begin);
    assert events[..|events|] == events;
  }

  /** A pending local shutdown never follows a missing or disabled command, in any
      reachable state, right after a restart included. */
  lemma PendingLocalIsLive(cfg: Config, w: World)
    requires ValidConfig(cfg) && Reachable(cfg, w)
    requires w.s.local.Some? && Pending(w.s.local.value.phase)
    ensures if w.s.local.value.commandId == "" then w.s.episode.Some?
            else w.s.local.value.commandId in w.s.commands && !w.s.commands[w.s.local.value.commandId].replayDisabled
  {
    ReachableInv(cfg, w);
  }

  /** The episode's command addresses a node exactly when a policy fired since the
      command was created does; every node of any command is addressed with the tags it had
      when it was added; and only nodes of a command have reported on it. */
  lemma EpisodeTargetIsFiredPolicies(cfg: Config, w: World, node: NodeId, tags: set<Tag>)
    requires ValidConfig(cfg) && Reachable(cfg, w)
    requires w.s.episode.Some? && w.s.episode.value.commandId != ""
    ensures var e := w.s.episode.value;
            && e.commandId in w.s.commands && e.commandFrom <= |e.fired|
            && (Matches(w.s.commands[e.commandId].target, node, tags) <==>
                  exists i :: NamedAmong(cfg.policies, e.fired[e.commandFrom..], |cfg.policies|, i)
                              && Matches(cfg.policies[i].target, node, tags))
    ensures forall id, n :: id in w.s.commands && n in w.s.commands[id].tracked ==>
                              Matches(w.s.commands[id].target, n, w.s.commands[id].tracked[n])
    ensures forall id :: id in w.s.commands ==> w.s.commands[id].updates.Keys <= w.s.commands[id].tracked.Keys
  {
    ReachableInv(cfg, w);
    var e := w.s.episode.value;
    TargetMatchesSomePolicy(cfg.policies, e.fired[e.commandFrom..], node, tags);
    forall id, n | id in w.s.commands && n in w.s.commands[id].tracked
      ensures Matches(w.s.commands[id].target, n, w.s.commands[id].tracked[n])
    {
      assert CommandInv(w.s.commands[id]);
    }
  }

  // ----- Confirmation after a restart -----

  lemma SendsConfirmed(cfg: Config, w: World, e: Event)
    requires PollInv(cfg, w.s, w.poll) && AutoInv(w.s.commands, w.s.episode) && Enabled(w, e)
    ensures AutoSendConfirmed(Section(cfg, w, e))
  {
    var r := Request({}, {}, None, None);
    match e
    case WatchLocal(now, maybe) => WatcherSendsConfirmed(cfg, w.s, maybe, now);
    case WatchRetry(now, clients) => OtherSendsConfirmed(cfg, w.s, clients, "", {}, [], r, now, "");
    case Reconnect(node, tags, now) => OtherSendsConfirmed(cfg, w.s, map[], node, tags, [], r, now, "");
    case Manual(request, clients, now, id) => OtherSendsConfirmed(cfg, w.s, clients, "", {}, [], request, now, id);
    case WatchTimeouts(_, _) =>
    case BeginRun(_, _, _) =>
    case FinishRun(_, _) =>
    case AckArrives(_, _, _, _) =>
    case Reset =>
    case DirectoryChange =>
    case DiskWrite(_, _) =>
    case Restart(_, _) =>
    case _ =>
  }

  /** No step decides to send an automatic command unless the UPS is confirmed, and the
      watcher starts no automatic local shutdown before that. */
  lemma AutomaticActivityIsConfirmed(cfg: Config, w: World, e: Event)
    requires ValidConfig(cfg) && Reachable(cfg, w) && Enabled(w, e)
    ensures AutoSendConfirmed(Section(cfg, w, e))
    ensures e.WatchLocal? && Section(cfg, w, e).begin.Begin? && AutoLocal(Section(cfg, w, e).state) ==>
              Section(cfg, w, e).state.upsConfirmed
  {
    ReachableInv(cfg, w);
    SendsConfirmed(cfg, w, e);
    if e.WatchLocal? {
      WatcherConfirms(cfg, w, e);
    }
  }

  lemma WatcherConfirms(cfg: Config, w: World, e: Event)
    requires WorldInv(cfg, w) && Enabled(w, e) && e.WatchLocal?
    ensures var o := Section(cfg, w, e); o.begin.Begin? && AutoLocal(o.state) ==> o.state.upsConfirmed
  {
    WatcherStartsConfirmed(cfg, w.s, e.maybe, e.now);
    LocalFrame(cfg, w.s, e.maybe, e.now);
  }

  /** Other goroutines may: a decision to start an automatic local shutdown is taken with the
      UPS unconfirmed exactly when an ack handler takes it in a process that has not confirmed
      the UPS. */
  lemma UnconfirmedDecisions(cfg: Config, w: World, e: Event)
    requires ValidConfig(cfg) && Reachable(cfg, w) && Enabled(w, e)
    requires Section(cfg, w, e).begin.Begin? && AutoLocal(Section(cfg, w, e).state)
    ensures !Section(cfg, w, e).state.upsConfirmed <==> e.AckArrives? && !w.s.upsConfirmed
  {
    ReachableInv(cfg, w);
    OnlyTwoDecide(cfg, w, e);
    if e.WatchLocal? {
      WatcherConfirms(cfg, w, e);
    } else {
      AckKeepsConfirmation(w.s, e.id, e.node, e.ack, e.now);
    }
  }

  lemma AckKeepsConfirmation(s: State, id: CommandId, node: NodeId, ack: Ack, now: Time)
    ensures HandleAck(s, id, node, ack, now).state.upsConfirmed == s.upsConfirmed
  {
  }

  /** What the watcher has decided to start is confirmed if it is automatic. */
  ghost predicate WatcherVouches(w: World) {
    w.watcher.Deciding? && w.watcher.begin.Begin? && Follows(w.s, w.watcher.begin.commandId) && AutoLocal(w.s) ==>
      w.s.upsConfirmed
  }

  lemma VouchKept(cfg: Config, w: World, e: Event, o: Outcome, b: Begin)
    requires WorldInv(cfg, w) && Good(cfg, w, e, o) && WatcherVouches(w) && !e.WatchLocal? && w.watcher == Deciding(b)
    requires b.Begin? && Follows(o.state, b.commandId) && AutoLocal(o.state)
    ensures o.state.upsConfirmed
  {
    DecisionKept(cfg, w, e, o, b);
    ConfirmingSection(cfg, w, e, o);
  }

  lemma WatcherVouchesSection(cfg: Config, w: World, e: Event, o: Outcome)
    requires WorldInv(cfg, w) && Good(cfg, w, e, o) && WatcherVouches(w)
    requires e.WatchLocal? && o.begin.Begin? && AutoLocal(o.state) ==> o.state.upsConfirmed
    ensures WatcherVouches(Advance(cfg, w, e, o))
  {
    var next := WatcherNext(w, e, o);
    if !e.WatchLocal? && next.Deciding? && next.begin.Begin? && Follows(o.state, next.begin.commandId)
       && AutoLocal(o.state)
    {
      VouchKept(cfg, w, e, o, next.begin);
    }
  }

  lemma WatcherVouchesNext(cfg: Config, w: World, e: Event)
    requires WorldInv(cfg, w) && Enabled(w, e) && WatcherVouches(w)
    ensures WatcherVouches(Next(cfg, w, e))
  {
    if InMemory(e) {
      SectionGood(cfg, w, e);
      NextIsAdvance(cfg, w, e);
      WatcherVouchesMemory(cfg, w, e, Section(cfg, w, e));
    }
  }

  lemma WatcherVouchesMemory(cfg: Config, w: World, e: Event, o: Outcome)
    requires WorldInv(cfg, w) && Good(cfg, w, e, o) && WatcherVouches(w) && o == Section(cfg, w, e)
    ensures WatcherVouches(Advance(cfg, w, e, o))
  {
    if e.WatchLocal? {
      WatcherConfirms(cfg, w, e);
    }
    WatcherVouchesSection(cfg, w, e, o);
  }

  lemma {:induction false} WatcherVouchesRun(cfg: Config, w: World, events: seq<Event>)
    requires WorldInv(cfg, w) && WatcherVouches(w) && RunOk(cfg, w, events)
    ensures WatcherVouches(RunFrom(cfg, w, events))
  {
    if events != [] {
      var before := events[..|events| - 1];
      RunKeeps(cfg, w, before);
      WatcherVouchesRun(cfg, w, before);
      WatcherVouchesNext(cfg, RunFrom(cfg, w, before), events[|events| - 1]);
    }
  }

  lemma WatcherVouched(cfg: Config, w: World)
    requires ValidConfig(cfg) && Reachable(cfg, w)
    ensures WatcherVouches(w)
  {
    var at: Time, events: seq<Event> :|
      RunOk(cfg, First(cfg, at), events) && RunFrom(cfg, First(cfg, at), events) == w;
    FirstSound(cfg, at);
    WatcherVouchesRun(cfg, First(cfg, at), events);
  }

  /** An automatic local shutdown that starts with the UPS unconfirmed was decided on by an ack
      handler, because every node of its command had reported that it was finished. */
  lemma UnconfirmedStarts(cfg: Config, w: World, e: Event)
    requires ValidConfig(cfg) && Reachable(cfg, w) && Enabled(w, e) && Starts(w, e)
    requires AutoLocal(w.s) && !w.s.upsConfirmed
    ensures !e.byWatcher && e.begin.trigger == RemoteComplete
    ensures var l := w.s.local.value;
            && l.grounds.finished.Some? && l.commandId in w.s.commands
            && FinishedFor(l.grounds.finished.value, w.s.commands[l.commandId])
  {
    ReachableInv(cfg, w);
    WatcherVouched(cfg, w);
  }

  /** Which steps confirm the UPS; nothing but a restart takes it back. */
  lemma ConfirmingStep(cfg: Config, w: World, e: Event)
    requires WorldInv(cfg, w) && Enabled(w, e) && !e.Restart?
    ensures w.s.upsConfirmed ==> Next(cfg, w, e).s.upsConfirmed
    ensures !w.s.upsConfirmed && Next(cfg, w, e).s.upsConfirmed ==>
              || (e.PollConfirm? && w.poll.Adjusted?)
              || (e.PollVouch? && w.poll.ToVouch? && w.s.episode.Some? && SilenceVouches(cfg, w.s, w.poll.at))
              || (e.WatchLocal? && WatcherMayConfirm(cfg, w.s, e.now))
  {
    if InMemory(e) {
      SectionGood(cfg, w, e);
      ConfirmingSection(cfg, w, e, Section(cfg, w, e));
      NextIsAdvance(cfg, w, e);
    }
  }

  lemma ConfirmingSection(cfg: Config, w: World, e: Event, o: Outcome)
    requires PollInv(cfg, w.s, w.poll) && Enabled(w, e) && InMemory(e) && SectionFrame(cfg, w, e, o.state)
    ensures w.s.upsConfirmed ==> o.state.upsConfirmed
    ensures !w.s.upsConfirmed && o.state.upsConfirmed ==>
              || (e.PollConfirm? && w.poll.Adjusted?)
              || (e.PollVouch? && w.poll.ToVouch? && w.s.episode.Some? && SilenceVouches(cfg, w.s, w.poll.at))
              || (e.WatchLocal? && WatcherMayConfirm(cfg, w.s, e.now))
  {
  }

  /** A process that restored an episode which had powered the master off stays
      unconfirmed until it reads the UPS, or has itself run a local shutdown that failed:
      until then no automatic command is sent and the watcher starts nothing automatic. */
  lemma PoweredOffMasterWaitsForReading(cfg: Config, w: World, e: Event)
    requires ValidConfig(cfg) && Reachable(cfg, w) && Enabled(w, e)
    requires w.process.restoredPoweredOff && !w.process.sawReading && !w.process.runFailed
    ensures w.s.episode.Some? && w.s.episode.value.masterPoweredOff && !w.s.upsConfirmed
    ensures !e.PollConfirm? && !e.Restart? ==> !Next(cfg, w, e).s.upsConfirmed
  {
    ReachableInv(cfg, w);
    if !e.Restart? {
      ConfirmingStep(cfg, w, e);
    }
  }

  // ----- Emergencies, dry runs, decisions -----

  /** A local shutdown, and every runner call made for one, carries the dry-run flag of
      the command it follows, or the configuration's when it has none: so the master is
      powered off for real only for a command that is not a dry run, or for a command-less
      emergency under a configuration that is not. */
  lemma DryRunNeverPowersOff(cfg: Config, w: World)
    requires ValidConfig(cfg) && Reachable(cfg, w)
    ensures w.s.local.Some? ==> FollowsFlag(cfg, w.s, w.s.local.value)
    ensures forall i :: 0 <= i < |w.runners| ==> FollowsFlag(cfg, w.s, w.runners[i].local)
  {
    ReachableInv(cfg, w);
    FlagsFollow(cfg, w.s, w.runners);
  }

  ghost predicate FollowsFlag(cfg: Config, s: State, l: LocalShutdown) {
    if l.commandId == "" then l.dryRun == cfg.dryRun
    else l.commandId in s.commands && l.dryRun == s.commands[l.commandId].dryRun
  }

  lemma FlagsFollow(cfg: Config, s: State, runners: seq<Call>)
    requires RunnerInv(s, runners)
    requires s.local.Some? ==> LocalInv(cfg, s.commands, s.episode.Some?, s.local.value)
    ensures s.local.Some? ==> FollowsFlag(cfg, s, s.local.value)
    ensures forall i :: 0 <= i < |runners| ==> FollowsFlag(cfg, s, runners[i].local)
  {
    forall i | 0 <= i < |runners|
      ensures FollowsFlag(cfg, s, runners[i].local)
    {
      assert s.local == Some(runners[0].local) && i == 0;
    }
  }

  // ----- Why the waiting for the remotes ends -----

  /** Every target node has reported executed, simulated or failed. */
  ghost predicate EveryNodeFinished(c: Command) {
    && c.tracked.Keys != {}
    && forall node :: node in c.tracked ==>
         HasStatus(c, node, Executed) || HasStatus(c, node, Simulated) || HasStatus(c, node, Failed)
  }

  lemma FinishedMeaning(c: Command)
    ensures RemoteShutdownFinished(c) <==> EveryNodeFinished(c)
    ensures EveryNodeFinished(c) ==> Reported(c).Keys == c.tracked.Keys
  {
  }

  /** What a decision to start rests on, by its trigger. Only for a command to all nodes is
      the waiting ended by remote_complete or wait_expired. The first such decision is made
      with every node finished, or past the deadline; a later one retries a local shutdown
      that failed, or one whose waiting has expired, and looks at nothing. */
  ghost predicate DecisionRests(cfg: Config, o: Outcome, tick: Option<Time>)
    requires o.begin.Begin?
  {
    EndsWaiting(o.begin.trigger) ==>
      && Follows(o.state, o.begin.commandId) && o.begin.commandId in o.state.commands
      && o.state.commands[o.begin.commandId].target.all
      && var l := o.state.local.value;
         var c := o.state.commands[o.begin.commandId];
         if o.begin.trigger == RemoteComplete then
           && l.grounds.finished.Some? && FinishedFor(l.grounds.finished.value, c)
           && ((l.phase == WaitingRemote && EveryNodeFinished(c) && l.grounds.finished.value == Reported(c))
               || l.phase == RunFailed)
         else
           && tick.Some? && l.grounds.expiredAt.Some?
           && l.grounds.expiredAt.value >= l.startedAt + cfg.maxWait
           && (l.phase == WaitExpired || l.phase == RunFailed)
  }

  lemma AckRests(cfg: Config, s: State, id: CommandId, node: NodeId, ack: Ack, now: Time)
    requires Inv(cfg, HandleAck(s, id, node, ack, now).state)
    ensures var o := HandleAck(s, id, node, ack, now);
            o.begin.Begin? ==> DecisionRests(cfg, o, None)
  {
    var o := HandleAck(s, id, node, ack, now);
    if o.begin.Begin? {
      FinishedMeaning(o.state.commands[id]);
    }
  }

  lemma WaitingRests(cfg: Config, s: State, emergency: Trigger, now: Time)
    requires s.local.Some? && s.local.value.phase == WaitingRemote && !EndsWaiting(emergency)
    requires LocalInv(cfg, s.commands, s.episode.Some?, s.local.value)
    ensures var o := DriveWaitingRemote(s, emergency, now);
            o.begin.Begin? ==> DecisionRests(cfg, o, Some(now))
  {
    FinishedMeaning(s.commands[s.local.value.commandId]);
    EscalateSound(cfg, s, emergency, now);
  }

  lemma DriveRests(cfg: Config, s: State, emergency: Trigger, now: Time)
    requires s.local.Some? && !EndsWaiting(emergency)
    requires LocalInv(cfg, s.commands, s.episode.Some?, s.local.value)
    ensures var o := DriveLocal(s, emergency, now);
            o.begin.Begin? ==> DecisionRests(cfg, o, Some(now))
  {
    if s.local.value.phase == WaitingRemote {
      WaitingRests(cfg, s, emergency, now);
    } else {
      assert DriveLocal(s, emergency, now).state == s;
    }
  }

  lemma WatcherRests(cfg: Config, s: State, reading: Option<Reading>, now: Time)
    requires Inv(cfg, s)
    ensures var o := EvaluateLocalShutdown(cfg, s, reading, now);
            o.begin.Begin? ==> DecisionRests(cfg, o, Some(now))
  {
    var emergency := EffectiveEmergency(cfg, s, reading, now);
    var s1 := if emergency == UpsUnreachable && s.episode.Some? then Confirm(s) else s;
    if s.local.Some? {
      DriveRests(cfg, s1, emergency, now);
    }
  }

  /** Every decision to start, of every goroutine and in every phase, rests on these
      grounds. */
  lemma DecisionsRestOnGrounds(cfg: Config, w: World, e: Event)
    requires ValidConfig(cfg) && Reachable(cfg, w) && Enabled(w, e)
    requires Section(cfg, w, e).begin.Begin?
    ensures DecisionRests(cfg, Section(cfg, w, e), if e.WatchLocal? then Some(e.now) else None)
  {
    ReachableInv(cfg, w);
    OnlyTwoDecide(cfg, w, e);
    if e.WatchLocal? {
      WatcherRests(cfg, w.s, e.maybe, e.now);
    } else {
      RecordUpdateSound(cfg, w.s, e.id, e.node, e.ack, e.now);
      AckRests(cfg, w.s, e.id, e.node, e.ack, e.now);
    }
  }

  /** The grounds are what was seen: a step gives a local shutdown new ones only by deciding
      to start it, with the reports of all its target nodes, every one of them finished, or
      at a tick past its deadline; an armed one has none. */
  ghost predicate GroundsSeen(cfg: Config, s: State, o: Outcome, tick: Option<Time>) {
    o.state.local.Some? && !(s.local.Some? && o.state.local.value.grounds == s.local.value.grounds) ==>
      var l := o.state.local.value;
      || l.grounds == NO_GROUNDS
      || (&& SameLocal(s.local, o.state.local) && l.commandId in o.state.commands
          && l.grounds == s.local.value.grounds.(finished := Some(Reported(o.state.commands[l.commandId])))
          && EveryNodeFinished(o.state.commands[l.commandId])
          && o.begin == Begin(l.commandId, RemoteComplete))
      || (&& SameLocal(s.local, o.state.local) && tick.Some? && tick.value >= l.startedAt + cfg.maxWait
          && l.grounds == s.local.value.grounds.(expiredAt := tick)
          && o.begin == Begin(l.commandId, MaxWaitExpired))
  }

  lemma AckGrounds(cfg: Config, s: State, id: CommandId, node: NodeId, ack: Ack, now: Time)
    ensures GroundsSeen(cfg, s, HandleAck(s, id, node, ack, now), None)
  {
    var o := HandleAck(s, id, node, ack, now);
    if o.begin.Begin? {
      FinishedMeaning(o.state.commands[id]);
    }
  }

  lemma DriveGrounds(cfg: Config, s: State, emergency: Trigger, now: Time)
    requires s.local.Some? && LocalInv(cfg, s.commands, s.episode.Some?, s.local.value)
    ensures GroundsSeen(cfg, s, DriveLocal(s, emergency, now), Some(now))
  {
    if s.local.value.phase == WaitingRemote {
      FinishedMeaning(s.commands[s.local.value.commandId]);
      EscalateShape(s.local.value, s.commands[s.local.value.commandId], emergency, now);
    } else {
      assert DriveLocal(s, emergency, now).state == s;
    }
  }

  lemma WatcherGrounds(cfg: Config, s: State, reading: Option<Reading>, now: Time)
    requires s.local.Some? ==> LocalInv(cfg, s.commands, s.episode.Some?, s.local.value)
    ensures GroundsSeen(cfg, s, EvaluateLocalShutdown(cfg, s, reading, now), Some(now))
  {
    var emergency := EffectiveEmergency(cfg, s, reading, now);
    var s1 := if emergency == UpsUnreachable && s.episode.Some? then Confirm(s) else s;
    if s.local.Some? {
      DriveGrounds(cfg, s1, emergency, now);
    }
  }

  lemma ApplyGrounds(cfg: Config, s: State, names: seq<string>, clients: map<NodeId, set<Tag>>, now: Time,
                     id: CommandId)
    ensures GroundsSeen(cfg, s, ApplyPolicyMatch(cfg, s, names, clients, now, id), None)
  {
  }

  lemma RestGrounds(cfg: Config, w: World, e: Event)
    requires !e.WatchLocal? && !e.AckArrives? && !e.PollApply?
    ensures GroundsSeen(cfg, w.s, Section(cfg, w, e), None)
  {
  }

  lemma GroundsAreWhatWasSeen(cfg: Config, w: World, e: Event)
    requires ValidConfig(cfg) && Reachable(cfg, w) && Enabled(w, e)
    ensures GroundsSeen(cfg, w.s, Section(cfg, w, e), if e.WatchLocal? then Some(e.now) else None)
  {
    ReachableInv(cfg, w);
    match e
    case WatchLocal(now, maybe) => WatcherGrounds(cfg, w.s, maybe, now);
    case AckArrives(id, node, ack, now) => AckGrounds(cfg, w.s, id, node, ack, now);
    case PollApply(clients, id) => ApplyGrounds(cfg, w.s, w.poll.due, clients, w.poll.at, id);
    case _ => RestGrounds(cfg, w, e);
  }

  /** When a retry of remote_complete still finds every node finished: exactly when the
      nodes that joined since, and those that had failed, have a finished report now. A
      success seen then is one now. */
  lemma RetryStillComplete(cfg: Config, w: World)
    requires ValidConfig(cfg) && Reachable(cfg, w)
    requires w.s.local.Some? && w.s.local.value.trigger == RemoteComplete
    ensures var l := w.s.local.value;
            && l.grounds.finished.Some? && l.commandId in w.s.commands
            && var finished := l.grounds.finished.value;
               var c := w.s.commands[l.commandId];
               EveryNodeFinished(c) <==>
                 forall node :: node in c.tracked && (node in finished ==> finished[node] == Failed) ==>
                   node in c.updates && Classify(c.updates[node].status).final
  {
    ReachableInv(cfg, w);
    var l := w.s.local.value;
    StillFinished(l.grounds.finished.value, w.s.commands[l.commandId]);
  }

  lemma StillFinished(finished: map<NodeId, Status>, c: Command)
    requires FinishedFor(finished, c)
    ensures EveryNodeFinished(c) <==>
            forall node :: node in c.tracked && (node in finished ==> finished[node] == Failed) ==>
              node in c.updates && Classify(c.updates[node].status).final
  {
    forall node | node in finished && finished[node] != Failed
      ensures node in c.updates && Classify(c.updates[node].status).final
    {
      assert Classify(finished[node]).final;
    }
    assert forall node :: node in c.updates && Classify(c.updates[node].status).final ==>
             HasStatus(c, node, Executed) || HasStatus(c, node, Simulated) || HasStatus(c, node, Failed);
  }

  /** A retry of wait_expired is past the deadline on any clock that has not gone back
      behind the tick that first found it passed. */
  lemma RetryStillExpired(cfg: Config, w: World, now: Time)
    requires ValidConfig(cfg) && Reachable(cfg, w)
    requires w.s.local.Some? && w.s.local.value.trigger == MaxWaitExpired
    ensures var l := w.s.local.value;
            && l.grounds.expiredAt.Some?
            && (now >= l.grounds.expiredAt.value ==> now >= l.startedAt + cfg.maxWait)
  {
    ReachableInv(cfg, w);
  }
}
