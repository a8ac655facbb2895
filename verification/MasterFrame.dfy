/** What a critical section leaves alone. */
module MasterFrame {
  import opened Types
  import opened Policy
  import opened MasterState
  import opened MasterInvariant

  predicate IsRunning(s: State) { s.local.Some? && s.local.value.phase == Running }

  /** The local shutdown was armed by automatic activity. */
  predicate AutoLocal(s: State) {
    s.local.Some? && (s.local.value.commandId !in s.commands || s.commands[s.local.value.commandId].auto)
  }

  /** A running local shutdown is neither replaced, cancelled nor changed, and none
      starts running. */
  ghost predicate RunningKept(s: State, t: State) {
    && (IsRunning(s) <==> IsRunning(t))
    && (IsRunning(s) ==> t.local == s.local)
  }

  ghost predicate SameOutage(a: Episode, b: Episode) {
    && b.startedAt == a.startedAt && b.fired == a.fired && b.masterPoweredOff == a.masterPoweredOff
    && b.matchSince == a.matchSince && b.seen == a.seen
  }

  ghost predicate SameLocal(a: Option<LocalShutdown>, b: Option<LocalShutdown>) {
    && a.Some? && b.Some?
    && b.value.commandId == a.value.commandId && b.value.startedAt == a.value.startedAt
    && b.value.dryRun == a.value.dryRun
    && (a.value.grounds.finished.Some? ==> b.value.grounds.finished.Some?)
    && (a.value.grounds.expiredAt.Some? ==> b.value.grounds.expiredAt.Some?)
  }

  /** The local shutdown in place is the one of this command ("" for none). */
  predicate Follows(s: State, id: CommandId) { s.local.Some? && s.local.value.commandId == id }

  /** A local shutdown in place was there before, or was just armed: for a command that
      none was following, and which is new, or the episode's, or none. */
  ghost predicate LocalOrigin(s: State, t: State) {
    t.local.Some? ==>
      || SameLocal(s.local, t.local)
      || (&& Pending(t.local.value.phase)
          && !Follows(s, t.local.value.commandId)
          && (t.local.value.commandId in s.commands ==>
                t.episode.Some? && t.episode.value.commandId == t.local.value.commandId))
  }

  /** A section outside the polling goroutine and the runner: it neither opens, closes
      nor advances the episode, touches nothing known about the UPS, keeps a running
      local shutdown, and adds at most the command `id`. */
  ghost predicate Frame(s: State, t: State, id: CommandId) {
    && (t.episode.Some? <==> s.episode.Some?)
    && (s.episode.Some? ==> SameOutage(s.episode.value, t.episode.value))
    && t.ups == s.ups && t.startedAt == s.startedAt
    && (s.upsConfirmed ==> t.upsConfirmed)
    && RunningKept(s, t)
    && t.commands.Keys <= s.commands.Keys + {id}
    && LocalOrigin(s, t)
    && (s.episode.None? && AutoLocal(t) ==> AutoLocal(s))
  }

  lemma TimeoutsFrame(s: State, now: Time, dropped: set<CommandId>)
    requires dropped <= PruneCandidates(MarkTimeouts(s, now))
    ensures Frame(s, MarkTimedOutCommands(s, now, dropped).state, "")
  {
    if s.local.Some? && s.local.value.commandId in s.commands {
      assert s.local.value.commandId !in PruneCandidates(MarkTimeouts(s, now));
    }
  }

  lemma RetryFrame(cfg: Config, s: State, clients: map<NodeId, set<Tag>>, now: Time)
    ensures Frame(s, RetryEpisodeShutdown(cfg, s, clients, now).state, "")
  {
  }

  lemma AckFrame(s: State, id: CommandId, node: NodeId, ack: Ack, now: Time)
    ensures Frame(s, HandleAck(s, id, node, ack, now).state, "")
  {
    var o := HandleAck(s, id, node, ack, now);
    if o != Quiet(s) {
      assert Accepts(s, id, node);
      AcceptedAck(s, id, node, ack, now);
    }
  }

  lemma ReplayFrame(cfg: Config, s: State, node: NodeId, tags: set<Tag>, now: Time)
    ensures Frame(s, ReplayForNode(cfg, s, node, tags, now).state, "")
  {
  }

  lemma ResetFrame(s: State)
    ensures Frame(s, ResetActiveCommand(s).state, "")
  {
  }

  lemma EscalateShape(l: LocalShutdown, c: Command, emergency: Trigger, now: Time)
    requires l.phase == WaitingRemote
    ensures var next := Escalate(l, c, emergency, now);
            next.Some? ==> SameLocal(Some(l), next) && Pending(next.value.phase)
  {
  }

  lemma WaitingFrame(s: State, emergency: Trigger, now: Time)
    requires s.local.Some? && s.local.value.phase == WaitingRemote
    ensures Frame(s, DriveWaitingRemote(s, emergency, now).state, "")
    ensures DriveWaitingRemote(s, emergency, now).state.upsConfirmed == s.upsConfirmed
  {
    var t := DriveWaitingRemote(s, emergency, now).state;
    if s.local.value.commandId in s.commands {
      EscalateShape(s.local.value, s.commands[s.local.value.commandId], emergency, now);
    }
    assert t == s.(local := t.local);
  }

  lemma DriveFrame(s: State, emergency: Trigger, now: Time)
    requires s.local.Some?
    ensures Frame(s, DriveLocal(s, emergency, now).state, "")
    ensures DriveLocal(s, emergency, now).state.upsConfirmed == s.upsConfirmed
  {
    if s.local.value.phase == WaitingRemote {
      WaitingFrame(s, emergency, now);
    } else {
      assert DriveLocal(s, emergency, now).state == s;
    }
  }

  /** The watcher confirms the UPS only in an episode, when it has been silent for the
      whole configured threshold and no reading is awaited after a power-off. */
  ghost predicate WatcherMayConfirm(cfg: Config, s: State, now: Time) {
    && s.episode.Some? && !AwaitingReadingAfterPowerOff(s)
    && cfg.unreachableAfter > 0 && SilentFor(s, now).Some? && SilentFor(s, now).value >= cfg.unreachableAfter
  }

  lemma LocalFrame(cfg: Config, s: State, reading: Option<Reading>, now: Time)
    ensures var t := EvaluateLocalShutdown(cfg, s, reading, now).state;
            Frame(s, t, "") && (t.upsConfirmed ==> s.upsConfirmed || WatcherMayConfirm(cfg, s, now))
  {
    var emergency := EffectiveEmergency(cfg, s, reading, now);
    WatcherCases(cfg, s, reading, now);
    var s1 := Heard(cfg, s, reading, now);
    if s.local.Some? {
      DriveFrame(s1, emergency, now);
    }
    if s.episode.Some? && (s.local.None? || (s.local.value.phase != Running && !LocalBelongsToEpisode(s))) {
      EmergencyFrame(cfg, s1, emergency, now);
    }
  }

  lemma EmergencyFrame(cfg: Config, s: State, emergency: Trigger, now: Time)
    requires s.episode.Some? && (s.local.None? || (s.local.value.phase != Running && !LocalBelongsToEpisode(s)))
    ensures Frame(s, ArmEmergency(cfg, s, emergency, now).state, "")
    ensures ArmEmergency(cfg, s, emergency, now).state.upsConfirmed == s.upsConfirmed
  {
  }

  /** Applying due policies extends what has fired, and nothing else of the outage. */
  ghost predicate Applied(s: State, t: State, id: CommandId) {
    if s.episode.None? then t == s
    else
      && t.episode.Some? && s.episode.value.fired <= t.episode.value.fired
      && Frame(s, t.(episode := Some(t.episode.value.(fired := s.episode.value.fired))), id)
  }

  lemma ApplyFrame(cfg: Config, s: State, names: seq<string>, clients: map<NodeId, set<Tag>>, now: Time,
                   id: CommandId)
    requires id != "" && id !in s.commands
    ensures Applied(s, ApplyPolicyMatch(cfg, s, names, clients, now, id).state, id)
  {
    if s.episode.Some? && s.episode.value.commandId !in s.commands {
      var newlyFired := Unfired(s.episode.value.fired, names);
      CreateFrame(cfg, s, TargetOf(cfg.policies, names), newlyFired, clients, now, id);
    }
  }

  lemma CreateFrame(cfg: Config, s: State, target: Target, newlyFired: seq<string>, clients: map<NodeId, set<Tag>>,
                    now: Time, id: CommandId)
    requires s.episode.Some? && id !in s.commands
    ensures Applied(s, CreateCommand(cfg, s, target, newlyFired, clients, now, id).state, id)
  {
    var s1 := SupersedeManual(s);
    assert RunningKept(s, s1) && s1.commands.Keys == s.commands.Keys;
  }

  // ----- Where a local shutdown without a command, or of the episode's, comes from -----

  /** Only the watcher arms a local shutdown without a command. */
  lemma ApplyArmsForCommand(cfg: Config, s: State, names: seq<string>, clients: map<NodeId, set<Tag>>, now: Time,
                            id: CommandId)
    requires "" !in s.commands && id != ""
    ensures Follows(ApplyPolicyMatch(cfg, s, names, clients, now, id).state, "") ==> Follows(s, "")
  {
  }

  lemma OthersArmForCommand(cfg: Config, s: State, node: NodeId, tags: set<Tag>, clients: map<NodeId, set<Tag>>,
                            r: Request, now: Time, id: CommandId)
    requires "" !in s.commands
    ensures Follows(RetryEpisodeShutdown(cfg, s, clients, now).state, "") ==> Follows(s, "")
    ensures Follows(ReplayForNode(cfg, s, node, tags, now).state, "") ==> Follows(s, "")
    ensures Follows(ResetActiveCommand(s).state, "") ==> Follows(s, "")
    ensures Follows(EndEpisodeOnLinePower(s).state, "") ==> Follows(s, "")
    ensures id != "" ==>
              var t := TriggerShutdown(cfg, s, r, clients, now, id);
              t.Issued? && Follows(t.outcome.state, "") ==> Follows(s, "")
  {
  }

  predicate LiveAutomatic(s: State, id: CommandId) {
    id in s.commands && s.commands[id].auto && !s.commands[id].replayDisabled
  }

  /** While a live automatic command stays live, its local shutdown stays in place. */
  ghost predicate FollowerKept(s: State, t: State) {
    s.local.Some? && LiveAutomatic(s, s.local.value.commandId) && LiveAutomatic(t, s.local.value.commandId) ==>
      SameLocal(s.local, t.local)
  }

  lemma ApplyKeepsFollower(cfg: Config, s: State, names: seq<string>, clients: map<NodeId, set<Tag>>, now: Time,
                           id: CommandId)
    requires Inv(cfg, s) && id !in s.commands
    ensures FollowerKept(s, ApplyPolicyMatch(cfg, s, names, clients, now, id).state)
  {
  }

  lemma LinePowerKeepsFollower(cfg: Config, s: State)
    requires Inv(cfg, s)
    ensures FollowerKept(s, EndEpisodeOnLinePower(s).state)
    ensures FollowerKept(s, ResetActiveCommand(s).state)
  {
  }

  lemma TriggerKeepsFollower(cfg: Config, s: State, r: Request, clients: map<NodeId, set<Tag>>, now: Time,
                             id: CommandId)
    requires Inv(cfg, s)
    ensures var t := TriggerShutdown(cfg, s, r, clients, now, id); t.Issued? ==> FollowerKept(s, t.outcome.state)
  {
  }

  lemma WatcherKeepsFollower(cfg: Config, s: State, reading: Option<Reading>, now: Time)
    requires Inv(cfg, s)
    ensures FollowerKept(s, EvaluateLocalShutdown(cfg, s, reading, now).state)
  {
    WatcherCases(cfg, s, reading, now);
    var s1 := Heard(cfg, s, reading, now);
    assert s1 == s.(upsConfirmed := s1.upsConfirmed);
    if s.local.Some? {
      DriveKeepsFollower(cfg, s1, EffectiveEmergency(cfg, s, reading, now), now);
    }
  }

  lemma DriveKeepsFollower(cfg: Config, s: State, emergency: Trigger, now: Time)
    requires s.local.Some?
    ensures FollowerKept(s, DriveLocal(s, emergency, now).state)
  {
    if s.local.value.phase == WaitingRemote && s.local.value.commandId in s.commands {
      EscalateShape(s.local.value, s.commands[s.local.value.commandId], emergency, now);
    }
  }

  lemma AckKeepsFollower(s: State, id: CommandId, node: NodeId, ack: Ack, now: Time)
    ensures FollowerKept(s, HandleAck(s, id, node, ack, now).state)
    ensures Follows(HandleAck(s, id, node, ack, now).state, "") ==> Follows(s, "")
  {
  }

  lemma EndFrame(s: State)
    ensures var t := EndEpisodeOnLinePower(s).state;
            && t.episode.None?
            && RunningKept(s, t)
            && t.commands.Keys == s.commands.Keys
            && t.ups == s.ups && t.startedAt == s.startedAt && t.upsConfirmed == s.upsConfirmed
            && (t.local.Some? ==> t.local == s.local)
            && (s.episode.None? && AutoLocal(t) ==> AutoLocal(s))
  {
  }

  // ----- What a section may decide about automatic commands -----

  /** An automatic command is only decided for delivery with the UPS confirmed. */
  ghost predicate AutoSendConfirmed(o: Outcome) {
    o.send.Send? && o.send.commandId in o.state.commands && o.state.commands[o.send.commandId].auto ==>
      o.state.upsConfirmed
  }

  lemma DriveSends(s: State, emergency: Trigger, now: Time)
    requires s.local.Some?
    ensures var o := DriveLocal(s, emergency, now);
            && o.state.commands == s.commands
            && (o.send.Send? ==> o.send.commandId == s.local.value.commandId && o.send.commandId in s.commands
                                 && !s.commands[o.send.commandId].replayDisabled)
  {
  }

  lemma WatcherSendsConfirmed(cfg: Config, s: State, reading: Option<Reading>, now: Time)
    requires AutoInv(s.commands, s.episode)
    ensures AutoSendConfirmed(EvaluateLocalShutdown(cfg, s, reading, now))
  {
    var emergency := EffectiveEmergency(cfg, s, reading, now);
    var s1 := if emergency == UpsUnreachable && s.episode.Some? then Confirm(s) else s;
    if s.local.Some? {
      DriveFrame(s1, emergency, now);
      DriveSends(s1, emergency, now);
    }
  }

  lemma OtherSendsConfirmed(cfg: Config, s: State, clients: map<NodeId, set<Tag>>, node: NodeId, tags: set<Tag>,
                            names: seq<string>, r: Request, now: Time, id: CommandId)
    ensures AutoSendConfirmed(RetryEpisodeShutdown(cfg, s, clients, now))
    ensures AutoSendConfirmed(ReplayForNode(cfg, s, node, tags, now))
    ensures s.upsConfirmed ==> AutoSendConfirmed(ApplyPolicyMatch(cfg, s, names, clients, now, id))
    ensures var t := TriggerShutdown(cfg, s, r, clients, now, id); t.Issued? ==> AutoSendConfirmed(t.outcome)
  {
  }

  /** The watcher decides to start an automatic local shutdown only with the UPS
      confirmed, unless the UPS is silent outside an episode. */
  lemma WatcherStartsConfirmed(cfg: Config, s: State, reading: Option<Reading>, now: Time)
    ensures var o := EvaluateLocalShutdown(cfg, s, reading, now);
            o.begin.Begin? && AutoLocal(o.state) ==>
              o.state.upsConfirmed || (s.episode.None? && AutoLocal(s) && SilentFor(s, now).Some?)
  {
    var emergency := EffectiveEmergency(cfg, s, reading, now);
    var s1 := if emergency == UpsUnreachable && s.episode.Some? then Confirm(s) else s;
    if s.local.Some? {
      DriveFrame(s1, emergency, now);
    }
  }
}
