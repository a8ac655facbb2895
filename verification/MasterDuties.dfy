/** What each critical section of the master must do, told in terms of nodes, their reports,
    requests, readings and times: when it acts and when it does not. The statements are about
    every state with the invariant, so about every reachable one. */
module MasterDuties {
  import opened Types
  import opened Policy
  import opened MasterState
  import opened MasterInvariant
  import opened MasterFrame
  import opened MasterTheorems

  // ----- Nodes -----

  /** The node has reported that it shut down, or would have. */
  predicate Succeeded(c: Command, node: NodeId) { HasStatus(c, node, Executed) || HasStatus(c, node, Simulated) }

  /** The node has finished one way or the other, by its own report. */
  predicate Finished(c: Command, node: NodeId) { Succeeded(c, node) || HasStatus(c, node, Failed) }

  /** The node has finished, or the master has given it up. */
  predicate Settled(c: Command, node: NodeId) { Finished(c, node) || HasStatus(c, node, Timeout) }

  ghost predicate AllSettled(c: Command) { c.tracked.Keys != {} && forall node :: node in c.tracked ==> Settled(c, node) }

  lemma Classes(c: Command)
    ensures CommandComplete(c) <==> AllSettled(c)
    ensures RemoteShutdownFinished(c) <==> EveryNodeFinished(c)
    ensures forall node :: node in ReplayableNodes(c) <==> node in c.tracked && !c.replayDisabled && !Succeeded(c, node)
  {
  }

  // ----- An operator's command -----

  /** A request that names neither nodes nor tags is for every node; otherwise it is for the
      nodes it names, by id or by tag. */
  predicate Addresses(r: Request, node: NodeId, tags: set<Tag>) {
    || (r.nodeIds == {} && r.tags == {})
    || node in r.nodeIds
    || exists tag :: tag in tags && tag in r.tags
  }

  /** How long the command may take, if the request is allowed to ask for it. */
  function Allowance(cfg: Config, r: Request): Option<int> {
    match r.timeoutSeconds
    case None => Some(cfg.commandTimeout)
    case Some(seconds) =>
      if seconds <= 0 then Some(cfg.commandTimeout)
      else if seconds <= 86400 then Some(seconds * 1_000_000_000) else None
  }

  /** Nothing keeps the master from waiting for a new command to all nodes: no local shutdown
      is running, and none was armed by an emergency of the episode alone. */
  predicate FreeToWait(cfg: Config, s: State) {
    cfg.localEnabled &&
    (s.local.None? || (s.local.value.phase != Running && !(s.local.value.commandId == "" && s.episode.Some?)))
  }

  function Waiting(cfg: Config, id: CommandId, dryRun: bool, now: Time): LocalShutdown {
    LocalShutdown(WaitingRemote, id, now, Some(now + cfg.maxWait), NoTrigger, None, dryRun, NO_GROUNDS)
  }

  /** A request is granted exactly when its timeout is allowed, some connected client is
      addressed and no command is active. */
  lemma RequestGranted(cfg: Config, s: State, r: Request, clients: map<NodeId, set<Tag>>, now: Time, id: CommandId)
    ensures var t := TriggerShutdown(cfg, s, r, clients, now, id);
            && (t.Issued? <==>
                  && Allowance(cfg, r).Some?
                  && (exists node :: node in clients && Addresses(r, node, clients[node]))
                  && s.active == "")
            && (t == Refused(TimeoutTooLong) <==> Allowance(cfg, r).None?)
            && (t == Refused(NoTargets) <==>
                  Allowance(cfg, r).Some? && forall node :: node in clients ==> !Addresses(r, node, clients[node]))
  {
    var selected := SelectTargets(clients, RequestTarget(r)).Keys;
    assert forall node :: node in selected <==> node in clients && Addresses(r, node, clients[node]);
  }

  /** What is granted: a manual command that tracks, and is sent to, exactly the connected
      clients addressed, with the request's dry-run flag and timeout or else the
      configuration's. The master waits for it exactly when the request is for every node
      and nothing stands in the way. */
  lemma RequestCarriedOut(cfg: Config, s: State, r: Request, clients: map<NodeId, set<Tag>>, now: Time, id: CommandId)
    requires Inv(cfg, s) && id != "" && id !in s.commands && "" !in clients
    requires TriggerShutdown(cfg, s, r, clients, now, id).Issued?
    ensures var o := TriggerShutdown(cfg, s, r, clients, now, id).outcome;
            && id in o.state.commands && o.state.active == id
            && var c := o.state.commands[id];
               && (forall node :: node in c.tracked <==> node in clients && Addresses(r, node, clients[node]))
               && (forall node, tags :: Matches(c.target, node, tags) <==> Addresses(r, node, tags))
               && (c.target.all <==> r.nodeIds == {} && r.tags == {})
               && c.dryRun == (if r.dryRun.Some? then r.dryRun.value else cfg.dryRun)
               && Allowance(cfg, r).Some? && c.timeoutAt == Some(now + Allowance(cfg, r).value)
               && !c.auto && !c.replayDisabled && c.updates == map[] && c.completedAt.None?
               && o.send == Send(id, c.dryRun, c.tracked.Keys) && o.begin == NoBegin && o.saved
               && o.state == s.(commands := s.commands[id := c], active := id, shutdownIssued := true, local := o.state.local)
               && o.state.local == if r.nodeIds == {} && r.tags == {} && FreeToWait(cfg, s)
                                   then Some(Waiting(cfg, id, c.dryRun, now)) else s.local
  {
    var o := TriggerShutdown(cfg, s, r, clients, now, id).outcome;
    var c := o.state.commands[id];
    assert c.tracked.Keys == SelectTargets(clients, RequestTarget(r)).Keys;
  }

  // ----- The episode's command -----

  /** Some policy among the named ones is for the node. */
  ghost predicate Wanted(cfg: Config, names: seq<string>, node: NodeId, tags: set<Tag>) {
    exists i :: NamedAmong(cfg.policies, names, |cfg.policies|, i) && Matches(cfg.policies[i].target, node, tags)
  }

  ghost predicate WantsAll(cfg: Config, names: seq<string>) {
    exists i :: NamedAmong(cfg.policies, names, |cfg.policies|, i) && cfg.policies[i].target.all
  }

  lemma WantedIsTarget(cfg: Config, names: seq<string>)
    ensures forall node, tags :: Matches(TargetOf(cfg.policies, names), node, tags) <==> Wanted(cfg, names, node, tags)
    ensures TargetOf(cfg.policies, names).all <==> WantsAll(cfg, names)
  {
    GatherMeaning(cfg.policies, names, |cfg.policies|);
    forall node, tags
      ensures Matches(TargetOf(cfg.policies, names), node, tags) <==> Wanted(cfg, names, node, tags)
    {
      TargetMatchesSomePolicy(cfg.policies, names, node, tags);
    }
  }

  /** The local shutdown once the operator's active command has given way: one that follows
      it and has not got as far as running is gone. */
  function Superseded(s: State): Option<LocalShutdown> {
    if s.active != "" && Follows(s, s.active) && s.local.value.phase != Running && s.local.value.phase != Completed
    then None else s.local
  }

  /** The first policies to fire create a command of the configuration's dry-run flag and
      timeout, which tracks and is sent to exactly the connected clients that one of them
      is for. The master waits for it exactly when one of them is for every node and
      nothing stands in the way. */
  lemma FiringCreates(cfg: Config, s: State, names: seq<string>, clients: map<NodeId, set<Tag>>, now: Time, id: CommandId)
    requires Inv(cfg, s) && s.episode.Some? && s.episode.value.commandId == ""
    requires names != [] && Unfired(s.episode.value.fired, names) == names
    requires id != "" && id !in s.commands && "" !in clients
    ensures var o := ApplyPolicyMatch(cfg, s, names, clients, now, id);
            && id in o.state.commands && o.state.active == id && o.state.episode.Some?
            && o.state.episode.value.commandId == id
            && var c := o.state.commands[id];
               && (forall node :: node in c.tracked <==> node in clients && Wanted(cfg, names, node, clients[node]))
               && (forall node, tags :: Matches(c.target, node, tags) <==> Wanted(cfg, names, node, tags))
               && c.auto && !c.replayDisabled && c.dryRun == cfg.dryRun && c.timeoutAt == Some(now + cfg.commandTimeout)
               && c.updates == map[] && c.completedAt.None?
               && o.send == Send(id, cfg.dryRun, c.tracked.Keys) && o.begin == NoBegin && o.saved
               && o.state.lastNodeRetryAt == Some(now)
               && o.state.local == if WantsAll(cfg, names) && FreeToWait(cfg, s)
                                   then Some(Waiting(cfg, id, cfg.dryRun, now)) else Superseded(s)
  {
    WantedIsTarget(cfg, names);
    var target := TargetOf(cfg.policies, names);
    assert SelectTargets(clients, target) - {""} == SelectTargets(clients, target);
    Creates(cfg, s, target, names, clients, now, id);
  }

  lemma Creates(cfg: Config, s: State, target: Target, names: seq<string>, clients: map<NodeId, set<Tag>>, now: Time,
                id: CommandId)
    requires Inv(cfg, s) && s.episode.Some? && s.episode.value.commandId == "" && id != "" && id !in s.commands
    ensures var o := CreateCommand(cfg, s, target, names, clients, now, id);
            && o.state.local == (if target.all && FreeToWait(cfg, s) then Some(Waiting(cfg, id, cfg.dryRun, now))
                                 else Superseded(s))
            && o.state.commands[id] == NewCommand(target, cfg.dryRun, clients, now + cfg.commandTimeout, true)
  {
    assert s.active != "" ==> s.active in s.commands && !s.commands[s.active].auto;
  }

  /** Deadlines are only ever moved back, to the full timeout from now. */
  predicate Extended(cfg: Config, before: Option<Time>, after: Option<Time>, now: Time) {
    && after.Some? && after.value >= now + cfg.commandTimeout
    && (after.value == now + cfg.commandTimeout || after == before)
    && (before.Some? ==> after.value >= before.value)
  }

  /** Later policies widen the command: it is sent to exactly the connected clients that it
      is for now and did not track, and they get the full timeout. The master starts to wait
      exactly when the command becomes one for every node, and nothing stands in the way. */
  lemma FiringWidens(cfg: Config, s: State, names: seq<string>, clients: map<NodeId, set<Tag>>, now: Time, id: CommandId)
    requires Inv(cfg, s) && s.episode.Some? && s.episode.value.commandId != ""
    requires names != [] && Unfired(s.episode.value.fired, names) == names
    ensures var o := ApplyPolicyMatch(cfg, s, names, clients, now, id);
            var eid := s.episode.value.commandId;
            && eid in s.commands && eid in o.state.commands
            && var was, c := s.commands[eid], o.state.commands[eid];
               && (forall node, tags :: Matches(c.target, node, tags) <==>
                     Matches(was.target, node, tags) || Wanted(cfg, names, node, tags))
               && o.send.Send? && o.send.commandId == eid && o.send.dryRun == was.dryRun && o.begin == NoBegin && o.saved
               && (forall node :: node in o.send.nodes <==>
                     node in clients && node !in was.tracked && Matches(c.target, node, clients[node]))
               && (forall node :: node in c.tracked <==> node in was.tracked || node in o.send.nodes)
               && (if o.send.nodes != {} then c.completedAt.None? && Extended(cfg, was.timeoutAt, c.timeoutAt, now)
                   else c.timeoutAt == was.timeoutAt && c.completedAt == was.completedAt)
               && o.state.local == if WantsAll(cfg, names) && !was.target.all && FreeToWait(cfg, s) && !Follows(s, eid)
                                   then Some(Waiting(cfg, eid, was.dryRun, now)) else s.local
  {
    WantedIsTarget(cfg, names);
    var was := s.commands[s.episode.value.commandId];
    var target := TargetOf(cfg.policies, names);
    forall node, tags
      ensures Matches(MergeTargets(was.target, target), node, tags) <==>
              Matches(was.target, node, tags) || Matches(target, node, tags)
    {
      MergeMatchesEither(was.target, target, node, tags);
    }
  }

  /** The watcher sends the episode's command again, at most every 30 seconds and once the UPS
      is confirmed, to exactly the nodes that failed or timed out and the connected clients
      that it is for and does not track yet; the command gets the full timeout. */
  lemma RetryReaches(cfg: Config, s: State, clients: map<NodeId, set<Tag>>, now: Time)
    requires Inv(cfg, s)
    ensures var o := RetryEpisodeShutdown(cfg, s, clients, now);
            && (o.send.Send? <==>
                  && s.episode.Some? && s.episode.value.commandId != "" && s.upsConfirmed
                  && (s.lastNodeRetryAt.Some? ==> now >= s.lastNodeRetryAt.value + 30_000_000_000)
                  && exists node :: NeedsRetry(s.commands[s.episode.value.commandId], clients, node))
            && (o.send.NoSend? ==> o == Quiet(s))
            && (o.send.Send? ==>
                  var eid := s.episode.value.commandId;
                  && eid in o.state.commands && o.send.commandId == eid
                  && var was, c := s.commands[eid], o.state.commands[eid];
                     && o.send.dryRun == was.dryRun && o.begin == NoBegin && o.saved
                     && (forall node :: node in o.send.nodes <==> NeedsRetry(was, clients, node))
                     && (forall node :: node in c.tracked <==> node in was.tracked || node in o.send.nodes)
                     && c.completedAt.None? && Extended(cfg, was.timeoutAt, c.timeoutAt, now)
                     && c.updates == was.updates && o.state.lastNodeRetryAt == Some(now))
  {
    if s.episode.Some? && s.episode.value.commandId != "" {
      RetryCommand(cfg, s.commands[s.episode.value.commandId], clients, now);
    }
  }

  lemma RetryCommand(cfg: Config, was: Command, clients: map<NodeId, set<Tag>>, now: Time)
    ensures forall node :: node in RetryNodes(was, clients) <==> NeedsRetry(was, clients, node)
    ensures var c := Reopen(cfg, Adopt(cfg, was, clients, now), now);
            && (forall node :: node in c.tracked <==> node in was.tracked || NeedsRetry(was, clients, node))
            && c.completedAt.None? && Extended(cfg, was.timeoutAt, c.timeoutAt, now) && c.updates == was.updates
  {
  }

  /** The node failed or timed out, or is connected, addressed and not tracked yet. */
  predicate NeedsRetry(c: Command, clients: map<NodeId, set<Tag>>, node: NodeId) {
    || (node in c.tracked && (HasStatus(c, node, Failed) || HasStatus(c, node, Timeout)))
    || (node in clients && node !in c.tracked && Matches(c.target, node, clients[node]))
  }

  // ----- Reports and timeouts -----

  /** A report counts exactly when it is of a kind that slaves report, for a node of the
      command that has not succeeded. The command then completes exactly when every node is
      settled; the operator's is released exactly when every node has finished; and the
      local shutdown that waits for it is started exactly when every node has finished. */
  lemma ReportTaken(s: State, id: CommandId, node: NodeId, ack: Ack, now: Time)
    ensures var o := HandleAck(s, id, node, ack, now);
            var counts := (ack.status == Accepted || ack.status == Executing || ack.status == Executed ||
                           ack.status == Simulated || ack.status == Failed)
                          && id in s.commands && node in s.commands[id].tracked && !Succeeded(s.commands[id], node);
            && (!counts ==> o == Quiet(s))
            && (counts ==>
                  && id in o.state.commands && o.saved && o.send == NoSend
                  && var was, c := s.commands[id], o.state.commands[id];
                     && c == was.(updates := was.updates[node := ack], completedAt := c.completedAt)
                     && c.completedAt == (if AllSettled(c) then Some(now) else was.completedAt)
                     && o.state == s.(commands := s.commands[id := c], active := o.state.active,
                                      shutdownIssued := o.state.shutdownIssued, local := o.state.local)
                     && (if s.active == id && !c.auto && EveryNodeFinished(c)
                         then o.state.active == "" && !o.state.shutdownIssued
                         else o.state.active == s.active && o.state.shutdownIssued == s.shutdownIssued)
                     && (if Follows(s, id) && s.local.value.phase == WaitingRemote && EveryNodeFinished(c)
                         then o.begin == Begin(id, RemoteComplete) && Follows(o.state, id)
                              && o.state.local.value.trigger == RemoteComplete
                         else o.begin == NoBegin && o.state.local == s.local))
  {
    if Accepts(s, id, node) && Classify(ack.status).reportable {
      var was := s.commands[id];
      AckMeaning(was.(updates := was.updates[node := ack]));
      AckMeaning(WithAck(was, node, ack, now));
    }
  }

  lemma AckMeaning(c: Command)
    ensures CommandComplete(c) <==> AllSettled(c)
    ensures RemoteShutdownFinished(c) <==> EveryNodeFinished(c)
    ensures ReleasedBy(c) <==> !c.auto && EveryNodeFinished(c)
  {
    Classes(c);
    if EveryNodeFinished(c) {
      assert forall node :: node in c.tracked ==> !HasStatus(c, node, Timeout);
    }
  }

  /** The command's time is up. */
  predicate Overdue(c: Command, now: Time) { c.completedAt.None? && c.timeoutAt.Some? && now >= c.timeoutAt.value }

  /** What the scan makes of a command: exactly its unsettled nodes time out, if it is
      overdue; it then completes, unless it has no nodes. */
  ghost predicate TimedOutAt(was: Command, c: Command, now: Time) {
    && c == was.(updates := c.updates, completedAt := c.completedAt)
    && (forall node :: node in c.updates <==> node in was.updates || (Overdue(was, now) && node in was.tracked))
    && (forall node :: node in c.updates ==>
          c.updates[node] == if Overdue(was, now) && node in was.tracked && !Settled(was, node)
                             then Ack(Timeout, now) else was.updates[node])
    && c.completedAt == if Overdue(was, now) && was.tracked.Keys != {} then Some(now) else was.completedAt
  }

  lemma SettledByStatus(c: Command, node: NodeId)
    requires node in c.updates
    ensures Settled(c, node) <==> Classify(c.updates[node].status).complete
  {
  }

  lemma OverdueNode(was: Command, now: Time, node: NodeId)
    ensures var c := WithTimeouts(was, now);
            && (node in c.updates <==> node in was.updates || node in was.tracked)
            && (node in c.updates ==>
                  c.updates[node] == if node in was.tracked && !Settled(was, node) then Ack(Timeout, now)
                                     else was.updates[node])
            && (node in was.tracked ==> Settled(c, node) && (Finished(c, node) <==> Finished(was, node)))
  {
    if node in was.updates {
      SettledByStatus(was, node);
    }
  }

  lemma OverdueNodes(was: Command, now: Time)
    ensures var c := WithTimeouts(was, now);
            (AllSettled(c) <==> was.tracked.Keys != {}) && (EveryNodeFinished(c) <==> EveryNodeFinished(was))
  {
    var c := WithTimeouts(was, now);
    forall node | node in was.tracked
      ensures Settled(c, node) && (Finished(c, node) <==> Finished(was, node))
    {
      OverdueNode(was, now, node);
    }
    assert EveryNodeFinished(c) <==> c.tracked.Keys != {} && forall node :: node in c.tracked ==> Finished(c, node);
    assert EveryNodeFinished(was) <==> was.tracked.Keys != {} && forall node :: node in was.tracked ==> Finished(was, node);
  }

  lemma CommandTimesOut(was: Command, now: Time)
    ensures TimedOutAt(was, TimeOut(was, now), now)
    ensures TimeoutReleases(was, now) <==> Overdue(was, now) && !was.auto && EveryNodeFinished(was)
  {
    if Overdue(was, now) {
      AckMeaning(WithTimeouts(was, now));
      OverdueNodes(was, now);
      forall node
        ensures var c := WithTimeouts(was, now);
                && (node in c.updates <==> node in was.updates || node in was.tracked)
                && (node in c.updates ==>
                      c.updates[node] == if node in was.tracked && !Settled(was, node) then Ack(Timeout, now)
                                         else was.updates[node])
      {
        OverdueNode(was, now, node);
      }
    }
  }

  /** At every scan exactly the unsettled nodes of the overdue commands time out, and the
      operator's active command is released exactly when it is overdue and every node has
      finished. */
  lemma ScanTimesOut(s: State, now: Time, dropped: set<CommandId>)
    ensures var t := MarkTimedOutCommands(s, now, dropped).state;
            && (forall id :: id in t.commands <==> id in s.commands && id !in dropped)
            && (forall id :: id in t.commands ==> TimedOutAt(s.commands[id], t.commands[id], now))
            && (if s.active in s.commands && Overdue(s.commands[s.active], now) && !s.commands[s.active].auto
                   && EveryNodeFinished(s.commands[s.active])
                then t.active == "" && !t.shutdownIssued
                else t.active == s.active && t.shutdownIssued == s.shutdownIssued)
            && t.local == s.local && t.episode == s.episode
  {
    forall id | id in s.commands
      ensures TimedOutAt(s.commands[id], TimeOut(s.commands[id], now), now)
    {
      CommandTimesOut(s.commands[id], now);
    }
    if s.active in s.commands {
      CommandTimesOut(s.commands[s.active], now);
    }
  }

  /** A node that connects is sent the active command exactly when it is, or becomes, one of
      its nodes and has not succeeded; it becomes one when the command is for it. An
      automatic command is held back until the UPS is confirmed. */
  lemma ReconnectReplays(cfg: Config, s: State, node: NodeId, tags: set<Tag>, now: Time)
    requires Inv(cfg, s)
    ensures var o := ReplayForNode(cfg, s, node, tags, now);
            if s.active == "" || (s.commands[s.active].auto && !s.upsConfirmed) then o == Quiet(s)
            else
              && s.active in o.state.commands
              && var was, c := s.commands[s.active], o.state.commands[s.active];
                 && o.state == s.(commands := s.commands[s.active := c]) && o.begin == NoBegin
                 && (forall n :: n in c.tracked <==> n in was.tracked || (n == node && Matches(was.target, node, tags)))
                 && c == was.(tracked := c.tracked, completedAt := c.completedAt, timeoutAt := c.timeoutAt)
                 && (if node in c.tracked && node !in was.tracked
                     then o.saved && c.completedAt.None? && Extended(cfg, was.timeoutAt, c.timeoutAt, now)
                     else c == was && !o.saved)
                 && o.send == if node in c.tracked && !Succeeded(was, node) then Send(s.active, was.dryRun, {node}) else NoSend
  {
  }

  /** Line power releases the operator's active command exactly when every node is settled. */
  lemma LinePowerReleases(cfg: Config, s: State)
    requires Inv(cfg, s) && s.active != "" && !s.commands[s.active].auto
    ensures var t := EndEpisodeOnLinePower(s).state;
            && (t.active == "" <==> AllSettled(s.commands[s.active]))
            && (t.active != "" ==> t.active == s.active)
  {
    Classes(s.commands[s.active]);
  }

  // ----- The episode, and a reset -----

  /** A battery reading opens an episode at its time exactly when there is none; nothing has
      fired in it. */
  lemma BatteryOpens(s: State, at: Time)
    ensures var o := StartEpisode(s, at);
            if s.episode.Some? then o == Quiet(s)
            else
              && o.saved && o.send == NoSend && o.begin == NoBegin && o.state.episode.Some?
              && o.state == s.(episode := o.state.episode)
              && o.state.episode.value.startedAt == at && o.state.episode.value.fired == []
              && o.state.episode.value.commandId == "" && !o.state.episode.value.masterPoweredOff
              && o.state.episode.value.matchSince == map[] && o.state.episode.value.seen == []
  {
  }

  /** These commands are disabled, and all others left alone. */
  ghost predicate DisablesJust(s: State, t: State, ids: set<CommandId>) {
    && t.commands.Keys == s.commands.Keys
    && forall id :: id in s.commands ==>
         t.commands[id] == if id in ids then s.commands[id].(replayDisabled := true) else s.commands[id]
  }

  /** What line power does to an episode: its command is disabled and no longer active, its
      local shutdown is dropped unless it is running, and it is over. */
  lemma LinePowerEnds(cfg: Config, s: State)
    requires Inv(cfg, s) && s.episode.Some?
    ensures var o := EndEpisodeOnLinePower(s);
            var id := s.episode.value.commandId;
            && o.saved && o.send == NoSend && o.begin == NoBegin && o.state.episode.None?
            && DisablesJust(s, o.state, {id})
            && (id != "" ==> o.state.active == "" && !o.state.shutdownIssued)
            && o.state.local == (if s.local.Some? && s.local.value.phase != Running
                                    && (s.local.value.commandId == id || s.local.value.commandId == "")
                                 then None else s.local)
            && o.state == s.(commands := o.state.commands, active := o.state.active, episode := None,
                             shutdownIssued := o.state.shutdownIssued, local := o.state.local)
  {
  }

  /** What a reset does: the active command and the episode's are disabled and no command is
      active; a local shutdown is dropped unless it is running; an episode goes on, with what
      has fired in it, but without a command. */
  lemma ResetEnds(cfg: Config, s: State)
    requires Inv(cfg, s)
    ensures var o := ResetActiveCommand(s);
            && o.saved && o.send == NoSend && o.begin == NoBegin
            && DisablesJust(s, o.state, {s.active} + if s.episode.Some? then {s.episode.value.commandId} else {})
            && o.state.active == "" && !o.state.shutdownIssued
            && o.state.local == (if IsRunning(s) then s.local else None)
            && o.state.episode == (if s.episode.Some? then Some(s.episode.value.(commandId := "")) else None)
            && o.state == s.(commands := o.state.commands, active := "", shutdownIssued := false,
                             local := o.state.local, episode := o.state.episode)
  {
  }
}
