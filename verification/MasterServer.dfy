/** The master's server object: each method is one `commandMu` critical section,
    performed in place, and is proved to do what the function of the same name in
    MasterState does. */
module MasterServer {
  import opened Types
  import opened Policy
  import opened MasterState
  import Retention

  class Server {
    const cfg: Config
    var commands: map<CommandId, Command>
    var active: CommandId
    var shutdownIssued: bool
    var episode: Option<Episode>
    var local: Option<LocalShutdown>
    var upsConfirmed: bool
    var lastNodeRetryAt: Option<Time>
    var ups: UpsView
    var startedAt: Time

    function St(): State
      reads this
    {
      State(commands, active, shutdownIssued, episode, local, upsConfirmed, lastNodeRetryAt, ups, startedAt)
    }

    /** A new process loads the state file. */
    constructor (cfg: Config, snap: Snapshot, at: Time)
      ensures this.cfg == cfg && St() == Load(cfg, snap, at)
    {
      this.cfg := cfg;
      commands, active, episode := snap.commands, snap.active, snap.episode;
      shutdownIssued := snap.active != "";
      upsConfirmed, lastNodeRetryAt, ups, startedAt := false, None, UpsView(None, None, None), at;
      var restored := PersistedLocal(snap.local);
      if !cfg.localEnabled || restored.None? {
        restored := None;
      } else if restored.value.commandId == "" {
        if snap.episode.None? || snap.episode.value.commandId != "" {
          restored := None;
        }
      } else if restored.value.commandId !in snap.commands || snap.commands[restored.value.commandId].replayDisabled {
        restored := None;
      }
      local := restored;
    }

    // ----- Episode -----

    method StartEpisodeIfNeeded(at: Time) returns (saved: bool)
      modifies this
      ensures Outcome(St(), saved, NoSend, NoBegin) == StartEpisode(old(St()), at)
    {
      if episode.Some? {
        return false;
      }
      episode := Some(Episode(at, "", [], false, map[], 0, []));
      return true;
    }

    method EndEpisodeOnLinePower() returns (saved: bool)
      modifies this
      ensures Outcome(St(), saved, NoSend, NoBegin) == MasterState.EndEpisodeOnLinePower(old(St()))
    {
      saved := false;
      if episode.Some? {
        var commandId := episode.value.commandId;
        var belongs := LocalBelongsToEpisode(St());
        if commandId in commands {
          commands := commands[commandId := commands[commandId].(replayDisabled := true)];
          if active == commandId {
            active := "";
            shutdownIssued := false;
          }
        }
        if belongs && local.value.phase != Running {
          local := None;
        }
        episode := None;
        saved := true;
      }
      if active != "" {
        if active in commands && !commands[active].auto && CommandComplete(commands[active]) {
          active := "";
          shutdownIssued := false;
          saved := true;
        }
      }
    }

    /** Decides which policies are due at a poll; `reading` is None when it failed. */
    method EvaluateEpisodePolicies(reading: Option<Reading>, now: Time) returns (vouched: bool, due: seq<string>)
      modifies this
      ensures Verdict(St(), vouched, due) == EvaluatePolicies(cfg, old(St()), reading, now)
    {
      vouched, due := false, [];
      var silentFor := 0;
      if reading.None? {
        var silent := SilentFor(St(), now);
        if silent.None? {
          return;
        }
        silentFor := silent.value;
      }
      if episode.None? || (reading.None? && AwaitingReadingAfterPowerOff(St())) {
        return;
      }
      var e := episode.value;
      var matchSince := e.matchSince;
      for i := 0 to |cfg.policies|
        invariant Scan(matchSince, due, vouched) == ScanPolicies(cfg.policies, i, e, reading, silentFor, now)
        invariant unchanged(this)
      {
        var p := cfg.policies[i];
        var fired := p.name in e.fired;
        if p.unreachableFor > 0 {
          if reading.None? && silentFor >= p.unreachableFor {
            vouched := true;
            if !fired {
              due := due + [p.name];
            }
          }
        } else if !fired && reading.Some? {
          if !PolicyMatches(reading.value, p) {
            matchSince := matchSince - {p.name};
          } else {
            var since := now;
            if p.name in matchSince {
              since := matchSince[p.name];
            }
            matchSince := matchSince[p.name := since];
            if now - since >= p.duration {
              due := due + [p.name];
            }
          }
        }
      }
      var seen := if reading.Some? then e.seen + [Observation(reading.value, now)] else e.seen;
      episode := Some(e.(matchSince := matchSince, seen := seen));
    }

    method SupersedeManualCommand()
      modifies this
      ensures St() == SupersedeManual(old(St()))
    {
      if active !in commands || commands[active].auto {
        return;
      }
      commands := commands[active := commands[active].(replayDisabled := true)];
      if local.Some? && local.value.commandId == active && !LocalTerminal(local.value.phase) {
        local := None;
      }
      active := "";
    }

    method ReopenCommand(id: CommandId, now: Time)
      requires id in commands
      modifies this`commands
      ensures commands == old(commands)[id := Reopen(cfg, old(commands)[id], now)]
    {
      var c := commands[id];
      c := c.(completedAt := None);
      var timeoutAt := now + cfg.commandTimeout;
      if c.timeoutAt.None? || c.timeoutAt.value < timeoutAt {
        c := c.(timeoutAt := Some(timeoutAt));
      }
      commands := commands[id := c];
    }

    /** Adds every connected client that matches the command and is not tracked yet. */
    method AdoptMatchingClients(id: CommandId, clients: map<NodeId, set<Tag>>, now: Time)
      returns (adopted: set<NodeId>)
      requires id in commands
      modifies this`commands
      ensures commands == old(commands)[id := Adopt(cfg, old(commands)[id], clients, now)]
      ensures adopted == Untracked(old(commands)[id], clients).Keys
    {
      var c := commands[id];
      var selected := SelectTargets(clients, c.target);
      var tracked := c.tracked;
      adopted := {};
      var pending := selected.Keys;
      while pending != {}
        invariant pending <= selected.Keys
        invariant adopted == (selected.Keys - pending) - c.tracked.Keys
        invariant tracked == c.tracked + (map node | node in adopted :: selected[node])
        decreases pending
      {
        var node :| node in pending;
        if node !in tracked {
          tracked := tracked[node := selected[node]];
          adopted := adopted + {node};
        }
        pending := pending - {node};
      }
      assert (map node | node in adopted :: selected[node]) == Untracked(c, clients);
      if adopted != {} {
        commands := commands[id := c.(tracked := tracked)];
        ReopenCommand(id, now);
      } else {
        assert commands[id := c] == commands;
      }
    }

    method ArmLocalShutdown(id: CommandId, now: Time)
      requires id in commands
      modifies this`local
      ensures local == Arm(cfg, old(St()), id, commands[id], now)
    {
      if !cfg.localEnabled || !commands[id].target.all {
        return;
      }
      if local.Some? && (local.value.phase == Running || local.value.commandId == id ||
                         (local.value.commandId == "" && episode.Some?)) {
        return;
      }
      local := Some(LocalShutdown(WaitingRemote, id, now, Some(now + cfg.maxWait), NoTrigger, None, commands[id].dryRun,
                                  NO_GROUNDS));
    }

    method NewlyFired(fired: seq<string>, names: seq<string>) returns (r: seq<string>)
      ensures r == Unfired(fired, names)
    {
      r := [];
      for i := 0 to |names|
        invariant r == Unfired(fired, names[..i])
      {
        assert names[..i + 1][..i] == names[..i];
        if names[i] !in fired {
          r := r + [names[i]];
        }
      }
      assert names[..|names|] == names;
    }

    /** `id` is the fresh id for a command that may have to be created. */
    method ApplyPolicyMatch(names: seq<string>, clients: map<NodeId, set<Tag>>, now: Time, id: CommandId)
      returns (saved: bool, send: Send)
      modifies this
      ensures Outcome(St(), saved, send, NoBegin) == MasterState.ApplyPolicyMatch(cfg, old(St()), names, clients, now, id)
    {
      if episode.None? {
        return false, NoSend;
      }
      var fired := NewlyFired(episode.value.fired, names);
      if fired == [] {
        return false, NoSend;
      }
      var target := BuildPolicyMatch(cfg.policies, names);
      if episode.value.commandId in commands {
        send := WidenEpisodeCommand(target, fired, clients, now);
      } else {
        send := CreateEpisodeCommand(target, fired, clients, now, id);
      }
      saved := true;
    }

    method WidenEpisodeCommand(target: Target, fired: seq<string>, clients: map<NodeId, set<Tag>>, now: Time)
      returns (send: Send)
      requires episode.Some? && episode.value.commandId in commands
      modifies this
      ensures Outcome(St(), true, send, NoBegin) == WidenCommand(cfg, old(St()), target, fired, clients, now)
    {
      var e := episode.value;
      var id := e.commandId;
      var wasAll := commands[id].target.all;
      commands := commands[id := commands[id].(target := MergeTargets(commands[id].target, target))];
      var adopted := AdoptMatchingClients(id, clients, now);
      if !wasAll && commands[id].target.all {
        ArmLocalShutdown(id, now);
      }
      episode := Some(e.(fired := e.fired + fired));
      shutdownIssued := true;
      send := Send(id, commands[id].dryRun, adopted);
      assert commands == old(commands)[id := commands[id]];
    }

    method CreateEpisodeCommand(target: Target, fired: seq<string>, clients: map<NodeId, set<Tag>>, now: Time,
                                id: CommandId)
      returns (send: Send)
      requires episode.Some?
      modifies this
      ensures Outcome(St(), true, send, NoBegin) == CreateCommand(cfg, old(St()), target, fired, clients, now, id)
    {
      var e := episode.value;
      SupersedeManualCommand();
      commands := commands[id := NewCommand(target, cfg.dryRun, clients, now + cfg.commandTimeout, true)];
      active := id;
      lastNodeRetryAt := Some(now);
      ArmLocalShutdown(id, now);
      episode := Some(e.(commandId := id, commandFrom := |e.fired|, fired := e.fired + fired));
      shutdownIssued := true;
      send := Send(id, cfg.dryRun, SelectTargets(clients, target).Keys);
    }

    method RetryEpisodeShutdown(clients: map<NodeId, set<Tag>>, now: Time) returns (saved: bool, send: Send)
      modifies this
      ensures Outcome(St(), saved, send, NoBegin) == MasterState.RetryEpisodeShutdown(cfg, old(St()), clients, now)
    {
      if episode.None? || !upsConfirmed ||
         (lastNodeRetryAt.Some? && now - lastNodeRetryAt.value < RETRY_INTERVAL) {
        return false, NoSend;
      }
      var id := episode.value.commandId;
      if id !in commands || commands[id].replayDisabled {
        return false, NoSend;
      }
      var nodeIds := CollectRetryNodes(id, clients, now);
      if nodeIds == {} {
        return false, NoSend;
      }
      lastNodeRetryAt := Some(now);
      ReopenCommand(id, now);
      return true, Send(id, commands[id].dryRun, nodeIds);
    }

    /** The nodes to send the command again: unfinished ones, and those adopted now. */
    method CollectRetryNodes(id: CommandId, clients: map<NodeId, set<Tag>>, now: Time) returns (nodeIds: set<NodeId>)
      requires id in commands
      modifies this`commands
      ensures nodeIds == RetryNodes(old(commands)[id], clients)
      ensures commands == old(commands)[id := Adopt(cfg, old(commands)[id], clients, now)]
      ensures nodeIds == {} ==> commands == old(commands)
    {
      var unfinished := UnfinishedNodes(commands[id]);
      var adopted := AdoptMatchingClients(id, clients, now);
      nodeIds := unfinished + adopted;
      assert nodeIds == {} ==> adopted == {};
    }

    /** The target nodes whose last status is failed or timeout. */
    static method UnfinishedNodes(c: Command) returns (nodeIds: set<NodeId>)
      ensures nodeIds == set node | node in c.tracked && (HasStatus(c, node, Failed) || HasStatus(c, node, Timeout))
    {
      nodeIds := {};
      var pending := c.tracked.Keys;
      while pending != {}
        invariant pending <= c.tracked.Keys
        invariant nodeIds == set node | node in c.tracked.Keys - pending
                                        && (HasStatus(c, node, Failed) || HasStatus(c, node, Timeout))
        decreases pending
      {
        var node :| node in pending;
        if HasStatus(c, node, Failed) || HasStatus(c, node, Timeout) {
          nodeIds := nodeIds + {node};
        }
        pending := pending - {node};
      }
    }

    // ----- Timeouts and pruning -----

    /** Gives every node of one command without a complete status the master's Timeout. */
    static method TimeOutNodes(c: Command, now: Time) returns (r: Command, changed: bool)
      ensures r == WithTimeouts(c, now)
      ensures changed <==> r != c
    {
      var updates := c.updates;
      ghost var after := WithTimeouts(c, now).updates;
      changed := false;
      var pending := c.tracked.Keys;
      while pending != {}
        invariant pending <= c.tracked.Keys
        invariant updates.Keys == c.updates.Keys + (c.tracked.Keys - pending)
        invariant forall node :: node in updates ==> updates[node] == if node in pending then c.updates[node] else after[node]
        invariant changed <==> updates != c.updates
        decreases pending
      {
        var node :| node in pending;
        if !(node in updates && Classify(updates[node].status).complete) {
          updates := updates[node := Ack(Timeout, now)];
          assert node in c.updates ==> updates[node] != c.updates[node];
          changed := true;
        }
        pending := pending - {node};
      }
      assert updates == after;
      r := c.(updates := updates);
    }

    /** One command of the scan: what it becomes, and whether an active one is released. */
    static method TimeOutCommand(c: Command, now: Time) returns (r: Command, changed: bool, released: bool)
      ensures r == TimeOut(c, now)
      ensures changed <==> r != c
      ensures released <==> TimeoutReleases(c, now)
      ensures released ==> changed
    {
      r, changed, released := c, false, false;
      if TimesOut(c, now) {
        r, changed := TimeOutNodes(c, now);
        if CommandComplete(r) {
          released := !r.auto && !HasRepairableTimeout(r);
          r := r.(completedAt := Some(now));
          changed := true;
        }
      }
    }

    /** A scan from `a` to `b` with the pending commands still to do. */
    static ghost predicate MidScan(a: map<CommandId, Command>, b: map<CommandId, Command>, pending: set<CommandId>,
                                   m: map<CommandId, Command>)
    {
      && a.Keys == b.Keys == m.Keys && pending <= a.Keys
      && forall id :: id in a ==> m[id] == if id in pending then a[id] else b[id]
    }

    static lemma MidScanStep(a: map<CommandId, Command>, b: map<CommandId, Command>, pending: set<CommandId>,
                             m: map<CommandId, Command>, id: CommandId)
      requires MidScan(a, b, pending, m) && id in pending
      ensures MidScan(a, b, pending - {id}, m[id := b[id]])
      ensures m[id := b[id]] != a <==> m != a || b[id] != a[id]
    {
      if m != a {
        var other :| other in a && m[other] != a[other];
        assert m[id := b[id]][other] != a[other];
      } else if b[id] == a[id] {
        assert m[id := b[id]] == a;
      }
    }

    static lemma PruningShows(s: State, t: State, dropped: set<CommandId>)
      requires t.commands.Keys == s.commands.Keys && dropped <= t.commands.Keys
      ensures t.(commands := t.commands - dropped) != s <==> t != s || dropped != {}
    {
      if dropped != {} {
        var id :| id in dropped;
        assert id in s.commands && id !in t.commands - dropped;
      } else {
        assert t.commands - dropped == t.commands;
      }
    }

    static lemma TimeoutsKeepIds(s: State, now: Time)
      ensures MasterState.MarkTimeouts(s, now).commands.Keys == s.commands.Keys
    {
    }

    static lemma EvictedAreIds(s: State, dropped: set<CommandId>)
      requires Prunes(s, dropped)
      ensures dropped <= s.commands.Keys
    {
    }

    method MarkTimedOutCommands(now: Time) returns (saved: bool, ghost dropped: set<CommandId>)
      modifies this
      ensures Prunes(MasterState.MarkTimeouts(old(St()), now), dropped)
      ensures Outcome(St(), saved, NoSend, NoBegin) == MasterState.MarkTimedOutCommands(old(St()), now, dropped)
    {
      var changed := MarkTimeouts(now);
      ghost var t := St();
      var pruned;
      pruned, dropped := PruneCompletedCommands();
      saved := changed || pruned;
      TimeoutsKeepIds(old(St()), now);
      EvictedAreIds(t, dropped);
      PruningShows(old(St()), t, dropped);
    }

    method ScanCommand(id: CommandId, now: Time, ghost after: Command, ghost releases: bool) returns (changed: bool)
      requires id in commands
      requires after == TimeOut(commands[id], now) && releases == TimeoutReleases(commands[id], now)
      modifies this
      ensures commands == old(commands)[id := after]
      ensures changed <==> after != old(commands)[id]
      ensures St() == old(St()).(commands := commands,
                                 active := if releases && old(active) == id then "" else old(active),
                                 shutdownIssued := if releases && old(active) == id then false else old(shutdownIssued))
      ensures releases ==> changed
    {
      var c, released;
      c, changed, released := TimeOutCommand(commands[id], now);
      commands := commands[id := c];
      if released && active == id {
        active := "";
        shutdownIssued := false;
      }
    }

    /** The state in the middle of a scan. */
    static ghost predicate MidState(before: State, after: map<CommandId, Command>, releases: set<CommandId>,
                                    pending: set<CommandId>, st: State, changed: bool)
    {
      var passed := before.active in releases && before.active !in pending;
      && MidScan(before.commands, after, pending, st.commands)
      && st == before.(commands := st.commands, active := if passed then "" else before.active,
                       shutdownIssued := if passed then false else before.shutdownIssued)
      && (passed ==> changed)
      && (changed <==> st.commands != before.commands)
    }

    static lemma MidStateStep(before: State, after: map<CommandId, Command>, releases: set<CommandId>,
                              pending: set<CommandId>, st: State, changed: bool, id: CommandId, differs: bool)
      requires MidState(before, after, releases, pending, st, changed) && id in pending && releases <= after.Keys
      requires differs <==> after[id] != st.commands[id]
      requires id in releases ==> differs
      ensures var releasing := id in releases && st.active == id;
              MidState(before, after, releases, pending - {id},
                       st.(commands := st.commands[id := after[id]],
                           active := if releasing then "" else st.active,
                           shutdownIssued := if releasing then false else st.shutdownIssued),
                       changed || differs)
    {
      MidScanStep(before.commands, after, pending, st.commands, id);
    }

    /** The loop over all commands; `after` and `releases` are what it must come to. */
    method ScanCommands(now: Time, ghost after: map<CommandId, Command>, ghost releases: set<CommandId>)
      returns (changed: bool)
      requires after.Keys == commands.Keys && releases <= commands.Keys
      requires forall id :: id in commands ==>
                 after[id] == TimeOut(commands[id], now) && (id in releases <==> TimeoutReleases(commands[id], now))
      modifies this
      ensures MidState(old(St()), after, releases, {}, St(), changed)
    {
      ghost var before := St();
      changed := false;
      var pending := commands.Keys;
      while pending != {}
        invariant MidState(before, after, releases, pending, St(), changed)
        decreases pending
      {
        var id :| id in pending;
        ghost var st := St();
        var differs := ScanCommand(id, now, after[id], id in releases);
        MidStateStep(before, after, releases, pending, st, changed, id, differs);
        changed := changed || differs;
        pending := pending - {id};
      }
    }

    method MarkTimeouts(now: Time) returns (changed: bool)
      modifies this
      ensures St() == MasterState.MarkTimeouts(old(St()), now)
      ensures changed <==> St() != old(St())
    {
      ghost var after := MasterState.MarkTimeouts(St(), now).commands;
      ghost var releases := set id | id in commands && TimeoutReleases(commands[id], now);
      changed := ScanCommands(now, after, releases);
      assert commands == after;
    }

    /** The completed commands that may be evicted, with the times they are ordered by. */
    method EvictionCandidates() returns (at: map<CommandId, Time>)
      ensures at == CompletionTimes(St())
    {
      at := map[];
      var pending := commands.Keys;
      while pending != {}
        invariant pending <= commands.Keys
        invariant at.Keys == PruneCandidates(St()) - pending
        invariant forall id :: id in at ==> at[id] == commands[id].completedAt.value
        decreases pending
      {
        var id :| id in pending;
        if commands[id].completedAt.Some? && id != active && !(local.Some? && local.value.commandId == id) {
          at := at[id := commands[id].completedAt.value];
        }
        pending := pending - {id};
      }
    }

    /** Evicts the oldest completed commands beyond the cap. */
    method PruneCompletedCommands() returns (pruned: bool, ghost dropped: set<CommandId>)
      modifies this`commands
      ensures Prunes(old(St()), dropped)
      ensures commands == old(commands) - dropped
      ensures pruned <==> dropped != {}
    {
      var excess := |commands| - MAX_RETAINED;
      var at := EvictionCandidates();
      var evicted := Retention.FindEvicted(at, excess);
      commands := commands - evicted;
      pruned, dropped := evicted != {}, evicted;
    }

    // ----- Acks, manual commands, reset, replay -----

    static method AcceptUpdate(c: Command, node: NodeId, ack: Ack, now: Time) returns (r: Command)
      ensures r == WithAck(c, node, ack, now)
    {
      r := c.(updates := c.updates[node := ack]);
      if CommandComplete(r) {
        r := r.(completedAt := Some(now));
      }
    }

    method RecordShutdownUpdate(id: CommandId, node: NodeId, ack: Ack, now: Time) returns (saved: bool, begin: Begin)
      modifies this
      ensures Outcome(St(), saved, NoSend, begin) == MasterState.RecordShutdownUpdate(old(St()), id, node, ack, now)
    {
      if id !in commands {
        return false, NoBegin;
      }
      var c := commands[id];
      if node !in c.tracked {
        return false, NoBegin;
      }
      if node in c.updates && Classify(c.updates[node].status).replayDone {
        return false, NoBegin;
      }
      c := AcceptUpdate(c, node, ack, now);
      saved := true;
      begin := TakeUpdatedCommand(id, c);
    }

    /** Puts an updated command in place: it is released once complete and no longer
        repairable, and its waiting local shutdown starts once every node has finished. */
    method TakeUpdatedCommand(id: CommandId, c: Command) returns (begin: Begin)
      modifies this
      ensures var s := old(St());
              var releases := s.active == id && ReleasedBy(c);
              && St() == s.(commands := s.commands[id := c],
                            active := if releases then "" else s.active,
                            shutdownIssued := if releases then false else s.shutdownIssued,
                            local := local)
              && if RemoteShutdownFinished(c) && s.local.Some? && s.local.value.commandId == id
                    && s.local.value.phase == WaitingRemote
                 then local == Some(AllFinished(s.local.value, c)) && begin == Begin(id, RemoteComplete)
                 else local == s.local && begin == NoBegin
    {
      if CommandComplete(c) && active == id && !c.auto && !HasRepairableTimeout(c) {
        active := "";
        shutdownIssued := false;
      }
      commands := commands[id := c];
      begin := NoBegin;
      if RemoteShutdownFinished(c) && local.Some? && local.value.commandId == id && local.value.phase == WaitingRemote {
        local := Some(AllFinished(local.value, c));
        begin := Begin(id, RemoteComplete);
      }
    }

    method TriggerShutdown(r: Request, clients: map<NodeId, set<Tag>>, now: Time, id: CommandId)
      returns (result: TriggerResult)
      modifies this
      ensures result == MasterState.TriggerShutdown(cfg, old(St()), r, clients, now, id)
      ensures St() == if result.Issued? then result.outcome.state else old(St())
    {
      var timeout := cfg.commandTimeout;
      if r.timeoutSeconds.Some? && r.timeoutSeconds.value > 0 {
        if r.timeoutSeconds.value > MAX_TIMEOUT_SECONDS {
          return Refused(TimeoutTooLong);
        }
        timeout := r.timeoutSeconds.value * SECOND;
      }
      var dryRun := cfg.dryRun;
      if r.dryRun.Some? {
        dryRun := r.dryRun.value;
      }
      var target := RequestTarget(r);
      var selected := SelectTargets(clients, target).Keys;
      if selected == {} {
        return Refused(NoTargets);
      }
      if active != "" {
        return Refused(AlreadyActive);
      }
      commands := commands[id := NewCommand(target, dryRun, clients, now + timeout, false)];
      active := id;
      ArmLocalShutdown(id, now);
      shutdownIssued := true;
      result := Issued(Outcome(St(), true, Send(id, dryRun, selected), NoBegin));
    }

    method ResetActiveCommand()
      modifies this
      ensures Outcome(St(), true, NoSend, NoBegin) == MasterState.ResetActiveCommand(old(St()))
    {
      if active in commands {
        commands := commands[active := commands[active].(replayDisabled := true)];
      }
      if episode.Some? {
        var id := episode.value.commandId;
        if id in commands {
          commands := commands[id := commands[id].(replayDisabled := true)];
        }
        episode := Some(episode.value.(commandId := ""));
      }
      if local.Some? && local.value.phase != Running {
        local := None;
      }
      active := "";
      shutdownIssued := false;
    }

    method ReplayableShutdownForNode(node: NodeId, tags: set<Tag>, now: Time) returns (saved: bool, send: Send)
      modifies this
      ensures Outcome(St(), saved, send, NoBegin) == ReplayForNode(cfg, old(St()), node, tags, now)
    {
      saved, send := false, NoSend;
      if active !in commands {
        return;
      }
      var c := commands[active];
      if c.auto && !upsConfirmed {
        return;
      }
      if !c.replayDisabled && Matches(c.target, node, tags) {
        if node !in c.tracked {
          commands := commands[active := c.(tracked := c.tracked[node := tags])];
          ReopenCommand(active, now);
          saved := true;
        }
      }
      assert !saved ==> commands[active := c] == commands;
      if ShouldReplay(commands[active], node) {
        send := Send(active, commands[active].dryRun, {node});
      }
    }

    // ----- Local shutdown -----

    method EvaluateLocalShutdown(now: Time, reading: Option<Reading>)
      returns (saved: bool, send: Send, begin: Begin)
      modifies this
      ensures Outcome(St(), saved, send, begin) == MasterState.EvaluateLocalShutdown(cfg, old(St()), reading, now)
    {
      saved, send, begin := false, NoSend, NoBegin;
      if !cfg.localEnabled {
        return;
      }
      var emergency := EmergencyTrigger(cfg, St(), reading, now);
      if emergency == UpsUnreachable && AwaitingReadingAfterPowerOff(St()) {
        emergency := NoTrigger;
      }
      var trusted := upsConfirmed || emergency == UpsUnreachable;
      var standsIn := local.Some? &&
                      !(episode.Some? && trusted && emergency != NoTrigger && local.value.phase != Running
                        && !LocalBelongsToEpisode(St()));
      if emergency == UpsUnreachable && episode.Some? {
        upsConfirmed := true;
      }
      if !standsIn {
        if episode.None? || !trusted || emergency == NoTrigger {
          return;
        }
        saved, send, begin := ArmEmergency(emergency, now);
        return;
      }
      var id := local.value.commandId;
      if (id !in commands || commands[id].auto) && !trusted {
        return;
      }
      saved, send, begin := DriveLocalShutdown(emergency, now);
    }

    method ArmEmergency(emergency: Trigger, now: Time) returns (saved: bool, send: Send, begin: Begin)
      requires episode.Some?
      modifies this
      ensures Outcome(St(), saved, send, begin) == MasterState.ArmEmergency(cfg, old(St()), emergency, now)
    {
      var id := episode.value.commandId;
      send := NoSend;
      var dryRun := cfg.dryRun;
      if id in commands {
        dryRun := commands[id].dryRun;
        var nodes := ReplayableNodeIds(commands[id]);
        send := Send(id, dryRun, nodes);
      }
      local := Some(LocalShutdown(Emergency, id, now, None, emergency, None, dryRun, NO_GROUNDS));
      saved, begin := true, Begin(id, emergency);
    }

    static method ReplayableNodeIds(c: Command) returns (nodeIds: set<NodeId>)
      ensures nodeIds == ReplayableNodes(c)
    {
      nodeIds := {};
      var pending := c.tracked.Keys;
      while pending != {}
        invariant pending <= c.tracked.Keys
        invariant nodeIds == set node | node in c.tracked.Keys - pending && ShouldReplay(c, node)
        decreases pending
      {
        var node :| node in pending;
        if ShouldReplay(c, node) {
          nodeIds := nodeIds + {node};
        }
        pending := pending - {node};
      }
    }

    method DriveLocalShutdown(emergency: Trigger, now: Time) returns (saved: bool, send: Send, begin: Begin)
      requires local.Some?
      modifies this
      ensures Outcome(St(), saved, send, begin) == DriveLocal(old(St()), emergency, now)
    {
      saved, send, begin := false, NoSend, NoBegin;
      var l := local.value;
      match l.phase
      case WaitingRemote =>
        saved, send, begin := DriveWaiting(emergency, now);
      case WaitExpired =>
        begin := Begin(l.commandId, MaxWaitExpired);
      case Emergency =>
        if l.trigger != NoTrigger {
          begin := Begin(l.commandId, l.trigger);
        }
      case RunFailed =>
        if l.lastAttemptAt.None? || now - l.lastAttemptAt.value >= RETRY_INTERVAL {
          if l.trigger != NoTrigger {
            begin := Begin(l.commandId, l.trigger);
          }
        }
      case _ =>
    }

    method DriveWaiting(emergency: Trigger, now: Time) returns (saved: bool, send: Send, begin: Begin)
      requires local.Some?
      modifies this
      ensures Outcome(St(), saved, send, begin) == DriveWaitingRemote(old(St()), emergency, now)
      ensures local.Some? && old(local.value.phase) == WaitingRemote ==> St() == old(St()).(local := local)
    {
      saved, send, begin := false, NoSend, NoBegin;
      var l := local.value;
      if l.commandId !in commands || commands[l.commandId].replayDisabled {
        local := None;
        saved := true;
        return;
      }
      var c := commands[l.commandId];
      var next := EscalateWaiting(l, c, emergency, now);
      if next.None? {
        return;
      }
      local := next;
      if next.value.phase == Emergency {
        var nodes := ReplayableNodeIds(c);
        send := Send(l.commandId, c.dryRun, nodes);
      }
      saved, begin := true, Begin(l.commandId, next.value.trigger);
    }

    static method EscalateWaiting(l: LocalShutdown, c: Command, emergency: Trigger, now: Time)
      returns (next: Option<LocalShutdown>)
      ensures next == Escalate(l, c, emergency, now)
    {
      if RemoteShutdownFinished(c) {
        return Some(AllFinished(l, c));
      }
      if emergency != NoTrigger {
        return Some(l.(phase := Emergency, trigger := emergency));
      }
      if l.deadlineAt.Some? && l.deadlineAt.value <= now {
        return Some(l.(phase := WaitExpired, trigger := MaxWaitExpired, grounds := l.grounds.(expiredAt := Some(now))));
      }
      return None;
    }

    /** The part of beginLocalShutdownExecution before the runner is called; `runs` says
        whether it is called at all, and with which flag. */
    method BeginLocalShutdownExecution(id: CommandId, trigger: Trigger, attemptAt: Time)
      returns (runs: bool, dryRun: bool)
      modifies this
      ensures St() == BeginLocal(old(St()), id, trigger, attemptAt)
      ensures runs == CanBegin(old(St()), id)
      ensures runs ==> dryRun == old(local.value.dryRun)
    {
      if local.None? || local.value.commandId != id || LocalTerminal(local.value.phase) {
        return false, false;
      }
      local := Some(local.value.(phase := Running, trigger := trigger, lastAttemptAt := Some(attemptAt)));
      dryRun := local.value.dryRun;
      if !dryRun && episode.Some? {
        episode := Some(episode.value.(masterPoweredOff := true));
      }
      runs := true;
    }

    /** The part after the runner returned. */
    method FinishLocalShutdownExecution(id: CommandId, failed: bool) returns (saved: bool)
      modifies this
      ensures Outcome(St(), saved, NoSend, NoBegin) == FinishLocal(old(St()), id, failed)
    {
      if local.None? || local.value.commandId != id {
        return false;
      }
      if failed {
        local := Some(local.value.(phase := RunFailed));
        if episode.Some? {
          episode := Some(episode.value.(masterPoweredOff := false));
        }
      } else {
        local := Some(local.value.(phase := Completed));
      }
      saved := true;
    }
  }
}
