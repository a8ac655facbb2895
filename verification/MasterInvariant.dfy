/** What every critical section keeps: the invariant of one state, how commands may
    evolve from one state to the next, and what a section may decide to send or start. */
module MasterInvariant {
  import opened Types
  import opened Policy
  import opened MasterState

  ghost predicate ValidConfig(cfg: Config) {
    && UniqueNames(cfg.policies)
    && forall i :: 0 <= i < |cfg.policies| ==> cfg.policies[i].name != ""
  }

  /** Acks are only kept for target nodes, and every target node matched the command
      with the tags it had when it was added. */
  ghost predicate CommandInv(c: Command) {
    && c.updates.Keys <= c.tracked.Keys
    && forall node :: node in c.tracked ==> Matches(c.target, node, c.tracked[node])
  }

  ghost predicate NoDuplicates(names: seq<string>) {
    forall i, j :: 0 <= i < j < |names| ==> names[i] != names[j]
  }

  ghost predicate CommandsInv(commands: map<CommandId, Command>) {
    && "" !in commands
    && forall id :: id in commands ==> CommandInv(commands[id])
  }

  ghost predicate ActiveInv(commands: map<CommandId, Command>, active: CommandId, shutdownIssued: bool) {
    && (active != "" ==> active in commands && !commands[active].replayDisabled)
    && (shutdownIssued <==> active != "")
  }

  /** An automatic command that is not disabled is the current episode's. */
  ghost predicate AutoInv(commands: map<CommandId, Command>, episode: Option<Episode>) {
    forall id :: id in commands && commands[id].auto && !commands[id].replayDisabled ==>
                   episode.Some? && episode.value.commandId == id
  }

  /** The episode's command is the active one and automatic, and its target is
      exactly the combined target of the policies fired since it was created. */
  ghost predicate EpisodeInv(cfg: Config, commands: map<CommandId, Command>, active: CommandId, e: Episode) {
    && NoDuplicates(e.fired)
    && (e.commandId != "" ==>
          && e.commandId == active
          && e.commandId in commands
          && commands[e.commandId].auto
          && e.commandFrom <= |e.fired|
          && commands[e.commandId].target == TargetOf(cfg.policies, e.fired[e.commandFrom..]))
  }

  predicate Pending(phase: Phase) {
    phase == WaitingRemote || phase == WaitExpired || phase == Emergency
  }

  /** The two triggers that end the waiting for the remotes. */
  predicate EndsWaiting(trigger: Trigger) { trigger == RemoteComplete || trigger == MaxWaitExpired }

  /** The local shutdown holds what a decision with this trigger is based on. */
  predicate Grounded(l: LocalShutdown, trigger: Trigger) {
    && (trigger == RemoteComplete ==> l.grounds.finished.Some?)
    && (trigger == MaxWaitExpired ==> l.grounds.expiredAt.Some?)
  }

  /** `finished` lists nodes of the command that had all finished; a success among them is
      still what the command records. */
  ghost predicate FinishedFor(finished: map<NodeId, Status>, c: Command) {
    && finished.Keys != {}
    && finished.Keys <= c.tracked.Keys
    && forall node :: node in finished ==>
         && Classify(finished[node]).final
         && (Classify(finished[node]).replayDone ==> HasStatus(c, node, finished[node]))
  }

  /** The grounds are there for the trigger in place, they concern the command that the
      local shutdown follows, and that command addresses all nodes. */
  ghost predicate GroundsInv(cfg: Config, commands: map<CommandId, Command>, l: LocalShutdown) {
    && Grounded(l, l.trigger)
    && (l.phase == Emergency ==> !EndsWaiting(l.trigger))
    && (l.phase == WaitExpired ==> l.trigger == MaxWaitExpired)
    && (l.grounds != NO_GROUNDS ==> l.commandId in commands && commands[l.commandId].target.all)
    && (l.grounds.finished.Some? ==> FinishedFor(l.grounds.finished.value, commands[l.commandId]))
    && (l.grounds.expiredAt.Some? ==> l.grounds.expiredAt.value >= l.startedAt + cfg.maxWait)
  }

  /** The local shutdown follows an existing command with that command's dry-run flag,
      or is command-less with the configuration's. While it is pending, the command is
      not disabled, and a command-less one belongs to an episode. */
  ghost predicate LocalInv(cfg: Config, commands: map<CommandId, Command>, inEpisode: bool, l: LocalShutdown) {
    && cfg.localEnabled
    && (if l.commandId == "" then l.dryRun == cfg.dryRun
        else l.commandId in commands && l.dryRun == commands[l.commandId].dryRun)
    && (Pending(l.phase) ==>
          if l.commandId == "" then inEpisode else !commands[l.commandId].replayDisabled)
    && (l.phase == WaitingRemote || l.phase == WaitExpired ==>
          && l.commandId != ""
          && commands[l.commandId].target.all
          && l.deadlineAt == Some(l.startedAt + cfg.maxWait))
    && (l.phase != WaitingRemote ==> l.trigger != NoTrigger)
    && GroundsInv(cfg, commands, l)
  }

  ghost predicate Inv(cfg: Config, s: State) {
    && CommandsInv(s.commands)
    && ActiveInv(s.commands, s.active, s.shutdownIssued)
    && AutoInv(s.commands, s.episode)
    && (s.episode.Some? ==> EpisodeInv(cfg, s.commands, s.active, s.episode.value))
    && (s.local.Some? ==> LocalInv(cfg, s.commands, s.episode.Some?, s.local.value))
  }

  /** How one command may change: a disabled command stays disabled, targets and
      target nodes only grow, no acknowledgement is lost, and a confirmed success is
      final. */
  ghost predicate Advances(a: Command, b: Command) {
    && b.dryRun == a.dryRun
    && b.auto == a.auto
    && (a.replayDisabled ==> b.replayDisabled)
    && Covers(b.target, a.target)
    && (forall node :: node in a.tracked ==> node in b.tracked && b.tracked[node] == a.tracked[node])
    && (forall node :: node in a.updates ==> node in b.updates)
    && (forall node :: node in a.updates && Classify(a.updates[node].status).replayDone ==>
                         b.updates[node] == a.updates[node])
  }

  /** Commands may be dropped; those that stay advance. */
  ghost predicate CommandsAdvance(a: map<CommandId, Command>, b: map<CommandId, Command>) {
    forall id :: id in a && id in b ==> Advances(a[id], b[id])
  }

  /** What may be decided for delivery: an existing command that is not disabled, with
      its dry-run flag, to tracked nodes that have not reported success; an automatic
      command only as the current episode's. */
  ghost predicate SendOk(s: State, send: Send) {
    send.Send? ==>
      && send.commandId in s.commands
      && send.dryRun == s.commands[send.commandId].dryRun
      && (forall node :: node in send.nodes ==> ShouldReplay(s.commands[send.commandId], node))
      && !s.commands[send.commandId].replayDisabled
      && (s.commands[send.commandId].auto ==> s.episode.Some? && s.episode.value.commandId == send.commandId)
  }

  /** A decision to start names the local shutdown in place, which has not started and
      holds the grounds for it. */
  ghost predicate BeginOk(s: State, begin: Begin) {
    begin.Begin? ==>
      begin.trigger != NoTrigger && CanBegin(s, begin.commandId) && Grounded(s.local.value, begin.trigger)
  }

  ghost predicate Sound(cfg: Config, s: State, o: Outcome) {
    && Inv(cfg, o.state)
    && CommandsAdvance(s.commands, o.state.commands)
    && SendOk(o.state, o.send)
    && BeginOk(o.state, o.begin)
  }

  lemma QuietIsSound(cfg: Config, s: State)
    requires Inv(cfg, s)
    ensures Sound(cfg, s, Quiet(s))
  {
  }

  lemma StartEpisodeSound(cfg: Config, s: State, at: Time)
    requires Inv(cfg, s)
    ensures Sound(cfg, s, StartEpisode(s, at))
  {
  }

  /** What a local shutdown rests on stays true as its command advances. */
  lemma LocalAdvances(cfg: Config, a: map<CommandId, Command>, b: map<CommandId, Command>, inEpisode: bool,
                      l: LocalShutdown)
    requires LocalInv(cfg, a, inEpisode, l)
    requires l.commandId in a ==>
               && l.commandId in b && Advances(a[l.commandId], b[l.commandId])
               && b[l.commandId].replayDisabled == a[l.commandId].replayDisabled
    ensures LocalInv(cfg, b, inEpisode, l)
  {
  }

  /** Replacing one command by one that advances it, without disabling or retargeting
      it, keeps the invariant. */
  lemma UpdateCommandSound(cfg: Config, s: State, id: CommandId, c: Command)
    requires Inv(cfg, s)
    requires id in s.commands && CommandInv(c) && Advances(s.commands[id], c)
    requires c.replayDisabled == s.commands[id].replayDisabled && c.target == s.commands[id].target
    ensures Inv(cfg, s.(commands := s.commands[id := c]))
    ensures CommandsAdvance(s.commands, s.commands[id := c])
  {
    var t := s.commands[id := c];
    if s.local.Some? {
      LocalAdvances(cfg, s.commands, t, s.episode.Some?, s.local.value);
    }
    assert AutoInv(t, s.episode);
    assert s.episode.Some? ==> EpisodeInv(cfg, t, s.active, s.episode.value);
  }

  /** A manual command that is active may be released. */
  lemma ReleaseSound(cfg: Config, s: State)
    requires Inv(cfg, s)
    requires s.active in s.commands && !s.commands[s.active].auto
    ensures Inv(cfg, s.(active := "", shutdownIssued := false))
  {
  }

  lemma CloseEpisodeSound(cfg: Config, s: State)
    requires Inv(cfg, s) && s.episode.Some?
    ensures Inv(cfg, CloseEpisode(s))
    ensures CommandsAdvance(s.commands, CloseEpisode(s).commands)
  {
    DisableSound(s.commands, s.episode.value.commandId, s.episode);
    assert AutoInv(CloseEpisode(s).commands, None);
  }

  lemma EndEpisodeSound(cfg: Config, s: State)
    requires Inv(cfg, s)
    ensures Sound(cfg, s, EndEpisodeOnLinePower(s))
  {
    if s.episode.Some? {
      CloseEpisodeSound(cfg, s);
    }
    var s1 := if s.episode.Some? then CloseEpisode(s) else s;
    if s1.active in s1.commands && !s1.commands[s1.active].auto {
      ReleaseSound(cfg, s1);
    }
  }

  lemma EvaluatePoliciesSound(cfg: Config, s: State, reading: Option<Reading>, now: Time)
    requires Inv(cfg, s)
    ensures Inv(cfg, EvaluatePolicies(cfg, s, reading, now).state)
    ensures EvaluatePolicies(cfg, s, reading, now).state.commands == s.commands
  {
  }

  lemma AdoptAdvances(cfg: Config, c: Command, clients: map<NodeId, set<Tag>>, now: Time)
    requires CommandInv(c)
    ensures CommandInv(Adopt(cfg, c, clients, now))
    ensures Advances(c, Adopt(cfg, c, clients, now))
    ensures Adopt(cfg, c, clients, now).tracked.Keys == c.tracked.Keys + Untracked(c, clients).Keys
  {
  }

  lemma ConcatDistinct(a: seq<string>, b: seq<string>)
    requires NoDuplicates(a) && NoDuplicates(b)
    requires forall name :: name in b ==> name !in a
    ensures NoDuplicates(a + b)
  {
    forall i, j | 0 <= i < j < |a + b|
      ensures (a + b)[i] != (a + b)[j]
    {
      if i < |a| <= j {
        assert (a + b)[j] in b;
      }
    }
  }

  lemma {:induction false} UnfiredAll(fired: seq<string>, names: seq<string>)
    requires forall name :: name in names ==> name !in fired
    ensures Unfired(fired, names) == names
  {
    if names != [] {
      UnfiredAll(fired, names[..|names| - 1]);
      assert names == names[..|names| - 1] + [names[|names| - 1]];
    }
  }

  /** Due policies are applied only while none of them has fired yet. */
  lemma ApplyPolicyMatchSound(cfg: Config, s: State, names: seq<string>, clients: map<NodeId, set<Tag>>,
                              now: Time, id: CommandId)
    requires Inv(cfg, s)
    requires NoDuplicates(names)
    requires s.episode.Some? ==> forall name :: name in names ==> name !in s.episode.value.fired
    requires id != "" && id !in s.commands && "" !in clients
    ensures Sound(cfg, s, ApplyPolicyMatch(cfg, s, names, clients, now, id))
  {
    if s.episode.Some? && names != [] {
      var e := s.episode.value;
      UnfiredAll(e.fired, names);
      ConcatDistinct(e.fired, names);
      if e.commandId in s.commands {
        WidenSound(cfg, s, names, clients, now);
      } else {
        CreateSound(cfg, s, names, clients, now, id);
      }
    }
  }

  lemma WidenAdvances(cfg: Config, c: Command, target: Target, clients: map<NodeId, set<Tag>>, now: Time)
    requires CommandInv(c)
    ensures var widened := c.(target := MergeTargets(c.target, target));
            var c' := Adopt(cfg, widened, clients, now);
            && CommandInv(c') && Advances(c, c')
            && c'.target == MergeTargets(c.target, target) && c'.replayDisabled == c.replayDisabled
            && (!c.replayDisabled ==>
                  forall node :: node in Untracked(widened, clients) ==> ShouldReplay(c', node))
  {
    var widened := c.(target := MergeTargets(c.target, target));
    AdoptAdvances(cfg, widened, clients, now);
  }

  /** Changing the episode command alone, together with the policies fired. */
  lemma EpisodeCommandSound(cfg: Config, s: State, c: Command, fired: seq<string>)
    requires Inv(cfg, s) && s.episode.Some? && s.episode.value.commandId in s.commands
    requires CommandInv(c) && Advances(s.commands[s.episode.value.commandId], c) && !c.replayDisabled
    requires NoDuplicates(fired) && s.episode.value.commandFrom <= |fired|
    requires c.target == TargetOf(cfg.policies, fired[s.episode.value.commandFrom..])
    ensures Inv(cfg, s.(commands := s.commands[s.episode.value.commandId := c],
                        episode := Some(s.episode.value.(fired := fired)), shutdownIssued := true))
    ensures CommandsAdvance(s.commands, s.commands[s.episode.value.commandId := c])
  {
    var id := s.episode.value.commandId;
    var t := s.(commands := s.commands[id := c], episode := Some(s.episode.value.(fired := fired)),
                shutdownIssued := true);
    assert EpisodeInv(cfg, t.commands, t.active, t.episode.value);
    assert t.local.Some? ==> LocalInv(cfg, t.commands, t.episode.Some?, t.local.value);
    assert forall other :: other in s.commands && other != id ==> t.commands[other] == s.commands[other];
  }

  lemma WidenSound(cfg: Config, s: State, names: seq<string>, clients: map<NodeId, set<Tag>>, now: Time)
    requires Inv(cfg, s)
    requires s.episode.Some? && s.episode.value.commandId in s.commands
    requires NoDuplicates(s.episode.value.fired + names)
    ensures Sound(cfg, s, WidenCommand(cfg, s, TargetOf(cfg.policies, names), names, clients, now))
  {
    var e := s.episode.value;
    var target := TargetOf(cfg.policies, names);
    var o := WidenCommand(cfg, s, target, names, clients, now);
    WidenAdvances(cfg, s.commands[e.commandId], target, clients, now);
    MergeIsConcat(cfg.policies, e.fired[e.commandFrom..], names);
    assert (e.fired + names)[e.commandFrom..] == e.fired[e.commandFrom..] + names;
    var c := o.state.commands[e.commandId];
    EpisodeCommandSound(cfg, s, c, e.fired + names);
    var t := s.(commands := s.commands[e.commandId := c], episode := o.state.episode, shutdownIssued := true);
    LocalChangeSound(cfg, t, o.state.local);
    assert o.state == t.(local := o.state.local);
  }

  lemma SupersedeSound(cfg: Config, s: State)
    requires Inv(cfg, s)
    requires s.active in s.commands ==> !s.commands[s.active].auto
    ensures Inv(cfg, SupersedeManual(s).(shutdownIssued := false))
    ensures CommandsAdvance(s.commands, SupersedeManual(s).commands)
    ensures SupersedeManual(s).active == "" && SupersedeManual(s).commands.Keys == s.commands.Keys
  {
    DisableSound(s.commands, s.active, s.episode);
  }

  /** What arming for a new command leaves. */
  lemma ArmSound(cfg: Config, s: State, id: CommandId, c: Command, now: Time)
    requires s.local.Some? ==> LocalInv(cfg, s.commands, s.episode.Some?, s.local.value)
    requires id != "" && id !in s.commands && !c.replayDisabled
    ensures var local := Arm(cfg, s, id, c, now);
            local.Some? ==> LocalInv(cfg, s.commands[id := c], s.episode.Some?, local.value)
  {
  }

  /** A new command for an episode that has none. */
  lemma EpisodeGetsCommand(cfg: Config, s: State, id: CommandId, c: Command, e: Episode, now: Time)
    requires Inv(cfg, s) && s.active == "" && s.episode.Some? && s.episode.value.commandId == ""
    requires id != "" && id !in s.commands && CommandInv(c) && c.auto && !c.replayDisabled
    requires e.commandId == id && NoDuplicates(e.fired) && e.commandFrom <= |e.fired|
    requires c.target == TargetOf(cfg.policies, e.fired[e.commandFrom..])
    ensures Inv(cfg, s.(commands := s.commands[id := c], active := id, shutdownIssued := true,
                        local := Arm(cfg, s, id, c, now), episode := Some(e), lastNodeRetryAt := Some(now)))
  {
    var t := s.commands[id := c];
    ArmSound(cfg, s, id, c, now);
    assert CommandsInv(t) && ActiveInv(t, id, true);
    assert AutoInv(t, Some(e));
    assert EpisodeInv(cfg, t, id, e);
  }

  lemma CreateSound(cfg: Config, s: State, names: seq<string>, clients: map<NodeId, set<Tag>>, now: Time,
                    id: CommandId)
    requires Inv(cfg, s)
    requires s.episode.Some? && s.episode.value.commandId !in s.commands
    requires NoDuplicates(s.episode.value.fired + names)
    requires id != "" && id !in s.commands && "" !in clients
    ensures Sound(cfg, s, CreateCommand(cfg, s, TargetOf(cfg.policies, names), names, clients, now, id))
  {
    var e := s.episode.value;
    var o := CreateCommand(cfg, s, TargetOf(cfg.policies, names), names, clients, now, id);
    assert (e.fired + names)[|e.fired|..] == names;
    SupersedeSound(cfg, s);
    var c := NewCommand(TargetOf(cfg.policies, names), cfg.dryRun, clients, now + cfg.commandTimeout, true);
    assert CommandInv(c) && SelectTargets(clients, c.target) - {""} == SelectTargets(clients, c.target);
    EpisodeGetsCommand(cfg, SupersedeManual(s).(shutdownIssued := false), id, c, o.state.episode.value, now);
    CreatedAdvances(s.commands, SupersedeManual(s).commands, id, c);
    NewCommandSends(o.state, id, c, o.send);
  }

  lemma CreatedAdvances(a: map<CommandId, Command>, b: map<CommandId, Command>, id: CommandId, c: Command)
    requires CommandsAdvance(a, b) && id !in a && b.Keys == a.Keys
    ensures CommandsAdvance(a, b[id := c])
  {
  }

  lemma NewCommandSends(s: State, id: CommandId, c: Command, send: Send)
    requires id in s.commands && s.commands[id] == c && !c.replayDisabled && c.updates == map[]
    requires s.episode.Some? && s.episode.value.commandId == id
    requires send == Send(id, c.dryRun, c.tracked.Keys)
    ensures SendOk(s, send)
  {
  }

  lemma RetrySound(cfg: Config, s: State, clients: map<NodeId, set<Tag>>, now: Time)
    requires Inv(cfg, s)
    ensures Sound(cfg, s, RetryEpisodeShutdown(cfg, s, clients, now))
  {
    var o := RetryEpisodeShutdown(cfg, s, clients, now);
    if o.saved {
      var id := s.episode.value.commandId;
      var c := s.commands[id];
      var c' := Reopen(cfg, Adopt(cfg, c, clients, now), now);
      AdoptAdvances(cfg, c, clients, now);
      UpdateCommandSound(cfg, s, id, c');
      var s1 := s.(commands := s.commands[id := c']);
      assert o.state == s1.(lastNodeRetryAt := Some(now));
      RetryNodesReplay(cfg, c, clients, now);
    } else {
      QuietIsSound(cfg, s);
    }
  }

  /** A retry only goes to nodes that still need the command. */
  lemma RetryNodesReplay(cfg: Config, c: Command, clients: map<NodeId, set<Tag>>, now: Time)
    requires CommandInv(c) && !c.replayDisabled
    ensures forall node :: node in RetryNodes(c, clients) ==>
                             ShouldReplay(Reopen(cfg, Adopt(cfg, c, clients, now), now), node)
  {
    AdoptAdvances(cfg, c, clients, now);
  }

  lemma TimeOutAdvances(c: Command, now: Time)
    requires CommandInv(c)
    ensures CommandInv(TimeOut(c, now)) && Advances(c, TimeOut(c, now))
    ensures TimeOut(c, now).target == c.target
    ensures TimeOut(c, now).replayDisabled == c.replayDisabled
  {
    var t := WithTimeouts(c, now);
    assert t.updates.Keys == c.updates.Keys + c.tracked.Keys;
    assert forall node :: node in c.updates && Classify(c.updates[node].status).replayDone ==>
                            t.updates[node] == c.updates[node];
    assert CommandInv(t) && Advances(c, t);
  }

  lemma MarkTimeoutsSound(cfg: Config, s: State, now: Time)
    requires Inv(cfg, s)
    ensures Inv(cfg, MarkTimeouts(s, now))
    ensures CommandsAdvance(s.commands, MarkTimeouts(s, now).commands)
  {
    var t := MarkTimeouts(s, now);
    forall id | id in s.commands
      ensures CommandInv(t.commands[id]) && Advances(s.commands[id], t.commands[id])
      ensures t.commands[id].target == s.commands[id].target
      ensures t.commands[id].replayDisabled == s.commands[id].replayDisabled
    {
      TimeOutAdvances(s.commands[id], now);
    }
    assert AutoInv(t.commands, t.episode);
    if s.local.Some? {
      LocalAdvances(cfg, s.commands, t.commands, s.episode.Some?, s.local.value);
    }
    assert ActiveInv(t.commands, t.active, t.shutdownIssued);
  }

  lemma MarkTimedOutSound(cfg: Config, s: State, now: Time, dropped: set<CommandId>)
    requires Inv(cfg, s)
    requires dropped <= PruneCandidates(MarkTimeouts(s, now))
    ensures Sound(cfg, s, MarkTimedOutCommands(s, now, dropped))
  {
    MarkTimeoutsSound(cfg, s, now);
  }

  lemma AckAdvances(c: Command, node: NodeId, ack: Ack, completedAt: Option<Time>)
    requires CommandInv(c) && node in c.tracked
    requires !(node in c.updates && Classify(c.updates[node].status).replayDone)
    ensures var c' := c.(updates := c.updates[node := ack], completedAt := completedAt);
            CommandInv(c') && Advances(c, c')
  {
  }

  lemma RecordUpdateSound(cfg: Config, s: State, id: CommandId, node: NodeId, ack: Ack, now: Time)
    requires Inv(cfg, s)
    ensures Sound(cfg, s, RecordShutdownUpdate(s, id, node, ack, now))
  {
    if Accepts(s, id, node) {
      var c := WithAck(s.commands[id], node, ack, now);
      AckAdvances(s.commands[id], node, ack, c.completedAt);
      AcceptedAck(s, id, node, ack, now);
      AcceptAckSound(cfg, s, id, c, RecordShutdownUpdate(s, id, node, ack, now));
    } else {
      QuietIsSound(cfg, s);
    }
  }

  /** An ack counts: it is for a tracked node that has not reported success. */
  predicate Accepts(s: State, id: CommandId, node: NodeId) {
    && id in s.commands && node in s.commands[id].tracked
    && !(node in s.commands[id].updates && Classify(s.commands[id].updates[node].status).replayDone)
  }

  /** What an accepted ack changes: the command, and possibly that it is active and that its
      local shutdown waits. */
  ghost predicate AckOutcome(s: State, id: CommandId, c: Command, o: Outcome) {
    && o.state == s.(commands := s.commands[id := c], active := o.state.active,
                     shutdownIssued := o.state.shutdownIssued, local := o.state.local)
    && (|| (o.state.active == s.active && o.state.shutdownIssued == s.shutdownIssued)
        || (s.active == id && !c.auto && o.state.active == "" && !o.state.shutdownIssued))
    && (|| (o.state.local == s.local && o.begin == NoBegin)
        || (&& s.local.Some? && s.local.value.phase == WaitingRemote && s.local.value.commandId == id
            && o.state.local == Some(AllFinished(s.local.value, c)) && RemoteShutdownFinished(c)
            && o.begin == Begin(id, RemoteComplete)))
    && o.send == NoSend
  }

  lemma AcceptedAck(s: State, id: CommandId, node: NodeId, ack: Ack, now: Time)
    requires Accepts(s, id, node)
    ensures AckOutcome(s, id, WithAck(s.commands[id], node, ack, now), RecordShutdownUpdate(s, id, node, ack, now))
  {
  }

  lemma AcceptAckSound(cfg: Config, s: State, id: CommandId, c: Command, o: Outcome)
    requires Inv(cfg, s)
    requires id in s.commands && CommandInv(c) && Advances(s.commands[id], c)
    requires c.replayDisabled == s.commands[id].replayDisabled && c.target == s.commands[id].target
    requires AckOutcome(s, id, c, o)
    ensures Sound(cfg, s, o)
  {
    UpdateCommandSound(cfg, s, id, c);
    var s1 := s.(commands := s.commands[id := c]);
    if s1.active == id && !c.auto {
      ReleaseSound(cfg, s1);
    }
    AckLocalSound(cfg, s1.(active := o.state.active, shutdownIssued := o.state.shutdownIssued), id, c, o);
  }

  lemma AckLocalSound(cfg: Config, s: State, id: CommandId, c: Command, o: Outcome)
    requires Inv(cfg, s) && id in s.commands && s.commands[id] == c
    requires o.state == s.(local := o.state.local) && o.send == NoSend
    requires || (o.state.local == s.local && o.begin == NoBegin)
             || (&& s.local.Some? && s.local.value.phase == WaitingRemote && s.local.value.commandId == id
                 && o.state.local == Some(AllFinished(s.local.value, c)) && RemoteShutdownFinished(c)
                 && o.begin == Begin(id, RemoteComplete))
    ensures Inv(cfg, o.state) && SendOk(o.state, o.send) && BeginOk(o.state, o.begin)
  {
    LocalChangeSound(cfg, s, o.state.local);
  }

  lemma TriggerSound(cfg: Config, s: State, r: Request, clients: map<NodeId, set<Tag>>, now: Time, id: CommandId)
    requires Inv(cfg, s)
    requires id != "" && id !in s.commands && "" !in clients
    ensures var t := TriggerShutdown(cfg, s, r, clients, now, id); t.Issued? ==> Sound(cfg, s, t.outcome)
  {
    var t := TriggerShutdown(cfg, s, r, clients, now, id);
    if t.Issued? {
      AddCommandSound(cfg, s, id, t.outcome.state.commands[id], now);
    }
  }

  lemma AddCommandSound(cfg: Config, s: State, id: CommandId, c: Command, now: Time)
    requires Inv(cfg, s) && s.active == ""
    requires id != "" && id !in s.commands && CommandInv(c) && !c.auto && !c.replayDisabled
    ensures Inv(cfg, s.(commands := s.commands[id := c], active := id, shutdownIssued := true,
                        local := Arm(cfg, s, id, c, now)))
    ensures CommandsAdvance(s.commands, s.commands[id := c])
  {
  }

  lemma DisableSound(commands: map<CommandId, Command>, id: CommandId, episode: Option<Episode>)
    requires CommandsInv(commands)
    ensures CommandsInv(Disable(commands, id)) && CommandsAdvance(commands, Disable(commands, id))
    ensures forall other :: other in commands && other != id ==> Disable(commands, id)[other] == commands[other]
    ensures Disable(commands, id).Keys == commands.Keys
    ensures id in commands ==> Disable(commands, id)[id].replayDisabled
    ensures AutoInv(commands, episode) ==> AutoInv(Disable(commands, id), episode)
  {
    if id in commands {
      assert CommandInv(Disable(commands, id)[id]) && Advances(commands[id], Disable(commands, id)[id]);
    }
  }

  lemma ResetSound(cfg: Config, s: State)
    requires Inv(cfg, s)
    ensures Sound(cfg, s, ResetActiveCommand(s))
  {
    var t := ResetActiveCommand(s).state;
    var d := Disable(s.commands, s.active);
    DisableSound(s.commands, s.active, s.episode);
    if s.episode.Some? {
      DisableSound(d, s.episode.value.commandId, s.episode);
    }
    assert CommandsAdvance(s.commands, t.commands);
    assert AutoInv(t.commands, t.episode);
  }

  lemma ReplaySound(cfg: Config, s: State, node: NodeId, tags: set<Tag>, now: Time)
    requires Inv(cfg, s)
    ensures Sound(cfg, s, ReplayForNode(cfg, s, node, tags, now))
  {
    var o := ReplayForNode(cfg, s, node, tags, now);
    if s.active in s.commands {
      if o.saved {
        UpdateCommandSound(cfg, s, s.active, o.state.commands[s.active]);
      } else {
        assert o.state == s;
        QuietIsSound(cfg, s);
      }
    } else {
      QuietIsSound(cfg, s);
    }
  }

  /** Only the local shutdown changes. */
  lemma LocalChangeSound(cfg: Config, s: State, local: Option<LocalShutdown>)
    requires Inv(cfg, s)
    requires local.Some? ==> LocalInv(cfg, s.commands, s.episode.Some?, local.value)
    ensures Inv(cfg, s.(local := local))
    ensures CommandsAdvance(s.commands, s.commands)
  {
  }

  lemma EscalateSound(cfg: Config, s: State, emergency: Trigger, now: Time)
    requires s.local.Some? && s.local.value.phase == WaitingRemote && !EndsWaiting(emergency)
    requires LocalInv(cfg, s.commands, s.episode.Some?, s.local.value)
    ensures var l := Escalate(s.local.value, s.commands[s.local.value.commandId], emergency, now);
            l.Some? ==>
              && LocalInv(cfg, s.commands, s.episode.Some?, l.value)
              && Pending(l.value.phase) && l.value.trigger != NoTrigger
              && l.value.commandId == s.local.value.commandId && l.value.dryRun == s.local.value.dryRun
  {
  }

  lemma DriveWaitingRemoteSound(cfg: Config, s: State, emergency: Trigger, now: Time)
    requires Inv(cfg, s) && s.local.Some? && s.local.value.phase == WaitingRemote && !EndsWaiting(emergency)
    ensures Sound(cfg, s, DriveWaitingRemote(s, emergency, now))
  {
    EscalateSound(cfg, s, emergency, now);
    var o := DriveWaitingRemote(s, emergency, now);
    if o.begin.NoBegin? {
      QuietIsSound(cfg, s);
    }
  }

  lemma DriveLocalSound(cfg: Config, s: State, emergency: Trigger, now: Time)
    requires Inv(cfg, s) && s.local.Some? && !EndsWaiting(emergency)
    ensures Sound(cfg, s, DriveLocal(s, emergency, now))
  {
    if s.local.value.phase == WaitingRemote {
      DriveWaitingRemoteSound(cfg, s, emergency, now);
    } else {
      assert DriveLocal(s, emergency, now).state == s;
      QuietIsSound(cfg, s);
    }
  }

  /** The state that the watcher goes on with: a silent UPS is taken for confirmed. */
  function Heard(cfg: Config, s: State, reading: Option<Reading>, now: Time): State {
    if EffectiveEmergency(cfg, s, reading, now) == UpsUnreachable && s.episode.Some? then Confirm(s) else s
  }

  /** What a tick of the watcher comes to: nothing, an emergency of the episode that no local
      shutdown stands in the way of, or driving the local shutdown in place. */
  lemma WatcherCases(cfg: Config, s: State, reading: Option<Reading>, now: Time)
    ensures var o := EvaluateLocalShutdown(cfg, s, reading, now);
            var emergency := EffectiveEmergency(cfg, s, reading, now);
            var s1 := Heard(cfg, s, reading, now);
            && !EndsWaiting(emergency)
            && (|| o == Quiet(s)
                || o == Quiet(s1)
                || (&& cfg.localEnabled && s.episode.Some? && emergency != NoTrigger
                    && (s.local.None? || (s.local.value.phase != Running && !LocalBelongsToEpisode(s)))
                    && o == ArmEmergency(cfg, s1, emergency, now))
                || (s.local.Some? && o == DriveLocal(s1, emergency, now)))
  {
  }

  lemma HeardSound(cfg: Config, s: State, reading: Option<Reading>, now: Time, o: Outcome)
    requires Inv(cfg, s)
    ensures Inv(cfg, Heard(cfg, s, reading, now))
    ensures Sound(cfg, Heard(cfg, s, reading, now), o) ==> Sound(cfg, s, o)
  {
  }

  lemma EvaluateLocalSound(cfg: Config, s: State, reading: Option<Reading>, now: Time)
    requires Inv(cfg, s)
    ensures Sound(cfg, s, EvaluateLocalShutdown(cfg, s, reading, now))
  {
    var emergency := EffectiveEmergency(cfg, s, reading, now);
    var s1 := Heard(cfg, s, reading, now);
    var o := EvaluateLocalShutdown(cfg, s, reading, now);
    WatcherCases(cfg, s, reading, now);
    HeardSound(cfg, s, reading, now, o);
    HeardCase(cfg, s, s1, o, emergency, now);
  }

  lemma HeardCase(cfg: Config, s: State, s1: State, o: Outcome, emergency: Trigger, now: Time)
    requires Inv(cfg, s) && Inv(cfg, s1) && !EndsWaiting(emergency)
    requires s1.episode == s.episode && s1.local == s.local
    requires || o == Quiet(s)
             || o == Quiet(s1)
             || (&& cfg.localEnabled && s.episode.Some? && emergency != NoTrigger
                 && o == ArmEmergency(cfg, s1, emergency, now))
             || (s.local.Some? && o == DriveLocal(s1, emergency, now))
    ensures o == Quiet(s) || Sound(cfg, s1, o)
    ensures o == Quiet(s) ==> Sound(cfg, s, o)
  {
    QuietIsSound(cfg, s);
    QuietIsSound(cfg, s1);
    if s.local.Some? {
      DriveLocalSound(cfg, s1, emergency, now);
    }
  }

  lemma BeginLocalSound(cfg: Config, s: State, id: CommandId, trigger: Trigger, attemptAt: Time)
    requires Inv(cfg, s)
    requires trigger != NoTrigger
    requires CanBegin(s, id) ==> Grounded(s.local.value, trigger)
    ensures Inv(cfg, BeginLocal(s, id, trigger, attemptAt))
  {
  }

  lemma FinishLocalSound(cfg: Config, s: State, id: CommandId, failed: bool)
    requires Inv(cfg, s)
    requires s.local.Some? && s.local.value.commandId == id ==> s.local.value.phase == Running
    ensures Sound(cfg, s, FinishLocal(s, id, failed))
  {
  }

  /** Writing the state and loading it back, in a later process, gives a state that
      keeps the invariant again. */
  lemma LoadSound(cfg: Config, s: State, startedAt: Time)
    requires Inv(cfg, s)
    ensures Inv(cfg, Load(cfg, Capture(s), startedAt))
  {
  }
}
