/** Where a command comes from, over every run: from a policy or from an operator's request,
    and what each says about powering off for real. */
module MasterOrigins {
  import opened Types
  import opened Policy
  import opened MasterState
  import opened MasterInvariant
  import opened MasterFrame
  import opened Persist
  import opened MasterWorld
  import opened MasterRuns
  import opened MasterTheorems
  import opened MasterDuties
  import opened MasterSilence

  /** The flag that a request asks for: its own, or else the configuration's. */
  function AskedFlag(cfg: Config, r: Request): bool { if r.dryRun.Some? then r.dryRun.value else cfg.dryRun }

  /** The event is the operator's request for this command, with this flag. */
  predicate Requests(cfg: Config, e: Event, id: CommandId, dryRun: bool) {
    e.Manual? && e.id == id && dryRun == AskedFlag(cfg, e.request)
  }

  /** An automatic command has the configuration's flag; any other was requested in this run,
      and has the flag that its request asked for. */
  ghost predicate Ordered(cfg: Config, events: seq<Event>, id: CommandId, c: Command) {
    if c.auto then c.dryRun == cfg.dryRun
    else exists n :: 0 <= n < |events| && Requests(cfg, events[n], id, c.dryRun)
  }

  ghost predicate AllOrdered(cfg: Config, events: seq<Event>, commands: map<CommandId, Command>) {
    forall id :: id in commands ==> Ordered(cfg, events, id, commands[id])
  }

  /** So it is of every command in memory, and in every snapshot of the process. */
  ghost predicate OriginInv(cfg: Config, events: seq<Event>, w: World) {
    && AllOrdered(cfg, events, w.s.commands)
    && forall n :: 0 <= n <= |w.store.log| ==> AllOrdered(cfg, events, Content(w.store, n).commands)
  }

  lemma OrderedLater(cfg: Config, before: seq<Event>, events: seq<Event>, commands: map<CommandId, Command>)
    requires before <= events && AllOrdered(cfg, before, commands)
    ensures AllOrdered(cfg, events, commands)
  {
    forall id | id in commands
      ensures Ordered(cfg, events, id, commands[id])
    {
      if !commands[id].auto {
        var n :| 0 <= n < |before| && Requests(cfg, before[n], id, commands[id].dryRun);
        assert Requests(cfg, events[n], id, commands[id].dryRun);
      }
    }
  }

  /** A command that a section adds is a policy's or an operator's. */
  lemma AddedCommand(cfg: Config, w: World, e: Event, id: CommandId)
    requires WorldInv(cfg, w) && Enabled(w, e) && InMemory(e)
    requires id in Section(cfg, w, e).state.commands && id !in w.s.commands
    ensures var c := Section(cfg, w, e).state.commands[id];
            || (e.PollApply? && c.auto && c.dryRun == cfg.dryRun)
            || (!c.auto && Requests(cfg, e, id, c.dryRun))
  {
    SectionGood(cfg, w, e);
    AddedIsNew(cfg, w, e, Section(cfg, w, e), id);
    if e.PollApply? {
      AppliedCommand(cfg, w.s, w.poll.due, e.clients, w.poll.at, id);
    } else {
      RequestCarriedOut(cfg, w.s, e.request, e.clients, e.now, e.id);
    }
  }

  lemma AddedIsNew(cfg: Config, w: World, e: Event, o: Outcome, id: CommandId)
    requires Enabled(w, e) && InMemory(e) && SectionFrame(cfg, w, e, o.state) && "" !in o.state.commands
    requires id in o.state.commands && id !in w.s.commands
    ensures (e.PollApply? || e.Manual?) && id == e.id
  {
  }

  lemma AppliedCommand(cfg: Config, s: State, names: seq<string>, clients: map<NodeId, set<Tag>>, now: Time, id: CommandId)
    requires Inv(cfg, s) && id != "" && id !in s.commands && "" !in clients
    requires id in ApplyPolicyMatch(cfg, s, names, clients, now, id).state.commands
    ensures var c := ApplyPolicyMatch(cfg, s, names, clients, now, id).state.commands[id];
            c.auto && c.dryRun == cfg.dryRun
  {
    Creates(cfg, s, TargetOf(cfg.policies, names), Unfired(s.episode.value.fired, names), clients, now, id);
  }

  lemma OriginSection(cfg: Config, before: seq<Event>, w: World, e: Event)
    requires WorldInv(cfg, w) && Enabled(w, e) && InMemory(e) && AllOrdered(cfg, before, w.s.commands)
    ensures AllOrdered(cfg, before + [e], Section(cfg, w, e).state.commands)
  {
    var o := Section(cfg, w, e);
    SectionSound(cfg, w, e);
    OrderedLater(cfg, before, before + [e], w.s.commands);
    forall id | id in o.state.commands
      ensures Ordered(cfg, before + [e], id, o.state.commands[id])
    {
      if id in w.s.commands {
        assert Advances(w.s.commands[id], o.state.commands[id]);
      } else {
        AddedCommand(cfg, w, e, id);
        assert (before + [e])[|before|] == e;
      }
    }
  }

  lemma OriginStore(cfg: Config, events: seq<Event>, st: Store<Snapshot>, snap: Snapshot)
    requires forall n :: 0 <= n <= |st.log| ==> AllOrdered(cfg, events, Content(st, n).commands)
    requires AllOrdered(cfg, events, snap.commands)
    ensures var t := Take(st, snap); forall n :: 0 <= n <= |t.log| ==> AllOrdered(cfg, events, Content(t, n).commands)
  {
    var t := Take(st, snap);
    forall n | 0 <= n <= |t.log|
      ensures AllOrdered(cfg, events, Content(t, n).commands)
    {
      if n <= |st.log| {
        TakeKeepsContents(st, snap, n);
      }
    }
  }

  lemma OriginLater(cfg: Config, before: seq<Event>, events: seq<Event>, w: World)
    requires before <= events && OriginInv(cfg, before, w)
    ensures OriginInv(cfg, events, w)
  {
    OrderedLater(cfg, before, events, w.s.commands);
    forall n | 0 <= n <= |w.store.log|
      ensures AllOrdered(cfg, events, Content(w.store, n).commands)
    {
      OrderedLater(cfg, before, events, Content(w.store, n).commands);
    }
  }

  lemma OriginMemory(cfg: Config, before: seq<Event>, w: World, e: Event)
    requires WorldInv(cfg, w) && Enabled(w, e) && InMemory(e) && OriginInv(cfg, before, w)
    ensures OriginInv(cfg, before + [e], Next(cfg, w, e))
  {
    OriginLater(cfg, before, before + [e], w);
    OriginSection(cfg, before, w, e);
    NextIsAdvance(cfg, w, e);
    OriginStore(cfg, before + [e], w.store, Capture(Section(cfg, w, e).state));
  }

  lemma OriginElsewhere(cfg: Config, events: seq<Event>, w: World, e: Event)
    requires StoreInv(w.store) && Enabled(w, e) && !InMemory(e) && OriginInv(cfg, events, w)
    ensures OriginInv(cfg, events, Next(cfg, w, e))
  {
    if e.DiskWrite? {
      var st := Next(cfg, w, e).store;
      assert forall n :: 0 <= n <= |st.log| ==> Content(st, n) == Content(w.store, n);
    }
  }

  lemma OriginNext(cfg: Config, events: seq<Event>, w: World)
    requires events != [] && WorldInv(cfg, w) && Enabled(w, events[|events| - 1])
    requires OriginInv(cfg, events[..|events| - 1], w)
    ensures OriginInv(cfg, events, Next(cfg, w, events[|events| - 1]))
  {
    var before, e := events[..|events| - 1], events[|events| - 1];
    assert events == before + [e];
    if InMemory(e) {
      OriginMemory(cfg, before, w, e);
    } else {
      OriginLater(cfg, before, events, w);
      OriginElsewhere(cfg, events, w, e);
    }
  }

  lemma {:induction false} OriginRun(cfg: Config, at: Time, events: seq<Event>)
    requires ValidConfig(cfg) && RunOk(cfg, First(cfg, at), events)
    ensures OriginInv(cfg, events, RunFrom(cfg, First(cfg, at), events))
  {
    if events != [] {
      OriginRun(cfg, at, events[..|events| - 1]);
      RunSound(cfg, at, events[..|events| - 1]);
      OriginNext(cfg, events, RunFrom(cfg, First(cfg, at), events[..|events| - 1]));
    }
  }

  /** Over every run, of every command in memory and in every snapshot: an automatic one has
      the configuration's dry-run flag, and any other the flag of the request that issued it,
      or the configuration's if the request has none. */
  lemma FlagIsAsked(cfg: Config, at: Time, events: seq<Event>)
    requires ValidConfig(cfg) && RunOk(cfg, First(cfg, at), events)
    ensures var w := RunFrom(cfg, First(cfg, at), events);
            && AllOrdered(cfg, events, w.s.commands)
            && forall n :: 0 <= n <= |w.store.log| ==> AllOrdered(cfg, events, Content(w.store, n).commands)
  {
    OriginRun(cfg, at, events);
  }

  /** An operator asked, in so many words, for this command to be real. */
  ghost predicate AskedForReal(events: seq<Event>, id: CommandId) {
    exists n :: 0 <= n < |events| && events[n].Manual? && events[n].id == id && events[n].request.dryRun == Some(false)
  }

  lemma RealWasAsked(cfg: Config, events: seq<Event>, id: CommandId, c: Command)
    requires cfg.dryRun && Ordered(cfg, events, id, c) && !c.dryRun
    ensures AskedForReal(events, id)
  {
    var n :| 0 <= n < |events| && Requests(cfg, events[n], id, c.dryRun);
  }

  /** Over every run: with a dry-run configuration the master's own shutdown is carried out for
      real only for a command that an operator asked to be real, and only such a command is
      sent to nodes as a real one. */
  lemma DryRunPowersNothingOff(cfg: Config, at: Time, events: seq<Event>, e: Event)
    requires ValidConfig(cfg) && cfg.dryRun && RunOk(cfg, First(cfg, at), events)
    requires Enabled(RunFrom(cfg, First(cfg, at), events), e)
    ensures var w := RunFrom(cfg, First(cfg, at), events);
            && (forall i :: 0 <= i < |w.runners| && !w.runners[i].local.dryRun ==>
                  AskedForReal(events, w.runners[i].local.commandId))
            && (var send := Section(cfg, w, e).send;
                send.Send? && !send.dryRun ==> AskedForReal(events + [e], send.commandId))
  {
    var w := RunFrom(cfg, First(cfg, at), events);
    OriginRun(cfg, at, events);
    RunSound(cfg, at, events);
    RunnersAsked(cfg, events, w);
    SendsAsked(cfg, events, w, e);
  }

  lemma RunnersAsked(cfg: Config, events: seq<Event>, w: World)
    requires cfg.dryRun && WorldInv(cfg, w) && AllOrdered(cfg, events, w.s.commands)
    ensures forall i :: 0 <= i < |w.runners| && !w.runners[i].local.dryRun ==>
              AskedForReal(events, w.runners[i].local.commandId)
  {
    FlagsFollow(cfg, w.s, w.runners);
    forall i | 0 <= i < |w.runners| && !w.runners[i].local.dryRun
      ensures AskedForReal(events, w.runners[i].local.commandId)
    {
      var id := w.runners[i].local.commandId;
      assert FollowsFlag(cfg, w.s, w.runners[i].local);
      RealWasAsked(cfg, events, id, w.s.commands[id]);
    }
  }

  lemma SendsAsked(cfg: Config, events: seq<Event>, w: World, e: Event)
    requires cfg.dryRun && WorldInv(cfg, w) && Enabled(w, e) && AllOrdered(cfg, events, w.s.commands)
    ensures var send := Section(cfg, w, e).send;
            send.Send? && !send.dryRun ==> AskedForReal(events + [e], send.commandId)
  {
    var o := Section(cfg, w, e);
    if InMemory(e) && o.send.Send? && !o.send.dryRun {
      SectionSound(cfg, w, e);
      OriginSection(cfg, events, w, e);
      RealWasAsked(cfg, events + [e], o.send.commandId, o.state.commands[o.send.commandId]);
    }
  }
}
