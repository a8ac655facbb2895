/** Master and slaves together: connections may drop, delay, repeat and reorder
    messages, but what is delivered was sent, and an ack counts for the node whose
    connection carried it. */
module Composed {
  import opened Types
  import opened Persist
  import opened MasterState
  import opened MasterInvariant
  import MW = MasterWorld
  import MR = MasterRuns
  import MT = MasterTheorems
  import S = Slave
  import SR = SlaveRuns

  datatype Delivery = Delivery(node: NodeId, msg: S.Shutdown)

  /** `sends` is every shutdown message that the master has decided to send. */
  datatype System = System(w: MW.World, slaves: map<NodeId, S.Machine>, sends: set<Delivery>)

  datatype SystemEvent = MasterStep(event: MW.Event) | SlaveStep(node: NodeId, step: S.Event)

  datatype Setup = Setup(master: Config, slaves: map<NodeId, S.SlaveConfig>)

  /** An ack arrives only if that node sent it; a shutdown only if the master sent it to
      that node. */
  ghost predicate Enabled(setup: Setup, y: System, e: SystemEvent) {
    && y.slaves.Keys == setup.slaves.Keys
    && match e
       case MasterStep(event) =>
         && MW.Enabled(y.w, event)
         && (event.AckArrives? ==>
               event.node in y.slaves && S.Report(event.id, event.ack) in y.slaves[event.node].sent)
       case SlaveStep(node, step) =>
         && node in y.slaves && S.Enabled(setup.slaves[node], y.slaves[node], step)
         && (step.Receive? ==> Delivery(node, step.msg) in y.sends)
  }

  function Delivered(send: Send): set<Delivery> {
    if send.NoSend? then {}
    else set node | node in send.nodes :: Delivery(node, S.Shutdown(send.commandId, send.dryRun))
  }

  function Step(setup: Setup, y: System, e: SystemEvent): System
    requires Enabled(setup, y, e)
  {
    match e
    case MasterStep(event) =>
      y.(w := MW.Next(setup.master, y.w, event),
         sends := y.sends + Delivered(MW.Section(setup.master, y.w, event).send))
    case SlaveStep(node, step) => y.(slaves := y.slaves[node := S.Step(setup.slaves[node], y.slaves[node], step)])
  }

  function First(setup: Setup, at: Time): System {
    System(MW.First(setup.master, at), map node | node in setup.slaves :: S.FIRST, {})
  }

  ghost predicate Reaches(setup: Setup, y: System, events: seq<SystemEvent>, z: System)
    decreases |events|
  {
    if events == [] then z == y
    else Enabled(setup, y, events[0]) && Reaches(setup, Step(setup, y, events[0]), events[1..], z)
  }

  ghost predicate Reachable(setup: Setup, y: System) {
    exists at: Time, events: seq<SystemEvent> :: Reaches(setup, First(setup, at), events, y)
  }

  // ----- The invariant -----

  /** Messages carry the dry-run flag of their command, wherever it is still recorded. */
  ghost predicate FlagsAgree(sends: set<Delivery>, commands: map<CommandId, Command>) {
    forall d :: d in sends && d.msg.id in commands ==> commands[d.msg.id].dryRun == d.msg.dryRun
  }

  ghost predicate IdsIssued(sends: set<Delivery>, issued: set<CommandId>) {
    forall d :: d in sends ==> d.msg.id in issued
  }

  /** What a recorded status says about its node. */
  ghost predicate StatusTrue(setup: Setup, slaves: map<NodeId, S.Machine>, id: CommandId, node: NodeId, status: Status) {
    status == Executed || status == Simulated ==>
      && node in slaves && node in setup.slaves
      && S.Justified(setup.slaves[node], slaves[node].received, slaves[node].succeeded, id, status)
  }

  ghost predicate UpdatesTrue(setup: Setup, slaves: map<NodeId, S.Machine>, commands: map<CommandId, Command>) {
    forall id, node :: id in commands && node in commands[id].updates ==>
      StatusTrue(setup, slaves, id, node, commands[id].updates[node].status)
  }

  ghost predicate StoreAgrees(sends: set<Delivery>, store: Store<Snapshot>) {
    forall n :: 0 <= n <= |store.log| ==> FlagsAgree(sends, Content(store, n).commands)
  }

  ghost predicate StoreTrue(setup: Setup, slaves: map<NodeId, S.Machine>, store: Store<Snapshot>) {
    forall n :: 0 <= n <= |store.log| ==> UpdatesTrue(setup, slaves, Content(store, n).commands)
  }

  ghost predicate ReceivedSent(slaves: map<NodeId, S.Machine>, sends: set<Delivery>) {
    forall node, msg :: node in slaves && msg in slaves[node].received ==> Delivery(node, msg) in sends
  }

  ghost predicate SendsInv(w: MW.World, sends: set<Delivery>) {
    IdsIssued(sends, w.issued) && FlagsAgree(sends, w.s.commands) && StoreAgrees(sends, w.store)
  }

  ghost predicate TruthInv(setup: Setup, w: MW.World, slaves: map<NodeId, S.Machine>) {
    UpdatesTrue(setup, slaves, w.s.commands) && StoreTrue(setup, slaves, w.store)
  }

  ghost predicate SystemInv(setup: Setup, y: System) {
    && MR.WorldInv(setup.master, y.w)
    && SR.FleetInv(setup.slaves, y.slaves)
    && ReceivedSent(y.slaves, y.sends)
    && SendsInv(y.w, y.sends)
    && TruthInv(setup, y.w, y.slaves)
  }

  // ----- Messages keep their command's flag -----

  lemma NewFlags(s: State, send: Send)
    requires SendOk(s, send)
    ensures FlagsAgree(Delivered(send), s.commands) && IdsIssued(Delivered(send), s.commands.Keys)
  {
  }

  lemma StoreTakes(sends: set<Delivery>, store: Store<Snapshot>, snap: Snapshot)
    requires StoreAgrees(sends, store) && FlagsAgree(sends, snap.commands)
    ensures StoreAgrees(sends, Take(store, snap))
  {
    forall n | 0 <= n <= |store.log| + 1
      ensures FlagsAgree(sends, Content(Take(store, snap), n).commands)
    {
      if n <= |store.log| {
        assert Content(Take(store, snap), n) == Content(store, n);
      }
    }
  }

  lemma SendsJoin(store: Store<Snapshot>, sends: set<Delivery>, more: set<Delivery>)
    requires StoreAgrees(sends, store) && StoreAgrees(more, store)
    ensures StoreAgrees(sends + more, store)
  {
    forall n | 0 <= n <= |store.log|
      ensures FlagsAgree(sends + more, Content(store, n).commands)
    {
      assert FlagsAgree(sends, Content(store, n).commands) && FlagsAgree(more, Content(store, n).commands);
    }
  }

  /** A section's message agrees with every snapshot, which the state has advanced from. */
  lemma NewSendAgrees(cfg: Config, s: State, store: Store<Snapshot>, issued: set<CommandId>, send: Send)
    requires MR.ChainInv(cfg, s, store, issued) && SendOk(s, send)
    ensures StoreAgrees(Delivered(send), store)
  {
    forall n | 0 <= n <= |store.log|
      ensures FlagsAgree(Delivered(send), Content(store, n).commands)
    {
    }
  }

  lemma SendsAdvance(cfg: Config, w: MW.World, e: MW.Event, o: Outcome, sends: set<Delivery>)
    requires MR.WorldInv(cfg, w) && MR.Good(cfg, w, e, o) && SendsInv(w, sends)
    ensures SendsInv(MW.Advance(cfg, w, e, o), sends + Delivered(o.send))
  {
    MR.IdsKept(cfg, w, e, o);
    NewFlags(o.state, o.send);
    MR.ChainStep(cfg, w.s, w.store, w.issued, o.state, MW.IssuedNext(w, e));
    NewSendAgrees(cfg, o.state, w.store, MW.IssuedNext(w, e), o.send);
    SendsJoin(w.store, sends, Delivered(o.send));
    StoreTakes(sends + Delivered(o.send), w.store, Capture(o.state));
  }

  // ----- Recorded statuses are true -----

  lemma TimeOutKeepsReports(c: Command, now: Time, node: NodeId)
    requires node in TimeOut(c, now).updates
    ensures TimeOut(c, now).updates[node].status == Timeout ||
            (node in c.updates && TimeOut(c, now).updates[node] == c.updates[node])
  {
  }

  lemma TimeoutsStayTrue(setup: Setup, slaves: map<NodeId, S.Machine>, s: State, now: Time, dropped: set<CommandId>)
    requires UpdatesTrue(setup, slaves, s.commands)
    ensures UpdatesTrue(setup, slaves, MarkTimedOutCommands(s, now, dropped).state.commands)
  {
    var t := MarkTimedOutCommands(s, now, dropped).state.commands;
    forall id, node | id in t && node in t[id].updates
      ensures StatusTrue(setup, slaves, id, node, t[id].updates[node].status)
    {
      TimeOutKeepsReports(s.commands[id], now, node);
      assert StatusTrue(setup, slaves, id, node, Timeout);
    }
  }

  lemma OneUpdateTrue(setup: Setup, slaves: map<NodeId, S.Machine>, s: State, t: State, e: MW.Event, id: CommandId,
                      node: NodeId)
    requires UpdatesTrue(setup, slaves, s.commands) && SR.FleetInv(setup.slaves, slaves)
    requires e.AckArrives? ==> e.node in slaves && S.Report(e.id, e.ack) in slaves[e.node].sent
    requires MT.UpdateFromAck(s, t, id, node, e)
    requires id in t.commands && node in t.commands[id].updates
    ensures StatusTrue(setup, slaves, id, node, t.commands[id].updates[node].status)
  {
  }

  lemma SectionStaysTrue(setup: Setup, w: MW.World, slaves: map<NodeId, S.Machine>, e: MW.Event)
    requires UpdatesTrue(setup, slaves, w.s.commands) && SR.FleetInv(setup.slaves, slaves)
    requires MW.Enabled(w, e)
    requires e.AckArrives? ==> e.node in slaves && S.Report(e.id, e.ack) in slaves[e.node].sent
    ensures UpdatesTrue(setup, slaves, MW.Section(setup.master, w, e).state.commands)
  {
    if e.WatchTimeouts? {
      TimeoutsStayTrue(setup, slaves, w.s, e.now, e.dropped);
    } else {
      var t := MW.Section(setup.master, w, e).state;
      forall id, node | id in t.commands && node in t.commands[id].updates
        ensures StatusTrue(setup, slaves, id, node, t.commands[id].updates[node].status)
      {
        MT.UpdatesComeFromAcks(setup.master, w, e, id, node);
        OneUpdateTrue(setup, slaves, w.s, t, e, id, node);
      }
    }
  }

  lemma TruthTakes(setup: Setup, slaves: map<NodeId, S.Machine>, store: Store<Snapshot>, snap: Snapshot)
    requires StoreTrue(setup, slaves, store) && UpdatesTrue(setup, slaves, snap.commands)
    ensures StoreTrue(setup, slaves, Take(store, snap))
  {
    forall n | 0 <= n <= |store.log| + 1
      ensures UpdatesTrue(setup, slaves, Content(Take(store, snap), n).commands)
    {
      if n <= |store.log| {
        assert Content(Take(store, snap), n) == Content(store, n);
      }
    }
  }

  lemma SameContents(setup: Setup, slaves: map<NodeId, S.Machine>, sends: set<Delivery>, a: Store<Snapshot>,
                     b: Store<Snapshot>)
    requires StoreTrue(setup, slaves, a) && StoreAgrees(sends, a)
    requires b.log == a.log && b.base == a.base
    ensures StoreTrue(setup, slaves, b) && StoreAgrees(sends, b)
  {
    forall n | 0 <= n <= |b.log|
      ensures Content(b, n) == Content(a, n)
    {
    }
  }

  lemma BootsTrue(setup: Setup, w: MW.World, slaves: map<NodeId, S.Machine>, sends: set<Delivery>, e: MW.Event)
    requires StoreInv(w.store) && SendsInv(w, sends) && TruthInv(setup, w, slaves) && e.Restart?
    ensures var t := MW.Next(setup.master, w, e);
            SendsInv(t, sends) && TruthInv(setup, t, slaves)
  {
    assert UpdatesTrue(setup, slaves, Content(w.store, w.store.writtenSeq).commands);
    assert FlagsAgree(sends, Content(w.store, w.store.writtenSeq).commands);
  }

  // ----- Every step keeps the invariant -----

  lemma SectionKeeps(setup: Setup, y: System, event: MW.Event)
    requires SystemInv(setup, y) && Enabled(setup, y, MasterStep(event)) && MR.InMemory(event)
    ensures var t := Step(setup, y, MasterStep(event));
            SendsInv(t.w, t.sends) && TruthInv(setup, t.w, t.slaves)
  {
    var o := MW.Section(setup.master, y.w, event);
    MR.SectionGood(setup.master, y.w, event);
    MR.NextIsAdvance(setup.master, y.w, event);
    SendsAdvance(setup.master, y.w, event, o, y.sends);
    SectionStaysTrue(setup, y.w, y.slaves, event);
    TruthTakes(setup, y.slaves, y.w.store, Capture(o.state));
  }

  lemma OtherKeeps(setup: Setup, y: System, event: MW.Event)
    requires SystemInv(setup, y) && Enabled(setup, y, MasterStep(event)) && !MR.InMemory(event)
    ensures var t := Step(setup, y, MasterStep(event));
            t.sends == y.sends && SendsInv(t.w, t.sends) && TruthInv(setup, t.w, t.slaves)
  {
    assert Step(setup, y, MasterStep(event)).sends == y.sends;
    if event.Restart? {
      BootsTrue(setup, y.w, y.slaves, y.sends, event);
    } else {
      WritesTrue(setup, y.w, y.slaves, y.sends, event);
    }
  }

  lemma WritesTrue(setup: Setup, w: MW.World, slaves: map<NodeId, S.Machine>, sends: set<Delivery>, e: MW.Event)
    requires SendsInv(w, sends) && TruthInv(setup, w, slaves) && e.DiskWrite? && MW.Enabled(w, e)
    ensures var t := MW.Next(setup.master, w, e);
            SendsInv(t, sends) && TruthInv(setup, t, slaves)
  {
    SameContents(setup, slaves, sends, w.store, MW.Next(setup.master, w, e).store);
  }

  lemma MasterKeeps(setup: Setup, y: System, event: MW.Event)
    requires SystemInv(setup, y) && Enabled(setup, y, MasterStep(event))
    ensures SystemInv(setup, Step(setup, y, MasterStep(event)))
  {
    MR.StepKeeps(setup.master, y.w, event);
    if MR.InMemory(event) {
      SectionKeeps(setup, y, event);
    } else {
      OtherKeeps(setup, y, event);
    }
  }

  /** A slave's history of messages and successes only grows. */
  lemma HistoryGrows(cfg: S.SlaveConfig, m: S.Machine, step: S.Event)
    requires S.Enabled(cfg, m, step)
    ensures var t := S.Step(cfg, m, step);
            && m.succeeded <= t.succeeded && m.received <= t.received
            && t.received == if step.Receive? then m.received + {step.msg} else m.received
  {
  }

  lemma SlaveKeeps(setup: Setup, y: System, node: NodeId, step: S.Event)
    requires SystemInv(setup, y) && Enabled(setup, y, SlaveStep(node, step))
    ensures SystemInv(setup, Step(setup, y, SlaveStep(node, step)))
  {
    SlavesKeep(setup, y.slaves, y.sends, node, step);
    SlaveTruth(setup, y.w, y.slaves, node, S.Step(setup.slaves[node], y.slaves[node], step));
  }

  lemma SlavesKeep(setup: Setup, slaves: map<NodeId, S.Machine>, sends: set<Delivery>, node: NodeId, step: S.Event)
    requires SR.FleetInv(setup.slaves, slaves) && ReceivedSent(slaves, sends) && node in slaves
    requires S.Enabled(setup.slaves[node], slaves[node], step)
    requires step.Receive? ==> Delivery(node, step.msg) in sends
    ensures var m := S.Step(setup.slaves[node], slaves[node], step);
            && SR.FleetInv(setup.slaves, slaves[node := m]) && ReceivedSent(slaves[node := m], sends)
            && slaves[node].received <= m.received && slaves[node].succeeded <= m.succeeded
  {
    SR.StepKeeps(setup.slaves[node], slaves[node], step);
    HistoryGrows(setup.slaves[node], slaves[node], step);
    SR.FleetSwap(setup.slaves, slaves, node, S.Step(setup.slaves[node], slaves[node], step));
  }

  lemma SlaveTruth(setup: Setup, w: MW.World, slaves: map<NodeId, S.Machine>, node: NodeId, m: S.Machine)
    requires TruthInv(setup, w, slaves) && node in slaves
    requires slaves[node].received <= m.received && slaves[node].succeeded <= m.succeeded
    ensures TruthInv(setup, w, slaves[node := m])
  {
    forall n | 0 <= n <= |w.store.log|
      ensures UpdatesTrue(setup, slaves[node := m], Content(w.store, n).commands)
    {
    }
  }

  lemma {:induction false} RunKeeps(setup: Setup, y: System, events: seq<SystemEvent>, z: System)
    requires SystemInv(setup, y) && Reaches(setup, y, events, z)
    ensures SystemInv(setup, z)
    decreases |events|
  {
    if events != [] {
      match events[0] {
        case MasterStep(event) => MasterKeeps(setup, y, event);
        case SlaveStep(node, step) => SlaveKeeps(setup, y, node, step);
      }
      RunKeeps(setup, Step(setup, y, events[0]), events[1..], z);
    }
  }

  lemma FirstInv(setup: Setup, at: Time)
    requires ValidConfig(setup.master)
    ensures SystemInv(setup, First(setup, at))
  {
    MR.FirstSound(setup.master, at);
  }

  /** If the master records executed for a node, that node's shutdown command returned
      success for this command, and neither is a dry run; it records simulated only if the
      command or the node is a dry run. This holds in every state of every composed run,
      over crashes and restarts of either side. */
  lemma RecordedStatusIsTrue(setup: Setup, y: System, id: CommandId, node: NodeId)
    requires ValidConfig(setup.master) && Reachable(setup, y)
    requires id in y.w.s.commands
    ensures HasStatus(y.w.s.commands[id], node, Executed) ==>
              && node in y.slaves && node in setup.slaves && id in y.slaves[node].succeeded
              && !y.w.s.commands[id].dryRun && !setup.slaves[node].dryRun
    ensures HasStatus(y.w.s.commands[id], node, Simulated) ==>
              node in setup.slaves && (y.w.s.commands[id].dryRun || setup.slaves[node].dryRun)
  {
    var at: Time, events: seq<SystemEvent> :| Reaches(setup, First(setup, at), events, y);
    FirstInv(setup, at);
    RunKeeps(setup, First(setup, at), events, y);
    TruthOf(setup, y, id, node);
  }

  lemma TruthOf(setup: Setup, y: System, id: CommandId, node: NodeId)
    requires UpdatesTrue(setup, y.slaves, y.w.s.commands) && FlagsAgree(y.sends, y.w.s.commands)
    requires ReceivedSent(y.slaves, y.sends) && id in y.w.s.commands
    ensures HasStatus(y.w.s.commands[id], node, Executed) ==>
              && node in y.slaves && node in setup.slaves && id in y.slaves[node].succeeded
              && !y.w.s.commands[id].dryRun && !setup.slaves[node].dryRun
    ensures HasStatus(y.w.s.commands[id], node, Simulated) ==>
              node in setup.slaves && (y.w.s.commands[id].dryRun || setup.slaves[node].dryRun)
  {
    if HasStatus(y.w.s.commands[id], node, Executed) {
      assert Delivery(node, S.Shutdown(id, false)) in y.sends;
    } else if HasStatus(y.w.s.commands[id], node, Simulated) && !setup.slaves[node].dryRun {
      assert Delivery(node, S.Shutdown(id, true)) in y.sends;
    }
  }
}
