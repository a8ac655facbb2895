/** What survives a crash of the master: exactly what every snapshot says that is the state
    file, or may still replace it. */
module MasterRestarts {
  import opened Types
  import opened MasterState
  import opened MasterInvariant
  import opened MasterFrame
  import opened Persist
  import opened MasterWorld
  import opened MasterRuns
  import opened MasterTheorems

  /** The events by which a live snapshot becomes the memory of a new process. */
  function RestoreEvents(w: World, n: nat): seq<Event> {
    (if n == w.store.writtenSeq then [] else [DiskWrite(n, true)]) + [Restart(0, false)]
  }

  lemma RestoreRun(cfg: Config, w: World, n: nat)
    requires StoreInv(w.store) && Live(w.store, n)
    ensures n <= |w.store.log|
    ensures RunOk(cfg, w, RestoreEvents(w, n))
    ensures RunFrom(cfg, w, RestoreEvents(w, n)).s == Load(cfg, Content(w.store, n), 0)
  {
    LiveCanBeDisk(w.store, n);
    var none: seq<Event> := [];
    if n == w.store.writtenSeq {
      RunExtends(cfg, w, none, Restart(0, false));
      assert RestoreEvents(w, n) == none + [Restart(0, false)];
    } else {
      TwoSteps(cfg, w, DiskWrite(n, true), Restart(0, false));
      assert RestoreEvents(w, n) == [DiskWrite(n, true), Restart(0, false)];
    }
  }

  /** What a step leaves of the snapshots: what is so of the live ones, and of the new one. */
  lemma LiveAllStep(cfg: Config, w: World, e: Event, ok: Snapshot -> bool)
    requires StoreInv(w.store) && Enabled(w, e) && LiveAll(w.store, ok)
    requires e.Restart? && e.fileLost ==> ok(EMPTY_SNAPSHOT)
    requires InMemory(e) ==> ok(Capture(Next(cfg, w, e).s))
    ensures LiveAll(Next(cfg, w, e).store, ok)
  {
    if e.Restart? {
      LiveAllOnDisk(w.store, ok);
    } else if e.DiskWrite? {
      WriteLiveAll(w.store, e.number, e.ok, ok);
    } else {
      NextIsAdvance(cfg, w, e);
      TakeLiveAll(w.store, Capture(Next(cfg, w, e).s), ok);
    }
  }

  lemma AllSinceStep(cfg: Config, w: World, e: Event, ok: Snapshot -> bool, k: nat)
    requires Enabled(w, e) && !e.Restart? && AllSince(w.store, ok, k)
    requires InMemory(e) ==> ok(Capture(Next(cfg, w, e).s))
    ensures AllSince(Next(cfg, w, e).store, ok, k)
  {
    if e.DiskWrite? {
      WriteAllSince(w.store, e.number, e.ok, ok, k);
    } else {
      NextIsAdvance(cfg, w, e);
      TakeAllSince(w.store, Capture(Next(cfg, w, e).s), ok, k);
    }
  }

  /** A live snapshot that is not so becomes the memory of a new process. */
  lemma Restoring(cfg: Config, w: World, ok: Snapshot -> bool) returns (n: nat)
    requires StoreInv(w.store) && !LiveAll(w.store, ok)
    ensures n <= |w.store.log| && !ok(Content(w.store, n)) && RunOk(cfg, w, RestoreEvents(w, n))
    ensures RunFrom(cfg, w, RestoreEvents(w, n)).s == Load(cfg, Content(w.store, n), 0)
  {
    n :| Live(w.store, n) && !(n <= |w.store.log| && ok(Content(w.store, n)));
    RestoreRun(cfg, w, n);
  }

  // ----- What is settled about a command -----

  /** Whatever a command has of this kind, it never loses as it advances. */
  ghost predicate Lasting(ok: Command -> bool) {
    forall a, b :: ok(a) && Advances(a, b) ==> ok(b)
  }

  ghost predicate SettledIn(commands: map<CommandId, Command>, id: CommandId, ok: Command -> bool) {
    id in commands ==> ok(commands[id])
  }

  ghost function SettledSnapshot(id: CommandId, ok: Command -> bool): Snapshot -> bool {
    (snap: Snapshot) => SettledIn(snap.commands, id, ok)
  }

  /** The command has it, or is gone, in memory, in the file, and in every snapshot that may
      still replace the file. */
  ghost predicate Settled(w: World, id: CommandId, ok: Command -> bool) {
    id in w.issued && SettledIn(w.s.commands, id, ok) && LiveAll(w.store, SettledSnapshot(id, ok))
  }

  /** What the file says of this kind is settled. */
  lemma OnDiskIsSettled(cfg: Config, w: World, id: CommandId, ok: Command -> bool)
    requires WorldInv(cfg, w) && Lasting(ok)
    requires id in w.store.disk.commands && ok(w.store.disk.commands[id])
    ensures Settled(w, id, ok)
  {
    forall n: nat | Live(w.store, n)
      ensures n <= |w.store.log| && SettledIn(Content(w.store, n).commands, id, ok)
    {
      LiveCanBeDisk(w.store, n);
      assert n > w.store.writtenSeq ==>
               CommandsAdvance(Content(w.store, w.store.writtenSeq).commands, Content(w.store, n).commands);
    }
    assert CommandsAdvance(Content(w.store, w.store.writtenSeq).commands, w.s.commands);
    assert Content(w.store, w.store.writtenSeq).commands.Keys <= w.issued;
  }

  lemma SettledInMemory(cfg: Config, w: World, e: Event, id: CommandId, ok: Command -> bool)
    requires WorldInv(cfg, w) && Enabled(w, e) && InMemory(e) && Lasting(ok) && id in w.issued
    requires SettledIn(w.s.commands, id, ok)
    ensures id in Next(cfg, w, e).issued && SettledIn(Next(cfg, w, e).s.commands, id, ok)
  {
    SectionGood(cfg, w, e);
    IdsKept(cfg, w, e, Section(cfg, w, e));
    NextIsAdvance(cfg, w, e);
  }

  lemma SettledStep(cfg: Config, w: World, e: Event, id: CommandId, ok: Command -> bool)
    requires WorldInv(cfg, w) && Enabled(w, e) && Lasting(ok) && Settled(w, id, ok)
    ensures Settled(Next(cfg, w, e), id, ok)
  {
    if InMemory(e) {
      SettledInMemory(cfg, w, e, id, ok);
    } else {
      SettledElsewhere(cfg, w, e, id, ok);
    }
    LiveAllStep(cfg, w, e, SettledSnapshot(id, ok));
  }

  lemma SettledElsewhere(cfg: Config, w: World, e: Event, id: CommandId, ok: Command -> bool)
    requires StoreInv(w.store) && Settled(w, id, ok) && Enabled(w, e) && !InMemory(e)
    ensures id in Next(cfg, w, e).issued && SettledIn(Next(cfg, w, e).s.commands, id, ok)
  {
    LiveAllOnDisk(w.store, SettledSnapshot(id, ok));
  }

  lemma {:induction false} SettledStays(cfg: Config, w: World, events: seq<Event>, id: CommandId, ok: Command -> bool)
    requires WorldInv(cfg, w) && Lasting(ok) && Settled(w, id, ok) && RunOk(cfg, w, events)
    ensures WorldInv(cfg, RunFrom(cfg, w, events)) && Settled(RunFrom(cfg, w, events), id, ok)
  {
    RunKeeps(cfg, w, events);
    if events != [] {
      var before := events[..|events| - 1];
      SettledStays(cfg, w, before, id, ok);
      SettledStep(cfg, RunFrom(cfg, w, before), events[|events| - 1], id, ok);
    }
  }

  /** A run after which the command is there without it. */
  lemma Unsettling(cfg: Config, w: World, id: CommandId, ok: Command -> bool) returns (events: seq<Event>)
    requires StoreInv(w.store) && id in w.issued && !Settled(w, id, ok)
    ensures RunOk(cfg, w, events) && !SettledIn(RunFrom(cfg, w, events).s.commands, id, ok)
  {
    if SettledIn(w.s.commands, id, ok) {
      var n := Restoring(cfg, w, SettledSnapshot(id, ok));
      events := RestoreEvents(w, n);
    } else {
      events := [];
    }
  }

  lemma NotSettled(cfg: Config, w: World, events: seq<Event>, id: CommandId, ok: Command -> bool)
    requires RunOk(cfg, w, events) && !SettledIn(RunFrom(cfg, w, events).s.commands, id, ok)
    ensures !forall events :: RunOk(cfg, w, events) ==> SettledIn(RunFrom(cfg, w, events).s.commands, id, ok)
  {
  }

  /** A command has it, or is gone, in every state of every later run, crashes included, if
      and only if it is settled now. */
  lemma SettledIsExact(cfg: Config, w: World, id: CommandId, ok: Command -> bool)
    requires WorldInv(cfg, w) && id in w.issued && Lasting(ok)
    ensures Settled(w, id, ok) <==>
            forall events :: RunOk(cfg, w, events) ==> SettledIn(RunFrom(cfg, w, events).s.commands, id, ok)
  {
    if Settled(w, id, ok) {
      forall events | RunOk(cfg, w, events)
        ensures SettledIn(RunFrom(cfg, w, events).s.commands, id, ok)
      {
        SettledStays(cfg, w, events, id, ok);
      }
    } else {
      var events := Unsettling(cfg, w, id, ok);
      NotSettled(cfg, w, events, id, ok);
    }
  }

  // ----- A command that is no longer to be delivered -----

  function IsDisabled(): Command -> bool { (c: Command) => c.replayDisabled }

  lemma DisabledLasts()
    ensures Lasting(IsDisabled())
  {
  }

  ghost predicate Inactive(commands: map<CommandId, Command>, id: CommandId) {
    SettledIn(commands, id, IsDisabled())
  }

  /** Disabled or gone, for good. */
  ghost predicate Dead(w: World, id: CommandId) { Settled(w, id, IsDisabled()) }

  /** A command that the file records as disabled is dead. */
  lemma DisabledOnDiskIsDead(cfg: Config, w: World, id: CommandId)
    requires WorldInv(cfg, w)
    requires id in w.store.disk.commands && w.store.disk.commands[id].replayDisabled
    ensures Dead(w, id)
  {
    DisabledLasts();
    OnDiskIsSettled(cfg, w, id, IsDisabled());
  }

  /** A dead command stays disabled or gone in every later state, over any number of crashes
      and restarts, and no step ever again decides to send it. */
  lemma DisabledIsForever(cfg: Config, w: World, events: seq<Event>, id: CommandId)
    requires WorldInv(cfg, w) && Dead(w, id) && RunOk(cfg, w, events)
    ensures var v := RunFrom(cfg, w, events);
            && WorldInv(cfg, v) && Dead(v, id)
            && forall e :: Enabled(v, e) && Section(cfg, v, e).send.Send? ==> Section(cfg, v, e).send.commandId != id
  {
    DisabledLasts();
    SettledStays(cfg, w, events, id, IsDisabled());
    var v := RunFrom(cfg, w, events);
    forall e | Enabled(v, e) && Section(cfg, v, e).send.Send?
      ensures Section(cfg, v, e).send.commandId != id
    {
      DisabledNotSentNow(cfg, v, e, id);
    }
  }

  /** Dead is the exact condition: a command is disabled or gone in every state of every
      later run, crashes included, if and only if it is dead now. */
  lemma DeadIsExact(cfg: Config, w: World, id: CommandId)
    requires WorldInv(cfg, w) && id in w.issued
    ensures Dead(w, id) <==>
            forall events :: RunOk(cfg, w, events) ==> Inactive(RunFrom(cfg, w, events).s.commands, id)
  {
    DisabledLasts();
    SettledIsExact(cfg, w, id, IsDisabled());
  }

  // ----- Its local shutdown -----

  lemma DeadUnfollowedStep(cfg: Config, w: World, e: Event, id: CommandId)
    requires WorldInv(cfg, w) && Enabled(w, e) && id != "" && Dead(w, id) && !Follows(w.s, id)
    ensures !Follows(Next(cfg, w, e).s, id)
  {
    if !e.Restart? {
      CancelledNext(cfg, w, e, id);
    } else {
      RestartDropsDead(cfg, w, e, id);
    }
  }

  lemma {:induction false} DeadUnfollowedStays(cfg: Config, w: World, events: seq<Event>, id: CommandId)
    requires WorldInv(cfg, w) && id != "" && Dead(w, id) && !Follows(w.s, id) && RunOk(cfg, w, events)
    ensures !Follows(RunFrom(cfg, w, events).s, id)
  {
    if events != [] {
      var before := events[..|events| - 1];
      DeadUnfollowedStays(cfg, w, before, id);
      DisabledIsForever(cfg, w, before, id);
      DeadUnfollowedStep(cfg, RunFrom(cfg, w, before), events[|events| - 1], id);
    }
  }

  /** Once a command is dead and no local shutdown follows it, none is ever in place again,
      and no step starts one, over any number of crashes and restarts. */
  lemma DeadNeverStarts(cfg: Config, w: World, events: seq<Event>, id: CommandId)
    requires WorldInv(cfg, w) && id != "" && Dead(w, id) && !Follows(w.s, id) && RunOk(cfg, w, events)
    ensures var v := RunFrom(cfg, w, events);
            !Follows(v.s, id) && forall e :: Starts(v, e) ==> e.begin.commandId != id
  {
    DeadUnfollowedStays(cfg, w, events, id);
  }

  /** One that still follows it is gone with the next restart. */
  lemma RestartDropsDead(cfg: Config, w: World, e: Event, id: CommandId)
    requires WorldInv(cfg, w) && id != "" && Dead(w, id) && e.Restart?
    ensures !Follows(Next(cfg, w, e).s, id)
  {
    LiveAllOnDisk(w.store, SettledSnapshot(id, IsDisabled()));
  }

  // ----- A success that a node has reported -----

  function Reports(node: NodeId, ack: Ack): Command -> bool {
    (c: Command) => node in c.updates && c.updates[node] == ack
  }

  /** A report of executed or simulated that the file has is never lost. */
  lemma ReportOnDiskIsSettled(cfg: Config, w: World, id: CommandId, node: NodeId, ack: Ack)
    requires WorldInv(cfg, w) && Classify(ack.status).replayDone
    requires id in w.store.disk.commands && Reports(node, ack)(w.store.disk.commands[id])
    ensures Settled(w, id, Reports(node, ack))
  {
    OnDiskIsSettled(cfg, w, id, Reports(node, ack));
  }

  /** A node's report of executed or simulated is there as long as the command is, in every
      state of every later run, crashes included, if and only if it is in memory and in
      every live snapshot now. */
  lemma ReportIsExact(cfg: Config, w: World, id: CommandId, node: NodeId, ack: Ack)
    requires WorldInv(cfg, w) && id in w.issued && Classify(ack.status).replayDone
    ensures Settled(w, id, Reports(node, ack)) <==>
            forall events :: RunOk(cfg, w, events) ==>
              SettledIn(RunFrom(cfg, w, events).s.commands, id, Reports(node, ack))
  {
    SettledIsExact(cfg, w, id, Reports(node, ack));
  }
}
