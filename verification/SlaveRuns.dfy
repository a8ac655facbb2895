/** What a slave guarantees over every interleaving of its goroutines and every restart. */
module SlaveRuns {
  import opened Types
  import opened Persist
  import opened Slave
  import Retention

  // ----- The executions map -----

  ghost predicate ExecKept(w: Machine, t: Machine) {
    ExecInv(w.m.executions.Keys, w.executors, Claimed(w.pc), w.leaked) ==>
      ExecInv(t.m.executions.Keys, t.executors, Claimed(t.pc), t.leaked)
  }

  lemma StagedKeepsIds(executors: seq<Executor>, i: nat, stage: Stage)
    requires i < |executors|
    ensures InFlight(executors[i := Executor(executors[i].id, stage)]) == InFlight(executors)
    ensures DistinctIds(executors) ==> DistinctIds(executors[i := Executor(executors[i].id, stage)])
  {
    var staged := executors[i := Executor(executors[i].id, stage)];
    assert forall j :: 0 <= j < |executors| ==> staged[j].id == executors[j].id;
  }

  lemma SpawnAddsId(executors: seq<Executor>, x: Executor)
    ensures InFlight(executors + [x]) == InFlight(executors) + {x.id}
    ensures DistinctIds(executors) && x.id !in InFlight(executors) ==> DistinctIds(executors + [x])
  {
    var more := executors + [x];
    assert more[|executors|] == x;
    assert forall j :: 0 <= j < |executors| ==> more[j] == executors[j];
  }

  lemma FinishRemovesId(executors: seq<Executor>, i: nat)
    requires i < |executors| && DistinctIds(executors)
    ensures InFlight(executors[..i] + executors[i + 1..]) == InFlight(executors) - {executors[i].id}
    ensures DistinctIds(executors[..i] + executors[i + 1..])
  {
    var fewer := executors[..i] + executors[i + 1..];
    assert forall j :: 0 <= j < i ==> fewer[j] == executors[j];
    assert forall j :: i < j < |executors| ==> fewer[j - 1] == executors[j];
    assert forall j :: i <= j < |fewer| ==> fewer[j] == executors[j + 1];
  }

  lemma ExecSets(cfg: SlaveConfig, w: Machine, e: Event)
    requires e.Proceed? && Enabled(cfg, w, e) && NextAck(cfg, w.pc, e.at).Some?
    ensures ExecKept(w, DoProceed(cfg, w, e.at, e.dropped))
  {
    ExecSame(w, DoProceed(cfg, w, e.at, e.dropped));
  }

  lemma RebindAdds(executions: map<CommandId, Session>, id: CommandId, session: Session)
    ensures executions[id := session].Keys == executions.Keys + {id}
  {
  }

  /** Claiming or rebinding an id, seen from what it leaves. */
  lemma ExecClaims(w: Machine, t: Machine, x: Executor)
    requires Claimed(w.pc) == {} && t.leaked == w.leaked
    requires t.m.executions.Keys == w.m.executions.Keys + {x.id}
    requires x.id in w.m.executions.Keys ==> t.executors == w.executors && Claimed(t.pc) == {}
    requires x.id !in w.m.executions.Keys ==>
               || (t.executors == w.executors && Claimed(t.pc) == {x.id})
               || (t.executors == w.executors + [x] && Claimed(t.pc) == {})
    ensures ExecKept(w, t)
  {
    if ExecInv(w.m.executions.Keys, w.executors, {}, w.leaked) {
      ClaimAdds(w.m.executions.Keys, w.executors, w.leaked, x);
    }
  }

  lemma ExecSame(w: Machine, t: Machine)
    requires t.m.executions == w.m.executions && t.executors == w.executors && t.leaked == w.leaked
    requires Claimed(t.pc) == Claimed(w.pc)
    ensures ExecKept(w, t)
  {
  }

  lemma ExecLooked(cfg: SlaveConfig, w: Machine, e: Event)
    requires e.Proceed? && Enabled(cfg, w, e) && w.pc.Looked? && w.pc.existing.Some?
    ensures ExecKept(w, DoProceed(cfg, w, e.at, e.dropped))
  {
    var t := DoProceed(cfg, w, e.at, e.dropped);
    LookedProceeds(cfg, w, e.at, e.dropped);
    if t.m == w.m && Claimed(t.pc) == {} {
      ExecSame(w, t);
    } else {
      ExecRebinds(w, t, e.at);
    }
  }

  lemma LookedProceeds(cfg: SlaveConfig, w: Machine, at: Time, dropped: set<CommandId>)
    requires w.pc.Looked? && w.pc.existing.Some?
    ensures var t := DoProceed(cfg, w, at, dropped);
            && t.executors == w.executors && t.leaked == w.leaked
            && (|| (t.m == w.m && Claimed(t.pc) == {})
                || (&& t.m == Rebind(w.m, w.pc.msg.id, w.session)
                    && Claimed(t.pc) == if w.pc.msg.id in w.m.executions then {} else {w.pc.msg.id}))
  {
  }

  lemma ExecRebinds(w: Machine, t: Machine, at: Time)
    requires w.pc.Looked?
    requires t.m == Rebind(w.m, w.pc.msg.id, w.session) && t.executors == w.executors && t.leaked == w.leaked
    requires Claimed(t.pc) == if w.pc.msg.id in w.m.executions then {} else {w.pc.msg.id}
    ensures ExecKept(w, t)
  {
    RebindAdds(w.m.executions, w.pc.msg.id, w.session);
    ExecClaims(w, t, Executor(w.pc.msg.id, InCommand(at)));
  }

  lemma ExecBegins(cfg: SlaveConfig, w: Machine, e: Event)
    requires e.Proceed? && Enabled(cfg, w, e) && w.pc.Beginning?
    ensures ExecKept(w, DoProceed(cfg, w, e.at, e.dropped))
  {
    RebindAdds(w.m.executions, w.pc.msg.id, w.session);
    ExecClaims(w, DoProceed(cfg, w, e.at, e.dropped), Executor(w.pc.msg.id, InCommand(e.at)));
  }

  lemma ExecProceed(cfg: SlaveConfig, w: Machine, e: Event)
    requires e.Proceed? && Enabled(cfg, w, e)
    ensures ExecKept(w, DoProceed(cfg, w, e.at, e.dropped))
  {
    if NextAck(cfg, w.pc, e.at).Some? {
      ExecSets(cfg, w, e);
    } else if w.pc.Looked? {
      ExecLooked(cfg, w, e);
    } else {
      ExecBegins(cfg, w, e);
    }
  }

  /** Claiming an id that is not taken, for a later start or with the start. */
  lemma ClaimAdds(executions: set<CommandId>, executors: seq<Executor>, leaked: set<CommandId>, x: Executor)
    requires ExecInv(executions, executors, {}, leaked)
    ensures x.id in executions ==> executions + {x.id} == executions
    ensures x.id !in executions ==>
              && ExecInv(executions + {x.id}, executors, {x.id}, leaked)
              && ExecInv(executions + {x.id}, executors + [x], {}, leaked)
  {
    SpawnAddsId(executors, x);
  }

  lemma ExecReply(w: Machine, ok: bool, at: Time)
    requires w.pc.Replying?
    ensures ExecKept(w, DoReply(w, ok, at))
  {
    SpawnAddsId(w.executors, Executor(w.pc.msg.id, InCommand(at)));
  }

  predicate IsExecutor(e: Event) {
    e.CommandReturns? || e.ResultRecorded? || e.SessionFound? || e.ResultSent? || e.ExecutionFinishes?
  }

  lemma ExecStage(cfg: SlaveConfig, w: Machine, e: Event)
    requires IsExecutor(e) && !e.ExecutionFinishes? && Enabled(cfg, w, e)
    ensures ExecKept(w, DoExecutor(cfg, w, e))
  {
    var t := DoExecutor(cfg, w, e);
    assert t.executors == w.executors[e.index := Executor(w.executors[e.index].id, t.executors[e.index].stage)];
    StagedKeepsIds(w.executors, e.index, t.executors[e.index].stage);
  }

  lemma ExecFinish(cfg: SlaveConfig, w: Machine, e: Event)
    requires e.ExecutionFinishes? && Enabled(cfg, w, e)
    requires ExecInv(w.m.executions.Keys, w.executors, Claimed(w.pc), w.leaked)
    ensures ExecKept(w, DoExecutor(cfg, w, e))
  {
    FinishRemovesId(w.executors, e.index);
    assert w.executors[e.index].id in InFlight(w.executors);
  }

  lemma ExecStep(cfg: SlaveConfig, w: Machine, e: Event)
    requires Inv(cfg, w) && Enabled(cfg, w, e)
    ensures ExecKept(w, Step(cfg, w, e))
  {
    match e
    case Proceed(_, _) => ExecProceed(cfg, w, e);
    case Reply(ok, at) => ExecReply(w, ok, at);
    case ExecutionFinishes(_) => ExecFinish(cfg, w, e);
    case CommandReturns(_, _, _) => ExecStage(cfg, w, e);
    case ResultRecorded(_, _) => ExecStage(cfg, w, e);
    case SessionFound(_) => ExecStage(cfg, w, e);
    case ResultSent(_) => ExecStage(cfg, w, e);
    case _ =>
  }

  // ----- Reports -----

  /** More messages and more successes justify what was justified before. */
  lemma ReportInvGrows(cfg: SlaveConfig, w: Machine, received: set<Shutdown>, succeeded: set<CommandId>)
    requires ReportInv(cfg, w) && w.received <= received && w.succeeded <= succeeded
    requires forall id :: id in succeeded - w.succeeded ==> Justified(cfg, w.received, w.succeeded, id, Executing)
    ensures ReportInv(cfg, w.(received := received, succeeded := succeeded))
  {
    forall id, status | Justified(cfg, w.received, w.succeeded, id, status)
      ensures Justified(cfg, received, succeeded, id, status)
    {
    }
    forall id | id in succeeded
      ensures Justified(cfg, w.received, w.succeeded, id, Executing)
    {
    }
  }

  lemma SaveJustified(cfg: SlaveConfig, w: Machine)
    requires ReportInv(cfg, w)
    ensures ReportInv(cfg, Save(cfg, w))
  {
    var st := Save(cfg, w).store;
    forall n | 0 <= n <= |st.log|
      ensures StatesJustified(cfg, w.received, w.succeeded, Content(st, n).states)
    {
      if n <= |w.store.log| {
        assert Content(st, n) == Content(w.store, n);
      }
    }
  }

  lemma SetStateJustified(cfg: SlaveConfig, w: Machine, id: CommandId, ack: Ack, dropped: set<CommandId>)
    requires ReportInv(cfg, w) && Justified(cfg, w.received, w.succeeded, id, ack.status)
    ensures ReportInv(cfg, SetState(cfg, w, id, ack, dropped))
  {
    SaveJustified(cfg, w.(m := Drop(WithState(w.m, id, ack), dropped)));
  }

  lemma ProceedJustified(cfg: SlaveConfig, w: Machine, e: Event)
    requires ReportInv(cfg, w) && e.Proceed? && Enabled(cfg, w, e)
    ensures ReportInv(cfg, DoProceed(cfg, w, e.at, e.dropped))
  {
    var next := NextAck(cfg, w.pc, e.at);
    if next.Some? {
      assert Shutdown(w.pc.msg.id, w.pc.msg.dryRun) in w.received;
      SetStateJustified(cfg, w, w.pc.msg.id, next.value, e.dropped);
    }
  }

  lemma ExecutorReports(cfg: SlaveConfig, w: Machine, e: Event)
    requires ReportInv(cfg, w) && IsExecutor(e) && Enabled(cfg, w, e)
    ensures ReportInv(cfg, DoExecutor(cfg, w, e))
  {
    var x := w.executors[e.index];
    assert ExecutorJustified(cfg, w.received, w.succeeded, x);
    match e
    case CommandReturns(_, ok, _) =>
      ReportInvGrows(cfg, w, w.received, if ok then w.succeeded + {x.id} else w.succeeded);
    case ResultRecorded(_, dropped) => SetStateJustified(cfg, w, x.id, x.stage.ack, dropped);
    case _ =>
  }

  lemma StoreJustified(cfg: SlaveConfig, w: Machine, store: Store<Disk>)
    requires ReportInv(cfg, w) && store.log == w.store.log && store.base == w.store.base
    ensures ReportInv(cfg, w.(store := store))
  {
    forall n | 0 <= n <= |store.log|
      ensures Content(store, n) == Content(w.store, n)
    {
    }
  }

  lemma SetTokenJustified(cfg: SlaveConfig, w: Machine, token: Token)
    requires ReportInv(cfg, w)
    ensures ReportInv(cfg, SetToken(cfg, w, token))
  {
    SaveJustified(cfg, w.(m := w.m.(issuedToken := token), pc := Setting(|w.store.log| + 1, token, w.m.issuedToken)));
  }

  lemma ExecutorStepReports(cfg: SlaveConfig, w: Machine, e: Event)
    requires Inv(cfg, w) && IsExecutor(e) && Enabled(cfg, w, e)
    ensures ReportInv(cfg, Step(cfg, w, e))
  {
    ExecutorReports(cfg, w, e);
  }

  predicate OfSession(e: Event) {
    e.Connect? || e.Refused? || e.Admitted? || e.SetWritten? || e.RollBack? || e.SendStored? || e.Hangup?
  }

  lemma SessionReports(cfg: SlaveConfig, w: Machine, e: Event)
    requires Inv(cfg, w) && Enabled(cfg, w, e) && OfSession(e)
    ensures ReportInv(cfg, Step(cfg, w, e))
  {
    match e
    case Refused(_) => SetTokenJustified(cfg, w, "");
    case Admitted(issued) => SetTokenJustified(cfg, w, issued);
    case SetWritten(ok) => StoreJustified(cfg, w, Write(w.store, w.pc.number, ok));
    case _ =>
  }

  lemma MessageReports(cfg: SlaveConfig, w: Machine, e: Event)
    requires Inv(cfg, w) && Enabled(cfg, w, e) && (e.Receive? || e.Proceed? || e.Reply?)
    ensures ReportInv(cfg, Step(cfg, w, e))
  {
    match e
    case Receive(msg) => ReportInvGrows(cfg, w, w.received + {msg}, w.succeeded);
    case Proceed(_, _) => ProceedJustified(cfg, w, e);
    case Reply(ok, at) =>
  }

  lemma StoreReports(cfg: SlaveConfig, w: Machine, e: Event)
    requires Inv(cfg, w) && Enabled(cfg, w, e) && (e.DiskWrite? || e.Restart?)
    ensures ReportInv(cfg, Step(cfg, w, e))
  {
    match e
    case DiskWrite(number, ok) => StoreJustified(cfg, w, Write(w.store, number, ok));
    case Restart(_) =>
  }

  lemma ReportStep(cfg: SlaveConfig, w: Machine, e: Event)
    requires Inv(cfg, w) && Enabled(cfg, w, e)
    ensures ReportInv(cfg, Step(cfg, w, e))
  {
    if OfSession(e) {
      SessionReports(cfg, w, e);
    } else if e.Receive? || e.Proceed? || e.Reply? {
      MessageReports(cfg, w, e);
    } else if e.DiskWrite? || e.Restart? {
      StoreReports(cfg, w, e);
    } else {
      ExecutorStepReports(cfg, w, e);
    }
  }

  // ----- The token -----

  predicate Steady(pc: Pc) { !pc.Setting? && !pc.RollingBack? && !pc.Stored? }

  /** A snapshot of the current token, taken by any goroutine, keeps the token's part. */
  lemma TakeKeepsToken(hasStateFile: bool, pc: Pc, store: Store<Disk>, strays: set<nat>, disk: Disk)
    requires StoreInv(store) && TokenInv(hasStateFile, disk.issuedToken, pc, store, strays)
    ensures StoreInv(Take(store, disk)) && TokenInv(hasStateFile, disk.issuedToken, pc, Take(store, disk), strays)
  {
    var st := Take(store, disk);
    forall n: nat | Live(st, n)
      ensures n <= |st.log|
      ensures n <= |store.log| ==> Live(store, n) && Content(st, n) == Content(store, n)
      ensures n > |store.log| ==> Content(st, n) == disk && n !in strays
    {
    }
  }

  /** A write that another goroutine performs, whether or not it succeeds, keeps it too. */
  lemma WriteKeepsToken(hasStateFile: bool, token: Token, pc: Pc, store: Store<Disk>, strays: set<nat>, number: nat,
                        ok: bool)
    requires StoreInv(store) && TokenInv(hasStateFile, token, pc, store, strays)
    requires number in store.pending && !(pc.Setting? && pc.number == number)
    ensures StoreInv(Write(store, number, ok)) && TokenInv(hasStateFile, token, pc, Write(store, number, ok), strays)
  {
    var st := Write(store, number, ok);
    forall n: nat | Live(st, n)
      ensures Live(store, n) && Content(st, n) == Content(store, n)
    {
    }
  }

  lemma SaveKeepsToken(cfg: SlaveConfig, w: Machine)
    requires StoreInv(w.store) && TokenInv(cfg.hasStateFile, w.m.issuedToken, w.pc, w.store, w.strays)
    ensures var t := Save(cfg, w);
            StoreInv(t.store) && TokenInv(cfg.hasStateFile, t.m.issuedToken, t.pc, t.store, t.strays)
  {
    TakeKeepsToken(cfg.hasStateFile, w.pc, w.store, w.strays, Capture(w.m));
  }

  ghost predicate TokenOk(cfg: SlaveConfig, w: Machine) {
    StoreInv(w.store) && TokenInv(cfg.hasStateFile, w.m.issuedToken, w.pc, w.store, w.strays)
  }

  lemma SetTokenOk(cfg: SlaveConfig, w: Machine, token: Token)
    requires TokenOk(cfg, w) && Steady(w.pc)
    ensures TokenOk(cfg, SetToken(cfg, w, token))
  {
    if cfg.hasStateFile {
      var t := SetToken(cfg, w, token);
      forall n: nat | Live(t.store, n)
        ensures n <= |w.store.log| ==> Live(w.store, n) && Content(t.store, n) == Content(w.store, n)
      {
      }
    }
  }

  lemma SetWrittenOk(cfg: SlaveConfig, w: Machine, ok: bool)
    requires TokenOk(cfg, w) && w.pc.Setting?
    ensures TokenOk(cfg, DoSetWritten(w, ok))
  {
    var st := Write(w.store, w.pc.number, ok);
    forall n: nat | Live(st, n)
      ensures Live(w.store, n) && Content(st, n) == Content(w.store, n)
    {
    }
  }

  lemma RollBackOk(cfg: SlaveConfig, w: Machine)
    requires TokenOk(cfg, w) && w.pc.RollingBack?
    ensures TokenOk(cfg, DoRollBack(w))
  {
    forall n: nat | Live(w.store, n)
      ensures n != w.pc.number
    {
    }
  }

  lemma ProceedTokenOk(cfg: SlaveConfig, w: Machine, e: Event)
    requires TokenOk(cfg, w) && e.Proceed? && Enabled(cfg, w, e)
    ensures TokenOk(cfg, DoProceed(cfg, w, e.at, e.dropped))
  {
    var next := NextAck(cfg, w.pc, e.at);
    if next.Some? {
      SaveKeepsToken(cfg, w.(m := Drop(WithState(w.m, w.pc.msg.id, next.value), e.dropped)));
    }
  }

  lemma ExecutorTokenOk(cfg: SlaveConfig, w: Machine, e: Event)
    requires TokenOk(cfg, w) && IsExecutor(e) && Enabled(cfg, w, e)
    ensures TokenOk(cfg, DoExecutor(cfg, w, e))
  {
    if e.ResultRecorded? {
      var x := w.executors[e.index];
      SaveKeepsToken(cfg, w.(m := Drop(WithState(w.m, x.id, x.stage.ack), e.dropped)));
    }
  }

  lemma TokenStep(cfg: SlaveConfig, w: Machine, e: Event)
    requires Inv(cfg, w) && Enabled(cfg, w, e)
    ensures TokenOk(cfg, Step(cfg, w, e))
  {
    match e
    case Connect =>
    case Refused(_) => SetTokenOk(cfg, w, "");
    case Admitted(issued) => SetTokenOk(cfg, w, issued);
    case SetWritten(ok) => SetWrittenOk(cfg, w, ok);
    case RollBack => RollBackOk(cfg, w);
    case SendStored(_) =>
    case Hangup =>
    case Receive(_) =>
    case Proceed(_, _) => ProceedTokenOk(cfg, w, e);
    case Reply(_, _) =>
    case DiskWrite(number, ok) =>
      WriteKeepsToken(cfg.hasStateFile, w.m.issuedToken, w.pc, w.store, w.strays, number, ok);
    case Restart(_) =>
    case _ => ExecutorTokenOk(cfg, w, e);
  }

  // ----- Runs -----

  lemma StepKeeps(cfg: SlaveConfig, w: Machine, e: Event)
    requires Inv(cfg, w) && Enabled(cfg, w, e)
    ensures Inv(cfg, Step(cfg, w, e))
  {
    ExecStep(cfg, w, e);
    ReportStep(cfg, w, e);
    TokenStep(cfg, w, e);
  }

  lemma {:induction false} RunKeeps(cfg: SlaveConfig, w: Machine, events: seq<Event>, t: Machine)
    requires Inv(cfg, w) && Reaches(cfg, w, events, t)
    ensures Inv(cfg, t)
    decreases |events|
  {
    if events != [] {
      StepKeeps(cfg, w, events[0]);
      RunKeeps(cfg, Step(cfg, w, events[0]), events[1..], t);
    }
  }

  lemma ReachableInv(cfg: SlaveConfig, w: Machine)
    requires Reachable(cfg, w)
    ensures Inv(cfg, w)
  {
    var events :| Reaches(cfg, FIRST, events, w);
    RunKeeps(cfg, FIRST, events, w);
  }

  /** The invariant of all slaves. */
  ghost predicate FleetInv(cfgs: map<NodeId, SlaveConfig>, slaves: map<NodeId, Machine>) {
    slaves.Keys == cfgs.Keys && forall node :: node in slaves ==> Inv(cfgs[node], slaves[node])
  }

  lemma FleetSwap(cfgs: map<NodeId, SlaveConfig>, slaves: map<NodeId, Machine>, node: NodeId, m: Machine)
    requires FleetInv(cfgs, slaves) && node in slaves && Inv(cfgs[node], m)
    ensures FleetInv(cfgs, slaves[node := m])
  {
    var ok := (n: NodeId, x: Machine) => n in cfgs && Inv(cfgs[n], x);
    Swapped(slaves, node, m, slaves[node := m], ok);
  }

  lemma Swapped<K, V>(entries: map<K, V>, key: K, value: V, next: map<K, V>, ok: (K, V) -> bool)
    requires forall k :: k in entries ==> ok(k, entries[k])
    requires key in entries && ok(key, value) && next == entries[key := value]
    ensures forall k :: k in next ==> ok(k, next[k])
    ensures next.Keys == entries.Keys
  {
  }

  // ----- Executions -----

  /** At most one execution per command id is in flight, under every interleaving of
      replays, reconnects and finishes; and the executions map holds exactly the ids in
      flight, the one just claimed, and those whose claim was never started. */
  lemma AtMostOneExecution(cfg: SlaveConfig, w: Machine)
    requires Reachable(cfg, w)
    ensures forall i, j :: 0 <= i < |w.executors| && 0 <= j < |w.executors| && w.executors[i].id == w.executors[j].id ==> i == j
    ensures w.m.executions.Keys == InFlight(w.executors) + Claimed(w.pc) + w.leaked
    ensures InFlight(w.executors) !! w.leaked
  {
    ReachableInv(cfg, w);
  }

  /** The id is taken, but nothing is in flight for it and nobody has just claimed it. */
  ghost predicate Lost(w: Machine, id: CommandId) {
    id in w.m.executions && id !in InFlight(w.executors) && id !in Claimed(w.pc)
  }

  lemma LostIsLeaked(w: Machine, id: CommandId)
    requires ExecInv(w.m.executions.Keys, w.executors, Claimed(w.pc), w.leaked)
    ensures Lost(w, id) <==> id in w.leaked
  {
  }

  /** A claim is lost in one way only: the reply to a replayed command, whose state was
      still executing, could not be sent. */
  lemma LeakNeedsFailedReply(cfg: SlaveConfig, w: Machine, e: Event, id: CommandId)
    requires Reachable(cfg, w) && Enabled(cfg, w, e)
    ensures Lost(Step(cfg, w, e), id) && !Lost(w, id) <==>
              && e.Reply? && !e.ok
              && w.pc.Replying? && w.pc.after.ThenSpawn? && w.pc.msg.id == id
  {
    ReachableInv(cfg, w);
    StepKeeps(cfg, w, e);
    LostIsLeaked(w, id);
    LostIsLeaked(Step(cfg, w, e), id);
    assert id in w.leaked ==> id !in Claimed(w.pc);
  }

  ghost predicate NoRestart(events: seq<Event>) { forall e :: e in events ==> !e.Restart? }

  /** A lost claim keeps the command from ever being executed again by this process,
      however often the master replays it: only a restart clears the claim. */
  lemma {:induction false} LeakedNeverRuns(cfg: SlaveConfig, w: Machine, events: seq<Event>, t: Machine, id: CommandId)
    requires Inv(cfg, w) && Reaches(cfg, w, events, t) && NoRestart(events) && Lost(w, id)
    ensures Lost(t, id)
    decreases |events|
  {
    if events != [] {
      assert events[0] in events;
      var next := Step(cfg, w, events[0]);
      StepKeeps(cfg, w, events[0]);
      LostIsLeaked(w, id);
      LostIsLeaked(next, id);
      LeakedNeverRuns(cfg, next, events[1..], t, id);
    }
  }

  // ----- Reports -----

  /** What lies behind every recorded state and every ack ever sent: executing, executed
      and failed only on a node that is not dry-run, for a command that was received as no
      dry run; executed only when its shutdown command returned success; simulated only
      when the node or the command is a dry run; and a dry-run node executes nothing. */
  lemma ReportsAreTrue(cfg: SlaveConfig, w: Machine)
    requires Reachable(cfg, w)
    ensures forall id :: id in w.m.states ==> Justified(cfg, w.received, w.succeeded, id, w.m.states[id].status)
    ensures forall r :: r in w.sent ==> Justified(cfg, w.received, w.succeeded, r.id, r.ack.status)
    ensures forall id :: id in w.succeeded || id in InFlight(w.executors) ==>
              !cfg.dryRun && Shutdown(id, false) in w.received
  {
    ReachableInv(cfg, w);
    forall id | id in InFlight(w.executors)
      ensures !cfg.dryRun && Shutdown(id, false) in w.received
    {
      var i :| 0 <= i < |w.executors| && w.executors[i].id == id;
      assert ExecutorJustified(cfg, w.received, w.succeeded, w.executors[i]);
    }
  }

  // ----- Pruning -----

  /** The steps that record a command state. */
  predicate Records(cfg: SlaveConfig, w: Machine, e: Event) {
    e.ResultRecorded? || (e.Proceed? && NextAck(cfg, w.pc, e.at).Some?)
  }

  lemma CandidatesAre(m: Memory)
    ensures AckTimes(m).Keys == PruneCandidates(m) && |m.states| == |m.states.Keys| && |m.executions| == |m.executions.Keys|
  {
  }

  lemma DropBounds(m: Memory, dropped: set<CommandId>)
    requires Prunes(m, dropped)
    ensures |Drop(m, dropped).states| <= MAX_RETAINED_STATES || |Drop(m, dropped).states| <= |m.executions|
    ensures forall id :: id in m.states && id in m.executions ==> id in Drop(m, dropped).states
  {
    CandidatesAre(m);
    Retention.EvictionBounds(m.states.Keys, m.executions.Keys, PruneCandidates(m), MAX_RETAINED_STATES, dropped);
    assert Drop(m, dropped).states.Keys == m.states.Keys - dropped;
  }

  /** Recording a state leaves at most 200 states, or as many as are in flight if that is
      more; and no step but a restart loses the state of a command in flight. */
  lemma PruningSparesInFlight(cfg: SlaveConfig, w: Machine, e: Event, id: CommandId)
    requires Enabled(cfg, w, e) && !e.Restart?
    ensures var t := Step(cfg, w, e).m;
            && (Records(cfg, w, e) ==> |t.states| <= MAX_RETAINED_STATES || |t.states| <= |t.executions|)
            && (id in w.m.states && id in w.m.executions ==> id in t.states)
  {
    if e.ResultRecorded? {
      DropBounds(WithState(w.m, w.executors[e.index].id, w.executors[e.index].stage.ack), e.dropped);
    } else if Records(cfg, w, e) {
      DropBounds(WithState(w.m, w.pc.msg.id, NextAck(cfg, w.pc, e.at).value), e.dropped);
    }
  }

  // ----- The issued token -----

  /** The step puts another token in place. */
  predicate SetsToken(cfg: SlaveConfig, w: Machine, e: Event) {
    (e.Refused? && w.pc.Registering? && w.pc.usedIssued && e.invalidToken) || (e.Admitted? && e.issued != "")
  }

  /** The token is in memory and survives a crash, now and after any pending write. */
  ghost predicate Holds(w: Machine, token: Token) {
    w.m.issuedToken == token && Durable(w.store, token) && !w.pc.Setting? && !w.pc.RollingBack?
  }

  lemma ConfirmedIsDurable(cfg: SlaveConfig, w: Machine, e: Event, c: Confirmation)
    requires Inv(cfg, w) && Enabled(cfg, w, e)
    requires c in Step(cfg, w, e).stored && c !in w.stored
    ensures e.SendStored? && c.session == w.session
    ensures Holds(w, c.token) && w.store.disk.issuedToken == c.token
    ensures Holds(Step(cfg, w, e), c.token)
  {
    assert Live(w.store, w.store.writtenSeq);
  }

  /** When token_stored is sent, the token it means has reached the disk, and no pending
      write can remove it. */
  lemma ConfirmedTokenIsDurable(cfg: SlaveConfig, w: Machine, e: Event, c: Confirmation)
    requires Reachable(cfg, w) && Enabled(cfg, w, e)
    requires c in Step(cfg, w, e).stored && c !in w.stored
    ensures e.SendStored? && c.session == w.session
    ensures Holds(w, c.token) && w.store.disk.issuedToken == c.token
    ensures Holds(Step(cfg, w, e), c.token)
  {
    ReachableInv(cfg, w);
    ConfirmedIsDurable(cfg, w, e, c);
  }

  lemma SaveHolds(cfg: SlaveConfig, w: Machine, token: Token)
    requires StoreInv(w.store) && Holds(w, token)
    ensures Holds(Save(cfg, w), token)
  {
    var st := Save(cfg, w).store;
    forall n: nat | Live(st, n)
      ensures n <= |w.store.log| ==> Live(w.store, n) && Content(st, n) == Content(w.store, n)
    {
    }
  }

  lemma WriteHolds(w: Machine, number: nat, ok: bool, token: Token)
    requires StoreInv(w.store) && Holds(w, token) && number in w.store.pending
    ensures Holds(w.(store := Write(w.store, number, ok)), token)
  {
    var st := Write(w.store, number, ok);
    forall n: nat | Live(st, n)
      ensures Live(w.store, n) && Content(st, n) == Content(w.store, n)
    {
    }
  }

  lemma ProceedHolds(cfg: SlaveConfig, w: Machine, e: Event, token: Token)
    requires StoreInv(w.store) && Holds(w, token) && e.Proceed? && Enabled(cfg, w, e)
    ensures Holds(DoProceed(cfg, w, e.at, e.dropped), token)
  {
    var next := NextAck(cfg, w.pc, e.at);
    if next.Some? {
      SaveHolds(cfg, w.(m := Drop(WithState(w.m, w.pc.msg.id, next.value), e.dropped)), token);
    }
  }

  lemma ExecutorHolds(cfg: SlaveConfig, w: Machine, e: Event, token: Token)
    requires StoreInv(w.store) && Holds(w, token) && IsExecutor(e) && Enabled(cfg, w, e)
    ensures Holds(DoExecutor(cfg, w, e), token)
  {
    if e.ResultRecorded? {
      var x := w.executors[e.index];
      SaveHolds(cfg, w.(m := Drop(WithState(w.m, x.id, x.stage.ack), e.dropped)), token);
    }
  }

  lemma HoldsStep(cfg: SlaveConfig, w: Machine, e: Event, token: Token)
    requires StoreInv(w.store) && Holds(w, token) && Enabled(cfg, w, e)
    requires !SetsToken(cfg, w, e) && e != Restart(true)
    ensures Holds(Step(cfg, w, e), token)
  {
    match e
    case Proceed(_, _) => ProceedHolds(cfg, w, e, token);
    case DiskWrite(number, ok) => WriteHolds(w, number, ok, token);
    case CommandReturns(_, _, _) => ExecutorHolds(cfg, w, e, token);
    case ResultRecorded(_, _) => ExecutorHolds(cfg, w, e, token);
    case SessionFound(_) => ExecutorHolds(cfg, w, e, token);
    case ResultSent(_) => ExecutorHolds(cfg, w, e, token);
    case ExecutionFinishes(_) => ExecutorHolds(cfg, w, e, token);
    case Restart(_) => assert Live(w.store, w.store.writtenSeq);
    case _ =>
  }

  /** No step of the run sets another token or loses the file. */
  ghost predicate Undisturbed(cfg: SlaveConfig, w: Machine, events: seq<Event>)
    decreases |events|
  {
    if events == [] then true
    else
      && Enabled(cfg, w, events[0]) && !SetsToken(cfg, w, events[0]) && events[0] != Restart(true)
      && Undisturbed(cfg, Step(cfg, w, events[0]), events[1..])
  }

  /** It stays durable over any interleaving with command states being recorded and written,
      in any order and with any failures, and over crashes, until the slave next sets or
      clears its token: the slave goes on registering with it. */
  lemma {:induction false} TokenStaysDurable(cfg: SlaveConfig, w: Machine, events: seq<Event>, t: Machine, token: Token)
    requires Inv(cfg, w) && Holds(w, token)
    requires Reaches(cfg, w, events, t) && Undisturbed(cfg, w, events)
    ensures Holds(t, token) && t.store.disk.issuedToken == token
    decreases |events|
  {
    if events == [] {
      assert Live(w.store, w.store.writtenSeq);
    } else {
      StepKeeps(cfg, w, events[0]);
      HoldsStep(cfg, w, events[0], token);
      TokenStaysDurable(cfg, Step(cfg, w, events[0]), events[1..], t, token);
    }
  }

  /** The token the slave registers with survives a crash exactly unless some snapshot that
      can still be, or is, the file was taken while a token that could not be stored was in
      memory. */
  lemma TokenIsDurableUnlessStray(cfg: SlaveConfig, w: Machine)
    requires Reachable(cfg, w) && Steady(w.pc)
    ensures Durable(w.store, w.m.issuedToken) <==> !exists n: nat :: Live(w.store, n) && n in w.strays
  {
    ReachableInv(cfg, w);
  }

  /** The exception happens: when an execution records its result between setting a token
      and the failure of that write, the record's own write puts the failed token on disk,
      while the slave goes back to the previous one. */
  lemma StrayReplacesToken(cfg: SlaveConfig, w: Machine, i: nat, dropped: set<CommandId>) returns (t: Machine)
    requires TokenOk(cfg, w) && w.pc.Setting? && w.pc.token != w.pc.previous && w.store.writtenSeq < w.pc.number
    requires Enabled(cfg, w, ResultRecorded(i, dropped))
    ensures var number := |w.store.log| + 1;
            Reaches(cfg, w, [ResultRecorded(i, dropped), SetWritten(false), DiskWrite(number, true), RollBack], t)
    ensures t.m.issuedToken == w.pc.previous && t.store.disk.issuedToken == w.pc.token
    ensures !Durable(t.store, t.m.issuedToken)
  {
    var number := |w.store.log| + 1;
    var recorded := Step(cfg, w, ResultRecorded(i, dropped));
    var failed := Step(cfg, recorded, SetWritten(false));
    t := StrayWritten(cfg, failed, w.pc.token, w.pc.previous, number);
    ReachesFirst(cfg, recorded, SetWritten(false), [DiskWrite(number, true), RollBack], t);
    ReachesFirst(cfg, w, ResultRecorded(i, dropped), [SetWritten(false)] + [DiskWrite(number, true), RollBack], t);
    assert [ResultRecorded(i, dropped)] + ([SetWritten(false)] + [DiskWrite(number, true), RollBack]) ==
           [ResultRecorded(i, dropped), SetWritten(false), DiskWrite(number, true), RollBack];
  }

  lemma ReachesFirst(cfg: SlaveConfig, w: Machine, e: Event, rest: seq<Event>, t: Machine)
    requires Enabled(cfg, w, e) && Reaches(cfg, Step(cfg, w, e), rest, t)
    ensures Reaches(cfg, w, [e] + rest, t)
  {
    assert ([e] + rest)[1..] == rest;
  }

  lemma StrayWritten(cfg: SlaveConfig, w: Machine, token: Token, previous: Token, number: nat) returns (t: Machine)
    requires w.pc.RollingBack? && w.pc.token == token && w.pc.previous == previous != token
    requires number == |w.store.log| && number in w.store.pending
    requires number > w.store.writtenSeq && w.store.log[number - 1].issuedToken == token == w.m.issuedToken
    ensures Reaches(cfg, w, [DiskWrite(number, true), RollBack], t)
    ensures t.m.issuedToken == previous && t.store.disk.issuedToken == token && !Durable(t.store, t.m.issuedToken)
  {
    var written := Step(cfg, w, DiskWrite(number, true));
    t := Step(cfg, written, RollBack);
    var none: seq<Event> := [];
    assert Reaches(cfg, t, none, t);
    ReachesFirst(cfg, written, RollBack, none, t);
    ReachesFirst(cfg, w, DiskWrite(number, true), [RollBack], t);
    assert Live(t.store, t.store.writtenSeq);
  }
}
