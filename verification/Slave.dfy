/** One slave: its memory under `commandMu`, the goroutine that serves the connection,
    the goroutines that execute shutdowns, and the state file. Every critical section,
    send and write is one step, and any goroutine may take the next one. */
module Slave {
  import opened Types
  import opened Persist
  import Retention

  const MAX_RETAINED_STATES := 200

  datatype SlaveConfig = SlaveConfig(dryRun: bool, hasStateFile: bool, token: Token)

  /** A shutdown message. */
  datatype Shutdown = Shutdown(id: CommandId, dryRun: bool)

  // ----- The memory and its critical sections -----

  datatype Memory = Memory(issuedToken: Token, states: map<CommandId, Ack>, executions: map<CommandId, Session>)

  function PruneCandidates(m: Memory): set<CommandId> { m.states.Keys - m.executions.Keys }

  function AckTimes(m: Memory): map<CommandId, Time> {
    map id | id in PruneCandidates(m) :: m.states[id].ackedAt
  }

  /** What pruning may drop: the oldest states beyond the cap, none of them in flight. */
  ghost predicate Prunes(m: Memory, dropped: set<CommandId>) {
    Retention.Evicts(AckTimes(m), |m.states| - MAX_RETAINED_STATES, dropped)
  }

  function WithState(m: Memory, id: CommandId, ack: Ack): Memory { m.(states := m.states[id := ack]) }

  function Drop(m: Memory, dropped: set<CommandId>): Memory { m.(states := m.states - dropped) }

  function Rebind(m: Memory, id: CommandId, session: Session): Memory {
    m.(executions := m.executions[id := session])
  }

  function Finish(m: Memory, id: CommandId): Memory { m.(executions := m.executions - {id}) }

  // ----- The machine -----

  datatype Disk = Disk(issuedToken: Token, states: map<CommandId, Ack>)

  function Capture(m: Memory): Disk { Disk(m.issuedToken, m.states) }

  datatype After = ThenStop | ThenResume | ThenBegin | ThenSpawn

  /** Where the connection's goroutine is. */
  datatype Pc =
    | Offline
    | Registering(presented: Token, usedIssued: bool)
    | Setting(number: nat, token: Token, previous: Token)
    | RollingBack(number: nat, token: Token, previous: Token)
    | Stored(token: Token)
    | Serving
    | Looked(msg: Shutdown, existing: Option<Ack>)
    | Replying(msg: Shutdown, ack: Ack, after: After)
    | Resuming(msg: Shutdown)
    | Beginning(msg: Shutdown)

  datatype Stage =
    | InCommand(startedAt: Time)
    | Returned(ack: Ack)
    | Recorded(ack: Ack)
    | Reporting(ack: Ack, session: Option<Session>)
    | Reported

  datatype Executor = Executor(id: CommandId, stage: Stage)

  datatype Report = Report(id: CommandId, ack: Ack)

  /** A token_stored message: it has no payload; the token is what the slave means by it. */
  datatype Confirmation = Confirmation(session: Session, token: Token)

  /** `received`, `succeeded` (ids whose shutdown command returned success), `sent` and
      `stored` (acks and token_stored messages handed to a connection, which may deliver
      them even if the send reports a failure), `leaked` (ids claimed for an execution that never started) and
      `strays` (snapshots taken while a token was set that could not be stored) are
      histories; the last two are of the current process. */
  datatype Machine = Machine(
    m: Memory,
    pc: Pc,
    session: Session,
    executors: seq<Executor>,
    store: Store<Disk>,
    received: set<Shutdown>,
    succeeded: set<CommandId>,
    sent: set<Report>,
    stored: set<Confirmation>,
    leaked: set<CommandId>,
    strays: set<nat>)

  datatype Event =
    | Connect
    | Refused(invalidToken: bool)
    | Admitted(issued: Token)
    | SetWritten(ok: bool)
    | RollBack
    | SendStored(ok: bool)
    | Hangup
    | Receive(msg: Shutdown)
    | Proceed(at: Time, dropped: set<CommandId>)
    | Reply(ok: bool, at: Time)
    | CommandReturns(index: nat, ok: bool, at: Time)
    | ResultRecorded(index: nat, dropped: set<CommandId>)
    | SessionFound(index: nat)
    | ResultSent(index: nat)
    | ExecutionFinishes(index: nat)
    | DiskWrite(number: nat, ok: bool)
    | Restart(fileLost: bool)

  /** The state that a step of the connection's goroutine is about to set, if any. */
  function NextAck(cfg: SlaveConfig, pc: Pc, at: Time): Option<Ack> {
    match pc
    case Looked(_, None) => Some(Ack(Accepted, at))
    case Resuming(msg) => Some(Ack(if msg.dryRun || cfg.dryRun then Simulated else Executing, at))
    case _ => None
  }

  ghost predicate Enabled(cfg: SlaveConfig, w: Machine, e: Event) {
    match e
    case Connect => w.pc.Offline?
    case Refused(_) => w.pc.Registering?
    case Admitted(_) => w.pc.Registering?
    case SetWritten(_) => w.pc.Setting? && 1 <= w.pc.number <= |w.store.log|
    case RollBack => w.pc.RollingBack?
    case SendStored(_) => w.pc.Stored?
    case Hangup => w.pc.Registering? || w.pc.Serving?
    case Receive(_) => w.pc.Serving?
    case Proceed(at, dropped) =>
      && (w.pc.Looked? || w.pc.Resuming? || w.pc.Beginning?)
      && (NextAck(cfg, w.pc, at).Some? ==> Prunes(WithState(w.m, w.pc.msg.id, NextAck(cfg, w.pc, at).value), dropped))
    case Reply(_, _) => w.pc.Replying?
    case CommandReturns(i, _, _) => i < |w.executors| && w.executors[i].stage.InCommand?
    case ResultRecorded(i, dropped) =>
      && i < |w.executors| && w.executors[i].stage.Returned?
      && Prunes(WithState(w.m, w.executors[i].id, w.executors[i].stage.ack), dropped)
    case SessionFound(i) => i < |w.executors| && w.executors[i].stage.Recorded?
    case ResultSent(i) => i < |w.executors| && w.executors[i].stage.Reporting?
    case ExecutionFinishes(i) => i < |w.executors| && w.executors[i].stage.Reported?
    case DiskWrite(number, _) =>
      number in w.store.pending && 1 <= number <= |w.store.log| && !(w.pc.Setting? && w.pc.number == number)
    case Restart(_) => true
  }

  function Save(cfg: SlaveConfig, w: Machine): Machine {
    if cfg.hasStateFile then w.(store := Take(w.store, Capture(w.m))) else w
  }

  /** setCommandState. */
  function SetState(cfg: SlaveConfig, w: Machine, id: CommandId, ack: Ack, dropped: set<CommandId>): Machine {
    Save(cfg, w.(m := Drop(WithState(w.m, id, ack), dropped)))
  }

  /** setIssuedToken up to its write. Without a state file it fails at once. */
  function SetToken(cfg: SlaveConfig, w: Machine, token: Token): Machine {
    if !cfg.hasStateFile then w.(pc := AfterSet(token))
    else
      Save(cfg, w.(m := w.m.(issuedToken := token), pc := Setting(|w.store.log| + 1, token, w.m.issuedToken)))
  }

  /** Where a failed setIssuedToken leaves the goroutine: clearing happens on a rejected
      registration, storing on an accepted one. */
  function AfterSet(token: Token): Pc { if token == "" then Offline else Serving }

  function DoSetWritten(w: Machine, ok: bool): Machine
    requires w.pc.Setting? && 1 <= w.pc.number <= |w.store.log|
  {
    var succeeds := w.pc.number <= w.store.writtenSeq || ok;
    w.(store := Write(w.store, w.pc.number, ok),
       pc := if !succeeds then RollingBack(w.pc.number, w.pc.token, w.pc.previous)
             else if w.pc.token == "" then Offline else Stored(w.pc.token))
  }

  predicate TakenAfter(number: nat, n: nat) { number < n }

  /** The snapshots that other goroutines took while the failed token was in memory. */
  function Overtakers(pc: Pc, store: Store<Disk>): set<nat>
    requires pc.RollingBack?
  {
    if pc.token == pc.previous then {} else set n: nat | n <= |store.log| && TakenAfter(pc.number, n)
  }

  function DoRollBack(w: Machine): Machine
    requires w.pc.RollingBack?
  {
    w.(m := if w.m.issuedToken == w.pc.token then w.m.(issuedToken := w.pc.previous) else w.m,
       strays := w.strays + Overtakers(w.pc, w.store),
       pc := AfterSet(w.pc.token))
  }

  function Spawn(w: Machine, id: CommandId, at: Time): Machine {
    w.(executors := w.executors + [Executor(id, InCommand(at))], pc := Serving)
  }

  /** Looked, Resuming and Beginning: the next critical section of handling a shutdown. */
  function DoProceed(cfg: SlaveConfig, w: Machine, at: Time, dropped: set<CommandId>): Machine
    requires w.pc.Looked? || w.pc.Resuming? || w.pc.Beginning?
  {
    var msg := w.pc.msg;
    var next := NextAck(cfg, w.pc, at);
    if next.Some? then
      SetState(cfg, w, msg.id, next.value, dropped).(
        pc := Replying(msg, next.value, if w.pc.Looked? then ThenResume
                                        else if next.value.status == Simulated then ThenStop else ThenBegin))
    else if w.pc.Looked? then
      var existing := w.pc.existing.value;
      match existing.status
      case Executing =>
        w.(m := Rebind(w.m, msg.id, w.session),
           pc := Replying(msg, existing, if msg.id in w.m.executions then ThenStop else ThenSpawn))
      case Accepted => w.(pc := Replying(msg, existing, ThenResume))
      case Failed => w.(pc := Replying(msg, existing, ThenResume))
      case _ => w.(pc := Replying(msg, existing, ThenStop))
    else
      var w' := w.(m := Rebind(w.m, msg.id, w.session), pc := Serving);
      if msg.id in w.m.executions then w' else Spawn(w', msg.id, at)
  }

  function DoReply(w: Machine, ok: bool, at: Time): Machine
    requires w.pc.Replying?
  {
    var w' := w.(sent := w.sent + {Report(w.pc.msg.id, w.pc.ack)});
    if !ok then
      w'.(pc := Offline, leaked := if w.pc.after.ThenSpawn? then w.leaked + {w.pc.msg.id} else w.leaked)
    else
      match w.pc.after
      case ThenStop => w'.(pc := Serving)
      case ThenResume => w'.(pc := Resuming(w.pc.msg))
      case ThenBegin => w'.(pc := Beginning(w.pc.msg))
      case ThenSpawn => Spawn(w', w.pc.msg.id, at)
  }

  function Staged(w: Machine, i: nat, stage: Stage): Machine
    requires i < |w.executors|
  {
    w.(executors := w.executors[i := Executor(w.executors[i].id, stage)])
  }

  function DoExecutor(cfg: SlaveConfig, w: Machine, e: Event): Machine
    requires Enabled(cfg, w, e)
    requires e.CommandReturns? || e.ResultRecorded? || e.SessionFound? || e.ResultSent? || e.ExecutionFinishes?
  {
    var x := w.executors[e.index];
    match e
    case CommandReturns(i, ok, at) =>
      Staged(w, i, Returned(if ok then Ack(Executed, x.stage.startedAt) else Ack(Failed, at))).(
        succeeded := if ok then w.succeeded + {x.id} else w.succeeded)
    case ResultRecorded(i, dropped) => Staged(SetState(cfg, w, x.id, x.stage.ack, dropped), i, Recorded(x.stage.ack))
    case SessionFound(i) =>
      Staged(w, i, Reporting(x.stage.ack, if x.id in w.m.executions then Some(w.m.executions[x.id]) else None))
    case ResultSent(i) =>
      Staged(w, i, Reported).(
        sent := if x.stage.session.Some? then w.sent + {Report(x.id, x.stage.ack)} else w.sent)
    case ExecutionFinishes(i) =>
      w.(m := Finish(w.m, x.id), executors := w.executors[..i] + w.executors[i + 1..])
  }

  const NO_DISK := Disk("", map[])

  /** A new process: its memory is what the file holds, and nothing is in flight. */
  function Reboot(w: Machine, disk: Disk): Machine {
    w.(m := Memory(disk.issuedToken, disk.states, map[]), pc := Offline, executors := [],
       store := Fresh(disk), leaked := {}, strays := {})
  }

  function Step(cfg: SlaveConfig, w: Machine, e: Event): Machine
    requires Enabled(cfg, w, e)
  {
    match e
    case Connect =>
      w.(session := w.session + 1,
         pc := if w.m.issuedToken != "" then Registering(w.m.issuedToken, true) else Registering(cfg.token, false))
    case Refused(invalidToken) =>
      if w.pc.usedIssued && invalidToken then SetToken(cfg, w, "") else w.(pc := Offline)
    case Admitted(issued) => if issued != "" then SetToken(cfg, w, issued) else w.(pc := Serving)
    case SetWritten(ok) => DoSetWritten(w, ok)
    case RollBack => DoRollBack(w)
    case SendStored(ok) =>
      w.(stored := w.stored + {Confirmation(w.session, w.pc.token)}, pc := if ok then Serving else Offline)
    case Hangup => w.(pc := Offline)
    case Receive(msg) =>
      w.(received := w.received + {msg},
         pc := Looked(msg, if msg.id in w.m.states then Some(w.m.states[msg.id]) else None))
    case Proceed(at, dropped) => DoProceed(cfg, w, at, dropped)
    case Reply(ok, at) => DoReply(w, ok, at)
    case DiskWrite(number, ok) => w.(store := Write(w.store, number, ok))
    case Restart(fileLost) => Reboot(w, if fileLost then NO_DISK else w.store.disk)
    case _ => DoExecutor(cfg, w, e)
  }

  const FIRST := Machine(Memory("", map[], map[]), Offline, 0, [], Fresh(NO_DISK), {}, {}, {}, {}, {}, {})

  /** Some interleaving of the events, each enabled in its turn, leads from `w` to `t`. */
  ghost predicate Reaches(cfg: SlaveConfig, w: Machine, events: seq<Event>, t: Machine)
    decreases |events|
  {
    if events == [] then t == w
    else Enabled(cfg, w, events[0]) && Reaches(cfg, Step(cfg, w, events[0]), events[1..], t)
  }

  ghost predicate Reachable(cfg: SlaveConfig, w: Machine) {
    exists events :: Reaches(cfg, FIRST, events, w)
  }

  // ----- The invariant -----

  function InFlight(executors: seq<Executor>): set<CommandId> {
    set i | 0 <= i < |executors| :: executors[i].id
  }

  /** The id that the connection's goroutine has claimed and not yet started. */
  function Claimed(pc: Pc): set<CommandId> {
    if pc.Replying? && pc.after.ThenSpawn? then {pc.msg.id} else {}
  }

  ghost predicate DistinctIds(executors: seq<Executor>) {
    forall i, j :: 0 <= i < j < |executors| ==> executors[i].id != executors[j].id
  }

  /** The executions map is exactly what is in flight, claimed or leaked, each id once. */
  ghost predicate ExecInv(executions: set<CommandId>, executors: seq<Executor>, claimed: set<CommandId>,
                          leaked: set<CommandId>)
  {
    && DistinctIds(executors)
    && executions == InFlight(executors) + claimed + leaked
    && InFlight(executors) !! claimed && InFlight(executors) !! leaked && claimed !! leaked
  }

  /** What happened, for every state a slave may record or report. */
  ghost predicate Justified(cfg: SlaveConfig, received: set<Shutdown>, succeeded: set<CommandId>, id: CommandId,
                            status: Status)
  {
    match status
    case Accepted => exists dryRun :: Shutdown(id, dryRun) in received
    case Simulated => (cfg.dryRun && exists dryRun :: Shutdown(id, dryRun) in received) || Shutdown(id, true) in received
    case Executing => !cfg.dryRun && Shutdown(id, false) in received
    case Failed => !cfg.dryRun && Shutdown(id, false) in received
    case Executed => !cfg.dryRun && Shutdown(id, false) in received && id in succeeded
    case _ => false
  }

  ghost predicate StatesJustified(cfg: SlaveConfig, received: set<Shutdown>, succeeded: set<CommandId>,
                                  states: map<CommandId, Ack>)
  {
    forall id :: id in states ==> Justified(cfg, received, succeeded, id, states[id].status)
  }

  ghost predicate PcJustified(cfg: SlaveConfig, received: set<Shutdown>, succeeded: set<CommandId>, pc: Pc) {
    match pc
    case Looked(msg, existing) =>
      msg in received && (existing.Some? ==> Justified(cfg, received, succeeded, msg.id, existing.value.status))
    case Replying(msg, ack, after) =>
      && msg in received && Justified(cfg, received, succeeded, msg.id, ack.status)
      && (after.ThenBegin? || after.ThenSpawn? ==> ack.status == Executing)
    case Resuming(msg) => msg in received
    case Beginning(msg) => msg in received && Justified(cfg, received, succeeded, msg.id, Executing)
    case _ => true
  }

  ghost predicate ExecutorJustified(cfg: SlaveConfig, received: set<Shutdown>, succeeded: set<CommandId>, x: Executor) {
    && Justified(cfg, received, succeeded, x.id, Executing)
    && (x.stage.Returned? || x.stage.Recorded? || x.stage.Reporting? ==>
          Justified(cfg, received, succeeded, x.id, x.stage.ack.status))
  }

  ghost predicate DiskJustified(cfg: SlaveConfig, received: set<Shutdown>, succeeded: set<CommandId>, store: Store<Disk>) {
    forall n :: 0 <= n <= |store.log| ==> StatesJustified(cfg, received, succeeded, Content(store, n).states)
  }

  ghost predicate SentJustified(cfg: SlaveConfig, received: set<Shutdown>, succeeded: set<CommandId>, sent: set<Report>) {
    forall r :: r in sent ==> Justified(cfg, received, succeeded, r.id, r.ack.status)
  }

  ghost predicate ReportInv(cfg: SlaveConfig, w: Machine) {
    && StatesJustified(cfg, w.received, w.succeeded, w.m.states)
    && PcJustified(cfg, w.received, w.succeeded, w.pc)
    && (forall i :: 0 <= i < |w.executors| ==> ExecutorJustified(cfg, w.received, w.succeeded, w.executors[i]))
    && (forall id :: id in w.succeeded ==> Justified(cfg, w.received, w.succeeded, id, Executing))
    && DiskJustified(cfg, w.received, w.succeeded, w.store)
    && SentJustified(cfg, w.received, w.succeeded, w.sent)
  }

  /** `token` survives a crash now and after any pending write. */
  ghost predicate Durable(store: Store<Disk>, token: Token) {
    forall n: nat :: Live(store, n) ==> n <= |store.log| && Content(store, n).issuedToken == token
  }

  /** Every live snapshot carries the token in memory, except the strays, which do not. */
  ghost predicate Carries(store: Store<Disk>, strays: set<nat>, token: Token) {
    forall n: nat :: Live(store, n) ==> n <= |store.log| && (Content(store, n).issuedToken == token <==> n !in strays)
  }

  /** While a token is being set: older snapshots carry the previous token, newer ones the
      new token. */
  ghost predicate Window(store: Store<Disk>, strays: set<nat>, number: nat, token: Token, previous: Token) {
    forall n: nat :: Live(store, n) ==>
      && n <= |store.log|
      && if n < number then Content(store, n).issuedToken == previous <==> n !in strays
         else Content(store, n).issuedToken == token && n !in strays
  }

  ghost predicate TokenInv(hasStateFile: bool, memory: Token, pc: Pc, store: Store<Disk>, strays: set<nat>) {
    && (forall n :: n in strays ==> n <= |store.log|)
    && match pc
       case Setting(number, token, previous) =>
         && hasStateFile && memory == token && 1 <= number <= |store.log| && number in store.pending
         && Window(store, strays, number, token, previous)
       case RollingBack(number, token, previous) =>
         && hasStateFile && memory == token && number <= |store.log|
         && Window(store, strays, number, token, previous) && !Live(store, number)
       case Stored(token) => memory == token && Durable(store, token) && Carries(store, strays, memory)
       case _ => Carries(store, strays, memory)
  }

  ghost predicate Inv(cfg: SlaveConfig, w: Machine) {
    && ExecInv(w.m.executions.Keys, w.executors, Claimed(w.pc), w.leaked)
    && ReportInv(cfg, w)
    && StoreInv(w.store)
    && TokenInv(cfg.hasStateFile, w.m.issuedToken, w.pc, w.store, w.strays)
  }
}
