/** The whole master as a state machine: every critical section is one step, and what
    a goroutine still has to do after an unlock is pending work that any other step may
    overtake. A run is any sequence of enabled events, including crashes and restarts. */
module MasterWorld {
  import opened Types
  import opened Policy
  import opened MasterState
  import opened MasterInvariant
  import opened Debounce
  import opened Persist

  /** Where the polling goroutine is between two locks. */
  datatype Poll =
    | Idle
    | Got(reading: Reading, at: Time)
    | Adjusted(reading: Reading, at: Time)
    | ToEvaluate(maybe: Option<Reading>, at: Time)
    | ToVouch(due: seq<string>, at: Time)
    | ToApply(due: seq<string>, at: Time)

  /** Where the watcher goroutine is: between two sections of a tick, about to start the
      local shutdown it decided on, or waiting for the runner it called. It does all of
      this itself, so it does nothing else meanwhile. */
  datatype Watcher = Ticking | Deciding(begin: Begin) | Waiting

  /** A runner call that has not returned: the local shutdown as it was when the call was
      made, and whether the watcher made it. */
  datatype Call = Call(local: LocalShutdown, byWatcher: bool)

  /** History of the current process: whether it restored an episode that had powered
      the master off, whether it has read the UPS, and whether a local shutdown failed. */
  datatype Process = Process(restoredPoweredOff: bool, sawReading: bool, runFailed: bool)

  /** `begins` are decisions of ack handlers to start the local shutdown that have not
      reached the lock again; `issued` are all command ids ever used. */
  datatype World = World(
    s: State,
    poll: Poll,
    watcher: Watcher,
    begins: multiset<Begin>,
    runners: seq<Call>,
    store: Store<Snapshot>,
    issued: set<CommandId>,
    process: Process)

  datatype Event =
    | PollOk(reading: Reading, at: Time)
    | PollFail(at: Time)
    | PollEpisode
    | PollConfirm
    | PollPolicies
    | PollVouch
    | PollApply(clients: map<NodeId, set<Tag>>, id: CommandId)
    | WatchTimeouts(now: Time, dropped: set<CommandId>)
    | WatchRetry(now: Time, clients: map<NodeId, set<Tag>>)
    | WatchLocal(now: Time, maybe: Option<Reading>)
    | BeginRun(begin: Begin, byWatcher: bool, at: Time)
    | FinishRun(index: nat, failed: bool)
    | AckArrives(id: CommandId, node: NodeId, ack: Ack, now: Time)
    | Reconnect(node: NodeId, tags: set<Tag>, now: Time)
    | Manual(request: Request, clients: map<NodeId, set<Tag>>, now: Time, id: CommandId)
    | Reset
    | DirectoryChange
    | DiskWrite(number: nat, ok: bool)
    | Restart(at: Time, fileLost: bool)

  predicate FreshId(w: World, id: CommandId) {
    id != "" && id !in w.issued
  }

  ghost predicate Enabled(w: World, e: Event) {
    match e
    case PollOk(_, _) => w.poll.Idle?
    case PollFail(_) => w.poll.Idle?
    case PollEpisode => w.poll.Got?
    case PollConfirm => w.poll.Adjusted?
    case PollPolicies => w.poll.ToEvaluate?
    case PollVouch => w.poll.ToVouch?
    case PollApply(clients, id) => w.poll.ToApply? && FreshId(w, id) && "" !in clients
    case WatchTimeouts(now, dropped) => w.watcher.Ticking? && Prunes(MarkTimeouts(w.s, now), dropped)
    case WatchRetry(_, _) => w.watcher.Ticking?
    case WatchLocal(_, _) => w.watcher.Ticking?
    case BeginRun(begin, byWatcher, _) => if byWatcher then w.watcher == Deciding(begin) else begin in w.begins
    case FinishRun(index, _) => index < |w.runners|
    case Manual(_, clients, _, id) => FreshId(w, id) && "" !in clients
    case DiskWrite(number, _) => number in w.store.pending && 1 <= number <= |w.store.log|
    case _ => true
  }

  /** What the event's critical section does to the server and decides. */
  function Section(cfg: Config, w: World, e: Event): Outcome {
    match e
    case PollOk(reading, at) => Quiet(RecordSuccess(w.s, reading, at))
    case PollFail(at) => Quiet(RecordError(w.s, at))
    case PollEpisode =>
      if !w.poll.Got? then Quiet(w.s)
      else if w.poll.reading.onBattery then StartEpisode(w.s, w.poll.at)
      else EndEpisodeOnLinePower(w.s)
    case PollConfirm => Quiet(Confirm(w.s))
    case PollPolicies =>
      if !w.poll.ToEvaluate? then Quiet(w.s)
      else Quiet(EvaluatePolicies(cfg, w.s, w.poll.maybe, w.poll.at).state)
    case PollVouch => Quiet(Confirm(w.s))
    case PollApply(clients, id) =>
      if !w.poll.ToApply? then Quiet(w.s)
      else ApplyPolicyMatch(cfg, w.s, w.poll.due, clients, w.poll.at, id)
    case WatchTimeouts(now, dropped) => MarkTimedOutCommands(w.s, now, dropped)
    case WatchRetry(now, clients) => RetryEpisodeShutdown(cfg, w.s, clients, now)
    case WatchLocal(now, maybe) => EvaluateLocalShutdown(cfg, w.s, maybe, now)
    case BeginRun(begin, _, at) =>
      if begin.NoBegin? || !CanBegin(w.s, begin.commandId) then Quiet(w.s)
      else Saved(BeginLocal(w.s, begin.commandId, begin.trigger, at))
    case FinishRun(index, failed) =>
      if index >= |w.runners| then Quiet(w.s) else FinishLocal(w.s, w.runners[index].local.commandId, failed)
    case AckArrives(id, node, ack, now) => HandleAck(w.s, id, node, ack, now)
    case Reconnect(node, tags, now) => ReplayForNode(cfg, w.s, node, tags, now)
    case Manual(request, clients, now, id) =>
      var t := TriggerShutdown(cfg, w.s, request, clients, now, id);
      if t.Issued? then t.outcome else Quiet(w.s)
    case Reset => ResetActiveCommand(w.s)
    case DirectoryChange => Saved(w.s)
    case DiskWrite(_, _) => Quiet(w.s)
    case Restart(_, _) => Quiet(w.s)
  }

  function PollNext(cfg: Config, w: World, e: Event): Poll {
    match e
    case PollOk(reading, at) => Got(reading, at)
    case PollFail(at) => ToEvaluate(None, at)
    case PollEpisode => if w.poll.Got? then Adjusted(w.poll.reading, w.poll.at) else w.poll
    case PollConfirm =>
      if w.poll.Adjusted? && w.poll.reading.onBattery then ToEvaluate(Some(w.poll.reading), w.poll.at) else Idle
    case PollPolicies =>
      if !w.poll.ToEvaluate? then w.poll
      else
        var v := EvaluatePolicies(cfg, w.s, w.poll.maybe, w.poll.at);
        if v.vouched then ToVouch(v.due, w.poll.at) else if v.due != [] then ToApply(v.due, w.poll.at) else Idle
    case PollVouch => if w.poll.ToVouch? && w.poll.due != [] then ToApply(w.poll.due, w.poll.at) else Idle
    case PollApply(_, _) => Idle
    case _ => w.poll
  }

  /** A runner call is made when a pending decision finds its local shutdown startable. */
  predicate Starts(w: World, e: Event) {
    e.BeginRun? && e.begin.Begin? && CanBegin(w.s, e.begin.commandId)
  }

  function RunnersNext(w: World, e: Event, o: Outcome): seq<Call> {
    if Starts(w, e) && o.state.local.Some? then w.runners + [Call(o.state.local.value, e.byWatcher)]
    else if e.FinishRun? && e.index < |w.runners| then w.runners[..e.index] + w.runners[e.index + 1..]
    else w.runners
  }

  function BeginsNext(w: World, e: Event, o: Outcome): multiset<Begin> {
    var left := if e.BeginRun? && !e.byWatcher then w.begins - multiset{e.begin} else w.begins;
    if o.begin.Begin? && !e.WatchLocal? then left + multiset{o.begin} else left
  }

  function WatcherNext(w: World, e: Event, o: Outcome): Watcher {
    match e
    case WatchLocal(_, _) => if o.begin.Begin? then Deciding(o.begin) else w.watcher
    case BeginRun(_, byWatcher, _) => if !byWatcher then w.watcher else if Starts(w, e) then Waiting else Ticking
    case FinishRun(index, _) => if index < |w.runners| && w.runners[index].byWatcher then Ticking else w.watcher
    case _ => w.watcher
  }

  function IssuedNext(w: World, e: Event): set<CommandId> {
    match e
    case PollApply(_, id) => w.issued + {id}
    case Manual(_, _, _, id) => w.issued + {id}
    case _ => w.issued
  }

  function ProcessNext(w: World, e: Event): Process {
    match e
    case PollOk(_, _) => w.process.(sawReading := true)
    case FinishRun(_, failed) => if failed then w.process.(runFailed := true) else w.process
    case _ => w.process
  }

  /** A new process: everything in memory is gone, the file is loaded. An unusable file
      is set aside, which starts from empty state. */
  function Boot(cfg: Config, disk: Snapshot, issued: set<CommandId>, at: Time): World {
    World(
      Load(cfg, disk, at), Idle, Ticking, multiset{}, [], Fresh(disk), issued,
      Process(disk.episode.Some? && disk.episode.value.masterPoweredOff, false, false))
  }

  /** The world after a critical section with outcome `o`. */
  function Advance(cfg: Config, w: World, e: Event, o: Outcome): World {
    World(
      o.state,
      PollNext(cfg, w, e),
      WatcherNext(w, e, o),
      BeginsNext(w, e, o),
      RunnersNext(w, e, o),
      if o.saved then Take(w.store, Capture(o.state)) else w.store,
      IssuedNext(w, e),
      ProcessNext(w, e))
  }

  function Next(cfg: Config, w: World, e: Event): World {
    match e
    case Restart(at, fileLost) => Boot(cfg, if fileLost then EMPTY_SNAPSHOT else w.store.disk, w.issued, at)
    case DiskWrite(number, ok) =>
      if 1 <= number <= |w.store.log| then w.(store := Write(w.store, number, ok)) else w
    case _ => Advance(cfg, w, e, Section(cfg, w, e))
  }

  const FIRST_BOOT_IDS: set<CommandId> := {}

  function First(cfg: Config, at: Time): World { Boot(cfg, EMPTY_SNAPSHOT, FIRST_BOOT_IDS, at) }

  function RunFrom(cfg: Config, w: World, events: seq<Event>): World {
    if events == [] then w else Next(cfg, RunFrom(cfg, w, events[..|events| - 1]), events[|events| - 1])
  }

  ghost predicate RunOk(cfg: Config, w: World, events: seq<Event>) {
    events == [] ||
    (RunOk(cfg, w, events[..|events| - 1])
     && Enabled(RunFrom(cfg, w, events[..|events| - 1]), events[|events| - 1]))
  }

  /** A world some run of the master reaches, over any number of restarts. */
  ghost predicate Reachable(cfg: Config, w: World) {
    exists at: Time, events: seq<Event> :: RunOk(cfg, First(cfg, at), events) && RunFrom(cfg, First(cfg, at), events) == w
  }
}
