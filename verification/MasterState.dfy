/** The master's command state and what each critical section of `commandMu`
    does to it, as functions on values. The class in MasterServer.dfy performs the same
    sections in place and is proved against these functions; the properties are
    proved about the functions. */
module MasterState {
  import opened Types
  import opened Policy
  import Retention

  const RETRY_INTERVAL: int := 30_000_000_000
  const MAX_RETAINED := 200
  const MAX_TIMEOUT_SECONDS := 24 * 60 * 60
  const SECOND: int := 1_000_000_000

  datatype Config = Config(
    dryRun: bool,
    commandTimeout: int,
    localEnabled: bool,
    maxWait: int,
    emergencyRuntime: int,
    unreachableAfter: int,
    policies: seq<PolicySpec>)

  /** A shutdown command. `tracked` maps every target node to the tags it had when
      it was added; only its keys are the source's TargetNodes, the tags are a
      history variable that no decision reads. */
  datatype Command = Command(
    target: Target,
    dryRun: bool,
    tracked: map<NodeId, set<Tag>>,
    updates: map<NodeId, Ack>,
    timeoutAt: Option<Time>,
    completedAt: Option<Time>,
    replayDisabled: bool,
    auto: bool)

  datatype Observation = Observation(reading: Reading, at: Time)

  /** One on-battery period. `commandFrom` (how many policies had fired when the
      episode command was created) and `seen` (the battery readings evaluated in
      this episode by this process) are history variables. */
  datatype Episode = Episode(
    startedAt: Time,
    commandId: CommandId,
    fired: seq<string>,
    masterPoweredOff: bool,
    matchSince: map<string, Time>,
    commandFrom: nat,
    seen: seq<Observation>)

  datatype Phase = WaitingRemote | WaitExpired | Emergency | Running | Completed | RunFailed

  datatype Trigger =
    | NoTrigger | RemoteComplete | MaxWaitExpired | EmergencyRuntime | UpsUnreachable | LowBattery

  /** What the master saw when it decided that the waiting was over: the reports of all
      target nodes when it last found every one of them finished, and the tick at which it
      found the deadline passed. A history variable. */
  datatype Grounds = Grounds(finished: Option<map<NodeId, Status>>, expiredAt: Option<Time>)

  const NO_GROUNDS := Grounds(None, None)

  datatype LocalShutdown = LocalShutdown(
    phase: Phase,
    commandId: CommandId,
    startedAt: Time,
    deadlineAt: Option<Time>,
    trigger: Trigger,
    lastAttemptAt: Option<Time>,
    dryRun: bool,
    grounds: Grounds)

  /** What the last polls left behind. */
  datatype UpsView = UpsView(reading: Option<Reading>, lastSuccessAt: Option<Time>, lastErrorAt: Option<Time>)

  datatype State = State(
    commands: map<CommandId, Command>,
    active: CommandId,
    shutdownIssued: bool,
    episode: Option<Episode>,
    local: Option<LocalShutdown>,
    upsConfirmed: bool,
    lastNodeRetryAt: Option<Time>,
    ups: UpsView,
    startedAt: Time)

  /** A decision to deliver a command to some nodes. */
  datatype Send = NoSend | Send(commandId: CommandId, dryRun: bool, nodes: set<NodeId>)

  /** A decision to start the local shutdown of a command. */
  datatype Begin = NoBegin | Begin(commandId: CommandId, trigger: Trigger)

  /** What a critical section leaves: the new state, whether it took a snapshot for
      the state file, and what its goroutine goes on to do after the unlock. */
  datatype Outcome = Outcome(state: State, saved: bool, send: Send, begin: Begin)

  function Quiet(s: State): Outcome { Outcome(s, false, NoSend, NoBegin) }
  function Saved(s: State): Outcome { Outcome(s, true, NoSend, NoBegin) }

  // ----- Predicates on commands -----

  predicate HasStatus(c: Command, node: NodeId, status: Status) {
    node in c.updates && c.updates[node].status == status
  }

  predicate CommandComplete(c: Command) {
    && c.tracked.Keys != {}
    && forall node :: node in c.tracked ==> node in c.updates && Classify(c.updates[node].status).complete
  }

  predicate RemoteShutdownFinished(c: Command) {
    && c.tracked.Keys != {}
    && forall node :: node in c.tracked ==> node in c.updates && Classify(c.updates[node].status).final
  }

  predicate HasRepairableTimeout(c: Command) {
    exists node :: node in c.tracked && HasStatus(c, node, Timeout)
  }

  predicate ShouldReplay(c: Command, node: NodeId) {
    && !c.replayDisabled
    && node in c.tracked
    && !(node in c.updates && Classify(c.updates[node].status).replayDone)
  }

  function ReplayableNodes(c: Command): set<NodeId> {
    set node | node in c.tracked && ShouldReplay(c, node)
  }

  function SelectTargets(clients: map<NodeId, set<Tag>>, target: Target): map<NodeId, set<Tag>> {
    map node | node in clients && Matches(target, node, clients[node]) :: clients[node]
  }

  function Reopen(cfg: Config, c: Command, now: Time): Command {
    var timeoutAt := now + cfg.commandTimeout;
    c.(completedAt := None,
       timeoutAt := if c.timeoutAt.None? || c.timeoutAt.value < timeoutAt then Some(timeoutAt) else c.timeoutAt)
  }

  /** The connected clients that match the command and are not tracked yet. */
  function Untracked(c: Command, clients: map<NodeId, set<Tag>>): map<NodeId, set<Tag>> {
    SelectTargets(clients, c.target) - c.tracked.Keys
  }

  function Adopt(cfg: Config, c: Command, clients: map<NodeId, set<Tag>>, now: Time): Command {
    var found := Untracked(c, clients);
    if found.Keys == {} then c else Reopen(cfg, c.(tracked := c.tracked + found), now)
  }

  // ----- UPS readings -----

  /** How long the UPS has not answered, when the latest poll failed. */
  function SilentFor(s: State, now: Time): Option<int> {
    if s.ups.lastErrorAt.None? then None
    else if s.ups.lastSuccessAt.None? then Some(now - s.startedAt)
    else if s.ups.lastErrorAt.value <= s.ups.lastSuccessAt.value then None
    else Some(now - s.ups.lastSuccessAt.value)
  }

  function RecordSuccess(s: State, reading: Reading, at: Time): State {
    s.(ups := UpsView(Some(reading), Some(at), None))
  }

  function RecordError(s: State, at: Time): State {
    s.(ups := s.ups.(lastErrorAt := Some(at)))
  }

  predicate EmergencyRuntimeReached(cfg: Config, reading: Option<Reading>) {
    && reading.Some? && reading.value.onBattery && reading.value.runtime.Some?
    && 0 <= reading.value.runtime.value < cfg.emergencyRuntime
  }

  function EmergencyTrigger(cfg: Config, s: State, reading: Option<Reading>, now: Time): Trigger {
    if EmergencyRuntimeReached(cfg, reading) then EmergencyRuntime
    else if reading.Some? && reading.value.onBattery && reading.value.lowBattery then LowBattery
    else
      var silent := SilentFor(s, now);
      if silent.Some? && cfg.unreachableAfter > 0 && silent.value >= cfg.unreachableAfter then UpsUnreachable
      else NoTrigger
  }

  predicate AwaitingReadingAfterPowerOff(s: State) {
    s.episode.Some? && s.episode.value.masterPoweredOff && !s.upsConfirmed
  }

  /** The local shutdown was armed for the current episode: by its command, or by
      an emergency before the episode had a command. */
  predicate LocalBelongsToEpisode(s: State) {
    && s.episode.Some? && s.local.Some?
    && (s.local.value.commandId == s.episode.value.commandId || s.local.value.commandId == "")
  }

  predicate LocalTerminal(phase: Phase) {
    phase == Running || phase == Completed
  }

  // ----- Episode steps -----

  function StartEpisode(s: State, at: Time): Outcome {
    if s.episode.Some? then Quiet(s)
    else Saved(s.(episode := Some(Episode(at, "", [], false, map[], 0, []))))
  }

  function Disable(commands: map<CommandId, Command>, id: CommandId): map<CommandId, Command> {
    if id in commands then commands[id := commands[id].(replayDisabled := true)] else commands
  }

  function CloseEpisode(s: State): State
    requires s.episode.Some?
  {
    var id := s.episode.value.commandId;
    var clears := id in s.commands && s.active == id;
    s.(commands := Disable(s.commands, id),
       active := if clears then "" else s.active,
       shutdownIssued := if clears then false else s.shutdownIssued,
       local := if LocalBelongsToEpisode(s) && s.local.value.phase != Running then None else s.local,
       episode := None)
  }

  function EndEpisodeOnLinePower(s: State): Outcome {
    var s1 := if s.episode.Some? then CloseEpisode(s) else s;
    var releases := s1.active in s1.commands && s1.active != ""
                    && !s1.commands[s1.active].auto && CommandComplete(s1.commands[s1.active]);
    var s2 := if releases then s1.(active := "", shutdownIssued := false) else s1;
    Outcome(s2, s.episode.Some? || releases, NoSend, NoBegin)
  }

  /** The scan of the policies at one poll, over the first `n` of them. */
  datatype Scan = Scan(matchSince: map<string, Time>, due: seq<string>, vouched: bool)

  function ScanPolicy(p: PolicySpec, fired: seq<string>, reading: Option<Reading>, silentFor: int, now: Time,
                      acc: Scan): Scan
  {
    if p.unreachableFor > 0 then
      if reading.None? && silentFor >= p.unreachableFor then
        acc.(vouched := true, due := if p.name in fired then acc.due else acc.due + [p.name])
      else acc
    else if p.name in fired || reading.None? then acc
    else if !PolicyMatches(reading.value, p) then acc.(matchSince := acc.matchSince - {p.name})
    else
      var since := if p.name in acc.matchSince then acc.matchSince[p.name] else now;
      acc.(matchSince := acc.matchSince[p.name := since],
           due := if now - since >= p.duration then acc.due + [p.name] else acc.due)
  }

  function ScanPolicies(policies: seq<PolicySpec>, n: nat, e: Episode, reading: Option<Reading>,
                        silentFor: int, now: Time): Scan
    requires n <= |policies|
  {
    if n == 0 then Scan(e.matchSince, [], false)
    else ScanPolicy(policies[n - 1], e.fired, reading, silentFor, now,
                    ScanPolicies(policies, n - 1, e, reading, silentFor, now))
  }

  /** A poll's verdict: the new state, and either nothing to do or the due policies
      plus whether an unreachable policy vouches for the episode. */
  datatype Verdict = Verdict(state: State, vouched: bool, due: seq<string>)

  function EvaluatePolicies(cfg: Config, s: State, reading: Option<Reading>, now: Time): Verdict {
    var silent := SilentFor(s, now);
    if reading.None? && silent.None? then Verdict(s, false, [])
    else if s.episode.None? || (reading.None? && AwaitingReadingAfterPowerOff(s)) then Verdict(s, false, [])
    else
      var e := s.episode.value;
      var silentFor := if reading.None? then silent.value else 0;
      var scan := ScanPolicies(cfg.policies, |cfg.policies|, e, reading, silentFor, now);
      var seen := if reading.Some? then e.seen + [Observation(reading.value, now)] else e.seen;
      Verdict(s.(episode := Some(e.(matchSince := scan.matchSince, seen := seen))), scan.vouched, scan.due)
  }

  function Confirm(s: State): State { s.(upsConfirmed := true) }

  /** Starts waiting for the remotes, unless a local shutdown is already running,
      already follows this command, or was armed by an emergency of the episode. */
  function Arm(cfg: Config, s: State, id: CommandId, c: Command, now: Time): Option<LocalShutdown> {
    if !cfg.localEnabled || !c.target.all then s.local
    else if s.local.Some? && (s.local.value.phase == Running || s.local.value.commandId == id ||
                              (s.local.value.commandId == "" && s.episode.Some?)) then s.local
    else Some(LocalShutdown(WaitingRemote, id, now, Some(now + cfg.maxWait), NoTrigger, None, c.dryRun, NO_GROUNDS))
  }

  function SupersedeManual(s: State): State {
    if s.active !in s.commands || s.commands[s.active].auto then s
    else
      s.(commands := Disable(s.commands, s.active),
         local := if s.local.Some? && s.local.value.commandId == s.active && !LocalTerminal(s.local.value.phase)
                  then None else s.local,
         active := "")
  }

  function Unfired(fired: seq<string>, names: seq<string>): (r: seq<string>)
    ensures forall name :: name in r <==> name in names && name !in fired
  {
    if names == [] then []
    else
      var rest := Unfired(fired, names[..|names| - 1]);
      assert names == names[..|names| - 1] + [names[|names| - 1]];
      if names[|names| - 1] in fired then rest else rest + [names[|names| - 1]]
  }

  function WidenCommand(cfg: Config, s: State, target: Target, newlyFired: seq<string>,
                        clients: map<NodeId, set<Tag>>, now: Time): Outcome
    requires s.episode.Some? && s.episode.value.commandId in s.commands
  {
    var e := s.episode.value;
    var prior := s.commands[e.commandId];
    var widened := prior.(target := MergeTargets(prior.target, target));
    var c := Adopt(cfg, widened, clients, now);
    Outcome(
      s.(commands := s.commands[e.commandId := c],
         local := if !prior.target.all && c.target.all then Arm(cfg, s, e.commandId, c, now) else s.local,
         episode := Some(e.(fired := e.fired + newlyFired)),
         shutdownIssued := true),
      true, Send(e.commandId, c.dryRun, Untracked(widened, clients).Keys), NoBegin)
  }

  function NewCommand(target: Target, dryRun: bool, clients: map<NodeId, set<Tag>>, timeoutAt: Time,
                      auto: bool): Command
  {
    Command(target, dryRun, SelectTargets(clients, target) - {""}, map[], Some(timeoutAt), None, false, auto)
  }

  function CreateCommand(cfg: Config, s: State, target: Target, newlyFired: seq<string>,
                         clients: map<NodeId, set<Tag>>, now: Time, id: CommandId): Outcome
    requires s.episode.Some?
  {
    var s1 := SupersedeManual(s);
    var e := s.episode.value;
    var c := NewCommand(target, cfg.dryRun, clients, now + cfg.commandTimeout, true);
    Outcome(
      s1.(commands := s1.commands[id := c],
          active := id,
          local := Arm(cfg, s1, id, c, now),
          episode := Some(e.(commandId := id, commandFrom := |e.fired|, fired := e.fired + newlyFired)),
          lastNodeRetryAt := Some(now),
          shutdownIssued := true),
      true, Send(id, c.dryRun, SelectTargets(clients, target).Keys), NoBegin)
  }

  /** Turns the due policies into shutdown activity: the first to fire creates the
      episode command, later ones widen it. */
  function ApplyPolicyMatch(cfg: Config, s: State, names: seq<string>, clients: map<NodeId, set<Tag>>,
                            now: Time, id: CommandId): Outcome
  {
    if s.episode.None? then Quiet(s)
    else
      var newlyFired := Unfired(s.episode.value.fired, names);
      var target := TargetOf(cfg.policies, names);
      if newlyFired == [] then Quiet(s)
      else if s.episode.value.commandId in s.commands then WidenCommand(cfg, s, target, newlyFired, clients, now)
      else CreateCommand(cfg, s, target, newlyFired, clients, now, id)
  }

  function RetryNodes(c: Command, clients: map<NodeId, set<Tag>>): set<NodeId> {
    (set node | node in c.tracked && (HasStatus(c, node, Failed) || HasStatus(c, node, Timeout)))
    + Untracked(c, clients).Keys
  }

  function RetryEpisodeShutdown(cfg: Config, s: State, clients: map<NodeId, set<Tag>>, now: Time): Outcome {
    if s.episode.None? || !s.upsConfirmed
       || (s.lastNodeRetryAt.Some? && now - s.lastNodeRetryAt.value < RETRY_INTERVAL) then Quiet(s)
    else
      var id := s.episode.value.commandId;
      if id !in s.commands || s.commands[id].replayDisabled then Quiet(s)
      else
        var c := s.commands[id];
        var nodes := RetryNodes(c, clients);
        if nodes == {} then Quiet(s)
        else
          Outcome(
            s.(commands := s.commands[id := Reopen(cfg, Adopt(cfg, c, clients, now), now)],
               lastNodeRetryAt := Some(now)),
            true, Send(id, c.dryRun, nodes), NoBegin)
  }

  // ----- Timeouts and pruning -----

  predicate TimesOut(c: Command, now: Time) {
    c.completedAt.None? && c.timeoutAt.Some? && c.timeoutAt.value <= now
  }

  /** Every node without a complete status gets the master-assigned Timeout. */
  function WithTimeouts(c: Command, now: Time): Command {
    c.(updates := map node | node in c.updates.Keys + c.tracked.Keys ::
         if node in c.updates && (node !in c.tracked || Classify(c.updates[node].status).complete)
         then c.updates[node] else Ack(Timeout, now))
  }

  function TimeOut(c: Command, now: Time): Command {
    if !TimesOut(c, now) then c
    else
      var t := WithTimeouts(c, now);
      if CommandComplete(t) then t.(completedAt := Some(now)) else t
  }

  predicate ReleasedBy(c: Command) {
    CommandComplete(c) && !c.auto && !HasRepairableTimeout(c)
  }

  /** Timing out the command ends it as the active one. */
  predicate TimeoutReleases(c: Command, now: Time) {
    TimesOut(c, now) && ReleasedBy(WithTimeouts(c, now))
  }

  function MarkTimeouts(s: State, now: Time): State {
    var releases := s.active in s.commands && TimeoutReleases(s.commands[s.active], now);
    s.(commands := map id | id in s.commands :: TimeOut(s.commands[id], now),
       active := if releases then "" else s.active,
       shutdownIssued := if releases then false else s.shutdownIssued)
  }

  predicate PruneCandidate(s: State, id: CommandId) {
    && id in s.commands && s.commands[id].completedAt.Some?
    && id != s.active
    && !(s.local.Some? && s.local.value.commandId == id)
  }

  function PruneCandidates(s: State): set<CommandId> {
    set id | id in s.commands && PruneCandidate(s, id)
  }

  function CompletionTimes(s: State): map<CommandId, Time> {
    map id | id in PruneCandidates(s) :: s.commands[id].completedAt.value
  }

  /** `dropped` is what pruning may evict: the excess over the cap, oldest completed
      first, never the active command or the one the local shutdown follows. */
  ghost predicate Prunes(s: State, dropped: set<CommandId>) {
    Retention.Evicts(CompletionTimes(s), |s.commands| - MAX_RETAINED, dropped)
  }

  function MarkTimedOutCommands(s: State, now: Time, dropped: set<CommandId>): Outcome {
    var s1 := MarkTimeouts(s, now);
    var s2 := s1.(commands := s1.commands - dropped);
    Outcome(s2, s2 != s, NoSend, NoBegin)
  }

  // ----- Acks, manual commands, reset, replay -----

  /** The command with one more report; it completes when that was the last one missing. */
  function WithAck(c: Command, node: NodeId, ack: Ack, now: Time): Command {
    var c0 := c.(updates := c.updates[node := ack]);
    if CommandComplete(c0) then c0.(completedAt := Some(now)) else c0
  }

  /** What the target nodes of a command have reported. */
  function Reported(c: Command): map<NodeId, Status> {
    map node | node in c.tracked && node in c.updates :: c.updates[node].status
  }

  /** The waiting local shutdown, once every target node has finished. */
  function AllFinished(l: LocalShutdown, c: Command): LocalShutdown {
    l.(trigger := RemoteComplete, grounds := l.grounds.(finished := Some(Reported(c))))
  }

  function RecordShutdownUpdate(s: State, id: CommandId, node: NodeId, ack: Ack, now: Time): Outcome {
    if id !in s.commands || node !in s.commands[id].tracked then Quiet(s)
    else if node in s.commands[id].updates && Classify(s.commands[id].updates[node].status).replayDone then Quiet(s)
    else
      var c := WithAck(s.commands[id], node, ack, now);
      var releases := s.active == id && ReleasedBy(c);
      var starts := RemoteShutdownFinished(c) && s.local.Some? && s.local.value.commandId == id
                    && s.local.value.phase == WaitingRemote;
      Outcome(
        s.(commands := s.commands[id := c],
           active := if releases then "" else s.active,
           shutdownIssued := if releases then false else s.shutdownIssued,
           local := if starts then Some(AllFinished(s.local.value, c)) else s.local),
        true, NoSend, if starts then Begin(id, RemoteComplete) else NoBegin)
  }

  /** An ack as it comes off a connection: bound to the connection's node, and
      dropped unless its status is one a slave may report. */
  function HandleAck(s: State, id: CommandId, node: NodeId, ack: Ack, now: Time): Outcome {
    if Classify(ack.status).reportable then RecordShutdownUpdate(s, id, node, ack, now) else Quiet(s)
  }

  datatype Request = Request(nodeIds: set<NodeId>, tags: set<Tag>, dryRun: Option<bool>, timeoutSeconds: Option<int>)

  datatype TriggerError = TimeoutTooLong | NoTargets | AlreadyActive

  datatype TriggerResult = Refused(error: TriggerError) | Issued(outcome: Outcome)

  function RequestTarget(r: Request): Target {
    Target(r.nodeIds == {} && r.tags == {}, r.nodeIds, r.tags)
  }

  /** The manual command of an operator. `clients` is the registry as it was read
      before the lock. */
  function TriggerShutdown(cfg: Config, s: State, r: Request, clients: map<NodeId, set<Tag>>, now: Time,
                           id: CommandId): TriggerResult
  {
    var explicit := r.timeoutSeconds.Some? && r.timeoutSeconds.value > 0;
    if explicit && r.timeoutSeconds.value > MAX_TIMEOUT_SECONDS then Refused(TimeoutTooLong)
    else
      var timeout := if explicit then r.timeoutSeconds.value * SECOND else cfg.commandTimeout;
      var dryRun := if r.dryRun.Some? then r.dryRun.value else cfg.dryRun;
      var target := RequestTarget(r);
      var selected := SelectTargets(clients, target).Keys;
      if selected == {} then Refused(NoTargets)
      else if s.active != "" then Refused(AlreadyActive)
      else
        var c := NewCommand(target, dryRun, clients, now + timeout, false);
        Issued(Outcome(
          s.(commands := s.commands[id := c],
             active := id,
             local := Arm(cfg, s, id, c, now),
             shutdownIssued := true),
          true, Send(id, dryRun, selected), NoBegin))
  }

  function ResetActiveCommand(s: State): Outcome {
    var commands := Disable(s.commands, s.active);
    Saved(s.(
      commands := if s.episode.Some? then Disable(commands, s.episode.value.commandId) else commands,
      episode := if s.episode.Some? then Some(s.episode.value.(commandId := "")) else None,
      local := if s.local.Some? && s.local.value.phase == Running then s.local else None,
      active := "",
      shutdownIssued := false))
  }

  /** A node (re)connects: it is adopted when it matches the active command, and the
      command is replayed to it until it reports success. */
  function ReplayForNode(cfg: Config, s: State, node: NodeId, tags: set<Tag>, now: Time): Outcome {
    if s.active !in s.commands || (s.commands[s.active].auto && !s.upsConfirmed) then Quiet(s)
    else
      var c := s.commands[s.active];
      var adopts := !c.replayDisabled && Matches(c.target, node, tags) && node !in c.tracked;
      var c' := if adopts then Reopen(cfg, c.(tracked := c.tracked[node := tags]), now) else c;
      Outcome(
        s.(commands := s.commands[s.active := c']),
        adopts,
        if ShouldReplay(c', node) then Send(s.active, c'.dryRun, {node}) else NoSend,
        NoBegin)
  }

  // ----- Local shutdown -----

  /** An emergency of the episode, when no local shutdown stands in its way. */
  function ArmEmergency(cfg: Config, s: State, emergency: Trigger, now: Time): Outcome
    requires s.episode.Some?
  {
    var id := s.episode.value.commandId;
    var has := id in s.commands;
    var dryRun := if has then s.commands[id].dryRun else cfg.dryRun;
    Outcome(
      s.(local := Some(LocalShutdown(Emergency, id, now, None, emergency, None, dryRun, NO_GROUNDS))),
      true,
      if has then Send(id, dryRun, ReplayableNodes(s.commands[id])) else NoSend,
      Begin(id, emergency))
  }

  /** What a waiting local shutdown does about its command: keep waiting, or turn into
      a decision to start. */
  function Escalate(l: LocalShutdown, c: Command, emergency: Trigger, now: Time): Option<LocalShutdown> {
    if RemoteShutdownFinished(c) then Some(AllFinished(l, c))
    else if emergency != NoTrigger then Some(l.(phase := Emergency, trigger := emergency))
    else if l.deadlineAt.Some? && l.deadlineAt.value <= now then
      Some(l.(phase := WaitExpired, trigger := MaxWaitExpired, grounds := l.grounds.(expiredAt := Some(now))))
    else None
  }

  function DriveWaitingRemote(s: State, emergency: Trigger, now: Time): Outcome
    requires s.local.Some?
  {
    var l := s.local.value;
    if l.commandId !in s.commands || s.commands[l.commandId].replayDisabled then Saved(s.(local := None))
    else
      var c := s.commands[l.commandId];
      var next := Escalate(l, c, emergency, now);
      if next.None? then Quiet(s)
      else
        Outcome(s.(local := next), true,
                if next.value.phase == Emergency then Send(l.commandId, c.dryRun, ReplayableNodes(c)) else NoSend,
                Begin(l.commandId, next.value.trigger))
  }

  function DriveLocal(s: State, emergency: Trigger, now: Time): Outcome
    requires s.local.Some?
  {
    var l := s.local.value;
    match l.phase
    case WaitingRemote => DriveWaitingRemote(s, emergency, now)
    case WaitExpired => Outcome(s, false, NoSend, Begin(l.commandId, MaxWaitExpired))
    case Emergency => Outcome(s, false, NoSend, if l.trigger != NoTrigger then Begin(l.commandId, l.trigger) else NoBegin)
    case RunFailed =>
      if (l.lastAttemptAt.None? || now - l.lastAttemptAt.value >= RETRY_INTERVAL) && l.trigger != NoTrigger
      then Outcome(s, false, NoSend, Begin(l.commandId, l.trigger)) else Quiet(s)
    case _ => Quiet(s)
  }

  /** The emergency this tick acts on: a silent UPS does not count while the master
      waits for a reading after powering itself off. */
  function EffectiveEmergency(cfg: Config, s: State, reading: Option<Reading>, now: Time): Trigger {
    var raw := EmergencyTrigger(cfg, s, reading, now);
    if raw == UpsUnreachable && AwaitingReadingAfterPowerOff(s) then NoTrigger else raw
  }

  predicate Trusted(s: State, emergency: Trigger) {
    s.upsConfirmed || emergency == UpsUnreachable
  }

  function EvaluateLocalShutdown(cfg: Config, s: State, reading: Option<Reading>, now: Time): Outcome {
    if !cfg.localEnabled then Quiet(s)
    else
      var emergency := EffectiveEmergency(cfg, s, reading, now);
      var trusted := Trusted(s, emergency);
      var s1 := if emergency == UpsUnreachable && s.episode.Some? then Confirm(s) else s;
      var acts := s.episode.Some? && trusted && emergency != NoTrigger;
      if s.local.None? || (acts && s.local.value.phase != Running && !LocalBelongsToEpisode(s)) then
        if acts then ArmEmergency(cfg, s1, emergency, now) else Quiet(s1)
      else
        var id := s.local.value.commandId;
        if (id !in s.commands || s.commands[id].auto) && !trusted then Quiet(s1)
        else DriveLocal(s1, emergency, now)
  }

  predicate CanBegin(s: State, id: CommandId) {
    s.local.Some? && s.local.value.commandId == id && !LocalTerminal(s.local.value.phase)
  }

  /** The first half of beginLocalShutdownExecution, up to calling the runner. */
  function BeginLocal(s: State, id: CommandId, trigger: Trigger, attemptAt: Time): State {
    if !CanBegin(s, id) then s
    else
      s.(local := Some(s.local.value.(phase := Running, trigger := trigger, lastAttemptAt := Some(attemptAt))),
         episode := if s.episode.Some? && !s.local.value.dryRun
                    then Some(s.episode.value.(masterPoweredOff := true)) else s.episode)
  }

  /** The second half, after the runner returned. */
  function FinishLocal(s: State, id: CommandId, failed: bool): Outcome {
    if s.local.None? || s.local.value.commandId != id then Quiet(s)
    else
      Saved(s.(local := Some(s.local.value.(phase := if failed then RunFailed else Completed)),
               episode := if failed && s.episode.Some?
                          then Some(s.episode.value.(masterPoweredOff := false)) else s.episode))
  }

  // ----- The state file -----

  datatype Snapshot = Snapshot(
    active: CommandId,
    episode: Option<Episode>,
    local: Option<LocalShutdown>,
    commands: map<CommandId, Command>)

  const EMPTY_SNAPSHOT := Snapshot("", None, None, map[])

  predicate Persistable(phase: Phase) {
    phase == WaitingRemote || phase == WaitExpired || phase == Emergency || phase == RunFailed
  }

  function PersistedLocal(local: Option<LocalShutdown>): Option<LocalShutdown> {
    if local.Some? && Persistable(local.value.phase) then local else None
  }

  /** The debounce timers are not part of the file. */
  function Capture(s: State): Snapshot {
    Snapshot(s.active,
             if s.episode.Some? then Some(s.episode.value.(matchSince := map[], seen := [])) else None,
             PersistedLocal(s.local),
             s.commands)
  }

  function NormalizeLocal(cfg: Config, snap: Snapshot): Option<LocalShutdown> {
    var local := PersistedLocal(snap.local);
    if !cfg.localEnabled || local.None? then None
    else if local.value.commandId == "" then
      if snap.episode.None? || snap.episode.value.commandId != "" then None else local
    else if local.value.commandId !in snap.commands || snap.commands[local.value.commandId].replayDisabled then None
    else local
  }

  function Load(cfg: Config, snap: Snapshot, startedAt: Time): State {
    State(
      snap.commands,
      snap.active,
      snap.active != "",
      snap.episode,
      NormalizeLocal(cfg, snap),
      false,
      None,
      UpsView(None, None, None),
      startedAt)
  }
}
