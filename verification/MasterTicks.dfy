/** What the watcher's tick decides about the master's own shutdown, in every state, and what
    a start, its return and a restart leave of it. Told in terms of readings, silence,
    reports and times. */
module MasterTicks {
  import opened Types
  import opened Policy
  import opened MasterState
  import opened MasterInvariant
  import opened MasterFrame
  import opened MasterTheorems
  import opened MasterDuties

  // ----- Emergencies -----

  predicate Critical(cfg: Config, reading: Option<Reading>) {
    && reading.Some? && reading.value.onBattery
    && reading.value.runtime.Some? && 0 <= reading.value.runtime.value < cfg.emergencyRuntime
  }

  predicate LowOnBattery(reading: Option<Reading>) {
    reading.Some? && reading.value.onBattery && reading.value.lowBattery
  }

  /** The UPS has been silent for the configured time, and the silence counts: it does not in
      a process that restored an episode which powered the master off, until the UPS has
      been read. */
  predicate SilentTooLong(cfg: Config, s: State, silence: Option<int>) {
    && cfg.unreachableAfter > 0 && silence.Some? && silence.value >= cfg.unreachableAfter
    && !(s.episode.Some? && s.episode.value.masterPoweredOff && !s.upsConfirmed)
  }

  /** The emergency of a tick: the battery is nearly empty, by its runtime or by the UPS's own
      word, or the UPS has been silent too long; the first of these that applies. */
  predicate EmergencyIs(cfg: Config, s: State, reading: Option<Reading>, silence: Option<int>, trigger: Trigger) {
    match trigger
    case EmergencyRuntime => Critical(cfg, reading)
    case LowBattery => LowOnBattery(reading) && !Critical(cfg, reading)
    case UpsUnreachable => SilentTooLong(cfg, s, silence) && !LowOnBattery(reading) && !Critical(cfg, reading)
    case NoTrigger => !SilentTooLong(cfg, s, silence) && !LowOnBattery(reading) && !Critical(cfg, reading)
    case _ => false
  }

  lemma EmergencyMeaning(cfg: Config, s: State, reading: Option<Reading>, now: Time, trigger: Trigger)
    ensures EmergencyIs(cfg, s, reading, SilentFor(s, now), trigger) <==> EffectiveEmergency(cfg, s, reading, now) == trigger
  {
  }

  /** What the master knows of the UPS is good enough to act on. */
  predicate Relied(s: State, emergency: Trigger) { s.upsConfirmed || emergency == UpsUnreachable }

  /** An emergency during an episode that no local shutdown of the episode answers yet, and
      that no running one stands in the way of. */
  predicate NewEmergency(s: State, emergency: Trigger) {
    && s.episode.Some? && emergency != NoTrigger && Relied(s, emergency)
    && (s.local.Some? ==>
          && s.local.value.phase != Running && s.local.value.commandId != ""
          && s.local.value.commandId != s.episode.value.commandId)
  }

  /** The local shutdown in place is automatic and the UPS is not relied on. */
  predicate HeldBack(s: State, emergency: Trigger) { AutoLocal(s) && !Relied(s, emergency) }

  // ----- The tick -----

  /** What a tick leaves alone, and when it confirms the UPS. */
  ghost predicate TickFrame(s: State, emergency: Trigger, o: Outcome) {
    o.state == s.(local := o.state.local, upsConfirmed := s.upsConfirmed || (emergency == UpsUnreachable && s.episode.Some?))
  }

  /** A new emergency always starts the master's shutdown: of the episode's command, which is
      sent to every node that has not succeeded, or of none if it has no command. */
  lemma NewEmergencyStarts(cfg: Config, s: State, reading: Option<Reading>, now: Time, emergency: Trigger)
    requires Inv(cfg, s) && cfg.localEnabled && EmergencyIs(cfg, s, reading, SilentFor(s, now), emergency)
    requires NewEmergency(s, emergency)
    ensures var o := EvaluateLocalShutdown(cfg, s, reading, now);
            var id := s.episode.value.commandId;
            && TickFrame(s, emergency, o) && o.begin == Begin(id, emergency) && o.saved
            && (id == "" ==> o.send == NoSend)
            && (id != "" ==> id in s.commands && o.send.Send? && o.send.commandId == id
                             && o.send.dryRun == s.commands[id].dryRun
                             && forall node :: node in o.send.nodes <==>
                                  node in s.commands[id].tracked && !Succeeded(s.commands[id], node))
            && o.state.local == Some(LocalShutdown(Emergency, id, now, None, emergency, None,
                                                   if id == "" then cfg.dryRun else s.commands[id].dryRun, NO_GROUNDS))
  {
    EmergencyMeaning(cfg, s, reading, now, emergency);
    if s.episode.value.commandId != "" {
      Classes(s.commands[s.episode.value.commandId]);
    }
  }

  /** Without one, and with no local shutdown or one that is held back, nothing is decided. */
  lemma NothingStarts(cfg: Config, s: State, reading: Option<Reading>, now: Time, emergency: Trigger)
    requires cfg.localEnabled && EmergencyIs(cfg, s, reading, SilentFor(s, now), emergency)
    requires !NewEmergency(s, emergency) && (s.local.None? || HeldBack(s, emergency))
    ensures var o := EvaluateLocalShutdown(cfg, s, reading, now);
            TickFrame(s, emergency, o) && o.state.local == s.local && o.begin == NoBegin && o.send == NoSend
  {
    EmergencyMeaning(cfg, s, reading, now, emergency);
  }

  /** What the tick decides for a local shutdown that waits for its command's nodes: it starts
      once every node has finished; else in an emergency, and then the command is sent again
      to every node that has not succeeded; else once max_wait has passed since it was armed;
      else it goes on waiting. */
  lemma WaitingEnds(cfg: Config, s: State, reading: Option<Reading>, now: Time, emergency: Trigger)
    requires Inv(cfg, s) && cfg.localEnabled && EmergencyIs(cfg, s, reading, SilentFor(s, now), emergency)
    requires s.local.Some? && s.local.value.phase == WaitingRemote
    requires !NewEmergency(s, emergency) && !HeldBack(s, emergency)
    ensures var o := EvaluateLocalShutdown(cfg, s, reading, now);
            var l := s.local.value;
            && l.commandId in s.commands && TickFrame(s, emergency, o)
            && var c := s.commands[l.commandId];
               && o.begin == (if EveryNodeFinished(c) then Begin(l.commandId, RemoteComplete)
                              else if emergency != NoTrigger then Begin(l.commandId, emergency)
                              else if now >= l.startedAt + cfg.maxWait then Begin(l.commandId, MaxWaitExpired)
                              else NoBegin)
               && (o.send.Send? <==> !EveryNodeFinished(c) && emergency != NoTrigger)
               && (o.send.Send? ==> o.send.commandId == l.commandId && o.send.dryRun == c.dryRun
                                    && forall node :: node in o.send.nodes <==> node in c.tracked && !Succeeded(c, node))
               && (o.begin.NoBegin? ==> o.state.local == s.local)
               && (o.begin.Begin? ==>
                     && o.saved && Follows(o.state, l.commandId) && o.state.local.value.trigger == o.begin.trigger
                     && o.state.local.value.phase ==
                          (if o.begin.trigger == RemoteComplete then WaitingRemote
                           else if o.begin.trigger == MaxWaitExpired then WaitExpired else Emergency))
  {
    EmergencyMeaning(cfg, s, reading, now, emergency);
    Classes(s.commands[s.local.value.commandId]);
  }

  /** ... and for one that is past waiting: an expired wait and an emergency are started at
      every tick until they run, a failed one 30 seconds after its last attempt, with the
      trigger it had; a running or completed one is left alone. */
  lemma PastWaiting(cfg: Config, s: State, reading: Option<Reading>, now: Time, emergency: Trigger)
    requires Inv(cfg, s) && cfg.localEnabled && EmergencyIs(cfg, s, reading, SilentFor(s, now), emergency)
    requires s.local.Some? && s.local.value.phase != WaitingRemote
    requires !NewEmergency(s, emergency) && !HeldBack(s, emergency)
    ensures var o := EvaluateLocalShutdown(cfg, s, reading, now);
            var l := s.local.value;
            && TickFrame(s, emergency, o) && o.state.local == s.local && o.send == NoSend
            && o.begin == match l.phase
                          case WaitExpired => Begin(l.commandId, MaxWaitExpired)
                          case Emergency => Begin(l.commandId, l.trigger)
                          case RunFailed =>
                            if l.lastAttemptAt.Some? && now < l.lastAttemptAt.value + 30_000_000_000 then NoBegin
                            else Begin(l.commandId, l.trigger)
                          case _ => NoBegin
  {
    EmergencyMeaning(cfg, s, reading, now, emergency);
  }

  // ----- Starting, returning, restarting -----

  /** A start marks the local shutdown as running, with its trigger and time, and the episode
      as one that powers the master off unless it is a dry run. */
  lemma StartMarks(s: State, id: CommandId, trigger: Trigger, at: Time)
    requires Follows(s, id) && s.local.value.phase != Running && s.local.value.phase != Completed
    ensures var t := BeginLocal(s, id, trigger, at);
            && t == s.(local := t.local, episode := t.episode)
            && t.local == Some(s.local.value.(phase := Running, trigger := trigger, lastAttemptAt := Some(at)))
            && (t.episode.Some? <==> s.episode.Some?)
            && (s.episode.Some? ==>
                  && t.episode.value == s.episode.value.(masterPoweredOff := t.episode.value.masterPoweredOff)
                  && (t.episode.value.masterPoweredOff <==> s.episode.value.masterPoweredOff || !s.local.value.dryRun))
  {
  }

  /** A failed return takes the mark off the episode. */
  lemma ReturnMarks(s: State, id: CommandId, failed: bool)
    requires Follows(s, id)
    ensures var o := FinishLocal(s, id, failed);
            && o.saved && o.send == NoSend && o.begin == NoBegin
            && o.state == s.(local := o.state.local, episode := o.state.episode)
            && o.state.local == Some(s.local.value.(phase := if failed then RunFailed else Completed))
            && (o.state.episode.Some? <==> s.episode.Some?)
            && (s.episode.Some? ==>
                  o.state.episode.value ==
                  s.episode.value.(masterPoweredOff := s.episode.value.masterPoweredOff && !failed))
  {
  }

  /** A local shutdown survives a restart from a snapshot of its state exactly when it was
      neither running nor completed, and its command is not disabled; one without a command
      must be of an episode that has none either. */
  predicate Survives(s: State) {
    && s.local.Some? && s.local.value.phase != Running && s.local.value.phase != Completed
    && if s.local.value.commandId == "" then s.episode.Some? && s.episode.value.commandId == ""
       else !(s.local.value.commandId in s.commands && s.commands[s.local.value.commandId].replayDisabled)
  }

  /** What a restart from a snapshot keeps: everything but the debounce timers, what is known
      of the UPS, and a local shutdown that does not survive. */
  lemma RestartKeeps(cfg: Config, s: State, at: Time)
    requires Inv(cfg, s)
    ensures var t := Load(cfg, Capture(s), at);
            && t.commands == s.commands && t.active == s.active && t.shutdownIssued == s.shutdownIssued
            && t.local == (if Survives(s) then s.local else None)
            && (t.episode.Some? <==> s.episode.Some?)
            && (s.episode.Some? ==>
                  && t.episode.value == s.episode.value.(matchSince := map[], seen := []))
            && !t.upsConfirmed && t.ups == UpsView(None, None, None) && t.startedAt == at && t.lastNodeRetryAt.None?
  {
  }
}
