/** How long the UPS has been silent, from the polls of a run alone, and what the master does
    about it. */
module MasterSilence {
  import opened Types
  import opened Policy
  import opened MasterState
  import opened MasterInvariant
  import opened MasterFrame
  import opened Debounce
  import opened Persist
  import opened MasterWorld
  import opened MasterRuns
  import opened MasterTheorems
  import opened MasterDuties
  import opened MasterTicks

  // ----- The history of polls -----

  /** When the current process started. */
  function BootTime(at: Time, events: seq<Event>): Time {
    if events == [] then at
    else
      match events[|events| - 1]
      case Restart(again, _) => again
      case _ => BootTime(at, events[..|events| - 1])
  }

  /** When the current process last read the UPS. */
  function LastReading(events: seq<Event>): Option<Time> {
    if events == [] then None
    else
      match events[|events| - 1]
      case PollOk(_, at) => Some(at)
      case Restart(_, _) => None
      case _ => LastReading(events[..|events| - 1])
  }

  /** When the last poll of the current process failed, if it did. */
  function LastFailure(events: seq<Event>): Option<Time> {
    if events == [] then None
    else
      match events[|events| - 1]
      case PollFail(at) => Some(at)
      case PollOk(_, _) => None
      case Restart(_, _) => None
      case _ => LastFailure(events[..|events| - 1])
  }

  /** The UPS is silent when the last poll failed, later than the last reading; the silence
      counts from that reading, or from the start of a process that has read nothing. */
  function Silence(at: Time, events: seq<Event>, now: Time): Option<int> {
    var failure, reading := LastFailure(events), LastReading(events);
    if failure.None? || (reading.Some? && failure.value <= reading.value) then None
    else Some(now - if reading.Some? then reading.value else BootTime(at, events))
  }

  /** What the master keeps of the polls is that history. */
  ghost predicate ViewIs(s: State, at: Time, events: seq<Event>) {
    && s.startedAt == BootTime(at, events)
    && s.ups.lastSuccessAt == LastReading(events)
    && s.ups.lastErrorAt == LastFailure(events)
  }

  lemma ViewStep(cfg: Config, w: World, e: Event, o: Outcome)
    requires Enabled(w, e) && InMemory(e) && SectionFrame(cfg, w, e, o.state)
    ensures o.state.startedAt == w.s.startedAt
    ensures o.state.ups.lastSuccessAt == if e.PollOk? then Some(e.at) else w.s.ups.lastSuccessAt
    ensures o.state.ups.lastErrorAt == if e.PollOk? then None else if e.PollFail? then Some(e.at) else w.s.ups.lastErrorAt
  {
  }

  lemma ViewNext(cfg: Config, w: World, e: Event)
    requires WorldInv(cfg, w) && Enabled(w, e) && InMemory(e)
    ensures var t := Next(cfg, w, e).s;
            && t.startedAt == w.s.startedAt
            && t.ups.lastSuccessAt == (if e.PollOk? then Some(e.at) else w.s.ups.lastSuccessAt)
            && t.ups.lastErrorAt == if e.PollOk? then None else if e.PollFail? then Some(e.at) else w.s.ups.lastErrorAt
  {
    SectionGood(cfg, w, e);
    ViewStep(cfg, w, e, Section(cfg, w, e));
    NextIsAdvance(cfg, w, e);
  }

  lemma ViewAfter(cfg: Config, w: World, at: Time, events: seq<Event>)
    requires events != [] && WorldInv(cfg, w) && Enabled(w, events[|events| - 1])
    requires ViewIs(w.s, at, events[..|events| - 1])
    ensures ViewIs(Next(cfg, w, events[|events| - 1]).s, at, events)
  {
    if InMemory(events[|events| - 1]) {
      ViewNext(cfg, w, events[|events| - 1]);
    }
  }

  lemma {:induction false} ViewIsHistory(cfg: Config, at: Time, events: seq<Event>)
    requires ValidConfig(cfg) && RunOk(cfg, First(cfg, at), events)
    ensures ViewIs(RunFrom(cfg, First(cfg, at), events).s, at, events)
  {
    if events != [] {
      var before := events[..|events| - 1];
      ViewIsHistory(cfg, at, before);
      FirstSound(cfg, at);
      RunKeeps(cfg, First(cfg, at), before);
      ViewAfter(cfg, RunFrom(cfg, First(cfg, at), before), at, events);
    }
  }

  lemma ViewGivesSilence(s: State, at: Time, events: seq<Event>, now: Time)
    requires ViewIs(s, at, events)
    ensures SilentFor(s, now) == Silence(at, events, now)
  {
  }

  /** Over every run, the silence that the master reckons with is the one that the polls of
      the current process make. */
  lemma SilenceIsHistory(cfg: Config, at: Time, events: seq<Event>, now: Time)
    requires ValidConfig(cfg) && RunOk(cfg, First(cfg, at), events)
    ensures SilentFor(RunFrom(cfg, First(cfg, at), events).s, now) == Silence(at, events, now)
  {
    ViewIsHistory(cfg, at, events);
    ViewGivesSilence(RunFrom(cfg, First(cfg, at), events).s, at, events, now);
  }

  lemma RunSound(cfg: Config, at: Time, events: seq<Event>)
    requires ValidConfig(cfg) && RunOk(cfg, First(cfg, at), events)
    ensures WorldInv(cfg, RunFrom(cfg, First(cfg, at), events))
  {
    FirstSound(cfg, at);
    RunKeeps(cfg, First(cfg, at), events);
  }

  // ----- What it decides -----

  /** The silence has reached the policy's time, and the master is not waiting for a reading
      after powering itself off. */
  predicate Reached(p: PolicySpec, e: Episode, confirmed: bool, silence: Option<int>) {
    && p.unreachableFor > 0 && silence.Some? && silence.value >= p.unreachableFor
    && !(e.masterPoweredOff && !confirmed)
  }

  /** Over every run: at a failed poll of an episode exactly the unfired unreachable policies
      become due whose time the silence has reached; fired or not, such a policy vouches for
      the episode; and the debounce timers stay as they are. */
  lemma FailedPollFires(cfg: Config, at: Time, events: seq<Event>, i: nat)
    requires ValidConfig(cfg) && RunOk(cfg, First(cfg, at), events) && i < |cfg.policies|
    requires RunFrom(cfg, First(cfg, at), events).poll.ToEvaluate?
    requires RunFrom(cfg, First(cfg, at), events).poll.maybe.None?
    ensures var w := RunFrom(cfg, First(cfg, at), events);
            var v := EvaluatePolicies(cfg, w.s, None, w.poll.at);
            && v.state == w.s
            && (cfg.policies[i].name in v.due <==>
                  && w.s.episode.Some? && cfg.policies[i].name !in w.s.episode.value.fired
                  && Reached(cfg.policies[i], w.s.episode.value, w.s.upsConfirmed, Silence(at, events, w.poll.at)))
            && (v.vouched <==>
                  && w.s.episode.Some?
                  && exists j :: 0 <= j < |cfg.policies| &&
                       Reached(cfg.policies[j], w.s.episode.value, w.s.upsConfirmed, Silence(at, events, w.poll.at)))
  {
    var w := RunFrom(cfg, First(cfg, at), events);
    SilenceIsHistory(cfg, at, events, w.poll.at);
    FailedPollByState(cfg, w.s, w.poll.at, i);
  }

  lemma FailedPollByState(cfg: Config, s: State, now: Time, i: nat)
    requires UniqueNames(cfg.policies) && i < |cfg.policies|
    ensures var v := EvaluatePolicies(cfg, s, None, now);
            && v.state == s
            && (cfg.policies[i].name in v.due <==>
                  && s.episode.Some? && cfg.policies[i].name !in s.episode.value.fired
                  && Reached(cfg.policies[i], s.episode.value, s.upsConfirmed, SilentFor(s, now)))
            && (v.vouched <==>
                  && s.episode.Some?
                  && exists j :: 0 <= j < |cfg.policies| &&
                       Reached(cfg.policies[j], s.episode.value, s.upsConfirmed, SilentFor(s, now)))
  {
    DueOnFailedPoll(cfg, s, now);
    if s.episode.Some? && SilentFor(s, now).Some? {
      assert forall j :: 0 <= j < |cfg.policies| && !AwaitingReadingAfterPowerOff(s) ==>
               (Reached(cfg.policies[j], s.episode.value, s.upsConfirmed, SilentFor(s, now)) <==>
                  0 < cfg.policies[j].unreachableFor <= SilentFor(s, now).value);
    }
  }

  /** Over every run: the UPS becomes confirmed exactly when a reading has been taken in, or
      during an episode by a silence: when an unreachable policy has found it long enough at a
      failed poll, or it is the emergency of a tick. Nothing but a restart takes it back. */
  lemma ConfirmedExactlyBy(cfg: Config, at: Time, events: seq<Event>, e: Event)
    requires ValidConfig(cfg) && RunOk(cfg, First(cfg, at), events)
    requires Enabled(RunFrom(cfg, First(cfg, at), events), e) && !e.Restart?
    ensures var w := RunFrom(cfg, First(cfg, at), events);
            && (Next(cfg, w, e).s.upsConfirmed <==>
                  || w.s.upsConfirmed || e.PollConfirm? || e.PollVouch?
                  || (&& e.WatchLocal? && cfg.localEnabled && w.s.episode.Some?
                      && EmergencyIs(cfg, w.s, e.maybe, Silence(at, events, e.now), UpsUnreachable)))
            && (e.PollConfirm? ==> LastReading(events).Some? && LastFailure(events).None?)
            && (e.PollVouch? ==>
                  && w.poll.ToVouch? && w.s.episode.Some? && Silence(at, events, w.poll.at).Some?
                  && exists i :: 0 <= i < |cfg.policies|
                                 && 0 < cfg.policies[i].unreachableFor <= Silence(at, events, w.poll.at).value)
  {
    var w := RunFrom(cfg, First(cfg, at), events);
    SilenceIsHistory(cfg, at, events, if e.WatchLocal? then e.now else if w.poll.ToVouch? then w.poll.at else 0);
    RunSound(cfg, at, events);
    ConfirmingStep(cfg, w, e);
    ConfirmingEvents(cfg, w, e);
    if e.PollConfirm? {
      ReadingInHand(cfg, at, events);
    }
  }

  lemma TickConfirms(cfg: Config, s: State, reading: Option<Reading>, now: Time)
    ensures EvaluateLocalShutdown(cfg, s, reading, now).state.upsConfirmed <==>
            || s.upsConfirmed
            || (&& cfg.localEnabled && s.episode.Some?
                && EmergencyIs(cfg, s, reading, SilentFor(s, now), UpsUnreachable))
  {
    EmergencyMeaning(cfg, s, reading, now, UpsUnreachable);
    if s.local.Some? {
      DriveFrame(Heard(cfg, s, reading, now), EffectiveEmergency(cfg, s, reading, now), now);
    }
  }

  lemma ConfirmingEvents(cfg: Config, w: World, e: Event)
    requires Enabled(w, e)
    ensures e.PollConfirm? || e.PollVouch? ==> Next(cfg, w, e).s.upsConfirmed
    ensures e.WatchLocal? ==>
              (Next(cfg, w, e).s.upsConfirmed <==>
                 || w.s.upsConfirmed
                 || (&& cfg.localEnabled && w.s.episode.Some?
                     && EmergencyIs(cfg, w.s, e.maybe, SilentFor(w.s, e.now), UpsUnreachable)))
  {
    if e.WatchLocal? {
      TickConfirms(cfg, w.s, e.maybe, e.now);
      NextIsAdvance(cfg, w, e);
    }
  }

  /** While the poller works on a reading, that reading is the last poll. */
  predicate InHand(poll: Poll, events: seq<Event>) {
    poll.Got? || poll.Adjusted? ==> LastReading(events) == Some(poll.at) && LastFailure(events).None?
  }

  lemma InHandNext(cfg: Config, w: World, events: seq<Event>)
    requires events != [] && Enabled(w, events[|events| - 1]) && InHand(w.poll, events[..|events| - 1])
    ensures InHand(Next(cfg, w, events[|events| - 1]).poll, events)
  {
    if InMemory(events[|events| - 1]) {
      NextIsAdvance(cfg, w, events[|events| - 1]);
    }
  }

  lemma {:induction false} ReadingInHand(cfg: Config, at: Time, events: seq<Event>)
    requires RunOk(cfg, First(cfg, at), events)
    ensures InHand(RunFrom(cfg, First(cfg, at), events).poll, events)
  {
    if events != [] {
      ReadingInHand(cfg, at, events[..|events| - 1]);
      InHandNext(cfg, RunFrom(cfg, First(cfg, at), events[..|events| - 1]), events);
    }
  }

  /** Over every run: in an emergency during an episode, on battery by a reading or by the
      silence, with the UPS relied on and nothing running, the tick leaves a local shutdown of
      the episode, whatever was there before, and decides to start it exactly unless it has
      completed or failed less than 30 seconds ago. */
  lemma EmergencyProceeds(cfg: Config, at: Time, events: seq<Event>, reading: Option<Reading>, now: Time,
                          emergency: Trigger)
    requires ValidConfig(cfg) && RunOk(cfg, First(cfg, at), events) && cfg.localEnabled && emergency != NoTrigger
    requires RunFrom(cfg, First(cfg, at), events).s.episode.Some?
    requires !IsRunning(RunFrom(cfg, First(cfg, at), events).s)
    requires EmergencyIs(cfg, RunFrom(cfg, First(cfg, at), events).s, reading, Silence(at, events, now), emergency)
    requires Relied(RunFrom(cfg, First(cfg, at), events).s, emergency)
    ensures var s := RunFrom(cfg, First(cfg, at), events).s;
            Proceeds(s, EvaluateLocalShutdown(cfg, s, reading, now), now)
  {
    SilenceIsHistory(cfg, at, events, now);
    RunSound(cfg, at, events);
    EmergencyTick(cfg, RunFrom(cfg, First(cfg, at), events).s, reading, now, emergency);
  }

  ghost predicate Proceeds(s: State, o: Outcome, now: Time) {
    && LocalBelongsToEpisode(o.state)
    && (o.begin.Begin? <==>
          !(LocalBelongsToEpisode(s) &&
            (s.local.value.phase == Completed ||
             (s.local.value.phase == RunFailed && s.local.value.lastAttemptAt.Some?
              && now - s.local.value.lastAttemptAt.value < 30_000_000_000))))
    && (o.begin.Begin? ==> CanBegin(o.state, o.begin.commandId))
  }

  lemma EmergencyTick(cfg: Config, s: State, reading: Option<Reading>, now: Time, emergency: Trigger)
    requires Inv(cfg, s) && cfg.localEnabled && s.episode.Some? && !IsRunning(s) && emergency != NoTrigger
    requires EmergencyIs(cfg, s, reading, SilentFor(s, now), emergency) && Relied(s, emergency)
    ensures Proceeds(s, EvaluateLocalShutdown(cfg, s, reading, now), now)
  {
    if NewEmergency(s, emergency) {
      NewEmergencyStarts(cfg, s, reading, now, emergency);
    } else if s.local.value.phase == WaitingRemote {
      WaitingEnds(cfg, s, reading, now, emergency);
    } else {
      PastWaiting(cfg, s, reading, now, emergency);
    }
  }

  /** Over every run: what the tick decides for a local shutdown that waits, with the silence
      of that run. In particular it never waits past max_wait. */
  lemma WaitIsBounded(cfg: Config, at: Time, events: seq<Event>, reading: Option<Reading>, now: Time, emergency: Trigger)
    requires ValidConfig(cfg) && RunOk(cfg, First(cfg, at), events) && cfg.localEnabled
    requires EmergencyIs(cfg, RunFrom(cfg, First(cfg, at), events).s, reading, Silence(at, events, now), emergency)
    requires var s := RunFrom(cfg, First(cfg, at), events).s;
             && s.local.Some? && s.local.value.phase == WaitingRemote
             && !NewEmergency(s, emergency) && !HeldBack(s, emergency)
    ensures var s := RunFrom(cfg, First(cfg, at), events).s;
            var l := s.local.value;
            && l.commandId in s.commands
            && EvaluateLocalShutdown(cfg, s, reading, now).begin ==
                 if EveryNodeFinished(s.commands[l.commandId]) then Begin(l.commandId, RemoteComplete)
                 else if emergency != NoTrigger then Begin(l.commandId, emergency)
                 else if now >= l.startedAt + cfg.maxWait then Begin(l.commandId, MaxWaitExpired)
                 else NoBegin
  {
    SilenceIsHistory(cfg, at, events, now);
    RunSound(cfg, at, events);
    WaitingEnds(cfg, RunFrom(cfg, First(cfg, at), events).s, reading, now, emergency);
  }
}
