/** Line power: what it ends, and what it leaves in place. */
module MasterLinePower {
  import opened Types
  import opened Policy
  import opened MasterState
  import opened MasterInvariant
  import opened MasterFrame
  import opened MasterWorld
  import opened MasterRuns

  /** Since line power was read: no episode, no battery reading being worked on, and any
      automatic local shutdown is the one that was in place then. */
  ghost predicate LineQuiet(start: State, s: State, poll: Poll) {
    && s.episode.None?
    && (poll.Got? || poll.Adjusted? ==> !poll.reading.onBattery)
    && (AutoLocal(s) ==> AutoLocal(start) && SameLocal(start.local, s.local))
  }

  predicate StaysOnLine(events: seq<Event>) {
    forall e :: e in events ==> !e.Restart? && !(e.PollOk? && e.reading.onBattery)
  }

  lemma LineFrame(cfg: Config, w: World, e: Event, o: Outcome)
    requires PollInv(cfg, w.s, w.poll) && Enabled(w, e) && InMemory(e) && SectionFrame(cfg, w, e, o.state)
    requires w.s.episode.None? && (w.poll.Got? || w.poll.Adjusted? ==> !w.poll.reading.onBattery)
    requires !(e.PollOk? && e.reading.onBattery)
    ensures o.state.episode.None?
    ensures var poll := PollNext(cfg, w, e); poll.Got? || poll.Adjusted? ==> !poll.reading.onBattery
    ensures AutoLocal(o.state) ==> AutoLocal(w.s)
  {
  }

  lemma LineStep(cfg: Config, start: State, w: World, e: Event, o: Outcome)
    requires WorldInv(cfg, w) && Good(cfg, w, e, o) && LineQuiet(start, w.s, w.poll)
    requires !(e.PollOk? && e.reading.onBattery)
    ensures LineQuiet(start, o.state, PollNext(cfg, w, e))
    ensures o.send.Send? ==> o.send.commandId in o.state.commands && !o.state.commands[o.send.commandId].auto
  {
    LineFrame(cfg, w, e, o);
    SectionLocalOrigin(cfg, w, e, o);
  }

  lemma {:induction false} LineQuietStays(cfg: Config, w: World, events: seq<Event>)
    requires WorldInv(cfg, w) && LineQuiet(w.s, w.s, w.poll)
    requires RunOk(cfg, w, events) && StaysOnLine(events)
    ensures WorldInv(cfg, RunFrom(cfg, w, events))
    ensures LineQuiet(w.s, RunFrom(cfg, w, events).s, RunFrom(cfg, w, events).poll)
  {
    RunKeeps(cfg, w, events);
    if events != [] {
      var before := events[..|events| - 1];
      var e := events[|events| - 1];
      LineQuietStays(cfg, w, before);
      var v := RunFrom(cfg, w, before);
      if InMemory(e) {
        SectionGood(cfg, v, e);
        LineStep(cfg, w.s, v, e, Section(cfg, v, e));
        NextIsAdvance(cfg, v, e);
      }
    }
  }

  /** From the step that ends the episode until the next battery reading: there is no
      episode, no step decides to send an automatic command, and every local shutdown
      that starts follows a manual command or is the automatic one that the ending left
      in place. */
  lemma LinePowerEndsAutomaticActivity(cfg: Config, w: World, events: seq<Event>, e: Event)
    requires WorldInv(cfg, w) && w.s.episode.None? && w.poll.Adjusted? && !w.poll.reading.onBattery
    requires RunOk(cfg, w, events) && StaysOnLine(events) && Enabled(RunFrom(cfg, w, events), e)
    requires !e.Restart? && !(e.PollOk? && e.reading.onBattery)
    ensures var v := RunFrom(cfg, w, events);
            var o := Section(cfg, v, e);
            && v.s.episode.None?
            && (o.send.Send? ==> o.send.commandId in o.state.commands && !o.state.commands[o.send.commandId].auto)
            && (Starts(v, e) ==>
                  || (v.s.local.value.commandId in v.s.commands && !v.s.commands[v.s.local.value.commandId].auto)
                  || (AutoLocal(w.s) && SameLocal(w.s.local, v.s.local)))
  {
    LineQuietStays(cfg, w, events);
    LineSends(cfg, w.s, RunFrom(cfg, w, events), e);
  }

  lemma LineSends(cfg: Config, start: State, v: World, e: Event)
    requires WorldInv(cfg, v) && LineQuiet(start, v.s, v.poll) && Enabled(v, e)
    requires !(e.PollOk? && e.reading.onBattery)
    ensures var o := Section(cfg, v, e);
            o.send.Send? ==> o.send.commandId in o.state.commands && !o.state.commands[o.send.commandId].auto
  {
    if InMemory(e) {
      SectionGood(cfg, v, e);
      LineStep(cfg, start, v, e, Section(cfg, v, e));
    }
  }

  /** What the ending leaves in place: an automatic local shutdown survives line power
      exactly when it is running or does not belong to the episode. In the second case the
      operator reset its command while it was running. */
  lemma LinePowerSurvivors(cfg: Config, w: World)
    requires WorldInv(cfg, w) && w.s.episode.Some?
    ensures AutoLocal(EndEpisodeOnLinePower(w.s).state) <==>
            AutoLocal(w.s) && (IsRunning(w.s) || !LocalBelongsToEpisode(w.s))
    ensures AutoLocal(w.s) && !IsRunning(w.s) && !LocalBelongsToEpisode(w.s) ==>
              && w.s.local.value.commandId in w.s.commands
              && w.s.commands[w.s.local.value.commandId].replayDisabled
              && (w.s.local.value.phase == Completed || w.s.local.value.phase == RunFailed)
  {
  }

  /** The second case happens. A local shutdown whose command was reset while it was
      running, which then failed, is left over like this: */
  ghost predicate LeftOver(w: World, l: LocalShutdown) {
    && w.s.local == Some(l) && l.phase == RunFailed && l.trigger != NoTrigger
    && l.commandId != "" && l.commandId in w.s.commands && w.s.commands[l.commandId].auto
    && "" !in w.s.commands && w.s.active == "" && w.poll.Idle? && w.watcher.Ticking?
    && w.s.episode.Some? && w.s.episode.value.commandId == ""
  }

  /** The episode's local shutdown is running, and no other goroutine is busy. */
  ghost predicate RunsForEpisode(cfg: Config, w: World) {
    && WorldInv(cfg, w) && w.s.episode.Some? && w.poll.Idle? && IsRunning(w.s) && !w.watcher.Deciding?
    && w.s.local.value.commandId in w.s.commands && w.s.commands[w.s.local.value.commandId].auto
  }

  lemma ResetWhileRunning(cfg: Config, w: World)
    requires RunsForEpisode(cfg, w)
    ensures var t := Next(cfg, w, Reset);
            && t.runners == w.runners && t.s.local == w.s.local && t.poll.Idle? && t.watcher == w.watcher
            && t.s.active == ""
            && t.s.commands.Keys == w.s.commands.Keys && t.s.commands[w.s.local.value.commandId].auto
            && t.s.episode.Some? && t.s.episode.value.commandId == ""
  {
  }

  lemma ResetAndFailedIsLeftOver(cfg: Config, w: World, index: nat)
    requires RunsForEpisode(cfg, w) && index < |w.runners|
    ensures Enabled(w, Reset) && Enabled(Next(cfg, w, Reset), FinishRun(index, true))
    ensures LeftOver(Next(cfg, Next(cfg, w, Reset), FinishRun(index, true)), w.s.local.value.(phase := RunFailed))
  {
    ResetWhileRunning(cfg, w);
    FailedIsLeftOver(cfg, Next(cfg, w, Reset), w.s.local.value, index);
  }

  lemma FailedIsLeftOver(cfg: Config, w: World, l: LocalShutdown, index: nat)
    requires w.s.local == Some(l) && l.phase == Running && l.trigger != NoTrigger && |w.runners| == 1
    requires index < |w.runners| && w.runners[0].local == l
    requires w.watcher.Ticking? || (w.watcher.Waiting? && w.runners[0].byWatcher)
    requires l.commandId != "" && l.commandId in w.s.commands && w.s.commands[l.commandId].auto
    requires "" !in w.s.commands && w.s.active == "" && w.poll.Idle?
    requires w.s.episode.Some? && w.s.episode.value.commandId == ""
    ensures LeftOver(Next(cfg, w, FinishRun(index, true)), l.(phase := RunFailed))
  {
  }

  /** Line power ends the episode but leaves it in place, ... */
  ghost predicate LeftOnLinePower(w: World, l: LocalShutdown, reading: Reading, at: Time) {
    && w.s.local == Some(l) && w.s.episode.None? && w.watcher.Ticking?
    && w.s.ups == UpsView(Some(reading), Some(at), None)
  }

  lemma LinePowerKeepsLeftOver(cfg: Config, w: World, l: LocalShutdown, reading: Reading, at: Time)
    requires LeftOver(w, l) && !reading.onBattery
    ensures RunOk(cfg, w, [PollOk(reading, at), PollEpisode])
    ensures var t := RunFrom(cfg, w, [PollOk(reading, at), PollEpisode]);
            LeftOnLinePower(t, l, reading, at) && t.poll == Adjusted(reading, at)
  {
    var g := Next(cfg, w, PollOk(reading, at));
    assert g.poll == Got(reading, at) && g.s == RecordSuccess(w.s, reading, at);
    TwoSteps(cfg, w, PollOk(reading, at), PollEpisode);
  }

  lemma LeftOverDecided(cfg: Config, w: World, l: LocalShutdown, reading: Reading, at: Time, now: Time,
                        maybe: Option<Reading>)
    requires cfg.localEnabled && LeftOnLinePower(w, l, reading, at) && w.poll.Adjusted?
    requires l.phase == RunFailed && l.trigger != NoTrigger
    requires l.lastAttemptAt.Some? && now - l.lastAttemptAt.value >= RETRY_INTERVAL
    ensures RunOk(cfg, w, [PollConfirm, WatchLocal(now, maybe)])
    ensures var t := RunFrom(cfg, w, [PollConfirm, WatchLocal(now, maybe)]);
            && t.s == Confirm(w.s) && t.watcher == Deciding(Begin(l.commandId, l.trigger))
  {
    TwoSteps(cfg, w, PollConfirm, WatchLocal(now, maybe));
  }

  /** Reset, failure, line power, and the watcher's tick after the retry interval. */
  function ResetToLinePower(index: nat, reading: Reading, at: Time, now: Time, maybe: Option<Reading>): seq<Event> {
    [Reset, FinishRun(index, true)] + [PollOk(reading, at), PollEpisode] + [PollConfirm, WatchLocal(now, maybe)]
  }

  /** The way to line power is a run, ... */
  lemma ResetThenLinePower(cfg: Config, w: World, index: nat, reading: Reading, at: Time)
    requires RunsForEpisode(cfg, w) && index < |w.runners| && !reading.onBattery
    ensures RunOk(cfg, w, [Reset, FinishRun(index, true)] + [PollOk(reading, at), PollEpisode])
    ensures var t := RunFrom(cfg, w, [Reset, FinishRun(index, true)] + [PollOk(reading, at), PollEpisode]);
            LeftOnLinePower(t, w.s.local.value.(phase := RunFailed), reading, at) && t.poll == Adjusted(reading, at)
  {
    ResetAndFailedIsLeftOver(cfg, w, index);
    TwoSteps(cfg, w, Reset, FinishRun(index, true));
    var failed := RunFrom(cfg, w, [Reset, FinishRun(index, true)]);
    LinePowerKeepsLeftOver(cfg, failed, w.s.local.value.(phase := RunFailed), reading, at);
    RunConcat(cfg, w, [Reset, FinishRun(index, true)], [PollOk(reading, at), PollEpisode]);
  }

  lemma ResetThenDecided(cfg: Config, w: World, index: nat, reading: Reading, at: Time, now: Time, maybe: Option<Reading>)
    requires RunsForEpisode(cfg, w) && index < |w.runners| && !reading.onBattery
    requires w.s.local.value.lastAttemptAt.Some? && now - w.s.local.value.lastAttemptAt.value >= RETRY_INTERVAL
    ensures var l := w.s.local.value;
            var events := ResetToLinePower(index, reading, at, now, maybe);
            && RunOk(cfg, w, events)
            && var t := RunFrom(cfg, w, events);
               && t.watcher == Deciding(Begin(l.commandId, l.trigger)) && t.s.local == Some(l.(phase := RunFailed))
               && t.s.episode.None? && t.s.ups == UpsView(Some(reading), Some(at), None)
  {
    var toLine := [Reset, FinishRun(index, true)] + [PollOk(reading, at), PollEpisode];
    ResetThenLinePower(cfg, w, index, reading, at);
    LeftOverDecided(cfg, RunFrom(cfg, w, toLine), w.s.local.value.(phase := RunFailed), reading, at, now, maybe);
    RunConcat(cfg, w, toLine, [PollConfirm, WatchLocal(now, maybe)]);
  }

  lemma DecidedStarts(t: World, l: LocalShutdown, now: Time)
    requires t.watcher == Deciding(Begin(l.commandId, l.trigger)) && t.s.local == Some(l.(phase := RunFailed))
    ensures var begin := BeginRun(Begin(l.commandId, l.trigger), true, now); Enabled(t, begin) && Starts(t, begin)
  {
  }

  /** ... and so is the whole, from any state in which the episode's local shutdown is
      running: the operator resets, the runner fails, line power returns and ends the
      episode, and the master powers itself off all the same. */
  lemma ResetRunnerRestartsOnLinePower(cfg: Config, w: World, index: nat, reading: Reading, at: Time, now: Time,
                                       maybe: Option<Reading>)
    requires RunsForEpisode(cfg, w) && index < |w.runners| && !reading.onBattery
    requires w.s.local.value.lastAttemptAt.Some? && now - w.s.local.value.lastAttemptAt.value >= RETRY_INTERVAL
    ensures var l := w.s.local.value;
            var events := ResetToLinePower(index, reading, at, now, maybe);
            var begin := BeginRun(Begin(l.commandId, l.trigger), true, now);
            && RunOk(cfg, w, events + [begin])
            && var t := RunFrom(cfg, w, events);
               Starts(t, begin) && t.s.episode.None? && t.s.ups == UpsView(Some(reading), Some(at), None)
  {
    var l := w.s.local.value;
    ResetThenDecided(cfg, w, index, reading, at, now, maybe);
    DecidedStarts(RunFrom(cfg, w, ResetToLinePower(index, reading, at, now, maybe)), l, now);
    RunExtends(cfg, w, ResetToLinePower(index, reading, at, now, maybe),
               BeginRun(Begin(l.commandId, l.trigger), true, now));
  }
}
