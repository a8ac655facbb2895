/** The end of an outage over crashes and restarts. */
module MasterEndings {
  import opened Types
  import opened MasterState
  import opened MasterInvariant
  import opened MasterFrame
  import opened Persist
  import opened MasterWorld
  import opened MasterRuns
  import opened MasterTheorems
  import opened MasterRestarts
  import opened MasterLinePower

  /** The outage is over for good: there is no episode in memory, in the file or in a
      snapshot that may still replace the file, and no battery reading is being worked on. */
  ghost predicate Ended(w: World) { OffOutage(w) && LiveAll(w.store, NoEpisode()) }

  predicate OffOutage(w: World) { w.s.episode.None? && (w.poll.Got? ==> !w.poll.reading.onBattery) }

  function NoEpisode(): Snapshot -> bool { (snap: Snapshot) => snap.episode.None? }

  predicate BatteryRead(e: Event) { e.PollOk? && e.reading.onBattery }

  predicate OffBattery(events: seq<Event>) { forall e :: e in events ==> !BatteryRead(e) }

  // ----- Nothing but a battery reading opens an episode -----

  lemma EndedMemory(cfg: Config, w: World, e: Event)
    requires WorldInv(cfg, w) && Enabled(w, e) && InMemory(e) && !BatteryRead(e)
    requires OffOutage(w)
    ensures var t := Next(cfg, w, e);
            && OffOutage(t)
            && (AutoLocal(t.s) ==> AutoLocal(w.s) && SameLocal(w.s.local, t.s.local))
  {
    SectionGood(cfg, w, e);
    LineStep(cfg, w.s, w, e, Section(cfg, w, e));
    NextIsAdvance(cfg, w, e);
  }

  /** Without an episode to restore, a new process has no automatic local shutdown. */
  lemma EndedRestart(cfg: Config, w: World, e: Event)
    requires WorldInv(cfg, w) && Ended(w) && e.Restart?
    ensures OffOutage(Next(cfg, w, e)) && !AutoLocal(Next(cfg, w, e).s)
  {
    LiveAllOnDisk(w.store, NoEpisode());
    RestartKept(cfg, w, e);
  }

  lemma EndedStep(cfg: Config, w: World, e: Event)
    requires WorldInv(cfg, w) && Enabled(w, e) && !BatteryRead(e) && Ended(w)
    ensures var t := Next(cfg, w, e);
            && Ended(t)
            && (AutoLocal(t.s) ==> !e.Restart? && AutoLocal(w.s) && SameLocal(w.s.local, t.s.local))
  {
    if InMemory(e) {
      EndedMemory(cfg, w, e);
    } else if e.Restart? {
      EndedRestart(cfg, w, e);
    }
    LiveAllStep(cfg, w, e, NoEpisode());
  }

  lemma {:induction false} EndedRun(cfg: Config, w: World, events: seq<Event>)
    requires WorldInv(cfg, w) && Ended(w) && RunOk(cfg, w, events) && OffBattery(events)
    ensures var v := RunFrom(cfg, w, events);
            && WorldInv(cfg, v) && Ended(v)
            && (AutoLocal(v.s) ==> NoRestart(events) && AutoLocal(w.s) && SameLocal(w.s.local, v.s.local))
  {
    RunKeeps(cfg, w, events);
    if events != [] {
      var before := events[..|events| - 1];
      EndedRun(cfg, w, before);
      EndedStep(cfg, RunFrom(cfg, w, before), events[|events| - 1]);
    }
  }

  /** Once the outage is over for good, and up to the next battery reading, over any number of
      crashes and restarts: there is no episode, no step sends an automatic command, and
      every local shutdown that starts follows a manual command or is the automatic one that
      the ending left in place, with no restart since. */
  lemma EndedForGood(cfg: Config, w: World, events: seq<Event>, e: Event)
    requires WorldInv(cfg, w) && Ended(w)
    requires RunOk(cfg, w, events) && OffBattery(events) && Enabled(RunFrom(cfg, w, events), e) && !BatteryRead(e)
    ensures var v := RunFrom(cfg, w, events);
            var o := Section(cfg, v, e);
            && v.s.episode.None?
            && (o.send.Send? ==> o.send.commandId in o.state.commands && !o.state.commands[o.send.commandId].auto)
            && (Starts(v, e) ==>
                  || (v.s.local.value.commandId in v.s.commands && !v.s.commands[v.s.local.value.commandId].auto)
                  || (NoRestart(events) && AutoLocal(w.s) && SameLocal(w.s.local, v.s.local)))
  {
    EndedRun(cfg, w, events);
    LineSends(cfg, RunFrom(cfg, w, events).s, RunFrom(cfg, w, events), e);
  }

  // ----- The condition is exact -----

  lemma Reopening(cfg: Config, w: World) returns (events: seq<Event>)
    requires StoreInv(w.store) && !Ended(w)
    ensures RunOk(cfg, w, events) && OffBattery(events) && RunFrom(cfg, w, events).s.episode.Some?
  {
    events := [];
    if w.s.episode.None? {
      if w.poll.Got? && w.poll.reading.onBattery {
        RunExtends(cfg, w, events, PollEpisode);
        events := events + [PollEpisode];
      } else {
        var n := Restoring(cfg, w, NoEpisode());
        events := RestoreEvents(w, n);
      }
    }
  }

  /** Without a battery reading there is no episode in any state of any later run, crashes
      included, if and only if the outage is over for good now. */
  lemma EndedIsExact(cfg: Config, w: World)
    requires WorldInv(cfg, w)
    ensures Ended(w) <==>
            forall events :: RunOk(cfg, w, events) && OffBattery(events) ==> RunFrom(cfg, w, events).s.episode.None?
  {
    if Ended(w) {
      forall events | RunOk(cfg, w, events) && OffBattery(events)
        ensures RunFrom(cfg, w, events).s.episode.None?
      {
        EndedRun(cfg, w, events);
      }
    } else {
      var events := Reopening(cfg, w);
    }
  }

  // ----- From the step that ends the episode -----

  /** No episode in memory or in any snapshot from number `k` on. */
  ghost predicate EndedSince(w: World, k: nat) { OffOutage(w) && AllSince(w.store, NoEpisode(), k) }

  lemma {:induction false} EndedSinceRun(cfg: Config, w: World, events: seq<Event>, k: nat)
    requires WorldInv(cfg, w) && EndedSince(w, k)
    requires RunOk(cfg, w, events) && NoRestart(events) && OffBattery(events)
    ensures WorldInv(cfg, RunFrom(cfg, w, events)) && EndedSince(RunFrom(cfg, w, events), k)
  {
    RunKeeps(cfg, w, events);
    if events != [] {
      var before := events[..|events| - 1];
      var e := events[|events| - 1];
      EndedSinceRun(cfg, w, before, k);
      EndedSinceStep(cfg, RunFrom(cfg, w, before), e, k);
    }
  }

  lemma EndedSinceStep(cfg: Config, w: World, e: Event, k: nat)
    requires WorldInv(cfg, w) && Enabled(w, e) && !e.Restart? && !BatteryRead(e) && EndedSince(w, k)
    ensures EndedSince(Next(cfg, w, e), k)
  {
    if InMemory(e) {
      EndedMemory(cfg, w, e);
    }
    AllSinceStep(cfg, w, e, NoEpisode(), k);
  }

  /** A line-power reading ends the outage for good as soon as the snapshot taken with the
      ending, or a later one, has been written. */
  lemma LinePowerEndsForGood(cfg: Config, w: World, events: seq<Event>)
    requires WorldInv(cfg, w) && w.s.episode.Some? && w.poll.Got? && !w.poll.reading.onBattery
    requires RunOk(cfg, Next(cfg, w, PollEpisode), events) && NoRestart(events) && OffBattery(events)
    requires RunFrom(cfg, Next(cfg, w, PollEpisode), events).store.writtenSeq >= |w.store.log| + 1
    ensures Ended(RunFrom(cfg, Next(cfg, w, PollEpisode), events))
  {
    var t := Next(cfg, w, PollEpisode);
    StepKeeps(cfg, w, PollEpisode);
    EndedSinceRun(cfg, t, events, |w.store.log| + 1);
    WrittenLiveAll(RunFrom(cfg, t, events).store, NoEpisode(), |w.store.log| + 1);
  }

}
