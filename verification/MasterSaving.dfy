/** Whatever the state file is to hold is snapshotted as soon as it changes. */
module MasterSaving {
  import opened Types
  import opened Policy
  import opened MasterState
  import opened MasterInvariant
  import opened MasterFrame
  import opened Persist
  import opened MasterWorld
  import opened MasterRuns
  import opened MasterTheorems
  import opened MasterSilence

  lemma TickUnsaved(cfg: Config, s: State, reading: Option<Reading>, now: Time)
    ensures var o := EvaluateLocalShutdown(cfg, s, reading, now); !o.saved ==> Capture(o.state) == Capture(s)
  {
    WatcherCases(cfg, s, reading, now);
  }

  lemma ReplayUnsaved(cfg: Config, s: State, node: NodeId, tags: set<Tag>, now: Time)
    ensures var o := ReplayForNode(cfg, s, node, tags, now); !o.saved ==> o.state == s
  {
    if s.active in s.commands {
      assert s.commands[s.active := s.commands[s.active]] == s.commands;
    }
  }

  lemma PollUnsaved(cfg: Config, w: World, e: Event)
    requires IsPoll(e) && !Section(cfg, w, e).saved
    ensures Capture(Section(cfg, w, e).state) == Capture(w.s)
  {
  }

  lemma UnsavedIsUnchanged(cfg: Config, w: World, e: Event)
    requires InMemory(e) && !Section(cfg, w, e).saved
    ensures Capture(Section(cfg, w, e).state) == Capture(w.s)
  {
    if IsPoll(e) {
      PollUnsaved(cfg, w, e);
    } else if e.WatchLocal? {
      TickUnsaved(cfg, w.s, e.maybe, e.now);
    } else if e.Reconnect? {
      ReplayUnsaved(cfg, w.s, e.node, e.tags, e.now);
    }
  }

  /** The last snapshot taken is what the file should hold now; before the first one, nothing
      has changed since the file was loaded. */
  ghost predicate LastIsCurrent(cfg: Config, w: World) {
    Capture(w.s) ==
    if |w.store.log| > 0 then Content(w.store, |w.store.log|) else Capture(Load(cfg, w.store.base, w.s.startedAt))
  }

  lemma CaptureIgnoresStart(cfg: Config, snap: Snapshot, a: Time, b: Time)
    ensures Capture(Load(cfg, snap, a)) == Capture(Load(cfg, snap, b))
  {
  }

  lemma SavingStep(cfg: Config, w: World, e: Event)
    requires StoreInv(w.store) && Enabled(w, e) && LastIsCurrent(cfg, w)
    ensures LastIsCurrent(cfg, Next(cfg, w, e))
  {
    if InMemory(e) {
      NextIsAdvance(cfg, w, e);
      if !Section(cfg, w, e).saved {
        UnsavedIsUnchanged(cfg, w, e);
      }
      SavingSection(cfg, w, e, Section(cfg, w, e));
    } else {
      SavingElsewhere(cfg, w, e);
    }
  }

  lemma SavingElsewhere(cfg: Config, w: World, e: Event)
    requires StoreInv(w.store) && Enabled(w, e) && !InMemory(e) && LastIsCurrent(cfg, w)
    ensures LastIsCurrent(cfg, Next(cfg, w, e))
  {
  }

  lemma SavingSection(cfg: Config, w: World, e: Event, o: Outcome)
    requires LastIsCurrent(cfg, w) && (!o.saved ==> Capture(o.state) == Capture(w.s))
    ensures LastIsCurrent(cfg, Advance(cfg, w, e, o))
  {
    CaptureIgnoresStart(cfg, w.store.base, w.s.startedAt, o.state.startedAt);
  }

  lemma {:induction false} SavingRun(cfg: Config, at: Time, events: seq<Event>)
    requires ValidConfig(cfg) && RunOk(cfg, First(cfg, at), events)
    ensures LastIsCurrent(cfg, RunFrom(cfg, First(cfg, at), events))
  {
    if events != [] {
      SavingRun(cfg, at, events[..|events| - 1]);
      RunSound(cfg, at, events[..|events| - 1]);
      SavingStep(cfg, RunFrom(cfg, First(cfg, at), events[..|events| - 1]), events[|events| - 1]);
    }
  }

  /** In every reachable state nothing that the file is to hold has changed since the last
      snapshot: once that one is written, a crash loses nothing of it. */
  lemma LastSnapshotIsCurrent(cfg: Config, w: World)
    requires ValidConfig(cfg) && Reachable(cfg, w)
    ensures |w.store.log| > 0 ==> Capture(w.s) == Content(w.store, |w.store.log|)
    ensures |w.store.log| > 0 && w.store.writtenSeq == |w.store.log| ==> w.store.disk == Capture(w.s)
    ensures |w.store.log| == 0 ==> Capture(w.s) == Capture(Load(cfg, w.store.disk, w.s.startedAt))
  {
    var at: Time, events: seq<Event> :|
      RunOk(cfg, First(cfg, at), events) && RunFrom(cfg, First(cfg, at), events) == w;
    SavingRun(cfg, at, events);
    RunSound(cfg, at, events);
  }
}
