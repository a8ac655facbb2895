/** Runs of the master, event by event from its first start, that show statements about it to
    fail as soon as their conditions are left out. */
module MasterWitness {
  import opened Types
  import opened Policy
  import opened MasterState
  import opened MasterInvariant
  import opened MasterFrame
  import opened Persist
  import opened MasterWorld
  import opened MasterRuns
  import opened MasterTheorems
  import opened MasterRestarts
  import opened MasterLinePower
  import opened MasterEndings

  const LOW := PolicySpec("low", 50, 0, false, 0, 0, ALL_NODES)
  const CFG := Config(false, 60 * SECOND, true, 300 * SECOND, 0, 60 * SECOND, [LOW])

  const ON_BATTERY := Reading(true, false, Some(40), None)
  const ON_LINE := Reading(false, false, Some(40), None)
  const NODE_A: map<NodeId, set<Tag>> := map["a" := {}]

  lemma ConfigIsValid()
    ensures ValidConfig(CFG)
  {
  }

  /** Where the master is, apart from its state file and its history. */
  ghost predicate At(w: World, s: State, poll: Poll, begins: multiset<Begin>, runners: seq<Call>, issued: set<CommandId>) {
    w.s == s && w.poll == poll && w.watcher.Ticking? && w.begins == begins && w.runners == runners && w.issued == issued
  }

  // ----- An outage up to the master powering itself off -----

  const S0 := State(map[], "", false, None, None, false, None, UpsView(None, None, None), 0)
  const S1 := S0.(ups := UpsView(Some(ON_BATTERY), Some(1), None))
  const S2 := S1.(episode := Some(Episode(1, "", [], false, map[], 0, [])))
  const S3 := S2.(upsConfirmed := true)
  const S4 := S3.(episode := Some(Episode(1, "", [], false, map["low" := 1], 0, [Observation(ON_BATTERY, 1)])))

  const C5 := Command(ALL_NODES, false, NODE_A, map[], Some(1 + 60 * SECOND), None, false, true)
  const L5 := LocalShutdown(WaitingRemote, "c", 1, Some(1 + 300 * SECOND), NoTrigger, None, false, NO_GROUNDS)
  const S5 := S4.(commands := map["c" := C5], active := "c", shutdownIssued := true, local := Some(L5),
                  lastNodeRetryAt := Some(1),
                  episode := Some(Episode(1, "c", ["low"], false, map["low" := 1], 0, [Observation(ON_BATTERY, 1)])))

  const C6 := C5.(updates := map["a" := Ack(Executed, 2)], completedAt := Some(2))
  const L6 := L5.(trigger := RemoteComplete, grounds := Grounds(Some(map["a" := Executed]), None))
  const S6 := S5.(commands := map["c" := C6], local := Some(L6))

  const L7 := L6.(phase := Running, lastAttemptAt := Some(3))
  const S7 := S6.(local := Some(L7), episode := Some(S6.episode.value.(masterPoweredOff := true)))

  lemma Boots() returns (w: World)
    ensures Reachable(CFG, w) && At(w, S0, Idle, multiset{}, [], {}) && w.store == Fresh(EMPTY_SNAPSHOT)
  {
    w := First(CFG, 0);
    FirstReachable(CFG, 0);
  }

  lemma ReadsBattery() returns (w: World)
    ensures Reachable(CFG, w) && At(w, S1, Got(ON_BATTERY, 1), multiset{}, [], {}) && w.store == Fresh(EMPTY_SNAPSHOT)
  {
    var v := Boots();
    w := Next(CFG, v, PollOk(ON_BATTERY, 1));
    ReachableStep(CFG, v, PollOk(ON_BATTERY, 1));
  }

  lemma OpensEpisode() returns (w: World)
    ensures Reachable(CFG, w) && At(w, S2, Adjusted(ON_BATTERY, 1), multiset{}, [], {})
    ensures w.store == Take(Fresh(EMPTY_SNAPSHOT), Capture(S2))
  {
    var v := ReadsBattery();
    w := Next(CFG, v, PollEpisode);
    ReachableStep(CFG, v, PollEpisode);
  }

  lemma Confirms() returns (w: World)
    ensures Reachable(CFG, w) && At(w, S3, ToEvaluate(Some(ON_BATTERY), 1), multiset{}, [], {})
    ensures w.store == Take(Fresh(EMPTY_SNAPSHOT), Capture(S2))
  {
    var v := OpensEpisode();
    w := Next(CFG, v, PollConfirm);
    ReachableStep(CFG, v, PollConfirm);
  }

  lemma PolicyIsDue()
    ensures EvaluatePolicies(CFG, S3, Some(ON_BATTERY), 1) == Verdict(S4, false, ["low"])
  {
    var e := S3.episode.value;
    assert ScanPolicies(CFG.policies, 0, e, Some(ON_BATTERY), 0, 1) == Scan(map[], [], false);
    assert ScanPolicies(CFG.policies, 1, e, Some(ON_BATTERY), 0, 1) == Scan(map["low" := 1], ["low"], false);
    assert e.seen + [Observation(ON_BATTERY, 1)] == [Observation(ON_BATTERY, 1)];
  }

  lemma Evaluates() returns (w: World)
    ensures Reachable(CFG, w) && At(w, S4, ToApply(["low"], 1), multiset{}, [], {})
    ensures w.store == Take(Fresh(EMPTY_SNAPSHOT), Capture(S2))
  {
    var v := Confirms();
    PolicyIsDue();
    w := Next(CFG, v, PollPolicies);
    ReachableStep(CFG, v, PollPolicies);
  }

  lemma PolicyCreates()
    ensures ApplyPolicyMatch(CFG, S4, ["low"], NODE_A, 1, "c").state == S5
    ensures ApplyPolicyMatch(CFG, S4, ["low"], NODE_A, 1, "c").begin == NoBegin
    ensures ApplyPolicyMatch(CFG, S4, ["low"], NODE_A, 1, "c").saved
  {
    UnfiredAll([], ["low"]);
    assert Gather(CFG.policies, ["low"], 0) == Gathered(false, {}, {});
    assert TargetOf(CFG.policies, ["low"]) == ALL_NODES;
    assert SelectTargets(NODE_A, ALL_NODES) - {""} == NODE_A;
  }

  lemma Fires() returns (w: World)
    ensures Reachable(CFG, w) && At(w, S5, Idle, multiset{}, [], {"c"})
    ensures w.store == Take(Take(Fresh(EMPTY_SNAPSHOT), Capture(S2)), Capture(S5))
  {
    var v := Evaluates();
    PolicyCreates();
    w := Next(CFG, v, PollApply(NODE_A, "c"));
    ReachableStep(CFG, v, PollApply(NODE_A, "c"));
  }

  lemma AckFinishes()
    ensures HandleAck(S5, "c", "a", Ack(Executed, 2), 2) == Outcome(S6, true, NoSend, Begin("c", RemoteComplete))
  {
    assert S5.commands["c" := C6] == S6.commands;
    assert Reported(C6) == map["a" := Executed];
    assert AllFinished(L5, C6) == L6;
  }

  lemma NodeReports() returns (w: World)
    ensures Reachable(CFG, w) && At(w, S6, Idle, multiset{Begin("c", RemoteComplete)}, [], {"c"})
  {
    var v := Fires();
    AckFinishes();
    w := Next(CFG, v, AckArrives("c", "a", Ack(Executed, 2), 2));
    ReachableStep(CFG, v, AckArrives("c", "a", Ack(Executed, 2), 2));
  }

  lemma RunsLocal() returns (w: World)
    ensures Reachable(CFG, w) && At(w, S7, Idle, multiset{}, [Call(L7, false)], {"c"})
  {
    var v := NodeReports();
    var begin := BeginRun(Begin("c", RemoteComplete), false, 3);
    w := Next(CFG, v, begin);
    ReachableStep(CFG, v, begin);
  }

  /** The run on which a reset does not keep line power from being followed by a power-off
      can be had from the first start on. */
  lemma PowersOffOnLinePower() returns (w: World)
    ensures Reachable(CFG, w)
    ensures var events := ResetToLinePower(0, ON_LINE, 4, 3 + RETRY_INTERVAL, Some(ON_LINE));
            var begin := BeginRun(Begin("c", RemoteComplete), true, 3 + RETRY_INTERVAL);
            && RunOk(CFG, w, events + [begin])
            && Starts(RunFrom(CFG, w, events), begin)
            && RunFrom(CFG, w, events).s.episode.None?
            && RunFrom(CFG, w, events).s.ups.reading == Some(ON_LINE)
  {
    w := RunsLocal();
    ConfigIsValid();
    ReachableInv(CFG, w);
    ResetRunnerRestartsOnLinePower(CFG, w, 0, ON_LINE, 4, 3 + RETRY_INTERVAL, Some(ON_LINE));
  }

  // ----- remote_complete with a node that has not reported -----

  const L8 := L7.(phase := RunFailed)
  const S8 := S7.(local := Some(L8), episode := S6.episode)
  const C9 := C6.(tracked := map["a" := {}, "b" := {}], completedAt := None, timeoutAt := Some(4 + 60 * SECOND))
  const S9 := S8.(commands := map["c" := C9])

  lemma FailureIsNoted()
    ensures FinishLocal(S7, "c", true) == Saved(S8)
  {
  }

  lemma RunnerFails() returns (w: World)
    ensures Reachable(CFG, w) && At(w, S8, Idle, multiset{}, [], {"c"})
  {
    var v := RunsLocal();
    FailureIsNoted();
    w := Next(CFG, v, FinishRun(0, true));
    ReachableStep(CFG, v, FinishRun(0, true));
  }

  lemma NewNodeIsAdopted()
    ensures ReplayForNode(CFG, S8, "b", {}, 4).state == S9
    ensures ReplayForNode(CFG, S8, "b", {}, 4).begin == NoBegin
  {
    assert C6.tracked["b" := {}] == C9.tracked;
    assert S8.commands["c" := C9] == S9.commands;
  }

  lemma NodeJoins() returns (w: World)
    ensures Reachable(CFG, w) && At(w, S9, Idle, multiset{}, [], {"c"})
  {
    var v := RunnerFails();
    NewNodeIsAdopted();
    w := Next(CFG, v, Reconnect("b", {}, 4));
    ReachableStep(CFG, v, Reconnect("b", {}, 4));
  }

  /** After a failed attempt and the adoption of another node, the watcher decides
      remote_complete again although that node has not reported anything. */
  lemma RetriesWithoutTheNewNode() returns (w: World, e: Event)
    ensures Reachable(CFG, w) && Enabled(w, e)
    ensures Section(CFG, w, e).begin == Begin("c", RemoteComplete)
    ensures "c" in w.s.commands && "b" in w.s.commands["c"].tracked && "b" !in w.s.commands["c"].updates
    ensures !EveryNodeFinished(w.s.commands["c"])
  {
    w := NodeJoins();
    e := WatchLocal(3 + RETRY_INTERVAL, Some(ON_BATTERY));
    WatcherRetries();
    NewNodeIsSilent();
  }

  lemma WatcherRetries()
    ensures EvaluateLocalShutdown(CFG, S9, Some(ON_BATTERY), 3 + RETRY_INTERVAL).begin == Begin("c", RemoteComplete)
  {
    assert EffectiveEmergency(CFG, S9, Some(ON_BATTERY), 3 + RETRY_INTERVAL) == NoTrigger;
    assert DriveLocal(S9, NoTrigger, 3 + RETRY_INTERVAL).begin == Begin("c", RemoteComplete);
  }

  lemma NewNodeIsSilent()
    ensures "b" in C9.tracked && "b" !in C9.updates && !EveryNodeFinished(C9)
  {
    assert "b" in C9.tracked && "b" !in C9.updates;
  }

  // ----- A reset that a crash forgets -----

  const ALL := Request({}, {}, None, None)
  const CM := Command(ALL_NODES, false, NODE_A, map[], Some(1 + 60 * SECOND), None, false, false)
  const LM := LocalShutdown(WaitingRemote, "m", 1, Some(1 + 300 * SECOND), NoTrigger, None, false, NO_GROUNDS)
  const SM := S0.(commands := map["m" := CM], active := "m", shutdownIssued := true, local := Some(LM))

  lemma OperatorCommand()
    ensures TriggerShutdown(CFG, S0, ALL, NODE_A, 1, "m")
            == Issued(Outcome(SM, true, Send("m", false, {"a"}), NoBegin))
  {
    assert RequestTarget(ALL) == ALL_NODES;
    assert SelectTargets(NODE_A, ALL_NODES) == NODE_A && NODE_A - {""} == NODE_A && NODE_A.Keys == {"a"};
    assert NewCommand(ALL_NODES, false, NODE_A, 1 + 60 * SECOND, false) == CM;
    assert S0.commands["m" := CM] == SM.commands && Arm(CFG, S0, "m", CM, 1) == Some(LM);
  }

  lemma Commands() returns (w: World)
    ensures Reachable(CFG, w) && At(w, SM, Idle, multiset{}, [], {"m"})
    ensures w.store == Take(Fresh(EMPTY_SNAPSHOT), Capture(SM))
  {
    var v := First(CFG, 0);
    FirstReachable(CFG, 0);
    OperatorCommand();
    w := Next(CFG, v, Manual(ALL, NODE_A, 1, "m"));
    ReachableStep(CFG, v, Manual(ALL, NODE_A, 1, "m"));
  }

  lemma CommandIsWritten() returns (w: World)
    ensures Reachable(CFG, w) && At(w, SM, Idle, multiset{}, [], {"m"}) && w.store.disk == Capture(SM)
  {
    var v := Commands();
    w := Next(CFG, v, DiskWrite(1, true));
    ReachableStep(CFG, v, DiskWrite(1, true));
  }

  lemma ResetIsNotWritten() returns (w: World)
    ensures Reachable(CFG, w) && w.store.disk == Capture(SM) && "m" in w.issued
    ensures "m" in w.s.commands && w.s.commands["m"].replayDisabled && w.s.active == ""
  {
    var v := CommandIsWritten();
    w := Next(CFG, v, Reset);
    ReachableStep(CFG, v, Reset);
  }

  /** A command that was reset is live again after a crash before the reset was written, and
      is sent to the next node that connects. */
  lemma ResetIsForgotten() returns (w: World)
    ensures Reachable(CFG, w) && "m" in w.s.commands && w.s.commands["m"].replayDisabled && !Dead(w, "m")
    ensures Enabled(w, Restart(2, false))
    ensures var t := Next(CFG, w, Restart(2, false));
            && "m" in t.s.commands && !t.s.commands["m"].replayDisabled
            && Enabled(t, Reconnect("a", {}, 3))
            && Section(CFG, t, Reconnect("a", {}, 3)).send == Send("m", false, {"a"})
  {
    w := ResetIsNotWritten();
    ConfigIsValid();
    ReachableInv(CFG, w);
    LiveOnDisk(w);
    assert Load(CFG, Capture(SM), 2).commands == SM.commands;
    SentAgain(CFG, Load(CFG, Capture(SM), 2));
  }

  lemma LiveOnDisk(w: World)
    requires StoreInv(w.store) && w.store.disk == Capture(SM)
    ensures !Dead(w, "m")
  {
    if Dead(w, "m") {
      LiveAllOnDisk(w.store, SettledSnapshot("m", IsDisabled()));
      assert false;
    }
  }

  lemma SentAgain(cfg: Config, s: State)
    requires s.commands == SM.commands && s.active == "m"
    ensures ReplayForNode(cfg, s, "a", {}, 3).send == Send("m", false, {"a"})
  {
    assert "a" in CM.tracked;
  }

  // ----- A crash in the middle of an outage -----

  lemma EpisodeIsWritten() returns (w: World)
    ensures Reachable(CFG, w) && At(w, S5, Idle, multiset{}, [], {"c"})
    ensures w.store.disk == Capture(S5) && w.store.writtenSeq == 2 && w.store.log == [Capture(S2), Capture(S5)]
  {
    var v := Fires();
    w := Next(CFG, v, DiskWrite(2, true));
    ReachableStep(CFG, v, DiskWrite(2, true));
  }

  /** What a new process restores: the command, and the local shutdown waiting for it. */
  const S10 := State(map["c" := C5], "c", true, Some(Episode(1, "c", ["low"], false, map[], 0, [])), Some(L5), false,
                     None, UpsView(None, None, None), 5)

  lemma Restored()
    ensures Load(CFG, Capture(S5), 5) == S10
  {
  }

  lemma Restarts(v: World) returns (w: World)
    requires Reachable(CFG, v) && v.store.disk == Capture(S5) && v.issued == {"c"}
    ensures w == Next(CFG, v, Restart(5, false)) && Reachable(CFG, w) && At(w, S10, Idle, multiset{}, [], {"c"})
  {
    Restored();
    w := Next(CFG, v, Restart(5, false));
    ReachableStep(CFG, v, Restart(5, false));
  }

  // ----- Line power that a crash forgets -----

  lemma ReadsLinePower() returns (w: World)
    ensures Reachable(CFG, w) && w.poll == Got(ON_LINE, 4) && w.s.episode.Some? && w.issued == {"c"}
    ensures w.store.disk == Capture(S5) && w.store.writtenSeq == 2 && w.store.log == [Capture(S2), Capture(S5)]
  {
    var v := EpisodeIsWritten();
    w := Next(CFG, v, PollOk(ON_LINE, 4));
    ReachableStep(CFG, v, PollOk(ON_LINE, 4));
  }

  lemma EndIsNotWritten() returns (w: World)
    ensures Reachable(CFG, w) && w.poll == Adjusted(ON_LINE, 4) && w.s.episode.None? && w.issued == {"c"}
    ensures w.store.disk == Capture(S5) && !Ended(w)
  {
    var v := ReadsLinePower();
    w := Next(CFG, v, PollEpisode);
    ReachableStep(CFG, v, PollEpisode);
    assert w.store == Take(v.store, Capture(w.s));
    assert Live(w.store, 2) && Content(w.store, 2) == Capture(S5);
  }

  const S11 := S10.(ups := UpsView(None, None, Some(6)))

  /** The new process knows the outage only from the file, and the UPS does not answer. */
  lemma SilenceEscalates()
    ensures var o := EvaluateLocalShutdown(CFG, S11, None, 5 + 60 * SECOND);
            && o.send == Send("c", false, {"a"}) && o.begin == Begin("c", UpsUnreachable)
            && o.state.local == Some(L5.(phase := Emergency, trigger := UpsUnreachable))
  {
    var now := 5 + 60 * SECOND;
    assert EffectiveEmergency(CFG, S11, None, now) == UpsUnreachable;
    assert !RemoteShutdownFinished(C5);
    assert Escalate(L5, C5, UpsUnreachable, now) == Some(L5.(phase := Emergency, trigger := UpsUnreachable));
    assert ReplayableNodes(C5) == {"a"};
  }

  lemma SilentAfterCrash() returns (w: World, v: World)
    ensures Reachable(CFG, w) && w.poll == Adjusted(ON_LINE, 4) && w.s.episode.None? && !Ended(w)
    ensures RunOk(CFG, w, [Restart(5, false), PollFail(6)]) && v == RunFrom(CFG, w, [Restart(5, false), PollFail(6)])
    ensures v.s == S11 && v.watcher.Ticking?
  {
    w := EndIsNotWritten();
    var r := Restarts(w);
    TwoSteps(CFG, w, Restart(5, false), PollFail(6));
    v := Next(CFG, r, PollFail(6));
  }

  lemma EscalationStarts(v: World, e: Event)
    requires v.s == S11 && e == WatchLocal(5 + 60 * SECOND, None)
    ensures Section(CFG, v, e).send == Send("c", false, {"a"})
    ensures var begin := BeginRun(Begin("c", UpsUnreachable), true, e.now);
            Enabled(Next(CFG, v, e), begin) && Starts(Next(CFG, v, e), begin)
  {
    SilenceEscalates();
    NextIsAdvance(CFG, v, e);
  }

  /** A line-power reading has ended the outage, but the ending is not written: after a crash
      and a failed poll the watcher sends the episode's command and starts to power the
      master off, with no battery reading since. */
  lemma EndIsForgotten() returns (w: World, v: World, e: Event)
    ensures Reachable(CFG, w) && w.poll == Adjusted(ON_LINE, 4) && w.s.episode.None? && !Ended(w)
    ensures RunOk(CFG, w, [Restart(5, false), PollFail(6)]) && v == RunFrom(CFG, w, [Restart(5, false), PollFail(6)])
    ensures e.WatchLocal? && Enabled(v, e) && Section(CFG, v, e).send == Send("c", false, {"a"})
    ensures "c" in v.s.commands && v.s.commands["c"].auto
    ensures var begin := BeginRun(Begin("c", UpsUnreachable), true, e.now);
            Enabled(Next(CFG, v, e), begin) && Starts(Next(CFG, v, e), begin)
  {
    w, v := SilentAfterCrash();
    e := WatchLocal(5 + 60 * SECOND, None);
    EscalationStarts(v, e);
  }

  // ----- A local shutdown that starts before the UPS is confirmed -----

  const S12 := S10.(commands := map["c" := C6], local := Some(L6))

  lemma AckFinishesRestored()
    ensures HandleAck(S10, "c", "a", Ack(Executed, 2), 2) == Outcome(S12, true, NoSend, Begin("c", RemoteComplete))
  {
    assert S10.commands["c" := C6] == S12.commands;
    assert Reported(C6) == map["a" := Executed];
    assert AllFinished(L5, C6) == L6;
  }

  /** After a restart a node's report starts the automatic local shutdown although the new
      process knows nothing of the UPS yet. */
  lemma AckStartsUnconfirmed() returns (w: World, e: Event)
    ensures Reachable(CFG, w) && Enabled(w, e) && Starts(w, e) && AutoLocal(w.s) && !w.s.upsConfirmed
  {
    var v := EpisodeIsWritten();
    v := Restarts(v);
    AckFinishesRestored();
    var ack := AckArrives("c", "a", Ack(Executed, 2), 2);
    w := Next(CFG, v, ack);
    ReachableStep(CFG, v, ack);
    assert w.s == S12 && w.begins == multiset{Begin("c", RemoteComplete)};
    e := BeginRun(Begin("c", RemoteComplete), false, 6);
  }
}
