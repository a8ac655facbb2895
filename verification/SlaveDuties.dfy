/** What a slave must do with the commands it receives, over every interleaving: carry out one
    that it has not finished, simulate a dry run, and record and report how it went. */
module SlaveDuties {
  import opened Types
  import opened Persist
  import opened Slave
  import opened SlaveRuns
  import opened SlaveReexecution

  /** Every reply of the connection's goroutine goes out. */
  ghost predicate RepliesGoOut(events: seq<Event>) { forall e :: e in events ==> !(e.Reply? && !e.ok) }

  ghost predicate Undisturbed(events: seq<Event>) { NoMessage(events) && Uncrashed(events) && RepliesGoOut(events) }

  /** The master has been told this status of the command. */
  ghost predicate Told(w: Machine, id: CommandId, status: Status) {
    exists ack :: Report(id, ack) in w.sent && ack.status == status
  }

  /** The goroutine starts an execution of the command, or finds that one is claimed. */
  predicate Takes(m: Machine, e: Event, id: CommandId) {
    StartsExecution(m, e, id) || (e.Proceed? && id in m.m.executions)
  }

  ghost predicate PassesTaking(cfg: SlaveConfig, w: Machine, events: seq<Event>, id: CommandId) {
    exists k: nat, m: Machine :: k < |events| && Reaches(cfg, w, events[..k], m) && Takes(m, events[k], id)
  }

  lemma TakingNow(cfg: SlaveConfig, w: Machine, events: seq<Event>, id: CommandId)
    requires events != [] && Takes(w, events[0], id)
    ensures PassesTaking(cfg, w, events, id)
  {
    assert Reaches(cfg, w, events[..0], w);
  }

  lemma TakingLater(cfg: SlaveConfig, w: Machine, events: seq<Event>, id: CommandId)
    requires events != [] && Enabled(cfg, w, events[0])
    requires PassesTaking(cfg, Step(cfg, w, events[0]), events[1..], id)
    ensures PassesTaking(cfg, w, events, id)
  {
    var next := Step(cfg, w, events[0]);
    var k: nat, m: Machine :| k < |events[1..]| && Reaches(cfg, next, events[1..][..k], m) && Takes(m, events[1..][k], id);
    assert events[..k + 1][1..] == events[1..][..k];
    assert Reaches(cfg, w, events[..k + 1], m) && events[k + 1] == events[1..][k];
  }

  // ----- A command to be carried out for real -----

  /** Neither executed nor simulated, as far as the slave knows. */
  predicate Unfinished(existing: Option<Ack>) {
    existing.None? || existing.value.status == Accepted || existing.value.status == Failed
    || existing.value.status == Executing
  }

  /** The goroutine has the command in hand and has not come to its execution. */
  ghost predicate InHand(w: Machine, msg: Shutdown) {
    match w.pc
    case Looked(m, existing) => m == msg && Unfinished(existing)
    case Replying(m, ack, after) =>
      m == msg && (after.ThenResume? || ((after.ThenBegin? || after.ThenSpawn?) && ack.status == Executing))
    case Resuming(m) => m == msg
    case Beginning(m) => m == msg && Told(w, msg.id, Executing)
    case _ => false
  }

  /** The master has been told that it is executing, or is about to be. */
  ghost predicate Announced(w: Machine, id: CommandId) {
    || Told(w, id, Executing)
    || (w.pc.Replying? && w.pc.msg.id == id && w.pc.ack.status == Executing)
  }

  lemma SentGrows(cfg: SlaveConfig, w: Machine, e: Event)
    requires Enabled(cfg, w, e)
    ensures w.sent <= Step(cfg, w, e).sent
    ensures e.Reply? ==> Report(w.pc.msg.id, w.pc.ack) in Step(cfg, w, e).sent
  {
  }

  lemma ToldStays(cfg: SlaveConfig, w: Machine, e: Event, id: CommandId, status: Status)
    requires Enabled(cfg, w, e) && Told(w, id, status)
    ensures Told(Step(cfg, w, e), id, status)
  {
    SentGrows(cfg, w, e);
  }

  /** Only its own steps move the goroutine of a message in hand. */
  lemma OthersLeaveHand(cfg: SlaveConfig, w: Machine, e: Event)
    requires Enabled(cfg, w, e) && (w.pc.Looked? || w.pc.Replying? || w.pc.Resuming? || w.pc.Beginning?)
    requires !e.Proceed? && !e.Reply? && !e.Restart?
    ensures Step(cfg, w, e).pc == w.pc
  {
  }

  lemma HandProceeds(cfg: SlaveConfig, w: Machine, e: Event, msg: Shutdown)
    requires InHand(w, msg) && Enabled(cfg, w, e) && e.Proceed? && !msg.dryRun && !cfg.dryRun
    ensures InHand(Step(cfg, w, e), msg) || (Takes(w, e, msg.id) && Announced(Step(cfg, w, e), msg.id))
  {
    if w.pc.Beginning? {
      ToldStays(cfg, w, e, msg.id, Executing);
    }
  }

  lemma HandReplies(cfg: SlaveConfig, w: Machine, e: Event, msg: Shutdown)
    requires InHand(w, msg) && Enabled(cfg, w, e) && e.Reply? && e.ok
    ensures InHand(Step(cfg, w, e), msg) || (Takes(w, e, msg.id) && Announced(Step(cfg, w, e), msg.id))
  {
    SentGrows(cfg, w, e);
    if !w.pc.after.ThenResume? {
      assert Report(msg.id, w.pc.ack) in Step(cfg, w, e).sent;
    }
  }

  lemma HandStep(cfg: SlaveConfig, w: Machine, e: Event, msg: Shutdown)
    requires InHand(w, msg) && Enabled(cfg, w, e) && !e.Restart? && !(e.Reply? && !e.ok)
    requires !msg.dryRun && !cfg.dryRun
    ensures InHand(Step(cfg, w, e), msg) || (Takes(w, e, msg.id) && Announced(Step(cfg, w, e), msg.id))
  {
    if e.Proceed? {
      HandProceeds(cfg, w, e, msg);
    } else if e.Reply? {
      HandReplies(cfg, w, e, msg);
    } else {
      OthersLeaveHand(cfg, w, e);
      if w.pc.Beginning? {
        ToldStays(cfg, w, e, msg.id, Executing);
      }
    }
  }

  lemma AnnouncedStep(cfg: SlaveConfig, w: Machine, e: Event, id: CommandId)
    requires Announced(w, id) && Enabled(cfg, w, e) && !e.Restart?
    ensures Announced(Step(cfg, w, e), id)
  {
    if Told(w, id, Executing) {
      ToldStays(cfg, w, e, id, Executing);
    } else if e.Reply? {
      SentGrows(cfg, w, e);
    } else {
      OthersLeaveHand(cfg, w, e);
    }
  }

  lemma {:induction false} AnnouncedRun(cfg: SlaveConfig, w: Machine, events: seq<Event>, t: Machine, id: CommandId)
    requires Announced(w, id) && Reaches(cfg, w, events, t) && Uncrashed(events)
    ensures Announced(t, id)
    decreases |events|
  {
    if events != [] {
      assert events[0] in events;
      AnnouncedStep(cfg, w, events[0], id);
      AnnouncedRun(cfg, Step(cfg, w, events[0]), events[1..], t, id);
    }
  }

  lemma {:induction false} HandRun(cfg: SlaveConfig, w: Machine, events: seq<Event>, t: Machine, msg: Shutdown)
    requires InHand(w, msg) && Reaches(cfg, w, events, t) && Undisturbed(events) && !msg.dryRun && !cfg.dryRun
    ensures InHand(t, msg) || (PassesTaking(cfg, w, events, msg.id) && Announced(t, msg.id))
    decreases |events|
  {
    if events != [] {
      assert events[0] in events;
      var next := Step(cfg, w, events[0]);
      HandStep(cfg, w, events[0], msg);
      if InHand(next, msg) {
        HandRun(cfg, next, events[1..], t, msg);
        if !InHand(t, msg) {
          TakingLater(cfg, w, events, msg.id);
        }
      } else {
        TakingNow(cfg, w, events, msg.id);
        AnnouncedRun(cfg, next, events[1..], t, msg.id);
      }
    }
  }

  /** A slave carries out what it has not finished: over every interleaving in which no reply
      fails, up to the next message or crash, a real command that it does not know, or knows
      as accepted, failed or executing, has by the time the goroutine is done been taken up
      (an execution of it was started, or one was found claimed) and the master has been told
      that it is executing. */
  lemma UnfinishedIsCarriedOut(cfg: SlaveConfig, w: Machine, msg: Shutdown, events: seq<Event>, t: Machine)
    requires w.pc.Serving? && !msg.dryRun && !cfg.dryRun
    requires msg.id in w.m.states ==>
               w.m.states[msg.id].status in {Status.Accepted, Status.Failed, Status.Executing}
    requires Reaches(cfg, Step(cfg, w, Receive(msg)), events, t) && Undisturbed(events) && t.pc.Serving?
    ensures PassesTaking(cfg, Step(cfg, w, Receive(msg)), events, msg.id) && Told(t, msg.id, Executing)
  {
    HandRun(cfg, Step(cfg, w, Receive(msg)), events, t, msg);
  }

  /** What is taken up is executed, unless its claim is a lost one: then, in any reachable state,
      an execution of it is in flight. */
  lemma TakenIsInFlight(cfg: SlaveConfig, m: Machine, e: Event, id: CommandId)
    requires Reachable(cfg, m) && Enabled(cfg, m, e) && Takes(m, e, id)
    ensures id in InFlight(Step(cfg, m, e).executors) || Lost(m, id)
  {
    ReachableInv(cfg, m);
    StartsOnlyHere(cfg, m, e, id);
    if e.Proceed? {
      ProceedKeepsFlight(cfg, m, e);
    }
  }

  lemma ProceedKeepsFlight(cfg: SlaveConfig, m: Machine, e: Event)
    requires Enabled(cfg, m, e) && e.Proceed?
    ensures InFlight(m.executors) <= InFlight(Step(cfg, m, e).executors)
  {
    if m.pc.Beginning? {
      SpawnAddsId(m.executors, Executor(m.pc.msg.id, InCommand(e.at)));
    }
  }

  // ----- A dry run -----

  /** The goroutine records that the command was simulated. */
  ghost predicate PassesSimulating(cfg: SlaveConfig, w: Machine, events: seq<Event>, id: CommandId) {
    exists k: nat, m: Machine :: k < |events| && Reaches(cfg, w, events[..k], m) && Simulates(cfg, m, events[k], id)
  }

  ghost predicate Simulates(cfg: SlaveConfig, m: Machine, e: Event, id: CommandId) {
    Enabled(cfg, m, e) && Records(cfg, m, e) && RecordedFor(cfg, m, e).id == id
    && RecordedFor(cfg, m, e).ack.status == Simulated
  }

  lemma SimulatingNow(cfg: SlaveConfig, w: Machine, events: seq<Event>, id: CommandId)
    requires events != [] && Simulates(cfg, w, events[0], id)
    ensures PassesSimulating(cfg, w, events, id)
  {
    assert Reaches(cfg, w, events[..0], w);
  }

  lemma SimulatingLater(cfg: SlaveConfig, w: Machine, events: seq<Event>, id: CommandId)
    requires events != [] && Enabled(cfg, w, events[0])
    requires PassesSimulating(cfg, Step(cfg, w, events[0]), events[1..], id)
    ensures PassesSimulating(cfg, w, events, id)
  {
    var next := Step(cfg, w, events[0]);
    var k: nat, m: Machine :|
      k < |events[1..]| && Reaches(cfg, next, events[1..][..k], m) && Simulates(cfg, m, events[1..][k], id);
    assert events[..k + 1][1..] == events[1..][..k];
    assert Reaches(cfg, w, events[..k + 1], m) && events[k + 1] == events[1..][k];
  }

  ghost predicate DryInHand(w: Machine, msg: Shutdown) {
    match w.pc
    case Looked(m, existing) =>
      m == msg && (existing.None? || existing.value.status == Accepted || existing.value.status == Failed)
    case Replying(m, _, after) => m == msg && after.ThenResume?
    case Resuming(m) => m == msg
    case _ => false
  }

  ghost predicate DryAnswered(w: Machine, id: CommandId) {
    Told(w, id, Simulated) || (w.pc.Replying? && w.pc.msg.id == id && w.pc.ack.status == Simulated)
  }

  lemma DryStep(cfg: SlaveConfig, w: Machine, e: Event, msg: Shutdown)
    requires DryInHand(w, msg) && Enabled(cfg, w, e) && !e.Restart? && !(e.Reply? && !e.ok)
    requires msg.dryRun || cfg.dryRun
    ensures DryInHand(Step(cfg, w, e), msg) || (Simulates(cfg, w, e, msg.id) && DryAnswered(Step(cfg, w, e), msg.id))
  {
    if !e.Proceed? && !e.Reply? {
      OthersLeaveHand(cfg, w, e);
    }
  }

  lemma {:induction false} DryAnsweredRun(cfg: SlaveConfig, w: Machine, events: seq<Event>, t: Machine, id: CommandId)
    requires DryAnswered(w, id) && Reaches(cfg, w, events, t) && Uncrashed(events)
    ensures DryAnswered(t, id)
    decreases |events|
  {
    if events != [] {
      assert events[0] in events;
      if Told(w, id, Simulated) {
        ToldStays(cfg, w, events[0], id, Simulated);
      } else if events[0].Reply? {
        SentGrows(cfg, w, events[0]);
      } else {
        OthersLeaveHand(cfg, w, events[0]);
      }
      DryAnsweredRun(cfg, Step(cfg, w, events[0]), events[1..], t, id);
    }
  }

  lemma {:induction false} DryRun(cfg: SlaveConfig, w: Machine, events: seq<Event>, t: Machine, msg: Shutdown)
    requires DryInHand(w, msg) && Reaches(cfg, w, events, t) && Undisturbed(events) && (msg.dryRun || cfg.dryRun)
    ensures DryInHand(t, msg) || (PassesSimulating(cfg, w, events, msg.id) && DryAnswered(t, msg.id))
    decreases |events|
  {
    if events != [] {
      assert events[0] in events;
      var next := Step(cfg, w, events[0]);
      DryStep(cfg, w, events[0], msg);
      if DryInHand(next, msg) {
        DryRun(cfg, next, events[1..], t, msg);
        if !DryInHand(t, msg) {
          SimulatingLater(cfg, w, events, msg.id);
        }
      } else {
        SimulatingNow(cfg, w, events, msg.id);
        DryAnsweredRun(cfg, next, events[1..], t, msg.id);
      }
    }
  }

  /** A dry run, of the command or of the node, that the slave does not know, or knows as
      accepted or failed, is recorded as simulated and the master is told so. */
  lemma DryRunIsSimulated(cfg: SlaveConfig, w: Machine, msg: Shutdown, events: seq<Event>, t: Machine)
    requires w.pc.Serving? && (msg.dryRun || cfg.dryRun)
    requires msg.id in w.m.states ==> w.m.states[msg.id].status in {Status.Accepted, Status.Failed}
    requires Reaches(cfg, Step(cfg, w, Receive(msg)), events, t) && Undisturbed(events) && t.pc.Serving?
    ensures PassesSimulating(cfg, Step(cfg, w, Receive(msg)), events, msg.id) && Told(t, msg.id, Simulated)
  {
    DryRun(cfg, Step(cfg, w, Receive(msg)), events, t, msg);
  }

  // ----- How an execution ends -----

  /** The shutdown command's result is what its execution records and, if its session is there
      to be found, reports; its claim ends with it. */
  lemma ResultIsReported(cfg: SlaveConfig, w: Machine, e: Event)
    requires Reachable(cfg, w) && Enabled(cfg, w, e) && IsExecutor(e)
    ensures var x := w.executors[e.index];
            var t := Step(cfg, w, e);
            match e
            case CommandReturns(i, ok, at) =>
              && t.executors[i].id == x.id && t.executors[i].stage.Returned?
              && t.executors[i].stage.ack.status == (if ok then Executed else Failed)
            case ResultRecorded(i, _) =>
              && t.executors[i] == Executor(x.id, Recorded(x.stage.ack))
              && x.id in t.m.states && t.m.states[x.id] == x.stage.ack
            case SessionFound(i) =>
              x.id in w.m.executions && t.executors[i] == Executor(x.id, Reporting(x.stage.ack, Some(w.m.executions[x.id])))
            case ResultSent(i) =>
              t.executors[i] == Executor(x.id, Reported) && (x.stage.session.Some? ==> Report(x.id, x.stage.ack) in t.sent)
            case _ => x.id !in t.m.executions && x.id !in InFlight(t.executors)
  {
    ReachableInv(cfg, w);
    assert w.executors[e.index].id in InFlight(w.executors);
    if e.ExecutionFinishes? {
      FinishRemovesId(w.executors, e.index);
    } else if e.ResultRecorded? {
      assert Step(cfg, w, e).m == Drop(WithState(w.m, w.executors[e.index].id, w.executors[e.index].stage.ack), e.dropped);
    }
  }

  // ----- Its token -----

  /** A slave registers with the token it was issued, if it has one, and with the configured
      one otherwise. It gives up the issued token exactly when the master calls that token
      invalid, and sets out to store a token exactly when it is issued one. */
  lemma RegistersWithItsToken(cfg: SlaveConfig, w: Machine, e: Event)
    requires Enabled(cfg, w, e)
    ensures var t := Step(cfg, w, e);
            && (e.Connect? ==>
                  && t.pc.Registering? && t.session == w.session + 1
                  && t.pc.presented == (if w.m.issuedToken != "" then w.m.issuedToken else cfg.token)
                  && (t.pc.usedIssued <==> w.m.issuedToken != ""))
            && (e.Refused? && cfg.hasStateFile ==>
                  if w.pc.usedIssued && e.invalidToken
                  then t.m.issuedToken == "" && t.pc == Setting(|w.store.log| + 1, "", w.m.issuedToken)
                  else t == w.(pc := Offline))
            && (e.Admitted? && cfg.hasStateFile ==>
                  if e.issued != ""
                  then t.m.issuedToken == e.issued && t.pc == Setting(|w.store.log| + 1, e.issued, w.m.issuedToken)
                  else t == w.(pc := Serving))
  {
  }

  // ----- Its records -----

  /** The last snapshot taken, or before the first one the file that was loaded, has the
      command states that the slave knows. */
  ghost predicate RecordsSaved(w: Machine) { w.m.states == Content(w.store, |w.store.log|).states }

  lemma SavingStep(cfg: SlaveConfig, w: Machine, e: Event)
    requires cfg.hasStateFile && StoreInv(w.store) && RecordsSaved(w) && Enabled(cfg, w, e)
    ensures RecordsSaved(Step(cfg, w, e))
  {
  }

  lemma {:induction false} SavingRun(cfg: SlaveConfig, w: Machine, events: seq<Event>, t: Machine)
    requires cfg.hasStateFile && Inv(cfg, w) && RecordsSaved(w) && Reaches(cfg, w, events, t)
    ensures RecordsSaved(t)
    decreases |events|
  {
    if events != [] {
      SavingStep(cfg, w, events[0]);
      StepKeeps(cfg, w, events[0]);
      SavingRun(cfg, Step(cfg, w, events[0]), events[1..], t);
    }
  }

  /** With a state file, whatever a slave records about a command is in the last snapshot, in
      every reachable state: once that one is written, a crash loses no record. */
  lemma RecordsAreSaved(cfg: SlaveConfig, w: Machine)
    requires cfg.hasStateFile && Reachable(cfg, w)
    ensures w.m.states == Content(w.store, |w.store.log|).states
    ensures w.store.writtenSeq == |w.store.log| ==> w.store.disk.states == w.m.states
  {
    var events :| Reaches(cfg, FIRST, events, w);
    ReachableInv(cfg, w);
    SavingRun(cfg, FIRST, events, w);
  }
}
