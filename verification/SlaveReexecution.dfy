/** When a slave executes a command again that it has already executed successfully. */
module SlaveReexecution {
  import opened Types
  import opened Persist
  import opened Slave
  import opened SlaveRuns

  // ----- Where executions start -----

  /** The step starts an execution of the command: the goroutine that serves the connection
      has claimed it, or claims it now. */
  predicate StartsExecution(w: Machine, e: Event, id: CommandId) {
    || (e.Reply? && e.ok && w.pc.Replying? && w.pc.after.ThenSpawn? && w.pc.msg.id == id)
    || (e.Proceed? && w.pc.Beginning? && w.pc.msg.id == id && id !in w.m.executions)
  }

  lemma SpawnAdds(w: Machine, id: CommandId, at: Time)
    ensures InFlight(Spawn(w, id, at).executors) == InFlight(w.executors) + {id}
  {
    SpawnAddsId(w.executors, Executor(id, InCommand(at)));
  }

  lemma ReplyStarts(w: Machine, e: Event, id: CommandId)
    requires e.Reply? && w.pc.Replying? && InFlight(w.executors) !! Claimed(w.pc)
    ensures StartsExecution(w, e, id) <==>
            id !in InFlight(w.executors) && id in InFlight(DoReply(w, e.ok, e.at).executors)
  {
    SpawnAdds(w.(sent := w.sent + {Report(w.pc.msg.id, w.pc.ack)}), w.pc.msg.id, e.at);
    assert w.pc.after.ThenSpawn? ==> w.pc.msg.id in Claimed(w.pc);
  }

  lemma ProceedStarts(cfg: SlaveConfig, w: Machine, e: Event, id: CommandId)
    requires Enabled(cfg, w, e) && e.Proceed? && InFlight(w.executors) <= w.m.executions.Keys
    ensures StartsExecution(w, e, id) <==>
            id !in InFlight(w.executors) && id in InFlight(DoProceed(cfg, w, e.at, e.dropped).executors)
  {
    if w.pc.Beginning? {
      SpawnAdds(w.(m := Rebind(w.m, w.pc.msg.id, w.session), pc := Serving), w.pc.msg.id, e.at);
    } else {
      assert DoProceed(cfg, w, e.at, e.dropped).executors == w.executors;
    }
  }

  lemma ExecutorsDoNotStart(cfg: SlaveConfig, w: Machine, e: Event)
    requires Enabled(cfg, w, e) && IsExecutor(e) && DistinctIds(w.executors)
    ensures InFlight(Step(cfg, w, e).executors) <= InFlight(w.executors)
  {
    if e.ExecutionFinishes? {
      FinishRemovesId(w.executors, e.index);
    } else {
      var t := Step(cfg, w, e);
      assert t.executors == w.executors[e.index := Executor(w.executors[e.index].id, t.executors[e.index].stage)];
      StagedKeepsIds(w.executors, e.index, t.executors[e.index].stage);
    }
  }

  /** No other step of any goroutine starts one. */
  lemma StartsOnlyHere(cfg: SlaveConfig, w: Machine, e: Event, id: CommandId)
    requires Reachable(cfg, w) && Enabled(cfg, w, e)
    ensures StartsExecution(w, e, id) <==> id !in InFlight(w.executors) && id in InFlight(Step(cfg, w, e).executors)
  {
    ReachableInv(cfg, w);
    if e.Proceed? {
      ProceedStarts(cfg, w, e, id);
    } else if e.Reply? {
      ReplyStarts(w, e, id);
    } else if IsExecutor(e) {
      ExecutorsDoNotStart(cfg, w, e);
    }
  }

  // ----- What the slave knows of its successes -----

  predicate Remembers(states: map<CommandId, Ack>, id: CommandId) {
    id in states && states[id].status == Executed
  }

  /** An execution has returned success and its goroutine is about to record it. */
  ghost predicate AboutToRecord(executors: seq<Executor>, id: CommandId) {
    exists i :: 0 <= i < |executors| && Succeeded(executors[i], id)
  }

  predicate Succeeded(x: Executor, id: CommandId) {
    x.id == id && x.stage.Returned? && x.stage.ack.status == Executed
  }

  ghost predicate Knows(w: Machine, id: CommandId) {
    Remembers(w.m.states, id) || AboutToRecord(w.executors, id)
  }

  /** Two histories of a run. `overtaken` are the ids recorded as executed since the message
      at hand was looked up; `forgotten` are the successes that the slave knew of and has
      lost. */
  datatype History = History(overtaken: set<CommandId>, forgotten: set<CommandId>)

  const NOTHING := History({}, {})

  ghost function Note(cfg: SlaveConfig, w: Machine, e: Event, h: History): History
    requires Enabled(cfg, w, e)
  {
    var t := Step(cfg, w, e);
    History(
      if e.Receive? then {}
      else if e.ResultRecorded? && Succeeded(w.executors[e.index], w.executors[e.index].id)
      then h.overtaken + {w.executors[e.index].id} else h.overtaken,
      set id | id in w.succeeded && (id in h.forgotten || Knows(w, id)) && !Knows(t, id))
  }

  /** The run leads from `w` to `t`, and its histories from `h` to `k`. */
  ghost predicate Traces(cfg: SlaveConfig, w: Machine, h: History, events: seq<Event>, t: Machine, k: History)
    decreases |events|
  {
    if events == [] then t == w && k == h
    else
      Enabled(cfg, w, events[0]) &&
      Traces(cfg, Step(cfg, w, events[0]), Note(cfg, w, events[0], h), events[1..], t, k)
  }

  /** Every run has its histories. */
  lemma {:induction false} RunHasHistory(cfg: SlaveConfig, w: Machine, h: History, events: seq<Event>, t: Machine)
    returns (k: History)
    requires Reaches(cfg, w, events, t)
    ensures Traces(cfg, w, h, events, t, k)
    decreases |events|
  {
    if events == [] {
      k := h;
    } else {
      k := RunHasHistory(cfg, Step(cfg, w, events[0]), Note(cfg, w, events[0], h), events[1..], t);
    }
  }

  /** The goroutine that serves the connection may still start an execution of its message. */
  predicate EnRoute(pc: Pc) {
    match pc
    case Looked(_, existing) =>
      existing.None? || existing.value.status == Executing || existing.value.status == Accepted
      || existing.value.status == Failed
    case Replying(_, _, after) => !after.ThenStop?
    case Resuming(_) => true
    case Beginning(_) => true
    case _ => false
  }

  ghost predicate HistoryInv(w: Machine, h: History) {
    && h.overtaken <= w.succeeded && h.forgotten <= w.succeeded
    && (forall id :: id in w.succeeded ==> (id in h.forgotten <==> !Knows(w, id)))
    && (EnRoute(w.pc) && w.pc.msg.id in w.succeeded ==>
          || w.pc.msg.id in h.overtaken || w.pc.msg.id in h.forgotten || AboutToRecord(w.executors, w.pc.msg.id))
  }

  // ----- How knowledge changes -----

  /** Only one execution of a command is there to ask. */
  lemma OnlyOne(executors: seq<Executor>, i: nat)
    requires DistinctIds(executors) && i < |executors|
    ensures AboutToRecord(executors, executors[i].id) <==> Succeeded(executors[i], executors[i].id)
  {
  }

  lemma AboutIsInFlight(executors: seq<Executor>, id: CommandId)
    ensures AboutToRecord(executors, id) ==> id in InFlight(executors)
  {
  }

  lemma StagedAbout(executors: seq<Executor>, i: nat, stage: Stage, id: CommandId)
    requires i < |executors| && DistinctIds(executors)
    ensures var staged := executors[i := Executor(executors[i].id, stage)];
            AboutToRecord(staged, id) <==>
              if executors[i].id == id then stage.Returned? && stage.ack.status == Executed
              else AboutToRecord(executors, id)
  {
    var staged := executors[i := Executor(executors[i].id, stage)];
    if AboutToRecord(executors, id) && executors[i].id != id {
      var j :| 0 <= j < |executors| && Succeeded(executors[j], id);
      assert Succeeded(staged[j], id);
    }
    if executors[i].id == id && stage.Returned? && stage.ack.status == Executed {
      assert Succeeded(staged[i], id);
    }
    if AboutToRecord(staged, id) && executors[i].id == id {
      var j :| 0 <= j < |staged| && Succeeded(staged[j], id);
      assert j == i;
    }
  }

  lemma FinishedAbout(executors: seq<Executor>, i: nat, id: CommandId)
    requires i < |executors| && executors[i].stage.Reported?
    ensures AboutToRecord(executors[..i] + executors[i + 1..], id) <==> AboutToRecord(executors, id)
  {
    var fewer := executors[..i] + executors[i + 1..];
    if AboutToRecord(executors, id) {
      var j :| 0 <= j < |executors| && Succeeded(executors[j], id);
      assert Succeeded(fewer[if j < i then j else j - 1], id);
    }
    if AboutToRecord(fewer, id) {
      var j :| 0 <= j < |fewer| && Succeeded(fewer[j], id);
      assert Succeeded(executors[if j < i then j else j + 1], id);
    }
  }

  lemma SpawnedAbout(executors: seq<Executor>, x: Executor, id: CommandId)
    requires !x.stage.Returned?
    ensures AboutToRecord(executors + [x], id) <==> AboutToRecord(executors, id)
  {
    if AboutToRecord(executors, id) {
      var j :| 0 <= j < |executors| && Succeeded(executors[j], id);
      assert Succeeded((executors + [x])[j], id);
    }
  }

  /** The command whose state a recording step sets, and the state. */
  function RecordedFor(cfg: SlaveConfig, w: Machine, e: Event): Report
    requires Records(cfg, w, e) && Enabled(cfg, w, e)
  {
    if e.ResultRecorded? then Report(w.executors[e.index].id, w.executors[e.index].stage.ack)
    else Report(w.pc.msg.id, NextAck(cfg, w.pc, e.at).value)
  }

  lemma RecordingRemembers(cfg: SlaveConfig, w: Machine, e: Event, id: CommandId)
    requires Enabled(cfg, w, e) && Records(cfg, w, e)
    ensures var r := RecordedFor(cfg, w, e);
            Remembers(Step(cfg, w, e).m.states, id) <==>
              && id !in e.dropped
              && if r.id == id then r.ack.status == Executed else Remembers(w.m.states, id)
  {
    if e.ResultRecorded? {
      assert Step(cfg, w, e).m == Drop(WithState(w.m, w.executors[e.index].id, w.executors[e.index].stage.ack), e.dropped);
    } else {
      assert Step(cfg, w, e).m == Drop(WithState(w.m, w.pc.msg.id, NextAck(cfg, w.pc, e.at).value), e.dropped);
    }
  }

  lemma RecordingAbout(cfg: SlaveConfig, w: Machine, e: Event, id: CommandId)
    requires Enabled(cfg, w, e) && Records(cfg, w, e) && DistinctIds(w.executors)
    ensures AboutToRecord(Step(cfg, w, e).executors, id) <==>
            AboutToRecord(w.executors, id) && !(e.ResultRecorded? && w.executors[e.index].id == id)
  {
    if e.ResultRecorded? {
      StagedAbout(w.executors, e.index, Recorded(w.executors[e.index].stage.ack), id);
    } else {
      assert Step(cfg, w, e).executors == w.executors;
    }
  }

  lemma QuietSteps(cfg: SlaveConfig, w: Machine, e: Event, id: CommandId)
    requires Enabled(cfg, w, e) && !Records(cfg, w, e) && !e.Restart? && DistinctIds(w.executors)
    ensures Step(cfg, w, e).m.states == w.m.states
    ensures AboutToRecord(Step(cfg, w, e).executors, id) <==>
            || AboutToRecord(w.executors, id)
            || (e.CommandReturns? && e.ok && w.executors[e.index].id == id)
  {
    match e
    case CommandReturns(i, ok, at) =>
      StagedAbout(w.executors, i, Step(cfg, w, e).executors[i].stage, id);
      OnlyOne(w.executors, i);
    case SessionFound(i) => StagedKeepsOthers(cfg, w, e, id);
    case ResultSent(i) => StagedKeepsOthers(cfg, w, e, id);
    case ExecutionFinishes(i) => FinishedAbout(w.executors, i, id);
    case Reply(ok, at) => SpawnedAbout(w.executors, Executor(w.pc.msg.id, InCommand(at)), id);
    case Proceed(at, _) => SpawnedAbout(w.executors, Executor(w.pc.msg.id, InCommand(at)), id);
    case _ =>
  }

  lemma StagedKeepsOthers(cfg: SlaveConfig, w: Machine, e: Event, id: CommandId)
    requires Enabled(cfg, w, e) && (e.SessionFound? || e.ResultSent?) && DistinctIds(w.executors)
    ensures AboutToRecord(Step(cfg, w, e).executors, id) <==> AboutToRecord(w.executors, id)
  {
    StagedAbout(w.executors, e.index, Step(cfg, w, e).executors[e.index].stage, id);
    OnlyOne(w.executors, e.index);
  }

  /** How a success is lost: by a restart from a file that does not record it, by evicting
      its record, or by recording another state for the same command. */
  ghost predicate Forgets(cfg: SlaveConfig, w: Machine, e: Event, id: CommandId)
    requires Enabled(cfg, w, e)
  {
    || (e.Restart? && !Remembers(if e.fileLost then map[] else w.store.disk.states, id))
    || (Records(cfg, w, e) && id in e.dropped)
    || (&& Records(cfg, w, e) && RecordedFor(cfg, w, e).id == id && RecordedFor(cfg, w, e).ack.status != Executed
        && !AboutToRecord(w.executors, id))
  }

  lemma RecordingForgets(cfg: SlaveConfig, w: Machine, e: Event, id: CommandId)
    requires Inv(cfg, w) && Enabled(cfg, w, e) && Records(cfg, w, e) && Knows(w, id)
    ensures !Knows(Step(cfg, w, e), id) <==> Forgets(cfg, w, e, id)
  {
    RecordingRemembers(cfg, w, e, id);
    RecordingAbout(cfg, w, e, id);
    if id !in e.dropped && e.ResultRecorded? {
      OnlyOne(w.executors, e.index);
    }
  }

  /** The slave loses a success it knew of in exactly these three ways. */
  lemma ForgetsExactlyBy(cfg: SlaveConfig, w: Machine, e: Event, id: CommandId)
    requires Reachable(cfg, w) && Enabled(cfg, w, e) && Knows(w, id)
    ensures !Knows(Step(cfg, w, e), id) <==> Forgets(cfg, w, e, id)
  {
    ReachableInv(cfg, w);
    if Records(cfg, w, e) {
      RecordingForgets(cfg, w, e, id);
    } else if !e.Restart? {
      QuietSteps(cfg, w, e, id);
    }
  }

  // ----- The histories are kept -----

  /** What is not known stays unknown, unless an execution of it succeeds. */
  lemma UnknownStays(cfg: SlaveConfig, w: Machine, e: Event, id: CommandId)
    requires Inv(cfg, w) && Enabled(cfg, w, e) && !e.Restart? && !Knows(w, id)
    requires !(e.CommandReturns? && e.ok && w.executors[e.index].id == id)
    ensures !Knows(Step(cfg, w, e), id)
  {
    if Records(cfg, w, e) {
      RecordingRemembers(cfg, w, e, id);
      RecordingAbout(cfg, w, e, id);
      if e.ResultRecorded? {
        OnlyOne(w.executors, e.index);
      }
    } else {
      QuietSteps(cfg, w, e, id);
    }
  }

  lemma SucceededGrows(cfg: SlaveConfig, w: Machine, e: Event)
    requires Enabled(cfg, w, e)
    ensures Step(cfg, w, e).succeeded ==
            if e.CommandReturns? && e.ok then w.succeeded + {w.executors[e.index].id} else w.succeeded
  {
  }

  lemma KnowledgeKept(cfg: SlaveConfig, w: Machine, e: Event, h: History, id: CommandId)
    requires Inv(cfg, w) && Enabled(cfg, w, e) && HistoryInv(w, h) && id in Step(cfg, w, e).succeeded
    ensures id in Note(cfg, w, e, h).forgotten <==> !Knows(Step(cfg, w, e), id)
  {
    SucceededGrows(cfg, w, e);
    if id !in w.succeeded {
      QuietSteps(cfg, w, e, id);
    }
  }

  /** What the en-route clause says of one id. */
  ghost predicate Warned(h: History, executors: seq<Executor>, id: CommandId) {
    id in h.overtaken || id in h.forgotten || AboutToRecord(executors, id)
  }

  lemma WarningKept(cfg: SlaveConfig, w: Machine, e: Event, h: History, id: CommandId)
    requires Inv(cfg, w) && Enabled(cfg, w, e) && HistoryInv(w, h) && !e.Receive? && !e.Restart?
    requires id in Step(cfg, w, e).succeeded && (id in w.succeeded ==> Warned(h, w.executors, id))
    ensures Warned(Note(cfg, w, e, h), Step(cfg, w, e).executors, id)
  {
    SucceededGrows(cfg, w, e);
    if e.CommandReturns? && e.ok && w.executors[e.index].id == id {
      QuietSteps(cfg, w, e, id);
    } else if id in h.forgotten {
      UnknownStays(cfg, w, e, id);
    } else if id !in h.overtaken {
      AboutStays(cfg, w, e, h, id);
    }
  }

  lemma AboutStays(cfg: SlaveConfig, w: Machine, e: Event, h: History, id: CommandId)
    requires Inv(cfg, w) && Enabled(cfg, w, e) && !e.Receive? && !e.Restart? && AboutToRecord(w.executors, id)
    ensures Warned(Note(cfg, w, e, h), Step(cfg, w, e).executors, id)
  {
    if Records(cfg, w, e) {
      RecordingAbout(cfg, w, e, id);
      if e.ResultRecorded? {
        OnlyOne(w.executors, e.index);
      }
    } else {
      QuietSteps(cfg, w, e, id);
    }
  }

  lemma ReceivedWarned(cfg: SlaveConfig, w: Machine, e: Event, h: History)
    requires Inv(cfg, w) && Enabled(cfg, w, e) && HistoryInv(w, h) && e.Receive?
    requires EnRoute(Step(cfg, w, e).pc) && e.msg.id in w.succeeded
    ensures Warned(Note(cfg, w, e, h), Step(cfg, w, e).executors, e.msg.id)
  {
    QuietSteps(cfg, w, e, e.msg.id);
    assert !Remembers(w.m.states, e.msg.id);
  }

  lemma HistoryStep(cfg: SlaveConfig, w: Machine, e: Event, h: History)
    requires Inv(cfg, w) && Enabled(cfg, w, e) && HistoryInv(w, h)
    ensures HistoryInv(Step(cfg, w, e), Note(cfg, w, e, h))
  {
    var t := Step(cfg, w, e);
    NotedSucceeded(cfg, w, e, h);
    forall id | id in t.succeeded
      ensures id in Note(cfg, w, e, h).forgotten <==> !Knows(t, id)
    {
      KnowledgeKept(cfg, w, e, h, id);
    }
    if EnRoute(t.pc) && t.pc.msg.id in t.succeeded {
      RouteWarned(cfg, w, e, h);
    }
  }

  lemma NotedSucceeded(cfg: SlaveConfig, w: Machine, e: Event, h: History)
    requires ReportInv(cfg, w) && Enabled(cfg, w, e) && h.overtaken <= w.succeeded
    ensures var k := Note(cfg, w, e, h);
            k.overtaken <= Step(cfg, w, e).succeeded && k.forgotten <= Step(cfg, w, e).succeeded
  {
    SucceededGrows(cfg, w, e);
  }

  lemma RouteWarned(cfg: SlaveConfig, w: Machine, e: Event, h: History)
    requires Inv(cfg, w) && Enabled(cfg, w, e) && HistoryInv(w, h)
    requires EnRoute(Step(cfg, w, e).pc) && Step(cfg, w, e).pc.msg.id in Step(cfg, w, e).succeeded
    ensures Warned(Note(cfg, w, e, h), Step(cfg, w, e).executors, Step(cfg, w, e).pc.msg.id)
  {
    if e.Receive? {
      SucceededGrows(cfg, w, e);
      ReceivedWarned(cfg, w, e, h);
    } else {
      WarningKept(cfg, w, e, h, Step(cfg, w, e).pc.msg.id);
    }
  }

  lemma {:induction false} HistoryRun(cfg: SlaveConfig, w: Machine, h: History, events: seq<Event>, t: Machine, k: History)
    requires Inv(cfg, w) && HistoryInv(w, h) && Traces(cfg, w, h, events, t, k)
    ensures Inv(cfg, t) && HistoryInv(t, k)
    decreases |events|
  {
    if events != [] {
      StepKeeps(cfg, w, events[0]);
      HistoryStep(cfg, w, events[0], h);
      HistoryRun(cfg, Step(cfg, w, events[0]), Note(cfg, w, events[0], h), events[1..], t, k);
    }
  }

  // ----- The theorem -----

  /** Over every run: an execution that is started is of a command already executed
      successfully exactly when that success was recorded after the message was looked up,
      or the slave has lost it. */
  lemma ReexecutesExactlyWhen(cfg: SlaveConfig, events: seq<Event>, w: Machine, h: History, e: Event, id: CommandId)
    requires Traces(cfg, FIRST, NOTHING, events, w, h) && Enabled(cfg, w, e) && StartsExecution(w, e, id)
    ensures id in w.succeeded <==> id in h.overtaken || id in h.forgotten
  {
    HistoryRun(cfg, FIRST, NOTHING, events, w, h);
    AboutIsInFlight(w.executors, id);
    assert id in Claimed(w.pc) || id !in w.m.executions;
  }

  // ----- A message that is only answered -----

  ghost predicate NoMessage(events: seq<Event>) { forall e :: e in events ==> !e.Receive? }

  /** Nothing is executed between messages: over every interleaving up to the next message
      received, no step starts an execution unless the message at hand may still do so. */
  lemma {:induction false} OnlyMessagesStart(cfg: SlaveConfig, w: Machine, events: seq<Event>, t: Machine)
    requires Reaches(cfg, w, events, t) && NoMessage(events) && !EnRoute(w.pc)
    ensures !EnRoute(t.pc)
    ensures forall e, id :: !StartsExecution(t, e, id)
    decreases |events|
  {
    if events != [] {
      assert events[0] in events;
      OnlyMessagesStart(cfg, Step(cfg, w, events[0]), events[1..], t);
    }
  }

  /** Where the answer to a finished command is. */
  ghost predicate Answering(w: Machine, msg: Shutdown, existing: Ack) {
    || w.pc == Looked(msg, Some(existing))
    || w.pc == Replying(msg, existing, ThenStop)
    || Report(msg.id, existing) in w.sent
  }

  ghost predicate Uncrashed(events: seq<Event>) { forall e :: e in events ==> !e.Restart? }

  /** A replay that finds its command executed or simulated is answered with the recorded
      state and starts nothing, over every interleaving up to the next message. */
  lemma {:induction false} FinishedIsOnlyRepeated(cfg: SlaveConfig, w: Machine, msg: Shutdown, events: seq<Event>,
                                                  t: Machine)
    requires w.pc.Serving? && msg.id in w.m.states
    requires w.m.states[msg.id].status == Executed || w.m.states[msg.id].status == Simulated
    requires Reaches(cfg, Step(cfg, w, Receive(msg)), events, t) && NoMessage(events) && Uncrashed(events)
    ensures forall e, id :: !StartsExecution(t, e, id)
    ensures Answering(t, msg, w.m.states[msg.id])
  {
    OnlyMessagesStart(cfg, Step(cfg, w, Receive(msg)), events, t);
    AnsweringRun(cfg, Step(cfg, w, Receive(msg)), events, t, msg, w.m.states[msg.id]);
  }

  lemma {:induction false} AnsweringRun(cfg: SlaveConfig, w: Machine, events: seq<Event>, t: Machine, msg: Shutdown,
                                        existing: Ack)
    requires Reaches(cfg, w, events, t) && Uncrashed(events) && Answering(w, msg, existing)
    requires existing.status == Executed || existing.status == Simulated
    ensures Answering(t, msg, existing)
    decreases |events|
  {
    if events != [] {
      assert events[0] in events;
      AnsweringRun(cfg, Step(cfg, w, events[0]), events[1..], t, msg, existing);
    }
  }
}
