/** Runs of a slave, event by event from its first start: one for each way in which it comes to
    execute a command again that has already succeeded, one on which a claim is lost, and one
    on which a token is. */
module SlaveWitness {
  import opened Types
  import opened Persist
  import opened Slave
  import opened SlaveRuns
  import opened SlaveReexecution
  import opened Sets
  import Retention

  const CFG := SlaveConfig(false, true, "t")
  const MSG := Shutdown("c", false)

  lemma {:induction false} ReachesMore(cfg: SlaveConfig, w: Machine, events: seq<Event>, t: Machine, e: Event)
    requires Reaches(cfg, w, events, t) && Enabled(cfg, t, e)
    ensures Reaches(cfg, w, events + [e], Step(cfg, t, e))
    decreases |events|
  {
    if events == [] {
      assert (events + [e])[1..] == [];
    } else {
      ReachesMore(cfg, Step(cfg, w, events[0]), events[1..], t, e);
      assert (events + [e])[1..] == events[1..] + [e];
    }
  }

  lemma Goes(w: Machine, e: Event) returns (t: Machine)
    requires Reachable(CFG, w) && Enabled(CFG, w, e)
    ensures Reachable(CFG, t) && t == Step(CFG, w, e)
  {
    var events :| Reaches(CFG, FIRST, events, w);
    ReachesMore(CFG, FIRST, events, w, e);
    t := Step(CFG, w, e);
  }

  lemma Receives(w: Machine, msg: Shutdown) returns (t: Machine)
    requires Reachable(CFG, w) && w.pc.Serving?
    ensures Reachable(CFG, t)
    ensures t == w.(received := w.received + {msg},
                    pc := Looked(msg, if msg.id in w.m.states then Some(w.m.states[msg.id]) else None))
  {
    t := Goes(w, Receive(msg));
  }

  lemma Connects(w: Machine) returns (t: Machine)
    requires Reachable(CFG, w) && w.pc.Offline? && w.m.issuedToken == ""
    ensures Reachable(CFG, t) && t == w.(session := w.session + 1, pc := Serving)
  {
    var v := Goes(w, Connect);
    t := Goes(v, Admitted(""));
  }

  /** The goroutine records the next state of its message. */
  lemma Notes(w: Machine, at: Time, dropped: set<CommandId>) returns (t: Machine)
    requires Reachable(CFG, w) && (w.pc.Looked? || w.pc.Resuming?) && NextAck(CFG, w.pc, at).Some?
    requires Prunes(WithState(w.m, w.pc.msg.id, NextAck(CFG, w.pc, at).value), dropped)
    ensures var ack := NextAck(CFG, w.pc, at).value;
            && Reachable(CFG, t)
            && t == SetState(CFG, w, w.pc.msg.id, ack, dropped).(
                      pc := Replying(w.pc.msg, ack, if w.pc.Looked? then ThenResume
                                                    else if ack.status == Simulated then ThenStop else ThenBegin))
  {
    t := Goes(w, Proceed(at, dropped));
  }

  lemma Replies(w: Machine, at: Time) returns (t: Machine)
    requires Reachable(CFG, w) && w.pc.Replying? && !w.pc.after.ThenSpawn?
    ensures Reachable(CFG, t)
    ensures t == w.(sent := w.sent + {Report(w.pc.msg.id, w.pc.ack)},
                    pc := match w.pc.after
                          case ThenStop => Serving
                          case ThenResume => Resuming(w.pc.msg)
                          case _ => Beginning(w.pc.msg))
  {
    t := Goes(w, Reply(true, at));
  }

  /** A replay that finds its command executing, with no execution claimed, claims one. */
  lemma Claims(w: Machine, existing: Ack, at: Time) returns (t: Machine)
    requires Reachable(CFG, w) && w.pc == Looked(MSG, Some(existing)) && existing.status == Executing
    requires "c" !in w.m.executions
    ensures Reachable(CFG, t)
    ensures t == w.(m := Rebind(w.m, "c", w.session), pc := Replying(MSG, existing, ThenSpawn))
  {
    t := Goes(w, Proceed(at, {}));
  }

  /** Within the cap nothing is evicted. */
  lemma NothingToEvict(m: Memory)
    requires |m.states| <= MAX_RETAINED_STATES
    ensures Prunes(m, {})
  {
  }

  ghost predicate At(w: Machine, m: Memory, pc: Pc, executors: seq<Executor>, succeeded: set<CommandId>) {
    w.m == m && w.pc == pc && w.session == 1 && w.executors == executors && w.succeeded == succeeded
  }

  // ----- The first execution -----

  const ACCEPTED := Ack(Accepted, 0)
  const EXECUTING := Ack(Executing, 0)
  const EXECUTED := Ack(Executed, 0)

  function Mem(ack: Ack): Memory { Memory("", map["c" := ack], map[]) }

  const RUNNING := Mem(EXECUTING).(executions := map["c" := 1])

  lemma Serves() returns (w: Machine)
    ensures Reachable(CFG, w) && At(w, Memory("", map[], map[]), Serving, [], {}) && w.store == Fresh(NO_DISK)
  {
    var none: seq<Event> := [];
    assert Reaches(CFG, FIRST, none, FIRST);
    w := Connects(FIRST);
  }

  lemma Accepts() returns (w: Machine)
    ensures Reachable(CFG, w) && At(w, Mem(ACCEPTED), Resuming(MSG), [], {})
    ensures w.store == Take(Fresh(NO_DISK), Disk("", map["c" := ACCEPTED]))
  {
    var v := Serves();
    v := Receives(v, MSG);
    assert WithState(v.m, "c", ACCEPTED) == Mem(ACCEPTED) == Drop(Mem(ACCEPTED), {});
    NothingToEvict(Mem(ACCEPTED));
    v := Notes(v, 0, {});
    w := Replies(v, 0);
  }

  lemma Executes() returns (w: Machine)
    ensures Reachable(CFG, w) && At(w, RUNNING, Serving, [Executor("c", InCommand(0))], {})
    ensures w.store == Take(Take(Fresh(NO_DISK), Disk("", map["c" := ACCEPTED])), Disk("", map["c" := EXECUTING]))
  {
    var v := Accepts();
    assert WithState(v.m, "c", EXECUTING) == Mem(EXECUTING) == Drop(Mem(EXECUTING), {});
    NothingToEvict(Mem(EXECUTING));
    v := Notes(v, 0, {});
    v := Replies(v, 0);
    w := Begins(v);
  }

  lemma Begins(v: Machine) returns (w: Machine)
    requires Reachable(CFG, v) && At(v, Mem(EXECUTING), Beginning(MSG), [], {})
    ensures Reachable(CFG, w) && At(w, RUNNING, Serving, [Executor("c", InCommand(0))], {}) && w.store == v.store
  {
    assert Rebind(Mem(EXECUTING), "c", 1) == RUNNING;
    w := Goes(v, Proceed(0, {}));
    assert [] + [Executor("c", InCommand(0))] == [Executor("c", InCommand(0))];
  }

  /** The execution succeeds, and its goroutine records it, reports it and ends. */
  lemma Finishes(v: Machine, pc: Pc) returns (w: Machine)
    requires Reachable(CFG, v) && At(v, RUNNING, pc, [Executor("c", InCommand(0))], {})
    ensures Reachable(CFG, w) && At(w, Mem(EXECUTED), pc, [], {"c"})
  {
    var u := Succeeds(v, pc);
    u := RecordsSuccess(u, pc);
    w := Ends(u, pc);
  }

  lemma Succeeds(v: Machine, pc: Pc) returns (w: Machine)
    requires Reachable(CFG, v) && At(v, RUNNING, pc, [Executor("c", InCommand(0))], {})
    ensures Reachable(CFG, w) && At(w, RUNNING, pc, [Executor("c", Returned(EXECUTED))], {"c"}) && w.store == v.store
  {
    w := Goes(v, CommandReturns(0, true, 1));
  }

  lemma RecordsSuccess(v: Machine, pc: Pc) returns (w: Machine)
    requires Reachable(CFG, v) && At(v, RUNNING, pc, [Executor("c", Returned(EXECUTED))], {"c"})
    ensures Reachable(CFG, w)
    ensures At(w, Mem(EXECUTED).(executions := map["c" := 1]), pc, [Executor("c", Recorded(EXECUTED))], {"c"})
  {
    var done := Mem(EXECUTED).(executions := map["c" := 1]);
    assert WithState(v.m, "c", EXECUTED) == done == Drop(done, {});
    NothingToEvict(done);
    w := Goes(v, ResultRecorded(0, {}));
  }

  lemma Ends(v: Machine, pc: Pc) returns (w: Machine)
    requires Reachable(CFG, v)
    requires At(v, Mem(EXECUTED).(executions := map["c" := 1]), pc, [Executor("c", Recorded(EXECUTED))], {"c"})
    ensures Reachable(CFG, w) && At(w, Mem(EXECUTED), pc, [], {"c"})
  {
    var u := Goes(v, SessionFound(0));
    u := Goes(u, ResultSent(0));
    assert u.executors == [Executor("c", Reported)];
    assert Finish(u.m, "c") == Mem(EXECUTED);
    w := Goes(u, ExecutionFinishes(0));
  }

  // ----- Overtaken: the success is recorded between lookup and claim -----

  lemma StaleLookupReexecutes() returns (w: Machine, e: Event)
    ensures Reachable(CFG, w) && Enabled(CFG, w, e) && StartsExecution(w, e, "c")
    ensures "c" in w.succeeded && Remembers(w.m.states, "c")
  {
    var v := Executes();
    v := Receives(v, MSG);
    v := Finishes(v, Looked(MSG, Some(EXECUTING)));
    w := Claims(v, EXECUTING, 2);
    e := Reply(true, 2);
  }

  // ----- Forgotten: the crash comes before the success is written -----

  lemma CrashesBeforeRecording() returns (w: Machine)
    ensures Reachable(CFG, w) && w.m == Mem(EXECUTING) && w.pc == Offline && w.executors == [] && "c" in w.succeeded
  {
    var v := Executes();
    v := Succeeds(v, Serving);
    assert v.store.log[1] == Disk("", map["c" := EXECUTING]);
    v := Goes(v, DiskWrite(2, true));
    w := Goes(v, Restart(false));
  }

  lemma CrashReexecutes() returns (w: Machine, e: Event)
    ensures Reachable(CFG, w) && Enabled(CFG, w, e) && StartsExecution(w, e, "c") && "c" in w.succeeded
  {
    var v := CrashesBeforeRecording();
    v := Connects(v);
    v := Receives(v, MSG);
    w := Claims(v, EXECUTING, 2);
    e := Reply(true, 2);
  }

  // ----- A claim that is lost -----

  /** The reply to the replay cannot be sent: the command's execution is claimed, and nobody
      executes it. */
  lemma ReplyFailureLosesClaim() returns (w: Machine)
    ensures Reachable(CFG, w) && Lost(w, "c") && w.executors == []
  {
    var v := CrashesBeforeRecording();
    v := Connects(v);
    v := Receives(v, MSG);
    v := Claims(v, EXECUTING, 2);
    w := Goes(v, Reply(false, 2));
  }

  // ----- A token that is lost -----

  /** The slave is storing its first token while an execution is about to record its success. */
  lemma SetsToken() returns (w: Machine)
    ensures Reachable(CFG, w) && w.pc == Setting(3, "tok", "") && w.store.writtenSeq == 0
    ensures w.m.states == Mem(EXECUTING).states
    ensures w.executors == [Executor("c", Returned(EXECUTED))]
  {
    var v := Executes();
    v := Succeeds(v, Serving);
    v := Goes(v, Hangup);
    v := Goes(v, Connect);
    w := Goes(v, Admitted("tok"));
  }

  /** Its token cannot be stored, but the record's snapshot carries it to the file: a slave
      that goes on with its old token finds another one there after a crash. */
  lemma StrayTokenIsStored() returns (w: Machine)
    ensures Reachable(CFG, w) && w.m.issuedToken == "" && w.store.disk.issuedToken == "tok"
    ensures !Durable(w.store, w.m.issuedToken)
  {
    var v := SetsToken();
    assert TokenOk(CFG, v) by {
      ReachableInv(CFG, v);
    }
    assert WithState(v.m, "c", EXECUTED).states == Mem(EXECUTED).states;
    NothingToEvict(WithState(v.m, "c", EXECUTED));
    w := StrayReplacesToken(CFG, v, 0, {});
    ReachableOn(v, [ResultRecorded(0, {}), SetWritten(false), DiskWrite(|v.store.log| + 1, true), RollBack], w);
  }

  lemma ReachableOn(v: Machine, more: seq<Event>, w: Machine)
    requires Reachable(CFG, v) && Reaches(CFG, v, more, w)
    ensures Reachable(CFG, w)
  {
    var events :| Reaches(CFG, FIRST, events, v);
    ReachesOn(CFG, FIRST, events, v, more, w);
  }

  lemma {:induction false} ReachesOn(cfg: SlaveConfig, w: Machine, a: seq<Event>, v: Machine, b: seq<Event>, t: Machine)
    requires Reaches(cfg, w, a, v) && Reaches(cfg, v, b, t)
    ensures Reaches(cfg, w, a + b, t)
    decreases |a|
  {
    if a == [] {
      assert a + b == b;
    } else {
      ReachesOn(cfg, Step(cfg, w, a[0]), a[1..], v, b, t);
      assert (a + b)[1..] == a[1..] + b;
    }
  }

  // ----- Forgotten: the record is evicted -----

  function Name(length: nat): (name: string)
    ensures |name| == length
  {
    if length == 0 then "" else Name(length - 1) + "x"
  }

  /** The slave serves, runs nothing, and has `n` other states beside the executed command's,
      all of them younger. */
  ghost predicate Filled(w: Machine, n: nat) {
    && Reachable(CFG, w) && w.pc.Serving? && w.m.executions == map[] && w.executors == [] && "c" in w.succeeded
    && |w.m.states| == n + 1 && "c" in w.m.states && w.m.states["c"] == EXECUTED
    && forall id :: id in w.m.states ==> |id| <= n + 1 && (id != "c" ==> w.m.states[id].ackedAt == 1)
  }

  lemma AddState(states: map<CommandId, Ack>, id: CommandId, ack: Ack)
    ensures states[id := ack].Keys == states.Keys + {id}
    ensures |states[id := ack]| == if id in states then |states| else |states| + 1
  {
    assert |states[id := ack]| == |states[id := ack].Keys|;
    if id in states {
      assert states.Keys + {id} == states.Keys;
    } else {
      DisjointSize(states.Keys, {id});
    }
  }

  /** A dry-run command adds one state, and evicts what does not fit. */
  lemma Simulates(w: Machine, id: CommandId, dropped: set<CommandId>) returns (t: Machine)
    requires Reachable(CFG, w) && w.pc.Serving? && w.m.executions == map[] && w.executors == []
    requires id !in w.m.states && id !in dropped
    requires Prunes(WithState(w.m, id, Ack(Accepted, 1)), dropped)
    requires |Drop(WithState(w.m, id, Ack(Accepted, 1)), dropped).states| <= MAX_RETAINED_STATES
    ensures Reachable(CFG, t) && t.pc.Serving? && t.m.executions == map[] && t.executors == []
    ensures t.succeeded == w.succeeded
    ensures t.m.states == (w.m.states - dropped)[id := Ack(Simulated, 1)]
  {
    var msg := Shutdown(id, true);
    var v := Receives(w, msg);
    v := Notes(v, 1, dropped);
    assert v.m == Drop(WithState(w.m, id, Ack(Accepted, 1)), dropped);
    v := Replies(v, 1);
    t := SimulatesNow(v, id);
    SetAfterDrop(w.m.states, id, dropped, Ack(Accepted, 1), Ack(Simulated, 1));
  }

  lemma SetAfterDrop(states: map<CommandId, Ack>, id: CommandId, dropped: set<CommandId>, a: Ack, b: Ack)
    requires id !in dropped
    ensures (states[id := a] - dropped)[id := b] == (states - dropped)[id := b]
    ensures id in states[id := a] - dropped
  {
  }

  lemma SimulatesNow(w: Machine, id: CommandId) returns (t: Machine)
    requires Reachable(CFG, w) && w.pc == Resuming(Shutdown(id, true)) && w.m.executions == map[] && w.executors == []
    requires id in w.m.states && |w.m.states| <= MAX_RETAINED_STATES
    ensures Reachable(CFG, t) && t.pc.Serving? && t.m.executions == map[] && t.executors == []
    ensures t.succeeded == w.succeeded && t.m.states == w.m.states[id := Ack(Simulated, 1)]
  {
    AddState(w.m.states, id, Ack(Simulated, 1));
    NothingToEvict(WithState(w.m, id, Ack(Simulated, 1)));
    var v := Notes(w, 1, {});
    assert v.m.states == w.m.states[id := Ack(Simulated, 1)];
    t := Replies(v, 1);
  }

  lemma {:induction false} Fills(n: nat) returns (w: Machine)
    requires n + 1 <= MAX_RETAINED_STATES
    ensures Filled(w, n)
  {
    if n == 0 {
      var v := Executes();
      w := Finishes(v, Serving);
    } else {
      var v := Fills(n - 1);
      w := FillsOne(v, n - 1);
    }
  }

  lemma FillsOne(v: Machine, n: nat) returns (w: Machine)
    requires Filled(v, n) && n + 2 <= MAX_RETAINED_STATES
    ensures Filled(w, n + 1)
  {
    var id := Name(n + 2);
    w := SimulatesOneMore(v, id);
    AddState(v.m.states, id, Ack(Simulated, 1));
  }

  /** Within the cap a dry-run command only adds its state. */
  lemma SimulatesOneMore(w: Machine, id: CommandId) returns (t: Machine)
    requires Reachable(CFG, w) && w.pc.Serving? && w.m.executions == map[] && w.executors == []
    requires id !in w.m.states && |w.m.states| < MAX_RETAINED_STATES
    ensures Reachable(CFG, t) && t.pc.Serving? && t.m.executions == map[] && t.executors == []
    ensures t.succeeded == w.succeeded && t.m.states == w.m.states[id := Ack(Simulated, 1)]
  {
    var noted := WithState(w.m, id, Ack(Accepted, 1));
    AddState(w.m.states, id, Ack(Accepted, 1));
    NothingToEvict(noted);
    assert Drop(noted, {}) == noted;
    t := Simulates(w, id, {});
    assert w.m.states - {} == w.m.states;
  }

  /** One state too many evicts one that is as old as any other. */
  lemma OldestIsEvicted(m: Memory, oldest: CommandId)
    requires m.executions == map[] && |m.states| == MAX_RETAINED_STATES + 1 && oldest in m.states
    requires forall id :: id in m.states ==> m.states[oldest].ackedAt <= m.states[id].ackedAt
    ensures Prunes(m, {oldest})
    ensures |Drop(m, {oldest}).states| == MAX_RETAINED_STATES
  {
    assert AckTimes(m).Keys == m.states.Keys;
    assert |{oldest}| == Retention.Clamp(1, |m.states.Keys|);
    assert Drop(m, {oldest}).states.Keys == m.states.Keys - {oldest};
    SplitSize(m.states.Keys, {oldest});
    assert |m.states| == |m.states.Keys| && |Drop(m, {oldest}).states| == |Drop(m, {oldest}).states.Keys|;
  }

  lemma Evicts() returns (w: Machine)
    ensures Reachable(CFG, w) && w.pc.Serving? && w.m.executions == map[] && w.executors == [] && "c" in w.succeeded
    ensures "c" !in w.m.states && |w.m.states| == MAX_RETAINED_STATES
    ensures forall id :: id in w.m.states ==> w.m.states[id].ackedAt == 1
  {
    var v := Fills(MAX_RETAINED_STATES - 1);
    var id := Name(MAX_RETAINED_STATES + 1);
    AddState(v.m.states, id, Ack(Accepted, 1));
    OldestIsEvicted(WithState(v.m, id, Ack(Accepted, 1)), "c");
    w := Simulates(v, id, {"c"});
    assert w.m.states.Keys == Drop(WithState(v.m, id, Ack(Accepted, 1)), {"c"}).states.Keys;
    assert |w.m.states| == |w.m.states.Keys|;
  }

  /** The evicted command is accepted as a new one. */
  lemma EvictedIsAccepted() returns (w: Machine)
    ensures Reachable(CFG, w) && w.pc == Resuming(MSG) && w.m.executions == map[] && "c" in w.succeeded
    ensures "c" in w.m.states && |w.m.states| == MAX_RETAINED_STATES
  {
    var v := Evicts();
    var oldest :| oldest in v.m.states;
    var more := WithState(v.m, "c", Ack(Accepted, 3));
    AddState(v.m.states, "c", Ack(Accepted, 3));
    OldestIsEvicted(more, oldest);
    v := Receives(v, MSG);
    v := Notes(v, 3, {oldest});
    assert v.m == Drop(more, {oldest});
    w := Replies(v, 3);
  }

  lemma EvictionReexecutes() returns (w: Machine, e: Event)
    ensures Reachable(CFG, w) && Enabled(CFG, w, e) && StartsExecution(w, e, "c") && "c" in w.succeeded
  {
    var v := EvictedIsAccepted();
    AddState(v.m.states, "c", Ack(Executing, 3));
    NothingToEvict(WithState(v.m, "c", Ack(Executing, 3)));
    v := Notes(v, 3, {});
    w := Replies(v, 3);
    e := Proceed(3, {});
  }
}
