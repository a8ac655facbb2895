/** Policies over an outage: when each becomes due, that it then fires, and that it fires
    once, over resets, crashes and restarts. */
module MasterOutages {
  import opened Types
  import opened Policy
  import opened MasterState
  import opened MasterInvariant
  import opened MasterFrame
  import opened Debounce
  import opened Persist
  import opened MasterWorld
  import opened MasterRuns
  import opened MasterTheorems
  import opened MasterRestarts

  // ----- When a policy becomes due -----

  /** The readings polled on battery since the last line-power reading or restart, from
      the events of the run alone. */
  function Polled(events: seq<Event>): seq<Observation> {
    if events == [] then []
    else
      var before := Polled(events[..|events| - 1]);
      match events[|events| - 1]
      case PollOk(reading, at) => if reading.onBattery then before + [Observation(reading, at)] else []
      case Restart(_, _) => []
      case _ => before
  }

  /** `seen` is what was polled, up to the reading the poller is still working on. */
  ghost predicate SeenIs(w: World, polled: seq<Observation>) {
    var seen := if w.s.episode.Some? then w.s.episode.value.seen else [];
    match w.poll
    case Got(reading, at) => polled == if reading.onBattery then seen + [Observation(reading, at)] else []
    case Adjusted(reading, at) => polled == if reading.onBattery then seen + [Observation(reading, at)] else []
    case ToEvaluate(maybe, at) => polled == if maybe.Some? then seen + [Observation(maybe.value, at)] else seen
    case _ => polled == seen
  }

  lemma SeenStep(cfg: Config, w: World, e: Event, o: Outcome, polled: seq<Observation>)
    requires PollInv(cfg, w.s, w.poll) && Enabled(w, e) && InMemory(e) && SectionFrame(cfg, w, e, o.state)
    requires SeenIs(w, polled)
    ensures SeenIs(Advance(cfg, w, e, o),
                   match e
                   case PollOk(reading, at) => if reading.onBattery then polled + [Observation(reading, at)] else []
                   case _ => polled)
  {
    if !IsPoll(e) {
      SeenElsewhere(cfg, w, e, o, polled);
    }
  }

  lemma SeenElsewhere(cfg: Config, w: World, e: Event, o: Outcome, polled: seq<Observation>)
    requires Enabled(w, e) && InMemory(e) && !IsPoll(e) && SectionFrame(cfg, w, e, o.state) && SeenIs(w, polled)
    ensures SeenIs(Advance(cfg, w, e, o), polled)
  {
  }

  lemma SeenNext(cfg: Config, w: World, e: Event, polled: seq<Observation>)
    requires WorldInv(cfg, w) && Enabled(w, e) && SeenIs(w, polled)
    ensures SeenIs(Next(cfg, w, e),
                   match e
                   case PollOk(reading, at) => if reading.onBattery then polled + [Observation(reading, at)] else []
                   case Restart(_, _) => []
                   case _ => polled)
  {
    if InMemory(e) {
      SectionGood(cfg, w, e);
      SeenStep(cfg, w, e, Section(cfg, w, e), polled);
      NextIsAdvance(cfg, w, e);
    } else if e.Restart? {
      assert SnapshotInv(cfg, Content(w.store, w.store.writtenSeq));
    }
  }

  lemma {:induction false} SeenIsPolled(cfg: Config, at: Time, events: seq<Event>)
    requires ValidConfig(cfg) && RunOk(cfg, First(cfg, at), events)
    ensures WorldInv(cfg, RunFrom(cfg, First(cfg, at), events))
    ensures SeenIs(RunFrom(cfg, First(cfg, at), events), Polled(events))
  {
    FirstSound(cfg, at);
    RunKeeps(cfg, First(cfg, at), events);
    if events != [] {
      var before := events[..|events| - 1];
      SeenIsPolled(cfg, at, before);
      SeenNext(cfg, RunFrom(cfg, First(cfg, at), before), events[|events| - 1], Polled(before));
    }
  }

  /** A policy is due by what was polled: it is reading-based, has not fired, and the
      maximal run of matching readings that ends with the last one began at least its
      duration ago. */
  ghost predicate DueByPolls(p: PolicySpec, fired: seq<string>, polled: seq<Observation>, now: Time) {
    && p.unreachableFor <= 0
    && p.name !in fired
    && exists k :: StartsRun(polled, p, k) && now - polled[k].at >= p.duration
  }

  lemma PolicyFires(cfg: Config, w: World, polled: seq<Observation>, i: nat)
    requires WorldInv(cfg, w) && SeenIs(w, polled) && w.poll.ToEvaluate? && w.poll.maybe.Some? && i < |cfg.policies|
    ensures w.s.episode.Some?
    ensures cfg.policies[i].name in EvaluatePolicies(cfg, w.s, w.poll.maybe, w.poll.at).due
            <==> DueByPolls(cfg.policies[i], w.s.episode.value.fired, polled, w.poll.at)
  {
    TimersRefineHistory(cfg, w.s, w.poll.maybe.value, w.poll.at);
  }

  /** Over every run: when the poller evaluates a battery reading, a policy becomes due
      exactly when the readings polled since the last line-power reading or restart say
      so; failed polls in between change nothing. */
  lemma PoliciesFireByPollHistory(cfg: Config, at: Time, events: seq<Event>, i: nat)
    requires ValidConfig(cfg) && RunOk(cfg, First(cfg, at), events) && i < |cfg.policies|
    requires RunFrom(cfg, First(cfg, at), events).poll.ToEvaluate?
    requires RunFrom(cfg, First(cfg, at), events).poll.maybe.Some?
    ensures var w := RunFrom(cfg, First(cfg, at), events);
            && w.s.episode.Some?
            && (cfg.policies[i].name in EvaluatePolicies(cfg, w.s, w.poll.maybe, w.poll.at).due
                <==> DueByPolls(cfg.policies[i], w.s.episode.value.fired, Polled(events), w.poll.at))
  {
    SeenIsPolled(cfg, at, events);
    PolicyFires(cfg, RunFrom(cfg, First(cfg, at), events), Polled(events), i);
  }

  // ----- Firing -----

  /** When the poller applies the due policies, exactly they become fired, after those
      fired before. */
  lemma DuePoliciesFire(cfg: Config, w: World, e: Event)
    requires ValidConfig(cfg) && Reachable(cfg, w) && Enabled(w, e) && e.PollApply? && w.poll.due != []
    ensures w.s.episode.Some? && Next(cfg, w, e).s.episode.Some?
    ensures Next(cfg, w, e).s.episode.value.fired == w.s.episode.value.fired + w.poll.due
    ensures forall name :: name in w.poll.due ==> name !in w.s.episode.value.fired
  {
    ReachableInv(cfg, w);
    DueFire(cfg, w, e);
  }

  lemma DueFire(cfg: Config, w: World, e: Event)
    requires PollInv(cfg, w.s, w.poll) && Enabled(w, e) && e.PollApply? && w.poll.due != []
    ensures w.s.episode.Some? && Next(cfg, w, e).s.episode.Some?
    ensures Next(cfg, w, e).s.episode.value.fired == w.s.episode.value.fired + w.poll.due
    ensures Next(cfg, w, e).s.episode.value.startedAt == w.s.episode.value.startedAt
    ensures Next(cfg, w, e).store == Take(w.store, Capture(Next(cfg, w, e).s))
  {
    UnfiredAll(w.s.episode.value.fired, w.poll.due);
  }

  /** A due policy is on its way, or has fired. */
  ghost predicate FiringOrFired(v: World, name: string) {
    || ((v.poll.ToVouch? || v.poll.ToApply?) && name in v.poll.due)
    || (v.poll.Idle? && v.s.episode.Some? && name in v.s.episode.value.fired)
  }

  lemma FiringStep(cfg: Config, v: World, e: Event, name: string)
    requires WorldInv(cfg, v) && Enabled(v, e) && FiringOrFired(v, name)
    requires !e.Restart? && !e.PollOk? && !e.PollFail?
    ensures FiringOrFired(Next(cfg, v, e), name)
  {
    if e.PollApply? {
      DueFire(cfg, v, e);
    } else if InMemory(e) {
      SectionGood(cfg, v, e);
      FiringSection(cfg, v, e, Section(cfg, v, e), name);
      NextIsAdvance(cfg, v, e);
    }
  }

  lemma FiringSection(cfg: Config, v: World, e: Event, o: Outcome, name: string)
    requires FiringOrFired(v, name) && Enabled(v, e) && InMemory(e) && SectionFrame(cfg, v, e, o.state)
    requires !e.PollApply? && !e.PollOk? && !e.PollFail?
    ensures FiringOrFired(Advance(cfg, v, e, o), name)
  {
  }

  lemma {:induction false} FiringRun(cfg: Config, w: World, events: seq<Event>, name: string)
    requires WorldInv(cfg, w) && FiringOrFired(w, name) && RunOk(cfg, w, events) && NoRestart(events) && SamePoll(events)
    ensures FiringOrFired(RunFrom(cfg, w, events), name)
  {
    if events != [] {
      var before := events[..|events| - 1];
      FiringRun(cfg, w, before, name);
      RunKeeps(cfg, w, before);
      FiringStep(cfg, RunFrom(cfg, w, before), events[|events| - 1], name);
    }
  }

  predicate SamePoll(events: seq<Event>) { forall e :: e in events ==> !e.PollOk? && !e.PollFail? }

  /** A policy that a poll finds due does fire: over every interleaving with the other
      goroutines, it has fired by the time the poller is idle again. */
  lemma DueIsFired(cfg: Config, w: World, events: seq<Event>, name: string)
    requires WorldInv(cfg, w) && w.poll.ToEvaluate? && name in EvaluatePolicies(cfg, w.s, w.poll.maybe, w.poll.at).due
    requires RunOk(cfg, Next(cfg, w, PollPolicies), events) && NoRestart(events) && SamePoll(events)
    requires RunFrom(cfg, Next(cfg, w, PollPolicies), events).poll.Idle?
    ensures var s := RunFrom(cfg, Next(cfg, w, PollPolicies), events).s;
            s.episode.Some? && name in s.episode.value.fired
  {
    StepKeeps(cfg, w, PollPolicies);
    FiringRun(cfg, Next(cfg, w, PollPolicies), events, name);
  }

  // ----- Every poll is evaluated -----

  /** The poller has not come to evaluating this poll; `maybe` is its reading, if it is to be
      evaluated with one. */
  predicate BeforeEvaluation(poll: Poll, maybe: Option<Reading>, at: Time) {
    || poll == ToEvaluate(maybe, at)
    || (maybe.Some? && (poll == Got(maybe.value, at) || poll == Adjusted(maybe.value, at)))
  }

  /** Somewhere in the run the policies are evaluated for this poll. */
  ghost predicate PassesEvaluation(cfg: Config, w: World, events: seq<Event>, maybe: Option<Reading>, at: Time) {
    exists n :: 0 <= n < |events| && Evaluates(RunFrom(cfg, w, events[..n]), events[n], maybe, at)
  }

  predicate Evaluates(v: World, e: Event, maybe: Option<Reading>, at: Time) {
    e.PollPolicies? && v.poll == ToEvaluate(maybe, at)
  }

  lemma EvaluationStep(cfg: Config, v: World, e: Event, maybe: Option<Reading>, at: Time)
    requires Enabled(v, e) && BeforeEvaluation(v.poll, maybe, at) && !e.Restart?
    requires maybe.Some? ==> maybe.value.onBattery
    ensures BeforeEvaluation(Next(cfg, v, e).poll, maybe, at) || Evaluates(v, e, maybe, at)
  {
    if InMemory(e) {
      NextIsAdvance(cfg, v, e);
    }
  }

  lemma {:induction false} EvaluationRun(cfg: Config, w: World, events: seq<Event>, maybe: Option<Reading>, at: Time)
    requires BeforeEvaluation(w.poll, maybe, at) && (maybe.Some? ==> maybe.value.onBattery)
    requires RunOk(cfg, w, events) && NoRestart(events)
    ensures BeforeEvaluation(RunFrom(cfg, w, events).poll, maybe, at) || PassesEvaluation(cfg, w, events, maybe, at)
  {
    if events != [] {
      var before := events[..|events| - 1];
      EvaluationRun(cfg, w, before, maybe, at);
      if BeforeEvaluation(RunFrom(cfg, w, before).poll, maybe, at) {
        EvaluationStep(cfg, RunFrom(cfg, w, before), events[|events| - 1], maybe, at);
        assert events[..|events| - 1] == before;
      } else {
        PassesLonger(cfg, w, events, maybe, at);
      }
    }
  }

  lemma PassesLonger(cfg: Config, w: World, events: seq<Event>, maybe: Option<Reading>, at: Time)
    requires events != [] && PassesEvaluation(cfg, w, events[..|events| - 1], maybe, at)
    ensures PassesEvaluation(cfg, w, events, maybe, at)
  {
    var before := events[..|events| - 1];
    var n :| 0 <= n < |before| && Evaluates(RunFrom(cfg, w, before[..n]), before[n], maybe, at);
    assert before[..n] == events[..n] && before[n] == events[n];
  }

  /** Every battery reading and every failed poll is evaluated: over every interleaving with the
      other goroutines, the poller is idle again only after it has. */
  lemma EveryPollIsEvaluated(cfg: Config, w: World, poll: Event, events: seq<Event>)
    requires Enabled(w, poll) && (poll.PollFail? || (poll.PollOk? && poll.reading.onBattery))
    requires RunOk(cfg, Next(cfg, w, poll), events) && NoRestart(events)
    requires RunFrom(cfg, Next(cfg, w, poll), events).poll.Idle?
    ensures PassesEvaluation(cfg, Next(cfg, w, poll), events, if poll.PollOk? then Some(poll.reading) else None, poll.at)
  {
    EvaluationRun(cfg, Next(cfg, w, poll), events, if poll.PollOk? then Some(poll.reading) else None, poll.at);
  }

  /** The policy is recorded as fired in the outage that began at `start`. */
  predicate FiredIn(episode: Option<Episode>, start: Time, name: string) {
    episode.Some? && episode.value.startedAt == start && name in episode.value.fired
  }

  function FiredSnapshot(start: Time, name: string): Snapshot -> bool {
    (snap: Snapshot) => FiredIn(snap.episode, start, name)
  }

  /** The firing is recorded in memory and in every snapshot from number `k` on. */
  ghost predicate FiredSince(w: World, start: Time, name: string, k: nat) {
    FiredIn(w.s.episode, start, name) && AllSince(w.store, FiredSnapshot(start, name), k)
  }

  /** The firing is recorded in memory, in the file, and in every snapshot that may still
      replace the file. */
  ghost predicate FiredForGood(w: World, start: Time, name: string) {
    FiredIn(w.s.episode, start, name) && LiveAll(w.store, FiredSnapshot(start, name))
  }

  predicate EndsOutage(w: World, e: Event) {
    || (e.PollEpisode? && w.poll.Got? && !w.poll.reading.onBattery)
    || (e.Restart? && e.fileLost)
  }

  ghost predicate OutageLasts(cfg: Config, w: World, events: seq<Event>) {
    forall n :: 0 <= n < |events| ==> !EndsOutage(RunFrom(cfg, w, events[..n]), events[n])
  }

  lemma OutageLasted(cfg: Config, w: World, events: seq<Event>)
    requires events != [] && OutageLasts(cfg, w, events)
    ensures OutageLasts(cfg, w, events[..|events| - 1])
    ensures !EndsOutage(RunFrom(cfg, w, events[..|events| - 1]), events[|events| - 1])
  {
    var before := events[..|events| - 1];
    forall n | 0 <= n < |before|
      ensures !EndsOutage(RunFrom(cfg, w, before[..n]), before[n])
    {
      assert before[..n] == events[..n];
    }
  }

  /** No poll takes the policy for due. */
  ghost predicate NotDue(cfg: Config, v: World, name: string) {
    && (v.poll.ToEvaluate? ==> name !in EvaluatePolicies(cfg, v.s, v.poll.maybe, v.poll.at).due)
    && (v.poll.ToVouch? || v.poll.ToApply? ==> name !in v.poll.due)
  }

  lemma FiredIsNotDue(cfg: Config, v: World, start: Time, name: string)
    requires WorldInv(cfg, v) && FiredIn(v.s.episode, start, name)
    ensures NotDue(cfg, v, name)
  {
    if v.poll.ToEvaluate? {
      EvaluationHandsOver(cfg, v);
    }
  }

  /** A firing is in memory at once, and in the snapshot it takes. */
  lemma FiringIsRecorded(cfg: Config, w: World, e: Event, name: string)
    requires WorldInv(cfg, w) && Enabled(w, e) && e.PollApply? && name in w.poll.due
    ensures w.s.episode.Some?
    ensures FiredSince(Next(cfg, w, e), w.s.episode.value.startedAt, name, |w.store.log| + 1)
  {
    DueFire(cfg, w, e);
  }

  lemma FiredInMemory(cfg: Config, w: World, e: Event, o: Outcome, start: Time, name: string)
    requires Enabled(w, e) && InMemory(e) && SectionFrame(cfg, w, e, o.state)
    requires FiredIn(w.s.episode, start, name) && !EndsOutage(w, e)
    ensures FiredIn(o.state.episode, start, name)
  {
  }

  lemma FiredNext(cfg: Config, w: World, e: Event, start: Time, name: string)
    requires WorldInv(cfg, w) && Enabled(w, e) && InMemory(e)
    requires FiredIn(w.s.episode, start, name) && !EndsOutage(w, e)
    ensures FiredIn(Next(cfg, w, e).s.episode, start, name)
  {
    SectionGood(cfg, w, e);
    FiredInMemory(cfg, w, e, Section(cfg, w, e), start, name);
    NextIsAdvance(cfg, w, e);
  }

  /** Nothing but line power and a crash takes a firing back. */
  lemma FiredSinceStep(cfg: Config, w: World, e: Event, start: Time, name: string, k: nat)
    requires WorldInv(cfg, w) && Enabled(w, e) && !e.Restart? && !EndsOutage(w, e) && FiredSince(w, start, name, k)
    ensures FiredSince(Next(cfg, w, e), start, name, k)
  {
    if InMemory(e) {
      FiredNext(cfg, w, e, start, name);
    }
    AllSinceStep(cfg, w, e, FiredSnapshot(start, name), k);
  }

  lemma FiredStep(cfg: Config, w: World, e: Event, start: Time, name: string)
    requires WorldInv(cfg, w) && Enabled(w, e) && FiredForGood(w, start, name) && !EndsOutage(w, e)
    ensures FiredForGood(Next(cfg, w, e), start, name)
  {
    if InMemory(e) {
      FiredNext(cfg, w, e, start, name);
      CaptureFired(Next(cfg, w, e).s, start, name);
    } else {
      FiredElsewhere(cfg, w, e, start, name);
    }
    LiveAllStep(cfg, w, e, FiredSnapshot(start, name));
  }

  lemma CaptureFired(s: State, start: Time, name: string)
    ensures FiredIn(s.episode, start, name) <==> FiredSnapshot(start, name)(Capture(s))
  {
  }

  lemma FiredElsewhere(cfg: Config, w: World, e: Event, start: Time, name: string)
    requires StoreInv(w.store) && FiredForGood(w, start, name) && Enabled(w, e) && !InMemory(e) && !EndsOutage(w, e)
    ensures FiredIn(Next(cfg, w, e).s.episode, start, name)
  {
    LiveAllOnDisk(w.store, FiredSnapshot(start, name));
  }

  /** Over every run of the process, and whatever is written or not: a policy that the
      poller made fire is not due again before line power. */
  lemma {:induction false} FiresOncePerProcess(cfg: Config, w: World, fire: Event, name: string, events: seq<Event>)
    requires WorldInv(cfg, w) && Enabled(w, fire) && fire.PollApply? && name in w.poll.due
    requires RunOk(cfg, Next(cfg, w, fire), events) && NoRestart(events)
    requires OutageLasts(cfg, Next(cfg, w, fire), events)
    ensures w.s.episode.Some?
    ensures var v := RunFrom(cfg, Next(cfg, w, fire), events);
            && WorldInv(cfg, v)
            && FiredSince(v, w.s.episode.value.startedAt, name, |w.store.log| + 1)
            && NotDue(cfg, v, name)
  {
    StepKeeps(cfg, w, fire);
    RunKeeps(cfg, Next(cfg, w, fire), events);
    FiringIsRecorded(cfg, w, fire, name);
    var start := w.s.episode.value.startedAt;
    if events != [] {
      var before := events[..|events| - 1];
      OutageLasted(cfg, Next(cfg, w, fire), events);
      FiresOncePerProcess(cfg, w, fire, name, before);
      FiredSinceStep(cfg, RunFrom(cfg, Next(cfg, w, fire), before), events[|events| - 1], start, name, |w.store.log| + 1);
    }
    FiredIsNotDue(cfg, RunFrom(cfg, Next(cfg, w, fire), events), start, name);
  }

  lemma {:induction false} FiredForGoodStays(cfg: Config, w: World, events: seq<Event>, start: Time, name: string)
    requires WorldInv(cfg, w) && FiredForGood(w, start, name)
    requires RunOk(cfg, w, events) && OutageLasts(cfg, w, events)
    ensures var v := RunFrom(cfg, w, events);
            WorldInv(cfg, v) && FiredForGood(v, start, name) && NotDue(cfg, v, name)
  {
    RunKeeps(cfg, w, events);
    if events != [] {
      var before := events[..|events| - 1];
      OutageLasted(cfg, w, events);
      FiredForGoodStays(cfg, w, before, start, name);
      FiredStep(cfg, RunFrom(cfg, w, before), events[|events| - 1], start, name);
    }
    FiredIsNotDue(cfg, RunFrom(cfg, w, events), start, name);
  }

  /** Each policy fires at most once per outage: once the snapshot of its firing, or a later
      one, has been written, it is never due again before line power returns, over resets,
      crashes and restarts. */
  lemma FiresOncePerOutage(cfg: Config, w: World, fire: Event, name: string, events: seq<Event>, later: seq<Event>)
    requires WorldInv(cfg, w) && Enabled(w, fire) && fire.PollApply? && name in w.poll.due
    requires RunOk(cfg, Next(cfg, w, fire), events) && NoRestart(events)
    requires OutageLasts(cfg, Next(cfg, w, fire), events)
    requires RunFrom(cfg, Next(cfg, w, fire), events).store.writtenSeq >= |w.store.log| + 1
    requires RunOk(cfg, RunFrom(cfg, Next(cfg, w, fire), events), later)
    requires OutageLasts(cfg, RunFrom(cfg, Next(cfg, w, fire), events), later)
    ensures var v := RunFrom(cfg, RunFrom(cfg, Next(cfg, w, fire), events), later);
            && w.s.episode.Some? && FiredForGood(v, w.s.episode.value.startedAt, name)
            && NotDue(cfg, v, name)
  {
    FiresOncePerProcess(cfg, w, fire, name, events);
    var written := RunFrom(cfg, Next(cfg, w, fire), events);
    var start := w.s.episode.value.startedAt;
    WrittenLiveAll(written.store, FiredSnapshot(start, name), |w.store.log| + 1);
    FiredForGoodStays(cfg, written, later, start, name);
  }

  lemma Forgettable(cfg: Config, w: World, events: seq<Event>, start: Time, name: string)
    requires RunOk(cfg, w, events) && OutageLasts(cfg, w, events)
    requires !FiredIn(RunFrom(cfg, w, events).s.episode, start, name)
    ensures !forall events :: RunOk(cfg, w, events) && OutageLasts(cfg, w, events) ==>
              FiredIn(RunFrom(cfg, w, events).s.episode, start, name)
  {
  }

  lemma RestoringKeepsOutage(cfg: Config, w: World, n: nat)
    ensures OutageLasts(cfg, w, RestoreEvents(w, n))
  {
    var events := RestoreEvents(w, n);
    assert forall k :: 0 <= k < |events| ==> events[k].DiskWrite? || (events[k].Restart? && !events[k].fileLost);
  }

  /** A firing that some live snapshot lacks can be forgotten within the outage. */
  lemma Forgetting(cfg: Config, w: World, start: Time, name: string) returns (events: seq<Event>)
    requires StoreInv(w.store) && !FiredForGood(w, start, name)
    ensures RunOk(cfg, w, events) && OutageLasts(cfg, w, events)
    ensures !FiredIn(RunFrom(cfg, w, events).s.episode, start, name)
  {
    if FiredIn(w.s.episode, start, name) {
      var n := Restoring(cfg, w, FiredSnapshot(start, name));
      events := RestoreEvents(w, n);
      RestoringKeepsOutage(cfg, w, n);
    } else {
      events := [];
    }
  }

  /** The condition is exact: a firing is remembered in every state of every later run of
      the outage, crashes included, if and only if every live snapshot has it now. */
  lemma FiredForGoodIsExact(cfg: Config, w: World, start: Time, name: string)
    requires WorldInv(cfg, w)
    ensures FiredForGood(w, start, name) <==>
            forall events :: RunOk(cfg, w, events) && OutageLasts(cfg, w, events) ==>
              FiredIn(RunFrom(cfg, w, events).s.episode, start, name)
  {
    if FiredForGood(w, start, name) {
      forall events | RunOk(cfg, w, events) && OutageLasts(cfg, w, events)
        ensures FiredIn(RunFrom(cfg, w, events).s.episode, start, name)
      {
        FiredForGoodStays(cfg, w, events, start, name);
      }
    } else {
      var events := Forgetting(cfg, w, start, name);
      Forgettable(cfg, w, events, start, name);
    }
  }
}
