/** The debounce of reading-based policies: the `matchSince` timers against the
    history of readings they summarise. */
module Debounce {
  import opened Types
  import opened Policy
  import opened MasterState
  import opened MasterInvariant

  /** `k` starts the maximal run of matching readings that ends with the last one. */
  ghost predicate StartsRun(seen: seq<Observation>, p: PolicySpec, k: int) {
    && 0 <= k < |seen|
    && (forall i :: k <= i < |seen| ==> PolicyMatches(seen[i].reading, p))
    && (k > 0 ==> !PolicyMatches(seen[k - 1].reading, p))
  }

  /** The timer of a policy: set exactly while the last reading matches, to the time
      of the reading that starts the run. */
  ghost predicate TimerOk(e: Episode, p: PolicySpec) {
    && (p.name in e.matchSince <==> e.seen != [] && PolicyMatches(e.seen[|e.seen| - 1].reading, p))
    && (p.name in e.matchSince ==>
          exists k :: StartsRun(e.seen, p, k) && e.matchSince[p.name] == e.seen[k].at)
  }

  ghost predicate DebounceInv(cfg: Config, e: Episode) {
    forall i :: 0 <= i < |cfg.policies| ==>
                  cfg.policies[i].unreachableFor <= 0 && cfg.policies[i].name !in e.fired ==> TimerOk(e, cfg.policies[i])
  }

  /** A policy's row in the scan depends on that policy alone: before its turn nothing
      is recorded for it, after its turn nothing changes. */
  lemma {:induction false} ScanRow(policies: seq<PolicySpec>, n: nat, i: nat, e: Episode, reading: Option<Reading>,
                                   silentFor: int, now: Time)
    requires UniqueNames(policies) && i < |policies| && n <= |policies|
    ensures var scan := ScanPolicies(policies, n, e, reading, silentFor, now);
            var alone := ScanPolicy(policies[i], e.fired, reading, silentFor, now, Scan(e.matchSince, [], false));
            var name := policies[i].name;
            if n <= i then
              && name !in scan.due
              && (name in scan.matchSince <==> name in e.matchSince)
              && (name in e.matchSince ==> scan.matchSince[name] == e.matchSince[name])
            else
              && (name in scan.due <==> name in alone.due)
              && (name in scan.matchSince <==> name in alone.matchSince)
              && (name in alone.matchSince ==> scan.matchSince[name] == alone.matchSince[name])
  {
    if n > 0 {
      ScanRow(policies, n - 1, i, e, reading, silentFor, now);
      if n - 1 != i {
        assert policies[n - 1].name != policies[i].name;
      }
    }
  }

  /** The due policies are configured ones, distinct, and none has fired yet; an
      unreachable policy is due only on a failed poll. */
  lemma {:induction false} DueIsFresh(policies: seq<PolicySpec>, n: nat, e: Episode, reading: Option<Reading>,
                                      silentFor: int, now: Time)
    requires UniqueNames(policies) && n <= |policies|
    ensures var due := ScanPolicies(policies, n, e, reading, silentFor, now).due;
            && NoDuplicates(due)
            && forall name :: name in due ==> name !in e.fired && exists i :: 0 <= i < n && policies[i].name == name
  {
    if n > 0 {
      DueIsFresh(policies, n - 1, e, reading, silentFor, now);
      var before := ScanPolicies(policies, n - 1, e, reading, silentFor, now).due;
      assert policies[n - 1].name !in before;
    }
  }

  /** A failed poll with due policies had one of them vouch for the episode. */
  lemma {:induction false} DueWithoutReadingVouches(policies: seq<PolicySpec>, n: nat, e: Episode, silentFor: int,
                                                    now: Time)
    requires n <= |policies|
    ensures var scan := ScanPolicies(policies, n, e, None, silentFor, now);
            && (scan.due != [] ==> scan.vouched)
            && (scan.vouched <==> exists i :: 0 <= i < n && 0 < policies[i].unreachableFor <= silentFor)
            && scan.matchSince == e.matchSince
  {
    if n > 0 {
      DueWithoutReadingVouches(policies, n - 1, e, silentFor, now);
      assert policies[n - 1].unreachableFor <= silentFor || policies[n - 1].unreachableFor > silentFor;
    }
  }

  /** A poll with a reading never vouches. */
  lemma {:induction false} ReadingNeverVouches(policies: seq<PolicySpec>, n: nat, e: Episode, reading: Reading,
                                               now: Time)
    requires n <= |policies|
    ensures !ScanPolicies(policies, n, e, Some(reading), 0, now).vouched
  {
    if n > 0 {
      ReadingNeverVouches(policies, n - 1, e, reading, now);
    }
  }

  /** One more reading moves the run: it is dropped, started or extended. */
  lemma RunExtends(seen: seq<Observation>, o: Observation, p: PolicySpec, k: int)
    requires PolicyMatches(o.reading, p)
    ensures StartsRun(seen, p, k) ==> StartsRun(seen + [o], p, k)
    ensures (seen == [] || !PolicyMatches(seen[|seen| - 1].reading, p)) ==> StartsRun(seen + [o], p, |seen|)
  {
    if StartsRun(seen, p, k) {
      assert forall i :: k <= i < |seen| ==> (seen + [o])[i] == seen[i];
    }
  }

  /** Whether policy `i` is due at a poll with a reading, in terms of the readings only:
      it has not fired, and the maximal run of matching readings that ends with this
      one began at least `duration` ago. */
  ghost predicate DueByHistory(p: PolicySpec, e: Episode, reading: Reading, now: Time) {
    && p.unreachableFor <= 0
    && p.name !in e.fired
    && exists k :: StartsRun(e.seen + [Observation(reading, now)], p, k)
                   && now - (e.seen + [Observation(reading, now)])[k].at >= p.duration
  }

  lemma PolicyDue(cfg: Config, e: Episode, i: nat, reading: Reading, now: Time)
    requires UniqueNames(cfg.policies) && DebounceInv(cfg, e) && i < |cfg.policies|
    ensures var p := cfg.policies[i];
            var scan := ScanPolicies(cfg.policies, |cfg.policies|, e, Some(reading), 0, now);
            && (p.name in scan.due <==> DueByHistory(p, e, reading, now))
            && (p.unreachableFor <= 0 && p.name !in e.fired ==>
                  TimerOk(e.(matchSince := scan.matchSince, seen := e.seen + [Observation(reading, now)]), p))
  {
    var p := cfg.policies[i];
    ScanRow(cfg.policies, |cfg.policies|, i, e, Some(reading), 0, now);
    var o := Observation(reading, now);
    var seen := e.seen + [o];
    if p.unreachableFor <= 0 && p.name !in e.fired {
      assert TimerOk(e, p);
      if PolicyMatches(reading, p) {
        var start: int;
        if p.name in e.matchSince {
          start :| StartsRun(e.seen, p, start) && e.matchSince[p.name] == e.seen[start].at;
        } else {
          start := |e.seen|;
        }
        RunExtends(e.seen, o, p, start);
        assert StartsRun(seen, p, start);
        forall k | StartsRun(seen, p, k) ensures k == start { }
      } else {
        assert seen[|seen| - 1] == o;
      }
    }
  }

  /** The timers refine the history: over every episode, whatever the readings so far,
      a reading-based policy fires at a poll exactly when the history says so, an
      unreachable policy never fires at a reading, and the timers keep summarising the
      history. */
  lemma TimersRefineHistory(cfg: Config, s: State, reading: Reading, now: Time)
    requires UniqueNames(cfg.policies) && s.episode.Some? && DebounceInv(cfg, s.episode.value)
    ensures var v := EvaluatePolicies(cfg, s, Some(reading), now);
            && v.state.episode.Some?
            && v.state.episode.value.seen == s.episode.value.seen + [Observation(reading, now)]
            && DebounceInv(cfg, v.state.episode.value)
            && !v.vouched
            && forall i :: 0 <= i < |cfg.policies| ==>
                 (cfg.policies[i].name in v.due <==> DueByHistory(cfg.policies[i], s.episode.value, reading, now))
  {
    var e := s.episode.value;
    ReadingNeverVouches(cfg.policies, |cfg.policies|, e, reading, now);
    forall i | 0 <= i < |cfg.policies|
      ensures var p := cfg.policies[i];
              var scan := ScanPolicies(cfg.policies, |cfg.policies|, e, Some(reading), 0, now);
              && (p.name in scan.due <==> DueByHistory(p, e, reading, now))
              && (p.unreachableFor <= 0 && p.name !in e.fired ==>
                    TimerOk(e.(matchSince := scan.matchSince, seen := e.seen + [Observation(reading, now)]), p))
    {
      PolicyDue(cfg, e, i, reading, now);
    }
  }

  /** A failed poll leaves the timers alone; it makes exactly the unreachable policies
      due whose silence is reached and which have not fired, and only when the master is
      not waiting for a reading after powering itself off. */
  lemma DueOnFailedPoll(cfg: Config, s: State, now: Time)
    requires UniqueNames(cfg.policies)
    ensures var v := EvaluatePolicies(cfg, s, None, now);
            var silent := SilentFor(s, now);
            && v.state == s
            && (v.due != [] ==> v.vouched)
            && (v.vouched <==> s.episode.Some? && silent.Some? && !AwaitingReadingAfterPowerOff(s)
                               && exists i :: 0 <= i < |cfg.policies|
                                              && 0 < cfg.policies[i].unreachableFor <= silent.value)
            && forall i :: 0 <= i < |cfg.policies| ==>
                 (cfg.policies[i].name in v.due <==>
                    && s.episode.Some? && silent.Some? && !AwaitingReadingAfterPowerOff(s)
                    && cfg.policies[i].name !in s.episode.value.fired
                    && 0 < cfg.policies[i].unreachableFor <= silent.value)
  {
    var silent := SilentFor(s, now);
    if silent.Some? && s.episode.Some? && !AwaitingReadingAfterPowerOff(s) {
      var e := s.episode.value;
      DueWithoutReadingVouches(cfg.policies, |cfg.policies|, e, silent.value, now);
      assert EvaluatePolicies(cfg, s, None, now).state == s;
      forall i | 0 <= i < |cfg.policies|
        ensures var p := cfg.policies[i];
                p.name in ScanPolicies(cfg.policies, |cfg.policies|, e, None, silent.value, now).due <==>
                p.name !in e.fired && 0 < p.unreachableFor <= silent.value
      {
        ScanRow(cfg.policies, |cfg.policies|, i, e, None, silent.value, now);
      }
    }
  }
}
