/** Shutdown policies: when a reading satisfies one, and which nodes a set of
    fired policies addresses together. */
module Policy {
  import opened Types

  /** One UPS reading. Values the UPS does not report are None. */
  datatype Reading = Reading(onBattery: bool, lowBattery: bool, charge: Option<int>, runtime: Option<int>)

  /** `unreachableFor` and `duration` are durations in nanoseconds; a zero or
      negative condition is an absent one. */
  datatype PolicySpec = PolicySpec(
    name: string,
    chargeBelow: int,
    runtimeBelow: int,
    lowBattery: bool,
    unreachableFor: int,
    duration: int,
    target: Target)

  predicate PolicyMatches(reading: Reading, p: PolicySpec) {
    && p.unreachableFor <= 0
    && (p.chargeBelow > 0 ==> reading.charge.Some? && reading.charge.value <= p.chargeBelow)
    && (p.runtimeBelow > 0 ==> reading.runtime.Some? && reading.runtime.value <= p.runtimeBelow)
    && (p.lowBattery ==> reading.lowBattery)
  }

  /** What a policy may ask of a reading. */
  datatype Condition = ChargeAtMost(percent: int) | RuntimeAtMost(minutes: int) | BatteryLow

  function Conditions(p: PolicySpec): set<Condition> {
    (if p.chargeBelow > 0 then {ChargeAtMost(p.chargeBelow)} else {})
    + (if p.runtimeBelow > 0 then {RuntimeAtMost(p.runtimeBelow)} else {})
    + (if p.lowBattery then {BatteryLow} else {})
  }

  /** A condition on a value that the UPS does not report never holds. */
  predicate Holds(reading: Reading, c: Condition) {
    match c
    case ChargeAtMost(percent) => reading.charge.Some? && reading.charge.value <= percent
    case RuntimeAtMost(minutes) => reading.runtime.Some? && reading.runtime.value <= minutes
    case BatteryLow => reading.lowBattery
  }

  /** A reading satisfies a policy exactly when the policy is about readings and every
      condition it asks for holds. */
  lemma MatchesIsConditions(reading: Reading, p: PolicySpec)
    ensures PolicyMatches(reading, p) <==> p.unreachableFor <= 0 && forall c :: c in Conditions(p) ==> Holds(reading, c)
  {
    assert p.chargeBelow > 0 ==> ChargeAtMost(p.chargeBelow) in Conditions(p);
    assert p.runtimeBelow > 0 ==> RuntimeAtMost(p.runtimeBelow) in Conditions(p);
    assert p.lowBattery ==> BatteryLow in Conditions(p);
  }

  predicate UniqueNames(policies: seq<PolicySpec>) {
    forall i, j :: 0 <= i < j < |policies| ==> policies[i].name != policies[j].name
  }

  /** The three accumulators that building a match fills, over the first `n` policies. */
  datatype Gathered = Gathered(all: bool, tags: set<Tag>, nodeIds: set<NodeId>)

  function Gather(policies: seq<PolicySpec>, names: seq<string>, n: nat): Gathered
    requires n <= |policies|
  {
    if n == 0 then Gathered(false, {}, {})
    else
      var before := Gather(policies, names, n - 1);
      var p := policies[n - 1];
      if p.name !in names then before
      else Gathered(before.all || p.target.all, before.tags + p.target.tags, before.nodeIds + p.target.nodeIds)
  }

  /** The target that covers every policy named in `names`. */
  function TargetOf(policies: seq<PolicySpec>, names: seq<string>): Target {
    var g := Gather(policies, names, |policies|);
    if g.all then ALL_NODES else Target(false, g.nodeIds, g.tags)
  }

  /** Combines the targets of the named policies, in configuration order. */
  method BuildPolicyMatch(policies: seq<PolicySpec>, names: seq<string>) returns (target: Target)
    ensures target == TargetOf(policies, names)
  {
    var all, tagSet, nodeSet := false, {}, {};
    for i := 0 to |policies|
      invariant Gathered(all, tagSet, nodeSet) == Gather(policies, names, i)
    {
      var p := policies[i];
      if p.name in names {
        if p.target.all {
          all := true;
        }
        tagSet := tagSet + p.target.tags;
        nodeSet := nodeSet + p.target.nodeIds;
      }
    }
    target := if all then ALL_NODES else Target(false, nodeSet, tagSet);
  }

  ghost predicate NamedAmong(policies: seq<PolicySpec>, names: seq<string>, n: nat, i: int) {
    0 <= i < n <= |policies| && policies[i].name in names
  }

  lemma {:induction false} GatherMeaning(policies: seq<PolicySpec>, names: seq<string>, n: nat)
    requires n <= |policies|
    ensures Gather(policies, names, n).all
            <==> exists i :: NamedAmong(policies, names, n, i) && policies[i].target.all
    ensures forall node ::
              node in Gather(policies, names, n).nodeIds <==>
              exists i :: NamedAmong(policies, names, n, i) && node in policies[i].target.nodeIds
    ensures forall tag ::
              tag in Gather(policies, names, n).tags <==>
              exists i :: NamedAmong(policies, names, n, i) && tag in policies[i].target.tags
  {
    if n > 0 {
      GatherMeaning(policies, names, n - 1);
      forall i ensures NamedAmong(policies, names, n, i)
                       <==> NamedAmong(policies, names, n - 1, i) || (i == n - 1 && policies[i].name in names) {
      }
    }
  }

  /** A node is addressed by the combined target exactly when one of the named
      policies addresses it. */
  lemma TargetMatchesSomePolicy(policies: seq<PolicySpec>, names: seq<string>, node: NodeId, tags: set<Tag>)
    ensures Matches(TargetOf(policies, names), node, tags)
            <==> exists i :: NamedAmong(policies, names, |policies|, i) && Matches(policies[i].target, node, tags)
  {
    GatherMeaning(policies, names, |policies|);
    var target := TargetOf(policies, names);
    if Matches(target, node, tags) {
      if target.all {
        var i :| NamedAmong(policies, names, |policies|, i) && policies[i].target.all;
        assert Matches(policies[i].target, node, tags);
      } else if node in target.nodeIds {
        var i :| NamedAmong(policies, names, |policies|, i) && node in policies[i].target.nodeIds;
        assert Matches(policies[i].target, node, tags);
      } else {
        var tag :| tag in tags && tag in target.tags;
        var i :| NamedAmong(policies, names, |policies|, i) && tag in policies[i].target.tags;
        assert Matches(policies[i].target, node, tags);
      }
    }
    if i :| NamedAmong(policies, names, |policies|, i) && Matches(policies[i].target, node, tags) {
      if !policies[i].target.all && node !in policies[i].target.nodeIds {
        var tag :| tag in tags && tag in policies[i].target.tags;
        assert target.all || tag in target.tags;
      }
    }
  }

  lemma {:induction false} GatherConcat(policies: seq<PolicySpec>, a: seq<string>, b: seq<string>, n: nat)
    requires n <= |policies|
    ensures var x, y := Gather(policies, a, n), Gather(policies, b, n);
            Gather(policies, a + b, n) == Gathered(x.all || y.all, x.tags + y.tags, x.nodeIds + y.nodeIds)
  {
    if n > 0 {
      GatherConcat(policies, a, b, n - 1);
    }
  }

  /** Widening a command by a later match leaves the target that firing both
      matches at once would have given. */
  lemma MergeIsConcat(policies: seq<PolicySpec>, a: seq<string>, b: seq<string>)
    ensures MergeTargets(TargetOf(policies, a), TargetOf(policies, b)) == TargetOf(policies, a + b)
  {
    GatherConcat(policies, a, b, |policies|);
  }
}
