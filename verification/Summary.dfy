/** The per-command summary that /status reports. */
module Summary {
  import opened Types
  import opened MasterState
  import opened Sets

  datatype CommandSummary = CommandSummary(
    targeted: nat, acknowledged: nat, outstanding: nat,
    executing: nat, executed: nat, simulated: nat, failed: nat, timeout: nat,
    complete: bool)

  /** The counters of a summary; accepted reports have none of their own. */
  datatype Counter = Acknowledged | Outstanding | Reported(status: Status)

  function Cell(s: CommandSummary, counter: Counter): nat {
    match counter
    case Acknowledged => s.acknowledged
    case Outstanding => s.outstanding
    case Reported(status) =>
      match status
      case Executing => s.executing
      case Executed => s.executed
      case Simulated => s.simulated
      case Failed => s.failed
      case Timeout => s.timeout
      case _ => 0
  }

  /** Whether a node is one the counter stands for. */
  predicate CountsFor(c: Command, node: NodeId, counter: Counter) {
    match counter
    case Acknowledged => node in c.updates
    case Outstanding => node !in c.updates
    case Reported(status) => status != Accepted && !status.Other? && HasStatus(c, node, status)
  }

  function Members(c: Command, nodes: set<NodeId>, counter: Counter): set<NodeId> {
    set node | node in nodes && CountsFor(c, node, counter)
  }

  /** Every counter is the number of target nodes it stands for. */
  ghost predicate Counts(c: Command, s: CommandSummary) {
    forall counter :: Cell(s, counter) == |Members(c, c.tracked.Keys, counter)|
  }

  /** One round of the counting loop. */
  method CountNode(c: Command, s: CommandSummary, node: NodeId) returns (t: CommandSummary)
    ensures t == OneMore(c, s, node)
  {
    t := s;
    if node !in c.updates {
      t := t.(outstanding := t.outstanding + 1);
      return;
    }
    t := t.(acknowledged := t.acknowledged + 1);
    match c.updates[node].status {
      case Executing => t := t.(executing := t.executing + 1);
      case Executed => t := t.(executed := t.executed + 1);
      case Simulated => t := t.(simulated := t.simulated + 1);
      case Failed => t := t.(failed := t.failed + 1);
      case Timeout => t := t.(timeout := t.timeout + 1);
      case _ =>
    }
  }

  function OneMore(c: Command, s: CommandSummary, node: NodeId): CommandSummary {
    if node !in c.updates then s.(outstanding := s.outstanding + 1)
    else
      var t := s.(acknowledged := s.acknowledged + 1);
      match c.updates[node].status
      case Executing => t.(executing := t.executing + 1)
      case Executed => t.(executed := t.executed + 1)
      case Simulated => t.(simulated := t.simulated + 1)
      case Failed => t.(failed := t.failed + 1)
      case Timeout => t.(timeout := t.timeout + 1)
      case _ => t
  }

  /** The counters after taking the nodes of `order` one by one. */
  function Tally(c: Command, zero: CommandSummary, order: seq<NodeId>): CommandSummary {
    if order == [] then zero else OneMore(c, Tally(c, zero, order[..|order| - 1]), order[|order| - 1])
  }

  ghost predicate Enumerates(order: seq<NodeId>, nodes: set<NodeId>) {
    && (forall i, j :: 0 <= i < j < |order| ==> order[i] != order[j])
    && (forall node :: node in order <==> node in nodes)
  }

  lemma EnumeratesPrefix(order: seq<NodeId>, nodes: set<NodeId>)
    requires Enumerates(order, nodes) && order != []
    ensures var last := order[|order| - 1];
            Enumerates(order[..|order| - 1], nodes - {last}) && (nodes - {last}) + {last} == nodes
  {
    assert order == order[..|order| - 1] + [order[|order| - 1]];
  }

  lemma OneMoreInCell(c: Command, s: CommandSummary, node: NodeId, counter: Counter)
    ensures Cell(OneMore(c, s, node), counter) == Cell(s, counter) + if CountsFor(c, node, counter) then 1 else 0
  {
  }

  lemma OneMoreCounts(c: Command, s: CommandSummary, nodes: set<NodeId>, node: NodeId, counter: Counter)
    requires node !in nodes && Cell(s, counter) == |Members(c, nodes, counter)|
    ensures Cell(OneMore(c, s, node), counter) == |Members(c, nodes + {node}, counter)|
  {
    OneMoreInCell(c, s, node, counter);
    if CountsFor(c, node, counter) {
      assert Members(c, nodes + {node}, counter) == Members(c, nodes, counter) + {node};
    } else {
      assert Members(c, nodes + {node}, counter) == Members(c, nodes, counter);
    }
  }

  const ZERO := CommandSummary(0, 0, 0, 0, 0, 0, 0, 0, false)

  /** Whatever the order, the tally counts the nodes taken. */
  lemma {:induction false} TallyCounts(c: Command, order: seq<NodeId>, nodes: set<NodeId>, counter: Counter)
    requires Enumerates(order, nodes)
    ensures Cell(Tally(c, ZERO, order), counter) == |Members(c, nodes, counter)|
  {
    if order == [] {
      assert nodes == {} && Members(c, nodes, counter) == {};
    } else {
      EnumeratesPrefix(order, nodes);
      var last := order[|order| - 1];
      TallyCounts(c, order[..|order| - 1], nodes - {last}, counter);
      OneMoreCounts(c, Tally(c, ZERO, order[..|order| - 1]), nodes - {last}, last, counter);
    }
  }

  method CountTargets(c: Command) returns (s: CommandSummary, ghost order: seq<NodeId>)
    ensures Enumerates(order, c.tracked.Keys) && s == Tally(c, ZERO, order)
  {
    s, order := ZERO, [];
    var pending := c.tracked.Keys;
    while pending != {}
      invariant pending <= c.tracked.Keys && Enumerates(order, c.tracked.Keys - pending)
      invariant s == Tally(c, ZERO, order)
      decreases pending
    {
      var node :| node in pending;
      s := CountNode(c, s, node);
      assert (order + [node])[..|order|] == order;
      order := order + [node];
      pending := pending - {node};
    }
  }

  /** Counting over the target nodes. */
  method SummarizeCommand(c: Command) returns (s: CommandSummary)
    ensures s.targeted == |c.tracked|
    ensures Counts(c, s)
    ensures s.complete == CommandComplete(c)
  {
    ghost var order;
    s, order := CountTargets(c);
    forall counter ensures Cell(s, counter) == |Members(c, c.tracked.Keys, counter)| {
      TallyCounts(c, order, c.tracked.Keys, counter);
    }
    var t := s.(targeted := |c.tracked|, complete := CommandComplete(c));
    forall counter ensures Cell(t, counter) == Cell(s, counter) { }
    s := t;
  }

  function With(c: Command, status: Status): set<NodeId> { Members(c, c.tracked.Keys, Reported(status)) }

  /** The target nodes that count towards completion. */
  function Settled(c: Command): set<NodeId> {
    ((With(c, Executed) + With(c, Simulated)) + With(c, Failed)) + With(c, Timeout)
  }

  lemma SettledSize(c: Command)
    ensures |Settled(c)| == |With(c, Executed)| + |With(c, Simulated)| + |With(c, Failed)| + |With(c, Timeout)|
  {
    DisjointSize(With(c, Executed), With(c, Simulated));
    DisjointSize(With(c, Executed) + With(c, Simulated), With(c, Failed));
    DisjointSize((With(c, Executed) + With(c, Simulated)) + With(c, Failed), With(c, Timeout));
  }

  lemma CompleteIsSettled(c: Command)
    ensures CommandComplete(c) <==> c.tracked.Keys != {} && Settled(c) == c.tracked.Keys
  {
    forall node | node in c.tracked
      ensures node in Settled(c) <==> node in c.updates && Classify(c.updates[node].status).complete
    {
    }
  }

  lemma SettledOrRunning(c: Command)
    ensures |Settled(c)| + |With(c, Executing)| <= |Members(c, c.tracked.Keys, Acknowledged)|
  {
    var settled, running := Settled(c), With(c, Executing);
    forall node | node in settled + running
      ensures node in Members(c, c.tracked.Keys, Acknowledged) && !(node in settled && node in running)
    {
      SettledNode(c, node);
    }
    DisjointSize(settled, running);
    SubsetSize(settled + running, Members(c, c.tracked.Keys, Acknowledged));
  }

  lemma SettledNode(c: Command, node: NodeId)
    ensures node in Settled(c) ==> node in c.tracked && node in c.updates && Classify(c.updates[node].status).complete
    ensures node in With(c, Executing) ==> node in c.tracked && HasStatus(c, node, Executing)
  {
  }

  lemma AcknowledgedOrOutstanding(c: Command)
    ensures |Members(c, c.tracked.Keys, Acknowledged)| + |Members(c, c.tracked.Keys, Outstanding)| == |c.tracked.Keys|
  {
    DisjointSize(Members(c, c.tracked.Keys, Acknowledged), Members(c, c.tracked.Keys, Outstanding));
    assert Members(c, c.tracked.Keys, Acknowledged) + Members(c, c.tracked.Keys, Outstanding) == c.tracked.Keys;
  }

  /** The summary conserves the targets, and calls a command complete exactly when it has
      targets and every one of them is counted as executed, simulated, failed or timed
      out. */
  lemma SummaryConserves(c: Command, s: CommandSummary)
    requires s.targeted == |c.tracked| && Counts(c, s)
    ensures s.targeted == s.acknowledged + s.outstanding
    ensures s.executing + s.executed + s.simulated + s.failed + s.timeout <= s.acknowledged
    ensures CommandComplete(c) <==> s.targeted > 0 && s.executed + s.simulated + s.failed + s.timeout == s.targeted
  {
    assert |c.tracked| == |c.tracked.Keys|;
    CountsByName(c, s);
    AcknowledgedOrOutstanding(c);
    SettledSize(c);
    SettledOrRunning(c);
    CompleteIsSettled(c);
    assert Settled(c) <= c.tracked.Keys;
    SubsetSize(Settled(c), c.tracked.Keys);
  }

  lemma CountsByName(c: Command, s: CommandSummary)
    requires Counts(c, s)
    ensures s.acknowledged == |Members(c, c.tracked.Keys, Acknowledged)|
    ensures s.outstanding == |Members(c, c.tracked.Keys, Outstanding)|
    ensures s.executing == |Members(c, c.tracked.Keys, Reported(Executing))|
    ensures s.executed == |Members(c, c.tracked.Keys, Reported(Executed))|
    ensures s.simulated == |Members(c, c.tracked.Keys, Reported(Simulated))|
    ensures s.failed == |Members(c, c.tracked.Keys, Reported(Failed))|
    ensures s.timeout == |Members(c, c.tracked.Keys, Reported(Timeout))|
  {
    assert Cell(s, Acknowledged) == s.acknowledged && Cell(s, Outstanding) == s.outstanding;
    assert Cell(s, Reported(Executed)) == s.executed && Cell(s, Reported(Simulated)) == s.simulated;
    assert Cell(s, Reported(Failed)) == s.failed && Cell(s, Reported(Timeout)) == s.timeout;
    assert Cell(s, Reported(Executing)) == s.executing;
  }
}
