/** The vocabulary shared by every component: options, the shutdown statuses and
    how the master classifies them, and shutdown targets. */
module Types {

  datatype Option<+T> = None | Some(value: T)

  type NodeId = string
  type Tag = string
  /** "" stands for "no command", as in the Go source. */
  type CommandId = string
  type Token = string
  /** Numbers a slave's connections to the master. */
  type Session = nat
  /** Nanoseconds on the clock that the caller passes in. */
  type Time = int

  /** A status string as it travels in a shutdown_ack. `Other` is any text
      outside the protocol's table. */
  datatype Status =
    | Accepted | Executing | Executed | Simulated | Failed | Timeout
    | Other(text: string)

  datatype StatusClass = StatusClass(complete: bool, final: bool, replayDone: bool, reportable: bool)

  /** The classification table; a missing row is all false. */
  function Classify(status: Status): StatusClass {
    match status
    case Accepted => StatusClass(false, false, false, true)
    case Executing => StatusClass(false, false, false, true)
    case Executed => StatusClass(true, true, true, true)
    case Simulated => StatusClass(true, true, true, true)
    case Failed => StatusClass(true, true, false, true)
    case Timeout => StatusClass(true, false, false, false)
    case Other(_) => StatusClass(false, false, false, false)
  }

  datatype Ack = Ack(status: Status, ackedAt: Time)

  /** Which nodes a command addresses. Node ids and tags are kept as sets: the
      source keeps sorted, duplicate-free slices and only ever tests membership. */
  datatype Target = Target(all: bool, nodeIds: set<NodeId>, tags: set<Tag>)

  const ALL_NODES := Target(true, {}, {})

  predicate Matches(target: Target, node: NodeId, tags: set<Tag>) {
    target.all || node in target.nodeIds || exists tag :: tag in tags && tag in target.tags
  }

  function MergeTargets(a: Target, b: Target): Target {
    if a.all || b.all then ALL_NODES else Target(false, a.nodeIds + b.nodeIds, a.tags + b.tags)
  }

  /** `wide` addresses at least what `narrow` does, whatever the node and its tags. */
  predicate Covers(wide: Target, narrow: Target) {
    wide.all || (!narrow.all && narrow.nodeIds <= wide.nodeIds && narrow.tags <= wide.tags)
  }

  /** Merging two targets addresses exactly the nodes either one addresses. */
  lemma MergeMatchesEither(a: Target, b: Target, node: NodeId, tags: set<Tag>)
    ensures Matches(MergeTargets(a, b), node, tags) <==> Matches(a, node, tags) || Matches(b, node, tags)
  {
    if !a.all && !b.all {
      assert MergeTargets(a, b).tags == a.tags + b.tags;
      if Matches(a, node, tags) && node !in a.nodeIds {
        var tag :| tag in tags && tag in a.tags;
        assert tag in MergeTargets(a, b).tags;
      }
      if Matches(b, node, tags) && node !in b.nodeIds {
        var tag :| tag in tags && tag in b.tags;
        assert tag in MergeTargets(a, b).tags;
      }
    }
  }

}
