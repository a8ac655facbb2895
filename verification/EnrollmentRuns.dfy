/** What enrolment and token changes guarantee over every run. */
module EnrollmentRuns {
  import opened Types
  import opened Persist
  import opened Enrollment

  ghost predicate Reaches(cfg: EnrollConfig, o: Office, events: seq<Event>, t: Office)
    decreases |events|
  {
    if events == [] then t == o
    else Enabled(o, events[0]) && Reaches(cfg, Step(cfg, o, events[0]), events[1..], t)
  }

  ghost predicate Reachable(cfg: EnrollConfig, o: Office) {
    exists events :: Reaches(cfg, FIRST_OFFICE, events, o)
  }

  // ----- The token table as a history -----

  /** The token of a node after the changes so far, from the changes alone. */
  function Current(changes: seq<Change>, node: NodeId): Option<Hash> {
    if changes == [] then None
    else
      var before := changes[..|changes| - 1];
      match changes[|changes| - 1]
      case Rotated(n, token) => if n == node then Some(Hash(token)) else Current(before, node)
      case Confirmed(n, token) => if n == node then Some(Hash(token)) else Current(before, node)
      case Revoked(n) => if n == node then None else Current(before, node)
      case Reloaded(tokens) => TokenOf(tokens, node)
  }

  /** The table is what its changes made of it. */
  ghost predicate TableInv(o: Office) {
    forall node :: TokenOf(o.desk.tokens, node) == Current(o.changes, node)
  }

  /** A confirmation only ever gave a token to a node that had none. */
  ghost predicate ConfirmInv(o: Office) {
    forall j :: 0 <= j < |o.changes| && o.changes[j].Confirmed? ==>
      Current(o.changes[..j], o.changes[j].node) == None
  }

  lemma ChangeKept(o: Office, c: Change, tokens: map<NodeId, Hash>)
    requires TableInv(o) && ConfirmInv(o)
    requires c.Confirmed? ==> c.node !in o.desk.tokens
    requires tokens == match c
                       case Revoked(node) => o.desk.tokens - {node}
                       case Reloaded(table) => table
                       case _ => o.desk.tokens[c.node := Hash(c.token)]
    ensures var t := o.(desk := o.desk.(tokens := tokens), changes := o.changes + [c]);
            TableInv(t) && ConfirmInv(t)
  {
    var changes := o.changes + [c];
    assert changes[..|o.changes|] == o.changes;
    forall j | 0 <= j < |changes| && changes[j].Confirmed?
      ensures Current(changes[..j], changes[j].node) == None
    {
      if j < |o.changes| {
        assert changes[..j] == o.changes[..j];
      } else {
        assert TokenOf(o.desk.tokens, c.node) == None;
      }
    }
  }

  lemma TableStep(cfg: EnrollConfig, o: Office, e: Event)
    requires TableInv(o) && ConfirmInv(o) && Enabled(o, e)
    ensures TableInv(Step(cfg, o, e)) && ConfirmInv(Step(cfg, o, e))
  {
    match e
    case TokenStored(i) =>
      var c := o.conns[i];
      if c.node !in o.desk.tokens {
        ChangeKept(o, Confirmed(c.node, c.issued), o.desk.tokens[c.node := Hash(c.issued)]);
      }
    case Rotate(node, token) => ChangeKept(o, Rotated(node, token), o.desk.tokens[node := Hash(token)]);
    case Revoke(node) => ChangeKept(o, Revoked(node), o.desk.tokens - {node});
    case DeleteNode(node) => ChangeKept(o, Revoked(node), o.desk.tokens - {node});
    case Restart(fileLost) =>
      var tokens := if fileLost then map[] else o.store.disk;
      ChangeKept(o, Reloaded(tokens), tokens);
    case _ =>
  }

  /** The change takes the node's token away: a revocation, or a restart from a file without
      it. */
  predicate TakesToken(c: Change, node: NodeId) {
    c == Revoked(node) || (c.Reloaded? && node !in c.tokens)
  }

  /** Between having a token and having none lies such a change. */
  lemma {:induction false} LosesByTaking(changes: seq<Change>, node: NodeId, a: nat, b: nat)
    requires a <= b <= |changes|
    requires Current(changes[..a], node).Some? && Current(changes[..b], node).None?
    ensures exists k :: a <= k < b && TakesToken(changes[k], node)
  {
    var before := changes[..b];
    if a < b {
      assert before[..b - 1] == changes[..b - 1];
      if !TakesToken(changes[b - 1], node) {
        LosesByTaking(changes, node, a, b - 1);
      }
    }
  }

  // ----- The registry -----

  predicate Serving(c: Conn) { c.stage.Registered? || c.stage.Served? }

  predicate Open(o: Office, i: nat) {
    i < |o.conns| && Serving(o.conns[i]) && i !in o.desk.closed
  }

  /** The registry names serving connections of their nodes, and every connection that is
      served and not closed is in it: so there is one per node. */
  ghost predicate RegistryInv(o: Office) {
    && (forall node :: node in o.desk.registry ==>
          o.desk.registry[node] < |o.conns| && o.conns[o.desk.registry[node]].node == node)
    && (forall i: nat :: Open(o, i) ==>
          o.conns[i].node in o.desk.registry && o.desk.registry[o.conns[i].node] == i)
  }

  /** The connection was authenticated by its basis: with the node's token, or with an
      enrolment token while the node had none. */
  ghost predicate BasisOk(cfg: EnrollConfig, c: Conn) {
    if c.basis.Some? then c.basis.value == Hash(c.presented) else cfg.open && MatchToken(cfg.enrollmentHashes, c.presented)
  }

  /** ... and registered while that basis was the node's token. */
  ghost predicate RegisteredOk(o: Office, c: Conn) {
    c.registeredAt <= |o.changes| && c.basis == Current(o.changes[..c.registeredAt], c.node)
  }

  ghost predicate ConnsInv(cfg: EnrollConfig, o: Office) {
    forall i :: 0 <= i < |o.conns| ==> BasisOk(cfg, o.conns[i]) && (Serving(o.conns[i]) ==> RegisteredOk(o, o.conns[i]))
  }

  /** Every open connection of the node, except possibly `but`, registered no earlier than
      change `number`. */
  ghost predicate NewerOnly(o: Office, node: NodeId, number: nat, but: Option<ConnId>) {
    forall i: nat :: Open(o, i) && o.conns[i].node == node && but != Some(i) ==> o.conns[i].registeredAt >= number
  }

  /** The change is one that an administrator makes to the node's token. */
  predicate AskedFor(c: Change, node: NodeId) { (c.Rotated? || c.Revoked?) && c.node == node }

  /** The number of a request is the change it made to its node's token. Until it is to
      disconnect, a connection from before may be open; while it closes the one it fetched,
      no other; and none once it has returned. */
  ghost predicate RequestOk(o: Office, r: Request) {
    && 1 <= r.number <= |o.changes|
    && AskedFor(o.changes[r.number - 1], r.node)
    && match r.stage
       case Fetched(i) => NewerOnly(o, r.node, r.number, Some(i))
       case Returned => NewerOnly(o, r.node, r.number, None)
       case _ => true
  }

  ghost predicate RequestsInv(o: Office) {
    forall j :: 0 <= j < |o.requests| ==> RequestOk(o, o.requests[j])
  }

  // ----- Each step keeps it -----

  /** The step is one of a connection's goroutine. */
  predicate OnConn(e: Event) {
    e.Authenticates? || e.Registers? || e.AckSent? || e.TokenStored? || e.Exits?
  }

  lemma OthersKeepConns(cfg: EnrollConfig, o: Office, e: Event)
    requires Enabled(o, e) && !OnConn(e) && !e.Restart?
    ensures var t := Step(cfg, o, e);
            && t.conns == o.conns && t.desk.registry == o.desk.registry && o.desk.closed <= t.desk.closed
            && o.changes <= t.changes && t.offers == o.offers && t.met == o.met && t.bound == o.bound
  {
  }

  /** Nothing opens: what is open afterwards was open before, unchanged. */
  ghost predicate NoneOpened(o: Office, t: Office) {
    && o.changes <= t.changes
    && forall i: nat :: Open(t, i) ==>
         Open(o, i) && t.conns[i].node == o.conns[i].node && t.conns[i].registeredAt == o.conns[i].registeredAt
  }

  lemma RequestStays(o: Office, t: Office, r: Request)
    requires RequestOk(o, r) && NoneOpened(o, t)
    ensures RequestOk(t, r)
  {
  }

  lemma RequestsStay(o: Office, t: Office)
    requires RequestsInv(o) && NoneOpened(o, t) && t.requests == o.requests
    ensures RequestsInv(t)
  {
    forall j | 0 <= j < |t.requests| ensures RequestOk(t, t.requests[j]) { RequestStays(o, t, o.requests[j]); }
  }

  lemma RequestsGrow(o: Office, t: Office, r: Request)
    requires RequestsInv(o) && NoneOpened(o, t) && t.requests == o.requests + [r]
    requires r.stage.ToSave? && 1 <= r.number <= |t.changes| && AskedFor(t.changes[r.number - 1], r.node)
    ensures RequestsInv(t)
  {
    forall j | 0 <= j < |t.requests|
      ensures RequestOk(t, t.requests[j])
    {
      if j < |o.requests| {
        RequestStays(o, t, o.requests[j]);
      }
    }
  }

  lemma RegisterRequests(o: Office, i: nat)
    requires i < |o.conns| && RequestsInv(o)
    ensures RequestsInv(DoRegister(o, i))
  {
    var t := DoRegister(o, i);
    forall j | 0 <= j < |t.requests| ensures RequestOk(t, t.requests[j]) { }
  }

  /** What is fetched for disconnection is the only open connection of the node. */
  lemma DisconnectRequests(o: Office, j: nat)
    requires j < |o.requests| && o.requests[j].stage.ToDisconnect? && RequestsInv(o) && RegistryInv(o)
    ensures RequestsInv(DoDisconnect(o, j))
  {
    var t := DoDisconnect(o, j);
    forall k | 0 <= k < |t.requests|
      ensures RequestOk(t, t.requests[k])
    {
      RequestStays(o, t, o.requests[k]);
      assert RequestOk(o, o.requests[j]);
    }
  }

  lemma CloseRequests(o: Office, j: nat)
    requires j < |o.requests| && o.requests[j].stage.Fetched? && RequestsInv(o)
    ensures RequestsInv(WithRequest(o, j, Returned).(desk := Close(o.desk, o.requests[j].stage.conn)))
  {
    var t := WithRequest(o, j, Returned).(desk := Close(o.desk, o.requests[j].stage.conn));
    forall k | 0 <= k < |t.requests|
      ensures RequestOk(t, t.requests[k])
    {
      RequestStays(o, t, o.requests[k]);
      assert RequestOk(o, o.requests[j]);
    }
  }

  lemma RequestMovesOn(o: Office, t: Office, j: nat)
    requires RequestsInv(o) && j < |o.requests| && t.desk == o.desk && t.conns == o.conns && t.changes == o.changes
    requires |t.requests| == |o.requests| && t.requests == o.requests[j := t.requests[j]]
    requires t.requests[j].node == o.requests[j].node && t.requests[j].number == o.requests[j].number
    requires t.requests[j].stage.ToWrite? || t.requests[j].stage.ToDisconnect?
    ensures RequestsInv(t)
  {
    forall k | 0 <= k < |t.requests|
      ensures RequestOk(t, t.requests[k])
    {
      RequestStays(o, t, o.requests[k]);
    }
  }

  lemma ReloadRequests(o: Office, fileLost: bool)
    requires RequestsInv(o)
    ensures RequestsInv(Reload(o, fileLost))
  {
    var t := Reload(o, fileLost);
    forall k | 0 <= k < |t.requests|
      ensures RequestOk(t, t.requests[k])
    {
      assert RequestOk(o, o.requests[k]);
      assert t.changes[..|o.changes|] == o.changes;
    }
  }

  lemma RequestsStep(cfg: EnrollConfig, o: Office, e: Event)
    requires RequestsInv(o) && RegistryInv(o) && Enabled(o, e)
    ensures RequestsInv(Step(cfg, o, e))
  {
    var t := Step(cfg, o, e);
    match e
    case Registers(i) => RegisterRequests(o, i);
    case Rotate(node, _) => RequestsGrow(o, t, Request(node, |o.changes| + 1, 0, ToSave));
    case Revoke(node) =>
      if node in o.desk.tokens {
        RequestsGrow(o, t, Request(node, |o.changes| + 1, 0, ToSave));
      }
    case SaveChange(j) => RequestMovesOn(o, t, j);
    case WriteChange(j, _) => RequestMovesOn(o, t, j);
    case Disconnect(j) => DisconnectRequests(o, j);
    case CloseFetched(j) => CloseRequests(o, j);
    case Restart(fileLost) => ReloadRequests(o, fileLost);
    case _ => RequestsStay(o, t);
  }

  lemma RegisterRegistry(o: Office, i: nat)
    requires RegistryInv(o) && i < |o.conns| && o.conns[i].stage.Authenticated?
    ensures RegistryInv(DoRegister(o, i))
  {
    var t := DoRegister(o, i);
    forall k: nat | Open(t, k) ensures k == i || Open(o, k) { }
  }

  lemma ExitRegistry(o: Office, i: nat)
    requires RegistryInv(o) && i < |o.conns|
    ensures RegistryInv(DoExit(o, i))
  {
    var t := DoExit(o, i);
    forall k: nat | Open(t, k) ensures Open(o, k) && k != i { }
  }

  lemma RegistryStep(cfg: EnrollConfig, o: Office, e: Event)
    requires RegistryInv(o) && Enabled(o, e)
    ensures RegistryInv(Step(cfg, o, e))
  {
    if e.Registers? {
      RegisterRegistry(o, e.conn);
    } else if e.Exits? || e.TokenStored? {
      ExitRegistry(o, e.conn);
    } else if OnConn(e) {
      RegistryStays(o, Step(cfg, o, e));
    } else if !e.Restart? {
      OthersKeepConns(cfg, o, e);
      RegistryStays(o, Step(cfg, o, e));
    }
  }

  lemma RegistryStays(o: Office, t: Office)
    requires RegistryInv(o) && t.desk.registry == o.desk.registry && o.desk.closed <= t.desk.closed
    requires |o.conns| <= |t.conns|
    requires forall i :: 0 <= i < |o.conns| ==>
               t.conns[i].node == o.conns[i].node && (Serving(t.conns[i]) ==> Serving(o.conns[i]))
    requires forall i :: |o.conns| <= i < |t.conns| ==> !Serving(t.conns[i])
    ensures RegistryInv(t)
  {
    forall k: nat | Open(t, k) ensures Open(o, k) && t.conns[k].node == o.conns[k].node { }
  }

  // ----- How connections came to be served -----

  lemma PrefixesStay(o: Office, c: Conn, changes: seq<Change>)
    requires RegisteredOk(o, c) && o.changes <= changes
    ensures RegisteredOk(o.(changes := changes), c)
  {
    assert changes[..c.registeredAt] == o.changes[..c.registeredAt];
  }

  lemma ConnsStay(cfg: EnrollConfig, o: Office, t: Office)
    requires ConnsInv(cfg, o) && o.changes <= t.changes && |t.conns| == |o.conns|
    requires forall i :: 0 <= i < |o.conns| ==>
               t.conns[i] == o.conns[i].(stage := t.conns[i].stage, issued := t.conns[i].issued)
    requires forall i :: 0 <= i < |o.conns| && Serving(t.conns[i]) ==> Serving(o.conns[i])
    ensures ConnsInv(cfg, t)
  {
    forall i | 0 <= i < |t.conns|
      ensures BasisOk(cfg, t.conns[i]) && (Serving(t.conns[i]) ==> RegisteredOk(t, t.conns[i]))
    {
      assert BasisOk(cfg, o.conns[i]);
      if Serving(t.conns[i]) {
        PrefixesStay(o, o.conns[i], t.changes);
      }
    }
  }

  lemma RegisterConns(cfg: EnrollConfig, o: Office, i: nat)
    requires ConnsInv(cfg, o) && TableInv(o) && i < |o.conns|
    ensures ConnsInv(cfg, DoRegister(o, i))
  {
    assert o.changes[..|o.changes|] == o.changes;
    assert BasisOk(cfg, o.conns[i]);
  }

  lemma ConnsStep(cfg: EnrollConfig, o: Office, e: Event)
    requires ConnsInv(cfg, o) && TableInv(o) && Enabled(o, e)
    ensures ConnsInv(cfg, Step(cfg, o, e))
  {
    if e.Authenticates? || e.Registers? {
      NewConns(cfg, o, e);
    } else if OnConn(e) {
      ConnsStay(cfg, o, Step(cfg, o, e));
    } else if !e.Restart? {
      OthersKeepConns(cfg, o, e);
      ConnsStay(cfg, o, Step(cfg, o, e));
    }
  }

  lemma NewConns(cfg: EnrollConfig, o: Office, e: Event)
    requires ConnsInv(cfg, o) && TableInv(o) && Enabled(o, e) && (e.Authenticates? || e.Registers?)
    ensures ConnsInv(cfg, Step(cfg, o, e))
  {
    if e.Registers? {
      RegisterConns(cfg, o, e.conn);
    }
  }

  ghost predicate Inv(cfg: EnrollConfig, o: Office) {
    TableInv(o) && ConfirmInv(o) && RegistryInv(o) && ConnsInv(cfg, o) && RequestsInv(o)
  }

  lemma StepKeeps(cfg: EnrollConfig, o: Office, e: Event)
    requires Inv(cfg, o) && Enabled(o, e)
    ensures Inv(cfg, Step(cfg, o, e))
  {
    TableStep(cfg, o, e);
    RegistryStep(cfg, o, e);
    ConnsStep(cfg, o, e);
    RequestsStep(cfg, o, e);
  }

  lemma {:induction false} RunKeeps(cfg: EnrollConfig, o: Office, events: seq<Event>, t: Office)
    requires Inv(cfg, o) && Reaches(cfg, o, events, t)
    ensures Inv(cfg, t)
    decreases |events|
  {
    if events != [] {
      StepKeeps(cfg, o, events[0]);
      RunKeeps(cfg, Step(cfg, o, events[0]), events[1..], t);
    }
  }

  lemma ReachableInv(cfg: EnrollConfig, o: Office)
    requires Reachable(cfg, o)
    ensures Inv(cfg, o)
  {
    var events :| Reaches(cfg, FIRST_OFFICE, events, o);
    RunKeeps(cfg, FIRST_OFFICE, events, o);
  }

  // ----- The guarantees -----

  /** A node has at most one connection that is served and open, the registered one. */
  lemma OneOpenConnection(cfg: EnrollConfig, o: Office, i: nat, j: nat)
    requires Reachable(cfg, o) && Open(o, i) && Open(o, j) && o.conns[i].node == o.conns[j].node
    ensures i == j && o.conns[i].node in o.desk.registry && o.desk.registry[o.conns[i].node] == i
  {
    ReachableInv(cfg, o);
  }

  /** Once a rotation or revocation has returned, in this process or an earlier one, every
      connection of the node still being served registered after that change, and presented the token that was the node's when
      it registered: the one this change left behind, or a later one. With no token in
      place it presented an enrolment token. */
  lemma ReturnedChangeDisconnects(cfg: EnrollConfig, o: Office, j: nat, i: nat)
    requires Reachable(cfg, o) && j < |o.requests| && o.requests[j].stage.Returned?
    requires Open(o, i) && o.conns[i].node == o.requests[j].node
    ensures var c := o.conns[i];
            && 1 <= o.requests[j].number <= c.registeredAt <= |o.changes|
            && AskedFor(o.changes[o.requests[j].number - 1], c.node)
            && match Current(o.changes[..c.registeredAt], c.node)
               case Some(hash) => hash == Hash(c.presented)
               case None => cfg.open && MatchToken(cfg.enrollmentHashes, c.presented)
  {
    ReachableInv(cfg, o);
    assert RequestOk(o, o.requests[j]);
    assert BasisOk(cfg, o.conns[i]) && RegisteredOk(o, o.conns[i]);
  }

  /** Of any number of racing enrolments of a node, over any number of processes, at most one
      is confirmed while the node keeps its token: between two confirmations lies a revocation,
      or a restart from a file without the node's token. */
  lemma OneConfirmationBetweenRevocations(cfg: EnrollConfig, o: Office, i: nat, j: nat)
    requires Reachable(cfg, o) && i < j < |o.changes|
    requires o.changes[i].Confirmed? && o.changes[j].Confirmed? && o.changes[i].node == o.changes[j].node
    ensures exists k :: i < k < j && TakesToken(o.changes[k], o.changes[i].node)
  {
    ReachableInv(cfg, o);
    var node := o.changes[i].node;
    assert o.changes[..i + 1][..i] == o.changes[..i];
    assert Current(o.changes[..i + 1], node).Some?;
    LosesByTaking(o.changes, node, i + 1, j);
  }

  /** A confirmation binds exactly when the node has no token: a rotation or an earlier
      confirmation is never overwritten, and the connection is dropped instead. */
  lemma ConfirmationNeverOverwrites(cfg: EnrollConfig, o: Office, i: nat)
    requires Reachable(cfg, o) && Enabled(o, TokenStored(i)) && o.conns[i].issued != ""
    ensures var t := Step(cfg, o, TokenStored(i));
            var node := o.conns[i].node;
            match Current(o.changes, node)
            case Some(_) => t.desk.tokens == o.desk.tokens && !Open(t, i)
            case None => t.desk.tokens == o.desk.tokens[node := Hash(o.conns[i].issued)]
  {
    ReachableInv(cfg, o);
    assert TokenOf(o.desk.tokens, o.conns[i].node) == Current(o.changes, o.conns[i].node);
  }
}
