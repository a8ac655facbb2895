/** Enrolment and token rotation: the two-phase handshake in which the master issues a
    token and binds it when the slave reports that it is stored, racing with rotations,
    revocations and other enrolments, and with the writes of the state file. */
module Enrollment {
  import opened Types
  import opened Persist

  /** The digest of a token, as an injective function of it. */
  datatype Hash = Hash(token: Token)

  /** A connection, numbered in the order of registration attempts. */
  type ConnId = nat

  datatype EnrollConfig = EnrollConfig(open: bool, enrollmentHashes: set<Hash>)

  predicate MatchToken(hashes: set<Hash>, candidate: Token) { candidate != "" && Hash(candidate) in hashes }

  // ----- The token table and the registry -----

  /** What `tokensMu` and the registry's lock guard. `closed` are the connections that
      have been closed. */
  datatype Desk = Desk(tokens: map<NodeId, Hash>, registry: map<NodeId, ConnId>, closed: set<ConnId>)

  function TokenOf(tokens: map<NodeId, Hash>, node: NodeId): Option<Hash> {
    if node in tokens then Some(tokens[node]) else None
  }

  datatype Admission = Rejected | Admission(issued: Token, basis: Option<Hash>)

  /** authenticateNode; `minted` is the token drawn if the node enrols. */
  function Authenticate(cfg: EnrollConfig, tokens: map<NodeId, Hash>, node: NodeId, token: Token, minted: Token): Admission {
    if node in tokens then
      if MatchToken({tokens[node]}, token) then Admission("", Some(tokens[node])) else Rejected
    else if !cfg.open || !MatchToken(cfg.enrollmentHashes, token) then Rejected
    else Admission(minted, None)
  }

  /** Registry.Set: a replaced connection is closed. */
  function SetClient(d: Desk, node: NodeId, conn: ConnId): Desk {
    d.(registry := d.registry[node := conn],
       closed := if node in d.registry then d.closed + {d.registry[node]} else d.closed)
  }

  function RemoveIfMatch(d: Desk, node: NodeId, conn: ConnId): Desk {
    if node in d.registry && d.registry[node] == conn then d.(registry := d.registry - {node}) else d
  }

  function Close(d: Desk, conn: ConnId): Desk { d.(closed := d.closed + {conn}) }

  function Bind(d: Desk, node: NodeId, token: Token): Desk { d.(tokens := d.tokens[node := Hash(token)]) }

  function Unbind(d: Desk, node: NodeId): Desk { d.(tokens := d.tokens - {node}) }

  // ----- The machine -----

  datatype Stage = Authenticated | Registered | Served | Gone

  /** `peer` is the slave's number for this connection, when the node's own slave opened
      it. `issued` is the token offered for enrolment and not yet bound, `basis` the hash that
      the node was authenticated against. `presented` and `registeredAt` (how many
      changes the token table had seen at registration) are histories. */
  datatype Conn = Conn(
    node: NodeId,
    peer: Option<Session>,
    presented: Token,
    basis: Option<Hash>,
    issued: Token,
    stage: Stage,
    registeredAt: nat)

  /** A change of the token table; a new process reloads it from the file. */
  datatype Change =
    | Rotated(node: NodeId, token: Token)
    | Revoked(node: NodeId)
    | Confirmed(node: NodeId, token: Token)
    | Reloaded(tokens: map<NodeId, Hash>)

  /** An administrator's request that has changed the table: `number` is the change it made,
      and `saved` the snapshot it has taken since. */
  datatype Request = Request(node: NodeId, number: nat, saved: nat, stage: RequestStage)

  datatype RequestStage = ToSave | ToWrite | ToDisconnect | Fetched(conn: ConnId) | Returned | Interrupted

  /** A register_ack with an issued token on a slave's own connection, and a token bound
      through such a connection. */
  datatype Offer = Offer(node: NodeId, session: Session, token: Token)

  /** `changes`, `minted`, `met` (the connections slaves have opened), `offers`, `bound` and
      the requests that are no longer under way are histories of all processes. */
  datatype Office = Office(
    desk: Desk,
    conns: seq<Conn>,
    requests: seq<Request>,
    store: Store<map<NodeId, Hash>>,
    changes: seq<Change>,
    minted: set<Token>,
    met: set<(NodeId, Session)>,
    offers: set<Offer>,
    bound: set<Offer>)

  datatype Event =
    | Authenticates(node: NodeId, presented: Token, peer: Option<Session>, minted: Token)
    | Registers(conn: ConnId)
    | AckSent(conn: ConnId)
    | TokenStored(conn: ConnId)
    | Exits(conn: ConnId)
    | Rotate(node: NodeId, token: Token)
    | Revoke(node: NodeId)
    | DeleteNode(node: NodeId)
    | SaveChange(request: nat)
    | WriteChange(request: nat, ok: bool)
    | Disconnect(request: nat)
    | CloseFetched(request: nat)
    | Snapshot
    | DiskWrite(number: nat, ok: bool)
    | Restart(fileLost: bool)

  predicate FreshToken(o: Office, token: Token) { token != "" && token !in o.minted }

  /** The snapshot is one that a request will write itself. */
  predicate Awaited(o: Office, number: nat) {
    exists j :: 0 <= j < |o.requests| && o.requests[j].stage.ToWrite? && o.requests[j].saved == number
  }

  predicate Enabled(o: Office, e: Event) {
    match e
    case Authenticates(node, _, peer, minted) =>
      FreshToken(o, minted) && (peer.Some? ==> (node, peer.value) !in o.met)
    case Registers(i) => i < |o.conns| && o.conns[i].stage.Authenticated?
    case AckSent(i) => i < |o.conns| && o.conns[i].stage.Registered?
    case TokenStored(i) => i < |o.conns| && o.conns[i].stage.Served?
    case Exits(i) => i < |o.conns| && !o.conns[i].stage.Gone?
    case Rotate(_, token) => FreshToken(o, token)
    case SaveChange(j) => j < |o.requests| && o.requests[j].stage.ToSave?
    case WriteChange(j, _) =>
      && j < |o.requests| && o.requests[j].stage.ToWrite?
      && o.requests[j].saved in o.store.pending && 1 <= o.requests[j].saved <= |o.store.log|
    case DiskWrite(number, _) => number in o.store.pending && 1 <= number <= |o.store.log| && !Awaited(o, number)
    case Disconnect(j) => j < |o.requests| && o.requests[j].stage.ToDisconnect?
    case CloseFetched(j) => j < |o.requests| && o.requests[j].stage.Fetched?
    case _ => true
  }

  function WithConn(o: Office, i: nat, c: Conn): Office
    requires i < |o.conns|
  {
    o.(conns := o.conns[i := c])
  }

  function DoRegister(o: Office, i: nat): Office
    requires i < |o.conns|
  {
    var c := o.conns[i];
    if TokenOf(o.desk.tokens, c.node) != c.basis then WithConn(o, i, c.(stage := Gone))
    else
      WithConn(o, i, c.(stage := Registered, registeredAt := |o.changes|)).(desk := SetClient(o.desk, c.node, i))
  }

  function Offers(c: Conn, token: Token): set<Offer> {
    if c.peer.Some? && token != "" then {Offer(c.node, c.peer.value, token)} else {}
  }

  function DoExit(o: Office, i: nat): Office
    requires i < |o.conns|
  {
    WithConn(o, i, o.conns[i].(stage := Gone)).(desk := Close(RemoveIfMatch(o.desk, o.conns[i].node, i), i))
  }

  /** token_stored: a node that got a token meanwhile keeps it, and the connection ends. */
  function DoTokenStored(o: Office, i: nat): Office
    requires i < |o.conns|
  {
    var c := o.conns[i];
    if c.issued == "" then o
    else if c.node in o.desk.tokens then DoExit(o, i)
    else
      WithConn(o, i, c.(issued := "")).(
        desk := Bind(o.desk, c.node, c.issued),
        changes := o.changes + [Confirmed(c.node, c.issued)],
        bound := o.bound + Offers(c, c.issued))
  }

  function DoRotate(o: Office, node: NodeId, token: Token): Office {
    o.(desk := Bind(o.desk, node, token), minted := o.minted + {token},
       changes := o.changes + [Rotated(node, token)],
       requests := o.requests + [Request(node, |o.changes| + 1, 0, ToSave)])
  }

  /** removeNodeToken: revoking goes on to disconnect, deleting the node does not. */
  function DoRemove(o: Office, node: NodeId, disconnects: bool): Office {
    if node !in o.desk.tokens then o
    else
      o.(desk := Unbind(o.desk, node), changes := o.changes + [Revoked(node)],
         requests := if disconnects then o.requests + [Request(node, |o.changes| + 1, 0, ToSave)] else o.requests)
  }

  function WithRequest(o: Office, j: nat, stage: RequestStage): Office
    requires j < |o.requests|
  {
    o.(requests := o.requests[j := o.requests[j].(stage := stage)])
  }

  function DoDisconnect(o: Office, j: nat): Office
    requires j < |o.requests|
  {
    var node := o.requests[j].node;
    WithRequest(o, j, if node in o.desk.registry then Fetched(o.desk.registry[node]) else Returned)
  }

  /** saveStateForDirectoryChange, by its two halves: the snapshot, taken under the lock, and
      the write. */
  function DoSave(o: Office, j: nat): Office
    requires j < |o.requests|
  {
    o.(requests := o.requests[j := o.requests[j].(stage := ToWrite, saved := |o.store.log| + 1)],
       store := Take(o.store, o.desk.tokens))
  }

  /** A failed write is logged and the request goes on. */
  function DoWrite(o: Office, j: nat, ok: bool): Office
    requires j < |o.requests| && 1 <= o.requests[j].saved <= |o.store.log|
  {
    WithRequest(o, j, ToDisconnect).(store := Write(o.store, o.requests[j].saved, ok))
  }

  /** A new process: connections and requests under way are gone, and the table is what the
      file holds, or empty if the file is lost. */
  function Reload(o: Office, fileLost: bool): Office {
    var tokens := if fileLost then map[] else o.store.disk;
    o.(desk := Desk(tokens, map[], {}), conns := [],
       requests := seq(|o.requests|, j requires 0 <= j < |o.requests| => Interrupt(o.requests[j])),
       store := Fresh(tokens), changes := o.changes + [Reloaded(tokens)])
  }

  function Interrupt(r: Request): Request { if r.stage.Returned? then r else r.(stage := Interrupted) }

  function DoAuthenticate(cfg: EnrollConfig, o: Office, e: Event): Office
    requires e.Authenticates?
  {
    var a := Authenticate(cfg, o.desk.tokens, e.node, e.presented, e.minted);
    var o' := o.(minted := o.minted + {e.minted},
                 met := if e.peer.Some? then o.met + {(e.node, e.peer.value)} else o.met);
    if a.Rejected? then o'
    else o'.(conns := o.conns + [Conn(e.node, e.peer, e.presented, a.basis, a.issued, Authenticated, 0)])
  }

  function Step(cfg: EnrollConfig, o: Office, e: Event): Office
    requires Enabled(o, e)
  {
    match e
    case Authenticates(_, _, _, _) => DoAuthenticate(cfg, o, e)
    case Registers(i) => DoRegister(o, i)
    case AckSent(i) =>
      WithConn(o, i, o.conns[i].(stage := Served)).(offers := o.offers + Offers(o.conns[i], o.conns[i].issued))
    case TokenStored(i) => DoTokenStored(o, i)
    case Exits(i) => DoExit(o, i)
    case Rotate(node, token) => DoRotate(o, node, token)
    case Revoke(node) => DoRemove(o, node, true)
    case DeleteNode(node) => DoRemove(o, node, false)
    case SaveChange(j) => DoSave(o, j)
    case WriteChange(j, ok) => DoWrite(o, j, ok)
    case Disconnect(j) => DoDisconnect(o, j)
    case CloseFetched(j) => WithRequest(o, j, Returned).(desk := Close(o.desk, o.requests[j].stage.conn))
    case Snapshot => o.(store := Take(o.store, o.desk.tokens))
    case DiskWrite(number, ok) => o.(store := Write(o.store, number, ok))
    case Restart(fileLost) => Reload(o, fileLost)
  }

  const FIRST_OFFICE := Office(Desk(map[], map[], {}), [], [], Fresh(map[]), [], {}, {}, {}, {})
}
