/** The enrolment handshake with the slaves that take part in it. A slave's own
    connections carry messages without forging them; anyone else may open further
    connections in a node's name and send token_stored on them at will. */
module EnrollmentComposed {
  import opened Types
  import opened Enrollment
  import ER = EnrollmentRuns
  import S = Slave
  import SR = SlaveRuns

  datatype Network = Network(office: Office, slaves: map<NodeId, S.Machine>)

  datatype NetworkEvent = OfficeStep(event: Event) | SlaveStep(node: NodeId, step: S.Event)

  datatype Setup = Setup(master: EnrollConfig, slaves: map<NodeId, S.SlaveConfig>)

  ghost predicate Confirms(slaves: map<NodeId, S.Machine>, node: NodeId, session: Session) {
    node in slaves && exists token :: S.Confirmation(session, token) in slaves[node].stored
  }

  /** On a slave's own connection, the register and token_stored messages are the slave's,
      and the issued token it receives is one the master offered on it. */
  ghost predicate NetworkEnabled(setup: Setup, y: Network, e: NetworkEvent) {
    && y.slaves.Keys == setup.slaves.Keys
    && match e
       case OfficeStep(event) =>
         && Enabled(y.office, event)
         && (event.Authenticates? && event.peer.Some? ==>
               && event.node in y.slaves && y.slaves[event.node].session == event.peer.value
               && y.slaves[event.node].pc.Registering? && y.slaves[event.node].pc.presented == event.presented)
         && (event.TokenStored? && y.office.conns[event.conn].peer.Some? ==>
               Confirms(y.slaves, y.office.conns[event.conn].node, y.office.conns[event.conn].peer.value))
       case SlaveStep(node, step) =>
         && node in y.slaves && S.Enabled(setup.slaves[node], y.slaves[node], step)
         && (step.Admitted? && step.issued != "" ==>
               Offer(node, y.slaves[node].session, step.issued) in y.office.offers)
  }

  function NetworkStep(setup: Setup, y: Network, e: NetworkEvent): Network
    requires NetworkEnabled(setup, y, e)
  {
    match e
    case OfficeStep(event) => y.(office := Step(setup.master, y.office, event))
    case SlaveStep(node, step) => y.(slaves := y.slaves[node := S.Step(setup.slaves[node], y.slaves[node], step)])
  }

  function First(setup: Setup): Network { Network(FIRST_OFFICE, map node | node in setup.slaves :: S.FIRST) }

  ghost predicate Reaches(setup: Setup, y: Network, events: seq<NetworkEvent>, z: Network)
    decreases |events|
  {
    if events == [] then z == y
    else NetworkEnabled(setup, y, events[0]) && Reaches(setup, NetworkStep(setup, y, events[0]), events[1..], z)
  }

  ghost predicate Reachable(setup: Setup, y: Network) {
    exists events :: Reaches(setup, First(setup), events, y)
  }

  // ----- Offers -----

  /** Where an own connection stands: before its ack nothing has been offered in its
      session, and afterwards the token still to be bound is the one offered. */
  ghost predicate ConnOffers(o: Office, c: Conn) {
    c.peer.Some? ==>
      && (c.node, c.peer.value) in o.met
      && (c.stage.Authenticated? || c.stage.Registered? ==> forall t :: Offer(c.node, c.peer.value, t) !in o.offers)
      && (c.stage.Served? && c.issued != "" ==> Offer(c.node, c.peer.value, c.issued) in o.offers)
  }

  predicate SamePeer(c: Conn, d: Conn) { c.peer.Some? && c.peer == d.peer && c.node == d.node }

  ghost predicate OffersInv(o: Office) {
    && (forall i :: 0 <= i < |o.conns| ==> ConnOffers(o, o.conns[i]))
    && (forall i, j :: 0 <= i < j < |o.conns| ==> !SamePeer(o.conns[i], o.conns[j]))
    && (forall f :: f in o.offers ==> (f.node, f.session) in o.met)
    && (forall f, g :: f in o.offers && g in o.offers && f.node == g.node && f.session == g.session ==> f == g)
  }

  lemma AckOffers(cfg: EnrollConfig, o: Office, i: nat)
    requires OffersInv(o) && Enabled(o, AckSent(i))
    ensures OffersInv(Step(cfg, o, AckSent(i)))
  {
    var t := Step(cfg, o, AckSent(i));
    var c := o.conns[i];
    assert ConnOffers(o, c);
    forall j | 0 <= j < |t.conns|
      ensures ConnOffers(t, t.conns[j])
    {
      assert ConnOffers(o, o.conns[j]);
      assert j != i ==> !SamePeer(o.conns[j], c) && !SamePeer(c, o.conns[j]);
    }
  }

  lemma OffersStep(cfg: EnrollConfig, o: Office, e: Event)
    requires OffersInv(o) && Enabled(o, e)
    ensures OffersInv(Step(cfg, o, e))
    ensures o.offers <= Step(cfg, o, e).offers
  {
    if e.AckSent? {
      AckOffers(cfg, o, e.conn);
    } else if !e.Authenticates? && !e.Restart? {
      StepSucceeds(cfg, o, e);
      OffersStay(o, Step(cfg, o, e));
    }
  }

  lemma StepSucceeds(cfg: EnrollConfig, o: Office, e: Event)
    requires Enabled(o, e) && !e.AckSent? && !e.Authenticates? && !e.Restart?
    ensures var t := Step(cfg, o, e);
            && t.offers == o.offers && t.met == o.met && |t.conns| == |o.conns|
            && forall i :: 0 <= i < |o.conns| ==> Succeeds(o.conns[i], t.conns[i])
  {
    if !ER.OnConn(e) {
      ER.OthersKeepConns(cfg, o, e);
    }
  }

  lemma OffersStay(o: Office, t: Office)
    requires OffersInv(o) && t.offers == o.offers && t.met == o.met && |t.conns| == |o.conns|
    requires forall i :: 0 <= i < |o.conns| ==> Succeeds(o.conns[i], t.conns[i])
    ensures OffersInv(t)
  {
    forall i | 0 <= i < |t.conns|
      ensures ConnOffers(t, t.conns[i])
    {
      assert ConnOffers(o, o.conns[i]) && Succeeds(o.conns[i], t.conns[i]);
    }
    forall i, j | 0 <= i < j < |t.conns|
      ensures !SamePeer(t.conns[i], t.conns[j])
    {
      assert Succeeds(o.conns[i], t.conns[i]) && Succeeds(o.conns[j], t.conns[j]);
    }
  }

  /** The connection stays where it is, is registered, gives up its token, or ends. */
  predicate Succeeds(c: Conn, d: Conn) {
    && d.peer == c.peer && d.node == c.node && (d.issued == c.issued || d.issued == "")
    && (d.stage == c.stage || d.stage.Gone? || (c.stage.Authenticated? && d.stage.Registered?))
  }

  // ----- Confirmations -----

  /** The token that the slave's handshake is about, if any. */
  function Handling(pc: S.Pc): Token {
    match pc
    case Setting(_, token, _) => token
    case RollingBack(_, token, _) => token
    case Stored(token) => token
    case _ => ""
  }

  /** A slave confirms only tokens offered to it in the same session. */
  ghost predicate SlaveOffers(node: NodeId, m: S.Machine, offers: set<Offer>) {
    && (Handling(m.pc) != "" ==> Offer(node, m.session, Handling(m.pc)) in offers)
    && (m.pc.Stored? ==> m.pc.token != "")
    && (forall c :: c in m.stored ==> Offer(node, c.session, c.token) in offers)
  }

  ghost predicate SlavesOffers(slaves: map<NodeId, S.Machine>, offers: set<Offer>) {
    forall node :: node in slaves ==> SlaveOffers(node, slaves[node], offers)
  }

  /** Every token bound on a slave's own connection was confirmed by that slave. */
  ghost predicate BoundInv(o: Office, slaves: map<NodeId, S.Machine>) {
    forall f :: f in o.bound ==> f.node in slaves && S.Confirmation(f.session, f.token) in slaves[f.node].stored
  }

  lemma BoundStep(cfg: EnrollConfig, o: Office, slaves: map<NodeId, S.Machine>, e: Event)
    requires OffersInv(o) && SlavesOffers(slaves, o.offers) && BoundInv(o, slaves) && Enabled(o, e)
    requires e.TokenStored? && o.conns[e.conn].peer.Some? ==>
               Confirms(slaves, o.conns[e.conn].node, o.conns[e.conn].peer.value)
    ensures BoundInv(Step(cfg, o, e), slaves)
  {
    if e.TokenStored? && o.conns[e.conn].peer.Some? && o.conns[e.conn].issued != "" {
      var c := o.conns[e.conn];
      assert ConnOffers(o, c);
      var token :| S.Confirmation(c.peer.value, token) in slaves[c.node].stored;
      assert SlaveOffers(c.node, slaves[c.node], o.offers);
      assert Offer(c.node, c.peer.value, token) == Offer(c.node, c.peer.value, c.issued);
    }
  }

  lemma SlaveStepOffers(cfg: S.SlaveConfig, node: NodeId, m: S.Machine, step: S.Event, offers: set<Offer>)
    requires S.Enabled(cfg, m, step) && SlaveOffers(node, m, offers)
    requires step.Admitted? && step.issued != "" ==> Offer(node, m.session, step.issued) in offers
    ensures SlaveOffers(node, S.Step(cfg, m, step), offers) && m.stored <= S.Step(cfg, m, step).stored
  {
  }

  ghost predicate NetworkInv(setup: Setup, y: Network) {
    && OffersInv(y.office)
    && SlavesOffers(y.slaves, y.office.offers)
    && BoundInv(y.office, y.slaves)
  }

  lemma NetworkKeeps(setup: Setup, y: Network, e: NetworkEvent)
    requires NetworkInv(setup, y) && NetworkEnabled(setup, y, e)
    ensures NetworkInv(setup, NetworkStep(setup, y, e))
  {
    match e
    case OfficeStep(event) =>
      OffersStep(setup.master, y.office, event);
      BoundStep(setup.master, y.office, y.slaves, event);
    case SlaveStep(node, step) =>
      SlaveStepOffers(setup.slaves[node], node, y.slaves[node], step, y.office.offers);
  }

  lemma {:induction false} RunKeeps(setup: Setup, y: Network, events: seq<NetworkEvent>, z: Network)
    requires NetworkInv(setup, y) && Reaches(setup, y, events, z)
    ensures NetworkInv(setup, z)
    decreases |events|
  {
    if events != [] {
      NetworkKeeps(setup, y, events[0]);
      RunKeeps(setup, NetworkStep(setup, y, events[0]), events[1..], z);
    }
  }

  /** A token that the master has bound on a slave's own connection is one for which that
      slave sent token_stored in that session. */
  lemma BoundTokenWasStored(setup: Setup, y: Network, f: Offer)
    requires Reachable(setup, y) && f in y.office.bound
    ensures f.node in y.slaves && S.Confirmation(f.session, f.token) in y.slaves[f.node].stored
  {
    var events :| Reaches(setup, First(setup), events, y);
    RunKeeps(setup, First(setup), events, y);
  }

  // ----- Durability -----

  lemma SlavesKeep(setup: Setup, y: Network, e: NetworkEvent)
    requires SR.FleetInv(setup.slaves, y.slaves) && NetworkEnabled(setup, y, e)
    ensures SR.FleetInv(setup.slaves, NetworkStep(setup, y, e).slaves)
  {
    if e.SlaveStep? {
      SR.StepKeeps(setup.slaves[e.node], y.slaves[e.node], e.step);
      SR.FleetSwap(setup.slaves, y.slaves, e.node, S.Step(setup.slaves[e.node], y.slaves[e.node], e.step));
    }
  }

  ghost predicate Confirmed(y: Network, f: Offer) {
    f.node in y.slaves && S.Confirmation(f.session, f.token) in y.slaves[f.node].stored
  }

  /** At `mid` the slave is about to send token_stored for the token, which is on its disk
      and in every snapshot that may still replace the file. */
  ghost predicate SendsDurable(mid: Network, e: NetworkEvent, f: Offer) {
    && e.SlaveStep? && e.node == f.node && e.step.SendStored? && f.node in mid.slaves
    && mid.slaves[f.node].session == f.session
    && SR.Holds(mid.slaves[f.node], f.token) && mid.slaves[f.node].store.disk.issuedToken == f.token
  }

  lemma ConfirmingStep(setup: Setup, y: Network, e: NetworkEvent, f: Offer)
    requires SR.FleetInv(setup.slaves, y.slaves) && NetworkEnabled(setup, y, e)
    requires !Confirmed(y, f) && Confirmed(NetworkStep(setup, y, e), f)
    ensures SendsDurable(y, e, f)
  {
    assert e.SlaveStep? && e.node == f.node;
    SR.ConfirmedIsDurable(setup.slaves[f.node], y.slaves[f.node], e.step, S.Confirmation(f.session, f.token));
  }

  /** The run passes through a state in which the confirmation was sent. */
  ghost predicate PassesDurable(setup: Setup, y: Network, events: seq<NetworkEvent>, f: Offer) {
    exists k: nat, mid: Network ::
      k < |events| && Reaches(setup, y, events[..k], mid) && SendsDurable(mid, events[k], f)
  }

  lemma PassesLater(setup: Setup, y: Network, events: seq<NetworkEvent>, f: Offer)
    requires events != [] && NetworkEnabled(setup, y, events[0])
    requires PassesDurable(setup, NetworkStep(setup, y, events[0]), events[1..], f)
    ensures PassesDurable(setup, y, events, f)
  {
    var next := NetworkStep(setup, y, events[0]);
    var k: nat, mid: Network :|
      k < |events[1..]| && Reaches(setup, next, events[1..][..k], mid) && SendsDurable(mid, events[1..][k], f);
    assert events[..k + 1][1..] == events[1..][..k];
    assert Reaches(setup, y, events[..k + 1], mid) && events[k + 1] == events[1..][k];
  }

  lemma {:induction false} ConfirmedPassesDurable(setup: Setup, y: Network, events: seq<NetworkEvent>, z: Network, f: Offer)
    requires SR.FleetInv(setup.slaves, y.slaves) && Reaches(setup, y, events, z)
    requires !Confirmed(y, f) && Confirmed(z, f)
    ensures PassesDurable(setup, y, events, f)
    decreases |events|
  {
    var next := NetworkStep(setup, y, events[0]);
    if Confirmed(next, f) {
      ConfirmingStep(setup, y, events[0], f);
      assert Reaches(setup, y, events[..0], y);
    } else {
      SlavesKeep(setup, y, events[0]);
      ConfirmedPassesDurable(setup, next, events[1..], z, f);
      PassesLater(setup, y, events, f);
    }
  }

  /** Whatever token the master has bound on a slave's own connection, the run went through
      a state in which the slave was sending token_stored for it and the token was already
      durable: over every interleaving with rotations, revocations, other enrolments, and
      crashes of either side. From there it stays durable until the slave next sets its token
      (SlaveRuns.TokenStaysDurable). */
  lemma BoundTokenWasDurable(setup: Setup, events: seq<NetworkEvent>, y: Network, f: Offer)
    requires Reaches(setup, First(setup), events, y) && f in y.office.bound
    ensures PassesDurable(setup, First(setup), events, f)
  {
    BoundTokenWasStored(setup, y, f);
    ConfirmedPassesDurable(setup, First(setup), events, y, f);
  }
}
