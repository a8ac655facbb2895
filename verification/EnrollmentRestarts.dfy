/** What the state file remembers of the token table: which tokens a crash can bring back, and
    which it can take away. */
module EnrollmentRestarts {
  import opened Types
  import opened Persist
  import opened Enrollment
  import opened EnrollmentRuns

  type Table = map<NodeId, Hash>

  // ----- The file -----

  /** A snapshot that a request is to write is pending, and no other request's. */
  ghost predicate AwaitedInv(o: Office) {
    && (forall j :: 0 <= j < |o.requests| && o.requests[j].stage.ToWrite? ==> o.requests[j].saved in o.store.pending)
    && (forall i, j :: 0 <= i < j < |o.requests| && o.requests[i].stage.ToWrite? && o.requests[j].stage.ToWrite? ==>
          o.requests[i].saved != o.requests[j].saved)
  }

  /** Every token in the table and in a snapshot was minted. */
  ghost predicate MintedInv(o: Office) {
    && AllMinted(o.desk.tokens, o.minted)
    && forall n :: 0 <= n <= |o.store.log| ==> AllMinted(Content(o.store, n), o.minted)
  }

  predicate AllMinted(tokens: Table, minted: set<Token>) {
    forall node :: node in tokens ==> tokens[node].token in minted
  }

  /** The connection may still bind the token it was issued. */
  predicate Offering(c: Conn) { !c.stage.Gone? && c.issued != "" }

  /** A token that may still be bound was minted for one connection, to a node that had
      none, and is nobody's yet. */
  ghost predicate IssuedInv(o: Office) {
    && (forall i :: 0 <= i < |o.conns| && Offering(o.conns[i]) ==>
          && o.conns[i].issued in o.minted && o.conns[i].basis.None?
          && forall node :: node in o.desk.tokens ==> o.desk.tokens[node].token != o.conns[i].issued)
    && (forall i, j :: 0 <= i < j < |o.conns| && Offering(o.conns[i]) && Offering(o.conns[j]) ==>
          o.conns[i].issued != o.conns[j].issued)
  }

  ghost predicate FileInv(o: Office) {
    StoreInv(o.store) && AwaitedInv(o) && MintedInv(o) && IssuedInv(o)
  }

  /** What a step does to the store: nothing, a snapshot of the table, or a pending write. */
  lemma StoreCases(cfg: EnrollConfig, o: Office, e: Event)
    requires Enabled(o, e) && !e.Restart?
    ensures var t := Step(cfg, o, e);
            || t.store == o.store
            || (t.store == Take(o.store, o.desk.tokens) && t.desk == o.desk)
            || (&& e.WriteChange? && t.store == Write(o.store, o.requests[e.request].saved, e.ok)
                && t.desk == o.desk)
            || (e.DiskWrite? && t.store == Write(o.store, e.number, e.ok) && t.desk == o.desk)
  {
  }

  lemma StoreStep(cfg: EnrollConfig, o: Office, e: Event)
    requires StoreInv(o.store) && Enabled(o, e)
    ensures StoreInv(Step(cfg, o, e).store)
  {
    if !e.Restart? {
      StoreCases(cfg, o, e);
    }
  }

  lemma AwaitedStep(cfg: EnrollConfig, o: Office, e: Event)
    requires StoreInv(o.store) && AwaitedInv(o) && Enabled(o, e)
    ensures AwaitedInv(Step(cfg, o, e))
  {
    match e
    case SaveChange(_) =>
    case WriteChange(_, _) =>
    case DiskWrite(_, _) =>
    case Restart(_) =>
    case _ => AwaitedStay(o, Step(cfg, o, e));
  }

  lemma AwaitedStay(o: Office, t: Office)
    requires AwaitedInv(o) && o.store.pending <= t.store.pending
    requires forall j :: 0 <= j < |t.requests| && t.requests[j].stage.ToWrite? ==>
               j < |o.requests| && t.requests[j] == o.requests[j]
    ensures AwaitedInv(t)
  {
  }

  lemma MintedStep(cfg: EnrollConfig, o: Office, e: Event)
    requires StoreInv(o.store) && MintedInv(o) && IssuedInv(o) && Enabled(o, e)
    ensures MintedInv(Step(cfg, o, e))
  {
    var t := Step(cfg, o, e);
    assert AllMinted(Content(o.store, o.store.writtenSeq), o.minted);
    if !e.Restart? {
      StoreCases(cfg, o, e);
      forall n | 0 <= n <= |t.store.log|
        ensures AllMinted(Content(t.store, n), t.minted)
      {
        if n <= |o.store.log| {
          assert Content(t.store, n) == Content(o.store, n);
        }
      }
    }
  }

  /** No connection comes to offer a token, and the table gets none that one offers. */
  lemma IssuedStay(o: Office, t: Office)
    requires IssuedInv(o) && o.minted <= t.minted && |t.conns| == |o.conns|
    requires forall i :: 0 <= i < |t.conns| && Offering(t.conns[i]) ==>
               Offering(o.conns[i]) && t.conns[i].issued == o.conns[i].issued && t.conns[i].basis == o.conns[i].basis
    requires forall node :: node in t.desk.tokens ==>
               || (node in o.desk.tokens && t.desk.tokens[node] == o.desk.tokens[node])
               || t.desk.tokens[node].token !in o.minted
    ensures IssuedInv(t)
  {
  }

  lemma IssuedAuthenticates(cfg: EnrollConfig, o: Office, e: Event)
    requires MintedInv(o) && IssuedInv(o) && Enabled(o, e) && e.Authenticates?
    ensures IssuedInv(DoAuthenticate(cfg, o, e))
  {
    var t := DoAuthenticate(cfg, o, e);
    assert forall i :: 0 <= i < |o.conns| ==> t.conns[i] == o.conns[i];
  }

  lemma IssuedBinds(o: Office, i: nat)
    requires IssuedInv(o) && i < |o.conns| && o.conns[i].stage.Served?
    ensures IssuedInv(DoTokenStored(o, i))
  {
    var c := o.conns[i];
    if c.issued != "" && c.node !in o.desk.tokens {
      assert Offering(c);
      var t := DoTokenStored(o, i);
      assert forall j :: 0 <= j < |t.conns| && j != i ==> t.conns[j] == o.conns[j];
    } else {
      IssuedStay(o, DoTokenStored(o, i));
    }
  }

  lemma IssuedStep(cfg: EnrollConfig, o: Office, e: Event)
    requires MintedInv(o) && IssuedInv(o) && Enabled(o, e)
    ensures IssuedInv(Step(cfg, o, e))
  {
    match e
    case Authenticates(_, _, _, _) => IssuedAuthenticates(cfg, o, e);
    case TokenStored(i) => IssuedBinds(o, i);
    case Restart(_) =>
    case _ => IssuedStay(o, Step(cfg, o, e));
  }

  lemma FileStep(cfg: EnrollConfig, o: Office, e: Event)
    requires FileInv(o) && Enabled(o, e)
    ensures FileInv(Step(cfg, o, e))
  {
    StoreStep(cfg, o, e);
    AwaitedStep(cfg, o, e);
    MintedStep(cfg, o, e);
    IssuedStep(cfg, o, e);
  }

  lemma {:induction false} FileRun(cfg: EnrollConfig, o: Office, events: seq<Event>, t: Office)
    requires FileInv(o) && Reaches(cfg, o, events, t)
    ensures FileInv(t)
    decreases |events|
  {
    if events != [] {
      FileStep(cfg, o, events[0]);
      FileRun(cfg, Step(cfg, o, events[0]), events[1..], t);
    }
  }

  lemma ReachableFile(cfg: EnrollConfig, o: Office)
    requires Reachable(cfg, o)
    ensures FileInv(o)
  {
    var events :| Reaches(cfg, FIRST_OFFICE, events, o);
    FileRun(cfg, FIRST_OFFICE, events, o);
  }

  /** A request that has taken its snapshot can always go on to write it. */
  lemma RequestsGoOn(cfg: EnrollConfig, o: Office, j: nat, ok: bool)
    requires Reachable(cfg, o) && j < |o.requests| && o.requests[j].stage.ToWrite?
    ensures Enabled(o, WriteChange(j, ok))
  {
    ReachableFile(cfg, o);
  }

  // ----- What holds in memory and in every live snapshot -----

  /** The table is so in memory, in the file, and in every snapshot that may still replace
      the file. */
  ghost predicate Everywhere(o: Office, ok: Table -> bool) {
    ok(o.desk.tokens) && LiveAll(o.store, ok)
  }

  /** The table is so in memory and in every snapshot from number `k` on. */
  ghost predicate Since(o: Office, ok: Table -> bool, k: nat) {
    ok(o.desk.tokens) && AllSince(o.store, ok, k)
  }

  lemma EverywhereStep(cfg: EnrollConfig, o: Office, e: Event, ok: Table -> bool)
    requires StoreInv(o.store) && Everywhere(o, ok) && Enabled(o, e)
    requires if e.Restart? then e.fileLost ==> ok(map[]) else ok(Step(cfg, o, e).desk.tokens)
    ensures Everywhere(Step(cfg, o, e), ok)
  {
    if e.Restart? {
      LiveAllOnDisk(o.store, ok);
    } else {
      StoreCases(cfg, o, e);
      TakeLiveAll(o.store, o.desk.tokens, ok);
      if e.WriteChange? {
        WriteLiveAll(o.store, o.requests[e.request].saved, e.ok, ok);
      } else if e.DiskWrite? {
        WriteLiveAll(o.store, e.number, e.ok, ok);
      }
    }
  }

  lemma SinceStep(cfg: EnrollConfig, o: Office, e: Event, ok: Table -> bool, k: nat)
    requires Since(o, ok, k) && Enabled(o, e) && !e.Restart? && ok(Step(cfg, o, e).desk.tokens)
    ensures Since(Step(cfg, o, e), ok, k)
  {
    StoreCases(cfg, o, e);
    TakeAllSince(o.store, o.desk.tokens, ok, k);
    if e.WriteChange? {
      WriteAllSince(o.store, o.requests[e.request].saved, e.ok, ok, k);
    } else if e.DiskWrite? {
      WriteAllSince(o.store, e.number, e.ok, ok, k);
    }
  }

  lemma ReachesFirst(cfg: EnrollConfig, o: Office, e: Event, rest: seq<Event>, t: Office)
    requires Enabled(o, e) && Reaches(cfg, Step(cfg, o, e), rest, t)
    ensures Reaches(cfg, o, [e] + rest, t)
  {
    assert ([e] + rest)[1..] == rest;
  }

  lemma ReachesNow(cfg: EnrollConfig, o: Office)
    ensures Reaches(cfg, o, [], o)
  {
  }

  /** A live snapshot becomes the table of a new process. */
  lemma Restores(cfg: EnrollConfig, o: Office, n: nat) returns (events: seq<Event>, t: Office)
    requires StoreInv(o.store) && Live(o.store, n)
    ensures n <= |o.store.log| && Reaches(cfg, o, events, t) && t.desk.tokens == Content(o.store, n)
    ensures forall e :: e in events ==> e.WriteChange? || e.DiskWrite? || e == Restart(false)
  {
    LiveCanBeDisk(o.store, n);
    if n == o.store.writtenSeq {
      t := Reload(o, false);
      ReachesNow(cfg, t);
      ReachesFirst(cfg, o, Restart(false), [], t);
      events := [Restart(false)] + [];
    } else {
      var write := WriteOf(o, n);
      var v := Step(cfg, o, write);
      t := Reload(v, false);
      ReachesNow(cfg, t);
      ReachesFirst(cfg, v, Restart(false), [], t);
      ReachesFirst(cfg, o, write, [Restart(false)] + [], t);
      events := [write] + ([Restart(false)] + []);
    }
  }

  /** Whoever is to write a pending snapshot can write it. */
  lemma WriteOf(o: Office, n: nat) returns (e: Event)
    requires StoreInv(o.store) && n in o.store.pending
    ensures (e.WriteChange? || e.DiskWrite?) && Enabled(o, e)
    ensures forall cfg :: Step(cfg, o, e).store == Write(o.store, n, true)
  {
    if Awaited(o, n) {
      var j :| 0 <= j < |o.requests| && o.requests[j].stage.ToWrite? && o.requests[j].saved == n;
      e := WriteChange(j, true);
    } else {
      e := DiskWrite(n, true);
    }
  }

  // ----- A token that is no longer the node's -----

  function Lacks(node: NodeId, token: Token): Table -> bool {
    (tokens: Table) => TokenOf(tokens, node) != Some(Hash(token))
  }

  predicate Offers(c: Conn, node: NodeId, token: Token) { Offering(c) && c.node == node && c.issued == token }

  ghost predicate Unoffered(o: Office, node: NodeId, token: Token) {
    token in o.minted && forall i :: 0 <= i < |o.conns| ==> !Offers(o.conns[i], node, token)
  }

  /** The token is not the node's in memory, in the file or in a snapshot that may still
      replace the file, and no connection may still bind it. */
  ghost predicate Retired(o: Office, node: NodeId, token: Token) {
    Everywhere(o, Lacks(node, token)) && Unoffered(o, node, token)
  }

  lemma LackedStep(cfg: EnrollConfig, o: Office, e: Event, node: NodeId, token: Token)
    requires Enabled(o, e) && !e.Restart? && Unoffered(o, node, token) && Lacks(node, token)(o.desk.tokens)
    ensures Lacks(node, token)(Step(cfg, o, e).desk.tokens)
  {
    if e.TokenStored? {
      assert !Offers(o.conns[e.conn], node, token);
    }
  }

  lemma {:induction false} RetiredStays(cfg: EnrollConfig, o: Office, events: seq<Event>, t: Office, node: NodeId,
                                        token: Token)
    requires StoreInv(o.store) && Retired(o, node, token) && Reaches(cfg, o, events, t)
    ensures Retired(t, node, token)
    decreases |events|
  {
    if events != [] {
      StoreStep(cfg, o, events[0]);
      if !events[0].Restart? {
        LackedStep(cfg, o, events[0], node, token);
      }
      EverywhereStep(cfg, o, events[0], Lacks(node, token));
      RetiredStays(cfg, Step(cfg, o, events[0]), events[1..], t, node, token);
    }
  }

  /** A retired token never admits the node again, over any number of crashes and restarts,
      unless it is also a configured enrolment token. */
  lemma RetiredNeverAdmits(cfg: EnrollConfig, o: Office, events: seq<Event>, t: Office, node: NodeId, token: Token,
                           minted: Token)
    requires Reachable(cfg, o) && Retired(o, node, token) && Reaches(cfg, o, events, t)
    ensures TokenOf(t.desk.tokens, node) != Some(Hash(token))
    ensures var a := Authenticate(cfg, t.desk.tokens, node, token, minted);
            a.Rejected? || (a.basis.None? && MatchToken(cfg.enrollmentHashes, token))
  {
    ReachableFile(cfg, o);
    RetiredStays(cfg, o, events, t, node, token);
  }

  // ----- The condition is exact -----

  /** The token of the connection can still become the node's. */
  lemma Binds(cfg: EnrollConfig, o: Office, i: nat) returns (events: seq<Event>, t: Office)
    requires i < |o.conns| && Offering(o.conns[i]) && o.conns[i].basis.None?
    ensures Reaches(cfg, o, events, t) && TokenOf(t.desk.tokens, o.conns[i].node) == Some(Hash(o.conns[i].issued))
  {
    if o.conns[i].node in o.desk.tokens {
      var revoke := Revoke(o.conns[i].node);
      events, t := BindsFree(cfg, Step(cfg, o, revoke), i);
      ReachesFirst(cfg, o, revoke, events, t);
      events := [revoke] + events;
    } else {
      events, t := BindsFree(cfg, o, i);
    }
  }

  lemma BindsFree(cfg: EnrollConfig, o: Office, i: nat) returns (events: seq<Event>, t: Office)
    requires i < |o.conns| && Offering(o.conns[i]) && o.conns[i].basis.None? && o.conns[i].node !in o.desk.tokens
    ensures Reaches(cfg, o, events, t) && TokenOf(t.desk.tokens, o.conns[i].node) == Some(Hash(o.conns[i].issued))
    decreases match o.conns[i].stage case Authenticated => 2 case Registered => 1 case _ => 0
  {
    var e := match o.conns[i].stage
             case Authenticated => Registers(i)
             case Registered => AckSent(i)
             case _ => TokenStored(i);
    var next := Step(cfg, o, e);
    if e.TokenStored? {
      ReachesNow(cfg, next);
      events, t := [], next;
    } else {
      events, t := BindsFree(cfg, next, i);
    }
    ReachesFirst(cfg, o, e, events, t);
    events := [e] + events;
  }

  /** A run after which the token is the node's. */
  lemma Revives(cfg: EnrollConfig, o: Office, node: NodeId, token: Token) returns (events: seq<Event>, t: Office)
    requires FileInv(o) && token in o.minted && !Retired(o, node, token)
    ensures Reaches(cfg, o, events, t) && TokenOf(t.desk.tokens, node) == Some(Hash(token))
  {
    if !Lacks(node, token)(o.desk.tokens) {
      ReachesNow(cfg, o);
      events, t := [], o;
    } else if !Unoffered(o, node, token) {
      var i :| 0 <= i < |o.conns| && Offers(o.conns[i], node, token);
      events, t := Binds(cfg, o, i);
    } else {
      var n: nat :| Live(o.store, n) && !(n <= |o.store.log| && Lacks(node, token)(Content(o.store, n)));
      events, t := Restores(cfg, o, n);
    }
  }

  lemma NotRetired(cfg: EnrollConfig, o: Office, events: seq<Event>, t: Office, node: NodeId, token: Token)
    requires Reaches(cfg, o, events, t) && TokenOf(t.desk.tokens, node) == Some(Hash(token))
    ensures !forall events, t :: Reaches(cfg, o, events, t) ==> TokenOf(t.desk.tokens, node) != Some(Hash(token))
  {
  }

  /** A token that was minted is not the node's in any state of any later run, crashes
      included, if and only if it is retired now. */
  lemma RetiredIsExact(cfg: EnrollConfig, o: Office, node: NodeId, token: Token)
    requires Reachable(cfg, o) && token in o.minted
    ensures Retired(o, node, token) <==>
            forall events, t :: Reaches(cfg, o, events, t) ==> TokenOf(t.desk.tokens, node) != Some(Hash(token))
  {
    ReachableFile(cfg, o);
    if Retired(o, node, token) {
      forall events, t | Reaches(cfg, o, events, t)
        ensures TokenOf(t.desk.tokens, node) != Some(Hash(token))
      {
        RetiredStays(cfg, o, events, t, node, token);
      }
    } else {
      var events, t := Revives(cfg, o, node, token);
      NotRetired(cfg, o, events, t, node, token);
    }
  }

  // ----- From the change on -----

  predicate NoRestart(events: seq<Event>) { forall e :: e in events ==> !e.Restart? }

  /** The event is an administrator's change of the node's token. */
  predicate Changes(e: Event, node: NodeId) {
    (e.Rotate? || e.Revoke? || e.DeleteNode?) && e.node == node
  }

  lemma {:induction false} LackedSince(cfg: EnrollConfig, o: Office, events: seq<Event>, t: Office, node: NodeId,
                                       token: Token, k: nat)
    requires StoreInv(o.store) && Since(o, Lacks(node, token), k) && Unoffered(o, node, token)
    requires Reaches(cfg, o, events, t) && NoRestart(events)
    ensures StoreInv(t.store) && Since(t, Lacks(node, token), k) && Unoffered(t, node, token)
    decreases |events|
  {
    if events != [] {
      assert events[0] in events;
      StoreStep(cfg, o, events[0]);
      LackedStep(cfg, o, events[0], node, token);
      SinceStep(cfg, o, events[0], Lacks(node, token), k);
      LackedSince(cfg, Step(cfg, o, events[0]), events[1..], t, node, token, k);
    }
  }

  /** A token that an administrator replaced or revoked is retired as soon as a snapshot taken
      after the change has been written, by the request itself or by anyone else. */
  lemma ChangeRetires(cfg: EnrollConfig, o: Office, e: Event, node: NodeId, token: Token, events: seq<Event>, t: Office)
    requires Reachable(cfg, o) && Enabled(o, e) && Changes(e, node) && TokenOf(o.desk.tokens, node) == Some(Hash(token))
    requires Reaches(cfg, Step(cfg, o, e), events, t) && NoRestart(events) && t.store.writtenSeq > |o.store.log|
    ensures Retired(t, node, token)
  {
    ReachableFile(cfg, o);
    FileStep(cfg, o, e);
    LackedSince(cfg, Step(cfg, o, e), events, t, node, token, |o.store.log| + 1);
    WrittenLiveAll(t.store, Lacks(node, token), |o.store.log| + 1);
  }

  // ----- A token that stays the node's -----

  function Has(node: NodeId, token: Token): Table -> bool {
    (tokens: Table) => TokenOf(tokens, node) == Some(Hash(token))
  }

  /** The token is the node's in memory, in the file and in every snapshot that may still
      replace the file. */
  ghost predicate Settled(o: Office, node: NodeId, token: Token) { Everywhere(o, Has(node, token)) }

  /** No administrator changes the node's token, and the file is not lost. */
  predicate LeavesAlone(e: Event, node: NodeId) { !Changes(e, node) && !(e.Restart? && e.fileLost) }

  predicate Undisturbed(events: seq<Event>, node: NodeId) { forall e :: e in events ==> LeavesAlone(e, node) }

  lemma {:induction false} SettledStays(cfg: EnrollConfig, o: Office, events: seq<Event>, t: Office, node: NodeId,
                                        token: Token)
    requires StoreInv(o.store) && Settled(o, node, token) && Reaches(cfg, o, events, t) && Undisturbed(events, node)
    ensures Settled(t, node, token)
    decreases |events|
  {
    if events != [] {
      assert events[0] in events;
      StoreStep(cfg, o, events[0]);
      EverywhereStep(cfg, o, events[0], Has(node, token));
      SettledStays(cfg, Step(cfg, o, events[0]), events[1..], t, node, token);
    }
  }

  lemma Unsettles(cfg: EnrollConfig, o: Office, node: NodeId, token: Token) returns (events: seq<Event>, t: Office)
    requires StoreInv(o.store) && !Settled(o, node, token)
    ensures Reaches(cfg, o, events, t) && Undisturbed(events, node) && TokenOf(t.desk.tokens, node) != Some(Hash(token))
  {
    if Has(node, token)(o.desk.tokens) {
      var n: nat :| Live(o.store, n) && !(n <= |o.store.log| && Has(node, token)(Content(o.store, n)));
      events, t := Restores(cfg, o, n);
    } else {
      ReachesNow(cfg, o);
      events, t := [], o;
    }
  }

  lemma NotSettled(cfg: EnrollConfig, o: Office, events: seq<Event>, t: Office, node: NodeId, token: Token)
    requires Reaches(cfg, o, events, t) && Undisturbed(events, node) && TokenOf(t.desk.tokens, node) != Some(Hash(token))
    ensures !forall events, t :: Reaches(cfg, o, events, t) && Undisturbed(events, node) ==>
              TokenOf(t.desk.tokens, node) == Some(Hash(token))
  {
  }

  /** While no administrator changes it and the file is not lost, the token is the node's in
      every state of every later run, crashes included, if and only if it is in memory and
      in every live snapshot now. */
  lemma SettledIsExact(cfg: EnrollConfig, o: Office, node: NodeId, token: Token)
    requires Reachable(cfg, o)
    ensures Settled(o, node, token) <==>
            forall events, t :: Reaches(cfg, o, events, t) && Undisturbed(events, node) ==>
              TokenOf(t.desk.tokens, node) == Some(Hash(token))
  {
    ReachableFile(cfg, o);
    if Settled(o, node, token) {
      forall events, t | Reaches(cfg, o, events, t) && Undisturbed(events, node)
        ensures TokenOf(t.desk.tokens, node) == Some(Hash(token))
      {
        SettledStays(cfg, o, events, t, node, token);
      }
    } else {
      var events, t := Unsettles(cfg, o, node, token);
      NotSettled(cfg, o, events, t, node, token);
    }
  }

  /** A settled token always admits its node, over any number of crashes and restarts, until
      an administrator changes it or the file is lost. */
  lemma SettledAlwaysAdmits(cfg: EnrollConfig, o: Office, events: seq<Event>, t: Office, node: NodeId, token: Token,
                            minted: Token)
    requires Reachable(cfg, o) && token != "" && Settled(o, node, token)
    requires Reaches(cfg, o, events, t) && Undisturbed(events, node)
    ensures Authenticate(cfg, t.desk.tokens, node, token, minted) == Admission("", Some(Hash(token)))
  {
    ReachableFile(cfg, o);
    SettledStays(cfg, o, events, t, node, token);
  }

  /** A node without a token is admitted exactly by an enrolment token while enrolment is
      open, and is then issued the token minted for it. */
  lemma EnrolmentAdmits(cfg: EnrollConfig, o: Office, node: NodeId, token: Token, minted: Token)
    requires Reachable(cfg, o) && Current(o.changes, node) == None
    ensures Authenticate(cfg, o.desk.tokens, node, token, minted) ==
            if cfg.open && token != "" && Hash(token) in cfg.enrollmentHashes then Admission(minted, None) else Rejected
  {
    ReachableInv(cfg, o);
    assert TokenOf(o.desk.tokens, node) == Current(o.changes, node);
  }

  lemma {:induction false} HadSince(cfg: EnrollConfig, o: Office, events: seq<Event>, t: Office, node: NodeId,
                                    token: Token, k: nat)
    requires StoreInv(o.store) && Since(o, Has(node, token), k)
    requires Reaches(cfg, o, events, t) && NoRestart(events) && Undisturbed(events, node)
    ensures StoreInv(t.store) && Since(t, Has(node, token), k)
    decreases |events|
  {
    if events != [] {
      assert events[0] in events;
      StoreStep(cfg, o, events[0]);
      SinceStep(cfg, o, events[0], Has(node, token), k);
      HadSince(cfg, Step(cfg, o, events[0]), events[1..], t, node, token, k);
    }
  }

  /** Once a snapshot taken after a confirmation has been written, the node has that token
      over crashes and restarts, and no other enrolment of the node is confirmed, until an
      administrator changes the token or the file is lost. */
  lemma ConfirmedOnceAndForAll(cfg: EnrollConfig, o: Office, i: nat, events: seq<Event>, t: Office, later: seq<Event>,
                               u: Office)
    requires Reachable(cfg, o) && Enabled(o, TokenStored(i)) && o.conns[i].issued != ""
    requires o.conns[i].node !in o.desk.tokens
    requires Reaches(cfg, Step(cfg, o, TokenStored(i)), events, t) && NoRestart(events)
    requires Undisturbed(events, o.conns[i].node) && t.store.writtenSeq > |o.store.log|
    requires Reaches(cfg, t, later, u) && Undisturbed(later, o.conns[i].node)
    ensures Settled(u, o.conns[i].node, o.conns[i].issued)
    ensures forall j: nat :: Enabled(u, TokenStored(j)) && u.conns[j].node == o.conns[i].node ==>
              Step(cfg, u, TokenStored(j)).changes == u.changes
  {
    var node, token := o.conns[i].node, o.conns[i].issued;
    ReachableFile(cfg, o);
    StoreStep(cfg, o, TokenStored(i));
    HadSince(cfg, Step(cfg, o, TokenStored(i)), events, t, node, token, |o.store.log| + 1);
    WrittenLiveAll(t.store, Has(node, token), |o.store.log| + 1);
    SettledStays(cfg, t, later, u, node, token);
  }

  // ----- Who may bind after a change has returned -----

  /** After a change of the node's token has returned, a token_stored binds only on a
      connection that presented an enrolment token when the node had no token: one that
      registered after the change, or one from before that is closed and has not noticed. */
  lemma BindsAfterReturnedChange(cfg: EnrollConfig, o: Office, j: nat, i: nat)
    requires Reachable(cfg, o) && j < |o.requests| && o.requests[j].stage.Returned?
    requires Enabled(o, TokenStored(i)) && o.conns[i].node == o.requests[j].node
    requires Step(cfg, o, TokenStored(i)).desk.tokens != o.desk.tokens
    ensures var c := o.conns[i];
            && cfg.open && MatchToken(cfg.enrollmentHashes, c.presented)
            && c.registeredAt <= |o.changes| && Current(o.changes[..c.registeredAt], c.node) == None
            && Current(o.changes, c.node) == None
            && (c.registeredAt >= o.requests[j].number || i in o.desk.closed)
  {
    ReachableInv(cfg, o);
    ReachableFile(cfg, o);
    var c := o.conns[i];
    assert Offering(c);
    assert BasisOk(cfg, c) && RegisteredOk(o, c);
    assert RequestOk(o, o.requests[j]);
    assert TokenOf(o.desk.tokens, c.node) == Current(o.changes, c.node);
    assert i !in o.desk.closed ==> Open(o, i);
  }
}
