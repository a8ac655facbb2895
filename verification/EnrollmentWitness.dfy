/** Runs of the token protocol, event by event from the master's first start: a revocation that
    a crash undoes, two confirmations with no revocation between them, and a connection that
    binds its token after it was closed. */
module EnrollmentWitness {
  import opened Types
  import opened Persist
  import opened Enrollment
  import opened EnrollmentRuns
  import opened EnrollmentRestarts

  const CFG := EnrollConfig(true, {Hash("e")})

  lemma {:induction false} ReachesMore(cfg: EnrollConfig, o: Office, events: seq<Event>, t: Office, e: Event)
    requires Reaches(cfg, o, events, t) && Enabled(t, e)
    ensures Reaches(cfg, o, events + [e], Step(cfg, t, e))
    decreases |events|
  {
    if events == [] {
      assert (events + [e])[1..] == [];
    } else {
      ReachesMore(cfg, Step(cfg, o, events[0]), events[1..], t, e);
      assert (events + [e])[1..] == events[1..] + [e];
    }
  }

  lemma Goes(o: Office, e: Event) returns (t: Office)
    requires Reachable(CFG, o) && Enabled(o, e)
    ensures Reachable(CFG, t) && t == Step(CFG, o, e)
  {
    var events :| Reaches(CFG, FIRST_OFFICE, events, o);
    ReachesMore(CFG, FIRST_OFFICE, events, o, e);
    t := Step(CFG, o, e);
  }

  lemma Starts() returns (o: Office)
    ensures Reachable(CFG, o) && o == FIRST_OFFICE
  {
    ReachesNow(CFG, FIRST_OFFICE);
    o := FIRST_OFFICE;
  }

  /** A request goes from its change to its snapshot and its write. */
  lemma SavesChange(o: Office, j: nat, ok: bool) returns (t: Office)
    requires Reachable(CFG, o) && j < |o.requests| && o.requests[j].stage.ToSave?
    ensures Reachable(CFG, t)
    ensures var number := |o.store.log| + 1;
            t == o.(requests := o.requests[j := o.requests[j].(saved := number, stage := ToDisconnect)],
                    store := Write(Take(o.store, o.desk.tokens), number, ok))
  {
    var v := Goes(o, SaveChange(j));
    t := Goes(v, WriteChange(j, ok));
    assert t.requests == o.requests[j := o.requests[j].(saved := |o.store.log| + 1, stage := ToDisconnect)];
  }

  // ----- A revocation that a crash undoes -----

  lemma Rotates() returns (o: Office)
    ensures Reachable(CFG, o) && o.desk == Desk(map["n" := Hash("t")], map[], {}) && |o.requests| == 1
    ensures StoreInv(o.store) && o.store.disk == map["n" := Hash("t")]
  {
    var v := Starts();
    v := Goes(v, Rotate("n", "t"));
    o := SavesChange(v, 0, true);
    ReachableFile(CFG, o);
  }

  /** The revocation has returned, but its write has failed. */
  lemma RevocationReturns() returns (o: Office)
    ensures Reachable(CFG, o) && "n" !in o.desk.tokens && o.store.disk == map["n" := Hash("t")]
    ensures |o.requests| == 2 && o.requests[1].stage.Returned? && o.requests[1].node == "n"
    ensures 1 <= o.requests[1].number <= |o.changes| && o.changes[o.requests[1].number - 1] == Revoked("n")
  {
    var v := Rotates();
    v := Goes(v, Revoke("n"));
    v := SavesChange(v, 1, false);
    o := Goes(v, Disconnect(1));
  }

  /** After a crash the revoked token admits the node again. */
  lemma RevocationIsForgotten() returns (o: Office)
    ensures Reachable(CFG, o) && "n" !in o.desk.tokens
    ensures |o.requests| == 2 && o.requests[1].stage.Returned? && o.requests[1].node == "n"
    ensures 1 <= o.requests[1].number <= |o.changes| && o.changes[o.requests[1].number - 1] == Revoked("n")
    ensures Enabled(o, Restart(false))
    ensures Authenticate(CFG, Step(CFG, o, Restart(false)).desk.tokens, "n", "t", "m") == Admission("", Some(Hash("t")))
  {
    o := RevocationReturns();
  }

  // ----- An enrolment -----

  /** The node enrols on its first connection and is issued a token. */
  lemma Enrols(o: Office, minted: Token) returns (t: Office)
    requires Reachable(CFG, o) && "n" !in o.desk.tokens && o.conns == [] && FreshToken(o, minted)
    ensures Reachable(CFG, t) && |t.conns| == 1
    ensures t.conns[0] == Conn("n", None, "e", None, minted, Served, |o.changes|)
    ensures t.desk == SetClient(o.desk, "n", 0) && t.requests == o.requests && t.changes == o.changes
    ensures t.store == o.store && t.minted == o.minted + {minted}
  {
    var v := Goes(o, Authenticates("n", "e", None, minted));
    assert v.conns == [Conn("n", None, "e", None, minted, Authenticated, 0)];
    v := Goes(v, Registers(0));
    t := Goes(v, AckSent(0));
  }

  lemma EnrolsFirst() returns (o: Office)
    ensures Reachable(CFG, o) && |o.conns| == 1 && o.conns[0] == Conn("n", None, "e", None, "t0", Served, 0)
    ensures o.desk == Desk(map[], map["n" := 0], {}) && o.requests == [] && o.changes == []
    ensures o.store == Fresh(map[]) && o.minted == {"t0"}
  {
    var v := Starts();
    o := Enrols(v, "t0");
  }

  lemma ConfirmsFirst() returns (o: Office)
    ensures Reachable(CFG, o) && o.changes == [Confirmed("n", "t0")] && o.store == Fresh(map[]) && o.minted == {"t0"}
  {
    var v := EnrolsFirst();
    o := Goes(v, TokenStored(0));
  }

  /** A crash before the first confirmation is written: the node enrols again. */
  lemma ConfirmsTwice() returns (o: Office)
    ensures Reachable(CFG, o)
    ensures o.changes == [Confirmed("n", "t0"), Reloaded(map[]), Confirmed("n", "t1")]
  {
    var v := ConfirmsFirst();
    v := Goes(v, Restart(false));
    v := Enrols(v, "t1");
    o := Goes(v, TokenStored(0));
  }

  // ----- A closed connection that binds -----

  lemma RotatedWhileEnrolling() returns (o: Office)
    ensures Reachable(CFG, o) && |o.conns| == 1 && o.conns[0] == Conn("n", None, "e", None, "t0", Served, 0)
    ensures o.desk == Desk(map["n" := Hash("t1")], map["n" := 0], {0}) && |o.requests| == 1 && |o.changes| == 1
    ensures o.minted == {"t0", "t1"}
  {
    var v := EnrolsFirst();
    v := Goes(v, Rotate("n", "t1"));
    v := SavesChange(v, 0, true);
    v := Goes(v, Disconnect(0));
    o := Goes(v, CloseFetched(0));
  }

  /** The node's token is rotated and then revoked while it enrols. Both requests have
      returned and its connection is closed, but the goroutine that serves it goes on to
      bind the token it had issued before. */
  lemma ClosedConnectionBinds() returns (o: Office)
    ensures Reachable(CFG, o) && |o.requests| == 2 && o.requests[1].stage.Returned? && o.requests[1].node == "n"
    ensures Enabled(o, TokenStored(0)) && 0 in o.desk.closed && o.conns[0].registeredAt < o.requests[1].number
    ensures "n" !in o.desk.tokens && TokenOf(Step(CFG, o, TokenStored(0)).desk.tokens, "n") == Some(Hash("t0"))
  {
    var v := RotatedWhileEnrolling();
    v := Goes(v, Revoke("n"));
    v := SavesChange(v, 1, true);
    v := Goes(v, Disconnect(1));
    o := Goes(v, CloseFetched(1));
  }
}
