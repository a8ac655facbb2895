/** The slave's client object: its critical sections in place, proved against the
    functions that the slave machine is made of. */
module SlaveClient {
  import opened Types
  import opened Persist
  import opened Slave
  import Retention

  class Client {
    const cfg: SlaveConfig
    const file: StateFile<Disk>
    var issuedToken: Token
    var commandStates: map<CommandId, Ack>
    var executions: map<CommandId, Session>

    ghost predicate Valid()
      reads this, file
    {
      file.Valid()
    }

    ghost function Mem(): Memory
      reads this
    {
      Memory(issuedToken, commandStates, executions)
    }

    /** loadState. */
    constructor (cfg: SlaveConfig, disk: Disk)
      ensures Valid() && fresh(file) && this.cfg == cfg && file.store == Fresh(disk)
      ensures Mem() == Memory(disk.issuedToken, disk.states, map[])
    {
      this.cfg := cfg;
      issuedToken, commandStates, executions := disk.issuedToken, disk.states, map[];
      file := new StateFile(disk);
    }

    /** The states without an execution, with the times they are ordered by. */
    method Candidates() returns (at: map<CommandId, Time>)
      ensures at == AckTimes(Mem())
    {
      at := map[];
      var pending := commandStates.Keys;
      while pending != {}
        invariant pending <= commandStates.Keys
        invariant at.Keys == commandStates.Keys - executions.Keys - pending
        invariant forall id :: id in at ==> at[id] == commandStates[id].ackedAt
        decreases pending
      {
        var id :| id in pending;
        if id !in executions {
          at := at[id := commandStates[id].ackedAt];
        }
        pending := pending - {id};
      }
    }

    method DropStates(evicted: set<CommandId>)
      modifies this`commandStates
      ensures commandStates == old(commandStates) - evicted
    {
      var left := evicted;
      while left != {}
        invariant left <= evicted
        invariant commandStates == old(commandStates) - (evicted - left)
        decreases left
      {
        var id :| id in left;
        commandStates := commandStates - {id};
        left := left - {id};
      }
      assert evicted - left == evicted;
    }

    method PruneCommandStates() returns (ghost dropped: set<CommandId>)
      modifies this`commandStates
      ensures Prunes(old(Mem()), dropped) && Mem() == Drop(old(Mem()), dropped)
    {
      var at := Candidates();
      var evicted := Retention.FindEvicted(at, |commandStates| - MAX_RETAINED_STATES);
      dropped := evicted;
      DropStates(evicted);
    }

    /** Records a state, prunes, and writes the snapshot; `ok` is the result of the write,
        which only the log sees. */
    method SetCommandState(id: CommandId, ack: Ack, ok: bool) returns (ghost dropped: set<CommandId>)
      requires Valid()
      modifies this`commandStates, file
      ensures Valid()
      ensures Prunes(WithState(old(Mem()), id, ack), dropped)
      ensures Mem() == Drop(WithState(old(Mem()), id, ack), dropped)
      ensures file.store == if cfg.hasStateFile
                            then Write(Take(old(file.store), Capture(Mem())), |old(file.store).log| + 1, ok)
                            else old(file.store)
    {
      commandStates := commandStates[id := ack];
      dropped := PruneCommandStates();
      if cfg.hasStateFile {
        var content := Disk(issuedToken, commandStates);
        var number := file.Snapshot(content);
        file.PersistState(number, content, ok);
      }
    }

    method BeginOrRebind(id: CommandId, session: Session) returns (starts: bool)
      modifies this`executions
      ensures Mem() == Rebind(old(Mem()), id, session)
      ensures starts <==> id !in old(executions)
    {
      if id in executions {
        executions := executions[id := session];
        starts := false;
      } else {
        executions := executions[id := session];
        starts := true;
      }
    }

    method FinishExecution(id: CommandId)
      modifies this`executions
      ensures Mem() == Finish(old(Mem()), id)
    {
      executions := executions - {id};
    }

    method RegisterToken() returns (token: Token, issued: bool)
      ensures issued <==> issuedToken != ""
      ensures token == if issued then issuedToken else cfg.token
    {
      if issuedToken != "" {
        return issuedToken, true;
      }
      return cfg.token, false;
    }

    /** Stores or clears the issued token before returning: on success it is on disk, and on
        failure both the memory and the file hold what they held. */
    method SetIssuedToken(token: Token, ok: bool) returns (stored: bool)
      requires Valid()
      modifies this`issuedToken, file
      ensures Valid()
      ensures stored <==> cfg.hasStateFile && ok
      ensures stored ==> issuedToken == token && file.disk == Disk(token, commandStates)
      ensures !stored ==> issuedToken == old(issuedToken) && file.disk == old(file.disk)
    {
      var previous := issuedToken;
      issuedToken := token;
      if !cfg.hasStateFile {
        issuedToken := previous;
        return false;
      }
      var content := Disk(issuedToken, commandStates);
      var number := file.Snapshot(content);
      file.PersistState(number, content, ok);
      if !ok {
        if issuedToken == token {
          issuedToken := previous;
        }
        return false;
      }
      return true;
    }
  }
}
