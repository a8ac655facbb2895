/** The master's token table and registry as objects: their critical sections in place,
    proved against the functions that the enrolment machine is made of. */
module EnrollmentDesk {
  import opened Types
  import opened Enrollment

  class Registry {
    var clients: map<NodeId, ConnId>
    var closed: set<ConnId>

    constructor ()
      ensures clients == map[] && closed == {}
    {
      clients, closed := map[], {};
    }

    method Set(node: NodeId, conn: ConnId)
      modifies this
      ensures forall d: Desk :: d.registry == old(clients) && d.closed == old(closed) ==>
                SetClient(d, node, conn) == d.(registry := clients, closed := closed)
    {
      if node in clients {
        closed := closed + {clients[node]};
      }
      clients := clients[node := conn];
    }

    method RemoveIfMatch(node: NodeId, conn: ConnId)
      modifies this`clients
      ensures node in old(clients) && old(clients)[node] == conn ==> clients == old(clients) - {node}
      ensures !(node in old(clients) && old(clients)[node] == conn) ==> clients == old(clients)
    {
      if node !in clients || clients[node] != conn {
        return;
      }
      clients := clients - {node};
    }

    method Get(node: NodeId) returns (client: Option<ConnId>)
      ensures client.Some? <==> node in clients
      ensures client.Some? ==> client.value == clients[node]
    {
      client := if node in clients then Some(clients[node]) else None;
    }

    method CloseClient(conn: ConnId)
      modifies this`closed
      ensures closed == old(closed) + {conn}
    {
      closed := closed + {conn};
    }
  }

  /** Whether the candidate's digest is among the hashes; every entry is compared. */
  method MatchesAny(hashes: seq<Hash>, candidate: Token) returns (matched: bool)
    ensures matched <==> MatchToken((set i | 0 <= i < |hashes| :: hashes[i]), candidate)
  {
    if candidate == "" {
      return false;
    }
    matched := false;
    for i := 0 to |hashes|
      invariant matched <==> exists j :: 0 <= j < i && hashes[j] == Hash(candidate)
    {
      matched := matched || hashes[i] == Hash(candidate);
    }
  }

  class TokenDesk {
    const open: bool
    const enrollmentHashes: seq<Hash>
    const registry: Registry
    var nodeTokens: map<NodeId, Hash>

    ghost function D(): Desk
      reads this, registry
    {
      Desk(nodeTokens, registry.clients, registry.closed)
    }

    ghost function Cfg(): EnrollConfig {
      EnrollConfig(open, set i | 0 <= i < |enrollmentHashes| :: enrollmentHashes[i])
    }

    constructor (open: bool, enrollmentHashes: seq<Hash>, tokens: map<NodeId, Hash>)
      ensures D() == Desk(tokens, map[], {}) && fresh(registry)
      ensures this.open == open && this.enrollmentHashes == enrollmentHashes
    {
      this.open, this.enrollmentHashes, nodeTokens := open, enrollmentHashes, tokens;
      registry := new Registry();
    }

    method AuthenticateNode(node: NodeId, token: Token, minted: Token) returns (a: Admission)
      ensures a == Authenticate(Cfg(), nodeTokens, node, token, minted)
    {
      if node in nodeTokens {
        var hashes := [nodeTokens[node]];
        var matched := MatchesAny(hashes, token);
        assert (set i | 0 <= i < |hashes| :: hashes[i]) == {nodeTokens[node]} by {
          assert hashes[0] == nodeTokens[node];
        }
        return if matched then Admission("", Some(nodeTokens[node])) else Rejected;
      }
      if !open {
        return Rejected;
      }
      var matched := MatchesAny(enrollmentHashes, token);
      return if matched then Admission(minted, None) else Rejected;
    }

    method RegisterIfTokenUnchanged(node: NodeId, conn: ConnId, basis: Option<Hash>) returns (registered: bool)
      modifies registry
      ensures registered <==> TokenOf(nodeTokens, node) == basis
      ensures D() == if registered then SetClient(old(D()), node, conn) else old(D())
    {
      var current := if node in nodeTokens then Some(nodeTokens[node]) else None;
      if current != basis {
        return false;
      }
      registry.Set(node, conn);
      return true;
    }

    method ConfirmIssuedToken(node: NodeId, token: Token) returns (bound: bool)
      modifies this
      ensures bound <==> node !in old(nodeTokens)
      ensures D() == if bound then Bind(old(D()), node, token) else old(D())
    {
      if node in nodeTokens {
        return false;
      }
      nodeTokens := nodeTokens[node := Hash(token)];
      return true;
    }

    /** Afterwards no connection that was registered for the node is open. */
    method IssueNodeToken(node: NodeId, token: Token)
      modifies this, registry
      ensures D() == (if node in old(D()).registry then Close(Bind(old(D()), node, token), old(D()).registry[node])
                      else Bind(old(D()), node, token))
    {
      nodeTokens := nodeTokens[node := Hash(token)];
      DisconnectNode(node);
    }

    method RemoveNodeToken(node: NodeId) returns (removed: bool)
      modifies this
      ensures removed <==> node in old(nodeTokens)
      ensures D() == Unbind(old(D()), node)
    {
      if node !in nodeTokens {
        return false;
      }
      nodeTokens := nodeTokens - {node};
      return true;
    }

    method DisconnectNode(node: NodeId)
      modifies registry
      ensures D() == if node in old(D()).registry then Close(old(D()), old(D()).registry[node]) else old(D())
    {
      var client := registry.Get(node);
      if client.Some? {
        registry.CloseClient(client.value);
      }
    }
  }
}
