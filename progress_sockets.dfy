/** The WebSocket progress server: a registry from audit id to the set of subscribed
    sockets, mutated in place by connection and close events, and a broadcast that
    sends one frame to every open subscriber of an audit. */
module ProgressSockets {
  import opened Wrappers

  /** A client connection, by identity. */
  datatype Socket = Socket(handle: nat)

  datatype AuditProgress = AuditProgress(id: string, status: string, progress: int, currentStep: string)

  /** `client.send(JSON.stringify(progress))`: the frame and the socket it went to. */
  datatype Frame = Frame(to: Socket, data: AuditProgress)

  type Registry = map<string, set<Socket>>

  /** No audit id is kept with an empty subscriber set. */
  predicate NoEmptySets(c: Registry) {
    forall id :: id in c ==> c[id] != {}
  }

  /** `addClient`: create the set if absent, then add the socket. */
  function Added(c: Registry, auditId: string, ws: Socket): (r: Registry)
    ensures auditId in r && ws in r[auditId]
    ensures r.Keys == c.Keys + {auditId}
    ensures auditId in c ==> r[auditId] == c[auditId] + {ws}
    ensures forall id :: id in c && id != auditId ==> r[id] == c[id]
  {
    if auditId in c then c[auditId := c[auditId] + {ws}] else c[auditId := {ws}]
  }

  /** `removeClient`: delete the socket, then drop the id once its set is empty. */
  function Removed(c: Registry, auditId: string, ws: Socket): (r: Registry)
    ensures auditId !in c ==> r == c
    ensures auditId in r ==> ws !in r[auditId] && r[auditId] == c[auditId] - {ws}
    ensures auditId in c ==> (auditId !in r <==> c[auditId] - {ws} == {})
    ensures r.Keys <= c.Keys
    ensures forall id :: id in c && id != auditId ==> id in r && r[id] == c[id]
  {
    if auditId !in c then c
    else if c[auditId] - {ws} == {} then c - {auditId}
    else c[auditId := c[auditId] - {ws}]
  }

  /** The sockets `broadcastProgress` sends to. */
  function Recipients(c: Registry, auditId: string, open: set<Socket>): (r: set<Socket>)
    ensures auditId !in c ==> r == {}
    ensures forall s :: s in r <==> auditId in c && s in c[auditId] && s in open
  {
    if auditId in c then c[auditId] * open else {}
  }

  function FramesTo(sockets: seq<Socket>, p: AuditProgress): (r: seq<Frame>)
    ensures |r| == |sockets|
    ensures forall i :: 0 <= i < |r| ==> r[i] == Frame(sockets[i], p)
  {
    seq(|sockets|, i requires 0 <= i < |sockets| => Frame(sockets[i], p))
  }

  predicate Distinct(s: seq<Socket>) {
    forall i, j :: 0 <= i < j < |s| ==> s[i] != s[j]
  }

  lemma AddedKeepsNoEmptySets(c: Registry, auditId: string, ws: Socket)
    requires NoEmptySets(c)
    ensures NoEmptySets(Added(c, auditId, ws))
  {
  }

  lemma RemovedKeepsNoEmptySets(c: Registry, auditId: string, ws: Socket)
    requires NoEmptySets(c)
    ensures NoEmptySets(Removed(c, auditId, ws))
  {
  }

  /** Adding a socket that is already registered changes nothing. */
  lemma AddTwiceIsAddOnce(c: Registry, auditId: string, ws: Socket)
    ensures Added(Added(c, auditId, ws), auditId, ws) == Added(c, auditId, ws)
  {
    var once := Added(c, auditId, ws);
    assert once[auditId] + {ws} == once[auditId];
    assert once[auditId := once[auditId]] == once;
  }

  /** Registering a new socket and then closing it restores the registry. */
  lemma AddThenRemoveRestores(c: Registry, auditId: string, ws: Socket)
    requires NoEmptySets(c)
    requires auditId in c ==> ws !in c[auditId]
    ensures Removed(Added(c, auditId, ws), auditId, ws) == c
  {
    var r := Removed(Added(c, auditId, ws), auditId, ws);
    if auditId in c {
      assert c[auditId] + {ws} - {ws} == c[auditId];
    }
    assert r.Keys == c.Keys;
  }

  class ProgressServer {
    var clients: Registry
    /** The sockets closed by the connection guard, in order. */
    var closed: seq<Socket>
    /** Every frame sent so far, in order. */
    var sent: seq<Frame>

    constructor ()
      ensures clients == map[] && closed == [] && sent == []
    {
      clients := map[];
      closed := [];
      sent := [];
    }

    predicate Valid()
      reads this
    {
      NoEmptySets(clients)
    }

    method AddClient(auditId: string, ws: Socket)
      requires Valid()
      modifies this`clients
      ensures Valid()
      ensures clients == Added(old(clients), auditId, ws)
    {
      if auditId !in clients {
        clients := clients[auditId := {}];
      }
      assert clients[auditId] + {ws} == Added(old(clients), auditId, ws)[auditId];
      clients := clients[auditId := clients[auditId] + {ws}];
      assert clients.Keys == Added(old(clients), auditId, ws).Keys;
    }

    method RemoveClient(auditId: string, ws: Socket)
      requires Valid()
      modifies this`clients
      ensures Valid()
      ensures clients == Removed(old(clients), auditId, ws)
    {
      if auditId in clients {
        clients := clients[auditId := clients[auditId] - {ws}];
        if clients[auditId] == {} {
          clients := clients - {auditId};
        }
      }
    }

    /** The `connection` handler: a socket with no `auditId` query value is closed
        and never registered. */
    method OnConnection(auditId: Option<string>, ws: Socket)
      requires Valid()
      modifies this`clients, this`closed
      ensures Valid()
      ensures !Truthy(auditId) ==> clients == old(clients) && closed == old(closed) + [ws]
      ensures Truthy(auditId) ==> clients == Added(old(clients), auditId.value, ws) && closed == old(closed)
    {
      if !Truthy(auditId) {
        closed := closed + [ws];
        return;
      }
      AddClient(auditId.value, ws);
    }

    /** The socket's `close` handler, registered for a connection under `auditId`. */
    method OnClose(auditId: string, ws: Socket)
      requires Valid()
      modifies this`clients
      ensures Valid()
      ensures clients == Removed(old(clients), auditId, ws)
    {
      RemoveClient(auditId, ws);
    }

    /** `broadcastProgress`; `open` is the set of sockets whose `readyState` is OPEN.
        `order` is the order in which the set was iterated: one frame per recipient. */
    method BroadcastProgress(auditId: string, p: AuditProgress, open: set<Socket>) returns (order: seq<Socket>)
      modifies this`sent
      ensures sent == old(sent) + FramesTo(order, p)
      ensures Distinct(order)
      ensures forall s :: s in order <==> s in Recipients(clients, auditId, open)
    {
      order := [];
      if auditId !in clients { return; }
      var remaining := clients[auditId];
      while remaining != {}
        invariant remaining <= clients[auditId]
        invariant sent == old(sent) + FramesTo(order, p)
        invariant Distinct(order)
        invariant forall s :: s in order ==> s in Recipients(clients, auditId, open) && s !in remaining
        invariant forall s :: s in Recipients(clients, auditId, open) ==> s in order || s in remaining
        decreases remaining
      {
        var client :| client in remaining;
        if client in open {
          sent := sent + [Frame(client, p)];
          order := order + [client];
        }
        remaining := remaining - {client};
      }
    }
  }
}
