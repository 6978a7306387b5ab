/** apps/server/src/broker/broker.ts and the dispatch of routes/ws.ts: the server's side. */
module SubscriptionBroker {
  import opened Wire

  datatype Subscription = Subscription(query: string, params: string)

  /** Connection id to its subscriptions by id. */
  type Connections = map<nat, map<nat, Subscription>>

  function SubsOf(b: Connections, conn: nat): map<nat, Subscription> {
    if conn in b then b[conn] else map[]
  }

  function Registered(b: Connections, conn: nat): Connections {
    b[conn := map[]]
  }

  function Removed(b: Connections, conn: nat): Connections {
    b - {conn}
  }

  /** The second half of subscribe(), once the snapshot has come: a connection that has gone
      meanwhile is no longer in the broker, so nothing is added. */
  function Added(b: Connections, conn: nat, subId: nat, sub: Subscription): Connections {
    var subs: map<nat, Subscription> := SubsOf(b, conn)[subId := sub];
    if conn in b then b[conn := subs] else b
  }

  function Dropped(b: Connections, conn: nat, subId: nat): Connections {
    var subs: map<nat, Subscription> := SubsOf(b, conn) - {subId};
    if conn in b then b[conn := subs] else b
  }

  const METHODS := {
    "remote-start", "remote-stop", "reset", "trigger-message", "unlock-connector", "clear-cache",
    "get-configuration", "change-configuration", "reserve-now", "cancel-reservation",
    "get-diagnostics", "get-log", "data-transfer"
  }

  /** handleRpc before its await: the error replied at once, "" when the gateway is called. */
  function Refusal(call: Call): string {
    if call.cpId == "" then "missing or invalid string param: cp_id"
    else if call.name !in METHODS then "unknown rpc method: " + call.name
    else ""
  }

  /** Work the server has begun on a message and not finished. */
  datatype Job =
    | SnapshotJob(id: nat, query: string, params: string)
    | RpcJob(id: nat, call: Call)
    | DeltaJob(subId: nat)

  /** What a job's error is about. */
  function BlameOf(job: Job): Blame {
    match job
    case SnapshotJob(_, _, _) => OfSubscribe
    case RpcJob(_, call) => OfCall(call)
    case DeltaJob(_) => OfClose
  }

  /** dispatch(): what one client message starts, answers at once, and does to the broker. */
  function Dispatched(b: Connections, conn: nat, msg: ClientMsg): (Connections, seq<Job>, seq<ServerMsg>) {
    match msg
    case Subscribe(id, query, params) =>
      if conn in b then (b, [SnapshotJob(id, query, params)], [])
      else (b, [], [Error(id, OfSubscribe, "unknown connection")])
    case Unsubscribe(_, subId) => (Dropped(b, conn, subId), [], [])
    case Rpc(id, call) =>
      if Refusal(call) == "" then (b, [RpcJob(id, call)], []) else (b, [], [Error(id, OfCall(call), Refusal(call))])
  }

  /** A subscribe request starts a snapshot exactly for a registered connection, and is answered with an error
      otherwise; nothing is added to the broker before the snapshot has come. */
  lemma SubscribeNeedsConnection(b: Connections, conn: nat, id: nat, query: string, params: string)
    ensures var (b', jobs, replies) := Dispatched(b, conn, Subscribe(id, query, params));
      && b' == b && jobs == (if conn in b then [SnapshotJob(id, query, params)] else [])
      && replies == (if conn in b then [] else [Error(id, OfSubscribe, "unknown connection")])
  {
  }

  // ---- the class ------------------------------------------------------------------------------

  class Broker {
    var connections: Connections

    constructor ()
      ensures connections == map[]
    {
      connections := map[];
    }

    method RegisterConnection(conn: nat)
      modifies this
      ensures connections == Registered(old(connections), conn) && connections == old(connections)[conn := map[]]
    {
      connections := connections[conn := map[]];
    }

    method RemoveConnection(conn: nat)
      modifies this
      ensures connections == Removed(old(connections), conn)
      ensures conn !in connections && forall other :: other in old(connections) && other != conn ==>
        other in connections && connections[other] == old(connections)[other]
    {
      connections := connections - {conn};
    }

    method SubscribeCompletes(conn: nat, subId: nat, sub: Subscription)
      modifies this
      ensures connections == Added(old(connections), conn, subId, sub)
      ensures conn !in old(connections) ==> connections == old(connections)
      ensures conn in old(connections) ==>
        var subs: map<nat, Subscription> := old(connections)[conn][subId := sub]; connections == old(connections)[conn := subs]
    {
      if conn in connections {
        var subscriptions: map<nat, Subscription> := connections[conn][subId := sub];
        connections := connections[conn := subscriptions];
      }
    }

    method Unsubscribe(conn: nat, subId: nat) returns (deleted: bool)
      modifies this
      ensures connections == Dropped(old(connections), conn, subId)
      ensures deleted <==> conn in old(connections) && subId in old(connections)[conn]
      ensures !deleted ==> connections == old(connections)
      ensures deleted ==>
        var subs: map<nat, Subscription> := old(connections)[conn] - {subId}; connections == old(connections)[conn := subs]
    {
      if conn !in connections { return false; }
      deleted := subId in connections[conn];
      var subscriptions: map<nat, Subscription> := connections[conn] - {subId};
      assert !deleted ==> subscriptions == connections[conn];
      connections := connections[conn := subscriptions];
    }

    /** onKafkaEvent: one resolver is started for every subscription of every connection, and
        for nothing else. */
    method OnKafkaEvent() returns (started: seq<(nat, nat)>)
      ensures forall conn: nat, subId: nat :: (conn, subId) in started <==> subId in SubsOf(connections, conn)
      ensures forall i, j :: 0 <= i < j < |started| ==> started[i] != started[j]
    {
      started := [];
      var conns := connections.Keys;
      while conns != {}
        invariant conns <= connections.Keys
        invariant forall conn: nat, subId: nat :: (conn, subId) in started <==>
          conn in connections.Keys - conns && subId in connections[conn]
        invariant forall i, j :: 0 <= i < j < |started| ==> started[i] != started[j]
        decreases conns
      {
        var conn :| conn in conns;
        var subs := connections[conn].Keys;
        while subs != {}
          invariant subs <= connections[conn].Keys
          invariant forall c: nat, s: nat :: (c, s) in started <==>
            (c in connections.Keys - conns && s in connections[c]) || (c == conn && s in connections[conn].Keys - subs)
          invariant forall i, j :: 0 <= i < j < |started| ==> started[i] != started[j]
          decreases subs
        {
          var subId :| subId in subs;
          started := started + [(conn, subId)];
          subs := subs - {subId};
        }
        conns := conns - {conn};
      }
    }
  }
}
