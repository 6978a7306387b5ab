/** apps/web/src/api/ws-client.ts: the browser's side of the protocol. The functions say what
    each entry point does to the client's state; the class does it. */
module WsClient {
  import opened Wire

  datatype Status = Connecting | Open | Closed

  /** `rpcs` are the calls whose promise is still waiting. */
  datatype Client = Client(status: Status, nextId: nat, pending: map<nat, Sub>, active: map<nat, Sub>, rpcs: set<nat>)

  const NewClient := Client(Closed, 1, map[], map[], {})

  /** What handling a server message does for the application. */
  datatype Effect =
    | Nothing
    | Opens(subId: nat)
    | Runs(subId: nat)
    | Rejects(handler: nat)
    | Settles(rpc: nat, outcome: Outcome)

  datatype Outcome = Resolved(answer: Answer) | Rejected(blame: Blame, message: string)

  function Sends(c: Client, msg: ClientMsg): seq<ClientMsg> {
    if c.status == Open then [msg] else []
  }

  function Subscribed(c: Client, query: string, params: string): Client {
    c.(nextId := c.nextId + 1, pending := c.pending[c.nextId := Sub(query, params, c.nextId)])
  }

  function Called(c: Client): Client {
    c.(nextId := c.nextId + 1, rpcs := c.rpcs + {c.nextId})
  }

  function Unsubscribed(c: Client, subId: nat): Client {
    if subId !in c.active then c
    else c.(active := c.active - {subId}, nextId := if c.status == Open then c.nextId + 1 else c.nextId)
  }

  /** onopen, first loop: pending requests are sent under the ids they have. */
  function Resend(c: Client, order: seq<nat>): seq<ClientMsg>
    requires forall id :: id in order ==> id in c.pending
  {
    if order == [] then []
    else [Subscribe(order[0], c.pending[order[0]].query, c.pending[order[0]].params)] + Resend(c, order[1..])
  }

  /** onopen, second loop: every active subscription, also one of an earlier connection, gets a
      new pending request; the active entry stays. */
  function Reissue(c: Client, order: seq<nat>): (Client, seq<ClientMsg>)
    requires forall subId :: subId in order ==> subId in c.active
    decreases |order|
  {
    if order == [] then (c, [])
    else
      var sub := c.active[order[0]];
      var c' := c.(nextId := c.nextId + 1, pending := c.pending[c.nextId := sub]);
      var (c'', out) := Reissue(c', order[1..]);
      (c'', [Subscribe(c.nextId, sub.query, sub.params)] + out)
  }

  /** The keys of a Map in the order it is iterated. */
  ghost predicate Enumerates(order: seq<nat>, keys: set<nat>) {
    multiset(order) == multiset(keys)
  }

  lemma EnumeratesMembers(order: seq<nat>, keys: set<nat>)
    requires Enumerates(order, keys)
    ensures forall id :: id in order <==> id in keys
    ensures forall i, j :: 0 <= i < j < |order| ==> order[i] != order[j]
  {
    forall id
      ensures id in order <==> id in keys
    {
      assert id in multiset(order) <==> id in multiset(keys);
    }
    forall i, j | 0 <= i < j < |order|
      ensures order[i] != order[j]
    {
      assert order == order[..i] + [order[i]] + order[i + 1..j] + [order[j]] + order[j + 1..];
      assert multiset(order)[order[i]] <= 1;
    }
  }

  function Opened(c: Client, pendOrder: seq<nat>, actOrder: seq<nat>): (Client, seq<ClientMsg>)
    requires forall id :: id in pendOrder ==> id in c.pending
    requires forall subId :: subId in actOrder ==> subId in c.active
  {
    var c' := c.(status := Open);
    var (c'', out) := Reissue(c', actOrder);
    (c'', Resend(c', pendOrder) + out)
  }

  function Handled(c: Client, msg: ServerMsg): (Client, Effect) {
    match msg
    case Accepted(id, subId) =>
      if id !in c.pending then (c, Nothing)
      else (c.(active := c.active[subId := c.pending[id]], pending := c.pending - {id}), Opens(subId))
    case Snapshot(subId) => (c, if subId in c.active then Runs(subId) else Nothing)
    case Delta(subId) => (c, if subId in c.active then Runs(subId) else Nothing)
    case Result(id, answer) =>
      if id in c.rpcs then (c.(rpcs := c.rpcs - {id}), Settles(id, Resolved(answer))) else (c, Nothing)
    case Error(id, blame, message) =>
      if id in c.rpcs then (c.(rpcs := c.rpcs - {id}, pending := c.pending - {id}), Settles(id, Rejected(blame, message)))
      else if id in c.pending then (c.(pending := c.pending - {id}), Rejects(c.pending[id].handler))
      else (c, Nothing)
  }

  /** onclose: every waiting rpc is rejected; subscriptions are kept for the next connection. */
  function Disconnected(c: Client): Client {
    c.(status := Closed, rpcs := {})
  }

  // ---- the class ----------------------------------------------------------------------------

  class ConsoleClient {
    var status: Status
    var nextRequestId: nat
    var pendingSubscribes: map<nat, Sub>
    var active: map<nat, Sub>
    var pendingRpcs: set<nat>
    /** What has been handed to the socket since it opened. */
    var sent: seq<ClientMsg>
    /** How the rpc promises ended. */
    var settled: seq<(nat, Outcome)>

    function View(): Client
      reads this
    {
      Client(status, nextRequestId, pendingSubscribes, active, pendingRpcs)
    }

    constructor ()
      ensures View() == NewClient && sent == [] && settled == []
    {
      status, nextRequestId := Closed, 1;
      pendingSubscribes, active, pendingRpcs := map[], map[], {};
      sent, settled := [], [];
    }

    method RequestId() returns (id: nat)
      modifies this`nextRequestId
      ensures id == old(nextRequestId) && nextRequestId == id + 1
    {
      id := nextRequestId;
      nextRequestId := nextRequestId + 1;
    }

    method Send(msg: ClientMsg)
      modifies this`sent
      ensures sent == old(sent) + Sends(View(), msg)
    {
      if status == Open { sent := sent + [msg]; }
    }

    method SubscribeTo(query: string, params: string)
      modifies this
      ensures View() == Subscribed(old(View()), query, params) && settled == old(settled)
      ensures sent == old(sent) + Sends(old(View()), Subscribe(old(nextRequestId), query, params))
    {
      var id := RequestId();
      pendingSubscribes := pendingSubscribes[id := Sub(query, params, id)];
      Send(Subscribe(id, query, params));
    }

    method CallRpc(call: Call)
      modifies this
      ensures View() == Called(old(View())) && settled == old(settled)
      ensures sent == old(sent) + Sends(old(View()), Rpc(old(nextRequestId), call))
    {
      var id := RequestId();
      pendingRpcs := pendingRpcs + {id};
      Send(Rpc(id, call));
    }

    method UnsubscribeFrom(subId: nat)
      modifies this
      ensures View() == Unsubscribed(old(View()), subId) && settled == old(settled)
      ensures subId !in old(active) ==> View() == old(View())
      ensures sent == old(sent) + if subId in old(active) then Sends(old(View()), Unsubscribe(old(nextRequestId), subId)) else []
    {
      if subId !in active { return; }
      active := active - {subId};
      if status == Open {
        var id := RequestId();
        sent := sent + [Unsubscribe(id, subId)];
      }
    }

    method ResendPending(order: seq<nat>)
      requires status == Open && forall id :: id in order ==> id in pendingSubscribes
      modifies this`sent
      ensures sent == old(sent) + Resend(View(), order)
    {
      ghost var c := View();
      assert order[0..] == order;
      for i := 0 to |order|
        invariant sent + Resend(c, order[i..]) == old(sent) + Resend(c, order)
      {
        var p := pendingSubscribes[order[i]];
        assert order[i..][0] == order[i] && order[i..][1..] == order[i + 1..];
        sent := sent + [Subscribe(order[i], p.query, p.params)];
      }
      assert order[|order|..] == [];
    }

    method ReissueActive(order: seq<nat>)
      requires status == Open && forall subId :: subId in order ==> subId in active
      modifies this`sent, this`nextRequestId, this`pendingSubscribes
      ensures View() == Reissue(old(View()), order).0
      ensures sent == old(sent) + Reissue(old(View()), order).1
    {
      ghost var (last, all) := Reissue(View(), order);
      assert order[0..] == order;
      for i := 0 to |order|
        invariant status == Open && active == old(active) && pendingRpcs == old(pendingRpcs)
        invariant Reissue(View(), order[i..]).0 == last
        invariant sent + Reissue(View(), order[i..]).1 == old(sent) + all
      {
        var sub := active[order[i]];
        assert order[i..][0] == order[i] && order[i..][1..] == order[i + 1..];
        ghost var (before, rest) := (sent, Reissue(View(), order[i..]).1);
        var id := RequestId();
        pendingSubscribes := pendingSubscribes[id := sub];
        sent := sent + [Subscribe(id, sub.query, sub.params)];
        assert before + rest == sent + Reissue(View(), order[i + 1..]).1;
      }
      assert order[|order|..] == [];
    }

    /** socket.onopen; the two orders are the iteration orders of the two maps. */
    method OnOpen(pendOrder: seq<nat>, actOrder: seq<nat>)
      requires forall id :: id in pendOrder ==> id in pendingSubscribes
      requires forall subId :: subId in actOrder ==> subId in active
      modifies this
      ensures View() == Opened(old(View()), pendOrder, actOrder).0
      ensures sent == old(sent) + Opened(old(View()), pendOrder, actOrder).1
      ensures settled == old(settled)
    {
      hide Reissue, Resend;
      status := Open;
      assert View() == old(View()).(status := Open);
      ResendPending(pendOrder);
      ReissueActive(actOrder);
    }

    method HandleServerMessage(msg: ServerMsg) returns (effect: Effect)
      modifies this
      ensures (View(), effect) == Handled(old(View()), msg) && sent == old(sent)
      ensures msg.Error? ==> msg.inReplyTo !in pendingSubscribes && msg.inReplyTo !in pendingRpcs
      ensures settled == old(settled) + if effect.Settles? then [(effect.rpc, effect.outcome)] else []
    {
      effect := Nothing;
      match msg {
        case Accepted(id, subId) =>
          if id !in pendingSubscribes { return; }
          active := active[subId := pendingSubscribes[id]];
          pendingSubscribes := pendingSubscribes - {id};
          effect := Opens(subId);
        case Snapshot(subId) =>
          if subId in active { effect := Runs(subId); }
        case Delta(subId) =>
          if subId in active { effect := Runs(subId); }
        case Result(id, answer) =>
          if id in pendingRpcs {
            settled := settled + [(id, Resolved(answer))];
            effect := Settles(id, Resolved(answer));
          }
          pendingRpcs := pendingRpcs - {id};
          assert id !in old(pendingRpcs) ==> pendingRpcs == old(pendingRpcs);
        case Error(id, blame, message) =>
          if id in pendingSubscribes {
            effect := Rejects(pendingSubscribes[id].handler);
            pendingSubscribes := pendingSubscribes - {id};
          }
          if id in pendingRpcs {
            settled := settled + [(id, Rejected(blame, message))];
            effect := Settles(id, Rejected(blame, message));
            pendingRpcs := pendingRpcs - {id};
          }
          assert id !in old(pendingSubscribes) ==> old(pendingSubscribes) - {id} == old(pendingSubscribes);
      }
    }

    method OnClose()
      modifies this
      ensures View() == Disconnected(old(View())) && sent == []
      ensures |settled| == |old(settled)| + |old(pendingRpcs)|
      ensures settled[..|old(settled)|] == old(settled)
      ensures forall i :: |old(settled)| <= i < |settled| ==>
        settled[i].0 in old(pendingRpcs) && settled[i].1 == Rejected(OfClose, "disconnected")
      ensures forall id :: id in old(pendingRpcs) ==> (id, Rejected(OfClose, "disconnected")) in settled[|old(settled)|..]
    {
      status := Closed;
      sent := [];
      var left := pendingRpcs;
      ghost var n := |settled|;
      while left != {}
        invariant left <= pendingRpcs == old(pendingRpcs) && status == Closed && sent == []
        invariant nextRequestId == old(nextRequestId) && pendingSubscribes == old(pendingSubscribes) && active == old(active)
        invariant n <= |settled| && |settled| + |left| == n + |pendingRpcs| && settled[..n] == old(settled)
        invariant forall i :: n <= i < |settled| ==> settled[i].0 in pendingRpcs && settled[i].1 == Rejected(OfClose, "disconnected")
        invariant forall id :: id in pendingRpcs - left ==> (id, Rejected(OfClose, "disconnected")) in settled[n..]
        decreases left
      {
        var id :| id in left;
        ghost var before := settled[n..];
        settled := settled + [(id, Rejected(OfClose, "disconnected"))];
        assert settled[n..] == before + [(id, Rejected(OfClose, "disconnected"))];
        left := left - {id};
      }
      pendingRpcs := {};
    }
  }
}
