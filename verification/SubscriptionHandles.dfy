/** What using a subscription's handle ends: the entry of its subscription id, which is all there is of
    a handler only as long as no reopening has copied it. */
module SubscriptionHandles {
  import opened WsClient
  import opened SubscriptionBroker
  import opened Subscriptions
  import opened SubscriptionSteps
  import opened SubscriptionLaws

  /** Where the client can hold a handler. */
  datatype Place = AtRequest(id: nat) | AtSubscription(subId: nat)

  predicate Holds(c: Client, p: Place, h: nat) {
    match p
    case AtRequest(id) => id in c.pending && c.pending[id].handler == h
    case AtSubscription(subId) => subId in c.active && c.active[subId].handler == h
  }

  lemma HeldSomewhere(c: Client, h: nat)
    ensures Held(c, h) <==> exists p :: Holds(c, p, h)
  {
    if id :| id in c.pending && c.pending[id].handler == h { assert Holds(c, AtRequest(id), h); }
    if subId :| subId in c.active && c.active[subId].handler == h { assert Holds(c, AtSubscription(subId), h); }
  }

  /** A step towards HandleEndsUnlessReopened, by definition of giving up: using a handle ends its handler
      exactly when no other entry, pending or active, carries it. */
  lemma HandleEndsIff(s: System, subId: nat)
    requires subId in s.c.active
    ensures var h := s.c.active[subId].handler;
      !Held(ClientGaveUp(s, subId).c, h) <==> forall p :: Holds(s.c, p, h) ==> p == AtSubscription(subId)
  {
    var (c', h) := (ClientGaveUp(s, subId).c, s.c.active[subId].handler);
    HeldSomewhere(c', h);
    forall p
      ensures Holds(c', p, h) <==> Holds(s.c, p, h) && p != AtSubscription(subId)
    {
    }
  }

  /** No two entries carry h. */
  ghost predicate Sole(c: Client, h: nat) {
    forall p, q :: Holds(c, p, h) && Holds(c, q, h) ==> p == q
  }

  lemma FewerHolders(c: Client, c': Client, h: nat)
    requires Sole(c, h) && forall p :: Holds(c', p, h) ==> Holds(c, p, h)
    ensures Sole(c', h)
  {
    hide Holds;
  }

  lemma SubscribedSole(s: System, query: string, params: string, h: nat)
    requires Sole(s.c, h) && h < s.c.nextId && Ids(s)
    ensures Sole(ClientSubscribed(s, query, params).c, h)
  {
    var c' := ClientSubscribed(s, query, params).c;
    forall p | Holds(c', p, h) ensures Holds(s.c, p, h) {}
    FewerHolders(s.c, c', h);
  }

  /** The new handler has one entry. */
  lemma SubscribedHolds(s: System, query: string, params: string)
    requires Ids(s) && Handlers(s)
    ensures Sole(ClientSubscribed(s, query, params).c, s.c.nextId)
  {
    hide Held;
    var (c', h) := (ClientSubscribed(s, query, params).c, s.c.nextId);
    forall id | id in s.c.pending ensures s.c.pending[id].handler < h { assert FromOrigin(s, s.c.pending[id]); }
    forall subId | subId in s.c.active ensures s.c.active[subId].handler < h { assert FromOrigin(s, s.c.active[subId]); }
    assert forall p :: Holds(c', p, h) ==> p == AtRequest(h);
  }

  lemma GaveUpSole(s: System, subId: nat, h: nat)
    requires Sole(s.c, h)
    ensures Sole(ClientGaveUp(s, subId).c, h)
  {
    var c' := ClientGaveUp(s, subId).c;
    forall p | Holds(c', p, h) ensures Holds(s.c, p, h) {}
    FewerHolders(s.c, c', h);
  }

  /** No active entry carries h. */
  predicate NotActive(c: Client, h: nat) {
    forall subId :: subId in c.active ==> c.active[subId].handler != h
  }

  lemma OpenedSole(s: System, newConn: nat, pendOrder: seq<nat>, actOrder: seq<nat>, h: nat)
    requires Enumerates(pendOrder, s.c.pending.Keys) && Enumerates(actOrder, s.c.active.Keys) && Ids(s)
    requires Sole(s.c, h) && NotActive(s.c, h)
    ensures Sole(SocketOpened(s, newConn, pendOrder, actOrder).c, h)
  {
    var c1 := s.c.(status := Open);
    SocketOpenedParts(s, newConn, pendOrder, actOrder);
    var c' := SocketOpened(s, newConn, pendOrder, actOrder).c;
    hide SocketOpened, Reissue, Resend, Enumerates, Ids;
    ReissueAdds(c1, actOrder);
    forall id | id in c'.pending && id !in s.c.pending
      ensures c'.pending[id].handler != h
    {
      var subId :| subId in actOrder && c'.pending[id] == s.c.active[subId];
    }
    forall p | Holds(c', p, h) ensures Holds(s.c, p, h) {}
    hide CanReissue;
    FewerHolders(s.c, c', h);
  }

  /** An acceptance moves an entry; everything else the server sends takes entries away or none. */
  lemma AcceptedSole(c: Client, id: nat, subId: nat, h: nat)
    requires Sole(c, h) && id in c.pending
    ensures Sole(c.(active := c.active[subId := c.pending[id]], pending := c.pending - {id}), h)
  {
    var c' := c.(active := c.active[subId := c.pending[id]], pending := c.pending - {id});
    var (from, to) := (AtRequest(id), AtSubscription(subId));
    forall p, q | Holds(c', p, h) && Holds(c', q, h)
      ensures p == q
    {
      assert p != to ==> Holds(c, p, h) && p != from;
      assert q != to ==> Holds(c, q, h) && q != from;
      assert p == to || q == to ==> Holds(c, from, h);
    }
  }

  lemma TookSole(s: System, h: nat)
    requires Sole(s.c, h) && s.s2c != []
    ensures Sole(ClientTook(s).c, h)
  {
    var (m, c') := (s.s2c[0], ClientTook(s).c);
    assert c' == Handled(s.c, m).0;
    hide ClientTook;
    if m.Accepted? && m.inReplyTo in s.c.pending {
      AcceptedSole(s.c, m.inReplyTo, m.subId, h);
    } else {
      forall p | Holds(c', p, h) ensures Holds(s.c, p, h) {}
      FewerHolders(s.c, c', h);
    }
  }

  lemma SameEntriesSole(c: Client, c': Client, h: nat)
    requires Sole(c, h) && c'.pending == c.pending && c'.active == c.active
    ensures Sole(c', h)
  {
    forall p | Holds(c', p, h) ensures Holds(c, p, h) {}
    FewerHolders(c, c', h);
  }

  /** Only a reopening that finds the handler active copies it. */
  lemma StepSole(s: System, step: Step, h: nat)
    requires Ids(s) && Enabled(s, step) && Sole(s.c, h) && h < s.c.nextId
    requires step.SocketOpens? ==> NotActive(s.c, h)
    ensures Sole(Next(s, step).c, h)
  {
    var c' := Next(s, step).c;
    hide Sole, Enumerates, SocketOpened, ClientTook, Dispatched, Deltas, Ids, NotActive;
    match step
    case ClientSubscribes(query, params) => SubscribedSole(s, query, params, h);
    case ClientUnsubscribes(subId) => GaveUpSole(s, subId, h);
    case SocketOpens(newConn, pendOrder, actOrder) => OpenedSole(s, newConn, pendOrder, actOrder, h);
    case ClientTakes => TookSole(s, h);
    case ClientCalls(_) => SameEntriesSole(s.c, c', h);
    case Connects => SameEntriesSole(s.c, c', h);
    case ServerTakes => SameEntriesSole(s.c, c', h);
    case SnapshotReady(_) => SameEntriesSole(s.c, c', h);
    case SnapshotFails(_, _) => SameEntriesSole(s.c, c', h);
    case GatewayAnswers(_, _) => SameEntriesSole(s.c, c', h);
    case GatewayFails(_, _) => SameEntriesSole(s.c, c', h);
    case KafkaEvent(_) => SameEntriesSole(s.c, c', h);
    case DeltaReady(_, _) => SameEntriesSole(s.c, c', h);
    case SocketCloses => SameEntriesSole(s.c, c', h);
  }

  /** No open between steps i and j found h active. */
  ghost predicate NeverReopened(tr: seq<System>, steps: seq<Step>, i: nat, j: nat, h: nat)
    requires |tr| == |steps| + 1 && j <= |steps|
  {
    forall k :: i < k < j && steps[k].SocketOpens? ==> NotActive(tr[k].c, h)
  }

  /** As long as no open found its handler active, a subscription has one entry at the client. */
  lemma {:induction false} OneEntryUnlessReopened(tr: seq<System>, steps: seq<Step>, i: nat, j: nat)
    requires Trace(tr, steps) && i < j < |tr| && steps[i].ClientSubscribes?
    requires NeverReopened(tr, steps, i, j, tr[i].c.nextId)
    ensures Sole(tr[j].c, tr[i].c.nextId)
    decreases j
  {
    var h := tr[i].c.nextId;
    hide Sole, Next, Enabled, Ids, Handlers, Initial, NotActive;
    TraceKeeps(tr, steps, j - 1);
    if j == i + 1 {
      SubscribedIsNext(tr[i], steps[i]);
      SubscribedHolds(tr[i], steps[i].query, steps[i].params);
    } else {
      OneEntryUnlessReopened(tr, steps, i, j - 1);
      HandlerIsOld(tr, steps, i, j - 1);
      StepSole(tr[j - 1], steps[j - 1], h);
    }
  }

  lemma SubscribedIsNext(s: System, step: Step)
    requires step.ClientSubscribes?
    ensures Enabled(s, step) && Next(s, step) == ClientSubscribed(s, step.query, step.params)
  {
  }

  lemma HandlerIsOld(tr: seq<System>, steps: seq<Step>, i: nat, j: nat)
    requires Trace(tr, steps) && i < j < |tr| && steps[i].ClientSubscribes?
    ensures tr[i].c.nextId < tr[j].c.nextId
  {
    hide Next, Enabled, Ids, Initial;
    SubscribedIsNext(tr[i], steps[i]);
    SubscribeOrigin(tr[i], steps[i].query, steps[i].params);
    OriginForGood(tr, steps, i + 1, j, tr[i].c.nextId);
    TraceKeeps(tr, steps, j);
  }

  /** So, over every run: a handle used before any open has found its subscription active ends its
      handler; nothing at the client carries it any more. */
  lemma HandleEndsUnlessReopened(tr: seq<System>, steps: seq<Step>, i: nat, j: nat, subId: nat)
    requires Trace(tr, steps) && i < j < |steps| && steps[i].ClientSubscribes?
    requires steps[j] == ClientUnsubscribes(subId) && subId in tr[j].c.active && tr[j].c.active[subId].handler == tr[i].c.nextId
    requires NeverReopened(tr, steps, i, j, tr[i].c.nextId)
    ensures !Held(tr[j + 1].c, tr[i].c.nextId)
  {
    OneEntryUnlessReopened(tr, steps, i, j);
    assert tr[j + 1] == Next(tr[j], steps[j]);
    hide Trace, Held, NeverReopened, Enabled;
    HandleEndsIff(tr[j], subId);
    assert Holds(tr[j].c, AtSubscription(subId), tr[i].c.nextId);
  }
}
