/** What the subscription protocol promises, over every run. */
module SubscriptionLaws {
  import opened Wire
  import opened WsClient
  import opened SubscriptionBroker
  import opened Tally
  import opened Subscriptions
  import opened SubscriptionSteps

  /** A client that has done nothing yet, and no connection of its own at the broker. */
  ghost predicate Initial(s: System) {
    s == Start(s.b, s.conn, s.nextSub) && s.conn !in s.b
  }

  ghost predicate Trace(tr: seq<System>, steps: seq<Step>) {
    && |tr| == |steps| + 1 && Initial(tr[0])
    && forall i :: 0 <= i < |steps| ==> Enabled(tr[i], steps[i]) && tr[i + 1] == Next(tr[i], steps[i])
  }

  lemma StartKeeps(s: System)
    requires Initial(s)
    ensures Inv(s)
  {
    SumEmpty(ReqC());
    SumEmpty(ReqJ());
    SumEmpty(ReqS());
    SumEmpty(AccS());
    SumEmpty(UnsubC(s.base));
    assert Here(s) == {} && Subs(s) == map[];
  }

  /** The invariant holds in every state of every run. */
  lemma {:induction false} TraceKeeps(tr: seq<System>, steps: seq<Step>, i: nat)
    requires Trace(tr, steps) && i < |tr|
    ensures Inv(tr[i])
  {
    hide Inv, Enabled, Next, Initial;
    if i == 0 {
      StartKeeps(tr[0]);
    } else {
      TraceKeeps(tr, steps, i - 1);
      StepKeeps(tr[i - 1], steps[i - 1]);
    }
  }

  // ---- placement and agreement ---------------------------------------------------------------------

  function Count(s: System, subId: nat): nat {
    Sum(s.s2c, AccS())[subId] + (if subId in Here(s) then 1 else 0) + Sum(s.c2s, UnsubC(s.base))[subId]
  }

  /** A subscription of the server is in one place, and what is in none is no subscription. */
  lemma OnePlace(tr: seq<System>, steps: seq<Step>, i: nat, subId: nat)
    requires Trace(tr, steps) && i < |tr|
    ensures Count(tr[i], subId) == if subId in Subs(tr[i]) then 1 else 0
  {
    hide Trace, Sum, Subs;
    TraceKeeps(tr, steps, i);
    var s := tr[i];
    assert Placed(s) by { hide Placed; }
    hide Inv;
    assert (Sum(s.s2c, AccS()) + multiset(Here(s)) + Sum(s.c2s, UnsubC(s.base)))[subId] == multiset(Subs(s).Keys)[subId];
  }

  /** With both queues empty the two sides agree: the same subscriptions, for the same queries. */
  lemma Agreement(tr: seq<System>, steps: seq<Step>, i: nat)
    requires Trace(tr, steps) && i < |tr| && tr[i].c2s == [] && tr[i].s2c == []
    ensures Here(tr[i]) == Subs(tr[i]).Keys
    ensures forall subId :: subId in Subs(tr[i]) ==>
      subId in tr[i].c.active && Same(tr[i].c.active[subId], Subs(tr[i])[subId])
  {
    TraceKeeps(tr, steps, i);
    var s := tr[i];
    hide Trace, Subs, Typed, Handlers;
    SumEmpty(AccS());
    SumEmpty(UnsubC(s.base));
    assert multiset(Here(s)) == multiset(Subs(s).Keys);
    assert forall x: nat :: x in Here(s) <==> x in multiset(Here(s));
    assert forall x: nat :: x in Subs(s).Keys <==> x in multiset(Subs(s).Keys);
  }

  // ---- unsubscribing ---------------------------------------------------------------------------------

  ghost function EffectOf(s: System): Effect
    requires s.s2c != []
  {
    Handled(s.c, s.s2c[0]).1
  }

  lemma ClosedStays(s: System, step: Step)
    requires Enabled(s, step)
    ensures s.closed <= Next(s, step).closed
  {
    hide Enumerates, Opened, Dispatched;
  }

  lemma {:induction false} ClosedForGood(tr: seq<System>, steps: seq<Step>, i: nat, j: nat)
    requires Trace(tr, steps) && i <= j < |tr|
    ensures tr[i].closed <= tr[j].closed
  {
    hide Next, Enabled, Initial;
    if i < j {
      ClosedForGood(tr, steps, i, j - 1);
      ClosedStays(tr[j - 1], steps[j - 1]);
    }
  }

  lemma ClosedIsSilent(s: System, subId: nat)
    requires Inv(s) && s.s2c != [] && subId in s.closed
    ensures EffectOf(s) != Runs(subId) && EffectOf(s) != Opens(subId)
  {
    hide Sum, InFlight, Requests, Placed, Typed, Ids, Linked, Agreeing, Answered, Handlers, Subs;
    TakeReply(s);
    assert s.s2c[0].Accepted? ==> AccS()(s.s2c[0]) == multiset{s.s2c[0].subId};
  }

  /** Once a subscription was given up, no message of the server ever runs its handler again. */
  lemma NoHandlerAfterUnsubscribe(tr: seq<System>, steps: seq<Step>, i: nat, j: nat, subId: nat)
    requires Trace(tr, steps) && i < j < |steps|
    requires steps[i] == ClientUnsubscribes(subId) && subId in tr[i].c.active
    requires steps[j] == ClientTakes && tr[j].s2c != []
    ensures EffectOf(tr[j]) != Runs(subId) && EffectOf(tr[j]) != Opens(subId)
  {
    TraceKeeps(tr, steps, j);
    ClosedForGood(tr, steps, i + 1, j);
    assert tr[i + 1] == Next(tr[i], steps[i]);
    assert subId in tr[i + 1].closed;
    ClosedIsSilent(tr[j], subId);
  }

  // ---- no subscription is lost -----------------------------------------------------------------------

  /** Step `k` is the one that ends handler `h`: its request is refused, or its handle is used. */
  ghost predicate Ends(tr: seq<System>, steps: seq<Step>, k: nat, h: nat)
    requires Trace(tr, steps) && k < |steps|
  {
    match steps[k]
    case ClientTakes => EffectOf(tr[k]) == Rejects(h)
    case ClientUnsubscribes(subId) => subId in tr[k].c.active && tr[k].c.active[subId].handler == h
    case _ => false
  }

  lemma GoneHow(s: System, step: Step, h: nat)
    requires Enabled(s, step)
    requires h in Next(s, step).rejected + Next(s, step).dropped && h !in s.rejected + s.dropped
    ensures match step
      case ClientTakes => EffectOf(s) == Rejects(h)
      case ClientUnsubscribes(subId) => subId in s.c.active && s.c.active[subId].handler == h
      case _ => false
  {
    hide Enumerates, Opened, Dispatched;
  }

  lemma {:induction false} GoneBecause(tr: seq<System>, steps: seq<Step>, j: nat, h: nat)
    requires Trace(tr, steps) && j < |tr| && h in tr[j].rejected + tr[j].dropped
    ensures exists k: nat :: k < j && Ends(tr, steps, k, h)
  {
    hide Next, Enabled;
    if j > 0 {
      if h in tr[j - 1].rejected + tr[j - 1].dropped {
        GoneBecause(tr, steps, j - 1, h);
      } else {
        assert tr[j] == Next(tr[j - 1], steps[j - 1]);
        GoneHow(tr[j - 1], steps[j - 1], h);
        assert Ends(tr, steps, j - 1, h);
      }
    }
  }

  lemma OriginStays(s: System, step: Step, h: nat)
    requires Enabled(s, step) && Ids(s) && Handlers(s) && h in s.origin
    ensures h in Next(s, step).origin && Next(s, step).origin[h] == s.origin[h]
  {
    hide Enumerates, Opened, Dispatched, Held, FromOrigin, Ids;
  }

  lemma {:induction false} OriginForGood(tr: seq<System>, steps: seq<Step>, i: nat, j: nat, h: nat)
    requires Trace(tr, steps) && i <= j < |tr| && h in tr[i].origin
    ensures h in tr[j].origin && tr[j].origin[h] == tr[i].origin[h]
  {
    hide Next, Enabled, Initial, Ids, Handlers;
    if i < j {
      OriginForGood(tr, steps, i, j - 1, h);
      TraceKeeps(tr, steps, j - 1);
      OriginStays(tr[j - 1], steps[j - 1], h);
    }
  }

  lemma SubscribeOrigin(s: System, query: string, params: string)
    ensures var s' := ClientSubscribed(s, query, params);
      s.c.nextId in s'.origin && s'.origin[s.c.nextId] == (query, params)
  {
  }

  /** A handler that was subscribed is held by the client in every later state, through any
      number of disconnects, unless a server refused its request or its handle was used. */
  lemma NoLostHandler(tr: seq<System>, steps: seq<Step>, i: nat, j: nat)
    requires Trace(tr, steps) && i < j < |tr| && steps[i].ClientSubscribes?
    ensures var h := tr[i].c.nextId;
      Held(tr[j].c, h) || exists k: nat :: k < j && Ends(tr, steps, k, h)
  {
    var h := tr[i].c.nextId;
    assert tr[i + 1] == Next(tr[i], steps[i]);
    SubscribeOrigin(tr[i], steps[i].query, steps[i].params);
    OriginForGood(tr, steps, i + 1, j, h);
    TraceKeeps(tr, steps, j);
    hide Held, Ends, Next, Enabled;
    if !Held(tr[j].c, h) {
      assert h in tr[j].rejected + tr[j].dropped by { hide Ids, SubIds, Linked, Requests, Placed, GivenUp, Typed, Agreeing, Answered; }
      GoneBecause(tr, steps, j, h);
    }
  }

  lemma OpenAsks(s: System, newConn: nat, pendOrder: seq<nat>, actOrder: seq<nat>, h: nat)
    requires Enumerates(pendOrder, s.c.pending.Keys) && Enumerates(actOrder, s.c.active.Keys)
    requires Ids(s) && Handlers(s) && Held(s.c, h)
    ensures h in s.origin
    ensures exists m :: m in SocketOpened(s, newConn, pendOrder, actOrder).c2s && m.Subscribe? && (m.query, m.params) == s.origin[h]
  {
    var s' := SocketOpened(s, newConn, pendOrder, actOrder);
    SocketOpenedParts(s, newConn, pendOrder, actOrder);
    EnumeratesMembers(pendOrder, s.c.pending.Keys);
    EnumeratesMembers(actOrder, s.c.active.Keys);
    var c1 := s.c.(status := Open);
    hide Sum, SocketOpened, Enumerates, Reissue, Resend, Ids, CanReissue;
    if x :| x in s.c.active && s.c.active[x].handler == h {
      ReissueAsks(c1, actOrder);
      var m :| m in Reissue(c1, actOrder).1 && Asks(m, c1.active[x]);
      assert m in s'.c2s && FromOrigin(s, s.c.active[x]);
    } else {
      var id :| id in s.c.pending && s.c.pending[id].handler == h;
      ResendLaw(c1, pendOrder, s'.base);
      var m := Subscribe(id, c1.pending[id].query, c1.pending[id].params);
      assert id in pendOrder && m in Resend(c1, pendOrder) && m in s'.c2s;
      assert FromOrigin(s, s.c.pending[id]);
    }
  }

  /** Every open asks the server again for every handler still held, with the query and the
      parameters it was subscribed with. */
  lemma EveryOpenAsks(tr: seq<System>, steps: seq<Step>, i: nat, j: nat)
    requires Trace(tr, steps) && i < j < |steps| && steps[i].ClientSubscribes? && steps[j].SocketOpens?
    requires Held(tr[j].c, tr[i].c.nextId)
    ensures exists m :: m in tr[j + 1].c2s && m.Subscribe? && m.query == steps[i].query && m.params == steps[i].params
  {
    var h := tr[i].c.nextId;
    assert tr[i + 1] == Next(tr[i], steps[i]);
    SubscribeOrigin(tr[i], steps[i].query, steps[i].params);
    OriginForGood(tr, steps, i + 1, j, h);
    TraceKeeps(tr, steps, j);
    assert Enabled(tr[j], steps[j]) && tr[j + 1] == Next(tr[j], steps[j]);
    hide Held, SocketOpened, Requests, Placed, GivenUp, Typed, SubIds, Agreeing, Answered, Linked, Handlers, Ids, Enumerates;
    OpenAsks(tr[j], steps[j].newConn, steps[j].pendOrder, steps[j].actOrder, h);
  }

  /** What is not promised: each open asks once more for what is already active, and keeps the old
      entries, so that the entries still to be answered and the active ones grow by |active|. */
  lemma OpenAddsActive(s: System, newConn: nat, pendOrder: seq<nat>, actOrder: seq<nat>)
    requires Inv(s) && Enabled(s, SocketOpens(newConn, pendOrder, actOrder))
    ensures var s' := SocketOpened(s, newConn, pendOrder, actOrder);
      s'.c.active == s.c.active && |s'.c.pending| == |s.c.pending| + |s.c.active|
      && |s'.c2s| == |s.c.pending| + |s.c.active|
  {
    hide Sum, Requests, Placed, GivenUp, Typed, SubIds, Agreeing, Answered, Handlers, Linked;
    SocketOpenedParts(s, newConn, pendOrder, actOrder);
    var c1 := s.c.(status := Open);
    ReissueAdds(c1, actOrder);
    OrderSize(pendOrder, s.c.pending.Keys);
    OrderSize(actOrder, s.c.active.Keys);
    ResendSize(c1, pendOrder);
    ReissueSize(c1, actOrder);
    hide SocketOpened, Reissue, Resend, Enumerates, Ids;
  }

  lemma OrderSize(order: seq<nat>, keys: set<nat>)
    requires Enumerates(order, keys)
    ensures |order| == |keys|
  {
    assert |multiset(order)| == |order|;
    assert |multiset(keys)| == |keys|;
  }

  lemma {:induction false} ResendSize(c: Client, order: seq<nat>)
    requires forall id :: id in order ==> id in c.pending
    ensures |Resend(c, order)| == |order|
  {
    if order != [] { ResendSize(c, order[1..]); }
  }

  lemma {:induction false} ReissueSize(c: Client, order: seq<nat>)
    requires forall subId :: subId in order ==> subId in c.active
    ensures |Reissue(c, order).1| == |order|
    decreases |order|
  {
    if order != [] { ReissueSize(ReissueFirst(c, order[0]), order[1..]); }
  }

  /** And a handle from before the reconnect no longer ends its subscription: using it right after
      the open leaves the handler with the client, under the request that asks for it again. */
  lemma OldHandleDoesNotEnd(s: System, newConn: nat, pendOrder: seq<nat>, actOrder: seq<nat>, subId: nat)
    requires Inv(s) && Enabled(s, SocketOpens(newConn, pendOrder, actOrder)) && subId in s.c.active
    ensures var s' := ClientGaveUp(SocketOpened(s, newConn, pendOrder, actOrder), subId);
      Held(s'.c, s.c.active[subId].handler)
  {
    hide Sum, Requests, Placed, GivenUp, Typed, SubIds, Agreeing, Answered, Handlers, Linked;
    SocketOpenedParts(s, newConn, pendOrder, actOrder);
    var c1 := s.c.(status := Open);
    EnumeratesMembers(actOrder, s.c.active.Keys);
    assert subId in actOrder;
    ReissueHolds(c1, actOrder, subId);
    var c2 := Reissue(c1, actOrder).0;
    hide SocketOpened, Reissue, Resend, Enumerates, Ids, CanReissue;
    var id :| id in c2.pending && c2.pending[id] == s.c.active[subId];
    var s' := ClientGaveUp(SocketOpened(s, newConn, pendOrder, actOrder), subId);
    assert id in s'.c.pending && s'.c.pending[id].handler == s.c.active[subId].handler;
  }

  lemma {:induction false} ReissueHolds(c: Client, order: seq<nat>, subId: nat)
    requires CanReissue(c, order) && subId in order
    ensures exists id :: id in Reissue(c, order).0.pending && Reissue(c, order).0.pending[id] == c.active[subId]
    decreases |order|
  {
    var c1 := ReissueFirst(c, order[0]);
    var c' := Reissue(c1, order[1..]).0;
    assert Reissue(c, order).0 == c';
    if subId == order[0] {
      ReissueAdds(c1, order[1..]);
      assert c.nextId in c1.pending && c'.pending[c.nextId] == c.active[subId];
    } else {
      assert subId in order[1..];
      ReissueHolds(c1, order[1..], subId);
      var id :| id in c'.pending && c'.pending[id] == c1.active[subId];
    }
  }

  // ---- calls ---------------------------------------------------------------------------------------

  /** A call the current socket carries is in one place: on its way, at the gateway, or answered
      and on its way back. A request the client no longer waits for is in none. */
  lemma AnsweredOnce(tr: seq<System>, steps: seq<Step>, i: nat, id: nat)
    requires Trace(tr, steps) && i < |tr| && id in tr[i].calls
    ensures InFlight(tr[i].c2s, tr[i].jobs, tr[i].s2c)[id] == if id in tr[i].sent then 1 else 0
  {
    TraceKeeps(tr, steps, i);
    var s := tr[i];
    hide Trace, Sum, InFlight, Placed, GivenUp, SubIds, Agreeing, Answered, Handlers, Typed;
    assert id !in s.c.pending;
    if s.c.status == Open {
      assert InFlight(s.c2s, s.jobs, s.s2c)[id] == (multiset(s.c.pending.Keys) + multiset(s.sent))[id];
    }
  }

  lemma SettledStays(s: System, step: Step, id: nat)
    requires Inv(s) && Enabled(s, step) && id in s.settled
    ensures id in Next(s, step).settled && Next(s, step).settled[id] == s.settled[id]
  {
    hide Sum, InFlight, Requests, Placed, GivenUp, SubIds, Agreeing, Answered, Handlers, Typed, Linked, Enumerates, Opened, Dispatched;
  }

  /** A promise is settled once: what it ended with stays, and the call is no longer waited for. */
  lemma {:induction false} SettledOnce(tr: seq<System>, steps: seq<Step>, i: nat, j: nat, id: nat)
    requires Trace(tr, steps) && i <= j < |tr| && id in tr[i].settled
    ensures id in tr[j].settled && tr[j].settled[id] == tr[i].settled[id] && id !in tr[j].c.rpcs
  {
    hide Next, Enabled, Initial, SubIds, Linked, Requests, Placed, GivenUp, Typed, Agreeing, Answered, Handlers;
    TraceKeeps(tr, steps, j);
    if i < j {
      SettledOnce(tr, steps, i, j - 1, id);
      TraceKeeps(tr, steps, j - 1);
      SettledStays(tr[j - 1], steps[j - 1], id);
    }
  }

  lemma CallStays(s: System, step: Step, id: nat)
    requires Ids(s) && Enabled(s, step) && id in s.calls
    ensures id in Next(s, step).calls && Next(s, step).calls[id] == s.calls[id]
  {
    hide Enumerates, Opened, Dispatched;
  }

  lemma {:induction false} CallForGood(tr: seq<System>, steps: seq<Step>, i: nat, j: nat, id: nat)
    requires Trace(tr, steps) && i <= j < |tr| && id in tr[i].calls
    ensures id in tr[j].calls && tr[j].calls[id] == tr[i].calls[id]
  {
    hide Next, Enabled, Initial, Ids;
    if i < j {
      CallForGood(tr, steps, i, j - 1, id);
      TraceKeeps(tr, steps, j - 1);
      CallStays(tr[j - 1], steps[j - 1], id);
    }
  }

  /** A promise is settled by the gateway's answer to its own call, by an error about its own call, or
      by the end of a connection; never by what belongs to another call. */
  lemma OwnAnswer(tr: seq<System>, steps: seq<Step>, i: nat, j: nat)
    requires Trace(tr, steps) && i < j < |tr| && steps[i].ClientCalls?
    ensures var (id, s) := (tr[i].c.nextId, tr[j]);
      id in s.settled ==> Answers(s.settled[id], steps[i].call)
  {
    var id := tr[i].c.nextId;
    assert tr[i + 1] == Next(tr[i], steps[i]);
    assert tr[i + 1].calls == tr[i].calls[id := steps[i].call];
    CallForGood(tr, steps, i + 1, j, id);
    TraceKeeps(tr, steps, j);
    hide Next, Enabled, Trace, Requests, Placed, GivenUp, Typed, Handlers;
  }

  /** A close settles every call that was waiting and leaves none. */
  lemma CloseSettlesAll(s: System)
    requires Inv(s) && s.c.status != Closed
    ensures var s' := SocketClosed(s);
      s'.c.rpcs == {} && s'.settled.Keys == s'.calls.Keys
      && forall id :: id in s.c.rpcs ==> id in s'.settled && s'.settled[id] == Rejected(OfClose, "disconnected")
  {
    hide Sum, InFlight, Requests, Placed, GivenUp, SubIds, Agreeing, Answered, Handlers, Typed, Linked;
  }

  lemma TakingLeavesOffline(s: System, id: nat)
    requires Ids(s) && Typed(s) && s.s2c != [] && id in s.c.rpcs && id !in s.sent
    ensures id in ClientTook(s).c.rpcs && id !in ClientTook(s).sent
  {
    assert s.s2c[0] in s.s2c && OkS(s, s.s2c[0]);
    hide OkC, OkJ, Typed;
  }

  /** A step that is not a close neither sends nor settles a call that was never sent. */
  lemma OfflineStep(s: System, step: Step, id: nat)
    requires Inv(s) && Enabled(s, step) && id in s.c.rpcs && id !in s.sent
    ensures id in Next(s, step).c.rpcs <==> step != SocketCloses
    ensures id !in Next(s, step).sent
  {
    hide Sum, InFlight, Requests, Placed, GivenUp, SubIds, Agreeing, Answered, Handlers, Typed, Linked, Dispatched,
      SocketOpened, ClientTook, Reissue, Resend, Enumerates;
    if step == ClientTakes {
      TakingLeavesOffline(s, id);
    } else if step.SocketOpens? {
      SocketOpenedParts(s, step.newConn, step.pendOrder, step.actOrder);
      ReissueAdds(s.c.(status := Open), step.actOrder);
    }
  }

  /** No close in steps i to j - 1. */
  predicate NoClose(steps: seq<Step>, i: nat, j: nat)
    requires j <= |steps|
  {
    forall k :: i <= k < j ==> steps[k] != SocketCloses
  }

  lemma {:induction false} OfflineUntilClose(tr: seq<System>, steps: seq<Step>, i: nat, j: nat, id: nat)
    requires Trace(tr, steps) && i <= j < |tr| && id in tr[i].c.rpcs && id !in tr[i].sent && NoClose(steps, i, j)
    ensures id in tr[j].c.rpcs && id !in tr[j].sent
  {
    hide Next, Enabled, Initial, Inv;
    if i < j {
      OfflineUntilClose(tr, steps, i, j - 1, id);
      TraceKeeps(tr, steps, j - 1);
      OfflineStep(tr[j - 1], steps[j - 1], id);
    }
  }

  lemma {:induction false} FirstClose(steps: seq<Step>, i: nat, j: nat) returns (k: nat)
    requires i <= j <= |steps| && !NoClose(steps, i, j)
    ensures i <= k < j && steps[k] == SocketCloses && NoClose(steps, i, k)
    decreases j - i
  {
    if steps[i] == SocketCloses { k := i; } else { k := FirstClose(steps, i + 1, j); }
  }

  /** What is not promised: a call made while the socket is not open is never sent, over any run. It waits,
      through any number of steps and an opening, until the first close after it; that close rejects it. */
  lemma OfflineCallWaits(tr: seq<System>, steps: seq<Step>, i: nat, j: nat)
    requires Trace(tr, steps) && i < j < |tr| && steps[i].ClientCalls? && tr[i].c.status != Open
    ensures var (id, s) := (tr[i].c.nextId, tr[j]);
      && id !in s.sent && InFlight(s.c2s, s.jobs, s.s2c)[id] == 0
      && if NoClose(steps, i + 1, j) then id in s.c.rpcs && id !in s.settled
         else id !in s.c.rpcs && id in s.settled && s.settled[id] == Rejected(OfClose, "disconnected")
  {
    var id := tr[i].c.nextId;
    TraceKeeps(tr, steps, i);
    CalledOffline(tr[i], steps[i].call);
    assert tr[i + 1] == Next(tr[i], steps[i]);
    hide Next, Enabled, Initial, NoClose, InFlight, Sum;
    CallForGood(tr, steps, i + 1, j, id);
    AnsweredOnce(tr, steps, j, id);
    TraceKeeps(tr, steps, j);
    if NoClose(steps, i + 1, j) {
      OfflineUntilClose(tr, steps, i + 1, j, id);
    } else {
      var k := FirstClose(steps, i + 1, j);
      OfflineUntilClose(tr, steps, i + 1, k, id);
      RejectedByClose(tr, steps, k, id);
      SettledOnce(tr, steps, k + 1, j, id);
    }
    InvSets(tr[j]);
    hide Inv;
  }

  lemma CalledOffline(s: System, call: Call)
    requires Inv(s) && s.c.status != Open
    ensures var s' := ClientCalled(s, call); s.c.nextId in s'.c.rpcs && s.c.nextId !in s'.sent && s.c.nextId in s'.calls
  {
    hide Sum, InFlight, Requests, Placed, GivenUp, SubIds, Agreeing, Answered, Handlers, Typed, Linked;
  }

  lemma RejectedByClose(tr: seq<System>, steps: seq<Step>, k: nat, id: nat)
    requires Trace(tr, steps) && k < |steps| && steps[k] == SocketCloses && id in tr[k].c.rpcs
    ensures id in tr[k + 1].settled && tr[k + 1].settled[id] == Rejected(OfClose, "disconnected")
  {
    TraceKeeps(tr, steps, k);
    assert Enabled(tr[k], SocketCloses) && tr[k + 1] == Next(tr[k], SocketCloses);
    hide *;
    ClosingStep(tr[k]);
    CloseSettlesAll(tr[k]);
  }

  lemma ClosingStep(s: System)
    requires Enabled(s, SocketCloses)
    ensures s.c.status != Closed && Next(s, SocketCloses) == SocketClosed(s)
  {
    hide SocketClosed;
  }

  lemma InvSets(s: System)
    requires Inv(s)
    ensures s.sent <= s.c.rpcs && s.c.rpcs !! s.settled.Keys
  {
    hide Sum, InFlight, Requests, Placed, GivenUp, SubIds, Agreeing, Answered, Handlers, Typed, Linked;
  }
}
