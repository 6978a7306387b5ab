/** The order of messages: nothing about a subscription overtakes its acceptance, so whatever the
    server sends for a live subscription finds its handlers. */
module SubscriptionOrder {
  import opened Wire
  import opened WsClient
  import opened SubscriptionBroker
  import opened Sequences
  import opened Tally
  import opened Subscriptions
  import opened SubscriptionSteps
  import opened SubscriptionLaws

  /** The acceptance of `subId` is among the first `n` messages to the client. */
  ghost predicate AcceptedBy(s2c: seq<ServerMsg>, n: nat, subId: nat) {
    exists k :: 0 <= k < n && k < |s2c| && s2c[k].Accepted? && s2c[k].subId == subId
  }

  /** The client knows `subId`, gave it up, or will know it before message number `n`. */
  ghost predicate KnownBy(s: System, n: nat, subId: nat) {
    subId in s.c.active || subId in s.closed || AcceptedBy(s.s2c, n, subId)
  }

  predicate Update(m: ServerMsg) {
    m.Snapshot? || m.Delta?
  }

  ghost predicate Ordered(s: System) {
    && (forall i :: 0 <= i < |s.s2c| && Update(s.s2c[i]) ==> KnownBy(s, i, s.s2c[i].subId))
    && (forall j :: j in s.jobs && j.DeltaJob? ==> KnownBy(s, |s.s2c|, j.subId))
  }

  /** Everything `s` knew of, `s'` knows of, when the client forgets nothing and messages are only
      added behind. */
  lemma KnownGrows(s: System, s': System, added: seq<ServerMsg>, n: nat, n': nat, subId: nat)
    requires KnownBy(s, n, subId) && n <= n' && s'.s2c == s.s2c + added
    requires forall x :: x in s.c.active ==> x in s'.c.active || x in s'.closed
    requires s.closed <= s'.closed
    ensures KnownBy(s', n', subId)
  {
    if AcceptedBy(s.s2c, n, subId) {
      var k :| 0 <= k < n && k < |s.s2c| && s.s2c[k].Accepted? && s.s2c[k].subId == subId;
      assert s'.s2c[k] == s.s2c[k];
    }
  }

  /** A step that appends messages and jobs keeps the order if what it appends is known. */
  lemma AppendsKeep(s: System, s': System, added: seq<ServerMsg>)
    requires Ordered(s) && s'.s2c == s.s2c + added
    requires forall x :: x in s.c.active ==> x in s'.c.active || x in s'.closed
    requires s.closed <= s'.closed
    requires forall i :: 0 <= i < |added| && Update(added[i]) ==> KnownBy(s', |s.s2c| + i, added[i].subId)
    requires forall j :: j in s'.jobs && j.DeltaJob? ==> j in s.jobs || KnownBy(s', |s'.s2c|, j.subId)
    ensures Ordered(s')
  {
    hide KnownBy;
    forall i | 0 <= i < |s'.s2c| && Update(s'.s2c[i])
      ensures KnownBy(s', i, s'.s2c[i].subId)
    {
      if i < |s.s2c| { KnownGrows(s, s', added, i, i, s.s2c[i].subId); }
    }
    forall j | j in s'.jobs && j.DeltaJob?
      ensures KnownBy(s', |s'.s2c|, j.subId)
    {
      if j in s.jobs { KnownGrows(s, s', added, |s.s2c|, |s'.s2c|, j.subId); }
    }
  }

  lemma QuietStep(s: System, s': System)
    requires Ordered(s) && s'.s2c == s.s2c && s'.jobs == s.jobs && s.closed <= s'.closed
    requires forall x :: x in s.c.active ==> x in s'.c.active || x in s'.closed
    ensures Ordered(s')
  {
    hide Ordered;
    AppendsKeep(s, s', []);
  }

  /** Every subscription of the server is known to the client by the end of the queue. */
  lemma SubsAreKnown(s: System, subId: nat)
    requires Inv(s) && subId in Subs(s)
    ensures KnownBy(s, |s.s2c|, subId)
  {
    hide Sum, InFlight, Requests, GivenUp, Ids, SubIds, Linked, Agreeing, Answered, Handlers, OkJ, OkS, Subs;
    assert subId in multiset(Subs(s).Keys);
    if subId in Sum(s.s2c, AccS()) {
      SumHas(s.s2c, subId, AccS());
      var m :| m in s.s2c && subId in AccS()(m);
      var k :| 0 <= k < |s.s2c| && s.s2c[k] == m;
      assert s.s2c[k].Accepted? && s.s2c[k].subId == subId;
    } else if subId !in Here(s) {
      assert subId in Sum(s.c2s, UnsubC(s.base));
      SumHas(s.c2s, subId, UnsubC(s.base));
      var m :| m in s.c2s && subId in UnsubC(s.base)(m);
      assert OkC(s, m);
    }
  }

  lemma TookOrdered(s: System)
    requires Ordered(s) && s.c2s != []
    ensures Ordered(ServerTook(s))
  {
    var (_, jobs, replies) := Dispatched(s.b, s.conn, s.c2s[0]);
    var s' := ServerTook(s);
    assert forall j :: j in jobs ==> !j.DeltaJob?;
    assert forall m :: m in replies ==> !Update(m);
    assert s'.s2c == s.s2c + replies && s'.jobs == s.jobs + jobs && s'.c == s.c && s'.closed == s.closed;
    hide Dispatched, ServerTook, Ordered, KnownBy;
    AppendsKeep(s, s', replies);
  }

  lemma SnapshotOrdered(s: System, i: nat)
    requires Ordered(s) && i < |s.jobs| && s.jobs[i].SnapshotJob?
    ensures Ordered(SnapshotSent(s, i))
  {
    var s' := SnapshotSent(s, i);
    var added := [Accepted(s.jobs[i].id, s.nextSub), Snapshot(s.nextSub)];
    WithoutKeeps(s.jobs, i);
    assert s'.s2c == s.s2c + added && s'.jobs == Without(s.jobs, i) && s'.c == s.c && s'.closed == s.closed;
    assert s'.s2c[|s.s2c|] == added[0];
    assert KnownBy(s', |s.s2c| + 1, s.nextSub);
    hide SnapshotSent, Ordered, KnownBy, Without;
    AppendsKeep(s, s', added);
  }

  lemma RepliedOrdered(s: System, i: nat, reply: ServerMsg)
    requires Ordered(s) && i < |s.jobs| && !Update(reply)
    ensures Ordered(JobReplied(s, i, reply))
  {
    var s' := JobReplied(s, i, reply);
    WithoutKeeps(s.jobs, i);
    hide Ordered, KnownBy, Without;
    AppendsKeep(s, s', [reply]);
  }

  lemma DeltasOrdered(s: System, i: nat, n: nat)
    requires Ordered(s) && i < |s.jobs| && s.jobs[i].DeltaJob?
    ensures Ordered(DeltasSent(s, i, n))
  {
    var s' := DeltasSent(s, i, n);
    var added := Deltas(s.jobs[i].subId, n);
    WithoutKeeps(s.jobs, i);
    DeltasCountNothing(s.jobs[i].subId, n);
    assert s.jobs[i] in s.jobs && s'.s2c == s.s2c + added && s'.jobs == Without(s.jobs, i);
    hide DeltasSent, Without, Deltas;
    forall k | 0 <= k < |added| && Update(added[k])
      ensures KnownBy(s', |s.s2c| + k, added[k].subId)
    {
      assert added[k] in added;
      KnownGrows(s, s', added, |s.s2c|, |s.s2c| + k, s.jobs[i].subId);
    }
    hide Ordered, KnownBy;
    AppendsKeep(s, s', added);
  }

  lemma EventOrdered(s: System, subId: nat)
    requires Inv(s) && Ordered(s) && subId in Subs(s)
    ensures Ordered(EventSeen(s, subId))
  {
    var s' := EventSeen(s, subId);
    hide Inv, Subs;
    SubsAreKnown(s, subId);
    assert s'.s2c == s.s2c + [] && KnownBy(s', |s'.s2c|, subId);
    hide Ordered, KnownBy;
    AppendsKeep(s, s', []);
  }

  /** Taking the first message: what it accepts is active from then on. */
  lemma TakenKnown(s: System, s': System, n: nat, subId: nat)
    requires s.s2c != [] && s'.s2c == s.s2c[1..] && s'.closed == s.closed && KnownBy(s, n, subId) && n >= 1
    requires forall x :: x in s.c.active ==> x in s'.c.active
    requires s.s2c[0].Accepted? ==> s.s2c[0].subId in s'.c.active
    ensures KnownBy(s', n - 1, subId)
  {
    if AcceptedBy(s.s2c, n, subId) {
      var k :| 0 <= k < n && k < |s.s2c| && s.s2c[k].Accepted? && s.s2c[k].subId == subId;
      if k > 0 { assert s'.s2c[k - 1] == s.s2c[k]; }
    }
  }

  lemma HeadIsOk(s: System)
    requires Typed(s) && s.s2c != []
    ensures OkS(s, s.s2c[0])
  {
    hide OkS, OkC, OkJ;
  }

  lemma TakenParts(s: System)
    requires s.s2c != [] && OkS(s, s.s2c[0])
    ensures var s' := ClientTook(s);
      && s'.s2c == s.s2c[1..] && s'.closed == s.closed && s'.jobs == s.jobs
      && (forall x :: x in s.c.active ==> x in s'.c.active)
      && (s.s2c[0].Accepted? ==> s.s2c[0].subId in s'.c.active)
  {
    hide Subs, WantsCall;
  }

  lemma ClientTookOrdered(s: System)
    requires Typed(s) && Ordered(s) && s.s2c != []
    ensures Ordered(ClientTook(s))
  {
    hide Typed, ClientTook, KnownBy, OkS;
    var s' := ClientTook(s);
    HeadIsOk(s);
    TakenParts(s);
    forall i | 0 <= i < |s'.s2c| && Update(s'.s2c[i])
      ensures KnownBy(s', i, s'.s2c[i].subId)
    {
      assert s'.s2c[i] == s.s2c[i + 1];
      TakenKnown(s, s', i + 1, s.s2c[i + 1].subId);
    }
    forall j | j in s'.jobs && j.DeltaJob?
      ensures KnownBy(s', |s'.s2c|, j.subId)
    {
      TakenKnown(s, s', |s.s2c|, j.subId);
    }
  }

  lemma ClientSubscribedOrdered(s: System, query: string, params: string)
    requires Ordered(s)
    ensures Ordered(ClientSubscribed(s, query, params))
  {
    hide Ordered;
    QuietStep(s, ClientSubscribed(s, query, params));
  }

  lemma ClientCalledOrdered(s: System, call: Call)
    requires Ordered(s)
    ensures Ordered(ClientCalled(s, call))
  {
    hide Ordered;
    QuietStep(s, ClientCalled(s, call));
  }

  lemma ClientGaveUpOrdered(s: System, subId: nat)
    requires Ordered(s)
    ensures Ordered(ClientGaveUp(s, subId))
  {
    hide Ordered;
    QuietStep(s, ClientGaveUp(s, subId));
  }

  lemma ConnectsOrdered(s: System)
    requires Ordered(s)
    ensures Ordered(s.(c := s.c.(status := Connecting)))
  {
    hide Ordered;
    QuietStep(s, s.(c := s.c.(status := Connecting)));
  }

  /** A socket opens and closes with nothing on its way. */
  lemma EmptyOrdered(s: System)
    requires s.s2c == [] && s.jobs == []
    ensures Ordered(s)
  {
  }

  lemma SocketOpenedEmpty(s: System, newConn: nat, pendOrder: seq<nat>, actOrder: seq<nat>)
    requires Enumerates(pendOrder, s.c.pending.Keys) && Enumerates(actOrder, s.c.active.Keys)
    requires Linked(s) && Ids(s) && s.c.status == Connecting
    ensures var s' := SocketOpened(s, newConn, pendOrder, actOrder); s'.s2c == [] && s'.jobs == []
  {
    hide Enumerates, SocketOpened, Ids;
    SocketOpenedParts(s, newConn, pendOrder, actOrder);
  }

  lemma StepOrdered(s: System, step: Step)
    requires Inv(s) && Ordered(s) && Enabled(s, step)
    ensures Ordered(Next(s, step))
  {
    hide Ordered, Enumerates, ClientSubscribed, ClientCalled, ClientGaveUp, SocketOpened, ServerTook, SnapshotSent,
      JobReplied, EventSeen, DeltasSent, ClientTook, Subs, Ids, SubIds, Linked, Requests, Placed, GivenUp, Typed,
      Agreeing, Answered, Handlers;
    match step
    case ClientSubscribes(query, params) => ClientSubscribedOrdered(s, query, params);
    case ClientCalls(call) => ClientCalledOrdered(s, call);
    case ClientUnsubscribes(subId) => ClientGaveUpOrdered(s, subId);
    case Connects => ConnectsOrdered(s);
    case SocketOpens(newConn, pendOrder, actOrder) =>
      SocketOpenedEmpty(s, newConn, pendOrder, actOrder);
      EmptyOrdered(SocketOpened(s, newConn, pendOrder, actOrder));
    case ServerTakes => TookOrdered(s);
    case SnapshotReady(i) => SnapshotOrdered(s, i);
    case SnapshotFails(i, message) => RepliedOrdered(s, i, Error(s.jobs[i].id, BlameOf(s.jobs[i]), message));
    case GatewayAnswers(i, body) => RepliedOrdered(s, i, Result(s.jobs[i].id, Answer(s.jobs[i].call, body)));
    case GatewayFails(i, message) => RepliedOrdered(s, i, Error(s.jobs[i].id, BlameOf(s.jobs[i]), message));
    case KafkaEvent(subId) => EventOrdered(s, subId);
    case DeltaReady(i, n) => DeltasOrdered(s, i, n);
    case ClientTakes => ClientTookOrdered(s);
    case SocketCloses => EmptyOrdered(SocketClosed(s));
  }

  lemma {:induction false} TraceOrdered(tr: seq<System>, steps: seq<Step>, i: nat)
    requires Trace(tr, steps) && i < |tr|
    ensures Ordered(tr[i])
  {
    hide Next, Enabled, Inv;
    if i == 0 {
      assert tr[0].s2c == [] && tr[0].jobs == [];
    } else {
      hide Ordered;
      TraceOrdered(tr, steps, i - 1);
      TraceKeeps(tr, steps, i - 1);
      StepOrdered(tr[i - 1], steps[i - 1]);
    }
  }

  /** In every run, each snapshot and each delta that reaches the client runs the handlers of its
      subscription, unless that subscription was given up before. */
  lemma UpdatesReachHandlers(tr: seq<System>, steps: seq<Step>, i: nat)
    requires Trace(tr, steps) && i < |tr| && tr[i].s2c != [] && Update(tr[i].s2c[0])
    ensures EffectOf(tr[i]) == Runs(tr[i].s2c[0].subId) || tr[i].s2c[0].subId in tr[i].closed
  {
    TraceOrdered(tr, steps, i);
    assert KnownBy(tr[i], 0, tr[i].s2c[0].subId);
    hide Trace;
  }
}
