/** Every step of the subscription protocol keeps its invariant. */
module SubscriptionSteps {
  import opened Wire
  import opened WsClient
  import opened SubscriptionBroker
  import opened Sequences
  import opened Tally
  import opened Subscriptions

  // ---- opening a socket -------------------------------------------------------------------------------

  lemma {:induction false} ResendLaw(c: Client, order: seq<nat>, base: nat)
    requires forall id :: id in order ==> id in c.pending
    ensures Sum(Resend(c, order), ReqC()) == multiset(order) && Sum(Resend(c, order), UnsubC(base)) == multiset{}
    ensures forall m :: m in Resend(c, order) ==>
      m.Subscribe? && m.id in c.pending && Asks(m, c.pending[m.id])
    ensures forall id :: id in order ==> Subscribe(id, c.pending[id].query, c.pending[id].params) in Resend(c, order)
  {
    if order != [] {
      ResendLaw(c, order[1..], base);
      assert order == [order[0]] + order[1..];
      var first := Subscribe(order[0], c.pending[order[0]].query, c.pending[order[0]].params);
      assert Resend(c, order) == [first] + Resend(c, order[1..]);
      SumCons(first, Resend(c, order[1..]), ReqC());
      SumCons(first, Resend(c, order[1..]), UnsubC(base));
    }
  }

  predicate CanReissue(c: Client, order: seq<nat>) {
    && (forall subId :: subId in order ==> subId in c.active)
    && (forall id :: id in c.pending ==> id < c.nextId)
  }

  function ReissueFirst(c: Client, subId: nat): Client
    requires subId in c.active
  {
    c.(nextId := c.nextId + 1, pending := c.pending[c.nextId := c.active[subId]])
  }

  /** Reissuing only adds pending requests, under new ids. */
  lemma {:induction false} ReissueAdds(c: Client, order: seq<nat>)
    requires CanReissue(c, order)
    ensures var c' := Reissue(c, order).0;
      && c' == c.(nextId := c.nextId + |order|, pending := c'.pending)
      && (forall id :: id in c'.pending ==> id < c'.nextId)
      && (forall id :: id in c.pending ==> id in c'.pending && c'.pending[id] == c.pending[id])
      && (forall id :: id in c'.pending && id !in c.pending ==>
            id >= c.nextId && exists subId :: subId in order && c'.pending[id] == c.active[subId])
      && |c'.pending| == |c.pending| + |order|
    decreases |order|
  {
    if order != [] {
      var c1 := ReissueFirst(c, order[0]);
      ReissueAdds(c1, order[1..]);
      assert c1.pending.Keys == c.pending.Keys + {c.nextId};
      assert |c1.pending.Keys| == |c.pending.Keys| + 1;
      assert order[0] in order;
    }
  }

  /** One request goes out per active subscription, under the id it is pending under. */
  lemma {:induction false} ReissueCounts(c: Client, order: seq<nat>, base: nat)
    requires CanReissue(c, order)
    ensures var (c', out) := Reissue(c, order);
      && multiset(c.pending.Keys) + Sum(out, ReqC()) == multiset(c'.pending.Keys)
      && Sum(out, UnsubC(base)) == multiset{}
    decreases |order|
  {
    if order != [] {
      var c1 := ReissueFirst(c, order[0]);
      assert CanReissue(c1, order[1..]);
      var out := Reissue(c1, order[1..]).1;
      var first := Subscribe(c.nextId, c.active[order[0]].query, c.active[order[0]].params);
      assert Reissue(c, order).1 == [first] + out && Reissue(c, order).0 == Reissue(c1, order[1..]).0;
      assert ReqC()(first) == multiset{c.nextId} && UnsubC(base)(first) == multiset{};
      assert c1.pending.Keys == c.pending.Keys + {c.nextId};
      assert multiset(c1.pending.Keys) == multiset(c.pending.Keys) + multiset{c.nextId};
      hide Sum, Reissue, ReqC, UnsubC, ReissueFirst, CanReissue;
      ReissueCounts(c1, order[1..], base);
      SumCons(first, out, ReqC());
      SumCons(first, out, UnsubC(base));
    }
  }

  predicate Asks(m: ClientMsg, sub: Sub) {
    m.Subscribe? && m.query == sub.query && m.params == sub.params
  }

  lemma {:induction false} ReissueAsks(c: Client, order: seq<nat>)
    requires CanReissue(c, order)
    ensures var (c', out) := Reissue(c, order);
      && (forall m :: m in out ==> m.Subscribe? && m.id in c'.pending && Asks(m, c'.pending[m.id]))
      && (forall subId :: subId in order ==> exists m :: m in out && Asks(m, c.active[subId]))
    decreases |order|
  {
    if order != [] {
      var c1 := ReissueFirst(c, order[0]);
      ReissueAsks(c1, order[1..]);
      ReissueAdds(c1, order[1..]);
      var (c', out) := Reissue(c1, order[1..]);
      var first := Subscribe(c.nextId, c.active[order[0]].query, c.active[order[0]].params);
      assert Reissue(c, order) == (c', [first] + out);
      assert c.nextId in c1.pending && c'.pending[c.nextId] == c.active[order[0]];
      assert Asks(first, c'.pending[c.nextId]);
      forall subId | subId in order
        ensures exists m :: m in [first] + out && Asks(m, c.active[subId])
      {
        if subId == order[0] {
          assert first in [first] + out;
        } else {
          assert subId in order[1..];
          var m :| m in out && Asks(m, c1.active[subId]);
          assert m in [first] + out;
        }
      }
    }
  }

  // ---- the steps of the server ---------------------------------------------------------------------

  lemma {:induction false} DeltasCountNothing(subId: nat, n: nat)
    ensures Sum(Deltas(subId, n), ReqS()) == multiset{} && Sum(Deltas(subId, n), AccS()) == multiset{}
    ensures forall m :: m in Deltas(subId, n) ==> m == Delta(subId)
  {
    hide Sum;
    SumEmpty(ReqS());
    SumEmpty(AccS());
    if n > 0 {
      var rest := Deltas(subId, n - 1);
      DeltasCountNothing(subId, n - 1);
      SumCons(Delta(subId), rest, ReqS());
      SumCons(Delta(subId), rest, AccS());
      assert Deltas(subId, n) == [Delta(subId)] + rest;
    }
  }

  /** A job that ends in one reply with its request id moves the request one place on. */
  lemma ReplyMoves(c2s: seq<ClientMsg>, jobs: seq<Job>, i: nat, s2c: seq<ServerMsg>, reply: ServerMsg)
    requires i < |jobs| && ReqJ()(jobs[i]) == ReqS()(reply)
    ensures InFlight(c2s, Without(jobs, i), s2c + [reply]) == InFlight(c2s, jobs, s2c)
  {
    hide Sum, ReqJ, ReqS, ReqC;
    SumWithout(jobs, i, ReqJ());
    SumSnoc(s2c, reply, ReqS());
  }

  lemma DispatchSums(b: Connections, conn: nat, m: ClientMsg)
    ensures var (_, jobs, replies) := Dispatched(b, conn, m);
      && Sum(jobs, ReqJ()) + Sum(replies, ReqS()) == ReqC()(m)
      && Sum(replies, AccS()) == multiset{}
  {
    hide Refusal, Sum, Dropped;
    SumEmpty(ReqJ());
    SumEmpty(ReqS());
    SumEmpty(AccS());
    match m
    case Subscribe(id, query, params) =>
      OneJob(SnapshotJob(id, query, params));
      OneError(id, OfSubscribe, "unknown connection");
    case Unsubscribe(_, subId) =>
    case Rpc(id, call) =>
      OneJob(RpcJob(id, call));
      OneError(id, OfCall(call), Refusal(call));
  }

  lemma DispatchSubs(b: Connections, conn: nat, m: ClientMsg)
    ensures var (b', _, _) := Dispatched(b, conn, m);
      SubsOf(b', conn).Keys == if m.Unsubscribe? then SubsOf(b, conn).Keys - {m.subId} else SubsOf(b, conn).Keys
  {
    hide Refusal;
  }

  lemma OneJob(job: Job)
    ensures Sum([job], ReqJ()) == ReqJ()(job)
  {
    SumOne(job, ReqJ());
  }

  lemma OneError(id: nat, blame: Blame, message: string)
    ensures Sum([Error(id, blame, message)], ReqS()) == multiset{id} && Sum([Error(id, blame, message)], AccS()) == multiset{}
  {
    SumOne(Error(id, blame, message), ReqS());
    SumOne(Error(id, blame, message), AccS());
  }

  lemma TakeMoves(c2s: seq<ClientMsg>, jobs: seq<Job>, s2c: seq<ServerMsg>, started: seq<Job>, replies: seq<ServerMsg>)
    requires c2s != [] && Sum(started, ReqJ()) + Sum(replies, ReqS()) == ReqC()(c2s[0])
    ensures InFlight(c2s[1..], jobs + started, s2c + replies) == InFlight(c2s, jobs, s2c)
  {
    hide Sum, ReqJ, ReqS, ReqC;
    assert c2s == [c2s[0]] + c2s[1..];
    SumCons(c2s[0], c2s[1..], ReqC());
    SumConcat(jobs, started, ReqJ());
    SumConcat(s2c, replies, ReqS());
  }

  lemma SnapshotMoves(c2s: seq<ClientMsg>, jobs: seq<Job>, i: nat, s2c: seq<ServerMsg>, subId: nat)
    requires i < |jobs| && jobs[i].SnapshotJob?
    ensures InFlight(c2s, Without(jobs, i), s2c + [Accepted(jobs[i].id, subId), Snapshot(subId)]) == InFlight(c2s, jobs, s2c)
    ensures Sum(s2c + [Accepted(jobs[i].id, subId), Snapshot(subId)], AccS()) == Sum(s2c, AccS()) + multiset{subId}
  {
    hide Sum;
    var (accepted, snapshot) := (Accepted(jobs[i].id, subId), Snapshot(subId));
    assert s2c + [accepted, snapshot] == (s2c + [accepted]) + [snapshot];
    ReplyMoves(c2s, jobs, i, s2c, accepted);
    SumSnoc(s2c + [accepted], snapshot, ReqS());
    SumSnoc(s2c, accepted, AccS());
    SumSnoc(s2c + [accepted], snapshot, AccS());
  }

  lemma DeltaMoves(c2s: seq<ClientMsg>, jobs: seq<Job>, i: nat, s2c: seq<ServerMsg>, n: nat)
    requires i < |jobs| && jobs[i].DeltaJob?
    ensures InFlight(c2s, Without(jobs, i), s2c + Deltas(jobs[i].subId, n)) == InFlight(c2s, jobs, s2c)
    ensures Sum(s2c + Deltas(jobs[i].subId, n), AccS()) == Sum(s2c, AccS())
  {
    hide Sum, Deltas;
    DeltasCountNothing(jobs[i].subId, n);
    SumWithout(jobs, i, ReqJ());
    SumConcat(s2c, Deltas(jobs[i].subId, n), ReqS());
    SumConcat(s2c, Deltas(jobs[i].subId, n), AccS());
  }

  lemma EventMoves(c2s: seq<ClientMsg>, jobs: seq<Job>, s2c: seq<ServerMsg>, subId: nat)
    ensures InFlight(c2s, jobs + [DeltaJob(subId)], s2c) == InFlight(c2s, jobs, s2c)
  {
    hide Sum;
    SumSnoc(jobs, DeltaJob(subId), ReqJ());
  }

  lemma AcceptedAreSubs(s: System)
    requires Placed(s)
    ensures forall m :: m in s.s2c && m.Accepted? ==> m.subId in Subs(s)
  {
    hide Sum, Subs;
    forall m | m in s.s2c && m.Accepted?
      ensures m.subId in Subs(s)
    {
      SumMember(s.s2c, m, AccS());
      assert m.subId in AccS()(m);
      assert m.subId in multiset(Subs(s).Keys);
    }
  }

  /** Nothing a message refers to is lost while requests and calls are only added. */
  lemma TypedGrows(s: System, s': System)
    requires Typed(s)
    requires forall id :: id in s.c.pending ==> id in s'.c.pending && s'.c.pending[id] == s.c.pending[id]
    requires s.sent <= s'.sent && s.closed <= s'.closed
    requires forall id :: id in s.sent && id in s.calls ==> id in s'.calls && s'.calls[id] == s.calls[id]
    requires forall m :: m in s.s2c && m.Accepted? && m.subId in Subs(s') ==> m.subId in Subs(s) && Subs(s')[m.subId] == Subs(s)[m.subId]
    ensures forall m :: m in s.c2s ==> OkC(s', m)
    ensures forall j :: j in s.jobs ==> OkJ(s', j)
    ensures forall m :: m in s.s2c ==> OkS(s', m)
  {
    hide Subs;
  }

  /** The server's steps leave the client alone, and change its own map in one place. */
  ghost predicate ServerMoves(s: System, s': System) {
    && s' == s.(b := s'.b, nextSub := s'.nextSub, c2s := s'.c2s, s2c := s'.s2c, jobs := s'.jobs)
    && s.c.status == Open && s.nextSub <= s'.nextSub && s'.conn in s'.b
    && (forall id :: id in Subs(s') ==> (id in Subs(s) && Subs(s')[id] == Subs(s)[id]) || s.nextSub <= id < s'.nextSub)
  }

  lemma ServerRest(s: System, s': System)
    requires ServerMoves(s, s')
    requires Ids(s) && SubIds(s) && Linked(s) && Agreeing(s) && Answered(s) && Handlers(s)
    ensures Ids(s') && SubIds(s') && Linked(s') && Agreeing(s') && Answered(s') && Handlers(s')
  {
    hide Subs, Held;
  }

  /** A server step keeps the invariant if it moves every id to exactly one new place and says
      nothing it may not say. */
  lemma ServerKeepsInv(s: System, s': System, added: seq<ServerMsg>)
    requires Inv(s) && ServerMoves(s, s')
    requires InFlight(s'.c2s, s'.jobs, s'.s2c) == InFlight(s.c2s, s.jobs, s.s2c)
    requires Placed(s') && GivenUp(s')
    requires s'.s2c == s.s2c + added && forall m :: m in added ==> OkS(s', m)
    requires forall m :: m in s'.c2s ==> m in s.c2s
    requires forall j :: j in s'.jobs ==> j in s.jobs || OkJ(s', j)
    ensures Inv(s')
  {
    hide Sum, InFlight, Placed, GivenUp, Ids, SubIds, Linked, Agreeing, Answered, Handlers;
    assert Requests(s') by { hide Typed; }
    AcceptedAreSubs(s);
    SubsBelow(s);
    TypedGrows(s, s');
    hide OkC, OkJ, OkS;
    ServerRest(s, s');
  }

  lemma SubsBelow(s: System)
    requires SubIds(s)
    ensures forall id :: id in Subs(s) ==> id < s.nextSub
  {
  }

  lemma TakeUnsub(acc: multiset<nat>, here: multiset<nat>, rest: multiset<nat>, keys: set<nat>, x: nat)
    requires acc + here + (multiset{x} + rest) == multiset(keys)
    ensures acc + here + rest == multiset(keys - {x})
  {
    assert x in multiset(keys);
    forall y: nat
      ensures (acc + here + rest)[y] == multiset(keys - {x})[y]
    {
      assert (acc + here + (multiset{x} + rest))[y] == multiset(keys)[y];
    }
  }

  lemma IsPlaced(s: System, acc: multiset<nat>, here: set<nat>, out: multiset<nat>, keys: set<nat>)
    requires Sum(s.s2c, AccS()) == acc && Here(s) == here && Sum(s.c2s, UnsubC(s.base)) == out && Subs(s).Keys == keys
    ensures Placed(s) <==> acc + multiset(here) + out == multiset(keys)
  {
  }

  lemma IsGivenUp(s: System, acc: multiset<nat>, closed: set<nat>)
    requires Sum(s.s2c, AccS()) == acc && s.closed == closed
    ensures GivenUp(s) <==> forall id :: id in closed ==> id !in acc
  {
  }

  lemma TookParts(s: System)
    requires s.c2s != [] && SubIds(s)
    ensures var (m, s') := (s.c2s[0], ServerTook(s));
      && Here(s') == Here(s) && s'.c2s == s.c2s[1..] && s'.base == s.base && s'.closed == s.closed
      && s'.s2c == s.s2c + Dispatched(s.b, s.conn, m).2
      && UnsubC(s.base)(m) == (if m.Unsubscribe? && m.subId >= s.base then multiset{m.subId} else multiset{})
      && Subs(s').Keys == if m.Unsubscribe? && m.subId >= s.base then Subs(s).Keys - {m.subId} else Subs(s).Keys
  {
    var m := s.c2s[0];
    DispatchSubs(s.b, s.conn, m);
    hide Dispatched;
    assert Subs(ServerTook(s)).Keys == if m.Unsubscribe? then Subs(s).Keys - {m.subId} else Subs(s).Keys;
    assert m.Unsubscribe? && m.subId < s.base ==> Subs(s).Keys - {m.subId} == Subs(s).Keys;
  }

  lemma TookPlaced(s: System)
    requires s.c2s != [] && SubIds(s) && Placed(s) && GivenUp(s)
    ensures Placed(ServerTook(s)) && GivenUp(ServerTook(s))
  {
    hide *;
    var (m, s') := (s.c2s[0], ServerTook(s));
    var replies := Dispatched(s.b, s.conn, m).2;
    DispatchSums(s.b, s.conn, m);
    TookParts(s);
    SumConcat(s.s2c, replies, AccS());
    assert s.c2s == [m] + s.c2s[1..];
    SumCons(m, s.c2s[1..], UnsubC(s.base));
    var (acc, rest) := (Sum(s.s2c, AccS()), Sum(s.c2s[1..], UnsubC(s.base)));
    IsPlaced(s, acc, Here(s), UnsubC(s.base)(m) + rest, Subs(s).Keys);
    IsPlaced(s', acc, Here(s), rest, Subs(s').Keys);
    IsGivenUp(s, acc, s.closed);
    IsGivenUp(s', acc, s.closed);
    if m.Unsubscribe? && m.subId >= s.base {
      TakeUnsub(acc, multiset(Here(s)), rest, Subs(s).Keys, m.subId);
    }
  }

  lemma TookMoves(s: System)
    requires s.c2s != [] && s.c.status == Open && Linked(s)
    ensures ServerMoves(s, ServerTook(s))
  {
    hide Refusal;
  }

  lemma TookSays(s: System)
    requires s.c2s != [] && Typed(s)
    ensures
      var (_, jobs, replies) := Dispatched(s.b, s.conn, s.c2s[0]);
      && (forall j :: j in jobs ==> OkJ(ServerTook(s), j))
      && (forall m :: m in replies ==> OkS(ServerTook(s), m))
  {
    hide Refusal, Dropped;
    assert OkC(s, s.c2s[0]);
  }

  lemma ServerTookKeeps(s: System)
    requires Inv(s) && s.c2s != [] && s.c.status == Open
    ensures Inv(ServerTook(s))
  {
    hide Sum, Dispatched, InFlight, Placed, GivenUp, Requests, Typed, Ids, SubIds, Linked, Agreeing, Answered, Handlers, OkS, OkJ, ServerMoves;
    var (_, jobs, replies) := Dispatched(s.b, s.conn, s.c2s[0]);
    DispatchSums(s.b, s.conn, s.c2s[0]);
    TakeMoves(s.c2s, s.jobs, s.s2c, jobs, replies);
    TookPlaced(s);
    TookMoves(s);
    TookSays(s);
    ServerKeepsInv(s, ServerTook(s), replies);
  }

  lemma SnapshotPlaced(s: System, i: nat)
    requires i < |s.jobs| && s.jobs[i].SnapshotJob? && s.c.status == Open && Linked(s) && SubIds(s) && Placed(s) && GivenUp(s)
    ensures Placed(SnapshotSent(s, i)) && GivenUp(SnapshotSent(s, i)) && ServerMoves(s, SnapshotSent(s, i))
  {
    hide Sum;
    var s' := SnapshotSent(s, i);
    SnapshotMoves(s.c2s, s.jobs, i, s.s2c, s.nextSub);
    assert Here(s') == Here(s) && Subs(s').Keys == Subs(s).Keys + {s.nextSub};
    SetAdd(Subs(s).Keys, s.nextSub);
  }

  lemma SnapshotSentKeeps(s: System, i: nat)
    requires Inv(s) && i < |s.jobs| && s.jobs[i].SnapshotJob? && s.c.status == Open
    ensures Inv(SnapshotSent(s, i))
  {
    hide Sum, InFlight, Placed, GivenUp, Requests, Ids, SubIds, Agreeing, Answered, Handlers;
    var s' := SnapshotSent(s, i);
    SnapshotPlaced(s, i);
    SnapshotMoves(s.c2s, s.jobs, i, s.s2c, s.nextSub);
    WithoutKeeps(s.jobs, i);
    assert OkJ(s, s.jobs[i]);
    assert OkS(s', Accepted(s.jobs[i].id, s.nextSub)) && OkS(s', Snapshot(s.nextSub));
    hide ServerMoves, Typed, OkS, OkJ, OkC, Without, Linked;
    ServerKeepsInv(s, s', [Accepted(s.jobs[i].id, s.nextSub), Snapshot(s.nextSub)]);
  }

  lemma JobRepliedKeeps(s: System, i: nat, reply: ServerMsg)
    requires Inv(s) && i < |s.jobs| && s.c.status == Open
    requires !reply.Accepted? && ReqJ()(s.jobs[i]) == ReqS()(reply) && OkS(s, reply)
    ensures Inv(JobReplied(s, i, reply))
  {
    hide Sum, InFlight, Requests, Typed, Ids, SubIds, Agreeing, Answered, Handlers, Without;
    var s' := JobReplied(s, i, reply);
    ReplyMoves(s.c2s, s.jobs, i, s.s2c, reply);
    SumSnoc(s.s2c, reply, AccS());
    assert Here(s') == Here(s);
    WithoutKeeps(s.jobs, i);
    assert OkS(s', reply);
    ServerKeepsInv(s, s', [reply]);
  }

  lemma EventSeenKeeps(s: System, subId: nat)
    requires Inv(s) && s.c.status == Open
    ensures Inv(EventSeen(s, subId))
  {
    hide Sum, InFlight, Requests, Typed, Ids, SubIds, Agreeing, Answered, Handlers, Without;
    var s' := EventSeen(s, subId);
    EventMoves(s.c2s, s.jobs, s.s2c, subId);
    assert Here(s') == Here(s) && s'.s2c == s.s2c + [];
    ServerKeepsInv(s, s', []);
  }

  lemma DeltasSentKeeps(s: System, i: nat, n: nat)
    requires Inv(s) && i < |s.jobs| && s.jobs[i].DeltaJob? && s.c.status == Open
    ensures Inv(DeltasSent(s, i, n))
  {
    hide Sum, InFlight, Requests, Typed, Ids, SubIds, Agreeing, Answered, Handlers, Without, Deltas;
    var s' := DeltasSent(s, i, n);
    DeltaMoves(s.c2s, s.jobs, i, s.s2c, n);
    DeltasCountNothing(s.jobs[i].subId, n);
    assert Here(s') == Here(s);
    WithoutKeeps(s.jobs, i);
    ServerKeepsInv(s, s', Deltas(s.jobs[i].subId, n));
  }

  // ---- the steps of the client --------------------------------------------------------------------

  lemma SendMoves(c2s: seq<ClientMsg>, jobs: seq<Job>, s2c: seq<ServerMsg>, m: ClientMsg, base: nat)
    ensures InFlight(c2s + [m], jobs, s2c) == InFlight(c2s, jobs, s2c) + ReqC()(m)
    ensures Sum(c2s + [m], UnsubC(base)) == Sum(c2s, UnsubC(base)) + UnsubC(base)(m)
    ensures c2s + [] == c2s
  {
    hide Sum;
    SumSnoc(c2s, m, ReqC());
    SumSnoc(c2s, m, UnsubC(base));
  }

  lemma HeldStays(c: Client, c': Client)
    requires forall id :: id in c.pending ==> id in c'.pending && c'.pending[id] == c.pending[id]
    requires forall subId :: subId in c.active ==> subId in c'.active && c'.active[subId] == c.active[subId]
    ensures forall h :: Held(c, h) ==> Held(c', h)
  {
  }

  /** Sending a message that carries no subscription id moves no subscription. */
  lemma PlacedSends(s: System, s': System)
    requires Placed(s) && GivenUp(s) && s'.base == s.base && s'.s2c == s.s2c && s'.closed == s.closed
    requires Subs(s') == Subs(s) && s'.c.active == s.c.active
    requires s'.c2s == s.c2s || exists m: ClientMsg :: !m.Unsubscribe? && s'.c2s == s.c2s + [m]
    ensures Placed(s') && GivenUp(s')
  {
    hide Sum, Subs;
    assert Here(s') == Here(s);
    if s'.c2s != s.c2s {
      var m: ClientMsg :| !m.Unsubscribe? && s'.c2s == s.c2s + [m];
      SumSnoc(s.c2s, m, UnsubC(s.base));
    }
  }

  /** Requests, with its parts named. */
  lemma AreRequests(s: System, total: multiset<nat>, pending: set<nat>, sent: set<nat>)
    requires InFlight(s.c2s, s.jobs, s.s2c) == total && s.c.pending.Keys == pending && s.sent == sent
    ensures Requests(s) <==> total == if s.c.status == Open then multiset(pending) + multiset(sent) else multiset{}
  {
    hide InFlight;
  }

  lemma AddOne(total: multiset<nat>, a: set<nat>, b: set<nat>, x: nat)
    requires total == multiset(a) + multiset(b)
    ensures x !in a ==> total + multiset{x} == multiset(a + {x}) + multiset(b)
    ensures x !in b ==> total + multiset{x} == multiset(a) + multiset(b + {x})
  {
    if x !in a { SetAdd(a, x); }
    if x !in b { SetAdd(b, x); }
  }

  lemma SubscribedParts(s: System, query: string, params: string)
    requires Ids(s)
    ensures var (s', m) := (ClientSubscribed(s, query, params), Subscribe(s.c.nextId, query, params));
      && s'.c2s == (if s.c.status == Open then s.c2s + [m] else s.c2s) && s'.jobs == s.jobs && s'.s2c == s.s2c
      && s'.c.pending.Keys == s.c.pending.Keys + {s.c.nextId} && s'.sent == s.sent && s'.c.status == s.c.status
      && s.c.nextId !in s.c.pending && ReqC()(m) == multiset{s.c.nextId}
  {
  }

  lemma ClientSubscribedRequests(s: System, query: string, params: string)
    requires Requests(s) && Ids(s)
    ensures Requests(ClientSubscribed(s, query, params))
  {
    hide *;
    var (s', id) := (ClientSubscribed(s, query, params), s.c.nextId);
    SubscribedParts(s, query, params);
    SendMoves(s.c2s, s.jobs, s.s2c, Subscribe(id, query, params), s.base);
    var total := InFlight(s.c2s, s.jobs, s.s2c);
    AreRequests(s, total, s.c.pending.Keys, s.sent);
    if s.c.status == Open {
      AddOne(total, s.c.pending.Keys, s.sent, id);
      AreRequests(s', total + multiset{id}, s.c.pending.Keys + {id}, s.sent);
    } else {
      AreRequests(s', total, s.c.pending.Keys + {id}, s.sent);
    }
  }

  lemma ClientSubscribedHandlers(s: System, query: string, params: string)
    requires Handlers(s) && Ids(s)
    ensures Handlers(ClientSubscribed(s, query, params))
  {
    var s' := ClientSubscribed(s, query, params);
    HeldStays(s.c, s'.c);
    assert s'.c.pending[s.c.nextId].handler == s.c.nextId;
  }

  lemma ClientSubscribedTyped(s: System, query: string, params: string)
    requires Typed(s) && Ids(s)
    ensures Typed(ClientSubscribed(s, query, params))
  {
    var s' := ClientSubscribed(s, query, params);
    SameSubs(s, s');
    var m := Subscribe(s.c.nextId, query, params);
    assert s'.c2s == s.c2s || s'.c2s == s.c2s + [m];
    assert WantsSub(s', s.c.nextId, query, params);
    assert s'.s2c == s.s2c && s'.jobs == s.jobs && s'.sent == s.sent && s'.closed == s.closed && s'.calls == s.calls;
    assert forall id :: id in s.c.pending ==> id in s'.c.pending && s'.c.pending[id] == s.c.pending[id];
    hide ClientSubscribed, Subs, Ids, WantsSub, WantsCall;
    TypedGrows(s, s');
    hide OkJ, OkS;
  }

  lemma ClientSubscribedKeeps(s: System, query: string, params: string)
    requires Inv(s)
    ensures Inv(ClientSubscribed(s, query, params))
  {
    hide Sum, InFlight, Requests, Placed, GivenUp, Held, Subs, Typed, Handlers;
    var s' := ClientSubscribed(s, query, params);
    SameSubs(s, s');
    assert s'.c2s != s.c2s ==> s'.c2s == s.c2s + [Subscribe(s.c.nextId, query, params)];
    PlacedSends(s, s');
    ClientSubscribedRequests(s, query, params);
    ClientSubscribedHandlers(s, query, params);
    ClientSubscribedTyped(s, query, params);
  }

  lemma SameSubs(s: System, s': System)
    requires s'.b == s.b && s'.conn == s.conn
    ensures Subs(s') == Subs(s)
  {
  }

  lemma CalledParts(s: System, call: Call)
    requires Ids(s)
    ensures var (s', m) := (ClientCalled(s, call), Rpc(s.c.nextId, call));
      && s'.c2s == (if s.c.status == Open then s.c2s + [m] else s.c2s) && s'.jobs == s.jobs && s'.s2c == s.s2c
      && s'.sent == (if s.c.status == Open then s.sent + {s.c.nextId} else s.sent)
      && s'.c.pending == s.c.pending && s'.c.status == s.c.status && s.c.nextId !in s.sent
      && ReqC()(m) == multiset{s.c.nextId}
  {
  }

  lemma ClientCalledRequests(s: System, call: Call)
    requires Requests(s) && Ids(s)
    ensures Requests(ClientCalled(s, call))
  {
    hide *;
    var (s', id) := (ClientCalled(s, call), s.c.nextId);
    CalledParts(s, call);
    SendMoves(s.c2s, s.jobs, s.s2c, Rpc(id, call), s.base);
    var total := InFlight(s.c2s, s.jobs, s.s2c);
    AreRequests(s, total, s.c.pending.Keys, s.sent);
    if s.c.status == Open {
      AddOne(total, s.c.pending.Keys, s.sent, id);
      AreRequests(s', total + multiset{id}, s.c.pending.Keys, s.sent + {id});
    } else {
      AreRequests(s', total, s.c.pending.Keys, s.sent);
    }
  }

  lemma ClientCalledTyped(s: System, call: Call)
    requires Typed(s) && Ids(s)
    ensures Typed(ClientCalled(s, call))
  {
    var s' := ClientCalled(s, call);
    SameSubs(s, s');
    var m := Rpc(s.c.nextId, call);
    assert s'.c2s == s.c2s || (s'.c2s == s.c2s + [m] && WantsCall(s', s.c.nextId, call));
    assert s'.s2c == s.s2c && s'.jobs == s.jobs && s.sent <= s'.sent && s'.closed == s.closed && s'.c.pending == s.c.pending;
    assert forall id :: id in s.calls ==> id in s'.calls && s'.calls[id] == s.calls[id];
    hide ClientCalled, Subs, Ids, WantsSub, WantsCall;
    TypedGrows(s, s');
    hide OkJ, OkS;
  }

  lemma ClientCalledKeeps(s: System, call: Call)
    requires Inv(s)
    ensures Inv(ClientCalled(s, call))
  {
    hide Sum, InFlight, Requests, Placed, GivenUp, Held, Subs, Typed;
    var s' := ClientCalled(s, call);
    SameSubs(s, s');
    assert s'.c2s != s.c2s ==> s'.c2s == s.c2s + [Rpc(s.c.nextId, call)];
    PlacedSends(s, s');
    ClientCalledRequests(s, call);
    ClientCalledTyped(s, call);
    HeldStays(s.c, s'.c);
  }

  lemma ClientGaveUpRequests(s: System, subId: nat)
    requires Requests(s)
    ensures Requests(ClientGaveUp(s, subId))
  {
    var s' := ClientGaveUp(s, subId);
    var m := Unsubscribe(s.c.nextId, subId);
    assert s'.c2s == s.c2s || s'.c2s == s.c2s + [m];
    assert s'.jobs == s.jobs && s'.s2c == s.s2c && s'.sent == s.sent;
    assert s'.c.pending == s.c.pending && s'.c.status == s.c.status;
    hide ClientGaveUp, InFlight;
    SendMoves(s.c2s, s.jobs, s.s2c, m, s.base);
  }

  /** An id moves from the client's side onto a queue. */
  lemma MoveOut(acc: multiset<nat>, here: set<nat>, out: multiset<nat>, total: multiset<nat>, x: nat)
    requires acc + multiset(here) + out == total && x in here
    ensures acc + multiset(here - {x}) + (out + multiset{x}) == total
  {
    SetDrop(here, x);
  }

  lemma GaveUpParts(s: System, subId: nat)
    requires SubIds(s) && Linked(s) && subId in s.c.active
    ensures var (s', m) := (ClientGaveUp(s, subId), Unsubscribe(s.c.nextId, subId));
      && Here(s') == Here(s) - {subId} && s'.s2c == s.s2c && s'.base == s.base && Subs(s') == Subs(s)
      && s'.c2s == (if s.c.status == Open then s.c2s + [m] else s.c2s) && s'.closed == s.closed + {subId}
      && (s.c.status != Open ==> subId !in Here(s)) && (subId in Here(s) <==> subId >= s.base)
      && UnsubC(s.base)(m) == if subId >= s.base then multiset{subId} else multiset{}
  {
    SameSubs(s, ClientGaveUp(s, subId));
    hide Subs;
  }

  lemma ClientGaveUpPlaced(s: System, subId: nat)
    requires Placed(s) && GivenUp(s) && SubIds(s) && Linked(s) && subId in s.c.active
    ensures Placed(ClientGaveUp(s, subId)) && GivenUp(ClientGaveUp(s, subId))
  {
    hide *;
    var (s', m) := (ClientGaveUp(s, subId), Unsubscribe(s.c.nextId, subId));
    GaveUpParts(s, subId);
    NotAccepted(s, subId);
    SendMoves(s.c2s, s.jobs, s.s2c, m, s.base);
    var (acc, out, out') := (Sum(s.s2c, AccS()), Sum(s.c2s, UnsubC(s.base)), Sum(s'.c2s, UnsubC(s.base)));
    IsPlaced(s, acc, Here(s), out, Subs(s).Keys);
    IsPlaced(s', acc, Here(s) - {subId}, out', Subs(s).Keys);
    IsGivenUp(s, acc, s.closed);
    IsGivenUp(s', acc, s.closed + {subId});
    if subId in Here(s) {
      MoveOut(acc, Here(s), out, multiset(Subs(s).Keys), subId);
    } else {
      assert Here(s) - {subId} == Here(s);
      assert out' == out;
    }
  }

  /** A multiset that is a set holds nothing twice. */
  lemma NotTwice(a: multiset<nat>, b: set<nat>, c: multiset<nat>, total: set<nat>, x: nat)
    requires a + multiset(b) + c == multiset(total) && x in b
    ensures x !in a && x in total
  {
    assert multiset(total)[x] <= 1 && (a + multiset(b) + c)[x] == a[x] + 1 + c[x];
  }

  lemma NotAccepted(s: System, subId: nat)
    requires Placed(s) && SubIds(s) && subId in s.c.active
    ensures subId !in Sum(s.s2c, AccS())
  {
    hide Sum;
    if subId >= s.base {
      NotTwice(Sum(s.s2c, AccS()), Here(s), Sum(s.c2s, UnsubC(s.base)), Subs(s).Keys, subId);
    } else {
      assert subId !in multiset(Subs(s).Keys);
    }
  }

  lemma ClientGaveUpHandlers(s: System, subId: nat)
    requires Handlers(s)
    ensures Handlers(ClientGaveUp(s, subId))
  {
    var s' := ClientGaveUp(s, subId);
    if subId in s.c.active {
      forall h | h in s'.origin && h !in s'.rejected && h !in s'.dropped
        ensures Held(s'.c, h)
      {
        assert Held(s.c, h);
        if x :| x in s.c.active && s.c.active[x].handler == h {
          assert x in s'.c.active && s'.c.active[x].handler == h;
        } else {
          var id :| id in s.c.pending && s.c.pending[id].handler == h;
          assert id in s'.c.pending;
        }
      }
    }
  }

  lemma ClientGaveUpTyped(s: System, subId: nat)
    requires Typed(s)
    ensures Typed(ClientGaveUp(s, subId))
  {
    var s' := ClientGaveUp(s, subId);
    SameSubs(s, s');
    assert s'.c2s == s.c2s || (s'.c2s == s.c2s + [Unsubscribe(s.c.nextId, subId)] && subId in s'.closed);
    assert s'.s2c == s.s2c && s'.jobs == s.jobs && s'.sent == s.sent && s.closed <= s'.closed && s'.calls == s.calls;
    assert s'.c.pending == s.c.pending;
    hide ClientGaveUp, Subs, WantsSub, WantsCall;
    TypedGrows(s, s');
    hide OkJ, OkS;
  }

  lemma ClientGaveUpKeeps(s: System, subId: nat)
    requires Inv(s)
    ensures Inv(ClientGaveUp(s, subId))
  {
    hide Sum, InFlight, Requests, Placed, GivenUp, Subs, Handlers, Typed;
    var s' := ClientGaveUp(s, subId);
    ClientGaveUpRequests(s, subId);
    if subId in s.c.active { ClientGaveUpPlaced(s, subId); }
    ClientGaveUpHandlers(s, subId);
    ClientGaveUpTyped(s, subId);
    SameSubs(s, s');
  }

  lemma ConnectsKeeps(s: System)
    requires Inv(s) && s.c.status == Closed
    ensures Inv(s.(c := s.c.(status := Connecting)))
  {
    hide Sum, InFlight, Subs, OkC, OkJ, OkS;
    var s' := s.(c := s.c.(status := Connecting));
    assert Here(s') == Here(s);
    SameSubs(s, s');
    HeldStays(s.c, s'.c);
    hide Held;
  }

  /** What opening a socket does to each part of the state. */
  lemma SocketOpenedParts(s: System, newConn: nat, pendOrder: seq<nat>, actOrder: seq<nat>)
    requires Enumerates(pendOrder, s.c.pending.Keys) && Enumerates(actOrder, s.c.active.Keys) && Ids(s)
    ensures var (s', c1) := (SocketOpened(s, newConn, pendOrder, actOrder), s.c.(status := Open));
      && (forall id :: id in pendOrder ==> id in c1.pending) && CanReissue(c1, actOrder)
      && s'.c == Reissue(c1, actOrder).0 && s'.c2s == Resend(c1, pendOrder) + Reissue(c1, actOrder).1
      && s' == s.(c := s'.c, c2s := s'.c2s, b := s'.b, conn := newConn, base := s.nextSub)
      && Subs(s') == map[] && newConn in s'.b
  {
    EnumeratesMembers(pendOrder, s.c.pending.Keys);
    EnumeratesMembers(actOrder, s.c.active.Keys);
    hide Enumerates, Reissue, Resend;
  }

  lemma SocketOpenedRequests(s: System, newConn: nat, pendOrder: seq<nat>, actOrder: seq<nat>)
    requires Enumerates(pendOrder, s.c.pending.Keys) && Enumerates(actOrder, s.c.active.Keys)
    requires s.c.status == Connecting && Linked(s) && Ids(s)
    ensures Requests(SocketOpened(s, newConn, pendOrder, actOrder))
    ensures var s' := SocketOpened(s, newConn, pendOrder, actOrder); Sum(s'.c2s, UnsubC(s'.base)) == multiset{}
  {
    var s' := SocketOpened(s, newConn, pendOrder, actOrder);
    SocketOpenedParts(s, newConn, pendOrder, actOrder);
    var c1 := s.c.(status := Open);
    assert s.jobs == [] && s.s2c == [] && s.sent == {};
    assert multiset(pendOrder) == multiset(c1.pending.Keys);
    hide Sum, Resend, Reissue, Asks, SocketOpened, Enumerates, ReqC, UnsubC, ReqJ, ReqS, Ids, Linked, CanReissue;
    ResendLaw(c1, pendOrder, s'.base);
    ReissueAdds(c1, actOrder);
    ReissueCounts(c1, actOrder, s'.base);
    var out := Reissue(c1, actOrder).1;
    SumConcat(Resend(c1, pendOrder), out, ReqC());
    SumConcat(Resend(c1, pendOrder), out, UnsubC(s'.base));
    SumEmpty(ReqJ());
    SumEmpty(ReqS());
  }

  lemma SocketOpenedCounts(s: System, newConn: nat, pendOrder: seq<nat>, actOrder: seq<nat>)
    requires Enumerates(pendOrder, s.c.pending.Keys) && Enumerates(actOrder, s.c.active.Keys)
    requires s.c.status == Connecting && Linked(s) && SubIds(s) && Ids(s)
    ensures var s' := SocketOpened(s, newConn, pendOrder, actOrder); Requests(s') && Placed(s') && GivenUp(s')
  {
    var s' := SocketOpened(s, newConn, pendOrder, actOrder);
    SocketOpenedParts(s, newConn, pendOrder, actOrder);
    SocketOpenedRequests(s, newConn, pendOrder, actOrder);
    ReissueAdds(s.c.(status := Open), actOrder);
    assert s'.s2c == [] && s'.base == s.nextSub && s'.c.active == s.c.active;
    hide Resend, Reissue, SocketOpened, Enumerates, Ids, CanReissue, Requests, Subs;
    SumEmpty(AccS());
    assert Here(s') == {};
  }

  lemma SocketOpenedTyped(s: System, newConn: nat, pendOrder: seq<nat>, actOrder: seq<nat>)
    requires Enumerates(pendOrder, s.c.pending.Keys) && Enumerates(actOrder, s.c.active.Keys)
    requires s.c.status == Connecting && Linked(s) && Ids(s)
    ensures Typed(SocketOpened(s, newConn, pendOrder, actOrder))
  {
    var s' := SocketOpened(s, newConn, pendOrder, actOrder);
    SocketOpenedParts(s, newConn, pendOrder, actOrder);
    var c1 := s.c.(status := Open);
    assert s'.s2c == [] && s'.jobs == [];
    hide Sum, Resend, Reissue, SocketOpened, Enumerates, Linked, Ids, CanReissue, Subs, OkJ, OkS;
    ResendLaw(c1, pendOrder, s'.base);
    ReissueAdds(c1, actOrder);
    ReissueAsks(c1, actOrder);
    forall m | m in s'.c2s
      ensures OkC(s', m)
    {
      if m in Resend(c1, pendOrder) {
        assert Asks(m, c1.pending[m.id]);
      } else {
        assert m in Reissue(c1, actOrder).1 && Asks(m, s'.c.pending[m.id]);
      }
    }
  }

  lemma ReissueOrigins(c: Client, order: seq<nat>, origin: map<nat, (string, string)>, id: nat)
    requires CanReissue(c, order) && id in Reissue(c, order).0.pending
    requires forall x :: x in c.pending ==> c.pending[x].handler in origin && origin[c.pending[x].handler] == (c.pending[x].query, c.pending[x].params)
    requires forall x :: x in c.active ==> c.active[x].handler in origin && origin[c.active[x].handler] == (c.active[x].query, c.active[x].params)
    ensures var sub := Reissue(c, order).0.pending[id]; sub.handler in origin && origin[sub.handler] == (sub.query, sub.params)
  {
    ReissueAdds(c, order);
    hide Reissue;
    if id !in c.pending {
      var subId :| subId in order && Reissue(c, order).0.pending[id] == c.active[subId];
    }
  }

  lemma SocketOpenedHandlers(s: System, newConn: nat, pendOrder: seq<nat>, actOrder: seq<nat>)
    requires Enumerates(pendOrder, s.c.pending.Keys) && Enumerates(actOrder, s.c.active.Keys)
    requires Handlers(s) && Ids(s)
    ensures Handlers(SocketOpened(s, newConn, pendOrder, actOrder))
  {
    var s' := SocketOpened(s, newConn, pendOrder, actOrder);
    SocketOpenedParts(s, newConn, pendOrder, actOrder);
    var c1 := s.c.(status := Open);
    ReissueAdds(c1, actOrder);
    hide Reissue, Resend, SocketOpened, Enumerates, Ids, CanReissue, Subs;
    HeldStays(s.c, s'.c);
    hide Held;
    forall id | id in s'.c.pending
      ensures FromOrigin(s', s'.c.pending[id])
    {
      ReissueOrigins(c1, actOrder, s.origin, id);
    }
  }

  lemma SocketOpenedRest(s: System, newConn: nat, pendOrder: seq<nat>, actOrder: seq<nat>)
    requires Enumerates(pendOrder, s.c.pending.Keys) && Enumerates(actOrder, s.c.active.Keys)
    requires s.c.status == Connecting && Ids(s) && SubIds(s) && Linked(s) && Answered(s)
    ensures var s' := SocketOpened(s, newConn, pendOrder, actOrder);
      Ids(s') && SubIds(s') && Linked(s') && Agreeing(s') && Answered(s')
  {
    var s' := SocketOpened(s, newConn, pendOrder, actOrder);
    SocketOpenedParts(s, newConn, pendOrder, actOrder);
    var c1 := s.c.(status := Open);
    ReissueAdds(c1, actOrder);
    var c' := Reissue(c1, actOrder).0;
    assert c'.active == s.c.active && c'.rpcs == s.c.rpcs && c'.status == Open && c'.nextId >= s.c.nextId;
    assert forall id :: id in c'.pending && id !in s.c.pending ==> id >= s.c.nextId;
    assert forall id :: id in c'.pending ==> id < c'.nextId;
    hide Reissue, Resend, SocketOpened, Enumerates, CanReissue, Subs;
    OpenedRest(s, s');
  }

  lemma OpenedRest(s: System, s': System)
    requires s.c.status == Connecting && Ids(s) && SubIds(s) && Linked(s) && Answered(s)
    requires s' == s.(c := s'.c, c2s := s'.c2s, b := s'.b, conn := s'.conn, base := s.nextSub)
    requires s'.c.active == s.c.active && s'.c.rpcs == s.c.rpcs && s'.c.status == Open && s'.c.nextId >= s.c.nextId
    requires forall id :: id in s'.c.pending && id !in s.c.pending ==> id >= s.c.nextId
    requires forall id :: id in s'.c.pending ==> id < s'.c.nextId
    requires Subs(s') == map[] && s'.conn in s'.b
    ensures Ids(s') && SubIds(s') && Linked(s') && Agreeing(s') && Answered(s')
  {
    hide Subs;
  }

  lemma SocketOpenedKeeps(s: System, newConn: nat, pendOrder: seq<nat>, actOrder: seq<nat>)
    requires Inv(s) && s.c.status == Connecting
    requires Enumerates(pendOrder, s.c.pending.Keys) && Enumerates(actOrder, s.c.active.Keys)
    ensures Inv(SocketOpened(s, newConn, pendOrder, actOrder))
  {
    hide Enumerates, SocketOpened, Requests, Placed, GivenUp, Typed, Handlers, Ids, SubIds, Linked, Agreeing, Answered;
    SocketOpenedCounts(s, newConn, pendOrder, actOrder);
    SocketOpenedTyped(s, newConn, pendOrder, actOrder);
    SocketOpenedHandlers(s, newConn, pendOrder, actOrder);
    SocketOpenedRest(s, newConn, pendOrder, actOrder);
  }

  /** Only requests the client waits for are under way. */
  lemma StillWaiting(s: System, id: nat)
    requires Requests(s) && s.c.status == Open && id !in s.c.pending && id !in s.sent
    ensures forall m :: m in s.c2s && !m.Unsubscribe? ==> m.id != id
    ensures forall j :: j in s.jobs && !j.DeltaJob? ==> j.id != id
    ensures forall m :: m in s.s2c && !m.Snapshot? && !m.Delta? ==> m.inReplyTo != id
  {
    hide Sum;
    assert id !in multiset(s.c.pending.Keys) + multiset(s.sent);
    assert id !in InFlight(s.c2s, s.jobs, s.s2c);
    forall m | m in s.c2s && !m.Unsubscribe? ensures m.id != id {
      SumMember(s.c2s, m, ReqC());
      assert m.id in ReqC()(m);
    }
    forall j | j in s.jobs && !j.DeltaJob? ensures j.id != id {
      SumMember(s.jobs, j, ReqJ());
      assert j.id in ReqJ()(j);
    }
    forall m | m in s.s2c && !m.Snapshot? && !m.Delta? ensures m.inReplyTo != id {
      SumMember(s.s2c, m, ReqS());
      assert m.inReplyTo in ReqS()(m);
    }
  }

  lemma SubKept(s: System, s': System, id: nat, x: nat, query: string, params: string)
    requires s'.c.pending == s.c.pending - {id} && x != id && WantsSub(s, x, query, params)
    ensures WantsSub(s', x, query, params)
  {
  }

  lemma CallKept(s: System, s': System, id: nat, x: nat, call: Call)
    requires s'.sent == s.sent - {id} && s'.calls == s.calls && x != id && WantsCall(s, x, call)
    ensures WantsCall(s', x, call)
  {
  }

  /** `s'` is `s` without the request `id`. */
  ghost predicate Forgets(s: System, s': System, id: nat) {
    && s'.c.pending == s.c.pending - {id} && s'.sent == s.sent - {id}
    && s'.calls == s.calls && s'.closed == s.closed && Subs(s') == Subs(s)
  }

  lemma OkCKept(s: System, s': System, id: nat, m: ClientMsg)
    requires Forgets(s, s', id) && OkC(s, m) && (!m.Unsubscribe? ==> m.id != id)
    ensures OkC(s', m)
  {
    hide WantsSub, WantsCall, Subs;
    match m
    case Subscribe(x, query, params) => SubKept(s, s', id, x, query, params);
    case Rpc(x, call) => CallKept(s, s', id, x, call);
    case Unsubscribe(_, _) =>
  }

  lemma OkJKept(s: System, s': System, id: nat, j: Job)
    requires Forgets(s, s', id) && OkJ(s, j) && (!j.DeltaJob? ==> j.id != id)
    ensures OkJ(s', j)
  {
    hide WantsSub, WantsCall, Subs;
    match j
    case SnapshotJob(x, query, params) => SubKept(s, s', id, x, query, params);
    case RpcJob(x, call) => CallKept(s, s', id, x, call);
    case DeltaJob(_) =>
  }

  lemma OkSKept(s: System, s': System, id: nat, m: ServerMsg)
    requires Forgets(s, s', id) && OkS(s, m) && (!m.Snapshot? && !m.Delta? ==> m.inReplyTo != id)
    ensures OkS(s', m)
  {
    hide WantsCall, Subs;
    match m
    case Result(x, answer) => CallKept(s, s', id, x, answer.call);
    case Accepted(_, _) =>
    case Error(x, blame, _) => if blame.OfCall? { CallKept(s, s', id, x, blame.call); }
    case Snapshot(_) =>
    case Delta(_) =>
  }

  /** When the client drops a request that has been answered, no message still refers to it. */
  lemma TypedShrinks(s: System, s': System, id: nat)
    requires Typed(s) && Requests(s') && s'.c.status == Open && Forgets(s, s', id)
    requires s'.c2s == s.c2s && s'.jobs == s.jobs && s.s2c != [] && s'.s2c == s.s2c[1..]
    ensures Typed(s')
  {
    assert id !in s'.c.pending && id !in s'.sent;
    hide Sum, Subs, Requests, InFlight, WantsSub, WantsCall, OkC, OkJ, OkS, Forgets;
    StillWaiting(s', id);
    forall m | m in s'.c2s ensures OkC(s', m) { OkCKept(s, s', id, m); }
    forall j | j in s'.jobs ensures OkJ(s', j) { OkJKept(s, s', id, j); }
    forall m | m in s'.s2c ensures OkS(s', m) { OkSKept(s, s', id, m); }
  }

  lemma TakeReply(s: System)
    requires s.s2c != []
    ensures InFlight(s.c2s, s.jobs, s.s2c) == InFlight(s.c2s, s.jobs, s.s2c[1..]) + ReqS()(s.s2c[0])
    ensures Sum(s.s2c, AccS()) == Sum(s.s2c[1..], AccS()) + AccS()(s.s2c[0])
    ensures s.s2c[0] in s.s2c
  {
    hide Sum;
    var m := s.s2c[0];
    assert s.s2c == [m] + s.s2c[1..];
    SumCons(m, s.s2c[1..], ReqS());
    SumCons(m, s.s2c[1..], AccS());
  }

  lemma AcceptedIsNew(s: System)
    requires s.s2c != [] && s.s2c[0].Accepted? && Placed(s) && GivenUp(s) && SubIds(s)
    ensures s.s2c[0].subId !in s.c.active && s.s2c[0].subId !in s.closed && s.s2c[0].subId in Subs(s)
  {
    hide Sum;
    var m := s.s2c[0];
    TakeReply(s);
    assert m.subId in Sum(s.s2c, AccS());
    if m.subId in s.c.active { NotAccepted(s, m.subId); }
    assert m.subId in multiset(Subs(s).Keys);
  }

  lemma AcceptedParts(s: System)
    requires s.s2c != [] && s.s2c[0].Accepted? && s.s2c[0].inReplyTo in s.c.pending
    requires Placed(s) && GivenUp(s) && SubIds(s)
    ensures var (s', m) := (ClientTook(s), s.s2c[0]);
      && Here(s') == Here(s) + {m.subId} && m.subId !in Here(s) && s'.base == s.base && Subs(s') == Subs(s)
      && s'.c2s == s.c2s && s'.s2c == s.s2c[1..] && s'.closed == s.closed
      && m.subId !in s.closed && AccS()(m) == multiset{m.subId}
  {
    var s' := ClientTook(s);
    AcceptedIsNew(s);
    SameSubs(s, s');
    hide Placed, GivenUp, Sum;
    assert s'.c.active.Keys == s.c.active.Keys + {s.s2c[0].subId};
    assert s.s2c[0].subId >= s.base;
    hide Subs;
  }

  lemma AcceptedPlaced(s: System)
    requires s.s2c != [] && s.s2c[0].Accepted? && s.s2c[0].inReplyTo in s.c.pending
    requires Placed(s) && GivenUp(s) && SubIds(s)
    ensures Placed(ClientTook(s)) && GivenUp(ClientTook(s))
  {
    hide *;
    var (s', m) := (ClientTook(s), s.s2c[0]);
    TakeReply(s);
    AcceptedParts(s);
    var (rest, out) := (Sum(s'.s2c, AccS()), Sum(s.c2s, UnsubC(s.base)));
    IsPlaced(s, rest + multiset{m.subId}, Here(s), out, Subs(s).Keys);
    IsPlaced(s', rest, Here(s) + {m.subId}, out, Subs(s).Keys);
    IsGivenUp(s, rest + multiset{m.subId}, s.closed);
    IsGivenUp(s', rest, s.closed);
    SetAdd(Here(s), m.subId);
  }

  /** An id that is in exactly one of two sets leaves their union as a multiset. */
  lemma DropOne(total: multiset<nat>, rest: multiset<nat>, a: set<nat>, b: set<nat>, x: nat)
    requires total == rest + multiset{x} && total == multiset(a) + multiset(b)
    requires x in a || x in b
    requires !(x in a && x in b)
    ensures rest == multiset(a - {x}) + multiset(b - {x})
  {
    forall y: nat
      ensures rest[y] == (multiset(a - {x}) + multiset(b - {x}))[y]
    {
      assert total[y] == (rest + multiset{x})[y] && total[y] == (multiset(a) + multiset(b))[y];
    }
  }

  lemma TakenRequest(s: System, s': System, id: nat)
    requires Requests(s) && s.c.status == Open == s'.c.status && s.s2c != [] && ReqS()(s.s2c[0]) == multiset{id}
    requires s'.c2s == s.c2s && s'.s2c == s.s2c[1..] && s'.jobs == s.jobs
    requires s'.c.pending.Keys == s.c.pending.Keys - {id} && s'.sent == s.sent - {id}
    requires id in s.c.pending || id in s.sent
    requires !(id in s.c.pending && id in s.sent)
    ensures Requests(s')
  {
    hide *;
    TakeReply(s);
    var (total, rest) := (InFlight(s.c2s, s.jobs, s.s2c), InFlight(s'.c2s, s'.jobs, s'.s2c));
    AreRequests(s, total, s.c.pending.Keys, s.sent);
    AreRequests(s', rest, s.c.pending.Keys - {id}, s.sent - {id});
    DropOne(total, rest, s.c.pending.Keys, s.sent, id);
  }

  lemma AcceptedRequests(s: System)
    requires s.s2c != [] && s.s2c[0].Accepted? && s.s2c[0].inReplyTo in s.c.pending && s.c.status == Open
    requires Requests(s) && Ids(s)
    ensures Requests(ClientTook(s))
  {
    var (s', id) := (ClientTook(s), s.s2c[0].inReplyTo);
    assert s'.c.pending.Keys == s.c.pending.Keys - {id} && s'.sent == s.sent - {id} && id !in s.sent;
    hide Sum, InFlight, Requests;
    TakenRequest(s, s', id);
  }

  lemma AcceptedHolds(c: Client, id: nat, subId: nat)
    requires id in c.pending && subId !in c.active
    ensures var c' := c.(active := c.active[subId := c.pending[id]], pending := c.pending - {id});
      forall h :: Held(c, h) ==> Held(c', h)
  {
    var c' := c.(active := c.active[subId := c.pending[id]], pending := c.pending - {id});
    forall h | Held(c, h)
      ensures Held(c', h)
    {
      if x :| x in c.active && c.active[x].handler == h {
        assert c'.active[x].handler == h;
      } else {
        var p :| p in c.pending && c.pending[p].handler == h;
        if p == id {
          assert c'.active[subId].handler == h;
        } else {
          assert p in c'.pending;
        }
      }
    }
  }

  lemma AcceptedKeeps(s: System)
    requires Inv(s) && s.s2c != [] && s.s2c[0].Accepted? && s.c.status == Open
    ensures Inv(ClientTook(s))
  {
    hide Sum, InFlight, Placed, GivenUp, Held, Requests, Subs;
    var s' := ClientTook(s);
    var m := s.s2c[0];
    assert m in s.s2c && OkS(s, m);
    AcceptedIsNew(s);
    AcceptedPlaced(s);
    AcceptedRequests(s);
    SameSubs(s, s');
    assert s.sent - {m.inReplyTo} == s.sent;
    TypedShrinks(s, s', m.inReplyTo);
    AcceptedHolds(s.c, m.inReplyTo, m.subId);
    hide Typed, OkC, OkJ, OkS;
  }

  lemma PushPlaced(s: System)
    requires s.s2c != [] && (s.s2c[0].Snapshot? || s.s2c[0].Delta?)
    requires Placed(s) && GivenUp(s) && Requests(s)
    ensures Placed(ClientTook(s)) && GivenUp(ClientTook(s)) && Requests(ClientTook(s))
  {
    var s' := ClientTook(s);
    TakeReply(s);
    SameSubs(s, s');
    assert Here(s') == Here(s) && s' == s.(s2c := s.s2c[1..]);
    hide ClientTook, Sum, InFlight, Here, Subs;
  }

  lemma PushKeeps(s: System)
    requires Inv(s) && s.s2c != [] && (s.s2c[0].Snapshot? || s.s2c[0].Delta?) && s.c.status == Open
    ensures Inv(ClientTook(s))
  {
    hide Sum, InFlight, Held, Subs, Placed, GivenUp, Requests;
    var s' := ClientTook(s);
    PushPlaced(s);
    SameSubs(s, s');
    TypedGrows(s, s');
    assert s' == s.(s2c := s.s2c[1..]);
    hide OkC, OkJ, OkS, ClientTook;
  }

  lemma ReplyClient(s: System)
    requires s.s2c != [] && (s.s2c[0].Result? || s.s2c[0].Error?) && Ids(s) && Typed(s)
    ensures var (s', id) := (ClientTook(s), s.s2c[0].inReplyTo);
      && (id in s.c.pending || id in s.sent) && !(id in s.c.pending && id in s.sent)
      && s'.c.pending == s.c.pending - {id} && s'.sent == s.sent - {id} && s'.c.active == s.c.active
      && s'.c.status == s.c.status && s'.c2s == s.c2s && s'.jobs == s.jobs && s'.s2c == s.s2c[1..]
      && s'.b == s.b && s'.conn == s.conn && s'.base == s.base && s'.closed == s.closed && s'.calls == s.calls
  {
    var m := s.s2c[0];
    assert m in s.s2c && OkS(s, m);
    assert m.inReplyTo in s.c.pending ==> m.inReplyTo !in s.calls && s.sent - {m.inReplyTo} == s.sent;
    assert m.inReplyTo !in s.c.pending ==> s.c.pending - {m.inReplyTo} == s.c.pending;
  }

  lemma ReplyRequests(s: System)
    requires s.s2c != [] && (s.s2c[0].Result? || s.s2c[0].Error?) && s.c.status == Open
    requires Requests(s) && Ids(s) && Typed(s)
    ensures Requests(ClientTook(s))
  {
    hide Sum, InFlight, Requests, Typed, Ids, ClientTook;
    ReplyClient(s);
    TakenRequest(s, ClientTook(s), s.s2c[0].inReplyTo);
  }

  lemma SamePlaces(s: System, s': System)
    requires s.s2c != [] && AccS()(s.s2c[0]) == multiset{}
    requires s'.c2s == s.c2s && s'.s2c == s.s2c[1..] && s'.c.active == s.c.active
    requires s'.b == s.b && s'.conn == s.conn && s'.base == s.base && s'.closed == s.closed
    requires Placed(s) && GivenUp(s)
    ensures Placed(s') && GivenUp(s')
  {
    assert Here(s') == Here(s);
    hide Sum, InFlight, Here, Subs, AccS;
    TakeReply(s);
    SameSubs(s, s');
  }

  lemma ReplyCounts(s: System)
    requires s.s2c != [] && (s.s2c[0].Result? || s.s2c[0].Error?)
    requires Placed(s) && GivenUp(s) && Ids(s) && Typed(s)
    ensures var s' := ClientTook(s); Placed(s') && GivenUp(s')
  {
    hide Placed, GivenUp, ClientTook, Ids, Typed;
    ReplyClient(s);
    SamePlaces(s, ClientTook(s));
  }

  lemma DropHolds(c: Client, id: nat, h: nat)
    requires Held(c, h)
    ensures Held(c.(pending := c.pending - {id}), h) || (id in c.pending && c.pending[id].handler == h)
  {
    var c' := c.(pending := c.pending - {id});
    if x :| x in c.active && c.active[x].handler == h {
      assert x in c'.active && c'.active[x].handler == h;
    } else {
      var p :| p in c.pending && c.pending[p].handler == h;
      assert p != id ==> p in c'.pending && c'.pending[p].handler == h;
    }
  }

  lemma ReplyRejects(s: System)
    requires s.s2c != [] && (s.s2c[0].Result? || s.s2c[0].Error?) && Ids(s) && Typed(s)
    ensures var (s', id) := (ClientTook(s), s.s2c[0].inReplyTo);
      && s'.origin == s.origin && s'.dropped == s.dropped && s.rejected <= s'.rejected && s'.c.nextId == s.c.nextId
      && (id in s.c.pending ==> s.c.pending[id].handler in s'.rejected)
  {
    assert s.s2c[0] in s.s2c && OkS(s, s.s2c[0]);
    hide OkC, OkJ, Typed;
  }

  lemma ReplyHandlers(s: System)
    requires s.s2c != [] && (s.s2c[0].Result? || s.s2c[0].Error?)
    requires Handlers(s) && Ids(s) && Typed(s)
    ensures Handlers(ClientTook(s))
  {
    hide ClientTook, Ids, Typed, Held;
    var (s', id) := (ClientTook(s), s.s2c[0].inReplyTo);
    ReplyClient(s);
    ReplyRejects(s);
    forall h | h in s'.origin && h !in s'.rejected && h !in s'.dropped
      ensures Held(s'.c, h)
    {
      DropHolds(s.c, id, h);
      HeldStays(s.c.(pending := s.c.pending - {id}), s'.c);
    }
  }

  lemma ReplyKeeps(s: System)
    requires Inv(s) && s.s2c != [] && (s.s2c[0].Result? || s.s2c[0].Error?) && s.c.status == Open
    ensures Inv(ClientTook(s))
  {
    hide Sum, InFlight, Placed, GivenUp, Handlers, Subs, Requests;
    var s' := ClientTook(s);
    ReplyRequests(s);
    ReplyCounts(s);
    ReplyClient(s);
    SameSubs(s, s');
    TypedShrinks(s, s', s.s2c[0].inReplyTo);
    ReplyHandlers(s);
    assert s.s2c[0] in s.s2c && OkS(s, s.s2c[0]);
    hide Typed, OkC, OkJ, OkS;
  }

  lemma SocketClosedCounts(s: System)
    requires s.c.status != Closed && SubIds(s) && Linked(s)
    ensures var s' := SocketClosed(s); Requests(s') && Placed(s') && GivenUp(s') && Typed(s')
  {
    var s' := SocketClosed(s);
    SumEmpty(ReqC());
    SumEmpty(UnsubC(s'.base));
    SumEmpty(ReqJ());
    SumEmpty(ReqS());
    SumEmpty(AccS());
    assert Here(s') == {} && Subs(s') == map[] && s'.c2s == [] && s'.s2c == [] && s'.jobs == [] && s'.c.status == Closed;
    hide Sum, SocketClosed, Here, Subs;
  }

  lemma SocketClosedRest(s: System)
    requires s.c.status != Closed && Ids(s) && SubIds(s) && Linked(s) && Agreeing(s) && Answered(s)
    ensures var s' := SocketClosed(s); Ids(s') && SubIds(s') && Linked(s') && Agreeing(s') && Answered(s')
  {
    var s' := SocketClosed(s);
    assert Subs(s') == map[];
    hide Subs;
  }

  lemma SocketClosedKeeps(s: System)
    requires Inv(s) && s.c.status != Closed
    ensures Inv(SocketClosed(s))
  {
    hide Sum, InFlight, Requests, Placed, GivenUp, Typed, Ids, SubIds, Linked, Agreeing, Answered, Subs;
    SocketClosedCounts(s);
    SocketClosedRest(s);
    HeldStays(s.c, SocketClosed(s).c);
    hide Held;
  }

  // ---- every run ----------------------------------------------------------------------------------------

  lemma JobFailsKeeps(s: System, i: nat, message: string)
    requires Inv(s) && i < |s.jobs| && !s.jobs[i].DeltaJob? && s.c.status == Open
    ensures Inv(JobReplied(s, i, Error(s.jobs[i].id, BlameOf(s.jobs[i]), message)))
  {
    hide Ids, SubIds, Linked, Requests, Placed, GivenUp, Agreeing, Answered, Handlers, JobReplied;
    assert s.jobs[i] in s.jobs && OkJ(s, s.jobs[i]);
    hide Typed, OkC;
    JobRepliedKeeps(s, i, Error(s.jobs[i].id, BlameOf(s.jobs[i]), message));
  }

  lemma JobAnswersKeeps(s: System, i: nat, body: string)
    requires Inv(s) && i < |s.jobs| && s.jobs[i].RpcJob? && s.c.status == Open
    ensures Inv(JobReplied(s, i, Result(s.jobs[i].id, Answer(s.jobs[i].call, body))))
  {
    hide Ids, SubIds, Linked, Requests, Placed, GivenUp, Agreeing, Answered, Handlers, JobReplied;
    assert s.jobs[i] in s.jobs && OkJ(s, s.jobs[i]);
    hide Typed, OkC;
    JobRepliedKeeps(s, i, Result(s.jobs[i].id, Answer(s.jobs[i].call, body)));
  }

  lemma ClientTookKeeps(s: System)
    requires Inv(s) && s.s2c != [] && s.c.status == Open
    ensures Inv(ClientTook(s))
  {
    hide Inv, ClientTook;
    match s.s2c[0]
    case Accepted(_, _) => AcceptedKeeps(s);
    case Snapshot(_) => PushKeeps(s);
    case Delta(_) => PushKeeps(s);
    case Result(_, _) => ReplyKeeps(s);
    case Error(_, _, _) => ReplyKeeps(s);
  }

  lemma StepKeeps(s: System, step: Step)
    requires Inv(s) && Enabled(s, step)
    ensures Inv(Next(s, step))
  {
    hide Inv, Enumerates, ClientSubscribed, ClientCalled, ClientGaveUp, SocketOpened, ServerTook, SnapshotSent,
      JobReplied, EventSeen, DeltasSent, ClientTook, SocketClosed, Subs;
    match step
    case ClientSubscribes(query, params) => ClientSubscribedKeeps(s, query, params);
    case ClientCalls(call) => ClientCalledKeeps(s, call);
    case ClientUnsubscribes(subId) => ClientGaveUpKeeps(s, subId);
    case Connects => ConnectsKeeps(s);
    case SocketOpens(newConn, pendOrder, actOrder) => SocketOpenedKeeps(s, newConn, pendOrder, actOrder);
    case ServerTakes => ServerTookKeeps(s);
    case SnapshotReady(i) => SnapshotSentKeeps(s, i);
    case SnapshotFails(i, message) => JobFailsKeeps(s, i, message);
    case GatewayAnswers(i, body) => JobAnswersKeeps(s, i, body);
    case GatewayFails(i, message) => JobFailsKeeps(s, i, message);
    case KafkaEvent(subId) => EventSeenKeeps(s, subId);
    case DeltaReady(i, n) => DeltasSentKeeps(s, i, n);
    case ClientTakes => ClientTookKeeps(s);
    case SocketCloses => SocketClosedKeeps(s);
  }
}
