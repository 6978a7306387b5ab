/** The subscription protocol as a whole: one client, the broker, and the two directions of the
    current socket as queues. A run is any interleaving of the steps below over any number of
    connections, one at a time. */
module Subscriptions {
  import opened Wire
  import opened WsClient
  import opened SubscriptionBroker
  import opened Sequences
  import opened Tally

  /** `base` is the first subscription id of the current connection. The last seven fields are
      history: which rpcs the current socket carries, every rpc ever issued, how promises ended,
      which subscriptions were given up, what each handler asked for, and which handlers were
      rejected or unsubscribed. */
  datatype System = System(
    c: Client, b: Connections, conn: nat, base: nat, nextSub: nat,
    c2s: seq<ClientMsg>, s2c: seq<ServerMsg>, jobs: seq<Job>,
    sent: set<nat>, calls: map<nat, Call>, settled: map<nat, Outcome>, closed: set<nat>,
    origin: map<nat, (string, string)>, rejected: set<nat>, dropped: set<nat>)

  datatype Step =
    | ClientSubscribes(query: string, params: string)
    | ClientCalls(call: Call)
    | ClientUnsubscribes(subId: nat)
    | Connects
    | SocketOpens(newConn: nat, pendOrder: seq<nat>, actOrder: seq<nat>)
    | ServerTakes
    | SnapshotReady(i: nat)
    | SnapshotFails(i: nat, message: string)
    | GatewayAnswers(i: nat, body: string)
    | GatewayFails(i: nat, message: string)
    | KafkaEvent(subId: nat)
    | DeltaReady(i: nat, deltas: nat)
    | ClientTakes
    | SocketCloses

  function Start(b: Connections, conn: nat, nextSub: nat): System {
    System(NewClient, b, conn, nextSub, nextSub, [], [], [], {}, map[], map[], {}, map[], {}, {})
  }

  function Subs(s: System): map<nat, Subscription> {
    SubsOf(s.b, s.conn)
  }

  ghost predicate Enabled(s: System, step: Step) {
    match step
    case ClientSubscribes(_, _) => true
    case ClientCalls(_) => true
    case ClientUnsubscribes(_) => true
    case Connects => s.c.status == Closed
    case SocketOpens(newConn, pendOrder, actOrder) =>
      s.c.status == Connecting && newConn !in s.b
      && Enumerates(pendOrder, s.c.pending.Keys) && Enumerates(actOrder, s.c.active.Keys)
    case ServerTakes => s.c.status == Open && s.c2s != []
    case SnapshotReady(i) => s.c.status == Open && i < |s.jobs| && s.jobs[i].SnapshotJob?
    case SnapshotFails(i, _) => s.c.status == Open && i < |s.jobs| && s.jobs[i].SnapshotJob?
    case GatewayAnswers(i, _) => s.c.status == Open && i < |s.jobs| && s.jobs[i].RpcJob?
    case GatewayFails(i, _) => s.c.status == Open && i < |s.jobs| && s.jobs[i].RpcJob?
    case KafkaEvent(subId) => s.c.status == Open && subId in Subs(s)
    case DeltaReady(i, _) => s.c.status == Open && i < |s.jobs| && s.jobs[i].DeltaJob?
    case ClientTakes => s.c.status == Open && s.s2c != []
    case SocketCloses => s.c.status != Closed
  }

  function Deltas(subId: nat, n: nat): seq<ServerMsg> {
    if n == 0 then [] else [Delta(subId)] + Deltas(subId, n - 1)
  }

  function ClientSubscribed(s: System, query: string, params: string): System {
    var id := s.c.nextId;
    s.(c := Subscribed(s.c, query, params), c2s := s.c2s + Sends(s.c, Subscribe(id, query, params)),
       origin := s.origin[id := (query, params)])
  }

  function ClientCalled(s: System, call: Call): System {
    var id := s.c.nextId;
    s.(c := Called(s.c), c2s := s.c2s + Sends(s.c, Rpc(id, call)), calls := s.calls[id := call],
       sent := if s.c.status == Open then s.sent + {id} else s.sent)
  }

  function ClientGaveUp(s: System, subId: nat): System {
    if subId !in s.c.active then s
    else
      s.(c := Unsubscribed(s.c, subId), c2s := s.c2s + Sends(s.c, Unsubscribe(s.c.nextId, subId)),
         closed := s.closed + {subId}, dropped := s.dropped + {s.c.active[subId].handler})
  }

  ghost function SocketOpened(s: System, newConn: nat, pendOrder: seq<nat>, actOrder: seq<nat>): System
    requires Enumerates(pendOrder, s.c.pending.Keys) && Enumerates(actOrder, s.c.active.Keys)
  {
    EnumeratesMembers(pendOrder, s.c.pending.Keys);
    EnumeratesMembers(actOrder, s.c.active.Keys);
    var (c', out) := Opened(s.c, pendOrder, actOrder);
    s.(c := c', c2s := out, b := Registered(s.b, newConn), conn := newConn, base := s.nextSub)
  }

  function ServerTook(s: System): System
    requires s.c2s != []
  {
    var (b', jobs, replies) := Dispatched(s.b, s.conn, s.c2s[0]);
    s.(b := b', jobs := s.jobs + jobs, s2c := s.s2c + replies, c2s := s.c2s[1..])
  }

  function SnapshotSent(s: System, i: nat): System
    requires i < |s.jobs| && s.jobs[i].SnapshotJob?
  {
    var job := s.jobs[i];
    s.(b := Added(s.b, s.conn, s.nextSub, Subscription(job.query, job.params)), nextSub := s.nextSub + 1,
       jobs := Without(s.jobs, i), s2c := s.s2c + [Accepted(job.id, s.nextSub), Snapshot(s.nextSub)])
  }

  function JobReplied(s: System, i: nat, reply: ServerMsg): System
    requires i < |s.jobs|
  {
    s.(jobs := Without(s.jobs, i), s2c := s.s2c + [reply])
  }

  function EventSeen(s: System, subId: nat): System {
    s.(jobs := s.jobs + [DeltaJob(subId)])
  }

  function DeltasSent(s: System, i: nat, n: nat): System
    requires i < |s.jobs| && s.jobs[i].DeltaJob?
  {
    s.(jobs := Without(s.jobs, i), s2c := s.s2c + Deltas(s.jobs[i].subId, n))
  }

  function ClientTook(s: System): System
    requires s.s2c != []
  {
    var (c', effect) := Handled(s.c, s.s2c[0]);
    var s' := s.(c := c', s2c := s.s2c[1..]);
    match effect
    case Settles(id, outcome) => s'.(settled := s.settled[id := outcome], sent := s.sent - {id})
    case Rejects(h) => s'.(rejected := s.rejected + {h})
    case _ => s'
  }

  function SocketClosed(s: System): System {
    s.(c := Disconnected(s.c), b := Removed(s.b, s.conn), base := s.nextSub, c2s := [], s2c := [], jobs := [],
       sent := {}, settled := s.settled + map id | id in s.c.rpcs :: Rejected(OfClose, "disconnected"))
  }

  ghost function Next(s: System, step: Step): System
    requires Enabled(s, step)
  {
    match step
    case ClientSubscribes(query, params) => ClientSubscribed(s, query, params)
    case ClientCalls(call) => ClientCalled(s, call)
    case ClientUnsubscribes(subId) => ClientGaveUp(s, subId)
    case Connects => s.(c := s.c.(status := Connecting))
    case SocketOpens(newConn, pendOrder, actOrder) => SocketOpened(s, newConn, pendOrder, actOrder)
    case ServerTakes => ServerTook(s)
    case SnapshotReady(i) => SnapshotSent(s, i)
    case SnapshotFails(i, message) => JobReplied(s, i, Error(s.jobs[i].id, BlameOf(s.jobs[i]), message))
    case GatewayAnswers(i, body) => JobReplied(s, i, Result(s.jobs[i].id, Answer(s.jobs[i].call, body)))
    case GatewayFails(i, message) => JobReplied(s, i, Error(s.jobs[i].id, BlameOf(s.jobs[i]), message))
    case KafkaEvent(subId) => EventSeen(s, subId)
    case DeltaReady(i, n) => DeltasSent(s, i, n)
    case ClientTakes => ClientTook(s)
    case SocketCloses => SocketClosed(s)
  }

  // ---- the two conservation laws -----------------------------------------------------------------

  function ReqC(): ClientMsg -> multiset<nat> {
    (m: ClientMsg) => if m.Unsubscribe? then multiset{} else multiset{m.id}
  }

  function ReqJ(): Job -> multiset<nat> {
    (j: Job) => if j.DeltaJob? then multiset{} else multiset{j.id}
  }

  function ReqS(): ServerMsg -> multiset<nat> {
    (m: ServerMsg) => if m.Snapshot? || m.Delta? then multiset{} else multiset{m.inReplyTo}
  }

  function AccS(): ServerMsg -> multiset<nat> {
    (m: ServerMsg) => if m.Accepted? then multiset{m.subId} else multiset{}
  }

  function UnsubC(base: nat): ClientMsg -> multiset<nat> {
    (m: ClientMsg) => if m.Unsubscribe? && m.subId >= base then multiset{m.subId} else multiset{}
  }

  /** Every request of the current socket is in exactly one place: on its way, in work, or
      answered and on its way back - and those are the requests the client waits for. */
  ghost predicate Requests(s: System) {
    InFlight(s.c2s, s.jobs, s.s2c)
    == if s.c.status == Open then multiset(s.c.pending.Keys) + multiset(s.sent) else multiset{}
  }

  function InFlight(c2s: seq<ClientMsg>, jobs: seq<Job>, s2c: seq<ServerMsg>): multiset<nat> {
    Sum(c2s, ReqC()) + Sum(jobs, ReqJ()) + Sum(s2c, ReqS())
  }

  function Here(s: System): set<nat> {
    set subId | subId in s.c.active && subId >= s.base
  }

  /** Every subscription of the server is in exactly one place: accepted and on its way to the
      client, active there, or given up and on its way back. */
  ghost predicate Placed(s: System) {
    Sum(s.s2c, AccS()) + multiset(Here(s)) + Sum(s.c2s, UnsubC(s.base)) == multiset(Subs(s).Keys)
  }

  /** No acceptance is on its way for a subscription that was given up. */
  ghost predicate GivenUp(s: System) {
    forall id :: id in s.closed ==> id !in Sum(s.s2c, AccS())
  }

  // ---- the rest of the invariant --------------------------------------------------------------------

  ghost predicate Ids(s: System) {
    && (forall id :: id in s.c.pending || id in s.calls ==> id < s.c.nextId)
    && s.c.pending.Keys !! s.calls.Keys
    && s.c.rpcs !! s.settled.Keys && s.c.rpcs + s.settled.Keys == s.calls.Keys
    && s.sent <= s.c.rpcs
  }

  ghost predicate SubIds(s: System) {
    && s.base <= s.nextSub
    && (forall id :: id in s.c.active || id in s.closed ==> id < s.nextSub)
    && (forall id :: id in Subs(s) ==> s.base <= id < s.nextSub)
    && s.closed !! s.c.active.Keys
  }

  ghost predicate Linked(s: System) {
    && (s.c.status == Open ==> s.conn in s.b)
    && (s.c.status != Open ==> s.c2s == [] && s.s2c == [] && s.jobs == [] && s.sent == {} && s.base == s.nextSub
                               && s.conn !in s.b)
  }

  ghost predicate WantsSub(s: System, id: nat, query: string, params: string) {
    id in s.c.pending && s.c.pending[id].query == query && s.c.pending[id].params == params
  }

  ghost predicate WantsCall(s: System, id: nat, call: Call) {
    id in s.sent && id in s.calls && s.calls[id] == call
  }

  ghost predicate OkC(s: System, m: ClientMsg) {
    match m
    case Subscribe(id, query, params) => WantsSub(s, id, query, params)
    case Rpc(id, call) => WantsCall(s, id, call)
    case Unsubscribe(_, subId) => subId in s.closed
  }

  ghost predicate OkJ(s: System, j: Job) {
    match j
    case SnapshotJob(id, query, params) => WantsSub(s, id, query, params)
    case RpcJob(id, call) => WantsCall(s, id, call)
    case DeltaJob(_) => true
  }

  ghost predicate Same(sub: Sub, subscription: Subscription) {
    sub.query == subscription.query && sub.params == subscription.params
  }

  ghost predicate OkS(s: System, m: ServerMsg) {
    match m
    case Accepted(id, subId) =>
      && id in s.c.pending
      && (subId in Subs(s) ==> Same(s.c.pending[id], Subs(s)[subId]))
    case Result(id, answer) => WantsCall(s, id, answer.call)
    case Error(id, blame, _) =>
      (match blame case OfCall(call) => WantsCall(s, id, call) case OfSubscribe => id in s.c.pending case OfClose => false)
    case _ => true
  }

  ghost predicate Typed(s: System) {
    && (forall m :: m in s.c2s ==> OkC(s, m))
    && (forall j :: j in s.jobs ==> OkJ(s, j))
    && (forall m :: m in s.s2c ==> OkS(s, m))
  }

  ghost predicate Agreeing(s: System) {
    forall subId :: subId in s.c.active && subId in Subs(s) ==> Same(s.c.active[subId], Subs(s)[subId])
  }

  /** The outcome comes from the gateway's dealing with `call`, or from the end of the connection. */
  predicate Answers(outcome: Outcome, call: Call) {
    match outcome
    case Resolved(answer) => answer.call == call
    case Rejected(blame, message) => blame == OfCall(call) || (blame == OfClose && message == "disconnected")
  }

  ghost predicate Answered(s: System) {
    forall id :: id in s.settled ==> id in s.calls && Answers(s.settled[id], s.calls[id])
  }

  ghost predicate Held(c: Client, h: nat) {
    || (exists id :: id in c.pending && c.pending[id].handler == h)
    || (exists subId :: subId in c.active && c.active[subId].handler == h)
  }

  ghost predicate FromOrigin(s: System, sub: Sub) {
    sub.handler in s.origin && s.origin[sub.handler] == (sub.query, sub.params)
  }

  ghost predicate Handlers(s: System) {
    && (forall h :: h in s.origin ==> h < s.c.nextId)
    && (forall id :: id in s.c.pending ==> FromOrigin(s, s.c.pending[id]))
    && (forall subId :: subId in s.c.active ==> FromOrigin(s, s.c.active[subId]))
    && (forall h :: h in s.origin && h !in s.rejected && h !in s.dropped ==> Held(s.c, h))
  }

  ghost predicate Inv(s: System) {
    && Ids(s) && SubIds(s) && Linked(s) && Requests(s) && Placed(s) && GivenUp(s)
    && Typed(s) && Agreeing(s) && Answered(s) && Handlers(s)
  }
}
