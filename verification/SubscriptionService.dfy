/** What the server does for each request and each event, what the client does with each reply, and where
    every outcome comes from, in every run. */
module SubscriptionService {
  import opened Wire
  import opened WsClient
  import opened SubscriptionBroker
  import opened Subscriptions
  import opened SubscriptionSteps
  import opened SubscriptionLaws

  /** The thirteen commands of the gateway, and a charger to send them to. */
  predicate Forwarded(call: Call) {
    call.cpId != "" && call.name in {
      "remote-start", "remote-stop", "reset", "trigger-message", "unlock-connector", "clear-cache", "get-configuration",
      "change-configuration", "reserve-now", "cancel-reservation", "get-diagnostics", "get-log", "data-transfer"}
  }

  /** Why a call is not forwarded: the charger is looked at first. */
  function Complaint(call: Call): string {
    if call.cpId == "" then "missing or invalid string param: cp_id" else "unknown rpc method: " + call.name
  }

  // ---- the server's steps -----------------------------------------------------------------------------

  lemma TakenRequestDoes(s: System)
    requires Linked(s) && s.c.status == Open && s.c2s != []
    ensures var s' := Next(s, ServerTakes);
      match s.c2s[0]
      case Subscribe(id, query, params) => s' == s.(c2s := s.c2s[1..], jobs := s.jobs + [SnapshotJob(id, query, params)])
      case Unsubscribe(_, subId) => s' == s.(c2s := s.c2s[1..], b := s'.b) && Subs(s') == Subs(s) - {subId} && SameOthers(s.b, s'.b, s.conn)
      case Rpc(id, call) =>
        if Forwarded(call) then s' == s.(c2s := s.c2s[1..], jobs := s.jobs + [RpcJob(id, call)])
        else s' == s.(c2s := s.c2s[1..], s2c := s.s2c + [Error(id, OfCall(call), Complaint(call))])
  {
    assert s.jobs + [] == s.jobs && s.s2c + [] == s.s2c;
  }

  /** No other connection of the broker is touched. */
  predicate SameOthers(b: Connections, b': Connections, own: nat) {
    forall conn :: conn in b.Keys + b'.Keys && conn != own ==> conn in b && conn in b' && b'[conn] == b[conn]
  }

  /** In every run: a subscribe request starts the snapshot of its query and nothing else; an unsubscribe
      ends that subscription and no other; a call goes to the gateway exactly when it names one of the
      thirteen commands and a charger, and is answered with the reason at once otherwise. */
  lemma RequestIsServed(tr: seq<System>, steps: seq<Step>, j: nat)
    requires Trace(tr, steps) && j < |steps| && steps[j] == ServerTakes
    ensures var (s, s') := (tr[j], tr[j + 1]);
      s.c2s != [] && match s.c2s[0]
      case Subscribe(id, query, params) => s' == s.(c2s := s.c2s[1..], jobs := s.jobs + [SnapshotJob(id, query, params)])
      case Unsubscribe(_, subId) => s' == s.(c2s := s.c2s[1..], b := s'.b) && Subs(s') == Subs(s) - {subId} && SameOthers(s.b, s'.b, s.conn)
      case Rpc(id, call) =>
        if Forwarded(call) then s' == s.(c2s := s.c2s[1..], jobs := s.jobs + [RpcJob(id, call)])
        else s' == s.(c2s := s.c2s[1..], s2c := s.s2c + [Error(id, OfCall(call), Complaint(call))])
  {
    TraceKeeps(tr, steps, j);
    assert Enabled(tr[j], ServerTakes) && tr[j + 1] == Next(tr[j], ServerTakes);
    assert Linked(tr[j]);
    TakenRequestDoes(tr[j]);
    hide *;
  }

  /** The job at i is done, and the others are still there. */
  predicate Finishes(jobs: seq<Job>, i: nat, jobs': seq<Job>) {
    i < |jobs| && jobs' == jobs[..i] + jobs[i + 1..]
  }

  /** n deltas of `subId`. */
  predicate AreDeltas(added: seq<ServerMsg>, subId: nat, n: nat) {
    |added| == n && forall k :: 0 <= k < n ==> added[k] == Delta(subId)
  }

  lemma {:induction false} DeltasAre(subId: nat, n: nat)
    ensures AreDeltas(Deltas(subId, n), subId, n)
  {
    if n > 0 { DeltasAre(subId, n - 1); }
  }

  /** What a step of the server's own work does. */
  ghost predicate WorkDoes(s: System, s': System, step: Step) {
    match step
    case SnapshotReady(i) =>
      && i < |s.jobs| && s.jobs[i].SnapshotJob? && Finishes(s.jobs, i, s'.jobs) && s.nextSub !in Subs(s)
      && s'.s2c == s.s2c + [Accepted(s.jobs[i].id, s.nextSub), Snapshot(s.nextSub)]
      && Subs(s') == Subs(s)[s.nextSub := Subscription(s.jobs[i].query, s.jobs[i].params)] && SameOthers(s.b, s'.b, s.conn)
    case SnapshotFails(i, message) =>
      && i < |s.jobs| && s.jobs[i].SnapshotJob? && Finishes(s.jobs, i, s'.jobs) && s'.b == s.b
      && s'.s2c == s.s2c + [Error(s.jobs[i].id, OfSubscribe, message)]
    case GatewayAnswers(i, body) =>
      && i < |s.jobs| && s.jobs[i].RpcJob? && Finishes(s.jobs, i, s'.jobs) && s'.b == s.b
      && s'.s2c == s.s2c + [Result(s.jobs[i].id, Answer(s.jobs[i].call, body))]
    case GatewayFails(i, message) =>
      && i < |s.jobs| && s.jobs[i].RpcJob? && Finishes(s.jobs, i, s'.jobs) && s'.b == s.b
      && s'.s2c == s.s2c + [Error(s.jobs[i].id, OfCall(s.jobs[i].call), message)]
    case KafkaEvent(subId) => s'.jobs == s.jobs + [DeltaJob(subId)] && s'.s2c == s.s2c && s'.b == s.b
    case DeltaReady(i, n) =>
      && i < |s.jobs| && s.jobs[i].DeltaJob? && Finishes(s.jobs, i, s'.jobs) && s'.b == s.b
      && s.s2c <= s'.s2c && AreDeltas(s'.s2c[|s.s2c|..], s.jobs[i].subId, n)
    case SocketOpens(newConn, _, _) => newConn !in s.b && s'.b == s.b[newConn := map[]] && s'.conn == newConn
    case SocketCloses => s.conn !in s'.b && SameOthers(s.b, s'.b, s.conn) && s'.c2s == [] && s'.s2c == [] && s'.jobs == []
    case _ => true
  }

  lemma OpensOwn(s: System, newConn: nat, pendOrder: seq<nat>, actOrder: seq<nat>)
    requires Enabled(s, SocketOpens(newConn, pendOrder, actOrder))
    ensures var s' := Next(s, SocketOpens(newConn, pendOrder, actOrder)); s'.b == s.b[newConn := map[]] && s'.conn == newConn
  {
    EnumeratesMembers(pendOrder, s.c.pending.Keys);
    EnumeratesMembers(actOrder, s.c.active.Keys);
    hide Enumerates, Opened;
  }

  lemma NextWork(s: System, step: Step)
    requires Linked(s) && SubIds(s) && Enabled(s, step)
    ensures WorkDoes(s, Next(s, step), step)
  {
    hide Enumerates, Dispatched, ClientTook, SocketOpened, Deltas;
    if step.SocketOpens? {
      OpensOwn(s, step.newConn, step.pendOrder, step.actOrder);
    } else if step.DeltaReady? {
      DeltasAre(s.jobs[step.i].subId, step.deltas);
      var added := Deltas(s.jobs[step.i].subId, step.deltas);
      assert (s.s2c + added)[|s.s2c|..] == added;
    }
  }

  /** In every run: a finished snapshot is accepted under a new id with its query kept for that id, and the
      snapshot follows; a failed one is refused; the gateway's answer or failure goes back to its own call;
      an event starts work for its subscription, and that work sends its deltas. */
  lemma WorkIsAnswered(tr: seq<System>, steps: seq<Step>, j: nat)
    requires Trace(tr, steps) && j < |steps|
    ensures WorkDoes(tr[j], tr[j + 1], steps[j])
  {
    TraceKeeps(tr, steps, j);
    assert Enabled(tr[j], steps[j]) && tr[j + 1] == Next(tr[j], steps[j]);
    assert Linked(tr[j]) && SubIds(tr[j]);
    hide *;
    NextWork(tr[j], steps[j]);
  }

  // ---- the client's side ------------------------------------------------------------------------------

  /** What taking a reply does. */
  ghost predicate ReplyDoes(s: System, s': System) {
    s.s2c != [] && s'.s2c == s.s2c[1..] &&
    match s.s2c[0]
    case Accepted(id, subId) =>
      && id in s.c.pending && s'.c == s.c.(active := s.c.active[subId := s.c.pending[id]], pending := s.c.pending - {id})
      && EffectOf(s) == Opens(subId) && s'.settled == s.settled
    case Snapshot(_) => s'.c == s.c && s'.settled == s.settled
    case Delta(_) => s'.c == s.c && s'.settled == s.settled
    case Result(id, answer) =>
      id in s.c.rpcs && s'.c == s.c.(rpcs := s.c.rpcs - {id}) && s'.settled == s.settled[id := Resolved(answer)]
    case Error(id, blame, message) =>
      if blame.OfCall? then
        id in s.c.rpcs && s'.c == s.c.(rpcs := s.c.rpcs - {id}) && s'.settled == s.settled[id := Rejected(blame, message)]
      else
        && id in s.c.pending && s'.c == s.c.(pending := s.c.pending - {id}) && s'.settled == s.settled
        && s'.rejected == s.rejected + {s.c.pending[id].handler}
  }

  lemma TakenReplyDoes(s: System)
    requires Ids(s) && s.s2c != [] && OkS(s, s.s2c[0])
    ensures ReplyDoes(s, ClientTook(s))
  {
    hide Subs;
    var m := s.s2c[0];
    if m.Error? && m.blame.OfCall? { assert s.c.pending - {m.inReplyTo} == s.c.pending; }
  }

  /** In every run the client waits for what it is told about: an acceptance moves the request's query and
      handlers under the new id, a result or an error settles its own call, a refusal rejects the handlers
      of its own request. */
  lemma ReplyIsTaken(tr: seq<System>, steps: seq<Step>, j: nat)
    requires Trace(tr, steps) && j < |steps| && steps[j] == ClientTakes
    ensures ReplyDoes(tr[j], tr[j + 1])
  {
    TraceKeeps(tr, steps, j);
    assert Enabled(tr[j], ClientTakes) && tr[j + 1] == Next(tr[j], ClientTakes) == ClientTook(tr[j]);
    assert Ids(tr[j]) && tr[j].s2c != [] && OkS(tr[j], tr[j].s2c[0]) by {
      hide Trace, OkS, OkC, OkJ, Ids, SubIds, Linked, Requests, Placed, GivenUp, Agreeing, Answered, Handlers;
    }
    hide *;
    TakenReplyDoes(tr[j]);
  }

  /** What the client's own steps send and keep. */
  ghost predicate AskDoes(s: System, s': System, step: Step) {
    match step
    case ClientSubscribes(query, params) =>
      && s.c.nextId !in s.c.pending && s'.c.nextId == s.c.nextId + 1 && s'.c.pending == s.c.pending[s.c.nextId := Sub(query, params, s.c.nextId)]
      && s'.c2s == s.c2s + (if s.c.status == Open then [Subscribe(s.c.nextId, query, params)] else [])
    case ClientCalls(call) =>
      && s.c.nextId !in s.c.rpcs && s'.c.nextId == s.c.nextId + 1 && s'.c.rpcs == s.c.rpcs + {s.c.nextId}
      && s'.c2s == s.c2s + (if s.c.status == Open then [Rpc(s.c.nextId, call)] else [])
    case ClientUnsubscribes(subId) =>
      && s'.c.nextId == s.c.nextId + (if s.c.status == Open && subId in s.c.active then 1 else 0)
      && s'.c.active == s.c.active - {subId} && s'.c.pending == s.c.pending && s'.c.rpcs == s.c.rpcs
      && s'.c2s == s.c2s + (if s.c.status == Open && subId in s.c.active then [Unsubscribe(s.c.nextId, subId)] else [])
    case Connects => s' == s.(c := s.c.(status := Connecting))
    case SocketOpens(_, _, _) =>
      && s'.c.status == Open && s'.c.active == s.c.active && s'.c.rpcs == s.c.rpcs
      && forall id :: id in s.c.pending ==> id in s'.c.pending && s'.c.pending[id] == s.c.pending[id]
    case SocketCloses => s'.c == s.c.(status := Closed, rpcs := {})
    case _ => true
  }

  lemma OpenKeeps(s: System, newConn: nat, pendOrder: seq<nat>, actOrder: seq<nat>)
    requires Ids(s) && Enabled(s, SocketOpens(newConn, pendOrder, actOrder))
    ensures var c' := Next(s, SocketOpens(newConn, pendOrder, actOrder)).c;
      && c'.status == Open && c'.active == s.c.active && c'.rpcs == s.c.rpcs
      && forall id :: id in s.c.pending ==> id in c'.pending && c'.pending[id] == s.c.pending[id]
  {
    hide Enumerates, Reissue, Resend;
    SocketOpenedParts(s, newConn, pendOrder, actOrder);
    ReissueAdds(s.c.(status := Open), actOrder);
    hide SocketOpened;
  }

  lemma NextAsk(s: System, step: Step)
    requires Ids(s) && Enabled(s, step)
    ensures AskDoes(s, Next(s, step), step)
  {
    hide Enumerates, Dispatched, ClientTook, SocketOpened, ServerTook, Subs;
    if step.SocketOpens? { OpenKeeps(s, step.newConn, step.pendOrder, step.actOrder); }
    if step.ClientUnsubscribes? && step.subId !in s.c.active { assert s.c.active - {step.subId} == s.c.active; }
  }

  /** In every run: each request gets a number of its own, is remembered under it, and is sent at once when
      the socket is open; an opening keeps all that is held, and a close keeps the subscriptions. */
  lemma RequestIsAsked(tr: seq<System>, steps: seq<Step>, j: nat)
    requires Trace(tr, steps) && j < |steps|
    ensures AskDoes(tr[j], tr[j + 1], steps[j])
  {
    TraceKeeps(tr, steps, j);
    assert Enabled(tr[j], steps[j]) && tr[j + 1] == Next(tr[j], steps[j]);
    assert Ids(tr[j]);
    hide *;
    NextAsk(tr[j], steps[j]);
  }

  // ---- where replies come from ------------------------------------------------------------------------

  /** Step k is the gateway's answer to this call. */
  ghost predicate AnswersAt(tr: seq<System>, steps: seq<Step>, k: nat, id: nat, answer: Answer)
    requires |tr| == |steps| + 1 && k < |steps|
  {
    && steps[k].GatewayAnswers? && steps[k].i < |tr[k].jobs|
    && tr[k].jobs[steps[k].i] == RpcJob(id, answer.call) && steps[k].body == answer.body
  }

  /** Step k is the gateway's failure of this call, or the server's taking it when it cannot be forwarded. */
  ghost predicate RefusesCallAt(tr: seq<System>, steps: seq<Step>, k: nat, id: nat, call: Call, message: string)
    requires |tr| == |steps| + 1 && k < |steps|
  {
    || (steps[k].GatewayFails? && steps[k].i < |tr[k].jobs| && tr[k].jobs[steps[k].i] == RpcJob(id, call) && steps[k].message == message)
    || (steps[k] == ServerTakes && tr[k].c2s != [] && tr[k].c2s[0] == Rpc(id, call) && !Forwarded(call) && message == Complaint(call))
  }

  /** Step k is the failure of the snapshot that handler h waits for. */
  ghost predicate RefusesSubAt(tr: seq<System>, steps: seq<Step>, k: nat, h: nat)
    requires |tr| == |steps| + 1 && k < |steps|
  {
    && steps[k].SnapshotFails? && steps[k].i < |tr[k].jobs| && tr[k].jobs[steps[k].i].SnapshotJob?
    && var id := tr[k].jobs[steps[k].i].id; id in tr[k].c.pending && tr[k].c.pending[id].handler == h
  }

  /** The step before state j that m comes from. */
  ghost predicate Founded(tr: seq<System>, steps: seq<Step>, j: nat, m: ServerMsg)
    requires |tr| == |steps| + 1 && j < |tr|
  {
    match m
    case Result(id, answer) => exists k: nat :: k < j && AnswersAt(tr, steps, k, id, answer)
    case Error(id, blame, message) =>
      if blame.OfCall? then exists k: nat :: k < j && RefusesCallAt(tr, steps, k, id, blame.call, message)
      else id in tr[j].c.pending && exists k: nat :: k < j && RefusesSubAt(tr, steps, k, tr[j].c.pending[id].handler)
    case _ => true
  }

  ghost predicate AllFounded(tr: seq<System>, steps: seq<Step>, j: nat)
    requires |tr| == |steps| + 1 && j < |tr|
  {
    forall m :: m in tr[j].s2c ==> Founded(tr, steps, j, m)
  }

  /** The replies a step adds. */
  ghost predicate Adds(s: System, step: Step, m: ServerMsg) {
    match step
    case ServerTakes =>
      s.c2s != [] && s.c2s[0].Rpc? && !Forwarded(s.c2s[0].call)
      && m == Error(s.c2s[0].id, OfCall(s.c2s[0].call), Complaint(s.c2s[0].call))
    case SnapshotFails(i, message) => i < |s.jobs| && s.jobs[i].SnapshotJob? && m == Error(s.jobs[i].id, OfSubscribe, message)
    case GatewayAnswers(i, body) => i < |s.jobs| && s.jobs[i].RpcJob? && m == Result(s.jobs[i].id, Answer(s.jobs[i].call, body))
    case GatewayFails(i, message) =>
      i < |s.jobs| && s.jobs[i].RpcJob? && m == Error(s.jobs[i].id, OfCall(s.jobs[i].call), message)
    case _ => false
  }

  lemma QuietMessages(s: System, step: Step, m: ServerMsg)
    requires Enabled(s, step) && m in Next(s, step).s2c
    requires step.ClientSubscribes? || step.ClientCalls? || step.ClientUnsubscribes? || step.Connects? || step.ClientTakes? || step.SocketCloses?
    ensures m in s.s2c
  {
    hide Handled, Subs, Sends, Subscribed, Called, Unsubscribed, Removed;
  }

  lemma NewMessages(s: System, step: Step, m: ServerMsg)
    requires Linked(s) && SubIds(s) && Ids(s) && Enabled(s, step) && m in Next(s, step).s2c
    ensures m in s.s2c || m.Accepted? || m.Snapshot? || m.Delta? || Adds(s, step, m)
  {
    hide Next, Enumerates, Forwarded, Complaint, SocketOpened;
    match step
    case ServerTakes => TakenRequestDoes(s);
    case SocketOpens(newConn, pendOrder, actOrder) =>
      OpensSilent(s, newConn, pendOrder, actOrder);
    case SnapshotReady(_) => NextWork(s, step);
    case SnapshotFails(_, _) => NextWork(s, step);
    case GatewayAnswers(_, _) => NextWork(s, step);
    case GatewayFails(_, _) => NextWork(s, step);
    case KafkaEvent(_) => NextWork(s, step);
    case DeltaReady(_, _) =>
      NextWork(s, step);
      var s' := Next(s, step);
      assert s'.s2c == s.s2c + s'.s2c[|s.s2c|..];
    case _ => QuietMessages(s, step, m);
  }

  lemma OpensSilent(s: System, newConn: nat, pendOrder: seq<nat>, actOrder: seq<nat>)
    requires Ids(s) && Enabled(s, SocketOpens(newConn, pendOrder, actOrder))
    ensures Next(s, SocketOpens(newConn, pendOrder, actOrder)).s2c == s.s2c
  {
    hide Enumerates;
    SocketOpenedParts(s, newConn, pendOrder, actOrder);
    hide SocketOpened;
  }

  lemma TookKept(s: System, id: nat)
    requires s.s2c != [] && id in s.c.pending && id in ClientTook(s).c.pending
    ensures ClientTook(s).c.pending[id] == s.c.pending[id]
  {
    assert ClientTook(s).c == Handled(s.c, s.s2c[0]).0;
    hide ClientTook;
  }

  lemma OtherKept(s: System, step: Step, id: nat)
    requires Ids(s) && Enabled(s, step) && id in s.c.pending && step != ClientTakes && !step.SocketOpens?
    ensures id in Next(s, step).c.pending && Next(s, step).c.pending[id] == s.c.pending[id]
  {
    hide Dispatched, Subs, ClientTook, Deltas, Removed, Added, Sends;
  }

  /** What the client remembers of a request does not change while it waits. */
  lemma PendingKept(s: System, step: Step, id: nat)
    requires Ids(s) && Enabled(s, step) && id in s.c.pending && id in Next(s, step).c.pending
    ensures Next(s, step).c.pending[id] == s.c.pending[id]
  {
    hide Ids, ClientTook, SocketOpened;
    if step.SocketOpens? {
      OpenKeeps(s, step.newConn, step.pendOrder, step.actOrder);
    } else if step == ClientTakes {
      TookKept(s, id);
    } else {
      OtherKept(s, step, id);
    }
  }

  lemma FoundedStays(tr: seq<System>, steps: seq<Step>, j: nat, m: ServerMsg)
    requires Trace(tr, steps) && j < |steps| && Founded(tr, steps, j, m)
    requires m.Error? && !m.blame.OfCall? ==> m.inReplyTo in tr[j + 1].c.pending
    ensures Founded(tr, steps, j + 1, m)
  {
    if m.Error? && !m.blame.OfCall? {
      TraceKeeps(tr, steps, j);
      assert Enabled(tr[j], steps[j]) && tr[j + 1] == Next(tr[j], steps[j]) && Ids(tr[j]);
      PendingKept(tr[j], steps[j], m.inReplyTo);
    }
    hide Trace, AnswersAt, RefusesCallAt, RefusesSubAt, Inv, Next;
  }

  lemma FoundedNew(tr: seq<System>, steps: seq<Step>, j: nat, m: ServerMsg)
    requires Trace(tr, steps) && j < |steps| && Adds(tr[j], steps[j], m)
    requires m.Error? && !m.blame.OfCall? ==> m.inReplyTo in tr[j].c.pending && m.inReplyTo in tr[j + 1].c.pending
    ensures Founded(tr, steps, j + 1, m)
  {
    assert |tr| == |steps| + 1;
    hide Trace, Forwarded, Complaint;
    match m
    case Result(id, answer) => assert AnswersAt(tr, steps, j, id, answer);
    case Error(id, blame, message) =>
      if blame.OfCall? {
        assert RefusesCallAt(tr, steps, j, id, blame.call, message);
      } else {
        NewFailure(tr, steps, j, id, blame, message);
      }
  }

  lemma NewFailure(tr: seq<System>, steps: seq<Step>, j: nat, id: nat, blame: Blame, message: string)
    requires Trace(tr, steps) && j < |steps| && Adds(tr[j], steps[j], Error(id, blame, message)) && !blame.OfCall?
    requires id in tr[j].c.pending && id in tr[j + 1].c.pending
    ensures Founded(tr, steps, j + 1, Error(id, blame, message))
  {
    hide Forwarded, Complaint;
    TraceKeeps(tr, steps, j);
    assert Enabled(tr[j], steps[j]) && tr[j + 1] == Next(tr[j], steps[j]) && Ids(tr[j]);
    PendingKept(tr[j], steps[j], id);
    hide Trace, Inv, Next, Enabled;
    assert RefusesSubAt(tr, steps, j, tr[j].c.pending[id].handler);
  }

  lemma SaidIsOk(s: System, m: ServerMsg)
    requires Inv(s) && m in s.s2c && m.Error? && !m.blame.OfCall?
    ensures m.inReplyTo in s.c.pending
  {
    assert OkS(s, m) by { hide OkS, OkC, OkJ, Ids, SubIds, Linked, Requests, Placed, GivenUp, Agreeing, Answered, Handlers; }
    hide Inv;
  }

  lemma FailsForPending(s: System, step: Step, m: ServerMsg)
    requires Inv(s) && Adds(s, step, m) && m.Error? && !m.blame.OfCall?
    ensures m.inReplyTo in s.c.pending
  {
    hide Forwarded, Complaint;
    assert OkJ(s, s.jobs[step.i]) by {
      assert s.jobs[step.i] in s.jobs;
      hide OkS, OkC, OkJ, Ids, SubIds, Linked, Requests, Placed, GivenUp, Agreeing, Answered, Handlers;
    }
    hide Inv;
  }

  lemma MessageFounded(tr: seq<System>, steps: seq<Step>, j: nat, m: ServerMsg)
    requires Trace(tr, steps) && j < |steps| && AllFounded(tr, steps, j) && m in tr[j + 1].s2c
    ensures Founded(tr, steps, j + 1, m)
  {
    TraceKeeps(tr, steps, j);
    TraceKeeps(tr, steps, j + 1);
    assert Enabled(tr[j], steps[j]) && tr[j + 1] == Next(tr[j], steps[j]);
    assert Linked(tr[j]) && SubIds(tr[j]) && Ids(tr[j]);
    hide Trace, Inv, Next, Enabled, Linked, SubIds, Ids, Adds, Founded;
    if m.Error? && !m.blame.OfCall? { SaidIsOk(tr[j + 1], m); }
    NewMessages(tr[j], steps[j], m);
    if m in tr[j].s2c {
      FoundedStays(tr, steps, j, m);
    } else if Adds(tr[j], steps[j], m) {
      if m.Error? && !m.blame.OfCall? { FailsForPending(tr[j], steps[j], m); }
      FoundedNew(tr, steps, j, m);
    } else {
      assert Founded(tr, steps, j + 1, m) by { UpdateFounded(tr, steps, j + 1, m); }
    }
  }

  lemma UpdateFounded(tr: seq<System>, steps: seq<Step>, j: nat, m: ServerMsg)
    requires |tr| == |steps| + 1 && j < |tr| && (m.Accepted? || m.Snapshot? || m.Delta?)
    ensures Founded(tr, steps, j, m)
  {
  }

  lemma {:induction false} TraceFounded(tr: seq<System>, steps: seq<Step>, j: nat)
    requires Trace(tr, steps) && j < |tr|
    ensures AllFounded(tr, steps, j)
  {
    hide Founded, Next, Enabled;
    if j == 0 {
      assert tr[0].s2c == [];
    } else {
      TraceFounded(tr, steps, j - 1);
      hide Trace;
      forall m | m in tr[j].s2c
        ensures Founded(tr, steps, j, m)
      {
        MessageFounded(tr, steps, j - 1, m);
      }
    }
  }

  // ---- where outcomes come from -----------------------------------------------------------------------

  /** Step k is what the outcome of promise `id` tells of. */
  ghost predicate CausesAt(tr: seq<System>, steps: seq<Step>, k: nat, id: nat, outcome: Outcome)
    requires |tr| == |steps| + 1 && k < |steps|
  {
    match outcome
    case Resolved(answer) => AnswersAt(tr, steps, k, id, answer)
    case Rejected(blame, message) =>
      match blame
      case OfCall(call) => RefusesCallAt(tr, steps, k, id, call, message)
      case OfClose => steps[k] == SocketCloses && id in tr[k].c.rpcs && message == "disconnected"
      case OfSubscribe => false
  }

  lemma NewlySettled(s: System, step: Step, id: nat)
    requires Enabled(s, step) && id in Next(s, step).settled && id !in s.settled
    ensures step == ClientTakes || (step == SocketCloses && id in s.c.rpcs && Next(s, step).settled[id] == Rejected(OfClose, "disconnected"))
  {
    hide Enumerates, Opened, Dispatched, Handled, Subs, Deltas;
  }

  lemma SettledByReply(tr: seq<System>, steps: seq<Step>, j: nat, id: nat) returns (k: nat)
    requires Trace(tr, steps) && j < |steps| && steps[j] == ClientTakes && id in tr[j + 1].settled && id !in tr[j].settled
    ensures k < j && CausesAt(tr, steps, k, id, tr[j + 1].settled[id])
  {
    ReplyIsTaken(tr, steps, j);
    TraceFounded(tr, steps, j);
    hide Trace, AnswersAt, RefusesCallAt, RefusesSubAt;
    var m := tr[j].s2c[0];
    assert m in tr[j].s2c && Founded(tr, steps, j, m);
    match m
    case Result(x, answer) =>
      k :| k < j && AnswersAt(tr, steps, k, x, answer);
    case Error(x, blame, message) =>
      k :| k < j && RefusesCallAt(tr, steps, k, x, blame.call, message);
    case _ => assert false;
  }

  /** Every promise that ended tells the truth about an earlier step: the gateway's answer to that call, its
      failure, a call that names no charger or none of the thirteen commands, or a close while it waited. */
  lemma {:induction false} EndedBecause(tr: seq<System>, steps: seq<Step>, j: nat, id: nat)
    requires Trace(tr, steps) && j < |tr| && id in tr[j].settled
    ensures exists k: nat :: k < j && CausesAt(tr, steps, k, id, tr[j].settled[id])
  {
    hide CausesAt, Next, Enabled, Inv;
    if j > 0 && id in tr[j - 1].settled {
      EndedBecause(tr, steps, j - 1, id);
      SettledOnce(tr, steps, j - 1, j, id);
    } else if j > 0 && steps[j - 1] == ClientTakes {
      var _ := SettledByReply(tr, steps, j - 1, id);
    } else if j > 0 {
      assert Enabled(tr[j - 1], steps[j - 1]) && tr[j] == Next(tr[j - 1], steps[j - 1]);
      NewlySettled(tr[j - 1], steps[j - 1], id);
      ClosedIsCause(tr, steps, j - 1, id);
    }
  }

  lemma ClosedIsCause(tr: seq<System>, steps: seq<Step>, k: nat, id: nat)
    requires |tr| == |steps| + 1 && k < |steps| && steps[k] == SocketCloses && id in tr[k].c.rpcs
    ensures CausesAt(tr, steps, k, id, Rejected(OfClose, "disconnected"))
  {
  }

  lemma NewlyRejected(s: System, step: Step, h: nat)
    requires Enabled(s, step) && h in Next(s, step).rejected && h !in s.rejected
    ensures step == ClientTakes
  {
    hide Enumerates, Opened, Dispatched, Handled, Subs, Deltas;
  }

  lemma RejectedByReply(tr: seq<System>, steps: seq<Step>, j: nat, h: nat)
    requires Trace(tr, steps) && j < |steps| && steps[j] == ClientTakes && h in tr[j + 1].rejected && h !in tr[j].rejected
    ensures exists k: nat :: k < j && RefusesSubAt(tr, steps, k, h)
  {
    ReplyIsTaken(tr, steps, j);
    TraceFounded(tr, steps, j);
    TookRejects(tr, steps, j, h);
    hide Trace, AnswersAt, RefusesCallAt, RefusesSubAt;
    var m := tr[j].s2c[0];
    assert m in tr[j].s2c && Founded(tr, steps, j, m);
  }

  lemma TookRejects(tr: seq<System>, steps: seq<Step>, j: nat, h: nat)
    requires Trace(tr, steps) && j < |steps| && steps[j] == ClientTakes && h in tr[j + 1].rejected && h !in tr[j].rejected
    requires ReplyDoes(tr[j], tr[j + 1])
    ensures var m := tr[j].s2c[0]; m.Error? && !m.blame.OfCall?
  {
    assert tr[j + 1] == ClientTook(tr[j]);
    hide Trace;
  }

  /** A subscription is refused only because the snapshot its request asked for has failed. */
  lemma {:induction false} RefusedBecause(tr: seq<System>, steps: seq<Step>, j: nat, h: nat)
    requires Trace(tr, steps) && j < |tr| && h in tr[j].rejected
    ensures exists k: nat :: k < j && RefusesSubAt(tr, steps, k, h)
  {
    hide RefusesSubAt, Next, Enabled, Inv;
    if j > 0 && h in tr[j - 1].rejected {
      RefusedBecause(tr, steps, j - 1, h);
    } else if j > 0 {
      assert Enabled(tr[j - 1], steps[j - 1]) && tr[j] == Next(tr[j - 1], steps[j - 1]);
      NewlyRejected(tr[j - 1], steps[j - 1], h);
      RejectedByReply(tr, steps, j - 1, h);
    }
  }

  /** So a handler that was subscribed is held in every later state unless the snapshot of one of its
      requests has failed or its handle was used. */
  lemma HeldOrFailed(tr: seq<System>, steps: seq<Step>, i: nat, j: nat)
    requires Trace(tr, steps) && i < j < |tr| && steps[i].ClientSubscribes?
    ensures var h := tr[i].c.nextId;
      || Held(tr[j].c, h)
      || (exists k: nat :: k < j && RefusesSubAt(tr, steps, k, h))
      || (exists k: nat :: k < j && UsesHandle(tr, steps, k, h))
  {
    var h := tr[i].c.nextId;
    hide Trace, Held, EffectOf, RefusesSubAt;
    NoLostHandler(tr, steps, i, j);
    if !Held(tr[j].c, h) {
      var k: nat :| k < j && Ends(tr, steps, k, h);
      if steps[k] == ClientTakes {
        EffectRejects(tr, steps, k, h);
        RefusedBecause(tr, steps, k + 1, h);
      } else {
        assert UsesHandle(tr, steps, k, h);
      }
    }
  }

  ghost predicate UsesHandle(tr: seq<System>, steps: seq<Step>, k: nat, h: nat)
    requires |tr| == |steps| + 1 && k < |steps|
  {
    steps[k].ClientUnsubscribes? && steps[k].subId in tr[k].c.active && tr[k].c.active[steps[k].subId].handler == h
  }

  lemma EffectRejects(tr: seq<System>, steps: seq<Step>, k: nat, h: nat)
    requires Trace(tr, steps) && k < |steps| && steps[k] == ClientTakes && tr[k].s2c != [] && EffectOf(tr[k]) == Rejects(h)
    ensures h in tr[k + 1].rejected
  {
    assert tr[k + 1] == ClientTook(tr[k]);
    hide Trace, Handled;
  }

  // ---- a run in which a subscription lives ------------------------------------------------------------

  lemma OneIsEnumerated()
    ensures Enumerates([1], {1}) && Enumerates([], {})
  {
  }

  lemma Asking(s: System, query: string, params: string) returns (s': System)
    requires s.c == NewClient
    ensures Enabled(s, ClientSubscribes(query, params)) && Enabled(Next(s, ClientSubscribes(query, params)), Connects)
    ensures s' == Next(Next(s, ClientSubscribes(query, params)), Connects)
    ensures s'.c == Client(Connecting, 2, map[1 := Sub(query, params, 1)], map[], {}) && s'.c2s == s.c2s && s'.s2c == s.s2c
    ensures s'.jobs == s.jobs && s'.b == s.b && s'.nextSub == s.nextSub
  {
    s' := Next(Next(s, ClientSubscribes(query, params)), Connects);
    assert s.c2s + [] == s.c2s;
  }

  lemma Serving(s: System, sub: Sub) returns (s': System)
    requires s.c.status == Open && s.c2s == [Subscribe(1, sub.query, sub.params)] && s.jobs == [] && s.s2c == []
    requires s.conn in s.b && s.b[s.conn] == map[]
    ensures Enabled(s, ServerTakes) && Enabled(Next(s, ServerTakes), SnapshotReady(0))
    ensures s' == Next(Next(s, ServerTakes), SnapshotReady(0)) && s'.c == s.c
    ensures s'.s2c == [Accepted(1, s.nextSub), Snapshot(s.nextSub)] && Subs(s') == map[s.nextSub := Subscription(sub.query, sub.params)]
  {
    var s1 := Next(s, ServerTakes);
    assert s1.jobs == [SnapshotJob(1, sub.query, sub.params)] && s1.c == s.c && s1.b == s.b && s1.s2c == [] && s1.conn == s.conn;
    s' := Next(s1, SnapshotReady(0));
    hide Dispatched, ServerTook;
  }

  lemma Taking(s: System, sub: Sub, subId: nat) returns (s': System)
    requires s.c == Client(Open, 2, map[1 := sub], map[], {}) && s.s2c == [Accepted(1, subId), Snapshot(subId)]
    ensures Enabled(s, ClientTakes) && s' == Next(s, ClientTakes) && s'.s2c == [Snapshot(subId)]
    ensures s'.c.active == map[subId := sub] && EffectOf(s') == Runs(subId) && Subs(s') == Subs(s)
  {
    s' := Next(s, ClientTakes);
    assert s.s2c[1..] == [Snapshot(subId)];
  }

  lemma IsTrace(tr: seq<System>, steps: seq<Step>)
    requires |steps| == 6 && |tr| == 7 && Initial(tr[0])
    requires Enabled(tr[0], steps[0]) && tr[1] == Next(tr[0], steps[0]) && Enabled(tr[1], steps[1]) && tr[2] == Next(tr[1], steps[1])
    requires Enabled(tr[2], steps[2]) && tr[3] == Next(tr[2], steps[2]) && Enabled(tr[3], steps[3]) && tr[4] == Next(tr[3], steps[3])
    requires Enabled(tr[4], steps[4]) && tr[5] == Next(tr[4], steps[4]) && Enabled(tr[5], steps[5]) && tr[6] == Next(tr[5], steps[5])
    ensures Trace(tr, steps)
  {
    hide Next, Enabled, Initial;
  }

  /** From every start: subscribe, connect, and let each side do its work once. The handler has its query and
      parameters, the server the same under the same id, and the snapshot runs the handler. */
  lemma SubscriptionLives(b: Connections, conn: nat, newConn: nat, subId: nat, query: string, params: string)
    returns (tr: seq<System>, steps: seq<Step>)
    requires conn !in b && newConn !in b
    ensures Trace(tr, steps) && |steps| == 6 && tr[0] == Start(b, conn, subId) && steps[0] == ClientSubscribes(query, params)
    ensures tr[6].s2c == [Snapshot(subId)] && EffectOf(tr[6]) == Runs(subId)
    ensures tr[6].c.active == map[subId := Sub(query, params, 1)] && Subs(tr[6]) == map[subId := Subscription(query, params)]
  {
    hide Next, Enabled, EffectOf, Subs, Trace;
    var (s0, sub) := (Start(b, conn, subId), Sub(query, params, 1));
    var s2 := Asking(s0, query, params);
    var s3 := Opening(s2, newConn, sub);
    var s5 := Serving(s3, sub);
    var s6 := Taking(s5, sub, subId);
    tr := [s0, Next(s0, ClientSubscribes(query, params)), s2, s3, Next(s3, ServerTakes), s5, s6];
    steps := [ClientSubscribes(query, params), Connects, SocketOpens(newConn, [1], []), ServerTakes, SnapshotReady(0), ClientTakes];
    IsTrace(tr, steps);
  }

  lemma Opening(s: System, newConn: nat, sub: Sub) returns (s': System)
    requires s.c == Client(Connecting, 2, map[1 := sub], map[], {}) && newConn !in s.b && s.c2s == [] && s.s2c == [] && s.jobs == []
    ensures Enabled(s, SocketOpens(newConn, [1], [])) && s' == Next(s, SocketOpens(newConn, [1], []))
    ensures s'.c == s.c.(status := Open) && s'.c2s == [Subscribe(1, sub.query, sub.params)] && s'.b == s.b[newConn := map[]]
    ensures s'.conn == newConn && s'.s2c == [] && s'.jobs == [] && s'.nextSub == s.nextSub
  {
    OneIsEnumerated();
    s' := Next(s, SocketOpens(newConn, [1], []));
    var c1 := s.c.(status := Open);
    assert [1][1..] == [] && Resend(c1, [1]) == [Subscribe(1, sub.query, sub.params)] + Resend(c1, []);
    assert Reissue(c1, []) == (c1, []);
  }
}
