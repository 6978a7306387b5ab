/** The messages of the console's WebSocket protocol (packages/protocol/src/envelope.ts).
    Request ids are the client's counter, subscription ids the server's; both are counted. */
module Wire {

  /** A live query: its name, its parameters and the caller's handlers. */
  datatype Sub = Sub(query: string, params: string, handler: nat)

  /** An rpc: `cpId` is "" when params.cp_id is missing or not a non-empty string. */
  datatype Call = Call(name: string, cpId: string, params: string)

  /** What the gateway answered, and to which call. */
  datatype Answer = Answer(call: Call, body: string)

  /** What an error is about: a call, a subscribe request, or the end of the connection. */
  datatype Blame = OfCall(call: Call) | OfSubscribe | OfClose

  datatype ClientMsg =
    | Subscribe(id: nat, query: string, params: string)
    | Unsubscribe(id: nat, subId: nat)
    | Rpc(id: nat, call: Call)

  datatype ServerMsg =
    | Accepted(inReplyTo: nat, subId: nat)
    | Snapshot(subId: nat)
    | Delta(subId: nat)
    | Result(inReplyTo: nat, answer: Answer)
    | Error(inReplyTo: nat, blame: Blame, message: string)
}
