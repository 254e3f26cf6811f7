/**
 * A Client and a Server talking to each other: src/server.js answers a
 * request, and src/client.js reads the answer with its own destructuring
 * and settlement rule. The two agree. The answer reaches the client's
 * reader with the request's id. It resolves the client's request with the
 * method's result exactly when the method exists and succeeded. Otherwise it
 * rejects with the failure, or with the METHOD_NOT_DEFINED_ERROR object.
 */
module Exchange {
  import opened Wrappers
  import opened Js
  import Nodes
  import Constants
  import Requests
  import Clients
  import Servers

  /** What the client makes of the server's answer, when there is one. */
  lemma {:induction false} ServerAnswerSettlesClient(
    server: Nodes.Node, types: Constants.MessageTypes, freshId: string, source: Value,
    requestId: Value, methods: Object, methodName: string, outcome: Result<Value, Value>)
    ensures var p := Servers.ResponsePayload(requestId, methods, methodName, outcome);
            p.Some? ==>
              var answer := Obj(Nodes.Envelope(server, Servers.ResponseMessage(freshId, types, p.value), source));
              && Clients.ResponseFields(answer) == Some((requestId, p.value["result"], p.value["error"]))
              && Clients.ResponseSettlement(p.value["result"], p.value["error"]) ==
                 if !IsFunction(Get(methods, methodName)) then Requests.Rejected(Servers.MethodNotDefined(methodName))
                 else if outcome.Ok? then Requests.Resolved(outcome.value)
                 else Requests.Rejected(outcome.error)
  {
    var p := Servers.ResponsePayload(requestId, methods, methodName, outcome);
    if p.Some? {
      var message := Servers.ResponseMessage(freshId, types, p.value);
      var envelope := Nodes.Envelope(server, message, source);
      assert envelope["payload"] == Obj(p.value);
      Servers.AnswerReportsFailure(requestId, methods, methodName, outcome);
    }
  }
}
