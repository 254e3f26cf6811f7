/**
 * The Client node of src/client.js. It sends requests labelled
 * `messageTypes.request` and listens under `messageTypes.response`. It
 * settles the pending request whose id a response names.
 *
 * As written, `request` calls `requestManager.registerRequest`, which
 * src/request-manager.js does not define. `RequestAsWritten` models that
 * call, which always throws; `Client.Request` is the corrected one, which
 * registers through `createRequest`. The constructor also passes its
 * timeout under a key the RequestManager does not read (see
 * `Requests.ManagerTimeoutAsWritten`); the model passes it as `timeout`.
 */
module Clients {
  import opened Wrappers
  import opened Js
  import Util
  import Nodes
  import Requests
  import Backoff
  import Constants

  const DefaultRequestTimeout: nat := 1000

  /** The message of the TypeError a destructuring pattern throws on `null` or `undefined`; its wording is the engine's. */
  const DestructureMessage := "Cannot destructure 'undefined'"

  /** The wrapper around the caller's `onSendMessage` that the client hands to its node. */
  const SendWrapper := Func(0)
  /** The wrapper around the caller's `onAttachMessageListener` that the client hands to its node. */
  const AttachWrapper := Func(1)
  /** The function a corrected request is created with: the send of its request message. */
  const SendRequestFunction := Func(2)

  /** The options of `new Client(options)`. `Undefined` and `None` stand for an option that is left out. */
  datatype ClientOptions = ClientOptions(
    id: Value,
    onSendMessage: Value,
    onUnhandledMessage: Value,
    onAttachMessageListener: Value,
    defaultRequestTimeout: Option<nat>,
    messageTypes: Option<Constants.MessageTypes>)

  /** The validation `request(methodName, parameters)` starts with. */
  function ValidateRequest(methodName: Value, parameters: Value): (o: Outcome<Value>)
    ensures o.Pass? <==> methodName.Str? && parameters.Arr?
    ensures !methodName.Str? ==> o == Util.ValidateMethodName(methodName)
    ensures methodName.Str? && !parameters.Arr? ==> o == Util.ValidateParameters(parameters)
  {
    Util.AndThen(Util.ValidateMethodName(methodName), Util.ValidateParameters(parameters))
  }

  /**
   * `request(methodName, parameters)` as written. After validation it calls
   * `registerRequest`, which the RequestManager lacks. The call throws a
   * TypeError before any message is sent.
   */
  function RequestAsWritten(methodName: Value, parameters: Value): (o: Outcome<Value>)
    ensures o.Throw?
    ensures ValidateRequest(methodName, parameters).Throw? ==> o == ValidateRequest(methodName, parameters)
    ensures ValidateRequest(methodName, parameters).Pass? ==> o == Throw(TypeError(Nodes.NotAFunctionMessage))
  {
    match ValidateRequest(methodName, parameters)
    case Throw(e) => Throw(e)
    case Pass => Throw(TypeError(Nodes.NotAFunctionMessage))
  }

  /** As written, even a well-formed request throws instead of sending. */
  lemma WellFormedRequestThrows()
    ensures RequestAsWritten(Str("someMethod"), Arr([Str("parameter-1")])) == Throw(TypeError(Nodes.NotAFunctionMessage))
  {
  }

  /** The message `request` sends: its id is the request id and its payload is exactly `{method, parameters}`. */
  function RequestMessage(requestId: string, types: Constants.MessageTypes, methodName: Value, parameters: Value): (m: Object)
    ensures m.Keys == {"id", "type", "payload"}
    ensures m["id"] == Str(requestId) && m["type"] == Str(types.request)
    ensures m["payload"] == Obj(map["method" := methodName, "parameters" := parameters])
  {
    map["id" := Str(requestId), "type" := Str(types.request),
        "payload" := Obj(map["method" := methodName, "parameters" := parameters])]
  }

  /** The destructured `payload: {requestId, result, error}` of a message, or `None` when the destructuring throws. */
  function ResponseFields(message: Value): (f: Option<(Value, Value, Value)>)
    ensures f.Some? <==> Prop(message, "payload").Some? && Prop(Prop(message, "payload").value, "requestId").Some?
  {
    match Prop(message, "payload")
    case None => None
    case Some(payload) =>
      if payload.Undefined? || payload.Null? then None
      else Some((Prop(payload, "requestId").value, Prop(payload, "result").value, Prop(payload, "error").value))
  }

  /** The settlement a response leads to: a truthy `error` rejects with `result`; otherwise `result` resolves. */
  function ResponseSettlement(result: Value, error: Value): (s: Requests.Settlement)
    ensures Truthy(error) ==> s == Requests.Rejected(result)
    ensures !Truthy(error) ==> s == Requests.Resolved(result)
  {
    if Truthy(error) then Requests.Rejected(result) else Requests.Resolved(result)
  }

  /**
   * What a response does to the pending request it names: the armed
   * timeout is cleared and the request settles as `ResponseSettlement`
   * says. Its retry state is kept.
   */
  function ResponseStep(s: Requests.RequestState, result: Value, error: Value): (r: Requests.RequestState)
    ensures r.timer.None?
    ensures r.settlement == Requests.Settle(s.settlement, ResponseSettlement(result, error))
    ensures r.retryCount == s.retryCount && r.retries == s.retries && r.calls == s.calls
  {
    if Truthy(error) then Requests.RejectStep(s, result) else Requests.ResolveStep(s, result)
  }

  /**
   * A response neither resolves nor rejects with anything but its own
   * `result`. A falsy `error` of any kind (`false`, `0`, `""`, `null`,
   * or an `error` left out, as in a `{ isError: false }` payload) resolves.
   */
  lemma ResponseSettlesWithResult(result: Value, error: Value)
    ensures ResponseSettlement(result, error) == Requests.Resolved(result) ||
            ResponseSettlement(result, error) == Requests.Rejected(result)
    ensures ResponseSettlement(result, Undefined) == Requests.Resolved(result)
    ensures ResponseSettlement(result, Bool(false)) == Requests.Resolved(result)
    ensures ResponseSettlement(result, Str("SomeError")) == Requests.Rejected(result)
  {
  }

  class Client {
    const node: Nodes.Node
    const messageTypes: Constants.MessageTypes
    /** The caller's two-argument `onSendMessage(type, message)`. */
    const onSendMessage: Value
    /** The message types the caller's attach callback was invoked with, once each. */
    const attachedUnder: seq<string>
    const requestManager: Requests.RequestManager
    /** The calls of the caller's `onSendMessage`, in order. */
    var sent: seq<Nodes.Outgoing>
    /** The messages passed to `onUnhandledMessage`, in order. */
    var unhandled: seq<Value>

    ghost predicate Valid()
      reads this, requestManager, requestManager.sentRequests.Values
    {
      requestManager.Valid()
    }

    constructor (node: Nodes.Node, messageTypes: Constants.MessageTypes, onSendMessage: Value,
                 attachedUnder: seq<string>, defaultRequestTimeout: nat)
      ensures this.node == node && this.messageTypes == messageTypes && this.onSendMessage == onSendMessage
      ensures this.attachedUnder == attachedUnder
      ensures fresh(requestManager) && requestManager.timeout == Requests.ManagerTimeout(defaultRequestTimeout)
      ensures requestManager.maxRetries == Requests.ManagerRetryAttempts
      ensures requestManager.sentRequests == map[] && sent == [] && unhandled == []
      ensures Valid()
    {
      this.node := node;
      this.messageTypes := messageTypes;
      this.onSendMessage := onSendMessage;
      this.attachedUnder := attachedUnder;
      requestManager := new Requests.RequestManager(Requests.ManagerTimeout(defaultRequestTimeout), None);
      sent := [];
      unhandled := [];
    }

    /**
     * `new Client(options)`. The node gets a send wrapper, which is always
     * a function, so a missing `onSendMessage` only shows when a message is
     * sent. The caller's attach callback, when truthy, is invoked once,
     * under `messageTypes.response`. The construction fails exactly when the
     * id is invalid, or when the attach callback is truthy and not a function.
     */
    static method Create(options: ClientOptions, freshId: string) returns (r: Result<Client, Value>)
      ensures r.Fail? <==> !Util.IsValidId(Nodes.NodeId(NodeOptionsOf(options), freshId)) ||
                           (Truthy(options.onAttachMessageListener) && !IsFunction(options.onAttachMessageListener))
      ensures r.Ok? ==> fresh(r.value) && fresh(r.value.requestManager) && r.value.Valid()
      ensures r.Ok? ==> r.value.node.id == Nodes.NodeId(NodeOptionsOf(options), freshId)
      ensures r.Ok? ==> r.value.node.onUnhandledMessage ==
                        if options.onUnhandledMessage.Undefined? then Nodes.LogUnhandledMessage else options.onUnhandledMessage
      ensures r.Ok? ==> r.value.messageTypes == Requests.OrElse(options.messageTypes, Constants.MESSAGE_TYPES)
      ensures r.Ok? ==> r.value.attachedUnder ==
                        if Truthy(options.onAttachMessageListener) then [r.value.messageTypes.response] else []
      ensures r.Ok? ==> r.value.requestManager.timeout ==
                        Requests.ManagerTimeout(Requests.OrElse(options.defaultRequestTimeout, DefaultRequestTimeout))
      ensures r.Ok? ==> r.value.requestManager.sentRequests == map[] && r.value.sent == [] && r.value.unhandled == []
    {
      var types := Requests.OrElse(options.messageTypes, Constants.MESSAGE_TYPES);
      var built := Nodes.NewNode(NodeOptionsOf(options), freshId);
      if built.Fail? {
        return Fail(built.error);
      }
      if Truthy(options.onAttachMessageListener) && !IsFunction(options.onAttachMessageListener) {
        return Fail(TypeError(Nodes.NotAFunctionMessage));
      }
      var under := if Truthy(options.onAttachMessageListener) then [types.response] else [];
      var c := new Client(built.value.node, types, options.onSendMessage, under,
                          Requests.OrElse(options.defaultRequestTimeout, DefaultRequestTimeout));
      return Ok(c);
    }

    /** The outcome of handing `message` to the caller's `onSendMessage` through the node. */
    method Send(message: Object, transport: Outcome<Value>) returns (o: Outcome<Value>)
      modifies this
      ensures sent == old(sent) + if IsFunction(onSendMessage)
                                  then [Nodes.Outgoing(messageTypes.request, Nodes.Envelope(node, message, Undefined))] else []
      ensures o == Nodes.SendOutcome(if IsFunction(onSendMessage) then transport else Throw(TypeError(Nodes.NotAFunctionMessage)))
      ensures unhandled == old(unhandled)
    {
      if IsFunction(onSendMessage) {
        sent := sent + [Nodes.Outgoing(messageTypes.request, Nodes.Envelope(node, message, Undefined))];
        o := Nodes.SendOutcome(transport);
      } else {
        o := Nodes.SendOutcome(Throw(TypeError(Nodes.NotAFunctionMessage)));
      }
    }

    /**
     * `request(methodName, parameters)` at time `now`, with the registration
     * done through `createRequest`. Validation comes first. A rejected call
     * registers and sends nothing. Then a request is registered under a
     * fresh id and attempted: its timeout is armed, and the message with
     * that id is sent. The result is the outcome of the send; on `Pass`,
     * the caller waits on the returned request's settlement. A failed send
     * leaves the request registered until it times out.
     */
    method Request(methodName: Value, parameters: Value, freshId: string, now: int, transport: Outcome<Value>)
      returns (o: Outcome<Value>, request: Requests.Request?)
      requires Valid()
      modifies this, requestManager
      ensures Valid() && unhandled == old(unhandled)
      ensures ValidateRequest(methodName, parameters).Throw? ==>
                o == ValidateRequest(methodName, parameters) && request == null &&
                sent == old(sent) && requestManager.sentRequests == old(requestManager.sentRequests)
      ensures ValidateRequest(methodName, parameters).Pass? ==>
                && request != null && fresh(request)
                && request.id == Str(freshId) && request.owner == requestManager
                && requestManager.sentRequests == old(requestManager.sentRequests)[freshId := request]
                && request.timeout == Requests.TimeoutFor(None, requestManager.timeout)
                && request.maxRetries == requestManager.maxRetries && request.backoff == Backoff.DefaultExponential
                && request.State() == Requests.AttemptStep(Requests.NewState(), request.timeout, now)
                && sent == old(sent) + (if IsFunction(onSendMessage)
                                        then [Nodes.Outgoing(messageTypes.request,
                                                       Nodes.Envelope(node, RequestMessage(freshId, messageTypes, methodName, parameters), Undefined))]
                                        else [])
                && o == Nodes.SendOutcome(if IsFunction(onSendMessage) then transport else Throw(TypeError(Nodes.NotAFunctionMessage)))
    {
      var check := ValidateRequest(methodName, parameters);
      if check.Throw? {
        return check, null;
      }
      var created := requestManager.CreateRequest(SendRequestFunction, Requests.RequestOptions(Some(Str(freshId)), None, None, None), freshId);
      assert Requests.Key(Str(freshId)) == freshId;
      request := created.value;
      request.Attempt(now);
      o := Send(RequestMessage(freshId, messageTypes, methodName, parameters), transport);
    }

    /**
     * `receiveMessage(message)`. It throws when the payload cannot be
     * destructured or its `requestId` is not a valid id. A response for an
     * unknown id goes to the node's `onUnhandledMessage`, which throws a
     * TypeError when it is not a function, and changes no request.
     * Otherwise the pending request takes `ResponseStep` and is erased, and
     * every other request stays as it was.
     */
    method ReceiveMessage(message: Value) returns (o: Outcome<Value>)
      requires Valid()
      modifies this, requestManager, requestManager.sentRequests.Values
      ensures Valid() && sent == old(sent)
      ensures ResponseFields(message).None? ==>
                o == Throw(TypeError(DestructureMessage)) && unhandled == old(unhandled) &&
                requestManager.sentRequests == old(requestManager.sentRequests) &&
                unchanged(old(requestManager.sentRequests).Values)
      ensures ResponseFields(message).Some? && !Util.IsValidId(ResponseFields(message).value.0) ==>
                o == Throw(PlainError(Util.InvalidIdMessage)) && unhandled == old(unhandled) &&
                requestManager.sentRequests == old(requestManager.sentRequests) &&
                unchanged(old(requestManager.sentRequests).Values)
      ensures ResponseFields(message).Some? && Util.IsValidId(ResponseFields(message).value.0) &&
              Requests.Key(ResponseFields(message).value.0) !in old(requestManager.sentRequests) ==>
                o == Nodes.CallOutcome(node.onUnhandledMessage) &&
                unhandled == old(unhandled) + (if IsFunction(node.onUnhandledMessage) then [message] else []) &&
                requestManager.sentRequests == old(requestManager.sentRequests) &&
                unchanged(old(requestManager.sentRequests).Values)
      ensures ResponseFields(message).Some? && Util.IsValidId(ResponseFields(message).value.0) &&
              Requests.Key(ResponseFields(message).value.0) in old(requestManager.sentRequests) ==>
                var (requestId, result, error) := ResponseFields(message).value;
                var key := Requests.Key(requestId);
                var settled := old(requestManager.sentRequests)[key];
                && o.Pass? && unhandled == old(unhandled)
                && requestManager.sentRequests == old(requestManager.sentRequests) - {key}
                && settled.settlement == ResponseSettlement(result, error)
                && settled.State() == ResponseStep(old(settled.State()), result, error)
                && unchanged(old(requestManager.sentRequests).Values - {settled})
    {
      var fields := ResponseFields(message);
      if fields.None? {
        return Throw(TypeError(DestructureMessage));
      }
      var (requestId, result, error) := fields.value;
      var check := Util.ValidateId(requestId);
      if check.Throw? {
        return check;
      }
      var found := requestManager.GetRequest(requestId);
      if found.None? {
        if IsFunction(node.onUnhandledMessage) {
          unhandled := unhandled + [message];
        }
        return Nodes.CallOutcome(node.onUnhandledMessage);
      }
      var r := found.value;
      if Truthy(error) {
        requestManager.Reject(r, result);
      } else {
        requestManager.Resolve(r, result);
      }
      return Pass;
    }
  }

  /** The options the client hands to its node. */
  function NodeOptionsOf(options: ClientOptions): Nodes.NodeOptions {
    Nodes.NodeOptions(options.id, SendWrapper, options.onUnhandledMessage,
                      if Truthy(options.onAttachMessageListener) then AttachWrapper else Undefined)
  }
}
