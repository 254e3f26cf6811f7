/**
 * The combined node of src/intercomm.js. One object plays the client role,
 * the server role or both. It owns a RequestManager exactly when it is a
 * client, and an `api` of exposed methods exactly when it is a server. Every
 * incoming message is addressed by `destination`. A message for another
 * node goes to `onUnhandledMessage`. A message for this node is
 * dispatched by its `type`.
 *
 * As in the Client, `remoteExec` calls `requestManager.registerRequest`,
 * which src/request-manager.js does not define. `RemoteExecAsWritten`
 * models that call, which always throws, and `Intercomm.RemoteExec` is the
 * corrected one, which registers through `createRequest`. The constructor
 * passes its timeout under the key the manager does not read (see
 * `Requests.ManagerTimeoutAsWritten`). The model passes it as `timeout`.
 *
 * Deferred sends (`setImmediate`, promise callbacks) are modelled as taking
 * place within the call that schedules them. The method outcome and the
 * transport are parameters, as in the `Servers` and `Nodes` modules.
 */
module Intercomms {
  import opened Wrappers
  import opened Js
  import Util
  import Nodes
  import Requests
  import Backoff
  import Clients
  import Servers

  const OnSendMessageMessage := "invalid onSendMessage function: must be a function that takes exactly 1 argument"
  const MethodNotDefinedError := "METHOD_NOT_DEFINED"
  const MethodsMessage := "methods must be a non empty array of method names"
  const SendMessageErrorName := "SEND_MESSAGE_ERROR"
  const DefaultRequestTimeout: nat := 1000

  /** The message of the TypeError a destructuring pattern throws on `null` or `undefined`; its wording is the engine's. */
  const DestructureMessage := "Cannot destructure 'undefined'"
  /** The message of the TypeError thrown by reading a property of `null` or `undefined`; its wording is the engine's. */
  const ReadOfUndefinedMessage := "Cannot read properties of undefined"

  /** The default `onUnhandledMessage`, which logs a warning. */
  const WarnUnhandled := Func(5)
  /** The default `onEvent`, which takes no action. */
  const Noop := Func(6)
  /** The function a corrected remote execution is created with: the send of its request message. */
  const SendRequestFunction := Func(7)

  /** The options of `new Intercomm(options)`. `Undefined` and `None` stand for an option that is left out. */
  datatype IntercommOptions = IntercommOptions(
    onSendMessage: Value,
    id: Value,
    roles: Option<seq<string>>,
    defaultRequestTimeout: Option<nat>,
    onEvent: Value,
    onUnhandledMessage: Value,
    onCustomMessageType: Value)

  /** The argument of one `onEvent` call. */
  datatype EventRecord = EventRecord(source: Value, name: Value, data: Value)

  /** The arguments of one `onCustomMessageType(payload, message)` call. */
  datatype CustomCall = CustomCall(payload: Value, message: Value)

  /** Everything an intercomm records of its calls out: to the transport, and to the caller's callbacks. */
  datatype CallLog = CallLog(
    sent: seq<Object>,
    unhandled: seq<Value>,
    custom: seq<CustomCall>,
    events: seq<EventRecord>,
    invocations: seq<Servers.Invocation>)

  // ---------------------------------------------------------------------
  // Routing
  // ---------------------------------------------------------------------

  /** Where `receiveMessage` sends a message. The payload has its default `{}` applied. */
  datatype Route =
    | Refused(error: Value)
    | Unhandled
    | ToRequest(payload: Value)
    | ToResponse(payload: Value)
    | ToEvent(payload: Value)
    | ToCustom(payload: Value)

  /** The `payload` of a message, `{}` when it is left `undefined`. */
  function PayloadOf(message: Value): Value
    requires Prop(message, "payload").Some?
  {
    var p := Prop(message, "payload").value;
    if p.Undefined? then Obj(map[]) else p
  }

  /**
   * The routing decision of `receiveMessage`. A `null` or `undefined`
   * message cannot be destructured. An invalid destination throws. A
   * message for another node is unhandled. A message for this node goes to
   * the handler of its type. Any other type goes to `onCustomMessageType`
   * when that is truthy, and is unhandled otherwise.
   */
  function RouteOf(message: Value, ownId: Value, hasCustomHandler: bool): (r: Route)
    ensures (message.Undefined? || message.Null?) ==> r == Refused(TypeError(DestructureMessage))
    ensures !(message.Undefined? || message.Null?) && !Util.IsValidId(Prop(message, "destination").value) ==>
              r == Refused(PlainError(Util.InvalidIdMessage))
    ensures !r.Refused? && !r.Unhandled? ==> Prop(message, "destination").value == ownId
    ensures (!(message.Undefined? || message.Null?) && Util.IsValidId(Prop(message, "destination").value) &&
             Prop(message, "destination").value != ownId) ==> r == Unhandled
    ensures r.ToRequest? <==> !r.Refused? && Prop(message, "destination").value == ownId &&
                              Prop(message, "type").value == Str(Util.RequestMessageType)
    ensures r.ToResponse? <==> !r.Refused? && Prop(message, "destination").value == ownId &&
                               Prop(message, "type").value == Str(Util.ResponseMessageType)
    ensures r.ToEvent? <==> !r.Refused? && Prop(message, "destination").value == ownId &&
                            Prop(message, "type").value == Str(Util.EventMessageType)
    ensures r.ToCustom? <==> !r.Refused? && Prop(message, "destination").value == ownId && hasCustomHandler &&
                             Prop(message, "type").value !in {Str(Util.RequestMessageType), Str(Util.ResponseMessageType),
                                                              Str(Util.EventMessageType)}
    ensures (r.ToRequest? || r.ToResponse? || r.ToEvent? || r.ToCustom?) ==> r.payload == PayloadOf(message)
  {
    if message.Undefined? || message.Null? then Refused(TypeError(DestructureMessage))
    else
      var messageType := Prop(message, "type").value;
      var destination := Prop(message, "destination").value;
      var payload := PayloadOf(message);
      if !Util.IsValidId(destination) then Refused(PlainError(Util.InvalidIdMessage))
      else if destination != ownId then Unhandled
      else if messageType == Str(Util.RequestMessageType) then ToRequest(payload)
      else if messageType == Str(Util.ResponseMessageType) then ToResponse(payload)
      else if messageType == Str(Util.EventMessageType) then ToEvent(payload)
      else if hasCustomHandler then ToCustom(payload)
      else Unhandled
  }

  /**
   * Only a message addressed to this node reaches a handler, and an unknown
   * type is unhandled exactly when no custom handler is set. A valid
   * message is never lost: it reaches exactly one of the handlers or
   * `onUnhandledMessage`.
   */
  lemma {:induction false} RoutingIsByDestinationThenType(message: Value, ownId: Value, hasCustomHandler: bool)
    requires !(message.Undefined? || message.Null?) && Util.IsValidId(Prop(message, "destination").value)
    ensures var r := RouteOf(message, ownId, hasCustomHandler);
            && !r.Refused?
            && (r.Unhandled? <==> (Prop(message, "destination").value != ownId ||
                                  (!hasCustomHandler &&
                                   Prop(message, "type").value !in {Str(Util.RequestMessageType), Str(Util.ResponseMessageType),
                                                                    Str(Util.EventMessageType)})))
  {
    var r := RouteOf(message, ownId, hasCustomHandler);
    assert !r.Refused?;
  }

  // ---------------------------------------------------------------------
  // Envelopes and the outcome of a send
  // ---------------------------------------------------------------------

  /** `sendMessage(type, destination, payload)`: a new message with a fresh id, stamped with this node as its source. */
  function TypedEnvelope(freshId: string, ownId: Value, messageType: string, destination: Value, payload: Value): (m: Object)
    ensures m.Keys == {"id", "source", "type", "destination", "payload"}
    ensures m["id"] == Str(freshId) && m["source"] == ownId && m["type"] == Str(messageType)
    ensures m["destination"] == destination && m["payload"] == payload
  {
    map["id" := Str(freshId), "source" := ownId, "type" := Str(messageType),
        "destination" := destination, "payload" := payload]
  }

  /**
   * `sendMessage(message)`: the message's properties, with `source`
   * overwritten by this node's id, and its own `id` kept unless it is
   * `undefined`, in which case a fresh one is used.
   */
  function ObjectEnvelope(freshId: string, ownId: Value, message: Object): (m: Object)
    ensures m.Keys == message.Keys + {"source", "id"}
    ensures m["source"] == ownId
    ensures m["id"] == if Get(message, "id").Undefined? then Str(freshId) else message["id"]
    ensures forall k :: k in message && k != "source" && k != "id" ==> m[k] == message[k]
  {
    var id := Get(message, "id");
    message["source" := ownId]["id" := if id.Undefined? then Str(freshId) else id]
  }

  /** Enveloping an envelope again changes nothing: its id is kept and the source is the same. */
  lemma {:induction false} ObjectEnvelopeIsIdempotent(f1: string, f2: string, ownId: Value, message: Object)
    ensures ObjectEnvelope(f2, ownId, ObjectEnvelope(f1, ownId, message)) == ObjectEnvelope(f1, ownId, message)
  {
    var once := ObjectEnvelope(f1, ownId, message);
    var twice := ObjectEnvelope(f2, ownId, once);
    assert !Get(once, "id").Undefined?;
    assert twice.Keys == once.Keys;
    forall k | k in twice
      ensures twice[k] == once[k]
    {
    }
  }

  /**
   * The error a failed hand-off is turned into: `new SendMessageError(err.message)`.
   * Its name is SEND_MESSAGE_ERROR. Its message is the transport error's
   * message when that is a string, and SEND_MESSAGE_ERROR otherwise. Reading
   * the message of `null` or `undefined` throws a TypeError instead.
   */
  function SendFailure(error: Value): (e: Value)
    ensures (error.Undefined? || error.Null?) ==> e == TypeError(ReadOfUndefinedMessage)
    ensures !(error.Undefined? || error.Null?) ==>
              e.Err? && e.name == SendMessageErrorName &&
              e.message == if Prop(error, "message").value.Str? then Prop(error, "message").value.s else SendMessageErrorName
  {
    match Prop(error, "message")
    case None => TypeError(ReadOfUndefinedMessage)
    case Some(m) => Err(SendMessageErrorName, if m.Str? then m.s else SendMessageErrorName)
  }

  /** The outcome of `sendMessage`: a successful hand-off completes with no value, a failure with `SendFailure`. */
  function SendOutcome(transport: Outcome<Value>): (o: Outcome<Value>)
    ensures o.Pass? <==> transport.Pass?
    ensures o.Throw? ==> o.error == SendFailure(transport.error)
  {
    if transport.Pass? then Pass else Throw(SendFailure(transport.error))
  }

  /**
   * Of the transport's error, only its message reaches the caller: two
   * errors with the same message, of whatever kind, are reported alike.
   */
  lemma SendFailureKeepsOnlyMessage(e1: Value, e2: Value)
    requires e1.Err? && e2.Err? && e1.message == e2.message
    ensures SendOutcome(Throw(e1)) == SendOutcome(Throw(e2)) == Throw(Err(SendMessageErrorName, e1.message))
  {
  }

  // ---------------------------------------------------------------------
  // Requests
  // ---------------------------------------------------------------------

  /**
   * The destructured `{method, parameters}` of a request payload and
   * `{id: requestId, source}` of its message, or `None` when the
   * destructuring throws.
   */
  function RequestFields(payload: Value, message: Value): (f: Option<(Value, Value, Value, Value)>)
    ensures f.Some? <==> Prop(payload, "method").Some? && Prop(message, "id").Some?
  {
    if Prop(payload, "method").None? || Prop(message, "id").None? then None
    else Some((Prop(message, "id").value, Prop(message, "source").value,
               Prop(payload, "method").value, Prop(payload, "parameters").value))
  }

  /** The checks `_onRequestMessage` starts with, in order: request id, source, server role, method name, parameters. */
  function ValidateRequest(roles: seq<string>, requestId: Value, source: Value, methodName: Value, parameters: Value)
    : (o: Outcome<Value>)
    ensures o.Pass? <==> Util.IsValidId(requestId) && Util.IsValidId(source) && Util.ServerRole in roles &&
                         methodName.Str? && parameters.Arr?
    ensures !Util.IsValidId(requestId) ==> o == Util.ValidateId(requestId)
    ensures Util.IsValidId(requestId) && !Util.IsValidId(source) ==> o == Util.ValidateId(source)
    ensures Util.IsValidId(requestId) && Util.IsValidId(source) && Util.ServerRole !in roles ==>
              o == Util.RequireServerRole(roles)
  {
    Util.AndThen(Util.ValidateId(requestId),
      Util.AndThen(Util.ValidateId(source),
        Util.AndThen(Util.RequireServerRole(roles),
          Util.AndThen(Util.ValidateMethodName(methodName), Util.ValidateParameters(parameters)))))
  }

  /**
   * The `result` of the answer to a request for a method that is not exposed.
   * The Intercomm's own wording: the name METHOD_NOT_DEFINED and the
   * method unquoted. src/server.js words its error differently, so
   * `Servers.MethodNotDefined` is a separate builder.
   */
  function MethodNotDefined(methodName: string): (e: Value)
    ensures e.Obj? && e.fields.Keys == {"name", "message"}
    ensures e.fields["name"] == Str(MethodNotDefinedError)
    ensures e.fields["message"] == Str("Method " + methodName + " is not defined")
  {
    Obj(map["name" := Str(MethodNotDefinedError), "message" := Str("Method " + methodName + " is not defined")])
  }

  /**
   * The payload of the answer to a request for `methodName`, or `None` when
   * none is sent: the same rule as the Server's, with METHOD_NOT_DEFINED as
   * the label of a missing method.
   */
  function ResponsePayload(requestId: Value, api: Object, methodName: string, outcome: Result<Value, Value>)
    : (p: Option<Object>)
    ensures !IsFunction(Get(api, methodName)) ==>
              p == Some(Servers.Payload(requestId, MethodNotDefined(methodName), Str(MethodNotDefinedError)))
    ensures IsFunction(Get(api, methodName)) && outcome.Ok? ==>
              p == Some(Servers.Payload(requestId, outcome.value, Bool(false)))
    ensures IsFunction(Get(api, methodName)) && outcome.Fail? ==>
              (p.Some? <==> Servers.FailureLabel(outcome.error).Some?) &&
              (p.Some? ==> p.value == Servers.Payload(requestId, outcome.error, Servers.FailureLabel(outcome.error).value))
  {
    if !IsFunction(Get(api, methodName)) then
      Some(Servers.Payload(requestId, MethodNotDefined(methodName), Str(MethodNotDefinedError)))
    else
      match outcome
      case Ok(result) => Some(Servers.Payload(requestId, result, Bool(false)))
      case Fail(error) =>
        match Servers.FailureLabel(error)
        case None => None
        case Some(errorName) => Some(Servers.Payload(requestId, error, errorName))
  }

  /** What `_onRequestMessage` does: its outcome, the messages it sends, and the methods it invokes. */
  datatype RequestHandling = RequestHandling(outcome: Outcome<Value>, responses: seq<Object>, invoked: seq<Servers.Invocation>)

  /** `_onRequestMessage(payload, message)` of a node with id `ownId`, its roles and its api. */
  function HandleRequest(roles: seq<string>, api: Object, ownId: Value, payload: Value, message: Value,
                         freshId: string, outcome: Result<Value, Value>): (h: RequestHandling)
    ensures RequestFields(payload, message).None? ==> h == RequestHandling(Throw(TypeError(DestructureMessage)), [], [])
    ensures (payload.Undefined? || payload.Null? || message.Undefined? || message.Null?) ==>
              h == RequestHandling(Throw(TypeError(DestructureMessage)), [], [])
  {
    match RequestFields(payload, message)
    case None => RequestHandling(Throw(TypeError(DestructureMessage)), [], [])
    case Some((requestId, source, methodName, parameters)) =>
      match ValidateRequest(roles, requestId, source, methodName, parameters)
      case Throw(e) => RequestHandling(Throw(e), [], [])
      case Pass =>
        var invoked := if IsFunction(Get(api, methodName.s)) then [Servers.Invocation(methodName.s, parameters.items)] else [];
        match ResponsePayload(requestId, api, methodName.s, outcome)
        case None => RequestHandling(Pass, [], invoked)
        case Some(p) =>
          RequestHandling(Pass, [TypedEnvelope(freshId, ownId, Util.ResponseMessageType, source, Obj(p))], invoked)
  }

  /**
   * A request that fails its checks invokes and sends nothing. A valid
   * one invokes its method once if it is exposed, and is answered at most
   * once: with a response from this node to the request's source that names
   * the request's id. It is not answered only when the method failed with
   * `null` or `undefined`. The answer's `error` is falsy exactly when the
   * method exists and succeeded.
   */
  lemma {:induction false} RequestAnsweredToSource(roles: seq<string>, api: Object, ownId: Value, payload: Value,
                                                   message: Value, freshId: string, outcome: Result<Value, Value>)
    requires RequestFields(payload, message).Some?
    ensures var (requestId, source, methodName, parameters) := RequestFields(payload, message).value;
            var h := HandleRequest(roles, api, ownId, payload, message, freshId, outcome);
            && (h.outcome.Throw? <==> ValidateRequest(roles, requestId, source, methodName, parameters).Throw?)
            && (h.outcome.Throw? ==> h.responses == [] && h.invoked == [])
            && (h.outcome.Pass? ==>
                  && |h.responses| <= 1
                  && |h.invoked| == (if IsFunction(Get(api, methodName.s)) then 1 else 0)
                  && (|h.responses| == 0 <==> IsFunction(Get(api, methodName.s)) && outcome.Fail? &&
                                              (outcome.error.Undefined? || outcome.error.Null?))
                  && (|h.responses| == 1 ==>
                        var m := h.responses[0];
                        && m["source"] == ownId && m["destination"] == source
                        && m["type"] == Str(Util.ResponseMessageType)
                        && m["payload"].Obj? && m["payload"].fields["requestId"] == requestId
                        && (Truthy(m["payload"].fields["error"]) <==>
                              !(IsFunction(Get(api, methodName.s)) && outcome.Ok?))))
  {
    var (requestId, source, methodName, parameters) := RequestFields(payload, message).value;
    var h := HandleRequest(roles, api, ownId, payload, message, freshId, outcome);
    if ValidateRequest(roles, requestId, source, methodName, parameters).Pass? {
      var p := ResponsePayload(requestId, api, methodName.s, outcome);
      if p.Some? {
        assert h.responses == [TypedEnvelope(freshId, ownId, Util.ResponseMessageType, source, Obj(p.value))];
      }
    }
  }

  // ---------------------------------------------------------------------
  // Responses and events
  // ---------------------------------------------------------------------

  /** The destructured `{requestId, result, error}` of a response payload, or `None` when the destructuring throws. */
  function ResponseFields(payload: Value): (f: Option<(Value, Value, Value)>)
    ensures f.Some? <==> !(payload.Undefined? || payload.Null?)
  {
    match Prop(payload, "requestId")
    case None => None
    case Some(requestId) => Some((requestId, Prop(payload, "result").value, Prop(payload, "error").value))
  }

  /** The checks `_onResponseMessage` starts with: the request id, then the client role. */
  function ValidateResponse(roles: seq<string>, requestId: Value): (o: Outcome<Value>)
    ensures o.Pass? <==> Util.IsValidId(requestId) && Util.ClientRole in roles
    ensures !Util.IsValidId(requestId) ==> o == Util.ValidateId(requestId)
    ensures Util.IsValidId(requestId) && Util.ClientRole !in roles ==> o == Util.RequireClientRole(roles)
  {
    Util.AndThen(Util.ValidateId(requestId), Util.RequireClientRole(roles))
  }

  /** The `onEvent` argument of an event message, or `None` when the destructuring throws. */
  function EventOf(payload: Value, message: Value): (e: Option<EventRecord>)
    ensures e.Some? <==> Prop(payload, "name").Some? && Prop(message, "source").Some?
    ensures e.Some? ==> e.value.source == Prop(message, "source").value && e.value.name == Prop(payload, "name").value &&
                        e.value.data == Prop(payload, "data").value
  {
    if Prop(payload, "name").None? || Prop(message, "source").None? then None
    else Some(EventRecord(Prop(message, "source").value, Prop(payload, "name").value, Prop(payload, "data").value))
  }

  // ---------------------------------------------------------------------
  // Remote execution and emission
  // ---------------------------------------------------------------------

  /** The parameters of `remoteExec`, `[]` when they are left `undefined`. */
  function ParametersOf(parameters: Value): Value {
    if parameters.Undefined? then Arr([]) else parameters
  }

  /** The checks `remoteExec` starts with, in order: destination, method name, parameters. */
  function ValidateExec(destination: Value, methodName: Value, parameters: Value): (o: Outcome<Value>)
    ensures o.Pass? <==> Util.IsValidId(destination) && methodName.Str? && ParametersOf(parameters).Arr?
    ensures !Util.IsValidId(destination) ==> o == Util.ValidateId(destination)
  {
    Util.AndThen(Util.ValidateId(destination),
      Util.AndThen(Util.ValidateMethodName(methodName), Util.ValidateParameters(ParametersOf(parameters))))
  }

  /**
   * `remoteExec` as written. After validation it calls
   * `this.requestManager.registerRequest`. Without the client role there is
   * no manager, and reading the property throws. With one, the method is
   * missing, and calling it throws. Either way nothing is sent.
   */
  function RemoteExecAsWritten(hasManager: bool, destination: Value, methodName: Value, parameters: Value)
    : (o: Outcome<Value>)
    ensures o.Throw?
    ensures ValidateExec(destination, methodName, parameters).Throw? ==> o == ValidateExec(destination, methodName, parameters)
    ensures ValidateExec(destination, methodName, parameters).Pass? ==>
              o == Throw(TypeError(if hasManager then Nodes.NotAFunctionMessage else ReadOfUndefinedMessage))
  {
    match ValidateExec(destination, methodName, parameters)
    case Throw(e) => Throw(e)
    case Pass => Throw(TypeError(if hasManager then Nodes.NotAFunctionMessage else ReadOfUndefinedMessage))
  }

  /** As written, a well-formed remote execution by a client throws instead of sending. */
  lemma WellFormedExecThrows()
    ensures RemoteExecAsWritten(true, Str("server"), Str("someMethod"), Undefined) == Throw(TypeError(Nodes.NotAFunctionMessage))
  {
  }

  /** The message `remoteExec` sends before enveloping: its id is the request's, and its payload is `{method, parameters}`. */
  function ExecMessage(requestId: string, destination: Value, methodName: Value, parameters: Value): (m: Object)
    ensures m.Keys == {"id", "destination", "type", "payload"}
    ensures m["id"] == Str(requestId) && m["destination"] == destination && m["type"] == Str(Util.RequestMessageType)
    ensures m["payload"] == Obj(map["method" := methodName, "parameters" := ParametersOf(parameters)])
  {
    map["id" := Str(requestId), "destination" := destination, "type" := Str(Util.RequestMessageType),
        "payload" := Obj(map["method" := methodName, "parameters" := ParametersOf(parameters)])]
  }

  /** The envelope of a remote execution keeps the request id, so that the answer's `requestId` finds the request. */
  lemma ExecEnvelopeKeepsRequestId(freshId: string, ownId: Value, requestId: string, destination: Value,
                                   methodName: Value, parameters: Value)
    ensures var e := ObjectEnvelope(freshId, ownId, ExecMessage(requestId, destination, methodName, parameters));
            e.Keys == {"id", "source", "destination", "type", "payload"} &&
            e["id"] == Str(requestId) && e["source"] == ownId && e["destination"] == destination
  {
  }

  /** The checks `remoteEmit` starts with: destination, then event name. */
  function ValidateEmit(destination: Value, name: Value): (o: Outcome<Value>)
    ensures o.Pass? <==> Util.IsValidId(destination) && name.Str?
    ensures !Util.IsValidId(destination) ==> o == Util.ValidateId(destination)
  {
    Util.AndThen(Util.ValidateId(destination), Util.ValidateEventName(name))
  }

  // ---------------------------------------------------------------------
  // Exposing methods
  // ---------------------------------------------------------------------

  /** The arguments of `expose`: `(scope, methods, source)`, `(methods, source)`, or any other number. */
  datatype ExposeArgs =
    | Scoped(scope: Value, methods: Value, source: Value)
    | Unscoped(methods: Value, source: Value)
    | OtherArity

  function ScopeOf(args: ExposeArgs): Value {
    match args
    case Scoped(scope, _, _) => scope
    case Unscoped(_, _) => Bool(false)
    case OtherArity => Undefined
  }

  function MethodsOf(args: ExposeArgs): Value {
    match args
    case Scoped(_, methods, _) => methods
    case Unscoped(methods, _) => methods
    case OtherArity => Undefined
  }

  function SourceOf(args: ExposeArgs): Value {
    match args
    case Scoped(_, _, source) => source
    case Unscoped(_, source) => source
    case OtherArity => Undefined
  }

  /** The name a method is exposed under: `scope/name` for a truthy scope, and `name` otherwise. */
  function ExposedName(scope: Value, name: string): (n: string)
    ensures Truthy(scope) ==> n == ToString(scope) + "/" + name
    ensures !Truthy(scope) ==> n == name
  {
    if Truthy(scope) then ToString(scope) + "/" + name else name
  }

  /** Distinct methods are exposed under distinct names. */
  lemma {:induction false} ExposedNameInjective(scope: Value, a: string, b: string)
    requires ExposedName(scope, a) == ExposedName(scope, b)
    ensures a == b
  {
    if Truthy(scope) {
      var prefix := ToString(scope) + "/";
      assert ExposedName(scope, a) == prefix + a && ExposedName(scope, b) == prefix + b;
      assert a == (prefix + a)[|prefix|..];
      assert b == (prefix + b)[|prefix|..];
    }
  }

  /** A listed name can be exposed: it is a string and names a function of the source. */
  predicate Exposable(source: Value, name: Value) {
    name.Str? && Prop(source, name.s).Some? && IsFunction(Prop(source, name.s).value)
  }

  /**
   * The error a listed name that cannot be exposed throws: the method-name
   * error for a non-string, the TypeError of reading from a missing source,
   * or "<name> must refer to a function".
   */
  function RefusalOf(source: Value, name: Value): Value {
    if !name.Str? then PlainError(Util.InvalidMethodNameMessage)
    else if Prop(source, name.s).None? then TypeError(ReadOfUndefinedMessage)
    else TypeError(name.s + " must refer to a function")
  }

  /** The first listed name that cannot be exposed, or `|names|` when there is none. */
  function FirstRefused(source: Value, names: seq<Value>): (i: nat)
    ensures i <= |names|
    ensures forall j :: 0 <= j < i ==> Exposable(source, names[j])
    ensures i < |names| ==> !Exposable(source, names[i])
    decreases |names|
  {
    if |names| == 0 then 0
    else if !Exposable(source, names[0]) then 0
    else
      var rest := FirstRefused(source, names[1..]);
      assert forall j :: 1 <= j < 1 + rest ==> names[j] == names[1..][j - 1];
      1 + rest
  }

  /** The names the listed methods are exposed under. */
  function ExposedNames(scope: Value, names: seq<Value>): set<string> {
    set i | 0 <= i < |names| && names[i].Str? :: ExposedName(scope, names[i].s)
  }

  /** The `reduce` of `expose`, over the listed names from left to right, starting from `acc`. */
  function ExposeAll(acc: Object, scope: Value, names: seq<Value>, source: Value): (r: Result<Object, Value>)
    ensures r.Ok? <==> forall j :: 0 <= j < |names| ==> Exposable(source, names[j])
    ensures r.Ok? ==> acc.Keys <= r.value.Keys
    decreases |names|
  {
    if |names| == 0 then Ok(acc)
    else if !Exposable(source, names[0]) then Fail(RefusalOf(source, names[0]))
    else
      assert forall j :: 1 <= j < |names| ==> names[j] == names[1..][j - 1];
      ExposeAll(acc[ExposedName(scope, names[0].s) := Prop(source, names[0].s).value], scope, names[1..], source)
  }

  /** The names of a list whose first entry is a string: that entry's name, and the rest's. */
  lemma {:induction false} ExposedNamesCons(scope: Value, names: seq<Value>)
    requires |names| > 0 && names[0].Str?
    ensures ExposedNames(scope, names) == {ExposedName(scope, names[0].s)} + ExposedNames(scope, names[1..])
  {
    var rest := names[1..];
    forall x | x in ExposedNames(scope, names)
      ensures x in {ExposedName(scope, names[0].s)} + ExposedNames(scope, rest)
    {
      var i :| 0 <= i < |names| && names[i].Str? && x == ExposedName(scope, names[i].s);
      if i > 0 {
        assert rest[i - 1] == names[i];
      }
    }
    forall x | x in ExposedNames(scope, rest)
      ensures x in ExposedNames(scope, names)
    {
      var i :| 0 <= i < |rest| && rest[i].Str? && x == ExposedName(scope, rest[i].s);
      assert names[i + 1] == rest[i];
    }
  }

  /** The reduce throws exactly when a listed name cannot be exposed, and then with the error of the first such name. */
  lemma {:induction false} ExposeAllRefuses(acc: Object, scope: Value, names: seq<Value>, source: Value)
    ensures var r := ExposeAll(acc, scope, names, source);
            && (r.Ok? <==> FirstRefused(source, names) == |names|)
            && (r.Fail? ==> r.error == RefusalOf(source, names[FirstRefused(source, names)]))
    decreases |names|
  {
    if |names| > 0 && Exposable(source, names[0]) {
      var rest := names[1..];
      ExposeAllRefuses(acc[ExposedName(scope, names[0].s) := Prop(source, names[0].s).value], scope, rest, source);
      assert FirstRefused(source, names) == 1 + FirstRefused(source, rest);
      assert FirstRefused(source, rest) < |rest| ==> names[FirstRefused(source, names)] == rest[FirstRefused(source, rest)];
    }
  }

  /** A completed reduce has exactly the given entries and the exposed names as its keys. */
  lemma {:induction false} ExposeAllKeys(acc: Object, scope: Value, names: seq<Value>, source: Value)
    requires ExposeAll(acc, scope, names, source).Ok?
    ensures ExposeAll(acc, scope, names, source).value.Keys == acc.Keys + ExposedNames(scope, names)
    decreases |names|
  {
    if |names| > 0 {
      var key := ExposedName(scope, names[0].s);
      ExposeAllKeys(acc[key := Prop(source, names[0].s).value], scope, names[1..], source);
      ExposedNamesCons(scope, names);
    }
  }

  /** A completed reduce keeps every entry that no listed name replaces. */
  lemma {:induction false} ExposeAllKeeps(acc: Object, scope: Value, names: seq<Value>, source: Value, k: string)
    requires ExposeAll(acc, scope, names, source).Ok?
    requires k in acc && k !in ExposedNames(scope, names)
    ensures k in ExposeAll(acc, scope, names, source).value
    ensures ExposeAll(acc, scope, names, source).value[k] == acc[k]
    decreases |names|
  {
    if |names| > 0 {
      var key := ExposedName(scope, names[0].s);
      ExposedNamesCons(scope, names);
      ExposeAllKeeps(acc[key := Prop(source, names[0].s).value], scope, names[1..], source, k);
    }
  }

  /** A completed reduce holds every listed method under its exposed name. */
  lemma {:induction false} ExposeAllAdds(acc: Object, scope: Value, names: seq<Value>, source: Value, i: nat)
    requires ExposeAll(acc, scope, names, source).Ok?
    requires i < |names| && names[i].Str?
    ensures ExposedName(scope, names[i].s) in ExposeAll(acc, scope, names, source).value
    ensures ExposeAll(acc, scope, names, source).value[ExposedName(scope, names[i].s)] == Prop(source, names[i].s).value
    decreases |names|
  {
    var key := ExposedName(scope, names[0].s);
    var acc' := acc[key := Prop(source, names[0].s).value];
    var rest := names[1..];
    if i > 0 {
      assert names[i] == rest[i - 1];
      ExposeAllAdds(acc', scope, rest, source, i - 1);
    } else if key !in ExposedNames(scope, rest) {
      ExposeAllKeeps(acc', scope, rest, source, key);
    } else {
      var j :| 0 <= j < |rest| && rest[j].Str? && key == ExposedName(scope, rest[j].s);
      ExposedNameInjective(scope, names[0].s, rest[j].s);
      ExposeAllAdds(acc', scope, rest, source, j);
    }
  }

  /**
   * The reduce throws exactly when a listed name cannot be exposed, and
   * then with the error of the first such name. Otherwise it adds every
   * listed method under its exposed name and keeps every other entry.
   */
  lemma {:induction false} ExposeAllSpec(acc: Object, scope: Value, names: seq<Value>, source: Value)
    ensures var r := ExposeAll(acc, scope, names, source);
            && (r.Ok? <==> FirstRefused(source, names) == |names|)
            && (r.Fail? ==> r.error == RefusalOf(source, names[FirstRefused(source, names)]))
            && (r.Ok? ==> r.value.Keys == acc.Keys + ExposedNames(scope, names))
            && (r.Ok? ==> forall i :: 0 <= i < |names| && names[i].Str? ==>
                            ExposedName(scope, names[i].s) in r.value &&
                            r.value[ExposedName(scope, names[i].s)] == Prop(source, names[i].s).value)
            && (r.Ok? ==> forall k :: k in acc && k !in ExposedNames(scope, names) ==> k in r.value && r.value[k] == acc[k])
  {
    ExposeAllRefuses(acc, scope, names, source);
    var r := ExposeAll(acc, scope, names, source);
    if r.Ok? {
      ExposeAllKeys(acc, scope, names, source);
      forall i | 0 <= i < |names| && names[i].Str?
        ensures ExposedName(scope, names[i].s) in r.value &&
                r.value[ExposedName(scope, names[i].s)] == Prop(source, names[i].s).value
      {
        ExposeAllAdds(acc, scope, names, source, i);
      }
      forall k | k in acc && k !in ExposedNames(scope, names)
        ensures k in r.value && r.value[k] == acc[k]
      {
        ExposeAllKeeps(acc, scope, names, source, k);
      }
    }
  }

  /**
   * `expose(...args)` on an api: the server role is required first, then a
   * non-empty array of names, then the reduce. The api is only replaced when
   * the reduce completes. A missing api reads as `{}`, since spreading
   * `undefined` adds nothing.
   */
  function ExposeResult(api: Option<Object>, roles: seq<string>, args: ExposeArgs): (r: Result<Object, Value>)
    ensures Util.ServerRole !in roles ==> r == Fail(PlainError(Util.ServerRoleRequiredMessage))
    ensures Util.ServerRole in roles && (!MethodsOf(args).Arr? || |MethodsOf(args).items| == 0) ==>
              r == Fail(PlainError(MethodsMessage))
    ensures Util.ServerRole in roles && MethodsOf(args).Arr? && |MethodsOf(args).items| > 0 ==>
              r == ExposeAll(Requests.OrElse(api, map[]), ScopeOf(args), MethodsOf(args).items, SourceOf(args))
  {
    if Util.RequireServerRole(roles).Throw? then Fail(Util.RequireServerRole(roles).error)
    else if !MethodsOf(args).Arr? || |MethodsOf(args).items| == 0 then Fail(PlainError(MethodsMessage))
    else ExposeAll(Requests.OrElse(api, map[]), ScopeOf(args), MethodsOf(args).items, SourceOf(args))
  }

  /** Exposing `a` and `b` under a scope adds `scope/a` and `scope/b` and keeps the existing methods. */
  lemma ScopedExposeExample(api: Object, f: Value, g: Value)
    requires f.Func? && g.Func? && "ns/a" !in api
    ensures var r := ExposeResult(Some(api), [Util.ServerRole], Scoped(Str("ns"), Arr([Str("a"), Str("b")]),
                                                                       Obj(map["a" := f, "b" := g])));
            r == Ok(api["ns/a" := f]["ns/b" := g])
  {
    var source := Obj(map["a" := f, "b" := g]);
    var names := [Str("a"), Str("b")];
    assert ExposedName(Str("ns"), "a") == "ns/a";
    assert ExposedName(Str("ns"), "b") == "ns/b";
    assert names[1..] == [Str("b")];
    assert names[1..][1..] == [];
  }

  /** A name that refers to no function leaves the api as it was, even when earlier names were fine. */
  lemma FailedExposeThrows(api: Object, f: Value)
    requires f.Func?
    ensures ExposeResult(Some(api), [Util.ServerRole], Unscoped(Arr([Str("a"), Str("b")]), Obj(map["a" := f])))
            == Fail(TypeError("b must refer to a function"))
  {
    var names := [Str("a"), Str("b")];
    var source := Obj(map["a" := f]);
    assert Exposable(source, names[0]);
    assert !Exposable(source, names[1]);
    assert names[1..] == [Str("b")];
    assert ExposeAll(api["a" := f], Bool(false), [Str("b")], source) == Fail(RefusalOf(source, Str("b")));
    assert RefusalOf(source, Str("b")) == TypeError("b" + " must refer to a function");
    assert "b" + " must refer to a function" == "b must refer to a function";
  }

  // ---------------------------------------------------------------------
  // The node
  // ---------------------------------------------------------------------

  class Intercomm {
    const id: Value
    const roles: seq<string>
    const onSendMessage: Value
    const onEvent: Value
    const onUnhandledMessage: Value
    const onCustomMessageType: Value
    /** The request registry, present exactly in the client role. */
    const requestManager: Requests.RequestManager?
    /** The exposed methods by name, present exactly in the server role. */
    var api: Option<Object>
    /** The messages handed to `onSendMessage`, in order. */
    var sent: seq<Object>
    /** The messages passed to `onUnhandledMessage`, in order. */
    var unhandled: seq<Value>
    /** The calls of `onCustomMessageType`, in order. */
    var custom: seq<CustomCall>
    /** The calls of `onEvent`, in order. */
    var events: seq<EventRecord>
    /** The invocations of exposed methods, in order. */
    var invocations: seq<Servers.Invocation>

    function Logs(): CallLog
      reads this
    {
      CallLog(sent, unhandled, custom, events, invocations)
    }

    /** The requests the manager tracks, or none without the client role. */
    function Pending(): map<string, Requests.Request>
      reads this, requestManager
    {
      if requestManager == null then map[] else requestManager.sentRequests
    }

    ghost predicate Valid()
      reads this, requestManager, Pending().Values
    {
      && Util.IsValidId(id)
      && IsFunction(onSendMessage)
      && (requestManager != null <==> Util.ClientRole in roles)
      && (api.Some? <==> Util.ServerRole in roles)
      && (requestManager != null ==> requestManager.Valid())
    }

    constructor (id: Value, roles: seq<string>, onSendMessage: Value, onEvent: Value, onUnhandledMessage: Value,
                 onCustomMessageType: Value, defaultRequestTimeout: nat)
      requires Util.IsValidId(id) && IsFunction(onSendMessage)
      ensures this.id == id && this.roles == roles && this.onSendMessage == onSendMessage
      ensures this.onEvent == onEvent && this.onUnhandledMessage == onUnhandledMessage
      ensures this.onCustomMessageType == onCustomMessageType
      ensures Util.ClientRole in roles ==>
                requestManager != null && fresh(requestManager) &&
                requestManager.timeout == Requests.ManagerTimeout(defaultRequestTimeout) &&
                requestManager.maxRetries == Requests.ManagerRetryAttempts
      ensures api == if Util.ServerRole in roles then Some(map[]) else None
      ensures Pending() == map[] && Logs() == CallLog([], [], [], [], [])
      ensures Valid()
    {
      this.id := id;
      this.roles := roles;
      this.onSendMessage := onSendMessage;
      this.onEvent := onEvent;
      this.onUnhandledMessage := onUnhandledMessage;
      this.onCustomMessageType := onCustomMessageType;
      if Util.ClientRole in roles {
        requestManager := new Requests.RequestManager(Requests.ManagerTimeout(defaultRequestTimeout), None);
      } else {
        requestManager := null;
      }
      api := if Util.ServerRole in roles then Some(map[]) else None;
      sent := [];
      unhandled := [];
      custom := [];
      events := [];
      invocations := [];
    }

    /**
     * `new Intercomm(options)`. The id defaults to a fresh one and the roles
     * to both. The id is validated first, then `onSendMessage` must be a
     * function. A manager is built for the client role and an empty api for
     * the server role.
     */
    static method Create(options: IntercommOptions, freshId: string) returns (r: Result<Intercomm, Value>)
      ensures var id := if options.id.Undefined? then Str(freshId) else options.id;
              && (!Util.IsValidId(id) ==> r == Fail(PlainError(Util.InvalidIdMessage)))
              && (Util.IsValidId(id) && !IsFunction(options.onSendMessage) ==> r == Fail(PlainError(OnSendMessageMessage)))
              && (r.Ok? <==> Util.IsValidId(id) && IsFunction(options.onSendMessage))
              && (r.Ok? ==> fresh(r.value) && r.value.Valid() && r.value.id == id)
      ensures r.Ok? ==> var roles := Requests.OrElse(options.roles, [Util.ClientRole, Util.ServerRole]);
                        && r.value.roles == roles
                        && (r.value.requestManager != null <==> Util.ClientRole in roles)
                        && (r.value.requestManager != null ==>
                              fresh(r.value.requestManager) &&
                              r.value.requestManager.timeout ==
                                Requests.ManagerTimeout(Requests.OrElse(options.defaultRequestTimeout, DefaultRequestTimeout)))
                        && r.value.api == (if Util.ServerRole in roles then Some(map[]) else None)
      ensures r.Ok? ==> && r.value.onEvent == (if options.onEvent.Undefined? then Noop else options.onEvent)
                        && r.value.onUnhandledMessage ==
                             (if options.onUnhandledMessage.Undefined? then WarnUnhandled else options.onUnhandledMessage)
                        && r.value.onCustomMessageType ==
                             (if options.onCustomMessageType.Undefined? then Null else options.onCustomMessageType)
                        && r.value.Pending() == map[] && r.value.Logs() == CallLog([], [], [], [], [])
    {
      var id := if options.id.Undefined? then Str(freshId) else options.id;
      var check := Util.ValidateId(id);
      if check.Throw? {
        return Fail(check.error);
      }
      if !IsFunction(options.onSendMessage) {
        return Fail(PlainError(OnSendMessageMessage));
      }
      var node := new Intercomm(id, Requests.OrElse(options.roles, [Util.ClientRole, Util.ServerRole]), options.onSendMessage,
                                if options.onEvent.Undefined? then Noop else options.onEvent,
                                if options.onUnhandledMessage.Undefined? then WarnUnhandled else options.onUnhandledMessage,
                                if options.onCustomMessageType.Undefined? then Null else options.onCustomMessageType,
                                Requests.OrElse(options.defaultRequestTimeout, DefaultRequestTimeout));
      return Ok(node);
    }

    /** `onUnhandledMessage(message)`. */
    method DeliverUnhandled(message: Value) returns (o: Outcome<Value>)
      modifies this
      ensures o == Nodes.CallOutcome(onUnhandledMessage)
      ensures Logs() == old(Logs()).(unhandled := old(unhandled) + if IsFunction(onUnhandledMessage) then [message] else [])
      ensures api == old(api)
    {
      if IsFunction(onUnhandledMessage) {
        unhandled := unhandled + [message];
      }
      return Nodes.CallOutcome(onUnhandledMessage);
    }

    /** `_onRequestMessage(payload, message)`: see `HandleRequest`. */
    method OnRequest(payload: Value, message: Value, freshId: string, outcome: Result<Value, Value>) returns (o: Outcome<Value>)
      modifies this
      ensures var h := HandleRequest(roles, Requests.OrElse(api, map[]), id, payload, message, freshId, outcome);
              o == h.outcome && Logs() == old(Logs()).(sent := old(sent) + h.responses, invocations := old(invocations) + h.invoked)
      ensures api == old(api)
    {
      var h := HandleRequest(roles, Requests.OrElse(api, map[]), id, payload, message, freshId, outcome);
      sent := sent + h.responses;
      invocations := invocations + h.invoked;
      return h.outcome;
    }

    /**
     * `_onResponseMessage(payload, message)`. It throws when the payload
     * cannot be destructured, the request id is invalid, or the client role
     * is missing. A response for an unknown id goes to `onUnhandledMessage`.
     * Otherwise the pending request takes `Clients.ResponseStep` and is
     * erased. No other request changes.
     */
    method OnResponse(payload: Value, message: Value) returns (o: Outcome<Value>)
      requires Valid()
      modifies this, requestManager, Pending().Values
      ensures Valid() && api == old(api)
      ensures ResponseFields(payload).None? ==>
                o == Throw(TypeError(DestructureMessage)) && Logs() == old(Logs()) && Pending() == old(Pending()) &&
                unchanged(old(Pending()).Values)
      ensures ResponseFields(payload).Some? && ValidateResponse(roles, ResponseFields(payload).value.0).Throw? ==>
                o == ValidateResponse(roles, ResponseFields(payload).value.0) &&
                Logs() == old(Logs()) && Pending() == old(Pending()) && unchanged(old(Pending()).Values)
      ensures ResponseFields(payload).Some? && ValidateResponse(roles, ResponseFields(payload).value.0).Pass? &&
              Requests.Key(ResponseFields(payload).value.0) !in old(Pending()) ==>
                o == Nodes.CallOutcome(onUnhandledMessage) && Pending() == old(Pending()) &&
                unchanged(old(Pending()).Values) &&
                Logs() == old(Logs()).(unhandled := old(unhandled) + if IsFunction(onUnhandledMessage) then [message] else [])
      ensures ResponseFields(payload).Some? && ValidateResponse(roles, ResponseFields(payload).value.0).Pass? &&
              Requests.Key(ResponseFields(payload).value.0) in old(Pending()) ==>
                var (requestId, result, error) := ResponseFields(payload).value;
                var key := Requests.Key(requestId);
                var settled := old(Pending())[key];
                && o.Pass? && Logs() == old(Logs())
                && Pending() == old(Pending()) - {key}
                && settled.settlement == Clients.ResponseSettlement(result, error)
                && settled.State() == Clients.ResponseStep(old(settled.State()), result, error)
                && unchanged(old(Pending()).Values - {settled})
    {
      var fields := ResponseFields(payload);
      if fields.None? {
        return Throw(TypeError(DestructureMessage));
      }
      var (requestId, result, error) := fields.value;
      var check := ValidateResponse(roles, requestId);
      if check.Throw? {
        return check;
      }
      var found := requestManager.GetRequest(requestId);
      if found.None? {
        o := DeliverUnhandled(message);
        return;
      }
      var r := found.value;
      if Truthy(error) {
        requestManager.Reject(r, result);
      } else {
        requestManager.Resolve(r, result);
      }
      return Pass;
    }

    /** `_onEventMessage(payload, message)`: `onEvent({source, name, data})`. */
    method OnEvent(payload: Value, message: Value) returns (o: Outcome<Value>)
      modifies this
      ensures api == old(api)
      ensures EventOf(payload, message).None? ==> o == Throw(TypeError(DestructureMessage)) && Logs() == old(Logs())
      ensures EventOf(payload, message).Some? ==>
                o == Nodes.CallOutcome(onEvent) &&
                Logs() == old(Logs()).(events := old(events) + if IsFunction(onEvent) then [EventOf(payload, message).value] else [])
    {
      var e := EventOf(payload, message);
      if e.None? {
        return Throw(TypeError(DestructureMessage));
      }
      if IsFunction(onEvent) {
        events := events + [e.value];
      }
      return Nodes.CallOutcome(onEvent);
    }

    /** `onCustomMessageType(payload, message)`, which is truthy here. */
    method DeliverCustom(payload: Value, message: Value) returns (o: Outcome<Value>)
      modifies this
      ensures o == Nodes.CallOutcome(onCustomMessageType) && api == old(api)
      ensures Logs() == old(Logs()).(custom := old(custom) + if IsFunction(onCustomMessageType) then [CustomCall(payload, message)] else [])
    {
      if IsFunction(onCustomMessageType) {
        custom := custom + [CustomCall(payload, message)];
      }
      return Nodes.CallOutcome(onCustomMessageType);
    }

    /**
     * `receiveMessage(message)`: the routing of `RouteOf`, then the handler
     * it names. Only a response changes the manager's requests, and it
     * changes only the one it settles.
     */
    method ReceiveMessage(message: Value, freshId: string, outcome: Result<Value, Value>) returns (o: Outcome<Value>)
      requires Valid()
      modifies this, requestManager, Pending().Values
      ensures Valid() && api == old(api)
      ensures !RouteOf(message, id, Truthy(onCustomMessageType)).ToResponse? ==>
                Pending() == old(Pending()) && unchanged(old(Pending()).Values)
      ensures RouteOf(message, id, Truthy(onCustomMessageType)).Refused? ==>
                o == Throw(RouteOf(message, id, Truthy(onCustomMessageType)).error) && Logs() == old(Logs())
      ensures RouteOf(message, id, Truthy(onCustomMessageType)).Unhandled? ==>
                o == Nodes.CallOutcome(onUnhandledMessage) &&
                Logs() == old(Logs()).(unhandled := old(unhandled) + if IsFunction(onUnhandledMessage) then [message] else [])
      ensures RouteOf(message, id, Truthy(onCustomMessageType)).ToRequest? ==>
                var h := HandleRequest(roles, Requests.OrElse(api, map[]), id, PayloadOf(message), message, freshId, outcome);
                o == h.outcome && Logs() == old(Logs()).(sent := old(sent) + h.responses, invocations := old(invocations) + h.invoked)
      ensures RouteOf(message, id, Truthy(onCustomMessageType)).ToEvent? ==>
                var e := EventOf(PayloadOf(message), message);
                if e.None? then o == Throw(TypeError(DestructureMessage)) && Logs() == old(Logs())
                else o == Nodes.CallOutcome(onEvent) &&
                     Logs() == old(Logs()).(events := old(events) + if IsFunction(onEvent) then [e.value] else [])
      ensures RouteOf(message, id, Truthy(onCustomMessageType)).ToCustom? ==>
                o == Nodes.CallOutcome(onCustomMessageType) &&
                Logs() == old(Logs()).(custom := old(custom) + if IsFunction(onCustomMessageType)
                                                               then [CustomCall(PayloadOf(message), message)] else [])
      ensures RouteOf(message, id, Truthy(onCustomMessageType)).ToResponse? ==>
                var payload := PayloadOf(message);
                var fields := ResponseFields(payload);
                && (fields.None? ==>
                      o == Throw(TypeError(DestructureMessage)) && Logs() == old(Logs()) &&
                      Pending() == old(Pending()) && unchanged(old(Pending()).Values))
                && (fields.Some? && ValidateResponse(roles, fields.value.0).Throw? ==>
                      o == ValidateResponse(roles, fields.value.0) && Logs() == old(Logs()) &&
                      Pending() == old(Pending()) && unchanged(old(Pending()).Values))
                && (fields.Some? && ValidateResponse(roles, fields.value.0).Pass? &&
                    Requests.Key(fields.value.0) !in old(Pending()) ==>
                      o == Nodes.CallOutcome(onUnhandledMessage) && Pending() == old(Pending()) &&
                      unchanged(old(Pending()).Values) &&
                      Logs() == old(Logs()).(unhandled := old(unhandled) + if IsFunction(onUnhandledMessage) then [message] else []))
                && (fields.Some? && ValidateResponse(roles, fields.value.0).Pass? &&
                    Requests.Key(fields.value.0) in old(Pending()) ==>
                      var settled := old(Pending())[Requests.Key(fields.value.0)];
                      && o.Pass? && Logs() == old(Logs())
                      && Pending() == old(Pending()) - {Requests.Key(fields.value.0)}
                      && settled.settlement == Clients.ResponseSettlement(fields.value.1, fields.value.2)
                      && settled.State() == Clients.ResponseStep(old(settled.State()), fields.value.1, fields.value.2)
                      && unchanged(old(Pending()).Values - {settled}))
    {
      var route := RouteOf(message, id, Truthy(onCustomMessageType));
      match route
      case Refused(e) => o := Throw(e);
      case Unhandled => o := DeliverUnhandled(message);
      case ToRequest(payload) => o := OnRequest(payload, message, freshId, outcome);
      case ToResponse(payload) => o := OnResponse(payload, message);
      case ToEvent(payload) => o := OnEvent(payload, message);
      case ToCustom(payload) => o := DeliverCustom(payload, message);
    }

    /** `sendMessage` of an envelope: the hand-off to `onSendMessage`, which is a function. */
    method Send(envelope: Object, transport: Outcome<Value>) returns (o: Outcome<Value>)
      modifies this
      ensures o == SendOutcome(transport) && api == old(api)
      ensures Logs() == old(Logs()).(sent := old(sent) + [envelope])
    {
      sent := sent + [envelope];
      return SendOutcome(transport);
    }

    /**
     * `remoteExec(destination, method, parameters)` at time `now`, with the
     * registration done through `createRequest`. Validation comes first, and
     * a rejected call registers and sends nothing. Without the client role
     * there is no manager, and the call throws. Otherwise a request is
     * registered under a fresh id and attempted, and the message with that
     * id is sent to the destination. The result is the outcome of the send;
     * on `Pass`, the caller waits on the returned request's settlement.
     */
    method RemoteExec(destination: Value, methodName: Value, parameters: Value, freshId: string, now: int,
                      transport: Outcome<Value>) returns (o: Outcome<Value>, request: Requests.Request?)
      requires Valid()
      modifies this, requestManager
      ensures Valid() && api == old(api)
      ensures ValidateExec(destination, methodName, parameters).Throw? ==>
                o == ValidateExec(destination, methodName, parameters) && request == null &&
                Logs() == old(Logs()) && Pending() == old(Pending())
      ensures ValidateExec(destination, methodName, parameters).Pass? && requestManager == null ==>
                o == Throw(TypeError(ReadOfUndefinedMessage)) && request == null && Logs() == old(Logs())
      ensures ValidateExec(destination, methodName, parameters).Pass? && requestManager != null ==>
                && request != null && fresh(request)
                && request.id == Str(freshId) && request.owner == requestManager
                && Pending() == old(Pending())[freshId := request]
                && request.timeout == Requests.TimeoutFor(None, requestManager.timeout)
                && request.maxRetries == requestManager.maxRetries && request.backoff == Backoff.DefaultExponential
                && request.State() == Requests.AttemptStep(Requests.NewState(), request.timeout, now)
                && Logs() == old(Logs()).(sent := old(sent) +
                                            [ObjectEnvelope(freshId, id, ExecMessage(freshId, destination, methodName, parameters))])
                && o == SendOutcome(transport)
    {
      var check := ValidateExec(destination, methodName, parameters);
      if check.Throw? {
        return check, null;
      }
      if requestManager == null {
        return Throw(TypeError(ReadOfUndefinedMessage)), null;
      }
      var created := requestManager.CreateRequest(SendRequestFunction, Requests.RequestOptions(Some(Str(freshId)), None, None, None), freshId);
      assert Requests.Key(Str(freshId)) == freshId;
      request := created.value;
      request.Attempt(now);
      o := Send(ObjectEnvelope(freshId, id, ExecMessage(freshId, destination, methodName, parameters)), transport);
    }

    /**
     * `remoteEmit(destination, name, data)`: after validation, an event
     * message `{name, data}` to the destination. The send's own outcome is
     * not returned.
     */
    method RemoteEmit(destination: Value, name: Value, data: Value, freshId: string) returns (o: Outcome<Value>)
      modifies this
      ensures o == ValidateEmit(destination, name) && api == old(api)
      ensures Logs() == old(Logs()).(sent := old(sent) +
                                      if o.Pass? then [TypedEnvelope(freshId, id, Util.EventMessageType, destination,
                                                                     Obj(map["name" := name, "data" := data]))]
                                      else [])
    {
      o := ValidateEmit(destination, name);
      if o.Pass? {
        sent := sent + [TypedEnvelope(freshId, id, Util.EventMessageType, destination, Obj(map["name" := name, "data" := data]))];
      }
    }

    /** `expose(...args)`: the api becomes the result of the reduce, and stays as it was when anything throws. */
    method Expose(args: ExposeArgs) returns (o: Outcome<Value>)
      requires Valid()
      modifies this
      ensures Valid() && Logs() == old(Logs())
      ensures var r := ExposeResult(old(api), roles, args);
              && (r.Fail? ==> o == Throw(r.error) && api == old(api))
              && (r.Ok? ==> o.Pass? && api == Some(r.value))
    {
      var r := ExposeResult(api, roles, args);
      if r.Fail? {
        return Throw(r.error);
      }
      api := Some(r.value);
      return Pass;
    }
  }
}
