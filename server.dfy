/**
 * The Server node of src/server.js. It listens under `messageTypes.request`
 * and answers every well-formed request with one message labelled
 * `messageTypes.response`, addressed to the request's source. The answer
 * carries the request's id as `requestId`, and either the method's result
 * with `error: false`, or the failure with a truthy `error` label.
 *
 * The outcome of the exposed method is a parameter: `Ok(result)` when it
 * returns `result` or its promise resolves with it, `Fail(e)` when it throws
 * `e` or its promise rejects with `e`. The answer is modelled as sent within
 * the call. In the source it is sent from a promise callback after the call
 * returns.
 */
module Servers {
  import opened Wrappers
  import opened Js
  import Util
  import Nodes
  import Constants

  const MethodNotDefinedError := "METHOD_NOT_DEFINED_ERROR"

  /** The message of the TypeError a destructuring pattern throws on `null` or `undefined`; its wording is the engine's. */
  const DestructureMessage := "Cannot destructure 'undefined'"

  /** The wrapper around the caller's `onSendMessage` that the server hands to its node. */
  const SendWrapper := Func(3)
  /** The wrapper around the caller's `onAttachMessageListener` that the server hands to its node. */
  const AttachWrapper := Func(4)

  /** The options of `new Server(options)`. `Undefined` and `None` stand for an option that is left out. */
  datatype ServerOptions = ServerOptions(
    id: Value,
    onSendMessage: Value,
    onUnhandledMessage: Value,
    onAttachMessageListener: Value,
    methods: Option<Object>,
    messageTypes: Option<Constants.MessageTypes>)

  /** One invocation of an exposed method, with the parameters of the request. */
  datatype Invocation = Invocation(methodName: string, parameters: seq<Value>)

  /** The options the server hands to its node. */
  function NodeOptionsOf(options: ServerOptions): Nodes.NodeOptions {
    Nodes.NodeOptions(options.id, SendWrapper, options.onUnhandledMessage,
                      if Truthy(options.onAttachMessageListener) then AttachWrapper else Undefined)
  }

  /**
   * The destructured `{id: requestId, source, payload: {method, parameters}}`
   * of a request message, or `None` when the destructuring throws: on a
   * `null` or `undefined` message or payload.
   */
  function RequestFields(message: Value): (f: Option<(Value, Value, Value, Value)>)
    ensures f.Some? <==> Prop(message, "payload").Some? && Prop(Prop(message, "payload").value, "method").Some?
    ensures f.Some? ==> f.value.0 == Prop(message, "id").value && f.value.1 == Prop(message, "source").value
  {
    match Prop(message, "payload")
    case None => None
    case Some(payload) =>
      if payload.Undefined? || payload.Null? then None
      else Some((Prop(message, "id").value, Prop(message, "source").value,
                 Prop(payload, "method").value, Prop(payload, "parameters").value))
  }

  /**
   * The four validations `receiveMessage` starts with, in order: the
   * request id, the source, the method name and the parameters.
   */
  function ValidateRequest(requestId: Value, source: Value, methodName: Value, parameters: Value): (o: Outcome<Value>)
    ensures o.Pass? <==> Util.IsValidId(requestId) && Util.IsValidId(source) && methodName.Str? && parameters.Arr?
    ensures !Util.IsValidId(requestId) ==> o == Util.ValidateId(requestId)
    ensures Util.IsValidId(requestId) && !Util.IsValidId(source) ==> o == Util.ValidateId(source)
  {
    Util.AndThen(Util.ValidateId(requestId),
      Util.AndThen(Util.ValidateId(source),
        Util.AndThen(Util.ValidateMethodName(methodName), Util.ValidateParameters(parameters))))
  }

  /**
   * The `error` label of a failure: the error's truthy `name`, or "Error".
   * Reading `name` of `null` or `undefined` throws inside the rejection
   * handler, and then no answer is sent at all: `None`.
   */
  function FailureLabel(error: Value): (l: Option<Value>)
    ensures l.None? <==> error.Undefined? || error.Null?
    ensures l.Some? ==> Truthy(l.value)
    ensures l.Some? && Truthy(Prop(error, "name").value) ==> l.value == Prop(error, "name").value
  {
    match Prop(error, "name")
    case None => None
    case Some(name) => Some(if Truthy(name) then name else Str("Error"))
  }

  /** The `payload` of a response. */
  function Payload(requestId: Value, result: Value, error: Value): (p: Object)
    ensures p.Keys == {"requestId", "result", "error"}
    ensures p["requestId"] == requestId && p["result"] == result && p["error"] == error
  {
    map["requestId" := requestId, "result" := result, "error" := error]
  }

  /**
   * The `result` of the answer to a request for a method that is not exposed.
   * The Server's own wording: the name METHOD_NOT_DEFINED_ERROR and the
   * method quoted. src/intercomm.js words its error differently, so
   * `Intercomms.MethodNotDefined` is a separate builder.
   */
  function MethodNotDefined(methodName: string): (e: Value)
    ensures e.Obj? && e.fields.Keys == {"name", "message"}
    ensures e.fields["name"] == Str(MethodNotDefinedError)
    ensures e.fields["message"] == Str("Method '" + methodName + "' is not defined")
  {
    Obj(map["name" := Str(MethodNotDefinedError), "message" := Str("Method '" + methodName + "' is not defined")])
  }

  /**
   * The payload of the answer to a request for `methodName`, or `None` when
   * no answer is sent. `outcome` is what the exposed method did, and is
   * read only when the method exists.
   */
  function ResponsePayload(requestId: Value, methods: Object, methodName: string, outcome: Result<Value, Value>)
    : (p: Option<Object>)
    ensures !IsFunction(Get(methods, methodName)) ==>
              p == Some(Payload(requestId, MethodNotDefined(methodName), Str(MethodNotDefinedError)))
    ensures IsFunction(Get(methods, methodName)) && outcome.Ok? ==>
              p == Some(Payload(requestId, outcome.value, Bool(false)))
    ensures IsFunction(Get(methods, methodName)) && outcome.Fail? ==>
              (p.Some? <==> FailureLabel(outcome.error).Some?) &&
              (p.Some? ==> p.value == Payload(requestId, outcome.error, FailureLabel(outcome.error).value))
  {
    if !IsFunction(Get(methods, methodName)) then
      Some(Payload(requestId, MethodNotDefined(methodName), Str(MethodNotDefinedError)))
    else
      match outcome
      case Ok(result) => Some(Payload(requestId, result, Bool(false)))
      case Fail(error) =>
        match FailureLabel(error)
        case None => None
        case Some(errorName) => Some(Payload(requestId, error, errorName))
  }

  /**
   * Every answer names the request it answers, and its `error` is falsy
   * exactly when the method exists and succeeded. A failure is answered
   * unless the method failed with `null` or `undefined`.
   */
  lemma AnswerReportsFailure(requestId: Value, methods: Object, methodName: string, outcome: Result<Value, Value>)
    ensures var p := ResponsePayload(requestId, methods, methodName, outcome);
            (p.None? <==> IsFunction(Get(methods, methodName)) && outcome.Fail? &&
                          (outcome.error.Undefined? || outcome.error.Null?)) &&
            (p.Some? ==> p.value["requestId"] == requestId &&
                         (Truthy(p.value["error"]) <==> !(IsFunction(Get(methods, methodName)) && outcome.Ok?)))
  {
  }

  /** The response message: a fresh id, the response type, and the payload. */
  function ResponseMessage(freshId: string, types: Constants.MessageTypes, payload: Object): (m: Object)
    ensures m.Keys == {"id", "type", "payload"}
    ensures m["id"] == Str(freshId) && m["type"] == Str(types.response) && m["payload"] == Obj(payload)
  {
    map["id" := Str(freshId), "type" := Str(types.response), "payload" := Obj(payload)]
  }

  /** `{...current, ...given}`: the given methods are added, and replace current ones of the same name. */
  function Merge(current: Object, given: Object): (r: Object)
    ensures r.Keys == current.Keys + given.Keys
    ensures forall k :: k in given ==> r[k] == given[k]
    ensures forall k :: k in current && k !in given ==> r[k] == current[k]
  {
    current + given
  }

  /** Exposing twice is exposing once with the later methods winning, and exposing nothing changes nothing. */
  lemma {:induction false} MergeComposes(current: Object, a: Object, b: Object)
    ensures Merge(Merge(current, a), b) == Merge(current, Merge(a, b))
    ensures Merge(current, map[]) == current
  {
    var l := Merge(Merge(current, a), b);
    var r := Merge(current, Merge(a, b));
    assert l.Keys == r.Keys;
    forall k | k in l
      ensures l[k] == r[k]
    {
      if k in b {
        assert l[k] == b[k] == r[k];
      } else if k in a {
        assert l[k] == a[k] == r[k];
      } else {
        assert l[k] == current[k] == r[k];
      }
    }
    assert Merge(current, map[]) == current;
  }

  class Server {
    const node: Nodes.Node
    const messageTypes: Constants.MessageTypes
    /** The caller's two-argument `onSendMessage(type, message)`. */
    const onSendMessage: Value
    /** The message types the caller's attach callback was invoked with, once each. */
    const attachedUnder: seq<string>
    /** The exposed methods, by name. */
    var methods: Object
    /** The calls of the caller's `onSendMessage`, in order. */
    var sent: seq<Nodes.Outgoing>
    /** The invocations of exposed methods, in order. */
    var invocations: seq<Invocation>

    constructor (node: Nodes.Node, messageTypes: Constants.MessageTypes, onSendMessage: Value,
                 attachedUnder: seq<string>, methods: Object)
      ensures this.node == node && this.messageTypes == messageTypes && this.onSendMessage == onSendMessage
      ensures this.attachedUnder == attachedUnder && this.methods == methods
      ensures sent == [] && invocations == []
    {
      this.node := node;
      this.messageTypes := messageTypes;
      this.onSendMessage := onSendMessage;
      this.attachedUnder := attachedUnder;
      this.methods := methods;
      sent := [];
      invocations := [];
    }

    /**
     * `new Server(options)`. As for the Client, the node gets a send wrapper,
     * and the caller's attach callback, when truthy, is invoked once, here
     * under `messageTypes.request`. The construction fails exactly when the
     * id is invalid, or when the attach callback is truthy and not a
     * function. The methods default to none.
     */
    static method Create(options: ServerOptions, freshId: string) returns (r: Result<Server, Value>)
      ensures r.Fail? <==> !Util.IsValidId(Nodes.NodeId(NodeOptionsOf(options), freshId)) ||
                           (Truthy(options.onAttachMessageListener) && !IsFunction(options.onAttachMessageListener))
      ensures r.Ok? ==> fresh(r.value)
      ensures r.Ok? ==> r.value.node.id == Nodes.NodeId(NodeOptionsOf(options), freshId)
      ensures r.Ok? ==> r.value.messageTypes == (if options.messageTypes.Some? then options.messageTypes.value
                                                 else Constants.MESSAGE_TYPES)
      ensures r.Ok? ==> r.value.attachedUnder ==
                        if Truthy(options.onAttachMessageListener) then [r.value.messageTypes.request] else []
      ensures r.Ok? ==> r.value.methods == (if options.methods.Some? then options.methods.value else map[])
      ensures r.Ok? ==> r.value.sent == [] && r.value.invocations == []
    {
      var types := if options.messageTypes.Some? then options.messageTypes.value else Constants.MESSAGE_TYPES;
      var built := Nodes.NewNode(NodeOptionsOf(options), freshId);
      if built.Fail? {
        return Fail(built.error);
      }
      if Truthy(options.onAttachMessageListener) && !IsFunction(options.onAttachMessageListener) {
        return Fail(TypeError(Nodes.NotAFunctionMessage));
      }
      var under := if Truthy(options.onAttachMessageListener) then [types.request] else [];
      var s := new Server(built.value.node, types, options.onSendMessage, under,
                          if options.methods.Some? then options.methods.value else map[]);
      return Ok(s);
    }

    /**
     * `receiveMessage(message)`. It throws when the message cannot be
     * destructured or fails validation, and then neither invokes nor sends
     * anything. Otherwise it invokes the named method, if it is exposed, with
     * the request's parameters. It answers with the `ResponsePayload`,
     * addressed to the request's source, when the caller's `onSendMessage`
     * is a function. `outcome` is what the method did.
     */
    method ReceiveMessage(message: Value, freshId: string, outcome: Result<Value, Value>) returns (o: Outcome<Value>)
      modifies this
      ensures methods == old(methods)
      ensures RequestFields(message).None? ==>
                o == Throw(TypeError(DestructureMessage)) && sent == old(sent) && invocations == old(invocations)
      ensures RequestFields(message).Some? && ValidateRequest(RequestFields(message).value.0, RequestFields(message).value.1,
                                                              RequestFields(message).value.2, RequestFields(message).value.3).Throw? ==>
                o == ValidateRequest(RequestFields(message).value.0, RequestFields(message).value.1,
                                     RequestFields(message).value.2, RequestFields(message).value.3) &&
                sent == old(sent) && invocations == old(invocations)
      ensures RequestFields(message).Some? && ValidateRequest(RequestFields(message).value.0, RequestFields(message).value.1,
                                                              RequestFields(message).value.2, RequestFields(message).value.3).Pass? ==>
                var (requestId, source, methodName, parameters) := RequestFields(message).value;
                var p := ResponsePayload(requestId, methods, methodName.s, outcome);
                && o.Pass?
                && invocations == old(invocations) +
                                  (if IsFunction(Get(methods, methodName.s)) then [Invocation(methodName.s, parameters.items)] else [])
                && sent == old(sent) +
                           (if p.Some? && IsFunction(onSendMessage)
                            then [Nodes.Outgoing(messageTypes.response,
                                                 Nodes.Envelope(node, ResponseMessage(freshId, messageTypes, p.value), source))]
                            else [])
    {
      var fields := RequestFields(message);
      if fields.None? {
        return Throw(TypeError(DestructureMessage));
      }
      var (requestId, source, methodName, parameters) := fields.value;
      var check := ValidateRequest(requestId, source, methodName, parameters);
      if check.Throw? {
        return check;
      }
      if IsFunction(Get(methods, methodName.s)) {
        invocations := invocations + [Invocation(methodName.s, parameters.items)];
      }
      var p := ResponsePayload(requestId, methods, methodName.s, outcome);
      if p.Some? && IsFunction(onSendMessage) {
        sent := sent + [Nodes.Outgoing(messageTypes.response,
                                       Nodes.Envelope(node, ResponseMessage(freshId, messageTypes, p.value), source))];
      }
      return Pass;
    }

    /** `expose(methods)`: the given methods join the exposed ones, replacing those of the same name. */
    method Expose(given: Object)
      modifies this
      ensures methods == Merge(old(methods), given)
      ensures sent == old(sent) && invocations == old(invocations)
    {
      methods := methods + given;
    }
  }
}
