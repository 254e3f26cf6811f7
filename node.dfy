/**
 * The base node of src/node.js, which the Client and the Server build on.
 * A node validates its id and its transport callback at construction, and
 * registers its `receiveMessage` through the attach callback. It stamps
 * every outgoing message with its own id as `source` and with the given
 * `destination`. It hides every transport failure behind one
 * SendMessageError.
 *
 * The transport is a parameter. It is the outcome of calling
 * `onSendMessage` with the envelope: `Pass` when the call returns or its
 * promise resolves, `Throw(e)` when it throws `e` or its promise rejects
 * with `e`.
 */
module Nodes {
  import opened Wrappers
  import opened Js
  import Util

  /** `new SendMessageError()` of src/errors.js: name and message are both SEND_MESSAGE_ERROR. */
  const SendMessageError := Tagged("SEND_MESSAGE_ERROR")

  const OnSendMessageMessage := "onSendMessage MUST be a function"

  /** The message of the TypeError thrown by calling a value that is not a function; its wording is the engine's. */
  const NotAFunctionMessage := "is not a function"

  /** The default `onUnhandledMessage`, `logUnhandledMessage`, which logs a warning. */
  const LogUnhandledMessage := Func(8)

  /** The options of `new Node(options)`. `Undefined` stands for an option that is left out. */
  datatype NodeOptions = NodeOptions(
    id: Value,
    onSendMessage: Value,
    onUnhandledMessage: Value,
    onAttachMessageListener: Value)

  /** What a node keeps. The bound `receiveMessage` it hands to the attach callback is identified by the node's id. */
  datatype Node = Node(id: Value, onSendMessage: Value, onUnhandledMessage: Value)

  /**
   * A constructed node, with the listeners handed to the attach callback:
   * one call, with the node's `receiveMessage`. The default attach callback
   * (`noop`) takes no action, which leaves the list empty.
   */
  datatype Built = Built(node: Node, attached: seq<Value>)

  /**
   * A call of the two-argument `onSendMessage(type, message)` that a Client
   * or a Server is given. Their node's one-argument callback adds the type.
   */
  datatype Outgoing = Outgoing(messageType: string, message: Object)

  /** The id the node uses: the given one, or a fresh one when it is left out. */
  function NodeId(options: NodeOptions, freshId: string): Value {
    if options.id.Undefined? then Str(freshId) else options.id
  }

  /** The `onUnhandledMessage` the node keeps: the given one, or `logUnhandledMessage` when it is left out. */
  function OnUnhandled(options: NodeOptions): Value {
    if options.onUnhandledMessage.Undefined? then LogUnhandledMessage else options.onUnhandledMessage
  }

  /** The outcome of calling a callback: a value that is not a function throws a TypeError. */
  function CallOutcome(callback: Value): (o: Outcome<Value>)
    ensures o.Pass? <==> IsFunction(callback)
    ensures o.Throw? ==> o.error == TypeError(NotAFunctionMessage)
  {
    if IsFunction(callback) then Pass else Throw(TypeError(NotAFunctionMessage))
  }

  /**
   * `new Node(options)`. It throws the id validation error for an invalid
   * id. It throws a TypeError when `onSendMessage` is not a function, and
   * another when the attach callback is neither left out nor a function.
   * Otherwise it invokes the attach callback once, with the node's
   * `receiveMessage`.
   */
  function NewNode(options: NodeOptions, freshId: string): (r: Result<Built, Value>)
    ensures !Util.IsValidId(NodeId(options, freshId)) ==> r == Fail(PlainError(Util.InvalidIdMessage))
    ensures Util.IsValidId(NodeId(options, freshId)) && !IsFunction(options.onSendMessage) ==>
              r == Fail(TypeError(OnSendMessageMessage))
    ensures r.Ok? <==> Util.IsValidId(NodeId(options, freshId)) && IsFunction(options.onSendMessage) &&
                       (options.onAttachMessageListener.Undefined? || IsFunction(options.onAttachMessageListener))
    ensures r.Ok? ==> r.value.node.id == NodeId(options, freshId) && r.value.node.id != Undefined
    ensures r.Ok? ==> r.value.node.onSendMessage == options.onSendMessage
    ensures r.Ok? ==> r.value.node.onUnhandledMessage == OnUnhandled(options)
    ensures r.Ok? && options.onUnhandledMessage.Undefined? ==> IsFunction(r.value.node.onUnhandledMessage)
    ensures r.Ok? && IsFunction(options.onAttachMessageListener) ==> r.value.attached == [r.value.node.id]
    ensures r.Ok? && options.onAttachMessageListener.Undefined? ==> r.value.attached == []
  {
    var id := NodeId(options, freshId);
    match Util.ValidateId(id)
    case Throw(e) => Fail(e)
    case Pass =>
      if !IsFunction(options.onSendMessage) then Fail(TypeError(OnSendMessageMessage))
      else if options.onAttachMessageListener.Undefined? then
        Ok(Built(Node(id, options.onSendMessage, OnUnhandled(options)), []))
      else if !IsFunction(options.onAttachMessageListener) then Fail(TypeError(NotAFunctionMessage))
      else Ok(Built(Node(id, options.onSendMessage, OnUnhandled(options)), [id]))
  }

  /**
   * The envelope `sendMessage(message, destination)` hands to the
   * transport: the message's properties, with `source` set to the node's
   * id and `destination` to the argument. Both overwrite the message's own.
   */
  function Envelope(node: Node, message: Object, destination: Value): (e: Object)
    ensures e.Keys == message.Keys + {"source", "destination"}
    ensures e["source"] == node.id && e["destination"] == destination
    ensures forall k :: k in message && k != "source" && k != "destination" ==> e[k] == message[k]
  {
    message["source" := node.id]["destination" := destination]
  }

  /**
   * The outcome of `sendMessage`. A successful hand-off completes with no
   * value. Any failure becomes a new SendMessageError, which keeps nothing
   * of the transport's error.
   */
  function SendOutcome(transport: Outcome<Value>): (o: Outcome<Value>)
    ensures o.Pass? <==> transport.Pass?
    ensures o.Throw? ==> o.error == SendMessageError
  {
    if transport.Pass? then Pass else Throw(SendMessageError)
  }

  /** Two transport failures are indistinguishable to the caller of `sendMessage`. */
  lemma SendErrorsAreMasked(e1: Value, e2: Value)
    ensures SendOutcome(Throw(e1)) == SendOutcome(Throw(e2))
    ensures SendOutcome(Throw(e1)).error.name == "SEND_MESSAGE_ERROR"
    ensures SendOutcome(Throw(e1)).error.message == "SEND_MESSAGE_ERROR"
  {
  }

  /** Stamping a message twice is stamping it once with the last node and destination. */
  lemma EnvelopeRestamps(n1: Node, n2: Node, message: Object, d1: Value, d2: Value)
    ensures Envelope(n2, Envelope(n1, message, d1), d2) == Envelope(n2, message, d2)
  {
  }
}
