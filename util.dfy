/**
 * The validators and role guards of src/util.js. Each either returns
 * (`Pass`) or throws an Error with a fixed message (`Throw`).
 */
module Util {
  import opened Wrappers
  import opened Js

  const InvalidIdMessage := "Invalid id: MUST be either a non-empty string or a valid number"
  const InvalidMethodNameMessage := "Invalid methodName: MUST be a non-empty string"
  const InvalidEventNameMessage := "Invalid eventName: MUST be a non-empty string"
  const InvalidParametersMessage := "Invalid parameters: MUST be an array"

  const RequestMessageType := "request"
  const ResponseMessageType := "response"
  const EventMessageType := "event"

  const ClientRole := "client"
  const ServerRole := "server"
  /** The messages of `requireClientRole` and `requireServerRole`: the role followed by " role required". */
  const ClientRoleRequiredMessage := "client role required"
  const ServerRoleRequiredMessage := "server role required"

  /** `isValidId`: a string other than the empty one, or a number other than NaN. */
  predicate IsValidId(id: Value) {
    match id
    case Str(s) => s != ""
    case Num(_) => true
    case _ => false
  }

  /** `validateId` throws exactly when the id is not valid. */
  function ValidateId(id: Value): (o: Outcome<Value>)
    ensures o.Pass? <==> IsValidId(id)
    ensures o.Throw? ==> o.error == PlainError(InvalidIdMessage)
  {
    if IsValidId(id) then Pass else Throw(PlainError(InvalidIdMessage))
  }

  /** The only values `isValidId` accepts are non-empty strings and non-NaN numbers. */
  lemma ValidIdShapes(id: Value)
    ensures IsValidId(id) <==> (id.Str? && id.s != "") || id.Num?
    ensures !IsValidId(Null) && !IsValidId(Undefined) && !IsValidId(NaN) && !IsValidId(Str(""))
  {
  }

  /**
   * `validateMethodName`. Its guard is `typeof m !== 'string' && m !== ''`,
   * so it throws for every non-string and accepts every string, the empty
   * one included, although its message asks for a non-empty string.
   */
  function ValidateMethodName(methodName: Value): (o: Outcome<Value>)
    ensures o.Pass? <==> methodName.Str?
    ensures o.Throw? ==> o.error == PlainError(InvalidMethodNameMessage)
  {
    if !IsString(methodName) && methodName != Str("") then Throw(PlainError(InvalidMethodNameMessage)) else Pass
  }

  /** `validateEventName`: the same rule as `validateMethodName`, with its own message. */
  function ValidateEventName(eventName: Value): (o: Outcome<Value>)
    ensures o.Pass? <==> eventName.Str?
    ensures o.Throw? ==> o.error == PlainError(InvalidEventNameMessage)
  {
    if !IsString(eventName) && eventName != Str("") then Throw(PlainError(InvalidEventNameMessage)) else Pass
  }

  /** Method names and event names are accepted and refused alike. */
  lemma MethodAndEventNamesAgree(v: Value)
    ensures ValidateMethodName(v).Pass? <==> ValidateEventName(v).Pass?
  {
  }

  /** `validateParameters` throws exactly when the value is not an array. */
  function ValidateParameters(parameters: Value): (o: Outcome<Value>)
    ensures o.Pass? <==> parameters.Arr?
    ensures o.Throw? ==> o.error == PlainError(InvalidParametersMessage)
  {
    if !IsArray(parameters) then Throw(PlainError(InvalidParametersMessage)) else Pass
  }

  /** `requireClientRole`: throws "client role required" exactly when `roles` lacks "client". */
  function RequireClientRole(roles: seq<string>): (o: Outcome<Value>)
    ensures o.Pass? <==> ClientRole in roles
    ensures o.Throw? ==> o.error == PlainError(ClientRoleRequiredMessage)
  {
    if ClientRole !in roles then Throw(PlainError(ClientRoleRequiredMessage)) else Pass
  }

  /** `requireServerRole`: throws "server role required" exactly when `roles` lacks "server". */
  function RequireServerRole(roles: seq<string>): (o: Outcome<Value>)
    ensures o.Pass? <==> ServerRole in roles
    ensures o.Throw? ==> o.error == PlainError(ServerRoleRequiredMessage)
  {
    if ServerRole !in roles then Throw(PlainError(ServerRoleRequiredMessage)) else Pass
  }

  /** Runs validations in order and stops at the first one that throws. */
  function AndThen(first: Outcome<Value>, second: Outcome<Value>): (o: Outcome<Value>)
    ensures o.Pass? <==> first.Pass? && second.Pass?
    ensures first.Throw? ==> o == first
  {
    if first.Throw? then first else second
  }
}
