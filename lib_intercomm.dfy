/**
 * The older node of lib/intercomm.js. Its `type` is 'client', 'server' or
 * 'both'. A client node owns a LibRequestManager and a server node an
 * `api`. Messages use the fields `from`, `to`, `type`, `id`, `requestId`,
 * `error` and `data`. The message factory it builds them with (json-message)
 * is not part of this model: only the fields the node itself reads and sets
 * are.
 *
 * The transport, the parse of a string message and the clock are
 * parameters, as elsewhere in this model.
 */
module LibIntercomm {
  import opened Wrappers
  import opened Js
  import Strings
  import Requests
  import LibRequests
  import Nodes

  const DefaultRequestTimeout: nat := 10000

  const ServerOnlyMessage := "server intercomm cannot execute any remote methods"
  const ClientOnlyMessage := "client Intercomm instance is not capable of exposing api"
  const IncorrectDestinationMessage := "received message not destinated to this node"
  const RequestTimeoutMessage := "Request timeout"

  /** The message of the TypeError thrown by reading a property of `null` or `undefined`; its wording is the engine's. */
  const ReadOfUndefinedMessage := "Cannot read properties of undefined"

  /** `new RequestTimeout(method, 'Request timeout')` of lib/errors.js. */
  const RequestTimeout := Err("RequestTimeout", RequestTimeoutMessage)

  /** `new IncorrectDestination(to, ...)` of lib/errors.js. */
  const IncorrectDestination := Err("IncorrectDestination", IncorrectDestinationMessage)

  /** A message's text as an error message: a string message as it is, and any other as the empty string. */
  function MessageText(error: Value): string
    requires !(error.Undefined? || error.Null?)
  {
    var m := Prop(error, "message").value;
    if m.Str? then m.s else ""
  }

  /**
   * `new SendMessageError(sourceError)` of lib/errors.js. Unlike the error
   * of src/node.js, it keeps the source error's message. Reading the
   * message of `null` or `undefined` throws a TypeError instead.
   */
  function SendMessageError(sourceError: Value): (e: Value)
    ensures (sourceError.Undefined? || sourceError.Null?) ==> e == TypeError(ReadOfUndefinedMessage)
    ensures !(sourceError.Undefined? || sourceError.Null?) ==>
              e == Err("SendMessageError", MessageText(sourceError))
  {
    if sourceError.Undefined? || sourceError.Null? then TypeError(ReadOfUndefinedMessage)
    else Err("SendMessageError", MessageText(sourceError))
  }

  /** The options of `new Intercomm(options)`. `None` stands for a `requestTimeout` that is left out. */
  datatype LibOptions = LibOptions(
    apiVersion: Value,
    id: Value,
    nodeType: Value,
    sendMessage: Value,
    requestTimeout: Option<nat>)

  /** `options.requestTimeout || DEFAULT_REQUEST_TIMEOUT`: a timeout of 0 is falsy and gives the default too. */
  function RequestTimeoutOf(requestTimeout: Option<nat>): (t: nat)
    ensures requestTimeout.Some? && requestTimeout.value > 0 ==> t == requestTimeout.value
    ensures requestTimeout.None? || requestTimeout.value == 0 ==> t == DefaultRequestTimeout
  {
    if requestTimeout.Some? && requestTimeout.value > 0 then requestTimeout.value else DefaultRequestTimeout
  }

  /** The required options, checked in order. Each must be truthy. */
  function CheckOptions(options: LibOptions): (o: Outcome<Value>)
    ensures o.Pass? <==> Truthy(options.apiVersion) && Truthy(options.id) && Truthy(options.nodeType) &&
                         Truthy(options.sendMessage)
    ensures !Truthy(options.apiVersion) ==> o == Throw(PlainError("apiVersion is required"))
    ensures Truthy(options.apiVersion) && !Truthy(options.id) ==> o == Throw(PlainError("id is required"))
    ensures Truthy(options.apiVersion) && Truthy(options.id) && !Truthy(options.nodeType) ==>
              o == Throw(PlainError("type is required"))
    ensures Truthy(options.apiVersion) && Truthy(options.id) && Truthy(options.nodeType) && !Truthy(options.sendMessage) ==>
              o == Throw(PlainError("sendMessage method must be implemented"))
  {
    if !Truthy(options.apiVersion) then Throw(PlainError("apiVersion is required"))
    else if !Truthy(options.id) then Throw(PlainError("id is required"))
    else if !Truthy(options.nodeType) then Throw(PlainError("type is required"))
    else if !Truthy(options.sendMessage) then Throw(PlainError("sendMessage method must be implemented"))
    else Pass
  }

  predicate IsServerType(nodeType: Value) { nodeType == Str("server") || nodeType == Str("both") }

  predicate IsClientType(nodeType: Value) { nodeType == Str("client") || nodeType == Str("both") }

  // ---------------------------------------------------------------------
  // exec
  // ---------------------------------------------------------------------

  /** The guards `exec` starts with, in order: the node type, then `at`, then `method`. */
  function CheckExec(nodeType: Value, at: Value, methodName: Value): (o: Outcome<Value>)
    ensures o.Pass? <==> nodeType != Str("server") && Truthy(at) && Truthy(methodName)
    ensures nodeType == Str("server") ==> o == Throw(PlainError(ServerOnlyMessage))
    ensures nodeType != Str("server") && !Truthy(at) ==> o == Throw(PlainError("at is required"))
    ensures nodeType != Str("server") && Truthy(at) && !Truthy(methodName) ==> o == Throw(PlainError("method is required"))
  {
    if nodeType == Str("server") then Throw(PlainError(ServerOnlyMessage))
    else if !Truthy(at) then Throw(PlainError("at is required"))
    else if !Truthy(methodName) then Throw(PlainError("method is required"))
    else Pass
  }

  /**
   * The request message of `exec`: a fresh id, the method and parameters,
   * with `from` set to this node and `to` to `at`. In the source the message
   * comes from json-message's `rpcRequest`, which is not part of this model,
   * so the `type`, `id`, `method` and `params` keys are this model's own
   * choice; only `from` and `to` are set by lib/intercomm.js itself.
   */
  function RequestData(freshId: string, ownId: Value, at: Value, methodName: Value, parameters: Value): (m: Object)
    ensures m.Keys == {"type", "id", "method", "params", "from", "to"}
    ensures m["type"] == Str("rpc-request") && m["id"] == Str(freshId)
    ensures m["method"] == methodName && m["params"] == parameters && m["from"] == ownId && m["to"] == at
  {
    map["type" := Str("rpc-request"), "id" := Str(freshId), "method" := methodName, "params" := parameters,
        "from" := ownId, "to" := at]
  }

  /** What `exec` gives its caller: a synchronous throw, a rejected promise, or the promise of a pending request. */
  datatype ExecResult = Threw(error: Value) | Rejected(error: Value) | Awaiting

  /**
   * The settlement the caller of `exec` sees for a request's settlement. A
   * RequestTimeoutError becomes RequestTimeout, and anything else passes
   * through.
   */
  function ExecSettlement(s: Requests.Settlement): (r: Requests.Settlement)
    ensures s == Requests.Rejected(LibRequests.RequestTimeoutError) ==> r == Requests.Rejected(RequestTimeout)
    ensures s != Requests.Rejected(LibRequests.RequestTimeoutError) ==> r == s
  {
    if s == Requests.Rejected(LibRequests.RequestTimeoutError) then Requests.Rejected(RequestTimeout) else s
  }

  /** An `exec` whose request nobody answers before its deadline is rejected with RequestTimeout. */
  lemma UnansweredExecTimesOut(requestTimeout: nat, sentAt: int, at: int)
    requires at >= sentAt + requestTimeout
    ensures var s := LibRequests.Next(LibRequests.NewState(requestTimeout, sentAt), LibRequests.Expires(at));
            s.Some? && ExecSettlement(s.value.settlement) == Requests.Rejected(RequestTimeout)
  {
    LibRequests.TimesOut(requestTimeout, sentAt, at);
  }

  // ---------------------------------------------------------------------
  // handleMessage
  // ---------------------------------------------------------------------

  /** Where `handleMessage` sends a message. */
  datatype LibRoute =
    | Ignored
    | Failed(error: Value)
    | WrongDestination
    | ToRequest(message: Value)
    | ToResponse(message: Value)
    | ToEvent(message: Value)

  /** The object `handleMessage` works on: a string message is parsed, and `parsed` is the parse's outcome. */
  function Incoming(message: Value, parsed: Result<Value, Value>): Result<Value, Value> {
    if message.Str? then parsed else Ok(message)
  }

  /**
   * The message is for this node exactly when its `to` is falsy or equals
   * the node's id.
   */
  predicate ForThisNode(m: Value, ownId: Value)
    requires !(m.Undefined? || m.Null?)
  {
    !Truthy(Prop(m, "to").value) || Prop(m, "to").value == ownId
  }

  /**
   * The routing decision of `handleMessage`. A falsy message is ignored.
   * A string is parsed first. A message for another node is rejected with
   * IncorrectDestination. A request reaches a node that is not only a
   * client. Responses and events always reach their handlers. Any other
   * type is ignored.
   */
  function RouteOf(message: Value, parsed: Result<Value, Value>, ownId: Value, nodeType: Value): (r: LibRoute)
    ensures !Truthy(message) ==> r == Ignored
    ensures Truthy(message) && Incoming(message, parsed).Fail? ==> r == Failed(Incoming(message, parsed).error)
    ensures (r.ToRequest? || r.ToResponse? || r.ToEvent?) ==>
              Truthy(message) && Incoming(message, parsed) == Ok(r.message) &&
              !(r.message.Undefined? || r.message.Null?) && ForThisNode(r.message, ownId)
    ensures r.WrongDestination? <==> Truthy(message) && Incoming(message, parsed).Ok? &&
                                     !(Incoming(message, parsed).value.Undefined? || Incoming(message, parsed).value.Null?) &&
                                     !ForThisNode(Incoming(message, parsed).value, ownId)
    ensures r.ToRequest? ==> Prop(r.message, "type").value == Str("rpc-request") && nodeType != Str("client")
    ensures r.ToResponse? ==> Prop(r.message, "type").value == Str("response")
    ensures r.ToEvent? ==> Prop(r.message, "type").value == Str("event")
  {
    if !Truthy(message) then Ignored
    else
      match Incoming(message, parsed)
      case Fail(e) => Failed(e)
      case Ok(m) =>
        if m.Undefined? || m.Null? then Failed(TypeError(ReadOfUndefinedMessage))
        else if !ForThisNode(m, ownId) then WrongDestination
        else
          var messageType := Prop(m, "type").value;
          if messageType == Str("rpc-request") then (if nodeType == Str("client") then Ignored else ToRequest(m))
          else if messageType == Str("response") then ToResponse(m)
          else if messageType == Str("event") then ToEvent(m)
          else Ignored
  }

  /** A node that is only a client ignores every request addressed to it, and every node handles the responses addressed to it. */
  lemma ClientIgnoresRequests(m: Value, ownId: Value)
    requires m.Obj? && Get(m.fields, "type") == Str("rpc-request")
    ensures RouteOf(m, Ok(m), ownId, Str("client")) == (if ForThisNode(m, ownId) then Ignored else WrongDestination)
    ensures ForThisNode(m, ownId) ==> RouteOf(m, Ok(m), ownId, Str("server")) == ToRequest(m)
  {
  }

  /**
   * Only 'client' drops the requests addressed to it. Every other type,
   * 'server', 'both' or any other string, routes every message as 'server'
   * does, so it serves requests.
   */
  lemma RequestsByType(message: Value, parsed: Result<Value, Value>, ownId: Value, nodeType: Value)
    ensures !RouteOf(message, parsed, ownId, Str("client")).ToRequest?
    ensures nodeType != Str("client") ==> RouteOf(message, parsed, ownId, nodeType) == RouteOf(message, parsed, ownId, Str("server"))
  {
  }

  /** A message without a `to` is for every node, and one with a `to` only for the node of that id. */
  lemma AddressedByTo(m: Value, ownId: Value, other: Value)
    requires m.Obj? && Truthy(ownId) && other != ownId
    ensures "to" !in m.fields ==> ForThisNode(m, ownId) && ForThisNode(m, other)
    ensures Get(m.fields, "to") == ownId ==> ForThisNode(m, ownId) && !ForThisNode(m, other)
  {
  }

  /** The settlement a response leads to: a truthy `error` rejects with that error, and `data` resolves otherwise. */
  function ResponseSettlement(response: Value): (s: Requests.Settlement)
    requires !(response.Undefined? || response.Null?)
    ensures Truthy(Prop(response, "error").value) ==> s == Requests.Rejected(Prop(response, "error").value)
    ensures !Truthy(Prop(response, "error").value) ==> s == Requests.Resolved(Prop(response, "data").value)
  {
    var error := Prop(response, "error").value;
    if Truthy(error) then Requests.Rejected(error) else Requests.Resolved(Prop(response, "data").value)
  }

  /** What a response does to the pending request it names: the timeout is disarmed and the request settles by `ResponseSettlement`. */
  function ResponseStep(s: LibRequests.LibRequestState, response: Value): (r: LibRequests.LibRequestState)
    requires !(response.Undefined? || response.Null?)
    ensures r.timer.None?
    ensures r.settlement == Requests.Settle(s.settlement, ResponseSettlement(response))
  {
    var error := Prop(response, "error").value;
    if Truthy(error) then LibRequests.RejectStep(s, error) else LibRequests.ResolveStep(s, Prop(response, "data").value)
  }

  /** What `handleMessage` gives its caller: nothing, a synchronous throw, or a rejected promise. */
  datatype HandleResult = Done | Raised(error: Value) | Refused(error: Value)

  // ---------------------------------------------------------------------
  // expose
  // ---------------------------------------------------------------------

  /** The listed names and scope of `expose`'s options, or the error reading them throws. */
  datatype ExposePlan = ExposePlan(scope: Value, names: seq<Value>)

  /**
   * `options = { methods: [] }`: an array lists the names and sets no scope.
   * Otherwise `scope` and `methods` are read from the object. A `methods`
   * that is not an array has no usable `reduce` (or no `length`), and throws.
   */
  function PlanOf(options: Value): (r: Result<ExposePlan, Value>)
    ensures options.Undefined? ==> r == Ok(ExposePlan(Undefined, []))
    ensures options.Arr? ==> r == Ok(ExposePlan(Undefined, options.items))
    ensures options.Null? ==> r.Fail?
  {
    if options.Undefined? then Ok(ExposePlan(Undefined, []))
    else if options.Arr? then Ok(ExposePlan(Undefined, options.items))
    else if options.Null? then Fail(TypeError(ReadOfUndefinedMessage))
    else
      var methods := Prop(options, "methods").value;
      if methods.Arr? then Ok(ExposePlan(Prop(options, "scope").value, methods.items))
      else if methods.Undefined? || methods.Null? then Fail(TypeError(ReadOfUndefinedMessage))
      else Fail(TypeError("is not a function"))
  }

  /**
   * The `reduce` of `expose`, from left to right: a listed name whose source
   * property is a function is added, unless an earlier name already added
   * it. Every other name is dropped. Reading from a missing source throws.
   */
  function Collect(acc: Object, names: seq<Value>, source: Value): (r: Result<Object, Value>)
    ensures r.Fail? <==> |names| > 0 && (source.Undefined? || source.Null?)
    ensures r.Fail? ==> r.error == TypeError(ReadOfUndefinedMessage)
    ensures r.Ok? ==> forall k :: k in acc ==> k in r.value && r.value[k] == acc[k]
    decreases |names|
  {
    if |names| == 0 then Ok(acc)
    else if source.Undefined? || source.Null? then Fail(TypeError(ReadOfUndefinedMessage))
    else
      var key := ToString(names[0]);
      var fn := Prop(source, key).value;
      Collect(if IsFunction(fn) && key !in acc then acc[key := fn] else acc, names[1..], source)
  }

  /** The listed names whose source property is a function. */
  function FunctionNames(names: seq<Value>, source: Value): set<string>
    requires !(source.Undefined? || source.Null?)
  {
    set i | 0 <= i < |names| && IsFunction(Prop(source, ToString(names[i])).value) :: ToString(names[i])
  }

  /** The function names of a list are those of its head and of its tail. */
  lemma {:induction false} FunctionNamesCons(names: seq<Value>, source: Value)
    requires |names| > 0 && !(source.Undefined? || source.Null?)
    ensures var key := ToString(names[0]);
            FunctionNames(names, source) ==
            (if IsFunction(Prop(source, key).value) then {key} else {}) + FunctionNames(names[1..], source)
  {
    var key := ToString(names[0]);
    var rest := names[1..];
    var head: set<string> := if IsFunction(Prop(source, key).value) then {key} else {};
    forall x | x in FunctionNames(names, source)
      ensures x in head + FunctionNames(rest, source)
    {
      var i :| 0 <= i < |names| && IsFunction(Prop(source, ToString(names[i])).value) && x == ToString(names[i]);
      if i > 0 {
        assert rest[i - 1] == names[i];
      }
    }
    forall x | x in FunctionNames(rest, source)
      ensures x in FunctionNames(names, source)
    {
      var i :| 0 <= i < |rest| && IsFunction(Prop(source, ToString(rest[i])).value) && x == ToString(rest[i]);
      assert names[i + 1] == rest[i];
    }
    assert 0 < |names|;
  }

  /** The reduce adds to the given entries exactly the listed names that refer to functions. */
  lemma {:induction false} CollectKeys(acc: Object, names: seq<Value>, source: Value)
    requires !(source.Undefined? || source.Null?)
    ensures Collect(acc, names, source).Ok?
    ensures Collect(acc, names, source).value.Keys == acc.Keys + FunctionNames(names, source)
    decreases |names|
  {
    if |names| > 0 {
      var key := ToString(names[0]);
      var fn := Prop(source, key).value;
      var acc' := if IsFunction(fn) && key !in acc then acc[key := fn] else acc;
      CollectKeys(acc', names[1..], source);
      FunctionNamesCons(names, source);
    }
  }

  /** The given entries win over the source, and every added name maps to the source's function. */
  lemma {:induction false} CollectValues(acc: Object, names: seq<Value>, source: Value)
    requires !(source.Undefined? || source.Null?)
    requires Collect(acc, names, source).Ok?
    ensures var r := Collect(acc, names, source).value;
            && (forall k :: k in acc ==> k in r && r[k] == acc[k])
            && (forall k :: k in r && k !in acc ==> r[k] == Prop(source, k).value && IsFunction(r[k]))
    decreases |names|
  {
    if |names| > 0 {
      var key := ToString(names[0]);
      var fn := Prop(source, key).value;
      var acc' := if IsFunction(fn) && key !in acc then acc[key := fn] else acc;
      CollectValues(acc', names[1..], source);
    }
  }

  /**
   * The reduce throws only for a missing source with names to read.
   * Otherwise the result holds exactly the given entries and the listed
   * names that refer to functions, each with the source's function unless
   * the given entries already had that name.
   */
  lemma {:induction false} CollectSpec(acc: Object, names: seq<Value>, source: Value)
    ensures Collect(acc, names, source).Fail? <==> |names| > 0 && (source.Undefined? || source.Null?)
    ensures !(source.Undefined? || source.Null?) ==>
              var r := Collect(acc, names, source).value;
              && r.Keys == acc.Keys + FunctionNames(names, source)
              && (forall k :: k in acc ==> r[k] == acc[k])
              && (forall k :: k in r && k !in acc ==> r[k] == Prop(source, k).value && IsFunction(r[k]))
  {
    if !(source.Undefined? || source.Null?) {
      CollectKeys(acc, names, source);
      CollectValues(acc, names, source);
    }
  }

  /** The object `objectPath.set({}, path, value)` builds: `value` nested under the path's segments. */
  function Nest(path: seq<string>, value: Value): (o: Object)
    requires |path| >= 1
    ensures o.Keys == {path[0]}
    decreases |path|
  {
    if |path| == 1 then map[path[0] := value]
    else map[path[0] := Obj(Nest(path[1..], value))]
  }

  /** The segments of a scope: a string is split at its dots, and any other value is one segment. */
  function PathOf(scope: Value): (p: seq<string>)
    ensures |p| >= 1
    ensures forall k :: 0 <= k < |p| ==> '.' !in p[k] || !scope.Str?
    ensures scope.Str? && '.' !in scope.s ==> p == [scope.s]
    ensures !scope.Str? ==> p == [ToString(scope)]
  {
    if scope.Str? then
      if '.' !in scope.s then Strings.SplitWithoutSeparator(scope.s, '.'); Strings.Split(scope.s, '.')
      else Strings.Split(scope.s, '.')
    else [ToString(scope)]
  }

  /** The entries `expose` adds to the api: the collected methods, nested under the scope when it is truthy. */
  function ExposedApi(scope: Value, exposed: Object): (r: Object)
    ensures !Truthy(scope) ==> r == exposed
    ensures Truthy(scope) ==> r.Keys == {PathOf(scope)[0]}
  {
    if Truthy(scope) then Nest(PathOf(scope), Obj(exposed)) else exposed
  }

  /**
   * The body of `expose` once the node type has been checked: the collected
   * methods are merged over `base`, one level deep:
   * `Object.assign({}, base, exposedAPI)`.
   */
  function ExposeOver(base: Object, source: Value, options: Value): (r: Result<Object, Value>)
    ensures PlanOf(options).Fail? ==> r == Fail(PlanOf(options).error)
    ensures PlanOf(options).Ok? && Collect(map[], PlanOf(options).value.names, source).Fail? ==>
              r == Fail(Collect(map[], PlanOf(options).value.names, source).error)
    ensures PlanOf(options).Ok? && Collect(map[], PlanOf(options).value.names, source).Ok? ==>
              r == Ok(base + ExposedApi(PlanOf(options).value.scope, Collect(map[], PlanOf(options).value.names, source).value))
  {
    match PlanOf(options)
    case Fail(e) => Fail(e)
    case Ok(plan) =>
      match Collect(map[], plan.names, source)
      case Fail(e) => Fail(e)
      case Ok(exposed) => Ok(base + ExposedApi(plan.scope, exposed))
  }

  /**
   * `expose(source, options)` on an api. A node that is only a client
   * throws. Every other node exposes over its api, and a missing api reads
   * as `{}`.
   */
  function ExposeResult(api: Option<Object>, nodeType: Value, source: Value, options: Value): (r: Result<Object, Value>)
    ensures nodeType == Str("client") ==> r == Fail(PlainError(ClientOnlyMessage))
    ensures nodeType != Str("client") ==> r == ExposeOver(Requests.OrElse(api, map[]), source, options)
  {
    if nodeType == Str("client") then Fail(PlainError(ClientOnlyMessage))
    else ExposeOver(Requests.OrElse(api, map[]), source, options)
  }

  /**
   * Only 'client' is refused `expose`. Every other type, 'server', 'both'
   * or any other string, exposes exactly as 'server' does.
   */
  lemma ExposeByType(api: Option<Object>, nodeType: Value, source: Value, options: Value)
    ensures ExposeResult(api, Str("client"), source, options) == Fail(PlainError(ClientOnlyMessage))
    ensures nodeType != Str("client") ==> ExposeResult(api, nodeType, source, options) == ExposeResult(api, Str("server"), source, options)
  {
    assert Str("server") != Str("client") by { assert "server"[0] != "client"[0]; }
  }

  /** A node without an api exposes exactly as one whose api is `{}`. */
  lemma ExposeWithoutApi(nodeType: Value, source: Value, options: Value)
    ensures ExposeResult(None, nodeType, source, options) == ExposeResult(Some(map[]), nodeType, source, options)
  {
    var empty: Object := map[];
    assert Requests.OrElse(None, empty) == Requests.OrElse(Some(empty), empty) == empty;
  }

  /**
   * An unscoped `expose` keeps only the listed names that refer to
   * functions, each with its function, and keeps every api entry they do
   * not name.
   */
  lemma {:induction false} UnscopedExposeKeepsFunctions(api: Object, nodeType: Value, source: Value, names: seq<Value>)
    requires nodeType != Str("client") && !(source.Undefined? || source.Null?)
    ensures var r := ExposeResult(Some(api), nodeType, source, Arr(names));
            && r.Ok?
            && r.value.Keys == api.Keys + FunctionNames(names, source)
            && (forall k :: k in FunctionNames(names, source) ==> r.value[k] == Prop(source, k).value && IsFunction(r.value[k]))
            && (forall k :: k in api && k !in FunctionNames(names, source) ==> r.value[k] == api[k])
  {
    CollectSpec(map[], names, source);
    var exposed := Collect(map[], names, source).value;
    assert ExposeResult(Some(api), nodeType, source, Arr(names)) == Ok(api + exposed);
  }

  /**
   * A scoped `expose` replaces the api's entry for the scope's first
   * segment with a new object, so a second `expose` under the same scope
   * drops the methods the first one put there.
   */
  lemma {:induction false} ScopedExposeReplacesScope(api: Object, nodeType: Value, source: Value, scope: string, names: seq<Value>)
    requires nodeType != Str("client") && !(source.Undefined? || source.Null?) && scope != "" && '.' !in scope
    ensures var r := ExposeResult(Some(api), nodeType, source, Obj(map["scope" := Str(scope), "methods" := Arr(names)]));
            && r.Ok?
            && r.value == api[scope := Obj(Collect(map[], names, source).value)]
  {
    var exposed := Collect(map[], names, source).value;
    assert PathOf(Str(scope)) == [scope];
    assert ExposedApi(Str(scope), exposed) == map[scope := Obj(exposed)];
    assert ExposeResult(Some(api), nodeType, source, Obj(map["scope" := Str(scope), "methods" := Arr(names)]))
        == Ok(api + map[scope := Obj(exposed)]);
  }

  /** A scope of two dotted segments nests the methods one object per segment. */
  lemma {:induction false} DottedScopeNests(outer: string, inner: string, exposed: Object)
    requires '.' !in outer && '.' !in inner
    ensures ExposedApi(Str(outer + ['.'] + inner), exposed) == map[outer := Obj(map[inner := Obj(exposed)])]
  {
    Strings.SplitAtSeparator(outer, inner, '.');
    Strings.SplitWithoutSeparator(inner, '.');
    var path := [outer] + [inner];
    assert path[1..] == [inner];
    assert Nest(path, Obj(exposed)) == map[outer := Obj(Nest([inner], Obj(exposed)))];
  }

  // ---------------------------------------------------------------------
  // The node
  // ---------------------------------------------------------------------

  class LibNode {
    const apiVersion: Value
    const id: Value
    const nodeType: Value
    const sendMessage: Value
    const requestTimeout: nat
    /** The request registry, present exactly for the 'client' and 'both' types. */
    const requestManager: LibRequests.LibRequestManager?
    /** The exposed methods, present for the 'server' and 'both' types. */
    var api: Option<Object>
    /** The messages handed to `sendMessage`, in order. */
    var sent: seq<Object>
    /** The requests handed to `handleRequestMessage`, in order. */
    var requests: seq<Value>
    /** The events emitted locally, as (name, data), in order. */
    var emitted: seq<(Value, Value)>

    function Pending(): map<string, LibRequests.LibRequest>
      reads this, requestManager
    {
      if requestManager == null then map[] else requestManager.sentRequests
    }

    ghost predicate Valid()
      reads this, requestManager, Pending().Values
    {
      && Truthy(id)
      && (requestManager != null <==> IsClientType(nodeType))
      && (requestManager != null ==> requestManager.requestTimeout == requestTimeout && requestManager.Valid())
    }

    constructor (options: LibOptions)
      requires CheckOptions(options).Pass?
      ensures apiVersion == options.apiVersion && id == options.id && nodeType == options.nodeType
      ensures sendMessage == options.sendMessage && requestTimeout == RequestTimeoutOf(options.requestTimeout)
      ensures api == if IsServerType(nodeType) then Some(map[]) else None
      ensures requestManager != null ==> fresh(requestManager)
      ensures Pending() == map[] && sent == [] && requests == [] && emitted == []
      ensures Valid()
    {
      apiVersion := options.apiVersion;
      id := options.id;
      nodeType := options.nodeType;
      sendMessage := options.sendMessage;
      requestTimeout := RequestTimeoutOf(options.requestTimeout);
      api := if IsServerType(options.nodeType) then Some(map[]) else None;
      if IsClientType(options.nodeType) {
        requestManager := new LibRequests.LibRequestManager(Some(RequestTimeoutOf(options.requestTimeout)));
      } else {
        requestManager := null;
      }
      sent := [];
      requests := [];
      emitted := [];
    }

    /**
     * `new Intercomm(options)`: it throws for the first required option that
     * is falsy. Otherwise it builds an api for the 'server' and 'both'
     * types and a manager for the 'client' and 'both' types.
     */
    static method Create(options: LibOptions) returns (r: Result<LibNode, Value>)
      ensures CheckOptions(options).Throw? ==> r == Fail(CheckOptions(options).error)
      ensures CheckOptions(options).Pass? ==>
                && r.Ok? && fresh(r.value) && r.value.Valid()
                && r.value.id == options.id && r.value.nodeType == options.nodeType
                && r.value.sendMessage == options.sendMessage
                && r.value.requestTimeout == RequestTimeoutOf(options.requestTimeout)
                && r.value.api == (if IsServerType(options.nodeType) then Some(map[]) else None)
                && (r.value.requestManager != null <==> IsClientType(options.nodeType))
                && (r.value.requestManager != null ==> fresh(r.value.requestManager))
                && r.value.Pending() == map[] && r.value.sent == []
    {
      var check := CheckOptions(options);
      if check.Throw? {
        return Fail(check.error);
      }
      var node := new LibNode(options);
      return Ok(node);
    }

    /**
     * `exec(at, method, parameters)` at time `now`. The guards throw
     * synchronously. Without a manager, the registration throws a
     * TypeError, which the call turns into a rejected SendMessageError. A
     * registered request stays registered when the send fails: it is then
     * erased only by its timeout; this is also the case when `sendMessage`
     * is truthy but not a function, so that calling it throws a TypeError
     * and nothing is sent. On a successful hand-off the caller waits on the
     * request, through `ExecSettlement`.
     */
    method Exec(at: Value, methodName: Value, parameters: Value, freshId: string, now: int, transport: Outcome<Value>)
      returns (r: ExecResult, request: LibRequests.LibRequest?)
      requires Valid()
      modifies this, requestManager
      ensures Valid() && api == old(api) && requests == old(requests) && emitted == old(emitted)
      ensures CheckExec(nodeType, at, methodName).Throw? ==>
                r == Threw(CheckExec(nodeType, at, methodName).error) && request == null &&
                sent == old(sent) && Pending() == old(Pending())
      ensures CheckExec(nodeType, at, methodName).Pass? && requestManager == null ==>
                r == Rejected(SendMessageError(TypeError(ReadOfUndefinedMessage))) && request == null && sent == old(sent)
      ensures CheckExec(nodeType, at, methodName).Pass? && requestManager != null ==>
                && request != null && fresh(request) && request.owner == requestManager
                && request.id == Str(freshId) && request.State() == LibRequests.NewState(requestTimeout, now)
                && Pending() == old(Pending())[freshId := request]
                && sent == old(sent) + (if IsFunction(sendMessage) then [RequestData(freshId, id, at, methodName, parameters)] else [])
                && r == match Nodes.CallOutcome(sendMessage)
                          case Throw(e) => Rejected(SendMessageError(e))
                          case Pass => if transport.Pass? then Awaiting else Rejected(SendMessageError(transport.error))
    {
      var check := CheckExec(nodeType, at, methodName);
      if check.Throw? {
        return Threw(check.error), null;
      }
      if requestManager == null {
        return Rejected(SendMessageError(TypeError(ReadOfUndefinedMessage))), null;
      }
      request := requestManager.RegisterRequest(Str(freshId), freshId, now);
      assert Requests.Key(Str(freshId)) == freshId;
      if !IsFunction(sendMessage) {
        return Rejected(SendMessageError(TypeError(Nodes.NotAFunctionMessage))), request;
      }
      sent := sent + [RequestData(freshId, id, at, methodName, parameters)];
      r := if transport.Pass? then Awaiting else Rejected(SendMessageError(transport.error));
    }

    /**
     * `handleResponseMessage(response)`. Without a manager it throws. A
     * response for an unknown request is ignored and changes no request.
     * Otherwise the request takes `ResponseStep` and is erased, and no
     * other request changes.
     */
    method HandleResponse(response: Value) returns (r: HandleResult)
      requires Valid() && !(response.Undefined? || response.Null?)
      modifies requestManager, Pending().Values
      ensures Valid()
      ensures requestManager == null ==> r == Raised(TypeError(ReadOfUndefinedMessage))
      ensures requestManager != null ==> r == Done
      ensures requestManager == null || Requests.Key(Prop(response, "requestId").value) !in old(Pending()) ==>
                Pending() == old(Pending()) && unchanged(old(Pending()).Values)
      ensures requestManager != null && Requests.Key(Prop(response, "requestId").value) in old(Pending()) ==>
                var key := Requests.Key(Prop(response, "requestId").value);
                var settled := old(Pending())[key];
                && Pending() == old(Pending()) - {key}
                && settled.settlement == ResponseSettlement(response)
                && settled.State() == ResponseStep(old(settled.State()), response)
                && unchanged(old(Pending()).Values - {settled})
    {
      if requestManager == null {
        return Raised(TypeError(ReadOfUndefinedMessage));
      }
      var found := requestManager.GetRequest(Prop(response, "requestId").value, LibRequests.Options(Bool(false)));
      if found.value.None? {
        return Done;
      }
      var request := found.value.value;
      var error := Prop(response, "error").value;
      if Truthy(error) {
        requestManager.Reject(request, error);
      } else {
        requestManager.Resolve(request, Prop(response, "data").value);
      }
      return Done;
    }

    /**
     * `handleMessage(message)`: the routing of `RouteOf`, then its handler.
     * A request is handed on to `handleRequestMessage`, and an event is
     * emitted locally under its `eventName`.
     */
    method HandleMessage(message: Value, parsed: Result<Value, Value>) returns (r: HandleResult)
      requires Valid()
      modifies this, requestManager, Pending().Values
      ensures Valid() && api == old(api) && sent == old(sent)
      ensures !RouteOf(message, parsed, id, nodeType).ToResponse? ==>
                Pending() == old(Pending()) && unchanged(old(Pending()).Values)
      ensures RouteOf(message, parsed, id, nodeType).Ignored? ==>
                r == Done && requests == old(requests) && emitted == old(emitted)
      ensures RouteOf(message, parsed, id, nodeType).Failed? ==>
                r == Raised(RouteOf(message, parsed, id, nodeType).error) && requests == old(requests) && emitted == old(emitted)
      ensures RouteOf(message, parsed, id, nodeType).WrongDestination? ==>
                r == Refused(IncorrectDestination) && requests == old(requests) && emitted == old(emitted)
      ensures RouteOf(message, parsed, id, nodeType).ToRequest? ==>
                r == Done && requests == old(requests) + [RouteOf(message, parsed, id, nodeType).message] &&
                emitted == old(emitted)
      ensures RouteOf(message, parsed, id, nodeType).ToEvent? ==>
                var m := RouteOf(message, parsed, id, nodeType).message;
                r == Done && requests == old(requests) &&
                emitted == old(emitted) + [(Prop(m, "eventName").value, Prop(m, "data").value)]
      ensures RouteOf(message, parsed, id, nodeType).ToResponse? ==>
                var m := RouteOf(message, parsed, id, nodeType).message;
                && requests == old(requests) && emitted == old(emitted)
                && (requestManager == null ==> r == Raised(TypeError(ReadOfUndefinedMessage)))
                && (requestManager != null ==> r == Done)
                && (requestManager == null || Requests.Key(Prop(m, "requestId").value) !in old(Pending()) ==>
                      Pending() == old(Pending()) && unchanged(old(Pending()).Values))
                && (requestManager != null && Requests.Key(Prop(m, "requestId").value) in old(Pending()) ==>
                      var key := Requests.Key(Prop(m, "requestId").value);
                      var settled := old(Pending())[key];
                      && Pending() == old(Pending()) - {key}
                      && settled.settlement == ResponseSettlement(m)
                      && settled.State() == ResponseStep(old(settled.State()), m)
                      && unchanged(old(Pending()).Values - {settled}))
    {
      var route := RouteOf(message, parsed, id, nodeType);
      match route
      case Ignored => r := Done;
      case Failed(e) => r := Raised(e);
      case WrongDestination => r := Refused(IncorrectDestination);
      case ToRequest(m) =>
        requests := requests + [m];
        r := Done;
      case ToEvent(m) =>
        emitted := emitted + [(Prop(m, "eventName").value, Prop(m, "data").value)];
        r := Done;
      case ToResponse(m) => r := HandleResponse(m);
    }

    /** `expose(source, options)`: the api becomes `ExposeResult`, and stays as it was when anything throws. */
    method Expose(source: Value, options: Value) returns (o: Outcome<Value>)
      modifies this
      ensures sent == old(sent) && requests == old(requests) && emitted == old(emitted)
      ensures var r := ExposeResult(old(api), nodeType, source, options);
              && (r.Fail? ==> o == Throw(r.error) && api == old(api))
              && (r.Ok? ==> o.Pass? && api == Some(r.value))
    {
      var r := ExposeResult(api, nodeType, source, options);
      if r.Fail? {
        return Throw(r.error);
      }
      api := Some(r.value);
      return Pass;
    }
  }

  /**
   * A node whose type is none of 'client', 'server' and 'both' passes the
   * guards of `exec`, but it has no manager, so the registration throws and
   * the call rejects with the SendMessageError of that TypeError, whatever
   * the transport does.
   */
  method OtherTypeExecRejects(nodeType: string, transport: Outcome<Value>) returns (r: ExecResult)
    requires nodeType != "" && nodeType != "client" && nodeType != "server" && nodeType != "both"
    ensures r == Rejected(SendMessageError(TypeError(ReadOfUndefinedMessage)))
  {
    var created := LibNode.Create(LibOptions(Str("1.0.0"), Str("node-a"), Str(nodeType), Func(9), None));
    var node := created.value;
    var request;
    r, request := node.Exec(Str("node-b"), Str("someMethod"), Arr([]), "request-1", 0, transport);
  }
  /**
   * A 'client' node whose `sendMessage` is truthy but not a function passes
   * the option check. Its `exec` registers the request, calling
   * `sendMessage` throws a TypeError, and the call rejects with the
   * SendMessageError of that TypeError, whatever the transport does. Nothing
   * is sent, and the request stays registered.
   */
  method NonFunctionSendRejects(transport: Outcome<Value>) returns (r: ExecResult, sent: seq<Object>, pending: set<string>)
    ensures r == Rejected(SendMessageError(TypeError(Nodes.NotAFunctionMessage)))
    ensures sent == [] && pending == {"request-1"}
  {
    var created := LibNode.Create(LibOptions(Str("1.0.0"), Str("node-a"), Str("client"), Str("x"), None));
    var node := created.value;
    var request;
    r, request := node.Exec(Str("node-b"), Str("someMethod"), Arr([]), "request-1", 0, transport);
    sent := node.sent;
    pending := node.Pending().Keys;
  }
}
