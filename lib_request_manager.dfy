/**
 * The older request registry of lib/request-manager.js, the one
 * lib/intercomm.js uses. A request arms its timeout when it is created, and
 * `resolve` and `reject` disarm it. There are no retries. `getRequest`
 * either returns nothing or throws RequestNotFoundError, depending on its
 * `error` option. As in the `Requests` module, the armed timeout is a
 * deadline, and the environment fires it with `FireTimeout`.
 */
module LibRequests {
  import opened Wrappers
  import opened Js
  import Requests

  const DefaultRequestTimeout: nat := 1000

  /** `new RequestTimeoutError()`: its name is RequestTimeoutError and its message is empty. */
  const RequestTimeoutError := Err("RequestTimeoutError", "")

  /** `new RequestNotFoundError(requestId)`: the message names the id. */
  function RequestNotFoundError(requestId: Value): (e: Value)
    ensures e.Err? && e.name == "RequestNotFoundError"
    ensures e.message == "requestId " + ToString(requestId) + " does not correspond to any request object"
  {
    Err("RequestNotFoundError", "requestId " + ToString(requestId) + " does not correspond to any request object")
  }

  /** What changes over a request's life: its armed timeout and its promise's settlement. */
  datatype LibRequestState = LibRequestState(timer: Option<int>, settlement: Requests.Settlement)

  /** A request created at `now` is pending, with its timeout due at `now + requestTimeout`. */
  function NewState(requestTimeout: nat, now: int): LibRequestState {
    LibRequestState(Some(now + requestTimeout), Requests.Pending)
  }

  /** `resolve(result)` disarms the timeout and settles the promise, unless it is already settled. */
  function ResolveStep(s: LibRequestState, result: Value): (r: LibRequestState)
    ensures r.timer.None?
    ensures r.settlement == Requests.Settle(s.settlement, Requests.Resolved(result))
  {
    LibRequestState(None, Requests.Settle(s.settlement, Requests.Resolved(result)))
  }

  /** `reject(error)` disarms the timeout and rejects the promise, unless it is already settled. */
  function RejectStep(s: LibRequestState, error: Value): (r: LibRequestState)
    ensures r.timer.None?
    ensures r.settlement == Requests.Settle(s.settlement, Requests.Rejected(error))
  {
    LibRequestState(None, Requests.Settle(s.settlement, Requests.Rejected(error)))
  }

  /** The armed timeout fires and calls `reject(new RequestTimeoutError())`. */
  function TimeoutStep(s: LibRequestState): LibRequestState {
    RejectStep(s, RequestTimeoutError)
  }

  /** The events that reach a lib request: its timer firing, or a settlement. */
  datatype LibEvent = Expires(at: int) | ResolveCall(result: Value) | RejectCall(error: Value)

  /** The state after one event, or `None` for a timer fired before its deadline or one that is not armed. */
  function Next(s: LibRequestState, e: LibEvent): (r: Option<LibRequestState>)
    ensures e.Expires? ==> (r.Some? <==> s.timer.Some? && e.at >= s.timer.value)
  {
    match e
    case Expires(at) => if s.timer.Some? && at >= s.timer.value then Some(TimeoutStep(s)) else None
    case ResolveCall(v) => Some(ResolveStep(s, v))
    case RejectCall(err) => Some(RejectStep(s, err))
  }

  /** The state after the events in order, or `None` if one of them cannot happen. */
  function Replay(s: LibRequestState, events: seq<LibEvent>): Option<LibRequestState>
    decreases |events|
  {
    if |events| == 0 then Some(s)
    else
      match Next(s, events[0])
      case None => None
      case Some(s') => Replay(s', events[1..])
  }

  /**
   * A request that nobody settles is rejected with RequestTimeoutError
   * exactly when its timer fires, which is no earlier than
   * `requestTimeout` after its creation.
   */
  lemma TimesOut(requestTimeout: nat, created: int, at: int)
    ensures Next(NewState(requestTimeout, created), Expires(at)).Some? <==> at >= created + requestTimeout
    ensures at >= created + requestTimeout ==>
              Next(NewState(requestTimeout, created), Expires(at)).value.settlement == Requests.Rejected(RequestTimeoutError)
  {
  }

  /**
   * Once `resolve` or `reject` has run, no timeout can fire any more, and
   * the settlement stays what it has become, whatever events follow.
   */
  lemma {:induction false} NoTimeoutAfterSettle(s: LibRequestState, events: seq<LibEvent>)
    requires s.timer.None?
    requires Replay(s, events).Some?
    ensures forall i :: 0 <= i < |events| ==> !events[i].Expires?
    ensures !s.settlement.Pending? ==> Replay(s, events).value.settlement == s.settlement
    ensures Replay(s, events).value.timer.None?
    decreases |events|
  {
    if |events| > 0 {
      var n := Next(s, events[0]);
      assert !events[0].Expires?;
      NoTimeoutAfterSettle(n.value, events[1..]);
      assert forall i :: 1 <= i < |events| ==> events[i] == events[1..][i - 1];
    }
  }

  /** A request resolved while pending keeps its result and never times out afterwards, whatever events follow. */
  lemma ResolvedStaysResolved(s: LibRequestState, v: Value, events: seq<LibEvent>)
    requires s.settlement.Pending?
    requires Replay(ResolveStep(s, v), events).Some?
    ensures Replay(ResolveStep(s, v), events).value.settlement == Requests.Resolved(v)
    ensures forall i :: 0 <= i < |events| ==> !events[i].Expires?
  {
    NoTimeoutAfterSettle(ResolveStep(s, v), events);
  }

  /** The `{error}` option of `getRequest`. `NoOptions` is a call without its second argument. */
  datatype GetOptions = NoOptions | Options(error: Value)

  /** The message of the TypeError a destructuring parameter throws on `undefined`; its wording is the engine's. */
  const DestructureMessage := "Cannot destructure 'undefined'"

  class LibRequest {
    const id: Value
    const timeout: nat
    /** The manager whose table erases this request once it settles, if any. */
    const owner: LibRequestManager?
    var timer: Option<int>
    var settlement: Requests.Settlement

    function State(): LibRequestState
      reads this
    {
      LibRequestState(timer, settlement)
    }

    /** `new Request({requestTimeout, id})` at time `now`. */
    constructor (id: Value, requestTimeout: nat, now: int, owner: LibRequestManager?)
      ensures this.id == id && this.timeout == requestTimeout && this.owner == owner
      ensures State() == NewState(requestTimeout, now)
    {
      this.id := id;
      this.timeout := requestTimeout;
      this.owner := owner;
      timer := Some(now + requestTimeout);
      settlement := Requests.Pending;
    }

    /** `resolve(result)` on a request no manager tracks. */
    method Resolve(result: Value)
      requires owner == null
      modifies this
      ensures State() == ResolveStep(old(State()), result)
    {
      timer := None;
      settlement := Requests.Settle(settlement, Requests.Resolved(result));
    }

    /** `reject(error)` on a request no manager tracks. */
    method Reject(error: Value)
      requires owner == null
      modifies this
      ensures State() == RejectStep(old(State()), error)
    {
      timer := None;
      settlement := Requests.Settle(settlement, Requests.Rejected(error));
    }

    /** The armed timeout of a request no manager tracks fires at `now`. */
    method FireTimeout(now: int)
      requires owner == null
      requires timer.Some? && now >= timer.value
      modifies this
      ensures State() == TimeoutStep(old(State()))
    {
      Reject(RequestTimeoutError);
    }
  }

  class LibRequestManager {
    const requestTimeout: nat
    var sentRequests: map<string, LibRequest>

    /** Every entry is stored under the key of its own id, was created by this manager, and is pending. */
    ghost predicate Valid()
      reads this, sentRequests.Values
    {
      forall k {:trigger sentRequests[k]} :: k in sentRequests ==>
        var r := sentRequests[k];
        Requests.Key(r.id) == k && r.owner == this && r.settlement.Pending?
    }

    /** `new RequestManager({requestTimeout})`: the timeout defaults to 1000 ms. */
    constructor (requestTimeout: Option<nat>)
      ensures this.requestTimeout == Requests.OrElse(requestTimeout, DefaultRequestTimeout)
      ensures sentRequests == map[] && Valid()
    {
      this.requestTimeout := Requests.OrElse(requestTimeout, DefaultRequestTimeout);
      sentRequests := map[];
    }

    /**
     * `registerRequest(id)` at time `now`. It creates a request with the
     * manager's timeout and stores it under its id, replacing an entry with
     * that id. An `undefined` id is replaced by a fresh one.
     */
    method RegisterRequest(id: Value, freshId: string, now: int) returns (r: LibRequest)
      requires Valid()
      modifies this
      ensures Valid()
      ensures fresh(r) && r.owner == this
      ensures r.id == (if id.Undefined? then Str(freshId) else id)
      ensures r.timeout == requestTimeout && r.State() == NewState(requestTimeout, now)
      ensures sentRequests == old(sentRequests)[Requests.Key(r.id) := r]
    {
      r := new LibRequest(if id.Undefined? then Str(freshId) else id, requestTimeout, now, this);
      sentRequests := sentRequests[Requests.Key(r.id) := r];
    }

    /**
     * `getRequest(requestId, {error})`. When the id is unknown, it throws
     * RequestNotFoundError if `error` is truthy or left `undefined`, and
     * otherwise returns `undefined`. A call without the options object
     * throws a TypeError before the lookup.
     */
    method GetRequest(requestId: Value, options: GetOptions) returns (r: Result<Option<LibRequest>, Value>)
      ensures options.NoOptions? ==> r == Fail(TypeError(DestructureMessage))
      ensures options.Options? && Requests.Key(requestId) in sentRequests ==>
                r == Ok(Some(sentRequests[Requests.Key(requestId)]))
      ensures options.Options? && Requests.Key(requestId) !in sentRequests ==>
                r == if options.error.Undefined? || Truthy(options.error)
                     then Fail(RequestNotFoundError(requestId)) else Ok(None)
    {
      if options.NoOptions? {
        return Fail(TypeError(DestructureMessage));
      }
      var raise := options.error.Undefined? || Truthy(options.error);
      var key := Requests.Key(requestId);
      if key !in sentRequests {
        if raise {
          return Fail(RequestNotFoundError(requestId));
        }
        return Ok(None);
      }
      return Ok(Some(sentRequests[key]));
    }

    /** `request.resolve(result)` on a request this manager created; the first settlement erases its entry. */
    method Resolve(r: LibRequest, result: Value)
      requires Valid() && r.owner == this
      modifies this, r
      ensures Valid()
      ensures r.State() == ResolveStep(old(r.State()), result)
      ensures sentRequests ==
                if old(r.settlement).Pending? then old(sentRequests) - {Requests.Key(r.id)} else old(sentRequests)
    {
      var wasPending := r.settlement.Pending?;
      r.timer := None;
      r.settlement := Requests.Settle(r.settlement, Requests.Resolved(result));
      if wasPending {
        sentRequests := sentRequests - {Requests.Key(r.id)};
      }
    }

    /** `request.reject(error)` on a request this manager created; the first settlement erases its entry. */
    method Reject(r: LibRequest, error: Value)
      requires Valid() && r.owner == this
      modifies this, r
      ensures Valid()
      ensures r.State() == RejectStep(old(r.State()), error)
      ensures sentRequests ==
                if old(r.settlement).Pending? then old(sentRequests) - {Requests.Key(r.id)} else old(sentRequests)
    {
      var wasPending := r.settlement.Pending?;
      r.timer := None;
      r.settlement := Requests.Settle(r.settlement, Requests.Rejected(error));
      if wasPending {
        sentRequests := sentRequests - {Requests.Key(r.id)};
      }
    }

    /** The armed timeout of a request this manager created fires at `now` and rejects it. */
    method FireTimeout(r: LibRequest, now: int)
      requires Valid() && r.owner == this
      requires r.timer.Some? && now >= r.timer.value
      modifies this, r
      ensures Valid()
      ensures r.State() == TimeoutStep(old(r.State()))
      ensures sentRequests ==
                if old(r.settlement).Pending? then old(sentRequests) - {Requests.Key(r.id)} else old(sentRequests)
    {
      Reject(r, RequestTimeoutError);
    }
  }
}
