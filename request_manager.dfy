/**
 * The request registry of src/request-manager.js. A Request wraps the
 * function that sends it. `attempt()` invokes that function and arms a
 * timeout. When the timeout fires, the request is retried after a backoff
 * delay while its retry budget lasts, and is rejected with
 * REQUEST_TIMEOUT_ERROR once the budget is spent.
 *
 * Timers are explicit. An armed timeout is its deadline, and a scheduled
 * retry is its due time. The environment fires them by calling the
 * `FireTimeout` and `FireRetry` operations at a time `now` at or after the
 * deadline. The backoff delays of this file (`exponentialBackoff`,
 * `linearBackoff`) are `Backoff.Exponential` and `Backoff.Linear`.
 */
module Requests {
  import opened Wrappers
  import opened Js
  import Backoff

  /** The defaults of a Request's options. */
  const DefaultTimeout: nat := 1000
  const DefaultRetryAttempts: nat := 0

  /** The default retry budget of a RequestManager. */
  const ManagerRetryAttempts: nat := 5

  /** src/errors.js: name and message are both REQUEST_TIMEOUT_ERROR. */
  const RequestTimeoutError := Tagged("REQUEST_TIMEOUT_ERROR")

  /** The state of a request's promise. Only its first settlement counts. */
  datatype Settlement = Pending | Resolved(result: Value) | Rejected(error: Value)

  /**
   * What changes over a request's life:
   * - the retry counter `timeoutRetryAttemptCount`;
   * - the deadline of the armed timeout;
   * - the due times of the retries that are scheduled and have not run;
   * - the promise's settlement;
   * - the times at which `fn` was invoked.
   */
  datatype RequestState = RequestState(
    retryCount: nat,
    timer: Option<int>,
    retries: seq<int>,
    settlement: Settlement,
    calls: seq<int>)

  /** The state of a new Request. */
  function NewState(): RequestState {
    RequestState(0, None, [], Pending, [])
  }

  /** `attempt()` at time `now` clears the armed timeout, arms a new one at `now + timeout`, and invokes `fn`. */
  function AttemptStep(s: RequestState, timeout: nat, now: int): (r: RequestState)
    ensures r.timer == Some(now + timeout)
    ensures r.calls == s.calls + [now]
    ensures r.retryCount == s.retryCount && r.retries == s.retries && r.settlement == s.settlement
  {
    s.(timer := Some(now + timeout), calls := s.calls + [now])
  }

  /** The settlement `settle` leads to: the first settlement is final. */
  function Settle(current: Settlement, next: Settlement): (r: Settlement)
    ensures current.Pending? ==> r == next
    ensures !current.Pending? ==> r == current
  {
    if current.Pending? then next else current
  }

  /**
   * `resolve(result)` clears the armed timeout and settles the promise.
   * A scheduled retry is not cancelled.
   */
  function ResolveStep(s: RequestState, result: Value): (r: RequestState)
    ensures r.timer.None?
    ensures r.settlement == Settle(s.settlement, Resolved(result))
    ensures r.retries == s.retries && r.calls == s.calls && r.retryCount == s.retryCount
  {
    s.(timer := None, settlement := Settle(s.settlement, Resolved(result)))
  }

  /** `reject(error)`: the same as `resolve`, with a rejection. */
  function RejectStep(s: RequestState, error: Value): (r: RequestState)
    ensures r.timer.None?
    ensures r.settlement == Settle(s.settlement, Rejected(error))
    ensures r.retries == s.retries && r.calls == s.calls && r.retryCount == s.retryCount
  {
    s.(timer := None, settlement := Settle(s.settlement, Rejected(error)))
  }

  /**
   * The armed timeout fires at `now`. While the retry count is below the
   * budget, a retry is scheduled `backoff(retryCount)` later. Otherwise the
   * request is rejected with REQUEST_TIMEOUT_ERROR.
   */
  function TimeoutStep(s: RequestState, maxRetries: nat, backoff: nat -> nat, now: int): (r: RequestState)
    ensures r.timer.None? && r.calls == s.calls && r.retryCount == s.retryCount
    ensures s.retryCount < maxRetries ==>
              r.retries == s.retries + [now + backoff(s.retryCount)] && r.settlement == s.settlement
    ensures s.retryCount >= maxRetries ==>
              r.retries == s.retries && r.settlement == Settle(s.settlement, Rejected(RequestTimeoutError))
  {
    var fired := s.(timer := None);
    if s.retryCount < maxRetries then fired.(retries := s.retries + [now + backoff(s.retryCount)])
    else RejectStep(fired, RequestTimeoutError)
  }

  /**
   * The scheduled retry `k` runs at `now`. It calls `attempt()`, which arms
   * the timeout and then invokes `fn`, and afterwards increments the retry
   * count by one. When `fn` throws, the throw leaves the timer callback
   * before the increment, so the count stays as it was.
   */
  function RetryStep(s: RequestState, k: nat, timeout: nat, now: int, fnThrows: bool): (r: RequestState)
    requires k < |s.retries|
    ensures r.retries == s.retries[..k] + s.retries[k + 1..]
    ensures r.retryCount == if fnThrows then s.retryCount else s.retryCount + 1
    ensures r.timer == Some(now + timeout) && r.calls == s.calls + [now]
    ensures r.settlement == s.settlement
  {
    var ran := AttemptStep(s.(retries := s.retries[..k] + s.retries[k + 1..]), timeout, now);
    if fnThrows then ran else ran.(retryCount := s.retryCount + 1)
  }

  /** A timer firing or a settlement: the events that reach a request once it has been attempted. */
  datatype RequestEvent =
    | TimeoutFires(at: int)
    | RetryRuns(index: nat, at: int, fnThrows: bool)
    | ResolveCall(result: Value)
    | RejectCall(error: Value)

  /**
   * The state after one event. The result is `None` when the event cannot
   * happen in `s`. That is the case for a timeout that is not armed, a
   * timer fired before its deadline, or a retry that is not scheduled.
   */
  function Next(s: RequestState, e: RequestEvent, timeout: nat, maxRetries: nat, backoff: nat -> nat): Option<RequestState>
  {
    match e
    case TimeoutFires(at) =>
      if s.timer.Some? && at >= s.timer.value then Some(TimeoutStep(s, maxRetries, backoff, at)) else None
    case RetryRuns(k, at, fnThrows) =>
      if k < |s.retries| && at >= s.retries[k] then Some(RetryStep(s, k, timeout, at, fnThrows)) else None
    case ResolveCall(v) => Some(ResolveStep(s, v))
    case RejectCall(err) => Some(RejectStep(s, err))
  }

  /** The state after the events in order, or `None` if one of them cannot happen. */
  function Replay(s: RequestState, events: seq<RequestEvent>, timeout: nat, maxRetries: nat, backoff: nat -> nat): Option<RequestState>
    decreases |events|
  {
    if |events| == 0 then Some(s)
    else
      match Next(s, events[0], timeout, maxRetries, backoff)
      case None => None
      case Some(s') => Replay(s', events[1..], timeout, maxRetries, backoff)
  }

  /** No retry in `events` is one where `fn` throws. */
  ghost predicate Returning(events: seq<RequestEvent>) {
    forall k :: 0 <= k < |events| && events[k].RetryRuns? ==> !events[k].fnThrows
  }

  /** Consecutive invocations of `fn` are at least `timeout + backoff(k - 1)` apart. */
  ghost predicate Spaced(calls: seq<int>, timeout: nat, backoff: nat -> nat) {
    forall k :: 0 < k < |calls| ==> calls[k] >= calls[k - 1] + timeout + backoff(k - 1)
  }

  /**
   * The state of a request that was attempted once from outside and has
   * since been driven only by its own timers and by settlements:
   * - one invocation per retry, and at most one timer pending;
   * - an armed timeout is due `timeout` after the last invocation;
   * - a scheduled retry is due at least `timeout + backoff(retryCount)` after it.
   */
  ghost predicate Chained(s: RequestState, timeout: nat, maxRetries: nat, backoff: nat -> nat) {
    && s.retryCount <= maxRetries
    && |s.calls| == s.retryCount + 1
    && |s.retries| <= 1
    && (s.timer.None? || |s.retries| == 0)
    && (s.timer.Some? ==> s.timer.value == s.calls[|s.calls| - 1] + timeout)
    && (|s.retries| == 1 ==>
          s.retryCount < maxRetries && s.retries[0] >= s.calls[|s.calls| - 1] + timeout + backoff(s.retryCount))
    && Spaced(s.calls, timeout, backoff)
  }

  /** The first `attempt()` of a new request starts a chain. */
  lemma FirstAttemptChains(timeout: nat, maxRetries: nat, backoff: nat -> nat, now: int)
    ensures Chained(AttemptStep(NewState(), timeout, now), timeout, maxRetries, backoff)
  {
  }

  /** Every event that can happen keeps a chain a chain. */
  lemma {:induction false} NextKeepsChain(s: RequestState, e: RequestEvent, timeout: nat, maxRetries: nat, backoff: nat -> nat)
    requires Chained(s, timeout, maxRetries, backoff)
    requires Next(s, e, timeout, maxRetries, backoff).Some?
    requires e.RetryRuns? ==> !e.fnThrows
    ensures Chained(Next(s, e, timeout, maxRetries, backoff).value, timeout, maxRetries, backoff)
  {
    match e
    case TimeoutFires(at) =>
    case RetryRuns(k, at, _) =>
      var r := RetryStep(s, k, timeout, at, false);
      assert k == 0 && r.retries == [];
      assert r.calls[|r.calls| - 1] == at;
      forall j | 0 < j < |r.calls|
        ensures r.calls[j] >= r.calls[j - 1] + timeout + backoff(j - 1)
      {
        if j < |s.calls| {
          assert r.calls[j] == s.calls[j] && r.calls[j - 1] == s.calls[j - 1];
        } else {
          assert j == |s.calls| && j - 1 == s.retryCount;
        }
      }
    case ResolveCall(_) =>
    case RejectCall(_) =>
  }

  /** A whole run of events keeps a chain a chain. */
  lemma {:induction false} ReplayKeepsChain(s: RequestState, events: seq<RequestEvent>, timeout: nat, maxRetries: nat, backoff: nat -> nat)
    requires Chained(s, timeout, maxRetries, backoff)
    requires Replay(s, events, timeout, maxRetries, backoff).Some?
    requires Returning(events)
    ensures Chained(Replay(s, events, timeout, maxRetries, backoff).value, timeout, maxRetries, backoff)
    decreases |events|
  {
    if |events| > 0 {
      var n := Next(s, events[0], timeout, maxRetries, backoff);
      NextKeepsChain(s, events[0], timeout, maxRetries, backoff);
      assert forall k :: 0 <= k < |events| - 1 ==> events[1..][k] == events[k + 1];
      ReplayKeepsChain(n.value, events[1..], timeout, maxRetries, backoff);
    }
  }

  /** A run never changes the invocations already made: it only appends to them. */
  lemma {:induction false} ReplayExtendsCalls(s: RequestState, events: seq<RequestEvent>, timeout: nat, maxRetries: nat, backoff: nat -> nat)
    requires Replay(s, events, timeout, maxRetries, backoff).Some?
    ensures s.calls <= Replay(s, events, timeout, maxRetries, backoff).value.calls
    decreases |events|
  {
    if |events| > 0 {
      var n := Next(s, events[0], timeout, maxRetries, backoff);
      ReplayExtendsCalls(n.value, events[1..], timeout, maxRetries, backoff);
    }
  }

  /**
   * A request attempted once at `start` and then left to its timers and to
   * any settlements invokes `fn` at most `maxRetries + 1` times, as long as
   * no retried `fn` throws. The first invocation is at `start`, and the
   * retry that follows invocation `k - 1` comes at least
   * `timeout + backoff(k - 1)` later.
   */
  lemma AttemptBudget(timeout: nat, maxRetries: nat, backoff: nat -> nat, start: int, events: seq<RequestEvent>)
    requires Replay(AttemptStep(NewState(), timeout, start), events, timeout, maxRetries, backoff).Some?
    requires Returning(events)
    ensures var s := Replay(AttemptStep(NewState(), timeout, start), events, timeout, maxRetries, backoff).value;
            && 1 <= |s.calls| <= maxRetries + 1
            && s.calls[0] == start
            && forall k :: 0 < k < |s.calls| ==> s.calls[k] - s.calls[k - 1] >= timeout + backoff(k - 1)
  {
    var first := AttemptStep(NewState(), timeout, start);
    FirstAttemptChains(timeout, maxRetries, backoff, start);
    ReplayKeepsChain(first, events, timeout, maxRetries, backoff);
    ReplayExtendsCalls(first, events, timeout, maxRetries, backoff);
  }

  /**
   * `n` rounds in which the armed timeout fires on time and the retry it
   * schedules runs on time with an `fn` that throws, starting from an
   * invocation at `from` with retry count `count`.
   */
  function ThrowingRounds(from: int, count: nat, timeout: nat, backoff: nat -> nat, n: nat): seq<RequestEvent>
    decreases n
  {
    if n == 0 then []
    else
      var next := from + timeout + backoff(count);
      [TimeoutFires(from + timeout), RetryRuns(0, next, true)] + ThrowingRounds(next, count, timeout, backoff, n - 1)
  }

  /** Every throwing round invokes `fn` once more and leaves the retry count where it was. */
  lemma {:induction false} ThrowingRoundsReplay(s: RequestState, timeout: nat, maxRetries: nat, backoff: nat -> nat, n: nat)
    requires |s.calls| >= 1 && s.retryCount < maxRetries && s.retries == []
    requires s.timer == Some(s.calls[|s.calls| - 1] + timeout)
    ensures var r := Replay(s, ThrowingRounds(s.calls[|s.calls| - 1], s.retryCount, timeout, backoff, n), timeout, maxRetries, backoff);
            && r.Some? && |r.value.calls| == |s.calls| + n && r.value.retryCount == s.retryCount
            && r.value.settlement == s.settlement
    decreases n
  {
    if n > 0 {
      var from := s.calls[|s.calls| - 1];
      var next := from + timeout + backoff(s.retryCount);
      var fired := TimeoutStep(s, maxRetries, backoff, from + timeout);
      var ran := RetryStep(fired, 0, timeout, next, true);
      var rounds := ThrowingRounds(from, s.retryCount, timeout, backoff, n);
      var rest := ThrowingRounds(next, s.retryCount, timeout, backoff, n - 1);
      assert rounds[0] == TimeoutFires(from + timeout);
      assert Next(s, rounds[0], timeout, maxRetries, backoff) == Some(fired);
      assert rounds[1..][0] == RetryRuns(0, next, true);
      assert Next(fired, rounds[1..][0], timeout, maxRetries, backoff) == Some(ran);
      assert rounds[1..][1..] == rest;
      assert ran.calls[|ran.calls| - 1] == next;
      ThrowingRoundsReplay(ran, timeout, maxRetries, backoff, n - 1);
    }
  }

  /**
   * When the retried `fn` keeps throwing, the budget bounds nothing: a new
   * request with at least one retry, attempted at `start`, invokes `fn`
   * `n + 1` times over `n` rounds for every `n`, and its count never moves
   * off 0.
   */
  lemma ThrowingRetriesUnbounded(timeout: nat, maxRetries: nat, backoff: nat -> nat, start: int, n: nat)
    requires maxRetries >= 1
    ensures var r := Replay(AttemptStep(NewState(), timeout, start), ThrowingRounds(start, 0, timeout, backoff, n), timeout, maxRetries, backoff);
            && r.Some? && |r.value.calls| == n + 1 && r.value.retryCount == 0 && r.value.settlement.Pending?
  {
    ThrowingRoundsReplay(AttemptStep(NewState(), timeout, start), timeout, maxRetries, backoff, n);
  }

  /**
   * Once the retry budget is spent, the next timeout rejects a pending
   * request with REQUEST_TIMEOUT_ERROR. Before that, a timeout only
   * schedules a retry.
   */
  lemma TimeoutOutcome(s: RequestState, timeout: nat, maxRetries: nat, backoff: nat -> nat, at: int)
    requires Chained(s, timeout, maxRetries, backoff) && s.settlement.Pending?
    requires s.timer.Some? && at >= s.timer.value
    ensures var r := TimeoutStep(s, maxRetries, backoff, at);
            && (s.retryCount == maxRetries ==> r.settlement == Rejected(RequestTimeoutError) && r.retries == [])
            && (s.retryCount < maxRetries ==> r.settlement.Pending? && r.retries == [at + backoff(s.retryCount)])
  {
  }

  /**
   * Settling a request does not cancel a retry that is already scheduled.
   * When it runs, `fn` is invoked once more and a new timeout is armed.
   */
  lemma SettledRequestStillRetries(s: RequestState, result: Value, timeout: nat, at: int)
    requires |s.retries| == 1 && at >= s.retries[0]
    ensures var settled := ResolveStep(s, result);
            && settled.retries == s.retries
            && RetryStep(settled, 0, timeout, at, false).calls == s.calls + [at]
            && RetryStep(settled, 0, timeout, at, false).timer == Some(at + timeout)
  {
  }

  /** The options of `new Request(fn, options)`. `None` stands for an option left `undefined`. */
  datatype RequestOptions = RequestOptions(
    id: Option<Value>,
    timeout: Option<nat>,
    maxRetries: Option<nat>,
    backoff: Option<nat -> nat>)

  /** An option's value, or its default when it is left `undefined`. */
  function OrElse<T>(o: Option<T>, default: T): (v: T)
    ensures o.Some? ==> v == o.value
    ensures o.None? ==> v == default
  {
    if o.Some? then o.value else default
  }

  /** The property key a value is stored under in a plain object. */
  function Key(id: Value): string {
    ToString(id)
  }

  class Request {
    const id: Value
    const fn: Value
    const timeout: nat
    const maxRetries: nat
    const backoff: nat -> nat
    /** The manager whose table erases this request once it settles, if any. */
    const owner: RequestManager?

    var retryCount: nat
    var timer: Option<int>
    var retries: seq<int>
    var settlement: Settlement
    var calls: seq<int>

    function State(): RequestState
      reads this
    {
      RequestState(retryCount, timer, retries, settlement, calls)
    }

    /** The part of the constructor after its check that `fn` is a function. */
    constructor (fn: Value, id: Value, timeout: nat, maxRetries: nat, backoff: nat -> nat, owner: RequestManager?)
      requires IsFunction(fn)
      ensures this.fn == fn && this.id == id && this.owner == owner
      ensures this.timeout == timeout && this.maxRetries == maxRetries && this.backoff == backoff
      ensures State() == NewState()
    {
      this.fn := fn;
      this.id := id;
      this.timeout := timeout;
      this.maxRetries := maxRetries;
      this.backoff := backoff;
      this.owner := owner;
      retryCount := 0;
      timer := None;
      retries := [];
      settlement := Pending;
      calls := [];
    }

    /**
     * `new Request(fn, options)` throws an Error naming `fn` when `fn` is
     * not a function. Otherwise it builds a request with every option left
     * `undefined` set to its default: a fresh id, a 1000 ms timeout, no
     * retries, and the default exponential backoff.
     */
    static method Create(fn: Value, options: RequestOptions, freshId: string, owner: RequestManager?) returns (r: Result<Request, Value>)
      ensures r.Fail? <==> !IsFunction(fn)
      ensures r.Fail? ==> r.error == PlainError("Invalid request function " + ToString(fn))
      ensures r.Ok? ==> fresh(r.value) && r.value.fn == fn && r.value.owner == owner && r.value.State() == NewState()
      ensures r.Ok? ==> r.value.id == OrElse(options.id, Str(freshId))
      ensures r.Ok? ==> r.value.timeout == OrElse(options.timeout, DefaultTimeout)
      ensures r.Ok? ==> r.value.maxRetries == OrElse(options.maxRetries, DefaultRetryAttempts)
      ensures r.Ok? ==> r.value.backoff == OrElse(options.backoff, Backoff.DefaultExponential)
    {
      if !IsFunction(fn) {
        return Fail(PlainError("Invalid request function " + ToString(fn)));
      }
      var request := new Request(fn, OrElse(options.id, Str(freshId)), OrElse(options.timeout, DefaultTimeout),
                                 OrElse(options.maxRetries, DefaultRetryAttempts),
                                 OrElse(options.backoff, Backoff.DefaultExponential), owner);
      return Ok(request);
    }

    /** `attempt()` at time `now`. The value `fn` returns is passed back unmodelled. */
    method Attempt(now: int)
      modifies this
      ensures State() == AttemptStep(old(State()), timeout, now)
    {
      timer := Some(now + timeout);
      calls := calls + [now];
    }

    /** The armed timeout of a request no manager tracks fires at `now`. */
    method FireTimeout(now: int)
      requires owner == null
      requires timer.Some? && now >= timer.value
      modifies this
      ensures State() == TimeoutStep(old(State()), maxRetries, backoff, now)
    {
      timer := None;
      if retryCount < maxRetries {
        retries := retries + [now + backoff(retryCount)];
      } else {
        settlement := Settle(settlement, Rejected(RequestTimeoutError));
      }
    }

    /** The scheduled retry `k` runs at `now`; `fnThrows` says whether `fn` throws this time. */
    method FireRetry(k: nat, now: int, fnThrows: bool)
      requires k < |retries| && now >= retries[k]
      modifies this
      ensures State() == RetryStep(old(State()), k, timeout, now, fnThrows)
    {
      retries := retries[..k] + retries[k + 1..];
      Attempt(now);
      if fnThrows {
        return;
      }
      retryCount := retryCount + 1;
    }

    /** `resolve(result)` on a request no manager tracks. */
    method Resolve(result: Value)
      requires owner == null
      modifies this
      ensures State() == ResolveStep(old(State()), result)
    {
      timer := None;
      settlement := Settle(settlement, Resolved(result));
    }

    /** `reject(error)` on a request no manager tracks. */
    method Reject(error: Value)
      requires owner == null
      modifies this
      ensures State() == RejectStep(old(State()), error)
    {
      timer := None;
      settlement := Settle(settlement, Rejected(error));
    }
  }

  /**
   * The effective timeout of `createRequest`. An explicit option wins and
   * the manager's timeout is next. When both are `undefined`, the Request
   * default of 1000 ms applies.
   */
  function TimeoutFor(requested: Option<nat>, managerTimeout: Option<nat>): (t: nat)
    ensures requested.Some? ==> t == requested.value
    ensures requested.None? && managerTimeout.Some? ==> t == managerTimeout.value
    ensures requested.None? && managerTimeout.None? ==> t == DefaultTimeout
  {
    OrElse(requested, OrElse(managerTimeout, DefaultTimeout))
  }

  /**
   * The manager's `timeout` as written in src/client.js and
   * src/intercomm.js. Both pass `{defaultRequestTimeout}`, and the
   * RequestManager reads `timeout`, which is therefore always `undefined`.
   */
  function ManagerTimeoutAsWritten(defaultRequestTimeout: nat): (t: Option<nat>)
    ensures t.None?
  {
    None
  }

  /** As written, a client or intercomm built with a 500 ms request timeout gives its requests the Request default of 1000 ms. */
  lemma RequestTimeoutOptionIgnored()
    ensures TimeoutFor(None, ManagerTimeoutAsWritten(500)) == 1000
  {
  }

  /** The manager's `timeout` as evidently intended: the caller's `defaultRequestTimeout`. */
  function ManagerTimeout(defaultRequestTimeout: nat): (t: Option<nat>)
    ensures t.Some? && TimeoutFor(None, t) == defaultRequestTimeout
    ensures forall requested :: TimeoutFor(Some(requested), t) == requested
  {
    Some(defaultRequestTimeout)
  }

  /** With the timeout passed as intended, a request created without its own timeout gets the caller's. */
  lemma RequestTimeoutOptionApplies(defaultRequestTimeout: nat)
    ensures TimeoutFor(None, ManagerTimeout(defaultRequestTimeout)) == defaultRequestTimeout
  {
  }

  class RequestManager {
    /** The `timeout` option, which may be `undefined`. */
    const timeout: Option<nat>
    const maxRetries: nat
    /** `sentRequests`, keyed by the property key of each request's id. */
    var sentRequests: map<string, Request>

    /**
     * Every entry is stored under the key of its own id, was created by
     * this manager, and is still pending: a settled request has been erased.
     */
    ghost predicate Valid()
      reads this, sentRequests.Values
    {
      forall k {:trigger sentRequests[k]} :: k in sentRequests ==>
        var r := sentRequests[k];
        Key(r.id) == k && r.owner == this && r.settlement.Pending?
    }

    /** `new RequestManager({timeout, timeoutMaxRetryAttempts})`: the retry budget defaults to 5. */
    constructor (timeout: Option<nat>, maxRetries: Option<nat>)
      ensures this.timeout == timeout && this.maxRetries == OrElse(maxRetries, ManagerRetryAttempts)
      ensures sentRequests == map[] && Valid()
    {
      this.timeout := timeout;
      this.maxRetries := OrElse(maxRetries, ManagerRetryAttempts);
      sentRequests := map[];
    }

    /**
     * `createRequest(fn, options)`. The timeout and the retry budget default
     * to the manager's. The other options are passed to the Request. The
     * new request is registered under its id and replaces an entry with
     * that id. When `fn` is not a function, the Request constructor throws
     * and the table is unchanged.
     */
    method CreateRequest(fn: Value, options: RequestOptions, freshId: string) returns (r: Result<Request, Value>)
      requires Valid()
      modifies this
      ensures Valid()
      ensures r.Fail? <==> !IsFunction(fn)
      ensures r.Fail? ==> r.error == PlainError("Invalid request function " + ToString(fn)) && sentRequests == old(sentRequests)
      ensures r.Ok? ==> fresh(r.value) && r.value.fn == fn && r.value.owner == this && r.value.State() == NewState()
      ensures r.Ok? ==> r.value.id == OrElse(options.id, Str(freshId))
      ensures r.Ok? ==> r.value.timeout == TimeoutFor(options.timeout, timeout)
      ensures r.Ok? ==> r.value.maxRetries == OrElse(options.maxRetries, maxRetries)
      ensures r.Ok? ==> r.value.backoff == OrElse(options.backoff, Backoff.DefaultExponential)
      ensures r.Ok? ==> sentRequests == old(sentRequests)[Key(r.value.id) := r.value]
    {
      var merged := options.(timeout := Some(TimeoutFor(options.timeout, timeout)),
                             maxRetries := Some(OrElse(options.maxRetries, maxRetries)));
      r := Request.Create(fn, merged, freshId, this);
      if r.Ok? {
        sentRequests := sentRequests[Key(r.value.id) := r.value];
      }
    }

    /** `getRequest(requestId)`: the registered request, or `undefined`. */
    method GetRequest(requestId: Value) returns (r: Option<Request>)
      ensures r.Some? <==> Key(requestId) in sentRequests
      ensures r.Some? ==> r.value == sentRequests[Key(requestId)]
    {
      var key := Key(requestId);
      if key in sentRequests {
        return Some(sentRequests[key]);
      }
      return None;
    }

    /**
     * `request.resolve(result)` on a request this manager created. The
     * first settlement erases the entry under the request's id, and the
     * entry goes even when a newer request with the same id holds it.
     */
    method Resolve(r: Request, result: Value)
      requires Valid() && r.owner == this
      modifies this, r
      ensures Valid()
      ensures r.State() == ResolveStep(old(r.State()), result)
      ensures sentRequests == if old(r.settlement).Pending? then old(sentRequests) - {Key(r.id)} else old(sentRequests)
    {
      var wasPending := r.settlement.Pending?;
      r.timer := None;
      r.settlement := Settle(r.settlement, Resolved(result));
      if wasPending {
        sentRequests := sentRequests - {Key(r.id)};
      }
    }

    /** `request.reject(error)` on a request this manager created, with the same erasure as `Resolve`. */
    method Reject(r: Request, error: Value)
      requires Valid() && r.owner == this
      modifies this, r
      ensures Valid()
      ensures r.State() == RejectStep(old(r.State()), error)
      ensures sentRequests == if old(r.settlement).Pending? then old(sentRequests) - {Key(r.id)} else old(sentRequests)
    {
      var wasPending := r.settlement.Pending?;
      r.timer := None;
      r.settlement := Settle(r.settlement, Rejected(error));
      if wasPending {
        sentRequests := sentRequests - {Key(r.id)};
      }
    }

    /** The armed timeout of a request this manager created fires at `now`. A rejection erases its entry. */
    method FireTimeout(r: Request, now: int)
      requires Valid() && r.owner == this
      requires r.timer.Some? && now >= r.timer.value
      modifies this, r
      ensures Valid()
      ensures r.State() == TimeoutStep(old(r.State()), r.maxRetries, r.backoff, now)
      ensures sentRequests ==
                if old(r.settlement).Pending? && old(r.retryCount) >= r.maxRetries
                then old(sentRequests) - {Key(r.id)} else old(sentRequests)
    {
      var wasPending := r.settlement.Pending?;
      r.timer := None;
      if r.retryCount < r.maxRetries {
        r.retries := r.retries + [now + r.backoff(r.retryCount)];
      } else {
        r.settlement := Settle(r.settlement, Rejected(RequestTimeoutError));
        if wasPending {
          sentRequests := sentRequests - {Key(r.id)};
        }
      }
    }
  }
}
