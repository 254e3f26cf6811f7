/**
 * The Task of src/task.js: one retryable, cancellable unit of work.
 *
 * The mutable part of a Task (status, attempt count, attempt records,
 * outcome and the events it has emitted) is captured by the value
 * `TaskState`; each operation is a pure step on that value, and the `Task`
 * class performs the same step on its fields. Emitted events are kept as an
 * ordered list instead of being delivered to EventEmitter listeners.
 */
module Tasks {
  import opened Wrappers
  import opened Js
  import opened Backoff

  datatype Status = Idle | InProgress | Resolved | Rejected

  predicate IsTerminal(s: Status) {
    s == Resolved || s == Rejected
  }

  /** One entry of `task.attempts`: its number and the time it was made. */
  datatype AttemptRecord = AttemptRecord(number: nat, time: int)

  /** The notifications a Task emits, in emission order. */
  datatype TaskEvent =
    | AttemptEvent(number: nat)
    | ResolvedEvent(result: Value)
    | RejectedEvent(error: Value)
    | FinishedEvent

  datatype TaskState = TaskState(
    status: Status,
    attemptCount: nat,
    attempts: seq<AttemptRecord>,
    result: Value,
    error: Value,
    events: seq<TaskEvent>)

  /** What `task.promise` settles to: nothing yet, the result, or the error. */
  datatype Completion = Pending | Fulfilled(value: Value) | Failed(reason: Value)

  /** The new state and whether the call threw. */
  datatype Step = Step(state: TaskState, outcome: Outcome<Value>)

  const TimeoutError := Tagged("TIMEOUT_ERROR")
  const MaxAttemptsReachedError := Tagged("MAX_ATTEMPTS_REACHED_ERROR")
  const TaskDroppedError := Tagged("TASK_DROPPED_ERROR")
  const CannotAttempt := PlainError("Task cannot be attempted from current status")
  const CannotResolve := PlainError("Task cannot be resolved from current status")
  const CannotReject := PlainError("Task cannot be rejected from current status")

  /** The state of a freshly constructed Task. */
  const NewState := TaskState(Idle, 0, [], Undefined, Undefined, [])

  /**
   * The Task invariant: one record per attempt, numbered from zero, never
   * more than `maxAttempts`, and an in-progress task has been attempted.
   */
  ghost predicate WellFormed(s: TaskState, maxAttempts: nat) {
    && s.attemptCount == |s.attempts|
    && s.attemptCount <= maxAttempts
    && (forall i :: 0 <= i < |s.attempts| ==> s.attempts[i].number == i)
    && (s.status == InProgress ==> s.attemptCount > 0)
  }

  function CompletionOf(s: TaskState): (c: Completion)
    ensures c.Pending? <==> !IsTerminal(s.status)
    ensures c.Fulfilled? <==> s.status == Resolved
  {
    match s.status
    case Resolved => Fulfilled(s.result)
    case Rejected => Failed(s.error)
    case _ => Pending
  }

  /**
   * `resolve(result)`: from a non-terminal status, settle with `result` and
   * emit `resolved(result)` then `finished`; from a terminal status, throw
   * and change nothing.
   */
  function ResolveStep(s: TaskState, result: Value): (r: Step)
    ensures IsTerminal(s.status) ==> r == Step(s, Throw(CannotResolve))
    ensures !IsTerminal(s.status) ==>
      && r.outcome == Pass
      && CompletionOf(r.state) == Fulfilled(result)
      && r.state.events == s.events + [ResolvedEvent(result), FinishedEvent]
      && r.state.attempts == s.attempts && r.state.attemptCount == s.attemptCount
      && r.state.error == s.error
  {
    if IsTerminal(s.status) then Step(s, Throw(CannotResolve))
    else Step(s.(status := Resolved, result := result,
                 events := s.events + [ResolvedEvent(result), FinishedEvent]), Pass)
  }

  /** `reject(error)`: the mirror image of `resolve`. */
  function RejectStep(s: TaskState, error: Value): (r: Step)
    ensures IsTerminal(s.status) ==> r == Step(s, Throw(CannotReject))
    ensures !IsTerminal(s.status) ==>
      && r.outcome == Pass
      && CompletionOf(r.state) == Failed(error)
      && r.state.events == s.events + [RejectedEvent(error), FinishedEvent]
      && r.state.attempts == s.attempts && r.state.attemptCount == s.attemptCount
      && r.state.result == s.result
  {
    if IsTerminal(s.status) then Step(s, Throw(CannotReject))
    else Step(s.(status := Rejected, error := error,
                 events := s.events + [RejectedEvent(error), FinishedEvent]), Pass)
  }

  /**
   * `attempt()` at time `now`: throws from a terminal status; with attempts
   * left, becomes in-progress, emits the attempt number (the old count),
   * records the attempt and counts it; with none left, rejects with
   * MAX_ATTEMPTS_REACHED_ERROR.
   */
  function AttemptStep(s: TaskState, maxAttempts: nat, now: int): (r: Step)
    ensures IsTerminal(s.status) ==> r == Step(s, Throw(CannotAttempt))
    ensures !IsTerminal(s.status) && s.attemptCount < maxAttempts ==>
      && r.outcome == Pass
      && r.state.status == InProgress
      && r.state.attemptCount == s.attemptCount + 1
      && r.state.attempts == s.attempts + [AttemptRecord(s.attemptCount, now)]
      && r.state.events == s.events + [AttemptEvent(s.attemptCount)]
    ensures !IsTerminal(s.status) && s.attemptCount >= maxAttempts ==>
      r == RejectStep(s, MaxAttemptsReachedError)
  {
    if IsTerminal(s.status) then Step(s, Throw(CannotAttempt))
    else if s.attemptCount < maxAttempts then
      Step(s.(status := InProgress,
              attemptCount := s.attemptCount + 1,
              attempts := s.attempts + [AttemptRecord(s.attemptCount, now)],
              events := s.events + [AttemptEvent(s.attemptCount)]), Pass)
    else RejectStep(s, MaxAttemptsReachedError)
  }

  /**
   * `cancel(error)`: nothing once terminal; otherwise rejects with `error` if
   * it is an Error, and resolves with `undefined` if not (`cancel()` passes
   * `null`).
   */
  function CancelStep(s: TaskState, error: Value): (r: TaskState)
    ensures IsTerminal(s.status) ==> r == s
    ensures !IsTerminal(s.status) && IsError(error) ==> r == RejectStep(s, error).state
    ensures !IsTerminal(s.status) && !IsError(error) ==> r == ResolveStep(s, Undefined).state
  {
    if IsTerminal(s.status) then s
    else if IsError(error) then RejectStep(s, error).state
    else ResolveStep(s, Undefined).state
  }

  function LastAttemptTime(s: TaskState): int
    requires |s.attempts| > 0
  {
    s.attempts[|s.attempts| - 1].time
  }

  /**
   * `processTask(task, {now, backoff})`, the timeout sweep for one task:
   * an in-progress task whose last attempt is at least `timeout` old is
   * attempted again if attempts remain and `timeout + backoff(retry)` has
   * also elapsed (retry = number of attempts - 1), and is rejected with
   * TIMEOUT_ERROR if none remain. Every other task is left as it is. A
   * delay that is `undefined` (an empty delay list) makes the comparison
   * false, so no retry happens.
   */
  function ProcessStep(s: TaskState, maxAttempts: nat, timeout: nat, backoff: BackoffOption, now: int): (r: TaskState)
    ensures r == s || r == AttemptStep(s, maxAttempts, now).state || r == RejectStep(s, TimeoutError).state
    ensures s.status != InProgress ==> r == s
    ensures r != s ==> |s.attempts| > 0 && now - LastAttemptTime(s) >= timeout
    ensures backoff == DelayList([]) && s.attemptCount < maxAttempts ==> r == s
  {
    if s.status != InProgress || |s.attempts| == 0 then s
    else
      var elapsed := now - LastAttemptTime(s);
      if elapsed < timeout then s
      else if s.attemptCount < maxAttempts then
        match Delay(backoff, |s.attempts| - 1)
        case Some(d) => if elapsed >= timeout + d then AttemptStep(s, maxAttempts, now).state else s
        case None => s
      else RejectStep(s, TimeoutError).state
  }

  // ---------------------------------------------------------------------
  // Properties of the step functions

  /** Every step keeps the Task invariant. */
  lemma {:induction false} StepsKeepWellFormed(s: TaskState, maxAttempts: nat, timeout: nat, backoff: BackoffOption, now: int, v: Value)
    requires WellFormed(s, maxAttempts)
    ensures WellFormed(AttemptStep(s, maxAttempts, now).state, maxAttempts)
    ensures WellFormed(ResolveStep(s, v).state, maxAttempts)
    ensures WellFormed(RejectStep(s, v).state, maxAttempts)
    ensures WellFormed(CancelStep(s, v), maxAttempts)
    ensures WellFormed(ProcessStep(s, maxAttempts, timeout, backoff, now), maxAttempts)
  {
  }

  /**
   * Once a Task is resolved or rejected, `attempt`, `resolve` and `reject`
   * throw, and no operation changes its state or what its promise settles to.
   */
  lemma {:induction false} TerminalIsFinal(s: TaskState, maxAttempts: nat, timeout: nat, backoff: BackoffOption, now: int, v: Value)
    requires IsTerminal(s.status)
    ensures AttemptStep(s, maxAttempts, now) == Step(s, Throw(CannotAttempt))
    ensures ResolveStep(s, v) == Step(s, Throw(CannotResolve))
    ensures RejectStep(s, v) == Step(s, Throw(CannotReject))
    ensures CancelStep(s, v) == s
    ensures ProcessStep(s, maxAttempts, timeout, backoff, now) == s
  {
  }

  /** The attempt numbers 0, 1, ..., n - 1 as emitted events. */
  function AttemptEvents(n: nat): (es: seq<TaskEvent>)
    ensures |es| == n
    ensures forall i :: 0 <= i < n ==> es[i] == AttemptEvent(i)
  {
    if n == 0 then [] else AttemptEvents(n - 1) + [AttemptEvent(n - 1)]
  }

  /** `attempt()` called once at each of the given times, stopping at the first throw. */
  function AttemptAll(s: TaskState, maxAttempts: nat, times: seq<int>): TaskState
    decreases |times|
  {
    if |times| == 0 then s
    else
      var r := AttemptStep(s, maxAttempts, times[0]);
      if r.outcome.Throw? then s else AttemptAll(r.state, maxAttempts, times[1..])
  }

  /**
   * Attempting a fresh Task k <= maxAttempts times emits attempt numbers
   * 0 .. k-1 in order, records each attempt with its time, and leaves it
   * in progress (idle if k = 0).
   */
  lemma {:induction false} AttemptsWithinLimit(maxAttempts: nat, times: seq<int>)
    requires |times| <= maxAttempts
    ensures AttemptAll(NewState, maxAttempts, times).attemptCount == |times|
    ensures AttemptAll(NewState, maxAttempts, times).events == AttemptEvents(|times|)
    ensures AttemptAll(NewState, maxAttempts, times).attempts
         == seq(|times|, i requires 0 <= i < |times| => AttemptRecord(i, times[i]))
    ensures AttemptAll(NewState, maxAttempts, times).status == (if |times| == 0 then Idle else InProgress)
  {
    AttemptsFrom(NewState, maxAttempts, times);
    RecordsFrom(NewState, maxAttempts, times);
    RecordsAt(0, times);
    assert NewState.attempts + Records(0, times) == Records(0, times);
  }

  /** The attempt records for `times`, numbered from `start`. */
  function Records(start: nat, times: seq<int>): (rs: seq<AttemptRecord>)
    ensures |rs| == |times|
    decreases |times|
  {
    if |times| == 0 then [] else [AttemptRecord(start, times[0])] + Records(start + 1, times[1..])
  }

  /** Record `i` of `Records(start, times)` is attempt `start + i` at `times[i]`. */
  lemma {:induction false} RecordsAt(start: nat, times: seq<int>)
    ensures forall i :: 0 <= i < |times| ==> Records(start, times)[i] == AttemptRecord(start + i, times[i])
    decreases |times|
  {
    if |times| > 0 {
      RecordsAt(start + 1, times[1..]);
      assert forall i :: 1 <= i < |times| ==> Records(start, times)[i] == Records(start + 1, times[1..])[i - 1];
    }
  }

  /** A non-terminal state whose attempts and events are exactly those of its attempts so far. */
  ghost predicate Counting(s: TaskState) {
    && !IsTerminal(s.status)
    && s.attemptCount == |s.attempts|
    && s.events == AttemptEvents(s.attemptCount)
    && (forall i :: 0 <= i < |s.attempts| ==> s.attempts[i].number == i)
  }

  /** One attempt with attempts left keeps the state counting and records itself. */
  lemma {:induction false} AttemptCounts(s: TaskState, maxAttempts: nat, now: int)
    requires Counting(s) && s.attemptCount < maxAttempts
    ensures AttemptStep(s, maxAttempts, now).outcome == Pass
    ensures Counting(AttemptStep(s, maxAttempts, now).state)
    ensures AttemptStep(s, maxAttempts, now).state.attemptCount == s.attemptCount + 1
    ensures AttemptStep(s, maxAttempts, now).state.attempts == s.attempts + [AttemptRecord(s.attemptCount, now)]
    ensures AttemptStep(s, maxAttempts, now).state.status == InProgress
  {
    var r := AttemptStep(s, maxAttempts, now).state;
    assert r.events == AttemptEvents(s.attemptCount) + [AttemptEvent(s.attemptCount)];
    forall i | 0 <= i < |r.attempts|
      ensures r.attempts[i].number == i
    {
      if i < |s.attempts| {
        assert r.attempts[i] == s.attempts[i];
      }
    }
  }

  /** The induction behind AttemptsWithinLimit, from any counting state: counts and status. */
  lemma {:induction false} AttemptsFrom(s: TaskState, maxAttempts: nat, times: seq<int>)
    requires Counting(s) && s.attemptCount + |times| <= maxAttempts
    ensures Counting(AttemptAll(s, maxAttempts, times))
    ensures AttemptAll(s, maxAttempts, times).attemptCount == s.attemptCount + |times|
    ensures AttemptAll(s, maxAttempts, times).status == (if |times| == 0 then s.status else InProgress)
    decreases |times|
  {
    if |times| > 0 {
      AttemptCounts(s, maxAttempts, times[0]);
      AttemptsFrom(AttemptStep(s, maxAttempts, times[0]).state, maxAttempts, times[1..]);
    }
  }

  /** The induction behind AttemptsWithinLimit, from any counting state: the records. */
  lemma {:induction false} RecordsFrom(s: TaskState, maxAttempts: nat, times: seq<int>)
    requires Counting(s) && s.attemptCount + |times| <= maxAttempts
    ensures AttemptAll(s, maxAttempts, times).attempts == s.attempts + Records(s.attemptCount, times)
    decreases |times|
  {
    if |times| > 0 {
      AttemptCounts(s, maxAttempts, times[0]);
      RecordsFrom(AttemptStep(s, maxAttempts, times[0]).state, maxAttempts, times[1..]);
      var first, tail := AttemptRecord(s.attemptCount, times[0]), Records(s.attemptCount + 1, times[1..]);
      assert Records(s.attemptCount, times) == [first] + tail;
      assert s.attempts + [first] + tail == s.attempts + ([first] + tail);
    }
  }



  /**
   * The attempt after the last allowed one does not throw: it rejects the
   * Task with MAX_ATTEMPTS_REACHED_ERROR and leaves the count at maxAttempts.
   */
  lemma {:induction false} AttemptBeyondLimitRejects(maxAttempts: nat, times: seq<int>, late: int)
    requires |times| == maxAttempts
    ensures AttemptStep(AttemptAll(NewState, maxAttempts, times), maxAttempts, late).outcome == Pass
    ensures AttemptStep(AttemptAll(NewState, maxAttempts, times), maxAttempts, late).state.status == Rejected
    ensures AttemptStep(AttemptAll(NewState, maxAttempts, times), maxAttempts, late).state.error == MaxAttemptsReachedError
    ensures AttemptStep(AttemptAll(NewState, maxAttempts, times), maxAttempts, late).state.attemptCount == maxAttempts
  {
    AttemptsWithinLimit(maxAttempts, times);
  }

  /** A sweep never attempts a task before `timeout + backoff(retry)` has elapsed since its last attempt. */
  lemma {:induction false} RetryOnlyAfterTimeoutPlusBackoff(s: TaskState, maxAttempts: nat, timeout: nat, backoff: BackoffOption, now: int)
    requires WellFormed(s, maxAttempts)
    requires ProcessStep(s, maxAttempts, timeout, backoff, now).attemptCount > s.attemptCount
    ensures s.status == InProgress && s.attemptCount < maxAttempts
    ensures Delay(backoff, s.attemptCount - 1).Some?
    ensures now - LastAttemptTime(s) >= timeout + Delay(backoff, s.attemptCount - 1).value
    ensures ProcessStep(s, maxAttempts, timeout, backoff, now) == AttemptStep(s, maxAttempts, now).state
  {
  }

  /** Once `timeout + backoff(retry)` has elapsed and attempts remain, the sweep does attempt. */
  lemma {:induction false} RetryOnceBackoffElapsed(s: TaskState, maxAttempts: nat, timeout: nat, backoff: BackoffOption, now: int, d: nat)
    requires WellFormed(s, maxAttempts)
    requires s.status == InProgress && s.attemptCount < maxAttempts
    requires Delay(backoff, s.attemptCount - 1) == Some(d)
    requires now - LastAttemptTime(s) >= timeout + d
    ensures ProcessStep(s, maxAttempts, timeout, backoff, now).attemptCount == s.attemptCount + 1
    ensures ProcessStep(s, maxAttempts, timeout, backoff, now).attempts == s.attempts + [AttemptRecord(s.attemptCount, now)]
    ensures ProcessStep(s, maxAttempts, timeout, backoff, now).status == InProgress
  {
  }

  /**
   * With attempts exhausted, the sweep rejects with TIMEOUT_ERROR exactly
   * when the timeout has elapsed, and never changes the attempt count.
   */
  lemma {:induction false} TimeoutWhenExhausted(s: TaskState, maxAttempts: nat, timeout: nat, backoff: BackoffOption, now: int)
    requires WellFormed(s, maxAttempts)
    requires s.status == InProgress && s.attemptCount == maxAttempts
    ensures ProcessStep(s, maxAttempts, timeout, backoff, now).attemptCount == s.attemptCount
    ensures ProcessStep(s, maxAttempts, timeout, backoff, now).status == Rejected
        <==> now - LastAttemptTime(s) >= timeout
    ensures now - LastAttemptTime(s) >= timeout ==>
              CompletionOf(ProcessStep(s, maxAttempts, timeout, backoff, now)) == Failed(TimeoutError)
    ensures now - LastAttemptTime(s) < timeout ==> ProcessStep(s, maxAttempts, timeout, backoff, now) == s
  {
  }

  /** A task that is not in progress, or whose timeout has not elapsed, is untouched by the sweep. */
  lemma {:induction false} SweepLeavesOthersAlone(s: TaskState, maxAttempts: nat, timeout: nat, backoff: BackoffOption, now: int)
    requires WellFormed(s, maxAttempts)
    requires s.status != InProgress || now - LastAttemptTime(s) < timeout
    ensures ProcessStep(s, maxAttempts, timeout, backoff, now) == s
  {
  }

  /** Timeout 100, one attempt at time 0: a sweep at time 100 rejects with TIMEOUT_ERROR, keeping one attempt. */
  lemma {:induction false} SweepScenarioSingleAttempt()
    ensures var s := AttemptStep(NewState, 1, 0).state;
            var p := ProcessStep(s, 1, 100, DefaultBackoff(), 100);
            |p.attempts| == 1 && p.status == Rejected && p.error == TimeoutError
  {
  }

  /** Timeout 100, two attempts, backoff 0: a sweep at 100 retries, one at 200 rejects with TIMEOUT_ERROR. */
  lemma {:induction false} SweepScenarioImmediateBackoff()
    ensures var s0 := AttemptStep(NewState, 2, 0).state;
            var s1 := ProcessStep(s0, 2, 100, FixedDelay(0), 100);
            var s2 := ProcessStep(s1, 2, 100, FixedDelay(0), 200);
            && |s1.attempts| == 2 && s1.status == InProgress
            && |s2.attempts| == 2 && s2.status == Rejected && s2.error == TimeoutError
  {
  }

  /**
   * Timeout 100, two attempts, backoff 100: a sweep at 100 does nothing, one
   * at 200 retries, one at 300 rejects with TIMEOUT_ERROR after two attempts.
   */
  lemma {:induction false} SweepScenarioFixedBackoff()
    ensures var s0 := AttemptStep(NewState, 2, 0).state;
            var s1 := ProcessStep(s0, 2, 100, FixedDelay(100), 100);
            var s2 := ProcessStep(s1, 2, 100, FixedDelay(100), 200);
            var s3 := ProcessStep(s2, 2, 100, FixedDelay(100), 300);
            && s1 == s0
            && |s2.attempts| == 2 && s2.status == InProgress
            && |s3.attempts| == 2 && s3.status == Rejected && s3.error == TimeoutError
  {
  }

  // ---------------------------------------------------------------------
  // Rejection reaching the dependents

  /** The dependents' states after a `rejected` emission, and whether a listener threw. */
  datatype Notified = Notified(dependents: seq<TaskState>, outcome: Outcome<Value>)

  /**
   * The `rejected` listeners that the dependents `ds` attached to a task, in
   * the order they attached them, called with `error`: each dependent
   * rejects with the same error. A dependent that is already resolved or
   * rejected throws, and the throw ends the emission, so the dependents
   * after it are not reached.
   */
  function NotifyDependents(ds: seq<TaskState>, error: Value): (r: Notified)
    ensures |r.dependents| == |ds|
    decreases |ds|
  {
    if |ds| == 0 then Notified([], Pass)
    else if IsTerminal(ds[0].status) then Notified(ds, Throw(CannotReject))
    else
      var rest := NotifyDependents(ds[1..], error);
      Notified([RejectStep(ds[0], error).state] + rest.dependents, rest.outcome)
  }

  /** The new states of a dependency and of its dependents, and whether `reject` threw. */
  datatype Propagation = Propagation(dependency: TaskState, dependents: seq<TaskState>, outcome: Outcome<Value>)

  /**
   * `reject(error)` on a task whose dependents `ds` listen for its
   * `rejected` event. From a terminal status it throws and changes nothing.
   * Otherwise the task rejects and emits `rejected(error)` to the
   * dependents; it emits `finished` only when none of them threw, and a
   * throw propagates to the caller.
   */
  function RejectWithDependents(s: TaskState, ds: seq<TaskState>, error: Value): Propagation {
    if IsTerminal(s.status) then Propagation(s, ds, Throw(CannotReject))
    else
      var rejected := s.(status := Rejected, error := error, events := s.events + [RejectedEvent(error)]);
      var n := NotifyDependents(ds, error);
      if n.outcome.Throw? then Propagation(rejected, n.dependents, n.outcome)
      else Propagation(rejected.(events := rejected.events + [FinishedEvent]), n.dependents, Pass)
  }

  /** Each of `ds` rejected with `error`. */
  function RejectedAll(ds: seq<TaskState>, error: Value): (rs: seq<TaskState>)
    ensures |rs| == |ds|
    ensures forall k :: 0 <= k < |ds| ==> rs[k] == RejectStep(ds[k], error).state
  {
    seq(|ds|, k requires 0 <= k < |ds| => RejectStep(ds[k], error).state)
  }

  lemma ConsAppend<T>(x: T, a: seq<T>, b: seq<T>)
    ensures [x] + (a + b) == ([x] + a) + b
  {
  }

  /** The first `j` listeners are reached when the first `j` dependents are unfinished. */
  lemma {:induction false} NotifyPrefix(ds: seq<TaskState>, error: Value, j: nat)
    requires j <= |ds|
    requires forall k :: 0 <= k < j ==> !IsTerminal(ds[k].status)
    ensures NotifyDependents(ds, error)
         == Notified(RejectedAll(ds[..j], error) + NotifyDependents(ds[j..], error).dependents,
                     NotifyDependents(ds[j..], error).outcome)
    decreases j
  {
    if j == 0 {
      assert ds[..0] == [] && ds[0..] == ds;
    } else {
      var tail := NotifyDependents(ds[j..], error);
      NotifyPrefix(ds[1..], error, j - 1);
      assert ds[1..][j - 1..] == ds[j..];
      var front := RejectedAll(ds[1..][..j - 1], error);
      assert NotifyDependents(ds[1..], error) == Notified(front + tail.dependents, tail.outcome);
      assert RejectedAll(ds[..j], error) == [RejectStep(ds[0], error).state] + front;
      ConsAppend(RejectStep(ds[0], error).state, front, tail.dependents);
    }
  }

  /** With no dependents, rejecting is `RejectStep`. */
  lemma RejectWithoutDependents(s: TaskState, error: Value)
    ensures RejectWithDependents(s, [], error)
         == Propagation(RejectStep(s, error).state, [], RejectStep(s, error).outcome)
  {
  }

  /**
   * Rejecting a task rejects every unfinished dependent with the same error,
   * and then the task finishes as `RejectStep` says.
   */
  lemma {:induction false} DependentsRejectedWithSameError(s: TaskState, ds: seq<TaskState>, error: Value)
    requires !IsTerminal(s.status)
    requires forall k :: 0 <= k < |ds| ==> !IsTerminal(ds[k].status)
    ensures RejectWithDependents(s, ds, error).outcome == Pass
    ensures RejectWithDependents(s, ds, error).dependency == RejectStep(s, error).state
    ensures |RejectWithDependents(s, ds, error).dependents| == |ds|
    ensures forall k :: 0 <= k < |ds| ==>
              && RejectWithDependents(s, ds, error).dependents[k] == RejectStep(ds[k], error).state
              && CompletionOf(RejectWithDependents(s, ds, error).dependents[k]) == Failed(error)
  {
    NotifyPrefix(ds, error, |ds|);
    assert ds[..|ds|] == ds && ds[|ds|..] == [];
  }

  /**
   * A dependent that has already finished throws from its listener. The
   * dependents before it are rejected and the ones from it on are
   * untouched; the task stays rejected but never emits `finished`, and its
   * `reject` throws.
   */
  lemma {:induction false} FinishedDependentStopsRejection(s: TaskState, ds: seq<TaskState>, error: Value, j: nat)
    requires !IsTerminal(s.status)
    requires j < |ds| && IsTerminal(ds[j].status)
    requires forall k :: 0 <= k < j ==> !IsTerminal(ds[k].status)
    ensures RejectWithDependents(s, ds, error).outcome == Throw(CannotReject)
    ensures RejectWithDependents(s, ds, error).dependency.status == Rejected
    ensures RejectWithDependents(s, ds, error).dependency.error == error
    ensures RejectWithDependents(s, ds, error).dependency.events == s.events + [RejectedEvent(error)]
    ensures RejectWithDependents(s, ds, error).dependents == RejectedAll(ds[..j], error) + ds[j..]
  {
    NotifyPrefix(ds, error, j);
  }

  // ---------------------------------------------------------------------
  // The Task class

  /** The options `new Task(options)` accepts; `None` is an option left out (or `undefined`). */
  datatype TaskOptions = TaskOptions(
    id: Option<string>,
    maxAttempts: Option<nat>,
    timeout: Option<nat>,
    backoff: Option<BackoffOption>,
    dependencies: Option<seq<Task>>,
    metadata: Option<Value>)

  const NoOptions: TaskOptions := TaskOptions(None, None, None, None, None, None)

  function OrElse<T>(preferred: Option<T>, fallback: Option<T>): (r: Option<T>)
    ensures preferred.Some? ==> r == preferred
    ensures preferred.None? ==> r == fallback
  {
    if preferred.Some? then preferred else fallback
  }

  function OrDefault<T>(o: Option<T>, default: T): T {
    if o.Some? then o.value else default
  }

  /** `{...defaults, ...options}`: every option given explicitly wins over the default. */
  function MergeOptions(defaults: TaskOptions, options: TaskOptions): (r: TaskOptions)
    ensures r.id == OrElse(options.id, defaults.id)
    ensures r.maxAttempts == OrElse(options.maxAttempts, defaults.maxAttempts)
    ensures r.timeout == OrElse(options.timeout, defaults.timeout)
    ensures r.backoff == OrElse(options.backoff, defaults.backoff)
    ensures r.dependencies == OrElse(options.dependencies, defaults.dependencies)
    ensures r.metadata == OrElse(options.metadata, defaults.metadata)
  {
    TaskOptions(
      OrElse(options.id, defaults.id),
      OrElse(options.maxAttempts, defaults.maxAttempts),
      OrElse(options.timeout, defaults.timeout),
      OrElse(options.backoff, defaults.backoff),
      OrElse(options.dependencies, defaults.dependencies),
      OrElse(options.metadata, defaults.metadata))
  }

  /**
   * The configuration `new Task(options)` gives a Task: a generated id
   * (`freshId`), one attempt, a 1000 ms timeout, `backoffExponential()` and
   * no dependencies unless the options say otherwise.
   */
  ghost predicate ConfiguredBy(t: Task, options: TaskOptions, freshId: string) {
    && t.id == OrDefault(options.id, freshId)
    && t.maxAttempts == OrDefault(options.maxAttempts, 1)
    && t.timeout == OrDefault(options.timeout, 1000)
    && t.backoff == OrDefault(options.backoff, DefaultBackoff())
    && t.dependencies == OrDefault(options.dependencies, [])
    && t.metadata == OrDefault(options.metadata, Undefined)
  }

  /** An operation on a task made by its owner. */
  datatype TaskOp =
    | DoAttempt(now: int)
    | DoResolve(result: Value)
    | DoReject(error: Value)
    | DoCancel(error: Value)
    | DoProcess(now: int, backoff: BackoffOption)

  function ApplyOp(s: TaskState, maxAttempts: nat, timeout: nat, op: TaskOp): Step {
    match op
    case DoAttempt(now) => AttemptStep(s, maxAttempts, now)
    case DoResolve(v) => ResolveStep(s, v)
    case DoReject(e) => RejectStep(s, e)
    case DoCancel(e) => Step(CancelStep(s, e), Pass)
    case DoProcess(now, b) => Step(ProcessStep(s, maxAttempts, timeout, b, now), Pass)
  }

  /** The states of the tasks `ts`, in order. */
  ghost function States(ts: seq<Task>): (ss: seq<TaskState>)
    reads ts
    ensures |ss| == |ts|
    ensures forall k :: 0 <= k < |ts| ==> ss[k] == ts[k].State()
  {
    seq(|ts|, k requires 0 <= k < |ts| reads ts => ts[k].State())
  }

  /** The states of `ds` after the first `i` listeners ran, as `NotifyDependents` lists them. */
  lemma NotifiedStates(ds: seq<Task>, before: seq<TaskState>, e: Value, i: nat)
    requires i <= |ds| == |before|
    requires forall k :: 0 <= k < i ==> ds[k].State() == RejectStep(before[k], e).state
    requires forall k :: i <= k < |ds| ==> ds[k].State() == before[k]
    ensures States(ds) == RejectedAll(before[..i], e) + before[i..]
  {
  }

  /** `RejectWithDependents` from an unfinished task whose emission stopped after `i` listeners. */
  lemma Propagated(s: TaskState, before: seq<TaskState>, e: Value, i: nat)
    requires !IsTerminal(s.status) && i <= |before|
    requires forall k :: 0 <= k < i ==> !IsTerminal(before[k].status)
    requires i < |before| ==> IsTerminal(before[i].status)
    ensures
      var rejected := s.(status := Rejected, error := e, events := s.events + [RejectedEvent(e)]);
      var dependents := RejectedAll(before[..i], e) + before[i..];
      RejectWithDependents(s, before, e)
      == if i < |before| then Propagation(rejected, dependents, Throw(CannotReject))
         else Propagation(rejected.(events := rejected.events + [FinishedEvent]), dependents, Pass)
  {
    NotifyPrefix(before, e, i);
  }

  class Task {
    const id: string
    const maxAttempts: nat
    const timeout: nat
    const backoff: BackoffOption
    const dependencies: seq<Task>
    const metadata: Value

    var status: Status
    var attemptCount: nat
    var attempts: seq<AttemptRecord>
    var result: Value
    var error: Value
    var events: seq<TaskEvent>

    function State(): TaskState
      reads this
    {
      TaskState(status, attemptCount, attempts, result, error, events)
    }

    ghost predicate Valid()
      reads this
    {
      WellFormed(State(), maxAttempts) && this !in dependencies
    }

    /** `new Task(options)`: a new Task is idle and has made no attempt. */
    constructor (options: TaskOptions, freshId: string)
      ensures Valid() && State() == NewState
      ensures ConfiguredBy(this, options, freshId)
    {
      id := OrDefault(options.id, freshId);
      maxAttempts := OrDefault(options.maxAttempts, 1);
      timeout := OrDefault(options.timeout, 1000);
      backoff := OrDefault(options.backoff, DefaultBackoff());
      dependencies := OrDefault(options.dependencies, []);
      metadata := OrDefault(options.metadata, Undefined);
      status := Idle;
      attemptCount := 0;
      attempts := [];
      result := Undefined;
      error := Undefined;
      events := [];
      new;
      assert this !in dependencies;
    }

    /** What `task.promise` settles to; once settled it never changes (TerminalIsFinal). */
    function Promise(): Completion
      reads this
    {
      CompletionOf(State())
    }

    method Resolve(r: Value) returns (outcome: Outcome<Value>)
      requires Valid()
      modifies this
      ensures Valid()
      ensures Step(State(), outcome) == ResolveStep(old(State()), r)
    {
      if IsTerminal(status) {
        return Throw(CannotResolve);
      }
      result := r;
      status := Resolved;
      events := events + [ResolvedEvent(r), FinishedEvent];
      outcome := Pass;
    }

    method Reject(e: Value) returns (outcome: Outcome<Value>)
      requires Valid()
      modifies this
      ensures Valid()
      ensures Step(State(), outcome) == RejectStep(old(State()), e)
    {
      if IsTerminal(status) {
        return Throw(CannotReject);
      }
      error := e;
      status := Rejected;
      events := events + [RejectedEvent(e), FinishedEvent];
      outcome := Pass;
    }

    method Attempt(now: int) returns (outcome: Outcome<Value>)
      requires Valid()
      modifies this
      ensures Valid()
      ensures Step(State(), outcome) == AttemptStep(old(State()), maxAttempts, now)
    {
      if IsTerminal(status) {
        return Throw(CannotAttempt);
      }
      if attemptCount < maxAttempts {
        status := InProgress;
        events := events + [AttemptEvent(attemptCount)];
        attempts := attempts + [AttemptRecord(attemptCount, now)];
        attemptCount := attemptCount + 1;
        outcome := Pass;
      } else {
        outcome := Reject(MaxAttemptsReachedError);
      }
    }

    method Cancel(e: Value)
      requires Valid()
      modifies this
      ensures Valid()
      ensures State() == CancelStep(old(State()), e)
    {
      if !IsTerminal(status) {
        if IsError(e) {
          var _ := Reject(e);
        } else {
          var _ := Resolve(Undefined);
        }
      }
    }

    /** The timeout sweep for this task at `now`, with the sweeping manager's backoff. */
    method ProcessTask(now: int, sweepBackoff: BackoffOption)
      requires Valid()
      modifies this
      ensures Valid()
      ensures State() == ProcessStep(old(State()), maxAttempts, timeout, sweepBackoff, now)
    {
      if status != InProgress || |attempts| == 0 {
        return;
      }
      var elapsed := now - attempts[|attempts| - 1].time;
      if elapsed < timeout {
        return;
      }
      if attemptCount < maxAttempts {
        var d := Delay(sweepBackoff, |attempts| - 1);
        if d.Some? && elapsed >= timeout + d.value {
          var _ := Attempt(now);
        }
      } else {
        var _ := Reject(TimeoutError);
      }
    }

    /** Any one of the operations above, chosen by `op`. */
    method Apply(op: TaskOp) returns (outcome: Outcome<Value>)
      requires Valid()
      modifies this
      ensures Valid()
      ensures Step(State(), outcome) == ApplyOp(old(State()), maxAttempts, timeout, op)
    {
      match op {
        case DoAttempt(now) => outcome := Attempt(now);
        case DoResolve(v) => outcome := Resolve(v);
        case DoReject(e) => outcome := Reject(e);
        case DoCancel(e) => Cancel(e); outcome := Pass;
        case DoProcess(now, b) => ProcessTask(now, b); outcome := Pass;
      }
    }

    /**
     * The `rejected` listener this Task attached to each dependency: when
     * dependency `dep` has been rejected, reject this Task with the same
     * error (which throws if this Task is already terminal).
     */
    method OnDependencyRejected(dep: Task) returns (outcome: Outcome<Value>)
      requires Valid()
      requires dep in dependencies && dep.status == Rejected
      modifies this
      ensures Valid()
      ensures Step(State(), outcome) == RejectStep(old(State()), dep.error)
      ensures old(!IsTerminal(status)) ==> Promise() == Failed(dep.error)
    {
      outcome := Reject(dep.error);
    }

    /**
     * `reject(e)` with the `rejected` listeners that the dependents `ds`
     * attached to this Task, in the order they attached them: each runs
     * `OnDependencyRejected`, and the first one that throws ends the
     * emission before `finished`.
     */
    method RejectNotifying(e: Value, ds: seq<Task>) returns (outcome: Outcome<Value>)
      requires Valid()
      requires forall k :: 0 <= k < |ds| ==> ds[k].Valid() && this in ds[k].dependencies
      requires forall j, k :: 0 <= j < k < |ds| ==> ds[j] != ds[k]
      modifies this, ds
      ensures Valid()
      ensures forall k :: 0 <= k < |ds| ==> ds[k].Valid()
      ensures var r := RejectWithDependents(old(State()), old(States(ds)), e);
              State() == r.dependency && States(ds) == r.dependents && outcome == r.outcome
    {
      ghost var before := States(ds);
      if IsTerminal(status) {
        return Throw(CannotReject);
      }
      ghost var s := State();
      error := e;
      status := Rejected;
      events := events + [RejectedEvent(e)];
      ghost var i;
      outcome, i := NotifyAll(ds, before);
      if outcome.Pass? {
        events := events + [FinishedEvent];
      }
      Propagated(s, before, e, i);
      NotifiedStates(ds, before, e, i);
    }

    /**
     * The emission of `rejected` to the listeners of `ds`, in order, up to
     * the first that throws: `i` listeners rejected their dependent, and
     * `i` is where the emission stopped.
     */
    method NotifyAll(ds: seq<Task>, ghost before: seq<TaskState>) returns (outcome: Outcome<Value>, ghost i: nat)
      requires status == Rejected && before == States(ds)
      requires forall k :: 0 <= k < |ds| ==> ds[k].Valid() && this in ds[k].dependencies
      requires forall j, k :: 0 <= j < k < |ds| ==> ds[j] != ds[k]
      modifies ds
      ensures i <= |ds| && (outcome.Pass? <==> i == |ds|)
      ensures outcome.Throw? ==> outcome == Throw(CannotReject) && IsTerminal(before[i].status)
      ensures forall k :: 0 <= k < i ==> !IsTerminal(before[k].status)
      ensures forall k :: 0 <= k < |ds| ==> ds[k].Valid()
      ensures forall k :: 0 <= k < i ==> ds[k].State() == RejectStep(before[k], error).state
      ensures forall k :: i <= k < |ds| ==> ds[k].State() == before[k]
    {
      var n := 0;
      outcome := Pass;
      while n < |ds|
        invariant n <= |ds| && outcome == Pass
        invariant forall k :: 0 <= k < |ds| ==> ds[k].Valid()
        invariant forall k :: 0 <= k < n ==> !IsTerminal(before[k].status)
        invariant forall k :: 0 <= k < n ==> ds[k].State() == RejectStep(before[k], error).state
        invariant forall k :: n <= k < |ds| ==> ds[k].State() == before[k]
      {
        outcome := NotifyNext(ds, n);
        if outcome.Throw? {
          break;
        }
        n := n + 1;
      }
      i := n;
    }

    /** The listener of the dependent `ds[i]`: it rejects with this Task's error. */
    method NotifyNext(ds: seq<Task>, i: nat) returns (outcome: Outcome<Value>)
      requires status == Rejected && i < |ds|
      requires ds[i].Valid() && this in ds[i].dependencies
      modifies ds[i]
      ensures ds[i].Valid()
      ensures ds[i].State() == RejectStep(old(ds[i].State()), error).state
      ensures outcome == RejectStep(old(ds[i].State()), error).outcome
    {
      outcome := ds[i].OnDependencyRejected(this);
    }
  }
}
