# intercomm, modelled in Dafny

This project models the correlation and retry machinery of intercomm, an RPC toolkit in which nodes exchange plain message objects over a transport they do not own. There are two generations:

- `src/` holds the current one: the Task state machine with its TaskManager, the Request registry with its timeout retries, the Node/Client/Server trio and the combined Intercomm node.
- `lib/` holds the older node: an Intercomm of type 'client', 'server' or 'both' with its own request registry.

The model treats JavaScript values as one datatype, `Js.Value`. It covers:

- `undefined`, `null`, booleans, integers, `NaN`, strings, arrays, plain objects, functions (by identity) and errors (by name and message);
- a property read that throws on `null` or `undefined`, as `Prop`;
- truthiness.

A thrown exception is `Outcome.Throw`, and a settled promise is a `Settlement`.

Timers carry no clocks. An armed timeout is its deadline, a scheduled retry its due time, and the environment fires them by calling a step at a time `now`. The admission and sweep of TaskManager.processTasks, and the timeout sweep of a Task, take `now` as a parameter.

Parameters also stand for these:

- the transport's answer to a send, as `transport: Outcome<Value>` (`Pass` when `onSendMessage` returns or resolves, `Throw(e)` when it throws or rejects);
- the outcome of an exposed method, as `outcome: Result<Value, Value>`;
- every generated id (uuid), as `freshId: string`.

Deferred work (`setImmediate`, `Promise.resolve().then`, the promise callbacks that erase a settled request) runs inside the call that schedules it.

Classes keep the source's mutable state:

- `Tasks.Task` and `TaskManagers.TaskManager` for src/task.js and src/task-manager.js;
- `Requests.Request` and `Requests.RequestManager` for src/request-manager.js;
- `LibRequests.LibRequest` and `LibRequests.LibRequestManager` for lib/request-manager.js;
- `Clients.Client`, `Servers.Server`, `Intercomms.Intercomm` and `LibIntercomm.LibNode` for the nodes.

Each state change is specified by a pure step function on a snapshot datatype (`TaskState`, `RequestState`, `LibRequestState`), or by the exact new value of the fields. The properties are proved about those functions. Outgoing messages, unhandled messages, events and invocations of exposed methods are recorded in the order the source makes the calls, in sequence fields of the nodes.

## Model

| member | source | states |
|---|---|---|
| Backoff.Exponential | src/backoff-algorithms.js:1-8 | the delay is `min(initialDelay * factor^n, maxDelay)`: never above `maxDelay`, never above the unclamped product, and equal to one of them |
| Backoff.DefaultExponential | src/backoff-algorithms.js:2-4 | the default delays use 100, 2 and 10000, so they never exceed 10000 |
| Backoff.ExponentialMonotone | src/backoff-algorithms.js:5-8 | with `factor >= 1` the delay is non-decreasing in the retry count |
| Backoff.PowMonotone | src/backoff-algorithms.js:6 | `factor ** n` with `factor >= 1` is non-decreasing in `n`, by induction on the distance |
| Backoff.ExponentialSample | test/backoff-algorithms.spec.js:7-23 | initial delay 50, factor 2 and ceiling 1000 give 50, 100, 200, 400, 800, 1000, 1000 for n = 0..6 |
| Backoff.FromValues | src/backoff-algorithms.js:10-13 | the delay is `values[n]` inside the list and the last value from the last index on; an empty list yields no delay |
| Backoff.FromValuesInList | src/task.js:24-27 | for a non-empty list every delay is one of the listed values |
| Backoff.Linear | src/request-manager.js:16-22 | the delay is `min(initialDelay * (n + 1), maxDelay)`, so never above `maxDelay` |
| Backoff.LinearMonotone | src/request-manager.js:19-22 | the linear delay is non-decreasing in the retry count |
| Backoff.Delay | src/task.js:43-47 | the normalised delay is missing exactly for an empty list; a list gives one of its values, a number itself, and a function its own value at `n` |
| Backoff.DefaultBackoff | src/task.js:34 | the default backoff option is `backoffExponential()` with its defaults |
| Tasks.CompletionOf | src/task.js:101-114 | the task's promise is pending exactly while the status is not terminal, and fulfilled exactly when resolved |
| Tasks.ResolveStep | src/task.js:182-193 | from a terminal status it throws and changes nothing; otherwise the task resolves with the result and emits `resolved(result)` then `finished`, keeping its attempts and count |
| Tasks.RejectStep | src/task.js:195-206 | from a terminal status it throws and changes nothing; otherwise the task rejects with the error and emits `rejected(error)` then `finished` |
| Tasks.AttemptStep | src/task.js:140-152 | from a terminal status it throws; under the limit it goes in-progress, emits the old count as attempt number, records the attempt and adds exactly one; at the limit it rejects with MAX_ATTEMPTS_REACHED_ERROR |
| Tasks.CancelStep | src/task.js:172-180 | a terminal task is left alone; otherwise an Error rejects it with that error and any other value resolves it with no value |
| Tasks.ProcessStep | src/task.js:158-168 | the sweep of one task at `now` leaves it alone, attempts it again or rejects it with TIMEOUT_ERROR, and nothing else; a task not in progress, or whose last attempt is less than `timeout` old, is left alone, and so is one with attempts left and an empty delay list |
| Tasks.StepsKeepWellFormed | src/task.js:145-151 | every step keeps one record per attempt, numbered from zero, and never more than `maxAttempts` attempts |
| Tasks.TerminalIsFinal | src/task.js:141-143 | on a resolved or rejected task attempt, resolve and reject throw and change nothing, and cancel and the sweep are no-ops |
| Tasks.AttemptsWithinLimit | test/task.spec.js:110-134 | `k <= maxAttempts` attempts from a new task give count `k`, attempt events numbered 0..k-1 and one record per attempt |
| Tasks.AttemptBeyondLimitRejects | src/task.js:145-151 | the attempt after `maxAttempts` attempts rejects with MAX_ATTEMPTS_REACHED_ERROR and leaves the count at `maxAttempts` |
| Tasks.AttemptCounts | src/task.js:145-151 | an attempt under the limit passes, adds exactly one to the count and one record numbered by the old count, and keeps the count equal to the number of records |
| Tasks.RetryOnlyAfterTimeoutPlusBackoff | test/task.spec.js:303-376 | the sweep increases the attempt count only for an in-progress task with attempts left and only once timeout plus backoff has passed since the last attempt |
| Tasks.RetryOnceBackoffElapsed | src/task.js:158-165 | once timeout plus backoff has passed, an in-progress task with attempts left is attempted again at `now` |
| Tasks.TimeoutWhenExhausted | test/task.spec.js:283-300 | with no attempts left the sweep rejects with TIMEOUT_ERROR exactly when the timeout has passed, leaves the attempt count as it is, and changes nothing before |
| Tasks.SweepLeavesOthersAlone | test/task-manager.spec.js:77-101 | a task that is not in progress, or whose timeout has not passed, is untouched by the sweep |
| Tasks.SweepScenarioSingleAttempt | test/task.spec.js:283-300 | a single-attempt task swept at its timeout is rejected with TIMEOUT_ERROR after one attempt |
| Tasks.SweepScenarioImmediateBackoff | test/task.spec.js:303-334 | with backoff 0 the second sweep retries and the third rejects with TIMEOUT_ERROR after two attempts |
| Tasks.SweepScenarioFixedBackoff | test/task.spec.js:336-376 | with backoff 100 nothing happens at the timeout alone; the retry comes at timeout plus backoff, then a TIMEOUT_ERROR |
| Tasks.MergeOptions | src/task-manager.js:137-140 | explicit task options override the manager's defaults field by field |
| Tasks.Task.constructor | src/task.js:30-94 | a new task is idle with no attempts, and takes the given options or the defaults (fresh id, one attempt, 1000 ms, exponential backoff, no dependencies) |
| Tasks.Task.Resolve | src/task.js:182-193 | the fields change exactly as `ResolveStep` says, and the task invariant holds |
| Tasks.Task.Reject | src/task.js:195-206 | the fields change exactly as `RejectStep` says |
| Tasks.Task.Attempt | src/task.js:140-152 | the fields change exactly as `AttemptStep` says |
| Tasks.Task.Cancel | src/task.js:172-180 | the fields change exactly as `CancelStep` says |
| Tasks.Task.ProcessTask | test/task.spec.js:282-378 | the sweep of one task at `now` changes the fields exactly as `ProcessStep` says |
| Tasks.Task.OnDependencyRejected | src/task.js:87-93 | a rejected dependency rejects the dependent with the same error; a pending dependent's promise then fails with it |
| Tasks.NotifyDependents | src/task.js:92 | the `rejected` listeners run in the order the dependents attached them, each rejecting its dependent with the same error; the first dependent already finished throws and ends the emission, the later ones untouched |
| Tasks.RejectWithDependents | src/task.js:195-206 | `reject` throws from a terminal status and changes nothing; otherwise the task rejects and emits `rejected(error)` to its dependents, and emits `finished` only when none of their listeners threw |
| Tasks.RejectWithoutDependents | src/task.js:195-206 | with no dependents listening, `reject` is exactly `RejectStep` |
| Tasks.DependentsRejectedWithSameError | src/task.js:78-93 | rejecting a task whose dependents are all unfinished passes, finishes the task as `RejectStep` says, and rejects every dependent with the same error, so each dependent's promise fails with it |
| Tasks.FinishedDependentStopsRejection | src/task.js:92-206 | when the first finished dependent is at `j`, `reject` throws "cannot be rejected", the dependents before `j` are rejected and those from `j` on untouched, and the task stays rejected with `rejected(error)` but no `finished` event |
| Tasks.NotifyPrefix | src/task.js:92 | listeners of unfinished dependents all run, so the emission over a list is the rejected prefix followed by the emission over the rest |
| Tasks.Task.RejectNotifying | src/task.js:87-206 | `reject(e)` on a task with the given dependents listening changes this task and every dependent exactly as `RejectWithDependents` says, and returns its outcome |
| Tasks.Task.NotifyAll | src/task.js:92-205 | the emission reaches the dependents in order up to the first that throws: those before it are rejected with this task's error, it and those after are untouched |
| TaskManagers.Excess | src/task-manager.js:94 | `max(0, count - maxTasks)`: never more than the count, and what remains fits in `maxTasks` |
| TaskManagers.AdmissionPartition | src/task-manager.js:92-96 | the ids to drop followed by the ids to sweep are the registration order; at most `maxTasks` are swept, and none dropped when within bounds |
| TaskManagers.AdmissionSample | test/task-manager.spec.js:103-126 | with seven tasks and `maxTasks` 5, task1 and task2 are dropped and task3..task7 swept |
| TaskManagers.TaskManager.constructor | src/task-manager.js:18-65 | a new manager has no tasks, is not processing, and takes backoff, interval, task defaults, `maxTasks` (10) and `onTaskDropped` (`logTaskDropped`) from the options or the defaults |
| TaskManagers.TaskManager.TaskCount | src/task-manager.js:67-69 | the count is the number of registered ids |
| TaskManagers.TaskManager.GetTask | src/task-manager.js:158-160 | a lookup finds exactly the registered task of that id, and an unknown id gives nothing without failing |
| TaskManagers.TaskManager.CreateTask | src/task-manager.js:136-150 | the new task is configured by the merged options and registered under its id; the registration order grows by that id unless it was already known |
| TaskManagers.TaskManager.Register | src/task-manager.js:142-147 | storing a task under its id keeps the table, order and listeners consistent; the order grows by the id only when it is new |
| TaskManagers.TaskManager.Finished | src/task-manager.js:144-147 | the finish listener of a task that has finished removes exactly its entry, id and listener; for a task still running nothing changes |
| TaskManagers.TaskManager.Perform | src/task-manager.js:144-147 | an operation on a registered task that makes it finish removes exactly its entry; any other operation leaves the table alone |
| TaskManagers.TaskManager.DropTask | src/task-manager.js:13-83 | the task (or `undefined` for an unknown id) is handed to `onTaskDropped`; the default `logTaskDropped` then throws a TypeError from the missing `toJSON` and nothing else changes; with a logger that returns, an unknown id throws a TypeError from the missing `cancel`, and a known task is cancelled with TASK_DROPPED_ERROR (so rejected) and loses exactly its entry |
| TaskManagers.TaskManager.SweepTasks | src/task-manager.js:98-103 | every swept task takes its sweep step at `now`, in order, and those that finished leave the registration order |
| TaskManagers.TaskManager.DropTasks | src/task-manager.js:105 | every listed task is handed to `onTaskDropped` in order; with a logger that returns each is cancelled with TASK_DROPPED_ERROR and leaves the table, with the default one each drop throws, nothing changes, and the outcome is the first TypeError |
| TaskManagers.TaskManager.ProcessTasks | src/task-manager.js:90-107 | sweeps exactly all but the oldest `max(0, count - maxTasks)` tasks at `now` and keeps in order the swept tasks still unfinished; with a logger that returns it drops and cancels those oldest tasks, fulfils, and leaves at most `maxTasks` tasks; with the default logger it rejects with the `toJSON` TypeError and the oldest tasks stay registered in front |
| TaskManagers.TaskManager.StartProcessingTasks | src/task-manager.js:109-116 | starts one interval when none is running and does nothing when one is |
| TaskManagers.TaskManager.StopProcessingTasks | src/task-manager.js:118-123 | stops the interval when one is running and does nothing otherwise |
| TaskManagers.ScenarioManager | test/task-manager.spec.js:103-126 | a new manager with the given logger and `n` new idle tasks registered under "A", "B", ... in that order |
| TaskManagers.KeepUnfinished | src/task-manager.js:144-147 | when no swept task finished, the sweep keeps every id in its place |
| TaskManagers.AdmitEleven | src/task-manager.js:90-107 | eleven new tasks and one sweep: with a logger that returns the oldest is cancelled and ten remain; with the default one the sweep rejects, eleven remain and the oldest is still new |
| TaskManagers.DefaultLoggerKeepsExcess | src/task-manager.js:13-26 | with every manager option left out, eleven tasks and one sweep reject with the `toJSON` TypeError and leave eleven tasks, one over `maxTasks`, the oldest idle |
| TaskManagers.ReturningLoggerDropsExcess | src/task-manager.js:79-105 | with a logger that returns, the same run fulfils, rejects the oldest task with TASK_DROPPED_ERROR and leaves ten tasks |
| Requests.AttemptStep | src/request-manager.js:58-72 | an attempt invokes `fn` at `now` and arms a timeout `timeout` later, keeping the retry counter and settlement |
| Requests.Settle | src/request-manager.js:45-55 | only a request's first settlement counts |
| Requests.ResolveStep | src/request-manager.js:46-49 | resolving clears the armed timeout and settles a pending request with the result |
| Requests.RejectStep | src/request-manager.js:51-54 | rejecting clears the armed timeout and settles a pending request with the error |
| Requests.TimeoutStep | src/request-manager.js:60-69 | a fired timeout schedules a retry after `backoff(retryCount)` while retries remain, and otherwise rejects with REQUEST_TIMEOUT_ERROR |
| Requests.RetryStep | src/request-manager.js:62-65 | a due retry leaves the schedule, invokes `fn` at `now` and arms a new timeout; the retry counter goes up by one when `fn` returns and stays put when it throws |
| Requests.NextKeepsChain | src/request-manager.js:58-72 | each step other than a throwing retry keeps the invariant tying the retry counter, the calls made and the scheduled retries together |
| Requests.ReplayKeepsChain | src/request-manager.js:58-72 | any sequence of accepted events in which no retried `fn` throws keeps the same invariant |
| Requests.AttemptBudget | test/request-manager.spec.js:42-90 | whatever events the environment delivers after the first attempt at `start`, as long as no retried `fn` throws, `fn` is invoked between 1 and `max + 1` times, first at `start`, and the gap before invocation `k` is at least `timeout + backoff(k - 1)` |
| Requests.ThrowingRoundsReplay | src/request-manager.js:60-65 | each round of a timeout and a throwing retry invokes `fn` once more and leaves the retry counter and settlement as they were |
| Requests.ThrowingRetriesUnbounded | src/request-manager.js:62-65 | with a retry budget of at least one and an `fn` that throws on every retry, `n` rounds invoke `fn` `n + 1` times for every `n` and leave the request pending with the counter at 0, so the budget bounds nothing |
| Requests.TimeoutOutcome | src/request-manager.js:61-68 | with the budget spent a timeout rejects with REQUEST_TIMEOUT_ERROR; before that it only schedules one retry |
| Requests.SettledRequestStillRetries | src/request-manager.js:62-65 | a retry scheduled before the request settled still runs and invokes `fn` again, because settling clears only the armed timeout |
| Requests.Request.Create | src/request-manager.js:24-56 | a non-function fails with "Invalid request function …"; otherwise the request is new with the given id, timeout, retry budget and backoff, or their defaults (fresh id, 1000, 0 retries, exponential) |
| Requests.Request.constructor | src/request-manager.js:24-44 | a new request keeps its function, id, timeout, budget and backoff, and starts with no calls, no timer and no settlement |
| Requests.Request.Resolve | src/request-manager.js:45-49 | the fields change exactly as `ResolveStep` says |
| Requests.Request.Reject | src/request-manager.js:51-54 | the fields change exactly as `RejectStep` says |
| Requests.Request.Attempt | src/request-manager.js:58-72 | the fields change exactly as `AttemptStep` says |
| Requests.Request.FireTimeout | src/request-manager.js:60-69 | the fields change exactly as `TimeoutStep` says |
| Requests.Request.FireRetry | src/request-manager.js:62-65 | the fields change exactly as `RetryStep` says, for an `fn` that returns or throws |
| Requests.TimeoutFor | src/request-manager.js:96-98 | a request's timeout is its own, else the manager's, else 1000 |
| Requests.ManagerTimeoutAsWritten | src/client.js:40-42 | the `{defaultRequestTimeout}` options object leaves the manager's `timeout` undefined |
| Requests.RequestTimeoutOptionIgnored | src/intercomm.js:64-66 | as written, a default request timeout of 500 still gives requests 1000 ms |
| Requests.ManagerTimeout | src/client.js:40-42 | the timeout handed to the manager as intended is set, is what a request without its own timeout gets, and never overrides a request's own timeout |
| Requests.RequestTimeoutOptionApplies | src/client.js:40-42 | passed as the manager's `timeout`, the default request timeout is what a request gets |
| Requests.RequestManager.constructor | src/request-manager.js:76-83 | a new manager has no requests and a retry budget of 5 unless given one |
| Requests.RequestManager.CreateRequest | src/request-manager.js:96-126 | a non-function throws and registers nothing; otherwise the request inherits the manager's timeout and budget unless overridden, and is stored under its id |
| Requests.RequestManager.GetRequest | src/request-manager.js:134-136 | finds exactly the request stored under the id, and an unknown id gives nothing |
| Requests.RequestManager.Resolve | src/request-manager.js:107-121 | resolving settles the request and erases its entry the first time |
| Requests.RequestManager.Reject | src/request-manager.js:107-121 | rejecting settles the request and erases its entry the first time |
| Requests.RequestManager.FireTimeout | src/request-manager.js:60-69 | a final timeout rejects and erases the entry; an earlier one only schedules a retry and keeps it |
| LibRequests.RequestNotFoundError | lib/request-manager.js:3-10 | the error is named RequestNotFoundError, and its message names the missing id |
| LibRequests.ResolveStep | lib/request-manager.js:33-37 | resolving clears the timer and settles a pending request with the result |
| LibRequests.RejectStep | lib/request-manager.js:39-43 | rejecting clears the timer and settles a pending request with the error |
| LibRequests.Next | lib/request-manager.js:29-31 | a timeout event is accepted exactly when the timer is armed and its deadline has come |
| LibRequests.TimesOut | lib/request-manager.js:29-31 | a request nobody settles is rejected with RequestTimeoutError exactly from `requestTimeout` after its creation |
| LibRequests.NoTimeoutAfterSettle | lib/request-manager.js:33-43 | after resolve or reject no timeout can fire, and the settlement stays what it became |
| LibRequests.ResolvedStaysResolved | lib/request-manager.js:33-37 | a resolved request stays resolved with its result whatever follows, and no timeout fires |
| LibRequests.LibRequest.constructor | lib/request-manager.js:20-31 | a new request has its id and timeout, is pending, and has a timer armed `requestTimeout` after its creation |
| LibRequests.LibRequest.Resolve | lib/request-manager.js:33-37 | the fields change exactly as `ResolveStep` says |
| LibRequests.LibRequest.Reject | lib/request-manager.js:39-43 | the fields change exactly as `RejectStep` says |
| LibRequests.LibRequest.FireTimeout | lib/request-manager.js:29-31 | a timer whose deadline has come settles a pending request as rejected with RequestTimeoutError |
| LibRequests.LibRequestManager.constructor | lib/request-manager.js:48-52 | a new manager has no requests and a timeout of 1000 unless given one |
| LibRequests.LibRequestManager.RegisterRequest | lib/request-manager.js:65-87 | the request takes the manager's timeout and is stored under its id, or a fresh id when none is given |
| LibRequests.LibRequestManager.GetRequest | lib/request-manager.js:95-103 | a missing options object throws a TypeError; a known id finds its request; an unknown one throws RequestNotFoundError when `error` is truthy or left out and gives nothing when it is falsy |
| LibRequests.LibRequestManager.Resolve | lib/request-manager.js:71-82 | resolving settles the request and erases its entry the first time |
| LibRequests.LibRequestManager.Reject | lib/request-manager.js:71-82 | rejecting settles the request and erases its entry the first time |
| LibRequests.LibRequestManager.FireTimeout | lib/request-manager.js:29-31 | the fired timeout rejects a pending request with RequestTimeoutError and erases its entry |
| Util.ValidateId | src/util.js:22-26 | throws the invalid-id error exactly when the id is not valid |
| Util.ValidIdShapes | src/util.js:11-20 | an id is valid exactly when it is a non-empty string or a number other than NaN |
| Util.ValidateMethodName | src/util.js:28-32 | throws exactly for a value that is not a string; the empty string passes |
| Util.ValidateEventName | src/util.js:34-38 | throws exactly for a value that is not a string |
| Util.MethodAndEventNamesAgree | src/util.js:28-38 | method names and event names are accepted by the same rule |
| Util.ValidateParameters | src/util.js:40-44 | throws exactly when the value is not an array |
| Util.RequireClientRole | src/util.js:53-57 | throws "client role required" exactly when the role is missing |
| Util.RequireServerRole | src/util.js:59-63 | throws "server role required" exactly when the role is missing |
| Constants.MessageTypesDistinct | src/constants.js:1-5 | the request, response and ack types are pairwise distinct |
| Constants.ServerNodeId | src/constants.js:24-27 | a server node id starts `[local:<server>]->[remote:`, ends with `]/server`, and is 26 characters longer than the two ids together |
| Constants.ClientNodeId | src/constants.js:29-32 | a client node id starts `[local:<client>]->[remote:`, ends with `]/client`, and is 26 characters longer than the two ids together |
| Constants.NodeIds | src/constants.js:10-22 | both local ids name `localId` as local and both remote ids name `remoteId`; the client ids end with `]/client` and the server ids with `]/server` |
| Constants.NodeIdsSample | test/constants.spec.js:5-16 | `nodeIds` of some-local-id and some-remote-id gives exactly the four ids of the test |
| Constants.NodeIdsSymmetric | src/constants.js:10-22 | swapping the local and remote ids swaps the local and remote ids of each role |
| Constants.ClientIdIsNeverServerId | src/constants.js:24-32 | no client node id equals any server node id, because their suffixes differ |
| Constants.NodeIdsRolesDistinct | src/constants.js:10-22 | no client id of a set equals a server id of the same set |
| Constants.IpcMessageEventNameSample | test/constants.spec.js:19-27 | the event name for some-source-id and some-destination-id is the test's string |
| Constants.IpcMessageEventName | src/constants.js:37-40 | every event name starts with `[from:<source>]->[to:`, ends with `/message`, and is 22 characters longer than the two ids together |
| NodeIds.NodeIds | src/node-ids.js:1-9 | the local ids start `<local>-><remote>`, the remote ids `<remote>-><local>`; the client ids end with `/client` and the server ids with `/server` |
| NodeIds.NodeIdsSample | test/node-ids.spec.js:4-11 | `nodeIds` of local and remote gives exactly the four ids of the test |
| NodeIds.NodeIdsSymmetric | src/node-ids.js:5-8 | the local ids of (l, r) are the remote ids of (r, l) |
| NodeIds.LocalIdsDifferOnlyInSuffix | src/node-ids.js:5-6 | the local client and server ids share the prefix `l->r` and differ only in their suffix, so they differ |
| Nodes.NewNode | src/node.js:16-33 | throws on an invalid id, then a TypeError for a non-function `onSendMessage`; succeeds exactly when the attach option is also absent or a function, and then attaches the node's listener once; keeps the given `onUnhandledMessage`, or the function `logUnhandledMessage` when it is left out |
| Nodes.Envelope | src/node.js:35-40 | the envelope is the message with `source` set to the node's id and `destination` to the argument, all else kept |
| Nodes.SendOutcome | src/node.js:41-48 | a hand-off completes with no value, and any failure becomes SendMessageError |
| Nodes.SendErrorsAreMasked | src/errors.js:1-7 | two transport failures give the same error, named and worded SEND_MESSAGE_ERROR |
| Nodes.EnvelopeRestamps | src/node.js:36-40 | stamping twice is stamping once with the last node and destination |
| Clients.ValidateRequest | src/client.js:45-47 | the method name is checked before the parameters, and a request passes exactly with a string name and an array |
| Clients.RequestAsWritten | src/client.js:51 | as written, every request throws: an invalid one with its validation error, a valid one with a TypeError from the missing `registerRequest` |
| Clients.WellFormedRequestThrows | test/client.spec.js:7-26 | a request the tests expect to succeed throws as written |
| Clients.RequestMessage | src/client.js:53-60 | the sent message's id is the request id, its type the request type and its payload exactly `{method, parameters}` |
| Clients.ResponseFields | src/client.js:65-71 | the destructuring fails exactly when the message or its payload is `null` or `undefined` |
| Clients.ResponseSettlement | src/client.js:84-88 | a truthy `error` rejects with `result`, otherwise the request resolves with `result` |
| Clients.ResponseSettlesWithResult | src/client.js:84-88 | a response settles its request with its `result` either way: false and undefined errors resolve, a name rejects |
| Clients.Client.Create | src/client.js:17-43 | fails exactly for an invalid id or a truthy attach option that is not a function; otherwise listens under the response type, and its manager's timeout comes from `ManagerTimeout`, and its node keeps `onUnhandledMessage` or, when it is left out, `logUnhandledMessage` |
| Clients.Client.constructor | src/client.js:17-43 | a new client has the node, message types, callback and attach record it is given, an empty manager whose timeout comes from `ManagerTimeout`, and nothing sent |
| Clients.Client.Send | src/client.js:26-29 | the user callback gets the request type and the stamped envelope; a failure comes back as SendMessageError |
| Clients.Client.Request | src/client.js:45-62 | an invalid request throws and changes nothing; a valid one registers a request under a fresh id, attempts it and sends its message, the id being the registered one; the request takes the manager's retry budget (5 by default) and the default exponential backoff, as `createRequest` gives it |
| Clients.Client.ReceiveMessage | src/client.js:64-89 | throws on destructuring or an invalid id, and then changes no request; an unknown id calls the node's `onUnhandledMessage`, which throws a TypeError when it is not a function, and changes no request; a known one takes `ResponseStep` (timer cleared, settled by the `error` rule) and leaves the registry, and every other request keeps all its fields |
| Clients.ResponseStep | src/request-manager.js:46-54 | a response clears the armed timeout and settles the request as `ResponseSettlement` says, keeping its retry count, scheduled retries and calls |
| Servers.RequestFields | src/server.js:38 | the destructuring fails exactly when the message or its payload is `null` or `undefined` |
| Servers.ValidateRequest | src/server.js:38-42 | passes exactly with a valid id and source, a string method name and an array of parameters; the id is checked first, then the source |
| Servers.FailureLabel | src/server.js:83 | the label is the failure's name when that is truthy and 'Error' otherwise, so always truthy; a `null` or `undefined` failure has no label, because reading its name throws |
| Servers.Payload | src/server.js:70-74 | the payload holds exactly `requestId`, `result` and `error` |
| Servers.MethodNotDefined | src/server.js:57-60 | the result is named METHOD_NOT_DEFINED_ERROR with the message "Method '<m>' is not defined" |
| Servers.ResponsePayload | src/server.js:44-86 | a missing method gives the METHOD_NOT_DEFINED_ERROR answer, a success `{result, error: false}`, a failure `{result: error, error: label}` |
| Servers.AnswerReportsFailure | src/server.js:46-86 | every answer carries the request id, and its `error` is truthy exactly when the method is missing or failed |
| Servers.ResponseMessage | src/server.js:67-75 | the answer gets a fresh id and the response type |
| Servers.Merge | src/server.js:90-95 | the merge adds or overrides the given names and keeps every other method |
| Servers.MergeComposes | src/server.js:90-95 | two exposes are one expose of their merge, and exposing nothing changes nothing |
| Servers.Server.Create | src/server.js:13-36 | fails exactly for an invalid id or a truthy attach option that is not a function; otherwise listens under the request type and starts with the given methods |
| Servers.Server.constructor | src/server.js:13-36 | a new server has the node, message types, callback, attach record and methods it is given, and nothing sent or invoked |
| Servers.Server.ReceiveMessage | src/server.js:38-88 | throws on destructuring or validation; otherwise invokes an existing method once and sends at most one answer, to the request's source, with the payload of `ResponsePayload` |
| Servers.Server.Expose | src/server.js:90-95 | the methods become the merge of the old ones with the given ones |
| Exchange.ServerAnswerSettlesClient | src/server.js:66-86 | a server's answer reaches the client's reader with the request id, and resolves it exactly when the method exists and succeeded |
| Nodes.CallOutcome | src/intercomm.js:84 | calling a callback passes exactly when it is a function, and otherwise throws a TypeError |
| Intercomms.RouteOf | src/intercomm.js:74-106 | a message is refused without a valid destination, unhandled when addressed elsewhere, and otherwise routed by its type, unknown types going to the custom handler when one is set |
| Intercomms.RoutingIsByDestinationThenType | src/intercomm.js:83-105 | a validly addressed message is unhandled exactly when addressed elsewhere or of an unknown type with no custom handler |
| Intercomms.TypedEnvelope | src/intercomm.js:222-231 | the typed form is `{fresh id, source: own id, type, destination, payload}` |
| Intercomms.ObjectEnvelope | src/intercomm.js:232-239 | the object form keeps the message, keeps a supplied id or takes a fresh one, and always overwrites `source` |
| Intercomms.ObjectEnvelopeIsIdempotent | src/intercomm.js:232-239 | stamping an object envelope twice changes nothing more |
| Intercomms.SendFailure | src/intercomm.js:28-35 | a `null` or `undefined` failure gives a TypeError; any other becomes SEND_MESSAGE_ERROR carrying the failure's message when it is a string, and SEND_MESSAGE_ERROR otherwise |
| Intercomms.SendOutcome | src/intercomm.js:241-249 | a hand-off completes with no value, and a failure becomes `SendFailure` of its error |
| Intercomms.SendFailureKeepsOnlyMessage | src/intercomm.js:244-248 | two failures with the same message are indistinguishable to the caller |
| Intercomms.ValidateRequest | src/intercomm.js:115-119 | a request passes exactly with valid id and source, the server role, a string method name and an array, checked in that order |
| Intercomms.MethodNotDefined | src/intercomm.js:126-129 | the result is named METHOD_NOT_DEFINED with the message "Method <m> is not defined" |
| Intercomms.ResponsePayload | src/intercomm.js:121-171 | a missing method gives the METHOD_NOT_DEFINED answer, a success `{result, error: false}`, a failure `{result: error, error: label}` |
| Intercomms.RequestAnsweredToSource | src/intercomm.js:108-185 | a request throws exactly when invalid; otherwise at most one answer goes from this node to the source with the request id, and its `error` is truthy exactly when the method is missing or failed |
| Intercomms.HandleRequest | src/intercomm.js:108-114 | a `null` or `undefined` payload or message throws a TypeError from the destructuring, and sends and invokes nothing; a missing method or id gets past the destructuring and is refused by the checks of `ValidateRequest` |
| Intercomms.ResponseFields | src/intercomm.js:187-191 | the destructuring fails exactly for a `null` or `undefined` payload |
| Intercomms.ValidateResponse | src/intercomm.js:192-193 | a response passes exactly with a valid id and the client role |
| Intercomms.EventOf | src/intercomm.js:211-217 | the event passed on is `{source, name, data}` of the message |
| Intercomms.ValidateExec | src/intercomm.js:252-255 | passes exactly with a valid destination, a string method name and parameters that are an array or left out (then `[]`); the destination is checked first |
| Intercomms.RemoteExecAsWritten | src/intercomm.js:259 | as written, every `remoteExec` throws: invalid calls with their validation error, valid ones with a TypeError from the missing `registerRequest` |
| Intercomms.WellFormedExecThrows | test/remote-exec.spec.js:29-70 | a call the tests expect to succeed throws as written |
| Intercomms.ExecMessage | src/intercomm.js:261-269 | the request message has the request's id, the destination, the request type and `{method, parameters}` |
| Intercomms.ExecEnvelopeKeepsRequestId | src/intercomm.js:232-239 | the sent envelope keeps the registered request id and carries this node as source |
| Intercomms.ValidateEmit | src/intercomm.js:273-275 | an emit passes exactly with a valid destination and a string name |
| Intercomms.ExposedName | src/intercomm.js:312 | a truthy scope gives `scope/name`, and no scope the bare name |
| Intercomms.ExposedNameInjective | src/intercomm.js:312 | under one scope, different names never collide |
| Intercomms.FirstRefused | src/intercomm.js:304-311 | finds the first listed name that cannot be exposed, all before it being exposable |
| Intercomms.ExposeAll | src/intercomm.js:304-318 | the reduce completes exactly when every listed name can be exposed, and then keeps every key it started with |
| Intercomms.ExposeAllSpec | src/intercomm.js:304-318 | the reduce fails with the first refusal; otherwise it adds exactly the scoped names with their functions and keeps every other entry |
| Intercomms.ExposeResult | src/intercomm.js:283-319 | requires the server role, then a non-empty array of names, then runs the reduce over the current api |
| Intercomms.ScopedExposeExample | test/expose.spec.js:66-87 | a scoped expose of two functions adds `ns/a` and `ns/b` |
| Intercomms.FailedExposeThrows | src/intercomm.js:308-310 | a listed name with no function behind it throws "<name> must refer to a function" |
| Intercomms.Intercomm.Create | src/intercomm.js:40-72 | throws on an invalid id, then on a non-function `onSendMessage`; roles default to client and server; a manager exists exactly with the client role and an api exactly with the server role; missing callbacks take their defaults |
| Intercomms.Intercomm.constructor | src/intercomm.js:40-72 | a new node keeps its id, roles and callbacks, has a manager with the client role, an empty api exactly with the server role, and no pending requests or calls |
| Intercomms.Intercomm.DeliverUnhandled | src/intercomm.js:83-86 | `onUnhandledMessage` gets the message, and calling a non-function throws a TypeError |
| Intercomms.Intercomm.OnRequest | src/intercomm.js:108-185 | the outcome, answers and invocations are exactly those of `HandleRequest`, and the api is unchanged |
| Intercomms.Intercomm.OnResponse | src/intercomm.js:187-209 | throws on destructuring, an invalid id or a missing client role, and then changes no request; an unknown id goes to `onUnhandledMessage` and changes no request; a known one takes `Clients.ResponseStep` (timer cleared, settled by the `error` rule) and leaves the registry, and every other request keeps all its fields |
| Intercomms.Intercomm.OnEvent | src/intercomm.js:211-217 | `onEvent` gets `{source, name, data}` |
| Intercomms.Intercomm.DeliverCustom | src/intercomm.js:98-104 | `onCustomMessageType` gets the payload and the message |
| Intercomms.Intercomm.ReceiveMessage | src/intercomm.js:74-106 | does exactly what `RouteOf` decides: throws, calls `onUnhandledMessage`, answers the request, settles the response, passes on the event or calls the custom handler; only a response that names a pending request changes a request, and only that one |
| Intercomms.Intercomm.Send | src/intercomm.js:219-250 | the envelope is handed to `onSendMessage` and the outcome is `SendOutcome` |
| Intercomms.Intercomm.RemoteExec | src/intercomm.js:252-271 | invalid calls throw and change nothing; without the client role a valid call throws a TypeError; otherwise it registers a request under a fresh id, attempts it and sends its message with that id; the request takes the manager's retry budget and the default exponential backoff |
| Intercomms.Intercomm.RemoteEmit | src/intercomm.js:273-281 | an invalid call throws and sends nothing; a valid one sends one event envelope `{name, data}` to the destination |
| Intercomms.Intercomm.Expose | src/intercomm.js:283-319 | the api becomes `ExposeResult`, and is left unchanged when the call throws |
| LibIntercomm.SendMessageError | lib/errors.js:36-42 | the wrapped error is named SendMessageError and keeps the source error's message |
| LibIntercomm.RequestTimeoutOf | lib/intercomm.js:88-92 | a positive `requestTimeout` is used as given, and a missing or zero one becomes 10000 |
| LibIntercomm.CheckOptions | lib/intercomm.js:95-98 | throws for the first of apiVersion, id, type and sendMessage that is falsy, with its own message, and passes exactly when all are truthy |
| LibIntercomm.RequestsByType | lib/intercomm.js:212-218 | only a 'client' node drops requests: every other type, 'both' and any other string included, routes every message as a 'server' node does |
| LibIntercomm.ExposeByType | lib/intercomm.js:374-376 | only a 'client' node is refused `expose`: every other type exposes as a 'server' node does |
| LibIntercomm.ExposeWithoutApi | lib/intercomm.js:413 | a node that has no api yet exposes exactly as one whose api is `{}` |
| LibIntercomm.OtherTypeExecRejects | lib/intercomm.js:113-169 | a node whose type is none of the three passes `exec`'s guards but has no manager, so its `exec` rejects with the SendMessageError of the TypeError, whatever the transport does |
| LibIntercomm.NonFunctionSendRejects | lib/intercomm.js:146-169 | a 'client' node whose `sendMessage` is the string 'x' passes the option check; its `exec` rejects with the SendMessageError of the TypeError from calling it, sends nothing, and leaves the request registered |
| LibIntercomm.CheckExec | lib/intercomm.js:133-138 | a 'server' node throws, then a falsy `at`, then a falsy `method` |
| LibIntercomm.RequestData | lib/intercomm.js:140-143 | the request message is an `rpc-request` with a fresh id, the method and parameters, from this node to `at` |
| LibIntercomm.ExecSettlement | lib/intercomm.js:156-165 | a RequestTimeoutError becomes RequestTimeout, and every other settlement passes through |
| LibIntercomm.UnansweredExecTimesOut | lib/intercomm.js:156-165 | an `exec` nobody answers in time is rejected with RequestTimeout |
| LibIntercomm.RouteOf | lib/intercomm.js:194-233 | a falsy message is ignored, a string is parsed, a message for another node is refused, and a request, response or event for this node reaches its handler, except requests on a 'client' node |
| LibIntercomm.ClientIgnoresRequests | previous/test/handle-message.js:79-94 | a 'client' node ignores a request addressed to it, and a 'server' node handles it |
| LibIntercomm.AddressedByTo | previous/test/handle-message.js:46-76 | a message without `to` is for every node, and one with `to` only for that node |
| LibIntercomm.PlanOf | lib/intercomm.js:373-386 | missing options list no names, an array lists the names, and otherwise `scope` and `methods` are read from the options |
| LibIntercomm.Collect | lib/intercomm.js:392-403 | the reduce fails exactly for a missing source with names to read, with the TypeError of that read; otherwise every entry it started with is kept as it was |
| LibIntercomm.CollectSpec | lib/intercomm.js:392-403 | the reduce fails exactly for a missing source with names to read; otherwise it keeps exactly the listed names whose source value is a function, with that function, and what was collected before wins |
| LibIntercomm.Nest | lib/intercomm.js:408 | the nested object has exactly one key, the path's first segment |
| LibIntercomm.PathOf | lib/intercomm.js:408 | a scope has at least one segment; a string's segments contain no dot, a string without dots is its only segment, and any other value is one segment |
| LibIntercomm.ExposedApi | lib/intercomm.js:405-411 | an unscoped expose adds the collected methods as they are; a truthy scope adds exactly one key, its first segment |
| LibIntercomm.ExposeOver | lib/intercomm.js:378-413 | a bad `options` throws from reading the plan, a missing source with names to read throws from the reduce, and otherwise the collected methods, nested under a truthy scope, are merged one level deep over the given api |
| LibIntercomm.ExposeResult | lib/intercomm.js:373-414 | a 'client' node throws; every other node exposes over its api, or over `{}` when it has none |
| LibIntercomm.UnscopedExposeKeepsFunctions | test/expose.js:26-48 | an unscoped expose adds exactly the listed function-valued names, drops the rest, and keeps every other api entry |
| LibIntercomm.ScopedExposeReplacesScope | lib/intercomm.js:407-413 | a scoped expose replaces the api's whole entry for the scope with the newly collected methods |
| LibIntercomm.DottedScopeNests | test/expose.js:103-122 | a scope `outer.inner` nests the methods two objects deep |
| LibIntercomm.LibNode.Create | lib/intercomm.js:30-122 | throws as `CheckOptions` says; otherwise it keeps the given `sendMessage`, has sent nothing, and has an api exactly for 'server' and 'both' and a manager, with the node's timeout, exactly for 'client' and 'both' |
| LibIntercomm.LibNode.constructor | lib/intercomm.js:30-122 | a new node keeps its options and the normalised timeout, has an empty api exactly for 'server' and 'both', and has no pending requests, messages or events |
| LibIntercomm.LibNode.Exec | lib/intercomm.js:131-170 | guard failures throw; without a manager the call rejects with SendMessageError; otherwise it registers a request; when `sendMessage` is not a function, calling it throws a TypeError, nothing is sent, and the call rejects with the SendMessageError of that TypeError; otherwise it sends its message and rejects with SendMessageError when the send fails; either way a failed send leaves the request registered |
| LibIntercomm.LibNode.HandleResponse | lib/intercomm.js:239-256 | without a manager it raises a TypeError; an unknown request id is ignored and changes no request; a known one takes `ResponseStep` (timer disarmed, rejected with a truthy `error`, otherwise resolved with `data`) and leaves the registry, and every other request keeps all its fields |
| LibIntercomm.ResponseSettlement | lib/intercomm.js:248-252 | a truthy `error` rejects with that error, and the request resolves with `data` otherwise |
| LibIntercomm.ResponseStep | lib/request-manager.js:33-43 | a response disarms the timeout and settles the request as `ResponseSettlement` says |
| LibIntercomm.LibNode.HandleMessage | lib/intercomm.js:194-233 | does exactly what `RouteOf` decides: ignores, throws, refuses with IncorrectDestination, hands on the request, settles the response or emits the event; only a response that names a pending request changes a request, and only that one |
| LibIntercomm.LibNode.Expose | lib/intercomm.js:373-414 | the api becomes `ExposeResult`, and is left unchanged when the call throws |
| Strings.Split | lib/intercomm.js:407-411 | a dotted scope splits into at least one segment, none containing the separator |
| Strings.Join | lib/intercomm.js:407-411 | joining no segments gives the empty string; otherwise the result starts with the first segment, ends with the last, and has room for one separator between each two segments |
| Strings.JoinSplit | lib/intercomm.js:407-411 | splitting a dotted scope at its dots loses nothing |

## Left out

- Real timers and intervals (`setTimeout`, `setInterval`, `Task.startAttempting`): a timeout or retry is fired by an explicit step at a time the caller gives.
- The interval driver of `startProcessingTasks` reads the undefined `this.interval`. Only the running/stopped flag and the number of intervals started are modelled.
- Promises and EventEmitter: settlements and emitted events are values and ordered lists. Deferred callbacks run within the call that schedules them, so the order between the deferred callbacks of different calls is not modelled.
- The fall-through of the `switch` in `Task.promise` cannot be observed once the outcome is a value, and is not modelled.
- EventEmitter's special 'error' event, which throws when nobody listens, is not modelled in `LibIntercomm.LibNode.HandleMessage`.
- uuid generation, and `generateId` (which src/util.js does not define): every fresh id is a parameter.
- `processTask` is imported by src/task-manager.js but does not exist in src/task.js. Its sweep step and the `task.attempts` list follow what the tests expect.
- The `tasks` option of the TaskManager constructor (src/task-manager.js:50-56) is not modelled: a new manager starts with an empty table. In the source those initial tasks also get no finish listener.
- `TaskDroppedError`, `TimeoutError` and `MaxAttemptsReachedError` are imported but not defined in src/errors.js. They are modelled as errors named TASK_DROPPED_ERROR, TIMEOUT_ERROR and MAX_ATTEMPTS_REACHED_ERROR, as the tests expect.
- test/server.spec.js expects an `ack` message and a `method` field that src/server.js never produces. The model follows src/server.js.
- `Object.keys` order is registration order. Numeric-looking keys, which JavaScript orders first, are not singled out.
- `console.warn` is not modelled. The `onTaskDropped` option is either the default `logTaskDropped`, which throws before logging because tasks have no `toJSON`, or a supplied logger, which is assumed to return; both are recorded as a log of the tasks they receive. A supplied logger that throws is not modelled.
- The arity check `onSendMessage.length !== 1` in src/intercomm.js is not modelled: function arity is not represented, so any function passes.
- Numbers: ids are integers or `NaN`, and floating point is not modelled.
- object-path: indices in dotted scopes are not modelled, and every segment creates an object.
- JSON.parse of a string message is a parameter of `LibIntercomm.RouteOf`.
- json-message (`messageAPI`), `handleRequestMessage`, `publish`, the `loadResponseData`/`loadEventData`/`loadErrorData` loaders and the `toJSON` hooks are not part of this model. A routed lib request is recorded, not answered.
- User callbacks are assumed to return. A throwing `onUnhandledMessage`, `onEvent` or custom handler is not modelled. A callback that is not a function is modelled: calling it throws a TypeError (`Nodes.CallOutcome`).
- Servers.ResponsePayload, Intercomms.ResponsePayload, Intercomms.ExposeAll, LibIntercomm.Collect, Requests.RequestManager.GetRequest and LibRequests.LibRequestManager.GetRequest: objects are maps of their own properties, so a lookup sees no property inherited from `Object.prototype`. In the source `this.methods[method]`, `this.api[method]`, `source[methodName]` and `sentRequests[requestId]` also find inherited members. For example, a request for the method "toString" finds `Object.prototype.toString`, invokes it and is answered with success, where the model answers METHOD_NOT_DEFINED. Likewise a response whose `requestId` names an inherited member, such as "constructor", is not treated as unknown: the source calls `resolve` or `reject` on that member, which throws a TypeError.
- Error values carry a name and a string message. The `sourceError`, `method` and `id` properties of the lib/errors.js errors, and the prototype chain, are not represented.
- LibIntercomm.SendMessageError: a source error whose message is not a string gets the empty message, where JavaScript would keep that value.
- `instanceof Error` and `instanceof RequestTimeoutError` are structural: a value counts when it is built as that error.
- The engine's wording of a TypeError is abbreviated to a fixed message.
- A dependency that is not a Task cannot be built, because dependencies are typed as Tasks, so the TypeError of src/task.js:88-90 is not modelled.
- A retry of src/request-manager.js calls `fn` again. The call is recorded by its time, not as a second sent message.
- Requests.Request.Attempt: the value `fn` returns, which `attempt()` hands back to its caller, is not represented. A throw from `fn` on the first, external attempt is not represented either; it reaches that caller after the timeout is armed. A throw from `fn` on a retry is modelled (`fnThrows`): it skips the increment of the retry counter, so `Requests.AttemptBudget` holds only for retries whose `fn` returns, and `Requests.ThrowingRetriesUnbounded` shows that no bound holds otherwise. Whether the host process survives an exception thrown out of a timer callback is not modelled.
- Tasks.Task.OnDependencyRejected: the dependents' `rejected` listeners run only in `Tasks.Task.RejectNotifying`, which is given its listening dependents in attach order. `Reject`, `Attempt`, `Cancel`, `ProcessTask` and the TaskManager's drops and sweeps reject a task as if no dependent listened. So two effects of a listening dependent are not captured there. (1) The dependent is not rejected along with the dependency. (2) When a dependent has already finished, its listener throws out of the dependency's `emit`, and the dependency then never emits `finished`. A managed dependency in that state is never deregistered. The chain further down, from a dependent to its own dependents, is not followed. A dependent that lists the same dependency twice, and so listens twice, is not modelled.
- Nobody in the source observes the send promise of a Server or Intercomm answer. The model records the answer and drops that outcome.
- Options are records of optional fields, and a field left out is `None`. Every constructor is given a record. So two cases are not modelled: calling `new Client()`, `new Server()`, `new Node()` or `new Intercomm()` with no argument at all, and passing a `null` options argument. In the source both throw a TypeError from the destructuring, because none of those constructors defaults its options to `{}` (src/client.js:17-23, src/server.js:13-19, src/node.js:16-21, src/intercomm.js:40-49).
- src/index.js, index.js and the `intercomm()` factory at src/intercomm.js:322-326 only wire constructors together, and are not part of this model.

## Findings

| source | as written | input that shows it | evidently intended | confidence | as-written member | corrected member |
|---|---|---|---|---|---|---|
| src/client.js:51 | `request` calls `this.requestManager.registerRequest`, which the RequestManager of src/request-manager.js does not define | `client.request('someMethod', ['parameter-1'])` throws a TypeError before anything is sent | register the request under the generated id, as `createRequest` does | not executed | Clients.RequestAsWritten | Clients.Client.Request |
| src/intercomm.js:259 | `remoteExec` calls `registerRequest`, which does not exist; without the client role `requestManager` is undefined as well | `remoteExec('server', 'someMethod')` throws a TypeError | register the request under the generated id, then send | not executed | Intercomms.RemoteExecAsWritten | Intercomms.Intercomm.RemoteExec |
| src/client.js:40-42 | the manager is built with `{defaultRequestTimeout}`, but src/request-manager.js reads the key `timeout`, so the option is ignored; src/intercomm.js:64-66 does the same | `defaultRequestTimeout: 500` still gives every request 1000 ms | the manager's `timeout` is the default request timeout | not executed | Requests.RequestTimeoutOptionIgnored | Requests.RequestTimeoutOptionApplies |
| src/task-manager.js:13-25 | the default `onTaskDropped`, `logTaskDropped`, calls `task.toJSON()`, which src/task.js does not define, so it throws a TypeError before `task.cancel` runs at line 81 | a manager built with no options, eleven tasks and one `processTasks()`: the result rejects with the TypeError and eleven tasks stay, the oldest still idle | log the task and return, so the oldest task is cancelled with TASK_DROPPED_ERROR and at most `maxTasks` tasks remain | not executed | TaskManagers.DefaultLoggerKeepsExcess | TaskManagers.ReturningLoggerDropsExcess |
