/**
 * The TaskManager of src/task-manager.js: a table of tasks by id, kept in
 * registration order, a timeout sweep over it and admission control that
 * drops the oldest tasks beyond `maxTasks`.
 *
 * `order` is the key order `Object.keys(this.tasks)` yields and `tasks` the
 * table itself. `listeners` holds the tasks whose `finished` listener,
 * attached by `createTask`, has not fired yet: every operation on such a
 * task goes through `Perform`, which runs that listener once the task
 * finishes. `droppedLog` records each argument given to `onTaskDropped`.
 */
module TaskManagers {
  import opened Wrappers
  import opened Js
  import opened Backoff
  import opened Tasks

  predicate Distinct(s: seq<string>) {
    forall i, j :: 0 <= i < j < |s| ==> s[i] != s[j]
  }

  /** `s` without `x`: `delete this.tasks[id]` on the key order. */
  function Remove(s: seq<string>, x: string): (r: seq<string>)
    ensures forall y :: y in r <==> y in s && y != x
    ensures x !in s ==> r == s
    ensures |r| <= |s|
  {
    if s == [] then []
    else if s[0] == x then Remove(s[1..], x)
    else [s[0]] + Remove(s[1..], x)
  }

  lemma {:induction false} DistinctTail(s: seq<string>)
    requires Distinct(s) && s != []
    ensures Distinct(s[1..]) && s[0] !in s[1..]
  {
    forall j | 0 <= j < |s[1..]|
      ensures s[1..][j] != s[0]
    {
      assert s[1..][j] == s[1 + j];
    }
  }

  /** Deleting a key keeps the key order free of duplicates and shortens it by one. */
  lemma {:induction false} RemoveDistinct(s: seq<string>, x: string)
    requires Distinct(s)
    ensures Distinct(Remove(s, x))
    ensures x in s ==> |Remove(s, x)| == |s| - 1
  {
    if s != [] {
      DistinctTail(s);
      RemoveDistinct(s[1..], x);
      if s[0] != x {
        var r := Remove(s[1..], x);
        assert Remove(s, x) == [s[0]] + r;
        assert s[0] !in r;
        forall i, j | 0 <= i < j < |[s[0]] + r|
          ensures ([s[0]] + r)[i] != ([s[0]] + r)[j]
        {
          if i > 0 {
            assert ([s[0]] + r)[i] == r[i - 1];
          }
        }
        assert x in s ==> x in s[1..];
      }
    }
  }

  lemma {:induction false} RemoveMiddle(a: seq<string>, x: string, b: seq<string>)
    requires x !in a && x !in b
    ensures Remove(a + [x] + b, x) == a + b
  {
    if a == [] {
      assert ([x] + b)[1..] == b;
    } else {
      assert (a + [x] + b)[1..] == a[1..] + [x] + b;
      RemoveMiddle(a[1..], x, b);
      assert [a[0]] + (a[1..] + b) == a + b;
    }
  }

  lemma {:induction false} DistinctSplit(a: seq<string>, x: string, b: seq<string>)
    requires Distinct(a + [x] + b)
    ensures x !in a && x !in b
  {
    var s := a + [x] + b;
    assert s[|a|] == x;
    forall i | 0 <= i < |a|
      ensures a[i] != x
    {
      assert s[i] == a[i];
    }
    forall j | 0 <= j < |b|
      ensures b[j] != x
    {
      assert s[|a| + 1 + j] == b[j];
    }
  }

  /** The elements of `s` that are in `keep`, in their order in `s`. */
  function Keep(s: seq<string>, keep: set<string>): (r: seq<string>)
    ensures forall y :: y in r <==> y in s && y in keep
    ensures |r| <= |s|
  {
    if s == [] then []
    else (if s[0] in keep then [s[0]] else []) + Keep(s[1..], keep)
  }

  lemma {:induction false} KeepSnoc(s: seq<string>, x: string, keep: set<string>)
    ensures Keep(s + [x], keep) == Keep(s, keep) + (if x in keep then [x] else [])
  {
    if s == [] {
      assert ([x])[1..] == [];
    } else {
      var head := if s[0] in keep then [s[0]] else [];
      var tail := if x in keep then [x] else [];
      assert (s + [x])[0] == s[0];
      assert (s + [x])[1..] == s[1..] + [x];
      assert Keep(s + [x], keep) == head + Keep(s[1..] + [x], keep);
      KeepSnoc(s[1..], x, keep);
      assert head + (Keep(s[1..], keep) + tail) == (head + Keep(s[1..], keep)) + tail;
    }
  }

  lemma {:induction false} KeepAll(s: seq<string>, keep: set<string>)
    requires forall y :: y in s ==> y in keep
    ensures Keep(s, keep) == s
  {
    if s != [] {
      KeepAll(s[1..], keep);
    }
  }

  lemma {:induction false} KeepAgrees(s: seq<string>, a: set<string>, b: set<string>)
    requires forall y :: y in s ==> (y in a <==> y in b)
    ensures Keep(s, a) == Keep(s, b)
  {
    if s != [] {
      KeepAgrees(s[1..], a, b);
    }
  }

  /**
   * One sweep step on the key order `prefix + Keep(ids[..i], alive) + ids[i..]`:
   * a finished task's id leaves it, an unfinished one's stays in place.
   */
  lemma {:induction false} KeepStep(prefix: seq<string>, ids: seq<string>, i: nat, alive: set<string>, finished: bool)
    requires i < |ids| && Distinct(ids)
    requires Distinct(prefix + Keep(ids[..i], alive) + ids[i..])
    ensures var id := ids[i];
            var alive' := if finished then alive - {id} else alive + {id};
            && (forall k :: 0 <= k < i ==> (ids[k] in alive' <==> ids[k] in alive))
            && (id in alive' <==> !finished)
            && (if finished then Remove(prefix + Keep(ids[..i], alive) + ids[i..], id)
                else prefix + Keep(ids[..i], alive) + ids[i..])
               == prefix + Keep(ids[..i + 1], alive') + ids[i + 1..]
  {
    var id := ids[i];
    var alive' := if finished then alive - {id} else alive + {id};
    var left := prefix + Keep(ids[..i], alive);
    var rest := ids[i + 1..];
    assert ids[i..] == [id] + rest;
    assert ids == ids[..i] + [id] + rest;
    assert ids[..i + 1] == ids[..i] + [id];
    DistinctSplit(ids[..i], id, rest);
    KeepAgrees(ids[..i], alive, alive');
    KeepSnoc(ids[..i], id, alive');
    var tail := if finished then [] else [id];
    assert prefix + Keep(ids[..i + 1], alive') == left + tail;
    assert prefix + Keep(ids[..i], alive) + ids[i..] == left + [id] + rest;
    DistinctSplit(left, id, rest);
    OrderStep(left, id, rest, finished);
  }

  /** Taking `x` out of `a + [x] + b` or leaving it there, when `x` is in neither `a` nor `b`. */
  lemma {:induction false} OrderStep(a: seq<string>, x: string, b: seq<string>, finished: bool)
    requires x !in a && x !in b
    ensures (if finished then Remove(a + [x] + b, x) else a + [x] + b)
         == a + (if finished then [] else [x]) + b
  {
    if finished {
      RemoveMiddle(a, x, b);
      assert a + [] + b == a + b;
    }
  }



  /** The ids in the key order, as a set. */
  function Elements(s: seq<string>): set<string> {
    if s == [] then {} else {s[0]} + Elements(s[1..])
  }

  lemma {:induction false} ElementIn(s: seq<string>, x: string)
    ensures x in Elements(s) <==> x in s
  {
    if s != [] {
      ElementIn(s[1..], x);
      assert x in s <==> x == s[0] || x in s[1..];
    }
  }

  lemma {:induction false} ElementsAppend(s: seq<string>, x: string)
    ensures Elements(s + [x]) == Elements(s) + {x}
  {
    if s == [] {
      assert [x][1..] == [];
    } else {
      assert (s + [x])[1..] == s[1..] + [x];
      ElementsAppend(s[1..], x);
    }
  }

  lemma {:induction false} ElementsRemove(s: seq<string>, x: string)
    ensures Elements(Remove(s, x)) == Elements(s) - {x}
  {
    if s != [] {
      ElementsRemove(s[1..], x);
    }
  }

  lemma {:induction false} ElementsCardinality(s: seq<string>)
    requires Distinct(s)
    ensures |Elements(s)| == |s|
  {
    if s != [] {
      DistinctTail(s);
      ElementsCardinality(s[1..]);
      ElementIn(s[1..], s[0]);
    }
  }

  /** `Math.max(0, taskCount - maxTasks)`: how many of the oldest tasks a sweep drops. */
  function Excess(count: nat, maxTasks: nat): (e: nat)
    ensures e <= count
    ensures count - e <= maxTasks
    ensures count <= maxTasks ==> e == 0
    ensures count > maxTasks ==> count - e == maxTasks
  {
    if count > maxTasks then count - maxTasks else 0
  }

  /** `taskIds.slice(0, excess)` */
  function Dropped(ids: seq<string>, maxTasks: nat): seq<string> {
    ids[..Excess(|ids|, maxTasks)]
  }

  /** `taskIds.slice(excess)` */
  function Swept(ids: seq<string>, maxTasks: nat): seq<string> {
    ids[Excess(|ids|, maxTasks)..]
  }

  /** Seven tasks and maxTasks 5: task1 and task2 are dropped, the other five are swept. */
  lemma {:induction false} AdmissionSample()
    ensures var ids := ["task1", "task2", "task3", "task4", "task5", "task6", "task7"];
            && Dropped(ids, 5) == ["task1", "task2"]
            && Swept(ids, 5) == ["task3", "task4", "task5", "task6", "task7"]
  {
  }

  /** Dropped and swept ids split the table: every id is in exactly one of them, in order. */
  lemma {:induction false} AdmissionPartition(ids: seq<string>, maxTasks: nat)
    ensures Dropped(ids, maxTasks) + Swept(ids, maxTasks) == ids
    ensures |Swept(ids, maxTasks)| <= maxTasks
    ensures |ids| > maxTasks ==> |Swept(ids, maxTasks)| == maxTasks
    ensures |ids| <= maxTasks ==> Dropped(ids, maxTasks) == []
  {
  }

  /** The log entries `onTaskDropped` receives for the given tasks. */
  function Logged(ts: seq<Task>): (log: seq<Option<Task>>)
    ensures |log| == |ts|
    ensures forall k :: 0 <= k < |ts| ==> log[k] == Some(ts[k])
  {
    seq(|ts|, k requires 0 <= k < |ts| => Some(ts[k]))
  }

  /** Logging one more task extends the log by its entry. */
  lemma {:induction false} LoggedSnoc(log: seq<Option<Task>>, ts: seq<Task>, i: nat)
    requires i < |ts|
    ensures log + Logged(ts[..i]) + [Some(ts[i])] == log + Logged(ts[..i + 1])
  {
    assert Logged(ts[..i + 1]) == Logged(ts[..i]) + [Some(ts[i])];
  }

  /** The tasks registered under `ids`, in order. */
  function TasksAt(table: map<string, Task>, ids: seq<string>): (ts: seq<Task>)
    requires forall k :: 0 <= k < |ids| ==> ids[k] in table
    ensures |ts| == |ids|
    ensures forall k :: 0 <= k < |ids| ==> ts[k] == table[ids[k]]
  {
    seq(|ids|, k requires 0 <= k < |ids| => table[ids[k]])
  }

  /** The ids among `ids` whose tasks, in the states `ss`, have not finished. */
  function Unfinished(ids: seq<string>, ss: seq<TaskState>): (alive: set<string>)
    requires |ss| == |ids|
    ensures forall k :: 0 <= k < |ids| ==> (!IsTerminal(ss[k].status) ==> ids[k] in alive)
    ensures forall id :: id in alive ==> exists k :: 0 <= k < |ids| && ids[k] == id && !IsTerminal(ss[k].status)
  {
    set k | 0 <= k < |ids| && !IsTerminal(ss[k].status) :: ids[k]
  }

  /**
   * The `onTaskDropped` option. `LogTaskDropped` is the default,
   * `logTaskDropped` (src/task-manager.js:13-15): it reads `task.toJSON()`,
   * which neither Task nor EventEmitter defines, so it throws a TypeError
   * before it logs anything. `DropCallback` is a function supplied by the
   * caller, which returns.
   */
  datatype DropLogger = LogTaskDropped | DropCallback

  /** The options `new TaskManager(options)` accepts; `None` is an option left out. */
  datatype ManagerOptions = ManagerOptions(
    backoff: Option<BackoffOption>,
    taskProcessingInterval: Option<nat>,
    taskDefaultOptions: Option<TaskOptions>,
    maxTasks: Option<nat>,
    onTaskDropped: Option<DropLogger>)

  /** Every option left out. */
  const NoManagerOptions := ManagerOptions(None, None, None, None, None)

  const TaskMissingError := TypeError("Cannot read properties of undefined (reading 'cancel')")
  /** `logTaskDropped(task)` on a Task: `task.toJSON` is `undefined`. */
  const ToJsonMissingError := TypeError("task.toJSON is not a function")
  /** `logTaskDropped(undefined)`, for an id with no task. */
  const ToJsonOfUndefinedError := TypeError("Cannot read properties of undefined (reading 'toJSON')")

  /**
   * The key order lists each registered id once, and every registered task
   * is listened to and sits under its own id.
   */
  ghost predicate TableOk(order: seq<string>, tasks: map<string, Task>, listeners: set<Task>) {
    && Distinct(order)
    && tasks.Keys == Elements(order)
    && (forall id :: id in tasks ==> tasks[id] in listeners && tasks[id].id == id)
  }

  /** Registering a listened-to task under its id keeps the table consistent. */
  lemma {:induction false} RegisterOk(order: seq<string>, tasks: map<string, Task>, listeners: set<Task>, t: Task)
    requires TableOk(order, tasks, listeners)
    ensures TableOk(if t.id in tasks then order else order + [t.id], tasks[t.id := t], listeners + {t})
  {
    if t.id !in tasks {
      ElementIn(order, t.id);
      ElementsAppend(order, t.id);
      forall i, j | 0 <= i < j < |order + [t.id]|
        ensures (order + [t.id])[i] != (order + [t.id])[j]
      {
        if j == |order| {
          assert order[i] in order;
        }
      }
    }
  }

  /** Deleting the entry of a finished task `t` keeps the table consistent without `t`. */
  lemma {:induction false} DeregisterOk(order: seq<string>, tasks: map<string, Task>, listeners: set<Task>, t: Task)
    requires TableOk(order, tasks, listeners)
    ensures TableOk(Remove(order, t.id), tasks - {t.id}, listeners - {t})
    ensures t.id in tasks ==> |Remove(order, t.id)| == |order| - 1
  {
    RemoveDistinct(order, t.id);
    ElementsRemove(order, t.id);
    ElementIn(order, t.id);
    forall id | id in tasks - {t.id}
      ensures (tasks - {t.id})[id] in listeners - {t}
    {
      assert tasks[id].id == id;
    }
  }

  /** Every task in `ts` is valid and has not finished. */
  ghost predicate Live(ts: set<Task>)
    reads ts
  {
    forall t {:trigger t.Valid()} :: t in ts ==> t.Valid() && !IsTerminal(t.status)
  }

  lemma {:induction false} LiveAdd(ts: set<Task>, t: Task)
    requires Live(ts) && t.Valid() && !IsTerminal(t.status)
    ensures Live(ts + {t})
  {
  }

  class TaskManager {
    const backoff: BackoffOption
    const taskProcessingInterval: nat
    const taskDefaultOptions: TaskOptions
    const maxTasks: nat
    const onTaskDropped: DropLogger

    var order: seq<string>
    var tasks: map<string, Task>
    var listeners: set<Task>
    var droppedLog: seq<Option<Task>>
    var processing: bool
    var intervalsStarted: nat

    /**
     * The key order lists each registered id once, every registered task is
     * listened to and sits under its own id, and every listened-to task is
     * valid and still unfinished.
     */
    ghost predicate Valid()
      reads this, listeners
    {
      TableValid() && Live(listeners)
    }

    ghost predicate TableValid()
      reads this
    {
      TableOk(order, tasks, listeners)
    }

    /** The registered tasks under the given ids. */
    function TasksOf(ids: seq<string>): set<Task>
      reads this
    {
      set id | id in ids && id in tasks :: tasks[id]
    }

    /**
     * `new TaskManager(options)`: defaults are `backoffExponential()`, a
     * 100 ms interval, no task defaults, at most 10 tasks and the
     * `logTaskDropped` logger; there are no tasks yet and no sweep interval
     * running.
     */
    constructor (options: ManagerOptions)
      ensures Valid()
      ensures backoff == OrDefault(options.backoff, DefaultBackoff())
      ensures taskProcessingInterval == OrDefault(options.taskProcessingInterval, 100)
      ensures taskDefaultOptions == OrDefault(options.taskDefaultOptions, NoOptions)
      ensures maxTasks == OrDefault(options.maxTasks, 10)
      ensures onTaskDropped == OrDefault(options.onTaskDropped, LogTaskDropped)
      ensures order == [] && tasks == map[] && listeners == {} && droppedLog == []
      ensures !processing && intervalsStarted == 0
    {
      backoff := OrDefault(options.backoff, DefaultBackoff());
      taskProcessingInterval := OrDefault(options.taskProcessingInterval, 100);
      taskDefaultOptions := OrDefault(options.taskDefaultOptions, NoOptions);
      maxTasks := OrDefault(options.maxTasks, 10);
      onTaskDropped := OrDefault(options.onTaskDropped, LogTaskDropped);
      order := [];
      tasks := map[];
      listeners := {};
      droppedLog := [];
      processing := false;
      intervalsStarted := 0;
    }

    /** `taskCount`, the number of registered tasks. */
    function TaskCount(): (n: nat)
      requires Valid()
      reads this, listeners
      ensures n == |tasks.Keys|
    {
      ElementsCardinality(order);
      |order|
    }

    /** `getTask(id)`: the task registered under `id`, or nothing; it never throws. */
    function GetTask(id: string): (r: Option<Task>)
      reads this
      ensures r.Some? <==> id in tasks
      ensures r.Some? ==> r.value == tasks[id]
    {
      if id in tasks then Some(tasks[id]) else None
    }

    /**
     * `createTask(options)`: a Task built from `{...taskDefaultOptions,
     * ...options}` is registered under its id (replacing an earlier one with
     * the same id, which keeps its place in the key order), and gets the
     * listener that deregisters it once it finishes.
     */
    method CreateTask(options: TaskOptions, freshId: string) returns (task: Task)
      requires Valid()
      modifies this
      ensures Valid() && fresh(task)
      ensures task.State() == NewState
      ensures ConfiguredBy(task, MergeOptions(taskDefaultOptions, options), freshId)
      ensures tasks == old(tasks)[task.id := task]
      ensures order == if task.id in old(tasks) then old(order) else old(order) + [task.id]
      ensures listeners == old(listeners) + {task}
      ensures droppedLog == old(droppedLog)
      ensures processing == old(processing) && intervalsStarted == old(intervalsStarted)
    {
      task := new Task(MergeOptions(taskDefaultOptions, options), freshId);
      Register(task);
    }

    /** `this.tasks[task.id] = task` and `task.once(TASK_FINISHED, ...)`. */
    method Register(task: Task)
      requires Valid() && task.Valid() && !IsTerminal(task.status)
      modifies this
      ensures Valid()
      ensures tasks == old(tasks)[task.id := task]
      ensures order == if task.id in old(tasks) then old(order) else old(order) + [task.id]
      ensures listeners == old(listeners) + {task}
      ensures droppedLog == old(droppedLog)
      ensures processing == old(processing) && intervalsStarted == old(intervalsStarted)
    {
      RegisterOk(order, tasks, listeners, task);
      LiveAdd(listeners, task);
      if task.id !in tasks {
        order := order + [task.id];
      }
      tasks := tasks[task.id := task];
      listeners := listeners + {task};
    }

    /**
     * An operation on the listened-to task `t`. Once it leaves `t` resolved
     * or rejected, `t`'s `finished` listener runs: it is detached and the
     * entry under `t.id` is deleted, whatever task that entry holds.
     */
    method Perform(t: Task, op: TaskOp) returns (outcome: Outcome<Value>)
      requires Valid() && t in listeners
      modifies this, t
      ensures Valid()
      ensures Step(t.State(), outcome) == ApplyOp(old(t.State()), t.maxAttempts, t.timeout, op)
      ensures IsTerminal(t.status) ==>
        && listeners == old(listeners) - {t}
        && tasks == old(tasks) - {t.id}
        && order == Remove(old(order), t.id)
      ensures !IsTerminal(t.status) ==>
        listeners == old(listeners) && tasks == old(tasks) && order == old(order)
      ensures droppedLog == old(droppedLog)
      ensures processing == old(processing) && intervalsStarted == old(intervalsStarted)
    {
      outcome := t.Apply(op);
      Finished(t);
    }

    /**
     * The `finished` listener of `t`, run after an operation on it: if `t`
     * has finished, the listener is detached and the entry under `t.id` is
     * deleted; otherwise nothing happens.
     */
    method Finished(t: Task)
      requires TableValid() && t in listeners && t.Valid() && Live(listeners - {t})
      modifies this
      ensures Valid()
      ensures IsTerminal(t.status) ==>
        && listeners == old(listeners) - {t}
        && tasks == old(tasks) - {t.id}
        && order == Remove(old(order), t.id)
      ensures !IsTerminal(t.status) ==>
        listeners == old(listeners) && tasks == old(tasks) && order == old(order)
      ensures droppedLog == old(droppedLog)
      ensures processing == old(processing) && intervalsStarted == old(intervalsStarted)
    {
      if IsTerminal(t.status) {
        DeregisterOk(order, tasks, listeners, t);
        listeners := listeners - {t};
        tasks := tasks - {t.id};
        order := Remove(order, t.id);
      } else {
        LiveAdd(listeners - {t}, t);
        assert listeners - {t} + {t} == listeners;
      }
    }

    /** The task registered under `id`, if any, as a frame. */
    function TaskSet(id: string): set<Task>
      reads this
    {
      if id in tasks then {tasks[id]} else {}
    }

    /** Whether `dropTask` gets past `onTaskDropped`: only a supplied logger returns. */
    predicate DropCancels() {
      onTaskDropped.DropCallback?
    }

    /** What `dropTask` does to a registered task in state `s`. */
    function DropStep(s: TaskState): TaskState {
      if DropCancels() then CancelStep(s, TaskDroppedError) else s
    }

    /** What `dropTask` throws for a registered task, if anything. */
    function DropOutcome(): Outcome<Value> {
      if DropCancels() then Pass else Throw(ToJsonMissingError)
    }

    /**
     * `dropTask(id)`: `onTaskDropped` receives the task. The default logger
     * throws a TypeError there, so the task is neither cancelled nor
     * deregistered. After a supplied logger, the task is cancelled with
     * TASK_DROPPED_ERROR, so it ends rejected and is deregistered. For an
     * unknown id `onTaskDropped` receives `undefined`; the default logger
     * throws reading its `toJSON`, and after a supplied one the cancellation
     * throws.
     */
    method DropTask(id: string) returns (outcome: Outcome<Value>)
      requires Valid()
      modifies this, TaskSet(id)
      ensures Valid()
      ensures droppedLog == old(droppedLog) + [if id in old(tasks) then Some(old(tasks)[id]) else None]
      ensures id !in old(tasks) ==>
        && outcome == Throw(if DropCancels() then TaskMissingError else ToJsonOfUndefinedError)
        && tasks == old(tasks) && order == old(order) && listeners == old(listeners)
      ensures id in old(tasks) && !DropCancels() ==>
        && outcome == Throw(ToJsonMissingError)
        && old(tasks)[id].State() == old(tasks[id].State())
        && tasks == old(tasks) && order == old(order) && listeners == old(listeners)
      ensures id in old(tasks) && DropCancels() ==>
        && outcome == Pass
        && old(tasks)[id].State() == CancelStep(old(tasks[id].State()), TaskDroppedError)
        && old(tasks)[id].status == Rejected && old(tasks)[id].error == TaskDroppedError
        && tasks == old(tasks) - {id}
        && order == Remove(old(order), id) && |order| == |old(order)| - 1
        && listeners == old(listeners) - {old(tasks)[id]}
      ensures processing == old(processing) && intervalsStarted == old(intervalsStarted)
    {
      if id !in tasks {
        droppedLog := droppedLog + [None];
        return Throw(if DropCancels() then TaskMissingError else ToJsonOfUndefinedError);
      }
      var t := tasks[id];
      droppedLog := droppedLog + [Some(t)];
      if !DropCancels() {
        return Throw(ToJsonMissingError);
      }
      assert t.Valid() && !IsTerminal(t.status);
      DeregisterOk(order, tasks, listeners, t);
      outcome := Perform(t, DoCancel(TaskDroppedError));
    }

    /**
     * The states the sweep takes the tasks `swept`, in the states `before`,
     * to: `processTask` at `now` on each.
     */
    ghost predicate SweepTargets(swept: seq<Task>, before: seq<TaskState>, after: seq<TaskState>, now: int) {
      && |swept| == |before| == |after|
      && forall k :: 0 <= k < |swept| ==>
           after[k] == ProcessStep(before[k], swept[k].maxAttempts, swept[k].timeout, backoff, now)
    }

    /**
     * After sweeping the first `i` of `ids`, the suffix of the key order after
     * `prefix`, whose tasks `swept` were in the states `before` and whose table
     * was `tasks0`: those tasks are in their target states `after`, the ids of
     * the unfinished ones are `alive` and stay in order, the others are
     * untouched and still registered, and no entry was replaced.
     */
    ghost predicate Sweeping(ids: seq<string>, swept: seq<Task>, before: seq<TaskState>, after: seq<TaskState>,
                             prefix: seq<string>, tasks0: map<string, Task>, alive: set<string>, i: nat)
      reads this, listeners, swept
    {
      Valid() && SweptSoFar(ids, swept, States(swept), before, after, prefix, order, tasks, tasks0, alive, i)
    }

    /**
     * `Sweeping` for a key order `order` and a table `tasks`, with `ss` the
     * current states of `swept`.
     */
    ghost predicate SweptSoFar(ids: seq<string>, swept: seq<Task>, ss: seq<TaskState>, before: seq<TaskState>,
                               after: seq<TaskState>, prefix: seq<string>, order: seq<string>, tasks: map<string, Task>,
                               tasks0: map<string, Task>, alive: set<string>, i: nat)
    {
      && |swept| == |ids| && |ss| == |ids| && |before| == |ids| && |after| == |ids| && i <= |ids| && Distinct(ids)
      && order == prefix + Keep(ids[..i], alive) + ids[i..]
      && (forall k :: 0 <= k < |ids| ==> swept[k].id == ids[k])
      && (forall k :: 0 <= k < i ==> (ids[k] in alive <==> !IsTerminal(ss[k].status)))
      && (forall k :: 0 <= k < i ==> ss[k] == after[k])
      && (forall k :: i <= k < |ids| ==> ids[k] in tasks && tasks[ids[k]] == swept[k] && ss[k] == before[k])
      && (forall id :: id in tasks ==> id in tasks0 && tasks[id] == tasks0[id])
    }

    /** One step of `SweepTasks`: `processTask` on the task under `ids[i]`. */
    method SweepNext(ids: seq<string>, ghost swept: seq<Task>, ghost before: seq<TaskState>, ghost after: seq<TaskState>,
                     now: int, ghost prefix: seq<string>, ghost tasks0: map<string, Task>, ghost alive: set<string>, i: nat)
      returns (ghost alive': set<string>)
      requires i < |ids| && Sweeping(ids, swept, before, after, prefix, tasks0, alive, i)
      requires SweepTargets(swept, before, after, now)
      modifies this, swept[i]
      ensures Sweeping(ids, swept, before, after, prefix, tasks0, alive', i + 1)
      ensures listeners <= old(listeners)
      ensures droppedLog == old(droppedLog)
      ensures processing == old(processing) && intervalsStarted == old(intervalsStarted)
    {
      var id := ids[i];
      var t := tasks[id];
      ghost var ss, order0, table0 := States(swept), order, tasks;
      var _ := Perform(t, DoProcess(now, backoff));
      assert t.State() == after[i];
      forall k | 0 <= k < |ids| && k != i
        ensures swept[k].State() == ss[k]
      {
        assert swept[k].id != swept[i].id;
      }
      alive' := if IsTerminal(t.status) then alive - {id} else alive + {id};
      SweptStep(ids, swept, ss, States(swept), before, after, prefix, order0, order, table0, tasks, tasks0, alive, i);
    }

    /**
     * The bookkeeping of `SweepNext`: once the task under `ids[i]` has
     * taken its sweep step, left the table if it finished, and no other
     * swept task has changed, the sweep has covered `ids[..i + 1]`.
     */
    lemma {:induction false} SweptStep(ids: seq<string>, swept: seq<Task>, ss: seq<TaskState>, ss': seq<TaskState>,
                                       before: seq<TaskState>, after: seq<TaskState>, prefix: seq<string>,
                                       order: seq<string>, order': seq<string>, tasks: map<string, Task>,
                                       tasks': map<string, Task>, tasks0: map<string, Task>, alive: set<string>, i: nat)
      requires i < |ids| && SweptSoFar(ids, swept, ss, before, after, prefix, order, tasks, tasks0, alive, i)
      requires Distinct(order) && |ss'| == |ids| && ss'[i] == after[i]
      requires forall k :: 0 <= k < |ids| && k != i ==> ss'[k] == ss[k]
      requires IsTerminal(ss'[i].status) ==> tasks' == tasks - {ids[i]} && order' == Remove(order, ids[i])
      requires !IsTerminal(ss'[i].status) ==> tasks' == tasks && order' == order
      ensures SweptSoFar(ids, swept, ss', before, after, prefix, order', tasks', tasks0,
                         if IsTerminal(ss'[i].status) then alive - {ids[i]} else alive + {ids[i]}, i + 1)
    {
      var id := ids[i];
      var finished := IsTerminal(ss'[i].status);
      var alive' := if finished then alive - {id} else alive + {id};
      KeepStep(prefix, ids, i, alive, finished);
      assert order' == prefix + Keep(ids[..i + 1], alive') + ids[i + 1..];
      forall k | i + 1 <= k < |ids|
        ensures ids[k] in tasks' && tasks'[ids[k]] == swept[k] && ss'[k] == before[k]
      {
        assert ids[k] != id;
      }
    }

    /**
     * The timeout sweep over `ids`, a suffix of the key order, in order:
     * `processTask` on each of their tasks `swept`. Finished ones leave the
     * table; the others keep their place.
     */
    method SweepTasks(ids: seq<string>, now: int, ghost prefix: seq<string>, ghost swept: seq<Task>, ghost keep: seq<Task>)
      requires Valid()
      requires order == prefix + ids
      requires |swept| == |ids|
      requires forall k :: 0 <= k < |ids| ==> ids[k] in tasks && tasks[ids[k]] == swept[k]
      requires forall k :: 0 <= k < |keep| ==> keep[k] !in swept
      modifies this, swept
      ensures Valid()
      ensures unchanged(keep)
      ensures forall k :: 0 <= k < |ids| ==>
        swept[k].State() == ProcessStep(old(swept[k].State()), swept[k].maxAttempts, swept[k].timeout, backoff, now)
      ensures order == prefix + Keep(ids, Unfinished(ids, States(swept)))
      ensures forall id :: id in tasks ==> id in old(tasks) && tasks[id] == old(tasks)[id]
      ensures listeners <= old(listeners)
      ensures droppedLog == old(droppedLog)
      ensures processing == old(processing) && intervalsStarted == old(intervalsStarted)
    {
      ghost var before := States(swept);
      ghost var after := seq(|ids|, k requires 0 <= k < |ids| =>
                               ProcessStep(before[k], swept[k].maxAttempts, swept[k].timeout, backoff, now));
      SweepingStart(ids, prefix, swept, after);
      ghost var alive := SweepEach(ids, swept, before, after, now, prefix, tasks);
      SweepingEnd(ids, swept, before, after, now, prefix, old(tasks), alive);
    }

    /** The loop of `SweepTasks`: the sweep of each of `ids` in turn. */
    method SweepEach(ids: seq<string>, ghost swept: seq<Task>, ghost before: seq<TaskState>, ghost after: seq<TaskState>,
                     now: int, ghost prefix: seq<string>, ghost tasks0: map<string, Task>)
      returns (ghost alive: set<string>)
      requires Sweeping(ids, swept, before, after, prefix, tasks0, {}, 0)
      requires SweepTargets(swept, before, after, now)
      modifies this, swept
      ensures Sweeping(ids, swept, before, after, prefix, tasks0, alive, |ids|)
      ensures listeners <= old(listeners)
      ensures droppedLog == old(droppedLog)
      ensures processing == old(processing) && intervalsStarted == old(intervalsStarted)
    {
      alive := {};
      var i := 0;
      while i < |ids|
        invariant Sweeping(ids, swept, before, after, prefix, tasks0, alive, i)
        invariant listeners <= old(listeners)
        invariant droppedLog == old(droppedLog)
        invariant processing == old(processing) && intervalsStarted == old(intervalsStarted)
      {
        alive := SweepNext(ids, swept, before, after, now, prefix, tasks0, alive, i);
        i := i + 1;
      }
    }

    lemma {:induction false} SweepingStart(ids: seq<string>, prefix: seq<string>, swept: seq<Task>, after: seq<TaskState>)
      requires Valid()
      requires order == prefix + ids
      requires |swept| == |ids| == |after|
      requires forall k :: 0 <= k < |ids| ==> ids[k] in tasks && tasks[ids[k]] == swept[k]
      ensures Sweeping(ids, swept, States(swept), after, prefix, tasks, {}, 0)
    {
      assert ids[..0] == [];
      forall j, k | 0 <= j < k < |ids|
        ensures ids[j] != ids[k]
      {
        assert order[|prefix| + j] == ids[j] && order[|prefix| + k] == ids[k];
      }
    }

    lemma {:induction false} SweepingEnd(ids: seq<string>, swept: seq<Task>, before: seq<TaskState>, after: seq<TaskState>,
                                          now: int, prefix: seq<string>, tasks0: map<string, Task>, alive: set<string>)
      requires Sweeping(ids, swept, before, after, prefix, tasks0, alive, |ids|)
      requires SweepTargets(swept, before, after, now)
      ensures Valid()
      ensures forall k :: 0 <= k < |ids| ==>
        swept[k].State() == ProcessStep(before[k], swept[k].maxAttempts, swept[k].timeout, backoff, now)
      ensures order == prefix + Keep(ids, Unfinished(ids, States(swept)))
      ensures forall id :: id in tasks ==> id in tasks0 && tasks[id] == tasks0[id]
    {
      assert ids[..|ids|] == ids;
      assert ids[|ids|..] == [];
      KeepAgrees(ids, alive, Unfinished(ids, States(swept)));
    }

    /**
     * After dropping the first `i` of `ids`, a prefix of the key order
     * `order0` whose tasks `victims` were in the states `before`: those have
     * taken their drop step and are logged after `log0`; the others are
     * untouched. The tasks not yet dropped are still registered, and so are
     * the dropped ones when the logger throws.
     */
    ghost predicate Dropping(ids: seq<string>, victims: seq<Task>, before: seq<TaskState>,
                             order0: seq<string>, tasks0: map<string, Task>, log0: seq<Option<Task>>, i: nat)
      reads this, listeners, victims
    {
      && Valid()
      && |victims| == |ids| && |before| == |ids| && i <= |ids|
      && |ids| <= |order0| && order0[..|ids|] == ids && Distinct(ids)
      && order == (if DropCancels() then order0[i..] else order0)
      && (forall k :: 0 <= k < |ids| ==> victims[k].id == ids[k])
      && (forall k :: 0 <= k < i ==> victims[k].State() == DropStep(before[k]))
      && (forall k :: i <= k < |ids| ==> victims[k].State() == before[k])
      && (forall k :: (if DropCancels() then i else 0) <= k < |ids| ==>
            ids[k] in tasks && tasks[ids[k]] == victims[k])
      && droppedLog == log0 + Logged(victims[..i])
      && (forall id :: id in tasks ==> id in tasks0 && tasks[id] == tasks0[id])
    }

    /** One step of `DropTasks`: `dropTask(ids[i])`. */
    method DropNext(ids: seq<string>, ghost victims: seq<Task>, ghost before: seq<TaskState>,
                    ghost order0: seq<string>, ghost tasks0: map<string, Task>, ghost log0: seq<Option<Task>>, i: nat)
      returns (outcome: Outcome<Value>)
      requires i < |ids| && Dropping(ids, victims, before, order0, tasks0, log0, i)
      modifies this, victims[i]
      ensures Dropping(ids, victims, before, order0, tasks0, log0, i + 1)
      ensures outcome == DropOutcome()
      ensures listeners <= old(listeners)
      ensures processing == old(processing) && intervalsStarted == old(intervalsStarted)
    {
      var id := ids[i];
      assert order0[i] == ids[i];
      if DropCancels() {
        assert id == order[0];
        DistinctTail(order);
      }
      LoggedSnoc(log0, victims, i);
      label Pre:
      outcome := DropTask(id);
      forall k | 0 <= k < |ids| && k != i
        ensures victims[k].State() == old@Pre(victims[k].State())
      {
        assert victims[k].id != victims[i].id;
      }
    }

    /**
     * `Promise.all` over `dropTask` for each of `ids`, a prefix of the key
     * order, in order; `victims` are the tasks registered under them. The
     * result rejects with the first drop that throws.
     */
    method DropTasks(ids: seq<string>, ghost rest: seq<string>, ghost victims: seq<Task>, ghost keep: seq<Task>)
      returns (outcome: Outcome<Value>)
      requires Valid()
      requires order == ids + rest
      requires |victims| == |ids|
      requires forall k :: 0 <= k < |ids| ==> ids[k] in tasks && tasks[ids[k]] == victims[k]
      requires forall k :: 0 <= k < |keep| ==> keep[k] !in victims
      modifies this, victims
      ensures Valid()
      ensures unchanged(keep)
      ensures outcome == if |ids| == 0 then Pass else DropOutcome()
      ensures forall k :: 0 <= k < |ids| ==> victims[k].State() == DropStep(old(victims[k].State()))
      ensures droppedLog == old(droppedLog) + Logged(victims)
      ensures order == if DropCancels() then rest else ids + rest
      ensures forall id :: id in tasks ==> id in old(tasks) && tasks[id] == old(tasks)[id]
      ensures listeners <= old(listeners)
      ensures processing == old(processing) && intervalsStarted == old(intervalsStarted)
    {
      ghost var before := States(victims);
      DroppingStart(ids, rest, victims);
      outcome := DropEach(ids, victims, before, order, tasks, droppedLog);
      DroppingEnd(ids, rest, victims, before, old(order), old(tasks), old(droppedLog));
    }

    /** The loop of `DropTasks`: `dropTask` for each of `ids` in turn. */
    method DropEach(ids: seq<string>, ghost victims: seq<Task>, ghost before: seq<TaskState>,
                    ghost order0: seq<string>, ghost tasks0: map<string, Task>, ghost log0: seq<Option<Task>>)
      returns (outcome: Outcome<Value>)
      requires Dropping(ids, victims, before, order0, tasks0, log0, 0)
      modifies this, victims
      ensures Dropping(ids, victims, before, order0, tasks0, log0, |ids|)
      ensures outcome == if |ids| == 0 then Pass else DropOutcome()
      ensures listeners <= old(listeners)
      ensures processing == old(processing) && intervalsStarted == old(intervalsStarted)
    {
      outcome := Pass;
      var i := 0;
      while i < |ids|
        invariant Dropping(ids, victims, before, order0, tasks0, log0, i)
        invariant outcome == if i == 0 then Pass else DropOutcome()
        invariant listeners <= old(listeners)
        invariant processing == old(processing) && intervalsStarted == old(intervalsStarted)
      {
        outcome := DropNext(ids, victims, before, order0, tasks0, log0, i);
        i := i + 1;
      }
    }

    lemma {:induction false} DroppingStart(ids: seq<string>, rest: seq<string>, victims: seq<Task>)
      requires Valid()
      requires order == ids + rest
      requires |victims| == |ids|
      requires forall k :: 0 <= k < |ids| ==> ids[k] in tasks && tasks[ids[k]] == victims[k]
      ensures Dropping(ids, victims, States(victims), order, tasks, droppedLog, 0)
    {
      assert order[..|ids|] == ids;
      forall j, k | 0 <= j < k < |ids|
        ensures ids[j] != ids[k]
      {
        assert order[j] == ids[j] && order[k] == ids[k];
      }
      assert victims[..0] == [];
    }

    lemma {:induction false} DroppingEnd(ids: seq<string>, rest: seq<string>, victims: seq<Task>, before: seq<TaskState>,
                                         order0: seq<string>, tasks0: map<string, Task>, log0: seq<Option<Task>>)
      requires order0 == ids + rest
      requires Dropping(ids, victims, before, order0, tasks0, log0, |ids|)
      ensures Valid()
      ensures forall k :: 0 <= k < |ids| ==> victims[k].State() == DropStep(before[k])
      ensures droppedLog == log0 + Logged(victims)
      ensures order == if DropCancels() then rest else ids + rest
      ensures forall id :: id in tasks ==> id in tasks0 && tasks[id] == tasks0[id]
    {
      assert victims[..|ids|] == victims;
      assert order0[|ids|..] == rest;
    }

    /**
     * `processTasks(now)`: every task but the oldest `max(0, taskCount -
     * maxTasks)` in key order is swept, and then those oldest ones are
     * dropped. With a logger that returns, at most `maxTasks` tasks are
     * registered afterwards. With the default logger every drop throws, the
     * result rejects with its TypeError and the oldest tasks stay.
     */
    method ProcessTasks(now: int) returns (outcome: Outcome<Value>)
      requires Valid()
      modifies this, tasks.Values
      ensures Valid()
      ensures DropCancels() ==> |order| <= maxTasks
      ensures outcome == if |Dropped(old(order), maxTasks)| == 0 then Pass else DropOutcome()
      ensures forall k :: 0 <= k < |old(order)| ==> old(order)[k] in old(tasks)
      ensures var dropped := TasksAt(old(tasks), Dropped(old(order), maxTasks));
        forall k :: 0 <= k < |dropped| ==> dropped[k].State() == DropStep(old(dropped[k].State()))
      ensures droppedLog == old(droppedLog) + Logged(TasksAt(old(tasks), Dropped(old(order), maxTasks)))
      ensures var swept := TasksAt(old(tasks), Swept(old(order), maxTasks));
        forall k :: 0 <= k < |swept| ==>
          swept[k].State() == ProcessStep(old(swept[k].State()), swept[k].maxAttempts, swept[k].timeout, backoff, now)
      ensures var survivors := Keep(Swept(old(order), maxTasks),
                                    Unfinished(Swept(old(order), maxTasks), States(TasksAt(old(tasks), Swept(old(order), maxTasks)))));
              order == if DropCancels() then survivors else Dropped(old(order), maxTasks) + survivors
      ensures forall id :: id in tasks ==> id in old(tasks) && tasks[id] == old(tasks)[id]
      ensures listeners <= old(listeners)
      ensures processing == old(processing) && intervalsStarted == old(intervalsStarted)
    {
      var toDrop, victims, swept, survivors := SweepNewest(now);
      outcome := DropTasks(toDrop, survivors, victims, swept);
      if !DropCancels() {
        assert order == toDrop + survivors;
      }
    }

    /**
     * The first half of `processTasks(now)`: the sweep of all but the oldest
     * `max(0, taskCount - maxTasks)` tasks, which are returned with their
     * tasks `victims` and left as they were.
     */
    method SweepNewest(now: int) returns (toDrop: seq<string>, ghost victims: seq<Task>, ghost swept: seq<Task>, ghost survivors: seq<string>)
      requires Valid()
      modifies this, tasks.Values
      ensures Valid()
      ensures toDrop == Dropped(old(order), maxTasks)
      ensures forall k :: 0 <= k < |old(order)| ==> old(order)[k] in old(tasks)
      ensures victims == TasksAt(old(tasks), toDrop) && swept == TasksAt(old(tasks), Swept(old(order), maxTasks))
      ensures forall k :: 0 <= k < |victims| ==> victims[k].State() == old(victims[k].State())
      ensures forall k :: 0 <= k < |swept| ==> swept[k] !in victims
      ensures forall k :: 0 <= k < |swept| ==>
        swept[k].State() == ProcessStep(old(swept[k].State()), swept[k].maxAttempts, swept[k].timeout, backoff, now)
      ensures survivors == Keep(Swept(old(order), maxTasks), Unfinished(Swept(old(order), maxTasks), States(swept)))
      ensures order == toDrop + survivors && |survivors| <= maxTasks
      ensures forall k :: 0 <= k < |toDrop| ==> toDrop[k] in tasks && tasks[toDrop[k]] == victims[k]
      ensures forall id :: id in tasks ==> id in old(tasks) && tasks[id] == old(tasks)[id]
      ensures listeners <= old(listeners)
      ensures droppedLog == old(droppedLog)
      ensures processing == old(processing) && intervalsStarted == old(intervalsStarted)
    {
      var ids := order;
      var toProcess := Swept(ids, maxTasks);
      toDrop := Dropped(ids, maxTasks);
      AdmissionPartition(ids, maxTasks);
      victims, swept := AdmissionPlan(toDrop, toProcess);
      SweepTasks(toProcess, now, toDrop, swept, victims);
      survivors := Keep(toProcess, Unfinished(toProcess, States(swept)));
      StillRegistered(toDrop, survivors, victims, old(tasks));
    }

    /** Every id in the key order is registered, under its own id. */
    lemma {:induction false} Registered()
      requires Valid()
      ensures forall k :: 0 <= k < |order| ==> order[k] in tasks && tasks[order[k]].id == order[k]
    {
      forall k | 0 <= k < |order|
        ensures order[k] in tasks
      {
        ElementIn(order, order[k]);
      }
    }

    /**
     * The tasks registered under the ids a sweep drops and under the ids it
     * processes; no task is on both sides.
     */
    lemma {:induction false} AdmissionPlan(toDrop: seq<string>, toProcess: seq<string>) returns (victims: seq<Task>, swept: seq<Task>)
      requires Valid() && order == toDrop + toProcess
      ensures forall k :: 0 <= k < |order| ==> order[k] in tasks
      ensures forall k :: 0 <= k < |toDrop| ==> toDrop[k] in tasks
      ensures forall k :: 0 <= k < |toProcess| ==> toProcess[k] in tasks
      ensures victims == TasksAt(tasks, toDrop) && swept == TasksAt(tasks, toProcess)
      ensures forall j :: 0 <= j < |victims| ==> victims[j] !in swept
      ensures forall k :: 0 <= k < |swept| ==> swept[k] !in victims
    {
      Registered();
      forall k | 0 <= k < |toDrop|
        ensures toDrop[k] in tasks
      {
        assert toDrop[k] == order[k];
      }
      forall k | 0 <= k < |toProcess|
        ensures toProcess[k] in tasks
      {
        assert toProcess[k] == order[|toDrop| + k];
      }
      victims := TasksAt(tasks, toDrop);
      swept := TasksAt(tasks, toProcess);
      forall j, k | 0 <= j < |toDrop| && 0 <= k < |toProcess|
        ensures victims[j] != swept[k]
      {
        assert victims[j].id == order[j] && swept[k].id == order[|toDrop| + k];
      }
    }

    /** Ids in front of the key order that a table shrinking from `tasks0` kept are still registered. */
    lemma {:induction false} StillRegistered(toDrop: seq<string>, rest: seq<string>, victims: seq<Task>, tasks0: map<string, Task>)
      requires Valid() && order == toDrop + rest && |victims| == |toDrop|
      requires forall k :: 0 <= k < |toDrop| ==> toDrop[k] in tasks0 && tasks0[toDrop[k]] == victims[k]
      requires forall id :: id in tasks ==> id in tasks0 && tasks[id] == tasks0[id]
      ensures forall k :: 0 <= k < |toDrop| ==> toDrop[k] in tasks && tasks[toDrop[k]] == victims[k]
    {
      Registered();
      forall k | 0 <= k < |toDrop|
        ensures toDrop[k] in tasks
      {
        assert toDrop[k] == order[k];
      }
    }

    /** `startProcessingTasks()`: starts the sweep interval unless it is already running. */
    method StartProcessingTasks()
      requires Valid()
      modifies this
      ensures Valid()
      ensures processing
      ensures intervalsStarted == if old(processing) then old(intervalsStarted) else old(intervalsStarted) + 1
      ensures order == old(order) && tasks == old(tasks) && listeners == old(listeners)
      ensures droppedLog == old(droppedLog)
    {
      if !processing {
        processing := true;
        intervalsStarted := intervalsStarted + 1;
      }
    }

    /** `stopProcessingTasks()`: stops the sweep interval if it is running. */
    method StopProcessingTasks()
      requires Valid()
      modifies this
      ensures Valid()
      ensures !processing
      ensures intervalsStarted == old(intervalsStarted)
      ensures order == old(order) && tasks == old(tasks) && listeners == old(listeners)
      ensures droppedLog == old(droppedLog)
    {
      processing := false;
    }
  }

  // ---------------------------------------------------------------------
  // Admission with the default logger and with a supplied one

  /** The id the scenarios below give their `k`-th task: "A", "B", ... */
  function ScenarioId(k: nat): string
    requires k < 26
  {
    [(65 + k) as char]
  }

  /** Every id of `ids` whose task has not finished is kept, so all of them are. */
  lemma {:induction false} KeepUnfinished(ids: seq<string>, ss: seq<TaskState>)
    requires |ss| == |ids|
    requires forall k :: 0 <= k < |ss| ==> !IsTerminal(ss[k].status)
    ensures Keep(ids, Unfinished(ids, ss)) == ids
  {
    var alive := Unfinished(ids, ss);
    forall y | y in ids
      ensures y in alive
    {
      var k :| 0 <= k < |ids| && ids[k] == y;
    }
    KeepAll(ids, alive);
  }

  /** A new manager with the given `onTaskDropped` and `n` tasks created with no options, under the ids "A", "B", ... */
  method ScenarioManager(onTaskDropped: Option<DropLogger>, n: nat) returns (m: TaskManager)
    requires n <= 26
    ensures fresh(m) && m.Valid()
    ensures m.maxTasks == 10
    ensures m.onTaskDropped == OrDefault(onTaskDropped, LogTaskDropped)
    ensures |m.order| == n
    ensures forall id :: id in m.tasks ==> fresh(m.tasks[id]) && m.tasks[id].State() == NewState
  {
    m := new TaskManager(NoManagerOptions.(onTaskDropped := onTaskDropped));
    var i := 0;
    while i < n
      invariant 0 <= i <= n
      invariant fresh(m) && m.Valid()
      invariant m.maxTasks == 10 && m.taskDefaultOptions == NoOptions
      invariant m.onTaskDropped == OrDefault(onTaskDropped, LogTaskDropped)
      invariant m.order == seq(i, k requires 0 <= k < i => ScenarioId(k))
      invariant forall id :: id in m.tasks ==> fresh(m.tasks[id]) && m.tasks[id].State() == NewState
    {
      ghost var before := m.order;
      ElementIn(m.order, ScenarioId(i));
      assert ScenarioId(i) !in m.tasks;
      var task := m.CreateTask(NoOptions, ScenarioId(i));
      assert task.id == ScenarioId(i);
      assert m.order == before + [ScenarioId(i)];
      i := i + 1;
    }
  }

  /** A manager with the given `onTaskDropped` and eleven new tasks; the oldest is the one a sweep drops. */
  method ElevenNewTasks(onTaskDropped: Option<DropLogger>)
    returns (m: TaskManager, oldest: Task, ghost ids: seq<string>, ghost table: map<string, Task>,
             ghost toProcess: seq<string>, ghost swept: seq<Task>)
    ensures fresh(m) && m.Valid() && m.maxTasks == 10
    ensures forall id :: id in m.tasks ==> fresh(m.tasks[id])
    ensures m.onTaskDropped == OrDefault(onTaskDropped, LogTaskDropped)
    ensures ids == m.order && table == m.tasks && |ids| == 11
    ensures forall k :: 0 <= k < |ids| ==> ids[k] in table
    ensures Dropped(ids, 10) == [ids[0]] && toProcess == Swept(ids, 10) && |toProcess| == 10
    ensures TasksAt(table, Dropped(ids, 10)) == [oldest] && oldest.State() == NewState
    ensures swept == TasksAt(table, toProcess)
    ensures forall k :: 0 <= k < |swept| ==> swept[k].State() == NewState
  {
    m := ScenarioManager(onTaskDropped, 11);
    m.Registered();
    oldest := m.tasks[m.order[0]];
    ids, table := m.order, m.tasks;
    assert Dropped(ids, 10) == [ids[0]];
    toProcess := Swept(ids, 10);
    swept := TasksAt(table, toProcess);
  }

  /**
   * Eleven new tasks on a manager with the given `onTaskDropped` (and at
   * most ten tasks), one sweep at `now`: the result, the task count
   * afterwards and the oldest task.
   */
  method AdmitEleven(onTaskDropped: Option<DropLogger>, now: int) returns (outcome: Outcome<Value>, count: nat, oldest: Task)
    ensures outcome == if OrDefault(onTaskDropped, LogTaskDropped).DropCallback? then Pass else Throw(ToJsonMissingError)
    ensures count == if OrDefault(onTaskDropped, LogTaskDropped).DropCallback? then 10 else 11
    ensures oldest.State() == (if OrDefault(onTaskDropped, LogTaskDropped).DropCallback?
                               then CancelStep(NewState, TaskDroppedError) else NewState)
  {
    var m;
    ghost var ids, table, toProcess, swept;
    m, oldest, ids, table, toProcess, swept := ElevenNewTasks(onTaskDropped);
    label Created:
    outcome := m.ProcessTasks(now);
    ghost var dropped := TasksAt(table, Dropped(ids, 10));
    assert dropped[0] == oldest;
    assert oldest.State() == m.DropStep(old@Created(oldest.State()));
    assert forall k :: 0 <= k < |swept| ==> swept[k].State() == NewState;
    KeepUnfinished(toProcess, States(swept));
    assert Keep(toProcess, Unfinished(toProcess, States(swept))) == toProcess;
    assert m.order == if m.DropCancels() then toProcess else [ids[0]] + toProcess;
    count := m.TaskCount();
  }

  /**
   * As written: with every option left out, eleven tasks and one sweep leave
   * eleven tasks registered where at most ten are allowed. The drop of the
   * oldest throws in `logTaskDropped`, so `processTasks` rejects with that
   * TypeError and the oldest task is neither cancelled nor deregistered.
   */
  method DefaultLoggerKeepsExcess(now: int) returns (outcome: Outcome<Value>, count: nat, oldest: Task)
    ensures outcome == Throw(ToJsonMissingError)
    ensures count == 11
    ensures oldest.status == Idle
  {
    outcome, count, oldest := AdmitEleven(None, now);
  }

  /**
   * With a logger that returns, as `logTaskDropped` evidently means to, the
   * same run drops the oldest task: it is rejected with TASK_DROPPED_ERROR,
   * `processTasks` fulfils and ten tasks remain.
   */
  method ReturningLoggerDropsExcess(now: int) returns (outcome: Outcome<Value>, count: nat, oldest: Task)
    ensures outcome == Pass
    ensures count == 10
    ensures oldest.status == Rejected && oldest.error == TaskDroppedError
  {
    outcome, count, oldest := AdmitEleven(Some(DropCallback), now);
  }
}
