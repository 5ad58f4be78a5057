/** The executor as a value: its tasks, its run queue and the flag of the main future.
    What a future does in one poll is a script of calls into the runtime. */
module ExecutorSpec {
  import opened Common

  type TaskId = nat
  type Output = nat

  /** Whom a waker wakes: the main future, a task, or code outside the executor. */
  datatype Waker = MainWaker | TaskWaker(t: TaskId) | Foreign(n: nat)

  datatype State = Scheduled | Idle | Done
  datatype Payload = Future | Output(value: Output) | Taken

  /** `polls` counts the polls of the task's future; `handle` says whether its join handle
      has not been given up to `cancel` yet. */
  datatype Task = Task(state: State, payload: Payload, awaiter: Option<Waker>, polls: nat, handle: bool)

  datatype Action =
    | Wake(w: Waker)
    | Spawn
    | PollHandle(t: TaskId, w: Waker)
    | Cancel(t: TaskId)

  /** One poll of a future: the calls it makes, and what it returns. */
  datatype Script = Script(actions: seq<Action>, ready: Option<Output>)

  datatype Event =
    | Polled(t: TaskId)
    | Completed(t: TaskId, v: Output)
    | Cancelled(t: TaskId)
    | Delivered(t: TaskId, v: Output)
    | Awaited(t: TaskId, w: Waker)
    | Called(w: Waker)

  /** `panicked` is set when a handle is polled after it returned its output, or used from
      inside its own task's poll, whose payload is borrowed; the poll does nothing after. */
  datatype Exec = Exec(tasks: seq<Task>, queue: seq<TaskId>, woke: bool, panicked: bool, log: seq<Event>)

  const START := Exec([], [], false, false, [])

  function WakeBy(e: Exec, w: Waker): Exec {
    var e' := e.(log := e.log + [Called(w)]);
    match w
    case MainWaker => e'.(woke := true)
    case TaskWaker(t) =>
      if t < |e.tasks| && e.tasks[t].state.Idle? then
        e'.(tasks := e.tasks[t := e.tasks[t].(state := Scheduled)], queue := e.queue + [t])
      else e'
    case Foreign(n) => e'
  }

  function SpawnTask(e: Exec): Exec {
    e.(tasks := e.tasks + [Task(Scheduled, Future, None, 0, true)], queue := e.queue + [|e.tasks|])
  }

  /** A join handle's poll, from inside the poll of `running` if that is a task. */
  function PollOutput(e: Exec, running: Option<TaskId>, t: TaskId, w: Waker): Exec {
    if t >= |e.tasks| || !e.tasks[t].handle then e
    else if running == Some(t) then e.(panicked := true)
    else
      match e.tasks[t].payload
      case Output(v) => e.(tasks := e.tasks[t := e.tasks[t].(payload := Taken)], log := e.log + [Delivered(t, v)])
      case Taken => e.(panicked := true)
      case Future =>
        e.(tasks := e.tasks[t := e.tasks[t].(awaiter := Some(w))], log := e.log + [Awaited(t, w)])
  }

  function CancelTask(e: Exec, running: Option<TaskId>, t: TaskId): Exec {
    if t >= |e.tasks| || !e.tasks[t].handle then e
    else if running == Some(t) then e.(panicked := true)
    else
      var task := e.tasks[t];
      e.(tasks := e.tasks[t := task.(payload := Taken, handle := false)],
         log := e.log + (if task.payload.Output? then [Delivered(t, task.payload.value)] else []) + [Cancelled(t)])
  }

  function Act(e: Exec, running: Option<TaskId>, a: Action): Exec {
    if e.panicked then e
    else
      match a
      case Wake(w) => WakeBy(e, w)
      case Spawn => SpawnTask(e)
      case PollHandle(t, w) => PollOutput(e, running, t, w)
      case Cancel(t) => CancelTask(e, running, t)
  }

  function Perform(e: Exec, running: Option<TaskId>, actions: seq<Action>): Exec
    decreases |actions|
  {
    if actions == [] then e else Perform(Act(e, running, actions[0]), running, actions[1..])
  }

  /** Marks the task idle and, while it still has a future, counts a poll of it. */
  function Begin(e: Exec, t: TaskId): Exec
    requires t < |e.tasks|
  {
    var task := e.tasks[t].(state := Idle);
    if task.payload.Future? then
      e.(tasks := e.tasks[t := task.(polls := task.polls + 1)], log := e.log + [Polled(t)])
    else e.(tasks := e.tasks[t := task])
  }

  /** Stores the output, marks the task done and wakes whoever awaits it. */
  function Complete(e: Exec, t: TaskId, v: Output): Exec
    requires t < |e.tasks|
  {
    var task := e.tasks[t];
    var e' := e.(tasks := e.tasks[t := task.(payload := Output(v), state := Done, awaiter := None)],
                 log := e.log + [Completed(t, v)]);
    if task.awaiter.Some? then WakeBy(e', task.awaiter.value) else e'
  }

  lemma {:induction false} PerformGrows(e: Exec, running: Option<TaskId>, actions: seq<Action>)
    ensures |Perform(e, running, actions).tasks| >= |e.tasks|
    decreases |actions|
  {
    if actions == [] {
    } else {
      PerformGrows(Act(e, running, actions[0]), running, actions[1..]);
    }
  }

  /** One run of a popped task. */
  function RunTask(e: Exec, t: TaskId, script: Script): Exec
    requires t < |e.tasks|
  {
    var e1 := Begin(e, t);
    if !e.tasks[t].payload.Future? then e1
    else
      PerformGrows(e1, Some(t), script.actions);
      var e2 := Perform(e1, Some(t), script.actions);
      if e2.panicked || script.ready.None? then e2 else Complete(e2, t, script.ready.value)
  }

  // ----- the run queue

  ghost predicate QueueOk(e: Exec, t: TaskId)
    requires t < |e.tasks|
  {
    match e.tasks[t].state
    case Scheduled => Count(e.queue, t) == 1
    case Idle => Count(e.queue, t) == 0
    case Done => Count(e.queue, t) <= 1 && !e.tasks[t].payload.Future?
  }

  /** A scheduled task has exactly one entry in the queue, an idle one none, and a done one
      at most one and no future left; the queue holds nothing else. */
  ghost predicate Queued(e: Exec) {
    && (forall t :: 0 <= t < |e.tasks| ==> QueueOk(e, t))
    && (forall t :: t in e.queue ==> t < |e.tasks|)
  }

  lemma CountBeyond(e: Exec, t: TaskId)
    requires Queued(e) && t >= |e.tasks|
    ensures Count(e.queue, t) == 0
  {
    assert t !in e.queue;
  }

  lemma PushKeeps(q: seq<TaskId>, t: TaskId)
    ensures forall s :: Count(q + [t], s) == Count(q, s) + if s == t then 1 else 0
  {
  }

  /** A wake adds one entry for an idle task, and none for anybody else. */
  lemma WakeKeepsQueued(e: Exec, w: Waker)
    requires Queued(e)
    ensures Queued(WakeBy(e, w))
    ensures forall t: TaskId ::
      Count(WakeBy(e, w).queue, t)
      == Count(e.queue, t) + if w == TaskWaker(t) && t < |e.tasks| && e.tasks[t].state.Idle? then 1 else 0
  {
    var e' := WakeBy(e, w);
    if w.TaskWaker? {
      PushKeeps(e.queue, w.t);
    }
    forall t | 0 <= t < |e'.tasks| ensures QueueOk(e', t) {
      assert QueueOk(e, t);
    }
  }

  lemma SpawnKeepsQueued(e: Exec)
    requires Queued(e)
    ensures Queued(SpawnTask(e))
  {
    var e' := SpawnTask(e);
    PushKeeps(e.queue, |e.tasks|);
    CountBeyond(e, |e.tasks|);
    forall t | 0 <= t < |e'.tasks| ensures QueueOk(e', t) {
      assert t < |e.tasks| ==> QueueOk(e, t);
    }
  }

  /** Handles touch neither the queue nor any task's state, and never bring a future back. */
  lemma HandleKeepsQueued(e: Exec, e': Exec)
    requires Queued(e) && e'.queue == e.queue && |e'.tasks| == |e.tasks|
    requires forall t :: 0 <= t < |e.tasks| ==>
      e'.tasks[t].state == e.tasks[t].state && (e'.tasks[t].payload.Future? ==> e.tasks[t].payload.Future?)
    ensures Queued(e')
  {
    forall t | 0 <= t < |e'.tasks| ensures QueueOk(e', t) {
      assert QueueOk(e, t);
    }
  }

  lemma ActKeepsQueued(e: Exec, running: Option<TaskId>, a: Action)
    requires Queued(e)
    ensures Queued(Act(e, running, a))
  {
    match a
    case Wake(w) => WakeKeepsQueued(e, w);
    case Spawn => SpawnKeepsQueued(e);
    case PollHandle(t, w) => HandleKeepsQueued(e, PollOutput(e, running, t, w));
    case Cancel(t) => HandleKeepsQueued(e, CancelTask(e, running, t));
  }

  lemma {:induction false} PerformKeepsQueued(e: Exec, running: Option<TaskId>, actions: seq<Action>)
    requires Queued(e)
    ensures Queued(Perform(e, running, actions))
    decreases |actions|
  {
    if actions == [] {
    } else {
      ActKeepsQueued(e, running, actions[0]);
      PerformKeepsQueued(Act(e, running, actions[0]), running, actions[1..]);
    }
  }

  function Pop(e: Exec): Exec
    requires e.queue != []
  {
    e.(queue := e.queue[1..])
  }

  lemma BeginKeepsQueued(e: Exec)
    requires Queued(e) && e.queue != []
    ensures e.queue[0] < |e.tasks| && Queued(Begin(Pop(e), e.queue[0]))
  {
    var t := e.queue[0];
    assert t in e.queue && QueueOk(e, t);
    var e' := Begin(Pop(e), t);
    forall s ensures Count(e.queue, s) == Count(e'.queue, s) + if s == t then 1 else 0 {
      CountPop(e.queue, s);
    }
    forall s | 0 <= s < |e'.tasks| ensures QueueOk(e', s) {
      assert QueueOk(e, s);
    }
    forall s | s in e'.queue ensures s < |e'.tasks| {
      assert s in e.queue;
    }
  }

  /** Running the task at the head of the queue keeps the queue in order, whatever its
      future does meanwhile: waking itself, spawning, cancelling others. */
  lemma RunKeepsQueued(e: Exec, script: Script)
    requires Queued(e) && e.queue != []
    ensures e.queue[0] < |e.tasks| && Queued(RunTask(Pop(e), e.queue[0], script))
  {
    BeginKeepsQueued(e);
    var t := e.queue[0];
    var e1 := Begin(Pop(e), t);
    PerformGrows(e1, Some(t), script.actions);
    var e2 := Perform(e1, Some(t), script.actions);
    PerformKeepsQueued(e1, Some(t), script.actions);
    if e.tasks[t].payload.Future? && !e2.panicked && script.ready.Some? {
      assert QueueOk(e2, t);
      CompleteKeepsQueued(e2, t, script.ready.value);
    }
  }

  lemma CompleteKeepsQueued(e: Exec, t: TaskId, v: Output)
    requires Queued(e) && t < |e.tasks| && Count(e.queue, t) <= 1
    ensures Queued(Complete(e, t, v))
  {
    var task := e.tasks[t];
    var e' := e.(tasks := e.tasks[t := task.(payload := Output(v), state := Done, awaiter := None)],
                 log := e.log + [Completed(t, v)]);
    forall s | 0 <= s < |e'.tasks| ensures QueueOk(e', s) {
      assert QueueOk(e, s);
    }
    if task.awaiter.Some? {
      WakeKeepsQueued(e', task.awaiter.value);
    }
  }

  /** Waking a task that has neither completed nor been cancelled leaves it in the queue. */
  lemma NoLostWake(e: Exec, t: TaskId)
    requires Queued(e) && t < |e.tasks| && e.tasks[t].payload.Future?
    ensures t in WakeBy(e, TaskWaker(t)).queue
  {
    assert QueueOk(e, t);
  }

  // ----- first come, first served

  lemma {:induction false} PerformOnlyPushes(e: Exec, running: Option<TaskId>, actions: seq<Action>)
    ensures e.queue <= Perform(e, running, actions).queue
    decreases |actions|
  {
    if actions == [] {
    } else {
      PerformOnlyPushes(Act(e, running, actions[0]), running, actions[1..]);
    }
  }

  /** A run only adds to the far end of the queue. */
  lemma RunOnlyPushes(e: Exec, t: TaskId, script: Script)
    requires t < |e.tasks|
    ensures e.queue <= RunTask(e, t, script).queue
  {
    var e1 := Begin(e, t);
    PerformGrows(e1, Some(t), script.actions);
    PerformOnlyPushes(e1, Some(t), script.actions);
  }

  // ----- the life of a task's result

  /** Where a task's result is, as told by the record of what happened to it. */
  datatype Phase = Running(polls: nat) | Finished(v: Output) | Over | Broken

  /** A task is polled any number of times; it completes with a value, which is delivered
      once; cancelling it ends its life, after delivering what was there. Anything else is
      a broken record. */
  function After(p: Phase, ev: Event, t: TaskId): Phase {
    match ev
    case Polled(s) => if s != t then p else if p.Running? then Running(p.polls + 1) else Broken
    case Completed(s, v) => if s != t then p else if p.Running? then Finished(v) else Broken
    case Delivered(s, v) => if s != t then p else if p == Finished(v) then Over else Broken
    case Cancelled(s) => if s != t then p else if p.Running? || p.Over? then Over else Broken
    case _ => p
  }

  function PhaseOf(log: seq<Event>, t: TaskId): Phase {
    if log == [] then Running(0) else After(PhaseOf(log[..|log| - 1], t), log[|log| - 1], t)
  }

  function AwaiterAfter(w: Option<Waker>, ev: Event, t: TaskId): Option<Waker> {
    if ev.Awaited? && ev.t == t then Some(ev.w) else w
  }

  /** The waker of the handle's latest pending poll. */
  function LastAwaiter(log: seq<Event>, t: TaskId): Option<Waker> {
    if log == [] then None else AwaiterAfter(LastAwaiter(log[..|log| - 1], t), log[|log| - 1], t)
  }

  lemma Push(log: seq<Event>, ev: Event)
    ensures forall t :: PhaseOf(log + [ev], t) == After(PhaseOf(log, t), ev, t)
    ensures forall t :: LastAwaiter(log + [ev], t) == AwaiterAfter(LastAwaiter(log, t), ev, t)
  {
    assert (log + [ev])[..|log|] == log;
  }

  function PhaseOfTask(task: Task): Phase {
    match task.payload
    case Future => Running(task.polls)
    case Output(v) => Finished(v)
    case Taken => Over
  }

  ghost predicate LifeOk(e: Exec, t: TaskId)
    requires t < |e.tasks|
  {
    && PhaseOf(e.log, t) == PhaseOfTask(e.tasks[t])
    && (e.tasks[t].payload.Future? ==> e.tasks[t].awaiter == LastAwaiter(e.log, t))
    && (!e.tasks[t].handle ==> e.tasks[t].payload.Taken?)
  }

  /** The record of every task is a legal life and agrees with its payload; the stored
      awaiter is the waker of the handle's latest poll; a task without a handle has nothing
      left to give; there is no record of a task that does not exist. */
  ghost predicate Lives(e: Exec) {
    && (forall t :: 0 <= t < |e.tasks| ==> LifeOk(e, t))
    && (forall t :: t >= |e.tasks| ==> PhaseOf(e.log, t) == Running(0) && LastAwaiter(e.log, t) == None)
  }

  /** One more event about `t`, with the change of that task that it reports. */
  lemma OneEvent(e: Exec, e': Exec, t: TaskId, ev: Event)
    requires Lives(e) && t < |e.tasks| == |e'.tasks| && e'.log == e.log + [ev]
    requires forall s :: 0 <= s < |e.tasks| && s != t ==> e'.tasks[s] == e.tasks[s]
    requires match ev { case Called(_) => true case Awaited(s, _) => s == t case _ => ev.t == t }
    requires After(PhaseOfTask(e.tasks[t]), ev, t) == PhaseOfTask(e'.tasks[t])
    requires e'.tasks[t].payload.Future? ==>
      e.tasks[t].payload.Future? && e'.tasks[t].awaiter == AwaiterAfter(e.tasks[t].awaiter, ev, t)
    requires !e'.tasks[t].handle ==> e'.tasks[t].payload.Taken?
    ensures Lives(e')
  {
    Push(e.log, ev);
    forall s | 0 <= s < |e'.tasks| ensures LifeOk(e', s) {
      assert LifeOk(e, s);
    }
  }

  lemma WakeKeepsLives(e: Exec, w: Waker)
    requires Lives(e)
    ensures Lives(WakeBy(e, w))
  {
    if w.TaskWaker? && w.t < |e.tasks| {
      assert LifeOk(e, w.t);
      var e' := WakeBy(e, w);
      assert e'.log == e.log + [Called(w)] && |e'.tasks| == |e.tasks|;
      assert e'.tasks[w.t] == e.tasks[w.t].(state := e'.tasks[w.t].state);
      OneEvent(e, e', w.t, Called(w));
    } else {
      Push(e.log, Called(w));
      forall t | 0 <= t < |e.tasks| ensures LifeOk(WakeBy(e, w), t) {
        assert LifeOk(e, t);
      }
    }
  }

  lemma SpawnKeepsLives(e: Exec)
    requires Lives(e)
    ensures Lives(SpawnTask(e))
  {
    var e' := SpawnTask(e);
    forall t | 0 <= t < |e'.tasks| ensures LifeOk(e', t) {
      assert t < |e.tasks| ==> LifeOk(e, t);
    }
  }

  lemma PollOutputKeepsLives(e: Exec, running: Option<TaskId>, t: TaskId, w: Waker)
    requires Lives(e)
    ensures Lives(PollOutput(e, running, t, w))
  {
    var e' := PollOutput(e, running, t, w);
    if t >= |e.tasks| || !e.tasks[t].handle || running == Some(t) || e.tasks[t].payload.Taken? {
      SameTasks(e, e');
    } else if e.tasks[t].payload.Output? {
      OneEvent(e, e', t, Delivered(t, e.tasks[t].payload.value));
    } else {
      OneEvent(e, e', t, Awaited(t, w));
    }
  }

  lemma SameTasks(e: Exec, e': Exec)
    requires Lives(e) && e'.tasks == e.tasks && e'.log == e.log
    ensures Lives(e')
  {
    forall s | 0 <= s < |e'.tasks| ensures LifeOk(e', s) {
      assert LifeOk(e, s);
    }
  }

  lemma CancelKeepsLives(e: Exec, running: Option<TaskId>, t: TaskId)
    requires Lives(e)
    ensures Lives(CancelTask(e, running, t))
  {
    var e' := CancelTask(e, running, t);
    if t >= |e.tasks| || !e.tasks[t].handle || running == Some(t) {
      SameTasks(e, e');
    } else if e.tasks[t].payload.Output? {
      var e1 := e.(tasks := e.tasks[t := e.tasks[t].(payload := Taken)],
                   log := e.log + [Delivered(t, e.tasks[t].payload.value)]);
      OneEvent(e, e1, t, Delivered(t, e.tasks[t].payload.value));
      OneEvent(e1, e', t, Cancelled(t));
    } else {
      assert e.log + [] == e.log;
      OneEvent(e, e', t, Cancelled(t));
    }
  }

  /** What the running task's own poll cannot change: its future stays where it is. */
  ghost predicate StillRuns(e: Exec, t: TaskId) {
    t < |e.tasks| && e.tasks[t].payload.Future?
  }

  lemma {:induction false} PerformKeepsLives(e: Exec, running: Option<TaskId>, actions: seq<Action>)
    requires Lives(e) && (running.Some? ==> StillRuns(e, running.value))
    ensures Lives(Perform(e, running, actions))
    ensures running.Some? ==> StillRuns(Perform(e, running, actions), running.value)
    decreases |actions|
  {
    if actions == [] {
    } else {
      match actions[0] {
        case Wake(w) => WakeKeepsLives(e, w);
        case Spawn => SpawnKeepsLives(e);
        case PollHandle(t, w) => PollOutputKeepsLives(e, running, t, w);
        case Cancel(t) => CancelKeepsLives(e, running, t);
      }
      PerformKeepsLives(Act(e, running, actions[0]), running, actions[1..]);
    }
  }

  lemma BeginKeepsLives(e: Exec, t: TaskId)
    requires Lives(e) && t < |e.tasks|
    ensures Lives(Begin(e, t))
  {
    assert LifeOk(e, t);
    if e.tasks[t].payload.Future? {
      OneEvent(e, Begin(e, t), t, Polled(t));
    } else {
      forall s | 0 <= s < |e.tasks| ensures LifeOk(Begin(e, t), s) {
        assert LifeOk(e, s);
      }
    }
  }

  lemma CompleteKeepsLives(e: Exec, t: TaskId, v: Output)
    requires Lives(e) && StillRuns(e, t)
    ensures Lives(Complete(e, t, v))
  {
    var task := e.tasks[t];
    var e1 := e.(tasks := e.tasks[t := task.(payload := Output(v), state := Done, awaiter := None)],
                 log := e.log + [Completed(t, v)]);
    assert LifeOk(e, t);
    OneEvent(e, e1, t, Completed(t, v));
    if task.awaiter.Some? {
      WakeKeepsLives(e1, task.awaiter.value);
    }
  }

  /** Completion puts the output in place and then calls exactly the latest waker the handle
      left; a task that awaits this one is in the queue after that. */
  lemma CompleteWakesAwaiter(e: Exec, t: TaskId, v: Output)
    requires Lives(e) && Queued(e) && StillRuns(e, t)
    ensures var e' := Complete(e, t, v);
      && e'.tasks[t].payload == Output(v)
      && e'.log == e.log + [Completed(t, v)]
           + (if LastAwaiter(e.log, t).Some? then [Called(LastAwaiter(e.log, t).value)] else [])
      && forall a :: LastAwaiter(e.log, t) == Some(TaskWaker(a)) && a != t && StillRuns(e, a) ==> a in e'.queue
  {
    assert LifeOk(e, t);
    forall a | LastAwaiter(e.log, t) == Some(TaskWaker(a)) && a != t && StillRuns(e, a)
      ensures a in Complete(e, t, v).queue
    {
      assert QueueOk(e, a);
    }
  }

  lemma RunKeepsLives(e: Exec, t: TaskId, script: Script)
    requires Lives(e) && t < |e.tasks|
    ensures Lives(RunTask(e, t, script))
  {
    BeginKeepsLives(e, t);
    if e.tasks[t].payload.Future? {
      var e1 := Begin(e, t);
      PerformKeepsLives(e1, Some(t), script.actions);
      var e2 := Perform(e1, Some(t), script.actions);
      if !e2.panicked && script.ready.Some? {
        CompleteKeepsLives(e2, t, script.ready.value);
      }
    }
  }

  // ----- what the calls of one poll come to

  lemma {:induction false} PanicSticks(e: Exec, running: Option<TaskId>, actions: seq<Action>)
    requires e.panicked
    ensures Perform(e, running, actions) == e
    decreases |actions|
  {
    if actions == [] {
    } else {
      PanicSticks(e, running, actions[1..]);
    }
  }

  /** Of all calls only a wake of the main future raises its flag. */
  lemma {:induction false} RaisesFlagIff(e: Exec, running: Option<TaskId>, actions: seq<Action>)
    requires !Perform(e, running, actions).panicked
    ensures Perform(e, running, actions).woke <==> e.woke || Wake(MainWaker) in actions
    decreases |actions|
  {
    if actions == [] {
    } else {
      var e1 := Act(e, running, actions[0]);
      if e1.panicked {
        PanicSticks(e1, running, actions[1..]);
      }
      RaisesFlagIff(e1, running, actions[1..]);
    }
  }

  /** The wakers that were called, in order. */
  function Calls(log: seq<Event>): seq<Waker> {
    if log == [] then []
    else
      var last := log[|log| - 1];
      Calls(log[..|log| - 1]) + if last.Called? then [last.w] else []
  }

  lemma CallsPush(log: seq<Event>, ev: Event)
    ensures Calls(log + [ev]) == Calls(log) + if ev.Called? then [ev.w] else []
  {
    assert (log + [ev])[..|log|] == log;
  }

  function WakesOf(actions: seq<Action>): seq<Waker>
    decreases |actions|
  {
    if actions == [] then []
    else (if actions[0].Wake? then [actions[0].w] else []) + WakesOf(actions[1..])
  }

  function Spawns(actions: seq<Action>): nat
    decreases |actions|
  {
    if actions == [] then 0 else (if actions[0].Spawn? then 1 else 0) + Spawns(actions[1..])
  }

  ghost predicate PollsHandle(actions: seq<Action>, t: TaskId) {
    exists i :: 0 <= i < |actions| && actions[i].PollHandle? && actions[i].t == t
  }

  /** The waker of the last poll of the task's handle among the calls, else the one before. */
  function LatestAwaiter(actions: seq<Action>, t: TaskId, before: Option<Waker>): Option<Waker>
    decreases |actions|
  {
    if actions == [] then before
    else
      var a := actions[0];
      LatestAwaiter(actions[1..], t, if a.PollHandle? && a.t == t then Some(a.w) else before)
  }

  /** What becomes of a task that exists already: the first wake schedules it if it was idle,
      a poll of its handle takes its output or leaves a waker, and cancelling it takes
      whatever is there and the handle; nothing else changes. */
  ghost predicate TaskAfter(before: Task, after: Task, actions: seq<Action>, t: TaskId) {
    && after.polls == before.polls
    && after.state == (if before.state.Idle? && Wake(TaskWaker(t)) in actions then Scheduled else before.state)
    && after.handle == (before.handle && Cancel(t) !in actions)
    && after.payload == (if Cancel(t) in actions || (before.payload.Output? && PollsHandle(actions, t)) then Taken
                         else before.payload)
    && (after.payload.Future? ==> after.awaiter == LatestAwaiter(actions, t, before.awaiter))
  }

  /** What becomes of a task that one of the calls spawned. */
  ghost predicate SpawnedTask(after: Task, actions: seq<Action>, t: TaskId) {
    after.state.Scheduled? && after.polls == 0 && (Cancel(t) !in actions ==> after.payload.Future?)
  }

  /** What is added to the record tells neither of polls nor of completions. */
  ghost predicate Uneventful(before: seq<Event>, after: seq<Event>) {
    before <= after && forall i :: |before| <= i < |after| ==> !after[i].Polled? && !after[i].Completed?
  }

  /** The calls of one poll of a future, seen from before and after. */
  ghost predicate CallsDid(e: Exec, e': Exec, actions: seq<Action>) {
    && |e'.tasks| == |e.tasks| + Spawns(actions)
    && (forall t :: 0 <= t < |e.tasks| ==> TaskAfter(e.tasks[t], e'.tasks[t], actions, t))
    && (forall t :: |e.tasks| <= t < |e'.tasks| ==> SpawnedTask(e'.tasks[t], actions, t))
    && (e'.woke <==> e.woke || Wake(MainWaker) in actions)
    && e.queue <= e'.queue
    && Uneventful(e.log, e'.log) && Calls(e'.log) == Calls(e.log) + WakesOf(actions)
  }

  ghost predicate HandlesOk(e: Exec) {
    forall t :: 0 <= t < |e.tasks| ==> e.tasks[t].handle || e.tasks[t].payload.Taken?
  }

  lemma LivesHandlesOk(e: Exec)
    requires Lives(e)
    ensures HandlesOk(e)
  {
    forall t | 0 <= t < |e.tasks| ensures e.tasks[t].handle || e.tasks[t].payload.Taken? {
      assert LifeOk(e, t);
    }
  }

  lemma ActOnTask(e: Exec, running: Option<TaskId>, a: Action, t: TaskId)
    requires HandlesOk(e) && t < |e.tasks| && !Act(e, running, a).panicked
    ensures HandlesOk(Act(e, running, a)) && |Act(e, running, a).tasks| >= |e.tasks|
    ensures TaskAfter(e.tasks[t], Act(e, running, a).tasks[t], [a], t)
  {
    assert PollsHandle([a], t) <==> a.PollHandle? && a.t == t by {
      assert [a][0] == a;
    }
    assert [a][1..] == [];
  }

  lemma {:induction false} LatestAwaiterConcat(a: seq<Action>, b: seq<Action>, t: TaskId, before: Option<Waker>)
    ensures LatestAwaiter(a + b, t, before) == LatestAwaiter(b, t, LatestAwaiter(a, t, before))
    decreases |a|
  {
    if a == [] {
      assert a + b == b;
    } else {
      assert (a + b)[1..] == a[1..] + b;
      LatestAwaiterConcat(a[1..], b, t, if a[0].PollHandle? && a[0].t == t then Some(a[0].w) else before);
    }
  }

  lemma PollsHandleConcat(a: seq<Action>, b: seq<Action>, t: TaskId)
    ensures PollsHandle(a + b, t) <==> PollsHandle(a, t) || PollsHandle(b, t)
  {
    if PollsHandle(a, t) {
      var i :| 0 <= i < |a| && a[i].PollHandle? && a[i].t == t;
      assert (a + b)[i] == a[i];
    }
    if PollsHandle(b, t) {
      var i :| 0 <= i < |b| && b[i].PollHandle? && b[i].t == t;
      assert (a + b)[|a| + i] == b[i];
    }
  }

  lemma TaskAfterBoth(x: Task, y: Task, z: Task, a: seq<Action>, b: seq<Action>, t: TaskId)
    requires TaskAfter(x, y, a, t) && TaskAfter(y, z, b, t)
    ensures TaskAfter(x, z, a + b, t)
  {
    PollsHandleConcat(a, b, t);
    LatestAwaiterConcat(a, b, t, x.awaiter);
  }

  lemma {:induction false} PerformOnTask(e: Exec, running: Option<TaskId>, actions: seq<Action>, t: TaskId)
    requires HandlesOk(e) && t < |e.tasks| && !Perform(e, running, actions).panicked
    ensures |Perform(e, running, actions).tasks| >= |e.tasks|
    ensures TaskAfter(e.tasks[t], Perform(e, running, actions).tasks[t], actions, t)
    decreases |actions|
  {
    if actions == [] {
    } else {
      var e1 := Act(e, running, actions[0]);
      NotPanickedYet(e1, running, actions[1..]);
      ActOnTask(e, running, actions[0], t);
      PerformOnTask(e1, running, actions[1..], t);
      assert actions == [actions[0]] + actions[1..];
      TaskAfterBoth(e.tasks[t], e1.tasks[t], Perform(e, running, actions).tasks[t], [actions[0]], actions[1..], t);
    }
  }

  lemma NotPanickedYet(e: Exec, running: Option<TaskId>, actions: seq<Action>)
    requires !Perform(e, running, actions).panicked
    ensures !e.panicked
  {
    if e.panicked {
      PanicSticks(e, running, actions);
    }
  }

  lemma {:induction false} PerformSpawns(e: Exec, running: Option<TaskId>, actions: seq<Action>)
    requires HandlesOk(e) && !Perform(e, running, actions).panicked
    ensures var e' := Perform(e, running, actions);
      && |e'.tasks| == |e.tasks| + Spawns(actions)
      && forall t :: |e.tasks| <= t < |e'.tasks| ==> SpawnedTask(e'.tasks[t], actions, t)
    decreases |actions|
  {
    if actions == [] {
    } else {
      var a, rest, e1, e' := actions[0], actions[1..], Act(e, running, actions[0]), Perform(e, running, actions);
      NotPanickedYet(e1, running, rest);
      ActKeepsHandlesOk(e, running, a);
      PerformSpawns(e1, running, rest);
      assert forall b :: b in rest ==> b in actions;
      if a.Spawn? {
        PerformOnTask(e1, running, rest, |e.tasks|);
      }
    }
  }

  lemma ActKeepsHandlesOk(e: Exec, running: Option<TaskId>, a: Action)
    requires HandlesOk(e)
    ensures HandlesOk(Act(e, running, a))
    ensures |Act(e, running, a).tasks| == |e.tasks| + if a.Spawn? && !e.panicked then 1 else 0
  {
  }

  lemma {:induction false} PerformRecords(e: Exec, running: Option<TaskId>, actions: seq<Action>)
    requires !Perform(e, running, actions).panicked
    ensures var e' := Perform(e, running, actions);
      Uneventful(e.log, e'.log) && Calls(e'.log) == Calls(e.log) + WakesOf(actions)
    decreases |actions|
  {
    if actions == [] {
    } else {
      var e1 := Act(e, running, actions[0]);
      NotPanickedYet(e, running, actions);
      ActRecords(e, running, actions[0]);
      PerformRecords(e1, running, actions[1..]);
      UneventfulTwice(e.log, e1.log, Perform(e1, running, actions[1..]).log);
      Assoc(Calls(e.log), if actions[0].Wake? then [actions[0].w] else [], WakesOf(actions[1..]));
    }
  }

  lemma UneventfulTwice(a: seq<Event>, b: seq<Event>, c: seq<Event>)
    requires Uneventful(a, b) && Uneventful(b, c)
    ensures Uneventful(a, c)
  {
    forall i | |a| <= i < |c| ensures !c[i].Polled? && !c[i].Completed? {
      assert i < |b| ==> c[i] == b[i];
    }
  }

  lemma OneMore(log: seq<Event>, log': seq<Event>, ev: Event)
    requires log' == log + [ev] && !ev.Polled? && !ev.Completed?
    ensures Uneventful(log, log') && Calls(log') == Calls(log) + if ev.Called? then [ev.w] else []
  {
    CallsPush(log, ev);
  }

  lemma PollOutputRecords(e: Exec, running: Option<TaskId>, t: TaskId, w: Waker)
    ensures Uneventful(e.log, PollOutput(e, running, t, w).log)
    ensures Calls(PollOutput(e, running, t, w).log) == Calls(e.log)
  {
    var log' := PollOutput(e, running, t, w).log;
    if log' != e.log {
      var payload := e.tasks[t].payload;
      OneMore(e.log, log', if payload.Output? then Delivered(t, payload.value) else Awaited(t, w));
    }
  }

  lemma CancelRecords(e: Exec, running: Option<TaskId>, t: TaskId)
    ensures Uneventful(e.log, CancelTask(e, running, t).log)
    ensures Calls(CancelTask(e, running, t).log) == Calls(e.log)
  {
    var log' := CancelTask(e, running, t).log;
    if log' == e.log {
    } else if e.tasks[t].payload.Output? {
      var log := e.log + [Delivered(t, e.tasks[t].payload.value)];
      OneMore(e.log, log, Delivered(t, e.tasks[t].payload.value));
      OneMore(log, log', Cancelled(t));
    } else {
      assert e.log + [] == e.log;
      OneMore(e.log, log', Cancelled(t));
    }
  }

  lemma ActRecords(e: Exec, running: Option<TaskId>, a: Action)
    requires !e.panicked
    ensures Uneventful(e.log, Act(e, running, a).log)
    ensures Calls(Act(e, running, a).log) == Calls(e.log) + if a.Wake? then [a.w] else []
  {
    match a
    case Wake(w) => OneMore(e.log, Act(e, running, a).log, Called(w));
    case Spawn =>
    case PollHandle(t, w) => PollOutputRecords(e, running, t, w);
    case Cancel(t) => CancelRecords(e, running, t);
  }

  /** The uses of a live handle that panic: from inside its own task's poll, and a poll after
      the output was taken. They change no task. */
  predicate Misuses(e: Exec, running: Option<TaskId>, a: Action) {
    match a
    case PollHandle(t, _) =>
      t < |e.tasks| && e.tasks[t].handle && (running == Some(t) || e.tasks[t].payload.Taken?)
    case Cancel(t) => t < |e.tasks| && e.tasks[t].handle && running == Some(t)
    case _ => false
  }

  lemma PanicsIffMisused(e: Exec, running: Option<TaskId>, a: Action)
    requires !e.panicked
    ensures Act(e, running, a).panicked <==> Misuses(e, running, a)
    ensures Act(e, running, a).panicked ==> Act(e, running, a) == e.(panicked := true)
  {
  }

  /** Every call of a poll takes its effect, in order, and nothing else happens. */
  lemma PerformDoes(e: Exec, running: Option<TaskId>, actions: seq<Action>)
    requires HandlesOk(e) && !Perform(e, running, actions).panicked
    ensures CallsDid(e, Perform(e, running, actions), actions)
  {
    PerformSpawns(e, running, actions);
    PerformRecords(e, running, actions);
    RaisesFlagIff(e, running, actions);
    PerformOnlyPushes(e, running, actions);
    forall t | 0 <= t < |e.tasks| ensures TaskAfter(e.tasks[t], Perform(e, running, actions).tasks[t], actions, t) {
      PerformOnTask(e, running, actions, t);
    }
  }

  // ----- what a run of a task comes to

  /** The wake that a completion adds to what the future called itself: that of the waker the
      handle's latest poll left. */
  function Completion(script: Script, last: Option<Waker>): seq<Action> {
    if script.ready.Some? && last.Some? then [Wake(last.value)] else []
  }

  /** What a run writes last: the completion, followed by that call. */
  function Closing(t: TaskId, script: Script, last: Option<Waker>): seq<Event> {
    if script.ready.None? then []
    else [Completed(t, script.ready.value)] + if last.Some? then [Called(last.value)] else []
  }

  /** The task that was run: its output is there and it is done if its future was ready; else
      its future is, and it is scheduled again exactly if it woke itself. */
  ghost predicate TaskRan(before: Task, after: Task, t: TaskId, script: Script) {
    match script.ready
    case Some(v) => after.payload == Output(v) && after.state.Done? && after.handle == before.handle
    case None =>
      && after.payload.Future? && after.handle == before.handle
      && after.state == (if Wake(TaskWaker(t)) in script.actions then Scheduled else Idle)
  }

  /** Whoever is woken by one of the calls and not finished is queued. */
  ghost predicate WokenQueued(e: Exec, actions: seq<Action>) {
    forall s :: 0 <= s < |e.tasks| && Wake(TaskWaker(s)) in actions && e.tasks[s].payload.Future? ==> s in e.queue
  }

  /** A poll of the future of task `t` that did not panic, seen from before and after. */
  ghost predicate PollDid(e: Exec, e': Exec, t: TaskId, script: Script)
    requires t < |e.tasks|
  {
    var last := LastAwaiter(e.log, t);
    var all := script.actions + Completion(script, last);
    var closing := Closing(t, script, last);
    && |e'.tasks| == |e.tasks| + Spawns(script.actions)
    && TaskRan(e.tasks[t], e'.tasks[t], t, script)
    && (forall s :: 0 <= s < |e.tasks| && s != t ==> TaskAfter(e.tasks[s], e'.tasks[s], all, s))
    && (forall s :: |e.tasks| <= s < |e'.tasks| ==> SpawnedTask(e'.tasks[s], all, s))
    && WokenQueued(e', all)
    && (e'.woke <==> e.woke || Wake(MainWaker) in all)
    && Calls(e'.log) == Calls(e.log) + WakesOf(all)
    && |closing| <= |e'.log| && e'.log[|e'.log| - |closing|..] == closing
    && Uneventful(e.log + [Polled(t)], e'.log[..|e'.log| - |closing|])
  }

  /** One run of a popped task, seen from before and after. Without a future there is nothing
      to poll; a poll that panics completes nothing. */
  ghost predicate RunDid(e: Exec, e': Exec, t: TaskId, script: Script)
    requires t < |e.tasks|
  {
    if !e.tasks[t].payload.Future? then e' == e.(tasks := e.tasks[t := e.tasks[t].(state := Idle)])
    else
      && t < |e'.tasks| && e'.tasks[t].polls == e.tasks[t].polls + 1 && e.queue <= e'.queue
      && (e'.panicked ==> e'.tasks[t].payload.Future?)
      && (!e'.panicked ==> PollDid(e, e', t, script))
  }

  /** A future cannot touch its own handle without a panic. */
  lemma {:induction false} OwnHandleUntouched(e: Exec, t: TaskId, actions: seq<Action>)
    requires HandlesOk(e) && StillRuns(e, t) && !Perform(e, Some(t), actions).panicked
    ensures Cancel(t) !in actions
    ensures var e' := Perform(e, Some(t), actions);
      t < |e'.tasks| && e'.tasks[t].awaiter == e.tasks[t].awaiter && e'.tasks[t].payload.Future?
    decreases |actions|
  {
    if actions == [] {
    } else {
      var e1 := Act(e, Some(t), actions[0]);
      NotPanickedYet(e1, Some(t), actions[1..]);
      ActKeepsHandlesOk(e, Some(t), actions[0]);
      OwnHandleUntouched(e1, t, actions[1..]);
    }
  }

  lemma {:induction false} WakesOfConcat(a: seq<Action>, b: seq<Action>)
    ensures WakesOf(a + b) == WakesOf(a) + WakesOf(b)
    decreases |a|
  {
    if a == [] {
      assert a + b == b;
    } else {
      assert (a + b)[1..] == a[1..] + b;
      WakesOfConcat(a[1..], b);
      Assoc(if a[0].Wake? then [a[0].w] else [], WakesOf(a[1..]), WakesOf(b));
    }
  }

  lemma CompleteOnTask(e: Exec, t: TaskId, script: Script, s: TaskId)
    requires t < |e.tasks| && s < |e.tasks| && s != t && script.ready.Some?
    ensures |Complete(e, t, script.ready.value).tasks| == |e.tasks|
    ensures TaskAfter(e.tasks[s], Complete(e, t, script.ready.value).tasks[s],
                      Completion(script, e.tasks[t].awaiter), s)
  {
    var c := Completion(script, e.tasks[t].awaiter);
    assert !PollsHandle(c, s);
    if c != [] {
      assert c[1..] == [];
    }
  }

  lemma ClosingCalls(log: seq<Event>, t: TaskId, script: Script, last: Option<Waker>)
    requires script.ready.Some?
    ensures Calls(log + Closing(t, script, last)) == Calls(log) + WakesOf(Completion(script, last))
  {
    var done := Completed(t, script.ready.value);
    CallsPush(log, done);
    if last.Some? {
      CallsPush(log + [done], Called(last.value));
      assert log + Closing(t, script, last) == log + [done] + [Called(last.value)];
      assert [Wake(last.value)][1..] == [];
    }
  }

  lemma CompleteRecords(e: Exec, t: TaskId, script: Script)
    requires t < |e.tasks| && script.ready.Some?
    ensures var e', last := Complete(e, t, script.ready.value), e.tasks[t].awaiter;
      && e'.log == e.log + Closing(t, script, last)
      && (e'.woke <==> e.woke || Wake(MainWaker) in Completion(script, last))
      && e.queue <= e'.queue && !e.panicked == !e'.panicked
  {
    var done, last := Completed(t, script.ready.value), e.tasks[t].awaiter;
    if last.Some? {
      assert e.log + ([done] + [Called(last.value)]) == e.log + [done] + [Called(last.value)];
    }
  }

  lemma CompleteOwn(e: Exec, t: TaskId, v: Output)
    requires t < |e.tasks|
    ensures var after := Complete(e, t, v).tasks[t];
      && after.payload == Output(v) && after.state.Done?
      && after.handle == e.tasks[t].handle && after.polls == e.tasks[t].polls
  {
  }

  /** What the tasks and the main future's flag come to when the future was ready ... */
  lemma PollEnds(e: Exec, e2: Exec, t: TaskId, script: Script)
    requires StillRuns(e, t) && script.ready.Some?
    requires CallsDid(Begin(e, t), e2, script.actions) && Cancel(t) !in script.actions
    requires e2.tasks[t].awaiter == LastAwaiter(e.log, t)
    ensures var e', last := Complete(e2, t, script.ready.value), LastAwaiter(e.log, t);
      var all := script.actions + Completion(script, last);
      && |e'.tasks| == |e.tasks| + Spawns(script.actions)
      && TaskRan(e.tasks[t], e'.tasks[t], t, script)
      && (forall s :: 0 <= s < |e.tasks| && s != t ==> TaskAfter(e.tasks[s], e'.tasks[s], all, s))
      && (forall s :: |e.tasks| <= s < |e'.tasks| ==> SpawnedTask(e'.tasks[s], all, s))
      && (e'.woke <==> e.woke || Wake(MainWaker) in all)
  {
    var e', last := Complete(e2, t, script.ready.value), LastAwaiter(e.log, t);
    var c := Completion(script, last);
    CompleteOwn(e2, t, script.ready.value);
    CompleteRecords(e2, t, script);
    forall s | 0 <= s < |e.tasks| && s != t ensures TaskAfter(e.tasks[s], e'.tasks[s], script.actions + c, s) {
      CompleteOnTask(e2, t, script, s);
      TaskAfterBoth(e.tasks[s], e2.tasks[s], e'.tasks[s], script.actions, c, s);
    }
    forall s | |e.tasks| <= s < |e'.tasks| ensures SpawnedTask(e'.tasks[s], script.actions + c, s) {
      CompleteOnTask(e2, t, script, s);
    }
  }

  /** ... and what the record does. */
  lemma PollEndRecords(e: Exec, e2: Exec, t: TaskId, script: Script)
    requires StillRuns(e, t) && script.ready.Some?
    requires CallsDid(Begin(e, t), e2, script.actions) && e2.tasks[t].awaiter == LastAwaiter(e.log, t)
    ensures var e', last := Complete(e2, t, script.ready.value), LastAwaiter(e.log, t);
      var closing := Closing(t, script, last);
      && Calls(e'.log) == Calls(e.log) + WakesOf(script.actions + Completion(script, last))
      && |closing| <= |e'.log| && e'.log[|e'.log| - |closing|..] == closing
      && Uneventful(e.log + [Polled(t)], e'.log[..|e'.log| - |closing|])
  {
    var last := LastAwaiter(e.log, t);
    CompleteRecords(e2, t, script);
    CallsPush(e.log, Polled(t));
    ClosedRecord(e.log, e2.log, t, script, last);
  }

  lemma ClosedRecord(before: seq<Event>, log: seq<Event>, t: TaskId, script: Script, last: Option<Waker>)
    requires script.ready.Some? && Calls(log) == Calls(before) + WakesOf(script.actions)
    ensures var closing := Closing(t, script, last);
      && Calls(log + closing) == Calls(before) + WakesOf(script.actions + Completion(script, last))
      && (log + closing)[|log|..] == closing && (log + closing)[..|log|] == log
  {
    ClosingCalls(log, t, script, last);
    WakesOfConcat(script.actions, Completion(script, last));
    Assoc(Calls(before), WakesOf(script.actions), WakesOf(Completion(script, last)));
  }

  /** The future was not ready. */
  lemma PollGoesOn(e: Exec, e2: Exec, t: TaskId, script: Script)
    requires StillRuns(e, t) && script.ready.None? && Cancel(t) !in script.actions
    requires CallsDid(Begin(e, t), e2, script.actions)
    requires WokenQueued(e2, script.actions)
    ensures PollDid(e, e2, t, script)
  {
    var last := LastAwaiter(e.log, t);
    assert script.actions + Completion(script, last) == script.actions;
    assert e2.log[..|e2.log|] == e2.log;
    CallsPush(e.log, Polled(t));
  }

  /** In an orderly queue whoever has been scheduled and is not finished is queued. */
  lemma ScheduledIsQueued(e: Exec, s: TaskId)
    requires Queued(e) && s < |e.tasks| && e.tasks[s].state.Scheduled?
    ensures s in e.queue
  {
    assert QueueOk(e, s);
  }

  lemma UnfinishedIsNotDone(e: Exec, s: TaskId)
    requires Queued(e) && StillRuns(e, s)
    ensures !e.tasks[s].state.Done?
  {
    assert QueueOk(e, s);
  }

  /** Whom a poll wakes is queued after it, unless it is finished. */
  lemma WokenIsQueued(e: Exec, running: Option<TaskId>, actions: seq<Action>, s: TaskId)
    requires HandlesOk(e) && Queued(e) && !Perform(e, running, actions).panicked
    requires StillRuns(Perform(e, running, actions), s) && Wake(TaskWaker(s)) in actions
    ensures s in Perform(e, running, actions).queue
  {
    var e' := Perform(e, running, actions);
    PerformKeepsQueued(e, running, actions);
    PerformDoes(e, running, actions);
    if s < |e.tasks| {
      assert TaskAfter(e.tasks[s], e'.tasks[s], actions, s);
      UnfinishedIsNotDone(e, s);
    } else {
      assert SpawnedTask(e'.tasks[s], actions, s);
    }
    ScheduledIsQueued(e', s);
  }

  lemma CompletionIsQueued(e: Exec, t: TaskId, script: Script, s: TaskId)
    requires Queued(e) && t < |e.tasks| && script.ready.Some?
    requires StillRuns(Complete(e, t, script.ready.value), s)
    requires s in e.queue || Wake(TaskWaker(s)) in Completion(script, e.tasks[t].awaiter)
    ensures s in Complete(e, t, script.ready.value).queue
  {
    if s !in e.queue {
      UnfinishedIsNotDone(e, s);
    }
    assert QueueOk(e, s);
  }

  /** One run of the task at the head of the queue: everything its future called takes its
      effect, and if it returned ready its output is stored and the handle's latest waker is
      called; else it stays. */
  lemma RunDoes(e: Exec, script: Script)
    requires Queued(e) && Lives(e) && e.queue != []
    ensures e.queue[0] < |e.tasks| && RunDid(Pop(e), RunTask(Pop(e), e.queue[0], script), e.queue[0], script)
  {
    BeginKeepsQueued(e);
    var t, popped := e.queue[0], Pop(e);
    if StillRuns(e, t) {
      SameTasks(e, popped);
      BeginKeepsLives(popped, t);
      PollRuns(popped, t, script);
    }
  }

  lemma PollRuns(e: Exec, t: TaskId, script: Script)
    requires StillRuns(e, t) && Lives(e) && Lives(Begin(e, t)) && Queued(Begin(e, t))
    ensures RunDid(e, RunTask(e, t, script), t, script)
  {
    var e1 := Begin(e, t);
    var e2 := Perform(e1, Some(t), script.actions);
    PerformOnlyPushes(e1, Some(t), script.actions);
    PerformKeepsLives(e1, Some(t), script.actions);
    PollsKept(e1, Some(t), script.actions, t);
    if !e2.panicked {
      LivesHandlesOk(e1);
      PollCallsDone(e, t, script);
      if script.ready.None? {
        PollGoesOn(e, e2, t, script);
      } else {
        PollReady(e, e2, t, script);
        CompleteOwn(e2, t, script.ready.value);
        CompleteRecords(e2, t, script);
      }
    }
  }

  lemma PollCallsDone(e: Exec, t: TaskId, script: Script)
    requires StillRuns(e, t) && Lives(e) && HandlesOk(Begin(e, t)) && Queued(Begin(e, t))
    requires !Perform(Begin(e, t), Some(t), script.actions).panicked
    ensures var e2 := Perform(Begin(e, t), Some(t), script.actions);
      && CallsDid(Begin(e, t), e2, script.actions) && Cancel(t) !in script.actions
      && e2.tasks[t].awaiter == LastAwaiter(e.log, t)
      && Queued(e2) && WokenQueued(e2, script.actions)
  {
    var e1 := Begin(e, t);
    assert LifeOk(e, t);
    PerformDoes(e1, Some(t), script.actions);
    OwnHandleUntouched(e1, t, script.actions);
    PerformKeepsQueued(e1, Some(t), script.actions);
    var e2 := Perform(e1, Some(t), script.actions);
    forall s | StillRuns(e2, s) && Wake(TaskWaker(s)) in script.actions ensures s in e2.queue {
      WokenIsQueued(e1, Some(t), script.actions, s);
    }
  }

  lemma PollReady(e: Exec, e2: Exec, t: TaskId, script: Script)
    requires StillRuns(e, t) && script.ready.Some? && Cancel(t) !in script.actions
    requires CallsDid(Begin(e, t), e2, script.actions) && Queued(e2) && WokenQueued(e2, script.actions)
    requires e2.tasks[t].awaiter == LastAwaiter(e.log, t)
    ensures PollDid(e, Complete(e2, t, script.ready.value), t, script)
  {
    PollEnds(e, e2, t, script);
    PollEndRecords(e, e2, t, script);
    CompleteQueues(e2, t, script, LastAwaiter(e.log, t));
  }

  lemma CompleteQueues(e: Exec, t: TaskId, script: Script, last: Option<Waker>)
    requires Queued(e) && t < |e.tasks| && script.ready.Some? && last == e.tasks[t].awaiter
    requires WokenQueued(e, script.actions)
    ensures WokenQueued(Complete(e, t, script.ready.value), script.actions + Completion(script, last))
  {
    var e' := Complete(e, t, script.ready.value);
    forall s | StillRuns(e', s) && Wake(TaskWaker(s)) in script.actions + Completion(script, last)
      ensures s in e'.queue
    {
      CompletionIsQueued(e, t, script, s);
    }
  }

  lemma {:induction false} PollsKept(e: Exec, running: Option<TaskId>, actions: seq<Action>, t: TaskId)
    requires t < |e.tasks|
    ensures var e' := Perform(e, running, actions);
      && t < |e'.tasks| && e'.tasks[t].polls == e.tasks[t].polls
      && (!e.tasks[t].payload.Future? ==> !e'.tasks[t].payload.Future?)
    decreases |actions|
  {
    if actions == [] {
    } else {
      PollsKept(Act(e, running, actions[0]), running, actions[1..], t);
    }
  }

  // ----- what a legal life means

  lemma {:induction false} OnceBrokenStaysBroken(log: seq<Event>, n: nat, t: TaskId)
    requires n <= |log| && PhaseOf(log, t) != Broken
    ensures PhaseOf(log[..n], t) != Broken
    ensures !PhaseOf(log[..n], t).Running? ==> !PhaseOf(log, t).Running?
    ensures PhaseOf(log[..n], t).Over? ==> PhaseOf(log, t).Over?
    ensures PhaseOf(log, t).Finished? && PhaseOf(log[..n], t).Finished? ==> PhaseOf(log, t) == PhaseOf(log[..n], t)
    decreases |log|
  {
    if n == |log| {
      assert log[..n] == log;
    } else {
      var init := log[..|log| - 1];
      assert init[..n] == log[..n];
      OnceBrokenStaysBroken(init, n, t);
    }
  }

  lemma PhaseAt(log: seq<Event>, i: nat, t: TaskId)
    requires i < |log|
    ensures PhaseOf(log[..i + 1], t) == After(PhaseOf(log[..i], t), log[i], t)
  {
    assert log[..i + 1][..i] == log[..i];
  }

  /** In a legal record a future is never polled after it returned ready or its handle was
      cancelled, its output is delivered at most once, and what is delivered is what the
      future returned. */
  lemma LegalLife(log: seq<Event>, i: nat, j: nat, t: TaskId)
    requires i < j < |log| && PhaseOf(log, t) != Broken
    ensures (log[i] == Cancelled(t) || (log[i].Completed? && log[i].t == t)) ==> log[j] != Polled(t)
    ensures log[i].Delivered? && log[i].t == t ==> !(log[j].Delivered? && log[j].t == t)
    ensures log[i].Completed? && log[i].t == t && log[j].Delivered? && log[j].t == t ==> log[j].v == log[i].v
  {
    OnceBrokenStaysBroken(log, j + 1, t);
    PhaseAt(log, j, t);
    PhaseAt(log, i, t);
    assert log[..j + 1][..j] == log[..j] && log[..j][..i + 1] == log[..i + 1];
    OnceBrokenStaysBroken(log[..j + 1], j, t);
    OnceBrokenStaysBroken(log[..j], i + 1, t);
    assert log[..i + 1][..i] == log[..i];
    OnceBrokenStaysBroken(log[..i + 1], i, t);
  }
}
