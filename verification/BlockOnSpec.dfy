/** The scheduling loop of `block_on` as a machine that makes one turn at a time, and what
    every number of turns keeps. */
module BlockOnSpec {
  import opened Common
  import opened ExecutorSpec

  const POLLS_PER_TICK: nat := 61

  /** What the executor cannot decide: what the `k`-th poll of each future does, what the
      `k`-th poll of the main future does, and whose wakers the `k`-th park hands back, if
      it does not fail. */
  datatype World = World(task: (TaskId, nat) -> Script, main: nat -> Script, park: nat -> Option<seq<Waker>>)

  /** `Top` is the head of the outer loop, `Tick(n)` that of the inner one after `n` tasks. */
  datatype Pc = Top | Tick(n: nat) | Returned(v: Output) | Unwound

  /** What the loop did, in order. A `Park` has no timeout, a `ParkZero` returns at once. */
  datatype Move = MainPoll | Ran(t: TaskId) | FoundEmpty | Park | ParkZero

  datatype Machine = Machine(exec: Exec, pc: Pc, mainPolls: nat, parks: nat, trace: seq<Move>)

  function WakeAll(e: Exec, ws: seq<Waker>): Exec
    decreases |ws|
  {
    if ws == [] then e else WakeAll(WakeBy(e, ws[0]), ws[1..])
  }

  lemma {:induction false} WakeAllKeeps(e: Exec, ws: seq<Waker>)
    ensures Queued(e) ==> Queued(WakeAll(e, ws))
    ensures Lives(e) ==> Lives(WakeAll(e, ws))
    ensures e.queue <= WakeAll(e, ws).queue && WakeAll(e, ws).panicked == e.panicked
    decreases |ws|
  {
    if ws == [] {
    } else {
      if Queued(e) {
        WakeKeepsQueued(e, ws[0]);
      }
      if Lives(e) {
        WakeKeepsLives(e, ws[0]);
      }
      WakeAllKeeps(WakeBy(e, ws[0]), ws[1..]);
    }
  }

  /** A park that fails panics, and the wakers it had collected are lost. */
  function AfterPark(e: Exec, handed: Option<seq<Waker>>): Exec {
    match handed
    case None => e.(panicked := true)
    case Some(ws) => WakeAll(e, ws)
  }

  lemma AfterParkKeeps(e: Exec, handed: Option<seq<Waker>>)
    ensures Queued(e) ==> Queued(AfterPark(e, handed))
    ensures Lives(e) ==> Lives(AfterPark(e, handed))
    ensures e.queue <= AfterPark(e, handed).queue
    ensures AfterPark(e, handed).panicked <==> e.panicked || handed.None?
  {
    match handed
    case None =>
      if Queued(e) {
        HandleKeepsQueued(e, AfterPark(e, handed));
      }
      if Lives(e) {
        SameTasks(e, AfterPark(e, handed));
      }
    case Some(ws) => WakeAllKeeps(e, ws);
  }

  function PollMain(w: World, m: Machine): Machine {
    var script := w.main(m.mainPolls);
    var e := Perform(m.exec.(woke := false), None, script.actions);
    Machine(e, if e.panicked then Unwound else if script.ready.Some? then Returned(script.ready.value) else Tick(0),
            m.mainPolls + 1, m.parks, m.trace + [MainPoll])
  }

  function ParkAndWake(w: World, m: Machine, moves: seq<Move>): Machine {
    var handed := w.park(m.parks);
    Machine(AfterPark(m.exec, handed), if handed.None? then Unwound else Top,
            m.mainPolls, m.parks + 1, m.trace + moves)
  }

  function RunNext(w: World, m: Machine): Machine
    requires m.exec.queue != [] && m.exec.queue[0] < |m.exec.tasks| && m.pc.Tick?
  {
    var t := m.exec.queue[0];
    var e := RunTask(Pop(m.exec), t, w.task(t, m.exec.tasks[t].polls));
    Machine(e, if e.panicked then Unwound else if e.woke then Top else Tick(m.pc.n + 1),
            m.mainPolls, m.parks, m.trace + [Ran(t)])
  }

  /** One turn; the queue never names a task that does not exist. */
  function Turn(w: World, m: Machine): Machine {
    match m.pc
    case Top => if m.exec.woke then PollMain(w, m) else m.(pc := Tick(0))
    case Tick(n) =>
      if n >= POLLS_PER_TICK then ParkAndWake(w, m, [ParkZero])
      else if m.exec.queue == [] then ParkAndWake(w, m, [FoundEmpty, Park])
      else if m.exec.queue[0] < |m.exec.tasks| then RunNext(w, m)
      else m
    case _ => m
  }

  /** The queue and the results of all tasks are in order. */
  ghost predicate Sound(e: Exec) {
    Queued(e) && Lives(e)
  }

  /** What the users of an executor can call, inside and outside of `block_on`, keeps it. */
  lemma CallKeepsSound(e: Exec, running: Option<TaskId>, a: Action)
    requires Sound(e)
    ensures match a
      case Wake(w) => Sound(WakeBy(e, w))
      case Spawn => Sound(SpawnTask(e))
      case PollHandle(t, w) => Sound(PollOutput(e, running, t, w))
      case Cancel(t) => Sound(CancelTask(e, running, t))
  {
    match a
    case Wake(w) =>
      WakeKeepsQueued(e, w);
      WakeKeepsLives(e, w);
    case Spawn =>
      SpawnKeepsQueued(e);
      SpawnKeepsLives(e);
    case PollHandle(t, w) =>
      HandleKeepsQueued(e, PollOutput(e, running, t, w));
      PollOutputKeepsLives(e, running, t, w);
    case Cancel(t) =>
      HandleKeepsQueued(e, CancelTask(e, running, t));
      CancelKeepsLives(e, running, t);
  }

  lemma TurnKeepsSound(w: World, m: Machine)
    requires Sound(m.exec)
    ensures Sound(Turn(w, m).exec)
  {
    match m.pc
    case Top =>
      if m.exec.woke {
        var e := m.exec.(woke := false);
        HandleKeepsQueued(m.exec, e);
        SameTasks(m.exec, e);
        PerformKeepsQueued(e, None, w.main(m.mainPolls).actions);
        PerformKeepsLives(e, None, w.main(m.mainPolls).actions);
      }
    case Tick(n) =>
      AfterParkKeeps(m.exec, w.park(m.parks));
      if n < POLLS_PER_TICK && m.exec.queue != [] {
        var t := m.exec.queue[0];
        assert t in m.exec.queue;
        var script := w.task(t, m.exec.tasks[t].polls);
        RunKeepsQueued(m.exec, script);
        SameTasks(m.exec, Pop(m.exec));
        RunKeepsLives(Pop(m.exec), t, script);
      }
    case _ =>
  }

  function Turns(w: World, m: Machine, n: nat): Machine {
    if n == 0 then m else Turn(w, Turns(w, m, n - 1))
  }

  lemma {:induction false} TurnsKeepSound(w: World, m: Machine, n: nat)
    requires Sound(m.exec)
    ensures Sound(Turns(w, m, n).exec)
  {
    if n == 0 {
    } else {
      TurnsKeepSound(w, m, n - 1);
      TurnKeepsSound(w, Turns(w, m, n - 1));
    }
  }

  // What one more turn is, at each position of the loop.

  lemma MainTurn(w: World, start: Machine, n: nat, m: Machine)
    requires m == Turns(w, start, n) && m.pc.Top? && m.exec.woke
    ensures PollMain(w, m) == Turns(w, start, n + 1)
  {
  }

  lemma SkipTurn(w: World, start: Machine, n: nat, m: Machine)
    requires m == Turns(w, start, n) && m.pc.Top? && !m.exec.woke
    ensures m.(pc := Tick(0)) == Turns(w, start, n + 1)
  {
  }

  lemma EmptyTurn(w: World, start: Machine, n: nat, m: Machine)
    requires m == Turns(w, start, n) && m.pc.Tick? && m.pc.n < POLLS_PER_TICK && m.exec.queue == []
    ensures ParkAndWake(w, m, [FoundEmpty, Park]) == Turns(w, start, n + 1)
  {
  }

  lemma ZeroTurn(w: World, start: Machine, n: nat, m: Machine)
    requires m == Turns(w, start, n) && m.pc.Tick? && m.pc.n >= POLLS_PER_TICK
    ensures ParkAndWake(w, m, [ParkZero]) == Turns(w, start, n + 1)
  {
  }

  lemma RunTurn(w: World, start: Machine, n: nat, m: Machine)
    requires Sound(start.exec)
    requires m == Turns(w, start, n) && m.pc.Tick? && m.pc.n < POLLS_PER_TICK && m.exec.queue != []
    ensures m.exec.queue[0] < |m.exec.tasks| && RunNext(w, m) == Turns(w, start, n + 1)
  {
    TurnsKeepSound(w, start, n);
    assert m.exec.queue[0] in m.exec.queue;
  }

  /** An executor with no tasks is in order. */
  lemma StartIsSound()
    ensures Sound(START)
  {
  }

  /** The machine as `block_on` starts it. */
  function Enter(e: Exec): (m: Machine)
    requires Sound(e)
    ensures Sound(m.exec)
  {
    var e' := e.(woke := true, panicked := false);
    HandleKeepsQueued(e, e');
    SameTasks(e, e');
    Machine(e', Top, 0, 0, [])
  }

  /** After any number of turns, whatever the futures and the outside did: a task is queued
      exactly as its state says, nothing is queued that is not a task, and the record of
      every task's result is a legal life. */
  lemma EveryTurnIsSound(w: World, e: Exec, n: nat, t: TaskId)
    requires Sound(e)
    ensures var e' := Turns(w, Enter(e), n).exec;
      && PhaseOf(e'.log, t) != Broken
      && (t < |e'.tasks| && e'.tasks[t].state.Scheduled? ==> Count(e'.queue, t) == 1)
      && (t < |e'.tasks| && e'.tasks[t].state.Idle? ==> Count(e'.queue, t) == 0)
      && (t < |e'.tasks| && e'.tasks[t].payload.Future? ==> !e'.tasks[t].state.Done?)
      && (t >= |e'.tasks| ==> Count(e'.queue, t) == 0)
  {
    TurnsKeepSound(w, Enter(e), n);
    var e' := Turns(w, Enter(e), n).exec;
    if t < |e'.tasks| {
      assert QueueOk(e', t) && LifeOk(e', t);
    } else {
      CountBeyond(e', t);
    }
  }

  // ----- the queue is served in order

  function Served(trace: seq<Move>): seq<TaskId> {
    if trace == [] then []
    else
      var last := trace[|trace| - 1];
      Served(trace[..|trace| - 1]) + if last.Ran? then [last.t] else []
  }

  lemma ServedPush(trace: seq<Move>, m: Move)
    ensures Served(trace + [m]) == Served(trace) + if m.Ran? then [m.t] else []
  {
    assert (trace + [m])[..|trace|] == trace;
  }

  lemma PrefixAfter(a: seq<TaskId>, b: seq<TaskId>, c: seq<TaskId>)
    requires b <= c
    ensures a + b <= a + c
  {
  }

  /** What has been served and what is still queued, in one row. */
  function Row(m: Machine): seq<TaskId> {
    Served(m.trace) + m.exec.queue
  }

  lemma ParkServesNobody(w: World, m: Machine, moves: seq<Move>)
    requires moves == [ParkZero] || moves == [FoundEmpty, Park]
    ensures Row(m) <= Row(ParkAndWake(w, m, moves))
  {
    AfterParkKeeps(m.exec, w.park(m.parks));
    ServedPush(m.trace, ParkZero);
    ServedPush(m.trace, FoundEmpty);
    ServedPush(m.trace + [FoundEmpty], Park);
    assert m.trace + [FoundEmpty, Park] == m.trace + [FoundEmpty] + [Park];
    PrefixAfter(Served(m.trace), m.exec.queue, AfterPark(m.exec, w.park(m.parks)).queue);
  }

  lemma RunServesFirst(w: World, m: Machine)
    requires m.exec.queue != [] && m.exec.queue[0] < |m.exec.tasks| && m.pc.Tick?
    ensures Row(m) <= Row(RunNext(w, m))
  {
    var t, rest := m.exec.queue[0], Pop(m.exec).queue;
    ServedPush(m.trace, Ran(t));
    RunOnlyPushes(Pop(m.exec), t, w.task(t, m.exec.tasks[t].polls));
    assert m.exec.queue == [t] + rest;
    Assoc(Served(m.trace), [t], rest);
    PrefixAfter(Served(m.trace) + [t], rest, RunNext(w, m).exec.queue);
  }

  lemma TurnServesInOrder(w: World, m: Machine)
    ensures Row(m) <= Row(Turn(w, m))
  {
    match m.pc
    case Top =>
      if m.exec.woke {
        ServedPush(m.trace, MainPoll);
        PerformOnlyPushes(m.exec.(woke := false), None, w.main(m.mainPolls).actions);
        PrefixAfter(Served(m.trace), m.exec.queue, PollMain(w, m).exec.queue);
      }
    case Tick(n) =>
      if n >= POLLS_PER_TICK {
        ParkServesNobody(w, m, [ParkZero]);
      } else if m.exec.queue == [] {
        ParkServesNobody(w, m, [FoundEmpty, Park]);
      } else if m.exec.queue[0] < |m.exec.tasks| {
        RunServesFirst(w, m);
      }
    case _ =>
  }

  /** The tasks that run are, in this order, those that were queued and then those pushed
      later. */
  lemma {:induction false} ServedInOrder(w: World, m: Machine, n: nat)
    ensures Row(m) <= Row(Turns(w, m, n))
  {
    if n == 0 {
    } else {
      ServedInOrder(w, m, n - 1);
      TurnServesInOrder(w, Turns(w, m, n - 1));
    }
  }

  /** Bounded waiting: the task at index `k` of the queue is the one run by the `k+1`-th pop
      from now on. */
  lemma BoundedWaiting(w: World, m: Machine, n: nat, k: nat)
    requires k < |m.exec.queue|
    ensures var before, after := Served(m.trace), Served(Turns(w, m, n).trace);
      |after| > |before| + k ==> after[|before| + k] == m.exec.queue[k]
  {
    ServedInOrder(w, m, n);
    assert Row(m)[|Served(m.trace)| + k] == m.exec.queue[k];
  }

  // ----- the shape of the schedule

  predicate IsPop(m: Move) {
    m.Ran? || m.FoundEmpty?
  }

  /** What may come right after what. */
  predicate Follows(a: Move, b: Move) {
    match a
    case MainPoll => IsPop(b)
    case Ran(_) => b != Park
    case FoundEmpty => b == Park
    case Park => IsPop(b) || b == MainPoll
    case ParkZero => IsPop(b) || b == MainPoll
  }

  ghost predicate Scheduled(trace: seq<Move>) {
    && (trace != [] ==> trace[0] == MainPoll)
    && forall i :: 0 <= i < |trace| - 1 ==> Follows(trace[i], trace[i + 1])
  }

  /** How many tasks have run in a row. */
  function Streak(trace: seq<Move>): nat {
    if trace == [] || !trace[|trace| - 1].Ran? then 0 else 1 + Streak(trace[..|trace| - 1])
  }

  function LastMove(m: Machine): Move
    requires m.trace != []
  {
    m.trace[|m.trace| - 1]
  }

  /** The loop's position tells what it did last. */
  ghost predicate AtPc(m: Machine) {
    match m.pc
    case Top =>
      if m.trace == [] then m.exec.woke
      else
        && (LastMove(m).Ran? ==> m.exec.woke)
        && LastMove(m) != MainPoll && LastMove(m) != FoundEmpty
    case Tick(n) =>
      && n <= POLLS_PER_TICK && Streak(m.trace) == n && m.trace != []
      && LastMove(m) != FoundEmpty
      && (n > 0 ==> LastMove(m).Ran?)
      && (m.exec.woke ==> LastMove(m) == MainPoll)
    case _ => m.trace != [] && LastMove(m) != FoundEmpty
  }

  /** No task runs while the main future is known to be woken by one that ran before it, and
      at most 61 tasks run between two looks at the main future or the outside world. */
  ghost predicate Shape(m: Machine) {
    && AtPc(m) && Scheduled(m.trace)
    && forall i :: 0 <= i <= |m.trace| ==> Streak(m.trace[..i]) <= POLLS_PER_TICK
  }

  lemma OneMove(m: Machine, b: Move)
    requires Scheduled(m.trace) && (if m.trace == [] then b == MainPoll else Follows(LastMove(m), b))
    requires forall i :: 0 <= i <= |m.trace| ==> Streak(m.trace[..i]) <= POLLS_PER_TICK
    requires b.Ran? ==> Streak(m.trace) < POLLS_PER_TICK
    ensures var trace := m.trace + [b];
      && Scheduled(trace) && Streak(trace) == (if b.Ran? then Streak(m.trace) + 1 else 0)
      && forall i :: 0 <= i <= |trace| ==> Streak(trace[..i]) <= POLLS_PER_TICK
  {
    var trace := m.trace + [b];
    assert trace[..|m.trace|] == m.trace && trace[..|trace|] == trace;
    forall i | 0 <= i <= |trace| ensures Streak(trace[..i]) <= POLLS_PER_TICK {
      if i <= |m.trace| {
        assert trace[..i] == m.trace[..i];
      }
    }
  }

  lemma MainKeepsShape(w: World, m: Machine)
    requires Shape(m) && m.pc.Top? && m.exec.woke
    ensures Shape(PollMain(w, m))
  {
    OneMove(m, MainPoll);
  }

  lemma SkipKeepsShape(m: Machine)
    requires Shape(m) && m.pc.Top? && !m.exec.woke
    ensures Shape(m.(pc := Tick(0)))
  {
  }

  lemma ParkKeepsShape(w: World, m: Machine)
    requires Shape(m) && m.pc.Tick? && m.pc.n >= POLLS_PER_TICK
    ensures Shape(ParkAndWake(w, m, [ParkZero]))
  {
    OneMove(m, ParkZero);
  }

  lemma EmptyParkKeepsShape(w: World, m: Machine)
    requires Shape(m) && m.pc.Tick? && m.pc.n < POLLS_PER_TICK
    ensures Shape(ParkAndWake(w, m, [FoundEmpty, Park]))
  {
    var m1 := m.(trace := m.trace + [FoundEmpty]);
    OneMove(m, FoundEmpty);
    OneMove(m1, Park);
    assert m.trace + [FoundEmpty, Park] == m1.trace + [Park];
  }

  lemma RunKeepsShape(w: World, m: Machine)
    requires Shape(m) && m.pc.Tick? && m.pc.n < POLLS_PER_TICK
    requires m.exec.queue != [] && m.exec.queue[0] < |m.exec.tasks|
    ensures Shape(RunNext(w, m))
  {
    OneMove(m, Ran(m.exec.queue[0]));
  }

  lemma TurnKeepsShape(w: World, m: Machine)
    requires Shape(m)
    ensures Shape(Turn(w, m))
  {
    match m.pc
    case Top =>
      if m.exec.woke {
        MainKeepsShape(w, m);
      } else {
        SkipKeepsShape(m);
      }
    case Tick(n) =>
      if n >= POLLS_PER_TICK {
        ParkKeepsShape(w, m);
      } else if m.exec.queue == [] {
        EmptyParkKeepsShape(w, m);
      } else if m.exec.queue[0] < |m.exec.tasks| {
        RunKeepsShape(w, m);
      }
    case _ =>
  }

  lemma {:induction false} EveryTurnIsScheduled(w: World, e: Exec, n: nat)
    requires Sound(e)
    ensures Shape(Turns(w, Enter(e), n))
  {
    if n == 0 {
    } else {
      EveryTurnIsScheduled(w, e, n - 1);
      TurnKeepsShape(w, Turns(w, Enter(e), n - 1));
    }
  }

  /** Between one pop and the next there is at most one park and at most one poll of the main
      future, in this order, and a park without timeout only if the first pop found nothing. */
  lemma BetweenPops(trace: seq<Move>, i: nat, j: nat)
    requires Scheduled(trace) && i < j < |trace| && IsPop(trace[i]) && IsPop(trace[j])
    requires forall k :: i < k < j ==> !IsPop(trace[k])
    ensures var gap := trace[i + 1..j];
      if trace[i].FoundEmpty? then gap == [Park] || gap == [Park, MainPoll]
      else gap == [] || gap == [MainPoll] || gap == [ParkZero] || gap == [ParkZero, MainPoll]
  {
    assert Follows(trace[i], trace[i + 1]);
    if i + 1 < j {
      assert Follows(trace[i + 1], trace[i + 2]);
    }
    if i + 2 < j {
      assert Follows(trace[i + 2], trace[i + 3]);
    }
  }

  /** A park without timeout is made only with an empty queue. */
  lemma ParksOnlyWhenEmpty(w: World, m: Machine)
    ensures Turn(w, m).trace != m.trace && Turn(w, m).trace[|Turn(w, m).trace| - 1] == Park ==> m.exec.queue == []
  {
  }

  // ----- blocking while the main future is woken

  /** The next turn blocks without a timeout although the main future asked to be polled. */
  ghost predicate BlocksWoken(w: World, m: Machine) {
    m.exec.woke && Turn(w, m).trace == m.trace + [FoundEmpty, Park]
  }

  lemma BlocksIff(w: World, m: Machine)
    requires Sound(m.exec)
    ensures Turn(w, m).trace == m.trace + [FoundEmpty, Park]
      <==> m.pc.Tick? && m.pc.n < POLLS_PER_TICK && m.exec.queue == []
  {
    assert m.exec.queue != [] ==> m.exec.queue[0] in m.exec.queue;
    assert |m.trace + [FoundEmpty, Park]| == |m.trace| + 2;
  }

  /** A call that queues nothing: neither a spawn nor the wake of an idle task. */
  predicate Quiet(e: Exec, a: Action) {
    match a
    case Spawn => false
    case Wake(w) => w.TaskWaker? && w.t < |e.tasks| ==> !e.tasks[w.t].state.Idle?
    case _ => true
  }

  lemma {:induction false} QueuesNothingIff(e: Exec, running: Option<TaskId>, actions: seq<Action>)
    requires !Perform(e, running, actions).panicked
    ensures Perform(e, running, actions).queue == [] <==> e.queue == [] && forall a :: a in actions ==> Quiet(e, a)
    decreases |actions|
  {
    if actions == [] {
    } else {
      var a, rest := actions[0], actions[1..];
      var e1 := Act(e, running, a);
      if e1.panicked {
        PanicSticks(e1, running, rest);
      }
      PerformOnlyPushes(e1, running, rest);
      QueuesNothingIff(e1, running, rest);
      if Quiet(e, a) {
        forall b ensures Quiet(e1, b) <==> Quiet(e, b) {
        }
        assert forall b :: b in actions <==> b == a || b in rest;
      }
    }
  }

  /** A poll of the main future that yields with nothing to run: it wakes itself, returns
      pending without a panic, finds the queue empty and queues nothing. */
  ghost predicate Yields(w: World, m: Machine) {
    var script := w.main(m.mainPolls);
    && m.pc.Top? && m.exec.woke
    && script.ready.None? && !Perform(m.exec.(woke := false), None, script.actions).panicked
    && Wake(MainWaker) in script.actions
    && m.exec.queue == [] && forall a :: a in script.actions ==> Quiet(m.exec, a)
  }

  lemma YieldsThenBlocks(w: World, m: Machine)
    requires Sound(m.exec) && m.pc.Top? && m.exec.woke
    ensures BlocksWoken(w, Turn(w, m)) <==> Yields(w, m)
  {
    TurnKeepsSound(w, m);
    BlocksIff(w, Turn(w, m));
    var e, actions := m.exec.(woke := false), w.main(m.mainPolls).actions;
    if !Perform(e, None, actions).panicked {
      RaisesFlagIff(e, None, actions);
      QueuesNothingIff(e, None, actions);
      forall a ensures Quiet(e, a) <==> Quiet(m.exec, a) {
      }
    }
  }

  /** The flag of the main future can be up inside the inner loop only right after the poll
      of the main future: a wake by a task, or handed out by a park, is honoured first. */
  lemma BlocksOnWokenMainOnlyAfterItsPoll(w: World, m: Machine)
    requires Sound(m.exec) && Turn(w, m).pc.Tick? && Turn(w, m).exec.woke && Turn(w, m) != m
    ensures m.pc.Top? && m.exec.woke && Turn(w, m).trace == m.trace + [MainPoll]
  {
    assert m.exec.queue != [] ==> m.exec.queue[0] in m.exec.queue;
  }

  /** The loop moves on until it returns or unwinds. */
  lemma TurnMoves(w: World, m: Machine)
    requires Sound(m.exec) && (m.pc.Top? || m.pc.Tick?)
    ensures Turn(w, m) != m
  {
    assert m.exec.queue != [] ==> m.exec.queue[0] in m.exec.queue;
    assert forall move: Move :: |m.trace + [move]| == |m.trace| + 1;
  }

  /** Over every run of `block_on`: it blocks while the main future is woken if and only if
      the turn right before was a poll of the main future that yields with nothing to run. */
  lemma BlocksWokenIff(w: World, e: Exec, n: nat)
    requires Sound(e)
    ensures BlocksWoken(w, Turns(w, Enter(e), n)) <==> n > 0 && Yields(w, Turns(w, Enter(e), n - 1))
  {
    TurnsKeepSound(w, Enter(e), n);
    BlocksIff(w, Turns(w, Enter(e), n));
    if n > 0 {
      var m := Turns(w, Enter(e), n - 1);
      TurnsKeepSound(w, Enter(e), n - 1);
      if BlocksWoken(w, Turn(w, m)) {
        if m.pc.Top? || m.pc.Tick? {
          TurnMoves(w, m);
          BlocksOnWokenMainOnlyAfterItsPoll(w, m);
        }
      }
      if m.pc.Top? && m.exec.woke {
        YieldsThenBlocks(w, m);
      }
    }
  }

  /** And it does: a main future that merely yields, with no task queued, is not polled again
      before the loop blocks without a timeout. */
  lemma YieldingMainBlocks(w: World, e: Exec)
    requires Sound(e) && e.queue == [] && w.main(0) == Script([Wake(MainWaker)], None)
    ensures var m := Turns(w, Enter(e), 1);
      && m.exec.woke
      && Turn(w, m).trace == [MainPoll, FoundEmpty, Park]
  {
    var start := Enter(e).exec.(woke := false);
    assert Perform(start, None, [Wake(MainWaker)]) == WakeBy(start, MainWaker);
    assert Turns(w, Enter(e), 1) == PollMain(w, Enter(e));
  }

  // ----- progress

  predicate Ended(m: Machine) {
    m.pc.Returned? || m.pc.Unwound?
  }

  /** The two turns that may come before a task is run, and how many of them there are. */
  function Detour(m: Machine): nat {
    match m.pc
    case Top => 1
    case Tick(n) => if n < POLLS_PER_TICK then 0 else 2
    case _ => 0
  }

  /** With a task in the queue every turn runs one, ends the loop or comes closer to it. */
  lemma TurnAdvances(w: World, m: Machine)
    requires Sound(m.exec) && !Ended(m) && m.exec.queue != []
    ensures var m' := Turn(w, m);
      || Ended(m')
      || (Detour(m) == 0 && Served(m'.trace) == Served(m.trace) + [m.exec.queue[0]])
      || (Detour(m) > 0 && Detour(m') < Detour(m) && m'.exec.queue != [] && Served(m'.trace) == Served(m.trace))
  {
    assert m.exec.queue[0] in m.exec.queue;
    match m.pc
    case Top =>
      ServedPush(m.trace, MainPoll);
      PerformOnlyPushes(m.exec.(woke := false), None, w.main(m.mainPolls).actions);
    case Tick(n) =>
      if n >= POLLS_PER_TICK {
        ServedPush(m.trace, ParkZero);
        AfterParkKeeps(m.exec, w.park(m.parks));
      } else {
        ServedPush(m.trace, Ran(m.exec.queue[0]));
      }
  }

  lemma TurnServesMore(w: World, m: Machine)
    ensures |Served(m.trace)| <= |Served(Turn(w, m).trace)|
  {
    ServedPush(m.trace, MainPoll);
    ServedPush(m.trace, ParkZero);
    ServedPush(m.trace, FoundEmpty);
    ServedPush(m.trace + [FoundEmpty], Park);
    assert m.trace + [FoundEmpty, Park] == m.trace + [FoundEmpty] + [Park];
    if m.exec.queue != [] {
      ServedPush(m.trace, Ran(m.exec.queue[0]));
    }
  }

  /** Counting turns: of `n` turns, all but the current detour were spent on tasks served
      meanwhile, three on each at most. */
  ghost predicate Paced(start: Machine, m: Machine, k: nat, n: nat) {
    || Ended(m)
    || |Served(m.trace)| > |Served(start.trace)| + k
    || n + Detour(m) <= 3 * (|Served(m.trace)| - |Served(start.trace)|) + Detour(start)
  }

  ghost predicate OnTrack(start: Machine, m: Machine, k: nat, n: nat) {
    Sound(m.exec) && Row(start) <= Row(m) && Paced(start, m, k, n)
  }

  lemma TurnKeepsPace(w: World, start: Machine, m: Machine, k: nat, n: nat)
    requires k < |start.exec.queue| && OnTrack(start, m, k, n)
    ensures Paced(start, Turn(w, m), k, n + 1)
  {
    if Ended(m) {
    } else if |Served(m.trace)| > |Served(start.trace)| + k {
      TurnServesMore(w, m);
    } else {
      TurnAdvances(w, m);
    }
  }

  lemma TurnStaysOnTrack(w: World, start: Machine, m: Machine, k: nat, n: nat)
    requires k < |start.exec.queue| && OnTrack(start, m, k, n)
    ensures OnTrack(start, Turn(w, m), k, n + 1)
  {
    TurnKeepsPace(w, start, m, k, n);
    TurnServesInOrder(w, m);
    TurnKeepsSound(w, m);
  }

  lemma {:induction false} TurnsKeepPace(w: World, m: Machine, k: nat, n: nat)
    requires Sound(m.exec) && k < |m.exec.queue|
    ensures OnTrack(m, Turns(w, m, n), k, n)
  {
    if n == 0 {
    } else {
      TurnsKeepPace(w, m, k, n - 1);
      TurnStaysOnTrack(w, m, Turns(w, m, n - 1), k, n - 1);
    }
  }

  /** Progress: the task at index `k` of the queue is run within three turns for each task ahead
      of it, one for itself and those of the current detour, unless the loop ends before. */
  lemma RunsWithin(w: World, m: Machine, k: nat, n: nat)
    requires Sound(m.exec) && k < |m.exec.queue| && n > 3 * k + Detour(m)
    ensures Detour(m) <= 2
    ensures var m', before := Turns(w, m, n), Served(m.trace);
      Ended(m') || (|Served(m'.trace)| > |before| + k && Served(m'.trace)[|before| + k] == m.exec.queue[k])
  {
    TurnsKeepPace(w, m, k, n);
    BoundedWaiting(w, m, n, k);
  }

  // ----- what a turn does to the tasks

  function AsCalls(ws: seq<Waker>): (actions: seq<Action>)
    ensures |actions| == |ws|
    ensures forall i :: 0 <= i < |ws| ==> actions[i] == Wake(ws[i])
  {
    seq(|ws|, i requires 0 <= i < |ws| => Wake(ws[i]))
  }

  /** Waking all that a park handed out has the effect of a poll that wakes them in order. */
  lemma {:induction false} WakeAllIsPerform(e: Exec, ws: seq<Waker>)
    requires !e.panicked
    ensures WakeAll(e, ws) == Perform(e, None, AsCalls(ws))
    decreases |ws|
  {
    if ws == [] {
    } else {
      assert AsCalls(ws)[1..] == AsCalls(ws[1..]);
      WakeAllIsPerform(WakeBy(e, ws[0]), ws[1..]);
    }
  }

  lemma {:induction false} WakesOfCalls(ws: seq<Waker>)
    ensures WakesOf(AsCalls(ws)) == ws
    decreases |ws|
  {
    if ws == [] {
    } else {
      assert AsCalls(ws)[1..] == AsCalls(ws[1..]);
      WakesOfCalls(ws[1..]);
    }
  }

  /** The main future was polled: everything it called took its effect, and the loop goes on
      unless it was ready or panicked. */
  ghost predicate MainDid(w: World, m: Machine, m': Machine) {
    var script := w.main(m.mainPolls);
    && m'.trace == m.trace + [MainPoll] && m'.mainPolls == m.mainPolls + 1 && m'.parks == m.parks
    && m'.pc == (if m'.exec.panicked then Unwound
                 else if script.ready.Some? then Returned(script.ready.value) else Tick(0))
    && (!m'.exec.panicked ==>
         CallsDid(m.exec.(woke := false), m'.exec, script.actions) && WokenQueued(m'.exec, script.actions))
  }

  /** The oldest task was run; the main future is looked at next if it was woken. */
  ghost predicate RunNextDid(w: World, m: Machine, m': Machine)
    requires m.pc.Tick? && m.exec.queue != []
  {
    var t := m.exec.queue[0];
    && t < |m.exec.tasks|
    && m'.trace == m.trace + [Ran(t)] && m'.mainPolls == m.mainPolls && m'.parks == m.parks
    && m'.pc == (if m'.exec.panicked then Unwound else if m'.exec.woke then Top else Tick(m.pc.n + 1))
    && RunDid(Pop(m.exec), m'.exec, t, w.task(t, m.exec.tasks[t].polls))
  }

  /** The loop parked: whoever was handed out was called, in order, and is queued unless it is
      finished; a park that failed changed nothing. */
  ghost predicate ParkDid(w: World, m: Machine, m': Machine, moves: seq<Move>) {
    && m'.trace == m.trace + moves && m'.mainPolls == m.mainPolls && m'.parks == m.parks + 1
    && match w.park(m.parks)
       case None => m'.pc.Unwound? && m'.exec == m.exec.(panicked := true)
       case Some(ws) =>
         && m'.pc.Top? && !m'.exec.panicked
         && CallsDid(m.exec, m'.exec, AsCalls(ws)) && WokenQueued(m'.exec, AsCalls(ws))
         && Calls(m'.exec.log) == Calls(m.exec.log) + ws
  }

  ghost predicate TurnDid(w: World, m: Machine, m': Machine) {
    match m.pc
    case Top => if m.exec.woke then MainDid(w, m, m') else m' == m.(pc := Tick(0))
    case Tick(n) =>
      if n >= POLLS_PER_TICK then ParkDid(w, m, m', [ParkZero])
      else if m.exec.queue == [] then ParkDid(w, m, m', [FoundEmpty, Park])
      else RunNextDid(w, m, m')
    case _ => m' == m
  }

  lemma CallsQueueWoken(e: Exec, actions: seq<Action>)
    requires Sound(e) && !Perform(e, None, actions).panicked
    ensures CallsDid(e, Perform(e, None, actions), actions) && WokenQueued(Perform(e, None, actions), actions)
  {
    LivesHandlesOk(e);
    PerformDoes(e, None, actions);
    var e' := Perform(e, None, actions);
    forall s | StillRuns(e', s) && Wake(TaskWaker(s)) in actions ensures s in e'.queue {
      WokenIsQueued(e, None, actions, s);
    }
  }

  lemma FlagKeepsSound(e: Exec)
    requires Sound(e)
    ensures Sound(e.(woke := false))
  {
    HandleKeepsQueued(e, e.(woke := false));
    SameTasks(e, e.(woke := false));
  }

  lemma MainTurnDoes(w: World, m: Machine)
    requires Sound(m.exec) && m.pc.Top? && m.exec.woke
    ensures MainDid(w, m, Turn(w, m))
  {
    FlagKeepsSound(m.exec);
    var e, actions := m.exec.(woke := false), w.main(m.mainPolls).actions;
    if !Perform(e, None, actions).panicked {
      CallsQueueWoken(e, actions);
    }
  }

  lemma ParkTurnDoes(w: World, m: Machine, moves: seq<Move>)
    requires Sound(m.exec) && !m.exec.panicked
    ensures ParkDid(w, m, ParkAndWake(w, m, moves), moves)
  {
    match w.park(m.parks)
    case None =>
    case Some(ws) =>
      WakeAllIsPerform(m.exec, ws);
      WakesOfCalls(ws);
      WakeAllKeeps(m.exec, ws);
      CallsQueueWoken(m.exec, AsCalls(ws));
  }

  lemma TurnDoes(w: World, m: Machine)
    requires Sound(m.exec) && (m.exec.panicked <==> m.pc.Unwound?)
    ensures TurnDid(w, m, Turn(w, m))
    ensures Turn(w, m).exec.panicked <==> Turn(w, m).pc.Unwound?
  {
    match m.pc
    case Top =>
      if m.exec.woke {
        MainTurnDoes(w, m);
      }
    case Tick(n) =>
      if n >= POLLS_PER_TICK {
        ParkTurnDoes(w, m, [ParkZero]);
      } else if m.exec.queue == [] {
        ParkTurnDoes(w, m, [FoundEmpty, Park]);
      } else {
        assert m.exec.queue[0] in m.exec.queue;
        RunDoes(m.exec, w.task(m.exec.queue[0], m.exec.tasks[m.exec.queue[0]].polls));
      }
    case _ =>
  }

  lemma {:induction false} UnwoundIffPanicked(w: World, e: Exec, n: nat)
    requires Sound(e)
    ensures Turns(w, Enter(e), n).exec.panicked <==> Turns(w, Enter(e), n).pc.Unwound?
  {
    if n == 0 {
    } else {
      UnwoundIffPanicked(w, e, n - 1);
      TurnsKeepSound(w, Enter(e), n - 1);
      TurnDoes(w, Turns(w, Enter(e), n - 1));
    }
  }

  /** Every turn of every run of `block_on` does to the tasks, the queue, the flag and the
      record what the source's calls promise, seen from before and after. */
  lemma EveryTurnDoes(w: World, e: Exec, n: nat)
    requires Sound(e)
    ensures TurnDid(w, Turns(w, Enter(e), n), Turns(w, Enter(e), n + 1))
  {
    UnwoundIffPanicked(w, e, n);
    TurnsKeepSound(w, Enter(e), n);
    TurnDoes(w, Turns(w, Enter(e), n));
  }

  /** What `block_on` returns is what the latest poll of the main future returned. */
  lemma {:induction false} ReturnsWhatMainReturned(w: World, e: Exec, n: nat, v: Output)
    requires Sound(e) && Turns(w, Enter(e), n).pc == Returned(v)
    ensures var m := Turns(w, Enter(e), n);
      && m.mainPolls > 0 && w.main(m.mainPolls - 1).ready == Some(v)
      && m.trace != [] && LastMove(m) == MainPoll
  {
    if n == 0 {
    } else {
      var m := Turns(w, Enter(e), n - 1);
      if m.pc.Returned? {
        ReturnsWhatMainReturned(w, e, n - 1, v);
      } else {
        EveryTurnDoes(w, e, n - 1);
      }
    }
  }

  // ----- finished and cancelled tasks

  /** The task has no future any more, after `polls` polls. */
  ghost predicate Settled(e: Exec, t: TaskId, polls: nat) {
    t < |e.tasks| && !e.tasks[t].payload.Future? && e.tasks[t].polls == polls
  }

  lemma RunKeepsSettled(e: Exec, s: TaskId, script: Script, t: TaskId, polls: nat)
    requires s < |e.tasks| && Settled(e, t, polls)
    ensures Settled(RunTask(e, s, script), t, polls)
  {
    PerformGrows(Begin(e, s), Some(s), script.actions);
    PollsKept(Begin(e, s), Some(s), script.actions, t);
  }

  lemma {:induction false} WakeAllKeepsSettled(e: Exec, ws: seq<Waker>, t: TaskId, polls: nat)
    requires Settled(e, t, polls)
    ensures Settled(WakeAll(e, ws), t, polls)
    decreases |ws|
  {
    if ws == [] {
    } else {
      WakeAllKeepsSettled(WakeBy(e, ws[0]), ws[1..], t, polls);
    }
  }

  lemma TurnKeepsSettled(w: World, m: Machine, t: TaskId, polls: nat)
    requires Settled(m.exec, t, polls)
    ensures Settled(Turn(w, m).exec, t, polls)
  {
    match m.pc
    case Top => PollsKept(m.exec.(woke := false), None, w.main(m.mainPolls).actions, t);
    case Tick(n) =>
      if w.park(m.parks).Some? {
        WakeAllKeepsSettled(m.exec, w.park(m.parks).value, t, polls);
      }
      if m.exec.queue != [] && m.exec.queue[0] < |m.exec.tasks| {
        var s := m.exec.queue[0];
        RunKeepsSettled(Pop(m.exec), s, w.task(s, m.exec.tasks[s].polls), t, polls);
      }
    case _ =>
  }

  /** A task that was cancelled, or whose future has returned, is never polled again, however
      often it is woken or popped. */
  lemma {:induction false} NeverPolledAgain(w: World, m: Machine, n: nat, t: TaskId)
    requires t < |m.exec.tasks| && !m.exec.tasks[t].payload.Future?
    ensures Settled(Turns(w, m, n).exec, t, m.exec.tasks[t].polls)
  {
    if n == 0 {
    } else {
      NeverPolledAgain(w, m, n - 1, t);
      TurnKeepsSettled(w, Turns(w, m, n - 1), t, m.exec.tasks[t].polls);
    }
  }
}
