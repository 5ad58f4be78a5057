/** The executor as the source keeps it. The tasks are records in a table rather than
    reference-counted objects; every method is proved equal to a function of
    `ExecutorSpec`, and `block_on` to a number of turns of the `BlockOnSpec` machine. */
module Executors {
  import opened Common
  import ES = ExecutorSpec
  import BS = BlockOnSpec

  /** What a join handle's poll returns. */
  datatype HandlePoll = Ready(v: ES.Output) | Pending | Panic

  class Executor {
    var tasks: seq<ES.Task>
    var queue: seq<ES.TaskId>
    var woke: bool
    var panicked: bool
    ghost var log: seq<ES.Event>

    ghost function View(): ES.Exec
      reads this
    {
      ES.Exec(tasks, queue, woke, panicked, log)
    }

    constructor ()
      ensures View() == ES.START && BS.Sound(View())
    {
      tasks, queue, woke, panicked := [], [], false, false;
      log := [];
      new;
      BS.StartIsSound();
    }

    method Spawn() returns (t: ES.TaskId)
      modifies this
      ensures t == |old(tasks)| && View() == ES.SpawnTask(old(View()))
      ensures tasks[..t] == old(tasks) && |tasks| == t + 1 && queue == old(queue) + [t]
      ensures tasks[t].state.Scheduled? && tasks[t].payload.Future? && tasks[t].handle && tasks[t].polls == 0
      ensures BS.Sound(old(View())) ==> BS.Sound(View())
    {
      if BS.Sound(View()) {
        BS.CallKeepsSound(View(), None, ES.Spawn);
      }
      t := |tasks|;
      tasks := tasks + [ES.Task(ES.Scheduled, ES.Future, None, 0, true)];
      queue := queue + [t];
    }

    method Wake(w: ES.Waker)
      modifies this
      ensures View() == ES.WakeBy(old(View()), w)
      ensures BS.Sound(old(View())) ==> BS.Sound(View())
    {
      if BS.Sound(View()) {
        BS.CallKeepsSound(View(), None, ES.Wake(w));
      }
      log := log + [ES.Called(w)];
      match w {
        case MainWaker => woke := true;
        case TaskWaker(t) =>
          if t < |tasks| {
            match tasks[t].state {
              case Idle =>
                tasks := tasks[t := tasks[t].(state := ES.Scheduled)];
                queue := queue + [t];
              case Scheduled =>
              case Done =>
            }
          }
        case Foreign(_) =>
      }
    }

    /** The poll of a live join handle; `running` is the task from whose poll it is made. */
    method PollOutput(running: Option<ES.TaskId>, t: ES.TaskId, w: ES.Waker) returns (r: HandlePoll)
      requires t < |tasks| && tasks[t].handle
      modifies this
      ensures View() == ES.PollOutput(old(View()), running, t, w)
      ensures BS.Sound(old(View())) ==> BS.Sound(View())
      ensures match r
        case Ready(v) =>
          running != Some(t) && old(tasks[t]).payload == ES.Output(v) && tasks[t].payload.Taken?
          && log == old(log) + [ES.Delivered(t, v)]
        case Pending =>
          running != Some(t) && old(tasks[t]).payload.Future? && tasks[t].payload.Future? && tasks[t].awaiter == Some(w)
        case Panic => (running == Some(t) || old(tasks[t]).payload.Taken?) && panicked && tasks == old(tasks)
      ensures r != Panic ==> panicked == old(panicked)
      ensures |tasks| == |old(tasks)| && queue == old(queue) && woke == old(woke)
      ensures forall s :: 0 <= s < |tasks| && s != t ==> tasks[s] == old(tasks)[s]
    {
      if BS.Sound(View()) {
        BS.CallKeepsSound(View(), running, ES.PollHandle(t, w));
      }
      if running == Some(t) {
        panicked := true;
        return Panic;
      }
      match tasks[t].payload {
        case Output(v) =>
          tasks := tasks[t := tasks[t].(payload := ES.Taken)];
          log := log + [ES.Delivered(t, v)];
          r := Ready(v);
        case Taken =>
          panicked := true;
          r := Panic;
        case Future =>
          tasks := tasks[t := tasks[t].(awaiter := Some(w))];
          log := log + [ES.Awaited(t, w)];
          r := Pending;
      }
    }

    /** Gives a live join handle up; the output is returned if it was there. */
    method Cancel(running: Option<ES.TaskId>, t: ES.TaskId) returns (r: Option<ES.Output>)
      requires t < |tasks| && tasks[t].handle
      modifies this
      ensures View() == ES.CancelTask(old(View()), running, t)
      ensures BS.Sound(old(View())) ==> BS.Sound(View())
      ensures r == if running != Some(t) && old(tasks[t]).payload.Output?
                   then Some(old(tasks[t]).payload.value) else None
      ensures if running == Some(t) then panicked && tasks == old(tasks) && log == old(log)
              else
                && tasks[t].payload.Taken? && !tasks[t].handle && panicked == old(panicked)
                && log == old(log) + (if r.Some? then [ES.Delivered(t, r.value)] else []) + [ES.Cancelled(t)]
      ensures |tasks| == |old(tasks)| && queue == old(queue) && woke == old(woke)
      ensures tasks[t].state == old(tasks)[t].state && tasks[t].polls == old(tasks)[t].polls
      ensures forall s :: 0 <= s < |tasks| && s != t ==> tasks[s] == old(tasks)[s]
    {
      if BS.Sound(View()) {
        BS.CallKeepsSound(View(), running, ES.Cancel(t));
      }
      r := None;
      if running == Some(t) {
        panicked := true;
        return;
      }
      var payload := tasks[t].payload;
      tasks := tasks[t := tasks[t].(payload := ES.Taken, handle := false)];
      if payload.Output? {
        r := Some(payload.value);
        log := log + [ES.Delivered(t, payload.value)];
      }
      log := log + [ES.Cancelled(t)];
    }

    /** The calls a future makes in one poll. */
    method Perform(running: Option<ES.TaskId>, actions: seq<ES.Action>)
      modifies this
      ensures View() == ES.Perform(old(View()), running, actions)
    {
      var i := 0;
      while i < |actions|
        invariant i <= |actions|
        invariant ES.Perform(View(), running, actions[i..]) == ES.Perform(old(View()), running, actions)
      {
        assert actions[i..][0] == actions[i] && actions[i..][1..] == actions[i + 1..];
        ghost var before := View();
        Perform1(running, actions[i]);
        assert View() == ES.Act(before, running, actions[i]);
        i := i + 1;
      }
      assert actions[i..] == [];
    }

    method Perform1(running: Option<ES.TaskId>, a: ES.Action)
      modifies this
      ensures View() == ES.Act(old(View()), running, a)
    {
      if panicked {
        return;
      }
      match a {
        case Wake(w) => Wake(w);
        case Spawn => var _ := Spawn();
        case PollHandle(t, w) =>
          if t < |tasks| && tasks[t].handle {
            var _ := PollOutput(running, t, w);
          }
        case Cancel(t) =>
          if t < |tasks| && tasks[t].handle {
            var _ := Cancel(running, t);
          }
      }
    }

    /** Runs a task that has just been popped from an orderly queue. */
    method Run(t: ES.TaskId, script: ES.Script)
      requires t < |tasks| && BS.Sound(View().(queue := [t] + queue))
      modifies this
      ensures View() == ES.RunTask(old(View()), t, script)
      ensures ES.RunDid(old(View()), View(), t, script)
    {
      assert ES.Pop(View().(queue := [t] + queue)) == View() by {
        assert ([t] + queue)[1..] == queue;
      }
      ES.RunDoes(View().(queue := [t] + queue), script);
      ghost var begun := ES.Begin(View(), t);
      tasks := tasks[t := tasks[t].(state := ES.Idle)];
      if !tasks[t].payload.Future? {
        return;
      }
      tasks := tasks[t := tasks[t].(polls := tasks[t].polls + 1)];
      log := log + [ES.Polled(t)];
      assert View() == begun;
      ES.PerformGrows(begun, Some(t), script.actions);
      Perform(Some(t), script.actions);
      if panicked || script.ready.None? {
        return;
      }
      ghost var performed := View();
      var awaiter := tasks[t].awaiter;
      tasks := tasks[t := tasks[t].(payload := ES.Output(script.ready.value), state := ES.Done, awaiter := None)];
      log := log + [ES.Completed(t, script.ready.value)];
      if awaiter.Some? {
        Wake(awaiter.value);
      }
      assert View() == ES.Complete(performed, t, script.ready.value);
    }

    method WakeAll(ws: seq<ES.Waker>)
      modifies this
      ensures View() == BS.WakeAll(old(View()), ws)
    {
      var i := 0;
      while i < |ws|
        invariant i <= |ws|
        invariant BS.WakeAll(View(), ws[i..]) == BS.WakeAll(old(View()), ws)
      {
        assert ws[i..][0] == ws[i] && ws[i..][1..] == ws[i + 1..];
        Wake(ws[i]);
        i := i + 1;
      }
      assert ws[i..] == [];
    }

    /** Polls the main future and returns what it returned. */
    method PollMain(w: BS.World, ghost m: BS.Machine, k: nat) returns (r: Option<ES.Output>)
      requires View() == m.exec && k == m.mainPolls
      modifies this
      ensures var m' := BS.PollMain(w, m);
        && View() == m'.exec
        && m'.pc == (if panicked then BS.Unwound else if r.Some? then BS.Returned(r.value) else BS.Tick(0))
      ensures r == w.main(k).ready
    {
      var script := w.main(k);
      woke := false;
      Perform(None, script.actions);
      r := script.ready;
    }

    /** Pops the oldest task and runs it; `interrupted` when it panicked or woke the main
        future. */
    method RunNext(w: BS.World, ghost start: BS.Machine, ghost turns: nat, ghost m: BS.Machine)
      returns (interrupted: bool, ghost m': BS.Machine)
      requires m == BS.Turns(w, start, turns) && View() == m.exec && BS.Sound(start.exec)
      requires queue != [] && m.pc.Tick? && m.pc.n < BS.POLLS_PER_TICK && !panicked
      modifies this
      ensures m' == BS.Turns(w, start, turns + 1) && View() == m'.exec
      ensures m'.mainPolls == m.mainPolls && m'.parks == m.parks
      ensures m'.pc == if panicked then BS.Unwound else if interrupted then BS.Top else BS.Tick(m.pc.n + 1)
      ensures panicked ==> interrupted
    {
      BS.TurnsKeepSound(w, start, turns);
      BS.RunTurn(w, start, turns, m);
      m' := BS.RunNext(w, m);
      var t := queue[0];
      assert [t] + queue[1..] == queue;
      queue := queue[1..];
      Run(t, w.task(t, tasks[t].polls));
      interrupted := panicked || woke;
    }

    /** Parks, because there is nothing to run or enough has run, and wakes as told; a park
        that fails panics. */
    method Park(w: BS.World, parks: nat, ghost start: BS.Machine, ghost turns: nat, ghost m: BS.Machine)
      returns (ghost m': BS.Machine)
      requires m == BS.Turns(w, start, turns) && View() == m.exec && m.pc.Tick? && parks == m.parks
      requires !panicked && (m.pc.n >= BS.POLLS_PER_TICK || queue == []) && BS.Sound(start.exec)
      modifies this
      ensures m' == BS.Turns(w, start, turns + 1) && View() == m'.exec
      ensures BS.ParkDid(w, m, m', if m.pc.n >= BS.POLLS_PER_TICK then [BS.ParkZero] else [BS.FoundEmpty, BS.Park])
      ensures m'.pc == if panicked then BS.Unwound else BS.Top
      ensures m'.mainPolls == m.mainPolls && m'.parks == parks + 1 && (panicked <==> w.park(parks).None?)
    {
      var handed := w.park(parks);
      BS.TurnsKeepSound(w, start, turns);
      BS.TurnDoes(w, m);
      BS.AfterParkKeeps(View(), handed);
      if handed.None? {
        panicked := true;
      } else {
        WakeAll(handed.value);
      }
      if m.pc.n >= BS.POLLS_PER_TICK {
        BS.ZeroTurn(w, start, turns, m);
        m' := BS.ParkAndWake(w, m, [BS.ParkZero]);
      } else {
        BS.EmptyTurn(w, start, turns, m);
        m' := BS.ParkAndWake(w, m, [BS.FoundEmpty, BS.Park]);
      }
    }

    /** The inner loop: runs up to 61 tasks, until there is nothing to run or the main future
        was woken, and parks unless it was. */
    method Tick(w: BS.World, parks: nat, ghost start: BS.Machine, ghost turns: nat, ghost m: BS.Machine)
      returns (ghost turns': nat, ghost m': BS.Machine, parks': nat)
      requires m == BS.Turns(w, start, turns) && View() == m.exec && m.pc == BS.Tick(0) && parks == m.parks
      requires BS.Sound(start.exec) && !panicked
      modifies this
      ensures m' == BS.Turns(w, start, turns') && View() == m'.exec && turns' >= turns
      ensures m'.mainPolls == m.mainPolls && parks' == m'.parks
      ensures m'.pc == if panicked then BS.Unwound else BS.Top
    {
      parks' := parks;
      var interrupted;
      interrupted, turns', m' := RunSome(w, start, turns, m);
      if !interrupted {
        m' := Park(w, parks, start, turns', m');
        turns', parks' := turns' + 1, parks + 1;
      }
    }

    /** Runs tasks; `interrupted` when one of them panicked or woke the main future. */
    method RunSome(w: BS.World, ghost start: BS.Machine, ghost turns: nat, ghost m: BS.Machine)
      returns (interrupted: bool, ghost turns': nat, ghost m': BS.Machine)
      requires m == BS.Turns(w, start, turns) && View() == m.exec && m.pc == BS.Tick(0)
      requires BS.Sound(start.exec) && !panicked
      modifies this
      ensures m' == BS.Turns(w, start, turns') && View() == m'.exec && turns' >= turns
      ensures m'.mainPolls == m.mainPolls && m'.parks == m.parks
      ensures interrupted ==> m'.pc == if panicked then BS.Unwound else BS.Top
      ensures !interrupted ==> !panicked && m'.pc.Tick? && (m'.pc.n >= BS.POLLS_PER_TICK || queue == [])
    {
      interrupted, turns', m' := false, turns, m;
      for n := 0 to BS.POLLS_PER_TICK
        invariant m' == BS.Turns(w, start, turns') && View() == m'.exec && m'.pc == BS.Tick(n)
        invariant turns' >= turns && m'.mainPolls == m.mainPolls && m'.parks == m.parks && !panicked
      {
        if queue == [] {
          return;
        }
        interrupted, m' := RunNext(w, start, turns', m');
        turns' := turns' + 1;
        if interrupted {
          return;
        }
      }
    }

    /** The scheduling loop, for at most `fuel` passes. What it returns and leaves behind is
        what `turns` turns of the machine come to. */
    method BlockOn(w: BS.World, fuel: nat) returns (r: Option<ES.Output>, ghost turns: nat)
      requires BS.Sound(View())
      modifies this
      ensures var m := BS.Turns(w, BS.Enter(old(View())), turns);
        && View() == m.exec
        && (r.Some? ==> m.pc == BS.Returned(r.value))
        && (r.None? ==> m.pc.Unwound? || (m.pc.Top? && turns >= fuel))
        && BS.Sound(View())
    {
      ghost var start := BS.Enter(View());
      ghost var m := start;
      var mainPolls, parks, passes := 0, 0, 0;
      woke, panicked := true, false;
      turns := 0;
      while passes < fuel
        invariant passes <= fuel && passes <= turns && m == BS.Turns(w, start, turns)
        invariant View() == m.exec && m.pc.Top? && mainPolls == m.mainPolls && parks == m.parks && !panicked
        decreases fuel - passes
      {
        passes := passes + 1;
        if woke {
          BS.MainTurn(w, start, turns, m);
          r := PollMain(w, m, mainPolls);
          turns, m, mainPolls := turns + 1, BS.PollMain(w, m), mainPolls + 1;
          if panicked {
            BS.TurnsKeepSound(w, start, turns);
            return None, turns;
          }
          if r.Some? {
            BS.TurnsKeepSound(w, start, turns);
            return;
          }
        } else {
          BS.SkipTurn(w, start, turns, m);
          turns, m := turns + 1, m.(pc := BS.Tick(0));
        }
        turns, m, parks := Tick(w, parks, start, turns, m);
        if panicked {
          BS.TurnsKeepSound(w, start, turns);
          return None, turns;
        }
      }
      BS.TurnsKeepSound(w, start, turns);
      r := None;
    }
  }
}
