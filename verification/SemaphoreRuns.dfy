/** A semaphore together with everything its users hold: live acquire futures and live
    permits. One `Step` is one call from outside; a run is any sequence of them. */
module SemaphoreRuns {
  import opened Common
  import opened SemaphoreSpec

  type FutId = nat

  /** `lastWaker` is the waker of the latest poll that returned pending. */
  datatype Fut = Fut(required: nat, state: AcquireState, completed: bool, lastWaker: Waker)

  /** `held` are the amounts of the live permits. `added` counts the initial permits and
      all permits added since; `retired` those that were forgotten or lost to a panic. */
  datatype System = System(sem: Sem, futures: map<FutId, Fut>, held: seq<nat>, added: nat, retired: nat)

  datatype Op =
    | NewAcquire(f: FutId, n: nat)
    | PollFuture(f: FutId, waker: Waker, vacant: Key)
    | DropFuture(f: FutId)
    | TryAcquire(n: nat)
    | Add(n: nat)
    | DropPermit(i: nat)
    | Forget(i: nat)

  /** `Rejected` marks a call nobody can make: on a future or permit that is not live, or
      with an occupied slot offered as vacant. */
  datatype Outcome = Fine | Granted | StillPending | Refused | Panicked | Rejected

  datatype Result = Result(sys: System, outcome: Outcome, log: seq<Signal>)

  function Start(permits: nat): System {
    System(Sem(permits, []), map[], [], permits, 0)
  }

  function Cut(s: seq<nat>, i: nat): seq<nat>
    requires i < |s|
  {
    s[..i] + s[i + 1..]
  }

  function Step(s: System, op: Op): Result {
    match op
    case NewAcquire(f, n) =>
      if f in s.futures then Result(s, Rejected, [])
      else Result(s.(futures := s.futures[f := Fut(n, Idle, false, 0)]), Fine, [])
    case PollFuture(f, waker, vacant) =>
      if f !in s.futures then Result(s, Rejected, [])
      else PollStep(s, f, waker, vacant)
    case DropFuture(f) =>
      if f !in s.futures then Result(s, Rejected, [])
      else
        var out := DropAcquire(s.sem, s.futures[f].state);
        Result(s.(sem := out.sem, futures := s.futures - {f}), if out.ok then Fine else Panicked, out.log)
    case TryAcquire(n) =>
      if FastPath(s.sem, n) then
        Result(s.(sem := s.sem.(permits := s.sem.permits - n), held := s.held + [n]), Granted, [])
      else Result(s, Refused, [])
    case Add(n) =>
      var out := AddPermits(s.sem, n);
      Result(s.(sem := out.sem, added := s.added + if out.ok then n else 0),
             if out.ok then Fine else Panicked, out.log)
    case DropPermit(i) =>
      if i >= |s.held| then Result(s, Rejected, [])
      else
        var out := AddPermits(s.sem, s.held[i]);
        Result(s.(sem := out.sem, held := Cut(s.held, i),
                  retired := s.retired + if out.ok then 0 else s.held[i]),
               if out.ok then Fine else Panicked, out.log)
    case Forget(i) =>
      if i >= |s.held| then Result(s, Rejected, [])
      else Result(s.(held := Cut(s.held, i), retired := s.retired + s.held[i]), Fine, [])
  }

  /** The future runs inside an `async fn`, which panics when it is resumed after completion. */
  function PollStep(s: System, f: FutId, waker: Waker, vacant: Key): Result
    requires f in s.futures
  {
    var fut := s.futures[f];
    if fut.completed then Result(s, Panicked, [])
    else if fut.state.Idle? && !FastPath(s.sem, fut.required) && HasKey(s.sem.queue, vacant) then
      Result(s, Rejected, [])
    else
      var out := PollAcquire(s.sem, fut.required, fut.state, waker, vacant);
      match out.result
      case Ready =>
        Result(s.(sem := out.sem, futures := s.futures[f := fut.(state := out.state, completed := true)],
                  held := s.held + [fut.required]), Granted, out.log)
      case Pending =>
        Result(s.(sem := out.sem, futures := s.futures[f := fut.(state := out.state, lastWaker := waker)]),
               StillPending, out.log)
      case Panic => Result(s, Panicked, [])
  }

  function Run(s: System, ops: seq<Op>): System
    decreases |ops|
  {
    if ops == [] then s else Run(Step(s, ops[0]).sys, ops[1..])
  }

  function Outcomes(s: System, ops: seq<Op>): seq<Outcome>
    decreases |ops|
  {
    if ops == [] then [] else [Step(s, ops[0]).outcome] + Outcomes(Step(s, ops[0]).sys, ops[1..])
  }

  function Log(s: System, ops: seq<Op>): seq<Signal>
    decreases |ops|
  {
    if ops == [] then [] else Step(s, ops[0]).log + Log(Step(s, ops[0]).sys, ops[1..])
  }

  function Sum(s: seq<nat>): nat {
    if s == [] then 0 else s[0] + Sum(s[1..])
  }

  lemma {:induction false} SumConcat(a: seq<nat>, b: seq<nat>)
    ensures Sum(a + b) == Sum(a) + Sum(b)
  {
    if a == [] {
      assert a + b == b;
    } else {
      SumConcat(a[1..], b);
      assert (a + b)[1..] == a[1..] + b;
    }
  }

  lemma SumCut(s: seq<nat>, i: nat)
    requires i < |s|
    ensures Sum(s) == Sum(Cut(s, i)) + s[i]
  {
    SumConcat(s[..i], s[i + 1..]);
    SumConcat([s[i]], s[i + 1..]);
    SumConcat(s[..i], [s[i]] + s[i + 1..]);
    assert s == s[..i] + ([s[i]] + s[i + 1..]);
  }

  // ----- looking a waiter up by its slot

  function Lookup(q: seq<Waiter>, key: Key): Waiter
    requires HasKey(q, key)
  {
    q[Find(q, key)]
  }

  lemma FoundAt(q: seq<Waiter>, i: nat)
    requires KeysDistinct(q) && i < |q|
    ensures HasKey(q, q[i].key) && Find(q, q[i].key) == i
  {
  }

  /** The position of a waiter after the one at `i` left. */
  function Closed(i: nat, j: nat): nat
    requires i != j
  {
    if j < i then j else j - 1
  }

  lemma FoundWithout(q: seq<Waiter>, i: nat, key: Key)
    requires KeysDistinct(q) && i < |q| && HasKey(q, key) && key != q[i].key
    ensures HasKey(Without(q, i), key)
    ensures Find(q, key) != i && Find(Without(q, i), key) == Closed(i, Find(q, key))
    ensures Lookup(Without(q, i), key) == Lookup(q, key)
  {
    var r := Without(q, i);
    LeaveKeepsKeys(q, i);
    assert r[Closed(i, Find(q, key))].key == key;
    FoundAt(r, Closed(i, Find(q, key)));
  }

  lemma FoundWoken(q: seq<Waiter>, permits: nat, key: Key)
    requires KeysDistinct(q) && HasKey(q, key)
    ensures KeysDistinct(Wake(q, permits)) && HasKey(Wake(q, permits), key)
    ensures Find(Wake(q, permits), key) == Find(q, key)
    ensures var w, w' := Lookup(q, key), Lookup(Wake(q, permits), key);
      w' == w.(woke := w'.woke) && (w.woke ==> w'.woke)
  {
    WakeMarksWhatFits(q, permits);
    assert Wake(q, permits)[Find(q, key)].key == key;
    FoundAt(Wake(q, permits), Find(q, key));
  }

  // ----- the invariant of the whole system

  ghost predicate Owns(futures: map<FutId, Fut>, f: FutId, key: Key) {
    f in futures && futures[f].state == Waiting(key)
  }

  ghost predicate Owned(futures: map<FutId, Fut>, key: Key) {
    exists f :: Owns(futures, f, key)
  }

  /** Waiting futures and queued waiters are in one-to-one correspondence, and the waiter
      carries the future's requirement and its latest waker. */
  ghost predicate Linked(q: seq<Waiter>, futures: map<FutId, Fut>) {
    && (forall f :: f in futures && futures[f].state.Waiting? ==>
      var fut := futures[f];
      && !fut.completed
      && HasKey(q, fut.state.key)
      && Lookup(q, fut.state.key).required == fut.required
      && Lookup(q, fut.state.key).waker == fut.lastWaker)
    && (forall f, g, key :: Owns(futures, f, key) && Owns(futures, g, key) ==> f == g)
    && (forall key :: HasKey(q, key) ==> Owned(futures, key))
    && (forall f :: f in futures && futures[f].state.Done? ==> futures[f].completed)
  }

  ghost predicate Inv(s: System) {
    && Safe(s.sem)
    && Linked(s.sem.queue, s.futures)
    && s.sem.permits + Sum(s.held) + s.retired == s.added
  }

  lemma LinkedWake(q: seq<Waiter>, permits: nat, futures: map<FutId, Fut>)
    requires KeysDistinct(q) && Linked(q, futures)
    ensures Linked(Wake(q, permits), futures)
  {
    WakeMarksWhatFits(q, permits);
    forall key | HasKey(q, key)
      ensures HasKey(Wake(q, permits), key)
      ensures Lookup(Wake(q, permits), key) == Lookup(q, key).(woke := Lookup(Wake(q, permits), key).woke)
    {
      FoundWoken(q, permits, key);
    }
    forall key | HasKey(Wake(q, permits), key) ensures HasKey(q, key) {
      var i :| 0 <= i < |q| && Wake(q, permits)[i].key == key;
      assert q[i].key == key;
    }
  }

  /** A future stops waiting exactly when its waiter leaves. */
  lemma LinkedLeave(q: seq<Waiter>, f: FutId, futures: map<FutId, Fut>, futures': map<FutId, Fut>)
    requires KeysDistinct(q) && Linked(q, futures)
    requires f in futures && futures[f].state.Waiting?
    requires futures' - {f} == futures - {f}
    requires f in futures' ==> futures'[f].state.Done? && futures'[f].completed
    ensures Linked(Without(q, Find(q, futures[f].state.key)), futures')
  {
    var i := Find(q, futures[f].state.key);
    var r := Without(q, i);
    forall g | g in futures && g != f ensures g in futures' && futures'[g] == futures[g] {
      assert g in (futures - {f}) && (futures' - {f})[g] == (futures - {f})[g];
    }
    forall g | g in futures' && g != f ensures g in futures && futures'[g] == futures[g] {
      assert g in (futures' - {f}) && (futures' - {f})[g] == (futures - {f})[g];
    }
    forall g | g in futures' && futures'[g].state.Waiting?
      ensures HasKey(r, futures'[g].state.key)
        && Lookup(r, futures'[g].state.key) == Lookup(q, futures'[g].state.key)
    {
      assert Owns(futures, f, futures[f].state.key) && Owns(futures, g, futures[g].state.key);
      FoundWithout(q, i, futures[g].state.key);
    }
    forall key | HasKey(r, key) ensures Owned(futures', key) {
      var j :| 0 <= j < |r| && r[j].key == key;
      assert q[if j < i then j else j + 1].key == key;
      assert HasKey(q, key);
      var g :| Owns(futures, g, key);
      assert Owns(futures', g, key);
    }
    forall g, h, key | Owns(futures', g, key) && Owns(futures', h, key) ensures g == h {
      assert Owns(futures, g, key) && Owns(futures, h, key);
    }
  }

  lemma LinkedJoin(q: seq<Waiter>, f: FutId, w: Waiter, futures: map<FutId, Fut>)
    requires KeysDistinct(q) && Linked(q, futures) && !HasKey(q, w.key)
    requires f in futures && futures[f].state.Idle? && !futures[f].completed && futures[f].required == w.required
    ensures Linked(q + [w], futures[f := futures[f].(state := Waiting(w.key), lastWaker := w.waker)])
  {
    var r, futures' := q + [w], futures[f := futures[f].(state := Waiting(w.key), lastWaker := w.waker)];
    assert r[|q|] == w && KeysDistinct(r);
    FoundAt(r, |q|);
    forall g | g in futures && futures[g].state.Waiting?
      ensures HasKey(r, futures[g].state.key) && Lookup(r, futures[g].state.key) == Lookup(q, futures[g].state.key)
    {
      assert r[Find(q, futures[g].state.key)] == Lookup(q, futures[g].state.key);
      FoundAt(r, Find(q, futures[g].state.key));
    }
    assert Owns(futures', f, w.key);
    forall key | HasKey(r, key) && key != w.key ensures Owned(futures', key) {
      var i :| 0 <= i < |r| && r[i].key == key;
      assert q[i].key == key && HasKey(q, key);
      var g :| Owns(futures, g, key);
      assert Owns(futures', g, key);
    }
    forall g, h, key | Owns(futures', g, key) && Owns(futures', h, key) ensures g == h {
      assert g != f ==> Owns(futures, g, key);
      assert h != f ==> Owns(futures, h, key);
    }
  }

  lemma LinkedRepoll(q: seq<Waiter>, f: FutId, waker: Waker, futures: map<FutId, Fut>)
    requires KeysDistinct(q) && Linked(q, futures)
    requires f in futures && futures[f].state.Waiting?
    ensures var i := Find(q, futures[f].state.key);
      Linked(q[i := q[i].(waker := waker)], futures[f := futures[f].(lastWaker := waker)])
  {
    var i := Find(q, futures[f].state.key);
    var r, futures' := q[i := q[i].(waker := waker)], futures[f := futures[f].(lastWaker := waker)];
    assert KeysDistinct(r);
    forall g | g in futures && futures[g].state.Waiting?
      ensures HasKey(r, futures[g].state.key) && Find(r, futures[g].state.key) == Find(q, futures[g].state.key)
      ensures g != f ==> futures[g].state.key != futures[f].state.key
    {
      assert Owns(futures, f, futures[f].state.key) && Owns(futures, g, futures[g].state.key);
      assert r[Find(q, futures[g].state.key)].key == futures[g].state.key;
      FoundAt(r, Find(q, futures[g].state.key));
    }
    forall key | HasKey(r, key) ensures Owned(futures', key) {
      var n :| 0 <= n < |r| && r[n].key == key;
      assert q[n].key == key && HasKey(q, key);
      var g :| Owns(futures, g, key);
      assert Owns(futures', g, key);
    }
    forall g, h, key | Owns(futures', g, key) && Owns(futures', h, key) ensures g == h {
      assert Owns(futures, g, key) && Owns(futures, h, key);
    }
  }

  // ----- every step keeps it

  lemma DropStepKeepsInv(s: System, f: FutId)
    requires Inv(s) && f in s.futures
    ensures Inv(Step(s, DropFuture(f)).sys) && Step(s, DropFuture(f)).outcome == Fine
  {
    if s.futures[f].state.Waiting? {
      var i := Find(s.sem.queue, s.futures[f].state.key);
      LeaveIsSafe(s.sem, i);
      LinkedLeave(s.sem.queue, f, s.futures, s.futures - {f});
      LeaveKeepsKeys(s.sem.queue, i);
      LinkedWake(Without(s.sem.queue, i), s.sem.permits, s.futures - {f});
    } else {
      var futures' := s.futures - {f};
      forall key | HasKey(s.sem.queue, key) ensures Owned(futures', key) {
        var g :| Owns(s.futures, g, key);
        assert Owns(futures', g, key);
      }
      forall g, h, key | Owns(futures', g, key) && Owns(futures', h, key) ensures g == h {
        assert Owns(s.futures, g, key) && Owns(s.futures, h, key);
      }
    }
  }

  lemma FirstPollKeepsInv(s: System, f: FutId, waker: Waker, vacant: Key)
    requires Inv(s) && f in s.futures && s.futures[f].state.Idle? && !s.futures[f].completed
    ensures var r := PollStep(s, f, waker, vacant);
      Inv(r.sys) && !r.outcome.Panicked?
  {
    var fut := s.futures[f];
    if FastPath(s.sem, fut.required) {
      SumConcat(s.held, [fut.required]);
      SameWaiting(s.sem.queue, s.futures, s.futures[f := fut.(completed := true)]);
    } else if !HasKey(s.sem.queue, vacant) {
      var w := Waiter(vacant, waker, fut.required, false);
      JoinIsSafe(s.sem, w);
      LinkedJoin(s.sem.queue, f, w, s.futures);
    }
  }

  lemma LaterPollKeepsInv(s: System, f: FutId, waker: Waker, vacant: Key)
    requires Inv(s) && f in s.futures && s.futures[f].state.Waiting?
    ensures var r := PollStep(s, f, waker, vacant);
      Inv(r.sys) && !r.outcome.Panicked?
  {
    var q, fut := s.sem.queue, s.futures[f];
    var i := Find(q, fut.state.key);
    if q[i].woke {
      LeaveIsSafe(s.sem, i);
      SumConcat(s.held, [fut.required]);
      var futures' := s.futures[f := fut.(state := Done, completed := true)];
      LinkedLeave(q, f, s.futures, futures');
      LeaveKeepsKeys(q, i);
      LinkedWake(Without(q, i), s.sem.permits - q[i].required, futures');
    } else {
      LinkedRepoll(q, f, waker, s.futures);
      RepollIsSafe(s.sem, i, waker);
    }
  }

  /** A poll keeps the invariant, and the assertion before a grant never fails: the only
      panic is that of resuming a completed future. */
  lemma PollStepKeepsInv(s: System, f: FutId, waker: Waker, vacant: Key)
    requires Inv(s) && f in s.futures
    ensures var r := Step(s, PollFuture(f, waker, vacant));
      Inv(r.sys) && (r.outcome.Panicked? <==> s.futures[f].completed)
  {
    if s.futures[f].completed {
    } else if s.futures[f].state.Idle? {
      FirstPollKeepsInv(s, f, waker, vacant);
    } else {
      LaterPollKeepsInv(s, f, waker, vacant);
    }
  }

  /** What a poll leaves alone: the set of futures, what each of them requires, the books,
      and the permits held by others. */
  lemma PollStepFrame(s: System, f: FutId, waker: Waker, vacant: Key)
    requires f in s.futures
    ensures var r := PollStep(s, f, waker, vacant);
      && r.sys.futures.Keys == s.futures.Keys
      && (forall g :: g in s.futures ==> r.sys.futures[g].required == s.futures[g].required)
      && r.sys.added == s.added && r.sys.retired == s.retired
      && r.sys.held == (if r.outcome.Granted? then s.held + [s.futures[f].required] else s.held)
  {
  }

  /** Only waiting futures matter to the correspondence. */
  lemma SameWaiting(q: seq<Waiter>, futures: map<FutId, Fut>, futures': map<FutId, Fut>)
    requires Linked(q, futures) && futures.Keys <= futures'.Keys
    requires forall f :: f in futures && futures[f].state.Waiting? ==> futures'[f] == futures[f]
    requires forall f :: f in futures' && futures'[f].state.Waiting? ==> f in futures && futures'[f] == futures[f]
    requires forall f :: f in futures' && futures'[f].state.Done? ==> futures'[f].completed
    ensures Linked(q, futures')
  {
    forall key | HasKey(q, key) ensures Owned(futures', key) {
      var g :| Owns(futures, g, key);
      assert Owns(futures', g, key);
    }
    forall g, h, key | Owns(futures', g, key) && Owns(futures', h, key) ensures g == h {
      assert Owns(futures, g, key) && Owns(futures, h, key);
    }
  }

  lemma RepollIsSafe(s: Sem, i: nat, waker: Waker)
    requires Safe(s) && i < |s.queue|
    ensures Safe(s.(queue := s.queue[i := s.queue[i].(waker := waker)]))
  {
    var r := s.queue[i := s.queue[i].(waker := waker)];
    forall n | 0 <= n <= |r| ensures Need(r[..n]) == Need(s.queue[..n]) {
      SameNeed(r[..n], s.queue[..n]);
    }
  }

  /** Giving permits back, or adding new ones, wakes from a queue whose grants still fit. */
  lemma AddIsSafe(s: Sem, n: nat, futures: map<FutId, Fut>)
    requires Safe(s) && Linked(s.queue, futures)
    ensures Safe(AddPermits(s, n).sem) && Linked(AddPermits(s, n).sem.queue, futures)
  {
    if n > 0 && s.permits + n <= USIZE_MAX {
      WakeRestores(s.queue, s.permits + n);
      LinkedWake(s.queue, s.permits + n, futures);
    }
  }

  lemma PermitStepKeepsInv(s: System, op: Op)
    requires Inv(s) && !op.PollFuture? && !op.DropFuture? && !op.NewAcquire?
    ensures Inv(Step(s, op).sys)
  {
    if op.TryAcquire? {
      SumConcat(s.held, [op.n]);
    } else if op.Add? {
      AddIsSafe(s.sem, op.n, s.futures);
    } else if op.i < |s.held| {
      SumCut(s.held, op.i);
      AddIsSafe(s.sem, s.held[op.i], s.futures);
    }
  }

  lemma StepKeepsInv(s: System, op: Op)
    requires Inv(s)
    ensures Inv(Step(s, op).sys)
  {
    if op.PollFuture? && op.f in s.futures {
      PollStepKeepsInv(s, op.f, op.waker, op.vacant);
    } else if op.DropFuture? && op.f in s.futures {
      DropStepKeepsInv(s, op.f);
    } else if op.NewAcquire? && op.f !in s.futures {
      SameWaiting(s.sem.queue, s.futures, Step(s, op).sys.futures);
    } else if !op.PollFuture? && !op.DropFuture? && !op.NewAcquire? {
      PermitStepKeepsInv(s, op);
    }
  }

  /** After any sequence of calls: woken waiters are the oldest, what they were promised
      fits in the free permits, the head of the queue has not been forgotten, futures and
      waiters correspond, and no permit appears or disappears. */
  lemma {:induction false} EveryRunIsSafe(s: System, ops: seq<Op>)
    requires Inv(s)
    ensures Inv(Run(s, ops))
    decreases |ops|
  {
    if ops == [] {
    } else {
      StepKeepsInv(s, ops[0]);
      EveryRunIsSafe(Step(s, ops[0]).sys, ops[1..]);
    }
  }

  lemma StartIsSafe(permits: nat)
    requires permits <= USIZE_MAX
    ensures Inv(Start(permits))
  {
  }

  /** The only polls that panic are those of a completed future. */
  lemma PollNeverPanics(permits: nat, ops: seq<Op>, f: FutId, waker: Waker, vacant: Key)
    requires permits <= USIZE_MAX
    ensures var s := Run(Start(permits), ops);
      f in s.futures && !s.futures[f].completed ==>
        Step(s, PollFuture(f, waker, vacant)).outcome != Panicked
  {
    EveryRunIsSafe(Start(permits), ops);
    var s := Run(Start(permits), ops);
    if f in s.futures {
      PollStepKeepsInv(s, f, waker, vacant);
    }
  }

  // ----- where permits go

  /** An attempt succeeds, without waiting, if it asks for nothing, or if there is enough and
      nobody queues; it moves the permits to the caller or changes nothing. */
  lemma TryAcquireIff(s: System, n: nat)
    ensures var r := Step(s, TryAcquire(n));
      && (r.outcome == Granted <==> n == 0 || (s.sem.queue == [] && n <= s.sem.permits))
      && r.log == [] && r.sys.sem.queue == s.sem.queue && r.sys.futures == s.futures
      && (r.outcome == Granted ==> r.sys.held == s.held + [n] && r.sys.sem.permits + n == s.sem.permits)
      && (r.outcome != Granted ==> r.outcome == Refused && r.sys == s)
  {
  }

  /** Forgetting a permit loses it for good and tells nobody. */
  lemma ForgetRetires(s: System, i: nat)
    requires i < |s.held|
    ensures var r := Step(s, Forget(i));
      && r.outcome == Fine && r.log == [] && r.sys.sem == s.sem && r.sys.futures == s.futures
      && r.sys.held == s.held[..i] + s.held[i + 1..] && r.sys.retired == s.retired + s.held[i]
  {
  }

  /** Dropping a permit frees all of it, unless the free permits no longer fit a machine word;
      adding permits is the same. */
  lemma DropFrees(s: System, i: nat)
    requires Inv(s) && i < |s.held|
    ensures var r := Step(s, DropPermit(i));
      && (r.outcome == Fine <==> s.sem.permits + s.held[i] <= USIZE_MAX)
      && r.sys.held == s.held[..i] + s.held[i + 1..] && r.sys.futures == s.futures
      && (r.outcome == Fine ==> r.sys.sem.permits == s.sem.permits + s.held[i] && r.sys.retired == s.retired)
      && (r.outcome != Fine ==> r.outcome == Panicked && r.sys.sem == s.sem && r.log == [])
  {
  }

  lemma AddFrees(s: System, n: nat)
    requires Inv(s)
    ensures var r := Step(s, Add(n));
      && (r.outcome == Fine <==> s.sem.permits + n <= USIZE_MAX)
      && r.sys.held == s.held && r.sys.futures == s.futures && r.sys.retired == s.retired
      && (r.outcome == Fine ==> r.sys.sem.permits == s.sem.permits + n && r.sys.added == s.added + n)
      && (r.outcome != Fine ==> r.outcome == Panicked && r.sys == s && r.log == [])
  {
  }

  /** A new acquisition waits for nothing and holds nothing until it is polled; its first poll
      is granted at once exactly when an attempt would succeed, and joins the queue otherwise. */
  lemma FirstPollIff(s: System, f: FutId, n: nat, waker: Waker, vacant: Key)
    requires Inv(s) && f !in s.futures && !HasKey(s.sem.queue, vacant)
    ensures var s' := Step(s, NewAcquire(f, n)).sys;
      var r := Step(s', PollFuture(f, waker, vacant));
      && s'.sem == s.sem && s'.held == s.held && f in s'.futures && r.log == []
      && r.outcome == (if n == 0 || (s.sem.queue == [] && n <= s.sem.permits) then Granted else StillPending)
      && (r.outcome == Granted ==> r.sys.held == s.held + [n] && r.sys.sem.queue == s.sem.queue)
      && (r.outcome == StillPending ==> r.sys.sem == s.sem.(queue := s.sem.queue + [Waiter(vacant, waker, n, false)]))
  {
  }

  // ----- overflow

  function DropAll(n: nat): seq<Op> {
    if n == 0 then [] else [DropPermit(0)] + DropAll(n - 1)
  }

  lemma HeadOrTail(o: Outcome, rest: seq<Outcome>)
    ensures Panicked in [o] + rest <==> o == Panicked || Panicked in rest
  {
  }

  /** Dropping every live permit panics somewhere exactly when the permits in circulation
      exceed a machine word. */
  lemma {:induction false} DropsOverflowIff(s: System)
    requires Inv(s)
    ensures Panicked in Outcomes(s, DropAll(|s.held|)) <==> s.sem.permits + Sum(s.held) > USIZE_MAX
    decreases |s.held|
  {
    if s.held == [] {
    } else {
      var rest := DropAll(|s.held| - 1);
      var r := Step(s, DropPermit(0));
      StepKeepsInv(s, DropPermit(0));
      DropFrees(s, 0);
      assert r.sys.held == s.held[1..];
      DropsOverflowIff(r.sys);
      assert Outcomes(s, DropAll(|s.held|)) == [r.outcome] + Outcomes(r.sys, rest) by {
        assert ([DropPermit(0)] + rest)[1..] == rest;
      }
      HeadOrTail(r.outcome, Outcomes(r.sys, rest));
    }
  }

  /** There are such runs: a permit is taken out, so many are added that they just fit, and
      then the first one no longer does. */
  lemma DropAfterAddsOverflows()
    ensures var s := Run(Start(1), [TryAcquire(1), Add(USIZE_MAX)]);
      && Outcomes(Start(1), [TryAcquire(1), Add(USIZE_MAX)]) == [Granted, Fine]
      && Step(s, DropPermit(0)).outcome == Panicked
  {
    var s1 := Step(Start(1), TryAcquire(1)).sys;
    var s2 := Step(s1, Add(USIZE_MAX)).sys;
    assert [TryAcquire(1), Add(USIZE_MAX)][1..] == [Add(USIZE_MAX)] && [Add(USIZE_MAX)][1..] == [];
    assert Run(s1, [Add(USIZE_MAX)]) == Run(s2, []) && Outcomes(s1, [Add(USIZE_MAX)]) == [Fine] + Outcomes(s2, []);
  }

  /** While what was added less what was retired fits a machine word, as it always does for
      the locks, no permit can be dropped into an overflow. */
  lemma NoDropOverflows(permits: nat, ops: seq<Op>, i: nat)
    requires permits <= USIZE_MAX
    requires var s := Run(Start(permits), ops); s.added - s.retired <= USIZE_MAX
    ensures Step(Run(Start(permits), ops), DropPermit(i)).outcome != Panicked
  {
    EveryRunIsSafe(Start(permits), ops);
    DropFits(Run(Start(permits), ops), i);
  }

  lemma DropFits(s: System, i: nat)
    requires Inv(s) && s.added - s.retired <= USIZE_MAX
    ensures Step(s, DropPermit(i)).outcome != Panicked
  {
    if i < |s.held| {
      SumCut(s.held, i);
    }
  }

  // ----- one waiter's stay in the queue

  /** The wakers called for the waiter in slot `key`, in order. */
  function CallsTo(log: seq<Signal>, key: Key): seq<Waker> {
    if log == [] then []
    else (if log[0].key == key then [log[0].waker] else []) + CallsTo(log[1..], key)
  }

  lemma {:induction false} CallsConcat(a: seq<Signal>, b: seq<Signal>, key: Key)
    ensures CallsTo(a + b, key) == CallsTo(a, key) + CallsTo(b, key)
  {
    if a == [] {
      assert a + b == b;
    } else {
      CallsConcat(a[1..], b, key);
      assert (a + b)[1..] == a[1..] + b && (a + b)[0] == a[0];
      Assoc(if a[0].key == key then [a[0].waker] else [], CallsTo(a[1..], key), CallsTo(b, key));
    }
  }

  /** One wake calls a waiter's waker if and only if it raises that waiter's flag. */
  lemma {:induction false} WakeCallsWhomItMarks(q: seq<Waiter>, permits: nat, key: Key)
    requires KeysDistinct(q)
    ensures !HasKey(q, key) ==> CallsTo(Signals(q, permits), key) == []
    ensures HasKey(q, key) && HasKey(Wake(q, permits), key) ==>
      CallsTo(Signals(q, permits), key)
      == if Lookup(Wake(q, permits), key).woke then CallsTo(Called(Lookup(q, key)), key) else []
  {
    if q == [] {
    } else if permits < q[0].required {
      assert HasKey(q, key) && Lookup(q, key).woke ==> CallsTo(Called(Lookup(q, key)), key) == [];
    } else {
      var rest, left := q[1..], permits - q[0].required;
      WakeCallsWhomItMarks(rest, left, key);
      CallsConcat(Called(q[0]), Signals(rest, left), key);
      if q[0].key == key {
        assert !HasKey(rest, key);
      } else if HasKey(q, key) {
        FoundInTail(q, key);
        FoundWoken(rest, left, key);
        FoundInTail(Wake(q, permits), key);
      }
    }
  }

  lemma FoundInTail(q: seq<Waiter>, key: Key)
    requires HasKey(q, key) && q[0].key != key
    ensures HasKey(q[1..], key) && Lookup(q[1..], key) == Lookup(q, key)
  {
    assert q[1..][Find(q, key) - 1] == Lookup(q, key);
  }

  predicate Waits(s: System, f: FutId) {
    f in s.futures && s.futures[f].state.Waiting?
  }

  function WaiterOf(s: System, f: FutId): Waiter
    requires Waits(s, f) && HasKey(s.sem.queue, s.futures[f].state.key)
  {
    Lookup(s.sem.queue, s.futures[f].state.key)
  }

  /** How a waiter may change between two moments of its stay: the flag only goes up, and
      `calls` are the wakers called for it meanwhile - one, the latest polled, if the flag
      went up, and none otherwise. */
  ghost predicate Stays(s: System, s': System, f: FutId, calls: seq<Waker>) {
    && Waits(s, f) && Waits(s', f)
    && s'.futures[f].state == s.futures[f].state
    && s'.futures[f].required == s.futures[f].required
    && HasKey(s.sem.queue, s.futures[f].state.key) && HasKey(s'.sem.queue, s.futures[f].state.key)
    && (WaiterOf(s, f).woke ==> WaiterOf(s', f).woke && s'.futures[f].lastWaker == s.futures[f].lastWaker)
    && calls == (if WaiterOf(s', f).woke && !WaiterOf(s, f).woke then [s'.futures[f].lastWaker] else [])
  }

  /** The place in the queue that a call vacates, if it does. */
  function LeaverOf(s: System, op: Op): Option<nat> {
    if !(op.PollFuture? || op.DropFuture?) || op.f !in s.futures then None
    else
      var fut := s.futures[op.f];
      if !fut.state.Waiting? || fut.completed || !HasKey(s.sem.queue, fut.state.key) then None
      else
        var i := Find(s.sem.queue, fut.state.key);
        if op.PollFuture? && !s.sem.queue[i].woke then None else Some(i)
  }

  function MovedUp(i: Option<nat>, place: nat): nat {
    if i.Some? && i.value < place then place - 1 else place
  }

  /** A waiter with slot `key` lives on while the queue changes from `q` to `q'`. */
  ghost predicate LivesOn(q: seq<Waiter>, q': seq<Waiter>, key: Key, leaver: Option<nat>, calls: seq<Waker>) {
    && HasKey(q, key) && HasKey(q', key)
    && leaver != Some(Find(q, key))
    && Find(q', key) == MovedUp(leaver, Find(q, key))
    && var w, w' := Lookup(q, key), Lookup(q', key);
       && w'.required == w.required
       && (w.woke ==> w'.woke && w'.waker == w.waker)
       && calls == (if w'.woke && !w.woke then [w'.waker] else [])
  }

  lemma LivesOnWake(q: seq<Waiter>, permits: nat, key: Key)
    requires KeysDistinct(q) && HasKey(q, key)
    ensures LivesOn(q, Wake(q, permits), key, None, CallsTo(Signals(q, permits), key))
  {
    FoundWoken(q, permits, key);
    WakeCallsWhomItMarks(q, permits, key);
  }

  lemma LivesOnLeave(q: seq<Waiter>, i: nat, permits: nat, key: Key)
    requires KeysDistinct(q) && i < |q| && HasKey(q, key) && key != q[i].key
    ensures LivesOn(q, Wake(Without(q, i), permits), key, Some(i), CallsTo(Signals(Without(q, i), permits), key))
  {
    FoundWithout(q, i, key);
    LeaveKeepsKeys(q, i);
    LivesOnWake(Without(q, i), permits, key);
  }

  lemma LivesOnJoin(q: seq<Waiter>, w: Waiter, key: Key)
    requires KeysDistinct(q) && HasKey(q, key) && !HasKey(q, w.key)
    ensures LivesOn(q, q + [w], key, None, [])
  {
    assert KeysDistinct(q + [w]) && (q + [w])[Find(q, key)] == Lookup(q, key);
    FoundAt(q + [w], Find(q, key));
  }

  lemma LivesOnRepoll(q: seq<Waiter>, i: nat, waker: Waker, key: Key)
    requires KeysDistinct(q) && HasKey(q, key) && i < |q| && !q[i].woke
    ensures LivesOn(q, q[i := q[i].(waker := waker)], key, None, [])
  {
    var r := q[i := q[i].(waker := waker)];
    assert KeysDistinct(r) && r[Find(q, key)].key == key;
    FoundAt(r, Find(q, key));
  }

  lemma PollLivesOn(s: System, op: Op, f: FutId)
    requires Inv(s) && Waits(s, f) && Waits(Step(s, op).sys, f) && op.PollFuture?
    ensures var key := s.futures[f].state.key;
      LivesOn(s.sem.queue, Step(s, op).sys.sem.queue, key, LeaverOf(s, op), CallsTo(Step(s, op).log, key))
  {
    var q, key := s.sem.queue, s.futures[f].state.key;
    if op.f !in s.futures || s.futures[op.f].completed {
    } else if s.futures[op.f].state.Waiting? {
      var i := Find(q, s.futures[op.f].state.key);
      if q[i].woke {
        assert Owns(s.futures, op.f, q[i].key) && Owns(s.futures, f, key);
        LeaveIsSafe(s.sem, i);
        LivesOnLeave(q, i, s.sem.permits - q[i].required, key);
      } else {
        LivesOnRepoll(q, i, op.waker, key);
      }
    } else if !FastPath(s.sem, s.futures[op.f].required) && !HasKey(q, op.vacant) {
      LivesOnJoin(q, Waiter(op.vacant, op.waker, s.futures[op.f].required, false), key);
    }
  }

  lemma DropLivesOn(s: System, op: Op, f: FutId)
    requires Inv(s) && Waits(s, f) && Waits(Step(s, op).sys, f) && op.DropFuture?
    ensures var key := s.futures[f].state.key;
      LivesOn(s.sem.queue, Step(s, op).sys.sem.queue, key, LeaverOf(s, op), CallsTo(Step(s, op).log, key))
  {
    var q, key := s.sem.queue, s.futures[f].state.key;
    if op.f in s.futures && s.futures[op.f].state.Waiting? {
      assert Owns(s.futures, op.f, s.futures[op.f].state.key) && Owns(s.futures, f, key);
      LivesOnLeave(q, Find(q, s.futures[op.f].state.key), s.sem.permits, key);
    }
  }

  lemma LivesOnAdd(s: Sem, n: nat, key: Key)
    requires KeysDistinct(s.queue) && HasKey(s.queue, key)
    ensures LivesOn(s.queue, AddPermits(s, n).sem.queue, key, None, CallsTo(AddPermits(s, n).log, key))
  {
    if n > 0 && s.permits + n <= USIZE_MAX {
      LivesOnWake(s.queue, s.permits + n, key);
    }
  }

  lemma StepLivesOn(s: System, op: Op, f: FutId)
    requires Inv(s) && Waits(s, f) && Waits(Step(s, op).sys, f)
    ensures var key := s.futures[f].state.key;
      LivesOn(s.sem.queue, Step(s, op).sys.sem.queue, key, LeaverOf(s, op), CallsTo(Step(s, op).log, key))
  {
    if op.PollFuture? {
      PollLivesOn(s, op, f);
    } else if op.DropFuture? {
      DropLivesOn(s, op, f);
    } else if op.Add? {
      LivesOnAdd(s.sem, op.n, s.futures[f].state.key);
    } else if op.DropPermit? && op.i < |s.held| {
      LivesOnAdd(s.sem, s.held[op.i], s.futures[f].state.key);
    }
  }

  lemma StepKeepsFuture(s: System, op: Op, f: FutId)
    requires Inv(s) && Waits(s, f) && Waits(Step(s, op).sys, f)
    ensures Step(s, op).sys.futures[f].state == s.futures[f].state
    ensures Step(s, op).sys.futures[f].required == s.futures[f].required
  {
  }

  lemma StepStays(s: System, op: Op, f: FutId)
    requires Inv(s) && Waits(s, f) && Waits(Step(s, op).sys, f)
    ensures Stays(s, Step(s, op).sys, f, CallsTo(Step(s, op).log, s.futures[f].state.key))
  {
    StepKeepsFuture(s, op, f);
    StepLivesOn(s, op, f);
    StepKeepsInv(s, op);
    WakersAgree(s, f);
    WakersAgree(Step(s, op).sys, f);
  }

  lemma WakersAgree(s: System, f: FutId)
    requires Inv(s) && Waits(s, f)
    ensures HasKey(s.sem.queue, s.futures[f].state.key) && WaiterOf(s, f).waker == s.futures[f].lastWaker
  {
  }

  /** `f` is in the queue at every moment of the run. */
  predicate WaitsThroughout(s: System, ops: seq<Op>, f: FutId)
    decreases |ops|
  {
    Waits(s, f) && (ops != [] ==> WaitsThroughout(Step(s, ops[0]).sys, ops[1..], f))
  }

  /** Over a whole stay a waiter is called at most once, exactly when it becomes woken, on
      the waker of its latest poll; and once woken it stays so. */
  lemma {:induction false} CalledAtMostOnce(s: System, ops: seq<Op>, f: FutId)
    requires Inv(s) && WaitsThroughout(s, ops, f)
    ensures Stays(s, Run(s, ops), f, CallsTo(Log(s, ops), s.futures[f].state.key))
    decreases |ops|
  {
    if ops == [] {
    } else {
      var r := Step(s, ops[0]);
      StepKeepsInv(s, ops[0]);
      StepStays(s, ops[0], f);
      CalledAtMostOnce(r.sys, ops[1..], f);
      CallsConcat(r.log, Log(r.sys, ops[1..]), s.futures[f].state.key);
    }
  }

  /** The call that ends a stay, by granting or cancelling it, calls others, never the leaver. */
  lemma LeaverIsNotCalled(s: System, op: Op, f: FutId)
    requires Inv(s) && Waits(s, f) && !Waits(Step(s, op).sys, f)
    ensures Touches(op, f)
    ensures CallsTo(Step(s, op).log, s.futures[f].state.key) == []
    ensures op.PollFuture? ==> Step(s, op).outcome == Granted && WaiterOf(s, f).woke
  {
    var key := s.futures[f].state.key;
    var i := Find(s.sem.queue, key);
    assert op.PollFuture? || op.DropFuture?;
    LeaveKeepsKeys(s.sem.queue, i);
    WakeCallsWhomItMarks(Without(s.sem.queue, i), if op.PollFuture? then s.sem.permits - s.sem.queue[i].required
                                                  else s.sem.permits, key);
  }

  /** A whole stay, from joining to its end: a waiter that is granted its permits was called
      exactly once, on the waker of its latest poll; one that is cancelled was called once if
      it had been woken and never if not. */
  lemma CalledOncePerStay(s: System, ops: seq<Op>, op: Op, f: FutId)
    requires Inv(s) && WaitsThroughout(s, ops, f) && HasKey(s.sem.queue, s.futures[f].state.key)
    requires !WaiterOf(s, f).woke && !Waits(Step(Run(s, ops), op).sys, f)
    ensures var s', key := Run(s, ops), s.futures[f].state.key;
      && Waits(s', f) && HasKey(s'.sem.queue, s'.futures[f].state.key)
      && CallsTo(Log(s, ops) + Step(s', op).log, key)
         == (if WaiterOf(s', f).woke then [s'.futures[f].lastWaker] else [])
      && (op.PollFuture? ==> WaiterOf(s', f).woke)
  {
    CalledAtMostOnce(s, ops, f);
    EveryRunIsSafe(s, ops);
    LeaverIsNotCalled(Run(s, ops), op, f);
    CallsConcat(Log(s, ops), Step(Run(s, ops), op).log, s.futures[f].state.key);
  }

  /** The calls that are `f`'s own business. */
  predicate Touches(op: Op, f: FutId) {
    (op.PollFuture? || op.DropFuture?) && op.f == f
  }

  lemma UntouchedWaits(s: System, op: Op, f: FutId)
    requires Waits(s, f) && !Touches(op, f)
    ensures Waits(Step(s, op).sys, f)
  {
  }

  lemma {:induction false} OthersCannotRemove(s: System, ops: seq<Op>, f: FutId)
    requires Inv(s) && Waits(s, f)
    requires forall i :: 0 <= i < |ops| ==> !Touches(ops[i], f)
    ensures WaitsThroughout(s, ops, f)
    decreases |ops|
  {
    if ops == [] {
    } else {
      UntouchedWaits(s, ops[0], f);
      StepKeepsInv(s, ops[0]);
      OthersCannotRemove(Step(s, ops[0]).sys, ops[1..], f);
    }
  }

  /** A wake is a promise: whatever everybody else does in between, the next poll of a
      woken waiter is granted, and its permits are there. */
  lemma WakeIsAPromise(s: System, ops: seq<Op>, f: FutId, waker: Waker, vacant: Key)
    requires Inv(s) && Waits(s, f) && WaiterOf(s, f).woke
    requires forall i :: 0 <= i < |ops| ==> !Touches(ops[i], f)
    ensures var s' := Run(s, ops);
      var r := Step(s', PollFuture(f, waker, vacant));
      && r.outcome == Granted
      && r.sys.held == s'.held + [s.futures[f].required]
      && r.sys.sem.permits + s.futures[f].required == s'.sem.permits
  {
    OthersCannotRemove(s, ops, f);
    CalledAtMostOnce(s, ops, f);
    EveryRunIsSafe(s, ops);
    PollStepKeepsInv(Run(s, ops), f, waker, vacant);
  }

  // ----- order

  function Place(s: System, f: FutId): nat
    requires Waits(s, f) && HasKey(s.sem.queue, s.futures[f].state.key)
  {
    Find(s.sem.queue, s.futures[f].state.key)
  }

  ghost predicate Before(s: System, f: FutId, g: FutId)
    requires Inv(s) && Waits(s, f) && Waits(s, g)
  {
    Place(s, f) < Place(s, g)
  }

  lemma StepKeepsOrder(s: System, op: Op, f: FutId, g: FutId)
    requires Inv(s) && Waits(s, f) && Waits(s, g) && Before(s, f, g)
    requires Waits(Step(s, op).sys, f) && Waits(Step(s, op).sys, g)
    ensures Inv(Step(s, op).sys) && Before(Step(s, op).sys, f, g)
  {
    StepKeepsInv(s, op);
    StepKeepsFuture(s, op, f);
    StepKeepsFuture(s, op, g);
    StepLivesOn(s, op, f);
    StepLivesOn(s, op, g);
  }

  /** First come, first served: nothing that happens to a semaphore reorders two waiters,
      and the younger one cannot be granted before the older one has been woken. */
  lemma {:induction false} NoOvertaking(s: System, ops: seq<Op>, f: FutId, g: FutId, waker: Waker, vacant: Key)
    requires Inv(s) && Waits(s, f) && Waits(s, g) && Before(s, f, g)
    requires WaitsThroughout(s, ops, f) && WaitsThroughout(s, ops, g)
    ensures var s' := Run(s, ops);
      && Inv(s') && Waits(s', f) && Waits(s', g) && Before(s', f, g)
      && (Step(s', PollFuture(g, waker, vacant)).outcome == Granted ==> WaiterOf(s', f).woke)
    decreases |ops|
  {
    if ops == [] {
      var q := s.sem.queue;
      assert q[Place(s, g)] == WaiterOf(s, g) && q[Place(s, f)] == WaiterOf(s, f);
    } else {
      StepKeepsOrder(s, ops[0], f, g);
      NoOvertaking(Step(s, ops[0]).sys, ops[1..], f, g, waker, vacant);
    }
  }

  /** Nobody who arrives while others queue gets a permit at once, unless he asks for none. */
  lemma FastPathOnlyWhenEmpty(s: System, op: Op)
    requires Inv(s) && Step(s, op).outcome == Granted
    requires op.TryAcquire? || (op.PollFuture? && !Waits(s, op.f))
    ensures s.sem.queue == [] || Step(s, op).sys.held == s.held + [0]
  {
  }

  // ----- progress

  ghost function OwnerOf(s: System, key: Key): (f: FutId)
    requires Inv(s) && HasKey(s.sem.queue, key)
    ensures Owns(s.futures, f, key)
  {
    assert Owned(s.futures, key);
    var f :| Owns(s.futures, f, key);
    f
  }

  function Keys(q: seq<Waiter>): seq<Key> {
    seq(|q|, i requires 0 <= i < |q| => q[i].key)
  }

  /** The calls empty the queue from its old end: each round polls the oldest waiter,
      which is granted, and drops its permit. */
  ghost predicate DrainsInOrder(s: System, ops: seq<Op>)
    decreases |ops|
  {
    if s.sem.queue == [] then ops == []
    else
      && |ops| >= 2
      && ops[0].PollFuture? && Owns(s.futures, ops[0].f, s.sem.queue[0].key)
      && ops[1] == DropPermit(0)
      && var granted := Step(s, ops[0]);
         var back := Step(granted.sys, ops[1]);
         && granted.outcome == Granted && back.outcome == Fine
         && Keys(back.sys.sem.queue) == Keys(s.sem.queue)[1..]
         && DrainsInOrder(back.sys, ops[2..])
  }

  lemma Round(s: System, waker: Waker) returns (f: FutId)
    requires Inv(s) && s.held == [] && s.sem.queue != []
    requires forall i :: 0 <= i < |s.sem.queue| ==> s.sem.queue[i].required <= s.sem.permits
    ensures Owns(s.futures, f, s.sem.queue[0].key)
    ensures var granted := Step(s, PollFuture(f, waker, 0));
      var back := Step(granted.sys, DropPermit(0));
      && granted.outcome == Granted && back.outcome == Fine
      && Inv(back.sys) && back.sys.held == [] && back.sys.sem.permits == s.sem.permits
      && Keys(back.sys.sem.queue) == Keys(s.sem.queue)[1..]
      && forall i :: 0 <= i < |back.sys.sem.queue| ==> back.sys.sem.queue[i].required <= s.sem.permits
  {
    var q := s.sem.queue;
    FoundAt(q, 0);
    f := OwnerOf(s, q[0].key);
    OldestIsGranted(s, f, waker);
    var granted := Step(s, PollFuture(f, waker, 0)).sys;
    PollStepKeepsInv(s, f, waker, 0);
    GiveBack(granted);
  }

  lemma GiveBack(s: System)
    requires Inv(s) && |s.held| == 1 && s.held[0] >= 1 && s.sem.permits + s.held[0] <= USIZE_MAX
    ensures var r := Step(s, DropPermit(0));
      && r.outcome == Fine && Inv(r.sys) && r.sys.held == []
      && r.sys.sem.permits == s.sem.permits + s.held[0]
      && |r.sys.sem.queue| == |s.sem.queue|
      && forall i :: 0 <= i < |s.sem.queue| ==>
           && r.sys.sem.queue[i].key == s.sem.queue[i].key
           && r.sys.sem.queue[i].required == s.sem.queue[i].required
  {
    assert Cut(s.held, 0) == [];
    StepKeepsInv(s, DropPermit(0));
    WakeMarksWhatFits(s.sem.queue, s.sem.permits + s.held[0]);
  }

  lemma OldestIsGranted(s: System, f: FutId, waker: Waker)
    requires Inv(s) && s.held == [] && s.sem.queue != [] && s.sem.queue[0].required <= s.sem.permits
    requires Owns(s.futures, f, s.sem.queue[0].key)
    ensures var w, r := s.sem.queue[0], Step(s, PollFuture(f, waker, 0));
      && r.outcome == Granted && r.sys.held == [w.required]
      && r.sys.sem.permits + w.required == s.sem.permits
      && |r.sys.sem.queue| == |s.sem.queue| - 1
      && forall i :: 0 <= i < |r.sys.sem.queue| ==>
           && r.sys.sem.queue[i].key == s.sem.queue[i + 1].key
           && r.sys.sem.queue[i].required == s.sem.queue[i + 1].required
  {
    FoundAt(s.sem.queue, 0);
    assert Without(s.sem.queue, 0) == s.sem.queue[1..];
    WakeMarksWhatFits(s.sem.queue[1..], s.sem.permits - s.sem.queue[0].required);
  }

  lemma RunTwo(s: System, a: Op, b: Op, rest: seq<Op>)
    ensures ([a, b] + rest)[2..] == rest
    ensures Run(s, [a, b] + rest) == Run(Step(Step(s, a).sys, b).sys, rest)
  {
    assert ([a, b] + rest)[1..] == [b] + rest && ([b] + rest)[1..] == rest;
  }

  /** No permits from elsewhere, and nobody gives up waiting. */
  predicate OnlyServes(ops: seq<Op>) {
    forall i :: 0 <= i < |ops| ==> !ops[i].Add? && !ops[i].DropFuture?
  }

  /** From any state reached with no permit outstanding and no waiter asking for more than
      there is, the queue can be served to the end, oldest first, and all permits are free
      again. */
  lemma {:induction false} QueueDrains(s: System, waker: Waker) returns (ops: seq<Op>)
    requires Inv(s) && s.held == []
    requires forall i :: 0 <= i < |s.sem.queue| ==> s.sem.queue[i].required <= s.sem.permits
    ensures DrainsInOrder(s, ops)
    ensures Run(s, ops).sem == Sem(s.sem.permits, []) && Run(s, ops).held == []
    ensures |ops| == 2 * |s.sem.queue|
    decreases |s.sem.queue|
  {
    ops := [];
    if s.sem.queue == [] {
    } else {
      var f := Round(s, waker);
      var granted := Step(s, PollFuture(f, waker, 0)).sys;
      var back := Step(granted, DropPermit(0)).sys;
      assert |Keys(back.sem.queue)| == |back.sem.queue|;
      var rest := QueueDrains(back, waker);
      ops := [PollFuture(f, waker, 0), DropPermit(0)] + rest;
      RunTwo(s, PollFuture(f, waker, 0), DropPermit(0), rest);
    }
  }

  lemma {:induction false} DrainOnlyServes(s: System, ops: seq<Op>)
    requires DrainsInOrder(s, ops)
    ensures OnlyServes(ops)
    decreases |ops|
  {
    if s.sem.queue == [] {
    } else {
      DrainOnlyServes(Step(Step(s, ops[0]).sys, ops[1]).sys, ops[2..]);
      forall i | 2 <= i < |ops| ensures !ops[i].Add? && !ops[i].DropFuture? {
        assert ops[i] == ops[2..][i - 2];
      }
    }
  }

  /** Who waits for more permits than there are in circulation. */
  ghost predicate Oversized(s: System, f: FutId) {
    Waits(s, f) && s.futures[f].required > s.sem.permits + Sum(s.held)
  }

  lemma OversizedIsNotWoken(s: System, f: FutId)
    requires Inv(s) && Oversized(s, f)
    ensures HasKey(s.sem.queue, s.futures[f].state.key) && !WaiterOf(s, f).woke
  {
    var i := Find(s.sem.queue, s.futures[f].state.key);
    NeedStep(s.sem.queue, i);
  }

  lemma StillWaits(s: System, op: Op, f: FutId)
    requires Waits(s, f) && HasKey(s.sem.queue, s.futures[f].state.key) && !WaiterOf(s, f).woke
    requires op != DropFuture(f)
    ensures Waits(Step(s, op).sys, f)
  {
  }

  lemma BooksOnlyShrink(s: System, op: Op)
    requires !op.Add?
    ensures Step(s, op).sys.added == s.added && Step(s, op).sys.retired >= s.retired
  {
  }

  lemma StepKeepsOversized(s: System, op: Op, f: FutId)
    requires Inv(s) && Oversized(s, f) && !op.Add? && op != DropFuture(f)
    ensures Inv(Step(s, op).sys) && Oversized(Step(s, op).sys, f)
  {
    StepKeepsInv(s, op);
    OversizedIsNotWoken(s, f);
    StillWaits(s, op, f);
    StepKeepsFuture(s, op, f);
    BooksOnlyShrink(s, op);
    SameBalance(s, Step(s, op).sys, f);
  }

  lemma SameBalance(s: System, s': System, f: FutId)
    requires Inv(s) && Inv(s') && Oversized(s, f) && s'.added == s.added && s'.retired >= s.retired
    requires Waits(s', f) && s'.futures[f].required == s.futures[f].required
    ensures Oversized(s', f)
  {
  }

  /** A waiter that asks for more than is in circulation is never served, nor is anybody who
      queues behind it, unless permits are added or it gives up. */
  lemma {:induction false} OversizedIsNeverGranted(s: System, ops: seq<Op>, f: FutId)
    requires Inv(s) && Oversized(s, f)
    requires forall i :: 0 <= i < |ops| ==> !ops[i].Add? && ops[i] != DropFuture(f)
    ensures var s' := Run(s, ops);
      && Inv(s') && Oversized(s', f) && HasKey(s'.sem.queue, s'.futures[f].state.key)
      && forall i :: Find(s'.sem.queue, s'.futures[f].state.key) <= i < |s'.sem.queue| ==> !s'.sem.queue[i].woke
    decreases |ops|
  {
    if ops == [] {
      OversizedIsNotWoken(s, f);
    } else {
      StepKeepsOversized(s, ops[0], f);
      OversizedIsNeverGranted(Step(s, ops[0]).sys, ops[1..], f);
    }
  }

  /** With no permit outstanding, the whole queue can be served if and only if nobody in it
      asks for more than there is. */
  lemma QueueDrainsIff(s: System, waker: Waker)
    requires Inv(s) && s.held == []
    ensures (exists ops :: OnlyServes(ops) && Run(s, ops).sem.queue == [])
      <==> forall i :: 0 <= i < |s.sem.queue| ==> s.sem.queue[i].required <= s.sem.permits
  {
    if forall i :: 0 <= i < |s.sem.queue| ==> s.sem.queue[i].required <= s.sem.permits {
      var ops := QueueDrains(s, waker);
      DrainOnlyServes(s, ops);
      assert OnlyServes(ops) && Run(s, ops).sem.queue == [];
    } else {
      var i :| 0 <= i < |s.sem.queue| && s.sem.queue[i].required > s.sem.permits;
      FoundAt(s.sem.queue, i);
      var f := OwnerOf(s, s.sem.queue[i].key);
      forall ops | OnlyServes(ops) ensures Run(s, ops).sem.queue != [] {
        OversizedIsNeverGranted(s, ops, f);
      }
    }
  }
}
