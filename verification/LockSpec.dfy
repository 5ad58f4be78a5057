/** The read-write lock and the mutex as clients of the semaphore. A guard pairs a permit
    with a borrow of the `RefCell` that holds the value; the mutex is the case of a single
    permit and exclusive guards only. */
module LockSpec {
  import opened Common
  import opened SemaphoreSpec
  import SR = SemaphoreRuns

  datatype Kind = Shared | Exclusive

  /** The borrow state of a `RefCell`. */
  datatype Cell = Free | Reading(n: nat) | Writing

  /** `borrow` and `borrow_mut`; `None` is the panic of a conflicting borrow. */
  function Borrow(c: Cell, kind: Kind): Option<Cell> {
    match (c, kind)
    case (Free, Shared) => Some(Reading(1))
    case (Reading(n), Shared) => Some(Reading(n + 1))
    case (Free, Exclusive) => Some(Writing)
    case (_, _) => None
  }

  /** Dropping the `Ref` or `RefMut` of a guard. */
  function Release(c: Cell): Cell {
    match c
    case Reading(n) => if n <= 1 then Free else Reading(n - 1)
    case _ => Free
  }

  function Amount(capacity: nat, kind: Kind): nat {
    if kind.Shared? then 1 else capacity
  }

  /** `guards[i]` is the guard that holds the permit `sys.held[i]`. */
  datatype Lock = Lock(capacity: nat, sys: SR.System, kinds: map<SR.FutId, Kind>, cell: Cell, guards: seq<Kind>)

  datatype Op =
    | Begin(f: SR.FutId, kind: Kind)
    | Poll(f: SR.FutId, waker: Waker, vacant: Key)
    | Cancel(f: SR.FutId)
    | Try(kind: Kind)
    | DropGuard(i: nat)

  datatype Result = Result(lock: Lock, outcome: SR.Outcome)

  function Start(capacity: nat): Lock {
    Lock(capacity, SR.Start(capacity), map[], Free, [])
  }

  /** The permit is there; borrow the value and hand out the guard. */
  function Guarded(l: Lock, sys: SR.System, kind: Kind): Result {
    match Borrow(l.cell, kind)
    case None => Result(l.(sys := sys), SR.Panicked)
    case Some(c) => Result(l.(sys := sys, cell := c, guards := l.guards + [kind]), SR.Granted)
  }

  function Step(l: Lock, op: Op): Result {
    match op
    case Begin(f, kind) =>
      var r := SR.Step(l.sys, SR.NewAcquire(f, Amount(l.capacity, kind)));
      if r.outcome.Rejected? then Result(l, SR.Rejected)
      else Result(l.(sys := r.sys, kinds := l.kinds[f := kind]), r.outcome)
    case Poll(f, waker, vacant) =>
      var r := SR.Step(l.sys, SR.PollFuture(f, waker, vacant));
      if r.outcome.Granted? && f in l.kinds then Guarded(l, r.sys, l.kinds[f])
      else Result(l.(sys := r.sys), r.outcome)
    case Cancel(f) =>
      var r := SR.Step(l.sys, SR.DropFuture(f));
      Result(l.(sys := r.sys, kinds := l.kinds - {f}), r.outcome)
    case Try(kind) =>
      var r := SR.Step(l.sys, SR.TryAcquire(Amount(l.capacity, kind)));
      if r.outcome.Granted? then Guarded(l, r.sys, kind) else Result(l, r.outcome)
    case DropGuard(i) =>
      if i >= |l.guards| then Result(l, SR.Rejected)
      else
        var r := SR.Step(l.sys, SR.DropPermit(i));
        Result(l.(sys := r.sys, cell := Release(l.cell), guards := l.guards[..i] + l.guards[i + 1..]), r.outcome)
  }

  function Run(l: Lock, ops: seq<Op>): Lock
    decreases |ops|
  {
    if ops == [] then l else Run(Step(l, ops[0]).lock, ops[1..])
  }

  /** The borrow state that the live guards call for. */
  function CellOf(guards: seq<Kind>): Cell {
    if guards == [] then Free
    else if Exclusive in guards then Writing
    else Reading(|guards|)
  }

  ghost predicate Exclusion(guards: seq<Kind>) {
    Exclusive in guards ==> guards == [Exclusive]
  }

  ghost predicate Inv(l: Lock) {
    && 1 <= l.capacity <= USIZE_MAX
    && SR.Inv(l.sys)
    && l.sys.added == l.capacity && l.sys.retired == 0
    && |l.guards| == |l.sys.held|
    && (forall i :: 0 <= i < |l.guards| ==> l.sys.held[i] == Amount(l.capacity, l.guards[i]))
    && l.kinds.Keys == l.sys.futures.Keys
    && (forall f :: f in l.kinds ==> l.sys.futures[f].required == Amount(l.capacity, l.kinds[f]))
    && l.cell == CellOf(l.guards)
  }

  /** Permit arithmetic: amounts of at least one that stay within the capacity leave no
      room beside one that is all of it. */
  lemma {:induction false} OneFillsAll(amounts: seq<nat>, i: nat)
    requires i < |amounts| && forall j :: 0 <= j < |amounts| ==> amounts[j] >= 1
    ensures SR.Sum(amounts) >= amounts[i] + |amounts| - 1
  {
    if |amounts| == 1 {
    } else {
      if i > 0 {
        OneFillsAll(amounts[1..], i - 1);
      } else {
        OneFillsAll(amounts[1..], 0);
      }
    }
  }

  /** A write guard is the only guard. */
  lemma WriterIsAlone(l: Lock)
    requires Inv(l)
    ensures Exclusion(l.guards)
  {
    if Exclusive in l.guards {
      var i :| 0 <= i < |l.guards| && l.guards[i] == Exclusive;
      OneFillsAll(l.sys.held, i);
    }
  }

  lemma HandOut(l: Lock, sys: SR.System, kind: Kind)
    requires Inv(l) && SR.Inv(sys)
    requires sys.held == l.sys.held + [Amount(l.capacity, kind)]
    requires sys.added == l.sys.added && sys.retired == 0
    ensures Borrow(l.cell, kind) == Some(CellOf(l.guards + [kind]))
  {
    var held, n := sys.held, |l.guards|;
    OneFillsAll(held, n);
    assert kind == Exclusive ==> n == 0;
    forall i | 0 <= i < n ensures l.guards[i] != Exclusive {
      assert held[i] == l.sys.held[i];
      OneFillsAll(held, i);
    }
  }

  /** The futures of the semaphore are still those of the lock. */
  ghost predicate SameFutures(l: Lock, sys: SR.System) {
    && sys.futures.Keys == l.sys.futures.Keys
    && (forall f :: f in l.kinds ==> f in sys.futures && sys.futures[f].required == Amount(l.capacity, l.kinds[f]))
    && sys.added == l.sys.added && sys.retired == 0
  }

  lemma GuardedKeepsInv(l: Lock, sys: SR.System, kind: Kind)
    requires Inv(l) && SR.Inv(sys) && SameFutures(l, sys)
    requires sys.held == l.sys.held + [Amount(l.capacity, kind)]
    ensures Inv(Guarded(l, sys, kind).lock) && Guarded(l, sys, kind).outcome == SR.Granted
  {
    HandOut(l, sys, kind);
  }

  lemma PollStepFrame(l: Lock, f: SR.FutId, waker: Waker, vacant: Key)
    requires Inv(l) && f in l.kinds
    ensures var r := SR.Step(l.sys, SR.PollFuture(f, waker, vacant));
      && SR.Inv(r.sys) && SameFutures(l, r.sys)
      && r.sys.held == (if r.outcome.Granted? then l.sys.held + [Amount(l.capacity, l.kinds[f])] else l.sys.held)
  {
    SR.PollStepKeepsInv(l.sys, f, waker, vacant);
    SR.PollStepFrame(l.sys, f, waker, vacant);
  }

  lemma PollKeepsInv(l: Lock, op: Op)
    requires Inv(l) && op.Poll?
    ensures var r := Step(l, op);
      && Inv(r.lock)
      && (r.outcome.Panicked? ==> op.f in l.sys.futures && l.sys.futures[op.f].completed)
  {
    if op.f in l.kinds {
      PollStepFrame(l, op.f, op.waker, op.vacant);
      SR.PollStepKeepsInv(l.sys, op.f, op.waker, op.vacant);
      var r := SR.Step(l.sys, SR.PollFuture(op.f, op.waker, op.vacant));
      if r.outcome.Granted? {
        GuardedKeepsInv(l, r.sys, l.kinds[op.f]);
      }
    }
  }

  lemma TryKeepsInv(l: Lock, op: Op)
    requires Inv(l) && op.Try?
    ensures Inv(Step(l, op).lock) && Step(l, op).outcome != SR.Panicked
  {
    var n := Amount(l.capacity, op.kind);
    SR.StepKeepsInv(l.sys, SR.TryAcquire(n));
    if FastPath(l.sys.sem, n) {
      GuardedKeepsInv(l, SR.Step(l.sys, SR.TryAcquire(n)).sys, op.kind);
    }
  }

  lemma ReleaseMatches(guards: seq<Kind>, i: nat)
    requires i < |guards| && Exclusion(guards)
    ensures Release(CellOf(guards)) == CellOf(guards[..i] + guards[i + 1..])
  {
    var rest := guards[..i] + guards[i + 1..];
    if Exclusive in guards {
      assert rest == [];
    } else {
      assert Exclusive !in rest;
    }
  }

  lemma DropKeepsInv(l: Lock, op: Op)
    requires Inv(l) && op.DropGuard?
    ensures Inv(Step(l, op).lock) && Step(l, op).outcome != SR.Panicked
  {
    if op.i < |l.guards| {
      SR.StepKeepsInv(l.sys, SR.DropPermit(op.i));
      SR.DropFits(l.sys, op.i);
      WriterIsAlone(l);
      ReleaseMatches(l.guards, op.i);
    }
  }

  lemma FutureStepKeepsInv(l: Lock, op: Op)
    requires Inv(l) && (op.Begin? || op.Cancel?)
    ensures Inv(Step(l, op).lock) && Step(l, op).outcome != SR.Panicked
  {
    if op.Begin? {
      SR.StepKeepsInv(l.sys, SR.NewAcquire(op.f, Amount(l.capacity, op.kind)));
    } else {
      SR.StepKeepsInv(l.sys, SR.DropFuture(op.f));
      if op.f in l.sys.futures {
        SR.DropStepKeepsInv(l.sys, op.f);
      }
    }
  }

  /** No borrow of the value conflicts, no guard's drop overflows, and nothing panics but
      the polling of a future that has completed. */
  lemma StepKeepsInv(l: Lock, op: Op)
    requires Inv(l)
    ensures Inv(Step(l, op).lock)
    ensures Step(l, op).outcome.Panicked? ==> op.Poll? && op.f in l.sys.futures && l.sys.futures[op.f].completed
  {
    match op
    case Poll(f, waker, vacant) => PollKeepsInv(l, op);
    case Try(kind) => TryKeepsInv(l, op);
    case DropGuard(i) => DropKeepsInv(l, op);
    case Begin(f, kind) => FutureStepKeepsInv(l, op);
    case Cancel(f) => FutureStepKeepsInv(l, op);
  }

  /** Mutual exclusion over every run: a live exclusive guard is the only live guard, and
      the borrow state of the value is the one the live guards call for. */
  lemma {:induction false} EveryRunExcludes(l: Lock, ops: seq<Op>)
    requires Inv(l)
    ensures Inv(Run(l, ops)) && Exclusion(Run(l, ops).guards)
    ensures Run(l, ops).cell == CellOf(Run(l, ops).guards)
    decreases |ops|
  {
    if ops == [] {
      WriterIsAlone(l);
    } else {
      StepKeepsInv(l, ops[0]);
      EveryRunExcludes(Step(l, ops[0]).lock, ops[1..]);
    }
  }

  lemma StartIsFree(capacity: nat)
    requires 1 <= capacity <= USIZE_MAX
    ensures Inv(Start(capacity))
  {
  }

  /** Readers coexist: with nobody waiting and no writer, one more is always let in as
      long as there is a permit left. */
  lemma ReadersCoexist(l: Lock)
    requires Inv(l) && l.sys.sem.queue == [] && Exclusive !in l.guards && |l.guards| < l.capacity
    ensures Step(l, Try(Shared)).outcome == SR.Granted
    ensures Step(l, Try(Shared)).lock.guards == l.guards + [Shared]
  {
    AllOnes(l.sys.held);
    HandOutShared(l);
  }

  lemma HandOutShared(l: Lock)
    requires Inv(l) && Exclusive !in l.guards
    ensures Borrow(l.cell, Shared).Some?
  {
  }

  lemma {:induction false} AllOnes(amounts: seq<nat>)
    requires forall i :: 0 <= i < |amounts| ==> amounts[i] == 1
    ensures SR.Sum(amounts) == |amounts|
  {
    if amounts == [] {
    } else {
      AllOnes(amounts[1..]);
    }
  }

  // ----- who gets in

  lemma {:induction false} NothingHeld(amounts: seq<nat>)
    requires forall i :: 0 <= i < |amounts| ==> amounts[i] >= 1
    ensures SR.Sum(amounts) == 0 <==> amounts == []
  {
    if amounts == [] {
    } else {
      NothingHeld(amounts[1..]);
    }
  }

  /** Permit arithmetic again: how much is free tells who is inside. */
  lemma RoomIff(l: Lock, kind: Kind)
    requires Inv(l)
    ensures l.sys.sem.permits >= Amount(l.capacity, kind)
      <==> if kind.Exclusive? then l.guards == [] else Exclusive !in l.guards && |l.guards| < l.capacity
  {
    NothingHeld(l.sys.held);
    WriterIsAlone(l);
    if Exclusive in l.guards {
      OneFillsAll(l.sys.held, 0);
    } else {
      AllOnes(l.sys.held);
    }
  }

  /** An attempt gets in exactly if nobody waits and the lock has room: nobody else inside for
      a writer, no writer and a permit left for a reader. It gets the guard it asked for. */
  lemma TryIff(l: Lock, kind: Kind)
    requires Inv(l)
    ensures var r := Step(l, Try(kind));
      && (r.outcome == SR.Granted <==>
           && l.sys.sem.queue == []
           && if kind.Exclusive? then l.guards == [] else Exclusive !in l.guards && |l.guards| < l.capacity)
      && (r.outcome == SR.Granted ==> r.lock.guards == l.guards + [kind])
      && (r.outcome != SR.Granted ==> r.outcome == SR.Refused && r.lock == l)
  {
    var n := Amount(l.capacity, kind);
    RoomIff(l, kind);
    SR.TryAcquireIff(l.sys, n);
    var r := SR.Step(l.sys, SR.TryAcquire(n));
    if r.outcome == SR.Granted {
      SR.StepKeepsInv(l.sys, SR.TryAcquire(n));
      HandOut(l, r.sys, kind);
    }
  }

  /** A future that was begun gets the guard it was begun for, whatever happens before it is
      granted. */
  lemma {:induction false} BegunForKind(l: Lock, f: SR.FutId, kind: Kind, ops: seq<Op>, waker: Waker, vacant: Key)
    requires Inv(l) && f in l.kinds && l.kinds[f] == kind
    requires forall i :: 0 <= i < |ops| ==> ops[i] != Cancel(f)
    ensures var l' := Run(l, ops);
      var r := Step(l', Poll(f, waker, vacant));
      && f in l'.kinds && l'.kinds[f] == kind
      && (r.outcome == SR.Granted ==> r.lock.guards == l'.guards + [kind])
      && (r.outcome != SR.Granted ==> r.lock.guards == l'.guards)
    decreases |ops|
  {
    if ops == [] {
      PollKeepsInv(l, Poll(f, waker, vacant));
      PollStepFrame(l, f, waker, vacant);
      if SR.Step(l.sys, SR.PollFuture(f, waker, vacant)).outcome == SR.Granted {
        HandOut(l, SR.Step(l.sys, SR.PollFuture(f, waker, vacant)).sys, kind);
      }
    } else {
      StepKeepsInv(l, ops[0]);
      assert ops[0] != Cancel(f);
      BegunForKind(Step(l, ops[0]).lock, f, kind, ops[1..], waker, vacant);
    }
  }

  lemma BeginIsForKind(l: Lock, f: SR.FutId, kind: Kind)
    requires Inv(l) && f !in l.kinds
    ensures var r := Step(l, Begin(f, kind));
      && r.outcome == SR.Fine && f in r.lock.kinds && r.lock.kinds[f] == kind
      && r.lock.guards == l.guards && r.lock.sys.sem == l.sys.sem
  {
  }

  /** Dropping a guard takes out that guard and frees what it held. */
  lemma DropGuardFrees(l: Lock, i: nat)
    requires Inv(l) && i < |l.guards|
    ensures var r := Step(l, DropGuard(i));
      && r.outcome == SR.Fine && r.lock.guards == l.guards[..i] + l.guards[i + 1..]
      && r.lock.sys.sem.permits == l.sys.sem.permits + Amount(l.capacity, l.guards[i])
  {
    SR.SumCut(l.sys.held, i);
  }

  // ----- progress

  /** The calls hand the lock to everybody who waits, oldest first: each round polls the oldest
      waiter, which gets its guard and borrows the value, and drops the guard. */
  ghost predicate ServesInOrder(l: Lock, ops: seq<Op>)
    decreases |ops|
  {
    if l.sys.sem.queue == [] then ops == []
    else
      && |ops| >= 2
      && ops[0].Poll? && ops[0].f in l.kinds && SR.Owns(l.sys.futures, ops[0].f, l.sys.sem.queue[0].key)
      && ops[1] == DropGuard(0)
      && var granted := Step(l, ops[0]);
         var back := Step(granted.lock, ops[1]);
         && granted.outcome == SR.Granted && granted.lock.guards == [l.kinds[ops[0].f]]
         && granted.lock.cell == CellOf(granted.lock.guards)
         && back.outcome == SR.Fine && back.lock.guards == [] && back.lock.cell == Free
         && SR.Keys(back.lock.sys.sem.queue) == SR.Keys(l.sys.sem.queue)[1..]
         && ServesInOrder(back.lock, ops[2..])
  }

  /** No waiter asks for more than the lock has. */
  lemma NobodyOversized(l: Lock)
    requires Inv(l)
    ensures forall i :: 0 <= i < |l.sys.sem.queue| ==> l.sys.sem.queue[i].required <= l.capacity
  {
    var q := l.sys.sem.queue;
    forall i | 0 <= i < |q| ensures q[i].required <= l.capacity {
      SR.FoundAt(q, i);
      var f := SR.OwnerOf(l.sys, q[i].key);
      assert l.sys.futures[f].required == Amount(l.capacity, l.kinds[f]);
    }
  }

  lemma Round(l: Lock, waker: Waker) returns (f: SR.FutId)
    requires Inv(l) && l.guards == [] && l.sys.sem.queue != []
    ensures f in l.kinds && SR.Owns(l.sys.futures, f, l.sys.sem.queue[0].key)
    ensures var granted := Step(l, Poll(f, waker, 0));
      var back := Step(granted.lock, DropGuard(0));
      && granted.outcome == SR.Granted && granted.lock.guards == [l.kinds[f]]
      && granted.lock.cell == CellOf(granted.lock.guards)
      && back.outcome == SR.Fine && Inv(back.lock) && back.lock.guards == [] && back.lock.cell == Free
      && back.lock.capacity == l.capacity
      && SR.Keys(back.lock.sys.sem.queue) == SR.Keys(l.sys.sem.queue)[1..]
  {
    NobodyOversized(l);
    f := SR.Round(l.sys, waker);
    StepKeepsInv(l, Poll(f, waker, 0));
    var granted := Step(l, Poll(f, waker, 0)).lock;
    StepKeepsInv(granted, DropGuard(0));
  }

  lemma RunTwo(l: Lock, a: Op, b: Op, rest: seq<Op>)
    ensures ([a, b] + rest)[2..] == rest
    ensures Run(l, [a, b] + rest) == Run(Step(Step(l, a).lock, b).lock, rest)
  {
    assert ([a, b] + rest)[1..] == [b] + rest && ([b] + rest)[1..] == rest;
  }

  /** Once the last guard is gone, everybody who waits for the lock gets it in turn, and the
      lock is free in the end. */
  lemma {:induction false} LockDrains(l: Lock, waker: Waker) returns (ops: seq<Op>)
    requires Inv(l) && l.guards == []
    ensures ServesInOrder(l, ops) && |ops| == 2 * |l.sys.sem.queue|
    ensures var l' := Run(l, ops);
      Inv(l') && l'.guards == [] && l'.cell == Free && l'.sys.sem == Sem(l.capacity, [])
    decreases |l.sys.sem.queue|
  {
    ops := [];
    if l.sys.sem.queue == [] {
    } else {
      var f := Round(l, waker);
      var back := Step(Step(l, Poll(f, waker, 0)).lock, DropGuard(0)).lock;
      assert |SR.Keys(back.sys.sem.queue)| == |back.sys.sem.queue|;
      var rest := LockDrains(back, waker);
      ops := [Poll(f, waker, 0), DropGuard(0)] + rest;
      RunTwo(l, Poll(f, waker, 0), DropGuard(0), rest);
    }
  }
}
