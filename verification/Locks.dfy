/** `RwLock` and `Mutex` as the source keeps them: a semaphore and a `RefCell`. The value
    itself plays no part and is left out; the cell is its borrow state. */
module Locks {
  import opened Common
  import opened SemaphoreSpec
  import opened Semaphores
  import opened LockSpec

  /** What a caller sees: a guard, nothing yet, or one of the panics. */
  datatype Access = Guard(permit: Permit, kind: Kind) | NotYet | PollPanic | BorrowPanic

  /** The borrow that follows a grant of `n` permits. */
  ghost predicate Admitted(a: Access, semaphore: Semaphore, n: nat, kind: Kind, before: Cell, after: Cell)
    reads if a.Guard? then {a.permit} else {}
  {
    match Borrow(before, kind)
    case None => a == BorrowPanic && after == before
    case Some(c) =>
      && a.Guard? && a.kind == kind && after == c
      && a.permit.semaphore == semaphore && a.permit.permits == n
  }

  class RwLock {
    const semaphore: Semaphore
    var value: Cell

    constructor ()
      ensures fresh(semaphore) && semaphore.Linked() && semaphore.View() == Sem(USIZE_MAX, [])
      ensures value == Free
    {
      semaphore := new Semaphore(USIZE_MAX);
      value := Free;
    }

    /** `borrow` or `borrow_mut` on the value, with the permit already in hand. */
    method Admit(permit: Permit, kind: Kind) returns (a: Access)
      requires permit.semaphore == semaphore
      modifies `value
      ensures Admitted(a, semaphore, permit.permits, kind, old(value), value)
    {
      match Borrow(value, kind) {
        case None => a := BorrowPanic;
        case Some(c) =>
          value := c;
          a := Guard(permit, kind);
      }
    }

    method Try(n: Usize, kind: Kind) returns (a: Access)
      requires semaphore.Linked()
      modifies `value, semaphore
      ensures semaphore.Linked() && semaphore.log == old(semaphore.log)
      ensures var s := old(semaphore.View());
        if FastPath(s, n) then
          && semaphore.View() == s.(permits := s.permits - n)
          && Admitted(a, semaphore, n, kind, old(value), value)
        else
          semaphore.View() == s && a == NotYet && value == old(value)
    {
      var ok := semaphore.TryAcquire(n);
      if !ok {
        return NotYet;
      }
      var permit := new Permit(semaphore, n);
      a := Admit(permit, kind);
    }

    method TryRead() returns (a: Access)
      requires semaphore.Linked()
      modifies `value, semaphore
      ensures semaphore.Linked() && semaphore.log == old(semaphore.log)
      ensures var s := old(semaphore.View());
        if FastPath(s, 1) then
          && semaphore.View() == s.(permits := s.permits - 1)
          && Admitted(a, semaphore, 1, Shared, old(value), value)
        else
          semaphore.View() == s && a == NotYet && value == old(value)
    {
      a := Try(1, Shared);
    }

    method TryWrite() returns (a: Access)
      requires semaphore.Linked()
      modifies `value, semaphore
      ensures semaphore.Linked() && semaphore.log == old(semaphore.log)
      ensures var s := old(semaphore.View());
        if FastPath(s, USIZE_MAX) then
          && semaphore.View() == s.(permits := s.permits - USIZE_MAX)
          && Admitted(a, semaphore, USIZE_MAX, Exclusive, old(value), value)
        else
          semaphore.View() == s && a == NotYet && value == old(value)
    {
      a := Try(USIZE_MAX, Exclusive);
    }

    /** One poll of the future behind `read` (shared) or `write` (exclusive). */
    method Poll(acquire: Acquire, kind: Kind, waker: Waker, vacant: Key) returns (a: Access)
      requires acquire.semaphore == semaphore && acquire.permits == Amount(USIZE_MAX, kind)
      requires semaphore.Linked() && vacant !in semaphore.waiters
      modifies `value, semaphore, acquire
      ensures semaphore.Linked()
      ensures var out := PollAcquire(old(semaphore.View()), acquire.permits, old(acquire.state), waker, vacant);
        && semaphore.View() == out.sem && acquire.state == out.state
        && semaphore.log == old(semaphore.log) + out.log
        && match out.result
           case Ready => Admitted(a, semaphore, acquire.permits, kind, old(value), value)
           case Pending => a == NotYet && value == old(value)
           case Panic => a == PollPanic && value == old(value)
    {
      var r := acquire.Poll(waker, vacant);
      match r {
        case Ready =>
          var permit := new Permit(semaphore, acquire.permits);
          a := Admit(permit, kind);
        case Pending => a := NotYet;
        case Panic => a := PollPanic;
      }
    }

    /** Dropping a guard ends its borrow first and gives the permit back second. */
    method DropGuard(guard: Access) returns (ok: bool)
      requires guard.Guard? && guard.permit.semaphore == semaphore && semaphore.Linked()
      modifies `value, semaphore
      ensures semaphore.Linked() && value == Release(old(value))
      ensures var out := AddPermits(old(semaphore.View()), guard.permit.permits);
        semaphore.View() == out.sem && ok == out.ok && semaphore.log == old(semaphore.log) + out.log
    {
      value := Release(value);
      ok := guard.permit.Drop();
    }
  }

  class Mutex {
    const semaphore: Semaphore
    var value: Cell

    constructor ()
      ensures fresh(semaphore) && semaphore.Linked() && semaphore.View() == Sem(1, []) && value == Free
    {
      semaphore := new Semaphore(1);
      value := Free;
    }

    method Admit(permit: Permit) returns (a: Access)
      requires permit.semaphore == semaphore
      modifies `value
      ensures Admitted(a, semaphore, permit.permits, Exclusive, old(value), value)
    {
      match Borrow(value, Exclusive) {
        case None => a := BorrowPanic;
        case Some(c) =>
          value := c;
          a := Guard(permit, Exclusive);
      }
    }

    method TryLock() returns (a: Access)
      requires semaphore.Linked()
      modifies `value, semaphore
      ensures semaphore.Linked() && semaphore.log == old(semaphore.log)
      ensures var s := old(semaphore.View());
        if FastPath(s, 1) then
          && semaphore.View() == s.(permits := s.permits - 1)
          && Admitted(a, semaphore, 1, Exclusive, old(value), value)
        else
          semaphore.View() == s && a == NotYet && value == old(value)
    {
      var ok := semaphore.TryAcquire(1);
      if !ok {
        return NotYet;
      }
      var permit := new Permit(semaphore, 1);
      a := Admit(permit);
    }

    method PollLock(acquire: Acquire, waker: Waker, vacant: Key) returns (a: Access)
      requires acquire.semaphore == semaphore && acquire.permits == 1
      requires semaphore.Linked() && vacant !in semaphore.waiters
      modifies `value, semaphore, acquire
      ensures semaphore.Linked()
      ensures var out := PollAcquire(old(semaphore.View()), 1, old(acquire.state), waker, vacant);
        && semaphore.View() == out.sem && acquire.state == out.state
        && semaphore.log == old(semaphore.log) + out.log
        && match out.result
           case Ready => Admitted(a, semaphore, 1, Exclusive, old(value), value)
           case Pending => a == NotYet && value == old(value)
           case Panic => a == PollPanic && value == old(value)
    {
      var r := acquire.Poll(waker, vacant);
      match r {
        case Ready =>
          var permit := new Permit(semaphore, 1);
          a := Admit(permit);
        case Pending => a := NotYet;
        case Panic => a := PollPanic;
      }
    }

    method DropGuard(guard: Access) returns (ok: bool)
      requires guard.Guard? && guard.permit.semaphore == semaphore && semaphore.Linked()
      modifies `value, semaphore
      ensures semaphore.Linked() && value == Release(old(value))
      ensures var out := AddPermits(old(semaphore.View()), guard.permit.permits);
        semaphore.View() == out.sem && ok == out.ok && semaphore.log == old(semaphore.log) + out.log
    {
      value := Release(value);
      ok := guard.permit.Drop();
    }
  }
}
