/** The semaphore as the source keeps it: a doubly linked list threaded through a slab.
    Every method is proved equal to a function of `SemaphoreSpec`. */
module Semaphores {
  import opened Common
  import opened SemaphoreSpec

  datatype Node = Node(waker: Option<Waker>, next: Option<Key>, prev: Option<Key>, required: Usize, woke: bool)

  /** The list read off the slab, oldest first. */
  function QueueOf(order: seq<Key>, slab: map<Key, Node>): seq<Waiter> {
    seq(|order|, i requires 0 <= i < |order| => AsWaiter(order[i], slab))
  }

  function AsWaiter(key: Key, slab: map<Key, Node>): Waiter {
    if key in slab && slab[key].waker.Some? then
      Waiter(key, slab[key].waker.value, slab[key].required, slab[key].woke)
    else
      Waiter(key, 0, 0, false)
  }

  /** `prev` points to the next younger waiter and `next` to the next older one. */
  ghost predicate LinkOk(order: seq<Key>, slab: map<Key, Node>, i: nat)
    requires i < |order|
  {
    && order[i] in slab
    && slab[order[i]].prev == (if i + 1 < |order| then Some(order[i + 1]) else None)
    && slab[order[i]].next == (if i > 0 then Some(order[i - 1]) else None)
  }

  ghost predicate ListOk(order: seq<Key>, slab: map<Key, Node>, head: Option<Key>, tail: Option<Key>) {
    && (forall i, j :: 0 <= i < j < |order| ==> order[i] != order[j])
    && (forall k :: k in order ==> k in slab && slab[k].waker.Some?)
    && (forall k :: k in slab ==> k in order)
    && (forall i :: 0 <= i < |order| ==> LinkOk(order, slab, i))
    && tail == (if order == [] then None else Some(order[0]))
    && head == (if order == [] then None else Some(order[|order| - 1]))
  }

  /** The slab after the node at `key` is taken out and its neighbours point past it. */
  ghost predicate Unlinked(slab: map<Key, Node>, key: Key, slab': map<Key, Node>) {
    && key in slab
    && slab'.Keys == slab.Keys - {key}
    && forall k :: k in slab' ==> slab'[k] == slab[k].(
         next := if slab[key].prev == Some(k) then slab[key].next else slab[k].next,
         prev := if slab[key].next == Some(k) then slab[key].prev else slab[k].prev)
  }

  /** Positions of a list before and after its `i`-th entry is cut out. */
  function Shift(i: nat, j: nat): nat {
    if j < i then j else j + 1
  }

  lemma CutMembers(order: seq<Key>, i: nat)
    requires i < |order| && forall m, n :: 0 <= m < n < |order| ==> order[m] != order[n]
    ensures var rest := order[..i] + order[i + 1..];
      && (forall k :: k in rest <==> k in order && k != order[i])
      && (forall m, n :: 0 <= m < n < |rest| ==> rest[m] != rest[n])
  {
    var rest := order[..i] + order[i + 1..];
    forall m, n | 0 <= m < n < |rest| ensures rest[m] != rest[n] {
      assert rest[m] == order[Shift(i, m)] && rest[n] == order[Shift(i, n)];
    }
    forall k | k in rest ensures k in order && k != order[i] {
      var j :| 0 <= j < |rest| && rest[j] == k;
      assert k == order[Shift(i, j)];
    }
    forall k | k in order && k != order[i] ensures k in rest {
      var j :| 0 <= j < |order| && order[j] == k;
      assert rest[if j < i then j else j - 1] == k;
    }
  }

  lemma CutLink(order: seq<Key>, slab: map<Key, Node>, i: nat, slab': map<Key, Node>, j: nat)
    requires i < |order| && j + 1 < |order|
    requires forall m, n :: 0 <= m < n < |order| ==> order[m] != order[n]
    requires forall n :: 0 <= n < |order| ==> LinkOk(order, slab, n)
    requires Unlinked(slab, order[i], slab')
    ensures LinkOk(order[..i] + order[i + 1..], slab', j)
  {
    var rest := order[..i] + order[i + 1..];
    var k := order[Shift(i, j)];
    assert rest[j] == k;
    assert LinkOk(order, slab, i) && LinkOk(order, slab, Shift(i, j));
    assert j + 1 < |rest| ==> rest[j + 1] == order[Shift(i, j + 1)];
    assert j > 0 ==> rest[j - 1] == order[Shift(i, j - 1)];
    assert slab[order[i]].prev == Some(k) <==> j == i;
    assert slab[order[i]].next == Some(k) <==> j + 1 == i;
  }

  lemma CutEnds(order: seq<Key>, slab: map<Key, Node>, head: Option<Key>, tail: Option<Key>, i: nat)
    requires i < |order| && LinkOk(order, slab, i)
    requires tail == Some(order[0]) && head == Some(order[|order| - 1])
    ensures var rest := order[..i] + order[i + 1..];
      && (if slab[order[i]].prev.None? then slab[order[i]].next else head)
         == (if rest == [] then None else Some(rest[|rest| - 1]))
      && (if slab[order[i]].next.None? then slab[order[i]].prev else tail)
         == (if rest == [] then None else Some(rest[0]))
  {
  }

  /** Unlinking any position leaves a well-formed list without that waiter and with the
      others in order. */
  lemma UnlinkKeepsList(order: seq<Key>, slab: map<Key, Node>, head: Option<Key>, tail: Option<Key>,
                        i: nat, slab': map<Key, Node>, head': Option<Key>, tail': Option<Key>)
    requires ListOk(order, slab, head, tail) && i < |order|
    requires Unlinked(slab, order[i], slab')
    requires head' == (if slab[order[i]].prev.None? then slab[order[i]].next else head)
    requires tail' == (if slab[order[i]].next.None? then slab[order[i]].prev else tail)
    ensures ListOk(order[..i] + order[i + 1..], slab', head', tail')
  {
    var rest := order[..i] + order[i + 1..];
    CutMembers(order, i);
    assert LinkOk(order, slab, i);
    forall j | 0 <= j < |rest| ensures LinkOk(rest, slab', j) {
      CutLink(order, slab, i, slab', j);
    }
    CutEnds(order, slab, head, tail, i);
  }

  lemma UnlinkCutsQueue(order: seq<Key>, slab: map<Key, Node>, i: nat, slab': map<Key, Node>)
    requires i < |order| && forall m, n :: 0 <= m < n < |order| ==> order[m] != order[n]
    requires Unlinked(slab, order[i], slab') && forall k :: k in order ==> k in slab
    ensures QueueOf(order[..i] + order[i + 1..], slab') == Without(QueueOf(order, slab), i)
  {
    var rest := order[..i] + order[i + 1..];
    var q, q' := QueueOf(order, slab), QueueOf(rest, slab');
    CutMembers(order, i);
    forall j | 0 <= j < |rest| ensures q'[j] == Without(q, i)[j] {
      assert rest[j] == order[Shift(i, j)] && rest[j] in rest;
      assert Without(q, i)[j] == q[Shift(i, j)];
    }
  }

  /** Changing a waiter's own data leaves the links alone. */
  lemma UpdateKeepsList(order: seq<Key>, slab: map<Key, Node>, head: Option<Key>, tail: Option<Key>, i: nat, n: Node)
    requires ListOk(order, slab, head, tail) && i < |order| && order[i] in slab
    requires n.waker.Some? && n.next == slab[order[i]].next && n.prev == slab[order[i]].prev
    ensures ListOk(order, slab[order[i] := n], head, tail)
    ensures QueueOf(order, slab[order[i] := n]) == QueueOf(order, slab)[i := AsWaiter(order[i], slab[order[i] := n])]
  {
    var slab' := slab[order[i] := n];
    forall j | 0 <= j < |order| ensures LinkOk(order, slab', j) {
      assert LinkOk(order, slab, j);
    }
  }

  /** What a wake comes to when flags are up on `done`, `called` were called, and `rest`
      is still to be woken with the permits that are left. */
  function Finish(done: seq<Waiter>, rest: seq<Waiter>, left: nat, called: seq<Signal>): (seq<Waiter>, seq<Signal>) {
    (done + Wake(rest, left), called + Signals(rest, left))
  }

  /** One turn of the walk changes nothing about that. */
  lemma WalkOn(done: seq<Waiter>, rest: seq<Waiter>, left: nat, called: seq<Signal>)
    requires rest != [] && rest[0].required <= left
    ensures Finish(done + [rest[0].(woke := true)], rest[1..], left - rest[0].required, called + Called(rest[0]))
      == Finish(done, rest, left, called)
    ensures (done + rest)[|done| := rest[0].(woke := true)] == done + [rest[0].(woke := true)] + rest[1..]
  {
    Assoc(done, [rest[0].(woke := true)], Wake(rest[1..], left - rest[0].required));
    Assoc(called, Called(rest[0]), Signals(rest[1..], left - rest[0].required));
  }

  class Semaphore {
    var permits: Usize
    var waiters: map<Key, Node>
    var head: Option<Key>
    var tail: Option<Key>

    /** The keys from `tail` to `head`, that is oldest first. */
    ghost var order: seq<Key>
    /** Every waker called so far. */
    ghost var log: seq<Signal>

    ghost predicate Linked()
      reads this
    {
      ListOk(order, waiters, head, tail)
    }

    ghost function View(): Sem
      reads this
    {
      Sem(permits, QueueOf(order, waiters))
    }

    constructor (permits: Usize)
      ensures Linked() && View() == Sem(permits, []) && log == []
    {
      this.permits := permits;
      waiters, head, tail := map[], None, None;
      order, log := [], [];
    }

    /** Links a waiter in at the head; `key` is the slab's vacant slot. */
    method Add(waker: Waker, required: Usize, key: Key)
      requires Linked() && key !in waiters
      modifies this
      ensures Linked() && log == old(log)
      ensures View() == old(View()).(queue := old(View()).queue + [Waiter(key, waker, required, false)])
      ensures waiters.Keys == old(waiters.Keys) + {key}
    {
      waiters := waiters[key := Node(Some(waker), head, None, required, false)];
      var oldHead := head;
      head := Some(key);
      if oldHead.Some? {
        waiters := waiters[oldHead.value := waiters[oldHead.value].(prev := Some(key))];
      }
      if tail.None? {
        tail := Some(key);
      }
      order := order + [key];
      forall i | 0 <= i < |order| ensures LinkOk(order, waiters, i) {
        assert i + 1 < |order| ==> LinkOk(old(order), old(waiters), i);
      }
      assert View().queue == old(View()).queue + [Waiter(key, waker, required, false)];
    }

    /** Takes the node out of the slab and points its neighbours past it. */
    method Unlink(key: Key, ghost i: nat)
      requires Linked() && i < |order| && order[i] == key
      modifies this`waiters, this`head, this`tail
      ensures Unlinked(old(waiters), key, waiters)
      ensures head == (if old(waiters)[key].prev.None? then old(waiters)[key].next else old(head))
      ensures tail == (if old(waiters)[key].next.None? then old(waiters)[key].prev else old(tail))
    {
      assert key in order && LinkOk(order, waiters, i);
      var waiter := waiters[key];
      waiters := waiters - {key};
      match waiter.prev {
        case None => head := waiter.next;
        case Some(prev) =>
          assert order[i + 1] in order;
          waiters := waiters[prev := waiters[prev].(next := waiter.next)];
      }
      match waiter.next {
        case None => tail := waiter.prev;
        case Some(next) =>
          assert order[i - 1] in order;
          waiters := waiters[next := waiters[next].(prev := waiter.prev)];
      }
    }

    /** Removes the waiter in slot `key`, which is the `i`-th oldest. */
    method Remove(key: Key, ghost i: nat)
      requires Linked() && i < |order| && order[i] == key
      modifies this
      ensures Linked() && log == old(log) && permits == old(permits)
      ensures View().queue == Without(old(View()).queue, i)
      ensures waiters.Keys == old(waiters.Keys) - {key}
    {
      Unlink(key, i);
      UnlinkKeepsList(order, old(waiters), old(head), old(tail), i, waiters, head, tail);
      UnlinkCutsQueue(order, old(waiters), i, waiters);
      order := order[..i] + order[i + 1..];
    }

    /** Raises the flag of the waiter in slot `key` and calls its waker, if it is down. */
    method Raise(key: Key, ghost i: nat)
      requires Linked() && i < |order| && order[i] == key
      modifies this
      ensures Linked() && order == old(order) && permits == old(permits)
      ensures waiters.Keys == old(waiters.Keys)
      ensures waiters[key].prev == old(waiters[key].prev)
      ensures View().queue == old(View()).queue[i := old(View()).queue[i].(woke := true)]
      ensures log == old(log) + Called(old(View()).queue[i])
    {
      var waiter := waiters[key];
      UpdateKeepsList(order, waiters, head, tail, i, waiter.(woke := true));
      if !waiter.woke {
        waiters := waiters[key := waiter.(woke := true)];
        if waiter.waker.Some? {
          log := log + [Signal(key, waiter.waker.value)];
        }
      }
    }

    /** One turn of the walk, at the waiter in slot `key`: raise its flag and move on to the
        next younger one, unless it does not fit. */
    method Visit(key: Key, left: Usize, ghost done: seq<Waiter>, ghost rest: seq<Waiter>)
      returns (fits: bool, left': Usize, next: Option<Key>)
      requires Linked() && View().queue == done + rest && rest != [] && rest[0].key == key
      modifies this
      ensures Linked() && order == old(order) && permits == old(permits)
      ensures waiters.Keys == old(waiters.Keys)
      ensures fits == (left >= rest[0].required)
      ensures !fits ==> View() == old(View()) && log == old(log)
      ensures fits ==>
        && View().queue == done + [rest[0].(woke := true)] + rest[1..]
        && log == old(log) + Called(rest[0])
        && left' == left - rest[0].required
        && next == (if |rest| == 1 then None else Some(rest[1].key))
    {
      ghost var i := |done|;
      assert View().queue[i] == rest[0] && LinkOk(order, waiters, i);
      assert |rest| > 1 ==> View().queue[i + 1] == rest[1];
      var waiter := waiters[key];
      if left < waiter.required {
        return false, 0, None;
      }
      WalkOn(done, rest, left, []);
      Raise(key, i);
      return true, left - waiter.required, waiter.prev;
    }

    /** Walks from the tail, raising flags while the next waiter still fits. */
    method Wake()
      requires Linked()
      modifies this
      ensures Linked() && View() == WokenBy(permits, old(View()).queue)
      ensures log == old(log) + Signals(old(View()).queue, permits)
      ensures permits == old(permits) && waiters.Keys == old(waiters.Keys)
    {
      ghost var q := View().queue;
      ghost var done, rest: seq<Waiter>, called: seq<Signal> := [], q, [];
      var left: Usize := permits;
      var cursor := tail;
      while cursor.Some?
        invariant Linked() && order == old(order) && permits == old(permits)
        invariant waiters.Keys == old(waiters.Keys)
        invariant View().queue == done + rest
        invariant cursor == (if rest == [] then None else Some(rest[0].key))
        invariant Finish(done, rest, left, called) == Finish([], q, permits, [])
        invariant log == old(log) + called
        decreases |rest|
      {
        ghost var w := rest[0];
        var fits, left', next := Visit(cursor.value, left, done, rest);
        if !fits {
          break;
        }
        WalkOn(done, rest, left, called);
        Assoc(old(log), called, Called(w));
        left, cursor := left', next;
        done, rest, called := done + [w.(woke := true)], rest[1..], called + Called(w);
      }
      assert Finish(done, rest, left, called) == (done + rest, called + []);
      assert Finish([], q, permits, []).0 == SemaphoreSpec.Wake(q, permits);
      assert Finish([], q, permits, []).1 == Signals(q, permits);
    }

    method TryAcquire(required: Usize) returns (ok: bool)
      requires Linked()
      modifies this
      ensures Linked() && log == old(log) && waiters == old(waiters)
      ensures ok == FastPath(old(View()), required)
      ensures View() == if ok then old(View()).(permits := old(permits) - required) else old(View())
    {
      assert waiters == map[] <==> order == [] by {
        if order == [] { assert waiters.Keys == {}; } else { assert order[0] in order; }
      }
      if permits >= required && (waiters == map[] || required == 0) {
        permits := permits - required;
        ok := true;
      } else {
        ok := false;
      }
    }

    /** A poll of the future that waits in slot `key`: a woken waiter pays and leaves, any
        other one only renews its waker. The slab lookup and the assertion before the
        payment are the two panics. */
    method PollWaiting(key: Key, waker: Waker) returns (state': AcquireState, r: Poll)
      requires Linked()
      modifies this
      ensures Linked()
      ensures var out := SemaphoreSpec.PollAcquire(old(View()), 0, Waiting(key), waker, 0);
        View() == out.sem && state' == out.state && r == out.result && log == old(log) + out.log
    {
      ghost var q := View().queue;
      state', r := Waiting(key), Panic;
      KeysMatch(key);
      if key !in waiters {
        return;
      }
      var waiter := waiters[key];
      if waiter.woke {
        if permits < waiter.required {
          return;
        }
        permits := permits - waiter.required;
        Remove(key, Find(q, key));
        Wake();
        state', r := Done, Ready;
      } else {
        UpdateKeepsList(order, waiters, head, tail, Find(q, key), waiter.(waker := Some(waker)));
        if waiter.waker != Some(waker) {
          waiters := waiters[key := waiter.(waker := Some(waker))];
        }
        r := Pending;
      }
    }

    /** The future's poll; polling it again once it is done panics. */
    method PollAcquire(required: Usize, state: AcquireState, waker: Waker, vacant: Key)
      returns (state': AcquireState, r: Poll)
      requires Linked() && vacant !in waiters
      modifies this
      ensures Linked()
      ensures var out := SemaphoreSpec.PollAcquire(old(View()), required, state, waker, vacant);
        View() == out.sem && state' == out.state && r == out.result && log == old(log) + out.log
    {
      match state {
        case Idle =>
          var ok := TryAcquire(required);
          if ok {
            state', r := Idle, Ready;
          } else {
            Add(waker, required, vacant);
            state', r := Waiting(vacant), Pending;
          }
        case Waiting(key) => state', r := PollWaiting(key, waker);
        case Done => state', r := Done, Panic;
      }
    }

    lemma KeysMatch(key: Key)
      requires Linked()
      ensures HasKey(View().queue, key) <==> key in waiters
      ensures HasKey(View().queue, key) ==>
        && View().queue[Find(View().queue, key)] == AsWaiter(key, waiters)
        && order[Find(View().queue, key)] == key
    {
      if key in waiters {
        var i :| 0 <= i < |order| && order[i] == key;
        assert View().queue[i].key == key;
      }
    }

    /** `ok` is false when the addition overflows, which panics before anything changed. */
    method AddPermits(n: Usize) returns (ok: bool)
      requires Linked()
      modifies this
      ensures Linked()
      ensures var out := SemaphoreSpec.AddPermits(old(View()), n);
        View() == out.sem && ok == out.ok && log == old(log) + out.log
    {
      if n == 0 {
        return true;
      }
      if permits + n > USIZE_MAX {
        return false;
      }
      permits := permits + n;
      assert View().queue == old(View()).queue;
      Wake();
      ok := true;
    }
  }

  /** The future behind `acquire`. */
  class Acquire {
    const semaphore: Semaphore
    const permits: Usize
    var state: AcquireState

    constructor (semaphore: Semaphore, permits: Usize)
      ensures this.semaphore == semaphore && this.permits == permits && state == Idle
    {
      this.semaphore, this.permits, state := semaphore, permits, Idle;
    }

    method Poll(waker: Waker, vacant: Key) returns (r: Poll)
      requires semaphore.Linked() && vacant !in semaphore.waiters
      modifies this, semaphore
      ensures semaphore.Linked()
      ensures var out := SemaphoreSpec.PollAcquire(old(semaphore.View()), permits, old(state), waker, vacant);
        && semaphore.View() == out.sem && state == out.state && r == out.result
        && semaphore.log == old(semaphore.log) + out.log
    {
      state, r := semaphore.PollAcquire(permits, state, waker, vacant);
    }

    method Drop() returns (ok: bool)
      requires semaphore.Linked()
      modifies semaphore
      ensures semaphore.Linked()
      ensures var out := DropAcquire(old(semaphore.View()), state);
        && semaphore.View() == out.sem && ok == out.ok
        && semaphore.log == old(semaphore.log) + out.log
    {
      ok := true;
      if state.Waiting? {
        semaphore.KeysMatch(state.key);
        if state.key !in semaphore.waiters {
          return false;
        }
        semaphore.Remove(state.key, Find(semaphore.View().queue, state.key));
        semaphore.Wake();
      }
    }
  }

  /** A granted permit; `forget` empties it so that its drop gives nothing back. */
  class Permit {
    const semaphore: Semaphore
    var permits: Usize

    constructor (semaphore: Semaphore, permits: Usize)
      ensures this.semaphore == semaphore && this.permits == permits
    {
      this.semaphore, this.permits := semaphore, permits;
    }

    method Drop() returns (ok: bool)
      requires semaphore.Linked()
      modifies semaphore
      ensures semaphore.Linked()
      ensures var out := AddPermits(old(semaphore.View()), permits);
        && semaphore.View() == out.sem && ok == out.ok
        && semaphore.log == old(semaphore.log) + out.log
    {
      ok := semaphore.AddPermits(permits);
    }

    method Forget()
      requires semaphore.Linked()
      modifies this, semaphore
      ensures semaphore.Linked() && semaphore.View() == old(semaphore.View())
      ensures semaphore.log == old(semaphore.log)
    {
      permits := 0;
      var _ := Drop();
    }
  }
}
