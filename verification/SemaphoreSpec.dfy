/** The fair semaphore as a value: free permits and a queue, oldest waiter first.
    Everything the linked list in `Semaphore` does is specified by these functions. */
module SemaphoreSpec {
  import opened Common

  type Key = nat
  type Waker = nat

  datatype Waiter = Waiter(key: Key, waker: Waker, required: nat, woke: bool)
  datatype Sem = Sem(permits: nat, queue: seq<Waiter>)

  /** A call of the waker stored for the waiter in slot `key`. */
  datatype Signal = Signal(key: Key, waker: Waker)

  datatype AcquireState = Idle | Waiting(key: Key) | Done
  datatype Poll = Ready | Pending | Panic

  /** The sum of the waiters' requirements. */
  function Need(q: seq<Waiter>): nat {
    if q == [] then 0 else q[0].required + Need(q[1..])
  }

  /** What one walk of `wake` from the oldest waiter does to the flags. */
  function Wake(q: seq<Waiter>, permits: nat): (r: seq<Waiter>)
    ensures |r| == |q|
  {
    if q == [] || permits < q[0].required then q
    else [q[0].(woke := true)] + Wake(q[1..], permits - q[0].required)
  }

  /** Raising a waiter's flag calls its waker, unless the flag is up already ... */
  function Called(w: Waiter): seq<Signal> {
    if w.woke then [] else [Signal(w.key, w.waker)]
  }

  /** ... so these are the wakers that `wake` calls, in order. */
  function Signals(q: seq<Waiter>, permits: nat): seq<Signal> {
    if q == [] || permits < q[0].required then []
    else Called(q[0]) + Signals(q[1..], permits - q[0].required)
  }

  predicate HasKey(q: seq<Waiter>, key: Key) {
    exists i :: 0 <= i < |q| && q[i].key == key
  }

  function Find(q: seq<Waiter>, key: Key): (i: nat)
    requires HasKey(q, key)
    ensures i < |q| && q[i].key == key
  {
    if q[0].key == key then 0 else
    assert HasKey(q[1..], key) by {
      var j :| 0 <= j < |q| && q[j].key == key;
      assert q[1..][j - 1].key == key;
    }
    1 + Find(q[1..], key)
  }

  function Without(q: seq<Waiter>, i: nat): seq<Waiter>
    requires i < |q|
  {
    q[..i] + q[i + 1..]
  }

  function WokenBy(permits: nat, q: seq<Waiter>): Sem {
    Sem(permits, Wake(q, permits))
  }

  /** Whether the fast path of `acquire` and `try_acquire` succeeds. */
  predicate FastPath(s: Sem, required: nat) {
    s.permits >= required && (s.queue == [] || required == 0)
  }

  datatype PollOut = PollOut(sem: Sem, state: AcquireState, result: Poll, log: seq<Signal>)

  /** One poll of an acquire future; `vacant` is the slot the slab would hand out. */
  function PollAcquire(s: Sem, required: nat, state: AcquireState, waker: Waker, vacant: Key): PollOut {
    match state
    case Idle =>
      if FastPath(s, required) then
        PollOut(s.(permits := s.permits - required), Idle, Ready, [])
      else
        PollOut(s.(queue := s.queue + [Waiter(vacant, waker, required, false)]), Waiting(vacant), Pending, [])
    case Waiting(key) =>
      if !HasKey(s.queue, key) then PollOut(s, state, Panic, [])
      else
        var i := Find(s.queue, key);
        var w := s.queue[i];
        if !w.woke then
          PollOut(s.(queue := s.queue[i := w.(waker := waker)]), state, Pending, [])
        else if s.permits < w.required then
          PollOut(s, state, Panic, [])
        else
          var left := s.permits - w.required;
          var rest := Without(s.queue, i);
          PollOut(WokenBy(left, rest), Done, Ready, Signals(rest, left))
    case Done => PollOut(s, state, Panic, [])
  }

  datatype Out = Out(sem: Sem, ok: bool, log: seq<Signal>)

  /** Dropping an acquire future; `ok` is false when the slab lookup panics. */
  function DropAcquire(s: Sem, state: AcquireState): Out {
    if !state.Waiting? then Out(s, true, [])
    else if !HasKey(s.queue, state.key) then Out(s, false, [])
    else
      var rest := Without(s.queue, Find(s.queue, state.key));
      Out(WokenBy(s.permits, rest), true, Signals(rest, s.permits))
  }

  /** `ok` is false when the addition overflows and panics. */
  function AddPermits(s: Sem, n: nat): Out {
    if n == 0 then Out(s, true, [])
    else if s.permits + n > USIZE_MAX then Out(s, false, [])
    else Out(WokenBy(s.permits + n, s.queue), true, Signals(s.queue, s.permits + n))
  }

  // ----- prefix sums

  lemma {:induction false} NeedConcat(a: seq<Waiter>, b: seq<Waiter>)
    ensures Need(a + b) == Need(a) + Need(b)
  {
    if a == [] {
      assert a + b == b;
    } else {
      NeedConcat(a[1..], b);
      assert (a + b)[1..] == a[1..] + b;
    }
  }

  lemma NeedStep(q: seq<Waiter>, i: nat)
    requires i < |q|
    ensures Need(q[..i + 1]) == Need(q[..i]) + q[i].required
  {
    NeedConcat(q[..i], [q[i]]);
    assert q[..i + 1] == q[..i] + [q[i]];
  }

  lemma NeedGrows(q: seq<Waiter>, i: nat, j: nat)
    requires i <= j <= |q|
    ensures Need(q[..i]) <= Need(q[..j])
  {
    NeedConcat(q[..i], q[i..j]);
    assert q[..j] == q[..i] + q[i..j];
  }

  lemma NeedWithout(q: seq<Waiter>, i: nat, n: nat)
    requires i < |q| && n <= |q| - 1
    ensures n <= i ==> Need(Without(q, i)[..n]) == Need(q[..n])
    ensures n > i ==> Need(Without(q, i)[..n]) + q[i].required == Need(q[..n + 1])
  {
    if n <= i {
      assert Without(q, i)[..n] == q[..n];
    } else {
      var tail := q[i + 1..n + 1];
      assert Without(q, i)[..n] == q[..i] + tail;
      assert q[..n + 1] == q[..i] + ([q[i]] + tail);
      NeedConcat(q[..i], tail);
      NeedConcat([q[i]], tail);
      NeedConcat(q[..i], [q[i]] + tail);
    }
  }

  // ----- what a wake does, without mentioning the walk

  /** `wake` raises the flag of exactly those waiters that fit together with everyone
      ahead of them, and touches nothing else. */
  lemma {:induction false} WakeMarksWhatFits(q: seq<Waiter>, permits: nat)
    ensures forall i :: 0 <= i < |q| ==>
      Wake(q, permits)[i] == q[i].(woke := q[i].woke || Need(q[..i + 1]) <= permits)
  {
    if q == [] {
    } else if permits < q[0].required {
      forall n | 1 <= n <= |q| ensures Need(q[..n]) > permits {
        NeedGrows(q, 1, n);
        NeedStep(q, 0);
      }
    } else {
      var rest := q[1..];
      WakeMarksWhatFits(rest, permits - q[0].required);
      forall i | 0 <= i < |q|
        ensures Wake(q, permits)[i] == q[i].(woke := q[i].woke || Need(q[..i + 1]) <= permits)
      {
        assert q[..i + 1] == [q[0]] + rest[..i];
        NeedConcat([q[0]], rest[..i]);
        if i > 0 {
          assert Wake(q, permits)[i] == Wake(rest, permits - q[0].required)[i - 1];
        }
      }
    }
  }

  /** The waiters whose flag differs between two snapshots of a queue, oldest first. */
  function Raised(before: seq<Waiter>, after: seq<Waiter>): seq<Signal>
    requires |before| == |after|
  {
    if before == [] then []
    else (if after[0].woke then Called(before[0]) else [])
         + Raised(before[1..], after[1..])
  }

  lemma {:induction false} RaisedNone(q: seq<Waiter>)
    ensures Raised(q, q) == []
  {
    if q == [] {
    } else {
      RaisedNone(q[1..]);
    }
  }

  /** A waker is called exactly when its waiter's flag goes up, in queue order. */
  lemma {:induction false} SignalsAreRaisedFlags(q: seq<Waiter>, permits: nat)
    ensures Signals(q, permits) == Raised(q, Wake(q, permits))
  {
    if q == [] || permits < q[0].required {
      RaisedNone(q);
    } else {
      SignalsAreRaisedFlags(q[1..], permits - q[0].required);
      assert Wake(q, permits)[1..] == Wake(q[1..], permits - q[0].required);
    }
  }

  // ----- the unwritten invariant of the semaphore

  /** Woken waiters come before all others. */
  ghost predicate OldestWoken(q: seq<Waiter>) {
    forall i, j :: 0 <= i < j < |q| && q[j].woke ==> q[i].woke
  }

  /** The requirements of the woken waiters fit together in the free permits. */
  ghost predicate GrantsFit(q: seq<Waiter>, permits: nat) {
    forall i :: 0 <= i < |q| && q[i].woke ==> Need(q[..i + 1]) <= permits
  }

  /** The oldest waiter has been told, unless its requirement cannot be met now. */
  ghost predicate NoLostWakeup(s: Sem) {
    s.queue != [] ==> s.queue[0].woke || s.permits < s.queue[0].required
  }

  ghost predicate KeysDistinct(q: seq<Waiter>) {
    forall i, j :: 0 <= i < j < |q| ==> q[i].key != q[j].key
  }

  ghost predicate NoneTrivial(q: seq<Waiter>) {
    forall i :: 0 <= i < |q| ==> q[i].required >= 1
  }

  ghost predicate Safe(s: Sem) {
    && OldestWoken(s.queue)
    && GrantsFit(s.queue, s.permits)
    && NoLostWakeup(s)
    && KeysDistinct(s.queue)
    && NoneTrivial(s.queue)
    && s.permits <= USIZE_MAX
  }

  /** Any `wake` whose woken waiters still fit re-establishes the invariant, and then
      the flag is up on exactly the longest prefix that fits. */
  lemma WakeRestores(q: seq<Waiter>, permits: nat)
    requires OldestWoken(q) && GrantsFit(q, permits) && KeysDistinct(q) && NoneTrivial(q)
    requires permits <= USIZE_MAX
    ensures Safe(WokenBy(permits, q))
    ensures forall i :: 0 <= i < |q| ==> (Wake(q, permits)[i].woke <==> Need(q[..i + 1]) <= permits)
  {
    WakeMarksWhatFits(q, permits);
    var r := Wake(q, permits);
    forall i | 0 <= i <= |q| ensures Need(r[..i]) == Need(q[..i]) {
      SameNeed(r[..i], q[..i]);
    }
    forall i, j | 0 <= i < j < |q| && r[j].woke ensures r[i].woke {
      NeedGrows(q, i + 1, j + 1);
    }
    if q != [] {
      NeedStep(q, 0);
    }
  }

  lemma {:induction false} SameNeed(a: seq<Waiter>, b: seq<Waiter>)
    requires |a| == |b|
    requires forall i :: 0 <= i < |a| ==> a[i].required == b[i].required
    ensures Need(a) == Need(b)
  {
    if a == [] {
    } else {
      SameNeed(a[1..], b[1..]);
    }
  }

  /** Taking any waiter out keeps the grants of the others within the permits; taking
      out a woken one keeps them within the permits that are left after paying it. */
  lemma LeaveKeepsGrants(q: seq<Waiter>, i: nat, permits: nat)
    requires i < |q|
    requires OldestWoken(q) && GrantsFit(q, permits)
    ensures OldestWoken(Without(q, i)) && GrantsFit(Without(q, i), permits)
    ensures q[i].woke ==>
      q[i].required <= permits && GrantsFit(Without(q, i), permits - q[i].required)
  {
    var r := Without(q, i);
    forall j | 0 <= j < |r| && r[j].woke
      ensures Need(r[..j + 1]) <= permits
      ensures q[i].woke ==> Need(r[..j + 1]) + q[i].required <= permits
    {
      NeedWithout(q, i, j + 1);
      NeedGrows(q, j + 1, j + 2);
      if j < i {
        NeedGrows(q, j + 1, i);
      }
      NeedStep(q, i);
    }
    NeedStep(q, i);
  }

  lemma LeaveKeepsKeys(q: seq<Waiter>, i: nat)
    requires i < |q| && KeysDistinct(q)
    ensures KeysDistinct(Without(q, i)) && (NoneTrivial(q) ==> NoneTrivial(Without(q, i)))
    ensures !HasKey(Without(q, i), q[i].key)
  {
  }

  /** The three ways the queue can be woken from a safe state. */
  lemma LeaveIsSafe(s: Sem, i: nat)
    requires Safe(s) && i < |s.queue|
    ensures Safe(WokenBy(s.permits, Without(s.queue, i)))
    ensures s.queue[i].woke ==>
      && s.queue[i].required <= s.permits
      && Safe(WokenBy(s.permits - s.queue[i].required, Without(s.queue, i)))
  {
    LeaveKeepsGrants(s.queue, i, s.permits);
    LeaveKeepsKeys(s.queue, i);
    WakeRestores(Without(s.queue, i), s.permits);
    if s.queue[i].woke {
      WakeRestores(Without(s.queue, i), s.permits - s.queue[i].required);
    }
  }

  /** A waiter that joins behind others never breaks the invariant, though it may fit
      without being told: the waiter at the head is then already woken. */
  lemma JoinIsSafe(s: Sem, w: Waiter)
    requires Safe(s) && !HasKey(s.queue, w.key) && !w.woke && !FastPath(s, w.required)
    ensures Safe(s.(queue := s.queue + [w]))
  {
    var q := s.queue + [w];
    forall i | 0 <= i < |q| && q[i].woke ensures Need(q[..i + 1]) <= s.permits {
      assert q[..i + 1] == s.queue[..i + 1];
    }
  }
}
