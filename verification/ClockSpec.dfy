/** The clock's alarms and the `Sleep` futures that registered them. Instants and durations
    are whole nanoseconds. */
module ClockSpec {
  import opened Common

  type Waker = nat
  type Instant = nat
  type Duration = nat

  const NANOS_PER_MILLI: nat := 1_000_000

  datatype Alarm = Alarm(at: Instant, id: nat, waker: Waker)

  /** `alarms` are the entries of the ordered map, in the order of their keys `(at, id)`. */
  datatype Clock = Clock(nextAlarm: nat, alarms: seq<Alarm>)

  predicate Before(a: Alarm, b: Alarm) {
    a.at < b.at || (a.at == b.at && a.id < b.id)
  }

  ghost predicate Sorted(alarms: seq<Alarm>) {
    forall i, j :: 0 <= i < j < |alarms| ==> Before(alarms[i], alarms[j])
  }

  // ----- the ordered map: insert, remove, split_off

  /** How many keys are below `(at, id)`. */
  function Rank(alarms: seq<Alarm>, at: Instant, id: nat): (r: nat)
    ensures r <= |alarms|
    ensures forall i :: 0 <= i < r ==> Before(alarms[i], Alarm(at, id, 0))
    ensures r < |alarms| ==> !Before(alarms[r], Alarm(at, id, 0))
  {
    if alarms == [] || !Before(alarms[0], Alarm(at, id, 0)) then 0 else 1 + Rank(alarms[1..], at, id)
  }

  predicate Has(alarms: seq<Alarm>, at: Instant, id: nat) {
    var r := Rank(alarms, at, id);
    r < |alarms| && alarms[r].at == at && alarms[r].id == id
  }

  function Remove(alarms: seq<Alarm>, at: Instant, id: nat): seq<Alarm> {
    var r := Rank(alarms, at, id);
    if Has(alarms, at, id) then alarms[..r] + alarms[r + 1..] else alarms
  }

  /** Replaces the waker when the key is there already. */
  function Insert(alarms: seq<Alarm>, a: Alarm): seq<Alarm> {
    var r := Rank(alarms, a.at, a.id);
    if Has(alarms, a.at, a.id) then alarms[r := a] else alarms[..r] + [a] + alarms[r..]
  }

  lemma InsertSorts(alarms: seq<Alarm>, a: Alarm)
    requires Sorted(alarms)
    ensures Sorted(Insert(alarms, a))
  {
  }

  lemma InsertMembers(alarms: seq<Alarm>, a: Alarm)
    requires Sorted(alarms)
    ensures forall b :: b in Insert(alarms, a) <==> b == a || (b in alarms && (b.at != a.at || b.id != a.id))
  {
    var r, s := Rank(alarms, a.at, a.id), Insert(alarms, a);
    var shift := if Has(alarms, a.at, a.id) then 0 else 1;
    assert s[r] == a;
    forall b | b in s && b != a ensures b in alarms && (b.at != a.at || b.id != a.id) {
      var i :| 0 <= i < |s| && s[i] == b;
      var j := if i < r then i else i - shift;
      assert b == alarms[j];
    }
    forall b | b in alarms && (b.at != a.at || b.id != a.id) ensures b in s {
      var i :| 0 <= i < |alarms| && alarms[i] == b;
      var j := if i < r then i else i + shift;
      assert s[j] == b;
    }
  }

  lemma RemoveMeets(alarms: seq<Alarm>, at: Instant, id: nat)
    requires Sorted(alarms)
    ensures Sorted(Remove(alarms, at, id))
    ensures forall b :: b in Remove(alarms, at, id) <==> b in alarms && (b.at != at || b.id != id)
    ensures Has(alarms, at, id) <==> exists w :: Alarm(at, id, w) in alarms
  {
    var r, s := Rank(alarms, at, id), Remove(alarms, at, id);
    if Has(alarms, at, id) {
      assert Alarm(at, id, alarms[r].waker) in alarms;
    }
    forall b | b in alarms && b.at == at && b.id == id ensures Has(alarms, at, id) {
      var i :| 0 <= i < |alarms| && alarms[i] == b;
      assert i == r;
    }
    forall b | b in alarms && (b.at != at || b.id != id) ensures b in s {
      var i :| 0 <= i < |alarms| && alarms[i] == b;
      assert Has(alarms, at, id) ==> s[if i < r then i else i - 1] == b;
    }
  }

  // ----- the clock's operations

  function InsertAlarm(c: Clock, at: Instant, waker: Waker): Clock {
    Clock(c.nextAlarm + 1, Insert(c.alarms, Alarm(at, c.nextAlarm, waker)))
  }

  function RemoveAlarm(c: Clock, id: nat, at: Instant): Clock {
    c.(alarms := Remove(c.alarms, at, id))
  }

  /** `None` is the panic of unwrapping an entry that is not there. */
  function ResetAlarm(c: Clock, id: nat, before: Instant, after: Instant): Option<Clock> {
    if !Has(c.alarms, before, id) then None
    else
      var waker := c.alarms[Rank(c.alarms, before, id)].waker;
      Some(c.(alarms := Insert(Remove(c.alarms, before, id), Alarm(after, id, waker))))
  }

  function ReplaceAlarmWaker(c: Clock, id: nat, at: Instant, waker: Waker): Option<Clock> {
    if !Has(c.alarms, at, id) then None
    else Some(c.(alarms := Insert(c.alarms, Alarm(at, id, waker))))
  }

  /** Whole milliseconds only, counted in a 64-bit word. */
  function WholeMillis(d: Duration): Duration {
    (d / NANOS_PER_MILLI) % (USIZE_MAX + 1) * NANOS_PER_MILLI
  }

  function Due(c: Clock, now: Instant): seq<Alarm> {
    c.alarms[..Rank(c.alarms, now + 1, 0)]
  }

  function Later(c: Clock, now: Instant): seq<Alarm> {
    c.alarms[Rank(c.alarms, now + 1, 0)..]
  }

  function WakersOf(alarms: seq<Alarm>): seq<Waker> {
    seq(|alarms|, i requires 0 <= i < |alarms| => alarms[i].waker)
  }

  /** The time the poller may be given, if the clock has a say in it. */
  function NextTimeout(c: Clock, now: Instant): Option<Duration> {
    if Due(c, now) != [] then Some(0)
    else if Later(c, now) == [] then None
    else Some(WholeMillis(Later(c, now)[0].at - now))
  }

  // ----- what a park does, without mentioning the map

  /** Exactly the alarms that are due fire, in the order of their deadlines. */
  lemma ParkFiresWhatIsDue(c: Clock, now: Instant)
    requires Sorted(c.alarms)
    ensures forall a :: a in Due(c, now) <==> a in c.alarms && a.at <= now
    ensures forall a :: a in Later(c, now) <==> a in c.alarms && a.at > now
    ensures Sorted(Due(c, now)) && Sorted(Later(c, now))
    ensures c.alarms == Due(c, now) + Later(c, now)
  {
    var r := Rank(c.alarms, now + 1, 0);
    InEither(c.alarms, r);
    forall a | a in Due(c, now) ensures a.at <= now {
      var i :| 0 <= i < r && c.alarms[i] == a;
    }
    forall a | a in Later(c, now) ensures a.at > now {
      var i :| r <= i < |c.alarms| && c.alarms[i] == a;
      assert i > r ==> Before(c.alarms[r], c.alarms[i]);
    }
  }

  lemma InEither(alarms: seq<Alarm>, r: nat)
    requires r <= |alarms|
    ensures alarms == alarms[..r] + alarms[r..]
    ensures forall a :: a in alarms <==> a in alarms[..r] || a in alarms[r..]
    ensures Sorted(alarms) ==> Sorted(alarms[..r]) && Sorted(alarms[r..])
  {
    assert alarms == alarms[..r] + alarms[r..];
  }

  /** A timeout from the clock never reaches past the earliest alarm, and falls short of it
      by less than a millisecond exactly when the wait fits a 64-bit count of those. It
      reaches the alarm, as a timeout that is rounded up would, exactly when the wait is a
      whole number of milliseconds that fits. */
  lemma TimeoutIsTight(c: Clock, now: Instant)
    requires Sorted(c.alarms)
    ensures NextTimeout(c, now).None? <==> c.alarms == []
    ensures NextTimeout(c, now) == Some(0) || forall a :: a in c.alarms ==> a.at > now
    ensures c.alarms != [] && c.alarms[0].at > now ==>
      var d := c.alarms[0].at - now;
      && NextTimeout(c, now).Some? && NextTimeout(c, now).value <= d
      && (d - NextTimeout(c, now).value < NANOS_PER_MILLI <==> d / NANOS_PER_MILLI <= USIZE_MAX)
      && (NextTimeout(c, now).value >= d <==> d % NANOS_PER_MILLI == 0 && d / NANOS_PER_MILLI <= USIZE_MAX)
  {
    ParkFiresWhatIsDue(c, now);
    if c.alarms != [] && c.alarms[0].at > now {
      assert Rank(c.alarms, now + 1, 0) == 0;
      assert Due(c, now) == [] && Later(c, now) == c.alarms;
      MillisLemma(c.alarms[0].at - now);
    }
  }

  /** Both ways to fall short: with a single alarm one nanosecond away, and with one so far
      away that its milliseconds wrap around, the poller is told not to wait at all. */
  lemma TimeoutsThatFallShort(now: Instant, w: Waker)
    ensures NextTimeout(Clock(1, [Alarm(now + 1, 0, w)]), now) == Some(0)
    ensures NextTimeout(Clock(1, [Alarm(now + (USIZE_MAX + 1) * NANOS_PER_MILLI, 0, w)]), now) == Some(0)
  {
    var near, far := Clock(1, [Alarm(now + 1, 0, w)]), Clock(1, [Alarm(now + (USIZE_MAX + 1) * NANOS_PER_MILLI, 0, w)]);
    assert Rank(near.alarms, now + 1, 0) == 0 && Rank(far.alarms, now + 1, 0) == 0;
    assert ((USIZE_MAX + 1) * NANOS_PER_MILLI) / NANOS_PER_MILLI == USIZE_MAX + 1;
  }

  lemma MillisLemma(d: Duration)
    ensures WholeMillis(d) <= d
    ensures d - WholeMillis(d) < NANOS_PER_MILLI <==> d / NANOS_PER_MILLI <= USIZE_MAX
    ensures WholeMillis(d) >= d <==> d % NANOS_PER_MILLI == 0 && d / NANOS_PER_MILLI <= USIZE_MAX
  {
    var m := d / NANOS_PER_MILLI;
    var w := m % (USIZE_MAX + 1);
    assert d == m * NANOS_PER_MILLI + d % NANOS_PER_MILLI;
    if m <= USIZE_MAX {
      assert w == m;
    } else {
      assert w <= USIZE_MAX < m;
      assert (m - w) * NANOS_PER_MILLI >= NANOS_PER_MILLI;
    }
  }
}
