/** The clock together with the live `Sleep` futures, over any sequence of calls.
    Time moves only forward, by the `Advance` steps between them. */
module ClockRuns {
  import opened Common
  import opened ClockSpec

  type SleepId = nat

  /** What a sleep remembers of its registration. */
  datatype Reg = Reg(id: nat, waker: Waker)
  datatype Sleep = Sleep(deadline: Instant, alarm: Option<Reg>)

  /** An alarm that a park took out of the map, and when. */
  datatype Firing = Firing(alarm: Alarm, at: Instant)

  datatype World = World(now: Instant, clock: Clock, sleeps: map<SleepId, Sleep>, fired: seq<Firing>)

  datatype Op =
    | New(s: SleepId, deadline: Instant)
    | Advance(dt: Duration)
    | Poll(s: SleepId, waker: Waker)
    | Reset(s: SleepId, deadline: Instant)
    | Drop(s: SleepId)
    | Park

  /** `Rejected` marks a call on a sleep that is not live, or a creation of one that is. */
  datatype Outcome = Fine | Ready(deadline: Instant) | Pending | Panicked | Rejected

  datatype Result = Result(world: World, outcome: Outcome)

  function Start(now: Instant): World {
    World(now, Clock(0, []), map[], [])
  }

  function Firings(alarms: seq<Alarm>, now: Instant): seq<Firing> {
    seq(|alarms|, i requires 0 <= i < |alarms| => Firing(alarms[i], now))
  }

  function PollSleep(w: World, s: SleepId, waker: Waker): Result
    requires s in w.sleeps
  {
    var sleep := w.sleeps[s];
    if w.now >= sleep.deadline then Result(w, Ready(sleep.deadline))
    else match sleep.alarm
      case None =>
        var reg := Reg(w.clock.nextAlarm, waker);
        Result(w.(clock := InsertAlarm(w.clock, sleep.deadline, waker),
                  sleeps := w.sleeps[s := sleep.(alarm := Some(reg))]), Pending)
      case Some(reg) =>
        if reg.waker == waker then Result(w, Pending)
        else match ReplaceAlarmWaker(w.clock, reg.id, sleep.deadline, waker)
          case None => Result(w, Panicked)
          case Some(clock) =>
            Result(w.(clock := clock, sleeps := w.sleeps[s := sleep.(alarm := Some(reg.(waker := waker)))]), Pending)
  }

  function ResetSleep(w: World, s: SleepId, deadline: Instant): Result
    requires s in w.sleeps
  {
    var sleep := w.sleeps[s];
    var moved := w.(sleeps := w.sleeps[s := sleep.(deadline := deadline)]);
    if sleep.alarm.None? then Result(moved, Fine)
    else match ResetAlarm(w.clock, sleep.alarm.value.id, sleep.deadline, deadline)
      case None => Result(w, Panicked)
      case Some(clock) => Result(moved.(clock := clock), Fine)
  }

  function Step(w: World, op: Op): Result {
    match op
    case New(s, deadline) =>
      if s in w.sleeps then Result(w, Rejected)
      else Result(w.(sleeps := w.sleeps[s := Sleep(deadline, None)]), Fine)
    case Advance(dt) => Result(w.(now := w.now + dt), Fine)
    case Poll(s, waker) =>
      if s !in w.sleeps then Result(w, Rejected) else PollSleep(w, s, waker)
    case Reset(s, deadline) =>
      if s !in w.sleeps then Result(w, Rejected) else ResetSleep(w, s, deadline)
    case Drop(s) =>
      if s !in w.sleeps then Result(w, Rejected)
      else
        var sleep := w.sleeps[s];
        var clock := if sleep.alarm.None? then w.clock
                     else RemoveAlarm(w.clock, sleep.alarm.value.id, sleep.deadline);
        Result(w.(clock := clock, sleeps := w.sleeps - {s}), Fine)
    case Park =>
      Result(w.(clock := w.clock.(alarms := Later(w.clock, w.now)),
                fired := w.fired + Firings(Due(w.clock, w.now), w.now)), Fine)
  }

  function Run(w: World, ops: seq<Op>): World
    decreases |ops|
  {
    if ops == [] then w else Run(Step(w, ops[0]).world, ops[1..])
  }

  // ----- agreement between the map and the sleeps

  ghost predicate Registered(w: World, s: SleepId, id: nat) {
    s in w.sleeps && w.sleeps[s].alarm.Some? && w.sleeps[s].alarm.value.id == id
  }

  ghost predicate Owned(w: World, a: Alarm) {
    exists s :: Registered(w, s, a.id)
  }

  /** Whether the alarm of a registration has gone off. */
  ghost predicate Fired(w: World, id: nat) {
    exists i :: 0 <= i < |w.fired| && w.fired[i].alarm.id == id
  }

  function EntryOf(sleep: Sleep): Alarm
    requires sleep.alarm.Some?
  {
    Alarm(sleep.deadline, sleep.alarm.value.id, sleep.alarm.value.waker)
  }

  ghost predicate IdsBounded(w: World) {
    && (forall a :: a in w.clock.alarms ==> a.id < w.clock.nextAlarm)
    && (forall s :: s in w.sleeps && w.sleeps[s].alarm.Some? ==> w.sleeps[s].alarm.value.id < w.clock.nextAlarm)
    && (forall i :: 0 <= i < |w.fired| ==> w.fired[i].alarm.id < w.clock.nextAlarm)
  }

  /** Every entry is the registration of exactly one live sleep, and every registered sleep
      either has its entry or has been fired, never both. */
  ghost predicate Agreement(w: World) {
    && (forall s, t, id :: Registered(w, s, id) && Registered(w, t, id) ==> s == t)
    && (forall a :: a in w.clock.alarms ==> Owned(w, a))
    && (forall s, a :: a in w.clock.alarms && Registered(w, s, a.id) ==> a == EntryOf(w.sleeps[s]))
    && (forall s :: s in w.sleeps && w.sleeps[s].alarm.Some? ==>
         (EntryOf(w.sleeps[s]) in w.clock.alarms <==> !Fired(w, w.sleeps[s].alarm.value.id)))
  }

  /** What went off was due, went off once, and belongs to a sleep whose time has come. */
  ghost predicate FiringsOk(w: World) {
    && (forall i :: 0 <= i < |w.fired| ==> w.fired[i].alarm.at <= w.fired[i].at <= w.now)
    && (forall i, j :: 0 <= i < j < |w.fired| ==> w.fired[i].alarm.id != w.fired[j].alarm.id)
    && (forall s :: s in w.sleeps && w.sleeps[s].alarm.Some? && Fired(w, w.sleeps[s].alarm.value.id) ==>
         w.sleeps[s].deadline <= w.now)
  }

  ghost predicate Inv(w: World) {
    Sorted(w.clock.alarms) && IdsBounded(w) && Agreement(w) && FiringsOk(w)
  }

  lemma HasItsEntry(w: World, s: SleepId)
    requires Inv(w) && s in w.sleeps && w.sleeps[s].alarm.Some?
    ensures Has(w.clock.alarms, w.sleeps[s].deadline, w.sleeps[s].alarm.value.id)
      <==> !Fired(w, w.sleeps[s].alarm.value.id)
  {
    var sleep := w.sleeps[s];
    var id := sleep.alarm.value.id;
    RemoveMeets(w.clock.alarms, sleep.deadline, id);
    if Has(w.clock.alarms, sleep.deadline, id) {
      var waker :| Alarm(sleep.deadline, id, waker) in w.clock.alarms;
      assert Registered(w, s, id);
    }
  }

  // ----- every step keeps it

  /** A new alarm for a sleep that had none. */
  lemma RegisterKeepsInv(w: World, s: SleepId, waker: Waker)
    requires Inv(w) && s in w.sleeps && w.sleeps[s].alarm.None? && w.now < w.sleeps[s].deadline
    ensures Inv(PollSleep(w, s, waker).world)
  {
    var w' := PollSleep(w, s, waker).world;
    var a := Alarm(w.sleeps[s].deadline, w.clock.nextAlarm, waker);
    InsertSorts(w.clock.alarms, a);
    InsertMembers(w.clock.alarms, a);
    assert Registered(w', s, a.id);
    forall b | b in w'.clock.alarms ensures Owned(w', b) {
      if b != a {
        var t :| Registered(w, t, b.id);
        assert Registered(w', t, b.id);
      }
    }
    forall t | t in w'.sleeps && w'.sleeps[t].alarm.Some?
      ensures Fired(w', w'.sleeps[t].alarm.value.id) <==> Fired(w, w'.sleeps[t].alarm.value.id)
      ensures t != s ==> Registered(w, t, w'.sleeps[t].alarm.value.id)
    {
    }
  }

  /** One registered sleep's entry is exchanged for another with the same id. */
  lemma ExchangeKeepsInv(w: World, s: SleepId, sleep': Sleep, alarms': seq<Alarm>)
    requires Inv(w) && s in w.sleeps && w.sleeps[s].alarm.Some? && sleep'.alarm.Some?
    requires sleep'.alarm.value.id == w.sleeps[s].alarm.value.id
    requires EntryOf(w.sleeps[s]) in w.clock.alarms && Sorted(alarms')
    requires forall a :: a in alarms' <==>
      a == EntryOf(sleep') || (a in w.clock.alarms && a.id != sleep'.alarm.value.id)
    ensures Inv(w.(clock := w.clock.(alarms := alarms'), sleeps := w.sleeps[s := sleep']))
  {
    var id := sleep'.alarm.value.id;
    var w' := w.(clock := w.clock.(alarms := alarms'), sleeps := w.sleeps[s := sleep']);
    assert Registered(w, s, id) && Registered(w', s, id);
    forall a | a in alarms' ensures Owned(w', a) {
      if a.id != id {
        var t :| Registered(w, t, a.id);
        assert Registered(w', t, a.id);
      }
    }
    forall t, i | Registered(w', t, i) ensures Registered(w, t, i) {
    }
    forall i ensures Fired(w', i) <==> Fired(w, i) {
    }
    forall t | t in w'.sleeps && w'.sleeps[t].alarm.Some? && t != s ensures w'.sleeps[t].alarm.value.id != id {
      assert Registered(w, t, w.sleeps[t].alarm.value.id);
    }
  }

  /** Entries with the id of a registration are that registration's only entry. */
  lemma OneEntryPerId(w: World, s: SleepId)
    requires Inv(w) && s in w.sleeps && w.sleeps[s].alarm.Some?
    ensures forall a :: a in w.clock.alarms && a.id == w.sleeps[s].alarm.value.id ==> a == EntryOf(w.sleeps[s])
  {
    forall a | a in w.clock.alarms && a.id == w.sleeps[s].alarm.value.id ensures a == EntryOf(w.sleeps[s]) {
      assert Registered(w, s, a.id);
    }
  }

  /** A poll never fails to find its entry. */
  lemma PollKeepsInv(w: World, s: SleepId, waker: Waker)
    requires Inv(w) && s in w.sleeps
    ensures Inv(PollSleep(w, s, waker).world) && PollSleep(w, s, waker).outcome != Panicked
  {
    var sleep := w.sleeps[s];
    if w.now < sleep.deadline {
      if sleep.alarm.None? {
        RegisterKeepsInv(w, s, waker);
      } else if sleep.alarm.value.waker != waker {
        HasItsEntry(w, s);
        OneEntryPerId(w, s);
        InsertSorts(w.clock.alarms, Alarm(sleep.deadline, sleep.alarm.value.id, waker));
        InsertMembers(w.clock.alarms, Alarm(sleep.deadline, sleep.alarm.value.id, waker));
        ExchangeKeepsInv(w, s, sleep.(alarm := Some(sleep.alarm.value.(waker := waker))),
                         Insert(w.clock.alarms, Alarm(sleep.deadline, sleep.alarm.value.id, waker)));
      }
    }
  }

  /** A reset fails exactly when the alarm of the sleep has already gone off. */
  lemma ResetPanicsIffFired(w: World, s: SleepId, deadline: Instant)
    requires Inv(w) && s in w.sleeps
    ensures var r := Step(w, Reset(s, deadline));
      && Inv(r.world)
      && (r.outcome == Panicked <==> w.sleeps[s].alarm.Some? && Fired(w, w.sleeps[s].alarm.value.id))
      && (r.outcome == Panicked ==> r.world == w)
  {
    var sleep := w.sleeps[s];
    if sleep.alarm.None? {
      SameRegistrations(w, Step(w, Reset(s, deadline)).world);
    } else {
      HasItsEntry(w, s);
      var id := sleep.alarm.value.id;
      if Has(w.clock.alarms, sleep.deadline, id) {
        OneEntryPerId(w, s);
        var entry := w.clock.alarms[Rank(w.clock.alarms, sleep.deadline, id)];
        assert entry in w.clock.alarms;
        var rest := Remove(w.clock.alarms, sleep.deadline, id);
        RemoveMeets(w.clock.alarms, sleep.deadline, id);
        InsertSorts(rest, Alarm(deadline, id, entry.waker));
        InsertMembers(rest, Alarm(deadline, id, entry.waker));
        ExchangeKeepsInv(w, s, sleep.(deadline := deadline), Insert(rest, Alarm(deadline, id, entry.waker)));
      }
    }
  }

  /** Sleeps without a registration do not matter, nor does the passing of time. */
  lemma SameRegistrations(w: World, w': World)
    requires Inv(w) && w'.clock == w.clock && w'.fired == w.fired && w'.now >= w.now
    requires forall s :: s in w.sleeps && w.sleeps[s].alarm.Some? ==> s in w'.sleeps && w'.sleeps[s] == w.sleeps[s]
    requires forall s :: s in w'.sleeps && w'.sleeps[s].alarm.Some? ==> s in w.sleeps && w'.sleeps[s] == w.sleeps[s]
    ensures Inv(w')
  {
    forall s, id ensures Registered(w', s, id) <==> Registered(w, s, id) {
    }
    forall a | a in w'.clock.alarms ensures Owned(w', a) {
      var t :| Registered(w, t, a.id);
      assert Registered(w', t, a.id);
    }
    forall i ensures Fired(w', i) <==> Fired(w, i) {
    }
  }

  lemma DropKeepsInv(w: World, s: SleepId)
    requires Inv(w) && s in w.sleeps
    ensures Inv(Step(w, Drop(s)).world)
  {
    var sleep, w' := w.sleeps[s], Step(w, Drop(s)).world;
    if sleep.alarm.None? {
      SameRegistrations(w, w');
    } else {
      var id := sleep.alarm.value.id;
      RemoveMeets(w.clock.alarms, sleep.deadline, id);
      OneEntryPerId(w, s);
      assert Registered(w, s, id);
      forall t, i | Registered(w', t, i) ensures Registered(w, t, i) && i != id {
        assert Registered(w, t, i);
      }
      forall a | a in w'.clock.alarms ensures Owned(w', a) {
        var t :| Registered(w, t, a.id);
        assert Registered(w', t, a.id);
      }
      forall i ensures Fired(w', i) <==> Fired(w, i) {
      }
      forall t | t in w'.sleeps && w'.sleeps[t].alarm.Some? ensures w'.sleeps[t].alarm.value.id != id {
        assert Registered(w', t, w'.sleeps[t].alarm.value.id);
      }
    }
  }

  /** What a park appends to the record. */
  lemma ParkRecord(w: World)
    requires Sorted(w.clock.alarms)
    ensures var due, w', n := Due(w.clock, w.now), Step(w, Park).world, |w.fired|;
      && |w'.fired| == n + |due|
      && (forall i :: 0 <= i < n ==> w'.fired[i] == w.fired[i])
      && (forall i :: n <= i < |w'.fired| ==>
           && w'.fired[i] == Firing(due[i - n], w'.now)
           && w'.fired[i].alarm in w.clock.alarms && w'.fired[i].alarm.at <= w'.now)
  {
    var due, n := Due(w.clock, w.now), |w.fired|;
    var batch := Firings(due, w.now);
    var fired := w.fired + batch;
    assert Step(w, Park).world.fired == fired;
    ParkFiresWhatIsDue(w.clock, w.now);
    forall i | n <= i < |fired| ensures fired[i] == Firing(due[i - n], w.now) && due[i - n] in due {
      assert fired[i] == batch[i - n];
    }
  }

  /** After a park an alarm has fired if it had before or was due now. */
  lemma FiredByPark(w: World, id: nat)
    requires Sorted(w.clock.alarms)
    ensures Fired(Step(w, Park).world, id) <==>
      Fired(w, id) || exists a :: a in w.clock.alarms && a.at <= w.now && a.id == id
  {
    var w', n := Step(w, Park).world, |w.fired|;
    ParkRecord(w);
    if Fired(w', id) {
      var i :| 0 <= i < |w'.fired| && w'.fired[i].alarm.id == id;
      assert i < n ==> w.fired[i].alarm.id == id;
    }
    if Fired(w, id) {
      var i :| 0 <= i < n && w.fired[i].alarm.id == id;
      assert w'.fired[i].alarm.id == id;
    }
    if a :| a in w.clock.alarms && a.at <= w.now && a.id == id {
      FiredIfDue(w, a);
    }
  }

  lemma FiredIfDue(w: World, a: Alarm)
    requires Sorted(w.clock.alarms) && a in w.clock.alarms && a.at <= w.now
    ensures Fired(Step(w, Park).world, a.id)
  {
    var due, w' := Due(w.clock, w.now), Step(w, Park).world;
    ParkFiresWhatIsDue(w.clock, w.now);
    ParkRecord(w);
    var i :| 0 <= i < |due| && due[i] == a;
    assert w'.fired[|w.fired| + i] == Firing(a, w'.now);
  }

  lemma NotFiredWhileListed(w: World, a: Alarm)
    requires Inv(w) && a in w.clock.alarms
    ensures !Fired(w, a.id)
    ensures forall b :: b in w.clock.alarms && b.id == a.id ==> b == a
  {
    assert Owned(w, a);
    var s :| Registered(w, s, a.id);
    OneEntryPerId(w, s);
  }

  lemma ParkKeepsFirings(w: World)
    requires Inv(w)
    ensures var w' := Step(w, Park).world;
      && (forall i :: 0 <= i < |w'.fired| ==> w'.fired[i].alarm.at <= w'.fired[i].at <= w'.now)
      && (forall i, j :: 0 <= i < j < |w'.fired| ==> w'.fired[i].alarm.id != w'.fired[j].alarm.id)
      && (forall i :: 0 <= i < |w'.fired| ==> w'.fired[i].alarm.id < w'.clock.nextAlarm)
  {
    var n, w' := |w.fired|, Step(w, Park).world;
    ParkRecord(w);
    forall i, j | 0 <= i < j < |w'.fired| ensures w'.fired[i].alarm.id != w'.fired[j].alarm.id {
      if i < n <= j {
        NotFiredWhileListed(w, w'.fired[j].alarm);
        assert Fired(w, w.fired[i].alarm.id);
      } else if n <= i {
        DueAreDistinct(w, i - n, j - n);
      }
    }
  }

  lemma DueAreDistinct(w: World, i: nat, j: nat)
    requires Inv(w) && i < j < |Due(w.clock, w.now)|
    ensures Due(w.clock, w.now)[i].id != Due(w.clock, w.now)[j].id
  {
    var due := Due(w.clock, w.now);
    ParkFiresWhatIsDue(w.clock, w.now);
    assert due[i] in due && due[j] in due && Before(due[i], due[j]);
    NotFiredWhileListed(w, due[j]);
  }

  lemma ParkKeepsAgreement(w: World)
    requires Inv(w)
    ensures Agreement(Step(w, Park).world)
  {
    var w' := Step(w, Park).world;
    ParkFiresWhatIsDue(w.clock, w.now);
    forall s, id ensures Registered(w', s, id) <==> Registered(w, s, id) {
    }
    forall a | a in w'.clock.alarms ensures Owned(w', a) {
      var t :| Registered(w, t, a.id);
      assert Registered(w', t, a.id);
    }
    forall s | s in w'.sleeps && w'.sleeps[s].alarm.Some?
      ensures EntryOf(w'.sleeps[s]) in w'.clock.alarms <==> !Fired(w', w'.sleeps[s].alarm.value.id)
    {
      FiredByPark(w, w.sleeps[s].alarm.value.id);
      OneEntryPerId(w, s);
    }
  }

  lemma FiredMeansDue(w: World, s: SleepId)
    requires Inv(w) && s in w.sleeps && w.sleeps[s].alarm.Some?
    requires Fired(Step(w, Park).world, w.sleeps[s].alarm.value.id)
    ensures w.sleeps[s].deadline <= w.now
  {
    FiredByPark(w, w.sleeps[s].alarm.value.id);
    OneEntryPerId(w, s);
  }

  lemma ParkKeepsInv(w: World)
    requires Inv(w)
    ensures Inv(Step(w, Park).world)
  {
    var w' := Step(w, Park).world;
    ParkFiresWhatIsDue(w.clock, w.now);
    ParkKeepsFirings(w);
    ParkKeepsAgreement(w);
    forall s | s in w'.sleeps && w'.sleeps[s].alarm.Some? && Fired(w', w'.sleeps[s].alarm.value.id)
      ensures w'.sleeps[s].deadline <= w'.now
    {
      FiredMeansDue(w, s);
    }
  }

  lemma StepKeepsInv(w: World, op: Op)
    requires Inv(w)
    ensures Inv(Step(w, op).world)
  {
    match op
    case New(s, deadline) =>
      if s !in w.sleeps {
        SameRegistrations(w, Step(w, op).world);
      }
    case Advance(dt) => SameRegistrations(w, Step(w, op).world);
    case Poll(s, waker) =>
      if s in w.sleeps {
        PollKeepsInv(w, s, waker);
      }
    case Reset(s, deadline) =>
      if s in w.sleeps {
        ResetPanicsIffFired(w, s, deadline);
      }
    case Drop(s) =>
      if s in w.sleeps {
        DropKeepsInv(w, s);
      }
    case Park => ParkKeepsInv(w);
  }

  /** Clock and sleeps agree after any sequence of calls; alarm ids are never reused; no
      alarm fires early or twice. */
  lemma {:induction false} EveryRunAgrees(w: World, ops: seq<Op>)
    requires Inv(w)
    ensures Inv(Run(w, ops))
    decreases |ops|
  {
    if ops == [] {
    } else {
      StepKeepsInv(w, ops[0]);
      EveryRunAgrees(Step(w, ops[0]).world, ops[1..]);
    }
  }

  // ----- what users can rely on

  /** The sleep's registration is in the map, under its deadline and with its waker. */
  ghost predicate Listed(w: World, s: SleepId, deadline: Instant, waker: Waker) {
    && s in w.sleeps && w.sleeps[s].alarm.Some?
    && w.sleeps[s].deadline == deadline && w.sleeps[s].alarm.value.waker == waker
    && EntryOf(w.sleeps[s]) in w.clock.alarms
  }

  /** What a call on sleep `s` leaves alone: the time, the record, all other sleeps, and all
      entries of the map but those with the id `id`. */
  ghost predicate OnlyTouches(w: World, w': World, s: SleepId, id: Option<nat>) {
    && w'.now == w.now && w'.fired == w.fired
    && (forall t :: t != s ==> (t in w'.sleeps <==> t in w.sleeps))
    && (forall t :: t != s && t in w.sleeps ==> w'.sleeps[t] == w.sleeps[t])
    && (forall a: Alarm :: Some(a.id) != id ==> (a in w'.clock.alarms <==> a in w.clock.alarms))
  }

  function IdOf(w: World, s: SleepId): Option<nat>
    requires s in w.sleeps
  {
    if w.sleeps[s].alarm.Some? then Some(w.sleeps[s].alarm.value.id) else None
  }

  /** A poll is ready exactly from the deadline on, and changes nothing then; before that it
      is pending, whether the sleep was registered already or not, and leaves its waker in
      the map under the deadline and nothing else there for this sleep. */
  lemma ReadyIffDue(w: World, s: SleepId, waker: Waker)
    requires Inv(w) && s in w.sleeps
    ensures var r, deadline := Step(w, Poll(s, waker)), w.sleeps[s].deadline;
      if w.now >= deadline then r == Result(w, Ready(deadline))
      else
        && r.outcome == Pending && Inv(r.world) && Listed(r.world, s, deadline, waker)
        && (w.sleeps[s].alarm.Some? ==> IdOf(r.world, s) == IdOf(w, s))
        && (w.sleeps[s].alarm.None? ==> !exists a :: a in w.clock.alarms && Some(a.id) == IdOf(r.world, s))
        && OnlyTouches(w, r.world, s, IdOf(r.world, s))
  {
    PollKeepsInv(w, s, waker);
    var sleep := w.sleeps[s];
    if w.now < sleep.deadline {
      var w' := Step(w, Poll(s, waker)).world;
      var id := if sleep.alarm.Some? then sleep.alarm.value.id else w.clock.nextAlarm;
      InsertMembers(w.clock.alarms, Alarm(sleep.deadline, id, waker));
      if sleep.alarm.Some? {
        HasItsEntry(w, s);
      }
    }
  }

  /** So a new sleep waits for exactly the deadline it was made for. */
  lemma NewSleepWaits(w: World, s: SleepId, deadline: Instant, waker: Waker)
    requires Inv(w) && s !in w.sleeps
    ensures var w' := Step(w, New(s, deadline)).world;
      && Inv(w') && OnlyTouches(w, w', s, None)
      && Step(w', Poll(s, waker)).outcome == if w.now >= deadline then Ready(deadline) else Pending
  {
    StepKeepsInv(w, New(s, deadline));
    ReadyIffDue(Step(w, New(s, deadline)).world, s, waker);
  }

  /** A reset that succeeds moves the deadline, and with it the entry and its waker. */
  lemma ResetMoves(w: World, s: SleepId, deadline: Instant)
    requires Inv(w) && s in w.sleeps && Step(w, Reset(s, deadline)).outcome != Panicked
    ensures var r := Step(w, Reset(s, deadline));
      && r.outcome == Fine && s in r.world.sleeps
      && r.world.sleeps[s] == w.sleeps[s].(deadline := deadline)
      && (w.sleeps[s].alarm.Some? ==> Listed(r.world, s, deadline, w.sleeps[s].alarm.value.waker))
      && OnlyTouches(w, r.world, s, IdOf(w, s))
  {
    ResetPanicsIffFired(w, s, deadline);
    var sleep := w.sleeps[s];
    if sleep.alarm.Some? {
      var id := sleep.alarm.value.id;
      HasItsEntry(w, s);
      OneEntryPerId(w, s);
      RemoveMeets(w.clock.alarms, sleep.deadline, id);
      var entry := w.clock.alarms[Rank(w.clock.alarms, sleep.deadline, id)];
      assert entry in w.clock.alarms;
      var rest := Remove(w.clock.alarms, sleep.deadline, id);
      InsertMembers(rest, Alarm(deadline, id, entry.waker));
    }
  }

  /** Dropping a sleep ends it and takes its entry out. */
  lemma DropForgets(w: World, s: SleepId)
    requires Inv(w) && s in w.sleeps
    ensures var r := Step(w, Drop(s));
      && r.outcome == Fine && s !in r.world.sleeps
      && (forall a :: a in r.world.clock.alarms ==> Some(a.id) != IdOf(w, s))
      && OnlyTouches(w, r.world, s, IdOf(w, s))
  {
    if w.sleeps[s].alarm.Some? {
      RemoveMeets(w.clock.alarms, w.sleeps[s].deadline, w.sleeps[s].alarm.value.id);
      OneEntryPerId(w, s);
    }
  }

  /** The wakers a park hands out are those of the alarms that it fires, in order. */
  lemma HandedOutAreFired(w: World)
    requires Sorted(w.clock.alarms)
    ensures var wakers, w', n := WakersOf(Due(w.clock, w.now)), Step(w, Park).world, |w.fired|;
      && |w'.fired| == n + |wakers|
      && (forall i :: 0 <= i < |wakers| ==> wakers[i] == w'.fired[n + i].alarm.waker)
      && w'.now == w.now && w'.sleeps == w.sleeps
      && |w.clock.alarms| == |wakers| + |w'.clock.alarms|
  {
    ParkRecord(w);
    ParkFiresWhatIsDue(w.clock, w.now);
  }

  /** A poll that returned pending leaves its waker in the map under the sleep's deadline. */
  lemma PendingIsListed(w: World, s: SleepId, waker: Waker)
    requires Inv(w) && s in w.sleeps && Step(w, Poll(s, waker)).outcome == Pending
    ensures var w' := Step(w, Poll(s, waker)).world;
      Inv(w') && Listed(w', s, w.sleeps[s].deadline, waker) && w'.now == w.now < w.sleeps[s].deadline
  {
    PollKeepsInv(w, s, waker);
  }

  lemma ParkFiresSleeper(w: World, s: SleepId)
    requires Sorted(w.clock.alarms) && s in w.sleeps && w.sleeps[s].alarm.Some?
    requires EntryOf(w.sleeps[s]) in w.clock.alarms && w.sleeps[s].deadline <= w.now
    ensures var w' := Step(w, Park).world;
      Firing(EntryOf(w.sleeps[s]), w'.now) in w'.fired[|w.fired|..]
  {
    var w', a := Step(w, Park).world, EntryOf(w.sleeps[s]);
    var due := Due(w.clock, w.now);
    ParkFiresWhatIsDue(w.clock, w.now);
    ParkRecord(w);
    var i :| 0 <= i < |due| && due[i] == a;
    assert w'.fired[|w.fired|..][i] == w'.fired[|w.fired| + i] == Firing(a, w'.now);
  }

  // ----- one registration, over a whole run

  /** Calls that move a sleep's deadline or end it. */
  predicate Disturbs(op: Op, s: SleepId) {
    (op.Reset? || op.Drop?) && op.s == s
  }

  predicate Undisturbed(ops: seq<Op>, s: SleepId) {
    forall i :: 0 <= i < |ops| ==> !Disturbs(ops[i], s)
  }

  /** Whether a park is made at or after the deadline. */
  predicate ParksBy(w: World, ops: seq<Op>, deadline: Instant)
    decreases |ops|
  {
    ops != [] &&
      ((ops[0].Park? && w.now >= deadline) || ParksBy(Step(w, ops[0]).world, ops[1..], deadline))
  }

  /** What is to be fired for a registration with id `id`: at the first park made at or after
      the deadline, on the waker of the latest poll before that, `waker` if there is none. */
  function FirstFiring(w: World, ops: seq<Op>, s: SleepId, deadline: Instant, id: nat, waker: Waker): Option<Firing>
    decreases |ops|
  {
    if ops == [] then None
    else if ops[0].Park? && w.now >= deadline then Some(Firing(Alarm(deadline, id, waker), w.now))
    else FirstFiring(Step(w, ops[0]).world, ops[1..], s, deadline, id, WakerAfter(w, ops[0], s, deadline, waker))
  }

  function WakerAfter(w: World, op: Op, s: SleepId, deadline: Instant, waker: Waker): Waker {
    if op.Poll? && op.s == s && w.now < deadline then op.waker else waker
  }

  lemma {:induction false} FiresIffParks(
      w: World, ops: seq<Op>, s: SleepId, deadline: Instant, id: nat, waker: Waker)
    ensures FirstFiring(w, ops, s, deadline, id, waker).Some? <==> ParksBy(w, ops, deadline)
    decreases |ops|
  {
    if ops == [] || (ops[0].Park? && w.now >= deadline) {
    } else {
      FiresIffParks(Step(w, ops[0]).world, ops[1..], s, deadline, id, WakerAfter(w, ops[0], s, deadline, waker));
    }
  }

  ghost predicate HasReg(w: World, s: SleepId, deadline: Instant, id: nat) {
    Registered(w, s, id) && w.sleeps[s].deadline == deadline
  }

  /** What the record says about the registration `id`. */
  ghost predicate RecordSays(w: World, id: nat, f: Option<Firing>) {
    && (forall i :: 0 <= i < |w.fired| && w.fired[i].alarm.id == id ==> Some(w.fired[i]) == f)
    && (f.Some? ==> f.value in w.fired && f.value.alarm.id == id)
  }

  lemma RecordGrows(w: World, op: Op)
    requires Sorted(w.clock.alarms)
    ensures w.fired <= Step(w, op).world.fired && w.now <= Step(w, op).world.now
    ensures !op.Park? ==> Step(w, op).world.fired == w.fired
  {
  }

  lemma StepKeepsReg(w: World, op: Op, s: SleepId, deadline: Instant, id: nat)
    requires HasReg(w, s, deadline, id) && !Disturbs(op, s)
    ensures HasReg(Step(w, op).world, s, deadline, id)
  {
  }

  /** Polls before the deadline renew the waker. */
  lemma StepRenewsWaker(w: World, op: Op, s: SleepId, deadline: Instant, id: nat)
    requires Inv(w) && HasReg(w, s, deadline, id) && !Disturbs(op, s) && !Fired(w, id)
    ensures HasReg(Step(w, op).world, s, deadline, id)
    ensures Step(w, op).world.sleeps[s].alarm.value.waker
      == WakerAfter(w, op, s, deadline, w.sleeps[s].alarm.value.waker)
  {
    if op.Poll? && op.s == s {
      PollKeepsInv(w, s, op.waker);
    }
  }

  /** Once a registration has fired, nothing more is recorded about it. */
  lemma {:induction false} FiredOnce(w: World, ops: seq<Op>, s: SleepId, deadline: Instant, id: nat, f: Firing)
    requires Inv(w) && HasReg(w, s, deadline, id) && RecordSays(w, id, Some(f)) && Undisturbed(ops, s)
    ensures var w' := Run(w, ops);
      Inv(w') && HasReg(w', s, deadline, id) && RecordSays(w', id, Some(f)) && w'.now >= w.now
    decreases |ops|
  {
    if ops == [] {
    } else {
      var w1 := Step(w, ops[0]).world;
      StepKeepsInv(w, ops[0]);
      StepKeepsReg(w, ops[0], s, deadline, id);
      RecordGrows(w, ops[0]);
      OneRecord(w1, id, f);
      FiredOnce(w1, ops[1..], s, deadline, id, f);
    }
  }

  lemma OneRecord(w: World, id: nat, f: Firing)
    requires Inv(w) && f in w.fired && f.alarm.id == id
    ensures RecordSays(w, id, Some(f))
  {
    var n :| 0 <= n < |w.fired| && w.fired[n] == f;
    forall i | 0 <= i < |w.fired| && w.fired[i].alarm.id == id ensures i == n {
    }
  }

  /** A park before the deadline leaves the registration alone, a later one fires it. */
  lemma ParkFiresReg(w: World, s: SleepId, deadline: Instant, id: nat)
    requires Inv(w) && HasReg(w, s, deadline, id) && !Fired(w, id)
    ensures var w' := Step(w, Park).world;
      if w.now < deadline then !Fired(w', id)
      else RecordSays(w', id, Some(Firing(EntryOf(w.sleeps[s]), w.now)))
  {
    var w', a := Step(w, Park).world, EntryOf(w.sleeps[s]);
    ParkKeepsInv(w);
    if w.now < deadline {
      FiredByPark(w, id);
      OneEntryPerId(w, s);
    } else {
      ParkFiresSleeper(w, s);
      assert Firing(a, w.now) in w'.fired;
      OneRecord(w', id, Firing(a, w.now));
    }
  }

  /** Whatever else happens, a registration fires exactly once, at the first park made at or
      after its deadline and on the waker of the latest poll before that, or not at all if
      there is no such park. */
  lemma {:induction false} FiresAtFirstPark(w: World, ops: seq<Op>, s: SleepId, deadline: Instant, id: nat)
    requires Inv(w) && HasReg(w, s, deadline, id) && !Fired(w, id) && Undisturbed(ops, s)
    ensures var w' := Run(w, ops);
      && Inv(w') && HasReg(w', s, deadline, id)
      && RecordSays(w', id, FirstFiring(w, ops, s, deadline, id, w.sleeps[s].alarm.value.waker))
      && (ParksBy(w, ops, deadline) ==> w'.now >= deadline)
    decreases |ops|
  {
    if ops == [] {
    } else {
      var w1 := Step(w, ops[0]).world;
      StepKeepsInv(w, ops[0]);
      StepRenewsWaker(w, ops[0], s, deadline, id);
      if ops[0].Park? {
        ParkFiresReg(w, s, deadline, id);
      }
      if ops[0].Park? && w.now >= deadline {
        FiredOnce(w1, ops[1..], s, deadline, id, Firing(EntryOf(w.sleeps[s]), w.now));
      } else {
        FiresAtFirstPark(w1, ops[1..], s, deadline, id);
      }
    }
  }

  /** The first park at or after its deadline fires a listed sleep, on its latest waker, and
      from then on polls are ready and resets panic; until then resets succeed. */
  lemma ParkWakesSleeper(w: World, ops: seq<Op>, s: SleepId, waker: Waker, next: Instant)
    requires Inv(w) && s in w.sleeps && w.sleeps[s].alarm.Some?
    requires EntryOf(w.sleeps[s]) in w.clock.alarms && Undisturbed(ops, s)
    ensures var w', deadline, reg := Run(w, ops), w.sleeps[s].deadline, w.sleeps[s].alarm.value;
      && RecordSays(w', reg.id, FirstFiring(w, ops, s, deadline, reg.id, reg.waker))
      && Step(w', Reset(s, next)).outcome == (if ParksBy(w, ops, deadline) then Panicked else Fine)
      && Step(w', Poll(s, waker)).outcome == (if w'.now >= deadline then Ready(deadline) else Pending)
      && (ParksBy(w, ops, deadline) ==> w'.now >= deadline)
  {
    var w', deadline, reg := Run(w, ops), w.sleeps[s].deadline, w.sleeps[s].alarm.value;
    NotFiredWhileListed(w, EntryOf(w.sleeps[s]));
    FiresAtFirstPark(w, ops, s, deadline, reg.id);
    FiresIffParks(w, ops, s, deadline, reg.id, reg.waker);
    RecordDecides(w', s, reg.id, FirstFiring(w, ops, s, deadline, reg.id, reg.waker), next);
    PollKeepsInv(w', s, waker);
  }

  lemma RecordDecides(w: World, s: SleepId, id: nat, f: Option<Firing>, next: Instant)
    requires Inv(w) && Registered(w, s, id) && RecordSays(w, id, f)
    ensures Step(w, Reset(s, next)).outcome == if f.Some? then Panicked else Fine
  {
    ResetPanicsIffFired(w, s, next);
    if f.Some? {
      var i :| 0 <= i < |w.fired| && w.fired[i] == f.value;
    }
  }

  /** `Interval::tick` polls its sleep and, once that is ready, resets it. A tick that found
      its sleep pending ends in a panic if and only if a park was made at or after the
      deadline before the poll that was ready; what others do, how often the tick itself is
      polled and how long it takes does not matter. */
  lemma TickPanicsIffParked(w: World, s: SleepId, first: Waker, ops: seq<Op>, last: Waker, next: Instant)
    requires Inv(w) && s in w.sleeps && Step(w, Poll(s, first)).outcome == Pending && Undisturbed(ops, s)
    ensures var deadline, waiting := w.sleeps[s].deadline, Step(w, Poll(s, first)).world;
      var polled := Step(Run(waiting, ops), Poll(s, last));
      && (polled.outcome == Ready(deadline) <==> Run(waiting, ops).now >= deadline)
      && (polled.outcome == Ready(deadline) ==>
           Step(polled.world, Reset(s, next)).outcome
           == if ParksBy(waiting, ops, deadline) then Panicked else Fine)
  {
    PendingIsListed(w, s, first);
    ParkWakesSleeper(Step(w, Poll(s, first)).world, ops, s, last, next);
  }

  /** Both ends exist: when the deadline passes with a park, as while nothing else runs, the
      tick panics; without one, as while tasks keep the executor busy, it does not. */
  lemma TicksOfBothKinds(w: World, s: SleepId, first: Waker, dt: Duration, last: Waker, next: Instant)
    requires Inv(w) && s in w.sleeps && Step(w, Poll(s, first)).outcome == Pending
    requires w.sleeps[s].deadline <= w.now + dt
    ensures var late := Step(Step(w, Poll(s, first)).world, Advance(dt)).world;
      var parked := Step(late, Park).world;
      var busy, idle := Step(late, Poll(s, last)), Step(parked, Poll(s, last));
      && busy.outcome == Ready(w.sleeps[s].deadline) && Step(busy.world, Reset(s, next)).outcome == Fine
      && idle.outcome == Ready(w.sleeps[s].deadline) && Step(idle.world, Reset(s, next)).outcome == Panicked
  {
    var waiting := Step(w, Poll(s, first)).world;
    var late := Step(waiting, Advance(dt)).world;
    RunOne(waiting, Advance(dt));
    RunOne(late, Park);
    assert [Advance(dt), Park][1..] == [Park];
    TickPanicsIffParked(w, s, first, [Advance(dt)], last, next);
    TickPanicsIffParked(w, s, first, [Advance(dt), Park], last, next);
  }

  lemma RunOne(w: World, op: Op)
    ensures Run(w, [op]) == Step(w, op).world
  {
    assert [op][1..] == [];
  }

  // ----- the order of firing

  /** No sleep is reset to an instant that has passed. */
  predicate Forward(w: World, ops: seq<Op>)
    decreases |ops|
  {
    ops != [] ==>
      (ops[0].Reset? ==> ops[0].deadline > w.now) && Forward(Step(w, ops[0]).world, ops[1..])
  }

  /** What is still listed comes after everything that has fired. */
  ghost predicate InOrder(w: World) {
    && Sorted(w.clock.alarms)
    && (forall i :: 0 <= i < |w.fired| ==> w.fired[i].alarm.at <= w.now)
    && (forall i, j :: 0 <= i < j < |w.fired| ==> Before(w.fired[i].alarm, w.fired[j].alarm))
    && (forall i, a :: 0 <= i < |w.fired| && a in w.clock.alarms ==> w.fired[i].alarm.at < a.at)
  }

  lemma StepKeepsOrder(w: World, op: Op)
    requires InOrder(w) && (op.Reset? ==> op.deadline > w.now)
    ensures InOrder(Step(w, op).world)
  {
    match op
    case New(s, deadline) =>
    case Advance(dt) =>
    case Poll(s, waker) => PollKeepsOrder(w, s, waker);
    case Reset(s, deadline) => ResetKeepsOrder(w, s, deadline);
    case Drop(s) => DropKeepsOrder(w, s);
    case Park => ParkKeepsOrder(w);
  }

  lemma DropKeepsOrder(w: World, s: SleepId)
    requires InOrder(w)
    ensures InOrder(Step(w, Drop(s)).world)
  {
    if s in w.sleeps && w.sleeps[s].alarm.Some? {
      RemoveMeets(w.clock.alarms, w.sleeps[s].deadline, w.sleeps[s].alarm.value.id);
    }
  }

  lemma PollKeepsOrder(w: World, s: SleepId, waker: Waker)
    requires InOrder(w)
    ensures InOrder(Step(w, Poll(s, waker)).world)
  {
    if s in w.sleeps && w.now < w.sleeps[s].deadline {
      var sleep := w.sleeps[s];
      if sleep.alarm.None? {
        InsertSorts(w.clock.alarms, Alarm(sleep.deadline, w.clock.nextAlarm, waker));
        InsertMembers(w.clock.alarms, Alarm(sleep.deadline, w.clock.nextAlarm, waker));
      } else {
        InsertSorts(w.clock.alarms, Alarm(sleep.deadline, sleep.alarm.value.id, waker));
        InsertMembers(w.clock.alarms, Alarm(sleep.deadline, sleep.alarm.value.id, waker));
      }
    }
  }

  lemma ResetKeepsOrder(w: World, s: SleepId, deadline: Instant)
    requires InOrder(w) && deadline > w.now
    ensures InOrder(Step(w, Reset(s, deadline)).world)
  {
    if s in w.sleeps && w.sleeps[s].alarm.Some? {
      var at, id := w.sleeps[s].deadline, w.sleeps[s].alarm.value.id;
      RemoveMeets(w.clock.alarms, at, id);
      if Has(w.clock.alarms, at, id) {
        InsertSorts(Remove(w.clock.alarms, at, id),
                    Alarm(deadline, id, w.clock.alarms[Rank(w.clock.alarms, at, id)].waker));
        InsertMembers(Remove(w.clock.alarms, at, id),
                    Alarm(deadline, id, w.clock.alarms[Rank(w.clock.alarms, at, id)].waker));
      }
    }
  }

  lemma ParkKeepsOrder(w: World)
    requires InOrder(w)
    ensures InOrder(Step(w, Park).world)
  {
    var w', n := Step(w, Park).world, |w.fired|;
    ParkFiresWhatIsDue(w.clock, w.now);
    ParkRecord(w);
    forall i, j | 0 <= i < j < |w'.fired| ensures Before(w'.fired[i].alarm, w'.fired[j].alarm) {
      if i < n <= j {
        assert w.fired[i].alarm.at < w'.fired[j].alarm.at;
      }
    }
  }

  /** Over a whole run without resets into the past, everything that ever fires does so in
      the order of (deadline, id), across all parks. */
  lemma {:induction false} FiringsAreSorted(w: World, ops: seq<Op>)
    requires InOrder(w) && Forward(w, ops)
    ensures InOrder(Run(w, ops))
    decreases |ops|
  {
    if ops == [] {
    } else {
      StepKeepsOrder(w, ops[0]);
      FiringsAreSorted(Step(w, ops[0]).world, ops[1..]);
    }
  }

  lemma StartAgrees(now: Instant)
    ensures Inv(Start(now)) && InOrder(Start(now))
  {
  }
}
