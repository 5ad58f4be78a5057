/** The clock and its `Sleep` futures as the source keeps them. The ordered map is the
    sequence of its entries; every method is proved equal to a function of `ClockSpec`. */
module Clocks {
  import opened Common
  import CS = ClockSpec
  import CR = ClockRuns

  type Waker = CS.Waker
  type Instant = CS.Instant
  type Duration = CS.Duration

  /** The call that a park passes on to the poller. */
  datatype ParkerCall = Block | Wait(timeout: Duration)

  /** The wakers of the entries that left the front of the map were appended, in order. */
  ghost predicate HandedOut(before: seq<CS.Alarm>, after: seq<CS.Alarm>, wakers: seq<Waker>, wakers': seq<Waker>) {
    && |before| >= |after| && before[|before| - |after|..] == after
    && |wakers'| == |wakers| + (|before| - |after|) && wakers'[..|wakers|] == wakers
    && forall i :: 0 <= i < |before| - |after| ==> wakers'[|wakers| + i] == before[i].waker
  }

  lemma SplitHandsOut(alarms: seq<CS.Alarm>, r: nat, wakers: seq<Waker>)
    requires r <= |alarms|
    ensures HandedOut(alarms, alarms[r..], wakers, wakers + CS.WakersOf(alarms[..r]))
  {
  }

  class Clock {
    var nextAlarm: nat
    var alarms: seq<CS.Alarm>

    ghost function View(): CS.Clock
      reads this
    {
      CS.Clock(nextAlarm, alarms)
    }

    /** The map is sorted by its keys, and its ids have been given out. */
    ghost predicate Valid()
      reads this
    {
      CS.Sorted(alarms) && forall a :: a in alarms ==> a.id < nextAlarm
    }

    constructor ()
      ensures Valid() && View() == CS.Clock(0, [])
    {
      nextAlarm, alarms := 0, [];
    }

    /** The id is one that no entry has; the entry is the only change to the map. */
    method InsertAlarm(at: Instant, waker: Waker) returns (id: nat)
      requires Valid()
      modifies this
      ensures Valid() && View() == CS.InsertAlarm(old(View()), at, waker)
      ensures id < nextAlarm && forall a :: a in old(alarms) ==> a.id < id
      ensures forall a :: a in alarms <==> a in old(alarms) || a == CS.Alarm(at, id, waker)
    {
      id := nextAlarm;
      CS.InsertSorts(alarms, CS.Alarm(at, id, waker));
      CS.InsertMembers(alarms, CS.Alarm(at, id, waker));
      alarms := CS.Insert(alarms, CS.Alarm(at, id, waker));
      nextAlarm := nextAlarm + 1;
    }

    /** Takes out the entry with this key, if there is one, and no other. */
    method RemoveAlarm(id: nat, at: Instant)
      requires Valid()
      modifies this
      ensures Valid() && View() == CS.RemoveAlarm(old(View()), id, at)
      ensures forall a :: a in alarms <==> a in old(alarms) && (a.at != at || a.id != id)
    {
      CS.RemoveMeets(alarms, at, id);
      alarms := CS.Remove(alarms, at, id);
    }

    /** Moves the entry with its waker; `ok` is false when it is missing and its `unwrap`
        panics. */
    method ResetAlarm(id: nat, before: Instant, after: Instant) returns (ok: bool)
      requires Valid()
      modifies this
      ensures Valid()
      ensures var r := CS.ResetAlarm(old(View()), id, before, after);
        ok == r.Some? && View() == if ok then r.value else old(View())
      ensures ok <==> exists w :: CS.Alarm(before, id, w) in old(alarms)
      ensures forall w :: CS.Alarm(before, id, w) in old(alarms) ==> CS.Alarm(after, id, w) in alarms
      ensures forall a :: a in alarms && a.id == id && a.at == before && ok ==> before == after
      ensures forall a: CS.Alarm :: a.id != id ==> (a in alarms <==> a in old(alarms))
    {
      CS.RemoveMeets(alarms, before, id);
      ok := CS.Has(alarms, before, id);
      if ok {
        var entry := alarms[CS.Rank(alarms, before, id)];
        assert entry in alarms;
        alarms := CS.Remove(alarms, before, id);
        CS.InsertSorts(alarms, CS.Alarm(after, id, entry.waker));
        CS.InsertMembers(alarms, CS.Alarm(after, id, entry.waker));
        alarms := CS.Insert(alarms, CS.Alarm(after, id, entry.waker));
      }
    }

    method ReplaceAlarmWaker(id: nat, at: Instant, waker: Waker) returns (ok: bool)
      requires Valid()
      modifies this
      ensures Valid()
      ensures var r := CS.ReplaceAlarmWaker(old(View()), id, at, waker);
        ok == r.Some? && View() == if ok then r.value else old(View())
      ensures ok <==> exists w :: CS.Alarm(at, id, w) in old(alarms)
      ensures forall a :: a in alarms <==>
        if ok && a.at == at && a.id == id then a.waker == waker else a in old(alarms)
    {
      CS.RemoveMeets(alarms, at, id);
      ok := CS.Has(alarms, at, id);
      if ok {
        var r := CS.Rank(alarms, at, id);
        assert alarms[r] in alarms;
        CS.InsertSorts(alarms, CS.Alarm(at, id, waker));
        CS.InsertMembers(alarms, CS.Alarm(at, id, waker));
        alarms := alarms[r := CS.Alarm(at, id, waker)];
      }
    }

    /** Splits the map at the first key past `now` and hands out the wakers before it. */
    method ExtendWithExpired(now: Instant, wakers: seq<Waker>)
      returns (wakers': seq<Waker>, next: Option<Duration>)
      requires Valid()
      modifies this
      ensures Valid() && View() == old(View()).(alarms := CS.Later(old(View()), now))
      ensures forall a :: a in alarms <==> a in old(alarms) && a.at > now
      ensures wakers' == wakers + CS.WakersOf(CS.Due(old(View()), now))
      ensures HandedOut(old(alarms), alarms, wakers, wakers')
      ensures next == CS.NextTimeout(old(View()), now)
    {
      ghost var before := View();
      var split := CS.Rank(alarms, now + 1, 0);
      var later, ready := alarms[split..], alarms[..split];
      alarms := later;
      if |ready| == 0 {
        wakers' := wakers;
        next := if alarms == [] then None else Some(CS.WholeMillis(alarms[0].at - now));
      } else {
        wakers' := wakers + CS.WakersOf(ready);
        next := Some(0);
      }
      assert wakers' == wakers + CS.WakersOf(before.alarms[..split]);
      CS.ParkFiresWhatIsDue(before, now);
      SplitHandsOut(before.alarms, split, wakers);
    }

    method Park(now: Instant, wakers: seq<Waker>) returns (wakers': seq<Waker>, call: ParkerCall)
      requires Valid()
      modifies this
      ensures Valid() && View() == old(View()).(alarms := CS.Later(old(View()), now))
      ensures wakers' == wakers + CS.WakersOf(CS.Due(old(View()), now))
      ensures HandedOut(old(alarms), alarms, wakers, wakers')
      ensures call == match CS.NextTimeout(old(View()), now) { case None => Block case Some(d) => Wait(d) }
    {
      var next;
      wakers', next := ExtendWithExpired(now, wakers);
      call := match next { case None => Block case Some(d) => Wait(d) };
    }

    method ParkTimeout(now: Instant, duration: Duration, wakers: seq<Waker>)
      returns (wakers': seq<Waker>, call: ParkerCall)
      requires Valid()
      modifies this
      ensures Valid() && View() == old(View()).(alarms := CS.Later(old(View()), now))
      ensures wakers' == wakers + CS.WakersOf(CS.Due(old(View()), now))
      ensures HandedOut(old(alarms), alarms, wakers, wakers')
      ensures call.Wait? && call.timeout <= duration
      ensures var next := CS.NextTimeout(old(View()), now);
        call.timeout == if next.Some? && next.value < duration then next.value else duration
    {
      var next;
      wakers', next := ExtendWithExpired(now, wakers);
      call := Wait(if next.Some? && next.value < duration then next.value else duration);
    }
  }

  class Sleep {
    const clock: Clock
    var deadline: Instant
    var alarm: Option<CR.Reg>

    constructor (clock: Clock, deadline: Instant)
      ensures this.clock == clock && this.deadline == deadline && alarm == None
    {
      this.clock, this.deadline, alarm := clock, deadline, None;
    }

    /** This sleep and its clock as a world with nothing else in it. */
    ghost function Alone(now: Instant): CR.World
      reads this, clock
    {
      CR.World(now, clock.View(), map[0 := CR.Sleep(deadline, alarm)], [])
    }

    /** The entry of a registered sleep. */
    ghost function Entry(): CS.Alarm
      reads this
    {
      if alarm.Some? then CS.Alarm(deadline, alarm.value.id, alarm.value.waker) else CS.Alarm(deadline, 0, 0)
    }

    method Poll(now: Instant, waker: Waker) returns (r: CR.Outcome)
      requires clock.Valid()
      modifies this, clock
      ensures clock.Valid()
      ensures CR.Result(Alone(now), r) == CR.PollSleep(old(Alone(now)), 0, waker)
      ensures deadline == old(deadline)
      ensures now >= deadline ==>
        r == CR.Ready(deadline) && alarm == old(alarm) && clock.alarms == old(clock.alarms)
      // an alarm that was registered and has not fired is still in the map
      ensures now < deadline && (old(alarm).None? || old(Entry()) in old(clock.alarms)) ==>
        && r == CR.Pending && alarm.Some? && alarm.value.waker == waker
        && (old(alarm).Some? ==> alarm.value.id == old(alarm).value.id)
        && Entry() in clock.alarms
        && (forall a: CS.Alarm :: a.id != alarm.value.id ==> (a in clock.alarms <==> a in old(clock.alarms)))
    {
      if now >= deadline {
        return CR.Ready(deadline);
      }
      match alarm {
        case Some(reg) =>
          if reg.waker != waker {
            var ok := clock.ReplaceAlarmWaker(reg.id, deadline, waker);
            if !ok {
              return CR.Panicked;
            }
            alarm := Some(CR.Reg(reg.id, waker));
          }
        case None =>
          var id := clock.InsertAlarm(deadline, waker);
          alarm := Some(CR.Reg(id, waker));
      }
      r := CR.Pending;
    }

    method Reset(ghost now: Instant, deadline: Instant) returns (r: CR.Outcome)
      requires clock.Valid()
      modifies this, clock
      ensures clock.Valid()
      ensures CR.Result(Alone(now), r) == CR.ResetSleep(old(Alone(now)), 0, deadline)
      ensures alarm == old(alarm) && (r == CR.Fine || r == CR.Panicked)
      ensures r == CR.Fine ==> this.deadline == deadline
      ensures r == CR.Panicked ==> this.deadline == old(this.deadline) && clock.alarms == old(clock.alarms)
      ensures alarm.Some? && old(Entry()) in old(clock.alarms) ==> r == CR.Fine && Entry() in clock.alarms
      ensures alarm.Some? && (forall w :: CS.Alarm(old(this.deadline), alarm.value.id, w) !in old(clock.alarms)) ==>
        r == CR.Panicked
    {
      if alarm.Some? {
        var ok := clock.ResetAlarm(alarm.value.id, this.deadline, deadline);
        if !ok {
          return CR.Panicked;
        }
      }
      this.deadline := deadline;
      r := CR.Fine;
    }

    method Drop(ghost now: Instant)
      requires clock.Valid()
      modifies clock
      ensures clock.Valid()
      ensures clock.View() == CR.Step(old(Alone(now)), CR.Drop(0)).world.clock
      ensures forall a :: a in clock.alarms <==>
        a in old(clock.alarms) && !(alarm.Some? && a.at == deadline && a.id == alarm.value.id)
    {
      if alarm.Some? {
        clock.RemoveAlarm(alarm.value.id, deadline);
      }
    }
  }
}
