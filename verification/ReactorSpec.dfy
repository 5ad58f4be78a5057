/** The reactor's interest tracking, beside a kernel that disarms a source whenever it
    reports it. */
module ReactorSpec {
  import opened Common

  type Key = nat
  type Waker = nat

  datatype Direction = Read | Write
  datatype Interest = Interest(poller: Option<Waker>, woke: bool)
  datatype Source = Source(reader: Interest, writer: Interest)

  /** The directions the kernel watches a source for. */
  datatype Armed = Armed(readable: bool, writable: bool)

  /** The wakers stored for one direction since its source was inserted, and those of them
      that were taken out again to be woken. */
  datatype Ledger = Ledger(stored: seq<Waker>, handed: seq<Waker>)
  datatype Books = Books(reader: Ledger, writer: Ledger)

  datatype State = State(sources: map<Key, Source>, kernel: map<Key, Armed>, books: map<Key, Books>)

  /** What the kernel reports about a source; both flags may be down, as for a mere hang-up. */
  datatype Event = Event(key: Key, readable: bool, writable: bool)

  datatype Poll = Ready | Pending | Err

  const NO_INTEREST := Interest(None, false)
  const NO_LEDGER := Ledger([], [])

  function Of(s: Source, d: Direction): Interest {
    if d.Read? then s.reader else s.writer
  }

  function Put(s: Source, d: Direction, i: Interest): Source {
    if d.Read? then s.(reader := i) else s.(writer := i)
  }

  function LedgerOf(b: Books, d: Direction): Ledger {
    if d.Read? then b.reader else b.writer
  }

  function Entered(b: Books, d: Direction, l: Ledger): Books {
    if d.Read? then b.(reader := l) else b.(writer := l)
  }

  /** What `update_interest` asks the kernel for. */
  function Wanted(s: Source): Armed {
    Armed(s.reader.poller.Some?, s.writer.poller.Some?)
  }

  predicate Watched(a: Armed, d: Direction) {
    if d.Read? then a.readable else a.writable
  }

  function HandedOut(l: Ledger, w: Option<Waker>): Ledger {
    if w.Some? then l.(handed := l.handed + [w.value]) else l
  }

  function Insert(s: State, key: Key): State {
    s.(sources := s.sources[key := Source(NO_INTEREST, NO_INTEREST)],
       kernel := s.kernel[key := Armed(false, false)],
       books := s.books[key := Books(NO_LEDGER, NO_LEDGER)])
  }

  function Remove(s: State, key: Key): State {
    State(s.sources - {key}, s.kernel - {key}, s.books - {key})
  }

  datatype PollOut = PollOut(state: State, result: Poll, woken: Option<Waker>)

  /** One poll for readiness; `ok` says whether the kernel takes an update. */
  function PollReady(s: State, key: Key, d: Direction, waker: Waker, ok: bool): PollOut
    requires key in s.sources && key in s.books
  {
    var source := s.sources[key];
    var i := Of(source, d);
    if i.woke then
      PollOut(s.(sources := s.sources[key := Put(source, d, i.(woke := false))]), Ready, None)
    else
      var source' := Put(source, d, i.(poller := Some(waker)));
      var l := LedgerOf(s.books[key], d);
      var l' := HandedOut(l.(stored := l.stored + [waker]), i.poller);
      var s' := s.(sources := s.sources[key := source'], books := s.books[key := Entered(s.books[key], d, l')]);
      if i.poller.Some? then PollOut(s', Pending, i.poller)
      else if ok then PollOut(s'.(kernel := s.kernel[key := Wanted(source')]), Pending, None)
      else PollOut(s', Err, None)
  }

  /** One-shot delivery: whatever is reported is no longer watched for anything. */
  function Disarm(kernel: map<Key, Armed>, events: seq<Event>): map<Key, Armed>
    decreases |events|
  {
    if events == [] then kernel
    else Disarm(if events[0].key in kernel then kernel[events[0].key := Armed(false, false)] else kernel, events[1..])
  }

  function Take(i: Interest): Interest {
    Interest(None, true)
  }

  function TakeIf(i: Interest, reported: bool): Interest {
    if reported then Take(i) else i
  }

  function Woken(i: Interest, reported: bool): seq<Waker> {
    if reported && i.poller.Some? then [i.poller.value] else []
  }

  datatype PollAll = PollAll(state: State, ok: bool, wakers: seq<Waker>)

  /** The reactor's answer to one event. */
  function Handle(s: State, e: Event, ok: bool): PollAll {
    if e.key !in s.sources || e.key !in s.books then PollAll(s, true, [])
    else
      var source, b := s.sources[e.key], s.books[e.key];
      var source' := Source(TakeIf(source.reader, e.readable), TakeIf(source.writer, e.writable));
      var b' := Books(if e.readable then HandedOut(b.reader, source.reader.poller) else b.reader,
                      if e.writable then HandedOut(b.writer, source.writer.poller) else b.writer);
      var s' := s.(sources := s.sources[e.key := source'], books := s.books[e.key := b']);
      var wakers := Woken(source.reader, e.readable) + Woken(source.writer, e.writable);
      if Wanted(source') == Armed(false, false) then PollAll(s', true, wakers)
      else if ok then PollAll(s'.(kernel := s.kernel[e.key := Wanted(source')]), true, wakers)
      else PollAll(s', false, wakers)
  }

  /** The loop over the reported events; it stops at the first update that fails. `oks[i]`
      says whether the kernel takes the update for the `i`-th event. */
  function HandleAll(s: State, events: seq<Event>, oks: seq<bool>): PollAll
    requires |events| == |oks|
    decreases |events|
  {
    if events == [] then PollAll(s, true, [])
    else
      var first := Handle(s, events[0], oks[0]);
      if !first.ok then first
      else
        var rest := HandleAll(first.state, events[1..], oks[1..]);
        rest.(wakers := first.wakers + rest.wakers)
  }

  function Deliver(s: State, events: seq<Event>, oks: seq<bool>): PollAll
    requires |events| == |oks|
  {
    HandleAll(s.(kernel := Disarm(s.kernel, events)), events, oks)
  }

  /** How a wait for the kernel ends; `oks[i]` says whether it takes the update for the `i`-th
      event. */
  datatype Wait = Reported(events: seq<Event>, oks: seq<bool>) | Interrupted | Failed

  predicate WellFormed(wait: Wait) {
    wait.Reported? ==> |wait.events| == |wait.oks|
  }

  /** One wait; an interrupted one reports nothing, a failed one is an error. */
  function PollKernel(s: State, wait: Wait): PollAll
    requires WellFormed(wait)
  {
    match wait
    case Reported(events, oks) => Deliver(s, events, oks)
    case Interrupted => PollAll(s, true, [])
    case Failed => PollAll(s, false, [])
  }

  // ----- the invariants

  ghost predicate SlotOk(i: Interest, l: Ledger) {
    && !(i.woke && i.poller.Some?)
    && l.stored == l.handed + (if i.poller.Some? then [i.poller.value] else [])
  }

  ghost predicate BothOk(source: Source, b: Books) {
    SlotOk(source.reader, b.reader) && SlotOk(source.writer, b.writer)
  }

  /** No direction is both woken and waiting, and every waker ever stored for a live source
      has been handed out to be woken, in order, except the one still stored. */
  ghost predicate SlotsOk(s: State) {
    && s.books.Keys == s.sources.Keys
    && forall key :: key in s.sources ==> BothOk(s.sources[key], s.books[key])
  }

  ghost predicate AgreesOn(s: State, key: Key)
    requires key in s.sources
  {
    key in s.kernel && s.kernel[key] == Wanted(s.sources[key])
  }

  /** The kernel watches each source for exactly the directions that have a waker. */
  ghost predicate Agree(s: State) {
    forall key :: key in s.sources ==> AgreesOn(s, key)
  }

  lemma PollReadyKeepsSlots(s: State, key: Key, d: Direction, waker: Waker, ok: bool)
    requires SlotsOk(s) && key in s.sources
    ensures SlotsOk(PollReady(s, key, d, waker, ok).state)
  {
    var s' := PollReady(s, key, d, waker, ok).state;
    var i, l := Of(s.sources[key], d), LedgerOf(s.books[key], d);
    if !i.woke && i.poller.Some? {
      assert l.stored + [waker] == l.handed + [i.poller.value] + [waker];
    }
    assert SlotOk(Of(s'.sources[key], d), LedgerOf(s'.books[key], d));
  }

  /** A poll for readiness loses the agreement exactly when it reports an error. */
  lemma PollReadyAgreesIff(s: State, key: Key, d: Direction, waker: Waker, ok: bool)
    requires SlotsOk(s) && Agree(s) && key in s.sources
    ensures Agree(PollReady(s, key, d, waker, ok).state) <==> PollReady(s, key, d, waker, ok).result != Err
    ensures PollReady(s, key, d, waker, ok).result == Ready <==> Of(s.sources[key], d).woke
  {
    var out := PollReady(s, key, d, waker, ok);
    assert AgreesOn(s, key);
    forall k | k in s.sources && k != key ensures AgreesOn(out.state, k) {
      assert AgreesOn(s, k);
    }
    if out.result == Err {
      assert !AgreesOn(out.state, key);
    }
  }

  lemma TakeKeepsSlot(i: Interest, l: Ledger, reported: bool)
    requires SlotOk(i, l)
    ensures SlotOk(TakeIf(i, reported), if reported then HandedOut(l, i.poller) else l)
  {
  }

  lemma HandleKeepsSlots(s: State, e: Event, ok: bool)
    requires SlotsOk(s)
    ensures SlotsOk(Handle(s, e, ok).state) && Handle(s, e, ok).state.sources.Keys == s.sources.Keys
  {
    if e.key in s.sources {
      assert BothOk(s.sources[e.key], s.books[e.key]);
      TakeKeepsSlot(s.sources[e.key].reader, s.books[e.key].reader, e.readable);
      TakeKeepsSlot(s.sources[e.key].writer, s.books[e.key].writer, e.writable);
    }
  }

  /** What a ledger gained as handed out is among `wakers`. */
  ghost predicate Gained(before: Ledger, after: Ledger, wakers: seq<Waker>) {
    && before.handed <= after.handed
    && forall w :: w in after.handed[|before.handed|..] ==> w in wakers
  }

  ghost predicate AllGained(s: State, s': State, wakers: seq<Waker>) {
    forall key :: key in s.books ==>
      && key in s'.books
      && Gained(s.books[key].reader, s'.books[key].reader, wakers)
      && Gained(s.books[key].writer, s'.books[key].writer, wakers)
  }

  lemma GainedTwice(a: Ledger, b: Ledger, c: Ledger, first: seq<Waker>, rest: seq<Waker>)
    requires Gained(a, b, first) && Gained(b, c, rest)
    ensures Gained(a, c, first + rest)
  {
    forall w | w in c.handed[|a.handed|..] ensures w in first + rest {
      var n :| |a.handed| <= n < |c.handed| && c.handed[n] == w;
      if n < |b.handed| {
        assert b.handed[|a.handed|..][n - |a.handed|] == w;
      } else {
        assert c.handed[|b.handed|..][n - |b.handed|] == w;
      }
    }
  }

  lemma AllGainedTwice(a: State, b: State, c: State, first: seq<Waker>, rest: seq<Waker>)
    requires AllGained(a, b, first) && AllGained(b, c, rest)
    ensures AllGained(a, c, first + rest)
  {
    forall key | key in a.books
      ensures key in c.books
      ensures Gained(a.books[key].reader, c.books[key].reader, first + rest)
      ensures Gained(a.books[key].writer, c.books[key].writer, first + rest)
    {
      GainedTwice(a.books[key].reader, b.books[key].reader, c.books[key].reader, first, rest);
      GainedTwice(a.books[key].writer, b.books[key].writer, c.books[key].writer, first, rest);
    }
  }

  lemma HandleGains(s: State, e: Event, ok: bool)
    ensures AllGained(s, Handle(s, e, ok).state, Handle(s, e, ok).wakers)
  {
  }

  /** The loop hands nobody's waker out without passing it on to be woken. */
  lemma {:induction false} HandedOutIsWoken(s: State, events: seq<Event>, oks: seq<bool>)
    requires |events| == |oks|
    ensures AllGained(s, HandleAll(s, events, oks).state, HandleAll(s, events, oks).wakers)
    decreases |events|
  {
    if events == [] {
    } else {
      var first := Handle(s, events[0], oks[0]);
      HandleGains(s, events[0], oks[0]);
      if first.ok {
        HandedOutIsWoken(first.state, events[1..], oks[1..]);
        var rest := HandleAll(first.state, events[1..], oks[1..]);
        AllGainedTwice(s, first.state, rest.state, first.wakers, rest.wakers);
      }
    }
  }

  lemma {:induction false} HandleAllKeepsSlots(s: State, events: seq<Event>, oks: seq<bool>)
    requires SlotsOk(s) && |events| == |oks|
    ensures SlotsOk(HandleAll(s, events, oks).state)
    decreases |events|
  {
    if events == [] {
    } else {
      HandleKeepsSlots(s, events[0], oks[0]);
      HandleAllKeepsSlots(Handle(s, events[0], oks[0]).state, events[1..], oks[1..]);
    }
  }

  ghost predicate Distinct(events: seq<Event>) {
    forall i, j :: 0 <= i < j < |events| ==> events[i].key != events[j].key
  }

  ghost predicate Mentions(events: seq<Event>, key: Key) {
    exists i :: 0 <= i < |events| && events[i].key == key
  }

  lemma {:induction false} DisarmMeets(kernel: map<Key, Armed>, events: seq<Event>)
    ensures Disarm(kernel, events).Keys == kernel.Keys
    ensures forall k :: k in kernel ==>
      Disarm(kernel, events)[k] == if Mentions(events, k) then Armed(false, false) else kernel[k]
    decreases |events|
  {
    if events == [] {
    } else {
      var e, rest := events[0], events[1..];
      var kernel' := if e.key in kernel then kernel[e.key := Armed(false, false)] else kernel;
      DisarmMeets(kernel', rest);
      forall k ensures Mentions(events, k) <==> k == e.key || Mentions(rest, k) {
        if Mentions(events, k) && k != e.key {
          var i :| 0 <= i < |events| && events[i].key == k;
          assert rest[i - 1].key == k;
        }
        if Mentions(rest, k) {
          var i :| 0 <= i < |rest| && rest[i].key == k;
          assert events[i + 1].key == k;
        }
      }
    }
  }

  /** In the middle of the loop: sources still to be handled are disarmed, all others agree. */
  ghost predicate Between(s: State, events: seq<Event>) {
    forall key :: key in s.sources ==>
      if Mentions(events, key) then key in s.kernel && s.kernel[key] == Armed(false, false)
      else AgreesOn(s, key)
  }

  lemma HandleMovesOn(s: State, events: seq<Event>, ok: bool)
    requires Between(s, events) && Distinct(events) && events != [] && SlotsOk(s)
    ensures var r := Handle(s, events[0], ok);
      if r.ok then Between(r.state, events[1..]) else !Agree(r.state)
  {
    var e, rest, r := events[0], events[1..], Handle(s, events[0], ok);
    assert Mentions(events, e.key);
    assert !Mentions(rest, e.key);
    forall k | k != e.key ensures Mentions(events, k) <==> Mentions(rest, k) {
      if Mentions(events, k) {
        var i :| 0 <= i < |events| && events[i].key == k;
        assert rest[i - 1].key == k;
      }
      if Mentions(rest, k) {
        var i :| 0 <= i < |rest| && rest[i].key == k;
        assert events[i + 1].key == k;
      }
    }
    if !r.ok {
      assert !AgreesOn(r.state, e.key);
    } else {
      forall k | k in r.state.sources && !Mentions(rest, k) ensures AgreesOn(r.state, k) {
        assert k != e.key ==> AgreesOn(s, k);
      }
    }
  }

  lemma {:induction false} HandleAllAgrees(s: State, events: seq<Event>, oks: seq<bool>)
    requires Between(s, events) && Distinct(events) && |events| == |oks| && SlotsOk(s)
    ensures Agree(HandleAll(s, events, oks).state) <==> HandleAll(s, events, oks).ok
    decreases |events|
  {
    if events == [] {
      assert forall k :: !Mentions(events, k);
    } else {
      HandleMovesOn(s, events, oks[0]);
      HandleKeepsSlots(s, events[0], oks[0]);
      if Handle(s, events[0], oks[0]).ok {
        HandleAllAgrees(Handle(s, events[0], oks[0]).state, events[1..], oks[1..]);
      }
    }
  }

  /** After a poll of the kernel, which reports a source at most once, its registrations
      agree with the stored wakers again, exactly when no update failed. */
  lemma DeliverAgreesIff(s: State, events: seq<Event>, oks: seq<bool>)
    requires SlotsOk(s) && Agree(s) && Distinct(events) && |events| == |oks|
    ensures SlotsOk(Deliver(s, events, oks).state)
    ensures Agree(Deliver(s, events, oks).state) <==> Deliver(s, events, oks).ok
  {
    var s1 := s.(kernel := Disarm(s.kernel, events));
    DisarmMeets(s.kernel, events);
    forall key | key in s.sources ensures AgreesOn(s, key) {
    }
    HandleAllKeepsSlots(s1, events, oks);
    HandleAllAgrees(s1, events, oks);
  }

  // ----- runs

  datatype Op =
    | InsertSource(key: Key)
    | RemoveSource(key: Key)
    | PollFor(key: Key, d: Direction, waker: Waker, ok: bool)
    | WaitForKernel(wait: Wait)

  /** Calls on a source that is not there, or a slot that is not vacant, are not made. */
  function Step(s: State, op: Op): State {
    match op
    case InsertSource(key) => if key in s.sources then s else Insert(s, key)
    case RemoveSource(key) => if key !in s.sources then s else Remove(s, key)
    case PollFor(key, d, waker, ok) =>
      if key !in s.sources || key !in s.books then s else PollReady(s, key, d, waker, ok).state
    case WaitForKernel(wait) => if !WellFormed(wait) then s else PollKernel(s, wait).state
  }

  function Run(s: State, ops: seq<Op>): State
    decreases |ops|
  {
    if ops == [] then s else Run(Step(s, ops[0]), ops[1..])
  }

  lemma StepKeepsSlots(s: State, op: Op)
    requires SlotsOk(s)
    ensures SlotsOk(Step(s, op))
  {
    match op
    case InsertSource(key) =>
    case RemoveSource(key) =>
    case PollFor(key, d, waker, ok) =>
      if key in s.sources {
        PollReadyKeepsSlots(s, key, d, waker, ok);
      }
    case WaitForKernel(wait) =>
      if wait.Reported? && WellFormed(wait) {
        HandleAllKeepsSlots(s.(kernel := Disarm(s.kernel, wait.events)), wait.events, wait.oks);
      }
  }

  /** Over every run, whatever fails meanwhile: no direction is both reported and waiting, and
      no waker is lost. */
  lemma {:induction false} EveryRunKeepsBooks(s: State, ops: seq<Op>)
    requires SlotsOk(s)
    ensures SlotsOk(Run(s, ops))
    decreases |ops|
  {
    if ops == [] {
    } else {
      StepKeepsSlots(s, ops[0]);
      EveryRunKeepsBooks(Step(s, ops[0]), ops[1..]);
    }
  }

  /** The kernel takes every update that the call makes. */
  predicate Working(op: Op) {
    match op
    case PollFor(_, _, _, ok) => ok
    case WaitForKernel(Reported(_, oks)) => forall i :: 0 <= i < |oks| ==> oks[i]
    case _ => true
  }

  /** The kernel reports a source at most once. */
  ghost predicate ReportsOnce(op: Op) {
    op.WaitForKernel? && op.wait.Reported? ==> Distinct(op.wait.events)
  }

  lemma {:induction false} AllOkSucceeds(s: State, events: seq<Event>, oks: seq<bool>)
    requires |events| == |oks| && forall i :: 0 <= i < |oks| ==> oks[i]
    ensures HandleAll(s, events, oks).ok
    decreases |events|
  {
    if events == [] {
    } else {
      AllOkSucceeds(Handle(s, events[0], oks[0]).state, events[1..], oks[1..]);
    }
  }

  lemma StepKeeps(s: State, op: Op)
    requires SlotsOk(s) && Agree(s) && ReportsOnce(op) && Working(op)
    ensures SlotsOk(Step(s, op)) && Agree(Step(s, op))
  {
    StepKeepsSlots(s, op);
    match op
    case InsertSource(key) =>
      if key !in s.sources {
        forall k | k in s.sources ensures AgreesOn(Insert(s, key), k) {
          assert AgreesOn(s, k);
        }
        assert AgreesOn(Insert(s, key), key);
      }
    case RemoveSource(key) =>
      forall k | k in Remove(s, key).sources ensures AgreesOn(Remove(s, key), k) {
        assert AgreesOn(s, k);
      }
    case PollFor(key, d, waker, ok) =>
      if key in s.sources {
        PollReadyAgreesIff(s, key, d, waker, true);
      }
    case WaitForKernel(wait) =>
      if wait.Reported? && WellFormed(wait) {
        DeliverAgreesIff(s, wait.events, wait.oks);
        AllOkSucceeds(s.(kernel := Disarm(s.kernel, wait.events)), wait.events, wait.oks);
      }
  }

  /** Over every run in which the kernel takes the updates, what it watches is what somebody
      waits for. */
  lemma {:induction false} EveryRunAgrees(s: State, ops: seq<Op>)
    requires SlotsOk(s) && Agree(s)
    requires forall i :: 0 <= i < |ops| ==> ReportsOnce(ops[i]) && Working(ops[i])
    ensures SlotsOk(Run(s, ops)) && Agree(Run(s, ops))
    decreases |ops|
  {
    if ops == [] {
    } else {
      StepKeeps(s, ops[0]);
      EveryRunAgrees(Step(s, ops[0]), ops[1..]);
    }
  }

  const START := State(map[], map[], map[])

  /** A reactor without sources is in order. */
  lemma StartAgrees()
    ensures SlotsOk(START) && Agree(START)
  {
  }

  // ----- after an update that failed

  /** Somebody waits for the direction, but the kernel does not watch it. */
  ghost predicate Stranded(s: State, key: Key, d: Direction, w: Waker) {
    && key in s.sources && key in s.books && Of(s.sources[key], d) == Interest(Some(w), false)
    && key in s.kernel && !Watched(s.kernel[key], d)
  }

  /** A poll that reports an error leaves its waker stranded. */
  lemma ErrStrands(s: State, key: Key, d: Direction, waker: Waker, ok: bool)
    requires SlotsOk(s) && Agree(s) && key in s.sources
    ensures var out := PollReady(s, key, d, waker, ok);
      out.result == Err <==> Stranded(out.state, key, d, waker)
  {
    assert AgreesOn(s, key);
  }

  /** What may arm a stranded direction again: the other direction's poll, if it asks the
      kernel at all and is heard, and a report about the source; or the source is removed. */
  ghost predicate Rescues(s: State, op: Op, key: Key, d: Direction)
    requires key in s.sources
  {
    match op
    case InsertSource(_) => false
    case RemoveSource(k) => k == key
    case PollFor(k, e, _, ok) => k == key && e != d && ok && Of(s.sources[key], e) == NO_INTEREST
    case WaitForKernel(wait) => wait.Reported? && WellFormed(wait) && Mentions(wait.events, key)
  }

  function LastWaker(op: Op, key: Key, d: Direction, w: Waker): Waker {
    if op.PollFor? && op.key == key && op.d == d then op.waker else w
  }

  /** The waker of the latest poll for the direction. */
  function LatestWaker(ops: seq<Op>, key: Key, d: Direction, w: Waker): Waker
    decreases |ops|
  {
    if ops == [] then w else LatestWaker(ops[1..], key, d, LastWaker(ops[0], key, d, w))
  }

  /** A source that is not mentioned is left alone. */
  lemma {:induction false} HandleAllFrame(s: State, events: seq<Event>, oks: seq<bool>, key: Key)
    requires |events| == |oks| && !Mentions(events, key)
    requires key in s.sources && key in s.books && key in s.kernel
    ensures var s' := HandleAll(s, events, oks).state;
      && key in s'.sources && key in s'.books && key in s'.kernel
      && s'.sources[key] == s.sources[key] && s'.kernel[key] == s.kernel[key]
    decreases |events|
  {
    if events == [] {
    } else {
      assert events[0].key != key;
      forall i | 0 <= i < |events[1..]| ensures events[1..][i].key != key {
        assert events[i + 1].key != key;
      }
      HandleAllFrame(Handle(s, events[0], oks[0]).state, events[1..], oks[1..], key);
    }
  }

  /** A source that is mentioned agrees with the kernel again, if the updates succeed. */
  lemma {:induction false} HandleAllHeals(s: State, events: seq<Event>, oks: seq<bool>, key: Key)
    requires |events| == |oks| && Mentions(events, key) && Distinct(events)
    requires forall i :: 0 <= i < |oks| ==> oks[i]
    requires key in s.sources && key in s.books && key in s.kernel && s.kernel[key] == Armed(false, false)
    ensures key in HandleAll(s, events, oks).state.sources && AgreesOn(HandleAll(s, events, oks).state, key)
    decreases |events|
  {
    var first := Handle(s, events[0], oks[0]);
    assert oks[0];
    if events[0].key == key {
      assert !Mentions(events[1..], key);
      HandleAllFrame(first.state, events[1..], oks[1..], key);
    } else {
      assert Mentions(events[1..], key) by {
        var i :| 0 <= i < |events| && events[i].key == key;
        assert events[1..][i - 1].key == key;
      }
      HandleAllHeals(first.state, events[1..], oks[1..], key);
    }
  }

  /** A stranded direction stays so, and polls for it only replace its waker, until it is
      rescued ... */
  lemma StaysStranded(s: State, op: Op, key: Key, d: Direction, w: Waker)
    requires Stranded(s, key, d, w) && !Rescues(s, op, key, d)
    ensures Stranded(Step(s, op), key, d, LastWaker(op, key, d, w))
  {
    if op.WaitForKernel? && op.wait.Reported? && WellFormed(op.wait) {
      DisarmMeets(s.kernel, op.wait.events);
      HandleAllFrame(s.(kernel := Disarm(s.kernel, op.wait.events)), op.wait.events, op.wait.oks, key);
    }
  }

  /** ... which ends it, if the kernel works again. */
  lemma RescueEnds(s: State, op: Op, key: Key, d: Direction, w: Waker, w': Waker)
    requires Stranded(s, key, d, w) && Rescues(s, op, key, d) && Working(op) && ReportsOnce(op)
    ensures !Stranded(Step(s, op), key, d, w')
  {
    if op.WaitForKernel? {
      DisarmMeets(s.kernel, op.wait.events);
      HandleAllHeals(s.(kernel := Disarm(s.kernel, op.wait.events)), op.wait.events, op.wait.oks, key);
    }
  }

  /** No call of the run rescues the direction. */
  ghost predicate Unrescued(s: State, ops: seq<Op>, key: Key, d: Direction)
    decreases |ops|
  {
    ops == [] ||
      (key in s.sources && !Rescues(s, ops[0], key, d) && Unrescued(Step(s, ops[0]), ops[1..], key, d))
  }

  /** After an update that failed, and until the direction is rescued, every poll for it
      returns pending and wakes whom it displaces, though the kernel watches for nobody. */
  lemma {:induction false} StrandedUntilRescued(
      s: State, ops: seq<Op>, key: Key, d: Direction, w: Waker, waker: Waker, ok: bool)
    requires Stranded(s, key, d, w) && Unrescued(s, ops, key, d)
    ensures var s', last := Run(s, ops), LatestWaker(ops, key, d, w);
      && Stranded(s', key, d, last)
      && PollReady(s', key, d, waker, ok).result == Pending
      && PollReady(s', key, d, waker, ok).woken == Some(last)
      && PollReady(s', key, d, waker, ok).state.kernel == s'.kernel
    decreases |ops|
  {
    if ops == [] {
    } else {
      StaysStranded(s, ops[0], key, d, w);
      StrandedUntilRescued(Step(s, ops[0]), ops[1..], key, d, LastWaker(ops[0], key, d, w), waker, ok);
    }
  }

  // ----- reports and readiness

  predicate Tells(e: Event, key: Key, d: Direction) {
    e.key == key && if d.Read? then e.readable else e.writable
  }

  ghost predicate OthersSame(s: State, s': State, key: Key) {
    && s'.sources.Keys == s.sources.Keys
    && (forall k :: k in s.sources && k != key ==> s'.sources[k] == s.sources[k])
    && (forall k :: k in s.kernel && k != key ==> k in s'.kernel && s'.kernel[k] == s.kernel[k])
  }

  /** The answer to a report about a live source: each reported direction is ready from now on
      and its waker is handed out, the other one is as it was. */
  lemma HandleMeans(s: State, e: Event, ok: bool)
    requires SlotsOk(s) && e.key in s.sources
    ensures var r := Handle(s, e, ok);
      && OthersSame(s, r.state, e.key)
      && (forall d :: Of(r.state.sources[e.key], d)
           == if Tells(e, e.key, d) then Interest(None, true) else Of(s.sources[e.key], d))
      && (forall d: Direction :: Tells(e, e.key, d) && Of(s.sources[e.key], d).poller.Some? ==>
           Of(s.sources[e.key], d).poller.value in r.wakers)
      && (forall w :: w in r.wakers ==>
           exists d: Direction :: Tells(e, e.key, d) && Of(s.sources[e.key], d).poller == Some(w))
  {
    var r, source := Handle(s, e, ok), s.sources[e.key];
    forall w | w in r.wakers ensures exists d: Direction :: Tells(e, e.key, d) && Of(source, d).poller == Some(w) {
      if Tells(e, e.key, Read) && Of(source, Read).poller == Some(w) {
      } else {
        assert Tells(e, e.key, Write) && Of(source, Write).poller == Some(w);
      }
    }
  }

  /** An update that the kernel refuses: one is asked for when somebody still waits. */
  ghost predicate UpdateFails(s: State, e: Event, ok: bool) {
    !ok && e.key in s.sources && exists d: Direction :: !Tells(e, e.key, d) && Of(s.sources[e.key], d).poller.Some?
  }

  lemma HandleFailsIff(s: State, e: Event, ok: bool)
    requires SlotsOk(s)
    ensures Handle(s, e, ok).ok <==> !UpdateFails(s, e, ok)
  {
    if e.key in s.sources {
      var source := s.sources[e.key];
      assert Tells(e, e.key, Read) <==> e.readable;
      assert Tells(e, e.key, Write) <==> e.writable;
      assert Of(source, Read) == source.reader && Of(source, Write) == source.writer;
    }
  }

  /** The events that the loop gets to: it stops after an update that fails. */
  function Handled(s: State, events: seq<Event>, oks: seq<bool>): seq<Event>
    requires |events| == |oks|
    decreases |events|
  {
    if events == [] then []
    else
      var first := Handle(s, events[0], oks[0]);
      [events[0]] + if first.ok then Handled(first.state, events[1..], oks[1..]) else []
  }

  ghost predicate SomeUpdateFails(s: State, events: seq<Event>, oks: seq<bool>)
    requires |events| == |oks|
    decreases |events|
  {
    events != [] &&
      (UpdateFails(s, events[0], oks[0]) || SomeUpdateFails(Handle(s, events[0], oks[0]).state, events[1..], oks[1..]))
  }

  lemma {:induction false} LoopFailsIff(s: State, events: seq<Event>, oks: seq<bool>)
    requires SlotsOk(s) && |events| == |oks|
    ensures HandleAll(s, events, oks).ok <==> !SomeUpdateFails(s, events, oks)
    decreases |events|
  {
    if events == [] {
    } else {
      HandleFailsIff(s, events[0], oks[0]);
      HandleKeepsSlots(s, events[0], oks[0]);
      LoopFailsIff(Handle(s, events[0], oks[0]).state, events[1..], oks[1..]);
    }
  }

  /** A wait fails exactly if the kernel fails it, or refuses an update for what it reported;
      interrupted or failed, it changes nothing and hands out nobody. */
  lemma WaitFailsIff(s: State, wait: Wait)
    requires SlotsOk(s) && WellFormed(wait)
    ensures PollKernel(s, wait).ok <==> match wait
      case Reported(events, oks) => !SomeUpdateFails(s.(kernel := Disarm(s.kernel, events)), events, oks)
      case Interrupted => true
      case Failed => false
    ensures !wait.Reported? ==> PollKernel(s, wait).state == s && PollKernel(s, wait).wakers == []
  {
    if wait.Reported? {
      LoopFailsIff(s.(kernel := Disarm(s.kernel, wait.events)), wait.events, wait.oks);
    }
  }

  ghost predicate Told(events: seq<Event>, key: Key, d: Direction) {
    exists i :: 0 <= i < |events| && Tells(events[i], key, d)
  }

  lemma ToldFirst(e: Event, rest: seq<Event>, key: Key, d: Direction)
    ensures Told([e] + rest, key, d) <==> Tells(e, key, d) || Told(rest, key, d)
  {
    var all := [e] + rest;
    assert all[0] == e;
    if Told(rest, key, d) {
      var i :| 0 <= i < |rest| && Tells(rest[i], key, d);
      assert all[i + 1] == rest[i];
    }
    if Told(all, key, d) && !Tells(e, key, d) {
      var i :| 0 <= i < |all| && Tells(all[i], key, d);
      assert rest[i - 1] == all[i];
    }
  }

  lemma HandleMakesReady(s: State, e: Event, ok: bool, key: Key, d: Direction)
    requires SlotsOk(s) && key in s.sources
    ensures var s' := Handle(s, e, ok).state;
      SlotsOk(s') && key in s'.sources &&
      (Of(s'.sources[key], d).woke <==> Of(s.sources[key], d).woke || Tells(e, key, d))
  {
    HandleKeepsSlots(s, e, ok);
    if e.key in s.sources {
      HandleMeans(s, e, ok);
    }
  }

  /** A direction is ready after the loop if it was before, or is told by an event handled. */
  lemma {:induction false} LoopMakesReady(s: State, events: seq<Event>, oks: seq<bool>, key: Key, d: Direction)
    requires SlotsOk(s) && |events| == |oks| && key in s.sources
    ensures var s' := HandleAll(s, events, oks).state;
      key in s'.sources && (Of(s'.sources[key], d).woke <==>
        Of(s.sources[key], d).woke || Told(Handled(s, events, oks), key, d))
    decreases |events|
  {
    if events == [] {
    } else {
      var e, first := events[0], Handle(s, events[0], oks[0]);
      HandleMakesReady(s, e, oks[0], key, d);
      ToldFirst(e, if first.ok then Handled(first.state, events[1..], oks[1..]) else [], key, d);
      if first.ok {
        LoopMakesReady(first.state, events[1..], oks[1..], key, d);
      }
    }
  }

  /** Whether a report of the direction is outstanding: one was handled since the source was
      inserted, and no poll for the direction was made since. */
  ghost function OutstandingAfter(s: State, op: Op, key: Key, d: Direction, before: bool): bool {
    if key !in s.sources then false
    else match op
      case InsertSource(_) => before
      case RemoveSource(k) => k != key && before
      case PollFor(k, e, _, _) => !(k == key && e == d) && before
      case WaitForKernel(wait) =>
        before || (wait.Reported? && WellFormed(wait) &&
          Told(Handled(s.(kernel := Disarm(s.kernel, wait.events)), wait.events, wait.oks), key, d))
  }

  ghost function Outstanding(s: State, ops: seq<Op>, key: Key, d: Direction, before: bool): bool
    decreases |ops|
  {
    if ops == [] then before
    else Outstanding(Step(s, ops[0]), ops[1..], key, d, OutstandingAfter(s, ops[0], key, d, before))
  }

  /** What a poll for readiness does to its direction, and leaves alone. */
  lemma PollReadyTouches(s: State, key: Key, d: Direction, waker: Waker, ok: bool)
    requires SlotsOk(s) && key in s.sources
    ensures var out, i := PollReady(s, key, d, waker, ok), Of(s.sources[key], d);
      && OthersSame(s, out.state, key)
      && (forall e :: e != d ==> Of(out.state.sources[key], e) == Of(s.sources[key], e))
      && Of(out.state.sources[key], d) == (if i.woke then NO_INTEREST else Interest(Some(waker), false))
      && out.woken == i.poller
      && out.result == (if i.woke then Ready else if i.poller.None? && !ok then Err else Pending)
  {
    assert SlotOk(Of(s.sources[key], d), LedgerOf(s.books[key], d));
  }

  lemma StepTracksReports(s: State, op: Op, key: Key, d: Direction, before: bool)
    requires SlotsOk(s) && (before <==> key in s.sources && Of(s.sources[key], d).woke)
    ensures OutstandingAfter(s, op, key, d, before)
      <==> key in Step(s, op).sources && Of(Step(s, op).sources[key], d).woke
  {
    match op
    case InsertSource(k) =>
    case RemoveSource(k) =>
    case PollFor(k, e, waker, ok) =>
      if k in s.sources {
        PollReadyTouches(s, k, e, waker, ok);
      }
    case WaitForKernel(wait) =>
      if wait.Reported? && WellFormed(wait) {
        var s1 := s.(kernel := Disarm(s.kernel, wait.events));
        HandleAllKeepsKeys(s1, wait.events, wait.oks);
        if key in s.sources {
          LoopMakesReady(s1, wait.events, wait.oks, key, d);
        }
      }
  }

  lemma {:induction false} HandleAllKeepsKeys(s: State, events: seq<Event>, oks: seq<bool>)
    requires SlotsOk(s) && |events| == |oks|
    ensures HandleAll(s, events, oks).state.sources.Keys == s.sources.Keys
    decreases |events|
  {
    if events == [] {
    } else {
      HandleKeepsSlots(s, events[0], oks[0]);
      HandleAllKeepsKeys(Handle(s, events[0], oks[0]).state, events[1..], oks[1..]);
    }
  }

  lemma {:induction false} RunTracksReports(s: State, ops: seq<Op>, key: Key, d: Direction, before: bool)
    requires SlotsOk(s) && (before <==> key in s.sources && Of(s.sources[key], d).woke)
    ensures SlotsOk(Run(s, ops))
    ensures Outstanding(s, ops, key, d, before)
      <==> key in Run(s, ops).sources && Of(Run(s, ops).sources[key], d).woke
    decreases |ops|
  {
    if ops == [] {
    } else {
      StepKeepsSlots(s, ops[0]);
      StepTracksReports(s, ops[0], key, d, before);
      RunTracksReports(Step(s, ops[0]), ops[1..], key, d, OutstandingAfter(s, ops[0], key, d, before));
    }
  }

  /** Over every run of a new reactor, whatever fails: a poll for a direction of a live source
      is ready if and only if a report of it has been handled since the source was inserted
      and since the last poll for it. */
  lemma ReadyIffReported(ops: seq<Op>, key: Key, d: Direction, waker: Waker, ok: bool)
    ensures var s := Run(START, ops);
      key in s.sources ==>
        key in s.books && (PollReady(s, key, d, waker, ok).result == Ready <==> Outstanding(START, ops, key, d, false))
  {
    RunTracksReports(START, ops, key, d, false);
    var s := Run(START, ops);
    if key in s.sources {
      PollReadyTouches(s, key, d, waker, ok);
    }
  }

  // ----- poll_io

  datatype Io = WouldBlock | Done(v: nat)
  datatype IoPoll = IoReady(v: nat) | IoPending | IoErr

  datatype IoOut = IoOut(state: State, result: IoPoll, calls: nat, woken: Option<Waker>)

  /** `io(k)` is what the operation returns when it is called for the `k`-th time. */
  function PollIo(s: State, key: Key, d: Direction, waker: Waker, ok: bool, io: nat -> Io, k: nat): IoOut
    requires key in s.sources && key in s.books
    decreases Of(s.sources[key], d).woke
  {
    match io(k)
    case Done(v) => IoOut(s, IoReady(v), k + 1, None)
    case WouldBlock =>
      var p := PollReady(s, key, d, waker, ok);
      match p.result
      case Err => IoOut(p.state, IoErr, k + 1, p.woken)
      case Pending => IoOut(p.state, IoPending, k + 1, p.woken)
      case Ready => PollIo(p.state, key, d, waker, ok, io, k + 1)
  }

  /** What one poll for readiness means to the direction it is about. */
  lemma PollReadyMeans(s: State, key: Key, d: Direction, waker: Waker, ok: bool)
    requires SlotsOk(s) && Agree(s) && key in s.sources
    ensures var p := PollReady(s, key, d, waker, ok);
      && SlotsOk(p.state) && key in p.state.sources
      && (Agree(p.state) <==> p.result != Err)
      && (p.result == Ready <==> Of(s.sources[key], d).woke)
      && (p.result == Ready ==> Of(p.state.sources[key], d) == NO_INTEREST)
      && (p.result == Err ==> !ok)
      && (p.result == Pending ==>
           && Of(p.state.sources[key], d) == Interest(Some(waker), false)
           && key in p.state.kernel && Watched(p.state.kernel[key], d))
  {
    PollReadyKeepsSlots(s, key, d, waker, ok);
    PollReadyAgreesIff(s, key, d, waker, ok);
    assert AgreesOn(s, key);
    assert SlotOk(Of(s.sources[key], d), LedgerOf(s.books[key], d));
  }

  /** What a pending poll leaves behind: the waker stored, and the direction watched. */
  ghost predicate Parked(s: State, key: Key, d: Direction, waker: Waker) {
    && key in s.sources && Of(s.sources[key], d) == Interest(Some(waker), false)
    && key in s.kernel && Watched(s.kernel[key], d)
  }

  /** The outcome of a `poll_io` whose last call of the operation was the `n`-th. */
  ghost predicate IoSettled(out: IoOut, key: Key, d: Direction, waker: Waker, ok: bool, io: nat -> Io, n: nat) {
    && out.calls == n + 1
    && SlotsOk(out.state) && (Agree(out.state) <==> out.result != IoErr)
    && match out.result
       case IoReady(v) => io(n) == Done(v)
       case IoErr => !ok && io(n) == WouldBlock
       case IoPending => io(n) == WouldBlock && Parked(out.state, key, d, waker)
  }

  lemma PollIoOnce(s: State, key: Key, d: Direction, waker: Waker, ok: bool, io: nat -> Io, k: nat)
    requires SlotsOk(s) && Agree(s) && key in s.sources && !Of(s.sources[key], d).woke
    ensures var out := PollIo(s, key, d, waker, ok, io, k);
      && IoSettled(out, key, d, waker, ok, io, k) && OthersSame(s, out.state, key)
      && out.woken == if out.result.IoReady? then None else Of(s.sources[key], d).poller
  {
    PollReadyMeans(s, key, d, waker, ok);
    PollReadyTouches(s, key, d, waker, ok);
  }

  /** The operation is tried a second time exactly when its direction had been reported and
      the first try would have blocked, and never a third time; a pending result leaves the
      waker stored and the direction watched, and wakes whom it displaces; a ready one is the
      operation's own. */
  lemma PollIoTriesTwice(s: State, key: Key, d: Direction, waker: Waker, ok: bool, io: nat -> Io)
    requires SlotsOk(s) && Agree(s) && key in s.sources
    ensures IoSettled(PollIo(s, key, d, waker, ok, io, 0), key, d, waker, ok, io,
                      if Of(s.sources[key], d).woke && io(0) == WouldBlock then 1 else 0)
    ensures var out := PollIo(s, key, d, waker, ok, io, 0);
      && OthersSame(s, out.state, key)
      && out.woken == if out.result.IoReady? then None else Of(s.sources[key], d).poller
  {
    if !Of(s.sources[key], d).woke {
      PollIoOnce(s, key, d, waker, ok, io, 0);
    } else if io(0).WouldBlock? {
      PollReadyMeans(s, key, d, waker, ok);
      PollReadyTouches(s, key, d, waker, ok);
      var s' := PollReady(s, key, d, waker, ok).state;
      assert PollIo(s, key, d, waker, ok, io, 0) == PollIo(s', key, d, waker, ok, io, 1);
      PollIoOnce(s', key, d, waker, ok, io, 1);
    }
  }
}
