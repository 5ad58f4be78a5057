/** The reactor and the retry loop of `Async` as the source keeps them. The kernel's own
    table and the ledgers of wakers are ghost state beside it. */
module Reactors {
  import opened Common
  import RS = ReactorSpec

  /** A direction that was reported is ready and nobody waits for it; another is unchanged. */
  predicate Told(before: RS.Interest, after: RS.Interest, reported: bool) {
    if reported then after == RS.Interest(None, true) else after == before
  }

  class Reactor {
    var sources: map<RS.Key, RS.Source>
    ghost var kernel: map<RS.Key, RS.Armed>
    ghost var books: map<RS.Key, RS.Books>

    ghost function View(): RS.State
      reads this
    {
      RS.State(sources, kernel, books)
    }

    constructor ()
      ensures View() == RS.START && RS.SlotsOk(View()) && RS.Agree(View())
    {
      sources, kernel, books := map[], map[], map[];
    }

    /** `key` is the slab's vacant slot; `ok` says whether the kernel takes the source. */
    method InsertSource(key: RS.Key, ok: bool) returns (r: Option<RS.Key>)
      requires key !in sources
      modifies this
      ensures View() == if ok then RS.Insert(old(View()), key) else old(View())
      ensures r == if ok then Some(key) else None
      ensures ok ==> sources == old(sources)[key := RS.Source(RS.Interest(None, false), RS.Interest(None, false))]
    {
      if !ok {
        return None;
      }
      kernel := kernel[key := RS.Armed(false, false)];
      sources := sources[key := RS.Source(RS.NO_INTEREST, RS.NO_INTEREST)];
      books := books[key := RS.Books(RS.NO_LEDGER, RS.NO_LEDGER)];
      r := Some(key);
    }

    method RemoveSource(key: RS.Key)
      requires key in sources
      modifies this
      ensures View() == RS.Remove(old(View()), key)
      ensures key !in sources
      ensures forall k :: k in old(sources) && k != key ==> k in sources && sources[k] == old(sources)[k]
    {
      sources := sources - {key};
      kernel, books := kernel - {key}, books - {key};
    }

    /** Asks the kernel to watch the directions that have a waker. */
    method UpdateInterest(key: RS.Key, ok: bool)
      requires key in sources
      modifies this`kernel
      ensures kernel == if ok then old(kernel)[key := RS.Wanted(sources[key])] else old(kernel)
    {
      if ok {
        kernel := kernel[key := RS.Wanted(sources[key])];
      }
    }

    method PollReady(key: RS.Key, d: RS.Direction, waker: RS.Waker, ok: bool)
      returns (r: RS.Poll, woken: Option<RS.Waker>)
      requires key in sources && key in books
      modifies this
      ensures RS.PollOut(View(), r, woken) == RS.PollReady(old(View()), key, d, waker, ok)
    {
      var source := sources[key];
      var interest := RS.Of(source, d);
      if interest.woke {
        sources := sources[key := RS.Put(source, d, interest.(woke := false))];
        return RS.Ready, None;
      }
      sources := sources[key := RS.Put(source, d, interest.(poller := Some(waker)))];
      ghost var l := RS.LedgerOf(books[key], d);
      books := books[key := RS.Entered(books[key], d,
                                       RS.HandedOut(l.(stored := l.stored + [waker]), interest.poller))];
      match interest.poller {
        case Some(displaced) => woken := Some(displaced);
        case None =>
          woken := None;
          UpdateInterest(key, ok);
          if !ok {
            return RS.Err, None;
          }
      }
      r := RS.Pending;
    }

    /** The answer to one reported event. */
    method Handle(e: RS.Event, ok: bool, wakers: seq<RS.Waker>) returns (success: bool, wakers': seq<RS.Waker>)
      requires books.Keys == sources.Keys
      modifies this
      ensures books.Keys == sources.Keys
      ensures var out := RS.Handle(old(View()), e, ok);
        View() == out.state && success == out.ok && wakers' == wakers + out.wakers
      ensures e.key in sources ==>
        && Told(old(sources)[e.key].reader, sources[e.key].reader, e.readable)
        && Told(old(sources)[e.key].writer, sources[e.key].writer, e.writable)
      ensures forall k :: k in sources && k != e.key ==> sources[k] == old(sources)[k]
      ensures success <==>
        ok || e.key !in sources || (sources[e.key].reader.poller.None? && sources[e.key].writer.poller.None?)
    {
      wakers' := wakers;
      if e.key !in sources {
        return true, wakers;
      }
      var source := sources[e.key];
      ghost var b := books[e.key];
      if e.readable {
        wakers' := wakers' + RS.Woken(source.reader, true);
        b := b.(reader := RS.HandedOut(b.reader, source.reader.poller));
        source := source.(reader := RS.Take(source.reader));
      }
      if e.writable {
        wakers' := wakers' + RS.Woken(source.writer, true);
        b := b.(writer := RS.HandedOut(b.writer, source.writer.poller));
        source := source.(writer := RS.Take(source.writer));
      }
      sources, books := sources[e.key := source], books[e.key := b];
      success := true;
      if source.reader.poller.Some? || source.writer.poller.Some? {
        UpdateInterest(e.key, ok);
        success := ok;
      }
    }

    /** One wait for the kernel, and the loop over what it reported, which stops at the first
        update that fails. */
    method Poll(wait: RS.Wait, wakers: seq<RS.Waker>) returns (success: bool, wakers': seq<RS.Waker>)
      requires books.Keys == sources.Keys && RS.WellFormed(wait)
      modifies this
      ensures var out := RS.PollKernel(old(View()), wait);
        View() == out.state && success == out.ok && wakers' == wakers + out.wakers
      ensures !wait.Reported? ==> View() == old(View()) && wakers' == wakers && (success <==> wait.Interrupted?)
    {
      match wait {
        case Interrupted =>
          return true, wakers;
        case Failed =>
          return false, wakers;
        case Reported(events, oks) =>
          success, wakers' := HandleAll(events, oks, wakers);
      }
    }

    /** The loop; its source is the middle of `poll`. */
    method HandleAll(events: seq<RS.Event>, oks: seq<bool>, wakers: seq<RS.Waker>)
      returns (success: bool, wakers': seq<RS.Waker>)
      requires books.Keys == sources.Keys && |events| == |oks|
      modifies this
      ensures var out := RS.Deliver(old(View()), events, oks);
        View() == out.state && success == out.ok && wakers' == wakers + out.wakers
    {
      kernel := RS.Disarm(kernel, events);
      ghost var start := View();
      ghost var sent: seq<RS.Waker> := [];
      wakers' := wakers;
      for n := 0 to |events|
        invariant books.Keys == sources.Keys && wakers' == wakers + sent
        invariant var rest := RS.HandleAll(View(), events[n..], oks[n..]);
          rest.(wakers := sent + rest.wakers) == RS.HandleAll(start, events, oks)
      {
        assert events[n..][0] == events[n] && events[n..][1..] == events[n + 1..];
        assert oks[n..][0] == oks[n] && oks[n..][1..] == oks[n + 1..];
        ghost var first := RS.Handle(View(), events[n], oks[n]);
        ghost var later := RS.HandleAll(first.state, events[n + 1..], oks[n + 1..]);
        Assoc(sent, first.wakers, later.wakers);
        success, wakers' := Handle(events[n], oks[n], wakers');
        Assoc(wakers, sent, first.wakers);
        sent := sent + first.wakers;
        if !success {
          return;
        }
      }
      assert events[|events|..] == [] && sent + [] == sent;
      success := true;
    }
  }

  /** The retry loop around `PollReady`; `io(k)` is the operation's `k`-th result. */
  method PollIo(reactor: Reactor, key: RS.Key, d: RS.Direction, waker: RS.Waker, ok: bool, io: nat -> RS.Io)
    returns (r: RS.IoPoll, calls: nat, woken: Option<RS.Waker>)
    requires key in reactor.sources && key in reactor.books
    modifies reactor
    ensures RS.IoOut(reactor.View(), r, calls, woken) == RS.PollIo(old(reactor.View()), key, d, waker, ok, io, 0)
  {
    calls := 0;
    while true
      invariant key in reactor.sources && key in reactor.books
      invariant RS.PollIo(reactor.View(), key, d, waker, ok, io, calls)
        == RS.PollIo(old(reactor.View()), key, d, waker, ok, io, 0)
      decreases RS.Of(reactor.sources[key], d).woke
    {
      var result := io(calls);
      calls := calls + 1;
      if result.Done? {
        return RS.IoReady(result.v), calls, None;
      }
      var p;
      p, woken := reactor.PollReady(key, d, waker, ok);
      if p.Err? {
        return RS.IoErr, calls, woken;
      }
      if p.Pending? {
        return RS.IoPending, calls, woken;
      }
    }
  }
}
