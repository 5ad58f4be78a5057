/** The oneshot channel: the four cells its halves share, and every run of the two halves. */
module OneshotSpec {
  import opened Common

  type Waker = nat
  type Message = nat

  /** The cells. */
  datatype Shared = Shared(complete: bool, message: Option<Message>, sender: Option<Waker>, receiver: Option<Waker>)

  const FRESH := Shared(false, None, None, None)

  datatype RecvPoll = Got(m: Message) | Pending | Closed
  datatype TryRecv = Received(m: Message) | Empty | NoMessage

  /** The drop of the sender: the receiver is woken. */
  function DropSender(c: Shared): Shared {
    c.(complete := true, receiver := None, sender := None)
  }

  /** `send` uses the sender up, so its drop follows. */
  function Send(c: Shared, m: Message): Shared {
    DropSender(if c.complete then c else c.(message := Some(m)))
  }

  function PollClosed(c: Shared, w: Waker): Shared {
    if c.complete then c else c.(sender := Some(w))
  }

  /** The sender is woken. */
  function Close(c: Shared): Shared {
    c.(complete := true, sender := None)
  }

  function Receive(c: Shared): Shared {
    if c.complete then c.(message := None) else c
  }

  function PollRecv(c: Shared, w: Waker): Shared {
    if c.complete then Receive(c) else c.(receiver := Some(w))
  }

  function DropReceiver(c: Shared): Shared {
    c.(complete := true, receiver := None, sender := None)
  }

  function RecvResult(c: Shared): RecvPoll {
    if !c.complete then Pending else if c.message.Some? then Got(c.message.value) else Closed
  }

  function TryRecvResult(c: Shared): TryRecv {
    if !c.complete then Empty else if c.message.Some? then Received(c.message.value) else NoMessage
  }

  // ----- runs

  datatype Op =
    | OpSend(m: Message)
    | OpPollClosed(w: Waker)
    | OpDropSender
    | OpClose
    | OpTryRecv
    | OpPollRecv(w: Waker)
    | OpDropReceiver

  /** The cells, which halves are live and whether the receiver was closed, and the history:
      what `send` accepted, what was received, the latest pending poll of either side since
      its waker was last used, and the wakers called. */
  datatype Channel = Channel(
    cells: Shared, senderLive: bool, receiverLive: bool, closed: bool,
    accepted: Option<Message>, received: seq<Message>,
    senderWaits: Option<Waker>, receiverWaits: Option<Waker>, called: seq<Waker>)

  datatype Outcome =
    | SendOk | SendErr(m: Message) | IsClosed | NotClosed | Recv(poll: RecvPoll) | Tried(try: TryRecv) | Fine | Rejected

  datatype Result = Result(channel: Channel, outcome: Outcome)

  function Start(): Channel {
    Channel(FRESH, true, true, false, None, [], None, None, [])
  }

  /** The wakers that a change of the cells calls. */
  function Taken(w: Option<Waker>): seq<Waker> {
    if w.Some? then [w.value] else []
  }

  function GetMessage(c: Channel): Channel {
    if c.cells.complete && c.cells.message.Some? then c.(received := c.received + [c.cells.message.value]) else c
  }

  function Step(c: Channel, op: Op): Result {
    match op
    case OpSend(m) =>
      if !c.senderLive then Result(c, Rejected)
      else
        var c' := c.(cells := Send(c.cells, m), senderLive := false, senderWaits := None, receiverWaits := None,
                     called := c.called + Taken(c.cells.receiver));
        if c.cells.complete then Result(c', SendErr(m)) else Result(c'.(accepted := Some(m)), SendOk)
    case OpPollClosed(w) =>
      if !c.senderLive then Result(c, Rejected)
      else if c.cells.complete then Result(c, IsClosed)
      else Result(c.(cells := PollClosed(c.cells, w), senderWaits := Some(w)), NotClosed)
    case OpDropSender =>
      if !c.senderLive then Result(c, Rejected)
      else Result(c.(cells := DropSender(c.cells), senderLive := false, senderWaits := None, receiverWaits := None,
                     called := c.called + Taken(c.cells.receiver)), Fine)
    case OpClose =>
      if !c.receiverLive then Result(c, Rejected)
      else Result(c.(cells := Close(c.cells), closed := true, senderWaits := None,
                     called := c.called + Taken(c.cells.sender)), Fine)
    case OpTryRecv =>
      if !c.receiverLive then Result(c, Rejected)
      else Result(GetMessage(c).(cells := Receive(c.cells)), Tried(TryRecvResult(c.cells)))
    case OpPollRecv(w) =>
      if !c.receiverLive then Result(c, Rejected)
      else
        var c' := GetMessage(c).(cells := PollRecv(c.cells, w));
        Result(if c.cells.complete then c' else c'.(receiverWaits := Some(w)), Recv(RecvResult(c.cells)))
    case OpDropReceiver =>
      if !c.receiverLive then Result(c, Rejected)
      else Result(c.(cells := DropReceiver(c.cells), receiverLive := false, senderWaits := None, receiverWaits := None,
                     called := c.called + Taken(c.cells.sender)), Fine)
  }

  function Run(c: Channel, ops: seq<Op>): Channel
    decreases |ops|
  {
    if ops == [] then c else Run(Step(c, ops[0]).channel, ops[1..])
  }

  ghost predicate Inv(c: Channel) {
    // the channel is complete once either half is gone or the receiver was closed
    && (c.cells.complete <==> !c.senderLive || !c.receiverLive || c.closed)
    // an accepted message is in its cell until it is received, and nothing else is
    && Taken(c.accepted) == c.received + Taken(c.cells.message)
    && (c.accepted.Some? ==> !c.senderLive)
    // the stored wakers are those of the latest pending polls
    && c.cells.sender == c.senderWaits && c.cells.receiver == c.receiverWaits
    // and none is left once a half is gone
    && (!c.senderLive || !c.receiverLive ==> c.cells.sender == None && c.cells.receiver == None)
    && (c.closed ==> c.cells.sender == None)
  }

  lemma StartIsOrderly()
    ensures Inv(Start())
  {
  }

  lemma StepKeepsInv(c: Channel, op: Op)
    requires Inv(c)
    ensures Inv(Step(c, op).channel)
  {
    if (op.OpTryRecv? || op.OpPollRecv?) && c.receiverLive && c.cells.complete && c.cells.message.Some? {
      assert c.received + [c.cells.message.value] == c.received + [c.cells.message.value] + Taken(None);
    }
  }

  lemma {:induction false} EveryRunIsOrderly(c: Channel, ops: seq<Op>)
    requires Inv(c)
    ensures Inv(Run(c, ops))
    decreases |ops|
  {
    if ops == [] {
    } else {
      StepKeepsInv(c, ops[0]);
      EveryRunIsOrderly(Step(c, ops[0]).channel, ops[1..]);
    }
  }

  /** A run of receiver calls that neither drop the receiver nor finish at once. */
  predicate KeepsReceiving(op: Op) {
    op.OpTryRecv? || op.OpPollRecv? || op.OpClose?
  }

  /** How many of the calls ask for a message. */
  function Asks(ops: seq<Op>): nat
    decreases |ops|
  {
    if ops == [] then 0 else (if ops[0].OpClose? then 0 else 1) + Asks(ops[1..])
  }

  /** A message that `send` accepted is received exactly once and unchanged by a receiver that
      keeps asking, whether it closes the channel meanwhile or not. */
  lemma {:induction false} AcceptedIsReceivedOnce(c: Channel, m: Message, ops: seq<Op>)
    requires Inv(c) && c.receiverLive && c.accepted == Some(m)
    requires forall i :: 0 <= i < |ops| ==> KeepsReceiving(ops[i])
    ensures Run(c, ops).received == if c.received == [m] || Asks(ops) > 0 then [m] else []
    decreases |ops|
  {
    assert Taken(c.accepted) == [m];
    if |c.received| > 0 {
      assert c.received == [m] && c.cells.message == None;
    } else {
      assert c.received + Taken(c.cells.message) == Taken(c.cells.message);
      assert c.cells.message == Some(m);
    }
    if ops == [] {
    } else {
      assert KeepsReceiving(ops[0]);
      StepKeepsInv(c, ops[0]);
      AcceptedIsReceivedOnce(Step(c, ops[0]).channel, m, ops[1..]);
    }
  }

  // ----- what the receiver is told

  /** The message that a call returned, if any. */
  function MessageIn(o: Outcome): seq<Message> {
    match o
    case Recv(Got(m)) => [m]
    case Tried(Received(m)) => [m]
    case _ => []
  }

  function Messages(c: Channel, ops: seq<Op>): seq<Message>
    decreases |ops|
  {
    if ops == [] then [] else MessageIn(Step(c, ops[0]).outcome) + Messages(Step(c, ops[0]).channel, ops[1..])
  }

  /** The ledger is what the calls returned. */
  lemma {:induction false} LedgerTellsOutcomes(c: Channel, ops: seq<Op>)
    ensures Run(c, ops).received == c.received + Messages(c, ops)
    decreases |ops|
  {
    if ops == [] {
    } else {
      var r := Step(c, ops[0]);
      LedgerTellsOutcomes(r.channel, ops[1..]);
      assert r.channel.received == c.received + MessageIn(r.outcome);
      Assoc(c.received, MessageIn(r.outcome), Messages(r.channel, ops[1..]));
    }
  }

  /** Nobody has ended the channel yet. */
  predicate Open(c: Channel) {
    c.senderLive && !c.closed
  }

  /** An ask before the channel ended finds nothing yet; after that the accepted message, if
      there is one that was not received; else it is told that there will be none. */
  lemma AskMeans(c: Channel, w: Waker)
    requires Inv(c) && c.receiverLive
    ensures Step(c, OpPollRecv(w)).outcome == Recv(
      if Open(c) then Pending else if c.accepted.Some? && c.received == [] then Got(c.accepted.value) else Closed)
    ensures Step(c, OpTryRecv).outcome == Tried(
      if Open(c) then Empty else if c.accepted.Some? && c.received == [] then Received(c.accepted.value) else NoMessage)
  {
    if c.accepted.Some? {
      AcceptedWaitsOrWent(c);
    } else {
      assert c.received + Taken(c.cells.message) == [];
    }
  }

  lemma AcceptedWaitsOrWent(c: Channel)
    requires Inv(c) && c.accepted.Some?
    ensures if c.received == [] then c.cells.message == c.accepted
            else c.received == [c.accepted.value] && c.cells.message == None
  {
    var all := c.received + Taken(c.cells.message);
    assert all == [c.accepted.value];
    if c.received == [] {
      assert all == Taken(c.cells.message);
    } else {
      assert c.received[0] == all[0];
    }
  }

  /** After a send that was accepted, the first ask of a receiver that is still there returns
      that message, by either call, and every later one says that there is none; closing the
      channel in between does not matter. */
  lemma SentIsAnswered(c: Channel, m: Message, ops: seq<Op>, w: Waker)
    requires Inv(c) && c.receiverLive && Step(c, OpSend(m)).outcome == SendOk
    requires forall i :: 0 <= i < |ops| ==> KeepsReceiving(ops[i])
    ensures var sent := Step(c, OpSend(m)).channel;
      var s' := Run(sent, ops);
      && Messages(sent, ops) == (if Asks(ops) > 0 then [m] else [])
      && Step(s', OpPollRecv(w)).outcome == Recv(if Asks(ops) > 0 then Closed else Got(m))
      && Step(s', OpTryRecv).outcome == Tried(if Asks(ops) > 0 then NoMessage else Received(m))
  {
    var sent := Step(c, OpSend(m)).channel;
    StepKeepsInv(c, OpSend(m));
    assert c.received == [] by {
      assert Taken(c.accepted) == [];
    }
    AcceptedIsReceivedOnce(sent, m, ops);
    LedgerTellsOutcomes(sent, ops);
    EveryRunIsOrderly(sent, ops);
    StaysWithReceiver(sent, ops);
    AskMeans(Run(sent, ops), w);
  }

  lemma {:induction false} StaysWithReceiver(c: Channel, ops: seq<Op>)
    requires c.receiverLive && !c.senderLive && forall i :: 0 <= i < |ops| ==> KeepsReceiving(ops[i])
    ensures var c' := Run(c, ops);
      c'.receiverLive && !c'.senderLive && c'.accepted == c.accepted
    decreases |ops|
  {
    if ops == [] {
    } else {
      assert KeepsReceiving(ops[0]);
      StaysWithReceiver(Step(c, ops[0]).channel, ops[1..]);
    }
  }

  /** What is received is always what was accepted, at most once. */
  lemma NothingElseIsReceived(c: Channel, ops: seq<Op>)
    requires Inv(c)
    ensures Run(c, ops).received == [] || Run(c, ops).received == Taken(Run(c, ops).accepted)
  {
    EveryRunIsOrderly(c, ops);
    var c' := Run(c, ops);
    assert |Taken(c'.accepted)| <= 1;
    if |c'.received| > 0 {
      assert c'.cells.message == None;
    }
  }

  /** A live sender sees the channel closed exactly when the receiver was closed or dropped,
      and a send fails, giving its message back, exactly then. */
  lemma SenderSeesClosed(c: Channel, w: Waker, m: Message)
    requires Inv(c) && c.senderLive
    ensures Step(c, OpPollClosed(w)).outcome == IsClosed <==> c.closed || !c.receiverLive
    ensures Step(c, OpSend(m)).outcome == (if c.closed || !c.receiverLive then SendErr(m) else SendOk)
    ensures Step(c, OpSend(m)).outcome.SendErr? ==>
      Step(c, OpSend(m)).channel.received == c.received && Step(c, OpSend(m)).channel.accepted == c.accepted
  {
  }

  /** Whoever waits is told on the latest waker it left: the receiver when the sender goes,
      by sending or not; the sender when the receiver goes or closes. */
  lemma WaitingSideIsWoken(c: Channel, op: Op, w: Waker)
    requires Inv(c)
    ensures c.receiverWaits == Some(w) && c.senderLive && (op.OpSend? || op.OpDropSender?) ==>
      Step(c, op).channel.called == c.called + [w]
    ensures c.senderWaits == Some(w) && c.receiverLive && (op.OpClose? || op.OpDropReceiver?) ==>
      Step(c, op).channel.called == c.called + [w]
    ensures Step(c, OpPollRecv(w)).outcome == Recv(Pending) ==> Step(c, OpPollRecv(w)).channel.receiverWaits == Some(w)
    ensures Step(c, OpPollClosed(w)).outcome == NotClosed ==> Step(c, OpPollClosed(w)).channel.senderWaits == Some(w)
    ensures op.OpPollClosed? || op.OpTryRecv? || op.OpPollRecv? ==> Step(c, op).channel.called == c.called
  {
  }
}
