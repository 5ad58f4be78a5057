/** The oneshot channel as the source keeps it: four cells, set and taken by the calls of
    the two halves. Every method is proved equal to a function of `OneshotSpec`. */
module Oneshots {
  import opened Common
  import OS = OneshotSpec

  class Shared {
    var complete: bool
    var message: Option<OS.Message>
    var sender: Option<OS.Waker>
    var receiver: Option<OS.Waker>
    /** Every waker called so far. */
    ghost var called: seq<OS.Waker>

    ghost function View(): OS.Shared
      reads this
    {
      OS.Shared(complete, message, sender, receiver)
    }

    constructor ()
      ensures View() == OS.FRESH && called == []
    {
      complete, message, sender, receiver := false, None, None, None;
      called := [];
    }

    /** `Sender::send`; the message comes back when the channel is complete. */
    method Send(m: OS.Message) returns (r: Option<OS.Message>)
      modifies this
      ensures View() == OS.Send(old(View()), m)
      ensures r == if old(complete) then Some(m) else None
      ensures called == old(called) + OS.Taken(old(receiver))
    {
      if complete {
        r := Some(m);
      } else {
        message := Some(m);
        r := None;
      }
      DropSender();
    }

    method DropSender()
      modifies this
      ensures View() == OS.DropSender(old(View()))
      ensures called == old(called) + OS.Taken(old(receiver))
    {
      complete := true;
      var waker := receiver;
      receiver := None;
      called := called + OS.Taken(waker);
      sender := None;
    }

    /** `Sender::poll_closed`, true when ready. */
    method PollClosed(w: OS.Waker) returns (ready: bool)
      modifies this
      ensures View() == OS.PollClosed(old(View()), w) && ready == old(complete) && called == old(called)
    {
      ready := complete;
      if !complete {
        sender := Some(w);
      }
    }

    /** `Receiver::close`. */
    method Close()
      modifies this
      ensures View() == OS.Close(old(View())) && called == old(called) + OS.Taken(old(sender))
    {
      complete := true;
      var waker := sender;
      sender := None;
      called := called + OS.Taken(waker);
    }

    method TryRecv() returns (r: OS.TryRecv)
      modifies this
      ensures View() == OS.Receive(old(View())) && r == OS.TryRecvResult(old(View())) && called == old(called)
      ensures r == OS.Empty <==> !old(complete)
      ensures complete && old(message).Some? ==> r == OS.Received(old(message).value) && message == None
    {
      if !complete {
        return OS.Empty;
      }
      var m := message;
      message := None;
      r := if m.Some? then OS.Received(m.value) else OS.NoMessage;
    }

    method PollRecv(w: OS.Waker) returns (r: OS.RecvPoll)
      modifies this
      ensures View() == OS.PollRecv(old(View()), w) && r == OS.RecvResult(old(View())) && called == old(called)
      ensures r == OS.Pending <==> !old(complete)
      ensures r == OS.Pending ==> receiver == Some(w)
      ensures complete && old(message).Some? ==> r == OS.Got(old(message).value) && message == None
    {
      if complete {
        var m := message;
        message := None;
        r := if m.Some? then OS.Got(m.value) else OS.Closed;
      } else {
        receiver := Some(w);
        r := OS.Pending;
      }
    }

    method DropReceiver()
      modifies this
      ensures View() == OS.DropReceiver(old(View())) && called == old(called) + OS.Taken(old(sender))
    {
      complete := true;
      receiver := None;
      var waker := sender;
      sender := None;
      called := called + OS.Taken(waker);
    }
  }
}
