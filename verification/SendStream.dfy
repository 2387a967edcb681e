/** The send side of a session over the circular buffer. PostSend, FlushSend and SendCompletion each run
    under the session's send lock. */
module SendStream {
  import opened CircularBuffer
  import opened SendProtocol

  lemma SliceFront(s: seq<Byte>, start: nat, size: nat, rest: seq<Byte>, n: nat)
    requires n <= size && start + size <= |s|
    ensures (s[start..start + size] + rest)[..n] == s[start..start + n]
  {
  }

  lemma EchoMoves(posted: seq<Byte>, pending: seq<Byte>, n: nat)
    requires n <= |pending|
    ensures posted + pending[..n] + pending[n..] == posted + pending
  {
    assert pending == pending[..n] + pending[n..];
  }

  /** `sendPending` is mSendPendingCount. The ghost fields are the history of the protocol, where the
      bytes in flight are, and the operations performed so far. */
  class SendSession {
    const buffer: Buffer
    var connected: bool
    var sendPending: int
    ghost var posted: seq<Byte>
    ghost var sent: seq<Byte>
    ghost var flight: seq<Byte>
    ghost var flightAt: nat
    ghost var inFlight: bool
    ghost var trace: seq<Step>

    ghost function View(): State
      reads this, buffer, buffer.storage
      requires buffer.Valid()
    {
      State(connected, sendPending, buffer.Contents(), flight, inFlight, posted, sent)
    }

    /** The session is where its operations lead in the protocol, and the bytes in flight were handed to
        WSASend at the place where the buffer's front still is. */
    ghost predicate Valid()
      reads this, buffer, buffer.storage
    {
      && buffer.Valid() && Run(Initial(), trace, View())
      && (inFlight ==> |flight| <= buffer.aSize && flightAt == buffer.aStart)
    }

    /** Until the completion, the storage WSASend reads still holds the bytes it was given. */
    lemma FlightInPlace()
      requires Valid() && inFlight
      ensures flight != [] && flightAt + |flight| <= buffer.storage.Length
      ensures buffer.storage[flightAt..flightAt + |flight|] == flight
    {
      StreamConserved(trace, View());
      SliceFront(buffer.storage[..], buffer.aStart, buffer.aSize,
                 if buffer.bLive then buffer.storage[..buffer.bSize] else [], |flight|);
    }

    constructor (capacity: nat)
      ensures Valid() && fresh(buffer) && fresh(buffer.storage) && View() == Initial() && trace == []
    {
      buffer := new Buffer(capacity);
      connected, sendPending := false, 0;
      posted, sent, flight, flightAt, inFlight, trace := [], [], [], 0, false, [];
    }

    /** The session becomes connected. */
    method Connect()
      requires Valid()
      modifies this`connected, this`trace
      ensures Valid() && View() == Apply(old(View()), Step.Connect) && trace == old(trace) + [Step.Connect]
      ensures connected
    {
      RunExtend(Initial(), trace, View(), Step.Connect);
      connected, trace := true, trace + [Step.Connect];
    }

    /** Appends all of `data` or nothing. The bytes in flight stay where they are. */
    method PostSend(data: seq<Byte>) returns (ok: bool)
      requires Valid()
      modifies this`posted, this`trace, buffer, buffer.storage
      ensures Valid() && (ok <==> connected && |data| <= old(buffer.FreeSpace()))
      ensures View() == if ok then old(View()).(stored := old(View()).stored + data, posted := old(posted) + data)
                        else old(View())
      ensures trace == old(trace) + [Post(data, |data| <= old(buffer.FreeSpace()))]
    {
      ghost var step := Post(data, |data| <= buffer.FreeSpace());
      RunExtend(Initial(), trace, View(), step);
      ok := connected;
      if ok {
        ok := buffer.TryAppend(data);
      }
      if ok {
        posted := posted + data;
      }
      trace := trace + [step];
    }

    /** Hands the front of the buffer to WSASend unless a send is pending; `disconnect` is a call of
        DisconnectRequest. */
    method FlushSend(answer: Answer) returns (done: bool, submitted: bool, disconnect: bool)
      requires Valid()
      modifies this`connected, this`sendPending, this`flight, this`flightAt, this`inFlight, this`trace
      ensures Valid() && trace == old(trace) + [Flush(buffer.aSize, answer)]
      ensures Enabled(old(View()), Flush(buffer.aSize, answer))
      ensures View() == Apply(old(View()), Flush(buffer.aSize, answer))
      ensures submitted <==> Submits(old(View()), Flush(buffer.aSize, answer))
      ensures submitted <==>
              old(connected) && buffer.Contents() != [] && old(sendPending) == 0 && answer == Started
      ensures submitted ==> inFlight && flight == buffer.Contents()[..buffer.aSize] && sendPending == 1
      ensures !submitted ==> sendPending == old(sendPending) && inFlight == old(inFlight) && flight == old(flight)
      ensures connected <==> old(connected) && !disconnect
      ensures disconnect <==>
              !old(connected) || (old(buffer.Contents()) != [] && old(sendPending) == 0 && answer == Refused)
      ensures done <==> !old(connected) || old(sendPending) == 0
    {
      done, submitted, disconnect := true, false, false;
      var n := buffer.GetContiguousBytes();
      ghost var step := Flush(n, answer);
      StreamConserved(trace, View());
      RunExtend(Initial(), trace, View(), step);
      trace := trace + [step];
      if !connected {
        disconnect := true;
        return;
      }
      if n == 0 {
        done := sendPending == 0;
        return;
      }
      if sendPending > 0 {
        done := false;
        return;
      }
      if answer == Refused {
        connected, disconnect := false, true;
        return;
      }
      flight, flightAt, inFlight := buffer.Contents()[..n], buffer.aStart, true;
      submitted := true;
      sendPending := sendPending + 1;
      done := sendPending == 1;
    }

    /** A completion that moved `transferred` bytes; Winsock moved that many from the front of what it
        was given. Exactly those bytes leave the buffer. */
    method SendCompletion(transferred: nat)
      requires Valid() && inFlight && transferred <= |flight|
      modifies this`sendPending, this`sent, this`inFlight, this`trace, buffer, buffer.storage
      ensures Valid() && trace == old(trace) + [Complete(transferred)]
      ensures Enabled(old(View()), Complete(transferred)) && View() == Apply(old(View()), Complete(transferred))
      ensures sent == old(sent) + old(flight)[..transferred]
      ensures buffer.Contents() == old(buffer.Contents())[transferred..]
      ensures sendPending == old(sendPending) - 1 && !inFlight && connected == old(connected)
    {
      ghost var before := View();
      StreamConserved(trace, before);
      assert Min(transferred, |buffer.Contents()|) == transferred;
      RunExtend(Initial(), trace, before, Complete(transferred));
      buffer.Remove(transferred);
      assert buffer.Contents() == before.stored[transferred..];
      sendPending := sendPending - 1;
      sent := sent + flight[..transferred];
      inFlight, trace := false, trace + [Complete(transferred)];
    }

    /** A failed send: DoIocpJob disconnects and deletes the context, but nothing lowers the count. */
    method FailedSendCompletion()
      requires Valid() && inFlight
      modifies this`connected, this`inFlight, this`trace
      ensures Valid() && View() == Apply(old(View()), Fail) && trace == old(trace) + [Fail]
      ensures !connected && sendPending == old(sendPending) && !inFlight
    {
      RunExtend(Initial(), trace, View(), Fail);
      connected, inFlight, trace := false, false, trace + [Fail];
    }

    /** Posts the front of the receive buffer and removes it from there only if all of it was taken:
        the bytes posted so far followed by the bytes still to be echoed never change. */
    method EchoBack(recv: Buffer) returns (echoed: nat)
      requires Valid() && recv.Valid() && recv != buffer && recv.storage != buffer.storage
      modifies this`posted, this`trace, buffer, buffer.storage, recv, recv.storage
      ensures Valid() && recv.Valid()
      ensures posted + recv.Contents() == old(posted + recv.Contents())
      ensures |posted| == |old(posted)| + echoed
      ensures echoed > 0 <==> connected && 0 < old(recv.aSize) <= old(buffer.FreeSpace())
    {
      var n := recv.GetContiguousBytes();
      if n == 0 {
        return 0;
      }
      EchoMoves(posted, recv.Contents(), n);
      var data := recv.storage[recv.aStart..recv.aStart + n];
      assert data == recv.Contents()[..n];
      var ok := PostSend(data);
      if !ok {
        return 0;
      }
      recv.Remove(n);
      echoed := n;
    }
  }
}
