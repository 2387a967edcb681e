/** The send side of a session as a transition system: any sequence of connecting, posting, flushing,
    and successful or failed send completions. */
module SendProtocol {
  import opened CircularBuffer

  /** Winsock's answer to a WSASend: started (or pending), or refused. */
  datatype Answer = Started | Refused

  /** `pending` is mSendPendingCount and `stored` the contents of the send buffer. The rest is history:
      `flight` are the bytes WSASend was given, `inFlight` whether it still reads them, `posted` all
      bytes PostSend accepted, `sent` all bytes reported sent. */
  datatype State = State(
    connected: bool,
    pending: int,
    stored: seq<Byte>,
    flight: seq<Byte>,
    inFlight: bool,
    posted: seq<Byte>,
    sent: seq<Byte>)

  /** `fits`: the data fit in one piece of the buffer. `piece`: the contiguous bytes at its front.
      Fail is a send completion that DoIocpJob takes for a failure. */
  datatype Step =
    | Connect
    | Post(data: seq<Byte>, fits: bool)
    | Flush(piece: nat, answer: Answer)
    | Complete(n: nat)
    | Fail

  function Initial(): State {
    State(false, 0, [], [], false, [], [])
  }

  predicate Enabled(st: State, e: Step) {
    match e
    case Flush(piece, _) => piece <= |st.stored| && (piece == 0 <==> st.stored == [])
    case Complete(n) => st.inFlight && n <= |st.flight| && n <= |st.stored|
    case Fail => st.inFlight
    case _ => true
  }

  /** A failed completion disconnects the session, as does a refused send; only a successful completion
      lowers the count. */
  function Apply(st: State, e: Step): State
    requires Enabled(st, e)
  {
    match e
    case Connect => st.(connected := true)
    case Post(data, fits) =>
      if st.connected && fits then st.(stored := st.stored + data, posted := st.posted + data) else st
    case Flush(piece, answer) =>
      if !st.connected || piece == 0 || st.pending > 0 then st
      else if answer == Refused then st.(connected := false)
      else st.(pending := st.pending + 1, flight := st.stored[..piece], inFlight := true)
    case Complete(n) =>
      st.(pending := st.pending - 1, stored := st.stored[n..], sent := st.sent + st.flight[..n], inFlight := false)
    case Fail => st.(connected := false, inFlight := false)
  }

  ghost predicate Run(st: State, es: seq<Step>, st': State)
    decreases |es|
  {
    if es == [] then st' == st else Enabled(st, es[0]) && Run(Apply(st, es[0]), es[1..], st')
  }

  lemma {:induction false} RunExtend(st: State, es: seq<Step>, st': State, e: Step)
    requires Run(st, es, st') && Enabled(st', e)
    ensures Run(st, es + [e], Apply(st', e))
    decreases |es|
  {
    if es == [] {
      assert es + [e] == [e];
    } else {
      RunExtend(Apply(st, es[0]), es[1..], st', e);
      assert (es + [e])[1..] == es[1..] + [e];
    }
  }

  /** The count says whether a send is in flight or ever failed; what is in flight is the front of the
      buffer; nothing posted was lost, duplicated or reordered. */
  ghost predicate Inv(st: State, failed: bool) {
    && st.pending == (if st.inFlight || failed then 1 else 0)
    && (failed ==> !st.inFlight)
    && (st.inFlight ==> st.flight != [] && st.flight <= st.stored)
    && st.posted == st.sent + st.stored
  }

  lemma CompleteConserves(posted: seq<Byte>, sent: seq<Byte>, stored: seq<Byte>, flight: seq<Byte>, n: nat)
    requires posted == sent + stored && flight <= stored && n <= |flight|
    ensures posted == sent + flight[..n] + stored[n..]
  {
    assert stored == stored[..n] + stored[n..];
  }

  lemma StepKeepsInv(st: State, e: Step, failed: bool)
    requires Inv(st, failed) && Enabled(st, e)
    ensures Inv(Apply(st, e), failed || e == Fail)
  {
    if e.Complete? {
      CompleteConserves(st.posted, st.sent, st.stored, st.flight, e.n);
    }
  }

  lemma {:induction false} RunKeepsInv(st: State, es: seq<Step>, st': State, failed: bool)
    requires Inv(st, failed) && Run(st, es, st')
    ensures Inv(st', failed || Fail in es)
    decreases |es|
  {
    if es != [] {
      StepKeepsInv(st, es[0], failed);
      RunKeepsInv(Apply(st, es[0]), es[1..], st', failed || es[0] == Fail);
      assert es == [es[0]] + es[1..];
    }
  }

  /** The step hands bytes to Winsock. */
  predicate Submits(st: State, e: Step)
    requires Enabled(st, e)
  {
    !st.inFlight && Apply(st, e).inFlight
  }

  /** Over every sequence of operations, a flush submits if and only if the session is connected, has
      bytes stored and none in flight, Winsock accepts, and no send of it has ever failed. */
  lemma {:induction false} SubmitsExactly(es: seq<Step>, st: State, piece: nat, answer: Answer)
    requires Run(Initial(), es, st) && Enabled(st, Flush(piece, answer))
    ensures Submits(st, Flush(piece, answer)) <==>
            st.connected && st.stored != [] && !st.inFlight && answer == Started && Fail !in es
  {
    RunKeepsInv(Initial(), es, st, false);
  }

  /** Bytes posted are those sent followed by those stored, and what is in flight is the front of the
      latter. */
  lemma {:induction false} StreamConserved(es: seq<Step>, st: State)
    requires Run(Initial(), es, st)
    ensures st.posted == st.sent + st.stored && (st.pending == 0 || st.pending == 1)
    ensures st.inFlight ==> st.pending == 1 && st.flight != [] && st.flight <= st.stored
  {
    RunKeepsInv(Initial(), es, st, false);
  }

  lemma {:induction false} FailedSendsNothing(st: State, es: seq<Step>, st': State)
    requires Inv(st, true) && Run(st, es, st')
    ensures st'.sent == st.sent
    decreases |es|
  {
    if es != [] {
      StepKeepsInv(st, es[0], true);
      FailedSendsNothing(Apply(st, es[0]), es[1..], st');
    }
  }

  /** After one failed send no byte of the session is ever sent again, whatever is done with it. */
  lemma {:induction false} NothingSentAfterFailure(es: seq<Step>, st: State, later: seq<Step>, st': State)
    requires Run(Initial(), es, st) && Fail in es && Run(st, later, st')
    ensures st'.sent == st.sent
  {
    RunKeepsInv(Initial(), es, st, false);
    FailedSendsNothing(st, later, st');
  }

  lemma Extend(es: seq<Step>, st: State, e: Step) returns (es': seq<Step>, st': State)
    requires Run(Initial(), es, st) && Enabled(st, e)
    ensures Run(Initial(), es', st') && es' == es + [e] && st' == Apply(st, e)
  {
    RunExtend(Initial(), es, st, e);
    es', st' := es + [e], Apply(st, e);
  }

  /** Such a session exists: connected again, with bytes stored and none in flight, it does not submit. */
  lemma {:induction false} StuckSession(b: Byte) returns (es: seq<Step>, st: State)
    ensures Run(Initial(), es, st) && st.connected && st.stored == [b] && !st.inFlight
    ensures !Submits(st, Flush(1, Started))
  {
    es, st := Extend([], Initial(), Connect);
    es, st := Extend(es, st, Post([b], true));
    es, st := Extend(es, st, Flush(1, Started));
    es, st := Extend(es, st, Fail);
    es, st := Extend(es, st, Connect);
  }
}
