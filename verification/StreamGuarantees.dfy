/** What a connection promises about the order of its bytes, its half-close and its end. */
module StreamGuarantees {
  import opened ConnStates
  import opened Kfifos
  import Pollers
  import opened Streams

  // --- order ----------------------------------------------------------------------------------

  /** What the kernel does not take of a send fits the queue, or is given up. */
  predicate SendFits(d: Discipline, s: State, data: seq<byte>, result: Written) {
    var direct := s.out == [] && !s.writing;
    var sent := if direct && result.Wrote? then result.count else 0;
    || !d.bounded
    || (direct && result.Fault?)
    || sent >= |data|
    || |s.out| + |data| - sent <= d.capacity
  }

  predicate Fits(d: Discipline, s: State, e: Event)
    requires Enabled(s, e)
  {
    match e
    case OwnSend(data, result) => !s.state.Connected? || SendFits(d, s, data, result)
    case RunClosure(result) =>
      s.queue[0].ShutdownInLoop? || s.state.Disconnected? || SendFits(d, s, s.queue[0].data, result)
    case _ => true
  }

  predicate AllFit(d: Discipline, s: State, es: seq<Event>)
    requires IsRun(d, s, es)
    decreases |es|
  {
    es == [] || (Fits(d, s, es[0]) && AllFit(d, Step(d, s, es[0]), es[1..]))
  }

  lemma StepIsIdeal(d: Discipline, s: State, e: Event)
    requires d.retrieves && Enabled(s, e) && Fits(d, s, e)
    ensures Step(d, s, e) == Step(IDEAL, s, e)
  {
  }

  /** A queue that retrieves does what an unbounded one would, as long as everything fits. */
  lemma {:induction false} RunIsIdeal(d: Discipline, s: State, es: seq<Event>)
    requires d.retrieves && IsTimelyRun(d, s, es) && IsRun(d, s, es) && AllFit(d, s, es)
    ensures IsTimelyRun(IDEAL, s, es) && IsRun(IDEAL, s, es) && After(IDEAL, s, es) == After(d, s, es)
    decreases |es|
  {
    if es != [] {
      StepIsIdeal(d, s, es[0]);
      RunIsIdeal(d, Step(d, s, es[0]), es[1..]);
    }
  }

  /**
    With a queue that retrieves, in every run in which everything fits it and no `shutdown` is overtaken
    by a close: the bytes taken on are those on the wire followed by those in the queue, and until the
    close the connection asks to be told when it can read, always, and when it can write, exactly while
    the queue holds something.
   */
  lemma StreamOrder(d: Discipline, es: seq<Event>)
    requires d.retrieves && IsTimelyRun(d, INIT, es) && IsRun(d, INIT, es) && AllFit(d, INIT, es)
    ensures var s := After(d, INIT, es);
      && s.accepted == s.wire + s.out
      && (s.state.Connected? || s.state.Disconnecting? ==> s.reading && (s.writing <==> s.out != []))
  {
    RunIsIdeal(d, INIT, es);
    RunKeepsInv(INIT, es);
  }

  /** The law survives a write of queued bytes exactly if the queue drops what has been sent. */
  lemma LawNeedsRetrieving(d: Discipline, s: State, n: nat)
    requires Law(s) && s.writing && 0 < n <= |s.out| && !s.halfClosed
    ensures Law(DoWrite(d, s, Wrote(n))) <==> d.retrieves
  {
    assert s.out == s.out[..n] + s.out[n..];
    if !d.retrieves {
      assert |s.wire + s.out[..n] + s.out| > |s.accepted|;
    }
  }

  /** The law survives a send exactly if what the kernel does not take at once fits the queue. */
  lemma LawNeedsRoom(d: Discipline, s: State, data: seq<byte>, result: Written)
    requires Law(s) && !s.state.Disconnected? && Possible(s, |data|, result)
    requires d.bounded ==> |s.out| <= d.capacity
    ensures Law(DoSend(d, s, data, result)) <==> SendFits(d, s, data, result)
  {
    var s' := DoSend(d, s, data, result);
    if SendFits(d, s, data, result) {
      SendKeepsLaw(s, data, result);
      assert DoSend(IDEAL, s, data, result) == s';
    } else {
      assert |s'.wire + s'.out| < |s'.accepted|;
    }
  }

  /** The ring as it is wired in has 4096 places: of 4097 bytes the kernel does not take, the last is lost. */
  lemma AsBuiltDrops(data: seq<byte>)
    requires |data| == 4097
    ensures var es := [Establish, OwnSend(data, OtherError)];
      && IsTimelyRun(AS_BUILT, INIT, es) && IsRun(AS_BUILT, INIT, es)
      && var s := After(AS_BUILT, INIT, es); s.accepted == data && s.wire == [] && s.out == data[..4096]
  {
    var s1 := Step(AS_BUILT, INIT, Establish);
    var e := OwnSend(data, OtherError);
    var s2 := Step(AS_BUILT, s1, e);
    assert data[0..] == data && data[..0] == [] && [] + data[..4096] == data[..4096];
    assert IsRun(AS_BUILT, s2, []) && IsTimelyRun(AS_BUILT, s2, []) && After(AS_BUILT, s2, []) == s2;
    assert [e][1..] == [] && [Establish, e][1..] == [e];
    assert IsRun(AS_BUILT, s1, [e]) && IsTimelyRun(AS_BUILT, s1, [e]) && After(AS_BUILT, s1, [e]) == s2;
  }

  /** A connection that has queued one byte, since the kernel took none. */
  lemma QueuesOne(d: Discipline, b: byte)
    requires d == IDEAL || d == AS_BUILT
    ensures var s1 := Step(d, INIT, Establish);
      && Enabled(s1, OwnSend([b], OtherError))
      && Step(d, s1, OwnSend([b], OtherError))
      == State(Connected, true, true, [b], [], [b], false, false, [], 0, 0, {}, [])
  {
    var s2 := Step(d, Step(d, INIT, Establish), OwnSend([b], OtherError));
    assert [b][0..] == [b] && [b][..0] == [];
    assert s2.out == [b] && s2.wire == [] && s2.accepted == [b];
  }

  /** The ring as it is wired in does not drop what it has sent: one byte accepted is written again and again. */
  lemma AsBuiltRepeats()
    ensures var es := [Establish, OwnSend([7], OtherError), HandleWrite(Wrote(1)), HandleWrite(Wrote(1))];
      && IsTimelyRun(AS_BUILT, INIT, es) && IsRun(AS_BUILT, INIT, es)
      && After(AS_BUILT, INIT, es).accepted == [7]
      && After(AS_BUILT, INIT, es).wire == [7, 7]
  {
    QueuesOne(AS_BUILT, 7);
    var s2 := State(Connected, true, true, [7], [], [7], false, false, [], 0, 0, {}, []);
    WritesAgain(s2);
    var s3 := s2.(wire := [] + [7]);
    WritesAgain(s3);
    RunOfFour(AS_BUILT, INIT, Establish, OwnSend([7], OtherError), HandleWrite(Wrote(1)), HandleWrite(Wrote(1)));
    assert ([] + [7]) + [7] == [7, 7];
  }

  lemma WritesAgain(s: State)
    requires s.writing && s.out == [7] && s.state.Connected? && !s.halfClosed
    ensures Enabled(s, HandleWrite(Wrote(1)))
    ensures Step(AS_BUILT, s, HandleWrite(Wrote(1))) == s.(wire := s.wire + [7])
  {
    assert s.out[..1] == [7];
  }

  // --- the half-close -------------------------------------------------------------------------

  /** Up to the close, the half-close happens only when every byte taken on is on the wire. */
  lemma HalfCloseComesLast(s: State, e: Event)
    requires Inv(s) && Enabled(s, e) && Timely(s, e) && !s.state.Disconnected?
    requires !s.halfClosed && Step(IDEAL, s, e).halfClosed
    ensures var s' := Step(IDEAL, s, e); s'.out == [] && s'.wire == s'.accepted
  {
    StepKeepsInv(s, e);
    var s' := Step(IDEAL, s, e);
    assert s'.wire + [] == s'.wire;
  }

  /** A shutdown closure half-closes with bytes queued exactly when the connection has been closed with bytes queued. */
  lemma ClosureHalfClosesEarly(s: State, result: Written)
    requires Inv(s) && s.queue != [] && s.queue[0].ShutdownInLoop?
    ensures var s' := Step(IDEAL, s, RunClosure(result));
      && (s'.halfClosed <==> s.halfClosed || !s.writing)
      && (!s.halfClosed ==> (s'.halfClosed && s'.out != [] <==> s.state.Disconnected? && s.out != []))
  {
  }

  /** It happens: with a byte queued a thread shuts down, the connection is closed, and the closure half-closes. */
  lemma LateClosureHalfCloses()
    ensures var es := [Establish, OwnSend([1], OtherError), StopCheck, StopSet(0), StopPush(0), HandleClose,
                       RunClosure(OtherError)];
      && IsTimelyRun(IDEAL, INIT, es) && IsRun(IDEAL, INIT, es)
      && var s := After(IDEAL, INIT, es); s.halfClosed && s.out == [1] && s.wire == []
  {
    QueuesOne(IDEAL, 1);
    var s3 := State(Connected, true, true, [1], [], [1], false, false, [], 0, 1, {}, []);
    ClosesBeforeItStops(s3);
    var rest := [StopSet(0), StopPush(0), HandleClose, RunClosure(OtherError)];
    RunOfThreeMore(IDEAL, INIT, Establish, OwnSend([1], OtherError), StopCheck, rest);
    assert [Establish, OwnSend([1], OtherError), StopCheck] + rest
        == [Establish, OwnSend([1], OtherError), StopCheck, StopSet(0), StopPush(0), HandleClose,
            RunClosure(OtherError)];
  }

  lemma ClosesBeforeItStops(s3: State)
    requires s3 == State(Connected, true, true, [1], [], [1], false, false, [], 0, 1, {}, [])
    ensures var es := [StopSet(0), StopPush(0), HandleClose, RunClosure(OtherError)];
      && IsTimelyRun(IDEAL, s3, es) && IsRun(IDEAL, s3, es)
      && var s := After(IDEAL, s3, es); s.halfClosed && s.out == [1] && s.wire == []
  {
    var s4 := Step(IDEAL, s3, StopSet(0));
    assert s4.owing == {0} && s4.queue == [];
    var s5 := Step(IDEAL, s4, StopPush(0));
    assert s5.queue == [ShutdownInLoop(0)];
    RunOfFour(IDEAL, s3, StopSet(0), StopPush(0), HandleClose, RunClosure(OtherError));
  }

  // --- the end --------------------------------------------------------------------------------

  /** No step takes the state back, except a `shutdown` that completes after the close. */
  lemma StateAdvances(d: Discipline, s: State, e: Event)
    requires Enabled(s, e)
    ensures Rank(Step(d, s, e).state) >= Rank(s.state) <==> Timely(s, e)
  {
    match e
    case OwnSend(data, result) => SendKeepsState(d, s, data, result);
    case RunClosure(result) => ClosureKeepsState(d, s, result);
    case HandleWrite(result) => WriteKeepsState(d, s, result);
    case _ =>
  }

  lemma SendKeepsState(d: Discipline, s: State, data: seq<byte>, result: Written)
    requires Possible(s, |data|, result)
    ensures DoSend(d, s, data, result).state == s.state
  {
  }

  lemma WriteKeepsState(d: Discipline, s: State, result: Written)
    requires Possible(s, |s.out|, result)
    ensures DoWrite(d, s, result).state == s.state
  {
  }

  lemma ClosureKeepsState(d: Discipline, s: State, result: Written)
    requires Enabled(s, RunClosure(result))
    ensures Step(d, s, RunClosure(result)).state == s.state
  {
    var s1 := s.(queue := s.queue[1..], promised := Advanced(s.promised));
    if s.queue[0].SendInLoop? { SendKeepsState(d, s1, s.queue[0].data, result); }
  }

  /** A closed connection stays closed: no interest, and not a byte written, whatever is still queued or dispatched. */
  lemma {:induction false} ClosedStaysClosed(d: Discipline, s: State, es: seq<Event>)
    requires s.state.Disconnected? && !s.reading && !s.writing && IsTimelyRun(d, s, es)
    ensures IsRun(d, s, es)
    ensures var r := After(d, s, es); r.state.Disconnected? && !r.reading && !r.writing && r.wire == s.wire
    decreases |es|
  {
    if es != [] {
      ClosedStaysClosed(d, Step(d, s, es[0]), es[1..]);
    }
  }

  /** What a callback of the user does with its connection: it sends, and shuts down. */
  predicate UserCalls(calls: seq<Event>) {
    forall i :: 0 <= i < |calls| ==> calls[i].OwnSend? || calls[i].OwnStop?
  }

  /** What the two callbacks do: on a message, and on the close, which can come twice. */
  datatype Callbacks = Callbacks(message: seq<Event>, close: seq<Event>, closeAgain: seq<Event>) {
    predicate Valid() { UserCalls(message) && UserCalls(close) && UserCalls(closeAgain) }
  }

  function CloseEvents(close: seq<Event>): seq<Event> {
    [HandleClose] + close
  }

  /** A read that brings bytes calls the message callback; one at the end of file closes. */
  function ReadEvents(count: int, message: seq<Event>, close: seq<Event>): seq<Event> {
    [HandleRead(count)] + if count > 0 then message else if count == 0 then close else []
  }

  /** What one dispatch does, in the order of the event bits; the callback for errors changes nothing here. */
  function Dispatch(ready: Pollers.Ready, count: int, cs: Callbacks, result: Written): seq<Event> {
    (if ready.hangUp && !ready.input then CloseEvents(cs.close) else [])
    + ((if ready.input || ready.priority then ReadEvents(count, cs.message, cs.closeAgain) else [])
       + (if ready.output then [HandleWrite(result)] else []))
  }

  /** When a dispatch closes the connection, by hang-up or end of file, no callback and no handler writes anything. */
  lemma DispatchThatCloses(d: Discipline, s: State, ready: Pollers.Ready, count: int, cs: Callbacks, result: Written)
    requires !s.state.Connecting? && cs.Valid()
    requires (ready.hangUp && !ready.input) || ((ready.input || ready.priority) && count == 0)
    requires IsRun(d, s, Dispatch(ready, count, cs, result))
    ensures var r := After(d, s, Dispatch(ready, count, cs, result));
      r.state.Disconnected? && !r.reading && !r.writing && r.wire == s.wire && r.halfClosed == s.halfClosed
  {
    if ready.hangUp && !ready.input {
      var rest := AfterHangUp(ready, count, cs, result);
      FirstCloses(d, s, HandleClose, rest);
    } else {
      var rest := AfterEndOfFile(ready, cs, result);
      FirstCloses(d, s, HandleRead(count), rest);
    }
  }

  lemma AfterHangUp(ready: Pollers.Ready, count: int, cs: Callbacks, result: Written) returns (rest: seq<Event>)
    requires cs.Valid() && ready.hangUp && !ready.input
    ensures Dispatch(ready, count, cs, result) == [HandleClose] + rest && Handlers(rest)
  {
    var read := if ready.input || ready.priority then ReadEvents(count, cs.message, cs.closeAgain) else [];
    var write := if ready.output then [HandleWrite(result)] else [];
    rest := cs.close + (read + write);
  }

  lemma AfterEndOfFile(ready: Pollers.Ready, cs: Callbacks, result: Written) returns (rest: seq<Event>)
    requires cs.Valid() && !(ready.hangUp && !ready.input) && (ready.input || ready.priority)
    ensures Dispatch(ready, 0, cs, result) == [HandleRead(0)] + rest && Handlers(rest)
  {
    rest := cs.closeAgain + (if ready.output then [HandleWrite(result)] else []);
  }

  function Closings(es: seq<Event>): nat {
    if es == [] then 0 else (if es[0].HandleClose? || es[0] == HandleRead(0) then 1 else 0) + Closings(es[1..])
  }

  lemma {:induction false} ClosingsOfParts(a: seq<Event>, b: seq<Event>)
    ensures Closings(a + b) == Closings(a) + Closings(b)
    decreases |a|
  {
    if a == [] {
      assert a + b == b;
    } else {
      assert (a + b)[1..] == a[1..] + b;
      ClosingsOfParts(a[1..], b);
    }
  }

  lemma {:induction false} CallsCloseNothing(calls: seq<Event>)
    requires UserCalls(calls)
    ensures Closings(calls) == 0
    decreases |calls|
  {
    if calls != [] { CallsCloseNothing(calls[1..]); }
  }

  lemma ClosingsOfDispatch(ready: Pollers.Ready, count: int, cs: Callbacks, result: Written)
    requires cs.Valid()
    ensures Closings(Dispatch(ready, count, cs, result))
         == (if ready.hangUp && !ready.input then 1 else 0)
            + (if (ready.input || ready.priority) && count == 0 then 1 else 0)
  {
    var close := if ready.hangUp && !ready.input then CloseEvents(cs.close) else [];
    var read := if ready.input || ready.priority then ReadEvents(count, cs.message, cs.closeAgain) else [];
    var write := if ready.output then [HandleWrite(result)] else [];
    CallsCloseNothing(cs.close);
    CallsCloseNothing(cs.message);
    CallsCloseNothing(cs.closeAgain);
    ClosingsOfParts([HandleClose], cs.close);
    ClosingsOfParts([HandleRead(count)], if count > 0 then cs.message else if count == 0 then cs.closeAgain else []);
    ClosingsOfParts(close, read + write);
    ClosingsOfParts(read, write);
    assert [HandleClose][1..] == [] && [HandleRead(count)][1..] == [] && [HandleWrite(result)][1..] == [];
  }

  /** A dispatch closes twice exactly on a hang-up with priority and no input whose read finds the end of file. */
  lemma ClosesTwice(ready: Pollers.Ready, count: int, cs: Callbacks, result: Written)
    requires cs.Valid()
    ensures Closings(Dispatch(ready, count, cs, result)) <= 2
    ensures Closings(Dispatch(ready, count, cs, result)) == 2
       <==> ready.hangUp && !ready.input && ready.priority && count == 0
  {
    ClosingsOfDispatch(ready, count, cs, result);
  }

  predicate Handler(e: Event) {
    e.HandleRead? || e.HandleWrite? || e.OwnSend? || e.OwnStop?
  }

  predicate Handlers(es: seq<Event>) {
    forall i :: 0 <= i < |es| ==> Handler(es[i])
  }

  lemma FirstCloses(d: Discipline, s: State, e: Event, rest: seq<Event>)
    requires (e.HandleClose? || e == HandleRead(0)) && Handlers(rest) && IsRun(d, s, [e] + rest)
    ensures After(d, s, [e] + rest) == DoClose(s)
  {
    assert ([e] + rest)[1..] == rest;
    NothingFollowsClose(d, DoClose(s), rest);
  }

  lemma {:induction false} NothingFollowsClose(d: Discipline, s: State, es: seq<Event>)
    requires s.state.Disconnected? && !s.reading && !s.writing && IsRun(d, s, es)
    requires Handlers(es)
    ensures After(d, s, es) == s
    decreases |es|
  {
    if es != [] {
      NothingFollowsClose(d, Step(d, s, es[0]), es[1..]);
    }
  }

  /**
    The exception happens: `shutdown` tests the state, the connection is closed, `shutdown` assigns; the
    state is back to disconnecting, and a queued send makes the closed connection write.
   */
  lemma ShutdownRaceReopens()
    ensures var es := [Establish, SendCheck, SendPush([2]), StopCheck, HandleClose, StopSet(1), RunClosure(Wrote(1))];
      && IsRun(IDEAL, INIT, es) && !IsTimelyRun(IDEAL, INIT, es)
      && var s := After(IDEAL, INIT, es); s.state.Disconnecting? && s.wire == [2]
  {
    var s3 := State(Connected, true, false, [], [], [], false, false, [SendInLoop([2])], 0, 0, {}, []);
    assert Step(IDEAL, Step(IDEAL, Step(IDEAL, INIT, Establish), SendCheck), SendPush([2])) == s3;
    CloseInTheMiddle(s3);
    var rest := [StopCheck, HandleClose, StopSet(1), RunClosure(Wrote(1))];
    RunOfThreeMore(IDEAL, INIT, Establish, SendCheck, SendPush([2]), rest);
    assert [Establish, SendCheck, SendPush([2])] + rest
        == [Establish, SendCheck, SendPush([2]), StopCheck, HandleClose, StopSet(1), RunClosure(Wrote(1))];
  }

  lemma CloseInTheMiddle(s3: State)
    requires s3 == State(Connected, true, false, [], [], [], false, false, [SendInLoop([2])], 0, 0, {}, [])
    ensures var es := [StopCheck, HandleClose, StopSet(1), RunClosure(Wrote(1))];
      && IsRun(IDEAL, s3, es) && !IsTimelyRun(IDEAL, s3, es)
      && var s := After(IDEAL, s3, es); s.state.Disconnecting? && s.wire == [2]
  {
    var s5 := s3.(state := Disconnected, reading := false, stopping := 1);
    assert Step(IDEAL, Step(IDEAL, s3, StopCheck), HandleClose) == s5;
    var s6 := s5.(state := Disconnecting, stopping := 0, owing := {0}, promised := [Promised(s5, 1)]);
    assert Step(IDEAL, s5, StopSet(1)) == s6 by {
      assert {} + {0} == {0} && [] + [Promised(s5, 1)] == [Promised(s5, 1)];
    }
    WritesAfterClose(s6);
    RunOfFour(IDEAL, s3, StopCheck, HandleClose, StopSet(1), RunClosure(Wrote(1)));
  }

  lemma WritesAfterClose(s: State)
    requires s.queue != [] && s.queue[0] == SendInLoop([2]) && s.state.Disconnecting?
    requires s.out == [] && !s.writing && s.wire == [] && !s.halfClosed
    ensures Enabled(s, RunClosure(Wrote(1))) && Step(IDEAL, s, RunClosure(Wrote(1))).wire == [2]
  {
    assert [2][..1] == [2] && [2][1..] == [];
  }

  // --- runs written out -----------------------------------------------------------------------

  lemma {:induction false} RunsConcatenate(d: Discipline, s: State, a: seq<Event>, b: seq<Event>)
    ensures IsRun(d, s, a + b) <==> IsRun(d, s, a) && IsRun(d, After(d, s, a), b)
    ensures IsRun(d, s, a + b) ==> After(d, s, a + b) == After(d, After(d, s, a), b)
    decreases |a|
  {
    if a == [] {
      assert a + b == b;
    } else if Enabled(s, a[0]) {
      assert (a + b)[1..] == a[1..] + b;
      RunsConcatenate(d, Step(d, s, a[0]), a[1..], b);
    }
  }

  lemma RunOfFour(d: Discipline, s: State, a: Event, b: Event, c: Event, e: Event)
    requires Enabled(s, a) && Enabled(Step(d, s, a), b) && Enabled(Step(d, Step(d, s, a), b), c)
    requires Enabled(Step(d, Step(d, Step(d, s, a), b), c), e)
    ensures IsRun(d, s, [a, b, c, e])
    ensures After(d, s, [a, b, c, e]) == Step(d, Step(d, Step(d, Step(d, s, a), b), c), e)
    ensures IsTimelyRun(d, s, [a, b, c, e])
       <==> Timely(s, a) && Timely(Step(d, s, a), b) && Timely(Step(d, Step(d, s, a), b), c)
            && Timely(Step(d, Step(d, Step(d, s, a), b), c), e)
  {
    var s1 := Step(d, s, a);
    var s2 := Step(d, s1, b);
    var s3 := Step(d, s2, c);
    var s4 := Step(d, s3, e);
    assert IsRun(d, s4, []) && After(d, s4, []) == s4 && IsTimelyRun(d, s4, []);
    assert [e][1..] == [] && IsRun(d, s3, [e]) && After(d, s3, [e]) == s4;
    assert IsTimelyRun(d, s3, [e]) <==> Timely(s3, e);
    assert [c, e][1..] == [e] && IsRun(d, s2, [c, e]) && After(d, s2, [c, e]) == s4;
    assert IsTimelyRun(d, s2, [c, e]) <==> Timely(s2, c) && Timely(s3, e);
    assert [b, c, e][1..] == [c, e] && IsRun(d, s1, [b, c, e]) && After(d, s1, [b, c, e]) == s4;
    assert IsTimelyRun(d, s1, [b, c, e]) <==> Timely(s1, b) && Timely(s2, c) && Timely(s3, e);
    assert [a, b, c, e][1..] == [b, c, e];
  }

  lemma RunOfThreeMore(d: Discipline, s: State, a: Event, b: Event, c: Event, es: seq<Event>)
    requires Enabled(s, a) && Enabled(Step(d, s, a), b) && Enabled(Step(d, Step(d, s, a), b), c)
    requires !a.StopSet? && !b.StopSet? && !c.StopSet?
    requires IsRun(d, Step(d, Step(d, Step(d, s, a), b), c), es)
    ensures IsRun(d, s, [a, b, c] + es)
    ensures After(d, s, [a, b, c] + es) == After(d, Step(d, Step(d, Step(d, s, a), b), c), es)
    ensures IsTimelyRun(d, s, [a, b, c] + es) <==> IsTimelyRun(d, Step(d, Step(d, Step(d, s, a), b), c), es)
  {
    var s1 := Step(d, s, a);
    var s2 := Step(d, s1, b);
    var s3 := Step(d, s2, c);
    assert ([c] + es)[1..] == es && IsRun(d, s2, [c] + es) && After(d, s2, [c] + es) == After(d, s3, es);
    assert IsTimelyRun(d, s2, [c] + es) <==> IsTimelyRun(d, s3, es);
    assert ([b, c] + es)[1..] == [c] + es && IsRun(d, s1, [b, c] + es) && After(d, s1, [b, c] + es) == After(d, s3, es);
    assert IsTimelyRun(d, s1, [b, c] + es) <==> IsTimelyRun(d, s3, es);
    assert ([a, b, c] + es)[1..] == [b, c] + es;
  }
}
