/** What a `shutdown` promises about the bytes sent before it: when it is kept, and what decides it at the call. */
module HalfClose {
  import opened ConnStates
  import opened StreamGuarantees
  import opened Streams

  // --- at the half-close ----------------------------------------------------------------------

  /** The step half-closes a connection that is not closed, and no byte has been given up. */
  predicate HalfCloses(s: State, e: Event)
    requires Enabled(s, e)
  {
    !s.halfClosed && !s.state.Disconnected? && Step(IDEAL, s, e).halfClosed && !Step(IDEAL, s, e).faulted
  }

  /** What the i-th `shutdown` promised is on the wire. */
  predicate Kept(s: State, i: nat) {
    i < |s.promised| && s.promised[i].bytes <= s.wire
  }

  /** No byte the i-th `shutdown` promised is still in the queue of the loop. */
  predicate NoneWaits(s: State, i: nat) {
    i < |s.promised| && s.promised[i].ahead <= |s.queue| && QueueData(s.queue[..s.promised[i].ahead]) == []
  }

  lemma StepKeepsPromises(s: State, e: Event)
    requires Inv(s) && Enabled(s, e) && Timely(s, e) && HalfCloses(s, e)
    ensures var s' := Step(IDEAL, s, e);
      && Inv(s') && s'.state.Disconnecting?
      && forall i :: 0 <= i < |s'.promised| ==> (Kept(s', i) <==> NoneWaits(s', i))
  {
    var s' := Step(IDEAL, s, e);
    StepKeepsInv(s, e);
    HalfCloseComesLast(s, e);
    assert s'.state.Disconnecting?;
    forall i | 0 <= i < |s'.promised| ensures Kept(s', i) <==> NoneWaits(s', i) {
      var p := s'.promised[i];
      assert PromiseOk(s', p);
      assert s'.queue[..0] == [];
    }
  }

  /**
    In every run: when the connection is half-closed, everything its caller handed to `send` before a
    `shutdown` is on the wire exactly if none of it still waits in the queue of the loop, be the closure of that
    `shutdown` not yet pushed, queued or run.  When its own closure half-closes, nothing waits.
   */
  lemma HalfCloseKeepsPromises(es: seq<Event>, e: Event, i: nat)
    requires IsTimelyRun(IDEAL, INIT, es) && IsRun(IDEAL, INIT, es)
    requires var s := After(IDEAL, INIT, es);
      && Enabled(s, e) && Timely(s, e) && HalfCloses(s, e) && i < |Step(IDEAL, s, e).promised|
    ensures var s := After(IDEAL, INIT, es); var s' := Step(IDEAL, s, e);
      && (Kept(s', i) <==> NoneWaits(s', i))
      && (e.RunClosure? && s.queue[0] == ShutdownInLoop(i) ==> Kept(s', i))
  {
    RunKeepsInv(INIT, es);
    var s := After(IDEAL, INIT, es);
    StepKeepsPromises(s, e);
    if e.RunClosure? && s.queue[0] == ShutdownInLoop(i) { NothingIsAhead(s, e.result, i); }
  }

  /** When the closure of a `shutdown` runs, nothing waits ahead of it. */
  lemma NothingIsAhead(s: State, result: Written, i: nat)
    requires Inv(s) && Enabled(s, RunClosure(result)) && s.queue[0] == ShutdownInLoop(i)
    ensures NoneWaits(Step(IDEAL, s, RunClosure(result)), i)
  {
    assert Step(IDEAL, s, RunClosure(result)).promised == Advanced(s.promised);
    assert Step(IDEAL, s, RunClosure(result)).queue[..0] == [];
  }

  // --- from the call on -----------------------------------------------------------------------

  /** The last event of the run is the one that half-closes. */
  predicate UpToHalfClose(s: State, es: seq<Event>)
    decreases |es|
  {
    && es != [] && Enabled(s, es[0]) && Timely(s, es[0])
    && if |es| == 1 then HalfCloses(s, es[0])
       else UpToHalfClose(Step(IDEAL, s, es[0]), es[1..]) && !s.halfClosed
  }

  function AtHalfClose(s: State, es: seq<Event>): State
    requires UpToHalfClose(s, es)
    decreases |es|
  {
    if |es| == 1 then Step(IDEAL, s, es[0]) else AtHalfClose(Step(IDEAL, s, es[0]), es[1..])
  }

  lemma {:induction false} UpToHalfCloseIsRun(s: State, es: seq<Event>)
    requires UpToHalfClose(s, es)
    ensures IsTimelyRun(IDEAL, s, es) && IsRun(IDEAL, s, es) && AtHalfClose(s, es) == After(IDEAL, s, es)
    decreases |es|
  {
    if |es| == 1 {
      assert es[1..] == [];
    } else {
      UpToHalfCloseIsRun(Step(IDEAL, s, es[0]), es[1..]);
    }
  }

  /** The sends in a queue that bring bytes. */
  function Pieces(queue: seq<Closure>): nat {
    if queue == [] then 0
    else (if queue[0].SendInLoop? && queue[0].data != [] then 1 else 0) + Pieces(queue[1..])
  }

  lemma {:induction false} NoPiecesNoData(queue: seq<Closure>)
    ensures Pieces(queue) == 0 <==> QueueData(queue) == []
  {
    if queue != [] { NoPiecesNoData(queue[1..]); }
  }

  predicate NoStops(queue: seq<Closure>) {
    forall j :: 0 <= j < |queue| ==> queue[j].SendInLoop?
  }

  function AheadOf(s: State, i: nat): seq<Closure>
    requires i < |s.promised| && s.promised[i].ahead <= |s.queue|
  {
    s.queue[..s.promised[i].ahead]
  }

  predicate Stopping(s: State, i: nat) {
    && s.state.Disconnecting? && i < |s.promised| && s.promised[i].ahead <= |s.queue|
    && NoStops(AheadOf(s, i))
  }

  /** What waits ahead of the `shutdown` is in one place: in the output queue, or in one queued send. */
  predicate InOnePlace(s: State, i: nat)
    requires Stopping(s, i)
  {
    Pieces(AheadOf(s, i)) + (if s.out == [] then 0 else 1) <= 1 || Pieces(AheadOf(s, i)) == 0
  }

  lemma PiecesOfHead(s: State, s': State, i: nat)
    requires Stopping(s, i) && s.promised[i].ahead > 0
    requires s'.queue == s.queue[1..] && s'.promised == Advanced(s.promised)
    ensures s.queue[0].SendInLoop? && NoStops(AheadOf(s', i))
    ensures Pieces(AheadOf(s, i)) == (if s.queue[0].data != [] then 1 else 0) + Pieces(AheadOf(s', i))
  {
    var before := AheadOf(s, i);
    assert before[0] == s.queue[0];
    assert before[1..] == AheadOf(s', i);
    assert forall j :: 0 <= j < |before[1..]| ==> before[1..][j] == before[j + 1];
  }

  lemma OnePlaceStaysOnPop(s: State, result: Written, i: nat)
    requires Inv(s) && Enabled(s, RunClosure(result)) && Stopping(s, i) && InOnePlace(s, i)
    ensures var s' := Step(IDEAL, s, RunClosure(result)); Stopping(s', i) && InOnePlace(s', i)
  {
    var s1 := s.(queue := s.queue[1..], promised := Advanced(s.promised));
    if s.promised[i].ahead > 0 {
      PiecesOfHead(s, s1, i);
    } else {
      assert AheadOf(s1, i) == [];
    }
  }

  /** What waits ahead of a `shutdown` moves from one place to the next, never into two. */
  lemma OnePlaceStays(s: State, e: Event, i: nat)
    requires Inv(s) && Enabled(s, e) && Timely(s, e) && Stopping(s, i) && InOnePlace(s, i)
    requires !Step(IDEAL, s, e).state.Disconnected?
    ensures var s' := Step(IDEAL, s, e); Stopping(s', i) && InOnePlace(s', i)
  {
    var s' := Step(IDEAL, s, e);
    if e.RunClosure? {
      OnePlaceStaysOnPop(s, e.result, i);
    } else {
      assert s'.queue[..s.promised[i].ahead] == AheadOf(s, i);
    }
  }

  lemma {:induction false} ClosedNeverHalfCloses(s: State, es: seq<Event>)
    requires s.state.Disconnected?
    ensures !UpToHalfClose(s, es)
    decreases |es|
  {
    if |es| > 1 && Enabled(s, es[0]) && Timely(s, es[0]) {
      ClosedNeverHalfCloses(Step(IDEAL, s, es[0]), es[1..]);
    }
  }

  lemma PromiseStays(s: State, e: Event, i: nat)
    requires Enabled(s, e) && i < |s.promised|
    ensures var s' := Step(IDEAL, s, e);
      i < |s'.promised| && s'.promised[i].bytes == s.promised[i].bytes && s'.promised[i].ahead <= s.promised[i].ahead
  {
    match e
    case RunClosure(_) => assert Step(IDEAL, s, e).promised == Advanced(s.promised);
    case HandleWrite(_) => assert Step(IDEAL, s, e).promised == s.promised;
    case _ =>
  }

  lemma StopIsNotAhead(s: State, i: nat)
    requires Stopping(s, i) && s.queue != []
    ensures s.queue[0].ShutdownInLoop? ==> s.promised[i].ahead == 0
  {
    if s.promised[i].ahead > 0 {
      assert AheadOf(s, i)[0] == s.queue[0];
    }
  }

  lemma LastStepKeeps(s: State, e: Event, i: nat)
    requires Inv(s) && Enabled(s, e) && Timely(s, e) && HalfCloses(s, e) && Stopping(s, i) && InOnePlace(s, i)
    ensures Kept(Step(IDEAL, s, e), i)
  {
    var s' := Step(IDEAL, s, e);
    StepKeepsPromises(s, e);
    PromiseStays(s, e, i);
    if e.RunClosure? {
      StopIsNotAhead(s, i);
      assert s'.queue[..0] == [];
    } else {
      NoPiecesNoData(AheadOf(s, i));
    }
    assert NoneWaits(s', i);
  }

  lemma {:induction false} OnePlaceIsKept(s: State, es: seq<Event>, i: nat)
    requires Inv(s) && Stopping(s, i) && InOnePlace(s, i) && UpToHalfClose(s, es)
    ensures Kept(AtHalfClose(s, es), i) && AtHalfClose(s, es).promised[i].bytes == s.promised[i].bytes
    decreases |es|
  {
    PromiseStays(s, es[0], i);
    if |es| == 1 {
      LastStepKeeps(s, es[0], i);
    } else {
      var s1 := Step(IDEAL, s, es[0]);
      if s1.state.Disconnected? { ClosedNeverHalfCloses(s1, es[1..]); }
      StepKeepsInv(s, es[0]);
      OnePlaceStays(s, es[0], i);
      OnePlaceIsKept(s1, es[1..], i);
    }
  }

  /** The ordinary case: the closure of the `shutdown` runs while writing, and a later drain half-closes. */
  lemma LateDrainKeeps(s: State, result: Written, es: seq<Event>, i: nat)
    requires Inv(s) && s.state.Disconnecting? && s.writing && s.queue != [] && s.queue[0] == ShutdownInLoop(i)
    requires UpToHalfClose(Step(IDEAL, s, RunClosure(result)), es)
    ensures i < |s.promised| && s.promised[i].bytes <= AtHalfClose(Step(IDEAL, s, RunClosure(result)), es).wire
  {
    var e := RunClosure(result);
    var s1 := Step(IDEAL, s, e);
    PromiseStays(s, e, i);
    StepKeepsInv(s, e);
    assert AheadOf(s1, i) == [];
    OnePlaceIsKept(s1, es, i);
  }

  // --- and the other way: a run that breaks the promise ---------------------------------------

  /** A write handler that drains the output queue half-closes at once. */
  lemma DrainOvertakes(s: State, i: nat)
    requires Inv(s) && Stopping(s, i) && !s.halfClosed && !s.faulted && s.out != [] && Pieces(AheadOf(s, i)) > 0
    ensures var es := [HandleWrite(Wrote(|s.out|))]; UpToHalfClose(s, es) && !Kept(AtHalfClose(s, es), i)
  {
    var e := HandleWrite(Wrote(|s.out|));
    var s' := Step(IDEAL, s, e);
    assert s.out[|s.out|..] == [];
    StepKeepsPromises(s, e);
    NoPiecesNoData(AheadOf(s, i));
  }

  /** The kernel takes none of the bytes of the head of the queue, if it brings any. */
  function Refused(s: State): Written {
    if s.queue != [] && s.queue[0].SendInLoop? && s.queue[0].data != [] then OtherError else Wrote(0)
  }

  lemma {:induction false} TwoPlacesOvertake(s: State, i: nat) returns (es: seq<Event>)
    requires Inv(s) && Stopping(s, i) && !s.halfClosed && !s.faulted && !InOnePlace(s, i)
    ensures UpToHalfClose(s, es) && !Kept(AtHalfClose(s, es), i)
    decreases |s.queue|
  {
    if s.out != [] {
      DrainOvertakes(s, i);
      es := [HandleWrite(Wrote(|s.out|))];
    } else {
      assert AheadOf(s, i) != [];
      var e := RunClosure(Refused(s));
      PiecesOfHead(s, s.(queue := s.queue[1..], promised := Advanced(s.promised)), i);
      StepKeepsInv(s, e);
      TakingOnLeavesTwo(s, i);
      var s1 := Step(IDEAL, s, e);
      var rest := TwoPlacesOvertake(s1, i);
      es := [e] + rest;
      assert es[1..] == rest && rest != [];
    }
  }

  lemma TakingOnLeavesTwo(s: State, i: nat)
    requires Inv(s) && Stopping(s, i) && !s.halfClosed && !s.faulted && !InOnePlace(s, i) && s.out == []
    requires s.promised[i].ahead > 0
    ensures Enabled(s, RunClosure(Refused(s)))
    ensures var s1 := Step(IDEAL, s, RunClosure(Refused(s)));
      Stopping(s1, i) && !InOnePlace(s1, i) && !s1.halfClosed && !s1.faulted && |s1.queue| < |s.queue|
  {
    PiecesOfHead(s, s.(queue := s.queue[1..], promised := Advanced(s.promised)), i);
    var data := s.queue[0].data;
    assert data[0..] == data;
  }

  /** It happens: a thread sends 2 and shuts down; the loop, draining 1, half-closes before it runs the send. */
  lemma HalfCloseOvertakesSend()
    ensures var es := [Establish, OwnSend([1], OtherError), SendCheck]
                      + ([SendPush([2]), StopCheck, StopSet(1), StopPush(0)] + [HandleWrite(Wrote(1))]);
      && IsTimelyRun(IDEAL, INIT, es) && IsRun(IDEAL, INIT, es)
      && var s := After(IDEAL, INIT, es);
         s.halfClosed && s.wire == [1] && s.queue == [SendInLoop([2]), ShutdownInLoop(0)] && !Kept(s, 0)
  {
    var rest := [SendPush([2]), StopCheck, StopSet(1), StopPush(0)] + [HandleWrite(Wrote(1))];
    var s3 := SendQueuesAndAnotherBegins();
    StopThenDrain(s3);
    RunOfThreeMore(IDEAL, INIT, Establish, OwnSend([1], OtherError), SendCheck, rest);
  }

  lemma SendQueuesAndAnotherBegins() returns (s3: State)
    ensures s3 == State(Connected, true, true, [1], [], [1], false, false, [], 1, 0, {}, [])
    ensures var s1 := Step(IDEAL, INIT, Establish);
      && Enabled(s1, OwnSend([1], OtherError))
      && Enabled(Step(IDEAL, s1, OwnSend([1], OtherError)), SendCheck)
      && Step(IDEAL, Step(IDEAL, s1, OwnSend([1], OtherError)), SendCheck) == s3
  {
    QueuesOne(IDEAL, 1);
    s3 := State(Connected, true, true, [1], [], [1], false, false, [], 1, 0, {}, []);
  }

  lemma StopThenDrain(s3: State)
    requires s3 == State(Connected, true, true, [1], [], [1], false, false, [], 1, 0, {}, [])
    ensures var es := [SendPush([2]), StopCheck, StopSet(1), StopPush(0)] + [HandleWrite(Wrote(1))];
      && IsTimelyRun(IDEAL, s3, es) && IsRun(IDEAL, s3, es)
      && var s := After(IDEAL, s3, es);
         s.halfClosed && s.wire == [1] && s.queue == [SendInLoop([2]), ShutdownInLoop(0)] && !Kept(s, 0)
  {
    var rest, last := [SendPush([2]), StopCheck, StopSet(1), StopPush(0)], [HandleWrite(Wrote(1))];
    SendThenStop(s3);
    DrainHalfCloses(After(IDEAL, s3, rest));
    RunsConcatenate(IDEAL, s3, rest, last);
    TimelyConcatenate(s3, rest, last);
  }

  lemma DrainHalfCloses(s7: State)
    requires s7 == State(Disconnecting, true, true, [1], [], [1], false, false,
           [SendInLoop([2]), ShutdownInLoop(0)], 0, 0, {}, [Promise([1, 2], 1)])
    ensures var es := [HandleWrite(Wrote(1))];
      && IsTimelyRun(IDEAL, s7, es) && IsRun(IDEAL, s7, es)
      && var s := After(IDEAL, s7, es); s.halfClosed && s.wire == [1] && s.queue == s7.queue && !Kept(s, 0)
  {
    var e := HandleWrite(Wrote(1));
    assert [1][1..] == [] && [1][..1] == [1] && [] + [1] == [1];
    var s := Step(IDEAL, s7, e);
    assert s.promised == s7.promised && s.wire == [1];
    assert [e][1..] == [] && IsTimelyRun(IDEAL, s, []) && IsRun(IDEAL, s, []) && After(IDEAL, s, []) == s;
  }

  lemma SendThenStop(s3: State)
    requires s3 == State(Connected, true, true, [1], [], [1], false, false, [], 1, 0, {}, [])
    ensures var es := [SendPush([2]), StopCheck, StopSet(1), StopPush(0)];
      && IsTimelyRun(IDEAL, s3, es) && IsRun(IDEAL, s3, es)
      && After(IDEAL, s3, es) == State(Disconnecting, true, true, [1], [], [1], false, false,
           [SendInLoop([2]), ShutdownInLoop(0)], 0, 0, {}, [Promise([1, 2], 1)])
  {
    var s5 := s3.(sending := 0, stopping := 1, queue := [SendInLoop([2])]);
    assert Step(IDEAL, Step(IDEAL, s3, SendPush([2])), StopCheck) == s5;
    StopPromisesBoth(s5);
    PushesAfterStop(Step(IDEAL, s5, StopSet(1)));
    RunOfFour(IDEAL, s3, SendPush([2]), StopCheck, StopSet(1), StopPush(0));
  }

  lemma StopPromisesBoth(s5: State)
    requires s5 == State(Connected, true, true, [1], [], [1], false, false, [SendInLoop([2])], 0, 1, {}, [])
    ensures Enabled(s5, StopSet(1))
    ensures Step(IDEAL, s5, StopSet(1))
         == s5.(state := Disconnecting, stopping := 0, owing := {0}, promised := [Promise([1, 2], 1)])
  {
    var queue := s5.queue[..1];
    assert queue == [SendInLoop([2])] && queue[1..] == [];
    assert QueueData(queue) == [2] + QueueData([]);
    assert Promised(s5, 1) == Promise([1, 2], 1);
  }

  lemma PushesAfterStop(s6: State)
    requires s6.queue == [SendInLoop([2])] && s6.owing == {0}
    ensures Enabled(s6, StopPush(0))
    ensures Step(IDEAL, s6, StopPush(0)) == s6.(owing := {}, queue := [SendInLoop([2]), ShutdownInLoop(0)])
  {
    assert {0} - {0} == {} && [SendInLoop([2])] + [ShutdownInLoop(0)] == [SendInLoop([2]), ShutdownInLoop(0)];
  }

  lemma {:induction false} TimelyConcatenate(s: State, a: seq<Event>, b: seq<Event>)
    requires IsTimelyRun(IDEAL, s, a) && IsRun(IDEAL, s, a) && IsTimelyRun(IDEAL, After(IDEAL, s, a), b)
    ensures IsTimelyRun(IDEAL, s, a + b)
    decreases |a|
  {
    if a == [] {
      assert a + b == b;
    } else {
      assert (a + b)[1..] == a[1..] + b;
      TimelyConcatenate(Step(IDEAL, s, a[0]), a[1..], b);
    }
  }

  // --- the condition at the call --------------------------------------------------------------

  /**
    A thread calls `shutdown` whose last queued send that brings bytes is at `ahead - 1` (0 if it has none).
    All it has sent, and with it all that was taken on or queued before, will be on the wire at the
    half-close, in every run, if and only if at the moment the state is set the closures up to that send
    bring no bytes, or one of them does and the output queue is empty.
   */
  lemma ShutdownWaits(s: State, ahead: nat)
    requires Inv(s) && Enabled(s, StopSet(ahead)) && s.state.Connected? && !s.faulted
    ensures var s1, k := Step(IDEAL, s, StopSet(ahead)), Pieces(s.queue[..ahead]);
      (forall es :: UpToHalfClose(s1, es) ==> Kept(AtHalfClose(s1, es), 0)) <==> (k == 0 || (k == 1 && s.out == []))
  {
    var s1 := Step(IDEAL, s, StopSet(ahead));
    StepKeepsInv(s, StopSet(ahead));
    QueuedAreSends(s, ahead);
    assert AheadOf(s1, 0) == s.queue[..ahead];
    if InOnePlace(s1, 0) {
      forall es | UpToHalfClose(s1, es) ensures Kept(AtHalfClose(s1, es), 0) { OnePlaceIsKept(s1, es, 0); }
    } else {
      var es := TwoPlacesOvertake(s1, 0);
    }
  }

  lemma QueuedAreSends(s: State, ahead: nat)
    requires Inv(s) && s.state.Connected? && ahead <= |s.queue|
    ensures NoStops(s.queue[..ahead]) && s.promised == []
  {
  }

  /**
    For a `shutdown` on the loop's thread: if and only if the closures it counts bring no bytes.  Its own
    sends are never queued, so what the loop's thread has sent itself always precedes the half-close.
   */
  lemma OwnShutdownWaits(s: State, ahead: nat)
    requires Inv(s) && s.state.Connected? && !s.faulted && ahead <= |s.queue|
    ensures (forall es :: es != [] && es[0] == OwnStop(ahead) && UpToHalfClose(s, es) ==> Kept(AtHalfClose(s, es), 0))
      <==> QueueData(s.queue[..ahead]) == []
    ensures forall es :: es != [] && es[0] == OwnStop(0) && UpToHalfClose(s, es) ==>
      s.accepted <= AtHalfClose(s, es).wire
  {
    OwnStopOutcome(s, ahead);
    OwnStopOutcome(s, 0);
    assert s.queue[..0] == [];
    forall es | es != [] && es[0] == OwnStop(0) && UpToHalfClose(s, es) ensures s.accepted <= AtHalfClose(s, es).wire {
      OwnPromiseStays(s, es);
    }
  }

  lemma OwnPromiseStays(s: State, es: seq<Event>)
    requires Inv(s) && s.state.Connected? && es != [] && es[0] == OwnStop(0) && UpToHalfClose(s, es)
    ensures Kept(AtHalfClose(s, es), 0) ==> s.accepted <= AtHalfClose(s, es).wire
  {
    var s1 := Step(IDEAL, s, OwnStop(0));
    assert s.queue[..0] == [] && s.accepted + [] == s.accepted;
    assert s1.promised == [Promise(s.accepted, 0)];
    if |es| > 1 { BytesStay(s1, es[1..], 0); }
  }

  lemma {:induction false} BytesStay(s: State, es: seq<Event>, i: nat)
    requires i < |s.promised| && UpToHalfClose(s, es)
    ensures i < |AtHalfClose(s, es).promised| && AtHalfClose(s, es).promised[i].bytes == s.promised[i].bytes
    decreases |es|
  {
    PromiseStays(s, es[0], i);
    if |es| > 1 { BytesStay(Step(IDEAL, s, es[0]), es[1..], i); }
  }

  lemma OwnStopOutcome(s: State, ahead: nat)
    requires Inv(s) && s.state.Connected? && !s.faulted && ahead <= |s.queue|
    ensures (forall es :: es != [] && es[0] == OwnStop(ahead) && UpToHalfClose(s, es) ==> Kept(AtHalfClose(s, es), 0))
      <==> QueueData(s.queue[..ahead]) == []
  {
    if QueueData(s.queue[..ahead]) == [] {
      forall es | es != [] && es[0] == OwnStop(ahead) && UpToHalfClose(s, es) ensures Kept(AtHalfClose(s, es), 0) {
        OwnStopIsKept(s, ahead, es);
      }
    } else {
      var es := OwnStopIsBroken(s, ahead);
    }
  }

  lemma OwnStopIsKept(s: State, ahead: nat, es: seq<Event>)
    requires Inv(s) && s.state.Connected? && ahead <= |s.queue| && QueueData(s.queue[..ahead]) == []
    requires es != [] && es[0] == OwnStop(ahead) && UpToHalfClose(s, es)
    ensures Kept(AtHalfClose(s, es), 0)
  {
    var s1 := Step(IDEAL, s, OwnStop(ahead));
    StepKeepsInv(s, OwnStop(ahead));
    QueuedAreSends(s, ahead);
    NoPiecesNoData(s.queue[..ahead]);
    assert AheadOf(s1, 0) == s.queue[..ahead];
    if |es| == 1 { StepKeepsPromises(s, OwnStop(ahead)); } else { OnePlaceIsKept(s1, es[1..], 0); }
  }

  lemma OwnStopIsBroken(s: State, ahead: nat) returns (es: seq<Event>)
    requires Inv(s) && s.state.Connected? && !s.faulted && ahead <= |s.queue| && QueueData(s.queue[..ahead]) != []
    ensures es != [] && es[0] == OwnStop(ahead) && UpToHalfClose(s, es) && !Kept(AtHalfClose(s, es), 0)
  {
    var e := OwnStop(ahead);
    var s1 := Step(IDEAL, s, e);
    StepKeepsInv(s, e);
    QueuedAreSends(s, ahead);
    NoPiecesNoData(s.queue[..ahead]);
    assert AheadOf(s1, 0) == s.queue[..ahead];
    if s.writing {
      DrainOvertakes(s1, 0);
      es := [e, HandleWrite(Wrote(|s1.out|))];
      assert es[1..] == [HandleWrite(Wrote(|s1.out|))];
    } else {
      StepKeepsPromises(s, e);
      es := [e];
    }
  }
}
