/** A connection as the source writes it: the fields its methods update, and the run they make. */
module TcpConnections {
  import opened ConnStates
  import opened Kfifos
  import opened StreamAccounts
  import opened StreamGuarantees
  import opened Streams

  /** What another thread queues for the loop. */
  datatype Functor = SendFunctor(data: seq<byte>) | ShutdownFunctor

  function Plain(c: Closure): Functor {
    match c
    case SendInLoop(data) => SendFunctor(data)
    case ShutdownInLoop(_) => ShutdownFunctor
  }

  class TcpConnection {
    const discipline: Discipline
    var state: ConnState
    var reading: bool
    var writing: bool
    var outputBuffer: seq<byte>
    var pendingFunctors: seq<Functor>

    ghost var run: State

    ghost predicate Tracks()
      reads this
    {
      && run.state == state && run.reading == reading && run.writing == writing
      && run.out == outputBuffer && |run.queue| == |pendingFunctors|
      && forall i :: 0 <= i < |pendingFunctors| ==> pendingFunctors[i] == Plain(run.queue[i])
    }

    constructor (discipline: Discipline)
      ensures Tracks() && run == INIT && this.discipline == discipline
    {
      this.discipline := discipline;
      state, reading, writing, outputBuffer, pendingFunctors, run := Connecting, false, false, [], [], INIT;
    }

    /** `writeBuffer`: what does not fit is dropped. */
    method WriteBuffer(data: seq<byte>)
      modifies this`outputBuffer
      ensures outputBuffer == Appended(discipline, old(outputBuffer), data)
      ensures old(outputBuffer) <= outputBuffer <= old(outputBuffer) + data
      ensures outputBuffer == old(outputBuffer) + data <==>
        !discipline.bounded || data == [] || |old(outputBuffer)| + |data| <= discipline.capacity
    {
      var n := |data|;
      if discipline.bounded && |outputBuffer| + n > discipline.capacity {
        n := if |outputBuffer| <= discipline.capacity then discipline.capacity - |outputBuffer| else 0;
      }
      assert n == |data| ==> data[..n] == data;
      outputBuffer := outputBuffer + data[..n];
    }

    /** On the loop's own thread, or on another that is not interrupted; `result` is what `write` answers. */
    method Send(data: seq<byte>, inLoopThread: bool, result: Written)
      requires Tracks() && Possible(run, |data|, result)
      modifies this
      ensures Tracks()
      ensures !old(state).Connected? ==> run == old(run)
      ensures old(state).Connected? && inLoopThread ==>
        Enabled(old(run), OwnSend(data, result)) && run == Step(discipline, old(run), OwnSend(data, result))
      ensures old(state).Connected? && !inLoopThread ==>
        var es := [SendCheck, SendPush(data)];
        IsRun(discipline, old(run), es) && run == After(discipline, old(run), es)
    {
      if state == Connected {
        if inLoopThread {
          SendInLoop(data, result);
        } else {
          RunOfTwo(discipline, run, SendCheck, SendPush(data));
          pendingFunctors := pendingFunctors + [SendFunctor(data)];
          run := Step(discipline, Step(discipline, run, SendCheck), SendPush(data));
        }
      }
    }

    method SendInLoop(data: seq<byte>, result: Written)
      requires Tracks() && Possible(run, |data|, result)
      modifies this
      ensures Tracks() && run == DoSend(discipline, old(run), data, result)
    {
      ghost var after := DoSend(discipline, run, data, result);
      if state == Disconnected {
        return;
      }
      var nwrote, faultError := 0, false;
      if !writing && outputBuffer == [] {
        match result
        case Wrote(n) => nwrote := n;
        case Fault => faultError := true;
        case OtherError =>
      }
      if !faultError && nwrote < |data| {
        WriteBuffer(data[nwrote..]);
        if !writing {
          writing := true;
        }
      }
      run := after;
    }

    /** `ahead`: the closures up to the last send of bytes the caller has queued. */
    method Shutdown(inLoopThread: bool, ghost ahead: nat)
      requires Tracks() && ahead <= |pendingFunctors|
      modifies this
      ensures Tracks()
      ensures !old(state).Connected? ==> run == old(run)
      ensures old(state).Connected? && inLoopThread ==>
        Enabled(old(run), OwnStop(ahead)) && run == Step(discipline, old(run), OwnStop(ahead))
      ensures old(state).Connected? && !inLoopThread ==>
        var es := [StopCheck, StopSet(ahead), StopPush(|old(run).promised|)];
        IsRun(discipline, old(run), es) && run == After(discipline, old(run), es)
    {
      if state == Connected {
        state := Disconnecting;
        if inLoopThread {
          run := run.(state := Disconnecting, promised := run.promised + [Promised(run, ahead)]);
          ShutdownInLoop();
        } else {
          ghost var push := StopPush(|run.promised|);
          ghost var marked := Step(discipline, Step(discipline, run, StopCheck), StopSet(ahead));
          RunOfThree(discipline, run, StopCheck, StopSet(ahead), push);
          pendingFunctors := pendingFunctors + [ShutdownFunctor];
          run := Step(discipline, marked, push);
        }
      }
    }

    method ShutdownInLoop()
      requires Tracks()
      modifies this`run
      ensures Tracks() && run == DoShutdown(old(run))
      ensures Inv(old(run)) && !state.Disconnected? && run.halfClosed && !old(run).halfClosed ==>
        run.wire == run.accepted
    {
      if !writing {
        run := run.(halfClosed := true);
      }
    }

    /** The connection callback is called with the connection established already. */
    method ConnectEstablished(calls: seq<Event>)
      requires Tracks() && UserCalls(calls) && IsRun(discipline, run, [Establish] + calls)
      modifies this
      ensures Tracks() && run == After(discipline, old(run), [Establish] + calls)
    {
      RunOfOne(discipline, run, Establish, calls);
      run := Step(discipline, run, Establish);
      state := Connected;
      reading := true;
      CallBack(calls);
    }

    /** It is called here only if the connection was still connected. */
    method ConnectDestroyed(calls: seq<Event>)
      requires Tracks() && UserCalls(calls) && (!state.Connected? ==> calls == [])
      requires IsRun(discipline, run, [Destroy] + calls)
      modifies this
      ensures Tracks() && run == After(discipline, old(run), [Destroy] + calls)
    {
      RunOfOne(discipline, run, Destroy, calls);
      run := Step(discipline, run, Destroy);
      if state == Connected {
        state, reading, writing := Disconnected, false, false;
        CallBack(calls);
      }
    }

    /** `count` bytes are read: the message callback is called, or at the end of file the connection closed. */
    method HandleRead(count: int, message: seq<Event>, close: seq<Event>)
      requires Tracks() && UserCalls(message) && UserCalls(close)
      requires IsRun(discipline, run, ReadEvents(count, message, close))
      modifies this
      ensures Tracks() && run == After(discipline, old(run), ReadEvents(count, message, close))
      ensures state.Disconnected? <==> old(state).Disconnected? || count == 0
      ensures count > 0 ==> IsRun(discipline, old(run), message) && run == After(discipline, old(run), message)
      ensures count < 0 ==> run == old(run)
    {
      ReadRunCloses(discipline, run, count, message, close);
      ReadCloses(discipline, run, count);
      ghost var calls := if count > 0 then message else if count == 0 then close else [];
      RunOfOne(discipline, run, Event.HandleRead(count), calls);
      if count > 0 {
        CallBack(message);
      } else if count == 0 {
        RunOfOne(discipline, run, Event.HandleClose, close);
        HandleClose(close);
      }
    }

    method CallBack(calls: seq<Event>)
      requires Tracks() && UserCalls(calls) && IsRun(discipline, run, calls)
      modifies this
      ensures Tracks() && run == After(discipline, old(run), calls)
    {
      var i := 0;
      assert calls[0..] == calls;
      while i < |calls|
        invariant 0 <= i <= |calls| && Tracks()
        invariant IsRun(discipline, run, calls[i..])
        invariant After(discipline, run, calls[i..]) == After(discipline, old(run), calls)
      {
        assert calls[i..][1..] == calls[i + 1..];
        OwnCall(calls[i]);
        i := i + 1;
      }
    }

    method OwnCall(e: Event)
      requires Tracks() && Enabled(run, e) && (e.OwnSend? || e.OwnStop?)
      modifies this
      ensures Tracks() && run == Step(discipline, old(run), e)
    {
      if e.OwnSend? {
        Send(e.data, true, e.result);
      } else {
        Shutdown(true, e.ahead);
      }
    }

    method HandleWrite(result: Written)
      requires Tracks() && Enabled(run, Event.HandleWrite(result))
      modifies this
      ensures Tracks() && run == Step(discipline, old(run), Event.HandleWrite(result))
    {
      if writing {
        if result.Wrote? && result.count > 0 {
          ghost var wire := run.wire + outputBuffer[..result.count];
          if discipline.retrieves {
            outputBuffer := outputBuffer[result.count..];
          }
          run := run.(wire := wire, out := outputBuffer);
          if outputBuffer == [] {
            writing := false;
            run := run.(writing := false);
            if state == Disconnecting {
              ShutdownInLoop();
            }
          }
        }
      }
    }

    /** The connection callback is called with the connection closed already. */
    method HandleClose(close: seq<Event>)
      requires Tracks() && UserCalls(close) && IsRun(discipline, run, CloseEvents(close))
      modifies this
      ensures Tracks() && run == After(discipline, old(run), CloseEvents(close))
    {
      RunOfOne(discipline, run, Event.HandleClose, close);
      run := Step(discipline, run, Event.HandleClose);
      state, reading, writing := Disconnected, false, false;
      CallBack(close);
    }

    /** The loop runs the first closure queued for it. */
    method RunFunctor(result: Written)
      requires Tracks() && Enabled(run, RunClosure(result))
      modifies this
      ensures Tracks() && run == Step(discipline, old(run), RunClosure(result))
    {
      var functor := pendingFunctors[0];
      pendingFunctors := pendingFunctors[1..];
      run := run.(queue := run.queue[1..], promised := Advanced(run.promised));
      match functor
      case SendFunctor(data) => SendInLoop(data, result);
      case ShutdownFunctor => ShutdownInLoop();
    }

    /** `handleEventWithGuard`, with what `read` and `write` answer and what the callbacks do. */
    method HandleEvent(ready: Pollers.Ready, count: int, cs: Callbacks, result: Written)
      requires Tracks() && cs.Valid() && IsRun(discipline, run, Dispatch(ready, count, cs, result))
      modifies this
      ensures Tracks() && run == After(discipline, old(run), Dispatch(ready, count, cs, result))
      ensures state.Disconnected? <==>
        old(state).Disconnected? || (ready.hangUp && !ready.input) || ((ready.input || ready.priority) && count == 0)
    {
      DispatchCloses(discipline, run, ready, count, cs, result);
      ghost var write := if ready.output then [Event.HandleWrite(result)] else [];
      ghost var read := if ready.input || ready.priority then ReadEvents(count, cs.message, cs.closeAgain) else [];
      ghost var close := if ready.hangUp && !ready.input then CloseEvents(cs.close) else [];
      RunsConcatenate(discipline, run, close, read + write);
      if ready.hangUp && !ready.input {
        HandleClose(cs.close);
      }
      RunsConcatenate(discipline, run, read, write);
      if ready.input || ready.priority {
        HandleRead(count, cs.message, cs.closeAgain);
      }
      if ready.output {
        assert [Event.HandleWrite(result)] + [] == [Event.HandleWrite(result)];
        RunOfOne(discipline, run, Event.HandleWrite(result), []);
        HandleWrite(result);
      }
    }
  }

  lemma RunOfOne(d: Discipline, s: State, e: Event, rest: seq<Event>)
    ensures IsRun(d, s, [e] + rest) <==> Enabled(s, e) && IsRun(d, Step(d, s, e), rest)
    ensures IsRun(d, s, [e] + rest) ==> After(d, s, [e] + rest) == After(d, Step(d, s, e), rest)
  {
    assert ([e] + rest)[1..] == rest;
  }

  lemma RunOfTwo(d: Discipline, s: State, a: Event, b: Event)
    requires Enabled(s, a) && Enabled(Step(d, s, a), b)
    ensures IsRun(d, s, [a, b]) && After(d, s, [a, b]) == Step(d, Step(d, s, a), b)
  {
    assert [a, b][1..] == [b] && [b][1..] == [];
    assert IsRun(d, Step(d, Step(d, s, a), b), []);
    assert IsRun(d, Step(d, s, a), [b]) && After(d, Step(d, s, a), [b]) == Step(d, Step(d, s, a), b);
  }

  lemma RunOfThree(d: Discipline, s: State, a: Event, b: Event, c: Event)
    requires Enabled(s, a) && Enabled(Step(d, s, a), b) && Enabled(Step(d, Step(d, s, a), b), c)
    ensures IsRun(d, s, [a, b, c]) && After(d, s, [a, b, c]) == Step(d, Step(d, Step(d, s, a), b), c)
  {
    RunOfTwo(d, Step(d, s, a), b, c);
    assert [a, b, c][1..] == [b, c];
  }
}
