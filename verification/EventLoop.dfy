/** The event loop as the source writes it; what other threads do meanwhile is given to its methods as events. */
module EventLoops {
  import opened LoopProtocol

  /** The actions that may fall between those of the loop itself: its user code's and other threads'. */
  predicate FromOutside(e: Event) {
    e.Push? || e.SetQuit? || e.Wake? || e.OwnPush? || e.OwnTest? || e.OwnWake? || e.OwnQuit?
  }

  predicate AllFromOutside(es: seq<Event>) {
    forall i :: 0 <= i < |es| ==> FromOutside(es[i])
  }

  /** `functors[i]` is what happens during the i-th task of the batch. */
  datatype Turn = Turn(
    sleeping: seq<Event>,
    wakeUp: bool,
    handlers: seq<Event>,         // before the wakeup channel is drained, if it is active
    moreHandlers: seq<Event>,
    functors: seq<seq<Event>>)
  {
    predicate Wellformed() {
      && AllFromOutside(sleeping) && AllFromOutside(handlers) && AllFromOutside(moreHandlers)
      && forall i :: 0 <= i < |functors| ==> AllFromOutside(functors[i])
    }
  }

  function FunctorEvents(functors: seq<seq<Event>>): seq<Event> {
    if functors == [] then [EndBatch] else [RunTask] + (functors[0] + FunctorEvents(functors[1..]))
  }

  function PendingEvents(functors: seq<seq<Event>>): seq<Event> {
    [StartCalling] + ([Swap] + FunctorEvents(functors))
  }

  function HandlerEvents(t: Turn): seq<Event> {
    t.handlers + ((if t.wakeUp then [Drain] else []) + (t.moreHandlers + ([EndHandlers] + PendingEvents(t.functors))))
  }

  function TurnEvents(t: Turn): seq<Event> {
    [Test] + (t.sleeping + ([PollReturns(t.wakeUp)] + HandlerEvents(t)))
  }

  function TurnsEvents(turns: seq<Turn>): seq<Event> {
    if turns == [] then [] else TurnEvents(turns[0]) + TurnsEvents(turns[1..])
  }

  lemma {:induction false} RunsConcatenate(s: State, a: seq<Event>, b: seq<Event>)
    ensures IsRun(s, a + b) <==> IsRun(s, a) && IsRun(After(s, a), b)
    ensures IsRun(s, a + b) ==> After(s, a + b) == After(After(s, a), b)
    decreases |a|
  {
    if a == [] {
      assert a + b == b;
    } else if Enabled(s, a[0]) {
      assert (a + b)[1..] == a[1..] + b;
      RunsConcatenate(Step(s, a[0]), a[1..], b);
    }
  }

  lemma RunOfOne(s: State, e: Event, rest: seq<Event>)
    ensures IsRun(s, [e] + rest) <==> Enabled(s, e) && IsRun(Step(s, e), rest)
    ensures IsRun(s, [e] + rest) ==> After(s, [e] + rest) == After(Step(s, e), rest)
  {
    assert ([e] + rest)[1..] == rest;
  }

  class EventLoop {
    var pendingFunctors: seq<Task>
    var callingPendingFunctors: bool
    var quit: bool
    var wakeUpFd: nat

    ghost var run: State

    ghost predicate Tracks()
      reads this
    {
      && Inv(run)
      && run.pending == pendingFunctors && run.calling == callingPendingFunctors
      && run.quit == quit && run.eventfd == wakeUpFd
    }

    constructor ()
      ensures Tracks() && run == INIT
    {
      pendingFunctors, callingPendingFunctors, quit, wakeUpFd, run := [], false, false, 0, INIT;
    }

    method WakeUp()
      modifies this`wakeUpFd
      ensures wakeUpFd == Written(old(wakeUpFd)) && wakeUpFd > 0
      ensures wakeUpFd == if old(wakeUpFd) < COUNTER_MAX then old(wakeUpFd) + 1 else old(wakeUpFd)
    {
      if wakeUpFd < COUNTER_MAX {
        wakeUpFd := wakeUpFd + 1;
      }
    }

    /** Reading the descriptor takes all that was written. */
    method HandRead()
      requires Tracks() && Enabled(run, Drain)
      modifies this
      ensures Tracks() && run == Step(old(run), Drain)
      ensures wakeUpFd == 0
    {
      StepKeepsInv(run, Drain);
      wakeUpFd := 0;
      run := Step(run, Drain);
    }

    /** `queueInLoop` called by the loop thread: it writes only while it runs a batch. */
    method QueueInLoop(task: Task)
      requires Tracks() && InUserCode(run) && run.own.NoCall?
      modifies this
      ensures Tracks()
      ensures var es := [OwnPush(task), OwnTest] + if old(callingPendingFunctors) then [OwnWake] else [];
        IsRun(old(run), es) && run == After(old(run), es)
      ensures pendingFunctors == old(pendingFunctors) + [task]
      ensures old(callingPendingFunctors) ==> wakeUpFd > 0
    {
      ghost var es: seq<Event> := if callingPendingFunctors then [OwnWake] else [];
      RunOfOne(run, OwnPush(task), [OwnTest] + es);
      RunOfOne(Step(run, OwnPush(task)), OwnTest, es);
      assert [OwnPush(task), OwnTest] + es == [OwnPush(task)] + ([OwnTest] + es);
      StepKeepsInv(run, OwnPush(task));
      pendingFunctors := pendingFunctors + [task];
      run := Step(run, OwnPush(task));
      StepKeepsInv(run, OwnTest);
      run := Step(run, OwnTest);
      if callingPendingFunctors {
        StepKeepsInv(run, OwnWake);
        RunOfOne(run, OwnWake, []);
        assert es == [OwnWake] + [];
        WakeUp();
        run := Step(run, OwnWake);
      }
    }

    /** `queueInLoop` called by another thread and not interrupted: it always writes. */
    method QueueFromThread(tid: Tid, task: Task)
      requires Tracks() && tid !in run.owing
      modifies this
      ensures Tracks() && run == Step(Step(old(run), Push(tid, task)), Wake(tid))
      ensures pendingFunctors == old(pendingFunctors) + [task] && wakeUpFd > 0
    {
      StepKeepsInv(run, Push(tid, task));
      pendingFunctors := pendingFunctors + [task];
      run := Step(run, Push(tid, task));
      StepKeepsInv(run, Wake(tid));
      WakeUp();
      run := Step(run, Wake(tid));
    }

    /** One atomic action of user code or of another thread. */
    method Perform(e: Event)
      requires Tracks() && FromOutside(e) && Enabled(run, e)
      modifies this
      ensures Tracks() && run == Step(old(run), e)
    {
      StepKeepsInv(run, e);
      match e {
        case Push(_, task) => pendingFunctors := pendingFunctors + [task];
        case OwnPush(task) => pendingFunctors := pendingFunctors + [task];
        case SetQuit(_) => quit := true;
        case OwnQuit => quit := true;
        case Wake(_) => WakeUp();
        case OwnWake => WakeUp();
        case OwnTest =>
      }
      run := Step(run, e);
    }

    method PerformAll(es: seq<Event>, ghost rest: seq<Event>)
      requires Tracks() && AllFromOutside(es) && IsRun(run, es + rest)
      modifies this
      ensures Tracks() && IsRun(run, rest) && After(run, rest) == After(old(run), es + rest)
      ensures run.pc == old(run.pc) && run.executed == old(run.executed)
    {
      var i := 0;
      RunsConcatenate(run, es, rest);
      assert es[0..] == es;
      while i < |es|
        invariant 0 <= i <= |es|
        invariant Tracks() && run.pc == old(run.pc) && run.executed == old(run.executed)
        invariant IsRun(run, es[i..]) && After(run, es[i..]) == After(old(run), es)
      {
        assert es[i..][1..] == es[i + 1..];
        Perform(es[i]);
        i := i + 1;
      }
    }

    method SwapFunctors() returns (functors: seq<Task>)
      requires Tracks() && run.pc.Handled?
      modifies this
      ensures Tracks() && run == Step(Step(old(run), StartCalling), Swap)
      ensures functors == old(pendingFunctors) && run.pc == Running(functors) && run.executed == old(run.executed)
    {
      StepKeepsInv(run, StartCalling);
      callingPendingFunctors := true;
      run := Step(run, StartCalling);
      StepKeepsInv(run, Swap);
      functors := pendingFunctors;
      pendingFunctors := [];
      run := Step(run, Swap);
    }

    /** The swapped batch is called in order, whatever is queued meanwhile; what is queued waits for the next turn. */
    method DoPendingFunctors(during: seq<seq<Event>>)
      requires Tracks() && run.pc.Handled? && IsRun(run, PendingEvents(during))
      requires forall i :: 0 <= i < |during| ==> AllFromOutside(during[i])
      modifies this
      ensures Tracks() && run == After(old(run), PendingEvents(during)) && run.pc.Testing?
      ensures run.executed == old(run.executed) + old(pendingFunctors)
    {
      RunOfOne(run, StartCalling, [Swap] + FunctorEvents(during));
      RunOfOne(Step(run, StartCalling), Swap, FunctorEvents(during));
      var functors := SwapFunctors();
      CallBatch(functors, during);
      RunOfOne(run, EndBatch, []);
      StepKeepsInv(run, EndBatch);
      callingPendingFunctors := false;
      run := Step(run, EndBatch);
    }

    /** The first task of the batch is called, and `es` is what happens meanwhile. */
    method CallOne(es: seq<Event>, ghost rest: seq<Event>)
      requires Tracks() && run.pc.Running? && run.pc.left != []
      requires AllFromOutside(es) && IsRun(run, [RunTask] + (es + rest))
      modifies this
      ensures Tracks() && run.pc == Running(old(run).pc.left[1..])
      ensures run.executed == old(run.executed) + [old(run).pc.left[0]]
      ensures IsRun(run, rest) && After(run, rest) == After(old(run), [RunTask] + (es + rest))
    {
      RunOfOne(run, RunTask, es + rest);
      StepKeepsInv(run, RunTask);
      run := Step(run, RunTask);
      PerformAll(es, rest);
    }

    /** The loop of `doPendingFunctors`. */
    method CallBatch(functors: seq<Task>, during: seq<seq<Event>>)
      requires Tracks() && run.pc == Running(functors) && IsRun(run, FunctorEvents(during))
      requires forall i :: 0 <= i < |during| ==> AllFromOutside(during[i])
      modifies this
      ensures Tracks() && run.pc == Running([]) && IsRun(run, [EndBatch] + [])
      ensures After(run, [EndBatch] + []) == After(old(run), FunctorEvents(during))
      ensures run.executed == old(run.executed) + functors
    {
      ghost var end := After(run, FunctorEvents(during));
      var i := 0;
      assert during[0..] == during && functors[0..] == functors;
      while i < |functors|
        invariant 0 <= i <= |functors| && i <= |during|
        invariant Tracks() && run.pc == Running(functors[i..])
        invariant run.executed == old(run.executed) + functors[..i]
        invariant IsRun(run, FunctorEvents(during[i..])) && After(run, FunctorEvents(during[i..])) == end
      {
        BatchFitsScript(run, during[i..]);
        assert during[i..][1..] == during[i + 1..];
        CallOne(during[i], FunctorEvents(during[i + 1..]));
        assert functors[i..][1..] == functors[i + 1..] && functors[..i + 1] == functors[..i] + [functors[i]];
        i := i + 1;
      }
      BatchFitsScript(run, during[i..]);
      assert FunctorEvents(during[i..]) == [EndBatch] + [];
      assert functors[..i] == functors;
    }

    /** From the return of `poll` to the end of the turn. */
    method HandleAndRun(t: Turn)
      requires Tracks() && t.Wellformed() && run.pc == Handling(t.wakeUp) && IsRun(run, HandlerEvents(t))
      modifies this
      ensures Tracks() && run == After(old(run), HandlerEvents(t)) && run.pc.Testing?
    {
      ghost var last := [EndHandlers] + PendingEvents(t.functors);
      ghost var second := (if t.wakeUp then [Drain] else []) + (t.moreHandlers + last);
      PerformAll(t.handlers, second);
      if t.wakeUp {
        RunOfOne(run, Drain, t.moreHandlers + last);
        HandRead();
      } else {
        assert second == t.moreHandlers + last;
      }
      PerformAll(t.moreHandlers, last);
      RunOfOne(run, EndHandlers, PendingEvents(t.functors));
      StepKeepsInv(run, EndHandlers);
      run := Step(run, EndHandlers);
      DoPendingFunctors(t.functors);
    }

    /** One turn; afterwards the descriptor is readable only for a write it has not drained. */
    method TakeTurn(t: Turn)
      requires Tracks() && t.Wellformed() && run.pc.Testing? && !quit && IsRun(run, TurnEvents(t))
      modifies this
      ensures Tracks() && run == After(old(run), TurnEvents(t)) && run.pc.Testing?
      ensures var es := TurnEvents(t);
        wakeUpFd > 0 <==> (old(wakeUpFd) > 0 && Drain !in es) || Undrained(es)
    {
      DescriptorIsExplained(run, TurnEvents(t));
      ghost var polled := [PollReturns(t.wakeUp)] + HandlerEvents(t);
      RunOfOne(run, Test, t.sleeping + polled);
      StepKeepsInv(run, Test);
      run := Step(run, Test);
      PerformAll(t.sleeping, polled);
      RunOfOne(run, PollReturns(t.wakeUp), HandlerEvents(t));
      StepKeepsInv(run, PollReturns(t.wakeUp));
      run := Step(run, PollReturns(t.wakeUp));
      HandleAndRun(t);
    }

    /** The turns of `while (!m_quit)`. */
    method TakeTurns(turns: seq<Turn>)
      requires Tracks() && run.pc.Testing? && IsRun(run, TurnsEvents(turns))
      requires forall i :: 0 <= i < |turns| ==> turns[i].Wellformed()
      modifies this
      ensures Tracks() && run == After(old(run), TurnsEvents(turns)) && run.pc.Testing?
    {
      ghost var end := After(run, TurnsEvents(turns));
      var i := 0;
      assert turns[0..] == turns;
      while !quit && i < |turns|
        invariant 0 <= i <= |turns| && Tracks() && run.pc.Testing?
        invariant IsRun(run, TurnsEvents(turns[i..])) && After(run, TurnsEvents(turns[i..])) == end
        decreases |turns| - i
      {
        FirstTurn(run, turns, i);
        TakeTurn(turns[i]);
        i := i + 1;
      }
      AllTurnsTaken(run, turns, i);
    }

    method Enter()
      requires Tracks() && run.pc.Outside? && run.own.NoCall?
      modifies this
      ensures Tracks() && run == Step(Step(old(run), Event.Enter), ClearQuit) && run.pc.Testing?
    {
      StepKeepsInv(run, Event.Enter);
      run := Step(run, Event.Enter);
      StepKeepsInv(run, ClearQuit);
      quit := false;
      run := Step(run, ClearQuit);
    }

    /** `loop()`, watched for as many turns as are given: it returns before that only when the flag is up. */
    method Loop(turns: seq<Turn>)
      requires Tracks() && run.pc.Outside? && run.own.NoCall?
      requires forall i :: 0 <= i < |turns| ==> turns[i].Wellformed()
      requires IsRun(run, [Event.Enter] + ([ClearQuit] + TurnsEvents(turns)))
      modifies this
      ensures Tracks()
      ensures var r := After(old(run), [Event.Enter] + ([ClearQuit] + TurnsEvents(turns)));
        if r.quit then r.pc.Testing? && run == Step(r, Test) else run == r
      ensures run.pc.Left? <==> quit
    {
      RunOfOne(run, Event.Enter, [ClearQuit] + TurnsEvents(turns));
      RunOfOne(Step(run, Event.Enter), ClearQuit, TurnsEvents(turns));
      Enter();
      TakeTurns(turns);
      if quit {
        StepKeepsInv(run, Test);
        run := Step(run, Test);
      }
    }
  }

  lemma FirstTurn(s: State, turns: seq<Turn>, i: nat)
    requires i < |turns| && IsRun(s, TurnsEvents(turns[i..]))
    ensures IsRun(s, TurnEvents(turns[i]))
    ensures IsRun(After(s, TurnEvents(turns[i])), TurnsEvents(turns[i + 1..]))
    ensures After(After(s, TurnEvents(turns[i])), TurnsEvents(turns[i + 1..])) == After(s, TurnsEvents(turns[i..]))
  {
    assert turns[i..][1..] == turns[i + 1..];
    RunsConcatenate(s, TurnEvents(turns[i]), TurnsEvents(turns[i + 1..]));
  }

  /** The turns end when the flag is up, because there is no further one. */
  lemma AllTurnsTaken(s: State, turns: seq<Turn>, i: nat)
    requires Inv(s) && s.pc.Testing? && i <= |turns| && IsRun(s, TurnsEvents(turns[i..]))
    requires i == |turns| || (s.quit && turns[i].Wellformed())
    ensures After(s, TurnsEvents(turns[i..])) == s
  {
    if i < |turns| {
      FirstTurn(s, turns, i);
      NoTurnAfterQuit(s, turns[i]);
    } else {
      assert turns[i..] == [];
    }
  }

  /** The events of a batch call exactly as many tasks as there are. */
  lemma BatchFitsScript(s: State, during: seq<seq<Event>>)
    requires s.pc.Running? && IsRun(s, FunctorEvents(during))
    ensures s.pc.left == [] <==> during == []
  {
    if during == [] {
      assert FunctorEvents(during)[0] == EndBatch;
    } else {
      assert FunctorEvents(during)[0] == RunTask;
    }
  }

  /** With the flag up there is no further turn of the loop. */
  lemma NoTurnAfterQuit(s: State, t: Turn)
    requires s.pc.Testing? && s.quit && t.Wellformed()
    ensures !IsRun(s, TurnEvents(t))
  {
    var polled := [PollReturns(t.wakeUp)] + HandlerEvents(t);
    var s1 := Step(s, Test);
    RunOfOne(s, Test, t.sleeping + polled);
    RunsConcatenate(s1, t.sleeping, polled);
    if IsRun(s1, t.sleeping) {
      LoopStays(s1, t.sleeping);
      RunOfOne(After(s1, t.sleeping), PollReturns(t.wakeUp), HandlerEvents(t));
    }
  }

  lemma {:induction false} LoopStays(s: State, es: seq<Event>)
    requires IsRun(s, es) && AllFromOutside(es)
    ensures After(s, es).pc == s.pc
    decreases |es|
  {
    if es != [] {
      LoopStays(Step(s, es[0]), es[1..]);
    }
  }

  // --- every state of the loop has a turn -----------------------------------------------------

  function Undisturbed(n: nat): seq<seq<Event>> {
    seq(n, _ => [])
  }

  lemma {:induction false} BatchGoesThrough(s: State, n: nat)
    requires s.pc.Running? && n == |s.pc.left| && s.own.NoCall?
    ensures IsRun(s, FunctorEvents(Undisturbed(n)))
    ensures After(s, FunctorEvents(Undisturbed(n))).pc.Testing?
    ensures After(s, FunctorEvents(Undisturbed(n))).executed == s.executed + s.pc.left
    ensures After(s, FunctorEvents(Undisturbed(n))).eventfd == s.eventfd
    decreases n
  {
    if n == 0 {
      RunOfOne(s, EndBatch, []);
      assert [EndBatch] + [] == [EndBatch] && IsRun(Step(s, EndBatch), []) && s.executed + s.pc.left == s.executed;
    } else {
      var s1, rest := Step(s, RunTask), Undisturbed(n - 1);
      assert Undisturbed(n)[1..] == rest && [] + FunctorEvents(rest) == FunctorEvents(rest);
      RunOfOne(s, RunTask, FunctorEvents(rest));
      BatchGoesThrough(s1, n - 1);
      assert (s.executed + [s.pc.left[0]]) + s.pc.left[1..] == s.executed + s.pc.left;
    }
  }

  /**
    A loop that is to go on can take a turn, with the wakeup channel reported exactly if the descriptor is
    readable; left to itself it then calls what was queued, and has drained the descriptor.
   */
  lemma TurnIsPossible(s: State) returns (t: Turn)
    requires Inv(s) && s.pc.Testing? && !s.quit
    ensures t.Wellformed() && (t.wakeUp <==> s.eventfd > 0) && IsRun(s, TurnEvents(t))
    ensures var r := After(s, TurnEvents(t));
      r.pc.Testing? && r.executed == s.executed + s.pending && r.eventfd == 0
  {
    t := Turn([], s.eventfd > 0, [], [], Undisturbed(|s.pending|));
    var s1 := Step(s, Test);
    var s2 := Step(s1, PollReturns(t.wakeUp));
    HandlersGoThrough(s2, t);
    assert [] + ([PollReturns(t.wakeUp)] + HandlerEvents(t)) == [PollReturns(t.wakeUp)] + HandlerEvents(t);
    RunOfOne(s1, PollReturns(t.wakeUp), HandlerEvents(t));
    RunOfOne(s, Test, [PollReturns(t.wakeUp)] + HandlerEvents(t));
  }

  lemma HandlersGoThrough(s: State, t: Turn)
    requires s.own.NoCall? && s.pc == Handling(t.wakeUp) && (!t.wakeUp ==> s.eventfd == 0)
    requires t.handlers == [] && t.moreHandlers == [] && t.functors == Undisturbed(|s.pending|)
    ensures IsRun(s, HandlerEvents(t))
    ensures var r := After(s, HandlerEvents(t));
      r.pc.Testing? && r.executed == s.executed + s.pending && r.eventfd == 0
  {
    var last := [EndHandlers] + PendingEvents(t.functors);
    var s1 := if t.wakeUp then Step(s, Drain) else s;
    PendingGoesThrough(s1, t.functors);
    assert [] + last == last;
    if t.wakeUp {
      RunOfOne(s, Drain, last);
      assert HandlerEvents(t) == [Drain] + last;
    } else {
      assert HandlerEvents(t) == last;
    }
  }

  lemma PendingGoesThrough(s: State, functors: seq<seq<Event>>)
    requires s.own.NoCall? && s.pc == Handling(false) && s.eventfd == 0 && functors == Undisturbed(|s.pending|)
    ensures IsRun(s, [EndHandlers] + PendingEvents(functors))
    ensures var r := After(s, [EndHandlers] + PendingEvents(functors));
      r.pc.Testing? && r.executed == s.executed + s.pending && r.eventfd == 0
  {
    var s1 := Step(s, EndHandlers);
    var s2 := Step(s1, StartCalling);
    BatchGoesThrough(Step(s2, Swap), |s.pending|);
    RunOfOne(s2, Swap, FunctorEvents(functors));
    RunOfOne(s1, StartCalling, [Swap] + FunctorEvents(functors));
    RunOfOne(s, EndHandlers, PendingEvents(functors));
  }
}
