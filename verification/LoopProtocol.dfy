/**
  The task queue and wakeup protocol of an event loop, one atomic action a step: the loop thread goes
  through poll, handlers, swap and batch, and may queue tasks to itself; any number of other threads
  push a task or set the quit flag, and then write to the event descriptor.
 */
module LoopProtocol {
  type Task = nat
  type Tid = nat

  /** An event descriptor counts up to one less than 2^64 - 1; a write that would pass that changes nothing. */
  const COUNTER_MAX := 0xFFFF_FFFF_FFFF_FFFE

  datatype LoopPc =
    | Outside                        // `loop()` has not been called
    | Entered                        // about to clear `m_quit`
    | Testing                        // at `while (!m_quit)`
    | Polling                        // in `poll`
    | Handling(wakeUp: bool)         // calling the active channels; is the wakeup channel among those left?
    | Handled                        // about to set `m_callingPendingFunctors`
    | Swapping                       // about to swap the queue
    | Running(left: seq<Task>)       // calling the batch
    | Left                           // `loop()` has returned

  /** How far the loop thread is in a `queueInLoop` of its own. */
  datatype OwnCall = NoCall | OwnPushed | OwnWaking

  /**
    `pushed`, `executed`, `swaps`, `mark`, `early` and `poked` are history: all tasks pushed and all
    called, the number of swaps, the number of tasks pushed before the last one, and whether before
    the first one the loop thread pushed outside `loop()`, or another thread pushed or quit.
   */
  datatype State = State(
    pc: LoopPc,
    own: OwnCall,
    calling: bool,
    quit: bool,
    eventfd: nat,
    pending: seq<Task>,
    owing: set<Tid>,                 // threads that have pushed or quit and not written yet
    pushed: seq<Task>,
    executed: seq<Task>,
    swaps: nat,
    mark: nat,
    early: bool,
    poked: bool)

  datatype Event =
    | Push(tid: Tid, task: Task)
    | SetQuit(tid: Tid)
    | Wake(tid: Tid)
    | Enter
    | ClearQuit
    | Test
    | PollReturns(wakeUp: bool)      // `wakeUp`: the wakeup channel is in the active list
    | Drain
    | EndHandlers
    | StartCalling
    | Swap
    | RunTask
    | EndBatch
    | OwnPush(task: Task)
    | OwnTest
    | OwnWake
    | OwnQuit

  const INIT := State(Outside, NoCall, false, false, 0, [], {}, [], [], 0, 0, false, false)

  function Written(counter: nat): nat {
    if counter < COUNTER_MAX then counter + 1 else counter
  }

  /** The loop thread is in code of its user: outside the loop, in a handler or in a task. */
  predicate InUserCode(s: State) {
    s.pc.Outside? || s.pc.Handling? || s.pc.Running?
  }

  /** `poll` may always return without the wakeup channel: for other channels, an error or the timeout. */
  predicate Enabled(s: State, e: Event) {
    match e
    case Push(tid, _) => tid !in s.owing
    case SetQuit(tid) => tid !in s.owing
    case Wake(tid) => tid in s.owing
    case Enter => s.pc.Outside? && s.own.NoCall?
    case ClearQuit => s.pc.Entered?
    case Test => s.pc.Testing?
    case PollReturns(wakeUp) => s.pc.Polling? && (wakeUp ==> s.eventfd > 0)
    case Drain => s.pc.Handling? && s.pc.wakeUp && s.own.NoCall?
    case EndHandlers => s.pc.Handling? && !s.pc.wakeUp && s.own.NoCall?
    case StartCalling => s.pc.Handled?
    case Swap => s.pc.Swapping?
    case RunTask => s.pc.Running? && s.pc.left != [] && s.own.NoCall?
    case EndBatch => s.pc.Running? && s.pc.left == [] && s.own.NoCall?
    case OwnPush(_) => InUserCode(s) && s.own.NoCall?
    case OwnTest => s.own.OwnPushed?
    case OwnWake => s.own.OwnWaking?
    case OwnQuit => InUserCode(s) && s.own.NoCall?
  }

  function Step(s: State, e: Event): State
    requires Enabled(s, e)
  {
    match e
    case Push(tid, task) =>
      s.(pending := s.pending + [task], pushed := s.pushed + [task],
         owing := s.owing + {tid}, poked := s.poked || s.swaps == 0)
    case SetQuit(tid) => s.(quit := true, owing := s.owing + {tid}, poked := s.poked || s.swaps == 0)
    case Wake(tid) => s.(eventfd := Written(s.eventfd), owing := s.owing - {tid})
    case Enter => s.(pc := Entered)
    case ClearQuit => s.(pc := Testing, quit := false)
    case Test => s.(pc := if s.quit then Left else Polling)
    case PollReturns(wakeUp) => s.(pc := Handling(wakeUp))
    case Drain => s.(pc := Handling(false), eventfd := 0)
    case EndHandlers => s.(pc := Handled)
    case StartCalling => s.(pc := Swapping, calling := true)
    case Swap => s.(pc := Running(s.pending), pending := [], swaps := s.swaps + 1, mark := |s.pushed|)
    case RunTask => s.(pc := Running(s.pc.left[1..]), executed := s.executed + [s.pc.left[0]])
    case EndBatch => s.(pc := Testing, calling := false)
    case OwnPush(task) =>
      s.(pending := s.pending + [task], pushed := s.pushed + [task],
         own := OwnPushed, early := s.early || s.pc.Outside?)
    case OwnTest => s.(own := if s.calling then OwnWaking else NoCall)
    case OwnWake => s.(own := NoCall, eventfd := Written(s.eventfd))
    case OwnQuit => s.(quit := true)
  }

  // --- what every step keeps ------------------------------------------------------------------

  /** The tasks of the batch that have not been called. */
  function Rest(s: State): seq<Task> {
    if s.pc.Running? then s.pc.left else []
  }

  /** Nothing is lost, doubled or reordered; and what was swapped is what had been pushed by then. */
  predicate Fifo(s: State) {
    && s.executed + Rest(s) + s.pending == s.pushed
    && |s.executed + Rest(s)| == s.mark
  }

  predicate Phases(s: State) {
    && (s.calling <==> s.pc.Swapping? || s.pc.Running?)
    && (s.own.NoCall? || InUserCode(s))
    && (s.own.OwnWaking? ==> s.pc.Running?)
    && (s.own.OwnPushed? && s.pc.Outside? ==> s.early)
    && (s.pc.Outside? || s.pc.Entered? ==> s.swaps == 0)
    && (s.pc.Running? ==> s.swaps > 0)
    && (s.pc.Left? ==> s.quit)
  }

  /** The next poll cannot go on sleeping: the descriptor is readable, or somebody is about to write. */
  predicate Woken(s: State) {
    s.eventfd > 0 || s.owing != {}
  }

  /** The queue has been, or will be, swapped before the loop sleeps. */
  predicate SwapAhead(s: State) {
    s.pc.Handling? || s.pc.Handled? || s.pc.Swapping?
  }

  predicate NoWakeupLost(s: State) {
    && (s.pending != [] && !SwapAhead(s) && s.own.NoCall? ==> Woken(s) || (s.early && s.swaps == 0))
    && (s.pc.Polling? && s.quit ==> Woken(s))
  }

  /** Up to the first swap: who has touched the queue, and what can be seen of it. */
  predicate FirstRound(s: State) {
    && (s.swaps == 0 && !SwapAhead(s) ==> (s.poked <==> Woken(s)))
    && (s.early && s.swaps == 0 ==> s.pending != [])
  }

  predicate Inv(s: State) {
    Fifo(s) && Phases(s) && NoWakeupLost(s) && FirstRound(s)
  }

  lemma StepKeepsInv(s: State, e: Event)
    requires Inv(s) && Enabled(s, e)
    ensures Inv(Step(s, e))
  {
    StepKeepsFifo(s, e);
    var s' := Step(s, e);
    match e
    case Push(tid, _) => assert tid in s'.owing;
    case SetQuit(tid) => assert tid in s'.owing;
    case _ =>
  }

  lemma StepKeepsFifo(s: State, e: Event)
    requires Fifo(s) && Phases(s) && Enabled(s, e)
    ensures Fifo(Step(s, e))
  {
    match e
    case Push(_, task) => assert s.executed + Rest(s) + (s.pending + [task]) == s.pushed + [task];
    case OwnPush(task) => assert s.executed + Rest(s) + (s.pending + [task]) == s.pushed + [task];
    case Swap => assert s.executed + [] + s.pending == s.executed + s.pending + [];
    case RunTask =>
      assert s.pc.left == [s.pc.left[0]] + s.pc.left[1..];
      assert s.executed + s.pc.left == (s.executed + [s.pc.left[0]]) + s.pc.left[1..];
    case EndBatch => assert s.executed + s.pc.left == s.executed + [];
    case _ =>
  }

  // --- runs -----------------------------------------------------------------------------------

  predicate IsRun(s: State, es: seq<Event>)
    decreases |es|
  {
    es == [] || (Enabled(s, es[0]) && IsRun(Step(s, es[0]), es[1..]))
  }

  function After(s: State, es: seq<Event>): State
    requires IsRun(s, es)
    decreases |es|
  {
    if es == [] then s else After(Step(s, es[0]), es[1..])
  }

  lemma {:induction false} RunKeepsInv(s: State, es: seq<Event>)
    requires Inv(s) && IsRun(s, es)
    ensures Inv(After(s, es))
    decreases |es|
  {
    if es != [] {
      StepKeepsInv(s, es[0]);
      RunKeepsInv(Step(s, es[0]), es[1..]);
    }
  }

  // --- no wakeup is lost ----------------------------------------------------------------------

  /** In `poll` with work to do, and nothing on its way to end the sleep. */
  predicate Stuck(s: State) {
    s.pc.Polling? && (s.pending != [] || s.quit) && !Woken(s)
  }

  /**
    In every interleaving the loop sleeps on work in one case only: before its first swap, when the
    loop thread itself queued a task before it called `loop()`, and no other thread has pushed or quit.
   */
  lemma NoLostWakeup(es: seq<Event>)
    requires IsRun(INIT, es)
    ensures var s := After(INIT, es);
      Stuck(s) <==> s.pc.Polling? && s.swaps == 0 && s.early && !s.poked
  {
    RunKeepsInv(INIT, es);
  }

  /** When it is not stuck, the sleep ends: at once, or after the write of a thread that owes one. */
  lemma WakeupIsDelivered(es: seq<Event>)
    requires IsRun(INIT, es)
    requires var s := After(INIT, es); s.pc.Polling? && (s.pending != [] || s.quit) && !Stuck(s)
    ensures var s := After(INIT, es);
      || Enabled(s, PollReturns(true))
      || exists tid :: Enabled(s, Wake(tid)) && Enabled(Step(s, Wake(tid)), PollReturns(true))
  {
    var s := After(INIT, es);
    if s.eventfd == 0 {
      var tid :| tid in s.owing;
      assert Enabled(s, Wake(tid)) && Enabled(Step(s, Wake(tid)), PollReturns(true));
    }
  }

  /** The one case happens: the loop thread queues a task, then enters the loop, and sleeps on it. */
  lemma EarlyPushSleeps()
    ensures var es := [OwnPush(7), OwnTest, Enter, ClearQuit, Test];
      IsRun(INIT, es) && Stuck(After(INIT, es))
  {
    var s1 := Step(INIT, OwnPush(7));
    var s2 := Step(s1, OwnTest);
    var s3 := Step(s2, Enter);
    var s4 := Step(s3, ClearQuit);
    RunOfFive(INIT, OwnPush(7), OwnTest, Enter, ClearQuit, Test);
    assert Step(s4, Test).pending == [7];
  }

  /** A `quit` issued before `loop()` clears the flag is forgotten: the loop polls, and the flag is down. */
  lemma EarlyQuitIsForgotten()
    ensures var es := [SetQuit(1), Wake(1), Enter, ClearQuit, Test];
      IsRun(INIT, es) && After(INIT, es).pc.Polling? && !After(INIT, es).quit
  {
    RunOfFive(INIT, SetQuit(1), Wake(1), Enter, ClearQuit, Test);
  }

  lemma RunOfFive(s: State, a: Event, b: Event, c: Event, d: Event, e: Event)
    requires Enabled(s, a) && Enabled(Step(s, a), b) && Enabled(Step(Step(s, a), b), c)
    requires Enabled(Step(Step(Step(s, a), b), c), d)
    requires Enabled(Step(Step(Step(Step(s, a), b), c), d), e)
    ensures IsRun(s, [a, b, c, d, e])
    ensures After(s, [a, b, c, d, e]) == Step(Step(Step(Step(Step(s, a), b), c), d), e)
  {
    var s1 := Step(s, a);
    var s2 := Step(s1, b);
    var s3 := Step(s2, c);
    var s4 := Step(s3, d);
    var s5 := Step(s4, e);
    assert IsRun(s5, []) && After(s5, []) == s5;
    assert [e][1..] == [] && IsRun(s4, [e]) && After(s4, [e]) == s5;
    assert [d, e][1..] == [e] && IsRun(s3, [d, e]) && After(s3, [d, e]) == s5;
    assert [c, d, e][1..] == [d, e] && IsRun(s2, [c, d, e]) && After(s2, [c, d, e]) == s5;
    assert [b, c, d, e][1..] == [c, d, e] && IsRun(s1, [b, c, d, e]) && After(s1, [b, c, d, e]) == s5;
    assert [a, b, c, d, e][1..] == [b, c, d, e];
  }

  predicate IsQuit(e: Event) {
    e.SetQuit? || e.OwnQuit?
  }

  /** `loop()` has cleared the flag. */
  predicate Cleared(s: State) {
    !s.pc.Outside? && !s.pc.Entered?
  }

  /** Once `loop()` has cleared the flag nothing clears it again, and a test that finds it up is the last. */
  lemma {:induction false} QuitStaysUp(s: State, es: seq<Event>)
    requires Cleared(s) && s.quit && IsRun(s, es)
    ensures var r := After(s, es);
      Cleared(r) && r.quit && (s.pc.Left? || Test in es ==> r.pc.Left?) && (r.pc.Polling? ==> s.pc.Polling?)
    decreases |es|
  {
    if es != [] {
      assert es == [es[0]] + es[1..];
      QuitStaysUp(Step(s, es[0]), es[1..]);
    }
  }

  /**
    A `quit` is honoured exactly if `loop()` has already cleared the flag when it is called.  Honoured:
    whatever follows, the next test of the flag is the last, and no later poll begins.
   */
  lemma QuitIsHonoured(es: seq<Event>, e: Event)
    requires IsRun(INIT, es) && Enabled(After(INIT, es), e) && IsQuit(e)
    ensures var s := Step(After(INIT, es), e);
      Cleared(s) <==> forall later :: IsRun(s, later) && Test in later ==> After(s, later).pc.Left?
  {
    RunKeepsInv(INIT, es);
    var s := Step(After(INIT, es), e);
    if Cleared(s) {
      forall later | IsRun(s, later) && Test in later ensures After(s, later).pc.Left? {
        QuitStaysUp(s, later);
      }
    } else {
      QuitIsCleared(s);
    }
  }

  /** Otherwise the loop may go on to poll: it enters, if it has not, clears the flag and tests it. */
  lemma QuitIsCleared(s: State)
    requires Phases(s) && !Cleared(s)
    ensures exists later :: IsRun(s, later) && Test in later && After(s, later).pc.Polling?
    decreases if s.pc.Entered? then 0 else if s.own.NoCall? then 1 else 2
  {
    if s.pc.Entered? {
      var s1 := Step(s, ClearQuit);
      assert IsRun(Step(s1, Test), []) && After(Step(s1, Test), []).pc.Polling?;
      Preceded(s1, Test, []);
      Preceded(s, ClearQuit, [Test] + []);
    } else {
      var e := if s.own.NoCall? then Enter else OwnTest;
      QuitIsCleared(Step(s, e));
      var later :| IsRun(Step(s, e), later) && Test in later && After(Step(s, e), later).pc.Polling?;
      Preceded(s, e, later);
    }
  }

  lemma Preceded(s: State, e: Event, later: seq<Event>)
    requires Enabled(s, e) && IsRun(Step(s, e), later)
    ensures IsRun(s, [e] + later) && After(s, [e] + later) == After(Step(s, e), later)
  {
    assert ([e] + later)[1..] == later;
  }

  /** In every run the flag is up, as it is whenever the loop has left, exactly by a `quit` no clearing has followed. */
  lemma LeavesOnlyByQuit(es: seq<Event>)
    requires IsRun(INIT, es)
    ensures After(INIT, es).pc.Left? ==> After(INIT, es).quit
    ensures After(INIT, es).quit <==> exists i :: 0 <= i < |es| && IsQuit(es[i]) && ClearQuit !in es[i..]
  {
    RunKeepsInv(INIT, es);
    FlagIsExplained(INIT, es);
  }

  lemma {:induction false} FlagIsExplained(s: State, es: seq<Event>)
    requires IsRun(s, es)
    ensures After(s, es).quit <==>
      (s.quit && ClearQuit !in es) || exists i :: 0 <= i < |es| && IsQuit(es[i]) && ClearQuit !in es[i..]
    decreases |es|
  {
    if es != [] {
      var rest := es[1..];
      FlagIsExplained(Step(s, es[0]), rest);
      assert es == [es[0]] + rest && es[0..] == es;
      if i :| 0 <= i < |rest| && IsQuit(rest[i]) && ClearQuit !in rest[i..] {
        assert es[i + 1..] == rest[i..] && IsQuit(es[i + 1]);
      }
      if i :| 0 <= i < |es| && IsQuit(es[i]) && ClearQuit !in es[i..] && i > 0 {
        assert rest[i - 1..] == es[i..] && IsQuit(rest[i - 1]);
      }
    }
  }

  // --- the descriptor -------------------------------------------------------------------------

  predicate IsWrite(e: Event) {
    e.Wake? || e.OwnWake?
  }

  /** Some write has not been followed by a draining. */
  ghost predicate Undrained(es: seq<Event>) {
    exists i :: 0 <= i < |es| && IsWrite(es[i]) && Drain !in es[i..]
  }

  lemma UndrainedFrom(e: Event, rest: seq<Event>)
    ensures Undrained([e] + rest) <==> Undrained(rest) || (IsWrite(e) && Drain !in rest)
  {
    var es := [e] + rest;
    assert es[0..] == es;
    if i :| 0 <= i < |rest| && IsWrite(rest[i]) && Drain !in rest[i..] {
      assert es[i + 1..] == rest[i..] && IsWrite(es[i + 1]);
    }
    if i :| 0 <= i < |es| && IsWrite(es[i]) && Drain !in es[i..] && i > 0 {
      assert rest[i - 1..] == es[i..] && IsWrite(rest[i - 1]);
    }
  }

  /**
    At the end of any run the descriptor is readable exactly by a write that no draining has followed, or
    by what it held at the start: a poll does not return at once for a wakeup handled before.
   */
  lemma {:induction false} DescriptorIsExplained(s: State, es: seq<Event>)
    requires IsRun(s, es)
    ensures After(s, es).eventfd > 0 <==> (s.eventfd > 0 && Drain !in es) || Undrained(es)
    decreases |es|
  {
    if es != [] {
      assert es == [es[0]] + es[1..];
      UndrainedFrom(es[0], es[1..]);
      DescriptorIsExplained(Step(s, es[0]), es[1..]);
    }
  }

  function Writes(es: seq<Event>): nat {
    if es == [] then 0 else (if IsWrite(es[0]) then 1 else 0) + Writes(es[1..])
  }

  /** From one draining to the next the counter counts the writes, as far as it goes. */
  lemma {:induction false} WritesAddUp(s: State, es: seq<Event>)
    requires IsRun(s, es) && Drain !in es && s.eventfd <= COUNTER_MAX
    ensures var n := s.eventfd + Writes(es);
      After(s, es).eventfd == if n <= COUNTER_MAX then n else COUNTER_MAX
    decreases |es|
  {
    if es != [] {
      assert es == [es[0]] + es[1..];
      WritesAddUp(Step(s, es[0]), es[1..]);
    }
  }

  /** How often the thread has pushed or quit, less how often it has written. */
  function Owes(es: seq<Event>, tid: Tid): int {
    if es == [] then 0
    else
      (match es[0]
       case Push(t, _) => if t == tid then 1 else 0
       case SetQuit(t) => if t == tid then 1 else 0
       case Wake(t) => if t == tid then -1 else 0
       case _ => 0) + Owes(es[1..], tid)
  }

  /** Every push and every quit of another thread is followed by one write of that thread, before its next. */
  lemma {:induction false} WritesArePaid(s: State, es: seq<Event>, tid: Tid)
    requires IsRun(s, es)
    ensures (if tid in After(s, es).owing then 1 else 0) == (if tid in s.owing then 1 else 0) + Owes(es, tid)
    decreases |es|
  {
    if es != [] {
      WritesArePaid(Step(s, es[0]), es[1..], tid);
    }
  }

  /**
    When a poll has reported the wakeup channel the descriptor is drained once before the handlers end, and
    when it has not, it is not read, whatever user code and other threads do meanwhile.
   */
  lemma ReportedIsDrained(s: State, wakeUp: bool, es: seq<Event>)
    requires Enabled(s, PollReturns(wakeUp)) && IsRun(Step(s, PollReturns(wakeUp)), es) && EndHandlers !in es
    ensures var r := After(Step(s, PollReturns(wakeUp)), es);
      && multiset(es)[Drain] <= (if wakeUp then 1 else 0)
      && (Enabled(r, EndHandlers) ==> multiset(es)[Drain] == if wakeUp then 1 else 0)
  {
    HandlersDrain(Step(s, PollReturns(wakeUp)), es);
  }

  lemma {:induction false} HandlersDrain(s: State, es: seq<Event>)
    requires IsRun(s, es) && s.pc.Handling? && EndHandlers !in es
    ensures After(s, es).pc.Handling?
    ensures (if After(s, es).pc.wakeUp then 1 else 0) + multiset(es)[Drain] == if s.pc.wakeUp then 1 else 0
    decreases |es|
  {
    if es != [] {
      assert es == [es[0]] + es[1..];
      HandlersDrain(Step(s, es[0]), es[1..]);
    }
  }

  // --- exactly once, in order -----------------------------------------------------------------

  /** At every moment the tasks called, the rest of the batch and the queue are, in order, all tasks ever pushed. */
  lemma ExactlyOnceInOrder(es: seq<Event>)
    requires IsRun(INIT, es)
    ensures var s := After(INIT, es);
      && s.executed + Rest(s) + s.pending == s.pushed
      && s.mark <= |s.pushed| && s.executed + Rest(s) == s.pushed[..s.mark]
  {
    RunKeepsInv(INIT, es);
    var s := After(INIT, es);
    assert (s.executed + Rest(s) + s.pending)[..s.mark] == s.executed + Rest(s);
  }

  /** Tasks are called one at a time. */
  lemma {:induction false} OneAtATime(s: State, es: seq<Event>)
    requires IsRun(s, es)
    ensures |After(s, es).executed| == |s.executed| + multiset(es)[RunTask]
    decreases |es|
  {
    if es != [] {
      assert es == [es[0]] + es[1..];
      OneAtATime(Step(s, es[0]), es[1..]);
    }
  }

  lemma StepGrows(s: State, e: Event)
    requires Inv(s) && Enabled(s, e)
    ensures var r := Step(s, e);
      && s.pushed <= r.pushed && s.executed <= r.executed && s.swaps <= r.swaps
      && (s.swaps < r.swaps ==> r.mark >= |s.pushed|)
      && (s.swaps == r.swaps ==> r.mark == s.mark)
  {
  }

  lemma PrefixesCompose(a: seq<Task>, b: seq<Task>, c: seq<Task>)
    requires a <= b && b <= c
    ensures a <= c
  {
    assert c[..|b|] == b;
    assert forall i :: 0 <= i < |a| ==> a[i] == b[i] == c[i];
  }

  /** What has been pushed stays pushed, what has been called stays called, and only a swap changes the batch. */
  lemma {:induction false} RunGrows(s: State, es: seq<Event>)
    requires Inv(s) && IsRun(s, es)
    ensures var r := After(s, es);
      && s.pushed <= r.pushed && s.executed <= r.executed && s.swaps <= r.swaps
      && (s.swaps < r.swaps ==> r.mark >= |s.pushed|)
      && (s.swaps == r.swaps ==> r.mark == s.mark)
    decreases |es|
  {
    if es != [] {
      var s1, r := Step(s, es[0]), After(s, es);
      StepKeepsInv(s, es[0]);
      StepGrows(s, es[0]);
      RunGrows(s1, es[1..]);
      PrefixesCompose(s.pushed, s1.pushed, r.pushed);
      PrefixesCompose(s.executed, s1.executed, r.executed);
    }
  }

  /**
    A batch cannot grow while it runs: whatever is pushed in the meantime, between two moments with no
    swap between them the tasks called and the rest of the batch together stay the same.
   */
  lemma BatchIsFixed(s: State, es: seq<Event>)
    requires Inv(s) && IsRun(s, es) && After(s, es).swaps == s.swaps
    ensures After(s, es).executed + Rest(After(s, es)) == s.executed + Rest(s)
  {
    RunGrows(s, es);
    RunKeepsInv(s, es);
    var r := After(s, es);
    assert (s.executed + Rest(s) + s.pending)[..s.mark] == s.executed + Rest(s);
    assert (r.executed + Rest(r) + r.pending)[..r.mark] == r.executed + Rest(r);
  }

  /** One turn delivers: everything pushed by some moment has been called once a later swap's batch is done. */
  lemma OneTurnDelivers(s: State, es: seq<Event>)
    requires Inv(s) && IsRun(s, es)
    requires After(s, es).swaps > s.swaps && !After(s, es).pc.Running?
    ensures s.pushed <= After(s, es).executed
  {
    RunGrows(s, es);
    RunKeepsInv(s, es);
    var r := After(s, es);
    assert (r.executed + Rest(r) + r.pending)[..r.mark] == r.executed + Rest(r) == r.executed;
    assert r.pushed[..|s.pushed|] == s.pushed;
  }
}
