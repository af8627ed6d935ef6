/** `addTimer` reads the sequence of its timer after handing it to the loop: when the timer is still there. */
module TimerReads {
  import opened Timestamps
  import opened Timers
  import opened TimerRuns
  import opened TimerGuarantees
  import opened TimerCancel

  /** A timer does not change its address; it is freed only after its callback or by a cancel. */
  lemma {:induction false} StaysUntilFreed(s: State, es: seq<Event>, p: Ptr, b: nat)
    requires Inv(s) && History(s) && IsRun(s, es) && b in s.created && (BornAt(s, p, b) || Gone(s, b))
    ensures var r := After(s, es);
      && (BornAt(r, p, b) <==> !Gone(r, b))
      && (Gone(r, b) ==> Fired(r.log, b) || b in r.dropped)
    decreases |es|
  {
    if es != [] {
      var s1 := Step(s, es[0]);
      StepKeepsInv(s, es[0]);
      StepKeepsHistory(s, es[0]);
      BirthsStay(s, es[0]);
      CreatedStays(s, es[0], b);
      if BornAt(s, p, b) { BornOrGone(s, es[0], IdOf(s.core, p), b); } else { assert Gone(s1, b); }
      StaysUntilFreed(s1, es[1..], p, b);
    }
  }

  lemma CreatedStays(s: State, e: Event, b: nat)
    requires Inv(s) && Enabled(s, e) && b in s.created
    ensures b in Step(s, e).created
  {
  }

  // --- a repeating timer nobody can name stays ------------------------------------------------

  /** No cancel of the id is queued, and none was noted for the present batch. */
  ghost predicate Unnamed(s: State, id: TimerId) {
    CancelIn(id) !in s.functors && id !in s.core.canceling
  }

  predicate NoneNames(es: seq<Event>, id: TimerId) {
    forall i :: 0 <= i < |es| ==> !(es[i].Cancel? && es[i].id == id)
  }

  ghost predicate Stays(s: State, p: Ptr, b: nat) {
    BornAt(s, p, b) && s.core.heap[p].Repeats() && Unnamed(s, IdOf(s.core, p))
  }

  lemma StaysAtEnd(s: State, p: Ptr, b: nat)
    requires Inv(s) && Enabled(s, EndRead) && Stays(s, p, b)
    ensures Stays(Step(s, EndRead), p, b)
  {
    SettledHeap(s);
    if InBatch(s, p) { Rescheduling(s, p); }
  }

  lemma StaysOnCancel(s: State, id: TimerId, p: Ptr, b: nat)
    requires Inv(s) && Stays(s, p, b) && id != IdOf(s.core, p)
    ensures Stays(Cancelled(s, id), p, b)
  {
    assert id in s.core.active ==> id == IdOf(s.core, id.ptr);
  }

  lemma StaysOnFunctor(s: State, p: Ptr, b: nat)
    requires Inv(s) && Enabled(s, RunFunctor) && Stays(s, p, b)
    ensures Stays(Step(s, RunFunctor), p, b)
  {
    FunctorTarget(s);
    var s1 := s.(functors := s.functors[1..]);
    assert s.functors == [s.functors[0]] + s1.functors;
    match s.functors[0]
    case AddIn(_) =>
    case CancelIn(id) =>
      assert id != IdOf(s.core, p);
      assert id in s.core.active ==> id == IdOf(s.core, id.ptr);
  }

  lemma StaysStep(s: State, e: Event, p: Ptr, b: nat)
    requires Inv(s) && Enabled(s, e) && Stays(s, p, b) && !(e.Cancel? && e.id == IdOf(s.core, p))
    ensures Stays(Step(s, e), p, b) && IdOf(Step(s, e).core, p) == IdOf(s.core, p)
  {
    match e
    case EndRead => StaysAtEnd(s, p, b);
    case RunFunctor => StaysOnFunctor(s, p, b);
    case Cancel(id, inLoop) => if inLoop { StaysOnCancel(s, id, p, b); }
    case _ =>
  }

  lemma {:induction false} StaysThroughout(s: State, es: seq<Event>, p: Ptr, b: nat)
    requires Inv(s) && IsRun(s, es) && Stays(s, p, b) && NoneNames(es, IdOf(s.core, p))
    ensures BornAt(After(s, es), p, b)
    decreases |es|
  {
    if es != [] {
      StepKeepsInv(s, es[0]);
      StaysStep(s, es[0], p, b);
      StaysThroughout(Step(s, es[0]), es[1..], p, b);
    }
  }

  // --- a one-shot timer can go ----------------------------------------------------------------

  ghost predicate OneShot(s: State, p: Ptr, b: nat) {
    BornAt(s, p, b) && !s.core.heap[p].Repeats()
  }

  /** By then the timer is due and, unless an earlier one has made it so before, the alarm is readable. */
  function ReadableFrom(s: State, p: Ptr): Timestamp
    requires p in s.core.heap
  {
    var when := s.core.heap[p].expiration;
    if when < s.core.armedAt + MIN_DELAY then s.core.armedAt + MIN_DELAY else when
  }

  /** How far the loop is from freeing the timer: its batch, its time, the queue, another batch. */
  ghost function Distance(s: State, p: Ptr): nat {
    if InBatch(s, p) then 0
    else if s.phase.Calling? then 4
    else if s.functors != [] then 3
    else if p in s.core.heap && ReadableFrom(s, p) > s.clock then 2
    else 1
  }

  function Left(s: State): int {
    if s.phase.Calling? then |s.phase.batch| - s.phase.next else |s.functors|
  }

  /** The step brings the timer nearer to its end, or is its end. */
  ghost predicate Advances(s: State, e: Event, p: Ptr, b: nat)
    requires Inv(s)
  {
    && Enabled(s, e) && !e.Cancel? && (e.BeginRead? ==> s.core.alarm.Readable(s.clock))
    && var s' := Step(s, e);
       || Gone(s', b)
       || (OneShot(s', p, b)
           && (Distance(s', p) < Distance(s, p)
               || (Distance(s', p) == Distance(s, p) && 0 <= Left(s') < Left(s))))
  }

  lemma CallAdvances(s: State, p: Ptr, b: nat)
    requires Inv(s) && OneShot(s, p, b) && Enabled(s, RunCallback)
    ensures Advances(s, RunCallback, p, b)
  {
    assert InBatch(Step(s, RunCallback), p) <==> InBatch(s, p);
  }

  lemma EndFrees(s: State, p: Ptr, b: nat)
    requires Inv(s) && OneShot(s, p, b) && Enabled(s, EndRead) && InBatch(s, p)
    ensures Gone(Step(s, EndRead), b)
  {
    var s' := Step(s, EndRead);
    SettledHeap(s);
    Rescheduling(s, p);
    forall q | q in s'.core.heap ensures s'.core.heap[q].birth != b {
      assert s.core.heap[q].birth == b ==> q == p;
    }
  }

  lemma EndSpares(s: State, p: Ptr, b: nat)
    requires Inv(s) && OneShot(s, p, b) && Enabled(s, EndRead) && !InBatch(s, p)
    ensures OneShot(Step(s, EndRead), p, b)
  {
    SettledHeap(s);
  }

  lemma EndAdvances(s: State, p: Ptr, b: nat)
    requires Inv(s) && OneShot(s, p, b) && Enabled(s, EndRead)
    ensures Advances(s, EndRead, p, b)
  {
    if InBatch(s, p) { EndFrees(s, p, b); } else { EndSpares(s, p, b); }
  }

  lemma FunctorAdvances(s: State, p: Ptr, b: nat)
    requires Inv(s) && OneShot(s, p, b) && Enabled(s, RunFunctor)
    ensures Advances(s, RunFunctor, p, b)
  {
    FunctorTarget(s);
    BornOrGone(s, RunFunctor, IdOf(s.core, p), b);
  }

  lemma ReadAdvances(s: State, p: Ptr, b: nat, batch: seq<Entry>)
    requires Inv(s) && OneShot(s, p, b) && Enabled(s, BeginRead(batch))
    requires s.functors == [] && ReadableFrom(s, p) <= s.clock
    ensures Advances(s, BeginRead(batch), p, b)
  {
    assert !Pending(s, p) && !InBatch(s, p) && Live(s.core, p);
    assert Covered(s.core, EntryOf(s.core, p).when);
    assert EntryOf(s.core, p) in Expired(s.core, s.clock);
    var i :| 0 <= i < |batch| && batch[i] == EntryOf(s.core, p);
    assert InBatch(Step(s, BeginRead(batch)), p);
  }

  lemma Next(s: State, p: Ptr, b: nat) returns (e: Event)
    requires Inv(s) && OneShot(s, p, b)
    ensures Advances(s, e, p, b)
  {
    if s.phase.Calling? {
      if s.phase.next < |s.phase.batch| {
        e := RunCallback;
        CallAdvances(s, p, b);
      } else {
        e := EndRead;
        EndAdvances(s, p, b);
      }
    } else if s.functors != [] {
      e := RunFunctor;
      FunctorAdvances(s, p, b);
    } else if ReadableFrom(s, p) > s.clock {
      e := Tick(ReadableFrom(s, p) - s.clock);
    } else {
      var batch := BatchExists(Expired(s.core, s.clock));
      e := BeginRead(batch);
      ReadAdvances(s, p, b, batch);
    }
  }

  /** The read handler begins only when the alarm is readable. */
  ghost predicate Prompted(s: State, es: seq<Event>)
    requires Inv(s) && IsRun(s, es)
    decreases |es|
  {
    es == [] || ((es[0].BeginRead? ==> s.core.alarm.Readable(s.clock))
                 && (StepKeepsInv(s, es[0]); Prompted(Step(s, es[0]), es[1..])))
  }

  /** The loop, left to itself, runs and frees a timer that does not repeat. */
  lemma {:induction false} OneShotGoes(s: State, p: Ptr, b: nat) returns (es: seq<Event>)
    requires Inv(s) && OneShot(s, p, b)
    ensures IsRun(s, es) && Prompted(s, es) && Gone(After(s, es), b)
    ensures forall i :: 0 <= i < |es| ==> !es[i].Cancel?
    decreases Distance(s, p), Left(s)
  {
    var e := Next(s, p, b);
    var s1 := Step(s, e);
    StepKeepsInv(s, e);
    var rest: seq<Event> := [];
    if !Gone(s1, b) { rest := OneShotGoes(s1, p, b); }
    es := [e] + rest;
    RunOfOne(s, e, rest);
    assert es[1..] == rest;
  }

  // --- when the read is safe ------------------------------------------------------------------

  /**
    Nobody can name a new timer before its sequence has been read.  On the loop's thread the read comes
    before anything else.  On another thread it finds the timer, whatever happens first, if and only if
    the timer repeats: that is the argument of `runEvery` and not of `runAt` or `runAfter`.  A run that
    frees another begins the read handler only when the alarm is readable.
   */
  lemma ReadIsSafe(s: State, p: Ptr, when: Timestamp, interval: real, b: nat)
    requires Inv(s) && p !in s.core.heap && b !in s.created && Unnamed(s, TimerId(p, Int32(b)))
    ensures BornAt(Step(s, New(p, when, interval, true, b)), p, b)
    ensures var s1 := Step(s, New(p, when, interval, false, b));
      && Inv(s1)
      && (interval > 0.0 ==>
            forall es :: IsRun(s1, es) && NoneNames(es, TimerId(p, Int32(b))) ==> BornAt(After(s1, es), p, b))
      && ((forall es :: IsRun(s1, es) && Prompted(s1, es) && NoneNames(es, TimerId(p, Int32(b))) ==>
             BornAt(After(s1, es), p, b))
          <==> interval > 0.0)
  {
    var e := New(p, when, interval, false, b);
    NewIsPending(s, e);
    var s1, id := Step(s, e), TimerId(p, Int32(b));
    assert BornAt(s1, p, b) && IdOf(s1.core, p) == id;
    if interval > 0.0 {
      assert Stays(s1, p, b);
      forall es | IsRun(s1, es) && NoneNames(es, id) ensures BornAt(After(s1, es), p, b) {
        StaysThroughout(s1, es, p, b);
      }
    } else {
      var es := OneShotGoes(s1, p, b);
      assert NoneNames(es, id) && Prompted(s1, es) && !BornAt(After(s1, es), p, b);
    }
  }

  /** It happens: another thread adds a one-shot timer, and by the time it reads, the loop has run and freed it. */
  lemma SequenceReadDangles()
    ensures var es := [New(1, 1, 0.0, false, 0), RunFunctor, Tick(100), BeginRead([Entry(1, 1)]), RunCallback, EndRead];
      IsRun(Init(1), es) && 1 !in After(Init(1), es).core.heap
  {
    AddedAndFreed();
    assert [New(1, 1, 0.0, false, 0), RunFunctor, Tick(100)] + [BeginRead([Entry(1, 1)]), RunCallback, EndRead]
        == [New(1, 1, 0.0, false, 0), RunFunctor, Tick(100), BeginRead([Entry(1, 1)]), RunCallback, EndRead];
  }

  lemma AddedAndFreed()
    ensures var es :=
        [New(1, 1, 0.0, false, 0), RunFunctor, Tick(100)] + [BeginRead([Entry(1, 1)]), RunCallback, EndRead];
      IsRun(Init(1), es) && 1 !in After(Init(1), es).core.heap
  {
    OneShotIsAdded();
    var s := After(Init(1), [New(1, 1, 0.0, false, 0), RunFunctor, Tick(100)]);
    OneShotIsFreed(s);
    RunsConcatenate(Init(1), [New(1, 1, 0.0, false, 0), RunFunctor, Tick(100)],
      [BeginRead([Entry(1, 1)]), RunCallback, EndRead]);
  }

  lemma OneShotIsAdded()
    ensures var es := [New(1, 1, 0.0, false, 0), RunFunctor, Tick(100)];
      && IsRun(Init(1), es)
      && var s := After(Init(1), es);
         && s.phase.Idle? && s.clock == 101
         && s.core.heap == map[1 := Timer(1, 0.0, 0)] && s.core.timers == {Entry(1, 1)}
  {
    var e0 := New(1, 1, 0.0, false, 0);
    NewIsPending(Init(1), e0);
    var s1 := Step(Init(1), e0);
    PendingIsAdded(s1, 1);
    var s2 := Step(s1, RunFunctor);
    assert s2.core.heap == map[1 := Timer(1, 0.0, 0)] && s2.core.timers == {Entry(1, 1)};
    assert Step(s2, Tick(100)) == s2.(clock := 101);
    RunOfThree(Init(1), e0, RunFunctor, Tick(100));
  }

  lemma OneShotIsFreed(s: State)
    requires Inv(s) && s.phase.Idle? && s.clock >= 1
    requires s.core.heap == map[1 := Timer(1, 0.0, 0)] && s.core.timers == {Entry(1, 1)}
    ensures var es := [BeginRead([Entry(1, 1)]), RunCallback, EndRead];
      IsRun(s, es) && 1 !in After(s, es).core.heap
  {
    var batch := [Entry(1, 1)];
    assert IsBatch(s.core, s.clock, batch);
    var s1 := Step(s, BeginRead(batch));
    StepKeepsInv(s, BeginRead(batch));
    var s2 := Step(s1, RunCallback);
    StepKeepsInv(s1, RunCallback);
    RunOfThree(s, BeginRead(batch), RunCallback, EndRead);
    assert s2.phase.batch[0].ptr == 1 && InBatch(s2, 1);
    Rescheduling(s2, 1);
  }
}
