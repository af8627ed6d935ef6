/** What cancelling a timer achieves: exactly when it takes effect, and on which timer. */
module TimerCancel {
  import opened Timestamps
  import opened Timers
  import opened TimerRuns
  import opened TimerGuarantees

  /** The timer is freed, or a cancel has caught it in the batch, so that `reset` will free it. */
  ghost predicate Doomed(s: State, b: nat) {
    Gone(s, b) || exists p :: Caught(s, p, b)
  }

  ghost predicate Caught(s: State, p: Ptr, b: nat) {
    p in s.core.heap && s.core.heap[p].birth == b && InBatch(s, p) && IdOf(s.core, p) in s.core.canceling
  }

  /** The timer waits in the batch for its call. */
  ghost predicate StillToRun(s: State, b: nat) {
    s.phase.Calling? && exists i :: s.phase.next <= i < |s.phase.batch| && BornAt(s, s.phase.batch[i].ptr, b)
  }

  ghost predicate BornAt(s: State, p: Ptr, b: nat) {
    p in s.core.heap && s.core.heap[p].birth == b
  }

  // --- a doomed timer -------------------------------------------------------------------------

  lemma CancelDoomsNoOther(s: State, id: TimerId, b: nat)
    requires Inv(s) && b in s.created && Doomed(s, b)
    ensures Doomed(Cancelled(s, id), b)
  {
    var s' := Cancelled(s, id);
    if Gone(s, b) {
      assert Gone(s', b);
    } else {
      var p :| Caught(s, p, b);
      assert id in s.core.active ==> id.ptr != p;
      assert Caught(s', p, b);
    }
  }

  lemma NewDoomsNoOther(s: State, e: Event, b: nat)
    requires Inv(s) && Enabled(s, e) && e.New? && b in s.created && Doomed(s, b)
    ensures Doomed(Step(s, e), b)
  {
    var s' := Step(s, e);
    if Gone(s, b) {
      assert Gone(s', b);
    } else {
      var q :| Caught(s, q, b);
      assert Caught(s', q, b);
    }
  }

  lemma RunFunctorDoomsNoOther(s: State, b: nat)
    requires Inv(s) && Enabled(s, RunFunctor) && b in s.created && Gone(s, b)
    ensures Gone(Step(s, RunFunctor), b)
  {
  }

  lemma EndReadFreesDoomed(s: State, b: nat)
    requires Inv(s) && Enabled(s, EndRead) && Doomed(s, b)
    ensures Gone(Step(s, EndRead), b)
  {
    SettledHeap(s);
    if p :| Caught(s, p, b) {
      Rescheduling(s, p);
      forall q | q in Step(s, EndRead).core.heap ensures Step(s, EndRead).core.heap[q].birth != b {
        assert s.core.heap[q].birth == b ==> q == p;
      }
    }
  }

  lemma CallbackRunsWhom(s: State, b: nat)
    requires Inv(s) && Enabled(s, RunCallback)
    ensures var s', f := Step(s, RunCallback), Step(s, RunCallback).log[|s.log|];
      && (f.birth == b ==> StillToRun(s, b) && !StillToRun(s', b))
      && (StillToRun(s', b) ==> StillToRun(s, b))
  {
    var s' := Step(s, RunCallback);
    var p := s.phase.batch[s.phase.next].ptr;
    if s'.log[|s.log|].birth == b {
      assert BornAt(s, p, b);
    }
    if StillToRun(s', b) {
      var i :| s'.phase.next <= i < |s'.phase.batch| && BornAt(s', s'.phase.batch[i].ptr, b);
      assert BornAt(s, s.phase.batch[i].ptr, b);
    }
  }

  /** Once doomed, a timer stays doomed, and only its turn in the present batch can still call it. */
  lemma DoomedStep(s: State, e: Event, b: nat)
    requires Inv(s) && Enabled(s, e) && b in s.created && Doomed(s, b)
    ensures var s' := Step(s, e);
      && Doomed(s', b) && b in s'.created
      && (StillToRun(s', b) ==> StillToRun(s, b))
      && (s'.log == s.log
          || exists f :: s'.log == s.log + [f] && (f.birth == b ==> StillToRun(s, b) && !StillToRun(s', b)))
  {
    var s' := Step(s, e);
    match e
    case Tick(_) => DoomedFrame(s, s', b);
    case New(_, _, _, _, _) =>
      NewDoomsNoOther(s, e, b);
      OnlyOldTimersWait(s, s', b);
    case Cancel(id, inLoop) =>
      if inLoop { CancelDoomsNoOther(s, id, b); OnlyOldTimersWait(s, s', b); } else { DoomedFrame(s, s', b); }
    case RunFunctor =>
      assert Gone(s, b) by { assert s.phase.Idle?; }
      RunFunctorDoomsNoOther(s, b);
    case BeginRead(_) =>
      assert Gone(s, b) by { assert s.phase.Idle?; }
      assert Gone(s', b);
    case RunCallback =>
      CallbackRunsWhom(s, b);
      assert Doomed(s', b) by {
        if p :| Caught(s, p, b) { assert Caught(s', p, b); } else { assert Gone(s', b); }
      }
      assert s'.log == s.log + [s'.log[|s.log|]];
    case EndRead =>
      EndReadFreesDoomed(s, b);
  }

  lemma DoomedFrame(s: State, s': State, b: nat)
    requires Doomed(s, b) && s'.core == s.core && s'.phase == s.phase
    ensures Doomed(s', b) && (StillToRun(s', b) <==> StillToRun(s, b))
  {
    if p :| Caught(s, p, b) { assert Caught(s', p, b); } else { assert Gone(s', b); }
    assert forall p :: BornAt(s', p, b) <==> BornAt(s, p, b);
  }

  lemma OnlyOldTimersWait(s: State, s': State, b: nat)
    requires BatchKeys(s) && s'.phase == s.phase
    requires forall p :: p in s'.core.heap && p in s.core.heap ==> s'.core.heap[p] == s.core.heap[p]
    ensures StillToRun(s', b) ==> StillToRun(s, b)
  {
    if StillToRun(s', b) {
      var i :| s'.phase.next <= i < |s'.phase.batch| && BornAt(s', s'.phase.batch[i].ptr, b);
      assert BornAt(s, s.phase.batch[i].ptr, b);
    }
  }

  /** From the n-th call on, the log has at most one of the timer, and none unless it waits. */
  ghost predicate AtMostOnce(log: seq<Firing>, n: nat, b: nat, waits: bool) {
    && (forall j, k :: n <= j < k < |log| ==> !(log[j].birth == log[k].birth == b))
    && (!waits ==> forall k :: n <= k < |log| ==> log[k].birth != b)
  }

  lemma CallsAddUp(l0: seq<Firing>, l1: seq<Firing>, log: seq<Firing>, b: nat, waits0: bool, waits1: bool)
    requires l1 == l0 || exists f :: l1 == l0 + [f] && (f.birth == b ==> waits0 && !waits1)
    requires (waits1 ==> waits0) && l1 <= log && AtMostOnce(log, |l1|, b, waits1)
    ensures l0 <= log && AtMostOnce(log, |l0|, b, waits0)
  {
    if l1 != l0 {
      assert l1[..|l0|] == l0 && log[|l0|] == l1[|l0|];
    }
  }

  /**
    In every continuation, a doomed timer is called at most once more, and not at all unless it waits
    in the present batch for its call; and it never enters the queue again.
   */
  lemma {:induction false} CancelSticks(s: State, es: seq<Event>, b: nat)
    requires Inv(s) && IsRun(s, es) && b in s.created && Doomed(s, b)
    ensures Doomed(After(s, es), b)
    ensures s.log <= After(s, es).log && AtMostOnce(After(s, es).log, |s.log|, b, StillToRun(s, b))
    decreases |es|
  {
    if es != [] {
      var s1 := Step(s, es[0]);
      StepKeepsInv(s, es[0]);
      DoomedStep(s, es[0], b);
      CancelSticks(s1, es[1..], b);
      CallsAddUp(s.log, s1.log, After(s, es).log, b, StillToRun(s, b), StillToRun(s1, b));
    }
  }

  // --- exactly when a cancel takes effect -----------------------------------------------------

  /**
    A cancel processed by the loop dooms the timer it names unless the closure that adds the timer is
    still pending.  A live timer is freed on the spot; one in the batch is freed after it.
   */
  lemma CancelTakesEffect(s: State, p: Ptr)
    requires Inv(s) && p in s.core.heap
    ensures var s', b := Cancelled(s, IdOf(s.core, p)), s.core.heap[p].birth;
      && (Doomed(s', b) <==> !Pending(s, p))
      && (Live(s.core, p) ==> Gone(s', b) && b in s'.dropped && !StillToRun(s', b))
  {
    var s', b := Cancelled(s, IdOf(s.core, p)), s.core.heap[p].birth;
    if Live(s.core, p) {
      assert Gone(s', b);
    } else if InBatch(s, p) {
      assert Caught(s', p, b);
    } else {
      assert s'.core.heap == s.core.heap && !Gone(s', b);
      assert forall q :: Caught(s', q, b) ==> q == p && InBatch(s, q);
    }
  }

  /** A cancel that overtakes the closure adding its timer changes nothing at all outside a batch. */
  lemma EarlyCancelDoesNothing(s: State, p: Ptr)
    requires Inv(s) && Pending(s, p) && s.phase.Idle?
    ensures Cancelled(s, IdOf(s.core, p)) == s
  {
    assert !Live(s.core, p);
  }

  /**
    It happens: another thread creates a timer, the loop thread cancels it before it has run the
    closure that adds it, and the timer is in the queue all the same.
   */
  lemma EarlyCancelIsLost()
    ensures var es := [New(1, 5, 0.0, false, 0), Cancel(TimerId(1, 0), true), RunFunctor];
      && IsRun(Init(1), es)
      && Live(After(Init(1), es).core, 1)
      && !Doomed(After(Init(1), es), 0)
  {
    var e0, e1 := New(1, 5, 0.0, false, 0), Cancel(TimerId(1, 0), true);
    NewIsPending(Init(1), e0);
    var s1 := Step(Init(1), e0);
    EarlyCancelDoesNothing(s1, 1);
    assert Step(s1, e1) == s1;
    PendingIsAdded(s1, 1);
    RunOfThree(Init(1), e0, e1, RunFunctor);
  }

  /** A timer another thread adds waits in the queue of the loop. */
  lemma NewIsPending(s: State, e: Event)
    requires Inv(s) && Enabled(s, e) && e.New? && !e.inLoop
    ensures var s' := Step(s, e);
      && Inv(s') && s'.functors == s.functors + [AddIn(e.ptr)] && Pending(s', e.ptr)
      && s'.core == s.core.(heap := s.core.heap[e.ptr := Timer(e.when, e.interval, e.birth)])
      && s'.clock == s.clock && s'.phase == s.phase
  {
    StepKeepsInv(s, e);
    assert Step(s, e).functors[|s.functors|] == AddIn(e.ptr);
  }

  lemma PendingIsAdded(s: State, p: Ptr)
    requires Inv(s) && s.phase.Idle? && s.functors != [] && s.functors[0] == AddIn(p) && p in s.core.heap
    ensures var s' := Step(s, RunFunctor);
      && Inv(s') && s'.core.heap == s.core.heap && s'.clock == s.clock && s'.phase.Idle?
      && s'.core.timers == s.core.timers + {EntryOf(s.core, p)}
      && Live(s'.core, p) && !Doomed(s', s.core.heap[p].birth)
  {
    StepKeepsInv(s, RunFunctor);
    FunctorTarget(s);
    var s' := Step(s, RunFunctor);
    assert EntryOf(s'.core, p) == EntryOf(s.core, p);
    assert BornAt(s', p, s.core.heap[p].birth);
  }

  lemma RunOfThree(s: State, a: Event, b: Event, c: Event)
    requires Inv(s) && Enabled(s, a)
    requires Inv(Step(s, a)) && Enabled(Step(s, a), b)
    requires var s2 := Step(Step(s, a), b); Inv(s2) && Enabled(s2, c)
    ensures IsRun(s, [a, b, c])
    ensures After(s, [a, b, c]) == Step(Step(Step(s, a), b), c)
  {
    var s1 := Step(s, a);
    var s2 := Step(s1, b);
    StepKeepsInv(s2, c);
    var s3 := Step(s2, c);
    assert IsRun(s3, []) && After(s3, []) == s3;
    assert [c][1..] == [] && IsRun(s2, [c]) && After(s2, [c]) == s3;
    assert [b, c][1..] == [c] && IsRun(s1, [b, c]) && After(s1, [b, c]) == s3;
    assert [a, b, c][1..] == [b, c];
  }

  /** The timer is doomed, or the closure that cancels it is queued behind the one that adds it, if that still is. */
  ghost predicate CancelOnItsWay(s: State, id: TimerId, b: nat) {
    Doomed(s, b) || (BornAt(s, id.ptr, b) && id == IdOf(s.core, id.ptr) && exists j :: QueuedBehindAdd(s, id, j))
  }

  ghost predicate QueuedBehindAdd(s: State, id: TimerId, j: nat) {
    && j < |s.functors| && s.functors[j] == CancelIn(id)
    && forall k :: j < k < |s.functors| ==> s.functors[k] != AddIn(id.ptr)
  }

  lemma QueueShrinks(s: State, id: TimerId, j: nat)
    requires QueuedBehindAdd(s, id, j) && j > 0
    ensures QueuedBehindAdd(s.(functors := s.functors[1..]), id, j - 1)
  {
    var rest := s.functors[1..];
    assert forall k :: 0 <= k < |rest| ==> rest[k] == s.functors[k + 1];
  }

  /** A pointer that stays allocated keeps its timer's birth; a newly allocated one has a new birth. */
  lemma BirthsStay(s: State, e: Event)
    requires Inv(s) && Enabled(s, e)
    ensures var s' := Step(s, e);
      forall q :: q in s'.core.heap ==>
        if q in s.core.heap then s'.core.heap[q].birth == s.core.heap[q].birth
        else e.New? && s'.core.heap[q].birth == e.birth
  {
    match e
    case EndRead => SettledHeap(s);
    case RunFunctor => FunctorTarget(s);
    case _ =>
  }

  lemma BornOrGone(s: State, e: Event, id: TimerId, b: nat)
    requires Inv(s) && Enabled(s, e) && BornAt(s, id.ptr, b)
    ensures var s' := Step(s, e);
      Gone(s', b) || (BornAt(s', id.ptr, b) && IdOf(s'.core, id.ptr) == IdOf(s.core, id.ptr))
  {
    BirthsStay(s, e);
    assert forall q :: q in s.core.heap && s.core.heap[q].birth == b ==> q == id.ptr;
  }

  lemma CancelStaysOnItsWay(s: State, e: Event, id: TimerId, b: nat)
    requires Inv(s) && Enabled(s, e) && b in s.created && CancelOnItsWay(s, id, b)
    ensures CancelOnItsWay(Step(s, e), id, b)
  {
    var s' := Step(s, e);
    if Doomed(s, b) {
      DoomedStep(s, e, b);
    } else {
      var j: nat :| QueuedBehindAdd(s, id, j);
      BornOrGone(s, e, id, b);
      match e
      case RunFunctor =>
        var s1 := s.(functors := s.functors[1..]);
        if j == 0 {
          RunFunctorKeepsInv(s);
          assert !Pending(s1, id.ptr);
          CancelTakesEffect(s1, id.ptr);
        } else {
          QueueShrinks(s, id, j);
          assert QueuedBehindAdd(s', id, j - 1);
        }
      case New(p, _, _, _, _) =>
        assert p != id.ptr;
        assert QueuedBehindAdd(s', id, j);
      case _ =>
        assert QueuedBehindAdd(s', id, j);
    }
  }

  /**
    A thread outside the loop that creates a timer and then cancels it is always obeyed: whatever
    happens in between, once the closures it queued have been run the timer is doomed.
   */
  lemma {:induction false} OffLoopCancelArrives(s: State, es: seq<Event>, id: TimerId, b: nat)
    requires Inv(s) && IsRun(s, es) && b in s.created && CancelOnItsWay(s, id, b)
    ensures CancelOnItsWay(After(s, es), id, b)
    ensures After(s, es).functors == [] ==> Doomed(After(s, es), b)
    decreases |es|
  {
    if es != [] {
      StepKeepsInv(s, es[0]);
      CancelStaysOnItsWay(s, es[0], id, b);
      OffLoopCancelArrives(Step(s, es[0]), es[1..], id, b);
    }
  }

  /** The cancel is on its way as soon as the thread has made its two calls. */
  lemma OffLoopCancelSetsOut(s: State, p: Ptr, when: Timestamp, interval: real, b: nat)
    requires Inv(s) && p !in s.core.heap && b !in s.created
    ensures var s1 := Step(s, New(p, when, interval, false, b));
      var id := IdOf(s1.core, p);
      Inv(s1) && b in s1.created && CancelOnItsWay(Step(s1, Cancel(id, false)), id, b)
  {
    StepKeepsInv(s, New(p, when, interval, false, b));
    var s1 := Step(s, New(p, when, interval, false, b));
    var id := IdOf(s1.core, p);
    var s2 := Step(s1, Cancel(id, false));
    assert QueuedBehindAdd(s2, id, |s1.functors|);
  }

  // --- stale ids ------------------------------------------------------------------------------

  /**
    An id names an address and the sequence of the n-th timer of the process.  It hits the timer now at
    that address exactly when the two creations are a multiple of 2^32 apart, as all queues count
    together, and the timer has been handed over; a timer at another address it never hits.
   */
  lemma StaleIds(s: State, p: Ptr, n: nat, q: Ptr)
    requires Inv(s) && q in s.core.heap && !Doomed(s, s.core.heap[q].birth)
    ensures var b := s.core.heap[q].birth;
      Doomed(Cancelled(s, TimerId(p, Int32(n))), b) <==> q == p && !Pending(s, q) && (b - n) % TWO_32 == 0
  {
    var id, b := TimerId(p, Int32(n)), s.core.heap[q].birth;
    var s' := Cancelled(s, id);
    SequencesRepeat(n, b);
    if id == IdOf(s.core, q) {
      CancelTakesEffect(s, q);
    } else {
      assert q in s'.core.heap && s'.core.heap[q] == s.core.heap[q];
      assert !Gone(s', b);
      assert forall r :: Caught(s', r, b) ==> Caught(s, q, b);
    }
  }

  /** So while the process has created at most 2^32 timers, an id acts on the timer it was made for or on none. */
  lemma StaleIdsAreHarmless(s: State, p: Ptr, n: nat, q: Ptr)
    requires Inv(s) && q in s.core.heap && !Doomed(s, s.core.heap[q].birth)
    requires n < TWO_32 && s.core.heap[q].birth < TWO_32 && n != s.core.heap[q].birth
    ensures !Doomed(Cancelled(s, TimerId(p, Int32(n))), s.core.heap[q].birth)
  {
    StaleIds(s, p, n, q);
  }

  /**
    It happens: the first timer of the process is cancelled, other queues create 2^32 - 1 timers, this
    one creates its second at the same address, and the id of the first cancels it.
   */
  lemma StaleIdHits()
    ensures var es := [New(1, 5, 0.0, true, 0), Cancel(TimerId(1, 0), true), New(1, 9, 0.0, true, TWO_32)];
      && IsRun(Init(1), es)
      && var s := After(Init(1), es);
         && Live(s.core, 1) && s.core.heap[1] == Timer(9, 0.0, TWO_32)
         && !Doomed(s, TWO_32) && Doomed(Cancelled(s, TimerId(1, 0)), TWO_32)
  {
    var e0, e1, e2 := New(1, 5, 0.0, true, 0), Cancel(TimerId(1, 0), true), New(1, 9, 0.0, true, TWO_32);
    FirstIsCancelled();
    var s2 := Step(Step(Init(1), e0), e1);
    NewIsHit(s2, e2);
    RunOfThree(Init(1), e0, e1, e2);
  }

  lemma NewIsHit(s2: State, e2: Event)
    requires Inv(s2) && s2.core.heap == map[] && s2.created.Keys == {0} && s2.phase.Idle?
    requires e2 == New(1, 9, 0.0, true, TWO_32)
    ensures Enabled(s2, e2)
    ensures var s := Step(s2, e2);
      && Inv(s) && Live(s.core, 1) && s.core.heap[1] == Timer(9, 0.0, TWO_32)
      && !Doomed(s, TWO_32) && Doomed(Cancelled(s, TimerId(1, 0)), TWO_32)
  {
    NewIsLive(s2, e2);
    StaleIds(Step(s2, e2), 1, 0, 1);
  }

  lemma FirstIsCancelled()
    ensures var e0, e1 := New(1, 5, 0.0, true, 0), Cancel(TimerId(1, 0), true);
      && Inv(Step(Init(1), e0)) && Inv(Step(Step(Init(1), e0), e1))
      && var s := Step(Step(Init(1), e0), e1); s.core.heap == map[] && s.created.Keys == {0} && s.phase.Idle?
  {
    var e0, e1 := New(1, 5, 0.0, true, 0), Cancel(TimerId(1, 0), true);
    NewIsLive(Init(1), e0);
    var s1 := Step(Init(1), e0);
    StepKeepsInv(s1, e1);
    assert IdOf(s1.core, 1) == TimerId(1, 0) && Step(s1, e1).core.heap == map[];
  }

  /** A timer the loop thread adds is in the queue at once. */
  lemma NewIsLive(s: State, e: Event)
    requires Inv(s) && Enabled(s, e) && e.New? && e.inLoop && s.phase.Idle?
    ensures var s' := Step(s, e);
      && Inv(s') && Live(s'.core, e.ptr) && IdOf(s'.core, e.ptr) in s'.core.active && !Doomed(s', e.birth)
      && s'.core.heap == s.core.heap[e.ptr := Timer(e.when, e.interval, e.birth)]
      && s'.created == s.created[e.birth := Timer(e.when, e.interval, e.birth)] && s'.phase.Idle?
  {
    StepKeepsInv(s, e);
    var s' := Step(s, e);
    assert s'.core.heap[e.ptr].birth == e.birth;
    assert EntryOf(s'.core, e.ptr) in s'.core.timers;
  }
}
