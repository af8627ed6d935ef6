/** One call of the read handler: what it does to the alarm, whom it calls, and who is left. */
module TimerBatches {
  import opened Timestamps
  import opened Timers
  import opened TimerGuarantees
  import opened TimerRuns

  // --- the alarm ------------------------------------------------------------------------------

  /** Beginning the read handler uses up the expiry that prompted it; an alarm still to come stays set. */
  lemma ReadingConsumesExpiry(s: State, batch: seq<Entry>)
    requires Inv(s) && Enabled(s, BeginRead(batch))
    ensures var s' := Step(s, BeginRead(batch));
      && !s'.core.alarm.Readable(s'.clock)
      && (s.core.alarm.Armed? && s.clock < s.core.alarm.deadline ==> s'.core.alarm == s.core.alarm)
      && (s'.core.alarm.Armed? ==> s'.core.alarm == s.core.alarm)
  {
  }

  /**
    Ending the read handler sets the alarm for the first of the queue, or for the floor from now if that
    is later, when that is a valid timestamp; and leaves it alone when it is not or the queue is empty.
   */
  lemma AlarmAfterBatch(s: State, first: Entry)
    requires Inv(s) && Enabled(s, EndRead)
    ensures SetForFirst(s.core, Step(s, EndRead).core, s.clock, first)
  {
    ResetSetsForFirst(s.core, Ptrs(s.phase.batch), s.phase.now, s.clock, first);
  }

  ghost predicate SetForFirst(c: Core, c': Core, clock: Timestamp, first: Entry) {
    && (IsFirst(c'.timers, first) && Valid(first.when) ==>
          c'.alarm == Armed(Later(first.when, clock + MIN_DELAY)) && c'.armedAt == clock)
    && (c'.timers == {} || (IsFirst(c'.timers, first) && !Valid(first.when)) ==>
          c'.alarm == c.alarm && c'.armedAt == c.armedAt)
  }

  lemma ResetSetsForFirst(c: Core, batch: set<Ptr>, now: Timestamp, clock: Timestamp, first: Entry)
    ensures SetForFirst(c, Timers.Reset(c, batch, now, clock), clock, first)
  {
    var timers := Resettled(c, batch, now).timers;
    var next := NextExpiration(timers);
    ResetArms(next, clock);
    if IsFirst(timers, first) {
      var e :| IsFirst(timers, e) && e.when == next;
      assert first.when == next;
    }
  }

  /** Adding a timer sets the alarm, for its expiration or the floor from now, exactly if it is the earliest. */
  lemma AlarmAfterAdding(s: State, p: Ptr)
    requires p in s.core.heap
    ensures var c, c', when := s.core, Added(s, p).core, s.core.heap[p].expiration;
      if BeforeAll(c, when)
      then c'.alarm == Armed(Later(when, s.clock + MIN_DELAY)) && c'.armedAt == s.clock
      else c'.alarm == c.alarm && c'.armedAt == c.armedAt
  {
    ResetArms(s.core.heap[p].expiration, s.clock);
  }

  /** Nothing else touches the alarm. */
  lemma AlarmIsLeftAlone(s: State, e: Event)
    requires Inv(s) && Enabled(s, e)
    requires !e.BeginRead? && !e.EndRead? && (e.New? ==> !e.inLoop)
    requires e.RunFunctor? ==> s.functors[0].CancelIn?
    ensures Step(s, e).core.alarm == s.core.alarm && Step(s, e).core.armedAt == s.core.armedAt
  {
  }

  // --- the batch ------------------------------------------------------------------------------

  /** Until the handler ends, the batch and its timers stay, and only a callback moves on to the next. */
  lemma BatchLasts(s: State, e: Event)
    requires Inv(s) && Enabled(s, e) && s.phase.Calling? && !e.EndRead?
    ensures var s' := Step(s, e);
      && s'.phase == s.phase.(next := s.phase.next + if e.RunCallback? then 1 else 0)
      && s'.log == (if e.RunCallback? then s.log + [s'.log[|s'.log| - 1]] else s.log)
      && (e.RunCallback? ==> s'.log[|s.log|].at == s.clock)
      && forall p :: p in s.core.heap && InBatch(s, p) ==> p in s'.core.heap && s'.core.heap[p] == s.core.heap[p]
  {
    if e.Cancel? && e.inLoop && e.id in s.core.active {
      assert Live(s.core, e.id.ptr);
    }
  }

  /** A call of the callback of the entry's timer, in a batch extracted for `now`. */
  predicate FiringOf(c: Core, entry: Entry, now: Timestamp, f: Firing) {
    entry.ptr in c.heap && f.birth == c.heap[entry.ptr].birth && f.due == entry.when && f.now == now
  }

  predicate Called(s: State, i: nat, f: Firing)
    requires s.phase.Calling?
  {
    i < |s.phase.batch| && FiringOf(s.core, s.phase.batch[i], s.phase.now, f)
  }

  /** From `s` to `r` the members from the next one on have been called, each once, in the order of the batch. */
  ghost predicate CalledInOrder(s: State, r: State) {
    && s.phase.Calling? && r.phase.Calling?
    && r.phase.batch == s.phase.batch && r.phase.now == s.phase.now
    && s.log <= r.log && r.phase.next == s.phase.next + |r.log| - |s.log|
    && forall j :: |s.log| <= j < |r.log| ==> Called(s, s.phase.next + j - |s.log|, r.log[j])
  }

  lemma CalledBefore(s: State, s1: State, r: State)
    requires s.phase.Calling? && CalledInOrder(s1, r)
    requires s1.phase == s.phase && s1.log == s.log
    requires forall p :: p in s.core.heap && InBatch(s, p) ==> p in s1.core.heap && s1.core.heap[p] == s.core.heap[p]
    requires forall i :: 0 <= i < |s.phase.batch| ==> s.phase.batch[i].ptr in s.core.heap
    ensures CalledInOrder(s, r)
  {
    forall j | |s.log| <= j < |r.log| ensures Called(s, s.phase.next + j - |s.log|, r.log[j]) {
      var i := s.phase.next + j - |s.log|;
      assert Called(s1, i, r.log[j]);
      assert s.phase.batch[i].ptr in Ptrs(s.phase.batch) && InBatch(s, s.phase.batch[i].ptr);
    }
  }

  lemma CalledFirst(s: State, s1: State, r: State, f: Firing)
    requires s.phase.Calling? && CalledInOrder(s1, r)
    requires s1 == s.(phase := s.phase.(next := s.phase.next + 1), log := s.log + [f])
    requires Called(s, s.phase.next, f)
    ensures CalledInOrder(s, r)
  {
    assert r.log[|s.log|] == s1.log[|s.log|];
    forall j | |s.log| <= j < |r.log| ensures Called(s, s.phase.next + j - |s.log|, r.log[j]) {
      if j > |s.log| { assert Called(s1, s1.phase.next + j - |s1.log|, r.log[j]); }
    }
  }

  lemma StepThenCalled(s: State, e: Event, r: State)
    requires Inv(s) && Enabled(s, e) && s.phase.Calling? && !e.EndRead? && CalledInOrder(Step(s, e), r)
    ensures CalledInOrder(s, r)
  {
    BatchLasts(s, e);
    if e.RunCallback? {
      CalledFirst(s, Step(s, e), r, Step(s, e).log[|s.log|]);
    } else {
      CalledBefore(s, Step(s, e), r);
    }
  }

  /** Whatever the callbacks and other threads do, the members are called one by one, each once, in order. */
  lemma {:induction false} BatchIsCalled(s: State, es: seq<Event>)
    requires Inv(s) && IsRun(s, es) && s.phase.Calling? && EndRead !in es
    ensures CalledInOrder(s, After(s, es))
    decreases |es|
  {
    if es != [] {
      StepKeepsInv(s, es[0]);
      BatchLasts(s, es[0]);
      BatchIsCalled(Step(s, es[0]), es[1..]);
      StepThenCalled(s, es[0], After(s, es));
    }
  }

  // --- who is left ----------------------------------------------------------------------------

  /** While callbacks run, an id of the batch is noted exactly by a cancel on the loop's thread that names it. */
  lemma CancelIsNoted(s: State, e: Event, p: Ptr)
    requires Inv(s) && Enabled(s, e) && InBatch(s, p) && !e.EndRead?
    ensures var s', id := Step(s, e), IdOf(s.core, p);
      && InBatch(s', p) && s'.core.heap[p] == s.core.heap[p]
      && (id in s'.core.canceling <==> id in s.core.canceling || e == Cancel(id, true))
  {
    BatchLasts(s, e);
    assert !Live(s.core, p);
  }

  /** From `s` to `r` the member has stayed as it was, and its id has been noted if and only if it was or `named`. */
  ghost predicate Noted(s: State, r: State, p: Ptr, id: TimerId, named: bool) {
    && InBatch(s, p) && InBatch(r, p) && p in s.core.heap && p in r.core.heap
    && r.core.heap[p] == s.core.heap[p] && r.phase.now == s.phase.now
    && (id in r.core.canceling <==> id in s.core.canceling || named)
  }

  lemma StepThenNoted(s: State, e: Event, r: State, p: Ptr, id: TimerId, named: bool)
    requires Inv(s) && Enabled(s, e) && InBatch(s, p) && id == IdOf(s.core, p) && !e.EndRead?
    requires Noted(Step(s, e), r, p, id, named)
    ensures Noted(s, r, p, id, e == Cancel(id, true) || named)
  {
    BatchLasts(s, e);
    CancelIsNoted(s, e, p);
  }

  lemma MemberStays(s: State, e: Event, p: Ptr, id: TimerId)
    requires Inv(s) && Enabled(s, e) && InBatch(s, p) && id == IdOf(s.core, p) && !e.EndRead?
    ensures Inv(Step(s, e)) && InBatch(Step(s, e), p) && id == IdOf(Step(s, e).core, p)
  {
    StepKeepsInv(s, e);
    BatchLasts(s, e);
  }

  lemma {:induction false} CancelsAreNoted(s: State, es: seq<Event>, p: Ptr, id: TimerId)
    requires Inv(s) && IsRun(s, es) && InBatch(s, p) && id == IdOf(s.core, p) && EndRead !in es
    ensures Noted(s, After(s, es), p, id, Cancel(id, true) in es)
    decreases |es|
  {
    if es != [] {
      var e, rest := es[0], es[1..];
      assert es == [e] + rest;
      MemberStays(s, e, p, id);
      CancelsAreNoted(Step(s, e), rest, p, id);
      StepThenNoted(s, e, After(s, es), p, id, Cancel(id, true) in rest);
    }
  }

  /** What one whole call of the read handler does, as a run: `es` is what happens between its ends. */
  function HandlerRun(batch: seq<Entry>, es: seq<Event>): seq<Event> {
    [BeginRead(batch)] + (es + [EndRead])
  }

  lemma PartsOfHandlerRun(s: State, batch: seq<Entry>, es: seq<Event>)
    requires Inv(s) && IsRun(s, HandlerRun(batch, es))
    ensures Enabled(s, BeginRead(batch)) && Inv(Step(s, BeginRead(batch)))
    ensures var s1 := Step(s, BeginRead(batch));
      && IsRun(s1, es) && Enabled(After(s1, es), EndRead)
      && After(s, HandlerRun(batch, es)) == Step(After(s1, es), EndRead)
  {
    var s1 := Step(s, BeginRead(batch));
    StepKeepsInv(s, BeginRead(batch));
    RunOfOne(s, BeginRead(batch), es + [EndRead]);
    RunsConcatenate(s1, es, [EndRead]);
    LastOfRun(After(s1, es), EndRead);
  }

  lemma LastOfRun(s: State, e: Event)
    requires Inv(s) && IsRun(s, [e])
    ensures Enabled(s, e) && After(s, [e]) == Step(s, e)
  {
    StepKeepsInv(s, e);
    assert [e][1..] == [] && IsRun(Step(s, e), []) && After(Step(s, e), []) == Step(s, e);
  }

  /**
    In every run of the handler, whatever the callbacks and other threads do meanwhile, a timer due when it
    begins is allocated afterwards exactly if it repeats and no callback cancelled it, whatever was cancelled
    before; and then it is in the queue, due its interval, in whole microseconds, after the beginning.
   */
  lemma WhoIsLeft(s: State, batch: seq<Entry>, es: seq<Event>, p: Ptr)
    requires Inv(s) && IsRun(s, HandlerRun(batch, es)) && EndRead !in es && Due(s.core, p, s.clock)
    ensures var r, t := After(s, HandlerRun(batch, es)), s.core.heap[p];
      && (p in r.core.heap <==> t.Repeats() && Cancel(IdOf(s.core, p), true) !in es)
      && (p in r.core.heap ==>
            && Live(r.core, p) && r.core.heap[p] == t.(expiration := r.core.heap[p].expiration)
            && var micros := r.core.heap[p].expiration - s.clock;
               micros as real <= t.interval * 1_000_000.0 < (micros + 1) as real)
  {
    PartsOfHandlerRun(s, batch, es);
    var s1 := Step(s, BeginRead(batch));
    DueIsInBatch(s, batch, p);
    CancelsAreNoted(s1, es, p, IdOf(s.core, p));
    Rescheduling(After(s1, es), p);
  }

  lemma DueIsInBatch(s: State, batch: seq<Entry>, p: Ptr)
    requires Inv(s) && Enabled(s, BeginRead(batch)) && Due(s.core, p, s.clock)
    ensures var s1 := Step(s, BeginRead(batch));
      InBatch(s1, p) && s1.core.heap == s.core.heap && s1.phase.now == s.clock && s1.core.canceling == {}
  {
    assert EntryOf(s.core, p) in Expired(s.core, s.clock);
    assert EntryOf(s.core, p) in batch;
  }

  /** And every member of the batch is called once, in order, with the time the handler began. */
  lemma WhoIsCalled(s: State, batch: seq<Entry>, es: seq<Event>)
    requires Inv(s) && IsRun(s, HandlerRun(batch, es)) && EndRead !in es
    ensures var r := After(s, HandlerRun(batch, es));
      && s.log <= r.log && |r.log| == |s.log| + |batch|
      && forall j :: |s.log| <= j < |r.log| ==> FiringOf(s.core, batch[j - |s.log|], s.clock, r.log[j])
  {
    var s1, r1 := CallsOfHandler(s, batch, es);
    AllCalled(s, s1, r1);
  }

  lemma AllCalled(s: State, s1: State, r: State)
    requires CalledInOrder(s1, r) && s1.phase.next == 0 && s1.core.heap == s.core.heap && s1.log == s.log
    ensures forall j :: |s.log| <= j < |r.log| && j - |s.log| < |s1.phase.batch| ==>
      FiringOf(s.core, s1.phase.batch[j - |s.log|], s1.phase.now, r.log[j])
  {
    forall j | |s.log| <= j < |r.log| && j - |s.log| < |s1.phase.batch|
      ensures FiringOf(s.core, s1.phase.batch[j - |s.log|], s1.phase.now, r.log[j])
    {
      assert Called(s1, s1.phase.next + j - |s1.log|, r.log[j]);
    }
  }

  lemma CallsOfHandler(s: State, batch: seq<Entry>, es: seq<Event>) returns (s1: State, r1: State)
    requires Inv(s) && IsRun(s, HandlerRun(batch, es)) && EndRead !in es
    ensures s1.log == s.log && s1.phase == Calling(batch, 0, s.clock) && s1.core.heap == s.core.heap
    ensures CalledInOrder(s1, r1) && r1.phase.next == |batch|
    ensures After(s, HandlerRun(batch, es)).log == r1.log
  {
    PartsOfHandlerRun(s, batch, es);
    s1 := Step(s, BeginRead(batch));
    r1 := After(s1, es);
    BeginningLogsNothing(s, batch);
    BatchIsCalled(s1, es);
    EndingLogsNothing(r1);
  }

  lemma BeginningLogsNothing(s: State, batch: seq<Entry>)
    requires Inv(s) && Enabled(s, BeginRead(batch))
    ensures var s1 := Step(s, BeginRead(batch));
      s1.log == s.log && s1.phase == Calling(batch, 0, s.clock) && s1.core.heap == s.core.heap
  {
  }

  lemma EndingLogsNothing(s: State)
    requires Inv(s) && Enabled(s, EndRead)
    ensures Step(s, EndRead).log == s.log && s.phase.next == |s.phase.batch|
  {
  }

  // --- quiet afterwards -----------------------------------------------------------------------

  predicate AddsOnLoop(e: Event) {
    e.New? && e.inLoop
  }

  predicate AddsNone(es: seq<Event>) {
    forall i :: 0 <= i < |es| ==> !AddsOnLoop(es[i])
  }

  lemma {:induction false} StaysDisarmed(s: State, es: seq<Event>)
    requires Inv(s) && IsRun(s, es) && s.phase.Calling? && EndRead !in es && s.core.alarm.Disarmed?
    requires AddsNone(es)
    ensures After(s, es).core.alarm.Disarmed?
    decreases |es|
  {
    if es != [] {
      assert !AddsOnLoop(es[0]);
      StepKeepsInv(s, es[0]);
      BatchLasts(s, es[0]);
      AlarmIsLeftAlone(s, es[0]);
      StaysDisarmed(Step(s, es[0]), es[1..]);
    }
  }

  /**
    A run of the handler does not leave the alarm readable when a valid expiration is next; nor when the
    alarm has prompted it and no callback has added a timer, also when no timer is left: the loop is not
    woken again for the same expiry.
   */
  lemma HandlerQuietsAlarm(s: State, batch: seq<Entry>, es: seq<Event>)
    requires Inv(s) && IsRun(s, HandlerRun(batch, es)) && EndRead !in es
    ensures var r := After(s, HandlerRun(batch, es));
      && (forall first :: IsFirst(r.core.timers, first) && Valid(first.when) ==> !r.core.alarm.Readable(r.clock))
      && (s.core.alarm.Readable(s.clock) && AddsNone(es) ==> !r.core.alarm.Readable(r.clock))
  {
    PartsOfHandlerRun(s, batch, es);
    var s1 := Step(s, BeginRead(batch));
    var r1 := After(s1, es);
    EndsQuiet(r1);
    if s.core.alarm.Readable(s.clock) && AddsNone(es) {
      ReadingConsumesExpiry(s, batch);
      BeginningLogsNothing(s, batch);
      StaysDisarmed(s1, es);
    }
  }

  lemma EndsQuiet(s: State)
    requires Inv(s) && Enabled(s, EndRead)
    ensures var r := Step(s, EndRead);
      && (forall first :: IsFirst(r.core.timers, first) && Valid(first.when) ==> !r.core.alarm.Readable(r.clock))
      && (s.core.alarm.Disarmed? ==> !r.core.alarm.Readable(r.clock))
  {
    var timers := Step(s, EndRead).core.timers;
    forall first ensures SetForFirst(s.core, Step(s, EndRead).core, s.clock, first) {
      AlarmAfterBatch(s, first);
    }
    if timers != {} {
      FirstExists(timers);
      var first :| IsFirst(timers, first);
      assert SetForFirst(s.core, Step(s, EndRead).core, s.clock, first);
    } else {
      assert SetForFirst(s.core, Step(s, EndRead).core, s.clock, Entry(0, 1));
    }
  }
}
