/** What the runs of the timer queue promise to its users. */
module TimerGuarantees {
  import opened Timestamps
  import opened Timers
  import opened TimerRuns

  // --- the batch ------------------------------------------------------------------------------

  /** There is always a batch to extract, so the read handler is never stuck. */
  lemma {:induction false} BatchExists(entries: set<Entry>) returns (batch: seq<Entry>)
    ensures Sorted(batch) && forall e :: e in batch <==> e in entries
    decreases |entries|
  {
    batch := [];
    if entries != {} {
      var least := Least(entries);
      var rest := BatchExists(entries - {least});
      batch := [least] + rest;
      forall i, j | 0 <= i < j < |batch| ensures Precedes(batch[i], batch[j]) {
        assert batch[j] in rest;
      }
      assert forall e :: e in batch <==> e == least || e in rest;
    }
  }

  lemma {:induction false} Least(entries: set<Entry>) returns (least: Entry)
    requires entries != {}
    ensures least in entries && forall x :: x in entries && x != least ==> Precedes(least, x)
    decreases |entries|
  {
    var e :| e in entries;
    var rest := entries - {e};
    assert entries == rest + {e};
    least := e;
    if rest != {} {
      var other := Least(rest);
      if Precedes(other, e) { least := other; }
    }
  }

  /** The order of the batch leaves no choice: the queue determines it. */
  lemma {:induction false} BatchIsDetermined(a: seq<Entry>, b: seq<Entry>)
    requires Sorted(a) && Sorted(b)
    requires forall e :: e in a <==> e in b
    ensures a == b
    decreases |a|
  {
    assert |a| == 0 <==> |b| == 0 by {
      if |a| > 0 { assert a[0] in b; }
      if |b| > 0 { assert b[0] in a; }
    }
    if a != [] {
      assert a[0] in b && b[0] in a;
      assert a[0] == b[0];
      forall e ensures e in a[1..] <==> e in b[1..] {
        assert e in a[1..] <==> e in a && e != a[0];
        assert e in b[1..] <==> e in b && e != b[0];
      }
      BatchIsDetermined(a[1..], b[1..]);
      assert a == [a[0]] + a[1..] && b == [b[0]] + b[1..];
    }
  }

  // --- no timer is lost, none dangles ---------------------------------------------------------

  /**
    Outside the read handler every queued timer is covered by the alarm: once it is due and the floor
    after the last arming is over, the alarm is readable, and reading it extracts the timer.
   */
  lemma NoLostTimer(start: Timestamp, es: seq<Event>, e: Entry, batch: seq<Entry>)
    requires Valid(start)
    requires IsRun(Init(start), es)
    requires var s := After(Init(start), es); s.phase.Idle? && e in s.core.timers
    ensures var s := After(Init(start), es);
      && Covered(s.core, e.when)
      && (e.when <= s.clock && s.core.armedAt + MIN_DELAY <= s.clock ==> s.core.alarm.Readable(s.clock))
      && (Enabled(s, BeginRead(batch)) ==> (e in batch <==> e.when <= s.clock))
  {
  }

  /** Every allocated timer has exactly one owner, no owner holds a freed one, and the two indexes agree. */
  lemma OneOwnerEach(start: Timestamp, es: seq<Event>, p: Ptr)
    requires Valid(start)
    requires IsRun(Init(start), es)
    ensures var s := After(Init(start), es);
      && (p in s.core.heap <==> Pending(s, p) || Live(s.core, p) || InBatch(s, p))
      && !(Pending(s, p) && Live(s.core, p)) && !(Pending(s, p) && InBatch(s, p)) && !(Live(s.core, p) && InBatch(s, p))
      && (Live(s.core, p) <==> p in s.core.heap && IdOf(s.core, p) in s.core.active)
      && (forall e :: e in s.core.timers && e.ptr == p ==> p in s.core.heap && e == EntryOf(s.core, p))
      && |s.core.timers| == |s.core.active|
  {
    SizesAgree(After(Init(start), es).core);
  }

  // --- which callbacks run, and when ----------------------------------------------------------

  ghost predicate Fired(log: seq<Firing>, b: nat) {
    exists k :: 0 <= k < |log| && log[k].birth == b
  }

  ghost predicate Gone(s: State, b: nat) {
    forall p :: p in s.core.heap ==> s.core.heap[p].birth != b
  }

  /** The timer is in the batch and has been called already. */
  ghost predicate Ran(s: State, p: Ptr) {
    s.phase.Calling? && exists i :: 0 <= i < s.phase.next <= |s.phase.batch| && s.phase.batch[i].ptr == p
  }

  ghost predicate NeverEarly(s: State) {
    forall k :: 0 <= k < |s.log| ==>
      s.log[k].birth in s.created && s.log[k].due <= s.log[k].now <= s.log[k].at <= s.clock
  }

  /** A second call belongs to a repeating timer, and is due a full interval after the batch of the first. */
  ghost predicate Spaced(s: State) {
    forall j, k :: 0 <= j < k < |s.log| && s.log[j].birth == s.log[k].birth && s.log[k].birth in s.created ==>
      && s.created[s.log[k].birth].Repeats()
      && AddTime(s.log[j].now, s.created[s.log[k].birth].interval) <= s.log[k].due
  }

  /** What the log says about a timer that is still allocated. */
  ghost predicate LogFits(s: State) {
    forall p, k :: p in s.core.heap && 0 <= k < |s.log| && s.log[k].birth == s.core.heap[p].birth ==>
      || (Ran(s, p) && s.log[k].now == s.phase.now)
      || (s.core.heap[p].Repeats() && AddTime(s.log[k].now, s.core.heap[p].interval) <= s.core.heap[p].expiration)
  }

  ghost predicate RanFired(s: State) {
    forall p :: p in s.core.heap && Ran(s, p) ==> Fired(s.log, s.core.heap[p].birth)
  }

  /** A timer leaves the heap only after its callback ran or because a cancel came first. */
  ghost predicate NoneForgotten(s: State) {
    && (forall b :: b in s.created ==> !Gone(s, b) || b in s.dropped || Fired(s.log, b))
    && (forall b :: b in s.dropped ==>
         b in s.created && Gone(s, b) && (!s.created[b].Repeats() ==> !Fired(s.log, b)))
  }

  /** Until its first call a timer is due when its creator said, and so is that call. */
  ghost predicate FirstDue(s: State) {
    && (forall p :: p in s.core.heap && !Fired(s.log, s.core.heap[p].birth) && s.core.heap[p].birth in s.created ==>
         s.core.heap[p].expiration == s.created[s.core.heap[p].birth].expiration)
    && (forall k :: 0 <= k < |s.log| && !Fired(s.log[..k], s.log[k].birth) && s.log[k].birth in s.created ==>
         s.log[k].due == s.created[s.log[k].birth].expiration)
  }

  ghost predicate History(s: State) {
    NeverEarly(s) && Spaced(s) && LogFits(s) && RanFired(s) && NoneForgotten(s) && FirstDue(s)
  }

  lemma LogFrame(s: State, s': State)
    requires NeverEarly(s) && Spaced(s) && FirstDue(s)
    requires s'.core.heap == s.core.heap && s'.created == s.created && s'.log == s.log && s'.clock >= s.clock
    ensures NeverEarly(s') && Spaced(s') && FirstDue(s')
  {
  }

  lemma LogFitsFrame(s: State, s': State)
    requires LogFits(s) && RanFired(s) && s'.core.heap == s.core.heap && s'.log == s.log
    requires s'.phase == s.phase || (s.phase.Idle? && s'.phase.Calling? && s'.phase.next == 0)
    ensures LogFits(s') && RanFired(s')
  {
    assert forall p :: Ran(s', p) <==> Ran(s, p);
  }

  lemma NoneForgottenFrame(s: State, s': State)
    requires NoneForgotten(s)
    requires s'.core.heap == s.core.heap && s'.created == s.created && s'.log == s.log && s'.dropped == s.dropped
    ensures NoneForgotten(s')
  {
    assert forall b :: Gone(s', b) <==> Gone(s, b);
  }

  /** The history depends on the timers, the batch and the log alone. */
  lemma HistoryFrame(s: State, s': State)
    requires History(s)
    requires s'.core.heap == s.core.heap && s'.created == s.created && s'.log == s.log && s'.dropped == s.dropped
    requires s'.clock >= s.clock
    requires s'.phase == s.phase || (s.phase.Idle? && s'.phase.Calling? && s'.phase.next == 0)
    ensures History(s')
  {
    LogFrame(s, s');
    LogFitsFrame(s, s');
    NoneForgottenFrame(s, s');
  }

  lemma AllocationKeepsHistory(s: State, p: Ptr, t: Timer)
    requires Inv(s) && History(s) && p !in s.core.heap && t.birth !in s.created
    ensures History(Allocated(s, p, t))
  {
    assert !Ran(s, p) by {
      assert forall q :: Ran(s, q) ==> InBatch(s, q);
    }
    BirthKeepsHistory(s, Allocated(s, p, t), p, t);
  }

  lemma BirthKeepsHistory(s: State, s': State, p: Ptr, t: Timer)
    requires History(s) && Births(s) && p !in s.core.heap && !Ran(s, p) && t.birth !in s.created
    requires s'.core.heap == s.core.heap[p := t] && s'.created == s.created[t.birth := t]
    requires s'.dropped == s.dropped && s'.log == s.log && s'.phase == s.phase && s'.clock == s.clock
    ensures History(s')
  {
    assert NeverEarly(s') && Spaced(s');
    BirthFitsLog(s, s', p, t);
    BirthIsFirstDue(s, s', p, t);
    BirthForgetsNone(s, s', p, t);
  }

  lemma BirthFitsLog(s: State, s': State, p: Ptr, t: Timer)
    requires NeverEarly(s) && LogFits(s) && RanFired(s) && p !in s.core.heap && !Ran(s, p) && t.birth !in s.created
    requires s'.core.heap == s.core.heap[p := t] && s'.log == s.log && s'.phase == s.phase
    ensures LogFits(s') && RanFired(s')
  {
    assert forall q :: Ran(s', q) <==> Ran(s, q);
    assert forall k :: 0 <= k < |s.log| ==> s.log[k].birth != t.birth;
  }

  lemma BirthIsFirstDue(s: State, s': State, p: Ptr, t: Timer)
    requires NeverEarly(s) && FirstDue(s) && Births(s) && p !in s.core.heap && t.birth !in s.created
    requires s'.core.heap == s.core.heap[p := t] && s'.created == s.created[t.birth := t] && s'.log == s.log
    ensures FirstDue(s')
  {
    assert forall k :: 0 <= k < |s.log| ==> s.log[k].birth in s.created;
  }

  lemma BirthForgetsNone(s: State, s': State, p: Ptr, t: Timer)
    requires NoneForgotten(s) && p !in s.core.heap && t.birth !in s.created
    requires s'.core.heap == s.core.heap[p := t] && s'.created == s.created[t.birth := t]
    requires s'.dropped == s.dropped && s'.log == s.log
    ensures NoneForgotten(s')
  {
    assert !Gone(s', t.birth) by { assert s'.core.heap[p].birth == t.birth; }
    forall b | b in s.created ensures Gone(s', b) <==> Gone(s, b) {
      if q :| q in s.core.heap && s.core.heap[q].birth == b { assert s'.core.heap[q].birth == b; }
    }
  }

  lemma CancelKeepsHistory(s: State, id: TimerId)
    requires Inv(s) && History(s)
    ensures History(Cancelled(s, id))
  {
    if id in s.core.active {
      assert Live(s.core, id.ptr) && !InBatch(s, id.ptr) && !Ran(s, id.ptr);
      FreeingKeepsHistory(s, Cancelled(s, id), id.ptr);
    } else {
      HistoryFrame(s, Cancelled(s, id));
    }
  }

  lemma FreeingKeepsHistory(s: State, s': State, p: Ptr)
    requires History(s) && Births(s) && p in s.core.heap && !Ran(s, p)
    requires s'.core.heap == s.core.heap - {p} && s'.dropped == s.dropped + {s.core.heap[p].birth}
    requires s'.created == s.created && s'.log == s.log && s'.phase == s.phase && s'.clock == s.clock
    ensures History(s')
  {
    assert NeverEarly(s') && Spaced(s');
    FreeingFitsLog(s, s', p);
    FreeingForgetsNone(s, s', p);
  }

  lemma FreeingFitsLog(s: State, s': State, p: Ptr)
    requires LogFits(s) && RanFired(s) && FirstDue(s) && p in s.core.heap && !Ran(s, p)
    requires s'.core.heap == s.core.heap - {p}
    requires s'.created == s.created && s'.log == s.log && s'.phase == s.phase
    ensures LogFits(s') && RanFired(s') && FirstDue(s')
    ensures !s.core.heap[p].Repeats() ==> !Fired(s.log, s.core.heap[p].birth)
  {
    assert forall q :: Ran(s', q) <==> Ran(s, q);
  }

  lemma FreeingForgetsNone(s: State, s': State, p: Ptr)
    requires NoneForgotten(s) && Births(s) && p in s.core.heap
    requires !s.core.heap[p].Repeats() ==> !Fired(s.log, s.core.heap[p].birth)
    requires s'.core.heap == s.core.heap - {p} && s'.dropped == s.dropped + {s.core.heap[p].birth}
    requires s'.created == s.created && s'.log == s.log
    ensures NoneForgotten(s')
  {
    forall b | b in s.created ensures Gone(s', b) <==> Gone(s, b) || b == s.core.heap[p].birth {
      if q :| q in s.core.heap && s.core.heap[q].birth == b && q != p {
        assert q in s'.core.heap;
      }
    }
  }

  lemma FiringExtends(log: seq<Firing>, f: Firing)
    ensures forall b :: Fired(log + [f], b) <==> Fired(log, b) || b == f.birth
    ensures forall k :: 0 <= k < |log| ==> (log + [f])[..k] == log[..k]
    ensures (log + [f])[..|log|] == log
  {
    var log' := log + [f];
    assert log'[|log|].birth == f.birth;
    forall b ensures Fired(log', b) <==> Fired(log, b) || b == f.birth {
      if k :| 0 <= k < |log| && log[k].birth == b { assert log'[k].birth == b; }
    }
  }

  /** The timer about to be called has not been called in this batch, so its last call is an interval away. */
  lemma CallbackIsSpaced(s: State, s': State, p: Ptr, f: Firing)
    requires Spaced(s) && LogFits(s) && Births(s)
    requires p in s.core.heap && !Ran(s, p)
    requires f.birth == s.core.heap[p].birth && f.due == s.core.heap[p].expiration
    requires s.phase.Calling? && f.now == s.phase.now
    requires s' == s.(phase := s.phase.(next := s.phase.next + 1), log := s.log + [f])
    requires Ran(s', p) && forall q :: Ran(s, q) ==> Ran(s', q)
    ensures Spaced(s') && LogFits(s')
  {
    assert forall k :: 0 <= k < |s.log| ==> s'.log[k] == s.log[k];
    forall q, k | q in s'.core.heap && 0 <= k < |s'.log| && s'.log[k].birth == s'.core.heap[q].birth
      ensures (Ran(s', q) && s'.log[k].now == s'.phase.now)
           || (s'.core.heap[q].Repeats()
               && AddTime(s'.log[k].now, s'.core.heap[q].interval) <= s'.core.heap[q].expiration)
    {
      if k == |s.log| { assert q == p; }
    }
  }

  lemma CallbackKeepsHistory(s: State)
    requires Inv(s) && History(s) && Enabled(s, RunCallback)
    ensures History(Step(s, RunCallback))
  {
    var p := s.phase.batch[s.phase.next].ptr;
    var f := Firing(s.core.heap[p].birth, s.phase.batch[s.phase.next].when, s.phase.now, s.clock);
    CallbackRan(s, Step(s, RunCallback));
    CallbackIsSpaced(s, Step(s, RunCallback), p, f);
    FiringIsRecorded(s, Step(s, RunCallback), p, f);
  }

  lemma CallbackRan(s: State, s': State)
    requires s.phase.Calling? && s.phase.next < |s.phase.batch|
    requires forall i, j :: 0 <= i < j < |s.phase.batch| ==> s.phase.batch[i].ptr != s.phase.batch[j].ptr
    requires s'.phase == s.phase.(next := s.phase.next + 1)
    ensures var p := s.phase.batch[s.phase.next].ptr;
      !Ran(s, p) && forall q :: Ran(s', q) <==> Ran(s, q) || q == p
  {
    assert s'.phase.batch[s.phase.next].ptr == s.phase.batch[s.phase.next].ptr;
  }

  lemma FiringIsRecorded(s: State, s': State, p: Ptr, f: Firing)
    requires NeverEarly(s) && RanFired(s) && NoneForgotten(s) && FirstDue(s) && Births(s)
    requires p in s.core.heap && f.birth == s.core.heap[p].birth
    requires f.due == s.core.heap[p].expiration && f.due <= f.now <= f.at == s.clock
    requires s' == s.(phase := s'.phase, log := s.log + [f])
    requires forall q :: Ran(s', q) ==> Ran(s, q) || q == p
    ensures NeverEarly(s') && RanFired(s') && NoneForgotten(s') && FirstDue(s')
  {
    FiringExtends(s.log, f);
    assert forall b :: Gone(s', b) <==> Gone(s, b);
    assert !Gone(s, f.birth);
  }

  /** What settling a batch leaves of the timers. */
  lemma SettledHeap(s: State)
    requires Inv(s) && Enabled(s, EndRead)
    ensures var s' := Step(s, EndRead);
      && s'.log == s.log && s'.phase.Idle?
      && (forall p :: p in s.core.heap && !InBatch(s, p) ==> p in s'.core.heap)
      && forall p :: p in s'.core.heap ==> p in s.core.heap && Settled(s, p, s'.core.heap[p])
  {
    ResetSettles(s.core, Ptrs(s.phase.batch), s.phase.now, s.clock);
    assert forall p :: p in Ptrs(s.phase.batch) <==> InBatch(s, p);
  }

  /** The timer a surviving pointer holds after its batch, or one that was not in the batch. */
  ghost predicate Settled(s: State, p: Ptr, t: Timer)
    requires p in s.core.heap && s.phase.Calling?
  {
    if InBatch(s, p)
    then t == s.core.heap[p].Restart(s.phase.now) && t.Repeats() && s.core.heap[p].expiration <= s.phase.now
    else t == s.core.heap[p]
  }

  lemma SettlingIsSpaced(s: State, s': State)
    requires s.phase.Calling? && s'.log == s.log && LogFits(s)
    requires forall p :: p in s'.core.heap ==> p in s.core.heap && Settled(s, p, s'.core.heap[p])
    ensures LogFits(s')
  {
    forall p, k | p in s'.core.heap && 0 <= k < |s'.log| && s'.log[k].birth == s'.core.heap[p].birth
      ensures s'.core.heap[p].Repeats()
           && AddTime(s'.log[k].now, s'.core.heap[p].interval) <= s'.core.heap[p].expiration
    {
      assert Ran(s, p) ==> InBatch(s, p);
      if InBatch(s, p) {
        AddTimeMovesForward(s.phase.now, s.core.heap[p].interval);
      }
    }
  }

  lemma SettlingKeepsHistory(s: State)
    requires Inv(s) && History(s) && Enabled(s, EndRead)
    ensures History(Step(s, EndRead))
  {
    var s' := Step(s, EndRead);
    SettledHeap(s);
    SettlingIsSpaced(s, s');
    assert forall p :: InBatch(s, p) ==> Ran(s, p);
    SettlingIsRecorded(s, s');
  }

  lemma SettlingIsRecorded(s: State, s': State)
    requires s.phase.Calling? && s'.phase.Idle?
    requires NeverEarly(s) && Spaced(s) && RanFired(s) && FirstDue(s) && NoneForgotten(s)
    requires s'.log == s.log && s'.created == s.created && s'.dropped == s.dropped && s'.clock == s.clock
    requires forall p :: p in s.core.heap && !InBatch(s, p) ==> p in s'.core.heap
    requires forall p :: p in s'.core.heap ==> p in s.core.heap && Settled(s, p, s'.core.heap[p])
    requires forall p :: InBatch(s, p) ==> p in s.core.heap && Ran(s, p)
    ensures NeverEarly(s') && Spaced(s') && RanFired(s') && NoneForgotten(s') && FirstDue(s')
  {
    assert RanFired(s');
    assert FirstDue(s') by {
      forall p | p in s'.core.heap && !Fired(s'.log, s'.core.heap[p].birth)
        ensures s'.core.heap[p] == s.core.heap[p]
      {
        assert !InBatch(s, p);
      }
    }
    SettlingForgetsNone(s, s');
  }

  lemma SettlingForgetsNone(s: State, s': State)
    requires NoneForgotten(s) && RanFired(s)
    requires s'.log == s.log && s'.created == s.created && s'.dropped == s.dropped && s.phase.Calling?
    requires forall p :: p in s.core.heap && !InBatch(s, p) ==> p in s'.core.heap
    requires forall p :: p in s'.core.heap ==> p in s.core.heap && s'.core.heap[p].birth == s.core.heap[p].birth
    requires forall p :: InBatch(s, p) ==> p in s.core.heap && Ran(s, p)
    ensures NoneForgotten(s')
  {
    assert forall b :: Gone(s, b) ==> Gone(s', b);
    forall b | b in s.created && Gone(s', b) && b !in s.dropped ensures Fired(s.log, b) {
      if p :| p in s.core.heap && s.core.heap[p].birth == b {
        assert InBatch(s, p);
      }
    }
  }

  lemma FunctorKeepsHistory(s: State)
    requires Inv(s) && History(s) && Enabled(s, RunFunctor)
    ensures History(Step(s, RunFunctor))
  {
    RunFunctorKeepsInv(s);
    var s1 := s.(functors := s.functors[1..]);
    HistoryFrame(s, s1);
    match s.functors[0] {
      case AddIn(p) => HistoryFrame(s1, Step(s, RunFunctor));
      case CancelIn(id) => CancelKeepsHistory(s1, id);
    }
  }

  lemma StepKeepsHistory(s: State, e: Event)
    requires Inv(s) && History(s) && Enabled(s, e)
    ensures History(Step(s, e))
  {
    match e
    case Tick(_) => HistoryFrame(s, Step(s, e));
    case New(p, when, interval, _, birth) =>
      AllocationKeepsHistory(s, p, Timer(when, interval, birth));
      HistoryFrame(Allocated(s, p, Timer(when, interval, birth)), Step(s, e));
    case Cancel(id, inLoop) =>
      if inLoop { CancelKeepsHistory(s, id); } else { HistoryFrame(s, Step(s, e)); }
    case RunFunctor => FunctorKeepsHistory(s);
    case BeginRead(_) => HistoryFrame(s, Step(s, e));
    case RunCallback => CallbackKeepsHistory(s);
    case EndRead => SettlingKeepsHistory(s);
  }

  lemma {:induction false} RunKeepsHistory(s: State, es: seq<Event>)
    requires Inv(s) && History(s) && IsRun(s, es)
    ensures History(After(s, es))
    decreases |es|
  {
    if es != [] {
      StepKeepsInv(s, es[0]);
      StepKeepsHistory(s, es[0]);
      RunKeepsHistory(Step(s, es[0]), es[1..]);
    }
  }

  /**
    In every run: no callback runs before its timer is due, which for the first call is the time its
    creator asked for; a timer called twice repeats, and is due again only a full interval, in whole
    microseconds, after the batch it was called in.
   */
  lemma CallbacksAreOnTime(start: Timestamp, es: seq<Event>, k: nat)
    requires Valid(start) && IsRun(Init(start), es)
    requires k < |After(Init(start), es).log|
    ensures var s := After(Init(start), es); var f := s.log[k];
      && f.birth in s.created && f.due <= f.now <= f.at
      && (!Fired(s.log[..k], f.birth) ==> f.due == s.created[f.birth].expiration)
      && forall j :: 0 <= j < k && s.log[j].birth == f.birth ==>
           && s.created[f.birth].Repeats() && s.log[j].now <= f.due
           && s.created[f.birth].interval * 1_000_000.0 < (f.due - s.log[j].now + 1) as real
  {
    RunKeepsHistory(Init(start), es);
    var s := After(Init(start), es);
    forall j | 0 <= j < k && s.log[j].birth == s.log[k].birth
      ensures s.created[s.log[k].birth].Repeats() && s.log[j].now <= s.log[k].due
      ensures s.created[s.log[k].birth].interval * 1_000_000.0 < (s.log[k].due - s.log[j].now + 1) as real
    {
      AddTimeCountsMicros(s.log[j].now, s.created[s.log[k].birth].interval);
    }
  }

  /**
    In every run, a one-shot timer runs at most once; when it is no longer allocated it ran exactly
    once, or a cancel freed it first and it never ran.
   */
  lemma OneShotRunsOnce(start: Timestamp, es: seq<Event>, b: nat)
    requires Valid(start) && IsRun(Init(start), es)
    requires var s := After(Init(start), es); b in s.created && !s.created[b].Repeats()
    ensures var s := After(Init(start), es);
      && (forall j, k :: 0 <= j < k < |s.log| ==> !(s.log[j].birth == s.log[k].birth == b))
      && (Gone(s, b) ==> (Fired(s.log, b) <==> b !in s.dropped))
  {
    RunKeepsHistory(Init(start), es);
  }

  /** A batch member that repeats and was not cancelled goes on from the time of its batch; the others are freed. */
  lemma Rescheduling(s: State, p: Ptr)
    requires Inv(s) && Enabled(s, EndRead) && InBatch(s, p)
    ensures var s', t := Step(s, EndRead), s.core.heap[p];
      && (p in s'.core.heap <==> t.Repeats() && IdOf(s.core, p) !in s.core.canceling)
      && (p in s'.core.heap ==>
           && Live(s'.core, p)
           && s'.core.heap[p] == t.(expiration := s'.core.heap[p].expiration)
           && t.expiration <= s.phase.now <= s'.core.heap[p].expiration
           && var micros := s'.core.heap[p].expiration - s.phase.now;
              micros as real <= t.interval * 1_000_000.0 < (micros + 1) as real)
  {
    var batch := Ptrs(s.phase.batch);
    ResetSettles(s.core, batch, s.phase.now, s.clock);
    BatchMemberIsDue(s, p);
    ResettledTimer(s.core, batch, s.phase.now, p);
  }

  lemma BatchMemberIsDue(s: State, p: Ptr)
    requires BatchKeys(s) && InBatch(s, p)
    ensures p in s.core.heap && s.core.heap[p].expiration <= s.phase.now
  {
    var i :| 0 <= i < |s.phase.batch| && s.phase.batch[i].ptr == p;
  }

  lemma ResettledTimer(c: Core, batch: set<Ptr>, now: Timestamp, p: Ptr)
    requires p in batch && p in c.heap
    ensures var c' := Resettled(c, batch, now); var t := c.heap[p];
      && (p in c'.heap <==> Survives(c, p))
      && (p in c'.heap ==>
           && c'.heap[p] == t.(expiration := c'.heap[p].expiration) && Live(c', p)
           && now <= c'.heap[p].expiration
           && var micros := c'.heap[p].expiration - now;
              micros as real <= t.interval * 1_000_000.0 < (micros + 1) as real)
  {
    if Survives(c, p) {
      AddTimeMovesForward(now, c.heap[p].interval);
      assert EntryOf(Resettled(c, batch, now), p) == Entry(c.heap[p].Restart(now).expiration, p);
    }
  }
}
