/** The timer queue as the source writes it: two indexes updated in place, loops over the expired batch. */
module TimerQueues {
  import opened Timestamps
  import opened Timers
  import opened TimerRuns

  /** The position of the first entry not before (when, ptr); `ptr` may be the sentry's, which is no address. */
  function LowerBound(s: seq<Entry>, when: Timestamp, ptr: int): (k: nat)
    requires Sorted(s)
    ensures k <= |s|
    ensures forall i :: 0 <= i < k ==> s[i].when < when || (s[i].when == when && s[i].ptr < ptr)
    ensures forall i :: k <= i < |s| ==> s[i].when > when || (s[i].when == when && s[i].ptr >= ptr)
  {
    if s == [] then 0
    else if s[0].when < when || (s[0].when == when && s[0].ptr < ptr) then 1 + LowerBound(s[1..], when, ptr)
    else 0
  }

  function Elements(s: seq<Entry>): set<Entry> {
    set e | e in s
  }

  lemma {:induction false} SortedHasNoDuplicates(s: seq<Entry>)
    requires Sorted(s)
    ensures |Elements(s)| == |s|
  {
    if s != [] {
      SortedHasNoDuplicates(s[1..]);
      assert Elements(s) == {s[0]} + Elements(s[1..]);
      assert s[0] !in s[1..];
    }
  }

  lemma ElementsOfParts(a: seq<Entry>, b: seq<Entry>)
    ensures Elements(a + b) == Elements(a) + Elements(b)
  {
    assert forall x :: x in a + b <==> x in a || x in b;
  }

  /** `insert` of an ordered set: the entry goes to its place, and to no other. */
  lemma InsertAt(s: seq<Entry>, e: Entry) returns (k: nat)
    requires Sorted(s) && e !in s
    ensures k == LowerBound(s, e.when, e.ptr)
    ensures Sorted(s[..k] + [e] + s[k..])
    ensures Elements(s[..k] + [e] + s[k..]) == Elements(s) + {e}
  {
    k := LowerBound(s, e.when, e.ptr);
    InsertSorted(s, e, k);
    InsertElements(s, e, k);
  }

  lemma InsertElements(s: seq<Entry>, e: Entry, k: nat)
    requires k <= |s|
    ensures Elements(s[..k] + [e] + s[k..]) == Elements(s) + {e}
  {
    assert s == s[..k] + s[k..];
    ElementsOfParts(s[..k], s[k..]);
    ElementsOfParts(s[..k], [e]);
    ElementsOfParts(s[..k] + [e], s[k..]);
  }

  lemma InsertSorted(s: seq<Entry>, e: Entry, k: nat)
    requires Sorted(s) && k <= |s|
    requires forall i :: 0 <= i < k ==> Precedes(s[i], e)
    requires forall i :: k <= i < |s| ==> s[i] == e || Precedes(e, s[i])
    requires forall i :: 0 <= i < |s| ==> s[i] != e
    ensures Sorted(s[..k] + [e] + s[k..])
  {
    var r := s[..k] + [e] + s[k..];
    forall i, j | 0 <= i < j < |r| ensures Precedes(r[i], r[j]) {
      if j < k {
        assert Precedes(s[i], s[j]);
      } else if i > k {
        assert Precedes(s[i - 1], s[j - 1]);
      }
    }
  }

  /** `erase` by value: the lower bound finds the entry, and only that one leaves. */
  lemma EraseAt(s: seq<Entry>, e: Entry) returns (k: nat)
    requires Sorted(s) && e in s
    ensures k == LowerBound(s, e.when, e.ptr)
    ensures k < |s| && s[k] == e
    ensures Sorted(s[..k] + s[k + 1..])
    ensures Elements(s[..k] + s[k + 1..]) == Elements(s) - {e}
  {
    k := LowerBound(s, e.when, e.ptr);
    var i :| 0 <= i < |s| && s[i] == e;
    assert k == i by {
      assert k < i ==> Precedes(s[k], s[i]);
    }
    RemoveSorted(s, k);
    RemoveElements(s, k);
  }

  lemma RemoveSorted(s: seq<Entry>, k: nat)
    requires Sorted(s) && k < |s|
    ensures Sorted(s[..k] + s[k + 1..])
  {
    var r := s[..k] + s[k + 1..];
    forall i, j | 0 <= i < j < |r| ensures Precedes(r[i], r[j]) {
      assert r[i] == s[if i < k then i else i + 1] && r[j] == s[if j < k then j else j + 1];
    }
  }

  lemma RemoveElements(s: seq<Entry>, k: nat)
    requires Sorted(s) && k < |s|
    ensures Elements(s[..k] + s[k + 1..]) == Elements(s) - {s[k]}
  {
    var r := s[..k] + s[k + 1..];
    forall x ensures x in r <==> x in s && x != s[k] {
      if i :| 0 <= i < |r| && r[i] == x {
        var j := if i < k then i else i + 1;
        assert s[j] == x && (Precedes(s[j], s[k]) || Precedes(s[k], s[j]));
      }
      if j :| 0 <= j < |s| && s[j] == x && j != k {
        assert r[if j < k then j else j - 1] == x;
      }
    }
  }

  /** Everything before the sentry is due, and nothing after it is. */
  lemma SplitAtSentry(s: seq<Entry>, now: Timestamp) returns (k: nat)
    requires Sorted(s)
    ensures k == LowerBound(s, now, UINTPTR_MAX)
    ensures k == |s| || now < s[k].when
    ensures Sorted(s[..k]) && Sorted(s[k..])
    ensures forall e :: e in s[..k] <==> e in s && e.when <= now
    ensures Elements(s[k..]) == set e | e in s && e.when > now
  {
    k := LowerBound(s, now, UINTPTR_MAX);
    assert s == s[..k] + s[k..];
    assert forall e :: e in s <==> e in s[..k] || e in s[k..];
  }

  predicate EarlierIn(batch: seq<Entry>, n: nat, p: Ptr)
    requires n <= |batch|
  {
    exists j :: 0 <= j < n && batch[j].ptr == p
  }

  lemma EarlierIsDue(c: Core, now: Timestamp, batch: seq<Entry>)
    requires IndexAgreement(c) && IsBatch(c, now, batch)
    ensures forall p :: EarlierIn(batch, |batch|, p) <==> Due(c, p, now)
  {
    forall p ensures EarlierIn(batch, |batch|, p) <==> Due(c, p, now) {
      if Due(c, p, now) { assert EntryOf(c, p) in batch; }
      if j :| 0 <= j < |batch| && batch[j].ptr == p { assert batch[j] in batch; }
    }
  }

  lemma ExpiredIsActive(c: Core, now: Timestamp, batch: seq<Entry>)
    requires IndexAgreement(c) && IsBatch(c, now, batch)
    ensures forall i :: 0 <= i < |batch| ==> Live(c, batch[i].ptr) && IdOf(c, batch[i].ptr) in c.active
    ensures forall i, j :: 0 <= i < j < |batch| ==> batch[i].ptr != batch[j].ptr
  {
    forall i | 0 <= i < |batch| ensures batch[i] in c.timers {
      assert batch[i] in batch;
    }
  }

  /** Erasing the batch from both indexes is extracting what is due. */
  lemma ExtractionAgrees(c: Core, now: Timestamp, batch: seq<Entry>, c': Core)
    requires IndexAgreement(c) && IsBatch(c, now, batch)
    requires c'.heap == c.heap && c'.armedAt == c.armedAt
    requires c'.timers == set e | e in c.timers && e.when > now
    requires c'.active == set a | a in c.active && !EarlierIn(batch, |batch|, a.ptr)
    ensures IndexAgreement(c')
    ensures c' == Extracted(c, now).(alarm := c'.alarm, canceling := c'.canceling)
  {
    EarlierIsDue(c, now, batch);
    ExtractKeepsAgreement(c, now);
    var x := Extracted(c, now);
    assert c'.timers == x.timers && c'.active == x.active;
    assert forall p :: Live(c', p) <==> Live(x, p);
  }

  /** What becomes of one member of the batch. */
  function SettledOne(c: Core, p: Ptr, now: Timestamp): Core
    requires p in c.heap
  {
    if Survives(c, p) then Inserted(c.(heap := c.heap[p := c.heap[p].Restart(now)]), p)
    else c.(heap := c.heap - {p})
  }

  /** Settling a batch one member at a time. */
  lemma ResettledGrows(c: Core, batch: set<Ptr>, p: Ptr, now: Timestamp)
    requires IndexAgreement(c) && p in c.heap && p !in batch && !Live(c, p)
    ensures var c' := Resettled(c, batch, now);
      && p in c'.heap && c'.heap[p] == c.heap[p] && (Survives(c', p) <==> Survives(c, p))
      && !Live(c', p)
      && Resettled(c, batch + {p}, now) == SettledOne(c', p, now)
  {
    var c' := Resettled(c, batch, now);
    assert forall e :: e in c'.timers && e.ptr == p ==> e in c.timers;
    var r := Resettled(c, batch + {p}, now);
    if Survives(c, p) {
      var t := c.heap[p].Restart(now);
      var x := Inserted(c'.(heap := c'.heap[p := t]), p);
      assert r.heap == x.heap;
      assert r.timers == x.timers;
      assert r.active == x.active;
    } else {
      assert r.heap == c'.heap - {p};
      assert r.timers == c'.timers;
      assert r.active == c'.active;
    }
  }

  lemma ResettledGrowsTo(c: Core, batch: seq<Entry>, i: nat, now: Timestamp)
    requires IndexAgreement(c) && i < |batch|
    requires forall k :: 0 <= k < |batch| ==> batch[k].ptr in c.heap && !Live(c, batch[k].ptr)
    requires forall j, k :: 0 <= j < k < |batch| ==> batch[j].ptr != batch[k].ptr
    ensures var c', p := Resettled(c, Ptrs(batch[..i]), now), batch[i].ptr;
      && p in c'.heap && !Live(c', p)
      && Resettled(c, Ptrs(batch[..i + 1]), now) == SettledOne(c', p, now)
  {
    assert Ptrs(batch[..i + 1]) == Ptrs(batch[..i]) + {batch[i].ptr};
    ResettledGrows(c, Ptrs(batch[..i]), batch[i].ptr, now);
  }

  /** The alarm set for the first of the queue, unless that is no valid timestamp or there is none. */
  function SetForNext(timers: seq<Entry>, clock: Timestamp, alarm: Alarm): Alarm {
    if timers != [] && Valid(timers[0].when) then Armed(Later(timers[0].when, clock + MIN_DELAY)) else alarm
  }

  class TimerQueue {
    var heap: map<Ptr, Timer>
    var timers: seq<Entry>
    var activeTimers: set<TimerId>
    var callingExpiredTimers: bool
    var cancelingTimers: set<TimerId>
    var timerfd: Alarm
    var clock: Timestamp          // what `Timestamp::now()` returns
    var functors: seq<Closure>    // what `runInLoop` has queued for the loop thread

    ghost var armedAt: Timestamp
    ghost var run: State          // the run this queue is in

    ghost function Abs(): Core
      reads this
    {
      Core(heap, Elements(timers), activeTimers, cancelingTimers, timerfd, armedAt)
    }

    ghost predicate Valid()
      reads this
    {
      Sorted(timers) && IndexAgreement(Abs())
    }

    /** The queue is where its run says it is. */
    ghost predicate Tracks()
      reads this
    {
      && Valid() && Inv(run)
      && run.core == Abs() && run.clock == clock && run.functors == functors
      && (run.phase.Calling? <==> callingExpiredTimers)
    }

    constructor (now: Timestamp)
      requires Timestamps.Valid(now)
      ensures Tracks() && run == Init(now)
    {
      heap, timers, activeTimers := map[], [], {};
      callingExpiredTimers, cancelingTimers, timerfd := false, {}, Disarmed;
      clock, functors, armedAt, run := now, [], now, Init(now);
    }

    lemma SameSizes()
      requires Valid()
      ensures |timers| == |activeTimers|
    {
      SortedHasNoDuplicates(timers);
      SizesAgree(Abs());
    }

    method ResetTimerfd(expiration: Timestamp, clock: Timestamp)
      modifies this`timerfd, this`armedAt
      ensures Abs() == Rearmed(old(Abs()), expiration, clock)
      ensures timerfd == Armed(Later(expiration, clock + MIN_DELAY))
    {
      ResetArms(expiration, clock);
      timerfd := SetTime(HowMuchTimeFromNow(expiration, clock), clock);
      armedAt := clock;
    }

    method Insert(timer: Ptr) returns (earliestChanged: bool)
      requires Valid() && timer in heap && !Live(Abs(), timer)
      modifies this`timers, this`activeTimers
      ensures Valid() && Abs() == Inserted(old(Abs()), timer)
      ensures earliestChanged <==> BeforeAll(old(Abs()), heap[timer].expiration)
    {
      SameSizes();
      ghost var before := Abs();
      var when := heap[timer].expiration;
      earliestChanged := timers == [] || when < timers[0].when;
      assert timers != [] ==> timers[0] in before.timers;
      assert earliestChanged <==> BeforeAll(before, when);
      InsertKeepsAgreement(before, timer);
      assert Entry(when, timer) !in timers;                            // result.second
      assert TimerId(timer, heap[timer].Sequence()) !in activeTimers;  // result.second
      var k := LowerBound(timers, when, timer);
      var _ := InsertAt(timers, Entry(when, timer));
      timers := timers[..k] + [Entry(when, timer)] + timers[k..];
      activeTimers := activeTimers + {TimerId(timer, heap[timer].Sequence())};
      assert Abs() == Inserted(before, timer);
      SameSizes();
    }

    method AddTimerInLoop(timer: Ptr, clock: Timestamp)
      requires Valid() && timer in heap && !Live(Abs(), timer)
      modifies this`timers, this`activeTimers, this`timerfd, this`armedAt
      ensures Valid() && Abs() == AddInLoop(old(Abs()), timer, clock)
    {
      var earliestChanged := Insert(timer);
      if earliestChanged {
        ghost var inserted := Abs();
        ResetTimerfd(heap[timer].expiration, clock);
        assert forall p :: Live(Abs(), p) <==> Live(inserted, p);
      }
    }

    /** A constructed timer comes to an address the allocator chooses. */
    method NewTimer(address: Ptr, timer: Timer)
      requires Valid() && address !in heap
      modifies this`heap
      ensures Valid() && Abs() == old(Abs()).(heap := old(heap)[address := timer])
    {
      AllocationKeepsAgreement(Abs(), address, timer);
      heap := heap[address := timer];
    }

    method CancelInLoop(timerId: TimerId)
      requires Valid()
      modifies this`heap, this`timers, this`activeTimers, this`cancelingTimers
      ensures Valid() && Abs() == Timers.CancelInLoop(old(Abs()), timerId, callingExpiredTimers)
    {
      SameSizes();
      if timerId in activeTimers {
        EraseLive(timerId);
      } else if callingExpiredTimers {
        cancelingTimers := cancelingTimers + {timerId};
      }
      SameSizes();
    }

    /** A live timer leaves both indexes, from the ordered one as the entry of its current expiration, and is freed. */
    method EraseLive(timerId: TimerId)
      requires Valid() && timerId in activeTimers
      modifies this`heap, this`timers, this`activeTimers
      ensures Valid() && Abs() == Timers.CancelInLoop(old(Abs()), timerId, callingExpiredTimers)
    {
      ghost var before := Abs();
      CancelKeepsAgreement(before, timerId, callingExpiredTimers);
      var entry := Entry(heap[timerId.ptr].expiration, timerId.ptr);
      assert entry in before.timers;
      var k := LowerBound(timers, entry.when, entry.ptr);
      var _ := EraseAt(timers, entry);  // n == 1
      timers := timers[..k] + timers[k + 1..];
      heap := heap - {timerId.ptr};
      activeTimers := activeTimers - {timerId};
      assert Abs() == Timers.CancelInLoop(before, timerId, callingExpiredTimers);
    }

    /** The loop of `getExpired` over the other index. */
    method EraseActive(expired: seq<Entry>)
      requires forall i :: 0 <= i < |expired| ==>
                 expired[i].ptr in heap && TimerId(expired[i].ptr, heap[expired[i].ptr].Sequence()) in activeTimers
      requires forall i, j :: 0 <= i < j < |expired| ==> expired[i].ptr != expired[j].ptr
      requires forall a :: a in activeTimers ==> a.ptr in heap && a.sequence == heap[a.ptr].Sequence()
      modifies this`activeTimers
      ensures activeTimers == set a | a in old(activeTimers) && !EarlierIn(expired, |expired|, a.ptr)
    {
      var i := 0;
      while i < |expired|
        invariant 0 <= i <= |expired|
        invariant forall a :: a in activeTimers <==> a in old(activeTimers) && !EarlierIn(expired, i, a.ptr)
      {
        var timer := TimerId(expired[i].ptr, heap[expired[i].ptr].Sequence());
        assert timer in activeTimers;  // n == 1
        activeTimers := activeTimers - {timer};
        assert forall p :: EarlierIn(expired, i + 1, p) <==> EarlierIn(expired, i, p) || p == timer.ptr;
        i := i + 1;
      }
    }

    method GetExpired(now: Timestamp) returns (expired: seq<Entry>)
      requires Valid()
      modifies this`timers, this`activeTimers
      ensures Valid() && IsBatch(old(Abs()), now, expired)
      ensures Abs() == Extracted(old(Abs()), now).(alarm := timerfd, canceling := cancelingTimers)
    {
      SameSizes();
      ghost var before := Abs();
      var end := LowerBound(timers, now, UINTPTR_MAX);
      var _ := SplitAtSentry(timers, now);
      assert end == |timers| || now < timers[end].when;
      expired := timers[..end];
      timers := timers[end..];
      ExpiredIsActive(before, now, expired);
      EraseActive(expired);
      ExtractionAgrees(before, now, expired, Abs());
      SameSizes();
    }

    /** One turn of the loop of `reset`. */
    method Settle(p: Ptr, now: Timestamp)
      requires Valid() && p in heap && !Live(Abs(), p)
      modifies this`heap, this`timers, this`activeTimers
      ensures Valid() && Abs() == SettledOne(old(Abs()), p, now)
    {
      if heap[p].Repeats() && TimerId(p, heap[p].Sequence()) !in cancelingTimers {
        AllocationIsHarmless(p, heap[p].Restart(now));
        heap := heap[p := heap[p].Restart(now)];
        var _ := Insert(p);
      } else {
        FreeingIsHarmless(p);
        heap := heap - {p};
      }
    }

    method Reset(expired: seq<Entry>, now: Timestamp, clock: Timestamp)
      requires Valid()
      requires forall i :: 0 <= i < |expired| ==> expired[i].ptr in heap && !Live(Abs(), expired[i].ptr)
      requires forall i, j :: 0 <= i < j < |expired| ==> expired[i].ptr != expired[j].ptr
      modifies this`heap, this`timers, this`activeTimers, this`timerfd, this`armedAt
      ensures Valid() && Abs() == Timers.Reset(old(Abs()), Ptrs(expired), now, clock)
      ensures timerfd == SetForNext(timers, clock, old(timerfd))
    {
      ghost var before := Abs();
      var i := 0;
      assert Ptrs(expired[..0]) == {} && Resettled(before, {}, now) == before;
      while i < |expired|
        invariant 0 <= i <= |expired|
        invariant Valid() && Abs() == Resettled(before, Ptrs(expired[..i]), now)
        modifies this`heap, this`timers, this`activeTimers
      {
        ResettledGrowsTo(before, expired, i, now);
        Settle(expired[i].ptr, now);
        i := i + 1;
      }
      assert expired[..i] == expired;
      RearmForNext(clock);
    }

    /** The end of `reset`. */
    method RearmForNext(clock: Timestamp)
      requires Valid()
      modifies this`timerfd, this`armedAt
      ensures Valid()
      ensures var next := NextExpiration(Elements(timers));
        Abs() == if Timestamps.Valid(next) then Rearmed(old(Abs()), next, clock) else old(Abs())
      ensures timerfd == SetForNext(timers, clock, old(timerfd))
    {
      var nextExpire := INVALID;
      if timers != [] {
        assert timers[0] in Elements(timers);
        nextExpire := heap[timers[0].ptr].expiration;
        assert IsFirst(Elements(timers), timers[0]);
      }
      assert nextExpire == NextExpiration(Elements(timers));
      if Timestamps.Valid(nextExpire) {
        ghost var settled := Abs();
        ResetTimerfd(nextExpire, clock);
        assert forall p :: Live(Abs(), p) <==> Live(settled, p);
      }
    }

    lemma FreeingIsHarmless(p: Ptr)
      requires Valid() && p in heap && !Live(Abs(), p)
      ensures IndexAgreement(Abs().(heap := heap - {p}))
    {
      var c := Abs().(heap := heap - {p});
      assert forall e :: e in c.timers ==> e.ptr != p;
      assert forall q :: q != p ==> (Live(c, q) <==> Live(Abs(), q));
    }

    /** A timer in no index may change its expiration. */
    lemma AllocationIsHarmless(p: Ptr, t: Timer)
      requires Valid() && p in heap && !Live(Abs(), p)
      ensures var c := Abs().(heap := heap[p := t]); IndexAgreement(c) && !Live(c, p)
    {
      var c := Abs().(heap := heap[p := t]);
      assert forall e :: e in c.timers ==> e.ptr != p;
      assert forall q :: q != p ==> (Live(c, q) <==> Live(Abs(), q));
    }

    // --- what users and the loop call ---------------------------------------------------------

    /** `addTimer`, not interrupted. */
    method AddTimer(counter: TimerCounter, address: Ptr, when: Timestamp, interval: real, inLoop: bool)
      returns (id: TimerId)
      requires Tracks() && address !in heap
      requires forall b :: b in run.created ==> b < counter.numCreated
      modifies this, counter
      ensures Tracks() && run == Step(old(run), New(address, when, interval, inLoop, old(counter.numCreated)))
      ensures id == IdOf(run.core, address)
      ensures forall b :: b in run.created ==> b < counter.numCreated
    {
      Submit(counter, address, when, interval, inLoop);
      id := ReadId(address);
    }

    /** Its first part: `counter` numbers the timers of all queues, so this one's are among those it has numbered. */
    method Submit(counter: TimerCounter, address: Ptr, when: Timestamp, interval: real, inLoop: bool)
      requires Tracks() && address !in heap
      requires forall b :: b in run.created ==> b < counter.numCreated
      modifies this, counter
      ensures Tracks() && address in heap
      ensures run == Step(old(run), New(address, when, interval, inLoop, old(counter.numCreated)))
      ensures forall b :: b in run.created ==> b < counter.numCreated
    {
      var timer := counter.Construct(when, interval);
      HandOver(address, timer, inLoop);
    }

    /** Its second part, later: the timer must still be allocated. */
    method ReadId(timer: Ptr) returns (id: TimerId)
      requires Tracks() && timer in heap
      ensures id == IdOf(run.core, timer)
    {
      id := TimerId(timer, heap[timer].Sequence());
    }

    /** The new timer at its address goes to `runInLoop(addTimerInLoop)`. */
    method HandOver(address: Ptr, timer: Timer, inLoop: bool)
      requires Tracks() && address !in heap && timer.birth !in run.created
      modifies this
      ensures Tracks() && address in heap && heap[address] == timer
      ensures run == Step(old(run), New(address, timer.expiration, timer.interval, inLoop, timer.birth))
      ensures run.created == old(run.created)[timer.birth := timer]
    {
      ghost var e := New(address, timer.expiration, timer.interval, inLoop, timer.birth);
      StepKeepsInv(run, e);
      AllocatedIsOwnerless(run, address, timer);
      NewTimer(address, timer);
      if inLoop {
        AddTimerInLoop(address, clock);
      } else {
        functors := functors + [AddIn(address)];
      }
      run := Step(run, e);
    }

    method Cancel(id: TimerId, inLoop: bool)
      requires Tracks()
      modifies this
      ensures Tracks() && run == Step(old(run), TimerRuns.Cancel(id, inLoop))
    {
      ghost var e := TimerRuns.Cancel(id, inLoop);
      StepKeepsInv(run, e);
      if inLoop {
        CancelInLoop(id);
      } else {
        functors := functors + [CancelIn(id)];
      }
      run := Step(run, e);
    }

    /** The loop thread runs the next queued closure. */
    method RunFunctor()
      requires Tracks() && run.phase.Idle? && functors != []
      modifies this
      ensures Tracks() && run == Step(old(run), TimerRuns.RunFunctor)
    {
      StepKeepsInv(run, TimerRuns.RunFunctor);
      FunctorTarget(run);
      Call(functors[0]);
      functors := functors[1..];
      run := Step(run, TimerRuns.RunFunctor);
    }

    method Call(functor: Closure)
      requires Valid() && !callingExpiredTimers
      requires functor.AddIn? ==> functor.ptr in heap && !Live(Abs(), functor.ptr)
      modifies this`heap, this`timers, this`activeTimers, this`cancelingTimers, this`timerfd, this`armedAt
      ensures Valid()
      ensures Abs() == match functor
                       case AddIn(p) => AddInLoop(old(Abs()), p, clock)
                       case CancelIn(id) => Timers.CancelInLoop(old(Abs()), id, false)
    {
      match functor
      case AddIn(p) => AddTimerInLoop(p, clock);
      case CancelIn(id) => CancelInLoop(id);
    }

    /** An expiry that has happened is read, and so used up; before that there is nothing to read. */
    method ReadTimerfd(now: Timestamp)
      requires Valid()
      modifies this`timerfd
      ensures Valid() && !timerfd.Readable(now)
      ensures timerfd == if old(timerfd).Readable(now) then Disarmed else old(timerfd)
      ensures Extracted(Abs(), now) == Extracted(old(Abs()), now)
    {
      ReadingChangesNoIndex(Abs(), if timerfd.Readable(now) then Disarmed else timerfd, now);
      if timerfd.Readable(now) { timerfd := Disarmed; }
    }

    /** `handleRead` up to the first callback. */
    method BeginHandling() returns (expired: seq<Entry>)
      requires Tracks() && run.phase.Idle?
      modifies this
      ensures Tracks() && Enabled(old(run), BeginRead(expired)) && run == Step(old(run), BeginRead(expired))
      ensures !timerfd.Readable(clock) && callingExpiredTimers && cancelingTimers == {}
    {
      var now := clock;
      ReadTimerfd(now);
      expired := GetExpired(now);
      callingExpiredTimers := true;
      cancelingTimers := {};
      assert Abs() == Extracted(old(Abs()), now);
      StepKeepsInv(run, BeginRead(expired));
      run := Step(run, BeginRead(expired));
    }

    /** `handleRead` after the last callback. */
    method EndHandling(expired: seq<Entry>, now: Timestamp)
      requires Tracks() && Enabled(run, EndRead) && run.phase.batch == expired && run.phase.now == now
      modifies this
      ensures Tracks() && run == Step(old(run), EndRead)
      ensures timerfd == SetForNext(timers, clock, old(timerfd))
    {
      StepKeepsInv(run, EndRead);
      BatchIsOurs(run);
      ghost var next := Step(run, EndRead);
      callingExpiredTimers := false;
      Reset(expired, now, clock);
      run := next;
    }

    /** What may happen while a callback runs: it adds and cancels timers, so do other threads, and time passes. */
    method Perform(e: Event)
      requires Tracks() && Enabled(run, e) && (e.Tick? || e.New? || e.Cancel?)
      modifies this
      ensures Tracks() && run == Step(old(run), e)
    {
      match e
      case Tick(micros) =>
        StepKeepsInv(run, e);
        clock := clock + micros;
        run := Step(run, e);
      case New(address, when, interval, inLoop, birth) => HandOver(address, Timer(when, interval, birth), inLoop);
      case Cancel(id, inLoop) => Cancel(id, inLoop);
    }

    method PerformAll(events: seq<Event>)
      requires Tracks() && IsRun(run, events)
      requires forall j :: 0 <= j < |events| ==> events[j].Tick? || events[j].New? || events[j].Cancel?
      modifies this
      ensures Tracks() && run == After(old(run), events) && run.phase == old(run.phase)
    {
      var j := 0;
      assert events[0..] == events;
      while j < |events|
        invariant 0 <= j <= |events|
        invariant Tracks() && run.phase == old(run.phase)
        invariant IsRun(run, events[j..]) && After(run, events[j..]) == After(old(run), events)
      {
        assert events[j..][1..] == events[j + 1..];
        Perform(events[j]);
        j := j + 1;
      }
    }

    /** One turn of the loop of `handleRead`: a callback, and what happens while it runs. */
    method RunCallback(expired: seq<Entry>, i: nat, now: Timestamp, script: seq<seq<Event>>)
      requires Tracks() && i < |expired| && run.phase == Calling(expired, i, now)
      requires IsRun(run, Calls(script, i, |expired|) + [EndRead])
      requires i < |script| ==>
                 forall j :: 0 <= j < |script[i]| ==> script[i][j].Tick? || script[i][j].New? || script[i][j].Cancel?
      modifies this
      ensures Tracks() && run.phase == Calling(expired, i + 1, now)
      ensures IsRun(run, Calls(script, i + 1, |expired|) + [EndRead])
      ensures After(run, Calls(script, i + 1, |expired|) + [EndRead])
           == After(old(run), Calls(script, i, |expired|) + [EndRead])
    {
      var events := if i < |script| then script[i] else [];
      CallbackTurn(run, script, i, |expired|);
      CallNext(expired, i);
      PerformAll(events);
    }

    /** The callback is that of a live object. */
    method CallNext(expired: seq<Entry>, i: nat)
      requires Tracks() && run.phase.Calling? && run.phase.batch == expired && run.phase.next == i < |expired|
      modifies this`run
      ensures expired[i].ptr in heap
      ensures Tracks() && run == Step(old(run), TimerRuns.RunCallback)
    {
      StepKeepsInv(run, TimerRuns.RunCallback);
      run := Step(run, TimerRuns.RunCallback);
    }

    /** The loop of `handleRead`. */
    method RunCallbacks(expired: seq<Entry>, now: Timestamp, script: seq<seq<Event>>)
      requires Tracks() && run.phase == Calling(expired, 0, now)
      requires forall i, j :: 0 <= i < |script| && 0 <= j < |script[i]| ==>
                 script[i][j].Tick? || script[i][j].New? || script[i][j].Cancel?
      requires IsRun(run, Calls(script, 0, |expired|) + [EndRead])
      modifies this
      ensures Tracks() && run.phase == Calling(expired, |expired|, now)
      ensures Enabled(run, EndRead)
      ensures Step(run, EndRead) == After(old(run), Calls(script, 0, |expired|) + [EndRead])
    {
      ghost var end := After(run, Calls(script, 0, |expired|) + [EndRead]);
      var i := 0;
      while i < |expired|
        invariant 0 <= i <= |expired|
        invariant Tracks() && run.phase == Calling(expired, i, now)
        invariant IsRun(run, Calls(script, i, |expired|) + [EndRead])
        invariant After(run, Calls(script, i, |expired|) + [EndRead]) == end
      {
        RunCallback(expired, i, now, script);
        i := i + 1;
      }
      assert Calls(script, i, |expired|) + [EndRead] == [EndRead] && [EndRead][1..] == [];
    }

    /** `script[i]` is what happens during the i-th callback. */
    method HandleRead(script: seq<seq<Event>>) returns (expired: seq<Entry>)
      requires Tracks() && run.phase.Idle?
      requires forall i, j :: 0 <= i < |script| && 0 <= j < |script[i]| ==>
                 script[i][j].Tick? || script[i][j].New? || script[i][j].Cancel?
      requires forall batch :: Enabled(run, BeginRead(batch)) ==> IsRun(run, Handling(batch, script))
      modifies this
      ensures Tracks() && run.phase.Idle?
      ensures Enabled(old(run), BeginRead(expired))
      ensures IsRun(old(run), Handling(expired, script)) && run == After(old(run), Handling(expired, script))
      ensures timers != [] && Timestamps.Valid(timers[0].when) ==>
        timerfd == Armed(Later(timers[0].when, clock + MIN_DELAY))
    {
      var now := clock;
      expired := BeginHandling();
      assert Handling(expired, script)[1..] == Calls(script, 0, |expired|) + [EndRead];
      RunCallbacks(expired, now, script);
      EndHandling(expired, now);
    }
  }

  lemma ReadingChangesNoIndex(c: Core, alarm: Alarm, now: Timestamp)
    requires IndexAgreement(c)
    ensures var c' := c.(alarm := alarm);
      && IndexAgreement(c')
      && Expired(c', now) == Expired(c, now)
      && Extracted(c', now).timers == Extracted(c, now).timers
      && Extracted(c', now).active == Extracted(c, now).active
  {
    var c' := c.(alarm := alarm);
    assert forall p :: Live(c', p) <==> Live(c, p);
    assert forall p :: Due(c', p, now) <==> Due(c, p, now);
  }

  lemma BatchIsOurs(s: State)
    requires Inv(s) && Enabled(s, EndRead)
    ensures forall i :: 0 <= i < |s.phase.batch| ==>
      s.phase.batch[i].ptr in s.core.heap && !Live(s.core, s.phase.batch[i].ptr)
    ensures forall i, j :: 0 <= i < j < |s.phase.batch| ==> s.phase.batch[i].ptr != s.phase.batch[j].ptr
    ensures var s' := Step(s, EndRead);
      s' == s.(core := Timers.Reset(s.core, Ptrs(s.phase.batch), s.phase.now, s.clock), phase := Idle)
  {
    assert forall i :: 0 <= i < |s.phase.batch| ==> InBatch(s, s.phase.batch[i].ptr);
  }

  lemma CallbackTurn(s: State, script: seq<seq<Event>>, i: nat, n: nat)
    requires Inv(s) && i < n && IsRun(s, Calls(script, i, n) + [EndRead])
    ensures Enabled(s, RunCallback) && Inv(Step(s, RunCallback))
    ensures var s1, events := Step(s, RunCallback), if i < |script| then script[i] else [];
      && IsRun(s1, events)
      && IsRun(After(s1, events), Calls(script, i + 1, n) + [EndRead])
      && After(After(s1, events), Calls(script, i + 1, n) + [EndRead]) == After(s, Calls(script, i, n) + [EndRead])
  {
    var events, later := if i < |script| then script[i] else [], Calls(script, i + 1, n) + [EndRead];
    assert Calls(script, i, n) + [EndRead] == [RunCallback] + (events + later);
    StepKeepsInv(s, RunCallback);
    RunOfOne(s, RunCallback, events + later);
    RunsConcatenate(Step(s, RunCallback), events, later);
  }

  /** The events of one call of `handleRead`. */
  function Handling(batch: seq<Entry>, script: seq<seq<Event>>): seq<Event> {
    [BeginRead(batch)] + (Calls(script, 0, |batch|) + [EndRead])
  }

  function Calls(script: seq<seq<Event>>, i: nat, n: nat): seq<Event>
    requires i <= n
    decreases n - i
  {
    if i == n then [] else [RunCallback] + (if i < |script| then script[i] else []) + Calls(script, i + 1, n)
  }

  /** Left to itself the handler goes through whatever batch it finds. */
  lemma HandlingIsPossible(s: State, batch: seq<Entry>)
    requires Inv(s) && Enabled(s, BeginRead(batch))
    ensures IsRun(s, Handling(batch, []))
  {
    StepKeepsInv(s, BeginRead(batch));
    var s1 := Step(s, BeginRead(batch));
    CallsArePossible(s1, 0, |batch|);
    RunOfOne(s, BeginRead(batch), Calls([], 0, |batch|) + [EndRead]);
  }

  lemma {:induction false} CallsArePossible(s: State, i: nat, n: nat)
    requires Inv(s) && s.phase.Calling? && s.phase.next == i <= n == |s.phase.batch|
    ensures IsRun(s, Calls([], i, n) + [EndRead])
    decreases n - i
  {
    if i == n {
      EndIsPossible(s);
      assert Calls([], i, n) + [EndRead] == [EndRead];
    } else {
      var rest := Calls([], i + 1, n) + [EndRead];
      assert Calls([], i, n) + [EndRead] == [RunCallback] + rest;
      CallIsPossible(s);
      CallsArePossible(Step(s, RunCallback), i + 1, n);
      RunOfOne(s, RunCallback, rest);
    }
  }

  lemma CallIsPossible(s: State)
    requires Inv(s) && s.phase.Calling? && s.phase.next < |s.phase.batch|
    ensures Enabled(s, RunCallback) && Inv(Step(s, RunCallback))
    ensures Step(s, RunCallback).phase == s.phase.(next := s.phase.next + 1)
  {
    StepKeepsInv(s, RunCallback);
  }

  lemma EndIsPossible(s: State)
    requires Inv(s) && s.phase.Calling? && s.phase.next == |s.phase.batch|
    ensures IsRun(s, [EndRead])
  {
    StepKeepsInv(s, EndRead);
    assert [EndRead] + [] == [EndRead];
    RunOfOne(s, EndRead, []);
  }
}
