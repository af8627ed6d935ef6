/**
  Every run of the timer queue: other threads create and cancel timers through the functor queue of
  the loop, the loop thread does so directly, also from inside callbacks, time passes, and the read
  handler extracts a batch, calls it and settles it.  An event carries what the environment decides.
 */
module TimerRuns {
  import opened Timestamps
  import opened Timers

  datatype Closure = AddIn(ptr: Ptr) | CancelIn(id: TimerId)

  /** While callbacks run: the extracted batch, how many of it were called, and the time it was extracted for. */
  datatype Phase = Idle | Calling(batch: seq<Entry>, next: nat, now: Timestamp)

  /** One call of a callback: whose, when it was due, the time of its batch, the time of the call. */
  datatype Firing = Firing(birth: nat, due: Timestamp, now: Timestamp, at: Timestamp)

  /**
    `created`, `log` and `dropped` are history: every timer as constructed, every callback called,
    and the timers a cancel freed before they were extracted.
   */
  datatype State = State(
    core: Core,
    clock: Timestamp,
    phase: Phase,
    functors: seq<Closure>,
    created: map<nat, Timer>,
    log: seq<Firing>,
    dropped: set<nat>)

  datatype Event =
    | Tick(micros: nat)
    | New(ptr: Ptr, when: Timestamp, interval: real, inLoop: bool, birth: nat)
    | Cancel(id: TimerId, inLoop: bool)
    | RunFunctor
    | BeginRead(batch: seq<Entry>)
    | RunCallback
    | EndRead

  // --- what may happen, and what it does ------------------------------------------------------

  predicate Precedes(a: Entry, b: Entry) {
    a.when < b.when || (a.when == b.when && a.ptr < b.ptr)
  }

  ghost predicate Sorted(batch: seq<Entry>) {
    forall i, j :: 0 <= i < j < |batch| ==> Precedes(batch[i], batch[j])
  }

  /** `batch` is what `getExpired(now)` returns: the due entries, each once, in the order of the queue. */
  ghost predicate IsBatch(c: Core, now: Timestamp, batch: seq<Entry>) {
    Sorted(batch) && forall e :: e in batch <==> e in Expired(c, now)
  }

  ghost predicate Enabled(s: State, e: Event) {
    match e
    case Tick(_) => true
    case New(p, _, _, _, birth) => p !in s.core.heap && birth !in s.created
    case Cancel(_, _) => true
    case RunFunctor => s.phase.Idle? && s.functors != []
    case BeginRead(batch) => s.phase.Idle? && IsBatch(s.core, s.clock, batch)
    case RunCallback => s.phase.Calling? && s.phase.next < |s.phase.batch|
    case EndRead => s.phase.Calling? && s.phase.next == |s.phase.batch|
  }

  function Allocated(s: State, p: Ptr, t: Timer): State {
    s.(core := s.core.(heap := s.core.heap[p := t]), created := s.created[t.birth := t])
  }

  function Added(s: State, p: Ptr): State
    requires p in s.core.heap
  {
    s.(core := AddInLoop(s.core, p, s.clock))
  }

  function Cancelled(s: State, id: TimerId): State
    requires id in s.core.active ==> id.ptr in s.core.heap
  {
    s.(core := CancelInLoop(s.core, id, s.phase.Calling?),
       dropped := if id in s.core.active then s.dropped + {s.core.heap[id.ptr].birth} else s.dropped)
  }

  /** No step follows a dangling pointer: that is what its precondition rests on. */
  ghost function Step(s: State, e: Event): State
    requires Inv(s) && Enabled(s, e)
  {
    match e
    case Tick(d) => s.(clock := s.clock + d)
    case New(p, when, interval, inLoop, birth) =>
      var s' := Allocated(s, p, Timer(when, interval, birth));
      if inLoop then Added(s', p) else s'.(functors := s.functors + [AddIn(p)])
    case Cancel(id, inLoop) =>
      if inLoop then Cancelled(s, id) else s.(functors := s.functors + [CancelIn(id)])
    case RunFunctor =>
      var s' := s.(functors := s.functors[1..]);
      (match s.functors[0]
       case AddIn(p) => Added(s', p)
       case CancelIn(id) => Cancelled(s', id))
    case BeginRead(batch) =>
      s.(core := Extracted(s.core, s.clock), phase := Calling(batch, 0, s.clock))
    case RunCallback =>
      var entry := s.phase.batch[s.phase.next];
      s.(phase := s.phase.(next := s.phase.next + 1),
         log := s.log + [Firing(s.core.heap[entry.ptr].birth, entry.when, s.phase.now, s.clock)])
    case EndRead =>
      s.(core := Reset(s.core, Ptrs(s.phase.batch), s.phase.now, s.clock), phase := Idle)
  }

  // --- what every step keeps ------------------------------------------------------------------

  predicate Pending(s: State, p: Ptr) {
    AddIn(p) in s.functors
  }

  predicate InBatch(s: State, p: Ptr) {
    s.phase.Calling? && p in Ptrs(s.phase.batch)
  }

  /**
    Every allocated timer has exactly one owner, apart from those in `but`, which have none, and
    everything that points to a timer points to an allocated one.
   */
  ghost predicate PartitionBut(s: State, but: set<Ptr>) {
    && but <= s.core.heap.Keys
    && (forall p :: p in s.core.heap ==> (p in but <==> !Pending(s, p) && !Live(s.core, p) && !InBatch(s, p)))
    && (forall p :: Pending(s, p) ==> p in s.core.heap && !Live(s.core, p) && !InBatch(s, p))
    && (forall p :: InBatch(s, p) ==> p in s.core.heap && !Live(s.core, p))
    && (forall i, j :: 0 <= i < j < |s.functors| && s.functors[i].AddIn? ==> s.functors[i] != s.functors[j])
  }

  ghost predicate BatchKeys(s: State) {
    s.phase.Calling? ==>
      && s.phase.next <= |s.phase.batch|
      && 0 < s.phase.now <= s.clock
      && Sorted(s.phase.batch)
      && (forall i, j :: 0 <= i < j < |s.phase.batch| ==> s.phase.batch[i].ptr != s.phase.batch[j].ptr)
      && forall i :: 0 <= i < |s.phase.batch| ==>
           && s.phase.batch[i].ptr in s.core.heap
           && s.phase.batch[i] == EntryOf(s.core, s.phase.batch[i].ptr)
           && s.phase.batch[i].when <= s.phase.now
  }

  /** The alarm goes off in time for `when`: at it, or a floor's length after the last arming. */
  predicate Covered(c: Core, when: Timestamp) {
    && c.alarm.Armed?
    && (c.alarm.deadline <= when || c.alarm.deadline <= c.armedAt + MIN_DELAY)
  }

  /**
    No timer is lost.  While callbacks run the alarm may be off, because `reset` arms it, except that
    `reset` does not when the next expiration is not a valid timestamp; those stay covered throughout.
   */
  ghost predicate AlarmCovers(s: State) {
    && 0 < s.clock && s.core.armedAt <= s.clock
    && forall e :: e in s.core.timers && (s.phase.Idle? || !Valid(e.when)) ==> Covered(s.core, e.when)
  }

  /** Heap timers are timers that were constructed, no two of them the same one. */
  ghost predicate Births(s: State) {
    && (forall b :: b in s.created ==> s.created[b].birth == b)
    && (forall p :: p in s.core.heap ==>
         && s.core.heap[p].birth in s.created
         && s.core.heap[p].interval == s.created[s.core.heap[p].birth].interval)
    && (forall p, q :: p in s.core.heap && q in s.core.heap && s.core.heap[p].birth == s.core.heap[q].birth ==> p == q)
  }

  /** `but` names a timer that has been allocated and not handed over yet. */
  ghost predicate InvBut(s: State, but: set<Ptr>) {
    && IndexAgreement(s.core)
    && PartitionBut(s, but)
    && BatchKeys(s)
    && AlarmCovers(s)
    && Births(s)
  }

  ghost predicate Inv(s: State) {
    InvBut(s, {})
  }

  // --- preservation, event by event -----------------------------------------------------------

  lemma AllocationKeepsAgreement(c: Core, p: Ptr, t: Timer)
    requires IndexAgreement(c) && p !in c.heap
    ensures var c' := c.(heap := c.heap[p := t]); IndexAgreement(c') && forall q :: Live(c', q) <==> Live(c, q)
  {
    var c' := c.(heap := c.heap[p := t]);
    assert forall e :: e in c.timers ==> e.ptr != p;
    assert forall q :: Live(c', q) <==> Live(c, q);
  }

  lemma AllocationKeepsBatch(s: State, p: Ptr, t: Timer)
    requires BatchKeys(s) && p !in s.core.heap
    ensures BatchKeys(Allocated(s, p, t))
  {
    var s' := Allocated(s, p, t);
    if s.phase.Calling? {
      forall i | 0 <= i < |s.phase.batch| ensures EntryOf(s'.core, s.phase.batch[i].ptr) == s.phase.batch[i] {
        assert s.phase.batch[i].ptr in s.core.heap;
      }
    }
  }

  lemma AllocatedIsOwnerless(s: State, p: Ptr, t: Timer)
    requires Inv(s) && p !in s.core.heap && t.birth !in s.created
    ensures InvBut(Allocated(s, p, t), {p})
  {
    var s' := Allocated(s, p, t);
    AllocationKeepsAgreement(s.core, p, t);
    AllocationKeepsBatch(s, p, t);
    assert PartitionBut(s', {p}) by {
      assert forall q :: (Pending(s', q) <==> Pending(s, q)) && (InBatch(s', q) <==> InBatch(s, q));
    }
  }

  /** Adding arms when the new timer is the earliest; otherwise the earlier one already has. */
  lemma AddCovers(s: State, p: Ptr)
    requires p in s.core.heap && AlarmCovers(s)
    ensures AlarmCovers(Added(s, p))
  {
    var s' := Added(s, p);
    var when := s.core.heap[p].expiration;
    ResetArms(when, s.clock);
    if !BeforeAll(s.core, when) {
      var first :| first in s.core.timers && first.when <= when;
      assert s.phase.Idle? || !Valid(when) ==> Covered(s.core, first.when);
    }
  }

  lemma AddKeepsInv(s: State, p: Ptr)
    requires InvBut(s, {p})
    ensures Inv(Added(s, p))
  {
    InsertKeepsAgreement(s.core, p);
    AddCovers(s, p);
    var s' := Added(s, p);
    var c1 := Inserted(s.core, p);
    assert s'.core.heap == c1.heap && s'.core.timers == c1.timers && s'.core.active == c1.active;
    assert forall q :: Live(s'.core, q) <==> Live(c1, q);
    assert PartitionBut(s', {}) by {
      assert forall q :: Live(c1, q) <==> Live(s.core, q) || q == p;
      assert forall q :: (Pending(s', q) <==> Pending(s, q)) && (InBatch(s', q) <==> InBatch(s, q));
    }
  }

  lemma CancelKeepsInv(s: State, id: TimerId)
    requires Inv(s)
    ensures Inv(Cancelled(s, id))
  {
    CancelKeepsAgreement(s.core, id, s.phase.Calling?);
    var s' := Cancelled(s, id);
    if id in s.core.active {
      assert Live(s.core, id.ptr);
    }
    assert forall p :: Pending(s', p) <==> Pending(s, p);
    assert forall p :: InBatch(s', p) <==> InBatch(s, p);
  }

  lemma RunFunctorKeepsInv(s: State)
    requires Inv(s) && Enabled(s, RunFunctor)
    ensures s.functors[0].AddIn? ==> InvBut(s.(functors := s.functors[1..]), {s.functors[0].ptr})
    ensures s.functors[0].CancelIn? ==> Inv(s.(functors := s.functors[1..]))
  {
    var s' := s.(functors := s.functors[1..]);
    assert s.functors == [s.functors[0]] + s'.functors;
    assert forall p :: Pending(s, p) <==> Pending(s', p) || s.functors[0] == AddIn(p);
    if s.functors[0].AddIn? {
      var p := s.functors[0].ptr;
      assert Pending(s, p);
      forall j | 0 <= j < |s'.functors| ensures s'.functors[j] != AddIn(p) {
        assert s'.functors[j] == s.functors[j + 1];
      }
    }
  }

  lemma BeginReadKeepsInv(s: State, batch: seq<Entry>)
    requires Inv(s) && Enabled(s, BeginRead(batch))
    ensures Inv(Step(s, BeginRead(batch)))
  {
    var s' := Step(s, BeginRead(batch));
    ExtractKeepsAgreement(s.core, s.clock);
    forall p ensures InBatch(s', p) <==> Due(s.core, p, s.clock) {
      if Due(s.core, p, s.clock) {
        assert EntryOf(s.core, p) in batch;
      }
      if InBatch(s', p) {
        var i :| 0 <= i < |batch| && batch[i].ptr == p;
        assert batch[i] in Expired(s.core, s.clock);
      }
    }
    forall i | 0 <= i < |batch| ensures batch[i] in s.core.timers && batch[i].when <= s.clock {
      assert batch[i] in batch;
    }
    assert forall p :: Pending(s', p) <==> Pending(s, p);
  }

  /** An alarm that covers the first of the queue covers all. */
  lemma FirstCovers(c: Core, timers: set<Entry>, first: Entry, e: Entry)
    requires IsFirst(timers, first) && Covered(c, first.when) && e in timers
    ensures Covered(c, e.when)
  {
  }

  lemma RearmedCovers(c: Core, when: Timestamp, clock: Timestamp)
    ensures Covered(Rearmed(c, when, clock), when)
  {
    ResetArms(when, clock);
  }

  /** When the first expiration is no valid timestamp, it is not a restarted one, and its alarm is still set. */
  lemma InvalidIsCovered(s: State, first: Entry)
    requires Inv(s) && Enabled(s, EndRead)
    requires first in Resettled(s.core, Ptrs(s.phase.batch), s.phase.now).timers && !Valid(first.when)
    ensures Covered(s.core, first.when)
  {
    RestartsAreValid(s, first);
  }

  /** `reset` arms for the earliest expiration; when that is no valid timestamp, its alarm is still set. */
  lemma ResetCovers(s: State)
    requires Inv(s) && Enabled(s, EndRead)
    ensures AlarmCovers(Step(s, EndRead))
  {
    var c := Resettled(s.core, Ptrs(s.phase.batch), s.phase.now);
    var c' := Step(s, EndRead).core;
    var next := NextExpiration(c.timers);
    forall e | e in c.timers ensures Covered(c', e.when) {
      var first :| IsFirst(c.timers, first) && first.when == next;
      if Valid(next) { RearmedCovers(c, next, s.clock); } else { InvalidIsCovered(s, first); }
      FirstCovers(c', c.timers, first, e);
    }
  }

  lemma RestartsAreValid(s: State, e: Entry)
    requires Inv(s) && Enabled(s, EndRead)
    requires e in Resettled(s.core, Ptrs(s.phase.batch), s.phase.now).timers
    ensures e in s.core.timers || Valid(e.when)
  {
    if e !in s.core.timers {
      AddTimeMovesForward(s.phase.now, s.core.heap[e.ptr].interval);
    }
  }

  /** Rearming changes no index. */
  lemma ResetSettles(c: Core, batch: set<Ptr>, now: Timestamp, clock: Timestamp)
    ensures var r, c' := Reset(c, batch, now, clock), Resettled(c, batch, now);
      r.heap == c'.heap && r.timers == c'.timers && r.active == c'.active && forall p :: Live(r, p) <==> Live(c', p)
  {
    var r, c' := Reset(c, batch, now, clock), Resettled(c, batch, now);
    assert r.heap == c'.heap && r.timers == c'.timers;
    assert forall p :: Live(r, p) <==> Live(c', p);
  }

  lemma ResetKeepsAgreement(s: State)
    requires Inv(s) && Enabled(s, EndRead)
    ensures var c := Step(s, EndRead).core;
      && IndexAgreement(c)
      && (forall p :: p in c.heap ==> p in s.core.heap && (Live(c, p) <==> InBatch(s, p) || Live(s.core, p)))
      && (forall p :: p in s.core.heap && !InBatch(s, p) ==> p in c.heap)
  {
    var batch := Ptrs(s.phase.batch);
    assert forall p :: p in batch <==> InBatch(s, p);
    ResettleKeepsAgreement(s.core, batch, s.phase.now);
    ResetSettles(s.core, batch, s.phase.now, s.clock);
  }

  lemma ResetKeepsPartition(s: State)
    requires Inv(s) && Enabled(s, EndRead)
    ensures PartitionBut(Step(s, EndRead), {})
  {
    ResetKeepsAgreement(s);
    var s' := Step(s, EndRead);
    assert forall p :: Pending(s', p) <==> Pending(s, p);
    assert forall p :: !InBatch(s', p);
  }

  lemma EndReadKeepsInv(s: State)
    requires Inv(s) && Enabled(s, EndRead)
    ensures Inv(Step(s, EndRead))
  {
    ResetKeepsAgreement(s);
    ResetKeepsPartition(s);
    ResetCovers(s);
    ResetSettles(s.core, Ptrs(s.phase.batch), s.phase.now, s.clock);
    assert Births(Step(s, EndRead));
  }

  lemma NewKeepsInv(s: State, p: Ptr, t: Timer, inLoop: bool)
    requires Inv(s) && p !in s.core.heap && t.birth !in s.created
    ensures Inv(Step(s, New(p, t.expiration, t.interval, inLoop, t.birth)))
  {
    AllocatedIsOwnerless(s, p, t);
    var s1 := Allocated(s, p, t);
    if inLoop {
      AddKeepsInv(s1, p);
    } else {
      var s' := s1.(functors := s.functors + [AddIn(p)]);
      assert forall q :: Pending(s', q) <==> Pending(s1, q) || q == p;
      assert forall q :: InBatch(s', q) <==> InBatch(s1, q);
      forall i, j | 0 <= i < j < |s'.functors| && s'.functors[i].AddIn? ensures s'.functors[i] != s'.functors[j] {
        if j == |s1.functors| { assert Pending(s1, s1.functors[i].ptr); }
      }
    }
  }

  lemma RunKeepsInv(s: State)
    requires Inv(s) && Enabled(s, RunFunctor)
    ensures Inv(Step(s, RunFunctor))
  {
    RunFunctorKeepsInv(s);
    var s1 := s.(functors := s.functors[1..]);
    match s.functors[0] {
      case AddIn(p) => AddKeepsInv(s1, p);
      case CancelIn(id) => CancelKeepsInv(s1, id);
    }
  }

  /** Time passing, a cancel on its way to the loop and a callback being called move no timer. */
  lemma QuietStepKeepsInv(s: State, e: Event)
    requires Inv(s) && Enabled(s, e)
    requires e.Tick? || e.RunCallback? || (e.Cancel? && !e.inLoop)
    ensures Inv(Step(s, e))
  {
    var s' := Step(s, e);
    assert forall p :: Pending(s', p) <==> Pending(s, p);
    assert forall p :: InBatch(s', p) <==> InBatch(s, p);
  }

  lemma StepKeepsInv(s: State, e: Event)
    requires Inv(s) && Enabled(s, e)
    ensures Inv(Step(s, e))
  {
    match e
    case Tick(_) => QuietStepKeepsInv(s, e);
    case New(p, when, interval, inLoop, birth) => NewKeepsInv(s, p, Timer(when, interval, birth), inLoop);
    case Cancel(id, inLoop) => if inLoop { CancelKeepsInv(s, id); } else { QuietStepKeepsInv(s, e); }
    case RunFunctor => RunKeepsInv(s);
    case BeginRead(batch) => BeginReadKeepsInv(s, batch);
    case RunCallback => QuietStepKeepsInv(s, e);
    case EndRead => EndReadKeepsInv(s);
  }

  /** The closure at the head of the queue finds its timer, and finds it in no index. */
  lemma FunctorTarget(s: State)
    requires Inv(s) && Enabled(s, RunFunctor)
    ensures s.functors[0].AddIn? ==> s.functors[0].ptr in s.core.heap && !Live(s.core, s.functors[0].ptr)
    ensures var s' := Step(s, RunFunctor);
      && s'.clock == s.clock && s'.functors == s.functors[1..] && s'.created == s.created && s'.phase == s.phase
      && s'.core == match s.functors[0]
                    case AddIn(p) => AddInLoop(s.core, p, s.clock)
                    case CancelIn(id) => CancelInLoop(s.core, id, false)
  {
    if s.functors[0].AddIn? {
      assert Pending(s, s.functors[0].ptr);
    }
  }

  // --- runs -----------------------------------------------------------------------------------

  ghost function Init(clock: Timestamp): (s: State)
    requires Valid(clock)
    ensures Inv(s)
  {
    State(Core(map[], {}, {}, {}, Disarmed, clock), clock, Idle, [], map[], [], {})
  }

  ghost predicate IsRun(s: State, es: seq<Event>)
    requires Inv(s)
    decreases |es|
  {
    es == [] || (Enabled(s, es[0]) && (StepKeepsInv(s, es[0]); IsRun(Step(s, es[0]), es[1..])))
  }

  ghost function After(s: State, es: seq<Event>): (r: State)
    requires Inv(s) && IsRun(s, es)
    ensures Inv(r)
    decreases |es|
  {
    if es == [] then s
    else
      StepKeepsInv(s, es[0]);
      After(Step(s, es[0]), es[1..])
  }

  lemma RunOfOne(s: State, e: Event, rest: seq<Event>)
    requires Inv(s) && Enabled(s, e) && Inv(Step(s, e))
    ensures IsRun(s, [e] + rest) <==> IsRun(Step(s, e), rest)
    ensures IsRun(s, [e] + rest) ==> After(s, [e] + rest) == After(Step(s, e), rest)
  {
    assert ([e] + rest)[1..] == rest;
  }

  /** A run goes on from where its first part ends. */
  lemma {:induction false} RunsConcatenate(s: State, a: seq<Event>, b: seq<Event>)
    requires Inv(s)
    ensures IsRun(s, a + b) <==> IsRun(s, a) && IsRun(After(s, a), b)
    ensures IsRun(s, a + b) ==> After(s, a + b) == After(After(s, a), b)
    decreases |a|
  {
    if a == [] {
      assert a + b == b;
    } else if Enabled(s, a[0]) {
      assert (a + b)[1..] == a[1..] + b;
      StepKeepsInv(s, a[0]);
      RunsConcatenate(Step(s, a[0]), a[1..], b);
    }
  }
}
