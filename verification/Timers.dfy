/**
  Timers, the handles that name them, and what each operation of the queue does to its two indexes,
  the heap its timers live in and the alarm that wakes it.
 */
module Timers {
  import opened Timestamps

  const UINTPTR_MAX := 0xFFFF_FFFF_FFFF_FFFF
  const TWO_32 := 0x1_0000_0000

  /** An address `new` can return: never null, nor the largest address, on which `getExpired` relies. */
  type Ptr = p: int | 0 < p < UINTPTR_MAX witness 1

  /** The value of the creation counter, a 32-bit signed integer that wraps, at its n-th increment. */
  function Int32(n: nat): int {
    var m := n % TWO_32;
    if m < 0x8000_0000 then m else m - TWO_32
  }

  /**
    A sequence fits 32 bits and is the number of the creation as long as that does; two creations get
    the same one exactly when a multiple of 2^32 creations separates them.
   */
  lemma SequencesRepeat(m: nat, n: nat)
    ensures -0x8000_0000 <= Int32(n) < 0x8000_0000
    ensures Int32(n) == n <==> n < 0x8000_0000
    ensures Int32(m) == Int32(n) <==> (n - m) % TWO_32 == 0
  {
    assert m == m / TWO_32 * TWO_32 + m % TWO_32 && n == n / TWO_32 * TWO_32 + n % TWO_32;
    var d := n / TWO_32 - m / TWO_32;
    assert n - m == d * TWO_32 + (n % TWO_32 - m % TWO_32);
  }

  /** `birth` is the number of timers the process, with all its queues, had constructed before this one. */
  datatype Timer = Timer(expiration: Timestamp, interval: real, birth: nat) {
    predicate Repeats() { interval > 0.0 }

    function Sequence(): int { Int32(birth) }

    function Restart(now: Timestamp): Timer {
      this.(expiration := if Repeats() then AddTime(now, interval) else INVALID)
    }
  }

  /** The creation counter is one for the process: whoever constructs a timer, for whatever queue, moves it on. */
  class TimerCounter {
    var numCreated: nat

    constructor ()
      ensures numCreated == 0
    {
      numCreated := 0;
    }

    method Construct(when: Timestamp, interval: real) returns (t: Timer)
      modifies this
      ensures t == Timer(when, interval, old(numCreated)) && numCreated == old(numCreated) + 1
    {
      t := Timer(when, interval, numCreated);
      numCreated := numCreated + 1;
    }
  }

  datatype Entry = Entry(when: Timestamp, ptr: Ptr)

  /** Both the handle a caller keeps and the key of the active set. */
  datatype TimerId = TimerId(ptr: Ptr, sequence: int)

  datatype Core = Core(
    heap: map<Ptr, Timer>,
    timers: set<Entry>,
    active: set<TimerId>,
    canceling: set<TimerId>,
    alarm: Alarm,
    armedAt: Timestamp)

  function IdOf(c: Core, p: Ptr): TimerId
    requires p in c.heap
  {
    TimerId(p, c.heap[p].Sequence())
  }

  function EntryOf(c: Core, p: Ptr): Entry
    requires p in c.heap
  {
    Entry(c.heap[p].expiration, p)
  }

  predicate Live(c: Core, p: Ptr) {
    p in c.heap && EntryOf(c, p) in c.timers
  }

  /**
    The two indexes hold the same timers, all of them allocated, each under its current expiration
    in one and its own sequence in the other.
   */
  ghost predicate IndexAgreement(c: Core) {
    && (forall e :: e in c.timers ==> Live(c, e.ptr) && e == EntryOf(c, e.ptr) && IdOf(c, e.ptr) in c.active)
    && (forall a :: a in c.active ==> Live(c, a.ptr) && a == IdOf(c, a.ptr))
  }

  /** What the `size()` assertions of the source compare. */
  lemma {:induction false} SizesAgree(c: Core)
    requires IndexAgreement(c)
    ensures |c.timers| == |c.active|
    decreases |c.timers|
  {
    if c.timers != {} {
      var e :| e in c.timers;
      var smaller := c.(timers := c.timers - {e}, active := c.active - {IdOf(c, e.ptr)});
      assert forall x :: x in smaller.timers ==> x.ptr != e.ptr;
      SizesAgree(smaller);
    } else {
      assert c.active == {};
    }
  }

  // --- the operations -------------------------------------------------------------------------

  function Inserted(c: Core, p: Ptr): Core
    requires p in c.heap
  {
    c.(timers := c.timers + {EntryOf(c, p)}, active := c.active + {IdOf(c, p)})
  }

  function Rearmed(c: Core, when: Timestamp, clock: Timestamp): Core {
    c.(alarm := SetTime(HowMuchTimeFromNow(when, clock), clock), armedAt := clock)
  }

  predicate BeforeAll(c: Core, when: Timestamp) {
    forall e :: e in c.timers ==> when < e.when
  }

  function AddInLoop(c: Core, p: Ptr, clock: Timestamp): Core
    requires p in c.heap
  {
    var when := c.heap[p].expiration;
    if BeforeAll(c, when) then Rearmed(Inserted(c, p), when, clock) else Inserted(c, p)
  }

  function CancelInLoop(c: Core, id: TimerId, calling: bool): Core
    requires id in c.active ==> id.ptr in c.heap
  {
    if id in c.active then
      c.(heap := c.heap - {id.ptr}, timers := c.timers - {EntryOf(c, id.ptr)}, active := c.active - {id})
    else if calling then c.(canceling := c.canceling + {id})
    else c
  }

  predicate Due(c: Core, p: Ptr, now: Timestamp) {
    Live(c, p) && c.heap[p].expiration <= now
  }

  function Expired(c: Core, now: Timestamp): set<Entry> {
    set e | e in c.timers && e.when <= now
  }

  /** Reading the alarm, `getExpired` and the clearing of the canceling set. */
  function Extracted(c: Core, now: Timestamp): Core {
    c.(alarm := if c.alarm.Readable(now) then Disarmed else c.alarm,
       timers := c.timers - Expired(c, now),
       active := (set a | a in c.active && !Due(c, a.ptr, now)),
       canceling := {})
  }

  function Ptrs(batch: seq<Entry>): (r: set<Ptr>)
    ensures forall p :: p in r <==> exists i :: 0 <= i < |batch| && batch[i].ptr == p
  {
    set i | 0 <= i < |batch| :: batch[i].ptr
  }

  /** The timer of an expired batch goes back into the queue. */
  predicate Survives(c: Core, p: Ptr) {
    p in c.heap && c.heap[p].Repeats() && IdOf(c, p) !in c.canceling
  }

  function Resettled(c: Core, batch: set<Ptr>, now: Timestamp): Core {
    c.(heap := (map p | p in c.heap && (p in batch ==> Survives(c, p))
                 :: if p in batch then c.heap[p].Restart(now) else c.heap[p]),
       timers := c.timers + (set p | p in batch && Survives(c, p) :: Entry(c.heap[p].Restart(now).expiration, p)),
       active := c.active + (set p | p in batch && Survives(c, p) :: IdOf(c, p)))
  }

  /** The expiration of the first entry in the order of the queue. */
  ghost predicate IsFirst(timers: set<Entry>, e: Entry) {
    e in timers && forall x :: x in timers ==> e.when <= x.when
  }

  lemma {:induction false} FirstExists(timers: set<Entry>)
    requires timers != {}
    ensures exists e :: IsFirst(timers, e)
    decreases |timers|
  {
    var e :| e in timers;
    var rest := timers - {e};
    assert timers == rest + {e};
    if rest == {} {
      assert IsFirst(timers, e);
    } else {
      FirstExists(rest);
      var first :| IsFirst(rest, first);
      assert IsFirst(timers, if e.when < first.when then e else first);
    }
  }

  /** The zero timestamp stands for "no next expiration", as the default `Timestamp` does. */
  ghost function NextExpiration(timers: set<Entry>): (next: Timestamp)
    ensures timers != {} ==> exists e :: IsFirst(timers, e) && e.when == next
  {
    if timers == {} then INVALID
    else
      FirstExists(timers);
      var e :| IsFirst(timers, e);
      e.when
  }

  ghost function Reset(c: Core, batch: set<Ptr>, now: Timestamp, clock: Timestamp): Core {
    var c' := Resettled(c, batch, now);
    var next := NextExpiration(c'.timers);
    if Valid(next) then Rearmed(c', next, clock) else c'
  }

  // --- the indexes agree after every operation ------------------------------------------------

  lemma InsertKeepsAgreement(c: Core, p: Ptr)
    requires IndexAgreement(c) && p in c.heap
    ensures IndexAgreement(Inserted(c, p))
  {
    var c' := Inserted(c, p);
    assert Live(c', p);
    forall e | e in c'.timers
      ensures Live(c', e.ptr) && e == EntryOf(c', e.ptr) && IdOf(c', e.ptr) in c'.active
    {
      if e in c.timers { assert Live(c, e.ptr); }
    }
    forall a | a in c'.active ensures Live(c', a.ptr) && a == IdOf(c', a.ptr) {
      if a in c.active { assert Live(c, a.ptr); }
    }
  }

  /** From `c` to `c'` no other timer and no other id is touched; nor are indexes and heap if the id is not active. */
  ghost predicate OnlyCancels(c: Core, c': Core, id: TimerId, calling: bool) {
    && c'.alarm == c.alarm && c'.armedAt == c.armedAt
    && (forall p :: p in c.heap && p != id.ptr ==> p in c'.heap && c'.heap[p] == c.heap[p])
    && (forall p :: p in c'.heap ==> p in c.heap)
    && (forall a :: a in c'.canceling <==> a in c.canceling || (a == id && id !in c.active && calling))
    && (id !in c.active ==> c'.heap == c.heap && c'.timers == c.timers && c'.active == c.active)
  }

  /** After a cancel the timer is in no index and no longer allocated, and nothing else changed. */
  lemma CancelKeepsAgreement(c: Core, id: TimerId, calling: bool)
    requires IndexAgreement(c)
    ensures IndexAgreement(CancelInLoop(c, id, calling))
    ensures forall p :: p in c.heap && p != id.ptr ==> (Live(c, p) <==> Live(CancelInLoop(c, id, calling), p))
    ensures id in c.active ==> id.ptr !in CancelInLoop(c, id, calling).heap
    ensures OnlyCancels(c, CancelInLoop(c, id, calling), id, calling)
  {
    var c' := CancelInLoop(c, id, calling);
    forall e | e in c'.timers
      ensures Live(c', e.ptr) && e == EntryOf(c', e.ptr) && IdOf(c', e.ptr) in c'.active
    {
      assert Live(c, e.ptr);
    }
    forall a | a in c'.active ensures Live(c', a.ptr) && a == IdOf(c', a.ptr) {
      assert Live(c, a.ptr);
    }
  }

  /** Exactly the due timers leave, and they leave both indexes. */
  lemma ExtractKeepsAgreement(c: Core, now: Timestamp)
    requires IndexAgreement(c)
    ensures IndexAgreement(Extracted(c, now))
    ensures forall p :: Live(Extracted(c, now), p) <==> Live(c, p) && c.heap[p].expiration > now
  {
    var c' := Extracted(c, now);
    forall e | e in c'.timers
      ensures Live(c', e.ptr) && e == EntryOf(c', e.ptr) && IdOf(c', e.ptr) in c'.active
    {
      assert Live(c, e.ptr);
    }
    forall a | a in c'.active ensures Live(c', a.ptr) && a == IdOf(c', a.ptr) {
      assert Live(c, a.ptr);
    }
  }

  /** Restarted timers re-enter both indexes under the new key; the other batch members are freed. */
  lemma ResettleKeepsAgreement(c: Core, batch: set<Ptr>, now: Timestamp)
    requires IndexAgreement(c)
    requires forall p :: p in batch ==> p in c.heap && !Live(c, p)
    ensures IndexAgreement(Resettled(c, batch, now))
    ensures forall p :: p in Resettled(c, batch, now).heap
                   ==> (Live(Resettled(c, batch, now), p) <==> p in batch || Live(c, p))
  {
    var c' := Resettled(c, batch, now);
    forall p | p in c.heap && Live(c, p) ensures Live(c', p) && EntryOf(c', p) == EntryOf(c, p) {
    }
    forall p | p in batch && Survives(c, p) ensures Live(c', p) && IdOf(c', p) in c'.active {
      assert EntryOf(c', p) == Entry(c.heap[p].Restart(now).expiration, p);
      assert IdOf(c', p) == IdOf(c, p);
    }
    forall e | e in c'.timers
      ensures Live(c', e.ptr) && e == EntryOf(c', e.ptr) && IdOf(c', e.ptr) in c'.active
    {
      if e in c.timers { assert Live(c, e.ptr); }
    }
    forall a | a in c'.active ensures Live(c', a.ptr) && a == IdOf(c', a.ptr) {
      if a in c.active { assert Live(c, a.ptr); }
    }
  }
}
