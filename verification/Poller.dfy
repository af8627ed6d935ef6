/** Channels, the poller that keeps them, and the kernel's set of watched descriptors. */
module Pollers {
  /** The values `m_events` takes: `kReadEvent` and `kWriteEvent`, each in or out. */
  datatype Interest = Interest(reading: bool, writing: bool) {
    predicate IsEmpty() { !reading && !writing }
  }

  const EMPTY := Interest(false, false)

  /** The event bits the kernel reports. */
  datatype Ready = Ready(hangUp: bool, error: bool, input: bool, priority: bool, output: bool)

  datatype Index = New | Added | Deleted

  datatype Option<T> = Nothing | Some(value: T)

  /** What `epoll_ctl` is asked to do. */
  datatype Ctl = Add(mask: Interest) | Mod(mask: Interest) | Del

  /** A channel as its poller and the kernel see it. */
  datatype View = View(index: Index, events: Interest, kernel: Option<Interest>, mapped: bool)

  const FRESH := View(New, EMPTY, Nothing, false)

  /** The kernel adds only what it does not hold and changes or deletes only what it holds. */
  predicate Legal(kernel: Option<Interest>, ctl: Ctl) {
    ctl.Add? <==> kernel.Nothing?
  }

  /** A mask is set, and the poller told; or the channel is removed. */
  datatype Op = SetMask(mask: Interest) | Remove

  /** The request an operation makes of the kernel, if any. */
  function Request(v: View, op: Op): Option<Ctl> {
    match op
    case SetMask(mask) =>
      if !v.index.Added? then Some(Add(mask))
      else if mask.IsEmpty() then Some(Del)
      else Some(Mod(mask))
    case Remove => if v.index.Added? then Some(Del) else Nothing
  }

  function Granted(kernel: Option<Interest>, request: Option<Ctl>): Option<Interest> {
    match request
    case Nothing => kernel
    case Some(Add(mask)) => Some(mask)
    case Some(Mod(mask)) => Some(mask)
    case Some(Del) => Nothing
  }

  function Apply(v: View, op: Op): View {
    View(
      match op
      case SetMask(mask) => if v.index.Added? && mask.IsEmpty() then Deleted else Added
      case Remove => New,
      match op case SetMask(mask) => mask case Remove => v.events,
      Granted(v.kernel, Request(v, op)),
      op.SetMask?)
  }

  /** The channel, the poller and the kernel agree. */
  predicate Agree(v: View) {
    && v.kernel == (if v.index.Added? then Some(v.events) else Nothing)
    && (v.mapped <==> !v.index.New?)
    && (v.index.Deleted? ==> v.events.IsEmpty())
  }

  function After(ops: seq<Op>): View {
    if ops == [] then FRESH else Apply(After(ops[..|ops| - 1]), ops[|ops| - 1])
  }

  /** Whatever is done to a channel, the three agree, and every request made of the kernel is legal. */
  lemma {:induction false} PollerAgreesWithKernel(ops: seq<Op>)
    ensures Agree(After(ops))
    ensures forall op :: Request(After(ops), op).Some? ==> Legal(After(ops).kernel, Request(After(ops), op).value)
  {
    if ops != [] {
      PollerAgreesWithKernel(ops[..|ops| - 1]);
    }
  }

  /** The mask set last; a removal leaves it. */
  function LastMask(ops: seq<Op>): Interest {
    if ops == [] then EMPTY
    else if ops[|ops| - 1].SetMask? then ops[|ops| - 1].mask else LastMask(ops[..|ops| - 1])
  }

  /**
    The mask is the one set last.  The kernel watches for exactly that, when it is not empty and no
    removal has followed; and it watches nothing after a removal.
   */
  lemma {:induction false} LastMaskIsWatched(ops: seq<Op>)
    ensures After(ops).events == LastMask(ops)
    ensures ops != [] && ops[|ops| - 1].SetMask? && !LastMask(ops).IsEmpty() ==>
      After(ops).kernel == Some(LastMask(ops)) && After(ops).mapped
    ensures ops != [] && ops[|ops| - 1].Remove? ==> After(ops).kernel.Nothing? && !After(ops).mapped
  {
    PollerAgreesWithKernel(ops);
    if ops != [] {
      LastMaskIsWatched(ops[..|ops| - 1]);
    }
  }

  /** The empty masks set one after the other at the end, since the last removal. */
  function TrailingEmpty(ops: seq<Op>): nat {
    if ops == [] || ops[|ops| - 1] != SetMask(EMPTY) then 0 else 1 + TrailingEmpty(ops[..|ops| - 1])
  }

  /** Before those empty masks a mask that is not empty was set. */
  function WatchedBefore(ops: seq<Op>): bool {
    if ops == [] then false
    else if ops[|ops| - 1] == SetMask(EMPTY) then WatchedBefore(ops[..|ops| - 1])
    else ops[|ops| - 1].SetMask?
  }

  /**
    Setting the empty mask does not always stop the kernel from watching: on a channel that is not
    registered it registers it.  So of empty masks set one after the other every second one registers
    the channel with nothing to watch: the even ones after a mask that was not empty, the odd ones
    after none.  The channel is registered with the empty mask in this case and in no other.
   */
  lemma {:induction false} EmptyMaskToggles(ops: seq<Op>)
    ensures var v, n := After(ops), TrailingEmpty(ops);
      && (v.index.New? <==> n == 0 && !WatchedBefore(ops))
      && (v.kernel == Some(EMPTY) <==> n > 0 && (n % 2 == 0 <==> WatchedBefore(ops)))
      && (v.index.Deleted? <==> n > 0 && (n % 2 == 1 <==> WatchedBefore(ops)))
      && (n == 0 && WatchedBefore(ops) ==> v.index.Added? && !v.events.IsEmpty())
  {
    PollerAgreesWithKernel(ops);
    if ops != [] {
      EmptyMaskToggles(ops[..|ops| - 1]);
      PollerAgreesWithKernel(ops[..|ops| - 1]);
    }
  }

  /** So disabling twice a channel that is watched registers it again, with nothing to watch. */
  lemma DisablingTwiceRegisters()
    ensures var ops := [SetMask(Interest(true, false)), SetMask(EMPTY), SetMask(EMPTY)];
      After(ops) == View(Added, EMPTY, Some(EMPTY), true)
  {
    var watch, disable := SetMask(Interest(true, false)), SetMask(EMPTY);
    assert [watch, disable, disable][..2] == [watch, disable] && [watch, disable][..1] == [watch] && [watch][..0] == [];
    assert After([watch]) == View(Added, Interest(true, false), Some(Interest(true, false)), true);
    assert After([watch, disable]) == View(Deleted, EMPTY, Nothing, true);
  }

  // --- the classes ----------------------------------------------------------------------------

  class Channel {
    const fd: int
    var events: Interest
    var index: Index
    var revents: Ready

    constructor (fd: int)
      ensures this.fd == fd && events == EMPTY && index == New
    {
      this.fd := fd;
      events, index, revents := EMPTY, New, Ready(false, false, false, false, false);
    }
  }

  class EpollPoller {
    var channelMap: map<int, Channel>
    var kernel: map<int, (Channel, Interest)>

    /** The channels of this loop whose descriptors are open. */
    ghost var channels: set<Channel>

    ghost function ViewOf(c: Channel): View
      reads this, c
    {
      View(c.index, c.events,
        if c.fd in kernel && kernel[c.fd].0 == c then Some(kernel[c.fd].1) else Nothing,
        c.fd in channelMap && channelMap[c.fd] == c)
    }

    /** Open descriptors are distinct, and both tables hold nothing but these channels, under their own descriptors. */
    ghost predicate Tables()
      reads this, channels
    {
      && (forall c, d :: c in channels && d in channels && c.fd == d.fd ==> c == d)
      && (forall fd :: fd in channelMap ==> channelMap[fd] in channels && channelMap[fd].fd == fd)
      && (forall fd :: fd in kernel ==> kernel[fd].0 in channels && kernel[fd].0.fd == fd)
    }

    ghost predicate Valid()
      reads this, channels
    {
      Tables() && forall c :: c in channels ==> Agree(ViewOf(c))
    }

    constructor ()
      ensures Valid() && channels == {}
    {
      channelMap, kernel, channels := map[], map[], {};
    }

    /** A new channel comes with an open descriptor, which no other open channel has. */
    ghost method Open(c: Channel)
      requires Valid() && c !in channels && c.events == EMPTY && c.index == New
      requires forall d :: d in channels ==> d.fd != c.fd
      modifies this`channels
      ensures Valid() && channels == old(channels) + {c} && ViewOf(c) == FRESH
      ensures forall d :: d in old(channels) ==> ViewOf(d) == old(ViewOf(d))
    {
      channels := channels + {c};
    }

    /** A descriptor may be closed, and reused, once its channel is unknown to the poller. */
    ghost method Close(c: Channel)
      requires Valid() && c in channels && c.index == New
      modifies this`channels
      ensures Valid() && channels == old(channels) - {c}
      ensures forall d :: d in channels ==> ViewOf(d) == old(ViewOf(d))
    {
      assert Agree(ViewOf(c));
      channels := channels - {c};
    }

    /** `epoll_ctl`: the kernel refuses a request that is not legal, so it is never made one. */
    method Update(ctl: Ctl, c: Channel)
      requires Tables() && c in channels && Legal(ViewOf(c).kernel, ctl)
      modifies this`kernel
      ensures Tables()
      ensures ViewOf(c) == old(ViewOf(c)).(kernel := Granted(old(ViewOf(c)).kernel, Some(ctl)))
      ensures forall d :: d in channels && d != c ==> ViewOf(d) == old(ViewOf(d))
    {
      match ctl
      case Add(mask) => kernel := kernel[c.fd := (c, mask)];
      case Mod(mask) => kernel := kernel[c.fd := (c, mask)];
      case Del => kernel := kernel - {c.fd};
    }

    /** Called after the mask of the channel has changed. */
    method UpdateChannel(c: Channel, ghost before: View)
      requires Tables() && c in channels && Agree(before) && ViewOf(c) == before.(events := c.events)
      modifies this`channelMap, this`kernel, c`index
      ensures Tables() && ViewOf(c) == Apply(before, SetMask(c.events))
      ensures forall d :: d in channels && d != c ==> ViewOf(d) == old(ViewOf(d))
    {
      if c.index == New || c.index == Deleted {
        if c.index == New {
          channelMap := channelMap[c.fd := c];
        }
        c.index := Added;
        Update(Add(c.events), c);
      } else {
        if c.events.IsEmpty() {
          Update(Del, c);
          c.index := Deleted;
        } else {
          Update(Mod(c.events), c);
        }
      }
    }

    method RemoveChannel(c: Channel)
      requires Valid() && c in channels
      modifies this`channelMap, this`kernel, c`index
      ensures Valid() && ViewOf(c) == Apply(old(ViewOf(c)), Remove) && c.index == New
      ensures forall d :: d in channels && d != c ==> ViewOf(d) == old(ViewOf(d))
    {
      assert Agree(ViewOf(c));
      channelMap := channelMap - {c.fd};
      if c.index == Added {
        Update(Del, c);
      }
      c.index := New;
      assert Agree(ViewOf(c));
    }

    method HasChannel(c: Channel) returns (known: bool)
      requires Valid() && c in channels
      ensures known <==> c.index != New
    {
      assert Agree(ViewOf(c));
      known := c.fd in channelMap && channelMap[c.fd] == c;
    }

    method SetEvents(c: Channel, mask: Interest)
      requires Valid() && c in channels
      modifies this`channelMap, this`kernel, c
      ensures Valid() && c.events == mask && ViewOf(c) == Apply(old(ViewOf(c)), SetMask(mask))
      ensures forall d :: d in channels && d != c ==> ViewOf(d) == old(ViewOf(d))
    {
      ghost var before := ViewOf(c);
      assert Agree(before);
      c.events := mask;
      UpdateChannel(c, before);
      assert Agree(ViewOf(c));
    }

    method EnableReading(c: Channel)
      requires Valid() && c in channels
      modifies this`channelMap, this`kernel, c
      ensures Valid() && c.index == Added && c.events == old(c.events).(reading := true)
      ensures forall d :: d in channels && d != c ==> ViewOf(d) == old(ViewOf(d))
    {
      SetEvents(c, c.events.(reading := true));
    }

    method DisableReading(c: Channel)
      requires Valid() && c in channels
      modifies this`channelMap, this`kernel, c
      ensures Valid() && c.events == old(c.events).(reading := false)
      ensures c.index == if old(c.index) == Added && c.events.IsEmpty() then Deleted else Added
      ensures forall d :: d in channels && d != c ==> ViewOf(d) == old(ViewOf(d))
    {
      SetEvents(c, c.events.(reading := false));
    }

    method EnableWriting(c: Channel)
      requires Valid() && c in channels
      modifies this`channelMap, this`kernel, c
      ensures Valid() && c.index == Added && c.events == old(c.events).(writing := true)
      ensures forall d :: d in channels && d != c ==> ViewOf(d) == old(ViewOf(d))
    {
      SetEvents(c, c.events.(writing := true));
    }

    method DisableWriting(c: Channel)
      requires Valid() && c in channels
      modifies this`channelMap, this`kernel, c
      ensures Valid() && c.events == old(c.events).(writing := false)
      ensures c.index == if old(c.index) == Added && c.events.IsEmpty() then Deleted else Added
      ensures forall d :: d in channels && d != c ==> ViewOf(d) == old(ViewOf(d))
    {
      SetEvents(c, c.events.(writing := false));
    }

    /** Stops the watching of a registered channel, and registers one that is not. */
    method DisableAll(c: Channel)
      requires Valid() && c in channels
      modifies this`channelMap, this`kernel, c
      ensures Valid() && c.events == EMPTY
      ensures c.index == if old(c.index) == Added then Deleted else Added
      ensures forall d :: d in channels && d != c ==> ViewOf(d) == old(ViewOf(d))
    {
      SetEvents(c, EMPTY);
    }

    /**
      What `epoll_wait` may report are channels of this loop that it watches, each once.  They are told
      the bits reported of them, and no other channel is.
     */
    method FillActiveChannels(ready: seq<(int, Ready)>) returns (active: seq<Channel>)
      requires Valid()
      requires forall i :: 0 <= i < |ready| ==> ready[i].0 in kernel
      requires forall i, j :: 0 <= i < j < |ready| ==> ready[i].0 != ready[j].0
      modifies channels`revents
      ensures Valid() && |active| == |ready|
      ensures forall i :: 0 <= i < |active| ==>
        && active[i] in channels && active[i].fd == ready[i].0 && active[i].index == Added
        && active[i].revents == ready[i].1
      ensures forall c :: c in channels && c !in active ==> c.revents == old(c.revents)
    {
      active := [];
      for i := 0 to |ready|
        invariant |active| == i && Valid()
        invariant forall j :: 0 <= j < i ==>
          && active[j] in channels && active[j].fd == ready[j].0 && active[j].index == Added
          && active[j].revents == ready[j].1
        invariant forall c :: c in channels && c !in active ==> c.revents == old(c.revents)
      {
        var fd := ready[i].0;
        assert fd in kernel;
        var c := kernel[fd].0;
        assert c in channels && c.fd == fd;
        assert Agree(ViewOf(c));
        Report(c, ready[i].1);
        active := active + [c];
      }
    }

    /** `set_revents`: what a channel is told changes nothing the poller keeps. */
    method Report(c: Channel, bits: Ready)
      requires Valid() && c in channels
      modifies c`revents
      ensures Valid() && c.revents == bits
    {
      ghost var views := map d | d in channels :: ViewOf(d);
      c.revents := bits;
      assert forall d :: d in channels ==> ViewOf(d) == views[d];
    }
  }
}
