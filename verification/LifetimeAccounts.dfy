/** What is done in the hand-off between the loops: each report dispatched, each closure run, each state change. */
module LifetimeAccounts {
  import opened ConnStates
  import opened Lifetime
  import opened LifetimeGuarantees
  import Pollers

  // --- the report -----------------------------------------------------------------------------

  /** How many channels of the report the loop has begun to dispatch. */
  function Begun(p: Phase): nat
    requires p.Handling?
  {
    p.k + if p.stage.Between? then 0 else 1
  }

  lemma DispatchCounts(s: State, l: nat, e: Event)
    requires 0 in s.loops && Enabled(s, e) && l in s.loops && s.loops[l].phase.Handling? && e != EndHandling(l)
    requires Begun(s.loops[l].phase) <= |s.loops[l].phase.active|
    ensures l in Step(s, e).loops && 0 in Step(s, e).loops
    ensures var p, p' := s.loops[l].phase, Step(s, e).loops[l].phase;
      && p'.Handling? && p'.active == p.active && Begun(p') <= |p'.active|
      && Begun(p') == Begun(p) + if e == BeginDispatch(l) then 1 else 0
  {
  }

  /** The n-th dispatch of a report is that of its n-th channel. */
  lemma {:induction false} DispatchesInOrder(s: State, l: nat, es: seq<Event>)
    requires 0 in s.loops && IsRun(s, es) && EndHandling(l) !in es
    requires l in s.loops && s.loops[l].phase.Handling? && Begun(s.loops[l].phase) <= |s.loops[l].phase.active|
    ensures l in After(s, es).loops
    ensures var p, p' := s.loops[l].phase, After(s, es).loops[l].phase;
      && p'.Handling? && p'.active == p.active && Begun(p') <= |p'.active|
      && Begun(p') == Begun(p) + multiset(es)[BeginDispatch(l)]
    decreases |es|
  {
    if es != [] {
      assert es == [es[0]] + es[1..];
      DispatchCounts(s, l, es[0]);
      DispatchesInOrder(Step(s, es[0]), l, es[1..]);
    }
  }

  /**
    In every run, whatever happens meanwhile: the channels of a report are dispatched one after the other,
    in its order, and the loop has dispatched each of them, once, when it goes on to its closures.
   */
  lemma EachIsDispatchedOnce(s: State, l: nat, active: seq<Id>, es: seq<Event>)
    requires 0 in s.loops && Enabled(s, PollReturns(l, active))
    requires IsRun(Step(s, PollReturns(l, active)), es) && EndHandling(l) !in es
    ensures var r, n := After(Step(s, PollReturns(l, active)), es), multiset(es)[BeginDispatch(l)];
      && n <= |active|
      && (Enabled(r, BeginDispatch(l)) ==>
            n < |active| && DispatchedBy(Step(r, BeginDispatch(l)), l, active[n]))
      && (Enabled(r, EndHandling(l)) ==> n == |active|)
  {
    DispatchesInOrder(Step(s, PollReturns(l, active)), l, es);
  }

  // --- the closures ---------------------------------------------------------------------------

  /** The closure the step has run to its end for the loop. */
  function Ran(s: State, e: Event, l: nat): seq<Closure>
    requires l in s.loops
  {
    if Pops(s, e, l) then [s.loops[l].phase.batch[0]] else []
  }

  ghost function RanIn(s: State, es: seq<Event>, l: nat): seq<Closure>
    requires 0 in s.loops && l in s.loops && IsRun(s, es)
    decreases |es|
  {
    if es == [] then []
    else
      KeysKept(s, es[0]);
      Ran(s, es[0], l) + RanIn(Step(s, es[0]), es[1..], l)
  }

  ghost function PushedIn(s: State, es: seq<Event>, l: nat): seq<Closure>
    requires 0 in s.loops && l in s.loops && IsRun(s, es)
    decreases |es|
  {
    if es == [] then []
    else
      KeysKept(s, es[0]);
      Pushed(s, es[0], l) + PushedIn(Step(s, es[0]), es[1..], l)
  }

  lemma StepConserves(s: State, e: Event, l: nat)
    requires 0 in s.loops && Enabled(s, e) && l in s.loops
    ensures l in Step(s, e).loops
    ensures Work(s.loops[l]) + Pushed(s, e, l) == Ran(s, e, l) + Work(Step(s, e).loops[l])
  {
    WorkAfter(s, e, l);
    RanIsHead(s, e, l);
    HeadMovesOver(Work(s.loops[l]), Pops(s, e, l), Pushed(s, e, l), Work(Step(s, e).loops[l]));
  }

  lemma RanIsHead(s: State, e: Event, l: nat)
    requires l in s.loops
    ensures Pops(s, e, l) ==> Work(s.loops[l]) != []
    ensures Ran(s, e, l) == if Pops(s, e, l) then [Work(s.loops[l])[0]] else []
  {
  }

  lemma HeadMovesOver(work: seq<Closure>, pops: bool, pushed: seq<Closure>, work': seq<Closure>)
    requires pops ==> work != []
    requires work' == (if pops then work[1..] else work) + pushed
    ensures work + pushed == (if pops then [work[0]] else []) + work'
  {
    if pops {
      assert work == [work[0]] + work[1..];
    } else {
      assert [] + work' == work';
    }
  }

  lemma Chain(work: seq<Closure>, p: seq<Closure>, r: seq<Closure>, mid: seq<Closure>,
              p': seq<Closure>, r': seq<Closure>, last: seq<Closure>)
    requires work + p == r + mid && mid + p' == r' + last
    ensures work + (p + p') == (r + r') + last
  {
    calc {
      work + (p + p');
      (work + p) + p';
      r + (mid + p');
      (r + r') + last;
    }
  }

  /** In every run what a loop had to run and what was queued for it are, in order, what it has run and what is left. */
  lemma {:induction false} ClosuresInOrder(s: State, es: seq<Event>, l: nat)
    requires 0 in s.loops && l in s.loops && IsRun(s, es)
    ensures l in After(s, es).loops
    ensures Work(s.loops[l]) + PushedIn(s, es, l) == RanIn(s, es, l) + Work(After(s, es).loops[l])
    decreases |es|
  {
    if es != [] {
      var s1 := Step(s, es[0]);
      StepConserves(s, es[0], l);
      KeysKept(s, es[0]);
      ClosuresInOrder(s1, es[1..], l);
      Chain(Work(s.loops[l]), Pushed(s, es[0], l), Ran(s, es[0], l), Work(s1.loops[l]),
            PushedIn(s1, es[1..], l), RanIn(s1, es[1..], l), Work(After(s, es).loops[l]));
    }
  }

  lemma BatchShrinks(s: State, e: Event, l: nat)
    requires 0 in s.loops && Enabled(s, e) && l in s.loops && s.loops[l].phase.Running? && e != EndBatch(l)
    ensures l in Step(s, e).loops && Step(s, e).loops[l].phase.Running?
    ensures s.loops[l].phase.batch == Ran(s, e, l) + Step(s, e).loops[l].phase.batch
  {
    KeysKept(s, e);
  }

  lemma Regroup(a: seq<Closure>, b: seq<Closure>, c: seq<Closure>)
    ensures a + (b + c) == (a + b) + c
  {
  }

  /** While a batch is run, what has been run of it and what is left are that batch. */
  lemma {:induction false} BatchIsRun(s: State, es: seq<Event>, l: nat)
    requires 0 in s.loops && l in s.loops && s.loops[l].phase.Running? && IsRun(s, es) && EndBatch(l) !in es
    ensures l in After(s, es).loops && After(s, es).loops[l].phase.Running?
    ensures s.loops[l].phase.batch == RanIn(s, es, l) + After(s, es).loops[l].phase.batch
    decreases |es|
  {
    if es != [] {
      assert es == [es[0]] + es[1..];
      KeysKept(s, es[0]);
      BatchShrinks(s, es[0], l);
      BatchIsRun(Step(s, es[0]), es[1..], l);
      Regroup(Ran(s, es[0], l), RanIn(Step(s, es[0]), es[1..], l), After(s, es).loops[l].phase.batch);
    }
  }

  /** A loop that has handled its report runs, before it polls again, exactly the closures queued by then, in order. */
  lemma QueueIsRun(s: State, l: nat, es: seq<Event>)
    requires 0 in s.loops && Enabled(s, EndHandling(l)) && l in s.loops
    requires IsRun(Step(s, EndHandling(l)), es) && EndBatch(l) !in es
    requires Enabled(After(Step(s, EndHandling(l)), es), EndBatch(l))
    ensures l in Step(s, EndHandling(l)).loops && 0 in Step(s, EndHandling(l)).loops
    ensures RanIn(Step(s, EndHandling(l)), es, l) == s.loops[l].queue
  {
    KeysKept(s, EndHandling(l));
    BatchIsRun(Step(s, EndHandling(l)), es, l);
  }

  // --- the state of a connection --------------------------------------------------------------

  predicate Closes(s: State, e: Event, c: Id) {
    e.CloseMark? && InStage(s, e.l, Dispatching) && Current(s, e.l) == c
  }

  predicate Establishes(s: State, e: Event, c: Id) {
    && e.RunHead? && e.l in s.loops && s.loops[e.l].phase.Running? && s.loops[e.l].phase.batch != []
    && s.loops[e.l].phase.batch[0] == Established(c)
  }

  /** A connection is established, shut down and closed by these events and by no others. */
  lemma ConnMoves(s: State, e: Event, c: Id)
    requires Inv(s) && Enabled(s, e) && c < |s.conns|
    ensures c < |Step(s, e).conns|
    ensures var x, x' := s.conns[c].state, Step(s, e).conns[c].state;
      && (x'.Connected? <==> Establishes(s, e, c) || (x.Connected? && e != StopSet(c) && !Closes(s, e, c)))
      && (x'.Disconnecting? <==> e == StopSet(c) || (x.Disconnecting? && !Closes(s, e, c)))
      && (x'.Disconnected? <==> Closes(s, e, c) || (x.Disconnected? && e != StopSet(c)))
  {
    if e.RunHead? {
      HeadOk(s, e.l);
      RunMovesConn(s, e, c);
    } else {
      OthersMoveConn(s, e, c);
    }
  }

  lemma RunMovesConn(s: State, e: Event, c: Id)
    requires Enabled(s, e) && e.RunHead? && c < |s.conns| && ClosureOk(s, e.l, s.loops[e.l].phase.batch[0])
    ensures c < |Step(s, e).conns|
    ensures Step(s, e).conns[c].state == if Establishes(s, e, c) then Connected else s.conns[c].state
    ensures Establishes(s, e, c) ==> s.conns[c].state.Connecting?
  {
  }

  lemma OthersMoveConn(s: State, e: Event, c: Id)
    requires Enabled(s, e) && !e.RunHead? && c < |s.conns|
    ensures c < |Step(s, e).conns|
    ensures Step(s, e).conns[c].state
         == if Closes(s, e, c) then Disconnected else if e == StopSet(c) then Disconnecting else s.conns[c].state
  {
  }

  /** A connection keeps its descriptor and its loop. */
  lemma ConnStays(s: State, e: Event, c: Id)
    requires Enabled(s, e) && c < |s.conns|
    ensures c < |Step(s, e).conns|
    ensures Step(s, e).conns[c].fd == s.conns[c].fd && Step(s, e).conns[c].loop == s.conns[c].loop
  {
  }

  /** A new connection has its descriptor and loop, and is connected at once exactly on the base loop. */
  lemma AcceptedIs(s: State, fd: int, l: nat)
    requires Enabled(s, Accept(fd, l))
    ensures var s' := Step(s, Accept(fd, l));
      && |s'.conns| == |s.conns| + 1
      && var x := s'.conns[|s.conns|];
         && x.fd == fd && x.loop == l && x.stopping == 0
         && x.state == (if l == 0 then Connected else Connecting)
         && x.view.events == Pollers.Interest(l == 0, false)
  {
  }

  /** The map gains a connection by accepting it and loses it by its removal, and in no other way. */
  lemma MapMoves(s: State, e: Event, c: Id)
    requires Enabled(s, e)
    ensures c in Step(s, e).connections <==>
      || (e.Accept? && c == |s.conns|)
      || (c in s.connections
          && !(e.RunHead? && s.loops[e.l].phase.batch[0] == RemoveInLoop(c))
          && !(e.CloseTell? && e.l == 0 && Current(s, 0) == c))
  {
  }

  /** Reading is watched for from the establishing to the close, and writing as far as it is asked for. */
  lemma MaskMoves(s: State, e: Event, c: Id)
    requires Inv(s) && Enabled(s, e) && c < |s.conns|
    ensures c < |Step(s, e).conns|
    ensures var x, x' := s.conns[c].view.events, Step(s, e).conns[c].view.events;
      && (x'.reading <==> Establishes(s, e, c) || (x.reading && !Closes(s, e, c)))
      && (x'.writing <==> e == SetWriting(c, true) || (x.writing && e != SetWriting(c, false) && !Closes(s, e, c)))
  {
    if e.RunHead? {
      HeadOk(s, e.l);
      RunMovesMask(s, e, c);
    }
  }

  lemma RunMovesMask(s: State, e: Event, c: Id)
    requires Enabled(s, e) && e.RunHead? && c < |s.conns| && ClosureOk(s, e.l, s.loops[e.l].phase.batch[0])
    ensures c < |Step(s, e).conns|
    ensures var x, x' := s.conns[c].view.events, Step(s, e).conns[c].view.events;
      x'.writing == x.writing && x'.reading == (x.reading || Establishes(s, e, c))
  {
  }

  /** Turning write interest on or off changes the mask the kernel has, and that only; reading stays on. */
  lemma WritingIsWatched(s: State, c: Id, on: bool)
    requires Inv(s) && Enabled(s, SetWriting(c, on))
    ensures var x' := Step(s, SetWriting(c, on)).conns[c];
      x'.view.events == Pollers.Interest(true, on) && x'.view.kernel == Pollers.Some(Pollers.Interest(true, on))
  {
    assert ConnOk(s, c);
  }

  /** Each assignment of a `shutdown` has its own test before it: what is left over is on its way. */
  lemma {:induction false} StopsAddUp(s: State, es: seq<Event>, c: Id)
    requires IsRun(s, es) && c < |s.conns|
    ensures c < |After(s, es).conns|
    ensures After(s, es).conns[c].stopping + multiset(es)[StopSet(c)]
         == s.conns[c].stopping + multiset(es)[StopCheck(c)]
    decreases |es|
  {
    if es != [] {
      assert es == [es[0]] + es[1..];
      StopMoves(s, es[0], c);
      StopsAddUp(Step(s, es[0]), es[1..], c);
    }
  }

  lemma StopMoves(s: State, e: Event, c: Id)
    requires Enabled(s, e) && c < |s.conns|
    ensures c < |Step(s, e).conns|
    ensures Step(s, e).conns[c].stopping
         == s.conns[c].stopping + if e == StopCheck(c) then 1 else if e == StopSet(c) then -1 else 0
  {
  }

  /** A connection a user holds stays alive until the user drops it, whatever becomes of it elsewhere. */
  lemma {:induction false} HeldStaysAlive(s: State, es: seq<Event>, c: Id)
    requires IsRun(s, es) && (c in s.held || Hold(c) in es) && Drop(c) !in es
    ensures c in After(s, es).held && Alive(After(s, es), c)
    decreases |es|
  {
    if es != [] {
      assert es == [es[0]] + es[1..];
      HoldStays(s, es[0], c);
      HeldStaysAlive(Step(s, es[0]), es[1..], c);
    }
  }

  lemma HoldStays(s: State, e: Event, c: Id)
    requires Enabled(s, e)
    ensures c in Step(s, e).held <==> e == Hold(c) || (c in s.held && e != Drop(c))
  {
  }
}
