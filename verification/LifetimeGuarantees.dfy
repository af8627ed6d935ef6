/** What the hand-off between the loops promises in every run. */
module LifetimeGuarantees {
  import opened Lifetime

  ghost predicate IsRun(s: State, es: seq<Event>)
    decreases |es|
  {
    es == [] || (Enabled(s, es[0]) && IsRun(Step(s, es[0]), es[1..]))
  }

  ghost function After(s: State, es: seq<Event>): State
    requires IsRun(s, es)
    decreases |es|
  {
    if es == [] then s else After(Step(s, es[0]), es[1..])
  }

  /** No `shutdown` in the run completes after the close. */
  ghost predicate AllTimely(s: State, es: seq<Event>)
    requires IsRun(s, es)
    decreases |es|
  {
    es == [] || (Timely(s, es[0]) && AllTimely(Step(s, es[0]), es[1..]))
  }

  lemma InitOk(loops: set<nat>)
    requires 0 in loops
    ensures Inv(Init(loops))
  {
  }

  lemma {:induction false} RunKeepsInv(s: State, es: seq<Event>)
    requires Inv(s) && IsRun(s, es) && AllTimely(s, es)
    ensures Inv(After(s, es)) && After(s, es).loops.Keys == s.loops.Keys
    decreases |es|
  {
    if es != [] {
      StepKeepsInv(s, es[0]);
      KeysKept(s, es[0]);
      RunKeepsInv(Step(s, es[0]), es[1..]);
    }
  }

  lemma RunGoesOn(s: State, es: seq<Event>, e: Event)
    requires IsRun(s, es) && Enabled(After(s, es), e)
    ensures IsRun(s, es + [e]) && After(s, es + [e]) == Step(After(s, es), e)
    ensures AllTimely(s, es) && Timely(After(s, es), e) ==> AllTimely(s, es + [e])
  {
    var last := Step(After(s, es), e);
    assert IsRun(last, []) && After(last, []) == last && AllTimely(last, []);
    OneMore(last, After(s, es), e, []);
    assert [e] + [] == [e] && [e][1..] == [];
    JoinRuns(s, es, [e]);
    if AllTimely(s, es) && Timely(After(s, es), e) { JoinTimely(s, es, [e]); }
  }

  lemma {:induction false} JoinTimely(s: State, a: seq<Event>, b: seq<Event>)
    requires IsRun(s, a) && AllTimely(s, a) && IsRun(After(s, a), b) && AllTimely(After(s, a), b)
    ensures IsRun(s, a + b) && AllTimely(s, a + b)
    decreases |a|
  {
    if a == [] {
      assert a + b == b;
    } else {
      assert (a + b)[1..] == a[1..] + b;
      JoinTimely(Step(s, a[0]), a[1..], b);
    }
  }

  /**
    In every run in which no `shutdown` completes after the close: while a poller knows the channel of a
    connection, the connection is in the map, or its removal is queued for or run by the base loop, or its
    destruction is queued for or run by its own loop.  So it is alive, and no other channel a poller knows
    has its descriptor.
   */
  lemma ConnectionLifetime(loops: set<nat>, es: seq<Event>, c: Id)
    requires 0 in loops && IsRun(Init(loops), es) && AllTimely(Init(loops), es)
    requires c < |After(Init(loops), es).conns| && !After(Init(loops), es).conns[c].view.index.New?
    ensures var s := After(Init(loops), es);
      && Owned(s, c) && Alive(s, c)
      && forall d: Id :: d < |s.conns| && d != c && !s.conns[d].view.index.New? ==> s.conns[d].fd != s.conns[c].fd
  {
    var s := After(Init(loops), es);
    InitOk(loops);
    RunKeepsInv(Init(loops), es);
    KnownIsOwned(s, c);
    forall d: Id | d < |s.conns| && d != c && !s.conns[d].view.index.New?
      ensures s.conns[d].fd != s.conns[c].fd
    {
      KnownIsOwned(s, d);
    }
  }

  lemma PhaseLasts(s: State, l: nat, e: Event)
    requires 0 in s.loops && Enabled(s, e) && l in s.loops && s.loops[l].phase.Handling? && e != EndHandling(l)
    ensures l in Step(s, e).loops && Step(s, e).loops[l].phase.Handling?
    ensures Step(s, e).loops[l].phase.active == s.loops[l].phase.active
  {
  }

  lemma {:induction false} ActiveStaysAlive(s: State, l: nat, es: seq<Event>)
    requires Inv(s) && IsRun(s, es) && AllTimely(s, es) && EndHandling(l) !in es
    requires l in s.loops && s.loops[l].phase.Handling?
    ensures var s' := After(s, es);
      && l in s'.loops && s'.loops[l].phase.Handling? && s'.loops[l].phase.active == s.loops[l].phase.active
      && forall i :: 0 <= i < |s.loops[l].phase.active| ==> Alive(s', s.loops[l].phase.active[i])
    decreases |es|
  {
    if es == [] {
      assert LoopOk(s, l);
      forall i | 0 <= i < |s.loops[l].phase.active| ensures Alive(s, s.loops[l].phase.active[i]) {
        KnownIsOwned(s, s.loops[l].phase.active[i]);
      }
    } else {
      StepKeepsInv(s, es[0]);
      PhaseLasts(s, l, es[0]);
      ActiveStaysAlive(Step(s, es[0]), l, es[1..]);
    }
  }

  /**
    In every such run every channel a poll reports belongs to a connection that stays alive until the
    loop has handled the whole report, whatever this loop, the other loops and the users do meanwhile.
   */
  lemma ActiveChannelsAreAlive(loops: set<nat>, before: seq<Event>, l: nat, active: seq<Id>, during: seq<Event>)
    requires 0 in loops && IsRun(Init(loops), before) && AllTimely(Init(loops), before)
    requires Enabled(After(Init(loops), before), PollReturns(l, active))
    requires var s := Step(After(Init(loops), before), PollReturns(l, active));
      IsRun(s, during) && AllTimely(s, during) && EndHandling(l) !in during
    ensures var s := After(Step(After(Init(loops), before), PollReturns(l, active)), during);
      forall i :: 0 <= i < |active| ==> Alive(s, active[i])
  {
    InitOk(loops);
    RunKeepsInv(Init(loops), before);
    var s := After(Init(loops), before);
    StepKeepsInv(s, PollReturns(l, active));
    ActiveStaysAlive(Step(s, PollReturns(l, active)), l, during);
  }

  // --- the end --------------------------------------------------------------------------------

  lemma {:induction false} DeadStaysDead(s: State, es: seq<Event>, c: Id)
    requires Inv(s) && IsRun(s, es) && AllTimely(s, es) && c < |s.conns| && !Alive(s, c)
    ensures c < |After(s, es).conns| && !Alive(After(s, es), c)
    decreases |es|
  {
    if es != [] {
      if Alive(Step(s, es[0]), c) { AliveShrinks(s, es[0], c); }
      StepKeepsInv(s, es[0]);
      DeadStaysDead(Step(s, es[0]), es[1..], c);
    }
  }

  lemma RemovedByStep(s: State, e: Event, c: Id)
    requires Inv(s) && Enabled(s, e) && Timely(s, e)
    requires c < |s.conns| && s.conns[c].state.Disconnected? && s.conns[c].view.index.New?
    ensures var x := Step(s, e).conns[c]; x.state.Disconnected? && x.view.index.New?
  {
    match e
    case RunHead(l) => HeadOk(s, l);
    case CloseMark(l) => assert LoopOk(s, l);
    case _ =>
  }

  /** A channel removed when its connection was closed is never registered again. */
  lemma {:induction false} RemovedForGood(s: State, es: seq<Event>, c: Id)
    requires Inv(s) && IsRun(s, es) && AllTimely(s, es)
    requires c < |s.conns| && s.conns[c].state.Disconnected? && s.conns[c].view.index.New?
    ensures c < |After(s, es).conns| && After(s, es).conns[c].view.index.New?
    decreases |es|
  {
    if es != [] {
      StepKeepsInv(s, es[0]);
      RemovedByStep(s, es[0], c);
      RemovedForGood(Step(s, es[0]), es[1..], c);
    }
  }

  predicate Idle(s: State) {
    forall l :: l in s.loops ==> s.loops[l].phase.Polling? && s.loops[l].queue == []
  }

  /**
    When all loops wait with nothing queued, the map holds exactly the connections that are open, the
    pollers know exactly their channels, and a connection that is not in the map lives only as long as
    a user holds it: nothing leaks.
   */
  lemma NothingLeaks(loops: set<nat>, es: seq<Event>, c: Id)
    requires 0 in loops && IsRun(Init(loops), es) && AllTimely(Init(loops), es) && Idle(After(Init(loops), es))
    requires c < |After(Init(loops), es).conns|
    ensures var s := After(Init(loops), es);
      var x := s.conns[c];
      && (c in s.connections <==> !x.view.index.New?)
      && (c in s.connections <==> x.state.Connected? || x.state.Disconnecting?)
      && (c in s.connections ==> x.view.kernel.Some? && x.view.events.reading)
      && (Alive(s, c) <==> c in s.connections || c in s.held)
  {
    var s := After(Init(loops), es);
    InitOk(loops);
    RunKeepsInv(Init(loops), es);
    assert ConnOk(s, c);
    forall l, cl ensures !Has(s, l, cl) {
      if l in s.loops { assert Work(s.loops[l]) == []; }
    }
  }

  // --- closing twice --------------------------------------------------------------------------

  /**
    A handler can close twice in one dispatch, by the hang-up and by the end of file.  The second time
    registers the channel again, with nothing to watch, though the connection has left the map.
   */
  lemma ClosingTwiceRegisters()
    ensures var es := [Accept(5, 0), PollReturns(0, [0]), BeginDispatch(0), CloseMark(0), CloseTell(0), CloseMark(0)];
      && IsRun(Init({0}), es)
      && var s := After(Init({0}), es);
         && |s.conns| == 1 && 0 !in s.connections
         && s.conns[0].view.events.IsEmpty() && s.conns[0].view.kernel.Some?
  {
    AcceptedOnBase();
    var s1 := Step(Init({0}), Accept(5, 0));
    var rest := [PollReturns(0, [0]), BeginDispatch(0)] + ([CloseMark(0), CloseTell(0)] + [CloseMark(0)]);
    DispatchAndCloseTwice(s1);
    OneMore(s1, Init({0}), Accept(5, 0), rest);
    assert [Accept(5, 0)] + rest
        == [Accept(5, 0), PollReturns(0, [0]), BeginDispatch(0), CloseMark(0), CloseTell(0), CloseMark(0)];
  }

  lemma AcceptedOnBase()
    ensures Enabled(Init({0}), Accept(5, 0))
    ensures var s1 := Step(Init({0}), Accept(5, 0));
      && |s1.conns| == 1 && s1.conns[0].loop == 0 && s1.loops == map[0 := Loop([], Polling)]
      && s1.conns[0].view.index.Added? && s1.conns[0].view.mapped && s1.conns[0].view.kernel.Some?
  {
  }

  lemma DispatchAndCloseTwice(s1: State)
    requires |s1.conns| == 1 && s1.conns[0].loop == 0 && s1.loops == map[0 := Loop([], Polling)]
    requires s1.conns[0].view.index.Added? && s1.conns[0].view.mapped && s1.conns[0].view.kernel.Some?
    ensures var es := [PollReturns(0, [0]), BeginDispatch(0)] + ([CloseMark(0), CloseTell(0)] + [CloseMark(0)]);
      && IsRun(s1, es)
      && var s := After(s1, es);
         && |s.conns| == 1 && 0 !in s.connections
         && s.conns[0].view.events.IsEmpty() && s.conns[0].view.kernel.Some?
  {
    ReachesDispatch(s1);
    var s3 := s1.(loops := map[0 := Loop([], Handling([0], 0, Dispatching))]);
    CloseAndTell(s3);
    CloseAgain(After(s3, [CloseMark(0), CloseTell(0)]));
    JoinRuns(s3, [CloseMark(0), CloseTell(0)], [CloseMark(0)]);
    JoinRuns(s1, [PollReturns(0, [0]), BeginDispatch(0)], [CloseMark(0), CloseTell(0)] + [CloseMark(0)]);
  }

  lemma CloseAgain(s5: State)
    requires |s5.conns| == 1 && s5.conns[0].view.index.Deleted? && 0 !in s5.connections
    requires InStage(s5, 0, Dispatching) && s5.loops[0].phase.active[s5.loops[0].phase.k] == 0
    ensures IsRun(s5, [CloseMark(0)])
    ensures var s := After(s5, [CloseMark(0)]);
      && |s.conns| == 1 && 0 !in s.connections
      && s.conns[0].view.events.IsEmpty() && s.conns[0].view.kernel.Some?
  {
    OneMore(Step(s5, CloseMark(0)), s5, CloseMark(0), []);
    assert [CloseMark(0)] + [] == [CloseMark(0)];
  }

  lemma ReachesDispatch(s1: State)
    requires |s1.conns| == 1 && s1.conns[0].loop == 0 && s1.conns[0].view.kernel.Some?
    requires s1.loops == map[0 := Loop([], Polling)]
    ensures var es := [PollReturns(0, [0]), BeginDispatch(0)];
      && IsRun(s1, es)
      && After(s1, es) == s1.(loops := map[0 := Loop([], Handling([0], 0, Dispatching))])
  {
    var s2 := s1.(loops := map[0 := Loop([], Handling([0], 0, Between))]);
    assert Step(s1, PollReturns(0, [0])) == s2;
    var s3 := s1.(loops := map[0 := Loop([], Handling([0], 0, Dispatching))]);
    assert Step(s2, BeginDispatch(0)) == s3;
    OneMore(s3, s2, BeginDispatch(0), []);
    OneMore(s2, s1, PollReturns(0, [0]), [BeginDispatch(0)] + []);
    assert [PollReturns(0, [0])] + ([BeginDispatch(0)] + []) == [PollReturns(0, [0]), BeginDispatch(0)];
  }

  lemma CloseAndTell(s3: State)
    requires |s3.conns| == 1 && s3.conns[0].view.index.Added? && s3.conns[0].view.mapped
    requires s3.loops == map[0 := Loop([], Handling([0], 0, Dispatching))]
    ensures var es := [CloseMark(0), CloseTell(0)];
      && IsRun(s3, es)
      && var s5, x := After(s3, es), s3.conns[0];
         && |s5.conns| == 1 && s5.conns[0].view.index.Deleted? && s5.conns[0].state.Disconnected?
         && s5.conns[0].loop == x.loop && s5.conns[0].stopping == x.stopping
         && s5.connections == s3.connections - {0} && s5.held == s3.held
         && s5.loops == map[0 := Loop([Destroyed(0)], Handling([0], 0, Dispatching))]
  {
    var s4 := Step(s3, CloseMark(0));
    assert s4.loops == map[0 := Loop([], Handling([0], 0, Closing))];
    var s5 := Step(s4, CloseTell(0));
    assert [] + [Destroyed(0)] == [Destroyed(0)];
    assert s5.loops == map[0 := Loop([Destroyed(0)], Handling([0], 0, Dispatching))];
    OneMore(s5, s4, CloseTell(0), []);
    OneMore(s4, s3, CloseMark(0), [CloseTell(0)] + []);
    assert [CloseMark(0)] + ([CloseTell(0)] + []) == [CloseMark(0), CloseTell(0)];
  }

  // --- a shutdown that completes after the close ----------------------------------------------

  function LateShutdown(): seq<Event> {
    [Accept(5, 0), Hold(0), StopCheck(0)]
    + ([PollReturns(0, [0]), BeginDispatch(0)]
       + ([CloseMark(0), CloseTell(0)]
          + ([EndDispatch(0), EndHandling(0), RunHead(0)]
             + ([StopSet(0), SetWriting(0, true), EndBatch(0)]
                + [PollReturns(0, [0]), Drop(0)]))))
  }

  /**
    Without the timing the guarantees fail.  A thread has tested the state before the close and assigns
    after the destruction; a send finds the state back at disconnecting and turns write interest on,
    which registers the removed channel.  A poll reports it, the last reference goes, and the loop is
    about to handle a channel that is gone.
   */
  lemma LateShutdownDangles()
    ensures IsRun(Init({0}), LateShutdown())
    ensures var s := After(Init({0}), LateShutdown());
      s.loops == map[0 := Loop([], Handling([0], 0, Between))] && !Alive(s, 0)
  {
    HeldAndTested();
    var a := [Accept(5, 0), Hold(0), StopCheck(0)];
    var rest := [PollReturns(0, [0]), BeginDispatch(0)] + ([CloseMark(0), CloseTell(0)]
                + ([EndDispatch(0), EndHandling(0), RunHead(0)]
                   + ([StopSet(0), SetWriting(0, true), EndBatch(0)] + [PollReturns(0, [0]), Drop(0)])));
    LateShutdownGoesOn(After(Init({0}), a));
    JoinRuns(Init({0}), a, rest);
    assert LateShutdown() == a + rest;
  }

  ghost predicate Tested(s: State) {
    && |s.conns| == 1 && s.conns[0].loop == 0 && s.conns[0].stopping == 1 && s.connections == {0} && s.held == {0}
    && s.conns[0].view.index.Added? && s.conns[0].view.mapped && s.conns[0].view.kernel.Some?
    && s.loops == map[0 := Loop([], Polling)]
  }

  lemma HeldAndTested()
    ensures IsRun(Init({0}), [Accept(5, 0), Hold(0), StopCheck(0)])
    ensures Tested(After(Init({0}), [Accept(5, 0), Hold(0), StopCheck(0)]))
  {
    AcceptedOnBase();
    var s0 := Init({0});
    var s1 := Step(s0, Accept(5, 0));
    assert s1.connections == {0} && s1.conns[0].state.Connected? && s1.held == {};
    var s2 := Step(s1, Hold(0));
    var s3 := Step(s2, StopCheck(0));
    assert s2.held == {0} && s3.conns[0].stopping == 1;
    OneMore(s3, s2, StopCheck(0), []);
    OneMore(s2, s1, Hold(0), [StopCheck(0)] + []);
    OneMore(s1, s0, Accept(5, 0), [Hold(0)] + ([StopCheck(0)] + []));
    assert [Accept(5, 0)] + ([Hold(0)] + ([StopCheck(0)] + [])) == [Accept(5, 0), Hold(0), StopCheck(0)];
  }

  lemma LateShutdownGoesOn(s: State)
    requires Tested(s)
    ensures var es := [PollReturns(0, [0]), BeginDispatch(0)] + ([CloseMark(0), CloseTell(0)]
                      + ([EndDispatch(0), EndHandling(0), RunHead(0)]
                         + ([StopSet(0), SetWriting(0, true), EndBatch(0)] + [PollReturns(0, [0]), Drop(0)])));
      && IsRun(s, es)
      && var r := After(s, es);
         r.loops == map[0 := Loop([], Handling([0], 0, Between))] && !Alive(r, 0)
  {
    var b, c := [PollReturns(0, [0]), BeginDispatch(0)], [CloseMark(0), CloseTell(0)];
    var d := [EndDispatch(0), EndHandling(0), RunHead(0)];
    var e, f := [StopSet(0), SetWriting(0, true), EndBatch(0)], [PollReturns(0, [0]), Drop(0)];
    ReachesDispatch(s);
    var s2 := After(s, b);
    CloseAndTell(s2);
    var s3 := After(s2, c);
    DestructionRuns(s3);
    var s4 := After(s3, d);
    LateSetRegisters(s4);
    var s5 := After(s4, e);
    LastDropDangles(s5);
    JoinRuns(s4, e, f);
    JoinRuns(s3, d, e + f);
    JoinRuns(s2, c, d + (e + f));
    JoinRuns(s, b, c + (d + (e + f)));
  }

  ghost predicate OutOfMap(s: State) {
    |s.conns| == 1 && s.conns[0].loop == 0 && 0 !in s.connections && s.held == {0}
  }

  lemma DestructionRuns(s: State)
    requires OutOfMap(s) && s.conns[0].state.Disconnected? && s.conns[0].stopping == 1
    requires s.loops == map[0 := Loop([Destroyed(0)], Handling([0], 0, Dispatching))]
    ensures var es := [EndDispatch(0), EndHandling(0), RunHead(0)];
      && IsRun(s, es)
      && var r := After(s, es);
         && OutOfMap(r) && r.conns[0].state.Disconnected? && r.conns[0].stopping == 1 && r.conns[0].view.index.New?
         && r.loops == map[0 := Loop([], Running([], false))]
  {
    var s1 := Step(s, EndDispatch(0));
    assert s1.loops == map[0 := Loop([Destroyed(0)], Handling([0], 1, Between))];
    var s2 := Step(s1, EndHandling(0));
    assert s2.loops == map[0 := Loop([], Running([Destroyed(0)], false))];
    var s3 := Step(s2, RunHead(0));
    assert [Destroyed(0)][1..] == [];
    OneMore(s3, s2, RunHead(0), []);
    OneMore(s2, s1, EndHandling(0), [RunHead(0)] + []);
    OneMore(s1, s, EndDispatch(0), [EndHandling(0)] + ([RunHead(0)] + []));
    assert [EndDispatch(0)] + ([EndHandling(0)] + ([RunHead(0)] + [])) == [EndDispatch(0), EndHandling(0), RunHead(0)];
  }

  lemma LateSetRegisters(s: State)
    requires OutOfMap(s) && s.conns[0].stopping == 1 && s.conns[0].view.index.New?
    requires s.loops == map[0 := Loop([], Running([], false))]
    ensures var es := [StopSet(0), SetWriting(0, true), EndBatch(0)];
      && IsRun(s, es)
      && var r := After(s, es);
         OutOfMap(r) && r.conns[0].view.kernel.Some? && r.loops == map[0 := Loop([], Polling)]
  {
    var s1 := Step(s, StopSet(0));
    assert s1.conns[0].view == s.conns[0].view && s1.held == {0} && Alive(s1, 0);
    var s2 := Step(s1, SetWriting(0, true));
    assert s2.conns[0].view.kernel.Some?;
    var s3 := Step(s2, EndBatch(0));
    OneMore(s3, s2, EndBatch(0), []);
    OneMore(s2, s1, SetWriting(0, true), [EndBatch(0)] + []);
    OneMore(s1, s, StopSet(0), [SetWriting(0, true)] + ([EndBatch(0)] + []));
    assert [StopSet(0)] + ([SetWriting(0, true)] + ([EndBatch(0)] + []))
        == [StopSet(0), SetWriting(0, true), EndBatch(0)];
  }

  lemma LastDropDangles(s: State)
    requires OutOfMap(s) && s.conns[0].view.kernel.Some? && s.loops == map[0 := Loop([], Polling)]
    ensures var es := [PollReturns(0, [0]), Drop(0)];
      && IsRun(s, es)
      && var r := After(s, es);
         r.loops == map[0 := Loop([], Handling([0], 0, Between))] && !Alive(r, 0)
  {
    var s1 := Step(s, PollReturns(0, [0]));
    assert s1.loops == map[0 := Loop([], Handling([0], 0, Between))];
    var s2 := Step(s1, Drop(0));
    assert s2.held == {} && Work(s2.loops[0]) == [];
    assert forall l, cl :: !Has(s2, l, cl);
    OneMore(s2, s1, Drop(0), []);
    OneMore(s1, s, PollReturns(0, [0]), [Drop(0)] + []);
    assert [PollReturns(0, [0])] + ([Drop(0)] + []) == [PollReturns(0, [0]), Drop(0)];
  }

  // --- runs written out -----------------------------------------------------------------------

  lemma OneMore(s1: State, s: State, e: Event, rest: seq<Event>)
    requires Enabled(s, e) && s1 == Step(s, e) && IsRun(s1, rest)
    ensures IsRun(s, [e] + rest) && After(s, [e] + rest) == After(s1, rest)
  {
    assert ([e] + rest)[1..] == rest;
  }

  lemma {:induction false} JoinRuns(s: State, a: seq<Event>, b: seq<Event>)
    requires IsRun(s, a) && IsRun(After(s, a), b)
    ensures IsRun(s, a + b) && After(s, a + b) == After(After(s, a), b)
    decreases |a|
  {
    if a == [] {
      assert a + b == b;
    } else {
      assert (a + b)[1..] == a[1..] + b;
      JoinRuns(Step(s, a[0]), a[1..], b);
    }
  }
}
