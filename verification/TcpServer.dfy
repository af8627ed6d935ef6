/** The server as the source writes it: the map of connections, and the closures it queues for the loops. */
module TcpServers {
  import opened ConnStates
  import opened Lifetime
  import opened L = LifetimeGuarantees
  import opened Pollers

  ghost predicate IsPast(loops: set<nat>, es: seq<Event>) {
    0 in loops && IsRun(Init(loops), es) && AllTimely(Init(loops), es)
  }

  /** The state is one of a run from idle loops in which no `shutdown` completes after the close. */
  ghost predicate Reachable(s: State) {
    exists loops, es: seq<Event> :: IsPast(loops, es) && s == L.After(Init(loops), es)
  }

  lemma StartIsReachable(loops: set<nat>)
    requires 0 in loops
    ensures Reachable(Init(loops))
  {
    assert IsPast(loops, []) && Init(loops) == L.After(Init(loops), []);
  }

  lemma ReachableKeepsInv(s: State)
    requires Reachable(s)
    ensures Inv(s)
  {
    var loops, es: seq<Event> :| IsPast(loops, es) && s == L.After(Init(loops), es);
    InitOk(loops);
    L.RunKeepsInv(Init(loops), es);
  }

  lemma StepIsReachable(s: State, e: Event)
    requires Reachable(s) && Enabled(s, e) && Timely(s, e)
    ensures Reachable(Step(s, e))
  {
    var loops, es: seq<Event> :| IsPast(loops, es) && s == L.After(Init(loops), es);
    RunGoesOn(Init(loops), es, e);
    assert IsPast(loops, es + [e]);
  }

  // --- what the fields show of a state --------------------------------------------------------

  /** The fields of the server and the queues of the loops show the state of a run. */
  ghost predicate Shows(s: State, conns: seq<Conn>, connections: map<nat, Id>, queues: map<nat, seq<Closure>>) {
    && s.conns == conns
    && (forall n :: n in connections ==> n == connections[n] + 1)
    && (forall c: Id :: c in s.connections <==> c + 1 in connections)
    && queues.Keys == s.loops.Keys
    && (forall l :: l in queues ==> queues[l] == s.loops[l].queue)
  }

  /** A step leaves connections, map and queues as they are. */
  ghost predicate Same(s: State, s': State) {
    && s'.conns == s.conns && s'.connections == s.connections && s'.loops.Keys == s.loops.Keys
    && forall l :: l in s.loops ==> s'.loops[l].queue == s.loops[l].queue
  }

  /** The steps of loops and users that move nothing but positions and references. */
  predicate OnlyMoves(e: Event) {
    e.PollReturns? || e.BeginDispatch? || e.EndDispatch? || e.EndBatch? || e.Hold? || e.Drop?
  }

  lemma MoveShows(s: State, e: Event, conns: seq<Conn>, connections: map<nat, Id>, queues: map<nat, seq<Closure>>)
    requires Enabled(s, e) && OnlyMoves(e) && Shows(s, conns, connections, queues)
    ensures Shows(Step(s, e), conns, connections, queues)
  {
    assert Same(s, Step(s, e));
  }

  /** The steps that change one connection, and what they make of it. */
  predicate ChangesOne(s: State, e: Event)
    requires Enabled(s, e)
  {
    || e.CloseMark? || e.SetWriting? || e.StopCheck? || e.StopSet?
    || (e.RunHead? && !s.loops[e.l].phase.batch[0].RemoveInLoop?)
  }

  function Changed(s: State, e: Event): (Id, Conn)
    requires Enabled(s, e) && ChangesOne(s, e)
  {
    match e
    case CloseMark(l) =>
      var c := Current(s, l);
      (c, Masked(s.conns[c].(state := Disconnected), EMPTY))
    case SetWriting(c, on) => (c, Masked(s.conns[c], s.conns[c].view.events.(writing := on)))
    case StopCheck(c) => (c, s.conns[c].(stopping := s.conns[c].stopping + 1))
    case StopSet(c) => (c, s.conns[c].(state := Disconnecting, stopping := s.conns[c].stopping - 1))
    case RunHead(l) =>
      var c := s.loops[l].phase.batch[0].c;
      (c, if s.loops[l].phase.batch[0].Established? then Establish(s.conns[c]) else Destroy(s.conns[c]))
  }

  lemma ChangeShows(s: State, e: Event, conns: seq<Conn>, connections: map<nat, Id>, queues: map<nat, seq<Closure>>)
    requires Enabled(s, e) && ChangesOne(s, e) && Shows(s, conns, connections, queues)
    ensures Changed(s, e).0 < |conns|
    ensures Shows(Step(s, e), conns[Changed(s, e).0 := Changed(s, e).1], connections, queues)
  {
    var s' := Step(s, e);
    assert s'.conns == s.conns[Changed(s, e).0 := Changed(s, e).1];
    assert Same(s.(conns := s'.conns), s');
  }

  lemma TakeShows(s: State, l: nat, conns: seq<Conn>, connections: map<nat, Id>, queues: map<nat, seq<Closure>>)
    requires Enabled(s, EndHandling(l)) && Shows(s, conns, connections, queues)
    ensures Shows(Step(s, EndHandling(l)), conns, connections, queues[l := []])
  {
  }

  lemma EraseShows(s: State, c: Id, conns: seq<Conn>, connections: map<nat, Id>, queues: map<nat, seq<Closure>>)
    requires Enabled(s, RunHead(0)) && s.loops[0].phase.batch[0] == RemoveInLoop(c)
    requires Shows(s, conns, connections, queues)
    ensures Shows(Step(s, RunHead(0)), conns, connections - {c + 1}, queues)
  {
    assert Same(s.(connections := s.connections - {c}), Step(s, RunHead(0)));
  }

  lemma ForwardShows(s: State, conns: seq<Conn>, connections: map<nat, Id>, queues: map<nat, seq<Closure>>)
    requires Enabled(s, Forward) && Shows(s, conns, connections, queues)
    ensures var c := s.loops[0].phase.batch[0].c;
      && c < |conns| && conns[c].loop in queues
      && Shows(Step(s, Forward), conns, connections, queues[conns[c].loop := queues[conns[c].loop] + [Destroyed(c)]])
  {
    var c := s.loops[0].phase.batch[0].c;
    var s1 := SetPhase(s, 0, Running(s.loops[0].phase.batch[1..], false));
    assert Same(s, s1);
    assert Step(s, Forward) == Push(s1, s.conns[c].loop, Destroyed(c));
  }

  lemma CurrentShows(s: State, l: nat)
    requires Reachable(s) && Enabled(s, CloseTell(l))
    ensures var c := Current(s, l); c < |s.conns| && s.conns[c].loop == l && 0 in s.loops
  {
    ReachableKeepsInv(s);
    PhaseIsOk(s, l);
  }

  /** A closing that is told: on the base loop the connection leaves the map at once. */
  lemma TellOnBaseShows(s: State, c: Id, conns: seq<Conn>, connections: map<nat, Id>, queues: map<nat, seq<Closure>>)
    returns (s': State)
    requires Reachable(s) && Enabled(s, CloseTell(0)) && c == Current(s, 0) && Shows(s, conns, connections, queues)
    requires c < |conns| && conns[c].loop == 0
    ensures s' == Step(s, CloseTell(0)) && Reachable(s') && conns[c].loop in queues
    ensures Shows(s', conns, connections - {c + 1}, queues[conns[c].loop := queues[conns[c].loop] + [Destroyed(c)]])
  {
    StepIsReachable(s, CloseTell(0));
    s' := Step(s, CloseTell(0));
    var s1 := SetPhase(s, 0, s.loops[0].phase.(stage := Dispatching));
    assert Same(s, s1);
    assert s' == Push(s1.(connections := s.connections - {c}), 0, Destroyed(c));
  }

  /** On another loop its removal is queued for the base loop. */
  lemma TellElsewhereShows(s: State, l: nat, conns: seq<Conn>, connections: map<nat, Id>,
                           queues: map<nat, seq<Closure>>)
    requires Enabled(s, CloseTell(l)) && l != 0 && Shows(s, conns, connections, queues)
    ensures 0 in queues
    ensures Shows(Step(s, CloseTell(l)), conns, connections, queues[0 := queues[0] + [RemoveInLoop(Current(s, l))]])
  {
    var s1 := SetPhase(s, l, s.loops[l].phase.(stage := Dispatching));
    assert Same(s, s1);
    assert Step(s, CloseTell(l)) == Push(s1, 0, RemoveInLoop(Current(s, l)));
  }

  lemma AcceptShows(s: State, fd: int, loop: nat, conns: seq<Conn>, connections: map<nat, Id>,
                    queues: map<nat, seq<Closure>>)
    requires Reachable(s) && Enabled(s, Accept(fd, loop)) && Shows(s, conns, connections, queues)
    ensures var c, x := |conns|, Conn(fd, loop, Connecting, FRESH, 0);
      && loop in queues
      && Shows(Step(s, Accept(fd, loop)), conns + [if loop == 0 then Establish(x) else x], connections[c + 1 := c],
           if loop == 0 then queues else queues[loop := queues[loop] + [Established(c)]])
  {
    var c, x := |conns|, Conn(fd, loop, Connecting, FRESH, 0);
    ReachableKeepsInv(s);
    var s1 := s.(conns := s.conns + [x], connections := s.connections + {c});
    if loop == 0 {
      assert (conns + [x])[c := Establish(x)] == conns + [Establish(x)];
    } else {
      assert Step(s, Accept(fd, loop)) == Push(s1, loop, Established(c));
    }
  }

  lemma KnownToPoller(s: State, c: Id)
    requires Reachable(s)
    ensures c < |s.conns| ==> Agree(s.conns[c].view)
  {
    ReachableKeepsInv(s);
    if c < |s.conns| { ConnIsOk(s, c); }
  }

  // --- what a channel's poller does -----------------------------------------------------------

  /** `updateChannel` of the poller, for a channel whose mask is set to `mask`. */
  method UpdateChannel(v: View, mask: Interest) returns (r: View)
    requires Agree(v)
    ensures r == Apply(v, SetMask(mask)) && Agree(r)
  {
    r := v.(events := mask);
    if r.index == New || r.index == Deleted {
      if r.index == New {
        r := r.(mapped := true);
      }
      r := r.(index := Added);
      r := r.(kernel := Some(mask));
    } else if mask.IsEmpty() {
      r := r.(kernel := Nothing);
      r := r.(index := Deleted);
    } else {
      r := r.(kernel := Some(mask));
    }
  }

  method RemoveChannel(v: View) returns (r: View)
    requires Agree(v)
    ensures r == Apply(v, Remove)
  {
    r := v.(mapped := false);
    if r.index == Added {
      r := r.(kernel := Nothing);
    }
    r := r.(index := New);
  }

  // --- the class ------------------------------------------------------------------------------

  class TcpServer {
    var nextConnId: nat
    var connections: map<nat, Id>           // by the number the name of a connection ends in
    var conns: seq<Conn>                    // the connection objects, in the order of their creation
    var queues: map<nat, seq<Closure>>      // what is queued for each loop

    ghost var run: State

    ghost predicate Tracks()
      reads this
    {
      Reachable(run) && Shows(run, conns, connections, queues) && nextConnId == |conns| + 1
    }

    constructor (loops: set<nat>)
      requires 0 in loops
      ensures Tracks() && run == Init(loops)
    {
      StartIsReachable(loops);
      nextConnId, connections, conns := 1, map[], [];
      queues := map l | l in loops :: [];
      run := Init(loops);
    }

    method QueueInLoop(l: nat, cl: Closure)
      requires l in queues
      modifies this`queues
      ensures queues == old(queues)[l := old(queues)[l] + [cl]]
    {
      queues := queues[l := queues[l] + [cl]];
    }

    /** `loop` is the one the thread pool gives; without a pool it is the base loop, which is running this. */
    method NewConnection(fd: int, loop: nat)
      requires Tracks() && Enabled(run, Accept(fd, loop))
      modifies this
      ensures Tracks() && run == Step(old(run), Accept(fd, loop))
      ensures nextConnId == old(nextConnId) + 1 && connections == old(connections)[old(nextConnId) := |old(conns)|]
    {
      AcceptShows(run, fd, loop, conns, connections, queues);
      StepIsReachable(run, Accept(fd, loop));
      var c, conn := |conns|, Conn(fd, loop, Connecting, FRESH, 0);
      connections := connections[nextConnId := c];
      nextConnId := nextConnId + 1;
      if loop == 0 {
        var view := UpdateChannel(conn.view, conn.view.events.(reading := true));
        conn := conn.(state := Connected, view := view);
      } else {
        QueueInLoop(loop, Established(c));
      }
      conns := conns + [conn];
      run := Step(run, Accept(fd, loop));
    }

    /** `removeConnection`, called by the connection that loop `l` is dispatching. */
    method RemoveConnection(l: nat, c: Id)
      requires Tracks() && Enabled(run, CloseTell(l)) && c == Current(run, l)
      modifies this
      ensures Tracks() && run == Step(old(run), CloseTell(l))
    {
      if l == 0 {
        RemoveOnBase(c);
      } else {
        RemoveElsewhere(l, c);
      }
    }

    method RemoveOnBase(c: Id)
      requires Tracks() && Enabled(run, CloseTell(0)) && c == Current(run, 0)
      modifies this`connections, this`queues, this`run
      ensures Tracks() && run == Step(old(run), CloseTell(0))
    {
      CurrentShows(run, 0);
      ghost var next := TellOnBaseShows(run, c, conns, connections, queues);
      RemoveConnectionInLoop(c);
      run := next;
    }

    method RemoveElsewhere(l: nat, c: Id)
      requires Tracks() && l != 0 && Enabled(run, CloseTell(l)) && c == Current(run, l)
      modifies this`queues, this`run
      ensures Tracks() && run == Step(old(run), CloseTell(l))
    {
      TellElsewhereShows(run, l, conns, connections, queues);
      StepIsReachable(run, CloseTell(l));
      QueueInLoop(0, RemoveInLoop(c));
      run := Step(run, CloseTell(l));
    }

    /** Erases the connection, and queues its destruction: that is never run at once, even on the same loop. */
    method RemoveConnectionInLoop(c: Id)
      requires c < |conns| && conns[c].loop in queues
      modifies this`connections, this`queues
      ensures connections == old(connections) - {c + 1}
      ensures queues == old(queues)[conns[c].loop := old(queues)[conns[c].loop] + [Destroyed(c)]]
    {
      connections := connections - {c + 1};
      QueueInLoop(conns[c].loop, Destroyed(c));
    }

    /** The two halves of a queued removal, as the base loop runs it: other loops may act in between. */
    method Erase(c: Id)
      requires Tracks() && Enabled(run, RunHead(0)) && run.loops[0].phase.batch[0] == RemoveInLoop(c)
      modifies this`connections, this`run
      ensures Tracks() && run == Step(old(run), RunHead(0)) && connections == old(connections) - {c + 1}
    {
      EraseShows(run, c, conns, connections, queues);
      StepIsReachable(run, RunHead(0));
      connections := connections - {c + 1};
      run := Step(run, RunHead(0));
    }

    method ForwardDestruction(c: Id)
      requires Tracks() && Enabled(run, Forward) && run.loops[0].phase.batch[0].c == c
      modifies this`queues, this`run
      ensures Tracks() && run == Step(old(run), Forward)
    {
      ForwardShows(run, conns, connections, queues);
      StepIsReachable(run, Forward);
      QueueInLoop(conns[c].loop, Destroyed(c));
      run := Step(run, Forward);
    }

    /** `removeConnectionInLoop` on the base loop, not interrupted. */
    method RunRemoval(c: Id)
      requires Tracks() && Enabled(run, RunHead(0)) && run.loops[0].phase.batch[0] == RemoveInLoop(c)
      modifies this
      ensures Enabled(Step(old(run), RunHead(0)), Forward)
      ensures Tracks() && run == Step(Step(old(run), RunHead(0)), Forward)
    {
      ErasureGoesOn(run, c);
      Erase(c);
      ForwardDestruction(c);
    }

    /** Positions of loops and references of users move; the server has nothing to do. */
    method Move(e: Event)
      requires Tracks() && Enabled(run, e) && OnlyMoves(e)
      modifies this`run
      ensures Tracks() && run == Step(old(run), e)
    {
      MoveShows(run, e, conns, connections, queues);
      StepIsReachable(run, e);
      run := Step(run, e);
    }

    /** A connection becomes `x`: it is established, changes its interest, shuts down, is closed or destroyed. */
    method Change(e: Event, c: Id, x: Conn)
      requires Tracks() && Enabled(run, e) && Timely(run, e) && ChangesOne(run, e) && Changed(run, e) == (c, x)
      modifies this`conns, this`run
      ensures Tracks() && run == Step(old(run), e)
    {
      ChangeShows(run, e, conns, connections, queues);
      StepIsReachable(run, e);
      conns := conns[c := x];
      run := Step(run, e);
    }

    method ConnectEstablished(l: nat, c: Id)
      requires Tracks() && Enabled(run, RunHead(l)) && run.loops[l].phase.batch[0] == Established(c)
      modifies this
      ensures Tracks() && run == Step(old(run), RunHead(l))
    {
      KnownToPoller(run, c);
      var x := conns[c];
      x := x.(state := Connected);
      var view := UpdateChannel(x.view, x.view.events.(reading := true));
      Change(RunHead(l), c, x.(view := view));
    }

    method ConnectDestroyed(l: nat, c: Id)
      requires Tracks() && Enabled(run, RunHead(l)) && run.loops[l].phase.batch[0] == Destroyed(c)
      modifies this
      ensures Tracks() && run == Step(old(run), RunHead(l))
    {
      KnownToPoller(run, c);
      var x := conns[c];
      if x.state == Connected {
        x := x.(state := Disconnected);
        var disabled := UpdateChannel(x.view, Interest(false, false));
        x := x.(view := disabled);
      }
      var view := RemoveChannel(x.view);
      Change(RunHead(l), c, x.(view := view));
    }

    /** `handleClose` up to the connection callback. */
    method MarkClosed(l: nat, c: Id)
      requires Tracks() && Enabled(run, CloseMark(l)) && c == Current(run, l)
      modifies this
      ensures Tracks() && run == Step(old(run), CloseMark(l))
    {
      KnownToPoller(run, c);
      var x := conns[c];
      x := x.(state := Disconnected);
      var view := UpdateChannel(x.view, Interest(false, false));
      Change(CloseMark(l), c, x.(view := view));
    }

    method SetWriting(c: Id, on: bool)
      requires Tracks() && Enabled(run, Event.SetWriting(c, on))
      modifies this
      ensures Tracks() && run == Step(old(run), Event.SetWriting(c, on))
    {
      KnownToPoller(run, c);
      var x := conns[c];
      var view := UpdateChannel(x.view, x.view.events.(writing := on));
      Change(Event.SetWriting(c, on), c, x.(view := view));
    }

    /** The test of `shutdown`, and later its assignment. */
    method TestConnected(c: Id)
      requires Tracks() && Enabled(run, StopCheck(c))
      modifies this
      ensures Tracks() && run == Step(old(run), StopCheck(c))
    {
      Change(StopCheck(c), c, conns[c].(stopping := conns[c].stopping + 1));
    }

    method SetDisconnecting(c: Id)
      requires Tracks() && Enabled(run, StopSet(c)) && Timely(run, StopSet(c))
      modifies this
      ensures Tracks() && run == Step(old(run), StopSet(c))
    {
      Change(StopSet(c), c, conns[c].(state := Disconnecting, stopping := conns[c].stopping - 1));
    }

    /** A loop has handled its report, and swaps its queue. */
    method TakeQueue(l: nat) returns (functors: seq<Closure>)
      requires Tracks() && Enabled(run, EndHandling(l))
      modifies this`queues, this`run
      ensures Tracks() && run == Step(old(run), EndHandling(l)) && run.loops[l].phase == Running(functors, false)
    {
      TakeShows(run, l, conns, connections, queues);
      StepIsReachable(run, EndHandling(l));
      functors := queues[l];
      queues := queues[l := []];
      run := Step(run, EndHandling(l));
    }

    /** Whatever may happen, happens to the server. */
    method Perform(e: Event, functor: Closure, c: Id)
      requires Tracks() && Enabled(run, e) && Timely(run, e)
      requires e.RunHead? ==> functor == run.loops[e.l].phase.batch[0]
      requires e.CloseMark? || e.CloseTell? ==> c == Current(run, e.l)
      requires e.Forward? ==> c == run.loops[0].phase.batch[0].c
      modifies this
      ensures Tracks() && run == Step(old(run), e)
    {
      match e {
        case Accept(fd, loop) => NewConnection(fd, loop);
        case CloseMark(l) => MarkClosed(l, c);
        case CloseTell(l) => RemoveConnection(l, c);
        case EndHandling(l) => var _ := TakeQueue(l);
        case RunHead(l) => RunFunctor(l, functor);
        case Forward => ForwardDestruction(c);
        case SetWriting(d, on) => SetWriting(d, on);
        case StopCheck(d) => TestConnected(d);
        case StopSet(d) => SetDisconnecting(d);
        case _ => Move(e);
      }
    }

    method RunFunctor(l: nat, functor: Closure)
      requires Tracks() && Enabled(run, RunHead(l)) && functor == run.loops[l].phase.batch[0]
      modifies this
      ensures Tracks() && run == Step(old(run), RunHead(l))
    {
      RemovalIsOnBase(run, l);
      match functor
      case Established(c) => ConnectEstablished(l, c);
      case RemoveInLoop(c) => Erase(c);
      case Destroyed(c) => ConnectDestroyed(l, c);
    }
  }

  lemma RemovalIsOnBase(s: State, l: nat)
    requires Reachable(s) && Enabled(s, RunHead(l))
    ensures s.loops[l].phase.batch[0].RemoveInLoop? ==> l == 0
  {
    ReachableKeepsInv(s);
    HeadOk(s, l);
  }

  lemma ErasureGoesOn(s: State, c: Id)
    requires Reachable(s) && Enabled(s, RunHead(0)) && s.loops[0].phase.batch[0] == RemoveInLoop(c)
    ensures Enabled(Step(s, RunHead(0)), Forward) && Step(s, RunHead(0)).loops[0].phase.batch[0].c == c
  {
    ReachableKeepsInv(s);
    assert ConnOk(s, c);
  }
}
