/**
  The life of connections across loops: shared ownership moves between the map of the server, closures
  in the queue of the base loop and closures in the queue of the connection's own loop, while its
  channel is known to a poller by a raw pointer.  Loop 0 is the base loop.
 */
module Lifetime {
  import opened ConnStates
  import opened Pollers

  type Id = nat

  /** `stopping`: threads in `shutdown`, between its test and its assignment. */
  datatype Conn = Conn(fd: int, loop: nat, state: ConnState, view: View, stopping: nat)

  /** A queued closure holds a reference to its connection. */
  datatype Closure = Established(c: Id) | RemoveInLoop(c: Id) | Destroyed(c: Id)

  /** A dispatch holds a reference to the connection; `Closing`: marked closed, the server not told yet. */
  datatype Stage = Between | Dispatching | Closing

  /** The head of a batch is the closure being run; `begun`: it has erased the connection from the map. */
  datatype Phase =
    | Polling
    | Handling(active: seq<Id>, k: nat, stage: Stage)
    | Running(batch: seq<Closure>, begun: bool)

  datatype Loop = Loop(queue: seq<Closure>, phase: Phase)

  /** `held`: the connections users hold references to. */
  datatype State = State(conns: seq<Conn>, connections: set<Id>, held: set<Id>, loops: map<nat, Loop>)

  datatype Event =
    | Accept(fd: int, loop: nat)
    | PollReturns(l: nat, active: seq<Id>)
    | BeginDispatch(l: nat)
    | CloseMark(l: nat)
    | CloseTell(l: nat)
    | EndDispatch(l: nat)
    | EndHandling(l: nat)
    | RunHead(l: nat)
    | Forward
    | EndBatch(l: nat)
    | SetWriting(c: Id, on: bool)
    | StopCheck(c: Id)
    | StopSet(c: Id)
    | Hold(c: Id)
    | Drop(c: Id)

  // --- references -----------------------------------------------------------------------------

  function Batch(p: Phase): seq<Closure> {
    if p.Running? then p.batch else []
  }

  /** What a loop has still to run: its batch, then its queue. */
  function Work(lp: Loop): seq<Closure> {
    Batch(lp.phase) + lp.queue
  }

  predicate Has(s: State, l: nat, cl: Closure) {
    l in s.loops && cl in Work(s.loops[l])
  }

  predicate DispatchedBy(s: State, l: nat, c: Id) {
    && l in s.loops && s.loops[l].phase.Handling? && !s.loops[l].phase.stage.Between?
    && s.loops[l].phase.k < |s.loops[l].phase.active| && s.loops[l].phase.active[s.loops[l].phase.k] == c
  }

  /** Some reference keeps the connection, its channel and its descriptor. */
  ghost predicate Alive(s: State, c: Id) {
    || c in s.connections
    || c in s.held
    || (exists l, cl :: Has(s, l, cl) && cl.c == c)
    || (exists l :: DispatchedBy(s, l, c))
  }

  // --- steps ----------------------------------------------------------------------------------

  ghost predicate Enabled(s: State, e: Event) {
    match e
    case Accept(fd, loop) =>
      && 0 in s.loops && loop in s.loops
      && forall c: Id :: c < |s.conns| && Alive(s, c) ==> s.conns[c].fd != fd
    case PollReturns(l, active) =>
      && l in s.loops && s.loops[l].phase.Polling?
      && forall i :: 0 <= i < |active| ==>
           active[i] < |s.conns| && s.conns[active[i]].loop == l && s.conns[active[i]].view.kernel.Some?
    case BeginDispatch(l) =>
      && l in s.loops && s.loops[l].phase.Handling? && s.loops[l].phase.stage.Between?
      && s.loops[l].phase.k < |s.loops[l].phase.active|
    case CloseMark(l) => InStage(s, l, Dispatching)
    case CloseTell(l) => InStage(s, l, Closing) && 0 in s.loops
    case EndDispatch(l) => InStage(s, l, Dispatching)
    case EndHandling(l) =>
      && l in s.loops && s.loops[l].phase.Handling? && s.loops[l].phase.stage.Between?
      && s.loops[l].phase.k >= |s.loops[l].phase.active|
    case RunHead(l) =>
      l in s.loops && s.loops[l].phase.Running? && s.loops[l].phase.batch != [] && !s.loops[l].phase.begun
      && s.loops[l].phase.batch[0].c < |s.conns|
    case Forward =>
      0 in s.loops && s.loops[0].phase.Running? && s.loops[0].phase.batch != [] && s.loops[0].phase.begun
      && s.loops[0].phase.batch[0].c < |s.conns| && s.conns[s.loops[0].phase.batch[0].c].loop in s.loops
    case EndBatch(l) => l in s.loops && s.loops[l].phase.Running? && s.loops[l].phase.batch == []
    case SetWriting(c, _) =>
      c < |s.conns| && Alive(s, c) && (s.conns[c].state.Connected? || s.conns[c].state.Disconnecting?)
    case StopCheck(c) => c < |s.conns| && Alive(s, c) && s.conns[c].state.Connected?
    case StopSet(c) => c < |s.conns| && Alive(s, c) && s.conns[c].stopping > 0
    case Hold(c) => c < |s.conns| && Alive(s, c)
    case Drop(c) => c in s.held
  }

  predicate InStage(s: State, l: nat, stage: Stage) {
    && l in s.loops && s.loops[l].phase.Handling? && s.loops[l].phase.stage == stage
    && s.loops[l].phase.k < |s.loops[l].phase.active|
    && s.loops[l].phase.active[s.loops[l].phase.k] < |s.conns|
  }

  function SetConn(s: State, c: Id, x: Conn): State
    requires c < |s.conns|
  {
    s.(conns := s.conns[c := x])
  }

  function SetPhase(s: State, l: nat, p: Phase): State
    requires l in s.loops
  {
    s.(loops := s.loops[l := s.loops[l].(phase := p)])
  }

  function Push(s: State, l: nat, cl: Closure): State
    requires l in s.loops
  {
    s.(loops := s.loops[l := s.loops[l].(queue := s.loops[l].queue + [cl])])
  }

  function Masked(x: Conn, mask: Interest): Conn {
    x.(view := Apply(x.view, SetMask(mask)))
  }

  /** `connectEstablished`. */
  function Establish(x: Conn): Conn {
    Masked(x.(state := Connected), x.view.events.(reading := true))
  }

  /** `connectDestroyed`. */
  function Destroy(x: Conn): Conn {
    var y := if x.state.Connected? then Masked(x.(state := Disconnected), EMPTY) else x;
    y.(view := Apply(y.view, Remove))
  }

  ghost function Step(s: State, e: Event): State
    requires Enabled(s, e)
  {
    match e
    case Accept(fd, loop) =>
      var c, x := |s.conns|, Conn(fd, loop, Connecting, FRESH, 0);
      var s' := s.(conns := s.conns + [x], connections := s.connections + {c});
      if loop == 0 then SetConn(s', c, Establish(x)) else Push(s', loop, Established(c))
    case PollReturns(l, active) => SetPhase(s, l, Handling(active, 0, Between))
    case BeginDispatch(l) => SetPhase(s, l, s.loops[l].phase.(stage := Dispatching))
    case CloseMark(l) =>
      var c := s.loops[l].phase.active[s.loops[l].phase.k];
      SetPhase(SetConn(s, c, Masked(s.conns[c].(state := Disconnected), EMPTY)), l, s.loops[l].phase.(stage := Closing))
    case CloseTell(l) =>
      var c := s.loops[l].phase.active[s.loops[l].phase.k];
      var s' := SetPhase(s, l, s.loops[l].phase.(stage := Dispatching));
      if l == 0 then Push(s'.(connections := s.connections - {c}), l, Destroyed(c))
      else Push(s', 0, RemoveInLoop(c))
    case EndDispatch(l) => SetPhase(s, l, s.loops[l].phase.(k := s.loops[l].phase.k + 1, stage := Between))
    case EndHandling(l) => s.(loops := s.loops[l := Loop([], Running(s.loops[l].queue, false))])
    case RunHead(l) =>
      var p := s.loops[l].phase;
      (match p.batch[0]
       case Established(c) => SetPhase(SetConn(s, c, Establish(s.conns[c])), l, p.(batch := p.batch[1..]))
       case RemoveInLoop(c) => SetPhase(s.(connections := s.connections - {c}), l, p.(begun := true))
       case Destroyed(c) => SetPhase(SetConn(s, c, Destroy(s.conns[c])), l, p.(batch := p.batch[1..])))
    case Forward =>
      var p := s.loops[0].phase;
      var c := p.batch[0].c;
      Push(SetPhase(s, 0, Running(p.batch[1..], false)), s.conns[c].loop, Destroyed(c))
    case EndBatch(l) => SetPhase(s, l, Polling)
    case SetWriting(c, on) => SetConn(s, c, Masked(s.conns[c], s.conns[c].view.events.(writing := on)))
    case StopCheck(c) => SetConn(s, c, s.conns[c].(stopping := s.conns[c].stopping + 1))
    case StopSet(c) =>
      SetConn(s, c, s.conns[c].(state := Disconnecting, stopping := s.conns[c].stopping - 1))
    case Hold(c) => s.(held := s.held + {c})
    case Drop(c) => s.(held := s.held - {c})
  }

  /** No thread completes a `shutdown` that tested the state before the connection was closed. */
  predicate Timely(s: State, e: Event) {
    e.StopSet? && e.c < |s.conns| ==> !s.conns[e.c].state.Disconnected?
  }

  /** Idle loops and no connection. */
  function Init(loops: set<nat>): State {
    State([], {}, {}, map l | l in loops :: Loop([], Polling))
  }

  // --- what every step keeps ------------------------------------------------------------------

  predicate ClosingNow(s: State, c: Id)
    requires c < |s.conns|
  {
    InStage(s, s.conns[c].loop, Closing) && s.loops[s.conns[c].loop].phase.active[s.loops[s.conns[c].loop].phase.k] == c
  }

  predicate Removing(s: State, c: Id) {
    && 0 in s.loops && s.loops[0].phase.Running? && s.loops[0].phase.begun
    && s.loops[0].phase.batch != [] && s.loops[0].phase.batch[0] == RemoveInLoop(c)
  }

  /** Where a connection is in its life, and who holds it there. */
  predicate ConnOk(s: State, c: Id)
    requires c < |s.conns|
  {
    var x := s.conns[c];
    && x.loop in s.loops && Agree(x.view)
    && (match x.state
        case Connecting =>
          c in s.connections && x.view == FRESH && x.stopping == 0 && Has(s, x.loop, Established(c))
        case Connected => c in s.connections && x.view.events.reading && x.view.index.Added?
        case Disconnecting => c in s.connections && x.view.events.reading && x.view.index.Added?
        case Disconnected =>
          && x.view.events == EMPTY
          && (c in s.connections ==> Has(s, 0, RemoveInLoop(c)) || ClosingNow(s, c))
          && (c !in s.connections && !x.view.index.New? ==> Has(s, x.loop, Destroyed(c)) || Removing(s, c)))
  }

  predicate ClosureOk(s: State, l: nat, cl: Closure) {
    && cl.c < |s.conns|
    && match cl
       case Established(c) => s.conns[c].loop == l && s.conns[c].state.Connecting?
       case RemoveInLoop(c) => l == 0 && s.conns[c].state.Disconnected?
       case Destroyed(c) => s.conns[c].loop == l && s.conns[c].state.Disconnected? && c !in s.connections
  }

  predicate PhaseOk(s: State, l: nat, p: Phase) {
    match p
    case Polling => true
    case Handling(active, k, stage) =>
      && (forall i :: 0 <= i < |active| ==>
            active[i] < |s.conns| && s.conns[active[i]].loop == l && !s.conns[active[i]].view.index.New?)
      && (!stage.Between? ==> k < |active|)
      && (stage.Closing? ==> s.conns[active[k]].state.Disconnected?)
    case Running(batch, begun) =>
      begun ==> l == 0 && batch != [] && batch[0].RemoveInLoop? && batch[0].c !in s.connections
  }

  /** Each closure fits its connection, and no connection is established twice. */
  predicate WorkOk(s: State, l: nat, w: seq<Closure>) {
    && (forall i :: 0 <= i < |w| ==> ClosureOk(s, l, w[i]))
    && (forall i, j :: 0 <= i < j < |w| && w[i].Established? ==> w[i] != w[j])
  }

  predicate LoopOk(s: State, l: nat)
    requires l in s.loops
  {
    PhaseOk(s, l, s.loops[l].phase) && WorkOk(s, l, Work(s.loops[l]))
  }

  ghost predicate DistinctFds(s: State) {
    forall c: Id, d: Id :: c < d < |s.conns| && Alive(s, c) && Alive(s, d) ==> s.conns[c].fd != s.conns[d].fd
  }

  ghost predicate Inv(s: State) {
    && 0 in s.loops
    && (forall c: Id :: c < |s.conns| ==> ConnOk(s, c))
    && (forall l :: l in s.loops ==> LoopOk(s, l))
    && (forall c :: c in s.connections ==> c < |s.conns|)
    && DistinctFds(s)
  }

  // --- proofs ---------------------------------------------------------------------------------


  function Current(s: State, l: nat): Id
    requires l in s.loops && s.loops[l].phase.Handling? && s.loops[l].phase.k < |s.loops[l].phase.active|
  {
    s.loops[l].phase.active[s.loops[l].phase.k]
  }

  /** The step takes the head off what the loop has to run. */
  predicate Pops(s: State, e: Event, l: nat)
    requires l in s.loops
  {
    && s.loops[l].phase.Running? && s.loops[l].phase.batch != []
    && match e
       case RunHead(m) => l == m && !s.loops[l].phase.batch[0].RemoveInLoop?
       case Forward => l == 0
       case _ => false
  }

  /** The closures the step queues for a loop. */
  function Pushed(s: State, e: Event, l: nat): seq<Closure> {
    match e
    case Accept(_, m) => if m != 0 && l == m then [Established(|s.conns|)] else []
    case CloseTell(m) =>
      if InStage(s, m, Closing) && l == 0 then
        [if m == 0 then Destroyed(Current(s, m)) else RemoveInLoop(Current(s, m))]
      else []
    case Forward =>
      if 0 in s.loops && s.loops[0].phase.Running? && s.loops[0].phase.batch != [] then
        var c := s.loops[0].phase.batch[0].c;
        if c < |s.conns| && s.conns[c].loop == l then [Destroyed(c)] else []
      else []
    case _ => []
  }

  lemma WorkAfterHead(s: State, m: nat, l: nat)
    requires 0 in s.loops && Enabled(s, RunHead(m)) && l in s.loops
    ensures var s' := Step(s, RunHead(m));
      && s'.loops.Keys == s.loops.Keys
      && Work(s'.loops[l]) == if Pops(s, RunHead(m), l) then Work(s.loops[l])[1..] else Work(s.loops[l])
  {
    if l == m {
      assert Work(s.loops[l])[1..] == s.loops[l].phase.batch[1..] + s.loops[l].queue;
    }
  }

  lemma WorkAfterForward(s: State, l: nat)
    requires 0 in s.loops && Enabled(s, Forward) && l in s.loops
    ensures var s' := Step(s, Forward);
      && s'.loops.Keys == s.loops.Keys
      && Work(s'.loops[l]) == (if l == 0 then Work(s.loops[l])[1..] else Work(s.loops[l])) + Pushed(s, Forward, l)
  {
    if l == 0 {
      assert Work(s.loops[l])[1..] == s.loops[l].phase.batch[1..] + s.loops[l].queue;
    }
  }

  lemma WorkAfterTell(s: State, m: nat, l: nat)
    requires 0 in s.loops && Enabled(s, CloseTell(m)) && l in s.loops
    ensures var s' := Step(s, CloseTell(m));
      s'.loops.Keys == s.loops.Keys && Work(s'.loops[l]) == Work(s.loops[l]) + Pushed(s, CloseTell(m), l)
  {
  }

  lemma WorkAfterAccept(s: State, e: Event, l: nat)
    requires 0 in s.loops && Enabled(s, e) && e.Accept? && l in s.loops
    ensures var s' := Step(s, e);
      s'.loops.Keys == s.loops.Keys && Work(s'.loops[l]) == Work(s.loops[l]) + Pushed(s, e, l)
  {
  }

  lemma WorkAfterQuiet(s: State, e: Event, l: nat)
    requires 0 in s.loops && Enabled(s, e) && l in s.loops
    requires !e.Accept? && !e.CloseTell? && !e.RunHead? && !e.Forward?
    ensures Step(s, e).loops.Keys == s.loops.Keys && Work(Step(s, e).loops[l]) == Work(s.loops[l])
  {
  }

  /** What is queued stays queued, in its order, except the head of a batch that is run. */
  lemma WorkAfter(s: State, e: Event, l: nat)
    requires 0 in s.loops && Enabled(s, e) && l in s.loops
    ensures var s' := Step(s, e);
      && s'.loops.Keys == s.loops.Keys
      && Work(s'.loops[l]) == (if Pops(s, e, l) then Work(s.loops[l])[1..] else Work(s.loops[l])) + Pushed(s, e, l)
  {
    match e
    case RunHead(m) => WorkAfterHead(s, m, l);
    case Forward => WorkAfterForward(s, l);
    case CloseTell(m) => WorkAfterTell(s, m, l);
    case Accept(_, _) => WorkAfterAccept(s, e, l);
    case _ => WorkAfterQuiet(s, e, l);
  }

  lemma HasAfter(s: State, e: Event, l: nat, cl: Closure)
    requires 0 in s.loops && Enabled(s, e) && l in s.loops
    ensures Has(s, l, cl) ==> Has(Step(s, e), l, cl) || (Pops(s, e, l) && cl == s.loops[l].phase.batch[0])
    ensures Has(Step(s, e), l, cl) ==> Has(s, l, cl) || cl in Pushed(s, e, l)
    ensures cl in Pushed(s, e, l) ==> Has(Step(s, e), l, cl)
  {
    WorkAfter(s, e, l);
    var w := Work(s.loops[l]);
    if Pops(s, e, l) {
      assert w == [s.loops[l].phase.batch[0]] + w[1..];
    }
  }

  /** The events that move positions and references, and leave the connections and the map alone. */
  lemma ConnKeptByMove(s: State, e: Event, c: Id)
    requires 0 in s.loops && Enabled(s, e) && c < |s.conns| && ConnOk(s, c)
    requires e.PollReturns? || e.BeginDispatch? || e.EndDispatch? || e.EndHandling? || e.EndBatch?
    ensures ConnOk(Step(s, e), c)
  {
    var l := s.conns[c].loop;
    HasAfter(s, e, l, Established(c));
    HasAfter(s, e, 0, RemoveInLoop(c));
    HasAfter(s, e, l, Destroyed(c));
  }

  /** The events of users and of a connection itself. */
  lemma ConnKeptByUse(s: State, e: Event, c: Id)
    requires 0 in s.loops && Enabled(s, e) && Timely(s, e) && c < |s.conns| && ConnOk(s, c)
    requires e.SetWriting? || e.StopCheck? || e.StopSet? || e.Hold? || e.Drop?
    ensures ConnOk(Step(s, e), c)
  {
    assert Step(s, e).loops == s.loops && Step(s, e).connections == s.connections;
  }

  lemma ConnKeptByAccept(s: State, e: Event, c: Id)
    requires 0 in s.loops && Enabled(s, e) && e.Accept? && c <= |s.conns| && (c < |s.conns| ==> ConnOk(s, c))
    ensures ConnOk(Step(s, e), c)
  {
    if c < |s.conns| { ConnKeptByAcceptOfOther(s, e, c); } else { AcceptedIsOk(s, e); }
  }

  lemma ConnKeptByAcceptOfOther(s: State, e: Event, c: Id)
    requires 0 in s.loops && Enabled(s, e) && e.Accept? && c < |s.conns| && ConnOk(s, c)
    ensures ConnOk(Step(s, e), c)
  {
    var l := s.conns[c].loop;
    HasAfter(s, e, l, Established(c));
    HasAfter(s, e, 0, RemoveInLoop(c));
    HasAfter(s, e, l, Destroyed(c));
  }

  lemma AcceptedIsOk(s: State, e: Event)
    requires 0 in s.loops && Enabled(s, e) && e.Accept?
    ensures ConnOk(Step(s, e), |s.conns|)
  {
    HasAfter(s, e, e.loop, Established(|s.conns|));
  }

  lemma ConnKeptByMark(s: State, e: Event, c: Id)
    requires 0 in s.loops && Enabled(s, e) && e.CloseMark? && PhaseOk(s, e.l, s.loops[e.l].phase)
    requires c < |s.conns| && ConnOk(s, c)
    ensures ConnOk(Step(s, e), c)
  {
    var s' := Step(s, e);
    var l := s.conns[c].loop;
    if c == Current(s, e.l) {
      assert ClosingNow(s', c);
      HasAfter(s, e, l, Destroyed(c));
    } else {
      HasAfter(s, e, l, Established(c));
      HasAfter(s, e, 0, RemoveInLoop(c));
      HasAfter(s, e, l, Destroyed(c));
    }
  }

  lemma ConnKeptByTell(s: State, e: Event, c: Id)
    requires 0 in s.loops && Enabled(s, e) && e.CloseTell? && PhaseOk(s, e.l, s.loops[e.l].phase)
    requires c < |s.conns| && ConnOk(s, c)
    ensures ConnOk(Step(s, e), c)
  {
    var s' := Step(s, e);
    var l := s.conns[c].loop;
    if c == Current(s, e.l) {
      HasAfter(s, e, 0, RemoveInLoop(c));
      HasAfter(s, e, l, Destroyed(c));
    } else {
      HasAfter(s, e, l, Established(c));
      HasAfter(s, e, 0, RemoveInLoop(c));
      HasAfter(s, e, l, Destroyed(c));
    }
  }

  lemma ConnKeptByRunOfOther(s: State, e: Event, c: Id)
    requires 0 in s.loops && Enabled(s, e) && e.RunHead? && s.loops[e.l].phase.batch[0].c != c
    requires c < |s.conns| && ConnOk(s, c)
    ensures ConnOk(Step(s, e), c)
  {
    var l := s.conns[c].loop;
    HasAfter(s, e, l, Established(c));
    HasAfter(s, e, 0, RemoveInLoop(c));
    HasAfter(s, e, l, Destroyed(c));
  }

  lemma ConnKeptByRun(s: State, e: Event, c: Id)
    requires 0 in s.loops && Enabled(s, e) && e.RunHead? && s.loops[e.l].phase.batch[0].c == c
    requires c < |s.conns| && ConnOk(s, c) && ClosureOk(s, e.l, s.loops[e.l].phase.batch[0])
    ensures ConnOk(Step(s, e), c)
  {
    match s.loops[e.l].phase.batch[0]
    case Established(_) =>
    case RemoveInLoop(_) => HasAfter(s, e, s.conns[c].loop, Destroyed(c));
    case Destroyed(_) =>
  }

  lemma ConnKeptByForward(s: State, c: Id)
    requires 0 in s.loops && Enabled(s, Forward)
    requires c < |s.conns| && ConnOk(s, c) && LoopOk(s, 0)
    ensures ConnOk(Step(s, Forward), c)
  {
    var l := s.conns[c].loop;
    assert Work(s.loops[0])[0] == s.loops[0].phase.batch[0];
    HasAfter(s, Forward, l, Established(c));
    HasAfter(s, Forward, 0, RemoveInLoop(c));
    HasAfter(s, Forward, l, Destroyed(c));
  }

  /** A channel the poller knows stays known until its own loop destroys the connection. */
  lemma StaysKnown(s: State, e: Event, c: Id)
    requires 0 in s.loops && Enabled(s, e) && Timely(s, e) && c < |s.conns| && !s.conns[c].view.index.New?
    requires e.RunHead? ==> ClosureOk(s, e.l, s.loops[e.l].phase.batch[0]) && e.l != s.conns[c].loop
    ensures var x := Step(s, e).conns[c];
      x.loop == s.conns[c].loop && !x.view.index.New? && (s.conns[c].state.Disconnected? ==> x.state.Disconnected?)
  {
  }

  lemma PollingKept(s: State, e: Event, l: nat)
    requires 0 in s.loops && Enabled(s, e) && l in s.loops && s.loops[l].phase.Polling?
    requires forall c: Id :: c < |s.conns| ==> Agree(s.conns[c].view)
    ensures PhaseOk(Step(s, e), l, Step(s, e).loops[l].phase)
  {
  }

  lemma HandlingKept(s: State, e: Event, l: nat)
    requires 0 in s.loops && Enabled(s, e) && Timely(s, e) && l in s.loops && s.loops[l].phase.Handling?
    requires PhaseOk(s, l, s.loops[l].phase)
    requires e.RunHead? ==> ClosureOk(s, e.l, s.loops[e.l].phase.batch[0])
    ensures PhaseOk(Step(s, e), l, Step(s, e).loops[l].phase)
  {
    var active := s.loops[l].phase.active;
    forall i | 0 <= i < |active|
      ensures var x := Step(s, e).conns[active[i]];
        x.loop == l && !x.view.index.New? && (s.conns[active[i]].state.Disconnected? ==> x.state.Disconnected?)
    {
      StaysKnown(s, e, active[i]);
    }
  }

  lemma RunningKept(s: State, e: Event, l: nat)
    requires 0 in s.loops && Enabled(s, e) && l in s.loops && s.loops[l].phase.Running?
    requires LoopOk(s, l)
    ensures PhaseOk(Step(s, e), l, Step(s, e).loops[l].phase)
  {
    var batch := s.loops[l].phase.batch;
    if batch != [] {
      assert Work(s.loops[l])[0] == batch[0];
      assert ClosureOk(s, l, batch[0]);
    }
  }

  lemma PhaseKept(s: State, e: Event, l: nat)
    requires Inv(s) && Enabled(s, e) && Timely(s, e) && l in s.loops
    ensures PhaseOk(Step(s, e), l, Step(s, e).loops[l].phase)
  {
    assert LoopOk(s, l);
    match s.loops[l].phase
    case Polling =>
      forall c: Id | c < |s.conns| ensures Agree(s.conns[c].view) { assert ConnOk(s, c); }
      PollingKept(s, e, l);
    case Handling(_, _, _) =>
      if e.RunHead? { HeadOk(s, e.l); }
      HandlingKept(s, e, l);
    case Running(_, _) => RunningKept(s, e, l);
  }

  lemma HeadOk(s: State, l: nat)
    requires Inv(s) && l in s.loops && s.loops[l].phase.Running? && s.loops[l].phase.batch != []
    ensures ClosureOk(s, l, s.loops[l].phase.batch[0]) && Work(s.loops[l])[0] == s.loops[l].phase.batch[0]
  {
    assert LoopOk(s, l);
    assert ClosureOk(s, l, Work(s.loops[l])[0]);
  }

  lemma ClosureKept(s: State, e: Event, l: nat, cl: Closure)
    requires 0 in s.loops && Enabled(s, e) && Timely(s, e) && l in s.loops && ClosureOk(s, l, cl) && ConnOk(s, cl.c)
    requires e.CloseMark? ==> PhaseOk(s, e.l, s.loops[e.l].phase)
    requires e.RunHead? ==>
      var head := s.loops[e.l].phase.batch[0];
      ClosureOk(s, e.l, head) && (e.l == l && head.Established? ==> cl != head)
    ensures ClosureOk(Step(s, e), l, cl)
  {
  }

  lemma KeptOk(s: State, e: Event, l: nat, i: nat)
    requires Inv(s) && Enabled(s, e) && Timely(s, e)
    requires l in s.loops && i < |Work(s.loops[l])| && (Pops(s, e, l) ==> i > 0)
    ensures ClosureOk(Step(s, e), l, Work(s.loops[l])[i])
  {
    var w := Work(s.loops[l]);
    assert LoopOk(s, l);
    assert ClosureOk(s, l, w[i]);
    assert ConnOk(s, w[i].c);
    if e.CloseMark? { assert LoopOk(s, e.l); }
    if e.RunHead? { HeadOk(s, e.l); }
    ClosureKept(s, e, l, w[i]);
  }

  lemma PushedOk(s: State, e: Event, l: nat)
    requires Inv(s) && Enabled(s, e) && l in s.loops
    ensures forall i :: 0 <= i < |Pushed(s, e, l)| ==> ClosureOk(Step(s, e), l, Pushed(s, e, l)[i])
  {
    match e
    case CloseTell(m) => assert LoopOk(s, m);
    case Forward =>
      HeadOk(s, 0);
      assert LoopOk(s, 0);
    case _ =>
  }

  lemma WorkKept(s: State, e: Event, l: nat)
    requires Inv(s) && Enabled(s, e) && Timely(s, e) && l in s.loops
    ensures l in Step(s, e).loops && WorkOk(Step(s, e), l, Work(Step(s, e).loops[l]))
  {
    WorkAfter(s, e, l);
    assert LoopOk(s, l);
    forall i: nat | i < |Work(s.loops[l])| && (Pops(s, e, l) ==> i > 0)
      ensures ClosureOk(Step(s, e), l, Work(s.loops[l])[i])
    {
      KeptOk(s, e, l, i);
    }
    PushedOk(s, e, l);
    PartsOk(s, Step(s, e), l, Work(s.loops[l]), if Pops(s, e, l) then 1 else 0, Pushed(s, e, l));
  }

  lemma PartsOk(s: State, s': State, l: nat, w: seq<Closure>, k: nat, pushed: seq<Closure>)
    requires k <= |w| && |pushed| <= 1 && WorkOk(s, l, w)
    requires forall i: nat :: k <= i < |w| ==> ClosureOk(s', l, w[i])
    requires forall i :: 0 <= i < |pushed| ==> ClosureOk(s', l, pushed[i])
    requires pushed != [] && pushed[0].Established? ==> pushed[0].c == |s.conns|
    ensures WorkOk(s', l, w[k..] + pushed)
  {
  }

  /** A channel known to a poller belongs to a connection the map, a removal or a destruction still holds. */
  predicate Owned(s: State, c: Id)
    requires c < |s.conns|
  {
    || c in s.connections
    || Has(s, 0, RemoveInLoop(c))
    || Has(s, s.conns[c].loop, Destroyed(c))
  }

  lemma KnownIsOwned(s: State, c: Id)
    requires Inv(s) && c < |s.conns| && !s.conns[c].view.index.New?
    ensures Owned(s, c) && Alive(s, c)
  {
    assert ConnOk(s, c);
    if Removing(s, c) { assert RemoveInLoop(c) in Work(s.loops[0]); }
    if Has(s, 0, RemoveInLoop(c)) { assert RemoveInLoop(c).c == c; }
    if Has(s, s.conns[c].loop, Destroyed(c)) { assert Destroyed(c).c == c; }
  }

  lemma PushedIsAlive(s: State, e: Event, l: nat, cl: Closure)
    requires Inv(s) && Enabled(s, e) && l in s.loops && cl in Pushed(s, e, l) && cl.c < |s.conns|
    ensures Alive(s, cl.c)
  {
    match e
    case CloseTell(m) => assert DispatchedBy(s, m, cl.c);
    case Forward =>
      HeadOk(s, 0);
      assert Has(s, 0, s.loops[0].phase.batch[0]);
    case _ =>
  }

  /** No reference is made from nothing. */
  lemma AliveShrinks(s: State, e: Event, c: Id)
    requires Inv(s) && Enabled(s, e) && c < |s.conns| && Alive(Step(s, e), c)
    ensures Alive(s, c)
  {
    var s' := Step(s, e);
    if l, cl :| Has(s', l, cl) && cl.c == c {
      KeysKept(s, e);
      HasAfter(s, e, l, cl);
      if !Has(s, l, cl) { PushedIsAlive(s, e, l, cl); }
    } else if l :| DispatchedBy(s', l, c) {
      DispatchStarts(s, e, l, c);
    }
  }

  lemma KeysKept(s: State, e: Event)
    requires 0 in s.loops && Enabled(s, e)
    ensures Step(s, e).loops.Keys == s.loops.Keys
  {
    WorkAfter(s, e, 0);
  }

  /** The only step that starts a dispatch. */
  lemma DispatchBegins(s: State, e: Event, l: nat, c: Id)
    requires 0 in s.loops && Enabled(s, e) && l in s.loops
    requires DispatchedBy(Step(s, e), l, c) && !DispatchedBy(s, l, c)
    ensures e == BeginDispatch(l) && c == Current(s, l)
  {
  }

  lemma DispatchStarts(s: State, e: Event, l: nat, c: Id)
    requires Inv(s) && Enabled(s, e) && DispatchedBy(Step(s, e), l, c)
    ensures Alive(s, c)
  {
    KeysKept(s, e);
    if !DispatchedBy(s, l, c) {
      DispatchBegins(s, e, l, c);
      CurrentIsKnown(s, l);
    }
  }

  lemma CurrentIsKnown(s: State, l: nat)
    requires Inv(s) && l in s.loops && s.loops[l].phase.Handling? && s.loops[l].phase.k < |s.loops[l].phase.active|
    ensures Alive(s, Current(s, l))
  {
    assert LoopOk(s, l);
    KnownIsOwned(s, Current(s, l));
  }

  lemma DescriptorsKept(s: State, e: Event)
    requires Inv(s) && Enabled(s, e)
    ensures DistinctFds(Step(s, e))
  {
    var s' := Step(s, e);
    forall c: Id, d: Id | c < d < |s'.conns| && Alive(s', c) && Alive(s', d)
      ensures s'.conns[c].fd != s'.conns[d].fd
    {
      AliveShrinks(s, e, c);
      if d < |s.conns| { AliveShrinks(s, e, d); }
    }
  }

  lemma StepKeepsInv(s: State, e: Event)
    requires Inv(s) && Enabled(s, e) && Timely(s, e)
    ensures Inv(Step(s, e))
  {
    var s' := Step(s, e);
    KeysKept(s, e);
    forall c: Id | c < |s'.conns| ensures ConnOk(s', c) { ConnKept(s, e, c); }
    forall l | l in s'.loops ensures LoopOk(s', l) {
      PhaseKept(s, e, l);
      WorkKept(s, e, l);
    }
    MembersKept(s, e);
    DescriptorsKept(s, e);
  }

  lemma MembersKept(s: State, e: Event)
    requires Enabled(s, e) && forall c :: c in s.connections ==> c < |s.conns|
    ensures forall c :: c in Step(s, e).connections ==> c < |Step(s, e).conns|
  {
  }

  lemma ConnKept(s: State, e: Event, c: Id)
    requires Inv(s) && Enabled(s, e) && Timely(s, e) && c < |Step(s, e).conns|
    ensures ConnOk(Step(s, e), c)
  {
    ConnsGrow(s, e);
    if e.Accept? {
      if c < |s.conns| { ConnIsOk(s, c); }
      ConnKeptByAccept(s, e, c);
    } else if e.CloseMark? || e.CloseTell? {
      ConnKeptByClose(s, e, c);
    } else if e.RunHead? {
      ConnKeptByEitherRun(s, e.l, c);
    } else {
      ConnKeptByOthers(s, e, c);
    }
  }

  lemma ConnsGrow(s: State, e: Event)
    requires Enabled(s, e)
    ensures |Step(s, e).conns| == |s.conns| + if e.Accept? then 1 else 0
  {
  }

  lemma ConnIsOk(s: State, c: Id)
    requires Inv(s) && c < |s.conns|
    ensures ConnOk(s, c)
  {
  }

  lemma ConnKeptByOthers(s: State, e: Event, c: Id)
    requires Inv(s) && Enabled(s, e) && Timely(s, e) && c < |s.conns|
    requires !e.Accept? && !e.CloseMark? && !e.CloseTell? && !e.RunHead?
    ensures ConnOk(Step(s, e), c)
  {
    ConnIsOk(s, c);
    match e
    case Forward =>
      LoopIsOk(s, 0);
      ConnKeptByForward(s, c);
    case SetWriting(_, _) => ConnKeptByUse(s, e, c);
    case StopCheck(_) => ConnKeptByUse(s, e, c);
    case StopSet(_) => ConnKeptByUse(s, e, c);
    case Hold(_) => ConnKeptByUse(s, e, c);
    case Drop(_) => ConnKeptByUse(s, e, c);
    case _ => ConnKeptByMove(s, e, c);
  }

  lemma LoopIsOk(s: State, l: nat)
    requires Inv(s) && l in s.loops
    ensures LoopOk(s, l)
  {
  }

  lemma ConnKeptByClose(s: State, e: Event, c: Id)
    requires Inv(s) && Enabled(s, e) && (e.CloseMark? || e.CloseTell?) && c < |s.conns|
    ensures ConnOk(Step(s, e), c)
  {
    assert ConnOk(s, c);
    PhaseIsOk(s, e.l);
    if e.CloseMark? { ConnKeptByMark(s, e, c); } else { ConnKeptByTell(s, e, c); }
  }

  lemma PhaseIsOk(s: State, l: nat)
    requires Inv(s) && l in s.loops
    ensures PhaseOk(s, l, s.loops[l].phase)
  {
    assert LoopOk(s, l);
  }

  lemma ConnKeptByEitherRun(s: State, l: nat, c: Id)
    requires Inv(s) && Enabled(s, RunHead(l)) && c < |s.conns|
    ensures ConnOk(Step(s, RunHead(l)), c)
  {
    assert ConnOk(s, c);
    HeadOk(s, l);
    if s.loops[l].phase.batch[0].c == c {
      ConnKeptByRun(s, RunHead(l), c);
    } else {
      ConnKeptByRunOfOther(s, RunHead(l), c);
    }
  }

  /** The invariant survives a step exactly if that step is not a `shutdown` completing after the close. */
  lemma InvNeedsTimely(s: State, e: Event)
    requires Inv(s) && Enabled(s, e)
    ensures Inv(Step(s, e)) <==> Timely(s, e)
    ensures !Timely(s, e) ==> !ConnOk(Step(s, e), e.c)
  {
    if Timely(s, e) {
      StepKeepsInv(s, e);
    } else {
      LateSetBreaks(s, e.c);
    }
  }

  lemma LateSetBreaks(s: State, c: Id)
    requires Enabled(s, StopSet(c)) && ConnOk(s, c) && s.conns[c].state.Disconnected?
    ensures !ConnOk(Step(s, StopSet(c)), c)
  {
    assert Step(s, StopSet(c)).conns[c].view.events == EMPTY;
  }
}
