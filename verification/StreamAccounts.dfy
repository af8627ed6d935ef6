/** What each event does to the state of a connection, and what becomes of the bytes handed to it. */
module StreamAccounts {
  import opened Kfifos
  import Pollers
  import opened StreamGuarantees
  import opened Streams

  // --- the state ------------------------------------------------------------------------------

  predicate Closes(s: State, e: Event) {
    e.HandleClose? || e == HandleRead(0) || (e.Destroy? && s.state.Connected?)
  }

  predicate Stops(s: State, e: Event) {
    e.StopSet? || (e.OwnStop? && s.state.Connected?)
  }

  /** The state moves by establishing, shutting down and closing, and by nothing else. */
  lemma StateMoves(d: Discipline, s: State, e: Event)
    requires Enabled(s, e)
    ensures var s' := Step(d, s, e);
      && (s'.state.Disconnected? <==> Closes(s, e) || (s.state.Disconnected? && !Stops(s, e)))
      && (s'.state.Disconnecting? <==> Stops(s, e) || (s.state.Disconnecting? && !Closes(s, e)))
      && (s'.state.Connected? <==> e.Establish? || (s.state.Connected? && !Stops(s, e) && !Closes(s, e)))
  {
    match e
    case OwnSend(data, result) => SendKeepsState(d, s, data, result);
    case RunClosure(result) => ClosureKeepsState(d, s, result);
    case HandleWrite(result) => WriteKeepsState(d, s, result);
    case _ =>
  }

  /** A read closes the connection at the end of file only; one that brings bytes, or an error, changes nothing. */
  lemma ReadCloses(d: Discipline, s: State, count: int)
    requires Enabled(s, HandleRead(count))
    ensures var s' := Step(d, s, HandleRead(count));
      && (count != 0 ==> s' == s)
      && (s'.state.Disconnected? <==> s.state.Disconnected? || count == 0)
      && (count == 0 ==> !s'.reading && !s'.writing)
  {
  }

  /** So does a read with what its callbacks do. */
  lemma ReadRunCloses(d: Discipline, s: State, count: int, message: seq<Event>, close: seq<Event>)
    requires UserCalls(message) && UserCalls(close) && IsRun(d, s, ReadEvents(count, message, close))
    ensures After(d, s, ReadEvents(count, message, close)).state.Disconnected? <==> s.state.Disconnected? || count == 0
  {
    var calls := if count > 0 then message else if count == 0 then close else [];
    CallsCloseNothing(calls);
    ClosingsOfParts([HandleRead(count)], calls);
    assert [HandleRead(count)][1..] == [];
    ClosedByClosings(d, s, ReadEvents(count, message, close));
  }

  /** The handlers and what users do in them close the connection by a close or an end of file, and not otherwise. */
  lemma {:induction false} ClosedByClosings(d: Discipline, s: State, es: seq<Event>)
    requires IsRun(d, s, es)
    requires forall i :: 0 <= i < |es| ==> es[i].HandleClose? || Handler(es[i])
    ensures After(d, s, es).state.Disconnected? <==> s.state.Disconnected? || Closings(es) > 0
    decreases |es|
  {
    if es != [] {
      StateMoves(d, s, es[0]);
      ClosedByClosings(d, Step(d, s, es[0]), es[1..]);
    }
  }

  /**
    After a whole dispatch the connection is closed exactly if it was before, or a hang-up came without
    input, or a read, for input or priority, found the end of file.
   */
  lemma DispatchCloses(d: Discipline, s: State, ready: Pollers.Ready, count: int, cs: Callbacks, result: Written)
    requires cs.Valid() && IsRun(d, s, Dispatch(ready, count, cs, result))
    ensures After(d, s, Dispatch(ready, count, cs, result)).state.Disconnected? <==>
      || s.state.Disconnected?
      || (ready.hangUp && !ready.input)
      || ((ready.input || ready.priority) && count == 0)
  {
    ClosingsOfDispatch(ready, count, cs, result);
    ClosedByClosings(d, s, Dispatch(ready, count, cs, result));
  }

  // --- the dispatch ---------------------------------------------------------------------------

  predicate UserCall(e: Event) {
    e.OwnSend? || e.OwnStop?
  }

  /** The calls of the user among the events, or all the others: the handlers. */
  function Sift(es: seq<Event>, calls: bool): seq<Event> {
    if es == [] then [] else (if UserCall(es[0]) == calls then [es[0]] else []) + Sift(es[1..], calls)
  }

  function HandlersIn(es: seq<Event>): seq<Event> {
    Sift(es, false)
  }

  function CallsIn(es: seq<Event>): seq<Event> {
    Sift(es, true)
  }

  lemma {:induction false} SiftParts(a: seq<Event>, b: seq<Event>, calls: bool)
    ensures Sift(a + b, calls) == Sift(a, calls) + Sift(b, calls)
    decreases |a|
  {
    if a == [] {
      assert a + b == b;
    } else {
      var first := if UserCall(a[0]) == calls then [a[0]] else [];
      assert (a + b)[1..] == a[1..] + b;
      SiftParts(a[1..], b, calls);
      assert first + (Sift(a[1..], calls) + Sift(b, calls)) == (first + Sift(a[1..], calls)) + Sift(b, calls);
    }
  }

  lemma {:induction false} InCalls(calls: seq<Event>)
    requires UserCalls(calls)
    ensures HandlersIn(calls) == [] && CallsIn(calls) == calls
    decreases |calls|
  {
    if calls != [] {
      InCalls(calls[1..]);
      assert calls == [calls[0]] + calls[1..];
    }
  }

  lemma InHandled(e: Event, calls: seq<Event>)
    requires UserCalls(calls) && !UserCall(e)
    ensures HandlersIn([e] + calls) == [e] && CallsIn([e] + calls) == calls
  {
    InCalls(calls);
    assert ([e] + calls)[1..] == calls;
  }

  lemma InThreeParts(a: seq<Event>, b: seq<Event>, c: seq<Event>)
    ensures HandlersIn(a + (b + c)) == HandlersIn(a) + (HandlersIn(b) + HandlersIn(c))
    ensures CallsIn(a + (b + c)) == CallsIn(a) + (CallsIn(b) + CallsIn(c))
  {
    forall calls ensures Sift(a + (b + c), calls) == Sift(a, calls) + (Sift(b, calls) + Sift(c, calls)) {
      SiftParts(a, b + c, calls);
      SiftParts(b, c, calls);
    }
  }

  lemma InRead(count: int, cs: Callbacks)
    requires cs.Valid()
    ensures HandlersIn(ReadEvents(count, cs.message, cs.closeAgain)) == [HandleRead(count)]
    ensures CallsIn(ReadEvents(count, cs.message, cs.closeAgain))
         == if count > 0 then cs.message else if count == 0 then cs.closeAgain else []
  {
    InHandled(HandleRead(count), if count > 0 then cs.message else if count == 0 then cs.closeAgain else []);
  }

  lemma InWrite(result: Written)
    ensures HandlersIn([HandleWrite(result)]) == [HandleWrite(result)] && CallsIn([HandleWrite(result)]) == []
  {
    InHandled(HandleWrite(result), []);
    assert [HandleWrite(result)] + [] == [HandleWrite(result)];
  }

  /** Each bit of a report brings its handler, once: the close before the read before the write. */
  lemma DispatchHandles(ready: Pollers.Ready, count: int, cs: Callbacks, result: Written)
    requires cs.Valid()
    ensures HandlersIn(Dispatch(ready, count, cs, result))
         == (if ready.hangUp && !ready.input then [HandleClose] else [])
            + ((if ready.input || ready.priority then [HandleRead(count)] else [])
               + (if ready.output then [HandleWrite(result)] else []))
  {
    DispatchIn(ready, count, cs, result);
    InHandled(HandleClose, cs.close);
    InRead(count, cs);
    InWrite(result);
  }

  /** The callbacks make their calls on the close, and on the message or the end of file, and at no other time. */
  lemma DispatchCalls(ready: Pollers.Ready, count: int, cs: Callbacks, result: Written)
    requires cs.Valid()
    ensures CallsIn(Dispatch(ready, count, cs, result))
         == (if ready.hangUp && !ready.input then cs.close else [])
            + (if !ready.input && !ready.priority then []
               else if count > 0 then cs.message else if count == 0 then cs.closeAgain else [])
  {
    DispatchIn(ready, count, cs, result);
    InHandled(HandleClose, cs.close);
    InRead(count, cs);
    InWrite(result);
  }

  lemma DispatchIn(ready: Pollers.Ready, count: int, cs: Callbacks, result: Written)
    ensures var es := Dispatch(ready, count, cs, result);
      var close := if ready.hangUp && !ready.input then CloseEvents(cs.close) else [];
      var read := if ready.input || ready.priority then ReadEvents(count, cs.message, cs.closeAgain) else [];
      var write := if ready.output then [HandleWrite(result)] else [];
      && HandlersIn(es) == HandlersIn(close) + (HandlersIn(read) + HandlersIn(write))
      && CallsIn(es) == CallsIn(close) + (CallsIn(read) + CallsIn(write))
  {
    var close := if ready.hangUp && !ready.input then CloseEvents(cs.close) else [];
    var read := if ready.input || ready.priority then ReadEvents(count, cs.message, cs.closeAgain) else [];
    var write := if ready.output then [HandleWrite(result)] else [];
    InThreeParts(close, read, write);
  }

  /** The output bit adds the write at the end and nothing else. */
  lemma OutputAddsWrite(ready: Pollers.Ready, count: int, cs: Callbacks, result: Written)
    requires cs.Valid() && ready.output
    ensures Dispatch(ready, count, cs, result)
         == Dispatch(ready.(output := false), count, cs, result) + [HandleWrite(result)]
  {
    var close := if ready.hangUp && !ready.input then CloseEvents(cs.close) else [];
    var read := if ready.input || ready.priority then ReadEvents(count, cs.message, cs.closeAgain) else [];
    assert close + (read + [HandleWrite(result)]) == (close + (read + [])) + [HandleWrite(result)];
  }

  /** Whatever is reported of a connection that is established can be dispatched. */
  lemma DispatchIsPossible(d: Discipline, s: State, ready: Pollers.Ready, count: int)
    requires !s.state.Connecting?
    ensures IsRun(d, s, Dispatch(ready, count, Callbacks([], [], []), OtherError))
  {
    var es := Dispatch(ready, count, Callbacks([], [], []), OtherError);
    assert |es| <= 3;
    HandlersGoThrough(d, s, es);
  }

  lemma {:induction false} HandlersGoThrough(d: Discipline, s: State, es: seq<Event>)
    requires !s.state.Connecting?
    requires forall i :: 0 <= i < |es| ==>
      es[i].HandleClose? || es[i].HandleRead? || es[i] == HandleWrite(OtherError)
    ensures IsRun(d, s, es)
    decreases |es|
  {
    if es != [] {
      StateMoves(d, s, es[0]);
      HandlersGoThrough(d, Step(d, s, es[0]), es[1..]);
    }
  }

  // --- the bytes ------------------------------------------------------------------------------

  /** What the event passes to `write`: a send when nothing waits, the write handler what is queued. */
  function Offered(s: State, e: Event): seq<byte> {
    match e
    case OwnSend(data, _) => if s.state.Connected? && !s.writing && s.out == [] then data else []
    case RunClosure(_) =>
      if s.queue != [] && s.queue[0].SendInLoop? && !s.state.Disconnected? && !s.writing && s.out == []
      then s.queue[0].data else []
    case HandleWrite(_) => if s.writing then s.out else []
    case _ => []
  }

  /** What the kernel took of it, by its answer. */
  function Took(offered: seq<byte>, answer: Written): seq<byte> {
    if answer.Wrote? && answer.count <= |offered| then offered[..answer.count] else []
  }

  function Taken(s: State, e: Event): seq<byte> {
    match e
    case OwnSend(_, result) => Took(Offered(s, e), result)
    case RunClosure(result) => Took(Offered(s, e), result)
    case HandleWrite(result) => Took(Offered(s, e), result)
    case _ => []
  }

  lemma SendGrowsWire(d: Discipline, s: State, data: seq<byte>, result: Written)
    requires Possible(s, |data|, result)
    ensures DoSend(d, s, data, result).wire
         == s.wire + Took(if !s.state.Disconnected? && !s.writing && s.out == [] then data else [], result)
  {
  }

  lemma WriteGrowsWire(d: Discipline, s: State, result: Written)
    requires Possible(s, |s.out|, result)
    ensures DoWrite(d, s, result).wire == s.wire + Took(if s.writing then s.out else [], result)
  {
  }

  lemma ClosureGrowsWire(d: Discipline, s: State, result: Written)
    requires Enabled(s, RunClosure(result))
    ensures Step(d, s, RunClosure(result)).wire == s.wire + Taken(s, RunClosure(result))
  {
    var s1 := s.(queue := s.queue[1..], promised := Advanced(s.promised));
    match s.queue[0]
    case SendInLoop(data) => SendGrowsWire(d, s1, data, result);
    case ShutdownInLoop(_) =>
  }

  /** The wire grows by exactly the bytes the kernel says it took of those it was offered. */
  lemma WireGrows(d: Discipline, s: State, e: Event)
    requires Enabled(s, e)
    ensures Step(d, s, e).wire == s.wire + Taken(s, e)
  {
    match e
    case OwnSend(data, result) => if s.state.Connected? { SendGrowsWire(d, s, data, result); }
    case RunClosure(result) => ClosureGrowsWire(d, s, result);
    case HandleWrite(result) => WriteGrowsWire(d, s, result);
    case _ =>
  }

  // --- every byte is accounted for ------------------------------------------------------------

  /** What an event hands to `send`, past its test of the state. */
  function Handed(s: State, e: Event): seq<byte> {
    match e
    case SendPush(data) => data
    case OwnSend(data, _) => if s.state.Connected? then data else []
    case _ => []
  }

  /** A fault of the kernel on a direct write. */
  predicate Faults(s: State, result: Written) {
    !s.writing && s.out == [] && result.Fault?
  }

  /** What is given up: the bytes of a send that meets a fault, or that comes to run after the close. */
  function GivenUp(s: State, e: Event): seq<byte> {
    match e
    case OwnSend(data, result) => if s.state.Connected? && Faults(s, result) then data else []
    case RunClosure(result) =>
      if s.queue != [] && s.queue[0].SendInLoop? && (s.state.Disconnected? || Faults(s, result))
      then s.queue[0].data else []
    case _ => []
  }

  function HandedIn(d: Discipline, s: State, es: seq<Event>): seq<byte>
    requires IsRun(d, s, es)
    decreases |es|
  {
    if es == [] then [] else Handed(s, es[0]) + HandedIn(d, Step(d, s, es[0]), es[1..])
  }

  function GivenUpIn(d: Discipline, s: State, es: seq<Event>): seq<byte>
    requires IsRun(d, s, es)
    decreases |es|
  {
    if es == [] then [] else GivenUp(s, es[0]) + GivenUpIn(d, Step(d, s, es[0]), es[1..])
  }

  /** The bytes taken on, and then those still in the closures of the loop. */
  function Held(s: State): seq<byte> {
    s.accepted + QueueData(s.queue)
  }

  lemma SendTakesOn(d: Discipline, s: State, data: seq<byte>, result: Written)
    requires Possible(s, |data|, result)
    ensures DoSend(d, s, data, result).queue == s.queue
    ensures DoSend(d, s, data, result).accepted
         == if s.state.Disconnected? || Faults(s, result) then s.accepted else s.accepted + data
  {
  }

  /** The books balance; and in the order of arrival if `orderly` and nothing is gone. */
  predicate Balanced(before: seq<byte>, handed: seq<byte>, after: seq<byte>, gone: seq<byte>, orderly: bool) {
    && multiset(after) + multiset(gone) == multiset(before) + multiset(handed)
    && (orderly && gone == [] ==> after == before + handed)
  }

  lemma HeadMovesOver(accepted: seq<byte>, data: seq<byte>, rest: seq<byte>, dropped: bool)
    ensures Balanced(accepted + (data + rest), [], (if dropped then accepted else accepted + data) + rest,
                     if dropped then data else [], true)
  {
    var before := accepted + (data + rest);
    assert before + [] == before == (accepted + data) + rest;
    if dropped && data == [] { assert data + rest == rest; }
  }

  lemma SentClosureIs(d: Discipline, s: State, data: seq<byte>, result: Written)
    requires Enabled(s, RunClosure(result)) && s.queue[0] == SendInLoop(data)
    ensures QueueData(s.queue) == data + QueueData(s.queue[1..])
    ensures var s', dropped := Step(d, s, RunClosure(result)), s.state.Disconnected? || Faults(s, result);
      && s'.queue == s.queue[1..] && s'.accepted == (if dropped then s.accepted else s.accepted + data)
      && GivenUp(s, RunClosure(result)) == if dropped then data else []
  {
    SendTakesOn(d, s.(queue := s.queue[1..], promised := Advanced(s.promised)), data, result);
  }

  lemma SentClosureAccounts(d: Discipline, s: State, data: seq<byte>, result: Written)
    requires Enabled(s, RunClosure(result)) && s.queue[0] == SendInLoop(data)
    ensures Balanced(Held(s), [], Held(Step(d, s, RunClosure(result))), GivenUp(s, RunClosure(result)), true)
  {
    SentClosureIs(d, s, data, result);
    HeadMovesOver(s.accepted, data, QueueData(s.queue[1..]), s.state.Disconnected? || Faults(s, result));
  }

  lemma StopClosureAccounts(d: Discipline, s: State, result: Written)
    requires Enabled(s, RunClosure(result)) && s.queue[0].ShutdownInLoop?
    ensures Balanced(Held(s), [], Held(Step(d, s, RunClosure(result))), [], true)
  {
    HeadMovesOver(s.accepted, [], QueueData(s.queue[1..]), true);
  }

  lemma PushAccounts(s: State, c: Closure)
    ensures Balanced(Held(s), if c.SendInLoop? then c.data else [], Held(s.(queue := s.queue + [c])), [], true)
  {
    QueueDataOfParts(s.queue, [c]);
    var data := if c.SendInLoop? then c.data else [];
    assert [c][1..] == [] && data + [] == data;
    assert s.accepted + (QueueData(s.queue) + data) == Held(s) + data;
  }

  lemma OwnSendAccounts(d: Discipline, s: State, data: seq<byte>, result: Written)
    requires Possible(s, |data|, result) && s.state.Connected?
    ensures Balanced(Held(s), data, Held(DoSend(d, s, data, result)),
                     if Faults(s, result) then data else [], QueueData(s.queue) == [])
  {
    SendTakesOn(d, s, data, result);
    var rest := QueueData(s.queue);
    if rest == [] {
      assert s.accepted + [] == s.accepted && (s.accepted + data) + [] == s.accepted + data;
    }
    if Faults(s, result) && data == [] { assert Held(s) + data == Held(s); }
  }

  /** What is held does not depend on anything but the bytes taken on and the queue. */
  lemma QuietAccounts(d: Discipline, s: State, e: Event)
    requires Enabled(s, e) && !e.SendPush? && !e.StopPush? && !e.RunClosure?
    requires e.OwnSend? ==> !s.state.Connected?
    ensures Balanced(Held(s), [], Held(Step(d, s, e)), [], true) && Handed(s, e) == GivenUp(s, e) == []
  {
    assert Step(d, s, e).accepted == s.accepted && Step(d, s, e).queue == s.queue;
    assert Held(s) + [] == Held(s);
  }

  /** A step holds what was held and handed in, less what it gives up; in order, unless a send overtakes. */
  lemma StepAccounts(d: Discipline, s: State, e: Event)
    requires Enabled(s, e)
    ensures Balanced(Held(s), Handed(s, e), Held(Step(d, s, e)), GivenUp(s, e),
                     e.OwnSend? ==> QueueData(s.queue) == [])
  {
    match e
    case SendPush(data) => PushAccounts(s, SendInLoop(data));
    case StopPush(promise) => PushAccounts(s, ShutdownInLoop(promise));
    case OwnSend(data, result) =>
      if s.state.Connected? { OwnSendAccounts(d, s, data, result); } else { QuietAccounts(d, s, e); }
    case RunClosure(result) =>
      if s.queue[0].SendInLoop? {
        SentClosureAccounts(d, s, s.queue[0].data, result);
      } else {
        StopClosureAccounts(d, s, result);
      }
    case _ => QuietAccounts(d, s, e);
  }

  lemma BalancesAddUp(a: seq<byte>, h: seq<byte>, b: seq<byte>, g: seq<byte>, o: bool,
                      h': seq<byte>, c: seq<byte>, g': seq<byte>, o': bool)
    requires Balanced(a, h, b, g, o) && Balanced(b, h', c, g', o')
    ensures Balanced(a, h + h', c, g + g', o && o')
  {
    var ma, mh, mb, mg := multiset(a), multiset(h), multiset(b), multiset(g);
    var mh', mc, mg' := multiset(h'), multiset(c), multiset(g');
    assert multiset(h + h') == mh + mh' && multiset(g + g') == mg + mg';
    assert mc + (mg + mg') == (mc + mg') + mg == (mb + mh') + mg == (mb + mg) + mh' == (ma + mh) + mh';
    if g + g' == [] {
      assert |g| + |g'| == 0;
      assert (a + h) + h' == a + (h + h');
    }
  }

  /** No send on the loop's thread overtakes bytes another thread has queued. */
  predicate Orderly(d: Discipline, s: State, es: seq<Event>)
    requires IsRun(d, s, es)
    decreases |es|
  {
    es == [] || ((es[0].OwnSend? ==> QueueData(s.queue) == []) && Orderly(d, Step(d, s, es[0]), es[1..]))
  }

  lemma {:induction false} RunAccounts(d: Discipline, s: State, es: seq<Event>)
    requires IsRun(d, s, es)
    ensures Balanced(Held(s), HandedIn(d, s, es), Held(After(d, s, es)), GivenUpIn(d, s, es), Orderly(d, s, es))
    decreases |es|
  {
    if es == [] {
      assert Held(s) + [] == Held(s);
    } else {
      var e, s1, rest := es[0], Step(d, s, es[0]), es[1..];
      StepAccounts(d, s, e);
      RunAccounts(d, s1, rest);
      BalancesAddUp(
        Held(s), Handed(s, e), Held(s1), GivenUp(s, e), e.OwnSend? ==> QueueData(s.queue) == [],
        HandedIn(d, s1, rest), Held(After(d, s1, rest)), GivenUpIn(d, s1, rest), Orderly(d, s1, rest));
    }
  }

  lemma FaultStays(d: Discipline, s: State, e: Event)
    requires Enabled(s, e)
    ensures s.faulted || GivenUp(s, e) != [] ==> Step(d, s, e).faulted || s.state.Disconnected?
    ensures s.faulted ==> Step(d, s, e).faulted
  {
  }

  /** Bytes are given up only by a fault or after the close. */
  lemma {:induction false} GivenUpFor(d: Discipline, s: State, es: seq<Event>)
    requires IsRun(d, s, es) && IsTimelyRun(d, s, es)
    ensures var r := After(d, s, es);
      && (s.faulted ==> r.faulted) && (s.state.Disconnected? ==> r.state.Disconnected?)
      && (GivenUpIn(d, s, es) != [] ==> r.faulted || r.state.Disconnected?)
    decreases |es|
  {
    if es != [] {
      FaultStays(d, s, es[0]);
      StateMoves(d, s, es[0]);
      GivenUpFor(d, Step(d, s, es[0]), es[1..]);
    }
  }

  /**
    In every run in which everything fits the queue and no `shutdown` is overtaken by a close, every byte
    handed to `send` is, once, on the wire, in the output queue or in a closure of the loop, unless it was
    given up, which takes a fault or the close; and they are there in the order in which they were handed
    over, if none is given up and no send on the loop's thread overtakes a queued one.
   */
  lemma EveryByteIsAccountedFor(d: Discipline, es: seq<Event>)
    requires d.retrieves && IsTimelyRun(d, INIT, es) && IsRun(d, INIT, es) && AllFit(d, INIT, es)
    ensures var s, handed, gone := After(d, INIT, es), HandedIn(d, INIT, es), GivenUpIn(d, INIT, es);
      && multiset(s.wire + s.out + QueueData(s.queue)) + multiset(gone) == multiset(handed)
      && (gone != [] ==> s.faulted || s.state.Disconnected?)
      && (gone == [] && Orderly(d, INIT, es) ==> s.wire + s.out + QueueData(s.queue) == handed)
  {
    StreamOrder(d, es);
    RunAccounts(d, INIT, es);
    GivenUpFor(d, INIT, es);
    var s := After(d, INIT, es);
    BalancedFromNothing(HandedIn(d, INIT, es), Held(s), GivenUpIn(d, INIT, es), Orderly(d, INIT, es));
  }

  lemma BalancedFromNothing(handed: seq<byte>, after: seq<byte>, gone: seq<byte>, orderly: bool)
    requires Balanced([] + [], handed, after, gone, orderly)
    ensures multiset(after) + multiset(gone) == multiset(handed)
    ensures orderly && gone == [] ==> after == handed
  {
    assert [] + handed == handed;
  }

  // --- the calls of other threads -------------------------------------------------------------

  /** The calls of `send` and `shutdown` that have tested the state, less those that have gone on. */
  function SendsBegun(es: seq<Event>): int {
    if es == [] then 0
    else (if es[0].SendCheck? then 1 else if es[0].SendPush? then -1 else 0) + SendsBegun(es[1..])
  }

  function StopsBegun(es: seq<Event>): int {
    if es == [] then 0
    else (if es[0].StopCheck? then 1 else if es[0].StopSet? then -1 else 0) + StopsBegun(es[1..])
  }

  /** Every push of a `send` and every assignment of a `shutdown` has its own test before it. */
  lemma {:induction false} CallsAddUp(d: Discipline, s: State, es: seq<Event>)
    requires IsRun(d, s, es)
    ensures After(d, s, es).sending == s.sending + SendsBegun(es)
    ensures After(d, s, es).stopping == s.stopping + StopsBegun(es)
    decreases |es|
  {
    if es != [] {
      OneCall(d, s, es[0]);
      CallsAddUp(d, Step(d, s, es[0]), es[1..]);
    }
  }

  lemma OneCall(d: Discipline, s: State, e: Event)
    requires Enabled(s, e)
    ensures Step(d, s, e).sending == s.sending + if e.SendCheck? then 1 else if e.SendPush? then -1 else 0
    ensures Step(d, s, e).stopping == s.stopping + if e.StopCheck? then 1 else if e.StopSet? then -1 else 0
  {
    match e
    case OwnSend(data, result) => SendLeavesCalls(d, s, data, result);
    case RunClosure(result) =>
      if s.queue[0].SendInLoop? {
        SendLeavesCalls(d, s.(queue := s.queue[1..], promised := Advanced(s.promised)), s.queue[0].data, result);
      }
    case HandleWrite(result) => WriteLeavesCalls(d, s, result);
    case _ =>
  }

  lemma SendLeavesCalls(d: Discipline, s: State, data: seq<byte>, result: Written)
    requires Possible(s, |data|, result)
    ensures var s' := DoSend(d, s, data, result);
      s' == s.(faulted := s'.faulted, wire := s'.wire, accepted := s'.accepted, out := s'.out, writing := s'.writing)
  {
    if s.state.Disconnected? {
    } else if Faults(s, result) {
      assert DoSend(d, s, data, result) == s.(faulted := true);
    } else {
      var n := if !s.writing && s.out == [] && result.Wrote? then result.count else 0;
      var out := if data[n..] == [] then s.out else Appended(d, s.out, data[n..]);
      assert DoSend(d, s, data, result)
          == s.(wire := s.wire + data[..n], accepted := s.accepted + data, out := out,
                writing := s.writing || data[n..] != []);
    }
  }

  lemma WriteLeavesCalls(d: Discipline, s: State, result: Written)
    requires Possible(s, |s.out|, result)
    ensures var s' := DoWrite(d, s, result);
      s' == s.(wire := s'.wire, out := s'.out, writing := s'.writing, halfClosed := s'.halfClosed)
  {
  }

  /** The closure of a `shutdown` is pushed once: while it is owed it has not been, and afterwards never again. */
  lemma {:induction false} PushedOnce(d: Discipline, s: State, es: seq<Event>, i: nat)
    requires IsRun(d, s, es) && i < |s.promised|
    ensures multiset(es)[StopPush(i)] + (if i in After(d, s, es).owing then 1 else 0) == if i in s.owing then 1 else 0
    decreases |es|
  {
    if es != [] {
      assert es == [es[0]] + es[1..];
      OwingMoves(d, s, es[0], i);
      PushedOnce(d, Step(d, s, es[0]), es[1..], i);
    }
  }

  lemma OwingMoves(d: Discipline, s: State, e: Event, i: nat)
    requires Enabled(s, e) && i < |s.promised|
    ensures |Step(d, s, e).promised| >= |s.promised|
    ensures i in Step(d, s, e).owing <==> i in s.owing && e != StopPush(i)
  {
    match e
    case OwnSend(data, result) => SendLeavesCalls(d, s, data, result);
    case RunClosure(result) => ClosureOwes(d, s, result);
    case HandleWrite(result) => WriteLeavesCalls(d, s, result);
    case _ =>
  }

  lemma ClosureOwes(d: Discipline, s: State, result: Written)
    requires Enabled(s, RunClosure(result))
    ensures Step(d, s, RunClosure(result)).owing == s.owing
    ensures |Step(d, s, RunClosure(result)).promised| == |s.promised|
  {
    if s.queue[0].SendInLoop? {
      SendLeavesCalls(d, s.(queue := s.queue[1..], promised := Advanced(s.promised)), s.queue[0].data, result);
    }
  }

  // --- the shutdown is carried out ------------------------------------------------------------

  /** The closure of some `shutdown` has not been run. */
  predicate StopPending(s: State) {
    s.owing != {} || exists j :: 0 <= j < |s.queue| && s.queue[j].ShutdownInLoop?
  }

  predicate CarriedOut(s: State) {
    s.state.Disconnecting? && !StopPending(s) && !s.writing ==> s.halfClosed
  }

  lemma ClosureCarriesOut(d: Discipline, s: State, result: Written)
    requires CarriedOut(s) && Enabled(s, RunClosure(result))
    ensures CarriedOut(Step(d, s, RunClosure(result)))
  {
    var s' := Step(d, s, RunClosure(result));
    ClosureOwes(d, s, result);
    assert s'.queue == s.queue[1..];
    if s.queue[0].SendInLoop? {
      assert s.queue == [s.queue[0]] + s.queue[1..];
      assert StopPending(s) <==> StopPending(s');
      SendLeavesEnd(d, s.(queue := s.queue[1..], promised := Advanced(s.promised)), s.queue[0].data, result);
    }
  }

  lemma SendLeavesEnd(d: Discipline, s: State, data: seq<byte>, result: Written)
    requires Possible(s, |data|, result)
    ensures var s' := DoSend(d, s, data, result);
      s'.state == s.state && s'.halfClosed == s.halfClosed && s'.queue == s.queue && (s.writing ==> s'.writing)
  {
  }

  lemma WriteCarriesOut(d: Discipline, s: State, result: Written)
    requires CarriedOut(s) && Possible(s, |s.out|, result)
    ensures CarriedOut(DoWrite(d, s, result))
  {
    var s' := DoWrite(d, s, result);
    assert s'.state == s.state && s'.owing == s.owing && s'.queue == s.queue && (s.halfClosed ==> s'.halfClosed);
    assert StopPending(s') <==> StopPending(s);
  }

  lemma PushCarriesOut(d: Discipline, s: State, e: Event)
    requires CarriedOut(s) && Enabled(s, e) && (e.SendPush? || e.StopPush?)
    ensures CarriedOut(Step(d, s, e))
  {
    var s' := Step(d, s, e);
    if e.StopPush? {
      assert s'.queue[|s.queue|].ShutdownInLoop?;
    } else {
      forall j | 0 <= j < |s.queue| ensures s'.queue[j] == s.queue[j] {}
    }
  }

  lemma StepCarriesOut(d: Discipline, s: State, e: Event)
    requires CarriedOut(s) && Enabled(s, e)
    ensures CarriedOut(Step(d, s, e))
  {
    match e
    case SendPush(_) => PushCarriesOut(d, s, e);
    case StopPush(_) => PushCarriesOut(d, s, e);
    case OwnSend(data, result) =>
      if s.state.Connected? { SendLeavesEnd(d, s, data, result); }
    case RunClosure(result) => ClosureCarriesOut(d, s, result);
    case HandleWrite(result) => WriteCarriesOut(d, s, result);
    case StopSet(_) => assert |s.promised| in Step(d, s, e).owing;
    case _ =>
  }

  lemma {:induction false} RunCarriesOut(d: Discipline, s: State, es: seq<Event>)
    requires CarriedOut(s) && IsRun(d, s, es)
    ensures CarriedOut(After(d, s, es))
    decreases |es|
  {
    if es != [] {
      StepCarriesOut(d, s, es[0]);
      RunCarriesOut(d, Step(d, s, es[0]), es[1..]);
    }
  }

  /**
    No shutdown is forgotten: in every run, whatever the queue does, a connection that has been shut down,
    not closed, and has neither the closure of a `shutdown` before it nor bytes to write, is half-closed.
   */
  lemma ShutdownIsCarriedOut(d: Discipline, es: seq<Event>)
    requires IsRun(d, INIT, es)
    ensures var s := After(d, INIT, es); s.state.Disconnecting? && !StopPending(s) && !s.writing ==> s.halfClosed
  {
    RunCarriesOut(d, INIT, es);
  }
}
