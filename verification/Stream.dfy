/**
  One connection seen from its loop: state, interest, output queue, the bytes on the wire, and the
  closures other threads queue for it.  An event carries what the kernel answers.
 */
module Streams {
  import opened ConnStates
  import opened Kfifos

  /** What the output queue does: how much it holds, and whether it drops the bytes `writeFd` has sent. */
  datatype Discipline = Discipline(bounded: bool, capacity: nat, retrieves: bool)

  /** The queue the connection needs. */
  const IDEAL := Discipline(false, 0, true)

  /** The ring as it is wired in: the default capacity, and the call that would retrieve is commented out. */
  const AS_BUILT := Discipline(true, 4096, false)

  function Appended(d: Discipline, out: seq<byte>, data: seq<byte>): seq<byte> {
    if d.bounded && |out| + |data| > d.capacity
    then out + data[..if |out| <= d.capacity then d.capacity - |out| else 0]
    else out + data
  }

  function Drained(d: Discipline, out: seq<byte>, n: nat): seq<byte>
    requires n <= |out|
  {
    if d.retrieves then out[n..] else out
  }

  /** What `write` returns: a count, EPIPE or ECONNRESET, or another error. */
  datatype Written = Wrote(count: nat) | Fault | OtherError

  /**
    What a `shutdown` promises: the bytes its caller handed to `send` before it, and all taken on or
    queued before those; some may wait in the first `ahead` closures.
   */
  datatype Promise = Promise(bytes: seq<byte>, ahead: nat)

  /** `promise` numbers the `shutdown` whose closure it is. */
  datatype Closure = SendInLoop(data: seq<byte>) | ShutdownInLoop(promise: nat)

  /**
    `wire`, `accepted`, `faulted` and `promised` are history: bytes the kernel took, bytes `sendInLoop`
    took on, whether it has given up on some because of a fault, and what each `shutdown` promised.
   */
  datatype State = State(
    state: ConnState,
    reading: bool,
    writing: bool,
    out: seq<byte>,
    wire: seq<byte>,
    accepted: seq<byte>,
    halfClosed: bool,
    faulted: bool,
    queue: seq<Closure>,
    sending: nat,        // threads in `send`, past its test of the state
    stopping: nat,       // threads in `shutdown`, between its test and its assignment
    owing: set<nat>,     // and between its assignment and its push, by their promises
    promised: seq<Promise>)

  datatype Event =
    | Establish
    | SendCheck
    | SendPush(data: seq<byte>)
    | OwnSend(data: seq<byte>, result: Written)
    | StopCheck
    | StopSet(ahead: nat)        // `ahead`: the closures up to the last send of bytes the caller has queued
    | StopPush(promise: nat)
    | OwnStop(ahead: nat)
    | RunClosure(result: Written)
    | HandleRead(count: int)
    | HandleWrite(result: Written)
    | HandleClose
    | Destroy

  const INIT := State(Connecting, false, false, [], [], [], false, false, [], 0, 0, {}, [])

  /** The kernel takes no more than it is offered, and nothing after the half-close. */
  predicate Possible(s: State, offered: nat, result: Written) {
    result.Wrote? ==> result.count <= offered && (s.halfClosed ==> result.count == 0)
  }

  predicate Enabled(s: State, e: Event) {
    match e
    case Establish => s.state.Connecting?
    case SendCheck => s.state.Connected?
    case SendPush(_) => s.sending > 0
    case OwnSend(data, result) => !s.state.Connecting? && Possible(s, |data|, result)
    case StopCheck => s.state.Connected?
    case StopSet(ahead) => s.stopping > 0 && ahead <= |s.queue|
    case StopPush(promise) => promise in s.owing
    case OwnStop(ahead) => !s.state.Connecting? && ahead <= |s.queue|
    case RunClosure(result) =>
      s.queue != [] && (s.queue[0].SendInLoop? ==> Possible(s, |s.queue[0].data|, result))
    case HandleRead(_) => !s.state.Connecting?
    case HandleWrite(result) => !s.state.Connecting? && Possible(s, |s.out|, result)
    case HandleClose => !s.state.Connecting?
    case Destroy => !s.state.Connecting?
  }

  function QueueData(queue: seq<Closure>): seq<byte> {
    if queue == [] then []
    else (if queue[0].SendInLoop? then queue[0].data else []) + QueueData(queue[1..])
  }

  function Promised(s: State, ahead: nat): Promise
    requires ahead <= |s.queue|
  {
    Promise(s.accepted + QueueData(s.queue[..ahead]), ahead)
  }

  /** One closure less is ahead of the promises. */
  function Advanced(promised: seq<Promise>): seq<Promise> {
    seq(|promised|, i requires 0 <= i < |promised| =>
      promised[i].(ahead := if promised[i].ahead > 0 then promised[i].ahead - 1 else 0))
  }

  /** `sendInLoop`: write at once if nothing waits, queue what is left and ask to be told when to go on. */
  function DoSend(d: Discipline, s: State, data: seq<byte>, result: Written): State
    requires Possible(s, |data|, result)
  {
    if s.state.Disconnected? then s
    else
      var direct := !s.writing && s.out == [];
      var n := if direct && result.Wrote? then result.count else 0;
      var rest := data[n..];
      if direct && result.Fault? then s.(faulted := true)
      else
        s.(wire := s.wire + data[..n],
           accepted := s.accepted + data,
           out := if rest == [] then s.out else Appended(d, s.out, rest),
           writing := s.writing || rest != [])
  }

  function DoShutdown(s: State): State {
    if s.writing then s else s.(halfClosed := true)
  }

  /** `handleWrite`: on draining the queue, stop watching and carry out a shutdown that has been asked for. */
  function DoWrite(d: Discipline, s: State, result: Written): State
    requires Possible(s, |s.out|, result)
  {
    if !s.writing || !result.Wrote? || result.count == 0 then s
    else
      var out := Drained(d, s.out, result.count);
      var s' := s.(wire := s.wire + s.out[..result.count], out := out);
      if out != [] then s'
      else
        var stopped := s'.(writing := false);
        if s.state.Disconnecting? then DoShutdown(stopped) else stopped
  }

  function DoClose(s: State): State {
    s.(state := Disconnected, reading := false, writing := false)
  }

  function Step(d: Discipline, s: State, e: Event): State
    requires Enabled(s, e)
  {
    match e
    case Establish => s.(state := Connected, reading := true)
    case SendCheck => s.(sending := s.sending + 1)
    case SendPush(data) => s.(sending := s.sending - 1, queue := s.queue + [SendInLoop(data)])
    case OwnSend(data, result) => if s.state.Connected? then DoSend(d, s, data, result) else s
    case StopCheck => s.(stopping := s.stopping + 1)
    case StopSet(ahead) =>
      s.(stopping := s.stopping - 1, state := Disconnecting,
         promised := s.promised + [Promised(s, ahead)], owing := s.owing + {|s.promised|})
    case StopPush(promise) => s.(owing := s.owing - {promise}, queue := s.queue + [ShutdownInLoop(promise)])
    case OwnStop(ahead) =>
      if s.state.Connected?
      then DoShutdown(s.(state := Disconnecting, promised := s.promised + [Promised(s, ahead)]))
      else s
    case RunClosure(result) =>
      var s' := s.(queue := s.queue[1..], promised := Advanced(s.promised));
      (match s.queue[0]
       case SendInLoop(data) => DoSend(d, s', data, result)
       case ShutdownInLoop(_) => DoShutdown(s'))
    case HandleRead(count) => if count == 0 then DoClose(s) else s
    case HandleWrite(result) => DoWrite(d, s, result)
    case HandleClose => DoClose(s)
    case Destroy => if s.state.Connected? then DoClose(s) else s
  }

  /** No thread completes a `shutdown` that tested the state before the connection was closed. */
  predicate Timely(s: State, e: Event) {
    e.StopSet? ==> !s.state.Disconnected?
  }

  predicate IsRun(d: Discipline, s: State, es: seq<Event>)
    decreases |es|
  {
    es == [] || (Enabled(s, es[0]) && IsRun(d, Step(d, s, es[0]), es[1..]))
  }

  predicate IsTimelyRun(d: Discipline, s: State, es: seq<Event>)
    decreases |es|
  {
    es == [] || (Enabled(s, es[0]) && Timely(s, es[0]) && IsTimelyRun(d, Step(d, s, es[0]), es[1..]))
  }

  function After(d: Discipline, s: State, es: seq<Event>): State
    requires IsRun(d, s, es)
    decreases |es|
  {
    if es == [] then s else After(d, Step(d, s, es[0]), es[1..])
  }

  lemma {:induction false} TimelyRunsAreRuns(d: Discipline, s: State, es: seq<Event>)
    requires IsTimelyRun(d, s, es)
    ensures IsRun(d, s, es)
    decreases |es|
  {
    if es != [] { TimelyRunsAreRuns(d, Step(d, s, es[0]), es[1..]); }
  }

  // --- the stream -----------------------------------------------------------------------------

  /** Everything taken on is on the wire or in the queue, in order. */
  predicate Law(s: State) {
    s.accepted == s.wire + s.out
  }

  predicate Interest(s: State) {
    match s.state
    case Connecting => !s.reading && !s.writing && s.out == [] && s.queue == [] && s.sending == 0 && s.stopping == 0
    case Disconnected => !s.reading && !s.writing
    case _ => s.reading && (s.writing <==> s.out != [])
  }

  /** What was promised is taken on, or what is missing of it is in the closures ahead of the promise. */
  predicate PromiseOk(s: State, p: Promise) {
    && p.ahead <= |s.queue|
    && (s.state.Disconnecting? && !s.faulted ==>
          if p.ahead == 0 then p.bytes <= s.accepted else p.bytes == s.accepted + QueueData(s.queue[..p.ahead]))
  }

  predicate Promises(s: State) {
    && (forall i :: 0 <= i < |s.promised| ==> PromiseOk(s, s.promised[i]))
    && (forall i :: i in s.owing ==> i < |s.promised|)
    && (forall j :: 0 <= j < |s.queue| && s.queue[j].ShutdownInLoop? ==>
          s.queue[j].promise < |s.promised| && s.promised[s.queue[j].promise].ahead <= j)
  }

  predicate NoEarlyStop(s: State) {
    s.state.Connecting? || s.state.Connected? ==> !s.halfClosed && s.promised == []
  }

  predicate Inv(s: State) {
    Law(s) && Interest(s) && Promises(s) && NoEarlyStop(s)
  }

  lemma {:induction false} QueueDataOfParts(a: seq<Closure>, b: seq<Closure>)
    ensures QueueData(a + b) == QueueData(a) + QueueData(b)
    decreases |a|
  {
    if a == [] {
      assert a + b == b;
    } else {
      assert (a + b)[1..] == a[1..] + b;
      QueueDataOfParts(a[1..], b);
    }
  }

  lemma AppendKeepsLaw(accepted: seq<byte>, wire: seq<byte>, out: seq<byte>, data: seq<byte>, n: nat)
    requires accepted == wire + out && n <= |data| && (out == [] || n == 0)
    ensures accepted + data == (wire + data[..n]) + (if data[n..] == [] then out else out + data[n..])
  {
    assert data == data[..n] + data[n..];
    if out == [] {
      assert accepted == wire && [] + data[n..] == data[n..];
      assert wire + data == (wire + data[..n]) + data[n..];
    } else {
      assert data[..0] == [] && wire + [] == wire && data[0..] == data;
      assert (wire + out) + data == wire + (out + data);
    }
  }

  lemma SendKeepsLaw(s: State, data: seq<byte>, result: Written)
    requires Law(s) && Possible(s, |data|, result)
    ensures Law(DoSend(IDEAL, s, data, result))
  {
    var n := if !s.writing && s.out == [] && result.Wrote? then result.count else 0;
    AppendKeepsLaw(s.accepted, s.wire, s.out, data, n);
  }

  lemma WriteKeepsLaw(s: State, result: Written)
    requires Law(s) && Possible(s, |s.out|, result)
    ensures Law(DoWrite(IDEAL, s, result))
  {
    if s.writing && result.Wrote? {
      assert s.out == s.out[..result.count] + s.out[result.count..];
    }
  }

  lemma PushKeepsPromises(s: State, c: Closure)
    requires Promises(s) && (c.ShutdownInLoop? ==> c.promise in s.owing)
    ensures Promises(s.(queue := s.queue + [c]))
  {
    var s' := s.(queue := s.queue + [c]);
    forall i | 0 <= i < |s.promised| ensures PromiseOk(s', s.promised[i]) {
      assert PromiseOk(s, s.promised[i]);
      assert s'.queue[..s.promised[i].ahead] == s.queue[..s.promised[i].ahead];
    }
  }

  /** Running the head of the queue moves its bytes from the queue to those taken on. */
  lemma PopKeepsPromise(s: State, accepted: seq<byte>, p: Promise)
    requires s.queue != [] && PromiseOk(s, p)
    requires accepted == s.accepted + (if s.queue[0].SendInLoop? then s.queue[0].data else [])
    ensures var p' := p.(ahead := if p.ahead > 0 then p.ahead - 1 else 0);
      PromiseOk(s.(queue := s.queue[1..], accepted := accepted), p')
  {
    if p.ahead > 0 {
      var before := s.queue[..p.ahead];
      assert before[1..] == s.queue[1..][..p.ahead - 1];
      assert s.accepted + QueueData(before) == accepted + QueueData(before[1..]);
    }
  }

  lemma PopKeepsPromises(s: State, accepted: seq<byte>)
    requires Promises(s) && s.queue != []
    requires accepted == s.accepted + (if s.queue[0].SendInLoop? then s.queue[0].data else [])
    ensures Promises(s.(queue := s.queue[1..], accepted := accepted, promised := Advanced(s.promised)))
  {
    var s' := s.(queue := s.queue[1..], accepted := accepted, promised := Advanced(s.promised));
    forall i | 0 <= i < |s.promised| ensures PromiseOk(s', s'.promised[i]) {
      PopKeepsPromise(s, accepted, s.promised[i]);
    }
  }

  lemma StopKeepsPromises(s: State, ahead: nat)
    requires ahead <= |s.queue| && Promises(s) && NoEarlyStop(s) && Interest(s)
    requires !s.state.Disconnected? && !s.state.Connecting?
    ensures Promises(s.(state := Disconnecting, promised := s.promised + [Promised(s, ahead)]))
  {
    assert ahead == 0 ==> s.accepted + QueueData(s.queue[..ahead]) == s.accepted;
    assert forall i :: 0 <= i < |s.promised| ==> PromiseOk(s, s.promised[i]);
  }

  /** The promises rest on the queue and on what is taken on, and only until a fault or the close. */
  lemma SamePromises(s: State, s': State)
    requires Promises(s) && s'.queue == s.queue && s'.promised == s.promised && s'.owing == s.owing
    requires s'.state.Disconnecting? && !s'.faulted ==>
      s'.accepted == s.accepted && s.state.Disconnecting? && !s.faulted
    ensures Promises(s')
  {
    forall i | 0 <= i < |s.promised| ensures PromiseOk(s', s.promised[i]) {
      assert PromiseOk(s, s.promised[i]);
    }
  }

  lemma SentClosureKeepsInv(s: State, data: seq<byte>, result: Written)
    requires Inv(s) && Enabled(s, RunClosure(result)) && s.queue[0] == SendInLoop(data)
    ensures Inv(Step(IDEAL, s, RunClosure(result)))
  {
    var s1 := s.(queue := s.queue[1..], promised := Advanced(s.promised));
    SendKeepsLaw(s1, data, result);
    PopKeepsPromises(s, s.accepted + data);
    SamePromises(s1.(accepted := s.accepted + data), DoSend(IDEAL, s1, data, result));
  }

  lemma StopClosureKeepsInv(s: State, result: Written)
    requires Inv(s) && Enabled(s, RunClosure(result)) && s.queue[0].ShutdownInLoop?
    ensures Inv(Step(IDEAL, s, RunClosure(result)))
  {
    var s1 := s.(queue := s.queue[1..], promised := Advanced(s.promised));
    assert s.accepted + [] == s.accepted;
    PopKeepsPromises(s, s.accepted);
    SamePromises(s1, DoShutdown(s1));
  }

  lemma StopKeepsInv(s: State, e: Event)
    requires Inv(s) && Enabled(s, e) && Timely(s, e) && (e.StopSet? || e.StopPush? || e.OwnStop?)
    ensures Inv(Step(IDEAL, s, e))
  {
    match e
    case StopSet(ahead) =>
      var s1 := s.(state := Disconnecting, promised := s.promised + [Promised(s, ahead)]);
      StopKeepsPromises(s, ahead);
      assert forall i :: 0 <= i < |s1.promised| ==> PromiseOk(s1, s1.promised[i]);
    case StopPush(promise) => PushKeepsPromises(s, ShutdownInLoop(promise));
    case OwnStop(ahead) =>
      if s.state.Connected? {
        var s1 := s.(state := Disconnecting, promised := s.promised + [Promised(s, ahead)]);
        StopKeepsPromises(s, ahead);
        SamePromises(s1, DoShutdown(s1));
      }
  }

  lemma OwnSendKeepsInv(s: State, data: seq<byte>, result: Written)
    requires Inv(s) && Enabled(s, OwnSend(data, result))
    ensures Inv(Step(IDEAL, s, OwnSend(data, result)))
  {
    if s.state.Connected? {
      var s' := DoSend(IDEAL, s, data, result);
      SendKeepsLaw(s, data, result);
      SamePromises(s, s');
      assert Interest(s');
    }
  }

  lemma HandleWriteKeepsInv(s: State, result: Written)
    requires Inv(s) && Enabled(s, HandleWrite(result))
    ensures Inv(Step(IDEAL, s, HandleWrite(result)))
  {
    var s' := DoWrite(IDEAL, s, result);
    WriteKeepsLaw(s, result);
    SamePromises(s, s');
    assert Interest(s');
  }

  /** The events that touch neither the bytes nor the promises. */
  lemma QuietStepKeepsInv(s: State, e: Event)
    requires Inv(s) && Enabled(s, e)
    requires e.Establish? || e.SendCheck? || e.StopCheck? || e.HandleRead? || e.HandleClose? || e.Destroy?
    ensures Inv(Step(IDEAL, s, e))
  {
    SamePromises(s, Step(IDEAL, s, e));
  }

  lemma SendPushKeepsInv(s: State, data: seq<byte>)
    requires Inv(s) && Enabled(s, SendPush(data))
    ensures Inv(Step(IDEAL, s, SendPush(data)))
  {
    PushKeepsPromises(s, SendInLoop(data));
    SamePromises(s.(queue := s.queue + [SendInLoop(data)]), Step(IDEAL, s, SendPush(data)));
  }

  lemma StepKeepsInv(s: State, e: Event)
    requires Inv(s) && Enabled(s, e) && Timely(s, e)
    ensures Inv(Step(IDEAL, s, e))
  {
    match e
    case SendPush(data) => SendPushKeepsInv(s, data);
    case OwnSend(data, result) => OwnSendKeepsInv(s, data, result);
    case RunClosure(result) =>
      if s.queue[0].SendInLoop? {
        SentClosureKeepsInv(s, s.queue[0].data, result);
      } else {
        StopClosureKeepsInv(s, result);
      }
    case HandleWrite(result) => HandleWriteKeepsInv(s, result);
    case StopSet(_) => StopKeepsInv(s, e);
    case StopPush(_) => StopKeepsInv(s, e);
    case OwnStop(_) => StopKeepsInv(s, e);
    case _ => QuietStepKeepsInv(s, e);
  }

  lemma {:induction false} RunKeepsInv(s: State, es: seq<Event>)
    requires Inv(s) && IsTimelyRun(IDEAL, s, es)
    ensures IsRun(IDEAL, s, es) && Inv(After(IDEAL, s, es))
    decreases |es|
  {
    if es != [] {
      StepKeepsInv(s, es[0]);
      RunKeepsInv(Step(IDEAL, s, es[0]), es[1..]);
    }
  }
}
