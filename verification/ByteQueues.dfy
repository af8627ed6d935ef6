/** The byte queue that ring and buffer both implement, and their agreement on every trace that fits the ring. */
module ByteQueues {
  import opened Bits
  import opened Kfifos
  import opened Buffers

  datatype Op = Put(bytes: seq<byte>) | Get(count: nat)

  /** What an operation takes out of a queue holding `q`, and what it leaves. */
  function Taken(q: seq<byte>, op: Op): seq<byte> {
    match op
    case Put(_) => []
    case Get(count) => q[..Min(count, |q|)]
  }

  function Next(q: seq<byte>, op: Op): seq<byte> {
    match op
    case Put(bytes) => q + bytes
    case Get(count) => q[Min(count, |q|)..]
  }

  function Outputs(q: seq<byte>, ops: seq<Op>): seq<seq<byte>>
    decreases |ops|
  {
    if ops == [] then [] else [Taken(q, ops[0])] + Outputs(Next(q, ops[0]), ops[1..])
  }

  function Final(q: seq<byte>, ops: seq<Op>): seq<byte>
    decreases |ops|
  {
    if ops == [] then q else Final(Next(q, ops[0]), ops[1..])
  }

  /** Every write fits what is free of the ring, and every count is a 32-bit number. */
  predicate Fits(q: seq<byte>, ops: seq<Op>, capacity: nat)
    decreases |ops|
  {
    ops != [] ==>
      && (match ops[0]
          case Put(bytes) => |q| + |bytes| <= capacity
          case Get(count) => count < WORD)
      && Fits(Next(q, ops[0]), ops[1..], capacity)
  }

  function Flatten(pieces: seq<seq<byte>>): seq<byte> {
    if pieces == [] then [] else pieces[0] + Flatten(pieces[1..])
  }

  function Puts(ops: seq<Op>): seq<byte> {
    if ops == [] then []
    else (match ops[0] case Put(bytes) => bytes case Get(_) => []) + Puts(ops[1..])
  }

  /** First in, first out: what came out, followed by what is left, is what was there and what was put in. */
  lemma {:induction false} NothingLostOrReordered(q: seq<byte>, ops: seq<Op>)
    ensures Flatten(Outputs(q, ops)) + Final(q, ops) == q + Puts(ops)
    decreases |ops|
  {
    if ops == [] {
      assert q + [] == q;
    } else {
      var next := Next(q, ops[0]);
      NothingLostOrReordered(next, ops[1..]);
      assert Outputs(q, ops)[1..] == Outputs(next, ops[1..]);
      StepConserves(q, ops[0], Flatten(Outputs(next, ops[1..])), Final(next, ops[1..]), Puts(ops[1..]));
    }
  }

  lemma StepConserves(q: seq<byte>, op: Op, out: seq<byte>, left: seq<byte>, puts: seq<byte>)
    requires out + left == Next(q, op) + puts
    ensures (Taken(q, op) + out) + left == q + ((match op case Put(bytes) => bytes case Get(_) => []) + puts)
  {
    assert (Taken(q, op) + out) + left == Taken(q, op) + (out + left);
    match op
    case Put(bytes) => assert (q + bytes) + puts == q + (bytes + puts);
    case Get(count) => assert Taken(q, op) + (Next(q, op) + puts) == (Taken(q, op) + Next(q, op)) + puts;
  }

  ghost predicate BothHold(ring: Kfifo, buffer: Buffer, q: seq<byte>)
    reads ring, ring.buffer, buffer, buffer.buffer
  {
    && ring.Valid() && ring.buffer != null && ring.Contents() == q
    && buffer.Valid() && buffer.Contents() == q && buffer.buffer != ring.buffer
  }

  lemma {:induction false} FitsLarger(q: seq<byte>, ops: seq<Op>, capacity: nat, larger: nat)
    requires Fits(q, ops, capacity) && capacity <= larger
    ensures Fits(q, ops, larger)
    decreases |ops|
  {
    if ops != [] { FitsLarger(Next(q, ops[0]), ops[1..], capacity, larger); }
  }

  /**
    The same trace on a ring and on a buffer: as long as each write fits the ring, both return the same
    bytes and hold equally many at the end, those of the abstract queue.
   */
  method RunBoth(capacity: nat, initialSize: nat, ops: seq<Op>)
    returns (fast: seq<seq<byte>>, simple: seq<seq<byte>>, fastLeft: nat, simpleLeft: nat)
    requires capacity <= 0x8000_0000 && Fits([], ops, capacity)
    ensures fast == simple == Outputs([], ops)
    ensures fastLeft == simpleLeft == |Final([], ops)|
  {
    var ring := new Kfifo();
    var _ := ring.InitBuffer(capacity);
    var buffer := new Buffer(initialSize);
    FitsLarger([], ops, capacity, ring.bufferSize);
    fast, simple := RunRest(ring, buffer, ops, []);
    fastLeft := ring.GetReadableLen();
    simpleLeft := buffer.ReadableBytes();
  }

  /** The trace from any state on: both queues hold `q`, and hold the same at its end. */
  method RunRest(ring: Kfifo, buffer: Buffer, ops: seq<Op>, ghost q: seq<byte>)
    returns (fast: seq<seq<byte>>, simple: seq<seq<byte>>)
    requires BothHold(ring, buffer, q) && Fits(q, ops, ring.bufferSize)
    modifies ring, ring.buffer, buffer, buffer.buffer
    ensures BothHold(ring, buffer, Final(q, ops)) && fast == simple == Outputs(q, ops)
    decreases |ops|
  {
    if ops == [] {
      return [], [];
    }
    var a, b := OnBoth(ring, buffer, ops[0], q);
    var fastRest, simpleRest := RunRest(ring, buffer, ops[1..], Next(q, ops[0]));
    fast, simple := [a] + fastRest, [b] + simpleRest;
  }

  method OnBoth(ring: Kfifo, buffer: Buffer, op: Op, ghost q: seq<byte>) returns (a: seq<byte>, b: seq<byte>)
    requires BothHold(ring, buffer, q)
    requires op.Put? ==> |q| + |op.bytes| <= ring.bufferSize
    requires op.Get? ==> op.count < WORD
    modifies ring, ring.buffer, buffer, buffer.buffer
    ensures BothHold(ring, buffer, Next(q, op)) && a == b == Taken(q, op)
    ensures ring.buffer == old(ring.buffer) && ring.bufferSize == old(ring.bufferSize)
    ensures buffer.buffer == old(buffer.buffer) || fresh(buffer.buffer)
  {
    match op {
      case Put(bytes) => PutOnRing(ring, bytes); a := [];
      case Get(count) => a := GetFromRing(ring, count);
    }
    b := OnBuffer(buffer, op);
  }

  method PutOnRing(ring: Kfifo, bytes: seq<byte>)
    requires ring.Valid() && ring.buffer != null && |ring.Contents()| + |bytes| <= ring.bufferSize
    modifies ring, ring.buffer
    ensures ring.Valid() && ring.buffer == old(ring.buffer) && ring.bufferSize == old(ring.bufferSize)
    ensures ring.Contents() == old(ring.Contents()) + bytes
  {
    ring.SizeFits();
    var data := new byte[|bytes|](i requires 0 <= i < |bytes| => bytes[i]);
    assert data[..|bytes|] == bytes;
    var _ := ring.WriteBuffer(data, |bytes|);
  }

  method GetFromRing(ring: Kfifo, count: nat) returns (taken: seq<byte>)
    requires ring.Valid() && ring.buffer != null && count < WORD
    modifies ring, ring.buffer
    ensures ring.Valid() && ring.buffer == old(ring.buffer) && ring.bufferSize == old(ring.bufferSize)
    ensures taken == old(ring.Contents())[..Min(count, |old(ring.Contents())|)]
    ensures ring.Contents() == old(ring.Contents())[Min(count, |old(ring.Contents())|)..]
  {
    ring.SizeFits();
    var data := new byte[count](_ => 0);
    var n := ring.ReadBuffer(data, count);
    taken := if n == REFUSED then [] else data[..n];
  }

  method OnBuffer(buffer: Buffer, op: Op) returns (taken: seq<byte>)
    requires buffer.Valid()
    modifies buffer, buffer.buffer
    ensures buffer.Valid() && (buffer.buffer == old(buffer.buffer) || fresh(buffer.buffer))
    ensures taken == Taken(old(buffer.Contents()), op) && buffer.Contents() == Next(old(buffer.Contents()), op)
  {
    match op
    case Put(bytes) =>
      var data := new byte[|bytes|](i requires 0 <= i < |bytes| => bytes[i]);
      assert data[..|bytes|] == bytes;
      buffer.Append(data, |bytes|);
      taken := [];
    case Get(count) =>
      taken := buffer.RetrieveAsString(Min(count, buffer.ReadableBytes()));
  }
}
