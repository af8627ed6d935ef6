/** The ring buffer: a power-of-two array and two free-running 32-bit counters. */
module Kfifos {
  import opened Bits

  newtype byte = x: int | 0 <= x < 256

  /** What the byte count `-1` is as an unsigned 32-bit number. */
  const REFUSED := 0xFFFF_FFFF

  function Min(a: nat, b: nat): nat {
    if a < b then a else b
  }

  /** What `initBuffer` makes of the size it is asked for; a shift by the word length has no defined result. */
  datatype Capacity = Capacity(size: nat) | ShiftTooFar

  /**
    The size is a power of two and holds the request, and no smaller power would, except that a
    request for nothing gets 4.  There is a result exactly for requests up to 2^31.
   */
  method RoundUp(request: nat) returns (c: Capacity)
    requires request < WORD
    ensures c.Capacity? <==> request <= 0x8000_0000
    ensures c.Capacity? ==> exists k: nat :: k <= 31 && c.size == Pow2(k)
    ensures c.Capacity? ==> c.size >= request
    ensures c.Capacity? && request > 0 ==> forall k: nat :: Pow2(k) >= request ==> Pow2(k) >= c.size
    ensures request == 0 ==> c == Capacity(4)
  {
    var size := request;
    PowerOfTwoMeans(size);
    WordIsPow2();
    if !IsPowerOfTwo(size) {
      if size < 2 {
        assert Pow2(0) == 1;
        size := 2;
      }
      ghost var start := size;
      BitLengthBounds(start);
      BitLengthFits(start);
      var i := 0;
      while size != 0
        invariant i + BitLength(size) == BitLength(start)
      {
        size := size / 2;
        i := i + 1;
      }
      assert request != Pow2(31);
      if i >= 32 {
        return ShiftTooFar;
      }
      size := Pow2(i);
      if request > 0 {
        NoPowerBetween(start, i);
      }
      assert Pow2(2) == 4 && BitLength(2) == 2;
    } else {
      var k: nat :| size == Pow2(k);
      if k > 31 { Pow2Monotone(32, k); } else { Pow2Monotone(k, 31); }
    }
    return Capacity(size);
  }

  lemma NoPowerBetween(x: nat, i: nat)
    requires i > 0 && Pow2(i - 1) <= x && forall k: nat :: x != Pow2(k)
    ensures forall k: nat :: Pow2(k) >= x ==> Pow2(k) >= Pow2(i)
  {
    forall k: nat | Pow2(k) >= x ensures Pow2(k) >= Pow2(i) {
      if k < i { Pow2Monotone(k, i - 1); }
      if k >= i { Pow2Monotone(i, k); }
    }
  }

  method MemCpy(dst: array<byte>, d: nat, src: array<byte>, s: nat, n: nat)
    requires dst != src && d + n <= dst.Length && s + n <= src.Length
    modifies dst
    ensures forall i :: 0 <= i < dst.Length ==> dst[i] == if d <= i < d + n then src[s + i - d] else old(dst[i])
  {
    var i := 0;
    while i < n
      invariant 0 <= i <= n
      invariant forall j :: 0 <= j < dst.Length ==> dst[j] == if d <= j < d + i then src[s + j - d] else old(dst[j])
    {
      dst[d + i] := src[s + i];
      i := i + 1;
    }
  }

  /** The place in the ring of the i-th byte ever accepted. */
  function Place(i: nat, size: nat): (p: nat)
    requires size > 0
    ensures p < size
  {
    if i < size then i else Place(i - size, size)
  }

  lemma {:induction false} PlaceIsMod(i: nat, size: nat)
    requires size > 0
    ensures Place(i, size) == i % size
    decreases i
  {
    if i < size {
      ModOf(i, size, 0, i);
    } else {
      PlaceIsMod(i - size, size);
      ModStep(i - size, size, size);
    }
  }

  lemma {:induction false} PlaceStep(x: nat, n: nat, size: nat)
    requires n <= size && size > 0
    ensures Place(x + n, size) == if Place(x, size) + n < size then Place(x, size) + n else Place(x, size) + n - size
    decreases x
  {
    if x >= size {
      PlaceStep(x - size, n, size);
    }
  }

  /** A byte still to be read lies in neither of the two segments of the next n bytes. */
  lemma PlaceOfOld(first: nat, end: nat, n: nat, size: nat, i: nat)
    requires size > 0 && first <= i < end && end + n <= first + size
    ensures var at := Place(end, size); var len := Min(n, size - at);
      !(at <= Place(i, size) < at + len) && !(Place(i, size) < n - len)
  {
    var d, at, place := end - i, Place(end, size), Place(i, size);
    PlaceStep(i, d, size);
    assert i + d == end;
    assert at == if place + d < size then place + d else place + d - size;
  }

  /** The j-th of the next n bytes lies in the one or the other. */
  lemma PlaceOfNew(end: nat, n: nat, size: nat, j: nat)
    requires j < n <= size
    ensures var at := Place(end, size); var len := Min(n, size - at);
      Place(end + j, size) == if j < len then at + j else j - len
  {
    PlaceStep(end, j, size);
  }

  /** The two segments of a write: up to the end of the ring, and on from its start. */
  method CopyIn(ring: array<byte>, at: nat, src: array<byte>, n: nat)
    requires ring != src && at < ring.Length && n <= ring.Length && n <= src.Length
    modifies ring
    ensures var len := Min(n, ring.Length - at);
      forall p :: 0 <= p < ring.Length ==> (ring[p] ==
        if at <= p < at + len then src[p - at] else if p < n - len then src[len + p] else old(ring[p]))
  {
    var len := Min(n, ring.Length - at);
    MemCpy(ring, at, src, 0, len);
    MemCpy(ring, 0, src, len, n - len);
  }

  /** The two segments of a read. */
  method CopyOut(ring: array<byte>, at: nat, dst: array<byte>, n: nat)
    requires ring != dst && at < ring.Length && n <= ring.Length && n <= dst.Length
    modifies dst
    ensures var len := Min(n, ring.Length - at);
      forall i :: 0 <= i < dst.Length ==>
        dst[i] == if i < n then ring[if i < len then at + i else i - len] else old(dst[i])
  {
    var len := Min(n, ring.Length - at);
    MemCpy(dst, 0, ring, at, len);
    MemCpy(dst, len, ring, 0, n - len);
  }

  /** The ring holds the bytes of `accepted` from position `first` on, each at its place. */
  ghost predicate Holds(ring: array<byte>, first: nat, accepted: seq<byte>)
    reads ring
  {
    ring.Length > 0 && forall i: nat :: first <= i < |accepted| ==> ring[Place(i, ring.Length)] == accepted[i]
  }

  /** Writing n bytes behind the others disturbs none of them, as long as all fit. */
  method Append(ring: array<byte>, at: nat, inBuf: array<byte>, n: nat, ghost first: nat, ghost accepted: seq<byte>)
    requires ring != inBuf && n <= inBuf.Length && Holds(ring, first, accepted)
    requires first <= |accepted| && |accepted| + n <= first + ring.Length && at == Place(|accepted|, ring.Length)
    modifies ring
    ensures Holds(ring, first, accepted + inBuf[..n])
  {
    CopyIn(ring, at, inBuf, n);
    forall i: nat | first <= i < |accepted| + n
      ensures ring[Place(i, ring.Length)] == (accepted + inBuf[..n])[i]
    {
      if i < |accepted| {
        PlaceOfOld(first, |accepted|, n, ring.Length, i);
      } else {
        PlaceOfNew(|accepted|, n, ring.Length, i - |accepted|);
      }
    }
  }

  method Take(ring: array<byte>, at: nat, outBuf: array<byte>, n: nat, ghost first: nat, ghost accepted: seq<byte>)
    requires ring != outBuf && n <= outBuf.Length && n <= ring.Length && Holds(ring, first, accepted)
    requires first + n <= |accepted| && at == Place(first, ring.Length)
    modifies outBuf
    ensures outBuf[..n] == accepted[first..first + n] && outBuf[n..] == old(outBuf[n..])
  {
    CopyOut(ring, at, outBuf, n);
    forall i: nat | i < n ensures outBuf[i] == accepted[first + i] {
      PlaceStep(first, i, ring.Length);
    }
  }

  class Kfifo {
    var buffer: array?<byte>
    var bufferSize: nat
    var write: nat
    var read: nat

    /** All bytes accepted since the last reset, and those among them that have been read. */
    ghost var accepted: seq<byte>
    ghost var consumed: seq<byte>

    ghost predicate Valid()
      reads this, buffer
    {
      && consumed <= accepted
      && write == |accepted| % WORD && read == |consumed| % WORD
      && |accepted| - |consumed| <= bufferSize
      && (buffer == null ==> bufferSize == 0)
      && (buffer != null ==>
           && buffer.Length == bufferSize
           && (exists k: nat :: k <= 31 && bufferSize == Pow2(k))
           && Holds(buffer, |consumed|, accepted))
    }

    /** The bytes accepted and not yet read. */
    ghost function Contents(): seq<byte>
      reads this
      requires consumed <= accepted
    {
      accepted[|consumed|..]
    }

    constructor ()
      ensures Valid() && buffer == null && accepted == consumed == []
    {
      buffer, bufferSize, write, read, accepted, consumed := null, 0, 0, 0, [], [];
    }

    method InitBuffer(size: nat) returns (ok: bool)
      requires size < WORD
      modifies this
      ensures ok <==> size <= 0x8000_0000
      ensures ok ==> Valid() && buffer != null && fresh(buffer) && accepted == consumed == [] && bufferSize >= size
      ensures ok && size > 0 ==> forall k: nat :: Pow2(k) >= size ==> Pow2(k) >= bufferSize
      ensures ok ==> forall i :: 0 <= i < buffer.Length ==> buffer[i] == 0
      ensures !ok ==> unchanged(this)
    {
      var c := RoundUp(size);
      if c.ShiftTooFar? {
        return false;
      }
      buffer := new byte[c.size](_ => 0);
      bufferSize, write, read := c.size, 0, 0;
      accepted, consumed := [], [];
      return true;
    }

    method FreeBuffer()
      modifies this
      ensures Valid() && buffer == null && bufferSize == 0 && accepted == consumed == []
    {
      bufferSize, write, read, buffer, accepted, consumed := 0, 0, 0, null, [], [];
    }

    method ResetBuffer()
      requires Valid()
      modifies this`write, this`read, this`accepted, this`consumed, buffer
      ensures Valid() && accepted == consumed == []
      ensures buffer != null ==> forall i :: 0 <= i < buffer.Length ==> buffer[i] == 0
    {
      write, read, accepted, consumed := 0, 0, [], [];
      if buffer != null {
        var b := buffer;
        forall i | 0 <= i < b.Length { b[i] := 0; }
      }
    }

    lemma SizeFits()
      requires Valid()
      ensures bufferSize < WORD - 1 && |Contents()| == (write - read) % WORD
    {
      WordIsPow2();
      if buffer != null {
        var k: nat :| k <= 31 && bufferSize == Pow2(k);
        Pow2Monotone(k, 31);
      }
      WrappedDifference(|accepted|, |consumed|);
    }

    method GetReadableLen() returns (n: nat)
      requires Valid()
      ensures n == |Contents()| <= bufferSize < WORD - 1
    {
      SizeFits();
      n := (write - read) % WORD;
    }

    method GetRemainLen() returns (n: nat)
      requires Valid()
      ensures n == bufferSize - |Contents()| < WORD - 1
    {
      SizeFits();
      n := (bufferSize - (write - read) % WORD) % WORD;
    }

    method IsEmpty() returns (empty: bool)
      requires Valid()
      ensures empty <==> Contents() == []
    {
      SizeFits();
      empty := write == read;
    }

    method IsFull() returns (full: bool)
      requires Valid()
      ensures full <==> |Contents()| == bufferSize
    {
      SizeFits();
      full := bufferSize == (write - read) % WORD;
    }

    /** The masked counters are the true positions in the ring. */
    lemma Masks()
      requires Valid() && buffer != null
      ensures bufferSize > 0
      ensures And(write, bufferSize - 1) == Place(|accepted|, bufferSize)
      ensures And(read, bufferSize - 1) == Place(|consumed|, bufferSize)
    {
      PlaceIsMod(|accepted|, bufferSize);
      PlaceIsMod(|consumed|, bufferSize);
      var k: nat :| k <= 31 && bufferSize == Pow2(k);
      MaskIsMod(write, k);
      MaskIsMod(read, k);
      WrappedMod(|accepted|, k);
      WrappedMod(|consumed|, k);
    }

    /** As many bytes as fit are appended; the others are not taken. */
    method WriteBuffer(inBuf: array?<byte>, inSize: nat) returns (n: nat)
      requires Valid() && inSize < WORD
      requires inBuf != null ==> inSize <= inBuf.Length && inBuf != buffer
      modifies this`write, this`accepted, buffer
      ensures Valid() && buffer == old(buffer)
      ensures n == if old(buffer) == null || inBuf == null || inSize == 0 then REFUSED
                   else Min(inSize, bufferSize - |old(Contents())|)
      ensures accepted == if n == REFUSED then old(accepted) else old(accepted) + inBuf[..n]
    {
      if buffer == null || inBuf == null || inSize == 0 {
        return REFUSED;
      }
      var remain := GetRemainLen();
      n := Min(inSize, remain);
      WriteSome(inBuf, n);
    }

    method WriteSome(inBuf: array<byte>, n: nat)
      requires Valid() && buffer != null && inBuf != buffer
      requires n <= inBuf.Length && |Contents()| + n <= bufferSize
      modifies this`write, this`accepted, buffer
      ensures Valid() && accepted == old(accepted) + inBuf[..n]
    {
      Masks();
      Append(buffer, And(write, bufferSize - 1), inBuf, n, |consumed|, accepted);
      WordAdd(|accepted|, n);
      accepted := accepted + inBuf[..n];
      write := (write + n) % WORD;
    }

    /** As many bytes as there are, and as are asked for, leave in the order they came. */
    method ReadBuffer(outBuf: array?<byte>, outSize: nat) returns (n: nat)
      requires Valid() && outSize < WORD
      requires outBuf != null ==> outSize <= outBuf.Length && outBuf != buffer
      modifies this`read, this`consumed, outBuf
      ensures Valid() && buffer == old(buffer)
      ensures n == if buffer == null || outBuf == null || outSize == 0 then REFUSED
                   else Min(outSize, |old(Contents())|)
      ensures n == REFUSED ==> consumed == old(consumed)
      ensures n != REFUSED ==> outBuf[..n] == old(Contents())[..n] && consumed == old(consumed) + outBuf[..n]
      ensures outBuf != null ==>
        var m := if n == REFUSED then 0 else n; outBuf[m..] == old(outBuf[m..])
    {
      if buffer == null || outBuf == null || outSize == 0 {
        return REFUSED;
      }
      var readable := GetReadableLen();
      n := Min(outSize, readable);
      ReadSome(outBuf, n);
    }

    method ReadSome(outBuf: array<byte>, n: nat)
      requires Valid() && buffer != null && outBuf != buffer
      requires n <= outBuf.Length && n <= |Contents()|
      modifies this`read, this`consumed, outBuf
      ensures Valid()
      ensures outBuf[..n] == old(Contents())[..n] && consumed == old(consumed) + outBuf[..n]
      ensures outBuf[n..] == old(outBuf[n..])
    {
      Masks();
      ghost var first := |consumed|;
      Take(buffer, And(read, bufferSize - 1), outBuf, n, first, accepted);
      assert Holds(buffer, first + n, accepted);
      assert accepted[..first + n] == consumed + accepted[first..first + n];
      assert accepted[first..first + n] == accepted[first..][..n];
      WordAdd(first, n);
      consumed := accepted[..first + n];
      read := (read + n) % WORD;
    }
  }

  lemma WordAdd(x: nat, n: nat)
    ensures (x % WORD + n) % WORD == (x + n) % WORD
  {
  }
}
