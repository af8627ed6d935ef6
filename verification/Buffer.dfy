/** The compacting buffer: a growing vector, a prefix kept free, and a read and a write index. */
module Buffers {
  import opened Kfifos

  const CHEAP_PREPEND := 8
  const INITIAL_SIZE := 1024

  /** The extra block of a scatter read. */
  const EXTRA := 65536

  /** What the kernel delivers to `readv`: bytes, or an error number. */
  datatype ReadResult = Data(bytes: seq<byte>) | Failed(errno: int)

  lemma SplitAppend(q: seq<byte>, bytes: seq<byte>, n: nat)
    requires n <= |bytes|
    ensures (q + bytes[..n]) + bytes[n..] == q + bytes
    ensures n == |bytes| ==> bytes[..n] == bytes
  {
  }

  lemma Joined(s: seq<byte>, first: seq<byte>, second: seq<byte>, r: nat, w: nat)
    requires r <= w && |first| == w - r && w + |second| <= |s|
    requires forall i :: r <= i < w ==> s[i] == first[i - r]
    requires forall i :: w <= i < w + |second| ==> s[i] == second[i - w]
    ensures s[r..w + |second|] == first + second
  {
    var joined := s[r..w + |second|];
    forall k | 0 <= k < |joined| ensures joined[k] == (first + second)[k] {
      assert joined[k] == s[r + k];
    }
  }

  class Buffer {
    var buffer: array<byte>
    var readerIndex: nat
    var writerIndex: nat

    /** The size asked for at first, and the largest number of bytes that have been readable at once. */
    ghost var initial: nat
    ghost var peak: nat

    ghost predicate Valid()
      reads this
    {
      && CHEAP_PREPEND <= readerIndex <= writerIndex <= buffer.Length
      && writerIndex - readerIndex <= peak
      && buffer.Length <= CHEAP_PREPEND + (if initial < 2 * peak then 2 * peak else initial)
    }

    ghost function Contents(): (r: seq<byte>)
      reads this, buffer
      requires Valid()
      ensures |r| == writerIndex - readerIndex
    {
      buffer[readerIndex..writerIndex]
    }

    constructor (initialSize: nat)
      ensures Valid() && fresh(buffer) && Contents() == []
      ensures buffer.Length == CHEAP_PREPEND + initialSize && initial == initialSize && peak == 0
    {
      buffer := new byte[CHEAP_PREPEND + initialSize](_ => 0);
      readerIndex, writerIndex, initial, peak := CHEAP_PREPEND, CHEAP_PREPEND, initialSize, 0;
    }

    function ReadableBytes(): nat
      reads this
      requires readerIndex <= writerIndex
    {
      writerIndex - readerIndex
    }

    function WritableBytes(): nat
      reads this
      requires writerIndex <= buffer.Length
    {
      buffer.Length - writerIndex
    }

    method RetrieveAll()
      requires Valid()
      modifies this`readerIndex, this`writerIndex
      ensures Valid() && Contents() == [] && readerIndex == writerIndex == CHEAP_PREPEND
    {
      readerIndex, writerIndex := CHEAP_PREPEND, CHEAP_PREPEND;
    }

    /** Retrieving at least everything resets the indexes: all the space is free again. */
    method Retrieve(len: nat)
      requires Valid()
      modifies this`readerIndex, this`writerIndex
      ensures Valid()
      ensures Contents() == if len < |old(Contents())| then old(Contents())[len..] else []
      ensures WritableBytes()
           == if len < |old(Contents())| then old(WritableBytes()) else buffer.Length - CHEAP_PREPEND
    {
      if len < ReadableBytes() {
        readerIndex := readerIndex + len;
      } else {
        RetrieveAll();
      }
    }

    /** The caller must not ask for more than is readable: the source copies from the vector unchecked. */
    method RetrieveAsString(len: nat) returns (result: seq<byte>)
      requires Valid() && len <= |Contents()|
      modifies this`readerIndex, this`writerIndex
      ensures Valid() && result == old(Contents())[..len] && Contents() == old(Contents())[len..]
      ensures Contents() == [] ==> WritableBytes() == buffer.Length - CHEAP_PREPEND
    {
      result := buffer[readerIndex..readerIndex + len];
      Retrieve(len);
    }

    method RetrieveAllAsString() returns (result: seq<byte>)
      requires Valid()
      modifies this`readerIndex, this`writerIndex
      ensures Valid() && result == old(Contents()) && Contents() == []
      ensures WritableBytes() == buffer.Length - CHEAP_PREPEND
    {
      result := RetrieveAsString(ReadableBytes());
      assert old(Contents())[..|old(Contents())|] == old(Contents());
    }

    /** The vector gets longer and keeps what it holds. */
    method Resize(size: nat)
      requires size >= buffer.Length
      modifies this`buffer
      ensures fresh(buffer) && buffer.Length == size
      ensures forall i :: 0 <= i < old(buffer.Length) ==> buffer[i] == old(buffer[i])
    {
      var longer := new byte[size](_ => 0);
      MemCpy(longer, 0, buffer, 0, buffer.Length);
      buffer := longer;
    }

    /**
      `std::copy` of the readable bytes to the front: source and target overlap, and copying upward is
      right because the target is strictly to the left.
     */
    method MoveToFront()
      requires Valid() && readerIndex > CHEAP_PREPEND
      modifies this`readerIndex, this`writerIndex, buffer
      ensures Valid() && readerIndex == CHEAP_PREPEND
      ensures Contents() == old(Contents())
    {
      var readable := ReadableBytes();
      ghost var was := Contents();
      var i := 0;
      while i < readable
        invariant 0 <= i <= readable
        invariant forall k :: CHEAP_PREPEND <= k < CHEAP_PREPEND + i ==> buffer[k] == was[k - CHEAP_PREPEND]
        invariant forall k :: readerIndex + i <= k < writerIndex ==> buffer[k] == was[k - readerIndex]
        modifies buffer
      {
        buffer[CHEAP_PREPEND + i] := buffer[readerIndex + i];
        i := i + 1;
      }
      assert buffer[CHEAP_PREPEND..CHEAP_PREPEND + readable] == was;
      readerIndex := CHEAP_PREPEND;
      writerIndex := CHEAP_PREPEND + readable;
    }

    /**
      Called when the space behind the bytes is too short.  The vector grows only when the bytes and the
      new ones would not fit behind the prefix, and then to less than the readable bytes, twice the new
      ones and the prefix; otherwise the bytes move strictly to the left.
     */
    method MakeSpace(len: nat)
      requires Valid() && WritableBytes() < len
      modifies this, buffer
      ensures CHEAP_PREPEND <= readerIndex <= writerIndex <= buffer.Length
      ensures buffer == old(buffer) || fresh(buffer)
      ensures initial == old(initial) && peak == old(peak)
      ensures WritableBytes() >= len && buffer[readerIndex..writerIndex] == old(Contents())
      ensures var readable := |old(Contents())|;
        if old(buffer.Length) < readable + len + CHEAP_PREPEND
        then old(buffer.Length) < buffer.Length < readable + 2 * len + CHEAP_PREPEND
        else buffer.Length == old(buffer.Length) && readerIndex == CHEAP_PREPEND < old(readerIndex)
    {
      if WritableBytes() + readerIndex < len + CHEAP_PREPEND {
        Resize(writerIndex + len);
      } else {
        MoveToFront();
      }
    }

    method EnsureWriteableBytes(len: nat)
      requires Valid()
      modifies this, buffer
      ensures CHEAP_PREPEND <= readerIndex <= writerIndex <= buffer.Length
      ensures buffer == old(buffer) || fresh(buffer)
      ensures initial == old(initial) && peak == old(peak)
      ensures WritableBytes() >= len && buffer[readerIndex..writerIndex] == old(Contents())
      ensures buffer.Length == old(buffer.Length)
           || old(buffer.Length) < buffer.Length < |old(Contents())| + 2 * len + CHEAP_PREPEND
      ensures old(WritableBytes()) >= len ==>
        buffer == old(buffer) && readerIndex == old(readerIndex) && writerIndex == old(writerIndex)
    {
      if WritableBytes() < len {
        MakeSpace(len);
      }
    }

    method Append(data: array<byte>, len: nat)
      requires Valid() && len <= data.Length && data != buffer
      modifies this, buffer
      ensures Valid() && (buffer == old(buffer) || fresh(buffer))
      ensures Contents() == old(Contents()) + old(data[..len])
      ensures initial == old(initial) && peak == if old(peak) < |Contents()| then |Contents()| else old(peak)
    {
      EnsureWriteableBytes(len);
      CopyBehind(data, len);
      writerIndex := writerIndex + len;
      peak := if peak < writerIndex - readerIndex then writerIndex - readerIndex else peak;
    }

    /** `std::copy` to the first free byte. */
    method CopyBehind(data: array<byte>, len: nat)
      requires readerIndex <= writerIndex && writerIndex + len <= buffer.Length
      requires len <= data.Length && data != buffer
      modifies buffer
      ensures buffer[readerIndex..writerIndex + len] == old(buffer[readerIndex..writerIndex]) + old(data[..len])
    {
      ghost var was, b := buffer[..], buffer;
      ghost var r, w := readerIndex, writerIndex;
      MemCpy(buffer, writerIndex, data, 0, len);
      assert forall i :: r <= i < w + len ==> b[i] == if i < w then was[i] else data[i - w];
      assert was[r..w] == old(buffer[readerIndex..writerIndex]);
      Joined(b[..], was[r..w], data[..len], r, w);
      assert b[..][r..w + len] == b[r..w + len];
    }

    /** At most as many bytes as the segments offered hold. */
    predicate Legal(result: ReadResult)
      reads this
      requires Valid()
    {
      result.Data? ==> |result.bytes| <= WritableBytes() + (if WritableBytes() < EXTRA then EXTRA else 0)
    }

    /** Whatever count the kernel returns, exactly the bytes it delivered are appended. */
    method ReadFd(result: ReadResult) returns (n: int, savedErrno: int)
      requires Valid() && Legal(result)
      modifies this, buffer
      ensures Valid() && (buffer == old(buffer) || fresh(buffer))
      ensures result.Data? ==> n == |result.bytes| && Contents() == old(Contents()) + result.bytes
      ensures result.Failed? ==> n < 0 && savedErrno == result.errno && Contents() == old(Contents())
      ensures initial == old(initial) && peak == if old(peak) < |Contents()| then |Contents()| else old(peak)
    {
      if result.Failed? {
        return -1, result.errno;
      }
      savedErrno := 0;
      n := |result.bytes|;
      TakeIn(result.bytes);
    }

    method TakeIn(bytes: seq<byte>)
      requires Valid() && Legal(Data(bytes))
      modifies this, buffer
      ensures Valid() && (buffer == old(buffer) || fresh(buffer))
      ensures Contents() == old(Contents()) + bytes
      ensures initial == old(initial) && peak == if old(peak) < |Contents()| then |Contents()| else old(peak)
    {
      ghost var was := Contents();
      var writable := WritableBytes();
      var direct := Min(|bytes|, writable);
      var extrabuf := new byte[EXTRA](_ => 0);
      Deliver(bytes, direct, extrabuf);
      ghost var more := extrabuf[..|bytes| - direct];
      Advance(direct);
      SplitAppend(was, bytes, direct);
      assert Contents() == was + bytes[..direct];
      if |bytes| > writable {
        Append(extrabuf, |bytes| - writable);
        assert Contents() == (was + bytes[..direct]) + more;
      }
    }

    /** The bytes in the first segment become readable: all of them, or as many as fill the vector. */
    method Advance(count: nat)
      requires Valid() && count <= WritableBytes()
      modifies this`writerIndex, this`peak
      ensures Valid() && writerIndex == old(writerIndex) + count
      ensures peak == if old(peak) < |Contents()| then |Contents()| else old(peak)
      ensures Contents() == old(Contents()) + buffer[old(writerIndex)..writerIndex]
    {
      ghost var end := writerIndex;
      writerIndex := writerIndex + count;
      peak := if peak < writerIndex - readerIndex then writerIndex - readerIndex else peak;
      assert buffer[readerIndex..writerIndex] == buffer[readerIndex..end] + buffer[end..writerIndex];
    }

    /** The kernel fills the first segment, then the second. */
    method Deliver(bytes: seq<byte>, direct: nat, extrabuf: array<byte>)
      requires Valid() && extrabuf != buffer
      requires direct <= |bytes| && direct <= WritableBytes() && |bytes| - direct <= extrabuf.Length
      modifies buffer, extrabuf
      ensures Contents() == old(Contents())
      ensures buffer[writerIndex..writerIndex + direct] == bytes[..direct]
      ensures extrabuf[..|bytes| - direct] == bytes[direct..]
    {
      var b, w := buffer, writerIndex;
      forall i | w <= i < w + direct { b[i] := bytes[i - w]; }
      forall i | 0 <= i < |bytes| - direct { extrabuf[i] := bytes[direct + i]; }
    }
  }
}
