/** The buffer as the program has it: one byte array and two cursors into it. */
module Buffers {
  import opened BufferSpec

  lemma Prefixes(s: seq<byte>, from: nat, n: nat, k: nat)
    requires from + n <= |s| && k <= n
    ensures s[from..from + n][..k] == s[from..from + k]
  {
  }

  lemma Joined(s: seq<byte>, from: nat, mid: nat, n: nat)
    requires from <= mid && mid + n <= |s|
    ensures s[from..mid + n] == s[from..mid] + s[mid..][..n]
  {
  }

  lemma Landing(before: seq<byte>, after: seq<byte>, at: nat, bytes: seq<byte>)
    requires |after| == |before| && at + |bytes| <= |after| && after[at..at + |bytes|] == bytes
    requires forall k | at + |bytes| <= k < |after| :: after[k] == before[k]
    ensures after[at..] == bytes + before[at..][|bytes|..]
  {
    assert after[at..] == after[at..at + |bytes|] + after[at + |bytes|..];
    assert after[at + |bytes|..] == before[at + |bytes|..];
  }

  class Buffer {
    var storage: array<byte>
    var readerIndex: nat
    var writerIndex: nat

    ghost predicate Valid()
      reads this
    {
      && CHEAP_PREPEND <= writerIndex && readerIndex <= writerIndex <= storage.Length
      && (readerIndex == writerIndex ==> readerIndex == CHEAP_PREPEND)
    }

    ghost function Abs(): (v: View)
      requires Valid()
      reads this, storage
      ensures BufferSpec.Ok(v)
    {
      View(storage.Length, readerIndex, storage[readerIndex..writerIndex])
    }

    constructor (initialSize: nat)
      ensures Valid() && fresh(storage) && Abs() == Fresh(initialSize)
    {
      storage := new byte[CHEAP_PREPEND + initialSize](_ => 0);
      readerIndex, writerIndex := CHEAP_PREPEND, CHEAP_PREPEND;
    }

    function ReadableBytes(): (n: nat)
      requires Valid()
      reads this, storage
      ensures n == |Abs().content|
    {
      writerIndex - readerIndex
    }

    function WritableBytes(): (n: nat)
      requires Valid()
      reads this, storage
      ensures n == BufferSpec.Writable(Abs())
    {
      storage.Length - writerIndex
    }

    method RetrieveAll()
      requires Valid()
      modifies this
      ensures Valid() && storage == old(storage) && Abs() == BufferSpec.RetrieveAll(old(Abs()))
    {
      readerIndex, writerIndex := CHEAP_PREPEND, CHEAP_PREPEND;
    }

    method Retrieve(len: nat)
      requires Valid() && len <= ReadableBytes()
      modifies this
      ensures Valid() && storage == old(storage) && Abs() == BufferSpec.Retrieve(old(Abs()), len)
    {
      if len < ReadableBytes() {
        readerIndex := readerIndex + len;
      } else {
        RetrieveAll();
      }
    }

    /** `end` is a position in the storage, as peek() and beginWrite() are. */
    method RetrieveUntil(end: nat)
      requires Valid() && readerIndex <= end <= writerIndex
      modifies this
      ensures Valid() && storage == old(storage) && Abs() == BufferSpec.Retrieve(old(Abs()), end - old(readerIndex))
    {
      Retrieve(end - readerIndex);
    }

    /** std::vector::resize to something larger. */
    method Resize(size: nat)
      requires Valid() && size >= storage.Length
      modifies this
      ensures Valid() && fresh(storage) && Abs() == old(Abs()).(size := size)
      ensures readerIndex == old(readerIndex) && writerIndex == old(writerIndex)
    {
      var bigger := new byte[size](_ => 0);
      var i := 0;
      while i < storage.Length
        modifies bigger
        invariant 0 <= i <= storage.Length
        invariant bigger[..i] == storage[..i]
      {
        bigger[i] := storage[i];
        i := i + 1;
      }
      assert bigger[readerIndex..writerIndex] == bigger[..i][readerIndex..writerIndex];
      assert storage[readerIndex..writerIndex] == storage[..i][readerIndex..writerIndex];
      storage := bigger;
    }

    /** std::copy of the readable bytes to the start, front to back, over themselves. */
    method CopyDown()
      requires Valid() && CHEAP_PREPEND < readerIndex
      modifies storage
      ensures storage[CHEAP_PREPEND..CHEAP_PREPEND + (writerIndex - readerIndex)]
           == old(storage[readerIndex..writerIndex])
    {
      var readable := writerIndex - readerIndex;
      ghost var before := storage[..];
      var i := 0;
      while i < readable
        modifies storage
        invariant 0 <= i <= readable
        invariant storage[CHEAP_PREPEND..CHEAP_PREPEND + i] == before[readerIndex..readerIndex + i]
        invariant forall k | CHEAP_PREPEND + i <= k < storage.Length :: storage[k] == before[k]
      {
        storage[CHEAP_PREPEND + i] := storage[readerIndex + i];
        i := i + 1;
      }
    }

    method MakeSpace(len: nat)
      requires Valid() && WritableBytes() < len
      modifies this, storage
      ensures Valid() && (storage == old(storage) || fresh(storage))
      ensures Abs() == WithSpace(old(Abs()), len)
    {
      if WritableBytes() + readerIndex < len + CHEAP_PREPEND {
        Resize(writerIndex + len);
      } else {
        assert CHEAP_PREPEND < readerIndex;
        var readable := ReadableBytes();
        CopyDown();
        readerIndex := CHEAP_PREPEND;
        writerIndex := readerIndex + readable;
        assert readable == ReadableBytes();
      }
    }

    method EnsureWritableBytes(len: nat)
      requires Valid()
      modifies this, storage
      ensures Valid() && (storage == old(storage) || fresh(storage))
      ensures Abs() == WithSpace(old(Abs()), len)
      ensures WritableBytes() >= len
    {
      if WritableBytes() < len {
        MakeSpace(len);
      }
      assert WritableBytes() >= len;
    }

    /** `len` is what is left of the caller's length in 32 bits. */
    method HasWritten(len: nat)
      requires Valid() && len <= WritableBytes() && len < TWO_TO_32
      modifies this
      ensures Valid() && storage == old(storage)
      ensures Abs() == old(Abs()).(content := old(Abs()).content + old(storage[writerIndex..writerIndex + len]))
    {
      writerIndex := writerIndex + len;
    }

    /** std::copy of bytes to a position of the storage that no readable byte occupies. */
    method CopyIn(bytes: seq<byte>, at: nat)
      requires Valid() && at + |bytes| <= storage.Length && (at >= writerIndex || at + |bytes| <= readerIndex)
      modifies storage
      ensures Valid() && Abs() == old(Abs()) && storage[at..at + |bytes|] == bytes
      ensures forall k | 0 <= k < at || at + |bytes| <= k < storage.Length :: storage[k] == old(storage[k])
    {
      var i := 0;
      while i < |bytes|
        modifies storage
        invariant 0 <= i <= |bytes|
        invariant storage[at..at + i] == bytes[..i]
        invariant forall k | 0 <= k < at || at + i <= k < storage.Length :: storage[k] == old(storage[k])
      {
        storage[at + i] := bytes[i];
        i := i + 1;
      }
    }

    method Append(data: seq<byte>)
      requires Valid()
      modifies this, storage
      ensures Valid() && (storage == old(storage) || fresh(storage))
      ensures Abs() == BufferSpec.Append(old(Abs()), data)
    {
      hide WithSpace;
      EnsureWritableBytes(|data|);
      ghost var roomy := Abs();
      CopyIn(data, writerIndex);
      var len := |data| % TWO_TO_32;
      Prefixes(storage[..], writerIndex, |data|, len);
      assert storage[writerIndex..writerIndex + len] == data[..len];
      HasWritten(len);
      assert Abs() == roomy.(content := roomy.content + data[..len]);
    }

    method Prepend(data: seq<byte>)
      requires Valid() && |data| <= readerIndex
      modifies this, storage
      ensures Valid() && storage == old(storage) && Abs() == BufferSpec.Prepend(old(Abs()), data)
    {
      CopyIn(data, readerIndex - |data|);
      ghost var kept := Abs().content;
      readerIndex := readerIndex - |data|;
      assert storage[readerIndex..writerIndex] == storage[readerIndex..readerIndex + |data|] + kept;
    }

    /** readv: the bytes go to the tail as far as its 32-bit length, the rest to the overflow area. */
    method Scatter(bytes: seq<byte>) returns (extra: seq<byte>)
      requires Valid() && Deliverable(Abs(), bytes)
      modifies storage
      ensures Valid() && Abs() == old(Abs())
      ensures storage[writerIndex..] == Landed(old(Abs()), bytes, old(storage[writerIndex..]))
      ensures extra == if |bytes| <= TailLength(Abs()) then [] else bytes[TailLength(Abs())..]
    {
      var len := WritableBytes() % TWO_TO_32;
      var n := if |bytes| <= len then |bytes| else len;
      ghost var before := storage[..];
      CopyIn(bytes[..n], writerIndex);
      extra := bytes[n..];
      Landing(before, storage[..], writerIndex, bytes[..n]);
    }

    /** The bytes of the tail that readv filled become readable. */
    method Extend(n: nat)
      requires Valid() && n <= WritableBytes()
      modifies this
      ensures Valid() && storage == old(storage)
      ensures Abs() == old(Abs()).(content := old(Abs()).content + old(storage[writerIndex..])[..n])
    {
      Joined(storage[..], readerIndex, writerIndex, n);
      writerIndex := writerIndex + n;
    }

    /** The whole tail becomes readable, and the overflow area is appended. */
    method Spill(extra: seq<byte>)
      requires Valid()
      modifies this, storage
      ensures Valid() && (storage == old(storage) || fresh(storage))
      ensures var extended := old(Abs()).(content := old(Abs()).content + old(storage[writerIndex..]));
              Abs() == BufferSpec.Append(extended, extra)
    {
      hide BufferSpec.Append;
      ghost var tail := storage[writerIndex..];
      assert tail[..storage.Length - writerIndex] == tail;
      Extend(storage.Length - writerIndex);
      hide Valid, Abs;
      Append(extra);
    }

    /** `ok` says whether WSARecv succeeded, `bytes` is what it delivered (nothing at the end of the
        stream). */
    method ReadFd(ok: bool, bytes: seq<byte>) returns (n: int)
      requires Valid() && (ok ==> Deliverable(Abs(), bytes))
      modifies this, storage
      ensures Valid() && (storage == old(storage) || fresh(storage))
      ensures Abs() == if ok then Receive(old(Abs()), bytes, old(storage[writerIndex..])) else old(Abs())
      ensures n == if ok && |bytes| < TWO_TO_31 then |bytes| else -1
    {
      var writable := WritableBytes();
      var recvdNum, extrabuf := -1, [];
      if ok {
        extrabuf := Scatter(bytes);
        recvdNum := ReceivedCount(bytes);
      }
      if recvdNum > 0 {
        if recvdNum <= writable {
          Extend(recvdNum);
        } else {
          Spill(extrabuf[..recvdNum - writable]);
        }
        return recvdNum;
      } else if recvdNum == 0 {
        return 0;
      } else {
        return -1;
      }
    }
  }
}
