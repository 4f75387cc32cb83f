/** The buffer as its users see it: a queue of bytes, and how much storage it takes. */
module BufferSpec {

  newtype byte = b: int | 0 <= b < 256

  const CHEAP_PREPEND := 8
  const EXTRA_BUFFER := 65536

  /** hasWritten takes its length, and WSABUF holds one, as an unsigned 32-bit integer. */
  const TWO_TO_32 := 0x1_0000_0000

  /** readv returns its count as a signed one. */
  const TWO_TO_31 := 0x8000_0000

  /** The size of the storage, where the readable bytes begin in it, and what they are. */
  datatype View = View(size: nat, reader: nat, content: seq<byte>)

  function Writer(v: View): nat { v.reader + |v.content| }

  /** New bytes never go into the prepend zone, and an empty buffer has its cursors at the start. */
  ghost predicate Ok(v: View) {
    && CHEAP_PREPEND <= Writer(v) <= v.size
    && (v.content == [] ==> v.reader == CHEAP_PREPEND)
  }

  function Writable(v: View): int { v.size - Writer(v) }

  function Fresh(initialSize: nat): View { View(CHEAP_PREPEND + initialSize, CHEAP_PREPEND, []) }

  function WithSpace(v: View, len: nat): View {
    if Writable(v) >= len then v
    else if Writable(v) + v.reader < len + CHEAP_PREPEND then v.(size := Writer(v) + len)
    else v.(reader := CHEAP_PREPEND)
  }

  function Append(v: View, data: seq<byte>): View {
    var w := WithSpace(v, |data|);
    w.(content := w.content + data[..|data| % TWO_TO_32])
  }

  function Prepend(v: View, data: seq<byte>): View
    requires |data| <= v.reader
  {
    View(v.size, v.reader - |data|, data + v.content)
  }

  function RetrieveAll(v: View): View { View(v.size, CHEAP_PREPEND, []) }

  function Retrieve(v: View, len: nat): View {
    if len < |v.content| then View(v.size, v.reader + len, v.content[len..]) else RetrieveAll(v)
  }

  /** What is left of the tail's length in WSABUF::len. */
  function TailLength(v: View): nat
    requires 0 <= Writable(v)
  {
    Writable(v) % TWO_TO_32
  }

  /** What one readv can deliver: as much as its two areas are said to hold, and a count that
      fits a DWORD. */
  predicate Deliverable(v: View, bytes: seq<byte>) {
    0 <= Writable(v) && |bytes| <= TailLength(v) + EXTRA_BUFFER && |bytes| < TWO_TO_32
  }

  /** The count of received bytes once readv has returned it as an int32_t. */
  function ReceivedCount(bytes: seq<byte>): int {
    if |bytes| < TWO_TO_31 then |bytes| else |bytes| - TWO_TO_32
  }

  /** The tail after readv; `tail` is what it held before. */
  function Landed(v: View, bytes: seq<byte>, tail: seq<byte>): seq<byte>
    requires 0 <= Writable(v) == |tail|
  {
    var n := if |bytes| <= TailLength(v) then |bytes| else TailLength(v);
    bytes[..n] + tail[n..]
  }

  /** readFd after the socket delivered these bytes: first into the tail, the rest through the
      overflow area. */
  function Receive(v: View, bytes: seq<byte>, tail: seq<byte>): View
    requires Deliverable(v, bytes) && |tail| == Writable(v)
  {
    if ReceivedCount(bytes) <= 0 then v
    else if |bytes| <= Writable(v) then v.(content := v.content + Landed(v, bytes, tail)[..|bytes|])
    else
      var spilled := bytes[TailLength(v)..];
      Append(v.(content := v.content + Landed(v, bytes, tail)), spilled[..|bytes| - Writable(v)])
  }

  // ---- runs

  datatype Op =
    | DoAppend(data: seq<byte>)
    | DoPrepend(data: seq<byte>)
    | DoRetrieve(len: nat)
    | DoRetrieveAll
    | DoEnsure(len: nat)
    | DoReceive(bytes: seq<byte>, tail: seq<byte>)

  /** What the asserts and readv's contract demand. */
  predicate Allowed(v: View, op: Op) {
    match op
    case DoPrepend(data) => |data| <= v.reader
    case DoRetrieve(len) => len <= |v.content|
    case DoReceive(bytes, tail) => Deliverable(v, bytes) && |tail| == Writable(v)
    case _ => true
  }

  function Apply(v: View, op: Op): View
    requires Allowed(v, op)
  {
    match op
    case DoAppend(data) => Append(v, data)
    case DoPrepend(data) => Prepend(v, data)
    case DoRetrieve(len) => Retrieve(v, len)
    case DoRetrieveAll => RetrieveAll(v)
    case DoEnsure(len) => WithSpace(v, len)
    case DoReceive(bytes, tail) => Receive(v, bytes, tail)
  }

  ghost predicate AllAllowed(v: View, ops: seq<Op>)
    decreases |ops|
  {
    ops == [] || (Allowed(v, ops[0]) && AllAllowed(Apply(v, ops[0]), ops[1..]))
  }

  function RunOps(v: View, ops: seq<Op>): View
    requires AllAllowed(v, ops)
    decreases |ops|
  {
    if ops == [] then v else RunOps(Apply(v, ops[0]), ops[1..])
  }

  /** The byte queue the buffer stands for: no cursors, no storage. */
  function QueueApply(q: seq<byte>, op: Op): seq<byte> {
    match op
    case DoAppend(data) => q + data
    case DoPrepend(data) => data + q
    case DoRetrieve(len) => if len <= |q| then q[len..] else []
    case DoRetrieveAll => []
    case DoEnsure(_) => q
    case DoReceive(bytes, _) => q + bytes
  }

  function QueueRun(q: seq<byte>, ops: seq<Op>): seq<byte>
    decreases |ops|
  {
    if ops == [] then q else QueueRun(QueueApply(q, ops[0]), ops[1..])
  }

  /** The bytes arrive whole: the count is not taken for an error, and the tail is not longer than
      its 32-bit length, or at least not filled further than that. */
  predicate ReceiveFits(v: View, bytes: seq<byte>)
    requires 0 <= Writable(v)
  {
    |bytes| < TWO_TO_31 && (Writable(v) < TWO_TO_32 || |bytes| <= TailLength(v))
  }

  /** The operation survives the casts to 32 bits: its lengths do, or what readv did not write to
      the tail happens to be there already. */
  predicate Fits(v: View, op: Op)
    requires Allowed(v, op)
  {
    match op
    case DoAppend(data) => |data| < TWO_TO_32
    case DoReceive(bytes, tail) =>
      var k := TailLength(v);
      ReceiveFits(v, bytes) || (k < |bytes| < TWO_TO_31 && |bytes| <= Writable(v) && bytes[k..] == tail[k..|bytes|])
    case _ => true
  }

  ghost predicate AllFit(v: View, ops: seq<Op>)
    requires AllAllowed(v, ops)
    decreases |ops|
  {
    ops == [] || (Fits(v, ops[0]) && AllFit(Apply(v, ops[0]), ops[1..]))
  }

  lemma ApplyOk(v: View, op: Op)
    requires Ok(v) && Allowed(v, op)
    ensures Ok(Apply(v, op))
  {
  }

  /** In every state of the run the readable bytes are those of the byte queue that began with q. */
  ghost predicate AlwaysRefines(v: View, q: seq<byte>, ops: seq<Op>)
    requires AllAllowed(v, ops)
    decreases |ops|
  {
    v.content == q && (ops == [] || AlwaysRefines(Apply(v, ops[0]), QueueApply(q, ops[0]), ops[1..]))
  }

  /** An operation does to the readable bytes what the byte queue does, whichever way it made room
      and however much was delivered, exactly when it survives the casts. */
  lemma ApplyRefinesQueueIff(v: View, op: Op)
    requires Ok(v) && Allowed(v, op)
    ensures Apply(v, op).content == QueueApply(v.content, op) <==> Fits(v, op)
  {
    match op
    case DoAppend(data) => AppendKeepsAllIffFits(v, data);
    case DoReceive(bytes, tail) => ReceiveRefinesIff(v, bytes, tail);
    case _ =>
  }

  lemma ReceiveRefinesIff(v: View, bytes: seq<byte>, tail: seq<byte>)
    requires Ok(v) && Allowed(v, DoReceive(bytes, tail))
    ensures Receive(v, bytes, tail).content == v.content + bytes <==> Fits(v, DoReceive(bytes, tail))
  {
    var k := TailLength(v);
    if ReceiveFits(v, bytes) {
      ReceiveAppends(v, bytes, tail);
    } else if |bytes| < TWO_TO_31 {
      var landed := Landed(v, bytes, tail)[..|bytes|];
      assert landed == bytes[..k] + tail[k..|bytes|];
      assert bytes == bytes[..k] + bytes[k..];
      assert bytes[k..] == tail[k..|bytes|] <==> landed == bytes by {
        assert landed[k..] == tail[k..|bytes|];
      }
      SamePrefix(v.content, landed, bytes);
    }
  }

  lemma SamePrefix(a: seq<byte>, b: seq<byte>, c: seq<byte>)
    ensures a + b == a + c <==> b == c
  {
    assert (a + b)[|a|..] == b && (a + c)[|a|..] == c;
  }

  lemma ReceiveAppends(v: View, bytes: seq<byte>, tail: seq<byte>)
    requires Ok(v) && Deliverable(v, bytes) && |tail| == Writable(v) && ReceiveFits(v, bytes)
    ensures Receive(v, bytes, tail).content == v.content + bytes
  {
    if |bytes| <= Writable(v) {
      assert Landed(v, bytes, tail)[..|bytes|] == bytes;
    } else {
      assert TailLength(v) == Writable(v);
      assert Landed(v, bytes, tail) == bytes[..Writable(v)];
      assert bytes == bytes[..Writable(v)] + bytes[Writable(v)..];
    }
  }

  /** A tail that differs from the bytes everywhere. */
  function OtherBytes(bytes: seq<byte>, n: nat): (tail: seq<byte>)
    ensures |tail| == n && forall i | 0 <= i < n && i < |bytes| :: tail[i] != bytes[i]
  {
    seq(n, i requires 0 <= i => if i < |bytes| && bytes[i] == 0 then 1 else 0)
  }

  /** readFd keeps all it was given, whatever lay in the tail before, exactly when the bytes fit. */
  lemma ReceiveKeepsAllIffFits(v: View, bytes: seq<byte>)
    requires Ok(v) && Deliverable(v, bytes)
    ensures (forall tail | |tail| == Writable(v) :: Receive(v, bytes, tail).content == v.content + bytes)
            <==> ReceiveFits(v, bytes)
  {
    if ReceiveFits(v, bytes) {
      forall tail: seq<byte> | |tail| == Writable(v)
        ensures Receive(v, bytes, tail).content == v.content + bytes
      {
        ReceiveAppends(v, bytes, tail);
      }
    } else {
      var tail := OtherBytes(bytes, Writable(v));
      var k := TailLength(v);
      if |bytes| < TWO_TO_31 {
        assert Receive(v, bytes, tail).content[|v.content| + k] == tail[k];
        assert (v.content + bytes)[|v.content| + k] == bytes[k];
      }
    }
  }

  /** A buffer can take every delivery whole exactly while its tail and the overflow area together
      stay below 2^31 bytes. */
  lemma EveryDeliveryFitsIff(v: View)
    requires Ok(v)
    ensures (forall bytes | Deliverable(v, bytes) :: ReceiveFits(v, bytes)) <==> Writable(v) + EXTRA_BUFFER < TWO_TO_31
  {
    if Writable(v) + EXTRA_BUFFER < TWO_TO_31 {
      assert TailLength(v) == Writable(v);
    } else {
      var n := if TailLength(v) + EXTRA_BUFFER >= TWO_TO_31 then TWO_TO_31 else TailLength(v) + 1;
      var bytes := OtherBytes([], n);
      assert Deliverable(v, bytes) && !ReceiveFits(v, bytes);
    }
  }

  /** Over any run the cursors stay in order and the storage never drops below the prepend zone;
      and the buffer is the byte queue, in every state, if and only if every operation survives
      the casts. */
  lemma {:induction false} RunRefinesQueue(v: View, ops: seq<Op>)
    requires Ok(v) && AllAllowed(v, ops)
    ensures Ok(RunOps(v, ops))
    ensures AlwaysRefines(v, v.content, ops) <==> AllFit(v, ops)
    ensures AllFit(v, ops) ==> RunOps(v, ops).content == QueueRun(v.content, ops)
    decreases |ops|
  {
    if ops == [] {
    } else {
      var w := Apply(v, ops[0]);
      ApplyOk(v, ops[0]);
      ApplyRefinesQueueIff(v, ops[0]);
      hide Ok, Apply, QueueApply, Fits;
      RunRefinesQueue(w, ops[1..]);
    }
  }

  /** append keeps all of its data exactly when the length survives the cast to 32 bits. */
  lemma AppendKeepsAllIffFits(v: View, data: seq<byte>)
    ensures Append(v, data).content == v.content + data <==> |data| < TWO_TO_32
  {
    var kept := data[..|data| % TWO_TO_32];
    assert |v.content + kept| == |v.content| + |data| % TWO_TO_32;
    if |data| < TWO_TO_32 {
      assert kept == data;
    }
  }

  // ---- space

  /** The operation never asks for more than limit readable bytes, counting what it reserves. */
  predicate Within(v: View, op: Op, limit: nat) {
    match op
    case DoAppend(data) => |v.content| + |data| <= limit
    case DoEnsure(len) => |v.content| + len <= limit
    case DoReceive(bytes, _) => |v.content| + |bytes| <= limit
    case _ => true
  }

  ghost predicate AllWithin(v: View, ops: seq<Op>, limit: nat)
    requires AllAllowed(v, ops)
    decreases |ops|
  {
    ops == [] || (Within(v, ops[0], limit) && AllWithin(Apply(v, ops[0]), ops[1..], limit))
  }

  function Max(a: int, b: int): int { if a < b then b else a }

  function SpaceBound(limit: nat): int { Max(CHEAP_PREPEND + limit, 2 * limit + 6) }

  /** Storage grows only when the free space is split up, so a step grows it to the bound at most. */
  lemma WithSpaceBounded(v: View, len: nat, limit: nat)
    requires Ok(v) && |v.content| + len <= limit
    ensures WithSpace(v, len).size <= Max(v.size, SpaceBound(limit))
  {
  }

  lemma ApplyBounded(v: View, op: Op, limit: nat)
    requires Ok(v) && Allowed(v, op) && Within(v, op, limit)
    ensures Apply(v, op).size <= Max(v.size, SpaceBound(limit))
  {
    match op
    case DoAppend(data) => WithSpaceBounded(v, |data|, limit);
    case DoEnsure(len) => WithSpaceBounded(v, len, limit);
    case DoReceive(bytes, tail) =>
      if ReceivedCount(bytes) > 0 && |bytes| > Writable(v) {
        var w := v.(content := v.content + Landed(v, bytes, tail));
        WithSpaceBounded(w, |bytes| - Writable(v), limit);
      }
    case _ =>
  }

  /** A buffer that never has to hold more than limit readable bytes never takes more storage
      than it began with or than the bound, whatever the order of operations. */
  lemma {:induction false} StorageIsBounded(v: View, ops: seq<Op>, limit: nat)
    requires Ok(v) && AllAllowed(v, ops) && AllWithin(v, ops, limit)
    ensures RunOps(v, ops).size <= Max(v.size, SpaceBound(limit))
    decreases |ops|
  {
    if ops == [] {
    } else {
      ApplyOk(v, ops[0]);
      ApplyBounded(v, ops[0], limit);
      StorageIsBounded(Apply(v, ops[0]), ops[1..], limit);
    }
  }

  /** The condition a user of the buffer can keep: with room for less than 2^32 bytes to begin
      with, and never 2^31 readable bytes or more, nothing is ever lost to a cast. */
  lemma {:induction false} BelowLimitAllFits(v: View, ops: seq<Op>, limit: nat)
    requires Ok(v) && AllAllowed(v, ops) && AllWithin(v, ops, limit)
    requires v.size < CHEAP_PREPEND + TWO_TO_32 && limit < TWO_TO_31
    ensures AllFit(v, ops)
    decreases |ops|
  {
    if ops == [] {
    } else {
      ApplyOk(v, ops[0]);
      ApplyBounded(v, ops[0], limit);
      BelowLimitAllFits(Apply(v, ops[0]), ops[1..], limit);
    }
  }

  /** The bound is met: from a smaller start, three operations reach it. */
  lemma BoundIsReached(limit: nat, data: seq<byte>) returns (ops: seq<Op>)
    requires 2 <= limit <= TWO_TO_32 && |data| == limit - 1
    ensures AllAllowed(Fresh(limit - 1), ops) && AllWithin(Fresh(limit - 1), ops, limit)
    ensures RunOps(Fresh(limit - 1), ops).size == SpaceBound(limit) > Fresh(limit - 1).size
  {
    ops := [DoAppend(data), DoRetrieve(limit - 2), DoAppend(data)];
    var v0 := Fresh(limit - 1);
    var v1 := Apply(v0, ops[0]);
    assert data[..|data| % TWO_TO_32] == data;
    assert v1 == View(limit + 7, 8, data);
    var v2 := Apply(v1, ops[1]);
    var v3 := Apply(v2, ops[2]);
    assert ops[1..][1..] == ops[2..] && ops[2..][1..] == [];
    assert AllAllowed(v3, []) && RunOps(v3, []) == v3;
    assert AllAllowed(v2, ops[2..]) && RunOps(v2, ops[2..]) == v3;
    assert AllAllowed(v1, ops[1..]) && RunOps(v1, ops[1..]) == v3;
    assert AllWithin(v2, ops[2..], limit);
    assert AllWithin(v1, ops[1..], limit);
  }
}
