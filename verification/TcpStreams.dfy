/** The two byte streams of a connection, over every run. */
module TcpStreams {
  import opened BufferSpec
  import opened ChannelBits
  import opened TcpSpec

  ghost predicate OutputConserved(c: Conn) { c.wire + c.output.content == c.accepted }

  ghost predicate InputConserved(c: Conn) { c.consumed + c.input.content == c.received }

  /** While connected, write interest is registered exactly when there is a backlog. */
  ghost predicate InterestMatches(c: Conn) {
    && (c.state == Connected ==> (IsEnabled(c.interest, WRITE_EVENT) <==> c.output.content != []))
    && (c.state == Connecting ==> c.interest == NONE_EVENT && c.output.content == [])
  }

  ghost predicate BuffersOk(c: Conn) { BufferSpec.Ok(c.input) && BufferSpec.Ok(c.output) }

  lemma StepBuffersOk(c: Conn, ev: Event)
    requires BuffersOk(c) && Possible(c, ev)
    ensures BuffersOk(Step(c, ev))
  {
    match ev
    case Sends(data, result, wouldBlock) =>
      ApplyOk(c.output, DoAppend(data[Direct(c, result)..]));
      hide BufferSpec.Ok;
    case CanWrite(result) =>
      ApplyOk(c.output, DoRetrieve(if result > 0 then result else 0));
      hide BufferSpec.Ok;
    case CanRead(ok, bytes, tail) =>
      if ok {
        ApplyOk(c.input, DoReceive(bytes, tail));
      }
      hide BufferSpec.Ok, Receive;
    case Takes(len) =>
      ApplyOk(c.input, DoRetrieve(len));
      hide BufferSpec.Ok;
    case _ =>
  }

  // ---- output

  /** How much of the data a connected send gives to the socket itself. */
  function Direct(c: Conn, result: int): nat {
    if WritesDirectly(c) && result >= 0 then result else 0
  }

  predicate SendFails(c: Conn, result: int, wouldBlock: bool) {
    WritesDirectly(c) && result < 0 && !wouldBlock
  }

  /** What a send has to buffer is shorter than 2^32 bytes. */
  predicate SendFits(c: Conn, ev: Event) {
    ev.Sends? && c.state == Connected ==>
      SendFails(c, ev.result, ev.wouldBlock) || |ev.data| - Direct(c, ev.result) < TWO_TO_32
  }

  ghost predicate AllSendsFit(c: Conn, evs: seq<Event>)
    requires AllPossible(c, evs)
    decreases |evs|
  {
    evs == [] || (SendFits(c, evs[0]) && AllSendsFit(Step(c, evs[0]), evs[1..]))
  }

  ghost predicate OutputInv(c: Conn) { BuffersOk(c) && OutputConserved(c) && InterestMatches(c) }

  lemma SplitStream(wire: seq<byte>, backlog: seq<byte>, data: seq<byte>, n: nat)
    requires n <= |data| && (backlog == [] || n == 0)
    ensures (wire + data[..n]) + (backlog + data[n..]) == (wire + backlog) + data
  {
    assert data == data[..n] + data[n..];
  }

  /** What a connected send does to the stream. */
  lemma SendEffect(c: Conn, data: seq<byte>, result: int, wouldBlock: bool)
    requires result <= |data| && |data| - Direct(c, result) < TWO_TO_32 && c.state == Connected
    ensures var t := Send(c, data, result, wouldBlock);
            var n := Direct(c, result);
            t.state == c.state &&
            if SendFails(c, result, wouldBlock)
            then t.wire == c.wire && t.output == c.output && t.interest == c.interest && t.accepted == c.accepted
            else
              && t.output.content == c.output.content + data[n..]
              && t.wire == c.wire + data[..n] && t.accepted == c.accepted + data
              && (if data[n..] == [] then t.interest == c.interest else IsEnabled(t.interest, WRITE_EVENT))
  {
    hide Append;
    var rest := data[Direct(c, result)..];
    if rest != [] {
      AppendKeepsAllIffFits(c.output, rest);
    } else {
      assert c.output.content + rest == c.output.content;
    }
  }

  lemma FailedSend(c: Conn, data: seq<byte>, result: int, wouldBlock: bool)
    requires result <= |data| && c.state == Connected && SendFails(c, result, wouldBlock)
    ensures var t := Send(c, data, result, wouldBlock);
            && t.wire == c.wire && t.output == c.output && t.interest == c.interest
            && t.accepted == c.accepted && t.state == c.state
  {
  }

  lemma SendConserves(c: Conn, data: seq<byte>, result: int, wouldBlock: bool)
    requires OutputConserved(c) && InterestMatches(c)
    requires result <= |data| && SendFits(c, Sends(data, result, wouldBlock))
    ensures OutputConserved(Send(c, data, result, wouldBlock)) && InterestMatches(Send(c, data, result, wouldBlock))
  {
    if c.state == Connected {
      if SendFails(c, result, wouldBlock) {
        FailedSend(c, data, result, wouldBlock);
      } else {
        SendEffect(c, data, result, wouldBlock);
        SplitStream(c.wire, c.output.content, data, Direct(c, result));
      }
      hide Send;
    }
  }

  lemma WriteConserves(c: Conn, result: int)
    requires OutputConserved(c) && InterestMatches(c) && result <= |c.output.content|
    ensures OutputConserved(HandleWrite(c, result)) && InterestMatches(HandleWrite(c, result))
  {
    if result > 0 {
      assert c.output.content == c.output.content[..result] + c.output.content[result..];
    }
  }

  lemma StepConserves(c: Conn, ev: Event)
    requires OutputInv(c) && Possible(c, ev) && SendFits(c, ev)
    ensures OutputInv(Step(c, ev))
  {
    StepBuffersOk(c, ev);
    hide BuffersOk, Send, HandleWrite;
    match ev
    case Sends(data, result, wouldBlock) => SendConserves(c, data, result, wouldBlock);
    case CanWrite(result) => WriteConserves(c, result);
    case _ => hide Receive;
  }

  lemma InitialInv(config: Config)
    ensures OutputInv(Initial(config)) && InputConserved(Initial(config))
  {
  }

  /** How many accepted bytes are neither on the wire nor in the buffer. */
  function Lost(c: Conn): int { |c.accepted| - |c.wire| - |c.output.content| }

  /** No step gives lost bytes back, and a send that does not fit loses some. */
  lemma StepLoses(c: Conn, ev: Event)
    requires Possible(c, ev)
    ensures Lost(Step(c, ev)) >= Lost(c)
    ensures !SendFits(c, ev) ==> Lost(Step(c, ev)) > Lost(c)
  {
    match ev
    case Sends(data, result, wouldBlock) =>
      AppendedLength(c.output, data[Direct(c, result)..]);
      hide Append;
    case CanRead(_, _, _) => hide Receive;
    case _ =>
  }

  lemma {:induction false} RunLoses(c: Conn, evs: seq<Event>)
    requires AllPossible(c, evs)
    ensures Lost(Run(c, evs)) >= Lost(c)
    decreases |evs|
  {
    hide Step, Lost;
    if evs == [] {
    } else {
      StepLoses(c, evs[0]);
      RunLoses(Step(c, evs[0]), evs[1..]);
    }
  }

  lemma AppendedLength(v: View, data: seq<byte>)
    ensures |Append(v, data).content| == |v.content| + |data| % TWO_TO_32
    ensures |data| % TWO_TO_32 == |data| <==> |data| < TWO_TO_32
  {
  }

  lemma {:induction false} RunConservesIff(c: Conn, evs: seq<Event>)
    requires OutputInv(c) && AllPossible(c, evs)
    ensures OutputConserved(Run(c, evs)) <==> AllSendsFit(c, evs)
    decreases |evs|
  {
    hide Step, SendFits, BuffersOk, InterestMatches;
    if evs == [] {
    } else if SendFits(c, evs[0]) {
      StepConserves(c, evs[0]);
      hide OutputInv;
      RunConservesIff(Step(c, evs[0]), evs[1..]);
    } else {
      StepLoses(c, evs[0]);
      RunLoses(Step(c, evs[0]), evs[1..]);
      var t := Run(c, evs);
      assert |c.wire + c.output.content| == |c.accepted|;
      assert Lost(t) > 0;
      assert |t.wire + t.output.content| < |t.accepted|;
    }
  }

  /** The output stream, over every run: what the socket took and what is still buffered are, in
      order, the data of the sends that were reported successful, if and only if no send had 2^32
      bytes or more to buffer. */
  lemma OutputStreamIsConserved(config: Config, evs: seq<Event>)
    requires AllPossible(Initial(config), evs)
    ensures var c := Run(Initial(config), evs);
            && (c.wire + c.output.content == c.accepted <==> AllSendsFit(Initial(config), evs))
            && (AllSendsFit(Initial(config), evs) ==> c.wire <= c.accepted)
  {
    InitialInv(config);
    RunConservesIff(Initial(config), evs);
  }

  /** A send does not buffer a non-zero multiple of 2^32 bytes on top of nothing. */
  predicate SendMatches(c: Conn, ev: Event) {
    ev.Sends? && c.state == Connected && !SendFails(c, ev.result, ev.wouldBlock) && c.output.content == [] ==>
      |ev.data| <= Direct(c, ev.result) || (|ev.data| - Direct(c, ev.result)) % TWO_TO_32 != 0
  }

  ghost predicate AllSendsMatch(c: Conn, evs: seq<Event>)
    requires AllPossible(c, evs)
    decreases |evs|
  {
    evs == [] || (SendMatches(c, evs[0]) && AllSendsMatch(Step(c, evs[0]), evs[1..]))
  }

  /** In every state of the run. */
  ghost predicate AlwaysMatches(c: Conn, evs: seq<Event>)
    requires AllPossible(c, evs)
    decreases |evs|
  {
    InterestMatches(c) && (evs == [] || AlwaysMatches(Step(c, evs[0]), evs[1..]))
  }

  lemma SendMatchesIff(c: Conn, data: seq<byte>, result: int, wouldBlock: bool)
    requires InterestMatches(c) && result <= |data|
    ensures InterestMatches(Send(c, data, result, wouldBlock)) <==> SendMatches(c, Sends(data, result, wouldBlock))
  {
    AppendedLength(c.output, data[Direct(c, result)..]);
    hide Append;
  }

  lemma StepMatchesIff(c: Conn, ev: Event)
    requires InterestMatches(c) && Possible(c, ev)
    ensures InterestMatches(Step(c, ev)) <==> SendMatches(c, ev)
  {
    match ev
    case Sends(data, result, wouldBlock) => SendMatchesIff(c, data, result, wouldBlock);
    case _ => hide Receive;
  }

  lemma {:induction false} RunMatchesIff(c: Conn, evs: seq<Event>)
    requires InterestMatches(c) && AllPossible(c, evs)
    ensures AlwaysMatches(c, evs) <==> AllSendsMatch(c, evs)
    decreases |evs|
  {
    hide InterestMatches, Step, SendMatches;
    if evs == [] {
    } else {
      StepMatchesIff(c, evs[0]);
      if SendMatches(c, evs[0]) {
        RunMatchesIff(Step(c, evs[0]), evs[1..]);
      }
    }
  }

  /** Over every run: while connected, write interest is on exactly when there is a backlog, so
      that handleWrite never meets an empty one and a direct write never overtakes one, if and
      only if no send buffers a non-zero multiple of 2^32 bytes on top of nothing. */
  lemma WriteInterestMatchesBacklog(config: Config, evs: seq<Event>)
    requires AllPossible(Initial(config), evs)
    ensures AlwaysMatches(Initial(config), evs) <==> AllSendsMatch(Initial(config), evs)
  {
    InitialInv(config);
    RunMatchesIff(Initial(config), evs);
  }

  // ---- input

  /** What a read delivers reaches the buffer whole. */
  predicate ReadFits(c: Conn, ev: Event)
    requires Possible(c, ev)
  {
    ev.CanRead? && ev.ok && c.state == Connected ==> ReceiveFits(c.input, ev.bytes)
  }

  ghost predicate AllReadsFit(c: Conn, evs: seq<Event>)
    requires AllPossible(c, evs)
    decreases |evs|
  {
    evs == [] || (ReadFits(c, evs[0]) && AllReadsFit(Step(c, evs[0]), evs[1..]))
  }

  /** The input buffer never has to hold more than limit bytes: what user code has left in it and
      what one read delivers. */
  predicate Below(c: Conn, ev: Event, limit: nat) {
    ev.CanRead? && ev.ok && c.state == Connected ==> |c.input.content| + |ev.bytes| <= limit
  }

  ghost predicate AllBelow(c: Conn, evs: seq<Event>, limit: nat)
    requires AllPossible(c, evs)
    decreases |evs|
  {
    evs == [] || (Below(c, evs[0], limit) && AllBelow(Step(c, evs[0]), evs[1..], limit))
  }

  lemma StreamStep(consumed: seq<byte>, held: seq<byte>, bytes: seq<byte>)
    ensures consumed + (held + bytes) == (consumed + held) + bytes
  {
  }

  lemma StreamTake(consumed: seq<byte>, held: seq<byte>, n: nat)
    requires n <= |held|
    ensures (consumed + held[..n]) + held[n..] == consumed + held
  {
    assert held == held[..n] + held[n..];
  }

  lemma StepDelivers(c: Conn, ev: Event)
    requires BuffersOk(c) && InputConserved(c) && Possible(c, ev) && ReadFits(c, ev)
    ensures InputConserved(Step(c, ev))
  {
    match ev
    case CanRead(ok, bytes, tail) =>
      if ok && c.state == Connected {
        ReceiveAppends(c.input, bytes, tail);
        StreamStep(c.consumed, c.input.content, bytes);
      }
      hide Receive;
    case Takes(len) => StreamTake(c.consumed, c.input.content, len);
    case Sends(_, _, _) => hide Append;
    case _ =>
  }

  /** The input stream, over every run in which each read fits: what user code retrieved and what
      is still buffered are, in order, what the socket delivered. */
  lemma {:induction false} InputStreamIsConserved(c: Conn, evs: seq<Event>)
    requires BuffersOk(c) && InputConserved(c) && AllPossible(c, evs) && AllReadsFit(c, evs)
    ensures InputConserved(Run(c, evs))
    decreases |evs|
  {
    hide BuffersOk, InputConserved, Step, ReadFits;
    if evs == [] {
    } else {
      StepBuffersOk(c, evs[0]);
      StepDelivers(c, evs[0]);
      InputStreamIsConserved(Step(c, evs[0]), evs[1..]);
    }
  }

  /** Room for less than 2^32 bytes behind the prepend zone. */
  predicate Roomy(c: Conn) { c.input.size < CHEAP_PREPEND + TWO_TO_32 }

  lemma StepStaysRoomy(c: Conn, ev: Event, limit: nat)
    requires BuffersOk(c) && Possible(c, ev) && Below(c, ev, limit) && Roomy(c) && limit < TWO_TO_31
    ensures ReadFits(c, ev) && Roomy(Step(c, ev))
  {
    match ev
    case CanRead(ok, bytes, tail) =>
      if ok && c.state == Connected {
        ApplyBounded(c.input, DoReceive(bytes, tail), limit);
      }
      hide Receive;
    case Sends(_, _, _) => hide Append;
    case _ =>
  }

  lemma {:induction false} BelowLimitAllReadsFit(c: Conn, evs: seq<Event>, limit: nat)
    requires BuffersOk(c) && AllPossible(c, evs) && AllBelow(c, evs, limit) && Roomy(c) && limit < TWO_TO_31
    ensures AllReadsFit(c, evs)
    decreases |evs|
  {
    hide BuffersOk, Step, ReadFits, Roomy, Below;
    if evs == [] {
    } else {
      StepBuffersOk(c, evs[0]);
      StepStaysRoomy(c, evs[0], limit);
      BelowLimitAllReadsFit(Step(c, evs[0]), evs[1..], limit);
    }
  }

  /** An empty input buffer with room for `room` bytes, on an open connection. */
  predicate Empty(c: Conn, room: nat) {
    c.state == Connected && c.input == Fresh(room)
  }

  function Bytes(n: nat): (s: seq<byte>)
    ensures |s| == n
  {
    seq(n, _ => 0)
  }

  lemma FloodFills(room: nat, bytes: seq<byte>, tail: seq<byte>)
    requires |tail| == room && |bytes| == room + EXTRA_BUFFER < TWO_TO_31
    ensures Deliverable(Fresh(room), bytes)
    ensures Receive(Fresh(room), bytes, tail) == View(CHEAP_PREPEND + room + EXTRA_BUFFER, CHEAP_PREPEND, bytes)
  {
    var v := Fresh(room);
    ReceiveAppends(v, bytes, tail);
    assert [] + bytes == bytes;
    assert Landed(v, bytes, tail) == bytes[..room];
  }

  /** A read that fills the tail and the overflow area leaves, once taken, that much more room. */
  lemma FloodGrows(c: Conn, room: nat, bytes: seq<byte>, tail: seq<byte>)
    requires Empty(c, room) && InputConserved(c)
    requires |tail| == room && |bytes| == room + EXTRA_BUFFER < TWO_TO_31
    ensures var flood, take := CanRead(true, bytes, tail), Takes(|bytes|);
            && Possible(c, flood)
            && var d := Step(c, flood);
               && Possible(d, take) && Empty(Step(d, take), |bytes|) && InputConserved(Step(d, take))
  {
    FloodFills(room, bytes, tail);
    hide Receive, Deliverable;
    assert bytes[..|bytes|] == bytes;
    assert c.consumed + [] == c.consumed;
  }

  /** A read of 2^31 bytes: its count looks like an error. */
  lemma LastIsLost(c: Conn, room: nat, bytes: seq<byte>, tail: seq<byte>)
    requires Empty(c, room) && InputConserved(c)
    requires |tail| == room && |bytes| == room + EXTRA_BUFFER == TWO_TO_31
    ensures Possible(c, CanRead(true, bytes, tail)) && !InputConserved(Step(c, CanRead(true, bytes, tail)))
  {
    assert |c.consumed + []| < |c.received + bytes|;
    var t := Step(c, CanRead(true, bytes, tail));
    assert t.input == c.input && t.received == c.received + bytes && t.consumed == c.consumed;
  }

  /** Reads that fill the tail and the overflow area, each taken whole at once, make the tail grow
      until one read delivers 2^31 bytes, which are lost. */
  lemma {:induction false} FloodLoses(c: Conn, room: nat) returns (evs: seq<Event>)
    requires Empty(c, room) && InputConserved(c)
    requires room + EXTRA_BUFFER <= TWO_TO_31 && (TWO_TO_31 - room) % EXTRA_BUFFER == 0
    ensures AllPossible(c, evs) && AllBelow(c, evs, TWO_TO_31) && !InputConserved(Run(c, evs))
    decreases TWO_TO_31 - room
  {
    var bytes, tail := Bytes(room + EXTRA_BUFFER), Bytes(room);
    var flood, take := CanRead(true, bytes, tail), Takes(|bytes|);
    if |bytes| == TWO_TO_31 {
      LastIsLost(c, room, bytes, tail);
      evs := [flood];
      hide Step, Possible, InputConserved;
      var t := Step(c, flood);
      assert evs[1..] == [] && Run(t, []) == t && AllPossible(t, []) && AllBelow(t, [], TWO_TO_31);
    } else {
      FloodGrows(c, room, bytes, tail);
      hide Step, Possible, InputConserved;
      var d := Step(c, flood);
      var e := Step(d, take);
      var rest := FloodLoses(e, |bytes|);
      evs := [flood, take] + rest;
      assert evs[1..] == [take] + rest && ([take] + rest)[1..] == rest;
      assert AllPossible(d, [take] + rest) && AllBelow(d, [take] + rest, TWO_TO_31);
      assert Run(d, [take] + rest) == Run(e, rest);
    }
  }

  lemma {:induction false} AllBelowMore(c: Conn, evs: seq<Event>, limit: nat, more: nat)
    requires AllPossible(c, evs) && AllBelow(c, evs, limit) && limit <= more
    ensures AllBelow(c, evs, more)
    decreases |evs|
  {
    hide Step;
    if evs == [] {
    } else {
      AllBelowMore(Step(c, evs[0]), evs[1..], limit, more);
    }
  }

  /** Every run in which the input buffer has to hold at most limit bytes delivers the input. */
  ghost predicate DeliversBelow(config: Config, limit: nat) {
    forall evs | AllPossible(Initial(config), evs) && AllBelow(Initial(config), evs, limit) ::
      InputConserved(Run(Initial(config), evs))
  }

  /** The condition user code can keep: a connection whose input buffer never has to hold more
      than limit bytes delivers its input, whatever the socket does, exactly when limit < 2^31. */
  lemma InputIsDeliveredIff(config: Config, limit: nat)
    ensures DeliversBelow(config, limit) <==> limit < TWO_TO_31
  {
    InitialInv(config);
    var c := Initial(config);
    if limit < TWO_TO_31 {
      forall evs | AllPossible(c, evs) && AllBelow(c, evs, limit)
        ensures InputConserved(Run(c, evs))
      {
        BelowLimitAllReadsFit(c, evs, limit);
        InputStreamIsConserved(c, evs);
      }
    } else {
      var e := Step(c, Establish);
      var rest := FloodLoses(e, INITIAL_BUFFER);
      var evs := [Establish] + rest;
      assert evs[1..] == rest;
      assert AllPossible(c, evs) && AllBelow(c, evs, TWO_TO_31);
      AllBelowMore(c, evs, TWO_TO_31, limit);
      assert !InputConserved(Run(c, evs));
    }
  }

  // ---- after the connection has been left

  predicate Left(c: Conn) { c.state == Disconnecting || c.state == Disconnected }

  /** Once a connection has left kConnected it never comes back, nothing more is written, accepted or
      delivered, and neither its interests nor what it has buffered for writing change. */
  lemma {:induction false} LeftForGood(c: Conn, evs: seq<Event>)
    requires Left(c) && AllPossible(c, evs)
    ensures var t := Run(c, evs);
            && Left(t) && t.wire == c.wire && t.accepted == c.accepted
            && t.received == c.received && t.notices == c.notices
            && t.interest == c.interest && t.output == c.output
    decreases |evs|
  {
    if evs == [] {
    } else {
      LeftForGood(Step(c, evs[0]), evs[1..]);
    }
  }

  /** connectEstablished's assert holds exactly when none of the connection's other life-cycle
      handlers has run before it. */
  lemma {:induction false} EstablishOnlyFirst(c: Conn, evs: seq<Event>)
    requires AllPossible(c, evs) && c.state == Connecting
    ensures Possible(Run(c, evs), Establish) <==> forall ev | ev in evs :: !ev.Establish? && !ev.Close? && !ev.Destroy?
    decreases |evs|
  {
    if evs == [] {
    } else {
      var ev := evs[0];
      assert ev in evs && forall e :: e in evs <==> e == ev || e in evs[1..];
      if ev.Establish? || ev.Close? || ev.Destroy? {
        NeverConnectingAgain(Step(c, ev), evs[1..]);
      } else {
        EstablishOnlyFirst(Step(c, ev), evs[1..]);
      }
    }
  }

  lemma {:induction false} NeverConnectingAgain(c: Conn, evs: seq<Event>)
    requires AllPossible(c, evs) && c.state != Connecting
    ensures Run(c, evs).state != Connecting
    decreases |evs|
  {
    if evs == [] {
    } else {
      NeverConnectingAgain(Step(c, evs[0]), evs[1..]);
    }
  }

  // ---- notices

  /** The step's first new notice is a write-complete. */
  predicate AnnouncesComplete(c: Conn, ev: Event)
    requires Possible(c, ev)
  {
    |Step(c, ev).notices| > |c.notices| && Step(c, ev).notices[|c.notices|] == WriteComplete
  }

  /** Nothing is ever taken back, a step queues at most one notice, and a write-complete comes with
      an empty output buffer. */
  lemma NoticesGrow(c: Conn, ev: Event)
    requires Possible(c, ev) && InterestMatches(c)
    ensures c.notices <= Step(c, ev).notices && |Step(c, ev).notices| <= |c.notices| + 1
    ensures AnnouncesComplete(c, ev) ==> Step(c, ev).output.content == []
  {
    match ev
    case CanRead(_, _, _) => hide Receive;
    case _ => hide Append;
  }

  /** In every step of the run: a write-complete notice is queued only when everything accepted so
      far is on the wire. */
  ghost predicate CompleteMeansFlushed(c: Conn, evs: seq<Event>)
    requires AllPossible(c, evs)
    decreases |evs|
  {
    evs == []
    || (var d := Step(c, evs[0]);
        && c.notices <= d.notices && |d.notices| <= |c.notices| + 1
        && (AnnouncesComplete(c, evs[0]) ==> d.wire == d.accepted)
        && CompleteMeansFlushed(d, evs[1..]))
  }

  lemma {:induction false} RunFlushes(c: Conn, evs: seq<Event>)
    requires OutputInv(c) && AllPossible(c, evs) && AllSendsFit(c, evs)
    ensures CompleteMeansFlushed(c, evs)
    decreases |evs|
  {
    hide Step, SendFits, BuffersOk, InterestMatches, AnnouncesComplete;
    if evs == [] {
    } else {
      StepConserves(c, evs[0]);
      NoticesGrow(c, evs[0]);
      var d := Step(c, evs[0]);
      assert d.output.content == [] ==> d.wire + d.output.content == d.wire;
      RunFlushes(d, evs[1..]);
    }
  }

  /** Over every run whose sends fit: a write-complete notice is queued only in a state in which
      everything accepted so far is on the wire. */
  lemma WriteCompleteMeansFlushed(config: Config, evs: seq<Event>)
    requires AllPossible(Initial(config), evs) && AllSendsFit(Initial(config), evs)
    ensures CompleteMeansFlushed(Initial(config), evs)
  {
    InitialInv(config);
    RunFlushes(Initial(config), evs);
  }

  /** How many bytes a step adds to what has to be buffered. */
  function Offered(c: Conn, ev: Event): nat
    requires Possible(c, ev)
  {
    if ev.Sends? && c.state == Connected && !SendFails(c, ev.result, ev.wouldBlock)
    then |ev.data| - Direct(c, ev.result)
    else 0
  }

  /** A high-water notice is queued exactly by the step that takes the backlog from below the
      mark to the mark or above it, and it carries the new size; the buffer then holds that much,
      unless the send did not fit. */
  lemma HighWaterMeansCrossing(c: Conn, ev: Event, size: nat)
    requires Possible(c, ev)
    ensures var t, was, mark := Step(c, ev), |c.output.content|, c.config.highWaterMark;
            (|t.notices| > |c.notices| && t.notices[|c.notices|] == HighWaterMark(size))
            <==> c.config.highWater && was < mark <= was + Offered(c, ev) == size
    ensures Offered(c, ev) > 0 ==>
              (|Step(c, ev).output.content| == |c.output.content| + Offered(c, ev) <==> SendFits(c, ev))
  {
    match ev
    case Sends(data, result, _) =>
      AppendedLength(c.output, data[Direct(c, result)..]);
      hide Append;
    case CanRead(_, _, _) => hide Receive;
    case _ =>
  }
}
