/** The connection as the program has it: an object with two buffers and a channel of its loop,
    whose handlers update all of them in place. Socket calls are parameters: their results, and
    the bytes they delivered. */
module TcpConnections {
  import opened BufferSpec
  import opened ChannelBits
  import opened TcpSpec
  import opened TcpStreams
  import opened TcpLife
  import opened Buffers
  import opened Registry
  import opened Pollers

  /** What the direct write leaves. */
  function Written(c: Conn, data: seq<byte>, result: int): Conn
    requires result <= |data|
  {
    var n := Direct(c, result);
    var flushed := WritesDirectly(c) && result >= 0 && data[n..] == [] && c.config.writeComplete;
    c.(wire := c.wire + data[..n], notices := c.notices + (if flushed then [WriteComplete] else []))
  }

  /** A connected send in three parts: the direct write, the backlog, the report. */
  lemma ConnectedSend(c: Conn, data: seq<byte>, result: int, wouldBlock: bool)
    requires result <= |data| && c.state == Connected
    ensures var error, rest := SendFails(c, result, wouldBlock), data[Direct(c, result)..];
            var c1 := Written(c, data, result);
            var c2 := if !error && rest != [] then Backlog(c1, rest) else c1;
            Send(c, data, result, wouldBlock)
            == c2.(accepted := if error then c.accepted else c.accepted + data, reports := c.reports + [!error])
  {
    hide Backlog;
  }

  /** What the constructor binds to handleClose, handleRead, handleWrite and handleError. */
  const CALLBACKS: set<Callback> := {CloseCallback, ReadCallback, WriteCallback, ErrorCallback}

  /** What one handleEvent does to the connection: a handler for each callback it calls. */
  function Handled(called: seq<Callback>, read: Event, write: Event): seq<Event> {
    if called == [] then [] else HandlerOf(called[0], read, write) + Handled(called[1..], read, write)
  }

  function HandlerOf(callback: Callback, read: Event, write: Event): seq<Event> {
    match callback
    case CloseCallback => [Close]
    case ReadCallback => [read]
    case WriteCallback => [write]
    case AcceptCallback => []
    case ErrorCallback => [Close]
  }

  lemma {:induction false} NoneReads(called: seq<Callback>, read: Event, write: Event)
    requires ReadCallback !in called && write.CanWrite?
    ensures forall ev | ev in Handled(called, read, write) :: !ev.CanRead?
  {
    if called == [] {
    } else {
      assert called[0] in called && forall cb | cb in called[1..] :: cb in called;
      NoneReads(called[1..], read, write);
    }
  }

  lemma {:induction false} NothingDelivered(c: Conn, evs: seq<Event>)
    requires AllPossible(c, evs) && forall ev | ev in evs :: !ev.CanRead?
    ensures Delivered(c, evs) == []
    decreases |evs|
  {
    hide Step;
    if evs == [] {
    } else {
      assert evs[0] in evs && forall ev | ev in evs[1..] :: ev in evs;
      NothingDelivered(Step(c, evs[0]), evs[1..]);
    }
  }

  /** The first callback has the least place of all. */
  lemma FirstCalled(called: seq<Callback>, word: Bits, callback: Callback)
    requires CallsFor(called, word, CALLBACKS, 5) && callback in called
    requires forall cb | cb in called :: PlaceOf(callback) <= PlaceOf(cb)
    ensures called[0] == callback && callback !in called[1..]
  {
    hide IsEnabled, BitOf;
    assert called[0] in called;
    var k :| 0 <= k < |called| && called[k] == callback;
    PlacesDiffer(callback, called[0]);
    forall cb | cb in called[1..]
      ensures cb != callback
    {
      var i :| 0 <= i < |called| - 1 && called[1..][i] == cb;
      assert PlaceOf(called[0]) < PlaceOf(called[i + 1]);
    }
  }

  /** handleEvent calls the close callback first. So what has arrived is read unless the end of the
      connection is reported with it: then none of it is. */
  lemma CloseHidesTheRest(c: Conn, word: Bits, called: seq<Callback>, read: Event, write: Event)
    requires c.state == Connected && CallsFor(called, word, CALLBACKS, 5) && read.CanRead? && write.CanWrite?
    requires AllPossible(c, Handled(called, read, write))
    ensures var t := Run(c, Handled(called, read, write));
            if IsEnabled(word, CLOSE_EVENT)
            then Left(t) && t.interest == NONE_EVENT && t.received == c.received && t.wire == c.wire
            else t.received == c.received + (if IsEnabled(word, READ_EVENT) && read.ok then read.bytes else [])
  {
    var evs := Handled(called, read, write);
    if IsEnabled(word, CLOSE_EVENT) {
      assert CloseCallback in called;
      FirstCalled(called, word, CloseCallback);
      hide Handled, CallsFor;
      CallFirst(called, read, write);
      LeftForGood(Step(c, evs[0]), evs[1..]);
    } else {
      ReceivedIsWhatWasDelivered(c, evs);
      assert CloseCallback !in called && (ReadCallback in called <==> IsEnabled(word, READ_EVENT));
      hide Step;
      if ReadCallback in called {
        FirstCalled(called, word, ReadCallback) by {
          assert forall cb: Callback :: PlaceOf(cb) == 0 ==> cb == CloseCallback;
        }
        hide CallsFor, IsEnabled;
        CallFirst(called, read, write);
        NoneReads(called[1..], read, write);
        NothingDelivered(Step(c, read), evs[1..]);
      } else {
        NoneReads(called, read, write);
        NothingDelivered(c, evs);
      }
    }
  }

  lemma CallFirst(called: seq<Callback>, read: Event, write: Event)
    requires called != [] && (called[0] == CloseCallback || called[0] == ReadCallback)
    ensures var evs := Handled(called, read, write);
            && evs != [] && evs[0] == (if called[0] == CloseCallback then Close else read)
            && evs[1..] == Handled(called[1..], read, write)
  {
  }

  class TcpConnection {
    const config: Config
    const loop: EventLoop
    const channel: Channel
    const inputBuffer: Buffer
    const outputBuffer: Buffer
    var state: ConnState
    var notices: seq<Notice>
    var reports: seq<bool>
    ghost var wire: seq<byte>
    ghost var accepted: seq<byte>
    ghost var received: seq<byte>
    ghost var consumed: seq<byte>

    /** The channel belongs to the loop and calls the connection's handlers. It is registered with the
        poller while connected, and not before or after connectDestroyed. */
    ghost predicate Valid()
      reads this, inputBuffer, outputBuffer, loop, loop.poller, loop.poller.chans
    {
      && inputBuffer.Valid() && outputBuffer.Valid()
      && inputBuffer != outputBuffer && inputBuffer.storage != outputBuffer.storage
      && loop.Valid() && channel in loop.poller.chans && channel.fdtype == Socket
      && (state == Connected ==> channel in loop.poller.Registered())
      && (state == Connecting || state == Disconnected ==> channel !in loop.poller.Registered())
      && channel.callbacks == CALLBACKS
    }

    ghost function Abs(): Conn
      requires inputBuffer.Valid() && outputBuffer.Valid()
      reads this, channel, inputBuffer, outputBuffer, inputBuffer.storage, outputBuffer.storage
    {
      Conn(config, state, channel.events, inputBuffer.Abs(), outputBuffer.Abs(), notices, reports,
           wire, accepted, received, consumed)
    }

    constructor (config: Config, loop: EventLoop, socket: int)
      requires loop.Valid() && |loop.channels| < INVALID_INDEX - 1
      modifies loop, loop.poller`chans
      ensures Valid() && Abs() == Initial(config) && this.loop == loop
      ensures fresh(channel) && loop.poller.chans == old(loop.poller.chans) + {channel}
      ensures fresh(inputBuffer) && fresh(outputBuffer) && fresh(inputBuffer.storage) && fresh(outputBuffer.storage)
    {
      this.config, this.loop := config, loop;
      state := Connecting;
      var input := new Buffer(INITIAL_BUFFER);
      var output := new Buffer(INITIAL_BUFFER);
      var chan := OpenChannel(loop, socket);
      inputBuffer, outputBuffer, channel := input, output, chan;
      notices, reports, wire, accepted, received, consumed := [], [], [], [], [], [];
    }

    /** A new channel of the loop with the connection's handlers, not yet registered. */
    static method OpenChannel(loop: EventLoop, socket: int) returns (chan: Channel)
      requires loop.Valid() && |loop.channels| < INVALID_INDEX - 1
      modifies loop, loop.poller`chans
      ensures loop.Valid() && fresh(chan) && loop.poller.chans == old(loop.poller.chans) + {chan}
      ensures chan !in loop.poller.Registered() && chan.fdtype == Socket && chan.handle == socket
      ensures chan.events == NONE_EVENT && chan.callbacks == CALLBACKS
    {
      chan := loop.NewChannel(Socket, socket);
      hide SlotMask, EventLoop.Valid, Poller.Registered;
      BindHandlers(loop, chan);
    }

    static method BindHandlers(loop: EventLoop, chan: Channel)
      requires loop.Valid() && chan in loop.poller.chans && chan != loop.timerChannel
      modifies chan`callbacks
      ensures loop.Valid() && chan.callbacks == old(chan.callbacks) + CALLBACKS
    {
      hide SlotMask, EventLoop.Indexes;
      chan.SetCallback(ReadCallback);
      chan.SetCallback(WriteCallback);
      chan.SetCallback(CloseCallback);
      chan.SetCallback(ErrorCallback);
    }

    /** While connected, the poller asks Winsock for write events on this socket exactly when the
        output buffer is not empty. */
    lemma SlotAsksForWritesIffBacklog()
      requires Valid() && state == Connected && InterestMatches(Abs())
      ensures 1 <= channel.indexForPoll < |loop.poller.chanEvents|
      ensures var slot := loop.poller.chanEvents[channel.indexForPoll];
              slot.chan == channel && (slot.netEvents & FD_WRITE != 0 <==> outputBuffer.ReadableBytes() > 0)
    {
      hide BufferSpec.Ok;
      MaskIsFaithful(channel.events);
      hide NetMask;
      assert channel in loop.poller.Registered();
    }

    /** While connected, it asks for read and close events, and never for accepts. */
    lemma SlotAsksForReadsAndCloses()
      requires Valid() && state == Connected && Listens(Abs())
      ensures 1 <= channel.indexForPoll < |loop.poller.chanEvents|
      ensures var slot := loop.poller.chanEvents[channel.indexForPoll];
              && slot.chan == channel && slot.netEvents & FD_READ != 0 && slot.netEvents & FD_CLOSE != 0
              && slot.netEvents & FD_ACCEPT == 0
    {
      MaskIsFaithful(channel.events);
      hide BufferSpec.Ok, NetMask, IsEnabled;
      assert channel in loop.poller.Registered();
    }

    /** A closed connection that is still registered asks for nothing. */
    lemma SlotAsksForNothing()
      requires Valid() && channel in loop.poller.Registered() && Abs().interest == NONE_EVENT
      ensures 1 <= channel.indexForPoll < |loop.poller.chanEvents|
      ensures loop.poller.chanEvents[channel.indexForPoll].chan == channel
      ensures loop.poller.chanEvents[channel.indexForPoll].netEvents == 0
    {
      MaskIsFaithful(NONE_EVENT);
      hide BufferSpec.Ok, NetMask, IsEnabled;
    }

    /** The channel calls of the handlers: on a registered channel no event is created. */
    method EnableWriting()
      requires Valid() && channel in loop.poller.Registered()
      modifies loop.poller`events, loop.poller`chanEvents, channel`events, channel`indexForPoll
      ensures Valid() && channel.events == Enable(old(channel.events), WRITE_EVENT)
      ensures loop.poller.Registered() == old(loop.poller.Registered())
    {
      loop.EnableFunc(channel, WRITE_EVENT, 0);
    }

    method DisableWriting()
      requires Valid() && channel in loop.poller.Registered()
      modifies loop.poller`events, loop.poller`chanEvents, channel`events, channel`indexForPoll
      ensures Valid() && channel.events == Disable(old(channel.events), WRITE_EVENT)
      ensures loop.poller.Registered() == old(loop.poller.Registered())
    {
      loop.DisableFunc(channel, WRITE_EVENT, 0);
    }

    /** The second half of sendInLoopFunc: what the socket did not take goes to the buffer. */
    method QueueRest(rest: seq<byte>)
      requires Valid() && state == Connected
      modifies this`notices, outputBuffer, outputBuffer.storage
      modifies loop.poller`events, loop.poller`chanEvents, channel`events, channel`indexForPoll
      ensures Valid() && (outputBuffer.storage == old(outputBuffer.storage) || fresh(outputBuffer.storage))
      ensures Abs() == Backlog(old(Abs()), rest)
      ensures loop.poller.Registered() == old(loop.poller.Registered())
    {
      hide BufferSpec.Append, Enable, EventLoop.Valid, Poller.Registered, Buffer.Valid, Buffer.Abs;
      var oldLen := outputBuffer.ReadableBytes();
      var totalSize := oldLen + |rest|;
      if totalSize >= config.highWaterMark && oldLen < config.highWaterMark && config.highWater {
        notices := notices + [HighWaterMark(totalSize)];
      }
      outputBuffer.Append(rest);
      if !IsEnabled(channel.events, WRITE_EVENT) {
        EnableWriting();
      }
    }

    /** The first half of sendInLoopFunc: with nothing queued the socket is tried at once. */
    method TryDirect(data: seq<byte>, result: int, wouldBlock: bool) returns (nwrote: nat, error: bool)
      requires Valid() && result <= |data|
      modifies this`wire, this`notices
      ensures Valid() && nwrote == Direct(old(Abs()), result) && error == SendFails(old(Abs()), result, wouldBlock)
      ensures Abs() == Written(old(Abs()), data, result)
    {
      hide EventLoop.Valid, Poller.Registered;
      nwrote, error := 0, false;
      if !IsEnabled(channel.events, WRITE_EVENT) && outputBuffer.ReadableBytes() == 0 {
        if result >= 0 {
          nwrote := result;
          if |data| - nwrote == 0 && config.writeComplete {
            notices := notices + [WriteComplete];
          }
        } else if !wouldBlock {
          error := true;
        }
      }
      wire := wire + data[..nwrote];
    }

    method SendInLoopFunc(data: seq<byte>, result: int, wouldBlock: bool)
      requires Valid() && result <= |data|
      modifies this, outputBuffer, outputBuffer.storage
      modifies loop.poller`events, loop.poller`chanEvents, channel`events, channel`indexForPoll
      ensures Valid() && (outputBuffer.storage == old(outputBuffer.storage) || fresh(outputBuffer.storage))
      ensures Abs() == Send(old(Abs()), data, result, wouldBlock)
      ensures loop.poller.Registered() == old(loop.poller.Registered())
    {
      hide Backlog, BufferSpec.Ok, EventLoop.Valid, Poller.Registered, Buffer.Valid, Buffer.Abs;
      if state != Connected {
        reports := reports + [false];
        return;
      }
      ConnectedSend(Abs(), data, result, wouldBlock);
      hide Send, Direct, SendFails, Written;
      var nwrote, error := TryDirect(data, result, wouldBlock);
      var rest := data[nwrote..];
      if !error && |rest| > 0 {
        QueueRest(rest);
      }
      accepted := if error then accepted else accepted + data;
      reports := reports + [!error];
    }

    /** On the loop thread. */
    method SendInLoop(data: seq<byte>, result: int, wouldBlock: bool)
      requires Valid() && result <= |data|
      modifies this, outputBuffer, outputBuffer.storage
      modifies loop.poller`events, loop.poller`chanEvents, channel`events, channel`indexForPoll
      ensures Valid() && (outputBuffer.storage == old(outputBuffer.storage) || fresh(outputBuffer.storage))
      ensures Abs() == if old(state) == Connected then Send(old(Abs()), data, result, wouldBlock) else old(Abs())
      ensures loop.poller.Registered() == old(loop.poller.Registered())
    {
      if state == Connected {
        SendInLoopFunc(data, result, wouldBlock);
      }
    }

    /** The close callback is called last: what it does are events after this one. */
    method HandleClose()
      requires Valid()
      modifies this`state, loop.poller`events, loop.poller`chanEvents, channel`events, channel`indexForPoll
      ensures Valid() && Abs() == TcpSpec.HandleClose(old(Abs()))
      ensures state == Disconnecting && (old(state) == Connected ==> channel.events == NONE_EVENT)
      ensures loop.poller.Registered() == old(loop.poller.Registered())
    {
      hide SlotMask;
      if state == Connected {
        loop.DisableAllFunc(channel, 0);
      }
      state := Disconnecting;
    }

    method HandleError()
      requires Valid()
      modifies this`state, loop.poller`events, loop.poller`chanEvents, channel`events, channel`indexForPoll
      ensures Valid() && Abs() == TcpSpec.HandleClose(old(Abs()))
      ensures loop.poller.Registered() == old(loop.poller.Registered())
    {
      HandleClose();
    }

    method HandleWrite(result: int)
      requires Valid() && InterestMatches(Abs()) && result <= outputBuffer.ReadableBytes()
      modifies this, outputBuffer, loop.poller`events, loop.poller`chanEvents, channel`events, channel`indexForPoll
      ensures Valid() && outputBuffer.storage == old(outputBuffer.storage)
      ensures Abs() == TcpSpec.HandleWrite(old(Abs()), result)
      ensures loop.poller.Registered() == old(loop.poller.Registered())
    {
      hide EventLoop.Valid, Poller.Registered;
      if state != Connected {
        return;
      }
      if IsEnabled(channel.events, WRITE_EVENT) {
        assert outputBuffer.ReadableBytes() > 0;
        var n := result;
        if n > 0 {
          wire := wire + outputBuffer.Abs().content[..n];
          outputBuffer.Retrieve(n);
          if outputBuffer.ReadableBytes() == 0 {
            DisableWriting();
            if config.writeComplete {
              notices := notices + [WriteComplete];
            }
          }
        } else {
          HandleError();
        }
      }
    }

    /** `called` says whether the message callback is called; what it does are events after this one. */
    method HandleRead(ok: bool, bytes: seq<byte>) returns (called: bool)
      requires Valid() && (ok ==> Deliverable(inputBuffer.Abs(), bytes))
      modifies this, inputBuffer, inputBuffer.storage
      modifies loop.poller`events, loop.poller`chanEvents, channel`events, channel`indexForPoll
      ensures Valid() && (inputBuffer.storage == old(inputBuffer.storage) || fresh(inputBuffer.storage))
      ensures Abs() == TcpSpec.HandleRead(old(Abs()), ok, bytes, old(inputBuffer.storage[inputBuffer.writerIndex..]))
      ensures called <==> old(state) == Connected && ok && 0 < |bytes| < TWO_TO_31
      ensures old(state) == Connected && !called ==> state == Disconnecting && channel.events == NONE_EVENT
      ensures loop.poller.Registered() == old(loop.poller.Registered())
    {
      hide Receive, EventLoop.Valid, Poller.Registered;
      called := false;
      if state != Connected {
        return;
      }
      var n := inputBuffer.ReadFd(ok, bytes);
      received := if ok then received + bytes else received;
      if n > 0 {
        called := true;
      } else if n == 0 {
        HandleClose();
      } else {
        HandleError();
      }
    }

    /** User code retrieving from the front of the input buffer, in the message callback or later. */
    method TakeInput(len: nat)
      requires Valid() && len <= inputBuffer.ReadableBytes()
      modifies this`consumed, inputBuffer
      ensures Valid() && inputBuffer.storage == old(inputBuffer.storage)
      ensures Abs() == Take(old(Abs()), len)
    {
      hide SlotMask;
      consumed := consumed + inputBuffer.Abs().content[..len];
      inputBuffer.Retrieve(len);
    }

    /** enableClosing, then enableReading. */
    static method Listen(loop: EventLoop, chan: Channel, newEvent: int)
      requires loop.Valid() && chan in loop.poller.chans && |loop.poller.events| < MAXIMUM_WAIT_OBJECTS
      modifies loop.poller`events, loop.poller`chanEvents, chan`events, chan`indexForPoll
      ensures loop.Valid() && chan.events == Enable(Enable(old(chan.events), CLOSE_EVENT), READ_EVENT)
      ensures loop.poller.Registered() == old(loop.poller.Registered()) + {chan}
    {
      hide EventLoop.Valid, Enable;
      loop.EnableFunc(chan, CLOSE_EVENT, newEvent);
      assert chan in loop.poller.Registered();
      loop.EnableFunc(chan, READ_EVENT, newEvent);
    }

    /** `newEvent` is what WSACreateEvent returns; the poller must have a slot left. */
    method ConnectEstablished(newEvent: int)
      requires Valid() && state == Connecting && |loop.poller.events| < MAXIMUM_WAIT_OBJECTS
      modifies this`state, loop.poller`events, loop.poller`chanEvents, channel`events, channel`indexForPoll
      ensures Valid() && Abs() == TcpSpec.ConnectEstablished(old(Abs()))
      ensures loop.poller.Registered() == old(loop.poller.Registered()) + {channel}
    {
      hide Enable, EventLoop.Valid, Poller.Registered, BufferSpec.Ok;
      state := Connected;
      Listen(loop, channel, newEvent);
    }

    method ConnectDestroyed()
      requires Valid()
      modifies this`state, loop.poller`events, loop.poller`chanEvents, loop.poller.chans`indexForPoll
      ensures Valid() && Abs() == TcpSpec.ConnectDestroyed(old(Abs()))
      ensures loop.poller.Registered()
           == old(loop.poller.Registered()) - (if old(state) != Disconnected then {channel} else {})
      ensures channel !in loop.poller.Registered() && state == Disconnected
    {
      assert channel != loop.timerChannel;
      hide EventLoop.Valid, Poller.Registered, BufferSpec.Ok;
      if state != Disconnected {
        state := Disconnected;
        loop.RemoveFunc(channel);
      }
    }
  }
}
