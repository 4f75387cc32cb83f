/** A TCP connection as a step machine: handlers of the loop thread, with arbitrary results of
    the socket calls, between which user code may send and close. */
module TcpSpec {
  import opened BufferSpec
  import opened ChannelBits

  const INITIAL_BUFFER := 64 * 1024

  datatype ConnState = Disconnected | Connecting | Connected | Disconnecting

  /** What a connection queues on its loop for the user. */
  datatype Notice = WriteComplete | HighWaterMark(size: nat)

  datatype Config = Config(writeComplete: bool, highWater: bool, highWaterMark: nat)

  datatype Conn = Conn(
    config: Config,
    state: ConnState,
    interest: Bits,             // the channel's _events
    input: View,
    output: View,
    notices: seq<Notice>,
    reports: seq<bool>,         // what the send callbacks were told
    // history
    wire: seq<byte>,            // bytes the socket took
    accepted: seq<byte>,        // data of the sends reported as successful
    received: seq<byte>,        // bytes the socket delivered
    consumed: seq<byte>)        // bytes user code retrieved

  function Initial(config: Config): Conn {
    Conn(config, Connecting, NONE_EVENT, Fresh(INITIAL_BUFFER), Fresh(INITIAL_BUFFER), [], [], [], [], [], [])
  }

  function WritesDirectly(c: Conn): bool {
    !IsEnabled(c.interest, WRITE_EVENT) && |c.output.content| == 0
  }

  /** The part of sendInLoopFunc that queues what the socket did not take. */
  function Backlog(c: Conn, rest: seq<byte>): Conn {
    var oldLen := |c.output.content|;
    var total := oldLen + |rest|;
    var crossed := total >= c.config.highWaterMark && oldLen < c.config.highWaterMark && c.config.highWater;
    c.(notices := c.notices + (if crossed then [HighWaterMark(total)] else []),
       output := Append(c.output, rest),
       interest := if IsEnabled(c.interest, WRITE_EVENT) then c.interest else Enable(c.interest, WRITE_EVENT))
  }

  /** sendInLoopFunc; `result` is what write returns if it is called (negative: an error). */
  function Send(c: Conn, data: seq<byte>, result: int, wouldBlock: bool): Conn
    requires result <= |data|
  {
    if c.state != Connected then c.(reports := c.reports + [false]) else
    var direct := WritesDirectly(c);
    var nwrote := if direct && result >= 0 then result else 0;
    var error := direct && result < 0 && !wouldBlock;
    var rest := data[nwrote..];
    var flushed := direct && result >= 0 && rest == [] && c.config.writeComplete;
    var c1 := c.(wire := c.wire + data[..nwrote],
                 notices := c.notices + (if flushed then [WriteComplete] else []));
    var c2 := if !error && rest != [] then Backlog(c1, rest) else c1;
    c2.(accepted := if error then c.accepted else c.accepted + data,
        reports := c.reports + [!error])
  }

  function HandleClose(c: Conn): Conn {
    c.(interest := if c.state == Connected then NONE_EVENT else c.interest, state := Disconnecting)
  }

  function HandleWrite(c: Conn, result: int): Conn
    requires result <= |c.output.content|
  {
    if c.state != Connected || !IsEnabled(c.interest, WRITE_EVENT) then c
    else if result > 0 then
      var c1 := c.(wire := c.wire + c.output.content[..result], output := Retrieve(c.output, result));
      if c1.output.content == []
      then c1.(interest := Disable(c.interest, WRITE_EVENT),
               notices := c.notices + (if c.config.writeComplete then [WriteComplete] else []))
      else c1
    else HandleClose(c)
  }

  /** handleRead up to the message callback: `ok` says whether readv succeeded, `bytes` is what it
      delivered, `tail` what the input buffer's tail held before. What the callback does with the
      buffer and the connection are events of their own, after this one. */
  function HandleRead(c: Conn, ok: bool, bytes: seq<byte>, tail: seq<byte>): Conn
    requires ok ==> Deliverable(c.input, bytes) && |tail| == Writable(c.input)
  {
    if c.state != Connected then c
    else if !ok then HandleClose(c)
    else
      var c1 := c.(received := c.received + bytes, input := Receive(c.input, bytes, tail));
      if ReceivedCount(bytes) > 0 then c1 else HandleClose(c1)
  }

  /** User code retrieving from the front of the input buffer. */
  function Take(c: Conn, len: nat): Conn
    requires len <= |c.input.content|
  {
    c.(consumed := c.consumed + c.input.content[..len], input := Retrieve(c.input, len))
  }

  function ConnectEstablished(c: Conn): Conn {
    c.(state := Connected, interest := Enable(Enable(c.interest, CLOSE_EVENT), READ_EVENT))
  }

  function ConnectDestroyed(c: Conn): Conn {
    c.(state := Disconnected)
  }

  datatype Event =
    | Establish
    | Sends(data: seq<byte>, result: int, wouldBlock: bool)
    | CanWrite(result: int)
    | CanRead(ok: bool, bytes: seq<byte>, tail: seq<byte>)
    | Takes(len: nat)
    | Close
    | Destroy

  /** The socket takes at most what it is given and delivers at most what there is room for; user
      code takes at most what is there; a connection is established once, first. */
  predicate Possible(c: Conn, ev: Event) {
    match ev
    case Establish => c.state == Connecting
    case Sends(data, result, _) => result <= |data|
    case CanWrite(result) => result <= |c.output.content|
    case CanRead(ok, bytes, tail) => ok ==> Deliverable(c.input, bytes) && |tail| == Writable(c.input)
    case Takes(len) => len <= |c.input.content|
    case _ => true
  }

  function Step(c: Conn, ev: Event): Conn
    requires Possible(c, ev)
  {
    match ev
    case Establish => ConnectEstablished(c)
    case Sends(data, result, wouldBlock) => Send(c, data, result, wouldBlock)
    case CanWrite(result) => HandleWrite(c, result)
    case CanRead(ok, bytes, tail) => HandleRead(c, ok, bytes, tail)
    case Takes(len) => Take(c, len)
    case Close => HandleClose(c)
    case Destroy => ConnectDestroyed(c)
  }

  ghost predicate AllPossible(c: Conn, evs: seq<Event>)
    decreases |evs|
  {
    evs == [] || (Possible(c, evs[0]) && AllPossible(Step(c, evs[0]), evs[1..]))
  }

  function Run(c: Conn, evs: seq<Event>): Conn
    requires AllPossible(c, evs)
    decreases |evs|
  {
    if evs == [] then c else Run(Step(c, evs[0]), evs[1..])
  }
}
