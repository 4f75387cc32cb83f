/** The life of a connection: what it asks the poller for, what ends it, and that its histories are
    what happened in the run. */
module TcpLife {
  import opened BufferSpec
  import opened ChannelBits
  import opened TcpSpec
  import opened TcpStreams

  // ---- what an established connection asks for

  /** While connected: reading and closing, never accepting. Before: nothing. */
  ghost predicate Listens(c: Conn) {
    && (c.state == Connected ==>
          && IsEnabled(c.interest, READ_EVENT) && IsEnabled(c.interest, CLOSE_EVENT)
          && !IsEnabled(c.interest, ACCEPT_EVENT))
    && (c.state == Connecting ==> c.interest == NONE_EVENT)
  }

  lemma StepListens(c: Conn, ev: Event)
    requires Listens(c) && Possible(c, ev)
    ensures Listens(Step(c, ev))
  {
    match ev
    case CanRead(_, _, _) => hide Receive;
    case _ => hide Append;
  }

  /** In every state of every run a connected connection is registered for reading and closing. */
  lemma {:induction false} AlwaysListens(c: Conn, evs: seq<Event>)
    requires Listens(c) && AllPossible(c, evs)
    ensures Listens(Run(c, evs))
    decreases |evs|
  {
    hide Listens, Step;
    if evs == [] {
    } else {
      StepListens(c, evs[0]);
      AlwaysListens(Step(c, evs[0]), evs[1..]);
    }
  }

  lemma ConnectedListens(config: Config, evs: seq<Event>)
    requires AllPossible(Initial(config), evs) && Run(Initial(config), evs).state == Connected
    ensures var interest := Run(Initial(config), evs).interest;
            && IsEnabled(interest, READ_EVENT) && IsEnabled(interest, CLOSE_EVENT)
            && !IsEnabled(interest, ACCEPT_EVENT)
  {
    AlwaysListens(Initial(config), evs);
  }

  // ---- what ends a connection

  /** The handlers that close a connected connection: an end of the stream, an error, a count that
      looks like one, a write that fails, and close itself. */
  predicate Breaks(c: Conn, ev: Event) {
    match ev
    case CanRead(ok, bytes, _) => !ok || bytes == [] || |bytes| >= TWO_TO_31
    case CanWrite(result) => IsEnabled(c.interest, WRITE_EVENT) && result <= 0
    case Close => true
    case _ => false
  }

  /** A connected connection is left by exactly these events; after closing it asks for nothing. */
  lemma StepEnds(c: Conn, ev: Event)
    requires c.state == Connected && Possible(c, ev)
    ensures var t := Step(c, ev);
            if Breaks(c, ev) then t.state == Disconnecting && t.interest == NONE_EVENT
            else t.state == if ev.Destroy? then Disconnected else Connected
  {
    match ev
    case CanRead(_, _, _) => hide Receive;
    case _ => hide Append;
  }

  /** None of these events occurs in the run. */
  ghost predicate NothingEnds(c: Conn, evs: seq<Event>)
    requires AllPossible(c, evs)
    decreases |evs|
  {
    evs == [] || (!Breaks(c, evs[0]) && !evs[0].Destroy? && NothingEnds(Step(c, evs[0]), evs[1..]))
  }

  /** A connected connection is still connected after a run if and only if no read delivered nothing
      or failed, no write that was asked for failed, and it was neither closed nor destroyed. */
  lemma {:induction false} ConnectedIff(c: Conn, evs: seq<Event>)
    requires c.state == Connected && AllPossible(c, evs)
    ensures Run(c, evs).state == Connected <==> NothingEnds(c, evs)
    decreases |evs|
  {
    if evs == [] {
    } else {
      StepEnds(c, evs[0]);
      hide Step, Breaks;
      if Step(c, evs[0]).state == Connected {
        ConnectedIff(Step(c, evs[0]), evs[1..]);
      } else {
        LeftForGood(Step(c, evs[0]), evs[1..]);
      }
    }
  }

  // ---- the histories

  lemma Assoc<T>(a: seq<T>, b: seq<T>, c: seq<T>)
    ensures (a + b) + c == a + (b + c)
  {
  }

  /** The data handed to the sends of a run, in order. */
  function DataOf(evs: seq<Event>): seq<seq<byte>> {
    if evs == [] then []
    else (if evs[0].Sends? then [evs[0].data] else []) + DataOf(evs[1..])
  }

  /** What was sent by the sends that were reported successful. */
  function Confirmed(datas: seq<seq<byte>>, reports: seq<bool>): seq<byte>
    requires |datas| == |reports|
  {
    if datas == [] then [] else (if reports[0] then datas[0] else []) + Confirmed(datas[1..], reports[1..])
  }

  /** A send is reported successful unless the connection is not connected, or the socket was tried
      and failed for another reason than being full. */
  predicate Succeeds(c: Conn, ev: Event) {
    ev.Sends? && c.state == Connected && !SendFails(c, ev.result, ev.wouldBlock)
  }

  lemma StepReports(c: Conn, ev: Event)
    requires Possible(c, ev)
    ensures var t := Step(c, ev);
            && t.reports == c.reports + (if ev.Sends? then [Succeeds(c, ev)] else [])
            && t.accepted == c.accepted + (if Succeeds(c, ev) then ev.data else [])
  {
    match ev
    case CanRead(_, _, _) => hide Receive;
    case _ => hide Append;
  }

  /** In other words: with nothing buffered, unless the socket fails; with a backlog, always. */
  lemma ReportedIff(c: Conn, ev: Event)
    requires ev.Sends? && Possible(c, ev) && InterestMatches(c)
    ensures Step(c, ev).reports
         == c.reports + [c.state == Connected && (c.output.content != [] || ev.result >= 0 || ev.wouldBlock)]
  {
    hide Append;
  }

  lemma {:induction false} RunReports(c: Conn, evs: seq<Event>) returns (reports: seq<bool>)
    requires AllPossible(c, evs)
    ensures Run(c, evs).reports == c.reports + reports && |reports| == |DataOf(evs)|
    ensures Run(c, evs).accepted == c.accepted + Confirmed(DataOf(evs), reports)
    decreases |evs|
  {
    if evs == [] {
      reports := [];
    } else {
      hide Step, Confirmed;
      var ok := Succeeds(c, evs[0]);
      var d := Step(c, evs[0]);
      StepReports(c, evs[0]);
      var rest := RunReports(d, evs[1..]);
      reports := (if evs[0].Sends? then [ok] else []) + rest;
      Assoc(c.reports, if evs[0].Sends? then [ok] else [], rest);
      var first := if ok then evs[0].data else [];
      Assoc(c.accepted, first, Confirmed(DataOf(evs[1..]), rest));
      ConfirmedFirst(evs, ok, rest, reports);
    }
  }

  lemma ConfirmedFirst(evs: seq<Event>, ok: bool, rest: seq<bool>, reports: seq<bool>)
    requires evs != [] && |rest| == |DataOf(evs[1..])| && (ok ==> evs[0].Sends?)
    requires reports == (if evs[0].Sends? then [ok] else []) + rest
    ensures |reports| == |DataOf(evs)|
    ensures Confirmed(DataOf(evs), reports) == (if ok then evs[0].data else []) + Confirmed(DataOf(evs[1..]), rest)
  {
    if evs[0].Sends? {
      assert DataOf(evs)[1..] == DataOf(evs[1..]) && reports[1..] == rest;
    } else {
      assert DataOf(evs) == DataOf(evs[1..]) && reports == rest;
    }
  }

  /** Over every run: one report for each send, in order, and what counts as accepted is the data of
      exactly the sends that were reported successful. */
  lemma AcceptedIsWhatWasReported(config: Config, evs: seq<Event>)
    requires AllPossible(Initial(config), evs)
    ensures var c := Run(Initial(config), evs);
            |c.reports| == |DataOf(evs)| && c.accepted == Confirmed(DataOf(evs), c.reports)
  {
    var reports := RunReports(Initial(config), evs);
    assert [] + reports == reports;
  }

  /** What the socket delivered to a connected connection during a run. */
  function Delivered(c: Conn, evs: seq<Event>): seq<byte>
    requires AllPossible(c, evs)
    decreases |evs|
  {
    if evs == [] then [] else DeliveredBy(c, evs[0]) + Delivered(Step(c, evs[0]), evs[1..])
  }

  function DeliveredBy(c: Conn, ev: Event): seq<byte> {
    if ev.CanRead? && ev.ok && c.state == Connected then ev.bytes else []
  }

  /** How much user code took from the input buffer. */
  function Taken(evs: seq<Event>): nat {
    if evs == [] then 0 else (if evs[0].Takes? then evs[0].len else 0) + Taken(evs[1..])
  }

  lemma StepReads(c: Conn, ev: Event)
    requires Possible(c, ev)
    ensures var t := Step(c, ev);
            && t.received == c.received + DeliveredBy(c, ev)
            && |t.consumed| == |c.consumed| + (if ev.Takes? then ev.len else 0)
  {
    match ev
    case CanRead(_, _, _) => hide Receive;
    case _ => hide Append;
  }

  /** Over every run: the received bytes are those the socket delivered while the connection was
      connected, and user code has got as many bytes as it took. With InputStreamIsConserved these
      are the first ones. */
  lemma {:induction false} ReceivedIsWhatWasDelivered(c: Conn, evs: seq<Event>)
    requires AllPossible(c, evs)
    ensures Run(c, evs).received == c.received + Delivered(c, evs)
    ensures |Run(c, evs).consumed| == |c.consumed| + Taken(evs)
    decreases |evs|
  {
    if evs == [] {
    } else {
      hide Step, DeliveredBy;
      StepReads(c, evs[0]);
      ReceivedIsWhatWasDelivered(Step(c, evs[0]), evs[1..]);
      Assoc(c.received, DeliveredBy(c, evs[0]), Delivered(Step(c, evs[0]), evs[1..]));
    }
  }

  /** How much the socket took: from a send with nothing buffered, or from the buffer. */
  function Took(c: Conn, ev: Event): nat {
    if c.state != Connected then 0
    else if ev.Sends? && c.output.content == [] && ev.result > 0 then ev.result
    else if ev.CanWrite? && c.output.content != [] && ev.result > 0 then ev.result
    else 0
  }

  function TookInAll(c: Conn, evs: seq<Event>): nat
    requires AllPossible(c, evs)
    decreases |evs|
  {
    if evs == [] then 0 else Took(c, evs[0]) + TookInAll(Step(c, evs[0]), evs[1..])
  }

  lemma StepWrites(c: Conn, ev: Event)
    requires Possible(c, ev) && InterestMatches(c)
    ensures |Step(c, ev).wire| == |c.wire| + Took(c, ev)
  {
    match ev
    case CanRead(_, _, _) => hide Receive;
    case _ => hide Append;
  }

  /** Over every run in which write interest matches the backlog, the wire holds as many bytes as the
      socket took. With OutputStreamIsConserved these are the first accepted ones. */
  lemma {:induction false} WireIsWhatTheSocketTook(c: Conn, evs: seq<Event>)
    requires InterestMatches(c) && AllPossible(c, evs) && AllSendsMatch(c, evs)
    ensures |Run(c, evs).wire| == |c.wire| + TookInAll(c, evs)
    decreases |evs|
  {
    if evs == [] {
    } else {
      StepWrites(c, evs[0]);
      StepMatchesIff(c, evs[0]);
      hide Step, InterestMatches, SendMatches, Took;
      WireIsWhatTheSocketTook(Step(c, evs[0]), evs[1..]);
    }
  }

  // ---- the notices

  /** The step flushes everything: it empties the buffer, or the socket takes a send whole. */
  predicate Flushes(c: Conn, ev: Event)
    requires Possible(c, ev)
  {
    if c.output.content == [] then ev.Sends? && c.state == Connected && ev.result == |ev.data|
    else Step(c, ev).output.content == []
  }

  predicate Crosses(c: Conn, ev: Event)
    requires Possible(c, ev)
  {
    var was := |c.output.content|;
    was < c.config.highWaterMark <= was + Offered(c, ev)
  }

  /** The notices a step owes the user who asked for them. */
  function NoticesOf(c: Conn, ev: Event): seq<Notice>
    requires Possible(c, ev)
  {
    (if c.config.writeComplete && Flushes(c, ev) then [WriteComplete] else [])
    + (if c.config.highWater && Crosses(c, ev) then [HighWaterMark(|c.output.content| + Offered(c, ev))] else [])
  }

  function NoticesDue(c: Conn, evs: seq<Event>): seq<Notice>
    requires AllPossible(c, evs)
    decreases |evs|
  {
    if evs == [] then [] else NoticesOf(c, evs[0]) + NoticesDue(Step(c, evs[0]), evs[1..])
  }

  lemma SendNotices(c: Conn, ev: Event)
    requires ev.Sends? && Possible(c, ev) && InterestMatches(c) && c.state == Connected
    ensures Step(c, ev).notices == c.notices + NoticesOf(c, ev)
  {
    AppendedLength(c.output, ev.data[Direct(c, ev.result)..]);
    hide Append;
  }

  lemma StepNotices(c: Conn, ev: Event)
    requires Possible(c, ev) && InterestMatches(c)
    ensures Step(c, ev).notices == c.notices + NoticesOf(c, ev)
  {
    if ev.Sends? && c.state == Connected {
      hide Step, NoticesOf, InterestMatches;
      SendNotices(c, ev);
    } else {
      hide Receive, Append;
    }
  }

  /** Over every run in which write interest matches the backlog: write-complete is announced by
      exactly the steps that flush everything, high water by exactly those that cross the mark. */
  lemma {:induction false} NoticesAreExact(c: Conn, evs: seq<Event>)
    requires InterestMatches(c) && AllPossible(c, evs) && AllSendsMatch(c, evs)
    ensures Run(c, evs).notices == c.notices + NoticesDue(c, evs)
    decreases |evs|
  {
    if evs == [] {
    } else {
      hide Step, InterestMatches, SendMatches, NoticesOf;
      StepNotices(c, evs[0]);
      StepMatchesIff(c, evs[0]);
      NoticesAreExact(Step(c, evs[0]), evs[1..]);
      Assoc(c.notices, NoticesOf(c, evs[0]), NoticesDue(Step(c, evs[0]), evs[1..]));
    }
  }
}
