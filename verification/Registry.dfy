/** Channels, the poller's two parallel vectors and the loop's vector of channels: three
    registries that find a channel's slot through an index stored in the channel. */
module Registry {
  import opened ChannelBits

  const INVALID_INDEX: int := 0xFFFF_FFFF
  const MAXIMUM_WAIT_OBJECTS: int := 64

  datatype FdType = Socket | Timer

  // ---- interest masks

  /** GetSockNetEventMask as a function of the interest word. */
  function NetMask(word: Bits): Bits {
    (if IsEnabled(word, CLOSE_EVENT) then FD_CLOSE else 0)
    | (if IsEnabled(word, READ_EVENT) then FD_READ else 0)
    | (if IsEnabled(word, WRITE_EVENT) then FD_WRITE else 0)
    | (if IsEnabled(word, ACCEPT_EVENT) then FD_ACCEPT else 0)
  }

  /** The mask asks Winsock for exactly the events that are enabled. */
  lemma MaskIsFaithful(word: Bits)
    ensures NetMask(word) & FD_CLOSE != 0 <==> IsEnabled(word, CLOSE_EVENT)
    ensures NetMask(word) & FD_READ != 0 <==> IsEnabled(word, READ_EVENT)
    ensures NetMask(word) & FD_WRITE != 0 <==> IsEnabled(word, WRITE_EVENT)
    ensures NetMask(word) & FD_ACCEPT != 0 <==> IsEnabled(word, ACCEPT_EVENT)
    ensures NetMask(word) & !(FD_CLOSE | FD_READ | FD_WRITE | FD_ACCEPT) == 0
    ensures NetMask(NONE_EVENT) == 0
  {
  }

  /** What WSAEnumNetworkEvents reports for a socket. */
  datatype NetEvents = NetEvents(bits: Bits, readFailed: bool, writeFailed: bool, acceptFailed: bool)

  function SocketResult(net: NetEvents): Bits {
    (if net.bits & FD_READ != 0 then (if net.readFailed then ERROR_EVENT else READ_EVENT) else 0)
    | (if net.bits & FD_WRITE != 0 then (if net.writeFailed then ERROR_EVENT else WRITE_EVENT) else 0)
    | (if net.bits & FD_CLOSE != 0 then CLOSE_EVENT else 0)
    | (if net.bits & FD_ACCEPT != 0 then (if net.acceptFailed then ERROR_EVENT else ACCEPT_EVENT) else 0)
  }

  /** A handler is due exactly for what the socket reported without an error, the error handler for
      what it reported with one. */
  predicate DueForSocket(word: Bits, net: NetEvents) {
    && (IsEnabled(word, READ_EVENT) <==> net.bits & FD_READ != 0 && !net.readFailed)
    && (IsEnabled(word, WRITE_EVENT) <==> net.bits & FD_WRITE != 0 && !net.writeFailed)
    && (IsEnabled(word, ACCEPT_EVENT) <==> net.bits & FD_ACCEPT != 0 && !net.acceptFailed)
    && (IsEnabled(word, CLOSE_EVENT) <==> net.bits & FD_CLOSE != 0)
    && (IsEnabled(word, ERROR_EVENT) <==>
      || (net.bits & FD_READ != 0 && net.readFailed)
      || (net.bits & FD_WRITE != 0 && net.writeFailed)
      || (net.bits & FD_ACCEPT != 0 && net.acceptFailed))
  }

  /** Of a timer's handlers only the read handler is due. */
  predicate DueForTimer(word: Bits) {
    && IsEnabled(word, READ_EVENT) && !IsEnabled(word, WRITE_EVENT) && !IsEnabled(word, CLOSE_EVENT)
    && !IsEnabled(word, ACCEPT_EVENT) && !IsEnabled(word, ERROR_EVENT)
  }

  /** What poll leaves in the result word of a channel it reports. */
  function Result(fdtype: FdType, net: NetEvents): Bits {
    if fdtype == Socket then SocketResult(net) else READ_EVENT
  }

  predicate HandlersDue(fdtype: FdType, word: Bits, net: NetEvents) {
    if fdtype == Timer then DueForTimer(word) else DueForSocket(word, net)
  }

  lemma EachBitCounts(read: Bits, write: Bits, close: Bits, accept: Bits)
    requires read == 0 || read == READ_EVENT || read == ERROR_EVENT
    requires write == 0 || write == WRITE_EVENT || write == ERROR_EVENT
    requires close == 0 || close == CLOSE_EVENT
    requires accept == 0 || accept == ACCEPT_EVENT || accept == ERROR_EVENT
    ensures var word := read | write | close | accept;
            && (IsEnabled(word, READ_EVENT) <==> read == READ_EVENT)
            && (IsEnabled(word, WRITE_EVENT) <==> write == WRITE_EVENT)
            && (IsEnabled(word, CLOSE_EVENT) <==> close == CLOSE_EVENT)
            && (IsEnabled(word, ACCEPT_EVENT) <==> accept == ACCEPT_EVENT)
            && (IsEnabled(word, ERROR_EVENT) <==> read == ERROR_EVENT || write == ERROR_EVENT || accept == ERROR_EVENT)
  {
  }

  lemma SocketResultIsFaithful(net: NetEvents)
    ensures DueForSocket(SocketResult(net), net)
  {
    var read := if net.bits & FD_READ != 0 then (if net.readFailed then ERROR_EVENT else READ_EVENT) else 0;
    var write := if net.bits & FD_WRITE != 0 then (if net.writeFailed then ERROR_EVENT else WRITE_EVENT) else 0;
    var close := if net.bits & FD_CLOSE != 0 then CLOSE_EVENT else 0;
    var accept := if net.bits & FD_ACCEPT != 0 then (if net.acceptFailed then ERROR_EVENT else ACCEPT_EVENT) else 0;
    assert SocketResult(net) == read | write | close | accept;
    hide IsEnabled, SocketResult;
    EachBitCounts(read, write, close, accept);
  }

  lemma ResultIsFaithful(fdtype: FdType, net: NetEvents)
    ensures HandlersDue(fdtype, Result(fdtype, net), net)
  {
    if fdtype == Socket {
      hide DueForSocket, SocketResult;
      SocketResultIsFaithful(net);
    }
  }

  // ---- swap with the last, then drop the last

  function SwapRemove<T>(s: seq<T>, i: nat): seq<T>
    requires i < |s|
  {
    s[i := s[|s| - 1]][..|s| - 1]
  }

  /** The program's iter_swap and pop_back. */
  lemma SwapDrop<T>(s: seq<T>, i: nat)
    requires i < |s|
    ensures var last := |s| - 1;
            && |SwapRemove(s, i)| == last
            && s[i := s[last]][last := s[i]][..last] == SwapRemove(s, i)
            && (i == last ==> s[..last] == SwapRemove(s, i))
            && (forall j | 0 <= j < last :: SwapRemove(s, i)[j] == s[if j == i then last else j])
  {
  }

  /** Swapping with the last element and dropping it removes that one element, and moves one. */
  lemma SwapRemoveRemoves<T>(s: seq<T>, i: nat)
    requires i < |s|
    ensures multiset(SwapRemove(s, i)) == multiset(s) - multiset{s[i]}
    ensures forall j | 0 <= j < |s| - 1 :: SwapRemove(s, i)[j] == if j == i then s[|s| - 1] else s[j]
  {
    var last := |s| - 1;
    assert s == s[..last] + [s[last]];
    if i < last {
      assert s[..last] == s[..i] + [s[i]] + s[i + 1..last];
      assert SwapRemove(s, i) == s[..i] + [s[last]] + s[i + 1..last];
    } else {
      assert SwapRemove(s, i) == s[..last];
    }
  }
}
