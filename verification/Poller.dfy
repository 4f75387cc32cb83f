/** The channel, the poller and the loop's channel registry as the program has them. */
module Pollers {
  import opened ChannelBits
  import opened PollScan
  import opened Registry

  datatype Callback = CloseCallback | ReadCallback | WriteCallback | AcceptCallback | ErrorCallback

  /** The bit of the result word that makes handleEvent call a callback. */
  function BitOf(callback: Callback): Bits {
    match callback
    case CloseCallback => CLOSE_EVENT
    case ReadCallback => READ_EVENT
    case WriteCallback => WRITE_EVENT
    case AcceptCallback => ACCEPT_EVENT
    case ErrorCallback => ERROR_EVENT
  }

  /** Its place in handleEvent. */
  function PlaceOf(callback: Callback): nat {
    match callback
    case CloseCallback => 0
    case ReadCallback => 1
    case WriteCallback => 2
    case AcceptCallback => 3
    case ErrorCallback => 4
  }

  /** Of the first `places` callbacks of handleEvent, those that are set and whose bit is in the word
      are called, each once and in order. */
  ghost predicate CallsFor(called: seq<Callback>, word: Bits, callbacks: set<Callback>, places: nat) {
    && (forall cb :: cb in called <==> PlaceOf(cb) < places && cb in callbacks && IsEnabled(word, BitOf(cb)))
    && (forall i, j | 0 <= i < j < |called| :: PlaceOf(called[i]) < PlaceOf(called[j]))
  }

  /** Each of the bits is a single one. */
  lemma BitIsEnabled(word: Bits, callback: Callback)
    ensures word & BitOf(callback) != 0 <==> IsEnabled(word, BitOf(callback))
  {
  }

  lemma PlacesDiffer(a: Callback, b: Callback)
    ensures PlaceOf(a) == PlaceOf(b) ==> a == b
  {
  }

  class Channel {
    const fdtype: FdType
    const handle: int
    var events: Bits
    var revents: Bits
    var callbacks: set<Callback>   // those that are set
    var indexForPoll: int
    var indexForLoop: int

    constructor (fdtype: FdType, handle: int)
      ensures this.fdtype == fdtype && this.handle == handle && events == NONE_EVENT && revents == NONE_EVENT
      ensures callbacks == {}
      ensures indexForPoll == indexForLoop == INVALID_INDEX
    {
      this.fdtype, this.handle := fdtype, handle;
      events, revents, callbacks := NONE_EVENT, NONE_EVENT, {};
      indexForPoll, indexForLoop := INVALID_INDEX, INVALID_INDEX;
    }

    method SetCallback(callback: Callback)
      modifies this`callbacks
      ensures callbacks == old(callbacks) + {callback}
    {
      callbacks := callbacks + {callback};
    }

    method CallIfDue(called: seq<Callback>, callback: Callback) returns (more: seq<Callback>)
      requires CallsFor(called, revents, callbacks, PlaceOf(callback))
      ensures CallsFor(more, revents, callbacks, PlaceOf(callback) + 1)
    {
      BitIsEnabled(revents, callback);
      forall cb: Callback { PlacesDiffer(cb, callback); }
      hide BitOf, IsEnabled, PlaceOf;
      more := called;
      if revents & BitOf(callback) != 0 && callback in callbacks {
        more := called + [callback];
      }
    }

    /** `called` are the callbacks it calls; what they do is not part of this method. */
    method HandleEvent() returns (called: seq<Callback>)
      ensures CallsFor(called, revents, callbacks, 5)
    {
      called := CallIfDue([], CloseCallback);
      called := CallIfDue(called, ReadCallback);
      called := CallIfDue(called, WriteCallback);
      called := CallIfDue(called, AcceptCallback);
      called := CallIfDue(called, ErrorCallback);
    }
  }

  datatype ChannelEvent = ChannelEvent(hEvent: int, chan: Channel?, netEvents: Bits)

  ghost function ChansOf(slots: seq<ChannelEvent>): (chans: seq<Channel?>)
    ensures |chans| == |slots| && forall i | 0 <= i < |slots| :: chans[i] == slots[i].chan
  {
    seq(|slots|, i requires 0 <= i < |slots| => slots[i].chan)
  }

  /** The mask a slot should hold for its channel: a timer's is always empty. */
  function SlotMask(fdtype: FdType, events: Bits): Bits {
    if fdtype == Socket then NetMask(events) else 0
  }

  class Poller {
    const wakeupEvent: int
    var events: seq<int>
    var chanEvents: seq<ChannelEvent>
    ghost var chans: set<Channel>    // every channel of this loop that is alive

    /** The two vectors run in parallel, slot 0 is the wakeup event's, every other has a channel; a
        timer's slot waits for the channel's own handle. */
    ghost predicate Vectors()
      reads this`events, this`chanEvents
    {
      && 1 <= |chanEvents| == |events| <= MAXIMUM_WAIT_OBJECTS
      && (forall i | 0 <= i < |events| :: events[i] == chanEvents[i].hEvent)
      && chanEvents[0] == ChannelEvent(wakeupEvent, null, 0)
      && (forall i | 1 <= i < |chanEvents| ::
        chanEvents[i].chan != null &&
        (chanEvents[i].chan.fdtype == Timer ==>
          chanEvents[i].netEvents == 0 && chanEvents[i].hEvent == chanEvents[i].chan.handle))
    }

    /** A channel is in the slot whose index it stores, or in none. */
    ghost predicate Indexes(slots: seq<Channel?>)
      reads this`chans, chans`indexForPoll
    {
      && (forall i | 1 <= i < |slots| :: slots[i] in chans && slots[i].indexForPoll == i)
      && (forall c | c in chans ::
        c.indexForPoll == INVALID_INDEX || (1 <= c.indexForPoll < |slots| && slots[c.indexForPoll] == c))
    }

    ghost predicate Slots()
      reads this, chans`indexForPoll
    {
      Vectors() && Indexes(ChansOf(chanEvents))
    }

    /** Every slot's stored mask agrees with its channel's interest word, except perhaps x's. */
    ghost predicate MasksBut(x: Channel?)
      requires Slots()
      reads this, chans`indexForPoll, chans`events
    {
      forall i | 1 <= i < |chanEvents| && chanEvents[i].chan != x ::
        chanEvents[i].netEvents == SlotMask(chanEvents[i].chan.fdtype, chanEvents[i].chan.events)
    }

    ghost predicate Valid()
      reads this, chans`indexForPoll, chans`events
    {
      Slots() && MasksBut(null)
    }

    ghost function Registered(): set<Channel>
      reads this`chans, chans`indexForPoll
    {
      set c | c in chans && c.indexForPoll != INVALID_INDEX
    }

    constructor (wakeupEvent: int)
      ensures Valid() && chans == {} && this.wakeupEvent == wakeupEvent
      ensures chanEvents == [ChannelEvent(wakeupEvent, null, 0)]
    {
      this.wakeupEvent := wakeupEvent;
      events := [wakeupEvent];
      chanEvents := [ChannelEvent(wakeupEvent, null, 0)];
      chans := {};
    }

    method GetSockNetEventMask(chan: Channel) returns (netEvents: Bits)
      ensures netEvents == NetMask(chan.events)
    {
      netEvents := 0;
      if IsEnabled(chan.events, CLOSE_EVENT) {
        netEvents := netEvents | FD_CLOSE;
      }
      if IsEnabled(chan.events, READ_EVENT) {
        netEvents := netEvents | FD_READ;
      }
      if IsEnabled(chan.events, WRITE_EVENT) {
        netEvents := netEvents | FD_WRITE;
      }
      if IsEnabled(chan.events, ACCEPT_EVENT) {
        netEvents := netEvents | FD_ACCEPT;
      }
    }

    method AddChannelEvent(event: int, chan: Channel, netEvents: Bits)
      requires Slots() && MasksBut(chan) && |events| < MAXIMUM_WAIT_OBJECTS
      requires chan in chans && chan.indexForPoll == INVALID_INDEX && netEvents == SlotMask(chan.fdtype, chan.events)
      requires chan.fdtype == Timer ==> event == chan.handle
      modifies this`events, this`chanEvents, chan`indexForPoll
      ensures Valid()
      ensures chanEvents == old(chanEvents) + [ChannelEvent(event, chan, netEvents)]
      ensures Registered() == old(Registered()) + {chan}
    {
      assert chan.fdtype == Timer ==> netEvents == 0;
      hide SlotMask;
      events := events + [event];
      chanEvents := chanEvents + [ChannelEvent(event, chan, netEvents)];
      chan.indexForPoll := |chanEvents| - 1;
    }

    /** iter_swap with the last slot on both vectors, pop_back, and the indexes repaired. */
    method PopSlot(index: int)
      requires Indexes(ChansOf(chanEvents)) && 1 <= index < |chanEvents| == |events| < INVALID_INDEX
      modifies this`events, this`chanEvents, chans`indexForPoll
      ensures Indexes(ChansOf(chanEvents))
      ensures chanEvents == SwapRemove(old(chanEvents), index) && events == SwapRemove(old(events), index)
      ensures var chan := old(chanEvents[index].chan);
              forall c | c in chans ::
                && (c.indexForPoll == INVALID_INDEX <==> c == chan || old(c.indexForPoll) == INVALID_INDEX)
                && (old(c.indexForPoll) < index ==> c.indexForPoll == old(c.indexForPoll))
    {
      var totalsize := |chanEvents|;
      var chan := chanEvents[index].chan;
      ghost var slots := ChansOf(chanEvents);
      SwapDrop(slots, index);
      SwapDrop(chanEvents, index);
      SwapDrop(events, index);
      if index != totalsize - 1 {
        events := events[index := events[totalsize - 1]][totalsize - 1 := events[index]];
        chanEvents := chanEvents[index := chanEvents[totalsize - 1]][totalsize - 1 := chanEvents[index]];
        chanEvents[index].chan.indexForPoll := index;
      }
      events := events[..totalsize - 1];
      chanEvents := chanEvents[..totalsize - 1];
      assert ChansOf(chanEvents) == SwapRemove(slots, index);
      hide SwapRemove, ChansOf;
      chan.indexForPoll := INVALID_INDEX;
    }

    method RemoveChannelEvent(index: int)
      requires Valid() && 1 <= index < |chanEvents|
      modifies this`events, this`chanEvents, chans`indexForPoll
      ensures Valid()
      ensures chanEvents == SwapRemove(old(chanEvents), index) && events == SwapRemove(old(events), index)
      ensures Registered() == old(Registered()) - {old(chanEvents[index].chan)}
      ensures forall c | c in chans && old(c.indexForPoll) < index :: c.indexForPoll == old(c.indexForPoll)
    {
      hide SlotMask, SwapRemove, Indexes;
      SwapDrop(chanEvents, index);
      SwapDrop(events, index);
      PopSlot(index);
    }

    /** The new mask for a slot that is registered already. */
    method RefreshSlot(index: int, chan: Channel)
      requires Slots() && MasksBut(chan) && 1 <= index < |chanEvents| && chanEvents[index].chan == chan
      modifies this`chanEvents
      ensures Valid() && Registered() == old(Registered())
      ensures var slot := old(chanEvents)[index];
              chanEvents == old(chanEvents)[index := slot.(netEvents := SlotMask(chan.fdtype, chan.events))]
    {
      OneSlot(index);
      hide NetMask, Indexes, Registered, ChansOf;
      if chan.fdtype == Socket {
        var mask := GetSockNetEventMask(chan);
        ghost var before := ChansOf(chanEvents);
        chanEvents := chanEvents[index := chanEvents[index].(netEvents := mask)];
        assert ChansOf(chanEvents) == before;
        assert Vectors();
        hide Vectors;
      }
    }

    lemma OneSlot(index: int)
      requires Slots() && 1 <= index < |chanEvents|
      ensures forall i | 1 <= i < |chanEvents| && i != index :: chanEvents[i].chan != chanEvents[index].chan
    {
      hide ChansOf;
    }

    /** The channel is one of the loop's from now on. */
    ghost method Adopt(chan: Channel)
      requires Valid() && chan.indexForPoll == INVALID_INDEX
      modifies this`chans
      ensures Valid() && chans == old(chans) + {chan} && Registered() == old(Registered())
    {
      hide SlotMask;
      chans := chans + {chan};
    }

    /** The channel is no longer one of the loop's. */
    ghost method Forget(chan: Channel)
      requires Valid() && chan in chans && chan.indexForPoll == INVALID_INDEX
      modifies this`chans
      ensures Valid() && chans == old(chans) - {chan} && Registered() == old(Registered())
    {
      hide SlotMask;
      chans := chans - {chan};
    }

    /** `newEvent` is what WSACreateEvent returns if it is called. */
    method UpdateChannel(chan: Channel, newEvent: int)
      requires Slots() && MasksBut(chan) && chan in chans
      requires chan.indexForPoll == INVALID_INDEX ==> |events| < MAXIMUM_WAIT_OBJECTS
      modifies this`events, this`chanEvents, chan`indexForPoll
      ensures Valid() && Registered() == old(Registered()) + {chan}
      ensures chanEvents == if old(chan.indexForPoll) == INVALID_INDEX
                then
                  var hEvent := if chan.fdtype == Socket then newEvent else chan.handle;
                  old(chanEvents) + [ChannelEvent(hEvent, chan, SlotMask(chan.fdtype, chan.events))]
                else
                  var slot := old(chanEvents)[old(chan.indexForPoll)];
                  old(chanEvents)[old(chan.indexForPoll) := slot.(netEvents := SlotMask(chan.fdtype, chan.events))]
      ensures old(chan.indexForPoll) != INVALID_INDEX ==> chan.indexForPoll == old(chan.indexForPoll)
    {
      hide NetMask;
      var index := chan.indexForPoll;
      if index < |chanEvents| {
        assert chanEvents[index].chan == chan;
        RefreshSlot(index, chan);
      } else {
        assert |events| < MAXIMUM_WAIT_OBJECTS;
        var hEvent, netEvents := chan.handle, 0;
        if chan.fdtype == Socket {
          hEvent := newEvent;
          netEvents := GetSockNetEventMask(chan);
        }
        AddChannelEvent(hEvent, chan, netEvents);
      }
    }

    method RemoveChannel(chan: Channel)
      requires Valid() && chan in chans
      modifies this`events, this`chanEvents, chans`indexForPoll
      ensures Valid() && Registered() == old(Registered()) - {chan}
      ensures chanEvents == if old(chan.indexForPoll) == INVALID_INDEX then old(chanEvents)
                else SwapRemove(old(chanEvents), old(chan.indexForPoll))
      ensures forall c | c in chans && old(c.indexForPoll) < old(chan.indexForPoll) ::
                c.indexForPoll == old(c.indexForPoll)
    {
      var index := chan.indexForPoll;
      if index < |chanEvents| {
        assert chanEvents[index].chan == chan;
        RemoveChannelEvent(index);
      }
    }

    method UpdateSockChanEvent(chan: Channel, net: NetEvents)
      requires chan.revents == NONE_EVENT
      modifies chan`revents
      ensures chan.revents == SocketResult(net)
    {
      if net.bits & FD_READ != 0 {
        chan.revents := chan.revents | (if !net.readFailed then READ_EVENT else ERROR_EVENT);
      }
      if net.bits & FD_WRITE != 0 {
        chan.revents := chan.revents | (if !net.writeFailed then WRITE_EVENT else ERROR_EVENT);
      }
      if net.bits & FD_CLOSE != 0 {
        chan.revents := chan.revents | CLOSE_EVENT;
      }
      if net.bits & FD_ACCEPT != 0 {
        chan.revents := chan.revents | (if !net.acceptFailed then ACCEPT_EVENT else ERROR_EVENT);
      }
    }

    /** The body of poll's loop: clear the result word, then fill it in by the kind of channel. */
    method MarkActive(slot: int, nets: seq<NetEvents>) returns (chan: Channel)
      requires Valid() && 1 <= slot < |chanEvents| == |nets|
      modifies chanEvents[slot].chan`revents
      ensures Valid() && chan == chanEvents[slot].chan
      ensures chan.revents == Result(chan.fdtype, nets[slot])
    {
      hide SlotMask, SocketResult;
      assert chanEvents[slot].hEvent == events[slot];
      chan := chanEvents[slot].chan;
      chan.revents := NONE_EVENT;
      if chan.fdtype == Socket {
        UpdateSockChanEvent(chan, nets[slot]);
      } else {
        chan.revents := chan.revents | READ_EVENT;
      }
    }

    /** No channel occupies two slots, and every slot but the first holds one. */
    lemma SlotsDistinct()
      requires Valid()
      ensures 1 <= |chanEvents| == |events|
      ensures forall i | 1 <= i < |chanEvents| :: chanEvents[i].chan in chans
      ensures forall i, j | 1 <= i < j < |chanEvents| :: chanEvents[i].chan != chanEvents[j].chan
    {
    }

    /** The active channels are those of the first slots, in order, each with its result word filled in. */
    ghost predicate Reported(active: seq<Channel>, slots: seq<int>, nets: seq<NetEvents>)
      reads this, active
    {
      && |active| <= |slots|
      && forall k | 0 <= k < |active| ::
        && 1 <= slots[k] < |chanEvents| == |nets|
        && active[k] == chanEvents[slots[k]].chan
        && active[k].revents == Result(active[k].fdtype, nets[slots[k]])
    }

    /** `waits` are the results of the successive waits, any numbers at all; nets[i] is what the
        socket of slot i would report. `reset` says whether the wakeup event was reset. */
    method Poll(waits: seq<nat>, nets: seq<NetEvents>) returns (active: seq<Channel>, reset: bool)
      requires Valid() && |nets| == |events|
      modifies chans`revents
      ensures Valid() && reset == (waits != [] && waits[0] == 0)
      ensures Reported(active, PollSlots(|events|, waits), nets) && |active| == |PollSlots(|events|, waits)|
      ensures forall k | 0 <= k < |active| ::
                HandlersDue(active[k].fdtype, active[k].revents, nets[PollSlots(|events|, waits)[k]])
      ensures forall c | c in chans && c !in active :: c.revents == old(c.revents)
    {
      hide Valid, Reported, HandlersDue;
      SlotsDistinct();
      assert Reported([], [], nets) by {
        NothingReported(nets);
      }
      active, reset := [], false;
      if waits == [] || waits[0] >= |events| {
      } else if waits[0] == 0 {
        reset := true;
      } else {
        active := ScanSlots(waits, nets);
      }
      ReportedDue(active, PollSlots(|events|, waits), nets);
    }

    lemma ReportedDue(active: seq<Channel>, slots: seq<int>, nets: seq<NetEvents>)
      requires Reported(active, slots, nets)
      ensures |active| <= |slots| && forall k | 0 <= k < |active| :: 0 <= slots[k] < |nets|
      ensures forall k | 0 <= k < |active| :: HandlersDue(active[k].fdtype, active[k].revents, nets[slots[k]])
    {
      hide HandlersDue, Result;
      forall k | 0 <= k < |active|
        ensures HandlersDue(active[k].fdtype, active[k].revents, nets[slots[k]])
      {
        ResultIsFaithful(active[k].fdtype, nets[slots[k]]);
      }
    }

    lemma NothingReported(nets: seq<NetEvents>)
      ensures Reported([], [], nets)
    {
    }

    /** The do-while loop of poll, entered when the first wait reports a slot other than 0. */
    method ScanSlots(waits: seq<nat>, nets: seq<NetEvents>) returns (active: seq<Channel>)
      requires Valid() && |nets| == |events| && waits != [] && 1 <= waits[0] < |events|
      modifies chans`revents
      ensures Valid() && Reported(active, Scan(|events|, 0, waits), nets) && |active| == |Scan(|events|, 0, waits)|
      ensures forall c | c in chans && c !in active :: c.revents == old(c.revents)
    {
      hide Valid, Result, Scan, Increasing;
      SlotsDistinct();
      var eventNum := |events|;
      ghost var slots := Scan(eventNum, 0, waits);
      ghost var entries := chanEvents;
      ghost var words: seq<Bits> := [];
      active := [];
      var startIndex, w := 0, 0;
      while w < |waits| && waits[w] < eventNum - startIndex
        invariant 0 <= w <= |waits| && 0 <= startIndex <= eventNum && w == |active| <= |slots|
        invariant slots[w..] == Scan(eventNum, startIndex, waits[w..])
        invariant if w == 0 then startIndex == 0 else startIndex >= 1
        invariant forall k | 0 <= k < w :: 1 <= slots[k] < startIndex
        invariant |words| == w && forall k | 0 <= k < w :: active[k].revents == words[k]
        invariant forall k | 0 <= k < w ::
                    active[k] == entries[slots[k]].chan && words[k] == Result(active[k].fdtype, nets[slots[k]])
        invariant forall c | c in chans && c !in active :: c.revents == old(c.revents)
        invariant Valid()
      {
        ScanStep(eventNum, startIndex, waits[w..]);
        assert waits[w..][1..] == waits[w + 1..] && slots[w..][1..] == slots[w + 1..];
        var index := startIndex + waits[w];
        assert slots[w] == index;
        var chan := MarkActive(index, nets);
        active, words := active + [chan], words + [chan.revents];
        startIndex := index + 1;
        w := w + 1;
      }
      ScanStep(eventNum, startIndex, waits[w..]);
    }
  }

  class EventLoop {
    const poller: Poller
    const timerChannel: Channel
    var channels: seq<Channel>

    /** Both registries are in order, and the poller only knows channels of the loop. */
    ghost predicate Valid()
      reads this`channels, poller, poller.chans`events, poller.chans`indexForPoll, poller.chans`indexForLoop
      reads poller.chans`callbacks
    {
      poller.Valid() && |channels| < INVALID_INDEX && Indexes(poller.chans) && TimerFirst()
    }

    /** The timer queue's channel is in the first slot after the wakeup event's, and calls handleRead. */
    ghost predicate TimerFirst()
      reads poller`chans, poller.chans`indexForPoll, poller.chans`callbacks
    {
      && timerChannel in poller.chans && timerChannel.fdtype == Timer && timerChannel.indexForPoll == 1
      && timerChannel.callbacks == {ReadCallback}
    }

    /** The vector holds exactly these channels, each at the index stored in it. */
    ghost predicate Indexes(members: set<Channel>)
      reads this`channels, members`indexForLoop
    {
      && (forall i | 0 <= i < |channels| :: channels[i] in members && channels[i].indexForLoop == i)
      && (forall c | c in members :: 0 <= c.indexForLoop < |channels| && channels[c.indexForLoop] == c)
    }

    /** The timer queue, which the loop's constructor creates, registers its channel at once. */
    constructor (wakeupEvent: int, timerHandle: int)
      ensures Valid() && channels == [timerChannel] && fresh(poller) && fresh(timerChannel)
      ensures poller.events == [wakeupEvent, timerHandle] && timerChannel.handle == timerHandle
      ensures IsEnabled(timerChannel.events, READ_EVENT)
    {
      var p := new Poller(wakeupEvent);
      var chan := new Channel(Timer, timerHandle);
      chan.SetCallback(ReadCallback);
      p.Adopt(chan);
      RegisterFirst(p, chan);
      poller, timerChannel, channels := p, chan, [chan];
    }

    /** enableReading on a new loop's only channel. */
    static method RegisterFirst(poller: Poller, chan: Channel)
      requires poller.Valid() && poller.chanEvents == [ChannelEvent(poller.wakeupEvent, null, 0)]
      requires poller.chans == {chan} && chan.indexForPoll == INVALID_INDEX
      requires chan.fdtype == Timer && chan.events == NONE_EVENT
      modifies poller`events, poller`chanEvents, chan`events, chan`indexForPoll, chan`indexForLoop
      ensures poller.Valid() && chan.indexForPoll == 1 && chan.indexForLoop == 0
      ensures poller.events == [poller.wakeupEvent, chan.handle] && IsEnabled(chan.events, READ_EVENT)
    {
      chan.indexForLoop := 0;
      chan.events := Enable(chan.events, READ_EVENT);
      assert IsEnabled(chan.events, READ_EVENT);
      hide SlotMask, Enable, IsEnabled;
      poller.UpdateChannel(chan, 0);
      assert chan in poller.Registered();
      assert |poller.events| == 2 && poller.events[0] == poller.wakeupEvent && poller.events[1] == chan.handle;
    }

    /** On the loop thread. */
    method NewChannel(fdtype: FdType, handle: int) returns (chan: Channel)
      requires Valid() && |channels| < INVALID_INDEX - 1
      modifies this, poller`chans
      ensures Valid() && fresh(chan) && channels == old(channels) + [chan]
      ensures poller.chans == old(poller.chans) + {chan} && poller.Registered() == old(poller.Registered())
      ensures chan.fdtype == fdtype && chan.handle == handle && chan.events == NONE_EVENT && chan.callbacks == {}
    {
      hide SlotMask;
      chan := new Channel(fdtype, handle);
      poller.Adopt(chan);
      channels := channels + [chan];
      chan.indexForLoop := |channels| - 1;
    }

    /** Channel::enableReadingFunc and its three siblings. */
    method EnableFunc(chan: Channel, event: Bits, newEvent: int)
      requires Valid() && chan in poller.chans && IsInterest(event)
      requires chan.indexForPoll == INVALID_INDEX ==> |poller.events| < MAXIMUM_WAIT_OBJECTS
      modifies poller`events, poller`chanEvents, chan`events, chan`indexForPoll
      ensures Valid() && chan.events == Enable(old(chan.events), event)
      ensures poller.Registered() == old(poller.Registered()) + {chan}
    {
      hide SlotMask, Enable, Indexes;
      chan.events := Enable(chan.events, event);
      poller.UpdateChannel(chan, newEvent);
    }

    /** Channel::disableReadingFunc and its three siblings. */
    method DisableFunc(chan: Channel, event: Bits, newEvent: int)
      requires Valid() && chan in poller.chans && IsInterest(event)
      requires chan.indexForPoll == INVALID_INDEX ==> |poller.events| < MAXIMUM_WAIT_OBJECTS
      modifies poller`events, poller`chanEvents, chan`events, chan`indexForPoll
      ensures Valid() && chan.events == Disable(old(chan.events), event)
      ensures poller.Registered() == old(poller.Registered()) + {chan}
    {
      hide SlotMask, Disable, Indexes;
      chan.events := Disable(chan.events, event);
      poller.UpdateChannel(chan, newEvent);
    }

    method DisableAllFunc(chan: Channel, newEvent: int)
      requires Valid() && chan in poller.chans
      requires chan.indexForPoll == INVALID_INDEX ==> |poller.events| < MAXIMUM_WAIT_OBJECTS
      modifies poller`events, poller`chanEvents, chan`events, chan`indexForPoll
      ensures Valid() && chan.events == NONE_EVENT
      ensures poller.Registered() == old(poller.Registered()) + {chan}
    {
      hide SlotMask, Indexes;
      chan.events := NONE_EVENT;
      poller.UpdateChannel(chan, newEvent);
    }

    /** Channel::removeFunc. Only the timer queue's destructor removes the timer queue's channel. */
    method RemoveFunc(chan: Channel)
      requires Valid() && chan in poller.chans && chan != timerChannel
      modifies poller`events, poller`chanEvents, poller.chans`indexForPoll
      ensures Valid() && poller.Registered() == old(poller.Registered()) - {chan}
    {
      poller.RemoveChannel(chan);
    }

    /** iter_swap with the last channel, then pop_back. */
    method PopChannel(chan: Channel)
      requires Indexes(poller.chans) && chan in poller.chans
      modifies this`channels, poller.chans`indexForLoop
      ensures Indexes(poller.chans - {chan}) && chan.indexForLoop == INVALID_INDEX
      ensures channels == SwapRemove(old(channels), old(chan.indexForLoop)) && |channels| == |old(channels)| - 1
    {
      var index, totalsize := chan.indexForLoop, |channels|;
      SwapDrop(channels, index);
      if index != totalsize - 1 {
        channels := channels[index := channels[totalsize - 1]][totalsize - 1 := channels[index]];
        channels[index].indexForLoop := index;
      }
      channels := channels[..totalsize - 1];
      hide SwapRemove;
      chan.indexForLoop := INVALID_INDEX;
    }

    /** The part of RemoveChannel that takes the channel out of the loop's vector. */
    method TakeOut(chan: Channel)
      requires Valid() && chan in poller.chans && chan.indexForPoll == INVALID_INDEX
      modifies this`channels, poller`chans, poller.chans`indexForLoop
      ensures Valid() && poller.chans == old(poller.chans) - {chan}
      ensures channels == SwapRemove(old(channels), old(chan.indexForLoop))
    {
      hide SlotMask, Indexes, SwapRemove, Poller.Slots, Poller.MasksBut;
      PopChannel(chan);
      poller.Forget(chan);
    }

    /** RemoveChannel on the loop thread; afterwards the channel is deleted. */
    method DeleteChannel(chan: Channel)
      requires Valid() && chan in poller.chans && chan != timerChannel
      modifies this`channels, poller, poller.chans`indexForPoll, poller.chans`indexForLoop
      ensures Valid() && poller.chans == old(poller.chans) - {chan}
      ensures poller.Registered() == old(poller.Registered()) - {chan}
      ensures channels == SwapRemove(old(channels), old(chan.indexForLoop))
    {
      hide SlotMask;
      var index, totalsize := chan.indexForLoop, |channels|;
      if totalsize > 0 && index < totalsize {
        RemoveFunc(chan);
        TakeOut(chan);
      }
    }

    /** The registered channels of these slots, in order. */
    ghost predicate InSlots(active: seq<Channel>, slots: seq<int>)
      reads poller`chans, poller.chans`indexForPoll
    {
      && |active| == |slots|
      && forall k | 0 <= k < |active| :: active[k] in poller.Registered() && active[k].indexForPoll == slots[k]
    }

    /** What these channels' sockets and timers reported is what their handlers are due for. */
    ghost predicate AllDue(active: seq<Channel>, nets: seq<NetEvents>)
      reads active
    {
      forall c | c in active ::
        1 <= c.indexForPoll < |nets| && HandlersDue(c.fdtype, c.revents, nets[c.indexForPoll])
    }

    /** If the waits are those of a fixed set of signalled handles without the wakeup event, these are
        the registered channels whose handle is signalled, and no others. */
    ghost predicate ExactlySignalled(active: seq<Channel>, waits: seq<nat>)
      reads poller, poller.chans`indexForPoll
    {
      forall signalled: seq<bool>
        | 1 <= |signalled| == |poller.events| <= WAIT_TIMEOUT && !signalled[0] && waits == LowestWaits(signalled, 0) ::
        forall c | c in poller.Registered() ::
          1 <= c.indexForPoll < |signalled| && (c in active <==> signalled[c.indexForPoll])
    }

    /** loop's call of poll. Each reported slot gives its channel, once and in slot order, with the
        handlers due that are to be called; so the timer queue's channel comes before every other,
        and no channel at all if the wakeup event was found set. */
    method PollActive(waits: seq<nat>, nets: seq<NetEvents>) returns (active: seq<Channel>, woken: bool)
      requires Valid() && |nets| == |poller.events|
      modifies poller.chans`revents
      ensures Valid() && woken == (waits != [] && waits[0] == 0) && (woken ==> active == [])
      ensures InSlots(active, PollSlots(|poller.events|, waits)) && ExactlySignalled(active, waits)
      ensures forall j, k | 0 <= j < k < |active| :: active[j].indexForPoll < active[k].indexForPoll
      ensures AllDue(active, nets)
      ensures timerChannel in active ==> active[0] == timerChannel && DueForTimer(timerChannel.revents)
    {
      WokenMeansNone(waits);
      hide PollSlots, HandlersDue, Poller.Reported, ExactlySignalled, InSlots, AllDue;
      active, woken := poller.Poll(waits, nets);
      WhatIsActive(active, waits, nets);
    }

    lemma WokenMeansNone(waits: seq<nat>)
      requires Valid()
      ensures waits != [] && waits[0] == 0 ==> PollSlots(|poller.events|, waits) == []
    {
    }

    lemma WhatIsActive(active: seq<Channel>, waits: seq<nat>, nets: seq<NetEvents>)
      requires Valid() && |nets| == |poller.events| && |active| == |PollSlots(|poller.events|, waits)|
      requires poller.Reported(active, PollSlots(|poller.events|, waits), nets)
      ensures InSlots(active, PollSlots(|poller.events|, waits)) && ExactlySignalled(active, waits)
      ensures forall j, k | 0 <= j < k < |active| :: active[j].indexForPoll < active[k].indexForPoll
      ensures AllDue(active, nets)
      ensures timerChannel in active ==> active[0] == timerChannel && DueForTimer(timerChannel.revents)
    {
      var slots := PollSlots(|poller.events|, waits);
      SlotsIncrease(|poller.events|, waits);
      RegisteredSlots();
      assert timerChannel.fdtype == Timer && timerChannel.indexForPoll == 1;
      hide Valid, PollSlots, Increasing, Poller.Registered, InSlots, ExactlySignalled;
      FillSlots(active, slots);
      EachInSlot(active, slots);
      SignalledExactly(active, waits);
      ReportedAllDue(active, slots, nets);
      hide AllDue, Poller.Reported;
      TimerIsFirst(active, nets);
    }

    lemma ReportedAllDue(active: seq<Channel>, slots: seq<int>, nets: seq<NetEvents>)
      requires poller.Reported(active, slots, nets) && InSlots(active, slots)
      ensures AllDue(active, nets)
    {
      hide HandlersDue, Poller.Registered;
      poller.ReportedDue(active, slots, nets);
    }

    lemma SignalledExactly(active: seq<Channel>, waits: seq<nat>)
      requires Valid() && InSlots(active, PollSlots(|poller.events|, waits))
      ensures ExactlySignalled(active, waits)
    {
      RegisteredSlots();
      SlotsIncrease(|poller.events|, waits);
      hide Valid, PollSlots, LowestWaits, Poller.Registered, InSlots, Increasing;
      EachInSlot(active, PollSlots(|poller.events|, waits));
      forall signalled: seq<bool>
        | 1 <= |signalled| == |poller.events| <= WAIT_TIMEOUT && !signalled[0] && waits == LowestWaits(signalled, 0)
        ensures forall c | c in poller.Registered() ::
                  1 <= c.indexForPoll < |signalled| && (c in active <==> signalled[c.indexForPoll])
      {
        PollIsExact(signalled);
      }
    }

    /** loop's dispatch: called[k] are the callbacks of the k-th active channel. */
    method Dispatch(active: seq<Channel>) returns (called: seq<seq<Callback>>)
      ensures |called| == |active|
      ensures forall k | 0 <= k < |active| :: CallsFor(called[k], active[k].revents, active[k].callbacks, 5)
    {
      hide CallsFor;
      called := [];
      for k := 0 to |active|
        invariant |called| == k
        invariant forall i | 0 <= i < k :: CallsFor(called[i], active[i].revents, active[i].callbacks, 5)
      {
        var callbacks := active[k].HandleEvent();
        called := called + [callbacks];
      }
    }

    /** One turn of loop up to doPendingFunctors. When the OS timer is reported, handleRead is called,
        once, and before every other handler. */
    method Turn(waits: seq<nat>, nets: seq<NetEvents>) returns (active: seq<Channel>, called: seq<seq<Callback>>)
      requires Valid() && |nets| == |poller.events|
      modifies poller.chans`revents
      ensures Valid() && InSlots(active, PollSlots(|poller.events|, waits)) && |called| == |active|
      ensures forall k | 0 <= k < |active| :: CallsFor(called[k], active[k].revents, active[k].callbacks, 5)
      ensures AllDue(active, nets) && ExactlySignalled(active, waits)
      ensures timerChannel in active ==> active[0] == timerChannel && called[0] == [ReadCallback]
    {
      hide InSlots, AllDue, ExactlySignalled, Poller.Registered, CallsFor;
      var woken;
      active, woken := PollActive(waits, nets);
      assert timerChannel.callbacks == {ReadCallback};
      hide Valid;
      called := Dispatch(active);
      if timerChannel in active {
        OnlyHandleRead(called[0], timerChannel.revents);
      }
    }

    static lemma OnlyHandleRead(called: seq<Callback>, word: Bits)
      requires DueForTimer(word) && CallsFor(called, word, {ReadCallback}, 5)
      ensures called == [ReadCallback]
    {
      assert ReadCallback in called;
      forall i | 0 <= i < |called|
        ensures called[i] == ReadCallback
      {
        assert called[i] in called;
      }
      assert PlaceOf(called[0]) == PlaceOf(called[|called| - 1]);
    }

    lemma RegisteredSlots()
      requires Valid()
      ensures forall i | 1 <= i < |poller.chanEvents| ::
                poller.chanEvents[i].chan in poller.Registered() && poller.chanEvents[i].chan.indexForPoll == i
      ensures |poller.chanEvents| == |poller.events|
      ensures forall c | c in poller.Registered() ::
                1 <= c.indexForPoll < |poller.chanEvents| && poller.chanEvents[c.indexForPoll].chan == c
    {
    }

    lemma FillSlots(active: seq<Channel>, slots: seq<int>)
      requires |active| == |slots|
      requires forall k | 0 <= k < |slots| ::
                 1 <= slots[k] < |poller.chanEvents| && active[k] == poller.chanEvents[slots[k]].chan
      requires forall i | 1 <= i < |poller.chanEvents| ::
                 poller.chanEvents[i].chan in poller.Registered() && poller.chanEvents[i].chan.indexForPoll == i
      ensures InSlots(active, slots)
    {
    }

    lemma EachInSlot(active: seq<Channel>, slots: seq<int>)
      requires InSlots(active, slots) && Increasing(slots)
      ensures forall j, k | 0 <= j < k < |active| :: active[j].indexForPoll < active[k].indexForPoll
      ensures forall c | c in active :: c.indexForPoll in slots
      ensures forall i | i in slots :: exists c :: c in active && c.indexForPoll == i
    {
      hide Poller.Registered;
      forall i | i in slots
        ensures exists c :: c in active && c.indexForPoll == i
      {
        var k :| 0 <= k < |slots| && slots[k] == i;
        assert active[k] in active;
      }
    }

    lemma TimerIsFirst(active: seq<Channel>, nets: seq<NetEvents>)
      requires timerChannel.fdtype == Timer && timerChannel.indexForPoll == 1
      requires forall j, k | 0 <= j < k < |active| :: active[j].indexForPoll < active[k].indexForPoll
      requires AllDue(active, nets)
      ensures timerChannel in active ==> active[0] == timerChannel && DueForTimer(timerChannel.revents)
    {
      hide DueForTimer, DueForSocket;
      if timerChannel in active {
        var k :| 0 <= k < |active| && active[k] == timerChannel;
        assert active[0] in active;
      }
    }
  }
}
