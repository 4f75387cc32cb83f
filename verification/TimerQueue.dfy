/** The timer queue as the program has it: an object whose fields its methods update in place.
    The loop's functor vector and the heap of Timer objects are fields too. Each method is
    proved to do what the corresponding steps of TimerSpec do, asserts included. */
module TimerQueues {
  import opened TimerSpec
  import opened TimerInvariant
  import opened TimerIds
  import opened TimerProgress
  import opened Options
  import opened OrderedSet

  function Calls(script: seq<seq<Event>>, ev: Event): seq<Event> {
    if script == [] then [] else [ev] + script[0] + Calls(script[1..], ev)
  }

  function Repeat(ev: Event, n: nat): seq<Event> {
    if n == 0 then [] else [ev] + Repeat(ev, n - 1)
  }

  /** reset, step by step, for n expired timers. */
  function ResetEvents(n: nat): seq<Event> { [StartReset] + (Repeat(ResetsOne, n) + [FinishesReset]) }

  /** A whole handleRead; script[k] is what user code and other threads post during the k-th callback. */
  function PassEvents(now: int, script: seq<seq<Event>>): seq<Event> {
    [HandleRead(now)] + (Calls(script, CallbackRuns) + ResetEvents(|script|))
  }

  /** A whole doPendingFunctors; script[k] is what is posted while the k-th functor runs. */
  function FunctorEvents(script: seq<seq<Event>>): seq<Event> {
    [SwapFunctors] + (Calls(script, RunsFunctor) + [FinishFunctors])
  }

  /** A whole addTimer. */
  function AddEvents(address: int, when: int, interval: int, sequence: int, before: seq<Event>, after: seq<Event>)
    : seq<Event>
  {
    [Allocates(address, when, interval, sequence)] + (before + ([PostAdd(address), Wakes] + after))
  }

  ghost predicate PostsOnly(posts: seq<Event>) { forall ev | ev in posts :: IsPost(ev) }

  lemma ExecFirst(s: State, ev: Event, rest: seq<Event>)
    ensures Exec(s, [ev] + rest) == if Step(s, ev).Ok? then Exec(Step(s, ev).value, rest) else Step(s, ev)
  {
    assert ([ev] + rest)[1..] == rest;
  }

  lemma ExecNothing(s: State)
    ensures Exec(s, []) == Ok(s)
  {
  }

  class TimerQueue {
    var heap: map<int, Timer>
    var count: int
    var pendingFunctors: seq<Functor>
    var timers: seq<Entry>
    var activeTimers: set<ActiveTimer>
    var armed: Option<int>
    var signalled: bool
    var event: bool
    ghost var unqueued: set<int>
    ghost var batch: seq<Functor>
    ghost var due: bool
    ghost var phase: Phase
    ghost var fired: seq<Fired>
    ghost var freed: seq<int>
    ghost var issued: map<int, int>

    ghost function Abs(): State
      reads this
    {
      State(heap, count, unqueued, pendingFunctors, batch, timers, activeTimers, armed, signalled, event, due, phase,
            fired, freed, issued)
    }

    constructor ()
      ensures Abs() == INITIAL
    {
      heap, count, pendingFunctors, timers, activeTimers := map[], 0, [], [], {};
      armed, signalled, event := None, false, false;
      unqueued, batch, due, phase, fired, freed, issued := {}, [], false, Polling, [], [], map[];
    }

    /** The push of queueInLoop. */
    method Push(f: Functor)
      modifies this
      ensures Abs() == Post(old(Abs()), f)
    {
      pendingFunctors := pendingFunctors + [f];
    }

    /** Poller::wakeup. */
    method Wakeup()
      modifies this
      ensures Abs() == Wake(old(Abs()))
    {
      event := true;
    }

    /** EventLoop::queueInLoop on the loop thread. */
    method QueueInLoop(f: Functor)
      modifies this
      ensures Abs() == Wake(Post(old(Abs()), f))
    {
      Push(f);
      Wakeup();
    }

    /** `new Timer`. The address is the allocator's choice: any address no live Timer has. The
        sequence is the counter's next value: larger than any this queue has had. */
    method NewTimer(address: int, when: int, interval: int, sequence: int)
      requires Enabled(Abs(), Allocates(address, when, interval, sequence))
      modifies this
      ensures Step(old(Abs()), Allocates(address, when, interval, sequence)) == Ok(Abs())
      ensures address in heap && heap[address].expiration == when && heap[address].interval == interval
      ensures heap[address].sequence == sequence && (heap[address].repeat <==> interval > 0)
      ensures heap - {address} == old(heap) && address !in old(heap)
      ensures timers == old(timers) && activeTimers == old(activeTimers) && pendingFunctors == old(pendingFunctors)
    {
      count := sequence;
      heap := heap[address := Timer(when, interval, interval > 0, sequence)];
      unqueued, issued := unqueued + {address}, issued[sequence := address];
    }

    /** Another thread's push of an add. */
    method PushAdd(address: int)
      requires Enabled(Abs(), PostAdd(address))
      modifies this
      ensures Step(old(Abs()), PostAdd(address)) == Ok(Abs())
    {
      unqueued := unqueued - {address};
      Push(AddFunctor(address));
    }

    /** On the loop thread runInLoop queues. */
    method Cancel(id: TimerId)
      requires Enabled(Abs(), PostCancel(id))
      modifies this
      ensures Step(old(Abs()), PostCancel(id)) == Ok(Abs())
    {
      QueueInLoop(CancelFunctor(id));
    }

    method ResetTimerfd(expiration: int)
      modifies this
      ensures Abs() == Arm(old(Abs()), expiration)
    {
      armed, signalled := Some(expiration), false;
    }

    method Delete(address: int)
      requires address in heap
      modifies this
      ensures Free(old(Abs()), address) == Ok(Abs())
    {
      freed := freed + [heap[address].sequence];
      heap := heap - {address};
    }

    method Insert(timer: int) returns (earliestChanged: bool)
      requires InsertTimer(Abs(), timer).Ok?
      modifies this
      ensures InsertTimer(old(Abs()), timer) == Ok(Abs())
      ensures timer in old(heap) && earliestChanged == EarliestChanged(old(Abs()), old(heap[timer].expiration))
    {
      assert |timers| == |activeTimers|;
      earliestChanged := false;
      var when := heap[timer].expiration;
      if timers == [] || when < timers[0].when {
        earliestChanged := true;
      }
      assert !Contains(timers, Entry(when, timer));
      timers := OrderedSet.Insert(timers, Entry(when, timer));
      var key := ActiveTimer(timer, heap[timer].sequence);
      assert key !in activeTimers;
      activeTimers := activeTimers + {key};
      assert |timers| == |activeTimers|;
    }

    method AddTimerInLoop(timer: int)
      requires TimerSpec.AddTimerInLoop(Abs(), timer).Ok?
      modifies this
      ensures TimerSpec.AddTimerInLoop(old(Abs()), timer) == Ok(Abs())
    {
      var earliestChanged := Insert(timer);
      if earliestChanged {
        ResetTimerfd(heap[timer].expiration);
      }
    }

    method CancelInLoop(id: TimerId)
      requires TimerSpec.CancelInLoop(Abs(), id).Ok?
      modifies this
      ensures TimerSpec.CancelInLoop(old(Abs()), id) == Ok(Abs())
    {
      assert |timers| == |activeTimers|;
      var key := ActiveTimer(id.timer, id.sequence);
      if key in activeTimers {
        var entry := Entry(heap[id.timer].expiration, id.timer);
        assert Contains(timers, entry);
        timers := OrderedSet.Erase(timers, entry);
        Delete(id.timer);
        activeTimers := activeTimers - {key};
      }
      assert |timers| == |activeTimers|;
    }

    method GetExpired(now: int) returns (expired: seq<Entry>)
      requires TimerSpec.GetExpired(Abs(), now).Ok?
      modifies this
      ensures TimerSpec.GetExpired(old(Abs()), now) == Ok(Abs())
      ensures expired == ExpiredPart(old(timers), now)
    {
      assert |timers| == |activeTimers|;
      var end := LowerBound(timers, Entry(now, SENTINEL));
      assert end == |timers| || now <= timers[end].when;
      expired := timers[..end];
      timers := timers[end..];
      ghost var start := Abs();
      var i := 0;
      while i < |expired|
        invariant 0 <= i <= |expired|
        invariant Deactivate(start, expired).Ok?
        invariant Deactivate(Abs(), expired[i..]) == Deactivate(start, expired)
      {
        assert expired[i..][0] == expired[i] && expired[i..][1..] == expired[i + 1..];
        var key := ActiveTimer(expired[i].addr, heap[expired[i].addr].sequence);
        assert key in activeTimers;
        activeTimers := activeTimers - {key};
        i := i + 1;
      }
      assert |timers| == |activeTimers|;
    }

    /** User code and other threads acting between two steps of the loop. */
    method Perform(posts: seq<Event>)
      requires PostsOnly(posts) && Exec(Abs(), posts).Ok?
      modifies this
      ensures Exec(old(Abs()), posts) == Ok(Abs())
    {
      var i := 0;
      while i < |posts|
        invariant 0 <= i <= |posts|
        invariant Exec(Abs(), posts[i..]) == Exec(old(Abs()), posts)
      {
        assert posts[i..] == [posts[i]] + posts[i + 1..];
        ExecFirst(Abs(), posts[i], posts[i + 1..]);
        assert posts[i] in posts;
        var ev := posts[i];
        if ev.Allocates? {
          NewTimer(ev.addr, ev.when, ev.interval, ev.sequence);
        } else if ev.PostAdd? {
          PushAdd(ev.addr);
        } else if ev.PostCancel? {
          Cancel(ev.id);
        } else if ev.Wakes? {
          Wakeup();
        } else {
          Push(UserFunctor);
        }
        i := i + 1;
      }
    }

    /** addTimer on the loop thread, with what other threads do before its queueInLoop and before
        its final read of the sequence. */
    method AddTimer(address: int, when: int, interval: int, sequence: int, before: seq<Event>, after: seq<Event>)
      returns (id: TimerId)
      requires Inv(Abs()) && PostsOnly(before) && PostsOnly(after)
      requires Exec(Abs(), AddEvents(address, when, interval, sequence, before, after)).Ok?
      modifies this
      ensures Exec(old(Abs()), AddEvents(address, when, interval, sequence, before, after)) == Ok(Abs())
      ensures id == TimerId(address, sequence)
      ensures address in heap && heap[address].expiration == when && heap[address].interval == interval
    {
      hide Inv, PostsOnly, Exec;
      ghost var start, middle := Abs(), before + ([PostAdd(address), Wakes] + after);
      ExecFirst(start, Allocates(address, when, interval, sequence), middle);
      StepPreservesIfEnabled(start, Allocates(address, when, interval, sequence));
      NewTimer(address, when, interval, sequence);
      ExecAppend(Abs(), before, [PostAdd(address), Wakes] + after);
      RunPreserves(Abs(), before);
      PostsKeepTimer(Abs(), before, sequence);
      Perform(before);
      assert [PostAdd(address), Wakes] + after == [PostAdd(address)] + ([Wakes] + after);
      ExecFirst(Abs(), PostAdd(address), [Wakes] + after);
      StepPreservesIfEnabled(Abs(), PostAdd(address));
      unqueued := unqueued - {address};
      ExecFirst(Post(Abs(), AddFunctor(address)), Wakes, after);
      StepPreservesIfEnabled(Post(Abs(), AddFunctor(address)), Wakes);
      QueueInLoop(AddFunctor(address));
      PostsKeepTimer(Abs(), after, sequence);
      Perform(after);
      id := TimerId(address, heap[address].sequence);
    }

    /** EventLoop::runAt. */
    method RunAt(address: int, time: int, sequence: int, before: seq<Event>, after: seq<Event>) returns (id: TimerId)
      requires Inv(Abs()) && PostsOnly(before) && PostsOnly(after)
      requires Exec(Abs(), AddEvents(address, time, 0, sequence, before, after)).Ok?
      modifies this
      ensures Exec(old(Abs()), AddEvents(address, time, 0, sequence, before, after)) == Ok(Abs())
      ensures id == TimerId(address, sequence)
      ensures address in heap && heap[address].expiration == time && heap[address].interval == 0
    {
      id := AddTimer(address, time, 0, sequence, before, after);
    }

    /** EventLoop::runAfter. */
    method RunAfter(address: int, now: int, delay: int, sequence: int, before: seq<Event>, after: seq<Event>)
      returns (id: TimerId)
      requires Inv(Abs()) && PostsOnly(before) && PostsOnly(after)
      requires Exec(Abs(), AddEvents(address, now + delay, 0, sequence, before, after)).Ok?
      modifies this
      ensures Exec(old(Abs()), AddEvents(address, now + delay, 0, sequence, before, after)) == Ok(Abs())
      ensures id == TimerId(address, sequence)
      ensures address in heap && heap[address].expiration == now + delay && heap[address].interval == 0
    {
      var time := now + delay;
      id := RunAt(address, time, sequence, before, after);
    }

    /** EventLoop::runEvery: the first time is an interval from now. */
    method RunEvery(address: int, now: int, interval: int, sequence: int, before: seq<Event>, after: seq<Event>)
      returns (id: TimerId)
      requires Inv(Abs()) && PostsOnly(before) && PostsOnly(after)
      requires Exec(Abs(), AddEvents(address, now + interval, interval, sequence, before, after)).Ok?
      modifies this
      ensures Exec(old(Abs()), AddEvents(address, now + interval, interval, sequence, before, after)) == Ok(Abs())
      ensures id == TimerId(address, sequence)
      ensures address in heap && heap[address].expiration == now + interval && heap[address].interval == interval
    {
      var time := now + interval;
      id := AddTimer(address, time, interval, sequence, before, after);
    }

    /** Timer::run, up to the point where the callback's own code begins. */
    method Run(entry: Entry)
      requires Enabled(Abs(), CallbackRuns) && phase.expired[phase.next] == entry && entry.addr in heap
      modifies this
      ensures Step(old(Abs()), CallbackRuns) == Ok(Abs())
    {
      var timer := heap[entry.addr];
      fired := fired + [Fired(timer.sequence, timer.interval, timer.expiration, phase.now)];
      phase := Firing(phase.now, phase.expired, phase.next + 1, phase.base);
    }

    method ResetOne(entry: Entry, now: int)
      requires Enabled(Abs(), ResetsOne) && phase.expired[phase.next] == entry && phase.now == now
      requires ResetNext(Abs()).Ok?
      modifies this
      ensures Step(old(Abs()), ResetsOne) == Ok(Abs())
    {
      phase := Resetting(now, phase.expired, phase.next + 1, phase.base);
      if heap[entry.addr].repeat {
        heap := heap[entry.addr := Restart(heap[entry.addr], now)];
        var _ := Insert(entry.addr);
      } else {
        Delete(entry.addr);
      }
    }

    method Reset(expired: seq<Entry>, now: int)
      requires Inv(Abs()) && phase.Firing? && phase.next >= |phase.expired|
      requires phase.expired == expired && phase.now == now
      modifies this
      ensures Exec(old(Abs()), ResetEvents(|expired|)) == Ok(Abs())
    {
      hide Inv, ResetNext, TimerSpec.FinishReset, Exec, Framed;
      StepPreservesIfEnabled(Abs(), StartReset);
      ExecFirst(Abs(), StartReset, Repeat(ResetsOne, |expired|) + [FinishesReset]);
      phase := Resetting(now, expired, 0, phase.base);
      var i := 0;
      while i < |expired|
        invariant 0 <= i <= |expired|
        invariant Inv(Abs()) && phase.Resetting? && phase.next == i && phase.expired == expired && phase.now == now
        invariant Exec(Abs(), Repeat(ResetsOne, |expired| - i) + [FinishesReset])
               == Exec(old(Abs()), ResetEvents(|expired|))
      {
        ResetsOnePreserves(Abs());
        ExecFirst(Abs(), ResetsOne, Repeat(ResetsOne, |expired| - i - 1) + [FinishesReset]);
        assert Repeat(ResetsOne, |expired| - i) + [FinishesReset]
            == [ResetsOne] + (Repeat(ResetsOne, |expired| - i - 1) + [FinishesReset]);
        ResetFrame(Abs());
        ResetOne(expired[i], now);
        i := i + 1;
      }
      FinishReset();
    }

    method FinishReset()
      requires Inv(Abs()) && Enabled(Abs(), FinishesReset)
      modifies this
      ensures Exec(old(Abs()), Repeat(ResetsOne, 0) + [FinishesReset]) == Ok(Abs())
    {
      ExecFirst(Abs(), FinishesReset, []);
      assert Repeat(ResetsOne, 0) + [FinishesReset] == [FinishesReset] + [];
      FinishesResetPreserves(Abs());
      hide Inv;
      phase := Dispatching;
      if timers != [] {
        ResetTimerfd(heap[timers[0].addr].expiration);
      }
    }

    /** One turn of handleRead's loop: the callback, and what it and other threads post. */
    method RunCallback(entry: Entry, posts: seq<Event>)
      requires Inv(Abs()) && phase.Firing? && phase.next < |phase.expired| && phase.expired[phase.next] == entry
      requires PostsOnly(posts)
      requires Step(Abs(), CallbackRuns).Ok? && Exec(Step(Abs(), CallbackRuns).value, posts).Ok?
      modifies this
      ensures Inv(Abs()) && Exec(Step(old(Abs()), CallbackRuns).value, posts) == Ok(Abs())
      ensures phase == Firing(old(phase).now, old(phase).expired, old(phase).next + 1, old(phase).base)
    {
      StepPreservesIfEnabled(Abs(), CallbackRuns);
      hide Inv, PostsOnly, Exec;
      Run(entry);
      PostsKeepPhase(Abs(), posts);
      RunPreserves(Abs(), posts);
      Perform(posts);
    }

    /** getExpired, and the place where the pass begins. */
    method TakeExpired(now: int) returns (expired: seq<Entry>)
      requires Enabled(Abs(), TimerSpec.HandleRead(now)) && TimerSpec.GetExpired(Abs(), now).Ok?
      modifies this
      ensures Step(old(Abs()), TimerSpec.HandleRead(now)) == Ok(Abs())
      ensures expired == ExpiredPart(old(timers), now) && phase == Firing(now, expired, 0, |old(fired)|)
    {
      ghost var base := |fired|;
      expired := GetExpired(now);
      due, phase := false, Firing(now, expired, 0, base);
    }

    /** The pass over the expired timers, with whatever the callbacks and other threads post. */
    method HandleRead(now: int, script: seq<seq<Event>>)
      requires Inv(Abs()) && Enabled(Abs(), TimerSpec.HandleRead(now))
      requires |script| == |ExpiredPart(timers, now)| && forall posts | posts in script :: PostsOnly(posts)
      requires Exec(Abs(), PassEvents(now, script)).Ok?
      modifies this
      ensures Exec(old(Abs()), PassEvents(now, script)) == Ok(Abs())
    {
      hide Inv, PostsOnly, Exec, Enabled, TimerSpec.GetExpired, ExpiredPart;
      StepPreservesIfEnabled(Abs(), TimerSpec.HandleRead(now));
      StartsIs(Abs(), now);
      hide Step;
      ExecFirst(Abs(), TimerSpec.HandleRead(now), Calls(script, CallbackRuns) + ResetEvents(|script|));
      ghost var base := |fired|;
      var expired := TakeExpired(now);
      var i := 0;
      while i < |expired|
        invariant 0 <= i <= |expired| == |script|
        invariant Inv(Abs()) && phase == Firing(now, expired, i, base)
        invariant Exec(Abs(), Calls(script[i..], CallbackRuns) + ResetEvents(|script|))
               == Exec(old(Abs()), PassEvents(now, script))
      {
        assert script[i..][1..] == script[i + 1..] && script[i] in script;
        CallFirst(Abs(), script[i..], CallbackRuns, ResetEvents(|script|));
        RunCallback(expired[i], script[i]);
        i := i + 1;
      }
      assert Calls(script[i..], CallbackRuns) + ResetEvents(|script|) == ResetEvents(|script|);
      Reset(expired, now);
    }

    method CallFunctor(f: Functor)
      requires TimerSpec.CallFunctor(Abs(), f).Ok?
      modifies this
      ensures TimerSpec.CallFunctor(old(Abs()), f) == Ok(Abs())
    {
      match f {
        case AddFunctor(timer) => AddTimerInLoop(timer);
        case CancelFunctor(id) => CancelInLoop(id);
        case UserFunctor =>
      }
    }

    /** One turn of doPendingFunctors' loop. */
    method RunFunctorAt(f: Functor, posts: seq<Event>)
      requires Inv(Abs()) && phase == RunningFunctors && batch != [] && batch[0] == f && PostsOnly(posts)
      requires Step(Abs(), RunsFunctor).Ok? && Exec(Step(Abs(), RunsFunctor).value, posts).Ok?
      modifies this
      ensures Inv(Abs()) && Exec(Step(old(Abs()), RunsFunctor).value, posts) == Ok(Abs())
      ensures phase == RunningFunctors && batch == old(batch)[1..]
    {
      StepPreservesIfEnabled(Abs(), RunsFunctor);
      hide Inv, PostsOnly, Exec, TimerSpec.CallFunctor;
      FunctorFrame(Abs());
      batch := batch[1..];
      CallFunctor(f);
      PostsKeepPhase(Abs(), posts);
      RunPreserves(Abs(), posts);
      Perform(posts);
    }

    /** The swap under the mutex. */
    method SwapOut() returns (functors: seq<Functor>)
      requires Enabled(Abs(), SwapFunctors)
      modifies this
      ensures Step(old(Abs()), SwapFunctors) == Ok(Abs())
      ensures functors == old(pendingFunctors) == batch && phase == RunningFunctors
    {
      functors := pendingFunctors;
      pendingFunctors := [];
      batch, phase := functors, RunningFunctors;
    }

    /** Back to poll. */
    method EndBatch()
      requires phase == RunningFunctors && batch == []
      modifies this
      ensures Exec(old(Abs()), [FinishFunctors]) == Ok(Abs())
    {
      assert [FinishFunctors] == [FinishFunctors] + [];
      ExecFirst(Abs(), FinishFunctors, []);
      hide Exec;
      phase := Polling;
      ExecNothing(Abs());
    }

    /** doPendingFunctors: what is queued while it runs waits for its next call. */
    method DoPendingFunctors(script: seq<seq<Event>>)
      requires Inv(Abs()) && Enabled(Abs(), SwapFunctors)
      requires |script| == |pendingFunctors| && forall posts | posts in script :: PostsOnly(posts)
      requires Exec(Abs(), FunctorEvents(script)).Ok?
      modifies this
      ensures Exec(old(Abs()), FunctorEvents(script)) == Ok(Abs())
    {
      hide Inv, PostsOnly, Exec, Step, Enabled;
      StepPreservesIfEnabled(Abs(), SwapFunctors);
      ExecFirst(Abs(), SwapFunctors, Calls(script, RunsFunctor) + [FinishFunctors]);
      var functors := SwapOut();
      var i := 0;
      while i < |functors|
        invariant 0 <= i <= |functors| == |script|
        invariant Inv(Abs()) && phase == RunningFunctors && batch == functors[i..]
        invariant Exec(Abs(), Calls(script[i..], RunsFunctor) + [FinishFunctors])
               == Exec(old(Abs()), FunctorEvents(script))
      {
        assert script[i..][1..] == script[i + 1..] && script[i] in script;
        assert functors[i..][0] == functors[i] && functors[i..][1..] == functors[i + 1..];
        CallFirst(Abs(), script[i..], RunsFunctor, [FinishFunctors]);
        RunFunctorAt(functors[i], script[i]);
        i := i + 1;
      }
      assert Calls(script[i..], RunsFunctor) + [FinishFunctors] == [FinishFunctors];
      EndBatch();
    }
  }

  /** Unfolding one call: the loop's own step, then the posts, then the rest. */
  lemma CallFirst(s: State, script: seq<seq<Event>>, ev: Event, tail: seq<Event>)
    requires script != [] && Exec(s, Calls(script, ev) + tail).Ok?
    ensures Step(s, ev).Ok? && Exec(Step(s, ev).value, script[0]).Ok?
    ensures Exec(s, Calls(script, ev) + tail)
         == Exec(Exec(Step(s, ev).value, script[0]).value, Calls(script[1..], ev) + tail)
  {
    hide Step;
    var rest := Calls(script[1..], ev) + tail;
    assert Calls(script, ev) + tail == [ev] + (script[0] + rest);
    ExecFirst(s, ev, script[0] + rest);
    ExecAppend(Step(s, ev).value, script[0], rest);
  }

  lemma {:induction false} PostsKeepPhase(s: State, posts: seq<Event>)
    requires PostsOnly(posts) && Exec(s, posts).Ok?
    ensures Exec(s, posts).value.phase == s.phase && Exec(s, posts).value.batch == s.batch
    decreases |posts|
  {
    if posts == [] {
    } else {
      assert posts[0] in posts && forall ev | ev in posts[1..] :: ev in posts;
      PostsKeepPhase(Step(s, posts[0]).value, posts[1..]);
    }
  }

  lemma PostsKeepTimer(s: State, posts: seq<Event>, n: int)
    requires Inv(s) && IsLive(s, n) && PostsOnly(posts) && Exec(s, posts).Ok?
    ensures Kept(s, Exec(s, posts).value, n)
  {
    hide Inv, Exec, IsPost;
    PostsKeep(s, posts, n);
  }
}
