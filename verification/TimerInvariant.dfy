/** What every reachable state of the timer machine satisfies, and its consequence: no run,
    whatever user code and the operating system do, ends in a Fault. */
module TimerInvariant {
  import opened OrderedSet
  import opened TimerSpec

  /** The functors not yet run, in the order they will run. */
  function Queue(s: State): seq<Functor> { s.batch + s.pending }

  /** The entries taken out by getExpired whose timers reset has not yet dealt with. */
  function Held(s: State): seq<Entry> {
    match s.phase
    case Firing(_, expired, _, _) => expired
    case Resetting(_, expired, next, _) => if next <= |expired| then expired[next..] else []
    case _ => []
  }

  predicate InPass(s: State) { s.phase.Firing? || s.phase.Resetting? }

  function KeyOf(s: State, a: int): Entry
    requires a in s.heap
  {
    Entry(s.heap[a].expiration, a)
  }

  ghost predicate HeapOk(s: State) {
    && 0 <= s.count
    && (forall n | n in s.issued :: 1 <= n <= s.count)
    && (forall a | a in s.heap ::
      && 0 < a < SENTINEL
      && s.heap[a].sequence in s.issued && s.issued[s.heap[a].sequence] == a
      && (s.heap[a].repeat <==> s.heap[a].interval > 0))
  }

  /** A timer is freed exactly when it is no longer alive, and at most once. */
  ghost predicate FreedOk(s: State) {
    && (forall n | n in s.issued :: n in s.freed <==> !IsLive(s, n))
    && (forall n | n in s.freed :: n in s.issued)
    && (forall i, j | 0 <= i < j < |s.freed| :: s.freed[i] != s.freed[j])
  }

  /** The two indexes hold the same timers, each under its current expiration. */
  ghost predicate IndexesAgree(s: State) {
    && Sorted(s.timers)
    && |s.timers| == |s.active|
    && (forall e | e in s.timers ::
      && e.addr in s.heap && s.heap[e.addr].expiration == e.when
      && ActiveTimer(e.addr, s.heap[e.addr].sequence) in s.active)
    && (forall p | p in s.active ::
      p.addr in s.heap && s.heap[p.addr].sequence == p.sequence && KeyOf(s, p.addr) in s.timers)
  }

  ghost predicate HeldOk(s: State) {
    && Sorted(Held(s))
    && (forall e | e in Held(s) ::
      e.addr in s.heap && s.heap[e.addr].expiration == e.when && e !in s.timers)
    && (InPass(s) ==>
      && s.phase.next <= |s.phase.expired|
      && (forall e | e in Held(s) :: e.when <= s.phase.now)
      && (forall e | e in s.timers :: s.phase.now < e.when))
  }

  ghost predicate QueueOk(s: State) {
    var q := Queue(s);
    && (forall i | 0 <= i < |q| && q[i].AddFunctor? ::
      q[i].addr in s.heap && KeyOf(s, q[i].addr) !in s.timers && KeyOf(s, q[i].addr) !in Held(s))
    && (forall i, j | 0 <= i < j < |q| && q[i].AddFunctor? && q[j].AddFunctor? :: q[i].addr != q[j].addr)
  }

  /** A Timer that addTimer is still holding is in no index, pass or functor. */
  ghost predicate UnqueuedOk(s: State) {
    forall a | a in s.unqueued ::
      a in s.heap && KeyOf(s, a) !in s.timers && KeyOf(s, a) !in Held(s) && AddFunctor(a) !in Queue(s)
  }

  /** Every live timer has an owner: addTimer itself, the functor that will add it, _timers, or
      the current pass. */
  ghost predicate Owned(s: State) {
    forall a | a in s.heap ::
      a in s.unqueued || AddFunctor(a) in Queue(s) || KeyOf(s, a) in s.timers || KeyOf(s, a) in Held(s)
  }

  /** Outside a pass the operating system's timer will fire, or has fired, early enough. */
  ghost predicate ArmedOk(s: State) {
    s.timers != [] && !InPass(s) ==>
      s.signalled || s.due || (s.armed.Some? && s.armed.value <= s.timers[0].when)
  }

  ghost predicate PhaseOk(s: State) {
    && (s.due ==> s.phase.Dispatching?)
    && (s.batch != [] ==> s.phase.RunningFunctors?)
  }

  ghost predicate Inv(s: State) {
    && HeapOk(s) && FreedOk(s) && IndexesAgree(s) && HeldOk(s)
    && QueueOk(s) && UnqueuedOk(s) && Owned(s) && ArmedOk(s) && PhaseOk(s)
  }

  lemma InitialInv()
    ensures Inv(INITIAL)
  {
  }

  // ---- allocating and posting

  /** A step that leaves the Timers addTimer holds, and what may refer to them, alone. */
  lemma UnqueuedKept(s: State, t: State)
    requires UnqueuedOk(s) && t.unqueued <= s.unqueued
    requires forall a | a in t.unqueued :: a in s.heap ==> a in t.heap && t.heap[a] == s.heap[a]
    requires forall e | e in t.timers || e in Held(t) :: e in s.timers || e in Held(s) || e.addr !in t.unqueued
    requires forall f | f in Queue(t) :: f in Queue(s)
    ensures UnqueuedOk(t)
  {
  }

  lemma PostKeepsMemory(s: State, f: Functor)
    requires HeapOk(s) && FreedOk(s) && IndexesAgree(s) && HeldOk(s)
    ensures HeapOk(Post(s, f)) && FreedOk(Post(s, f)) && IndexesAgree(Post(s, f)) && HeldOk(Post(s, f))
  {
    hide Sorted;
    var t := Post(s, f);
    assert Held(t) == Held(s);
    assert forall n | n in s.issued :: IsLive(t, n) <==> IsLive(s, n);
  }

  lemma PostPreserves(s: State, f: Functor)
    requires Inv(s)
    requires !f.AddFunctor?
    ensures Inv(Post(s, f))
  {
    hide Sorted, IndexesAgree;
    PostKeepsMemory(s, f);
    hide FreedOk;
    PostKeepsQueue(s, f);
  }

  lemma WakePreserves(s: State)
    requires Inv(s)
    ensures Inv(Wake(s))
  {
    hide HeapOk, FreedOk, IndexesAgree, QueueOk, UnqueuedOk, Owned;
    assert Held(Wake(s)) == Held(s);
    SameHeld(s, Wake(s));
    hide HeldOk;
    Unchanged(s, Wake(s));
  }

  lemma PostKeepsQueue(s: State, f: Functor)
    requires QueueOk(s) && UnqueuedOk(s) && Owned(s)
    requires !f.AddFunctor?
    ensures QueueOk(Post(s, f)) && UnqueuedOk(Post(s, f)) && Owned(Post(s, f))
  {
    var t := Post(s, f);
    assert Queue(t) == Queue(s) + [f];
    assert Held(t) == Held(s);
  }

  lemma AllocatesMemory(s: State, a: int, when: int, interval: int, n: int)
    requires HeapOk(s) && FreedOk(s) && Enabled(s, Allocates(a, when, interval, n))
    ensures HeapOk(NewTimer(s, a, when, interval, n)) && FreedOk(NewTimer(s, a, when, interval, n))
  {
    var t := NewTimer(s, a, when, interval, n);
    assert forall m | m in s.issued :: IsLive(t, m) <==> IsLive(s, m);
  }

  lemma AllocatesIndexes(s: State, a: int, when: int, interval: int, n: int)
    requires IndexesAgree(s) && HeldOk(s) && a !in s.heap
    ensures IndexesAgree(NewTimer(s, a, when, interval, n)) && HeldOk(NewTimer(s, a, when, interval, n))
  {
    hide Sorted;
    assert Held(NewTimer(s, a, when, interval, n)) == Held(s);
  }

  lemma AllocatesQueue(s: State, a: int, when: int, interval: int, n: int)
    requires IndexesAgree(s) && HeldOk(s) && QueueOk(s) && UnqueuedOk(s) && Owned(s)
    requires Enabled(s, Allocates(a, when, interval, n))
    ensures var t := NewTimer(s, a, when, interval, n); QueueOk(t) && UnqueuedOk(t) && Owned(t)
  {
    hide Sorted;
    var t := NewTimer(s, a, when, interval, n);
    assert Queue(t) == Queue(s) && Held(t) == Held(s);
    assert KeyOf(t, a) !in s.timers && KeyOf(t, a) !in Held(s);
  }

  /** `new Timer` puts nothing into the indexes or the functors. */
  lemma AllocatesPreserves(s: State, a: int, when: int, interval: int, n: int)
    requires Inv(s) && Enabled(s, Allocates(a, when, interval, n))
    ensures Inv(NewTimer(s, a, when, interval, n))
  {
    hide Sorted, HeapOk, FreedOk, IndexesAgree, HeldOk, QueueOk, UnqueuedOk, Owned;
    AllocatesMemory(s, a, when, interval, n);
    AllocatesIndexes(s, a, when, interval, n);
    AllocatesQueue(s, a, when, interval, n);
  }

  lemma QueuesAddQueue(s: State, a: int)
    requires QueueOk(s) && UnqueuedOk(s) && Owned(s) && a in s.unqueued
    ensures QueueOk(QueueAdd(s, a)) && UnqueuedOk(QueueAdd(s, a)) && Owned(QueueAdd(s, a))
  {
    var t := QueueAdd(s, a);
    assert Queue(t) == Queue(s) + [AddFunctor(a)];
    assert Held(t) == Held(s);
    assert Queue(t)[|Queue(s)|] == AddFunctor(a);
  }

  /** queueInLoop hands the Timer from addTimer to the functor vector. */
  lemma QueuesAddPreserves(s: State, a: int)
    requires Inv(s) && Enabled(s, PostAdd(a))
    ensures Inv(QueueAdd(s, a))
  {
    hide Sorted, HeapOk, FreedOk, IndexesAgree, HeldOk, QueueOk, UnqueuedOk, Owned;
    var s0 := s.(unqueued := s.unqueued - {a});
    SameMemory(s, s0);
    SameIndexes(s, s0);
    assert HeldOk(s0) by { SameHeld(s, s0); }
    PostKeepsMemory(s0, AddFunctor(a));
    QueuesAddQueue(s, a);
  }

  lemma SameHeld(s: State, t: State)
    requires HeldOk(s) && t.phase == s.phase && t.heap == s.heap && t.timers == s.timers
    ensures HeldOk(t)
  {
  }

  // ---- insert, as both addTimerInLoop and reset use it

  lemma SameIndexes(s: State, t: State)
    requires IndexesAgree(s)
    requires t.timers == s.timers && t.active == s.active && t.heap == s.heap
    ensures IndexesAgree(t)
  {
    hide Sorted;
  }

  lemma SameQueue(s: State, t: State)
    requires QueueOk(s) && UnqueuedOk(s) && Owned(s) && Queue(t) == Queue(s) && Held(t) == Held(s)
    requires t.heap == s.heap && t.timers == s.timers && t.count == s.count && t.unqueued == s.unqueued
    ensures QueueOk(t) && UnqueuedOk(t) && Owned(t)
  {
  }

  /** A step that moves the loop thread on, or the OS timer, without touching a timer. */
  lemma Unchanged(s: State, t: State)
    requires Inv(s) && Queue(t) == Queue(s) && Held(t) == Held(s)
    requires t.heap == s.heap && t.timers == s.timers && t.active == s.active
    requires t.count == s.count && t.issued == s.issued && t.freed == s.freed && t.unqueued == s.unqueued
    ensures HeapOk(t) && FreedOk(t) && IndexesAgree(t) && QueueOk(t) && UnqueuedOk(t) && Owned(t)
  {
    hide HeapOk, FreedOk, IndexesAgree, QueueOk, UnqueuedOk, Owned, HeldOk, ArmedOk, PhaseOk;
    SameMemory(s, t);
    SameIndexes(s, t);
    SameQueue(s, t);
  }

  lemma SameMemory(s: State, t: State)
    requires HeapOk(s) && FreedOk(s)
    requires t.heap == s.heap && t.count == s.count && t.issued == s.issued && t.freed == s.freed
    ensures HeapOk(t) && FreedOk(t)
  {
    assert forall n :: IsLive(t, n) <==> IsLive(s, n);
  }

  function Inserted(s: State, a: int): State
    requires a in s.heap
  {
    s.(timers := Insert(s.timers, KeyOf(s, a)), active := s.active + {ActiveTimer(a, s.heap[a].sequence)})
  }

  /** insert never trips an assert on a live timer that is in neither index. */
  lemma InsertOk(s: State, a: int)
    requires IndexesAgree(s) && a in s.heap && KeyOf(s, a) !in s.timers
    ensures InsertTimer(s, a) == Ok(Inserted(s, a))
  {
    hide Sorted, Insert, Contains;
    ContainsIsMembership(s.timers, KeyOf(s, a));
    InsertAdds(s.timers, KeyOf(s, a));
  }

  lemma InsertedAgree(s: State, a: int)
    requires IndexesAgree(s) && a in s.heap && KeyOf(s, a) !in s.timers
    ensures IndexesAgree(Inserted(s, a))
    ensures forall e :: e in Inserted(s, a).timers <==> e == KeyOf(s, a) || e in s.timers
  {
    hide Sorted, Insert;
    InsertAdds(s.timers, KeyOf(s, a));
  }

  // ---- running functors

  lemma RunAddQueue(s: State, t: State, a: int)
    requires QueueOk(s) && UnqueuedOk(s) && Owned(s) && s.phase.RunningFunctors?
    requires s.batch != [] && s.batch[0] == AddFunctor(a)
    requires a in s.heap
    requires t.batch == s.batch[1..] && t.pending == s.pending && t.heap == s.heap && t.count == s.count
    requires t.phase == s.phase && t.unqueued == s.unqueued
    requires forall e :: e in t.timers <==> e == KeyOf(s, a) || e in s.timers
    ensures QueueOk(t) && UnqueuedOk(t) && Owned(t)
  {
    assert Queue(t) == Queue(s)[1..];
    assert Queue(s)[0] == AddFunctor(a);
    UnqueuedKept(s, t);
    forall b | b in s.heap
      ensures b in s.unqueued || AddFunctor(b) in Queue(t) || KeyOf(t, b) in t.timers
    {
      if b != a && AddFunctor(b) in Queue(s) {
        var i :| 0 <= i < |Queue(s)| && Queue(s)[i] == AddFunctor(b);
        assert Queue(t)[i - 1] == AddFunctor(b);
      }
    }
  }

  function Added(s: State, a: int): State
    requires a in s.heap
  {
    var t := Inserted(s, a);
    if EarliestChanged(s, s.heap[a].expiration) then Arm(t, s.heap[a].expiration) else t
  }

  lemma AddTimerOk(s: State, a: int)
    requires IndexesAgree(s) && a in s.heap && KeyOf(s, a) !in s.timers
    ensures AddTimerInLoop(s, a) == Ok(Added(s, a))
  {
    InsertOk(s, a);
    hide IndexesAgree, InsertTimer;
  }

  lemma AddedIndexes(s: State, a: int)
    requires IndexesAgree(s) && a in s.heap && KeyOf(s, a) !in s.timers
    ensures IndexesAgree(Added(s, a))
    ensures forall e :: e in Added(s, a).timers <==> e == KeyOf(s, a) || e in s.timers
  {
    hide Sorted, Insert, IndexesAgree, EarliestChanged;
    InsertedAgree(s, a);
    SameIndexes(Inserted(s, a), Added(s, a));
  }

  /** addTimerInLoop re-arms exactly when the new timer comes first, and that suffices. */
  lemma AddedArmed(s: State, a: int)
    requires ArmedOk(s) && !InPass(s) && a in s.heap && KeyOf(s, a) !in s.timers
    ensures ArmedOk(Added(s, a))
  {
    InsertFront(s.timers, KeyOf(s, a));
    hide Insert;
  }

  lemma HeadAdd(s: State, a: int)
    requires QueueOk(s) && s.batch != [] && s.batch[0] == AddFunctor(a)
    ensures a in s.heap && KeyOf(s, a) !in s.timers && KeyOf(s, a) !in Held(s)
  {
    assert Queue(s)[0] == AddFunctor(a);
  }

  lemma RunAddPreserves(s: State, a: int)
    requires Inv(s) && s.phase.RunningFunctors?
    requires s.batch != [] && s.batch[0] == AddFunctor(a)
    ensures RunFunctor(s).Ok? && Inv(RunFunctor(s).value)
  {
    hide Sorted, Insert, HeapOk, FreedOk, QueueOk, UnqueuedOk, Owned, IndexesAgree, AddTimerInLoop;
    HeadAdd(s, a);
    var s0 := s.(batch := s.batch[1..]);
    SameIndexes(s, s0);
    AddTimerOk(s0, a);
    AddedIndexes(s0, a);
    AddedArmed(s0, a);
    var t := Added(s0, a);
    SameMemory(s, t);
    RunAddQueue(s, t, a);
  }

  lemma RunOtherQueue(s: State)
    requires QueueOk(s) && UnqueuedOk(s) && Owned(s) && s.batch != [] && !s.batch[0].AddFunctor?
    ensures var t := s.(batch := s.batch[1..]); QueueOk(t) && UnqueuedOk(t) && Owned(t)
  {
    var t := s.(batch := s.batch[1..]);
    assert Queue(t) == Queue(s)[1..];
    assert Held(t) == Held(s);
    UnqueuedKept(s, t);
    forall a | AddFunctor(a) in Queue(s)
      ensures AddFunctor(a) in Queue(t)
    {
      var i :| 0 <= i < |Queue(s)| && Queue(s)[i] == AddFunctor(a);
      assert Queue(t)[i - 1] == AddFunctor(a);
    }
  }

  function Cancelled(s: State, a: int): State
    requires a in s.heap
  {
    s.(timers := Erase(s.timers, KeyOf(s, a)), active := s.active - {ActiveTimer(a, s.heap[a].sequence)},
       heap := s.heap - {a}, freed := s.freed + [s.heap[a].sequence])
  }

  /** cancelInLoop removes the timer its id names if that one is in the indexes, and nothing else. */
  lemma CancelOk(s: State, id: TimerId)
    requires IndexesAgree(s)
    ensures var key := ActiveTimer(id.timer, id.sequence);
            if key in s.active
            then id.timer in s.heap && CancelInLoop(s, id) == Ok(Cancelled(s, id.timer))
            else CancelInLoop(s, id) == Ok(s)
  {
    hide Sorted, Erase, Contains;
    if ActiveTimer(id.timer, id.sequence) in s.active {
      ContainsIsMembership(s.timers, KeyOf(s, id.timer));
      EraseRemoves(s.timers, KeyOf(s, id.timer));
    }
  }

  lemma CancelledIndexes(s: State, a: int)
    requires IndexesAgree(s) && a in s.heap && KeyOf(s, a) in s.timers
    ensures IndexesAgree(Cancelled(s, a))
    ensures forall e :: e in Cancelled(s, a).timers <==> e != KeyOf(s, a) && e in s.timers
  {
    hide Sorted, Erase;
    EraseRemoves(s.timers, KeyOf(s, a));
  }

  /** Cancelling never re-arms, and never needs to. */
  lemma CancelledArmed(s: State, a: int)
    requires ArmedOk(s) && IndexesAgree(s) && a in s.heap && KeyOf(s, a) in s.timers
    ensures ArmedOk(Cancelled(s, a))
  {
    hide Sorted, Erase;
    var t := Cancelled(s, a);
    EraseRemoves(s.timers, KeyOf(s, a));
    if t.timers != [] {
      assert t.timers[0] in t.timers;
      FirstIsLeast(s.timers, t.timers[0]);
    }
  }

  lemma FreeingOne(s: State, t: State, a: int)
    requires HeapOk(s) && FreedOk(s) && a in s.heap
    requires t.heap == s.heap - {a} && t.freed == s.freed + [s.heap[a].sequence]
    requires t.count == s.count && t.issued == s.issued
    ensures HeapOk(t) && FreedOk(t)
  {
    assert forall n | n in s.issued :: IsLive(t, n) <==> IsLive(s, n) && n != s.heap[a].sequence;
    assert IsLive(s, s.heap[a].sequence);
  }

  lemma CancelledQueue(s: State, t: State, a: int)
    requires QueueOk(s) && UnqueuedOk(s) && Owned(s) && a in s.heap && KeyOf(s, a) in s.timers
    requires Held(s) == []
    requires t == Cancelled(s, a)
    requires forall e :: e in t.timers <==> e != KeyOf(s, a) && e in s.timers
    ensures QueueOk(t) && UnqueuedOk(t) && Owned(t)
  {
    hide Erase;
    assert Queue(t) == Queue(s);
    assert Held(t) == Held(s);
    assert AddFunctor(a) !in Queue(s);
    forall b | b in t.heap
      ensures KeyOf(t, b) == KeyOf(s, b) && KeyOf(s, b) != KeyOf(s, a)
    {
    }
  }

  lemma CancelledKeeps(s: State, a: int)
    requires Inv(s) && s.phase.RunningFunctors? && a in s.heap && KeyOf(s, a) in s.timers
    ensures Inv(Cancelled(s, a))
  {
    hide Sorted, Erase, HeapOk, FreedOk, QueueOk, UnqueuedOk, Owned, IndexesAgree, ArmedOk;
    CancelledIndexes(s, a);
    CancelledArmed(s, a);
    CancelledQueue(s, Cancelled(s, a), a);
    FreeingOne(s, Cancelled(s, a), a);
  }

  /** Dropping a functor that adds nothing from the head of the batch. */
  lemma DropPreserves(s: State)
    requires Inv(s) && s.phase.RunningFunctors? && s.batch != [] && !s.batch[0].AddFunctor?
    ensures Inv(s.(batch := s.batch[1..]))
  {
    hide Sorted, HeapOk, FreedOk, QueueOk, UnqueuedOk, Owned, IndexesAgree;
    var s0 := s.(batch := s.batch[1..]);
    SameIndexes(s, s0);
    SameMemory(s, s0);
    RunOtherQueue(s);
  }

  lemma IndexesOf(s: State)
    requires Inv(s)
    ensures IndexesAgree(s)
  {
  }

  lemma RunCancelPreserves(s: State, id: TimerId)
    requires Inv(s) && s.phase.RunningFunctors?
    requires s.batch != [] && s.batch[0] == CancelFunctor(id)
    ensures RunFunctor(s).Ok? && Inv(RunFunctor(s).value)
  {
    hide Inv, Sorted, CancelInLoop, Erase;
    var s0 := s.(batch := s.batch[1..]);
    DropPreserves(s);
    IndexesOf(s0);
    CancelOk(s0, id);
    if ActiveTimer(id.timer, id.sequence) in s0.active {
      CancelledKeeps(s0, id.timer);
    }
  }

  // ---- what functors and reset leave alone

  predicate Framed(s: State, t: State) {
    && t.pending == s.pending && t.batch == s.batch && t.phase == s.phase && t.due == s.due && t.event == s.event
    && t.unqueued == s.unqueued && t.count == s.count && t.issued == s.issued
    && t.fired == s.fired && s.freed <= t.freed && t.heap.Keys <= s.heap.Keys
  }

  lemma InsertFrame(s: State, a: int)
    requires InsertTimer(s, a).Ok?
    ensures Framed(s, InsertTimer(s, a).value)
  {
    hide Insert, Contains;
  }

  lemma AddFrame(s: State, a: int)
    requires AddTimerInLoop(s, a).Ok?
    ensures Framed(s, AddTimerInLoop(s, a).value)
  {
    InsertFrame(s, a);
    hide InsertTimer;
  }

  lemma CancelFrame(s: State, id: TimerId)
    requires CancelInLoop(s, id).Ok?
    ensures Framed(s, CancelInLoop(s, id).value)
  {
    hide Erase, Contains;
  }

  lemma FunctorFrame(s: State)
    requires s.batch != [] && RunFunctor(s).Ok?
    ensures Framed(s.(batch := s.batch[1..]), RunFunctor(s).value)
  {
    hide AddTimerInLoop, CancelInLoop;
    var s0 := s.(batch := s.batch[1..]);
    match s.batch[0]
    case AddFunctor(a) => AddFrame(s0, a);
    case CancelFunctor(id) => CancelFrame(s0, id);
    case UserFunctor =>
  }

  lemma ResetFrame(s: State)
    requires Enabled(s, ResetsOne) && ResetNext(s).Ok?
    ensures var t := ResetNext(s).value;
            Framed(s.(phase := t.phase), t)
            && t.phase == Resetting(s.phase.now, s.phase.expired, s.phase.next + 1, s.phase.base)
  {
    var a := s.phase.expired[s.phase.next].addr;
    var s0 := s.(phase := Resetting(s.phase.now, s.phase.expired, s.phase.next + 1, s.phase.base));
    if s.heap[a].repeat {
      InsertFrame(s0.(heap := s.heap[a := Restart(s.heap[a], s.phase.now)]), a);
    }
    hide InsertTimer;
  }

  lemma RunUserPreserves(s: State)
    requires Inv(s) && s.phase.RunningFunctors? && s.batch != [] && s.batch[0].UserFunctor?
    ensures RunFunctor(s).Ok? && Inv(RunFunctor(s).value)
  {
    hide Inv;
    DropPreserves(s);
  }

  // ---- a pass of handleRead

  /** The entries of es lie under their timers' current expirations. */
  ghost predicate Keyed(s: State, es: seq<Entry>) {
    forall i | 0 <= i < |es| :: es[i].addr in s.heap && KeyOf(s, es[i].addr) == es[i]
  }

  function PairOf(s: State, e: Entry): ActiveTimer
    requires e.addr in s.heap
  {
    ActiveTimer(e.addr, s.heap[e.addr].sequence)
  }

  ghost function PairsOf(s: State, es: seq<Entry>): set<ActiveTimer>
    requires Keyed(s, es)
  {
    if es == [] then {} else {PairOf(s, es[0])} + PairsOf(s, es[1..])
  }

  lemma {:induction false} PairsOfMember(s: State, es: seq<Entry>, p: ActiveTimer)
    requires Keyed(s, es)
    ensures p in PairsOf(s, es) <==> p.addr in s.heap && p == PairOf(s, KeyOf(s, p.addr)) && KeyOf(s, p.addr) in es
  {
    if es == [] {
    } else {
      PairsOfMember(s, es[1..], p);
      assert forall e :: e in es <==> e == es[0] || e in es[1..];
    }
  }

  lemma {:induction false} PairsOfFrame(s: State, t: State, es: seq<Entry>)
    requires Keyed(s, es) && t.heap == s.heap
    ensures PairsOf(t, es) == PairsOf(s, es)
  {
    if es == [] {
    } else {
      PairsOfFrame(s, t, es[1..]);
    }
  }

  /** The erase loop of getExpired finds every expired timer in _activeTimers. */
  lemma {:induction false} DeactivateOk(s: State, es: seq<Entry>)
    requires Keyed(s, es)
    requires forall i | 0 <= i < |es| :: PairOf(s, es[i]) in s.active
    requires forall i, j | 0 <= i < j < |es| :: es[i].addr != es[j].addr
    ensures var left := s.active - PairsOf(s, es);
            |left| == |s.active| - |es| && Deactivate(s, es) == Ok(s.(active := left))
    decreases |es|
  {
    if es == [] {
      assert s.active - {} == s.active;
    } else {
      var s1 := s.(active := s.active - {PairOf(s, es[0])});
      DeactivateOk(s1, es[1..]);
      PairsOfFrame(s, s1, es[1..]);
      assert s.active - PairsOf(s, es) == s1.active - PairsOf(s, es[1..]);
    }
  }

  lemma SplitAt(es: seq<Entry>, now: int)
    requires Sorted(es) && forall e | e in es :: e.addr < SENTINEL
    ensures forall e | e in ExpiredPart(es, now) :: e.when <= now
    ensures forall e | e in KeptPart(es, now) :: now < e.when
    ensures forall e :: e in es <==> e in ExpiredPart(es, now) || e in KeptPart(es, now)
    ensures Sorted(ExpiredPart(es, now)) && Sorted(KeptPart(es, now))
  {
    LowerBoundSplits(es, Entry(now, SENTINEL));
    PartsOf(es, LowerBound(es, Entry(now, SENTINEL)));
  }

  /** getExpired splits _timers exactly at now, and keeps both parts in order. */
  lemma ExpirySplit(s: State, now: int)
    requires HeapOk(s) && IndexesAgree(s)
    ensures ExpiredPart(s.timers, now) + KeptPart(s.timers, now) == s.timers
    ensures forall e :: e in ExpiredPart(s.timers, now) <==> e in s.timers && e.when <= now
    ensures forall e :: e in KeptPart(s.timers, now) <==> e in s.timers && now < e.when
    ensures Sorted(ExpiredPart(s.timers, now)) && Sorted(KeptPart(s.timers, now))
  {
    hide Sorted;
    SplitAt(s.timers, now);
    hide LowerBound, IndexesAgree, HeapOk;
  }

  lemma DistinctAddresses(s: State, es: seq<Entry>)
    requires Sorted(es)
    requires forall e | e in es :: e.addr in s.heap && s.heap[e.addr].expiration == e.when
    ensures forall i, j | 0 <= i < j < |es| :: es[i].addr != es[j].addr
  {
    forall i, j | 0 <= i < j < |es|
      ensures es[i].addr != es[j].addr
    {
      assert es[i] in es && es[j] in es && Less(es[i], es[j]);
    }
  }

  function Started(s: State, now: int): State
    requires forall e | e in s.timers :: e.addr in s.heap
  {
    var expired := ExpiredPart(s.timers, now);
    s.(timers := KeptPart(s.timers, now),
       active := (set p | p in s.active && !(p.addr in s.heap && KeyOf(s, p.addr) in expired)),
       due := false, phase := Firing(now, expired, 0, |s.fired|))
  }

  lemma StartedActive(s: State, now: int)
    requires IndexesAgree(s) && Keyed(s, ExpiredPart(s.timers, now))
    ensures Started(s, now).active == s.active - PairsOf(s, ExpiredPart(s.timers, now))
  {
    var expired := ExpiredPart(s.timers, now);
    forall p | p in s.active
      ensures p in PairsOf(s, expired) <==> KeyOf(s, p.addr) in expired
    {
      PairsOfMember(s, expired, p);
    }
  }

  lemma ExpiredKeyed(s: State, now: int)
    requires HeapOk(s) && IndexesAgree(s)
    ensures var expired := ExpiredPart(s.timers, now);
            && Keyed(s, expired)
            && (forall i | 0 <= i < |expired| :: PairOf(s, expired[i]) in s.active)
            && (forall i, j | 0 <= i < j < |expired| :: expired[i].addr != expired[j].addr)
  {
    hide Sorted;
    var expired := ExpiredPart(s.timers, now);
    ExpirySplit(s, now);
    hide HeapOk, ExpiredPart;
    assert forall i | 0 <= i < |expired| :: expired[i] in expired;
    DistinctAddresses(s, expired);
  }

  lemma DeactivatedOk(s: State, now: int)
    requires HeapOk(s) && IndexesAgree(s)
    ensures Deactivate(s.(timers := KeptPart(s.timers, now)), ExpiredPart(s.timers, now))
         == Ok(s.(timers := KeptPart(s.timers, now), active := Started(s, now).active))
    ensures |Started(s, now).timers| == |Started(s, now).active|
  {
    var expired := ExpiredPart(s.timers, now);
    ExpirySplit(s, now);
    hide Sorted, HeapOk;
    ExpiredKeyed(s, now);
    StartedActive(s, now);
    var s1 := s.(timers := KeptPart(s.timers, now));
    DeactivateOk(s1, expired);
    PairsOfFrame(s, s1, expired);
    assert |s.timers| == |expired| + |KeptPart(s.timers, now)|;
  }

  /** None of getExpired's asserts can fail, and it touches live timers only. */
  lemma GetExpiredOk(s: State, now: int)
    requires HeapOk(s) && IndexesAgree(s)
    ensures StartFire(s, now) == Ok(Started(s, now))
    ensures |Started(s, now).timers| == |Started(s, now).active|
  {
    hide Sorted, Deactivate, HeapOk;
    ExpirySplit(s, now);
    DeactivatedOk(s, now);
    var kept := KeptPart(s.timers, now);
    assert kept != [] ==> kept[0] in kept;
    hide KeptPart, ExpiredPart;
  }

  lemma StartedAgree(s: State, t: State)
    requires IndexesAgree(s) && t.heap == s.heap && Sorted(t.timers) && |t.timers| == |t.active|
    requires forall e | e in t.timers :: e in s.timers
    requires forall p :: p in t.active <==> p in s.active && KeyOf.requires(s, p.addr) && KeyOf(s, p.addr) in t.timers
    ensures IndexesAgree(t)
  {
    hide Sorted;
  }

  lemma StartedHeld(s: State, t: State, now: int)
    requires IndexesAgree(s) && t.heap == s.heap && t.phase.Firing? && t.phase.now == now && t.phase.next == 0
    requires Sorted(t.phase.expired)
    requires forall e :: e in t.phase.expired <==> e in s.timers && e.when <= now
    requires forall e :: e in t.timers <==> e in s.timers && now < e.when
    ensures HeldOk(t)
    ensures forall e :: e in s.timers <==> e in t.timers || e in Held(t)
  {
    hide Sorted;
    assert Held(t) == t.phase.expired;
  }

  lemma StartedKeys(s: State, now: int)
    requires HeapOk(s) && IndexesAgree(s)
    ensures forall e | e in s.timers :: e.addr in s.heap
    ensures var t := Started(s, now);
            forall p :: p in t.active <==> p in s.active && KeyOf.requires(s, p.addr) && KeyOf(s, p.addr) in t.timers
  {
    ExpirySplit(s, now);
    hide Sorted, ExpiredPart, KeptPart, HeapOk;
  }

  lemma StartedIndexes(s: State, now: int)
    requires HeapOk(s) && IndexesAgree(s)
    ensures IndexesAgree(Started(s, now)) && HeldOk(Started(s, now))
    ensures forall e :: e in s.timers <==> e in Started(s, now).timers || e in Held(Started(s, now))
  {
    StartedKeys(s, now);
    hide IndexesAgree, HeapOk, Sorted, StartFire, ExpiredPart, KeptPart, HeldOk, Held;
    GetExpiredOk(s, now);
    ExpirySplit(s, now);
    var t := Started(s, now);
    StartedAgree(s, t);
    StartedHeld(s, t, now);
  }

  lemma StartedQueue(s: State, t: State)
    requires QueueOk(s) && UnqueuedOk(s) && Owned(s) && Held(s) == []
    requires t.heap == s.heap && t.count == s.count && t.pending == s.pending && t.batch == s.batch
    requires t.unqueued == s.unqueued
    requires forall e :: e in s.timers <==> e in t.timers || e in Held(t)
    ensures QueueOk(t) && UnqueuedOk(t) && Owned(t)
  {
    assert Queue(t) == Queue(s);
  }

  lemma HandleReadPreserves(s: State, now: int)
    requires Inv(s) && s.phase.Dispatching?
    ensures StartFire(s, now).Ok? && Inv(StartFire(s, now).value)
  {
    hide Sorted, StartFire, QueueOk, UnqueuedOk, Owned;
    GetExpiredOk(s, now);
    StartedIndexes(s, now);
    hide IndexesAgree;
    SameMemory(s, Started(s, now));
    hide HeapOk, FreedOk;
    StartedQueue(s, Started(s, now));
  }

  lemma CallbackRunsPreserves(s: State)
    requires Inv(s) && Enabled(s, CallbackRuns)
    ensures FireNext(s).Ok? && Inv(FireNext(s).value)
  {
    hide Sorted, HeapOk, FreedOk, IndexesAgree, QueueOk, UnqueuedOk, Owned;
    assert s.phase.expired[s.phase.next] in Held(s);
    Unchanged(s, FireNext(s).value);
  }

  lemma StartResetPreserves(s: State)
    requires Inv(s) && Enabled(s, StartReset)
    ensures Inv(Step(s, StartReset).value)
  {
    hide Sorted, HeapOk, FreedOk, IndexesAgree, QueueOk, UnqueuedOk, Owned;
    var t := Step(s, StartReset).value;
    assert Held(t) == Held(s);
    Unchanged(s, t);
  }

  function NextAddress(s: State): int
    requires Enabled(s, ResetsOne)
  {
    s.phase.expired[s.phase.next].addr
  }

  function Skipped(s: State): State
    requires s.phase.Resetting?
  {
    s.(phase := Resetting(s.phase.now, s.phase.expired, s.phase.next + 1, s.phase.base))
  }

  /** The timer reset is about to deal with is in no index and no functor, and the rest of
      the pass does not refer to it either. */
  ghost predicate Detached(s: State) {
    && Enabled(s, ResetsOne)
    && NextAddress(s) in s.heap
    && (forall x | x in s.timers :: x.addr != NextAddress(s))
    && (forall x | x in Held(Skipped(s)) :: x in Held(s) && x.addr != NextAddress(s))
    && (forall x | x in Held(s) :: x == KeyOf(s, NextAddress(s)) || x in Held(Skipped(s)))
    && AddFunctor(NextAddress(s)) !in Queue(s) && NextAddress(s) !in s.unqueued
  }

  lemma HeldRest(s: State)
    requires HeldOk(s) && Enabled(s, ResetsOne)
    ensures Sorted(Held(Skipped(s)))
    ensures Held(s) == [s.phase.expired[s.phase.next]] + Held(Skipped(s))
    ensures forall x | x in Held(Skipped(s)) :: x != s.phase.expired[s.phase.next]
  {
    assert Held(Skipped(s)) == Held(s)[1..];
  }

  /** The timer reset is about to deal with occurs once in what is left of the pass. */
  lemma HeldApart(s: State)
    requires HeldOk(s) && Enabled(s, ResetsOne)
    ensures NextAddress(s) in s.heap && KeyOf(s, NextAddress(s)) in Held(s) && KeyOf(s, NextAddress(s)) !in s.timers
    ensures forall x | x in Held(Skipped(s)) :: x in Held(s) && x.addr != NextAddress(s)
    ensures forall x | x in Held(s) :: x == KeyOf(s, NextAddress(s)) || x in Held(Skipped(s))
  {
    HeldRest(s);
    hide Sorted;
    assert s.phase.expired[s.phase.next] in Held(s);
  }

  lemma NextDetached(s: State)
    requires HeldOk(s) && QueueOk(s) && UnqueuedOk(s) && IndexesAgree(s) && Enabled(s, ResetsOne)
    ensures Detached(s)
  {
    HeldApart(s);
    hide Sorted, HeldOk, Held, Skipped;
  }

  function Released(s: State): State
    requires Enabled(s, ResetsOne) && NextAddress(s) in s.heap
  {
    Skipped(s).(heap := s.heap - {NextAddress(s)}, freed := s.freed + [s.heap[NextAddress(s)].sequence])
  }

  lemma ReleasedIndexes(s: State)
    requires IndexesAgree(s) && Detached(s)
    ensures IndexesAgree(Released(s))
  {
    hide Sorted;
  }

  /** What is left of the pass stays good when only the timer it has just dealt with changes. */
  lemma RestHeldOk(s: State, t: State)
    requires HeldOk(s) && Detached(s) && t.phase == Skipped(s).phase
    requires forall a | a in s.heap && a != NextAddress(s) :: a in t.heap && t.heap[a] == s.heap[a]
    requires forall e | e in t.timers :: e in s.timers || (e.addr == NextAddress(s) && s.phase.now < e.when)
    ensures HeldOk(t)
  {
    HeldRest(s);
    assert Held(t) == Held(Skipped(s));
    hide Sorted, Queue, Held;
  }

  lemma ReleasedHeld(s: State)
    requires HeldOk(s) && Detached(s)
    ensures HeldOk(Released(s))
  {
    hide HeldOk, Held, Queue;
    RestHeldOk(s, Released(s));
  }

  lemma ReleasedQueue(s: State)
    requires QueueOk(s) && Detached(s)
    ensures QueueOk(Released(s))
  {
    assert Held(Released(s)) == Held(Skipped(s)) && Queue(Released(s)) == Queue(s);
    hide Enabled;
  }

  lemma ReleasedUnqueued(s: State)
    requires UnqueuedOk(s) && Detached(s)
    ensures UnqueuedOk(Released(s))
  {
    assert Held(Released(s)) == Held(Skipped(s)) && Queue(Released(s)) == Queue(s);
    hide Queue, Held, Enabled;
    UnqueuedKept(s, Released(s));
  }

  lemma ReleasedOwned(s: State)
    requires Owned(s) && Detached(s)
    ensures Owned(Released(s))
  {
    assert Held(Released(s)) == Held(Skipped(s)) && Queue(Released(s)) == Queue(s);
  }

  /** reset on a one-shot timer: it is freed, and nothing refers to it any more. */
  lemma ReleasePreserves(s: State)
    requires Inv(s) && Enabled(s, ResetsOne) && Detached(s) && !s.heap[NextAddress(s)].repeat
    ensures ResetNext(s) == Ok(Released(s)) && Inv(Released(s))
  {
    hide Sorted, HeapOk, FreedOk, HeldOk, IndexesAgree, QueueOk, UnqueuedOk, Owned;
    ReleasedIndexes(s);
    ReleasedHeld(s);
    ReleasedQueue(s);
    ReleasedUnqueued(s);
    ReleasedOwned(s);
    FreeingOne(s, Released(s), NextAddress(s));
  }

  /** The state in which reset has restarted the timer and is about to insert it. */
  function Restarted(s: State): State
    requires Enabled(s, ResetsOne) && NextAddress(s) in s.heap
  {
    Skipped(s).(heap := s.heap[NextAddress(s) := Restart(s.heap[NextAddress(s)], s.phase.now)])
  }

  lemma RestartedIndexes(s: State)
    requires IndexesAgree(s) && Detached(s)
    ensures IndexesAgree(Restarted(s))
  {
    hide Sorted;
  }

  lemma RestartedMemory(s: State, t: State)
    requires HeapOk(s) && FreedOk(s) && Enabled(s, ResetsOne) && NextAddress(s) in s.heap
    requires t.heap == Restarted(s).heap
    requires t.freed == s.freed && t.count == s.count && t.issued == s.issued
    ensures HeapOk(t) && FreedOk(t)
  {
    assert forall n | n in s.issued :: IsLive(t, n) <==> IsLive(s, n);
  }

  /** t is s after the timer has been restarted and put back into _timers. */
  ghost predicate PutBack(s: State, t: State)
    requires Detached(s)
  {
    && t.heap == Restarted(s).heap && t.phase == Skipped(s).phase && t.count == s.count
    && t.batch == s.batch && t.pending == s.pending && t.unqueued == s.unqueued
    && (forall e :: e in t.timers <==> e == KeyOf(Restarted(s), NextAddress(s)) || e in s.timers)
  }

  lemma PutBackHeld(s: State, t: State)
    requires HeldOk(s) && HeapOk(s) && Detached(s) && s.heap[NextAddress(s)].repeat && PutBack(s, t)
    ensures HeldOk(t)
  {
    hide HeldOk, Held, Queue;
    RestHeldOk(s, t);
  }

  lemma PutBackQueue(s: State, t: State)
    requires QueueOk(s) && UnqueuedOk(s) && Detached(s) && PutBack(s, t)
    ensures QueueOk(t) && UnqueuedOk(t)
  {
    assert Held(t) == Held(Skipped(s)) && Queue(t) == Queue(s);
    UnqueuedKept(s, t);
  }

  lemma PutBackOwned(s: State, t: State)
    requires Owned(s) && Detached(s) && PutBack(s, t)
    ensures Owned(t)
  {
    assert Held(t) == Held(Skipped(s)) && Queue(t) == Queue(s);
  }

  /** reset on a repeating timer: it is back in both indexes, strictly after now. */
  lemma RestartPreserves(s: State)
    requires Inv(s) && Enabled(s, ResetsOne) && Detached(s) && s.heap[NextAddress(s)].repeat
    ensures ResetNext(s) == Ok(Inserted(Restarted(s), NextAddress(s)))
    ensures Inv(Inserted(Restarted(s), NextAddress(s)))
  {
    hide Sorted, HeapOk, FreedOk, HeldOk, IndexesAgree, QueueOk, UnqueuedOk, Owned, Insert, InsertTimer;
    var r := Restarted(s);
    var t := Inserted(r, NextAddress(s));
    RestartedIndexes(s);
    InsertOk(r, NextAddress(s));
    InsertedAgree(r, NextAddress(s));
    RestartedMemory(s, t);
    PutBackHeld(s, t);
    PutBackQueue(s, t);
    PutBackOwned(s, t);
  }

  lemma ResetsOnePreserves(s: State)
    requires Inv(s) && Enabled(s, ResetsOne)
    ensures ResetNext(s).Ok? && Inv(ResetNext(s).value)
  {
    hide Sorted, HeapOk, FreedOk, UnqueuedOk, Owned, ResetNext, HeldOk, QueueOk, IndexesAgree;
    NextDetached(s);
    if s.heap[NextAddress(s)].repeat {
      RestartPreserves(s);
    } else {
      ReleasePreserves(s);
    }
  }

  /** reset ends by arming the timer for the earliest expiration left. */
  lemma FinishesResetPreserves(s: State)
    requires Inv(s) && Enabled(s, FinishesReset)
    ensures FinishReset(s).Ok? && Inv(FinishReset(s).value)
  {
    hide Sorted, HeapOk, FreedOk, QueueOk, UnqueuedOk, Owned;
    assert s.timers != [] ==> s.timers[0] in s.timers;
    var t := FinishReset(s).value;
    hide IndexesAgree;
    assert Held(s) == [] && Held(t) == [];
    Unchanged(s, t);
  }

  lemma SwapPreserves(s: State)
    requires Inv(s) && Enabled(s, SwapFunctors)
    ensures Inv(Step(s, SwapFunctors).value)
  {
    hide Sorted, HeapOk, FreedOk, IndexesAgree, QueueOk, UnqueuedOk, Owned;
    var t := Step(s, SwapFunctors).value;
    assert Queue(t) == Queue(s);
    Unchanged(s, t);
  }

  lemma QuietPreserves(s: State, ev: Event)
    requires Inv(s) && Enabled(s, ev) && (ev.TimerSignals? || ev.PollReturns? || ev.FinishFunctors?)
    ensures Inv(Step(s, ev).value)
  {
    hide Sorted, HeapOk, FreedOk, IndexesAgree, QueueOk, UnqueuedOk, Owned;
    Unchanged(s, Step(s, ev).value);
  }

  /** Every step from a good state succeeds and leads to a good state. */
  lemma StepPreserves(s: State, ev: Event)
    requires Inv(s) && Enabled(s, ev)
    ensures Step(s, ev).Ok? && Inv(Step(s, ev).value)
  {
    hide Inv, Post, Wake, NewTimer, QueueAdd, StartFire, FireNext, ResetNext, FinishReset, RunFunctor;
    match ev
    case Allocates(a, when, interval, n) => AllocatesPreserves(s, a, when, interval, n);
    case PostAdd(a) => QueuesAddPreserves(s, a);
    case PostCancel(id) =>
      PostPreserves(s, CancelFunctor(id));
      WakePreserves(Post(s, CancelFunctor(id)));
    case PostUser => PostPreserves(s, UserFunctor);
    case Wakes => WakePreserves(s);
    case HandleRead(now) => HandleReadPreserves(s, now);
    case CallbackRuns => CallbackRunsPreserves(s);
    case StartReset => StartResetPreserves(s);
    case ResetsOne => ResetsOnePreserves(s);
    case FinishesReset => FinishesResetPreserves(s);
    case SwapFunctors => SwapPreserves(s);
    case RunsFunctor =>
      if s.batch[0].AddFunctor? {
        RunAddPreserves(s, s.batch[0].addr);
      } else if s.batch[0].CancelFunctor? {
        RunCancelPreserves(s, s.batch[0].id);
      } else {
        RunUserPreserves(s);
      }
    case _ => QuietPreserves(s, ev);
  }

  // ---- whole runs

  lemma {:induction false} RunPreserves(s: State, evs: seq<Event>)
    requires Inv(s)
    ensures !Exec(s, evs).Fault?
    ensures Exec(s, evs).Ok? ==> Inv(Exec(s, evs).value)
    decreases |evs|
  {
    hide Inv, Step, Enabled;
    if evs == [] {
    } else {
      StepPreservesIfEnabled(s, evs[0]);
      if Step(s, evs[0]).Ok? {
        RunPreserves(Step(s, evs[0]).value, evs[1..]);
      }
    }
  }

  lemma StepPreservesIfEnabled(s: State, ev: Event)
    requires Inv(s)
    ensures !Step(s, ev).Fault?
    ensures Step(s, ev).Ok? ==> Enabled(s, ev) && Inv(Step(s, ev).value)
  {
    hide Inv, Post, Wake, NewTimer, QueueAdd, StartFire, FireNext, ResetNext, FinishReset, RunFunctor;
    if Enabled(s, ev) {
      StepPreserves(s, ev);
    }
  }

  /** Whatever user code, other threads, the clock and the operating system do: no freed Timer
      is read, run or freed again, and none of the queue's asserts fails. */
  lemma NoRunFaults(evs: seq<Event>)
    ensures !Exec(INITIAL, evs).Fault?
    ensures Exec(INITIAL, evs).Ok? ==> Inv(Exec(INITIAL, evs).value)
  {
    hide Inv, Exec;
    assert Inv(INITIAL) by {
      InitialInv();
    }
    RunPreserves(INITIAL, evs);
  }
}
