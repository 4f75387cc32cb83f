/** What one step of the timer machine does to one timer, and how far the loop thread gets by
    its own steps. */
module TimerProgress {
  import opened Options
  import opened OrderedSet
  import opened TimerSpec
  import opened TimerInvariant
  import opened TimerHistory
  import opened TimerGuarantees

  // ---- what a step adds to the history

  lemma StartKeepsLog(s: State, now: int)
    requires Inv(s)
    ensures var t := StartFire(s, now);
            t.Ok? ==> t.value.fired == s.fired && t.value.freed == s.freed
  {
    hide Sorted, StartFire;
    GetExpiredOk(s, now);
  }

  /** What a step can add to the log: nothing, or one firing of an uncalled timer of the pass. */
  lemma StepFires(s: State, ev: Event)
    requires Inv(s) && Step(s, ev).Ok?
    ensures var t := Step(s, ev).value;
            && s.fired <= t.fired
            && (!ev.CallbackRuns? ==> t.fired == s.fired)
            && (ev.CallbackRuns? ==>
                  && |t.fired| == |s.fired| + 1
                  && IsLive(s, t.fired[|s.fired|].sequence)
                  && KeyOf(s, s.issued[t.fired[|s.fired|].sequence]) in Uncalled(s))
  {
    hide Sorted, QueueOk, UnqueuedOk, Owned, ArmedOk, IndexesAgree, FreedOk;
    if ev.CallbackRuns? {
      UncalledFirst(s);
    } else {
      hide HeapOk, HeldOk, StartFire, ResetNext, RunFunctor;
      if ev.HandleRead? {
        StartKeepsLog(s, ev.now);
      } else if ev.ResetsOne? {
        ResetFrame(s);
      } else if ev.RunsFunctor? {
        FunctorFrame(s);
      }
    }
  }

  lemma StepFrees(s: State, ev: Event)
    requires Inv(s) && Step(s, ev).Ok?
    ensures s.freed <= Step(s, ev).value.freed
  {
    hide Inv, StartFire, ResetNext, RunFunctor;
    if ev.HandleRead? {
      StartKeepsLog(s, ev.now);
    } else if ev.ResetsOne? {
      ResetFrame(s);
    } else if ev.RunsFunctor? {
      FunctorFrame(s);
    }
  }

  lemma StepIssues(s: State, ev: Event)
    requires Inv(s) && Step(s, ev).Ok?
    ensures forall n | n in s.issued :: n in Step(s, ev).value.issued && Step(s, ev).value.issued[n] == s.issued[n]
  {
    InvParts(s);
    hide Inv, FreedOk, IndexesAgree, HeldOk, QueueOk, UnqueuedOk, Owned, ArmedOk, PhaseOk;
    hide StartFire, ResetNext, RunFunctor;
    if ev.HandleRead? {
      GetExpiredOk(s, ev.now);
    } else if ev.RunsFunctor? {
      FunctorFrame(s);
    } else if ev.ResetsOne? {
      ResetFrame(s);
    }
  }

  lemma InvParts(s: State)
    requires Inv(s)
    ensures HeapOk(s) && FreedOk(s) && IndexesAgree(s) && HeldOk(s) && QueueOk(s) && UnqueuedOk(s) && Owned(s)
    ensures ArmedOk(s) && PhaseOk(s)
  {
    hide HeapOk, FreedOk, IndexesAgree, HeldOk, QueueOk, UnqueuedOk, Owned, ArmedOk, PhaseOk;
  }

  // ---- what a step does to one timer

  /** An id addTimer returned: the address and the sequence of one allocation. */
  predicate Genuine(s: State, id: TimerId) {
    id.sequence in s.issued && s.issued[id.sequence] == id.timer
  }

  /** Timer n is alive in both states, at the same address and with the same fields. */
  predicate Kept(s: State, t: State, n: int) {
    IsLive(s, n) && IsLive(t, n) && t.issued[n] == s.issued[n] && t.heap[s.issued[n]] == s.heap[s.issued[n]]
  }

  /** The only steps that touch timer n: its own cancel, if it finds it in _timers, and its turn in
      reset. */
  predicate Touches(s: State, ev: Event, n: int)
    requires IsLive(s, n) && Enabled(s, ev)
  {
    || (ev.RunsFunctor? && s.batch[0] == CancelFunctor(TimerId(s.issued[n], n)) && KeyOf(s, s.issued[n]) in s.timers)
    || (ev.ResetsOne? && NextAddress(s) == s.issued[n])
  }

  lemma RunsIs(s: State)
    requires Enabled(s, RunsFunctor)
    ensures s.phase.RunningFunctors? && s.batch != [] && Step(s, RunsFunctor) == RunFunctor(s)
  {
    hide RunFunctor;
  }

  lemma ResetsIs(s: State)
    requires Enabled(s, ResetsOne)
    ensures s.phase.Resetting? && s.phase.next < |s.phase.expired| && Step(s, ResetsOne) == ResetNext(s)
  {
    hide ResetNext;
  }

  lemma StartsIs(s: State, now: int)
    requires Enabled(s, HandleRead(now))
    ensures s.phase.Dispatching? && s.due && Step(s, HandleRead(now)) == StartFire(s, now)
  {
    hide StartFire;
  }

  lemma ActiveIsIndexed(s: State, p: ActiveTimer)
    requires IndexesAgree(s) && p in s.active
    ensures p.addr in s.heap && s.heap[p.addr].sequence == p.sequence && KeyOf(s, p.addr) in s.timers
  {
    hide Sorted;
  }

  lemma IndexedIsActive(s: State, a: int)
    requires IndexesAgree(s) && a in s.heap && KeyOf(s, a) in s.timers
    ensures ActiveTimer(a, s.heap[a].sequence) in s.active
  {
    hide Sorted;
  }

  /** What running a cancel functor amounts to. */
  lemma RunCancelIs(s: State, id: TimerId)
    requires IndexesAgree(s) && s.batch != [] && s.batch[0] == CancelFunctor(id)
    ensures var s0 := s.(batch := s.batch[1..]);
            if ActiveTimer(id.timer, id.sequence) in s.active
            then id.timer in s.heap && s.heap[id.timer].sequence == id.sequence && KeyOf(s, id.timer) in s.timers
                 && RunFunctor(s) == Ok(Cancelled(s0, id.timer))
            else RunFunctor(s) == Ok(s0)
  {
    var s0 := s.(batch := s.batch[1..]);
    assert RunFunctor(s) == CancelInLoop(s0, id);
    hide RunFunctor, CancelInLoop, Cancelled;
    SameIndexes(s, s0);
    CancelOk(s0, id);
    if ActiveTimer(id.timer, id.sequence) in s.active {
      ActiveIsIndexed(s, ActiveTimer(id.timer, id.sequence));
    }
    hide IndexesAgree;
  }

  /** What running an add functor amounts to. */
  lemma RunAddIs(s: State, a: int)
    requires IndexesAgree(s) && QueueOk(s) && s.batch != [] && s.batch[0] == AddFunctor(a)
    ensures var s0 := s.(batch := s.batch[1..]);
            && a in s.heap && KeyOf(s, a) !in s.timers && RunFunctor(s) == Ok(Added(s0, a))
            && (forall e :: e in Added(s0, a).timers <==> e == KeyOf(s, a) || e in s.timers)
  {
    HeadAdd(s, a);
    var s0 := s.(batch := s.batch[1..]);
    assert RunFunctor(s) == AddTimerInLoop(s0, a);
    hide QueueOk, RunFunctor, AddTimerInLoop, Added;
    SameIndexes(s, s0);
    hide IndexesAgree;
    AddTimerOk(s0, a);
    AddedIndexes(s0, a);
  }

  lemma SameTimer(s: State, t: State, n: int)
    requires IsLive(s, n) && t.heap == s.heap && t.issued == s.issued
    ensures Kept(s, t, n)
  {
  }

  lemma CancelledKeepsOthers(s: State, t: State, a: int, n: int)
    requires IsLive(s, n) && s.issued[n] != a
    requires t.heap == s.heap - {a} && t.issued == s.issued
    ensures Kept(s, t, n)
  {
  }

  lemma AddsKeep(s: State, a: int, n: int)
    requires IndexesAgree(s) && QueueOk(s) && IsLive(s, n) && s.batch != [] && s.batch[0] == AddFunctor(a)
    ensures RunFunctor(s).Ok? && Kept(s, RunFunctor(s).value, n)
  {
    hide IndexesAgree, QueueOk, RunFunctor, Kept, Added;
    RunAddIs(s, a);
    var s0 := s.(batch := s.batch[1..]);
    AddedFrame(s0, a);
    SameTimer(s, Added(s0, a), n);
  }

  lemma CancelsKeep(s: State, id: TimerId, n: int)
    requires IndexesAgree(s) && IsLive(s, n) && s.batch != [] && s.batch[0] == CancelFunctor(id)
    requires id != TimerId(s.issued[n], n) || KeyOf(s, s.issued[n]) !in s.timers
    ensures RunFunctor(s).Ok? && Kept(s, RunFunctor(s).value, n)
  {
    hide IndexesAgree, RunFunctor, Kept;
    RunCancelIs(s, id);
    var s0 := s.(batch := s.batch[1..]);
    if ActiveTimer(id.timer, id.sequence) in s.active {
      CancelledKeepsOthers(s, Cancelled(s0, id.timer), id.timer, n);
    } else {
      SameTimer(s, s0, n);
    }
  }

  /** Running a functor keeps timer n, unless it is n's cancel and finds n in _timers. */
  lemma FunctorsKeep(s: State, n: int)
    requires IndexesAgree(s) && QueueOk(s) && IsLive(s, n) && s.batch != []
    requires s.batch[0] != CancelFunctor(TimerId(s.issued[n], n)) || KeyOf(s, s.issued[n]) !in s.timers
    ensures RunFunctor(s).Ok? && Kept(s, RunFunctor(s).value, n)
  {
    hide IndexesAgree, QueueOk, Kept, AddTimerInLoop, CancelInLoop;
    match s.batch[0]
    case AddFunctor(a) =>
      hide RunFunctor;
      AddsKeep(s, a, n);
    case CancelFunctor(id) =>
      hide RunFunctor;
      CancelsKeep(s, id, n);
    case UserFunctor =>
      SameTimer(s, s.(batch := s.batch[1..]), n);
  }

  lemma RestartKeepsOthers(s: State, n: int)
    requires IsLive(s, n) && Enabled(s, ResetsOne) && NextAddress(s) in s.heap && NextAddress(s) != s.issued[n]
    ensures Kept(s, Inserted(Restarted(s), NextAddress(s)), n)
  {
    hide Insert, Enabled;
  }

  lemma ReleaseKeepsOthers(s: State, n: int)
    requires IsLive(s, n) && Enabled(s, ResetsOne) && NextAddress(s) in s.heap
    ensures NextAddress(s) != s.issued[n] ==> Kept(s, Released(s), n)
    ensures NextAddress(s) == s.issued[n] ==> n in Released(s).freed && s.issued[n] !in Released(s).heap
  {
    hide Enabled;
  }

  lemma NextIsDetached(s: State)
    requires Inv(s) && Enabled(s, ResetsOne)
    ensures Detached(s) && NextAddress(s) in s.heap
  {
    InvParts(s);
    hide Inv, HeapOk, FreedOk, IndexesAgree, HeldOk, QueueOk, UnqueuedOk, Owned, ArmedOk, PhaseOk, Enabled;
    NextDetached(s);
  }

  /** What reset does with its next timer. */
  lemma ResetsTo(s: State) returns (t: State)
    requires Inv(s) && Enabled(s, ResetsOne)
    ensures ResetNext(s) == Ok(t) && NextAddress(s) in s.heap
    ensures t == if s.heap[NextAddress(s)].repeat then Inserted(Restarted(s), NextAddress(s)) else Released(s)
  {
    hide Inv, Detached, Inserted, Released, ResetNext, Enabled;
    NextIsDetached(s);
    if s.heap[NextAddress(s)].repeat {
      RestartPreserves(s);
      t := Inserted(Restarted(s), NextAddress(s));
    } else {
      ReleasePreserves(s);
      t := Released(s);
    }
  }

  lemma ResetsKeep(s: State, n: int) returns (t: State)
    requires Inv(s) && IsLive(s, n) && Enabled(s, ResetsOne)
    ensures ResetNext(s) == Ok(t) && NextAddress(s) in s.heap
    ensures if NextAddress(s) != s.issued[n] then Kept(s, t, n)
            else if s.heap[s.issued[n]].repeat
            then t == Inserted(Restarted(s), s.issued[n])
            else n in t.freed && s.issued[n] !in t.heap
  {
    hide Inv, Inserted, Restarted, Released, ResetNext, Kept, Enabled, NextAddress;
    t := ResetsTo(s);
    if !s.heap[NextAddress(s)].repeat {
      ReleaseKeepsOthers(s, n);
    } else if NextAddress(s) != s.issued[n] {
      RestartKeepsOthers(s, n);
    }
  }

  lemma TimersLive(s: State)
    requires IndexesAgree(s)
    ensures forall e | e in s.timers :: e.addr in s.heap
  {
    hide Sorted;
  }

  lemma StartsKeep(s: State, now: int, n: int)
    requires HeapOk(s) && IndexesAgree(s) && IsLive(s, n)
    ensures StartFire(s, now).Ok? && Kept(s, StartFire(s, now).value, n)
  {
    TimersLive(s);
    hide HeapOk, IndexesAgree, StartFire, Kept;
    GetExpiredOk(s, now);
    SameTimer(s, Started(s, now), n);
  }

  lemma PostsAndMovesKeep(s: State, ev: Event, n: int)
    requires HeapOk(s) && IsLive(s, n) && Step(s, ev).Ok?
    requires !ev.RunsFunctor? && !ev.ResetsOne? && !ev.HandleRead?
    ensures Kept(s, Step(s, ev).value, n)
  {
    hide StartFire, ResetNext, RunFunctor;
  }

  /** A step that does not touch timer n leaves it exactly as it was. */
  lemma OthersKeep(s: State, ev: Event, n: int)
    requires Inv(s) && IsLive(s, n) && Step(s, ev).Ok? && Enabled(s, ev) && !Touches(s, ev, n)
    ensures Kept(s, Step(s, ev).value, n)
  {
    InvParts(s);
    hide Inv, HeapOk, FreedOk, IndexesAgree, HeldOk, QueueOk, UnqueuedOk, Owned, ArmedOk, PhaseOk;
    hide Step, Enabled, Kept;
    if ev.RunsFunctor? {
      RunsIs(s);
      FunctorsKeep(s, n);
    } else if ev.ResetsOne? {
      ResetsIs(s);
      var _ := ResetsKeep(s, n);
    } else if ev.HandleRead? {
      StartsIs(s, ev.now);
      StartsKeep(s, ev.now, n);
    } else {
      PostsAndMovesKeep(s, ev, n);
    }
  }

  lemma CancelledGone(s: State, s0: State, n: int)
    requires IsLive(s, n) && s0.heap == s.heap
    ensures n in Cancelled(s0, s.issued[n]).freed && s.issued[n] !in Cancelled(s0, s.issued[n]).heap
  {
    hide Erase;
  }

  /** A cancel that finds its timer in _timers frees it. */
  lemma CancelFreesIndexed(s: State, id: TimerId)
    requires IndexesAgree(s) && s.batch != [] && s.batch[0] == CancelFunctor(id)
    requires Genuine(s, id) && Indexed(s, id.sequence)
    ensures RunFunctor(s).Ok?
    ensures id.sequence in RunFunctor(s).value.freed && id.timer !in RunFunctor(s).value.heap
  {
    hide IndexesAgree, RunFunctor, Cancelled;
    RunCancelIs(s, id);
    IndexedIsActive(s, id.timer);
    CancelledGone(s, s.(batch := s.batch[1..]), id.sequence);
  }

  // ---- the loop thread by itself

  predicate IsPost(ev: Event) { ev.Allocates? || ev.PostAdd? || ev.PostCancel? || ev.PostUser? || ev.Wakes? }

  ghost predicate LoopOnly(evs: seq<Event>) { forall ev | ev in evs :: !IsPost(ev) }

  /** The loop thread and the OS timer, with nobody posting, can get from s to t. */
  ghost predicate LoopReaches(s: State, t: State) {
    exists evs :: Exec(s, evs) == Ok(t) && LoopOnly(evs)
  }

  lemma LoopStays(s: State)
    ensures LoopReaches(s, s)
  {
    assert Exec(s, []) == Ok(s) && LoopOnly([]);
  }

  lemma LoopVia(s: State, ev: Event, t: State, u: State)
    requires Step(s, ev) == Ok(t) && !IsPost(ev) && LoopReaches(t, u)
    ensures LoopReaches(s, u)
  {
    hide Step, IsPost;
    var evs :| Exec(t, evs) == Ok(u) && LoopOnly(evs);
    assert ([ev] + evs)[1..] == evs;
    assert Exec(s, [ev] + evs) == Ok(u);
  }

  lemma LoopThrough(s: State, t: State, u: State)
    requires LoopReaches(s, t) && LoopReaches(t, u)
    ensures LoopReaches(s, u)
  {
    hide IsPost, Exec;
    var a :| Exec(s, a) == Ok(t) && LoopOnly(a);
    var b :| Exec(t, b) == Ok(u) && LoopOnly(b);
    ExecAppend(s, a, b);
    assert LoopOnly(a + b);
  }

  /** The loop thread's next step inside a pass, and what it leaves alone. */
  function PassEvent(s: State): Event
    requires InPass(s)
  {
    if s.phase.next < |s.phase.expired| then (if s.phase.Firing? then CallbackRuns else ResetsOne)
    else if s.phase.Firing? then StartReset
    else FinishesReset
  }

  lemma PassStep(s: State)
    requires Inv(s) && InPass(s) && !PassEvent(s).FinishesReset?
    ensures Step(s, PassEvent(s)).Ok?
    ensures var t := Step(s, PassEvent(s)).value;
            && Inv(t) && InPass(t) && t.phase.now == s.phase.now && Queue(t) == Queue(s)
            && t.phase.expired == s.phase.expired && (t.phase.Firing? ==> s.phase.Firing?)
            && t.phase.next == (if PassEvent(s).StartReset? then 0 else s.phase.next + 1)
            && (PassEvent(s).StartReset? ==> t.phase.Resetting?)
  {
    hide Inv, ResetNext;
    StepPreserves(s, PassEvent(s));
    if PassEvent(s).ResetsOne? {
      ResetFrame(s);
    }
  }

  /** A pass comes to its end without anybody's help. */
  lemma {:induction false} ToPassEnd(s: State) returns (t: State)
    requires Inv(s) && InPass(s)
    ensures LoopReaches(s, t) && Inv(t) && Enabled(t, FinishesReset)
    ensures t.phase.now == s.phase.now && Queue(t) == Queue(s)
    decreases s.phase.Firing?, if s.phase.next <= |s.phase.expired| then |s.phase.expired| - s.phase.next else 0
  {
    hide Inv, Step, LoopReaches;
    if PassEvent(s).FinishesReset? {
      t := s;
      LoopStays(s);
    } else {
      PassStep(s);
      var u := Step(s, PassEvent(s)).value;
      t := ToPassEnd(u);
      LoopVia(s, PassEvent(s), u, t);
    }
  }

  // ---- the queue

  /** Only posting allocates. */
  ghost predicate NothingNew(s: State, t: State) {
    t.unqueued == s.unqueued && forall a | a in t.heap :: a in s.heap
  }

  lemma StartNothingNew(s: State, now: int)
    requires HeapOk(s) && IndexesAgree(s)
    ensures StartFire(s, now).Ok? && NothingNew(s, StartFire(s, now).value)
  {
    hide StartFire;
    GetExpiredOk(s, now);
    hide HeapOk;
  }

  lemma LoopNothingNew(s: State, ev: Event)
    requires Inv(s) && Step(s, ev).Ok? && !IsPost(ev)
    ensures NothingNew(s, Step(s, ev).value)
  {
    InvParts(s);
    hide Inv, HeapOk, FreedOk, IndexesAgree, StartFire, RunFunctor, ResetNext;
    if ev.HandleRead? {
      StartNothingNew(s, ev.now);
    } else if ev.RunsFunctor? {
      FunctorFrame(s);
    } else if ev.ResetsOne? {
      ResetFrame(s);
    }
  }

  lemma StartKeepsQueue(s: State, now: int)
    requires Inv(s) && StartFire(s, now).Ok?
    ensures Queue(StartFire(s, now).value) == Queue(s)
  {
    InvParts(s);
    hide Inv, StartFire;
    GetExpiredOk(s, now);
  }

  /** The loop thread's other steps leave the queue as it is. */
  lemma MovesKeepQueue(s: State, ev: Event)
    requires Inv(s) && Step(s, ev).Ok? && !IsPost(ev) && !ev.RunsFunctor?
    ensures Queue(Step(s, ev).value) == Queue(s) && Step(s, ev).value.unqueued == s.unqueued
  {
    LoopNothingNew(s, ev);
    InvParts(s);
    hide Inv, HeapOk, FreedOk, IndexesAgree, HeldOk, QueueOk, UnqueuedOk, Owned, ArmedOk, StartFire, ResetNext;
    if ev.ResetsOne? {
      ResetFrame(s);
    } else if ev.HandleRead? {
      StartKeepsQueue(s, ev.now);
    }
  }

  /** f is not the timer's add, and its cancel only if that is what is being posted. */
  predicate MayFollow(f: Functor, ev: Event, id: TimerId) {
    f != AddFunctor(id.timer) && (f == CancelFunctor(id) ==> ev == PostCancel(id))
  }

  /** What a post does to the queue: one functor more, and not the add of a timer that addTimer is
      not holding. */
  lemma PostQueues(s: State, ev: Event, id: TimerId)
    requires HeapOk(s) && IsLive(s, id.sequence) && Genuine(s, id) && id.timer !in s.unqueued
    requires Step(s, ev).Ok? && IsPost(ev)
    ensures var t := Step(s, ev).value;
            && Kept(s, t, id.sequence) && id.timer !in t.unqueued
            && t.phase == s.phase && t.batch == s.batch && t.timers == s.timers && t.due == s.due
            && (Queue(t) == Queue(s) || exists f :: Queue(t) == Queue(s) + [f] && MayFollow(f, ev, id))
  {
    var t := Step(s, ev).value;
    if ev.PostAdd? {
      assert Queue(t) == Queue(s) + [AddFunctor(ev.addr)] && MayFollow(AddFunctor(ev.addr), ev, id);
    } else if ev.PostCancel? {
      assert Queue(t) == Queue(s) + [CancelFunctor(ev.id)] && MayFollow(CancelFunctor(ev.id), ev, id);
    } else if ev.PostUser? {
      assert Queue(t) == Queue(s) + [UserFunctor] && MayFollow(UserFunctor, ev, id);
    }
  }

  // ---- the batch

  /** Whether a timer is in _timers after functor f, if its own add and cancel are all that counts. */
  predicate IndexedBy(f: Functor, indexed: bool, id: TimerId) {
    f == AddFunctor(id.timer) || (indexed && f != CancelFunctor(id))
  }

  predicate IndexedAfter(q: seq<Functor>, indexed: bool, id: TimerId) {
    if q == [] then indexed else IndexedAfter(q[1..], IndexedBy(q[0], indexed, id), id)
  }

  lemma {:induction false} IndexedAfterOne(q: seq<Functor>, f: Functor, indexed: bool, id: TimerId)
    ensures IndexedAfter(q + [f], indexed, id) == IndexedBy(f, IndexedAfter(q, indexed, id), id)
  {
    if q == [] {
      assert [f][1..] == [];
    } else {
      assert (q + [f])[1..] == q[1..] + [f];
      IndexedAfterOne(q[1..], f, IndexedBy(q[0], indexed, id), id);
    }
  }

  /** With the timer's add in the queue, where it begins makes no difference; without, only an add
      could bring it into _timers. */
  lemma {:induction false} AddDecides(q: seq<Functor>, id: TimerId)
    ensures AddFunctor(id.timer) in q ==> IndexedAfter(q, true, id) == IndexedAfter(q, false, id)
    ensures AddFunctor(id.timer) !in q ==> !IndexedAfter(q, false, id)
  {
    if q == [] {
    } else {
      assert forall f :: f in q <==> f == q[0] || f in q[1..];
      AddDecides(q[1..], id);
    }
  }

  lemma {:induction false} OnlyCancelTakesOut(q: seq<Functor>, id: TimerId)
    requires CancelFunctor(id) !in q
    ensures IndexedAfter(q, true, id)
  {
    if q == [] {
    } else {
      assert q[0] in q && forall f | f in q[1..] :: f in q;
      OnlyCancelTakesOut(q[1..], id);
    }
  }

  lemma CancelledKeys(s: State, s0: State, a: int)
    requires IndexesAgree(s) && s0 == s.(batch := s0.batch) && a in s.heap && KeyOf(s, a) in s.timers
    ensures forall e :: e in Cancelled(s0, a).timers <==> e != KeyOf(s, a) && e in s.timers
  {
    hide IndexesAgree, Cancelled;
    SameIndexes(s, s0);
    CancelledIndexes(s0, a);
  }

  lemma CancelSetsIndexed(s: State, other: TimerId, id: TimerId)
    requires IndexesAgree(s) && s.batch != [] && s.batch[0] == CancelFunctor(other)
    requires Genuine(s, id) && IsLive(s, id.sequence)
    requires other != id || KeyOf(s, id.timer) !in s.timers
    ensures RunFunctor(s).Ok? && (KeyOf(s, id.timer) in RunFunctor(s).value.timers <==> KeyOf(s, id.timer) in s.timers)
  {
    hide IndexesAgree, RunFunctor, Cancelled;
    RunCancelIs(s, other);
    if ActiveTimer(other.timer, other.sequence) in s.active {
      CancelledKeys(s, s.(batch := s.batch[1..]), other.timer);
    }
  }

  /** Running a functor puts a timer into _timers or leaves it out exactly as its own add and
      cancel demand. */
  lemma FunctorSetsIndexed(s: State, id: TimerId)
    requires IndexesAgree(s) && QueueOk(s) && s.batch != [] && Genuine(s, id) && IsLive(s, id.sequence)
    requires s.batch[0] != CancelFunctor(id) || !Indexed(s, id.sequence)
    ensures RunFunctor(s).Ok? && Kept(s, RunFunctor(s).value, id.sequence)
    ensures Indexed(RunFunctor(s).value, id.sequence) <==> IndexedBy(s.batch[0], Indexed(s, id.sequence), id)
  {
    FunctorsKeep(s, id.sequence);
    hide IndexesAgree, QueueOk, AddTimerInLoop, CancelInLoop;
    match s.batch[0]
    case AddFunctor(a) =>
      hide RunFunctor, Added;
      RunAddIs(s, a);
    case CancelFunctor(other) =>
      hide RunFunctor;
      CancelSetsIndexed(s, other, id);
    case UserFunctor =>
  }

  /** The timer id names is in _timers, or will be once the batch has run. */
  predicate WillBeIndexed(s: State, id: TimerId) {
    Genuine(s, id) && IsLive(s, id.sequence) && IndexedAfter(s.batch, Indexed(s, id.sequence), id)
  }

  lemma IndexedNotQueued(s: State, id: TimerId)
    requires QueueOk(s) && Genuine(s, id) && Indexed(s, id.sequence)
    ensures AddFunctor(id.timer) !in s.batch
  {
    assert forall i | 0 <= i < |s.batch| :: Queue(s)[i] == s.batch[i];
  }

  lemma NotCancelledFirst(s: State, id: TimerId)
    requires QueueOk(s) && s.batch != [] && WillBeIndexed(s, id)
    ensures s.batch[0] != CancelFunctor(id) || !Indexed(s, id.sequence)
  {
    assert forall f | f in s.batch[1..] :: f in s.batch;
    AddDecides(s.batch[1..], id);
    if Indexed(s, id.sequence) {
      IndexedNotQueued(s, id);
    }
    hide QueueOk;
  }

  lemma FunctorIndexes(s: State, id: TimerId)
    requires IndexesAgree(s) && QueueOk(s) && s.batch != [] && WillBeIndexed(s, id)
    ensures RunFunctor(s).Ok? && WillBeIndexed(RunFunctor(s).value, id)
  {
    hide IndexesAgree, QueueOk, RunFunctor;
    NotCancelledFirst(s, id);
    FunctorSetsIndexed(s, id);
    FunctorFrame(s);
  }

  lemma FinishKeepsIndexed(s: State, id: TimerId)
    requires WillBeIndexed(s, id)
    ensures WillBeIndexed(s.(phase := Polling), id)
  {
  }

  /** The batch runs to its end, and indexes what it is to add. */
  lemma {:induction false} ToBatchEnd(s: State, id: TimerId) returns (t: State)
    requires Inv(s) && s.phase.RunningFunctors?
    ensures LoopReaches(s, t) && Inv(t) && t.phase.Polling?
    ensures t.pending == s.pending && t.batch == [] && t.fired == s.fired && t.event == s.event
    ensures WillBeIndexed(s, id) ==> WillBeIndexed(t, id)
    decreases |s.batch|
  {
    hide Inv, LoopReaches, RunFunctor, WillBeIndexed;
    if s.batch == [] {
      StepPreserves(s, FinishFunctors);
      t := s.(phase := Polling);
      LoopStays(t);
      LoopVia(s, FinishFunctors, t, t);
      if WillBeIndexed(s, id) {
        FinishKeepsIndexed(s, id);
      }
    } else {
      StepPreserves(s, RunsFunctor);
      FunctorFrame(s);
      var u := RunFunctor(s).value;
      if WillBeIndexed(s, id) {
        InvParts(s);
        FunctorIndexes(s, id);
      }
      t := ToBatchEnd(u, id);
      LoopVia(s, RunsFunctor, u, t);
    }
  }

  // ---- a pass that takes a given timer

  lemma StartedFrame(s: State, now: int)
    requires HeapOk(s) && IndexesAgree(s)
    ensures forall e | e in s.timers :: e.addr in s.heap
    ensures var t := Started(s, now);
            && Queue(t) == Queue(s) && t.heap == s.heap && t.issued == s.issued && t.fired == s.fired
            && t.phase.Firing? && t.phase.now == now && t.phase.next == 0
            && (forall e :: e in Uncalled(t) <==> e in s.timers && e.when <= now)
  {
    GetExpiredOk(s, now);
    ExpirySplit(s, now);
    hide HeapOk, IndexesAgree, ExpiredPart, KeptPart, Sorted, StartFire;
    assert Uncalled(Started(s, now)) == ExpiredPart(s.timers, now);
  }

  /** What the start of a pass amounts to. */
  lemma StartedPass(s: State, now: int)
    requires Inv(s) && Enabled(s, HandleRead(now))
    ensures forall e | e in s.timers :: e.addr in s.heap
    ensures Step(s, HandleRead(now)) == TimerSpec.Ok(Started(s, now)) && Inv(Started(s, now))
  {
    hide Step, StartFire, Started, Inv;
    StepPreserves(s, HandleRead(now));
    hide Enabled;
    StartsIs(s, now);
    StartedFrom(s, now);
  }

  lemma StartedFrom(s: State, now: int)
    requires Inv(s)
    ensures forall e | e in s.timers :: e.addr in s.heap
    ensures StartFire(s, now) == TimerSpec.Ok(Started(s, now))
  {
    TimersLive(s);
    hide StartFire, Started, HeapOk, FreedOk, IndexesAgree, HeldOk, QueueOk, UnqueuedOk, Owned, ArmedOk, PhaseOk;
    GetExpiredOk(s, now);
  }

  lemma Signals(s: State) returns (t: State)
    requires Inv(s) && s.phase.Polling? && s.timers != []
    ensures LoopReaches(s, t) && Inv(t) && t == s.(armed := t.armed, signalled := true)
  {
    hide LoopReaches;
    if s.signalled {
      t := s;
      LoopStays(s);
    } else {
      assert s.armed.Some?;
      StepPreserves(s, TimerSignals);
      hide Inv;
      t := s.(armed := None, signalled := true);
      LoopStays(t);
      LoopVia(s, TimerSignals, t, t);
    }
  }

  /** With the timer channel due, handleRead can find any pending timer expired. */
  lemma DueStarts(s: State, id: TimerId) returns (t: State)
    requires Inv(s) && s.phase.Dispatching? && s.due && Genuine(s, id) && Indexed(s, id.sequence)
    ensures LoopReaches(s, t) && Inv(t)
    ensures t.phase.Firing? && t.phase.next == 0 && t.phase.now == s.heap[id.timer].expiration
    ensures t.heap == s.heap && t.issued == s.issued && t.fired == s.fired && Queue(t) == Queue(s)
    ensures forall e :: e in Uncalled(t) <==> e in s.timers && e.when <= t.phase.now
  {
    var now := s.heap[id.timer].expiration;
    InvParts(s);
    hide Inv, HeapOk, FreedOk, IndexesAgree, HeldOk, QueueOk, UnqueuedOk, Owned, ArmedOk, PhaseOk;
    hide LoopReaches, Step, Started, Uncalled;
    StartedPass(s, now);
    StartedFrame(s, now);
    t := Started(s, now);
    LoopStays(t);
    LoopVia(s, HandleRead(now), t, t);
  }

  /** At poll with the wakeup event clear and a timer pending: the OS timer has signalled or can
      signal, poll reports it, and handleRead can find the timer expired. */
  lemma PolledStarts(s: State, id: TimerId) returns (t: State)
    requires Inv(s) && s.phase.Polling? && !s.event && Genuine(s, id) && Indexed(s, id.sequence)
    ensures LoopReaches(s, t) && Inv(t)
    ensures t.phase.Firing? && t.phase.next == 0 && t.phase.now == s.heap[id.timer].expiration
    ensures t.heap == s.heap && t.issued == s.issued && t.fired == s.fired && Queue(t) == Queue(s)
    ensures forall e :: e in Uncalled(t) <==> e in s.timers && e.when <= t.phase.now
  {
    hide Inv, LoopReaches;
    var u := Signals(s);
    StepPreserves(u, PollReturns(true));
    var v := u.(phase := Dispatching, due := true, signalled := false);
    t := DueStarts(v, id);
    LoopVia(u, PollReturns(true), v, t);
    LoopThrough(s, u, t);
  }

  // ---- the way to poll

  /** With nobody posting, the loop thread gets back to poll. */
  lemma ToPolling(s: State) returns (t: State)
    requires Inv(s)
    ensures LoopReaches(s, t) && Inv(t) && t.phase.Polling?
  {
    hide Inv, LoopReaches, StartFire, FinishReset;
    var none := TimerId(0, 0);
    match s.phase
    case Polling =>
      t := s;
      LoopStays(s);
    case RunningFunctors =>
      t := ToBatchEnd(s, none);
    case Dispatching =>
      if s.due {
        StepPreserves(s, HandleRead(0));
        StartsFiring(s, 0);
        var u := Step(s, HandleRead(0)).value;
        t := PassToPolling(u);
        LoopVia(s, HandleRead(0), u, t);
      } else {
        t := SwapToPolling(s);
      }
    case _ =>
      t := PassToPolling(s);
  }

  lemma StartsFiring(s: State, now: int)
    requires StartFire(s, now).Ok?
    ensures StartFire(s, now).value.phase.Firing?
  {
  }

  lemma SwapToPolling(s: State) returns (t: State)
    requires Inv(s) && s.phase.Dispatching? && !s.due
    ensures LoopReaches(s, t) && Inv(t) && t.phase.Polling? && Queue(t) == [] && t.event == s.event
  {
    hide Inv, LoopReaches;
    StepPreserves(s, SwapFunctors);
    var u := Step(s, SwapFunctors).value;
    t := ToBatchEnd(u, TimerId(0, 0));
    LoopVia(s, SwapFunctors, u, t);
  }

  lemma PassToPolling(s: State) returns (t: State)
    requires Inv(s) && InPass(s)
    ensures LoopReaches(s, t) && Inv(t) && t.phase.Polling?
  {
    hide LoopReaches, HeapOk, FreedOk, IndexesAgree, HeldOk, QueueOk, UnqueuedOk, Owned, ArmedOk;
    var u := ToPassEnd(s);
    StepPreserves(u, FinishesReset);
    var v := Step(u, FinishesReset).value;
    assert v.phase.Dispatching? && !v.due;
    hide Inv, Step;
    t := SwapToPolling(v);
    LoopVia(u, FinishesReset, v, t);
    LoopThrough(s, u, t);
  }

  /** From anywhere, with nobody posting, the loop thread comes to poll with an empty queue and the
      wakeup event reset. */
  lemma ToIdle(s: State) returns (t: State)
    requires Inv(s)
    ensures LoopReaches(s, t) && Inv(t) && t.phase.Polling? && Queue(t) == [] && !t.event
  {
    hide Inv, LoopReaches, Queue;
    var u := ToPolling(s);
    StepPreserves(u, PollReturns(false));
    var v := Step(u, PollReturns(false)).value;
    t := SwapToPolling(v);
    LoopVia(u, PollReturns(false), v, t);
    LoopThrough(s, u, t);
  }

  lemma {:induction false} RunGrows(s: State, evs: seq<Event>)
    requires Inv(s) && Exec(s, evs).Ok?
    ensures s.fired <= Exec(s, evs).value.fired
    decreases |evs|
  {
    hide Inv, Step, Enabled;
    if evs == [] {
    } else {
      StepPreservesIfEnabled(s, evs[0]);
      StepFires(s, evs[0]);
      RunGrows(Step(s, evs[0]).value, evs[1..]);
    }
  }
}
