/** What cancelling a timer guarantees, and when it misses the timer's next firing. A functor's or a
    handler's cancel never does, although it is only queued: queueInLoop sets the wakeup event, and
    poll looks at no timer before it has reset that event and the queue has been run. */
module TimerCancel {
  import opened OrderedSet
  import opened TimerSpec
  import opened TimerInvariant
  import opened TimerHistory
  import opened TimerGuarantees
  import opened TimerProgress

  // ---- running a cancel

  lemma CancelledTouches(s: State, s0: State, a: int)
    requires IndexesAgree(s) && s0 == s.(batch := s0.batch) && a in s.heap && KeyOf(s, a) in s.timers
    ensures var t := Cancelled(s0, a);
            && t.heap == s.heap - {a}
            && (forall e :: e in t.timers <==> e in s.timers && !(e.addr in s.heap && e.addr !in t.heap))
  {
    CancelledKeys(s, s0, a);
    KeyedTimers(s);
    hide IndexesAgree, Erase;
  }

  lemma KeyedTimers(s: State)
    requires IndexesAgree(s)
    ensures forall e | e in s.timers :: e.addr in s.heap && e == KeyOf(s, e.addr)
  {
    hide Sorted;
  }

  /** cancelInLoop never touches a timer with another sequence, even one that has since been
      allocated at the same address; with a stale, default or foreign id it changes nothing. */
  lemma CancelTouchesNothingElse(s: State, id: TimerId)
    requires Inv(s) && Enabled(s, RunsFunctor) && s.batch[0] == CancelFunctor(id)
    ensures Step(s, RunsFunctor).Ok?
    ensures var t := Step(s, RunsFunctor).value;
            && (forall a | a in s.heap && s.heap[a].sequence != id.sequence :: a in t.heap && t.heap[a] == s.heap[a])
            && (forall e :: e in t.timers <==> e in s.timers && !(e.addr in s.heap && e.addr !in t.heap))
            && (!IsLive(s, id.sequence) ==> t == s.(batch := s.batch[1..]))
  {
    RunsIs(s);
    InvParts(s);
    hide Inv, FreedOk, IndexesAgree, HeldOk, QueueOk, UnqueuedOk, Owned, ArmedOk, PhaseOk;
    hide Step, RunFunctor, Cancelled;
    RunCancelIs(s, id);
    if ActiveTimer(id.timer, id.sequence) in s.active {
      CancelledTouches(s, s.(batch := s.batch[1..]), id.timer);
    } else {
      KeyedTimers(s);
    }
  }

  // ---- freed timers

  /** Once freed, a timer never fires again, whatever is allocated at its address. */
  lemma {:induction false} FreedNeverFires(s: State, evs: seq<Event>, n: int)
    requires Inv(s) && n in s.freed && Exec(s, evs).Ok?
    ensures var t := Exec(s, evs).value;
            s.fired <= t.fired && forall k | |s.fired| <= k < |t.fired| :: t.fired[k].sequence != n
    decreases |evs|
  {
    hide Inv, Step, Enabled;
    if evs == [] {
    } else {
      StepPreservesIfEnabled(s, evs[0]);
      FreedDoesNotFire(s, evs[0], n);
      StepFires(s, evs[0]);
      StepFrees(s, evs[0]);
      FreedNeverFires(Step(s, evs[0]).value, evs[1..], n);
    }
  }

  lemma FreedIsDead(s: State, n: int)
    requires FreedOk(s) && n in s.freed
    ensures n in s.issued && !IsLive(s, n)
  {
  }

  lemma FreedDoesNotFire(s: State, ev: Event, n: int)
    requires Inv(s) && n in s.freed && Step(s, ev).Ok?
    ensures forall k | |s.fired| <= k < |Step(s, ev).value.fired| :: Step(s, ev).value.fired[k].sequence != n
  {
    InvParts(s);
    FreedIsDead(s, n);
    hide Inv, HeapOk, FreedOk, IndexesAgree, HeldOk, QueueOk, UnqueuedOk, Owned, ArmedOk, PhaseOk, Step, IsLive;
    StepFires(s, ev);
  }

  // ---- a cancel that has been posted

  /** A cancel posted in s misses the timer's next firing: the timer is one of those the current
      pass has taken and not called yet, or addTimer is still holding it, so that the cancel runs
      before the add. */
  predicate Misses(s: State, id: TimerId) {
    var n := id.sequence;
    IsLive(s, n) && (id.timer in s.unqueued || (s.phase.Firing? && KeyOf(s, s.issued[n]) in Uncalled(s)))
  }

  /** The timer is dead, or it has been queued and a cancel waits behind its add. */
  ghost predicate Doomed(s: State, id: TimerId) {
    && Genuine(s, id)
    && (IsLive(s, id.sequence) ==> id.timer !in s.unqueued && !IndexedAfter(Queue(s), true, id))
  }

  lemma DeadStaysDead(s: State, ev: Event, id: TimerId)
    requires Inv(s) && Genuine(s, id) && !IsLive(s, id.sequence) && Step(s, ev).Ok?
    ensures Genuine(Step(s, ev).value, id) && !IsLive(Step(s, ev).value, id.sequence)
  {
    InvParts(s);
    StepPreservesIfEnabled(s, ev);
    InvParts(Step(s, ev).value);
    StepFrees(s, ev);
    StepIssues(s, ev);
    assert id.sequence in s.freed;
    hide Inv, Step, HeapOk, IndexesAgree, HeldOk, QueueOk, UnqueuedOk, Owned, ArmedOk, PhaseOk;
  }

  lemma PostStaysDoomed(s: State, ev: Event, id: TimerId)
    requires HeapOk(s) && Doomed(s, id) && IsLive(s, id.sequence) && Step(s, ev).Ok? && IsPost(ev)
    ensures Doomed(Step(s, ev).value, id)
  {
    PostQueues(s, ev, id);
    hide HeapOk, Step, Queue;
    var t := Step(s, ev).value;
    if Queue(t) != Queue(s) {
      var f :| Queue(t) == Queue(s) + [f] && MayFollow(f, ev, id);
      IndexedAfterOne(Queue(s), f, true, id);
    }
  }

  lemma NotPendingIsQueued(s: State, id: TimerId)
    requires Inv(s) && s.phase.RunningFunctors? && Genuine(s, id) && IsLive(s, id.sequence) && id.timer !in s.unqueued
    requires !Indexed(s, id.sequence)
    ensures AddFunctor(id.timer) in Queue(s)
  {
    assert Held(s) == [];
    hide HeapOk, FreedOk, IndexesAgree, HeldOk, QueueOk, UnqueuedOk, ArmedOk, PhaseOk;
  }

  lemma FunctorStaysDoomed(s: State, id: TimerId)
    requires Inv(s) && s.phase.RunningFunctors? && s.batch != []
    requires Doomed(s, id) && IsLive(s, id.sequence)
    ensures RunFunctor(s).Ok?
    ensures IsLive(RunFunctor(s).value, id.sequence) ==>
              Kept(s, RunFunctor(s).value, id.sequence) && Doomed(RunFunctor(s).value, id)
    ensures IsLive(RunFunctor(s).value, id.sequence) ==>
              (Indexed(RunFunctor(s).value, id.sequence) <==> IndexedBy(s.batch[0], Indexed(s, id.sequence), id))
  {
    InvParts(s);
    hide HeapOk, FreedOk, IndexesAgree, HeldOk, QueueOk, UnqueuedOk, Owned, ArmedOk, PhaseOk, RunFunctor;
    if s.batch[0] == CancelFunctor(id) && Indexed(s, id.sequence) {
      CancelFreesIndexed(s, id);
    } else {
      FunctorSetsIndexed(s, id);
      FunctorFrame(s);
      var t := RunFunctor(s).value;
      assert Queue(s)[0] == s.batch[0] && Queue(t) == Queue(s)[1..];
      if s.batch[0] == CancelFunctor(id) {
        NotPendingIsQueued(s, id);
        hide Inv;
        assert forall f :: f in Queue(s) <==> f == s.batch[0] || f in Queue(t);
        AddDecides(Queue(t), id);
      }
    }
  }

  lemma MoveStaysDoomed(s: State, ev: Event, id: TimerId)
    requires Inv(s) && Doomed(s, id) && Step(s, ev).Ok? && !IsPost(ev) && !ev.RunsFunctor?
    ensures Doomed(Step(s, ev).value, id)
  {
    hide Inv, Step, Queue, IsLive;
    MovesKeepQueue(s, ev);
    StepIssues(s, ev);
    if !IsLive(s, id.sequence) {
      DeadStaysDead(s, ev, id);
    }
  }

  lemma StaysDoomed(s: State, ev: Event, id: TimerId)
    requires Inv(s) && Doomed(s, id) && Step(s, ev).Ok? && Enabled(s, ev)
    ensures Doomed(Step(s, ev).value, id)
  {
    InvParts(s);
    hide Inv, HeapOk, FreedOk, IndexesAgree, HeldOk, QueueOk, UnqueuedOk, Owned, ArmedOk, PhaseOk, Step, Enabled;
    if !IsLive(s, id.sequence) {
      DeadStaysDead(s, ev, id);
    } else if IsPost(ev) {
      PostStaysDoomed(s, ev, id);
    } else if ev.RunsFunctor? {
      RunsIs(s);
      FunctorStaysDoomed(s, id);
      StepIssues(s, ev);
    } else {
      MoveStaysDoomed(s, ev, id);
    }
  }

  lemma {:induction false} RunStaysDoomed(s: State, evs: seq<Event>, id: TimerId)
    requires Inv(s) && Doomed(s, id) && Exec(s, evs).Ok?
    ensures Inv(Exec(s, evs).value) && Doomed(Exec(s, evs).value, id)
    decreases |evs|
  {
    hide Inv, Step, Enabled, Doomed;
    if evs == [] {
    } else {
      StepPreservesIfEnabled(s, evs[0]);
      StaysDoomed(s, evs[0], id);
      RunStaysDoomed(Step(s, evs[0]).value, evs[1..], id);
    }
  }

  lemma PostedIsDoomed(s: State, id: TimerId)
    requires Genuine(s, id) && (IsLive(s, id.sequence) ==> id.timer !in s.unqueued)
    ensures Doomed(Wake(Post(s, CancelFunctor(id))), id)
  {
    var t := Wake(Post(s, CancelFunctor(id)));
    assert Queue(t) == Queue(s) + [CancelFunctor(id)];
    IndexedAfterOne(Queue(s), CancelFunctor(id), true, id);
  }

  /** A cancel posted after addTimer has queued its timer always takes effect: whatever happens in
      between, and whether or not the timer has fired since, once no cancel of that id is left in
      the queue the timer is freed. */
  lemma CancelFrees(s: State, id: TimerId, evs: seq<Event>)
    requires Reachable(s) && Genuine(s, id) && !BeingAdded(s, id.sequence)
    requires Exec(s, [PostCancel(id)] + evs).Ok?
    ensures var t := Exec(s, [PostCancel(id)] + evs).value;
            CancelFunctor(id) in Queue(t) || id.sequence in t.freed
  {
    ReachableInv(s);
    PostedIsDoomed(s, id);
    hide Reachable, HistoryOk, Inv, Doomed;
    assert ([PostCancel(id)] + evs)[1..] == evs;
    StepPreservesIfEnabled(s, PostCancel(id));
    RunStaysDoomed(Wake(Post(s, CancelFunctor(id))), evs, id);
    DoomedWithoutCancel(Exec(s, [PostCancel(id)] + evs).value, id);
  }

  lemma DoomedWithoutCancel(t: State, id: TimerId)
    requires Inv(t) && Doomed(t, id)
    ensures CancelFunctor(id) in Queue(t) || id.sequence in t.freed
  {
    InvParts(t);
    hide Inv, HeapOk, IndexesAgree, HeldOk, QueueOk, UnqueuedOk, Owned, ArmedOk, PhaseOk, Queue;
    if CancelFunctor(id) !in Queue(t) {
      OnlyCancelTakesOut(Queue(t), id);
    }
  }

  // ---- a cancel that does not miss

  /** No callback of the timer can come before the queue is run: at poll and in a functor because
      the wakeup event is set or the timer will not be pending, in a handler because handleRead has
      been called in this round or the timer is not pending, in a pass because its turn is over. */
  predicate Quiet(s: State, id: TimerId) {
    IsLive(s, id.sequence) ==>
      match s.phase
      case Polling => s.event || !Indexed(s, id.sequence)
      case Dispatching => !s.due || !Indexed(s, id.sequence)
      case RunningFunctors => s.event || !IndexedAfter(s.batch, Indexed(s, id.sequence), id)
      case _ => KeyOf(s, s.issued[id.sequence]) !in Uncalled(s)
  }

  ghost predicate Silenced(s: State, id: TimerId) {
    Doomed(s, id) && Quiet(s, id)
  }

  lemma PostStaysQuiet(s: State, ev: Event, id: TimerId)
    requires HeapOk(s) && Genuine(s, id) && id.timer !in s.unqueued && IsLive(s, id.sequence)
    requires Quiet(s, id) && Step(s, ev).Ok? && IsPost(ev)
    ensures Quiet(Step(s, ev).value, id)
  {
    PostQueues(s, ev, id);
    PostSetsEvent(s, ev);
    hide HeapOk, Step, Queue, IsPost;
    assert Uncalled(Step(s, ev).value) == Uncalled(s);
  }

  lemma PostSetsEvent(s: State, ev: Event)
    requires Step(s, ev).Ok? && IsPost(ev)
    ensures s.event ==> Step(s, ev).value.event
  {
  }

  lemma FunctorStaysQuiet(s: State, id: TimerId)
    requires Inv(s) && s.phase.RunningFunctors? && s.batch != []
    requires Silenced(s, id) && IsLive(s, id.sequence)
    ensures RunFunctor(s).Ok? && Quiet(RunFunctor(s).value, id)
  {
    hide Inv, Queue, RunFunctor, Doomed;
    FunctorStaysDoomed(s, id);
    FunctorFrame(s);
  }

  lemma StartStaysQuiet(s: State, now: int, id: TimerId)
    requires Inv(s) && Genuine(s, id) && IsLive(s, id.sequence) && Quiet(s, id) && Enabled(s, HandleRead(now))
    ensures Step(s, HandleRead(now)).Ok? && Quiet(Step(s, HandleRead(now)).value, id)
  {
    StartsIs(s, now);
    StartedPass(s, now);
    InvParts(s);
    StartedFrame(s, now);
    hide Inv, HeapOk, FreedOk, IndexesAgree, HeldOk, QueueOk, UnqueuedOk, Owned, ArmedOk, PhaseOk;
    hide Step, Enabled, Started, Uncalled;
  }

  lemma SwapStaysQuiet(s: State, id: TimerId)
    requires PhaseOk(s) && Enabled(s, SwapFunctors) && Genuine(s, id)
    requires !IndexedAfter(Queue(s), true, id)
    ensures Quiet(Step(s, SwapFunctors).value, id)
  {
    var t := Step(s, SwapFunctors).value;
    assert t.batch == Queue(s);
    AfterFalse(t.batch, Indexed(t, id.sequence), id);
    hide IndexedAfter, Queue, Indexed;
  }

  lemma {:induction false} AfterFalse(q: seq<Functor>, indexed: bool, id: TimerId)
    requires !IndexedAfter(q, true, id)
    ensures !IndexedAfter(q, indexed, id)
  {
    if q == [] {
    } else if IndexedBy(q[0], true, id) == IndexedBy(q[0], indexed, id) {
    } else {
      AfterFalse(q[1..], IndexedBy(q[0], indexed, id), id);
    }
  }

  lemma CallbackStaysQuiet(s: State, id: TimerId)
    requires Enabled(s, CallbackRuns) && FireNext(s).Ok? && Genuine(s, id) && IsLive(s, id.sequence) && Quiet(s, id)
    ensures Quiet(FireNext(s).value, id)
  {
    assert Uncalled(FireNext(s).value) == Uncalled(s)[1..];
    hide IndexedAfter, Indexed;
  }

  /** The other moves: no timer gets a turn it was not waiting for, and poll with the event set
      reports no timer. */
  lemma MoveStaysQuiet(s: State, ev: Event, id: TimerId)
    requires PhaseOk(s) && Genuine(s, id) && IsLive(s, id.sequence) && Quiet(s, id) && Step(s, ev).Ok?
    requires ev.TimerSignals? || ev.PollReturns? || ev.StartReset? || ev.FinishesReset? || ev.FinishFunctors?
    ensures Quiet(Step(s, ev).value, id)
  {
    if ev.FinishFunctors? {
      assert IndexedAfter(s.batch, Indexed(s, id.sequence), id) == Indexed(s, id.sequence);
    }
    hide IndexedAfter;
  }

  lemma ResetStaysQuiet(s: State, id: TimerId)
    requires Enabled(s, ResetsOne) && ResetNext(s).Ok?
    ensures Quiet(ResetNext(s).value, id)
  {
    ResetFrame(s);
    hide ResetNext;
  }

  lemma StaysSilenced(s: State, ev: Event, id: TimerId)
    requires Inv(s) && Silenced(s, id) && Step(s, ev).Ok? && Enabled(s, ev)
    ensures Silenced(Step(s, ev).value, id)
  {
    InvParts(s);
    hide Inv, HeapOk, FreedOk, IndexesAgree, HeldOk, QueueOk, UnqueuedOk, Owned, ArmedOk, PhaseOk;
    hide StartFire, FireNext, ResetNext, RunFunctor;
    StaysDoomed(s, ev, id);
    if !IsLive(s, id.sequence) {
      DeadStaysDead(s, ev, id);
    } else if IsPost(ev) {
      PostStaysQuiet(s, ev, id);
    } else if ev.RunsFunctor? {
      FunctorStaysQuiet(s, id);
    } else if ev.ResetsOne? {
      ResetStaysQuiet(s, id);
    } else if ev.HandleRead? {
      StartStaysQuiet(s, ev.now, id);
    } else if ev.SwapFunctors? {
      SwapStaysQuiet(s, id);
    } else if ev.CallbackRuns? {
      CallbackStaysQuiet(s, id);
    } else {
      MoveStaysQuiet(s, ev, id);
    }
  }

  predicate FiresAgain(s: State, t: State, n: int) {
    exists k :: |s.fired| <= k < |t.fired| && t.fired[k].sequence == n
  }

  /** A silenced timer never fires again, whatever else happens. */
  lemma {:induction false} SilencedNeverFires(s: State, evs: seq<Event>, id: TimerId)
    requires Inv(s) && Silenced(s, id) && Exec(s, evs).Ok?
    ensures var t := Exec(s, evs).value;
            s.fired <= t.fired && forall k | |s.fired| <= k < |t.fired| :: t.fired[k].sequence != id.sequence
    decreases |evs|
  {
    hide Inv, Step, Enabled, Silenced;
    if evs == [] {
    } else {
      StepPreservesIfEnabled(s, evs[0]);
      StepFires(s, evs[0]);
      SilencedDoesNotFire(s, evs[0], id);
      StaysSilenced(s, evs[0], id);
      SilencedNeverFires(Step(s, evs[0]).value, evs[1..], id);
    }
  }

  lemma SilencedDoesNotFire(s: State, ev: Event, id: TimerId)
    requires Inv(s) && Silenced(s, id) && Step(s, ev).Ok?
    ensures forall k | |s.fired| <= k < |Step(s, ev).value.fired| :: Step(s, ev).value.fired[k].sequence != id.sequence
  {
    StepFires(s, ev);
    if ev.CallbackRuns? {
      assert s.phase.Firing?;
    }
    hide Inv, Step, Queue, Uncalled;
  }

  // ---- the runs in which it does fire again

  /** Letting the callbacks run reaches every uncalled entry of the pass. */
  lemma {:induction false} FireThrough(s: State, j: nat) returns (t: State)
    requires Inv(s) && s.phase.Firing? && s.phase.next <= j < |s.phase.expired|
    requires s.phase.expired[j].addr in s.heap
    ensures LoopReaches(s, t) && FiresAgain(s, t, s.heap[s.phase.expired[j].addr].sequence)
    decreases j - s.phase.next
  {
    StepPreservesIfEnabled(s, CallbackRuns);
    InvParts(s);
    UncalledFirst(s);
    hide Inv, LoopReaches, HeapOk, FreedOk, IndexesAgree, HeldOk, QueueOk, UnqueuedOk, Owned, ArmedOk, PhaseOk;
    var u := Step(s, CallbackRuns).value;
    if j == s.phase.next {
      t := u;
      LoopStays(u);
      assert t.fired[|s.fired|].sequence == s.heap[s.phase.expired[j].addr].sequence;
    } else {
      t := FireThrough(u, j);
    }
    LoopVia(s, CallbackRuns, u, t);
  }

  lemma UncalledFires(s: State, id: TimerId) returns (t: State)
    requires Inv(s) && Genuine(s, id) && IsLive(s, id.sequence) && KeyOf(s, id.timer) in Uncalled(s)
    ensures LoopReaches(s, t) && FiresAgain(s, t, id.sequence)
  {
    hide Inv, LoopReaches, FiresAgain;
    var i :| 0 <= i < |Uncalled(s)| && Uncalled(s)[i] == KeyOf(s, id.timer);
    t := FireThrough(s, s.phase.next + i);
  }

  lemma FiresLater(s: State, u: State, t: State, n: int)
    requires LoopReaches(s, u) && LoopReaches(u, t) && u.fired == s.fired && FiresAgain(u, t, n)
    ensures LoopReaches(s, t) && FiresAgain(s, t, n)
  {
    hide LoopReaches;
    LoopThrough(s, u, t);
  }

  lemma PolledFires(s: State, id: TimerId) returns (t: State)
    requires Inv(s) && s.phase.Polling? && !s.event && Genuine(s, id) && Indexed(s, id.sequence)
    ensures LoopReaches(s, t) && FiresAgain(s, t, id.sequence)
  {
    hide Inv, LoopReaches, FiresAgain, Uncalled;
    var u := PolledStarts(s, id);
    t := UncalledFires(u, id);
    FiresLater(s, u, t, id.sequence);
  }

  // ---- a timer that addTimer is still holding

  lemma HeldIsUntouched(s: State, ev: Event, n: int)
    requires Inv(s) && IsLive(s, n) && s.issued[n] in s.unqueued && Step(s, ev).Ok? && Enabled(s, ev)
    ensures !Touches(s, ev, n)
  {
    InvParts(s);
    hide Inv, HeapOk, FreedOk, IndexesAgree, HeldOk, QueueOk, Owned, ArmedOk, PhaseOk, Step;
    if ev.ResetsOne? {
      NextIsDetached(s);
    }
  }

  lemma {:induction false} RunKeepsHeld(s: State, evs: seq<Event>, n: int)
    requires Inv(s) && IsLive(s, n) && s.issued[n] in s.unqueued && Exec(s, evs).Ok? && LoopOnly(evs)
    ensures Kept(s, Exec(s, evs).value, n) && s.issued[n] in Exec(s, evs).value.unqueued
    decreases |evs|
  {
    hide Inv, Step, Enabled, IsPost;
    if evs == [] {
    } else {
      assert evs[0] in evs && forall ev | ev in evs[1..] :: ev in evs;
      StepPreservesIfEnabled(s, evs[0]);
      HeldIsUntouched(s, evs[0], n);
      OthersKeep(s, evs[0], n);
      LoopNothingNew(s, evs[0]);
      RunKeepsHeld(Step(s, evs[0]).value, evs[1..], n);
    }
  }

  lemma LoopKeepsHeld(s: State, t: State, n: int)
    requires Inv(s) && IsLive(s, n) && s.issued[n] in s.unqueued && LoopReaches(s, t)
    ensures Kept(s, t, n) && s.issued[n] in t.unqueued && s.fired <= t.fired
  {
    hide Inv, Exec, IsPost, Kept;
    var evs :| Exec(s, evs) == TimerSpec.Ok(t) && LoopOnly(evs);
    RunKeepsHeld(s, evs, n);
    RunGrows(s, evs);
  }

  ghost predicate CanReach(s: State, t: State) {
    exists evs :: Exec(s, evs) == TimerSpec.Ok(t)
  }

  lemma LoopCanReach(s: State, t: State)
    requires LoopReaches(s, t)
    ensures CanReach(s, t)
  {
    hide Exec;
  }

  lemma ReachVia(s: State, ev: Event, t: State, u: State)
    requires Step(s, ev) == TimerSpec.Ok(t) && CanReach(t, u)
    ensures CanReach(s, u)
  {
    hide Step;
    var evs :| Exec(t, evs) == TimerSpec.Ok(u);
    assert ([ev] + evs)[1..] == evs;
    assert Exec(s, [ev] + evs) == TimerSpec.Ok(u);
  }

  lemma ReachThrough(s: State, t: State, u: State)
    requires CanReach(s, t) && CanReach(t, u)
    ensures CanReach(s, u)
  {
    hide Exec;
    var a :| Exec(s, a) == TimerSpec.Ok(t);
    var b :| Exec(t, b) == TimerSpec.Ok(u);
    ExecAppend(s, a, b);
  }

  /** At poll with an empty queue and the event clear: addTimer queues its timer, the loop adds it,
      and it fires. */
  lemma IdleThenFires(s: State, id: TimerId) returns (t: State)
    requires Inv(s) && s.phase.Polling? && Queue(s) == [] && !s.event
    requires Genuine(s, id) && BeingAdded(s, id.sequence)
    ensures CanReach(s, t) && FiresAgain(s, t, id.sequence)
  {
    hide Inv, LoopReaches, CanReach, FiresAgain;
    StepPreserves(s, PostAdd(id.timer));
    var u := QueueAdd(s, id.timer);
    StepPreserves(u, PollReturns(false));
    var v := u.(phase := Dispatching, due := false);
    StepPreserves(v, SwapFunctors);
    var w := v.(phase := RunningFunctors, batch := [AddFunctor(id.timer)], pending := []);
    assert v.pending == [AddFunctor(id.timer)];
    assert IndexedAfter([AddFunctor(id.timer)], Indexed(w, id.sequence), id) by {
      assert [AddFunctor(id.timer)][1..] == [];
    }
    var x := ToBatchEnd(w, id);
    assert IndexedAfter([], Indexed(x, id.sequence), id) == Indexed(x, id.sequence);
    t := PolledFires(x, id);
    FiresLater(w, x, t, id.sequence);
    LoopCanReach(w, t);
    FiresSame(s, w, t, id.sequence);
    ReachVia(v, SwapFunctors, w, t);
    ReachVia(u, PollReturns(false), v, t);
    ReachVia(s, PostAdd(id.timer), u, t);
  }

  lemma FiresSame(s: State, u: State, t: State, n: int)
    requires FiresAgain(u, t, n) && s.fired <= u.fired
    ensures FiresAgain(s, t, n)
  {
  }

  lemma HeldFires(s: State, id: TimerId) returns (t: State)
    requires Inv(s) && Genuine(s, id) && BeingAdded(s, id.sequence)
    ensures CanReach(s, t) && FiresAgain(s, t, id.sequence)
  {
    hide Inv, LoopReaches, CanReach, FiresAgain, Queue;
    var u := ToIdle(s);
    LoopKeepsHeld(s, u, id.sequence);
    t := IdleThenFires(u, id);
    LoopCanReach(s, u);
    ReachThrough(s, u, t);
    FiresSame(s, u, t, id.sequence);
  }

  lemma MissesFires(s: State, id: TimerId) returns (t: State)
    requires Inv(s) && Genuine(s, id) && Misses(s, id)
    ensures CanReach(s, t) && FiresAgain(s, t, id.sequence)
  {
    hide Inv, LoopReaches, CanReach, FiresAgain, Uncalled;
    if id.timer in s.unqueued {
      t := HeldFires(s, id);
    } else {
      t := UncalledFires(s, id);
      LoopCanReach(s, t);
    }
  }

  // ---- the exact condition

  lemma SilencedMeansNever(s: State, evs: seq<Event>, id: TimerId)
    requires Inv(s) && Silenced(s, id) && Exec(s, evs).Ok?
    ensures !FiresAgain(s, Exec(s, evs).value, id.sequence)
  {
    hide Inv, Silenced, Exec;
    SilencedNeverFires(s, evs, id);
  }

  lemma PostCancelLeaves(s: State, id: TimerId)
    requires Genuine(s, id)
    ensures var t := Wake(Post(s, CancelFunctor(id)));
            Genuine(t, id) && (Misses(t, id) <==> Misses(s, id))
  {
    assert Uncalled(Wake(Post(s, CancelFunctor(id)))) == Uncalled(s);
  }

  lemma PostedIsSilenced(s: State, id: TimerId)
    requires Genuine(s, id) && Enabled(s, PostCancel(id)) && !Misses(s, id)
    ensures Silenced(Wake(Post(s, CancelFunctor(id))), id)
  {
    PostedIsDoomed(s, id);
    assert Uncalled(Wake(Post(s, CancelFunctor(id)))) == Uncalled(s);
    hide Doomed;
  }

  /** From s, some run fires timer n once more. */
  ghost predicate CanFireAgain(s: State, n: int) {
    exists evs :: Exec(s, evs).Ok? && FiresAgain(s, Exec(s, evs).value, n)
  }

  lemma MissingMeansAgain(s: State, id: TimerId)
    requires Inv(s) && Genuine(s, id) && Misses(s, id)
    ensures CanFireAgain(s, id.sequence)
  {
    hide Inv, Misses, FiresAgain, Exec;
    var t := MissesFires(s, id);
    var evs :| Exec(s, evs) == TimerSpec.Ok(t);
    assert FiresAgain(s, Exec(s, evs).value, id.sequence);
  }

  lemma InTimeMeansNever(s: State, id: TimerId)
    requires Inv(s) && Silenced(s, id)
    ensures !CanFireAgain(s, id.sequence)
  {
    hide Inv, Silenced, FiresAgain, Exec;
    forall evs | Exec(s, evs).Ok?
      ensures !FiresAgain(s, Exec(s, evs).value, id.sequence)
    {
      SilencedMeansNever(s, evs, id);
    }
  }

  /** Cancelling, from wherever user code runs on the loop thread: after the cancel is posted some
      run fires the timer once more if and only if the cancel misses. */
  lemma CancelIsInTimeIff(s: State, id: TimerId)
    requires Reachable(s) && Genuine(s, id) && Enabled(s, PostCancel(id))
    ensures Step(s, PostCancel(id)).Ok?
    ensures CanFireAgain(Step(s, PostCancel(id)).value, id.sequence) <==> Misses(s, id)
  {
    ReachableInv(s);
    StepPreserves(s, PostCancel(id));
    PostCancelLeaves(s, id);
    assert Step(s, PostCancel(id)) == TimerSpec.Ok(Wake(Post(s, CancelFunctor(id))));
    hide Reachable, HistoryOk, Inv, Misses, CanFireAgain, Enabled, Step;
    if Misses(s, id) {
      MissingMeansAgain(Wake(Post(s, CancelFunctor(id))), id);
    } else {
      PostedIsSilenced(s, id);
      InTimeMeansNever(Wake(Post(s, CancelFunctor(id))), id);
    }
  }

  /** So from a handler, a functor, or outside loop, a cancel of a timer that addTimer has queued is
      always in time, though it waits in the queue: the timer never fires again. */
  lemma CancelOutsidePassIsInTime(s: State, id: TimerId, evs: seq<Event>)
    requires Reachable(s) && Genuine(s, id) && Enabled(s, PostCancel(id))
    requires !InPass(s) && !BeingAdded(s, id.sequence)
    requires Exec(s, [PostCancel(id)] + evs).Ok?
    ensures !FiresAgain(s, Exec(s, [PostCancel(id)] + evs).value, id.sequence)
  {
    ReachableInv(s);
    StepPreserves(s, PostCancel(id));
    PostedIsSilenced(s, id);
    assert ([PostCancel(id)] + evs)[1..] == evs;
    hide Reachable, HistoryOk, Inv, Silenced, Enabled;
    SilencedMeansNever(Wake(Post(s, CancelFunctor(id))), evs, id);
  }

  lemma CalledIsNotUncalled(s: State, j: nat)
    requires HeldOk(s) && s.phase.Firing? && j < s.phase.next <= |s.phase.expired|
    ensures s.phase.expired[j] !in Uncalled(s)
  {
    forall i | 0 <= i < |Uncalled(s)|
      ensures Uncalled(s)[i] != s.phase.expired[j]
    {
      assert Less(s.phase.expired[j], s.phase.expired[s.phase.next + i]);
    }
  }

  /** A callback that cancels its own timer, or one called earlier in the pass, is in time too. */
  lemma CancelOfCalledIsInTime(s: State, j: nat)
    requires Reachable(s) && s.phase.Firing? && j < s.phase.next <= |s.phase.expired|
    ensures s.phase.expired[j].addr in s.heap
    ensures var a := s.phase.expired[j].addr;
            var id := TimerId(a, s.heap[a].sequence);
            && Genuine(s, id) && Step(s, PostCancel(id)).Ok?
            && !CanFireAgain(Step(s, PostCancel(id)).value, id.sequence)
  {
    ReachableInv(s);
    InvParts(s);
    HeldIsAdded(s, j);
    var a := s.phase.expired[j].addr;
    var id := TimerId(a, s.heap[a].sequence);
    CalledIsNotUncalled(s, j);
    hide Reachable, HistoryOk, Inv, HeapOk, FreedOk, IndexesAgree, HeldOk, QueueOk, UnqueuedOk, Owned, ArmedOk, PhaseOk;
    hide CanFireAgain, Uncalled;
    CancelIsInTimeIff(s, id);
  }

  lemma HeldIsAdded(s: State, j: nat)
    requires Inv(s) && s.phase.Firing? && j < |s.phase.expired|
    ensures var e := s.phase.expired[j];
            && e.addr in s.heap && e == KeyOf(s, e.addr) && e.addr !in s.unqueued
            && Genuine(s, TimerId(e.addr, s.heap[e.addr].sequence)) && IsLive(s, s.heap[e.addr].sequence)
  {
    assert s.phase.expired[j] in Held(s);
    hide Sorted, FreedOk, IndexesAgree, QueueOk, Owned, ArmedOk;
  }

  // ---- the smallest case of a cancel that misses

  const ONE_SHOTS: map<int, Timer> := map[1 := Timer(0, 0, false, 1), 2 := Timer(0, 0, false, 2)]

  lemma ReachNext(s: State, ev: Event, t: State)
    requires CanReach(INITIAL, s) && Step(s, ev) == TimerSpec.Ok(t)
    ensures CanReach(INITIAL, t)
  {
    hide Step, CanReach;
    assert CanReach(t, t) by { ReachSelf(t); }
    ReachVia(s, ev, t, t);
    ReachThrough(INITIAL, s, t);
  }

  lemma ReachSelf(s: State)
    ensures CanReach(s, s)
  {
    assert Exec(s, []) == TimerSpec.Ok(s);
  }

  /** Two timers for time 0 have been added from outside loop, and their adds are the batch. */
  lemma TwoQueued() returns (s: State)
    ensures CanReach(INITIAL, s) && s.phase.RunningFunctors? && s.batch == [AddFunctor(1), AddFunctor(2)] && !s.event
    ensures s.heap == ONE_SHOTS && s.issued == map[1 := 1, 2 := 2] && s.fired == [] && s.timers == []
  {
    var s1 := NewTimer(INITIAL, 1, 0, 0, 1);
    var s2 := QueueAdd(s1, 1);
    var s3 := NewTimer(s2, 2, 0, 0, 2);
    var s4 := QueueAdd(s3, 2);
    var s5 := s4.(phase := Dispatching);
    s := s5.(phase := RunningFunctors, batch := s5.pending, pending := []);
    assert s4.pending == [AddFunctor(1), AddFunctor(2)];
    assert s.heap == ONE_SHOTS && s.issued == map[1 := 1, 2 := 2];
    assert Step(INITIAL, Allocates(1, 0, 0, 1)) == TimerSpec.Ok(s1) && Step(s1, PostAdd(1)) == TimerSpec.Ok(s2);
    assert Step(s2, Allocates(2, 0, 0, 2)) == TimerSpec.Ok(s3) && Step(s3, PostAdd(2)) == TimerSpec.Ok(s4);
    assert Step(s4, PollReturns(false)) == TimerSpec.Ok(s5) && Step(s5, SwapFunctors) == TimerSpec.Ok(s);
    hide Step, CanReach;
    ReachSelf(INITIAL);
    ReachNext(INITIAL, Allocates(1, 0, 0, 1), s1);
    ReachNext(s1, PostAdd(1), s2);
    ReachNext(s2, Allocates(2, 0, 0, 2), s3);
    ReachNext(s3, PostAdd(2), s4);
    ReachNext(s4, PollReturns(false), s5);
    ReachNext(s5, SwapFunctors, s);
  }

  lemma ReachedInv(s: State)
    requires CanReach(INITIAL, s)
    ensures Inv(s) && Reachable(s)
  {
    assert Reachable(s);
    ReachableInv(s);
    hide Reachable, Inv, HistoryOk;
  }

  lemma AddsTimer(s: State, id: TimerId, other: TimerId) returns (t: State)
    requires CanReach(INITIAL, s) && s.phase.RunningFunctors? && s.batch != [] && s.batch[0] == AddFunctor(id.timer)
    requires Genuine(s, id) && IsLive(s, id.sequence) && Genuine(s, other) && IsLive(s, other.sequence)
    ensures CanReach(INITIAL, t) && Framed(s.(batch := s.batch[1..]), t)
    ensures Kept(s, t, id.sequence) && Kept(s, t, other.sequence)
    ensures Indexed(t, id.sequence) && (Indexed(s, other.sequence) ==> Indexed(t, other.sequence))
  {
    ReachedInv(s);
    InvParts(s);
    StepPreserves(s, RunsFunctor);
    RunsIs(s);
    hide Inv, HeapOk, FreedOk, IndexesAgree, HeldOk, QueueOk, UnqueuedOk, Owned, ArmedOk, PhaseOk;
    hide Step, Enabled, RunFunctor, CanReach, Reachable;
    FunctorSetsIndexed(s, id);
    FunctorSetsIndexed(s, other);
    FunctorFrame(s);
    t := RunFunctor(s).value;
    ReachNext(s, RunsFunctor, t);
  }

  /** Both timers are pending, and the loop is at poll. */
  lemma TwoPending() returns (s: State)
    ensures CanReach(INITIAL, s) && s.phase.Polling? && !s.event && s.fired == []
    ensures Genuine(s, TimerId(1, 1)) && Genuine(s, TimerId(2, 2)) && Indexed(s, 1) && Indexed(s, 2)
    ensures s.heap == ONE_SHOTS && s.issued == map[1 := 1, 2 := 2]
  {
    hide CanReach;
    var s1 := TwoQueued();
    var s2 := AddsTimer(s1, TimerId(1, 1), TimerId(2, 2));
    var s3 := AddsTimer(s2, TimerId(2, 2), TimerId(1, 1));
    s := s3.(phase := Polling);
    assert s3.batch == [];
    assert Step(s3, FinishFunctors) == TimerSpec.Ok(s);
    ReachNext(s3, FinishFunctors, s);
    assert s.heap == ONE_SHOTS;
  }

  /** A pass takes both timers. */
  lemma BothTaken() returns (s: State)
    ensures CanReach(INITIAL, s) && s.phase.Firing? && s.phase.next == 0 && s.phase.now == 0 && s.fired == []
    ensures s.heap == ONE_SHOTS && s.issued == map[1 := 1, 2 := 2]
    ensures Entry(0, 1) in Uncalled(s) && Entry(0, 2) in Uncalled(s)
  {
    hide Inv, CanReach, LoopReaches, Uncalled, Reachable;
    var t := TwoPending();
    ReachedInv(t);
    s := PolledStarts(t, TimerId(2, 2));
    LoopCanReach(t, s);
    ReachThrough(INITIAL, t, s);
    assert KeyOf(t, 1) == Entry(0, 1) && KeyOf(t, 2) == Entry(0, 2);
  }

  /** The first one's callback is running. */
  lemma FirstOfTwo() returns (s: State)
    ensures CanReach(INITIAL, s) && s.phase.Firing? && s.phase.next == 1 && s.fired == [Fired(1, 0, 0, 0)]
    ensures Genuine(s, TimerId(2, 2)) && IsLive(s, 2) && KeyOf(s, 2) in Uncalled(s)
  {
    hide Inv, CanReach, Reachable, HeapOk, FreedOk, IndexesAgree, QueueOk, UnqueuedOk, Owned, ArmedOk, PhaseOk;
    var u := BothTaken();
    ReachedInv(u);
    InvParts(u);
    FirstIsOne(u);
    hide HeldOk;
    s := FireNext(u).value;
    assert Step(u, CallbackRuns) == FireNext(u);
    hide Step;
    ReachNext(u, CallbackRuns, s);
    assert Uncalled(u) == [Entry(0, 1)] + Uncalled(s);
  }

  lemma FirstIsOne(u: State)
    requires HeldOk(u) && u.phase.Firing? && u.phase.next == 0 && u.heap == ONE_SHOTS
    requires Entry(0, 1) in Uncalled(u) && Entry(0, 2) in Uncalled(u)
    ensures u.phase.expired != [] && u.phase.expired[0] == Entry(0, 1)
  {
    var expired := u.phase.expired;
    assert Uncalled(u) == expired && Held(u) == expired;
    var i :| 0 <= i < |expired| && expired[i] == Entry(0, 1);
    assert i > 0 ==> Less(expired[0], expired[i]);
    assert expired[0] in Held(u);
  }

  /** A callback cancels a timer that expired with its own and comes later in the pass: that timer
      is still called. */
  lemma CallbackCancelMisses() returns (s: State)
    ensures Reachable(s) && s.phase.Firing? && s.phase.next == 1 && s.fired == [Fired(1, 0, 0, 0)]
    ensures Misses(s, TimerId(2, 2)) && Step(s, PostCancel(TimerId(2, 2))).Ok?
    ensures CanFireAgain(Step(s, PostCancel(TimerId(2, 2))).value, 2)
  {
    s := FirstOfTwo();
    ReachedInv(s);
    hide Inv, CanReach, Reachable, CanFireAgain, Uncalled;
    CancelIsInTimeIff(s, TimerId(2, 2));
  }
}
