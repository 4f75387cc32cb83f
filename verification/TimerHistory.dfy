/** What the log of firings looks like after any run. */
module TimerHistory {
  import opened OrderedSet
  import opened TimerSpec
  import opened TimerInvariant

  /** The entries of the current pass whose callbacks have run and which reset has not dealt with. */
  function Called(s: State): seq<Entry> {
    match s.phase
    case Firing(_, expired, next, _) => if next <= |expired| then expired[..next] else []
    case Resetting(_, expired, next, _) => if next <= |expired| then expired[next..] else []
    case _ => []
  }

  /** The entries of the current pass whose callbacks are still to run. */
  function Uncalled(s: State): seq<Entry> {
    match s.phase
    case Firing(_, expired, next, _) => if next <= |expired| then expired[next..] else []
    case _ => []
  }

  /** How firing f constrains the timer that fired, while that timer is alive. */
  ghost predicate Respected(s: State, f: Fired) {
    IsLive(s, f.sequence) ==>
      var a := s.issued[f.sequence];
      && s.heap[a].interval == f.interval
      && a !in s.unqueued && AddFunctor(a) !in Queue(s)
      && (KeyOf(s, a) in s.timers || KeyOf(s, a) in Uncalled(s) ==>
          f.interval > 0 && f.now + f.interval <= s.heap[a].expiration)
      && (KeyOf(s, a) in Called(s) ==> f.now <= s.phase.now)
  }

  /** The log itself: nothing early, and repeats at least an interval apart. */
  ghost predicate LogOk(fired: seq<Fired>) {
    && (forall f | f in fired :: f.expiration <= f.now)
    && (forall i, j | 0 <= i < j < |fired| && fired[i].sequence == fired[j].sequence ::
      && fired[i].interval == fired[j].interval > 0
      && fired[i].now + fired[i].interval <= fired[j].now)
  }

  ghost predicate HistoryOk(s: State) {
    && LogOk(s.fired)
    && (forall f | f in s.fired :: f.sequence in s.issued && Respected(s, f))
  }

  lemma InitialHistory()
    ensures HistoryOk(INITIAL)
  {
  }

  /** Every step that is not a firing leaves the log, and what it demands, alone. */
  lemma PostHistory(s: State, f: Functor)
    requires HistoryOk(s) && !f.AddFunctor?
    ensures HistoryOk(Post(s, f))
  {
    var t := Post(s, f);
    assert Queue(t) == Queue(s) + [f];
    forall g | g in s.fired
      ensures Respected(t, g)
    {
      assert Respected(s, g);
    }
  }

  lemma WakeHistory(s: State)
    requires HistoryOk(s)
    ensures HistoryOk(Wake(s))
  {
    hide HistoryOk;
    var t := Wake(s);
    assert Queue(t) == Queue(s) && Called(t) == Called(s) && Uncalled(t) == Uncalled(s);
    ShrinkHistory(s, t);
  }

  lemma AllocatesHistory(s: State, a: int, when: int, interval: int, n: int)
    requires HistoryOk(s) && HeapOk(s) && Enabled(s, Allocates(a, when, interval, n))
    ensures HistoryOk(NewTimer(s, a, when, interval, n))
  {
    var t := NewTimer(s, a, when, interval, n);
    assert Queue(t) == Queue(s);
    forall g | g in s.fired
      ensures Respected(t, g)
    {
      assert Respected(s, g);
    }
  }

  lemma QueuesAddHistory(s: State, a: int)
    requires HistoryOk(s) && HeapOk(s) && Enabled(s, PostAdd(a))
    ensures HistoryOk(QueueAdd(s, a))
  {
    var t := QueueAdd(s, a);
    assert Queue(t) == Queue(s) + [AddFunctor(a)];
    forall g | g in s.fired
      ensures Respected(t, g)
    {
      assert Respected(s, g);
    }
  }

  lemma AddRespects(s: State, t: State, a: int, g: Fired)
    requires Respected(s, g) && s.phase.RunningFunctors?
    requires a in s.heap && AddFunctor(a) in Queue(s)
    requires t.heap == s.heap && t.issued == s.issued && t.phase == s.phase
    requires t.unqueued <= s.unqueued && forall f | f in Queue(t) :: f in Queue(s)
    requires forall e | e in t.timers :: e == KeyOf(s, a) || e in s.timers
    ensures Respected(t, g)
  {
  }

  lemma QueueTail(s: State)
    requires s.batch != []
    ensures s.batch[0] in Queue(s)
    ensures forall f | f in Queue(s.(batch := s.batch[1..])) :: f in Queue(s)
  {
    assert Queue(s)[0] == s.batch[0];
    assert Queue(s.(batch := s.batch[1..])) == Queue(s)[1..];
  }

  lemma AddHistory(s: State, t: State, a: int)
    requires HistoryOk(s) && t.fired == s.fired && s.phase.RunningFunctors?
    requires a in s.heap && AddFunctor(a) in Queue(s)
    requires t.heap == s.heap && t.issued == s.issued && t.phase == s.phase
    requires t.unqueued <= s.unqueued && forall f | f in Queue(t) :: f in Queue(s)
    requires forall e | e in t.timers :: e == KeyOf(s, a) || e in s.timers
    ensures HistoryOk(t)
  {
    hide LogOk;
    hide Respected;
    forall g | g in s.fired
      ensures Respected(t, g)
    {
      AddRespects(s, t, a, g);
    }
  }

  lemma RunAddHistory(s: State, a: int)
    requires Inv(s) && HistoryOk(s) && Enabled(s, RunsFunctor) && s.batch[0] == AddFunctor(a)
    ensures RunFunctor(s).Ok? && HistoryOk(RunFunctor(s).value)
  {
    hide Sorted, HeapOk, FreedOk, IndexesAgree, HeldOk, QueueOk, UnqueuedOk, Owned, ArmedOk;
    hide HistoryOk, AddTimerInLoop, Added;
    var s0 := s.(batch := s.batch[1..]);
    SameIndexes(s, s0);
    HeadAdd(s, a);
    AddTimerOk(s0, a);
    AddedIndexes(s0, a);
    QueueTail(s);
    AddedFrame(s0, a);
    AddHistory(s, Added(s0, a), a);
  }

  lemma AddedFrame(s: State, a: int)
    requires a in s.heap
    ensures var t := Added(s, a);
            && Queue(t) == Queue(s) && t.heap == s.heap && t.issued == s.issued && t.unqueued == s.unqueued
            && t.phase == s.phase && t.fired == s.fired
  {
    hide Insert;
  }

  /** A step that only takes timers away, or leaves them alone, demands nothing new. */
  lemma ShrinkRespects(s: State, t: State, g: Fired)
    requires Respected(s, g)
    requires t.issued == s.issued && forall a | a in t.heap :: a in s.heap && t.heap[a] == s.heap[a]
    requires t.unqueued <= s.unqueued && forall f | f in Queue(t) :: f in Queue(s)
    requires forall e | e in t.timers || e in Uncalled(t) :: e in s.timers || e in Uncalled(s)
    requires forall e | e in Called(t) :: e in Called(s) && t.phase.now == s.phase.now
    ensures Respected(t, g)
  {
  }

  lemma ShrinkHistory(s: State, t: State)
    requires HistoryOk(s) && t.fired == s.fired
    requires t.issued == s.issued && forall a | a in t.heap :: a in s.heap && t.heap[a] == s.heap[a]
    requires t.unqueued <= s.unqueued && forall f | f in Queue(t) :: f in Queue(s)
    requires forall e | e in t.timers || e in Uncalled(t) :: e in s.timers || e in Uncalled(s)
    requires forall e | e in Called(t) :: e in Called(s) && t.phase.now == s.phase.now
    ensures HistoryOk(t)
  {
    hide LogOk;
    hide Respected;
    forall g | g in s.fired
      ensures Respected(t, g)
    {
      ShrinkRespects(s, t, g);
    }
  }

  lemma RunCancelHistory(s: State, id: TimerId)
    requires Inv(s) && HistoryOk(s) && Enabled(s, RunsFunctor) && s.batch[0] == CancelFunctor(id)
    ensures RunFunctor(s).Ok? && HistoryOk(RunFunctor(s).value)
  {
    hide Sorted, HeapOk, FreedOk, UnqueuedOk, Owned, HistoryOk, CancelInLoop, Erase, QueueOk, HeldOk, ArmedOk;
    var s0 := s.(batch := s.batch[1..]);
    SameIndexes(s, s0);
    CancelOk(s0, id);
    QueueTail(s);
    if ActiveTimer(id.timer, id.sequence) in s0.active {
      assert KeyOf(s0, id.timer) in s0.timers;
      CancelledIndexes(s0, id.timer);
      assert Queue(Cancelled(s0, id.timer)) == Queue(s0);
      hide IndexesAgree;
      ShrinkHistory(s, Cancelled(s0, id.timer));
    } else {
      hide IndexesAgree;
      ShrinkHistory(s, s0);
    }
  }

  lemma HandleReadHistory(s: State, now: int)
    requires Inv(s) && HistoryOk(s) && Enabled(s, HandleRead(now))
    ensures StartFire(s, now).Ok? && HistoryOk(StartFire(s, now).value)
  {
    hide Sorted, HistoryOk, FreedOk, HeldOk, QueueOk, UnqueuedOk, Owned, ArmedOk, StartFire;
    GetExpiredOk(s, now);
    StartedKeys(s, now);
    ExpirySplit(s, now);
    hide HeapOk, IndexesAgree, ExpiredPart, KeptPart;
    var t := Started(s, now);
    assert Queue(t) == Queue(s) && Called(t) == [];
    ShrinkHistory(s, t);
  }

  lemma QuietHistory(s: State, ev: Event)
    requires Inv(s) && HistoryOk(s) && Enabled(s, ev)
    requires ev.TimerSignals? || ev.PollReturns? || ev.SwapFunctors? || ev.FinishFunctors? || ev.StartReset?
    ensures HistoryOk(Step(s, ev).value)
  {
    hide Sorted, HistoryOk, FreedOk, QueueOk, UnqueuedOk, Owned, ArmedOk, HeapOk, IndexesAgree;
    var t := Step(s, ev).value;
    assert Queue(t) == Queue(s);
    if ev.StartReset? {
      assert Called(t) == Called(s);
    }
    ShrinkHistory(s, t);
  }

  lemma FinishesResetHistory(s: State)
    requires Inv(s) && HistoryOk(s) && Enabled(s, FinishesReset)
    ensures FinishReset(s).Ok? && HistoryOk(FinishReset(s).value)
  {
    FinishesResetPreserves(s);
    hide Sorted, HistoryOk, FreedOk, QueueOk, UnqueuedOk, Owned, ArmedOk, HeapOk, IndexesAgree, HeldOk;
    ShrinkHistory(s, FinishReset(s).value);
  }

  // ---- the firing itself

  /** Running a callback appends a firing that the earlier ones allow. */
  lemma LogGrows(fired: seq<Fired>, f: Fired)
    requires LogOk(fired) && f.expiration <= f.now
    requires forall g | g in fired && g.sequence == f.sequence ::
      g.interval == f.interval && g.interval > 0 && g.now + g.interval <= f.now
    ensures LogOk(fired + [f])
  {
  }

  lemma UncalledFirst(s: State)
    requires HeldOk(s) && Enabled(s, CallbackRuns)
    ensures var e := s.phase.expired[s.phase.next];
            && e in Uncalled(s) && e in Held(s) && e.addr in s.heap && KeyOf(s, e.addr) == e
            && e.when <= s.phase.now && e !in s.timers
  {
    assert Uncalled(s)[0] == s.phase.expired[s.phase.next];
  }

  lemma CalledNext(s: State)
    requires Sorted(Held(s)) && Enabled(s, CallbackRuns)
    ensures var t := FireNext(s);
            t.Ok? ==>
              && (forall e :: e in Called(t.value) <==> e in Called(s) || e == s.phase.expired[s.phase.next])
              && (forall e | e in Uncalled(t.value) :: e in Uncalled(s) && e != s.phase.expired[s.phase.next])
  {
    if FireNext(s).Ok? {
      var t := FireNext(s).value;
      var e := s.phase.expired[s.phase.next];
      assert Called(t) == Called(s) + [e];
      assert Uncalled(s) == [e] + Uncalled(t);
      forall x | x in Uncalled(t)
        ensures x != e
      {
        var i :| 0 <= i < |Uncalled(t)| && Uncalled(t)[i] == x;
        assert Less(s.phase.expired[s.phase.next], s.phase.expired[s.phase.next + 1 + i]);
      }
    }
  }

  lemma FireRespects(s: State, t: State, g: Fired, e: Entry)
    requires Respected(s, g) && Enabled(s, CallbackRuns) && e.addr in s.heap && KeyOf(s, e.addr) == e
    requires e in Uncalled(s) && e !in s.timers && e.when <= s.phase.now
    requires t.issued == s.issued && t.heap == s.heap && t.timers == s.timers && Queue(t) == Queue(s)
    requires t.unqueued == s.unqueued && t.phase.Firing? && t.phase.now == s.phase.now
    requires forall x | x in Called(t) :: x in Called(s) || x == e
    requires forall x | x in Uncalled(t) :: x in Uncalled(s) && x != e
    ensures Respected(t, g)
  {
  }

  lemma CallbackRunsHistory(s: State)
    requires Inv(s) && HistoryOk(s) && Enabled(s, CallbackRuns)
    ensures FireNext(s).Ok? && HistoryOk(FireNext(s).value)
  {
    hide Sorted, FreedOk, Owned, ArmedOk, IndexesAgree, LogOk;
    UncalledFirst(s);
    CalledNext(s);
    var t := FireNext(s).value;
    var e := s.phase.expired[s.phase.next];
    var f := t.fired[|s.fired|];
    assert t.fired == s.fired + [f];
    assert Queue(t) == Queue(s);
    FiringAllowed(s, e);
    LogGrows(s.fired, f);
    FiredRespected(s, t, f, e);
    hide HeapOk, QueueOk, UnqueuedOk, HeldOk;
    forall g | g in s.fired
      ensures Respected(t, g)
    {
      FireRespects(s, t, g, e);
    }
  }

  /** All earlier firings of the timer about to fire lie at least an interval back. */
  lemma FiringAllowed(s: State, e: Entry)
    requires HeapOk(s) && HistoryOk(s) && s.phase.Firing?
    requires e in Uncalled(s) && e.addr in s.heap && KeyOf(s, e.addr) == e && e.when <= s.phase.now
    ensures forall g | g in s.fired && g.sequence == s.heap[e.addr].sequence ::
      g.interval == s.heap[e.addr].interval && g.interval > 0 && g.now + g.interval <= s.phase.now
  {
    forall g | g in s.fired && g.sequence == s.heap[e.addr].sequence
      ensures g.interval == s.heap[e.addr].interval && g.interval > 0 && g.now + g.interval <= s.phase.now
    {
      assert Respected(s, g);
    }
  }

  lemma FiredRespected(s: State, t: State, f: Fired, e: Entry)
    requires HeapOk(s) && QueueOk(s) && UnqueuedOk(s) && s.phase.Firing?
    requires e in Held(s) && e !in s.timers && e.addr in s.heap && KeyOf(s, e.addr) == e
    requires t.issued == s.issued && t.heap == s.heap && t.timers == s.timers && Queue(t) == Queue(s)
    requires t.unqueued == s.unqueued && t.phase.Firing? && t.phase.now == s.phase.now
    requires forall x | x in Uncalled(t) :: x != e
    requires f == Fired(s.heap[e.addr].sequence, s.heap[e.addr].interval, e.when, s.phase.now)
    ensures f.sequence in t.issued && Respected(t, f)
  {
    assert AddFunctor(e.addr) !in Queue(s);
  }

  // ---- reset

  lemma CalledRest(s: State)
    requires Enabled(s, ResetsOne)
    ensures s.phase.expired[s.phase.next] in Called(s)
    ensures Called(Skipped(s)) == Held(Skipped(s)) && Called(s) == Held(s) && Uncalled(Skipped(s)) == []
  {
    assert Called(s)[0] == s.phase.expired[s.phase.next];
  }

  lemma ReleasedHistory(s: State)
    requires HistoryOk(s) && Detached(s)
    ensures HistoryOk(Released(s))
  {
    hide HistoryOk;
    CalledRest(s);
    var t := Released(s);
    assert Queue(t) == Queue(s) && Called(t) == Called(Skipped(s)) && Uncalled(t) == [];
    ShrinkHistory(s, t);
  }

  lemma PutBackRespects(s: State, t: State, g: Fired)
    requires Detached(s) && s.heap[NextAddress(s)].repeat
    requires s.phase.expired[s.phase.next] == KeyOf(s, NextAddress(s))
    requires HeapOk(s) && PutBack(s, t) && t.issued == s.issued
    requires Respected(s, g) && g.sequence in s.issued
    ensures Respected(t, g)
  {
    CalledRest(s);
    assert Queue(t) == Queue(s) && Called(t) == Called(Skipped(s)) && Uncalled(t) == [];
  }

  lemma PutBackHistory(s: State, t: State)
    requires Detached(s) && s.heap[NextAddress(s)].repeat
    requires s.phase.expired[s.phase.next] == KeyOf(s, NextAddress(s))
    requires HeapOk(s) && PutBack(s, t) && t.issued == s.issued && t.fired == s.fired
    requires HistoryOk(s)
    ensures HistoryOk(t)
  {
    hide LogOk, Respected;
    hide HeapOk, Detached, PutBack;
    forall g | g in s.fired
      ensures Respected(t, g)
    {
      PutBackRespects(s, t, g);
    }
  }

  lemma ResetsOneHistory(s: State)
    requires Inv(s) && HistoryOk(s) && Enabled(s, ResetsOne)
    ensures ResetNext(s).Ok? && HistoryOk(ResetNext(s).value)
  {
    hide Sorted, HeapOk, FreedOk, UnqueuedOk, Owned, ResetNext, QueueOk, IndexesAgree, HistoryOk, Insert;
    NextDetached(s);
    assert s.phase.expired[s.phase.next] == KeyOf(s, NextAddress(s)) by {
      CalledRest(s);
    }
    if s.heap[NextAddress(s)].repeat {
      RestartPreserves(s);
      var t := Inserted(Restarted(s), NextAddress(s));
      RestartedIndexes(s);
      InsertedAgree(Restarted(s), NextAddress(s));
      PutBackHistory(s, t);
    } else {
      ReleasePreserves(s);
      ReleasedHistory(s);
    }
  }

  // ---- whole runs

  lemma StepHistory(s: State, ev: Event)
    requires Inv(s) && HistoryOk(s) && Step(s, ev).Ok?
    ensures HistoryOk(Step(s, ev).value)
  {
    hide HistoryOk, Post, Wake, NewTimer, QueueAdd, StartFire, FireNext, ResetNext, FinishReset;
    match ev
    case Allocates(a, when, interval, n) => AllocatesHistory(s, a, when, interval, n) by { assert HeapOk(s); }
    case PostAdd(a) => QueuesAddHistory(s, a) by { assert HeapOk(s); }
    case PostCancel(id) =>
      PostHistory(s, CancelFunctor(id));
      WakeHistory(Post(s, CancelFunctor(id)));
    case PostUser => PostHistory(s, UserFunctor);
    case Wakes => WakeHistory(s);
    case HandleRead(now) => HandleReadHistory(s, now);
    case CallbackRuns => CallbackRunsHistory(s);
    case ResetsOne => ResetsOneHistory(s);
    case FinishesReset => FinishesResetHistory(s);
    case RunsFunctor =>
      hide Inv;
      if s.batch[0].AddFunctor? {
        RunAddHistory(s, s.batch[0].addr);
      } else if s.batch[0].CancelFunctor? {
        RunCancelHistory(s, s.batch[0].id);
      } else {
        RunUserHistory(s);
      }
    case _ => QuietHistory(s, ev);
  }

  lemma RunUserHistory(s: State)
    requires Inv(s) && HistoryOk(s) && Enabled(s, RunsFunctor) && s.batch[0].UserFunctor?
    ensures RunFunctor(s).Ok? && HistoryOk(RunFunctor(s).value)
  {
    hide Inv, HistoryOk;
    QueueTail(s);
    ShrinkHistory(s, s.(batch := s.batch[1..]));
  }

  lemma {:induction false} RunHistory(s: State, evs: seq<Event>)
    requires Inv(s) && HistoryOk(s) && Exec(s, evs).Ok?
    ensures Inv(Exec(s, evs).value) && HistoryOk(Exec(s, evs).value)
    decreases |evs|
  {
    hide Inv, HistoryOk, Step, Enabled;
    if evs == [] {
    } else {
      StepPreservesIfEnabled(s, evs[0]);
      StepHistory(s, evs[0]);
      RunHistory(Step(s, evs[0]).value, evs[1..]);
    }
  }
}
