/** Timers fire when addTimer was asked to have them fire. */
module TimerSchedule {
  import opened Options
  import opened OrderedSet
  import opened TimerSpec
  import opened TimerInvariant
  import opened TimerHistory
  import opened TimerGuarantees
  import opened TimerProgress
  import opened TimerCancel

  /** When timer n is to fire next, after the firings in the log: first at `when`, later an interval
      after the pass that called it last. */
  function Due(fired: seq<Fired>, n: int, when: int, interval: int): int {
    if fired == [] then when else
    var last := fired[|fired| - 1];
    if last.sequence == n then last.now + interval else Due(fired[..|fired| - 1], n, when, interval)
  }

  /** No firing of timer n. */
  ghost predicate NoneOf(fired: seq<Fired>, n: int) { forall f | f in fired :: f.sequence != n }

  ghost predicate OnSchedule(fired: seq<Fired>, n: int, when: int, interval: int) {
    forall i | 0 <= i < |fired| && fired[i].sequence == n ::
      fired[i].interval == interval && fired[i].expiration == Due(fired[..i], n, when, interval)
  }

  /** Timer n has fired when it was due, and its Timer holds the time it is due next; between its
      callback and its turn in reset, reset is yet to write that time. */
  ghost predicate Scheduled(s: State, n: int, when: int, interval: int) {
    && n in s.issued && OnSchedule(s.fired, n, when, interval)
    && (IsLive(s, n) ==>
      var a, due := s.issued[n], Due(s.fired, n, when, interval);
      && s.heap[a].interval == interval
      && if KeyOf(s, a) in Called(s)
         then due == s.phase.now + interval && !NoneOf(s.fired, n)
         else due == s.heap[a].expiration)
  }

  lemma DueAfter(fired: seq<Fired>, f: Fired, n: int, when: int, interval: int)
    ensures Due(fired + [f], n, when, interval)
         == if f.sequence == n then f.now + interval else Due(fired, n, when, interval)
    ensures NoneOf(fired + [f], n) <==> NoneOf(fired, n) && f.sequence != n
  {
    assert forall g :: g in fired + [f] <==> g in fired || g == f;
    assert (fired + [f])[..|fired|] == fired;
  }

  lemma ScheduleGrows(fired: seq<Fired>, f: Fired, n: int, when: int, interval: int)
    requires OnSchedule(fired, n, when, interval)
    requires f.sequence == n ==> f.interval == interval && f.expiration == Due(fired, n, when, interval)
    ensures OnSchedule(fired + [f], n, when, interval)
  {
    hide Due;
    forall i | 0 <= i <= |fired| && (fired + [f])[i].sequence == n
      ensures (fired + [f])[i].interval == interval
      ensures (fired + [f])[i].expiration == Due((fired + [f])[..i], n, when, interval)
    {
      assert (fired + [f])[..i] == fired[..i];
    }
  }

  // ---- what a step does to the called entries

  /** The one step that calls an entry and the one that is done with an entry. */
  lemma CalledMoves(s: State, t: State)
    requires InPass(s) && s.phase.next < |s.phase.expired|
    requires t.phase == s.phase.(next := s.phase.next + 1)
    ensures s.phase.Firing? ==> Called(t) == Called(s) + [s.phase.expired[s.phase.next]]
    ensures s.phase.Resetting? ==> Called(s) == [s.phase.expired[s.phase.next]] + Called(t)
  {
  }

  /** No other step changes which entries are called: it stays in its phase, or it moves between
      phases without a called entry. */
  lemma PhaseMoves(s: State, ev: Event)
    requires Inv(s) && Step(s, ev).Ok? && !ev.CallbackRuns? && !ev.ResetsOne?
    ensures var t := Step(s, ev).value;
            || t.phase == s.phase
            || (!InPass(s) && (t.phase.Firing? ==> t.phase.next == 0) && !t.phase.Resetting?)
            || (s.phase.Firing? && s.phase.next >= |s.phase.expired|
                && t.phase == Resetting(s.phase.now, s.phase.expired, 0, s.phase.base))
            || (s.phase.Resetting? && s.phase.next >= |s.phase.expired| && !InPass(t))
  {
    hide Inv, StartFire, ResetNext, RunFunctor;
    if ev.HandleRead? {
      StartsFirst(s, ev.now);
    } else if ev.RunsFunctor? {
      FunctorFrame(s);
    }
  }

  lemma SameCalled(s: State, t: State)
    requires InPass(s) ==> s.phase.next <= |s.phase.expired|
    requires || t.phase == s.phase
             || (!InPass(s) && (t.phase.Firing? ==> t.phase.next == 0) && !t.phase.Resetting?)
             || (s.phase.Firing? && s.phase.next == |s.phase.expired|
                 && t.phase == Resetting(s.phase.now, s.phase.expired, 0, s.phase.base))
             || (s.phase.Resetting? && s.phase.next == |s.phase.expired| && !InPass(t))
    ensures Called(t) == Called(s) && (Called(t) != [] ==> InPass(s) && t.phase.now == s.phase.now)
  {
  }

  lemma CalledStays(s: State, ev: Event)
    requires Inv(s) && Step(s, ev).Ok? && !ev.CallbackRuns? && !ev.ResetsOne?
    ensures var t := Step(s, ev).value;
            Called(t) == Called(s) && (Called(t) != [] ==> InPass(s) && t.phase.now == s.phase.now)
  {
    PhaseMoves(s, ev);
    NextInRange(s);
    hide Inv, StartFire, ResetNext, RunFunctor, Step, Called;
    SameCalled(s, Step(s, ev).value);
  }

  lemma NextInRange(s: State)
    requires Inv(s)
    ensures InPass(s) ==> s.phase.next <= |s.phase.expired|
  {
    InvParts(s);
    hide Inv, HeapOk, FreedOk, IndexesAgree, QueueOk, UnqueuedOk, Owned, ArmedOk, PhaseOk, Sorted, Held;
  }

  lemma StartsFirst(s: State, now: int)
    requires StartFire(s, now).Ok?
    ensures StartFire(s, now).value.phase == Firing(now, ExpiredPart(s.timers, now), 0, |s.fired|)
  {
    hide GetExpired, ExpiredPart;
  }

  // ---- the step

  /** Nothing of timer n's has changed, and it is called or not as before. */
  lemma SameSchedule(s: State, t: State, n: int, when: int, interval: int)
    requires Scheduled(s, n, when, interval) && Kept(s, t, n) && t.fired == s.fired
    requires KeyOf(s, s.issued[n]) in Called(t) <==> KeyOf(s, s.issued[n]) in Called(s)
    requires KeyOf(s, s.issued[n]) in Called(t) ==> t.phase.now == s.phase.now
    ensures Scheduled(t, n, when, interval)
  {
    hide Due, OnSchedule, Called;
  }

  lemma CallbackIs(s: State)
    requires Inv(s) && Enabled(s, CallbackRuns)
    ensures s.phase.Firing? && s.phase.next < |s.phase.expired|
    ensures var e := s.phase.expired[s.phase.next];
            && e.addr in s.heap && KeyOf(s, e.addr) == e && e !in Called(s)
            && s.heap[e.addr].sequence in s.issued && s.issued[s.heap[e.addr].sequence] == e.addr
            && Step(s, CallbackRuns).Ok?
            && var t := Step(s, CallbackRuns).value;
               && t.heap == s.heap && t.issued == s.issued
               && t.phase == Firing(s.phase.now, s.phase.expired, s.phase.next + 1, s.phase.base)
               && var timer := s.heap[e.addr];
                  t.fired == s.fired + [Fired(timer.sequence, timer.interval, timer.expiration, s.phase.now)]
  {
    InvParts(s);
    hide Inv, FreedOk, IndexesAgree, QueueOk, UnqueuedOk, Owned, ArmedOk, PhaseOk;
    UncalledFirst(s);
    var i := s.phase.next;
    assert forall j | 0 <= j < i :: Less(s.phase.expired[j], s.phase.expired[i]);
  }

  lemma CallbackScheduled(s: State, n: int, when: int, interval: int)
    requires Inv(s) && Scheduled(s, n, when, interval) && Enabled(s, CallbackRuns)
    ensures Step(s, CallbackRuns).Ok? && Scheduled(Step(s, CallbackRuns).value, n, when, interval)
  {
    CallbackIs(s);
    var t := Step(s, CallbackRuns).value;
    CalledMoves(s, t);
    hide Inv, Step, Enabled, Called, Due, OnSchedule;
    DueAfter(s.fired, t.fired[|s.fired|], n, when, interval);
    ScheduleGrows(s.fired, t.fired[|s.fired|], n, when, interval);
  }

  /** The rest of reset's timers wait as before. */
  lemma WaitingScheduled(s: State, t: State, n: int, when: int, interval: int)
    requires Scheduled(s, n, when, interval) && IsLive(s, n) && Kept(s, t, n) && t.fired == s.fired
    requires InPass(t) && InPass(s) && t.phase.now == s.phase.now
    requires exists e :: Called(s) == [e] + Called(t) && e.addr != s.issued[n]
    ensures Scheduled(t, n, when, interval)
  {
    hide Due, OnSchedule, Called;
  }

  /** Reset writes the time that was due. */
  lemma RenewedScheduled(s: State, t: State, n: int, when: int, interval: int)
    requires Scheduled(s, n, when, interval) && IsLive(s, n) && KeyOf(s, s.issued[n]) in Called(s)
    requires InPass(t) && InPass(s) && t.phase.now == s.phase.now && t.fired == s.fired && t.issued == s.issued
    requires s.heap[s.issued[n]].repeat && s.issued[n] in t.heap
    requires t.heap[s.issued[n]] == Restart(s.heap[s.issued[n]], s.phase.now)
    ensures Scheduled(t, n, when, interval)
  {
    hide Due, OnSchedule, Called;
  }

  lemma GoneScheduled(s: State, t: State, n: int, when: int, interval: int)
    requires Scheduled(s, n, when, interval) && t.fired == s.fired && n in t.issued && !IsLive(t, n)
    ensures Scheduled(t, n, when, interval)
  {
    hide Due, OnSchedule;
  }

  lemma ResetScheduled(s: State, n: int, when: int, interval: int)
    requires Inv(s) && Scheduled(s, n, when, interval) && IsLive(s, n) && Enabled(s, ResetsOne)
    ensures Step(s, ResetsOne).Ok? && Scheduled(Step(s, ResetsOne).value, n, when, interval)
  {
    ResetsIs(s);
    var t := ResetsKeep(s, n);
    ResetFrame(s);
    CalledMoves(s, t);
    var e := s.phase.expired[s.phase.next];
    if NextAddress(s) != s.issued[n] {
      hide Inv, Step, Enabled, ResetNext, Kept, Scheduled, Called;
      WaitingScheduled(s, t, n, when, interval);
    } else if s.heap[s.issued[n]].repeat {
      NextIsCalled(s);
      hide Inv, Step, Enabled, ResetNext, Kept, Scheduled, Called, Insert;
      RenewedScheduled(s, t, n, when, interval);
    } else {
      hide Inv, Step, Enabled, ResetNext, Kept, Scheduled, Called;
      GoneScheduled(s, t, n, when, interval);
    }
  }

  lemma NextIsCalled(s: State)
    requires Inv(s) && Enabled(s, ResetsOne)
    ensures NextAddress(s) in s.heap && KeyOf(s, NextAddress(s)) in Called(s)
  {
    InvParts(s);
    hide Inv, HeapOk, FreedOk, IndexesAgree, QueueOk, UnqueuedOk, Owned, ArmedOk, PhaseOk, Sorted;
    CalledRest(s);
  }

  lemma DeadScheduled(s: State, ev: Event, n: int, when: int, interval: int)
    requires Inv(s) && Scheduled(s, n, when, interval) && !IsLive(s, n) && Step(s, ev).Ok?
    ensures Scheduled(Step(s, ev).value, n, when, interval)
  {
    var t := Step(s, ev).value;
    DeadStaysDead(s, ev, TimerId(s.issued[n], n));
    if ev.CallbackRuns? {
      CallbackScheduled(s, n, when, interval);
    } else {
      StepFires(s, ev);
      hide Inv, Step, Scheduled;
      GoneScheduled(s, t, n, when, interval);
    }
  }

  /** Its cancel frees the timer. */
  lemma CancelScheduled(s: State, n: int, when: int, interval: int)
    requires Inv(s) && Scheduled(s, n, when, interval) && IsLive(s, n) && Enabled(s, RunsFunctor)
    requires Touches(s, RunsFunctor, n)
    ensures Step(s, RunsFunctor).Ok? && Scheduled(Step(s, RunsFunctor).value, n, when, interval)
  {
    InvParts(s);
    RunsIs(s);
    hide Inv, HeapOk, FreedOk, IndexesAgree, HeldOk, QueueOk, UnqueuedOk, Owned, ArmedOk, PhaseOk, Step, Scheduled;
    CancelFreesIndexed(s, TimerId(s.issued[n], n));
    FunctorFrame(s);
    hide RunFunctor;
    GoneScheduled(s, RunFunctor(s).value, n, when, interval);
  }

  lemma OthersScheduled(s: State, ev: Event, n: int, when: int, interval: int)
    requires Inv(s) && Scheduled(s, n, when, interval) && IsLive(s, n) && Step(s, ev).Ok? && Enabled(s, ev)
    requires !ev.CallbackRuns? && !ev.ResetsOne? && !Touches(s, ev, n)
    ensures Scheduled(Step(s, ev).value, n, when, interval)
  {
    hide Scheduled, Step, Enabled, Kept, Called;
    OthersKeep(s, ev, n);
    StepFires(s, ev);
    CalledStays(s, ev);
    hide Inv;
    SameSchedule(s, Step(s, ev).value, n, when, interval);
  }

  lemma StepScheduled(s: State, ev: Event, n: int, when: int, interval: int)
    requires Inv(s) && Scheduled(s, n, when, interval) && Step(s, ev).Ok? && Enabled(s, ev)
    ensures Scheduled(Step(s, ev).value, n, when, interval)
  {
    assert n in s.issued;
    hide Inv, Scheduled, Step, Enabled;
    if !IsLive(s, n) {
      DeadScheduled(s, ev, n, when, interval);
    } else if ev.CallbackRuns? {
      CallbackScheduled(s, n, when, interval);
    } else if ev.ResetsOne? {
      ResetScheduled(s, n, when, interval);
    } else if Touches(s, ev, n) {
      CancelScheduled(s, n, when, interval);
    } else {
      OthersScheduled(s, ev, n, when, interval);
    }
  }

  lemma {:induction false} RunScheduled(s: State, evs: seq<Event>, n: int, when: int, interval: int)
    requires Inv(s) && Scheduled(s, n, when, interval) && Exec(s, evs).Ok?
    ensures Scheduled(Exec(s, evs).value, n, when, interval)
    decreases |evs|
  {
    hide Inv, Scheduled, Step, Enabled;
    if evs == [] {
    } else {
      StepPreservesIfEnabled(s, evs[0]);
      StepScheduled(s, evs[0], n, when, interval);
      RunScheduled(Step(s, evs[0]).value, evs[1..], n, when, interval);
    }
  }

  // ---- from the call on

  lemma {:induction false} NotFiredYet(fired: seq<Fired>, n: int, when: int, interval: int)
    requires NoneOf(fired, n)
    ensures Due(fired, n, when, interval) == when && OnSchedule(fired, n, when, interval)
  {
    if fired == [] {
    } else {
      assert fired[|fired| - 1] in fired && forall f | f in fired[..|fired| - 1] :: f in fired;
      NotFiredYet(fired[..|fired| - 1], n, when, interval);
    }
  }

  /** `new Timer` starts the schedule with what addTimer was asked for. */
  lemma AllocatedScheduled(s: State, a: int, when: int, interval: int, n: int)
    requires Inv(s) && HistoryOk(s) && Enabled(s, Allocates(a, when, interval, n))
    ensures Step(s, Allocates(a, when, interval, n)).Ok?
    ensures var t := Step(s, Allocates(a, when, interval, n)).value;
            n in t.issued && t.issued[n] == a && Scheduled(t, n, when, interval)
  {
    InvParts(s);
    assert NoneOf(s.fired, n) by {
      assert forall f | f in s.fired :: f.sequence in s.issued;
    }
    NotFiredYet(s.fired, n, when, interval);
    CalledAreHeld(s);
    assert forall e | e in Called(s) :: e.addr in s.heap;
    hide Inv, HistoryOk, FreedOk, IndexesAgree, HeldOk, QueueOk, UnqueuedOk, Owned, ArmedOk, PhaseOk, Due, OnSchedule;
  }

  lemma CalledAreHeld(s: State)
    requires Inv(s)
    ensures forall e | e in Called(s) :: e.addr in s.heap
  {
    InvParts(s);
    hide Inv, HeapOk, FreedOk, IndexesAgree, QueueOk, UnqueuedOk, Owned, ArmedOk, PhaseOk, Sorted;
  }

  /** The last firing before the k-th entry decides. */
  lemma {:induction false} DueIsAfterLast(fired: seq<Fired>, j: nat, n: int, when: int, interval: int)
    requires j < |fired| && fired[j].sequence == n && NoneOf(fired[j + 1..], n)
    ensures Due(fired, n, when, interval) == fired[j].now + interval
    decreases |fired|
  {
    var last := |fired| - 1;
    if j < last {
      assert fired[j + 1..][last - j - 1] == fired[last];
      var since, rest := fired[j + 1..], fired[..last][j + 1..];
      assert rest == since[..|rest|];
      assert forall f | f in rest :: f in since;
      DueIsAfterLast(fired[..last], j, n, when, interval);
    }
  }

  /** The first firing of timer n is due at `when`, each later one an interval after the one before. */
  ghost predicate FiresAsAsked(fired: seq<Fired>, n: int, when: int, interval: int) {
    && (forall f | f in fired && f.sequence == n :: f.interval == interval && f.expiration <= f.now)
    && (forall k | 0 <= k < |fired| && fired[k].sequence == n && NoneOf(fired[..k], n) :: fired[k].expiration == when)
    && (forall j, k
          | 0 <= j < k < |fired| && fired[j].sequence == fired[k].sequence == n && NoneOf(fired[j + 1..k], n) ::
      fired[k].expiration == fired[j].now + interval)
  }

  lemma ScheduleIsAsked(fired: seq<Fired>, n: int, when: int, interval: int)
    requires OnSchedule(fired, n, when, interval) && LogOk(fired)
    ensures FiresAsAsked(fired, n, when, interval)
  {
    forall k | 0 <= k < |fired| && fired[k].sequence == n && NoneOf(fired[..k], n)
      ensures fired[k].expiration == when
    {
      NotFiredYet(fired[..k], n, when, interval);
    }
    forall j, k | 0 <= j < k < |fired| && fired[j].sequence == fired[k].sequence == n && NoneOf(fired[j + 1..k], n)
      ensures fired[k].expiration == fired[j].now + interval
    {
      assert fired[..k][j + 1..] == fired[j + 1..k];
      DueIsAfterLast(fired[..k], j, n, when, interval);
    }
  }

  /** What the Timer holds: until timer n first fires, the time asked for; afterwards, once reset has
      dealt with it, an interval after its last firing. */
  ghost predicate HoldsAsked(s: State, n: int, when: int, interval: int) {
    IsLive(s, n) ==>
      var timer := s.heap[s.issued[n]];
      && timer.interval == interval && (timer.repeat <==> interval > 0)
      && (NoneOf(s.fired, n) ==> timer.expiration == when)
      && (forall j | 0 <= j < |s.fired| && s.fired[j].sequence == n && NoneOf(s.fired[j + 1..], n) && !InBatch(s, n) ::
        timer.expiration == s.fired[j].now + interval)
  }

  lemma ScheduledHolds(s: State, n: int, when: int, interval: int)
    requires Inv(s) && Scheduled(s, n, when, interval)
    ensures HoldsAsked(s, n, when, interval)
  {
    InvParts(s);
    hide Inv, FreedOk, IndexesAgree, HeldOk, QueueOk, UnqueuedOk, Owned, ArmedOk, PhaseOk, Due;
    if IsLive(s, n) {
      if NoneOf(s.fired, n) {
        NotFiredYet(s.fired, n, when, interval);
      }
      forall j | 0 <= j < |s.fired| && s.fired[j].sequence == n && NoneOf(s.fired[j + 1..], n) && !InBatch(s, n)
        ensures s.heap[s.issued[n]].expiration == s.fired[j].now + interval
      {
        NextInRange(s);
        DueIsAfterLast(s.fired, j, n, when, interval);
      }
    }
  }

  lemma {:induction false} RunIssues(s: State, evs: seq<Event>, n: int)
    requires Inv(s) && n in s.issued && Exec(s, evs).Ok?
    ensures n in Exec(s, evs).value.issued && Exec(s, evs).value.issued[n] == s.issued[n]
    decreases |evs|
  {
    hide Inv, Step, Enabled;
    if evs == [] {
    } else {
      StepPreservesIfEnabled(s, evs[0]);
      StepIssues(s, evs[0]);
      RunIssues(Step(s, evs[0]).value, evs[1..], n);
    }
  }

  lemma EndAsAsked(s: State, n: int, when: int, interval: int)
    requires Inv(s) && HistoryOk(s) && Scheduled(s, n, when, interval)
    ensures FiresAsAsked(s.fired, n, when, interval) && HoldsAsked(s, n, when, interval)
  {
    ScheduledHolds(s, n, when, interval);
    hide Inv, HoldsAsked, OnSchedule;
    ScheduleIsAsked(s.fired, n, when, interval);
  }

  /** A timer allocated for `when` and `interval`, in any run: its first firing is due at `when`, each
      later one an interval after the pass of the one before, and none happens before it is due. */
  lemma TimersFireAsAsked(evs: seq<Event>, i: nat, a: int, when: int, interval: int, n: int)
    requires Exec(INITIAL, evs).Ok? && i < |evs| && evs[i] == Allocates(a, when, interval, n)
    ensures var s := Exec(INITIAL, evs).value;
            && n in s.issued && s.issued[n] == a
            && FiresAsAsked(s.fired, n, when, interval) && HoldsAsked(s, n, when, interval)
  {
    hide Inv, HistoryOk, Step, Enabled, Scheduled, FiresAsAsked, HoldsAsked;
    InitialInv();
    InitialHistory();
    RunHistory(INITIAL, evs);
    ExecAppend(INITIAL, evs[..i], evs[i..]);
    assert evs[..i] + evs[i..] == evs && evs[i..][0] == evs[i] && evs[i..][1..] == evs[i + 1..];
    var s := Exec(INITIAL, evs[..i]).value;
    RunHistory(INITIAL, evs[..i]);
    StepPreservesIfEnabled(s, evs[i]);
    AllocatedScheduled(s, a, when, interval, n);
    var t := Step(s, evs[i]).value;
    RunScheduled(t, evs[i + 1..], n, when, interval);
    RunIssues(t, evs[i + 1..], n);
    EndAsAsked(Exec(INITIAL, evs).value, n, when, interval);
  }

  // ---- the OS timer

  /** The OS timer is as it was. */
  predicate SameOsTimer(s: State, t: State) { t.armed == s.armed && t.signalled == s.signalled }

  /** The OS timer has just been set for the earliest pending timer. */
  predicate SetForEarliest(t: State) {
    t.timers != [] && t.armed == Some(t.timers[0].when) && !t.signalled
  }

  lemma AddSetsOsTimer(s: State, a: int)
    requires a in s.heap && KeyOf(s, a) !in s.timers
    ensures var t := Added(s, a);
            && t.timers != []
            && if s.timers == [] || t.timers[0].when < s.timers[0].when then SetForEarliest(t) else SameOsTimer(s, t)
  {
    InsertFront(s.timers, KeyOf(s, a));
    hide Insert;
  }

  lemma FunctorSetsOsTimer(s: State)
    requires IndexesAgree(s) && QueueOk(s) && s.batch != []
    ensures RunFunctor(s).Ok?
    ensures var t := RunFunctor(s).value;
            if s.batch[0].AddFunctor? && t.timers != [] && (s.timers == [] || t.timers[0].when < s.timers[0].when)
            then SetForEarliest(t)
            else SameOsTimer(s, t)
  {
    var s0 := s.(batch := s.batch[1..]);
    match s.batch[0]
    case AddFunctor(a) =>
      RunAddIs(s, a);
      hide IndexesAgree, QueueOk, RunFunctor, Added, SetForEarliest;
      AddSetsOsTimer(s0, a);
    case CancelFunctor(id) =>
      RunCancelIs(s, id);
      hide IndexesAgree, QueueOk, RunFunctor, Erase;
    case UserFunctor =>
  }

  lemma ResetKeepsOsTimer(s: State)
    requires Inv(s) && Enabled(s, ResetsOne)
    ensures ResetNext(s).Ok? && SameOsTimer(s, ResetNext(s).value)
  {
    var t := ResetsTo(s);
    hide Inv, ResetNext, Insert;
  }

  lemma FirstIsIndexed(s: State)
    requires IndexesAgree(s)
    ensures s.timers != [] ==>
              s.timers[0].addr in s.heap && s.heap[s.timers[0].addr].expiration == s.timers[0].when
    ensures forall e | e in s.timers :: s.timers[0].when <= e.when
  {
    assert s.timers != [] ==> s.timers[0] in s.timers;
    forall e | e in s.timers
      ensures s.timers[0].when <= e.when
    {
      FirstIsLeast(s.timers, e);
    }
  }

  /** The OS timer is set in two places only, each time for the earliest pending timer: by an add
      whose timer comes first, and at the end of a pass that leaves a timer pending. */
  lemma OsTimerIsSetForTheEarliest(s: State, ev: Event)
    requires Inv(s) && Step(s, ev).Ok?
    ensures forall e | e in Step(s, ev).value.timers :: Step(s, ev).value.timers[0].when <= e.when
    ensures var t := Step(s, ev).value;
            match ev
            case TimerSignals => t.armed == None && t.signalled
            case PollReturns(timer) => t.armed == s.armed && t.signalled == (s.signalled && !timer) && t.due == timer
            case FinishesReset => if t.timers == [] then SameOsTimer(s, t) else SetForEarliest(t)
            case RunsFunctor =>
              if s.batch[0].AddFunctor? && t.timers != [] && (s.timers == [] || t.timers[0].when < s.timers[0].when)
              then SetForEarliest(t)
              else SameOsTimer(s, t)
            case _ => SameOsTimer(s, t)
  {
    StepPreservesIfEnabled(s, ev);
    FirstIsIndexed(Step(s, ev).value) by {
      InvParts(Step(s, ev).value);
    }
    InvParts(s);
    hide HeapOk, FreedOk, IndexesAgree, HeldOk, QueueOk, UnqueuedOk, Owned, ArmedOk, PhaseOk;
    match ev
    case RunsFunctor =>
      hide Inv, RunFunctor, SetForEarliest;
      FunctorSetsOsTimer(s);
    case ResetsOne =>
      hide Inv, ResetNext;
      ResetKeepsOsTimer(s);
    case HandleRead(now) =>
      hide Inv, StartFire;
      StartedFrom(s, now);
    case FinishesReset =>
      hide Inv;
      FirstIsIndexed(s);
    case _ => hide Inv;
  }
}
