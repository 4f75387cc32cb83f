/** The promises of the timer queue, each for every run from the initial state. */
module TimerGuarantees {
  import opened Options
  import opened OrderedSet
  import opened TimerSpec
  import opened TimerInvariant
  import opened TimerHistory

  ghost predicate Reachable(s: State) {
    exists evs :: Exec(INITIAL, evs) == Ok(s)
  }

  lemma ReachableInv(s: State)
    requires Reachable(s)
    ensures Inv(s) && HistoryOk(s)
  {
    hide Inv, HistoryOk, Exec;
    var evs :| Exec(INITIAL, evs) == Ok(s);
    assert Inv(INITIAL) by { InitialInv(); }
    assert HistoryOk(INITIAL) by { InitialHistory(); }
    RunHistory(INITIAL, evs);
  }

  // ---- ownership

  predicate BeingAdded(s: State, n: int) { IsLive(s, n) && s.issued[n] in s.unqueued }
  predicate QueuedForAdd(s: State, n: int) { IsLive(s, n) && AddFunctor(s.issued[n]) in Queue(s) }
  predicate Indexed(s: State, n: int) { IsLive(s, n) && KeyOf(s, s.issued[n]) in s.timers }
  predicate InBatch(s: State, n: int) { IsLive(s, n) && KeyOf(s, s.issued[n]) in Held(s) }

  /** Every timer ever allocated is in exactly one place: still in addTimer's hands, waiting to be
      added, in _timers, in the batch of the current pass, or freed, and freed once. */
  lemma ExactlyOneOwner(s: State, n: int)
    requires Reachable(s) && n in s.issued
    ensures BeingAdded(s, n) || QueuedForAdd(s, n) || Indexed(s, n) || InBatch(s, n) || n in s.freed
    ensures BeingAdded(s, n) ==> !QueuedForAdd(s, n) && !Indexed(s, n) && !InBatch(s, n) && n !in s.freed
    ensures QueuedForAdd(s, n) ==> !Indexed(s, n) && !InBatch(s, n) && n !in s.freed
    ensures Indexed(s, n) ==> !InBatch(s, n) && n !in s.freed
    ensures InBatch(s, n) ==> n !in s.freed
    ensures forall i, j | 0 <= i < j < |s.freed| :: s.freed[i] != s.freed[j]
  {
    ReachableInv(s);
    hide Reachable, HistoryOk, Sorted, IndexesAgree;
  }

  /** Between any two steps the two indexes hold the same timers, each once, under the
      expiration its Timer has now; so their sizes agree. */
  lemma IndexesAlwaysAgree(s: State)
    requires Reachable(s)
    ensures forall e | e in s.timers :: e.addr in s.heap && s.heap[e.addr].expiration == e.when
    ensures s.active == set e | e in s.timers && e.addr in s.heap :: ActiveTimer(e.addr, s.heap[e.addr].sequence)
    ensures |s.active| == |s.timers|
    ensures forall i, j | 0 <= i < j < |s.timers| :: s.timers[i].addr != s.timers[j].addr
  {
    ReachableInv(s);
    IndexesOf(s);
    hide Reachable, Inv, HistoryOk;
    DistinctAddresses(s, s.timers);
    ActiveIsImage(s);
    hide Sorted;
  }

  lemma ActiveIsImage(s: State)
    requires IndexesAgree(s)
    ensures s.active == set e | e in s.timers && e.addr in s.heap :: ActiveTimer(e.addr, s.heap[e.addr].sequence)
  {
    hide Sorted;
    forall p | p in s.active
      ensures KeyOf(s, p.addr) in s.timers && p == PairOf(s, KeyOf(s, p.addr))
    {
    }
  }

  // ---- firing

  /** No firing is early, and two firings of one timer are of a repeating timer and at least
      its interval apart; so a one-shot timer fires at most once. The clock may go backwards. */
  lemma FiringsAreTimely(s: State)
    requires Reachable(s)
    ensures forall f | f in s.fired :: f.expiration <= f.now
    ensures forall i, j | 0 <= i < j < |s.fired| && s.fired[i].sequence == s.fired[j].sequence ::
              s.fired[i].interval > 0 && s.fired[i].now + s.fired[i].interval <= s.fired[j].now
  {
    ReachableInv(s);
    hide Reachable, Inv;
  }

  /** Whenever the loop is not in the middle of a pass and a timer is pending, the OS timer has
      fired or is set for no later than the earliest expiration. */
  lemma NoMissedTimer(s: State)
    requires Reachable(s) && s.timers != [] && !InPass(s)
    ensures s.signalled || s.due || (s.armed.Some? && forall e | e in s.timers :: s.armed.value <= e.when)
  {
    ReachableInv(s);
    hide Reachable, HistoryOk;
    forall e | e in s.timers
      ensures s.timers[0].when <= e.when
    {
      FirstIsLeast(s.timers, e);
    }
  }

  /** handleRead takes out exactly the timers that have expired, earliest first. */
  lemma PassTakesExactlyTheExpired(s: State, now: int)
    requires Reachable(s) && Enabled(s, HandleRead(now))
    ensures Step(s, HandleRead(now)).Ok?
    ensures var t := Step(s, HandleRead(now)).value;
            && t.phase.Firing? && t.phase.expired + t.timers == s.timers
            && (forall e | e in s.timers :: e in t.phase.expired <==> e.when <= now)
            && (forall i, j | 0 <= i < j < |t.phase.expired| :: t.phase.expired[i].when <= t.phase.expired[j].when)
  {
    ReachableInv(s);
    hide Reachable, HistoryOk, StartFire;
    GetExpiredOk(s, now);
    ExpirySplit(s, now);
  }

  /** From `base` on, the log lists the first `next` expired entries, in order, fired at `now`. */
  ghost predicate Logged(fired: seq<Fired>, base: nat, heap: map<int, Timer>, expired: seq<Entry>,
                         next: nat, now: int)
  {
    && next <= |expired| && |fired| == base + next
    && (forall j | 0 <= j < next ::
      var e := expired[j];
      && e.addr in heap
      && fired[base + j] == Fired(heap[e.addr].sequence, heap[e.addr].interval, e.when, now))
  }

  lemma LoggedMore(fired: seq<Fired>, base: nat, heap: map<int, Timer>, expired: seq<Entry>,
                   next: nat, now: int, f: Fired)
    requires Logged(fired, base, heap, expired, next, now) && next < |expired|
    requires var e := expired[next];
             e.addr in heap && f == Fired(heap[e.addr].sequence, heap[e.addr].interval, e.when, now)
    ensures Logged(fired + [f], base, heap, expired, next + 1, now)
  {
    assert (fired + [f])[base + next] == f;
  }

  /** The firing log of a pass lists its called entries, in order. */
  ghost predicate PassLogged(s: State) {
    s.phase.Firing? ==> Logged(s.fired, s.phase.base, s.heap, s.phase.expired, s.phase.next, s.phase.now)
  }

  lemma PhaseAfter(s: State, ev: Event)
    requires Step(s, ev).Ok? && (ev.RunsFunctor? || ev.ResetsOne? || ev.FinishesReset?)
    ensures !Step(s, ev).value.phase.Firing?
  {
    hide RunFunctor, ResetNext;
    if ev.RunsFunctor? {
      FunctorFrame(s);
    } else if ev.ResetsOne? {
      ResetFrame(s);
    }
  }

  lemma StartLogged(s: State, now: int)
    requires HeapOk(s) && IndexesAgree(s)
    ensures StartFire(s, now).Ok? && PassLogged(StartFire(s, now).value)
  {
    GetExpiredOk(s, now);
    StartedKeys(s, now);
    hide HeapOk, IndexesAgree, StartFire;
  }

  lemma CallbackLogged(s: State)
    requires HeldOk(s) && PassLogged(s) && Enabled(s, CallbackRuns)
    ensures FireNext(s).Ok? && PassLogged(FireNext(s).value)
  {
    UncalledFirst(s);
    hide HeldOk, Logged, Uncalled, Held;
    var t := FireNext(s).value;
    LoggedMore(s.fired, s.phase.base, s.heap, s.phase.expired, s.phase.next, s.phase.now, t.fired[|s.fired|]);
  }

  /** Posting, and the other moves around a pass, leave the log and the called entries alone. */
  lemma QuietLogged(s: State, ev: Event)
    requires HeldOk(s) && PassLogged(s) && Step(s, ev).Ok?
    requires !ev.HandleRead? && !ev.CallbackRuns? && !ev.RunsFunctor? && !ev.ResetsOne? && !ev.FinishesReset?
    ensures PassLogged(Step(s, ev).value)
  {
    hide HeldOk;
  }

  lemma StepLogged(s: State, ev: Event)
    requires Inv(s) && PassLogged(s) && Step(s, ev).Ok?
    ensures PassLogged(Step(s, ev).value)
  {
    hide Sorted, HeapOk, FreedOk, IndexesAgree, HeldOk, QueueOk, UnqueuedOk, Owned, ArmedOk, PhaseOk;
    if ev.HandleRead? {
      hide StartFire, PassLogged;
      StartLogged(s, ev.now);
    } else if ev.CallbackRuns? {
      hide FireNext, PassLogged;
      CallbackLogged(s);
    } else if ev.RunsFunctor? || ev.ResetsOne? || ev.FinishesReset? {
      PhaseAfter(s, ev);
      hide Step;
    } else {
      hide PassLogged, Step;
      QuietLogged(s, ev);
    }
  }

  lemma {:induction false} RunLogged(s: State, evs: seq<Event>)
    requires Inv(s) && PassLogged(s) && Exec(s, evs).Ok?
    ensures PassLogged(Exec(s, evs).value)
    decreases |evs|
  {
    hide Inv, PassLogged, Step, Enabled;
    if evs == [] {
    } else {
      StepPreservesIfEnabled(s, evs[0]);
      StepLogged(s, evs[0]);
      RunLogged(Step(s, evs[0]).value, evs[1..]);
    }
  }

  /** When the callbacks of a pass have all run, each expired timer has fired once, in order,
      at the pass's time: the log since the pass began is exactly the expired batch. */
  lemma PassFiresEveryExpired(s: State)
    requires Reachable(s) && Enabled(s, StartReset)
    ensures |s.fired| == s.phase.base + |s.phase.expired|
    ensures forall j | 0 <= j < |s.phase.expired| ::
              var e := s.phase.expired[j];
              && e.addr in s.heap
              && s.fired[s.phase.base + j]
                 == Fired(s.heap[e.addr].sequence, s.heap[e.addr].interval, e.when, s.phase.now)
  {
    hide Inv, HistoryOk, Exec;
    var evs :| Exec(INITIAL, evs) == Ok(s);
    assert Inv(INITIAL) by { InitialInv(); }
    RunLogged(INITIAL, evs);
  }

  /** A pass leaves no timer behind: at its end every pending timer expires strictly after the
      pass's time, and the OS timer is set for the earliest of them. */
  lemma PassLeavesNothingExpired(s: State)
    requires Reachable(s) && Enabled(s, FinishesReset)
    ensures Step(s, FinishesReset).Ok?
    ensures var t := Step(s, FinishesReset).value;
            && t.timers == s.timers
            && (forall e | e in t.timers :: s.phase.now < e.when)
            && (t.timers != [] ==>
                  t.armed == Some(t.timers[0].when) && forall e | e in t.timers :: t.timers[0].when <= e.when)
  {
    ReachableInv(s);
    hide Reachable, HistoryOk;
    assert s.timers != [] ==> s.timers[0] in s.timers;
    forall e | e in s.timers
      ensures s.timers[0].when <= e.when
    {
      FirstIsLeast(s.timers, e);
    }
  }
}
