/** How functors reach the loop: any number of threads in queueInLoop, one loop thread in
    loop, each taking one atomic action at a time, in any interleaving. */
module FunctorProtocol {
  import opened Options

  /** The thread that runs the loop. It may also call queueInLoop, from handlers and functors. */
  const LOOP: int := 0

  /** A queued functor: its place in the order of pushes, and how many batches had been swapped
      out when it was pushed. */
  datatype Task = Task(id: nat, epoch: nat)

  datatype Ran = Ran(task: Task, batch: nat)

  /** Where a thread is inside queueInLoop: holding the mutex, having pushed, having unlocked. */
  datatype CallPc = Locked | Pushed | Unlocked

  /** Where the loop thread is: blocked in poll, woken by the wakeup event, past poll, holding
      the mutex before and after the swap, or running the batch. */
  datatype LoopPc = Waiting | Woken | Dispatching | SwapLocked | Swapped | Running

  datatype State = State(
    calls: map<int, CallPc>,   // the threads inside queueInLoop
    mutex: Option<int>,
    event: bool,               // the wakeup event; it stays set until reset
    loop: LoopPc,
    pending: seq<Task>,        // _pendingFunctors
    batch: seq<Task>,          // the swapped-out functors not yet run
    // history
    swaps: nat,
    enqueued: seq<Task>,
    executed: seq<Ran>)

  const INITIAL: State := State(map[], None, false, Waiting, [], [], 0, [], [])

  datatype Event =
    | Lock(t: int) | Push(t: int) | Unlock(t: int) | SetEvent(t: int)   // queueInLoop
    | Quit                                                              // wakes the loop without pushing
    | WaitWakes | WaitOther | ResetEvent | LockSwap | Swap | UnlockSwap | RunOne | Finish

  /** User code runs on the loop thread only while it dispatches or runs the batch. */
  predicate MayCall(s: State, t: int) {
    t != LOOP || s.loop == Dispatching || s.loop == Running
  }

  /** The loop thread's own code waits for any queueInLoop call it is itself inside. */
  predicate LoopFree(s: State) { LOOP !in s.calls }

  /** A wait that finds the event set always reports it, before any channel. */
  predicate Enabled(s: State, ev: Event) {
    match ev
    case Lock(t) => t !in s.calls && MayCall(s, t) && s.mutex.None?
    case Push(t) => t in s.calls && s.calls[t] == Locked
    case Unlock(t) => t in s.calls && s.calls[t] == Pushed
    case SetEvent(t) => t in s.calls && s.calls[t] == Unlocked
    case Quit => true
    case WaitWakes => s.loop == Waiting && s.event
    case WaitOther => s.loop == Waiting && !s.event
    case ResetEvent => s.loop == Woken
    case LockSwap => s.loop == Dispatching && LoopFree(s) && s.mutex.None?
    case Swap => s.loop == SwapLocked
    case UnlockSwap => s.loop == Swapped
    case RunOne => s.loop == Running && LoopFree(s) && s.batch != []
    case Finish => s.loop == Running && LoopFree(s) && s.batch == []
  }

  function Step(s: State, ev: Event): Option<State> {
    if !Enabled(s, ev) then None else
    Some(match ev
      case Lock(t) => s.(mutex := Some(t), calls := s.calls[t := Locked])
      case Push(t) =>
        var task := Task(|s.enqueued|, s.swaps);
        s.(pending := s.pending + [task], enqueued := s.enqueued + [task], calls := s.calls[t := Pushed])
      case Unlock(t) => s.(mutex := None, calls := s.calls[t := Unlocked])
      case SetEvent(t) => s.(event := true, calls := s.calls - {t})
      case Quit => s.(event := true)
      case WaitWakes => s.(loop := Woken)
      case WaitOther => s.(loop := Dispatching)
      case ResetEvent => s.(event := false, loop := Dispatching)
      case LockSwap => s.(mutex := Some(LOOP), loop := SwapLocked)
      case Swap => s.(batch := s.pending, pending := [], swaps := s.swaps + 1, loop := Swapped)
      case UnlockSwap => s.(mutex := None, loop := Running)
      case RunOne => s.(batch := s.batch[1..], executed := s.executed + [Ran(s.batch[0], s.swaps)])
      case Finish => s.(loop := Waiting))
  }

  function Exec(s: State, evs: seq<Event>): Option<State>
    decreases |evs|
  {
    if evs == [] then Some(s)
    else if Step(s, evs[0]).None? then None
    else Exec(Step(s, evs[0]).value, evs[1..])
  }

  function Tasks(ran: seq<Ran>): seq<Task> {
    if ran == [] then [] else Tasks(ran[..|ran| - 1]) + [ran[|ran| - 1].task]
  }

  /** The thread has pushed and has not yet set the event. */
  predicate BeforeSetEvent(s: State, t: int) {
    t in s.calls && s.calls[t] != Locked
  }

  ghost predicate MutexOk(s: State) {
    && (forall t | t in s.calls && s.calls[t] != Unlocked :: s.mutex == Some(t))
    && (s.mutex.Some? ==>
      || (s.mutex.value in s.calls && s.calls[s.mutex.value] != Unlocked)
      || (s.mutex.value == LOOP && (s.loop == SwapLocked || s.loop == Swapped)))
    && (s.loop == SwapLocked || s.loop == Swapped ==> s.mutex == Some(LOOP) && LOOP !in s.calls)
    && (s.loop == Waiting || s.loop == Woken ==> LOOP !in s.calls)
  }

  /** A queued functor will be noticed: the loop is on its way to the swap, or the event is set,
      or whoever has pushed is still going to set it. */
  ghost predicate WillBeNoticed(s: State) {
    s.pending != [] ==>
      || s.event
      || s.loop == Woken || s.loop == Dispatching || s.loop == SwapLocked
      || exists t :: BeforeSetEvent(s, t)
  }

  ghost predicate OrderKept(s: State) {
    && s.enqueued == Tasks(s.executed) + s.batch + s.pending
    && (forall i | 0 <= i < |s.enqueued| :: s.enqueued[i].id == i)
  }

  ghost predicate EpochsOk(s: State) {
    && (forall r | r in s.executed :: r.batch == r.task.epoch + 1)
    && (forall t | t in s.batch :: t.epoch + 1 == s.swaps)
    && (forall t | t in s.pending :: t.epoch == s.swaps)
    && (s.batch != [] ==> s.loop == Swapped || s.loop == Running)
  }

  ghost predicate Inv(s: State) {
    MutexOk(s) && WillBeNoticed(s) && OrderKept(s) && EpochsOk(s)
  }

  lemma MutexPreserved(s: State, ev: Event)
    requires MutexOk(s) && Step(s, ev).Some?
    ensures MutexOk(Step(s, ev).value)
  {
  }

  lemma NoticedPreserved(s: State, ev: Event)
    requires MutexOk(s) && WillBeNoticed(s) && Step(s, ev).Some?
    ensures WillBeNoticed(Step(s, ev).value)
  {
    var t := Step(s, ev).value;
    if t.pending != [] && s.pending != [] && exists u :: BeforeSetEvent(s, u) {
      var u :| BeforeSetEvent(s, u);
      assert t.event || BeforeSetEvent(t, u);
    }
    if ev.Push? {
      assert BeforeSetEvent(t, ev.t);
    }
  }

  lemma RunKeepsOrder(ran: seq<Ran>, batch: seq<Task>, pending: seq<Task>, swaps: nat)
    requires batch != []
    ensures Tasks(ran + [Ran(batch[0], swaps)]) + batch[1..] + pending == Tasks(ran) + batch + pending
  {
    assert (ran + [Ran(batch[0], swaps)])[..|ran|] == ran;
    assert batch == [batch[0]] + batch[1..];
  }

  lemma OrderPreserved(s: State, ev: Event)
    requires OrderKept(s) && EpochsOk(s) && Step(s, ev).Some?
    ensures OrderKept(Step(s, ev).value)
  {
    hide Tasks;
    if ev.RunOne? {
      RunKeepsOrder(s.executed, s.batch, s.pending, s.swaps);
    } else if ev.Swap? {
      assert s.batch == [];
    } else if ev.Push? {
      assert Tasks(s.executed) + s.batch + (s.pending + [Task(|s.enqueued|, s.swaps)])
          == (Tasks(s.executed) + s.batch + s.pending) + [Task(|s.enqueued|, s.swaps)];
    }
  }

  lemma EpochsPreserved(s: State, ev: Event)
    requires EpochsOk(s) && Step(s, ev).Some?
    ensures EpochsOk(Step(s, ev).value)
  {
    if ev.RunOne? {
      assert s.batch[0] in s.batch;
    }
  }

  lemma StepPreserves(s: State, ev: Event)
    requires Inv(s) && Step(s, ev).Some?
    ensures Inv(Step(s, ev).value)
  {
    hide WillBeNoticed, OrderKept, EpochsOk, MutexOk;
    MutexPreserved(s, ev);
    NoticedPreserved(s, ev);
    OrderPreserved(s, ev);
    EpochsPreserved(s, ev);
  }

  lemma {:induction false} RunPreserves(s: State, evs: seq<Event>)
    requires Inv(s) && Exec(s, evs).Some?
    ensures Inv(Exec(s, evs).value)
    decreases |evs|
  {
    hide Inv, Step;
    if evs == [] {
    } else {
      StepPreserves(s, evs[0]);
      RunPreserves(Step(s, evs[0]).value, evs[1..]);
    }
  }

  ghost predicate Reachable(s: State) {
    exists evs :: Exec(INITIAL, evs) == Some(s)
  }

  lemma ReachableInv(s: State)
    requires Reachable(s)
    ensures Inv(s)
  {
    var evs :| Exec(INITIAL, evs) == Some(s);
    RunPreserves(INITIAL, evs);
  }

  // ---- the promises

  /** No lost wakeup: when the loop is about to block with functors queued, the event is set or
      some thread that has pushed is still going to set it. */
  lemma NoLostWakeup(s: State)
    requires Reachable(s) && s.loop == Waiting && s.pending != []
    ensures s.event || exists t :: BeforeSetEvent(s, t)
  {
    ReachableInv(s);
    hide Reachable;
  }

  /** If the loop stays blocked and no call is in progress, every functor ever queued has run,
      in the order of the pushes and once. */
  lemma BlockedMeansDone(s: State)
    requires Reachable(s) && s.loop == Waiting && !s.event && s.calls == map[]
    ensures s.pending == [] && Tasks(s.executed) == s.enqueued
  {
    ReachableInv(s);
    hide Reachable;
  }

  /** At every moment: what has been pushed, in order, is what has run, what is left of the
      batch, and what is pending. */
  lemma FunctorsConserved(s: State)
    requires Reachable(s)
    ensures s.enqueued == Tasks(s.executed) + s.batch + s.pending
    ensures forall i | 0 <= i < |s.enqueued| :: s.enqueued[i].id == i
  {
    ReachableInv(s);
    hide Reachable;
  }

  /** A functor runs in exactly the batch after the one swapped last before its push; so one
      queued while a batch runs never runs in that batch. */
  lemma RunsInTheNextBatch(s: State, i: nat)
    requires Reachable(s) && i < |s.executed|
    ensures s.executed[i].batch == s.executed[i].task.epoch + 1
  {
    ReachableInv(s);
    hide Reachable;
    assert s.executed[i] in s.executed;
  }

  /** _pendingFunctors is only touched by the thread that holds the mutex. */
  lemma TouchedUnderLock(s: State, ev: Event)
    requires Reachable(s) && Step(s, ev).Some? && Step(s, ev).value.pending != s.pending
    ensures ev.Push? || ev.Swap?
    ensures s.mutex == Some(if ev.Push? then ev.t else LOOP)
  {
    ReachableInv(s);
    hide Reachable;
  }

  predicate IsLoopEvent(ev: Event) {
    !ev.Lock? && !ev.Push? && !ev.Unlock? && !ev.SetEvent? && !ev.Quit? && !ev.WaitOther?
  }

  /** The loop thread alone, by its own steps, can get from s to t. */
  ghost predicate LoopReaches(s: State, t: State) {
    exists evs :: Exec(s, evs) == Some(t) && forall ev | ev in evs :: IsLoopEvent(ev)
  }

  lemma ReachesVia(s: State, ev: Event, t: State, u: State)
    requires Step(s, ev) == Some(t) && IsLoopEvent(ev) && LoopReaches(t, u)
    ensures LoopReaches(s, u)
  {
    hide Step;
    var evs :| Exec(t, evs) == Some(u) && forall e | e in evs :: IsLoopEvent(e);
    assert ([ev] + evs)[1..] == evs;
    assert Exec(s, [ev] + evs) == Some(u);
  }

  function RunsOf(batch: seq<Task>, swaps: nat): seq<Ran> {
    if batch == [] then [] else [Ran(batch[0], swaps)] + RunsOf(batch[1..], swaps)
  }

  lemma {:induction false} TasksAppend(ran: seq<Ran>, batch: seq<Task>, swaps: nat)
    ensures Tasks(ran + RunsOf(batch, swaps)) == Tasks(ran) + batch
    decreases |batch|
  {
    if batch == [] {
      assert ran + [] == ran;
    } else {
      var first := ran + [Ran(batch[0], swaps)];
      assert Tasks(first) == Tasks(ran) + [batch[0]] by {
        assert first[..|first| - 1] == ran;
      }
      assert ran + RunsOf(batch, swaps) == first + RunsOf(batch[1..], swaps);
      TasksAppend(first, batch[1..], swaps);
      hide Tasks, RunsOf;
      assert batch == [batch[0]] + batch[1..];
    }
  }

  function AfterBatch(s: State): State {
    s.(loop := Waiting, batch := [], executed := s.executed + RunsOf(s.batch, s.swaps))
  }

  lemma {:induction false} BatchRuns(s: State)
    requires s.loop == Running && s.calls == map[]
    ensures LoopReaches(s, AfterBatch(s))
    decreases |s.batch|
  {
    if s.batch == [] {
      assert s.executed + [] == s.executed;
      assert Exec(AfterBatch(s), []) == Some(AfterBatch(s));
      ReachesVia(s, Finish, AfterBatch(s), AfterBatch(s));
    } else {
      var t := s.(batch := s.batch[1..], executed := s.executed + [Ran(s.batch[0], s.swaps)]);
      BatchRuns(t);
      assert t.executed + RunsOf(t.batch, s.swaps) == s.executed + RunsOf(s.batch, s.swaps);
      ReachesVia(s, RunOne, t, AfterBatch(s));
    }
  }

  lemma IdleAtWait(s: State)
    requires Reachable(s) && s.loop == Waiting && s.calls == map[]
    ensures s.mutex == None && s.batch == [] && s.enqueued == Tasks(s.executed) + s.pending
  {
    ReachableInv(s);
    hide Reachable;
  }

  /** Once the event is set, the loop thread needs nobody's help: its own steps take it back
      to poll with every functor queued so far run. */
  lemma WakeupDrains(s: State) returns (t: State)
    requires Reachable(s) && s.loop == Waiting && s.event && s.calls == map[]
    ensures LoopReaches(s, t)
    ensures t.loop == Waiting && !t.event && t.calls == map[]
    ensures t.enqueued == s.enqueued && Tasks(t.executed) == s.enqueued
  {
    hide Reachable, LoopReaches, Tasks, RunsOf;
    IdleAtWait(s);
    var s1 := s.(loop := Woken);
    var s2 := s1.(loop := Dispatching, event := false);
    var s3 := s2.(loop := SwapLocked, mutex := Some(LOOP));
    var s4 := s3.(loop := Swapped, batch := s.pending, pending := [], swaps := s.swaps + 1);
    var s5 := s4.(loop := Running, mutex := None);
    t := AfterBatch(s5);
    BatchRuns(s5);
    TasksAppend(s5.executed, s5.batch, s5.swaps);
    assert Step(s4, UnlockSwap) == Some(s5);
    assert Step(s3, Swap) == Some(s4);
    assert Step(s2, LockSwap) == Some(s3);
    assert Step(s1, ResetEvent) == Some(s2);
    assert Step(s, WaitWakes) == Some(s1);
    hide Step;
    ReachesVia(s4, UnlockSwap, s5, t);
    ReachesVia(s3, Swap, s4, t);
    ReachesVia(s2, LockSwap, s3, t);
    ReachesVia(s1, ResetEvent, s2, t);
    ReachesVia(s, WaitWakes, s1, t);
  }

  // ---- no deadlock

  /** A step of a thread that is inside queueInLoop already, or of the loop thread. */
  predicate IsSettling(ev: Event) { !ev.Lock? && !ev.Quit? && !ev.WaitOther? }

  /** With nobody starting a call or waking the loop for anything else, s can come to t. */
  ghost predicate SettlesTo(s: State, t: State) {
    exists evs :: Exec(s, evs) == Some(t) && forall ev | ev in evs :: IsSettling(ev)
  }

  lemma Settled(s: State)
    ensures SettlesTo(s, s)
  {
    assert Exec(s, []) == Some(s);
  }

  lemma SettlesVia(s: State, ev: Event, t: State, u: State)
    requires Step(s, ev) == Some(t) && IsSettling(ev) && SettlesTo(t, u)
    ensures SettlesTo(s, u)
  {
    hide Step;
    var evs :| Exec(t, evs) == Some(u) && forall e | e in evs :: IsSettling(e);
    assert ([ev] + evs)[1..] == evs;
    assert Exec(s, [ev] + evs) == Some(u);
  }

  lemma ExecAppend(s: State, a: seq<Event>, b: seq<Event>)
    requires Exec(s, a).Some?
    ensures Exec(s, a + b) == Exec(Exec(s, a).value, b)
    decreases |a|
  {
    hide Step;
    if a == [] {
      assert a + b == b;
    } else {
      assert (a + b)[0] == a[0] && (a + b)[1..] == a[1..] + b;
      ExecAppend(Step(s, a[0]).value, a[1..], b);
    }
  }

  lemma SettlesThrough(s: State, t: State, u: State)
    requires SettlesTo(s, t) && SettlesTo(t, u)
    ensures SettlesTo(s, u)
  {
    hide Exec, IsSettling;
    var a :| Exec(s, a) == Some(t) && forall ev | ev in a :: IsSettling(ev);
    var b :| Exec(t, b) == Some(u) && forall ev | ev in b :: IsSettling(ev);
    ExecAppend(s, a, b);
    assert Exec(s, a + b) == Some(u);
  }

  lemma LoopSettles(s: State, t: State)
    requires LoopReaches(s, t)
    ensures SettlesTo(s, t)
  {
    hide Exec;
    var evs :| Exec(s, evs) == Some(t) && forall ev | ev in evs :: IsLoopEvent(ev);
    assert forall ev | ev in evs :: IsSettling(ev);
  }

  /** One settling step, with what it keeps. */
  lemma Settles(s: State, ev: Event) returns (t: State)
    requires Inv(s) && Enabled(s, ev) && IsSettling(ev)
    ensures Step(s, ev) == Some(t) && Inv(t) && SettlesTo(s, t)
  {
    t := Step(s, ev).value;
    StepPreserves(s, ev);
    hide Step, Enabled, Inv;
    Settled(t);
    SettlesVia(s, ev, t, t);
  }

  /** Whoever holds the mutex can go on and release it. */
  lemma MutexIsReleased(s: State) returns (t: State)
    requires Inv(s)
    ensures SettlesTo(s, t) && Inv(t) && t.mutex.None? && t.calls.Keys == s.calls.Keys && s.enqueued <= t.enqueued
  {
    hide WillBeNoticed, OrderKept, EpochsOk, SettlesTo;
    if s.mutex.None? {
      t := s;
      Settled(s);
    } else if s.mutex.value in s.calls && s.calls[s.mutex.value] != Unlocked {
      var u := s;
      if s.calls[s.mutex.value] == Locked {
        u := Settles(s, Push(s.mutex.value));
      } else {
        Settled(s);
      }
      t := Settles(u, Unlock(s.mutex.value));
      SettlesThrough(s, u, t);
    } else {
      var u := s;
      if s.loop == SwapLocked {
        u := Settles(s, Swap);
      } else {
        Settled(s);
      }
      t := Settles(u, UnlockSwap);
      SettlesThrough(s, u, t);
    }
  }

  lemma Inhabited(calls: map<int, CallPc>)
    ensures calls == map[] || exists t :: t in calls
  {
    if forall t :: t !in calls {
      assert calls == map[];
    }
  }

  /** With the mutex free every call in progress has only SetEvent left. */
  lemma {:induction false} CallsEnd(s: State) returns (t: State)
    requires Inv(s) && s.mutex.None?
    ensures SettlesTo(s, t) && Inv(t) && t.mutex.None? && t.calls == map[] && t.enqueued == s.enqueued
    decreases |s.calls|
  {
    hide WillBeNoticed, OrderKept, EpochsOk, SettlesTo;
    if s.calls == map[] {
      t := s;
      Settled(s);
    } else {
      Inhabited(s.calls);
      var x :| x in s.calls;
      assert s.calls[x] == Unlocked;
      var u := Settles(s, SetEvent(x));
      assert u.calls.Keys == s.calls.Keys - {x};
      hide Inv;
      t := CallsEnd(u);
      SettlesThrough(s, u, t);
    }
  }

  lemma SwapsAndRuns(s: State) returns (t: State)
    requires Inv(s) && s.loop == Dispatching && s.calls == map[] && s.mutex.None?
    ensures SettlesTo(s, t) && Inv(t) && t.loop == Running && t.calls == map[] && t.mutex.None?
    ensures t.enqueued == s.enqueued && t.event == s.event
  {
    hide Inv, SettlesTo;
    var u := Settles(s, LockSwap);
    var v := Settles(u, Swap);
    t := Settles(v, UnlockSwap);
    SettlesThrough(s, u, v);
    SettlesThrough(s, v, t);
  }

  lemma BatchSettles(s: State) returns (t: State)
    requires Inv(s) && s.loop == Running && s.calls == map[]
    ensures SettlesTo(s, t) && Inv(t) && t.loop == Waiting && t.calls == map[]
    ensures t.enqueued == s.enqueued && t.event == s.event
  {
    hide Inv, SettlesTo, LoopReaches;
    BatchRuns(s);
    t := AfterBatch(s);
    LoopSettles(s, t);
    SettlingKeeps(s, t);
  }

  lemma SettlingKeeps(s: State, t: State)
    requires Inv(s) && SettlesTo(s, t)
    ensures Inv(t)
  {
    hide Inv, Exec;
    var evs :| Exec(s, evs) == Some(t) && forall ev | ev in evs :: IsSettling(ev);
    RunPreserves(s, evs);
  }

  /** With no call in progress the loop thread comes back to its wait. */
  lemma BackToWait(s: State) returns (t: State)
    requires Inv(s) && s.calls == map[] && s.mutex.None?
    ensures SettlesTo(s, t) && Inv(t) && t.loop == Waiting && t.calls == map[] && t.enqueued == s.enqueued
  {
    hide WillBeNoticed, OrderKept, EpochsOk, SettlesTo;
    if s.loop == Waiting {
      t := s;
      Settled(s);
    } else if s.loop == Running {
      t := BatchSettles(s);
    } else {
      var u := s;
      if s.loop == Woken {
        u := Settles(s, ResetEvent);
      } else {
        Settled(s);
      }
      var v := SwapsAndRuns(u);
      t := BatchSettles(v);
      hide Inv;
      SettlesThrough(s, u, v);
      SettlesThrough(s, v, t);
    }
  }

  /** At its wait with no call in progress, the loop ends up with nothing left to do. */
  lemma WaitSettles(s: State) returns (t: State)
    requires Reachable(s) && s.loop == Waiting && s.calls == map[]
    ensures SettlesTo(s, t) && t.enqueued == s.enqueued
    ensures t.calls == map[] && t.loop == Waiting && !t.event && Tasks(t.executed) == t.enqueued
  {
    hide Reachable, SettlesTo, LoopReaches, Tasks;
    if s.event {
      t := WakeupDrains(s);
      LoopSettles(s, t);
    } else {
      BlockedMeansDone(s);
      t := s;
      Settled(s);
    }
  }

  lemma ReachableThrough(s: State, t: State)
    requires Reachable(s) && SettlesTo(s, t)
    ensures Reachable(t)
  {
    hide Exec;
    var a :| Exec(INITIAL, a) == Some(s);
    var b :| Exec(s, b) == Some(t) && forall ev | ev in b :: IsSettling(ev);
    ExecAppend(INITIAL, a, b);
  }

  /** No deadlock and nothing forgotten: from every reachable state, with threads in the middle of
      their calls and the loop thread anywhere, the threads' own next steps can lead to the state in
      which no call is in progress, the loop waits with the event clear, and every functor queued
      has run, in order. */
  lemma EverythingSettles(s: State) returns (t: State)
    requires Reachable(s)
    ensures SettlesTo(s, t) && s.enqueued <= t.enqueued
    ensures t.calls == map[] && t.loop == Waiting && !t.event && t.pending == [] && Tasks(t.executed) == t.enqueued
  {
    ReachableInv(s);
    hide Reachable, Inv, SettlesTo, Tasks;
    var u := MutexIsReleased(s);
    var v := CallsEnd(u);
    var w := BackToWait(v);
    SettlesThrough(s, u, v);
    SettlesThrough(s, v, w);
    ReachableThrough(s, w);
    t := WaitSettles(w);
    SettlesThrough(s, w, t);
    ReachableThrough(w, t);
    BlockedMeansDone(t);
  }
}
