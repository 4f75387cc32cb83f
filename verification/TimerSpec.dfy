/** The timer queue, the functor vector of its loop and the memory they share, as a step
    machine. One step is what one thread does without handing control to user code; user
    code (timer callbacks, functors, other threads) acts between any two steps by allocating
    Timers and posting. A step that would touch a freed Timer, or whose assert would fail, ends
    in Fault. */
module TimerSpec {
  import opened Options
  import opened OrderedSet

  /** MAXULONG_PTR, the address used as sentinel by getExpired; no Timer can lie there. */
  const SENTINEL: int := 0xFFFF_FFFF_FFFF_FFFF

  datatype Timer = Timer(expiration: int, interval: int, repeat: bool, sequence: int)

  datatype TimerId = TimerId(timer: int, sequence: int)

  /** std::pair<Timer*, int64_t>, the element of the set that cancel searches. */
  datatype ActiveTimer = ActiveTimer(addr: int, sequence: int)

  /** What waits in the loop's functor vector: a bound addTimerInLoop, a bound
      cancelInLoop, or anything else. */
  datatype Functor =
    | AddFunctor(addr: int)
    | CancelFunctor(id: TimerId)
    | UserFunctor

  /** Where the loop thread is. `base` is the length of the firing log when the pass began. */
  datatype Phase =
    | Polling
    | Dispatching
    | Firing(now: int, expired: seq<Entry>, next: nat, base: nat)
    | Resetting(now: int, expired: seq<Entry>, next: nat, base: nat)
    | RunningFunctors

  datatype Fired = Fired(sequence: int, interval: int, expiration: int, now: int)

  datatype State = State(
    heap: map<int, Timer>,           // the Timer objects alive, by address
    count: int,                      // the last value of Timer::s_timeidCount this queue has seen
    unqueued: set<int>,              // Timers that addTimer has allocated and not queued yet
    pending: seq<Functor>,           // EventLoop::_pendingFunctors
    batch: seq<Functor>,             // what doPendingFunctors has swapped out and not run
    timers: seq<Entry>,              // _timers
    active: set<ActiveTimer>,         // _activeTimers
    armed: Option<int>,              // expiration the OS timer was last set for
    signalled: bool,                 // the OS timer's handle is signalled
    event: bool,                     // the poller's wakeup event is set
    due: bool,                       // poll took the signal; handleRead is yet to run
    phase: Phase,
    // history
    fired: seq<Fired>,
    freed: seq<int>,                 // sequences of the freed timers, in order
    issued: map<int, int>)           // sequence -> address, for every timer ever allocated

  datatype FaultKind = FreedTimer | AssertFailed

  datatype Outcome = Ok(value: State) | Fault(kind: FaultKind) | Blocked {
    predicate IsFailure() { !Ok? }
    function PropagateFailure(): Outcome requires !Ok? { this }
    function Extract(): State requires Ok? { value }
  }

  const INITIAL: State :=
    State(map[], 0, {}, [], [], [], {}, None, false, false, false, Polling, [], [], map[])

  predicate IsLive(s: State, n: int) {
    n in s.issued && s.issued[n] in s.heap && s.heap[s.issued[n]].sequence == n
  }

  // ---- what user code and other threads do: only the heap and the functor vector change

  function Post(s: State, f: Functor): State {
    s.(pending := s.pending + [f])
  }

  function Wake(s: State): State {
    s.(event := true)
  }

  /** `new Timer`, the first act of addTimer. The counter is shared by all queues of the process,
      so the sequence is any number larger than those this queue has had. */
  function NewTimer(s: State, a: int, when: int, interval: int, sequence: int): State {
    s.(heap := s.heap[a := Timer(when, interval, interval > 0, sequence)],
       count := sequence,
       unqueued := s.unqueued + {a},
       issued := s.issued[sequence := a])
  }

  /** addTimer's queueInLoop. */
  function QueueAdd(s: State, a: int): State {
    Post(s.(unqueued := s.unqueued - {a}), AddFunctor(a))
  }

  // ---- what the loop thread does

  /** SetWaitableTimer: the new due time replaces the old one and the handle becomes unsignalled. */
  function Arm(s: State, expiration: int): State {
    s.(armed := Some(expiration), signalled := false)
  }

  function Free(s: State, a: int): Outcome {
    if a !in s.heap then Fault(FreedTimer)
    else Ok(s.(heap := s.heap - {a}, freed := s.freed + [s.heap[a].sequence]))
  }

  function CheckSizes(s: State): Outcome {
    if |s.timers| == |s.active| then Ok(s) else Fault(AssertFailed)
  }

  predicate EarliestChanged(s: State, when: int) {
    s.timers == [] || when < s.timers[0].when
  }

  function InsertTimer(s: State, a: int): Outcome {
    var _ :- CheckSizes(s);
    if a !in s.heap then Fault(FreedTimer) else
    var entry := Entry(s.heap[a].expiration, a);
    var key := ActiveTimer(a, s.heap[a].sequence);
    if Contains(s.timers, entry) || key in s.active then Fault(AssertFailed)
    else CheckSizes(s.(timers := Insert(s.timers, entry), active := s.active + {key}))
  }

  function AddTimerInLoop(s: State, a: int): Outcome {
    if a !in s.heap then Fault(FreedTimer) else
    var when := s.heap[a].expiration;
    var s1 :- InsertTimer(s, a);
    Ok(if EarliestChanged(s, when) then Arm(s1, when) else s1)
  }

  function CancelInLoop(s: State, id: TimerId): Outcome {
    var _ :- CheckSizes(s);
    var key := ActiveTimer(id.timer, id.sequence);
    if key !in s.active then Ok(s)
    else if id.timer !in s.heap then Fault(FreedTimer) else
    var entry := Entry(s.heap[id.timer].expiration, id.timer);
    if !Contains(s.timers, entry) then Fault(AssertFailed) else
    var s1 :- Free(s.(timers := Erase(s.timers, entry)), id.timer);
    CheckSizes(s1.(active := s1.active - {key}))
  }

  /** The loop of getExpired that takes the expired timers out of _activeTimers. */
  function Deactivate(s: State, expired: seq<Entry>): Outcome
    decreases |expired|
  {
    if expired == [] then Ok(s) else
    var a := expired[0].addr;
    if a !in s.heap then Fault(FreedTimer)
    else if ActiveTimer(a, s.heap[a].sequence) !in s.active then Fault(AssertFailed)
    else Deactivate(s.(active := s.active - {ActiveTimer(a, s.heap[a].sequence)}), expired[1..])
  }

  function ExpiredPart(timers: seq<Entry>, now: int): seq<Entry> {
    timers[..LowerBound(timers, Entry(now, SENTINEL))]
  }

  function KeptPart(timers: seq<Entry>, now: int): seq<Entry> {
    timers[LowerBound(timers, Entry(now, SENTINEL))..]
  }

  function GetExpired(s: State, now: int): Outcome {
    var _ :- CheckSizes(s);
    var kept := KeptPart(s.timers, now);
    if kept != [] && !(now <= kept[0].when) then Fault(AssertFailed) else
    var s1 :- Deactivate(s.(timers := kept), ExpiredPart(s.timers, now));
    CheckSizes(s1)
  }

  function StartFire(s: State, now: int): Outcome {
    var s1 :- GetExpired(s, now);
    Ok(s1.(due := false, phase := Firing(now, ExpiredPart(s.timers, now), 0, |s.fired|)))
  }

  function FireNext(s: State): Outcome
    requires s.phase.Firing? && s.phase.next < |s.phase.expired|
  {
    var a := s.phase.expired[s.phase.next].addr;
    if a !in s.heap then Fault(FreedTimer) else
    var t := s.heap[a];
    Ok(s.(fired := s.fired + [Fired(t.sequence, t.interval, t.expiration, s.phase.now)],
          phase := Firing(s.phase.now, s.phase.expired, s.phase.next + 1, s.phase.base)))
  }

  function Restart(t: Timer, now: int): Timer {
    t.(expiration := if t.repeat then now + t.interval else 0)
  }

  function ResetNext(s: State): Outcome
    requires s.phase.Resetting? && s.phase.next < |s.phase.expired|
  {
    var a := s.phase.expired[s.phase.next].addr;
    var s0 := s.(phase := Resetting(s.phase.now, s.phase.expired, s.phase.next + 1, s.phase.base));
    if a !in s.heap then Fault(FreedTimer)
    else if s.heap[a].repeat
    then InsertTimer(s0.(heap := s.heap[a := Restart(s.heap[a], s.phase.now)]), a)
    else Free(s0, a)
  }

  function FinishReset(s: State): Outcome {
    var s1 := s.(phase := Dispatching);
    if s.timers == [] then Ok(s1)
    else if s.timers[0].addr !in s.heap then Fault(FreedTimer)
    else Ok(Arm(s1, s.heap[s.timers[0].addr].expiration))
  }

  function CallFunctor(s: State, f: Functor): Outcome {
    match f
    case AddFunctor(a) => AddTimerInLoop(s, a)
    case CancelFunctor(id) => CancelInLoop(s, id)
    case UserFunctor => Ok(s)
  }

  function RunFunctor(s: State): Outcome
    requires s.batch != []
  {
    CallFunctor(s.(batch := s.batch[1..]), s.batch[0])
  }

  // ---- steps and runs

  /** queueInLoop is two steps, the push (PostAdd, PostUser) and the setting of the wakeup event
      (Wakes), because on another thread the loop can go on in between. A cancel is queued by the
      loop thread itself, which has set the event before it does anything else: one step. */
  datatype Event =
    | Allocates(addr: int, when: int, interval: int, sequence: int)
    | PostAdd(addr: int)
    | PostCancel(id: TimerId)
    | PostUser
    | Wakes
    | TimerSignals
    | PollReturns(timer: bool)
    | HandleRead(now: int)
    | CallbackRuns
    | StartReset
    | ResetsOne
    | FinishesReset
    | SwapFunctors
    | RunsFunctor
    | FinishFunctors

  /** User code can be running on the loop thread: outside loop, in a handler, in a functor, in a
      timer's callback, or in what deleting a timer destroys. handleRead is the first handler of a
      round (EventLoop.PollActive in Pollers), so that none runs before it. */
  predicate UserCodeRuns(s: State) {
    match s.phase
    case Dispatching => !s.due
    case Firing(_, _, next, _) => next > 0
    case _ => true
  }

  /** Any TimerId at all may be cancelled: a default one, a stale one, one of another queue, or one
      whose timer addTimer has not queued yet. poll does not report the OS timer while the wakeup
      event is set (PollIsExact in PollScan): it resets the event and reports nothing. */
  predicate Enabled(s: State, ev: Event) {
    match ev
    case Allocates(a, _, _, n) => 0 < a < SENTINEL && a !in s.heap && s.count < n
    case PostAdd(a) => a in s.unqueued
    case PostCancel(_) => UserCodeRuns(s)
    case PostUser => true
    case Wakes => true
    case TimerSignals => s.armed.Some?
    case PollReturns(timer) => s.phase.Polling? && (timer ==> s.signalled && !s.event)
    case HandleRead(_) => s.phase.Dispatching? && s.due
    case CallbackRuns => s.phase.Firing? && s.phase.next < |s.phase.expired|
    case StartReset => s.phase.Firing? && s.phase.next >= |s.phase.expired|
    case ResetsOne => s.phase.Resetting? && s.phase.next < |s.phase.expired|
    case FinishesReset => s.phase.Resetting? && s.phase.next >= |s.phase.expired|
    case SwapFunctors => s.phase.Dispatching? && !s.due
    case RunsFunctor => s.phase.RunningFunctors? && s.batch != []
    case FinishFunctors => s.phase.RunningFunctors? && s.batch == []
  }

  function Step(s: State, ev: Event): Outcome {
    if !Enabled(s, ev) then Blocked else
    match ev
    case Allocates(a, when, interval, n) => Ok(NewTimer(s, a, when, interval, n))
    case PostAdd(a) => Ok(QueueAdd(s, a))
    case PostCancel(id) => Ok(Wake(Post(s, CancelFunctor(id))))
    case PostUser => Ok(Post(s, UserFunctor))
    case Wakes => Ok(Wake(s))
    case TimerSignals => Ok(s.(armed := None, signalled := true))
    case PollReturns(timer) =>
      Ok(s.(phase := Dispatching, due := timer, signalled := s.signalled && !timer, event := false))
    case HandleRead(now) => StartFire(s, now)
    case CallbackRuns => FireNext(s)
    case StartReset => Ok(s.(phase := Resetting(s.phase.now, s.phase.expired, 0, s.phase.base)))
    case ResetsOne => ResetNext(s)
    case FinishesReset => FinishReset(s)
    case SwapFunctors => Ok(s.(phase := RunningFunctors, batch := s.pending, pending := []))
    case RunsFunctor => RunFunctor(s)
    case FinishFunctors => Ok(s.(phase := Polling))
  }

  function Exec(s: State, evs: seq<Event>): Outcome
    decreases |evs|
  {
    if evs == [] then Ok(s) else
    var s1 :- Step(s, evs[0]);
    Exec(s1, evs[1..])
  }

  lemma ExecAppend(s: State, a: seq<Event>, b: seq<Event>)
    ensures Exec(s, a).Ok? ==> Exec(s, a + b) == Exec(Exec(s, a).value, b)
    ensures !Exec(s, a).Ok? ==> Exec(s, a + b) == Exec(s, a)
    decreases |a|
  {
    if a == [] {
      assert a + b == b;
    } else {
      assert (a + b)[0] == a[0] && (a + b)[1..] == a[1..] + b;
      if Step(s, a[0]).Ok? {
        ExecAppend(Step(s, a[0]).value, a[1..], b);
      }
    }
  }
}
