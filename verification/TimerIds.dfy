/** What addTimer returns: its last act, after queueInLoop, is to read the new timer's sequence
    through a pointer that the loop thread may already have freed. */
module TimerIds {
  import opened Options
  import opened TimerSpec
  import opened TimerInvariant
  import opened TimerHistory
  import opened TimerGuarantees
  import opened TimerProgress

  /** The read itself. None stands for reading freed memory. */
  function ReadSequence(s: State, a: int): Option<int> {
    if a in s.heap then Some(s.heap[a].sequence) else None
  }

  // ---- a repeating timer stays

  /** Of timer n's add and the cancels of id still queued, if any, the last is the add. */
  predicate Uncancelled(q: seq<Functor>, id: TimerId) {
    IndexedAfter(q, AddFunctor(id.timer) !in q, id)
  }

  /** Timer n repeats, so reset does not delete it, and no cancel behind its add finds it. */
  ghost predicate Stays(s: State, a: int, n: int) {
    && n in s.issued && s.issued[n] == a && IsLive(s, n) && s.heap[a].repeat && a !in s.unqueued
    && Uncancelled(Queue(s), TimerId(a, n))
  }

  lemma UncancelledTail(q: seq<Functor>, id: TimerId)
    requires q != [] && Uncancelled(q, id) && (q[0] == AddFunctor(id.timer) ==> q[0] !in q[1..])
    ensures Uncancelled(q[1..], id)
    ensures q[0] == CancelFunctor(id) ==> AddFunctor(id.timer) in q
  {
    assert forall f :: f in q <==> f == q[0] || f in q[1..];
    AddDecides(q[1..], id);
  }

  lemma UncancelledMore(q: seq<Functor>, f: Functor, id: TimerId)
    requires Uncancelled(q, id) && f != AddFunctor(id.timer) && f != CancelFunctor(id)
    ensures Uncancelled(q + [f], id)
  {
    assert AddFunctor(id.timer) in q + [f] <==> AddFunctor(id.timer) in q;
    IndexedAfterOne(q, f, AddFunctor(id.timer) !in q, id);
  }

  lemma HeadOnce(s: State)
    requires QueueOk(s) && s.batch != [] && s.batch[0].AddFunctor?
    ensures s.batch[0] !in Queue(s)[1..]
  {
    assert Queue(s)[0] == s.batch[0];
  }

  lemma IndexedIsAdded(s: State, id: TimerId)
    requires QueueOk(s) && Genuine(s, id) && Indexed(s, id.sequence)
    ensures AddFunctor(id.timer) !in Queue(s)
  {
  }

  lemma TailUncancelled(s: State, id: TimerId)
    requires QueueOk(s) && s.batch != [] && Uncancelled(Queue(s), id)
    ensures Uncancelled(Queue(s)[1..], id)
    ensures s.batch[0] == CancelFunctor(id) ==> AddFunctor(id.timer) in Queue(s)
  {
    assert Queue(s)[0] == s.batch[0];
    if s.batch[0].AddFunctor? {
      HeadOnce(s);
    }
    hide QueueOk;
    UncancelledTail(Queue(s), id);
  }

  lemma FunctorStays(s: State, a: int, n: int)
    requires IndexesAgree(s) && QueueOk(s) && Stays(s, a, n) && s.batch != []
    ensures RunFunctor(s).Ok? && Stays(RunFunctor(s).value, a, n)
  {
    hide IndexesAgree, QueueOk, RunFunctor, Uncancelled;
    var id := TimerId(a, n);
    TailUncancelled(s, id);
    if Indexed(s, n) {
      IndexedIsAdded(s, id);
    }
    FunctorSetsIndexed(s, id);
    FunctorFrame(s);
    assert Queue(RunFunctor(s).value) == Queue(s)[1..];
  }

  lemma PostStays(s: State, ev: Event, a: int, n: int)
    requires HeapOk(s) && Stays(s, a, n) && Step(s, ev).Ok? && IsPost(ev) && ev != PostCancel(TimerId(a, n))
    ensures Stays(Step(s, ev).value, a, n)
  {
    var id := TimerId(a, n);
    PostQueues(s, ev, id);
    hide HeapOk, Step, Queue, Uncancelled, IsPost;
    var t := Step(s, ev).value;
    if Queue(t) != Queue(s) {
      var f :| Queue(t) == Queue(s) + [f] && MayFollow(f, ev, id);
      UncancelledMore(Queue(s), f, id);
    }
  }

  lemma MoveStays(s: State, ev: Event, a: int, n: int)
    requires Inv(s) && Stays(s, a, n) && Step(s, ev).Ok? && Enabled(s, ev) && !IsPost(ev) && !ev.RunsFunctor?
    ensures Stays(Step(s, ev).value, a, n)
  {
    hide Inv, Step, Queue, Uncancelled, Enabled, NextAddress;
    MovesKeepQueue(s, ev);
    if Touches(s, ev, n) {
      ResetsIs(s);
      var t := ResetsKeep(s, n);
      hide ResetNext;
    } else {
      OthersKeep(s, ev, n);
    }
  }

  lemma StepStays(s: State, ev: Event, a: int, n: int)
    requires Inv(s) && Stays(s, a, n) && Step(s, ev).Ok? && Enabled(s, ev) && ev != PostCancel(TimerId(a, n))
    ensures Stays(Step(s, ev).value, a, n)
  {
    InvParts(s);
    hide Inv, HeapOk, FreedOk, IndexesAgree, HeldOk, QueueOk, UnqueuedOk, Owned, ArmedOk, PhaseOk, Step, Enabled, Stays;
    if IsPost(ev) {
      PostStays(s, ev, a, n);
    } else if ev.RunsFunctor? {
      RunsIs(s);
      FunctorStays(s, a, n);
    } else {
      MoveStays(s, ev, a, n);
    }
  }

  lemma {:induction false} RunStays(s: State, evs: seq<Event>, a: int, n: int)
    requires Inv(s) && Stays(s, a, n) && Exec(s, evs).Ok? && PostCancel(TimerId(a, n)) !in evs
    ensures ReadSequence(Exec(s, evs).value, a) == Some(n)
    decreases |evs|
  {
    hide Inv, Step, Enabled;
    if evs == [] {
    } else {
      hide Stays;
      assert evs[0] in evs && forall ev | ev in evs[1..] :: ev in evs;
      StepPreservesIfEnabled(s, evs[0]);
      StepStays(s, evs[0], a, n);
      RunStays(Step(s, evs[0]).value, evs[1..], a, n);
    }
  }

  // ---- a one-shot timer can be gone

  /** Timer n, at address a and not repeating, is as it was in s, or it is freed and its address
      is free. */
  ghost predicate SameOrGone(s: State, t: State, n: int)
    requires n in s.issued
  {
    n in t.issued && t.issued[n] == s.issued[n] && t.unqueued == s.unqueued
    && (Kept(s, t, n) || s.issued[n] !in t.heap)
  }

  lemma StepSameOrGone(s: State, ev: Event, n: int)
    requires Inv(s) && IsLive(s, n) && !s.heap[s.issued[n]].repeat && Step(s, ev).Ok? && Enabled(s, ev) && !IsPost(ev)
    ensures SameOrGone(s, Step(s, ev).value, n)
  {
    InvParts(s);
    hide Inv, HeapOk, FreedOk, IndexesAgree, HeldOk, QueueOk, UnqueuedOk, Owned, ArmedOk, PhaseOk, Step, Enabled;
    LoopNothingNew(s, ev);
    StepIssues(s, ev);
    if !Touches(s, ev, n) {
      OthersKeep(s, ev, n);
    } else if ev.RunsFunctor? {
      RunsIs(s);
      CancelFreesIndexed(s, TimerId(s.issued[n], n));
    } else {
      ResetsIs(s);
      var _ := ResetsKeep(s, n);
    }
  }

  lemma {:induction false} GoneStays(s: State, evs: seq<Event>, a: int)
    requires Inv(s) && a !in s.heap && Exec(s, evs).Ok? && LoopOnly(evs)
    ensures var t := Exec(s, evs).value;
            && a !in t.heap && t.unqueued == s.unqueued
            && forall n | n in s.issued :: n in t.issued && t.issued[n] == s.issued[n]
    decreases |evs|
  {
    hide Inv, Step, Enabled, IsPost;
    if evs == [] {
    } else {
      assert evs[0] in evs && forall ev | ev in evs[1..] :: ev in evs;
      StepPreservesIfEnabled(s, evs[0]);
      LoopNothingNew(s, evs[0]);
      StepIssues(s, evs[0]);
      GoneStays(Step(s, evs[0]).value, evs[1..], a);
    }
  }

  lemma {:induction false} RunSameOrGone(s: State, evs: seq<Event>, n: int)
    requires Inv(s) && IsLive(s, n) && !s.heap[s.issued[n]].repeat && Exec(s, evs).Ok? && LoopOnly(evs)
    ensures SameOrGone(s, Exec(s, evs).value, n)
    decreases |evs|
  {
    hide Inv, Step, Enabled, IsPost;
    if evs == [] {
    } else {
      assert evs[0] in evs && forall ev | ev in evs[1..] :: ev in evs;
      StepPreservesIfEnabled(s, evs[0]);
      StepSameOrGone(s, evs[0], n);
      var u := Step(s, evs[0]).value;
      if s.issued[n] in u.heap {
        RunSameOrGone(u, evs[1..], n);
      } else {
        GoneStays(u, evs[1..], s.issued[n]);
      }
    }
  }

  lemma LoopSameOrGone(s: State, t: State, n: int)
    requires Inv(s) && IsLive(s, n) && !s.heap[s.issued[n]].repeat && LoopReaches(s, t)
    ensures SameOrGone(s, t, n)
  {
    hide Inv, SameOrGone, Exec, IsPost;
    var evs :| Exec(s, evs) == Ok(t) && LoopOnly(evs);
    RunSameOrGone(s, evs, n);
  }

  // ---- the run that frees a one-shot timer

  /** At poll with an empty queue every live timer that addTimer has queued is in _timers. */
  lemma IdleIndexed(s: State, n: int)
    requires Inv(s) && s.phase.Polling? && Queue(s) == [] && IsLive(s, n) && s.issued[n] !in s.unqueued
    ensures Indexed(s, n)
  {
  }

  /** At the end of a pass with an empty queue, whatever addTimer has queued and is still alive
      is later than the pass. */
  lemma PassEndLater(s: State, n: int)
    requires Inv(s) && Enabled(s, FinishesReset) && Queue(s) == [] && IsLive(s, n) && s.issued[n] !in s.unqueued
    ensures s.phase.now < s.heap[s.issued[n]].expiration
  {
    assert Held(s) == [];
    hide HeapOk, FreedOk, IndexesAgree, QueueOk, UnqueuedOk, ArmedOk;
    assert KeyOf(s, s.issued[n]) in s.timers;
  }

  /** The loop thread alone can take a one-shot timer from anywhere to its deletion. */
  lemma OneShotCanGo(s: State, n: int) returns (t: State)
    requires Inv(s) && IsLive(s, n) && !s.heap[s.issued[n]].repeat && s.issued[n] !in s.unqueued
    ensures LoopReaches(s, t) && Inv(t) && n in t.issued && s.issued[n] !in t.heap
  {
    hide Inv, LoopReaches, Queue;
    var a := s.issued[n];
    t := ToIdle(s);
    LoopSameOrGone(s, t, n);
    if a in t.heap {
      var u := t;
      IdleIndexed(u, n);
      var v := PolledStarts(u, TimerId(a, n));
      t := ToPassEnd(v);
      LoopThrough(u, v, t);
      LoopSameOrGone(u, t, n);
      LoopThrough(s, u, t);
      if a in t.heap {
        PassEndLater(t, n);
      }
    }
  }

  // ---- the promise

  /** From t on, whatever happens short of cancelling the timer nobody knows yet, reading through
      the pointer gives timer n's sequence. */
  ghost predicate ReadsItsOwn(t: State, a: int, n: int) {
    forall evs | Exec(t, evs).Ok? && PostCancel(TimerId(a, n)) !in evs :: ReadSequence(Exec(t, evs).value, a) == Some(n)
  }

  lemma QueuedStays(s: State, a: int)
    requires HeapOk(s) && a in s.heap && s.heap[a].interval > 0
    ensures Stays(QueueAdd(s, a), a, s.heap[a].sequence)
  {
    var t, id := QueueAdd(s, a), TimerId(a, s.heap[a].sequence);
    assert Queue(t) == Queue(s) + [AddFunctor(a)];
    IndexedAfterOne(Queue(s), AddFunctor(a), false, id);
  }

  lemma HeldByAdd(s: State, a: int)
    requires Inv(s) && Enabled(s, PostAdd(a))
    ensures 0 < a < SENTINEL && a in s.heap
    ensures var n := s.heap[a].sequence; IsLive(s, n) && s.issued[n] == a && n <= s.count
    ensures s.heap[a].repeat <==> s.heap[a].interval > 0
  {
    hide FreedOk, IndexesAgree, HeldOk, QueueOk, Owned, ArmedOk;
  }

  /** addTimer from any thread: whatever the loop thread and others do between queueInLoop and the
      read, the id is right, if and only if the timer repeats. */
  lemma ReadIsRightIffRepeating(s: State, a: int)
    requires Reachable(s) && Enabled(s, PostAdd(a))
    ensures a in s.heap && Step(s, PostAdd(a)).Ok?
    ensures ReadsItsOwn(Step(s, PostAdd(a)).value, a, s.heap[a].sequence) <==> s.heap[a].interval > 0
  {
    ReachableInv(s);
    HeldByAdd(s, a);
    StepPreserves(s, PostAdd(a));
    var t := Step(s, PostAdd(a)).value;
    var n := s.heap[a].sequence;
    if s.heap[a].interval > 0 {
      QueuedStays(s, a);
      hide Reachable, HistoryOk, Inv, Stays, Exec, Step;
      forall evs | Exec(t, evs).Ok? && PostCancel(TimerId(a, n)) !in evs
        ensures ReadSequence(Exec(t, evs).value, a) == Some(n)
      {
        RunStays(t, evs, a, n);
      }
    } else {
      hide Reachable, HistoryOk, Inv, Exec;
      var u := OneShotCanGo(t, n);
      var evs :| Exec(t, evs) == Ok(u) && LoopOnly(evs);
    }
  }

  /** For a one-shot timer the read can come after the deletion, and even after another timer has
      taken the address, whose sequence is then returned. */
  lemma LateReads(s: State, a: int) returns (deleted: seq<Event>, replaced: seq<Event>)
    requires Reachable(s) && Enabled(s, PostAdd(a)) && a in s.heap && s.heap[a].interval <= 0
    ensures Step(s, PostAdd(a)).Ok?
    ensures var t := Step(s, PostAdd(a)).value;
            && LoopOnly(deleted) && Exec(t, deleted).Ok? && ReadSequence(Exec(t, deleted).value, a) == None
            && Exec(t, replaced).Ok? && ReadSequence(Exec(t, replaced).value, a).Some?
            && ReadSequence(Exec(t, replaced).value, a) != Some(s.heap[a].sequence)
  {
    ReachableInv(s);
    HeldByAdd(s, a);
    StepPreserves(s, PostAdd(a));
    var t := Step(s, PostAdd(a)).value;
    hide Reachable, HistoryOk, Inv, Exec;
    var u := OneShotCanGo(t, s.heap[a].sequence);
    deleted :| Exec(t, deleted) == Ok(u) && LoopOnly(deleted);
    replaced := deleted + [Allocates(a, 0, 0, u.count + 1)];
    ExecAppend(t, deleted, [Allocates(a, 0, 0, u.count + 1)]);
    assert u.count >= s.heap[a].sequence by { InvParts(u); }
    AllocatesAt(u, a);
  }

  lemma AllocatesAt(u: State, a: int)
    requires a !in u.heap && 0 < a < SENTINEL
    ensures var t := Exec(u, [Allocates(a, 0, 0, u.count + 1)]);
            t.Ok? && ReadSequence(t.value, a) == Some(u.count + 1)
  {
    assert [Allocates(a, 0, 0, u.count + 1)][1..] == [];
  }

  /** The smallest case: runAt(0) from another thread on a new loop. */
  lemma OtherThreadMayReadTooLate() returns (evs: seq<Event>)
    ensures Exec(INITIAL, [Allocates(1, 0, 0, 1), PostAdd(1)] + evs).Ok?
    ensures ReadSequence(Exec(INITIAL, [Allocates(1, 0, 0, 1), PostAdd(1)] + evs).value, 1) == None
  {
    var s := Step(INITIAL, Allocates(1, 0, 0, 1)).value;
    assert Exec(s, []) == Ok(s);
    assert Exec(INITIAL, [Allocates(1, 0, 0, 1)]) == Ok(s);
    assert Exec(Step(s, PostAdd(1)).value, []) == Ok(Step(s, PostAdd(1)).value);
    assert [PostAdd(1)][1..] == [];
    assert Exec(s, [PostAdd(1)]) == Step(s, PostAdd(1));
    var deleted, replaced := LateReads(s, 1);
    evs := deleted;
    hide Step;
    var both := [Allocates(1, 0, 0, 1), PostAdd(1)];
    assert both[1..] == [PostAdd(1)];
    assert Exec(INITIAL, both) == Step(s, PostAdd(1));
    ExecAppend(INITIAL, both, evs);
  }

  // ---- on the loop thread

  ghost predicate OnlyPosts(evs: seq<Event>) { forall ev | ev in evs :: IsPost(ev) || ev.TimerSignals? }

  lemma {:induction false} PostsKeep(s: State, evs: seq<Event>, n: int)
    requires Inv(s) && IsLive(s, n) && Exec(s, evs).Ok? && OnlyPosts(evs)
    ensures Kept(s, Exec(s, evs).value, n)
    decreases |evs|
  {
    hide Inv, Step, Enabled;
    if evs == [] {
    } else {
      assert evs[0] in evs && forall ev | ev in evs[1..] :: ev in evs;
      StepPreservesIfEnabled(s, evs[0]);
      OthersKeep(s, evs[0], n);
      PostsKeep(Step(s, evs[0]).value, evs[1..], n);
    }
  }

  /** On the loop thread only other threads' posts can come between the two: called there, for
      any timer, addTimer returns the right id. */
  lemma LoopThreadReadsItsOwn(s: State, a: int, evs: seq<Event>)
    requires Reachable(s) && Enabled(s, PostAdd(a)) && OnlyPosts(evs)
    requires Exec(s, [PostAdd(a)] + evs).Ok?
    ensures a in s.heap && ReadSequence(Exec(s, [PostAdd(a)] + evs).value, a) == Some(s.heap[a].sequence)
  {
    ReachableInv(s);
    HeldByAdd(s, a);
    StepPreserves(s, PostAdd(a));
    hide Reachable, HistoryOk, Inv;
    assert ([PostAdd(a)] + evs)[1..] == evs;
    PostsKeep(Step(s, PostAdd(a)).value, evs, s.heap[a].sequence);
  }
}
