/** What one handleRead does as a whole, whatever is posted while it runs. */
module TimerPass {
  import opened OrderedSet
  import opened TimerSpec
  import opened TimerInvariant
  import opened TimerGuarantees
  import opened TimerProgress

  /** The timer at this address was among the first `done` expired entries of the pass, and repeats. */
  predicate Renewed(s: State, expired: seq<Entry>, done: nat, a: int)
    requires done <= |expired|
  {
    a in s.heap && s.heap[a].repeat && KeyOf(s, a) in expired[..done]
  }

  /** How far a pass that began in s at `now` has come in u, reset having dealt with `done` entries. */
  ghost predicate Progress(s: State, now: int, u: State, done: nat)
    requires done <= |ExpiredPart(s.timers, now)|
  {
    var expired := ExpiredPart(s.timers, now);
    && (forall e :: e in u.timers <==>
      || e in KeptPart(s.timers, now)
      || (Renewed(s, expired, done, e.addr) && e.when == now + s.heap[e.addr].interval))
    && (forall a | a in s.heap && KeyOf(s, a) !in expired[..done] :: a in u.heap && u.heap[a] == s.heap[a])
    && (forall j | 0 <= j < done && expired[j].addr in s.heap ::
      if s.heap[expired[j].addr].repeat
      then expired[j].addr in u.heap && u.heap[expired[j].addr] == Restart(s.heap[expired[j].addr], now)
      else s.heap[expired[j].addr].sequence in u.freed)
  }

  /** u is in the middle of the pass that began in s at `now`. */
  ghost predicate Underway(s: State, now: int, u: State) {
    && (forall e | e in s.timers :: e.addr in s.heap && KeyOf(s, e.addr) == e)
    && match u.phase
       case Firing(n, expired, _, _) => n == now && expired == ExpiredPart(s.timers, now) && Progress(s, now, u, 0)
       case Resetting(n, expired, next, _) =>
         n == now && expired == ExpiredPart(s.timers, now) && next <= |expired| && Progress(s, now, u, next)
       case _ => false
  }

  lemma PassBegins(s: State, now: int)
    requires Inv(s) && Enabled(s, HandleRead(now))
    ensures Step(s, HandleRead(now)).Ok? && Underway(s, now, Step(s, HandleRead(now)).value)
  {
    hide Sorted, StartFire, ExpiredPart, KeptPart;
    GetExpiredOk(s, now);
  }

  lemma PostUnderway(s: State, now: int, u: State, ev: Event)
    requires Inv(u) && Underway(s, now, u) && Step(u, ev).Ok?
    requires !ev.ResetsOne? && !ev.FinishesReset?
    ensures Underway(s, now, Step(u, ev).value)
  {
    hide Inv, ExpiredPart, KeptPart;
  }

  /** Taking one more entry into the finished part. */
  lemma DoneGrows(expired: seq<Entry>, done: nat)
    requires done < |expired|
    ensures forall e :: e in expired[..done + 1] <==> e in expired[..done] || e == expired[done]
  {
    assert expired[..done + 1] == expired[..done] + [expired[done]];
  }

  lemma ExpiredDistinct(s: State, now: int, i: nat)
    requires Inv(s) && i < |ExpiredPart(s.timers, now)|
    ensures var expired := ExpiredPart(s.timers, now);
            && expired[i] !in expired[..i]
            && (forall j | 0 <= j < |expired| && j != i :: expired[j].addr != expired[i].addr)
            && expired[i].addr in s.heap && KeyOf(s, expired[i].addr) == expired[i]
  {
    ExpiredKeyed(s, now);
    hide Inv;
    var expired := ExpiredPart(s.timers, now);
    assert forall j | 0 <= j < i :: expired[..i][j] == expired[j];
  }

  lemma RenewOne(s: State, now: int, u: State, t: State, i: nat)
    requires i < |ExpiredPart(s.timers, now)| && Progress(s, now, u, i)
    requires var expired := ExpiredPart(s.timers, now);
             var a := expired[i].addr;
             && a in s.heap && KeyOf(s, a) == expired[i] && s.heap[a].repeat && expired[i] !in expired[..i]
             && (forall j | 0 <= j < |expired| && j != i :: expired[j].addr != a)
             && t.heap == u.heap[a := Restart(s.heap[a], now)] && t.freed == u.freed
             && (forall e :: e in t.timers <==> e == Entry(now + s.heap[a].interval, a) || e in u.timers)
    ensures Progress(s, now, t, i + 1)
  {
    var expired := ExpiredPart(s.timers, now);
    DoneGrows(expired, i);
    hide ExpiredPart, KeptPart;
  }

  lemma FreeOne(s: State, now: int, u: State, t: State, i: nat)
    requires i < |ExpiredPart(s.timers, now)| && Progress(s, now, u, i)
    requires var expired := ExpiredPart(s.timers, now);
             var a := expired[i].addr;
             && a in s.heap && KeyOf(s, a) == expired[i] && !s.heap[a].repeat && expired[i] !in expired[..i]
             && (forall j | 0 <= j < |expired| && j != i :: expired[j].addr != a)
             && t.heap == u.heap - {a} && t.freed == u.freed + [s.heap[a].sequence] && t.timers == u.timers
    ensures Progress(s, now, t, i + 1)
  {
    var expired := ExpiredPart(s.timers, now);
    DoneGrows(expired, i);
    hide ExpiredPart, KeptPart;
  }

  lemma RestartedTimers(u: State)
    requires IndexesAgree(u) && Detached(u)
    ensures var t, a := Inserted(Restarted(u), NextAddress(u)), NextAddress(u);
            && t.heap == u.heap[a := Restart(u.heap[a], u.phase.now)] && t.freed == u.freed
            && forall e :: e in t.timers <==> e == KeyOf(Restarted(u), a) || e in u.timers
  {
    RestartedIndexes(u);
    assert KeyOf(Restarted(u), NextAddress(u)) !in Restarted(u).timers;
    hide Detached, IndexesAgree, Insert;
    InsertedAgree(Restarted(u), NextAddress(u));
  }

  /** What reset does with its next entry, said without the indexes. */
  lemma ResetEffect(u: State) returns (t: State)
    requires Inv(u) && Enabled(u, ResetsOne)
    ensures Step(u, ResetsOne) == Ok(t)
    ensures t.phase == Skipped(u).phase && NextAddress(u) in u.heap
    ensures var a := NextAddress(u);
            if u.heap[a].repeat
            then t.heap == u.heap[a := Restart(u.heap[a], u.phase.now)] && t.freed == u.freed
                 && forall e :: e in t.timers <==> e == Entry(u.phase.now + u.heap[a].interval, a) || e in u.timers
            else t.heap == u.heap - {a} && t.freed == u.freed + [u.heap[a].sequence] && t.timers == u.timers
  {
    ResetsIs(u);
    NextIsDetached(u);
    InvParts(u);
    hide Inv, HeapOk, FreedOk, IndexesAgree, HeldOk, QueueOk, UnqueuedOk, Owned, ArmedOk, PhaseOk;
    hide Step, Enabled, ResetNext, Insert, Detached;
    t := ResetsTo(u);
    if u.heap[NextAddress(u)].repeat {
      RestartedTimers(u);
    }
  }

  lemma ResetUnderway(s: State, now: int, u: State)
    requires Inv(s) && Inv(u) && Underway(s, now, u) && Enabled(u, ResetsOne)
    ensures Step(u, ResetsOne).Ok? && Underway(s, now, Step(u, ResetsOne).value)
  {
    hide Inv, Step;
    var t := ResetEffect(u);
    ExpiredDistinct(s, now, u.phase.next);
    StillThere(s, now, u);
    hide Progress, ExpiredPart, KeptPart;
    if u.heap[NextAddress(u)].repeat {
      RenewOne(s, now, u, t, u.phase.next);
    } else {
      FreeOne(s, now, u, t, u.phase.next);
    }
  }

  lemma StillThere(s: State, now: int, u: State)
    requires Inv(s) && Underway(s, now, u) && Enabled(u, ResetsOne)
    ensures NextAddress(u) in s.heap && NextAddress(u) in u.heap && u.heap[NextAddress(u)] == s.heap[NextAddress(u)]
  {
    ExpiredDistinct(s, now, u.phase.next);
    hide Inv, ExpiredPart, KeptPart;
  }

  lemma StepUnderway(s: State, now: int, u: State, ev: Event)
    requires Inv(s) && Inv(u) && Underway(s, now, u) && Step(u, ev).Ok? && !ev.FinishesReset?
    ensures Underway(s, now, Step(u, ev).value)
  {
    hide Inv, Underway, ResetNext;
    if ev.ResetsOne? {
      ResetUnderway(s, now, u);
    } else {
      PostUnderway(s, now, u, ev);
    }
  }

  lemma {:induction false} RunUnderway(s: State, now: int, u: State, evs: seq<Event>)
    requires Inv(s) && Inv(u) && Underway(s, now, u) && Exec(u, evs).Ok?
    requires forall ev | ev in evs :: !ev.FinishesReset?
    ensures Inv(Exec(u, evs).value) && Underway(s, now, Exec(u, evs).value)
    decreases |evs|
  {
    hide Inv, Underway, Step, Enabled;
    if evs == [] {
    } else {
      assert evs[0] in evs && forall e | e in evs[1..] :: e in evs;
      StepPreservesIfEnabled(u, evs[0]);
      StepUnderway(s, now, u, evs[0]);
      RunUnderway(s, now, Step(u, evs[0]).value, evs[1..]);
    }
  }

  /** The timer at this address expires by now, seen from the state before the pass. */
  predicate Expires(s: State, now: int, a: int) {
    a in s.heap && KeyOf(s, a) in s.timers && s.heap[a].expiration <= now
  }

  ghost predicate PassEffect(s: State, now: int, t: State) {
    && (forall e :: e in t.timers <==>
      || (e in s.timers && now < e.when)
      || (Expires(s, now, e.addr) && s.heap[e.addr].repeat && e.when == now + s.heap[e.addr].interval))
    && (forall a | Expires(s, now, a) ::
      if s.heap[a].repeat
      then a in t.heap && t.heap[a] == s.heap[a].(expiration := now + s.heap[a].interval)
      else s.heap[a].sequence in t.freed)
    && (forall a | a in s.heap && !Expires(s, now, a) :: a in t.heap && t.heap[a] == s.heap[a])
  }

  /** handleRead, from its start in s to its end in t, with anything at all posted in between:
      the timers that had not expired are pending as before; each expired repeating timer is
      pending again, one interval after the pass; each expired one-shot timer is freed; nothing
      else is pending, and no other timer has changed. */
  lemma WholePass(s: State, now: int, between: seq<Event>)
    requires Reachable(s) && Enabled(s, HandleRead(now))
    requires forall ev | ev in between :: !ev.FinishesReset?
    requires Exec(s, [HandleRead(now)] + (between + [FinishesReset])).Ok?
    ensures PassEffect(s, now, Exec(s, [HandleRead(now)] + (between + [FinishesReset])).value)
  {
    ReachableInv(s);
    hide Reachable, Inv, Underway, Step, Enabled;
    PassBegins(s, now);
    StepPreservesIfEnabled(s, HandleRead(now));
    var u := Step(s, HandleRead(now)).value;
    var tail := between + [FinishesReset];
    assert ([HandleRead(now)] + tail)[1..] == tail;
    ExecAppend(u, between, [FinishesReset]);
    RunUnderway(s, now, u, between);
    PassEnds(s, now, Exec(u, between).value);
  }

  lemma FinishedIsEffect(s: State, now: int, t: State)
    requires var expired := ExpiredPart(s.timers, now);
             && Progress(s, now, t, |expired|)
             && (forall e :: e in expired <==> e in s.timers && e.when <= now)
             && (forall e :: e in KeptPart(s.timers, now) <==> e in s.timers && now < e.when)
    ensures PassEffect(s, now, t)
  {
    var expired := ExpiredPart(s.timers, now);
    assert expired[..|expired|] == expired;
    hide ExpiredPart, KeptPart;
    forall a | Expires(s, now, a)
      ensures if s.heap[a].repeat
              then a in t.heap && t.heap[a] == s.heap[a].(expiration := now + s.heap[a].interval)
              else s.heap[a].sequence in t.freed
    {
      var j :| 0 <= j < |expired| && expired[j] == KeyOf(s, a);
    }
  }

  lemma SameProgress(s: State, now: int, v: State, t: State, done: nat)
    requires done <= |ExpiredPart(s.timers, now)| && Progress(s, now, v, done)
    requires t.timers == v.timers && t.heap == v.heap && t.freed == v.freed
    ensures Progress(s, now, t, done)
  {
    hide ExpiredPart, KeptPart;
  }

  lemma UnderwayEnd(s: State, now: int, v: State)
    requires Underway(s, now, v) && Enabled(v, FinishesReset)
    ensures Progress(s, now, v, |ExpiredPart(s.timers, now)|)
  {
    hide Progress, ExpiredPart;
  }

  lemma PassEnds(s: State, now: int, v: State)
    requires Inv(s) && Inv(v) && Underway(s, now, v) && Exec(v, [FinishesReset]).Ok?
    ensures PassEffect(s, now, Exec(v, [FinishesReset]).value)
  {
    InvParts(s);
    hide Inv, HeapOk, FreedOk, IndexesAgree, HeldOk, QueueOk, UnqueuedOk, Owned, ArmedOk, PhaseOk;
    hide Exec, Enabled, Sorted, ExpiredPart, KeptPart, Progress, PassEffect, Underway;
    FinishLeaves(v);
    UnderwayEnd(s, now, v);
    ExpirySplit(s, now);
    var t := Exec(v, [FinishesReset]).value;
    SameProgress(s, now, v, t, |ExpiredPart(s.timers, now)|);
    FinishedIsEffect(s, now, t);
  }

  lemma FinishLeaves(v: State)
    requires Exec(v, [FinishesReset]).Ok?
    ensures var t := Exec(v, [FinishesReset]).value;
            Enabled(v, FinishesReset) && t.timers == v.timers && t.heap == v.heap && t.freed == v.freed
  {
    assert [FinishesReset][1..] == [];
  }
}
