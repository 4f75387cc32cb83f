/** Which slots one call of Poller::poll reports, given what its successive waits return. */
module PollScan {

  /** Slots from `start` on; waits[0] is the result of waiting on the suffix that begins there.
      A result that is not an index into the suffix (a timeout, a failure) ends the scan. */
  function Scan(n: int, start: int, waits: seq<nat>): (slots: seq<int>)
    requires 0 <= start <= n
    decreases n - start
  {
    if waits == [] || waits[0] >= n - start then []
    else [start + waits[0]] + Scan(n, start + waits[0] + 1, waits[1..])
  }

  lemma ScanStep(n: int, start: int, waits: seq<nat>)
    requires 0 <= start <= n
    ensures var slots := Scan(n, start, waits);
            if waits != [] && waits[0] < n - start
            then slots != [] && slots[0] == start + waits[0] && slots[1..] == Scan(n, slots[0] + 1, waits[1..])
            else slots == []
  {
  }

  /** Slot 0 is the wakeup event: if it is reported first, nothing else is looked at. */
  function PollSlots(n: int, waits: seq<nat>): seq<int>
    requires 0 <= n
  {
    if waits == [] || waits[0] >= n || waits[0] == 0 then [] else Scan(n, 0, waits)
  }

  ghost predicate Increasing(slots: seq<int>) {
    forall i, j | 0 <= i < j < |slots| :: slots[i] < slots[j]
  }

  /** Whatever the waits return, each reported slot is reported once, in increasing order. */
  lemma {:induction false} ScanIncreases(n: int, start: int, waits: seq<nat>)
    requires 0 <= start <= n
    ensures Increasing(Scan(n, start, waits))
    ensures forall i | i in Scan(n, start, waits) :: start <= i < n
    decreases n - start
  {
    if waits == [] || waits[0] >= n - start {
    } else {
      var first := start + waits[0];
      var rest := Scan(n, first + 1, waits[1..]);
      ScanIncreases(n, first + 1, waits[1..]);
      assert Scan(n, start, waits) == [first] + rest;
      hide Scan;
      FirstIncreases(first, rest);
    }
  }

  lemma FirstIncreases(first: int, rest: seq<int>)
    requires Increasing(rest) && forall i | i in rest :: first < i
    ensures Increasing([first] + rest)
    ensures forall i :: i in [first] + rest <==> i == first || i in rest
  {
    assert forall i | 0 <= i < |rest| :: rest[i] in rest;
  }

  lemma SlotsIncrease(n: int, waits: seq<nat>)
    requires 0 <= n
    ensures var slots := PollSlots(n, waits);
            Increasing(slots) && forall k | 0 <= k < |slots| :: 1 <= slots[k] < n
    ensures waits != [] && waits[0] == 0 ==> PollSlots(n, waits) == []
  {
    if waits == [] || waits[0] >= n || waits[0] == 0 {
    } else {
      var slots := PollSlots(n, waits);
      ScanIncreases(n, 0, waits);
      ScanStep(n, 0, waits);
      hide Scan, PollSlots;
      forall k | 0 <= k < |slots|
        ensures 1 <= slots[k] < n
      {
        assert slots[k] in slots && slots[0] <= slots[k];
      }
    }
  }

  /** Where the wait after the first k reported slots begins. */
  function NextStart(start: int, slots: seq<int>, k: nat): int
    requires k <= |slots|
  {
    if k == 0 then start else slots[k - 1] + 1
  }

  /** The k-th slot is what the k-th wait reported; the scan ends only where a wait reports no slot of
      its suffix, or at the end of the results. */
  ghost predicate EachWaitCounts(n: int, start: int, waits: seq<nat>, slots: seq<int>) {
    && |slots| <= |waits|
    && (forall k | 0 <= k < |slots| :: slots[k] == NextStart(start, slots, k) + waits[k] < n)
    && (|slots| < |waits| ==> waits[|slots|] >= n - NextStart(start, slots, |slots|))
  }

  lemma {:induction false} ScanCountsEach(n: int, start: int, waits: seq<nat>)
    requires 0 <= start <= n
    ensures EachWaitCounts(n, start, waits, Scan(n, start, waits))
    decreases n - start
  {
    if waits == [] || waits[0] >= n - start {
    } else {
      var slots, first := Scan(n, start, waits), start + waits[0];
      var rest := Scan(n, first + 1, waits[1..]);
      ScanCountsEach(n, first + 1, waits[1..]);
      assert slots == [first] + rest;
      hide Scan;
      forall k | 0 <= k < |slots|
        ensures slots[k] == NextStart(start, slots, k) + waits[k] < n
      {
        if k > 0 {
          assert rest[k - 1] == NextStart(first + 1, rest, k - 1) + waits[1..][k - 1];
        }
      }
      assert NextStart(start, slots, |slots|) == NextStart(first + 1, rest, |rest|);
    }
  }

  /** poll, whatever the waits return: nothing if the first wait reports the wakeup event, otherwise a
      slot for each wait until one reports none. */
  lemma PollCountsEach(n: int, waits: seq<nat>)
    requires 0 <= n
    ensures if waits != [] && waits[0] == 0 then PollSlots(n, waits) == []
            else EachWaitCounts(n, 0, waits, PollSlots(n, waits))
  {
    ScanCountsEach(n, 0, waits);
  }

  /** WaitForMultipleObjects reports the lowest signalled index of the suffix it is given. */
  function Lowest(signalled: seq<bool>, start: int): int
    requires 0 <= start <= |signalled|
    ensures start <= Lowest(signalled, start) <= |signalled|
    decreases |signalled| - start
  {
    if start == |signalled| || signalled[start] then start else Lowest(signalled, start + 1)
  }

  lemma {:induction false} LowestIsFirst(signalled: seq<bool>, start: int)
    requires 0 <= start <= |signalled|
    ensures var k := Lowest(signalled, start);
            (k < |signalled| ==> signalled[k]) && forall i | start <= i < k :: !signalled[i]
    decreases |signalled| - start
  {
    if start < |signalled| && !signalled[start] {
      LowestIsFirst(signalled, start + 1);
    }
  }

  const WAIT_TIMEOUT: nat := 258

  /** The results of waiting again and again while the set of signalled handles stays the same. */
  function LowestWaits(signalled: seq<bool>, start: int): seq<nat>
    requires 0 <= start <= |signalled| <= WAIT_TIMEOUT
    decreases |signalled| - start
  {
    var k := Lowest(signalled, start);
    if k == |signalled| then [WAIT_TIMEOUT] else [k - start] + LowestWaits(signalled, k + 1)
  }

  /** With a fixed set of signalled handles, the scan reports exactly those. */
  lemma {:induction false} ScanIsExact(signalled: seq<bool>, start: int)
    requires 0 <= start <= |signalled| <= WAIT_TIMEOUT
    ensures forall i :: i in Scan(|signalled|, start, LowestWaits(signalled, start))
                        <==> start <= i < |signalled| && signalled[i]
    decreases |signalled| - start
  {
    LowestIsFirst(signalled, start);
    var k := Lowest(signalled, start);
    var waits := LowestWaits(signalled, start);
    if k < |signalled| {
      assert waits[1..] == LowestWaits(signalled, k + 1);
      ScanIsExact(signalled, k + 1);
      assert Scan(|signalled|, start, waits) == [k] + Scan(|signalled|, k + 1, LowestWaits(signalled, k + 1));
    }
  }

  /** poll over a fixed set of signalled handles: nothing if the wakeup event is among them,
      otherwise exactly the signalled slots, each once and in order. */
  lemma PollIsExact(signalled: seq<bool>)
    requires 1 <= |signalled| <= WAIT_TIMEOUT
    ensures var slots := PollSlots(|signalled|, LowestWaits(signalled, 0));
            && Increasing(slots)
            && (signalled[0] ==> slots == [])
            && (!signalled[0] ==> forall i :: i in slots <==> 1 <= i < |signalled| && signalled[i])
  {
    ScanIncreases(|signalled|, 0, LowestWaits(signalled, 0));
    ScanIsExact(signalled, 0);
    LowestIsFirst(signalled, 0);
  }
}
