/** std::set<std::pair<Timestamp, Timer*>> as the timer queue uses it: a strictly
    increasing sequence of entries, searched with lower_bound. */
module OrderedSet {

  /** One element of the timer list: an expiration in milliseconds and a Timer address. */
  datatype Entry = Entry(when: int, addr: int)

  /** std::pair's operator<: by expiration, then by address. */
  predicate Less(a: Entry, b: Entry) {
    a.when < b.when || (a.when == b.when && a.addr < b.addr)
  }

  ghost predicate Sorted(s: seq<Entry>) {
    forall i, j | 0 <= i < j < |s| :: Less(s[i], s[j])
  }

  /** The position of the first element that is not less than e. */
  function LowerBound(s: seq<Entry>, e: Entry): (k: nat)
    ensures k <= |s|
    ensures forall i | 0 <= i < k :: Less(s[i], e)
    ensures k < |s| ==> !Less(s[k], e)
  {
    if s == [] || !Less(s[0], e) then 0 else 1 + LowerBound(s[1..], e)
  }

  predicate Contains(s: seq<Entry>, e: Entry) {
    var k := LowerBound(s, e);
    k < |s| && s[k] == e
  }

  function Insert(s: seq<Entry>, e: Entry): seq<Entry> {
    var k := LowerBound(s, e);
    if Contains(s, e) then s else s[..k] + [e] + s[k..]
  }

  function Erase(s: seq<Entry>, e: Entry): seq<Entry> {
    var k := LowerBound(s, e);
    if Contains(s, e) then s[..k] + s[k + 1..] else s
  }

  /** In a sorted list, lower_bound splits: everything before is less, nothing after is. */
  lemma LowerBoundSplits(s: seq<Entry>, e: Entry)
    requires Sorted(s)
    ensures forall i | 0 <= i < |s| :: Less(s[i], e) <==> i < LowerBound(s, e)
  {
    var k := LowerBound(s, e);
    forall i | k <= i < |s|
      ensures !Less(s[i], e)
    {
      assert i == k || Less(s[k], s[i]);
    }
  }

  /** Searching through lower_bound finds exactly the elements of a sorted list. */
  lemma ContainsIsMembership(s: seq<Entry>, e: Entry)
    requires Sorted(s)
    ensures Contains(s, e) <==> e in s
  {
    LowerBoundSplits(s, e);
    if e in s {
      var i :| 0 <= i < |s| && s[i] == e;
      assert LowerBound(s, e) == i;
    }
  }

  lemma SpliceIn(s: seq<Entry>, k: nat, e: Entry)
    requires k <= |s|
    ensures multiset(s[..k] + [e] + s[k..]) == multiset(s) + multiset{e}
  {
    assert s == s[..k] + s[k..];
  }

  lemma SpliceOut(s: seq<Entry>, k: nat)
    requires k < |s|
    ensures multiset(s[..k] + s[k + 1..]) == multiset(s) - multiset{s[k]}
  {
    assert s == s[..k] + [s[k]] + s[k + 1..];
  }

  lemma MembersOf(s: seq<Entry>, m: multiset<Entry>)
    requires multiset(s) == m
    ensures forall x :: x in s <==> x in m
  {
    forall x
      ensures x in s <==> x in m
    {
      assert x in s <==> x in multiset(s);
    }
  }

  /** Inserting a new element keeps the order and adds that element and nothing else. */
  lemma InsertAdds(s: seq<Entry>, e: Entry)
    requires Sorted(s) && e !in s
    ensures Sorted(Insert(s, e))
    ensures multiset(Insert(s, e)) == multiset(s) + multiset{e}
    ensures forall x :: x in Insert(s, e) <==> x == e || x in s
    ensures |Insert(s, e)| == |s| + 1
  {
    LowerBoundSplits(s, e);
    ContainsIsMembership(s, e);
    var k := LowerBound(s, e);
    SpliceIn(s, k, e);
    MembersOf(s, multiset(s));
    MembersOf(Insert(s, e), multiset(s) + multiset{e});
    forall i | k <= i < |s|
      ensures Less(e, s[i])
    {
      assert s[i] in s;
    }
    SpliceSorted(s, k, e);
  }

  lemma InsertFront(s: seq<Entry>, e: Entry)
    requires e !in s
    ensures Insert(s, e) != []
    ensures Insert(s, e)[0] == if s == [] || Less(e, s[0]) then e else s[0]
  {
    var k := LowerBound(s, e);
    assert k < |s| ==> s[k] in s;
    assert k > 0 ==> Insert(s, e)[0] == s[0];
  }

  lemma SpliceSorted(s: seq<Entry>, k: nat, e: Entry)
    requires Sorted(s) && k <= |s|
    requires forall i | 0 <= i < k :: Less(s[i], e)
    requires forall i | k <= i < |s| :: Less(e, s[i])
    ensures Sorted(s[..k] + [e] + s[k..])
  {
    var r := s[..k] + [e] + s[k..];
    forall i, j | 0 <= i < j < |r|
      ensures Less(r[i], r[j])
    {
      assert r[i] == if i < k then s[i] else if i == k then e else s[i - 1];
      assert r[j] == if j < k then s[j] else if j == k then e else s[j - 1];
    }
  }

  lemma OccursOnce(s: seq<Entry>, e: Entry)
    requires Sorted(s)
    ensures multiset(s)[e] <= 1
  {
    if s == [] {
    } else {
      assert s == [s[0]] + s[1..];
      OccursOnce(s[1..], e);
      assert s[0] !in s[1..];
    }
  }

  lemma EraseIs(s: seq<Entry>, e: Entry)
    requires Sorted(s) && e in s
    ensures var k := LowerBound(s, e); k < |s| && s[k] == e && Erase(s, e) == s[..k] + s[k + 1..]
  {
    ContainsIsMembership(s, e);
  }

  lemma EraseSorted(s: seq<Entry>, k: nat)
    requires Sorted(s) && k < |s|
    ensures Sorted(s[..k] + s[k + 1..])
  {
    hide Less;
  }

  /** Erasing an element keeps the order and removes that element and nothing else. */
  lemma EraseRemoves(s: seq<Entry>, e: Entry)
    requires Sorted(s) && e in s
    ensures Sorted(Erase(s, e))
    ensures multiset(Erase(s, e)) == multiset(s) - multiset{e}
    ensures forall x :: x in Erase(s, e) <==> x != e && x in s
    ensures |Erase(s, e)| == |s| - 1
  {
    hide Sorted, Erase, Contains, Less;
    EraseIs(s, e);
    var k := LowerBound(s, e);
    hide LowerBound;
    OccursOnce(s, e);
    EraseSorted(s, k);
    SpliceOut(s, k);
    ErasedMembers(s, s[..k] + s[k + 1..], e);
  }

  lemma ErasedMembers(s: seq<Entry>, r: seq<Entry>, e: Entry)
    requires multiset(r) == multiset(s) - multiset{e} && multiset(s)[e] <= 1
    ensures forall x :: x in r <==> x != e && x in s
  {
    MembersOf(s, multiset(s));
    MembersOf(r, multiset(s) - multiset{e});
  }

  lemma FirstIsLeast(s: seq<Entry>, e: Entry)
    requires Sorted(s) && e in s
    ensures s[0].when <= e.when
  {
  }

  lemma PartsOf(s: seq<Entry>, k: nat)
    requires Sorted(s) && k <= |s|
    ensures Sorted(s[..k]) && Sorted(s[k..])
    ensures forall e :: e in s <==> e in s[..k] || e in s[k..]
    ensures forall e :: !(e in s[..k] && e in s[k..])
  {
    forall e
      ensures e in s <==> e in s[..k] || e in s[k..]
    {
      assert s == s[..k] + s[k..];
    }
  }
}
