/**
 * The aggro manager of a server-side character: a list of (character id,
 * aggro) entries kept in ascending (aggro, id) order on demand, with a dirty
 * flag that records whether the order may be broken. The entry with the most
 * aggro is the last one once sorted; entries whose aggro has decayed to zero
 * or below are dropped from the front after a decay step.
 *
 * Aggro is an exact real. The float tolerance of the comparator is not
 * modelled: two aggro values tie only when they are equal.
 */
module AggroMgr {
  import opened Wrappers
  import Algorithm

  // ---------------------------------------------------------------------------
  // Entries

  datatype ReduceType = Disabled | Ratio | Value

  /** How an entry's aggro decays over time: the mode and its parameters. */
  datatype Reduction = Reduction(reduceType: ReduceType, ratioSecond: real, valueSecond: real, minAggro: real)

  /** No decay; every parameter zero. */
  const NoReduction: Reduction := Reduction(Disabled, 0.0, 0.0, 0.0)

  /** Decay by a ratio per second down to a minimum; the value parameter is zero. */
  function ByRatio(ratioSecond: real, minAggro: real): (r: Reduction)
    ensures r.reduceType == Ratio && Canonical(r)
  {
    Reduction(Ratio, ratioSecond, 0.0, minAggro)
  }

  /** Decay by a fixed value per second; the ratio and the minimum are zero. */
  function ByValue(valueSecond: real): (r: Reduction)
    ensures r.reduceType == Value && Canonical(r)
  {
    Reduction(Value, 0.0, valueSecond, 0.0)
  }

  /** The parameters a mode does not use are zero. */
  predicate Canonical(r: Reduction) {
    match r.reduceType
    case Disabled => r == NoReduction
    case Ratio => r.valueSecond == 0.0
    case Value => r.ratioSecond == 0.0 && r.minAggro == 0.0
  }

  datatype Entry = Entry(id: int, aggro: real, reduction: Reduction) {
    /** Entry::addAggro: the amount is added to the aggro; the id and the decay stay. */
    function AddAggro(amount: real): (e: Entry)
      ensures e.id == id && e.reduction == reduction
      ensures e.aggro - aggro == amount
      ensures e.aggro > aggro <==> amount > 0.0
    {
      this.(aggro := aggro + amount)
    }
  }

  /**
   * EntrySorter: ascending by aggro, equal aggro ascending by character id.
   * `a` comes first exactly when its aggro is lower, or equal with a lower id.
   */
  function EntryLess(a: Entry, b: Entry): (r: bool)
    ensures r <==> a.aggro < b.aggro || (a.aggro == b.aggro && a.id < b.id)
  {
    if a.aggro > b.aggro then false
    else if a.aggro == b.aggro then a.id < b.id
    else true
  }

  lemma EntryLessIsStrictWeakOrder()
    ensures Algorithm.StrictWeakOrder(EntryLess)
  {
  }

  ghost predicate Sorted(s: seq<Entry>) {
    Algorithm.SortedRange(s, 0, |s|, EntryLess)
  }

  /** `e` ranks at least as high as `x`: more aggro, or equal aggro and an id at least as large. */
  predicate RanksAbove(e: Entry, x: Entry) {
    x.aggro < e.aggro || (x.aggro == e.aggro && x.id <= e.id)
  }

  /** The last entry of a sorted list ranks above every entry of the list. */
  lemma LastIsHighest(s: seq<Entry>)
    requires Sorted(s) && s != []
    ensures forall x :: x in s ==> RanksAbove(s[|s| - 1], x)
  {
    forall x | x in s
      ensures RanksAbove(s[|s| - 1], x)
    {
      var p :| 0 <= p < |s| && s[p] == x;
      if p < |s| - 1 {
        assert !EntryLess(s[|s| - 1], s[p]);
      }
    }
  }

  // ---------------------------------------------------------------------------
  // Specification functions

  /** The index of the first entry for character `id`, if there is one (core::find_if). */
  function FindEntry(s: seq<Entry>, id: int): (r: Option<nat>)
    ensures r.None? <==> forall k :: 0 <= k < |s| ==> s[k].id != id
    ensures r.Some? ==> r.value < |s| && s[r.value].id == id && forall k :: 0 <= k < r.value ==> s[k].id != id
  {
    if s == [] then None
    else if s[0].id == id then Some(0)
    else match FindEntry(s[1..], id)
      case None => None
      case Some(k) => Some(k + 1)
  }

  /** The length of the leading run of entries with no aggro left (aggro <= 0). */
  function LeadingExhausted(s: seq<Entry>): (k: nat)
    ensures k <= |s|
    ensures forall i :: 0 <= i < k ==> s[i].aggro <= 0.0
    ensures k < |s| ==> s[k].aggro > 0.0
  {
    if s == [] || s[0].aggro > 0.0 then 0 else 1 + LeadingExhausted(s[1..])
  }

  /** The entries that still have aggro, in order. */
  function Remaining(s: seq<Entry>): (r: seq<Entry>)
    ensures forall x :: x in r <==> x in s && x.aggro > 0.0
  {
    if s == [] then []
    else if s[0].aggro > 0.0 then [s[0]] + Remaining(s[1..])
    else Remaining(s[1..])
  }

  /** Each entry after one decay step of `delta` milliseconds. */
  function Reduced(s: seq<Entry>, delta: int, reduce: (Entry, int) -> (Entry, bool)): (r: seq<Entry>)
    ensures |r| == |s| && forall i :: 0 <= i < |s| ==> r[i] == reduce(s[i], delta).0
  {
    seq(|s|, i requires 0 <= i < |s| => reduce(s[i], delta).0)
  }

  /** Some entry reported a change in the decay step. */
  ghost predicate AnyChanged(s: seq<Entry>, delta: int, reduce: (Entry, int) -> (Entry, bool)) {
    exists i :: 0 <= i < |s| && reduce(s[i], delta).1
  }

  // ---------------------------------------------------------------------------
  // Lemmas

  /** Filtering by remaining aggro counts each entry as often as the list does, or not at all. */
  lemma {:induction false} RemainingMultiset(s: seq<Entry>)
    ensures forall x :: multiset(Remaining(s))[x] == if x.aggro > 0.0 then multiset(s)[x] else 0
  {
    if s != [] {
      RemainingMultiset(s[1..]);
      assert s == [s[0]] + s[1..];
      assert multiset(s) == multiset([s[0]]) + multiset(s[1..]);
    }
  }

  /** Lists with the same entries keep the same entries with remaining aggro. */
  lemma RemainingPermutation(a: seq<Entry>, b: seq<Entry>)
    requires multiset(a) == multiset(b)
    ensures multiset(Remaining(a)) == multiset(Remaining(b))
  {
    RemainingMultiset(a);
    RemainingMultiset(b);
    assert forall x :: multiset(Remaining(a))[x] == multiset(Remaining(b))[x];
  }

  /** A sorted suffix of a sorted list is sorted. */
  lemma SortedSuffix(s: seq<Entry>, k: nat)
    requires Sorted(s) && k <= |s|
    ensures Sorted(s[k..])
  {
    forall p, q | 0 <= p < q < |s| - k
      ensures !EntryLess(s[k..][q], s[k..][p])
    {
      assert s[k..][q] == s[k + q] && s[k..][p] == s[k + p];
    }
  }

  /** When every entry has aggro left, none is filtered out. */
  lemma {:induction false} RemainingAll(s: seq<Entry>)
    requires forall i :: 0 <= i < |s| ==> s[i].aggro > 0.0
    ensures Remaining(s) == s
  {
    if s != [] {
      RemainingAll(s[1..]);
    }
  }

  /** When no entry has aggro left, every entry is filtered out. */
  lemma {:induction false} RemainingNone(s: seq<Entry>)
    requires forall i :: 0 <= i < |s| ==> s[i].aggro <= 0.0
    ensures Remaining(s) == []
  {
    if s != [] {
      RemainingNone(s[1..]);
    }
  }

  /**
   * In a sorted list the exhausted entries form a prefix, so dropping the
   * leading exhausted run leaves exactly the entries with aggro left.
   */
  lemma {:induction false} SortedCleanup(s: seq<Entry>)
    requires Sorted(s)
    ensures s[LeadingExhausted(s)..] == Remaining(s)
  {
    if s != [] {
      if s[0].aggro > 0.0 {
        forall i | 0 <= i < |s|
          ensures s[i].aggro > 0.0
        {
          if i > 0 {
            assert !EntryLess(s[i], s[0]);
          }
        }
        RemainingAll(s);
      } else {
        SortedSuffix(s, 1);
        SortedCleanup(s[1..]);
        assert s[LeadingExhausted(s)..] == s[1..][LeadingExhausted(s[1..])..];
      }
    }
  }

  // ---------------------------------------------------------------------------
  // The manager

  class AggroMgr {
    var entries: seq<Entry>
    var dirty: bool
    var reduction: Reduction

    /** A clean manager is sorted; the reduce settings are in canonical form. */
    ghost predicate Valid()
      reads this
    {
      (!dirty ==> Sorted(entries)) && Canonical(reduction)
    }

    /** count: the number of entries on the list. */
    function Count(): (n: nat)
      reads this
      ensures n == |entries|
      ensures n == 0 <==> entries == []
    {
      |entries|
    }

    constructor ()
      ensures Valid()
      ensures entries == [] && !dirty && reduction == NoReduction
    {
      entries := [];
      dirty := false;
      reduction := NoReduction;
    }

    method SetReduceByRatio(reduceRatioSecond: real, minAggro: real)
      modifies this
      ensures reduction == ByRatio(reduceRatioSecond, minAggro)
      ensures entries == old(entries) && dirty == old(dirty)
    {
      reduction := reduction.(reduceType := Ratio, valueSecond := 0.0, ratioSecond := reduceRatioSecond, minAggro := minAggro);
    }

    method SetReduceByValue(reduceValueSecond: real)
      modifies this
      ensures reduction == ByValue(reduceValueSecond)
      ensures entries == old(entries) && dirty == old(dirty)
    {
      reduction := reduction.(reduceType := Value, valueSecond := reduceValueSecond, ratioSecond := 0.0, minAggro := 0.0);
    }

    method ResetReduceValue()
      modifies this
      ensures reduction == NoReduction
      ensures entries == old(entries) && dirty == old(dirty)
    {
      reduction := reduction.(reduceType := Disabled, valueSecond := 0.0, ratioSecond := 0.0, minAggro := 0.0);
    }

    /**
     * addAggro: adds `amount` to the first entry for `id`, or appends a new
     * entry for `id` holding `amount` that decays the way the manager is set
     * to; either way the list is marked dirty. Returns the entry's index.
     */
    method AddAggro(id: int, amount: real) returns (index: nat)
      requires Valid()
      modifies this
      ensures Valid() && dirty && reduction == old(reduction)
      ensures index < |entries| && entries[index].id == id
      ensures match FindEntry(old(entries), id)
        case Some(k) => index == k && entries == old(entries)[k := old(entries)[k].AddAggro(amount)]
        case None => index == |old(entries)| && entries == old(entries) + [Entry(id, amount, reduction)]
    {
      var i := 0;
      while i < |entries| && entries[i].id != id
        invariant 0 <= i <= |entries|
        invariant forall k :: 0 <= k < i ==> entries[k].id != id
      {
        i := i + 1;
      }
      if i == |entries| {
        var newEntry := Entry(id, amount, NoReduction);
        match reduction.reduceType {
          case Ratio =>
            newEntry := newEntry.(reduction := ByRatio(reduction.ratioSecond, reduction.minAggro));
          case Value =>
            newEntry := newEntry.(reduction := ByValue(reduction.valueSecond));
          case Disabled =>
        }
        entries := entries + [newEntry];
        dirty := true;
        index := |entries| - 1;
        return;
      }
      entries := entries[i := entries[i].AddAggro(amount)];
      dirty := true;
      index := i;
    }

    /** sort: when dirty, orders the entries by EntrySorter and clears the flag. */
    method Sort()
      requires Valid()
      modifies this
      ensures Valid() && !dirty && reduction == old(reduction)
      ensures Sorted(entries) && multiset(entries) == multiset(old(entries))
      ensures !old(dirty) ==> entries == old(entries)
    {
      if !dirty {
        return;
      }
      var s := entries;
      var a := new Entry[|s|](i requires 0 <= i < |s| => s[i]);
      assert a[..] == s && a[0..a.Length] == s;
      EntryLessIsStrictWeakOrder();
      Algorithm.Sort(a, 0, a.Length, EntryLess);
      assert a[0..a.Length] == a[..];
      entries := a[..];
      dirty := false;
    }

    /** cleanupList: drops the leading run of entries that have no aggro left. */
    method CleanupList()
      requires Valid()
      modifies this
      ensures Valid() && dirty == old(dirty) && reduction == old(reduction)
      ensures entries == old(entries)[LeadingExhausted(old(entries))..]
    {
      var remove := 0;
      while remove < |entries| && entries[remove].aggro <= 0.0
        invariant 0 <= remove <= |entries|
        invariant forall i :: 0 <= i < remove ==> entries[i].aggro <= 0.0
      {
        remove := remove + 1;
      }
      assert remove == LeadingExhausted(entries) by {
        LeadingExhaustedIsRun(entries, remove);
      }
      if remove == 0 {
        return;
      }
      if |entries| == remove {
        entries := [];
        return;
      }
      if !dirty {
        SortedSuffix(entries, remove);
      }
      entries := entries[remove..];
    }

    /**
     * update: one decay step of `deltaMillis` for every entry; when anything
     * changed (or the list was already dirty) the list is sorted and its
     * exhausted entries dropped. `reduce` is Entry::reduceByTime: the decayed
     * entry and whether it changed.
     */
    method Update(deltaMillis: int, reduce: (Entry, int) -> (Entry, bool))
      requires Valid()
      requires forall e: Entry, d: int :: !reduce(e, d).1 ==> reduce(e, d).0 == e
      modifies this
      ensures Valid() && reduction == old(reduction) && !dirty
      ensures old(dirty) || AnyChanged(old(entries), deltaMillis, reduce) ==>
        Sorted(entries) && multiset(entries) == multiset(Remaining(Reduced(old(entries), deltaMillis, reduce)))
      ensures !old(dirty) && !AnyChanged(old(entries), deltaMillis, reduce) ==> entries == old(entries)
    {
      var i := 0;
      while i < |entries|
        invariant 0 <= i <= |entries| == |old(entries)| && reduction == old(reduction)
        invariant entries[..i] == Reduced(old(entries)[..i], deltaMillis, reduce)
        invariant entries[i..] == old(entries)[i..]
        invariant dirty <==> old(dirty) || exists k :: 0 <= k < i && reduce(old(entries)[k], deltaMillis).1
        invariant !dirty ==> entries == old(entries)
      {
        var r := reduce(entries[i], deltaMillis);
        ghost var before := entries;
        entries := entries[i := r.0];
        dirty := dirty || r.1;
        assert entries[..i + 1] == entries[..i] + [r.0];
        assert before[i] == old(entries)[i];
        assert old(entries)[..i + 1] == old(entries)[..i] + [old(entries)[i]];
        i := i + 1;
      }
      assert entries == Reduced(old(entries), deltaMillis, reduce) by {
        assert entries[..i] == entries && old(entries)[..i] == old(entries);
      }
      assert dirty <==> old(dirty) || AnyChanged(old(entries), deltaMillis, reduce);
      if dirty {
        ghost var reduced := entries;
        Sort();
        ghost var sorted := entries;
        CleanupList();
        SortedCleanup(sorted);
        RemainingPermutation(sorted, reduced);
      }
    }

    /**
     * getHighestEntry: nothing for an empty list; otherwise the list is sorted
     * and its last slot, holding the entry with the most aggro (ties: the
     * largest id), is returned. The result is the slot's index, as the source
     * returns a handle into the list rather than a copy of the entry.
     */
    method GetHighestEntry() returns (highest: Option<nat>)
      requires Valid()
      modifies this
      ensures Valid() && reduction == old(reduction)
      ensures multiset(entries) == multiset(old(entries))
      ensures highest.None? <==> old(entries) == []
      ensures highest.Some? ==> highest.value == |entries| - 1
      ensures highest.Some? ==> entries[highest.value] in old(entries) && forall x :: x in old(entries) ==> RanksAbove(entries[highest.value], x)
      ensures old(entries) != [] ==> !dirty && Sorted(entries)
      ensures !old(dirty) ==> entries == old(entries)
      ensures old(entries) == [] ==> entries == old(entries) && dirty == old(dirty)
    {
      if |entries| == 0 {
        return None;
      }
      Sort();
      LastIsHighest(entries);
      var last := entries[|entries| - 1];
      assert last in multiset(old(entries));
      forall x | x in old(entries)
        ensures RanksAbove(last, x)
      {
        assert x in multiset(entries);
      }
      return Some(|entries| - 1);
    }
  }

  /** A run of exhausted entries that stops at the end or at an entry with aggro is the leading run. */
  lemma {:induction false} LeadingExhaustedIsRun(s: seq<Entry>, k: nat)
    requires k <= |s|
    requires forall i :: 0 <= i < k ==> s[i].aggro <= 0.0
    requires k < |s| ==> s[k].aggro > 0.0
    ensures LeadingExhausted(s) == k
  {
    if k > 0 {
      LeadingExhaustedIsRun(s[1..], k - 1);
    }
  }

  // ---------------------------------------------------------------------------
  // The manager's test cases

  /**
   * testAggroMgr: adding aggro twice for one character accumulates into one
   * entry, seen through the handle getHighestEntry returned before the second add.
   */
  method SingleCharacter() returns (highestId: Option<int>, count: nat, aggro: real)
    ensures highestId == Some(1) && count == 1 && aggro == 2.0
  {
    var mgr := new AggroMgr();
    var id := 1;
    var _ := mgr.AddAggro(id, 1.0);
    ghost var added := mgr.entries;
    var entry := mgr.GetHighestEntry();
    highestId := if entry.Some? then Some(mgr.entries[entry.value].id) else None;
    assert |mgr.entries| == |multiset(mgr.entries)| == |multiset(added)| == 1;
    assert mgr.entries[0] in multiset(added);
    var _ := mgr.AddAggro(id, 1.0);
    count := mgr.Count();
    assert entry == Some(0) && |mgr.entries| == 1;
    aggro := mgr.entries[entry.value].aggro;
  }

  /**
   * doMassTest: characters 1..max with aggro equal to their id; the highest
   * is character max. `reduce` stands for the per-entry decay the test sets
   * up, which exhausts every entry within one second, so after update(1000)
   * the list is empty.
   */
  method MassTest(max: nat, reduce: (Entry, int) -> (Entry, bool)) returns (highestId: Option<int>, count: nat)
    requires forall e: Entry, d: int :: !reduce(e, d).1 ==> reduce(e, d).0 == e
    requires forall e: Entry :: reduce(e, 1000).1 && reduce(e, 1000).0.aggro <= 0.0
    ensures highestId == if max >= 1 then Some(max) else None
    ensures count == 0
  {
    var mgr := new AggroMgr();
    var i := 1;
    while i <= max
      invariant 1 <= i <= max + 1 || (max == 0 && i == 1)
      invariant mgr.Valid() && |mgr.entries| == i - 1
      invariant forall k :: 0 <= k < |mgr.entries| ==> mgr.entries[k].id == k + 1 && mgr.entries[k].aggro == (k + 1) as real
    {
      var _ := mgr.AddAggro(i, i as real);
      i := i + 1;
    }
    ghost var all := mgr.entries;
    var entry := mgr.GetHighestEntry();
    highestId := if entry.Some? then Some(mgr.entries[entry.value].id) else None;
    if max >= 1 {
      assert all[max - 1] in all;
      ghost var k :| 0 <= k < |all| && all[k] == mgr.entries[entry.value];
      assert RanksAbove(mgr.entries[entry.value], all[max - 1]);
    }
    ghost var before := mgr.entries;
    mgr.Update(1000, reduce);
    if before != [] {
      assert reduce(before[0], 1000).1;
      RemainingNone(Reduced(before, 1000, reduce));
      assert multiset(mgr.entries) == multiset{};
    }
    count := mgr.Count();
  }
}
