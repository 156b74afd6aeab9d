/**
 * The sorted-range algorithms of the core library: an in-place sort over an
 * iterator range, the iterator helpers next and distance, and the set
 * operations over strictly ascending inputs that write into a bounded output
 * buffer and report how many elements they wrote.
 *
 * Iterators into an array are modelled by their index.
 */
module Algorithm {

  // ---------------------------------------------------------------------------
  // Orders

  /** `lt` is a strict weak order: asymmetric, and "not less" is transitive. */
  ghost predicate StrictWeakOrder<T(!new)>(lt: (T, T) -> bool) {
    && (forall x, y :: lt(x, y) ==> !lt(y, x))
    && (forall x, y, z :: !lt(x, y) && !lt(y, z) ==> !lt(x, z))
  }

  /** The comparator core::Less<int>. */
  function Less(x: int, y: int): bool {
    x < y
  }

  /** The range [lo, hi) of `s` is ordered: no later element is less than an earlier one. */
  ghost predicate SortedRange<T>(s: seq<T>, lo: int, hi: int, lt: (T, T) -> bool)
    requires 0 <= lo <= hi <= |s|
  {
    forall p, q :: lo <= p < q < hi ==> !lt(s[q], s[p])
  }

  /** Strictly ascending: the representation of a set as a sorted buffer. */
  ghost predicate Ascending(s: seq<int>) {
    forall p, q :: 0 <= p < q < |s| ==> s[p] < s[q]
  }

  // ---------------------------------------------------------------------------
  // Iterators

  /** core::next: the iterator `n` steps after `it`. */
  function Next(it: nat, n: nat): (r: nat)
    ensures it <= r
  {
    it + n
  }

  /** core::distance: the number of steps from `first` to `last`. */
  function Distance(first: nat, last: nat): (d: int)
    ensures d >= 0 <==> first <= last
  {
    last - first
  }

  /**
   * next and distance are inverse: stepping `n` times covers a distance of
   * `n`, and stepping the distance reaches the end. Hence next(b, 0) == b, and
   * distance(begin, end) of a buffer is its size.
   */
  lemma NextDistanceInverse(it: nat, n: nat, last: nat)
    ensures Distance(it, Next(it, n)) == n
    ensures it <= last ==> Next(it, Distance(it, last)) == last
    ensures Next(it, 0) == it
  {
  }

  // ---------------------------------------------------------------------------
  // Sort

  /**
   * Swaps two elements; everything else stays in place and the array keeps its
   * elements.
   */
  method Swap<T>(a: array<T>, i: int, j: int)
    requires 0 <= i < a.Length && 0 <= j < a.Length
    modifies a
    ensures a[..] == old(a[..])[i := old(a[j])][j := old(a[i])]
    ensures multiset(a[..]) == old(multiset(a[..]))
  {
    a[i], a[j] := a[j], a[i];
  }

  /**
   * One insertion step: the element at `i` is moved left past every element
   * it is less than, so that [lo, i] becomes ordered.
   */
  method Insert<T(!new)>(a: array<T>, lo: nat, i: nat, lt: (T, T) -> bool)
    requires lo <= i < a.Length
    requires StrictWeakOrder(lt)
    requires SortedRange(a[..], lo, i, lt)
    modifies a
    ensures SortedRange(a[..], lo, i + 1, lt)
    ensures multiset(a[..]) == old(multiset(a[..]))
    ensures forall k :: 0 <= k < a.Length && !(lo <= k <= i) ==> a[k] == old(a[k])
  {
    var j := i;
    while j > lo && lt(a[j], a[j - 1])
      invariant lo <= j <= i
      invariant forall p, q :: lo <= p < q <= i && p != j && q != j ==> !lt(a[q], a[p])
      invariant forall q :: j < q <= i ==> lt(a[j], a[q])
      invariant multiset(a[..]) == old(multiset(a[..]))
      invariant forall k :: 0 <= k < a.Length && !(lo <= k <= i) ==> a[k] == old(a[k])
    {
      Swap(a, j - 1, j);
      j := j - 1;
    }
  }

  /**
   * core::sort(begin, end, comparator): orders the range [lo, hi) of `a` by
   * `lt` in place. The range ends up ordered and holding the same elements;
   * everything outside the range is untouched.
   */
  method Sort<T(!new)>(a: array<T>, lo: nat, hi: nat, lt: (T, T) -> bool)
    requires lo <= hi <= a.Length
    requires StrictWeakOrder(lt)
    modifies a
    ensures SortedRange(a[..], lo, hi, lt)
    ensures multiset(a[lo..hi]) == old(multiset(a[lo..hi]))
    ensures a[..lo] == old(a[..lo]) && a[hi..] == old(a[hi..])
  {
    ghost var orig := a[..];
    var i := lo;
    while i < hi
      invariant lo <= i <= hi
      invariant SortedRange(a[..], lo, i, lt)
      invariant multiset(a[..]) == multiset(orig)
      invariant forall k :: 0 <= k < a.Length && !(lo <= k < hi) ==> a[k] == orig[k]
    {
      Insert(a, lo, i, lt);
      i := i + 1;
    }
    assert a[..lo] == orig[..lo] && a[hi..] == orig[hi..];
    RangeMultiset(orig, a[..], lo, hi);
  }

  /** Two sequences with equal bags whose outsides agree have equal bags inside. */
  lemma RangeMultiset<T>(s: seq<T>, t: seq<T>, lo: nat, hi: nat)
    requires lo <= hi <= |s| == |t|
    requires multiset(s) == multiset(t)
    requires s[..lo] == t[..lo] && s[hi..] == t[hi..]
    ensures multiset(s[lo..hi]) == multiset(t[lo..hi])
  {
    assert s == s[..lo] + s[lo..hi] + s[hi..];
    assert t == t[..lo] + t[lo..hi] + t[hi..];
    assert multiset(s) == multiset(s[..lo]) + multiset(s[lo..hi]) + multiset(s[hi..]);
    assert multiset(t) == multiset(t[..lo]) + multiset(t[lo..hi]) + multiset(t[hi..]);
    forall x
      ensures multiset(s[lo..hi])[x] == multiset(t[lo..hi])[x]
    {
      assert multiset(s)[x] == multiset(s[..lo])[x] + multiset(s[lo..hi])[x] + multiset(s[hi..])[x];
      assert multiset(t)[x] == multiset(t[..lo])[x] + multiset(t[lo..hi])[x] + multiset(t[hi..])[x];
    }
  }

  // ---------------------------------------------------------------------------
  // Reference definitions of the set operations on ascending sequences

  /** The elements of `a` that are not in `b`, by a merge over both. */
  function Difference(a: seq<int>, b: seq<int>): seq<int>
    decreases |a| + |b|
  {
    if a == [] then []
    else if b == [] then a
    else if a[0] < b[0] then [a[0]] + Difference(a[1..], b)
    else if b[0] < a[0] then Difference(a, b[1..])
    else Difference(a[1..], b[1..])
  }

  /** The elements common to `a` and `b`, by a merge over both. */
  function Intersection(a: seq<int>, b: seq<int>): seq<int>
    decreases |a| + |b|
  {
    if a == [] || b == [] then []
    else if a[0] < b[0] then Intersection(a[1..], b)
    else if b[0] < a[0] then Intersection(a, b[1..])
    else [a[0]] + Intersection(a[1..], b[1..])
  }

  /** The elements of either, a shared element once, by a merge over both. */
  function Union(a: seq<int>, b: seq<int>): seq<int>
    decreases |a| + |b|
  {
    if a == [] then b
    else if b == [] then a
    else if a[0] < b[0] then [a[0]] + Union(a[1..], b)
    else if b[0] < a[0] then [b[0]] + Union(a, b[1..])
    else [a[0]] + Union(a[1..], b[1..])
  }

  /** The first `cap` elements of `s`, or all of them. */
  function Take(s: seq<int>, cap: nat): (r: seq<int>)
    ensures |r| == if |s| < cap then |s| else cap
    ensures r == s[..|r|]
  {
    if |s| <= cap then s else s[..cap]
  }

  // ---------------------------------------------------------------------------
  // What the reference definitions mean

  lemma AscendingTail(s: seq<int>)
    requires Ascending(s) && s != []
    ensures Ascending(s[1..])
    ensures s[0] !in s[1..]
    ensures forall x :: x in s ==> x == s[0] || x in s[1..]
  {
    assert s == [s[0]] + s[1..];
  }

  lemma AscendingCons(x: int, s: seq<int>)
    requires Ascending(s)
    requires forall y :: y in s ==> x < y
    ensures Ascending([x] + s)
  {
    forall q | 0 < q < |[x] + s|
      ensures x < ([x] + s)[q]
    {
      assert ([x] + s)[q] == s[q - 1];
      assert s[q - 1] in s;
    }
  }

  /** An element below the head of an ascending sequence is not in it. */
  lemma BelowHeadNotIn(x: int, s: seq<int>)
    requires Ascending(s) && s != [] && x < s[0]
    ensures x !in s
  {
  }

  /** sortedDifference emits exactly the elements of `a` absent from `b`. */
  lemma {:induction false} DifferenceMembers(a: seq<int>, b: seq<int>)
    requires Ascending(a) && Ascending(b)
    ensures forall x :: x in Difference(a, b) <==> x in a && x !in b
    decreases |a| + |b|
  {
    if a == [] || b == [] {
    } else if a[0] < b[0] {
      AscendingTail(a);
      DifferenceMembers(a[1..], b);
      BelowHeadNotIn(a[0], b);
    } else if b[0] < a[0] {
      AscendingTail(b);
      DifferenceMembers(a, b[1..]);
      BelowHeadNotIn(b[0], a);
    } else {
      AscendingTail(a);
      AscendingTail(b);
      DifferenceMembers(a[1..], b[1..]);
    }
  }

  /** sortedDifference emits its elements in ascending order. */
  lemma {:induction false} DifferenceAscending(a: seq<int>, b: seq<int>)
    requires Ascending(a) && Ascending(b)
    ensures Ascending(Difference(a, b))
    decreases |a| + |b|
  {
    if a == [] || b == [] {
    } else if a[0] < b[0] {
      AscendingTail(a);
      DifferenceAscending(a[1..], b);
      DifferenceMembers(a[1..], b);
      AscendingCons(a[0], Difference(a[1..], b));
    } else if b[0] < a[0] {
      AscendingTail(b);
      DifferenceAscending(a, b[1..]);
    } else {
      AscendingTail(a);
      AscendingTail(b);
      DifferenceAscending(a[1..], b[1..]);
    }
  }

  /** sortedIntersection emits exactly the elements common to both inputs. */
  lemma {:induction false} IntersectionMembers(a: seq<int>, b: seq<int>)
    requires Ascending(a) && Ascending(b)
    ensures forall x :: x in Intersection(a, b) <==> x in a && x in b
    decreases |a| + |b|
  {
    if a == [] || b == [] {
    } else if a[0] < b[0] {
      AscendingTail(a);
      IntersectionMembers(a[1..], b);
      BelowHeadNotIn(a[0], b);
    } else if b[0] < a[0] {
      AscendingTail(b);
      IntersectionMembers(a, b[1..]);
      BelowHeadNotIn(b[0], a);
    } else {
      AscendingTail(a);
      AscendingTail(b);
      IntersectionMembers(a[1..], b[1..]);
    }
  }

  /** sortedIntersection emits its elements in ascending order. */
  lemma {:induction false} IntersectionAscending(a: seq<int>, b: seq<int>)
    requires Ascending(a) && Ascending(b)
    ensures Ascending(Intersection(a, b))
    decreases |a| + |b|
  {
    if a == [] || b == [] {
    } else if a[0] < b[0] {
      AscendingTail(a);
      IntersectionAscending(a[1..], b);
    } else if b[0] < a[0] {
      AscendingTail(b);
      IntersectionAscending(a, b[1..]);
    } else {
      AscendingTail(a);
      AscendingTail(b);
      IntersectionAscending(a[1..], b[1..]);
      IntersectionMembers(a[1..], b[1..]);
      AscendingCons(a[0], Intersection(a[1..], b[1..]));
    }
  }

  /** sortedUnion emits every element of either input, and nothing else. */
  lemma {:induction false} UnionMembers(a: seq<int>, b: seq<int>)
    ensures forall x :: x in Union(a, b) <==> x in a || x in b
    decreases |a| + |b|
  {
    if a == [] || b == [] {
    } else if a[0] < b[0] {
      UnionMembers(a[1..], b);
      assert a == [a[0]] + a[1..];
    } else if b[0] < a[0] {
      UnionMembers(a, b[1..]);
      assert b == [b[0]] + b[1..];
    } else {
      UnionMembers(a[1..], b[1..]);
      assert a == [a[0]] + a[1..];
      assert b == [b[0]] + b[1..];
    }
  }

  /** sortedUnion emits its elements in ascending order, so a shared one only once. */
  lemma {:induction false} UnionAscending(a: seq<int>, b: seq<int>)
    requires Ascending(a) && Ascending(b)
    ensures Ascending(Union(a, b))
    decreases |a| + |b|
  {
    if a == [] || b == [] {
    } else if a[0] < b[0] {
      AscendingTail(a);
      UnionAscending(a[1..], b);
      UnionMembers(a[1..], b);
      AscendingCons(a[0], Union(a[1..], b));
    } else if b[0] < a[0] {
      AscendingTail(b);
      UnionAscending(a, b[1..]);
      UnionMembers(a, b[1..]);
      AscendingCons(b[0], Union(a, b[1..]));
    } else {
      AscendingTail(a);
      AscendingTail(b);
      UnionAscending(a[1..], b[1..]);
      UnionMembers(a[1..], b[1..]);
      AscendingCons(a[0], Union(a[1..], b[1..]));
    }
  }

  /** Two ascending sequences with the same elements are equal. */
  lemma {:induction false} AscendingUnique(s: seq<int>, t: seq<int>)
    requires Ascending(s) && Ascending(t)
    requires forall x :: x in s <==> x in t
    ensures s == t
  {
    if s != [] {
      assert s[0] in s;
    }
    if t != [] {
      assert t[0] in t;
    }
    if s != [] && t != [] {
      AscendingTail(s);
      AscendingTail(t);
      assert s[0] == t[0] by {
        assert s[0] in t && t[0] in s;
      }
      AscendingUnique(s[1..], t[1..]);
      assert s == [s[0]] + s[1..] && t == [t[0]] + t[1..];
    }
  }

  /** The result of sortedIntersection does not depend on the argument order. */
  lemma IntersectionSymmetric(a: seq<int>, b: seq<int>)
    requires Ascending(a) && Ascending(b)
    ensures Intersection(a, b) == Intersection(b, a)
  {
    IntersectionMembers(a, b);
    IntersectionMembers(b, a);
    IntersectionAscending(a, b);
    IntersectionAscending(b, a);
    AscendingUnique(Intersection(a, b), Intersection(b, a));
  }

  /** The result of sortedUnion does not depend on the argument order. */
  lemma {:induction false} UnionSymmetric(a: seq<int>, b: seq<int>)
    ensures Union(a, b) == Union(b, a)
    decreases |a| + |b|
  {
    if a == [] || b == [] {
    } else if a[0] < b[0] {
      UnionSymmetric(a[1..], b);
    } else if b[0] < a[0] {
      UnionSymmetric(a, b[1..]);
    } else {
      UnionSymmetric(a[1..], b[1..]);
    }
  }

  // ---------------------------------------------------------------------------
  // One step of each merge, on suffixes of the inputs

  lemma DifferenceStep(a: seq<int>, b: seq<int>, i: nat, j: nat)
    requires i < |a| && j <= |b|
    ensures j == |b| ==> Difference(a[i..], b[j..]) == [a[i]] + Difference(a[i + 1..], b[j..])
    ensures j < |b| && a[i] < b[j] ==> Difference(a[i..], b[j..]) == [a[i]] + Difference(a[i + 1..], b[j..])
    ensures j < |b| && b[j] < a[i] ==> Difference(a[i..], b[j..]) == Difference(a[i..], b[j + 1..])
    ensures j < |b| && a[i] == b[j] ==> Difference(a[i..], b[j..]) == Difference(a[i + 1..], b[j + 1..])
  {
    assert a[i..][0] == a[i] && a[i..][1..] == a[i + 1..];
    if j < |b| {
      assert b[j..][0] == b[j] && b[j..][1..] == b[j + 1..];
    } else {
      assert b[j..] == [];
      if i + 1 == |a| {
        assert a[i + 1..] == [];
      }
    }
  }

  lemma IntersectionStep(a: seq<int>, b: seq<int>, i: nat, j: nat)
    requires i < |a| && j < |b|
    ensures a[i] < b[j] ==> Intersection(a[i..], b[j..]) == Intersection(a[i + 1..], b[j..])
    ensures b[j] < a[i] ==> Intersection(a[i..], b[j..]) == Intersection(a[i..], b[j + 1..])
    ensures a[i] == b[j] ==> Intersection(a[i..], b[j..]) == [a[i]] + Intersection(a[i + 1..], b[j + 1..])
  {
    assert a[i..][0] == a[i] && a[i..][1..] == a[i + 1..];
    assert b[j..][0] == b[j] && b[j..][1..] == b[j + 1..];
  }

  /** Unfolding the union merge when the head of the `a` suffix goes out first. */
  lemma UnionStepA(a: seq<int>, b: seq<int>, i: nat, j: nat)
    requires i < |a| && j <= |b|
    requires j == |b| || a[i] < b[j]
    ensures Union(a[i..], b[j..]) == [a[i]] + Union(a[i + 1..], b[j..])
  {
    assert a[i..][0] == a[i] && a[i..][1..] == a[i + 1..];
    if j < |b| {
      assert b[j..][0] == b[j];
    } else if i + 1 == |a| {
      assert a[i + 1..] == [] && b[j..] == [];
    } else {
      assert b[j..] == [];
    }
  }

  /** Unfolding the union merge when the head of the `b` suffix goes out first. */
  lemma UnionStepB(a: seq<int>, b: seq<int>, i: nat, j: nat)
    requires i <= |a| && j < |b|
    requires i == |a| || b[j] < a[i]
    ensures Union(a[i..], b[j..]) == [b[j]] + Union(a[i..], b[j + 1..])
  {
    assert b[j..][0] == b[j] && b[j..][1..] == b[j + 1..];
    if i < |a| {
      assert a[i..][0] == a[i];
    } else if j + 1 == |b| {
      assert b[j + 1..] == [] && a[i..] == [];
    } else {
      assert a[i..] == [];
    }
  }

  /** Unfolding the union merge when both heads are equal: it goes out once. */
  lemma UnionStepBoth(a: seq<int>, b: seq<int>, i: nat, j: nat)
    requires i < |a| && j < |b| && a[i] == b[j]
    ensures Union(a[i..], b[j..]) == [a[i]] + Union(a[i + 1..], b[j + 1..])
  {
    assert a[i..][0] == a[i] && a[i..][1..] == a[i + 1..];
    assert b[j..][0] == b[j] && b[j..][1..] == b[j + 1..];
  }

  // ---------------------------------------------------------------------------
  // The buffer-filling set operations

  /**
   * core::sortedDifference(buf1, n1, buf2, n2, out, outSize, amount): writes
   * the elements of `a` that are not in `b` into `out`, ascending, stopping
   * when `out` is full; `amount` is the number written.
   */
  method SortedDifference(a: array<int>, b: array<int>, out: array<int>) returns (amount: nat)
    requires out != a && out != b
    modifies out
    ensures amount == |Take(Difference(a[..], b[..]), out.Length)|
    ensures out[..amount] == Take(Difference(a[..], b[..]), out.Length)
    ensures out[amount..] == old(out[amount..])
  {
    var i, j := 0, 0;
    amount := 0;
    while i < a.Length && amount < out.Length
      invariant 0 <= i <= a.Length && 0 <= j <= b.Length && amount <= out.Length
      invariant Difference(a[..], b[..]) == out[..amount] + Difference(a[i..], b[j..])
      invariant out[amount..] == old(out[amount..])
      decreases a.Length - i + b.Length - j
    {
      DifferenceStep(a[..], b[..], i, j);
      if j >= b.Length || a[i] < b[j] {
        Emit(Difference(a[..], b[..]), out[..amount], a[i], Difference(a[i + 1..], b[j..]));
        out[amount] := a[i];
        assert out[..amount + 1] == out[..amount] + [a[i]];
        amount, i := amount + 1, i + 1;
      } else if b[j] < a[i] {
        j := j + 1;
      } else {
        i, j := i + 1, j + 1;
      }
    }
    assert amount < out.Length ==> a[i..] == [];
    StopFull(Difference(a[..], b[..]), out[..amount], Difference(a[i..], b[j..]), out.Length);
  }

  /**
   * The merge loop's exit: either the remaining output is empty or the buffer
   * is full, and in both cases the buffer holds the truncated result.
   */
  lemma StopFull(full: seq<int>, written: seq<int>, rest: seq<int>, cap: nat)
    requires full == written + rest
    requires |written| <= cap
    requires rest == [] || |written| == cap
    ensures |written| == |Take(full, cap)| && written == Take(full, cap)
  {
  }

  /**
   * core::sortedIntersection: writes the elements common to `a` and `b` into
   * `out`, ascending, stopping when `out` is full.
   */
  method SortedIntersection(a: array<int>, b: array<int>, out: array<int>) returns (amount: nat)
    requires out != a && out != b
    modifies out
    ensures amount <= out.Length
    ensures amount == |Take(Intersection(a[..], b[..]), out.Length)|
    ensures out[..amount] == Take(Intersection(a[..], b[..]), out.Length)
    ensures out[amount..] == old(out[amount..])
  {
    var i, j := 0, 0;
    amount := 0;
    while i < a.Length && j < b.Length && amount < out.Length
      invariant 0 <= i <= a.Length && 0 <= j <= b.Length && amount <= out.Length
      invariant Intersection(a[..], b[..]) == out[..amount] + Intersection(a[i..], b[j..])
      invariant out[amount..] == old(out[amount..])
      decreases a.Length - i + b.Length - j
    {
      IntersectionStep(a[..], b[..], i, j);
      if a[i] < b[j] {
        i := i + 1;
      } else if b[j] < a[i] {
        j := j + 1;
      } else {
        Emit(Intersection(a[..], b[..]), out[..amount], a[i], Intersection(a[i + 1..], b[j + 1..]));
        out[amount] := a[i];
        assert out[..amount + 1] == out[..amount] + [a[i]];
        amount, i, j := amount + 1, i + 1, j + 1;
      }
    }
    assert amount < out.Length ==> (a[i..] == [] || b[j..] == []);
    StopFull(Intersection(a[..], b[..]), out[..amount], Intersection(a[i..], b[j..]), out.Length);
  }

  /**
   * core::sortedUnion: writes every element of `a` or `b` into `out`,
   * ascending, a shared element once, stopping when `out` is full.
   */
  method SortedUnion(a: array<int>, b: array<int>, out: array<int>) returns (amount: nat)
    requires out != a && out != b
    modifies out
    ensures amount == |Take(Union(a[..], b[..]), out.Length)|
    ensures out[..amount] == Take(Union(a[..], b[..]), out.Length)
    ensures out[amount..] == old(out[amount..])
  {
    var i, j := 0, 0;
    amount := 0;
    while (i < a.Length || j < b.Length) && amount < out.Length
      invariant 0 <= i <= a.Length && 0 <= j <= b.Length && amount <= out.Length
      invariant Union(a[..], b[..]) == out[..amount] + Union(a[i..], b[j..])
      invariant out[amount..] == old(out[amount..])
      decreases a.Length - i + b.Length - j
    {
      var next: int;
      if j >= b.Length || (i < a.Length && a[i] < b[j]) {
        UnionStepA(a[..], b[..], i, j);
        next, i := a[i], i + 1;
      } else if i >= a.Length || b[j] < a[i] {
        UnionStepB(a[..], b[..], i, j);
        next, j := b[j], j + 1;
      } else {
        UnionStepBoth(a[..], b[..], i, j);
        next, i, j := a[i], i + 1, j + 1;
      }
      Emit(Union(a[..], b[..]), out[..amount], next, Union(a[i..], b[j..]));
      assert out[amount + 1..] == old(out[amount..])[1..];
      out[amount] := next;
      assert out[..amount + 1] == out[..amount] + [next];
      amount := amount + 1;
    }
    assert amount < out.Length ==> (a[i..] == [] && b[j..] == []);
    StopFull(Union(a[..], b[..]), out[..amount], Union(a[i..], b[j..]), out.Length);
  }

  /** Writing the next element of a merge moves it from the remaining output to the written part. */
  lemma Emit(full: seq<int>, written: seq<int>, next: int, rest: seq<int>)
    requires full == written + ([next] + rest)
    ensures full == (written + [next]) + rest
  {
  }

}
