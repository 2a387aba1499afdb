/** Keeping the newest entries of a list in place (electron/coordinator/persistence.ts): a stable
    newest-first sort chooses, a filter keeps the list's own order. */
module Compaction {
  import opened Common

  // ---- the newest-first order -------------------------------------------------

  /** Position `i` sorts before position `j`: newer, or as new and earlier in the list. */
  predicate Newer(at: seq<int>, i: nat, j: nat)
    requires i < |at| && j < |at|
  {
    at[i] > at[j] || (at[i] == at[j] && i < j)
  }

  predicate InRange(at: seq<int>, c: seq<nat>) {
    forall k :: 0 <= k < |c| ==> c[k] < |at|
  }

  predicate Ascending(c: seq<nat>) {
    forall k, m :: 0 <= k < m < |c| ==> c[k] < c[m]
  }

  predicate NewestFirst(at: seq<int>, c: seq<nat>) {
    InRange(at, c) && forall k, m :: 0 <= k < m < |c| ==> Newer(at, c[k], c[m])
  }

  /** A stable insertion: an equally new later entry stays behind. */
  function Insert(at: seq<int>, x: nat, c: seq<nat>): (r: seq<nat>)
    requires x < |at| && InRange(at, c)
    ensures InRange(at, r) && |r| == |c| + 1 && multiset(r) == multiset(c) + multiset{x}
  {
    if c == [] then [x]
    else if at[x] >= at[c[0]] then
      [x] + c
    else
      assert c == [c[0]] + c[1..];
      [c[0]] + Insert(at, x, c[1..])
  }

  function SortNewest(at: seq<int>, c: seq<nat>): (r: seq<nat>)
    requires InRange(at, c)
    ensures InRange(at, r) && |r| == |c| && multiset(r) == multiset(c)
  {
    if c == [] then []
    else
      assert c == [c[0]] + c[1..];
      Insert(at, c[0], SortNewest(at, c[1..]))
  }

  lemma InMultiset(a: seq<nat>, b: seq<nat>, x: nat)
    requires multiset(a) == multiset(b)
    ensures x in a <==> x in b
  {
    assert x in a <==> x in multiset(a);
    assert x in b <==> x in multiset(b);
  }

  lemma TailIsSorted(at: seq<int>, c: seq<nat>)
    requires NewestFirst(at, c) && c != []
    ensures NewestFirst(at, c[1..]) && forall y :: y in c[1..] ==> y in c && y < |at| && Newer(at, c[0], y)
  {
  }

  lemma {:induction false} InsertSorts(at: seq<int>, x: nat, c: seq<nat>)
    requires x < |at| && NewestFirst(at, c) && forall y :: y in c ==> x < y
    ensures NewestFirst(at, Insert(at, x, c))
  {
    if c == [] {
    } else if at[x] >= at[c[0]] {
      assert forall k :: 0 <= k < |c| ==> c[k] in c;
      assert forall k :: 0 < k < |c| ==> Newer(at, c[0], c[k]);
    } else {
      TailIsSorted(at, c);
      InsertSorts(at, x, c[1..]);
      var rest := Insert(at, x, c[1..]);
      forall k | 0 <= k < |rest|
        ensures Newer(at, c[0], rest[k])
      {
        InsertedFrom(at, x, c[1..], rest[k]);
      }
    }
  }

  lemma InsertedFrom(at: seq<int>, x: nat, c: seq<nat>, y: nat)
    requires x < |at| && InRange(at, c) && y in Insert(at, x, c)
    ensures y == x || y in c
  {
    assert y in multiset(Insert(at, x, c));
  }

  lemma {:induction false} SortSorts(at: seq<int>, c: seq<nat>)
    requires InRange(at, c) && Ascending(c)
    ensures NewestFirst(at, SortNewest(at, c))
  {
    if c != [] {
      SortSorts(at, c[1..]);
      var rest := SortNewest(at, c[1..]);
      forall y | y in rest
        ensures c[0] < y
      {
        InMultiset(rest, c[1..], y);
      }
      InsertSorts(at, c[0], rest);
    }
  }

  /** A sorted list repeats nothing. */
  lemma SortedIsDistinct(at: seq<int>, c: seq<nat>)
    requires NewestFirst(at, c)
    ensures NoDuplicates(c)
  {
    forall i, j | 0 <= i < j < |c|
      ensures c[i] != c[j]
    {
      assert Newer(at, c[i], c[j]);
    }
  }

  // ---- filters by position ----------------------------------------------------

  /** The entries at the kept positions below `n`, in list order. */
  function KeepUpTo<T>(xs: seq<T>, n: nat, keep: set<nat>): seq<T>
    requires n <= |xs|
  {
    if n == 0 then [] else KeepUpTo(xs, n - 1, keep) + (if n - 1 in keep then [xs[n - 1]] else [])
  }

  function Filter<T>(xs: seq<T>, p: T -> bool): seq<T> {
    if xs == [] then []
    else
      var last := xs[|xs| - 1];
      Filter(xs[..|xs| - 1], p) + (if p(last) then [last] else [])
  }

  function Not<T>(p: T -> bool): T -> bool {
    x => !p(x)
  }

  function Mapped<T>(xs: seq<T>, f: T -> T): seq<T> {
    seq(|xs|, i requires 0 <= i < |xs| => f(xs[i]))
  }

  function Positions<T>(xs: seq<T>, p: T -> bool): (r: seq<nat>)
    ensures Ascending(r) && forall i: nat :: i in r <==> i < |xs| && p(xs[i])
    ensures |r| == |Filter(xs, p)| && forall k :: 0 <= k < |r| ==> r[k] < |xs|
  {
    if xs == [] then []
    else
      var n := |xs| - 1;
      var low := Positions(xs[..n], p);
      assert forall k :: 0 <= k < |low| ==> low[k] in low;
      low + (if p(xs[n]) then [n] else [])
  }

  /** One entry more: how a filter of the kept list grows. */
  lemma FilterAppend<T>(xs: seq<T>, x: T, p: T -> bool)
    ensures Filter(xs + [x], p) == Filter(xs, p) + (if p(x) then [x] else [])
  {
    assert (xs + [x])[..|xs|] == xs;
  }

  /** Entries of a kind that is always kept are kept in order. */
  lemma {:induction false} FilterOfKept<T>(xs: seq<T>, n: nat, keep: set<nat>, p: T -> bool)
    requires n <= |xs| && forall i :: 0 <= i < n && p(xs[i]) ==> i in keep
    ensures Filter(KeepUpTo(xs, n, keep), p) == Filter(xs[..n], p)
  {
    if n > 0 {
      hide Filter;
      var low := KeepUpTo(xs, n - 1, keep);
      FilterOfKept(xs, n - 1, keep, p);
      assert xs[..n] == xs[..n - 1] + [xs[n - 1]];
      FilterAppend(xs[..n - 1], xs[n - 1], p);
      FilterAppend(low, xs[n - 1], p);
      assert low + [] == low;
    }
  }

  lemma {:induction false} FilterThroughMap<T>(xs: seq<T>, f: T -> T, p: T -> bool)
    requires forall i :: 0 <= i < |xs| ==> p(f(xs[i])) == p(xs[i])
    ensures Filter(Mapped(xs, f), p) == Mapped(Filter(xs, p), f)
  {
    if xs != [] {
      var n := |xs| - 1;
      FilterThroughMap(xs[..n], f, p);
      assert Mapped(xs, f)[..n] == Mapped(xs[..n], f);
    }
  }

  lemma {:induction false} FilterCongruent<T>(xs: seq<T>, p: T -> bool, q: T -> bool)
    requires forall i :: 0 <= i < |xs| ==> p(xs[i]) == q(xs[i])
    ensures Filter(xs, p) == Filter(xs, q)
  {
    if xs != [] {
      FilterCongruent(xs[..|xs| - 1], p, q);
    }
  }

  lemma {:induction false} FilterTwice<T>(xs: seq<T>, p: T -> bool)
    ensures Filter(Filter(xs, p), p) == Filter(xs, p)
  {
    if xs != [] {
      var low := Filter(xs[..|xs| - 1], p);
      FilterTwice(xs[..|xs| - 1], p);
      FilterAppend(low, xs[|xs| - 1], p);
      assert low + [] == low;
    }
  }

  lemma {:induction false} KeptAreMembers<T>(xs: seq<T>, n: nat, keep: set<nat>)
    requires n <= |xs|
    ensures forall k :: 0 <= k < |KeepUpTo(xs, n, keep)| ==> KeepUpTo(xs, n, keep)[k] in xs
  {
    if n > 0 {
      KeptAreMembers(xs, n - 1, keep);
    }
  }

  // ---- keeping the newest -----------------------------------------------------

  function Stamps<T>(xs: seq<T>, at: T -> int): seq<int> {
    seq(|xs|, i requires 0 <= i < |xs| => at(xs[i]))
  }

  /** The positions of the entries of a kind that survive a limit. */
  function Newest<T>(xs: seq<T>, kind: T -> bool, at: T -> int, limit: nat): (r: seq<nat>)
    ensures InRange(Stamps(xs, at), r)
  {
    var sorted := SortNewest(Stamps(xs, at), Positions(xs, kind));
    if |sorted| <= limit then sorted else sorted[..limit]
  }

  function KeptPositions<T>(xs: seq<T>, kind: T -> bool, at: T -> int, limit: nat): set<nat> {
    set i | 0 <= i < |xs| && (kind(xs[i]) ==> i in Newest(xs, kind, at, limit))
  }

  /** At most `limit` entries of a kind, the newest ones; all others stay; the order stays. */
  function KeepNewest<T>(xs: seq<T>, kind: T -> bool, at: T -> int, limit: nat): seq<T> {
    if |Filter(xs, kind)| <= limit then xs else KeepUpTo(xs, |xs|, KeptPositions(xs, kind, at, limit))
  }

  lemma NewestIsSorted<T>(xs: seq<T>, kind: T -> bool, at: T -> int, limit: nat)
    ensures NewestFirst(Stamps(xs, at), Newest(xs, kind, at, limit))
  {
    SortSorts(Stamps(xs, at), Positions(xs, kind));
  }

  lemma NewestAreOfTheKind<T>(xs: seq<T>, kind: T -> bool, at: T -> int, limit: nat, i: nat)
    requires i in Newest(xs, kind, at, limit)
    ensures i < |xs| && kind(xs[i])
  {
    InMultiset(SortNewest(Stamps(xs, at), Positions(xs, kind)), Positions(xs, kind), i);
  }

  /** The survivors are the entries at the kept positions, in their old order, under the limit as well. */
  lemma KeepNewestPicks<T>(xs: seq<T>, kind: T -> bool, at: T -> int, limit: nat)
    ensures KeepNewest(xs, kind, at, limit) == KeepUpTo(xs, |xs|, KeptPositions(xs, kind, at, limit))
  {
    if |Filter(xs, kind)| <= limit {
      forall i: nat | i < |xs|
        ensures i in KeptPositions(xs, kind, at, limit)
      {
        if kind(xs[i]) {
          InMultiset(SortNewest(Stamps(xs, at), Positions(xs, kind)), Positions(xs, kind), i);
        }
      }
      KeepAll(xs, |xs|, KeptPositions(xs, kind, at, limit));
      assert xs[..|xs|] == xs;
    }
  }

  /** A dropped entry of the kind is older than every kept one. */
  lemma KeptAreNewer<T>(xs: seq<T>, kind: T -> bool, at: T -> int, limit: nat, i: nat, j: nat)
    requires i < |xs| && j < |xs| && kind(xs[i]) && kind(xs[j])
    requires i in KeptPositions(xs, kind, at, limit) && j !in KeptPositions(xs, kind, at, limit)
    ensures Newer(Stamps(xs, at), i, j) && at(xs[i]) >= at(xs[j])
  {
    var sorted := SortNewest(Stamps(xs, at), Positions(xs, kind));
    SortSorts(Stamps(xs, at), Positions(xs, kind));
    InMultiset(sorted, Positions(xs, kind), j);
    var m :| 0 <= m < |sorted| && sorted[m] == j;
    var k :| 0 <= k < |Newest(xs, kind, at, limit)| && Newest(xs, kind, at, limit)[k] == i;
    assert sorted[k] == i;
  }

  /** Nothing outside the kind is dropped or moved. */
  lemma OthersAreKept<T>(xs: seq<T>, kind: T -> bool, at: T -> int, limit: nat)
    ensures Filter(KeepNewest(xs, kind, at, limit), Not(kind)) == Filter(xs, Not(kind))
  {
    if |Filter(xs, kind)| > limit {
      FilterOfKept(xs, |xs|, KeptPositions(xs, kind, at, limit), Not(kind));
      assert xs[..|xs|] == xs;
    }
  }

  // ---- keeping the newest within a byte budget ----------------------------------

  function SumAt<T>(xs: seq<T>, size: T -> nat, c: seq<nat>): nat
    requires forall k :: 0 <= k < |c| ==> c[k] < |xs|
  {
    if c == [] then 0 else SumAt(xs, size, c[..|c| - 1]) + size(xs[c[|c| - 1]])
  }

  function Sum<T>(xs: seq<T>, size: T -> nat): nat {
    if xs == [] then 0 else Sum(xs[..|xs| - 1], size) + size(xs[|xs| - 1])
  }

  /** How many entries of a list fit, stopping at the first that does not. */
  function Fitting<T>(xs: seq<T>, size: T -> nat, c: seq<nat>, from: nat, limit: nat): (r: nat)
    requires (forall k :: 0 <= k < |c| ==> c[k] < |xs|) && from <= |c|
    ensures from <= r <= |c|
    decreases |c| - from
  {
    if from < |c| && SumAt(xs, size, c[..from]) + size(xs[c[from]]) <= limit
    then Fitting(xs, size, c, from + 1, limit)
    else from
  }

  function Elements(c: seq<nat>): set<nat> {
    set i | i in c
  }

  function Everything<T>(xs: seq<T>): seq<nat> {
    seq(|xs|, i requires 0 <= i < |xs| => i)
  }

  function AllNewest<T>(xs: seq<T>, at: T -> int): (r: seq<nat>)
    ensures |r| == |xs| && forall k :: 0 <= k < |r| ==> r[k] < |xs|
  {
    var r := SortNewest(Stamps(xs, at), Everything(xs));
    assert InRange(Stamps(xs, at), r);
    r
  }

  function Affordable<T>(xs: seq<T>, at: T -> int, size: T -> nat, limit: nat): (r: seq<nat>)
    ensures forall k :: 0 <= k < |r| ==> r[k] < |xs|
  {
    var sorted := AllNewest(xs, at);
    sorted[..Fitting(xs, size, sorted, 0, limit)]
  }

  function CapBytes<T>(xs: seq<T>, at: T -> int, size: T -> nat, limit: nat): seq<T> {
    var kept := Affordable(xs, at, size, limit);
    if |kept| == |xs| then xs else KeepUpTo(xs, |xs|, Elements(kept))
  }

  lemma {:induction false} FittingFits<T>(xs: seq<T>, size: T -> nat, c: seq<nat>, from: nat, limit: nat)
    requires (forall k :: 0 <= k < |c| ==> c[k] < |xs|) && from <= |c|
    requires SumAt(xs, size, c[..from]) <= limit
    ensures var r := Fitting(xs, size, c, from, limit);
            && SumAt(xs, size, c[..r]) <= limit
            && (r < |c| ==> SumAt(xs, size, c[..r]) + size(xs[c[r]]) > limit)
    decreases |c| - from
  {
    if from < |c| && SumAt(xs, size, c[..from]) + size(xs[c[from]]) <= limit {
      assert c[..from + 1][..from] == c[..from];
      FittingFits(xs, size, c, from + 1, limit);
    }
  }

  function Without(c: seq<nat>, p: nat): (r: seq<nat>)
    requires p < |c|
    ensures |r| == |c| - 1 && forall k :: 0 <= k < |r| ==> r[k] in c
  {
    c[..p] + c[p + 1..]
  }

  lemma {:induction false} SumAtSplit<T>(xs: seq<T>, size: T -> nat, c: seq<nat>, p: nat)
    requires (forall k :: 0 <= k < |c| ==> c[k] < |xs|) && p < |c|
    ensures SumAt(xs, size, c) == SumAt(xs, size, Without(c, p)) + size(xs[c[p]])
  {
    var rest := Without(c, p);
    if p == |c| - 1 {
      assert rest == c[..p];
    } else {
      var c' := c[..|c| - 1];
      SumAtSplit(xs, size, c', p);
      assert rest[..|rest| - 1] == Without(c', p);
      assert rest[|rest| - 1] == c[|c| - 1];
    }
  }

  lemma SumAppend<T>(xs: seq<T>, x: T, size: T -> nat)
    ensures Sum(xs + [x], size) == Sum(xs, size) + size(x)
  {
    assert (xs + [x])[..|xs|] == xs;
  }

  lemma WithoutPosition(c: seq<nat>, p: nat, n: nat)
    requires NoDuplicates(c) && p < |c| && c[p] == n - 1 && forall k :: 0 <= k < |c| ==> c[k] < n
    ensures var rest := Without(c, p);
            && NoDuplicates(rest) && (forall k :: 0 <= k < |rest| ==> rest[k] < n - 1)
            && forall i: nat :: i < n - 1 ==> (i in Elements(rest) <==> i in Elements(c))
  {
    var rest := Without(c, p);
    assert c == c[..p] + [c[p]] + c[p + 1..];
    assert forall k :: 0 <= k < |rest| ==> rest[k] == (if k < p then c[k] else c[k + 1]);
  }

  /** The bytes kept are the bytes counted, whatever the order they were counted in. */
  lemma {:induction false} SumOfKept<T>(xs: seq<T>, size: T -> nat, n: nat, c: seq<nat>)
    requires n <= |xs| && NoDuplicates(c) && forall k :: 0 <= k < |c| ==> c[k] < n
    ensures Sum(KeepUpTo(xs, n, Elements(c)), size) == SumAt(xs, size, c)
    decreases n
  {
    if n == 0 {
      assert c == [];
    } else {
      hide SumAt, Sum, NoDuplicates, Without, KeepUpTo, Elements;
      KeepStep(xs, n, Elements(c));
      ElementsHas(c, n - 1);
      if n - 1 in c {
        var p := PositionOf(c, n - 1);
        WithoutPosition(c, p, n);
        SumOfKept(xs, size, n - 1, Without(c, p));
        SumAtSplit(xs, size, c, p);
        SameBelow(xs, n - 1, Elements(Without(c, p)), Elements(c));
        SumAppend(KeepUpTo(xs, n - 1, Elements(c)), xs[n - 1], size);
      } else {
        SumOfKept(xs, size, n - 1, c);
      }
    }
  }

  lemma KeepStep<T>(xs: seq<T>, n: nat, keep: set<nat>)
    requires 0 < n <= |xs|
    ensures n - 1 in keep ==> KeepUpTo(xs, n, keep) == KeepUpTo(xs, n - 1, keep) + [xs[n - 1]]
    ensures n - 1 !in keep ==> KeepUpTo(xs, n, keep) == KeepUpTo(xs, n - 1, keep)
  {
  }

  lemma ElementsHas(c: seq<nat>, x: nat)
    ensures x in Elements(c) <==> x in c
  {
  }

  lemma PositionOf(c: seq<nat>, x: nat) returns (p: nat)
    requires x in c
    ensures p < |c| && c[p] == x
  {
    p :| p < |c| && c[p] == x;
  }

  lemma {:induction false} SameBelow<T>(xs: seq<T>, n: nat, a: set<nat>, b: set<nat>)
    requires n <= |xs| && forall i :: 0 <= i < n ==> (i in a <==> i in b)
    ensures KeepUpTo(xs, n, a) == KeepUpTo(xs, n, b)
  {
    if n > 0 {
      SameBelow(xs, n - 1, a, b);
    }
  }

  lemma {:induction false} KeepAll<T>(xs: seq<T>, n: nat, keep: set<nat>)
    requires n <= |xs| && forall i :: 0 <= i < n ==> i in keep
    ensures KeepUpTo(xs, n, keep) == xs[..n]
  {
    if n > 0 {
      KeepAll(xs, n - 1, keep);
      assert xs[..n] == xs[..n - 1] + [xs[n - 1]];
    }
  }

  lemma AllNewestFacts<T>(xs: seq<T>, at: T -> int)
    ensures NewestFirst(Stamps(xs, at), AllNewest(xs, at)) && NoDuplicates(AllNewest(xs, at))
    ensures forall i: nat :: i < |xs| ==> i in AllNewest(xs, at)
  {
    SortSorts(Stamps(xs, at), Everything(xs));
    SortedIsDistinct(Stamps(xs, at), AllNewest(xs, at));
    forall i: nat | i < |xs|
      ensures i in AllNewest(xs, at)
    {
      assert Everything(xs)[i] == i;
      InMultiset(AllNewest(xs, at), Everything(xs), i);
    }
  }

  /** All bytes together, in either order. */
  lemma SumOfAll<T>(xs: seq<T>, at: T -> int, size: T -> nat)
    ensures SumAt(xs, size, AllNewest(xs, at)) == Sum(xs, size)
  {
    hide AllNewest, SumAt, Sum, KeepUpTo, NewestFirst, Stamps, Everything;
    AllNewestFacts(xs, at);
    SumOfKept(xs, size, |xs|, AllNewest(xs, at));
    KeepAll(xs, |xs|, Elements(AllNewest(xs, at)));
    assert xs[..|xs|] == xs;
  }

  lemma CapIsSum<T>(xs: seq<T>, at: T -> int, size: T -> nat, limit: nat)
    ensures Sum(CapBytes(xs, at, size, limit), size) == SumAt(xs, size, Affordable(xs, at, size, limit))
  {
    var kept := Affordable(xs, at, size, limit);
    AllNewestFacts(xs, at);
    if |kept| == |xs| {
      assert kept == AllNewest(xs, at);
      SumOfAll(xs, at, size);
    } else {
      SumOfKept(xs, size, |xs|, kept);
    }
  }

  /** The kept entries fit the budget; the newest dropped one did not fit with all newer ones. */
  lemma CapHoldsAndIsTight<T>(xs: seq<T>, at: T -> int, size: T -> nat, limit: nat)
    ensures Sum(CapBytes(xs, at, size, limit), size) <= limit
    ensures var kept := Affordable(xs, at, size, limit);
            |kept| < |xs| ==> SumAt(xs, size, kept) + size(xs[AllNewest(xs, at)[|kept|]]) > limit
  {
    var sorted := AllNewest(xs, at);
    assert sorted[..0] == [];
    FittingFits(xs, size, sorted, 0, limit);
    CapIsSum(xs, at, size, limit);
  }

  /** A dropped entry is older than every kept one. */
  lemma CapKeepsNewer<T>(xs: seq<T>, at: T -> int, size: T -> nat, limit: nat, i: nat, j: nat)
    requires i < |xs| && j < |xs|
    requires i in Affordable(xs, at, size, limit) && j !in Affordable(xs, at, size, limit)
    ensures Newer(Stamps(xs, at), i, j) && at(xs[i]) >= at(xs[j])
  {
    AllNewestFacts(xs, at);
    var sorted := AllNewest(xs, at);
    var kept := Affordable(xs, at, size, limit);
    assert j in sorted;
    var k :| 0 <= k < |kept| && kept[k] == i;
    var m :| 0 <= m < |sorted| && sorted[m] == j;
    assert sorted[k] == i;
  }

  lemma {:induction false} SumAtPrefix<T>(xs: seq<T>, size: T -> nat, c: seq<nat>, n: nat)
    requires (forall k :: 0 <= k < |c| ==> c[k] < |xs|) && n <= |c|
    ensures SumAt(xs, size, c[..n]) <= SumAt(xs, size, c)
    decreases |c|
  {
    if n < |c| {
      assert c[..|c| - 1][..n] == c[..n];
      SumAtPrefix(xs, size, c[..|c| - 1], n);
    } else {
      assert c[..n] == c;
    }
  }

  /** A list within the budget is kept whole. */
  lemma WithinBudgetIsKept<T>(xs: seq<T>, at: T -> int, size: T -> nat, limit: nat)
    requires Sum(xs, size) <= limit
    ensures CapBytes(xs, at, size, limit) == xs
  {
    var sorted := AllNewest(xs, at);
    var r := Fitting(xs, size, sorted, 0, limit);
    assert sorted[..0] == [];
    FittingFits(xs, size, sorted, 0, limit);
    SumOfAll(xs, at, size);
    if r < |sorted| {
      assert sorted[..r + 1][..r] == sorted[..r];
      SumAtPrefix(xs, size, sorted, r + 1);
    }
  }

  lemma CapIsIdempotent<T>(xs: seq<T>, at: T -> int, size: T -> nat, limit: nat)
    ensures CapBytes(CapBytes(xs, at, size, limit), at, size, limit) == CapBytes(xs, at, size, limit)
  {
    CapHoldsAndIsTight(xs, at, size, limit);
    WithinBudgetIsKept(CapBytes(xs, at, size, limit), at, size, limit);
  }

  // ---- the count limit, by the same sums ------------------------------------------

  function One<T>(kind: T -> bool): T -> nat {
    x => if kind(x) then 1 else 0
  }

  lemma {:induction false} SumIsCount<T>(xs: seq<T>, kind: T -> bool)
    ensures Sum(xs, One(kind)) == |Filter(xs, kind)|
  {
    if xs != [] {
      SumIsCount(xs[..|xs| - 1], kind);
    }
  }

  lemma {:induction false} SumOfKind<T>(xs: seq<T>, kind: T -> bool, c: seq<nat>)
    requires forall k :: 0 <= k < |c| ==> c[k] < |xs| && kind(xs[c[k]])
    ensures SumAt(xs, One(kind), c) == |c|
  {
    if c != [] {
      SumOfKind(xs, kind, c[..|c| - 1]);
    }
  }

  lemma LastCounts<T>(xs: seq<T>, n: nat, kind: T -> bool, keep: set<nat>)
    requires 0 < n <= |xs|
    ensures Sum(KeepUpTo(xs, n, keep), One(kind))
         == Sum(KeepUpTo(xs, n - 1, keep), One(kind)) + (if n - 1 in keep && kind(xs[n - 1]) then 1 else 0)
  {
    var low := KeepUpTo(xs, n - 1, keep);
    if n - 1 in keep {
      SumAppend(low, xs[n - 1], One(kind));
    } else {
      assert low + [] == low;
    }
  }

  /** Entries of another kind do not count. */
  lemma {:induction false} SameCount<T>(xs: seq<T>, n: nat, kind: T -> bool, a: set<nat>, b: set<nat>)
    requires n <= |xs| && forall i :: 0 <= i < n && kind(xs[i]) ==> (i in a <==> i in b)
    ensures Sum(KeepUpTo(xs, n, a), One(kind)) == Sum(KeepUpTo(xs, n, b), One(kind))
  {
    if n > 0 {
      SameCount(xs, n - 1, kind, a, b);
      LastCounts(xs, n, kind, a);
      LastCounts(xs, n, kind, b);
    }
  }

  /** The limit holds, and is reached if there was more. */
  lemma KeepsExactlyTheLimit<T>(xs: seq<T>, kind: T -> bool, at: T -> int, limit: nat)
    ensures |Filter(KeepNewest(xs, kind, at, limit), kind)| == Min(limit, |Filter(xs, kind)|)
  {
    if |Filter(xs, kind)| > limit {
      var newest := Newest(xs, kind, at, limit);
      var kept := KeptPositions(xs, kind, at, limit);
      forall k | 0 <= k < |newest|
        ensures newest[k] < |xs| && kind(xs[newest[k]])
      {
        NewestAreOfTheKind(xs, kind, at, limit, newest[k]);
      }
      NewestIsSorted(xs, kind, at, limit);
      SortedIsDistinct(Stamps(xs, at), newest);
      SumIsCount(KeepUpTo(xs, |xs|, kept), kind);
      SameCount(xs, |xs|, kind, kept, Elements(newest));
      SumOfKept(xs, One(kind), |xs|, newest);
      SumOfKind(xs, kind, newest);
    }
  }

  lemma KeepNewestIsIdempotent<T>(xs: seq<T>, kind: T -> bool, at: T -> int, limit: nat)
    ensures KeepNewest(KeepNewest(xs, kind, at, limit), kind, at, limit) == KeepNewest(xs, kind, at, limit)
  {
    KeepsExactlyTheLimit(xs, kind, at, limit);
  }
}
