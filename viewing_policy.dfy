/**
 * The display-order and fair-selection policy (application/service/ViewingPolicyServiceImpl.java).
 *
 * Ads whose override window contains `now` form the first group; each group is ordered by
 * weight descending, then creation time descending with missing times last.  The random
 * draw of `selectOneFair` arrives as the integer `r` that `(long)(nextDouble() * total)`
 * would produce, and the floating-point score `count / p` of the deterministic fair pick is
 * compared as the exact rational `count / weight`: with `p = weight / total` and one common
 * positive `total` the two order the ads identically.
 */
module ViewingPolicy {
  import opened Wrappers
  import opened JavaInts
  import opened Sequences
  import opened JavaValues
  import opened Advertisements

  type Ad = Advertisement

  /** `isOverrideActive`: both bounds present and `start <= now <= end`, both edges included. */
  predicate IsOverrideActive(ad: Ad, now: Timestamp) {
    ad.overrideStart.Some? && ad.overrideEnd.Some? && ad.overrideStart.value <= now <= ad.overrideEnd.value
  }

  /** The creation-time key, descending with nulls last: may `a` come before `b`? */
  predicate CreatedNoLater(a: Ad, b: Ad) {
    b.createdAt.None? || (a.createdAt.Some? && a.createdAt.value >= b.createdAt.value)
  }

  /** `WEIGHT_THEN_CREATED_DESC.compare(a, b) <= 0`: weight descending, then creation time descending with nulls last. */
  predicate Precedes(a: Ad, b: Ad) {
    a.weight > b.weight || (a.weight == b.weight && CreatedNoLater(a, b))
  }

  /** The comparator is a total preorder. */
  lemma PrecedesTotalPreorder(a: Ad, b: Ad, c: Ad)
    ensures Precedes(a, a)
    ensures Precedes(a, b) || Precedes(b, a)
    ensures Precedes(a, b) && Precedes(b, c) ==> Precedes(a, c)
  {
  }

  predicate Sorted(s: seq<Ad>) {
    forall i, j :: 0 <= i < j < |s| ==> Precedes(s[i], s[j])
  }

  /** Inserts `x` before the first element it may precede, so that among equals the earlier input stays first. */
  function Insert(x: Ad, s: seq<Ad>): (r: seq<Ad>)
    requires Sorted(s)
    ensures Sorted(r)
    ensures multiset(r) == multiset(s) + multiset{x}
  {
    if s == [] then [x]
    else if Precedes(x, s[0]) then
      PrecedesFirstPrecedesAll(x, s);
      [x] + s
    else
      var rest := Insert(x, s[1..]);
      assert s == [s[0]] + s[1..];
      HeadPrecedesInsert(x, s, rest);
      [s[0]] + rest
  }

  lemma PrecedesFirstPrecedesAll(x: Ad, s: seq<Ad>)
    requires Sorted(s) && s != [] && Precedes(x, s[0])
    ensures Sorted([x] + s)
  {
    forall j | 0 <= j < |s| ensures Precedes(x, s[j]) {
      PrecedesTotalPreorder(x, s[0], s[j]);
    }
    var r := [x] + s;
    forall i, j | 0 <= i < j < |r| ensures Precedes(r[i], r[j]) {
      if i > 0 {
        assert r[i] == s[i - 1];
      }
      assert r[j] == s[j - 1];
    }
  }

  lemma HeadPrecedesInsert(x: Ad, s: seq<Ad>, rest: seq<Ad>)
    requires Sorted(s) && s != [] && !Precedes(x, s[0])
    requires Sorted(rest) && multiset(rest) == multiset(s[1..]) + multiset{x}
    ensures Sorted([s[0]] + rest)
  {
    forall i | 0 <= i < |rest| ensures Precedes(s[0], rest[i]) {
      assert rest[i] in multiset(rest);
      if rest[i] != x {
        assert rest[i] in multiset(s[1..]);
        var k :| 0 <= k < |s[1..]| && s[1..][k] == rest[i];
        assert s[k + 1] == rest[i];
      }
    }
    var r := [s[0]] + rest;
    forall i, j | 0 <= i < j < |r| ensures Precedes(r[i], r[j]) {
      if i > 0 {
        assert r[i] == rest[i - 1];
      }
      assert r[j] == rest[j - 1];
    }
  }

  /** `stream().sorted(WEIGHT_THEN_CREATED_DESC)`: a stable sort; here an insertion sort. */
  function SortByPriority(s: seq<Ad>): (r: seq<Ad>)
    ensures Sorted(r)
    ensures multiset(r) == multiset(s)
  {
    if s == [] then []
    else
      assert s == [s[0]] + s[1..];
      Insert(s[0], SortByPriority(s[1..]))
  }

  /** The ads the comparator cannot tell from `x`. */
  function SameRankAs(x: Ad): Ad -> bool {
    (a: Ad) => Precedes(a, x) && Precedes(x, a)
  }

  lemma SortedTail(t: seq<Ad>)
    requires Sorted(t) && t != []
    ensures Sorted(t[1..])
  {
    var tail := t[1..];
    forall i, j | 0 <= i < j < |tail| ensures Precedes(tail[i], tail[j]) {
      assert tail[i] == t[i + 1] && tail[j] == t[j + 1];
    }
  }

  /** Inserting `y` puts it before every ad of its rank, and leaves the order of the other ranks alone. */
  lemma {:induction false} InsertKeepsRankOrder(y: Ad, t: seq<Ad>, x: Ad)
    requires Sorted(t)
    ensures Filter(Insert(y, t), SameRankAs(x)) ==
      (if SameRankAs(x)(y) then [y] else []) + Filter(t, SameRankAs(x))
  {
    var p := SameRankAs(x);
    FilterSingleton(y, p);
    if t == [] {
      assert Insert(y, t) == [y];
    } else if Precedes(y, t[0]) {
      assert Insert(y, t) == [y] + t;
      FilterAppend([y], t, p);
    } else {
      SortedTail(t);
      InsertKeepsRankOrder(y, t[1..], x);
      InsertPastHead(y, t, x);
    }
  }

  /** The step of `InsertKeepsRankOrder` where `y` goes past the head of `t`. */
  lemma InsertPastHead(y: Ad, t: seq<Ad>, x: Ad)
    requires Sorted(t) && t != [] && !Precedes(y, t[0]) && Sorted(t[1..])
    requires Filter(Insert(y, t[1..]), SameRankAs(x)) ==
      (if SameRankAs(x)(y) then [y] else []) + Filter(t[1..], SameRankAs(x))
    ensures Filter(Insert(y, t), SameRankAs(x)) ==
      (if SameRankAs(x)(y) then [y] else []) + Filter(t, SameRankAs(x))
  {
    var p := SameRankAs(x);
    if p(y) {
      PrecedesTotalPreorder(y, x, t[0]);
    }
    assert Insert(y, t) == [t[0]] + Insert(y, t[1..]);
    assert t == [t[0]] + t[1..];
    FilterPastHead(t[0], Insert(y, t[1..]), t[1..], if p(y) then [y] else [], p);
  }

  /** The sort is stable: the ads of any one rank come out in their input order. */
  lemma {:induction false} SortByPriorityStable(s: seq<Ad>, x: Ad)
    ensures Filter(SortByPriority(s), SameRankAs(x)) == Filter(s, SameRankAs(x))
  {
    if s != [] {
      var p := SameRankAs(x);
      assert s == [s[0]] + s[1..];
      SortByPriorityStable(s[1..], x);
      InsertKeepsRankOrder(s[0], SortByPriority(s[1..]), x);
      FilterSingleton(s[0], p);
      FilterAppend([s[0]], s[1..], p);
    }
  }

  /** The override-active ads, in input order. */
  function Overrides(ads: seq<Ad>, now: Timestamp): (r: seq<Ad>)
    ensures forall a :: a in r <==> a in ads && IsOverrideActive(a, now)
  {
    if ads == [] then []
    else
      var last := ads[|ads| - 1];
      assert ads == ads[..|ads| - 1] + [last];
      Overrides(ads[..|ads| - 1], now) + (if IsOverrideActive(last, now) then [last] else [])
  }

  /** The remaining ads, in input order. */
  function Others(ads: seq<Ad>, now: Timestamp): (r: seq<Ad>)
    ensures forall a :: a in r <==> a in ads && !IsOverrideActive(a, now)
  {
    if ads == [] then []
    else
      var last := ads[|ads| - 1];
      assert ads == ads[..|ads| - 1] + [last];
      Others(ads[..|ads| - 1], now) + (if IsOverrideActive(last, now) then [] else [last])
  }

  /** The two groups split the input: together they hold every ad exactly as often as the input does. */
  lemma {:induction false} PartitionPermutation(ads: seq<Ad>, now: Timestamp)
    ensures multiset(Overrides(ads, now)) + multiset(Others(ads, now)) == multiset(ads)
  {
    if ads != [] {
      var init := ads[..|ads| - 1];
      assert ads == init + [ads[|ads| - 1]];
      PartitionPermutation(init, now);
    }
  }

  /** `orderForDisplay`: the sorted override group, then the sorted rest. */
  function OrderForDisplay(ads: Option<seq<Ad>>, now: Timestamp): seq<Ad> {
    if ads.None? || ads.value == [] then []
    else SortByPriority(Overrides(ads.value, now)) + SortByPriority(Others(ads.value, now))
  }

  /** The selection pool: the override group when it is non-empty, otherwise the rest. */
  function Pool(ads: seq<Ad>, now: Timestamp): seq<Ad> {
    if Overrides(ads, now) != [] then Overrides(ads, now) else Others(ads, now)
  }

  /** `partitionByOverride`: one pass appending each ad to the group it belongs to. */
  method PartitionByOverride(ads: seq<Ad>, now: Timestamp) returns (overrides: seq<Ad>, others: seq<Ad>)
    ensures overrides == Overrides(ads, now) && others == Others(ads, now)
  {
    overrides, others := [], [];
    for i := 0 to |ads|
      invariant overrides == Overrides(ads[..i], now) && others == Others(ads[..i], now)
    {
      assert ads[..i + 1][..i] == ads[..i];
      if IsOverrideActive(ads[i], now) {
        overrides := overrides + [ads[i]];
      } else {
        others := others + [ads[i]];
      }
    }
    assert ads[..|ads|] == ads;
  }

  // ----- properties of orderForDisplay -----

  /** A null or empty input orders to the empty list. */
  lemma OrderForDisplayNoInput(ads: Option<seq<Ad>>, now: Timestamp)
    requires ads.None? || ads.value == []
    ensures OrderForDisplay(ads, now) == []
  {
  }

  /** The display order is a permutation of the input. */
  lemma OrderForDisplayPermutation(ads: seq<Ad>, now: Timestamp)
    ensures multiset(OrderForDisplay(Some(ads), now)) == multiset(ads)
  {
    PartitionPermutation(ads, now);
  }

  /** The display order holds as many ads as the input. */
  lemma OrderForDisplayLength(ads: seq<Ad>, now: Timestamp)
    ensures |OrderForDisplay(Some(ads), now)| == |ads|
  {
    OrderForDisplayPermutation(ads, now);
    assert |multiset(OrderForDisplay(Some(ads), now))| == |multiset(ads)|;
  }

  /** The display order is the sorted override group followed by the sorted rest. */
  lemma OrderForDisplayGroups(ads: seq<Ad>, now: Timestamp)
    requires ads != []
    ensures var o := SortByPriority(Overrides(ads, now));
      var n := SortByPriority(Others(ads, now));
      OrderForDisplay(Some(ads), now) == o + n &&
      (forall x :: x in o ==> IsOverrideActive(x, now)) &&
      (forall x :: x in n ==> !IsOverrideActive(x, now))
  {
    var o := SortByPriority(Overrides(ads, now));
    var n := SortByPriority(Others(ads, now));
    forall x | x in o ensures IsOverrideActive(x, now) {
      assert x in multiset(Overrides(ads, now));
    }
    forall x | x in n ensures !IsOverrideActive(x, now) {
      assert x in multiset(Others(ads, now));
    }
  }

  /** Every override-active ad comes before every other ad. */
  lemma OrderForDisplayOverridesFirst(ads: seq<Ad>, now: Timestamp)
    ensures var r := OrderForDisplay(Some(ads), now);
      forall i, j :: 0 <= i < j < |r| && IsOverrideActive(r[j], now) ==> IsOverrideActive(r[i], now)
  {
    if ads != [] {
      OrderForDisplayGroups(ads, now);
      var o := SortByPriority(Overrides(ads, now));
      var n := SortByPriority(Others(ads, now));
      var r := o + n;
      forall i, j | 0 <= i < j < |r| && IsOverrideActive(r[j], now) ensures IsOverrideActive(r[i], now) {
        if j < |o| {
          assert r[i] == o[i];
        }
      }
    }
  }

  /** Inside each group the order is weight descending, then creation time descending with nulls last. */
  lemma OrderForDisplayGroupsSorted(ads: seq<Ad>, now: Timestamp)
    ensures var r := OrderForDisplay(Some(ads), now);
      forall i, j :: 0 <= i < j < |r| && IsOverrideActive(r[i], now) == IsOverrideActive(r[j], now) ==> Precedes(r[i], r[j])
  {
    if ads != [] {
      OrderForDisplayGroups(ads, now);
      var o := SortByPriority(Overrides(ads, now));
      var n := SortByPriority(Others(ads, now));
      var r := o + n;
      forall i, j | 0 <= i < j < |r| && IsOverrideActive(r[i], now) == IsOverrideActive(r[j], now)
        ensures Precedes(r[i], r[j])
      {
        if j < |o| {
          assert r[i] == o[i] && r[j] == o[j];
        } else if i >= |o| {
          assert r[i] == n[i - |o|] && r[j] == n[j - |o|];
        }
      }
    }
  }

  /** The head of a sorted permutation precedes every element, so it is the comparator's top ad. */
  lemma SortedHeadIsTop(s: seq<Ad>)
    requires s != []
    ensures |SortByPriority(s)| == |s|
    ensures forall a :: a in s ==> Precedes(SortByPriority(s)[0], a)
  {
    var r := SortByPriority(s);
    assert |r| == |multiset(r)| == |multiset(s)| == |s|;
    forall a | a in s ensures Precedes(r[0], a) {
      assert a in multiset(r);
      var k :| 0 <= k < |r| && r[k] == a;
      if k == 0 {
        PrecedesTotalPreorder(a, a, a);
      }
    }
  }

  /** The pool is non-empty whenever the input is, and holds only input ads. */
  lemma PoolNonEmpty(ads: seq<Ad>, now: Timestamp)
    requires ads != []
    ensures Pool(ads, now) != []
    ensures forall a :: a in Pool(ads, now) ==> a in ads
  {
    assert ads[0] in ads;
  }

  // ----- weighted random selection -----

  /** The sum of the clamped weights, `sum(max(0, weight))`, accumulated in a `long`. */
  function ClampedSum(s: seq<Ad>): nat
  {
    if s == [] then 0 else ClampedSum(s[..|s| - 1]) + Clamp(s[|s| - 1].weight)
  }

  /** The clamped weight accumulated through position `k`, the running total after ad `k`. */
  function Through(s: seq<Ad>, k: nat): nat
    requires k < |s|
  {
    ClampedSum(s[..k + 1])
  }

  lemma ThroughStep(s: seq<Ad>, k: nat)
    requires k < |s|
    ensures Through(s, k) == ClampedSum(s[..k]) + Clamp(s[k].weight)
  {
    assert s[..k + 1][..k] == s[..k];
  }

  /** Prefix sums never decrease. */
  lemma {:induction false} ClampedSumMonotone(s: seq<Ad>, i: nat, j: nat)
    requires i <= j <= |s|
    ensures ClampedSum(s[..i]) <= ClampedSum(s[..j])
    decreases j - i
  {
    if i < j {
      ThroughStep(s, j - 1);
      ClampedSumMonotone(s, i, j - 1);
    }
  }

  /** `k` is the first position whose cumulative clamped weight exceeds `r`. */
  predicate FirstPast(pool: seq<Ad>, r: int, k: nat) {
    k < |pool| && r < Through(pool, k) && forall j :: 0 <= j < k ==> Through(pool, j) <= r
  }

  /**
   * For a draw `r` in [0, total), ad `k` is chosen exactly when `r` lies in its own slice
   * [sum before k, sum through k), so each ad owns as many draws as its clamped weight.
   */
  lemma FirstPastIsSlice(pool: seq<Ad>, r: int, k: nat)
    requires 0 <= r && k < |pool|
    ensures FirstPast(pool, r, k) <==> ClampedSum(pool[..k]) <= r < Through(pool, k)
  {
    if ClampedSum(pool[..k]) <= r < Through(pool, k) {
      forall j | 0 <= j < k ensures Through(pool, j) <= r {
        ClampedSumMonotone(pool, j + 1, k);
      }
    }
    if FirstPast(pool, r, k) && k > 0 {
      assert Through(pool, k - 1) <= r;
      assert pool[..(k - 1) + 1] == pool[..k];
    }
  }

  /** The `mapToInt(max(0, weight)).sum()` loop. */
  method SumClampedWeights(pool: seq<Ad>) returns (total: nat)
    ensures total == ClampedSum(pool)
  {
    total := 0;
    for i := 0 to |pool|
      invariant total == ClampedSum(pool[..i])
    {
      ThroughStep(pool, i);
      total := total + Clamp(pool[i].weight);
    }
    assert pool[..|pool|] == pool;
  }

  /** The cumulative scan over a pool with positive total weight: the first ad whose running total passes `r`, else the last ad. */
  method WeightedPick(pool: seq<Ad>, r: int) returns (k: nat)
    requires 0 < ClampedSum(pool)
    ensures k < |pool|
    ensures r < ClampedSum(pool) ==> FirstPast(pool, r, k)
    ensures ClampedSum(pool) <= r ==> k == |pool| - 1
  {
    var cumulative := 0;
    for i := 0 to |pool|
      invariant cumulative == ClampedSum(pool[..i])
      invariant forall j :: 0 <= j < i ==> Through(pool, j) <= r
    {
      ThroughStep(pool, i);
      cumulative := cumulative + Clamp(pool[i].weight);
      if r < cumulative {
        assert FirstPast(pool, r, i);
        ClampedSumMonotone(pool, i + 1, |pool|);
        assert pool[..|pool|] == pool;
        return i;
      }
    }
    assert pool[..|pool|] == pool;
    return |pool| - 1;
  }

  /**
   * `selectOneFair`: null for no input; otherwise a weighted draw from the pool, falling back to
   * the top of the pool's display order when no ad has positive weight.
   */
  method SelectOneFair(ads: Option<seq<Ad>>, now: Timestamp, r: int) returns (res: Option<Ad>)
    ensures ads.None? || ads.value == [] <==> res.None?
    ensures res.Some? ==> res.value in Pool(ads.value, now)
    ensures res.Some? && ClampedSum(Pool(ads.value, now)) == 0 ==>
      res.value == OrderForDisplay(Some(Pool(ads.value, now)), now)[0]
    ensures res.Some? && 0 < ClampedSum(Pool(ads.value, now)) && r < ClampedSum(Pool(ads.value, now)) ==>
      exists k: nat :: FirstPast(Pool(ads.value, now), r, k) && res.value == Pool(ads.value, now)[k]
    ensures res.Some? && 0 < ClampedSum(Pool(ads.value, now)) <= r ==>
      res.value == Pool(ads.value, now)[|Pool(ads.value, now)| - 1]
  {
    if ads.None? || ads.value == [] {
      return None;
    }
    var overrides, others := PartitionByOverride(ads.value, now);
    var pool := if overrides != [] then overrides else others;
    assert pool == Pool(ads.value, now);
    PoolNonEmpty(ads.value, now);
    var total := SumClampedWeights(pool);
    if total <= 0 {
      OrderForDisplayLength(pool, now);
      OrderForDisplayPermutation(pool, now);
      var top := OrderForDisplay(Some(pool), now)[0];
      assert top in multiset(pool);
      return Some(top);
    }
    var k := WeightedPick(pool, r);
    return Some(pool[k]);
  }

  // ----- deterministic fair selection -----

  /** The first ad of the display order of a non-empty pool. */
  function DisplayTop(pool: seq<Ad>, now: Timestamp): (top: Ad)
    requires pool != []
    ensures top in pool
  {
    OrderForDisplayLength(pool, now);
    OrderForDisplayPermutation(pool, now);
    var top := OrderForDisplay(Some(pool), now)[0];
    assert top in multiset(pool);
    top
  }

  /** `pool.stream().sorted(WEIGHT_THEN_CREATED_DESC).findFirst()` on a non-empty pool. */
  function PriorityTop(pool: seq<Ad>): (top: Ad)
    requires pool != []
    ensures top in pool
    ensures forall a :: a in pool ==> Precedes(top, a)
  {
    SortedHeadIsTop(pool);
    var top := SortByPriority(pool)[0];
    assert top in multiset(pool);
    top
  }

  /** `score = p > 0 ? count / p : +infinity`, on exact reals. */
  datatype Score = Finite(value: real) | Infinite

  predicate Below(a: Score, b: Score) {
    a.Finite? && (b.Infinite? || a.value < b.value)
  }

  /** `p = max(0, weight) / totalWeight` and the score built from it. */
  function ScoreOf(count: nat, weight: int, total: int): (s: Score)
    requires total > 0
    ensures s.Finite? <==> weight > 0
  {
    var p := Clamp(weight) as real / total as real;
    if p > 0.0 then Finite(count as real / p) else Infinite
  }

  lemma CrossMultiply(a: real, b: real, c: real, d: real)
    requires b > 0.0 && d > 0.0
    ensures a / b < c / d <==> a * d < c * b
  {
    assert a / b * (b * d) == a * d;
    assert c / d * (b * d) == c * b;
  }

  /** Scores compare like `count / weight`: the common total cancels out. */
  lemma ScoreOrderIgnoresTotal(c1: nat, w1: int, c2: nat, w2: int, total: int)
    requires total > 0 && w1 > 0 && w2 > 0
    ensures Below(ScoreOf(c1, w1, total), ScoreOf(c2, w2, total)) <==> c1 * w2 < c2 * w1
  {
    var t := total as real;
    var p1 := w1 as real / t;
    var p2 := w2 as real / t;
    assert c1 as real / p1 == (c1 as real * t) / w1 as real;
    assert c2 as real / p2 == (c2 as real * t) / w2 as real;
    CrossMultiply(c1 as real * t, w1 as real, c2 as real * t, w2 as real);
    assert (c1 * w2) as real == c1 as real * w2 as real;
    assert (c2 * w1) as real == c2 as real * w1 as real;
  }

  /** The `mapToInt(...).sum()` of clamped weights: an `int` stream sum, which wraps at 32 bits. */
  function IntStreamTotal(pool: seq<Ad>): Int32 {
    Wrap(ClampedSum(pool))
  }

  /** Two ads exhibit the wrap: their clamped weights overflow the `int` stream sum to a negative total. */
  lemma IntStreamTotalWraps(a: Ad, b: Ad)
    requires a.weight == INT_MAX && b.weight == 1
    ensures IntStreamTotal([a, b]) == INT_MIN
  {
    assert [a, b][..1] == [a];
    assert [a][..0] == [];
    assert ClampedSum([a]) == INT_MAX;
    assert ClampedSum([a, b]) == INT_MAX + 1;
  }

  /** `viewCounts.getOrDefault(id, 0)` for an ad; only used where the id is present. */
  function CountIn(counts: map<int, nat>, a: Ad): nat {
    if a.id.Some? && a.id.value in counts then counts[a.id.value] else 0
  }

  /** The views accumulated over the pool. */
  function TotalViews(counts: map<int, nat>, pool: seq<Ad>): nat {
    if pool == [] then 0 else TotalViews(counts, pool[..|pool| - 1]) + CountIn(counts, pool[|pool| - 1])
  }

  /** The counters after one more view of `id`; every other counter is unchanged. */
  function Incremented(counts: map<int, nat>, id: int): (r: map<int, nat>)
    ensures r.Keys == counts.Keys + {id}
    ensures r[id] == (if id in counts then counts[id] else 0) + 1
    ensures forall k :: k in counts && k != id ==> r[k] == counts[k]
  {
    counts[id := (if id in counts then counts[id] else 0) + 1]
  }

  predicate AllIdsPresent(pool: seq<Ad>) {
    forall a :: a in pool ==> a.id.Some?
  }

  /** The score the loop gives `a`: its views over its share of the pool's weight. */
  function PoolScore(counts: map<int, nat>, total: int, a: Ad): Score
    requires total > 0
  {
    ScoreOf(CountIn(counts, a), a.weight, total)
  }

  /** `a` and `b` tie on score and on weight, so only their creation times can separate them. */
  predicate Tied(counts: map<int, nat>, total: int, a: Ad, b: Ad)
    requires total > 0
  {
    PoolScore(counts, total, a) == PoolScore(counts, total, b) && a.weight == b.weight
  }

  /** `a` was not created after `b`: a null creation time loses to any other. */
  predicate NotNewer(a: Ad, b: Ad) {
    a.createdAt.Some? ==> b.createdAt.Some? && a.createdAt.value <= b.createdAt.value
  }

  /**
   * Where among its ties the loop leaves the pick at position `k`: at the first of them with
   * its (newest) creation time, or, when it has none, at the last of them.
   */
  predicate PickedAmongTies(pool: seq<Ad>, counts: map<int, nat>, total: int, k: int)
    requires total > 0 && 0 <= k < |pool|
  {
    (pool[k].createdAt.Some? ==>
      forall j :: 0 <= j < k && Tied(counts, total, pool[j], pool[k]) ==> pool[j].createdAt != pool[k].createdAt) &&
    (pool[k].createdAt.None? ==>
      forall j :: k < j < |pool| ==> !Tied(counts, total, pool[j], pool[k]))
  }

  /**
   * The most under-served ad: `best` has positive weight, no pool ad has a strictly smaller
   * score, among the pool ads with the same score none has a larger weight, among those with
   * the same score and weight none is newer, and it sits where the scan settles among them.
   */
  predicate FairPick(pool: seq<Ad>, counts: map<int, nat>, total: int, best: Ad)
    requires total > 0
  {
    best in pool && best.weight > 0 &&
    (forall a :: a in pool ==> !Below(PoolScore(counts, total, a), PoolScore(counts, total, best))) &&
    (forall a :: a in pool && PoolScore(counts, total, a) == PoolScore(counts, total, best) ==> a.weight <= best.weight) &&
    (forall a :: a in pool && Tied(counts, total, a, best) ==> NotNewer(a, best)) &&
    (exists k :: 0 <= k < |pool| && pool[k] == best && PickedAmongTies(pool, counts, total, k))
  }

  /** There is only one fair pick, so the loop's result is determined by the pool and the counters. */
  lemma FairPickUnique(pool: seq<Ad>, counts: map<int, nat>, total: int, b1: Ad, b2: Ad)
    requires total > 0 && FairPick(pool, counts, total, b1) && FairPick(pool, counts, total, b2)
    ensures b1 == b2
  {
    assert Tied(counts, total, b1, b2) && Tied(counts, total, b2, b1);
    var k1 :| 0 <= k1 < |pool| && pool[k1] == b1 && PickedAmongTies(pool, counts, total, k1);
    var k2 :| 0 <= k2 < |pool| && pool[k2] == b2 && PickedAmongTies(pool, counts, total, k2);
    assert k1 == k2;
  }

  /**
   * What `selectDeterministicFair` yields for a non-empty pool: the display top when the
   * clamped weights sum to no positive `int`; a `NullPointerException` when some pool ad has no
   * id; the priority top while no pool ad has been viewed; otherwise a fair pick.
   */
  predicate FairOutcome(pool: seq<Ad>, counts: map<int, nat>, now: Timestamp, res: Result<Ad, JavaException>)
    requires pool != []
  {
    var total := IntStreamTotal(pool);
    if total <= 0 then res == Ok(DisplayTop(pool, now))
    else if !AllIdsPresent(pool) then res == Err(NullPointerException)
    else if TotalViews(counts, pool) == 0 then res == Ok(PriorityTop(pool))
    else res.Ok? && FairPick(pool, counts, total, res.value)
  }

  /** `selectDeterministicFair` is a function of the pool, the counters and the time: its outcome is unique. */
  lemma FairOutcomeUnique(pool: seq<Ad>, counts: map<int, nat>, now: Timestamp, r1: Result<Ad, JavaException>,
                          r2: Result<Ad, JavaException>)
    requires pool != [] && FairOutcome(pool, counts, now, r1) && FairOutcome(pool, counts, now, r2)
    ensures r1 == r2
  {
    var total := IntStreamTotal(pool);
    if total > 0 && AllIdsPresent(pool) && TotalViews(counts, pool) != 0 {
      FairPickUnique(pool, counts, total, r1.value, r2.value);
    }
  }

  /** The tie-break inside the score loop: higher weight, then a newer or a null-replacing creation time. */
  predicate TieReplaces(ad: Ad, best: Ad) {
    ad.weight > best.weight ||
    (ad.weight == best.weight && (best.createdAt.None? || (ad.createdAt.Some? && ad.createdAt.value > best.createdAt.value)))
  }

  lemma {:induction false} ZeroWeightsSumToZero(pool: seq<Ad>)
    requires forall a :: a in pool ==> a.weight <= 0
    ensures ClampedSum(pool) == 0
  {
    if pool != [] {
      assert forall a :: a in pool[..|pool| - 1] ==> a in pool;
      ZeroWeightsSumToZero(pool[..|pool| - 1]);
    }
  }

  /** A positive `int` total needs an ad of positive weight. */
  lemma PositiveTotalHasPositiveWeight(pool: seq<Ad>)
    requires IntStreamTotal(pool) > 0
    ensures exists a :: a in pool && a.weight > 0
  {
    if forall a :: a in pool ==> a.weight <= 0 {
      ZeroWeightsSumToZero(pool);
    }
  }

  /** `s` without any copy of `x`, in order: the `!ad.equals(fair)` loop. */
  function Without(s: seq<Ad>, x: Ad): (r: seq<Ad>)
    ensures multiset(r) == multiset(s)[x := 0]
  {
    if s == [] then []
    else
      var init := s[..|s| - 1];
      assert s == init + [s[|s| - 1]];
      Without(init, x) + (if s[|s| - 1] == x then [] else [s[|s| - 1]])
  }

  /** The fair pick in front of the rest of the display order. */
  method MoveToFront(ordered: seq<Ad>, fair: Ad) returns (r: seq<Ad>)
    ensures r == [fair] + Without(ordered, fair)
  {
    var rest := [];
    for i := 0 to |ordered|
      invariant rest == Without(ordered[..i], fair)
    {
      assert ordered[..i + 1][..i] == ordered[..i];
      if ordered[i] != fair {
        rest := rest + [ordered[i]];
      }
    }
    assert ordered[..|ordered|] == ordered;
    r := [fair] + rest;
  }

  /** Moving the fair pick to the front permutes the display order when the pick occurs there once. */
  lemma FairFirstPermutation(ordered: seq<Ad>, fair: Ad)
    requires multiset(ordered)[fair] == 1
    ensures multiset([fair] + Without(ordered, fair)) == multiset(ordered)
  {
  }

  /** Other copies of the fair pick are dropped: the fair ad appears exactly once in the result. */
  lemma FairFirstOnce(ordered: seq<Ad>, fair: Ad)
    ensures multiset([fair] + Without(ordered, fair))[fair] == 1
    ensures forall a :: a != fair ==> multiset([fair] + Without(ordered, fair))[a] == multiset(ordered)[a]
  {
  }

  /** Moving the fair pick to the front keeps exactly the ads of the display order, when the pick is one of them. */
  lemma FairFirstMembers(ordered: seq<Ad>, fair: Ad)
    requires fair in ordered
    ensures forall a :: a in [fair] + Without(ordered, fair) <==> a in ordered
  {
    forall a ensures a in [fair] + Without(ordered, fair) <==> a in ordered {
      assert a in Without(ordered, fair) <==> a in multiset(Without(ordered, fair));
      assert a in ordered <==> a in multiset(ordered);
    }
  }

  /** Whatever the fair pick yields, it is an ad of the pool. */
  lemma FairOutcomeInPool(pool: seq<Ad>, counts: map<int, nat>, now: Timestamp, fair: Ad)
    requires pool != [] && FairOutcome(pool, counts, now, Ok(fair))
    ensures fair in pool
  {
  }

  /** The service object; its in-memory view counters per ad id persist across calls. */
  class ViewingPolicyService {
    var viewCounts: map<int, nat>

    constructor()
      ensures viewCounts == map[]
    {
      viewCounts := map[];
    }

    /** `viewCounts.merge(id, 1L, Long::sum)`: one more view for `id`, starting from zero. */
    method RecordView(id: int)
      modifies this
      ensures viewCounts == Incremented(old(viewCounts), id)
    {
      viewCounts := viewCounts[id := (if id in viewCounts then viewCounts[id] else 0) + 1];
    }

    /** The views loop; a null id makes `getOrDefault` throw. */
    method SumViews(pool: seq<Ad>) returns (res: Result<nat, JavaException>)
      ensures AllIdsPresent(pool) <==> res.Ok?
      ensures res.Ok? ==> res.value == TotalViews(viewCounts, pool)
      ensures res.Err? ==> res.error == NullPointerException
    {
      var total := 0;
      for i := 0 to |pool|
        invariant total == TotalViews(viewCounts, pool[..i])
        invariant forall j :: 0 <= j < i ==> pool[j].id.Some?
      {
        assert pool[..i + 1][..i] == pool[..i];
        if pool[i].id.None? {
          return Err(NullPointerException);
        }
        var id := pool[i].id.value;
        total := total + (if id in viewCounts then viewCounts[id] else 0);
      }
      assert pool[..|pool|] == pool;
      return Ok(total);
    }

    /** The score loop over a pool with positive total weight. */
    method UnderServed(pool: seq<Ad>, total: int) returns (best: Ad)
      requires total > 0 && exists a :: a in pool && a.weight > 0
      ensures FairPick(pool, viewCounts, total, best)
    {
      var found := false;
      best := pool[0];
      var bestScore := Infinite;
      ghost var k := 0;
      for i := 0 to |pool|
        invariant found ==> 0 <= k < i && pool[k] == best && best.weight > 0 && bestScore == PoolScore(viewCounts, total, best)
        invariant !found ==> bestScore == Infinite && forall j :: 0 <= j < i ==> pool[j].weight <= 0
        invariant forall j :: 0 <= j < i ==> !Below(PoolScore(viewCounts, total, pool[j]), bestScore)
        invariant found ==> forall j :: 0 <= j < i && PoolScore(viewCounts, total, pool[j]) == bestScore ==>
          pool[j].weight <= best.weight
        invariant found ==> forall j :: 0 <= j < i && Tied(viewCounts, total, pool[j], best) ==> NotNewer(pool[j], best)
        invariant found && best.createdAt.Some? ==>
          forall j :: 0 <= j < k && Tied(viewCounts, total, pool[j], best) ==> pool[j].createdAt != best.createdAt
        invariant found && best.createdAt.None? ==> forall j :: k < j < i ==> !Tied(viewCounts, total, pool[j], best)
      {
        var ad := pool[i];
        var score := ScoreOf(CountIn(viewCounts, ad), ad.weight, total);
        if Below(score, bestScore) {
          bestScore := score;
          best := ad;
          found := true;
          k := i;
        } else if score == bestScore && found {
          if TieReplaces(ad, best) {
            best := ad;
            k := i;
          }
        }
      }
      if !found {
        assert false;
      }
      assert PickedAmongTies(pool, viewCounts, total, k);
    }

    /** `selectDeterministicFair` once the pool is known to be non-empty. */
    method FairFromPool(pool: seq<Ad>, now: Timestamp) returns (res: Result<Ad, JavaException>)
      requires pool != []
      ensures FairOutcome(pool, viewCounts, now, res)
    {
      var sum := SumClampedWeights(pool);
      var totalWeight := Wrap(sum);
      if totalWeight <= 0 {
        return Ok(DisplayTop(pool, now));
      }
      var views :- SumViews(pool);
      if views == 0 {
        return Ok(PriorityTop(pool));
      }
      PositiveTotalHasPositiveWeight(pool);
      var best := UnderServed(pool, totalWeight);
      return Ok(best);
    }

    /** `selectDeterministicFair`: null for an empty pool, otherwise the outcome described by `FairOutcome`. */
    method SelectDeterministicFair(ads: seq<Ad>, now: Timestamp) returns (res: Result<Option<Ad>, JavaException>)
      ensures ads == [] ==> res == Ok(None)
      ensures ads != [] ==> (Pool(ads, now) != [] &&
        (res.Err? || res.value.Some?) &&
        FairOutcome(Pool(ads, now), viewCounts, now, if res.Err? then Err(res.error) else Ok(res.value.value)))
    {
      var overrides, others := PartitionByOverride(ads, now);
      var pool := if overrides != [] then overrides else others;
      assert pool == Pool(ads, now);
      if pool == [] {
        return Ok(None);
      }
      PoolNonEmpty(ads, now);
      var pick :- FairFromPool(pool, now);
      return Ok(Some(pick));
    }

    /**
     * `orderForDisplayWithFairFirst`: the display order with the fair pick moved to the front,
     * every copy of it removed from the rest, and its view counter incremented.
     */
    method OrderForDisplayWithFairFirst(ads: Option<seq<Ad>>, now: Timestamp) returns (res: Result<seq<Ad>, JavaException>)
      modifies this
      ensures OrderForDisplay(ads, now) == [] ==> res == Ok([]) && viewCounts == old(viewCounts)
      ensures res.Err? ==> res.error == NullPointerException && viewCounts == old(viewCounts)
      ensures ads.Some? && AllIdsPresent(ads.value) ==> res.Ok?
      ensures OrderForDisplay(ads, now) != [] ==>
        var pool := Pool(OrderForDisplay(ads, now), now);
        (res.Err? <==> if IntStreamTotal(pool) <= 0 then DisplayTop(pool, now).id.None? else !AllIdsPresent(pool))
      ensures res.Ok? && ads.Some? ==> forall a :: a in res.value <==> a in ads.value
      ensures res.Ok? && OrderForDisplay(ads, now) != [] ==> (res.value != [] &&
        var ordered := OrderForDisplay(ads, now);
        var fair := res.value[0];
        Pool(ordered, now) != [] && FairOutcome(Pool(ordered, now), old(viewCounts), now, Ok(fair)) &&
        fair.id.Some? && res.value == [fair] + Without(ordered, fair) &&
        viewCounts == Incremented(old(viewCounts), fair.id.value))
    {
      var ordered := OrderForDisplay(ads, now);
      if ordered == [] {
        if ads.Some? {
          OrderForDisplayLength(ads.value, now);
        }
        return Ok([]);
      }
      OrderForDisplayPermutation(ads.value, now);
      forall a ensures a in ordered <==> a in ads.value {
        assert a in ordered <==> a in multiset(ordered);
      }
      PoolNonEmpty(ordered, now);
      assert AllIdsPresent(ads.value) ==> AllIdsPresent(Pool(ordered, now));
      var pick :- SelectDeterministicFair(ordered, now);
      var fair := pick.value;
      FairOutcomeInPool(Pool(ordered, now), viewCounts, now, fair);
      if fair.id.None? {
        return Err(NullPointerException);
      }
      RecordView(fair.id.value);
      var r := MoveToFront(ordered, fair);
      FairFirstMembers(ordered, fair);
      assert r[0] == fair;
      res := Ok(r);
    }
  }
}
