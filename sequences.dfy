/** Order-preserving filtering and set images, the models of `stream().filter(..)` and `stream().map(..).collect(toSet())`. */
module Sequences {
  import opened Wrappers

  /** The elements of `s` that satisfy `p`, in their original order. */
  function Filter<T>(s: seq<T>, p: T -> bool): (r: seq<T>)
    ensures |r| <= |s|
    ensures forall x :: x in r ==> x in s && p(x)
    ensures forall i :: 0 <= i < |s| && p(s[i]) ==> s[i] in r
    ensures multiset(r) <= multiset(s)
  {
    if s == [] then []
    else
      var rest := Filter(s[1..], p);
      assert s == [s[0]] + s[1..];
      assert multiset(s) == multiset{s[0]} + multiset(s[1..]);
      (if p(s[0]) then [s[0]] else []) + rest
  }

  /** Filtering distributes over concatenation, which together with the singleton case pins the order down. */
  lemma {:induction false} FilterAppend<T>(s: seq<T>, t: seq<T>, p: T -> bool)
    ensures Filter(s + t, p) == Filter(s, p) + Filter(t, p)
  {
    if s == [] {
      assert s + t == t;
    } else {
      assert (s + t)[1..] == s[1..] + t;
      FilterAppend(s[1..], t, p);
    }
  }

  /** A single element survives exactly when it satisfies the predicate. */
  lemma FilterSingleton<T>(x: T, p: T -> bool)
    ensures Filter([x], p) == if p(x) then [x] else []
  {
    assert [x][1..] == [];
  }

  /** Filtering past an element that the kept prefix `head` rules out. */
  lemma FilterPastHead<T>(a: T, rest: seq<T>, tail: seq<T>, head: seq<T>, p: T -> bool)
    requires !p(a) || head == []
    requires Filter(rest, p) == head + Filter(tail, p)
    ensures Filter([a] + rest, p) == head + Filter([a] + tail, p)
  {
    FilterSingleton(a, p);
    FilterAppend([a], rest, p);
    FilterAppend([a], tail, p);
    var fr, ft := Filter(rest, p), Filter(tail, p);
    if p(a) {
      assert head == [];
      assert Filter([a] + rest, p) == [a] + fr;
      assert Filter([a] + tail, p) == [a] + ft;
      assert fr == ft;
    } else {
      assert Filter([a] + rest, p) == fr;
      assert Filter([a] + tail, p) == ft;
    }
  }

  /** Filtering keeps everything exactly when everything satisfies the predicate. */
  lemma {:induction false} FilterKeepsAll<T>(s: seq<T>, p: T -> bool)
    requires forall i :: 0 <= i < |s| ==> p(s[i])
    ensures Filter(s, p) == s
  {
    if s != [] {
      FilterKeepsAll(s[1..], p);
    }
  }

  /** Filtering drops everything when nothing satisfies the predicate. */
  lemma {:induction false} FilterDropsAll<T>(s: seq<T>, p: T -> bool)
    requires forall i :: 0 <= i < |s| ==> !p(s[i])
    ensures Filter(s, p) == []
  {
    if s != [] {
      FilterDropsAll(s[1..], p);
    }
  }

  /** Two predicates that agree on the elements of `s` filter it the same way. */
  lemma {:induction false} FilterCongruent<T>(s: seq<T>, p: T -> bool, q: T -> bool)
    requires forall i :: 0 <= i < |s| ==> p(s[i]) == q(s[i])
    ensures Filter(s, p) == Filter(s, q)
  {
    if s != [] {
      FilterCongruent(s[1..], p, q);
    }
  }

  /**
   * `stream().filter(p)` with a predicate that may throw: the elements are tested in order
   * and the first exception ends the whole operation.
   */
  function FilterOrFail<T, E(==)>(s: seq<T>, p: T -> Result<bool, E>): (r: Result<seq<T>, E>)
    ensures (forall i :: 0 <= i < |s| ==> p(s[i]).Ok?) ==> r == Ok(Filter(s, (x: T) => p(x).Ok? && p(x).value))
    ensures r.Err? ==> exists i :: 0 <= i < |s| && p(s[i]) == Err(r.error)
  {
    if s == [] then Ok([])
    else
      match p(s[0])
      case Err(e) => Err(e)
      case Ok(keep) =>
        match FilterOrFail(s[1..], p)
        case Err(e) =>
          assert exists i :: 0 <= i < |s[1..]| && p(s[1..][i]) == Err(e);
          var i :| 0 <= i < |s[1..]| && p(s[1..][i]) == Err(e);
          assert p(s[i + 1]) == Err(e);
          Err(e)
        case Ok(rest) => Ok((if keep then [s[0]] else []) + rest)
  }

  /** A throwing predicate that never throws on `s` filters exactly like its boolean counterpart. */
  lemma {:induction false} FilterOrFailTotal<T, E>(s: seq<T>, p: T -> Result<bool, E>, q: T -> bool)
    requires forall i :: 0 <= i < |s| ==> p(s[i]) == Ok(q(s[i]))
    ensures FilterOrFail(s, p) == Ok(Filter(s, q))
  {
    if s != [] {
      FilterOrFailTotal(s[1..], p, q);
    }
  }

  /** Splitting by a predicate and its negation loses and duplicates nothing. */
  lemma {:induction false} FilterPartition<T>(s: seq<T>, p: T -> bool)
    ensures multiset(Filter(s, p)) + multiset(Filter(s, (x: T) => !p(x))) == multiset(s)
  {
    if s != [] {
      FilterPartition(s[1..], p);
      assert s == [s[0]] + s[1..];
    }
  }

  /** How many elements of `s` are `x`. */
  function Occurrences<T(==)>(s: seq<T>, x: T): (n: nat)
    ensures n <= |s|
  {
    if s == [] then 0
    else Occurrences(s[..|s| - 1], x) + (if s[|s| - 1] == x then 1 else 0)
  }

  /** `stream().map(f).collect(toSet())`. */
  function Image<X, Y(==)>(s: set<X>, f: X -> Y): set<Y> {
    set x | x in s :: f(x)
  }

  /** Mapping a set forth and back with mutually inverse converters gives the set back. */
  lemma ImageRoundTrip<X, Y>(s: set<X>, f: X -> Y, g: Y -> X)
    requires forall x :: x in s ==> g(f(x)) == x
    ensures Image(Image(s, f), g) == s
  {
    forall x | x in Image(Image(s, f), g) ensures x in s {
      var y :| y in Image(s, f) && g(y) == x;
      var x0 :| x0 in s && f(x0) == y;
    }
    forall x | x in s ensures x in Image(Image(s, f), g) {
      assert f(x) in Image(s, f);
    }
  }
}
