/** Sorting under a total order, and what it decides: two sequences sort alike exactly when they hold the same elements. */
module Ordering {
  import opened Wrappers

  ghost predicate TotalPreorder<T(!new)>(leq: (T, T) -> bool)
  {
    && (forall a, b :: leq(a, b) || leq(b, a))
    && (forall a, b, c :: leq(a, b) && leq(b, c) ==> leq(a, c))
  }

  /** Among the elements of `s` the order tells any two apart. */
  predicate Separates<T(==)>(leq: (T, T) -> bool, s: seq<T>)
  {
    forall a <- s, b <- s :: leq(a, b) && leq(b, a) ==> a == b
  }

  predicate Sorted<T>(s: seq<T>, leq: (T, T) -> bool)
  {
    forall i, j :: 0 <= i < j < |s| ==> leq(s[i], s[j])
  }

  predicate Bounds<T>(x: T, s: seq<T>, leq: (T, T) -> bool)
  {
    forall i :: 0 <= i < |s| ==> leq(x, s[i])
  }

  lemma SortedCons<T>(x: T, s: seq<T>, leq: (T, T) -> bool)
    ensures Sorted([x] + s, leq) <==> Bounds(x, s, leq) && Sorted(s, leq)
  {
    var r := [x] + s;
    if Sorted(r, leq) {
      forall i | 0 <= i < |s| ensures leq(x, s[i]) { assert leq(r[0], r[i + 1]); }
      forall i, j | 0 <= i < j < |s| ensures leq(s[i], s[j]) { assert leq(r[i + 1], r[j + 1]); }
    }
  }

  function Insert<T>(x: T, s: seq<T>, leq: (T, T) -> bool): (r: seq<T>)
    ensures |r| == |s| + 1 && multiset(r) == multiset(s) + multiset{x}
  {
    if s == [] then [x]
    else if leq(x, s[0]) then [x] + s
    else
      assert s == [s[0]] + s[1..];
      [s[0]] + Insert(x, s[1..], leq)
  }

  function Sort<T>(s: seq<T>, leq: (T, T) -> bool): (r: seq<T>)
    ensures |r| == |s| && multiset(r) == multiset(s)
  {
    if s == [] then []
    else
      assert s == [s[0]] + s[1..];
      Insert(s[0], Sort(s[1..], leq), leq)
  }

  lemma {:induction false} InsertBounded<T>(y: T, x: T, s: seq<T>, leq: (T, T) -> bool)
    requires leq(y, x) && Bounds(y, s, leq)
    ensures Bounds(y, Insert(x, s, leq), leq)
  {
    var r := Insert(x, s, leq);
    forall i | 0 <= i < |r| ensures leq(y, r[i]) {
      assert r[i] in multiset(r);
      assert r[i] == x || r[i] in s;
    }
  }

  lemma {:induction false} InsertSorted<T(!new)>(x: T, s: seq<T>, leq: (T, T) -> bool)
    requires TotalPreorder(leq) && Sorted(s, leq)
    ensures Sorted(Insert(x, s, leq), leq)
  {
    if s != [] {
      assert s == [s[0]] + s[1..];
      SortedCons(s[0], s[1..], leq);
      if leq(x, s[0]) {
        SortedCons(x, s, leq);
      } else {
        InsertSorted(x, s[1..], leq);
        InsertBounded(s[0], x, s[1..], leq);
        SortedCons(s[0], Insert(x, s[1..], leq), leq);
      }
    }
  }

  lemma {:induction false} SortSorts<T(!new)>(s: seq<T>, leq: (T, T) -> bool)
    requires TotalPreorder(leq)
    ensures Sorted(Sort(s, leq), leq)
  {
    if s != [] {
      SortSorts(s[1..], leq);
      InsertSorted(s[0], Sort(s[1..], leq), leq);
    }
  }

  lemma SeparatesFewer<T>(s: seq<T>, t: seq<T>, leq: (T, T) -> bool)
    requires Separates(leq, s) && forall x <- t :: x in s
    ensures Separates(leq, t)
  {
  }

  lemma TailCounts<T>(s: seq<T>)
    requires s != []
    ensures multiset(s[1..]) == multiset(s) - multiset{s[0]}
  {
    assert s == [s[0]] + s[1..];
  }

  lemma SameHead<T(!new)>(a: seq<T>, b: seq<T>, leq: (T, T) -> bool)
    requires TotalPreorder(leq) && Separates(leq, a) && Sorted(a, leq) && Sorted(b, leq) && multiset(a) == multiset(b)
    requires a != []
    ensures b != [] && a[0] == b[0]
  {
    assert a[0] in multiset(b);
    assert b[0] in multiset(a);
    var i :| 0 <= i < |b| && b[i] == a[0];
    var j :| 0 <= j < |a| && a[j] == b[0];
    assert leq(b[0], b[i]) && leq(a[0], a[j]);
  }

  lemma {:induction false} SortedIsUnique<T(!new)>(a: seq<T>, b: seq<T>, leq: (T, T) -> bool)
    requires TotalPreorder(leq) && Separates(leq, a) && Sorted(a, leq) && Sorted(b, leq) && multiset(a) == multiset(b)
    ensures a == b
  {
    if a == [] {
      assert |multiset(b)| == |b|;
    } else {
      SameHead(a, b, leq);
      TailCounts(a);
      TailCounts(b);
      SeparatesFewer(a, a[1..], leq);
      SortedIsUnique(a[1..], b[1..], leq);
      assert a == [a[0]] + a[1..] && b == [b[0]] + b[1..];
    }
  }

  /** Sort and compare is multiset equality. */
  lemma SortedEquality<T(!new)>(a: seq<T>, b: seq<T>, leq: (T, T) -> bool)
    requires TotalPreorder(leq) && Separates(leq, a)
    ensures Sort(a, leq) == Sort(b, leq) <==> multiset(a) == multiset(b)
  {
    if multiset(a) == multiset(b) {
      forall x | x in Sort(a, leq) ensures x in a { assert x in multiset(a); }
      SeparatesFewer(a, Sort(a, leq), leq);
      SortSorts(a, leq);
      SortSorts(b, leq);
      SortedIsUnique(Sort(a, leq), Sort(b, leq), leq);
    } else {
      assert multiset(Sort(a, leq)) != multiset(Sort(b, leq));
    }
  }

  /** Character order, shorter first: byte order in the C locale. */
  predicate Precedes(a: string, b: string)
  {
    a == [] || (b != [] && (a[0] < b[0] || (a[0] == b[0] && Precedes(a[1..], b[1..]))))
  }

  lemma PrecedesTotally(a: string, b: string, c: string)
    ensures Precedes(a, b) || Precedes(b, a)
    ensures Precedes(a, b) && Precedes(b, a) ==> a == b
    ensures Precedes(a, b) && Precedes(b, c) ==> Precedes(a, c)
  {
    if a != [] && b != [] {
      assert a == [a[0]] + a[1..] && b == [b[0]] + b[1..];
      PrecedesTotally(a[1..], b[1..], if c == [] then [] else c[1..]);
    }
  }

  lemma PrecedesIsTotal(lines: seq<string>)
    ensures TotalPreorder(Precedes) && Separates(Precedes, lines)
  {
    forall a, b, c
      ensures Precedes(a, b) || Precedes(b, a)
      ensures Precedes(a, b) && Precedes(b, a) ==> a == b
      ensures Precedes(a, b) && Precedes(b, c) ==> Precedes(a, c)
    {
      PrecedesTotally(a, b, c);
    }
  }

  lemma SortedLines(a: seq<string>, b: seq<string>)
    ensures Sort(a, Precedes) == Sort(b, Precedes) <==> multiset(a) == multiset(b)
  {
    PrecedesIsTotal(a);
    SortedEquality(a, b, Precedes);
  }

  /** Pairs of strings, the first component deciding first. */
  predicate PairPrecedes(a: (string, string), b: (string, string))
  {
    if a.0 == b.0 then Precedes(a.1, b.1) else Precedes(a.0, b.0)
  }

  lemma PairPrecedesTotally(a: (string, string), b: (string, string), c: (string, string))
    ensures PairPrecedes(a, b) || PairPrecedes(b, a)
    ensures PairPrecedes(a, b) && PairPrecedes(b, a) ==> a == b
    ensures PairPrecedes(a, b) && PairPrecedes(b, c) ==> PairPrecedes(a, c)
  {
    PrecedesTotally(a.0, b.0, c.0);
    PrecedesTotally(b.0, c.0, a.0);
    PrecedesTotally(a.1, b.1, c.1);
  }

  // ---------------------------------------------------------------------------
  // Distinctness and rearrangement
  // ---------------------------------------------------------------------------

  predicate Distinct<T(==)>(s: seq<T>)
  {
    forall i, j :: 0 <= i < j < |s| ==> s[i] != s[j]
  }

  function Map<T, U>(f: T -> U, s: seq<T>): (r: seq<U>)
    ensures |r| == |s| && forall i :: 0 <= i < |s| ==> r[i] == f(s[i])
  {
    seq(|s|, i requires 0 <= i < |s| => f(s[i]))
  }

  lemma MapSplits<T, U>(f: T -> U, a: seq<T>, b: seq<T>)
    ensures Map(f, a + b) == Map(f, a) + Map(f, b)
  {
  }

  lemma {:induction false} DistinctCounts<T>(s: seq<T>)
    ensures Distinct(s) <==> forall x :: multiset(s)[x] <= 1
  {
    if s != [] {
      var rest, last := s[..|s| - 1], s[|s| - 1];
      assert s == rest + [last];
      DistinctCounts(rest);
      if Distinct(s) {
        assert last !in rest;
      } else if Distinct(rest) {
        assert last in rest;
        assert multiset(s)[last] > 1;
      } else {
        var x :| multiset(rest)[x] > 1;
        assert multiset(s)[x] > 1;
      }
    }
  }

  function Without<T>(s: seq<T>, k: nat): seq<T>
    requires k < |s|
  {
    s[..k] + s[k + 1..]
  }

  lemma SplitAt<T>(s: seq<T>, k: nat)
    requires k < |s|
    ensures s == s[..k] + [s[k]] + s[k + 1..]
  {
  }

  lemma WithoutCounts<T>(s: seq<T>, k: nat)
    requires k < |s|
    ensures multiset(s) == multiset(Without(s, k)) + multiset{s[k]}
  {
    SplitAt(s, k);
  }

  lemma WithoutMaps<T, U>(f: T -> U, s: seq<T>, k: nat)
    requires k < |s|
    ensures Map(f, Without(s, k)) == Without(Map(f, s), k)
  {
  }

  lemma {:induction false} MapKeepsRearrangement<T, U>(f: T -> U, a: seq<T>, b: seq<T>)
    requires multiset(a) == multiset(b)
    ensures multiset(Map(f, a)) == multiset(Map(f, b))
    decreases |a|
  {
    if a == [] {
      assert |multiset(b)| == |b|;
    } else {
      assert a[0] in multiset(b);
      var k :| 0 <= k < |b| && b[k] == a[0];
      WithoutCounts(a, 0);
      WithoutCounts(b, k);
      assert multiset(Without(a, 0)) == multiset(a) - multiset{a[0]} == multiset(Without(b, k));
      MapKeepsRearrangement(f, Without(a, 0), Without(b, k));
      WithoutMaps(f, a, 0);
      WithoutMaps(f, b, k);
      WithoutCounts(Map(f, a), 0);
      WithoutCounts(Map(f, b), k);
    }
  }

  lemma DistinctKeepsRearrangement<T, U>(f: T -> U, a: seq<T>, b: seq<T>)
    requires multiset(a) == multiset(b)
    ensures Distinct(Map(f, a)) <==> Distinct(Map(f, b))
  {
    MapKeepsRearrangement(f, a, b);
    DistinctCounts(Map(f, a));
    DistinctCounts(Map(f, b));
  }

  lemma DistinctOneMore<T>(s: seq<T>, x: T)
    ensures Distinct(s + [x]) <==> Distinct(s) && x !in s
  {
    var t := s + [x];
    if Distinct(t) {
      forall i, j | 0 <= i < j < |s| ensures s[i] != s[j] { assert t[i] != t[j]; }
      forall i | 0 <= i < |s| ensures s[i] != x { assert t[i] != t[|s|]; }
    }
  }

  /** The values `f` yields along the first `n` elements of `s`. */
  function CollectFirst<T, U>(f: T -> Option<U>, s: seq<T>, n: nat): seq<U>
    requires n <= |s|
  {
    if n == 0 then [] else
    match f(s[n - 1])
    case None => CollectFirst(f, s, n - 1)
    case Some(y) => CollectFirst(f, s, n - 1) + [y]
  }

  /** The values `f` yields along `s`. */
  function Collect<T, U>(f: T -> Option<U>, s: seq<T>): seq<U>
  {
    CollectFirst(f, s, |s|)
  }

  lemma {:induction false} CollectFirstAgrees<T, U>(f: T -> Option<U>, s: seq<T>, t: seq<T>, n: nat)
    requires n <= |s| && n <= |t| && s[..n] == t[..n]
    ensures CollectFirst(f, s, n) == CollectFirst(f, t, n)
  {
    if n > 0 {
      assert s[n - 1] == s[..n][n - 1] && t[n - 1] == t[..n][n - 1];
      assert s[..n - 1] == s[..n][..n - 1] && t[..n - 1] == t[..n][..n - 1];
      CollectFirstAgrees(f, s, t, n - 1);
    }
  }

  lemma CollectOneMore<T, U>(f: T -> Option<U>, s: seq<T>, x: T)
    ensures Collect(f, s + [x]) == match f(x) case None => Collect(f, s) case Some(y) => Collect(f, s) + [y]
  {
    CollectFirstAgrees(f, s + [x], s, |s|);
  }

  lemma CollectEmpty<T, U>(f: T -> Option<U>)
    ensures Collect(f, []) == []
  {
  }

  function Yield<U>(y: Option<U>): seq<U>
  {
    if y.Some? then [y.value] else []
  }

  lemma {:induction false} CollectSplits<T, U>(f: T -> Option<U>, a: seq<T>, b: seq<T>)
    ensures Collect(f, a + b) == Collect(f, a) + Collect(f, b)
  {
    if b == [] {
      assert a + b == a;
    } else {
      var rest, last := b[..|b| - 1], b[|b| - 1];
      CollectSplits(f, a, rest);
      calc {
        Collect(f, a + b);
        { assert a + b == a + rest + [last]; }
        Collect(f, a + rest + [last]);
        { CollectOneMore(f, a + rest, last); }
        Collect(f, a + rest) + Yield(f(last));
        Collect(f, a) + Collect(f, rest) + Yield(f(last));
        Collect(f, a) + (Collect(f, rest) + Yield(f(last)));
        { CollectOneMore(f, rest, last); assert b == rest + [last]; }
        Collect(f, a) + Collect(f, b);
      }
    }
  }

  lemma {:induction false} CollectNothing<T, U>(f: T -> Option<U>, s: seq<T>)
    requires forall x <- s :: f(x) == None
    ensures Collect(f, s) == []
  {
    if s != [] {
      var rest, last := s[..|s| - 1], s[|s| - 1];
      calc {
        Collect(f, s);
        { assert s == rest + [last]; }
        Collect(f, rest + [last]);
        { CollectOneMore(f, rest, last); }
        Collect(f, rest);
        { CollectNothing(f, rest); }
        [];
      }
    }
  }

  lemma {:induction false} CollectMap<S, T, U>(f: T -> Option<U>, g: S -> T, h: S -> U, s: seq<S>)
    requires forall x <- s :: f(g(x)) == Some(h(x))
    ensures Collect(f, Map(g, s)) == Map(h, s)
  {
    if s != [] {
      var rest, last := s[..|s| - 1], s[|s| - 1];
      CollectMap(f, g, h, rest);
      assert Map(g, s) == Map(g, rest) + [g(last)] && Map(h, s) == Map(h, rest) + [h(last)];
      CollectOneMore(f, Map(g, rest), g(last));
    }
  }

  lemma CollectAround<T, U>(f: T -> Option<U>, a: seq<T>, x: T, b: seq<T>)
    ensures Collect(f, a + [x] + b) == Collect(f, a) + Yield(f(x)) + Collect(f, b)
  {
    CollectOneMore(f, a, x);
    CollectSplits(f, a + [x], b);
  }

  lemma MiddleCounts<T>(a: seq<T>, x: seq<T>, b: seq<T>)
    ensures multiset(a + x + b) == multiset(a + b) + multiset(x)
  {
  }

  lemma CollectAroundCounts<T, U>(f: T -> Option<U>, a: seq<T>, x: T, b: seq<T>)
    ensures multiset(Collect(f, a + [x] + b)) == multiset(Collect(f, a + b)) + multiset(Yield(f(x)))
  {
    CollectAround(f, a, x, b);
    CollectSplits(f, a, b);
    MiddleCounts(Collect(f, a), Yield(f(x)), Collect(f, b));
  }

  lemma CollectWithout<T, U>(f: T -> Option<U>, s: seq<T>, k: nat)
    requires k < |s|
    ensures multiset(Collect(f, s)) == multiset(Collect(f, Without(s, k))) + multiset(Yield(f(s[k])))
  {
    calc {
      multiset(Collect(f, s));
      { SplitAt(s, k); }
      multiset(Collect(f, s[..k] + [s[k]] + s[k + 1..]));
      { CollectAroundCounts(f, s[..k], s[k], s[k + 1..]); }
      multiset(Collect(f, s[..k] + s[k + 1..])) + multiset(Yield(f(s[k])));
    }
  }

  lemma {:induction false} CollectKeepsRearrangement<T, U>(f: T -> Option<U>, a: seq<T>, b: seq<T>)
    requires multiset(a) == multiset(b)
    ensures multiset(Collect(f, a)) == multiset(Collect(f, b))
    decreases |a|
  {
    if a == [] {
      assert |multiset(b)| == |b|;
    } else {
      assert a[0] in multiset(b);
      var k :| 0 <= k < |b| && b[k] == a[0];
      WithoutCounts(a, 0);
      WithoutCounts(b, k);
      assert multiset(Without(a, 0)) == multiset(a) - multiset{a[0]} == multiset(Without(b, k));
      CollectKeepsRearrangement(f, Without(a, 0), Without(b, k));
      CollectWithout(f, a, 0);
      CollectWithout(f, b, k);
    }
  }

  /** Every collected value has its source, and every yielding element its value. */
  lemma {:induction false} CollectedFrom<T, U>(f: T -> Option<U>, s: seq<T>, y: U)
    ensures y in Collect(f, s) <==> exists x :: x in s && f(x) == Some(y)
  {
    if s != [] {
      var rest, last := s[..|s| - 1], s[|s| - 1];
      CollectedFrom(f, rest, y);
      assert s == rest + [last];
      CollectOneMore(f, rest, last);
      assert Collect(f, s) == Collect(f, rest + [last]);
      if y in Collect(f, rest) {
        var x :| x in rest && f(x) == Some(y);
        assert x in s;
      } else if f(last) == Some(y) {
        assert last in s;
      }
    }
  }
}
