/** The bounded breadth-first walk of an exception graph, of any shape. */
module ExceptionWalk {
  import opened Wrappers
  import opened Ordering

  const MAX_NODES: nat := 20

  /** An exception, by identity, and the up to two it leads to. */
  datatype Graph = Graph(cause: nat -> Option<nat>, context: nat -> Option<nat>)

  function Successors(g: Graph, n: nat): set<nat>
  {
    (if g.cause(n).Some? then {g.cause(n).value} else {}) + (if g.context(n).Some? then {g.context(n).value} else {})
  }

  /** Everything at most `k` steps away. */
  function Within(g: Graph, root: nat, k: nat): set<nat>
  {
    if k == 0 then {root}
    else Within(g, root, k - 1) + set m, n | m in Within(g, root, k - 1) && n in Successors(g, m) :: n
  }

  /** Everything closer than `k`. */
  function Before(g: Graph, root: nat, k: nat): set<nat>
  {
    if k == 0 then {} else Within(g, root, k - 1)
  }

  predicate AtDistance(g: Graph, root: nat, n: nat, k: nat)
  {
    n in Within(g, root, k) && n !in Before(g, root, k)
  }

  ghost predicate Reachable(g: Graph, root: nat, n: nat)
  {
    exists k: nat :: n in Within(g, root, k)
  }

  lemma {:induction false} WithinGrows(g: Graph, root: nat, j: nat, k: nat)
    requires j <= k
    ensures Within(g, root, j) <= Within(g, root, k)
  {
    if j < k { WithinGrows(g, root, j, k - 1); }
  }

  /**
   The walk between two pops, `level` steps from the root: `current` are the queued references to
   nodes at most that far away, `next` those found from this level's own nodes.
   */
  ghost predicate Walking(g: Graph, root: nat, level: nat, yielded: seq<nat>, current: seq<nat>, next: seq<nat>)
  {
    && (forall n <- Before(g, root, level) :: n in yielded)
    && (forall n <- Within(g, root, level) :: n in yielded || n in current)
    && (forall n <- yielded :: n in Within(g, root, level))
    && (forall n <- current :: n in Within(g, root, level))
    && (forall n <- next :: n in Within(g, root, level + 1))
    && (forall u <- yielded :: u !in Before(g, root, level) ==> LeadsInto(g, u, yielded, next))
  }

  predicate LeadsInto(g: Graph, u: nat, yielded: seq<nat>, next: seq<nat>)
  {
    forall x <- Successors(g, u) :: x in yielded || x in next
  }

  lemma NextLevel(g: Graph, root: nat, level: nat, yielded: seq<nat>, current: seq<nat>, next: seq<nat>)
    requires current == [] && Walking(g, root, level, yielded, current, next)
    ensures Walking(g, root, level + 1, yielded, next, [])
  {
    forall n | n in Within(g, root, level + 1) ensures n in yielded || n in next {
      if n !in Within(g, root, level) {
        var m :| m in Within(g, root, level) && n in Successors(g, m);
        assert m in Before(g, root, level) ==> n in Within(g, root, level);
        assert LeadsInto(g, m, yielded, next);
      }
    }
    forall n | n in yielded ensures n in Within(g, root, level + 1) { }
  }

  lemma Visited(g: Graph, root: nat, level: nat, yielded: seq<nat>, current: seq<nat>, next: seq<nat>, found: seq<nat>)
    requires current != [] && Walking(g, root, level, yielded, current, next)
    ensures current[0] in yielded ==> Walking(g, root, level, yielded, current[1..], next)
    ensures (forall x :: x in found <==> x in Successors(g, current[0])) ==>
              Walking(g, root, level, yielded + [current[0]], current[1..], next + found)
  {
    var v := current[0];
    assert current == [v] + current[1..];
    assert v in Within(g, root, level);
    if forall x :: x in found <==> x in Successors(g, v) {
      var more := yielded + [v];
      forall u | u in more && u !in Before(g, root, level) ensures LeadsInto(g, u, more, next + found) {
        if u != v { assert LeadsInto(g, u, yielded, next); }
      }
      forall n | n in next + found ensures n in Within(g, root, level + 1) { }
    }
  }

  lemma {:induction false} ClosedHoldsAll(g: Graph, root: nat, yielded: seq<nat>, k: nat)
    requires root in yielded && forall u <- yielded :: LeadsInto(g, u, yielded, [])
    ensures forall n <- Within(g, root, k) :: n in yielded
  {
    if k > 0 { ClosedHoldsAll(g, root, yielded, k - 1); }
  }

  lemma Finished(g: Graph, root: nat, level: nat, yielded: seq<nat>, n: nat)
    requires Walking(g, root, level, yielded, [], []) && Reachable(g, root, n)
    ensures n in yielded
  {
    WithinGrows(g, root, 0, level);
    forall u | u in yielded ensures LeadsInto(g, u, yielded, []) {
      if u in Before(g, root, level) {
        forall x | x in Successors(g, u) ensures x in yielded { assert x in Within(g, root, level); }
      }
    }
    var k :| n in Within(g, root, k);
    ClosedHoldsAll(g, root, yielded, k);
  }

  /** The walk's result: distinct reachable nodes at exactly non-decreasing distances. */
  ghost predicate BreadthFirst(g: Graph, root: nat, yielded: seq<nat>, distances: seq<nat>)
  {
    && |yielded| == |distances| <= MAX_NODES && Distinct(yielded)
    && (forall i :: 0 <= i < |yielded| ==> AtDistance(g, root, yielded[i], distances[i]))
    && (forall i, j :: 0 <= i < j < |distances| ==> distances[i] <= distances[j])
  }

  /** Twenty nodes, or all there are. */
  ghost predicate Enough(g: Graph, root: nat, yielded: seq<nat>)
  {
    |yielded| == MAX_NODES || forall n :: Reachable(g, root, n) ==> n in yielded
  }

  ghost predicate UpTo(distances: seq<nat>, level: nat)
  {
    forall i :: 0 <= i < |distances| ==> distances[i] <= level
  }

  lemma YieldOneMore(g: Graph, root: nat, yielded: seq<nat>, distances: seq<nat>, v: nat, level: nat)
    requires BreadthFirst(g, root, yielded, distances) && UpTo(distances, level) && |yielded| < MAX_NODES
    requires v !in yielded && AtDistance(g, root, v, level)
    ensures BreadthFirst(g, root, yielded + [v], distances + [level]) && UpTo(distances + [level], level)
  {
    DistinctOneMore(yielded, v);
    var y, d := yielded + [v], distances + [level];
    forall i | 0 <= i < |y| ensures AtDistance(g, root, y[i], d[i]) {
      if i < |yielded| { assert AtDistance(g, root, yielded[i], distances[i]); }
    }
  }

  lemma Shift(current: seq<nat>, next: seq<nat>, queue: seq<nat>, found: seq<nat>)
    requires queue == current + next && current != []
    ensures queue[0] == current[0]
    ensures queue[1..] == current[1..] + next && queue[1..] + found == current[1..] + (next + found)
  {
  }

  /** How far a walk has come; `current` and `next` split its queue. */
  datatype Progress = Progress(level: nat, current: seq<nat>, next: seq<nat>, distances: seq<nat>, pushes: nat, pops: nat)

  ghost predicate Underway(g: Graph, root: nat, queue: seq<nat>, yielded: seq<nat>, p: Progress)
  {
    && queue == p.current + p.next && Walking(g, root, p.level, yielded, p.current, p.next)
    && BreadthFirst(g, root, yielded, p.distances) && UpTo(p.distances, p.level)
    && p.pops + |queue| == p.pushes <= 1 + 2 * |yielded|
  }

  lemma EnterLevel(g: Graph, root: nat, queue: seq<nat>, yielded: seq<nat>, p: Progress) returns (q: Progress)
    requires queue == p.current + p.next && Walking(g, root, p.level, yielded, p.current, p.next) && queue != []
    ensures queue == q.current + q.next && Walking(g, root, q.level, yielded, q.current, q.next) && q.current != []
    ensures p.level <= q.level && q == p.(level := q.level, current := q.current, next := q.next)
  {
    if p.current == [] {
      assert p.current + p.next == p.next == p.next + [];
      q := p.(level := p.level + 1, current := p.next, next := []);
      NextLevel(g, root, p.level, yielded, p.current, p.next);
    } else {
      q := p;
    }
  }

  lemma PopSeen(g: Graph, root: nat, queue: seq<nat>, yielded: seq<nat>, p: Progress) returns (q: Progress)
    requires Underway(g, root, queue, yielded, p) && queue != [] && queue[0] in yielded
    ensures Underway(g, root, queue[1..], yielded, q)
  {
    q := EnterLevel(g, root, queue, yielded, p);
    Shift(q.current, q.next, queue, []);
    Visited(g, root, q.level, yielded, q.current, q.next, []);
    q := q.(current := q.current[1..], pops := q.pops + 1);
  }

  lemma PopNew(g: Graph, root: nat, queue: seq<nat>, yielded: seq<nat>, found: seq<nat>, p: Progress) returns (q: Progress)
    requires Underway(g, root, queue, yielded, p) && queue != [] && queue[0] !in yielded && |yielded| < MAX_NODES
    requires (forall x :: x in found <==> x in Successors(g, queue[0])) && |found| <= 2
    ensures Underway(g, root, queue[1..] + found, yielded + [queue[0]], q)
  {
    q := EnterLevel(g, root, queue, yielded, p);
    Shift(q.current, q.next, queue, found);
    Visited(g, root, q.level, yielded, q.current, q.next, found);
    YieldOneMore(g, root, yielded, q.distances, queue[0], q.level);
    q := q.(current := q.current[1..], next := q.next + found, distances := q.distances + [q.level],
            pushes := q.pushes + |found|, pops := q.pops + 1);
  }

  lemma AllFound(g: Graph, root: nat, yielded: seq<nat>, p: Progress)
    requires Underway(g, root, [], yielded, p)
    ensures Enough(g, root, yielded)
  {
    assert p.current == [] && p.next == [];
    forall n | Reachable(g, root, n) ensures n in yielded { Finished(g, root, p.level, yielded, n); }
  }

  method Walk(g: Graph, root: nat) returns (yielded: seq<nat>, ghost distances: seq<nat>, ghost pops: nat)
    ensures BreadthFirst(g, root, yielded, distances) && pops <= 2 * MAX_NODES + 1
    ensures Enough(g, root, yielded)
  {
    var seen: set<nat> := {};
    var queue := [root];
    var visited := 0;
    yielded := [];
    ghost var p := Progress(0, [root], [], [], 1, 0);
    while queue != [] && visited < MAX_NODES
      invariant Underway(g, root, queue, yielded, p)
      invariant (forall n :: n in seen <==> n in yielded) && visited == |yielded|
      decreases MAX_NODES - visited, |queue|
    {
      var v := queue[0];
      if v in seen {
        p := PopSeen(g, root, queue, yielded, p);
        queue := queue[1..];
        continue;
      }
      var found := (if g.cause(v).Some? then [g.cause(v).value] else [])
                   + (if g.context(v).Some? then [g.context(v).value] else []);
      p := PopNew(g, root, queue, yielded, found, p);
      seen, visited, yielded, queue := seen + {v}, visited + 1, yielded + [v], queue[1..] + found;
    }
    distances, pops := p.distances, p.pops;
    if queue == [] { AllFound(g, root, yielded, p); }
  }

  function Elements(s: seq<nat>): set<nat>
  {
    set x | x in s
  }

  /** Small graphs are walked completely, any other for exactly twenty nodes. */
  lemma WalksEnough(g: Graph, root: nat, yielded: seq<nat>, distances: seq<nat>, all: set<nat>)
    requires BreadthFirst(g, root, yielded, distances)
    requires Enough(g, root, yielded)
    requires forall n :: n in all ==> Reachable(g, root, n)
    ensures |all| > MAX_NODES ==> |yielded| == MAX_NODES
    ensures (|all| <= MAX_NODES && forall n :: Reachable(g, root, n) ==> n in all) ==> Elements(yielded) == all
  {
    DistinctSize(yielded);
    forall n | n in yielded ensures Reachable(g, root, n) {
      var i :| 0 <= i < |yielded| && yielded[i] == n;
      assert AtDistance(g, root, n, distances[i]);
    }
    if forall n :: Reachable(g, root, n) ==> n in all {
      assert Elements(yielded) <= all;
      if |all| <= MAX_NODES && |yielded| == MAX_NODES { SubsetSizes(Elements(yielded), all); }
    }
    if |yielded| < MAX_NODES {
      assert all <= Elements(yielded);
      SubsetSizes(all, Elements(yielded));
    }
  }

  lemma {:induction false} DistinctSize(s: seq<nat>)
    requires Distinct(s)
    ensures |Elements(s)| == |s|
  {
    if s != [] {
      var rest, last := s[..|s| - 1], s[|s| - 1];
      assert s == rest + [last];
      DistinctOneMore(rest, last);
      DistinctSize(rest);
      assert Elements(s) == Elements(rest) + {last};
    }
  }

  lemma SubsetSizes(a: set<nat>, b: set<nat>)
    requires a <= b
    ensures |a| <= |b| && (|a| == |b| ==> a == b)
  {
    assert b == a + (b - a);
    assert |b| == |a| + |b - a|;
  }

  /** The first certificate verification error the walk meets, so none it meets is nearer. */
  method FindCertificateError(g: Graph, root: nat, matches: nat -> bool)
    returns (r: Option<nat>, ghost yielded: seq<nat>, ghost distances: seq<nat>, ghost at: nat)
    ensures BreadthFirst(g, root, yielded, distances)
    ensures Enough(g, root, yielded)
    ensures r == None ==> forall n <- yielded :: !matches(n)
    ensures r.Some? ==> matches(r.value) && Reachable(g, root, r.value)
    ensures r.Some? ==> at < |yielded| && yielded[at] == r.value
    ensures r.Some? ==> forall j :: 0 <= j < |yielded| && matches(yielded[j]) ==> distances[at] <= distances[j]
  {
    var nodes;
    ghost var pops;
    nodes, distances, pops := Walk(g, root);
    yielded, at, r := nodes, 0, None;
    var i := 0;
    while i < |nodes|
      invariant 0 <= i <= |nodes| && forall j :: 0 <= j < i ==> !matches(nodes[j])
    {
      if matches(nodes[i]) {
        assert AtDistance(g, root, nodes[i], distances[i]);
        at, r := i, Some(nodes[i]);
        return;
      }
      i := i + 1;
    }
  }
}
