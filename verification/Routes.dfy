/** Walks through a transition graph and the ordered Floyd-Warshall next-hop
    construction, on state indexes. */
module Routes {
  import opened Types

  type Graph = set<(nat, nat)>

  function GraphOf(edges: seq<(nat, nat)>): Graph {
    set e | e in edges
  }

  /** A walk is a non-empty sequence of nodes joined by edges; its length is its number of edges. */
  ghost predicate Walk(graph: Graph, walk: seq<nat>, from: nat, to: nat) {
    && |walk| > 0 && walk[0] == from && walk[|walk| - 1] == to
    && forall i :: 0 <= i < |walk| - 1 ==> (walk[i], walk[i + 1]) in graph
  }

  ghost predicate Reachable(graph: Graph, from: nat, to: nat) {
    exists walk :: Walk(graph, walk, from, to)
  }

  /** `d` is the length of a shortest walk. */
  ghost predicate Distance(graph: Graph, from: nat, to: nat, d: nat) {
    && (exists walk :: Walk(graph, walk, from, to) && |walk| == d + 1)
    && (forall walk :: Walk(graph, walk, from, to) ==> |walk| >= d + 1)
  }

  // Matrices of the construction. A missing cell reads as None.

  type Matrix = map<(nat, nat), Option<nat>>

  function At(m: Matrix, i: nat, j: nat): Option<nat> {
    if (i, j) in m then m[(i, j)] else None
  }

  function Sum(a: Option<nat>, b: Option<nat>): Option<nat> {
    if a.Some? && b.Some? then Some(a.value + b.value) else None
  }

  predicate Better(candidate: Option<nat>, current: Option<nat>) {
    candidate.Some? && (current.None? || candidate.value < current.value)
  }

  predicate AtMost(d: Option<nat>, bound: Option<nat>) {
    bound.Some? ==> d.Some? && d.value <= bound.value
  }

  function RelaxedDistance(d: Matrix, k: nat, i: nat, j: nat): Option<nat> {
    var candidate := Sum(At(d, i, k), At(d, k, j));
    if Better(candidate, At(d, i, j)) then candidate else At(d, i, j)
  }

  function RelaxedHop(d: Matrix, hops: Matrix, k: nat, i: nat, j: nat): Option<nat> {
    if Better(Sum(At(d, i, k), At(d, k, j)), At(d, i, j)) then At(hops, i, k) else At(hops, i, j)
  }

  /** The next hop of an off-diagonal cell is an edge, and leaves strictly less to travel. */
  predicate HopDescends(graph: Graph, n: nat, d: Matrix, hops: Matrix, i: nat, j: nat) {
    match At(d, i, j)
    case None => At(hops, i, j).None?
    case Some(v) =>
      var hop := At(hops, i, j);
      && v > 0 && hop.Some? && hop.value < n && hop.value != i && (i, hop.value) in graph
      && (if hop.value == j then v == 1 else AtMost(At(d, hop.value, j), Some(v - 1)))
  }

  /** What the construction keeps: the triangle inequality through every intermediate
      node already processed, and descending next hops. */
  ghost predicate Relaxed(graph: Graph, n: nat, d: Matrix, hops: Matrix, k: nat) {
    && (forall i | 0 <= i < n :: At(d, i, i).Some?)
    && (forall i, j | 0 <= i < n && 0 <= j < n && i != j && (i, j) in graph :: AtMost(At(d, i, j), Some(1)))
    && (forall i, j | 0 <= i < n && 0 <= j < n && i != j :: HopDescends(graph, n, d, hops, i, j))
    && (forall i, j, m | 0 <= i < n && 0 <= j < n && 0 <= m < k && m < n ::
          AtMost(At(d, i, j), Sum(At(d, i, m), At(d, m, j))))
  }

  /** One pass over an intermediate node, written cell by cell from the previous matrices. */
  ghost predicate Pass(n: nat, d: Matrix, hops: Matrix, k: nat, d': Matrix, hops': Matrix) {
    forall i, j | 0 <= i < n && 0 <= j < n ::
      At(d', i, j) == RelaxedDistance(d, k, i, j) && At(hops', i, j) == RelaxedHop(d, hops, k, i, j)
  }

  lemma PassKeepsHops(graph: Graph, n: nat, d: Matrix, hops: Matrix, k: nat, d': Matrix, hops': Matrix, i: nat, j: nat)
    requires k < n && i < n && j < n && i != j
    requires Relaxed(graph, n, d, hops, k)
    requires Pass(n, d, hops, k, d', hops')
    ensures HopDescends(graph, n, d', hops', i, j)
  {
    assert HopDescends(graph, n, d, hops, i, j);
    assert (i, j) in graph ==> AtMost(At(d, i, j), Some(1));
    if Better(Sum(At(d, i, k), At(d, k, j)), At(d, i, j)) {
      assert i != k && k != j;
      assert HopDescends(graph, n, d, hops, i, k);
      assert HopDescends(graph, n, d, hops, k, j);
      var h := At(hops, i, k).value;
      if h == k {
        assert AtMost(At(d', k, j), At(d, k, j));
      } else {
        assert AtMost(At(d', h, j), Sum(At(d, h, k), At(d, k, j)));
      }
    } else if At(d, i, j).Some? {
      var h := At(hops, i, j).value;
      assert AtMost(At(d', h, j), At(d, h, j));
    }
  }

  lemma PassKeepsTriangle(graph: Graph, n: nat, d: Matrix, hops: Matrix, k: nat, d': Matrix, hops': Matrix,
                          i: nat, j: nat, m: nat)
    requires k < n && i < n && j < n && m <= k
    requires Relaxed(graph, n, d, hops, k)
    requires Pass(n, d, hops, k, d', hops')
    ensures AtMost(At(d', i, j), Sum(At(d', i, m), At(d', m, j)))
  {
    assert AtMost(At(d', i, j), Sum(At(d, i, k), At(d, k, j)));
    assert AtMost(At(d', i, j), At(d, i, j));
    if m < k {
      assert AtMost(At(d, i, j), Sum(At(d, i, m), At(d, m, j)));
      assert AtMost(At(d, i, k), Sum(At(d, i, m), At(d, m, k)));
      assert AtMost(At(d, k, j), Sum(At(d, k, m), At(d, m, j)));
    }
  }

  lemma PassKeepsRelaxed(graph: Graph, n: nat, d: Matrix, hops: Matrix, k: nat, d': Matrix, hops': Matrix)
    requires k < n
    requires Relaxed(graph, n, d, hops, k)
    requires Pass(n, d, hops, k, d', hops')
    ensures Relaxed(graph, n, d', hops', k + 1)
  {
    forall i, j | 0 <= i < n && 0 <= j < n && i != j
      ensures HopDescends(graph, n, d', hops', i, j)
    {
      PassKeepsHops(graph, n, d, hops, k, d', hops', i, j);
    }
    forall i, j, m | 0 <= i < n && 0 <= j < n && 0 <= m < k + 1 && m < n
      ensures AtMost(At(d', i, j), Sum(At(d', i, m), At(d', m, j)))
    {
      PassKeepsTriangle(graph, n, d, hops, k, d', hops', i, j, m);
    }
  }

  // What a fully relaxed pair of matrices says about walks.

  lemma {:induction false} WalkBoundsDistance(graph: Graph, n: nat, d: Matrix, hops: Matrix, walk: seq<nat>,
                                              from: nat, to: nat)
    requires from < n && to < n && from != to
    requires forall e | e in graph :: e.0 < n && e.1 < n
    requires Relaxed(graph, n, d, hops, n)
    requires Walk(graph, walk, from, to)
    ensures AtMost(At(d, from, to), Some(|walk| - 1))
    decreases |walk|
  {
    var step := walk[1];
    assert (from, step) in graph by {
      assert (walk[0], walk[1]) in graph;
    }
    assert step < n;
    if step == to {
    } else {
      var rest := walk[1..];
      forall i | 0 <= i < |rest| - 1
        ensures (rest[i], rest[i + 1]) in graph
      {
        assert (walk[i + 1], walk[i + 2]) in graph;
      }
      WalkBoundsDistance(graph, n, d, hops, rest, step, to);
      if step != from {
        assert AtMost(At(d, from, to), Sum(At(d, from, step), At(d, step, to)));
      }
    }
  }

  lemma {:induction false} HopsTraceWalk(graph: Graph, n: nat, d: Matrix, hops: Matrix, from: nat, to: nat, v: nat)
    returns (walk: seq<nat>)
    requires from < n && to < n && from != to
    requires Relaxed(graph, n, d, hops, n)
    requires At(d, from, to) == Some(v)
    ensures Walk(graph, walk, from, to) && |walk| <= v + 1
    decreases v
  {
    assert HopDescends(graph, n, d, hops, from, to);
    var h := At(hops, from, to).value;
    if h == to {
      walk := [from, to];
    } else {
      var rest := HopsTraceWalk(graph, n, d, hops, h, to, At(d, h, to).value);
      walk := [from] + rest;
      assert forall i :: 0 < i < |walk| - 1 ==> walk[i] == rest[i - 1] && walk[i + 1] == rest[i];
    }
  }

  /** A cell of the finished matrices is exactly the distance, and its hop is the
      first edge of a shortest walk. */
  lemma RelaxedIsDistance(graph: Graph, n: nat, d: Matrix, hops: Matrix, from: nat, to: nat)
    requires from < n && to < n && from != to
    requires forall e | e in graph :: e.0 < n && e.1 < n
    requires Relaxed(graph, n, d, hops, n)
    ensures At(d, from, to).Some? <==> Reachable(graph, from, to)
    ensures At(d, from, to).Some? ==> Distance(graph, from, to, At(d, from, to).value)
    ensures At(hops, from, to).Some? <==> At(d, from, to).Some?
  {
    assert HopDescends(graph, n, d, hops, from, to);
    forall walk | Walk(graph, walk, from, to)
      ensures AtMost(At(d, from, to), Some(|walk| - 1))
    {
      WalkBoundsDistance(graph, n, d, hops, walk, from, to);
    }
    if At(d, from, to).Some? {
      var walk := HopsTraceWalk(graph, n, d, hops, from, to, At(d, from, to).value);
      assert AtMost(At(d, from, to), Some(|walk| - 1));
    }
  }

  lemma DistanceUnique(graph: Graph, from: nat, to: nat, a: nat, b: nat)
    requires Distance(graph, from, to, a) && Distance(graph, from, to, b)
    ensures a == b
  {
  }

  /** Taking the hop shortens the distance by exactly one. */
  lemma HopShortensByOne(graph: Graph, n: nat, d: Matrix, hops: Matrix, from: nat, to: nat)
    requires from < n && to < n && from != to
    requires forall e | e in graph :: e.0 < n && e.1 < n
    requires Relaxed(graph, n, d, hops, n)
    requires At(d, from, to).Some?
    ensures var v, hop := At(d, from, to).value, At(hops, from, to);
            && v > 0 && hop.Some? && hop.value < n && (from, hop.value) in graph
            && (if hop.value == to then v == 1 else Distance(graph, hop.value, to, v - 1))
  {
    assert HopDescends(graph, n, d, hops, from, to);
    var h := At(hops, from, to).value;
    if h != to {
      assert AtMost(At(d, from, to), Sum(At(d, from, h), At(d, h, to)));
      assert AtMost(At(d, from, h), Some(1));
      RelaxedIsDistance(graph, n, d, hops, h, to);
    }
  }

  // Which of several shortest walks the hops follow.

  /** All nodes of a walk but its ends lie below a bound. */
  ghost predicate Interior(walk: seq<nat>, bound: nat) {
    forall i | 0 < i < |walk| - 1 :: walk[i] < bound
  }

  /** A walk of the given length whose interior lies below the bound. */
  ghost predicate Bounded(graph: Graph, from: nat, to: nat, length: nat, bound: nat) {
    exists walk :: Walk(graph, walk, from, to) && |walk| == length + 1 && Interior(walk, bound)
  }

  /** The least bound for which there is such a walk: one more than its highest interior node. */
  ghost predicate LeastBound(graph: Graph, from: nat, to: nat, length: nat, bound: nat) {
    Bounded(graph, from, to, length, bound) && forall b: nat | b < bound :: !Bounded(graph, from, to, length, b)
  }

  /** The tie rule of a cell: of all shortest walks the one whose highest interior node comes first counts.
      If it has none the hop is the target itself, and otherwise the hop toward that highest node. */
  ghost predicate TieBroken(graph: Graph, d: Matrix, hops: Matrix, k: nat, i: nat, j: nat) {
    At(d, i, j).Some? ==> forall b: nat | b <= k && LeastBound(graph, i, j, At(d, i, j).value, b) ::
      At(hops, i, j) == if b == 0 then Some(j) else At(hops, i, b - 1)
  }

  /** Hops are targets or nodes already processed, and ties are broken by the rule. */
  ghost predicate Tied(graph: Graph, n: nat, d: Matrix, hops: Matrix, k: nat) {
    && (forall i, j | 0 <= i < n && 0 <= j < n && i != j && At(hops, i, j).Some? ::
          At(hops, i, j).value == j || At(hops, i, j).value < k)
    && (forall i, j | 0 <= i < n && 0 <= j < n && i != j :: TieBroken(graph, d, hops, k, i, j))
  }

  lemma WalkRest(graph: Graph, walk: seq<nat>, from: nat, to: nat, p: nat)
    requires Walk(graph, walk, from, to) && p < |walk|
    ensures Walk(graph, walk[p..], walk[p], to) && Walk(graph, walk[..p + 1], from, walk[p])
    ensures forall b :: Interior(walk, b) ==> Interior(walk[p..], b) && Interior(walk[..p + 1], b)
  {
    forall i | 0 <= i < |walk[p..]| - 1
      ensures (walk[p..][i], walk[p..][i + 1]) in graph
    {
      assert (walk[p + i], walk[p + i + 1]) in graph;
    }
  }

  /** After `k` passes no walk through the first `k` nodes is shorter than its cell. */
  lemma {:induction false} BoundedWalkBounds(graph: Graph, n: nat, d: Matrix, hops: Matrix, k: nat, walk: seq<nat>,
                                             from: nat, to: nat)
    requires from < n && to < n && from != to && k <= n && Relaxed(graph, n, d, hops, k)
    requires forall e | e in graph :: e.0 < n && e.1 < n
    requires Walk(graph, walk, from, to) && Interior(walk, k)
    ensures AtMost(At(d, from, to), Some(|walk| - 1))
    decreases |walk|
  {
    var step := walk[1];
    assert (walk[0], walk[1]) in graph;
    if step != to {
      WalkRest(graph, walk, from, to, 1);
      BoundedWalkBounds(graph, n, d, hops, k, walk[1..], step, to);
      assert step < k;
      if step != from {
        assert AtMost(At(d, from, to), Sum(At(d, from, step), At(d, step, to)));
      }
    }
  }

  /** And following the hops gives such a walk. */
  lemma {:induction false} BoundedTrace(graph: Graph, n: nat, d: Matrix, hops: Matrix, k: nat, from: nat, to: nat,
                                        v: nat)
    returns (walk: seq<nat>)
    requires from < n && to < n && from != to && Relaxed(graph, n, d, hops, k) && Tied(graph, n, d, hops, k)
    requires At(d, from, to) == Some(v)
    ensures Walk(graph, walk, from, to) && |walk| <= v + 1 && Interior(walk, k)
    decreases v
  {
    assert HopDescends(graph, n, d, hops, from, to);
    var h := At(hops, from, to).value;
    if h == to {
      walk := [from, to];
    } else {
      hide TieBroken;
      var rest := BoundedTrace(graph, n, d, hops, k, h, to, At(d, h, to).value);
      walk := [from] + rest;
      assert h < k;
      assert forall i :: 0 < i < |walk| - 1 ==> walk[i] == rest[i - 1] && walk[i + 1] == rest[i];
    }
  }

  lemma CellIsBounded(graph: Graph, n: nat, d: Matrix, hops: Matrix, k: nat, from: nat, to: nat)
    requires from < n && to < n && from != to && k <= n && Relaxed(graph, n, d, hops, k) && Tied(graph, n, d, hops, k)
    requires forall e | e in graph :: e.0 < n && e.1 < n
    requires At(d, from, to).Some?
    ensures Bounded(graph, from, to, At(d, from, to).value, k)
  {
    hide Tied, Relaxed;
    var walk := BoundedTrace(graph, n, d, hops, k, from, to, At(d, from, to).value);
    BoundedWalkBounds(graph, n, d, hops, k, walk, from, to);
  }

  /** The highest interior node splits a shortest walk into two that the matrix also knows. */
  lemma SplitAtHighest(graph: Graph, n: nat, d: Matrix, hops: Matrix, k: nat, from: nat, to: nat, b: nat)
    requires from < n && to < n && from != to && 0 < b <= k <= n && Relaxed(graph, n, d, hops, k)
    requires forall e | e in graph :: e.0 < n && e.1 < n
    requires At(d, from, to).Some? && LeastBound(graph, from, to, At(d, from, to).value, b)
    ensures b - 1 != from && b - 1 != to
    ensures AtMost(Sum(At(d, from, b - 1), At(d, b - 1, to)), At(d, from, to))
  {
    hide Relaxed;
    var v := At(d, from, to).value;
    var walk :| Walk(graph, walk, from, to) && |walk| == v + 1 && Interior(walk, b);
    assert !Bounded(graph, from, to, v, b - 1);
    assert !Interior(walk, b - 1);
    var p :| 0 < p < |walk| - 1 && walk[p] >= b - 1;
    assert walk[p] == b - 1;
    WalkRest(graph, walk, from, to, p);
    assert Interior(walk, k);
    if b - 1 == from {
      BoundedWalkBounds(graph, n, d, hops, k, walk[p..], from, to);
      assert false;
    }
    if b - 1 == to {
      BoundedWalkBounds(graph, n, d, hops, k, walk[..p + 1], from, to);
      assert false;
    }
    BoundedWalkBounds(graph, n, d, hops, k, walk[..p + 1], from, b - 1);
    BoundedWalkBounds(graph, n, d, hops, k, walk[p..], b - 1, to);
  }

  /** A pass leaves the cells of its own column alone. */
  lemma ColumnStays(n: nat, d: Matrix, hops: Matrix, k: nat, d': Matrix, hops': Matrix, i: nat)
    requires k < n && i < n && Pass(n, d, hops, k, d', hops')
    ensures At(d', i, k) == At(d, i, k) && At(hops', i, k) == At(hops, i, k)
  {
  }

  lemma PassKeepsTie(graph: Graph, n: nat, d: Matrix, hops: Matrix, k: nat, d': Matrix, hops': Matrix, i: nat, j: nat,
                     b: nat)
    requires k < n && i < n && j < n && i != j && forall e | e in graph :: e.0 < n && e.1 < n
    requires Relaxed(graph, n, d, hops, k) && Tied(graph, n, d, hops, k) && Pass(n, d, hops, k, d', hops')
    requires Relaxed(graph, n, d', hops', k + 1)
    requires At(d', i, j).Some? && b <= k + 1 && LeastBound(graph, i, j, At(d', i, j).value, b)
    ensures At(hops', i, j) == if b == 0 then Some(j) else At(hops', i, b - 1)
  {
    assert At(d', i, j) == RelaxedDistance(d, k, i, j) && At(hops', i, j) == RelaxedHop(d, hops, k, i, j);
    var v := At(d', i, j).value;
    if Better(Sum(At(d, i, k), At(d, k, j)), At(d, i, j)) {
      if b <= k {
        var walk :| Walk(graph, walk, i, j) && |walk| == v + 1 && Interior(walk, b);
        BoundedWalkBounds(graph, n, d, hops, k, walk, i, j);
        assert false;
      }
      ColumnStays(n, d, hops, k, d', hops', i);
    } else {
      CellIsBounded(graph, n, d, hops, k, i, j);
      assert b <= k;
      assert TieBroken(graph, d, hops, k, i, j);
      if b > 0 {
        SplitAtHighest(graph, n, d, hops, k, i, j, b);
        var m := b - 1;
        assert At(d', i, m) == RelaxedDistance(d, k, i, m) && At(hops', i, m) == RelaxedHop(d, hops, k, i, m);
        assert AtMost(At(d', m, j), At(d, m, j));
        assert AtMost(At(d', i, j), Sum(At(d', i, m), At(d', m, j)));
      }
    }
  }

  lemma PassKeepsTied(graph: Graph, n: nat, d: Matrix, hops: Matrix, k: nat, d': Matrix, hops': Matrix)
    requires k < n && forall e | e in graph :: e.0 < n && e.1 < n
    requires Relaxed(graph, n, d, hops, k) && Tied(graph, n, d, hops, k) && Pass(n, d, hops, k, d', hops')
    requires Relaxed(graph, n, d', hops', k + 1)
    ensures Tied(graph, n, d', hops', k + 1)
  {
    hide Relaxed, LeastBound;
    forall i, j | 0 <= i < n && 0 <= j < n && i != j
      ensures TieBroken(graph, d', hops', k + 1, i, j)
      ensures At(hops', i, j).Some? ==> At(hops', i, j).value == j || At(hops', i, j).value < k + 1
    {
      assert At(hops', i, j) == RelaxedHop(d, hops, k, i, j);
      if At(d', i, j).Some? {
        forall b: nat | b <= k + 1 && LeastBound(graph, i, j, At(d', i, j).value, b)
          ensures At(hops', i, j) == if b == 0 then Some(j) else At(hops', i, b - 1)
        {
          PassKeepsTie(graph, n, d, hops, k, d', hops', i, j, b);
        }
      }
      HopIsProcessed(n, d, hops, k, i, j, graph);
    }
  }

  lemma HopIsProcessed(n: nat, d: Matrix, hops: Matrix, k: nat, i: nat, j: nat, graph: Graph)
    requires k < n && i < n && j < n && i != j && Relaxed(graph, n, d, hops, k) && Tied(graph, n, d, hops, k)
    ensures var hop := RelaxedHop(d, hops, k, i, j);
            hop.Some? ==> hop.value == j || hop.value < k + 1
  {
    hide TieBroken;
    if i == k {
      assert !Better(Sum(At(d, i, k), At(d, k, j)), At(d, i, j));
    }
  }

  lemma StartsTied(graph: Graph, n: nat, d: Matrix, hops: Matrix)
    requires forall i, j | 0 <= i < n && 0 <= j < n ::
               && At(d, i, j) == (if (i, j) in graph then Some(1) else if i == j then Some(0) else None)
               && At(hops, i, j) == (if (i, j) in graph || i == j then Some(j) else None)
    ensures Tied(graph, n, d, hops, 0)
  {
  }

  // The in-place construction.

  ghost function Contents(a: array2<Option<nat>>): (m: Matrix)
    reads a
    ensures forall i, j | 0 <= i < a.Length0 && 0 <= j < a.Length1 :: At(m, i, j) == a[i, j]
  {
    map i: nat, j: nat | i < a.Length0 && j < a.Length1 :: (i, j) := a[i, j]
  }

  /** The matrices before the first pass: zero on the diagonal, then one for every
      declared transition, which overwrites the diagonal for a self-loop. */
  method InitializeMatrices(n: nat, edges: seq<(nat, nat)>)
    returns (distances: array2<Option<nat>>, hops: array2<Option<nat>>)
    requires forall e | e in edges :: e.0 < n && e.1 < n
    ensures fresh(distances) && fresh(hops) && distances != hops
    ensures distances.Length0 == n && distances.Length1 == n && hops.Length0 == n && hops.Length1 == n
    ensures forall i, j | 0 <= i < n && 0 <= j < n ::
              distances[i, j] == (if (i, j) in edges then Some(1) else if i == j then Some(0) else None) &&
              hops[i, j] == (if (i, j) in edges || i == j then Some(j) else None)
    ensures Relaxed(GraphOf(edges), n, Contents(distances), Contents(hops), 0)
  {
    distances := new Option<nat>[n, n]((i, j) => None);
    hops := new Option<nat>[n, n]((i, j) => None);
    for index := 0 to n
      invariant forall i, j | 0 <= i < n && 0 <= j < n ::
          distances[i, j] == (if i == j < index then Some(0) else None) &&
          hops[i, j] == (if i == j < index then Some(i) else None)
    {
      distances[index, index] := Some(0);
      hops[index, index] := Some(index);
    }
    for e := 0 to |edges|
      invariant forall i, j | 0 <= i < n && 0 <= j < n ::
          distances[i, j] == (if (i, j) in edges[..e] then Some(1) else if i == j then Some(0) else None) &&
          hops[i, j] == (if (i, j) in edges[..e] || i == j then Some(j) else None)
    {
      var (from, to) := edges[e];
      assert edges[e] in edges;
      distances[from, to] := Some(1);
      hops[from, to] := Some(to);
      assert edges[..e + 1] == edges[..e] + [edges[e]];
    }
    assert edges[..|edges|] == edges;
  }

  ghost predicate RowKept(n: nat, distances: array2<Option<nat>>, hops: array2<Option<nat>>, d: Matrix, h: Matrix,
                          i: nat)
    requires distances.Length0 == n && distances.Length1 == n && hops.Length0 == n && hops.Length1 == n && i < n
    reads distances, hops
  {
    forall j | 0 <= j < n :: distances[i, j] == At(d, i, j) && hops[i, j] == At(h, i, j)
  }

  ghost predicate RowRelaxed(n: nat, distances: array2<Option<nat>>, hops: array2<Option<nat>>, d: Matrix, h: Matrix,
                             k: nat, i: nat)
    requires distances.Length0 == n && distances.Length1 == n && hops.Length0 == n && hops.Length1 == n && i < n
    reads distances, hops
  {
    forall j | 0 <= j < n ::
      distances[i, j] == RelaxedDistance(d, k, i, j) && hops[i, j] == RelaxedHop(d, h, k, i, j)
  }

  /** One row of a pass. Row and column `k` keep their distances throughout the pass. */
  method RelaxRow(n: nat, from: nat, k: nat, distances: array2<Option<nat>>, hops: array2<Option<nat>>,
                  ghost d: Matrix, ghost h: Matrix)
    requires distances != hops && k < n && from < n
    requires distances.Length0 == n && distances.Length1 == n && hops.Length0 == n && hops.Length1 == n
    requires RowKept(n, distances, hops, d, h, from)
    requires forall j | 0 <= j < n :: distances[k, j] == At(d, k, j)
    requires At(d, k, k).Some?
    modifies distances, hops
    ensures RowRelaxed(n, distances, hops, d, h, k, from)
    ensures forall i, j | 0 <= i < n && 0 <= j < n && i != from ::
        distances[i, j] == old(distances[i, j]) && hops[i, j] == old(hops[i, j])
  {
    for to := 0 to n
      invariant forall j | 0 <= j < n ::
          distances[from, j] == (if j < to then RelaxedDistance(d, k, from, j) else At(d, from, j))
      invariant forall j | 0 <= j < n ::
          hops[from, j] == (if j < to then RelaxedHop(d, h, k, from, j) else At(h, from, j))
      invariant forall i, j | 0 <= i < n && 0 <= j < n && i != from ::
          distances[i, j] == old(distances[i, j]) && hops[i, j] == old(hops[i, j])
    {
      var left, right := distances[from, k], distances[k, to];
      assert left == At(d, from, k) && right == At(d, k, to);
      if left.Some? && right.Some? {
        var candidate := left.value + right.value;
        if Better(Some(candidate), distances[from, to]) {
          distances[from, to] := Some(candidate);
          hops[from, to] := hops[from, k];
        }
      }
    }
  }

  /** One pass of the ordered construction: every cell, row by row, through node `k`. */
  method RelaxThrough(n: nat, k: nat, distances: array2<Option<nat>>, hops: array2<Option<nat>>)
    requires distances != hops && k < n
    requires distances.Length0 == n && distances.Length1 == n && hops.Length0 == n && hops.Length1 == n
    requires forall i | 0 <= i < n :: distances[i, i].Some?
    modifies distances, hops
    ensures Pass(n, old(Contents(distances)), old(Contents(hops)), k, Contents(distances), Contents(hops))
  {
    ghost var d, h := Contents(distances), Contents(hops);
    assert At(d, k, k).Some?;
    for from := 0 to n
      invariant forall i | 0 <= i < from :: RowRelaxed(n, distances, hops, d, h, k, i)
      invariant forall i | from <= i < n :: RowKept(n, distances, hops, d, h, i)
    {
      assert forall j | 0 <= j < n :: distances[k, j] == At(d, k, j) by {
        if k < from {
          assert RowRelaxed(n, distances, hops, d, h, k, k);
        } else {
          assert RowKept(n, distances, hops, d, h, k);
        }
      }
      label BeforeRow:
      RelaxRow(n, from, k, distances, hops, d, h);
      forall i | 0 <= i < from
        ensures RowRelaxed(n, distances, hops, d, h, k, i)
      {
        assert old@BeforeRow(RowRelaxed(n, distances, hops, d, h, k, i));
      }
      forall i | from < i < n
        ensures RowKept(n, distances, hops, d, h, i)
      {
        assert old@BeforeRow(RowKept(n, distances, hops, d, h, i));
      }
    }
    forall i, j | 0 <= i < n && 0 <= j < n
      ensures At(Contents(distances), i, j) == RelaxedDistance(d, k, i, j)
      ensures At(Contents(hops), i, j) == RelaxedHop(d, h, k, i, j)
    {
      assert RowRelaxed(n, distances, hops, d, h, k, i);
    }
  }

  lemma DiagonalIsSet(graph: Graph, n: nat, d: Matrix, hops: Matrix, k: nat)
    requires Relaxed(graph, n, d, hops, k)
    ensures forall i | 0 <= i < n :: At(d, i, i).Some?
  {
  }

  /** The ordered next-hop construction of the state model builder. */
  method BuildHops(n: nat, edges: seq<(nat, nat)>)
    returns (distances: array2<Option<nat>>, hops: array2<Option<nat>>)
    requires forall e | e in edges :: e.0 < n && e.1 < n
    ensures distances.Length0 == n && distances.Length1 == n && hops.Length0 == n && hops.Length1 == n
    ensures Relaxed(GraphOf(edges), n, Contents(distances), Contents(hops), n)
    ensures Tied(GraphOf(edges), n, Contents(distances), Contents(hops), n)
  {
    distances, hops := InitializeMatrices(n, edges);
    ghost var graph := GraphOf(edges);
    StartsTied(graph, n, Contents(distances), Contents(hops));
    hide Relaxed, Tied, Pass;
    for intermediate := 0 to n
      invariant Relaxed(graph, n, Contents(distances), Contents(hops), intermediate)
      invariant Tied(graph, n, Contents(distances), Contents(hops), intermediate)
    {
      ghost var d, h := Contents(distances), Contents(hops);
      assert forall i | 0 <= i < n :: distances[i, i].Some? by {
        DiagonalIsSet(graph, n, d, h, intermediate);
      }
      RelaxThrough(n, intermediate, distances, hops);
      PassKeepsRelaxed(graph, n, d, h, intermediate, Contents(distances), Contents(hops));
      PassKeepsTied(graph, n, d, h, intermediate, Contents(distances), Contents(hops));
    }
  }
}
