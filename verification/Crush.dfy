/** CRUSH replica selection over a two-level topology, for any child-choosing function (`crush.rs`). */
module Crush {
  import opened Types
  import opened Ordering
  import opened BestPossible

  type ZoneId = nat

  const NODE_WEIGHT := 1000
  const MAX_RETRY := 10
  const MAX_LOOPBACK_COUNT := 50

  /** Instances hang from the root, or from fault zones below it. */
  datatype Topology = Flat | Zoned

  datatype CrushInstance = CrushInstance(instance: InstanceId, zone: ZoneId)

  datatype CrushError =
    | DuplicateInstance(instance: InstanceId)
    | DuplicatePartition(partition: PartitionId)
    | LiveInstanceUnknown(instance: InstanceId)
    | NoInstances
    | NoPartitions
    | SelectedNonInstance

  datatype Kind = Root | Zone(name: ZoneId) | Leaf(instance: InstanceId, home: ZoneId)

  datatype Node = Node(kind: Kind, weight: nat, failed: bool, children: seq<nat>)

  type Tree = seq<Node>

  /** The straw draw: some child of the node, whatever the input and the round. */
  type Chooser = (nat, int, nat) -> nat

  ghost predicate Chooses(tree: Tree, choose: Chooser) {
    forall n: nat, input: int, round: nat | n < |tree| && tree[n].children != [] ::
      choose(n, input, round) in tree[n].children
  }

  // The tree.

  ghost predicate LiveLeaf(tree: Tree, n: nat) {
    n < |tree| && tree[n].kind.Leaf? && !tree[n].failed
  }

  /** The node itself, its children or theirs. */
  ghost predicate Below(tree: Tree, n: nat, j: nat)
    requires n < |tree|
  {
    j == n || j in tree[n].children || exists c | c in tree[n].children :: c < |tree| && j in tree[c].children
  }

  /** The live leaves below a node. */
  ghost function LiveUnder(tree: Tree, n: nat): set<nat>
    requires n < |tree|
  {
    set j | 0 <= j < |tree| && LiveLeaf(tree, j) && Below(tree, n, j)
  }

  ghost predicate Weighed(tree: Tree, n: nat)
    requires n < |tree|
  {
    tree[n].weight == NODE_WEIGHT * |LiveUnder(tree, n)|
  }

  ghost predicate Downward(tree: Tree) {
    forall n, c | 0 <= n < |tree| && c in tree[n].children :: n < c < |tree|
  }

  /** Children come after their parent; a zone, except one still being filled, has only leaves of its
      own; zones and leaves are unique. */
  ghost predicate Shaped(tree: Tree, topology: Topology, filling: nat) {
    && tree != [] && tree[0].kind.Root?
    && (forall n | 0 < n < |tree| :: !tree[n].kind.Root?)
    && Downward(tree)
    && (forall c | c in tree[0].children :: if topology.Flat? then tree[c].kind.Leaf? else tree[c].kind.Zone?)
    && (forall n | 0 < n < |tree| :: ChildrenFit(tree, n, filling))
    && (forall m, n | 0 < m < n < |tree| :: tree[m].kind != tree[n].kind)
    && (forall m, n | 0 < m < n < |tree| && tree[m].kind.Leaf? && tree[n].kind.Leaf? ::
          tree[m].kind.instance != tree[n].kind.instance)
  }

  ghost predicate ChildrenFit(tree: Tree, n: nat, filling: nat)
    requires n < |tree|
  {
    && (tree[n].kind.Leaf? ==> tree[n].children == [])
    && (tree[n].kind.Zone? ==>
          && (n == filling || tree[n].children != [])
          && (forall c | c in tree[n].children ::
                c < |tree| && tree[c].kind.Leaf? && tree[c].kind.home == tree[n].kind.name))
  }

  ghost predicate AllWeighed(tree: Tree) {
    forall n | 0 <= n < |tree| :: Weighed(tree, n)
  }

  /** A new leaf below `parent`, with the weights on the way up. */
  function WithLeaf(tree: Tree, parent: nat, kind: Kind, live: bool): Tree
    requires parent < |tree|
  {
    var leaf, weight := |tree|, if live then NODE_WEIGHT else 0;
    var added := tree + [Node(kind, weight, !live, [])];
    var filled := added[parent := added[parent].(weight := added[parent].weight + weight,
                                                 children := added[parent].children + [leaf])];
    if parent == 0 then filled else filled[0 := filled[0].(weight := filled[0].weight + weight)]
  }

  lemma BelowAfter(tree: Tree, topology: Topology, parent: nat, kind: Kind, live: bool, n: nat, j: nat)
    requires Shaped(tree, topology, parent) && parent < |tree| && !tree[parent].kind.Leaf? && kind.Leaf?
             && n <= |tree| && j <= |tree|
    requires parent == 0 || parent in tree[0].children
    ensures var after := WithLeaf(tree, parent, kind, live);
            Below(after, n, j)
            <==> if j == |tree| then n == |tree| || n == 0 || n == parent else n < |tree| && Below(tree, n, j)
  {
    var after := WithLeaf(tree, parent, kind, live);
    forall m | 0 <= m < |tree|
      ensures forall c | c in after[m].children :: c in tree[m].children || (m == parent && c == |tree|)
      ensures forall c | c in tree[m].children :: c in after[m].children && m < c < |tree|
    {
    }
    assert |tree| in after[parent].children && after[|tree|].children == [];
    if n < |tree| && n != 0 && n != parent {
      assert ChildrenFit(tree, n, parent);
      assert forall c | c in tree[n].children :: ChildrenFit(tree, c, parent);
    }
    if n == parent && n != 0 {
      assert ChildrenFit(tree, n, parent);
    }
    if n < |tree| && j < |tree| && Below(after, n, j) && j != n && j !in tree[n].children {
      var c :| c in after[n].children && j in after[c].children;
      assert c in tree[n].children && j in tree[c].children;
    }
    if n < |tree| && Below(tree, n, j) && j != n && j !in tree[n].children {
      var c :| c in tree[n].children && c < |tree| && j in tree[c].children;
      assert c in after[n].children && j in after[c].children;
    }
  }

  lemma LiveUnderAfter(tree: Tree, topology: Topology, parent: nat, kind: Kind, live: bool, n: nat)
    requires Shaped(tree, topology, parent) && parent < |tree| && !tree[parent].kind.Leaf? && kind.Leaf? && n <= |tree|
    requires parent == 0 || parent in tree[0].children
    ensures var after := WithLeaf(tree, parent, kind, live);
            LiveUnder(after, n)
            == (if n == |tree| then {} else LiveUnder(tree, n))
               + (if live && (n == |tree| || n == 0 || n == parent) then {|tree|} else {})
  {
    var after := WithLeaf(tree, parent, kind, live);
    assert |after| == |tree| + 1;
    assert forall j | 0 <= j < |after| :: LiveLeaf(after, j) <==> (if j == |tree| then live else LiveLeaf(tree, j));
    hide Shaped, Below, WithLeaf, LiveLeaf;
    forall j | 0 <= j < |after|
      ensures Below(after, n, j)
              <==> if j == |tree| then n == |tree| || n == 0 || n == parent else n < |tree| && Below(tree, n, j)
    {
      BelowAfter(tree, topology, parent, kind, live, n, j);
    }
  }

  lemma WithLeafWeighed(tree: Tree, topology: Topology, parent: nat, kind: Kind, live: bool)
    requires Shaped(tree, topology, parent) && parent < |tree| && !tree[parent].kind.Leaf? && kind.Leaf?
             && AllWeighed(tree)
    requires parent == 0 || parent in tree[0].children
    ensures AllWeighed(WithLeaf(tree, parent, kind, live))
  {
    var after := WithLeaf(tree, parent, kind, live);
    forall n | 0 <= n < |after|
      ensures Weighed(after, n)
    {
      LiveUnderAfter(tree, topology, parent, kind, live, n);
      if n < |tree| {
        assert Weighed(tree, n);
        assert |tree| !in LiveUnder(tree, n);
      }
    }
  }

  lemma FitAfterLeaf(tree: Tree, parent: nat, kind: Kind, live: bool, n: nat)
    requires parent < |tree| && kind.Leaf? && tree[0].kind.Root? && 0 < n <= |tree|
    requires parent == 0 || tree[parent].kind == Zone(kind.home)
    requires n < |tree| ==> ChildrenFit(tree, n, parent)
    ensures ChildrenFit(WithLeaf(tree, parent, kind, live), n, 0)
  {
    var after := WithLeaf(tree, parent, kind, live);
    assert forall m | 0 <= m < |tree| :: after[m].kind == tree[m].kind;
  }

  lemma WithLeafShaped(tree: Tree, topology: Topology, parent: nat, kind: Kind, live: bool)
    requires Shaped(tree, topology, parent) && parent < |tree| && kind.Leaf?
    requires if topology.Flat? then parent == 0 else tree[parent].kind == Zone(kind.home)
    requires forall n | 0 < n < |tree| && tree[n].kind.Leaf? :: tree[n].kind.instance != kind.instance
    ensures Shaped(WithLeaf(tree, parent, kind, live), topology, 0)
  {
    var after := WithLeaf(tree, parent, kind, live);
    assert |after| == |tree| + 1;
    assert forall n | 0 <= n < |tree| :: after[n].kind == tree[n].kind;
    assert after[|tree|].kind == kind && after[|tree|].children == [];
    assert forall n | 0 <= n < |tree| ::
             after[n].children == if n == parent then tree[n].children + [|tree|] else tree[n].children;
    hide WithLeaf, ChildrenFit;
    forall n | 0 < n < |after|
      ensures ChildrenFit(after, n, 0)
    {
      FitAfterLeaf(tree, parent, kind, live, n);
    }
    forall m, n | 0 < m < n < |after|
      ensures after[m].kind != after[n].kind
    {
    }
  }

  lemma NewZoneShaped(tree: Tree, topology: Topology, name: ZoneId)
    requires Shaped(tree, topology, 0) && topology.Zoned? && forall n | 0 < n < |tree| :: tree[n].kind != Zone(name)
    ensures var added := tree + [Node(Zone(name), 0, false, [])];
            Shaped(added[0 := added[0].(children := added[0].children + [|tree|])], topology, |tree|)
  {
    var added := tree + [Node(Zone(name), 0, false, [])];
    var after := added[0 := added[0].(children := added[0].children + [|tree|])];
    assert forall n | 0 < n < |tree| :: after[n] == tree[n];
    forall n | 0 < n < |after|
      ensures ChildrenFit(after, n, |tree|)
    {
      if n < |tree| {
        assert ChildrenFit(tree, n, 0);
      }
    }
  }

  lemma BelowAfterZone(tree: Tree, topology: Topology, name: ZoneId, n: nat, j: nat)
    requires Shaped(tree, topology, 0) && n < |tree| && j < |tree|
    ensures var added := tree + [Node(Zone(name), 0, false, [])];
            Below(added[0 := added[0].(children := added[0].children + [|tree|])], n, j) <==> Below(tree, n, j)
  {
    var added := tree + [Node(Zone(name), 0, false, [])];
    var after := added[0 := added[0].(children := added[0].children + [|tree|])];
    assert forall c | 0 < c < |tree| :: after[c] == tree[c];
    assert after[|tree|].children == [];
    if Below(after, n, j) && j != n && j !in after[n].children {
      var c :| c in after[n].children && c < |after| && j in after[c].children;
      assert c in tree[n].children;
    }
    if Below(tree, n, j) && j != n && j !in tree[n].children {
      var c :| c in tree[n].children && c < |tree| && j in tree[c].children;
      assert c in after[n].children && j in after[c].children;
    }
  }

  lemma NewZoneWeighed(tree: Tree, topology: Topology, name: ZoneId)
    requires Shaped(tree, topology, 0) && AllWeighed(tree)
    ensures var added := tree + [Node(Zone(name), 0, false, [])];
            AllWeighed(added[0 := added[0].(children := added[0].children + [|tree|])])
  {
    var added := tree + [Node(Zone(name), 0, false, [])];
    var after := added[0 := added[0].(children := added[0].children + [|tree|])];
    assert forall j | 0 <= j < |tree| :: LiveLeaf(after, j) <==> LiveLeaf(tree, j);
    forall n | 0 <= n < |after|
      ensures Weighed(after, n)
    {
      if n < |tree| {
        assert Weighed(tree, n);
        forall j | 0 <= j < |tree|
          ensures Below(after, n, j) <==> Below(tree, n, j)
        {
          BelowAfterZone(tree, topology, name, n, j);
        }
        assert LiveUnder(after, n) == LiveUnder(tree, n);
      } else {
        assert LiveUnder(after, n) == {};
      }
    }
  }

  /** The tree holds exactly the instances entered so far, each failed unless live. */
  ghost predicate Holds(tree: Tree, entered: seq<CrushInstance>, live: set<InstanceId>) {
    && (forall n | 0 < n < |tree| && tree[n].kind.Leaf? ::
          CrushInstance(tree[n].kind.instance, tree[n].kind.home) in entered
              && tree[n].failed == (tree[n].kind.instance !in live))
    && (forall e | e in entered :: exists n | 0 < n < |tree| :: tree[n].kind == Leaf(e.instance, e.zone))
  }

  ghost predicate ZonesKnown(tree: Tree, zones: map<ZoneId, nat>)
    requires tree != []
  {
    && (forall z | z in zones ::
          0 < zones[z] < |tree| && tree[zones[z]].kind == Zone(z) && zones[z] in tree[0].children)
    && (forall n | 0 < n < |tree| && tree[n].kind.Zone? :: tree[n].kind.name in zones)
  }

  /** Later trees keep the kind and the fate of every node. */
  ghost predicate Grows(tree: Tree, after: Tree) {
    |tree| < |after| && forall n | 0 <= n < |tree| :: after[n].kind == tree[n].kind && after[n].failed == tree[n].failed
  }

  lemma HoldsAfterZone(tree: Tree, after: Tree, entered: seq<CrushInstance>, live: set<InstanceId>)
    requires Grows(tree, after) && |after| == |tree| + 1 && after[|tree|].kind.Zone? && Holds(tree, entered, live)
    ensures Holds(after, entered, live)
  {
    forall e | e in entered
      ensures exists n | 0 < n < |after| :: after[n].kind == Leaf(e.instance, e.zone)
    {
      var n :| 0 < n < |tree| && tree[n].kind == Leaf(e.instance, e.zone);
      assert after[n].kind == Leaf(e.instance, e.zone);
    }
  }

  lemma HoldsAfterLeaf(tree: Tree, after: Tree, entered: seq<CrushInstance>, e: CrushInstance, live: set<InstanceId>)
    requires Grows(tree, after) && |after| == |tree| + 1 && tree != [] && Holds(tree, entered, live)
    requires after[|tree|].kind == Leaf(e.instance, e.zone) && after[|tree|].failed == (e.instance !in live)
    ensures Holds(after, entered + [e], live)
  {
    forall x | x in entered + [e]
      ensures exists n | 0 < n < |after| :: after[n].kind == Leaf(x.instance, x.zone)
    {
      if x in entered {
        var n :| 0 < n < |tree| && tree[n].kind == Leaf(x.instance, x.zone);
        assert after[n].kind == Leaf(x.instance, x.zone);
      } else {
        assert after[|tree|].kind == Leaf(x.instance, x.zone);
      }
    }
  }

  lemma ZonesAfter(tree: Tree, after: Tree, zones: map<ZoneId, nat>)
    requires tree != [] && Grows(tree, after) && ZonesKnown(tree, zones)
    requires forall c | c in tree[0].children :: c in after[0].children
    requires forall n | |tree| <= n < |after| :: !after[n].kind.Zone?
    ensures ZonesKnown(after, zones)
  {
    forall n | 0 < n < |after| && after[n].kind.Zone?
      ensures after[n].kind.name in zones
    {
      assert tree[n].kind == after[n].kind;
    }
  }

  /** `TopologyTree::build`: a well-shaped tree of the given instances whose weights are, at every
      level, the node weight times the live leaves below. */
  method Build(instances: seq<CrushInstance>, live: set<InstanceId>, topology: Topology) returns (tree: Tree)
    requires forall i, j | 0 <= i < j < |instances| :: instances[i].instance != instances[j].instance
    ensures Shaped(tree, topology, 0) && AllWeighed(tree) && Holds(tree, instances, live)
    ensures instances != [] ==> tree[0].children != []
  {
    tree := [Node(Root, 0, false, [])];
    var zones: map<ZoneId, nat> := map[];
    assert LiveUnder(tree, 0) == {};
    for k := 0 to |instances|
      invariant Shaped(tree, topology, 0) && AllWeighed(tree) && Holds(tree, instances[..k], live)
      invariant ZonesKnown(tree, zones)
      invariant k > 0 ==> tree[0].children != []
    {
      var e := instances[k];
      assert instances[..k + 1] == instances[..k] + [e];
      var parent := 0;
      if topology.Zoned? {
        tree, zones, parent := EnterZone(tree, topology, zones, e.zone, instances[..k], live);
      }
      tree := EnterLeaf(tree, topology, parent, zones, instances[..k], e, live);
    }
    assert instances[..|instances|] == instances;
  }

  method EnterZone(tree: Tree, topology: Topology, zones: map<ZoneId, nat>, name: ZoneId,
                   ghost entered: seq<CrushInstance>, ghost live: set<InstanceId>)
    returns (tree': Tree, zones': map<ZoneId, nat>, zone: nat)
    requires topology.Zoned? && Shaped(tree, topology, 0) && AllWeighed(tree) && Holds(tree, entered, live)
             && ZonesKnown(tree, zones)
    ensures 0 < zone < |tree'| && tree'[zone].kind == Zone(name) && zone in tree'[0].children
    ensures Shaped(tree', topology, zone) && AllWeighed(tree') && Holds(tree', entered, live)
            && ZonesKnown(tree', zones')
  {
    if name in zones {
      tree', zones', zone := tree, zones, zones[name];
      assert tree[0].children != [];
      ShapedWhileFilling(tree, topology, zone);
      return;
    }
    zone := |tree|;
    tree' := tree + [Node(Zone(name), 0, false, [])];
    tree' := tree'[0 := tree'[0].(children := tree'[0].children + [zone])];
    zones' := zones[name := zone];
    assert ZonesKnown(tree', zones');
    assert Grows(tree, tree') && forall n | 0 < n < |tree| :: tree[n].kind != Zone(name);
    hide Shaped, AllWeighed, Holds, ZonesKnown, Grows;
    NewZoneShaped(tree, topology, name);
    NewZoneWeighed(tree, topology, name);
    HoldsAfterZone(tree, tree', entered, live);
  }

  lemma ShapedWhileFilling(tree: Tree, topology: Topology, filling: nat)
    requires Shaped(tree, topology, 0)
    ensures Shaped(tree, topology, filling)
  {
    forall n | 0 < n < |tree|
      ensures ChildrenFit(tree, n, filling)
    {
      assert ChildrenFit(tree, n, 0);
    }
  }

  lemma WithLeafGrows(tree: Tree, parent: nat, kind: Kind, live: bool)
    requires parent < |tree|
    ensures var after := WithLeaf(tree, parent, kind, live);
            && Grows(tree, after) && |after| == |tree| + 1
            && after[|tree|].kind == kind && after[|tree|].failed == !live
            && (forall c | c in tree[0].children :: c in after[0].children)
            && (parent == 0 || tree[0].children != [] ==> after[0].children != [])
  {
  }

  lemma NewInstance(tree: Tree, entered: seq<CrushInstance>, live: set<InstanceId>, i: InstanceId)
    requires Holds(tree, entered, live) && forall x | x in entered :: x.instance != i
    ensures forall n | 0 < n < |tree| && tree[n].kind.Leaf? :: tree[n].kind.instance != i
  {
  }

  method EnterLeaf(tree: Tree, topology: Topology, parent: nat, ghost zones: map<ZoneId, nat>,
                   ghost entered: seq<CrushInstance>, e: CrushInstance, live: set<InstanceId>)
    returns (tree': Tree)
    requires parent < |tree|
    requires if topology.Flat? then parent == 0 else tree[parent].kind == Zone(e.zone) && parent in tree[0].children
    requires Shaped(tree, topology, parent) && AllWeighed(tree) && Holds(tree, entered, live) && ZonesKnown(tree, zones)
    requires forall x | x in entered :: x.instance != e.instance
    ensures Shaped(tree', topology, 0) && AllWeighed(tree') && Holds(tree', entered + [e], live)
            && ZonesKnown(tree', zones)
    ensures tree'[0].children != []
  {
    hide Shaped, AllWeighed, Grows, Holds, ZonesKnown;
    var kind, up := Leaf(e.instance, e.zone), e.instance in live;
    var leaf, weight := |tree|, if up then NODE_WEIGHT else 0;
    tree' := tree + [Node(kind, weight, !up, [])];
    tree' := tree'[parent := tree'[parent].(weight := tree'[parent].weight + weight,
                                            children := tree'[parent].children + [leaf])];
    if parent != 0 {
      tree' := tree'[0 := tree'[0].(weight := tree'[0].weight + weight)];
    }
    assert tree' == WithLeaf(tree, parent, kind, up);
    hide WithLeaf;
    assert !tree[parent].kind.Leaf? by {
      RootIsRoot(tree, topology, parent);
    }
    NewInstance(tree, entered, live, e.instance);
    WithLeafShaped(tree, topology, parent, kind, up);
    WithLeafWeighed(tree, topology, parent, kind, up);
    WithLeafGrows(tree, parent, kind, up);
    HoldsAfterLeaf(tree, tree', entered, e, live);
    ZonesAfter(tree, tree', zones);
  }

  lemma RootIsRoot(tree: Tree, topology: Topology, filling: nat)
    requires Shaped(tree, topology, filling)
    ensures tree != [] && tree[0].kind.Root?
  {
  }

  // Selection.

  predicate Unavailable(tree: Tree, n: nat)
    requires n < |tree|
  {
    tree[n].weight == 0 || (tree[n].children == [] && tree[n].failed)
  }

  predicate OfType(tree: Tree, n: nat, leaf: bool)
    requires n < |tree|
  {
    if leaf then tree[n].kind.Leaf? else tree[n].kind.Zone?
  }

  predicate AllEliminated(tree: Tree, n: nat, selected: seq<nat>, rejected: set<nat>)
    requires n < |tree| && forall c | c in tree[n].children :: c < |tree|
  {
    forall c | c in tree[n].children :: Unavailable(tree, c) || c in selected || c in rejected
  }

  /** Every way down from a node meets the wanted type before it ends. */
  ghost predicate LeadsTo(tree: Tree, n: nat, leaf: bool)
    requires Downward(tree)
    decreases |tree| - n
  {
    n < |tree| && tree[n].children != []
        && forall c | c in tree[n].children :: OfType(tree, c, leaf) || LeadsTo(tree, c, leaf)
  }

  /** The nodes of the wanted type those ways meet. */
  ghost predicate Finds(tree: Tree, n: nat, leaf: bool, t: nat)
    requires Downward(tree)
    decreases |tree| - n
  {
    n < |tree| && exists c | c in tree[n].children :: if OfType(tree, c, leaf) then c == t else Finds(tree, c, leaf, t)
  }

  datatype Search = Found(node: nat) | Escaped | OutOfFuel

  /** One rank of a selection below `parent`. */
  datatype Query = Query(choose: Chooser, parent: nat, input: int, rank: nat, leaf: bool, selected: seq<nat>,
                         excluded: set<nat>)

  ghost predicate Answerable(tree: Tree, q: Query) {
    Downward(tree) && LeadsTo(tree, q.parent, q.leaf) && Chooses(tree, q.choose)
  }

  /** Where a search stands: the node it draws from, how many nodes it has refused, how often it has
      returned to the parent, and what it has rejected since. */
  datatype Position = Position(node: nat, failures: nat, loopbacks: nat, rejected: set<nat>)

  function DrawOf(q: Query, at: Position): nat {
    q.choose(at.node, q.input, q.rank + at.failures)
  }

  ghost predicate Eligible(tree: Tree, q: Query, n: nat) {
    n < |tree| && OfType(tree, n, q.leaf) && n !in q.selected && n !in q.excluded && !Unavailable(tree, n)
  }

  /** A refused draw that sends the search back to the parent: an unavailable node, or the last node there
      was to draw from. */
  ghost predicate TurnsBack(tree: Tree, q: Query, at: Position)
    requires Answerable(tree, q) && LeadsTo(tree, at.node, q.leaf)
  {
    var c := DrawOf(q, at);
    assert c in tree[at.node].children;
    OfType(tree, c, q.leaf) && if c in q.selected || c in q.excluded
                               then forall d | d in tree[at.node].children ::
                                   d == c || d in at.rejected || d in q.selected || Unavailable(tree, d)
                               else Unavailable(tree, c)
  }

  /** Where the search stands after a draw it does not accept: below the drawn node if that is not of the
      wanted type, otherwise back at the parent or still at the same node, one round later. */
  ghost function Refuse(tree: Tree, q: Query, at: Position): (next: Position)
    requires Answerable(tree, q) && LeadsTo(tree, at.node, q.leaf)
    requires !Eligible(tree, q, DrawOf(q, at))
    ensures LeadsTo(tree, next.node, q.leaf)
  {
    var c := DrawOf(q, at);
    assert c in tree[at.node].children;
    if !OfType(tree, c, q.leaf) then at.(node := c)
    else if TurnsBack(tree, q, at) then Position(q.parent, at.failures + 1, at.loopbacks + 1, {})
    else at.(failures := at.failures + 1, rejected := at.rejected + {c})
  }

  /** The search from a position on. */
  ghost function SearchFrom(tree: Tree, q: Query, at: Position, fuel: nat): Search
    requires Answerable(tree, q) && LeadsTo(tree, at.node, q.leaf)
    decreases fuel
  {
    if fuel == 0 then OutOfFuel
    else if Eligible(tree, q, DrawOf(q, at)) then Found(DrawOf(q, at))
    else if TurnsBack(tree, q, at) && at.loopbacks == MAX_LOOPBACK_COUNT then Escaped
    else SearchFrom(tree, q, Refuse(tree, q, at), fuel - 1)
  }

  ghost function SearchBelow(tree: Tree, q: Query, fuel: nat): Search
    requires Answerable(tree, q)
  {
    SearchFrom(tree, q, Position(q.parent, 0, 0, {}), fuel)
  }

  /** The positions of a search that draws `n` times and accepts none of the draws. */
  ghost predicate Draws(tree: Tree, q: Query, path: seq<Position>)
    requires Answerable(tree, q)
  {
    && path != [] && path[0] == Position(q.parent, 0, 0, {})
    && (forall n | 0 <= n < |path| :: LeadsTo(tree, path[n].node, q.leaf))
    && (forall n | 0 <= n < |path| - 1 ::
          !Eligible(tree, q, DrawOf(q, path[n])) && path[n + 1] == Refuse(tree, q, path[n]))
  }

  /** How often a search has returned to the parent. */
  ghost function Returns(tree: Tree, q: Query, path: seq<Position>): nat
    requires Answerable(tree, q) && forall n | 0 <= n < |path| :: LeadsTo(tree, path[n].node, q.leaf)
  {
    if path == [] then 0
    else Returns(tree, q, path[..|path| - 1]) + (if TurnsBack(tree, q, path[|path| - 1]) then 1 else 0)
  }

  lemma {:induction false} ReturnsAreCounted(tree: Tree, q: Query, path: seq<Position>)
    requires Answerable(tree, q) && Draws(tree, q, path)
    ensures path[|path| - 1].loopbacks == Returns(tree, q, path[..|path| - 1])
  {
    hide TurnsBack, AllEliminated, Answerable, LeadsTo, Eligible;
    if |path| > 1 {
      var front := path[..|path| - 1];
      assert Draws(tree, q, front);
      ReturnsAreCounted(tree, q, front);
      assert path[|path| - 1] == Refuse(tree, q, front[|front| - 1]);
      assert !Eligible(tree, q, DrawOf(q, front[|front| - 1]));
      TurningBackIsCounted(tree, q, front[|front| - 1]);
      assert Returns(tree, q, front)
          == Returns(tree, q, front[..|front| - 1]) + (if TurnsBack(tree, q, front[|front| - 1]) then 1 else 0);
    }
  }

  lemma TurningBackIsCounted(tree: Tree, q: Query, at: Position)
    requires Answerable(tree, q) && LeadsTo(tree, at.node, q.leaf) && !Eligible(tree, q, DrawOf(q, at))
    ensures Refuse(tree, q, at).loopbacks == at.loopbacks + if TurnsBack(tree, q, at) then 1 else 0
  {
  }

  /** What the answer of a search means. A node is found when it is the first acceptable draw; the search
      escapes when it would return to the parent once more than allowed; it runs out of fuel undecided. */
  ghost predicate Answers(tree: Tree, q: Query, fuel: nat, path: seq<Position>, r: Search)
    requires Answerable(tree, q)
  {
    && Draws(tree, q, path)
    && match r
       case Found(n) =>
         |path| <= fuel && n == DrawOf(q, path[|path| - 1]) && Eligible(tree, q, n)
             && Returns(tree, q, path[..|path| - 1]) <= MAX_LOOPBACK_COUNT
       case Escaped =>
         |path| <= fuel && !Eligible(tree, q, DrawOf(q, path[|path| - 1]))
             && Returns(tree, q, path) == MAX_LOOPBACK_COUNT + 1
       case OutOfFuel =>
         |path| == fuel + 1 && Returns(tree, q, path[..fuel]) <= MAX_LOOPBACK_COUNT
  }

  lemma {:induction false} SearchGoesOn(tree: Tree, q: Query, fuel: nat, path: seq<Position>, rest: nat)
    returns (whole: seq<Position>)
    requires Answerable(tree, q) && Draws(tree, q, path) && |path| - 1 + rest == fuel
    requires path[|path| - 1].loopbacks <= MAX_LOOPBACK_COUNT
    ensures Answers(tree, q, fuel, whole, SearchFrom(tree, q, path[|path| - 1], rest))
    decreases rest
  {
    hide TurnsBack, AllEliminated, Answerable, LeadsTo, Eligible, Refuse;
    var at := path[|path| - 1];
    ReturnsAreCounted(tree, q, path);
    whole := path;
    if rest == 0 {
    } else if Eligible(tree, q, DrawOf(q, at)) {
    } else {
      TurningBackIsCounted(tree, q, at);
      if !(TurnsBack(tree, q, at) && at.loopbacks == MAX_LOOPBACK_COUNT) {
        whole := SearchGoesOn(tree, q, fuel, path + [Refuse(tree, q, at)], rest - 1);
      }
    }
  }

  lemma SearchAnswers(tree: Tree, q: Query, fuel: nat) returns (path: seq<Position>)
    requires Answerable(tree, q)
    ensures Answers(tree, q, fuel, path, SearchBelow(tree, q, fuel))
  {
    path := SearchGoesOn(tree, q, fuel, [Position(q.parent, 0, 0, {})], fuel);
  }

  /** A draw is a child; below one that is not of the wanted type the search can go on. */
  lemma DrawIsChild(tree: Tree, q: Query, at: Position)
    requires Answerable(tree, q) && LeadsTo(tree, at.node, q.leaf)
    ensures at.node < |tree| && DrawOf(q, at) in tree[at.node].children && DrawOf(q, at) < |tree|
    ensures forall c | c in tree[at.node].children :: c < |tree|
    ensures OfType(tree, DrawOf(q, at), q.leaf) ==> Finds(tree, at.node, q.leaf, DrawOf(q, at))
    ensures !OfType(tree, DrawOf(q, at), q.leaf) ==>
      && LeadsTo(tree, DrawOf(q, at), q.leaf)
      && forall t | Finds(tree, DrawOf(q, at), q.leaf, t) :: Finds(tree, at.node, q.leaf, t)
  {
  }

  /** One draw of the search, by what it hits. */
  lemma SearchSteps(tree: Tree, q: Query, at: Position, fuel: nat)
    requires Answerable(tree, q) && LeadsTo(tree, at.node, q.leaf) && fuel > 0
    ensures var c := DrawOf(q, at);
            var back := Position(q.parent, at.failures + 1, at.loopbacks + 1, {});
            var turned := if at.loopbacks == MAX_LOOPBACK_COUNT then Escaped else SearchFrom(tree, q, back, fuel - 1);
            && at.node < |tree| && c < |tree| && (forall c | c in tree[at.node].children :: c < |tree|)
            && (!OfType(tree, c, q.leaf) ==> LeadsTo(tree, c, q.leaf))
            && SearchFrom(tree, q, at, fuel)
               == if !OfType(tree, c, q.leaf) then SearchFrom(tree, q, at.(node := c), fuel - 1)
                  else if c in q.selected || c in q.excluded then
                    if AllEliminated(tree, at.node, q.selected, at.rejected + {c}) then turned
                    else SearchFrom(tree, q, at.(failures := at.failures + 1, rejected := at.rejected + {c}), fuel - 1)
                  else if Unavailable(tree, c) then turned
                  else Found(c)
  {
    DrawIsChild(tree, q, at);
    hide LeadsTo, Finds, AllEliminated, Unavailable;
  }

  /** One draw of a search, which ends it or moves it on. */
  method DrawOnce(tree: Tree, q: Query, at: Position, ghost fuel: nat)
    returns (verdict: Option<Search>, next: Position)
    requires Answerable(tree, q) && LeadsTo(tree, at.node, q.leaf) && fuel > 0
    ensures LeadsTo(tree, next.node, q.leaf)
    ensures next.node == q.parent || forall t | Finds(tree, next.node, q.leaf, t) :: Finds(tree, at.node, q.leaf, t)
    ensures SearchFrom(tree, q, at, fuel)
         == if verdict.Some? then verdict.value else SearchFrom(tree, q, next, fuel - 1)
    ensures verdict.Some? && verdict.value.Found? ==>
      Finds(tree, at.node, q.leaf, verdict.value.node) && Eligible(tree, q, verdict.value.node)
  {
    DrawIsChild(tree, q, at);
    SearchSteps(tree, q, at, fuel);
    assert LeadsTo(tree, q.parent, q.leaf);
    hide Downward, Answerable, LeadsTo, Finds, SearchFrom, Chooses, AllEliminated, Unavailable;
    verdict, next := None, at;
    var candidate := q.choose(at.node, q.input, q.rank + at.failures);
    if !OfType(tree, candidate, q.leaf) {
      next := at.(node := candidate);
      return;
    }
    next := at.(failures := at.failures + 1);
    var eliminated := Unavailable(tree, candidate);
    if candidate in q.selected || candidate in q.excluded {
      next := next.(rejected := at.rejected + {candidate});
      eliminated := AllEliminated(tree, at.node, q.selected, next.rejected);
    } else if !eliminated {
      return Some(Found(candidate)), at;
    }
    if eliminated {
      if at.loopbacks == MAX_LOOPBACK_COUNT {
        return Some(Escaped), at;
      }
      next := Position(q.parent, at.failures + 1, at.loopbacks + 1, {});
    }
  }

  /** One rank of the selection: draws until an eligible node turns up or the draws loop back too
      often. `fuel` bounds the draws. */
  method FindNode(tree: Tree, q: Query, fuel: nat) returns (r: Search)
    requires Answerable(tree, q)
    ensures r == SearchBelow(tree, q, fuel) && exists path :: Answers(tree, q, fuel, path, r)
    ensures r.Found? ==> r.node !in q.selected && Picked(tree, q.parent, q.leaf, q.excluded, r.node)
  {
    hide *;
    ghost var path := SearchAnswers(tree, q, fuel);
    SearchStarts(tree, q, fuel);
    var at := Position(q.parent, 0, 0, {});
    for step := 0 to fuel
      invariant LeadsTo(tree, at.node, q.leaf)
      invariant forall t | Finds(tree, at.node, q.leaf, t) :: Finds(tree, q.parent, q.leaf, t)
      invariant SearchBelow(tree, q, fuel) == SearchFrom(tree, q, at, fuel - step)
    {
      var verdict, next := DrawOnce(tree, q, at, fuel - step);
      if verdict.Some? {
        if verdict.value.Found? {
          EligibleIsPicked(tree, q, verdict.value.node);
        }
        return verdict.value;
      }
      at := next;
    }
    NoFuel(tree, q, at);
    r := OutOfFuel;
  }

  lemma SearchStarts(tree: Tree, q: Query, fuel: nat)
    requires Answerable(tree, q)
    ensures Downward(tree) && LeadsTo(tree, q.parent, q.leaf)
    ensures SearchBelow(tree, q, fuel) == SearchFrom(tree, q, Position(q.parent, 0, 0, {}), fuel)
  {
  }

  lemma EligibleIsPicked(tree: Tree, q: Query, n: nat)
    requires Downward(tree) && Eligible(tree, q, n) && Finds(tree, q.parent, q.leaf, n)
    ensures n !in q.selected && Picked(tree, q.parent, q.leaf, q.excluded, n)
  {
  }

  lemma NoFuel(tree: Tree, q: Query, at: Position)
    requires Answerable(tree, q) && LeadsTo(tree, at.node, q.leaf)
    ensures SearchFrom(tree, q, at, 0) == OutOfFuel
  {
  }

  /** What a selection of nodes may contain. */
  ghost predicate Picked(tree: Tree, parent: nat, leaf: bool, excluded: set<nat>, n: nat)
    requires Downward(tree)
  {
    n < |tree| && Finds(tree, parent, leaf, n) && OfType(tree, n, leaf) && n !in excluded && !Unavailable(tree, n)
  }

  /** The nodes found at ranks one to `count`, in order; a rank whose search escapes adds none. */
  ghost function Ranks(tree: Tree, q: Query, count: nat, fuel: nat): Option<seq<nat>>
    requires Answerable(tree, q)
  {
    if count == 0 then Some([])
    else
      match Ranks(tree, q, count - 1, fuel)
      case None => None
      case Some(selected) =>
        match SearchBelow(tree, q.(rank := count, selected := selected), fuel)
        case Found(n) => Some(selected + [n])
        case Escaped => Some(selected)
        case OutOfFuel => None
  }

  /** The search at a rank escaped. */
  ghost predicate EscapedAt(tree: Tree, q: Query, rank: nat, fuel: nat)
    requires Answerable(tree, q)
  {
    && rank > 0 && Ranks(tree, q, rank - 1, fuel).Some?
    && SearchBelow(tree, q.(rank := rank, selected := Ranks(tree, q, rank - 1, fuel).value), fuel).Escaped?
  }

  lemma RankAdds(tree: Tree, q: Query, count: nat, fuel: nat)
    requires Answerable(tree, q) && count > 0 && Ranks(tree, q, count, fuel).Some?
    ensures Ranks(tree, q, count - 1, fuel).Some?
    ensures |Ranks(tree, q, count, fuel).value|
         == |Ranks(tree, q, count - 1, fuel).value| + if EscapedAt(tree, q, count, fuel) then 0 else 1
  {
    hide Answerable, SearchBelow;
  }

  /** The ranks up to `count` whose searches escaped. */
  ghost function Escapes(tree: Tree, q: Query, count: nat, fuel: nat): set<nat>
    requires Answerable(tree, q)
  {
    set rank: nat | rank <= count && EscapedAt(tree, q, rank, fuel)
  }

  lemma EscapesAdd(tree: Tree, q: Query, count: nat, fuel: nat)
    requires Answerable(tree, q) && count > 0
    ensures |Escapes(tree, q, count, fuel)|
         == |Escapes(tree, q, count - 1, fuel)| + if EscapedAt(tree, q, count, fuel) then 1 else 0
  {
    hide Answerable, EscapedAt;
    assert Escapes(tree, q, count, fuel)
        == Escapes(tree, q, count - 1, fuel) + if EscapedAt(tree, q, count, fuel) then {count} else {};
  }

  lemma NoEscapes(tree: Tree, q: Query, fuel: nat)
    requires Answerable(tree, q)
    ensures Ranks(tree, q, 0, fuel) == Some([]) && Escapes(tree, q, 0, fuel) == {}
  {
    hide Answerable, SearchBelow;
  }

  /** A selection is short exactly by the ranks whose searches escaped. */
  lemma {:induction false} ShortByEscapes(tree: Tree, q: Query, count: nat, fuel: nat)
    requires Answerable(tree, q) && Ranks(tree, q, count, fuel).Some?
    ensures |Ranks(tree, q, count, fuel).value| + |Escapes(tree, q, count, fuel)| == count
  {
    hide Answerable, Ranks, EscapedAt, Escapes;
    if count == 0 {
      NoEscapes(tree, q, fuel);
    } else {
      RankAdds(tree, q, count, fuel);
      EscapesAdd(tree, q, count, fuel);
      ShortByEscapes(tree, q, count - 1, fuel);
    }
  }

  /** The selection of a query; nothing for one that cannot be answered. */
  ghost function Choices(tree: Tree, q: Query, count: nat, fuel: nat): Option<seq<nat>> {
    if Answerable(tree, q) then Ranks(tree, q, count, fuel) else None
  }

  /** `select_nodes_of_type`: nothing if the draws ran out of fuel. */
  method SelectNodesOfType(tree: Tree, q: Query, count: nat, fuel: nat)
    returns (r: Option<seq<nat>>)
    requires Answerable(tree, q)
    ensures r == Ranks(tree, q, count, fuel) == Choices(tree, q, count, fuel)
    ensures r.Some? ==>
              && |r.value| <= count && Distinct(r.value)
              && forall n | n in r.value :: Picked(tree, q.parent, q.leaf, q.excluded, n)
  {
    var selected := [];
    hide SearchBelow, Answers, Picked;
    for k := 0 to count
      invariant |selected| <= k && Distinct(selected)
                && forall n | n in selected :: Picked(tree, q.parent, q.leaf, q.excluded, n)
      invariant Ranks(tree, q, k, fuel) == Some(selected)
    {
      var search := FindNode(tree, q.(rank := k + 1, selected := selected), fuel);
      match search {
        case OutOfFuel =>
          OutOfFuelStays(tree, q, k + 1, count, fuel);
          return None;
        case Escaped =>
        case Found(node) => selected := selected + [node];
      }
    }
    r := Some(selected);
  }

  lemma {:induction false} OutOfFuelStays(tree: Tree, q: Query, k: nat, count: nat, fuel: nat)
    requires Answerable(tree, q) && k <= count && Ranks(tree, q, k, fuel) == None
    ensures Ranks(tree, q, count, fuel) == None
  {
    if k < count {
      hide Answerable, SearchBelow;
      OutOfFuelStays(tree, q, k, count - 1, fuel);
    }
  }

  /** If the draws of ranks one to `count` are distinct nodes that may be taken, exactly they are taken. */
  lemma {:induction false} FirstDrawsAreTaken(tree: Tree, q: Query, fuel: nat, draws: seq<nat>)
    requires Answerable(tree, q) && fuel > 0 && Distinct(draws)
    requires forall k | 0 <= k < |draws| ::
               && draws[k] == q.choose(q.parent, q.input, k + 1)
               && Eligible(tree, q.(selected := []), draws[k])
    ensures Ranks(tree, q, |draws|, fuel) == Some(draws)
    decreases |draws|
  {
    if draws != [] {
      hide LeadsTo, Chooses, Unavailable;
      var rank := |draws|;
      var front, last := draws[..rank - 1], draws[rank - 1];
      FirstDrawsAreTaken(tree, q, fuel, front);
      var next := q.(rank := rank, selected := front);
      assert last !in front && Eligible(tree, q.(selected := []), last);
      assert Eligible(tree, next, last) && DrawOf(next, Position(q.parent, 0, 0, {})) == last;
      assert draws == front + [last];
    }
  }

  /** Distinct live leaves, no two of one zone in a zoned topology. */
  ghost predicate Spread(tree: Tree, topology: Topology, nodes: seq<nat>) {
    && Distinct(nodes) && (forall n | n in nodes :: LiveLeaf(tree, n))
    && (topology.Zoned? ==> forall i, j | 0 <= i < j < |nodes| :: HomeOf(tree, nodes[i]) != HomeOf(tree, nodes[j]))
  }

  function HomeOf(tree: Tree, n: nat): ZoneId {
    if n < |tree| && tree[n].kind.Leaf? then tree[n].kind.home else 0
  }

  ghost predicate IsZone(tree: Tree, z: nat, name: ZoneId) {
    z < |tree| && tree[z].kind == Zone(name)
  }

  /** Every selected leaf lives in one of the zones used. */
  ghost predicate FromZones(tree: Tree, nodes: seq<nat>, zones: set<nat>) {
    forall n | n in nodes :: exists z | z in zones :: IsZone(tree, z, HomeOf(tree, n))
  }

  lemma LeafBelowZone(tree: Tree, topology: Topology, zone: nat, name: ZoneId, n: nat)
    requires Shaped(tree, topology, 0) && IsZone(tree, zone, name) && Picked(tree, zone, true, {}, n)
    ensures LiveLeaf(tree, n) && HomeOf(tree, n) == name
  {
    assert zone != 0;
    assert ChildrenFit(tree, zone, 0) && ChildrenFit(tree, n, 0);
  }

  lemma LeafBelowRoot(tree: Tree, topology: Topology, excluded: set<nat>, n: nat)
    requires Shaped(tree, topology, 0) && Picked(tree, 0, true, excluded, n)
    ensures LiveLeaf(tree, n)
  {
    assert n != 0;
    assert ChildrenFit(tree, n, 0);
  }

  lemma ZoneLeads(tree: Tree, topology: Topology, zone: nat, name: ZoneId)
    requires Shaped(tree, topology, 0) && IsZone(tree, zone, name)
    ensures LeadsTo(tree, zone, true)
  {
    assert zone != 0;
    assert ChildrenFit(tree, zone, 0);
  }

  /** A leaf from a zone not used before keeps the selection spread out. */
  lemma SpreadGrows(tree: Tree, topology: Topology, nodes: seq<nat>, zones: set<nat>, zone: nat, name: ZoneId, n: nat)
    requires Shaped(tree, topology, 0) && topology.Zoned? && Spread(tree, topology, nodes)
             && FromZones(tree, nodes, zones)
    requires zone !in zones && IsZone(tree, zone, name) && LiveLeaf(tree, n) && HomeOf(tree, n) == name
    ensures Spread(tree, topology, nodes + [n]) && FromZones(tree, nodes + [n], zones + {zone})
  {
    forall m | m in nodes
      ensures HomeOf(tree, m) != name && m != n
    {
      var z :| z in zones && IsZone(tree, z, HomeOf(tree, m));
      assert z != zone && z != 0 && zone != 0;
      assert tree[z].kind != tree[zone].kind;
    }
    forall m | m in nodes + [n]
      ensures exists z | z in zones + {zone} :: IsZone(tree, z, HomeOf(tree, m))
    {
      if m in nodes {
        var z :| z in zones && IsZone(tree, z, HomeOf(tree, m));
        assert z in zones + {zone};
      } else {
        assert IsZone(tree, zone, HomeOf(tree, m));
      }
    }
  }

  lemma FromMoreZones(tree: Tree, nodes: seq<nat>, zones: set<nat>, zone: nat)
    requires FromZones(tree, nodes, zones)
    ensures FromZones(tree, nodes, zones + {zone})
  {
    forall n | n in nodes
      ensures exists z | z in zones + {zone} :: IsZone(tree, z, HomeOf(tree, n))
    {
      var z :| z in zones && IsZone(tree, z, HomeOf(tree, n));
      assert z in zones + {zone};
    }
  }

  // The selection as a function of the draws.

  /** The tree with all that the draws depend on. */
  datatype Scheme = Scheme(tree: Tree, topology: Topology, choose: Chooser, rehash: int -> int, fuel: nat) {
    /** A finished tree with something below its root, and draws from it. */
    ghost predicate Valid() {
      Shaped(tree, topology, 0) && tree[0].children != [] && Chooses(tree, choose)
    }

    function Below(parent: nat, input: int, leaf: bool, excluded: set<nat>): Query {
      Query(choose, parent, input, 0, leaf, [], excluded)
    }

    /** One leaf of each zone, where the draw finds one. */
    ghost function Leaves(input: int, zones: seq<nat>): Option<seq<nat>> {
      if zones == [] then Some([])
      else
        var front := Leaves(input, zones[..|zones| - 1]);
        var last := Choices(tree, Below(zones[|zones| - 1], input, true, {}), 1, fuel);
        if front.None? || last.None? then None else Some(front.value + last.value)
    }

    /** One attempt to select `count` more leaves, from distinct new zones in a zoned topology. */
    ghost function Attempt(input: int, count: nat, done: Chosen): Option<Chosen> {
      match topology
      case Flat =>
        var more := Choices(tree, Below(0, input, true, Elements(done.nodes)), count, fuel);
        if more.None? then None else Some(done.(nodes := done.nodes + more.value))
      case Zoned =>
        var zones := Choices(tree, Below(0, input, false, done.zones), count, fuel);
        if zones.None? then None
        else
          var leaves := Leaves(input, zones.value);
          if leaves.None? then None else Some(Chosen(done.nodes + leaves.value, done.zones + Elements(zones.value)))
    }

    function Rehashed(data: int, n: nat): int {
      if n == 0 then data else rehash(Rehashed(data, n - 1))
    }

    /** What is selected after up to `n` attempts; no attempt is made once enough is selected. */
    ghost function Attempts(data: int, replicas: nat, n: nat): Option<Chosen> {
      if n == 0 then Some(Chosen([], {}))
      else
        var before := Attempts(data, replicas, n - 1);
        if before.None? || |before.value.nodes| >= replicas then before
        else Attempt(Rehashed(data, n - 1), replicas - |before.value.nodes|, before.value)
    }

    ghost function Selection(data: int, replicas: nat): Option<seq<nat>> {
      var all := Attempts(data, replicas, MAX_RETRY);
      if all.None? then None else Some(all.value.nodes)
    }
  }

  /** The nodes selected so far, and the zones they were looked for in. */
  datatype Chosen = Chosen(nodes: seq<nat>, zones: set<nat>)

  lemma AttemptsNext(c: Scheme, data: int, replicas: nat, n: nat)
    ensures var before := c.Attempts(data, replicas, n);
            c.Attempts(data, replicas, n + 1)
            == if before.None? || |before.value.nodes| >= replicas then before
               else c.Attempt(c.Rehashed(data, n), replicas - |before.value.nodes|, before.value)
  {
    hide Scheme.Attempt, Scheme.Rehashed;
  }

  lemma {:induction false} AttemptsEnd(c: Scheme, data: int, replicas: nat, k: nat, n: nat)
    requires k <= n
    requires c.Attempts(data, replicas, k).None? || |c.Attempts(data, replicas, k).value.nodes| >= replicas
    ensures c.Attempts(data, replicas, n) == c.Attempts(data, replicas, k)
  {
    hide Scheme.Attempts, Scheme.Attempt;
    if k < n {
      AttemptsEnd(c, data, replicas, k, n - 1);
      AttemptsNext(c, data, replicas, n - 1);
    }
  }

  /** A selection is short only when every one of the attempts was made, each from a new hash. */
  lemma ShortAfterAllAttempts(c: Scheme, data: int, replicas: nat, n: nat)
    requires n < MAX_RETRY && c.Selection(data, replicas).Some? && |c.Selection(data, replicas).value| < replicas
    ensures var before := c.Attempts(data, replicas, n);
            && before.Some? && |before.value.nodes| < replicas
            && c.Attempts(data, replicas, n + 1)
               == c.Attempt(c.Rehashed(data, n), replicas - |before.value.nodes|, before.value)
  {
    hide Scheme.Attempts, Scheme.Attempt, Scheme.Rehashed;
    var before := c.Attempts(data, replicas, n);
    if before.None? || |before.value.nodes| >= replicas {
      AttemptsEnd(c, data, replicas, n, MAX_RETRY);
    }
    AttemptsNext(c, data, replicas, n);
  }

  lemma RootAnswers(c: Scheme, input: int, excluded: set<nat>)
    requires c.Valid()
    ensures Answerable(c.tree, c.Below(0, input, c.topology.Flat?, excluded))
  {
  }

  lemma ZoneAnswers(c: Scheme, input: int, zone: nat, name: ZoneId)
    requires c.Valid() && IsZone(c.tree, zone, name)
    ensures Answerable(c.tree, c.Below(zone, input, true, {}))
  {
    ZoneLeads(c.tree, c.topology, zone, name);
  }

  // When the first draws suffice.

  /** A node of a built tree is unavailable exactly when no live leaf is below it. */
  lemma UnavailableIffDead(c: Scheme, n: nat)
    requires c.Valid() && AllWeighed(c.tree) && n < |c.tree|
    ensures Unavailable(c.tree, n) <==> LiveUnder(c.tree, n) == {}
  {
    assert Weighed(c.tree, n);
    if LiveUnder(c.tree, n) != {} {
      var leaf :| leaf in LiveUnder(c.tree, n);
      assert |LiveUnder(c.tree, n)| > 0;
      assert c.tree[n].children == [] ==> leaf == n;
    }
  }

  lemma LiveIsAvailable(tree: Tree, n: nat, leaf: nat)
    requires Downward(tree) && AllWeighed(tree) && n < |tree| && LiveLeaf(tree, leaf)
    requires leaf == n || leaf in tree[n].children
    ensures !Unavailable(tree, n)
  {
    assert leaf in LiveUnder(tree, n);
    assert Weighed(tree, n) && |LiveUnder(tree, n)| > 0;
  }

  lemma LeafIsEligible(c: Scheme, parent: nat, input: int, n: nat)
    requires c.Valid() && AllWeighed(c.tree) && LiveLeaf(c.tree, n)
    ensures Eligible(c.tree, c.Below(parent, input, true, {}), n)
  {
    LiveIsAvailable(c.tree, n, n);
  }

  lemma ZoneIsEligible(c: Scheme, data: int, rank: nat)
    requires c.Valid() && c.topology.Zoned? && AllWeighed(c.tree)
             && LiveLeaf(c.tree, c.choose(c.choose(0, data, rank), data, 1))
    ensures IsZone(c.tree, c.choose(0, data, rank), c.tree[c.choose(0, data, rank)].kind.name)
    ensures Eligible(c.tree, c.Below(0, data, false, {}), c.choose(0, data, rank))
  {
    var zone := c.choose(0, data, rank);
    assert zone in c.tree[0].children && ChildrenFit(c.tree, zone, 0);
    LiveIsAvailable(c.tree, zone, c.choose(zone, data, 1));
  }

  lemma FirstAttempt(c: Scheme, data: int, replicas: nat)
    ensures c.Attempts(data, replicas, 1)
         == if replicas == 0 then Some(Chosen([], {})) else c.Attempt(data, replicas, Chosen([], {}))
  {
    hide Scheme.Attempt;
    assert c.Attempts(data, replicas, 0) == Some(Chosen([], {})) && c.Rehashed(data, 0) == data;
  }

  lemma FirstAttemptSuffices(c: Scheme, data: int, nodes: seq<nat>, zones: set<nat>)
    requires c.Attempt(data, |nodes|, Chosen([], {})) == Some(Chosen(nodes, zones))
    ensures c.Selection(data, |nodes|) == Some(nodes)
  {
    hide Scheme.Attempt, Scheme.Attempts;
    FirstAttempt(c, data, |nodes|);
    AttemptsEnd(c, data, |nodes|, 1, MAX_RETRY);
  }

  /** In a flat topology, distinct live leaves at the draws of ranks one to `replicas` are the selection. */
  lemma FlatFirstDraws(c: Scheme, data: int, draws: seq<nat>)
    requires c.Valid() && c.topology.Flat? && AllWeighed(c.tree) && c.fuel > 0 && Distinct(draws)
    requires forall k | 0 <= k < |draws| :: draws[k] == c.choose(0, data, k + 1) && LiveLeaf(c.tree, draws[k])
    ensures c.Selection(data, |draws|) == Some(draws)
  {
    hide Scheme.Valid, AllWeighed, LiveLeaf, Eligible, Answerable, Ranks, Scheme.Selection;
    var q := c.Below(0, data, true, {});
    RootAnswers(c, data, {});
    forall k | 0 <= k < |draws|
      ensures Eligible(c.tree, q, draws[k])
    {
      LeafIsEligible(c, 0, data, draws[k]);
    }
    FirstDrawsAreTaken(c.tree, q, c.fuel, draws);
    assert Elements([]) == {} && [] + draws == draws;
    FirstAttemptSuffices(c, data, draws, {});
  }

  lemma LeavesNext(c: Scheme, input: int, zones: seq<nat>, k: nat)
    requires k < |zones|
    ensures var front := c.Leaves(input, zones[..k]);
            var last := Choices(c.tree, c.Below(zones[k], input, true, {}), 1, c.fuel);
            c.Leaves(input, zones[..k + 1])
            == if front.None? || last.None? then None else Some(front.value + last.value)
  {
    hide Choices;
    assert zones[..k + 1][..k] == zones[..k];
  }

  lemma FirstLeaf(c: Scheme, data: int, zone: nat, name: ZoneId)
    requires c.Valid() && AllWeighed(c.tree) && c.fuel > 0 && IsZone(c.tree, zone, name)
    requires LiveLeaf(c.tree, c.choose(zone, data, 1))
    ensures Choices(c.tree, c.Below(zone, data, true, {}), 1, c.fuel) == Some([c.choose(zone, data, 1)])
  {
    hide Scheme.Valid, AllWeighed, LiveLeaf, Eligible, Answerable, Ranks;
    ZoneAnswers(c, data, zone, name);
    LeafIsEligible(c, zone, data, c.choose(zone, data, 1));
    FirstDrawsAreTaken(c.tree, c.Below(zone, data, true, {}), c.fuel, [c.choose(zone, data, 1)]);
  }

  ghost predicate FirstLeavesLive(c: Scheme, data: int, zones: seq<nat>, leaves: seq<nat>) {
    && |leaves| == |zones|
    && forall k | 0 <= k < |zones| :: leaves[k] == c.choose(zones[k], data, 1) && LiveLeaf(c.tree, leaves[k])
  }

  lemma {:induction false} FirstLeaves(c: Scheme, data: int, zones: seq<nat>, leaves: seq<nat>, k: nat)
    requires c.Valid() && AllWeighed(c.tree) && c.fuel > 0 && FirstLeavesLive(c, data, zones, leaves) && k <= |zones|
    requires forall z | z in zones :: z < |c.tree| && c.tree[z].kind.Zone?
    ensures c.Leaves(data, zones[..k]) == Some(leaves[..k])
  {
    hide Scheme.Valid, AllWeighed, LiveLeaf, Choices, Scheme.Leaves;
    if k == 0 {
      LeavesOfNone(c, data);
    } else {
      FirstLeaves(c, data, zones, leaves, k - 1);
      LeavesNext(c, data, zones, k - 1);
      assert zones[k - 1] in zones;
      FirstLeaf(c, data, zones[k - 1], c.tree[zones[k - 1]].kind.name);
      assert leaves[..k] == leaves[..k - 1] + [leaves[k - 1]];
    }
  }

  /** In a zoned one, distinct zones at those draws whose own first draw is a live leaf give those leaves. */
  lemma ZonedFirstDraws(c: Scheme, data: int, zones: seq<nat>, leaves: seq<nat>)
    requires c.Valid() && c.topology.Zoned? && AllWeighed(c.tree) && c.fuel > 0 && Distinct(zones)
    requires FirstLeavesLive(c, data, zones, leaves)
    requires forall k | 0 <= k < |zones| :: zones[k] == c.choose(0, data, k + 1)
    ensures c.Selection(data, |zones|) == Some(leaves)
  {
    hide Scheme.Valid, AllWeighed, LiveLeaf, Eligible, Answerable, Ranks, Scheme.Leaves, Scheme.Selection;
    var q := c.Below(0, data, false, {});
    RootAnswers(c, data, {});
    forall k | 0 <= k < |zones|
      ensures Eligible(c.tree, q, zones[k]) && zones[k] < |c.tree| && c.tree[zones[k]].kind.Zone?
    {
      assert zones[k] == c.choose(0, data, k + 1) && leaves[k] == c.choose(zones[k], data, 1);
      ZoneIsEligible(c, data, k + 1);
    }
    FirstDrawsAreTaken(c.tree, q, c.fuel, zones);
    FirstLeaves(c, data, zones, leaves, |zones|);
    assert zones[..|zones|] == zones && leaves[..|zones|] == leaves && [] + leaves == leaves;
    FirstAttemptSuffices(c, data, leaves, {} + Elements(zones));
  }

  // The methods.

  lemma {:induction false} NoLeaves(c: Scheme, input: int, zones: seq<nat>, k: nat)
    requires k <= |zones| && c.Leaves(input, zones[..k]) == None
    ensures c.Leaves(input, zones) == None
    decreases |zones| - k
  {
    hide Choices, Scheme.Leaves;
    if k < |zones| {
      LeavesNext(c, input, zones, k);
      NoLeaves(c, input, zones, k + 1);
    } else {
      assert zones[..k] == zones;
    }
  }

  /** Spread out over the zones used. */
  ghost predicate SpreadOver(c: Scheme, nodes: seq<nat>, zones: set<nat>) {
    Spread(c.tree, c.topology, nodes) && (c.topology.Zoned? ==> FromZones(c.tree, nodes, zones))
  }

  lemma LeafFromZone(c: Scheme, nodes: seq<nat>, used: set<nat>, zone: nat, name: ZoneId, ends: seq<nat>)
    requires c.Valid() && c.topology.Zoned? && SpreadOver(c, nodes, used) && zone !in used
             && IsZone(c.tree, zone, name)
    requires |ends| <= 1 && forall n | n in ends :: Picked(c.tree, zone, true, {}, n)
    ensures SpreadOver(c, nodes + ends, used + {zone})
  {
    hide Spread, FromZones, Shaped, Chooses, Picked;
    if ends == [] {
      assert nodes + ends == nodes;
      FromMoreZones(c.tree, nodes, used, zone);
    } else {
      var n := ends[0];
      assert ends == [n] && n in ends;
      LeafBelowZone(c.tree, c.topology, zone, name, n);
      SpreadGrows(c.tree, c.topology, nodes, used, zone, name, n);
    }
  }

  /** One leaf of each newly chosen zone, where the draw finds one. */
  method AddFromZones(c: Scheme, input: int, zones: seq<nat>, done: Chosen)
    returns (r: Option<Chosen>)
    requires c.Valid() && c.topology.Zoned? && SpreadOver(c, done.nodes, done.zones) && Distinct(zones)
    requires forall z | z in zones :: z !in done.zones && z < |c.tree| && c.tree[z].kind.Zone?
    ensures var leaves := c.Leaves(input, zones);
            r == if leaves.None? then None else Some(Chosen(done.nodes + leaves.value, done.zones + Elements(zones)))
    ensures r.Some? ==> |r.value.nodes| <= |done.nodes| + |zones| && SpreadOver(c, r.value.nodes, r.value.zones)
  {
    var leaves, seen := [], done.zones;
    assert Downward(c.tree) && done.nodes + [] == done.nodes;
    hide *;
    LeavesOfNone(c, input);
    for k := 0 to |zones|
      invariant |leaves| <= k && SpreadOver(c, done.nodes + leaves, seen)
      invariant seen == done.zones + set j | 0 <= j < k :: zones[j]
      invariant c.Leaves(input, zones[..k]) == Some(leaves)
    {
      var zone := zones[k];
      assert zone in zones;
      ghost var name := c.tree[zone].kind.name;
      NewZone(zones, k, done.zones, seen);
      LeavesNext(c, input, zones, k);
      ZoneIs(c, zone);
      ZoneAnswers(c, input, zone, name);
      var ends := SelectNodesOfType(c.tree, Query(c.choose, zone, input, 0, true, [], {}), 1, c.fuel);
      BelowIs(c, zone, input);
      if ends.None? {
        NoLeaves(c, input, zones, k + 1);
        return None;
      }
      LeafFromZone(c, done.nodes + leaves, seen, zone, name, ends.value);
      assert done.nodes + leaves + ends.value == done.nodes + (leaves + ends.value);
      leaves, seen := leaves + ends.value, seen + {zone};
    }
    SeenAll(zones, done.zones, seen);
    assert zones[..|zones|] == zones;
    r := Some(Chosen(done.nodes + leaves, seen));
  }

  lemma LeavesOfNone(c: Scheme, input: int)
    ensures c.Leaves(input, []) == Some([])
  {
  }

  lemma NewZone(zones: seq<nat>, k: nat, used: set<nat>, seen: set<nat>)
    requires k < |zones| && Distinct(zones) && zones[k] !in used && seen == used + set j | 0 <= j < k :: zones[j]
    ensures zones[k] in zones && zones[k] !in seen
    ensures seen + {zones[k]} == used + set j | 0 <= j < k + 1 :: zones[j]
  {
  }

  lemma SeenAll(zones: seq<nat>, used: set<nat>, seen: set<nat>)
    requires seen == used + set j | 0 <= j < |zones| :: zones[j]
    ensures seen == used + Elements(zones)
  {
  }

  lemma ZoneIs(c: Scheme, zone: nat)
    requires zone < |c.tree| && c.tree[zone].kind.Zone?
    ensures IsZone(c.tree, zone, c.tree[zone].kind.name)
  {
  }

  lemma BelowIs(c: Scheme, zone: nat, input: int)
    ensures c.Below(zone, input, true, {}) == Query(c.choose, zone, input, 0, true, [], {})
  {
  }

  lemma FlatGrows(tree: Tree, nodes: seq<nat>, more: seq<nat>)
    requires Shaped(tree, Flat, 0) && Spread(tree, Flat, nodes) && Distinct(more)
    requires forall n | n in more :: Picked(tree, 0, true, Elements(nodes), n)
    ensures Spread(tree, Flat, nodes + more)
  {
    forall n | n in more
      ensures LiveLeaf(tree, n) && n !in nodes
    {
      LeafBelowRoot(tree, Flat, Elements(nodes), n);
    }
    var all := nodes + more;
    forall i, j | 0 <= i < j < |all|
      ensures all[i] != all[j]
    {
      if i < |nodes| <= j {
        assert all[i] in nodes && all[j] in more;
      }
    }
  }

  /** `add_replicas_for_attempt`. */
  method AddReplicas(c: Scheme, input: int, count: nat, done: Chosen)
    returns (r: Option<Chosen>)
    requires c.Valid() && SpreadOver(c, done.nodes, done.zones)
    ensures r == c.Attempt(input, count, done)
    ensures r.Some? ==> |r.value.nodes| <= |done.nodes| + count && SpreadOver(c, r.value.nodes, r.value.zones)
  {
    RootAnswers(c, input, if c.topology.Flat? then Elements(done.nodes) else done.zones);
    hide Scheme.Valid, Spread, FromZones, Scheme.Leaves, Ranks, Choices, Answerable;
    if c.topology.Zoned? {
      var zones := SelectNodesOfType(c.tree, c.Below(0, input, false, done.zones), count, c.fuel);
      if zones.None? {
        return None;
      }
      r := AddFromZones(c, input, zones.value, done);
    } else {
      var more := SelectNodesOfType(c.tree, c.Below(0, input, true, Elements(done.nodes)), count, c.fuel);
      if more.None? {
        return None;
      }
      assert Shaped(c.tree, Flat, 0) by {
        ValidIsShaped(c);
      }
      FlatGrows(c.tree, done.nodes, more.value);
      r := Some(done.(nodes := done.nodes + more.value));
    }
  }

  lemma ValidIsShaped(c: Scheme)
    requires c.Valid()
    ensures Shaped(c.tree, c.topology, 0)
  {
  }

  /** A selection that ended is at most as long as asked for, and spread out. */
  ghost predicate SpreadSelection(c: Scheme, replicas: nat, r: Option<seq<nat>>) {
    match r
    case None => true
    case Some(nodes) => |nodes| <= replicas && Spread(c.tree, c.topology, nodes)
  }

  lemma NothingChosen(c: Scheme, data: int, replicas: nat)
    ensures c.Attempts(data, replicas, 0) == Some(Chosen([], {})) && SpreadOver(c, [], {})
  {
  }

  /** `select_replicas`: attempts until enough leaves are found or the retries run out. */
  method SelectReplicas(c: Scheme, data: int, replicas: nat)
    returns (r: Option<seq<nat>>)
    requires c.Valid()
    ensures r == c.Selection(data, replicas) && SpreadSelection(c, replicas, r)
  {
    hide Scheme.Valid, Scheme.Attempts, Scheme.Attempt, Spread, FromZones;
    var done, input, count, tries := Chosen([], {}), data, replicas, 0;
    ghost var made := 0;
    NothingChosen(c, data, replicas);
    while |done.nodes| < replicas && tries < MAX_RETRY
      invariant |done.nodes| <= replicas && count == replicas - |done.nodes| && SpreadOver(c, done.nodes, done.zones)
      invariant made <= MAX_RETRY && c.Attempts(data, replicas, made) == Some(done)
      invariant |done.nodes| < replicas ==> made == tries && input == c.Rehashed(data, tries)
      decreases |done.nodes| < replicas, MAX_RETRY - tries
    {
      AttemptsNext(c, data, replicas, made);
      var attempt := AddReplicas(c, input, count, done);
      made := made + 1;
      if attempt.None? {
        AttemptsEnd(c, data, replicas, made, MAX_RETRY);
        return None;
      }
      done := attempt.value;
      count := replicas - |done.nodes|;
      if count > 0 {
        input := c.rehash(input);
        tries := tries + 1;
      }
    }
    if |done.nodes| == replicas {
      AttemptsEnd(c, data, replicas, made, MAX_RETRY);
    }
    r := Some(done.nodes);
  }

  // The assignment.

  ghost predicate Acceptable(partitions: seq<PartitionId>, instances: seq<CrushInstance>, live: set<InstanceId>) {
    && partitions != [] && instances != [] && Distinct(partitions)
    && (forall i, j | 0 <= i < j < |instances| :: instances[i].instance != instances[j].instance)
    && (forall i | i in live :: exists e | e in instances :: e.instance == i)
  }

  /** A preference list of distinct live instances, one per fault zone in a zoned topology. */
  ghost predicate GoodList(instances: seq<CrushInstance>, live: set<InstanceId>, topology: Topology, replicas: nat,
                           list: seq<InstanceId>) {
    && |list| <= replicas && Distinct(list) && (forall i | i in list :: i in live)
    && (topology.Zoned?
        ==> forall a, b, e, f | 0 <= a < b < |list| && e in instances && f in instances && e.instance == list[a]
            && f.instance == list[b] ::
          e.zone != f.zone)
  }

  /** What each error reports; nothing justifies the non-instance error. */
  ghost predicate Blames(error: CrushError, partitions: seq<PartitionId>, instances: seq<CrushInstance>,
                         live: set<InstanceId>) {
    match error
    case NoPartitions => partitions == []
    case NoInstances => instances == []
    case DuplicatePartition(p) => exists j, k :: 0 <= j < k < |partitions| && partitions[j] == partitions[k] == p
    case DuplicateInstance(i) =>
      exists j, k :: 0 <= j < k < |instances| && instances[j].instance == instances[k].instance == i
    case LiveInstanceUnknown(i) => i in live && forall e | e in instances :: e.instance != i
    case SelectedNonInstance => false
  }

  method CheckInputs(partitions: seq<PartitionId>, instances: seq<CrushInstance>, live: set<InstanceId>)
    returns (error: Option<CrushError>)
    ensures error.None? <==> Acceptable(partitions, instances, live)
    ensures error.Some? ==> Blames(error.value, partitions, instances, live)
  {
    if partitions == [] {
      return Some(NoPartitions);
    }
    if instances == [] {
      return Some(NoInstances);
    }
    var names: set<PartitionId> := {};
    for k := 0 to |partitions|
      invariant names == set j | 0 <= j < k :: partitions[j]
      invariant forall i, j | 0 <= i < j < k :: partitions[i] != partitions[j]
    {
      if partitions[k] in names {
        var j :| 0 <= j < k && partitions[j] == partitions[k];
        return Some(DuplicatePartition(partitions[k]));
      }
      names := names + {partitions[k]};
    }
    var known: set<InstanceId> := {};
    for k := 0 to |instances|
      invariant known == set j | 0 <= j < k :: instances[j].instance
      invariant forall i, j | 0 <= i < j < k :: instances[i].instance != instances[j].instance
    {
      if instances[k].instance in known {
        var j :| 0 <= j < k && instances[j].instance == instances[k].instance;
        return Some(DuplicateInstance(instances[k].instance));
      }
      known := known + {instances[k].instance};
    }
    var order := SortedKeys(live);
    for k := 0 to |order|
      invariant forall j | 0 <= j < k :: order[j] in known
    {
      if order[k] !in known {
        assert order[k] in live && forall e | e in instances :: e.instance != order[k];
        return Some(LiveInstanceUnknown(order[k]));
      }
    }
    error := None;
  }

  /** The preference list of selected nodes: an error if one of them is not an instance. */
  function InstancesAt(tree: Tree, nodes: seq<nat>): Result<seq<InstanceId>, CrushError>
    requires forall n | n in nodes :: n < |tree|
  {
    if nodes == [] then Ok([])
    else
      var rest := nodes[..|nodes| - 1];
      assert forall n | n in rest :: n in nodes;
      var front := InstancesAt(tree, rest);
      assert nodes[|nodes| - 1] in nodes;
      if front.Err? then front
      else match tree[nodes[|nodes| - 1]].kind
        case Leaf(i, _) => Ok(front.value + [i])
        case _ => Err(SelectedNonInstance)
  }

  /** Enters one partition's list, passing on an earlier error or its own. */
  function Entered(assignment: Result<map<PartitionId, seq<InstanceId>>, CrushError>, p: PartitionId,
                   list: Result<seq<InstanceId>, CrushError>): Result<map<PartitionId, seq<InstanceId>>, CrushError>
  {
    if assignment.Err? then assignment
    else if list.Err? then Err(list.error)
    else Ok(assignment.value[p := list.value])
  }

  /** Selected leaves are listed without an error. */
  lemma {:induction false} LeavesAreListed(tree: Tree, nodes: seq<nat>)
    requires forall n | n in nodes :: n < |tree| && tree[n].kind.Leaf?
    ensures InstancesAt(tree, nodes).Ok? && |InstancesAt(tree, nodes).value| == |nodes|
    ensures forall k | 0 <= k < |nodes| ::
              && nodes[k] < |tree|
              && tree[nodes[k]].kind == Leaf(InstancesAt(tree, nodes).value[k], HomeOf(tree, nodes[k]))
  {
    if nodes != [] {
      var front := nodes[..|nodes| - 1];
      assert forall n | n in front :: n in nodes;
      LeavesAreListed(tree, front);
      assert nodes[|nodes| - 1] in nodes;
    }
  }

  lemma SpreadIsGood(tree: Tree, topology: Topology, instances: seq<CrushInstance>, live: set<InstanceId>,
                     replicas: nat, nodes: seq<nat>)
    requires Shaped(tree, topology, 0) && Holds(tree, instances, live) && Spread(tree, topology, nodes)
             && |nodes| <= replicas
    requires forall i, j | 0 <= i < j < |instances| :: instances[i].instance != instances[j].instance
    ensures (forall n | n in nodes :: n < |tree|) && InstancesAt(tree, nodes).Ok?
    ensures GoodList(instances, live, topology, replicas, InstancesAt(tree, nodes).value)
  {
    assert forall n | n in nodes :: LiveLeaf(tree, n);
    LeavesAreListed(tree, nodes);
    var list := InstancesAt(tree, nodes).value;
    forall k | 0 <= k < |nodes|
      ensures list[k] in live
      ensures forall e | e in instances && e.instance == list[k] :: e.zone == HomeOf(tree, nodes[k])
    {
      assert nodes[k] in nodes && LiveLeaf(tree, nodes[k]) && nodes[k] != 0;
      forall e | e in instances && e.instance == list[k]
        ensures e.zone == HomeOf(tree, nodes[k])
      {
        SameInstance(instances, e, CrushInstance(tree[nodes[k]].kind.instance, tree[nodes[k]].kind.home));
      }
    }
    forall a, b | 0 <= a < b < |list|
      ensures list[a] != list[b]
    {
      DifferentLeaves(tree, topology, nodes[a], nodes[b]);
    }
  }

  lemma SameInstance(instances: seq<CrushInstance>, e: CrushInstance, f: CrushInstance)
    requires e in instances && f in instances && e.instance == f.instance
    requires forall i, j | 0 <= i < j < |instances| :: instances[i].instance != instances[j].instance
    ensures e == f
  {
    var i :| 0 <= i < |instances| && instances[i] == e;
    var j :| 0 <= j < |instances| && instances[j] == f;
    assert i == j;
  }

  lemma DifferentLeaves(tree: Tree, topology: Topology, m: nat, n: nat)
    requires Shaped(tree, topology, 0) && LiveLeaf(tree, m) && LiveLeaf(tree, n) && m != n
    ensures tree[m].kind.instance != tree[n].kind.instance
  {
  }

  /** A preference list names the instances at some leaves, in order. */
  ghost predicate Names(tree: Tree, nodes: seq<nat>, list: seq<InstanceId>) {
    && |list| == |nodes|
    && forall k | 0 <= k < |nodes| ::
         nodes[k] < |tree| && tree[nodes[k]].kind.Leaf? && tree[nodes[k]].kind.instance == list[k]
  }

  /** The list a partition gets is the selection for its hash. */
  ghost predicate ListedBy(tree: Tree, selection: Option<seq<nat>>, list: seq<InstanceId>) {
    selection.Some? && Names(tree, selection.value, list)
  }

  /** The scheme whose tree was built from the instances. */
  ghost predicate BuiltFrom(c: Scheme, instances: seq<CrushInstance>, live: set<InstanceId>) {
    c.Valid() && AllWeighed(c.tree) && Holds(c.tree, instances, live)
  }

  /** One list for each partition: the selection for its hash, and a good list. */
  ghost predicate AllListed(c: Scheme, partitions: seq<PartitionId>, replicas: nat, instances: seq<CrushInstance>,
                            live: set<InstanceId>, hash: PartitionId -> int,
                            lists: map<PartitionId, seq<InstanceId>>) {
    && (forall p :: p in lists <==> p in partitions)
    && (forall p | p in lists :: GoodList(instances, live, c.topology, replicas, lists[p]))
    && (forall p | p in lists :: ListedBy(c.tree, c.Selection(hash(p), replicas), lists[p]))
  }

  /** What an assignment is: an error with its cause for unacceptable inputs; otherwise the lists of all
      partitions, unless the draws for some partition do not end. */
  ghost predicate IsAssignment(c: Scheme, partitions: seq<PartitionId>, replicas: nat, instances: seq<CrushInstance>,
                               live: set<InstanceId>, hash: PartitionId -> int,
                               r: Option<Result<map<PartitionId, seq<InstanceId>>, CrushError>>) {
    match r
    case Some(Err(error)) =>
      && !Acceptable(partitions, instances, live)
      && Blames(error, partitions, instances, live) && error != SelectedNonInstance
    case Some(Ok(lists)) =>
      && Acceptable(partitions, instances, live) && BuiltFrom(c, instances, live)
      && AllListed(c, partitions, replicas, instances, live, hash, lists)
    case None =>
      && Acceptable(partitions, instances, live) && BuiltFrom(c, instances, live)
      && exists p | p in partitions :: c.Selection(hash(p), replicas).None?
  }

  /** `compute_crush_assignment`: whenever the draws end, every preference list is good and is the selection
      for its partition from the tree of the instances, and the non-instance error cannot occur. */
  method ComputeAssignment(partitions: seq<PartitionId>, replicas: nat, instances: seq<CrushInstance>,
                           live: set<InstanceId>, topology: Topology,
                           draw: Tree -> Chooser, rehash: int -> int, hash: PartitionId -> int, fuel: nat)
    returns (r: Option<Result<map<PartitionId, seq<InstanceId>>, CrushError>>, ghost tree: Tree)
    requires forall tree :: Chooses(tree, draw(tree))
    ensures IsAssignment(Scheme(tree, topology, draw(tree), rehash, fuel), partitions, replicas, instances, live, hash,
                         r)
  {
    tree := [];
    var error := CheckInputs(partitions, instances, live);
    if error.Some? {
      return Some(Err(error.value)), [];
    }
    var built := Build(instances, live, topology);
    tree := built;
    var c := Scheme(built, topology, draw(built), rehash, fuel);
    assert BuiltFrom(c, instances, live);
    hide Shaped, Chooses, Holds, AllWeighed, BuiltFrom, Scheme.Valid, Scheme.Selection, AllListed;
    r := AssignAll(c, partitions, replicas, instances, live, hash);
  }

  /** The preference list of every partition. */
  method AssignAll(c: Scheme, partitions: seq<PartitionId>, replicas: nat, ghost instances: seq<CrushInstance>,
                   ghost live: set<InstanceId>, hash: PartitionId -> int)
    returns (r: Option<Result<map<PartitionId, seq<InstanceId>>, CrushError>>)
    requires BuiltFrom(c, instances, live) && Acceptable(partitions, instances, live)
    ensures IsAssignment(c, partitions, replicas, instances, live, hash, r)
  {
    ValidIsShaped(c);
    hide BuiltFrom, Scheme.Valid, Scheme.Selection, ListedBy, GoodList, InstancesAt, Spread;
    var assignment: Result<map<PartitionId, seq<InstanceId>>, CrushError> := Ok(map[]);
    for k := 0 to |partitions|
      invariant assignment.Ok? && AllListed(c, partitions[..k], replicas, instances, live, hash, assignment.value)
    {
      var p := partitions[k];
      var nodes := SelectReplicas(c, hash(p), replicas);
      if nodes.None? {
        assert p in partitions;
        return None;
      }
      GoodSelection(c, instances, live, replicas, nodes.value);
      var list := InstancesAt(c.tree, nodes.value);
      OneMoreListed(c, partitions, k, replicas, instances, live, hash, assignment.value, list.value);
      assignment := Entered(assignment, p, list);
    }
    assert partitions[..|partitions|] == partitions;
    r := Some(assignment);
  }

  lemma OneMoreListed(c: Scheme, partitions: seq<PartitionId>, k: nat, replicas: nat, instances: seq<CrushInstance>,
                      live: set<InstanceId>, hash: PartitionId -> int, lists: map<PartitionId, seq<InstanceId>>,
                      list: seq<InstanceId>)
    requires k < |partitions| && AllListed(c, partitions[..k], replicas, instances, live, hash, lists)
    requires GoodList(instances, live, c.topology, replicas, list)
    requires ListedBy(c.tree, c.Selection(hash(partitions[k]), replicas), list)
    ensures AllListed(c, partitions[..k + 1], replicas, instances, live, hash, lists[partitions[k] := list])
  {
    hide GoodList, ListedBy, Scheme.Selection;
    assert partitions[..k + 1] == partitions[..k] + [partitions[k]];
  }

  lemma GoodSelection(c: Scheme, instances: seq<CrushInstance>, live: set<InstanceId>, replicas: nat, nodes: seq<nat>)
    requires BuiltFrom(c, instances, live) && Spread(c.tree, c.topology, nodes) && |nodes| <= replicas
    requires forall i, j | 0 <= i < j < |instances| :: instances[i].instance != instances[j].instance
    ensures (forall n | n in nodes :: n < |c.tree|) && InstancesAt(c.tree, nodes).Ok?
    ensures GoodList(instances, live, c.topology, replicas, InstancesAt(c.tree, nodes).value)
    ensures ListedBy(c.tree, Some(nodes), InstancesAt(c.tree, nodes).value)
  {
    hide GoodList, ListedBy, Spread, InstancesAt, Shaped, Holds, AllWeighed, Chooses;
    SpreadIsGood(c.tree, c.topology, instances, live, replicas, nodes);
    SpreadIsListed(c.tree, c.topology, nodes);
  }

  lemma SpreadIsListed(tree: Tree, topology: Topology, nodes: seq<nat>)
    requires Spread(tree, topology, nodes)
    ensures (forall n | n in nodes :: n < |tree|) && InstancesAt(tree, nodes).Ok?
    ensures ListedBy(tree, Some(nodes), InstancesAt(tree, nodes).value)
  {
    assert forall n | n in nodes :: LiveLeaf(tree, n);
    LeavesAreListed(tree, nodes);
  }
}
