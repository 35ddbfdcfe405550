/** The built-in LeaderStandby definition and the table its builder produces. */
module LeaderStandby {
  import opened Types
  import opened Routes
  import opened StateModels

  function LsStates(): seq<State> {
    [Leader, Standby, Offline, Dropped]
  }

  function LsTransitions(): seq<Edge> {
    [Edge(Leader, Standby), Edge(Standby, Leader), Edge(Offline, Standby), Edge(Standby, Offline),
     Edge(Offline, Dropped)]
  }

  function Declared(): Declarations {
    Declarations("LeaderStandby", Some(Offline),
      [(Leader, Exact(1)), (Standby, ReplicaCount), (Offline, Unbounded), (Dropped, Unbounded)], LsTransitions())
  }

  function LsCardinalities(): map<State, Cardinality> {
    map[Leader := Exact(1), Standby := ReplicaCount, Offline := Unbounded, Dropped := Unbounded]
  }

  function LeaderRow(): map<State, State> {
    map[Standby := Standby, Offline := Standby, Dropped := Standby]
  }

  function StandbyRow(): map<State, State> {
    map[Leader := Leader, Offline := Offline, Dropped := Offline]
  }

  function OfflineRow(): map<State, State> {
    map[Leader := Standby, Standby := Standby, Dropped := Dropped]
  }

  function LsNext(): map<State, map<State, State>> {
    map[Leader := LeaderRow(), Standby := StandbyRow(), Offline := OfflineRow(), Dropped := map[]]
  }

  function Model(): StateModel {
    StateModel(Offline, LsStates(), LsTransitions(), LsCardinalities(), LsNext())
  }

  predicate Named(s: State) {
    s == Leader || s == Standby || s == Offline || s == Dropped
  }

  /** The next hop, in closed form. */
  function Hop(from: State, to: State): Option<State> {
    if from == to || !Named(to) then None
    else match from
      case Leader => Some(Standby)
      case Standby => Some(if to == Dropped then Offline else to)
      case Offline => Some(if to == Dropped then Dropped else Standby)
      case _ => None
  }

  lemma HopIsNextToward(from: State, to: State)
    ensures Model().NextToward(from, to) == Hop(from, to)
  {
  }

  // The graph of the declared transitions.

  ghost predicate LsGraph(g: Graph) {
    forall e :: e in g <==> e == (0, 1) || e == (1, 0) || e == (2, 1) || e == (1, 2) || e == (2, 3)
  }

  lemma LsPositions()
    ensures IndexOf(LsStates(), Leader) == 0
    ensures IndexOf(LsStates(), Standby) == 1
    ensures IndexOf(LsStates(), Offline) == 2
    ensures IndexOf(LsStates(), Dropped) == 3
  {
    IndexOfElement(LsStates(), 0);
    IndexOfElement(LsStates(), 1);
    IndexOfElement(LsStates(), 2);
    IndexOfElement(LsStates(), 3);
  }

  lemma DeclaredGraph()
    ensures LsGraph(Graphed(LsStates(), LsTransitions()))
  {
    LsPositions();
    var indexes := EdgeIndexes(LsStates(), LsTransitions());
    assert |indexes| == 5;
    assert indexes[0] == (0, 1);
    assert indexes[1] == (1, 0);
    assert indexes[2] == (2, 1);
    assert indexes[3] == (1, 2);
    assert indexes[4] == (2, 3);
    FiveMembers(indexes);
  }

  lemma FiveMembers(s: seq<(nat, nat)>)
    requires |s| == 5
    ensures forall e :: e in s <==> e == s[0] || e == s[1] || e == s[2] || e == s[3] || e == s[4]
  {
  }

  /** A walk between different nodes starts with an edge. */
  lemma WalkStarts(graph: Graph, walk: seq<nat>, from: nat, to: nat)
    requires Walk(graph, walk, from, to) && from != to
    ensures |walk| >= 2 && (from, walk[1]) in graph
  {
    assert (walk[0], walk[1]) in graph;
  }

  /** In every valid model a state next to the target is stepped to directly. */
  lemma DirectHop(m: StateModel, g: Graph, i: nat, j: nat)
    requires m.Valid() && g == Graphed(m.states, m.transitions)
    requires i < |m.states| && j < |m.states| && i != j && (i, j) in g
    ensures m.NextToward(m.states[i], m.states[j]) == Some(m.states[j])
  {
    assert RoutedEntry(m.states, g, m.next, i, j);
    assert Walk(g, [i, j], i, j);
    var d := ShortestExists(g, i, j);
    assert |[i, j]| >= d + 1;
  }

  /** In every valid model, a reachable target is approached through the only exit that can lead to it. */
  lemma SingleExitHop(m: StateModel, g: Graph, i: nat, j: nat, k: nat, walk: seq<nat>)
    requires m.Valid() && g == Graphed(m.states, m.transitions)
    requires i < |m.states| && j < |m.states| && k < |m.states| && i != j
    requires Walk(g, walk, i, j)
    requires forall h | (i, h) in g && h != k ::
               h != j && (Reachable(g, h, j) ==> forall w | Walk(g, w, h, j) :: |w| >= |walk|)
    ensures m.NextToward(m.states[i], m.states[j]) == Some(m.states[k])
  {
    assert RoutedEntry(m.states, g, m.next, i, j);
    var h := IndexOf(m.states, m.next[m.states[i]][m.states[j]]);
    if h != k {
      var d := ShortestExists(g, i, j);
      assert |walk| >= d + 1;
      assert Distance(g, h, j, d - 1);
      var w :| Walk(g, w, h, j) && |w| == d;
      assert false;
    }
  }

  lemma DroppedIsFinal(g: Graph, j: nat)
    requires LsGraph(g) && j != 3
    ensures !Reachable(g, 3, j)
  {
    if Reachable(g, 3, j) {
      var walk :| Walk(g, walk, 3, j);
      WalkStarts(g, walk, 3, j);
      assert false;
    }
  }

  /** LEADER is at least three steps from DROPPED. */
  lemma LeaderIsFarFromDropped(g: Graph, w: seq<nat>)
    requires LsGraph(g) && Walk(g, w, 0, 3)
    ensures |w| >= 4
  {
    WalkStarts(g, w, 0, 3);
    assert (w[1], w[2]) in g;
  }

  lemma IndirectHops(m: StateModel, g: Graph)
    requires m.Valid() && |m.states| == 4 && g == Graphed(m.states, m.transitions) && LsGraph(g)
    ensures m.NextToward(m.states[0], m.states[2]) == Some(m.states[1])
    ensures m.NextToward(m.states[0], m.states[3]) == Some(m.states[1])
    ensures m.NextToward(m.states[2], m.states[0]) == Some(m.states[1])
    ensures m.NextToward(m.states[1], m.states[3]) == Some(m.states[2])
  {
    ShortWalks(g);
    assert forall h | (0, h) in g :: h == 1;
    assert forall h | (2, h) in g :: h == 1 || h == 3;
    assert forall h | (1, h) in g :: h == 0 || h == 2;
    DroppedIsFinal(g, 0);
    forall w | Walk(g, w, 0, 3)
      ensures |w| >= 3
    {
      LeaderIsFarFromDropped(g, w);
    }
    hide *;
    SingleExitHop(m, g, 0, 2, 1, [0, 1, 2]);
    SingleExitHop(m, g, 0, 3, 1, [0, 1, 2, 3]);
    SingleExitHop(m, g, 2, 0, 1, [2, 1, 0]);
    SingleExitHop(m, g, 1, 3, 2, [1, 2, 3]);
  }

  lemma ShortWalks(g: Graph)
    requires LsGraph(g)
    ensures Walk(g, [0, 1, 2], 0, 2) && Walk(g, [0, 1, 2, 3], 0, 3) && Walk(g, [2, 1, 0], 2, 0)
    ensures Walk(g, [1, 2, 3], 1, 3) && Walk(g, [2, 3], 2, 3)
  {
  }

  lemma DirectHops(m: StateModel, g: Graph)
    requires m.Valid() && |m.states| == 4 && g == Graphed(m.states, m.transitions) && LsGraph(g)
    ensures m.NextToward(m.states[0], m.states[1]) == Some(m.states[1])
    ensures m.NextToward(m.states[1], m.states[0]) == Some(m.states[0])
    ensures m.NextToward(m.states[2], m.states[1]) == Some(m.states[1])
    ensures m.NextToward(m.states[1], m.states[2]) == Some(m.states[2])
    ensures m.NextToward(m.states[2], m.states[3]) == Some(m.states[3])
  {
    assert (0, 1) in g && (1, 0) in g && (2, 1) in g && (1, 2) in g && (2, 3) in g;
    hide *;
    DirectHop(m, g, 0, 1);
    DirectHop(m, g, 1, 0);
    DirectHop(m, g, 2, 1);
    DirectHop(m, g, 1, 2);
    DirectHop(m, g, 2, 3);
  }

  lemma NoHopsFromDropped(m: StateModel, g: Graph)
    requires m.Valid() && m.states == LsStates() && g == Graphed(m.states, m.transitions) && LsGraph(g)
    ensures m.next[Dropped] == map[]
  {
    forall t | t in m.next[Dropped]
      ensures false
    {
      assert t in m.states && t != Dropped;
      var j := IndexOf(m.states, t);
      assert m.states[3] == Dropped;
      assert RoutedEntry(m.states, g, m.next, 3, j);
      DroppedIsFinal(g, j);
    }
  }

  /** One row of the table is fixed by its three hops. */
  lemma RowFixed(m: StateModel, s: State, row: map<State, State>)
    requires m.Valid() && m.states == LsStates() && s in LsStates()
    requires forall t | t in LsStates() && t != s :: t in row && m.NextToward(s, t) == Some(row[t])
    requires forall t | t in row :: t in LsStates() && t != s
    ensures m.next[s] == row
  {
    assert forall t | t in m.next[s] :: t in m.states && t != s;
    forall t | t in row
      ensures t in m.next[s] && m.next[s][t] == row[t]
    {
      assert m.NextToward(s, t) == Some(row[t]);
    }
  }

  /** The table built for LeaderStandby is this one: no tie is left to the construction order. */
  lemma BuiltTableIsUnique(m: StateModel)
    requires m.Valid() && m.states == LsStates() && m.transitions == LsTransitions()
    ensures m.next == LsNext()
  {
    hide Graphed, RoutedEntry, LsGraph;
    var g := Graphed(m.states, m.transitions);
    DeclaredGraph();
    DirectHops(m, g);
    IndirectHops(m, g);
    NoHopsFromDropped(m, g);
    assert LsStates()[0] == Leader && LsStates()[1] == Standby && LsStates()[2] == Offline && LsStates()[3] == Dropped;
    assert m.next[Leader] == LeaderRow() by {
      RowFixed(m, Leader, LeaderRow());
    }
    assert m.next[Standby] == StandbyRow() by {
      RowFixed(m, Standby, StandbyRow());
    }
    assert m.next[Offline] == OfflineRow() by {
      RowFixed(m, Offline, OfflineRow());
    }
    TableFromRows(m.next);
  }

  lemma TableFromRows(next: map<State, map<State, State>>)
    requires next.Keys == (set s | s in LsStates())
    requires next[Leader] == LeaderRow() && next[Standby] == StandbyRow()
    requires next[Offline] == OfflineRow() && next[Dropped] == map[]
    ensures next == LsNext()
  {
    assert next.Keys == LsNext().Keys;
  }

  lemma LsReachDropped()
    ensures forall i | 0 <= i < 3 :: Reachable(Graphed(LsStates(), LsTransitions()), i, 3)
  {
    hide Graphed, Walk;
    DeclaredGraph();
    ShortWalks(Graphed(LsStates(), LsTransitions()));
  }

  lemma LsEndpoints()
    ensures Distinct(LsStates()) && Distinct(LsTransitions())
    ensures forall e | e in LsTransitions() :: e.source in LsStates() && e.target in LsStates()
  {
    var s := LsStates();
    assert s[0] == Leader && s[1] == Standby && s[2] == Offline && s[3] == Dropped;
  }

  lemma LsBuildable(d: Declarations)
    requires d == Declared()
    ensures Buildable(d) && d.Names() == LsStates()
  {
    hide Graphed, Reachable, IndexOf;
    assert d.Names() == LsStates();
    assert IndexOf(LsStates(), Dropped) == 3 by {
      LsPositions();
    }
    LsReachDropped();
    LsEndpoints();
    assert LsStates()[2] == Offline && LsStates()[3] == Dropped;
  }

  lemma PublishedModel(d: Declarations, m: StateModel)
    requires d == Declared() && d.Names() == LsStates() && m.Valid() && Publishes(d, m)
    ensures m == Model()
  {
    BuiltTableIsUnique(m);
    CardinalitiesFixed(d, m.cardinalities);
  }

  /** `leader_standby()`: building the declarations succeeds with exactly this definition. */
  method LeaderStandbyDefinition() returns (m: StateModel)
    ensures m == Model() && m.Valid()
  {
    var d := Declared();
    LsBuildable(d);
    var r := Build(d);
    m := r.value;
    PublishedModel(d, m);
  }

  lemma CardinalitiesFixed(d: Declarations, cardinalities: map<State, Cardinality>)
    requires d == Declared()
    requires cardinalities.Keys == (set s | s in LsStates())
    requires forall i | 0 <= i < |d.states| ::
               d.states[i].0 in cardinalities && cardinalities[d.states[i].0] == d.states[i].1
    ensures cardinalities == LsCardinalities()
  {
    assert d.states[0] == (Leader, Exact(1)) && d.states[1] == (Standby, ReplicaCount);
    assert d.states[2] == (Offline, Unbounded) && d.states[3] == (Dropped, Unbounded);
  }
}
