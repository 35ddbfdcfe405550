/** State-model definitions and their validating builder. */
module StateModels {
  import opened Types
  import opened Routes

  datatype Cardinality = Exact(count: nat) | NodeCount | ReplicaCount | Unbounded

  datatype Edge = Edge(source: State, target: State)

  datatype StateModel = StateModel(
    initial: State,
    states: seq<State>,
    transitions: seq<Edge>,
    cardinalities: map<State, Cardinality>,
    next: map<State, map<State, State>>)
  {
    function Top(): State
      requires states != []
    {
      states[0]
    }

    /** The first state to move to on the way from `from` toward `to`. */
    function NextToward(from: State, to: State): Option<State> {
      if from in next && to in next[from] then Some(next[from][to]) else None
    }

    /** What `StateModelBuilder::build` guarantees of every definition it returns. */
    ghost predicate Valid() {
      && states != [] && Distinct(states)
      && initial in states && Dropped in states
      && cardinalities.Keys == (set s | s in states)
      && (forall e | e in transitions :: e.source in states && e.target in states)
      && Distinct(transitions)
      && Routed(states, transitions, next)
      && (forall s | s in states && s != Dropped :: NextToward(s, Dropped).Some?)
    }
  }

  /** Position of a state in priority order; the number of states when it is unknown. */
  function IndexOf(states: seq<State>, s: State): (i: nat)
    ensures i <= |states|
    ensures i < |states| ==> states[i] == s
    ensures i == |states| <==> s !in states
    ensures forall j | 0 <= j < i :: states[j] != s
  {
    if states == [] then 0 else if states[0] == s then 0 else 1 + IndexOf(states[1..], s)
  }

  lemma IndexOfElement(states: seq<State>, i: nat)
    requires Distinct(states) && i < |states|
    ensures IndexOf(states, states[i]) == i
  {
    var j := IndexOf(states, states[i]);
    assert states[i] in states;
  }

  /** The declared transitions as edges between positions. */
  function EdgeIndexes(states: seq<State>, transitions: seq<Edge>): (r: seq<(nat, nat)>)
    ensures |r| == |transitions|
  {
    seq(|transitions|, k requires 0 <= k < |transitions| =>
      (IndexOf(states, transitions[k].source), IndexOf(states, transitions[k].target)))
  }

  function Graphed(states: seq<State>, transitions: seq<Edge>): Graph {
    GraphOf(EdgeIndexes(states, transitions))
  }

  /** One entry of a next-hop table is right: it exists exactly when the target can be
      reached, and then it is a declared transition after which the distance is one less. */
  ghost predicate RoutedEntry(states: seq<State>, graph: Graph, next: map<State, map<State, State>>, i: nat, j: nat)
    requires i < |states| && j < |states| && states[i] in next
  {
    && (states[j] in next[states[i]] <==> Reachable(graph, i, j))
    && (states[j] in next[states[i]] ==>
          var h := IndexOf(states, next[states[i]][states[j]]);
          && h < |states| && (i, h) in graph
          && forall d: nat | Distance(graph, i, j, d) ::
               d > 0 && (if h == j then d == 1 else Distance(graph, h, j, d - 1)))
  }

  ghost predicate Routed(states: seq<State>, transitions: seq<Edge>, next: map<State, map<State, State>>) {
    var graph := Graphed(states, transitions);
    && next.Keys == (set s | s in states)
    && (forall s, t | s in states && t in next[s] :: t in states && t != s)
    && (forall i, j | 0 <= i < |states| && 0 <= j < |states| && i != j :: RoutedEntry(states, graph, next, i, j))
  }

  function HopIn(next: map<State, map<State, State>>, from: State, to: State): Option<State> {
    if from in next && to in next[from] then Some(next[from][to]) else None
  }

  /** Of several shortest ways the table takes the one whose highest state, in declaration order, comes first:
      straight to the target if that is one transition away, and otherwise the way to that highest state. */
  ghost predicate TieRule(states: seq<State>, transitions: seq<Edge>, next: map<State, map<State, State>>) {
    var graph := Graphed(states, transitions);
    forall i, j, length: nat, b: nat
      | 0 <= i < |states| && 0 <= j < |states| && i != j && b <= |states|
        && Distance(graph, i, j, length) && LeastBound(graph, i, j, length, b) ::
      HopIn(next, states[i], states[j]) == if b == 0 then Some(states[j]) else HopIn(next, states[i], states[b - 1])
  }

  /** The state reached by following the table toward `target` for `steps` hops, if every hop exists. */
  function Follow(model: StateModel, from: State, target: State, steps: nat): Option<State>
    decreases steps
  {
    if steps == 0 then Some(from)
    else match model.NextToward(from, target)
      case None => None
      case Some(hop) => Follow(model, hop, target, steps - 1)
  }

  /** Following the table along a shortest distance arrives exactly on time. */
  lemma {:induction false} FollowArrives(model: StateModel, i: nat, j: nat, d: nat)
    requires model.Valid()
    requires i < |model.states| && j < |model.states| && i != j
    requires Distance(Graphed(model.states, model.transitions), i, j, d)
    ensures Follow(model, model.states[i], model.states[j], d) == Some(model.states[j])
    decreases d
  {
    var graph := Graphed(model.states, model.transitions);
    assert RoutedEntry(model.states, graph, model.next, i, j);
    var walk :| Walk(graph, walk, i, j) && |walk| == d + 1;
    assert Reachable(graph, i, j);
    var hop := model.next[model.states[i]][model.states[j]];
    var h := IndexOf(model.states, hop);
    if h != j {
      FollowArrives(model, h, j, d - 1);
    }
  }

  /** In every valid model, following next hops from any state arrives at DROPPED. */
  lemma EveryStateDrains(model: StateModel, s: State) returns (steps: nat)
    requires model.Valid() && s in model.states
    ensures Follow(model, s, Dropped, steps) == Some(Dropped)
  {
    if s == Dropped {
      steps := 0;
    } else {
      var i, j := IndexOf(model.states, s), IndexOf(model.states, Dropped);
      var graph := Graphed(model.states, model.transitions);
      assert model.NextToward(s, Dropped).Some?;
      assert RoutedEntry(model.states, graph, model.next, i, j);
      steps := ShortestExists(graph, i, j);
      FollowArrives(model, i, j, steps);
    }
  }

  lemma ShortestExists(graph: Graph, i: nat, j: nat) returns (d: nat)
    requires Reachable(graph, i, j)
    ensures Distance(graph, i, j, d)
  {
    var walk :| Walk(graph, walk, i, j);
    d := ShortestBelow(graph, i, j, walk);
  }

  lemma {:induction false} ShortestBelow(graph: Graph, i: nat, j: nat, walk: seq<nat>) returns (d: nat)
    requires Walk(graph, walk, i, j)
    ensures Distance(graph, i, j, d)
    decreases |walk|
  {
    if shorter :| Walk(graph, shorter, i, j) && |shorter| < |walk| {
      d := ShortestBelow(graph, i, j, shorter);
    } else {
      d := |walk| - 1;
    }
  }

  lemma EdgesInRange(states: seq<State>, transitions: seq<Edge>)
    requires forall e | e in transitions :: e.source in states && e.target in states
    ensures forall p | p in EdgeIndexes(states, transitions) :: p.0 < |states| && p.1 < |states|
  {
    var indexes := EdgeIndexes(states, transitions);
    forall p | p in indexes
      ensures p.0 < |states| && p.1 < |states|
    {
      var k :| 0 <= k < |indexes| && indexes[k] == p;
      assert transitions[k] in transitions;
    }
  }

  /** Reads one row of the hop matrix back, leaving out its diagonal cell. */
  method ReadRow(states: seq<State>, hops: array2<Option<nat>>, from: nat) returns (targets: map<State, State>)
    requires Distinct(states) && from < |states| && hops.Length0 == |states| && hops.Length1 == |states|
    requires forall j | 0 <= j < |states| && j != from && hops[from, j].Some? :: hops[from, j].value < |states|
    ensures RowRead(states, hops, targets, from, |states|)
  {
    targets := map[];
    for to := 0 to |states|
      invariant RowRead(states, hops, targets, from, to)
    {
      ghost var before := targets;
      if from != to && hops[from, to].Some? {
        targets := targets[states[to] := states[hops[from, to].value]];
      }
      assert states[..to + 1] == states[..to] + [states[to]];
      assert forall j | 0 <= j < to :: states[j] != states[to];
      assert states[to] !in before;
    }
  }

  lemma HopsInRange(graph: Graph, n: nat, distances: array2<Option<nat>>, hops: array2<Option<nat>>)
    requires hops.Length0 == n && hops.Length1 == n
    requires forall e | e in graph :: e.0 < n && e.1 < n
    requires Relaxed(graph, n, Contents(distances), Contents(hops), n)
    ensures forall i, j | 0 <= i < n && 0 <= j < n && i != j && hops[i, j].Some? :: hops[i, j].value < n
  {
    forall i, j | 0 <= i < n && 0 <= j < n && i != j && hops[i, j].Some?
      ensures hops[i, j].value < n
    {
      assert HopDescends(graph, n, Contents(distances), Contents(hops), i, j);
    }
  }

  /** Every row of the hop matrix, under its state. */
  method ReadTable(states: seq<State>, hops: array2<Option<nat>>) returns (table: map<State, map<State, State>>)
    requires Distinct(states) && hops.Length0 == |states| && hops.Length1 == |states|
    requires forall i, j | 0 <= i < |states| && 0 <= j < |states| && i != j && hops[i, j].Some? ::
               hops[i, j].value < |states|
    ensures table.Keys == (set s | s in states)
    ensures forall i | 0 <= i < |states| :: RowRead(states, hops, table[states[i]], i, |states|)
  {
    var n := |states|;
    table := map[];
    for from := 0 to n
      modifies {}
      invariant table.Keys == (set s | s in states[..from])
      invariant forall i | 0 <= i < from :: states[i] in states[..from]
      invariant forall i | 0 <= i < from :: RowRead(states, hops, table[states[i]], i, n)
    {
      var targets := ReadRow(states, hops, from);
      assert states[..from + 1] == states[..from] + [states[from]];
      table := table[states[from] := targets];
    }
    assert states[..n] == states;
  }

  /** `build_transition_table`: the matrices read back as a table without its diagonal. */
  method BuildTransitionTable(states: seq<State>, transitions: seq<Edge>)
    returns (table: map<State, map<State, State>>)
    requires Distinct(states)
    requires forall e | e in transitions :: e.source in states && e.target in states
    ensures Routed(states, transitions, table) && TieRule(states, transitions, table)
  {
    EdgesInRange(states, transitions);
    var n, edges := |states|, EdgeIndexes(states, transitions);
    hide Relaxed, Tied, Routed, TieRule, RowRead;
    var distances, hops := BuildHops(n, edges);
    HopsInRange(GraphOf(edges), n, distances, hops);
    table := ReadTable(states, hops);
    RowsRouted(states, transitions, Contents(distances), Contents(hops), hops, table);
    RowsTied(states, transitions, Contents(distances), Contents(hops), hops, table);
  }

  lemma RowsTied(states: seq<State>, transitions: seq<Edge>, d: Matrix, h: Matrix, hops: array2<Option<nat>>,
                 table: map<State, map<State, State>>)
    requires Distinct(states) && hops.Length0 == |states| && hops.Length1 == |states|
    requires forall e | e in transitions :: e.source in states && e.target in states
    requires Relaxed(Graphed(states, transitions), |states|, d, h, |states|) && h == Contents(hops)
    requires Tied(Graphed(states, transitions), |states|, d, h, |states|)
    requires table.Keys == (set s | s in states)
    requires forall i | 0 <= i < |states| :: RowRead(states, hops, table[states[i]], i, |states|)
    ensures TieRule(states, transitions, table)
  {
    var n, graph := |states|, Graphed(states, transitions);
    EdgesInRange(states, transitions);
    hide Relaxed, Tied, LeastBound, Distance, Graphed, RowRead, HopIn;
    forall i, j, length: nat, b: nat
      | 0 <= i < n && 0 <= j < n && i != j && b <= n && Distance(graph, i, j, length)
        && LeastBound(graph, i, j, length, b)
      ensures HopIn(table, states[i], states[j])
           == if b == 0 then Some(states[j]) else HopIn(table, states[i], states[b - 1])
    {
      TieAt(graph, n, d, h, i, j, length, b);
      HopRead(states, hops, table, i, j);
      if b > 0 {
        HopRead(states, hops, table, i, b - 1);
      }
    }
  }

  /** A hop of the table is the state at its cell. */
  lemma HopRead(states: seq<State>, hops: array2<Option<nat>>, table: map<State, map<State, State>>, i: nat, j: nat)
    requires hops.Length0 == |states| && hops.Length1 == |states| && i < |states| && j < |states| && i != j
    requires states[i] in table && RowRead(states, hops, table[states[i]], i, |states|)
    ensures var hop := At(Contents(hops), i, j);
            && (hop.Some? ==> hop.value < |states|)
            && HopIn(table, states[i], states[j]) == if hop.Some? then Some(states[hop.value]) else None
  {
  }

  lemma TieAt(graph: Graph, n: nat, d: Matrix, h: Matrix, i: nat, j: nat, length: nat, b: nat)
    requires Relaxed(graph, n, d, h, n) && Tied(graph, n, d, h, n) && forall e | e in graph :: e.0 < n && e.1 < n
    requires i < n && j < n && i != j && b <= n && Distance(graph, i, j, length) && LeastBound(graph, i, j, length, b)
    ensures b > 0 ==> b - 1 != i
    ensures At(h, i, j).Some? && At(h, i, j) == if b == 0 then Some(j) else At(h, i, b - 1)
  {
    var walk :| Walk(graph, walk, i, j) && |walk| == length + 1;
    assert Reachable(graph, i, j);
    RelaxedIsDistance(graph, n, d, h, i, j);
    DistanceUnique(graph, i, j, length, At(d, i, j).value);
    hide Relaxed, LeastBound, Distance;
    assert TieBroken(graph, d, h, n, i, j);
    if b > 0 {
      SplitAtHighest(graph, n, d, h, n, i, j, b);
    }
  }

  lemma RowsRouted(states: seq<State>, transitions: seq<Edge>, d: Matrix, h: Matrix, hops: array2<Option<nat>>,
                   table: map<State, map<State, State>>)
    requires Distinct(states) && hops.Length0 == |states| && hops.Length1 == |states|
    requires forall e | e in transitions :: e.source in states && e.target in states
    requires Relaxed(Graphed(states, transitions), |states|, d, h, |states|) && h == Contents(hops)
    requires table.Keys == (set s | s in states)
    requires forall i | 0 <= i < |states| :: RowRead(states, hops, table[states[i]], i, |states|)
    ensures Routed(states, transitions, table)
  {
    var n, graph := |states|, Graphed(states, transitions);
    EdgesInRange(states, transitions);
    forall i, j | 0 <= i < n && 0 <= j < n && i != j
      ensures RoutedEntry(states, graph, table, i, j)
    {
      assert RowRead(states, hops, table[states[i]], i, n);
      assert At(h, i, j) == hops[i, j];
      EntryRouted(states, graph, d, h, table, i, j);
    }
    forall s, t | s in states && t in table[s]
      ensures t in states && t != s
    {
      var i := IndexOf(states, s);
      assert RowRead(states, hops, table[states[i]], i, n);
    }
  }

  /** The first `upTo` columns of row `i` have been read back into `targets`. */
  ghost predicate RowRead(states: seq<State>, hops: array2<Option<nat>>, targets: map<State, State>, i: nat, upTo: nat)
    requires hops.Length0 == |states| && hops.Length1 == |states| && i < |states| && upTo <= |states|
    reads hops
  {
    && (forall t | t in targets :: t in states[..upTo] && t != states[i])
    && (forall j | 0 <= j < upTo && j != i ::
          (states[j] in targets <==> hops[i, j].Some?)
          && (hops[i, j].Some? ==> hops[i, j].value < |states| && targets[states[j]] == states[hops[i, j].value]))
  }

  lemma EntryRouted(states: seq<State>, graph: Graph, d: Matrix, h: Matrix, next: map<State, map<State, State>>,
                    i: nat, j: nat)
    requires Distinct(states) && i < |states| && j < |states| && i != j && states[i] in next
    requires forall e | e in graph :: e.0 < |states| && e.1 < |states|
    requires Relaxed(graph, |states|, d, h, |states|)
    requires states[j] in next[states[i]] <==> At(h, i, j).Some?
    requires At(h, i, j).Some?
             ==> At(h, i, j).value < |states| && next[states[i]][states[j]] == states[At(h, i, j).value]
    ensures RoutedEntry(states, graph, next, i, j)
  {
    RelaxedIsDistance(graph, |states|, d, h, i, j);
    if At(h, i, j).Some? {
      HopShortensByOne(graph, |states|, d, h, i, j);
      IndexOfElement(states, At(h, i, j).value);
      forall v: nat | Distance(graph, i, j, v)
        ensures v == At(d, i, j).value
      {
        DistanceUnique(graph, i, j, v, At(d, i, j).value);
      }
    }
  }

  // The validating builder.

  /** The declarations collected by a builder before it publishes a definition. */
  datatype Declarations = Declarations(
    name: string,
    initial: Option<State>,
    states: seq<(State, Cardinality)>,
    transitions: seq<Edge>)
  {
    function Names(): (r: seq<State>)
      ensures |r| == |states|
      ensures forall i | 0 <= i < |states| :: r[i] == states[i].0
    {
      seq(|states|, i requires 0 <= i < |states| => states[i].0)
    }
  }

  datatype BuildError =
    | EmptyModelName
    | NoStates
    | DuplicateState(state: State)
    | MissingInitialState
    | UnknownInitialState(state: State)
    | UnknownTransitionState(transition: Edge, endpoint: State)
    | DuplicateTransition(transition: Edge)
    | MissingDroppedState
    | NoPathToDropped(state: State)

  /** The declarations describe a state model from every state of which DROPPED can be reached. */
  ghost predicate Buildable(d: Declarations) {
    var names := d.Names();
    && d.name != "" && names != [] && Distinct(names)
    && d.initial.Some? && d.initial.value in names
    && (forall e | e in d.transitions :: e.source in names && e.target in names)
    && Distinct(d.transitions)
    && Dropped in names
    && forall i | 0 <= i < |names| && names[i] != Dropped ::
         Reachable(Graphed(names, d.transitions), i, IndexOf(names, Dropped))
  }

  /** What an error says about the declarations. */
  ghost predicate Explains(error: BuildError, d: Declarations) {
    var names := d.Names();
    match error
    case EmptyModelName => d.name == ""
    case NoStates => d.states == []
    case DuplicateState(s) => exists i, j :: 0 <= i < j < |names| && names[i] == names[j] == s
    case MissingInitialState => d.initial.None?
    case UnknownInitialState(s) => d.initial == Some(s) && s !in names
    case UnknownTransitionState(e, s) => e in d.transitions && (s == e.source || s == e.target) && s !in names
    case DuplicateTransition(e) =>
      exists i, j :: 0 <= i < j < |d.transitions| && d.transitions[i] == d.transitions[j] == e
    case MissingDroppedState => Dropped !in names
    case NoPathToDropped(s) =>
      && Distinct(names) && s in names && Dropped in names
      && !Reachable(Graphed(names, d.transitions), IndexOf(names, s), IndexOf(names, Dropped))
  }

  /** The definition carries the declarations over unchanged. */
  ghost predicate Publishes(d: Declarations, m: StateModel) {
    && Some(m.initial) == d.initial
    && m.states == d.Names() && m.transitions == d.transitions
    && forall i | 0 <= i < |d.states| ::
         d.states[i].0 in m.cardinalities && m.cardinalities[d.states[i].0] == d.states[i].1
  }

  /** The first `k` declared states have been recorded. */
  ghost predicate Recorded(d: Declarations, cardinalities: map<State, Cardinality>, k: nat)
    requires k <= |d.states|
  {
    && (forall i, j | 0 <= i < j < k :: d.states[i].0 != d.states[j].0)
    && (forall s | s in cardinalities :: exists i :: 0 <= i < k && d.states[i].0 == s)
    && (forall i | 0 <= i < k :: d.states[i].0 in cardinalities && cardinalities[d.states[i].0] == d.states[i].1)
  }

  lemma RecordedAll(d: Declarations, cardinalities: map<State, Cardinality>)
    requires Recorded(d, cardinalities, |d.states|)
    ensures Distinct(d.Names()) && cardinalities.Keys == (set s | s in d.Names())
  {
    var names := d.Names();
    forall s
      ensures s in cardinalities <==> s in names
    {
      if s in cardinalities {
        var i :| 0 <= i < |d.states| && d.states[i].0 == s;
        assert names[i] == s;
      }
    }
  }

  lemma RecordedNext(d: Declarations, cardinalities: map<State, Cardinality>, k: nat)
    requires k < |d.states| && Recorded(d, cardinalities, k)
    ensures d.states[k].0 !in cardinalities ==> Recorded(d, cardinalities[d.states[k].0 := d.states[k].1], k + 1)
    ensures d.states[k].0 in cardinalities ==> Explains(DuplicateState(d.states[k].0), d)
  {
    var state := d.states[k].0;
    if state in cardinalities {
      var i :| 0 <= i < k && d.states[i].0 == state;
      assert d.Names()[i] == d.Names()[k] == state;
    } else {
      var more := cardinalities[state := d.states[k].1];
      forall s | s in more
        ensures exists i :: 0 <= i < k + 1 && d.states[i].0 == s
      {
        assert s == state ==> d.states[k].0 == s;
      }
    }
  }

  method CollectStates(d: Declarations)
    returns (duplicate: Option<State>, cardinalities: map<State, Cardinality>)
    ensures duplicate.None? ==> Recorded(d, cardinalities, |d.states|)
    ensures duplicate.Some? ==> Explains(DuplicateState(duplicate.value), d)
  {
    cardinalities := map[];
    assert Recorded(d, cardinalities, 0);
    hide Recorded, Explains;
    for k := 0 to |d.states|
      invariant Recorded(d, cardinalities, k)
    {
      RecordedNext(d, cardinalities, k);
      var (state, cardinality) := d.states[k];
      if state in cardinalities {
        return Some(state), cardinalities;
      }
      cardinalities := cardinalities[state := cardinality];
    }
    duplicate := None;
  }

  method CheckTransitions(d: Declarations) returns (error: Option<BuildError>)
    ensures error.None? ==> Connected(d)
    ensures error.Some? ==> Explains(error.value, d)
  {
    var names, ts := d.Names(), d.transitions;
    for k := 0 to |ts|
      invariant Distinct(ts[..k])
      invariant forall e | e in ts[..k] :: e.source in names && e.target in names
    {
      var e := ts[k];
      assert e in ts;
      if e.source !in names {
        return Some(UnknownTransitionState(e, e.source));
      }
      if e.target !in names {
        return Some(UnknownTransitionState(e, e.target));
      }
      if e in ts[..k] {
        var i :| 0 <= i < k && ts[..k][i] == e;
        assert ts[i] == ts[k] == e;
        return Some(DuplicateTransition(e));
      }
      assert ts[..k + 1] == ts[..k] + [e];
      assert forall i | 0 <= i < k :: ts[i] == ts[..k][i];
    }
    assert ts[..|ts|] == ts;
    error := None;
  }

  /** The first `k` states have an entry toward DROPPED. */
  ghost predicate Drains(names: seq<State>, next: map<State, map<State, State>>, k: nat)
    requires k <= |names|
  {
    forall i | 0 <= i < k && names[i] != Dropped :: names[i] in next && Dropped in next[names[i]]
  }

  /** Looks for a state whose row has no entry for DROPPED. */
  method CheckDrains(names: seq<State>, next: map<State, map<State, State>>) returns (stuck: Option<State>)
    requires forall s | s in names :: s in next
    ensures stuck.None? ==> Drains(names, next, |names|)
    ensures stuck.Some? ==> stuck.value in names && stuck.value != Dropped && Dropped !in next[stuck.value]
  {
    for k := 0 to |names|
      invariant Drains(names, next, k)
    {
      assert names[k] in names;
      if names[k] != Dropped && Dropped !in next[names[k]] {
        return Some(names[k]);
      }
    }
    stuck := None;
  }

  lemma StuckIsUnreachable(d: Declarations, next: map<State, map<State, State>>, s: State)
    requires Distinct(d.Names()) && Dropped in d.Names() && Routed(d.Names(), d.transitions, next)
    requires s in d.Names() && s != Dropped && Dropped !in next[s]
    ensures Explains(NoPathToDropped(s), d)
  {
    var names := d.Names();
    assert RoutedEntry(names, Graphed(names, d.transitions), next, IndexOf(names, s), IndexOf(names, Dropped));
  }

  lemma DrainsIsReachable(d: Declarations, next: map<State, map<State, State>>, i: nat)
    requires Distinct(d.Names()) && Dropped in d.Names() && Routed(d.Names(), d.transitions, next)
    requires Drains(d.Names(), next, |d.Names()|) && i < |d.Names()| && d.Names()[i] != Dropped
    ensures Reachable(Graphed(d.Names(), d.transitions), i, IndexOf(d.Names(), Dropped))
  {
    var names := d.Names();
    assert RoutedEntry(names, Graphed(names, d.transitions), next, i, IndexOf(names, Dropped));
  }

  ghost predicate Connected(d: Declarations) {
    && Distinct(d.transitions)
    && forall e | e in d.transitions :: e.source in d.Names() && e.target in d.Names()
  }

  lemma AcceptedIsBuildable(d: Declarations, m: StateModel)
    requires d.name != "" && d.states != [] && d.initial.Some? && d.initial.value in d.Names()
    requires Recorded(d, m.cardinalities, |d.states|) && Connected(d)
    requires Dropped in d.Names() && Routed(d.Names(), d.transitions, m.next) && Drains(d.Names(), m.next, |d.Names()|)
    requires m.initial == d.initial.value && m.states == d.Names() && m.transitions == d.transitions
    ensures Buildable(d) && m.Valid() && Publishes(d, m)
  {
    RecordedAll(d, m.cardinalities);
    var names := d.Names();
    forall i | 0 <= i < |names| && names[i] != Dropped
      ensures Reachable(Graphed(names, d.transitions), i, IndexOf(names, Dropped))
    {
      DrainsIsReachable(d, m.next, i);
    }
    forall s | s in names && s != Dropped
      ensures m.NextToward(s, Dropped).Some?
    {
      assert names[IndexOf(names, s)] == s;
    }
  }

  /** `StateModelBuilder::build`: succeeds exactly on buildable declarations, and then
      publishes them with a correct next-hop table. */
  method Build(d: Declarations) returns (r: Result<StateModel, BuildError>)
    ensures r.Ok? <==> Buildable(d)
    ensures r.Ok? ==> r.value.Valid() && Publishes(d, r.value)
    ensures r.Ok? ==> TieRule(r.value.states, r.value.transitions, r.value.next)
    ensures r.Err? ==> Explains(r.error, d)
  {
    hide Buildable, Routed, Recorded, Publishes, Drains, TieRule;
    var names := d.Names();
    var duplicate, cardinalities := CollectStates(d);
    if d.name == "" {
      r := Err(EmptyModelName);
    } else if d.states == [] {
      r := Err(NoStates);
    } else if duplicate.Some? {
      r := Err(DuplicateState(duplicate.value));
    } else if d.initial.None? {
      r := Err(MissingInitialState);
    } else if d.initial.value !in names {
      r := Err(UnknownInitialState(d.initial.value));
    } else {
      r := BuildFrom(d, cardinalities);
      return;
    }
    NotBuildable(r.error, d);
  }

  /** The second half of `build`: transitions, the next-hop table and the paths to DROPPED. */
  method BuildFrom(d: Declarations, cardinalities: map<State, Cardinality>) returns (r: Result<StateModel, BuildError>)
    requires d.name != "" && d.states != [] && d.initial.Some? && d.initial.value in d.Names()
    requires Recorded(d, cardinalities, |d.states|)
    ensures r.Ok? <==> Buildable(d)
    ensures r.Ok? ==> r.value.Valid() && Publishes(d, r.value)
    ensures r.Ok? ==> TieRule(r.value.states, r.value.transitions, r.value.next)
    ensures r.Err? ==> Explains(r.error, d)
  {
    hide Buildable, Recorded, Publishes, Drains, TieRule;
    var names := d.Names();
    assert Distinct(names) by {
      RecordedAll(d, cardinalities);
    }
    var error := CheckTransitions(d);
    if error.Some? {
      NotBuildable(error.value, d);
      return Err(error.value);
    }
    var next := BuildTransitionTable(names, d.transitions);
    if Dropped !in names {
      NotBuildable(MissingDroppedState, d);
      return Err(MissingDroppedState);
    }
    var stuck := CheckDrains(names, next);
    if stuck.Some? {
      StuckIsUnreachable(d, next, stuck.value);
      NotBuildable(NoPathToDropped(stuck.value), d);
      return Err(NoPathToDropped(stuck.value));
    }
    r := Ok(StateModel(d.initial.value, names, d.transitions, cardinalities, next));
    AcceptedIsBuildable(d, r.value);
  }

  /** An explained error is a real obstacle. */
  lemma NotBuildable(error: BuildError, d: Declarations)
    requires Explains(error, d)
    ensures !Buildable(d)
  {
    if error.NoPathToDropped? && Buildable(d) {
      var names := d.Names();
      var i := IndexOf(names, error.state);
      assert names[i] == error.state;
      if error.state == Dropped {
        var dropped := IndexOf(names, Dropped);
        assert Walk(Graphed(names, d.transitions), [dropped], dropped, dropped);
      }
    }
  }
}
