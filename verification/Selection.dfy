/** Cardinality-bounded greedy selection of transition requests (`message_selection.rs`). */
module Selection {
  import opened Types
  import opened Ordering
  import opened StateModels
  import opened BestPossible

  datatype SelectionError =
    | CandidateResourceMismatch(expected: ResourceId, actual: ResourceId)
    | UnknownCandidatePartition(partition: PartitionId)
    | UnknownPendingPartition(partition: PartitionId)
    | DuplicatePendingTransition(partition: PartitionId, instance: InstanceId)

  type Counts = map<State, nat>

  function Count(counts: Counts, s: State): nat {
    if s in counts then counts[s] else 0
  }

  /** The states whose number of holders is bounded: `R` and unbounded states are not. */
  function Bounds(model: StateModel, live: nat): Counts {
    map s | s in model.states && s in model.cardinalities
            && (model.cardinalities[s].Exact? || model.cardinalities[s].NodeCount?) ::
      if model.cardinalities[s].Exact? then model.cardinalities[s].count else live
  }

  function Increase(bounds: Counts, counts: Counts, s: State): Counts {
    if s in bounds then counts[s := Count(counts, s) + 1] else counts
  }

  function CountAll(bounds: Counts, states: seq<State>): Counts {
    if states == [] then map[] else Increase(bounds, CountAll(bounds, states[..|states| - 1]), states[|states| - 1])
  }

  function Occurrences(states: seq<State>, s: State): nat {
    multiset(states)[s]
  }

  lemma {:induction false} CountAllCounts(bounds: Counts, states: seq<State>, s: State)
    ensures Count(CountAll(bounds, states), s) == if s in bounds then Occurrences(states, s) else 0
  {
    if states != [] {
      CountAllCounts(bounds, states[..|states| - 1], s);
      assert states == states[..|states| - 1] + [states[|states| - 1]];
    }
  }

  // What a partition's count starts from: the state of every live instance, then both ends of
  // every pending transition.

  function LiveState(model: StateModel, current: Replicas, i: InstanceId): State {
    if i in current then current[i] else model.initial
  }

  function LiveStates(model: StateModel, instances: seq<InstanceId>, current: Replicas): seq<State> {
    if instances == [] then []
    else
      var i := instances[|instances| - 1];
      LiveStates(model, instances[..|instances| - 1], current) + [LiveState(model, current, i)]
  }

  function PendingStates(pending: seq<Transition>): seq<State> {
    if pending == [] then []
    else PendingStates(pending[..|pending| - 1]) + [pending[|pending| - 1].to, pending[|pending| - 1].from]
  }

  function Observed(model: StateModel, live: set<InstanceId>, current: Replicas, pending: seq<Transition>): seq<State> {
    LiveStates(model, SortedKeys(live), current) + PendingStates(pending)
  }

  lemma {:induction false} InLiveStates(model: StateModel, instances: seq<InstanceId>, current: Replicas, s: State)
    ensures s in LiveStates(model, instances, current)
            <==> exists i :: i in instances && LiveState(model, current, i) == s
  {
    if instances != [] {
      hide LiveState;
      var front, last := instances[..|instances| - 1], instances[|instances| - 1];
      InLiveStates(model, front, current, s);
      assert instances == front + [last];
      if LiveState(model, current, last) == s {
        assert last in instances;
      } else if i :| i in instances && LiveState(model, current, i) == s {
        assert i in front;
      }
    }
  }

  lemma {:induction false} InPendingStates(pending: seq<Transition>, s: State)
    ensures s in PendingStates(pending) <==> exists t :: t in pending && (t.to == s || t.from == s)
  {
    if pending != [] {
      var front, last := pending[..|pending| - 1], pending[|pending| - 1];
      InPendingStates(front, s);
      assert pending == front + [last];
    }
  }

  // The greedy choice.

  datatype Tally = Tally(counts: Counts, selected: seq<Transition>)

  predicate Full(bounds: Counts, counts: Counts, s: State) {
    s in bounds && Count(counts, s) + 1 > bounds[s]
  }

  function Admit(bounds: Counts, tally: Tally, t: Transition): Tally {
    if Full(bounds, tally.counts, t.to) then tally
    else Tally(Increase(bounds, tally.counts, t.to), tally.selected + [t])
  }

  function Greedy(bounds: Counts, counts: Counts, candidates: seq<Transition>): Tally {
    if candidates == [] then Tally(counts, [])
    else Admit(bounds, Greedy(bounds, counts, candidates[..|candidates| - 1]), candidates[|candidates| - 1])
  }

  function Targets(transitions: seq<Transition>): seq<State> {
    if transitions == [] then [] else Targets(transitions[..|transitions| - 1]) + [transitions[|transitions| - 1].to]
  }

  /** What the greedy choice guarantees: it keeps within every bound, and leaves out only what a full bound refuses. */
  ghost predicate Admissible(bounds: Counts, counts: Counts, candidates: seq<Transition>, tally: Tally) {
    && (forall t | t in tally.selected :: t in candidates)
    && (forall t | t in candidates && t !in tally.selected :: Full(bounds, tally.counts, t.to))
    && (forall s | s in bounds :: Count(tally.counts, s) == Count(counts, s) + Occurrences(Targets(tally.selected), s))
    && (forall s | s in bounds && s in Targets(tally.selected) :: Count(tally.counts, s) <= bounds[s])
  }

  lemma TargetsNext(selected: seq<Transition>, t: Transition, s: State)
    ensures Occurrences(Targets(selected + [t]), s) == Occurrences(Targets(selected), s) + (if s == t.to then 1 else 0)
    ensures s in Targets(selected + [t]) <==> s in Targets(selected) || s == t.to
  {
    assert (selected + [t])[..|selected|] == selected;
    assert Targets(selected + [t]) == Targets(selected) + [t.to];
  }

  lemma AdmitKeeps(bounds: Counts, counts: Counts, front: seq<Transition>, t: Transition, before: Tally)
    requires Admissible(bounds, counts, front, before)
    ensures Admissible(bounds, counts, front + [t], Admit(bounds, before, t))
  {
    hide Targets, Occurrences;
    if !Full(bounds, before.counts, t.to) {
      forall s
        ensures Occurrences(Targets(before.selected + [t]), s) == Occurrences(Targets(before.selected),
            s) + (if s == t.to then 1 else 0)
        ensures s in Targets(before.selected + [t]) <==> s in Targets(before.selected) || s == t.to
      {
        TargetsNext(before.selected, t, s);
      }
    }
  }

  lemma {:induction false} GreedyAdmissible(bounds: Counts, counts: Counts, candidates: seq<Transition>)
    ensures Admissible(bounds, counts, candidates, Greedy(bounds, counts, candidates))
  {
    if candidates != [] {
      var front, last := candidates[..|candidates| - 1], candidates[|candidates| - 1];
      GreedyAdmissible(bounds, counts, front);
      AdmitKeeps(bounds, counts, front, last, Greedy(bounds, counts, front));
      assert candidates == front + [last];
    }
  }

  lemma {:induction false} InTargets(transitions: seq<Transition>, s: State)
    ensures s in Targets(transitions) <==> exists t :: t in transitions && t.to == s
  {
    if transitions != [] {
      var front, last := transitions[..|transitions| - 1], transitions[|transitions| - 1];
      InTargets(front, s);
      assert transitions == front + [last];
    }
  }

  lemma {:induction false} GreedyDistinct(bounds: Counts, counts: Counts, candidates: seq<Transition>)
    requires Distinct(candidates)
    ensures Distinct(Greedy(bounds, counts, candidates).selected)
  {
    if candidates != [] {
      var front, last := candidates[..|candidates| - 1], candidates[|candidates| - 1];
      GreedyDistinct(bounds, counts, front);
      GreedyAdmissible(bounds, counts, front);
      assert last !in front;
    }
  }

  // Order of consideration: declared transitions first, in their priority order.

  function TransitionPriority(model: StateModel, t: Transition): nat {
    EdgePosition(model.transitions, Edge(t.from, t.to))
  }

  /** Position of an edge; the number of edges when it is not declared. */
  function EdgePosition(edges: seq<Edge>, e: Edge): (k: nat)
    ensures k <= |edges| && (k < |edges| ==> edges[k] == e) && (k == |edges| <==> e !in edges)
  {
    if edges == [] then 0 else if edges[0] == e then 0 else 1 + EdgePosition(edges[1..], e)
  }

  /** Grouping by priority and walking the groups in order is a stable sort. */
  function Prioritized(model: StateModel, candidates: seq<Transition>): seq<Transition> {
    SortBy((a: Transition, b: Transition) => TransitionPriority(model, a) <= TransitionPriority(model, b), candidates)
  }

  lemma PrioritizedPermutes(model: StateModel, candidates: seq<Transition>)
    ensures forall t :: t in Prioritized(model, candidates) <==> t in candidates
    ensures Distinct(candidates) ==> Distinct(Prioritized(model, candidates))
  {
    SortPermutes((a: Transition, b: Transition) => TransitionPriority(model, a) <= TransitionPriority(model, b),
                 candidates);
    if Distinct(candidates) {
      PermutationDistinct(candidates, Prioritized(model, candidates));
    }
  }

  lemma PermutationDistinct<T>(a: seq<T>, b: seq<T>)
    requires Distinct(a) && multiset(a) == multiset(b)
    ensures Distinct(b)
  {
    forall i, j | 0 <= i < j < |b|
      ensures b[i] != b[j]
    {
      if b[i] == b[j] {
        TwiceInMultiset(b, i, j);
        OnceInMultiset(a, b[i]);
      }
    }
  }

  lemma TwiceInMultiset<T>(s: seq<T>, i: nat, j: nat)
    requires i < j < |s| && s[i] == s[j]
    ensures multiset(s)[s[i]] >= 2
  {
    assert s == s[..j] + [s[j]] + s[j + 1..];
    assert s[..j][i] == s[j];
    assert s[j] in multiset(s[..j]);
  }

  lemma {:induction false} OnceInMultiset<T>(s: seq<T>, x: T)
    requires Distinct(s)
    ensures multiset(s)[x] <= 1
  {
    if s != [] {
      var front, last := s[..|s| - 1], s[|s| - 1];
      OnceInMultiset(front, x);
      assert s == front + [last];
      if x == last {
        assert x !in front;
        assert x !in multiset(front);
      }
    }
  }

  // One partition, and all of them.

  function InPartition(transitions: seq<Transition>, p: PartitionId): seq<Transition> {
    if transitions == [] then []
    else
      var front, last := InPartition(transitions[..|transitions| - 1], p), transitions[|transitions| - 1];
      if last.partition == p then front + [last] else front
  }

  lemma {:induction false} InPartitionFilters(transitions: seq<Transition>, p: PartitionId)
    ensures forall t :: t in InPartition(transitions, p) <==> t in transitions && t.partition == p
    ensures Distinct(transitions) ==> Distinct(InPartition(transitions, p))
  {
    if transitions != [] {
      var front, last := transitions[..|transitions| - 1], transitions[|transitions| - 1];
      InPartitionFilters(front, p);
      assert transitions == front + [last];
      if Distinct(transitions) {
        assert last !in front;
      }
    }
  }

  /** The requests selected in one partition. */
  function Chosen(model: StateModel, live: set<InstanceId>, current: Replicas, pending: seq<Transition>,
                  candidates: seq<Transition>): seq<Transition>
  {
    var bounds := Bounds(model, |live|);
    Greedy(bounds, CountAll(bounds, Observed(model, live, current, pending)), Prioritized(model, candidates)).selected
  }

  function ChosenIn(model: StateModel, live: set<InstanceId>, current: ReplicaStates, pending: seq<Transition>,
                    candidates: seq<Transition>, p: PartitionId): seq<Transition>
  {
    Chosen(model, live, ReplicasOf(current, p), InPartition(pending, p), InPartition(candidates, p))
  }

  function ChosenAcross(model: StateModel, live: set<InstanceId>, current: ReplicaStates, pending: seq<Transition>,
                        candidates: seq<Transition>, partitions: seq<PartitionId>): seq<Transition>
  {
    if partitions == [] then []
    else
      ChosenAcross(model, live, current, pending, candidates, partitions[..|partitions| - 1])
      + ChosenIn(model, live, current, pending, candidates, partitions[|partitions| - 1])
  }

  function PartitionsOf(transitions: seq<Transition>): set<PartitionId> {
    set t | t in transitions :: t.partition
  }

  function Selected(ideal: IdealState, current: ReplicaStates, live: set<InstanceId>, candidates: seq<Transition>,
                    pending: seq<Transition>, model: StateModel): seq<Transition>
  {
    ChosenAcross(model, live, current, pending, candidates, SortedKeys(ideal.lists.Keys + PartitionsOf(candidates)))
  }

  lemma ChosenFrom(model: StateModel, live: set<InstanceId>, current: Replicas, pending: seq<Transition>,
                   candidates: seq<Transition>)
    ensures forall t | t in Chosen(model, live, current, pending, candidates) :: t in candidates
    ensures Distinct(candidates) ==> Distinct(Chosen(model, live, current, pending, candidates))
  {
    var bounds := Bounds(model, |live|);
    var counts := CountAll(bounds, Observed(model, live, current, pending));
    PrioritizedPermutes(model, candidates);
    hide Prioritized, CountAll, Observed, Bounds, Greedy;
    GreedyAdmissible(bounds, counts, Prioritized(model, candidates));
    if Distinct(candidates) {
      GreedyDistinct(bounds, counts, Prioritized(model, candidates));
    }
  }

  lemma ChosenInFrom(model: StateModel, live: set<InstanceId>, current: ReplicaStates, pending: seq<Transition>,
                     candidates: seq<Transition>, p: PartitionId)
    ensures forall t | t in ChosenIn(model, live, current, pending, candidates, p) ::
              t in candidates && t.partition == p
    ensures Distinct(candidates) ==> Distinct(ChosenIn(model, live, current, pending, candidates, p))
  {
    hide Chosen, InPartition;
    InPartitionFilters(candidates, p);
    ChosenFrom(model, live, ReplicasOf(current, p), InPartition(pending, p), InPartition(candidates, p));
  }

  lemma {:induction false} InChosenAcross(model: StateModel, live: set<InstanceId>, current: ReplicaStates,
                                          pending: seq<Transition>,
                                          candidates: seq<Transition>, partitions: seq<PartitionId>, t: Transition)
    ensures t in ChosenAcross(model, live, current, pending, candidates, partitions) <==>
            t.partition in partitions && t in ChosenIn(model, live, current, pending, candidates, t.partition)
  {
    hide ChosenIn;
    if partitions != [] {
      var front, p := partitions[..|partitions| - 1], partitions[|partitions| - 1];
      InChosenAcross(model, live, current, pending, candidates, front, t);
      ChosenInFrom(model, live, current, pending, candidates, p);
      assert partitions == front + [p];
    }
  }

  /** Selection keeps, in every partition, exactly what that partition's greedy choice keeps. */
  lemma InSelected(ideal: IdealState, current: ReplicaStates, live: set<InstanceId>, candidates: seq<Transition>,
                   pending: seq<Transition>, model: StateModel, t: Transition)
    ensures t in Selected(ideal, current, live, candidates, pending, model) <==>
            t in ChosenIn(model, live, current, pending, candidates, t.partition)
    ensures t in Selected(ideal, current, live, candidates, pending, model) ==> t in candidates
  {
    hide ChosenIn, ChosenAcross;
    var partitions := SortedKeys(ideal.lists.Keys + PartitionsOf(candidates));
    InChosenAcross(model, live, current, pending, candidates, partitions, t);
    ChosenInFrom(model, live, current, pending, candidates, t.partition);
  }

  // What the choice means for the cardinalities of a state model.

  /** How many replicas of a partition may hold a state: fixed counts and one per live node are limits. */
  function LimitOf(model: StateModel, live: nat, s: State): Option<nat> {
    if s !in model.states || s !in model.cardinalities then None
    else match model.cardinalities[s]
      case Exact(count) => Some(count)
      case NodeCount => Some(live)
      case ReplicaCount => None
      case Unbounded => None
  }

  lemma BoundsAreLimits(model: StateModel, live: nat, s: State)
    ensures s in Bounds(model, live) <==> LimitOf(model, live, s).Some?
    ensures s in Bounds(model, live) ==> LimitOf(model, live, s) == Some(Bounds(model, live)[s])
  {
  }

  lemma {:induction false} GreedyGrows(bounds: Counts, counts: Counts, ordered: seq<Transition>, k: nat)
    requires k <= |ordered|
    ensures Greedy(bounds, counts, ordered[..k]).selected <= Greedy(bounds, counts, ordered).selected
  {
    if k == |ordered| {
      assert ordered[..k] == ordered;
    } else {
      var front := ordered[..|ordered| - 1];
      GreedyGrows(bounds, counts, front, k);
      assert front[..k] == ordered[..k];
    }
  }

  /** A step that is not chosen was refused by a bound that was full in its turn. */
  lemma RefusedInTurn(bounds: Counts, counts: Counts, ordered: seq<Transition>, t: Transition) returns (k: nat)
    requires t in ordered && t !in Greedy(bounds, counts, ordered).selected
    ensures k < |ordered| && ordered[k] == t
    ensures Full(bounds, Greedy(bounds, counts, ordered[..k]).counts, t.to)
  {
    hide Full;
    k :| 0 <= k < |ordered| && ordered[k] == t;
    GreedyGrows(bounds, counts, ordered, k + 1);
    assert ordered[..k + 1][..k] == ordered[..k];
    var before, after := Greedy(bounds, counts, ordered[..k]), Greedy(bounds, counts, ordered[..k + 1]);
    assert after == Admit(bounds, before, t);
    assert !Full(bounds, before.counts, t.to) ==> after.selected == before.selected + [t];
    assert forall u | u in after.selected :: u in Greedy(bounds, counts, ordered).selected;
    assert t in before.selected + [t];
  }

  lemma ByPriority(model: StateModel, candidates: seq<Transition>, k: nat, u: Transition)
    requires k < |Prioritized(model, candidates)| && u in Prioritized(model, candidates)[..k]
    ensures EdgePosition(model.transitions, Edge(u.from, u.to))
         <= EdgePosition(model.transitions, Edge(Prioritized(model, candidates)[k].from,
                                                 Prioritized(model, candidates)[k].to))
  {
    var le := (a: Transition, b: Transition) => TransitionPriority(model, a) <= TransitionPriority(model, b);
    hide EdgePosition;
    SortSorts(le, candidates);
    var ordered := Prioritized(model, candidates);
    var j :| 0 <= j < k && ordered[j] == u;
    assert le(ordered[j], ordered[k]);
  }

  /** Chosen steps never bring a limited state over its limit, counting what the live replicas hold and
      both ends of pending steps. */
  lemma ChosenWithinLimit(model: StateModel, live: set<InstanceId>, current: Replicas, pending: seq<Transition>,
                          candidates: seq<Transition>, t: Transition)
    requires t in Chosen(model, live, current, pending, candidates) && LimitOf(model, |live|, t.to).Some?
    ensures Occurrences(Observed(model, live, current, pending), t.to)
          + Occurrences(Targets(Chosen(model, live, current, pending, candidates)), t.to)
         <= LimitOf(model, |live|, t.to).value
  {
    var bounds, observed := Bounds(model, |live|), Observed(model, live, current, pending);
    var ordered := Prioritized(model, candidates);
    BoundsAreLimits(model, |live|, t.to);
    hide Bounds, Observed, Prioritized, Greedy, CountAll, Targets, Occurrences, LimitOf;
    CountAllCounts(bounds, observed, t.to);
    GreedyAdmissible(bounds, CountAll(bounds, observed), ordered);
    InTargets(Greedy(bounds, CountAll(bounds, observed), ordered).selected, t.to);
  }

  /** A candidate is left out only if its target's limit is reached by what is there and by chosen steps
      that are declared no later than it. */
  lemma LeftOutByPriority(model: StateModel, live: set<InstanceId>, current: Replicas, pending: seq<Transition>,
                          candidates: seq<Transition>, t: Transition)
    returns (first: seq<Transition>)
    requires t in candidates && t !in Chosen(model, live, current, pending, candidates)
    ensures first <= Chosen(model, live, current, pending, candidates)
    ensures forall u | u in first ::
              EdgePosition(model.transitions, Edge(u.from, u.to)) <= EdgePosition(model.transitions, Edge(t.from, t.to))
    ensures LimitOf(model, |live|, t.to).Some?
    ensures LimitOf(model, |live|, t.to).value
         <= Occurrences(Observed(model, live, current, pending), t.to) + Occurrences(Targets(first), t.to)
  {
    var bounds, observed := Bounds(model, |live|), Observed(model, live, current, pending);
    var ordered, counts := Prioritized(model, candidates), CountAll(bounds, observed);
    BoundsAreLimits(model, |live|, t.to);
    PrioritizedPermutes(model, candidates);
    hide Bounds, Observed, Prioritized, Greedy, CountAll, Targets, Occurrences, LimitOf, EdgePosition;
    var k := RefusedInTurn(bounds, counts, ordered, t);
    first := Greedy(bounds, counts, ordered[..k]).selected;
    GreedyGrows(bounds, counts, ordered, k);
    CountAllCounts(bounds, observed, t.to);
    GreedyAdmissible(bounds, counts, ordered[..k]);
    forall u | u in first
      ensures EdgePosition(model.transitions, Edge(u.from, u.to))
           <= EdgePosition(model.transitions, Edge(t.from, t.to))
    {
      ByPriority(model, candidates, k, u);
    }
  }

  // Validation.

  /** `is_drop_path`: a step toward DROPPED in a partition that still has replicas. */
  ghost predicate DropPath(current: ReplicaStates, model: StateModel, t: Transition) {
    Dropped in model.states && t.partition in current && model.NextToward(t.from, Dropped) == Some(t.to)
  }

  ghost predicate KnownPartition(ideal: IdealState, current: ReplicaStates, model: StateModel, t: Transition) {
    t.partition in ideal.lists || DropPath(current, model, t)
  }

  predicate SameKey(a: Transition, b: Transition) {
    a.partition == b.partition && a.instance == b.instance
  }

  ghost predicate OnePerReplica(pending: seq<Transition>) {
    forall i, j | 0 <= i < j < |pending| :: !SameKey(pending[i], pending[j])
  }

  ghost predicate Selectable(resource: ResourceId, ideal: IdealState, current: ReplicaStates,
                             candidates: seq<Transition>,
                             pending: seq<Transition>, model: StateModel)
  {
    && (forall t | t in candidates :: t.resource == resource && KnownPartition(ideal, current, model, t))
    && (forall t | t in pending :: KnownPartition(ideal, current, model, t))
    && OnePerReplica(pending)
  }

  /** What each error reports. */
  ghost predicate Blames(error: SelectionError, resource: ResourceId, ideal: IdealState, current: ReplicaStates,
                         candidates: seq<Transition>, pending: seq<Transition>, model: StateModel)
  {
    match error
    case CandidateResourceMismatch(expected, actual) =>
      expected == resource && actual != resource && exists t :: t in candidates && t.resource == actual
    case UnknownCandidatePartition(p) =>
      exists t :: t in candidates && t.partition == p && !KnownPartition(ideal, current, model, t)
    case UnknownPendingPartition(p) =>
      exists t :: t in pending && t.partition == p && !KnownPartition(ideal, current, model, t)
    case DuplicatePendingTransition(p, i) =>
      exists j, k ::
        && 0 <= j < k < |pending| && SameKey(pending[j], pending[k])
        && pending[k].partition == p && pending[k].instance == i
  }

  /** `is_drop_path`. */
  method IsDropPath(current: ReplicaStates, model: StateModel, t: Transition) returns (onPath: bool)
    ensures onPath <==> DropPath(current, model, t)
  {
    if Dropped !in model.states || t.partition !in current {
      return false;
    }
    var hop := model.NextToward(t.from, Dropped);
    onPath := hop.Some? && hop.value == t.to;
  }

  /** A partition that has a list, or a step on the way to DROPPED. */
  method IsKnown(ideal: IdealState, current: ReplicaStates, model: StateModel, t: Transition) returns (known: bool)
    ensures known <==> KnownPartition(ideal, current, model, t)
  {
    hide DropPath;
    known := t.partition in ideal.lists;
    if !known {
      known := IsDropPath(current, model, t);
    }
  }

  method CheckInputs(resource: ResourceId, ideal: IdealState, current: ReplicaStates, candidates: seq<Transition>,
                     pending: seq<Transition>, model: StateModel) returns (error: Option<SelectionError>)
    ensures error.None? <==> Selectable(resource, ideal, current, candidates, pending, model)
    ensures error.Some? ==> Blames(error.value, resource, ideal, current, candidates, pending, model)
  {
    hide KnownPartition;
    for k := 0 to |candidates|
      invariant forall j | 0 <= j < k ::
          candidates[j].resource == resource && KnownPartition(ideal, current, model, candidates[j])
    {
      var t := candidates[k];
      assert t in candidates;
      if t.resource != resource {
        return Some(CandidateResourceMismatch(resource, t.resource));
      }
      var known := IsKnown(ideal, current, model, t);
      if !known {
        return Some(UnknownCandidatePartition(t.partition));
      }
    }
    var keys: set<(PartitionId, InstanceId)> := {};
    for k := 0 to |pending|
      invariant forall j | 0 <= j < k :: KnownPartition(ideal, current, model, pending[j])
      invariant forall i, j | 0 <= i < j < k :: !SameKey(pending[i], pending[j])
      invariant keys == set j | 0 <= j < k :: (pending[j].partition, pending[j].instance)
    {
      var t := pending[k];
      assert t in pending;
      var known := IsKnown(ideal, current, model, t);
      if !known {
        return Some(UnknownPendingPartition(t.partition));
      }
      if (t.partition, t.instance) in keys {
        var j :| 0 <= j < k && (pending[j].partition, pending[j].instance) == (t.partition, t.instance);
        assert SameKey(pending[j], pending[k]);
        return Some(DuplicatePendingTransition(t.partition, t.instance));
      }
      keys := keys + {(t.partition, t.instance)};
    }
    error := None;
  }

  method CountObserved(model: StateModel, bounds: Counts, live: set<InstanceId>, current: Replicas,
                       pending: seq<Transition>)
    returns (counts: Counts)
    ensures counts == CountAll(bounds, Observed(model, live, current, pending))
  {
    var instances := SortedKeys(live);
    counts := map[];
    for k := 0 to |instances|
      invariant counts == CountAll(bounds, LiveStates(model, instances[..k], current))
    {
      var i := instances[k];
      counts := Increase(bounds, counts, if i in current then current[i] else model.initial);
      LiveStatesNext(model, bounds, instances, current, k);
    }
    assert instances[..|instances|] == instances;
    ghost var observed := LiveStates(model, instances, current);
    assert observed + PendingStates([]) == observed;
    for k := 0 to |pending|
      invariant counts == CountAll(bounds, observed + PendingStates(pending[..k]))
    {
      counts := Increase(bounds, counts, pending[k].to);
      counts := Increase(bounds, counts, pending[k].from);
      PendingStatesNext(bounds, observed, pending, k);
    }
    assert pending[..|pending|] == pending;
  }

  lemma CountAllNext(bounds: Counts, states: seq<State>, s: State)
    ensures CountAll(bounds, states + [s]) == Increase(bounds, CountAll(bounds, states), s)
  {
    assert (states + [s])[..|states|] == states;
  }

  lemma LiveStatesNext(model: StateModel, bounds: Counts, instances: seq<InstanceId>, current: Replicas, k: nat)
    requires k < |instances|
    ensures CountAll(bounds, LiveStates(model, instances[..k + 1], current))
         == Increase(bounds, CountAll(bounds, LiveStates(model, instances[..k], current)),
                     LiveState(model, current, instances[k]))
  {
    assert instances[..k + 1][..k] == instances[..k];
    CountAllNext(bounds, LiveStates(model, instances[..k], current),
                 if instances[k] in current then current[instances[k]] else model.initial);
  }

  lemma PendingStatesNext(bounds: Counts, observed: seq<State>, pending: seq<Transition>, k: nat)
    requires k < |pending|
    ensures CountAll(bounds, observed + PendingStates(pending[..k + 1]))
         == Increase(bounds,
                     Increase(bounds, CountAll(bounds, observed + PendingStates(pending[..k])),
                              pending[k].to), pending[k].from)
  {
    assert pending[..k + 1][..k] == pending[..k];
    var before := observed + PendingStates(pending[..k]);
    CountAllNext(bounds, before, pending[k].to);
    CountAllNext(bounds, before + [pending[k].to], pending[k].from);
    assert observed + PendingStates(pending[..k + 1]) == before + [pending[k].to] + [pending[k].from];
  }

  lemma GreedyNext(bounds: Counts, counts: Counts, ordered: seq<Transition>, k: nat)
    requires k < |ordered|
    ensures Greedy(bounds, counts, ordered[..k + 1]) == Admit(bounds, Greedy(bounds, counts, ordered[..k]), ordered[k])
  {
    assert ordered[..k + 1][..k] == ordered[..k];
  }

  method SelectInPartition(model: StateModel, bounds: Counts, live: set<InstanceId>, current: Replicas,
                           pending: seq<Transition>,
                           candidates: seq<Transition>) returns (selected: seq<Transition>)
    requires bounds == Bounds(model, |live|)
    ensures selected == Chosen(model, live, current, pending, candidates)
  {
    var counts := CountObserved(model, bounds, live, current, pending);
    ghost var base := counts;
    var ordered := Prioritized(model, candidates);
    selected := [];
    assert Greedy(bounds, base, []) == Tally(base, []);
    hide Greedy, Prioritized;
    for k := 0 to |ordered|
      invariant Greedy(bounds, base, ordered[..k]) == Tally(counts, selected)
    {
      var t := ordered[k];
      GreedyNext(bounds, base, ordered, k);
      if t.to in bounds && Count(counts, t.to) + 1 > bounds[t.to] {
        continue;
      }
      counts := Increase(bounds, counts, t.to);
      selected := selected + [t];
    }
    assert ordered[..|ordered|] == ordered;
  }

  lemma ChosenAcrossNext(model: StateModel, live: set<InstanceId>, current: ReplicaStates, pending: seq<Transition>,
                         candidates: seq<Transition>, partitions: seq<PartitionId>, k: nat)
    requires k < |partitions|
    ensures ChosenAcross(model, live, current, pending, candidates, partitions[..k + 1])
         == ChosenAcross(model, live, current, pending, candidates, partitions[..k])
            + ChosenIn(model, live, current, pending, candidates, partitions[k])
  {
    assert partitions[..k + 1][..k] == partitions[..k];
  }

  lemma NoCandidatesNoneChosen(model: StateModel, live: set<InstanceId>, current: Replicas, pending: seq<Transition>)
    ensures Chosen(model, live, current, pending, []) == []
  {
  }

  /** `select_transitions`. */
  method SelectTransitions(resource: ResourceId, ideal: IdealState, current: ReplicaStates, live: set<InstanceId>,
                           candidates: seq<Transition>, pending: seq<Transition>, model: StateModel)
    returns (r: Result<seq<Transition>, SelectionError>)
    ensures r.Ok? <==> Selectable(resource, ideal, current, candidates, pending, model)
    ensures r.Ok? ==> r.value == Selected(ideal, current, live, candidates, pending, model)
    ensures r.Err? ==> Blames(r.error, resource, ideal, current, candidates, pending, model)
  {
    var error := CheckInputs(resource, ideal, current, candidates, pending, model);
    if error.Some? {
      return Err(error.value);
    }
    hide Blames, Selectable;
    var bounds := Bounds(model, |live|);
    var partitions := SortedKeys(ideal.lists.Keys + PartitionsOf(candidates));
    var selected := [];
    assert ChosenAcross(model, live, current, pending, candidates, []) == [];
    hide ChosenAcross, Chosen, InPartition, Bounds;
    for k := 0 to |partitions|
      invariant selected == ChosenAcross(model, live, current, pending, candidates, partitions[..k])
    {
      var p := partitions[k];
      ChosenAcrossNext(model, live, current, pending, candidates, partitions, k);
      var here := InPartition(candidates, p);
      if here == [] {
        NoCandidatesNoneChosen(model, live, ReplicasOf(current, p), InPartition(pending, p));
        continue;
      }
      var chosen := SelectInPartition(model, bounds, live, ReplicasOf(current, p), InPartition(pending, p), here);
      selected := selected + chosen;
    }
    assert partitions[..|partitions|] == partitions;
    r := Ok(selected);
  }
}
