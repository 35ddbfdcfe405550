/** The best-possible state of an explicit placement (`semi_auto.rs`). */
module BestPossible {
  import opened Types
  import opened Ordering
  import opened StateModels

  datatype DuplicateReplica = DuplicateReplica(partition: PartitionId, instance: InstanceId)

  /** `ReplicaStates::insert`, which refuses a second state for one replica. */
  function SetState(states: ReplicaStates, p: PartitionId, i: InstanceId,
                    s: State): Result<ReplicaStates, DuplicateReplica> {
    if StateOf(states, p, i).Some? then Err(DuplicateReplica(p, i))
    else Ok(states[p := (if p in states then states[p] else map[])[i := s]])
  }

  /** The builder refuses exactly a replica that has a state, and otherwise sets its state alone. */
  lemma SetStateRefuses(states: ReplicaStates, p: PartitionId, i: InstanceId, s: State)
    ensures SetState(states, p, i, s).Err? <==> p in states && i in states[p]
    ensures SetState(states, p, i, s).Ok? ==> forall q, j ::
      StateOf(SetState(states, p, i, s).value, q, j) == if q == p && j == i then Some(s) else StateOf(states, q, j)
  {
  }

  /** The fixed inputs of one partition's assignment: `replicas` is the length of its preference
      list and `candidates` the number of live instances on it. */
  datatype Request = Request(model: StateModel, current: Replicas, replicas: nat, candidates: nat) {
    function CurrentOr(i: InstanceId): State {
      if i in current then current[i] else model.initial
    }

    /** Position of an instance's state; unknown and missing states come last. */
    function Priority(i: InstanceId): nat {
      if i in current then IndexOf(model.states, current[i]) else |model.states|
    }

    /** How many replicas a state asks for. */
    function Wanted(s: State): nat {
      if s !in model.cardinalities then 0
      else match model.cardinalities[s]
        case Exact(count) => count
        case ReplicaCount => replicas
        case NodeCount => candidates
        case Unbounded => 0
    }

    predicate SecondTop(s: State)
      requires model.states != []
    {
      s in model.states && model.NextToward(s, model.Top()) == Some(model.Top())
    }
  }

  /** The live preferred instances, by the priority of their current states. */
  function Ranked(q: Request, active: seq<InstanceId>): seq<InstanceId> {
    SortBy((a: InstanceId, b: InstanceId) => q.Priority(a) <= q.Priority(b), active)
  }

  function LivePreferred(preferred: seq<InstanceId>, live: set<InstanceId>): (r: seq<InstanceId>)
    ensures |r| <= |preferred|
    ensures forall i :: i in r <==> i in preferred && i in live
    ensures Distinct(preferred) ==> Distinct(r)
  {
    if preferred == [] then []
    else
      var front := LivePreferred(preferred[..|preferred| - 1], live);
      var last := preferred[|preferred| - 1];
      assert preferred == preferred[..|preferred| - 1] + [last];
      if last in live then front + [last] else front
  }

  /** The positions of `list` at which an instance is live, in order, and the instances there. */
  ghost predicate LiveAt(list: seq<InstanceId>, live: set<InstanceId>, positions: seq<nat>, found: seq<InstanceId>) {
    && |positions| == |found|
    && (forall a, b | 0 <= a < b < |positions| :: positions[a] < positions[b])
    && (forall a | 0 <= a < |positions| :: positions[a] < |list| && list[positions[a]] == found[a])
    && (forall k | 0 <= k < |list| :: k in positions <==> list[k] in live)
  }

  lemma LiveAtNext(list: seq<InstanceId>, live: set<InstanceId>, positions: seq<nat>, found: seq<InstanceId>,
                   i: InstanceId)
    requires LiveAt(list, live, positions, found)
    ensures i in live ==> LiveAt(list + [i], live, positions + [|list|], found + [i])
    ensures i !in live ==> LiveAt(list + [i], live, positions, found)
  {
    var more, next := list + [i], positions + [|list|];
    forall k | 0 <= k < |list|
      ensures more[k] == list[k] && (k in next <==> k in positions)
    {
    }
    assert next[|positions|] == |list|;
    assert |list| !in positions;
  }

  lemma LiveAtNone(live: set<InstanceId>)
    ensures LivePreferred([], live) == [] && LiveAt([], live, [], [])
  {
  }

  lemma LivePreferredNext(list: seq<InstanceId>, live: set<InstanceId>, i: InstanceId)
    ensures LivePreferred(list + [i], live) == LivePreferred(list, live) + if i in live then [i] else []
  {
    assert (list + [i])[..|list|] == list;
  }

  /** The live preferred instances are those at the live positions of the list, in list order. */
  lemma {:induction false} LivePositions(preferred: seq<InstanceId>, live: set<InstanceId>)
    returns (positions: seq<nat>)
    ensures LiveAt(preferred, live, positions, LivePreferred(preferred, live))
  {
    hide LivePreferred, LiveAt;
    if preferred == [] {
      LiveAtNone(live);
      positions := [];
    } else {
      var front, i := preferred[..|preferred| - 1], preferred[|preferred| - 1];
      assert preferred == front + [i];
      var before := LivePositions(front, live);
      LivePreferredNext(front, live, i);
      LiveAtNext(front, live, before, LivePreferred(front, live), i);
      assert LivePreferred(front, live) + [] == LivePreferred(front, live);
      positions := if i in live then before + [|front|] else before;
    }
  }

  lemma LivePlace(list: seq<InstanceId>, live: set<InstanceId>, positions: seq<nat>, found: seq<InstanceId>, k: nat)
    returns (a: nat)
    requires LiveAt(list, live, positions, found) && k < |list| && list[k] in live
    ensures a < |positions| && positions[a] == k && found[a] == list[k]
  {
    a :| 0 <= a < |positions| && positions[a] == k;
  }

  // The assignment loop. `ranked` is the iterator it consumes across all states.

  datatype Fill = Fill(queue: seq<InstanceId>, ranked: seq<InstanceId>, placed: Replicas)

  /** The first unassigned instance the iterator yields, and what is left of it. */
  function NextRanked(ranked: seq<InstanceId>, placed: Replicas): (Option<InstanceId>, seq<InstanceId>) {
    if ranked == [] then (None, [])
    else if ranked[0] !in placed then (Some(ranked[0]), ranked[1..])
    else NextRanked(ranked[1..], placed)
  }

  /** `adjust_instance_if_necessary`: the instance to take instead of the queue's front, and the iterator after it. */
  function Adjust(q: Request, f: Fill, s: State, wanted: nat): (InstanceId, seq<InstanceId>)
    requires q.model.states != [] && f.queue != []
  {
    var front := f.queue[0];
    var state := q.CurrentOr(front);
    if wanted < q.candidates - |f.placed| && s == q.model.Top() && state != s && !q.SecondTop(state) then
      var (candidate, rest) := NextRanked(f.ranked, f.placed);
      (if candidate.Some? then candidate.value else front, rest)
    else
      (front, f.ranked)
  }

  /** One assignment: the chosen instance receives the state, and leaves the queue if it was at its front. */
  function Taken(q: Request, f: Fill, s: State, wanted: nat): Fill
    requires q.model.states != [] && f.queue != []
  {
    var (chosen, ranked) := Adjust(q, f, s, wanted);
    Fill(if chosen == f.queue[0] then f.queue[1..] else f.queue, ranked, f.placed[chosen := s])
  }

  /** Gives `s` to up to `wanted` more instances. */
  function FillState(q: Request, f: Fill, s: State, wanted: nat): Fill
    requires q.model.states != []
    decreases wanted + |f.queue|
  {
    if wanted == 0 || f.queue == [] then f
    else if f.queue[0] in f.placed then FillState(q, f.(queue := f.queue[1..]), s, wanted)
    else FillState(q, Taken(q, f, s, wanted), s, wanted - 1)
  }

  function FillStates(q: Request, f: Fill, states: seq<State>): Fill
    requires q.model.states != []
    decreases |states|
  {
    if states == [] then f
    else FillStates(q, FillState(q, f, states[0], q.Wanted(states[0])), states[1..])
  }

  function RequestFor(model: StateModel, current: Replicas, preferred: seq<InstanceId>,
                      live: set<InstanceId>): Request {
    Request(model, current, |preferred|, |LivePreferred(preferred, live)|)
  }

  /** The states assigned to the live instances of one preference list. */
  function Assigned(model: StateModel, current: Replicas, preferred: seq<InstanceId>, live: set<InstanceId>): Replicas
    requires model.states != []
  {
    var q, active := RequestFor(model, current, preferred, live), LivePreferred(preferred, live);
    FillStates(q, Fill(active, Ranked(q, active), map[]), model.states).placed
  }

  // What the loop keeps.

  function Elements(s: seq<InstanceId>): set<InstanceId> {
    set i | i in s
  }

  ghost predicate Keeps(active: set<InstanceId>, f: Fill) {
    && (forall i | i in f.queue :: i in active)
    && (forall i | i in f.ranked :: i in active)
    && f.placed.Keys <= active
    && (forall i | i in active && i !in f.placed :: i in f.queue)
  }

  function Min(a: nat, b: nat): nat {
    if a <= b then a else b
  }

  lemma {:induction false} NextRankedYields(ranked: seq<InstanceId>, placed: Replicas)
    ensures var (c, rest) := NextRanked(ranked, placed);
            && (c.Some? ==> c.value in ranked && c.value !in placed)
            && (forall i | i in rest :: i in ranked)
  {
    if ranked != [] && ranked[0] in placed {
      NextRankedYields(ranked[1..], placed);
    }
  }

  lemma AdjustYields(q: Request, active: set<InstanceId>, f: Fill, s: State, wanted: nat)
    requires q.model.states != [] && Keeps(active, f) && f.queue != [] && f.queue[0] !in f.placed
    ensures var (chosen, ranked) := Adjust(q, f, s, wanted);
            && chosen in active && chosen !in f.placed
            && (forall i | i in ranked :: i in active)
  {
    NextRankedYields(f.ranked, f.placed);
  }

  /** One round of the loop: some unplaced active instance receives the state. */
  lemma StepKeeps(q: Request, active: set<InstanceId>, f: Fill, s: State, wanted: nat)
    returns (g: Fill, chosen: InstanceId)
    requires q.model.states != [] && Keeps(active, f) && wanted > 0 && f.queue != [] && f.queue[0] !in f.placed
    ensures g == Taken(q, f, s, wanted) && chosen == Adjust(q, f, s, wanted).0
    ensures FillState(q, f, s, wanted) == FillState(q, g, s, wanted - 1)
    ensures Keeps(active, g) && chosen in active && chosen !in f.placed && g.placed == f.placed[chosen := s]
    ensures |g.queue| <= |f.queue|
  {
    AdjustYields(q, active, f, s, wanted);
    chosen := Adjust(q, f, s, wanted).0;
    g := Taken(q, f, s, wanted);
    assert f.queue == [f.queue[0]] + f.queue[1..];
  }

  /** `g` adds exactly `n` instances to `f`, all in state `s`. */
  ghost predicate Extends(f: Replicas, g: Replicas, s: State, n: nat) {
    && f.Keys <= g.Keys && |g.Keys| == |f.Keys| + n
    && (forall i | i in f :: g[i] == f[i])
    && (forall i | i in g && i !in f :: g[i] == s)
  }

  /** `g` extends `placed` by `s` only, to exactly as many instances as wanted or as are left. */
  ghost predicate Fills(active: set<InstanceId>, placed: Replicas, g: Fill, s: State, wanted: nat) {
    && |placed.Keys| <= |active|
    && Keeps(active, g)
    && Extends(placed, g.placed, s, Min(wanted, |active| - |placed.Keys|))
  }

  lemma FillsDone(active: set<InstanceId>, f: Fill, s: State, wanted: nat)
    requires Keeps(active, f) && (wanted == 0 || f.queue == [])
    ensures Fills(active, f.placed, f, s, wanted)
  {
    SubsetSize(f.placed.Keys, active);
    if f.queue == [] {
      assert f.placed.Keys == active;
    }
  }

  lemma FillsOneMore(active: set<InstanceId>, placed: Replicas, more: Replicas, i: InstanceId, g: Fill, s: State,
                     wanted: nat)
    requires i in active && i !in placed && more == placed[i := s] && wanted > 0
    requires Fills(active, more, g, s, wanted - 1)
    ensures Fills(active, placed, g, s, wanted)
  {
    assert more.Keys == placed.Keys + {i};
  }

  lemma SkipKeeps(active: set<InstanceId>, f: Fill)
    requires Keeps(active, f) && f.queue != [] && f.queue[0] in f.placed
    ensures Keeps(active, f.(queue := f.queue[1..]))
  {
    assert f.queue == [f.queue[0]] + f.queue[1..];
  }

  lemma FillStateStops(q: Request, f: Fill, s: State, wanted: nat)
    requires q.model.states != [] && (wanted == 0 || f.queue == [])
    ensures FillState(q, f, s, wanted) == f
  {
  }

  lemma FillStateSkips(q: Request, f: Fill, s: State, wanted: nat)
    requires q.model.states != [] && wanted > 0 && f.queue != [] && f.queue[0] in f.placed
    ensures FillState(q, f, s, wanted) == FillState(q, f.(queue := f.queue[1..]), s, wanted)
  {
  }

  /** Filling one state takes exactly as many unplaced instances as it asks for or as are left. */
  lemma {:induction false} FillStateExact(q: Request, active: set<InstanceId>, f: Fill, s: State, wanted: nat)
    requires q.model.states != [] && Keeps(active, f)
    ensures Fills(active, f.placed, FillState(q, f, s, wanted), s, wanted)
    decreases wanted + |f.queue|
  {
    hide *;
    if wanted == 0 || f.queue == [] {
      FillStateStops(q, f, s, wanted);
      FillsDone(active, f, s, wanted);
    } else if f.queue[0] in f.placed {
      SkipKeeps(active, f);
      FillStateSkips(q, f, s, wanted);
      FillStateExact(q, active, f.(queue := f.queue[1..]), s, wanted);
    } else {
      var g, chosen := StepKeeps(q, active, f, s, wanted);
      FillStateExact(q, active, g, s, wanted - 1);
      FillsOneMore(active, f.placed, g.placed, chosen, FillState(q, g, s, wanted - 1), s, wanted);
    }
  }

  lemma SubsetSize<T>(a: set<T>, b: set<T>)
    requires a <= b
    ensures |a| <= |b|
    ensures |a| == |b| ==> a == b
  {
    assert b == a + (b - a);
    assert |b| == |a| + |b - a|;
  }

  /** How many instances each state is granted when states are served strictly in order. */
  function Granted(wanted: seq<nat>, available: nat): (r: seq<nat>)
    ensures |r| == |wanted|
  {
    if wanted == [] then []
    else [Min(wanted[0], available)] + Granted(wanted[1..], available - Min(wanted[0], available))
  }

  function Demands(q: Request, states: seq<State>): (r: seq<nat>)
    ensures |r| == |states|
  {
    if states == [] then [] else [q.Wanted(states[0])] + Demands(q, states[1..])
  }

  function Holders(placed: Replicas, s: State): set<InstanceId> {
    set i | i in placed && placed[i] == s
  }

  /** `g` extends `f` with states of `states`, each held by its grant. */
  ghost predicate Serves(f: Replicas, g: Replicas, states: seq<State>, grants: seq<nat>)
    requires |grants| == |states|
  {
    && (forall i | i in f :: i in g && g[i] == f[i])
    && (forall i | i in g && i !in f :: g[i] in states)
    && (forall k | 0 <= k < |states| :: |Holders(g, states[k])| == grants[k])
  }

  ghost predicate Avoids(placed: Replicas, states: seq<State>) {
    forall i | i in placed :: placed[i] !in states
  }

  lemma AvoidsRest(f: Replicas, f1: Replicas, states: seq<State>, n: nat)
    requires states != [] && Distinct(states) && Avoids(f, states) && Extends(f, f1, states[0], n)
    ensures Avoids(f1, states[1..])
  {
    assert states == [states[0]] + states[1..];
  }

  lemma ServesFirst(f: Replicas, f1: Replicas, g: Replicas, states: seq<State>, n: nat)
    requires states != [] && Distinct(states) && Avoids(f, states)
    requires Extends(f, f1, states[0], n)
    requires forall i | i in f1 :: i in g && g[i] == f1[i]
    requires forall i | i in g && i !in f1 :: g[i] in states[1..]
    ensures |Holders(g, states[0])| == n
  {
    assert states[0] !in states[1..];
    assert forall i | i in f :: f[i] != states[0];
    assert Holders(g, states[0]) == f1.Keys - f.Keys;
    assert f1.Keys == f.Keys + (f1.Keys - f.Keys);
  }

  lemma ServesOneMore(f: Replicas, f1: Replicas, g: Replicas, states: seq<State>, n: nat, grants: seq<nat>)
    requires states != [] && |grants| == |states| - 1 && Distinct(states) && Avoids(f, states)
    requires Extends(f, f1, states[0], n) && Serves(f1, g, states[1..], grants)
    ensures Serves(f, g, states, [n] + grants)
  {
    forall k | 0 <= k < |states|
      ensures |Holders(g, states[k])| == ([n] + grants)[k]
    {
      if k == 0 {
        ServesFirst(f, f1, g, states, n);
      } else {
        assert states[k] == states[1..][k - 1];
        assert |Holders(g, states[1..][k - 1])| == grants[k - 1];
      }
    }
    forall i | i in g && i !in f
      ensures g[i] in states
    {
      if i in f1 {
        assert g[i] == states[0];
      } else {
        assert g[i] in states[1..];
      }
    }
  }

  lemma FillStatesUnfolds(q: Request, f: Fill, states: seq<State>, available: nat)
    requires q.model.states != [] && states != []
    ensures FillStates(q, f, states) == FillStates(q, FillState(q, f, states[0], q.Wanted(states[0])), states[1..])
    ensures var n := Min(q.Wanted(states[0]), available);
            Granted(Demands(q, states), available) == [n] + Granted(Demands(q, states[1..]), available - n)
  {
    assert Demands(q, states)[1..] == Demands(q, states[1..]);
  }

  lemma {:induction false} FillStatesServe(q: Request, active: set<InstanceId>, f: Fill, states: seq<State>)
    requires q.model.states != [] && Keeps(active, f) && Distinct(states) && Avoids(f.placed, states)
    ensures |f.placed.Keys| <= |active| && FillStates(q, f, states).placed.Keys <= active
    ensures Serves(f.placed, FillStates(q, f, states).placed, states,
                   Granted(Demands(q, states), |active| - |f.placed.Keys|))
    decreases |states|
  {
    assert |f.placed.Keys| <= |active| by {
      SubsetSize(f.placed.Keys, active);
    }
    if states != [] {
      var s, available := states[0], |active| - |f.placed.Keys|;
      var f1 := FillState(q, f, s, q.Wanted(s));
      var n := Min(q.Wanted(s), available);
      assert Keeps(active, f1) && Extends(f.placed, f1.placed, s, n) && |f1.placed.Keys| == |f.placed.Keys| + n by {
        FillStateExact(q, active, f, s, q.Wanted(s));
      }
      ServeRest(q, active, f, f1, states, n);
    }
  }

  lemma {:induction false} ServeRest(q: Request, active: set<InstanceId>, f: Fill, f1: Fill, states: seq<State>, n: nat)
    requires q.model.states != [] && states != [] && Distinct(states) && Avoids(f.placed, states)
    requires f1 == FillState(q, f, states[0], q.Wanted(states[0]))
    requires Keeps(active, f1) && Extends(f.placed, f1.placed, states[0], n)
    requires |f.placed.Keys| <= |active| && |f1.placed.Keys| == |f.placed.Keys| + n
    requires n == Min(q.Wanted(states[0]), |active| - |f.placed.Keys|)
    ensures FillStates(q, f, states).placed.Keys <= active
    ensures Serves(f.placed, FillStates(q, f, states).placed, states,
                   Granted(Demands(q, states), |active| - |f.placed.Keys|))
    decreases |states|, 0
  {
    hide *;
    AvoidsRest(f.placed, f1.placed, states, n);
    FrontDistinct(states);
    FillStatesServe(q, active, f1, states[1..]);
    var grants := Granted(Demands(q, states[1..]), |active| - |f1.placed.Keys|);
    ServesOneMore(f.placed, f1.placed, FillStates(q, f1, states[1..]).placed, states, n, grants);
    FillStatesUnfolds(q, f, states, |active| - |f.placed.Keys|);
  }

  lemma FrontDistinct(states: seq<State>)
    requires states != [] && Distinct(states)
    ensures Distinct(states[1..])
  {
  }

  /** For every state model, the assignment serves states strictly in priority order: each is held by
      exactly as many live preferred instances as it asks for, or as the states above it left over. */
  lemma StatesServedInPriorityOrder(model: StateModel, current: Replicas, preferred: seq<InstanceId>,
                                    live: set<InstanceId>)
    requires model.states != [] && Distinct(model.states) && Distinct(preferred)
    ensures var placed, active := Assigned(model, current, preferred, live), LivePreferred(preferred, live);
            && placed.Keys <= Elements(active)
            && Serves(map[], placed, model.states,
                      Granted(Demands(RequestFor(model, current, preferred, live), model.states), |active|))
  {
    var q, active := RequestFor(model, current, preferred, live), LivePreferred(preferred, live);
    assert |Elements(active)| == |active| by {
      DistinctSize(active);
    }
    assert Keeps(Elements(active), Fill(active, Ranked(q, active), map[])) by {
      StartKeeps(q, active);
    }
    assert Avoids(map[], model.states);
    hide Keeps, Serves, FillStates, Ranked;
    FillStatesServe(q, Elements(active), Fill(active, Ranked(q, active), map[]), model.states);
  }

  lemma StartKeeps(q: Request, active: seq<InstanceId>)
    ensures Keeps(Elements(active), Fill(active, Ranked(q, active), map[]))
  {
    SortPermutes((a: InstanceId, b: InstanceId) => q.Priority(a) <= q.Priority(b), active);
  }

  lemma {:induction false} DistinctSize(s: seq<InstanceId>)
    requires Distinct(s)
    ensures |Elements(s)| == |s|
  {
    if s != [] {
      var front, last := s[..|s| - 1], s[|s| - 1];
      DistinctSize(front);
      assert s == front + [last];
      assert last !in front;
      assert Elements(s) == Elements(front) + {last};
    }
  }

  // The same by cardinality.

  lemma {:induction false} GrantedAt(wanted: seq<nat>, available: nat, k: nat)
    requires k < |wanted|
    ensures Total(Granted(wanted, available)[..k]) <= available
    ensures Granted(wanted, available)[k] == Min(wanted[k], available - Total(Granted(wanted, available)[..k]))
  {
    if k > 0 {
      var n := Min(wanted[0], available);
      var rest := Granted(wanted[1..], available - n);
      GrantedAt(wanted[1..], available - n, k - 1);
      assert Granted(wanted, available)[..k] == [n] + rest[..k - 1];
      assert ([n] + rest[..k - 1])[1..] == rest[..k - 1];
    }
  }

  function Total(s: seq<nat>): nat {
    if s == [] then 0 else s[0] + Total(s[1..])
  }

  lemma {:induction false} TotalNext(s: seq<nat>, k: nat)
    requires k < |s|
    ensures Total(s[..k + 1]) == Total(s[..k]) + s[k]
  {
    if k > 0 {
      TotalNext(s[1..], k - 1);
      assert s[..k + 1][1..] == s[1..][..k] && s[..k][1..] == s[1..][..k - 1];
    }
  }

  /** The instances that hold one of some states. */
  function HoldersAmong(placed: Replicas, states: seq<State>): set<InstanceId> {
    set i | i in placed && placed[i] in states
  }

  lemma {:induction false} HoldersAdd(placed: Replicas, states: seq<State>, grants: seq<nat>, k: nat)
    requires Distinct(states) && |grants| == |states| && k <= |states|
    requires forall j | 0 <= j < |states| :: |Holders(placed, states[j])| == grants[j]
    ensures |HoldersAmong(placed, states[..k])| == Total(grants[..k])
  {
    if k == 0 {
      assert HoldersAmong(placed, states[..k]) == {};
    } else {
      var s := states[k - 1];
      HoldersAdd(placed, states, grants, k - 1);
      TotalNext(grants, k - 1);
      assert states[..k] == states[..k - 1] + [s] && s !in states[..k - 1];
      assert HoldersAmong(placed, states[..k]) == HoldersAmong(placed, states[..k - 1]) + Holders(placed, s);
    }
  }

  lemma {:induction false} DemandsAt(q: Request, states: seq<State>, k: nat)
    requires k < |states|
    ensures Demands(q, states)[k] == q.Wanted(states[k])
  {
    if k > 0 {
      DemandsAt(q, states[1..], k - 1);
    }
  }

  /** For every state model, of the live preferred instances that the states above leave over, a state with
      a fixed count takes that many or all, one that asks for every replica or every node takes all, and
      any other state none. */
  lemma HoldersByCardinality(model: StateModel, current: Replicas, preferred: seq<InstanceId>, live: set<InstanceId>,
                             k: nat)
    requires Distinct(model.states) && Distinct(preferred) && k < |model.states|
    ensures var placed, s := Assigned(model, current, preferred, live), model.states[k];
            var left := |set i | i in preferred && i in live| - |HoldersAmong(placed, model.states[..k])|;
            && left >= 0
            && |Holders(placed, s)|
               == if s !in model.cardinalities then 0
                  else match model.cardinalities[s]
                    case Exact(count) => if count <= left then count else left
                    case ReplicaCount => left
                    case NodeCount => left
                    case Unbounded => 0
  {
    hide Assigned, LivePreferred, Serves, Granted, Demands;
    var q, active := RequestFor(model, current, preferred, live), LivePreferred(preferred, live);
    var placed := Assigned(model, current, preferred, live);
    var grants := Granted(Demands(q, model.states), |active|);
    StatesServedInPriorityOrder(model, current, preferred, live);
    ServesHolders(map[], placed, model.states, grants);
    HoldersAdd(placed, model.states, grants, k);
    GrantedAt(Demands(q, model.states), |active|, k);
    DemandsAt(q, model.states, k);
    DistinctSize(active);
    assert Elements(active) == set i | i in preferred && i in live;
  }

  lemma ServesHolders(f: Replicas, g: Replicas, states: seq<State>, grants: seq<nat>)
    requires |grants| == |states| && Serves(f, g, states, grants)
    ensures forall j | 0 <= j < |states| :: |Holders(g, states[j])| == grants[j]
  {
  }

  // Who receives a state.

  /** The queue is what is left of the list, and everything before it has its state. */
  ghost predicate Suffix(active: seq<InstanceId>, f: Fill) {
    exists n | 0 <= n <= |active| :: f.queue == active[n..] && forall k | 0 <= k < n :: active[k] in f.placed
  }

  lemma SuffixSkips(active: seq<InstanceId>, f: Fill, g: Fill)
    requires Suffix(active, f) && f.queue != [] && f.queue[0] in g.placed && f.placed.Keys <= g.placed.Keys
    requires g.queue == f.queue[1..]
    ensures Suffix(active, g)
  {
    var n :| 0 <= n <= |active| && f.queue == active[n..] && forall k | 0 <= k < n :: active[k] in f.placed;
    assert g.queue == active[n + 1..];
  }

  lemma SuffixStays(active: seq<InstanceId>, f: Fill, g: Fill)
    requires Suffix(active, f) && f.placed.Keys <= g.placed.Keys && g.queue == f.queue
    ensures Suffix(active, g)
  {
    var n :| 0 <= n <= |active| && f.queue == active[n..] && forall k | 0 <= k < n :: active[k] in f.placed;
    assert forall k | 0 <= k < n :: active[k] in g.placed;
  }

  lemma TakenKeepsSuffix(q: Request, active: seq<InstanceId>, f: Fill, s: State, wanted: nat)
    requires q.model.states != [] && f.queue != [] && Suffix(active, f)
    ensures Suffix(active, Taken(q, f, s, wanted)) && f.placed.Keys <= Taken(q, f, s, wanted).placed.Keys
  {
    hide Suffix, Adjust;
    var g := Taken(q, f, s, wanted);
    if g.queue == f.queue {
      SuffixStays(active, f, g);
    } else {
      SuffixSkips(active, f, g);
    }
  }

  /** New holders of a state come after nobody who has none. */
  ghost predicate NoneSkipped(active: seq<InstanceId>, f: Replicas, g: Replicas) {
    forall a, b | 0 <= a < b < |active| && active[b] in g && active[b] !in f :: active[a] in g
  }

  lemma FrontIsNext(q: Request, active: seq<InstanceId>, f: Fill, s: State, wanted: nat)
    requires q.model.states != [] && s != q.model.Top() && f.queue != [] && Suffix(active, f) && Distinct(active)
    ensures NoneSkipped(active, f.placed, Taken(q, f, s, wanted).placed)
  {
    var n :| 0 <= n <= |active| && f.queue == active[n..] && forall k | 0 <= k < n :: active[k] in f.placed;
    assert Adjust(q, f, s, wanted).0 == active[n];
  }

  /** Below the top state, a state goes to the first instances of the list that have none. */
  lemma {:induction false} FillStateInOrder(q: Request, active: seq<InstanceId>, f: Fill, s: State, wanted: nat)
    requires q.model.states != [] && Keeps(Elements(active), f) && Suffix(active, f) && Distinct(active)
    ensures Suffix(active, FillState(q, f, s, wanted)) && f.placed.Keys <= FillState(q, f, s, wanted).placed.Keys
    ensures s != q.model.Top() ==> NoneSkipped(active, f.placed, FillState(q, f, s, wanted).placed)
    decreases wanted + |f.queue|
  {
    hide *;
    if wanted == 0 || f.queue == [] {
      FillStateStops(q, f, s, wanted);
      NoneSkippedYet(active, f.placed);
    } else if f.queue[0] in f.placed {
      var g := f.(queue := f.queue[1..]);
      SkipKeeps(Elements(active), f);
      FillStateSkips(q, f, s, wanted);
      SuffixSkips(active, f, g);
      FillStateInOrder(q, active, g, s, wanted);
    } else {
      var g, chosen := StepKeeps(q, Elements(active), f, s, wanted);
      TakenKeepsSuffix(q, active, f, s, wanted);
      FillStateInOrder(q, active, g, s, wanted - 1);
      if s != q.model.Top() {
        FrontIsNext(q, active, f, s, wanted);
        NoneSkippedThen(active, f.placed, g.placed, FillState(q, g, s, wanted - 1).placed);
      }
    }
  }

  lemma NoneSkippedYet(active: seq<InstanceId>, f: Replicas)
    ensures NoneSkipped(active, f, f)
  {
  }

  lemma NoneSkippedThen(active: seq<InstanceId>, f: Replicas, g: Replicas, h: Replicas)
    requires NoneSkipped(active, f, g) && NoneSkipped(active, g, h) && g.Keys <= h.Keys
    ensures NoneSkipped(active, f, h)
  {
  }

  /** Below the top state, whoever comes earlier on the list has a state, and none further down. */
  ghost predicate ListOrder(states: seq<State>, active: seq<InstanceId>, placed: Replicas) {
    forall a, b | 0 <= a < b < |active| && active[b] in placed && states != [] && placed[active[b]] != states[0] ::
      active[a] in placed && IndexOf(states, placed[active[a]]) <= IndexOf(states, placed[active[b]])
  }

  ghost predicate AllAmong(placed: Replicas, states: seq<State>) {
    forall i | i in placed :: placed[i] in states
  }

  lemma ListOrderGrows(states: seq<State>, active: seq<InstanceId>, k: nat, f: Replicas, g: Replicas, n: nat)
    requires Distinct(states) && k < |states| && ListOrder(states, active, f)
    requires AllAmong(f, states[..k]) && Extends(f, g, states[k], n) && (k > 0 ==> NoneSkipped(active, f, g))
    ensures ListOrder(states, active, g) && AllAmong(g, states[..k + 1])
  {
    assert states[..k + 1] == states[..k] + [states[k]];
    assert IndexOf(states, states[k]) == k;
    assert forall s | s in states[..k] :: IndexOf(states, s) < k;
    hide IndexOf;
    forall a, b | 0 <= a < b < |active| && active[b] in g && g[active[b]] != states[0]
      ensures active[a] in g && IndexOf(states, g[active[a]]) <= IndexOf(states, g[active[b]])
    {
      if active[b] in f {
        assert f[active[b]] != states[0] && active[a] in f;
      } else {
        assert g[active[b]] == states[k] && k > 0;
      }
    }
  }

  lemma FillsExtends(active: set<InstanceId>, placed: Replicas, g: Fill, s: State, wanted: nat) returns (n: nat)
    requires Fills(active, placed, g, s, wanted)
    ensures Keeps(active, g) && Extends(placed, g.placed, s, n)
  {
    n := Min(wanted, |active| - |placed.Keys|);
  }

  lemma FillStatesNext(q: Request, f: Fill, k: nat)
    requires q.model.states != [] && k < |q.model.states|
    ensures var s := q.model.states[k];
            FillStates(q, f, q.model.states[k..])
            == FillStates(q, FillState(q, f, s, q.Wanted(s)), q.model.states[k + 1..])
  {
    hide FillState;
    assert q.model.states[k..][1..] == q.model.states[k + 1..];
  }

  lemma FillStatesEnd(q: Request, f: Fill)
    requires q.model.states != []
    ensures FillStates(q, f, q.model.states[|q.model.states|..]) == f
  {
  }

  lemma {:induction false} FillStatesInOrder(q: Request, active: seq<InstanceId>, f: Fill, k: nat)
    requires q.model.states != [] && Distinct(q.model.states) && Distinct(active) && k <= |q.model.states|
    requires Keeps(Elements(active), f) && Suffix(active, f) && ListOrder(q.model.states, active, f.placed)
    requires AllAmong(f.placed, q.model.states[..k])
    ensures ListOrder(q.model.states, active, FillStates(q, f, q.model.states[k..]).placed)
    decreases |q.model.states| - k
  {
    hide *;
    if k < |q.model.states| {
      var g := OrderStep(q, active, f, k);
      FillStatesNext(q, f, k);
      FillStatesInOrder(q, active, g, k + 1);
    } else {
      FillStatesEnd(q, f);
    }
  }

  lemma OrderStep(q: Request, active: seq<InstanceId>, f: Fill, k: nat) returns (g: Fill)
    requires q.model.states != [] && Distinct(q.model.states) && Distinct(active) && k < |q.model.states|
    requires Keeps(Elements(active), f) && Suffix(active, f) && ListOrder(q.model.states, active, f.placed)
    requires AllAmong(f.placed, q.model.states[..k])
    ensures g == FillState(q, f, q.model.states[k], q.Wanted(q.model.states[k]))
    ensures Keeps(Elements(active), g) && Suffix(active, g) && ListOrder(q.model.states, active, g.placed)
    ensures AllAmong(g.placed, q.model.states[..k + 1])
  {
    var s := q.model.states[k];
    assert k > 0 ==> s != q.model.Top();
    hide *;
    g := FillState(q, f, s, q.Wanted(s));
    FillStateExact(q, Elements(active), f, s, q.Wanted(s));
    FillStateInOrder(q, active, f, s, q.Wanted(s));
    var n := FillsExtends(Elements(active), f.placed, g, s, q.Wanted(s));
    ListOrderGrows(q.model.states, active, k, f.placed, g.placed, n);
  }

  lemma AssignedInOrder(model: StateModel, current: Replicas, preferred: seq<InstanceId>, live: set<InstanceId>)
    requires Distinct(model.states) && model.states != [] && Distinct(preferred)
    ensures ListOrder(model.states, LivePreferred(preferred, live), Assigned(model, current, preferred, live))
  {
    hide Keeps, Ranked, FillStates, LivePreferred, ListOrder;
    var q, active := RequestFor(model, current, preferred, live), LivePreferred(preferred, live);
    var f := Fill(active, Ranked(q, active), map[]);
    StartKeeps(q, active);
    assert f.queue == active[0..];
    assert model.states[0..] == model.states;
    NoOrderYet(model.states, active);
    FillStatesInOrder(q, active, f, 0);
  }

  lemma NoOrderYet(states: seq<State>, active: seq<InstanceId>)
    ensures ListOrder(states, active, map[])
  {
  }

  /** For every state model, the states below the top one go down the preference list: whoever comes before
      the holder of such a state holds that state or a higher one. */
  lemma ListServedInOrder(model: StateModel, current: Replicas, preferred: seq<InstanceId>, live: set<InstanceId>,
                          a: nat, b: nat)
    requires Distinct(model.states) && model.states != [] && Distinct(preferred) && a < b < |preferred|
    requires preferred[a] in live
    ensures var placed := Assigned(model, current, preferred, live);
            preferred[b] in placed && placed[preferred[b]] != model.Top() ==>
              && preferred[a] in placed
              && IndexOf(model.states, placed[preferred[a]]) <= IndexOf(model.states, placed[preferred[b]])
  {
    var active, placed := LivePreferred(preferred, live), Assigned(model, current, preferred, live);
    AssignedInOrder(model, current, preferred, live);
    AssignedToLive(model, current, preferred, live);
    hide Assigned, IndexOf, LivePreferred, LiveAt, ListOrder;
    if preferred[b] in placed && placed[preferred[b]] != model.Top() {
      var positions := LivePositions(preferred, live);
      var x := LivePlace(preferred, live, positions, active, a);
      var y := LivePlace(preferred, live, positions, active, b);
      PlacesAscend(preferred, live, positions, active, x, y);
      OrderAt(model.states, active, placed, x, y);
    }
  }

  lemma AssignedToLive(model: StateModel, current: Replicas, preferred: seq<InstanceId>, live: set<InstanceId>)
    requires Distinct(model.states) && model.states != [] && Distinct(preferred)
    ensures forall i | i in Assigned(model, current, preferred, live) :: i in live
  {
    hide Assigned, Serves;
    StatesServedInPriorityOrder(model, current, preferred, live);
  }

  lemma PlacesAscend(list: seq<InstanceId>, live: set<InstanceId>, positions: seq<nat>, found: seq<InstanceId>, x: nat,
                     y: nat)
    requires LiveAt(list, live, positions, found) && x < |found| && y < |found| && positions[x] < positions[y]
    ensures x < y
  {
  }

  lemma OrderAt(states: seq<State>, active: seq<InstanceId>, placed: Replicas, a: nat, b: nat)
    requires states != [] && ListOrder(states, active, placed) && a < b < |active|
    requires active[b] in placed && placed[active[b]] != states[0]
    ensures active[a] in placed && IndexOf(states, placed[active[a]]) <= IndexOf(states, placed[active[b]])
  {
  }

  // Who receives the top state.

  /** At the top state or one step from it. */
  predicate Close(q: Request, i: InstanceId)
    requires q.model.states != []
  {
    q.CurrentOr(i) == q.model.Top() || q.SecondTop(q.CurrentOr(i))
  }

  /** What is left of the ranking: sorted, with everyone who has no state yet. */
  ghost predicate StillRanked(q: Request, active: seq<InstanceId>, f: Fill) {
    && (forall i, j | 0 <= i < j < |f.ranked| :: q.Priority(f.ranked[i]) <= q.Priority(f.ranked[j]))
    && (forall i | i in active && i !in f.placed :: i in f.ranked)
  }

  /** Whoever has a state without being close to the top one ranks no lower than anyone without. */
  ghost predicate BestFirst(q: Request, active: seq<InstanceId>, placed: Replicas)
    requires q.model.states != []
  {
    forall i, j | i in placed && !Close(q, i) && j in active && j !in placed :: q.Priority(i) <= q.Priority(j)
  }

  lemma {:induction false} NextRankedIsBest(q: Request, active: seq<InstanceId>, f: Fill)
    requires StillRanked(q, active, f) && exists i :: i in active && i !in f.placed
    ensures var (c, rest) := NextRanked(f.ranked, f.placed);
            && c.Some? && c.value !in f.placed
            && (forall j | j in active && j !in f.placed :: q.Priority(c.value) <= q.Priority(j))
            && StillRanked(q, active, f.(ranked := rest, placed := f.placed[c.value := q.model.initial]))
    decreases |f.ranked|
  {
    hide Request.Priority;
    assert f.ranked == [f.ranked[0]] + f.ranked[1..];
    if f.ranked[0] in f.placed {
      assert forall i | i in f.ranked && i !in f.placed :: i in f.ranked[1..];
      NextRankedIsBest(q, active, f.(ranked := f.ranked[1..]));
    }
  }

  /** One assignment of the top state while fewer are wanted than are left. */
  lemma TopTaken(q: Request, active: seq<InstanceId>, f: Fill, wanted: nat)
    requires q.model.states != [] && Keeps(Elements(active), f) && f.queue != [] && f.queue[0] !in f.placed
    requires wanted < q.candidates - |f.placed| && StillRanked(q, active, f) && BestFirst(q, active, f.placed)
    ensures var g := Taken(q, f, q.model.Top(), wanted);
            StillRanked(q, active, g) && BestFirst(q, active, g.placed)
  {
    hide Request.Priority, NextRanked, Request.SecondTop;
    var front := f.queue[0];
    assert front in active;
    NextRankedIsBest(q, active, f);
    var g := Taken(q, f, q.model.Top(), wanted);
    if Close(q, front) {
      assert g.placed == f.placed[front := q.model.Top()];
    } else {
      var c := NextRanked(f.ranked, f.placed).0.value;
      assert g.placed == f.placed[c := q.model.Top()];
    }
  }

  lemma {:induction false} TopFillsBestFirst(q: Request, active: seq<InstanceId>, f: Fill, wanted: nat)
    requires q.model.states != [] && Keeps(Elements(active), f) && wanted < q.candidates - |f.placed|
    requires StillRanked(q, active, f) && BestFirst(q, active, f.placed)
    ensures BestFirst(q, active, FillState(q, f, q.model.Top(), wanted).placed)
    decreases wanted + |f.queue|
  {
    hide *;
    var top := q.model.states[0];
    TopIs(q);
    if wanted == 0 || f.queue == [] {
      FillStateStops(q, f, top, wanted);
    } else if f.queue[0] in f.placed {
      SkipKeeps(Elements(active), f);
      FillStateSkips(q, f, top, wanted);
      SkipStaysRanked(q, active, f);
      TopFillsBestFirst(q, active, f.(queue := f.queue[1..]), wanted);
    } else {
      var g, chosen := StepKeeps(q, Elements(active), f, top, wanted);
      TopTaken(q, active, f, wanted);
      TopFillsBestFirst(q, active, g, wanted - 1);
    }
  }

  lemma TopIs(q: Request)
    requires q.model.states != []
    ensures q.model.Top() == q.model.states[0]
  {
  }

  lemma SkipStaysRanked(q: Request, active: seq<InstanceId>, f: Fill)
    requires StillRanked(q, active, f) && f.queue != []
    ensures StillRanked(q, active, f.(queue := f.queue[1..]))
  {
  }

  lemma RankedIsSorted(q: Request, active: seq<InstanceId>)
    ensures StillRanked(q, active, Fill(active, Ranked(q, active), map[]))
  {
    var le := (a: InstanceId, b: InstanceId) => q.Priority(a) <= q.Priority(b);
    hide Request.Priority;
    SortSorts(le, active);
    SortPermutes(le, active);
    var ranked := Ranked(q, active);
    assert forall i, j | 0 <= i < j < |ranked| :: le(ranked[i], ranked[j]);
  }

  /** The holders of the top state are those it was given to first. */
  lemma TopHolders(q: Request, active: seq<InstanceId>, f: Fill)
    requires q.model.states != [] && Distinct(q.model.states) && Distinct(active) && q.candidates == |active|
    requires f == Fill(active, Ranked(q, active), map[])
    ensures var g := FillState(q, f, q.model.Top(), q.Wanted(q.model.Top()));
            var placed := FillStates(q, f, q.model.states).placed;
            && (forall i :: i in g.placed <==> i in placed && placed[i] == q.model.Top())
            && BestFirst(q, active, g.placed)
  {
    hide Keeps, Ranked, FillState, LivePreferred, StillRanked, Request.Wanted, BestFirst;
    var top, states := q.model.Top(), q.model.states;
    StartKeeps(q, active);
    DistinctSize(active);
    FillStateExact(q, Elements(active), f, top, q.Wanted(top));
    var g := FillState(q, f, top, q.Wanted(top));
    assert Avoids(g.placed, states[1..]) && Distinct(states[1..]);
    FillStatesServe(q, Elements(active), g, states[1..]);
    assert FillStates(q, f, states) == FillStates(q, g, states[1..]);
    assert top !in states[1..];
    if q.Wanted(top) < |active| {
      RankedIsSorted(q, active);
      NobodyYet(q, active);
      TopFillsBestFirst(q, active, f, q.Wanted(top));
    } else {
      SubsetSize(g.placed.Keys, Elements(active));
      EverybodyHas(q, active, g.placed);
    }
  }

  lemma NobodyYet(q: Request, active: seq<InstanceId>)
    requires q.model.states != []
    ensures BestFirst(q, active, map[])
  {
  }

  lemma EverybodyHas(q: Request, active: seq<InstanceId>, placed: Replicas)
    requires q.model.states != [] && placed.Keys == Elements(active)
    ensures BestFirst(q, active, placed)
  {
  }

  /** For every state model, the top state passes over nobody who is nearer to it: if it goes to an instance
      that is not close to it, every live preferred instance without it has no higher a current state. */
  lemma TopGoesToTheBest(model: StateModel, current: Replicas, preferred: seq<InstanceId>, live: set<InstanceId>,
                         i: InstanceId, j: InstanceId)
    requires Distinct(model.states) && model.states != [] && Distinct(preferred)
    requires var placed := Assigned(model, current, preferred, live);
             && i in placed && placed[i] == model.Top() && !Close(RequestFor(model, current, preferred, live), i)
             && j in preferred && j in live && (j in placed ==> placed[j] != model.Top())
    ensures j in current && current[j] in model.states ==>
              i in current && IndexOf(model.states, current[i]) <= IndexOf(model.states, current[j])
  {
    var q, active := RequestFor(model, current, preferred, live), LivePreferred(preferred, live);
    var f := Fill(active, Ranked(q, active), map[]);
    hide Ranked, FillState, FillStates, LivePreferred, Close;
    TopHolders(q, active, f);
    var g := FillState(q, f, model.Top(), q.Wanted(model.Top()));
    assert i in g.placed && j !in g.placed && j in active;
    assert q.Priority(i) <= q.Priority(j);
  }

  // The whole stage.

  function Dropping(replicas: Replicas, kept: seq<InstanceId>): Replicas {
    map i | i in replicas && i !in kept :: Dropped
  }

  /** Replicas off the preference list are dropped; live ones on it are assigned. */
  function BestReplicas(model: StateModel, preferred: seq<InstanceId>, current: Replicas,
                        live: set<InstanceId>): Replicas
    requires model.states != []
  {
    Dropping(current, preferred) + Assigned(model, current, preferred, live)
  }

  function ReplicasOf(states: ReplicaStates, p: PartitionId): Replicas {
    if p in states then states[p] else map[]
  }

  /** The target of one partition; a partition without a preference list is drained. */
  function BestFor(ideal: IdealState, current: ReplicaStates, live: set<InstanceId>, model: StateModel,
                   p: PartitionId): Replicas
    requires model.states != []
  {
    if p in ideal.lists then BestReplicas(model, ideal.lists[p], ReplicasOf(current, p), live)
    else Dropping(ReplicasOf(current, p), [])
  }

  function BestPossibleState(ideal: IdealState, current: ReplicaStates, live: set<InstanceId>,
                             model: StateModel): ReplicaStates
    requires model.states != []
  {
    map p | p in ideal.lists.Keys + current.Keys && BestFor(ideal, current, live, model, p) != map[] ::
      BestFor(ideal, current, live, model, p)
  }

  // The stage writes every state through the duplicate-refusing builder, as it goes.

  function Written(output: ReplicaStates, p: PartitionId, replicas: Replicas): ReplicaStates {
    if replicas == map[] then output else output[p := replicas]
  }

  /** The part of the dropped replicas that covers the instances visited so far. */
  function Part(current: Replicas, kept: seq<InstanceId>, keys: seq<InstanceId>): Replicas {
    map i | i in current && i in keys && i !in kept :: Dropped
  }

  /** Writing a state for a replica that has none is accepted. */
  lemma WriteOne(base: ReplicaStates, p: PartitionId, part: Replicas, i: InstanceId, s: State)
    requires p !in base && i !in part
    ensures SetState(Written(base, p, part), p, i, s) == Ok(Written(base, p, part[i := s]))
  {
    assert i in part[i := s];
    if part != map[] {
      assert base[p := part][p := part[i := s]] == base[p := part[i := s]];
    }
  }

  /** DROPPED for every replica off the preference list. */
  method WriteDropped(base: ReplicaStates, p: PartitionId, current: Replicas, kept: seq<InstanceId>)
    returns (r: Result<ReplicaStates, DuplicateReplica>)
    requires p !in base
    ensures r == Ok(Written(base, p, Dropping(current, kept)))
  {
    hide SetState, Written;
    var output, keys := base, SortedKeys(current.Keys);
    assert output == Written(base, p, map[]) by {
      WrittenNothing(base, p);
    }
    PartEnds(current, kept, keys);
    hide Part;
    for k := 0 to |keys|
      invariant output == Written(base, p, Part(current, kept, keys[..k]))
    {
      AscendingFresh(keys, k);
      PartNext(current, kept, keys[..k], keys[k]);
      if keys[k] !in kept {
        WriteOne(base, p, Part(current, kept, keys[..k]), keys[k], Dropped);
        match SetState(output, p, keys[k], Dropped) {
          case Err(error) => return Err(error);
          case Ok(next) => output := next;
        }
      }
    }
    assert keys[..|keys|] == keys;
    r := Ok(output);
  }

  lemma WrittenNothing(base: ReplicaStates, p: PartitionId)
    ensures Written(base, p, map[]) == base
  {
  }

  lemma PartNext(current: Replicas, kept: seq<InstanceId>, keys: seq<InstanceId>, i: InstanceId)
    requires i in current && i !in keys
    ensures i !in Part(current, kept, keys)
    ensures Part(current, kept, keys + [i]) == if i in kept then Part(current, kept, keys) else Part(current, kept,
        keys)[i := Dropped]
  {
  }

  lemma PartEnds(current: Replicas, kept: seq<InstanceId>, keys: seq<InstanceId>)
    requires forall i :: i in keys <==> i in current
    ensures Part(current, kept, []) == map[] && Part(current, kept, keys) == Dropping(current, kept)
  {
  }

  lemma StepUnfolds(q: Request, active: set<InstanceId>, f: Fill, s: State, wanted: nat)
    requires q.model.states != [] && Keeps(active, f) && wanted > 0 && f.queue != [] && f.queue[0] !in f.placed
    ensures FillState(q, f, s, wanted) == FillState(q, Taken(q, f, s, wanted), s, wanted - 1)
    ensures |Taken(q, f, s, wanted).queue| <= |f.queue|
  {
    var g, chosen := StepKeeps(q, active, f, s, wanted);
  }

  /** One assignment, written at once; the builder accepts it because the instance had no state yet. */
  method TakeOne(q: Request, f: Fill, s: State, wanted: nat, written: ReplicaStates, p: PartitionId,
                 ghost active: set<InstanceId>, ghost base: ReplicaStates, ghost dropped: Replicas)
    returns (r: Result<(Fill, ReplicaStates), DuplicateReplica>)
    requires q.model.states != [] && Keeps(active, f) && wanted > 0 && f.queue != [] && f.queue[0] !in f.placed
    requires p !in base && dropped.Keys !! active && written == Written(base, p, dropped + f.placed)
    ensures r.Ok? && r.value.0 == Taken(q, f, s, wanted) && Keeps(active, r.value.0)
    ensures r.value.1 == Written(base, p, dropped + r.value.0.placed)
  {
    hide SetState, Written, Keeps, Adjust, FillState;
    ghost var g, c := StepKeeps(q, active, f, s, wanted);
    var (chosen, ranked) := Adjust(q, f, s, wanted);
    WriteOne(base, p, dropped + f.placed, chosen, s);
    assert dropped + f.placed[chosen := s] == (dropped + f.placed)[chosen := s];
    match SetState(written, p, chosen, s) {
      case Err(error) => return Err(error);
      case Ok(output) =>
        var queue := if chosen == f.queue[0] then f.queue[1..] else f.queue;
        r := Ok((Fill(queue, ranked, f.placed[chosen := s]), output));
    }
  }

  /** The loop over one state: takes up to `wanted` instances from the queue and writes each as it is taken. */
  method FillStateLoop(q: Request, start: Fill, s: State, wanted: nat, written: ReplicaStates, p: PartitionId,
                       ghost active: set<InstanceId>, ghost base: ReplicaStates, ghost dropped: Replicas)
    returns (r: Result<(Fill, ReplicaStates), DuplicateReplica>)
    requires q.model.states != [] && Keeps(active, start) && p !in base && dropped.Keys !! active
    requires written == Written(base, p, dropped + start.placed)
    ensures r.Ok? && r.value.0 == FillState(q, start, s, wanted) && Keeps(active, r.value.0)
    ensures r.value.1 == Written(base, p, dropped + r.value.0.placed)
  {
    hide *;
    var f, output, remaining: nat := start, written, wanted;
    while remaining > 0 && f.queue != []
      invariant FillState(q, f, s, remaining) == FillState(q, start, s, wanted)
      invariant Keeps(active, f) && output == Written(base, p, dropped + f.placed)
      decreases remaining + |f.queue|
    {
      var front := f.queue[0];
      if front in f.placed {
        SkipKeeps(active, f);
        FillStateSkips(q, f, s, remaining);
        f := f.(queue := f.queue[1..]);
      } else {
        StepUnfolds(q, active, f, s, remaining);
        var step := TakeOne(q, f, s, remaining, output, p, active, base, dropped);
        match step {
          case Err(error) => return Err(error);
          case Ok(next) => f, output := next.0, next.1;
        }
        remaining := remaining - 1;
      }
    }
    FillStateStops(q, f, s, remaining);
    r := Ok((f, output));
  }

  /** The loop over all states of one partition. */
  method AssignStates(model: StateModel, current: Replicas, preferred: seq<InstanceId>, live: set<InstanceId>,
                      written: ReplicaStates, p: PartitionId, ghost base: ReplicaStates)
    returns (r: Result<ReplicaStates, DuplicateReplica>)
    requires model.states != [] && p !in base && written == Written(base, p, Dropping(current, preferred))
    ensures r == Ok(Written(base, p, BestReplicas(model, preferred, current, live)))
  {
    hide Written;
    var active := LivePreferred(preferred, live);
    var q := Request(model, current, |preferred|, |active|);
    var f, output := Fill(active, Ranked(q, active), map[]), written;
    ghost var start, dropped := f, Dropping(current, preferred);
    StartKeeps(q, active);
    assert dropped + f.placed == dropped;
    assert dropped.Keys !! Elements(active);
    assert model.states[0..] == model.states;
    hide Keeps, Dropping, Ranked, Elements;
    for k := 0 to |model.states|
      invariant FillStates(q, f, model.states[k..]) == FillStates(q, start, model.states)
      invariant Keeps(Elements(active), f) && output == Written(base, p, dropped + f.placed)
    {
      var step := FillStateLoop(q, f, model.states[k], q.Wanted(model.states[k]), output, p, Elements(active), base,
                                dropped);
      match step {
        case Err(error) => return Err(error);
        case Ok(next) => f, output := next.0, next.1;
      }
      assert model.states[k..][1..] == model.states[k + 1..];
    }
    r := Ok(output);
  }

  lemma AscendingFresh(keys: seq<nat>, k: nat)
    requires Ascending(keys) && k < |keys|
    ensures keys[k] !in keys[..k] && keys[..k + 1] == keys[..k] + [keys[k]]
    ensures Elements(keys[..k + 1]) == Elements(keys[..k]) + {keys[k]}
  {
    assert keys[..k + 1] == keys[..k] + [keys[k]];
  }

  /** `compute_semi_auto_best_possible_state`: no duplicate is ever written, whatever the model. */
  method ComputeBestPossible(ideal: IdealState, current: ReplicaStates, live: set<InstanceId>, model: StateModel)
    returns (r: Result<ReplicaStates, DuplicateReplica>)
    requires model.states != []
    ensures r == Ok(BestPossibleState(ideal, current, live, model))
  {
    hide Restricted, Written, BestReplicas, Elements, Dropping;
    var output: ReplicaStates := map[];
    var placed, drained := SortedKeys(ideal.lists.Keys), SortedKeys(current.Keys - ideal.lists.Keys);
    RestrictedEnds(ideal, current, live, model, placed, drained);
    for k := 0 to |placed|
      invariant output == Restricted(ideal, current, live, model, Elements(placed[..k]))
    {
      var p := placed[k];
      AscendingFresh(placed, k);
      RestrictedGrows(ideal, current, live, model, placed[..k], p);
      var written := WriteDropped(output, p, ReplicasOf(current, p), ideal.lists[p]);
      if written.Err? {
        return written;
      }
      written := AssignStates(model, ReplicasOf(current, p), ideal.lists[p], live, written.value, p, output);
      if written.Err? {
        return written;
      }
      output := written.value;
    }
    for k := 0 to |drained|
      invariant output == Restricted(ideal, current, live, model, Elements(placed + drained[..k]))
    {
      var p := drained[k];
      AscendingFresh(drained, k);
      assert placed + drained[..k + 1] == placed + drained[..k] + [p];
      RestrictedGrows(ideal, current, live, model, placed + drained[..k], p);
      var written := WriteDropped(output, p, ReplicasOf(current, p), []);
      if written.Err? {
        return written;
      }
      output := written.value;
    }
    assert drained[..|drained|] == drained;
    r := Ok(output);
  }

  /** The part of the target that covers the partitions already written. */
  ghost function Restricted(ideal: IdealState, current: ReplicaStates, live: set<InstanceId>, model: StateModel,
                            done: set<PartitionId>): ReplicaStates
    requires model.states != []
  {
    map p | p in done && BestFor(ideal, current, live, model, p) != map[] :: BestFor(ideal, current, live, model, p)
  }

  lemma RestrictedGrows(ideal: IdealState, current: ReplicaStates, live: set<InstanceId>, model: StateModel,
                        done: seq<PartitionId>, p: PartitionId)
    requires model.states != [] && p !in done
    ensures p !in Restricted(ideal, current, live, model, Elements(done))
    ensures Restricted(ideal, current, live, model, Elements(done + [p]))
         == Written(Restricted(ideal, current, live, model, Elements(done)), p, BestFor(ideal, current, live, model, p))
  {
    hide BestFor;
    assert Elements(done + [p]) == Elements(done) + {p};
  }

  lemma RestrictedEnds(ideal: IdealState, current: ReplicaStates, live: set<InstanceId>, model: StateModel,
                       placed: seq<PartitionId>, drained: seq<PartitionId>)
    requires model.states != []
    requires forall p :: p in placed <==> p in ideal.lists
    requires forall p :: p in drained <==> p in current && p !in ideal.lists
    ensures Restricted(ideal, current, live, model, Elements([])) == map[]
    ensures placed[..|placed|] == placed && placed + drained[..0] == placed
    ensures Restricted(ideal, current, live, model, Elements(placed + drained)) == BestPossibleState(ideal, current,
        live, model)
  {
    assert Elements(placed + drained) == ideal.lists.Keys + current.Keys;
  }
}
