/** What the throttling stage's orders, classes, limits and results mean. */
module ThrottleLaws {
  import opened Types
  import opened Ordering
  import opened StateModels
  import opened BestPossible
  import opened Selection
  import opened Quotas
  import opened Throttle
  import opened Intermediate
  import opened ThrottleOrder
  import opened ThrottleCycle
  import LeaderStandby

  // Limits.

  /** Whether a configured limit speaks about a scope. */
  predicate Speaks(limit: Limit, scope: Scope) {
    match limit.target
    case WholeCluster => scope.Cluster?
    case EveryResource => scope.ResourceScope?
    case OneResource(r) => scope == ResourceScope(r)
    case EveryInstance => scope.InstanceScope?
    case OneInstance(i) => scope == InstanceScope(i)
  }

  /** The last limit of a type that speaks about a scope. */
  function LastLimit(limits: seq<Limit>, scope: Scope, ty: RebalanceType): Option<nat> {
    if limits == [] then None
    else
      var last := limits[|limits| - 1];
      if last.ty == ty && Speaks(last, scope) then Some(last.max) else LastLimit(limits[..|limits| - 1], scope, ty)
  }

  predicate KnownScope(names: set<ResourceId>, live: set<InstanceId>, scope: Scope) {
    match scope
    case Cluster => true
    case ResourceScope(r) => r in names
    case InstanceScope(i) => i in live
  }

  ghost predicate Tracks(table: QuotaTable, names: set<ResourceId>, live: set<InstanceId>) {
    table.resources.Keys == names && table.instances.Keys == live
  }

  function QuotaAt(table: QuotaTable, scope: Scope, ty: RebalanceType): Option<nat> {
    if ty in table.At(scope) then Some(table.At(scope)[ty]) else None
  }

  lemma ConfigureTracks(table: QuotaTable, names: set<ResourceId>, live: set<InstanceId>, limit: Limit)
    requires Tracks(table, names, live)
    ensures Tracks(Configure(table, limit), names, live)
  {
  }

  lemma ConfigureAtScope(table: QuotaTable, limit: Limit, scope: Scope)
    requires scope.ResourceScope? ==> scope.resource in table.resources
    requires scope.InstanceScope? ==> scope.instance in table.instances
    ensures Configure(table, limit).At(scope) == if Speaks(limit, scope) then Limited(table.At(scope),
        limit) else table.At(scope)
  {
    hide Limited;
  }

  lemma ConfigureSets(table: QuotaTable, names: set<ResourceId>, live: set<InstanceId>, limit: Limit, scope: Scope,
                      ty: RebalanceType)
    requires Tracks(table, names, live)
    ensures Tracks(Configure(table, limit), names, live)
    ensures QuotaAt(Configure(table, limit), scope, ty)
         == if KnownScope(names, live, scope) && limit.ty == ty
             && Speaks(limit, scope) then Some(limit.max) else QuotaAt(table, scope, ty)
  {
    hide Configure, Speaks;
    ConfigureTracks(table, names, live, limit);
    if KnownScope(names, live, scope) {
      ConfigureAtScope(table, limit, scope);
    }
  }

  /** The quotas a cycle starts from: for each known scope and type, the last limit that speaks about them. */
  lemma {:induction false} LastLimitWins(names: set<ResourceId>, live: set<InstanceId>, limits: seq<Limit>,
                                         scope: Scope, ty: RebalanceType)
    ensures QuotaAt(InitialTable(names, live, limits), scope, ty) == if KnownScope(names, live,
        scope) then LastLimit(limits, scope, ty) else None
    ensures Tracks(InitialTable(names, live, limits), names, live)
  {
    if limits != [] {
      var front := limits[..|limits| - 1];
      LastLimitWins(names, live, front, scope, ty);
      ConfigureSets(InitialTable(names, live, front), names, live, limits[|limits| - 1], scope, ty);
    }
  }

  // Required states of LeaderStandby.

  /** A partition needs one leader and, of its remaining live candidates and replicas, the fewer as standbys. */
  lemma LsRequired(input: ResourceInput, p: PartitionId, live: set<InstanceId>)
    ensures var n := |LivePreferred(ListOf(input, p), live)|;
            var replicas := if input.minActive.Some? then input.minActive.value else input.replicas;
            RequiredStates(input, p, live, LeaderStandby.Model())
            == if n == 0 then map[]
               else if n == 1 || replicas <= 1 then map[Leader := 1]
               else map[Leader := 1, Standby := Min(n - 1, replicas - 1)]
  {
    hide FixedNeeds, ReplicaNeed, LivePreferred;
    var n := |LivePreferred(ListOf(input, p), live)|;
    var replicas := if input.minActive.Some? then input.minActive.value else input.replicas;
    var m, start := LeaderStandby.Model(), Need(map[], n, replicas);
    var after := if n == 0 then start else Need(map[Leader := 1], n - 1, Monus(replicas, 1));
    assert FixedNeeds(m, start, m.states) == after by {
      LsFixed(start, after);
    }
    LsReplicaNeed(after);
  }

  lemma LsFixed(start: Need, after: Need)
    requires start.result == map[]
    requires after == if start.candidates == 0 then start
                      else Need(map[Leader := 1], start.candidates - 1, Monus(start.replicas, 1))
    ensures FixedNeeds(LeaderStandby.Model(), start, LeaderStandby.Model().states) == after
  {
    LsFixedNeed(start);
    LsFixedNeed(after);
    FourNeeds(LeaderStandby.Model(), start, LeaderStandby.Model().states);
    hide FixedNeeds, FixedNeed;
  }

  lemma FourNeeds(m: StateModel, n: Need, states: seq<State>)
    requires |states| == 4
    ensures var two := FixedNeed(m, FixedNeed(m, n, states[0]), states[1]);
            FixedNeeds(m, n, states) == FixedNeed(m, FixedNeed(m, two, states[2]), states[3])
  {
    hide FixedNeed;
    assert FixedNeeds(m, n, states[..0]) == n;
    hide FixedNeeds;
    FixedNeedsNext(m, n, states, 0);
    FixedNeedsNext(m, n, states, 1);
    FixedNeedsNext(m, n, states, 2);
    FixedNeedsNext(m, n, states, 3);
    assert states[..4] == states;
  }

  lemma LsFixedNeed(n: Need)
    ensures var m := LeaderStandby.Model();
            && FixedNeed(m, n, Leader) == (if n.candidates == 0 then n else Need(n.result[Leader := 1],
                n.candidates - 1, Monus(n.replicas, 1)))
            && FixedNeed(m, n, Standby) == n && FixedNeed(m, n, Offline) == n && FixedNeed(m, n, Dropped) == n
  {
  }

  lemma LsReplicaNeed(need: Need)
    ensures ReplicaNeed(LeaderStandby.Model(), need, LeaderStandby.Model().states)
         == if need.candidates > 0
             && need.replicas > 0 then need.result[Standby := Min(need.candidates, need.replicas)] else need.result
  {
    var m := LeaderStandby.Model();
    assert m.states[1..] == [Standby, Offline, Dropped];
    assert m.states[1..][1..] == [Offline, Dropped];
    assert m.states[1..][1..][1..] == [Dropped];
    assert ReplicaNeed(m, need, [Dropped]) == need.result;
    assert [Offline, Dropped][1..] == [Dropped];
    assert ReplicaNeed(m, need, [Offline, Dropped]) == need.result;
  }

  // Orders.

  /** Crossing states off a list of wanted ones counts the states the two have in common. */
  lemma {:induction false} CrossedOffIsOverlap(states: seq<State>, wanted: multiset<State>)
    ensures CrossedOff(states, wanted) == |multiset(states) * wanted|
  {
    if states == [] {
      assert multiset(states) * wanted == multiset{};
    } else {
      var s, rest := states[0], states[1..];
      assert states == [s] + rest;
      assert multiset(states) == multiset{s} + multiset(rest);
      if s in wanted {
        CrossedOffIsOverlap(rest, wanted - multiset{s});
        assert multiset(states) * wanted == multiset(rest) * (wanted - multiset{s}) + multiset{s};
      } else {
        CrossedOffIsOverlap(rest, wanted);
        assert multiset(states) * wanted == multiset(rest) * wanted;
      }
    }
  }

  lemma {:induction false} ValuesCount(replicas: Replicas, keys: seq<InstanceId>, s: State)
    requires forall i | i in keys :: i in replicas
    ensures multiset(ValuesOf(replicas, keys))[s] == CountHeld(replicas, keys, s)
  {
    if keys != [] {
      var front, last := keys[..|keys| - 1], keys[|keys| - 1];
      assert forall i | i in front :: i in keys;
      ValuesCount(replicas, front, s);
      assert last in keys;
    }
  }

  /** The states of a partition's replicas, each as often as it is held. */
  ghost function StatesHeld(replicas: Replicas): (held: multiset<State>)
    ensures forall s :: held[s] == |Holders(replicas, s)|
  {
    var keys := SortedKeys(replicas.Keys);
    assert forall s :: multiset(ValuesOf(replicas, keys))[s] == |Holders(replicas, s)| by {
      forall s
        ensures multiset(ValuesOf(replicas, keys))[s] == |Holders(replicas, s)|
      {
        ValuesCount(replicas, keys, s);
        CountHeldIsHolders(replicas, keys, s);
        assert HeldBy(replicas, keys, s) == Holders(replicas, s);
      }
    }
    multiset(ValuesOf(replicas, keys))
  }

  /** How far a partition has come: the states its replicas hold and its target also has, whoever holds them. */
  ghost function Overlap(input: ResourceInput, p: PartitionId): nat {
    |StatesHeld(ReplicasOf(input.current, p)) * StatesHeld(ReplicasOf(input.best, p))|
  }

  /** The replicas that already are at their own target. */
  ghost function Arrived(input: ResourceInput, p: PartitionId): set<InstanceId> {
    set i | i in ReplicasOf(input.current, p) && StateOf(input.best, p, i) == StateOf(input.current, p, i)
  }

  ghost predicate HasState(input: ResourceInput, p: PartitionId, s: State) {
    exists i :: StateOf(input.current, p, i) == Some(s)
  }

  lemma HoldersShow(input: ResourceInput, p: PartitionId, s: State)
    ensures HasState(input, p, s) <==> Holders(ReplicasOf(input.current, p), s) != {}
  {
    var current := ReplicasOf(input.current, p);
    if HasState(input, p, s) {
      var i :| StateOf(input.current, p, i) == Some(s);
      assert i in Holders(current, s);
    }
    if Holders(current, s) != {} {
      var i :| i in Holders(current, s);
      assert StateOf(input.current, p, i) == Some(s);
    }
  }

  lemma KeyMeans(input: ResourceInput, top: State, p: PartitionId)
    ensures PartitionKey(input, top, p) == (if HasState(input, p, top) then 0 else 1, Overlap(input, p),
        |Arrived(input, p)|)
  {
    hide HasState, CrossedOff, ValuesOf, Holders;
    var current, best := ReplicasOf(input.current, p), ReplicasOf(input.best, p);
    HoldersShow(input, p, top);
    CrossedOffIsOverlap(ValuesOf(current, SortedKeys(current.Keys)),
                        multiset(ValuesOf(best, SortedKeys(best.Keys))));
    assert Arrived(input, p) == set i | i in current && i in best && best[i] == current[i];
  }

  lemma PartitionLeIsTotal(input: ResourceInput, top: State, partitions: seq<PartitionId>)
    ensures TotalOrderOn((a, b) => PartitionLe(input, top, a, b), partitions)
  {
    hide PartitionKey;
  }

  /** Partitions are considered each once: those with a replica in the top state before those without,
      then those whose states have less in common with their targets, then those with fewer replicas at
      their own target, then by identifier. */
  lemma PartitionsInPriorityOrder(input: ResourceInput, model: StateModel, i: nat, j: nat)
    requires model.states != [] && i < j < |PartitionOrder(input, model)|
    ensures var a, b := PartitionOrder(input, model)[i], PartitionOrder(input, model)[j];
            && (HasState(input, b, model.Top()) ==> HasState(input, a, model.Top()))
            && ((HasState(input, b, model.Top()) <==> HasState(input, a, model.Top())) ==>
                  && Overlap(input, a) <= Overlap(input, b)
                  && (Overlap(input, a) == Overlap(input, b) ==>
                        && |Arrived(input, a)| <= |Arrived(input, b)|
                        && (|Arrived(input, a)| == |Arrived(input, b)| ==> a < b)))
  {
    var keys, top := SortedKeys(PartitionsOf(input.selected)), model.Top();
    var le := (a, b) => PartitionLe(input, top, a, b);
    PartitionLeIsTotal(input, top, keys);
    SortSorts(le, keys);
    SortPermutes(le, keys);
    PermutationDistinct(keys, SortBy(le, keys));
    var order := PartitionOrder(input, model);
    assert order == SortBy(le, keys);
    assert le(order[i], order[j]) && order[i] != order[j];
    KeyMeans(input, top, order[i]);
    KeyMeans(input, top, order[j]);
    hide PartitionKey, HasState, Overlap, Arrived, SortBy;
  }

  /** The position of an instance is its first place on the list, counted from one. */
  lemma {:induction false} PositionFinds(list: seq<InstanceId>, i: InstanceId)
    ensures Position(list, i) <= |list|
    ensures i !in list <==> Position(list, i) == 0
    ensures i in list ==> list[Position(list, i) - 1] == i
    ensures forall k | 0 <= k < Position(list, i) - 1 :: list[k] != i
  {
    if list != [] {
      PositionFinds(list[1..], i);
      assert list == [list[0]] + list[1..];
    }
  }

  /** On the preference list `a` comes no later than `b`; instances off the list come first, by identifier. */
  ghost predicate NoLater(list: seq<InstanceId>, a: InstanceId, b: InstanceId) {
    if b in list then a !in list || forall y | 0 <= y < |list| && list[y] == b :: exists x | 0 <= x <= y :: list[x] == a
    else a !in list && a <= b
  }

  /** Within a partition, steps into higher states come first; equal targets go by the preference list. */
  lemma MessagesInPriorityOrder(input: ResourceInput, model: StateModel, p: PartitionId, i: nat, j: nat)
    requires Orderly(input, model) && i < j < |MessageOrder(input, model, p)|
    ensures var a, b := MessageOrder(input, model, p)[i], MessageOrder(input, model, p)[j];
            && IndexOf(model.states, a.to) <= IndexOf(model.states, b.to)
            && (a.to == b.to ==> NoLater(ListOf(input, p), a.instance, b.instance))
  {
    var le := (a, b) => MessageLe(input, model, a, b);
    MessageOrderIsTotal(input, model, p);
    SortSorts(le, InPartition(input.selected, p));
    MessageOrderPermutes(input, model, p);
    var order, list := MessageOrder(input, model, p), ListOf(input, p);
    var a, b := order[i], order[j];
    assert a in order && b in order;
    assert le(a, b);
    PositionFinds(list, a.instance);
    PositionFinds(list, b.instance);
    hide Position, MessageOrder, ListOf;
    if a.to == b.to && a.instance in list {
      assert list[Position(list, a.instance) - 1] == a.instance;
    }
  }

  // The result of a whole cycle.

  lemma {:induction false} StatesStay(inputs: seq<ResourceInput>, live: set<InstanceId>, model: StateModel,
                                      pending: seq<Transition>, out: Outcome, r: ResourceId)
    requires model.states != [] && r !in Names(inputs)
    ensures var end := ThrottleAll(inputs, live, model, pending, out);
            (r in end.states <==> r in out.states) && (r in out.states ==> end.states[r] == out.states[r])
  {
    if inputs != [] {
      var front, last := inputs[..|inputs| - 1], inputs[|inputs| - 1];
      assert last in inputs && forall x | x in front :: x in inputs;
      hide ConsiderResource, Layered;
      StatesStay(front, live, model, pending, out, r);
    }
  }

  /** A resource without selected work reports its best-possible states unchanged. */
  lemma IdleResourceReportsTarget(inputs: seq<ResourceInput>, live: set<InstanceId>, pending: seq<Transition>,
                                  limits: seq<Limit>, model: StateModel, k: nat)
    requires model.states != [] && UniqueNames(inputs) && k < |inputs| && inputs[k].selected == []
    ensures inputs[k].resource in Throttled(inputs, live, pending, limits, model).states
    ensures Throttled(inputs, live, pending, limits, model).states[inputs[k].resource] == inputs[k].best
  {
    var start := Outcome(OpeningTable(inputs, live, model, pending, limits), [], map[]);
    assert inputs == inputs[..k + 1] + inputs[k + 1..];
    hide OpeningTable, ThrottleAll, ConsiderResource, Layered;
    ThrottleAllSplits(inputs[..k + 1], inputs[k + 1..], live, model, pending, start);
    var mid := ThrottleAll(inputs[..k + 1], live, model, pending, start);
    ThrottleAllNext(inputs, live, model, pending, start, k);
    assert inputs[k].resource !in Names(inputs[k + 1..]);
    StatesStay(inputs[k + 1..], live, model, pending, mid, inputs[k].resource);
  }

  lemma {:induction false} AmongByLogs(ts: seq<Transition>, a: seq<Dispatch>, b: seq<Dispatch>)
    requires forall t | t in ts :: t in StepsIn(a) <==> t in StepsIn(b)
    ensures Among(ts, a) == Among(ts, b)
  {
    if ts != [] {
      assert ts == ts[..|ts| - 1] + [ts[|ts| - 1]];
      AmongByLogs(ts[..|ts| - 1], a, b);
    }
  }

  lemma InConcat(a: seq<Dispatch>, b: seq<Dispatch>, t: Transition)
    ensures t in StepsIn(a + b) <==> t in StepsIn(a) || t in StepsIn(b)
  {
    StepsInConcat(a, b);
  }

  /** What others dispatch is of other resources. */
  lemma OthersLog(inputs: seq<ResourceInput>, live: set<InstanceId>, model: StateModel, pending: seq<Transition>,
                  out: Outcome, t: Transition)
    requires model.states != [] && t.resource !in Names(inputs)
             && forall input | input in inputs :: ValidSelected(input, model)
    ensures t in StepsIn(ThrottleAll(inputs, live, model, pending, out).log) <==> t in StepsIn(out.log)
  {
    hide ThrottleAll, AllSelected, ValidSelected, Names, Worked;
    var end := ThrottleAll(inputs, live, model, pending, out);
    ThrottleAllWorks(inputs, live, model, pending, out);
    var more := WorkedMore(pending, AsProgress(out), AsProgress(end), AllSelected(inputs));
    InConcat(out.log, more, t);
    forall j | 0 <= j < |more|
      ensures StepsIn(more)[j] != t
    {
      assert more[j] in more;
      SelectedIsNamed(inputs, model, more[j].step);
    }
  }

  lemma WorkedMore(pending: seq<Transition>, a: Progress, b: Progress, steps: set<Transition>)
    returns (more: seq<Dispatch>)
    requires Worked(pending, a, b, steps)
    ensures b.log == a.log + more && forall d | d in more :: d.step in steps
  {
    more := b.log[|a.log|..];
  }

  lemma SelectedIsNamed(inputs: seq<ResourceInput>, model: StateModel, t: Transition)
    requires t in AllSelected(inputs) && forall input | input in inputs :: ValidSelected(input, model)
    ensures t.resource in Names(inputs)
  {
    var input :| input in inputs && t in input.selected;
    assert WellPlaced(input, model, t);
  }

  /** The intermediate states a cycle reports for a resource with selected work: what it dispatched over
      what is pending over the current states, with replicas on their way to DROPPED gone. */
  lemma CycleReportsOverlay(inputs: seq<ResourceInput>, live: set<InstanceId>, pending: seq<Transition>,
                            limits: seq<Limit>, model: StateModel, k: nat, p: PartitionId, i: InstanceId)
    requires model.states != [] && UniqueNames(inputs)
             && (forall input | input in inputs :: ValidSelected(input, model))
    requires k < |inputs| && inputs[k].selected != []
    ensures var out, input := Throttled(inputs, live, pending, limits, model), inputs[k];
            && input.resource in out.states
            && StateOf(out.states[input.resource], p, i)
               == Overlay(model, Among(input.selected, out.log),
                          Overlay(model, OfResource(pending, input.resource), StateOf(input.current, p, i), p, i), p, i)
  {
    hide ThrottleAll, ThrottleOne, ConsiderResource, OpeningTable, Overlay, ApplyAll, Among, OfResource, ValidSelected;
    var start, input := Outcome(OpeningTable(inputs, live, model, pending, limits), [], map[]), inputs[k];
    var before := ThrottleAll(inputs[..k], live, model, pending, start);
    var pr := ConsiderResource(input, live, model, pending, before.table);
    var mid := ThrottleAll(inputs[..k + 1], live, model, pending, start);
    ThrottleAllNext(inputs, live, model, pending, start, k);
    OneUnfolds(input, live, model, pending, before);
    assert mid.log == before.log + pr.log && mid.states[input.resource] == Layered(input, model, pending, pr);
    assert inputs == inputs[..k + 1] + inputs[k + 1..];
    assert input.resource !in Names(inputs[k + 1..]);
    ThrottleAllSplits(inputs[..k + 1], inputs[k + 1..], live, model, pending, start);
    StatesStay(inputs[k + 1..], live, model, pending, mid, input.resource);
    IntermediateIsOverlay(input, live, model, pending, before.table, p, i);
    SameDispatches(inputs, live, model, pending, start, before, mid, pr.log, k);
  }

  lemma SameDispatches(inputs: seq<ResourceInput>, live: set<InstanceId>, model: StateModel, pending: seq<Transition>,
                       start: Outcome, before: Outcome, mid: Outcome, log: seq<Dispatch>, k: nat)
    requires model.states != [] && start.log == [] && UniqueNames(inputs)
             && (forall input | input in inputs :: ValidSelected(input, model))
    requires k < |inputs| && before == ThrottleAll(inputs[..k], live, model, pending, start)
             && mid.log == before.log + log
    ensures Among(inputs[k].selected, log)
         == Among(inputs[k].selected, ThrottleAll(inputs[k + 1..], live, model, pending, mid).log)
  {
    var input, end := inputs[k], ThrottleAll(inputs[k + 1..], live, model, pending, mid);
    assert input in inputs && input.resource !in Names(inputs[..k]) && input.resource !in Names(inputs[k + 1..]);
    hide ThrottleAll;
    forall t | t in input.selected
      ensures t in StepsIn(log) <==> t in StepsIn(end.log)
    {
      assert WellPlaced(input, model, t);
      OthersLog(inputs[..k], live, model, pending, start, t);
      OthersLog(inputs[k + 1..], live, model, pending, mid, t);
      InConcat(before.log, log, t);
    }
    AmongByLogs(input.selected, log, end.log);
  }
}
