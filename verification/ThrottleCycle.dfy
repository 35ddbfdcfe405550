/** The throttling stage as it runs: quotas, counters and derived states updated in place
    (`message_throttle.rs`). */
module ThrottleCycle {
  import opened Types
  import opened Ordering
  import opened StateModels
  import opened BestPossible
  import opened Generation
  import opened Selection
  import opened Quotas
  import opened Throttle
  import opened Intermediate
  import opened ThrottleOrder

  datatype ThrottleError =
    | DuplicateResource(resource: ResourceId)
    | DuplicatePendingTransition(partition: PartitionId, instance: InstanceId)
    | ResourceMismatch(expected: ResourceId, actual: ResourceId)
    | UnknownPendingResource(resource: ResourceId)
    | UnknownSelectedPartition(resource: ResourceId, partition: PartitionId)

  // Classification of one transition.

  function CountHeld(replicas: Replicas, keys: seq<InstanceId>, s: State): nat {
    if keys == [] then 0
    else CountHeld(replicas, keys[..|keys| - 1], s)
         + (if keys[|keys| - 1] in replicas && replicas[keys[|keys| - 1]] == s then 1 else 0)
  }

  function HeldBy(replicas: Replicas, keys: seq<InstanceId>, s: State): set<InstanceId> {
    set i | i in keys && i in replicas && replicas[i] == s
  }

  lemma HeldNext(replicas: Replicas, keys: seq<InstanceId>, i: InstanceId, s: State)
    requires i !in keys
    ensures |HeldBy(replicas, keys + [i], s)| == |HeldBy(replicas, keys, s)| + (if i in replicas
        && replicas[i] == s then 1 else 0)
  {
    if i in replicas && replicas[i] == s {
      assert HeldBy(replicas, keys + [i], s) == HeldBy(replicas, keys, s) + {i};
    } else {
      assert HeldBy(replicas, keys + [i], s) == HeldBy(replicas, keys, s);
    }
  }

  lemma {:induction false} CountHeldIsHolders(replicas: Replicas, keys: seq<InstanceId>, s: State)
    requires Distinct(keys)
    ensures CountHeld(replicas, keys, s) == |HeldBy(replicas, keys, s)|
  {
    if keys != [] {
      var front, last := keys[..|keys| - 1], keys[|keys| - 1];
      CountHeldIsHolders(replicas, front, s);
      hide HeldBy;
      assert keys == front + [last];
      HeldNext(replicas, front, last, s);
    }
  }

  /** What is left of the required counts once some replicas are crossed off. */
  function Left(required: Counts, replicas: Replicas, keys: seq<InstanceId>): Counts {
    map s | s in required && required[s] > CountHeld(replicas, keys, s) :: required[s] - CountHeld(replicas, keys, s)
  }

  lemma LeftNext(required: Counts, replicas: Replicas, keys: seq<InstanceId>, k: nat, remaining: Counts)
    requires k < |keys| && keys[k] in replicas && remaining == Left(required, replicas, keys[..k])
    ensures var s := replicas[keys[k]];
            Left(required, replicas, keys[..k + 1])
            == if s !in remaining then remaining
               else if remaining[s] == 1 then remaining - {s}
               else remaining[s := remaining[s] - 1]
  {
    assert keys[..k + 1][..k] == keys[..k];
  }

  /** `rebalance_type`. */
  method Classify(required: Counts, replicas: Replicas, to: State) returns (ty: RebalanceType)
    requires Positive(required)
    ensures ty == RebalanceOf(required, replicas, to)
  {
    var instances := SortedKeys(replicas.Keys);
    var remaining := required;
    assert remaining == Left(required, replicas, []);
    hide Left;
    for k := 0 to |instances|
      invariant remaining == Left(required, replicas, instances[..k])
    {
      var s := replicas[instances[k]];
      LeftNext(required, replicas, instances, k, remaining);
      if s in remaining {
        if remaining[s] == 1 {
          remaining := remaining - {s};
        } else {
          remaining := remaining[s := remaining[s] - 1];
        }
      }
    }
    assert instances[..|instances|] == instances;
    ty := if to in remaining then Recovery else Load;
    LeftDecides(required, replicas, to);
  }

  lemma LeftDecides(required: Counts, replicas: Replicas, to: State)
    ensures to in Left(required, replicas, SortedKeys(replicas.Keys))
            <==> RebalanceOf(required, replicas, to) == Recovery
  {
    var keys := SortedKeys(replicas.Keys);
    CountHeldIsHolders(replicas, keys, to);
    assert Holders(replicas, to) == HeldBy(replicas, keys, to);
  }

  // Required states.

  lemma FixedNeedsNext(model: StateModel, n: Need, states: seq<State>, k: nat)
    requires k < |states|
    ensures FixedNeeds(model, n, states[..k + 1]) == FixedNeed(model, FixedNeeds(model, n, states[..k]), states[k])
  {
    assert states[..k + 1][..k] == states[..k];
  }

  lemma {:induction false} NoCandidatesNoNeed(model: StateModel, n: Need, states: seq<State>, k: nat)
    requires k <= |states| && FixedNeeds(model, n, states[..k]).candidates == 0
    ensures FixedNeeds(model, n, states) == FixedNeeds(model, n, states[..k])
    decreases |states| - k
  {
    if k < |states| {
      FixedNeedsNext(model, n, states, k);
      NoCandidatesNoNeed(model, n, states, k + 1);
    } else {
      assert states[..k] == states;
    }
  }

  /** The first pass of `required_states`. */
  method ComputeFixed(start: Need, model: StateModel) returns (need: Need)
    ensures need == FixedNeeds(model, start, model.states)
  {
    var states := model.states;
    need := start;
    var k := 0;
    while k < |states| && need.candidates != 0
      invariant 0 <= k <= |states|
      invariant need == FixedNeeds(model, start, states[..k])
    {
      FixedNeedsNext(model, start, states, k);
      hide FixedNeeds;
      var s := states[k];
      if s in model.cardinalities {
        match model.cardinalities[s] {
          case Exact(count) =>
            if count > 0 {
              var n := Min(count, need.candidates);
              need := Need(need.result[s := n], need.candidates - n, Monus(need.replicas, n));
            }
          case NodeCount =>
            need := Need(need.result[s := need.candidates], 0, Monus(need.replicas, need.candidates));
          case _ =>
        }
      }
      k := k + 1;
    }
    if k < |states| {
      NoCandidatesNoNeed(model, start, states, k);
    } else {
      assert states[..k] == states;
    }
  }

  /** `required_states`. */
  method ComputeRequired(input: ResourceInput, p: PartitionId, live: set<InstanceId>, model: StateModel)
    returns (result: Counts)
    ensures result == RequiredStates(input, p, live, model)
  {
    hide FixedNeeds;
    var start := Need(map[], |LivePreferred(ListOf(input, p), live)|,
                      if input.minActive.Some? then input.minActive.value else input.replicas);
    var need := ComputeFixed(start, model);
    var states := model.states;
    result := need.result;
    for k := 0 to |states|
      invariant result == need.result
      invariant ReplicaNeed(model, need, states) == ReplicaNeed(model, need, states[k..])
    {
      if states[k] in model.cardinalities && model.cardinalities[states[k]].ReplicaCount? && need.candidates > 0
          && need.replicas > 0 {
        result := result[states[k] := Min(need.candidates, need.replicas)];
        return;
      }
    }
  }

  // Charging work in flight.

  lemma PendingChargesNext(input: ResourceInput, live: set<InstanceId>, model: StateModel, a: seq<Transition>,
                           t: Transition)
    ensures PendingCharges(input, live, model, a + [t]) == PendingCharges(input, live, model,
        a) + Listed(PendingCharge(input, live, model, t))
  {
    assert (a + [t])[..|a|] == a;
  }

  lemma WithoutFront<T>(a: seq<T>, k: nat)
    requires k < |a| - 1
    ensures Without(a, k) == Without(a[..|a| - 1], k) + [a[|a| - 1]]
  {
  }

  lemma {:induction false} PendingChargesWithout(input: ResourceInput, live: set<InstanceId>, model: StateModel,
                                                 a: seq<Transition>, k: nat)
    requires k < |a|
    ensures multiset(PendingCharges(input, live, model, a))
         == multiset(PendingCharges(input, live, model,
                                    Without(a, k))) + multiset(Listed(PendingCharge(input, live, model, a[k])))
  {
    hide PendingCharge, Listed;
    var front, last := a[..|a| - 1], a[|a| - 1];
    if k == |a| - 1 {
      assert Without(a, k) == front;
    } else {
      PendingChargesWithout(input, live, model, front, k);
      WithoutFront(a, k);
      PendingChargesNext(input, live, model, Without(front, k), last);
    }
  }

  lemma {:induction false} PendingChargesPermute(input: ResourceInput, live: set<InstanceId>, model: StateModel,
                                                 a: seq<Transition>, b: seq<Transition>)
    requires multiset(a) == multiset(b)
    ensures multiset(PendingCharges(input, live, model, a)) == multiset(PendingCharges(input, live, model, b))
  {
    SameMembers(a, b);
    if a != [] {
      hide PendingCharges, PendingCharge;
      var last := |a| - 1;
      assert a[last] in b;
      var k :| 0 <= k < |b| && b[k] == a[last];
      WithoutMultiset(a, last);
      WithoutMultiset(b, k);
      PendingChargesWithout(input, live, model, a, last);
      PendingChargesWithout(input, live, model, b, k);
      PendingChargesPermute(input, live, model, Without(a, last), Without(b, k));
    }
  }

  function Visited(input: ResourceInput, model: StateModel, pending: seq<Transition>,
                   partitions: seq<PartitionId>): seq<Transition> {
    if partitions == [] then []
    else Visited(input, model, pending, partitions[..|partitions| - 1]) + Sorted(input, model, pending,
        partitions[|partitions| - 1])
  }

  lemma SortedMultiset(input: ResourceInput, model: StateModel, pending: seq<Transition>, p: PartitionId, t: Transition)
    ensures multiset(Sorted(input, model, pending, p))[t] == if t.partition == p then multiset(pending)[t] else 0
  {
    SortPermutes((a, b) => MessageLe(input, model, a, b), InPartition(pending, p));
    InPartitionMultiset(pending, p, t);
  }

  lemma {:induction false} VisitedMultiset(input: ResourceInput, model: StateModel, pending: seq<Transition>,
                                           partitions: seq<PartitionId>, t: Transition)
    requires Distinct(partitions)
    ensures multiset(Visited(input, model, pending,
                             partitions))[t] == if t.partition in partitions then multiset(pending)[t] else 0
  {
    hide Sorted;
    if partitions != [] {
      var front, p := partitions[..|partitions| - 1], partitions[|partitions| - 1];
      VisitedMultiset(input, model, pending, front, t);
      SortedMultiset(input, model, pending, p, t);
      assert partitions == front + [p] && p !in front;
    }
  }

  lemma EveryPendingIsVisited(input: ResourceInput, model: StateModel, pending: seq<Transition>)
    ensures multiset(Visited(input, model, pending, SortedKeys(PartitionsOf(pending)))) == multiset(pending)
  {
    forall t
      ensures multiset(Visited(input, model, pending, SortedKeys(PartitionsOf(pending))))[t] == multiset(pending)[t]
    {
      VisitedMultiset(input, model, pending, SortedKeys(PartitionsOf(pending)), t);
      if t in multiset(pending) {
        assert t in pending;
      }
    }
  }

  /** `charge_pending`: whatever the order of the visits, the charges of the resource's pending steps. */
  method ChargePending(input: ResourceInput, pending: seq<Transition>, live: set<InstanceId>, model: StateModel,
                       controller: ThrottleController)
    modifies controller
    ensures controller.Table() == old(controller.Table()).AfterAll(PendingCharges(input, live, model, pending))
  {
    var partitions := SortedKeys(PartitionsOf(pending));
    ghost var start, visited := controller.Table(), [];
    assert Visited(input, model, pending, []) == [] && PendingCharges(input, live, model, []) == [];
    hide *;
    for k := 0 to |partitions|
      invariant visited == Visited(input, model, pending, partitions[..k])
      invariant controller.Table() == start.AfterAll(PendingCharges(input, live, model, visited))
    {
      VisitedNext(input, model, pending, partitions, k);
      SortedInPartition(input, model, pending, partitions[k]);
      ChargePartition(input, Sorted(input, model, pending, partitions[k]), partitions[k], live, model, controller,
                      start, visited);
      visited := visited + Sorted(input, model, pending, partitions[k]);
    }
    assert partitions[..|partitions|] == partitions;
    EveryPendingIsVisited(input, model, pending);
    PendingChargesPermute(input, live, model, visited, pending);
    ChargesCommute(start, PendingCharges(input, live, model, visited), PendingCharges(input, live, model, pending));
  }

  lemma SortedInPartition(input: ResourceInput, model: StateModel, pending: seq<Transition>, p: PartitionId)
    ensures forall t | t in Sorted(input, model, pending, p) :: t.partition == p
  {
    SortPermutes((a, b) => MessageLe(input, model, a, b), InPartition(pending, p));
    InPartitionFilters(pending, p);
  }

  lemma VisitedNext(input: ResourceInput, model: StateModel, pending: seq<Transition>, partitions: seq<PartitionId>,
                    k: nat)
    requires k < |partitions|
    ensures Visited(input, model, pending, partitions[..k + 1])
         == Visited(input, model, pending, partitions[..k]) + Sorted(input, model, pending, partitions[k])
  {
    assert partitions[..k + 1][..k] == partitions[..k];
  }

  method ChargePartition(input: ResourceInput, steps: seq<Transition>, p: PartitionId, live: set<InstanceId>,
                         model: StateModel,
                         controller: ThrottleController, ghost start: QuotaTable, ghost done: seq<Transition>)
    requires forall t | t in steps :: t.partition == p
    requires controller.Table() == start.AfterAll(PendingCharges(input, live, model, done))
    modifies controller
    ensures controller.Table() == start.AfterAll(PendingCharges(input, live, model, done + steps))
  {
    hide *;
    var required := ComputeRequired(input, p, live, model);
    assert done + steps[..0] == done;
    for k := 0 to |steps|
      invariant controller.Table() == start.AfterAll(PendingCharges(input, live, model, done + steps[..k]))
    {
      assert done + steps[..k + 1] == (done + steps[..k]) + [steps[k]];
      assert steps[k].partition == p;
      ChargeOne(input, required, steps[k], live, model, controller, start, done + steps[..k]);
    }
    assert done + steps[..|steps|] == done + steps;
  }

  method ChargeOne(input: ResourceInput, required: Counts, t: Transition, live: set<InstanceId>, model: StateModel,
                   controller: ThrottleController, ghost start: QuotaTable, ghost done: seq<Transition>)
    requires required == RequiredStates(input, t.partition, live, model)
    requires controller.Table() == start.AfterAll(PendingCharges(input, live, model, done))
    modifies controller
    ensures controller.Table() == start.AfterAll(PendingCharges(input, live, model, done + [t]))
  {
    hide *;
    RequiredPositive(input, t.partition, live, model);
    ChargeNext(input, live, model, start, done, t);
    var current := StateOf(input.current, t.partition, t.instance);
    if current == Some(t.from) && current != Some(t.to) {
      var ty := Classify(required, ReplicasOf(input.current, t.partition), t.to);
      controller.Take(Charge(ty, input.resource, t.instance));
    }
  }

  lemma ChargeNext(input: ResourceInput, live: set<InstanceId>, model: StateModel, start: QuotaTable,
                   done: seq<Transition>, t: Transition)
    ensures var table := start.AfterAll(PendingCharges(input, live, model, done));
            var required := RequiredStates(input, t.partition, live, model);
            start.AfterAll(PendingCharges(input, live, model, done + [t]))
            == if StateOf(input.current, t.partition, t.instance) != Some(t.from)
                || StateOf(input.current, t.partition, t.instance) == Some(t.to) then table
               else table.After(Charge(RebalanceOf(required, ReplicasOf(input.current, t.partition), t.to),
                                       input.resource, t.instance))
  {
    var before := PendingCharges(input, live, model, done);
    PendingChargesNext(input, live, model, done, t);
    hide PendingCharges, RequiredStates, RebalanceOf, QuotaTable.AfterAll, QuotaTable.After;
    if PendingCharge(input, live, model, t).Some? {
      AfterAllNext(start, before, PendingCharge(input, live, model, t).value);
    } else {
      assert before + [] == before;
    }
  }

  lemma AfterAllNext(table: QuotaTable, charges: seq<Charge>, c: Charge)
    ensures table.AfterAll(charges + [c]) == table.AfterAll(charges).After(c)
  {
    assert (charges + [c])[..|charges|] == charges;
  }

  // Dispatching.

  lemma StepsInNext(log: seq<Dispatch>, d: Dispatch)
    ensures StepsIn(log + [d]) == StepsIn(log) + [d.step]
  {
  }

  /** One message: skipped if pending or throttled, otherwise charged, applied and dispatched. */
  method DispatchOne(required: Counts, pending: seq<Transition>, t: Transition, controller: ThrottleController,
                     derived: ReplicaStates, dispatchable: seq<Transition>, ghost pr: Progress)
    returns (derived': ReplicaStates, dispatchable': seq<Transition>, ghost pr': Progress)
    requires Positive(required)
    requires controller.Table() == pr.table && derived == pr.derived && dispatchable == StepsIn(pr.log)
    modifies controller
    ensures pr' == Consider(required, pending, pr, t)
    ensures controller.Table() == pr'.table && derived' == pr'.derived && dispatchable' == StepsIn(pr'.log)
  {
    derived', dispatchable', pr' := derived, dispatchable, pr;
    if t in pending {
      return;
    }
    var ty := Classify(required, ReplicasOf(derived, t.partition), t.to);
    hide RebalanceOf, QuotaTable.Throttles, QuotaTable.After;
    var charge := Charge(ty, t.resource, t.instance);
    ThrottlesIffExhausted(controller.Table(), charge);
    if controller.ShouldThrottle(charge) {
      return;
    }
    controller.Take(charge);
    derived' := derived[t.partition := ReplicasOf(derived, t.partition)[t.instance := t.to]];
    dispatchable' := dispatchable + [t];
    StepsInNext(pr.log, Dispatch(t, ty));
    pr' := Progress(pr.table.After(charge), derived', pr.log + [Dispatch(t, ty)]);
  }

  method DispatchSteps(required: Counts, pending: seq<Transition>, steps: seq<Transition>,
                       controller: ThrottleController,
                       derived: ReplicaStates, dispatchable: seq<Transition>, ghost pr: Progress)
    returns (derived': ReplicaStates, dispatchable': seq<Transition>, ghost pr': Progress)
    requires Positive(required)
    requires controller.Table() == pr.table && derived == pr.derived && dispatchable == StepsIn(pr.log)
    modifies controller
    ensures pr' == ConsiderAll(required, pending, pr, steps)
    ensures controller.Table() == pr'.table && derived' == pr'.derived && dispatchable' == StepsIn(pr'.log)
  {
    derived', dispatchable', pr' := derived, dispatchable, pr;
    assert ConsiderAll(required, pending, pr, []) == pr;
    hide *;
    for k := 0 to |steps|
      invariant pr' == ConsiderAll(required, pending, pr, steps[..k])
      invariant controller.Table() == pr'.table && derived' == pr'.derived && dispatchable' == StepsIn(pr'.log)
    {
      ConsiderAllNext(required, pending, pr, steps, k);
      derived', dispatchable', pr' := DispatchOne(required, pending, steps[k], controller, derived', dispatchable',
                                                  pr');
    }
    assert steps[..|steps|] == steps;
  }

  /** The selected work of one resource, partition by partition. */
  method DispatchResource(input: ResourceInput, live: set<InstanceId>, model: StateModel, pending: seq<Transition>,
                          controller: ThrottleController)
    returns (derived: ReplicaStates, dispatchable: seq<Transition>, ghost pr: Progress)
    requires model.states != []
    modifies controller
    ensures pr == ConsiderResource(input, live, model, pending, old(controller.Table()))
    ensures controller.Table() == pr.table && derived == pr.derived && dispatchable == StepsIn(pr.log)
  {
    ghost var start := Progress(controller.Table(), input.current, []);
    var partitions := PartitionOrder(input, model);
    derived, dispatchable, pr := input.current, [], start;
    assert ConsiderPartitions(input, live, model, pending, start, []) == start;
    hide ConsiderPartitions, ConsiderAll, RequiredStates, MessageOrder, PartitionOrder, Positive;
    for k := 0 to |partitions|
      invariant pr == ConsiderPartitions(input, live, model, pending, start, partitions[..k])
      invariant controller.Table() == pr.table && derived == pr.derived && dispatchable == StepsIn(pr.log)
    {
      var required := ComputeRequired(input, partitions[k], live, model);
      RequiredPositive(input, partitions[k], live, model);
      ConsiderPartitionsNext(input, live, model, pending, start, partitions, k);
      derived, dispatchable, pr := DispatchSteps(required, pending, MessageOrder(input, model, partitions[k]),
                                                 controller, derived, dispatchable, pr);
    }
    assert partitions[..|partitions|] == partitions;
  }

  // The last two passes.

  lemma ApplyAllNext(model: StateModel, states: ReplicaStates, ts: seq<Transition>, t: Transition)
    ensures ApplyAll(model, states, ts + [t]) == Apply(model, ApplyAll(model, states, ts), t)
  {
    assert (ts + [t])[..|ts|] == ts;
  }

  method ApplyOne(model: StateModel, states: ReplicaStates, t: Transition) returns (states': ReplicaStates)
    ensures states' == Apply(model, states, t)
  {
    states' := states;
    if t.to == Dropped && Dropped in model.states {
      if t.partition in states' {
        states' := states'[t.partition := states'[t.partition] - {t.instance}];
      }
    } else {
      states' := states'[t.partition := ReplicasOf(states', t.partition)[t.instance := t.to]];
    }
  }

  /** `apply_pending`. */
  method ApplyPending(model: StateModel, states: ReplicaStates, r: ResourceId, pending: seq<Transition>)
    returns (states': ReplicaStates)
    ensures states' == ApplyAll(model, states, OfResource(pending, r))
  {
    states' := states;
    hide Apply;
    for k := 0 to |pending|
      invariant states' == ApplyAll(model, states, OfResource(pending[..k], r))
    {
      assert pending[..k + 1][..k] == pending[..k];
      if pending[k].resource == r {
        ApplyAllNext(model, states, OfResource(pending[..k], r), pending[k]);
        states' := ApplyOne(model, states', pending[k]);
      }
    }
    assert pending[..|pending|] == pending;
  }

  method ApplyDispatched(model: StateModel, states: ReplicaStates, selected: seq<Transition>,
                         dispatchable: seq<Transition>, ghost log: seq<Dispatch>)
    returns (states': ReplicaStates)
    requires forall t | t in selected :: t in dispatchable <==> t in StepsIn(log)
    ensures states' == ApplyAll(model, states, Among(selected, log))
  {
    states' := states;
    hide Apply, StepsIn;
    for k := 0 to |selected|
      invariant states' == ApplyAll(model, states, Among(selected[..k], log))
    {
      assert selected[..k + 1][..k] == selected[..k];
      if selected[k] in dispatchable {
        ApplyAllNext(model, states, Among(selected[..k], log), selected[k]);
        states' := ApplyOne(model, states', selected[k]);
      }
    }
    assert selected[..|selected|] == selected;
  }

  // Validation.

  ghost predicate ValidSelected(input: ResourceInput, model: StateModel) {
    forall t | t in input.selected :: WellPlaced(input, model, t)
  }

  ghost predicate WellPlaced(input: ResourceInput, model: StateModel, t: Transition) {
    && t.resource == input.resource
    && t.partition in input.lists
    && (input.lists[t.partition] != [] || DropPath(input.current, model, t))
  }

  predicate SameReplica(a: Transition, b: Transition) {
    a.resource == b.resource && SameKey(a, b)
  }

  ghost predicate OnePending(pending: seq<Transition>) {
    forall i, j | 0 <= i < j < |pending| :: !SameReplica(pending[i], pending[j])
  }

  ghost predicate UniqueNames(inputs: seq<ResourceInput>) {
    forall i, j | 0 <= i < j < |inputs| :: inputs[i].resource != inputs[j].resource
  }

  ghost predicate Acceptable(inputs: seq<ResourceInput>, pending: seq<Transition>, model: StateModel) {
    && UniqueNames(inputs)
    && (forall t | t in pending :: t.resource in Names(inputs))
    && OnePending(pending)
    && (forall input | input in inputs :: ValidSelected(input, model))
  }

  /** What each error reports. */
  ghost predicate Reports(error: ThrottleError, inputs: seq<ResourceInput>, pending: seq<Transition>,
                          model: StateModel) {
    match error
    case DuplicateResource(r) =>
      exists j, k :: 0 <= j < k < |inputs| && inputs[j].resource == r && inputs[k].resource == r
    case UnknownPendingResource(r) => r !in Names(inputs) && exists t :: t in pending && t.resource == r
    case DuplicatePendingTransition(p, i) =>
      exists j, k ::
        && 0 <= j < k < |pending| && SameReplica(pending[j], pending[k])
        && pending[k].partition == p && pending[k].instance == i
    case ResourceMismatch(expected, actual) =>
      expected != actual && exists input, t ::
                              input in inputs && t in input.selected && input.resource == expected
                                  && t.resource == actual
    case UnknownSelectedPartition(r, p) =>
      exists input, t ::
        && input in inputs && t in input.selected
        && input.resource == r && t.partition == p && !WellPlaced(input, model, t)
  }

  method CheckNames(inputs: seq<ResourceInput>, ghost pending: seq<Transition>, ghost model: StateModel)
    returns (error: Option<ThrottleError>)
    ensures error.None? <==> UniqueNames(inputs)
    ensures error.Some? ==> Reports(error.value, inputs, pending, model)
  {
    var names: set<ResourceId> := {};
    for k := 0 to |inputs|
      invariant names == set j | 0 <= j < k :: inputs[j].resource
      invariant forall i, j | 0 <= i < j < k :: inputs[i].resource != inputs[j].resource
    {
      if inputs[k].resource in names {
        assert inputs[k] in inputs;
        return Some(DuplicateResource(inputs[k].resource));
      }
      names := names + {inputs[k].resource};
    }
    error := None;
  }

  method CheckPending(inputs: seq<ResourceInput>, pending: seq<Transition>, ghost model: StateModel)
    returns (error: Option<ThrottleError>)
    ensures error.None? <==> (forall t | t in pending :: t.resource in Names(inputs)) && OnePending(pending)
    ensures error.Some? ==> Reports(error.value, inputs, pending, model)
  {
    var names := Names(inputs);
    hide Names;
    for k := 0 to |pending|
      invariant forall j | 0 <= j < k :: pending[j].resource in names
    {
      if pending[k].resource !in names {
        assert pending[k] in pending;
        return Some(UnknownPendingResource(pending[k].resource));
      }
    }
    var keys: set<(ResourceId, PartitionId, InstanceId)> := {};
    for k := 0 to |pending|
      invariant keys == set j | 0 <= j < k :: (pending[j].resource, pending[j].partition, pending[j].instance)
      invariant forall i, j | 0 <= i < j < k :: !SameReplica(pending[i], pending[j])
    {
      var t := pending[k];
      if (t.resource, t.partition, t.instance) in keys {
        assert t in pending;
        return Some(ThrottleError.DuplicatePendingTransition(t.partition, t.instance));
      }
      keys := keys + {(t.resource, t.partition, t.instance)};
    }
    error := None;
  }

  /** `validate_selected`. */
  method CheckSelected(input: ResourceInput, model: StateModel) returns (error: Option<ThrottleError>)
    ensures error.None? <==> ValidSelected(input, model)
    ensures forall inputs, pending | error.Some? && input in inputs :: Reports(error.value, inputs, pending, model)
  {
    hide DropPath;
    for k := 0 to |input.selected|
      invariant forall j | 0 <= j < k :: WellPlaced(input, model, input.selected[j])
    {
      var t := input.selected[k];
      assert t in input.selected;
      if t.resource != input.resource {
        return Some(ResourceMismatch(input.resource, t.resource));
      }
      var onPath := IsDropPath(input.current, model, t);
      if t.partition !in input.lists || (input.lists[t.partition] == [] && !onPath) {
        return Some(UnknownSelectedPartition(input.resource, t.partition));
      }
    }
    error := None;
  }

  // The stage.

  lemma AllPendingNext(inputs: seq<ResourceInput>, live: set<InstanceId>, model: StateModel,
                       pending: seq<Transition>, table: QuotaTable, k: nat)
    requires k < |inputs|
    ensures table.AfterAll(AllPendingCharges(inputs[..k + 1], live, model, pending))
         == table.AfterAll(AllPendingCharges(inputs[..k], live, model, pending))
                 .AfterAll(PendingCharges(inputs[k], live, model, OfResource(pending, inputs[k].resource)))
  {
    assert inputs[..k + 1][..k] == inputs[..k];
    hide PendingCharges;
    AfterAllConcat(table, AllPendingCharges(inputs[..k], live, model, pending),
                   PendingCharges(inputs[k], live, model, OfResource(pending, inputs[k].resource)));
  }

  method OpenController(inputs: seq<ResourceInput>, live: set<InstanceId>, pending: seq<Transition>,
                        limits: seq<Limit>, model: StateModel)
    returns (controller: ThrottleController)
    ensures fresh(controller)
    ensures controller.Table() == OpeningTable(inputs, live, model, pending, limits)
  {
    controller := new ThrottleController(Names(inputs), live, limits);
    ghost var start := controller.Table();
    hide *;
    assert start.AfterAll(AllPendingCharges([], live, model, pending)) == start by {
      NothingPending(start, live, model, pending);
    }
    for k := 0 to |inputs|
      invariant controller.Table() == start.AfterAll(AllPendingCharges(inputs[..k], live, model, pending))
    {
      AllPendingNext(inputs, live, model, pending, start, k);
      ChargePending(inputs[k], OfResource(pending, inputs[k].resource), live, model, controller);
    }
    assert inputs[..|inputs|] == inputs;
    OpeningUnfolds(inputs, live, model, pending, limits);
  }

  lemma NothingPending(table: QuotaTable, live: set<InstanceId>, model: StateModel, pending: seq<Transition>)
    ensures table.AfterAll(AllPendingCharges([], live, model, pending)) == table
  {
  }

  lemma OpeningUnfolds(inputs: seq<ResourceInput>, live: set<InstanceId>, model: StateModel,
                       pending: seq<Transition>, limits: seq<Limit>)
    ensures OpeningTable(inputs, live, model, pending, limits)
         == InitialTable(Names(inputs), live, limits).AfterAll(AllPendingCharges(inputs, live, model, pending))
  {
  }

  /** One resource of the cycle. */
  method ThrottleResource(input: ResourceInput, live: set<InstanceId>, model: StateModel, pending: seq<Transition>,
                          controller: ThrottleController,
                          dispatchable: seq<Transition>, states: map<ResourceId, ReplicaStates>, ghost out: Outcome)
    returns (dispatchable': seq<Transition>, states': map<ResourceId, ReplicaStates>, ghost out': Outcome)
    requires model.states != []
    requires controller.Table() == out.table && dispatchable == StepsIn(out.log) && states == out.states
    requires forall t | t in input.selected :: t !in dispatchable
    modifies controller
    ensures out' == ThrottleOne(input, live, model, pending, out)
    ensures controller.Table() == out'.table && dispatchable' == StepsIn(out'.log) && states' == out'.states
  {
    if input.selected == [] {
      dispatchable', states' := dispatchable, states[input.resource := input.best];
      out' := ThrottleOne(input, live, model, pending, out);
      return;
    }
    hide *;
    var derived, mine, pr := DispatchResource(input, live, model, pending, controller);
    dispatchable' := dispatchable + mine;
    derived := ApplyPending(model, derived, input.resource, pending);
    derived := ApplyDispatched(model, derived, input.selected, dispatchable', pr.log);
    states' := states[input.resource := derived];
    out' := ThrottleOne(input, live, model, pending, out);
    OneUnfolds(input, live, model, pending, out);
    StepsInConcat(out.log, pr.log);
  }

  lemma StepsInConcat(a: seq<Dispatch>, b: seq<Dispatch>)
    ensures StepsIn(a + b) == StepsIn(a) + StepsIn(b)
  {
  }

  lemma OneUnfolds(input: ResourceInput, live: set<InstanceId>, model: StateModel, pending: seq<Transition>,
                   out: Outcome)
    requires model.states != [] && input.selected != []
    ensures var pr := ConsiderResource(input, live, model, pending, out.table);
            var after := ApplyAll(model, pr.derived, OfResource(pending, input.resource));
            ThrottleOne(input, live, model, pending, out)
            == Outcome(pr.table, out.log + pr.log,
                       out.states[input.resource := ApplyAll(model, after, Among(input.selected, pr.log))])
  {
  }

  /** Everything dispatched so far came from the selected work of the inputs so far. */
  lemma LogFromInputs(inputs: seq<ResourceInput>, live: set<InstanceId>, model: StateModel, pending: seq<Transition>,
                      out: Outcome, t: Transition)
    requires model.states != [] && out.log == []
    requires t in StepsIn(ThrottleAll(inputs, live, model, pending, out).log)
    ensures t in AllSelected(inputs)
  {
    ThrottleAllWorks(inputs, live, model, pending, out);
    var log := ThrottleAll(inputs, live, model, pending, out).log;
    hide ThrottleAll;
    var k :| 0 <= k < |log| && StepsIn(log)[k] == t;
    assert log[|out.log|..] == log;
    assert log[k] in log;
  }

  lemma FreshWork(inputs: seq<ResourceInput>, live: set<InstanceId>, model: StateModel, pending: seq<Transition>,
                  out: Outcome, k: nat, t: Transition)
    requires model.states != [] && out.log == [] && k < |inputs| && UniqueNames(inputs)
    requires forall j | 0 <= j <= k :: ValidSelected(inputs[j], model)
    requires t in inputs[k].selected
    ensures t !in StepsIn(ThrottleAll(inputs[..k], live, model, pending, out).log)
  {
    hide ThrottleAll;
    if t in StepsIn(ThrottleAll(inputs[..k], live, model, pending, out).log) {
      LogFromInputs(inputs[..k], live, model, pending, out, t);
    }
  }

  /** `compute_intermediate_and_throttle`. */
  method ComputeIntermediateAndThrottle(inputs: seq<ResourceInput>, live: set<InstanceId>, pending: seq<Transition>,
                                        limits: seq<Limit>, model: StateModel)
    returns (r: Result<(map<ResourceId, ReplicaStates>, seq<Transition>), ThrottleError>)
    requires model.states != []
    ensures r.Ok? <==> Acceptable(inputs, pending, model)
    ensures r.Ok? ==> r.value.0 == Throttled(inputs, live, pending, limits, model).states
    ensures r.Ok? ==> r.value.1 == StepsIn(Throttled(inputs, live, pending, limits, model).log)
    ensures r.Err? ==> Reports(r.error, inputs, pending, model)
  {
    var error := CheckNames(inputs, pending, model);
    if error.Some? {
      return Err(error.value);
    }
    error := CheckPending(inputs, pending, model);
    if error.Some? {
      return Err(error.value);
    }
    var controller := OpenController(inputs, live, pending, limits, model);
    var dispatchable, states := [], map[];
    ghost var start := Outcome(OpeningTable(inputs, live, model, pending, limits), [], map[]);
    ghost var out := start;
    assert ThrottleAll([], live, model, pending, start) == start;
    hide ThrottleAll, ThrottleOne, OpeningTable, ValidSelected, Reports, UniqueNames, OnePending, Names, StepsIn;
    for k := 0 to |inputs|
      invariant forall j | 0 <= j < k :: ValidSelected(inputs[j], model)
      invariant out == ThrottleAll(inputs[..k], live, model, pending, start)
      invariant controller.Table() == out.table && dispatchable == StepsIn(out.log) && states == out.states
      invariant fresh(controller)
    {
      error := CheckSelected(inputs[k], model);
      if error.Some? {
        return Err(error.value);
      }
      forall t | t in inputs[k].selected
        ensures t !in dispatchable
      {
        FreshWork(inputs, live, model, pending, start, k, t);
      }
      ThrottleAllNext(inputs, live, model, pending, start, k);
      dispatchable, states, out := ThrottleResource(inputs[k], live, model, pending, controller, dispatchable,
                                                    states, out);
    }
    assert inputs[..|inputs|] == inputs;
    r := Ok((states, dispatchable));
  }
}
