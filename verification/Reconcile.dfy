/** The controller cycle as it runs, stage after stage, with every error path (`controller/runtime.rs`). */
module Reconcile {
  import opened Types
  import opened Ordering
  import opened StateModels
  import opened BestPossible
  import opened Generation
  import opened Selection
  import opened Throttle
  import opened Intermediate
  import opened Planning
  import opened Pipeline
  import opened Cycle
  import opened ThrottleCycle
  import LeaderStandby

  // Normalisation.

  ghost predicate NoEmpty(states: ReplicaStates) {
    forall p | p in states :: states[p] != map[]
  }

  lemma SameByState(a: ReplicaStates, b: ReplicaStates)
    requires NoEmpty(a) && NoEmpty(b) && forall p, i :: StateOf(a, p, i) == StateOf(b, p, i)
    ensures a == b
  {
    forall p
      ensures p in a <==> p in b
      ensures p in a && p in b ==> a[p] == b[p]
    {
      if p in a {
        var i :| i in a[p];
        assert StateOf(b, p, i).Some?;
      }
      if p in b {
        var i :| i in b[p];
        assert StateOf(a, p, i).Some?;
      }
      if p in a && p in b {
        forall i
          ensures i in a[p] <==> i in b[p]
          ensures i in a[p] ==> a[p][i] == b[p][i]
        {
          assert StateOf(a, p, i) == StateOf(b, p, i);
        }
        assert a[p] == b[p];
      }
    }
  }

  lemma SetStateSets(states: ReplicaStates, p: PartitionId, i: InstanceId, s: State)
    requires NoEmpty(states) && StateOf(states, p, i).None?
    ensures SetState(states, p, i, s).Ok?
    ensures NoEmpty(SetState(states, p, i, s).value)
    ensures forall q, j ::
              StateOf(SetState(states, p, i, s).value, q, j) == if q == p
                  && j == i then Some(s) else StateOf(states, q, j)
  {
    var out := SetState(states, p, i, s).value;
    assert i in out[p];
  }

  ghost predicate Extended(states: ReplicaStates, out: ReplicaStates, p: PartitionId, part: map<InstanceId, State>) {
    && NoEmpty(out)
    && (forall q, j :: StateOf(out, q, j) == if q == p && j in part then Some(part[j]) else StateOf(states, q, j))
  }

  function Filled(replicas: Replicas, instances: seq<InstanceId>): Replicas {
    map i | i in replicas && i in instances :: replicas[i]
  }

  /** Writes the states of one partition's instances, in the given order. */
  method WriteStates(states: ReplicaStates, p: PartitionId, replicas: Replicas, instances: seq<InstanceId>)
    returns (r: Result<ReplicaStates, DuplicateReplica>)
    requires NoEmpty(states) && Distinct(instances)
    requires forall i | i in instances && i in replicas :: StateOf(states, p, i).None?
    ensures r.Ok? && Extended(states, r.value, p, Filled(replicas, instances))
  {
    var out := states;
    hide SetState, NoEmpty;
    for k := 0 to |instances|
      invariant Extended(states, out, p, Filled(replicas, instances[..k]))
    {
      var i := instances[k];
      assert instances[..k + 1] == instances[..k] + [i];
      assert i !in instances[..k];
      if i !in replicas {
        continue;
      }
      assert i in instances;
      SetStateSets(out, p, i, replicas[i]);
      match SetState(out, p, i, replicas[i]) {
        case Err(e) => return Err(e);
        case Ok(next) => out := next;
      }
    }
    assert instances[..|instances|] == instances;
    r := Ok(out);
  }

  method CopyPartition(out: ReplicaStates, p: PartitionId, actual: Replicas, live: set<InstanceId>)
    returns (r: Result<ReplicaStates, DuplicateReplica>)
    requires NoEmpty(out) && forall j :: StateOf(out, p, j).None?
    ensures r.Ok? && NoEmpty(r.value)
    ensures forall q, j ::
              StateOf(r.value, q, j)
              == if q != p then StateOf(out, q, j) else if j in actual && j in live then Some(actual[j]) else None
  {
    hide NoEmpty;
    var replicas, instances := map i | i in actual && i in live :: actual[i], SortedKeys(actual.Keys);
    r := WriteStates(out, p, replicas, instances);
    assert Filled(replicas, instances) == replicas;
  }

  /** The states of live instances, copied. */
  method CopyLive(actual: ReplicaStates, live: set<InstanceId>) returns (r: Result<ReplicaStates, DuplicateReplica>)
    ensures r.Ok? && NoEmpty(r.value)
    ensures forall q, j :: StateOf(r.value, q, j) == if j in live then StateOf(actual, q, j) else None
  {
    var out: ReplicaStates := map[];
    var partitions := SortedKeys(actual.Keys);
    for k := 0 to |partitions|
      invariant NoEmpty(out)
      invariant forall q, j ::
                  StateOf(out, q, j) == if q in partitions[..k] && j in live then StateOf(actual, q, j) else None
    {
      var p := partitions[k];
      AscendingFresh(partitions, k);
      hide NoEmpty, Elements;
      var written := CopyPartition(out, p, actual[p], live);
      out := written.value;
    }
    assert partitions[..|partitions|] == partitions;
    r := Ok(out);
  }

  /** The initial state for every live preferred replica of one partition that has none. */
  method FillInitial(out: ReplicaStates, actual: ReplicaStates, ideal: IdealState, live: set<InstanceId>,
                     model: StateModel, p: PartitionId)
    returns (r: Result<ReplicaStates, DuplicateReplica>)
    requires NoEmpty(out) && p in ideal.lists && Distinct(ideal.lists[p])
    requires forall j :: StateOf(out, p, j) == if j in live then StateOf(actual, p, j) else None
    ensures r.Ok? && NoEmpty(r.value)
    ensures forall q, j ::
              StateOf(r.value, q, j)
              == if q == p then NormalState(actual, ideal, live, model, p, j) else StateOf(out, q, j)
  {
    var replicas := map i | i in ideal.lists[p] && i in live && StateOf(actual, p, i).None? :: model.initial;
    hide NoEmpty;
    r := WriteStates(out, p, replicas, ideal.lists[p]);
    assert Filled(replicas, ideal.lists[p]) == replicas;
  }

  /** `normalize_current`: the duplicate-refusing builder never refuses. */
  method NormalizeCurrent(actual: ReplicaStates, ideal: IdealState, live: set<InstanceId>, model: StateModel)
    returns (r: Result<ReplicaStates, DuplicateReplica>)
    requires forall p | p in ideal.lists :: Distinct(ideal.lists[p])
    ensures r == Ok(Normalized(actual, ideal, live, model))
  {
    r := CopyLive(actual, live);
    ghost var base := r.value;
    var partitions := SortedKeys(ideal.lists.Keys);
    for k := 0 to |partitions|
      invariant r.Ok? && NoEmpty(r.value)
      invariant forall q, j ::
                  StateOf(r.value, q,
                          j) == (if q in partitions[..k] then NormalState(actual, ideal, live, model, q,
                              j) else StateOf(base, q, j))
    {
      var p := partitions[k];
      AscendingFresh(partitions, k);
      hide NoEmpty, NormalState, Elements;
      r := FillInitial(r.value, actual, ideal, live, model, p);
    }
    assert partitions[..|partitions|] == partitions;
    NormalizedByState(actual, ideal, live, model, r.value);
  }

  lemma NormalizedByState(actual: ReplicaStates, ideal: IdealState, live: set<InstanceId>, model: StateModel,
                          out: ReplicaStates)
    requires NoEmpty(out)
    requires forall q, j ::
               StateOf(out, q, j) == (if q in ideal.lists then NormalState(actual, ideal, live, model, q, j)
                                                   else if j in live then StateOf(actual, q, j) else None)
    ensures out == Normalized(actual, ideal, live, model)
  {
    assert NoEmpty(Normalized(actual, ideal, live, model));
    hide Normalized, NoEmpty;
    forall p, i
      ensures StateOf(out, p, i) == StateOf(Normalized(actual, ideal, live, model), p, i)
    {
      NormalizedAt(actual, ideal, live, model, p, i);
    }
    SameByState(out, Normalized(actual, ideal, live, model));
  }

  // One resource.

  ghost predicate PendingKnown(snap: Snapshot, ops: seq<Transition>, r: ResourceId)
    requires r in snap.plans
  {
    && (forall t | t in OfResource(ops, r) ::
          KnownPartition(snap.plans[r], PlanState(snap, r), LeaderStandby.Model(), t))
    && OnePerReplica(OfResource(ops, r))
  }

  lemma StagesAccept(snap: Snapshot, ops: seq<Transition>, r: ResourceId)
    requires snap.Valid() && r in snap.plans
    ensures var ideal, planning, live := snap.plans[r], PlanState(snap, r), snap.live.Keys;
            && SameReplicas(planning, Best(ideal, planning, live))
            && (Selectable(r, ideal, planning, Candidates(r, ideal, planning, live), OfResource(ops, r),
                           LeaderStandby.Model())
                <==> PendingKnown(snap, ops, r))
  {
    var ideal, planning, live := snap.plans[r], PlanState(snap, r), snap.live.Keys;
    PlanStateComplete(snap, r);
    hide Candidates, PlanState, KnownPartition, LeaderStandby.Model, Best;
    PlanKeepsReplicas(ideal, planning, live);
    forall t | t in Candidates(r, ideal, planning, live)
      ensures t.resource == r && KnownPartition(ideal, planning, LeaderStandby.Model(), t)
    {
      CandidatesAreSelectable(r, ideal, planning, live, t);
    }
  }

  /** `resource_transition_input`: of its stages only selection can fail, and only because of work in flight. */
  method PlanResource(snap: Snapshot, r: ResourceId, ops: seq<Transition>)
    returns (result: Result<ResourceInput, SelectionError>)
    requires snap.Valid() && r in snap.plans
    ensures result.Ok? <==> PendingKnown(snap, ops, r)
    ensures result.Ok? ==> result.value == Planned(r, snap.plans[r], snap.Actual(r), snap.live.Keys, ops)
  {
    var ideal, live, model := snap.plans[r], snap.live.Keys, LeaderStandby.Model();
    StagesAccept(snap, ops, r);
    hide Candidates, Selected, LeaderStandby.Model, Selectable, PendingKnown;
    hide SameReplicas, BestPossibleState, Normalized, Steps;
    var normal := NormalizeCurrent(snap.Actual(r), ideal, live, model);
    var planning := normal.value;
    assert planning == PlanState(snap, r);
    var best: ReplicaStates := map[];
    if ideal.lists != map[] {
      var computed := ComputeBestPossible(ideal, planning, live, model);
      best := computed.value;
    }
    assert best == Best(ideal, planning, live);
    var generated := GenerateTransitions(r, planning, best, model);
    var candidates := generated.value;
    assert candidates == Candidates(r, ideal, planning, live) by {
      CandidatesUnfold(r, ideal, planning, live);
    }
    var pending := OfResource(ops, r);
    var lists := (map p | p in planning && p !in ideal.lists :: []) + ideal.lists;
    var selected := SelectTransitions(r, ideal, planning, live, candidates, pending, model);
    if selected.Err? {
      return Err(selected.error);
    }
    result := Ok(ResourceInput(r, ideal.replicas, None, lists, planning, best, selected.value));
  }

  lemma CandidatesUnfold(r: ResourceId, ideal: IdealState, planning: ReplicaStates, live: set<InstanceId>)
    ensures Candidates(r, ideal, planning, live)
         == Steps(r, planning, Best(ideal, planning, live), LeaderStandby.Model())
  {
  }

  // The cycle.

  lemma {:induction false} OnePendingByResource(ops: seq<Transition>)
    requires forall t | t in ops :: OnePerReplica(OfResource(ops, t.resource))
    ensures OnePending(ops)
  {
    if ops != [] {
      var front, last := ops[..|ops| - 1], ops[|ops| - 1];
      assert ops == front + [last];
      forall t | t in front
        ensures OnePerReplica(OfResource(front, t.resource))
        ensures !SameReplica(t, last)
      {
        assert t in ops;
        OfResourceFilters(front, t.resource);
        var before := OfResource(front, t.resource);
        if last.resource == t.resource {
          assert OfResource(ops, t.resource) == before + [last];
          var k :| 0 <= k < |before| && before[k] == t;
          assert (before + [last])[k] == t && (before + [last])[|before|] == last;
        }
        assert forall k | 0 <= k < |before| :: OfResource(ops, t.resource)[k] == before[k];
      }
      OnePendingByResource(front);
    }
  }

  lemma RetainedResources(snap: Snapshot, mode: Mode, queue: seq<Message>)
    ensures forall t | t in Ops(snap, mode, queue) :: t.resource in snap.plans
  {
    forall t | t in Ops(snap, mode, queue)
      ensures t.resource in snap.plans
    {
      InOps(snap, mode, queue, t);
    }
  }

  lemma PlannableByResource(snap: Snapshot, ops: seq<Transition>)
    requires forall t | t in ops :: t.resource in snap.plans
    ensures Plannable(snap, ops) <==> forall r | r in snap.plans :: PendingKnown(snap, ops, r)
  {
    hide KnownPartition, PlanState, LeaderStandby.Model, OnePerReplica, OnePending, OfResource;
    forall r | r in snap.plans
      ensures forall t :: t in OfResource(ops, r) <==> t in ops && t.resource == r
      ensures OnePending(ops) ==> OnePerReplica(OfResource(ops, r))
    {
      OfResourceFilters(ops, r);
      if OnePending(ops) {
        OfResourceOne(ops, r);
      }
    }
    if forall r | r in snap.plans :: PendingKnown(snap, ops, r) {
      forall t | t in ops
        ensures OnePerReplica(OfResource(ops, t.resource))
      {
        assert PendingKnown(snap, ops, t.resource);
      }
      OnePendingByResource(ops);
      forall t | t in ops
        ensures KnownPartition(snap.plans[t.resource], PlanState(snap, t.resource), LeaderStandby.Model(), t)
      {
        assert PendingKnown(snap, ops, t.resource);
        assert t in OfResource(ops, t.resource);
      }
    }
  }

  /** The plans of every resource. */
  method PlanResources(snap: Snapshot, ops: seq<Transition>) returns (r: Result<seq<ResourceInput>, SelectionError>)
    requires snap.Valid()
    ensures r.Ok? <==> forall x | x in snap.plans :: PendingKnown(snap, ops, x)
    ensures r.Ok? ==> r.value == Inputs(snap, ops)
  {
    hide PendingKnown, Planned, Snapshot.Actual, Snapshot.Valid;
    var resources, inputs := SortedKeys(snap.plans.Keys), [];
    for k := 0 to |resources|
      invariant forall j | 0 <= j < k :: PendingKnown(snap, ops, resources[j])
      invariant InputsUpTo(snap, ops, inputs, k)
    {
      assert resources[k] in resources;
      var planned := PlanResource(snap, resources[k], ops);
      if planned.Err? {
        return Err(planned.error);
      }
      inputs := inputs + [planned.value];
    }
    InputsAre(snap, ops, inputs);
    forall x | x in snap.plans
      ensures PendingKnown(snap, ops, x)
    {
      assert x in resources;
    }
    r := Ok(inputs);
  }

  /** The plans of the first `k` resources. */
  ghost predicate InputsUpTo(snap: Snapshot, ops: seq<Transition>, inputs: seq<ResourceInput>, k: nat) {
    var resources := SortedKeys(snap.plans.Keys);
    && |inputs| == k <= |resources|
    && forall j | 0 <= j < k ::
         && resources[j] in snap.plans
         && inputs[j] == Planned(resources[j], snap.plans[resources[j]], snap.Actual(resources[j]), snap.live.Keys, ops)
  }

  lemma InputsAre(snap: Snapshot, ops: seq<Transition>, inputs: seq<ResourceInput>)
    requires InputsUpTo(snap, ops, inputs, |SortedKeys(snap.plans.Keys)|)
    ensures inputs == Inputs(snap, ops)
  {
    hide Planned, Snapshot.Actual;
  }

  /** `retain_pending`. */
  method RetainPending(snap: Snapshot, mode: Mode, queue: seq<Message>) returns (kept: seq<Message>)
    ensures kept == Retain(snap, mode, queue)
  {
    kept := [];
    hide Retained;
    for k := 0 to |queue|
      invariant kept == Retain(snap, mode, queue[..k])
    {
      assert queue[..k + 1][..k] == queue[..k];
      if Retained(snap, mode, queue[k]) {
        kept := kept + [queue[k]];
      }
    }
    assert queue[..|queue|] == queue;
  }

  /** `operational_pending_for_plans`. */
  method OperationalPending(snap: Snapshot, mode: Mode, retained: seq<Message>) returns (ops: seq<Transition>)
    ensures ops == Operations(snap, mode, retained)
  {
    ops := [];
    hide Operational;
    for k := 0 to |retained|
      invariant ops == Operations(snap, mode, retained[..k])
    {
      assert retained[..k + 1][..k] == retained[..k];
      if Operational(snap, mode, retained[k].step) {
        ops := ops + [retained[k].step];
      }
    }
    assert retained[..|retained|] == retained;
  }

  /** Adds the dispatched steps to the retained queue. */
  method PushDispatched(snap: Snapshot, original: seq<Message>, kept: seq<Message>, steps: seq<Transition>)
    returns (next: seq<Message>)
    ensures next == PushAll(snap, original, kept, steps)
  {
    next := kept;
    for k := 0 to |steps|
      invariant next == PushAll(snap, original, kept, steps[..k])
    {
      assert steps[..k + 1][..k] == steps[..k];
      var t := steps[k];
      if t.instance !in snap.live {
        continue;
      }
      var published := Published(original, t, snap.live[t.instance]);
      var id := if published.Some? then published.value else MessageId(snap.revision, k);
      if !Occupied(next, ReplicaOf(t)) {
        next := next + [Message(id, snap.live[t.instance], t)];
      }
    }
    assert steps[..|steps|] == steps;
  }

  // Arranging the output.

  /** A queue without repetitions next to each other. */
  function Deduped(queue: seq<Message>): seq<Message> {
    if queue == [] then []
    else
      var front, last := Deduped(queue[..|queue| - 1]), queue[|queue| - 1];
      if front != [] && front[|front| - 1] == last then front else front + [last]
  }

  /** `dedup` removes nothing from a queue of different messages. */
  lemma {:induction false} DedupedDistinct(queue: seq<Message>)
    requires Distinct(queue)
    ensures Deduped(queue) == queue
  {
    if queue != [] {
      var front, last := queue[..|queue| - 1], queue[|queue| - 1];
      DedupedDistinct(front);
      assert queue == front + [last];
    }
  }

  method Dedup(queue: seq<Message>) returns (result: seq<Message>)
    ensures result == Deduped(queue)
  {
    result := [];
    for k := 0 to |queue|
      invariant result == Deduped(queue[..k])
    {
      assert queue[..k + 1][..k] == queue[..k];
      if result == [] || result[|result| - 1] != queue[k] {
        result := result + [queue[k]];
      }
    }
    assert queue[..|queue|] == queue;
  }

  /** The queue as it is published: sorted, without repetitions. */
  function Arranged(order: (Message, Message) -> bool, queue: seq<Message>): seq<Message> {
    Deduped(SortBy(order, queue))
  }

  /** Whatever the order of messages, a published queue holds exactly the messages of the next queue. */
  lemma PublishedIsArranged(snap: Snapshot, mode: Mode, queue: seq<Message>, order: (Message, Message) -> bool)
    requires OneMessagePerReplica(queue)
    ensures multiset(Arranged(order, NextQueue(snap, mode, queue))) == multiset(NextQueue(snap, mode, queue))
  {
    hide NextQueue;
    NextQueueGrows(snap, mode, queue);
    var next := NextQueue(snap, mode, queue);
    assert Distinct(next);
    SortPermutes(order, next);
    PermutationDistinct(next, SortBy(order, next));
    DedupedDistinct(SortBy(order, next));
  }

  // The external view.

  function ExternalView(snap: Snapshot): map<ResourceId, ReplicaStates> {
    map r | r in Reported(snap) :: snap.Actual(r)
  }

  function Reported(snap: Snapshot): set<ResourceId> {
    set k | k in snap.current :: k.resource
  }

  /** The external view shows exactly the states of live, configured replicas. */
  lemma ExternalViewShows(snap: Snapshot, r: ResourceId, p: PartitionId, i: InstanceId)
    ensures snap.At(r, p, i).Some? ==> r in ExternalView(snap)
    ensures r in ExternalView(snap) ==> StateOf(ExternalView(snap)[r], p, i) == snap.At(r, p, i)
  {
    snap.ActualAt(r, p, i);
    if snap.At(r, p, i).Some? {
      assert Replica(r, p, i) in snap.current;
    }
  }

  /** `compute_outputs_with_pending_policy`: the external view and the next queue, sorted and without
      repetitions, or an error of selection exactly when the work in flight is not plannable; no other
      stage can fail. */
  method ComputeOutputs(snap: Snapshot, mode: Mode, queue: seq<Message>, order: (Message, Message) -> bool)
    returns (r: Result<(map<ResourceId, ReplicaStates>, seq<Message>), SelectionError>)
    requires snap.Valid()
    ensures r.Ok? <==> Plannable(snap, Ops(snap, mode, queue))
    ensures r.Ok? ==> r.value == (ExternalView(snap), Arranged(order, NextQueue(snap, mode, queue)))
  {
    hide Plannable, Inputs, Throttled, PushAll, Retain, Operations, PendingKnown, Acceptable, Reports, SortBy, Deduped;
    var kept := RetainPending(snap, mode, queue);
    var ops := OperationalPending(snap, mode, kept);
    RetainedResources(snap, mode, queue);
    PlannableByResource(snap, ops);
    var inputs := PlanResources(snap, ops);
    if inputs.Err? {
      return Err(inputs.error);
    }
    PlansAreAcceptable(snap, ops);
    var throttled := ComputeIntermediateAndThrottle(inputs.value, snap.live.Keys, ops, Limits(snap, mode),
                                                    LeaderStandby.Model());
    var next := PushDispatched(snap, queue, kept, throttled.value.1);
    next := Dedup(SortBy(order, next));
    r := Ok((ExternalView(snap), next));
  }
}
