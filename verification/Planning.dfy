/** One controller cycle: from a coordination snapshot and the published queue to the next queue
    (`controller/runtime.rs`). */
module Planning {
  import opened Types
  import opened Ordering
  import opened StateModels
  import opened BestPossible
  import opened Generation
  import opened Selection
  import opened Quotas
  import opened Throttle
  import opened Intermediate
  import LeaderStandby

  datatype Replica = Replica(resource: ResourceId, partition: PartitionId, instance: InstanceId)

  function ReplicaOf(t: Transition): Replica {
    Replica(t.resource, t.partition, t.instance)
  }

  /** A message identity: the revision of the snapshot it was planned from and its rank among the
      transitions dispatched there. */
  datatype MessageId = MessageId(revision: nat, ordinal: nat)

  datatype Message = Message(id: MessageId, session: SessionId, step: Transition)

  datatype Mode = Startup | Normal | SessionReplacement

  /** What a cycle reads: live sessions, configured instances, the CurrentState owned by live
      sessions, the placement of every resource and the configured throttles. */
  datatype Snapshot = Snapshot(
    revision: nat,
    live: map<InstanceId, SessionId>,
    configs: set<InstanceId>,
    current: map<Replica, State>,
    plans: map<ResourceId, IdealState>,
    limits: seq<Limit>)
  {
    /** What placement and throttle decoding guarantee (`IdealState::build`, `throttles`). */
    ghost predicate Valid() {
      && (forall r | r in plans :: plans[r].Valid())
      && (forall l | l in limits :: l.max > 0)
    }

    /** The state of a replica as planning sees it: live and configured instances only. */
    function At(r: ResourceId, p: PartitionId, i: InstanceId): Option<State> {
      if i in live && i in configs && Replica(r, p, i) in current then Some(current[Replica(r, p, i)]) else None
    }

    function Partitions(r: ResourceId): set<PartitionId> {
      set k | k in current && k.resource == r && At(r, k.partition, k.instance).Some? :: k.partition
    }

    function Actual(r: ResourceId): ReplicaStates {
      map p | p in Partitions(r) :: map i | i in live && At(r, p, i).Some? :: At(r, p, i).value
    }

    lemma ActualAt(r: ResourceId, p: PartitionId, i: InstanceId)
      ensures StateOf(Actual(r), p, i) == At(r, p, i)
      ensures StateOf(Actual(r), p, i).Some? ==> i in live
      ensures p in Actual(r) ==> exists j :: At(r, p, j).Some?
    {
      if At(r, p, i).Some? {
        assert Replica(r, p, i) in current;
        assert p in Partitions(r);
      }
    }
  }

  // Normalisation: every live preferred replica without a state stands at the initial one.

  function NormalState(actual: ReplicaStates, ideal: IdealState, live: set<InstanceId>, model: StateModel,
                       p: PartitionId, i: InstanceId): Option<State>
  {
    if i !in live then None
    else if StateOf(actual, p, i).Some? then StateOf(actual, p, i)
    else if p in ideal.lists && i in ideal.lists[p] then Some(model.initial)
    else None
  }

  function NormalReplicas(actual: ReplicaStates, ideal: IdealState, live: set<InstanceId>, model: StateModel,
                          p: PartitionId): Replicas {
    map i | i in live && NormalState(actual, ideal, live, model, p, i).Some? ::
      NormalState(actual, ideal, live, model, p, i).value
  }

  function Normalized(actual: ReplicaStates, ideal: IdealState, live: set<InstanceId>,
                      model: StateModel): ReplicaStates {
    map p | p in actual.Keys + ideal.lists.Keys && NormalReplicas(actual, ideal, live, model, p) != map[] ::
      NormalReplicas(actual, ideal, live, model, p)
  }

  lemma NormalizedAt(actual: ReplicaStates, ideal: IdealState, live: set<InstanceId>, model: StateModel,
                     p: PartitionId, i: InstanceId)
    ensures StateOf(Normalized(actual, ideal, live, model), p, i) == NormalState(actual, ideal, live, model, p, i)
    ensures ReplicasOf(Normalized(actual, ideal, live, model), p) == NormalReplicas(actual, ideal, live, model, p)
  {
    if p !in actual && p !in ideal.lists {
      assert NormalReplicas(actual, ideal, live, model, p) == map[];
    }
    if NormalState(actual, ideal, live, model, p, i).Some? {
      assert i in NormalReplicas(actual, ideal, live, model, p);
    }
  }

  // The plan of one resource.

  function Best(ideal: IdealState, planning: ReplicaStates, live: set<InstanceId>): ReplicaStates {
    if ideal.lists == map[] then map[] else BestPossibleState(ideal, planning, live, LeaderStandby.Model())
  }

  function Candidates(resource: ResourceId, ideal: IdealState, planning: ReplicaStates,
                      live: set<InstanceId>): seq<Transition> {
    Steps(resource, planning, Best(ideal, planning, live), LeaderStandby.Model())
  }

  function Planned(resource: ResourceId, ideal: IdealState, actual: ReplicaStates, live: set<InstanceId>,
                   pending: seq<Transition>): ResourceInput {
    var model := LeaderStandby.Model();
    var planning := Normalized(actual, ideal, live, model);
    ResourceInput(
      resource, ideal.replicas, None,
      (map p | p in planning && p !in ideal.lists :: []) + ideal.lists,
      planning,
      Best(ideal, planning, live),
      Selected(ideal, planning, live, Candidates(resource, ideal, planning, live), OfResource(pending, resource),
               model))
  }

  // Retained and operational pending work.

  predicate Wanted(snap: Snapshot, t: Transition) {
    && t.resource in snap.plans
    && t.partition in snap.plans[t.resource].lists
    && t.instance in snap.plans[t.resource].lists[t.partition]
  }

  predicate Placed(snap: Snapshot, t: Transition) {
    t.resource in snap.plans && t.partition in snap.plans[t.resource].lists
  }

  predicate Removal(s: State) {
    s == Offline || s == Dropped
  }

  predicate Retained(snap: Snapshot, mode: Mode, m: Message) {
    var t := m.step;
    var at := snap.At(t.resource, t.partition, t.instance);
    && t.instance in snap.live && snap.live[t.instance] == m.session
    && t.resource in snap.plans
    && (Placed(snap, t) || t.partition in snap.Actual(t.resource))
    && (mode == SessionReplacement ==> Wanted(snap, t) != Removal(t.to))
    && (at.Some? ==> at.value == t.from)
  }

  function Retain(snap: Snapshot, mode: Mode, queue: seq<Message>): seq<Message> {
    if queue == [] then []
    else
      var front := Retain(snap, mode, queue[..|queue| - 1]);
      if Retained(snap, mode, queue[|queue| - 1]) then front + [queue[|queue| - 1]] else front
  }

  predicate Operational(snap: Snapshot, mode: Mode, t: Transition) {
    mode == SessionReplacement ==> t.resource in snap.plans && (Wanted(snap, t) || !Placed(snap, t))
  }

  function Operations(snap: Snapshot, mode: Mode, retained: seq<Message>): seq<Transition> {
    if retained == [] then []
    else
      var front := Operations(snap, mode, retained[..|retained| - 1]);
      if Operational(snap, mode, retained[|retained| - 1].step) then front + [retained[|retained| - 1].step] else front
  }

  function Ops(snap: Snapshot, mode: Mode, queue: seq<Message>): seq<Transition> {
    Operations(snap, mode, Retain(snap, mode, queue))
  }

  // The cycle.

  function InputsOver(snap: Snapshot, ops: seq<Transition>, resources: seq<ResourceId>): (r: seq<ResourceInput>)
    requires forall x | x in resources :: x in snap.plans
    ensures |r| == |resources|
  {
    seq(|resources|, k requires 0 <= k < |resources| =>
      Planned(resources[k], snap.plans[resources[k]], snap.Actual(resources[k]), snap.live.Keys, ops))
  }

  function Inputs(snap: Snapshot, ops: seq<Transition>): seq<ResourceInput> {
    InputsOver(snap, ops, SortedKeys(snap.plans.Keys))
  }

  function Limits(snap: Snapshot, mode: Mode): seq<Limit> {
    if mode == Startup then [] else snap.limits
  }

  /** What a cycle dispatches, each step with the class it is charged under. */
  function DispatchLog(snap: Snapshot, mode: Mode, queue: seq<Message>): seq<Dispatch> {
    var ops := Ops(snap, mode, queue);
    Throttled(Inputs(snap, ops), snap.live.Keys, ops, Limits(snap, mode), LeaderStandby.Model()).log
  }

  function Dispatched(snap: Snapshot, mode: Mode, queue: seq<Message>): seq<Transition> {
    StepsIn(DispatchLog(snap, mode, queue))
  }

  /** The identity of a published message for the same step and session, if there is one. */
  function Published(queue: seq<Message>, t: Transition, session: SessionId): Option<MessageId> {
    if queue == [] then None
    else if queue[0].step == t && queue[0].session == session then Some(queue[0].id)
    else Published(queue[1..], t, session)
  }

  predicate Occupied(queue: seq<Message>, k: Replica) {
    exists m :: m in queue && ReplicaOf(m.step) == k
  }

  function Push(snap: Snapshot, original: seq<Message>, next: seq<Message>, t: Transition, ordinal: nat): seq<Message> {
    if t.instance !in snap.live || Occupied(next, ReplicaOf(t)) then next
    else
      var session := snap.live[t.instance];
      var id := match Published(original, t, session)
                case Some(id) => id
                case None => MessageId(snap.revision, ordinal);
      next + [Message(id, session, t)]
  }

  function PushAll(snap: Snapshot, original: seq<Message>, next: seq<Message>, steps: seq<Transition>): seq<Message> {
    if steps == [] then next
    else Push(snap, original, PushAll(snap, original, next, steps[..|steps| - 1]), steps[|steps| - 1], |steps| - 1)
  }

  /** The next queue. */
  function NextQueue(snap: Snapshot, mode: Mode, queue: seq<Message>): seq<Message> {
    PushAll(snap, queue, Retain(snap, mode, queue), Dispatched(snap, mode, queue))
  }

  // Membership.

  lemma {:induction false} InRetain(snap: Snapshot, mode: Mode, queue: seq<Message>)
    ensures forall m :: m in Retain(snap, mode, queue) <==> m in queue && Retained(snap, mode, m)
  {
    hide Retained;
    if queue != [] {
      var front, last := queue[..|queue| - 1], queue[|queue| - 1];
      InRetain(snap, mode, front);
      assert queue == front + [last];
    }
  }

  lemma {:induction false} InOperations(snap: Snapshot, mode: Mode, retained: seq<Message>)
    ensures forall t ::
              t in Operations(snap, mode, retained) <==>
              exists m :: m in retained && m.step == t && Operational(snap, mode, t)
  {
    hide Operational;
    if retained != [] {
      var front, last := retained[..|retained| - 1], retained[|retained| - 1];
      InOperations(snap, mode, front);
      assert retained == front + [last];
    }
  }

  lemma InOps(snap: Snapshot, mode: Mode, queue: seq<Message>, t: Transition)
    ensures t in Ops(snap, mode, queue)
            <==> exists m :: m in queue && m.step == t && Retained(snap, mode, m) && Operational(snap, mode, t)
  {
    hide Retained, Operational;
    InRetain(snap, mode, queue);
    InOperations(snap, mode, Retain(snap, mode, queue));
  }
}
