/** One-step transition requests from current to target states (`message_generation.rs`). */
module Generation {
  import opened Types
  import opened Ordering
  import opened StateModels
  import opened BestPossible

  datatype GenerationError =
    | MissingCurrentState(partition: PartitionId, instance: InstanceId)
    | MissingTargetState(partition: PartitionId, instance: InstanceId)

  /** The step of one replica, if it has one. */
  function StepOf(resource: ResourceId, current: ReplicaStates, target: ReplicaStates, model: StateModel,
                  p: PartitionId, i: InstanceId): Option<Transition>
  {
    match (StateOf(current, p, i), StateOf(target, p, i))
    case (Some(from), Some(desired)) =>
      if from == desired then None
      else (match model.NextToward(from, desired)
            case None => None
            case Some(hop) => Some(Transition(resource, p, i, from, hop)))
    case _ => None
  }

  function StepsOf(resource: ResourceId, current: ReplicaStates, target: ReplicaStates, model: StateModel,
                   p: PartitionId, instances: seq<InstanceId>): seq<Transition>
  {
    if instances == [] then []
    else
      StepsOf(resource, current, target, model, p, instances[..|instances| - 1])
      + Listed(StepOf(resource, current, target, model, p, instances[|instances| - 1]))
  }

  function Listed<T>(x: Option<T>): seq<T> {
    match x
    case None => []
    case Some(v) => [v]
  }

  function StepsAcross(resource: ResourceId, current: ReplicaStates, target: ReplicaStates, model: StateModel,
                       partitions: seq<PartitionId>): seq<Transition>
  {
    if partitions == [] then []
    else
      var p := partitions[|partitions| - 1];
      StepsAcross(resource, current, target, model, partitions[..|partitions| - 1])
      + StepsOf(resource, current, target, model, p, SortedKeys(ReplicasOf(target, p).Keys))
  }

  /** Every step, by partition and then by instance. */
  function Steps(resource: ResourceId, current: ReplicaStates, target: ReplicaStates,
                 model: StateModel): seq<Transition> {
    StepsAcross(resource, current, target, model, SortedKeys(target.Keys))
  }

  /** Both maps hold a state for exactly the same replicas. */
  ghost predicate SameReplicas(current: ReplicaStates, target: ReplicaStates) {
    forall p, i :: StateOf(current, p, i).Some? <==> StateOf(target, p, i).Some?
  }

  // What the list of steps contains.

  lemma InListed<T>(x: Option<T>, v: T)
    ensures v in Listed(x) <==> x == Some(v)
  {
  }

  lemma {:induction false} InStepsOf(resource: ResourceId, current: ReplicaStates, target: ReplicaStates,
                                     model: StateModel,
                                     p: PartitionId, instances: seq<InstanceId>, t: Transition)
    ensures t in StepsOf(resource, current, target, model, p, instances) <==>
            t.instance in instances && StepOf(resource, current, target, model, p, t.instance) == Some(t)
  {
    if instances != [] {
      hide StepOf, Listed;
      var front, last := instances[..|instances| - 1], instances[|instances| - 1];
      var step := StepOf(resource, current, target, model, p, last);
      InStepsOf(resource, current, target, model, p, front, t);
      InListed(step, t);
      assert instances == front + [last];
      assert step == Some(t) ==> t.instance == last by {
        StepOfInstance(resource, current, target, model, p, last);
      }
    }
  }

  lemma StepOfInstance(resource: ResourceId, current: ReplicaStates, target: ReplicaStates, model: StateModel,
                       p: PartitionId, i: InstanceId)
    ensures var step := StepOf(resource, current, target, model, p, i);
            step.Some? ==> step.value.instance == i && step.value.partition == p
  {
  }

  lemma {:induction false} InStepsAcross(resource: ResourceId, current: ReplicaStates, target: ReplicaStates,
                                         model: StateModel,
                                         partitions: seq<PartitionId>, t: Transition)
    requires forall p | p in partitions :: p in target
    ensures t in StepsAcross(resource, current, target, model, partitions) <==>
            t.partition in partitions && StepOf(resource, current, target, model, t.partition, t.instance) == Some(t)
  {
    if partitions != [] {
      hide StepOf, StepsOf;
      var front, p := partitions[..|partitions| - 1], partitions[|partitions| - 1];
      assert partitions == front + [p];
      InStepsAcross(resource, current, target, model, front, t);
      InPartitionSteps(resource, current, target, model, p, t);
    }
  }

  lemma InPartitionSteps(resource: ResourceId, current: ReplicaStates, target: ReplicaStates, model: StateModel,
                         p: PartitionId, t: Transition)
    requires p in target
    ensures t in StepsOf(resource, current, target, model, p, SortedKeys(ReplicasOf(target, p).Keys)) <==>
            t.partition == p && StepOf(resource, current, target, model, p, t.instance) == Some(t)
  {
    hide StepsOf;
    InStepsOf(resource, current, target, model, p, SortedKeys(ReplicasOf(target, p).Keys), t);
  }

  /** A request is generated exactly for each replica that is not where it should be and has a way there. */
  lemma InSteps(resource: ResourceId, current: ReplicaStates, target: ReplicaStates, model: StateModel, t: Transition)
    ensures t in Steps(resource, current, target, model) <==>
            StepOf(resource, current, target, model, t.partition, t.instance) == Some(t)
  {
    InStepsAcross(resource, current, target, model, SortedKeys(target.Keys), t);
  }

  lemma StepsOfNext(resource: ResourceId, current: ReplicaStates, target: ReplicaStates, model: StateModel,
                    p: PartitionId, instances: seq<InstanceId>, j: nat)
    requires j < |instances|
    ensures StepsOf(resource, current, target, model, p, instances[..j + 1])
         == StepsOf(resource, current, target, model, p, instances[..j])
            + Listed(StepOf(resource, current, target, model, p, instances[j]))
  {
    assert instances[..j + 1][..j] == instances[..j];
  }

  lemma StepsAcrossNext(resource: ResourceId, current: ReplicaStates, target: ReplicaStates, model: StateModel,
                        partitions: seq<PartitionId>, k: nat)
    requires k < |partitions|
    ensures StepsAcross(resource, current, target, model, partitions[..k + 1])
         == StepsAcross(resource, current, target, model, partitions[..k])
            + StepsOf(resource, current, target, model, partitions[k],
                      SortedKeys(ReplicasOf(target, partitions[k]).Keys))
  {
    assert partitions[..k + 1][..k] == partitions[..k];
  }

  // The stage.

  ghost predicate Covered(left: ReplicaStates, right: ReplicaStates, p: PartitionId) {
    forall i | i in ReplicasOf(left, p) :: StateOf(right, p, i).Some?
  }

  /** Looks for a replica of `left` that `right` does not have. */
  method FindMissing(left: ReplicaStates, right: ReplicaStates) returns (missing: Option<(PartitionId, InstanceId)>)
    ensures missing.None? ==> forall p :: Covered(left, right, p)
    ensures missing.Some? ==>
      StateOf(left, missing.value.0, missing.value.1).Some? && StateOf(right, missing.value.0, missing.value.1).None?
  {
    var partitions := SortedKeys(left.Keys);
    for k := 0 to |partitions|
      invariant forall j | 0 <= j < k :: Covered(left, right, partitions[j])
    {
      var p := partitions[k];
      var instances := SortedKeys(left[p].Keys);
      for j := 0 to |instances|
        invariant forall i | 0 <= i < j :: StateOf(right, p, instances[i]).Some?
      {
        if StateOf(right, p, instances[j]).None? {
          return Some((p, instances[j]));
        }
      }
    }
    missing := None;
    forall p
      ensures Covered(left, right, p)
    {
      if p in left {
        assert p in partitions;
      }
    }
  }

  lemma CoveredBothWays(current: ReplicaStates, target: ReplicaStates)
    requires forall p :: Covered(target, current, p) && Covered(current, target, p)
    ensures SameReplicas(current, target)
  {
    forall p, i
      ensures StateOf(current, p, i).Some? <==> StateOf(target, p, i).Some?
    {
      assert Covered(target, current, p) && Covered(current, target, p);
    }
  }

  /** `generate_transitions`: fails exactly when the two maps disagree on which replicas exist. */
  method GenerateTransitions(resource: ResourceId, current: ReplicaStates, target: ReplicaStates, model: StateModel)
    returns (r: Result<seq<Transition>, GenerationError>)
    ensures r.Ok? <==> SameReplicas(current, target)
    ensures r.Ok? ==> r.value == Steps(resource, current, target, model)
    ensures r.Err? ==>
      var p, i := r.error.partition, r.error.instance;
      match r.error
      case MissingCurrentState(_, _) => StateOf(target, p, i).Some? && StateOf(current, p, i).None?
      case MissingTargetState(_, _) => StateOf(current, p, i).Some? && StateOf(target, p, i).None?
  {
    var missing := FindMissing(target, current);
    if missing.Some? {
      return Err(MissingCurrentState(missing.value.0, missing.value.1));
    }
    missing := FindMissing(current, target);
    if missing.Some? {
      return Err(MissingTargetState(missing.value.0, missing.value.1));
    }
    CoveredBothWays(current, target);
    var requests, partitions := [], SortedKeys(target.Keys);
    assert StepsAcross(resource, current, target, model, []) == [];
    hide StepsAcross, StepsOf;
    for k := 0 to |partitions|
      invariant requests == StepsAcross(resource, current, target, model, partitions[..k])
    {
      assert forall i | i in target[partitions[k]] :: StateOf(target, partitions[k], i).Some?;
      var steps := PushSteps(resource, current, target, model, partitions[k]);
      requests := requests + steps;
      StepsAcrossNext(resource, current, target, model, partitions, k);
    }
    assert partitions[..|partitions|] == partitions;
    r := Ok(requests);
  }

  /** The requests of one partition. */
  method PushSteps(resource: ResourceId, current: ReplicaStates, target: ReplicaStates, model: StateModel,
                   p: PartitionId)
    returns (requests: seq<Transition>)
    requires p in target && forall i | i in target[p] :: StateOf(current, p, i).Some?
    ensures requests == StepsOf(resource, current, target, model, p, SortedKeys(target[p].Keys))
  {
    var instances := SortedKeys(target[p].Keys);
    requests := [];
    assert StepsOf(resource, current, target, model, p, []) == [];
    hide StepsOf;
    for j := 0 to |instances|
      invariant requests == StepsOf(resource, current, target, model, p, instances[..j])
    {
      var i := instances[j];
      StepsOfNext(resource, current, target, model, p, instances, j);
      assert i in target[p] && StateOf(current, p, i).Some?;
      var from, desired := current[p][i], target[p][i];
      if from != desired {
        var hop := model.NextToward(from, desired);
        if hop.Some? {
          requests := requests + [Transition(resource, p, i, from, hop.value)];
        }
      }
    }
    assert instances[..|instances|] == instances;
  }
}
