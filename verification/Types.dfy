/** The identifiers, states and records shared by every stage of the control plane.

    Resource, partition and instance identifiers are compared only for equality
    and by their total order, so natural numbers stand for them. */
module Types {

  type ResourceId = nat
  type PartitionId = nat
  type InstanceId = nat
  type SessionId = nat

  datatype Option<+T> = None | Some(value: T)

  datatype Result<+T, +E> = Ok(value: T) | Err(error: E)

  /** A state name. The first five are the names the control plane itself knows;
      every other name is application-defined. */
  datatype State = Leader | Standby | Offline | Dropped | Error | Custom(code: nat)

  /** The replica states of one partition, and of every partition of one resource. */
  type Replicas = map<InstanceId, State>
  type ReplicaStates = map<PartitionId, Replicas>

  function StateOf(states: ReplicaStates, partition: PartitionId, instance: InstanceId): Option<State> {
    if partition in states && instance in states[partition] then Some(states[partition][instance]) else None
  }

  /** A request for one replica to take one step of its state model. */
  datatype Transition = Transition(
    resource: ResourceId,
    partition: PartitionId,
    instance: InstanceId,
    from: State,
    to: State)

  /** Ordered preference lists of one resource. */
  datatype IdealState = IdealState(replicas: nat, lists: map<PartitionId, seq<InstanceId>>) {
    predicate Valid() {
      && lists != map[]
      && (forall p :: p in lists ==> |lists[p]| == replicas && Distinct(lists[p]))
    }
  }

  predicate Distinct<T(==)>(s: seq<T>) {
    forall i, j :: 0 <= i < j < |s| ==> s[i] != s[j]
  }
}
