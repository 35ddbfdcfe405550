/** The planning stages composed: under LeaderStandby no stage can fail on its predecessor's output,
    and what is selected has a closed form. */
module Pipeline {
  import opened Types
  import opened BestPossible
  import opened Generation
  import opened Selection
  import opened Intermediate
  import opened LsPlacement
  import opened LsSelection
  import opened Planning
  import LeaderStandby

  /** Where a replica should be: live preferred replicas lead or stand by, every other one goes. */
  function Target(active: seq<InstanceId>, current: Replicas, i: InstanceId): State {
    if i !in active then Dropped else if i == LeaderOf(active, current) then Leader else Standby
  }

  function List(ideal: IdealState, p: PartitionId): seq<InstanceId> {
    if p in ideal.lists then ideal.lists[p] else []
  }

  /** Every live preferred replica has a state. */
  ghost predicate Complete(ideal: IdealState, planning: ReplicaStates, live: set<InstanceId>) {
    forall p, i | i in LivePreferred(List(ideal, p), live) :: StateOf(planning, p, i).Some?
  }

  ghost predicate LiveOnly(planning: ReplicaStates, live: set<InstanceId>) {
    forall p, i | StateOf(planning, p, i).Some? :: i in live
  }

  lemma NormalizedComplete(actual: ReplicaStates, ideal: IdealState, live: set<InstanceId>)
    ensures Complete(ideal, Normalized(actual, ideal, live, LeaderStandby.Model()), live)
    ensures LiveOnly(Normalized(actual, ideal, live, LeaderStandby.Model()), live)
  {
    hide Normalized;
    forall p, i
      ensures StateOf(Normalized(actual, ideal, live, LeaderStandby.Model()), p, i)
           == NormalState(actual, ideal, live, LeaderStandby.Model(), p, i)
    {
      NormalizedAt(actual, ideal, live, LeaderStandby.Model(), p, i);
    }
  }

  lemma BestForAt(ideal: IdealState, planning: ReplicaStates, live: set<InstanceId>, p: PartitionId, i: InstanceId)
    requires ideal.Valid() && Complete(ideal, planning, live) && LiveOnly(planning, live)
    ensures var best, active := BestFor(ideal, planning, live, LeaderStandby.Model(),
                                        p), LivePreferred(List(ideal, p), live);
            && (i in best <==> StateOf(planning, p, i).Some?)
            && (i in best ==> best[i] == Target(active, ReplicasOf(planning, p), i))
  {
    var current, active := ReplicasOf(planning, p), LivePreferred(List(ideal, p), live);
    assert i in current <==> StateOf(planning, p, i).Some?;
    if p in ideal.lists {
      AssignedIsPlacement(current, ideal.lists[p], live);
      hide Assigned, LeaderOf;
      assert i in Placement(active, current) <==> i in active;
      assert i in active ==> StateOf(planning, p, i).Some?;
    } else {
      assert active == [];
    }
  }

  /** Best-possible states of complete planning states: the same replicas, each at its target. */
  lemma BestAt(ideal: IdealState, planning: ReplicaStates, live: set<InstanceId>, p: PartitionId, i: InstanceId)
    requires ideal.Valid() && Complete(ideal, planning, live) && LiveOnly(planning, live)
    ensures StateOf(Best(ideal, planning, live), p, i)
         == if StateOf(planning, p, i).None? then None
            else Some(Target(LivePreferred(List(ideal, p), live), ReplicasOf(planning, p), i))
  {
    BestForAt(ideal, planning, live, p, i);
    hide BestFor, LeaderStandby.Model, Target;
    if StateOf(planning, p, i).Some? {
      assert p in planning;
      assert i in BestFor(ideal, planning, live, LeaderStandby.Model(), p);
    }
  }

  lemma PlanKeepsReplicas(ideal: IdealState, planning: ReplicaStates, live: set<InstanceId>)
    requires ideal.Valid() && Complete(ideal, planning, live) && LiveOnly(planning, live)
    ensures SameReplicas(planning, Best(ideal, planning, live))
  {
    hide Best;
    forall p, i
      ensures StateOf(planning, p, i).Some? <==> StateOf(Best(ideal, planning, live), p, i).Some?
    {
      BestAt(ideal, planning, live, p, i);
    }
  }

  /** The step a replica is due: its state, its target and the way between them. */
  ghost predicate Due(resource: ResourceId, ideal: IdealState, planning: ReplicaStates, live: set<InstanceId>,
                      t: Transition) {
    && t.resource == resource
    && StateOf(planning, t.partition, t.instance) == Some(t.from)
    && LeaderStandby.Hop(t.from,
                         Target(LivePreferred(List(ideal, t.partition), live), ReplicasOf(planning, t.partition),
                                t.instance)) == Some(t.to)
  }

  lemma CandidatesAreDue(resource: ResourceId, ideal: IdealState, planning: ReplicaStates, live: set<InstanceId>,
                         t: Transition)
    requires ideal.Valid() && Complete(ideal, planning, live) && LiveOnly(planning, live)
    ensures t in Candidates(resource, ideal, planning, live) <==> Due(resource, ideal, planning, live, t)
  {
    InSteps(resource, planning, Best(ideal, planning, live), LeaderStandby.Model(), t);
    BestAt(ideal, planning, live, t.partition, t.instance);
    hide Best, Steps, LeaderStandby.Model, Target;
    var target := Target(LivePreferred(List(ideal, t.partition), live), ReplicasOf(planning, t.partition), t.instance);
    if StateOf(planning, t.partition, t.instance).Some? {
      LeaderStandby.HopIsNextToward(StateOf(planning, t.partition, t.instance).value, target);
    }
  }

  /** Selection accepts every generated candidate. */
  lemma CandidatesAreSelectable(resource: ResourceId, ideal: IdealState, planning: ReplicaStates,
                                live: set<InstanceId>, t: Transition)
    requires ideal.Valid() && Complete(ideal, planning, live) && LiveOnly(planning, live)
    requires t in Candidates(resource, ideal, planning, live)
    ensures t.resource == resource && t.partition in planning
    ensures List(ideal, t.partition) != [] || DropPath(planning, LeaderStandby.Model(), t)
    ensures KnownPartition(ideal, planning, LeaderStandby.Model(), t)
  {
    hide Candidates;
    CandidatesAreDue(resource, ideal, planning, live, t);
    LeaderStandby.HopIsNextToward(t.from, Dropped);
    assert Dropped in LeaderStandby.Model().states by {
      assert LeaderStandby.LsStates()[3] == Dropped;
    }
    hide LeaderStandby.Model;
    if List(ideal, t.partition) == [] {
      assert LivePreferred(List(ideal, t.partition), live) == [];
    }
  }

  /** At most one replica of a partition is due to lead. */
  lemma OnePromotionDue(resource: ResourceId, ideal: IdealState, planning: ReplicaStates, live: set<InstanceId>,
                        a: Transition, b: Transition)
    requires Due(resource, ideal, planning, live, a) && Due(resource, ideal, planning, live, b)
    requires a.partition == b.partition && a.to == b.to == Leader
    ensures a == b
  {
  }

  ghost predicate Free(live: set<InstanceId>, planning: ReplicaStates, pending: seq<Transition>,
                       resource: ResourceId, p: PartitionId) {
    && (forall i | i in live && i in ReplicasOf(planning, p) :: ReplicasOf(planning, p)[i] != Leader)
    && (forall t | t in pending && t.resource == resource && t.partition == p :: t.to != Leader && t.from != Leader)
  }

  lemma FreeIsLeaderFree(live: set<InstanceId>, planning: ReplicaStates, pending: seq<Transition>,
                         resource: ResourceId, p: PartitionId)
    ensures Free(live, planning, pending, resource, p) <==>
            LeaderFree(live, ReplicasOf(planning, p), InPartition(OfResource(pending, resource), p))
  {
    OfResourceFilters(pending, resource);
    InPartitionFilters(OfResource(pending, resource), p);
  }

  /** Exactly what is selected: every step that is due, except that a promotion also needs a
      partition in which nothing leads and nothing pending leads or stops leading. */
  lemma SelectedIsDue(resource: ResourceId, ideal: IdealState, planning: ReplicaStates, live: set<InstanceId>,
                      pending: seq<Transition>, t: Transition)
    requires ideal.Valid() && Complete(ideal, planning, live) && LiveOnly(planning, live)
    ensures t in Selected(ideal, planning, live, Candidates(resource, ideal, planning, live),
                          OfResource(pending, resource), LeaderStandby.Model())
            <==>
            && Due(resource, ideal, planning, live, t)
            && (t.to == Leader ==> Free(live, planning, pending, resource, t.partition))
  {
    hide Candidates, Selected, Due, Free, LeaderFree, Chosen, LeaderStandby.Model;
    var m, p := LeaderStandby.Model(), t.partition;
    var candidates, mine := Candidates(resource, ideal, planning, live), OfResource(pending, resource);
    InSelected(ideal, planning, live, candidates, mine, m, t);
    CandidatesAreDue(resource, ideal, planning, live, t);
    var here := InPartition(candidates, p);
    InPartitionFilters(candidates, p);
    LsChosen(live, ReplicasOf(planning, p), InPartition(mine, p), here);
    FreeIsLeaderFree(live, planning, pending, resource, p);
    if t in here && t.to == Leader && Free(live, planning, pending, resource, p) {
      var chosen := Chosen(m, live, ReplicasOf(planning, p), InPartition(mine, p), here);
      var c :| c in chosen && c.to == Leader;
      ChosenFrom(m, live, ReplicasOf(planning, p), InPartition(mine, p), here);
      CandidatesAreDue(resource, ideal, planning, live, c);
      OnePromotionDue(resource, ideal, planning, live, t, c);
    }
  }
}
