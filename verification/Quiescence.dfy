/** A silent controller means a converged cluster. */
module Quiescence {
  import opened Types
  import opened StateModels
  import opened BestPossible
  import opened Throttle
  import opened Intermediate
  import opened Conservation
  import opened LsPlacement
  import opened Planning
  import opened Pipeline
  import opened Cycle
  import opened Quotas
  import opened Settling
  import LeaderStandby

  function ActiveOf(snap: Snapshot, r: ResourceId, p: PartitionId): seq<InstanceId> {
    if r in snap.plans then LivePreferred(List(snap.plans[r], p), snap.live.Keys) else []
  }

  function ReplicasAt(snap: Snapshot, r: ResourceId, p: PartitionId): Replicas {
    ReplicasOf(PlanState(snap, r), p)
  }

  function ListAt(snap: Snapshot, r: ResourceId, p: PartitionId): seq<InstanceId> {
    if r in snap.plans then List(snap.plans[r], p) else []
  }

  /** One partition is where it should be: on its preference list the replica at the first live position
      leads, those at the other live positions stand by, and no other replica is left. */
  ghost predicate SettledAt(snap: Snapshot, r: ResourceId, p: PartitionId) {
    var list := ListAt(snap, r, p);
    && (forall k | 0 <= k < |list| && list[k] in snap.live ::
          snap.At(r, p, list[k]) == Some(if FirstLive(list, snap.live.Keys, k) then Leader else Standby))
    && (forall i | i !in list || i !in snap.live :: snap.At(r, p, i).None?)
  }

  /** The same by rank among the live preferred replicas. */
  ghost predicate SettledRanks(snap: Snapshot, r: ResourceId, p: PartitionId) {
    var active := ActiveOf(snap, r, p);
    && (forall k | 0 <= k < |active| :: snap.At(r, p, active[k]) == Some(if k == 0 then Leader else Standby))
    && (forall i | i !in active :: snap.At(r, p, i).None?)
  }

  lemma SettledByRank(snap: Snapshot, r: ResourceId, p: PartitionId)
    ensures SettledAt(snap, r, p) <==> SettledRanks(snap, r, p)
  {
    var list, live, active := ListAt(snap, r, p), snap.live.Keys, ActiveOf(snap, r, p);
    assert active == LivePreferred(list, live);
    var positions := LivePositions(list, live);
    hide FirstLive, Snapshot.At, LivePreferred, LiveAt, ListAt, ActiveOf;
    if SettledRanks(snap, r, p) {
      forall k | 0 <= k < |list| && list[k] in live
        ensures snap.At(r, p, list[k]) == Some(if FirstLive(list, live, k) then Leader else Standby)
      {
        var a := LivePlace(list, live, positions, active, k);
        RankOfPlace(list, live, positions, active, a);
        assert snap.At(r, p, active[a]) == Some(if a == 0 then Leader else Standby);
      }
    }
    if SettledAt(snap, r, p) {
      forall a | 0 <= a < |active|
        ensures snap.At(r, p, active[a]) == Some(if a == 0 then Leader else Standby)
      {
        RankOfPlace(list, live, positions, active, a);
      }
    }
  }

  lemma RankOfPlace(list: seq<InstanceId>, live: set<InstanceId>, positions: seq<nat>, found: seq<InstanceId>, a: nat)
    requires LiveAt(list, live, positions, found) && a < |found|
    ensures positions[a] < |list| && list[positions[a]] in live && list[positions[a]] == found[a]
    ensures FirstLive(list, live, positions[a]) <==> a == 0
  {
    hide FirstLive;
    assert positions[a] in positions;
    FirstIsFirst(list, live, positions, found, positions[a]);
  }

  ghost predicate AllServing(snap: Snapshot) {
    forall r, p, i | r in snap.plans && snap.At(r, p, i).Some? :: Serving(snap.At(r, p, i).value)
  }

  lemma NothingInFlight(snap: Snapshot, mode: Mode)
    ensures Ops(snap, mode, []) == []
  {
  }

  lemma {:induction false} NoCharges(inputs: seq<ResourceInput>, live: set<InstanceId>, model: StateModel)
    ensures AllPendingCharges(inputs, live, model, []) == []
  {
    if inputs != [] {
      NoCharges(inputs[..|inputs| - 1], live, model);
    }
  }

  /** With nothing in flight and positive limits, silence means that nothing was selected. */
  lemma SilenceIsNoWork(snap: Snapshot, mode: Mode)
    requires snap.Valid()
    ensures Dispatched(snap, mode, []) == [] <==> forall t :: !SelectedNow(snap, [], t)
  {
    var inputs, live, limits, model := Inputs(snap, []), snap.live.Keys, Limits(snap, mode), LeaderStandby.Model();
    var out := Throttled(inputs, live, [], limits, model);
    NothingInFlight(snap, mode);
    assert Dispatched(snap, mode, []) == StepsIn(out.log);
    if StepsIn(out.log) != [] {
      var t := StepsIn(out.log)[0];
      DispatchedIsSelected(snap, mode, [], t);
    } else {
      forall t
        ensures !SelectedNow(snap, [], t)
      {
        hide Inputs, SelectedNow, LeaderStandby.Model, Dispatched;
        AllSelectedIs(snap, [], t);
        if t in AllSelected(inputs) {
          SilentTable(inputs, live, limits, model);
          WithheldIsThrottled(inputs, live, [], limits, model, t);
          var scope, ty: RebalanceType :| Covers(scope, Charge(ty, t.resource, t.instance))
              && Exhausted(out.table.At(scope), ty);
          ThrottlesIffExhausted(out.table, Charge(ty, t.resource, t.instance));
          FreshTableAdmits(inputs, live, limits, Charge(ty, t.resource, t.instance));
          assert false;
        }
      }
    }
  }

  lemma SilentTable(inputs: seq<ResourceInput>, live: set<InstanceId>, limits: seq<Limit>, model: StateModel)
    requires model.states != [] && Throttled(inputs, live, [], limits, model).log == []
    ensures Throttled(inputs, live, [], limits, model).table == InitialTable(Names(inputs), live, limits)
  {
    NoCharges(inputs, live, model);
    var start := Outcome(OpeningTable(inputs, live, model, [], limits), [], map[]);
    ThrottleAllWorks(inputs, live, model, [], start);
    hide ThrottleAll;
    assert ChargesOf([]) == [];
  }

  lemma FreshTableAdmits(inputs: seq<ResourceInput>, live: set<InstanceId>, limits: seq<Limit>, c: Charge)
    requires forall l | l in limits :: l.max > 0
    ensures !InitialTable(Names(inputs), live, limits).Throttles(c)
  {
    PositiveLimitsAdmit(QuotaTable(map[], map r | r in Names(inputs) :: map[], map i | i in live :: map[]), limits, c);
  }

  // A partition in which nothing is due.

  /** The same condition on the planning states. */
  ghost predicate AtRest(active: seq<InstanceId>, cur: Replicas) {
    && (forall k | 0 <= k < |active| :: active[k] in cur && cur[active[k]] == if k == 0 then Leader else Standby)
    && (forall i | i in cur :: i in active)
  }

  ghost predicate NothingDue(active: seq<InstanceId>, cur: Replicas) {
    forall i, to | i in cur && LeaderStandby.Hop(cur[i], Target(active, cur, i)) == Some(to) ::
      to == Leader && !NoLeader(cur)
  }

  lemma RestMeansNothingDue(active: seq<InstanceId>, cur: Replicas)
    requires Distinct(active) && AtRest(active, cur)
    ensures NothingDue(active, cur)
  {
    forall i | i in cur
      ensures LeaderStandby.Hop(cur[i], Target(active, cur, i)) == None
    {
      var k :| 0 <= k < |active| && active[k] == i;
      assert active[0] in cur && cur[active[0]] == Leader;
      assert LeaderOf(active, cur) == active[0];
    }
  }

  lemma NothingDueMeansRest(active: seq<InstanceId>, cur: Replicas)
    requires Distinct(active) && NothingDue(active, cur)
    requires forall i | i in active :: i in cur
    requires forall i | i in cur :: Serving(cur[i])
    ensures AtRest(active, cur)
  {
    forall i | i in cur
      ensures i in active && (cur[i] == Leader || cur[i] == Standby)
    {
      var hop := LeaderStandby.Hop(cur[i], Target(active, cur, i));
      assert hop.Some? ==> hop.value == Leader && !NoLeader(cur);
    }
    if active != [] {
      assert LeaderOf(active, cur) == active[0];
      forall k | 0 < k < |active|
        ensures cur[active[k]] == Standby
      {
        assert active[k] in cur;
        assert LeaderStandby.Hop(cur[active[k]], Target(active, cur, active[k])) != Some(Standby);
      }
      assert LeaderStandby.Hop(cur[active[0]], Target(active, cur, active[0])) == Some(Leader) ==> !NoLeader(cur);
    }
  }

  /** The replicas of a partition as a map of their planning states. */
  lemma ReplicasAtAre(snap: Snapshot, r: ResourceId, p: PartitionId, i: InstanceId)
    ensures StateOf(PlanState(snap, r), p, i)
         == if i in ReplicasAt(snap, r, p) then Some(ReplicasAt(snap, r, p)[i]) else None
  {
  }

  lemma RestIsSettled(snap: Snapshot, r: ResourceId, p: PartitionId)
    requires r in snap.plans
    ensures AtRest(ActiveOf(snap, r, p), ReplicasAt(snap, r, p)) <==> SettledAt(snap, r, p)
  {
    SettledByRank(snap, r, p);
    hide PlanState, Snapshot.At, ReplicasAt, SettledAt;
    var active, cur := ActiveOf(snap, r, p), ReplicasAt(snap, r, p);
    forall i
      ensures snap.At(r, p, i).Some? && i in snap.live ==> i in cur && cur[i] == snap.At(r, p, i).value
      ensures snap.At(r, p, i).None? && i in cur ==> i in active && cur[i] == Offline
      ensures i !in snap.live ==> snap.At(r, p, i).None?
    {
      ReplicasAtAre(snap, r, p, i);
      PlanStateAt(snap, r, p, i);
      OnlyLiveAt(snap, r, p, i);
    }
    hide ActiveOf;
    if AtRest(active, cur) {
      assert forall k | 0 <= k < |active| :: active[k] in cur;
    }
    if SettledRanks(snap, r, p) {
      assert forall k | 0 <= k < |active| :: snap.At(r, p, active[k]).Some?;
    }
  }

  lemma OnlyLiveAt(snap: Snapshot, r: ResourceId, p: PartitionId, i: InstanceId)
    ensures i !in snap.live ==> snap.At(r, p, i).None?
  {
  }

  /** What is selected with nothing in flight, partition by partition. */
  lemma NoWorkIsNothingDue(snap: Snapshot, r: ResourceId, p: PartitionId)
    requires r in snap.plans
    ensures NothingDue(ActiveOf(snap, r, p), ReplicasAt(snap, r, p))
            <==> forall t: Transition | t.resource == r && t.partition == p :: !SelectedNow(snap, [], t)
  {
    var active, cur := ActiveOf(snap, r, p), ReplicasAt(snap, r, p);
    assert forall i :: StateOf(PlanState(snap, r), p, i) == (if i in cur then Some(cur[i]) else None);
    forall i | i in cur
      ensures i in snap.live
    {
      PlanStateAt(snap, r, p, i);
    }
    hide PlanState, Target, LeaderStandby.Hop;
    assert Free(snap.live.Keys, PlanState(snap, r), [], r, p) <==> NoLeader(cur);
    if forall t: Transition | t.resource == r && t.partition == p :: !SelectedNow(snap, [], t) {
      forall i, to | i in cur && LeaderStandby.Hop(cur[i], Target(active, cur, i)) == Some(to)
        ensures to == Leader && !NoLeader(cur)
      {
        assert !SelectedNow(snap, [], Transition(r, p, i, cur[i], to));
      }
    }
  }

  lemma ShapeOf(snap: Snapshot, r: ResourceId, p: PartitionId)
    requires snap.Valid() && r in snap.plans && AllServing(snap)
    ensures Distinct(ActiveOf(snap, r, p))
    ensures forall i | i in ActiveOf(snap, r, p) :: i in ReplicasAt(snap, r, p)
    ensures forall i | i in ReplicasAt(snap, r, p) :: Serving(ReplicasAt(snap, r, p)[i])
  {
    forall i
      ensures i in ActiveOf(snap, r, p) ==> i in ReplicasAt(snap, r, p)
      ensures i in ReplicasAt(snap, r, p) ==> Serving(ReplicasAt(snap, r, p)[i])
    {
      PlanStateAt(snap, r, p, i);
    }
  }

  ghost predicate NoWork(snap: Snapshot, r: ResourceId, p: PartitionId) {
    forall t: Transition | t.resource == r && t.partition == p :: !SelectedNow(snap, [], t)
  }

  lemma SettledIffNoWork(snap: Snapshot, r: ResourceId, p: PartitionId)
    requires snap.Valid() && r in snap.plans && AllServing(snap)
    ensures SettledAt(snap, r, p) <==> NoWork(snap, r, p)
  {
    NoWorkIsNothingDue(snap, r, p);
    RestIsSettled(snap, r, p);
    ShapeOf(snap, r, p);
    hide SelectedNow, SettledAt, AtRest, NothingDue, ActiveOf, ReplicasAt, Serving, Snapshot.Valid;
    var active, cur := ActiveOf(snap, r, p), ReplicasAt(snap, r, p);
    if AtRest(active, cur) {
      RestMeansNothingDue(active, cur);
    }
    if NothingDue(active, cur) {
      NothingDueMeansRest(active, cur);
    }
  }

  ghost predicate Idle(snap: Snapshot) {
    forall t :: !SelectedNow(snap, [], t)
  }

  ghost predicate AllSettled(snap: Snapshot) {
    forall r, p | r in snap.plans :: SettledAt(snap, r, p)
  }

  lemma IdleIffAllSettled(snap: Snapshot)
    requires snap.Valid() && AllServing(snap)
    ensures Idle(snap) <==> AllSettled(snap)
  {
    hide SelectedNow, SettledAt, Snapshot.Valid, AllServing;
    if Idle(snap) {
      forall r, p | r in snap.plans
        ensures SettledAt(snap, r, p)
      {
        SettledIffNoWork(snap, r, p);
      }
    }
    if AllSettled(snap) {
      forall t
        ensures !SelectedNow(snap, [], t)
      {
        if t.resource in snap.plans {
          assert SettledAt(snap, t.resource, t.partition);
          SettledIffNoWork(snap, t.resource, t.partition);
        } else {
          UnknownIsNotSelected(snap, t);
        }
      }
    }
  }

  lemma UnknownIsNotSelected(snap: Snapshot, t: Transition)
    requires t.resource !in snap.plans
    ensures !SelectedNow(snap, [], t)
  {
  }

  /** No deadlock: with nothing in flight, a cycle dispatches nothing exactly when every partition
      of every resource is settled. */
  lemma SilentIffSettled(snap: Snapshot, mode: Mode)
    requires snap.Valid() && AllServing(snap)
    ensures Dispatched(snap, mode, []) == [] <==> AllSettled(snap)
  {
    hide Dispatched, SelectedNow, AllSettled, Snapshot.Valid, AllServing;
    SilenceIsNoWork(snap, mode);
    IdleIffAllSettled(snap);
  }
}
