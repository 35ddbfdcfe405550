/** What a planned cycle may start under the configured throttles, and as what it counts. */
module Allowance {
  import opened Types
  import opened Ordering
  import opened BestPossible
  import opened Selection
  import opened Quotas
  import opened Throttle
  import opened Intermediate
  import opened Conservation
  import opened ThrottleLaws
  import opened Planning
  import opened Pipeline
  import opened Cycle
  import LeaderStandby

  // Work within the limits.

  /** The uses of one quota by the work in flight when a cycle starts. */
  function InFlightUses(snap: Snapshot, mode: Mode, queue: seq<Message>, scope: Scope, ty: RebalanceType): nat {
    var ops := Ops(snap, mode, queue);
    Uses(AllPendingCharges(Inputs(snap, ops), snap.live.Keys, LeaderStandby.Model(), ops), scope, ty)
  }

  /** Some work fits the configured throttles: in every scope of the snapshot and for every type, it uses no
      more of the last limit about them than the work in flight leaves. */
  ghost predicate Fits(snap: Snapshot, mode: Mode, queue: seq<Message>, work: seq<Dispatch>) {
    forall scope: Scope, ty: RebalanceType
      | KnownScope(snap.plans.Keys, snap.live.Keys, scope) && LastLimit(snap.limits, scope, ty).Some? ::
      Uses(ChargesOf(work), scope, ty)
      <= Monus(LastLimit(snap.limits, scope, ty).value, InFlightUses(snap, mode, queue, scope, ty))
  }

  /** Except for a controller's first, a cycle dispatches no more than the configured throttles allow. */
  lemma CycleFitsLimits(snap: Snapshot, mode: Mode, queue: seq<Message>)
    requires mode != Startup
    ensures Fits(snap, mode, queue, DispatchLog(snap, mode, queue))
  {
    var ops, live, model := Ops(snap, mode, queue), snap.live.Keys, LeaderStandby.Model();
    var inputs := Inputs(snap, ops);
    InputNames(snap, ops);
    hide Inputs, Ops, InitialTable, Throttled, AllPendingCharges, Uses, LastLimit, LeaderStandby.Model;
    forall scope: Scope, ty: RebalanceType
      | KnownScope(snap.plans.Keys, live, scope) && LastLimit(snap.limits, scope, ty).Some?
      ensures Uses(ChargesOf(DispatchLog(snap, mode, queue)), scope, ty)
           <= Monus(LastLimit(snap.limits, scope, ty).value, InFlightUses(snap, mode, queue, scope, ty))
    {
      LastLimitWins(Names(inputs), live, snap.limits, scope, ty);
      assert model.states != [] by {
        HasStates();
      }
      ThrottlingIsSound(inputs, live, ops, snap.limits, model, scope, ty);
    }
  }

  lemma HasStates()
    ensures LeaderStandby.Model().states != []
  {
  }

  // The messages a cycle adds.

  /** The entries of a log at some of its places, in order. */
  ghost predicate Picks(log: seq<Dispatch>, places: seq<nat>, work: seq<Dispatch>) {
    && |work| == |places|
    && (forall a, b | 0 <= a < b < |places| :: places[a] < places[b])
    && (forall a | 0 <= a < |places| :: places[a] < |log| && work[a] == log[places[a]])
  }

  /** The messages that carry out some work, in order. */
  ghost predicate Carries(messages: seq<Message>, work: seq<Dispatch>) {
    |messages| == |work| && forall a | 0 <= a < |work| :: messages[a].step == work[a].step
  }

  lemma {:induction false} PushedWork(snap: Snapshot, original: seq<Message>, kept: seq<Message>, log: seq<Dispatch>)
    returns (added: seq<Message>, work: seq<Dispatch>, places: seq<nat>)
    ensures PushAll(snap, original, kept, StepsIn(log)) == kept + added
    ensures Carries(added, work) && Picks(log, places, work)
  {
    added, work, places := [], [], [];
    if log != [] {
      var front, last := log[..|log| - 1], log[|log| - 1];
      added, work, places := PushedWork(snap, original, kept, front);
      assert StepsIn(log)[..|log| - 1] == StepsIn(front);
      var before := PushAll(snap, original, kept, StepsIn(front));
      var after := PushAll(snap, original, kept, StepsIn(log));
      assert after == Push(snap, original, before, last.step, |front|);
      hide PushAll;
      if after != before {
        var m := after[|before|];
        assert after == before + [m] && m.step == last.step;
        added, work, places := added + [m], work + [last], places + [|front|];
        assert kept + added == after;
      }
    }
  }

  lemma {:induction false} PickedUses(log: seq<Dispatch>, places: seq<nat>, work: seq<Dispatch>, scope: Scope,
                                      ty: RebalanceType)
    requires Picks(log, places, work)
    ensures Uses(ChargesOf(work), scope, ty) <= Uses(ChargesOf(log), scope, ty)
    decreases |log|
  {
    if log != [] {
      var front, last := log[..|log| - 1], |log| - 1;
      assert ChargesOf(log)[..last] == ChargesOf(front);
      if places != [] && places[|places| - 1] == last {
        var rest := |places| - 1;
        assert ChargesOf(work)[..rest] == ChargesOf(work[..rest]);
        assert Picks(front, places[..rest], work[..rest]);
        PickedUses(front, places[..rest], work[..rest], scope, ty);
      } else {
        assert forall a | 0 <= a < |places| :: places[a] <= places[|places| - 1] < last;
        PickedUses(front, places, work, scope, ty);
      }
    }
  }

  /** So does what it adds to the queue: the kept messages, and messages for some of the dispatched work. */
  lemma NextQueueFitsLimits(snap: Snapshot, mode: Mode, queue: seq<Message>)
    returns (added: seq<Message>, work: seq<Dispatch>, places: seq<nat>)
    ensures NextQueue(snap, mode, queue) == Retain(snap, mode, queue) + added
    ensures Carries(added, work) && Picks(DispatchLog(snap, mode, queue), places, work)
    ensures mode != Startup ==> Fits(snap, mode, queue, work)
  {
    var log := DispatchLog(snap, mode, queue);
    added, work, places := PushedWork(snap, queue, Retain(snap, mode, queue), log);
    if mode != Startup {
      CycleFitsLimits(snap, mode, queue);
      hide DispatchLog, Uses, LastLimit, Picks, Carries, InFlightUses;
      forall scope: Scope, ty: RebalanceType
        | KnownScope(snap.plans.Keys, snap.live.Keys, scope) && LastLimit(snap.limits, scope, ty).Some?
        ensures Uses(ChargesOf(work), scope, ty)
             <= Monus(LastLimit(snap.limits, scope, ty).value, InFlightUses(snap, mode, queue, scope, ty))
      {
        PickedUses(log, places, work, scope, ty);
      }
    }
  }

  // Classes.

  /** A partition still lacks a state: it has no leader although a preferred replica is live, or fewer
      standbys than the other live preferred replicas. */
  ghost predicate Lacks(list: seq<InstanceId>, live: set<InstanceId>, replicas: Replicas, s: State) {
    var n := |set i | i in list && i in live|;
    || (s == Leader && n > 0 && Holders(replicas, Leader) == {})
    || (s == Standby && |Holders(replicas, Standby)| + 1 < n)
  }

  /** What a partition with `n` live preferred replicas needs. */
  function LsNeeds(n: nat): Counts {
    if n == 0 then map[] else if n == 1 then map[Leader := 1] else map[Leader := 1, Standby := n - 1]
  }

  lemma NeedsOf(input: ResourceInput, p: PartitionId, live: set<InstanceId>)
    requires input.minActive == None && Distinct(ListOf(input, p)) && |ListOf(input, p)| <= input.replicas
    ensures RequiredStates(input, p, live, LeaderStandby.Model())
         == LsNeeds(|set i | i in ListOf(input, p) && i in live|)
  {
    hide RequiredStates, ListOf, LeaderStandby.Model, LivePreferred;
    LsRequired(input, p, live);
    LiveCount(ListOf(input, p), live);
  }

  lemma PlannedShape(r: ResourceId, ideal: IdealState, actual: ReplicaStates, live: set<InstanceId>,
                     ops: seq<Transition>, p: PartitionId)
    requires ideal.Valid()
    ensures var input := Planned(r, ideal, actual, live, ops);
            && ListOf(input, p) == List(ideal, p) && input.minActive == None
            && Distinct(List(ideal, p)) && |List(ideal, p)| <= input.replicas
  {
    hide Normalized, Best, Selected, Candidates, OfResource, LeaderStandby.Model;
  }

  lemma PlannedNeeds(snap: Snapshot, ops: seq<Transition>, r: ResourceId, p: PartitionId)
    requires snap.Valid() && r in snap.plans
    ensures RequiredStates(Planned(r, snap.plans[r], snap.Actual(r), snap.live.Keys, ops), p, snap.live.Keys,
                           LeaderStandby.Model())
         == LsNeeds(|set i | i in List(snap.plans[r], p) && i in snap.live.Keys|)
  {
    hide Planned, List, RequiredStates, LeaderStandby.Model, LsNeeds, ListOf, Snapshot.Actual;
    PlannedShape(r, snap.plans[r], snap.Actual(r), snap.live.Keys, ops, p);
    NeedsOf(Planned(r, snap.plans[r], snap.Actual(r), snap.live.Keys, ops), p, snap.live.Keys);
  }

  lemma ClassByNeeds(list: seq<InstanceId>, live: set<InstanceId>, replicas: Replicas, s: State)
    ensures RebalanceOf(LsNeeds(|set i | i in list && i in live|), replicas, s)
         == if Lacks(list, live, replicas, s) then Recovery else Load
  {
  }

  /** In a planned cycle, a step counts as recovery exactly when its partition, as the dispatches before it
      leave it, still lacks the state the step leads to. */
  lemma PlannedClass(snap: Snapshot, ops: seq<Transition>, r: ResourceId, log: seq<Dispatch>, t: Transition)
    requires snap.Valid() && r in snap.plans
    ensures var input := Planned(r, snap.plans[r], snap.Actual(r), snap.live.Keys, ops);
            var required := RequiredStates(input, t.partition, snap.live.Keys, LeaderStandby.Model());
            var replicas := ReplicasOf(InsertAll(PlanState(snap, r), StepsIn(log)), t.partition);
            ClassAfter(required, input.current, log, t)
            == if Lacks(List(snap.plans[r], t.partition), snap.live.Keys, replicas, t.to) then Recovery else Load
  {
    hide RequiredStates, RebalanceOf, Lacks, LeaderStandby.Model, Normalized, InsertAll, List, LsNeeds;
    PlannedNeeds(snap, ops, r, t.partition);
    ClassByNeeds(List(snap.plans[r], t.partition), snap.live.Keys,
                 ReplicasOf(InsertAll(PlanState(snap, r), StepsIn(log)), t.partition), t.to);
  }

  /** So every dispatch of a cycle is charged as recovery exactly when it fills such a gap. */
  lemma CycleClasses(snap: Snapshot, mode: Mode, queue: seq<Message>, k: nat, n: nat)
    requires snap.Valid() && k < |SortedKeys(snap.plans.Keys)|
    requires LeaderStandby.Model().states != [] && k < |Inputs(snap, Ops(snap, mode, queue))|
    requires n < |ShareOf(Inputs(snap, Ops(snap, mode, queue)), snap.live.Keys, Ops(snap, mode, queue),
                          Limits(snap, mode), LeaderStandby.Model(), k).log|
    ensures var r := SortedKeys(snap.plans.Keys)[k];
            var log := ShareOf(Inputs(snap, Ops(snap, mode, queue)), snap.live.Keys, Ops(snap, mode, queue),
                               Limits(snap, mode), LeaderStandby.Model(), k).log;
            var t := log[n].step;
            var replicas := ReplicasOf(InsertAll(PlanState(snap, r), StepsIn(log[..n])), t.partition);
            && r in snap.plans
            && log[n].ty
               == if Lacks(List(snap.plans[r], t.partition), snap.live.Keys, replicas, t.to) then Recovery else Load
  {
    var ops, r := Ops(snap, mode, queue), SortedKeys(snap.plans.Keys)[k];
    assert r in SortedKeys(snap.plans.Keys);
    var log := ShareOf(Inputs(snap, ops), snap.live.Keys, ops, Limits(snap, mode), LeaderStandby.Model(), k).log;
    hide ShareOf, Lacks, ClassAfter, InsertAll, RequiredStates, PlanState, List, LeaderStandby.Model, Planned, Ops;
    DispatchesAreClassified(Inputs(snap, ops), snap.live.Keys, ops, Limits(snap, mode), LeaderStandby.Model(), k);
    assert Classified(Inputs(snap, ops)[k], snap.live.Keys, LeaderStandby.Model(), log, n);
    PlannedClass(snap, ops, r, log[..n], log[n].step);
  }

  lemma LiveCount(list: seq<InstanceId>, live: set<InstanceId>)
    requires Distinct(list)
    ensures |LivePreferred(list, live)| == |set i | i in list && i in live| <= |list|
  {
    DistinctSize(LivePreferred(list, live));
    assert Elements(LivePreferred(list, live)) == set i | i in list && i in live;
  }
}
