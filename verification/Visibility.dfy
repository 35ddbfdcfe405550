/** Why an instance may be removed from the configuration only while it is not live. */
module Visibility {
  import opened Types
  import opened Ordering
  import opened StateModels
  import opened BestPossible
  import opened Throttle
  import opened Intermediate
  import opened Conservation
  import opened LsPlacement
  import opened Planning
  import opened Pipeline
  import opened Cycle
  import opened Quotas
  import opened Protocol
  import opened LeaderSafety
  import LeaderStandby

  lemma {:induction false} NoLimits(inputs: seq<ResourceInput>, live: set<InstanceId>, model: StateModel,
                                    pending: seq<Transition>, scope: Scope)
    requires model.states != []
    ensures Throttled(inputs, live, pending, [], model).table.At(scope) == map[]
  {
    var start := Outcome(OpeningTable(inputs, live, model, pending, []), [], map[]);
    var first := InitialTable(Names(inputs), live, []);
    ThrottleAllWorks(inputs, live, model, pending, start);
    var out := Throttled(inputs, live, pending, [], model);
    assert out.log[|start.log|..] == out.log;
    ChargesSaturate(first, AllPendingCharges(inputs, live, model, pending), scope, Any);
    hide ThrottleAll;
    ChargesSaturate(start.table, ChargesOf(out.log), scope, Any);
    assert first.At(scope) == map[];
    assert out.table.At(scope).Keys == {};
  }

  /** The first cycle of a controller, which ignores throttles, dispatches whatever is selected and
      not in flight. */
  lemma StartupDispatchesAll(snap: Snapshot, queue: seq<Message>, t: Transition)
    requires snap.Valid()
    ensures t in Dispatched(snap, Startup, queue)
            <==> SelectedNow(snap, Ops(snap, Startup, queue), t) && t !in Ops(snap, Startup, queue)
  {
    hide Inputs, Ops, SelectedNow, Throttled;
    var ops := Ops(snap, Startup, queue);
    AllSelectedIs(snap, ops, t);
    UnlimitedThrottle(Inputs(snap, ops), snap.live.Keys, LeaderStandby.Model(), ops, t);
  }

  lemma UnlimitedThrottle(inputs: seq<ResourceInput>, live: set<InstanceId>, model: StateModel,
                          pending: seq<Transition>, t: Transition)
    requires model.states != []
    ensures t in StepsIn(Throttled(inputs, live, pending, [], model).log) <==> t in AllSelected(inputs) && t !in pending
  {
    hide Throttled, AllSelected;
    var out := Throttled(inputs, live, pending, [], model);
    if t in StepsIn(out.log) {
      DispatchedWork(inputs, live, pending, [], model, t);
    } else if t in AllSelected(inputs) && t !in pending {
      WithheldIsThrottled(inputs, live, pending, [], model, t);
    }
    forall scope
      ensures out.table.At(scope) == map[]
    {
      NoLimits(inputs, live, model, pending, scope);
    }
  }

  /** A store in which live instance 1 leads a partition but has been taken out of the configuration
      while live, and live instance 2 stands by and is preferred. */
  function Invisible(): Store {
    Store(9, 9, map[1 := 10, 2 := 20], map[Key(1, 10, 0, 0) := Leader, Key(2, 20, 0, 0) := Standby], {2}, 0, [],
          [], 0, 0, None, {10, 20}, {}, [])
  }

  function PreferTwo(): Resolver {
    (_: PlacementId, _: set<InstanceId>, _: set<InstanceId>) => map[0 := IdealState(2, map[0 := [2, 1]])]
  }

  /** The state of a live configured replica, read from the store. */
  lemma ViewAt(resolve: Resolver, s: Store, r: ResourceId, p: PartitionId, i: InstanceId)
    ensures s.View(resolve).At(r, p, i)
         == if i in s.live && i in s.configs
             && Key(i, s.live[i], r, p) in s.states then Some(s.states[Key(i, s.live[i], r, p)]) else None
  {
    if i in s.live && Key(i, s.live[i], r, p) in s.states {
      assert s.Active(Key(i, s.live[i], r, p));
      assert KeyReplica(Key(i, s.live[i], r, p)) in s.Current();
    }
  }

  lemma PreferTwoIsValid(ideal: IdealState)
    requires ideal == IdealState(2, map[0 := [2, 1]])
    ensures ideal.Valid()
  {
    assert 0 in ideal.lists;
  }

  /** What planning sees of it: one standby replica. */
  ghost predicate OneStandby(snap: Snapshot) {
    && snap.Valid()
    && 0 in snap.plans && snap.plans[0].lists == map[0 := [2, 1]] && snap.live == map[1 := 10, 2 := 20]
    && snap.At(0, 0, 2) == Some(Standby) && forall p, i | snap.At(0, p, i).Some? :: p == 0 && i == 2
  }

  lemma InvisibleSnapshot()
    ensures OneStandby(Invisible().View(PreferTwo()))
  {
    var s := Invisible();
    var snap := s.View(PreferTwo());
    assert s.live[2] == 20 && s.states[Key(2, 20, 0, 0)] == Standby;
    hide Snapshot.At, Store.Current;
    forall p, i
      ensures snap.At(0, p, i).Some? <==> p == 0 && i == 2
      ensures snap.At(0, p, i).Some? ==> snap.At(0, p, i) == Some(Standby)
    {
      ViewAt(PreferTwo(), s, 0, p, i);
    }
    PreferTwoIsValid(snap.plans[0]);
    hide IdealState.Valid;
  }

  lemma InvisibleClaims()
    ensures OneClaim(Invisible(), 0, 0) && !Known(Invisible(), 0, 0) && Leads(Invisible(), 0, 0, 1)
  {
    var s := Invisible();
    assert s.live[1] == 10 && s.live[2] == 20;
    assert s.states[Key(1, 10, 0, 0)] == Leader;
    assert Leads(s, 0, 0, 1) && 1 !in s.configs;
    assert forall i | Leads(s, 0, 0, i) :: i == 1;
  }

  lemma PromotionOfTwo(snap: Snapshot)
    requires OneStandby(snap)
    ensures SelectedNow(snap, [], Transition(0, 0, 2, Standby, Leader))
  {
    hide PlanState;
    PlanStateAt(snap, 0, 0, 2);
    forall i | i in ReplicasOf(PlanState(snap, 0), 0)
      ensures ReplicasOf(PlanState(snap, 0), 0)[i] != Leader
    {
      PlanStateAt(snap, 0, 0, i);
    }
    var active := LivePreferred([2, 1], snap.live.Keys);
    assert active == [2, 1] by {
      assert [2, 1][..1] == [2] && [2][..0] == [];
      assert LivePreferred([2], snap.live.Keys) == [2];
    }
    assert List(snap.plans[0], 0) == [2, 1];
    assert LeaderOf(active, ReplicasOf(PlanState(snap, 0), 0)) == 2;
  }

  lemma PromotionIsPublished(snap: Snapshot) returns (m: Message)
    requires OneStandby(snap)
    ensures m in NextQueue(snap, Startup, []) && m.session == 20 && m.step == Transition(0, 0, 2, Standby, Leader)
  {
    var t := Transition(0, 0, 2, Standby, Leader);
    PromotionOfTwo(snap);
    assert Ops(snap, Startup, []) == [];
    hide Dispatched, NextQueue, SelectedNow, Ops, Snapshot.Valid;
    StartupDispatchesAll(snap, [], t);
    NextQueueGrows(snap, Startup, []);
    assert Occupied(NextQueue(snap, Startup, []), ReplicaOf(t));
    m :| m in NextQueue(snap, Startup, []) && ReplicaOf(m.step) == ReplicaOf(t);
    assert m !in Retain(snap, Startup, []);
    StartupDispatchesAll(snap, [], m.step);
    OneStepDue(snap, m.step, t);
  }

  /** With the leader out of sight the next cycle promotes a second one: were a live instance ever
      deconfigured, one claim per partition would not survive the publication. */
  lemma DeconfiguringALeaderIsUnsafe(next: seq<Message>)
    requires Arranges(Read(Invisible(), PreferTwo(), 9), Startup, next)
    ensures OneClaim(Invisible(), 0, 0) && !Known(Invisible(), 0, 0)
    ensures !OneClaim(Publication(Invisible(), Read(Invisible(), PreferTwo(), 9), next), 0, 0)
  {
    var s := Invisible();
    var h := Read(s, PreferTwo(), 9);
    InvisibleClaims();
    InvisibleSnapshot();
    hide NextQueue, Store.View, OneStandby, OneClaim, Known, Leads, Invisible;
    var m := PromotionIsPublished(h.snap);
    SameMembers(next, NextQueue(h.snap, Startup, h.queue));
    assert h.queue == [] by {
      NothingQueued();
    }
    SameLeaders(s, h, next, 0, 0);
    TwoClaims(Publication(s, h, next), 1, m);
  }

  lemma NothingQueued()
    ensures Invisible().queue == []
  {
  }

  lemma TwoClaims(t: Store, i: InstanceId, m: Message)
    requires Leads(t, 0, 0, i) && Promotes(t, 0, 0, m)
    ensures !OneClaim(t, 0, 0)
  {
  }

  lemma OneStepDue(snap: Snapshot, a: Transition, b: Transition)
    requires SelectedNow(snap, [], a) && SelectedNow(snap, [], b) && ReplicaOf(a) == ReplicaOf(b)
    ensures a == b
  {
    hide PlanState, Target;
  }
}
