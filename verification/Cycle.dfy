/** What one controller cycle dispatches and publishes, and exactly when it succeeds. */
module Cycle {
  import opened Types
  import opened Ordering
  import opened StateModels
  import opened BestPossible
  import opened Selection
  import opened Throttle
  import opened Intermediate
  import opened Planning
  import opened Pipeline
  import opened ThrottleCycle
  import LeaderStandby

  function PlanState(snap: Snapshot, r: ResourceId): ReplicaStates {
    if r in snap.plans then Normalized(snap.Actual(r), snap.plans[r], snap.live.Keys, LeaderStandby.Model()) else map[]
  }

  lemma PlanStateComplete(snap: Snapshot, r: ResourceId)
    requires r in snap.plans
    ensures Complete(snap.plans[r], PlanState(snap, r), snap.live.Keys) && LiveOnly(PlanState(snap, r), snap.live.Keys)
  {
    NormalizedComplete(snap.Actual(r), snap.plans[r], snap.live.Keys);
  }

  /** The planning state of a replica: its active state, or OFFLINE where a live preferred replica has none. */
  lemma PlanStateAt(snap: Snapshot, r: ResourceId, p: PartitionId, i: InstanceId)
    requires r in snap.plans
    ensures StateOf(PlanState(snap, r), p, i)
         == if i !in snap.live then None
            else if snap.At(r, p, i).Some? then snap.At(r, p, i)
            else if i in List(snap.plans[r], p) then Some(Offline)
            else None
    ensures i in ReplicasOf(PlanState(snap, r), p) <==> StateOf(PlanState(snap, r), p, i).Some?
  {
    NormalizedAt(snap.Actual(r), snap.plans[r], snap.live.Keys, LeaderStandby.Model(), p, i);
    snap.ActualAt(r, p, i);
  }

  /** A step the pipeline selects. */
  ghost predicate SelectedNow(snap: Snapshot, ops: seq<Transition>, t: Transition) {
    && t.resource in snap.plans
    && Due(t.resource, snap.plans[t.resource], PlanState(snap, t.resource), snap.live.Keys, t)
    && (t.to == Leader ==> Free(snap.live.Keys, PlanState(snap, t.resource), ops, t.resource, t.partition))
  }

  lemma PlannedSelects(snap: Snapshot, ops: seq<Transition>, r: ResourceId, t: Transition)
    requires snap.Valid() && r in snap.plans
    ensures t in Planned(r, snap.plans[r], snap.Actual(r), snap.live.Keys, ops).selected
            <==> t.resource == r && SelectedNow(snap, ops, t)
  {
    hide Selected, Candidates, Free, Normalized, LeaderStandby.Model;
    PlanStateComplete(snap, r);
    SelectedIsDue(r, snap.plans[r], PlanState(snap, r), snap.live.Keys, ops, t);
  }

  lemma AllSelectedIs(snap: Snapshot, ops: seq<Transition>, t: Transition)
    requires snap.Valid()
    ensures t in AllSelected(Inputs(snap, ops)) <==> SelectedNow(snap, ops, t)
  {
    hide SelectedNow, Planned;
    var resources, inputs := SortedKeys(snap.plans.Keys), Inputs(snap, ops);
    if t in AllSelected(inputs) {
      var input :| input in inputs && t in input.selected;
      var k :| 0 <= k < |inputs| && inputs[k] == input;
      assert resources[k] in resources;
      PlannedSelects(snap, ops, resources[k], t);
    }
    if SelectedNow(snap, ops, t) {
      assert t.resource in snap.plans by {
        SelectedKnown(snap, ops, t);
      }
      PlannedSelects(snap, ops, t.resource, t);
      var k :| 0 <= k < |resources| && resources[k] == t.resource;
      assert inputs[k] in inputs && t in inputs[k].selected;
    }
  }

  lemma SelectedKnown(snap: Snapshot, ops: seq<Transition>, t: Transition)
    requires SelectedNow(snap, ops, t)
    ensures t.resource in snap.plans
  {
  }

  /** Nothing is dispatched that is not selected, and nothing already in flight. */
  lemma DispatchedIsSelected(snap: Snapshot, mode: Mode, queue: seq<Message>, t: Transition)
    requires snap.Valid() && t in Dispatched(snap, mode, queue)
    ensures SelectedNow(snap, Ops(snap, mode, queue), t) && t !in Ops(snap, mode, queue)
  {
    hide Inputs, Throttled, SelectedNow, Ops;
    var ops := Ops(snap, mode, queue);
    DispatchedWork(Inputs(snap, ops), snap.live.Keys, ops, Limits(snap, mode), LeaderStandby.Model(), t);
    AllSelectedIs(snap, ops, t);
  }

  // Success of the cycle.

  /** What planning needs of the work in flight. */
  ghost predicate Plannable(snap: Snapshot, ops: seq<Transition>) {
    && (forall t | t in ops ::
          t.resource in snap.plans
              && KnownPartition(snap.plans[t.resource], PlanState(snap, t.resource), LeaderStandby.Model(), t))
    && OnePending(ops)
  }

  lemma InputOf(snap: Snapshot, ops: seq<Transition>, input: ResourceInput)
    requires input in Inputs(snap, ops)
    ensures input.resource in snap.plans
    ensures input == Planned(input.resource, snap.plans[input.resource], snap.Actual(input.resource), snap.live.Keys,
                             ops)
  {
    hide Selected, Normalized, Candidates, Best;
    var resources, inputs := SortedKeys(snap.plans.Keys), Inputs(snap, ops);
    var k :| 0 <= k < |inputs| && inputs[k] == input;
    assert resources[k] in resources;
  }

  lemma PlannedIsValid(snap: Snapshot, ops: seq<Transition>, r: ResourceId)
    requires snap.Valid() && r in snap.plans
    ensures ValidSelected(Planned(r, snap.plans[r], snap.Actual(r), snap.live.Keys, ops), LeaderStandby.Model())
  {
    hide Selected, Candidates, Normalized, LeaderStandby.Model, Best, DropPath;
    var ideal, planning, input := snap.plans[r], PlanState(snap, r), Planned(r, snap.plans[r], snap.Actual(r),
        snap.live.Keys, ops);
    PlanStateComplete(snap, r);
    forall t | t in input.selected
      ensures WellPlaced(input, LeaderStandby.Model(), t)
    {
      InSelected(ideal, planning, snap.live.Keys, Candidates(r, ideal, planning, snap.live.Keys), OfResource(ops, r),
                 LeaderStandby.Model(), t);
      CandidatesAreSelectable(r, ideal, planning, snap.live.Keys, t);
    }
  }

  lemma InputNames(snap: Snapshot, ops: seq<Transition>)
    ensures UniqueNames(Inputs(snap, ops)) && Names(Inputs(snap, ops)) == snap.plans.Keys
  {
    hide Selected, Normalized, Candidates, Best;
    var resources, inputs := SortedKeys(snap.plans.Keys), Inputs(snap, ops);
    assert forall k | 0 <= k < |resources| :: inputs[k].resource == resources[k];
    forall r | r in snap.plans
      ensures r in Names(inputs)
    {
      var k :| 0 <= k < |resources| && resources[k] == r;
      assert inputs[k] in inputs;
    }
    forall input | input in inputs
      ensures input.resource in snap.plans
    {
      InputOf(snap, ops, input);
    }
  }

  /** Throttling accepts whatever the planning stages hand it. */
  lemma PlansAreAcceptable(snap: Snapshot, ops: seq<Transition>)
    requires snap.Valid() && Plannable(snap, ops)
    ensures Acceptable(Inputs(snap, ops), ops, LeaderStandby.Model())
  {
    InputNames(snap, ops);
    hide Inputs, ValidSelected, KnownPartition, LeaderStandby.Model, Names, UniqueNames, Planned;
    forall input | input in Inputs(snap, ops)
      ensures ValidSelected(input, LeaderStandby.Model())
    {
      InputOf(snap, ops, input);
      PlannedIsValid(snap, ops, input.resource);
    }
  }

  lemma {:induction false} OfResourceOne(ops: seq<Transition>, r: ResourceId)
    requires OnePending(ops)
    ensures OnePerReplica(OfResource(ops, r))
  {
    if ops != [] {
      var front, last := ops[..|ops| - 1], ops[|ops| - 1];
      OfResourceFilters(front, r);
      assert ops == front + [last];
      assert OnePending(front);
      OfResourceOne(front, r);
      if last.resource == r {
        OneMorePerReplica(OfResource(front, r), front, last, r);
      }
    }
  }

  lemma OneMorePerReplica(mine: seq<Transition>, front: seq<Transition>, last: Transition, r: ResourceId)
    requires OnePerReplica(mine) && OnePending(front + [last]) && last.resource == r
    requires forall t | t in mine :: t in front && t.resource == r
    ensures OnePerReplica(mine + [last])
  {
    forall t | t in mine
      ensures !SameKey(t, last)
    {
      var k :| 0 <= k < |front| && front[k] == t;
      assert !SameReplica((front + [last])[k], (front + [last])[|front|]);
    }
  }

  /** A step up, the only kind that can strand a message of a removed partition. */
  predicate Upward(t: Transition) {
    (t.from == Offline && t.to == Standby) || (t.from == Standby && t.to == Leader)
  }

  ghost predicate Direct(t: Transition) {
    Edge(t.from, t.to) in LeaderStandby.LsTransitions()
  }

  lemma DirectCases(t: Transition)
    ensures Direct(t) <==> Upward(t) || LeaderStandby.Hop(t.from, Dropped) == Some(t.to)
  {
    var es := LeaderStandby.LsTransitions();
    assert es[0] == Edge(Leader, Standby) && es[1] == Edge(Standby, Leader) && es[2] == Edge(Offline, Standby)
        && es[3] == Edge(Standby, Offline) && es[4] == Edge(Offline, Dropped);
  }

  ghost predicate OneMessagePerReplica(queue: seq<Message>) {
    forall i, j | 0 <= i < j < |queue| :: ReplicaOf(queue[i].step) != ReplicaOf(queue[j].step)
  }

  lemma {:induction false} RetainOne(snap: Snapshot, mode: Mode, queue: seq<Message>)
    requires OneMessagePerReplica(queue)
    ensures OneMessagePerReplica(Retain(snap, mode, queue))
  {
    hide Retained;
    if queue != [] {
      var front, last := queue[..|queue| - 1], queue[|queue| - 1];
      RetainOne(snap, mode, front);
      InRetain(snap, mode, front);
      assert forall m | m in front :: ReplicaOf(m.step) != ReplicaOf(last.step);
    }
  }

  lemma {:induction false} OperationsOne(snap: Snapshot, mode: Mode, retained: seq<Message>)
    requires OneMessagePerReplica(retained)
    ensures OnePending(Operations(snap, mode, retained))
  {
    hide Operational;
    if retained != [] {
      var front, last := retained[..|retained| - 1], retained[|retained| - 1];
      OperationsOne(snap, mode, front);
      InOperations(snap, mode, front);
      assert forall m | m in front :: ReplicaOf(m.step) != ReplicaOf(last.step);
      var before := Operations(snap, mode, front);
      forall t | t in before
        ensures !SameReplica(t, last.step)
      {
        var m :| m in front && m.step == t;
        assert ReplicaOf(m.step) != ReplicaOf(last.step);
      }
    }
  }

  /** Work retained in a planned resource is known unless it is a step up in a removed partition. */
  lemma RetainedIsKnown(snap: Snapshot, mode: Mode, m: Message)
    requires Retained(snap, mode, m) && Direct(m.step)
    ensures KnownPartition(snap.plans[m.step.resource], PlanState(snap, m.step.resource), LeaderStandby.Model(), m.step)
            <==> Placed(snap, m.step) || !Upward(m.step)
  {
    var t := m.step;
    DirectCases(t);
    LeaderStandby.HopIsNextToward(t.from, Dropped);
    assert Dropped in LeaderStandby.Model().states by {
      assert LeaderStandby.LsStates()[3] == Dropped;
    }
    if !Placed(snap, t) {
      assert t.partition in PlanState(snap, t.resource) by {
        snap.ActualAt(t.resource, t.partition, 0);
        var j :| snap.At(t.resource, t.partition, j).Some?;
        PlanStateAt(snap, t.resource, t.partition, j);
      }
    }
  }

  ghost predicate Stranded(snap: Snapshot, mode: Mode, m: Message) {
    Retained(snap, mode, m) && !Placed(snap, m.step) && Upward(m.step)
  }

  /** A cycle over a published queue succeeds exactly when it holds no retained step up for a
      partition that has lost its preference list; after a session replacement it never does. */
  lemma CycleSucceedsIff(snap: Snapshot, mode: Mode, queue: seq<Message>)
    requires OneMessagePerReplica(queue) && forall m | m in queue :: Direct(m.step)
    ensures Plannable(snap, Ops(snap, mode, queue)) <==> forall m | m in queue :: !Stranded(snap, mode, m)
    ensures mode == SessionReplacement ==> Plannable(snap, Ops(snap, mode, queue))
  {
    var ops := Ops(snap, mode, queue);
    assert OnePending(ops) by {
      RetainOne(snap, mode, queue);
      OperationsOne(snap, mode, Retain(snap, mode, queue));
    }
    forall m | m in queue && Retained(snap, mode, m)
      ensures m.step.resource in snap.plans
      ensures !Stranded(snap, mode, m) <==>
              KnownPartition(snap.plans[m.step.resource], PlanState(snap, m.step.resource),
                             LeaderStandby.Model(), m.step)
      ensures !Operational(snap, mode, m.step) ==> !Stranded(snap, mode, m)
      ensures mode == SessionReplacement ==> !Stranded(snap, mode, m)
    {
      RetainedIsKnown(snap, mode, m);
    }
    hide Retained, KnownPartition, PlanState, LeaderStandby.Model, Operational, Ops, OnePending;
    forall t
      ensures t in ops <==> exists m ::
                              m in queue && m.step == t && Retained(snap, mode, m) && Operational(snap, mode, t)
    {
      InOps(snap, mode, queue, t);
    }
    if Plannable(snap, ops) {
      forall m | m in queue
        ensures !Stranded(snap, mode, m)
      {
        assert Retained(snap, mode, m) && Operational(snap, mode, m.step) ==> m.step in ops;
      }
    }
  }

  /** The failure is real: a replica of a partition just removed from the placement, with a queued
      step up, stops the whole cycle outside session replacement. */
  lemma StrandedStepStopsTheCycle() returns (snap: Snapshot, m: Message)
    ensures snap.Valid() && WellFormed([m], snap.revision) && !Plannable(snap, Ops(snap, Normal, [m]))
  {
    var step := Transition(0, 1, 7, Offline, Standby);
    m := Message(MessageId(1, 0), 5, step);
    var ideal := IdealState(1, map[0 := [7]]);
    snap := Snapshot(2, map[7 := 5], {7}, map[Replica(0, 1, 7) := Offline], map[0 := ideal], []);
    assert Direct(step) by {
      assert LeaderStandby.LsTransitions()[2] == Edge(Offline, Standby);
    }
    assert ideal.Valid() by {
      assert 0 in ideal.lists;
    }
    assert Stranded(snap, Normal, m) by {
      assert snap.At(0, 1, 7) == Some(Offline);
      snap.ActualAt(0, 1, 7);
    }
    hide Stranded, Direct, IdealState.Valid, Plannable, Ops;
    assert m in [m];
    CycleSucceedsIff(snap, Normal, [m]);
  }

  // What becomes of published messages.

  /** A queued message that a cycle lets go: its session or its partition is gone, its replica has moved,
      or, after a session replacement, it leads away from the placement. */
  ghost predicate Outdated(snap: Snapshot, mode: Mode, m: Message) {
    var t := m.step;
    || t.instance !in snap.live || snap.live[t.instance] != m.session
    || t.resource !in snap.plans
    || (t.partition !in snap.plans[t.resource].lists && forall i :: snap.At(t.resource, t.partition, i).None?)
    || (snap.At(t.resource, t.partition, t.instance).Some?
        && snap.At(t.resource, t.partition, t.instance) != Some(t.from))
    || (mode == SessionReplacement
        && (t.instance in List(snap.plans[t.resource], t.partition) <==> t.to == Offline || t.to == Dropped))
  }

  /** A cycle keeps exactly the messages that are not outdated. */
  lemma KeptUnlessOutdated(snap: Snapshot, mode: Mode, queue: seq<Message>, m: Message)
    ensures m in Retain(snap, mode, queue) <==> m in queue && !Outdated(snap, mode, m)
  {
    hide Snapshot.At, Snapshot.Actual;
    InRetain(snap, mode, queue);
    var t := m.step;
    if t.resource in snap.plans {
      PresentIffSome(snap, t.resource, t.partition);
    }
  }

  lemma PresentIffSome(snap: Snapshot, r: ResourceId, p: PartitionId)
    ensures p in snap.Actual(r) <==> exists i :: snap.At(r, p, i).Some?
  {
    snap.ActualAt(r, p, 0);
    if i :| snap.At(r, p, i).Some? {
      snap.ActualAt(r, p, i);
    }
  }

  /** The work in flight that a cycle plans around: every kept message, except, after a session replacement,
      one that removes a replica off the list of a partition that has one. */
  lemma PlannedAround(snap: Snapshot, mode: Mode, queue: seq<Message>, t: Transition)
    ensures t in Ops(snap, mode, queue)
            <==> && (exists m :: m in Retain(snap, mode, queue) && m.step == t)
                 && !(mode == SessionReplacement && t.resource in snap.plans
                      && t.partition in snap.plans[t.resource].lists
                      && t.instance !in snap.plans[t.resource].lists[t.partition])
  {
    hide Retained;
    InRetain(snap, mode, queue);
    InOperations(snap, mode, Retain(snap, mode, queue));
    forall m | m in Retain(snap, mode, queue) && m.step == t
      ensures t.resource in snap.plans
    {
      RetainedHasPlan(snap, mode, m);
    }
  }

  lemma RetainedHasPlan(snap: Snapshot, mode: Mode, m: Message)
    requires Retained(snap, mode, m)
    ensures m.step.resource in snap.plans
  {
  }

  // The published queue.

  ghost predicate DistinctIds(queue: seq<Message>) {
    forall i, j | 0 <= i < j < |queue| :: queue[i].id != queue[j].id
  }

  /** A message this cycle adds: for a dispatched step and the live session, the very message already
      published for them if there is one, and otherwise one with a fresh identity. */
  ghost predicate Added(snap: Snapshot, original: seq<Message>, steps: seq<Transition>, m: Message) {
    && m.step in steps
    && m.step.instance in snap.live && snap.live[m.step.instance] == m.session
    && (m in original || (m.id.revision == snap.revision && m.id.ordinal < |steps| && steps[m.id.ordinal] == m.step
                          && forall o | o in original :: o.step != m.step || o.session != m.session))
  }

  ghost predicate Grown(snap: Snapshot, original: seq<Message>, kept: seq<Message>, next: seq<Message>,
                        steps: seq<Transition>) {
    && kept <= next
    && OneMessagePerReplica(next)
    && (forall m | m in next :: m in kept || Added(snap, original, steps, m))
    && (forall t | t in steps && t.instance in snap.live :: Occupied(next, ReplicaOf(t)))
  }

  lemma {:induction false} PublishedFinds(queue: seq<Message>, t: Transition, session: SessionId)
    ensures Published(queue, t, session).Some? ==> Message(Published(queue, t, session).value, session, t) in queue
    ensures Published(queue, t, session).None? ==> forall m | m in queue :: m.step != t || m.session != session
  {
    if queue != [] {
      PublishedFinds(queue[1..], t, session);
      assert queue == [queue[0]] + queue[1..];
    }
  }

  lemma AddedLater(snap: Snapshot, original: seq<Message>, steps: seq<Transition>, t: Transition, m: Message)
    requires Added(snap, original, steps, m)
    ensures Added(snap, original, steps + [t], m)
  {
  }

  lemma PushGrows(snap: Snapshot, original: seq<Message>, kept: seq<Message>, next: seq<Message>,
                  steps: seq<Transition>, t: Transition)
    requires Grown(snap, original, kept, next, steps)
    ensures Grown(snap, original, kept, Push(snap, original, next, t, |steps|), steps + [t])
  {
    var more := Push(snap, original, next, t, |steps|);
    hide Added;
    forall m | m in next
      ensures m in kept || Added(snap, original, steps + [t], m)
    {
      if m !in kept {
        AddedLater(snap, original, steps, t, m);
      }
    }
    if t.instance in snap.live && !Occupied(next, ReplicaOf(t)) {
      var m := more[|next|];
      PushedIsAdded(snap, original, next, steps, t);
      assert forall x | x in next :: ReplicaOf(x.step) != ReplicaOf(t);
      assert m in more;
    }
    forall u | u in steps + [t] && u.instance in snap.live
      ensures Occupied(more, ReplicaOf(u))
    {
      if Occupied(next, ReplicaOf(u)) {
        var x :| x in next && ReplicaOf(x.step) == ReplicaOf(u);
        assert x in more;
      } else {
        assert more[|next|] in more;
      }
    }
  }

  lemma PushedIsAdded(snap: Snapshot, original: seq<Message>, next: seq<Message>, steps: seq<Transition>, t: Transition)
    requires t.instance in snap.live && !Occupied(next, ReplicaOf(t))
    ensures var more := Push(snap, original, next, t, |steps|);
            |more| == |next| + 1 && more[..|next|] == next && more[|next|].step == t
                && Added(snap, original, steps + [t], more[|next|])
  {
    PublishedFinds(original, t, snap.live[t.instance]);
  }

  lemma {:induction false} PushAllGrows(snap: Snapshot, original: seq<Message>, kept: seq<Message>,
                                        steps: seq<Transition>)
    requires OneMessagePerReplica(kept)
    ensures Grown(snap, original, kept, PushAll(snap, original, kept, steps), steps)
  {
    if steps != [] {
      var front, t := steps[..|steps| - 1], steps[|steps| - 1];
      PushAllGrows(snap, original, kept, front);
      hide Grown, Push;
      PushGrows(snap, original, kept, PushAll(snap, original, kept, front), front, t);
      assert steps == front + [t];
    }
  }

  lemma NextQueueGrows(snap: Snapshot, mode: Mode, queue: seq<Message>)
    requires OneMessagePerReplica(queue)
    ensures Grown(snap, queue, Retain(snap, mode, queue), NextQueue(snap, mode, queue), Dispatched(snap, mode, queue))
  {
    hide Grown, Retain, Dispatched, PushAll;
    RetainOne(snap, mode, queue);
    PushAllGrows(snap, queue, Retain(snap, mode, queue), Dispatched(snap, mode, queue));
  }

  /** What every queue in force satisfies when a cycle starts from it. */
  ghost predicate WellFormed(queue: seq<Message>, revision: nat) {
    && OneMessagePerReplica(queue)
    && DistinctIds(queue)
    && (forall m | m in queue :: Direct(m.step) && m.id.revision < revision)
  }

  lemma DispatchedIsDirect(snap: Snapshot, mode: Mode, queue: seq<Message>, t: Transition)
    requires snap.Valid() && t in Dispatched(snap, mode, queue)
    ensures Direct(t)
  {
    hide Dispatched, Ops, PlanState, Target;
    DispatchedIsSelected(snap, mode, queue, t);
    DirectCases(t);
  }

  lemma SameIdSameReplica(snap: Snapshot, mode: Mode, queue: seq<Message>, a: Message, b: Message)
    requires WellFormed(queue, snap.revision)
    requires a in NextQueue(snap, mode, queue) && b in NextQueue(snap, mode, queue) && a.id == b.id
    ensures ReplicaOf(a.step) == ReplicaOf(b.step)
  {
    hide Retain, Dispatched, NextQueue, Retained;
    NextQueueGrows(snap, mode, queue);
    InRetain(snap, mode, queue);
    var steps := Dispatched(snap, mode, queue);
    if a in queue && b in queue {
      var i :| 0 <= i < |queue| && queue[i] == a;
      var j :| 0 <= j < |queue| && queue[j] == b;
      assert i == j;
    }
  }

  /** The queue invariant of every publication. */
  lemma PublicationKeepsQueue(snap: Snapshot, mode: Mode, queue: seq<Message>)
    requires snap.Valid() && WellFormed(queue, snap.revision)
    ensures WellFormed(NextQueue(snap, mode, queue), snap.revision + 1)
    ensures forall m | m in NextQueue(snap, mode, queue) ::
              m.step.instance in snap.live && snap.live[m.step.instance] == m.session
    ensures forall m | m in NextQueue(snap, mode, queue) && m !in queue ::
              && m.id.revision == snap.revision && m.step in Dispatched(snap, mode, queue)
              && forall o | o in queue :: o.step != m.step || o.session != m.session
  {
    var next, steps := NextQueue(snap, mode, queue), Dispatched(snap, mode, queue);
    hide Retain, Dispatched, NextQueue, Direct;
    NextQueueGrows(snap, mode, queue);
    InRetain(snap, mode, queue);
    forall i, j | 0 <= i < j < |next|
      ensures next[i].id != next[j].id
    {
      if next[i].id == next[j].id {
        SameIdSameReplica(snap, mode, queue, next[i], next[j]);
      }
    }
    forall m | m in next
      ensures Direct(m.step)
    {
      if m !in queue {
        DispatchedIsDirect(snap, mode, queue, m.step);
      }
    }
  }

  /** A rearranged queue keeps what depends only on its messages. */
  lemma RearrangedQueue(a: seq<Message>, b: seq<Message>)
    requires multiset(a) == multiset(b)
    ensures forall m :: m in a <==> m in b
    ensures OneMessagePerReplica(a) ==> OneMessagePerReplica(b)
    ensures OneMessagePerReplica(a) && DistinctIds(a) ==> DistinctIds(b)
  {
    SameMembers(a, b);
    if OneMessagePerReplica(a) {
      assert Distinct(a);
      PermutationDistinct(a, b);
      forall i, j | 0 <= i < j < |b|
        ensures ReplicaOf(b[i].step) != ReplicaOf(b[j].step)
        ensures DistinctIds(a) ==> b[i].id != b[j].id
      {
        assert b[i] in a && b[j] in a && b[i] != b[j];
      }
    }
  }
}
