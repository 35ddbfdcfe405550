/** Convergence: with fixed inputs and no failing handler, cycles and completions in any
    interleaving perform a bounded number of transitions. */
module Convergence {
  import opened Types
  import opened Ordering
  import opened BestPossible
  import opened Planning
  import opened Pipeline
  import opened Cycle
  import opened Settling
  import opened Quiescence
  import LeaderStandby

  /** The inputs, the current states and the published queue. */
  datatype Cluster = Cluster(snap: Snapshot, queue: seq<Message>)

  /** A cycle from a snapshot at some revision, a completed transition, or a withdrawn message. */
  datatype Step = Plan(mode: Mode, revision: nat,
                       queue: seq<Message>) | Finish(message: Message) | Withdraw(id: MessageId)

  /** CurrentState after a step: DROPPED deletes the entry. */
  function Finished(current: map<Replica, State>, t: Transition): map<Replica, State> {
    if t.to == Dropped then current - {ReplicaOf(t)} else current[ReplicaOf(t) := t.to]
  }

  function Discard(queue: seq<Message>, id: MessageId): seq<Message> {
    if queue == [] then []
    else
      var front := Discard(queue[..|queue| - 1], id);
      if queue[|queue| - 1].id == id then front else front + [queue[|queue| - 1]]
  }

  /** Every message was planned from an earlier revision. */
  ghost predicate Older(queue: seq<Message>, revision: nat) {
    forall m | m in queue :: m.id.revision < revision
  }

  ghost predicate Enabled(c: Cluster, step: Step) {
    match step
    case Plan(mode, revision, queue) => Older(c.queue, revision) && Orders(c, mode, revision, queue)
    case Finish(m) => m in c.queue
    case Withdraw(_) => true
  }

  /** The next queue, planned at a revision, in any order. */
  ghost predicate Orders(c: Cluster, mode: Mode, revision: nat, queue: seq<Message>) {
    multiset(queue) == multiset(NextQueue(c.snap.(revision := revision), mode, c.queue))
  }

  /** A message carried out: its replica moves and it leaves the queue. */
  function CarriedOut(c: Cluster, m: Message): Cluster {
    Cluster(c.snap.(current := Finished(c.snap.current, m.step)), Discard(c.queue, m.id))
  }

  function Withdrawn(c: Cluster, id: MessageId): Cluster {
    c.(queue := Discard(c.queue, id))
  }

  function After(c: Cluster, step: Step): Cluster {
    match step
    case Plan(_, revision, queue) => Cluster(c.snap.(revision := revision), queue)
    case Finish(m) => CarriedOut(c, m)
    case Withdraw(id) => Withdrawn(c, id)
  }

  // A partition of the cluster.

  function Aim(queue: seq<Message>, k: Replica): State {
    if queue == [] then Offline
    else if ReplicaOf(queue[|queue| - 1].step) == k then queue[|queue| - 1].step.to
    else Aim(queue[..|queue| - 1], k)
  }

  lemma {:induction false} AimIs(queue: seq<Message>, m: Message)
    requires OneMessagePerReplica(queue) && m in queue
    ensures Aim(queue, ReplicaOf(m.step)) == m.step.to
  {
    var front, last := queue[..|queue| - 1], queue[|queue| - 1];
    assert queue == front + [last];
    if m != last {
      assert m in front;
      AimIs(front, m);
    }
  }

  function Busy(queue: seq<Message>, r: ResourceId, p: PartitionId): set<InstanceId> {
    set m | m in queue && m.step.resource == r && m.step.partition == p :: m.step.instance
  }

  function InFlight(queue: seq<Message>, r: ResourceId, p: PartitionId): Replicas {
    map i | i in Busy(queue, r, p) :: Aim(queue, Replica(r, p, i))
  }

  function ViewOf(c: Cluster, r: ResourceId, p: PartitionId): View {
    View(ActiveOf(c.snap, r, p), ReplicasAt(c.snap, r, p), InFlight(c.queue, r, p))
  }

  /** A published message starts where its replica stands and targets its live session. */
  ghost predicate Sound(snap: Snapshot, m: Message) {
    && m.step.resource in snap.plans
    && m.step.instance in snap.live && snap.live[m.step.instance] == m.session
    && StateOf(PlanState(snap, m.step.resource), m.step.partition, m.step.instance) == Some(m.step.from)
  }

  ghost predicate Tidy(queue: seq<Message>) {
    OneMessagePerReplica(queue) && DistinctIds(queue) && forall m | m in queue :: Direct(m.step)
  }

  ghost predicate Steady(c: Cluster) {
    && c.snap.Valid() && c.snap.live.Keys <= c.snap.configs
    && Tidy(c.queue)
    && (forall m | m in c.queue :: Sound(c.snap, m))
    && (forall r, p | r in c.snap.plans :: Inv(ViewOf(c, r, p)))
  }

  lemma InFlightAt(queue: seq<Message>, r: ResourceId, p: PartitionId, i: InstanceId)
    requires OneMessagePerReplica(queue)
    ensures i in InFlight(queue, r, p) <==> exists m :: m in queue && ReplicaOf(m.step) == Replica(r, p, i)
    ensures forall m | m in queue && ReplicaOf(m.step) == Replica(r, p, i) ::
              i in InFlight(queue, r, p) && InFlight(queue, r, p)[i] == m.step.to
  {
    forall m | m in queue && ReplicaOf(m.step) == Replica(r, p, i)
      ensures i in InFlight(queue, r, p) && InFlight(queue, r, p)[i] == m.step.to
    {
      AimIs(queue, m);
      assert i in Busy(queue, r, p);
    }
  }

  // Planning.

  /** Whatever was retained of a step to or from LEADER takes part in selection. */
  lemma RetainedLeaderIsOperational(snap: Snapshot, mode: Mode, m: Message)
    requires Retained(snap, mode, m) && (m.step.to == Leader || (m.step.from == Leader && m.step.to == Standby))
    ensures Operational(snap, mode, m.step)
  {
  }

  lemma RetainedPromotionCounts(snap: Snapshot, mode: Mode, queue: seq<Message>, m: Message, t: Transition)
    requires SelectedNow(snap, Ops(snap, mode, queue), t) && t.to == Leader
    requires m in queue && Retained(snap, mode, m) && m.step.resource == t.resource && m.step.partition == t.partition
    ensures m.step.to != Leader
  {
    hide Ops, PlanState, Retained;
    if m.step.to == Leader {
      RetainedLeaderIsOperational(snap, mode, m);
      InOps(snap, mode, queue, m.step);
    }
  }

  lemma NoneLeads(snap: Snapshot, ops: seq<Transition>, t: Transition)
    requires SelectedNow(snap, ops, t) && t.to == Leader
    ensures NoLeader(ReplicasAt(snap, t.resource, t.partition))
  {
    var cur := ReplicasAt(snap, t.resource, t.partition);
    forall i | i in cur
      ensures cur[i] != Leader
    {
      PlanStateAt(snap, t.resource, t.partition, i);
    }
  }

  lemma NoneKeptLeads(snap: Snapshot, mode: Mode, queue: seq<Message>, t: Transition)
    requires SelectedNow(snap, Ops(snap, mode, queue), t) && t.to == Leader && OneMessagePerReplica(queue)
    ensures var kept := InFlight(Retain(snap, mode, queue), t.resource, t.partition);
            forall j | j in kept :: kept[j] != Leader
  {
    var r, p, rest := t.resource, t.partition, Retain(snap, mode, queue);
    RetainOne(snap, mode, queue);
    InRetain(snap, mode, queue);
    hide Ops, Retained, SelectedNow, Retain;
    forall j | j in InFlight(rest, r, p)
      ensures InFlight(rest, r, p)[j] != Leader
    {
      InFlightAt(rest, r, p, j);
      var k :| k in rest && ReplicaOf(k.step) == Replica(r, p, j);
      RetainedPromotionCounts(snap, mode, queue, k, t);
    }
  }

  /** A step that is dispatched is due where its replica stands. */
  lemma DispatchIsFresh(c: Cluster, mode: Mode, t: Transition)
    requires c.snap.Valid() && OneMessagePerReplica(c.queue) && t in Dispatched(c.snap, mode, c.queue)
    ensures t.resource in c.snap.plans
    ensures StateOf(PlanState(c.snap, t.resource), t.partition, t.instance) == Some(t.from)
    ensures var v, kept := ViewOf(c, t.resource, t.partition), InFlight(Retain(c.snap, mode, c.queue), t.resource,
        t.partition);
            t.instance in v.cur && Fresh(v, kept, t.instance, t.to)
  {
    hide PlanState, Ops, Retain, Dispatched, InFlight, LeaderStandby.Hop, Target;
    DispatchedIsSelected(c.snap, mode, c.queue, t);
    if t.to == Leader {
      NoneLeads(c.snap, Ops(c.snap, mode, c.queue), t);
      NoneKeptLeads(c.snap, mode, c.queue, t);
    }
  }

  lemma KeptWasPending(queue: seq<Message>, rest: seq<Message>, r: ResourceId, p: PartitionId, i: InstanceId)
    requires OneMessagePerReplica(queue) && OneMessagePerReplica(rest) && forall m | m in rest :: m in queue
    requires i in InFlight(rest, r, p)
    ensures i in InFlight(queue, r, p) && InFlight(queue, r, p)[i] == InFlight(rest, r, p)[i]
  {
    hide InFlight;
    InFlightAt(rest, r, p, i);
    InFlightAt(queue, r, p, i);
  }

  lemma PlannedIsKeptOrFresh(c: Cluster, mode: Mode, r: ResourceId, p: PartitionId, i: InstanceId)
    requires Steady(c) && r in c.snap.plans && i in InFlight(NextQueue(c.snap, mode, c.queue), r, p)
    ensures var v, kept := ViewOf(c, r, p), InFlight(Retain(c.snap, mode, c.queue), r, p);
            var next := InFlight(NextQueue(c.snap, mode, c.queue), r, p);
            i in v.cur && ((i in kept && next[i] == kept[i]) || Fresh(v, kept, i, next[i]))
  {
    var snap, queue := c.snap, c.queue;
    var rest, next := Retain(snap, mode, queue), NextQueue(snap, mode, queue);
    hide Retain, NextQueue, Dispatched, Retained, Inv, PlanState, Fresh, InFlight;
    NextQueueGrows(snap, mode, queue);
    RetainOne(snap, mode, queue);
    InFlightAt(next, r, p, i);
    InFlightAt(rest, r, p, i);
    var m :| m in next && ReplicaOf(m.step) == Replica(r, p, i);
    if m in rest {
      InRetain(snap, mode, queue);
      assert Sound(snap, m);
    } else {
      DispatchIsFresh(c, mode, m.step);
    }
  }

  lemma SteadyOne(c: Cluster)
    requires Steady(c)
    ensures OneMessagePerReplica(c.queue)
  {
  }

  lemma PlanDispatches(c: Cluster, mode: Mode, r: ResourceId, p: PartitionId)
    requires Steady(c) && r in c.snap.plans
    ensures Dispatches(ViewOf(c, r, p), InFlight(Retain(c.snap, mode, c.queue), r, p),
                       ViewOf(Cluster(c.snap, NextQueue(c.snap, mode, c.queue)), r, p))
  {
    hide Retain, NextQueue, Retained, PlanState, Fresh, InFlight, OneMessagePerReplica, Steady, ActiveOf, ReplicasAt;
    var snap, queue := c.snap, c.queue;
    var rest, next := Retain(snap, mode, queue), NextQueue(snap, mode, queue);
    var v, w, kept := ViewOf(c, r, p), ViewOf(Cluster(snap, next), r, p), InFlight(rest, r, p);
    SteadyOne(c);
    RetainOne(snap, mode, queue);
    InRetain(snap, mode, queue);
    forall i | i in kept
      ensures i in v.pend && kept[i] == v.pend[i]
    {
      KeptWasPending(queue, rest, r, p, i);
    }
    forall i | i in w.pend
      ensures i in v.cur
      ensures (i in kept && w.pend[i] == kept[i]) || Fresh(v, kept, i, w.pend[i])
    {
      PlannedIsKeptOrFresh(c, mode, r, p, i);
    }
  }

  lemma PlanKeepsSound(c: Cluster, mode: Mode, m: Message)
    requires Steady(c) && m in NextQueue(c.snap, mode, c.queue)
    ensures Sound(c.snap, m)
  {
    hide Retain, NextQueue, Dispatched, Retained, PlanState, Fresh, InFlight, Inv;
    NextQueueGrows(c.snap, mode, c.queue);
    InRetain(c.snap, mode, c.queue);
    if m !in Retain(c.snap, mode, c.queue) {
      DispatchIsFresh(c, mode, m.step);
    } else {
      assert m in c.queue;
    }
  }

  lemma ActualByInputs(a: Snapshot, b: Snapshot, r: ResourceId)
    requires a.live == b.live && a.configs == b.configs && a.current == b.current
    ensures a.Actual(r) == b.Actual(r)
  {
    var x, y := a.Actual(r), b.Actual(r);
    assert a.Partitions(r) == b.Partitions(r);
    forall p | p in x
      ensures x[p] == y[p]
    {
      forall i
        ensures i in x[p] <==> i in y[p]
        ensures i in x[p] ==> x[p][i] == y[p][i]
      {
        assert a.At(r, p, i) == b.At(r, p, i);
      }
    }
  }

  lemma SameInputs(c: Cluster, revision: nat)
    requires Steady(c)
    ensures var d := c.(snap := c.snap.(revision := revision));
            && Steady(d) && (Older(c.queue, revision) ==> WellFormed(c.queue, revision))
            && (forall r, p | r in c.snap.plans :: ViewOf(d, r, p) == ViewOf(c, r, p))
  {
    var d := c.(snap := c.snap.(revision := revision));
    forall r
      ensures d.snap.Actual(r) == c.snap.Actual(r)
    {
      ActualByInputs(d.snap, c.snap, r);
    }
    hide Inv, Snapshot.Actual, Normalized, InFlight;
    assert forall r, p | r in c.snap.plans :: ViewOf(d, r, p) == ViewOf(c, r, p);
  }

  /** In one partition, a cycle keeps the invariant and does not raise the measure. */
  lemma PlanKeepsView(c: Cluster, mode: Mode, r: ResourceId, p: PartitionId, keys: seq<InstanceId>)
    requires Steady(c) && r in c.snap.plans
    ensures var v, w := ViewOf(c, r, p), ViewOf(Cluster(c.snap, NextQueue(c.snap, mode, c.queue)), r, p);
            Inv(w) && w.cur == v.cur && Measure(w, keys) <= Measure(v, keys)
  {
    var v, w := ViewOf(c, r, p), ViewOf(Cluster(c.snap, NextQueue(c.snap, mode, c.queue)), r, p);
    assert Inv(v);
    hide Inv, NextQueue, Retain, PlanState, InFlight, Measure, Steady;
    var kept := InFlight(Retain(c.snap, mode, c.queue), r, p);
    PlanDispatches(c, mode, r, p);
    hide Dispatches;
    DispatchKeeps(v, kept, w);
    DispatchKeepsMeasure(v, kept, w, keys);
  }

  lemma PlanKeepsSteady(c: Cluster, mode: Mode)
    requires Steady(c) && WellFormed(c.queue, c.snap.revision)
    ensures Steady(Cluster(c.snap, NextQueue(c.snap, mode, c.queue)))
  {
    var d := Cluster(c.snap, NextQueue(c.snap, mode, c.queue));
    PublicationKeepsQueue(c.snap, mode, c.queue);
    assert Tidy(d.queue);
    hide Tidy, Inv, NextQueue, PlanState, InFlight, Measure, Sound, WellFormed, ViewOf;
    forall m | m in d.queue
      ensures Sound(d.snap, m)
    {
      PlanKeepsSound(c, mode, m);
    }
    forall r, p | r in c.snap.plans
      ensures Inv(ViewOf(d, r, p))
    {
      PlanKeepsView(c, mode, r, p, []);
    }
  }

  /** The order of the queue does not matter to a partition. */
  lemma RearrangedView(snap: Snapshot, a: seq<Message>, b: seq<Message>, r: ResourceId, p: PartitionId)
    requires multiset(a) == multiset(b) && OneMessagePerReplica(a)
    ensures ViewOf(Cluster(snap, b), r, p) == ViewOf(Cluster(snap, a), r, p)
  {
    RearrangedQueue(a, b);
    hide InFlight, OneMessagePerReplica;
    var x, y := InFlight(a, r, p), InFlight(b, r, p);
    forall i
      ensures i in x <==> i in y
      ensures i in x ==> x[i] == y[i]
    {
      InFlightAt(a, r, p, i);
      InFlightAt(b, r, p, i);
    }
    assert x == y;
  }

  lemma RearrangedSteady(snap: Snapshot, a: seq<Message>, b: seq<Message>)
    requires multiset(a) == multiset(b) && Steady(Cluster(snap, a))
    ensures Steady(Cluster(snap, b))
  {
    RearrangedQueue(a, b);
    SteadyInputs(Cluster(snap, a));
    assert Tidy(b);
    hide Steady, Inv, ViewOf, Sound;
    SteadyOne(Cluster(snap, a));
    forall m | m in b
      ensures Sound(snap, m)
    {
      SteadyMessage(Cluster(snap, a), m);
    }
    forall r, p | r in snap.plans
      ensures Inv(ViewOf(Cluster(snap, b), r, p))
    {
      SteadyView(Cluster(snap, a), r, p);
      RearrangedView(snap, a, b, r, p);
    }
    SteadyFrom(Cluster(snap, b));
  }

  lemma PlanIsSteady(c: Cluster, mode: Mode, revision: nat, queue: seq<Message>)
    requires Steady(c) && Older(c.queue, revision) && Orders(c, mode, revision, queue)
    ensures Steady(Cluster(c.snap.(revision := revision), queue))
  {
    var b := c.(snap := c.snap.(revision := revision));
    SameInputs(c, revision);
    hide NextQueue, Steady, WellFormed;
    PlanKeepsSteady(b, mode);
    RearrangedSteady(b.snap, NextQueue(b.snap, mode, b.queue), queue);
  }

  /** A cycle keeps the invariant and never raises a partition's measure. */
  lemma PlanKeeps(c: Cluster, mode: Mode, revision: nat, queue: seq<Message>, r: ResourceId, p: PartitionId,
                  keys: seq<InstanceId>)
    requires Steady(c) && Older(c.queue, revision) && Orders(c, mode, revision, queue) && r in c.snap.plans
    ensures var d := Cluster(c.snap.(revision := revision), queue);
            && Steady(d)
            && ViewOf(d, r, p).cur == ViewOf(c, r, p).cur
            && Measure(ViewOf(d, r, p), keys) <= Measure(ViewOf(c, r, p), keys)
  {
    var b := c.(snap := c.snap.(revision := revision));
    SameInputs(c, revision);
    hide NextQueue, Measure, Steady, ViewOf, WellFormed;
    PlanIsSteady(c, mode, revision, queue);
    PlanKeepsSteady(b, mode);
    PlanKeepsView(b, mode, r, p, keys);
    SteadyOne(Cluster(b.snap, NextQueue(b.snap, mode, b.queue)));
    RearrangedView(b.snap, NextQueue(b.snap, mode, b.queue), queue, r, p);
  }

  // Completing.

  lemma {:induction false} DiscardFilters(queue: seq<Message>, id: MessageId)
    ensures forall m :: m in Discard(queue, id) <==> m in queue && m.id != id
  {
    if queue != [] {
      var front, last := queue[..|queue| - 1], queue[|queue| - 1];
      DiscardFilters(front, id);
      assert queue == front + [last];
    }
  }

  lemma {:induction false} DiscardKeepsOne(queue: seq<Message>, id: MessageId)
    requires OneMessagePerReplica(queue)
    ensures OneMessagePerReplica(Discard(queue, id))
  {
    if queue != [] {
      var front, last := queue[..|queue| - 1], queue[|queue| - 1];
      DiscardKeepsOne(front, id);
      DiscardFilters(front, id);
      assert forall m | m in front :: ReplicaOf(m.step) != ReplicaOf(last.step);
    }
  }

  lemma {:induction false} DiscardKeepsIds(queue: seq<Message>, id: MessageId)
    requires DistinctIds(queue)
    ensures DistinctIds(Discard(queue, id))
  {
    if queue != [] {
      var front, last := queue[..|queue| - 1], queue[|queue| - 1];
      DiscardKeepsIds(front, id);
      DiscardFilters(front, id);
      assert forall m | m in front :: m.id != last.id;
    }
  }

  lemma OnlyOneDiscarded(queue: seq<Message>, m: Message, x: Message)
    requires DistinctIds(queue) && m in queue && x in queue && x.id == m.id
    ensures x == m
  {
    var i :| 0 <= i < |queue| && queue[i] == m;
    var j :| 0 <= j < |queue| && queue[j] == x;
    assert i == j;
  }

  lemma OnlyOneMessage(queue: seq<Message>, m: Message, x: Message)
    requires OneMessagePerReplica(queue) && m in queue && x in queue && ReplicaOf(x.step) == ReplicaOf(m.step)
    ensures x == m
  {
    var i :| 0 <= i < |queue| && queue[i] == m;
    var j :| 0 <= j < |queue| && queue[j] == x;
    assert i == j;
  }

  lemma DiscardInFlight(queue: seq<Message>, m: Message, r: ResourceId, p: PartitionId)
    requires OneMessagePerReplica(queue) && DistinctIds(queue) && m in queue
    ensures InFlight(Discard(queue, m.id), r, p)
         == if m.step.resource == r
             && m.step.partition == p then InFlight(queue, r, p) - {m.step.instance} else InFlight(queue, r, p)
  {
    var less := Discard(queue, m.id);
    DiscardFilters(queue, m.id);
    DiscardKeepsOne(queue, m.id);
    hide InFlight, Discard, OneMessagePerReplica, DistinctIds;
    var a, b := InFlight(queue, r, p), InFlight(less, r, p);
    forall i
      ensures i in b <==> i in a && Replica(r, p, i) != ReplicaOf(m.step)
      ensures i in b ==> b[i] == a[i]
    {
      InFlightAt(queue, r, p, i);
      InFlightAt(less, r, p, i);
      if i in a {
        var x :| x in queue && ReplicaOf(x.step) == Replica(r, p, i);
        if x.id == m.id {
          OnlyOneDiscarded(queue, m, x);
        }
        if Replica(r, p, i) == ReplicaOf(m.step) {
          OnlyOneMessage(queue, m, x);
        }
      }
      forall y | y in less
        ensures ReplicaOf(y.step) != ReplicaOf(m.step)
      {
        if ReplicaOf(y.step) == ReplicaOf(m.step) {
          OnlyOneMessage(queue, m, y);
        }
      }
    }
  }

  lemma FinishedAt(snap: Snapshot, t: Transition, r: ResourceId, p: PartitionId, i: InstanceId)
    requires t.instance in snap.live && t.instance in snap.configs
    ensures snap.(current := Finished(snap.current, t)).At(r, p, i)
         == if Replica(r, p, i) != ReplicaOf(t) then snap.At(r, p, i) else if t.to == Dropped then None else Some(t.to)
  {
  }

  /** Completing a step moves its replica and no other. */
  lemma FinishMoves(snap: Snapshot, t: Transition, r: ResourceId, p: PartitionId, i: InstanceId)
    requires r in snap.plans && t.instance in snap.live && t.instance in snap.configs
    requires Replica(r, p, i) == ReplicaOf(t) && t.to == Dropped ==> i !in List(snap.plans[r], p)
    ensures var after := snap.(current := Finished(snap.current, t));
            StateOf(PlanState(after, r), p, i)
            == if Replica(r, p, i) != ReplicaOf(t) then StateOf(PlanState(snap, r), p, i)
               else if t.to == Dropped then None else Some(t.to)
  {
    var after := snap.(current := Finished(snap.current, t));
    hide PlanState, Snapshot.At;
    FinishedAt(snap, t, r, p, i);
    PlanStateAt(snap, r, p, i);
    PlanStateAt(after, r, p, i);
  }

  lemma DropIsUnpreferred(c: Cluster, m: Message)
    requires Steady(c) && m in c.queue && m.step.to == Dropped
    ensures m.step.resource in c.snap.plans && m.step.instance !in List(c.snap.plans[m.step.resource], m.step.partition)
  {
    var r, p, i := m.step.resource, m.step.partition, m.step.instance;
    assert Sound(c.snap, m);
    var v := ViewOf(c, r, p);
    InFlightAt(c.queue, r, p, i);
    hide PlanState, InFlight;
    assert Inv(v);
    assert Kind(v, i, v.pend[i]);
  }

  lemma SteadyMessage(c: Cluster, m: Message)
    requires Steady(c) && m in c.queue
    ensures Sound(c.snap, m) && m.step.resource in c.snap.plans && m.step.instance in c.snap.live
            && m.step.instance in c.snap.configs
    ensures DistinctIds(c.queue) && OneMessagePerReplica(c.queue)
  {
  }

  lemma SteadyView(c: Cluster, r: ResourceId, p: PartitionId)
    requires Steady(c) && r in c.snap.plans
    ensures Inv(ViewOf(c, r, p))
  {
  }

  function Moved(cur: Replicas, t: Transition, r: ResourceId, p: PartitionId): Replicas {
    if t.resource != r || t.partition != p then cur
    else if t.to == Dropped then cur - {t.instance} else cur[t.instance := t.to]
  }

  lemma FinishReplicas(snap: Snapshot, t: Transition, r: ResourceId, p: PartitionId)
    requires r in snap.plans && t.instance in snap.live && t.instance in snap.configs
    requires t.resource == r && t.to == Dropped ==> t.instance !in List(snap.plans[r], t.partition)
    ensures ReplicasAt(snap.(current := Finished(snap.current, t)), r, p) == Moved(ReplicasAt(snap, r, p), t, r, p)
  {
    hide ReplicasAt, PlanState, Finished;
    var after := snap.(current := Finished(snap.current, t));
    var a, b := ReplicasAt(snap, r, p), ReplicasAt(after, r, p);
    forall i
      ensures (if i in b then Some(b[i]) else None)
           == if Replica(r, p, i) != ReplicaOf(t) then (if i in a then Some(a[i]) else None)
              else if t.to == Dropped then None else Some(t.to)
    {
      ReplicasAtAre(snap, r, p, i);
      ReplicasAtAre(after, r, p, i);
      FinishMoves(snap, t, r, p, i);
    }
    assert b == Moved(a, t, r, p);
  }

  /** What completing a message does to a partition's view. */
  lemma FinishView(c: Cluster, m: Message, r: ResourceId, p: PartitionId)
    requires Steady(c) && m in c.queue && r in c.snap.plans
    ensures m.step.resource == r && m.step.partition == p ==> m.step.instance in ViewOf(c, r, p).pend
    ensures ViewOf(CarriedOut(c, m), r, p)
         == if m.step.resource == r
             && m.step.partition == p then Completed(ViewOf(c, r, p), m.step.instance) else ViewOf(c, r, p)
  {
    hide Steady, InFlight, OneMessagePerReplica, DistinctIds, PlanState;
    hide Discard, Finished, ReplicasAt, NextQueue, Sound;
    SteadyMessage(c, m);
    if m.step.to == Dropped {
      DropIsUnpreferred(c, m);
    }
    FinishReplicas(c.snap, m.step, r, p);
    DiscardInFlight(c.queue, m, r, p);
    if m.step.resource == r && m.step.partition == p {
      InFlightAt(c.queue, r, p, m.step.instance);
    }
  }

  lemma DiscardKeepsTidy(queue: seq<Message>, id: MessageId)
    requires Tidy(queue)
    ensures Tidy(Discard(queue, id))
  {
    hide Discard;
    DiscardFilters(queue, id);
    DiscardKeepsOne(queue, id);
    DiscardKeepsIds(queue, id);
  }

  lemma FinishKeepsSound(c: Cluster, m: Message, x: Message)
    requires Steady(c) && m in c.queue && x in Discard(c.queue, m.id)
    ensures Sound(CarriedOut(c, m).snap, x)
  {
    hide PlanState, Finished, Discard, Steady, OneMessagePerReplica, NextQueue, DistinctIds;
    DiscardFilters(c.queue, m.id);
    SteadyMessage(c, m);
    SteadyMessage(c, x);
    if ReplicaOf(x.step) == ReplicaOf(m.step) {
      OnlyOneMessage(c.queue, m, x);
    }
    FinishMoves(c.snap, m.step, x.step.resource, x.step.partition, x.step.instance);
  }

  lemma FinishKeepsView(c: Cluster, m: Message, r: ResourceId, p: PartitionId)
    requires Steady(c) && m in c.queue && r in c.snap.plans
    ensures Inv(ViewOf(CarriedOut(c, m), r, p))
  {
    hide ViewOf, Steady, Inv, After;
    FinishView(c, m, r, p);
    SteadyView(c, r, p);
    if m.step.resource == r && m.step.partition == p {
      CompletionKeeps(ViewOf(c, r, p), m.step.instance);
    }
  }

  lemma SteadyFrom(c: Cluster)
    requires c.snap.Valid() && c.snap.live.Keys <= c.snap.configs && Tidy(c.queue)
    requires forall m | m in c.queue :: Sound(c.snap, m)
    requires forall r, p | r in c.snap.plans :: Inv(ViewOf(c, r, p))
    ensures Steady(c)
  {
  }

  lemma SteadyInputs(c: Cluster)
    requires Steady(c)
    ensures c.snap.Valid() && c.snap.live.Keys <= c.snap.configs && Tidy(c.queue)
  {
  }

  /** Completing a message keeps the invariant. */
  lemma FinishKeeps(c: Cluster, m: Message)
    requires Steady(c) && m in c.queue
    ensures Steady(CarriedOut(c, m))
  {
    hide ViewOf, Steady, Inv, Sound, Tidy, NextQueue, Finished, Discard;
    var d := CarriedOut(c, m);
    SteadyInputs(c);
    DiscardKeepsTidy(c.queue, m.id);
    forall x | x in d.queue
      ensures Sound(d.snap, x)
    {
      FinishKeepsSound(c, m, x);
    }
    forall q, s | q in d.snap.plans
      ensures Inv(ViewOf(d, q, s))
    {
      FinishKeepsView(c, m, q, s);
    }
    SteadyFrom(d);
  }

  /** Completing a message lowers the measure of its partition and touches no other. */
  lemma FinishLowers(c: Cluster, m: Message, r: ResourceId, p: PartitionId, keys: seq<InstanceId>)
    requires Steady(c) && m in c.queue && r in c.snap.plans
    requires Distinct(keys) && forall i | i in ViewOf(c, r, p).cur :: i in keys
    ensures forall i | i in ViewOf(CarriedOut(c, m), r, p).cur :: i in keys
    ensures Measure(ViewOf(CarriedOut(c, m), r, p),
                    keys) + (if Moves(Finish(m), r, p) then 1 else 0) <= Measure(ViewOf(c, r, p), keys)
  {
    hide ViewOf, Steady, After, Measure, Kind;
    FinishView(c, m, r, p);
    SteadyView(c, r, p);
    if Moves(Finish(m), r, p) {
      CompletionLowersMeasure(ViewOf(c, r, p), m.step.instance, keys);
    }
  }

  // Withdrawing.

  lemma WithdrawView(c: Cluster, id: MessageId, r: ResourceId, p: PartitionId)
    requires Steady(c)
    ensures var v, w := ViewOf(c, r, p), ViewOf(Withdrawn(c, id), r, p);
            w.active == v.active && w.cur == v.cur && forall i | i in w.pend :: i in v.pend && w.pend[i] == v.pend[i]
  {
    var less := Discard(c.queue, id);
    SteadyOne(c);
    DiscardFilters(c.queue, id);
    DiscardKeepsOne(c.queue, id);
    hide Steady, InFlight, Discard, OneMessagePerReplica, NextQueue;
    forall i | i in InFlight(less, r, p)
      ensures i in InFlight(c.queue, r, p) && InFlight(c.queue, r, p)[i] == InFlight(less, r, p)[i]
    {
      KeptWasPending(c.queue, less, r, p, i);
    }
  }

  /** Taking transitions out of flight keeps a partition's invariant and does not raise its measure. */
  lemma FewerInFlight(v: View, w: View, keys: seq<InstanceId>)
    requires Inv(v) && w.active == v.active && w.cur == v.cur
             && forall i | i in w.pend :: i in v.pend && w.pend[i] == v.pend[i]
    ensures Inv(w) && Measure(w, keys) <= Measure(v, keys)
  {
    assert Dispatches(v, w.pend, w);
    hide Dispatches, Measure, Inv;
    DispatchKeeps(v, w.pend, w);
    DispatchKeepsMeasure(v, w.pend, w, keys);
  }

  lemma WithdrawKeeps(c: Cluster, id: MessageId)
    requires Steady(c)
    ensures Steady(Withdrawn(c, id))
  {
    hide ViewOf, Steady, Inv, Sound, Tidy, NextQueue, Discard;
    var d := Withdrawn(c, id);
    SteadyInputs(c);
    DiscardKeepsTidy(c.queue, id);
    DiscardFilters(c.queue, id);
    forall m | m in d.queue
      ensures Sound(d.snap, m)
    {
      SteadyMessage(c, m);
    }
    forall q, s | q in d.snap.plans
      ensures Inv(ViewOf(d, q, s))
    {
      SteadyView(c, q, s);
      WithdrawView(c, id, q, s);
      FewerInFlight(ViewOf(c, q, s), ViewOf(d, q, s), []);
    }
    SteadyFrom(d);
  }

  // Runs.

  /** A run: each state follows from the one before by an enabled step. */
  ghost predicate SteadyRun(states: seq<Cluster>, steps: seq<Step>) {
    && |states| == |steps| + 1
    && forall k | 0 <= k < |steps| :: StepFollows(states, steps, k)
  }

  ghost predicate StepFollows(states: seq<Cluster>, steps: seq<Step>, k: nat)
    requires k < |steps| && |states| == |steps| + 1
  {
    Enabled(states[k], steps[k]) && states[k + 1] == After(states[k], steps[k])
  }

  predicate Moves(step: Step, r: ResourceId, p: PartitionId) {
    step.Finish? && step.message.step.resource == r && step.message.step.partition == p
  }

  /** The transitions performed in one partition. */
  function Transitions(steps: seq<Step>, r: ResourceId, p: PartitionId): nat {
    if steps == [] then 0 else (if Moves(steps[0], r, p) then 1 else 0) + Transitions(steps[1..], r, p)
  }

  lemma StepKeeps(c: Cluster, step: Step, r: ResourceId, p: PartitionId, keys: seq<InstanceId>)
    requires Steady(c) && Enabled(c, step) && r in c.snap.plans
    requires Distinct(keys) && forall i | i in ViewOf(c, r, p).cur :: i in keys
    ensures var d := After(c, step);
            && Steady(d) && d.snap.plans == c.snap.plans
            && (forall i | i in ViewOf(d, r, p).cur :: i in keys)
            && Measure(ViewOf(d, r, p), keys) + (if Moves(step, r, p) then 1 else 0) <= Measure(ViewOf(c, r, p), keys)
  {
    hide Steady, ViewOf, Measure, NextQueue;
    match step {
      case Plan(mode, revision, queue) => PlanKeeps(c, mode, revision, queue, r, p, keys);
      case Finish(m) =>
        FinishKeeps(c, m);
        FinishLowers(c, m, r, p, keys);
      case Withdraw(id) =>
        WithdrawKeeps(c, id);
        SteadyView(c, r, p);
        WithdrawView(c, id, r, p);
        FewerInFlight(ViewOf(c, r, p), ViewOf(After(c, step), r, p), keys);
    }
  }

  lemma RestIsRun(states: seq<Cluster>, steps: seq<Step>)
    requires SteadyRun(states, steps) && steps != []
    ensures SteadyRun(states[1..], steps[1..])
  {
    hide After, Enabled;
    forall k | 0 <= k < |steps[1..]|
      ensures StepFollows(states[1..], steps[1..], k)
    {
      assert StepFollows(states, steps, k + 1);
    }
  }

  lemma {:induction false} RunIsBounded(states: seq<Cluster>, steps: seq<Step>, r: ResourceId, p: PartitionId,
                                        keys: seq<InstanceId>)
    requires SteadyRun(states, steps) && Steady(states[0]) && r in states[0].snap.plans
    requires Distinct(keys) && forall i | i in ViewOf(states[0], r, p).cur :: i in keys
    ensures Transitions(steps, r, p) <= Measure(ViewOf(states[0], r, p), keys)
  {
    hide Steady, ViewOf, Measure, After;
    if steps != [] {
      assert StepFollows(states, steps, 0);
      StepKeeps(states[0], steps[0], r, p, keys);
      RestIsRun(states, steps);
      RunIsBounded(states[1..], steps[1..], r, p, keys);
    }
  }

  /** Every live instance is configured, no handler has failed and nothing is in flight. */
  ghost predicate Start(c: Cluster) {
    c.snap.Valid() && c.snap.live.Keys <= c.snap.configs && AllServing(c.snap) && c.queue == []
  }

  lemma StartViewIsInv(c: Cluster, r: ResourceId, p: PartitionId)
    requires Start(c) && r in c.snap.plans
    ensures Inv(ViewOf(c, r, p))
  {
    hide ReplicasAt, ActiveOf;
    ShapeOf(c.snap, r, p);
    assert InFlight(c.queue, r, p) == map[];
  }

  lemma StartIsSteady(c: Cluster)
    requires Start(c)
    ensures Steady(c)
  {
    hide Inv, ViewOf, AllServing, Snapshot.Valid;
    forall r, p | r in c.snap.plans
      ensures Inv(ViewOf(c, r, p))
    {
      StartViewIsInv(c, r, p);
    }
  }

  /** Convergence: however cycles, completions and withdrawals interleave, whatever the modes and throttles, a
      partition performs at most three transitions per replica and two more. */
  lemma ConvergenceIsLinear(states: seq<Cluster>, steps: seq<Step>, r: ResourceId, p: PartitionId)
    requires SteadyRun(states, steps) && Start(states[0]) && r in states[0].snap.plans
    ensures Transitions(steps, r, p) <= 3 * |ReplicasAt(states[0].snap, r, p)| + 2
  {
    var v := ViewOf(states[0], r, p);
    var keys := SortedKeys(v.cur.Keys);
    StartIsSteady(states[0]);
    hide Steady, ReplicasAt, Measure;
    RunIsBounded(states, steps, r, p, keys);
    MeasureIsLinear(v, keys);
    DistinctSize(keys);
    assert Elements(keys) == v.cur.Keys;
  }

  // Rest.

  lemma SteadyServes(c: Cluster)
    requires Steady(c)
    ensures AllServing(c.snap)
  {
    forall r, p, i | r in c.snap.plans && c.snap.At(r, p, i).Some?
      ensures Serving(c.snap.At(r, p, i).value)
    {
      SteadyView(c, r, p);
      hide Steady, PlanState, ReplicasAt, Kind, NoLeader;
      PlanStateAt(c.snap, r, p, i);
      ReplicasAtAre(c.snap, r, p, i);
      assert i in ViewOf(c, r, p).cur;
    }
  }

  lemma EmptyNextMeansSilent(snap: Snapshot, mode: Mode)
    requires snap.Valid() && NextQueue(snap, mode, []) == []
    ensures Dispatched(snap, mode, []) == []
  {
    hide NextQueue, Dispatched;
    NextQueueGrows(snap, mode, []);
    if Dispatched(snap, mode, []) != [] {
      var t := Dispatched(snap, mode, [])[0];
      DispatchedIsLive(snap, mode, t);
    }
  }

  lemma DispatchedIsLive(snap: Snapshot, mode: Mode, t: Transition)
    requires snap.Valid() && t in Dispatched(snap, mode, [])
    ensures t.instance in snap.live
  {
    hide Dispatched, Ops, PlanState, Target;
    DispatchedIsSelected(snap, mode, [], t);
    PlanStateAt(snap, t.resource, t.partition, t.instance);
  }

  lemma {:induction false} RunIsSteady(states: seq<Cluster>, steps: seq<Step>, k: nat)
    requires SteadyRun(states, steps) && Start(states[0]) && k <= |steps|
    ensures Steady(states[k])
  {
    hide Steady, After, Start;
    if k == 0 {
      StartIsSteady(states[0]);
    } else {
      RunIsSteady(states, steps, k - 1);
      assert StepFollows(states, steps, k - 1);
      StepIsSteady(states[k - 1], steps[k - 1]);
    }
  }

  lemma StepIsSteady(c: Cluster, step: Step)
    requires Steady(c) && Enabled(c, step)
    ensures Steady(After(c, step))
  {
    hide Steady, NextQueue, WellFormed;
    match step {
      case Plan(mode, revision, queue) => PlanIsSteady(c, mode, revision, queue);
      case Finish(m) => FinishKeeps(c, m);
      case Withdraw(id) => WithdrawKeeps(c, id);
    }
  }

  /** A run can come to rest only when it is done: if nothing is in flight and a cycle leaves the queue
      empty, every partition has its leader, its standbys and no stray replica. */
  lemma RestMeansSettled(states: seq<Cluster>, steps: seq<Step>, k: nat, mode: Mode)
    requires SteadyRun(states, steps) && Start(states[0]) && k <= |steps|
    requires states[k].queue == [] && NextQueue(states[k].snap, mode, []) == []
    ensures AllSettled(states[k].snap)
  {
    RunIsSteady(states, steps, k);
    assert k < |states|;
    hide Steady, SteadyRun, NextQueue, Dispatched, AllSettled, Start;
    SteadyServes(states[k]);
    SteadyInputs(states[k]);
    EmptyNextMeansSilent(states[k].snap, mode);
    SilentIffSettled(states[k].snap, mode);
  }
}
