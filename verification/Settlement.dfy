/** Convergence carried over to the protocol: between two changes of its inputs, every run of the
    store, its controllers and its participants performs a bounded number of transitions. */
module Settlement {
  import opened Types
  import opened Planning
  import opened Settling
  import opened Convergence
  import opened Protocol
  import opened Freshness
  import opened LeaderSafety

  /** The cluster as the store has it, up to the revision. */
  ghost predicate Similar(resolve: Resolver, c: Cluster, s: Store) {
    c.queue == s.queue && c.snap == s.View(resolve).(revision := c.snap.revision)
  }

  /** A step that changes no input: no session starts or ends, no configuration or placement changes
      and no handler fails. Failovers, stale snapshots, withdrawn messages and crashed workers stay. */
  predicate Calm(e: Event) {
    match e
    case Register(_, _, _) => false
    case Expire(_) => false
    case Revoke(_) => false
    case Configure(_) => false
    case Deconfigure(_) => false
    case Place(_, _) => false
    case Complete(_, succeeded) => succeeded
    case _ => true
  }

  /** What a calm step does to the cluster. */
  ghost predicate Mirrors(w: World, e: Event, step: Option<Step>) {
    match step
    case None => !e.Complete?
    case Some(Plan(_, _, _)) => e.Publish?
    case Some(Withdraw(_)) => e.Cleanup?
    case Some(Finish(m)) =>
      e.Complete? && e.worker in w.workers && KeyReplica(w.workers[e.worker].key) == ReplicaOf(m.step)
  }

  function Follow(c: Cluster, step: Option<Step>): Cluster {
    if step.Some? then After(c, step.value) else c
  }

  lemma CurrentAt(s: Store, k: Replica)
    ensures k in s.Current()
            <==> k.instance in s.live && Key(k.instance, s.live[k.instance], k.resource, k.partition) in s.states
    ensures k in s.Current()
            ==> s.Current()[k] == s.states[Key(k.instance, s.live[k.instance], k.resource, k.partition)]
  {
    if k.instance in s.live && Key(k.instance, s.live[k.instance], k.resource, k.partition) in s.states {
      var key := Key(k.instance, s.live[k.instance], k.resource, k.partition);
      assert s.Active(key) && KeyReplica(key) == k;
      assert KeyReplica(key) in s.Current();
    }
  }

  /** A completion changes exactly its replica in the active CurrentState. */
  lemma CompletionFinishes(s: Store, key: Key, m: Message)
    requires s.Active(key) && KeyReplica(key) == ReplicaOf(m.step)
    ensures Completion(s, key, m, true).Current() == Finished(s.Current(), m.step)
  {
    var t := Completion(s, key, m, true);
    hide Store.Current, Discard;
    var a, b := t.Current(), Finished(s.Current(), m.step);
    forall k
      ensures k in a <==> k in b
      ensures k in a && k in b ==> a[k] == b[k]
    {
      CurrentAt(t, k);
      CurrentAt(s, k);
    }
  }

  lemma SameView(resolve: Resolver, s: Store, t: Store)
    requires t.live == s.live && t.states == s.states && t.configs == s.configs && t.placement == s.placement
             && t.limits == s.limits
    ensures t.View(resolve) == s.View(resolve).(revision := t.revision)
  {
    assert t.Current() == s.Current();
  }

  lemma CalmPublish(resolve: Resolver, w: World, ctl: ControllerId, lease: LeaseId, mode: Mode, next: seq<Message>,
                    c: Cluster)
    returns (step: Step)
    requires HeldInv(resolve, w) && QueueInv(w.store) && Guard(w, Publish(ctl, lease, mode, next))
             && Similar(resolve, c, w.store)
    ensures step.Plan? && Enabled(c, step)
    ensures Similar(resolve, After(c, step), Apply(resolve, w, Publish(ctl, lease, mode, next)).store)
  {
    hide HeldInv, QueueInv, Guard, Apply, NextQueue, Store.View;
    var h := AcceptedPublication(resolve, w, ctl, lease, mode, next);
    step := Plan(mode, h.snap.revision, next);
    assert c.snap.(revision := h.snap.revision) == h.snap;
    SameView(resolve, w.store, Publication(w.store, h, next));
  }

  lemma CalmCompletion(resolve: Resolver, w: World, x: WorkerId, c: Cluster) returns (m: Message)
    requires WorkerInv(w) && Guard(w, Complete(x, true)) && Similar(resolve, c, w.store)
    ensures x in w.workers && m in c.queue && KeyReplica(w.workers[x].key) == ReplicaOf(m.step)
    ensures Similar(resolve, CarriedOut(c, m), Apply(resolve, w, Complete(x, true)).store)
  {
    hide WorkerInv, Guard, Apply, NextQueue, Finished, Discard, Store.Current;
    var key, n := AcceptedCompletion(resolve, w, x, true);
    m := n;
    CompletionFinishes(w.store, key, m);
  }

  lemma QuietView(resolve: Resolver, w: World, e: Event)
    requires Guard(w, e) && Quiet(e) && Calm(e)
    ensures var s, t := w.store, Apply(resolve, w, e).store;
            t.queue == s.queue && t.live == s.live && t.states == s.states && t.configs == s.configs
                && t.placement == s.placement && t.limits == s.limits
  {
  }

  lemma CalmQuiet(resolve: Resolver, w: World, e: Event, c: Cluster)
    requires Guard(w, e) && Quiet(e) && Calm(e) && Similar(resolve, c, w.store)
    ensures Similar(resolve, c, Apply(resolve, w, e).store)
  {
    QuietView(resolve, w, e);
    hide Apply, Guard, Store.View;
    SameView(resolve, w.store, Apply(resolve, w, e).store);
  }

  lemma CalmCleanup(resolve: Resolver, w: World, id: MessageId, c: Cluster)
    requires Similar(resolve, c, w.store)
    ensures Similar(resolve, Withdrawn(c, id), Apply(resolve, w, Cleanup(id)).store)
  {
    hide Apply, Store.View, NextQueue, Discard;
    CleanupIsWithout(resolve, w, id);
    SameView(resolve, w.store, w.store.Without(id));
  }

  lemma WorldParts(resolve: Resolver, w: World)
    requires WorldInv(resolve, w)
    ensures HeldInv(resolve, w) && QueueInv(w.store) && WorkerInv(w)
  {
  }

  /** Every calm step is a cycle, a completion, a withdrawal or nothing to the cluster. */
  lemma CalmStep(resolve: Resolver, w: World, e: Event, c: Cluster) returns (step: Option<Step>)
    requires WorldInv(resolve, w) && Guard(w, e) && Calm(e) && Similar(resolve, c, w.store)
    ensures step.Some? ==> Enabled(c, step.value)
    ensures Mirrors(w, e, step) && Similar(resolve, Follow(c, step), Apply(resolve, w, e).store)
  {
    hide WorldInv, HeldInv, QueueInv, WorkerInv, Guard, Apply, CarriedOut, Withdrawn, Similar;
    WorldParts(resolve, w);
    match e {
      case Publish(ctl, lease, mode, next) =>
        var plan := CalmPublish(resolve, w, ctl, lease, mode, next, c);
        step := Some(plan);
      case Complete(x, succeeded) =>
        var m := CalmCompletion(resolve, w, x, c);
        step := Some(Finish(m));
      case Cleanup(id) =>
        step := Some(Withdraw(id));
        CalmCleanup(resolve, w, id, c);
      case _ =>
        step := None;
        CalmQuiet(resolve, w, e, c);
    }
  }

  /** No input changes from one point of a run on. */
  ghost predicate CalmFrom(events: seq<Event>, from: nat) {
    forall k | from <= k < |events| :: Calm(events[k])
  }

  predicate Performs(w: World, e: Event, r: ResourceId, p: PartitionId) {
    e.Complete? && e.worker in w.workers && w.workers[e.worker].key.resource == r
        && w.workers[e.worker].key.partition == p
  }

  /** The transitions participants complete in a partition from one point of a run on. */
  function Performed(worlds: seq<World>, events: seq<Event>, from: nat, r: ResourceId, p: PartitionId): nat
    requires from <= |events| < |worlds|
    decreases |events| - from
  {
    if from == |events| then 0
    else (if Performs(worlds[from], events[from], r, p) then 1 else 0) + Performed(worlds, events, from + 1, r, p)
  }

  lemma FollowKeeps(w: World, c: Cluster, e: Event, step: Option<Step>, r: ResourceId, p: PartitionId,
                    keys: seq<InstanceId>)
    requires Steady(c) && (step.Some? ==> Enabled(c, step.value)) && Mirrors(w, e, step) && r in c.snap.plans
    requires Distinct(keys) && forall i | i in ViewOf(c, r, p).cur :: i in keys
    ensures var d := Follow(c, step);
            && Steady(d) && d.snap.plans == c.snap.plans
            && (forall i | i in ViewOf(d, r, p).cur :: i in keys)
            && Measure(ViewOf(d, r, p), keys) + (if Performs(w, e, r, p) then 1 else 0) <= Measure(ViewOf(c, r, p),
                keys)
  {
    hide Steady, ViewOf, Measure, After, Enabled;
    if step.Some? {
      Convergence.StepKeeps(c, step.value, r, p, keys);
    }
  }

  lemma {:induction false} CalmRunIsBounded(resolve: Resolver, worlds: seq<World>, events: seq<Event>, j: nat,
                                            c: Cluster, r: ResourceId, p: PartitionId, keys: seq<InstanceId>)
    requires Run(resolve, worlds, events) && j <= |events| && CalmFrom(events, j)
    requires Steady(c) && Similar(resolve, c, worlds[j].store) && r in c.snap.plans
    requires Distinct(keys) && forall i | i in ViewOf(c, r, p).cur :: i in keys
    ensures Performed(worlds, events, j, r, p) <= Measure(ViewOf(c, r, p), keys)
    decreases |events| - j
  {
    hide Steady, ViewOf, Measure, Guard, Apply, Initial, Follow, Similar, Mirrors, Enabled, WorldInv;
    if j < |events| {
      RunKeepsInv(resolve, worlds, events, j);
      assert Follows(resolve, worlds, events, j);
      var step := CalmStep(resolve, worlds[j], events[j], c);
      FollowKeeps(worlds[j], c, events[j], step, r, p, keys);
      CalmRunIsBounded(resolve, worlds, events, j + 1, Follow(c, step), r, p, keys);
    }
  }

  lemma SelfSimilar(resolve: Resolver, s: Store)
    ensures Similar(resolve, Cluster(s.View(resolve), s.queue), s)
  {
    hide Store.Current;
  }

  lemma {:induction false} CalmRunStaysSteady(resolve: Resolver, worlds: seq<World>, events: seq<Event>, j: nat,
                                              k: nat, c: Cluster) returns (d: Cluster)
    requires Run(resolve, worlds, events) && j <= k <= |events| && CalmFrom(events, j)
    requires Steady(c) && Similar(resolve, c, worlds[j].store)
    ensures Steady(d) && Similar(resolve, d, worlds[k].store)
  {
    hide Steady, Guard, Apply, Initial, Similar, Mirrors, Enabled, WorldInv, After;
    if j == k {
      d := c;
    } else {
      var b := CalmRunStaysSteady(resolve, worlds, events, j, k - 1, c);
      RunKeepsInv(resolve, worlds, events, k - 1);
      assert Follows(resolve, worlds, events, k - 1);
      var step := CalmStep(resolve, worlds[k - 1], events[k - 1], b);
      d := Follow(b, step);
      if step.Some? {
        StepIsSteady(b, step.value);
      }
    }
  }

  lemma SteadyAtAnyRevision(resolve: Resolver, d: Cluster, s: Store)
    requires Steady(d) && Similar(resolve, d, s)
    ensures Steady(Cluster(s.View(resolve), s.queue))
  {
    Convergence.SameInputs(d, s.revision);
    hide Steady;
    assert d.(snap := d.snap.(revision := s.revision)) == Cluster(s.View(resolve), s.queue);
  }
}
