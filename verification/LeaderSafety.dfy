/** At most one leader over every run, and completions that change CurrentState once, under the
    session and from the state they were meant for. */
module LeaderSafety {
  import opened Types
  import opened Planning
  import opened Pipeline
  import opened Cycle
  import opened Quiescence
  import opened Convergence
  import opened Protocol
  import opened Freshness
  import LeaderStandby

  // Sessions and workers.

  ghost predicate SessionInv(s: Store) {
    && (forall i | i in s.live :: s.live[i] in s.used)
    && (forall k | k in s.states :: k.session in s.used)
    && (forall m | m in s.queue :: m.session in s.used)
  }

  /** From its check to its completion, a worker's replica stays where the message starts. */
  ghost predicate WorkOk(s: Store, work: Work) {
    && work.key.session in s.used
    && ReplicaOf(work.message.step) == KeyReplica(work.key)
    && (work.phase == Checked || work.phase == Claimed ==>
          work.message.session == work.key.session && StateAt(s, work.key) == work.message.step.from)
  }

  /** A worker's key is registered as in flight with its own message. */
  ghost predicate Registered(w: World, x: WorkerId)
    requires x in w.workers
  {
    w.workers[x].key in w.inFlight && w.inFlight[w.workers[x].key] == w.workers[x].message.id
  }

  /** No two workers share a key. */
  ghost predicate Exclusive(w: World) {
    forall x, y | x in w.workers && y in w.workers && w.workers[x].key == w.workers[y].key :: x == y
  }

  ghost predicate WorkerInv(w: World) {
    && (forall x | x in w.workers :: WorkOk(w.store, w.workers[x]) && Registered(w, x))
    && Exclusive(w)
  }

  /** What an accepted publication works from and leaves behind. */
  lemma AcceptedPublication(resolve: Resolver, w: World, c: ControllerId, lease: LeaseId, mode: Mode,
                            next: seq<Message>)
    returns (h: Held)
    requires HeldInv(resolve, w) && QueueInv(w.store) && Guard(w, Publish(c, lease, mode, next))
    ensures h.queue == w.store.queue && h.snap.live == w.store.live && h.snap.Valid() && Arranges(h, mode, next)
    ensures h.snap == w.store.View(resolve).(revision := h.snap.revision)
    ensures WellFormed(w.store.queue, h.snap.revision)
    ensures Apply(resolve, w, Publish(c, lease, mode, next)).store == Publication(w.store, h, next)
  {
    hide HeldOk, WellFormed, Publication, FenceHolds, Arranges;
    h := w.held[c];
    FenceMeansCurrent(resolve, w.store, Authority(c, lease), h);
    FenceRevisions(resolve, w.store, Authority(c, lease), h);
    WellFormedLater(w.store.queue, w.store.queueRevision, h.snap.revision);
  }

  lemma AcceptedCompletion(resolve: Resolver, w: World, x: WorkerId, succeeded: bool) returns (k: Key, m: Message)
    requires WorkerInv(w) && Guard(w, Complete(x, succeeded))
    ensures x in w.workers && w.workers[x].key == k && w.workers[x].message == m
    ensures m in w.store.queue && w.store.Active(k) && ReplicaOf(m.step) == KeyReplica(k)
    ensures m.session == k.session && k.session in w.store.used
    ensures Apply(resolve, w, Complete(x, succeeded)).store == Completion(w.store, k, m, succeeded)
  {
    hide Completion;
    k, m := w.workers[x].key, w.workers[x].message;
    assert WorkOk(w.store, w.workers[x]);
  }

  /** A step that neither writes states or the queue nor starts a session. */
  predicate Quiet(e: Event) {
    !e.Publish? && !e.Complete? && !e.Cleanup? && !e.Register?
  }

  lemma QuietSteps(resolve: Resolver, w: World, e: Event)
    requires Guard(w, e) && Quiet(e)
    ensures var s, t := w.store, Apply(resolve, w, e).store;
            && t.states == s.states && t.queue == s.queue && t.used == s.used
            && (forall i | i in t.live :: i in s.live && t.live[i] == s.live[i] && (i in s.configs ==> i in t.configs))
  {
  }

  lemma SessionInvKept(resolve: Resolver, w: World, e: Event)
    requires HeldInv(resolve, w) && QueueInv(w.store) && SessionInv(w.store) && WorkerInv(w) && Guard(w, e)
    ensures SessionInv(Apply(resolve, w, e).store)
  {
    hide NextQueue, Discard, Guard, Apply, HeldInv, QueueInv, WorkerInv, WellFormed;
    var s := w.store;
    match e {
      case Publish(c, lease, mode, next) =>
        var h := AcceptedPublication(resolve, w, c, lease, mode, next);
        ArrangedKeepsQueue(h, mode, next);
      case Complete(x, succeeded) =>
        var k, m := AcceptedCompletion(resolve, w, x, succeeded);
        DiscardFilters(s.queue, m.id);
      case Cleanup(id) =>
        CleanupIsWithout(resolve, w, id);
        DiscardFilters(s.queue, id);
      case Register(i, session, carried) =>
        RegistrationIsEnrolment(resolve, w, i, session, carried);
      case _ =>
        QuietSteps(resolve, w, e);
    }
  }

  lemma CleanupIsWithout(resolve: Resolver, w: World, id: MessageId)
    ensures Apply(resolve, w, Cleanup(id)).store == w.store.Without(id)
  {
  }

  lemma RegistrationIsEnrolment(resolve: Resolver, w: World, i: InstanceId, session: SessionId,
                                carried: map<(ResourceId, PartitionId), State>)
    ensures Apply(resolve, w, Register(i, session, carried)).store == Enrolled(w.store, i, session, carried)
    ensures Guard(w, Register(i, session, carried)) ==>
      i !in w.store.live && session !in w.store.used && forall rp | rp in carried :: carried[rp] != Leader
  {
    hide Enrolled;
  }

  lemma OtherStates(resolve: Resolver, w: World, e: Event, k: Key)
    requires Guard(w, e) && k.session in w.store.used && SessionInv(w.store)
    requires e.Complete? ==> e.worker in w.workers && w.workers[e.worker].key != k
    ensures w.store.used <= Apply(resolve, w, e).store.used
    ensures StateAt(Apply(resolve, w, e).store, k) == StateAt(w.store, k)
  {
    hide NextQueue, Discard, Plannable, Ops, LeaderStandby.Model, FenceHolds, Arranges;
  }

  /** What a step does to one worker that survives it. */
  lemma WorkersAfter(resolve: Resolver, w: World, e: Event, x: WorkerId)
    requires Guard(w, e) && x in Apply(resolve, w, e).workers && !(e.Deliver? && e.worker == x)
    ensures x in w.workers
    ensures var a, b := w.workers[x], Apply(resolve, w, e).workers[x];
            && b.key == a.key && b.message == a.message
            && (b.phase == a.phase || (e.Check? && e.worker == x && b.phase == Checked)
                || (e.Claim? && e.worker == x && b.phase == Claimed && a.phase == Checked)
                || (e.Complete? && e.worker == x && b.phase == Done))
            && (e.Complete? && e.worker == x ==> b.phase == Done)
  {
    hide NextQueue, Discard, Plannable, Ops, LeaderStandby.Model, FenceHolds, Completion, Publication, Arranges;
  }

  /** One worker across one step: another worker can move its replica only under the same key, and
      exclusion rules that out. */
  lemma WorkStays(resolve: Resolver, w: World, e: Event, x: WorkerId)
    requires WorkerInv(w) && SessionInv(w.store) && Guard(w, e) && x in Apply(resolve, w, e).workers
    requires !(e.Deliver? && e.worker == x)
    ensures WorkOk(Apply(resolve, w, e).store, Apply(resolve, w, e).workers[x])
  {
    hide Apply, Guard, WorkerInv, SessionInv, StateAt;
    WorkersAfter(resolve, w, e, x);
    WorkIsOk(w, x);
    var a := w.workers[x];
    if e.Complete? && e.worker == x {
      var k, m := AcceptedCompletion(resolve, w, x, e.succeeded);
      CompletionUses(w.store, k, m, e.succeeded);
    } else {
      if e.Complete? {
        CompletesAnotherKey(w, e, x);
      }
      OtherStates(resolve, w, e, a.key);
      if e.Check? && e.worker == x {
        CheckReads(w, x);
      }
    }
  }

  lemma WorkIsOk(w: World, x: WorkerId)
    requires WorkerInv(w) && x in w.workers
    ensures WorkOk(w.store, w.workers[x])
  {
  }

  lemma CompletesAnotherKey(w: World, e: Event, x: WorkerId)
    requires WorkerInv(w) && Guard(w, e) && e.Complete? && x in w.workers && e.worker != x
    ensures e.worker in w.workers && w.workers[e.worker].key != w.workers[x].key
  {
    hide WorkOk, Registered;
  }

  lemma CheckReads(w: World, x: WorkerId)
    requires Guard(w, Check(x))
    ensures x in w.workers && w.workers[x].message.session == w.workers[x].key.session
    ensures StateAt(w.store, w.workers[x].key) == w.workers[x].message.step.from
  {
  }

  /** A key is free when a worker starts on it. */
  lemma DeliveredKeyIsFree(w: World, e: Event)
    requires WorkerInv(w) && Guard(w, e) && e.Deliver?
    ensures forall x | x in w.workers :: w.workers[x].key != e.key
  {
    forall x | x in w.workers
      ensures w.workers[x].key != e.key
    {
      assert Registered(w, x);
    }
  }

  /** A registered key is given back only when its own worker ends. */
  lemma RegistrationKept(resolve: Resolver, w: World, e: Event, x: WorkerId)
    requires WorkerInv(w) && Guard(w, e) && x in Apply(resolve, w, e).workers
    ensures Registered(Apply(resolve, w, e), x)
  {
    hide WorkOk, NextQueue, Discard, Plannable, Ops, LeaderStandby.Model, FenceHolds, Completion, Publication, Arranges;
    if !(e.Deliver? && e.worker == x) {
      assert x in w.workers && Registered(w, x);
    }
  }

  lemma ExclusionKept(resolve: Resolver, w: World, e: Event)
    requires WorkerInv(w) && Guard(w, e)
    ensures Exclusive(Apply(resolve, w, e))
  {
    var d := Apply(resolve, w, e);
    if e.Deliver? {
      DeliveredKeyIsFree(w, e);
      assert d.workers == w.workers[e.worker := Work(e.key, e.message, Scheduled)];
    } else {
      forall x | x in d.workers
        ensures x in w.workers && d.workers[x].key == w.workers[x].key
      {
        hide WorkerInv, Guard, Apply;
        WorkersAfter(resolve, w, e, x);
      }
    }
    hide WorkOk, Registered, Guard, Apply;
  }

  lemma WorkerInvKept(resolve: Resolver, w: World, e: Event)
    requires WorkerInv(w) && SessionInv(w.store) && Guard(w, e)
    ensures WorkerInv(Apply(resolve, w, e))
  {
    ExclusionKept(resolve, w, e);
    var d := Apply(resolve, w, e);
    forall x | x in d.workers
      ensures WorkOk(d.store, d.workers[x]) && Registered(d, x)
    {
      RegistrationKept(resolve, w, e, x);
      if e.Deliver? && e.worker == x {
        DeliveredWork(resolve, w, e);
      } else {
        hide WorkOk, Apply, Guard, WorkerInv, SessionInv;
        WorkStays(resolve, w, e, x);
      }
    }
  }

  lemma DeliveredWork(resolve: Resolver, w: World, e: Event)
    requires Guard(w, e) && e.Deliver?
    ensures e.worker in Apply(resolve, w, e).workers
    ensures WorkOk(Apply(resolve, w, e).store, Apply(resolve, w, e).workers[e.worker])
  {
  }

  lemma CompletionUses(s: Store, k: Key, m: Message, succeeded: bool)
    ensures Completion(s, k, m, succeeded).used == s.used
  {
  }

  // Leadership claims.

  ghost predicate Leads(s: Store, r: ResourceId, p: PartitionId, i: InstanceId) {
    i in s.live && Key(i, s.live[i], r, p) in s.states && s.states[Key(i, s.live[i], r, p)] == Leader
  }

  /** A queued promotion, whether or not its session is still live. */
  ghost predicate Promotes(s: Store, r: ResourceId, p: PartitionId, m: Message) {
    m in s.queue && m.step.to == Leader && m.step.resource == r && m.step.partition == p
  }

  /** Live leaders and queued promotions of a partition number at most one in all. */
  ghost predicate OneClaim(s: Store, r: ResourceId, p: PartitionId) {
    && (forall i, j | Leads(s, r, p, i) && Leads(s, r, p, j) :: i == j)
    && (forall m, n | Promotes(s, r, p, m) && Promotes(s, r, p, n) :: m == n)
    && (forall i, m | Leads(s, r, p, i) && Promotes(s, r, p, m) :: false)
  }

  predicate Addresses(s: Store, m: Message) {
    m.step.instance in s.live && s.live[m.step.instance] == m.session
  }

  /** Whoever leads, or is promoted under a session still live, is configured. */
  ghost predicate Known(s: Store, r: ResourceId, p: PartitionId) {
    && (forall i | Leads(s, r, p, i) :: i in s.configs)
    && (forall m | Promotes(s, r, p, m) && Addresses(s, m) :: m.step.instance in s.configs)
  }

  lemma ClaimsShrink(a: Store, b: Store, r: ResourceId, p: PartitionId)
    requires OneClaim(a, r, p) && Known(a, r, p)
    requires forall i | Leads(b, r, p, i) :: Leads(a, r, p, i) && (i in a.configs ==> i in b.configs)
    requires forall m | Promotes(b, r, p, m) ::
               Promotes(a, r, p, m)
                   && (Addresses(b, m)
                       ==> Addresses(a, m) && (m.step.instance in a.configs ==> m.step.instance in b.configs))
    ensures OneClaim(b, r, p) && Known(b, r, p)
  {
    hide Leads, Promotes, Addresses;
  }

  /** The planning state of a leader. */
  lemma LeaderIsPlanned(resolve: Resolver, s: Store, snap: Snapshot, r: ResourceId, p: PartitionId, i: InstanceId)
    requires snap == s.View(resolve).(revision := snap.revision) && r in snap.plans
    requires Leads(s, r, p, i) && i in s.configs
    ensures i in ReplicasAt(snap, r, p) && ReplicasAt(snap, r, p)[i] == Leader
  {
    var k := Key(i, s.live[i], r, p);
    assert s.Active(k) && KeyReplica(k) in s.Current() && s.Current()[KeyReplica(k)] == Leader;
    assert snap.At(r, p, i) == Some(Leader);
    hide PlanState, ReplicasAt;
    PlanStateAt(snap, r, p, i);
    ReplicasAtAre(snap, r, p, i);
  }

  /** A dispatched promotion finds no leader and promotes a configured instance. */
  lemma PromotionIsAlone(resolve: Resolver, s: Store, snap: Snapshot, mode: Mode, queue: seq<Message>, t: Transition)
    requires snap == s.View(resolve).(revision := snap.revision) && snap.Valid()
    requires t in Dispatched(snap, mode, queue) && t.to == Leader && Known(s, t.resource, t.partition)
    ensures forall i :: !Leads(s, t.resource, t.partition, i)
    ensures t.instance in s.configs
    ensures forall m | m in queue && Retained(snap, mode, m) &&
                      m.step.resource == t.resource && m.step.partition == t.partition :: m.step.to != Leader
  {
    hide Dispatched, Ops, PlanState, Retained, Leads, Target, Store.View, ReplicasAt;
    var r, p, ops := t.resource, t.partition, Ops(snap, mode, queue);
    DispatchedIsSelected(snap, mode, queue, t);
    NoneLeads(snap, ops, t);
    forall i
      ensures !Leads(s, r, p, i)
    {
      if Leads(s, r, p, i) {
        LeaderIsPlanned(resolve, s, snap, r, p, i);
      }
    }
    PromotedIsConfigured(snap, ops, t);
    assert snap.configs == s.configs by {
      ViewConfigs(resolve, s);
    }
    forall m | m in queue && Retained(snap, mode, m) && m.step.resource == r && m.step.partition == p
      ensures m.step.to != Leader
    {
      RetainedPromotionCounts(snap, mode, queue, m, t);
    }
  }

  lemma ViewConfigs(resolve: Resolver, s: Store)
    ensures s.View(resolve).configs == s.configs
  {
  }

  lemma PromotedIsConfigured(snap: Snapshot, ops: seq<Transition>, t: Transition)
    requires SelectedNow(snap, ops, t) && t.to == Leader
    ensures t.instance in snap.configs
  {
    PlanStateAt(snap, t.resource, t.partition, t.instance);
    hide PlanState, Target;
    assert t.from == Standby;
  }

  /** Two promotions of one cycle in one partition are the same step. */
  lemma OneDispatchedPromotion(snap: Snapshot, mode: Mode, queue: seq<Message>, a: Transition, b: Transition)
    requires snap.Valid() && a in Dispatched(snap, mode, queue) && b in Dispatched(snap, mode, queue)
    requires a.resource == b.resource && a.partition == b.partition && a.to == b.to == Leader
    ensures a == b
  {
    hide Dispatched, Ops, PlanState, Due;
    DispatchedIsSelected(snap, mode, queue, a);
    DispatchedIsSelected(snap, mode, queue, b);
    OnePromotionDue(a.resource, snap.plans[a.resource], PlanState(snap, a.resource), snap.live.Keys, a, b);
  }

  /** Where a promotion of the next queue comes from. */
  lemma PromotionOrigin(snap: Snapshot, mode: Mode, queue: seq<Message>, m: Message)
    requires OneMessagePerReplica(queue) && m in NextQueue(snap, mode, queue)
    ensures (m in queue && Retained(snap, mode, m)) || m.step in Dispatched(snap, mode, queue)
  {
    hide NextQueue, Retain, Dispatched, Retained;
    NextQueueGrows(snap, mode, queue);
    InRetain(snap, mode, queue);
  }

  lemma OnePromotionNext(resolve: Resolver, s: Store, snap: Snapshot, mode: Mode, m: Message, n: Message,
                         r: ResourceId, p: PartitionId)
    requires snap == s.View(resolve).(revision := snap.revision) && snap.Valid()
    requires OneMessagePerReplica(s.queue) && OneMessagePerReplica(NextQueue(snap, mode, s.queue))
    requires OneClaim(s, r, p) && Known(s, r, p)
    requires m in NextQueue(snap, mode, s.queue) && n in NextQueue(snap, mode, s.queue)
    requires m.step.to == n.step.to == Leader && m.step.resource == n.step.resource == r
             && m.step.partition == n.step.partition == p
    ensures m == n
  {
    var queue := s.queue;
    PromotionOrigin(snap, mode, queue, m);
    PromotionOrigin(snap, mode, queue, n);
    if m.step in Dispatched(snap, mode, queue) && n.step in Dispatched(snap, mode, queue) {
      OneDispatchedPromotion(snap, mode, queue, m.step, n.step);
      OnlyOneMessage(NextQueue(snap, mode, queue), m, n);
    } else if m.step in Dispatched(snap, mode, queue) {
      PromotionIsAlone(resolve, s, snap, mode, queue, m.step);
    } else if n.step in Dispatched(snap, mode, queue) {
      PromotionIsAlone(resolve, s, snap, mode, queue, n.step);
    } else {
      assert Promotes(s, r, p, m) && Promotes(s, r, p, n) by {
        hide NextQueue, Dispatched;
      }
    }
  }

  lemma SameLeaders(s: Store, h: Held, next: seq<Message>, r: ResourceId, p: PartitionId)
    ensures forall i :: Leads(Publication(s, h, next), r, p, i) <==> Leads(s, r, p, i)
  {
  }

  lemma PublishedAlone(resolve: Resolver, s: Store, h: Held, mode: Mode, r: ResourceId, p: PartitionId, m: Message)
    requires h.snap == s.View(resolve).(revision := h.snap.revision) && h.queue == s.queue && h.snap.Valid()
    requires OneMessagePerReplica(s.queue) && OneClaim(s, r, p) && Known(s, r, p)
    requires m in NextQueue(h.snap, mode, h.queue) && m.step.to == Leader && m.step.resource == r
             && m.step.partition == p
    requires Addresses(s, m)
    ensures m.step.instance in s.configs
    ensures forall i :: !Leads(s, r, p, i)
  {
    hide NextQueue, Dispatched, Retained, Store.View, Leads, OneMessagePerReplica;
    PromotionOrigin(h.snap, mode, h.queue, m);
    if m.step in Dispatched(h.snap, mode, h.queue) {
      PromotionIsAlone(resolve, s, h.snap, mode, h.queue, m.step);
    } else {
      assert Promotes(s, r, p, m);
    }
  }

  /** A publication adds no second claim. */
  lemma PublicationKeepsClaims(resolve: Resolver, s: Store, h: Held, mode: Mode, next: seq<Message>, r: ResourceId,
                               p: PartitionId)
    requires h.snap == s.View(resolve).(revision := h.snap.revision) && h.queue == s.queue && h.snap.Valid()
    requires h.snap.live == s.live && Arranges(h, mode, next)
    requires WellFormed(s.queue, h.snap.revision) && OneClaim(s, r, p) && Known(s, r, p)
    ensures OneClaim(Publication(s, h, next), r, p) && Known(Publication(s, h, next), r, p)
  {
    hide NextQueue, Store.View, Leads, Promotes, OneMessagePerReplica, DistinctIds, Direct, Ids, Arranges, Addresses;
    var t := Publication(s, h, next);
    PublicationKeepsQueue(h.snap, mode, h.queue);
    SameLeaders(s, h, next, r, p);
    forall m, n | Promotes(t, r, p, m) && Promotes(t, r, p, n)
      ensures m == n
    {
      PublishedPromotion(s, h, mode, next, r, p, m);
      PublishedPromotion(s, h, mode, next, r, p, n);
      OnePromotionNext(resolve, s, h.snap, mode, m, n, r, p);
    }
    forall m | Promotes(t, r, p, m)
      ensures m.step.instance in t.configs
      ensures forall i :: !Leads(s, r, p, i)
    {
      PublishedPromotion(s, h, mode, next, r, p, m);
      PublishedAlone(resolve, s, h, mode, r, p, m);
    }
  }

  lemma PublishedPromotion(s: Store, h: Held, mode: Mode, next: seq<Message>, r: ResourceId, p: PartitionId, m: Message)
    requires h.snap.Valid() && h.snap.live == s.live && WellFormed(h.queue, h.snap.revision) && Arranges(h, mode, next)
    requires Promotes(Publication(s, h, next), r, p, m)
    ensures m in NextQueue(h.snap, mode, h.queue) && m.step.to == Leader && m.step.resource == r
            && m.step.partition == p
    ensures Addresses(s, m)
  {
    hide NextQueue, WellFormed, Arranges;
    ArrangedKeepsQueue(h, mode, next);
  }

  lemma RemovalKeepsClaims(s: Store, t: Store, id: MessageId, r: ResourceId, p: PartitionId)
    requires OneClaim(s, r, p) && Known(s, r, p)
    requires t.live == s.live && t.states == s.states && t.configs == s.configs && t.queue == Discard(s.queue, id)
    ensures OneClaim(t, r, p) && Known(t, r, p)
  {
    DiscardFilters(s.queue, id);
    hide Discard;
    ClaimsShrink(s, t, r, p);
  }

  /** A completed promotion moves its claim from the queue to CurrentState. */
  lemma CompletionKeepsClaims(s: Store, k: Key, m: Message, succeeded: bool, r: ResourceId, p: PartitionId)
    requires OneClaim(s, r, p) && Known(s, r, p)
    requires s.Active(k) && m in s.queue && ReplicaOf(m.step) == KeyReplica(k) && m.session == k.session
    ensures OneClaim(Completion(s, k, m, succeeded), r, p) && Known(Completion(s, k, m, succeeded), r, p)
  {
    var t := Completion(s, k, m, succeeded);
    DiscardFilters(s.queue, m.id);
    hide Discard;
    var promoted := succeeded && m.step.to == Leader && k.resource == r && k.partition == p;
    assert forall i | Leads(t, r, p, i) :: Leads(s, r, p, i) || (promoted && i == k.instance);
    assert forall n | Promotes(t, r, p, n) :: Promotes(s, r, p, n) && n.id != m.id;
    if promoted {
      assert Promotes(s, r, p, m) && Addresses(s, m);
    }
    hide Leads, Promotes;
    if !promoted {
      ClaimsShrink(s, t, r, p);
    }
  }

  lemma EnrolmentKeepsClaims(s: Store, i: InstanceId, session: SessionId,
                             carried: map<(ResourceId, PartitionId), State>,
                             r: ResourceId, p: PartitionId)
    requires OneClaim(s, r, p) && Known(s, r, p) && SessionInv(s) && i !in s.live && session !in s.used
             && forall rp | rp in carried :: carried[rp] != Leader
    ensures OneClaim(Enrolled(s, i, session, carried), r, p) && Known(Enrolled(s, i, session, carried), r, p)
  {
    var t := Enrolled(s, i, session, carried);
    forall j | Leads(t, r, p, j)
      ensures Leads(s, r, p, j)
    {
      assert Key(i, session, r, p) !in s.states;
      assert j != i ==> t.live[j] == s.live[j] && s.live[j] in s.used;
    }
    forall m | Promotes(t, r, p, m) && Addresses(t, m)
      ensures Addresses(s, m)
    {
      assert m.session in s.used;
    }
    ClaimsShrink(s, t, r, p);
  }

  lemma OtherKeepsClaims(s: Store, t: Store, r: ResourceId, p: PartitionId)
    requires OneClaim(s, r, p) && Known(s, r, p)
    requires t.states == s.states && t.queue == s.queue
    requires forall i | i in t.live :: i in s.live && t.live[i] == s.live[i] && (i in s.configs ==> i in t.configs)
    ensures OneClaim(t, r, p) && Known(t, r, p)
  {
    ClaimsShrink(s, t, r, p);
  }

  lemma ClaimInvKept(resolve: Resolver, w: World, e: Event, r: ResourceId, p: PartitionId)
    requires HeldInv(resolve, w) && QueueInv(w.store) && SessionInv(w.store) && WorkerInv(w) && Guard(w, e)
    requires OneClaim(w.store, r, p) && Known(w.store, r, p)
    ensures OneClaim(Apply(resolve, w, e).store, r, p) && Known(Apply(resolve, w, e).store, r, p)
  {
    hide Guard, Apply, HeldInv, QueueInv, WorkerInv, SessionInv, OneClaim, Known;
    hide WellFormed, Publication, Completion, Enrolled, Discard;
    var s := w.store;
    match e {
      case Publish(c, lease, mode, next) =>
        var h := AcceptedPublication(resolve, w, c, lease, mode, next);
        PublicationKeepsClaims(resolve, s, h, mode, next, r, p);
      case Complete(x, succeeded) =>
        var k, m := AcceptedCompletion(resolve, w, x, succeeded);
        CompletionKeepsClaims(s, k, m, succeeded, r, p);
      case Cleanup(id) =>
        CleanupIsWithout(resolve, w, id);
        RemovalKeepsClaims(s, s.Without(id), id, r, p);
      case Register(i, session, carried) =>
        RegistrationIsEnrolment(resolve, w, i, session, carried);
        EnrolmentKeepsClaims(s, i, session, carried, r, p);
      case _ =>
        QuietSteps(resolve, w, e);
        OtherKeepsClaims(s, Apply(resolve, w, e).store, r, p);
    }
  }

  // Whole runs.

  ghost predicate WorldInv(resolve: Resolver, w: World) {
    && HeldInv(resolve, w) && QueueInv(w.store) && SessionInv(w.store) && WorkerInv(w)
    && (forall r, p :: OneClaim(w.store, r, p) && Known(w.store, r, p))
  }

  lemma WorldInvKept(resolve: Resolver, w: World, e: Event)
    requires WorldInv(resolve, w) && Guard(w, e)
    ensures WorldInv(resolve, Apply(resolve, w, e))
  {
    hide HeldInv, QueueInv, SessionInv, WorkerInv, OneClaim, Known, Guard, Apply;
    HeldInvKept(resolve, w, e);
    QueueInvKept(resolve, w, e);
    SessionInvKept(resolve, w, e);
    WorkerInvKept(resolve, w, e);
    forall r, p
      ensures OneClaim(Apply(resolve, w, e).store, r, p) && Known(Apply(resolve, w, e).store, r, p)
    {
      ClaimInvKept(resolve, w, e, r, p);
    }
  }

  lemma InitialInv(resolve: Resolver, w: World)
    requires Initial(w)
    ensures WorldInv(resolve, w)
  {
  }

  lemma {:induction false} RunKeepsInv(resolve: Resolver, worlds: seq<World>, events: seq<Event>, k: nat)
    requires Run(resolve, worlds, events) && k <= |events|
    ensures WorldInv(resolve, worlds[k])
  {
    hide WorldInv, Guard, Apply, Initial;
    if k == 0 {
      InitialInv(resolve, worlds[0]);
    } else {
      RunKeepsInv(resolve, worlds, events, k - 1);
      assert Follows(resolve, worlds, events, k - 1);
      WorldInvKept(resolve, worlds[k - 1], events[k - 1]);
    }
  }

  lemma RetiredGrows(resolve: Resolver, w: World, e: Event)
    ensures w.store.retired <= Apply(resolve, w, e).store.retired
    ensures w.store.applied <= Apply(resolve, w, e).store.applied
  {
    hide NextQueue, Discard;
  }

  lemma {:induction false} RetiredStaysRetired(resolve: Resolver, worlds: seq<World>, events: seq<Event>, j: nat,
                                               k: nat)
    requires Run(resolve, worlds, events) && j <= k <= |events|
    ensures worlds[j].store.retired <= worlds[k].store.retired
  {
    hide Apply, Guard, Initial;
    if j < k {
      RetiredStaysRetired(resolve, worlds, events, j, k - 1);
      assert Follows(resolve, worlds, events, k - 1);
      RetiredGrows(resolve, worlds[k - 1], events[k - 1]);
    }
  }

  /** An identity that leaves the queue is retired. */
  lemma LeavingRetires(resolve: Resolver, w: World, e: Event, id: MessageId)
    requires Guard(w, e) && w.store.Queued(id) && !Apply(resolve, w, e).store.Queued(id)
    ensures id in Apply(resolve, w, e).store.retired
  {
    hide NextQueue, Plannable, Ops, FenceHolds, LeaderStandby.Model, Discard;
    var s := w.store;
    var m :| m in s.queue && m.id == id;
    match e {
      case Publish(c, lease, mode, next) =>
        assert m.id in Ids(s.queue);
      case Complete(x, succeeded) =>
        DiscardFilters(s.queue, w.workers[x].message.id);
      case Cleanup(x) =>
        DiscardFilters(s.queue, x);
      case _ =>
        QuietQueue(resolve, w, e);
    }
  }

  lemma QuietQueue(resolve: Resolver, w: World, e: Event)
    requires Guard(w, e) && !e.Publish? && !e.Complete? && !e.Cleanup?
    ensures Apply(resolve, w, e).store.queue == w.store.queue
  {
  }

  lemma {:induction false} GoneIsRetired(resolve: Resolver, worlds: seq<World>, events: seq<Event>, j: nat, k: nat,
                                         id: MessageId)
    requires Run(resolve, worlds, events) && j <= k <= |events|
    requires worlds[j].store.Queued(id) && !worlds[k].store.Queued(id)
    ensures id in worlds[k].store.retired
  {
    hide Apply, Guard, Initial, Store.Queued;
    assert Follows(resolve, worlds, events, k - 1);
    if worlds[k - 1].store.Queued(id) {
      LeavingRetires(resolve, worlds[k - 1], events[k - 1], id);
    } else {
      GoneIsRetired(resolve, worlds, events, j, k - 1, id);
      RetiredGrows(resolve, worlds[k - 1], events[k - 1]);
    }
  }

  lemma {:induction false} AppliedStays(resolve: Resolver, worlds: seq<World>, events: seq<Event>, j: nat, k: nat)
    requires Run(resolve, worlds, events) && j <= k <= |events|
    ensures worlds[j].store.applied <= worlds[k].store.applied
  {
    hide Apply, Guard, Initial;
    if j < k {
      AppliedStays(resolve, worlds, events, j, k - 1);
      assert Follows(resolve, worlds, events, k - 1);
      RetiredGrows(resolve, worlds[k - 1], events[k - 1]);
    }
  }
}
