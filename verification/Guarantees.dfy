/** What the control plane guarantees over whole runs of the protocol. */
module Guarantees {
  import opened Types
  import opened Ordering
  import opened BestPossible
  import opened Planning
  import opened Cycle
  import opened Throttle
  import opened Allowance
  import opened Settling
  import opened Quiescence
  import opened Convergence
  import opened Protocol
  import opened Freshness
  import opened LeaderSafety
  import opened Settlement
  import LeaderStandby

  /** At most one leader: in every state of every run, a partition's live leaders and queued
      promotions number at most one in all. */
  lemma AtMostOneLeader(resolve: Resolver, worlds: seq<World>, events: seq<Event>, k: nat, r: ResourceId,
                        p: PartitionId)
    requires Run(resolve, worlds, events) && k <= |events|
    ensures OneClaim(worlds[k].store, r, p)
  {
    hide Run;
    RunKeepsInv(resolve, worlds, events, k);
  }

  /** Every accepted publication is by the authority in force, was computed from the inputs and the queue in
      force at its commit, and records those inputs as processed. */
  lemma PublicationsAreCurrent(resolve: Resolver, worlds: seq<World>, events: seq<Event>, k: nat)
    requires Run(resolve, worlds, events) && k < |events| && events[k].Publish?
    ensures events[k].controller in worlds[k].held
    ensures var s, h := worlds[k].store, worlds[k].held[events[k].controller];
            && h.snap == s.View(resolve).(revision := h.snap.revision)
            && worlds[k + 1].store.queue == events[k].queue
            && multiset(events[k].queue) == multiset(NextQueue(h.snap, events[k].mode, s.queue))
            && s.active == Some(Authority(events[k].controller, events[k].lease))
            && worlds[k + 1].store.processed == s.marker
  {
    RunKeepsInv(resolve, worlds, events, k);
    var s, c, lease := worlds[k].store, events[k].controller, events[k].lease;
    assert Follows(resolve, worlds, events, k);
    hide NextQueue, Run, QueueInv, SessionInv, WorkerInv, OneClaim, Known, HeldOk, Store.View;
    FenceMeansCurrent(resolve, s, Authority(c, lease), worlds[k].held[c]);
  }

  /** Every accepted publication but a controller's first fits the throttles in force at its commit: what it
      adds to the messages it keeps uses no more of any limit than the work in flight leaves. */
  lemma PublicationsFitLimits(resolve: Resolver, worlds: seq<World>, events: seq<Event>, k: nat)
    returns (added: seq<Message>, work: seq<Dispatch>)
    requires Run(resolve, worlds, events) && k < |events| && events[k].Publish? && events[k].mode != Startup
    ensures events[k].controller in worlds[k].held
    ensures var s, h := worlds[k].store, worlds[k].held[events[k].controller];
            && h.snap.limits == s.limits && h.snap.live == s.live
            && multiset(worlds[k + 1].store.queue) == multiset(Retain(h.snap, events[k].mode, s.queue) + added)
            && Carries(added, work) && Fits(h.snap, events[k].mode, s.queue, work)
  {
    hide Guard, Apply, Initial, NextQueue, Retain, Carries, Fits;
    PublicationsAreCurrent(resolve, worlds, events, k);
    ghost var places: seq<nat>;
    added, work, places := NextQueueFitsLimits(worlds[k].held[events[k].controller].snap, events[k].mode,
                                               worlds[k].store.queue);
  }

  /** Message identities never come back: once an identity has left the queue, by completion or
      removal, no later queue holds it. */
  lemma IdsNeverComeBack(resolve: Resolver, worlds: seq<World>, events: seq<Event>, i: nat, j: nat, k: nat,
                         id: MessageId)
    requires Run(resolve, worlds, events) && i <= j <= k <= |events|
    requires worlds[i].store.Queued(id) && !worlds[j].store.Queued(id)
    ensures !worlds[k].store.Queued(id)
  {
    hide Run, Store.Queued;
    GoneIsRetired(resolve, worlds, events, i, j, id);
    RetiredStaysRetired(resolve, worlds, events, j, k);
    RunKeepsInv(resolve, worlds, events, k);
  }

  /** Processed input revisions never go back, and never run ahead of the inputs. */
  lemma {:induction false} ProcessedNeverRegresses(resolve: Resolver, worlds: seq<World>, events: seq<Event>, j: nat,
                                                   k: nat)
    requires Run(resolve, worlds, events) && j <= k <= |events|
    ensures worlds[j].store.processed <= worlds[k].store.processed <= worlds[k].store.marker
  {
    hide Guard, Apply;
    if k > 0 {
      RunKeepsInv(resolve, worlds, events, k - 1);
      assert Follows(resolve, worlds, events, k - 1);
      ProcessedNeverRegresses(resolve, worlds, events, if j < k then j else k - 1, k - 1);
      StepsAreMarked(resolve, worlds[k - 1], events[k - 1]);
      ProcessedMoves(resolve, worlds[k - 1], events[k - 1]);
      hide QueueInv, SessionInv, WorkerInv, OneClaim, Known, HeldOk;
    }
  }

  lemma ProcessedMoves(resolve: Resolver, w: World, e: Event)
    requires Guard(w, e)
    ensures var s, t := w.store, Apply(resolve, w, e).store;
            t.processed == s.processed || (s.processed <= t.processed == s.marker && t.marker == s.marker)
  {
    hide NextQueue, Plannable, Ops, LeaderStandby.Model, Discard;
  }

  /** A message leaves the queue only by its own completion or cleanup, or by a publication for which it is
      outdated. */
  lemma MessagesLeaveFor(resolve: Resolver, worlds: seq<World>, events: seq<Event>, k: nat, m: Message)
    requires Run(resolve, worlds, events) && k < |events|
    requires m in worlds[k].store.queue && m !in worlds[k + 1].store.queue
    ensures match events[k]
            case Complete(x, _) => x in worlds[k].workers && worlds[k].workers[x].message.id == m.id
            case Cleanup(id) => id == m.id
            case Publish(c, _, mode, _) => c in worlds[k].held && Outdated(worlds[k].held[c].snap, mode, m)
            case _ => false
  {
    assert Follows(resolve, worlds, events, k);
    var w, e := worlds[k], events[k];
    match e {
      case Complete(x, succeeded) =>
        hide Run, Discard;
        DiscardFilters(w.store.queue, w.workers[x].message.id);
      case Cleanup(id) =>
        hide Run, Discard;
        DiscardFilters(w.store.queue, id);
      case Publish(c, lease, mode, next) =>
        PublicationsAreCurrent(resolve, worlds, events, k);
        RunKeepsInv(resolve, worlds, events, k);
        hide Run, NextQueue, Retain, Outdated, Guard, Apply, HeldInv, SessionInv, WorkerInv, OneClaim, Known;
        var snap := w.held[c].snap;
        SameMembers(next, NextQueue(snap, mode, w.store.queue));
        NextQueueGrows(snap, mode, w.store.queue);
        KeptUnlessOutdated(snap, mode, w.store.queue, m);
      case _ =>
        hide Run;
        QuietQueue(resolve, w, e);
    }
  }

  /** How every step changes the queue. */
  lemma QueueChanges(resolve: Resolver, worlds: seq<World>, events: seq<Event>, k: nat, m: Message)
    requires Run(resolve, worlds, events) && k < |events|
    ensures events[k].Complete? ==> events[k].worker in worlds[k].workers
    ensures m in worlds[k + 1].store.queue
            <==> match events[k]
                 case Publish(_, _, _, next) => m in next
                 case Complete(x, _) => m in worlds[k].store.queue && m.id != worlds[k].workers[x].message.id
                 case Cleanup(id) => m in worlds[k].store.queue && m.id != id
                 case _ => m in worlds[k].store.queue
  {
    assert Follows(resolve, worlds, events, k);
    hide Run, Discard;
    var w, e := worlds[k], events[k];
    match e {
      case Complete(x, succeeded) => DiscardFilters(w.store.queue, w.workers[x].message.id);
      case Cleanup(id) => DiscardFilters(w.store.queue, id);
      case Publish(c, lease, mode, next) =>
      case _ => QuietQueue(resolve, w, e);
    }
  }

  /** How every step changes the live sessions and the configuration. */
  lemma MembershipChanges(resolve: Resolver, worlds: seq<World>, events: seq<Event>, k: nat)
    requires Run(resolve, worlds, events) && k < |events|
    ensures var s, t := worlds[k].store, worlds[k + 1].store;
            && t.live == (match events[k]
                          case Register(i, session, _) => s.live[i := session]
                          case Expire(i) => s.live - {i}
                          case Revoke(i) => s.live - {i}
                          case _ => s.live)
            && t.configs == (match events[k]
                             case Configure(i) => s.configs + {i}
                             case Deconfigure(i) => s.configs - {i}
                             case _ => s.configs)
            && (if events[k].Place? then t.placement == events[k].placement && t.limits == events[k].limits
                else t.placement == s.placement && t.limits == s.limits)
  {
    assert Follows(resolve, worlds, events, k);
    hide Run, Discard, FenceHolds, Arranges, Plannable, Ops, LeaderStandby.Model;
  }

  /** A worker that ends gives its key back, and no other. */
  lemma KeysAreGivenBack(resolve: Resolver, worlds: seq<World>, events: seq<Event>, k: nat)
    requires Run(resolve, worlds, events) && k < |events| && events[k].End?
    ensures events[k].worker in worlds[k].workers
    ensures worlds[k + 1].workers == worlds[k].workers - {events[k].worker}
    ensures worlds[k + 1].inFlight == worlds[k].inFlight - {worlds[k].workers[events[k].worker].key}
  {
    RunKeepsInv(resolve, worlds, events, k);
    assert Follows(resolve, worlds, events, k);
    hide Run, HeldInv, QueueInv, SessionInv, OneClaim, Known;
    assert Registered(worlds[k], events[k].worker);
  }

  /** Workers exclude each other: in every state of every run, no two are at work under one key, so no
      two callbacks for a replica overlap. */
  lemma WorkersExcludeEachOther(resolve: Resolver, worlds: seq<World>, events: seq<Event>, k: nat, x: WorkerId,
                                y: WorkerId)
    requires Run(resolve, worlds, events) && k <= |events|
    requires x in worlds[k].workers && y in worlds[k].workers && worlds[k].workers[x].key == worlds[k].workers[y].key
    ensures x == y
  {
    hide Guard, Apply, Initial, HeldInv, QueueInv, SessionInv, OneClaim, Known, WorkOk;
    RunKeepsInv(resolve, worlds, events, k);
  }

  /** Whenever a message changes CurrentState, its session is live, its replica stands at the state the
      message starts from, and the message, and no other, leaves the queue at once. */
  lemma CompletionsAreFaithful(resolve: Resolver, worlds: seq<World>, events: seq<Event>, k: nat)
    requires Run(resolve, worlds, events) && k < |events| && events[k].Complete?
    ensures events[k].worker in worlds[k].workers
    ensures var s, work := worlds[k].store, worlds[k].workers[events[k].worker];
            var key, m := work.key, work.message;
            && ReplicaOf(m.step) == KeyReplica(key) && m.session == key.session
            && key.instance in s.live && s.live[key.instance] == m.session
            && m.step.from == (if key in s.states then s.states[key] else Offline)
            && m in s.queue && forall n :: n in worlds[k + 1].store.queue <==> n in s.queue && n.id != m.id
  {
    RunKeepsInv(resolve, worlds, events, k);
    var w, x := worlds[k], events[k].worker;
    assert Follows(resolve, worlds, events, k);
    hide Run, HeldInv, SessionInv, OneClaim, Known, Discard, WellFormed, LeaderStandby.Model;
    assert WorkOk(w.store, w.workers[x]);
    DiscardFilters(w.store.queue, w.workers[x].message.id);
  }

  /** What the entry of a replica holds after a message for it has run: ERROR if its handler failed,
      nothing if it dropped the replica, and its target state otherwise. */
  function Ending(t: Transition, succeeded: bool): Option<State> {
    if !succeeded then Some(Error) else if t.to == Dropped then None else Some(t.to)
  }

  function Entry(s: Store, key: Key): Option<State> {
    if key in s.states then Some(s.states[key]) else None
  }

  /** CurrentState has two writers. A completion writes the outcome of its message, under the worker's own
      key; a registration writes the initial states of its new session. No step changes any other entry. */
  lemma CurrentStateChanges(resolve: Resolver, worlds: seq<World>, events: seq<Event>, k: nat, key: Key)
    requires Run(resolve, worlds, events) && k < |events|
    ensures events[k].Complete? ==> events[k].worker in worlds[k].workers
    ensures var before, after := Entry(worlds[k].store, key), Entry(worlds[k + 1].store, key);
            match events[k]
            case Complete(x, succeeded) =>
              var work := worlds[k].workers[x];
              after == if key == work.key then Ending(work.message.step, succeeded) else before
            case Register(i, session, carried) =>
              after == if key.instance != i || key.session != session then before
                       else if (key.resource, key.partition) !in carried then None
                       else Some(carried[(key.resource, key.partition)])
            case _ => after == before
  {
    RunKeepsInv(resolve, worlds, events, k);
    assert Follows(resolve, worlds, events, k);
    hide Run, HeldInv, QueueInv, WorkerInv, OneClaim, Known, Discard, WellFormed, LeaderStandby.Model, FenceHolds,
      Arranges, Plannable, Ops;
    if events[k].Register? && key.instance == events[k].instance && key.session == events[k].session {
      assert key !in worlds[k].store.states;
    }
  }

  lemma CompletionIsApplied(resolve: Resolver, worlds: seq<World>, events: seq<Event>, k: nat)
    requires Run(resolve, worlds, events) && k < |events| && events[k].Complete?
    ensures events[k].worker in worlds[k].workers
    ensures var m := worlds[k].workers[events[k].worker].message;
            worlds[k].store.Queued(m.id) && worlds[k + 1].store.applied == worlds[k].store.applied + [m.id]
  {
    assert Follows(resolve, worlds, events, k);
    hide Run, Discard;
    var m := worlds[k].workers[events[k].worker].message;
    assert m in worlds[k].store.queue;
  }

  /** No message changes CurrentState twice: any two completions of a run are of different messages. */
  lemma CompletionsHappenOnce(resolve: Resolver, worlds: seq<World>, events: seq<Event>, j: nat, k: nat)
    requires Run(resolve, worlds, events) && j < k < |events| && events[j].Complete? && events[k].Complete?
    ensures events[j].worker in worlds[j].workers && events[k].worker in worlds[k].workers
    ensures worlds[j].workers[events[j].worker].message.id != worlds[k].workers[events[k].worker].message.id
  {
    hide Guard, Apply, Initial, Store.Queued, WellFormed, HeldInv, SessionInv, WorkerInv, OneClaim, Known;
    CompletionIsApplied(resolve, worlds, events, j);
    CompletionIsApplied(resolve, worlds, events, k);
    AppliedStays(resolve, worlds, events, j + 1, k);
    RunKeepsInv(resolve, worlds, events, k);
    var id := worlds[j].workers[events[j].worker].message.id;
    assert worlds[j + 1].store.applied[|worlds[j].store.applied|] == id;
    assert id in worlds[k].store.applied;
  }

  /** Convergence of the protocol: from any point of any run at which nothing is in flight, every live
      instance is configured and no replica is in error, as long as the inputs stay as they are,
      participants complete at most three transitions per replica of a partition, and two more. */
  lemma ProtocolSettles(resolve: Resolver, worlds: seq<World>, events: seq<Event>, j: nat, r: ResourceId,
                        p: PartitionId)
    requires Run(resolve, worlds, events) && j <= |events| && CalmFrom(events, j)
    requires Start(Cluster(worlds[j].store.View(resolve), worlds[j].store.queue))
             && r in worlds[j].store.View(resolve).plans
    ensures Performed(worlds, events, j, r, p) <= 3 * |ReplicasAt(worlds[j].store.View(resolve), r, p)| + 2
  {
    hide Steady, Measure, Guard, Apply, Initial, Start, Store.View, Similar, ActiveOf, ReplicasAt, InFlight;
    var s := worlds[j].store;
    var c := Cluster(s.View(resolve), s.queue);
    var v := ViewOf(c, r, p);
    var keys := SortedKeys(v.cur.Keys);
    StartIsSteady(c);
    SelfSimilar(resolve, s);
    CalmRunIsBounded(resolve, worlds, events, j, c, r, p, keys);
    MeasureIsLinear(v, keys);
    DistinctSize(keys);
    assert Elements(keys) == v.cur.Keys;
  }

  /** And such a run can come to rest only with every partition settled: if nothing is in flight and a
      cycle on the store as it is would publish nothing, each partition has its leader, its standbys and
      no stray replica. */
  lemma ProtocolRestIsSettled(resolve: Resolver, worlds: seq<World>, events: seq<Event>, j: nat, k: nat, mode: Mode)
    requires Run(resolve, worlds, events) && j <= k <= |events| && CalmFrom(events, j)
    requires Start(Cluster(worlds[j].store.View(resolve), worlds[j].store.queue))
    requires worlds[k].store.queue == [] && NextQueue(worlds[k].store.View(resolve), mode, []) == []
    ensures AllSettled(worlds[k].store.View(resolve))
  {
    hide Steady, Guard, Apply, Initial, Start, Store.View, Similar, NextQueue, AllSettled, Dispatched;
    var s := worlds[j].store;
    StartIsSteady(Cluster(s.View(resolve), s.queue));
    SelfSimilar(resolve, s);
    var d := CalmRunStaysSteady(resolve, worlds, events, j, k, Cluster(s.View(resolve), s.queue));
    var t := worlds[k].store;
    SteadyAtAnyRevision(resolve, d, t);
    var c := Cluster(t.View(resolve), t.queue);
    SteadyServes(c);
    SteadyInputs(c);
    EmptyNextMeansSilent(c.snap, mode);
    SilentIffSettled(c.snap, mode);
  }
}
