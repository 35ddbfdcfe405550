/** What the protocol always lets go on: a fresh publication is accepted and queued work can be carried out. */
module Availability {
  import opened Types
  import opened Planning
  import opened Cycle
  import opened Convergence
  import opened Protocol
  import opened Freshness
  import opened LeaderSafety
  import opened Guarantees
  import LeaderStandby

  /** From any state of any run, the authority in force can read and publish: what it then computes in any
      mode is accepted, unless the placement is malformed or the cycle itself fails. */
  lemma FreshPublicationIsAccepted(resolve: Resolver, worlds: seq<World>, events: seq<Event>, k: nat,
                                   authority: Authority, mode: Mode)
    requires Run(resolve, worlds, events) && k <= |events| && worlds[k].store.active == Some(authority)
    requires var snap := worlds[k].store.View(resolve);
             snap.Valid() && Plannable(snap, Ops(snap, mode, worlds[k].store.queue))
    ensures var s, read := worlds[k].store, Observe(authority.controller, worlds[k].store.marker);
            var next := NextQueue(s.View(resolve), mode, s.queue);
            var w := Apply(resolve, worlds[k], read);
            && Guard(worlds[k], read)
            && Guard(w, Publish(authority.controller, authority.lease, mode, next))
            && Apply(resolve, w, Publish(authority.controller, authority.lease, mode, next)).store.queue == next
  {
    hide NextQueue, Plannable, Ops, Store.View, HeldOk, QueueInv, SessionInv, WorkerInv, OneClaim, Known;
    RunKeepsInv(resolve, worlds, events, k);
    ProcessedNeverRegresses(resolve, worlds, events, k, k);
    LiveInView(resolve, worlds[k].store);
  }

  lemma LiveInView(resolve: Resolver, s: Store)
    ensures s.View(resolve).live == s.live
  {
  }

  /** The key of the replica a message is for. */
  function KeyOf(m: Message): Key {
    Key(m.step.instance, m.session, m.step.resource, m.step.partition)
  }

  /** From any state of any run, a queued message of a live session whose replica stands at its start and is
      free of other work can be carried out, by any new worker, and then has its outcome written. */
  lemma QueuedWorkCanComplete(resolve: Resolver, worlds: seq<World>, events: seq<Event>, k: nat, m: Message,
                              x: WorkerId, succeeded: bool)
    requires Run(resolve, worlds, events) && k <= |events| && m in worlds[k].store.queue
    requires var s := worlds[k].store;
             s.Active(KeyOf(m)) && m.step.from == if KeyOf(m) in s.states then s.states[KeyOf(m)] else Offline
    requires KeyOf(m) !in worlds[k].inFlight && x !in worlds[k].workers
    ensures var w0 := worlds[k];
            var w1 := Apply(resolve, w0, Deliver(x, KeyOf(m), m));
            var w2 := Apply(resolve, w1, Check(x));
            var w3 := Apply(resolve, w2, Claim(x));
            var w4 := Apply(resolve, w3, Complete(x, succeeded));
            && Guard(w0, Deliver(x, KeyOf(m), m)) && Guard(w1, Check(x)) && Guard(w2, Claim(x))
            && Guard(w3, Complete(x, succeeded))
            && Entry(w4.store, KeyOf(m)) == Ending(m.step, succeeded) && m !in w4.store.queue
  {
    RunKeepsInv(resolve, worlds, events, k);
    hide LeaderStandby.Model, HeldInv, OneClaim, Known, WorkerInv, Apply, Guard, Run, Initial, Entry, Ending, StateAt;
    DirectIsNext(m.step);
    assert StateAt(worlds[k].store, KeyOf(m)) == m.step.from by {
      StateIs(worlds[k].store, KeyOf(m));
    }
    CanBeClaimed(resolve, worlds[k], m, x);
    var w1 := Apply(resolve, worlds[k], Deliver(x, KeyOf(m), m));
    CanBeCompleted(resolve, Apply(resolve, Apply(resolve, w1, Check(x)), Claim(x)), m, x, succeeded);
  }

  lemma StateIs(s: Store, key: Key)
    ensures StateAt(s, key) == if key in s.states then s.states[key] else Offline
  {
  }

  lemma CanBeClaimed(resolve: Resolver, w: World, m: Message, x: WorkerId)
    requires m in w.store.queue && w.store.Active(KeyOf(m)) && StateAt(w.store, KeyOf(m)) == m.step.from
    requires KeyOf(m) !in w.inFlight && x !in w.workers && m.session in w.store.used && m.step.from != m.step.to
    requires LeaderStandby.Model().NextToward(m.step.from, m.step.to) == Some(m.step.to)
    ensures var w1 := Apply(resolve, w, Deliver(x, KeyOf(m), m));
            var w2 := Apply(resolve, w1, Check(x));
            var w3 := Apply(resolve, w2, Claim(x));
            && Guard(w, Deliver(x, KeyOf(m), m)) && Guard(w1, Check(x)) && Guard(w2, Claim(x))
            && w3.store == w.store && x in w3.workers && w3.workers[x] == Work(KeyOf(m), m, Claimed)
  {
    hide LeaderStandby.Model, StateAt;
  }

  lemma CanBeCompleted(resolve: Resolver, w: World, m: Message, x: WorkerId, succeeded: bool)
    requires m in w.store.queue && w.store.Active(KeyOf(m))
    requires x in w.workers && w.workers[x] == Work(KeyOf(m), m, Claimed)
    ensures var after := Apply(resolve, w, Complete(x, succeeded)).store;
            && Guard(w, Complete(x, succeeded))
            && Entry(after, KeyOf(m)) == Ending(m.step, succeeded) && m !in after.queue
  {
    hide Discard;
    DiscardFilters(w.store.queue, m.id);
  }

  lemma DirectIsNext(t: Transition)
    requires Direct(t)
    ensures t.from != t.to && LeaderStandby.Model().NextToward(t.from, t.to) == Some(t.to)
  {
    DirectCases(t);
    LeaderStandby.HopIsNextToward(t.from, t.to);
  }
}
