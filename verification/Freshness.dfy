/** Safety of the queue over every run: accepted publications are computed from what is in force,
    and no message identity ever comes back. */
module Freshness {
  import opened Types
  import opened Planning
  import opened Cycle
  import opened Convergence
  import opened Protocol
  import LeaderStandby

  // What a controller holds.

  /** A held snapshot is current as long as the marker has not passed it, up to sessions lost since. */
  ghost predicate HeldOk(resolve: Resolver, s: Store, h: Held) {
    && h.snap.revision <= s.revision && h.observed <= h.snap.revision
    && h.queueRevision <= h.snap.revision
    && (s.queueRevision == h.queueRevision ==> s.queue == h.queue)
    && (s.marker <= h.snap.revision ==>
          && s.(live := h.snap.live, revision := h.snap.revision).View(resolve) == h.snap
          && (forall i | i in s.live :: i in h.snap.live && h.snap.live[i] == s.live[i]))
  }

  ghost predicate HeldInv(resolve: Resolver, w: World) {
    && w.store.marker <= w.store.revision && w.store.queueRevision <= w.store.revision
    && (forall c | c in w.held :: HeldOk(resolve, w.store, w.held[c]))
  }

  /** An accepted publication was computed from the inputs and the queue in force at its commit. */
  lemma FenceMeansCurrent(resolve: Resolver, s: Store, authority: Authority, h: Held)
    requires HeldOk(resolve, s, h) && FenceHolds(s, authority, h)
    ensures h.queue == s.queue && h.snap.live == s.live
    ensures h.snap == s.View(resolve).(revision := h.snap.revision)
  {
    assert forall i :: i in h.snap.live <==> i in s.live;
    assert h.snap.live == s.live;
    var t := s.(live := h.snap.live, revision := h.snap.revision);
    assert t.Current() == s.Current();
  }

  /** Two stores with the same authoritative inputs. */
  ghost predicate SameInputs(a: Store, b: Store) {
    && a.marker == b.marker && a.states == b.states && a.configs == b.configs && a.placement == b.placement
       && a.limits == b.limits
    && (forall i | i in b.live :: i in a.live && a.live[i] == b.live[i])
  }

  ghost predicate SameQueue(a: Store, b: Store) {
    b.queueRevision == a.queueRevision && b.queue == a.queue
  }

  lemma SameView(resolve: Resolver, a: Store, b: Store, h: Held)
    requires SameInputs(a, b)
    ensures a.(live := h.snap.live, revision := h.snap.revision).View(resolve) == b.(live := h.snap.live,
        revision := h.snap.revision).View(resolve)
  {
    var x, y := a.(live := h.snap.live, revision := h.snap.revision), b.(live := h.snap.live,
        revision := h.snap.revision);
    assert x.Current() == y.Current();
  }

  /** A held snapshot stays good, or the revision it was taken at is overtaken. */
  lemma HeldStays(resolve: Resolver, a: Store, b: Store, h: Held)
    requires HeldOk(resolve, a, h) && a.revision <= b.revision && a.queueRevision <= a.revision
    requires SameInputs(a, b) || b.marker > a.revision
    requires SameQueue(a, b) || b.queueRevision > a.revision
    ensures HeldOk(resolve, b, h)
  {
    if SameInputs(a, b) {
      SameView(resolve, a, b, h);
    }
  }

  /** How each step treats the inputs and the queue. */
  lemma StepsAreMarked(resolve: Resolver, w: World, e: Event)
    requires Guard(w, e)
    ensures var a, b := w.store, Apply(resolve, w, e).store;
            && (b == a || b.revision == a.revision + 1)
            && (SameInputs(a, b) || b.marker == b.revision == a.revision + 1)
            && (SameQueue(a, b) || b.queueRevision == b.revision == a.revision + 1)
            && a.revision <= b.revision
  {
    hide NextQueue, Discard, Plannable, Ops, LeaderStandby.Model;
  }

  lemma ReadIsCurrent(resolve: Resolver, s: Store, observed: nat)
    requires s.marker <= s.revision && s.queueRevision <= s.revision && observed <= s.revision
    ensures HeldOk(resolve, s, Read(s, resolve, observed))
  {
    assert s.(live := s.live, revision := s.revision) == s;
  }

  lemma HeldAfter(resolve: Resolver, w: World, e: Event, c: ControllerId)
    requires Guard(w, e) && c in Apply(resolve, w, e).held
    ensures var h, d := Apply(resolve, w, e).held[c], Apply(resolve, w, e);
            || (c in w.held && h == w.held[c])
            || (d.store == w.store
                && exists observed: nat :: observed <= w.store.revision && h == Read(w.store, resolve, observed))
  {
    hide Read;
    if e.Observe? && e.controller == c {
      assert Apply(resolve, w, e).held[c] == Read(w.store, resolve, e.observed);
    }
  }

  lemma HeldInvKept(resolve: Resolver, w: World, e: Event)
    requires HeldInv(resolve, w) && Guard(w, e)
    ensures HeldInv(resolve, Apply(resolve, w, e))
  {
    hide Guard, Apply, HeldOk, SameInputs, SameQueue, Read;
    var d := Apply(resolve, w, e);
    StepsAreMarked(resolve, w, e);
    MarkersBounded(w.store, d.store);
    forall c | c in d.held
      ensures HeldOk(resolve, d.store, d.held[c])
    {
      HeldAfter(resolve, w, e, c);
      if c in w.held && d.held[c] == w.held[c] {
        HeldStays(resolve, w.store, d.store, w.held[c]);
      } else {
        var observed: nat :| observed <= w.store.revision && d.held[c] == Read(w.store, resolve, observed);
        ReadIsCurrent(resolve, w.store, observed);
      }
    }
  }

  lemma MarkersBounded(a: Store, b: Store)
    requires a.marker <= a.revision && a.queueRevision <= a.revision && a.revision <= b.revision
    requires SameInputs(a, b) || b.marker == b.revision
    requires SameQueue(a, b) || b.queueRevision == b.revision
    ensures b.marker <= b.revision && b.queueRevision <= b.revision
  {
  }

  // The queue and its history.

  ghost predicate QueueInv(s: Store) {
    && WellFormed(s.queue, s.queueRevision)
    && (forall id | id in s.retired :: id.revision < s.queueRevision && !s.Queued(id))
    && Distinct(s.applied) && (forall id | id in s.applied :: id in s.retired)
  }

  lemma WellFormedLater(queue: seq<Message>, a: nat, b: nat)
    requires WellFormed(queue, a) && a <= b
    ensures WellFormed(queue, b)
  {
  }

  lemma WithoutKeeps(s: Store, id: MessageId)
    requires QueueInv(s) && s.Queued(id) && s.queueRevision <= s.revision
    ensures QueueInv(s.Without(id))
    ensures id in s.Without(id).retired && id !in s.applied
  {
    var t := s.Without(id);
    DiscardFilters(s.queue, id);
    DiscardKeepsOne(s.queue, id);
    DiscardKeepsIds(s.queue, id);
    var m :| m in s.queue && m.id == id;
    hide Discard, OneMessagePerReplica, DistinctIds, Direct;
    forall x | x in t.retired
      ensures x.revision < t.queueRevision && !t.Queued(x)
    {
    }
  }

  lemma CompletionKeeps(s: Store, k: Key, m: Message, succeeded: bool)
    requires QueueInv(s) && m in s.queue && s.queueRevision <= s.revision
    ensures QueueInv(Completion(s, k, m, succeeded))
  {
    WithoutKeeps(s, m.id);
    var t, u := s.Without(m.id), Completion(s, k, m, succeeded);
    assert u.queue == t.queue && u.retired == t.retired;
    assert forall id :: u.Queued(id) <==> t.Queued(id);
  }

  /** The queue invariant of a publication does not depend on the order it is stored in. */
  lemma ArrangedKeepsQueue(h: Held, mode: Mode, next: seq<Message>)
    requires h.snap.Valid() && WellFormed(h.queue, h.snap.revision) && Arranges(h, mode, next)
    ensures WellFormed(next, h.snap.revision + 1)
    ensures forall m :: m in next <==> m in NextQueue(h.snap, mode, h.queue)
    ensures forall m | m in next :: m.step.instance in h.snap.live && h.snap.live[m.step.instance] == m.session
    ensures forall m | m in next && m !in h.queue :: m.id.revision == h.snap.revision
  {
    PublicationKeepsQueue(h.snap, mode, h.queue);
    hide NextQueue;
    RearrangedQueue(NextQueue(h.snap, mode, h.queue), next);
  }

  lemma FreshIds(s: Store, h: Held, mode: Mode, m: Message)
    requires QueueInv(s) && h.queue == s.queue && h.snap.Valid() && s.queueRevision <= h.snap.revision
    requires m in NextQueue(h.snap, mode, h.queue)
    ensures m.id !in s.retired
  {
    WellFormedLater(s.queue, s.queueRevision, h.snap.revision);
    hide NextQueue, WellFormed;
    PublicationKeepsQueue(h.snap, mode, h.queue);
    if m in s.queue {
      assert s.Queued(m.id);
    }
  }

  lemma PublicationKeeps(s: Store, h: Held, mode: Mode, next: seq<Message>)
    requires QueueInv(s) && h.queue == s.queue && h.snap.Valid() && s.queueRevision <= h.snap.revision <= s.revision
    requires Arranges(h, mode, next)
    ensures QueueInv(Publication(s, h, next))
  {
    var t := Publication(s, h, next);
    WellFormedLater(s.queue, s.queueRevision, h.snap.revision);
    ArrangedKeepsQueue(h, mode, next);
    WellFormedLater(next, h.snap.revision + 1, s.revision + 1);
    hide NextQueue, Arranges;
    forall id | id in t.retired
      ensures id.revision < t.queueRevision && !t.Queued(id)
    {
      if id in s.retired {
        forall m | m in next
          ensures m.id != id
        {
          FreshIds(s, h, mode, m);
        }
      } else {
        var m :| m in s.queue && m.id == id;
      }
    }
  }

  lemma QueueInvKept(resolve: Resolver, w: World, e: Event)
    requires HeldInv(resolve, w) && QueueInv(w.store) && Guard(w, e)
    ensures QueueInv(Apply(resolve, w, e).store)
  {
    hide NextQueue, Discard, Plannable, Ops, LeaderStandby.Model, FenceHolds, HeldOk;
    var s := w.store;
    match e {
      case Publish(c, lease, mode, next) =>
        FenceMeansCurrent(resolve, s, Authority(c, lease), w.held[c]);
        assert s.queueRevision <= w.held[c].snap.revision <= s.revision by {
          FenceRevisions(resolve, s, Authority(c, lease), w.held[c]);
        }
        hide QueueInv;
        PublicationKeeps(s, w.held[c], mode, next);
      case Complete(x, succeeded) =>
        hide QueueInv, Completion;
        CompletionKeeps(s, w.workers[x].key, w.workers[x].message, succeeded);
      case Cleanup(id) =>
        hide QueueInv;
        WithoutKeeps(s, id);
      case _ =>
        QueueUntouched(s, Apply(resolve, w, e).store);
    }
  }

  lemma QueueUntouched(a: Store, b: Store)
    requires QueueInv(a) && a.queue == b.queue && a.queueRevision == b.queueRevision && a.retired == b.retired
             && a.applied == b.applied
    ensures QueueInv(b)
  {
    assert forall id :: b.Queued(id) <==> a.Queued(id);
  }

  lemma FenceRevisions(resolve: Resolver, s: Store, authority: Authority, h: Held)
    requires HeldOk(resolve, s, h) && FenceHolds(s, authority, h)
    ensures s.queueRevision <= h.snap.revision <= s.revision
  {
  }
}
