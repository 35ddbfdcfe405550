/** The participant's completion frontier (`participant.rs`). */
module Frontier {
  import opened Types
  import opened Ordering

  type Revision = nat
  type Id = nat

  /** Unfinished revisions with their message identities, and the identities completed so far that
      are still needed. */
  datatype Tracked = Tracked(revisions: map<Revision, set<Id>>, completed: set<Id>)

  predicate Mentions(revisions: map<Revision, set<Id>>, id: Id) {
    exists r :: r in revisions && id in revisions[r]
  }

  function Observed(t: Tracked, r: Revision, ids: set<Id>): Tracked {
    t.(revisions := t.revisions[r := (if r in t.revisions then t.revisions[r] else {}) + ids])
  }

  /** Drops the first revision, and with it the identities nothing else mentions. */
  function Popped(t: Tracked): Tracked
    requires t.revisions != map[]
  {
    var r := Least(t.revisions.Keys);
    var rest := t.revisions - {r};
    Tracked(rest, set id | id in t.completed && (id !in t.revisions[r] || Mentions(rest, id)))
  }

  predicate Poppable(t: Tracked) {
    t.revisions != map[] && t.revisions[Least(t.revisions.Keys)] <= t.completed
  }

  /** Drops first revisions as long as they are finished; also yields the last one dropped. */
  function Settle(t: Tracked): (Tracked, Option<Revision>)
    decreases |t.revisions|
  {
    if !Poppable(t) then (t, None)
    else
      var (u, f) := Settle(Popped(t));
      (u, if f.None? then Some(Least(t.revisions.Keys)) else f)
  }

  function Completed(t: Tracked, id: Id): (Tracked, Option<Revision>) {
    Settle(t.(completed := t.completed + {id}))
  }

  // What settling computes, without the pruning.

  /** Every revision up to `r` is finished. */
  ghost predicate FinishedUpTo(t: Tracked, r: Revision) {
    forall q | q in t.revisions && q <= r :: t.revisions[q] <= t.completed
  }

  ghost predicate Settled(t: Tracked, u: Tracked, f: Option<Revision>) {
    && (f.None? ==> u.revisions == t.revisions)
    && (f.Some? ==>
          && f.value in t.revisions && FinishedUpTo(t, f.value)
          && u.revisions == map q | q in t.revisions && f.value < q :: t.revisions[q])
    && (u.revisions != map[] ==> !(u.revisions[Least(u.revisions.Keys)] <= t.completed))
    && (forall id ::
          id in u.completed <==> id in t.completed && (Mentions(u.revisions, id) || !Mentions(t.revisions, id)))
  }

  lemma PoppedKeeps(t: Tracked)
    requires t.revisions != map[]
    ensures var r, p := Least(t.revisions.Keys), Popped(t);
            && (forall q | q in p.revisions :: r < q && p.revisions[q] == t.revisions[q])
            && (forall q | q in t.revisions :: q == r || q in p.revisions)
            && (forall id | Mentions(p.revisions, id) :: id in p.completed <==> id in t.completed)
  {
    var r, p := Least(t.revisions.Keys), Popped(t);
    forall q | q in p.revisions
      ensures r < q
    {
      assert q in t.revisions.Keys;
    }
  }

  lemma SettledAfterPop(t: Tracked, u: Tracked, f: Option<Revision>)
    requires Poppable(t) && Settled(Popped(t), u, f)
    ensures Settled(t, u, if f.None? then Some(Least(t.revisions.Keys)) else f)
  {
    var r, p := Least(t.revisions.Keys), Popped(t);
    var g := if f.None? then r else f.value;
    PoppedKeeps(t);
    hide Mentions;
    assert u.revisions == map q | q in t.revisions && g < q :: t.revisions[q];
    forall q | q in t.revisions && q <= g
      ensures t.revisions[q] <= t.completed
    {
      if q != r {
        assert q in p.revisions && p.revisions[q] <= p.completed;
      }
    }
    if u.revisions != map[] {
      FirstStaysUnfinished(t, p, u);
    }
    forall id
      ensures id in u.completed <==> id in t.completed && (Mentions(u.revisions, id) || !Mentions(t.revisions, id))
    {
      PruningAgrees(t, u, id);
    }
  }

  lemma FirstStaysUnfinished(t: Tracked, p: Tracked, u: Tracked)
    requires t.revisions != map[] && p == Popped(t) && u.revisions != map[]
    requires forall q | q in u.revisions :: q in p.revisions && u.revisions[q] == p.revisions[q]
    requires !(u.revisions[Least(u.revisions.Keys)] <= p.completed)
    ensures !(u.revisions[Least(u.revisions.Keys)] <= t.completed)
  {
    var first := Least(u.revisions.Keys);
    var id :| id in u.revisions[first] && id !in p.completed;
    assert first in p.revisions && id in p.revisions[first];
    assert Mentions(p.revisions, id);
    PoppedKeeps(t);
  }

  lemma PruningAgrees(t: Tracked, u: Tracked, id: Id)
    requires t.revisions != map[]
    requires forall q | q in u.revisions :: q in Popped(t).revisions && u.revisions[q] == Popped(t).revisions[q]
    requires id in u.completed
             <==> id in Popped(t).completed && (Mentions(u.revisions, id) || !Mentions(Popped(t).revisions, id))
    ensures id in u.completed <==> id in t.completed && (Mentions(u.revisions, id) || !Mentions(t.revisions, id))
  {
    var r, p := Least(t.revisions.Keys), Popped(t);
    PoppedKeeps(t);
    if Mentions(u.revisions, id) {
      var q :| q in u.revisions && id in u.revisions[q];
      assert q in p.revisions && id in p.revisions[q];
    }
    if Mentions(p.revisions, id) {
      var q :| q in p.revisions && id in p.revisions[q];
      assert q in t.revisions && id in t.revisions[q];
    }
    if Mentions(t.revisions, id) && !Mentions(p.revisions, id) {
      var q :| q in t.revisions && id in t.revisions[q];
      assert q == r;
    }
  }

  /** Settling drops exactly the longest finished run of first revisions, judged by what was
      completed before any pruning, and forgets only identities no remaining revision mentions. */
  lemma {:induction false} SettleIsMaximal(t: Tracked)
    ensures Settled(t, Settle(t).0, Settle(t).1)
    decreases |t.revisions|
  {
    if Poppable(t) {
      SettleIsMaximal(Popped(t));
      hide Settled;
      var (u, f) := Settle(Popped(t));
      SettledAfterPop(t, u, f);
    }
  }

  // Histories.

  datatype Call = Observe(revision: Revision, ids: set<Id>) | Complete(id: Id)

  function After(calls: seq<Call>): Tracked {
    if calls == [] then Tracked(map[], {})
    else match calls[|calls| - 1]
      case Observe(r, ids) => Observed(After(calls[..|calls| - 1]), r, ids)
      case Complete(id) => Completed(After(calls[..|calls| - 1]), id).0
  }

  /** What the last call of a history returns. */
  function Returned(calls: seq<Call>): Option<Revision> {
    if calls != [] && calls[|calls| - 1].Complete?
    then Completed(After(calls[..|calls| - 1]), calls[|calls| - 1].id).1 else None
  }

  ghost predicate WasObserved(calls: seq<Call>, r: Revision, id: Id) {
    exists c :: c in calls && c.Observe? && c.revision == r && id in c.ids
  }

  ghost predicate WasCompleted(calls: seq<Call>, id: Id) {
    Complete(id) in calls
  }

  ghost predicate Accounted(calls: seq<Call>, t: Tracked) {
    && (forall id | id in t.completed :: WasCompleted(calls, id))
    && (forall r, id | WasObserved(calls, r, id) ::
          WasCompleted(calls, id) || (r in t.revisions && id in t.revisions[r]))
  }

  lemma ObserveAccounts(front: seq<Call>, t: Tracked, r: Revision, ids: set<Id>)
    requires Accounted(front, t)
    ensures Accounted(front + [Observe(r, ids)], Observed(t, r, ids))
  {
    var calls := front + [Observe(r, ids)];
    forall q, id | WasObserved(calls, q, id)
      ensures WasCompleted(calls, id) || (q in Observed(t, r, ids).revisions && id in Observed(t, r, ids).revisions[q])
    {
      if !(q == r && id in ids) {
        assert WasObserved(front, q, id);
      }
    }
  }

  lemma CompleteAccounts(front: seq<Call>, t: Tracked, id: Id)
    requires Accounted(front, t)
    ensures Accounted(front + [Complete(id)], Completed(t, id).0)
  {
    var calls, s := front + [Complete(id)], t.(completed := t.completed + {id});
    SettleIsMaximal(s);
    var (u, f) := Settle(s);
    hide Settle;
    forall r, x | WasObserved(calls, r, x)
      ensures WasCompleted(calls, x) || (r in u.revisions && x in u.revisions[r])
    {
      assert WasObserved(front, r, x);
    }
  }

  lemma {:induction false} HistoryAccounts(calls: seq<Call>)
    ensures Accounted(calls, After(calls))
  {
    if calls != [] {
      var front, last := calls[..|calls| - 1], calls[|calls| - 1];
      HistoryAccounts(front);
      assert calls == front + [last];
      hide Accounted;
      match last {
        case Observe(r, ids) => ObserveAccounts(front, After(front), r, ids);
        case Complete(id) => CompleteAccounts(front, After(front), id);
      }
    }
  }

  /** Over every history, a returned revision means that every message ever observed at that revision
      or below has been completed. */
  lemma ReturnedMeansCompleted(calls: seq<Call>, r: Revision, id: Id)
    requires Returned(calls).Some? && r <= Returned(calls).value && WasObserved(calls, r, id)
    ensures WasCompleted(calls, id)
  {
    var front, last := calls[..|calls| - 1], calls[|calls| - 1];
    HistoryAccounts(calls);
    SettleIsMaximal(After(front).(completed := After(front).completed + {last.id}));
  }

  /** After each completion, the smallest tracked revision still has unfinished work. */
  lemma FirstRevisionIsUnfinished(calls: seq<Call>)
    requires calls != [] && calls[|calls| - 1].Complete?
    ensures var t := After(calls);
            t.revisions != map[] ==> !(t.revisions[Least(t.revisions.Keys)] <= t.completed)
  {
    var front, last := calls[..|calls| - 1], calls[|calls| - 1];
    SettleIsMaximal(After(front).(completed := After(front).completed + {last.id}));
  }

  // The frontier never regresses.

  function FrontierOf(calls: seq<Call>): Option<Revision> {
    if calls == [] then None
    else if Returned(calls).Some? then Returned(calls)
    else FrontierOf(calls[..|calls| - 1])
  }

  predicate AtLeast(r: Revision, f: Option<Revision>) {
    f.Some? ==> f.value <= r
  }

  /** No observation is below the frontier at the time. */
  ghost predicate Forward(calls: seq<Call>) {
    forall k | 0 <= k < |calls| && calls[k].Observe? :: AtLeast(calls[k].revision, FrontierOf(calls[..k]))
  }

  lemma {:induction false} TrackedIsAhead(calls: seq<Call>)
    requires Forward(calls)
    ensures forall r | r in After(calls).revisions :: AtLeast(r, FrontierOf(calls))
  {
    if calls != [] {
      var front, last := calls[..|calls| - 1], calls[|calls| - 1];
      assert forall k | 0 <= k < |front| :: calls[..k] == front[..k];
      TrackedIsAhead(front);
      if last.Complete? {
        SettleIsMaximal(After(front).(completed := After(front).completed + {last.id}));
      }
    }
  }

  lemma FrontierNeverRegresses(calls: seq<Call>)
    requires calls != [] && Forward(calls) && Returned(calls).Some?
    ensures AtLeast(Returned(calls).value, FrontierOf(calls[..|calls| - 1]))
  {
    var front, last := calls[..|calls| - 1], calls[|calls| - 1];
    assert forall k | 0 <= k < |front| :: calls[..k] == front[..k];
    TrackedIsAhead(front);
    SettleIsMaximal(After(front).(completed := After(front).completed + {last.id}));
  }

  /** The object participants share. */
  class CompletionState {
    var revisions: map<Revision, set<Id>>
    var completed: set<Id>
    var frontier: Option<Revision>

    function Value(): Tracked
      reads this
    {
      Tracked(revisions, completed)
    }

    constructor ()
      ensures Value() == After([]) && frontier == FrontierOf([])
    {
      revisions, completed, frontier := map[], {}, None;
    }

    method Observe(r: Revision, ids: seq<Id>)
      modifies this
      ensures Value() == Observed(old(Value()), r, set id | id in ids) && frontier == old(frontier)
    {
      var entry := if r in revisions then revisions[r] else {};
      revisions := revisions[r := entry + set id | id in ids];
    }

    method Complete(id: Id) returns (result: Option<Revision>)
      modifies this
      ensures (Value(), result) == Completed(old(Value()), id)
      ensures frontier == if result.Some? then result else old(frontier)
    {
      completed := completed + {id};
      ghost var start := Value();
      result := None;
      while revisions != map[] && revisions[Least(revisions.Keys)] <= completed
        invariant frontier == old(frontier)
        invariant Settle(start).0 == Settle(Value()).0
        invariant Settle(start).1 == if Settle(Value()).1.Some? then Settle(Value()).1 else result
        decreases |revisions|
      {
        var r := Least(revisions.Keys);
        var ids := revisions[r];
        ghost var before := Value();
        revisions := revisions - {r};
        result := Some(r);
        var left := ids;
        ghost var kept := completed;
        while left != {}
          invariant left <= ids && revisions == before.revisions - {r} && frontier == old(frontier)
          invariant completed == set x | x in kept && (x !in ids || x in left || Mentions(revisions, x))
          decreases |left|
        {
          var x := Least(left);
          if !Mentions(revisions, x) {
            completed := completed - {x};
          }
          left := left - {x};
        }
        assert Value() == Popped(before);
      }
      if result.Some? {
        frontier := result;
      }
    }
  }
}
