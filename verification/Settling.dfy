/** One partition between two changes of its inputs: how dispatching and completing transitions
    bring it to rest. */
module Settling {
  import opened Types
  import opened LsPlacement
  import opened Pipeline
  import LeaderStandby

  /** The live preferred instances in order, the state of every replica, and the target of every
      transition in flight. */
  datatype View = View(active: seq<InstanceId>, cur: Replicas, pend: Replicas)

  predicate Serving(s: State) {
    s == Leader || s == Standby || s == Offline
  }

  /** What a transition in flight may be. */
  ghost predicate Kind(v: View, i: InstanceId, to: State)
    requires i in v.cur
  {
    if i in v.active then
      || (v.cur[i] == Offline && to == Standby)
      || (v.cur[i] == Standby && to == Leader)
      || (v.cur[i] == Leader && to == Standby && i != v.active[0])
    else LeaderStandby.Hop(v.cur[i], Dropped) == Some(to)
  }

  ghost predicate Cold(v: View) {
    v.active != [] && v.active[0] in v.cur && v.cur[v.active[0]] == Offline
  }

  /** The first of the live preferred replicas that lead. */
  ghost predicate FirstLeader(v: View, k: nat) {
    && k < |v.active|
    && v.active[k] in v.cur && v.cur[v.active[k]] == Leader
    && (forall j | 0 <= j < k :: v.active[j] in v.cur && v.cur[v.active[j]] != Leader)
  }

  ghost predicate NoLeader(cur: Replicas) {
    forall i | i in cur :: cur[i] != Leader
  }

  ghost predicate Shape(v: View) {
    && Distinct(v.active)
    && (forall i | i in v.active :: i in v.cur)
    && (forall i | i in v.cur :: Serving(v.cur[i]))
    && v.pend.Keys <= v.cur.Keys
  }

  ghost predicate Inv(v: View) {
    && Shape(v)
    && (forall i | i in v.pend :: Kind(v, i, v.pend[i]))
    && (forall i | i in v.pend && v.pend[i] == Leader :: NoLeader(v.cur))
    && (forall i, j | i in v.pend && j in v.pend && v.pend[i] == v.pend[j] == Leader :: i == j)
    && (Cold(v) ==> forall k: nat | FirstLeader(v, k) :: v.active[k] !in v.pend)
  }

  // The measure.

  function Weight(v: View, i: InstanceId): nat {
    if i !in v.cur then 0
    else if i !in v.active then
      (match v.cur[i] case Leader => 3 case Standby => 2 case _ => 1)
    else if i == v.active[0] then
      (match v.cur[i] case Leader => 0 case Standby => 1 case _ => 2)
    else
      (match v.cur[i] case Standby => 0 case _ => 1)
  }

  function WeightOver(v: View, keys: seq<InstanceId>): nat {
    if keys == [] then 0 else WeightOver(v, keys[..|keys| - 1]) + Weight(v, keys[|keys| - 1])
  }

  predicate ActiveLeader(v: View) {
    exists i :: i in v.active && i in v.cur && v.cur[i] == Leader
  }

  /** Some other preferred replica is on its way to lead. */
  predicate Detour(v: View) {
    v.active != [] && exists i :: i in v.pend && i in v.active && i != v.active[0] && v.pend[i] == Leader
  }

  function Bonus(v: View): nat {
    if v.active == [] || v.active[0] !in v.cur then 0
    else if v.cur[v.active[0]] == Offline then (if ActiveLeader(v) then 0 else 2)
    else if Detour(v) then 2 else 0
  }

  /** The transitions still to come, at most. */
  function Measure(v: View, keys: seq<InstanceId>): nat {
    WeightOver(v, keys) + Bonus(v)
  }

  lemma {:induction false} MeasureIsLinear(v: View, keys: seq<InstanceId>)
    ensures WeightOver(v, keys) <= 3 * |keys|
    ensures Measure(v, keys) <= 3 * |keys| + 2
  {
    if keys != [] {
      MeasureIsLinear(v, keys[..|keys| - 1]);
    }
  }

  lemma {:induction false} WeightMoves(v: View, w: View, keys: seq<InstanceId>, i: InstanceId)
    requires Distinct(keys) && forall j | j != i :: Weight(w, j) == Weight(v, j)
    ensures WeightOver(w, keys) + (if i in keys then Weight(v, i) else 0) == WeightOver(v,
        keys) + (if i in keys then Weight(w, i) else 0)
  {
    if keys != [] {
      var front, last := keys[..|keys| - 1], keys[|keys| - 1];
      WeightMoves(v, w, front, i);
      assert keys == front + [last] && last !in front;
    }
  }

  // Dispatching: some transitions in flight are kept and some that are due are added.

  ghost predicate Dispatches(v: View, kept: Replicas, w: View) {
    && w.active == v.active && w.cur == v.cur && w.pend.Keys <= w.cur.Keys
    && (forall i | i in kept :: i in v.pend && kept[i] == v.pend[i])
    && (forall i | i in w.pend :: (i in kept && w.pend[i] == kept[i]) || Fresh(v, kept, i, w.pend[i]))
  }

  ghost predicate Fresh(v: View, kept: Replicas, i: InstanceId, to: State)
    requires i in v.cur
  {
    && LeaderStandby.Hop(v.cur[i], Target(v.active, v.cur, i)) == Some(to)
    && (to == Leader ==> NoLeader(v.cur) && forall j | j in kept :: kept[j] != Leader)
  }

  lemma LeaderWhenWarm(v: View)
    requires Shape(v) && v.active != [] && v.cur[v.active[0]] != Offline
    ensures LeaderOf(v.active, v.cur) == v.active[0]
  {
  }

  lemma LeaderWhenCold(v: View, k: nat)
    requires Shape(v) && Cold(v) && FirstLeader(v, k)
    ensures LeaderOf(v.active, v.cur) == v.active[k]
  {
    if |v.active| > 1 {
      var w := Warmest(v.active, v.cur);
      assert RankOf(v.cur, v.active[k]) == 0;
      assert RankOf(v.cur, v.active[w]) == 0;
    }
  }

  lemma FreshKind(v: View, kept: Replicas, i: InstanceId, to: State)
    requires Shape(v) && i in v.cur && Fresh(v, kept, i, to)
    ensures Kind(v, i, to)
    ensures to == Leader ==> i in v.active && i == LeaderOf(v.active, v.cur)
    ensures Cold(v) ==> forall k: nat | FirstLeader(v, k) :: v.active[k] != i
    ensures v.active != [] && !Cold(v) && to == Leader ==> i == v.active[0]
  {
    if v.active != [] && v.cur[v.active[0]] != Offline {
      LeaderWhenWarm(v);
    }
    if Cold(v) {
      forall k: nat | FirstLeader(v, k)
        ensures v.active[k] != i
      {
        LeaderWhenCold(v, k);
      }
    }
  }

  /** Dispatching keeps the invariant. */
  lemma DispatchKeeps(v: View, kept: Replicas, w: View)
    requires Inv(v) && Dispatches(v, kept, w)
    ensures Inv(w)
  {
    hide LeaderOf, Target;
    forall i | i in w.pend
      ensures Kind(w, i, w.pend[i])
      ensures w.pend[i] == Leader ==> NoLeader(w.cur)
      ensures Cold(w) ==> forall k: nat | FirstLeader(w, k) :: v.active[k] != i
    {
      if !(i in kept && w.pend[i] == kept[i]) {
        FreshKind(v, kept, i, w.pend[i]);
      }
    }
    forall i, j | i in w.pend && j in w.pend && w.pend[i] == w.pend[j] == Leader
      ensures i == j
    {
      if !(i in kept && w.pend[i] == kept[i]) {
        FreshKind(v, kept, i, w.pend[i]);
      }
      if !(j in kept && w.pend[j] == kept[j]) {
        FreshKind(v, kept, j, w.pend[j]);
      }
    }
  }

  /** Dispatching never raises the measure. */
  lemma DispatchKeepsMeasure(v: View, kept: Replicas, w: View, keys: seq<InstanceId>)
    requires Inv(v) && Dispatches(v, kept, w)
    ensures Measure(w, keys) <= Measure(v, keys)
  {
    SameWeights(v, w, keys);
    if Detour(w) && v.active[0] in v.cur && v.cur[v.active[0]] != Offline {
      var i :| i in w.pend && i in w.active && i != w.active[0] && w.pend[i] == Leader;
      if !(i in kept && w.pend[i] == kept[i]) {
        FreshKind(v, kept, i, w.pend[i]);
      }
    }
  }

  lemma {:induction false} SameWeights(v: View, w: View, keys: seq<InstanceId>)
    requires w.active == v.active && w.cur == v.cur
    ensures WeightOver(w, keys) == WeightOver(v, keys)
  {
    if keys != [] {
      SameWeights(v, w, keys[..|keys| - 1]);
    }
  }

  // Completing.

  function Completed(v: View, i: InstanceId): View
    requires i in v.pend
  {
    View(v.active, if v.pend[i] == Dropped then v.cur - {i} else v.cur[i := v.pend[i]], v.pend - {i})
  }

  lemma CompletionShape(v: View, i: InstanceId)
    requires Inv(v) && i in v.pend
    ensures Shape(Completed(v, i))
    ensures forall j | j in v.pend && j != i :: Kind(Completed(v, i), j, v.pend[j])
  {
    assert Kind(v, i, v.pend[i]);
    forall j | j in v.pend && j != i
      ensures Kind(Completed(v, i), j, v.pend[j])
    {
      assert Kind(v, j, v.pend[j]);
    }
  }

  lemma CompletionFirstLeader(v: View, i: InstanceId, k: nat)
    requires Inv(v) && i in v.pend && Cold(Completed(v, i)) && FirstLeader(Completed(v, i), k)
    ensures v.active[k] !in v.pend - {i}
  {
    var w := Completed(v, i);
    assert Kind(v, i, v.pend[i]);
    assert v.active[0] != i;
    assert Cold(v);
    if v.active[k] != i && v.pend[i] != Leader {
      FirstLeaderBefore(v, i, k);
    }
  }

  lemma FirstLeaderBefore(v: View, i: InstanceId, k: nat)
    requires Inv(v) && i in v.pend && v.pend[i] != Leader && Cold(v) && FirstLeader(Completed(v, i), k)
             && v.active[k] != i
    ensures FirstLeader(v, k)
  {
    var w := Completed(v, i);
    assert Kind(v, i, v.pend[i]);
    forall j | 0 <= j < k
      ensures v.cur[v.active[j]] != Leader
    {
      if v.active[j] == i && v.cur[i] == Leader {
        EarlierLeaderPending(v, j, k);
      }
    }
  }

  /** With the first preferred replica cold, the first leader among the others is never in flight. */
  lemma EarlierLeaderPending(v: View, j: nat, k: nat)
    requires Inv(v) && Cold(v) && j < k < |v.active| && v.cur[v.active[j]] == Leader && v.active[j] in v.pend
    ensures exists h: nat :: h < j && v.cur[v.active[h]] == Leader
  {
    if forall h: nat | h < j :: v.cur[v.active[h]] != Leader {
      assert FirstLeader(v, j);
    }
  }

  /** Completing a transition keeps the invariant. */
  lemma CompletionKeeps(v: View, i: InstanceId)
    requires Inv(v) && i in v.pend
    ensures Inv(Completed(v, i))
  {
    var w := Completed(v, i);
    CompletionShape(v, i);
    assert Kind(v, i, v.pend[i]);
    forall k: nat | Cold(w) && FirstLeader(w, k)
      ensures w.active[k] !in w.pend
    {
      CompletionFirstLeader(v, i, k);
    }
    forall j | j in w.pend && w.pend[j] == Leader
      ensures NoLeader(w.cur)
    {
      assert NoLeader(v.cur);
    }
  }

  lemma CompletionBonus(v: View, i: InstanceId)
    requires Inv(v) && i in v.pend
    ensures Bonus(Completed(v, i)) + Weight(Completed(v, i), i) < Bonus(v) + Weight(v, i)
  {
    assert Kind(v, i, v.pend[i]);
    if v.active != [] {
      if i == v.active[0] {
        FirstCompletes(v, i);
      } else if i in v.active {
        OtherCompletes(v, i);
      } else {
        UnpreferredCompletes(v, i);
      }
    }
  }

  lemma UnpreferredCompletes(v: View, i: InstanceId)
    requires Inv(v) && i in v.pend && i !in v.active && v.active != []
    ensures Bonus(Completed(v, i)) == Bonus(v)
    ensures Weight(Completed(v, i), i) < Weight(v, i)
  {
    var w := Completed(v, i);
    assert Kind(v, i, v.pend[i]);
    assert ActiveLeader(w) <==> ActiveLeader(v) by {
      if j :| j in v.active && v.cur[j] == Leader {
        assert w.cur[j] == Leader;
      }
      if j :| j in w.active && j in w.cur && w.cur[j] == Leader {
        assert v.cur[j] == Leader;
      }
    }
    assert Detour(w) <==> Detour(v) by {
      if j :| j in v.pend && j in v.active && j != v.active[0] && v.pend[j] == Leader {
        assert j in w.pend && w.pend[j] == Leader;
      }
    }
  }

  lemma FirstCompletes(v: View, i: InstanceId)
    requires Inv(v) && i in v.pend && v.active != [] && i == v.active[0]
    ensures Bonus(Completed(v, i)) <= Bonus(v)
    ensures Weight(Completed(v, i), i) < Weight(v, i)
  {
    var w := Completed(v, i);
    assert Kind(v, i, v.pend[i]);
    if Detour(w) {
      var j :| j in w.pend && j in w.active && j != w.active[0] && w.pend[j] == Leader;
      assert j in v.pend && v.pend[j] == Leader;
      assert NoLeader(v.cur);
      assert !ActiveLeader(v);
    }
  }

  lemma OtherCompletes(v: View, i: InstanceId)
    requires Inv(v) && i in v.pend && i in v.active && i != v.active[0]
    ensures Bonus(Completed(v, i)) + Weight(Completed(v, i), i) < Bonus(v) + Weight(v, i)
  {
    var w := Completed(v, i);
    assert Kind(v, i, v.pend[i]);
    assert w.cur[v.active[0]] == v.cur[v.active[0]];
    if v.pend[i] == Leader {
      PromotionCompletes(v, i);
    } else if v.cur[i] == Leader {
      DemotionCompletes(v, i);
    } else {
      assert ActiveLeader(v) ==> ActiveLeader(w) by {
        if j :| j in v.active && v.cur[j] == Leader {
          assert w.cur[j] == Leader;
        }
      }
      DetourShrinks(v, i);
    }
  }

  lemma DetourShrinks(v: View, i: InstanceId)
    requires i in v.pend
    ensures Detour(Completed(v, i)) ==> Detour(v)
  {
    var w := Completed(v, i);
    if Detour(w) {
      var j :| j in w.pend && j in w.active && j != w.active[0] && w.pend[j] == Leader;
      assert j in v.pend;
    }
  }

  lemma PromotionCompletes(v: View, i: InstanceId)
    requires Inv(v) && i in v.pend && i in v.active && i != v.active[0] && v.pend[i] == Leader
    ensures Bonus(v) == 2 && Bonus(Completed(v, i)) == 0
  {
    var w := Completed(v, i);
    assert NoLeader(v.cur);
    assert !ActiveLeader(v);
    assert Detour(v);
    assert w.cur[i] == Leader;
    assert ActiveLeader(w);
    assert forall j | j in w.pend :: w.pend[j] != Leader;
    assert !Detour(w);
  }

  lemma DemotionCompletes(v: View, i: InstanceId)
    requires Inv(v) && i in v.pend && i in v.active && i != v.active[0] && v.cur[i] == Leader && v.pend[i] == Standby
    ensures Bonus(Completed(v, i)) <= Bonus(v)
  {
    var w := Completed(v, i);
    DetourShrinks(v, i);
    if Cold(v) {
      var k := FirstLeaderIndex(v, i);
      assert v.active[k] !in v.pend;
      assert w.cur[v.active[k]] == Leader;
      assert ActiveLeader(w);
    }
  }

  lemma FirstLeaderIndex(v: View, i: InstanceId) returns (k: nat)
    requires Shape(v) && i in v.active && v.cur[i] == Leader
    ensures FirstLeader(v, k)
  {
    k := 0;
    while v.cur[v.active[k]] != Leader
      invariant k < |v.active| && forall j | 0 <= j < k :: v.cur[v.active[j]] != Leader
      decreases |v.active| - k
    {
      if k + 1 == |v.active| {
        var j :| 0 <= j < |v.active| && v.active[j] == i;
      }
      k := k + 1;
    }
  }

  /** Every completed transition lowers the measure. */
  lemma CompletionLowersMeasure(v: View, i: InstanceId, keys: seq<InstanceId>)
    requires Inv(v) && i in v.pend && Distinct(keys) && i in keys
    ensures Measure(Completed(v, i), keys) < Measure(v, keys)
  {
    WeightMoves(v, Completed(v, i), keys, i);
    CompletionBonus(v, i);
  }
}
