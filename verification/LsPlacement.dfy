/** The best-possible assignment of LeaderStandby in closed form: who leads, and who stands by. */
module LsPlacement {
  import opened Types
  import opened Ordering
  import opened BestPossible
  import LeaderStandby

  function Rank(s: State): nat {
    match s
    case Leader => 0
    case Standby => 1
    case Offline => 2
    case Dropped => 3
    case _ => 4
  }

  function RankOf(current: Replicas, i: InstanceId): nat {
    if i in current then Rank(current[i]) else 4
  }

  /** Holding LEADER or STANDBY. */
  predicate Warm(current: Replicas, i: InstanceId) {
    i in current && (current[i] == Leader || current[i] == Standby)
  }

  /** The first instance among those with the best current state. */
  ghost predicate IsWarmest(active: seq<InstanceId>, current: Replicas, k: nat) {
    && k < |active|
    && (forall i | 0 <= i < |active| :: RankOf(current, active[k]) <= RankOf(current, active[i]))
    && (forall i | 0 <= i < k :: RankOf(current, active[i]) > RankOf(current, active[k]))
  }

  function Warmest(active: seq<InstanceId>, current: Replicas): (k: nat)
    requires active != []
    ensures IsWarmest(active, current, k)
  {
    if |active| == 1 then 0
    else
      var k := Warmest(active[..|active| - 1], current);
      if RankOf(current, active[|active| - 1]) < RankOf(current, active[k]) then |active| - 1 else k
  }

  /** The first live preferred instance leads if it is warm or alone; otherwise the warmest one does. */
  function LeaderOf(active: seq<InstanceId>, current: Replicas): (leader: InstanceId)
    requires active != []
    ensures leader in active
  {
    if |active| == 1 || Warm(current, active[0]) then active[0] else active[Warmest(active, current)]
  }

  function Placement(active: seq<InstanceId>, current: Replicas): Replicas {
    map i | i in active :: if i == LeaderOf(active, current) then Leader else Standby
  }

  // The general assignment loop computes exactly this.

  lemma RankIsPriority(q: Request, i: InstanceId)
    requires q.model == LeaderStandby.Model()
    ensures q.Priority(i) == RankOf(q.current, i)
  {
    LeaderStandby.LsPositions();
    assert |LeaderStandby.LsStates()| == 4;
    if i in q.current && Rank(q.current[i]) == 4 {
      assert q.current[i] !in LeaderStandby.LsStates();
    }
  }

  lemma RankedHead(q: Request, active: seq<InstanceId>)
    requires q.model == LeaderStandby.Model() && active != []
    ensures Ranked(q, active) != [] && Ranked(q, active)[0] == active[Warmest(active, q.current)]
  {
    var le := (a: InstanceId, b: InstanceId) => q.Priority(a) <= q.Priority(b);
    var k := Warmest(active, q.current);
    forall i
      ensures q.Priority(i) == RankOf(q.current, i)
    {
      RankIsPriority(q, i);
    }
    hide RankOf, SortBy, Warmest;
    SortHead(le, active, k);
  }

  lemma SecondTopIsStandby(q: Request, s: State)
    requires q.model == LeaderStandby.Model()
    ensures q.model.states != [] && q.model.Top() == Leader
    ensures q.SecondTop(s) <==> s == Standby
  {
    LeaderStandby.HopIsNextToward(s, Leader);
  }

  /** The top state goes to the chosen leader. */
  lemma TopGoesToLeader(q: Request, active: seq<InstanceId>, f: Fill)
    requires q.model == LeaderStandby.Model() && q.candidates == |active| && active != []
    requires f == Fill(active, Ranked(q, active), map[])
    ensures q.model.states != []
    ensures FillState(q, f, Leader, 1).placed == map[LeaderOf(active, q.current) := Leader]
  {
    SecondTopIsStandby(q, q.CurrentOr(active[0]));
    RankedHead(q, active);
    var (chosen, ranked) := Adjust(q, f, Leader, 1);
    assert chosen == LeaderOf(active, q.current);
    var queue := if chosen == active[0] then active[1..] else active;
    assert FillState(q, f, Leader, 1) == FillState(q, Fill(queue, ranked, map[][chosen := Leader]), Leader, 0);
  }

  lemma StandbyTakesTheRest(active: seq<InstanceId>, current: Replicas, g: Fill, wanted: nat)
    requires active != [] && Distinct(active) && wanted >= |active|
    requires Fills(Elements(active), map[LeaderOf(active, current) := Leader], g, Standby, wanted)
    ensures g.placed == Placement(active, current)
  {
    var first := map[LeaderOf(active, current) := Leader];
    assert first.Keys == {LeaderOf(active, current)};
    DistinctSize(active);
    SubsetSize(g.placed.Keys, Elements(active));
    assert g.placed.Keys == Elements(active);
  }

  lemma WantedByLs(q: Request)
    requires q.model == LeaderStandby.Model()
    ensures q.Wanted(Leader) == 1 && q.Wanted(Standby) == q.replicas && q.Wanted(Offline) == 0 && q.Wanted(Dropped) == 0
  {
  }

  lemma FillLsStates(q: Request, f: Fill)
    requires q.model == LeaderStandby.Model()
    ensures q.model.states != []
    ensures FillStates(q, f, q.model.states) == FillState(q, FillState(q, f, Leader, 1), Standby, q.replicas)
  {
    hide FillState;
    WantedByLs(q);
    var f1 := FillState(q, f, Leader, 1);
    var f2 := FillState(q, f1, Standby, q.replicas);
    FillStateStops(q, f2, Offline, 0);
    FillStateStops(q, f2, Dropped, 0);
    var states := q.model.states;
    assert states[1..] == [Standby, Offline, Dropped];
    assert states[1..][1..] == [Offline, Dropped];
    assert states[1..][1..][1..] == [Dropped];
    assert FillStates(q, f2, [Dropped]) == f2;
    assert FillStates(q, f2, [Offline, Dropped]) == f2 by {
      assert [Offline, Dropped][1..] == [Dropped];
    }
  }

  /** Under LeaderStandby the general assignment is the closed form. */
  lemma AssignedIsPlacement(current: Replicas, preferred: seq<InstanceId>, live: set<InstanceId>)
    requires Distinct(preferred)
    ensures LeaderStandby.Model().states != []
    ensures Assigned(LeaderStandby.Model(), current, preferred, live) == Placement(LivePreferred(preferred, live),
        current)
  {
    var q, active := RequestFor(LeaderStandby.Model(), current, preferred, live), LivePreferred(preferred, live);
    var f := Fill(active, Ranked(q, active), map[]);
    FillLsStates(q, f);
    StartKeeps(q, active);
    FillStateExact(q, Elements(active), f, Leader, 1);
    var f1 := FillState(q, f, Leader, 1);
    FillStateExact(q, Elements(active), f1, Standby, q.replicas);
    if active == [] {
      FillStateStops(q, f, Leader, 1);
      FillStateStops(q, f, Standby, q.replicas);
      assert Placement(active, current) == map[];
    } else {
      TopGoesToLeader(q, active, f);
      StandbyTakesTheRest(active, current, FillState(q, f1, Standby, q.replicas), q.replicas);
    }
  }

  // The same on the preference list itself.

  /** The first live position of a preference list. */
  ghost predicate FirstLive(list: seq<InstanceId>, live: set<InstanceId>, k: nat) {
    k < |list| && list[k] in live && forall j | 0 <= j < k :: list[j] !in live
  }

  /** The first of the live positions whose replicas have the best current state. */
  ghost predicate WarmestLive(list: seq<InstanceId>, live: set<InstanceId>, current: Replicas, k: nat) {
    && k < |list| && list[k] in live
    && (forall j | 0 <= j < |list| && list[j] in live :: RankOf(current, list[k]) <= RankOf(current, list[j]))
    && (forall j | 0 <= j < k && list[j] in live :: RankOf(current, list[j]) > RankOf(current, list[k]))
  }

  /** The position that leads: the first live one if it is warm, otherwise the warmest live one. */
  ghost predicate LeadsList(list: seq<InstanceId>, live: set<InstanceId>, current: Replicas, k: nat) {
    if exists f: nat :: FirstLive(list, live, f) && Warm(current, list[f]) then FirstLive(list, live, k)
    else WarmestLive(list, live, current, k)
  }

  lemma FirstIsFirst(list: seq<InstanceId>, live: set<InstanceId>, positions: seq<nat>, found: seq<InstanceId>, k: nat)
    requires LiveAt(list, live, positions, found)
    ensures FirstLive(list, live, k) <==> positions != [] && positions[0] == k
  {
    if FirstLive(list, live, k) {
      var a := LivePlace(list, live, positions, found, k);
      assert positions[0] in positions;
    }
    if positions != [] && positions[0] == k {
      assert positions[0] in positions;
      forall j | 0 <= j < k
        ensures list[j] !in live
      {
        assert j !in positions;
      }
    }
  }

  lemma WarmestIsWarmest(list: seq<InstanceId>, live: set<InstanceId>, current: Replicas, positions: seq<nat>,
                         found: seq<InstanceId>, w: nat)
    requires LiveAt(list, live, positions, found) && IsWarmest(found, current, w)
    ensures forall k: nat :: WarmestLive(list, live, current, k) <==> k == positions[w]
  {
    hide RankOf;
    assert positions[w] in positions;
    forall j | 0 <= j < |list| && list[j] in live
      ensures RankOf(current, list[positions[w]]) <= RankOf(current, list[j])
      ensures j < positions[w] ==> RankOf(current, list[j]) > RankOf(current, list[positions[w]])
    {
      var a := LivePlace(list, live, positions, found, j);
      assert found[w] == list[positions[w]];
    }
  }

  /** Under LeaderStandby every live position of a preference list has a state: LEADER at the first live
      position if that replica is warm and otherwise at the warmest, the first of equals; STANDBY elsewhere. */
  lemma AssignedOnList(current: Replicas, list: seq<InstanceId>, live: set<InstanceId>, k: nat)
    requires Distinct(list) && k < |list|
    ensures LeaderStandby.Model().states != []
    ensures var placed := Assigned(LeaderStandby.Model(), current, list, live);
            && (list[k] in placed <==> list[k] in live)
            && (list[k] in live ==> placed[list[k]] == if LeadsList(list, live, current, k) then Leader else Standby)
  {
    hide Assigned, LeaderStandby.Model, LiveAt, LeadsList;
    AssignedIsPlacement(current, list, live);
    if list[k] in live {
      var positions := LivePositions(list, live);
      var active := LivePreferred(list, live);
      hide LivePreferred;
      var a := LivePlace(list, live, positions, active, k);
      LeadsAt(list, live, current, positions, active, a);
    }
  }

  lemma LeadsAt(list: seq<InstanceId>, live: set<InstanceId>, current: Replicas, positions: seq<nat>,
                found: seq<InstanceId>, a: nat)
    requires LiveAt(list, live, positions, found) && Distinct(found) && a < |positions|
    ensures LeadsList(list, live, current, positions[a]) <==> found[a] == LeaderOf(found, current)
  {
    var w := Warmest(found, current);
    WarmestIsWarmest(list, live, current, positions, found, w);
    forall f: nat
      ensures FirstLive(list, live, f) <==> f == positions[0]
    {
      FirstIsFirst(list, live, positions, found, f);
    }
    hide FirstLive, WarmestLive, Warm, RankOf, Warmest;
    assert FirstLive(list, live, positions[0]);
    assert found[0] == list[positions[0]] && found[w] == list[positions[w]];
    assert |found| == 1 ==> w == 0;
    assert forall b | 0 <= b < |found| && found[b] == found[a] :: b == a;
    assert positions[a] == positions[0] ==> a == 0;
    assert positions[a] == positions[w] ==> a == w;
    if Warm(current, found[0]) {
      assert FirstLive(list, live, positions[0]) && Warm(current, list[positions[0]]);
    }
  }

  lemma WarmestIsWarm(active: seq<InstanceId>, current: Replicas, i: InstanceId)
    requires i in active && Warm(current, i)
    ensures Warm(current, LeaderOf(active, current))
  {
    var j :| 0 <= j < |active| && active[j] == i;
  }

  /** LEADER never goes to a cold replica while a live preferred one is LEADER or STANDBY. */
  lemma LeaderIsWarm(current: Replicas, preferred: seq<InstanceId>, live: set<InstanceId>, leader: InstanceId,
                     i: InstanceId)
    requires Distinct(preferred) && i in preferred && i in live && Warm(current, i)
    requires LeaderStandby.Model().states != []
    requires var placed := Assigned(LeaderStandby.Model(), current, preferred, live);
             leader in placed && placed[leader] == Leader
    ensures Warm(current, leader)
  {
    hide Assigned, LeaderOf, LeaderStandby.Model;
    AssignedIsPlacement(current, preferred, live);
    WarmestIsWarm(LivePreferred(preferred, live), current, i);
  }
}
