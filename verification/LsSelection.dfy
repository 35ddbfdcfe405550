/** What selection admits under LeaderStandby: every step except a promotion, and a promotion
    only when nothing in the partition leads, is becoming a leader or is ceasing to be one. */
module LsSelection {
  import opened Types
  import opened Ordering
  import opened Selection
  import LeaderStandby

  ghost predicate LeaderFree(live: set<InstanceId>, current: Replicas, pending: seq<Transition>) {
    && (forall i | i in live && i in current :: current[i] != Leader)
    && (forall t | t in pending :: t.to != Leader && t.from != Leader)
  }

  lemma LsBounds(n: nat)
    ensures Bounds(LeaderStandby.Model(), n) == map[Leader := 1]
  {
    var m := LeaderStandby.Model();
    assert m.states[0] == Leader;
    assert forall s ::
      s in m.cardinalities && (m.cardinalities[s].Exact? || m.cardinalities[s].NodeCount?) <==> s == Leader;
  }

  lemma ObservedLeader(live: set<InstanceId>, current: Replicas, pending: seq<Transition>)
    ensures Leader in Observed(LeaderStandby.Model(), live, current, pending) <==> !LeaderFree(live, current, pending)
  {
    var m := LeaderStandby.Model();
    InLiveStates(m, SortedKeys(live), current, Leader);
    InPendingStates(pending, Leader);
  }

  lemma OnePromotion(selected: seq<Transition>, a: Transition, b: Transition)
    requires Distinct(selected) && a in selected && b in selected && a.to == b.to == Leader
    requires Occurrences(Targets(selected), Leader) <= 1
    ensures a == b
  {
    var i :| 0 <= i < |selected| && selected[i] == a;
    var j :| 0 <= j < |selected| && selected[j] == b;
    if i != j {
      TargetsAt(selected, i);
      TargetsAt(selected, j);
      TwiceInMultiset(Targets(selected), if i < j then i else j, if i < j then j else i);
    }
  }

  lemma {:induction false} TargetsAt(transitions: seq<Transition>, k: nat)
    requires k < |transitions|
    ensures |Targets(transitions)| == |transitions| && Targets(transitions)[k] == transitions[k].to
  {
    if k < |transitions| - 1 {
      TargetsAt(transitions[..|transitions| - 1], k);
    } else if |transitions| > 1 {
      TargetsAt(transitions[..|transitions| - 1], 0);
    }
  }

  /** The tally behind one partition's choice. */
  ghost predicate LsTally(live: set<InstanceId>, current: Replicas, pending: seq<Transition>,
                          candidates: seq<Transition>, tally: Tally)
  {
    && tally.selected == Chosen(LeaderStandby.Model(), live, current, pending, candidates)
    && (forall t | t in tally.selected :: t in candidates)
    && (forall t | t in candidates && t !in tally.selected :: t.to == Leader && Count(tally.counts, Leader) >= 1)
    && Count(tally.counts, Leader)
         == Occurrences(Observed(LeaderStandby.Model(), live, current, pending),
                        Leader) + Occurrences(Targets(tally.selected), Leader)
    && (Leader in Targets(tally.selected) ==> Count(tally.counts, Leader) <= 1)
  }

  lemma ChosenUnfolds(live: set<InstanceId>, current: Replicas, pending: seq<Transition>, candidates: seq<Transition>)
    ensures var m := LeaderStandby.Model();
            Chosen(m, live, current, pending, candidates)
            == Greedy(map[Leader := 1], CountAll(map[Leader := 1], Observed(m, live, current, pending)),
                      Prioritized(m, candidates)).selected
  {
    hide Greedy, CountAll, Observed, Prioritized, LeaderStandby.Model;
    LsBounds(|live|);
  }

  lemma ChosenTally(live: set<InstanceId>, current: Replicas, pending: seq<Transition>, candidates: seq<Transition>)
    returns (tally: Tally)
    ensures LsTally(live, current, pending, candidates, tally)
  {
    hide Greedy, CountAll, Observed, Prioritized, Bounds, LeaderStandby.Model, Chosen, Distinct;
    var m, bounds: Counts := LeaderStandby.Model(), map[Leader := 1];
    var observed := Observed(m, live, current, pending);
    var counts := CountAll(bounds, observed);
    tally := Greedy(bounds, counts, Prioritized(m, candidates));
    ChosenUnfolds(live, current, pending, candidates);
    CountAllCounts(bounds, observed, Leader);
    PrioritizedPermutes(m, candidates);
    GreedyAdmissible(bounds, counts, Prioritized(m, candidates));
  }

  /** Exactly which steps of a partition are selected. */
  lemma LsChosen(live: set<InstanceId>, current: Replicas, pending: seq<Transition>, candidates: seq<Transition>)
    ensures var chosen := Chosen(LeaderStandby.Model(), live, current, pending, candidates);
            && (forall t | t in candidates && t.to != Leader :: t in chosen)
            && (forall t | t in chosen && t.to == Leader :: LeaderFree(live, current, pending))
            && (Distinct(candidates) ==> forall a, b | a in chosen && b in chosen && a.to == b.to == Leader :: a == b)
            && (LeaderFree(live, current, pending) ==>
                  forall t | t in candidates && t.to == Leader :: exists c :: c in chosen && c.to == Leader)
  {
    var tally := ChosenTally(live, current, pending, candidates);
    var chosen := tally.selected;
    ObservedLeader(live, current, pending);
    InTargets(chosen, Leader);
    hide Chosen, Observed, Targets, LeaderFree;
    if Distinct(candidates) {
      ChosenFrom(LeaderStandby.Model(), live, current, pending, candidates);
      forall a, b | a in chosen && b in chosen && a.to == b.to == Leader
        ensures a == b
      {
        assert Leader in Targets(chosen);
        OnePromotion(chosen, a, b);
      }
    }
    if LeaderFree(live, current, pending) {
      forall t | t in candidates && t.to == Leader
        ensures exists c :: c in chosen && c.to == Leader
      {
        if t in chosen {
        } else {
          assert Occurrences(Targets(chosen), Leader) >= 1;
          assert Leader in multiset(Targets(chosen));
        }
      }
    }
  }
}
