/** Intermediate state and operational throttling (`message_throttle.rs`). */
module Throttle {
  import opened Types
  import opened Ordering
  import opened StateModels
  import opened BestPossible
  import opened Selection
  import opened Quotas

  /** The inputs of one resource. */
  datatype ResourceInput = ResourceInput(
    resource: ResourceId,
    replicas: nat,
    minActive: Option<nat>,
    lists: map<PartitionId, seq<InstanceId>>,
    current: ReplicaStates,
    best: ReplicaStates,
    selected: seq<Transition>)

  function ListOf(input: ResourceInput, p: PartitionId): seq<InstanceId> {
    if p in input.lists then input.lists[p] else []
  }

  // How many replicas of each state a partition needs before more of it is mere balancing.

  datatype Need = Need(result: Counts, candidates: nat, replicas: nat)

  function FixedNeed(model: StateModel, n: Need, s: State): Need {
    if n.candidates == 0 || s !in model.cardinalities then n
    else match model.cardinalities[s]
      case Exact(count) =>
        if count == 0 then n
        else
          var k := Min(count, n.candidates);
          Need(n.result[s := k], n.candidates - k, Monus(n.replicas, k))
      case NodeCount => Need(n.result[s := n.candidates], 0, Monus(n.replicas, n.candidates))
      case _ => n
  }

  function FixedNeeds(model: StateModel, n: Need, states: seq<State>): Need {
    if states == [] then n else FixedNeed(model, FixedNeeds(model, n, states[..|states| - 1]), states[|states| - 1])
  }

  /** The first `R` state takes what candidates and replicas are left. */
  function ReplicaNeed(model: StateModel, n: Need, states: seq<State>): Counts {
    if states == [] then n.result
    else if states[0] in model.cardinalities && model.cardinalities[states[0]].ReplicaCount? && n.candidates > 0
        && n.replicas > 0
    then n.result[states[0] := Min(n.candidates, n.replicas)]
    else ReplicaNeed(model, n, states[1..])
  }

  function RequiredStates(input: ResourceInput, p: PartitionId, live: set<InstanceId>, model: StateModel): Counts {
    var start := Need(map[], |LivePreferred(ListOf(input, p), live)|,
                      if input.minActive.Some? then input.minActive.value else input.replicas);
    ReplicaNeed(model, FixedNeeds(model, start, model.states), model.states)
  }

  ghost predicate Positive(counts: Counts) {
    forall s | s in counts :: counts[s] > 0
  }

  lemma {:induction false} FixedNeedsPositive(model: StateModel, n: Need, states: seq<State>)
    requires Positive(n.result)
    ensures Positive(FixedNeeds(model, n, states).result)
  {
    if states != [] {
      FixedNeedsPositive(model, n, states[..|states| - 1]);
    }
  }

  lemma {:induction false} ReplicaNeedPositive(model: StateModel, n: Need, states: seq<State>)
    requires Positive(n.result)
    ensures Positive(ReplicaNeed(model, n, states))
  {
    if states != [] {
      ReplicaNeedPositive(model, n, states[1..]);
    }
  }

  lemma RequiredPositive(input: ResourceInput, p: PartitionId, live: set<InstanceId>, model: StateModel)
    ensures Positive(RequiredStates(input, p, live, model))
  {
    var start := Need(map[], |LivePreferred(ListOf(input, p), live)|,
                      if input.minActive.Some? then input.minActive.value else input.replicas);
    FixedNeedsPositive(model, start, model.states);
    ReplicaNeedPositive(model, FixedNeeds(model, start, model.states), model.states);
  }

  /** A step into a state the partition still lacks is recovery; any other is load balancing. */
  function RebalanceOf(required: Counts, replicas: Replicas, to: State): (ty: RebalanceType)
    ensures ty != Any
  {
    if to in required && required[to] > |Holders(replicas, to)| then Recovery else Load
  }

  // Orders of consideration.

  function ValuesOf(replicas: Replicas, keys: seq<InstanceId>): seq<State> {
    if keys == [] then []
    else ValuesOf(replicas,
                  keys[..|keys| - 1]) + (if keys[|keys| - 1] in replicas then [replicas[keys[|keys| - 1]]] else [])
  }

  /** How many of the states can be crossed off a list of wanted ones. */
  function CrossedOff(states: seq<State>, wanted: multiset<State>): nat {
    if states == [] then 0
    else if states[0] in wanted then 1 + CrossedOff(states[1..], wanted - multiset{states[0]})
    else CrossedOff(states[1..], wanted)
  }

  /** Partitions that have a replica in the top state come first, then those further from their target. */
  function PartitionKey(input: ResourceInput, top: State, p: PartitionId): (nat, nat, nat) {
    var current, best := ReplicasOf(input.current, p), ReplicasOf(input.best, p);
    (if Holders(current, top) == {} then 1 else 0,
     CrossedOff(ValuesOf(current, SortedKeys(current.Keys)), multiset(ValuesOf(best, SortedKeys(best.Keys)))),
     |set i | i in current && i in best && best[i] == current[i]|)
  }

  predicate PartitionLe(input: ResourceInput, top: State, a: PartitionId, b: PartitionId) {
    var (a0, a1, a2) := PartitionKey(input, top, a);
    var (b0, b1, b2) := PartitionKey(input, top, b);
    if a0 != b0 then a0 < b0 else if a1 != b1 then a1 < b1 else if a2 != b2 then a2 < b2 else a <= b
  }

  /** One plus the position on the preference list; zero when absent. */
  function Position(list: seq<InstanceId>, i: InstanceId): nat {
    if list == [] then 0
    else if list[0] == i then 1
    else var rest := Position(list[1..], i); if rest == 0 then 0 else 1 + rest
  }

  predicate MessageLe(input: ResourceInput, model: StateModel, a: Transition, b: Transition) {
    if a.to != b.to then IndexOf(model.states, a.to) <= IndexOf(model.states, b.to)
    else
      var x, y := Position(ListOf(input, a.partition), a.instance), Position(ListOf(input, b.partition), b.instance);
      x < y || (x == y && a.instance <= b.instance)
  }

  function PartitionOrder(input: ResourceInput, model: StateModel): seq<PartitionId>
    requires model.states != []
  {
    SortBy((a, b) => PartitionLe(input, model.Top(), a, b), SortedKeys(PartitionsOf(input.selected)))
  }

  /** One partition's share of some transitions, in message order. */
  function Sorted(input: ResourceInput, model: StateModel, transitions: seq<Transition>,
                  p: PartitionId): seq<Transition> {
    SortBy((a, b) => MessageLe(input, model, a, b), InPartition(transitions, p))
  }

  function MessageOrder(input: ResourceInput, model: StateModel, p: PartitionId): seq<Transition> {
    Sorted(input, model, input.selected, p)
  }

  // Dispatch. A dispatched transition is logged with the class it was charged under.

  datatype Dispatch = Dispatch(step: Transition, ty: RebalanceType)

  function ChargeOf(d: Dispatch): Charge {
    Charge(d.ty, d.step.resource, d.step.instance)
  }

  function ChargesOf(log: seq<Dispatch>): (r: seq<Charge>)
    ensures |r| == |log|
    ensures forall k | 0 <= k < |log| :: r[k] == ChargeOf(log[k])
  {
    seq(|log|, k requires 0 <= k < |log| => ChargeOf(log[k]))
  }

  function StepsIn(log: seq<Dispatch>): (r: seq<Transition>)
    ensures |r| == |log|
    ensures forall k | 0 <= k < |log| :: r[k] == log[k].step
  {
    seq(|log|, k requires 0 <= k < |log| => log[k].step)
  }

  datatype Progress = Progress(table: QuotaTable, derived: ReplicaStates, log: seq<Dispatch>)

  function Insert(states: ReplicaStates, t: Transition): ReplicaStates {
    states[t.partition := ReplicasOf(states, t.partition)[t.instance := t.to]]
  }

  function Consider(required: Counts, pending: seq<Transition>, pr: Progress, t: Transition): Progress {
    if t in pending then pr
    else
      var d := Dispatch(t, RebalanceOf(required, ReplicasOf(pr.derived, t.partition), t.to));
      if pr.table.Throttles(ChargeOf(d)) then pr
      else Progress(pr.table.After(ChargeOf(d)), Insert(pr.derived, t), pr.log + [d])
  }

  function ConsiderAll(required: Counts, pending: seq<Transition>, pr: Progress, steps: seq<Transition>): Progress {
    if steps == [] then pr
    else Consider(required, pending, ConsiderAll(required, pending, pr, steps[..|steps| - 1]), steps[|steps| - 1])
  }

  function ConsiderPartitions(input: ResourceInput, live: set<InstanceId>, model: StateModel, pending: seq<Transition>,
                              pr: Progress, partitions: seq<PartitionId>): Progress
  {
    if partitions == [] then pr
    else
      var p := partitions[|partitions| - 1];
      ConsiderAll(RequiredStates(input, p, live, model), pending,
                  ConsiderPartitions(input, live, model, pending, pr, partitions[..|partitions| - 1]),
                  MessageOrder(input, model, p))
  }

  function ConsiderResource(input: ResourceInput, live: set<InstanceId>, model: StateModel, pending: seq<Transition>,
                            table: QuotaTable): Progress
    requires model.states != []
  {
    ConsiderPartitions(input, live, model, pending, Progress(table, input.current, []), PartitionOrder(input, model))
  }

  lemma ConsiderAllNext(required: Counts, pending: seq<Transition>, pr: Progress, steps: seq<Transition>, k: nat)
    requires k < |steps|
    ensures ConsiderAll(required, pending, pr, steps[..k + 1])
         == Consider(required, pending, ConsiderAll(required, pending, pr, steps[..k]), steps[k])
  {
    assert steps[..k + 1][..k] == steps[..k];
  }

  lemma ConsiderPartitionsNext(input: ResourceInput, live: set<InstanceId>, model: StateModel, pending: seq<Transition>,
                               pr: Progress, partitions: seq<PartitionId>, k: nat)
    requires k < |partitions|
    ensures ConsiderPartitions(input, live, model, pending, pr, partitions[..k + 1])
         == ConsiderAll(RequiredStates(input, partitions[k], live, model), pending,
                        ConsiderPartitions(input, live, model, pending, pr, partitions[..k]),
                        MessageOrder(input, model, partitions[k]))
  {
    assert partitions[..k + 1][..k] == partitions[..k];
  }

  // What every stretch of dispatching does, whatever the order.

  /** From `a` to `b`, what was dispatched was admitted and charged step by step. */
  ghost predicate Paid(a: Progress, b: Progress) {
    && a.log <= b.log
    && b.table == a.table.AfterAll(ChargesOf(b.log[|a.log|..]))
    && Admitted(a.table, ChargesOf(b.log[|a.log|..]))
  }

  /** And it came from `steps`, none of it already pending. */
  ghost predicate Worked(pending: seq<Transition>, a: Progress, b: Progress, steps: set<Transition>) {
    Paid(a, b) && forall d | d in b.log[|a.log|..] :: d.step in steps && d.step !in pending && d.ty != Any
  }

  lemma WorkedNothing(pending: seq<Transition>, a: Progress)
    ensures Worked(pending, a, a, {})
  {
    assert ChargesOf(a.log[|a.log|..]) == [];
  }

  lemma AdmittedConcat(table: QuotaTable, x: seq<Charge>, y: seq<Charge>)
    requires Admitted(table, x) && Admitted(table.AfterAll(x), y)
    ensures Admitted(table, x + y)
  {
    forall k | 0 <= k < |x + y|
      ensures (x + y)[k].ty != Any && !table.AfterAll((x + y)[..k]).Throttles((x + y)[k])
    {
      if k < |x| {
        assert (x + y)[..k] == x[..k];
      } else {
        assert (x + y)[..k] == x + y[..k - |x|];
        AfterAllConcat(table, x, y[..k - |x|]);
      }
    }
  }

  lemma ChargesConcat(x: seq<Dispatch>, y: seq<Dispatch>)
    ensures ChargesOf(x + y) == ChargesOf(x) + ChargesOf(y)
  {
  }

  lemma PaidThen(a: Progress, b: Progress, c: Progress)
    requires Paid(a, b) && Paid(b, c)
    ensures Paid(a, c)
  {
    hide Admitted, ChargesOf, QuotaTable.AfterAll;
    var x, y, z := b.log[|a.log|..], c.log[|b.log|..], c.log[|a.log|..];
    assert z == x + y;
    ChargesConcat(x, y);
    AfterAllConcat(a.table, ChargesOf(x), ChargesOf(y));
    AdmittedConcat(a.table, ChargesOf(x), ChargesOf(y));
  }

  lemma WorkedThen(pending: seq<Transition>, a: Progress, b: Progress, c: Progress, s: set<Transition>,
                   t: set<Transition>)
    requires Worked(pending, a, b, s) && Worked(pending, b, c, t)
    ensures Worked(pending, a, c, s + t)
  {
    hide Paid;
    PaidThen(a, b, c);
    PaidGrows(a, b);
    PaidGrows(b, c);
    var x, y, z := b.log[|a.log|..], c.log[|b.log|..], c.log[|a.log|..];
    assert z == x + y;
    forall d | d in z
      ensures d.step in s + t && d.step !in pending && d.ty != Any
    {
      assert d in x || d in y;
    }
  }

  lemma PaidGrows(a: Progress, b: Progress)
    requires Paid(a, b)
    ensures a.log <= b.log
  {
  }

  lemma ConsiderWorks(required: Counts, pending: seq<Transition>, pr: Progress, t: Transition)
    ensures Worked(pending, pr, Consider(required, pending, pr, t), {t})
  {
    var b := Consider(required, pending, pr, t);
    var d := Dispatch(t, RebalanceOf(required, ReplicasOf(pr.derived, t.partition), t.to));
    if t in pending || pr.table.Throttles(ChargeOf(d)) {
      assert b == pr && ChargesOf(pr.log[|pr.log|..]) == [];
    } else {
      assert b.log[|pr.log|..] == [d];
      var cs := ChargesOf([d]);
      assert cs == [ChargeOf(d)] && cs[..0] == [];
      assert pr.table.AfterAll(cs) == pr.table.AfterAll(cs[..0]).After(ChargeOf(d));
    }
  }

  lemma {:induction false} ConsiderAllWorks(required: Counts, pending: seq<Transition>, pr: Progress,
                                            steps: seq<Transition>)
    ensures Worked(pending, pr, ConsiderAll(required, pending, pr, steps), set t | t in steps)
  {
    hide Worked, Consider;
    if steps == [] {
      WorkedNothing(pending, pr);
      assert (set t | t in steps) == {};
    } else {
      var front, last := steps[..|steps| - 1], steps[|steps| - 1];
      ConsiderAllWorks(required, pending, pr, front);
      var mid := ConsiderAll(required, pending, pr, front);
      ConsiderWorks(required, pending, mid, last);
      WorkedThen(pending, pr, mid, Consider(required, pending, mid, last), set t | t in front, {last});
      assert (set t | t in steps) == (set t | t in front) + {last} by {
        assert steps == front + [last];
      }
    }
  }

  function StepsAt(input: ResourceInput, partitions: seq<PartitionId>): set<Transition> {
    set t | t in input.selected && t.partition in partitions
  }

  lemma MessageOrderPermutes(input: ResourceInput, model: StateModel, p: PartitionId)
    ensures multiset(MessageOrder(input, model, p)) == multiset(InPartition(input.selected, p))
    ensures forall t :: t in MessageOrder(input, model, p) <==> t in input.selected && t.partition == p
  {
    SortPermutes((a, b) => MessageLe(input, model, a, b), InPartition(input.selected, p));
    InPartitionFilters(input.selected, p);
  }

  lemma {:induction false} ConsiderPartitionsWorks(input: ResourceInput, live: set<InstanceId>, model: StateModel,
                                                   pending: seq<Transition>,
                                                   pr: Progress, partitions: seq<PartitionId>)
    ensures Worked(pending, pr, ConsiderPartitions(input, live, model, pending, pr, partitions),
                   StepsAt(input, partitions))
  {
    hide Worked, ConsiderAll, RequiredStates, MessageOrder;
    if partitions == [] {
      WorkedNothing(pending, pr);
      assert StepsAt(input, partitions) == {};
    } else {
      var front, p := partitions[..|partitions| - 1], partitions[|partitions| - 1];
      ConsiderPartitionsWorks(input, live, model, pending, pr, front);
      var mid := ConsiderPartitions(input, live, model, pending, pr, front);
      var steps, required := MessageOrder(input, model, p), RequiredStates(input, p, live, model);
      ConsiderAllWorks(required, pending, mid, steps);
      WorkedThen(pending, pr, mid, ConsiderAll(required, pending, mid, steps), StepsAt(input, front),
                 set t | t in steps);
      assert StepsAt(input, partitions) == StepsAt(input, front) + (set t | t in steps) by {
        MessageOrderPermutes(input, model, p);
        assert partitions == front + [p];
      }
    }
  }

  lemma PartitionOrderPermutes(input: ResourceInput, model: StateModel)
    requires model.states != []
    ensures forall p :: p in PartitionOrder(input, model) <==> p in PartitionsOf(input.selected)
  {
    SortPermutes((a, b) => PartitionLe(input, model.Top(), a, b), SortedKeys(PartitionsOf(input.selected)));
  }

  /** One resource: only selected steps that are not pending are dispatched, each admitted and charged. */
  lemma ConsiderResourceWorks(input: ResourceInput, live: set<InstanceId>, model: StateModel,
                              pending: seq<Transition>, table: QuotaTable)
    requires model.states != []
    ensures Worked(pending, Progress(table, input.current, []), ConsiderResource(input, live, model, pending, table),
                   set t | t in input.selected)
  {
    hide Worked, ConsiderPartitions, PartitionOrder;
    ConsiderPartitionsWorks(input, live, model, pending, Progress(table, input.current, []),
                            PartitionOrder(input, model));
    PartitionOrderPermutes(input, model);
    assert StepsAt(input, PartitionOrder(input, model)) == set t | t in input.selected;
  }
}
