/** The order in which a resource's selected transitions are supplied does not matter. */
module ThrottleOrder {
  import opened Types
  import opened Ordering
  import opened StateModels
  import opened BestPossible
  import opened Selection
  import opened Quotas
  import opened Throttle
  import opened Intermediate

  /** The same resource with its selected transitions in another order. */
  ghost predicate Reordered(a: ResourceInput, b: ResourceInput) {
    b == a.(selected := b.selected) && multiset(a.selected) == multiset(b.selected)
  }

  ghost predicate Orderly(input: ResourceInput, model: StateModel) {
    && OnePerReplica(input.selected)
    && (forall t | t in input.selected :: t.to in model.states)
  }

  lemma {:induction false} InPartitionMultiset(a: seq<Transition>, p: PartitionId, t: Transition)
    ensures multiset(InPartition(a, p))[t] == if t.partition == p then multiset(a)[t] else 0
  {
    if a != [] {
      InPartitionMultiset(a[..|a| - 1], p, t);
      assert a == a[..|a| - 1] + [a[|a| - 1]];
    }
  }

  lemma SameInPartition(a: seq<Transition>, b: seq<Transition>, p: PartitionId)
    requires multiset(a) == multiset(b)
    ensures multiset(InPartition(a, p)) == multiset(InPartition(b, p))
  {
    forall t
      ensures multiset(InPartition(a, p))[t] == multiset(InPartition(b, p))[t]
    {
      InPartitionMultiset(a, p, t);
      InPartitionMultiset(b, p, t);
    }
  }

  lemma OneStep(ts: seq<Transition>, a: Transition, b: Transition)
    requires OnePerReplica(ts) && a in ts && b in ts && SameKey(a, b)
    ensures a == b
  {
    var i :| 0 <= i < |ts| && ts[i] == a;
    var j :| 0 <= j < |ts| && ts[j] == b;
  }

  /** Within a partition the message comparator is a total order. */
  lemma MessageOrderIsTotal(input: ResourceInput, model: StateModel, p: PartitionId)
    requires Orderly(input, model)
    ensures TotalOrderOn((a, b) => MessageLe(input, model, a, b), InPartition(input.selected, p))
  {
    var le, ts := (a, b) => MessageLe(input, model, a, b), InPartition(input.selected, p);
    InPartitionFilters(input.selected, p);
    forall a, b | a in ts && b in ts && le(a, b) && le(b, a)
      ensures a == b
    {
      assert model.states[IndexOf(model.states, a.to)] == a.to && model.states[IndexOf(model.states, b.to)] == b.to;
      OneStep(input.selected, a, b);
    }
    forall a, b, c | a in ts && b in ts && c in ts && le(a, b) && le(b, c)
      ensures le(a, c)
    {
      MessageLeTransitive(input, model, a, b, c);
    }
  }

  lemma MessageLeTransitive(input: ResourceInput, model: StateModel, a: Transition, b: Transition, c: Transition)
    requires a.to in model.states && b.to in model.states && c.to in model.states
    requires MessageLe(input, model, a, b) && MessageLe(input, model, b, c)
    ensures MessageLe(input, model, a, c)
  {
    assert model.states[IndexOf(model.states, a.to)] == a.to;
    assert model.states[IndexOf(model.states, b.to)] == b.to;
    assert model.states[IndexOf(model.states, c.to)] == c.to;
  }

  lemma MessageOrderForgets(a: ResourceInput, b: ResourceInput, model: StateModel, p: PartitionId)
    requires Reordered(a, b) && Orderly(a, model)
    ensures MessageOrder(a, model, p) == MessageOrder(b, model, p)
  {
    MessageOrderIsTotal(a, model, p);
    SameInPartition(a.selected, b.selected, p);
    SortForgetsOrder((x, y) => MessageLe(a, model, x, y), InPartition(a.selected, p), InPartition(b.selected, p));
    SameComparator((x, y) => MessageLe(a, model, x, y), (x, y) => MessageLe(b, model, x, y),
                   InPartition(b.selected, p));
  }

  lemma {:induction false} SameComparator<T(!new)>(f: (T, T) -> bool, g: (T, T) -> bool, s: seq<T>)
    requires forall x, y :: f(x, y) == g(x, y)
    ensures SortBy(f, s) == SortBy(g, s)
  {
    if s != [] {
      SameComparator(f, g, s[..|s| - 1]);
      SameInsert(f, g, SortBy(f, s[..|s| - 1]), s[|s| - 1]);
    }
  }

  lemma {:induction false} SameInsert<T(!new)>(f: (T, T) -> bool, g: (T, T) -> bool, s: seq<T>, x: T)
    requires forall x, y :: f(x, y) == g(x, y)
    ensures InsertBy(f, s, x) == InsertBy(g, s, x)
  {
    if s != [] {
      SameInsert(f, g, s[..|s| - 1], x);
    }
  }

  lemma SamePartitionLe(a: ResourceInput, b: ResourceInput, top: State, p: PartitionId, q: PartitionId)
    requires Reordered(a, b)
    ensures PartitionLe(a, top, p, q) == PartitionLe(b, top, p, q)
  {
    hide CrossedOff, ValuesOf, Holders;
  }

  lemma PartitionOrderForgets(a: ResourceInput, b: ResourceInput, model: StateModel)
    requires Reordered(a, b) && model.states != []
    ensures PartitionOrder(a, model) == PartitionOrder(b, model)
  {
    SameMembers(a.selected, b.selected);
    assert PartitionsOf(a.selected) == PartitionsOf(b.selected);
    var top := model.Top();
    var f, g := (x, y) => PartitionLe(a, top, x, y), (x, y) => PartitionLe(b, top, x, y);
    hide PartitionLe, SortBy, PartitionsOf;
    forall x, y
      ensures f(x, y) == g(x, y)
    {
      SamePartitionLe(a, b, top, x, y);
    }
    SameComparator(f, g, SortedKeys(PartitionsOf(a.selected)));
  }

  lemma {:induction false} ConsiderForgets(a: ResourceInput, b: ResourceInput, live: set<InstanceId>,
                                           model: StateModel, pending: seq<Transition>,
                                           pr: Progress, partitions: seq<PartitionId>)
    requires Reordered(a, b) && Orderly(a, model)
    ensures ConsiderPartitions(a, live, model, pending, pr, partitions) == ConsiderPartitions(b, live, model,
        pending, pr, partitions)
  {
    if partitions != [] {
      hide ConsiderAll, MessageOrder;
      ConsiderForgets(a, b, live, model, pending, pr, partitions[..|partitions| - 1]);
      MessageOrderForgets(a, b, model, partitions[|partitions| - 1]);
    }
  }

  /** One resource: the dispatch sequence and the quotas left do not depend on the order of its selected transitions. */
  lemma ResourceOrderForgotten(a: ResourceInput, b: ResourceInput, live: set<InstanceId>, model: StateModel,
                               pending: seq<Transition>, table: QuotaTable)
    requires Reordered(a, b) && Orderly(a, model) && model.states != []
    ensures ConsiderResource(a, live, model, pending, table) == ConsiderResource(b, live, model, pending, table)
  {
    PartitionOrderForgets(a, b, model);
    ConsiderForgets(a, b, live, model, pending, Progress(table, a.current, []), PartitionOrder(a, model));
  }

  lemma SameLast(a: seq<Transition>, b: seq<Transition>, p: PartitionId, i: InstanceId)
    requires forall t :: t in a <==> t in b
    requires forall x, y | x in a && y in a && SameKey(x, y) :: x == y
    ensures LastFor(a, p, i) == LastFor(b, p, i)
  {
    LastForFinds(a, p, i);
    LastForFinds(b, p, i);
  }

  ghost predicate SameStates(x: ReplicaStates, y: ReplicaStates) {
    forall p, i :: StateOf(x, p, i) == StateOf(y, p, i)
  }

  lemma LayeredForgets(a: ResourceInput, b: ResourceInput, live: set<InstanceId>, model: StateModel,
                       pending: seq<Transition>, table: QuotaTable)
    requires Reordered(a, b) && Orderly(a, model) && model.states != []
    ensures var pr := ConsiderResource(a, live, model, pending, table);
            SameStates(Layered(a, model, pending, pr), Layered(b, model, pending, pr))
  {
    var pr := ConsiderResource(a, live, model, pending, table);
    ResourceOrderForgotten(a, b, live, model, pending, table);
    hide ConsiderResource, Layered;
    SameMembers(a.selected, b.selected);
    InAmong(a.selected, pr.log);
    InAmong(b.selected, pr.log);
    forall x, y | x in a.selected && y in a.selected && SameKey(x, y)
      ensures x == y
    {
      OneStep(a.selected, x, y);
    }
    forall p, i
      ensures StateOf(Layered(a, model, pending, pr), p, i) == StateOf(Layered(b, model, pending, pr), p, i)
    {
      IntermediateIsOverlay(a, live, model, pending, table, p, i);
      IntermediateIsOverlay(b, live, model, pending, table, p, i);
      SameLast(Among(a.selected, pr.log), Among(b.selected, pr.log), p, i);
    }
  }

  ghost predicate SameOutcome(x: Outcome, y: Outcome) {
    && x.table == y.table && x.log == y.log && x.states.Keys == y.states.Keys
    && (forall r | r in x.states :: SameStates(x.states[r], y.states[r]))
  }

  lemma OneForgets(a: ResourceInput, b: ResourceInput, live: set<InstanceId>, model: StateModel,
                   pending: seq<Transition>, x: Outcome, y: Outcome)
    requires Reordered(a, b) && Orderly(a, model) && model.states != [] && SameOutcome(x, y)
    ensures SameOutcome(ThrottleOne(a, live, model, pending, x), ThrottleOne(b, live, model, pending, y))
  {
    SameMembers(a.selected, b.selected);
    if a.selected != [] {
      ResourceOrderForgotten(a, b, live, model, pending, x.table);
      LayeredForgets(a, b, live, model, pending, x.table);
      hide SameStates, Layered, ConsiderResource;
    }
  }

  ghost predicate AllReordered(xs: seq<ResourceInput>, ys: seq<ResourceInput>, model: StateModel) {
    |xs| == |ys| && forall k | 0 <= k < |xs| :: Reordered(xs[k], ys[k]) && Orderly(xs[k], model)
  }

  lemma {:induction false} AllForget(xs: seq<ResourceInput>, ys: seq<ResourceInput>, live: set<InstanceId>,
                                     model: StateModel,
                                     pending: seq<Transition>, out: Outcome)
    requires AllReordered(xs, ys, model) && model.states != []
    ensures SameOutcome(ThrottleAll(xs, live, model, pending, out), ThrottleAll(ys, live, model, pending, out))
  {
    if xs != [] {
      hide ThrottleOne;
      var n := |xs| - 1;
      AllForget(xs[..n], ys[..n], live, model, pending, out);
      OneForgets(xs[n], ys[n], live, model, pending, ThrottleAll(xs[..n], live, model, pending, out),
                 ThrottleAll(ys[..n], live, model, pending, out));
    }
  }

  lemma {:induction false} ChargesForget(xs: seq<ResourceInput>, ys: seq<ResourceInput>, live: set<InstanceId>,
                                         model: StateModel, pending: seq<Transition>)
    requires AllReordered(xs, ys, model)
    ensures AllPendingCharges(xs, live, model, pending) == AllPendingCharges(ys, live, model, pending)
    ensures Names(xs) == Names(ys)
  {
    assert Names(xs) == Names(ys) by {
      forall r
        ensures r in Names(xs) <==> r in Names(ys)
      {
        if r in Names(xs) {
          var k :| 0 <= k < |xs| && xs[k].resource == r;
          assert ys[k] in ys;
        }
        if r in Names(ys) {
          var k :| 0 <= k < |ys| && ys[k].resource == r;
          assert xs[k] in xs;
        }
      }
    }
    if xs != [] {
      var n := |xs| - 1;
      ChargesForget(xs[..n], ys[..n], live, model, pending);
      PendingForgets(xs[n], ys[n], live, model, OfResource(pending, xs[n].resource));
    }
  }

  lemma {:induction false} PendingForgets(a: ResourceInput, b: ResourceInput, live: set<InstanceId>,
                                          model: StateModel, pending: seq<Transition>)
    requires Reordered(a, b)
    ensures PendingCharges(a, live, model, pending) == PendingCharges(b, live, model, pending)
  {
    if pending != [] {
      PendingForgets(a, b, live, model, pending[..|pending| - 1]);
    }
  }

  /** The whole cycle: dispatch sequence, remaining quotas and intermediate states do not depend on
      the order in which each resource's selected transitions are supplied. */
  lemma CycleForgetsOrder(xs: seq<ResourceInput>, ys: seq<ResourceInput>, live: set<InstanceId>,
                          pending: seq<Transition>,
                          limits: seq<Limit>, model: StateModel)
    requires AllReordered(xs, ys, model) && model.states != []
    ensures SameOutcome(Throttled(xs, live, pending, limits, model), Throttled(ys, live, pending, limits, model))
  {
    ChargesForget(xs, ys, live, model, pending);
    AllForget(xs, ys, live, model, pending, Outcome(OpeningTable(xs, live, model, pending, limits), [], map[]));
  }
}
