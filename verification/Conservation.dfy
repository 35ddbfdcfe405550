/** Throttling is work-conserving: what is withheld is withheld by a quota that applies to it. */
module Conservation {
  import opened Types
  import opened Ordering
  import opened StateModels
  import opened BestPossible
  import opened Selection
  import opened Quotas
  import opened Throttle
  import opened Intermediate

  // Derived states are the dispatched steps replayed over the current ones.

  function InsertAll(base: ReplicaStates, ts: seq<Transition>): ReplicaStates {
    if ts == [] then base else Insert(InsertAll(base, ts[..|ts| - 1]), ts[|ts| - 1])
  }

  ghost predicate Replays(base: ReplicaStates, pr: Progress) {
    pr.derived == InsertAll(base, StepsIn(pr.log))
  }

  /** The class of a step considered after some dispatches: recovery if its partition, with those
      dispatches applied, still lacks its target state. */
  function ClassAfter(required: Counts, base: ReplicaStates, log: seq<Dispatch>, t: Transition): RebalanceType {
    RebalanceOf(required, ReplicasOf(InsertAll(base, StepsIn(log)), t.partition), t.to)
  }

  lemma ReplayNext(base: ReplicaStates, log: seq<Dispatch>, d: Dispatch)
    ensures InsertAll(base, StepsIn(log + [d])) == Insert(InsertAll(base, StepsIn(log)), d.step)
  {
    assert StepsIn(log + [d])[..|log|] == StepsIn(log);
  }

  lemma ConsiderReplays(required: Counts, base: ReplicaStates, pending: seq<Transition>, pr: Progress, t: Transition)
    requires Replays(base, pr)
    ensures Replays(base, Consider(required, pending, pr, t))
  {
    var d := Dispatch(t, RebalanceOf(required, ReplicasOf(pr.derived, t.partition), t.to));
    hide RebalanceOf, QuotaTable.Throttles, QuotaTable.After, Insert;
    ReplayNext(base, pr.log, d);
  }

  lemma {:induction false} ConsiderAllReplays(required: Counts, base: ReplicaStates, pending: seq<Transition>,
                                              pr: Progress, steps: seq<Transition>)
    requires Replays(base, pr)
    ensures Replays(base, ConsiderAll(required, pending, pr, steps))
  {
    if steps != [] {
      hide Consider, Replays;
      var front, last := steps[..|steps| - 1], steps[|steps| - 1];
      ConsiderAllReplays(required, base, pending, pr, front);
      ConsiderReplays(required, base, pending, ConsiderAll(required, pending, pr, front), last);
    }
  }

  lemma {:induction false} ConsiderPartitionsReplays(input: ResourceInput, live: set<InstanceId>, model: StateModel,
                                                     pending: seq<Transition>,
                                                     pr: Progress, partitions: seq<PartitionId>)
    requires Replays(input.current, pr)
    ensures Replays(input.current, ConsiderPartitions(input, live, model, pending, pr, partitions))
  {
    if partitions != [] {
      hide ConsiderAll, RequiredStates, MessageOrder, Replays;
      var front, p := partitions[..|partitions| - 1], partitions[|partitions| - 1];
      ConsiderPartitionsReplays(input, live, model, pending, pr, front);
      ConsiderAllReplays(RequiredStates(input, p, live, model), input.current, pending,
                         ConsiderPartitions(input, live, model, pending, pr, front), MessageOrder(input, model, p));
    }
  }

  // The turn of a step: its partition's place in the partition order, and its own in the message order.

  ghost predicate HasTurn(input: ResourceInput, model: StateModel, t: Transition, j: nat, m: nat)
    requires model.states != []
  {
    && j < |PartitionOrder(input, model)| && PartitionOrder(input, model)[j] == t.partition
    && m < |MessageOrder(input, model, t.partition)| && MessageOrder(input, model, t.partition)[m] == t
  }

  /** Every selected step gets a turn. */
  lemma SelectedHasTurn(input: ResourceInput, model: StateModel, t: Transition)
    returns (j: nat, m: nat)
    requires model.states != [] && t in input.selected
    ensures HasTurn(input, model, t, j, m)
  {
    PartitionOrderPermutes(input, model);
    MessageOrderPermutes(input, model, t.partition);
    hide PartitionOrder, MessageOrder;
    assert t.partition in PartitionsOf(input.selected);
    j :| 0 <= j < |PartitionOrder(input, model)| && PartitionOrder(input, model)[j] == t.partition;
    m :| 0 <= m < |MessageOrder(input, model, t.partition)| && MessageOrder(input, model, t.partition)[m] == t;
  }

  /** What a resource has done when the turn of a step comes. */
  function BeforeTurn(input: ResourceInput, live: set<InstanceId>, model: StateModel, pending: seq<Transition>,
                      table: QuotaTable, p: PartitionId, j: nat, m: nat): Progress
    requires model.states != [] && j <= |PartitionOrder(input, model)| && m <= |MessageOrder(input, model, p)|
  {
    ConsiderAll(RequiredStates(input, p, live, model), pending,
                ConsiderPartitions(input, live, model, pending, Progress(table, input.current, []),
                                   PartitionOrder(input, model)[..j]),
                MessageOrder(input, model, p)[..m])
  }

  /** The charge of a step whose turn comes after some dispatches of its resource. */
  function ChargeAfter(input: ResourceInput, live: set<InstanceId>, model: StateModel, log: seq<Dispatch>,
                       t: Transition): Charge {
    Charge(ClassAfter(RequiredStates(input, t.partition, live, model), input.current, log, t), t.resource, t.instance)
  }

  // Going on from a turn only adds paid dispatches.

  lemma PaidNothing(pr: Progress)
    ensures Paid(pr, pr)
  {
    WorkedNothing([], pr);
  }

  lemma {:induction false} RestOfStepsPaid(required: Counts, pending: seq<Transition>, pr: Progress,
                                           steps: seq<Transition>, m: nat)
    requires m <= |steps|
    ensures Paid(ConsiderAll(required, pending, pr, steps[..m]), ConsiderAll(required, pending, pr, steps))
  {
    hide Paid, Consider;
    var a := ConsiderAll(required, pending, pr, steps[..m]);
    if m == |steps| {
      assert steps[..m] == steps;
      PaidNothing(a);
    } else {
      hide Worked;
      var front, last := steps[..|steps| - 1], steps[|steps| - 1];
      assert front[..m] == steps[..m];
      RestOfStepsPaid(required, pending, pr, front, m);
      var b := ConsiderAll(required, pending, pr, front);
      ConsiderWorks(required, pending, b, last);
      WorkedIsPaid(pending, b, Consider(required, pending, b, last), {last});
      PaidThen(a, b, Consider(required, pending, b, last));
    }
  }

  lemma {:induction false} RestOfPartitionsPaid(input: ResourceInput, live: set<InstanceId>, model: StateModel,
                                                pending: seq<Transition>,
                                                pr: Progress, partitions: seq<PartitionId>, j: nat)
    requires j <= |partitions|
    ensures Paid(ConsiderPartitions(input, live, model, pending, pr, partitions[..j]),
                 ConsiderPartitions(input, live, model, pending, pr, partitions))
  {
    hide Paid, ConsiderAll, RequiredStates, MessageOrder;
    var a := ConsiderPartitions(input, live, model, pending, pr, partitions[..j]);
    if j == |partitions| {
      assert partitions[..j] == partitions;
      PaidNothing(a);
    } else {
      hide Worked;
      var front, p := partitions[..|partitions| - 1], partitions[|partitions| - 1];
      assert front[..j] == partitions[..j];
      RestOfPartitionsPaid(input, live, model, pending, pr, front, j);
      var b := ConsiderPartitions(input, live, model, pending, pr, front);
      var required, steps := RequiredStates(input, p, live, model), MessageOrder(input, model, p);
      ConsiderAllWorks(required, pending, b, steps);
      WorkedIsPaid(pending, b, ConsiderAll(required, pending, b, steps), set t | t in steps);
      PaidThen(a, b, ConsiderAll(required, pending, b, steps));
    }
  }

  lemma WorkedIsPaid(pending: seq<Transition>, a: Progress, b: Progress, steps: set<Transition>)
    requires Worked(pending, a, b, steps)
    ensures Paid(a, b)
  {
  }

  /** After its turn a step is pending, dispatched, or refused under the class it had then. */
  lemma ConsiderDecides(required: Counts, base: ReplicaStates, pending: seq<Transition>, pr: Progress, t: Transition)
    requires Replays(base, pr) && t !in pending
    ensures var b := Consider(required, pending, pr, t);
            || t in StepsIn(b.log)
            || pr.table.Throttles(Charge(ClassAfter(required, base, pr.log, t), t.resource, t.instance))
  {
    var b := Consider(required, pending, pr, t);
    hide RebalanceOf, QuotaTable.Throttles, QuotaTable.After, Insert;
    if b != pr {
      assert StepsIn(b.log)[|pr.log|] == t;
    }
  }

  /** A turn taken on the way to the end of the resource. */
  lemma TurnIsPart(input: ResourceInput, live: set<InstanceId>, model: StateModel, pending: seq<Transition>,
                   table: QuotaTable, t: Transition, j: nat, m: nat)
    requires model.states != [] && HasTurn(input, model, t, j, m)
    ensures var turn := BeforeTurn(input, live, model, pending, table, t.partition, j, m);
            var after := Consider(RequiredStates(input, t.partition, live, model), pending, turn, t);
            && Replays(input.current, turn)
            && Paid(turn, after) && Paid(after, ConsiderResource(input, live, model, pending, table))
  {
    var p, order, steps := t.partition, PartitionOrder(input, model), MessageOrder(input, model, t.partition);
    var start, required := Progress(table, input.current, []), RequiredStates(input, p, live, model);
    assert Replays(input.current, start);
    hide Paid, Worked, Consider, ConsiderAll, ConsiderPartitions, RequiredStates, MessageOrder, PartitionOrder, Replays;
    var before := ConsiderPartitions(input, live, model, pending, start, order[..j]);
    var turn := ConsiderAll(required, pending, before, steps[..m]);
    ConsiderPartitionsReplays(input, live, model, pending, start, order[..j]);
    ConsiderAllReplays(required, input.current, pending, before, steps[..m]);
    var after := Consider(required, pending, turn, t);
    ConsiderWorks(required, pending, turn, t);
    WorkedIsPaid(pending, turn, after, {t});
    ConsiderAllNext(required, pending, before, steps, m);
    ConsiderPartitionsNext(input, live, model, pending, start, order, j);
    RestOfStepsPaid(required, pending, before, steps, m + 1);
    RestOfPartitionsPaid(input, live, model, pending, start, order, j + 1);
    PaidThen(after, ConsiderAll(required, pending, before, steps),
             ConsiderPartitions(input, live, model, pending, start, order));
  }

  // The class of every dispatch.

  /** Every dispatch carries the class it had when it was considered. */
  ghost predicate Classified(input: ResourceInput, live: set<InstanceId>, model: StateModel, log: seq<Dispatch>, n: nat)
    requires n < |log|
  {
    log[n].ty == ClassAfter(RequiredStates(input, log[n].step.partition, live, model), input.current, log[..n],
                            log[n].step)
  }

  ghost predicate AllClassified(input: ResourceInput, live: set<InstanceId>, model: StateModel, log: seq<Dispatch>) {
    forall n | 0 <= n < |log| :: Classified(input, live, model, log, n)
  }

  lemma ConsiderClassifies(input: ResourceInput, live: set<InstanceId>, model: StateModel, pending: seq<Transition>,
                           pr: Progress, t: Transition)
    requires Replays(input.current, pr) && AllClassified(input, live, model, pr.log)
    ensures AllClassified(input, live, model,
                          Consider(RequiredStates(input, t.partition, live, model), pending, pr, t).log)
  {
    var b := Consider(RequiredStates(input, t.partition, live, model), pending, pr, t);
    hide RequiredStates, RebalanceOf;
    forall n | 0 <= n < |b.log|
      ensures Classified(input, live, model, b.log, n)
    {
      if n < |pr.log| {
        assert Classified(input, live, model, pr.log, n);
        assert b.log[..n] == pr.log[..n];
      } else {
        assert b.log[..n] == pr.log;
      }
    }
  }

  lemma {:induction false} ConsiderAllClassifies(input: ResourceInput, live: set<InstanceId>, model: StateModel,
                                                 pending: seq<Transition>,
                                                 p: PartitionId, pr: Progress, steps: seq<Transition>)
    requires Replays(input.current, pr) && AllClassified(input, live, model, pr.log)
             && forall t | t in steps :: t.partition == p
    ensures AllClassified(input, live, model,
                          ConsiderAll(RequiredStates(input, p, live, model), pending, pr, steps).log)
  {
    if steps != [] {
      hide Consider, Replays, AllClassified, RequiredStates;
      var front, last := steps[..|steps| - 1], steps[|steps| - 1];
      assert last in steps && forall t | t in front :: t in steps;
      ConsiderAllClassifies(input, live, model, pending, p, pr, front);
      ConsiderAllReplays(RequiredStates(input, p, live, model), input.current, pending, pr, front);
      ConsiderClassifies(input, live, model, pending,
                         ConsiderAll(RequiredStates(input, p, live, model), pending, pr, front), last);
    }
  }

  lemma {:induction false} ConsiderPartitionsClassifies(input: ResourceInput, live: set<InstanceId>,
                                                        model: StateModel, pending: seq<Transition>,
                                                        pr: Progress, partitions: seq<PartitionId>)
    requires Replays(input.current, pr) && AllClassified(input, live, model, pr.log)
    ensures AllClassified(input, live, model, ConsiderPartitions(input, live, model, pending, pr, partitions).log)
  {
    if partitions != [] {
      hide ConsiderAll, RequiredStates, MessageOrder, Replays, AllClassified;
      var front, p := partitions[..|partitions| - 1], partitions[|partitions| - 1];
      ConsiderPartitionsClassifies(input, live, model, pending, pr, front);
      ConsiderPartitionsReplays(input, live, model, pending, pr, front);
      MessageOrderPermutes(input, model, p);
      ConsiderAllClassifies(input, live, model, pending, p,
                            ConsiderPartitions(input, live, model, pending, pr, front), MessageOrder(input, model, p));
    }
  }

  // The whole cycle.

  /** The quotas left when the turn of one resource of the cycle comes. */
  function TableBefore(inputs: seq<ResourceInput>, live: set<InstanceId>, pending: seq<Transition>, limits: seq<Limit>,
                       model: StateModel, k: nat): QuotaTable
    requires model.states != [] && k < |inputs|
  {
    var start := Outcome(OpeningTable(inputs, live, model, pending, limits), [], map[]);
    ThrottleAll(inputs[..k], live, model, pending, start).table
  }

  /** What one resource of the cycle did: its own dispatches, and the quotas they left. */
  function ShareOf(inputs: seq<ResourceInput>, live: set<InstanceId>, pending: seq<Transition>, limits: seq<Limit>,
                   model: StateModel, k: nat): Progress
    requires model.states != [] && k < |inputs|
  {
    ConsiderResource(inputs[k], live, model, pending, TableBefore(inputs, live, pending, limits, model, k))
  }

  /** Some scope that covers the charge is exhausted for it, already in `before` and still in `now`. */
  ghost predicate ExhaustedSince(before: QuotaTable, now: QuotaTable, c: Charge) {
    exists scope :: Covers(scope, c) && Exhausted(before.At(scope), c.ty) && Exhausted(now.At(scope), c.ty)
  }

  /** In its turn the step was of a class for which a quota covering it was exhausted, and that quota still is
      when the cycle ends. */
  ghost predicate RefusedInTurn(inputs: seq<ResourceInput>, live: set<InstanceId>, pending: seq<Transition>,
                                limits: seq<Limit>, model: StateModel, k: nat, t: Transition, j: nat, m: nat)
    requires model.states != [] && k < |inputs| && HasTurn(inputs[k], model, t, j, m)
  {
    var table := TableBefore(inputs, live, pending, limits, model, k);
    var turn := BeforeTurn(inputs[k], live, model, pending, table, t.partition, j, m);
    && turn.log <= ShareOf(inputs, live, pending, limits, model, k).log
    && ExhaustedSince(turn.table, Throttled(inputs, live, pending, limits, model).table,
                      ChargeAfter(inputs[k], live, model, turn.log, t))
  }

  lemma IdleConsiders(input: ResourceInput, live: set<InstanceId>, model: StateModel, pending: seq<Transition>,
                      table: QuotaTable)
    requires model.states != [] && input.selected == []
    ensures ConsiderResource(input, live, model, pending, table) == Progress(table, input.current, [])
  {
    assert PartitionsOf(input.selected) == {};
    assert SortedKeys(PartitionsOf(input.selected)) == [];
  }

  /** The log of the cycle is the logs of its resources, one after the other. */
  lemma ShareIsPart(inputs: seq<ResourceInput>, live: set<InstanceId>, pending: seq<Transition>, limits: seq<Limit>,
                    model: StateModel, k: nat)
    returns (earlier: seq<Dispatch>, later: seq<Dispatch>)
    requires model.states != [] && k < |inputs|
    ensures var out, share := Throttled(inputs, live, pending, limits, model), ShareOf(inputs, live, pending, limits,
        model, k);
            && out.log == earlier + share.log + later
            && Paid(Progress(share.table, map[], earlier + share.log), Progress(out.table, map[], out.log))
  {
    hide ThrottleAll, ConsiderResource, OpeningTable, Paid, AllSelected;
    var start := Outcome(OpeningTable(inputs, live, model, pending, limits), [], map[]);
    var before := ThrottleAll(inputs[..k], live, model, pending, start);
    var mid := ThrottleAll(inputs[..k + 1], live, model, pending, start);
    var out, share := Throttled(inputs, live, pending, limits, model), ShareOf(inputs, live, pending, limits, model, k);
    ThrottleAllNext(inputs, live, model, pending, start, k);
    if inputs[k].selected == [] {
      IdleConsiders(inputs[k], live, model, pending, before.table);
    }
    assert mid.log == before.log + share.log && mid.table == share.table;
    assert inputs == inputs[..k + 1] + inputs[k + 1..];
    ThrottleAllSplits(inputs[..k + 1], inputs[k + 1..], live, model, pending, start);
    ThrottleAllWorks(inputs[k + 1..], live, model, pending, mid);
    WorkedIsPaid(pending, AsProgress(mid), AsProgress(out), AllSelected(inputs[k + 1..]));
    PaidGrows(AsProgress(mid), AsProgress(out));
    earlier, later := before.log, out.log[|mid.log|..];
  }

  lemma StaysExhausted(a: Progress, b: Progress, c: Charge)
    requires Paid(a, b) && a.table.Throttles(c)
    ensures ExhaustedSince(a.table, b.table, c)
  {
    var charges := ChargesOf(b.log[|a.log|..]);
    hide Admitted, ChargesOf, QuotaTable.Throttles, QuotaTable.AfterAll;
    ThrottlesIffExhausted(a.table, c);
    var scope :| Covers(scope, c) && Exhausted(a.table.At(scope), c.ty);
    ExhaustionPersists(a.table, charges, scope, c.ty);
  }

  lemma PaidShifts(a: Progress, b: Progress, earlier: seq<Dispatch>)
    requires Paid(a, b)
    ensures Paid(Progress(a.table, map[], earlier + a.log), Progress(b.table, map[], earlier + b.log))
  {
    hide Admitted, QuotaTable.AfterAll;
    assert (earlier + b.log)[|earlier + a.log|..] == b.log[|a.log|..];
  }

  /** The turn of a step that a cycle withholds: it was refused then, under the class it had then, by a quota
      that is still exhausted when the cycle ends. */
  lemma WithheldInTurn(inputs: seq<ResourceInput>, live: set<InstanceId>, pending: seq<Transition>,
                       limits: seq<Limit>, model: StateModel, k: nat, t: Transition, j: nat, m: nat)
    requires model.states != [] && k < |inputs| && HasTurn(inputs[k], model, t, j, m)
    requires t !in pending && t !in StepsIn(Throttled(inputs, live, pending, limits, model).log)
    ensures RefusedInTurn(inputs, live, pending, limits, model, k, t, j, m)
  {
    hide Throttled, ConsiderResource, TableBefore, BeforeTurn, PartitionOrder, MessageOrder, RequiredStates, ClassAfter,
      Consider, Paid, Replays, ExhaustedSince, QuotaTable.Throttles;
    var input, out := inputs[k], Throttled(inputs, live, pending, limits, model);
    var share, table := ShareOf(inputs, live, pending, limits, model, k), TableBefore(inputs, live, pending, limits,
        model, k);
    var turn := BeforeTurn(input, live, model, pending, table, t.partition, j, m);
    var required := RequiredStates(input, t.partition, live, model);
    var after := Consider(required, pending, turn, t);
    TurnIsPart(input, live, model, pending, table, t, j, m);
    PaidThen(turn, after, share);
    PaidGrows(turn, share);
    PaidGrows(after, share);
    var earlier, later := ShareIsPart(inputs, live, pending, limits, model, k);
    assert t !in StepsIn(after.log) by {
      StepsOfPart(earlier, share.log, later, t);
      StepsOfPart([], after.log, share.log[|after.log|..], t);
      assert [] + after.log + share.log[|after.log|..] == share.log;
    }
    ConsiderDecides(required, input.current, pending, turn, t);
    PaidShifts(turn, share, earlier);
    var a := Progress(turn.table, map[], earlier + turn.log);
    PaidThen(a, Progress(share.table, map[], earlier + share.log), Progress(out.table, map[], out.log));
    StaysExhausted(a, Progress(out.table, map[], out.log), ChargeAfter(input, live, model, turn.log, t));
  }

  /** Throttling is work-conserving: a selected step that is neither dispatched nor in flight has a turn, and
      when it came, some quota covering the step was exhausted for the class it had right then, and the same
      quota still is when the cycle ends. */
  lemma ThrottlingConservesWork(inputs: seq<ResourceInput>, live: set<InstanceId>, pending: seq<Transition>,
                                limits: seq<Limit>, model: StateModel, k: nat, t: Transition)
    requires model.states != [] && k < |inputs| && t in inputs[k].selected
    requires t !in pending && t !in StepsIn(Throttled(inputs, live, pending, limits, model).log)
    ensures exists j, m :: HasTurn(inputs[k], model, t, j, m)
    ensures forall j, m | HasTurn(inputs[k], model, t, j, m) ::
              RefusedInTurn(inputs, live, pending, limits, model, k, t, j, m)
  {
    hide Throttled, HasTurn, RefusedInTurn;
    var j0, m0 := SelectedHasTurn(inputs[k], model, t);
    forall j, m | HasTurn(inputs[k], model, t, j, m)
      ensures RefusedInTurn(inputs, live, pending, limits, model, k, t, j, m)
    {
      WithheldInTurn(inputs, live, pending, limits, model, k, t, j, m);
    }
  }

  lemma StepsOfPart(a: seq<Dispatch>, b: seq<Dispatch>, c: seq<Dispatch>, t: Transition)
    ensures t in StepsIn(b) ==> t in StepsIn(a + b + c)
  {
    if t in StepsIn(b) {
      var k :| 0 <= k < |b| && StepsIn(b)[k] == t;
      assert StepsIn(a + b + c)[|a| + k] == t;
    }
  }

  /** Every dispatch is charged under the class its step had in its turn. */
  lemma DispatchesAreClassified(inputs: seq<ResourceInput>, live: set<InstanceId>, pending: seq<Transition>,
                                limits: seq<Limit>, model: StateModel, k: nat)
    requires model.states != [] && k < |inputs|
    ensures AllClassified(inputs[k], live, model, ShareOf(inputs, live, pending, limits, model, k).log)
  {
    var table := TableBefore(inputs, live, pending, limits, model, k);
    var begin := Progress(table, inputs[k].current, []);
    assert Replays(inputs[k].current, begin) && AllClassified(inputs[k], live, model, begin.log);
    hide TableBefore, ConsiderPartitions, PartitionOrder, AllClassified, Replays;
    ConsiderPartitionsClassifies(inputs[k], live, model, pending, begin, PartitionOrder(inputs[k], model));
  }

  /** In short: what is withheld is throttled when the cycle ends. */
  lemma WithheldIsThrottled(inputs: seq<ResourceInput>, live: set<InstanceId>, pending: seq<Transition>,
                            limits: seq<Limit>, model: StateModel, t: Transition)
    requires model.states != [] && t in AllSelected(inputs)
    requires t !in pending && t !in StepsIn(Throttled(inputs, live, pending, limits, model).log)
    ensures exists scope, ty: RebalanceType ::
              Covers(scope, Charge(ty, t.resource, t.instance))
                  && Exhausted(Throttled(inputs, live, pending, limits, model).table.At(scope), ty)
  {
    var input :| input in inputs && t in input.selected;
    var k :| 0 <= k < |inputs| && inputs[k] == input;
    hide Throttled, HasTurn, ShareOf, TableBefore, BeforeTurn, ChargeAfter;
    ThrottlingConservesWork(inputs, live, pending, limits, model, k, t);
    var j, m :| HasTurn(inputs[k], model, t, j, m);
    assert RefusedInTurn(inputs, live, pending, limits, model, k, t, j, m);
  }
}
