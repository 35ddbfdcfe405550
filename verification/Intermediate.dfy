/** A whole throttling cycle: pending charges, dispatch over every resource and the intermediate
    states (`message_throttle.rs`). */
module Intermediate {
  import opened Types
  import opened Ordering
  import opened StateModels
  import opened BestPossible
  import opened Generation
  import opened Selection
  import opened Quotas
  import opened Throttle

  // Charges for work already in flight.

  /** In-flight work is charged while its replica still stands at the source of the step. */
  function PendingCharge(input: ResourceInput, live: set<InstanceId>, model: StateModel,
                         t: Transition): Option<Charge> {
    if StateOf(input.current, t.partition, t.instance) != Some(t.from) || t.from == t.to then None
    else Some(Charge(RebalanceOf(RequiredStates(input, t.partition, live, model),
                                 ReplicasOf(input.current, t.partition), t.to),
                     input.resource, t.instance))
  }

  function PendingCharges(input: ResourceInput, live: set<InstanceId>, model: StateModel,
                          pending: seq<Transition>): seq<Charge> {
    if pending == [] then []
    else PendingCharges(input, live, model,
                        pending[..|pending| - 1]) + Listed(PendingCharge(input, live, model, pending[|pending| - 1]))
  }

  function OfResource(transitions: seq<Transition>, r: ResourceId): seq<Transition> {
    if transitions == [] then []
    else
      var front := OfResource(transitions[..|transitions| - 1], r);
      if transitions[|transitions| - 1].resource == r then front + [transitions[|transitions| - 1]] else front
  }

  lemma {:induction false} OfResourceFilters(transitions: seq<Transition>, r: ResourceId)
    ensures forall t :: t in OfResource(transitions, r) <==> t in transitions && t.resource == r
  {
    if transitions != [] {
      var front, last := transitions[..|transitions| - 1], transitions[|transitions| - 1];
      OfResourceFilters(front, r);
      assert transitions == front + [last];
    }
  }

  function AllPendingCharges(inputs: seq<ResourceInput>, live: set<InstanceId>, model: StateModel,
                             pending: seq<Transition>): seq<Charge> {
    if inputs == [] then []
    else
      var last := inputs[|inputs| - 1];
      AllPendingCharges(inputs[..|inputs| - 1], live, model, pending)
      + PendingCharges(last, live, model, OfResource(pending, last.resource))
  }

  // Charges commute.

  function Without<T>(s: seq<T>, k: nat): seq<T>
    requires k < |s|
  {
    s[..k] + s[k + 1..]
  }

  lemma WithoutMultiset<T>(s: seq<T>, k: nat)
    requires k < |s|
    ensures multiset(Without(s, k)) == multiset(s) - multiset{s[k]}
  {
    assert s == s[..k] + [s[k]] + s[k + 1..];
  }

  lemma UsesWithout(charges: seq<Charge>, k: nat, scope: Scope, ty: RebalanceType)
    requires k < |charges|
    ensures Uses(charges, scope, ty)
         == Uses(Without(charges, k), scope, ty) + (if Spends(charges[k], scope, ty) then 1 else 0)
  {
    assert charges == charges[..k] + [charges[k]] + charges[k + 1..];
    UsesConcat(charges[..k] + [charges[k]], charges[k + 1..], scope, ty);
    UsesConcat(charges[..k], [charges[k]], scope, ty);
    UsesConcat(charges[..k], charges[k + 1..], scope, ty);
    assert [charges[k]][..0] == [];
  }

  lemma {:induction false} UsesByMultiset(a: seq<Charge>, scope: Scope, ty: RebalanceType, b: seq<Charge>)
    requires multiset(a) == multiset(b)
    ensures Uses(a, scope, ty) == Uses(b, scope, ty)
  {
    SameMembers(a, b);
    if a != [] {
      var last := |a| - 1;
      assert a[last] in b;
      var k :| 0 <= k < |b| && b[k] == a[last];
      WithoutMultiset(a, last);
      WithoutMultiset(b, k);
      UsesWithout(a, last, scope, ty);
      UsesWithout(b, k, scope, ty);
      hide Uses, Spends;
      UsesByMultiset(Without(a, last), scope, ty, Without(b, k));
    }
  }

  lemma {:induction false} UsesConcat(a: seq<Charge>, b: seq<Charge>, scope: Scope, ty: RebalanceType)
    ensures Uses(a + b, scope, ty) == Uses(a, scope, ty) + Uses(b, scope, ty)
  {
    if b == [] {
      assert a + b == a;
    } else {
      UsesConcat(a, b[..|b| - 1], scope, ty);
      assert (a + b)[..|a + b| - 1] == a + b[..|b| - 1];
    }
  }

  lemma {:induction false} AfterAllKeys(table: QuotaTable, charges: seq<Charge>)
    ensures table.AfterAll(charges).resources.Keys == table.resources.Keys
    ensures table.AfterAll(charges).instances.Keys == table.instances.Keys
  {
    if charges != [] {
      AfterAllKeys(table, charges[..|charges| - 1]);
    }
  }

  lemma SameAt(table: QuotaTable, a: seq<Charge>, b: seq<Charge>, scope: Scope)
    requires multiset(a) == multiset(b)
    ensures table.AfterAll(a).At(scope) == table.AfterAll(b).At(scope)
  {
    ChargesSaturate(table, a, scope, Any);
    ChargesSaturate(table, b, scope, Any);
    forall ty: RebalanceType | ty in table.At(scope)
      ensures table.AfterAll(a).At(scope)[ty] == table.AfterAll(b).At(scope)[ty]
    {
      ChargesSaturate(table, a, scope, ty);
      ChargesSaturate(table, b, scope, ty);
      UsesByMultiset(a, scope, ty, b);
    }
  }

  /** The order of charging does not matter. */
  lemma ChargesCommute(table: QuotaTable, a: seq<Charge>, b: seq<Charge>)
    requires multiset(a) == multiset(b)
    ensures table.AfterAll(a) == table.AfterAll(b)
  {
    AfterAllKeys(table, a);
    AfterAllKeys(table, b);
    var x, y := table.AfterAll(a), table.AfterAll(b);
    hide QuotaTable.AfterAll;
    SameAt(table, a, b, Cluster);
    forall r | r in x.resources
      ensures x.resources[r] == y.resources[r]
    {
      SameAt(table, a, b, ResourceScope(r));
      assert x.At(ResourceScope(r)) == x.resources[r] && y.At(ResourceScope(r)) == y.resources[r];
    }
    forall i | i in x.instances
      ensures x.instances[i] == y.instances[i]
    {
      SameAt(table, a, b, InstanceScope(i));
      assert x.At(InstanceScope(i)) == x.instances[i] && y.At(InstanceScope(i)) == y.instances[i];
    }
    assert x.resources == y.resources;
    assert x.instances == y.instances;
  }

  // Intermediate states.

  /** A step that has run its course: DROPPED removes the replica. */
  function Apply(model: StateModel, states: ReplicaStates, t: Transition): ReplicaStates {
    if t.to == Dropped && Dropped in model.states then
      if t.partition in states then states[t.partition := states[t.partition] - {t.instance}] else states
    else Insert(states, t)
  }

  function ApplyAll(model: StateModel, states: ReplicaStates, ts: seq<Transition>): ReplicaStates {
    if ts == [] then states else Apply(model, ApplyAll(model, states, ts[..|ts| - 1]), ts[|ts| - 1])
  }

  /** The steps of `ts` that `log` dispatched. */
  function Among(ts: seq<Transition>, log: seq<Dispatch>): seq<Transition> {
    if ts == [] then []
    else
      var front := Among(ts[..|ts| - 1], log);
      if ts[|ts| - 1] in StepsIn(log) then front + [ts[|ts| - 1]] else front
  }

  lemma {:induction false} InAmong(ts: seq<Transition>, log: seq<Dispatch>)
    ensures forall t :: t in Among(ts, log) <==> t in ts && t in StepsIn(log)
  {
    if ts != [] {
      var front, last := ts[..|ts| - 1], ts[|ts| - 1];
      InAmong(front, log);
      assert ts == front + [last];
    }
  }

  /** The last step for a replica, if any. */
  function LastFor(ts: seq<Transition>, p: PartitionId, i: InstanceId): Option<Transition> {
    if ts == [] then None
    else
      var t := ts[|ts| - 1];
      if t.partition == p && t.instance == i then Some(t) else LastFor(ts[..|ts| - 1], p, i)
  }

  function EndOf(model: StateModel, t: Transition): Option<State> {
    if t.to == Dropped && Dropped in model.states then None else Some(t.to)
  }

  /** `over` where it speaks, `under` elsewhere. */
  function Overlay(model: StateModel, over: seq<Transition>, under: Option<State>, p: PartitionId,
                   i: InstanceId): Option<State> {
    match LastFor(over, p, i)
    case Some(t) => EndOf(model, t)
    case None => under
  }

  lemma {:induction false} ApplyAllOverlays(model: StateModel, states: ReplicaStates, ts: seq<Transition>,
                                            p: PartitionId, i: InstanceId)
    ensures StateOf(ApplyAll(model, states, ts), p, i) == Overlay(model, ts, StateOf(states, p, i), p, i)
  {
    if ts != [] {
      ApplyAllOverlays(model, states, ts[..|ts| - 1], p, i);
    }
  }

  /** The three passes over one resource that has selected work. */
  function Layered(input: ResourceInput, model: StateModel, pending: seq<Transition>, pr: Progress): ReplicaStates {
    ApplyAll(model, ApplyAll(model, pr.derived, OfResource(pending, input.resource)), Among(input.selected, pr.log))
  }

  /** Before the last passes, a replica differs from its current state only if something was dispatched for it. */
  ghost predicate Touched(a: Progress, b: Progress) {
    && a.log <= b.log
    && forall p, i ::
         || StateOf(b.derived, p, i) == StateOf(a.derived, p, i)
         || exists d :: d in b.log && d.step.partition == p && d.step.instance == i
  }

  lemma ConsiderTouches(required: Counts, pending: seq<Transition>, pr: Progress, t: Transition)
    ensures Touched(pr, Consider(required, pending, pr, t))
  {
    var b := Consider(required, pending, pr, t);
    if b != pr {
      assert b.log[|b.log| - 1].step == t;
    }
  }

  lemma TouchedThen(a: Progress, b: Progress, c: Progress)
    requires Touched(a, b) && Touched(b, c)
    ensures Touched(a, c)
  {
    forall p, i
      ensures StateOf(c.derived, p, i) == StateOf(a.derived, p, i)
              || exists d :: d in c.log && d.step.partition == p && d.step.instance == i
    {
      if StateOf(b.derived, p, i) != StateOf(a.derived, p, i) {
        var d :| d in b.log && d.step.partition == p && d.step.instance == i;
        assert d in c.log;
      }
    }
  }

  lemma {:induction false} ConsiderAllTouches(required: Counts, pending: seq<Transition>, pr: Progress,
                                              steps: seq<Transition>)
    ensures Touched(pr, ConsiderAll(required, pending, pr, steps))
  {
    if steps != [] {
      hide Touched, Consider;
      var mid := ConsiderAll(required, pending, pr, steps[..|steps| - 1]);
      ConsiderAllTouches(required, pending, pr, steps[..|steps| - 1]);
      ConsiderTouches(required, pending, mid, steps[|steps| - 1]);
      TouchedThen(pr, mid, Consider(required, pending, mid, steps[|steps| - 1]));
    }
  }

  lemma {:induction false} ConsiderPartitionsTouches(input: ResourceInput, live: set<InstanceId>, model: StateModel,
                                                     pending: seq<Transition>,
                                                     pr: Progress, partitions: seq<PartitionId>)
    ensures Touched(pr, ConsiderPartitions(input, live, model, pending, pr, partitions))
  {
    if partitions != [] {
      hide Touched, ConsiderAll, RequiredStates, MessageOrder;
      var front, p := partitions[..|partitions| - 1], partitions[|partitions| - 1];
      var mid := ConsiderPartitions(input, live, model, pending, pr, front);
      ConsiderPartitionsTouches(input, live, model, pending, pr, front);
      ConsiderAllTouches(RequiredStates(input, p, live, model), pending, mid, MessageOrder(input, model, p));
      TouchedThen(pr, mid, ConsiderPartitions(input, live, model, pending, pr, partitions));
    }
  }

  lemma {:induction false} LastForFinds(ts: seq<Transition>, p: PartitionId, i: InstanceId)
    ensures LastFor(ts, p, i).None? <==> forall t | t in ts :: !(t.partition == p && t.instance == i)
    ensures LastFor(ts, p, i).Some? ==>
      LastFor(ts, p, i).value in ts && LastFor(ts, p, i).value.partition == p && LastFor(ts, p, i).value.instance == i
  {
    if ts != [] {
      LastForFinds(ts[..|ts| - 1], p, i);
      assert ts == ts[..|ts| - 1] + [ts[|ts| - 1]];
    }
  }

  /** For a resource with selected work, the intermediate states are the dispatched steps over the
      pending ones over the current states, with replicas on their way to DROPPED gone. */
  lemma IntermediateIsOverlay(input: ResourceInput, live: set<InstanceId>, model: StateModel, pending: seq<Transition>,
                              table: QuotaTable, p: PartitionId, i: InstanceId)
    requires model.states != []
    ensures var pr := ConsiderResource(input, live, model, pending, table);
            StateOf(Layered(input, model, pending, pr), p, i)
            == Overlay(model, Among(input.selected, pr.log),
                       Overlay(model, OfResource(pending, input.resource), StateOf(input.current, p, i), p, i), p, i)
  {
    var pr := ConsiderResource(input, live, model, pending, table);
    var start := Progress(table, input.current, []);
    var mine, dispatched := OfResource(pending, input.resource), Among(input.selected, pr.log);
    assert Touched(start, pr) by {
      ConsiderPartitionsTouches(input, live, model, pending, start, PartitionOrder(input, model));
    }
    assert Worked(pending, start, pr, set t | t in input.selected) by {
      ConsiderResourceWorks(input, live, model, pending, table);
    }
    hide ConsiderResource, Among, ApplyAll, OfResource;
    ApplyAllOverlays(model, pr.derived, mine, p, i);
    ApplyAllOverlays(model, ApplyAll(model, pr.derived, mine), dispatched, p, i);
    LastForFinds(dispatched, p, i);
    if LastFor(dispatched, p, i).None? {
      if StateOf(pr.derived, p, i) != StateOf(input.current, p, i) {
        DispatchedIsAmong(input.selected, pending, start, pr, p, i);
      }
    }
  }

  lemma DispatchedIsAmong(selected: seq<Transition>, pending: seq<Transition>, start: Progress, pr: Progress,
                          p: PartitionId, i: InstanceId)
    requires start.log == [] && Worked(pending, start, pr, set t | t in selected)
    requires exists d :: d in pr.log && d.step.partition == p && d.step.instance == i
    ensures exists t :: t in Among(selected, pr.log) && t.partition == p && t.instance == i
  {
    var d :| d in pr.log && d.step.partition == p && d.step.instance == i;
    assert pr.log[|start.log|..] == pr.log;
    assert d.step in set t | t in selected;
    var k :| 0 <= k < |pr.log| && pr.log[k] == d;
    assert StepsIn(pr.log)[k] == d.step;
    InAmong(selected, pr.log);
    assert d.step in Among(selected, pr.log);
  }

  // The cycle.

  datatype Outcome = Outcome(table: QuotaTable, log: seq<Dispatch>, states: map<ResourceId, ReplicaStates>)

  function ThrottleOne(input: ResourceInput, live: set<InstanceId>, model: StateModel, pending: seq<Transition>,
                       out: Outcome): Outcome
    requires model.states != []
  {
    if input.selected == [] then out.(states := out.states[input.resource := input.best])
    else
      var pr := ConsiderResource(input, live, model, pending, out.table);
      Outcome(pr.table, out.log + pr.log, out.states[input.resource := Layered(input, model, pending, pr)])
  }

  function ThrottleAll(inputs: seq<ResourceInput>, live: set<InstanceId>, model: StateModel,
                       pending: seq<Transition>, out: Outcome): Outcome
    requires model.states != []
  {
    if inputs == [] then out
    else ThrottleOne(inputs[|inputs| - 1], live, model, pending,
                     ThrottleAll(inputs[..|inputs| - 1], live, model, pending, out))
  }

  function Names(inputs: seq<ResourceInput>): set<ResourceId> {
    set input | input in inputs :: input.resource
  }

  /** Quotas as the cycle starts: the configured limits less the work in flight. */
  function OpeningTable(inputs: seq<ResourceInput>, live: set<InstanceId>, model: StateModel,
                        pending: seq<Transition>, limits: seq<Limit>): QuotaTable {
    InitialTable(Names(inputs), live, limits).AfterAll(AllPendingCharges(inputs, live, model, pending))
  }

  function Throttled(inputs: seq<ResourceInput>, live: set<InstanceId>, pending: seq<Transition>, limits: seq<Limit>,
                     model: StateModel): Outcome
    requires model.states != []
  {
    ThrottleAll(inputs, live, model, pending, Outcome(OpeningTable(inputs, live, model, pending, limits), [], map[]))
  }

  function AllSelected(inputs: seq<ResourceInput>): set<Transition> {
    set input, t | input in inputs && t in input.selected :: t
  }

  function AsProgress(out: Outcome): Progress {
    Progress(out.table, map[], out.log)
  }

  lemma WorkedShifts(pending: seq<Transition>, table: QuotaTable, log: seq<Dispatch>, d: ReplicaStates, pr: Progress,
                     steps: set<Transition>)
    requires Worked(pending, Progress(table, d, []), pr, steps)
    ensures Worked(pending, Progress(table, map[], log), Progress(pr.table, map[], log + pr.log), steps)
  {
    hide Admitted;
    assert pr.log[0..] == pr.log && (log + pr.log)[|log|..] == pr.log;
  }

  lemma ThrottleOneWorks(input: ResourceInput, live: set<InstanceId>, model: StateModel, pending: seq<Transition>,
                         out: Outcome)
    requires model.states != []
    ensures Worked(pending, AsProgress(out), AsProgress(ThrottleOne(input, live, model, pending, out)),
                   set t | t in input.selected)
  {
    hide Worked, ConsiderResource;
    if input.selected == [] {
      WorkedNothing(pending, AsProgress(out));
      assert (set t | t in input.selected) == {};
    } else {
      ConsiderResourceWorks(input, live, model, pending, out.table);
      WorkedShifts(pending, out.table, out.log, input.current,
                   ConsiderResource(input, live, model, pending, out.table), set t | t in input.selected);
    }
  }

  lemma {:induction false} ThrottleAllWorks(inputs: seq<ResourceInput>, live: set<InstanceId>, model: StateModel,
                                            pending: seq<Transition>, out: Outcome)
    requires model.states != []
    ensures Worked(pending, AsProgress(out), AsProgress(ThrottleAll(inputs, live, model, pending, out)),
                   AllSelected(inputs))
  {
    hide Worked, ThrottleOne;
    if inputs == [] {
      WorkedNothing(pending, AsProgress(out));
      assert AllSelected(inputs) == {};
    } else {
      var front, last := inputs[..|inputs| - 1], inputs[|inputs| - 1];
      var mid := ThrottleAll(front, live, model, pending, out);
      ThrottleAllWorks(front, live, model, pending, out);
      ThrottleOneWorks(last, live, model, pending, mid);
      WorkedThen(pending, AsProgress(out), AsProgress(mid), AsProgress(ThrottleOne(last, live, model, pending, mid)),
                 AllSelected(front), set t | t in last.selected);
      assert AllSelected(inputs) == AllSelected(front) + (set t | t in last.selected) by {
        assert inputs == front + [last];
      }
    }
  }

  /** Throttling is sound: under every quota, new work fits in what the work in flight leaves of it. */
  lemma ThrottlingIsSound(inputs: seq<ResourceInput>, live: set<InstanceId>, pending: seq<Transition>,
                          limits: seq<Limit>, model: StateModel,
                          scope: Scope, ty: RebalanceType)
    requires model.states != []
    requires ty in InitialTable(Names(inputs), live, limits).At(scope)
    ensures var quota := InitialTable(Names(inputs), live, limits).At(scope)[ty];
            Uses(ChargesOf(Throttled(inputs, live, pending, limits, model).log), scope, ty)
            <= Monus(quota, Uses(AllPendingCharges(inputs, live, model, pending), scope, ty))
  {
    var start := Outcome(OpeningTable(inputs, live, model, pending, limits), [], map[]);
    var log := Throttled(inputs, live, pending, limits, model).log;
    ThrottleAllWorks(inputs, live, model, pending, start);
    assert log[|start.log|..] == log;
    hide ThrottleAll, InitialTable, AllPendingCharges;
    ChargesSaturate(InitialTable(Names(inputs), live, limits), AllPendingCharges(inputs, live, model, pending),
                    scope, ty);
    AdmittedWorkIsPaid(start.table, ChargesOf(log), scope, ty);
  }

  /** Nothing is dispatched that was not selected, and nothing already in flight. */
  lemma DispatchedWork(inputs: seq<ResourceInput>, live: set<InstanceId>, pending: seq<Transition>, limits: seq<Limit>,
                       model: StateModel, t: Transition)
    requires model.states != [] && t in StepsIn(Throttled(inputs, live, pending, limits, model).log)
    ensures t in AllSelected(inputs) && t !in pending
  {
    var start := Outcome(OpeningTable(inputs, live, model, pending, limits), [], map[]);
    var out := Throttled(inputs, live, pending, limits, model);
    ThrottleAllWorks(inputs, live, model, pending, start);
    hide ThrottleAll, Paid;
    assert out.log[|start.log|..] == out.log;
    var k :| 0 <= k < |out.log| && StepsIn(out.log)[k] == t;
    assert out.log[k] in out.log;
  }

  lemma ThrottleAllNext(inputs: seq<ResourceInput>, live: set<InstanceId>, model: StateModel,
                        pending: seq<Transition>, out: Outcome, k: nat)
    requires k < |inputs| && model.states != []
    ensures ThrottleAll(inputs[..k + 1], live, model, pending, out)
         == ThrottleOne(inputs[k], live, model, pending, ThrottleAll(inputs[..k], live, model, pending, out))
  {
    assert inputs[..k + 1][..k] == inputs[..k];
  }

  lemma {:induction false} ThrottleAllSplits(a: seq<ResourceInput>, b: seq<ResourceInput>, live: set<InstanceId>,
                                             model: StateModel, pending: seq<Transition>, out: Outcome)
    requires model.states != []
    ensures ThrottleAll(a + b, live, model, pending, out) == ThrottleAll(b, live, model, pending,
        ThrottleAll(a, live, model, pending, out))
  {
    hide ThrottleOne;
    if b == [] {
      assert a + b == a;
    } else {
      assert (a + b)[..|a + b| - 1] == a + b[..|b| - 1];
      ThrottleAllSplits(a, b[..|b| - 1], live, model, pending, out);
    }
  }
}
