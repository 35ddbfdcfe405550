/** State-transition quotas and their in-place controller (`message_throttle.rs`). */
module Quotas {
  import opened Types

  datatype RebalanceType = Any | Recovery | Load

  type Quota = map<RebalanceType, nat>

  /** One unit of work: its class and the resource and instance it occupies. */
  datatype Charge = Charge(ty: RebalanceType, resource: ResourceId, instance: InstanceId)

  datatype Scope = Cluster | ResourceScope(resource: ResourceId) | InstanceScope(instance: InstanceId)

  predicate Covers(scope: Scope, c: Charge) {
    match scope
    case Cluster => true
    case ResourceScope(r) => r == c.resource
    case InstanceScope(i) => i == c.instance
  }

  predicate Exhausted(quota: Quota, ty: RebalanceType) {
    (Any in quota && quota[Any] == 0) || (ty in quota && quota[ty] == 0)
  }

  function Lower(quota: Quota, ty: RebalanceType): Quota {
    if ty in quota then quota[ty := if quota[ty] == 0 then 0 else quota[ty] - 1] else quota
  }

  function ChargeQuota(quota: Quota, ty: RebalanceType): Quota {
    if ty == Any then Lower(quota, Any) else Lower(Lower(quota, Any), ty)
  }

  /** The value of the throttle controller. */
  datatype QuotaTable = QuotaTable(cluster: Quota, resources: map<ResourceId, Quota>, instances: map<InstanceId,
                                   Quota>) {
    function At(scope: Scope): Quota {
      match scope
      case Cluster => cluster
      case ResourceScope(r) => if r in resources then resources[r] else map[]
      case InstanceScope(i) => if i in instances then instances[i] else map[]
    }

    predicate Throttles(c: Charge) {
      || Exhausted(cluster, c.ty)
      || (c.resource in resources && Exhausted(resources[c.resource], c.ty))
      || (c.instance in instances && Exhausted(instances[c.instance], c.ty))
    }

    function After(c: Charge): QuotaTable {
      QuotaTable(
        ChargeQuota(cluster, c.ty),
        if c.resource in resources then resources[c.resource := ChargeQuota(resources[c.resource],
            c.ty)] else resources,
        if c.instance in instances then instances[c.instance := ChargeQuota(instances[c.instance],
            c.ty)] else instances)
    }

    function AfterAll(charges: seq<Charge>): QuotaTable {
      if charges == [] then this else AfterAll(charges[..|charges| - 1]).After(charges[|charges| - 1])
    }
  }

  lemma AfterAt(table: QuotaTable, c: Charge, scope: Scope)
    ensures table.After(c).At(scope) == if Covers(scope, c) then ChargeQuota(table.At(scope), c.ty) else table.At(scope)
  {
  }

  /** A charge is throttled exactly when some scope that covers it is exhausted for its class. */
  lemma ThrottlesIffExhausted(table: QuotaTable, c: Charge)
    ensures table.Throttles(c) <==> exists scope :: Covers(scope, c) && Exhausted(table.At(scope), c.ty)
  {
    if table.Throttles(c) {
      var scope := if Exhausted(table.cluster, c.ty) then Cluster
                   else if c.resource in table.resources && Exhausted(table.resources[c.resource], c.ty)
                   then ResourceScope(c.resource) else InstanceScope(c.instance);
      assert Covers(scope, c) && Exhausted(table.At(scope), c.ty);
    }
  }

  predicate Spends(c: Charge, scope: Scope, ty: RebalanceType) {
    Covers(scope, c) && (ty == Any || c.ty == ty)
  }

  /** How many of the charges count against one quota. */
  function Uses(charges: seq<Charge>, scope: Scope, ty: RebalanceType): nat {
    if charges == [] then 0
    else Uses(charges[..|charges| - 1], scope, ty) + (if Spends(charges[|charges| - 1], scope, ty) then 1 else 0)
  }

  function Monus(a: nat, b: nat): nat {
    if a <= b then 0 else a - b
  }

  lemma ChargeQuotaAt(quota: Quota, ty: RebalanceType, of: RebalanceType)
    ensures ChargeQuota(quota, ty).Keys == quota.Keys
    ensures of in quota ==>
      ChargeQuota(quota, ty)[of] == if of == Any || of == ty then Monus(quota[of], 1) else quota[of]
  {
  }

  /** Charging work lowers each quota it counts against, and stops at zero. */
  lemma {:induction false} ChargesSaturate(table: QuotaTable, charges: seq<Charge>, scope: Scope, ty: RebalanceType)
    ensures table.AfterAll(charges).At(scope).Keys == table.At(scope).Keys
    ensures ty in table.At(scope) ==>
      table.AfterAll(charges).At(scope)[ty] == Monus(table.At(scope)[ty], Uses(charges, scope, ty))
  {
    if charges != [] {
      var front, last := charges[..|charges| - 1], charges[|charges| - 1];
      ChargesSaturate(table, front, scope, ty);
      AfterAt(table.AfterAll(front), last, scope);
      ChargeQuotaAt(table.AfterAll(front).At(scope), last.ty, ty);
    }
  }

  /** Every charge was admitted by the table as the earlier ones left it. */
  ghost predicate Admitted(table: QuotaTable, charges: seq<Charge>) {
    forall k | 0 <= k < |charges| :: charges[k].ty != Any && !table.AfterAll(charges[..k]).Throttles(charges[k])
  }

  /** Admitted work is paid for in full: no quota is ever overdrawn. */
  lemma {:induction false} AdmittedWorkIsPaid(table: QuotaTable, charges: seq<Charge>, scope: Scope, ty: RebalanceType)
    requires Admitted(table, charges) && ty in table.At(scope)
    ensures Uses(charges, scope, ty) <= table.At(scope)[ty]
  {
    if charges != [] {
      var front, last := charges[..|charges| - 1], charges[|charges| - 1];
      assert forall k | 0 <= k < |front| :: front[..k] == charges[..k];
      AdmittedWorkIsPaid(table, front, scope, ty);
      ChargesSaturate(table, front, scope, ty);
      if Spends(last, scope, ty) {
        ThrottlesIffExhausted(table.AfterAll(front), last);
        assert !Exhausted(table.AfterAll(front).At(scope), last.ty);
      }
    }
  }

  /** An exhausted quota stays exhausted: quotas never recover within a cycle. */
  lemma ExhaustionPersists(table: QuotaTable, charges: seq<Charge>, scope: Scope, ty: RebalanceType)
    requires Exhausted(table.At(scope), ty)
    ensures Exhausted(table.AfterAll(charges).At(scope), ty)
  {
    ChargesSaturate(table, charges, scope, Any);
    ChargesSaturate(table, charges, scope, ty);
  }

  /** So what throttles a charge keeps throttling it. */
  lemma {:induction false} ThrottlingPersists(table: QuotaTable, charges: seq<Charge>, c: Charge)
    requires table.Throttles(c)
    ensures table.AfterAll(charges).Throttles(c)
  {
    ThrottlesIffExhausted(table, c);
    ThrottlesIffExhausted(table.AfterAll(charges), c);
    var scope :| Covers(scope, c) && Exhausted(table.At(scope), c.ty);
    ExhaustionPersists(table, charges, scope, c.ty);
  }

  lemma {:induction false} AfterAllConcat(table: QuotaTable, a: seq<Charge>, b: seq<Charge>)
    ensures table.AfterAll(a + b) == table.AfterAll(a).AfterAll(b)
  {
    if b == [] {
      assert a + b == a;
    } else {
      AfterAllConcat(table, a, b[..|b| - 1]);
      assert (a + b)[..|a + b| - 1] == a + b[..|b| - 1];
    }
  }

  // Configuration.

  datatype Limit = Limit(ty: RebalanceType, target: ThrottleTarget, max: nat)

  datatype ThrottleTarget =
    | WholeCluster
    | EveryResource
    | OneResource(resource: ResourceId)
    | EveryInstance
    | OneInstance(instance: InstanceId)

  function Limited(quota: Quota, limit: Limit): Quota {
    quota[limit.ty := limit.max]
  }

  function Configure(table: QuotaTable, limit: Limit): QuotaTable {
    match limit.target
    case WholeCluster => table.(cluster := Limited(table.cluster, limit))
    case EveryResource => table.(resources := map r | r in table.resources :: Limited(table.resources[r], limit))
    case OneResource(r) =>
      if r in table.resources then table.(resources := table.resources[r := Limited(table.resources[r],
          limit)]) else table
    case EveryInstance => table.(instances := map i | i in table.instances :: Limited(table.instances[i], limit))
    case OneInstance(i) =>
      if i in table.instances then table.(instances := table.instances[i := Limited(table.instances[i],
          limit)]) else table
  }

  function ConfigureAll(table: QuotaTable, limits: seq<Limit>): QuotaTable {
    if limits == [] then table else Configure(ConfigureAll(table, limits[..|limits| - 1]), limits[|limits| - 1])
  }

  function InitialTable(resources: set<ResourceId>, live: set<InstanceId>, limits: seq<Limit>): QuotaTable {
    ConfigureAll(QuotaTable(map[], map r | r in resources :: map[], map i | i in live :: map[]), limits)
  }

  /** With every limit positive, a fresh table throttles nothing. */
  lemma {:induction false} PositiveLimitsAdmit(table: QuotaTable, limits: seq<Limit>, c: Charge)
    requires forall l | l in limits :: l.max > 0
    requires forall scope: Scope, ty: RebalanceType :: ty in table.At(scope) ==> table.At(scope)[ty] > 0
    ensures !ConfigureAll(table, limits).Throttles(c)
    ensures forall scope: Scope, ty: RebalanceType ::
              ty in ConfigureAll(table, limits).At(scope) ==> ConfigureAll(table, limits).At(scope)[ty] > 0
  {
    var t := ConfigureAll(table, limits);
    if limits != [] {
      var front, last := limits[..|limits| - 1], limits[|limits| - 1];
      assert forall l | l in front :: l in limits;
      PositiveLimitsAdmit(table, front, c);
      var before := ConfigureAll(table, front);
      assert last in limits;
      forall scope: Scope, ty: RebalanceType | ty in t.At(scope)
        ensures t.At(scope)[ty] > 0
      {
        ConfigureAt(before, last, scope, ty);
      }
    }
    ThrottlesIffExhausted(t, c);
  }

  lemma ConfigureAt(table: QuotaTable, limit: Limit, scope: Scope, ty: RebalanceType)
    requires ty in Configure(table, limit).At(scope)
    ensures Configure(table, limit).At(scope)[ty] == limit.max
         || (ty in table.At(scope) && Configure(table, limit).At(scope)[ty] == table.At(scope)[ty])
  {
  }

  /** The controller whose quotas a cycle draws down. */
  class ThrottleController {
    var cluster: Quota
    var resources: map<ResourceId, Quota>
    var instances: map<InstanceId, Quota>

    function Table(): QuotaTable
      reads this
    {
      QuotaTable(cluster, resources, instances)
    }

    constructor (names: set<ResourceId>, live: set<InstanceId>, limits: seq<Limit>)
      ensures Table() == InitialTable(names, live, limits)
    {
      cluster := map[];
      resources := map r | r in names :: map[];
      instances := map i | i in live :: map[];
      new;
      ghost var start := Table();
      for k := 0 to |limits|
        invariant Table() == ConfigureAll(start, limits[..k])
      {
        assert limits[..k + 1][..k] == limits[..k];
        Apply(limits[k]);
      }
      assert limits[..|limits|] == limits;
    }

    method Apply(limit: Limit)
      modifies this
      ensures Table() == Configure(old(Table()), limit)
    {
      match limit.target {
        case WholeCluster => cluster := Limited(cluster, limit);
        case EveryResource => resources := map r | r in resources :: Limited(resources[r], limit);
        case OneResource(r) =>
          if r in resources {
            resources := resources[r := Limited(resources[r], limit)];
          }
        case EveryInstance => instances := map i | i in instances :: Limited(instances[i], limit);
        case OneInstance(i) =>
          if i in instances {
            instances := instances[i := Limited(instances[i], limit)];
          }
      }
    }

    predicate ShouldThrottle(c: Charge)
      reads this
      ensures ShouldThrottle(c) <==> exists scope :: Covers(scope, c) && Exhausted(Table().At(scope), c.ty)
    {
      ThrottlesIffExhausted(Table(), c);
      || Exhausted(cluster, c.ty)
      || (c.resource in resources && Exhausted(resources[c.resource], c.ty))
      || (c.instance in instances && Exhausted(instances[c.instance], c.ty))
    }

    method Take(c: Charge)
      modifies this
      ensures Table() == old(Table()).After(c)
    {
      cluster := ChargeQuota(cluster, c.ty);
      if c.resource in resources {
        resources := resources[c.resource := ChargeQuota(resources[c.resource], c.ty)];
      }
      if c.instance in instances {
        instances := instances[c.instance := ChargeQuota(instances[c.instance], c.ty)];
      }
    }
  }
}
