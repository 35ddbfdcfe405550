/** The fenced run protocol: controllers and participants over one store, as guarded atomic steps.

    Each step is one transaction on the store (`coordination/etcd`) or one local move between two
    transactions (`controller/runtime.rs`, `participant.rs`). Lost leases, failovers, stale snapshots and
    stale queue images are steps like any other. */
module Protocol {
  import opened Types
  import opened Planning
  import opened Cycle
  import opened Convergence
  import opened Quotas
  import LeaderStandby

  type ControllerId = nat
  type LeaseId = nat
  type WorkerId = nat

  /** Placement metadata, as stored. */
  type PlacementId = nat

  /** Decodes placement metadata into preference lists; CRUSH placements also read the configured and
      the live instances. */
  type Resolver = (PlacementId, set<InstanceId>, set<InstanceId>) -> map<ResourceId, IdealState>

  /** A CurrentState entry is owned by one session. */
  datatype Key = Key(instance: InstanceId, session: SessionId, resource: ResourceId, partition: PartitionId)

  function KeyReplica(k: Key): Replica {
    Replica(k.resource, k.partition, k.instance)
  }

  datatype Authority = Authority(controller: ControllerId, lease: LeaseId)

  /** The store. `revision` counts its writes; `marker` and `queueRevision` are the revisions of the
      last write to the authoritative inputs and to the queue (zero: never written). `used`,
      `retired` and `applied` are histories: every session ever registered, every message identity
      that left the queue, and the identities whose completion changed CurrentState, in order. */
  datatype Store = Store(
    revision: nat,
    marker: nat,
    live: map<InstanceId, SessionId>,
    states: map<Key, State>,
    configs: set<InstanceId>,
    placement: PlacementId,
    limits: seq<Limit>,
    queue: seq<Message>,
    queueRevision: nat,
    processed: nat,
    active: Option<Authority>,
    used: set<SessionId>,
    retired: set<MessageId>,
    applied: seq<MessageId>)
  {
    predicate Active(k: Key) {
      k.instance in live && live[k.instance] == k.session
    }

    /** The CurrentState entries of live sessions. */
    function Current(): map<Replica, State> {
      map k | k in states && Active(k) :: KeyReplica(k) := states[k]
    }

    function View(resolve: Resolver): Snapshot {
      Snapshot(revision, live, configs, Current(), resolve(placement, configs, live.Keys), limits)
    }

    /** The queue without one message, after a write. */
    function Without(id: MessageId): Store {
      this.(revision := revision + 1, queue := Discard(queue, id), queueRevision := revision + 1,
            retired := retired + {id})
    }

    predicate Queued(id: MessageId) {
      exists m :: m in queue && m.id == id
    }

    /** A write to the authoritative inputs also writes the marker. */
    function Marked(): Store {
      this.(revision := revision + 1, marker := revision + 1)
    }
  }

  /** What a controller computes from: one read of the store, and the input revision it will claim. */
  datatype Held = Held(snap: Snapshot, queue: seq<Message>, queueRevision: nat, observed: nat)

  datatype Phase = Scheduled | Checked | Claimed | Done

  /** A worker carries one message out under one session's key; any number may run at a time. */
  datatype Work = Work(key: Key, message: Message, phase: Phase)

  /** The store, the snapshots controllers hold, the participants' workers, and the message each
      participant has registered as in flight for a key. */
  datatype World = World(
    store: Store,
    held: map<ControllerId, Held>,
    workers: map<WorkerId, Work>,
    inFlight: map<Key, MessageId>)

  datatype Event =
    | Observe(controller: ControllerId, observed: nat)
    | Publish(controller: ControllerId, lease: LeaseId, mode: Mode, queue: seq<Message>)
    | Elect(active: Option<Authority>)
    | Register(instance: InstanceId, session: SessionId, carried: map<(ResourceId, PartitionId), State>)
    | Expire(instance: InstanceId)
    | Revoke(instance: InstanceId)
    | RecordExpiry
    | Configure(instance: InstanceId)
    | Deconfigure(instance: InstanceId)
    | Place(placement: PlacementId, limits: seq<Limit>)
    | Deliver(worker: WorkerId, key: Key, message: Message)
    | Check(worker: WorkerId)
    | Claim(worker: WorkerId)
    | Complete(worker: WorkerId, succeeded: bool)
    | Cleanup(id: MessageId)
    | End(worker: WorkerId)
    | Abort(worker: WorkerId)
    | OtherWrite

  function Read(s: Store, resolve: Resolver, observed: nat): Held {
    Held(s.View(resolve), s.queue, s.queueRevision, observed)
  }

  /** The fence of `publish_controller_outputs`. */
  ghost predicate FenceHolds(s: Store, authority: Authority, h: Held) {
    && s.active == Some(authority)
    && s.queueRevision == h.queueRevision
    && s.marker == h.observed
    && (forall i | i in h.snap.live :: i in s.live && s.live[i] == h.snap.live[i])
    && s.processed <= h.observed
  }

  function Ids(queue: seq<Message>): set<MessageId> {
    set m | m in queue :: m.id
  }

  /** A published queue holds exactly the messages of the next queue, in any order. */
  ghost predicate Arranges(h: Held, mode: Mode, next: seq<Message>) {
    multiset(next) == multiset(NextQueue(h.snap, mode, h.queue))
  }

  function Publication(s: Store, h: Held, next: seq<Message>): Store {
    s.(revision := s.revision + 1, queue := next, queueRevision := s.revision + 1, processed := h.observed,
       retired := s.retired + (Ids(s.queue) - Ids(next)))
  }

  /** The state a worker reads for its replica: a missing entry stands for the initial state. */
  function StateAt(s: Store, k: Key): State {
    if k in s.states then s.states[k] else Offline
  }

  ghost predicate Guard(w: World, e: Event) {
    var s := w.store;
    match e
    case Observe(_, observed) => observed <= s.revision
    case Publish(c, lease, mode, next) =>
      && c in w.held && FenceHolds(s, Authority(c, lease), w.held[c])
      && w.held[c].snap.Valid() && Plannable(w.held[c].snap, Ops(w.held[c].snap, mode, w.held[c].queue))
      && Arranges(w.held[c], mode, next)
    case Register(i, session, carried) =>
      i !in s.live && session !in s.used && forall rp | rp in carried :: carried[rp] != Leader
    case Expire(i) => i in s.live
    case Revoke(i) => i in s.live
    case Deconfigure(i) => i !in s.live
    case Deliver(x, k, m) =>
      x !in w.workers && k !in w.inFlight && k.session in s.used && ReplicaOf(m.step) == KeyReplica(k)
    case Check(x) =>
      && x in w.workers && w.workers[x].phase == Scheduled
      && (var k, m := w.workers[x].key, w.workers[x].message;
          && m.session == k.session && StateAt(s, k) == m.step.from && m.step.from != m.step.to
          && LeaderStandby.Model().NextToward(m.step.from, m.step.to) == Some(m.step.to))
    case Claim(x) =>
      x in w.workers && w.workers[x].phase == Checked && s.Active(w.workers[x].key) && w.workers[x].message in s.queue
    case Complete(x, _) =>
      x in w.workers && w.workers[x].phase == Claimed && s.Active(w.workers[x].key) && w.workers[x].message in s.queue
    case Cleanup(id) => s.Queued(id)
    case End(x) => x in w.workers
    case Abort(x) => x in w.workers
    case _ => true
  }

  /** The completion transaction: the new state and the queue without the message, at once. */
  function Completion(s: Store, k: Key, m: Message, succeeded: bool): Store {
    var states := if !succeeded then s.states[k := Error]
                  else if m.step.to == Dropped then s.states - {k}
                  else s.states[k := m.step.to];
    s.Without(m.id).(states := states, marker := s.revision + 1, applied := s.applied + [m.id])
  }

  /** A registration: each carried partition starts at the initial state chosen for its resource. */
  function Enrolled(s: Store, i: InstanceId, session: SessionId,
                    carried: map<(ResourceId, PartitionId), State>): Store {
    var entries := map rp | rp in carried :: Key(i, session, rp.0, rp.1) := carried[rp];
    s.Marked().(live := s.live[i := session], used := s.used + {session}, states := s.states + entries)
  }

  function Advanced(w: World, x: WorkerId, phase: Phase): World {
    if x in w.workers then w.(workers := w.workers[x := w.workers[x].(phase := phase)]) else w
  }

  /** A worker that ends takes back its key, if the key still holds its own message. */
  function Ended(w: World, x: WorkerId): World {
    if x !in w.workers then w
    else
      var k, id := w.workers[x].key, w.workers[x].message.id;
      w.(workers := w.workers - {x},
         inFlight := if k in w.inFlight && w.inFlight[k] == id then w.inFlight - {k} else w.inFlight)
  }

  function Apply(resolve: Resolver, w: World, e: Event): World {
    var s := w.store;
    match e
    case Observe(c, observed) => w.(held := w.held[c := Read(s, resolve, observed)])
    case Publish(c, _, _, next) => if c in w.held then w.(store := Publication(s, w.held[c], next)) else w
    case Elect(active) => w.(store := s.(revision := s.revision + 1, active := active))
    case Register(i, session, carried) => w.(store := Enrolled(s, i, session, carried))
    case Expire(i) => w.(store := s.(revision := s.revision + 1, live := s.live - {i}))
    case Revoke(i) => w.(store := s.Marked().(live := s.live - {i}))
    case RecordExpiry => w.(store := s.Marked())
    case Configure(i) => w.(store := s.Marked().(configs := s.configs + {i}))
    case Deconfigure(i) => w.(store := s.Marked().(configs := s.configs - {i}))
    case Place(placement, limits) => w.(store := s.Marked().(placement := placement, limits := limits))
    case Deliver(x, k, m) =>
      w.(workers := w.workers[x := Work(k, m, Scheduled)], inFlight := w.inFlight[k := m.id])
    case Check(x) => Advanced(w, x, Checked)
    case Claim(x) => Advanced(w, x, Claimed)
    case Complete(x, succeeded) =>
      if x in w.workers
      then Advanced(w, x, Done).(store := Completion(s, w.workers[x].key, w.workers[x].message, succeeded)) else w
    case Cleanup(id) => w.(store := s.Without(id))
    case End(x) => Ended(w, x)
    case Abort(x) => w.(workers := w.workers - {x})
    case OtherWrite => w.(store := s.(revision := s.revision + 1))
  }

  /** An empty cluster. */
  ghost predicate Initial(w: World) {
    && w.held == map[] && w.workers == map[] && w.inFlight == map[]
    && w.store.live == map[] && w.store.states == map[]
    && w.store.queue == [] && w.store.queueRevision == 0 && w.store.marker == 0 && w.store.processed == 0
    && w.store.used == {} && w.store.retired == {} && w.store.applied == []
  }

  ghost predicate Run(resolve: Resolver, worlds: seq<World>, events: seq<Event>) {
    && |worlds| == |events| + 1
    && Initial(worlds[0])
    && forall k | 0 <= k < |events| :: Follows(resolve, worlds, events, k)
  }

  /** The next world follows by an event whose guard holds. */
  ghost predicate Follows(resolve: Resolver, worlds: seq<World>, events: seq<Event>, k: nat)
    requires k < |events| && |worlds| == |events| + 1
  {
    Guard(worlds[k], events[k]) && worlds[k + 1] == Apply(resolve, worlds[k], events[k])
  }
}
