/** The participant session model: incarnations, fencing and carried CurrentState (`model/session.rs`). */
module Sessions {
  import opened Types
  import opened Ordering
  import opened BestPossible

  /** CurrentState of one session, by resource. */
  type Records = map<ResourceId, ReplicaStates>

  /** Session sequence numbers are 64-bit and never wrap. */
  const MAX_SEQUENCE: nat := 0xFFFF_FFFF_FFFF_FFFF

  datatype SessionError =
    | AlreadyLive(instance: InstanceId)
    | NotLive(instance: InstanceId)
    | SessionMismatch(instance: InstanceId, expected: SessionId, actual: SessionId)
    | UnknownSession(session: SessionId)
    | SessionOwnershipMismatch(instance: InstanceId, session: SessionId, owner: InstanceId)
    | SessionIdExhausted

  datatype ActiveState = ActiveState(session: SessionId, resources: Records)

  /** CurrentState is kept by instance and session. */
  datatype Owner = Owner(instance: InstanceId, session: SessionId)

  /** The value of the model: the last sequence number, the owner of every session, the live session
      of every live instance, CurrentState by its owner, and the initial states. */
  datatype Sessions = Sessions(
    next: nat,
    known: map<SessionId, InstanceId>,
    live: map<InstanceId, SessionId>,
    current: map<Owner, Records>,
    fallback: State,
    initial: map<ResourceId, State>)
  {
    function RecordsOf(i: InstanceId, s: SessionId): Records {
      if Owner(i, s) in current then current[Owner(i, s)] else map[]
    }

    function SessionsOf(i: InstanceId): set<SessionId> {
      set o | o in current && o.instance == i :: o.session
    }

    function InitialOf(r: ResourceId): State {
      if r in initial then initial[r] else fallback
    }

    /** The view other components read: CurrentState of live sessions only. */
    function Snapshot(): map<InstanceId, ActiveState> {
      map i | i in live :: ActiveState(live[i], RecordsOf(i, live[i]))
    }

    /** Sessions are numbered in order of creation, a live session is its instance's newest, and
        records belong to known sessions and mention only their owner. */
    ghost predicate Valid() {
      && (forall s | s in known :: 0 < s <= next && Owner(known[s], s) in current)
      && (forall i | i in live :: Newest(i, live[i]))
      && (forall o | o in current ::
            o.session in known && known[o.session] == o.instance && Owned(o.instance, current[o]))
    }

    ghost predicate Newest(i: InstanceId, s: SessionId) {
      s in known && known[s] == i && forall t | t in known && known[t] == i :: t <= s
    }
  }

  /** Every partition of the records has a state of `i` and of nobody else. */
  ghost predicate Owned(i: InstanceId, records: Records) {
    forall r, p | r in records && p in records[r] :: records[r][p].Keys == {i}
  }

  // Carrying records into a new session.

  function CarriedReplicas(i: InstanceId, replicas: Replicas, initial: State): Replicas {
    map j | j in replicas :: if j == i then initial else replicas[j]
  }

  function CarriedResource(i: InstanceId, states: ReplicaStates, initial: State): ReplicaStates {
    map p | p in states :: CarriedReplicas(i, states[p], initial)
  }

  function Carried(m: Sessions, i: InstanceId, previous: Records): Records {
    map r | r in previous :: CarriedResource(i, previous[r], m.InitialOf(r))
  }

  function CarriedPart(m: Sessions, i: InstanceId, previous: Records, keys: seq<ResourceId>): Records {
    map r | r in previous && r in keys :: CarriedResource(i, previous[r], m.InitialOf(r))
  }

  lemma CarriedNext(m: Sessions, i: InstanceId, previous: Records, keys: seq<ResourceId>, k: nat)
    requires k < |keys| && keys[k] in previous
    ensures CarriedPart(m, i, previous, keys[..k + 1])
         == CarriedPart(m, i, previous,
                        keys[..k])[keys[k] := CarriedResource(i, previous[keys[k]], m.InitialOf(keys[k]))]
  {
    hide CarriedResource;
    assert keys[..k + 1] == keys[..k] + [keys[k]];
  }

  lemma CarriedWhole(m: Sessions, i: InstanceId, previous: Records, keys: seq<ResourceId>)
    requires forall r | r in previous :: r in keys
    ensures CarriedPart(m, i, previous, keys) == Carried(m, i, previous)
  {
    hide CarriedResource;
  }

  lemma CarriedIsOwned(m: Sessions, i: InstanceId, previous: Records)
    requires Owned(i, previous)
    ensures Owned(i, Carried(m, i, previous))
  {
    forall r, p | r in previous && p in previous[r]
      ensures Carried(m, i, previous)[r][p].Keys == {i}
    {
      assert CarriedReplicas(i, previous[r][p], m.InitialOf(r)).Keys == previous[r][p].Keys;
    }
  }

  /** The greatest session an instance has records for. */
  function LastSession(sessions: set<SessionId>): (s: SessionId)
    requires sessions != {}
    ensures s in sessions && forall t | t in sessions :: t <= s
    decreases |sessions|
  {
    var least := Least(sessions);
    if sessions == {least} then least
    else
      var rest := sessions - {least};
      assert rest != {} && forall t | t in sessions :: t == least || t in rest;
      LastSession(rest)
  }

  function Previous(m: Sessions, i: InstanceId): Records {
    if m.SessionsOf(i) == {} then map[] else m.RecordsOf(i, LastSession(m.SessionsOf(i)))
  }

  function Store(m: Sessions, i: InstanceId, s: SessionId, records: Records): Sessions {
    m.(current := m.current[Owner(i, s) := records])
  }

  /** A new live session of `i` that carries the given records. */
  function Started(m: Sessions, i: InstanceId, previous: Records): Sessions {
    Store(m, i, m.next + 1, Carried(m, i, previous))
      .(next := m.next + 1, known := m.known[m.next + 1 := i], live := m.live[i := m.next + 1])
  }

  function Merged(i: InstanceId, existing: ReplicaStates, states: map<PartitionId, State>): ReplicaStates {
    map p | p in existing.Keys + states.Keys ::
      if p in states then ReplicasOf(existing, p)[i := states[p]] else existing[p]
  }

  function Stored(m: Sessions, i: InstanceId, s: SessionId, r: ResourceId, states: map<PartitionId, State>): Sessions {
    var records := m.RecordsOf(i, s);
    Store(m, i, s, records[r := Merged(i, if r in records then records[r] else map[], states)])
  }

  // The calls.

  datatype Call =
    | Connect(instance: InstanceId)
    | Disconnect(instance: InstanceId, session: SessionId)
    | ExpireAndReconnect(instance: InstanceId, session: SessionId)
    | Publish(instance: InstanceId, session: SessionId, resource: ResourceId, states: map<PartitionId, State>)
    | Inject(instance: InstanceId, session: SessionId, resource: ResourceId, states: map<PartitionId, State>)
    | SetInitial(resource: ResourceId, state: State)

  function Refusal(m: Sessions, i: InstanceId, s: SessionId): Option<SessionError> {
    if i !in m.live then Some(NotLive(i))
    else if m.live[i] != s then Some(SessionMismatch(i, m.live[i], s))
    else None
  }

  /** Why a call fails, if it does. */
  function Fails(m: Sessions, c: Call): Option<SessionError> {
    match c
    case Connect(i) =>
      if i in m.live then Some(AlreadyLive(i)) else if m.next >= MAX_SEQUENCE then Some(SessionIdExhausted) else None
    case Disconnect(i, s) => Refusal(m, i, s)
    case ExpireAndReconnect(i, s) =>
      if Refusal(m, i, s).Some? then Refusal(m, i, s)
      else if m.next >= MAX_SEQUENCE then Some(SessionIdExhausted)
      else None
    case Publish(i, s, _, _) => Refusal(m, i, s)
    case Inject(i, s, _, _) =>
      if s !in m.known then Some(UnknownSession(s))
      else if m.known[s] != i then Some(SessionOwnershipMismatch(i, s, m.known[s]))
      else None
    case SetInitial(_, _) => None
  }

  /** The model after a call; a failed call changes nothing. */
  function After(m: Sessions, c: Call): Sessions {
    if Fails(m, c).Some? then m
    else match c
      case Connect(i) => Started(m, i, Previous(m, i))
      case Disconnect(i, _) => m.(live := m.live - {i})
      case ExpireAndReconnect(i, s) => Started(m, i, m.RecordsOf(i, s))
      case Publish(i, s, r, states) => Stored(m, i, s, r, states)
      case Inject(i, s, r, states) => Stored(m, i, s, r, states)
      case SetInitial(r, state) => m.(initial := m.initial[r := state])
  }

  predicate Starts(c: Call) {
    c.Connect? || c.ExpireAndReconnect?
  }

  // What every call keeps.

  lemma StartedIsValid(m: Sessions, i: InstanceId, previous: Records)
    requires m.Valid() && Owned(i, previous)
    ensures Started(m, i, previous).Valid()
  {
    var n, s := Started(m, i, previous), m.next + 1;
    CarriedIsOwned(m, i, previous);
    hide Carried, Owned;
    forall j | j in n.live
      ensures n.Newest(j, n.live[j])
    {
      if j != i {
        assert m.Newest(j, m.live[j]);
      }
    }
  }

  lemma MergedIsOwned(i: InstanceId, records: Records, r: ResourceId, states: map<PartitionId, State>)
    requires Owned(i, records)
    ensures Owned(i, records[r := Merged(i, if r in records then records[r] else map[], states)])
  {
    var existing := if r in records then records[r] else map[];
    forall p | p in Merged(i, existing, states)
      ensures Merged(i, existing, states)[p].Keys == {i}
    {
      assert p in existing ==> existing[p].Keys == {i};
    }
  }

  lemma StoredIsValid(m: Sessions, i: InstanceId, s: SessionId, r: ResourceId, states: map<PartitionId, State>)
    requires m.Valid() && s in m.known && m.known[s] == i
    ensures Stored(m, i, s, r, states).Valid()
  {
    var n := Stored(m, i, s, r, states);
    MergedIsOwned(i, m.RecordsOf(i, s), r, states);
    hide Merged, Owned;
    forall j | j in n.live
      ensures n.Newest(j, n.live[j])
    {
      assert m.Newest(j, m.live[j]);
    }
  }

  lemma CallKeepsValid(m: Sessions, c: Call)
    requires m.Valid()
    ensures After(m, c).Valid()
  {
    if Fails(m, c).None? {
      match c {
        case Connect(i) => StartedIsValid(m, i, Previous(m, i));
        case ExpireAndReconnect(i, s) => StartedIsValid(m, i, m.RecordsOf(i, s));
        case Publish(i, s, r, states) =>
          assert m.Newest(i, m.live[i]);
          StoredIsValid(m, i, s, r, states);
        case Inject(i, s, r, states) => StoredIsValid(m, i, s, r, states);
        case Disconnect(i, s) =>
          assert forall j | j in After(m, c).live :: m.Newest(j, m.live[j]);
        case SetInitial(r, state) =>
          assert forall j | j in m.live :: m.Newest(j, m.live[j]);
      }
    }
  }

  function Model(fallback: State): Sessions {
    Sessions(0, map[], map[], map[], fallback, map[])
  }

  /** The states a sequence of calls passes through. */
  function Reached(fallback: State, calls: seq<Call>): Sessions {
    if calls == [] then Model(fallback) else After(Reached(fallback, calls[..|calls| - 1]), calls[|calls| - 1])
  }

  lemma {:induction false} ReachedIsValid(fallback: State, calls: seq<Call>)
    ensures Reached(fallback, calls).Valid()
  {
    if calls != [] {
      ReachedIsValid(fallback, calls[..|calls| - 1]);
      CallKeepsValid(Reached(fallback, calls[..|calls| - 1]), calls[|calls| - 1]);
    }
  }

  /** In every reachable state the live session of an instance is its newest. */
  lemma LiveSessionIsNewest(fallback: State, calls: seq<Call>, i: InstanceId, s: SessionId)
    requires var m := Reached(fallback, calls); i in m.live && s in m.known && m.known[s] == i
    ensures s <= Reached(fallback, calls).live[i]
  {
    hide Reached;
    ReachedIsValid(fallback, calls);
    var m := Reached(fallback, calls);
    assert m.Newest(i, m.live[i]);
  }

  /** No session is ever forgotten or given away. */
  lemma {:induction false} SessionsAreKept(fallback: State, calls: seq<Call>, j: nat)
    requires j <= |calls|
    ensures var m, n := Reached(fallback, calls[..j]), Reached(fallback, calls);
            m.next <= n.next && forall s | s in m.known :: s in n.known && n.known[s] == m.known[s]
  {
    if j < |calls| {
      var front := calls[..|calls| - 1];
      assert front[..j] == calls[..j];
      SessionsAreKept(fallback, front, j);
      ReachedIsValid(fallback, front);
      hide After;
      CallKeepsKnown(Reached(fallback, front), calls[|calls| - 1]);
    } else {
      assert calls[..j] == calls;
    }
  }

  /** A new session is later than every session known before. */
  lemma SessionsIncrease(fallback: State, calls: seq<Call>, c: Call, s: SessionId)
    requires Starts(c) && Fails(Reached(fallback, calls), c).None? && s in Reached(fallback, calls).known
    ensures var n := Reached(fallback, calls + [c]);
            c.instance in n.live && s < n.live[c.instance] && n.live[c.instance] in n.known
  {
    assert (calls + [c])[..|calls|] == calls;
    ReachedIsValid(fallback, calls);
    NewSessionIsLater(Reached(fallback, calls), c);
  }

  lemma CallKeepsKnown(m: Sessions, c: Call)
    requires m.Valid()
    ensures m.next <= After(m, c).next
    ensures forall s | s in m.known :: s in After(m, c).known && After(m, c).known[s] == m.known[s]
  {
  }

  lemma NewSessionIsLater(m: Sessions, c: Call)
    requires m.Valid()
    ensures Starts(c) && Fails(m, c).None? ==>
              c.instance in After(m, c).live && After(m, c).live[c.instance] !in m.known
              && forall s | s in m.known :: s < After(m, c).live[c.instance]
  {
  }

  /** A write under any session but the live one never changes what others see. */
  lemma StaleWritesAreInvisible(m: Sessions, c: Call)
    requires m.Valid() && (c.Publish? || c.Inject?) && (c.instance in m.live ==> c.session != m.live[c.instance])
    ensures After(m, c).Snapshot() == m.Snapshot()
  {
    if Fails(m, c).None? {
      var n := After(m, c);
      hide Merged;
      forall i | i in m.live
        ensures n.RecordsOf(i, n.live[i]) == m.RecordsOf(i, m.live[i])
      {
      }
    }
  }

  /** `after` is `before` with the published states of `i` written over it. */
  ghost predicate Overwrites(i: InstanceId, before: ReplicaStates, states: map<PartitionId, State>,
                             after: ReplicaStates) {
    && after.Keys == before.Keys + states.Keys
    && (forall p | p in after :: after[p] == if p in states then map[i := states[p]] else before[p])
  }

  lemma MergedOverwrites(i: InstanceId, existing: ReplicaStates, states: map<PartitionId, State>)
    requires forall p | p in existing :: existing[p].Keys == {i}
    ensures Overwrites(i, existing, states, Merged(i, existing, states))
  {
    forall p | p in states
      ensures ReplicasOf(existing, p)[i := states[p]] == map[i := states[p]]
    {
      if p in existing {
        assert existing[p].Keys == {i};
      }
    }
  }

  lemma StoredSnapshot(m: Sessions, i: InstanceId, r: ResourceId, states: map<PartitionId, State>)
    requires m.Valid() && i in m.live
    ensures var before := m.RecordsOf(i, m.live[i]);
            Stored(m, i, m.live[i], r, states).Snapshot()
            == var merged := Merged(i, if r in before then before[r] else map[], states);
               m.Snapshot()[i := ActiveState(m.live[i], before[r := merged])]
  {
    hide Merged, Owned;
  }

  /** A write under the live session shows exactly the published states over what was there, and
      nothing else changes. */
  lemma PublishIsVisible(m: Sessions, c: Call) returns (published: ReplicaStates)
    requires m.Valid() && c.Publish? && Fails(m, c).None?
    ensures c.instance in m.Snapshot()
    ensures var before := m.Snapshot()[c.instance].resources;
            && Overwrites(c.instance, if c.resource in before then before[c.resource] else map[], c.states, published)
            && After(m, c).Snapshot() == m.Snapshot()[c.instance := ActiveState(c.session,
                before[c.resource := published])]
  {
    var i, r := c.instance, c.resource;
    var before := m.RecordsOf(i, c.session);
    var existing := if r in before then before[r] else map[];
    published := Merged(i, existing, c.states);
    StoredSnapshot(m, i, r, c.states);
    PreviousIsOwned(m, i);
    assert Owned(i, before);
    MergedOverwrites(i, existing, c.states);
    hide Merged, Owned, Overwrites, Sessions.Valid, Stored;
    assert m.Snapshot()[i].resources == before;
    assert After(m, c).Snapshot() == m.Snapshot()[i := ActiveState(c.session, before[r := published])];
  }

  lemma PreviousIsOwned(m: Sessions, i: InstanceId)
    requires m.Valid()
    ensures Owned(i, Previous(m, i)) && forall s :: Owned(i, m.RecordsOf(i, s))
  {
    assert Owned(i, map[]);
  }

  /** The session whose records a new session of its instance carries: the newest for a connection, the
      expired one for an expiry. */
  ghost predicate CarriesFrom(m: Sessions, c: Call, s: SessionId)
    requires Starts(c)
  {
    if c.Connect? then m.Newest(c.instance, s) else s == c.session
  }

  /** Right after a connection or an expiry, the new session holds exactly the partitions of the session it
      carries from, each at its resource's initial state; no other instance changes. */
  lemma CarriedAtInitial(m: Sessions, c: Call, s: SessionId)
    requires m.Valid() && Starts(c) && Fails(m, c).None? && CarriesFrom(m, c, s)
    ensures var i, n, before := c.instance, After(m, c), m.RecordsOf(c.instance, s);
            && i in n.Snapshot() && n.Snapshot()[i].resources.Keys == before.Keys
            && (forall r | r in before ::
                  n.Snapshot()[i].resources[r]
                  == AllInitial(i, before[r], if r in m.initial then m.initial[r] else m.fallback))
    ensures forall j | j != c.instance ::
              (j in After(m, c).Snapshot() <==> j in m.Snapshot())
                  && (j in m.Snapshot() ==> After(m, c).Snapshot()[j] == m.Snapshot()[j])
  {
    var i, before := c.instance, m.RecordsOf(c.instance, s);
    if c.Connect? {
      PreviousIsNewest(m, i, s);
    }
    PreviousIsOwned(m, i);
    StartedSnapshot(m, i, before);
    hide Previous, Started, Owned, Sessions.Valid, Sessions.Snapshot, Sessions.RecordsOf;
    forall r | r in before
      ensures CarriedResource(i, before[r], m.InitialOf(r)) == AllInitial(i, before[r], m.InitialOf(r))
    {
      CarriedIsInitial(m, i, before, r);
    }
  }

  lemma PreviousIsNewest(m: Sessions, i: InstanceId, s: SessionId)
    requires m.Valid() && m.Newest(i, s)
    ensures Previous(m, i) == m.RecordsOf(i, s)
  {
    assert Owner(i, s) in m.current && s in m.SessionsOf(i);
    var last := LastSession(m.SessionsOf(i));
    assert last in m.known && m.known[last] == i;
  }

  /** An instance that never had a session starts with nothing. */
  lemma FirstSessionIsEmpty(m: Sessions, i: InstanceId)
    requires m.Valid() && Fails(m, Connect(i)).None? && forall s | s in m.known :: m.known[s] != i
    ensures i in After(m, Connect(i)).Snapshot() && After(m, Connect(i)).Snapshot()[i].resources == map[]
  {
    assert m.SessionsOf(i) == {};
    StartedSnapshot(m, i, map[]);
    assert Carried(m, i, map[]) == map[];
  }

  function AllInitial(i: InstanceId, states: ReplicaStates, initial: State): ReplicaStates {
    map p | p in states :: map[i := initial]
  }

  lemma CarriedIsInitial(m: Sessions, i: InstanceId, previous: Records, r: ResourceId)
    requires Owned(i, previous) && r in previous
    ensures CarriedResource(i, previous[r], m.InitialOf(r)) == AllInitial(i, previous[r], m.InitialOf(r))
  {
    forall p | p in previous[r]
      ensures CarriedReplicas(i, previous[r][p], m.InitialOf(r)) == map[i := m.InitialOf(r)]
    {
      assert previous[r][p].Keys == {i};
    }
  }

  /** A new session shows its carried records and changes no other instance. */
  lemma StartedSnapshot(m: Sessions, i: InstanceId, previous: Records)
    requires m.Valid()
    ensures var n := Started(m, i, previous);
            && i in n.Snapshot() && n.Snapshot()[i] == ActiveState(m.next + 1, Carried(m, i, previous))
            && (forall j | j != i ::
                  (j in n.Snapshot() <==> j in m.Snapshot())
                      && (j in m.Snapshot() ==> n.Snapshot()[j] == m.Snapshot()[j]))
  {
    hide Carried, Owned;
  }

  /** The model object. */
  class ParticipantSessionState {
    var next: nat
    var known: map<SessionId, InstanceId>
    var live: map<InstanceId, SessionId>
    var current: map<Owner, Records>
    const fallback: State
    var initial: map<ResourceId, State>

    function Value(): Sessions
      reads this
    {
      Sessions(next, known, live, current, fallback, initial)
    }

    constructor (fallback: State)
      ensures Value() == Reached(fallback, [])
    {
      next, known, live, current, initial := 0, map[], map[], map[], map[];
      this.fallback := fallback;
    }

    method SetResourceInitialState(r: ResourceId, state: State)
      modifies this
      ensures Value() == After(old(Value()), SetInitial(r, state))
    {
      initial := initial[r := state];
    }

    /** `carried_current_states`. */
    method CarryRecords(i: InstanceId, previous: Records) returns (carried: Records)
      ensures carried == Carried(Value(), i, previous)
    {
      var resources := SortedKeys(previous.Keys);
      carried := map[];
      assert carried == CarriedPart(Value(), i, previous, []);
      for k := 0 to |resources|
        invariant carried == CarriedPart(Value(), i, previous, resources[..k])
      {
        var r := resources[k];
        CarriedNext(Value(), i, previous, resources, k);
        var state := if r in initial then initial[r] else fallback;
        hide CarriedPart, CarriedResource;
        carried := carried[r := CarriedResource(i, previous[r], state)];
      }
      assert resources[..|resources|] == resources;
      assert CarriedPart(Value(), i, previous, resources) == Carried(Value(), i, previous) by {
        CarriedWhole(Value(), i, previous, resources);
      }
    }

    method AllocateSession(i: InstanceId) returns (r: Result<SessionId, SessionError>)
      modifies this
      ensures r.Ok? <==> old(next) < MAX_SEQUENCE
      ensures r.Err? ==> Value() == old(Value()) && r.error == SessionIdExhausted
      ensures r.Ok? ==>
                r.value == old(next) + 1 && Value() == old(Value()).(next := r.value, known := old(known)[r.value := i])
    {
      if next >= MAX_SEQUENCE {
        return Err(SessionIdExhausted);
      }
      next := next + 1;
      known := known[next := i];
      r := Ok(next);
    }

    /** The part connecting and reconnecting share. */
    method StartSession(i: InstanceId, previous: Records) returns (r: Result<SessionId, SessionError>)
      modifies this
      ensures r.Ok? <==> old(next) < MAX_SEQUENCE
      ensures r.Err? ==> Value() == old(Value()) && r.error == SessionIdExhausted
      ensures r.Ok? ==> r.value == old(next) + 1 && Value() == Started(old(Value()), i, previous)
    {
      hide Carried;
      var carried := CarryRecords(i, previous);
      r := AllocateSession(i);
      if r.Ok? {
        live := live[i := r.value];
        current := current[Owner(i, r.value) := carried];
      }
    }

    method Connect(i: InstanceId) returns (r: Result<SessionId, SessionError>)
      requires Value().Valid()
      modifies this
      ensures Value() == After(old(Value()), Call.Connect(i)) && Value().Valid()
      ensures match Fails(old(Value()), Call.Connect(i))
              case Some(e) => r == Err(e)
              case None => r == Ok(Value().live[i])
    {
      CallKeepsValid(Value(), Call.Connect(i));
      if i in live {
        return Err(AlreadyLive(i));
      }
      hide Previous, Carried, Sessions.Valid;
      r := StartSession(i, Previous(Value(), i));
    }

    /** `require_live_session`. */
    method RequireLiveSession(i: InstanceId, s: SessionId) returns (refusal: Option<SessionError>)
      ensures refusal == Refusal(Value(), i, s)
    {
      if i in live {
        refusal := if live[i] == s then None else Some(SessionMismatch(i, live[i], s));
      } else {
        refusal := Some(NotLive(i));
      }
    }

    method Disconnect(i: InstanceId, s: SessionId) returns (r: Result<(), SessionError>)
      requires Value().Valid()
      modifies this
      ensures Value() == After(old(Value()), Call.Disconnect(i, s)) && Value().Valid()
      ensures match Refusal(old(Value()), i, s)
              case Some(e) => r == Err(e)
              case None => r == Ok(())
    {
      CallKeepsValid(Value(), Call.Disconnect(i, s));
      var refusal := RequireLiveSession(i, s);
      if refusal.Some? {
        return Err(refusal.value);
      }
      live := live - {i};
      r := Ok(());
    }

    method ExpireAndReconnect(i: InstanceId, s: SessionId) returns (r: Result<SessionId, SessionError>)
      requires Value().Valid()
      modifies this
      ensures Value() == After(old(Value()), Call.ExpireAndReconnect(i, s)) && Value().Valid()
      ensures match Fails(old(Value()), Call.ExpireAndReconnect(i, s))
              case Some(e) => r == Err(e)
              case None => r == Ok(Value().live[i])
    {
      CallKeepsValid(Value(), Call.ExpireAndReconnect(i, s));
      var refusal := RequireLiveSession(i, s);
      if refusal.Some? {
        return Err(refusal.value);
      }
      hide Carried, Sessions.Valid;
      r := StartSession(i, Value().RecordsOf(i, s));
    }

    method PublishCurrentState(i: InstanceId, s: SessionId, resource: ResourceId, states: map<PartitionId, State>)
      returns (r: Result<(), SessionError>)
      requires Value().Valid()
      modifies this
      ensures Value() == After(old(Value()), Publish(i, s, resource, states)) && Value().Valid()
      ensures match Fails(old(Value()), Publish(i, s, resource, states))
              case Some(e) => r == Err(e)
              case None => r == Ok(())
    {
      CallKeepsValid(Value(), Publish(i, s, resource, states));
      var refusal := RequireLiveSession(i, s);
      if refusal.Some? {
        return Err(refusal.value);
      }
      StoreCurrentState(i, s, resource, states);
      r := Ok(());
    }

    method InjectSessionCurrentState(i: InstanceId, s: SessionId, resource: ResourceId, states: map<PartitionId,
                                     State>) returns (r: Result<(), SessionError>)
      requires Value().Valid()
      modifies this
      ensures Value() == After(old(Value()), Inject(i, s, resource, states)) && Value().Valid()
      ensures match Fails(old(Value()), Inject(i, s, resource, states))
              case Some(e) => r == Err(e)
              case None => r == Ok(())
    {
      CallKeepsValid(Value(), Inject(i, s, resource, states));
      if s !in known {
        return Err(UnknownSession(s));
      }
      if known[s] != i {
        return Err(SessionOwnershipMismatch(i, s, known[s]));
      }
      StoreCurrentState(i, s, resource, states);
      r := Ok(());
    }

    method StoreCurrentState(i: InstanceId, s: SessionId, resource: ResourceId, states: map<PartitionId, State>)
      modifies this
      ensures Value() == Stored(old(Value()), i, s, resource, states)
    {
      var records := Value().RecordsOf(i, s);
      var merged := Merged(i, if resource in records then records[resource] else map[], states);
      var updated: Records := records[resource := merged];
      current := current[Owner(i, s) := updated];
    }
  }
}
