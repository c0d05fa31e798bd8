/** Dashboard leases: which client controls which instance of a process, over connections that
    come and go (`ControlPlane`, packages/daemon/src/daemon.ts). */
module Leases {
  import opened Wrappers
  import opened Events
  import C = Commands
  import E = EventStore

  type Socket = nat

  datatype Bridge = Bridge(instanceId: Uuid, socket: Socket)

  datatype Lease = Lease(owner: Socket, processId: Uuid, sessionId: Uuid, instanceId: Uuid)

  /** Frames about a lease. */
  datatype Frame = Granted(leaseId: Uuid) | Control(leaseId: Uuid) | Disconnected(leaseId: Uuid)
                 | Revoked(leaseId: Uuid) | TargetGone(leaseId: Uuid) | Reply(leaseId: Uuid)

  datatype Delivery = Delivery(to: Socket, frame: Frame)

  /** A subscription of a connection, which holds a replay lease of the store. */
  datatype Subscription = Subscription(socket: Socket, lease: Uuid)

  /** `bindings` names the producer that a bridge's connection registered, `subscriber` the replay
      lease of the subscription that a connection made last; `sent` is everything ever sent about
      dashboard leases. */
  datatype Plane = Plane(tables: E.Tables, bridges: map<Uuid, Bridge>, leases: map<Uuid, Lease>,
                         bindings: map<Socket, Producer>, subscriptions: set<Subscription>,
                         subscriber: map<Socket, Uuid>, router: C.Router, open: set<Socket>, sent: set<Delivery>)

  datatype Error = RoleViolation | TargetUnavailable | LeaseConflict | ProducerNotRegistered

  /** What the store and the registry answer about a process: its newest live instance, and
      whether that instance can be routed to. */
  datatype Answer = Answer(newest: Option<Uuid>, routable: bool)

  /** `getProcess` may name any live instance of the process. */
  predicate Truthful(t: E.Tables, processId: Uuid, answer: Answer) {
    answer.newest.Some? ==>
      answer.newest.value in t.instances && t.instances[answer.newest.value].processId == processId
      && t.instances[answer.newest.value].state.Live?
  }

  function LiveTarget(s: Plane, processId: Uuid, sessionId: Uuid, answer: Answer): Option<Bridge> {
    if processId in s.tables.processes && answer.newest.Some?
       && s.tables.processes[processId].state.Live? && s.tables.processes[processId].sessionId == sessionId
       && processId in s.bridges && s.bridges[processId].instanceId == answer.newest.value && answer.routable
    then Some(s.bridges[processId]) else None
  }

  // ---------------------------------------------------------------- dropping leases

  /** The leases of other instances of a process than the one that registers. */
  predicate Superseded(lease: Lease, producer: Producer) {
    lease.processId == producer.processId && lease.instanceId != producer.instanceId
  }

  /** The word to the bridge of a lease that is dropped, if its process has one. */
  function Farewell(bridges: map<Uuid, Bridge>, id: Uuid, lease: Lease): set<Delivery> {
    if lease.processId in bridges then {Delivery(bridges[lease.processId].socket, Disconnected(id))} else {}
  }

  function Farewells(bridges: map<Uuid, Bridge>, dropped: map<Uuid, Lease>): set<Delivery> {
    set id | id in dropped && dropped[id].processId in bridges
      :: Delivery(bridges[dropped[id].processId].socket, Disconnected(id))
  }

  function Revocations(dropped: map<Uuid, Lease>): set<Delivery> {
    set id | id in dropped :: Delivery(dropped[id].owner, Revoked(id))
  }

  function Release(s: Plane, id: Uuid): Plane {
    if id !in s.leases then s
    else s.(leases := s.leases - {id}, sent := s.sent + Farewell(s.bridges, id, s.leases[id]))
  }

  function Revoke(s: Plane, id: Uuid): Plane
    requires id in s.leases
  {
    var s1 := Release(s, id);
    s1.(sent := s1.sent + {Delivery(s.leases[id].owner, Revoked(id))})
  }

  function SupersededLeases(leases: map<Uuid, Lease>, producer: Producer): map<Uuid, Lease> {
    map id | id in leases && Superseded(leases[id], producer) :: leases[id]
  }

  function OwnedLeases(leases: map<Uuid, Lease>, owner: Socket): map<Uuid, Lease> {
    map id | id in leases && leases[id].owner == owner :: leases[id]
  }

  // ---------------------------------------------------------------- messages

  function Register(s: Plane, socket: Socket, producer: Producer, sessionId: Uuid): Result<Plane, Error> {
    if socket in s.bindings then Err(RoleViolation)
    else
      var dropped := SupersededLeases(s.leases, producer);
      Ok(Plane(E.Register(s.tables, producer, sessionId),
        s.bridges[producer.processId := Bridge(producer.instanceId, socket)],
               s.leases - dropped.Keys, s.bindings[socket := producer], s.subscriptions, s.subscriber,
               s.router.(bindings := s.router.bindings + {producer}), s.open,
               s.sent + Farewells(s.bridges, dropped) + Revocations(dropped)))
  }

  function Acquire(s: Plane, owner: Socket, id: Uuid, processId: Uuid, sessionId: Uuid, answer: Answer)
    : Result<Plane, Error>
  {
    var target := LiveTarget(s, processId, sessionId, answer);
    if target.None? then Err(TargetUnavailable)
    else Ok(s.(leases := s.leases[id := Lease(owner, processId, sessionId, target.value.instanceId)],
               sent := s.sent + {Delivery(owner, Granted(id))}))
  }

  predicate OwnedLease(s: Plane, id: Uuid, owner: Socket, processId: Uuid, sessionId: Uuid) {
    id in s.leases && s.leases[id].owner == owner && s.leases[id].processId == processId
      && s.leases[id].sessionId == sessionId
  }

  function ReleaseOwned(s: Plane, owner: Socket, id: Uuid): Result<Plane, Error> {
    if id !in s.leases || s.leases[id].owner != owner then Err(LeaseConflict) else Ok(Release(s, id))
  }

  /** Where a control frame of a lease goes. */
  datatype Routing = Routed(to: Socket) | Mismatch | Unavailable

  function RoutingOf(s: Plane, lease: Lease, answer: Answer): Routing {
    var target := LiveTarget(s, lease.processId, lease.sessionId, answer);
    if target.None? then Unavailable
    else if target.value.instanceId != lease.instanceId then Mismatch
    else Routed(target.value.socket)
  }

  function Route(s: Plane, owner: Socket, id: Uuid, processId: Uuid, sessionId: Uuid, answer: Answer)
    : Result<Plane, Error>
  {
    if !OwnedLease(s, id, owner, processId, sessionId) then Err(LeaseConflict)
    else match RoutingOf(s, s.leases[id], answer)
         case Routed(to) => Ok(s.(sent := s.sent + {Delivery(to, Control(id))}))
         case Mismatch => Ok(Revoke(s, id))
         case Unavailable => Ok(s.(sent := s.sent + {Delivery(owner, TargetGone(id))}))
  }

  /** A frame of a bridge for the owner of a lease. */
  function Answered(s: Plane, socket: Socket, id: Uuid, processId: Uuid, sessionId: Uuid): Result<Plane, Error> {
    if socket !in s.bindings || s.bindings[socket].processId != processId then Err(ProducerNotRegistered)
    else if id !in s.leases || s.leases[id].processId != processId || s.leases[id].sessionId != sessionId then
      Err(LeaseConflict)
    else Ok(s.(sent := s.sent + {Delivery(s.leases[id].owner, Reply(id))}))
  }

  /** Another subscription of a connection joins the earlier ones and replaces them as the one that
      the connection knows. */
  function Subscribe(s: Plane, socket: Socket, id: Uuid, minimumCursor: int, expiresAt: int): Plane {
    s.(subscriptions := s.subscriptions + {Subscription(socket, id)}, subscriber := s.subscriber[socket := id],
       tables := s.tables.(leases := s.tables.leases[id := E.ReplayLease(minimumCursor, expiresAt)]))
  }

  /** Drops the subscription that the connection knows. */
  function Unsubscribe(s: Plane, socket: Socket): Plane {
    if socket !in s.subscriber then s
    else s.(subscriptions := s.subscriptions - {Subscription(socket, s.subscriber[socket])},
            subscriber := s.subscriber - {socket},
            tables := s.tables.(leases := s.tables.leases - {s.subscriber[socket]}))
  }

  function Close(s: Plane, socket: Socket): Plane {
    var dropped := OwnedLeases(s.leases, socket);
    var s1 := Unsubscribe(s, socket).(
      leases := s.leases - dropped.Keys, sent := s.sent + Farewells(s.bridges, dropped),
      bindings := s.bindings - {socket}, open := s.open - {socket});
    if socket !in s.bindings then s1
    else
      var target := s.bindings[socket];
      var p, i := target.processId, target.instanceId;
      s1.(bridges := if p in s.bridges && s.bridges[p].instanceId == i then s.bridges - {p} else s.bridges,
          router := C.Disconnect(s.router, target), tables := E.SetInstanceState(s1.tables, i, E.Dead))
  }
}

/** The control plane as an object, proved against the functions of `Leases`. */
module LeasesClass {
  import opened Wrappers
  import opened Events
  import C = Commands
  import E = EventStore
  import opened CommandsClass
  import opened Leases

  class ControlPlane {
    const router: CommandRouter
    var tables: E.Tables
    var bridges: map<Uuid, Bridge>
    var leases: map<Uuid, Lease>
    var bindings: map<Socket, Producer>
    var subscriptions: set<Subscription>
    var subscriber: map<Socket, Uuid>
    var open: set<Socket>
    var sent: set<Delivery>

    function State(): Plane
      reads this, router, router.store
    {
      Plane(tables, bridges, leases, bindings, subscriptions, subscriber, router.State(), open, sent)
    }

    constructor (tables: E.Tables, router: CommandRouter)
      ensures this.router == router
           && State() == Plane(tables, map[], map[], map[], {}, map[], router.State(), {}, {})
    {
      this.router, this.tables, bridges, leases := router, tables, map[], map[];
      bindings, subscriptions, subscriber, open, sent := map[], {}, map[], {}, {};
    }

    method Open(socket: Socket)
      modifies this`open
      ensures State() == old(State()).(open := old(open) + {socket})
    {
      open := open + {socket};
    }

    method ReleaseDashboardLease(id: Uuid)
      modifies this`leases, this`sent
      ensures State() == Release(old(State()), id)
    {
      if id !in leases { return; }
      var lease := leases[id];
      leases := leases - {id};
      if lease.processId in bridges { sent := sent + {Delivery(bridges[lease.processId].socket, Disconnected(id))}; }
    }

    method RevokeDashboardLease(id: Uuid)
      requires id in leases
      modifies this`leases, this`sent
      ensures State() == Revoke(old(State()), id)
    {
      var owner := leases[id].owner;
      ReleaseDashboardLease(id);
      sent := sent + {Delivery(owner, Revoked(id))};
    }

    method RevokeSuperseded(producer: Producer)
      modifies this`leases, this`sent
      ensures var dropped := SupersededLeases(old(leases), producer);
              leases == old(leases) - dropped.Keys
                && sent == old(sent) + Farewells(bridges, dropped) + Revocations(dropped)
    {
      hide Farewells, Revocations, Farewell, Without;
      ghost var before := leases;
      ghost var gone: map<Uuid, Lease> := map[];
      NothingDropped(bridges, leases);
      var todo := leases.Keys;
      while todo != {}
        invariant todo <= leases.Keys && todo <= before.Keys && bridges == old(bridges)
        invariant forall id :: id in gone <==> id in before && id !in todo && Superseded(before[id], producer)
        invariant forall id :: id in gone ==> gone[id] == before[id]
        invariant Without(before, gone, leases) && forall id :: id in todo ==> leases[id] == before[id]
        invariant sent == old(sent) + Farewells(bridges, gone) + Revocations(gone)
        decreases |todo|
      {
        var id :| id in todo;
        todo := todo - {id};
        if Superseded(leases[id], producer) {
          DroppedOneMore(bridges, gone, id, before[id]);
          WithoutOneMore(before, gone, leases, id);
          UnionsMove(old(sent), Farewells(bridges, gone), Revocations(gone), Farewell(bridges, id, before[id]),
            {Delivery(before[id].owner, Revoked(id))});
          gone := gone[id := before[id]];
          RevokeDashboardLease(id);
        }
      }
      assert gone == SupersededLeases(before, producer);
      WithoutIs(before, gone, leases);
    }

    method Register(socket: Socket, producer: Producer, sessionId: Uuid) returns (answer: Result<(), Error>)
      modifies this, router
      ensures var after := Leases.Register(old(State()), socket, producer, sessionId);
              if after.Err? then State() == old(State()) && answer == Err(after.error)
              else State() == after.value && answer == Ok(())
    {
      if socket in bindings { return Err(RoleViolation); }
      tables := E.Register(tables, producer, sessionId);
      RevokeSuperseded(producer);
      bindings := bindings[socket := producer];
      router.Bind(producer);
      bridges := bridges[producer.processId := Bridge(producer.instanceId, socket)];
      return Ok(());
    }

    method Acquire(owner: Socket, id: Uuid, processId: Uuid, sessionId: Uuid, about: Answer)
      returns (answer: Result<(), Error>)
      modifies this`leases, this`sent
      ensures var after := Leases.Acquire(old(State()), owner, id, processId, sessionId, about);
              if after.Err? then State() == old(State()) && answer == Err(after.error)
              else State() == after.value && answer == Ok(())
    {
      var target := LiveTarget(State(), processId, sessionId, about);
      if target.None? { return Err(TargetUnavailable); }
      leases := leases[id := Lease(owner, processId, sessionId, target.value.instanceId)];
      sent := sent + {Delivery(owner, Granted(id))};
      return Ok(());
    }

    method RouteEphemeral(owner: Socket, id: Uuid, processId: Uuid, sessionId: Uuid, about: Answer)
      returns (answer: Result<(), Error>)
      modifies this`leases, this`sent
      ensures var after := Route(old(State()), owner, id, processId, sessionId, about);
              if after.Err? then State() == old(State()) && answer == Err(after.error)
              else State() == after.value && answer == Ok(())
    {
      if !OwnedLease(State(), id, owner, processId, sessionId) { return Err(LeaseConflict); }
      var lease := leases[id];
      var target := LiveTarget(State(), lease.processId, lease.sessionId, about);
      if target.None? {
        sent := sent + {Delivery(lease.owner, TargetGone(id))};
      } else if target.value.instanceId != lease.instanceId {
        RevokeDashboardLease(id);
      } else {
        sent := sent + {Delivery(target.value.socket, Control(id))};
      }
      return Ok(());
    }

    method ReleaseLease(owner: Socket, id: Uuid) returns (answer: Result<(), Error>)
      modifies this`leases, this`sent
      ensures var after := ReleaseOwned(old(State()), owner, id);
              if after.Err? then State() == old(State()) && answer == Err(after.error)
              else State() == after.value && answer == Ok(())
    {
      if id !in leases || leases[id].owner != owner { return Err(LeaseConflict); }
      ReleaseDashboardLease(id);
      return Ok(());
    }

    method AnswerOwner(socket: Socket, id: Uuid, processId: Uuid, sessionId: Uuid) returns (answer: Result<(), Error>)
      modifies this`sent
      ensures var after := Answered(old(State()), socket, id, processId, sessionId);
              if after.Err? then State() == old(State()) && answer == Err(after.error)
              else State() == after.value && answer == Ok(())
    {
      if socket !in bindings || bindings[socket].processId != processId { return Err(ProducerNotRegistered); }
      if id !in leases || leases[id].processId != processId || leases[id].sessionId != sessionId {
        return Err(LeaseConflict);
      }
      sent := sent + {Delivery(leases[id].owner, Frame.Reply(id))};
      return Ok(());
    }

    method Subscribe(socket: Socket, id: Uuid, minimumCursor: int, expiresAt: int)
      modifies this`subscriptions, this`subscriber, this`tables
      ensures State() == Leases.Subscribe(old(State()), socket, id, minimumCursor, expiresAt)
    {
      tables := tables.(leases := tables.leases[id := E.ReplayLease(minimumCursor, expiresAt)]);
      subscriptions := subscriptions + {Subscription(socket, id)};
      subscriber := subscriber[socket := id];
    }

    method ReleaseAllOf(owner: Socket)
      modifies this`leases, this`sent
      ensures var dropped := OwnedLeases(old(leases), owner);
              leases == old(leases) - dropped.Keys && sent == old(sent) + Farewells(bridges, dropped)
    {
      hide Farewells, Revocations, Farewell, Without, OwnedLeases;
      ghost var before := leases;
      ghost var gone: map<Uuid, Lease> := map[];
      NothingDropped(bridges, leases);
      var todo := leases.Keys;
      while todo != {}
        invariant todo <= leases.Keys && todo <= before.Keys && bridges == old(bridges)
        invariant forall id :: id in gone <==> id in before && id !in todo && before[id].owner == owner
        invariant forall id :: id in gone ==> gone[id] == before[id]
        invariant Without(before, gone, leases) && forall id :: id in todo ==> leases[id] == before[id]
        invariant sent == old(sent) + Farewells(bridges, gone)
        decreases |todo|
      {
        var id :| id in todo;
        todo := todo - {id};
        if leases[id].owner == owner {
          DroppedOneMore(bridges, gone, id, before[id]);
          WithoutOneMore(before, gone, leases, id);
          UnionMoves(old(sent), Farewells(bridges, gone), Farewell(bridges, id, before[id]));
          gone := gone[id := before[id]];
          ReleaseDashboardLease(id);
        }
      }
      GoneIsOwned(before, gone, owner);
      WithoutIs(before, gone, leases);
    }

    method CloseSocket(socket: Socket)
      modifies this, router, router.store
      ensures State() == Close(old(State()), socket)
    {
      hide Farewells, OwnedLeases, E.SetInstanceState, C.Disconnect;
      if socket in subscriber {
        subscriptions := subscriptions - {Subscription(socket, subscriber[socket])};
        tables := tables.(leases := tables.leases - {subscriber[socket]});
        subscriber := subscriber - {socket};
      }
      ReleaseAllOf(socket);
      if socket in bindings {
        var binding := bindings[socket];
        if binding.processId in bridges && bridges[binding.processId].instanceId == binding.instanceId {
          bridges := bridges - {binding.processId};
        }
        router.Disconnect(binding);
        tables := E.SetInstanceState(tables, binding.instanceId, E.Dead);
      }
      bindings := bindings - {socket};
      open := open - {socket};
    }
  }

  /** `rest` is `before` without the keys of `gone`. */
  ghost predicate Without(before: map<Uuid, Lease>, gone: map<Uuid, Lease>, rest: map<Uuid, Lease>) {
    && (forall id :: id in rest <==> id in before && id !in gone)
    && (forall id :: id in rest ==> rest[id] == before[id])
  }

  lemma UnionsMove<T>(a: set<T>, f: set<T>, r: set<T>, f': set<T>, r': set<T>)
    ensures a + f + r + f' + r' == a + (f + f') + (r + r')
  {
  }

  lemma UnionMoves<T>(a: set<T>, f: set<T>, f': set<T>)
    ensures a + f + f' == a + (f + f')
  {
  }

  lemma NothingDropped(bridges: map<Uuid, Bridge>, leases: map<Uuid, Lease>)
    ensures Farewells(bridges, map[]) == {} && Revocations(map[]) == {} && Without(leases, map[], leases)
  {
  }

  lemma WithoutOneMore(before: map<Uuid, Lease>, gone: map<Uuid, Lease>, rest: map<Uuid, Lease>, id: Uuid)
    requires Without(before, gone, rest) && id in rest
    ensures Without(before, gone[id := before[id]], rest - {id})
    ensures rest[id] == before[id]
  {
  }

  lemma GoneIsOwned(before: map<Uuid, Lease>, gone: map<Uuid, Lease>, owner: Socket)
    requires forall id :: id in gone <==> id in before && before[id].owner == owner
    requires forall id :: id in gone ==> gone[id] == before[id]
    ensures gone == OwnedLeases(before, owner)
  {
  }

  lemma WithoutIs(before: map<Uuid, Lease>, gone: map<Uuid, Lease>, rest: map<Uuid, Lease>)
    requires Without(before, gone, rest)
    ensures rest == before - gone.Keys
  {
  }

  lemma DroppedOneMore(bridges: map<Uuid, Bridge>, gone: map<Uuid, Lease>, id: Uuid, lease: Lease)
    requires id !in gone
    ensures Farewells(bridges, gone[id := lease]) == Farewells(bridges, gone) + Farewell(bridges, id, lease)
    ensures Revocations(gone[id := lease]) == Revocations(gone) + {Delivery(lease.owner, Revoked(id))}
  {
    var more := gone[id := lease];
    assert forall x :: x in gone ==> x in more && more[x] == gone[x];
    forall d ensures d in Farewells(bridges, more) <==> d in Farewells(bridges, gone) + Farewell(bridges, id, lease) {
      if d in Farewell(bridges, id, lease) { assert id in more; }
    }
    forall d ensures d in Revocations(more) <==> d in Revocations(gone) + {Delivery(lease.owner, Revoked(id))} {
      if d == Delivery(lease.owner, Revoked(id)) { assert id in more; }
    }
  }
}

/** What leases guarantee over every run. */
module LeaseProperties {
  import opened Wrappers
  import opened Events
  import C = Commands
  import CP = CommandProperties
  import E = EventStore
  import opened Leases

  /** A control frame that was routed: its lease, its sender, the receiving connection, and, at that
      moment, whether that was open, what it was bound to, if anything, and the session that it had
      registered. */
  datatype Passage = Passage(leaseId: Uuid, owner: Socket, to: Socket, toOpen: bool, receiver: Option<Producer>,
                             sessionId: Option<Uuid>)

  /** The control plane with its history: every lease ever granted, every frame ever routed, the
      session that each connection registered, the instance that registered last for each process,
      and the replay leases that each connection was given. */
  datatype World = World(s: Plane, granted: map<Uuid, Lease>, routed: set<Passage>, sessions: map<Socket, Uuid>,
                         latest: map<Uuid, Uuid>, subscribed: map<Socket, seq<Uuid>>)

  datatype Step = Open(socket: Socket)
                | Register(socket: Socket, producer: Producer, sessionId: Uuid)
                | Acquire(owner: Socket, id: Uuid, processId: Uuid, sessionId: Uuid, answer: Answer)
                | Release(owner: Socket, id: Uuid)
                | Route(owner: Socket, id: Uuid, processId: Uuid, sessionId: Uuid, answer: Answer)
                | Reply(socket: Socket, id: Uuid, processId: Uuid, sessionId: Uuid)
                | Subscribe(socket: Socket, id: Uuid, minimumCursor: int, expiresAt: int)
                | Dispatch(step: CP.Step)  // command frames and other bridges' traffic with the router
                | Close(socket: Socket)
                | SetState(instanceId: Uuid, state: E.Liveness)

  const START :=
    World(Plane(E.EMPTY_TABLES, map[], map[], map[], {}, map[], CP.START, {}, {}), map[], {}, map[], map[], map[])

  ghost predicate NewReplayLease(w: World, id: Uuid) {
    forall socket :: socket in w.subscribed ==> id !in w.subscribed[socket]
  }

  /** Messages come from open connections; connections and lease ids are new. */
  ghost predicate Possible(w: World, step: Step) {
    match step
    case Open(socket) => socket !in w.subscribed
    case Register(socket, _, _) => socket in w.s.open
    case Acquire(owner, id, p, _, answer) => owner in w.s.open && id !in w.granted && Truthful(w.s.tables, p, answer)
    case Release(owner, _) => owner in w.s.open
    case Route(owner, _, p, _, answer) => owner in w.s.open && Truthful(w.s.tables, p, answer)
    case Reply(socket, _, _, _) => socket in w.s.open
    case Subscribe(socket, id, _, _) => socket in w.s.open && socket in w.subscribed && NewReplayLease(w, id)
    case Close(socket) => socket in w.s.open
    case _ => true
  }

  function After(s: Plane, answer: Result<Plane, Error>): Plane {
    if answer.Ok? then answer.value else s
  }

  function Passed(w: World, owner: Socket, id: Uuid, processId: Uuid, sessionId: Uuid, answer: Answer): set<Passage> {
    var s := w.s;
    if !OwnedLease(s, id, owner, processId, sessionId) then {}
    else
      var routing := RoutingOf(s, s.leases[id], answer);
      if !routing.Routed? then {}
      else
        {Passage(id, owner, routing.to, routing.to in s.open,
                 if routing.to in s.bindings then Some(s.bindings[routing.to]) else None,
                 if routing.to in w.sessions then Some(w.sessions[routing.to]) else None)}
  }

  ghost function Next(w: World, step: Step): World
    requires Possible(w, step)
  {
    var s := w.s;
    match step
    case Open(socket) => w.(s := s.(open := s.open + {socket}), subscribed := w.subscribed[socket := []])
    case Register(socket, producer, session) =>
      var answer := Leases.Register(s, socket, producer, session);
      if answer.Err? then w
      else w.(s := answer.value, sessions := w.sessions[socket := session],
              latest := w.latest[producer.processId := producer.instanceId])
    case Acquire(owner, id, p, session, answer) =>
      var s' := After(s, Leases.Acquire(s, owner, id, p, session, answer));
      w.(s := s', granted := if id in s'.leases then w.granted[id := s'.leases[id]] else w.granted)
    case Release(owner, id) => w.(s := After(s, ReleaseOwned(s, owner, id)))
    case Route(owner, id, p, session, answer) =>
      w.(s := After(s, Leases.Route(s, owner, id, p, session, answer)),
         routed := w.routed + Passed(w, owner, id, p, session, answer))
    case Reply(socket, id, p, session) => w.(s := After(s, Answered(s, socket, id, p, session)))
    case Subscribe(socket, id, minimum, expiresAt) =>
      w.(s := Leases.Subscribe(s, socket, id, minimum, expiresAt),
         subscribed := w.subscribed[socket := w.subscribed[socket] + [id]])
    case Dispatch(step) => w.(s := s.(router := CP.Next(s.router, step)))
    case Close(socket) => w.(s := Leases.Close(s, socket))
    case SetState(i, state) => w.(s := s.(tables := E.SetInstanceState(s.tables, i, state)))
  }

  ghost predicate IsRun(steps: seq<Step>)
    decreases |steps|, 0
  {
    steps == [] || (IsRun(steps[..|steps| - 1]) && Possible(Run(steps[..|steps| - 1]), steps[|steps| - 1]))
  }

  ghost function Run(steps: seq<Step>): World
    requires IsRun(steps)
    decreases |steps|, 1
  {
    if steps == [] then START else Next(Run(steps[..|steps| - 1]), steps[|steps| - 1])
  }

  // ---------------------------------------------------------------- the invariant

  /** A lease is on the instance that registered last for its process, and its owner is connected. */
  predicate LeaseSound(w: World, lease: Lease) {
    && lease.owner in w.s.open
    && lease.processId in w.latest && w.latest[lease.processId] == lease.instanceId
  }

  /** A registered bridge is an open connection bound to the process and to the instance that
      registered last, and it registered the session that the store knows. */
  predicate BridgeSound(w: World, p: Uuid)
    requires p in w.s.bridges
  {
    var socket, i := w.s.bridges[p].socket, w.s.bridges[p].instanceId;
    && socket in w.s.bindings && w.s.bindings[socket] == Producer(p, i) && p in w.latest && w.latest[p] == i
    && socket in w.sessions && p in w.s.tables.processes && w.s.tables.processes[p].sessionId == w.sessions[socket]
  }

  ghost predicate Sound(w: World) {
    && (forall id :: id in w.s.leases ==> LeaseSound(w, w.s.leases[id]))
    && (forall p :: p in w.s.bridges ==> BridgeSound(w, p))
    && (forall socket :: socket in w.s.bindings ==> socket in w.s.open)
  }

  predicate PassageSound(p: Passage, granted: map<Uuid, Lease>) {
    && p.leaseId in granted && p.toOpen && p.receiver.Some? && p.sessionId.Some?
    && granted[p.leaseId] == Lease(p.owner, p.receiver.value.processId, p.sessionId.value, p.receiver.value.instanceId)
  }

  ghost predicate Faithful(w: World) {
    && Sound(w)
    && (forall id :: id in w.s.leases ==> id in w.granted && w.granted[id] == w.s.leases[id])
    && (forall p :: p in w.routed ==> PassageSound(p, w.granted))
    && (forall d :: d in w.s.sent && d.frame.Control? ==> Recorded(w.routed, d))
  }

  /** A control frame that was sent has its passage in the log. */
  ghost predicate Recorded(routed: set<Passage>, d: Delivery)
    requires d.frame.Control?
  {
    exists p :: p in routed && p.leaseId == d.frame.leaseId && p.to == d.to
  }

  lemma RegisterKeepsSound(w: World, step: Step)
    requires Sound(w) && step.Register? && step.socket in w.s.open && step.socket !in w.s.bindings
    ensures var w' := Next(w, step);
            && Sound(w')
            && (forall id :: id in w'.s.leases && w'.s.leases[id].processId == step.producer.processId ==>
                w'.s.leases[id].instanceId == step.producer.instanceId)
            && (forall id :: id in w'.s.leases ==> id in w.s.leases && w'.s.leases[id] == w.s.leases[id])
  {
    hide Farewells, Revocations;
    var w' := Next(w, step);
    forall id | id in w'.s.leases
      ensures LeaseSound(w', w'.s.leases[id]) && !Superseded(w.s.leases[id], step.producer)
    {
      assert LeaseSound(w, w.s.leases[id]);
    }
    forall p | p in w'.s.bridges ensures BridgeSound(w', p) {
      if p != step.producer.processId { assert BridgeSound(w, p); }
    }
  }

  lemma StateKeepsSessions(t: E.Tables, instanceId: Uuid, state: E.Liveness)
    ensures forall p :: p in t.processes ==>
              && p in E.SetInstanceState(t, instanceId, state).processes
              && E.SetInstanceState(t, instanceId, state).processes[p].sessionId == t.processes[p].sessionId
  {
  }

  lemma CloseEffect(w: World, socket: Socket)
    ensures var s, s' := w.s, Leases.Close(w.s, socket);
            && s'.open == s.open - {socket} && s'.bindings == s.bindings - {socket}
            && (forall id :: id in s'.leases ==> id in s.leases && s'.leases[id] == s.leases[id]
                                                 && s.leases[id].owner != socket)
            && (forall p :: p in s'.bridges ==> p in s.bridges && s'.bridges[p] == s.bridges[p])
            && (socket in s.bindings ==> forall p :: p in s.bridges ==>
                  s.bindings[socket] == Producer(p, s.bridges[p].instanceId) ==> p !in s'.bridges)
            && (forall p :: p in s.tables.processes ==>
                  p in s'.tables.processes && s'.tables.processes[p].sessionId == s.tables.processes[p].sessionId)
  {
    hide Farewells, C.Disconnect, E.SetInstanceState;
    var tables := Unsubscribe(w.s, socket).tables;
    if socket in w.s.bindings { StateKeepsSessions(tables, w.s.bindings[socket].instanceId, E.Dead); }
  }

  lemma CloseKeepsSound(w: World, socket: Socket)
    requires Sound(w) && socket in w.s.open
    ensures Sound(Next(w, Close(socket)))
  {
    CloseEffect(w, socket);
    hide Leases.Close;
    var w' := Next(w, Close(socket));
    forall id | id in w'.s.leases ensures LeaseSound(w', w'.s.leases[id]) {
      assert LeaseSound(w, w.s.leases[id]);
    }
    forall p | p in w'.s.bridges ensures BridgeSound(w', p) {
      assert BridgeSound(w, p);
    }
  }

  /** The answer to a control frame: never a mismatch, and only to the leased instance, over the
      connection that registered it in the leased session. */
  lemma RoutesToLeased(w: World, id: Uuid, answer: Answer)
    requires Sound(w) && id in w.s.leases
    ensures var lease, routing := w.s.leases[id], RoutingOf(w.s, w.s.leases[id], answer);
            && !routing.Mismatch?
            && (routing.Routed? ==>
                  && routing.to in w.s.open && routing.to in w.s.bindings
                      && w.s.bindings[routing.to] == Producer(lease.processId, lease.instanceId)
                  && routing.to in w.sessions && w.sessions[routing.to] == lease.sessionId)
  {
    assert LeaseSound(w, w.s.leases[id]);
    if w.s.leases[id].processId in w.s.bridges { assert BridgeSound(w, w.s.leases[id].processId); }
  }

  lemma AcquireKeeps(w: World, step: Step)
    requires Faithful(w) && Possible(w, step) && step.Acquire?
    ensures Faithful(Next(w, step))
  {
    var w' := Next(w, step);
    assert step.processId in w.s.bridges ==> BridgeSound(w, step.processId);
    forall id | id in w'.s.leases ensures LeaseSound(w', w'.s.leases[id]) {
      assert id in w.s.leases ==> LeaseSound(w, w.s.leases[id]);
    }
    assert forall p :: p in w.s.bridges ==> BridgeSound(w, p);
  }

  lemma RouteKeeps(w: World, step: Step)
    requires Faithful(w) && Possible(w, step) && step.Route?
    ensures Faithful(Next(w, step))
  {
    if step.id in w.s.leases { RoutesToLeased(w, step.id, step.answer); }
    var w' := Next(w, step);
    assert w' == w.(s := w.s.(sent := w'.s.sent), routed := w'.routed);
    assert forall p :: p in w.s.bridges ==> BridgeSound(w, p);
  }

  lemma NextKeepsFaithful(w: World, step: Step)
    requires Faithful(w) && Possible(w, step)
    ensures Faithful(Next(w, step))
  {
    match step {
      case Register(socket, producer, session) =>
        if socket !in w.s.bindings { RegisterKeepsSound(w, step); }
      case Acquire(_, _, _, _, _) => AcquireKeeps(w, step);
      case Route(_, _, _, _, _) => RouteKeeps(w, step);
      case Close(socket) => CloseKeepsSound(w, socket);
      case _ => RestKeeps(w, step);
    }
  }

  lemma RestKeeps(w: World, step: Step)
    requires Faithful(w) && Possible(w, step) && !step.Register? && !step.Acquire? && !step.Route? && !step.Close?
    ensures Faithful(Next(w, step))
  {
    var w' := Next(w, step);
    assert w'.s.bridges == w.s.bridges && w'.s.bindings == w.s.bindings && w.s.open <= w'.s.open;
    assert forall id :: id in w'.s.leases ==> id in w.s.leases && w'.s.leases[id] == w.s.leases[id];
    forall p | p in w'.s.bridges ensures BridgeSound(w', p) {
      assert BridgeSound(w, p);
    }
  }

  lemma {:induction false} FaithfulAlways(steps: seq<Step>)
    requires IsRun(steps)
    ensures Faithful(Run(steps))
    decreases |steps|
  {
    hide Next;
    if steps != [] {
      FaithfulAlways(steps[..|steps| - 1]);
      NextKeepsFaithful(Run(steps[..|steps| - 1]), steps[|steps| - 1]);
    }
  }

  // ---------------------------------------------------------------- the main results

  /** Over every run: each control frame that was ever sent came from its lease's owner and went to
      an open connection that was bound to the process and instance, and had registered the session,
      that the lease was granted for; and every lease is on the instance that registered last. */
  lemma ControlReachesTheLeased(steps: seq<Step>)
    requires IsRun(steps)
    ensures forall d :: d in Run(steps).s.sent && d.frame.Control? ==> Recorded(Run(steps).routed, d)
    ensures forall p :: p in Run(steps).routed ==> PassageSound(p, Run(steps).granted)
    ensures forall id :: id in Run(steps).s.leases ==> LeaseSound(Run(steps), Run(steps).s.leases[id])
  {
    hide Run, IsRun;
    FaithfulAlways(steps);
  }

  /** The branch that revokes a lease while routing is never taken. */
  lemma MismatchIsUnreachable(steps: seq<Step>, id: Uuid, answer: Answer)
    requires IsRun(steps) && id in Run(steps).s.leases
    ensures !RoutingOf(Run(steps).s, Run(steps).s.leases[id], answer).Mismatch?
  {
    hide Run, IsRun;
    FaithfulAlways(steps);
    RoutesToLeased(Run(steps), id, answer);
  }

  /** Registering an instance leaves no lease on any other instance of its process. */
  lemma RegisterEndsOldLeases(steps: seq<Step>, socket: Socket, producer: Producer, sessionId: Uuid)
    requires IsRun(steps) && socket in Run(steps).s.open && socket !in Run(steps).s.bindings
    ensures var s' := Next(Run(steps), Register(socket, producer, sessionId)).s;
            forall id :: id in s'.leases && s'.leases[id].processId == producer.processId ==>
              s'.leases[id].instanceId == producer.instanceId
  {
    hide Run, IsRun;
    FaithfulAlways(steps);
    RegisterKeepsSound(Run(steps), Register(socket, producer, sessionId));
  }

  // ---------------------------------------------------------------- what a closed connection leaves

  /** What subscriptions are about: the open connections, the replay leases that each connection was
      given, the one that each knows, the subscriptions, and the replay leases of the store. */
  datatype Subscriptions = Subscriptions(open: set<Socket>, given: map<Socket, seq<Uuid>>, known: map<Socket, Uuid>,
                       live: set<Subscription>, leases: set<Uuid>)

  function SubscriptionsOf(w: World): Subscriptions {
    Subscriptions(w.s.open, w.subscribed, w.s.subscriber, w.s.subscriptions, w.s.tables.leases.Keys)
  }

  function Last(ids: seq<Uuid>): Uuid
    requires ids != []
  {
    ids[|ids| - 1]
  }

  /** Whether a subscription is there: all of an open connection's, all but the last of a closed
      one's. */
  predicate Stays(d: Subscriptions, x: Subscription) {
    && x.socket in d.given && x.lease in d.given[x.socket]
    && (x.socket in d.open || x.lease != Last(d.given[x.socket]))
  }

  /** A connection knows the last of its subscriptions. */
  predicate KnowsLast(d: Subscriptions, socket: Socket)
    requires socket in d.given
  {
    if socket !in d.open || d.given[socket] == [] then socket !in d.known
    else socket in d.known && d.known[socket] == Last(d.given[socket])
  }

  ghost predicate Distinct(ids: seq<Uuid>) {
    forall j, k :: 0 <= j < k < |ids| ==> ids[j] != ids[k]
  }

  ghost predicate GivenOnce(given: map<Socket, seq<Uuid>>) {
    && (forall socket :: socket in given ==> Distinct(given[socket]))
    && (forall a, b, id :: a in given && b in given && id in given[a] && id in given[b] ==> a == b)
  }

  /** The replay leases are those of the subscriptions. */
  ghost predicate Backed(leases: set<Uuid>, live: set<Subscription>) {
    && (forall x :: x in live ==> x.lease in leases)
    && (forall id :: id in leases ==> exists socket :: Subscription(socket, id) in live)
  }

  ghost predicate Tidy(d: Subscriptions) {
    && GivenOnce(d.given) && Backed(d.leases, d.live)
    && (forall socket :: socket in d.open || socket in d.known ==> socket in d.given)
    && (forall socket :: socket in d.given ==> KnowsLast(d, socket))
    && (forall x :: x in d.live <==> Stays(d, x))
  }

  lemma GivenOneMore(given: map<Socket, seq<Uuid>>, socket: Socket, id: Uuid)
    requires GivenOnce(given) && socket in given && forall k :: k in given ==> id !in given[k]
    ensures GivenOnce(given[socket := given[socket] + [id]])
  {
    assert Distinct(given[socket]);
  }

  lemma SubscribeKeepsTidy(d: Subscriptions, d': Subscriptions, socket: Socket, id: Uuid)
    requires Tidy(d) && socket in d.open && forall k :: k in d.given ==> id !in d.given[k]
    requires d' == Subscriptions(d.open, d.given[socket := d.given[socket] + [id]], d.known[socket := id],
                        d.live + {Subscription(socket, id)}, d.leases + {id})
    ensures Tidy(d')
  {
    GivenOneMore(d.given, socket, id);
    hide GivenOnce;
    forall x ensures x in d'.live <==> Stays(d', x) {
      assert x in d.live <==> Stays(d, x);
    }
    forall k | k in d'.given ensures KnowsLast(d', k) {
      assert KnowsLast(d, k);
    }
    forall k | k in d'.leases ensures exists s :: Subscription(s, k) in d'.live {
      if k in d.leases {
        var s :| Subscription(s, k) in d.live;
        assert Subscription(s, k) in d'.live;
      } else {
        assert Subscription(socket, k) in d'.live;
      }
    }
  }

  /** Dropping the subscription that a connection knows as it closes. */
  lemma CloseKeepsTidy(d: Subscriptions, d': Subscriptions, socket: Socket)
    requires Tidy(d) && socket in d.open
    requires d' == if socket !in d.known then d.(open := d.open - {socket})
                   else Subscriptions(d.open - {socket}, d.given, d.known - {socket},
                             d.live - {Subscription(socket, d.known[socket])}, d.leases - {d.known[socket]})
    ensures Tidy(d')
  {
    assert KnowsLast(d, socket);
    forall x ensures x in d'.live <==> Stays(d', x) {
      assert x in d.live <==> Stays(d, x);
    }
    hide Distinct;
    forall k | k in d'.given ensures KnowsLast(d', k) {
      assert KnowsLast(d, k);
    }
    forall k | k in d'.leases ensures exists s :: Subscription(s, k) in d'.live {
      var s :| Subscription(s, k) in d.live;
      assert Subscription(s, k) in d'.live;
    }
    forall x | x in d'.live ensures x.lease in d'.leases {
      assert Stays(d, x) && (socket in d.known ==> d.known[socket] in d.given[socket]);
    }
  }

  lemma OpenKeepsTidy(d: Subscriptions, d': Subscriptions, socket: Socket)
    requires Tidy(d) && socket !in d.given
    requires d' == d.(open := d.open + {socket}, given := d.given[socket := []])
    ensures Tidy(d')
  {
    assert GivenOnce(d'.given);
    forall x ensures x in d'.live <==> Stays(d', x) {
      assert x in d.live <==> Stays(d, x);
    }
    forall k | k in d'.given ensures KnowsLast(d', k) {
      assert k != socket ==> KnowsLast(d, k);
    }
  }

  lemma SubscriptionsAfter(w: World, step: Step)
    requires Possible(w, step) && !step.Close?
    ensures var d, d' := SubscriptionsOf(w), SubscriptionsOf(Next(w, step));
            match step
            case Open(socket) => d' == d.(open := d.open + {socket}, given := d.given[socket := []])
            case Subscribe(socket, id, _, _) =>
              d' == Subscriptions(d.open, d.given[socket := d.given[socket] + [id]], d.known[socket := id],
                         d.live + {Subscription(socket, id)}, d.leases + {id})
            case _ => d' == d
  {
    hide Farewells, Revocations;
  }

  lemma SubscriptionsAfterClose(w: World, socket: Socket)
    requires socket in w.s.open
    ensures var d, d' := SubscriptionsOf(w), SubscriptionsOf(Next(w, Close(socket)));
            d' == if socket !in d.known then d.(open := d.open - {socket})
                  else Subscriptions(d.open - {socket}, d.given, d.known - {socket},
                            d.live - {Subscription(socket, d.known[socket])}, d.leases - {d.known[socket]})
  {
    hide Farewells, OwnedLeases, C.Disconnect;
  }

  lemma NextKeepsTidy(w: World, step: Step)
    requires Tidy(SubscriptionsOf(w)) && Possible(w, step)
    ensures Tidy(SubscriptionsOf(Next(w, step)))
  {
    hide Tidy, Next;
    var d, d' := SubscriptionsOf(w), SubscriptionsOf(Next(w, step));
    match step {
      case Open(socket) =>
        SubscriptionsAfter(w, step);
        OpenKeepsTidy(d, d', socket);
      case Subscribe(socket, id, _, _) =>
        SubscriptionsAfter(w, step);
        SubscribeKeepsTidy(d, d', socket, id);
      case Close(socket) =>
        SubscriptionsAfterClose(w, socket);
        CloseKeepsTidy(d, d', socket);
      case _ =>
        SubscriptionsAfter(w, step);
    }
  }

  lemma {:induction false} TidyAlways(steps: seq<Step>)
    requires IsRun(steps)
    ensures Tidy(SubscriptionsOf(Run(steps)))
    decreases |steps|
  {
    hide Next;
    if steps != [] {
      hide Tidy;
      TidyAlways(steps[..|steps| - 1]);
      NextKeepsTidy(Run(steps[..|steps| - 1]), steps[|steps| - 1]);
    }
  }

  /** No subscription of the connection is there, nor any replay lease that it was given. */
  ghost predicate LeavesNoSubscription(d: Subscriptions, socket: Socket)
    requires socket in d.given
  {
    && (forall x :: x in d.live ==> x.socket != socket)
    && (forall id :: id in d.given[socket] ==> id !in d.leases)
  }

  lemma LeavesNoneIff(d: Subscriptions, socket: Socket)
    requires Tidy(d) && socket in d.given && socket !in d.open
    ensures LeavesNoSubscription(d, socket) <==> |d.given[socket]| <= 1
  {
    var ids := d.given[socket];
    if |ids| > 1 {
      assert Distinct(ids) && Stays(d, Subscription(socket, ids[0]));
    } else {
      assert forall s, id :: id in ids && Subscription(s, id) in d.live ==> Stays(d, Subscription(s, id));
    }
  }

  /** In every state of every run, a connection that has closed owns no dashboard lease, is bound to
      nothing and is nobody's bridge; and it has left no subscription and no replay lease if and only
      if it subscribed at most once. */
  lemma ClosedLeavesNothingIff(steps: seq<Step>, socket: Socket)
    requires IsRun(steps) && socket in Run(steps).subscribed && socket !in Run(steps).s.open
    ensures var s := Run(steps).s;
            && (forall id :: id in s.leases ==> s.leases[id].owner != socket) && socket !in s.bindings
            && (forall p :: p in s.bridges ==> s.bridges[p].socket != socket) && socket !in s.subscriber
    ensures LeavesNoSubscription(SubscriptionsOf(Run(steps)), socket) <==> |Run(steps).subscribed[socket]| <= 1
  {
    hide Run, IsRun;
    FaithfulAlways(steps);
    TidyAlways(steps);
    var w := Run(steps);
    assert forall id :: id in w.s.leases ==> LeaseSound(w, w.s.leases[id]);
    assert forall p :: p in w.s.bridges ==> BridgeSound(w, p);
    assert KnowsLast(SubscriptionsOf(w), socket);
    LeavesNoneIff(SubscriptionsOf(w), socket);
  }

  /** A connection that subscribes again leaves its earlier subscription, with the replay lease,
      behind: a concrete run. */
  lemma SecondSubscriptionLeaves(first: Uuid, second: Uuid, expiresAt: int) returns (steps: seq<Step>)
    requires first != second
    ensures steps
         == [Open(0), Step.Subscribe(0, first, 1, expiresAt), Step.Subscribe(0, second, 1, expiresAt), Close(0)]
    ensures IsRun(steps)
    ensures var s := Run(steps).s;
            s.open == {} && s.subscriptions == {Subscription(0, first)} && first in s.tables.leases
  {
    hide Farewells, OwnedLeases;
    steps := [];
    RunExtends(steps, Open(0));
    steps := steps + [Open(0)];
    RunExtends(steps, Step.Subscribe(0, first, 1, expiresAt));
    steps := steps + [Step.Subscribe(0, first, 1, expiresAt)];
    RunExtends(steps, Step.Subscribe(0, second, 1, expiresAt));
    steps := steps + [Step.Subscribe(0, second, 1, expiresAt)];
    RunExtends(steps, Close(0));
    steps := steps + [Close(0)];
  }

  lemma RouterStep(w: World, step: Step) returns (c: Option<CP.Step>)
    requires Possible(w, step)
    ensures Next(w, step).s.router == if c.Some? then CP.Next(w.s.router, c.value) else w.s.router
  {
    hide Farewells, Revocations, OwnedLeases, C.Disconnect;
    match step {
      case Register(socket, producer, _) => c := if socket in w.s.bindings then None else Some(CP.Bind(producer));
      case Dispatch(command) => c := Some(command);
      case Close(socket) =>
        c := if socket in w.s.bindings then Some(CP.Disconnect(w.s.bindings[socket])) else None;
      case _ => c := None;
    }
  }

  lemma {:induction false} RouterSoundAlways(steps: seq<Step>)
    requires IsRun(steps)
    ensures CP.Sound(Run(steps).s.router)
    decreases |steps|
  {
    hide Next, CP.Next;
    if steps != [] {
      var before := Run(steps[..|steps| - 1]);
      RouterSoundAlways(steps[..|steps| - 1]);
      var c := RouterStep(before, steps[|steps| - 1]);
      if c.Some? { CP.NextKeeps(before.s.router, c.value); }
    }
  }

  /** When a connection closes, every command that was ever accepted for its instance has a stored
      result, and none in memory for its target still waits. */
  lemma CloseSettlesCommands(steps: seq<Step>, socket: Socket)
    requires IsRun(steps) && socket in Run(steps).s.open && socket in Run(steps).s.bindings
    ensures var target, router := Run(steps).s.bindings[socket], Next(Run(steps), Close(socket)).s.router;
            && (forall id :: id in router.rows && router.rows[id].command.target.instanceId == target.instanceId ==>
                  router.rows[id].result.Some?)
            && (forall id :: id in router.items && router.items[id].command.target == target ==>
                  !router.items[id].state.Accepted?)
            && target !in router.bindings
  {
    hide Run, IsRun, Farewells, OwnedLeases;
    RouterSoundAlways(steps);
    var router := Run(steps).s.router;
    assert forall id :: id in router.rows ==> CP.RowSound(id, router.rows[id]);
  }

  // ---------------------------------------------------------------- who answers the owner

  /** A reply passes on the process and session alone; it comes from the leased instance exactly
      when it comes from the instance that registered last for the process. */
  lemma ReplyComesFromRegistered(steps: seq<Step>, socket: Socket, id: Uuid, processId: Uuid, sessionId: Uuid)
    requires IsRun(steps) && Answered(Run(steps).s, socket, id, processId, sessionId).Ok?
    ensures var w := Run(steps);
            && processId in w.latest
            && (w.s.bindings[socket].instanceId == w.s.leases[id].instanceId
                <==> w.s.bindings[socket].instanceId == w.latest[processId])
  {
    hide Run, IsRun;
    FaithfulAlways(steps);
    assert LeaseSound(Run(steps), Run(steps).s.leases[id]);
  }

  /** So a connection of the same process and session that an instance left open can still answer:
      a concrete run. */
  lemma OldConnectionAnswers(p: Uuid, earlier: Uuid, later: Uuid, session: Uuid, id: Uuid) returns (steps: seq<Step>)
    requires earlier != later
    ensures IsRun(steps) && OldAnswers(Run(steps), earlier, later, id)
    ensures steps != [] && steps[|steps| - 1] == Step.Reply(0, id, p, session)
  {
    steps := LeaseOnLater(p, earlier, later, session, id);
    RunExtends(steps, Step.Reply(0, id, p, session));
    steps := steps + [Step.Reply(0, id, p, session)];
  }

  /** And it can while the process has no bridge at all: the same after the later instance's own
      connection has closed. */
  lemma OldConnectionAnswersAlone(p: Uuid, earlier: Uuid, later: Uuid, session: Uuid, id: Uuid)
    returns (steps: seq<Step>)
    requires earlier != later
    ensures IsRun(steps) && OldAnswers(Run(steps), earlier, later, id) && Run(steps).s.bridges == map[]
    ensures steps != [] && steps[|steps| - 1] == Step.Reply(0, id, p, session)
  {
    steps := LeaseOnLater(p, earlier, later, session, id);
    CloseLeavesLease(Run(steps), p, earlier, later, session, id);
    RunExtends(steps, Close(1));
    steps := steps + [Close(1)];
    RunExtends(steps, Step.Reply(0, id, p, session));
    steps := steps + [Step.Reply(0, id, p, session)];
  }

  /** The owner of a lease on the later instance was answered by the earlier one's connection. */
  ghost predicate OldAnswers(w: World, earlier: Uuid, later: Uuid, id: Uuid) {
    && 0 in w.s.bindings && id in w.s.leases && Delivery(2, Frame.Reply(id)) in w.s.sent
    && w.s.bindings[0].instanceId == earlier && w.s.leases[id].instanceId == later
  }

  ghost predicate OnLater(w: World, p: Uuid, earlier: Uuid, later: Uuid, session: Uuid, id: Uuid) {
    && w.s.bindings == map[0 := Producer(p, earlier), 1 := Producer(p, later)] && w.s.open == {0, 1, 2}
    && w.s.bridges == map[p := Bridge(later, 1)] && w.s.leases == map[id := Lease(2, p, session, later)]
  }

  lemma LeaseOnLater(p: Uuid, earlier: Uuid, later: Uuid, session: Uuid, id: Uuid) returns (steps: seq<Step>)
    requires earlier != later
    ensures IsRun(steps) && OnLater(Run(steps), p, earlier, later, session, id)
  {
    steps := TwoInstances(p, earlier, later, session);
    var acquire := Acquire(2, id, p, session, Answer(Some(later), true));
    RunExtends(steps, acquire);
    steps := steps + [acquire];
  }

  lemma CloseLeavesLease(w: World, p: Uuid, earlier: Uuid, later: Uuid, session: Uuid, id: Uuid)
    requires OnLater(w, p, earlier, later, session, id)
    ensures var s' := Leases.Close(w.s, 1);
            && s'.bindings == map[0 := Producer(p, earlier)] && s'.open == {0, 2} && s'.bridges == map[]
            && s'.leases == map[id := Lease(2, p, session, later)]
  {
    hide Farewells, C.Disconnect, E.SetInstanceState;
  }

  /** Two connections register two instances of a process; a third is a client's. */
  lemma TwoInstances(p: Uuid, earlier: Uuid, later: Uuid, session: Uuid) returns (steps: seq<Step>)
    requires earlier != later
    ensures IsRun(steps)
    ensures var w := Run(steps);
            && w.s.bindings == map[0 := Producer(p, earlier), 1 := Producer(p, later)] && w.s.open == {0, 1, 2}
            && w.s.bridges == map[p := Bridge(later, 1)] && w.granted == map[] && w.s.leases == map[]
            && p in w.s.tables.processes && w.s.tables.processes[p].sessionId == session
                && w.s.tables.processes[p].state.Live?
            && later in w.s.tables.instances && w.s.tables.instances[later] == E.Instance(p, E.Live, 1)
  {
    hide Farewells, Revocations;
    steps := [];
    RunExtends(steps, Open(0));
    steps := steps + [Open(0)];
    RunExtends(steps, Open(1));
    steps := steps + [Open(1)];
    RunExtends(steps, Open(2));
    steps := steps + [Open(2)];
    RunExtends(steps, Register(0, Producer(p, earlier), session));
    steps := steps + [Register(0, Producer(p, earlier), session)];
    RunExtends(steps, Register(1, Producer(p, later), session));
    steps := steps + [Register(1, Producer(p, later), session)];
  }

  lemma RunExtends(steps: seq<Step>, step: Step)
    requires IsRun(steps) && Possible(Run(steps), step)
    ensures IsRun(steps + [step]) && Run(steps + [step]) == Next(Run(steps), step)
  {
    hide Next, Possible;
    assert (steps + [step])[..|steps|] == steps;
  }
}
