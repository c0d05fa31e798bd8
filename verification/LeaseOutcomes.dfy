/** What becomes of leases: when one can be had, what its frames lead to, when it ends, and who is
    told. */
module LeaseOutcomes {
  import opened Wrappers
  import opened Events
  import C = Commands
  import E = EventStore
  import opened Leases
  import opened LeaseProperties

  // ---------------------------------------------------------------- a target

  /** The process is live in the session, and its registered bridge is the instance that the store
      names and can be routed to. */
  predicate Available(s: Plane, processId: Uuid, sessionId: Uuid, answer: Answer) {
    && processId in s.tables.processes && s.tables.processes[processId].state == E.Live
    && s.tables.processes[processId].sessionId == sessionId
    && processId in s.bridges && answer == Answer(Some(s.bridges[processId].instanceId), true)
  }

  /** A lease can be had exactly while the process is available; its owner is told. */
  lemma AcquireIff(s: Plane, owner: Socket, id: Uuid, processId: Uuid, sessionId: Uuid, answer: Answer)
    ensures var after := Leases.Acquire(s, owner, id, processId, sessionId, answer);
            if !Available(s, processId, sessionId, answer) then after == Err(TargetUnavailable)
            else
              && after.Ok? && Delivery(owner, Granted(id)) in after.value.sent && id in after.value.leases
              && after.value.leases[id] == Lease(owner, processId, sessionId, s.bridges[processId].instanceId)
  {
  }

  /** Over every run: whoever registers, be it again after an earlier connection has closed, makes the
      process and the instance live in that session, can be leased at once, and is bound for commands. */
  lemma RegisteredCanBeLeased(steps: seq<Step>, socket: Socket, producer: Producer, sessionId: Uuid, owner: Socket,
      id: Uuid)
    requires IsRun(steps) && socket in Run(steps).s.open && socket !in Run(steps).s.bindings
    ensures var s := Next(Run(steps), Register(socket, producer, sessionId)).s;
            && producer.instanceId in s.tables.instances && s.tables.instances[producer.instanceId].state == E.Live
            && Available(s, producer.processId, sessionId, Answer(Some(producer.instanceId), true))
            && s.bridges[producer.processId].socket == socket && producer in s.router.bindings
            && Leases.Acquire(s, owner, id, producer.processId, sessionId, Answer(Some(producer.instanceId), true)).Ok?
  {
    hide Run, IsRun, Farewells, Revocations;
    var s := Next(Run(steps), Register(socket, producer, sessionId)).s;
    AcquireIff(s, owner, id, producer.processId, sessionId, Answer(Some(producer.instanceId), true));
  }

  /** Over every run: when the connection of a process's bridge closes, its instance and process are
      dead, and nobody can lease the process until it registers again. */
  lemma ClosedCannotBeLeased(steps: seq<Step>, socket: Socket, owner: Socket, id: Uuid, sessionId: Uuid,
      answer: Answer)
    requires IsRun(steps) && socket in Run(steps).s.open && socket in Run(steps).s.bindings
    requires var s, target := Run(steps).s, Run(steps).s.bindings[socket];
             target.processId in s.bridges && s.bridges[target.processId].instanceId == target.instanceId
    ensures var target, s := Run(steps).s.bindings[socket], Next(Run(steps), Close(socket)).s;
            && target.processId !in s.bridges
            && (target.instanceId in s.tables.instances ==>
                  var instance := s.tables.instances[target.instanceId];
                  && instance.state == E.Dead
                  && (instance.processId in s.tables.processes ==>
                        s.tables.processes[instance.processId].state == E.Dead))
            && Leases.Acquire(s, owner, id, target.processId, sessionId, answer) == Err(TargetUnavailable)
  {
    hide Run, IsRun, Farewells, OwnedLeases, C.Disconnect;
  }

  /** In any state: a connection that closes takes away the bridge of its own process and instance, and no
      other; a later instance of the process stays. */
  lemma CloseKeepsOtherBridges(s: Plane, socket: Socket, p: Uuid)
    requires p in s.bridges
    ensures var own := socket in s.bindings && s.bindings[socket] == Producer(p, s.bridges[p].instanceId);
            && (p in Leases.Close(s, socket).bridges <==> !own)
            && (!own ==> Leases.Close(s, socket).bridges[p] == s.bridges[p])
  {
    hide Farewells, OwnedLeases, C.Disconnect, E.SetInstanceState;
  }

  // ---------------------------------------------------------------- control frames and replies

  /** In any state of any run: a control frame is refused unless its sender owns the lease in that
      process and session; then it goes to the bridge while that is available, and otherwise its
      sender is told. */
  lemma RouteIff(steps: seq<Step>, owner: Socket, id: Uuid, processId: Uuid, sessionId: Uuid, answer: Answer)
    requires IsRun(steps)
    ensures var s := Run(steps).s;
            var after := Leases.Route(s, owner, id, processId, sessionId, answer);
            if id in s.leases && s.leases[id] == Lease(owner, processId, sessionId, s.leases[id].instanceId) then
              after == Ok(s.(sent := s.sent + {if Available(s, processId, sessionId, answer)
                                               then Delivery(s.bridges[processId].socket, Control(id))
                                               else Delivery(owner, TargetGone(id))}))
            else after == Err(LeaseConflict)
  {
    hide Run, IsRun;
    if id in Run(steps).s.leases { MismatchIsUnreachable(steps, id, answer); }
  }

  /** In any state: a bridge's frame reaches the owner of a lease exactly when its connection is bound to
      the lease's process and the frame names the lease's process and session. */
  lemma ReplyIff(s: Plane, socket: Socket, id: Uuid, processId: Uuid, sessionId: Uuid)
    ensures var after := Answered(s, socket, id, processId, sessionId);
            && (after.Ok? <==> && socket in s.bindings && s.bindings[socket].processId == processId && id in s.leases
                               && s.leases[id].processId == processId && s.leases[id].sessionId == sessionId)
            && (after.Ok? ==> after.value == s.(sent := s.sent + {Delivery(s.leases[id].owner, Frame.Reply(id))}))
  {
  }

  // ---------------------------------------------------------------- the end of a lease

  /** Whether a step ends a lease: its owner releases it or closes, or another instance of its process
      registers. */
  predicate EndsLease(w: World, step: Step, id: Uuid)
    requires id in w.s.leases
  {
    var lease := w.s.leases[id];
    match step
    case Release(owner, i) => i == id && owner == lease.owner
    case Close(socket) => socket == lease.owner
    case Register(socket, producer, _) =>
      socket !in w.s.bindings && producer.processId == lease.processId && producer.instanceId != lease.instanceId
    case _ => false
  }

  /** Every step ends exactly the leases that it should, and tells the bridge of the lease's process and,
      unless it was the owner's own doing, the owner. */
  lemma LeaseEndsIff(w: World, step: Step, id: Uuid)
    requires Faithful(w) && Possible(w, step) && id in w.s.leases
    ensures id in Next(w, step).s.leases <==> !EndsLease(w, step, id)
    ensures id in Next(w, step).s.leases ==> Next(w, step).s.leases[id] == w.s.leases[id]
    ensures EndsLease(w, step, id) ==>
              var lease, sent := w.s.leases[id], Next(w, step).s.sent;
              && (lease.processId in w.s.bridges ==>
                    Delivery(w.s.bridges[lease.processId].socket, Disconnected(id)) in sent)
              && (step.Register? ==> Delivery(lease.owner, Revoked(id)) in sent)
  {
    hide Next, Sound;
    match step {
      case Release(owner, i) => ReleaseEnds(w, owner, i, id);
      case Close(socket) => CloseEnds(w, socket, id);
      case Register(socket, producer, session) => RegisterEnds(w, step, id);
      case _ => OthersKeepLease(w, step, id);
    }
  }

  lemma OthersKeepLease(w: World, step: Step, id: Uuid)
    requires Faithful(w) && Possible(w, step) && id in w.s.leases
    requires !step.Release? && !step.Close? && !step.Register?
    ensures id in Next(w, step).s.leases && Next(w, step).s.leases[id] == w.s.leases[id]
  {
    hide Sound, Recorded, PassageSound;
    assert id in w.granted;
    if step.Route? && step.id in w.s.leases { RoutesToLeased(w, step.id, step.answer); }
  }

  lemma ReleaseEnds(w: World, owner: Socket, i: Uuid, id: Uuid)
    requires owner in w.s.open && id in w.s.leases
    ensures var lease, s' := w.s.leases[id], Next(w, Release(owner, i)).s;
            if i == id && owner == lease.owner then
              && id !in s'.leases
              && (lease.processId in w.s.bridges ==>
                    Delivery(w.s.bridges[lease.processId].socket, Disconnected(id)) in s'.sent)
            else id in s'.leases && s'.leases[id] == lease
  {
  }

  lemma CloseEnds(w: World, socket: Socket, id: Uuid)
    requires socket in w.s.open && id in w.s.leases
    ensures var lease, s' := w.s.leases[id], Next(w, Close(socket)).s;
            if socket == lease.owner then
              && id !in s'.leases
              && (lease.processId in w.s.bridges ==>
                    Delivery(w.s.bridges[lease.processId].socket, Disconnected(id)) in s'.sent)
            else id in s'.leases && s'.leases[id] == lease
  {
    hide C.Disconnect, E.SetInstanceState;
    assert socket == w.s.leases[id].owner ==> id in OwnedLeases(w.s.leases, socket);
  }

  lemma RegisterEnds(w: World, step: Step, id: Uuid)
    requires step.Register? && step.socket in w.s.open && id in w.s.leases
    ensures var lease, s' := w.s.leases[id], Next(w, step).s;
            if step.socket !in w.s.bindings && Superseded(lease, step.producer) then
              && id !in s'.leases && Delivery(lease.owner, Revoked(id)) in s'.sent
              && (lease.processId in w.s.bridges ==>
                    Delivery(w.s.bridges[lease.processId].socket, Disconnected(id)) in s'.sent)
            else id in s'.leases && s'.leases[id] == lease
  {
    hide E.Register;
    assert Superseded(w.s.leases[id], step.producer) ==> id in SupersededLeases(w.s.leases, step.producer);
  }

  lemma NextKeepsSent(w: World, step: Step)
    requires Possible(w, step)
    ensures w.s.sent <= Next(w, step).s.sent
  {
    hide Farewells, Revocations;
  }

  lemma NextKeepsGone(w: World, step: Step, id: Uuid)
    requires Possible(w, step) && id in w.granted && id !in w.s.leases
    ensures id in Next(w, step).granted && id !in Next(w, step).s.leases
  {
    hide Farewells, Revocations;
  }

  /** Over every run: a lease that a step ended is gone for good, whatever comes after; every control frame
      for it is refused; and its process's bridge, if there was one, has been told. */
  lemma {:induction false} EndedIsGone(steps: seq<Step>, i: nat, id: Uuid)
    requires IsRun(steps) && i < |steps| && IsRun(steps[..i]) && id in Run(steps[..i]).s.leases
    requires EndsLease(Run(steps[..i]), steps[i], id)
    ensures var before, s := Run(steps[..i]).s, Run(steps).s;
            && id in Run(steps).granted && id !in s.leases
            && (before.leases[id].processId in before.bridges ==>
                  Delivery(before.bridges[before.leases[id].processId].socket, Disconnected(id)) in s.sent)
            && (steps[i].Register? ==> Delivery(before.leases[id].owner, Revoked(id)) in s.sent)
    ensures forall owner, p, session, answer ::
              Leases.Route(Run(steps).s, owner, id, p, session, answer) == Err(LeaseConflict)
    decreases |steps|
  {
    hide Next, Possible, EndsLease, Faithful;
    var last := |steps| - 1;
    if i == last {
      FaithfulAlways(steps[..last]);
      LeaseEndsIff(Run(steps[..last]), steps[last], id);
      EndedWasGranted(Run(steps[..last]), steps[last], id);
    } else {
      assert steps[..last][..i] == steps[..i] && steps[..last][i] == steps[i];
      EndedIsGone(steps[..last], i, id);
      NextKeepsGone(Run(steps[..last]), steps[last], id);
      NextKeepsSent(Run(steps[..last]), steps[last]);
    }
  }

  lemma EndedWasGranted(w: World, step: Step, id: Uuid)
    requires Faithful(w) && Possible(w, step) && id in w.s.leases
    ensures id in Next(w, step).granted
  {
    hide Farewells, Revocations;
  }

  /** A release succeeds if and only if its sender owns the lease, and then ends it. */
  lemma ReleaseIff(steps: seq<Step>, owner: Socket, id: Uuid)
    requires IsRun(steps) && owner in Run(steps).s.open
    ensures var w := Run(steps);
            && (ReleaseOwned(w.s, owner, id).Ok? <==> id in w.s.leases && w.s.leases[id].owner == owner)
            && (ReleaseOwned(w.s, owner, id).Ok? ==> EndsLease(w, Release(owner, id), id))
            && (ReleaseOwned(w.s, owner, id).Err? ==> Next(w, Release(owner, id)) == w)
  {
    hide Run, IsRun;
  }

  // ---------------------------------------------------------------- the replay lease

  /** While a subscription's replay lease has not expired, retention keeps every row from the cursor that
      it asks for. */
  lemma SubscriptionProtects(s: Plane, socket: Socket, id: Uuid, minimumCursor: int, expiresAt: int,
      options: E.Retention, protected: int, c: int)
    requires options.now < expiresAt && c in s.tables.events && minimumCursor <= c
    requires E.IsProtectedCursor(Leases.Subscribe(s, socket, id, minimumCursor, expiresAt).tables, options.now,
               protected)
    ensures c in E.Retain(Leases.Subscribe(s, socket, id, minimumCursor, expiresAt).tables, options, protected).events
  {
    assert E.Unexpired(Leases.Subscribe(s, socket, id, minimumCursor, expiresAt).tables, id, options.now);
  }
}
