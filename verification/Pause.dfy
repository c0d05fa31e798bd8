/** Pausing a session at its next boundary (`PauseController`,
    pi-extension/remote-control/gates.ts). */
module Pause {
  import opened Wrappers

  datatype Mode = Idle | Armed | Paused

  datatype DisconnectMode = Resume | HoldUntilDeadline

  datatype Scope = Scope(generation: int, leaseId: Option<string>, deadline: int, disconnectMode: DisconnectMode)

  /** Waiters are numbered in the order in which they begin to wait; a waiter's number also names
      its timer.  `armings` counts armings, and `begun[n]` is the arming under which waiter n began
      to wait. */
  datatype Session = Session(mode: Mode, generation: Option<int>, leaseId: Option<string>,
                             disconnectMode: DisconnectMode, deadline: int, waiters: set<nat>, timers: set<nat>,
                             armings: nat, begun: seq<nat>, resolved: seq<nat>)

  const NEW_SESSION := Session(Idle, None, None, Resume, 0, {}, {}, 0, [], [])

  /** `order` lists the waiters as they are released. */
  ghost predicate ReleaseOrder(s: Session, order: seq<nat>) {
    && (forall n :: n in order <==> n in s.waiters)
    && (forall j, k :: 0 <= j < k < |order| ==> order[j] != order[k])
  }

  /** Every waiter clears its timer and is resolved. */
  function Release(s: Session, order: seq<nat>): Session {
    s.(mode := Idle, generation := None, leaseId := None, deadline := 0, waiters := {},
       timers := s.timers - s.waiters, resolved := s.resolved + order)
  }

  function Arm(s: Session, scope: Scope, now: int, order: seq<nat>): Option<Session> {
    if scope.deadline <= now then None
    else Some(Release(s, order).(generation := Some(scope.generation), leaseId := scope.leaseId,
      deadline := scope.deadline,
                                 disconnectMode := scope.disconnectMode, mode := Armed, armings := s.armings + 1))
  }

  predicate PassesBoundary(s: Session, generation: int, now: int) {
    s.mode.Idle? || s.generation != Some(generation) || now >= s.deadline
  }

  /** The new waiter's number, or None when the boundary lets the session pass. */
  function Boundary(s: Session, generation: int, now: int, order: seq<nat>): (Session, Option<nat>) {
    if PassesBoundary(s, generation, now) then (if now >= s.deadline then Release(s, order) else s, None)
    else
      var n := |s.begun|;
      (s.(mode := Paused, waiters := s.waiters + {n}, timers := s.timers + {n}, begun := s.begun + [s.armings]),
        Some(n))
  }

  /** An empty lease id is falsy in JavaScript. */
  predicate Unscoped(s: Session) {
    s.leaseId.None? || s.leaseId.value == ""
  }

  predicate ResumesFor(s: Session, generation: int, leaseId: Option<string>) {
    s.generation == Some(generation) && (Unscoped(s) || leaseId == s.leaseId)
  }

  predicate EndsWithLease(s: Session, leaseId: string) {
    s.leaseId == Some(leaseId) && s.disconnectMode.Resume?
  }
}

/** The controller object, proved against the functions of `Pause`. */
module PauseClass {
  import opened Wrappers
  import opened Pause

  class PauseController {
    var mode: Mode
    var generation: Option<int>
    var leaseId: Option<string>
    var disconnectMode: DisconnectMode
    var deadline: int
    var waiters: set<nat>
    var timers: set<nat>
    var armings: nat
    var begun: seq<nat>
    var resolved: seq<nat>

    function State(): Session
      reads this
    {
      Session(mode, generation, leaseId, disconnectMode, deadline, waiters, timers, armings, begun, resolved)
    }

    constructor ()
      ensures State() == NEW_SESSION
    {
      mode, generation, leaseId, disconnectMode, deadline := Idle, None, None, Resume, 0;
      waiters, timers, armings, begun, resolved := {}, {}, 0, [], [];
    }

    method Release() returns (ghost order: seq<nat>)
      modifies this
      ensures ReleaseOrder(old(State()), order) && State() == Pause.Release(old(State()), order)
    {
      order := [];
      var todo := waiters;
      while todo != {}
        invariant todo <= old(waiters) && waiters == todo && timers == old(timers) - (old(waiters) - todo)
        invariant State() == old(State()).(waiters := waiters, timers := timers, resolved := old(resolved) + order)
        invariant forall n :: n in order <==> n in old(waiters) && n !in todo
        invariant forall j, k :: 0 <= j < k < |order| ==> order[j] != order[k]
        decreases |todo|
      {
        var n :| n in todo;
        todo := todo - {n};
        timers := timers - {n};
        waiters := waiters - {n};
        assert resolved + [n] == old(resolved) + (order + [n]);
        resolved := resolved + [n];
        order := order + [n];
      }
      mode, generation, leaseId, deadline := Idle, None, None, 0;
    }

    method Arm(scope: Scope, now: int) returns (armed: bool, ghost order: seq<nat>)
      modifies this
      ensures armed ==> ReleaseOrder(old(State()), order)
      ensures armed == Pause.Arm(old(State()), scope, now, order).Some?
      ensures State() == if armed then Pause.Arm(old(State()), scope, now, order).value else old(State())
    {
      order := [];
      if scope.deadline <= now { return false, []; }
      order := Release();
      generation, leaseId, deadline, disconnectMode := Some(scope.generation), scope.leaseId, scope.deadline,
        scope.disconnectMode;
      mode := Armed;
      armings := armings + 1;
      return true, order;
    }

    method Boundary(atGeneration: int, now: int) returns (waiter: Option<nat>, ghost order: seq<nat>)
      modifies this
      ensures now >= old(deadline) ==> ReleaseOrder(old(State()), order)
      ensures (State(), waiter) == Pause.Boundary(old(State()), atGeneration, now, order)
    {
      order := [];
      if mode.Idle? || generation != Some(atGeneration) || now >= deadline {
        if now >= deadline { order := Release(); }
        return None, order;
      }
      mode := Paused;
      var n := |begun|;
      timers := timers + {n};
      waiters := waiters + {n};
      begun := begun + [armings];
      return Some(n), order;
    }

    method ResumeSession(atGeneration: int, lease: Option<string>) returns (ghost order: seq<nat>)
      modifies this
      ensures ResumesFor(old(State()), atGeneration, lease) ==> ReleaseOrder(old(State()), order)
      ensures State() == if ResumesFor(old(State()), atGeneration, lease) then Pause.Release(old(State()), order)
                         else old(State())
    {
      order := [];
      if generation == Some(atGeneration) && (leaseId.None? || leaseId.value == "" || lease == leaseId) {
        order := Release();
      }
    }

    method DisconnectLease(lease: string) returns (ghost order: seq<nat>)
      modifies this
      ensures EndsWithLease(old(State()), lease) ==> ReleaseOrder(old(State()), order)
      ensures State() == if EndsWithLease(old(State()), lease) then Pause.Release(old(State()), order) else old(State())
    {
      order := [];
      if leaseId == Some(lease) && disconnectMode.Resume? { order := Release(); }
    }

    method DaemonDisconnected() returns (ghost order: seq<nat>)
      modifies this
      ensures old(disconnectMode).Resume? ==> ReleaseOrder(old(State()), order)
      ensures State() == if old(disconnectMode).Resume? then Pause.Release(old(State()), order) else old(State())
    {
      order := [];
      if disconnectMode.Resume? { order := Release(); }
    }
  }
}

/** What pausing keeps under every interleaving of boundaries, timers and disconnects. */
module PauseProperties {
  import opened Wrappers
  import opened Pause

  /** `order` is the order in which the step releases the waiters, if it does. */
  datatype Step = Arm(scope: Scope, now: int, order: seq<nat>)
                | Boundary(generation: int, now: int, order: seq<nat>)
                | ResumeSession(generation: int, leaseId: Option<string>, order: seq<nat>)
                | DisconnectLease(lease: string, order: seq<nat>)
                | DaemonDisconnected(order: seq<nat>)
                | Timer(waiter: nat, order: seq<nat>)
                | Shutdown(order: seq<nat>)

  ghost predicate Possible(s: Session, step: Step) {
    ReleaseOrder(s, step.order) && (step.Timer? ==> step.waiter in s.timers)
  }

  function Next(s: Session, step: Step): Session {
    match step
    case Arm(scope, now, order) => var after := Pause.Arm(s, scope, now, order); if after.Some? then after.value else s
    case Boundary(generation, now, order) => Pause.Boundary(s, generation, now, order).0
    case ResumeSession(generation, leaseId, order) =>
      if ResumesFor(s, generation, leaseId) then Release(s, order) else s
    case DisconnectLease(lease, order) => if EndsWithLease(s, lease) then Release(s, order) else s
    case DaemonDisconnected(order) => if s.disconnectMode.Resume? then Release(s, order) else s
    case Timer(n, order) => Release(s.(timers := s.timers - {n}), order)
    case Shutdown(order) => Release(s, order)
  }

  ghost predicate IsRun(steps: seq<Step>) {
    steps == [] || (IsRun(steps[..|steps| - 1]) && Possible(Run(steps[..|steps| - 1]), steps[|steps| - 1]))
  }

  function Run(steps: seq<Step>): Session {
    if steps == [] then NEW_SESSION else Next(Run(steps[..|steps| - 1]), steps[|steps| - 1])
  }

  ghost predicate Sound(s: Session) {
    // Paused means that someone waits; idle means that no scope is left.
    && (s.mode.Paused? <==> s.waiters != {})
    && (s.mode.Idle? <==> s.generation.None?)
    && (s.mode.Idle? ==> s.leaseId.None? && s.deadline == 0)
    // The live timers are the waiters', and all of them are of the current arming.
    && s.timers == s.waiters
    && (forall n :: n in s.waiters ==> n < |s.begun| && s.begun[n] == s.armings)
    // Everyone who ever waited still waits or has been resolved, once.
    && (forall n :: 0 <= n < |s.begun| ==> (n in s.waiters <==> n !in s.resolved))
    && (forall j, k :: 0 <= j < k < |s.resolved| ==> s.resolved[j] != s.resolved[k])
    && (forall n :: n in s.resolved ==> n < |s.begun|)
  }

  lemma ReleaseKeeps(s: Session, timers: set<nat>, order: seq<nat>)
    requires Sound(s) && ReleaseOrder(s, order) && timers <= s.timers
    ensures Sound(Release(s.(timers := timers), order)) && Release(s.(timers := timers), order).mode.Idle?
  {
    var resolved := s.resolved + order;
    assert forall n :: n in resolved <==> n in s.resolved || n in order;
    forall j, k | 0 <= j < k < |resolved| ensures resolved[j] != resolved[k] {
      if j < |s.resolved| && k >= |s.resolved| { assert resolved[j] in s.resolved && resolved[k] in order; }
    }
  }

  lemma NextKeepsSound(s: Session, step: Step)
    requires Sound(s) && Possible(s, step)
    ensures Sound(Next(s, step))
  {
    assert s.(timers := s.timers) == s;
    ReleaseKeeps(s, s.timers, step.order);
    match step {
      case Timer(n, order) => ReleaseKeeps(s, s.timers - {n}, order);
      case _ =>
    }
  }

  lemma {:induction false} SoundAlways(steps: seq<Step>)
    requires IsRun(steps)
    ensures Sound(Run(steps))
  {
    if steps != [] {
      SoundAlways(steps[..|steps| - 1]);
      NextKeepsSound(Run(steps[..|steps| - 1]), steps[|steps| - 1]);
    }
  }

  /** In every state of every run: paused means someone waits, each waiter has its own live timer
      and no other timer is live, and whoever waited before either still waits or has been
      resolved once. */
  lemma WaitersResolveOnce(steps: seq<Step>)
    requires IsRun(steps)
    ensures var s := Run(steps);
            && (s.mode.Paused? <==> s.waiters != {}) && s.timers == s.waiters
            && (forall n :: 0 <= n < |s.begun| ==> (n in s.waiters <==> n !in s.resolved))
            && (forall j, k :: 0 <= j < k < |s.resolved| ==> s.resolved[j] != s.resolved[k])
            && (s.mode.Idle? ==> s.generation.None? && s.leaseId.None? && s.deadline == 0)
  {
    SoundAlways(steps);
  }

  /** A timer that fires releases only waiters of its own arming: none set before an arming can
      end a later one. */
  lemma TimerEndsItsOwnArming(steps: seq<Step>, n: nat, order: seq<nat>)
    requires IsRun(steps) && Possible(Run(steps), Timer(n, order))
    ensures var s, s' := Run(steps), Next(Run(steps), Timer(n, order));
            && n < |s.begun| && s.begun[n] == s.armings
            && (forall m :: m in s'.resolved && m !in s.resolved ==> m < |s.begun| && s.begun[m] == s.begun[n])
            && s'.waiters == {} && s'.timers == {}
  {
    SoundAlways(steps);
  }

  /** The steps that may end a pause that holds until its deadline: the timer, a new arming, its
      own resumption, a boundary at or after the deadline, or shutdown. */
  predicate EndsHold(s: Session, step: Step) {
    match step
    case Timer(_, _) => true
    case Shutdown(_) => true
    case Arm(scope, now, _) => scope.deadline > now
    case ResumeSession(generation, leaseId, _) => ResumesFor(s, generation, leaseId)
    case Boundary(_, now, _) => now >= s.deadline
    case _ => false
  }

  /** Until one of these, whatever disconnects happen, everyone who waits goes on waiting. */
  lemma {:induction false} HoldOutlivesDisconnects(s: Session, more: seq<Step>)
    requires s.disconnectMode.HoldUntilDeadline? && !s.mode.Idle?
    requires forall k :: 0 <= k < |more| ==> !EndsHold(s, more[k])
    ensures var s' := RunFrom(s, more);
            && s.waiters <= s'.waiters && s.timers <= s'.timers && s'.resolved == s.resolved && !s'.mode.Idle?
            && s' == s.(mode := s'.mode, waiters := s'.waiters, timers := s'.timers, begun := s'.begun)
  {
    if more != [] { HoldOutlivesDisconnects(s, more[..|more| - 1]); }
  }

  function RunFrom(s: Session, steps: seq<Step>): Session {
    if steps == [] then s else Next(RunFrom(s, steps[..|steps| - 1]), steps[|steps| - 1])
  }

  // ---------------------------------------------------------------- whom a scope holds, and how long

  /** Whether a step ends an armed scope. */
  predicate EndsScope(scope: Scope, step: Step) {
    match step
    case Arm(_, _, _) => false
    case Boundary(_, now, _) => now >= scope.deadline
    case ResumeSession(generation, leaseId, _) =>
      generation == scope.generation && (scope.leaseId in {None, Some("")} || leaseId == scope.leaseId)
    case DisconnectLease(lease, _) => scope.leaseId == Some(lease) && scope.disconnectMode == DisconnectMode.Resume
    case DaemonDisconnected(_) => scope.disconnectMode == DisconnectMode.Resume
    case _ => true
  }

  /** The scope in force: the one armed last, with a deadline ahead, until a step ends it. */
  function InForce(steps: seq<Step>): Option<Scope> {
    if steps == [] then None
    else
      var before, step := InForce(steps[..|steps| - 1]), steps[|steps| - 1];
      if step.Arm? && step.scope.deadline > step.now then Some(step.scope)
      else if before.Some? && EndsScope(before.value, step) then None
      else before
  }

  predicate Shows(s: Session, scope: Option<Scope>) {
    match scope
    case None => s.mode.Idle?
    case Some(x) => !s.mode.Idle? && s.generation == Some(x.generation) && s.leaseId == x.leaseId
                    && s.deadline == x.deadline && s.disconnectMode == x.disconnectMode
  }

  lemma NextShows(s: Session, scope: Option<Scope>, step: Step)
    requires Sound(s) && Possible(s, step) && Shows(s, scope)
    ensures var scope' := if step.Arm? && step.scope.deadline > step.now then Some(step.scope)
                          else if scope.Some? && EndsScope(scope.value, step) then None else scope;
            Shows(Next(s, step), scope')
  {
  }

  lemma {:induction false} InForceAlways(steps: seq<Step>)
    requires IsRun(steps)
    ensures Shows(Run(steps), InForce(steps))
  {
    if steps != [] {
      InForceAlways(steps[..|steps| - 1]);
      SoundAlways(steps[..|steps| - 1]);
      hide Next, Possible, Sound, Shows, EndsScope;
      NextShows(Run(steps[..|steps| - 1]), InForce(steps[..|steps| - 1]), steps[|steps| - 1]);
    }
  }

  /** In any state of any run: a session waits at a boundary if and only if a scope of its generation is
      in force before its deadline; and a step releases the waiters, all of them, if and only if it ends
      that scope or arms another. */
  lemma HoldsExactly(steps: seq<Step>, step: Step)
    requires IsRun(steps) && Possible(Run(steps), step)
    ensures var s, scope := Run(steps), InForce(steps);
            step.Boundary? ==>
              var (s', waiter) := Pause.Boundary(s, step.generation, step.now, step.order);
              && (waiter.Some? <==> scope.Some? && scope.value.generation == step.generation
                                    && step.now < scope.value.deadline)
              && (waiter.Some? ==> waiter.value in s'.waiters && waiter.value !in s.waiters && s'.mode.Paused?)
    ensures var s, s', scope := Run(steps), Next(Run(steps), step), InForce(steps);
            if scope.Some? && (EndsScope(scope.value, step) || (step.Arm? && step.scope.deadline > step.now))
            then s'.waiters == {} && s'.timers == {} && forall n :: n in s.waiters ==> n in s'.resolved
            else s.waiters <= s'.waiters && s'.resolved == s.resolved
  {
    InForceAlways(steps);
    SoundAlways(steps);
    hide Run, IsRun, InForce;
    FirstIsListed(step.order);
    assert forall n :: n in step.order ==> n in Run(steps).resolved + step.order;
  }
}
