/** The bridge's connection handlers as an object, proved to take the steps of `Pipeline`
    (pi-extension/remote-control/bridge.ts). */
module Bridge {
  import opened Wrappers
  import opened Events
  import O = Outbox
  import G = Gates
  import P = Pause
  import opened GatesClass
  import opened OutboxClass
  import opened PauseClass
  import opened Pipeline

  class BridgeConnection {
    const outbox: DurableOutbox
    const gates: GateController
    const pause: PauseController
    var connected: bool
    var socketOpen: bool
    var reconnectAttempt: nat
    var reconnectScheduled: bool
    var closed: bool

    constructor (outbox: DurableOutbox, gates: GateController, pause: PauseController)
      ensures this.outbox == outbox && this.gates == gates && this.pause == pause && !connected
          && reconnectAttempt == 0 && !reconnectScheduled && !closed
    {
      this.outbox, this.gates, this.pause := outbox, gates, pause;
      connected, socketOpen, reconnectAttempt, reconnectScheduled, closed := false, false, 0, false, false;
    }

    /** The bridge's part of a world. */
    ghost predicate Shows(w: World)
      reads this, outbox
    {
      w.box == outbox.State() && w.disk == outbox.spool && w.connected == connected
    }

    /** The registration names the number after the last retained frame. */
    method OnWelcome(stamps: seq<Stamp>, ghost w: World) returns (nextProcessSequence: int)
      requires |stamps| == |outbox.pending| && Shows(w)
      modifies outbox
      ensures Shows(Assigned(outbox.producer, w, stamps))
      ensures nextProcessSequence == if outbox.retained == [] then 1 else O.Last(outbox.retained).sequence + 1
    {
      var frames := outbox.Assign(stamps);
      nextProcessSequence := if frames == [] then 1 else O.Last(frames).sequence + 1;
    }

    /** The frames to send, or none while disconnected. */
    method Flush(stamps: seq<Stamp>, ghost w: World) returns (frames: seq<Publish>)
      requires |stamps| == |outbox.pending| && Shows(w)
      modifies outbox
      ensures if connected && socketOpen
              then && Shows(Flushed(outbox.producer, w, stamps))
                   && Flushed(outbox.producer, w, stamps).frames == w.frames + set f | f in frames
              else Shows(w) && frames == []
    {
      if !connected || !socketOpen { return []; }
      frames := outbox.Assign(stamps);
    }

    /** A conflict closes the socket and changes nothing else.  If the socket is no longer open, the
        resumption happens but nothing is sent. */
    method OnRegistered(next: int, stamps: seq<Stamp>, ghost w: World) returns (conflict: bool, frames: seq<Publish>)
      requires |stamps| == |outbox.pending| && Shows(w)
      modifies this`connected, this`reconnectAttempt, outbox
      ensures conflict == O.ResumeConflict(w.box, next)
      ensures conflict ==> Shows(w) && frames == [] && reconnectAttempt == old(reconnectAttempt)
      ensures !conflict ==>
                var resumed := Resumed(outbox.producer, w, next);
                && reconnectAttempt == 0
                && if socketOpen
                   then && Shows(Flushed(outbox.producer, resumed, stamps))
                        && Flushed(outbox.producer, resumed, stamps).frames == w.frames + set f | f in frames
                   else Shows(resumed) && frames == []
    {
      var answer := outbox.ResumeFrom(next);
      if answer.Err? { return true, []; }
      connected, reconnectAttempt := true, 0;
      frames := Flush(stamps, Resumed(outbox.producer, w, next));
      conflict := false;
    }

    method OnEventAck(expectedNext: int, ghost w: World)
      requires Shows(w)
      modifies outbox
      ensures Shows(Saved(outbox.producer, w, O.Acknowledge(w.box, expectedNext - 1)))
    {
      outbox.Acknowledge(expectedNext - 1);
    }

    /** The outbox observes the audits of the gates from a position on. */
    method ObserveAudits(from: nat, text: G.Audit -> string)
      requires from <= |gates.audits|
      modifies outbox`pending, outbox`degraded
      ensures outbox.State() == Audited(outbox.limits, old(outbox.State()), Behind(gates.audits, from), text)
    {
      ghost var all := Behind(gates.audits, from);
      var k := from;
      while k < |gates.audits|
        invariant from <= k <= |gates.audits|
        invariant outbox.State() == Audited(outbox.limits, old(outbox.State()), all[..k - from], text)
      {
        assert all[..k + 1 - from][..k - from] == all[..k - from];
        outbox.Observe(AuditItem(gates.audits[k], text));
        k := k + 1;
      }
      assert all[..k - from] == all;
    }

    /** Schedules one reconnect at a time and tells gates and pauses that the daemon is gone; the
        outbox observes the audit of each call that this ends.  `spread` is the delay's cap times what
        Math.random returns, `text` what an audit is printed as, `order` the order in which waiters are
        released. */
    method ScheduleReconnect(baseMs: nat, spread: real, text: G.Audit -> string, ghost w: World)
      returns (delayMs: nat, ghost order: seq<nat>)
      requires Shows(w) && 0.0 <= spread <= BackoffCap(baseMs, reconnectAttempt) as real && G.Wellformed(gates.State())
      modifies this`connected, this`reconnectAttempt, this`reconnectScheduled, outbox, gates, pause
      ensures closed || old(reconnectScheduled) ==>
                && Shows(w) && reconnectAttempt == old(reconnectAttempt)
                    && reconnectScheduled == old(reconnectScheduled)
                && gates.State() == old(gates.State()) && pause.State() == old(pause.State())
      ensures !closed && !old(reconnectScheduled) ==>
                && Shows(w.(connected := false,
                            box := Audited(outbox.limits, w.box, DisconnectAudits(old(gates.State())), text)))
                && reconnectScheduled && reconnectAttempt == old(reconnectAttempt) + 1
                && var cap := BackoffCap(baseMs, old(reconnectAttempt));
                   1 <= delayMs && 3 * cap <= 4 * delayMs + 4 && 4 * delayMs <= 5 * cap + 4
      ensures !closed && !old(reconnectScheduled) ==>
                && gates.State() == G.DaemonDisconnected(old(gates.State()))
                && pause.State() == (if old(pause.disconnectMode).Resume? then P.Release(old(pause.State()), order)
                                     else old(pause.State()))
                && (old(pause.disconnectMode).Resume? ==> P.ReleaseOrder(old(pause.State()), order))
    {
      order := [];
      if closed || reconnectScheduled { return 0, order; }
      connected := false;
      DisconnectExtends(gates.State());
      var before := |gates.audits|;
      gates.DaemonDisconnected();
      ObserveAudits(before, text);
      order := pause.DaemonDisconnected();
      delayMs := Jittered(BackoffCap(baseMs, reconnectAttempt), spread);
      reconnectAttempt := reconnectAttempt + 1;
      reconnectScheduled := true;
    }

    /** The timer of a scheduled reconnect; connecting is the environment's. */
    method OnReconnectTimer(ghost w: World)
      requires Shows(w)
      modifies this`reconnectScheduled
      ensures Shows(w) && !reconnectScheduled
    {
      reconnectScheduled := false;
    }
  }

  /** The event that records an audit. */
  function AuditItem(audit: G.Audit, text: G.Audit -> string): O.Pending {
    O.Pending(Body("status", None, text(audit)), None, true, false)
  }

  /** The outbox after it has observed the audits, in order. */
  function Audited(limits: O.Limits, box: O.Box, audits: seq<G.Audit>, text: G.Audit -> string): O.Box {
    if audits == [] then box
    else
      var n := |audits| - 1;
      O.Observe(limits, Audited(limits, box, audits[..n], text), AuditItem(audits[n], text))
  }

  /** Even a degraded box takes an audit if there is room for it. */
  lemma AuditIsTaken(limits: O.Limits, box: O.Box, audit: G.Audit, text: G.Audit -> string)
    requires O.Fits(limits, box.retained, box.pending + [AuditItem(audit, text)])
    ensures O.Observe(limits, box, AuditItem(audit, text))
         == box.(pending := box.pending + [AuditItem(audit, text)])
  {
  }

  /** These are steps of the pipeline. */
  lemma {:induction false} AuditedIsRun(me: Producer, limits: O.Limits, w: World, audits: seq<G.Audit>,
      text: G.Audit -> string)
    ensures var steps := seq(|audits|, k requires 0 <= k < |audits| => Observe(AuditItem(audits[k], text)));
            IsRun(me, limits, w, steps) && Run(me, limits, w, steps) == w.(box := Audited(limits, w.box, audits, text))
  {
    hide O.Observe;
    if audits != [] {
      var n := |audits| - 1;
      AuditedIsRun(me, limits, w, audits[..n], text);
      var steps := seq(|audits|, k requires 0 <= k < |audits| => Observe(AuditItem(audits[k], text)));
      assert steps[..n] == seq(n, k requires 0 <= k < n => Observe(AuditItem(audits[..n][k], text)));
    }
  }

  /** The audits of the calls that a disconnect of the daemon ends. */
  function DisconnectAudits(s: G.Gate): seq<G.Audit>
    requires G.Wellformed(s)
  {
    DisconnectExtends(s);
    Behind(G.DaemonDisconnected(s).audits, |s.audits|)
  }

  lemma {:induction false} SettleEachExtends(s: G.Gate, ns: seq<nat>, outcome: G.Outcome)
    requires G.Wellformed(s) && forall k :: 0 <= k < |ns| ==> ns[k] < |s.calls|
    ensures |G.SettleEach(s, ns, outcome).audits| >= |s.audits|
    decreases |ns|
  {
    if ns != [] { SettleEachExtends(s, ns[..|ns| - 1], outcome); }
  }

  lemma DisconnectExtends(s: G.Gate)
    requires G.Wellformed(s)
    ensures |G.DaemonDisconnected(s).audits| >= |s.audits|
  {
    SettleEachExtends(s, s.pending, G.DaemonDisconnect);
  }

  lemma RoundingIsWithin(cap: nat, spread: real)
    requires 0.0 <= spread <= cap as real
    ensures var rounded := (cap as real * 0.75 + spread * 0.5 + 0.5).Floor;
            3 * cap <= 4 * rounded + 4 && 4 * rounded <= 5 * cap + 4
  {
    var x, c := cap as real * 0.75 + spread * 0.5 + 0.5, cap as real;
    var n := x.Floor;
    assert n as real <= x < n as real + 1.0;
    assert 3.0 * c - 2.0 <= 4.0 * n as real <= 5.0 * c + 2.0;
    assert (4 * n) as real == 4.0 * n as real;
    assert (5 * cap + 2) as real == 5.0 * c + 2.0 && (3 * cap - 2) as real == 3.0 * c - 2.0;
  }

  /** Math.max(1, Math.round(cap * 0.75 + spread * 0.5)) */
  function Jittered(cap: nat, spread: real): (delayMs: nat)
    requires 0.0 <= spread <= cap as real
    ensures 1 <= delayMs && 3 * cap <= 4 * delayMs + 4 && 4 * delayMs <= 5 * cap + 4
  {
    RoundingIsWithin(cap, spread);
    Max(1, (cap as real * 0.75 + spread * 0.5 + 0.5).Floor)
  }

  function Pow2(n: nat): nat {
    if n == 0 then 1 else 2 * Pow2(n - 1)
  }

  /** The cap starts at the base, doubles eight times, and never exceeds thirty seconds. */
  lemma BackoffDoubles(baseMs: nat, attempt: nat)
    ensures BackoffCap(baseMs, 0) == if baseMs < 30000 then baseMs else 30000
    ensures var cap, next := BackoffCap(baseMs, attempt), BackoffCap(baseMs, attempt + 1);
            next == if attempt >= 8 then cap else if 2 * cap < 30000 then 2 * cap else 30000
  {
    var p := Pow2(if attempt < 8 then attempt else 8);
    assert Pow2(0) == 1 && baseMs * Pow2(0) == baseMs;
    if attempt < 8 {
      assert Pow2(attempt + 1) == 2 * p;
      assert baseMs * (2 * p) == 2 * (baseMs * p);
    }
  }

  function BackoffCap(baseMs: nat, attempt: nat): nat {
    var cap := baseMs * Pow2(if attempt < 8 then attempt else 8);
    if cap < 30000 then cap else 30000
  }
}
