/** From the observed events to the committed ones: the outbox and the protocol together. */
module PipelineLossless {
  import opened Events
  import O = Outbox
  import P = OutboxProperties
  import S = EventStoreProperties
  import opened Pipeline

  /** Everything that was observed, in order. */
  function Observed(steps: seq<Step>): seq<O.Pending> {
    if steps == [] then []
    else
      var n := |steps| - 1;
      if steps[n].Observe? then Observed(steps[..n]) + [steps[n].item] else Observed(steps[..n])
  }

  /** The outbox never degraded and was never reloaded. */
  ghost predicate HealthyRun(me: Producer, limits: O.Limits, steps: seq<Step>)
    requires IsRun(me, limits, START, steps)
    decreases |steps|
  {
    && !Run(me, limits, START, steps).box.degraded
    && (steps != [] ==> !steps[|steps| - 1].Reload? && HealthyRun(me, limits, steps[..|steps| - 1]))
  }

  /** An outbox trace that has numbered the events of a history. */
  ghost predicate Numbers(t: P.Trace, w: World) {
    && t.box == w.box && !t.everDegraded && |t.numbered| == |w.history|
    && forall k :: 0 <= k < |w.history| ==> w.history[k].event == t.numbered[k].event
  }

  lemma Extend(me: Producer, limits: O.Limits, ops: seq<P.Op>, op: P.Op)
    requires P.IsRun(me, limits, ops) && P.Possible(P.Run(me, limits, ops), op)
    ensures P.IsRun(me, limits, ops + [op])
    ensures P.Run(me, limits, ops + [op]) == P.Step(me, limits, P.Run(me, limits, ops), op)
  {
    assert O.Init(ops + [op]) == ops && O.Last(ops + [op]) == op;
  }

  ghost predicate Simulates(me: Producer, limits: O.Limits, ops: seq<P.Op>, w: World, observed: seq<O.Pending>) {
    && P.IsRun(me, limits, ops)
    && Numbers(P.Run(me, limits, ops), w)
    && P.Run(me, limits, ops).observed == observed
    && P.KeysApartFromSnapshots(observed)
        == (forall k :: 0 <= k < |ops| && ops[k].Observe? ==> !(ops[k].item.snapshot && O.Keyed(ops[k].item)))
  }

  lemma SimulateAssign(me: Producer, limits: O.Limits, ops: seq<P.Op>, w: World, stamps: seq<Stamp>,
      observed: seq<O.Pending>)
    requires Simulates(me, limits, ops, w, observed) && |stamps| == |w.box.pending|
    ensures Simulates(me, limits, ops + [P.Assign(stamps)], Assigned(me, w, stamps), observed)
  {
    Extend(me, limits, ops, P.Assign(stamps));
  }

  lemma SimulateResume(me: Producer, limits: O.Limits, ops: seq<P.Op>, w: World, n: int, observed: seq<O.Pending>)
    requires Simulates(me, limits, ops, w, observed) && !O.ResumeConflict(w.box, n)
    ensures Simulates(me, limits, ops + [P.Resume(n)], Resumed(me, w, n), observed)
  {
    Extend(me, limits, ops, P.Resume(n));
  }

  lemma SimulateAck(me: Producer, limits: O.Limits, ops: seq<P.Op>, w: World, n: int, observed: seq<O.Pending>)
    requires Simulates(me, limits, ops, w, observed)
    ensures Simulates(me, limits, ops + [P.Acknowledge(n - 1)], Saved(me, w, O.Acknowledge(w.box, n - 1)), observed)
  {
    Extend(me, limits, ops, P.Acknowledge(n - 1));
  }

  lemma SimulateOther(me: Producer, limits: O.Limits, ops: seq<P.Op>, w: World, w': World, observed: seq<O.Pending>)
    requires Simulates(me, limits, ops, w, observed) && w'.box == w.box && w'.history == w.history
    ensures Simulates(me, limits, ops, w', observed)
  {
  }

  lemma SimulateObserve(me: Producer, limits: O.Limits, ops: seq<P.Op>, w: World, item: O.Pending,
      observed: seq<O.Pending>)
    requires Simulates(me, limits, ops, w, observed) && !O.Observe(limits, w.box, item).degraded
    ensures Simulates(me, limits, ops + [P.Observe(item)], w.(box := O.Observe(limits, w.box, item)), observed + [item])
  {
    Extend(me, limits, ops, P.Observe(item));
    var ops' := ops + [P.Observe(item)];
    assert ops'[|ops|] == P.Observe(item);
    assert (observed + [item])[|observed|] == item;
    if P.KeysApartFromSnapshots(observed + [item]) {
      assert forall k :: 0 <= k < |observed| ==> (observed + [item])[k] == observed[k];
      assert P.KeysApartFromSnapshots(observed);
    }
    if forall k :: 0 <= k < |ops'| && ops'[k].Observe? ==> !(ops'[k].item.snapshot && O.Keyed(ops'[k].item)) {
      assert forall k :: 0 <= k < |ops| ==> ops'[k] == ops[k];
      assert P.KeysApartFromSnapshots(observed);
    }
  }

  lemma SimulateStep(me: Producer, limits: O.Limits, ops: seq<P.Op>, w: World, step: Step, observed: seq<O.Pending>)
    returns (ops': seq<P.Op>)
    requires Simulates(me, limits, ops, w, observed) && Enabled(me, w, step) && !step.Reload?
    requires !Next(me, limits, w, step).box.degraded
    ensures Simulates(me, limits, ops', Next(me, limits, w, step),
                      if step.Observe? then observed + [step.item] else observed)
  {
    hide Simulates, O.Observe, O.Acknowledge;
    match step {
      case Observe(item) =>
        SimulateObserve(me, limits, ops, w, item, observed);
        ops' := ops + [P.Observe(item)];
      case Welcome(stamps) =>
        SimulateAssign(me, limits, ops, w, stamps, observed);
        ops' := ops + [P.Assign(stamps)];
      case Flush(stamps) =>
        SimulateAssign(me, limits, ops, w, stamps, observed);
        SimulateOther(me, limits, ops + [P.Assign(stamps)], Assigned(me, w, stamps), Flushed(me, w, stamps), observed);
        ops' := ops + [P.Assign(stamps)];
      case RegisteredLate(n) =>
        if O.ResumeConflict(w.box, n) { return ops; }
        SimulateResume(me, limits, ops, w, n, observed);
        ops' := ops + [P.Resume(n)];
      case Registered(n, stamps) =>
        if O.ResumeConflict(w.box, n) { return ops; }
        SimulateResume(me, limits, ops, w, n, observed);
        var w1 := Resumed(me, w, n);
        SimulateAssign(me, limits, ops + [P.Resume(n)], w1, stamps, observed);
        ops' := ops + [P.Resume(n)] + [P.Assign(stamps)];
        SimulateOther(me, limits, ops', Assigned(me, w1, stamps), Flushed(me, w1, stamps), observed);
      case Ack(n) =>
        SimulateAck(me, limits, ops, w, n, observed);
        ops' := ops + [P.Acknowledge(n - 1)];
      case Register(sessionId) =>
        ops' := ops;
        SimulateOther(me, limits, ops, w, Next(me, limits, w, step), observed);
      case Deliver(frame, found) =>
        ops' := ops;
        SimulateOther(me, limits, ops, w, DeliverNext(me, w, frame, found), observed);
      case Disconnect =>
        ops' := ops;
        SimulateOther(me, limits, ops, w, w.(connected := false), observed);
      case Daemon(op) =>
        ops' := ops;
        SimulateOther(me, limits, ops, w, w.(store := S.Step(w.store, op)), observed);
      case Reload => assert false;
    }
  }

  lemma {:induction false} HealthyRunIsTrace(me: Producer, limits: O.Limits, steps: seq<Step>) returns (ops: seq<P.Op>)
    requires IsRun(me, limits, START, steps) && HealthyRun(me, limits, steps)
    ensures Simulates(me, limits, ops, Run(me, limits, START, steps), Observed(steps))
    decreases |steps|
  {
    if steps == [] {
      ops := [];
    } else {
      var n := |steps| - 1;
      ops := HealthyRunIsTrace(me, limits, steps[..n]);
      ops := SimulateStep(me, limits, ops, Run(me, limits, START, steps[..n]), steps[n], Observed(steps[..n]));
    }
  }

  /** The observed items behind a history and the events still pending: nothing lost, altered or
      doubled. */
  ghost predicate Covers(numbered: seq<O.Pending>, w: World, observed: seq<O.Pending>) {
    var all := numbered + w.box.pending;
    && |numbered| == |w.history|
    && (forall k :: 0 <= k < |w.history| ==> w.history[k].event == numbered[k].event)
    && (forall key :: key != "" ==> P.KeyText(all, key) == P.KeyText(observed, key))
    && P.WholeEvents(all) == P.WholeEvents(observed)
    && O.LastSnapshot(all) == O.LastSnapshot(observed)
  }

  /** End to end, over every healthy run and every behaviour of the network and the daemon: the
      committed events of the bridge are a prefix of the numbered ones, in order and without
      repetition, and the numbered and pending events together carry exactly what was observed. */
  lemma CommittedIsWhatWasObserved(me: Producer, limits: O.Limits, steps: seq<Step>) returns (numbered: seq<O.Pending>)
    requires IsRun(me, limits, START, steps) && HealthyRun(me, limits, steps)
    requires P.KeysApartFromSnapshots(Observed(steps))
    ensures var w := Run(me, limits, START, steps);
            && 1 <= Expected(me, w) <= |w.history| + 1
            && S.Own(w.store.log, me.instanceId) == w.history[..Expected(me, w) - 1]
            && Covers(numbered, w, Observed(steps))
  {
    InvAlways(me, limits, steps);
    var ops := HealthyRunIsTrace(me, limits, steps);
    P.LosslessWhileHealthy(me, limits, ops);
    numbered := P.Run(me, limits, ops).numbered;
  }
}
