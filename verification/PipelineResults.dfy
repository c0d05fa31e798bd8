/** What the event pipeline promises in every run. */
module PipelineResults {
  import opened Wrappers
  import opened Events
  import O = Outbox
  import E = EventStore
  import S = EventStoreProperties
  import opened Pipeline

  /** Exactly once: in every run, the events ever committed for the bridge, in commit order, are
      the first numbered ones, with their ids and contents; and whatever frame arrives next, and
      whatever row its lookup returns, the daemon sees no conflict and no unknown producer. */
  lemma ExactlyOnce(me: Producer, limits: O.Limits, steps: seq<Step>)
    requires IsRun(me, limits, START, steps)
    ensures var w := Run(me, limits, START, steps);
            && 1 <= Expected(me, w) <= |w.history| + 1
            && S.Own(w.store.log, me.instanceId) == w.history[..Expected(me, w) - 1]
            && forall frame, found :: frame in w.frames && E.Lookup(w.store.t, frame, found) ==>
                 Answers(me, w, frame, E.Append(w.store.t, frame, found).1)
  {
    InvAlways(me, limits, steps);
    var w := Run(me, limits, START, steps);
    forall frame, found | frame in w.frames && E.Lookup(w.store.t, frame, found)
      ensures Answers(me, w, frame, E.Append(w.store.t, frame, found).1)
    {
      AnswerToFrame(me, w, frame, found);
    }
  }

  /** Nothing is discarded early: no resumption the daemon can ever ask for is a conflict while
      numbers are safe integers, and a resumption from the number the daemon expects returns
      exactly the numbered events it has not committed. */
  lemma NothingDiscardedEarly(me: Producer, limits: O.Limits, steps: seq<Step>)
    requires IsRun(me, limits, START, steps)
    requires |Run(me, limits, START, steps).history| < MAX_SAFE_INTEGER
    ensures var w := Run(me, limits, START, steps);
            && (forall n :: n in w.replies ==> !O.ResumeConflict(w.box, n))
            && 1 <= Expected(me, w) <= |w.history| + 1
            && !O.ResumeConflict(w.box, Expected(me, w))
            && O.Resume(w.box, Expected(me, w)).retained == Behind(w.history, Expected(me, w) - 1)
  {
    hide IsRun, Run;
    InvAlways(me, limits, steps);
    ResumesAtExpected(me, Run(me, limits, START, steps));
  }

  lemma ResumesAtExpected(me: Producer, w: World)
    requires Inv(me, w) && |w.history| < MAX_SAFE_INTEGER
    ensures forall n :: n in w.replies ==> !O.ResumeConflict(w.box, n)
    ensures 1 <= Expected(me, w) <= |w.history| + 1 && !O.ResumeConflict(w.box, Expected(me, w))
    ensures O.Resume(w.box, Expected(me, w)) == w.box.(retained := Behind(w.history, Expected(me, w) - 1))
  {
    hide S.Consistent, CommittedIsPrefix, FramesTrue, DiskIsCurrent, InstanceRow;
    DropKeepsTail(me, w.box, w.history, Expected(me, w), Expected(me, w));
  }

  // ---------------------------------------------------------------- recovery converges

  lemma {:induction false} RunConcat(me: Producer, limits: O.Limits, w: World, a: seq<Step>, b: seq<Step>)
    requires IsRun(me, limits, w, a) && IsRun(me, limits, Run(me, limits, w, a), b)
    ensures IsRun(me, limits, w, a + b) && Run(me, limits, w, a + b) == Run(me, limits, Run(me, limits, w, a), b)
    decreases |b|
  {
    if b == [] {
      assert a + b == a;
    } else {
      assert (a + b)[..|a + b| - 1] == a + b[..|b| - 1];
      RunConcat(me, limits, w, a, b[..|b| - 1]);
    }
  }

  lemma RunOne(me: Producer, limits: O.Limits, w: World, step: Step)
    requires Enabled(me, w, step)
    ensures IsRun(me, limits, w, [step]) && Run(me, limits, w, [step]) == Next(me, limits, w, step)
  {
    assert [step][..0] == [];
    assert Run(me, limits, w, []) == w;
  }

  /** Every frame from number `first` on, in order. */
  function Deliveries(history: seq<Publish>, first: int): seq<Step>
    requires 1 <= first <= |history| + 1
  {
    seq(|history| - (first - 1), k requires 0 <= k < |history| - (first - 1) => Deliver(history[first - 1 + k], None))
  }

  /** The acknowledgements of those frames, in order. */
  function Acknowledgements(count: nat, first: int): seq<Step> {
    seq(count, k => Ack(first + 1 + k))
  }

  function Hello(stamps: seq<Stamp>, sessionId: Uuid, next: int): seq<Step> {
    [Welcome(stamps), Register(sessionId), Registered(next, [])]
  }

  function Redelivery(history: seq<Publish>, first: int): seq<Step>
    requires 1 <= first <= |history| + 1
  {
    Deliveries(history, first) + Acknowledgements(|history| - (first - 1), first)
  }

  /** A reconnect without faults: hello, welcome, registration, resumption from the number the
      daemon names, every frame, every acknowledgement. */
  ghost function Round(me: Producer, w: World, stamps: seq<Stamp>, sessionId: Uuid): seq<Step>
    requires |stamps| == |w.box.pending| && 1 <= Expected(me, w) <= |w.history| + 1
  {
    var n, history := Expected(me, w), Assigned(me, w, stamps).history;
    Hello(stamps, sessionId, n) + Redelivery(history, n)
  }

  /** The next frame in order is committed, whatever the daemon's table holds. */
  lemma NextFrameIsNew(me: Producer, w: World, frame: Publish)
    requires Inv(me, w) && frame in w.frames && frame.sequence == Expected(me, w)
    ensures E.Lookup(w.store.t, frame, None) && E.Registered(w.store.t, frame)
  {
    FrameIsOurs(me, w, frame);
    forall c | c in w.store.t.events ensures !E.Matches(w.store.t.events[c], frame) {
      RowIsPast(w.store, c);
      if E.Matches(w.store.t.events[c], frame) { FoundIsTheFrame(me, w, frame, c); }
    }
  }

  lemma DeliverEffect(me: Producer, limits: O.Limits, w: World, frame: Publish)
    requires Inv(me, w) && frame in w.frames && frame.sequence == Expected(me, w)
        && w.store.t.headCursor < MAX_SAFE_INTEGER
    ensures Enabled(me, w, Deliver(frame, None))
    ensures var w' := Next(me, limits, w, Deliver(frame, None));
            && Inv(me, w') && w' == w.(store := w'.store, acks := w.acks + {Expected(me, w) + 1})
            && w'.store.log == w.store.log + [frame] && w'.store.t.headCursor == w.store.t.headCursor + 1
            && Expected(me, w') == Expected(me, w) + 1
  {
    hide Inv;
    NextFrameIsNew(me, w, frame);
    FrameIsOurs(me, w, frame);
    CommitKeepsInv(me, w, frame, None);
  }

  /** The world after `k` of the frames from `first` on have been committed. */
  ghost predicate DeliveredSo(me: Producer, w0: World, w: World, first: int, k: nat)
    requires 1 <= first && first - 1 + k <= |w0.history|
  {
    && w == w0.(store := w.store, acks := w.acks)
    && Expected(me, w) == first + k && w.store.t.headCursor == w0.store.t.headCursor + k
    && w.store.log == w0.store.log + w0.history[first - 1..first - 1 + k]
    && (forall n :: first < n <= first + k ==> n in w.acks)
  }

  lemma DeliverStep(me: Producer, limits: O.Limits, w0: World, w: World, first: int, k: nat)
    requires 1 <= first && first - 1 + k < |w0.history| && DeliveredSo(me, w0, w, first, k) && Inv(me, w)
    requires w0.history[first - 1 + k] in w0.frames && w.store.t.headCursor < MAX_SAFE_INTEGER
    requires w0.history[first - 1 + k].sequence == first + k
    ensures var frame := w0.history[first - 1 + k];
            && Enabled(me, w, Deliver(frame, None))
            && Inv(me, Next(me, limits, w, Deliver(frame, None)))
            && DeliveredSo(me, w0, Next(me, limits, w, Deliver(frame, None)), first, k + 1)
  {
    hide Inv, Next, Enabled, S.Step;
    var frame := w0.history[first - 1 + k];
    DeliverEffect(me, limits, w, frame);
    SliceGrows(w0.store.log, w0.history, first - 1, first - 1 + k);
  }

  lemma SliceGrows(log: seq<Publish>, history: seq<Publish>, lo: int, hi: int)
    requires 0 <= lo <= hi < |history|
    ensures log + history[lo..hi + 1] == log + history[lo..hi] + [history[hi]]
  {
  }

  lemma {:induction false} DeliverAll(me: Producer, limits: O.Limits, w0: World, first: int, k: nat)
    requires Inv(me, w0) && 1 <= first == Expected(me, w0) && first - 1 + k <= |w0.history|
    requires forall j :: first - 1 <= j < |w0.history| ==> w0.history[j].sequence == j + 1
    requires forall j :: first - 1 <= j < |w0.history| ==> w0.history[j] in w0.frames
    requires w0.store.t.headCursor + k <= MAX_SAFE_INTEGER
    ensures IsRun(me, limits, w0, Deliveries(w0.history, first)[..k])
    ensures Inv(me, Run(me, limits, w0, Deliveries(w0.history, first)[..k]))
    ensures DeliveredSo(me, w0, Run(me, limits, w0, Deliveries(w0.history, first)[..k]), first, k)
    decreases k
  {
    hide Inv, Next, Enabled;
    var all := Deliveries(w0.history, first);
    if k == 0 {
      assert all[..0] == [];
      assert w0.store.log + w0.history[first - 1..first - 1] == w0.store.log;
    } else {
      DeliverAll(me, limits, w0, first, k - 1);
      assert all[..k][..k - 1] == all[..k - 1] && all[..k][k - 1] == all[k - 1];
      DeliverStep(me, limits, w0, Run(me, limits, w0, all[..k - 1]), first, k - 1);
    }
  }

  /** The world after some acknowledgements have been handled. */
  ghost predicate AcknowledgedSo(w0: World, w: World) {
    && w == w0.(box := w.box, disk := w.disk) && w.box.pending == w0.box.pending
    && (w.box.degraded ==> w0.box.degraded && w.box.recovery == w0.box.recovery)
    && (w0.box.recovery.None? ==> w.box.recovery.None? && w.box.degraded == w0.box.degraded)
  }

  lemma AcknowledgeStep(me: Producer, limits: O.Limits, w: World, n: int)
    requires Inv(me, w) && n in w.acks
    ensures Inv(me, Next(me, limits, w, Ack(n))) && AcknowledgedSo(w, Next(me, limits, w, Ack(n)))
    ensures n == Expected(me, w) == |w.history| + 1 ==>
              && Next(me, limits, w, Ack(n)).box.retained == []
              && (w.box.recovery.Some? ==> !Next(me, limits, w, Ack(n)).box.degraded)
  {
    hide S.Consistent, CommittedIsPrefix, FramesTrue, HistoryNumbered, DiskIsCurrent;
    AckKeepsInv(me, w, n);
    DropKeepsTail(me, w.box, w.history, Expected(me, w), n);
  }

  lemma {:induction false} AcknowledgeAll(me: Producer, limits: O.Limits, w0: World, first: int, k: nat)
    requires Inv(me, w0) && first + k <= Expected(me, w0)
    requires forall n :: first < n <= first + k ==> n in w0.acks
    ensures IsRun(me, limits, w0, Acknowledgements(k, first))
    ensures var w := Run(me, limits, w0, Acknowledgements(k, first));
            && Inv(me, w) && AcknowledgedSo(w0, w) && (k == 0 ==> w == w0)
            && (k > 0 && first + k == Expected(me, w0) == |w0.history| + 1 ==>
                  w.box.retained == [] && (w0.box.recovery.Some? ==> !w.box.degraded))
    decreases k
  {
    hide Inv, Next;
    if k > 0 {
      AcknowledgeAll(me, limits, w0, first, k - 1);
      var all := Acknowledgements(k, first);
      assert all[..k - 1] == Acknowledgements(k - 1, first) && all[k - 1] == Ack(first + k);
      AcknowledgeStep(me, limits, Run(me, limits, w0, all[..k - 1]), first + k);
    }
  }

  /** From any reachable state, one fault-free reconnect commits every numbered event, each one
      once and in order, and leaves an empty spool and equal counters.  A degraded box stays degraded
      if and only if it has no recovery mark or everything was committed before: then no frame is
      sent, and no acknowledgement comes. */
  lemma RecoveryConverges(me: Producer, limits: O.Limits, steps: seq<Step>, stamps: seq<Stamp>, sessionId: Uuid)
    requires IsRun(me, limits, START, steps)
    requires CanAssign(Run(me, limits, START, steps), stamps)
    requires var w := Run(me, limits, START, steps);
             && |w.history| + |stamps| < MAX_SAFE_INTEGER
             && w.store.t.headCursor + |w.history| + |stamps| <= MAX_SAFE_INTEGER
    ensures var w := Run(me, limits, START, steps);
            && 1 <= Expected(me, w) <= |w.history| + 1
            && IsRun(me, limits, w, Round(me, w, stamps, sessionId))
            && Converged(me, w, Assigned(me, w, stamps), Run(me, limits, w, Round(me, w, stamps, sessionId)))
  {
    var w := Run(me, limits, START, steps);
    InvAlways(me, limits, steps);
    InvBounds(me, w);
    RoundConverges(me, limits, w, stamps, sessionId);
  }

  ghost predicate Converged(me: Producer, w: World, w1: World, end: World)
    requires 1 <= Expected(me, w) <= |w.history| + 1 && |w.history| <= |w1.history|
  {
    && end.history == w1.history
    && end.store.log == w.store.log + Behind(w1.history, Expected(me, w) - 1)
    && S.Own(end.store.log, me.instanceId) == w1.history
    && end.box.retained == [] && end.box.pending == [] && end.connected
    && Expected(me, end) == end.box.nextSequence == |w1.history| + 1
    && (end.box.degraded <==>
          w1.box.degraded && (w1.box.recovery.None? || Expected(me, w) == |w1.history| + 1))
  }

  lemma InvBounds(me: Producer, w: World)
    requires Inv(me, w)
    ensures 1 <= Expected(me, w) <= |w.history| + 1 && w.box.nextSequence == |w.history| + 1
    ensures forall k :: 0 <= k < |w.history| ==> w.history[k].sequence == k + 1
    ensures w.store.t.headCursor == |w.store.log|
  {
  }

  lemma RoundConverges(me: Producer, limits: O.Limits, w: World, stamps: seq<Stamp>, sessionId: Uuid)
    requires Inv(me, w) && CanAssign(w, stamps) && |stamps| == |w.box.pending|
        && 1 <= Expected(me, w) <= |w.history| + 1
    requires |w.history| + |stamps| < MAX_SAFE_INTEGER
    requires w.store.t.headCursor + |w.history| + |stamps| <= MAX_SAFE_INTEGER
    ensures IsRun(me, limits, w, Round(me, w, stamps, sessionId))
    ensures Converged(me, w, Assigned(me, w, stamps), Run(me, limits, w, Round(me, w, stamps, sessionId)))
  {
    hide *;
    AssignedLength(me, w, stamps);
    var w1 := Assigned(me, w, stamps);
    var w3, w4, end := RoundWorlds(me, limits, w, w1, stamps, sessionId);
    EndIsConverged(me, w, w1, w3, w4, end);
  }

  lemma RoundWorlds(me: Producer, limits: O.Limits, w: World, w1: World, stamps: seq<Stamp>, sessionId: Uuid)
    returns (w3: World, w4: World, end: World)
    requires Inv(me, w) && CanAssign(w, stamps) && |stamps| == |w.box.pending|
        && 1 <= Expected(me, w) <= |w.history| + 1
    requires |w.history| + |stamps| < MAX_SAFE_INTEGER
    requires w.store.t.headCursor + |w.history| + |stamps| <= MAX_SAFE_INTEGER
    requires |stamps| == |w.box.pending| && w1 == Assigned(me, w, stamps) && |w1.history| == |w.history| + |stamps|
    ensures IsRun(me, limits, w, Round(me, w, stamps, sessionId))
    ensures end == Run(me, limits, w, Round(me, w, stamps, sessionId))
    ensures AfterHello(me, w, w1, w3) && Inv(me, w4) && Inv(me, end) && AcknowledgedSo(w4, end)
    ensures DeliveredSo(me, w3, w4, Expected(me, w), |w1.history| - (Expected(me, w) - 1))
    ensures if Expected(me, w) <= |w1.history|
            then end.box.retained == [] && (w4.box.recovery.Some? ==> !end.box.degraded)
            else end == w4
  {
    hide *;
    w3 := HelloResumes(me, limits, w, stamps, sessionId);
    AfterHelloFacts(me, w, w1, w3);
    w4, end := DeliverAndAcknowledge(me, limits, w3, Expected(me, w));
    RunRound(me, limits, w, w1, w3, stamps, sessionId);
  }

  lemma RunRound(me: Producer, limits: O.Limits, w: World, w1: World, w3: World, stamps: seq<Stamp>, sessionId: Uuid)
    requires |stamps| == |w.box.pending| && 1 <= Expected(me, w) <= |w.history| + 1 && w1 == Assigned(me, w, stamps)
    requires IsRun(me, limits, w, Hello(stamps, sessionId, Expected(me, w)))
    requires w3 == Run(me, limits, w, Hello(stamps, sessionId, Expected(me, w))) && w3.history == w1.history
    requires Expected(me, w) <= |w3.history| + 1 && IsRun(me, limits, w3, Redelivery(w3.history, Expected(me, w)))
    ensures IsRun(me, limits, w, Round(me, w, stamps, sessionId))
    ensures Run(me, limits, w, Round(me, w, stamps, sessionId))
        == Run(me, limits, w3, Redelivery(w3.history, Expected(me, w)))
  {
    hide *;
    RoundParts(me, w, w1, stamps, sessionId);
    RunConcat(me, limits, w, Hello(stamps, sessionId, Expected(me, w)), Redelivery(w3.history, Expected(me, w)));
  }

  lemma RoundParts(me: Producer, w: World, w1: World, stamps: seq<Stamp>, sessionId: Uuid)
    requires |stamps| == |w.box.pending| && 1 <= Expected(me, w) <= |w.history| + 1 && w1 == Assigned(me, w, stamps)
    ensures Round(me, w, stamps, sessionId)
        == Hello(stamps, sessionId, Expected(me, w)) + Redelivery(w1.history, Expected(me, w))
  {
  }

  lemma AfterHelloFacts(me: Producer, w: World, w1: World, w3: World)
    requires AfterHello(me, w, w1, w3)
    ensures Expected(me, w3) == Expected(me, w) && w3.history == w1.history
        && w3.store.t.headCursor == w.store.t.headCursor
    ensures forall j :: Expected(me, w) - 1 <= j < |w3.history| ==> w3.history[j] in w3.frames
  {
  }

  lemma AssignedLength(me: Producer, w: World, stamps: seq<Stamp>)
    requires |stamps| == |w.box.pending|
    ensures var w1 := Assigned(me, w, stamps);
            && |w1.history| == |w.history| + |stamps| && w1.box.pending == [] && w1.store == w.store
            && Expected(me, w1) == Expected(me, w)
  {
  }

  lemma DeliverAndAcknowledge(me: Producer, limits: O.Limits, w: World, n: int) returns (w4: World, end: World)
    requires Inv(me, w) && 1 <= n == Expected(me, w) <= |w.history| + 1
    requires forall j :: n - 1 <= j < |w.history| ==> w.history[j] in w.frames
    requires w.store.t.headCursor + |w.history| - (n - 1) <= MAX_SAFE_INTEGER
    ensures IsRun(me, limits, w, Redelivery(w.history, n)) && end == Run(me, limits, w, Redelivery(w.history, n))
    ensures DeliveredSo(me, w, w4, n, |w.history| - (n - 1)) && AcknowledgedSo(w4, end) && Inv(me, w4) && Inv(me, end)
    ensures if n <= |w.history| then end.box.retained == [] && (w4.box.recovery.Some? ==> !end.box.degraded)
            else end == w4
  {
    hide *;
    var count := |w.history| - (n - 1);
    InvBounds(me, w);
    RedeliveryParts(w.history, n);
    var deliveries, acks := Deliveries(w.history, n), Acknowledgements(count, n);
    DeliverAll(me, limits, w, n, count);
    w4 := Run(me, limits, w, deliveries);
    DeliveredFacts(me, w, w4, n, count);
    AcknowledgeAll(me, limits, w4, n, count);
    RunConcat(me, limits, w, deliveries, acks);
    end := Run(me, limits, w4, acks);
  }

  lemma RedeliveryParts(history: seq<Publish>, n: int)
    requires 1 <= n <= |history| + 1
    ensures Redelivery(history, n) == Deliveries(history, n) + Acknowledgements(|history| - (n - 1), n)
    ensures |Deliveries(history, n)| == |history| - (n - 1)
        && Deliveries(history, n)[..|history| - (n - 1)] == Deliveries(history, n)
  {
  }

  lemma DeliveredFacts(me: Producer, w: World, w4: World, n: int, count: nat)
    requires 1 <= n && n - 1 + count <= |w.history| && DeliveredSo(me, w, w4, n, count)
    ensures w4.history == w.history && Expected(me, w4) == n + count
    ensures forall m :: n < m <= n + count ==> m in w4.acks
  {
  }

  lemma EndIsConverged(me: Producer, w: World, w1: World, w3: World, w4: World, end: World)
    requires 1 <= Expected(me, w) <= |w.history| + 1 && |w.history| <= |w1.history|
    requires AfterHello(me, w, w1, w3)
    requires DeliveredSo(me, w3, w4, Expected(me, w), |w1.history| - (Expected(me, w) - 1))
    requires Inv(me, w4) && Inv(me, end) && AcknowledgedSo(w4, end)
    requires if Expected(me, w) <= |w1.history|
             then end.box.retained == [] && (w4.box.recovery.Some? ==> !end.box.degraded)
             else end == w4
    ensures Converged(me, w, w1, end)
  {
    hide S.Consistent, FramesTrue, HistoryNumbered, DiskIsCurrent, NumbersTrue, InstanceRow;
    var n := Expected(me, w);
    assert w3.history[n - 1..n - 1 + (|w1.history| - (n - 1))] == w1.history[n - 1..];
    assert w1.history[..|w1.history|] == w1.history;
    assert Expected(me, end) == |w1.history| + 1 && end.history == w1.history;
    if n > |w1.history| {
      assert w3.box.retained == [] && w4.box == w3.box;
    }
  }

  ghost predicate AfterHello(me: Producer, w: World, w1: World, w3: World) {
    && 1 <= Expected(me, w) <= |w1.history| + 1
    && Expected(me, w3) == Expected(me, w) && w3.history == w1.history && w3.connected
    && w3.store.log == w.store.log && w3.store.t.headCursor == w.store.t.headCursor
    && w3.box == w1.box.(retained := Behind(w1.history, Expected(me, w) - 1)) && w3.box.pending == []
    && (forall j :: Expected(me, w) - 1 <= j < |w1.history| ==> w1.history[j] in w3.frames)
  }

  /** The worlds after the first steps of a round. */
  lemma HelloWorlds(me: Producer, limits: O.Limits, w: World, stamps: seq<Stamp>, sessionId: Uuid)
    returns (w2: World, w3: World)
    requires Inv(me, w) && CanAssign(w, stamps) && |w.history| + |stamps| < MAX_SAFE_INTEGER
    ensures w2 == Next(me, limits, Assigned(me, w, stamps), Register(sessionId))
    ensures Enabled(me, w2, Registered(Expected(me, w), []))
    ensures w3 == Next(me, limits, w2, Registered(Expected(me, w), []))
    ensures Inv(me, w3) && AfterHello(me, w, Assigned(me, w, stamps), w3)
  {
    hide Inv, Next, Enabled;
    AssignKeepsInv(me, w, stamps);
    AssignedLength(me, w, stamps);
    var w1 := Assigned(me, w, stamps);
    InvBounds(me, w1);
    hide Assigned;
    w2 := RepliedTo(me, limits, w1, sessionId);
    w3 := ResumedFrom(me, limits, w2, Expected(me, w));
  }

  /** The first three steps of a round. */
  lemma HelloResumes(me: Producer, limits: O.Limits, w: World, stamps: seq<Stamp>, sessionId: Uuid) returns (w3: World)
    requires Inv(me, w) && CanAssign(w, stamps) && |w.history| + |stamps| < MAX_SAFE_INTEGER
    ensures var hello := Hello(stamps, sessionId, Expected(me, w));
            IsRun(me, limits, w, hello) && w3 == Run(me, limits, w, hello)
    ensures Inv(me, w3) && AfterHello(me, w, Assigned(me, w, stamps), w3)
  {
    hide Inv, AfterHello, Assigned;
    var w2;
    w2, w3 := HelloWorlds(me, limits, w, stamps, sessionId);
    assert Enabled(me, w, Welcome(stamps)) && Next(me, limits, w, Welcome(stamps)) == Assigned(me, w, stamps);
    assert Enabled(me, Assigned(me, w, stamps), Register(sessionId));
    hide Next, Enabled;
    RunThree(me, limits, w, Welcome(stamps), Register(sessionId), Registered(Expected(me, w), []));
  }

  lemma RepliedTo(me: Producer, limits: O.Limits, w: World, sessionId: Uuid) returns (w': World)
    requires Inv(me, w)
    ensures w' == Next(me, limits, w, Register(sessionId)) && Inv(me, w')
    ensures w' == w.(store := w'.store, replies := w'.replies) && w'.store.log == w.store.log
    ensures w'.store.t.headCursor == w.store.t.headCursor
    ensures Expected(me, w') == Expected(me, w) && Expected(me, w) in w'.replies
  {
    NextKeepsInv(me, limits, w, Register(sessionId));
    w' := Next(me, limits, w, Register(sessionId));
  }

  lemma RunThree(me: Producer, limits: O.Limits, w: World, a: Step, b: Step, c: Step)
    requires Enabled(me, w, a) && Enabled(me, Next(me, limits, w, a), b)
    requires Enabled(me, Next(me, limits, Next(me, limits, w, a), b), c)
    ensures IsRun(me, limits, w, [a, b, c])
    ensures Run(me, limits, w, [a, b, c]) == Next(me, limits, Next(me, limits, Next(me, limits, w, a), b), c)
  {
    hide Next, Enabled;
    RunOne(me, limits, w, a);
    assert [a, b][..1] == [a] && [a, b, c][..2] == [a, b];
    assert IsRun(me, limits, w, [a, b]);
  }

  lemma ResumedFrom(me: Producer, limits: O.Limits, w: World, n: int) returns (w': World)
    requires Inv(me, w) && n == Expected(me, w) && n in w.replies && w.box.pending == []
        && |w.history| < MAX_SAFE_INTEGER
    ensures Enabled(me, w, Registered(n, [])) && w' == Next(me, limits, w, Registered(n, [])) && Inv(me, w')
    ensures w'.store == w.store && w'.history == w.history && w'.connected
    ensures w'.box == w.box.(retained := Behind(w.history, n - 1))
    ensures forall j :: n - 1 <= j < |w.history| ==> w.history[j] in w'.frames
  {
    hide *;
    ResumesAtExpected(me, w);
    NothingPending(me, limits, w, n);
    NextKeepsInv(me, limits, w, Registered(n, []));
    w' := Next(me, limits, w, Registered(n, []));
    TailInFrames(w, w', n);
  }

  lemma TailInFrames(w: World, w': World, n: int)
    requires 1 <= n <= |w.history| + 1 && w'.box.retained == Behind(w.history, n - 1)
    requires forall f :: f in w'.box.retained ==> f in w'.frames
    ensures forall j :: n - 1 <= j < |w.history| ==> w.history[j] in w'.frames
  {
    forall j | n - 1 <= j < |w.history| ensures w.history[j] in w'.frames {
      assert w.history[j] == w'.box.retained[j - (n - 1)];
    }
  }

  /** A registration with nothing pending. */
  lemma NothingPending(me: Producer, limits: O.Limits, w: World, n: int)
    requires w.box.pending == [] && !O.ResumeConflict(w.box, n) && n in w.replies
    ensures Enabled(me, w, Registered(n, []))
    ensures var w' := Next(me, limits, w, Registered(n, []));
            && w'.box == O.Resume(w.box, n) && w'.history == w.history && w'.store == w.store && w'.connected
            && forall f :: f in w'.box.retained ==> f in w'.frames
  {
    var box := O.Resume(w.box, n);
    var batch := O.Numbered(me, [], [], box.nextSequence);
    assert batch == [] && box.retained + batch == box.retained && w.history + batch == w.history;
  }

  // ---------------------------------------------------------------- a lost acknowledgement

  const PLAIN := O.Pending(Body("message", None, ""), None, false, false)

  /** What does not fit into an outbox without snapshots leaves the gap marker alone. */
  lemma OverflowDegrades(limits: O.Limits, box: O.Box)
    requires box.pending != [] && O.LastSnapshot(box.pending).None? && !O.Fits(limits, box.retained, box.pending)
    ensures O.DegradeUnlessFits(limits, box, None) == box.(degraded := true, pending := [O.GapItem(box.nextSequence)])
  {
  }

  lemma PlainList(items: seq<O.Pending>)
    requires items == [] || items == [PLAIN]
    ensures O.LastSnapshot(items).None? && O.LastSnapshot(items + [PLAIN]).None?
    ensures !O.Coalesces(items, PLAIN)
  {
    assert O.Init(items + [PLAIN]) == items;
    assert items != [] ==> O.Init(items) == [];
  }

  /** Two plain observations of an outbox with room for one item. */
  lemma OverflowLeavesTheGap(limits: O.Limits)
    requires limits.maxItems == 1
    ensures O.Observe(limits, O.Observe(limits, O.EMPTY_BOX, PLAIN), PLAIN)
         == O.EMPTY_BOX.(degraded := true, pending := [O.GapItem(1)])
  {
    hide O.LastSnapshot, O.Coalesces, O.Bytes, O.DegradeUnlessFits, O.Degrade;
    PlainList([]);
    PlainList([PLAIN]);
    var box1, box2 := O.EMPTY_BOX.(pending := [] + [PLAIN]), O.EMPTY_BOX.(pending := [PLAIN] + [PLAIN]);
    assert [] + [PLAIN] == [PLAIN];
    OverflowDegrades(limits, box2);
    if O.Fits(limits, [], [PLAIN]) {
      FitsStays(limits, box1);
    } else {
      OverflowDegrades(limits, box1);
    }
  }

  lemma FitsStays(limits: O.Limits, box: O.Box)
    requires O.Fits(limits, box.retained, box.pending)
    ensures O.DegradeUnlessFits(limits, box, None) == box
  {
  }

  /** The state of a box that was not told that its gap has been committed. */
  ghost predicate GapUntold(me: Producer, w: World) {
    && w.box.degraded && w.box.recovery == Some(1) && w.box.pending == []
    && |w.history| == 1 && w.history[0].event.Gap? && Expected(me, w) == 2 && w.store.t.headCursor == 1
  }

  lemma OverflowRun(me: Producer, limits: O.Limits)
    requires limits.maxItems == 1
    ensures IsRun(me, limits, START, [Observe(PLAIN), Observe(PLAIN)])
    ensures Run(me, limits, START, [Observe(PLAIN), Observe(PLAIN)])
         == START.(box := O.EMPTY_BOX.(degraded := true, pending := [O.GapItem(1)]))
  {
    OverflowLeavesTheGap(limits);
    hide O.Observe;
    RunOne(me, limits, START, Observe(PLAIN));
    assert [Observe(PLAIN), Observe(PLAIN)][..1] == [Observe(PLAIN)];
  }

  /** The gap's batch is numbered and delivered. */
  lemma GapDelivered(me: Producer, limits: O.Limits, w: World, stamp: Stamp, sessionId: Uuid)
    returns (more: seq<Step>)
    requires Inv(me, w) && w == START.(box := O.EMPTY_BOX.(degraded := true, pending := [O.GapItem(1)]))
    ensures var frame := Publish(stamp.eventId, me.processId, me.instanceId, 1, stamp.occurredAt, Gap(1));
            more == Hello([stamp], sessionId, 1) + [Deliver(frame, None)]
    ensures IsRun(me, limits, w, more) && GapUntold(me, Run(me, limits, w, more))
  {
    hide Inv, Run, IsRun, Next, Enabled;
    var w1 := Assigned(me, w, [stamp]);
    var frame := Publish(stamp.eventId, me.processId, me.instanceId, 1, stamp.occurredAt, Gap(1));
    GapAssigned(me, w, stamp);
    var w3 := HelloResumes(me, limits, w, [stamp], sessionId);
    GapResumed(me, w, w1, w3, frame);
    DeliverEffect(me, limits, w3, frame);
    RunOne(me, limits, w3, Deliver(frame, None));
    RunConcat(me, limits, w, Hello([stamp], sessionId, 1), [Deliver(frame, None)]);
    more := Hello([stamp], sessionId, 1) + [Deliver(frame, None)];
  }

  lemma GapAssigned(me: Producer, w: World, stamp: Stamp)
    requires w == START.(box := O.EMPTY_BOX.(degraded := true, pending := [O.GapItem(1)]))
    ensures CanAssign(w, [stamp]) && Expected(me, w) == 1
    ensures var w1 := Assigned(me, w, [stamp]);
            && w1.history == [Publish(stamp.eventId, me.processId, me.instanceId, 1, stamp.occurredAt, Gap(1))]
            && w1.box.degraded && w1.box.recovery == Some(1) && w1.box.pending == []
  {
    assert w.box.pending[0].event.Gap?;
  }

  lemma GapResumed(me: Producer, w: World, w1: World, w3: World, frame: Publish)
    requires AfterHello(me, w, w1, w3) && Expected(me, w) == 1 && w1.history == [frame]
    requires w.store.t.headCursor == 0
    ensures frame in w3.frames && Expected(me, w3) == 1 && w3.history == [frame] && w3.store.t.headCursor == 0
    ensures w3.box.degraded == w1.box.degraded && w3.box.recovery == w1.box.recovery && w3.box.pending == []
  {
    assert w1.history[0] in w3.frames;
  }

  /** A gap that was committed while its acknowledgement was lost: a concrete run after which a
      fault-free reconnect leaves the box degraded, so that it goes on dropping events. */
  lemma LostAcknowledgementStaysDegraded(me: Producer, limits: O.Limits, stamp: Stamp, sessionId: Uuid)
    returns (steps: seq<Step>)
    requires limits.maxItems == 1
    ensures var frame := Publish(stamp.eventId, me.processId, me.instanceId, 1, stamp.occurredAt, Gap(1));
            steps == [Observe(PLAIN), Observe(PLAIN)] + (Hello([stamp], sessionId, 1) + [Deliver(frame, None)])
    ensures IsRun(me, limits, START, steps) && GapUntold(me, Run(me, limits, START, steps))
    ensures var w := Run(me, limits, START, steps);
            && IsRun(me, limits, w, Round(me, w, [], sessionId))
            && var end := Run(me, limits, w, Round(me, w, [], sessionId));
               end.box.degraded && O.Observe(limits, end.box, PLAIN) == end.box
  {
    hide Inv, Run, IsRun, Next, Enabled;
    var overflow := [Observe(PLAIN), Observe(PLAIN)];
    OverflowRun(me, limits);
    InvAlways(me, limits, overflow);
    var more := GapDelivered(me, limits, Run(me, limits, START, overflow), stamp, sessionId);
    RunConcat(me, limits, START, overflow, more);
    steps := overflow + more;
    InvAlways(me, limits, steps);
    NothingToAssign(me, Run(me, limits, START, steps));
    RoundConverges(me, limits, Run(me, limits, START, steps), [], sessionId);
  }

  lemma NothingToAssign(me: Producer, w: World)
    requires w.box.pending == []
    ensures CanAssign(w, []) && Assigned(me, w, []).history == w.history
    ensures Assigned(me, w, []).box.degraded == w.box.degraded
  {
  }
}
