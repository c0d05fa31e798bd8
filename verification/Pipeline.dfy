/** The whole event pipeline: one bridge with its outbox and spool, a network that may drop,
    duplicate, reorder and delay frames, and the daemon's store
    (pi-extension/remote-control/bridge.ts, packages/daemon/src/daemon.ts). */
module Pipeline {
  import opened Wrappers
  import opened Events
  import O = Outbox
  import E = EventStore
  import S = EventStoreProperties

  /** `frames`, `replies` and `acks` hold everything that was ever sent: a frame in them may be
      delivered at any time, any number of times, or never.  `history` is everything the outbox
      ever numbered. */
  datatype World = World(box: O.Box, disk: Option<O.SpoolFile>, connected: bool,
                         frames: set<Publish>, replies: set<int>, acks: set<int>,
                         store: S.World, history: seq<Publish>)

  const START := World(O.EMPTY_BOX, None, false, {}, {}, {}, S.START, [])

  datatype Step = Observe(item: O.Pending)              // an event of the Pi process
                | Welcome(stamps: seq<Stamp>)           // the bridge sends process.register
                | Register(sessionId: Uuid)             // the daemon handles process.register
                | Registered(next: int, stamps: seq<Stamp>) // the bridge handles process.registered
                | RegisteredLate(next: int)             // the same, when its socket is no longer open
                | Flush(stamps: seq<Stamp>)             // the bridge sends its spool
                | Deliver(frame: Publish, found: Option<int>) // the daemon handles event.publish
                | Ack(next: int)                        // the bridge handles event.ack
                | Disconnect                            // the socket closes
                | Reload                                // the bridge restarts from its spool
                | Daemon(op: S.Op)                      // retention, restart recovery, other producers, ...

  /** Fresh random ids. */
  ghost predicate NewStamps(w: World, stamps: seq<Stamp>) {
    && (forall j, k :: 0 <= j < k < |stamps| ==> stamps[j].eventId != stamps[k].eventId)
    && (forall j, k :: 0 <= j < |stamps| && 0 <= k < |w.history| ==> stamps[j].eventId != w.history[k].eventId)
    && (forall j, k :: 0 <= j < |stamps| && 0 <= k < |w.store.log| ==> stamps[j].eventId != w.store.log[k].eventId)
  }

  ghost predicate CanAssign(w: World, stamps: seq<Stamp>) {
    |stamps| == |w.box.pending| && NewStamps(w, stamps)
  }

  /** Steps of the daemon that are not about this bridge's connection: no other bridge uses its
      instance id, and random event ids do not repeat. */
  ghost predicate Foreign(me: Producer, w: World, op: S.Op) {
    match op
    case Register(producer, _) => producer.instanceId != me.instanceId
    case Append(v, _) => v.instanceId != me.instanceId && forall k :: 0 <= k < |w.history| ==>
      w.history[k].eventId != v.eventId
    case Recover(_, stamps) =>
      forall j, k :: 0 <= j < |stamps| && 0 <= k < |w.history| ==> stamps[j].eventId != w.history[k].eventId
    case _ => true
  }

  ghost predicate Enabled(me: Producer, w: World, step: Step) {
    match step
    case Welcome(stamps) => CanAssign(w, stamps)
    case Registered(next, stamps) => next in w.replies && CanAssign(w, stamps)
    case RegisteredLate(next) => next in w.replies
    case Flush(stamps) => w.connected && CanAssign(w, stamps)
    case Deliver(frame, found) => frame in w.frames && E.Lookup(w.store.t, frame, found)
    case Ack(next) => next in w.acks
    case Daemon(op) => S.Possible(w.store, op) && Foreign(me, w, op)
    case _ => true
  }

  /** `assign` numbers and persists in one go. */
  function Assigned(me: Producer, w: World, stamps: seq<Stamp>): World
    requires |stamps| == |w.box.pending|
  {
    var box := O.Assign(me, w.box, stamps);
    w.(box := box, disk := Some(O.Saved(me, box)),
       history := w.history + O.Numbered(me, w.box.pending, stamps, w.box.nextSequence))
  }

  /** `flush`: every retained frame goes out. */
  function Flushed(me: Producer, w: World, stamps: seq<Stamp>): World
    requires |stamps| == |w.box.pending|
  {
    var w1 := Assigned(me, w, stamps);
    w1.(frames := w1.frames + set f | f in w1.box.retained)
  }

  function Saved(me: Producer, w: World, box: O.Box): World {
    w.(box := box, disk := Some(O.Saved(me, box)))
  }

  function Resumed(me: Producer, w: World, next: int): World
    requires !O.ResumeConflict(w.box, next)
  {
    Saved(me, w, O.Resume(w.box, next)).(connected := true)
  }

  /** The daemon appends the frame and acknowledges it unless that fails. */
  ghost function DeliverNext(me: Producer, w: World, frame: Publish, found: Option<int>): World
    requires Enabled(me, w, Deliver(frame, found))
  {
    var answer := E.Append(w.store.t, frame, found).1;
    w.(store := S.Step(w.store, S.Append(frame, found)),
       acks := if answer.Ok? then w.acks + {answer.value.expectedNextSequence} else w.acks)
  }

  ghost function Next(me: Producer, limits: O.Limits, w: World, step: Step): World
    requires Enabled(me, w, step)
  {
    match step
    case Observe(item) => w.(box := O.Observe(limits, w.box, item))
    case Welcome(stamps) => Assigned(me, w, stamps)
    case Register(sessionId) =>
      var t := E.Register(w.store.t, me, sessionId);
      w.(store := w.store.(t := t), replies := w.replies + {E.NextSequence(t, me.instanceId)})
    case RegisteredLate(next) =>
      if O.ResumeConflict(w.box, next) then w else Resumed(me, w, next)
    case Registered(next, stamps) =>
      if O.ResumeConflict(w.box, next) then w
      else Flushed(me, Resumed(me, w, next), stamps)
    case Flush(stamps) => Flushed(me, w, stamps)
    case Deliver(frame, found) => DeliverNext(me, w, frame, found)
    case Ack(next) => Saved(me, w, O.Acknowledge(w.box, next - 1))
    case Disconnect => w.(connected := false)
    case Reload => w.(box := O.Load(me, w.disk), connected := false)
    case Daemon(op) => w.(store := S.Step(w.store, op))
  }

  ghost predicate IsRun(me: Producer, limits: O.Limits, w: World, steps: seq<Step>)
    decreases |steps|, 0
  {
    steps == [] ||
    (IsRun(me, limits, w, steps[..|steps| - 1])
     && Enabled(me, Run(me, limits, w, steps[..|steps| - 1]), steps[|steps| - 1]))
  }

  ghost function Run(me: Producer, limits: O.Limits, w: World, steps: seq<Step>): World
    requires IsRun(me, limits, w, steps)
    decreases |steps|, 1
  {
    if steps == [] then w
    else Next(me, limits, Run(me, limits, w, steps[..|steps| - 1]), steps[|steps| - 1])
  }

  // ---------------------------------------------------------------- the invariant

  /** The sequence number the daemon will commit next for this bridge. */
  function Expected(me: Producer, w: World): int {
    E.NextSequence(w.store.t, me.instanceId)
  }

  /** The numbered events are 1, 2, 3, ... of this producer under distinct ids. */
  ghost predicate HistoryNumbered(me: Producer, history: seq<Publish>) {
    && (forall k :: 0 <= k < |history| ==> history[k].sequence == k + 1 && Owner(history[k]) == me)
    && (forall j, k :: 0 <= j < k < |history| ==> history[j].eventId != history[k].eventId)
  }

  /** The retained frames are the end of the history, from some number the daemon has not passed. */
  ghost predicate SpoolIsTail(box: O.Box, history: seq<Publish>, expected: int) {
    var first := |history| - |box.retained|;
    && 0 <= first && box.retained == Behind(history, first)
    && box.nextSequence == |history| + 1
    && first + 1 <= expected <= |history| + 1
    && (box.recovery.Some? ==> box.recovery.value <= |history|)
  }

  ghost predicate DiskIsCurrent(me: Producer, disk: Option<O.SpoolFile>, box: O.Box, history: seq<Publish>) {
    match disk
    case None => history == []
    case Some(file) =>
      && file.producer == me && file.nextSequence == Some(box.nextSequence) && file.retained == box.retained
      && (file.recovery.Some? ==> file.recovery.value <= |history|)
  }

  /** What travels is true: frames were numbered, and numbers were expected once. */
  ghost predicate FramesTrue(frames: set<Publish>, history: seq<Publish>) {
    forall f :: f in frames ==> f in history
  }

  ghost predicate NumbersTrue(numbers: set<int>, expected: int) {
    forall n :: n in numbers ==> 1 <= n <= expected
  }

  /** Only the bridge's own process has its instance, and once anything travels it is registered. */
  ghost predicate InstanceRow(me: Producer, w: World) {
    && (w.frames != {} || w.replies != {} || w.connected || w.acks != {} ==> me.instanceId in w.store.t.instances)
    && (me.instanceId in w.store.t.instances ==> w.store.t.instances[me.instanceId].processId == me.processId)
  }

  /** Committed so far: exactly the history below the expected number, in order; and no other
      committed event bears the id of a numbered one. */
  ghost predicate CommittedIsPrefix(me: Producer, log: seq<Publish>, history: seq<Publish>, expected: int) {
    && 1 <= expected <= |history| + 1
    && S.Own(log, me.instanceId) == history[..expected - 1]
    && (forall j, k :: 0 <= j < |log| && 0 <= k < |history| && log[j].eventId == history[k].eventId ==>
        log[j] == history[k])
  }

  ghost predicate Inv(me: Producer, w: World) {
    && S.Consistent(w.store)
    && HistoryNumbered(me, w.history)
    && SpoolIsTail(w.box, w.history, Expected(me, w))
    && DiskIsCurrent(me, w.disk, w.box, w.history)
    && FramesTrue(w.frames, w.history)
    && NumbersTrue(w.acks, Expected(me, w)) && NumbersTrue(w.replies, Expected(me, w))
    && InstanceRow(me, w)
    && CommittedIsPrefix(me, w.store.log, w.history, Expected(me, w))
  }

  // ---------------------------------------------------------------- steps of the bridge

  lemma {:induction false} FromIsTail(frames: seq<Publish>, first: int, n: int)
    requires forall k :: 0 <= k < |frames| ==> frames[k].sequence == first + k
    ensures O.From(frames, n)
         == if n <= first then frames else if n - first >= |frames| then [] else frames[n - first..]
  {
    if frames != [] {
      FromIsTail(O.Init(frames), first, n);
    }
  }

  lemma TailIsNumbered(me: Producer, box: O.Box, history: seq<Publish>, expected: int)
    requires HistoryNumbered(me, history) && SpoolIsTail(box, history, expected)
    ensures forall k :: 0 <= k < |box.retained| ==>
              box.retained[k].sequence == |history| - |box.retained| + 1 + k
  {
    forall k | 0 <= k < |box.retained|
      ensures box.retained[k].sequence == |history| - |box.retained| + 1 + k
    {
      assert box.retained[k] == history[|history| - |box.retained| + k];
    }
  }

  /** Dropping what the daemon has passed leaves a tail of the history. */
  lemma DropKeepsTail(me: Producer, box: O.Box, history: seq<Publish>, expected: int, n: int)
    requires HistoryNumbered(me, history) && SpoolIsTail(box, history, expected) && n <= expected
    ensures var retained := O.From(box.retained, n);
            var first := |history| - |retained|;
            && 0 <= first && retained == Behind(history, first) && first + 1 <= expected
            && (n >= 1 ==> first >= n - 1) && (n == expected ==> first == n - 1)
  {
    hide HistoryNumbered, O.From;
    var first := |history| - |box.retained|;
    TailIsNumbered(me, box, history, expected);
    FromIsTail(box.retained, first + 1, n);
    if first + 1 < n {
      assert box.retained[n - 1 - first..] == history[n - 1..];
    }
  }

  lemma AssignKeepsTail(me: Producer, w: World, stamps: seq<Stamp>)
    requires SpoolIsTail(w.box, w.history, Expected(me, w)) && |stamps| == |w.box.pending|
    ensures var w' := Assigned(me, w, stamps);
            SpoolIsTail(w'.box, w'.history, Expected(me, w)) && DiskIsCurrent(me, w'.disk, w'.box, w'.history)
  {
    var w' := Assigned(me, w, stamps);
    var batch := O.Numbered(me, w.box.pending, stamps, w.box.nextSequence);
    var first := |w.history| - |w.box.retained|;
    assert w'.history == w.history + batch && w'.box.retained == w.box.retained + batch;
    assert w'.history[first..] == w.history[first..] + batch;
    if batch != [] {
      assert O.Last(w'.box.retained) == batch[|batch| - 1];
    } else {
      assert w'.box.retained == w.box.retained && w'.box.recovery == w.box.recovery;
    }
  }

  lemma AssignKeepsHistory(me: Producer, w: World, stamps: seq<Stamp>)
    requires HistoryNumbered(me, w.history) && CanAssign(w, stamps) && w.box.nextSequence == |w.history| + 1
    ensures HistoryNumbered(me, Assigned(me, w, stamps).history)
  {
  }

  lemma AssignKeepsCommitted(me: Producer, w: World, stamps: seq<Stamp>)
    requires CommittedIsPrefix(me, w.store.log, w.history, Expected(me, w)) && CanAssign(w, stamps)
    ensures CommittedIsPrefix(me, w.store.log, Assigned(me, w, stamps).history, Expected(me, w))
  {
    var batch := O.Numbered(me, w.box.pending, stamps, w.box.nextSequence);
    var history' := w.history + batch;
    assert history'[..Expected(me, w) - 1] == w.history[..Expected(me, w) - 1];
    assert forall j, k :: 0 <= j < |w.store.log| && 0 <= k < |batch| ==> w.store.log[j].eventId != batch[k].eventId;
  }

  lemma FramesStayTrue(frames: set<Publish>, history: seq<Publish>, more: seq<Publish>)
    requires FramesTrue(frames, history)
    ensures FramesTrue(frames, history + more)
  {
  }

  lemma AssignKeepsInv(me: Producer, w: World, stamps: seq<Stamp>)
    requires Inv(me, w) && CanAssign(w, stamps)
    ensures Inv(me, Assigned(me, w, stamps))
  {
    FramesStayTrue(w.frames, w.history, O.Numbered(me, w.box.pending, stamps, w.box.nextSequence));
    hide S.Consistent, CommittedIsPrefix, FramesTrue, HistoryNumbered, NumbersTrue;
    assert w.box.nextSequence == |w.history| + 1;
    hide SpoolIsTail, DiskIsCurrent, CanAssign;
    AssignKeepsTail(me, w, stamps);
    AssignKeepsHistory(me, w, stamps);
    AssignKeepsCommitted(me, w, stamps);
  }

  lemma RetainedFramesTrue(w: World, expected: int)
    requires FramesTrue(w.frames, w.history) && SpoolIsTail(w.box, w.history, expected)
    ensures FramesTrue(w.frames + (set f | f in w.box.retained), w.history)
  {
    var first := |w.history| - |w.box.retained|;
    forall f | f in w.box.retained ensures f in w.history {
      var k :| 0 <= k < |w.box.retained| && w.box.retained[k] == f;
      assert w.history[first + k] == f;
    }
  }

  lemma FlushKeepsInv(me: Producer, w: World, stamps: seq<Stamp>)
    requires Inv(me, w) && CanAssign(w, stamps) && w.connected
    ensures Inv(me, Flushed(me, w, stamps))
  {
    hide S.Consistent, CommittedIsPrefix, FramesTrue, HistoryNumbered, NumbersTrue, SpoolIsTail, DiskIsCurrent;
    AssignKeepsInv(me, w, stamps);
    RetainedFramesTrue(Assigned(me, w, stamps), Expected(me, w));
    hide CanAssign;
  }

  /** Replacing the box by one with a later tail of the same history. */
  lemma BoxKeepsInv(me: Producer, w: World, box: O.Box)
    requires Inv(me, w) && SpoolIsTail(box, w.history, Expected(me, w))
    ensures Inv(me, Saved(me, w, box))
  {
    hide S.Consistent, CommittedIsPrefix, FramesTrue, HistoryNumbered, NumbersTrue;
  }

  lemma AckKeepsInv(me: Producer, w: World, n: int)
    requires Inv(me, w) && n in w.acks
    ensures Inv(me, Saved(me, w, O.Acknowledge(w.box, n - 1)))
  {
    hide S.Consistent, CommittedIsPrefix, FramesTrue, HistoryNumbered, DiskIsCurrent;
    DropKeepsTail(me, w.box, w.history, Expected(me, w), n);
    BoxKeepsInv(me, w, O.Acknowledge(w.box, n - 1));
  }

  lemma ResumedKeepsInv(me: Producer, w: World, n: int)
    requires Inv(me, w) && n in w.replies && !O.ResumeConflict(w.box, n)
    ensures Inv(me, Resumed(me, w, n))
  {
    hide S.Consistent, CommittedIsPrefix, FramesTrue, HistoryNumbered, DiskIsCurrent;
    DropKeepsTail(me, w.box, w.history, Expected(me, w), n);
    BoxKeepsInv(me, w, O.Resume(w.box, n));
  }

  lemma RegisteredKeepsInv(me: Producer, w: World, n: int, stamps: seq<Stamp>)
    requires Inv(me, w) && n in w.replies && CanAssign(w, stamps) && !O.ResumeConflict(w.box, n)
    ensures Inv(me, Flushed(me, Resumed(me, w, n), stamps))
  {
    hide Inv;
    ResumedKeepsInv(me, w, n);
    FlushKeepsInv(me, Resumed(me, w, n), stamps);
  }

  /** A reload brings back the numbering and every retained frame. */
  lemma ReloadKeepsInv(me: Producer, w: World)
    requires Inv(me, w)
    ensures Inv(me, w.(box := O.Load(me, w.disk), connected := false))
  {
    hide S.Consistent, CommittedIsPrefix, FramesTrue, HistoryNumbered, NumbersTrue;
  }

  /** An observation numbers and discards nothing. */
  lemma ObserveOnlyPends(limits: O.Limits, box: O.Box, item: O.Pending)
    ensures var after := O.Observe(limits, box, item);
            after == box.(pending := after.pending, degraded := after.degraded)
  {
    hide O.Fits, O.Merge, O.Trim, O.Coalesces, O.DropSnapshots, O.LastSnapshot;
  }

  lemma ObserveKeepsInv(me: Producer, limits: O.Limits, w: World, item: O.Pending)
    requires Inv(me, w)
    ensures Inv(me, w.(box := O.Observe(limits, w.box, item)))
  {
    ObserveOnlyPends(limits, w.box, item);
    hide O.Observe, S.Consistent, CommittedIsPrefix, FramesTrue, HistoryNumbered, NumbersTrue;
  }

  lemma DisconnectKeepsInv(me: Producer, w: World)
    requires Inv(me, w)
    ensures Inv(me, w.(connected := false))
  {
    hide S.Consistent, CommittedIsPrefix, FramesTrue, HistoryNumbered, NumbersTrue, SpoolIsTail, DiskIsCurrent;
  }

  // ---------------------------------------------------------------- steps of the daemon

  lemma {:induction false} OwnHas(log: seq<Publish>, i: Uuid, k: nat) returns (m: nat)
    requires k < |log| && log[k].instanceId == i && log[k].sequence > 0
    ensures m < |S.Own(log, i)| && S.Own(log, i)[m] == log[k]
    decreases |log|
  {
    var n := |log| - 1;
    if k < n {
      m := OwnHas(log[..n], i, k);
    } else {
      m := |S.Own(log, i)| - 1;
    }
  }

  /** A row that the lookup can return for a frame of this bridge is that frame. */
  lemma FoundIsTheFrame(me: Producer, w: World, frame: Publish, c: int)
    requires S.TableFromLog(w.store) && HistoryNumbered(me, w.history)
    requires CommittedIsPrefix(me, w.store.log, w.history, Expected(me, w)) && frame in w.history
    requires c in w.store.t.events && E.Matches(w.store.t.events[c], frame)
    ensures w.store.t.events[c] == frame
  {
    var k :| 0 <= k < |w.history| && w.history[k] == frame;
    var own := S.Own(w.store.log, me.instanceId);
    assert forall m :: 0 <= m < |own| ==> own[m] == w.history[m];
    if w.store.log[c - 1].eventId != frame.eventId {
      var m := OwnHas(w.store.log, me.instanceId, c - 1);
    }
  }

  /** A frame that travels belongs to this bridge, which is registered. */
  lemma FrameIsOurs(me: Producer, w: World, frame: Publish)
    requires Inv(me, w) && frame in w.frames
    ensures frame in w.history && Owner(frame) == me && E.Registered(w.store.t, frame)
        && 1 <= frame.sequence <= |w.history|
    ensures frame == w.history[frame.sequence - 1]
  {
    hide S.Consistent, CommittedIsPrefix, SpoolIsTail, DiskIsCurrent, NumbersTrue;
  }

  /** What the daemon answers to any frame of this bridge: a duplicate, a commit, a sequence gap
      or an exhausted cursor, but never a conflict and never an unregistered producer. */
  ghost predicate Answers(me: Producer, w: World, frame: Publish, answer: Result<E.Receipt, E.Error>) {
    match answer
    case Ok(receipt) =>
      if receipt.duplicate then receipt.expectedNextSequence == Expected(me, w) && frame.sequence < Expected(me, w)
      else receipt.expectedNextSequence == Expected(me, w) + 1 && frame.sequence == Expected(me, w)
    case Err(e) => e == E.ProcessSequenceGap(Expected(me, w)) || e == E.CursorExhausted
  }

  lemma AnswerToFrame(me: Producer, w: World, frame: Publish, found: Option<int>)
    requires Inv(me, w) && frame in w.frames && E.Lookup(w.store.t, frame, found)
    ensures Answers(me, w, frame, E.Append(w.store.t, frame, found).1)
  {
    FrameIsOurs(me, w, frame);
    if found.Some? {
      FoundIsTheFrame(me, w, frame, found.value);
      RowIsPast(w.store, found.value);
    }
  }

  /** A row of the table is below the number its instance will commit next. */
  lemma RowIsPast(store: S.World, c: int)
    requires S.TableFromLog(store) && S.DenseSequences(store) && c in store.t.events
    ensures E.Registered(store.t, store.t.events[c])
    ensures store.t.events[c].sequence < E.NextSequence(store.t, store.t.events[c].instanceId)
  {
    assert E.Registered(store.t, store.log[c - 1]);
  }

  lemma {:induction false} OwnGrows(log: seq<Publish>, more: seq<Publish>, i: Uuid)
    requires forall k :: 0 <= k < |more| ==> more[k].instanceId != i || more[k].sequence <= 0
    ensures S.Own(log + more, i) == S.Own(log, i)
    decreases |more|
  {
    if more == [] {
      assert log + more == log;
    } else {
      var n := |more| - 1;
      assert (log + more)[..|log + more| - 1] == log + more[..n];
      OwnGrows(log, more[..n], i);
    }
  }

  lemma CommitKeepsCommitted(me: Producer, log: seq<Publish>, history: seq<Publish>, frame: Publish)
    requires HistoryNumbered(me, history) && CommittedIsPrefix(me, log, history, frame.sequence)
    requires 1 <= frame.sequence <= |history| && frame == history[frame.sequence - 1]
    ensures CommittedIsPrefix(me, log + [frame], history, frame.sequence + 1)
  {
    var n := frame.sequence;
    assert (log + [frame])[..|log|] == log;
    assert history[..n] == history[..n - 1] + [frame];
  }

  lemma DeliverKeepsInv(me: Producer, w: World, frame: Publish, found: Option<int>)
    requires Inv(me, w) && Enabled(me, w, Deliver(frame, found))
    ensures Inv(me, DeliverNext(me, w, frame, found))
  {
    hide S.Consistent, CommittedIsPrefix, FramesTrue, HistoryNumbered, SpoolIsTail, DiskIsCurrent;
    AnswerToFrame(me, w, frame, found);
    FrameIsOurs(me, w, frame);
    var answer := E.Append(w.store.t, frame, found).1;
    if answer.Ok? && !answer.value.duplicate {
      CommitKeepsInv(me, w, frame, found);
    } else {
      assert S.Step(w.store, S.Append(frame, found)) == w.store;
    }
  }

  lemma LaterExpected(box: O.Box, history: seq<Publish>, expected: int)
    requires SpoolIsTail(box, history, expected) && expected <= |history|
    ensures SpoolIsTail(box, history, expected + 1)
  {
  }

  lemma CommitKeepsInv(me: Producer, w: World, frame: Publish, found: Option<int>)
    requires Inv(me, w) && Enabled(me, w, Deliver(frame, found))
    requires E.Append(w.store.t, frame, found).1 == Ok(E.Receipt(w.store.t.headCursor + 1, false, Expected(me, w) + 1))
    ensures Inv(me, DeliverNext(me, w, frame, found))
    ensures DeliverNext(me, w, frame, found).store.log == w.store.log + [frame]
    ensures Expected(me, DeliverNext(me, w, frame, found)) == Expected(me, w) + 1
  {
    hide S.Consistent, CommittedIsPrefix, FramesTrue, HistoryNumbered, SpoolIsTail, DiskIsCurrent;
    FrameIsOurs(me, w, frame);
    CommitKeepsCommitted(me, w.store.log, w.history, frame);
    LaterExpected(w.box, w.history, Expected(me, w));
    S.StepKeepsConsistent(w.store, S.Append(frame, found));
  }

  /** Everything else the daemon does leaves this bridge's events alone. */
  lemma DaemonKeepsInv(me: Producer, w: World, op: S.Op)
    requires Inv(me, w) && S.Possible(w.store, op) && Foreign(me, w, op)
    ensures Inv(me, w.(store := S.Step(w.store, op)))
  {
    hide S.Consistent, CommittedIsPrefix, FramesTrue, HistoryNumbered, SpoolIsTail, DiskIsCurrent, NumbersTrue;
    S.StepKeepsConsistent(w.store, op);
    var more := LogSuffix(me, w, op);
    hide S.Step, S.Possible, Foreign;
    LongerLogIsPrefix(me, w.store.log, more, w.history, Expected(me, w));
  }

  lemma LongerLogIsPrefix(me: Producer, log: seq<Publish>, more: seq<Publish>, history: seq<Publish>, expected: int)
    requires CommittedIsPrefix(me, log, history, expected) && Elsewhere(me, history, more)
    ensures CommittedIsPrefix(me, log + more, history, expected)
  {
    OwnGrows(log, more, me.instanceId);
  }

  /** What a foreign step appends to the log is not part of this bridge's numbering. */
  ghost predicate Elsewhere(me: Producer, history: seq<Publish>, more: seq<Publish>) {
    && (forall k :: 0 <= k < |more| ==> more[k].instanceId != me.instanceId || more[k].sequence <= 0)
    && (forall j, k :: 0 <= j < |more| && 0 <= k < |history| ==> more[j].eventId != history[k].eventId)
  }

  ghost predicate SameRow(me: Producer, t: E.Tables, t': E.Tables) {
    && (me.instanceId in t.instances <==> me.instanceId in t'.instances)
    && (me.instanceId in t'.instances ==>
          && t'.instances[me.instanceId].processId == t.instances[me.instanceId].processId
          && t'.instances[me.instanceId].nextSequence == t.instances[me.instanceId].nextSequence)
  }

  lemma RecoverSuffix(me: Producer, w: World, order: seq<Uuid>, stamps: seq<Stamp>)
    requires S.Consistent(w.store) && S.Possible(w.store, S.Recover(order, stamps))
        && Foreign(me, w, S.Recover(order, stamps))
    ensures Elsewhere(me, w.history, S.LostEvents(w.store.t, order, stamps))
    ensures SameRow(me, w.store.t, E.Recover(w.store.t, order, stamps))
  {
    hide S.Consistent;
    S.RecoverRounds(w.store, order, stamps);
  }

  lemma LogSuffix(me: Producer, w: World, op: S.Op) returns (more: seq<Publish>)
    requires S.Consistent(w.store) && S.Possible(w.store, op) && Foreign(me, w, op)
    ensures S.Step(w.store, op).log == w.store.log + more && Elsewhere(me, w.history, more)
    ensures SameRow(me, w.store.t, S.Step(w.store, op).t)
  {
    hide S.Consistent, E.Recover, Elsewhere, SameRow;
    if op.Recover? {
      RecoverSuffix(me, w, op.order, op.stamps);
      more := S.LostEvents(w.store.t, op.order, op.stamps);
    } else if op.Append? {
      more := AppendSuffix(me, w, op);
    } else {
      more := [];
      QuietSuffix(me, w, op);
    }
  }

  lemma AppendSuffix(me: Producer, w: World, op: S.Op) returns (more: seq<Publish>)
    requires op.Append? && S.Possible(w.store, op) && Foreign(me, w, op)
    ensures S.Step(w.store, op).log == w.store.log + more && Elsewhere(me, w.history, more)
    ensures SameRow(me, w.store.t, S.Step(w.store, op).t)
  {
    more := if S.Step(w.store, op).log == w.store.log then [] else [op.event];
  }

  lemma QuietSuffix(me: Producer, w: World, op: S.Op)
    requires S.Consistent(w.store) && S.Possible(w.store, op) && Foreign(me, w, op) && !op.Append? && !op.Recover?
    ensures S.Step(w.store, op).log == w.store.log + [] && Elsewhere(me, w.history, [])
    ensures SameRow(me, w.store.t, S.Step(w.store, op).t)
  {
    hide S.TableFromLog, S.UniqueRows, S.DenseSequences;
    if !op.Register? { S.QuietStep(w.store, op); }
  }

  lemma RegisterKeepsRow(me: Producer, w: World, sessionId: Uuid)
    requires InstanceRow(me, w) && NumbersTrue(w.replies, Expected(me, w)) && 1 <= Expected(me, w)
    ensures var t := E.Register(w.store.t, me, sessionId);
            var w' := w.(store := w.store.(t := t), replies := w.replies + {E.NextSequence(t, me.instanceId)});
            InstanceRow(me, w') && Expected(me, w') == Expected(me, w) && NumbersTrue(w'.replies, Expected(me, w'))
  {
  }

  lemma RegisterKeepsInv(me: Producer, w: World, sessionId: Uuid)
    requires Inv(me, w)
    ensures Inv(me, w.(store := w.store.(t := E.Register(w.store.t, me, sessionId)),
                       replies := w.replies + {E.NextSequence(E.Register(w.store.t, me, sessionId), me.instanceId)}))
  {
    S.RegisterKeepsConsistent(w.store, me, sessionId);
    RegisterKeepsRow(me, w, sessionId);
    hide S.Consistent, CommittedIsPrefix, FramesTrue, HistoryNumbered, DiskIsCurrent, SpoolIsTail, NumbersTrue,
      InstanceRow;
    hide E.Register, E.NextSequence, Expected;
  }

  // ---------------------------------------------------------------- the main results

  lemma NextKeepsInv(me: Producer, limits: O.Limits, w: World, step: Step)
    requires Inv(me, w) && Enabled(me, w, step)
    ensures Inv(me, Next(me, limits, w, step))
  {
    hide Inv;
    match step {
      case Observe(item) => ObserveKeepsInv(me, limits, w, item);
      case Welcome(stamps) => AssignKeepsInv(me, w, stamps);
      case Register(sessionId) => RegisterKeepsInv(me, w, sessionId);
      case Registered(next, stamps) =>
        if !O.ResumeConflict(w.box, next) { RegisteredKeepsInv(me, w, next, stamps); }
      case RegisteredLate(next) =>
        if !O.ResumeConflict(w.box, next) { ResumedKeepsInv(me, w, next); }
      case Flush(stamps) => FlushKeepsInv(me, w, stamps);
      case Deliver(frame, found) => DeliverKeepsInv(me, w, frame, found);
      case Ack(next) => AckKeepsInv(me, w, next);
      case Disconnect => DisconnectKeepsInv(me, w);
      case Reload => ReloadKeepsInv(me, w);
      case Daemon(op) => DaemonKeepsInv(me, w, op);
    }
  }

  lemma StartInv(me: Producer)
    ensures Inv(me, START)
  {
  }

  lemma {:induction false} InvAlways(me: Producer, limits: O.Limits, steps: seq<Step>)
    requires IsRun(me, limits, START, steps)
    ensures Inv(me, Run(me, limits, START, steps))
    decreases |steps|
  {
    hide Next;
    if steps == [] {
      StartInv(me);
    } else {
      hide Inv;
      InvAlways(me, limits, steps[..|steps| - 1]);
      NextKeepsInv(me, limits, Run(me, limits, START, steps[..|steps| - 1]), steps[|steps| - 1]);
    }
  }
}
