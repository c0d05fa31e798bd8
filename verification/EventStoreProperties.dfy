/** What the event store keeps over every run. */
module EventStoreProperties {
  import opened Wrappers
  import opened Events
  import opened EventStore

  datatype Op = Register(producer: Producer, sessionId: Uuid)
              | Append(event: Publish, found: Option<int>)
              | Retain(options: Retention, protected: int)
              | Pin(cursor: int)
              | LeaseReplay(id: Uuid, minimumCursor: int, expiresAt: int)
              | ReleaseReplay(id: Uuid)
              | SetState(instanceId: Uuid, state: Liveness)
              | Heartbeat(instanceId: Uuid)
              | Recover(order: seq<Uuid>, stamps: seq<Stamp>)

  /** The tables, and everything ever committed: the event with cursor c is log[c - 1]. */
  datatype World = World(t: Tables, log: seq<Publish>)

  const START := World(EMPTY_TABLES, [])

  ghost predicate FreshStamps(t: Tables, stamps: seq<Stamp>) {
    && (forall j, k :: 0 <= j < k < |stamps| ==> stamps[j].eventId != stamps[k].eventId)
    && (forall k, c :: 0 <= k < |stamps| && c in t.events ==> t.events[c].eventId != stamps[k].eventId)
  }

  ghost predicate Possible(w: World, op: Op) {
    match op
    case Append(v, found) => Lookup(w.t, v, found)
    case Retain(options, protected) => IsProtectedCursor(w.t, options.now, protected)
    case LeaseReplay(id, _, _) => id !in w.t.leases
    case Recover(order, stamps) => RecoveryOrder(w.t, order) && |stamps| == |order| && FreshStamps(w.t, stamps)
    case _ => true
  }

  /** The synthetic events of a recovery, in commit order. */
  ghost function LostEvents(t: Tables, order: seq<Uuid>, stamps: seq<Stamp>): seq<Publish>
    requires |stamps| == |order| && forall i :: i in order ==> i in t.instances
    decreases |order|
  {
    if order == [] then []
    else
      var n := |order| - 1;
      assert forall i :: i in order[..n] ==> i in order;
      LostEvents(t, order[..n], stamps[..n])
      + [LostEvent(EventStore.Recover(t, order[..n], stamps[..n]), order[n], stamps[n])]
  }

  ghost function Step(w: World, op: Op): World
    requires Possible(w, op)
  {
    match op
    case Register(producer, sessionId) => w.(t := EventStore.Register(w.t, producer, sessionId))
    case Append(v, found) =>
      var (t, answer) := EventStore.Append(w.t, v, found);
      World(t, if answer.Ok? && !answer.value.duplicate then w.log + [v] else w.log)
    case Retain(options, protected) => w.(t := EventStore.Retain(w.t, options, protected))
    case Pin(cursor) => w.(t := w.t.(pins := w.t.pins + {cursor}))
    case LeaseReplay(id, minimum, expiresAt) =>
      w.(t := w.t.(leases := w.t.leases[id := ReplayLease(minimum, expiresAt)]))
    case ReleaseReplay(id) => w.(t := w.t.(leases := w.t.leases - {id}))
    case SetState(i, state) => w.(t := SetInstanceState(w.t, i, state))
    case Heartbeat(i) => w.(t := EventStore.Heartbeat(w.t, i))
    case Recover(order, stamps) =>
      World(EventStore.Recover(w.t, order, stamps), w.log + LostEvents(w.t, order, stamps))
  }

  ghost predicate IsRun(ops: seq<Op>)
    decreases |ops|, 0
  {
    ops == [] || (IsRun(ops[..|ops| - 1]) && Possible(Run(ops[..|ops| - 1]), ops[|ops| - 1]))
  }

  ghost function Run(ops: seq<Op>): World
    requires IsRun(ops)
    decreases |ops|, 1
  {
    if ops == [] then START else Step(Run(ops[..|ops| - 1]), ops[|ops| - 1])
  }

  // ---------------------------------------------------------------- what every run keeps

  /** The events of an instance's own numbering, in commit order. */
  function Own(log: seq<Publish>, instanceId: Uuid): seq<Publish> {
    if log == [] then []
    else
      var n := |log| - 1;
      if log[n].instanceId == instanceId && log[n].sequence > 0 then Own(log[..n], instanceId) + [log[n]]
      else Own(log[..n], instanceId)
  }

  /** The highest cursor ever committed for a process, or 0. */
  function LastCursor(log: seq<Publish>, processId: Uuid): int {
    if log == [] then 0
    else if log[|log| - 1].processId == processId then |log|
    else LastCursor(log[..|log| - 1], processId)
  }

  /** The table holds committed events under their own cursors. */
  ghost predicate TableFromLog(w: World) {
    && w.t.headCursor == |w.log|
    && forall c :: c in w.t.events ==> 1 <= c <= |w.log| && w.t.events[c] == w.log[c - 1]
  }

  /** UNIQUE(event_id) and UNIQUE(instance_id, process_sequence). */
  ghost predicate UniqueRows(t: Tables) {
    forall c, d :: c in t.events && d in t.events && c != d ==> !Matches(t.events[c], t.events[d])
  }

  /** Each instance's events are numbered 1, 2, 3, ... in commit order, and the next number is
      the one the daemon expects. */
  ghost predicate DenseSequences(w: World) {
    && (forall i :: i in w.t.instances ==> DenseOwn(w.log, i, w.t.instances[i].nextSequence))
    && LogIsPast(w)
  }

  ghost predicate DenseOwn(log: seq<Publish>, i: Uuid, next: int) {
    && |Own(log, i)| == next - 1
    && forall k :: 0 <= k < |Own(log, i)| ==> Own(log, i)[k].sequence == k + 1
  }

  ghost predicate LogIsPast(w: World) {
    forall k :: 0 <= k < |w.log| ==>
      Registered(w.t, w.log[k]) && w.log[k].sequence < w.t.instances[w.log[k].instanceId].nextSequence
  }

  ghost predicate ProcessRows(w: World) {
    && (forall i :: i in w.t.instances ==> w.t.instances[i].processId in w.t.processes)
    && (forall p :: p in w.t.processes ==> w.t.processes[p].lastCursor == LastCursor(w.log, p))
  }

  ghost predicate Consistent(w: World) {
    TableFromLog(w) && UniqueRows(w.t) && DenseSequences(w) && ProcessRows(w)
  }

  /** A new row that matches no old one keeps rows unique. */
  lemma NewRowStaysUnique(t: Tables, t': Tables, cursor: int, v: Publish)
    requires UniqueRows(t) && Lookup(t, v, None) && t'.events == t.events[cursor := v] && cursor !in t.events
    ensures UniqueRows(t')
  {
    forall c, d | c in t'.events && d in t'.events && c != d ensures !Matches(t'.events[c], t'.events[d]) {
      if c != cursor && d != cursor { assert c in t.events && d in t.events; }
    }
  }

  lemma CommitKeepsDense(w: World, v: Publish)
    requires DenseSequences(w) && Registered(w.t, v) && v.sequence == w.t.instances[v.instanceId].nextSequence
    ensures DenseSequences(World(Commit(w.t, v), w.log + [v]))
  {
    CommitKeepsPast(w, v);
    hide LogIsPast;
    forall i | i in w.t.instances ensures DenseOwn(w.log + [v], i, Commit(w.t, v).instances[i].nextSequence) {
      assert (w.log + [v])[..|w.log|] == w.log && DenseOwn(w.log, i, w.t.instances[i].nextSequence);
    }
  }

  lemma CommitKeepsPast(w: World, v: Publish)
    requires LogIsPast(w) && Registered(w.t, v) && v.sequence == w.t.instances[v.instanceId].nextSequence
    ensures LogIsPast(World(Commit(w.t, v), w.log + [v]))
  {
    var w' := World(Commit(w.t, v), w.log + [v]);
    forall k | 0 <= k < |w'.log|
      ensures Registered(w'.t, w'.log[k]) && w'.log[k].sequence < w'.t.instances[w'.log[k].instanceId].nextSequence
    {
      if k < |w.log| { assert w'.log[k] == w.log[k]; }
    }
  }

  lemma CommitKeepsConsistent(w: World, v: Publish)
    requires Consistent(w) && Registered(w.t, v) && Lookup(w.t, v, None)
    requires v.sequence == w.t.instances[v.instanceId].nextSequence
    ensures Consistent(World(Commit(w.t, v), w.log + [v]))
  {
    hide DenseSequences, UniqueRows, Lookup, Own;
    CommitKeepsDense(w, v);
    NewRowStaysUnique(w.t, Commit(w.t, v), w.t.headCursor + 1, v);
    assert (w.log + [v])[..|w.log|] == w.log;
  }

  lemma {:induction false} LeastSequenceBounds(events: map<int, Publish>, i: Uuid, hi: int, c: int)
    requires c in events && 1 <= c <= hi && events[c].instanceId == i
    ensures LeastSequence(events, i, hi).Some? && LeastSequence(events, i, hi).value <= events[c].sequence
  {
    if c < hi { LeastSequenceBounds(events, i, hi - 1, c); }
  }

  /** The synthetic event of a lost instance collides with no row of the table. */
  lemma SyntheticIsFree(w: World, i: Uuid, stamp: Stamp)
    requires TableFromLog(w) && i in w.t.instances
    requires forall c :: c in w.t.events ==> w.t.events[c].eventId != stamp.eventId
    ensures Lookup(w.t, LostEvent(w.t, i, stamp), None) && LostEvent(w.t, i, stamp).sequence <= 0
  {
    forall c | c in w.t.events ensures !Matches(w.t.events[c], LostEvent(w.t, i, stamp)) {
      if w.t.events[c].instanceId == i { LeastSequenceBounds(w.t.events, i, w.t.headCursor, c); }
    }
  }

  lemma RecoverOneKeepsDense(w: World, i: Uuid, stamp: Stamp)
    requires DenseSequences(w) && i in w.t.instances && LostEvent(w.t, i, stamp).sequence <= 0
    ensures DenseSequences(World(RecoverOne(w.t, i, stamp), w.log + [LostEvent(w.t, i, stamp)]))
  {
    var w' := World(RecoverOne(w.t, i, stamp), w.log + [LostEvent(w.t, i, stamp)]);
    assert w'.log[..|w'.log| - 1] == w.log;
    assert DenseOwn(w.log, i, w.t.instances[i].nextSequence);
    hide SyntheticSequence;
    forall k | 0 <= k < |w'.log|
      ensures Registered(w'.t, w'.log[k]) && w'.log[k].sequence < w'.t.instances[w'.log[k].instanceId].nextSequence
    {
      if k < |w.log| { assert w'.log[k] == w.log[k]; }
    }
  }

  lemma RecoverOneKeepsConsistent(w: World, i: Uuid, stamp: Stamp)
    requires Consistent(w) && i in w.t.instances
    requires forall c :: c in w.t.events ==> w.t.events[c].eventId != stamp.eventId
    ensures Consistent(World(RecoverOne(w.t, i, stamp), w.log + [LostEvent(w.t, i, stamp)]))
  {
    hide DenseSequences, UniqueRows, Lookup, Own, SyntheticSequence;
    SyntheticIsFree(w, i, stamp);
    RecoverOneKeepsDense(w, i, stamp);
    NewRowStaysUnique(w.t, RecoverOne(w.t, i, stamp), w.t.headCursor + 1, LostEvent(w.t, i, stamp));
    assert (w.log + [LostEvent(w.t, i, stamp)])[..|w.log|] == w.log;
  }

  /** What one recovery does to the instances ... */
  ghost predicate InstancesRecovered(t: Tables, t': Tables, order: seq<Uuid>) {
    t'.instances.Keys == t.instances.Keys &&
    forall i :: i in t.instances ==>
      && t'.instances[i].nextSequence == t.instances[i].nextSequence
      && t'.instances[i].processId == t.instances[i].processId
      && t'.instances[i].state == if i in order then Lost else t.instances[i].state
  }

  /** ... and to the event table: old rows stay, new rows carry the fresh ids. */
  ghost predicate RowsRecovered(t: Tables, t': Tables, stamps: seq<Stamp>) {
    && (forall c :: c in t.events ==> c in t'.events && t'.events[c] == t.events[c])
    && (forall c :: c in t'.events && c !in t.events ==>
        exists k :: 0 <= k < |stamps| && t'.events[c].eventId == stamps[k].eventId)
    && t'.headCursor == t.headCursor + |stamps|
    && (forall c :: t.headCursor < c <= t'.headCursor ==> c in t'.events)
    && t'.pins == t.pins && t'.leases == t.leases
  }

  /** The synthetic events: one for each lost instance, outside its own numbering. */
  ghost predicate LostEventsFor(lost: seq<Publish>, order: seq<Uuid>, stamps: seq<Stamp>)
    requires |stamps| == |order|
  {
    |lost| == |order| &&
    forall k :: 0 <= k < |order| ==> && lost[k].instanceId == order[k] && lost[k].event == INSTANCE_LOST
                                     && lost[k].sequence <= 0 && lost[k].eventId == stamps[k].eventId
  }

  lemma RowsRecoveredStep(t: Tables, t1: Tables, i: Uuid, stamps: seq<Stamp>)
    requires stamps != [] && i in t1.instances
    requires RowsRecovered(t, t1, stamps[..|stamps| - 1])
    requires forall c :: c in t1.events ==> c <= t1.headCursor
    ensures RowsRecovered(t, RecoverOne(t1, i, stamps[|stamps| - 1]), stamps)
  {
    var n := |stamps| - 1;
    var t' := RecoverOne(t1, i, stamps[n]);
    forall c | c in t'.events && c !in t.events
      ensures exists k :: 0 <= k < |stamps| && t'.events[c].eventId == stamps[k].eventId
    {
      if c in t1.events {
        var k :| 0 <= k < n && t1.events[c].eventId == stamps[..n][k].eventId;
        assert stamps[..n][k] == stamps[k];
      } else {
        assert t'.events[c].eventId == stamps[n].eventId;
      }
    }
  }

  lemma StampStaysFresh(t: Tables, t1: Tables, stamps: seq<Stamp>)
    requires stamps != [] && FreshStamps(t, stamps) && RowsRecovered(t, t1, stamps[..|stamps| - 1])
    ensures forall c :: c in t1.events ==> t1.events[c].eventId != stamps[|stamps| - 1].eventId
  {
    var n := |stamps| - 1;
    forall c | c in t1.events ensures t1.events[c].eventId != stamps[n].eventId {
      if c !in t.events {
        var k :| 0 <= k < n && t1.events[c].eventId == stamps[..n][k].eventId;
        assert stamps[..n][k] == stamps[k];
      }
    }
  }

  lemma InstancesRecoveredStep(t: Tables, t1: Tables, order: seq<Uuid>, stamp: Stamp)
    requires order != [] && order[|order| - 1] in t1.instances
    requires InstancesRecovered(t, t1, order[..|order| - 1])
    ensures InstancesRecovered(t, RecoverOne(t1, order[|order| - 1], stamp), order)
  {
    var n := |order| - 1;
    assert forall i :: i in order <==> i in order[..n] || i == order[n];
  }

  lemma ConsistentTable(w: World)
    requires Consistent(w)
    ensures TableFromLog(w)
  {
  }

  lemma RecoverStep(w: World, order: seq<Uuid>, stamps: seq<Stamp>, t1: Tables, lost1: seq<Publish>)
    requires order != [] && |stamps| == |order| && order[|order| - 1] in t1.instances
    requires FreshStamps(w.t, stamps) && RowsRecovered(w.t, t1, stamps[..|stamps| - 1])
    requires Consistent(World(t1, w.log + lost1)) && LostEventsFor(lost1, order[..|order| - 1], stamps[..|order| - 1])
    ensures var v := LostEvent(t1, order[|order| - 1], stamps[|order| - 1]);
            && Consistent(World(RecoverOne(t1, order[|order| - 1], stamps[|order| - 1]), w.log + (lost1 + [v])))
            && LostEventsFor(lost1 + [v], order, stamps)
  {
    hide Consistent, RecoverOne, SyntheticSequence;
    var n := |order| - 1;
    var w1 := World(t1, w.log + lost1);
    var v := LostEvent(t1, order[n], stamps[n]);
    ConsistentTable(w1);
    StampStaysFresh(w.t, t1, stamps);
    SyntheticIsFree(w1, order[n], stamps[n]);
    RecoverOneKeepsConsistent(w1, order[n], stamps[n]);
    assert (w.log + lost1) + [v] == w.log + (lost1 + [v]);
    assert forall k :: 0 <= k < n ==> order[..n][k] == order[k] && stamps[..n][k] == stamps[k];
  }

  /** One recovery collides with no row, takes fresh cursors above the head, loses no
      `next_sequence` and leaves every recovered instance lost, for whatever order the rows
      come in. */
  lemma {:induction false} RecoverRounds(w: World, order: seq<Uuid>, stamps: seq<Stamp>)
    requires Consistent(w) && |stamps| == |order| && FreshStamps(w.t, stamps)
    requires forall i :: i in order ==> i in w.t.instances
    ensures var t', lost := EventStore.Recover(w.t, order, stamps), LostEvents(w.t, order, stamps);
            && Consistent(World(t', w.log + lost))
            && LostEventsFor(lost, order, stamps)
            && InstancesRecovered(w.t, t', order)
            && RowsRecovered(w.t, t', stamps)
    decreases |order|
  {
    if order == [] {
      assert w.log + [] == w.log;
    } else {
      var n := |order| - 1;
      assert forall i :: i in order[..n] ==> i in order;
      assert FreshStamps(w.t, stamps[..n]) by {
        assert forall k :: 0 <= k < n ==> stamps[..n][k] == stamps[k];
      }
      RecoverRounds(w, order[..n], stamps[..n]);
      var t1 := EventStore.Recover(w.t, order[..n], stamps[..n]);
      RecoverStep(w, order, stamps, t1, LostEvents(w.t, order[..n], stamps[..n]));
      InstancesRecoveredStep(w.t, t1, order, stamps[n]);
      TableBound(World(t1, w.log + LostEvents(w.t, order[..n], stamps[..n])));
      RowsRecoveredStep(w.t, t1, order[n], stamps);
    }
  }

  lemma TableBound(w: World)
    requires Consistent(w)
    ensures forall c :: c in w.t.events ==> c <= w.t.headCursor
  {
  }

  lemma StepKeepsConsistent(w: World, op: Op)
    requires Consistent(w) && Possible(w, op)
    ensures Consistent(Step(w, op))
  {
    if op.Register? {
      RegisterKeepsConsistent(w, op.producer, op.sessionId);
    } else if op.Append? {
      if Step(w, op).log != w.log { CommitKeepsConsistent(w, op.event); }
    } else if op.Recover? {
      RecoverRounds(w, op.order, op.stamps);
    } else {
      QuietStep(w, op);
      SameHistoryIsConsistent(w, Step(w, op).t);
    }
  }

  /** Retention, pins, leases and liveness changes commit nothing and renumber nothing. */
  lemma QuietStep(w: World, op: Op)
    requires Possible(w, op) && !op.Register? && !op.Append? && !op.Recover?
    requires forall i :: i in w.t.instances ==> w.t.instances[i].processId in w.t.processes
    ensures var t' := Step(w, op).t;
            && Step(w, op).log == w.log && t'.headCursor == w.t.headCursor
            && (forall c :: c in t'.events ==> c in w.t.events && t'.events[c] == w.t.events[c])
            && t'.instances.Keys == w.t.instances.Keys && t'.processes.Keys == w.t.processes.Keys
            && (forall i :: i in t'.instances ==> && t'.instances[i].processId == w.t.instances[i].processId
                                                  && t'.instances[i].nextSequence == w.t.instances[i].nextSequence)
            && (forall p :: p in t'.processes ==> t'.processes[p].lastCursor == w.t.processes[p].lastCursor)
  {
  }

  /** A statement that commits nothing, adds no row and keeps numbering is harmless. */
  lemma SameHistoryIsConsistent(w: World, t': Tables)
    requires Consistent(w) && t'.headCursor == w.t.headCursor
    requires forall c :: c in t'.events ==> c in w.t.events && t'.events[c] == w.t.events[c]
    requires t'.instances.Keys == w.t.instances.Keys && t'.processes.Keys == w.t.processes.Keys
    requires forall i :: i in t'.instances ==> && t'.instances[i].processId == w.t.instances[i].processId
                                               && t'.instances[i].nextSequence == w.t.instances[i].nextSequence
    requires forall p :: p in t'.processes ==> t'.processes[p].lastCursor == w.t.processes[p].lastCursor
    ensures Consistent(w.(t := t'))
  {
    forall k | 0 <= k < |w.log|
      ensures Registered(t', w.log[k]) && w.log[k].sequence < t'.instances[w.log[k].instanceId].nextSequence
    {
      assert Registered(w.t, w.log[k]);
    }
  }

  lemma RegisterKeepsConsistent(w: World, producer: Producer, sessionId: Uuid)
    requires Consistent(w)
    ensures Consistent(w.(t := EventStore.Register(w.t, producer, sessionId)))
  {
    var w' := w.(t := EventStore.Register(w.t, producer, sessionId));
    if producer.instanceId !in w.t.instances { NeverCommitted(w.log, w.t, producer.instanceId); }
    if producer.processId !in w.t.processes { NeverCommittedProcess(w, producer.processId); }
    forall k | 0 <= k < |w.log|
      ensures Registered(w'.t, w.log[k]) && w.log[k].sequence < w'.t.instances[w.log[k].instanceId].nextSequence
    {
      assert Registered(w.t, w.log[k]);
    }
  }

  lemma {:induction false} NeverCommitted(log: seq<Publish>, t: Tables, i: Uuid)
    requires i !in t.instances && forall k :: 0 <= k < |log| ==> Registered(t, log[k])
    ensures Own(log, i) == []
  {
    if log != [] {
      assert Registered(t, log[|log| - 1]);
      NeverCommitted(log[..|log| - 1], t, i);
    }
  }

  lemma NeverCommittedProcess(w: World, p: Uuid)
    requires Consistent(w) && p !in w.t.processes
    ensures LastCursor(w.log, p) == 0
  {
    forall k | 0 <= k < |w.log| ensures w.log[k].processId != p { assert Registered(w.t, w.log[k]); }
    NoCursor(w.log, p);
  }

  lemma {:induction false} NoCursor(log: seq<Publish>, p: Uuid)
    requires forall k :: 0 <= k < |log| ==> log[k].processId != p
    ensures LastCursor(log, p) == 0
  {
    if log != [] { NoCursor(log[..|log| - 1], p); }
  }

  /** A registration in any state, whatever became of earlier ones, makes process and instance live in
      its session, and keeps their cursors and numbers. */
  lemma RegisterRevives(t: Tables, producer: Producer, sessionId: Uuid)
    ensures var t' := EventStore.Register(t, producer, sessionId);
            var p, i := producer.processId, producer.instanceId;
            && p in t'.processes && t'.processes[p].state.Live? && t'.processes[p].sessionId == sessionId
            && i in t'.instances && t'.instances[i].state.Live?
            && NextSequence(t', i) == NextSequence(t, i)
            && (p in t.processes ==> t'.processes[p].lastCursor == t.processes[p].lastCursor)
            && (i in t.instances ==> t'.instances[i].processId == t.instances[i].processId)
            && (i !in t.instances ==> t'.instances[i].processId == p)
  {
  }

  /** Over any number of register, append, retain and recover rounds the log stays consistent. */
  lemma {:induction false} ConsistentAlways(ops: seq<Op>)
    requires IsRun(ops)
    ensures Consistent(Run(ops))
    decreases |ops|
  {
    if ops != [] {
      ConsistentAlways(ops[..|ops| - 1]);
      StepKeepsConsistent(Run(ops[..|ops| - 1]), ops[|ops| - 1]);
    }
  }

  /** The tables after a recovery of `order`. */
  ghost predicate Recovered(w: World, w': World, order: seq<Uuid>) {
    // No row collides with another, and each process names its highest cursor ever committed.
    && UniqueRows(w'.t) && ProcessRows(w')
    // One synthetic row for each lost instance, under a fresh cursor above the head.
    && LostRows(w.t, w'.t, order)
    && (forall c :: c in w.t.events ==> c in w'.t.events && w'.t.events[c] == w.t.events[c])
    // Numbering goes on where it was, and no instance is live or stale any more.
    && InstancesRecovered(w.t, w'.t, order)
    && (forall i :: i in w'.t.instances ==> !Recoverable(w'.t, i))
  }

  ghost predicate LostRows(t: Tables, t': Tables, order: seq<Uuid>) {
    forall k :: 0 <= k < |order| ==> LostRow(t', order[k], t.headCursor + k + 1)
  }

  ghost predicate LostRow(t: Tables, i: Uuid, c: int) {
    c in t.events && t.events[c].instanceId == i && t.events[c].event == INSTANCE_LOST
  }

  /** A recovery in any reachable state, for whatever order its rows come in; a second recovery
      finds nothing to do. */
  lemma RecoveryAlways(ops: seq<Op>, order: seq<Uuid>, stamps: seq<Stamp>, again: seq<Uuid>)
    requires IsRun(ops) && Possible(Run(ops), Recover(order, stamps))
    requires RecoveryOrder(Step(Run(ops), Recover(order, stamps)).t, again)
    ensures Recovered(Run(ops), Step(Run(ops), Recover(order, stamps)), order)
    ensures again == []
  {
    var w := Run(ops);
    ConsistentAlways(ops);
    RecoverRounds(w, order, stamps);
    var t' := EventStore.Recover(w.t, order, stamps);
    LostRowsAreInTheTable(w.t, t', w.log, LostEvents(w.t, order, stamps), order, stamps);
    NothingLeftToRecover(w.t, t', order, again);
  }

  lemma LostRowsAreInTheTable(t: Tables, t': Tables, log: seq<Publish>, lost: seq<Publish>, order: seq<Uuid>,
      stamps: seq<Stamp>)
    requires |stamps| == |order| && t.headCursor == |log|
    requires TableFromLog(World(t', log + lost))
    requires RowsRecovered(t, t', stamps) && LostEventsFor(lost, order, stamps)
    ensures LostRows(t, t', order)
  {
    hide RowsRecovered, TableFromLog;
    forall k | 0 <= k < |order| ensures LostRow(t', order[k], t.headCursor + k + 1) {
      CursorIsFilled(t, t', stamps, t.headCursor + k + 1);
      LostRowIs(t', log, lost, k);
    }
  }

  lemma CursorIsFilled(t: Tables, t': Tables, stamps: seq<Stamp>, c: int)
    requires RowsRecovered(t, t', stamps) && t.headCursor < c <= t.headCursor + |stamps|
    ensures c in t'.events
  {
  }

  lemma LostRowIs(t': Tables, log: seq<Publish>, lost: seq<Publish>, k: nat)
    requires TableFromLog(World(t', log + lost)) && k < |lost|
    ensures |log| + k + 1 in t'.events ==> t'.events[|log| + k + 1] == lost[k]
  {
    assert (log + lost)[|log| + k] == lost[k];
  }

  lemma NothingLeftToRecover(t: Tables, t': Tables, order: seq<Uuid>, again: seq<Uuid>)
    requires RecoveryOrder(t, order) && InstancesRecovered(t, t', order) && RecoveryOrder(t', again)
    ensures forall i :: i in t'.instances ==> !Recoverable(t', i)
    ensures again == []
  {
    forall i | i in t'.instances ensures !Recoverable(t', i) {
      if Recoverable(t, i) { assert i in order; }
    }
    FirstIsListed(again);
  }

  /** After a recovery, the processes of the lost instances are lost too, until they register again. */
  lemma {:induction false} RecoveredProcessesAreLost(t: Tables, order: seq<Uuid>, stamps: seq<Stamp>)
    requires |stamps| == |order| && forall i :: i in order ==> i in t.instances
    ensures forall i :: i in order && t.instances[i].processId in t.processes ==>
              var p := t.instances[i].processId;
              var t' := EventStore.Recover(t, order, stamps);
              p in t'.processes && t'.processes[p].state.Lost?
    ensures forall p :: p in t.processes ==> p in EventStore.Recover(t, order, stamps).processes
    ensures forall i :: i in t.instances ==>
              && i in EventStore.Recover(t, order, stamps).instances
              && EventStore.Recover(t, order, stamps).instances[i].processId == t.instances[i].processId
    decreases |order|
  {
    hide LeastSequence;
    if order != [] {
      var n := |order| - 1;
      assert forall i :: i in order ==> i in order[..n] || i == order[n];
      assert forall i :: i in order[..n] ==> i in order;
      RecoveredProcessesAreLost(t, order[..n], stamps[..n]);
    }
  }
}
