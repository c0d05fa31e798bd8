/** The daemon's durable event log (packages/daemon/src/store.ts).  SQLite tables are maps from
    their primary keys; a transaction is one step. */
module EventStore {
  import opened Wrappers
  import opened Events

  datatype Liveness = Live | Stale | Dead | Lost

  datatype Instance = Instance(processId: Uuid, state: Liveness, nextSequence: int)

  datatype Process = Process(sessionId: Uuid, state: Liveness, lastCursor: int)

  datatype ReplayLease = ReplayLease(minimumCursor: int, expiresAt: int)

  datatype Tables = Tables(headCursor: int, events: map<int, Publish>, instances: map<Uuid, Instance>,
                           processes: map<Uuid, Process>, pins: set<int>, leases: map<Uuid, ReplayLease>)

  datatype Error = ProducerNotRegistered | EventConflict | ProcessSequenceGap(expected: int) | CursorExhausted
                 | InvalidCursor | CursorAhead | CursorExpired(minimumCursor: int)

  datatype Receipt = Receipt(cursor: int, duplicate: bool, expectedNextSequence: int)

  /** A row of the event table, as `replay` returns it. */
  datatype Committed = Committed(cursor: int, event: Publish)

  const EMPTY_TABLES := Tables(0, map[], map[], map[], {}, map[])

  // ---------------------------------------------------------------- register

  function Register(t: Tables, producer: Producer, sessionId: Uuid): Tables {
    var p, i := producer.processId, producer.instanceId;
    var process := if p in t.processes then t.processes[p].(sessionId := sessionId, state := Live)
                   else Process(sessionId, Live, 0);
    var instance := if i in t.instances then t.instances[i].(state := Live) else Instance(p, Live, 1);
    t.(processes := t.processes[p := process], instances := t.instances[i := instance])
  }

  predicate Registered(t: Tables, v: Publish) {
    v.instanceId in t.instances && t.instances[v.instanceId].processId == v.processId
  }

  /** The sequence number the daemon expects next from an instance. */
  function NextSequence(t: Tables, instanceId: Uuid): int {
    if instanceId in t.instances then t.instances[instanceId].nextSequence else 1
  }

  // ---------------------------------------------------------------- appendEvent

  /** event_id=? OR (instance_id=? AND process_sequence=?) */
  predicate Matches(row: Publish, v: Publish) {
    row.eventId == v.eventId || (row.instanceId == v.instanceId && row.sequence == v.sequence)
  }

  /** `found` is a row the lookup may return: any one that matches, or none if none does. */
  ghost predicate Lookup(t: Tables, v: Publish, found: Option<int>) {
    match found
    case None => forall c :: c in t.events ==> !Matches(t.events[c], v)
    case Some(c) => c in t.events && Matches(t.events[c], v)
  }

  function Append(t: Tables, v: Publish, found: Option<int>): (Tables, Result<Receipt, Error>)
    requires found.Some? ==> found.value in t.events
  {
    if !Registered(t, v) then (t, Err(ProducerNotRegistered))
    else
      var next := t.instances[v.instanceId].nextSequence;
      if found.Some? then
        if t.events[found.value] != v then (t, Err(EventConflict))
        else (t, Ok(Receipt(found.value, true, next)))
      else if next != v.sequence then (t, Err(ProcessSequenceGap(next)))
      else if t.headCursor >= MAX_SAFE_INTEGER then (t, Err(CursorExhausted))
      else (Commit(t, v), Ok(Receipt(t.headCursor + 1, false, v.sequence + 1)))
  }

  function Commit(t: Tables, v: Publish): Tables
    requires Registered(t, v)
  {
    var cursor := t.headCursor + 1;
    var i := t.instances[v.instanceId];
    t.(headCursor := cursor,
       events := t.events[cursor := v],
       instances := t.instances[v.instanceId := i.(nextSequence := i.nextSequence + 1)],
       processes := WithLastCursor(t.processes, v.processId, cursor))
  }

  /** UPDATE processes SET last_cursor=?, which changes nothing when the row is missing. */
  function WithLastCursor(processes: map<Uuid, Process>, p: Uuid, cursor: int): map<Uuid, Process> {
    if p in processes then processes[p := processes[p].(lastCursor := cursor)] else processes
  }

  // ---------------------------------------------------------------- replay

  /** The rows with lo <= cursor <= hi in cursor order; an empty filter lets every process pass. */
  function Rows(events: map<int, Publish>, lo: int, hi: int, processIds: seq<Uuid>): seq<Committed>
    decreases hi - lo + 1
  {
    if hi < lo then []
    else if hi in events && Passes(events[hi], processIds)
      then Rows(events, lo, hi - 1, processIds) + [Committed(hi, events[hi])]
    else Rows(events, lo, hi - 1, processIds)
  }

  predicate Passes(v: Publish, processIds: seq<Uuid>) {
    processIds == [] || v.processId in processIds
  }

  /** SELECT MIN(cursor), or hi + 1. */
  function Least(events: map<int, Publish>, lo: int, hi: int): int
    decreases hi - lo + 1
  {
    if hi < lo then hi + 1 else if lo in events then lo else Least(events, lo + 1, hi)
  }

  function MinimumCursor(t: Tables): int {
    Least(t.events, 1, t.headCursor)
  }

  function Replay(t: Tables, afterCursor: int, processIds: seq<Uuid>): Result<seq<Committed>, Error> {
    if afterCursor > MAX_SAFE_INTEGER || afterCursor < 0 then Err(InvalidCursor)
    else if afterCursor > t.headCursor then Err(CursorAhead)
    else if afterCursor < MinimumCursor(t) - 1 then Err(CursorExpired(MinimumCursor(t)))
    else Ok(Rows(t.events, afterCursor + 1, t.headCursor, processIds))
  }

  // ---------------------------------------------------------------- retain

  datatype Retention = Retention(maxEvents: int, maxAgeMs: int, now: int)

  predicate Unexpired(t: Tables, id: Uuid, now: int) {
    id in t.leases && t.leases[id].expiresAt > now
  }

  /** `protected` is the least cursor an unexpired lease asks for, or MAX_SAFE_INTEGER. */
  ghost predicate IsProtectedCursor(t: Tables, now: int, protected: int) {
    && (forall id :: Unexpired(t, id, now) ==> protected <= t.leases[id].minimumCursor)
    && (if exists id :: Unexpired(t, id, now)
        then exists id :: Unexpired(t, id, now) && protected == t.leases[id].minimumCursor
        else protected == MAX_SAFE_INTEGER)
  }

  function CountCutoff(t: Tables, options: Retention): int {
    if options.maxEvents <= 0 then t.headCursor else Max(0, t.headCursor - options.maxEvents)
  }

  function AgeTime(options: Retention): int {
    if options.maxAgeMs <= 0 then options.now + 1 else options.now - options.maxAgeMs
  }

  predicate Expendable(t: Tables, options: Retention, protected: int, c: int)
    requires c in t.events
  {
    && c < protected
    && c !in t.pins
    && (c <= CountCutoff(t, options) || t.events[c].occurredAt < AgeTime(options))
  }

  function Retain(t: Tables, options: Retention, protected: int): Tables {
    t.(events := map c | c in t.events && !Expendable(t, options, protected, c) :: t.events[c])
  }

  // ---------------------------------------------------------------- recoverAfterRestart

  /** SELECT MIN(process_sequence) over the rows of an instance with a cursor up to `hi`. */
  function LeastSequence(events: map<int, Publish>, instanceId: Uuid, hi: int): Option<int>
    decreases hi
  {
    if hi < 1 then None
    else
      var below := LeastSequence(events, instanceId, hi - 1);
      if hi in events && events[hi].instanceId == instanceId
         && (below.None? || events[hi].sequence < below.value) then Some(events[hi].sequence)
      else below
  }

  function SyntheticSequence(t: Tables, instanceId: Uuid): int {
    var least := LeastSequence(t.events, instanceId, t.headCursor);
    if least.None? || least.value > 0 then 0 else least.value - 1
  }

  const INSTANCE_LOST := Body("status", None, "instance_lost")

  function LostEvent(t: Tables, instanceId: Uuid, stamp: Stamp): Publish
    requires instanceId in t.instances
  {
    Publish(stamp.eventId, t.instances[instanceId].processId, instanceId, SyntheticSequence(t, instanceId),
            stamp.occurredAt, INSTANCE_LOST)
  }

  function RecoverOne(t: Tables, instanceId: Uuid, stamp: Stamp): Tables
    requires instanceId in t.instances
  {
    var v := LostEvent(t, instanceId, stamp);
    var cursor := t.headCursor + 1;
    var marked := t.instances[instanceId := t.instances[instanceId].(state := Lost)];
    var processes := WithLastCursor(t.processes, v.processId, cursor);
    t.(headCursor := cursor,
       events := t.events[cursor := v],
       instances := marked,
       processes := if v.processId in processes then processes[v.processId := processes[v.processId].(state := Lost)]
                    else processes)
  }

  predicate Recoverable(t: Tables, instanceId: Uuid) {
    instanceId in t.instances && (t.instances[instanceId].state == Live || t.instances[instanceId].state == Stale)
  }

  /** The rows of the recovery query, in whatever order the database returns them. */
  ghost predicate RecoveryOrder(t: Tables, order: seq<Uuid>) {
    && (forall i :: i in order <==> Recoverable(t, i))
    && (forall j, k :: 0 <= j < k < |order| ==> order[j] != order[k])
  }

  function Recover(t: Tables, order: seq<Uuid>, stamps: seq<Stamp>): Tables
    requires |stamps| == |order| && forall i :: i in order ==> i in t.instances
    ensures Recover(t, order, stamps).instances.Keys == t.instances.Keys
    decreases |order|
  {
    if order == [] then t
    else
      var n := |order| - 1;
      assert forall i :: i in order[..n] ==> i in order;
      RecoverOne(Recover(t, order[..n], stamps[..n]), order[n], stamps[n])
  }

  // ---------------------------------------------------------------- the other statements

  function SetInstanceState(t: Tables, instanceId: Uuid, state: Liveness): Tables {
    if instanceId !in t.instances then t
    else
      var i := t.instances[instanceId];
      t.(instances := t.instances[instanceId := i.(state := state)],
         processes := if i.processId in t.processes
                      then t.processes[i.processId := t.processes[i.processId].(state := state)] else t.processes)
  }

  function Heartbeat(t: Tables, instanceId: Uuid): Tables {
    if instanceId !in t.instances then t
    else t.(instances := t.instances[instanceId := t.instances[instanceId].(state := Live)])
  }
}

/** The store object of the daemon, proved against the functions of `EventStore`. */
module EventStoreClass {
  import opened Wrappers
  import opened Events
  import opened EventStore

  class DurableStore {
    var headCursor: int
    var events: map<int, Publish>
    var instances: map<Uuid, Instance>
    var processes: map<Uuid, Process>
    var pins: set<int>
    var leases: map<Uuid, ReplayLease>

    function Tables(): Tables
      reads this
    {
      EventStore.Tables(headCursor, events, instances, processes, pins, leases)
    }

    constructor ()
      ensures Tables() == EMPTY_TABLES
    {
      headCursor, events, instances, processes, pins, leases := 0, map[], map[], map[], {}, map[];
    }

    method Register(producer: Producer, sessionId: Uuid) returns (resumeFrom: int, head: int)
      modifies this`instances, this`processes
      ensures Tables() == EventStore.Register(old(Tables()), producer, sessionId)
      ensures resumeFrom == NextSequence(Tables(), producer.instanceId) && head == headCursor
    {
      var p, i := producer.processId, producer.instanceId;
      processes := processes[p := if p in processes then processes[p].(sessionId := sessionId, state := Live)
                                  else Process(sessionId, Live, 0)];
      instances := instances[i := if i in instances then instances[i].(state := Live) else Instance(p, Live, 1)];
      return instances[i].nextSequence, headCursor;
    }

    /** The lookup may return any matching row, and the answer is right for each of them. */
    method AppendEvent(v: Publish) returns (receipt: Result<Receipt, Error>)
      modifies this`headCursor, this`events, this`instances, this`processes
      ensures exists found :: Lookup(old(Tables()), v, found) && (Tables(), receipt) == Append(old(Tables()), v, found)
    {
      var existing: Option<int> := None;
      if c :| c in events && Matches(events[c], v) { existing := Some(c); }
      assert Lookup(Tables(), v, existing);
      if v.instanceId !in instances || instances[v.instanceId].processId != v.processId {
        return Err(ProducerNotRegistered);
      }
      var row := instances[v.instanceId];
      if existing.Some? {
        if events[existing.value] != v { return Err(EventConflict); }
        return Ok(Receipt(existing.value, true, row.nextSequence));
      }
      if row.nextSequence != v.sequence { return Err(ProcessSequenceGap(row.nextSequence)); }
      if headCursor >= MAX_SAFE_INTEGER { return Err(CursorExhausted); }
      var cursor := headCursor + 1;
      headCursor := cursor;
      events := events[cursor := v];
      instances := instances[v.instanceId := row.(nextSequence := row.nextSequence + 1)];
      if v.processId in processes {
        processes := processes[v.processId := processes[v.processId].(lastCursor := cursor)];
      }
      return Ok(Receipt(cursor, false, v.sequence + 1));
    }

    method Minimum() returns (minimum: int)
      requires headCursor >= 0
      ensures minimum == MinimumCursor(Tables())
    {
      minimum := 1;
      while minimum <= headCursor && minimum !in events
        invariant 1 <= minimum <= headCursor + 1
        invariant Least(events, 1, headCursor) == Least(events, minimum, headCursor)
      {
        minimum := minimum + 1;
      }
    }

    method Replay(afterCursor: int, processIds: seq<Uuid>) returns (rows: Result<seq<Committed>, Error>)
      requires headCursor >= 0
      ensures rows == EventStore.Replay(Tables(), afterCursor, processIds)
    {
      if afterCursor > MAX_SAFE_INTEGER || afterCursor < 0 { return Err(InvalidCursor); }
      if afterCursor > headCursor { return Err(CursorAhead); }
      var minimum := Minimum();
      if afterCursor < minimum - 1 { return Err(CursorExpired(minimum)); }
      var found: seq<Committed> := [];
      for c := afterCursor + 1 to headCursor + 1
        invariant found == Rows(events, afterCursor + 1, c - 1, processIds)
      {
        if c in events && Passes(events[c], processIds) { found := found + [Committed(c, events[c])]; }
      }
      return Ok(found);
    }

    method Pin(cursor: int)
      modifies this`pins
      ensures Tables() == old(Tables()).(pins := old(pins) + {cursor})
    {
      pins := pins + {cursor};
    }

    method LeaseReplay(id: Uuid, minimumCursor: int, expiresAt: int)
      modifies this`leases
      ensures Tables() == old(Tables()).(leases := old(leases)[id := ReplayLease(minimumCursor, expiresAt)])
    {
      leases := leases[id := ReplayLease(minimumCursor, expiresAt)];
    }

    method ReleaseReplay(id: Uuid)
      modifies this`leases
      ensures Tables() == old(Tables()).(leases := old(leases) - {id})
    {
      leases := leases - {id};
    }

    /** SELECT MIN(minimum_cursor) over the unexpired leases. */
    method ProtectedCursor(now: int) returns (protected: int)
      ensures IsProtectedCursor(Tables(), now, protected)
    {
      protected := MAX_SAFE_INTEGER;
      var todo := leases.Keys;
      var any := false;
      while todo != {}
        invariant todo <= leases.Keys
        invariant forall id :: id !in todo && Unexpired(Tables(), id, now) ==>
            any && protected <= leases[id].minimumCursor
        invariant if any then exists id :: Unexpired(Tables(), id, now) && protected == leases[id].minimumCursor
                  else protected == MAX_SAFE_INTEGER
        decreases |todo|
      {
        var id :| id in todo;
        todo := todo - {id};
        if leases[id].expiresAt > now && (!any || leases[id].minimumCursor < protected) {
          assert Unexpired(Tables(), id, now);
          protected, any := leases[id].minimumCursor, true;
        }
      }
    }

    method Retain(options: Retention) returns (changes: int)
      modifies this`events
      ensures exists protected :: IsProtectedCursor(old(Tables()), options.now, protected)
                               && Tables() == EventStore.Retain(old(Tables()), options, protected)
      ensures changes == |old(events)| - |events|
    {
      var protected := ProtectedCursor(options.now);
      ghost var t := Tables();
      var countCutoff := if options.maxEvents <= 0 then headCursor else Max(0, headCursor - options.maxEvents);
      var ageTime := if options.maxAgeMs <= 0 then options.now + 1 else options.now - options.maxAgeMs;
      var kept := map c | c in events
        && !(c < protected && c !in pins && (c <= countCutoff || events[c].occurredAt < ageTime)) :: events[c];
      changes := |events| - |kept|;
      events := kept;
      assert Tables() == EventStore.Retain(t, options, protected);
    }

    /** SELECT ... WHERE state IN ('live','stale'), in some order. */
    method SelectRecoverable() returns (rows: seq<Uuid>)
      ensures RecoveryOrder(Tables(), rows) && |rows| <= |instances|
    {
      var todo := instances.Keys;
      rows := [];
      while todo != {}
        invariant todo <= instances.Keys
        invariant forall i :: i in rows <==> Recoverable(Tables(), i) && i !in todo
        invariant forall j, k :: 0 <= j < k < |rows| ==> rows[j] != rows[k]
        invariant |rows| + |todo| <= |instances|
        decreases |todo|
      {
        var i :| i in todo;
        todo := todo - {i};
        if instances[i].state == Live || instances[i].state == Stale { rows := rows + [i]; }
      }
    }

    /** `stamps` supplies the fresh event ids and times, one for each lost instance. */
    method RecoverAfterRestart(stamps: seq<Stamp>) returns (count: nat, ghost order: seq<Uuid>)
      requires |stamps| >= |instances|
      modifies this`headCursor, this`events, this`instances, this`processes
      ensures RecoveryOrder(old(Tables()), order) && count == |order| <= |stamps|
      ensures Tables() == Recover(old(Tables()), order, stamps[..count])
    {
      ghost var t := Tables();
      var rows := SelectRecoverable();
      assert forall k :: 0 <= k < |rows| ==> rows[k] in t.instances by {
        assert forall k :: 0 <= k < |rows| ==> rows[k] in rows;
      }
      order, count := rows, |rows|;
      assert rows[..|rows|] == rows && Recover(t, rows[..0], stamps[..0]) == t;
      hide *;
      for n := 0 to |rows|
        invariant forall i :: i in rows[..n] ==> i in t.instances
        invariant Tables() == Recover(t, rows[..n], stamps[..n])
      {
        RecoverExtends(t, rows, stamps, n);
        RecoverRow(rows[n], stamps[n]);
      }
    }

    method RecoverRow(i: Uuid, stamp: Stamp)
      requires i in instances
      modifies this`headCursor, this`events, this`instances, this`processes
      ensures Tables() == RecoverOne(old(Tables()), i, stamp)
    {
      var synthetic := SyntheticSequence(Tables(), i);
      var cursor := headCursor + 1;
      var p := instances[i].processId;
      headCursor := cursor;
      events := events[cursor := Publish(stamp.eventId, p, i, synthetic, stamp.occurredAt, INSTANCE_LOST)];
      instances := instances[i := instances[i].(state := Lost)];
      if p in processes { processes := processes[p := processes[p].(state := Lost, lastCursor := cursor)]; }
    }
  }

  lemma RecoverExtends(t: Tables, rows: seq<Uuid>, stamps: seq<Stamp>, n: nat)
    requires n < |rows| <= |stamps| && forall k :: 0 <= k < |rows| ==> rows[k] in t.instances
    ensures forall i :: i in rows[..n] || i in rows[..n + 1] ==> i in t.instances
    ensures Recover(t, rows[..n + 1], stamps[..n + 1])
        == RecoverOne(Recover(t, rows[..n], stamps[..n]), rows[n], stamps[n])
  {
    hide RecoverOne;
    assert rows[..n + 1][..n] == rows[..n] && stamps[..n + 1][..n] == stamps[..n];
  }
}
