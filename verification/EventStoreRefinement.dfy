/** The durable store refines the protocol package's reference stores. */
module EventStoreRefinement {
  import opened Wrappers
  import opened Events
  import opened EventStore
  import opened ReferenceStores
  import opened EventStoreProperties
  import opened EventRetention

  // ---------------------------------------------------------------- ProducerLedger

  /** The ledger knows exactly the rows of the table, by both of its keys. */
  ghost predicate SameRecords(t: Tables, l: Ledger) {
    && RowsKnown(t.events, l)
    && (forall k :: k in l.byTuple ==> IsRow(t.events, l.byTuple[k]) && Tuple(l.byTuple[k].canonical) == k)
    && (forall id :: id in l.byEventId ==> IsRow(t.events, l.byEventId[id]) && l.byEventId[id].canonical.eventId == id)
  }

  predicate IsRow(events: map<int, Publish>, record: Record) {
    record.cursor in events && events[record.cursor] == record.canonical
  }

  ghost predicate RowsKnown(events: map<int, Publish>, l: Ledger) {
    forall c :: c in events ==>
      && Tuple(events[c]) in l.byTuple && l.byTuple[Tuple(events[c])] == Record(events[c], c)
      && events[c].eventId in l.byEventId && l.byEventId[events[c].eventId] == Record(events[c], c)
  }

  ghost predicate SameNumbering(t: Tables, l: Ledger) {
    && t.headCursor == l.head
    && (forall i :: i in t.instances ==>
        Expected(l, Producer(t.instances[i].processId, i)) == t.instances[i].nextSequence)
    && (forall p :: p in l.next ==> p.instanceId in t.instances && t.instances[p.instanceId].processId == p.processId)
  }

  ghost predicate Coupled(w: World, l: Ledger) {
    Consistent(w) && SameRecords(w.t, l) && SameNumbering(w.t, l)
  }

  ghost predicate RowsRegistered(t: Tables) {
    forall c :: c in t.events ==> Registered(t, t.events[c])
  }

  lemma ConsistentRowsRegistered(w: World)
    requires Consistent(w)
    ensures RowsRegistered(w.t) && UniqueRows(w.t) && TableFromLog(w)
    ensures forall c :: c in w.t.events ==> c <= w.t.headCursor
  {
    forall c | c in w.t.events ensures Registered(w.t, w.t.events[c]) {
      assert Registered(w.t, w.log[c - 1]);
    }
  }

  /** Whichever row the lookup returns, the store answers what the ledger answers. */
  lemma AppendAnswersAsLedger(t: Tables, l: Ledger, v: Publish, found: Option<int>)
    requires UniqueRows(t) && RowsRegistered(t) && SameRecords(t, l) && SameNumbering(t, l)
    requires Lookup(t, v, found) && Registered(t, v)
    ensures EventStore.Append(t, v, found).1 == LedgerCommit(l, v).1
    ensures found.None? <==> Tuple(v) !in l.byTuple && v.eventId !in l.byEventId
  {
    assert Owner(v) == Producer(t.instances[v.instanceId].processId, v.instanceId);
    if found.None? {
      assert Tuple(v) in l.byTuple ==> Matches(t.events[l.byTuple[Tuple(v)].cursor], v);
      assert v.eventId in l.byEventId ==> Matches(t.events[l.byEventId[v.eventId].cursor], v);
    } else {
      var row := t.events[found.value];
      if row.instanceId == v.instanceId && row.sequence == v.sequence {
        assert Registered(t, row);
        assert Tuple(row) == Tuple(v);
      } else {
        assert row.eventId == v.eventId && row != v;
        if Tuple(v) in l.byTuple {
          var other := l.byTuple[Tuple(v)];
          assert other.cursor == found.value || !Matches(t.events[other.cursor], row);
        }
      }
    }
  }

  lemma CommitKeepsRecords(t: Tables, l: Ledger, v: Publish)
    requires SameRecords(t, l) && SameNumbering(t, l) && Registered(t, v)
    requires Tuple(v) !in l.byTuple && v.eventId !in l.byEventId
    requires v.sequence == t.instances[v.instanceId].nextSequence && t.headCursor < MAX_SAFE_INTEGER
    requires forall c :: c in t.events ==> c <= t.headCursor
    ensures SameRecords(Commit(t, v), LedgerCommit(l, v).0) && SameNumbering(Commit(t, v), LedgerCommit(l, v).0)
  {
    LedgerCommitIs(t, l, v);
    NumberingAfterCommit(t, l, v);
    RecordsAfterCommit(t, Commit(t, v), l, LedgerCommit(l, v).0, v);
  }

  lemma RecordsAfterCommit(t: Tables, t': Tables, l: Ledger, l': Ledger, v: Publish)
    requires SameRecords(t, l) && Tuple(v) !in l.byTuple && v.eventId !in l.byEventId
    requires forall c :: c in t.events ==> c <= t.headCursor
    requires t'.events == t.events[t.headCursor + 1 := v]
    requires var record := Record(v, t.headCursor + 1);
             l'.byTuple == l.byTuple[Tuple(v) := record] && l'.byEventId == l.byEventId[v.eventId := record]
    ensures SameRecords(t', l')
  {
    assert RowsKnown(t'.events, l') by {
      forall c | c in t.events
        ensures c != t.headCursor + 1 && Tuple(t.events[c]) != Tuple(v) && t.events[c].eventId != v.eventId
      {
      }
    }
    hide RowsKnown, Tuple;
  }

  lemma LedgerCommitIs(t: Tables, l: Ledger, v: Publish)
    requires SameNumbering(t, l) && Registered(t, v) && Tuple(v) !in l.byTuple && v.eventId !in l.byEventId
    requires v.sequence == t.instances[v.instanceId].nextSequence && t.headCursor < MAX_SAFE_INTEGER
    ensures var record := Record(v, t.headCursor + 1);
            LedgerCommit(l, v).0 == Ledger(l.head + 1, l.byTuple[Tuple(v) := record], l.byEventId[v.eventId := record],
                                           l.next[Owner(v) := v.sequence + 1])
  {
    assert Owner(v) == Producer(t.instances[v.instanceId].processId, v.instanceId);
  }

  lemma NumberingAfterCommit(t: Tables, l: Ledger, v: Publish)
    requires SameNumbering(t, l) && Registered(t, v)
    requires Tuple(v) !in l.byTuple && v.eventId !in l.byEventId
    requires v.sequence == t.instances[v.instanceId].nextSequence && t.headCursor < MAX_SAFE_INTEGER
    ensures SameNumbering(Commit(t, v), LedgerCommit(l, v).0)
  {
    assert Owner(v) == Producer(t.instances[v.instanceId].processId, v.instanceId);
  }

  lemma AppendKeepsCoupled(w: World, l: Ledger, v: Publish, found: Option<int>)
    requires Coupled(w, l) && Lookup(w.t, v, found) && Registered(w.t, v)
    ensures EventStore.Append(w.t, v, found).1 == LedgerCommit(l, v).1
    ensures Coupled(Step(w, Append(v, found)), LedgerCommit(l, v).0)
  {
    hide Consistent, SameRecords, SameNumbering, UniqueRows, RowsRegistered;
    StepKeepsConsistent(w, Append(v, found));
    ConsistentRowsRegistered(w);
    AppendAnswersAsLedger(w.t, l, v, found);
    var answer := LedgerCommit(l, v).1;
    if answer.Ok? && !answer.value.duplicate {
      CommitKeepsRecords(w.t, l, v);
    } else {
      assert Step(w, Append(v, found)).t == w.t && LedgerCommit(l, v).0 == l;
    }
  }

  lemma RegisterKeepsNumbering(t: Tables, l: Ledger, producer: Producer, sessionId: Uuid)
    requires SameNumbering(t, l)
    ensures SameNumbering(EventStore.Register(t, producer, sessionId), l)
  {
    var t' := EventStore.Register(t, producer, sessionId);
    forall i | i in t'.instances
      ensures Expected(l, Producer(t'.instances[i].processId, i)) == t'.instances[i].nextSequence
    {
      if i !in t.instances { assert Producer(t'.instances[i].processId, i) !in l.next; }
    }
  }

  lemma QuietKeepsRecords(w: World, l: Ledger, op: Op)
    requires SameRecords(w.t, l) && SameNumbering(w.t, l) && ProcessRows(w)
    requires Possible(w, op) && !op.Register? && !op.Append? && !op.Retain? && !op.Recover?
    ensures SameRecords(Step(w, op).t, l) && SameNumbering(Step(w, op).t, l)
  {
    QuietStep(w, op);
    assert Step(w, op).t.events == w.t.events;
  }

  lemma OtherKeepsCoupled(w: World, l: Ledger, op: Op)
    requires Coupled(w, l) && Possible(w, op) && !op.Retain? && !op.Recover?
    requires op.Append? ==> !Registered(w.t, op.event)
    ensures Coupled(Step(w, op), l)
  {
    StepKeepsConsistent(w, op);
    if op.Register? {
      RegisterKeepsNumbering(w.t, l, op.producer, op.sessionId);
    } else if !op.Append? {
      QuietKeepsRecords(w, l, op);
    }
  }

  /** A store and a ledger run side by side: the ledger sees the events of registered producers. */
  datatype Twin = Twin(w: World, l: Ledger, storeAnswers: seq<Result<Receipt, Error>>,
    ledgerAnswers: seq<Result<Receipt, Error>>)

  ghost function TwinRun(ops: seq<Op>): Twin
    requires IsRun(ops)
    ensures TwinRun(ops).w == Run(ops)
    decreases |ops|
  {
    if ops == [] then Twin(START, EMPTY_LEDGER, [], [])
    else
      var before, op := TwinRun(ops[..|ops| - 1]), ops[|ops| - 1];
      var after := Step(before.w, op);
      if op.Append? && Registered(before.w.t, op.event) then
        Twin(after, LedgerCommit(before.l, op.event).0,
             before.storeAnswers + [EventStore.Append(before.w.t, op.event, op.found).1],
             before.ledgerAnswers + [LedgerCommit(before.l, op.event).1])
      else before.(w := after)
  }

  /** On every history without retention and recovery, the store gives registered producers the
      cursors, duplicate flags, expected sequences and errors that the ledger gives. */
  lemma {:induction false} RefinesProducerLedger(ops: seq<Op>)
    requires IsRun(ops)
    requires forall k :: 0 <= k < |ops| ==> !ops[k].Retain? && !ops[k].Recover?
    ensures TwinRun(ops).storeAnswers == TwinRun(ops).ledgerAnswers
    ensures Coupled(TwinRun(ops).w, TwinRun(ops).l)
    decreases |ops|
  {
    if ops != [] {
      var before, op := TwinRun(ops[..|ops| - 1]), ops[|ops| - 1];
      RefinesProducerLedger(ops[..|ops| - 1]);
      if op.Append? && Registered(before.w.t, op.event) {
        AppendKeepsCoupled(before.w, before.l, op.event, op.found);
      } else {
        OtherKeepsCoupled(before.w, before.l, op);
      }
    }
  }

  // ---------------------------------------------------------------- retention and replay

  lemma {:induction false} RowsAgree(a: map<int, Publish>, lo: int, b: map<int, Publish>, low: int, hi: int,
      processIds: seq<Uuid>)
    requires forall c :: c <= hi ==> ((lo <= c && c in a) <==> (low <= c && c in b))
    requires forall c :: lo <= c <= hi && c in a ==> a[c] == b[c]
    ensures Rows(a, lo, hi, processIds) == Rows(b, low, hi, processIds)
    decreases Max(hi - lo + 1, hi - low + 1)
  {
    if hi >= lo || hi >= low {
      RowsAgree(a, lo, b, low, hi - 1, processIds);
    }
  }

  lemma {:induction false} AboveRows(events: map<int, Publish>, lo: int, hi: int, k: int)
    requires lo <= k + 1
    ensures Above(Rows(events, lo, hi, []), k) == Rows(events, k + 1, hi, [])
    ensures forall j :: 0 <= j < |Rows(events, lo, hi, [])| ==> Rows(events, lo, hi, [])[j].cursor <= hi
    decreases hi - lo + 1
  {
    if hi >= lo {
      AboveRows(events, lo, hi - 1, k);
      var rows := Rows(events, lo, hi, []);
      if hi in events { assert rows[..|rows| - 1] == Rows(events, lo, hi - 1, []); }
    }
  }

  /** A table without holes, seen as a CursorStore. */
  ghost predicate Mirrors(w: World, s: Cursors) {
    && s.head == w.t.headCursor
    && s.minimumCursor == MinimumCursor(w.t)
    && s.events == Rows(w.t.events, 1, w.t.headCursor, [])
    && HoleFree(w.t)
  }

  /** The steps of a CursorStore that mirrors a table: it saw the same commits, in order. */
  ghost predicate Tracks(w: World, cops: seq<CursorOp>) {
    CursorRun(cops).Ok? && Mirrors(w, CursorRun(cops).value) && Added(cops) == w.log
  }

  /** Retention that deletes oldest events first is `expireThrough` of some cursor. */
  lemma RetainIsExpire(w: World, s: Cursors, options: Retention, protected: int) returns (k: int)
    requires TableFromLog(w) && Mirrors(w, s) && |w.log| <= MAX_SAFE_INTEGER
    requires OldestFirst(w.t, options, protected) && IsProtectedCursor(w.t, options.now, protected)
    ensures CursorExpire(s, k).Ok?
    ensures Mirrors(Step(w, Retain(options, protected)), CursorExpire(s, k).value)
  {
    hide Rows, Above;
    var t, t' := w.t, EventStore.Retain(w.t, options, protected);
    var head := t.headCursor;
    LeastIsLeast(t.events, 1, head);
    LeastIsLeast(t'.events, 1, head);
    k := MinimumCursor(t') - 1;
    assert k + 1 >= MinimumCursor(t) by {
      if k + 1 <= head { assert k + 1 in t.events; }
    }
    forall c | k < c <= head ensures c in t'.events {
      assert c in t.events && k + 1 in t'.events;
    }
    AboveRows(t.events, 1, head, k);
    RowsAgree(t'.events, 1, t.events, k + 1, head, []);
  }

  /** A commit is an append. */
  lemma CommitIsAppend(w: World, s: Cursors, t': Tables, v: Publish)
    requires TableFromLog(w) && Mirrors(w, s) && w.t.headCursor < MAX_SAFE_INTEGER
    requires t'.headCursor == w.t.headCursor + 1 && t'.events == w.t.events[t'.headCursor := v]
    ensures CursorAppend(s, v).Ok? && Mirrors(World(t', w.log + [v]), CursorAppend(s, v).value)
  {
    hide Least;
    var head := w.t.headCursor;
    MinimumStays(w.t, t');
    RowsAgree(w.t.events, 1, t'.events, 1, head, []);
    assert head + 1 in t'.events;
  }

  datatype CursorOp = Add(event: Publish) | Expire(through: int)

  function CursorRun(ops: seq<CursorOp>): Result<Cursors, Error> {
    if ops == [] then Ok(EMPTY_CURSORS)
    else
      var before := CursorRun(ops[..|ops| - 1]);
      if before.Err? then before
      else match ops[|ops| - 1]
           case Add(v) => CursorAppend(before.value, v)
           case Expire(k) => CursorExpire(before.value, k)
  }

  /** The events that were added, in order. */
  function Added(cops: seq<CursorOp>): seq<Publish> {
    if cops == [] then []
    else if cops[|cops| - 1].Add? then Added(cops[..|cops| - 1]) + [cops[|cops| - 1].event]
    else Added(cops[..|cops| - 1])
  }

  lemma CursorRunExtends(cops: seq<CursorOp>, op: CursorOp)
    ensures CursorRun(cops).Ok? ==>
              CursorRun(cops + [op]) == if op.Add? then CursorAppend(CursorRun(cops).value, op.event)
                                        else CursorExpire(CursorRun(cops).value, op.through)
    ensures Added(cops + [op]) == if op.Add? then Added(cops) + [op.event] else Added(cops)
  {
    assert (cops + [op])[..|cops|] == cops;
  }

  lemma {:induction false} RecoverIsAppends(w: World, cops: seq<CursorOp>, order: seq<Uuid>, stamps: seq<Stamp>)
    returns (cops': seq<CursorOp>)
    requires TableFromLog(w) && Tracks(w, cops)
    requires |stamps| == |order| && forall i :: i in order ==> i in w.t.instances
    requires w.t.headCursor == |w.log| && |w.log| + |order| <= MAX_SAFE_INTEGER
    ensures var w' := World(EventStore.Recover(w.t, order, stamps), w.log + LostEvents(w.t, order, stamps));
            TableFromLog(w') && |w'.log| == |w.log| + |order| && Tracks(w', cops')
    decreases |order|
  {
    hide TableFromLog, Tracks, RecoverOne, LostEvent;
    if order == [] {
      assert w.log + [] == w.log;
      cops' := cops;
    } else {
      var n := |order| - 1;
      assert forall i :: i in order[..n] ==> i in order;
      var before := RecoverIsAppends(w, cops, order[..n], stamps[..n]);
      var t1, lost1 := EventStore.Recover(w.t, order[..n], stamps[..n]), LostEvents(w.t, order[..n], stamps[..n]);
      LogCount(World(t1, w.log + lost1));
      cops' := RecoverOneIsAppend(World(t1, w.log + lost1), before, order[n], stamps[n]);
      Associative(w.log, lost1, [LostEvent(t1, order[n], stamps[n])]);
    }
  }

  lemma RecoverOneIsAppend(w: World, cops: seq<CursorOp>, i: Uuid, stamp: Stamp) returns (cops': seq<CursorOp>)
    requires TableFromLog(w) && Tracks(w, cops)
    requires i in w.t.instances && w.t.headCursor < MAX_SAFE_INTEGER
    ensures var w' := World(RecoverOne(w.t, i, stamp), w.log + [LostEvent(w.t, i, stamp)]);
            TableFromLog(w') && Tracks(w', cops')
  {
    var v := LostEvent(w.t, i, stamp);
    CommitIsAppend(w, CursorRun(cops).value, RecoverOne(w.t, i, stamp), v);
    CursorRunExtends(cops, Add(v));
    return cops + [Add(v)];
  }

  lemma StepIsCursorSteps(w: World, cops: seq<CursorOp>, op: Op) returns (cops': seq<CursorOp>)
    requires Consistent(w) && Tracks(w, cops)
    requires Possible(w, op) && |Step(w, op).log| <= MAX_SAFE_INTEGER
    requires op.Retain? ==> OldestFirst(w.t, op.options, op.protected)
    ensures Tracks(Step(w, op), cops')
  {
    hide Consistent, Mirrors, CursorRun, CursorAppend, CursorExpire, OldestFirst;
    ConsistentRowsRegistered(w);
    if op.Append? {
      cops' := AppendIsCursorStep(w, cops, op.event, op.found);
    } else if op.Retain? {
      var k := RetainIsExpire(w, CursorRun(cops).value, op.options, op.protected);
      cops' := cops + [Expire(k)];
      CursorRunExtends(cops, Expire(k));
    } else if op.Recover? {
      LostCount(w.t, op.order, op.stamps);
      cops' := RecoverIsAppends(w, cops, op.order, op.stamps);
    } else {
      SameRowsMirror(w, Step(w, op), CursorRun(cops).value);
      return cops;
    }
  }

  lemma SameRowsMirror(w: World, w': World, s: Cursors)
    requires Mirrors(w, s) && w'.t.events == w.t.events && w'.t.headCursor == w.t.headCursor
    ensures Mirrors(w', s)
  {
  }

  lemma AppendIsCursorStep(w: World, cops: seq<CursorOp>, v: Publish, found: Option<int>) returns (cops': seq<CursorOp>)
    requires TableFromLog(w) && Tracks(w, cops) && Possible(w, Append(v, found))
    ensures Tracks(Step(w, Append(v, found)), cops')
  {
    var answer := EventStore.Append(w.t, v, found).1;
    if answer.Ok? && !answer.value.duplicate {
      CommitIsAppend(w, CursorRun(cops).value, Commit(w.t, v), v);
      CursorRunExtends(cops, Add(v));
      cops' := cops + [Add(v)];
    } else {
      cops' := cops;
    }
  }

  lemma {:induction false} LostCount(t: Tables, order: seq<Uuid>, stamps: seq<Stamp>)
    requires |stamps| == |order| && forall i :: i in order ==> i in t.instances
    ensures |LostEvents(t, order, stamps)| == |order|
    decreases |order|
  {
    if order != [] {
      var n := |order| - 1;
      assert forall i :: i in order[..n] ==> i in order;
      LostCount(t, order[..n], stamps[..n]);
    }
  }

  /** In every run whose retentions delete oldest events first, the event table is a CursorStore
      that saw exactly the same commits, in order, and some expirations. */
  lemma {:induction false} RefinesCursorStore(ops: seq<Op>) returns (cops: seq<CursorOp>)
    requires IsRun(ops) && |Run(ops).log| <= MAX_SAFE_INTEGER && RetainsOldestFirst(ops)
    ensures CursorRun(cops).Ok? && Mirrors(Run(ops), CursorRun(cops).value) && Added(cops) == Run(ops).log
    decreases |ops|
  {
    if ops == [] { return []; }
    hide Step, Possible, OldestFirst;
    var w, op := Run(ops[..|ops| - 1]), ops[|ops| - 1];
    LogGrows(w, op);
    cops := RefinesCursorStore(ops[..|ops| - 1]);
    ConsistentAlways(ops[..|ops| - 1]);
    cops := StepIsCursorSteps(w, cops, op);
  }

  lemma {:induction false} FilteredRows(events: map<int, Publish>, lo: int, hi: int, processIds: seq<Uuid>)
    ensures Rows(events, lo, hi, processIds)
        == Filtered(Rows(events, lo, hi, []), (row: Committed) => Passes(row.event, processIds))
    decreases hi - lo + 1
  {
    if hi >= lo {
      FilteredRows(events, lo, hi - 1, processIds);
      var rows := Rows(events, lo, hi, []);
      if hi in events { assert rows[..|rows| - 1] == Rows(events, lo, hi - 1, []); }
    }
  }

  /** So a replay answers what the CursorStore answers under the same filter: the same error, or
      rows; without a filter, the committed events afterCursor + 1, ..., head without a gap. */
  lemma ReplayAnswersAsCursorStore(w: World, s: Cursors, afterCursor: int, processIds: seq<Uuid>)
    requires TableFromLog(w) && Mirrors(w, s)
    ensures EventStore.Replay(w.t, afterCursor, processIds)
        == CursorReplay(s, afterCursor, (row: Committed) => Passes(row.event, processIds))
    ensures EventStore.Replay(w.t, afterCursor, []).Ok? ==>
        IsTail(w.log, afterCursor, EventStore.Replay(w.t, afterCursor, []).value)
  {
    hide Rows, Above, MinimumCursor, Filtered;
    if 0 <= afterCursor {
      FilteredRows(w.t.events, afterCursor + 1, w.t.headCursor, processIds);
      AboveRows(w.t.events, 1, w.t.headCursor, afterCursor);
      if MinimumCursor(w.t) - 1 <= afterCursor <= w.t.headCursor {
        DenseRows(w, afterCursor + 1, w.t.headCursor);
      }
    }
  }

  /** The committed events afterCursor + 1, ..., head, each under its own cursor. */
  ghost predicate IsTail(log: seq<Publish>, afterCursor: int, rows: seq<Committed>) {
    && 0 <= afterCursor && afterCursor + |rows| == |log|
    && forall k :: 0 <= k < |rows| ==> rows[k] == Committed(afterCursor + 1 + k, log[afterCursor + k])
  }

  lemma {:induction false} DenseRows(w: World, lo: int, hi: int)
    requires TableFromLog(w) && 1 <= lo <= hi + 1 && hi <= w.t.headCursor
    requires forall c :: lo <= c <= hi ==> c in w.t.events
    ensures |Rows(w.t.events, lo, hi, [])| == hi - lo + 1
    ensures forall k :: 0 <= k < hi - lo + 1 ==> Rows(w.t.events, lo, hi, [])[k] == Committed(lo + k, w.log[lo + k - 1])
    decreases hi - lo + 1
  {
    if lo <= hi { DenseRows(w, lo, hi - 1); }
  }
}
