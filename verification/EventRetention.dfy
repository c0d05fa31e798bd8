/** Which rows retention deletes, and what that does to replays. */
module EventRetention {
  import opened Wrappers
  import opened Events
  import opened EventStore
  import opened EventStoreProperties

  /** A row survives retention exactly when it is pinned, asked for by an unexpired lease, or
      both young enough and among the newest; without leases the one row at the largest safe
      cursor survives too. */
  lemma RetainKeepsExactly(t: Tables, options: Retention, protected: int, c: int)
    requires IsProtectedCursor(t, options.now, protected) && c in t.events
    ensures c in EventStore.Retain(t, options, protected).events <==>
              || c in t.pins
              || (exists id :: Unexpired(t, id, options.now) && t.leases[id].minimumCursor <= c)
              || (c > CountCutoff(t, options) && t.events[c].occurredAt >= AgeTime(options))
              || ((forall id :: !Unexpired(t, id, options.now)) && c >= MAX_SAFE_INTEGER)
  {
    if exists id :: Unexpired(t, id, options.now) {
      var id :| Unexpired(t, id, options.now) && protected == t.leases[id].minimumCursor;
      if protected <= c { assert Unexpired(t, id, options.now) && t.leases[id].minimumCursor <= c; }
    }
  }

  /** Among the newest: fewer than the limit were committed after it; young: not older than the limit,
      and without a limit on age, from the future. */
  predicate NewAndYoung(t: Tables, options: Retention, c: int)
    requires c in t.events
  {
    && t.headCursor - c < options.maxEvents
    && if options.maxAgeMs > 0 then options.now - t.events[c].occurredAt <= options.maxAgeMs
       else t.events[c].occurredAt > options.now
  }

  /** A lease that expires later asks for the row. */
  ghost predicate Asked(t: Tables, now: int, c: int) {
    exists id :: id in t.leases && t.leases[id].expiresAt > now && t.leases[id].minimumCursor <= c
  }

  /** In terms of the options, for the rows of a log. */
  lemma RetainKeepsNewest(w: World, options: Retention, protected: int, c: int)
    requires TableFromLog(w) && IsProtectedCursor(w.t, options.now, protected) && c in w.t.events
    ensures c in EventStore.Retain(w.t, options, protected).events <==>
              || c in w.t.pins
              || Asked(w.t, options.now, c)
              || NewAndYoung(w.t, options, c)
              || ((forall id :: id in w.t.leases ==> w.t.leases[id].expiresAt <= options.now) && c >= MAX_SAFE_INTEGER)
  {
    RetainKeepsExactly(w.t, options, protected, c);
    assert forall id :: Unexpired(w.t, id, options.now) <==> id in w.t.leases && w.t.leases[id].expiresAt > options.now;
  }

  lemma {:induction false} LeastIsLeast(events: map<int, Publish>, lo: int, hi: int)
    requires lo <= hi + 1
    ensures lo <= Least(events, lo, hi) <= hi + 1
    ensures forall c :: lo <= c < Least(events, lo, hi) ==> c !in events
    ensures Least(events, lo, hi) <= hi ==> Least(events, lo, hi) in events
    decreases hi - lo + 1
  {
    if lo <= hi { LeastIsLeast(events, lo + 1, hi); }
  }

  lemma {:induction false} OnlyLeast(events: map<int, Publish>, lo: int, hi: int, m: int)
    requires lo <= m <= hi + 1 && (m <= hi ==> m in events) && forall c :: lo <= c < m ==> c !in events
    ensures Least(events, lo, hi) == m
    decreases hi - lo + 1
  {
    if lo < m { OnlyLeast(events, lo + 1, hi, m); }
  }

  lemma MinimumStays(t: Tables, t': Tables)
    requires 0 <= t.headCursor == t'.headCursor - 1 && (forall c :: c in t.events ==> c <= t.headCursor)
    requires forall c :: c in t'.events <==> c in t.events || c == t'.headCursor
    ensures MinimumCursor(t') == MinimumCursor(t)
  {
    LeastIsLeast(t.events, 1, t.headCursor);
    OnlyLeast(t'.events, 1, t'.headCursor, MinimumCursor(t));
  }

  lemma LogCount(w: World)
    requires TableFromLog(w)
    ensures w.t.headCursor == |w.log|
  {
  }

  // ---------------------------------------------------------------- gaps

  /** Every successful replay of the whole log returns afterCursor + 1, ..., head. */
  ghost predicate GapFree(t: Tables) {
    forall afterCursor :: EventStore.Replay(t, afterCursor, []).Ok? ==>
      |EventStore.Replay(t, afterCursor, []).value| == t.headCursor - afterCursor
  }

  /** Nothing is missing from the least retained cursor on. */
  ghost predicate HoleFree(t: Tables) {
    forall c :: MinimumCursor(t) <= c <= t.headCursor ==> c in t.events
  }

  /** Retention deletes no row that is newer than a row it keeps. */
  ghost predicate OldestFirst(t: Tables, options: Retention, protected: int) {
    forall c, d :: c in t.events && d in t.events && c < d && Expendable(t, options, protected, d) ==>
      Expendable(t, options, protected, c)
  }

  /** In general a successful replay has no gap exactly when no row behind the cursor is missing. */
  lemma ReplayGapFree(w: World, afterCursor: int)
    requires TableFromLog(w) && EventStore.Replay(w.t, afterCursor, []).Ok?
    ensures |EventStore.Replay(w.t, afterCursor, []).value| == w.t.headCursor - afterCursor
       <==> (forall c :: afterCursor < c <= w.t.headCursor ==> c in w.t.events)
  {
    CountRows(w.t.events, afterCursor + 1, w.t.headCursor);
  }

  lemma {:induction false} CountRows(events: map<int, Publish>, lo: int, hi: int)
    requires lo <= hi + 1
    ensures |Rows(events, lo, hi, [])| <= hi - lo + 1
    ensures |Rows(events, lo, hi, [])| == hi - lo + 1 <==> (forall c :: lo <= c <= hi ==> c in events)
    decreases hi - lo + 1
  {
    if lo <= hi { CountRows(events, lo, hi - 1); }
  }

  lemma GapFreeIffHoleFree(w: World)
    requires TableFromLog(w) && |w.log| <= MAX_SAFE_INTEGER
    ensures GapFree(w.t) <==> HoleFree(w.t)
  {
    hide Rows, Least;
    var t := w.t;
    LeastIsLeast(t.events, 1, t.headCursor);
    forall afterCursor | EventStore.Replay(t, afterCursor, []).Ok?
      ensures |EventStore.Replay(t, afterCursor, []).value| == t.headCursor - afterCursor
         <==> (forall c :: afterCursor < c <= t.headCursor ==> c in t.events)
    {
      ReplayGapFree(w, afterCursor);
    }
    assert EventStore.Replay(t, MinimumCursor(t) - 1, []).Ok?;
  }

  /** On a table without holes, retention leaves every replay gap-free if and only if it deletes
      oldest events first. */
  lemma RetainKeepsGapFreeIff(w: World, options: Retention, protected: int)
    requires TableFromLog(w) && |w.log| <= MAX_SAFE_INTEGER && HoleFree(w.t)
    ensures GapFree(EventStore.Retain(w.t, options, protected)) <==> OldestFirst(w.t, options, protected)
  {
    hide Rows, Least;
    var t, t' := w.t, EventStore.Retain(w.t, options, protected);
    LeastIsLeast(t.events, 1, t.headCursor);
    LeastIsLeast(t'.events, 1, t.headCursor);
    GapFreeIffHoleFree(World(t', w.log));
    var m' := MinimumCursor(t');
    if HoleFree(t') {
      forall c, d | c in t.events && d in t.events && c < d && Expendable(t, options, protected, d)
        ensures Expendable(t, options, protected, c)
      {
        assert d !in t'.events;
        assert d < m';
        assert c !in t'.events;
      }
    }
    if OldestFirst(t, options, protected) {
      forall c | m' <= c <= t.headCursor ensures c in t'.events {
        assert m' in t'.events && c in t.events;
      }
    }
  }

  // ---------------------------------------------------------------- over runs

  /** Every retention of the run deletes oldest events first. */
  ghost predicate RetainsOldestFirst(ops: seq<Op>)
    requires IsRun(ops)
    decreases |ops|
  {
    ops == [] ||
    (&& RetainsOldestFirst(ops[..|ops| - 1])
     && var op := ops[|ops| - 1];
        op.Retain? ==> OldestFirst(Run(ops[..|ops| - 1]).t, op.options, op.protected))
  }

  /** Replays are gap-free in every state of the run. */
  ghost predicate GapFreeThroughout(ops: seq<Op>)
    requires IsRun(ops)
    decreases |ops|
  {
    GapFree(Run(ops).t) && (ops == [] || GapFreeThroughout(ops[..|ops| - 1]))
  }

  lemma AppendKeepsHoleFree(t: Tables, t': Tables)
    requires HoleFree(t) && 0 <= t.headCursor == t'.headCursor - 1 && (forall c :: c in t.events ==> c <= t.headCursor)
    requires forall c :: c in t'.events <==> c in t.events || c == t'.headCursor
    ensures HoleFree(t')
  {
    hide Least;
    MinimumStays(t, t');
  }

  lemma {:induction false} RecoverKeepsHoleFree(w: World, order: seq<Uuid>, stamps: seq<Stamp>)
    requires TableFromLog(w) && HoleFree(w.t) && |stamps| == |order| && forall i :: i in order ==> i in w.t.instances
    ensures var w' := World(EventStore.Recover(w.t, order, stamps), w.log + LostEvents(w.t, order, stamps));
            HoleFree(w'.t) && TableFromLog(w')
    decreases |order|
  {
    hide HoleFree, RecoverOne, LostEvent, TableFromLog;
    if order == [] {
      assert w.log + [] == w.log;
    } else {
      var n := |order| - 1;
      assert forall i :: i in order[..n] ==> i in order;
      RecoverKeepsHoleFree(w, order[..n], stamps[..n]);
      var t1, lost1 := EventStore.Recover(w.t, order[..n], stamps[..n]), LostEvents(w.t, order[..n], stamps[..n]);
      RecoverOneKeepsHoleFree(World(t1, w.log + lost1), order[n], stamps[n]);
      Associative(w.log, lost1, [LostEvent(t1, order[n], stamps[n])]);
    }
  }

  lemma RecoverOneKeepsHoleFree(w: World, i: Uuid, stamp: Stamp)
    requires TableFromLog(w) && HoleFree(w.t) && i in w.t.instances
    ensures HoleFree(RecoverOne(w.t, i, stamp))
        && TableFromLog(World(RecoverOne(w.t, i, stamp), w.log + [LostEvent(w.t, i, stamp)]))
  {
    hide HoleFree;
    AppendKeepsHoleFree(w.t, RecoverOne(w.t, i, stamp));
  }

  lemma StepKeepsHoleFree(w: World, op: Op)
    requires Consistent(w) && Possible(w, op) && HoleFree(w.t) && !op.Retain?
    ensures HoleFree(Step(w, op).t)
  {
    hide HoleFree;
    if op.Recover? {
      RecoverKeepsHoleFree(w, op.order, op.stamps);
    } else if op.Append? {
      if Step(w, op).t != w.t { AppendAddsHead(w, op); }
    } else {
      QuietKeepsEvents(w, op);
      SameHoles(w.t, Step(w, op).t);
    }
  }

  lemma AppendAddsHead(w: World, op: Op)
    requires Consistent(w) && Possible(w, op) && HoleFree(w.t) && op.Append? && Step(w, op).t != w.t
    ensures HoleFree(Step(w, op).t)
  {
    hide HoleFree, DenseSequences, UniqueRows;
    AppendKeepsHoleFree(w.t, Step(w, op).t);
  }

  lemma QuietKeepsEvents(w: World, op: Op)
    requires Possible(w, op) && !op.Retain? && !op.Append? && !op.Recover?
    ensures Step(w, op).t.events == w.t.events && Step(w, op).t.headCursor == w.t.headCursor
  {
  }

  lemma SameHoles(t: Tables, t': Tables)
    requires HoleFree(t) && t'.events == t.events && t'.headCursor == t.headCursor
    ensures HoleFree(t')
  {
  }

  /** Over every run: replays are gap-free in each of its states if and only if each of its
      retentions deletes oldest events first. */
  lemma {:induction false} GapFreeThroughoutIff(ops: seq<Op>)
    requires IsRun(ops) && |Run(ops).log| <= MAX_SAFE_INTEGER
    ensures GapFreeThroughout(ops) <==> RetainsOldestFirst(ops)
    decreases |ops|
  {
    if ops == [] {
      GapFreeIffHoleFree(START);
    } else {
      var n := |ops| - 1;
      LogGrows(Run(ops[..n]), ops[n]);
      GapFreeThroughoutIff(ops[..n]);
      ConsistentAlways(ops[..n]);
      ConsistentAlways(ops);
      hide Step, Possible;
      if GapFreeThroughout(ops[..n]) {
        GapFreeAfter(ops);
      }
    }
  }

  lemma LogGrows(w: World, op: Op)
    requires Possible(w, op)
    ensures |Step(w, op).log| >= |w.log| && Step(w, op).log[..|w.log|] == w.log
  {
  }

  lemma GapFreeAfter(ops: seq<Op>)
    requires IsRun(ops) && ops != [] && GapFree(Run(ops[..|ops| - 1]).t)
    requires Consistent(Run(ops[..|ops| - 1])) && Consistent(Run(ops)) && |Run(ops).log| <= MAX_SAFE_INTEGER
    requires |Run(ops[..|ops| - 1]).log| <= |Run(ops).log|
    ensures var op := ops[|ops| - 1];
            GapFree(Run(ops).t) <==> (op.Retain? ==> OldestFirst(Run(ops[..|ops| - 1]).t, op.options, op.protected))
  {
    hide GapFree, HoleFree, OldestFirst, Consistent;
    var w, op := Run(ops[..|ops| - 1]), ops[|ops| - 1];
    ConsistentTable(w);
    ConsistentTable(Run(ops));
    GapFreeIffHoleFree(w);
    GapFreeIffHoleFree(Run(ops));
    if op.Retain? { RetainKeepsGapFreeIff(w, op.options, op.protected); } else { StepKeepsHoleFree(w, op); }
  }

  /** Times that do not decrease in commit order, and no pins, are enough. */
  lemma OrderedTimesAreOldestFirst(w: World, options: Retention, protected: int)
    requires TableFromLog(w) && w.t.pins == {}
    requires forall i, j :: 0 <= i < j < |w.log| ==> w.log[i].occurredAt <= w.log[j].occurredAt
    ensures OldestFirst(w.t, options, protected)
  {
    forall c, d | c in w.t.events && d in w.t.events && c < d && Expendable(w.t, options, protected, d)
      ensures Expendable(w.t, options, protected, c)
    {
      assert w.log[c - 1] == w.t.events[c] && w.log[d - 1] == w.t.events[d];
    }
  }

  lemma StepKeepsNoPins(w: World, op: Op)
    requires Consistent(w) && Possible(w, op) && !op.Pin? && w.t.pins == {}
    ensures Step(w, op).t.pins == {}
  {
    if op.Recover? { RecoverRounds(w, op.order, op.stamps); }
  }

  lemma {:induction false} OrderedRunsRetainOldestFirst(ops: seq<Op>)
    requires IsRun(ops) && forall k :: 0 <= k < |ops| ==> !ops[k].Pin?
    requires forall i, j :: 0 <= i < j < |Run(ops).log| ==> Run(ops).log[i].occurredAt <= Run(ops).log[j].occurredAt
    ensures RetainsOldestFirst(ops) && Run(ops).t.pins == {}
    decreases |ops|
  {
    if ops != [] {
      hide Step, Possible, OldestFirst;
      var w, op := Run(ops[..|ops| - 1]), ops[|ops| - 1];
      LogGrows(w, op);
      assert forall k :: 0 <= k < |w.log| ==> Run(ops).log[k] == w.log[k];
      OrderedRunsRetainOldestFirst(ops[..|ops| - 1]);
      ConsistentAlways(ops[..|ops| - 1]);
      StepKeepsNoPins(w, op);
      if op.Retain? { OrderedTimesAreOldestFirst(w, op.options, op.protected); }
    }
  }

  // ---------------------------------------------------------------- runs that leave gaps

  /** A pin makes the guard of `replay` weaker than that: with event 1 pinned and event 2
      expired, a replay from the start succeeds and skips event 2. */
  lemma PinnedReplaySkips(p: Producer, session: Uuid, a: Publish, b: Publish, c: Publish, options: Retention)
    requires Owner(a) == Owner(b) == Owner(c) == p
    requires a.sequence == 1 && b.sequence == 2 && c.sequence == 3
    requires a.eventId != b.eventId && b.eventId != c.eventId && a.eventId != c.eventId
    requires options.maxEvents == 1 && options.now - options.maxAgeMs <= c.occurredAt && options.maxAgeMs > 0
    ensures var ops := [Register(p, session), Append(a, None), Append(b, None), Append(c, None), Pin(1),
                        Retain(options, MAX_SAFE_INTEGER)];
            IsRun(ops) && EventStore.Replay(Run(ops).t, 0, []) == Ok([Committed(1, a), Committed(3, c)])
  {
    var ops := [Register(p, session), Append(a, None), Append(b, None), Append(c, None), Pin(1),
                Retain(options, MAX_SAFE_INTEGER)];
    var ops4 := CommitThree(p, session, a, b, c);
    RunExtends(ops4, ops[4]);
    var ops5 := ops4 + [ops[4]];
    assert Run(ops5).t.pins == {1} && Run(ops5).t.events == map[1 := a, 2 := b, 3 := c];
    RunExtends(ops5, ops[5]);
    assert ops5 + [ops[5]] == ops;
    var t := Run(ops).t;
    assert t.events == map[1 := a, 3 := c] && t.headCursor == 3;
    RowsOneAndThree(t.events, a, c);
  }

  /** No pin is needed: an event that was committed late, with an old time, expires before its
      elder does. */
  lemma LateEventLeavesAGap(p: Producer, session: Uuid, a: Publish, b: Publish, c: Publish, options: Retention)
    requires Owner(a) == Owner(b) == Owner(c) == p
    requires a.sequence == 1 && b.sequence == 2 && c.sequence == 3
    requires a.eventId != b.eventId && b.eventId != c.eventId && a.eventId != c.eventId
    requires options.maxEvents >= 3 && options.maxAgeMs > 0
    requires b.occurredAt < options.now - options.maxAgeMs <= a.occurredAt <= c.occurredAt
    ensures var ops := [Register(p, session), Append(a, None), Append(b, None), Append(c, None),
                        Retain(options, MAX_SAFE_INTEGER)];
            IsRun(ops) && EventStore.Replay(Run(ops).t, 0, []) == Ok([Committed(1, a), Committed(3, c)])
  {
    var ops := [Register(p, session), Append(a, None), Append(b, None), Append(c, None),
                Retain(options, MAX_SAFE_INTEGER)];
    var ops4 := CommitThree(p, session, a, b, c);
    RunExtends(ops4, ops[4]);
    assert ops4 + [ops[4]] == ops;
    var t := Run(ops).t;
    assert t.events == map[1 := a, 3 := c] && t.headCursor == 3;
    RowsOneAndThree(t.events, a, c);
  }

  lemma RowsOneAndThree(events: map<int, Publish>, a: Publish, c: Publish)
    requires events == map[1 := a, 3 := c]
    ensures Rows(events, 1, 3, []) == [Committed(1, a), Committed(3, c)] && Least(events, 1, 3) == 1
  {
    assert Rows(events, 1, 0, []) == [];
    assert Rows(events, 1, 1, []) == [Committed(1, a)];
    assert Rows(events, 1, 2, []) == [Committed(1, a)];
  }

  lemma CommitThree(p: Producer, session: Uuid, a: Publish, b: Publish, c: Publish) returns (ops: seq<Op>)
    requires Owner(a) == Owner(b) == Owner(c) == p
    requires a.sequence == 1 && b.sequence == 2 && c.sequence == 3
    requires a.eventId != b.eventId && b.eventId != c.eventId && a.eventId != c.eventId
    ensures ops == [Register(p, session), Append(a, None), Append(b, None), Append(c, None)] && IsRun(ops)
    ensures var t := Run(ops).t;
            t.events == map[1 := a, 2 := b, 3 := c] && t.headCursor == 3 && t.pins == {} && t.leases == map[]
  {
    RunExtends([], Register(p, session));
    ops := [] + [Register(p, session)];
    var t := Run(ops).t;
    assert t.instances[p.instanceId] == Instance(p.processId, Live, 1) && t.events == map[];
    RunExtends(ops, Append(a, None));
    ops := ops + [Append(a, None)];
    t := Run(ops).t;
    assert t.instances[p.instanceId] == Instance(p.processId, Live, 2) && t.events == map[1 := a];
    RunExtends(ops, Append(b, None));
    ops := ops + [Append(b, None)];
    t := Run(ops).t;
    assert t.instances[p.instanceId] == Instance(p.processId, Live, 3) && t.events == map[1 := a, 2 := b];
    RunExtends(ops, Append(c, None));
    ops := ops + [Append(c, None)];
  }

  lemma RunExtends(ops: seq<Op>, op: Op)
    requires IsRun(ops) && Possible(Run(ops), op)
    ensures IsRun(ops + [op]) && Run(ops + [op]) == Step(Run(ops), op)
  {
    assert (ops + [op])[..|ops|] == ops;
  }
}
