/** The protocol package's simple stores (packages/protocol/src/index.ts), which serve as the
    specification of the durable ones. */
module ReferenceStores {
  import opened Wrappers
  import opened Events
  import opened EventStore

  // ---------------------------------------------------------------- ProducerLedger

  datatype Record = Record(canonical: Publish, cursor: int)

  datatype Ledger = Ledger(head: int, byTuple: map<(Producer, int), Record>, byEventId: map<Uuid, Record>,
                           next: map<Producer, int>)

  const EMPTY_LEDGER := Ledger(0, map[], map[], map[])

  function Tuple(v: Publish): (Producer, int) {
    (Owner(v), v.sequence)
  }

  function Expected(l: Ledger, producer: Producer): int {
    if producer in l.next then l.next[producer] else 1
  }

  function LedgerCommit(l: Ledger, v: Publish): (Ledger, Result<Receipt, Error>) {
    var expected := Expected(l, Owner(v));
    if Tuple(v) in l.byTuple || v.eventId in l.byEventId then
      var existing := if Tuple(v) in l.byTuple then l.byTuple[Tuple(v)] else l.byEventId[v.eventId];
      if existing.canonical != v then (l, Err(EventConflict))
      else (l, Ok(Receipt(existing.cursor, true, expected)))
    else if v.sequence != expected then (l, Err(ProcessSequenceGap(expected)))
    else if l.head >= MAX_SAFE_INTEGER then (l, Err(CursorExhausted))
    else
      var record := Record(v, l.head + 1);
      (Ledger(l.head + 1, l.byTuple[Tuple(v) := record], l.byEventId[v.eventId := record],
              l.next[Owner(v) := expected + 1]),
       Ok(Receipt(l.head + 1, false, expected + 1)))
  }

  class ProducerLedger {
    var head: int
    var byTuple: map<(Producer, int), Record>
    var byEventId: map<Uuid, Record>
    var next: map<Producer, int>

    function State(): Ledger
      reads this
    {
      Ledger(head, byTuple, byEventId, next)
    }

    constructor ()
      ensures State() == EMPTY_LEDGER
    {
      head, byTuple, byEventId, next := 0, map[], map[], map[];
    }

    method Commit(v: Publish) returns (receipt: Result<Receipt, Error>)
      modifies this
      ensures (State(), receipt) == LedgerCommit(old(State()), v)
    {
      var existing: Option<Record> := None;
      if Tuple(v) in byTuple { existing := Some(byTuple[Tuple(v)]); }
      else if v.eventId in byEventId { existing := Some(byEventId[v.eventId]); }
      var expected := if Owner(v) in next then next[Owner(v)] else 1;
      if existing.Some? {
        if existing.value.canonical != v { return Err(EventConflict); }
        return Ok(Receipt(existing.value.cursor, true, expected));
      }
      if v.sequence != expected { return Err(ProcessSequenceGap(expected)); }
      if head >= MAX_SAFE_INTEGER { return Err(CursorExhausted); }
      head := head + 1;
      byTuple := byTuple[Tuple(v) := Record(v, head)];
      byEventId := byEventId[v.eventId := Record(v, head)];
      next := next[Owner(v) := expected + 1];
      return Ok(Receipt(head, false, expected + 1));
    }
  }

  // ---------------------------------------------------------------- CursorStore

  datatype Cursors = Cursors(head: int, minimumCursor: int, events: seq<Committed>)

  const EMPTY_CURSORS := Cursors(0, 1, [])

  /** Keeps the events with a cursor above `cursor`. */
  function Above(events: seq<Committed>, cursor: int): seq<Committed> {
    if events == [] then []
    else
      var n := |events| - 1;
      if events[n].cursor > cursor then Above(events[..n], cursor) + [events[n]] else Above(events[..n], cursor)
  }

  function CursorAppend(s: Cursors, v: Publish): Result<Cursors, Error> {
    if s.head >= MAX_SAFE_INTEGER then Err(CursorExhausted)
    else Ok(Cursors(s.head + 1, s.minimumCursor, s.events + [Committed(s.head + 1, v)]))
  }

  function Filtered(events: seq<Committed>, filter: Committed -> bool): seq<Committed> {
    if events == [] then []
    else
      var n := |events| - 1;
      if filter(events[n]) then Filtered(events[..n], filter) + [events[n]] else Filtered(events[..n], filter)
  }

  /** An absent filter passes everything. */
  function CursorReplay(s: Cursors, afterCursor: int, filter: Committed -> bool): Result<seq<Committed>, Error> {
    if afterCursor > MAX_SAFE_INTEGER || afterCursor < 0 then Err(InvalidCursor)
    else if afterCursor > s.head then Err(CursorAhead)
    else if afterCursor < s.minimumCursor - 1 then Err(CursorExpired(s.minimumCursor))
    else Ok(Filtered(Above(s.events, afterCursor), filter))
  }

  function CursorExpire(s: Cursors, cursor: int): Result<Cursors, Error> {
    if cursor > MAX_SAFE_INTEGER || cursor < 0 || cursor > s.head then Err(InvalidCursor)
    else Ok(Cursors(s.head, Max(s.minimumCursor, cursor + 1), Above(s.events, cursor)))
  }

  class CursorStore {
    var head: int
    var minimumCursor: int
    var events: seq<Committed>

    function State(): Cursors
      reads this
    {
      Cursors(head, minimumCursor, events)
    }

    constructor ()
      ensures State() == EMPTY_CURSORS
    {
      head, minimumCursor, events := 0, 1, [];
    }

    method Append(v: Publish) returns (committed: Result<Committed, Error>)
      modifies this`head, this`events
      ensures match CursorAppend(old(State()), v)
              case Ok(s) => State() == s && committed == Ok(Committed(s.head, v))
              case Err(e) => State() == old(State()) && committed == Err(e)
    {
      if head >= MAX_SAFE_INTEGER { return Err(CursorExhausted); }
      head := head + 1;
      events := events + [Committed(head, v)];
      return Ok(Committed(head, v));
    }

    method Replay(afterCursor: int, filter: Committed -> bool) returns (rows: Result<seq<Committed>, Error>)
      ensures rows == CursorReplay(State(), afterCursor, filter)
    {
      if afterCursor > MAX_SAFE_INTEGER || afterCursor < 0 { return Err(InvalidCursor); }
      if afterCursor > head { return Err(CursorAhead); }
      if afterCursor < minimumCursor - 1 { return Err(CursorExpired(minimumCursor)); }
      var found: seq<Committed> := [];
      assert events[..0] == [] && Filtered(Above(events[..0], afterCursor), filter) == [];
      for k := 0 to |events|
        invariant found == Filtered(Above(events[..k], afterCursor), filter)
      {
        assert events[..k + 1][..k] == events[..k];
        if events[k].cursor > afterCursor {
          assert (Above(events[..k], afterCursor) + [events[k]])[..|Above(events[..k], afterCursor)|]
            == Above(events[..k], afterCursor);
          if filter(events[k]) { found := found + [events[k]]; }
        }
      }
      assert events[..|events|] == events;
      return Ok(found);
    }

    method ExpireThrough(cursor: int) returns (done: Result<(), Error>)
      modifies this`events, this`minimumCursor
      ensures match CursorExpire(old(State()), cursor)
              case Ok(s) => State() == s && done == Ok(())
              case Err(e) => State() == old(State()) && done == Err(e)
    {
      if cursor > MAX_SAFE_INTEGER || cursor < 0 || cursor > head { return Err(InvalidCursor); }
      events := Above(events, cursor);
      minimumCursor := Max(minimumCursor, cursor + 1);
      return Ok(());
    }
  }
}
