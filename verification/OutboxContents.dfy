/** What the outbox carries through degradation: the gap, the latest snapshot, and all that was
    observed since. */
module OutboxContents {
  import opened Wrappers
  import opened Events
  import opened Outbox
  import opened OutboxProperties
  import opened OutboxConditions

  /** While degraded, only mandatory events and snapshots are taken. */
  predicate Ignored(box: Box, item: Pending) {
    box.degraded && !item.mandatory && !item.snapshot
  }

  predicate HasRoom(limits: Limits, box: Box, snapshot: Event) {
    Fits(limits, box.retained, [GapItem(box.nextSequence), SnapshotItem(snapshot)])
  }

  /** What is left when a box degrades: the gap, and behind it the latest snapshot if both fit. */
  function Remains(limits: Limits, box: Box, snapshot: Option<Event>): seq<Pending> {
    var gap := GapItem(box.nextSequence);
    if snapshot.Some? && HasRoom(limits, box, snapshot.value) then [gap, SnapshotItem(snapshot.value)] else [gap]
  }

  /** The latest snapshot, the observed one included. */
  function Latest(items: seq<Pending>, item: Pending): Option<Event> {
    if item.snapshot then Some(item.event) else LastSnapshot(items)
  }

  /** The log of what was taken since the last assignment or degradation, with nothing coalesced
      and no snapshot replaced. */
  function Log(producer: Producer, limits: Limits, ops: seq<Op>): seq<Pending>
    requires IsRun(producer, limits, ops)
  {
    if ops == [] then []
    else
      var box, log := Run(producer, limits, Init(ops)).box, Log(producer, limits, Init(ops));
      match Last(ops)
      case Observe(item) =>
        if Ignored(box, item) then log
        else if Degrades(limits, box, Last(ops)) then Remains(limits, box, Latest(log, item))
        else log + [item]
      case Assign(_) => []
      case _ => log
  }

  /** The logs that were assigned. */
  function Assigned(producer: Producer, limits: Limits, ops: seq<Op>): seq<Pending>
    requires IsRun(producer, limits, ops)
  {
    if ops == [] then []
    else
      var before := Assigned(producer, limits, Init(ops));
      if Last(ops).Assign? then before + Log(producer, limits, Init(ops)) else before
  }

  /** No snapshot is observed under a coalesce key, as the bridge observes none. */
  predicate UnkeyedSnapshots(ops: seq<Op>) {
    forall k :: 0 <= k < |ops| && ops[k].Observe? ==> !(ops[k].item.snapshot && Keyed(ops[k].item))
  }

  /** The items say what the log says. */
  ghost predicate Carries(items: seq<Pending>, log: seq<Pending>) {
    && (forall key :: key != "" ==> KeyText(items, key) == KeyText(log, key))
    && WholeEvents(items) == WholeEvents(log)
    && LastSnapshot(items) == LastSnapshot(log)
  }

  ghost predicate Ordered(pending: seq<Pending>) {
    KeysApartFromSnapshots(pending) && Tidy(pending) && SnapshotCount(pending) <= 1
  }

  lemma {:induction false} DropIsShorter(items: seq<Pending>)
    ensures |DropSnapshots(items)| <= |items|
  {
    if items != [] { DropIsShorter(Init(items)); }
  }

  lemma {:induction false} Commas<T>(items: seq<T>, size: T -> nat)
    requires forall x :: size(x) == 0
    ensures ListBytes(items, size) <= |items|
  {
    if items != [] { Commas(Init(items), size); }
  }

  /** What an observation does to the pending items while there is room. */
  lemma UnboundedKeeps(pending: seq<Pending>, item: Pending, key: string)
    requires Ordered(pending) && !(item.snapshot && Keyed(item)) && key != ""
    ensures var pending' := Unbounded(pending, item);
            && KeyText(pending', key) == KeyText(pending, key) + KeyText([item], key)
            && WholeEvents(pending') == WholeEvents(pending) + WholeEvents([item])
            && LastSnapshot(pending') == Latest(pending, item) && Ordered(pending')
  {
    var roomy := Limits(|pending| + 1, |pending| + 29, (v: Publish) => 0, (p: Pending) => 0);
    RoomyTakes(roomy, pending, item);
    hide Outbox.Observe, Unbounded, KeyText, WholeEvents, LastSnapshot, SnapshotCount, Tidy;
    ObserveKeepsKey(roomy, pending, EMPTY_BOX.(pending := pending), item, key);
  }

  lemma RoomyTakes(roomy: Limits, pending: seq<Pending>, item: Pending)
    requires roomy.maxItems == |pending| + 1 && roomy.maxBytes == |pending| + 29
        && forall p :: roomy.pendingBytes(p) == 0
    ensures var after := Outbox.Observe(roomy, EMPTY_BOX.(pending := pending), item);
            after.pending == Unbounded(pending, item) && !after.degraded
  {
    hide ListBytes, DropSnapshots, Merge;
    DropIsShorter(pending);
    Commas(Unbounded(pending, item), roomy.pendingBytes);
    var none: seq<Publish> := [];
    NoPublished(roomy);
  }

  lemma NoPublished(limits: Limits)
    ensures ListBytes([], limits.publishedBytes) == 0
  {
  }

  /** One observation: ignored, taken, or the cause of a degradation. */
  lemma ObserveIs(limits: Limits, box: Box, item: Pending)
    requires Ordered(box.pending) && !(item.snapshot && Keyed(item))
    ensures var after := Outbox.Observe(limits, box, item);
            if Ignored(box, item) then after == box
            else if Degrades(limits, box, Observe(item)) then
              after == box.(degraded := true, pending := Remains(limits, box, Latest(box.pending, item)))
            else after == box.(pending := Unbounded(box.pending, item))
  {
    UnboundedKeeps(box.pending, item, "key");
    if Degrades(limits, box, Observe(item)) {
      DegradedIs(limits, box.(pending := Unbounded(box.pending, item)),
        if item.snapshot then Some(item.event) else None);
    }
  }

  lemma DegradedIs(limits: Limits, box: Box, latest: Option<Event>)
    ensures var snapshot := if latest.Some? then latest else LastSnapshot(box.pending);
            Degrade(limits, box, latest) == box.(degraded := true, pending := Remains(limits, box, snapshot))
  {
    var snapshot := if latest.Some? then latest else LastSnapshot(box.pending);
    var gap := GapItem(box.nextSequence);
    if snapshot.Some? {
      var two := [gap, SnapshotItem(snapshot.value)];
      assert [gap] + [SnapshotItem(snapshot.value)] == two && Removed(two, 1) == [gap];
    }
  }

  lemma RemainsIsOrdered(limits: Limits, box: Box, snapshot: Option<Event>)
    ensures var rest := Remains(limits, box, snapshot);
            && Ordered(rest)
            && LastSnapshot(rest) == if snapshot.Some? && HasRoom(limits, box, snapshot.value) then snapshot else None
  {
    var gap := GapItem(box.nextSequence);
    var none: seq<Pending> := [];
    assert Init([gap]) == none && SnapshotCount(none) == 0 && Tidy(none);
    assert SnapshotCount([gap]) == 0 && Tidy([gap]);
    if snapshot.Some? {
      var two := [gap, SnapshotItem(snapshot.value)];
      assert Init(two) == [gap] && SnapshotCount(two) == 1 && Tidy(two);
    }
  }

  /** One more item, in the pending items and in the log. */
  lemma TakenCarries(pending: seq<Pending>, log: seq<Pending>, item: Pending)
    requires Carries(pending, log) && Ordered(pending) && !(item.snapshot && Keyed(item))
    ensures Carries(Unbounded(pending, item), log + [item]) && Ordered(Unbounded(pending, item))
  {
    UnboundedKeeps(pending, item, "key");
    WholeEventsSplits(log, [item]);
    LastSnapshotOneMore(log, item);
    hide Unbounded, KeyText, WholeEvents, LastSnapshot;
    forall key | key != "" ensures KeyText(Unbounded(pending, item), key) == KeyText(log + [item], key) {
      UnboundedKeeps(pending, item, key);
      KeyTextSplits(log, [item], key);
    }
  }

  lemma LastSnapshotOneMore(log: seq<Pending>, item: Pending)
    ensures LastSnapshot(log + [item]) == Latest(log, item)
  {
    assert Init(log + [item]) == log;
  }

  lemma JoinedCarries(a: seq<Pending>, b: seq<Pending>, c: seq<Pending>, d: seq<Pending>)
    requires Carries(a, b) && Carries(c, d)
    ensures Carries(a + c, b + d)
  {
    hide KeyText, WholeEvents, LastSnapshot;
    forall key | key != "" ensures KeyText(a + c, key) == KeyText(b + d, key) {
      KeyTextSplits(a, c, key);
      KeyTextSplits(b, d, key);
    }
    WholeEventsSplits(a, c);
    WholeEventsSplits(b, d);
    LastSnapshotSplits(a, c);
    LastSnapshotSplits(b, d);
  }

  /** Over every run without a reload, however often the box degrades: the numbered items carry the
      logs that were assigned, and the pending ones the log since. */
  lemma {:induction false} CarriesAlways(producer: Producer, limits: Limits, ops: seq<Op>)
    requires IsRun(producer, limits, ops) && UnkeyedSnapshots(ops)
    ensures Carries(Run(producer, limits, ops).numbered, Assigned(producer, limits, ops))
    ensures Carries(Run(producer, limits, ops).box.pending, Log(producer, limits, ops))
    ensures Ordered(Run(producer, limits, ops).box.pending)
    decreases |ops|
  {
    hide Carries, Ordered, Remains, Outbox.Observe, Degrades, Unbounded;
    if ops == [] {
      NothingCarries();
    } else {
      var t, op := Run(producer, limits, Init(ops)), Last(ops);
      CarriesAlways(producer, limits, Init(ops));
      match op {
        case Observe(item) =>
          assert ops[|ops| - 1].Observe?;
          ObserveIs(limits, t.box, item);
          ObservedCarries(limits, t.box, Log(producer, limits, Init(ops)), item);
        case Assign(_) =>
          JoinedCarries(t.numbered, Assigned(producer, limits, Init(ops)), t.box.pending,
            Log(producer, limits, Init(ops)));
          NothingCarries();
        case _ =>
      }
    }
  }

  lemma NothingCarries()
    ensures Carries([], []) && Ordered([])
  {
  }

  lemma ObservedCarries(limits: Limits, box: Box, log: seq<Pending>, item: Pending)
    requires Carries(box.pending, log) && Ordered(box.pending) && !(item.snapshot && Keyed(item))
    ensures Carries(Remains(limits, box, Latest(box.pending, item)), Remains(limits, box, Latest(log, item)))
    ensures Ordered(Remains(limits, box, Latest(box.pending, item)))
    ensures Carries(Unbounded(box.pending, item), log + [item]) && Ordered(Unbounded(box.pending, item))
  {
    hide Unbounded, Remains, Ordered;
    assert Latest(box.pending, item) == Latest(log, item);
    RemainsIsOrdered(limits, box, Latest(box.pending, item));
    TakenCarries(box.pending, log, item);
  }

  /** Whatever the box and the keys: an observation that degrades the box leaves exactly the gap and,
      if both fit, the last snapshot of what would have been pending. */
  lemma DegradingLeaves(limits: Limits, box: Box, item: Pending)
    requires Degrades(limits, box, Observe(item))
    ensures Outbox.Observe(limits, box, item)
         == box.(degraded := true, pending := Remains(limits, box, LastSnapshot(Unbounded(box.pending, item))))
  {
    hide Merge, DropSnapshots, FirstWithKey;
    var coalesces := Coalesces(box.pending, item);
    if !coalesces { LastSnapshotOneMore(if item.snapshot then DropSnapshots(box.pending) else box.pending, item); }
    DegradedIs(limits, box.(pending := Unbounded(box.pending, item)),
      if !coalesces && item.snapshot then Some(item.event) else None);
  }

  /** Over every run without a reload: an observation that degrades the box leaves exactly the gap
      and, if both fit, the snapshot observed last of those that were pending. */
  lemma DegradingKeepsTheSnapshot(producer: Producer, limits: Limits, ops: seq<Op>, item: Pending)
    requires IsRun(producer, limits, ops) && UnkeyedSnapshots(ops) && !(item.snapshot && Keyed(item))
    requires Degrades(limits, Run(producer, limits, ops).box, Observe(item))
    ensures var t := Run(producer, limits, ops);
            Step(producer, limits, t, Observe(item)).box
              == t.box.(degraded := true,
                        pending := Remains(limits, t.box, Latest(Log(producer, limits, ops), item)))
  {
    CarriesAlways(producer, limits, ops);
    ObserveIs(limits, Run(producer, limits, ops).box, item);
  }

  /** Whether the last snapshot observed was cut by a degradation that had no room for it. */
  predicate Cut(producer: Producer, limits: Limits, ops: seq<Op>)
    requires IsRun(producer, limits, ops)
  {
    if ops == [] then false
    else
      var box, log := Run(producer, limits, Init(ops)).box, Log(producer, limits, Init(ops));
      match Last(ops)
      case Observe(item) =>
        var latest := Latest(log, item);
        if Degrades(limits, box, Last(ops)) && latest.Some? && !HasRoom(limits, box, latest.value) then true
        else !item.snapshot && Cut(producer, limits, Init(ops))
      case _ => Cut(producer, limits, Init(ops))
  }

  /** In each state: the last snapshot observed is the last one assigned or in the log, or it was cut
      and the log has none. */
  lemma {:induction false} LastSnapshotAlways(producer: Producer, limits: Limits, ops: seq<Op>)
    requires IsRun(producer, limits, ops)
    ensures var all := Assigned(producer, limits, ops) + Log(producer, limits, ops);
            if Cut(producer, limits, ops) then LastSnapshot(Log(producer, limits, ops)).None?
            else LastSnapshot(all) == LastSnapshot(Run(producer, limits, ops).observed)
    decreases |ops|
  {
    hide Remains, Outbox.Observe, Degrades, LastSnapshot, HasRoom;
    if ops == [] {
      assert Assigned(producer, limits, ops) + Log(producer, limits, ops) == [];
      NoSnapshot();
    } else {
      var t, op := Run(producer, limits, Init(ops)), Last(ops);
      var before, log := Assigned(producer, limits, Init(ops)), Log(producer, limits, Init(ops));
      LastSnapshotAlways(producer, limits, Init(ops));
      LastSnapshotSplits(before, log);
      match op {
        case Observe(item) =>
          LastSnapshotOneMore(log, item);
          LastSnapshotOneMore(t.observed, item);
          DegradesIsTaken(limits, t.box, item);
          RemainsIsOrdered(limits, t.box, Latest(log, item));
          LastSnapshotSplits(before, log + [item]);
          LastSnapshotSplits(before, Remains(limits, t.box, Latest(log, item)));
        case Assign(_) =>
          assert (before + log) + [] == before + log;
          NoSnapshot();
        case _ =>
      }
    }
  }

  lemma DegradesIsTaken(limits: Limits, box: Box, item: Pending)
    ensures Degrades(limits, box, Observe(item)) ==> !Ignored(box, item)
  {
  }

  lemma NoSnapshot()
    ensures LastSnapshot([]).None?
  {
  }

  /** A concrete run: with room for one item, a plain event after a snapshot leaves the gap alone. */
  lemma SnapshotCut(producer: Producer, limits: Limits, snapshot: Event, plain: Event) returns (ops: seq<Op>)
    requires limits.maxItems == 1 && Fits(limits, [], [SnapshotItem(snapshot)])
    ensures ops == [Observe(SnapshotItem(snapshot)), Observe(Pending(plain, None, false, false))]
    ensures IsRun(producer, limits, ops) && Cut(producer, limits, ops)
    ensures Run(producer, limits, ops).box == EMPTY_BOX.(degraded := true, pending := [GapItem(1)])
  {
    hide Bytes;
    var first, second := SnapshotItem(snapshot), Pending(plain, None, false, false);
    ops := [Observe(first), Observe(second)];
    var none: seq<Op> := [];
    assert Init(ops) == [Observe(first)] && Init([Observe(first)]) == none;
    ObserveFirst(limits, first);
    var box1 := EMPTY_BOX.(pending := [first]);
    assert Unbounded([first], second) == [first, second];
    DegradingLeaves(limits, box1, second);
    LastSnapshotOneMore([first], second);
    LastSnapshotOneMore([], first);
    assert [] + [first] == [first];
    hide Outbox.Observe, Unbounded, LastSnapshot, Degrades;
    assert IsRun(producer, limits, none) && Run(producer, limits, none) == START;
    assert IsRun(producer, limits, [Observe(first)]) && Run(producer, limits, [Observe(first)]).box == box1;
    assert Log(producer, limits, none) == [];
  }

  /** Over every run without a reload: the last snapshot observed is numbered or pending if and only
      if no degradation has cut it, or the last one numbered is its equal. */
  lemma SnapshotKeptIff(producer: Producer, limits: Limits, ops: seq<Op>)
    requires IsRun(producer, limits, ops) && UnkeyedSnapshots(ops)
    ensures var t := Run(producer, limits, ops);
            LastSnapshot(t.numbered + t.box.pending) == LastSnapshot(t.observed)
            <==> !Cut(producer, limits, ops) || LastSnapshot(t.numbered) == LastSnapshot(t.observed)
  {
    hide LastSnapshot, KeyText, WholeEvents;
    var t := Run(producer, limits, ops);
    CarriesAlways(producer, limits, ops);
    LastSnapshotAlways(producer, limits, ops);
    LastSnapshotSplits(t.numbered, t.box.pending);
    LastSnapshotSplits(Assigned(producer, limits, ops), Log(producer, limits, ops));
  }

  // ---------------------------------------------------------------- the spool file

  /** A box that is saved and loaded again has lost what was pending, and nothing else; a file of
      another producer gives an empty box. */
  lemma SavedLoads(producer: Producer, other: Producer, box: Box)
    ensures Load(other, Some(Saved(producer, box)))
         == if other == producer then box.(pending := []) else EMPTY_BOX
  {
  }

  /** The elements of a JSON array, as they are printed. */
  function Joined<T>(items: seq<T>, text: T -> string): string {
    if items == [] then ""
    else if |items| == 1 then text(items[0])
    else Joined(Init(items), text) + "," + text(Last(items))
  }

  lemma {:induction false} ListBytesIsLength<T>(items: seq<T>, size: T -> nat, text: T -> string)
    requires forall x :: size(x) == |text(x)|
    ensures ListBytes(items, size) == |Joined(items, text)|
  {
    if items != [] {
      ListBytesIsLength(Init(items), size, text);
    }
  }

  /** The size of the spool is the length of its JSON text. */
  lemma BytesIsLength(limits: Limits, retained: seq<Publish>, pending: seq<Pending>, frame: Publish -> string,
      item: Pending -> string)
    requires forall v :: limits.publishedBytes(v) == |frame(v)|
    requires forall p :: limits.pendingBytes(p) == |item(p)|
    ensures Bytes(limits, retained, pending)
         == |"{\"assigned\":[" + Joined(retained, frame) + "],\"pending\":[" + Joined(pending, item) + "]}"|
  {
    ListBytesIsLength(retained, limits.publishedBytes, frame);
    ListBytesIsLength(pending, limits.pendingBytes, item);
  }
}
