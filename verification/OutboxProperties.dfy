/** What the outbox promises over every run of observations, assignments, resumptions and
    acknowledgements that starts from an empty spool. */
module OutboxProperties {
  import opened Wrappers
  import opened Events
  import opened Outbox

  datatype Op = Observe(item: Pending) | Assign(stamps: seq<Stamp>) | Resume(next: int) | Acknowledge(sequence: int)

  /** A box with its history: every observation, every item that got a sequence number, the
      batches that `assign` numbered, and whether the box has ever been degraded. */
  datatype Trace = Trace(box: Box, observed: seq<Pending>, numbered: seq<Pending>,
                         batches: seq<seq<Publish>>, everDegraded: bool)

  const START := Trace(EMPTY_BOX, [], [], [], false)

  predicate Possible(t: Trace, op: Op) {
    op.Assign? ==> |op.stamps| == |t.box.pending|
  }

  function BoxAfter(producer: Producer, limits: Limits, box: Box, op: Op): Box
    requires op.Assign? ==> |op.stamps| == |box.pending|
  {
    match op
    case Observe(item) => Outbox.Observe(limits, box, item)
    case Assign(stamps) => Outbox.Assign(producer, box, stamps)
    case Resume(next) => if ResumeConflict(box, next) then box else Outbox.Resume(box, next)
    case Acknowledge(sequence) => Outbox.Acknowledge(box, sequence)
  }

  function Step(producer: Producer, limits: Limits, t: Trace, op: Op): Trace
    requires Possible(t, op)
  {
    var box := BoxAfter(producer, limits, t.box, op);
    match op
    case Observe(item) =>
      t.(box := box, observed := t.observed + [item], everDegraded := t.everDegraded || box.degraded)
    case Assign(stamps) =>
      var batch := Numbered(producer, t.box.pending, stamps, t.box.nextSequence);
      t.(box := box, numbered := t.numbered + t.box.pending,
         batches := if batch == [] then t.batches else t.batches + [batch])
    case _ => t.(box := box)
  }

  predicate IsRun(producer: Producer, limits: Limits, ops: seq<Op>)
    decreases |ops|, 0
  {
    ops == [] || (IsRun(producer, limits, Init(ops)) && Possible(Run(producer, limits, Init(ops)), Last(ops)))
  }

  function Run(producer: Producer, limits: Limits, ops: seq<Op>): Trace
    requires IsRun(producer, limits, ops)
    decreases |ops|, 1
  {
    if ops == [] then START else Step(producer, limits, Run(producer, limits, Init(ops)), Last(ops))
  }

  // ---------------------------------------------------------------- lossless while healthy

  /** The concatenated text of the items with a coalesce key. */
  function KeyText(items: seq<Pending>, key: string): string {
    if items == [] then ""
    else KeyText(Init(items), key) + if Last(items).coalesceKey == Some(key) then TextOf(Last(items).event) else ""
  }

  /** Events that are neither snapshots nor text to be coalesced. */
  predicate Whole(item: Pending) {
    !item.snapshot && !(Keyed(item) && HasText(item.event))
  }

  function WholeEvents(items: seq<Pending>): seq<Event> {
    if items == [] then []
    else if Whole(Last(items)) then WholeEvents(Init(items)) + [Last(items).event]
    else WholeEvents(Init(items))
  }

  function SnapshotCount(items: seq<Pending>): nat {
    if items == [] then 0 else SnapshotCount(Init(items)) + if Last(items).snapshot then 1 else 0
  }

  /** No observation is both a snapshot and text under a coalesce key.  The bridge gives a key
      to text deltas only (pi-extension/remote-control/bridge.ts:93), never to a snapshot. */
  predicate KeysApartFromSnapshots(items: seq<Pending>) {
    forall k :: 0 <= k < |items| ==> !(items[k].snapshot && Keyed(items[k]))
  }

  /** Nothing that was observed is missing, altered or doubled. */
  ghost predicate Lossless(t: Trace) {
    var all := t.numbered + t.box.pending;
    && (forall key :: key != "" ==> KeyText(all, key) == KeyText(t.observed, key))
    && WholeEvents(all) == WholeEvents(t.observed)
    && LastSnapshot(all) == LastSnapshot(t.observed)
    && SnapshotCount(t.box.pending) <= 1
  }

  /** Behind the first item of a key that has text there is no further text of that key. */
  predicate Tidy(items: seq<Pending>) {
    items == [] ||
    (&& Tidy(Init(items))
     && (Keyed(Last(items)) && HasText(Last(items).event) ==>
           var first := FirstWithKey(Init(items), Last(items).coalesceKey);
           first.None? || !HasText(first.value.event)))
  }

  lemma {:induction false} KeyTextSplits(a: seq<Pending>, b: seq<Pending>, key: string)
    ensures KeyText(a + b, key) == KeyText(a, key) + KeyText(b, key)
  {
    if b == [] {
      assert a + b == a;
    } else {
      assert Init(a + b) == a + Init(b) && Last(a + b) == Last(b);
      KeyTextSplits(a, Init(b), key);
    }
  }

  lemma {:induction false} WholeEventsSplits(a: seq<Pending>, b: seq<Pending>)
    ensures WholeEvents(a + b) == WholeEvents(a) + WholeEvents(b)
  {
    if b == [] {
      assert a + b == a;
    } else {
      assert Init(a + b) == a + Init(b) && Last(a + b) == Last(b);
      WholeEventsSplits(a, Init(b));
    }
  }

  lemma {:induction false} LastSnapshotSplits(a: seq<Pending>, b: seq<Pending>)
    ensures LastSnapshot(a + b) == if LastSnapshot(b).Some? then LastSnapshot(b) else LastSnapshot(a)
  {
    if b == [] {
      assert a + b == a;
    } else {
      assert Init(a + b) == a + Init(b) && Last(a + b) == Last(b);
      LastSnapshotSplits(a, Init(b));
    }
  }

  lemma {:induction false} FirstIsKept(items: seq<Pending>, key: Option<string>)
    requires KeysApartFromSnapshots(items) && key.Some? && key.value != ""
    ensures FirstWithKey(DropSnapshots(items), key) == FirstWithKey(items, key)
  {
    if items != [] {
      assert !(Last(items).snapshot && Keyed(Last(items)));
      FirstIsKept(Init(items), key);
      if !Last(items).snapshot {
        assert Init(DropSnapshots(items)) == DropSnapshots(Init(items));
      }
    }
  }

  /** Dropping the stale snapshots loses nothing else. */
  lemma {:induction false} DropKeeps(items: seq<Pending>, key: string)
    requires KeysApartFromSnapshots(items) && Tidy(items) && key != ""
    ensures KeyText(DropSnapshots(items), key) == KeyText(items, key)
    ensures WholeEvents(DropSnapshots(items)) == WholeEvents(items)
    ensures SnapshotCount(DropSnapshots(items)) == 0
    ensures KeysApartFromSnapshots(DropSnapshots(items)) && Tidy(DropSnapshots(items))
  {
    if items != [] {
      var last := Last(items);
      assert !(last.snapshot && Keyed(last));
      DropKeeps(Init(items), key);
      if !last.snapshot {
        assert Init(DropSnapshots(items)) == DropSnapshots(Init(items));
        if Keyed(last) { FirstIsKept(Init(items), last.coalesceKey); }
      }
    }
  }

  lemma {:induction false} MergeKeepsFirst(items: seq<Pending>, key: Option<string>, text: string,
      other: Option<string>)
    requires FirstWithKey(items, key).Some? && HasText(FirstWithKey(items, key).value.event)
    ensures var before, after := FirstWithKey(items, other), FirstWithKey(Merge(items, key, text), other);
            before.Some? == after.Some? && (before.Some? ==> HasText(before.value.event) == HasText(after.value.event))
  {
    if FirstWithKey(Init(items), key).Some? {
      MergeKeepsFirst(Init(items), key, text, other);
      assert Init(Merge(items, key, text)) == Merge(Init(items), key, text);
    } else {
      assert Init(Merge(items, key, text)) == Init(items);
    }
  }

  /** Coalescing appends the new text to its key... */
  lemma {:induction false} MergeAppends(items: seq<Pending>, key: string, text: string, other: string)
    requires Tidy(items) && key != ""
    requires FirstWithKey(items, Some(key)).Some? && HasText(FirstWithKey(items, Some(key)).value.event)
    ensures KeyText(Merge(items, Some(key), text), other)
         == KeyText(items, other) + (if other == key then text else "")
  {
    var merged, last := Merge(items, Some(key), text), Last(items);
    var before := KeyText(Init(items), other);
    if FirstWithKey(Init(items), Some(key)).Some? {
      assert Init(merged) == Merge(Init(items), Some(key), text) && Last(merged) == last;
      MergeAppends(Init(items), key, text, other);
      if last.coalesceKey == Some(other) && other == key {
        assert TextOf(last.event) == "";
        assert (before + text) + "" == (before + "") + text;
      } else {
        var rest := if last.coalesceKey == Some(other) then TextOf(last.event) else "";
        assert other != key ==> (before + "") + rest == (before + rest) + "";
        assert other == key ==> rest == "" && (before + text) + rest == (before + rest) + text;
      }
    } else {
      assert Init(merged) == Init(items) && Last(merged) == WithText(last, TextOf(last.event) + text);
      assert before + (TextOf(last.event) + text) == (before + TextOf(last.event)) + text;
      assert (before + "") + "" == before + "";
    }
  }

  /** ... and changes nothing else. */
  lemma {:induction false} MergeKeepsTheRest(items: seq<Pending>, key: string, text: string)
    requires KeysApartFromSnapshots(items) && Tidy(items) && key != ""
    requires FirstWithKey(items, Some(key)).Some? && HasText(FirstWithKey(items, Some(key)).value.event)
    ensures var merged := Merge(items, Some(key), text);
            && WholeEvents(merged) == WholeEvents(items)
            && LastSnapshot(merged) == LastSnapshot(items)
            && SnapshotCount(merged) == SnapshotCount(items)
            && KeysApartFromSnapshots(merged) && Tidy(merged)
  {
    var merged, last := Merge(items, Some(key), text), Last(items);
    assert !(last.snapshot && Keyed(last));
    if FirstWithKey(Init(items), Some(key)).Some? {
      assert Init(merged) == Merge(Init(items), Some(key), text) && Last(merged) == last;
      MergeKeepsTheRest(Init(items), key, text);
      MergeKeepsFirst(Init(items), Some(key), text, last.coalesceKey);
    } else {
      assert Init(merged) == Init(items);
    }
  }

  ghost predicate Healthy(t: Trace) {
    && !t.box.degraded
    && KeysApartFromSnapshots(t.box.pending)
    && Tidy(t.box.pending)
    && Lossless(t)
  }

  lemma ObserveKeepsText(limits: Limits, box: Box, item: Pending, key: string)
    requires KeysApartFromSnapshots(box.pending) && Tidy(box.pending) && key != ""
    requires !box.degraded && !Outbox.Observe(limits, box, item).degraded
    ensures KeyText(Outbox.Observe(limits, box, item).pending, key)
         == KeyText(box.pending, key) + KeyText([item], key)
  {
    assert Init([item]) == [] && Last([item]) == item;
    var text := if item.coalesceKey == Some(key) then TextOf(item.event) else "";
    assert KeyText([item], key) == "" + text == text;
    if Coalesces(box.pending, item) {
      MergeAppends(box.pending, item.coalesceKey.value, TextOf(item.event), key);
    } else {
      var kept := if item.snapshot then DropSnapshots(box.pending) else box.pending;
      DropKeeps(box.pending, key);
      assert Init(kept + [item]) == kept && Last(kept + [item]) == item;
    }
  }

  /** One observation of a box that stays healthy, seen through one coalesce key. */
  lemma ObserveKeepsKey(limits: Limits, pending: seq<Pending>, box: Box, item: Pending, key: string)
    requires KeysApartFromSnapshots(pending) && Tidy(pending) && SnapshotCount(pending) <= 1 && key != ""
    requires box.pending == pending && !box.degraded && !(item.snapshot && Keyed(item))
    requires !Outbox.Observe(limits, box, item).degraded
    ensures var pending' := Outbox.Observe(limits, box, item).pending;
            && KeyText(pending', key) == KeyText(pending, key) + KeyText([item], key)
            && WholeEvents(pending') == WholeEvents(pending) + WholeEvents([item])
            && LastSnapshot(pending') == (if item.snapshot then Some(item.event) else LastSnapshot(pending))
            && SnapshotCount(pending') <= 1 && KeysApartFromSnapshots(pending') && Tidy(pending')
  {
    ObserveKeepsText(limits, box, item, key);
    if Coalesces(pending, item) {
      var merged := Merge(pending, item.coalesceKey, TextOf(item.event));
      assert Outbox.Observe(limits, box, item).pending == merged;
      hide *;
      MergeKeepsTheRest(pending, item.coalesceKey.value, TextOf(item.event));
      WholeEventsOfOne(pending, item);
    } else {
      var kept := if item.snapshot then DropSnapshots(pending) else pending;
      assert Outbox.Observe(limits, box, item).pending == kept + [item];
      hide Outbox.Observe, KeyText;
      DropKeeps(pending, key);
      AppendKeepsTheRest(pending, kept, item);
    }
  }

  lemma WholeEventsOfOne(pending: seq<Pending>, item: Pending)
    ensures WholeEvents(pending + [item]) == WholeEvents(pending) + WholeEvents([item])
    ensures Coalesces(pending, item) ==> WholeEvents(pending) + WholeEvents([item]) == WholeEvents(pending)
  {
    WholeEventsSplits(pending, [item]);
    assert Init([item]) == [];
  }

  lemma AppendKeepsTheRest(pending: seq<Pending>, kept: seq<Pending>, item: Pending)
    requires WholeEvents(kept) == WholeEvents(pending) && KeysApartFromSnapshots(kept) && Tidy(kept)
    requires SnapshotCount(kept) == if item.snapshot then 0 else SnapshotCount(pending)
    requires !item.snapshot ==> kept == pending
    requires !Coalesces(kept, item) && !(item.snapshot && Keyed(item)) && SnapshotCount(pending) <= 1
    ensures WholeEvents(kept + [item]) == WholeEvents(pending) + WholeEvents([item])
    ensures LastSnapshot(kept + [item]) == (if item.snapshot then Some(item.event) else LastSnapshot(pending))
    ensures SnapshotCount(kept + [item]) <= 1 && KeysApartFromSnapshots(kept + [item]) && Tidy(kept + [item])
  {
    WholeEventsOfOne(kept, item);
    assert Init(kept + [item]) == kept && Last(kept + [item]) == item;
    hide WholeEvents, FirstWithKey;
  }

  lemma ObserveKeepsHealthy(producer: Producer, limits: Limits, t: Trace, item: Pending)
    requires Healthy(t) && !(item.snapshot && Keyed(item))
    requires !Step(producer, limits, t, Observe(item)).box.degraded
    ensures Healthy(Step(producer, limits, t, Observe(item)))
  {
    var pending, pending' := t.box.pending, Step(producer, limits, t, Observe(item)).box.pending;
    hide KeyText, WholeEvents, LastSnapshot, SnapshotCount, Outbox.Observe, Tidy;
    forall key | key != "" ensures KeyText(t.numbered + pending', key) == KeyText(t.observed + [item], key) {
      ObserveKeepsKey(limits, pending, t.box, item, key);
      KeyTextAfter(t.numbered, t.observed, pending, pending', item, key);
    }
    ObserveKeepsKey(limits, pending, t.box, item, "key");
    RestAfter(t.numbered, t.observed, pending, pending', item);
  }

  lemma KeyTextAfter(numbered: seq<Pending>, observed: seq<Pending>, pending: seq<Pending>, pending': seq<Pending>,
      item: Pending, key: string)
    requires KeyText(numbered + pending, key) == KeyText(observed, key)
    requires KeyText(pending', key) == KeyText(pending, key) + KeyText([item], key)
    ensures KeyText(numbered + pending', key) == KeyText(observed + [item], key)
  {
    hide *;
    KeyTextSplits(numbered, pending, key);
    KeyTextSplits(numbered, pending', key);
    KeyTextSplits(observed, [item], key);
    Associative(KeyText(numbered, key), KeyText(pending, key), KeyText([item], key));
  }

  lemma RestAfter(numbered: seq<Pending>, observed: seq<Pending>, pending: seq<Pending>, pending': seq<Pending>,
      item: Pending)
    requires WholeEvents(numbered + pending) == WholeEvents(observed)
    requires WholeEvents(pending') == WholeEvents(pending) + WholeEvents([item])
    requires LastSnapshot(numbered + pending) == LastSnapshot(observed)
    requires LastSnapshot(pending') == if item.snapshot then Some(item.event) else LastSnapshot(pending)
    ensures WholeEvents(numbered + pending') == WholeEvents(observed + [item])
    ensures LastSnapshot(numbered + pending') == LastSnapshot(observed + [item])
  {
    assert LastSnapshot(observed + [item]) == if item.snapshot then Some(item.event) else LastSnapshot(observed) by {
      assert Init(observed + [item]) == observed;
    }
    hide *;
    WholeEventsSplits(numbered, pending);
    WholeEventsSplits(numbered, pending');
    WholeEventsSplits(observed, [item]);
    Associative(WholeEvents(numbered), WholeEvents(pending), WholeEvents([item]));
    LastSnapshotSplits(numbered, pending);
    LastSnapshotSplits(numbered, pending');
  }

  /** In every run whose box never degraded, the text of each coalesce key concatenates to the
      observed text, all other events but snapshots appear exactly once and in order, and the
      last snapshot is the last one observed. */
  lemma {:induction false} LosslessWhileHealthy(producer: Producer, limits: Limits, ops: seq<Op>)
    requires IsRun(producer, limits, ops)
    requires forall k :: 0 <= k < |ops| && ops[k].Observe? ==> !(ops[k].item.snapshot && Keyed(ops[k].item))
    requires !Run(producer, limits, ops).everDegraded
    ensures Healthy(Run(producer, limits, ops)) && Lossless(Run(producer, limits, ops))
  {
    if ops != [] {
      var t := Run(producer, limits, Init(ops));
      LosslessWhileHealthy(producer, limits, Init(ops));
      match Last(ops) {
        case Observe(item) => ObserveKeepsHealthy(producer, limits, t, item);
        case Assign(stamps) =>
          var t' := Step(producer, limits, t, Last(ops));
          assert t'.numbered + t'.box.pending == t.numbered + t.box.pending;
        case Resume(next) =>
        case Acknowledge(sequence) =>
      }
    }
  }

  // ---------------------------------------------------------------- degradation

  ghost predicate NoGapObserved(ops: seq<Op>) {
    forall k :: 0 <= k < |ops| && ops[k].Observe? ==> !ops[k].item.event.Gap?
  }

  predicate GapFree(items: seq<Pending>) {
    forall k :: 0 <= k < |items| ==> !items[k].event.Gap?
  }

  /** No item but the first is a gap marker. */
  predicate GapFreeBehind(items: seq<Pending>) {
    forall k :: 1 <= k < |items| ==> !items[k].event.Gap?
  }

  /** A batch that opens with a gap marker and ends at `mark`. */
  predicate GapBatch(batch: seq<Publish>, mark: int) {
    batch != [] && batch[0].event.Gap? && Last(batch).sequence == mark
  }

  ghost predicate Degradation(limits: Limits, t: Trace) {
    var box := t.box;
    // The spool is within its bounds, or nothing but the gap marker is left to drop.
    && (Fits(limits, box.retained, box.pending) || box.pending == [] || box.pending == [GapItem(box.nextSequence)])
    // A pending gap is unique, comes first, and names the sequence number it will get.
    && (HasGap(box.pending) ==> box.pending[0] == GapItem(box.nextSequence))
    && GapFreeBehind(box.pending)
    // Every gap that was numbered opens its batch and names its own sequence number.
    && (forall b, k :: 0 <= b < |t.batches| && 0 <= k < |t.batches[b]| && t.batches[b][k].event.Gap? ==>
          k == 0 && t.batches[b][k].event.expectedSequence == t.batches[b][k].sequence)
    // The recovery mark.
    && (!box.degraded ==> box.recovery.None?)
    && (box.degraded && box.recovery.None? ==> HasGap(box.pending))
    && (box.recovery.Some? ==> exists b :: 0 <= b < |t.batches| && GapBatch(t.batches[b], box.recovery.value))
  }

  lemma {:induction false} FromShrinks(frames: seq<Publish>, first: int, size: Publish -> nat)
    ensures |From(frames, first)| <= |frames|
    ensures ListBytes(From(frames, first), size) <= ListBytes(frames, size)
  {
    if frames != [] {
      FromShrinks(Init(frames), first, size);
      if Last(frames).sequence >= first {
        assert Init(From(frames, first)) == From(Init(frames), first);
      }
    }
  }

  lemma {:induction false} DropKeepsHead(items: seq<Pending>)
    requires items != [] && !items[0].snapshot && GapFreeBehind(items)
    ensures DropSnapshots(items) != [] && DropSnapshots(items)[0] == items[0] && GapFreeBehind(DropSnapshots(items))
  {
    if |items| == 1 {
      assert Init(items) == [];
    } else {
      DropKeepsHead(Init(items));
    }
  }

  lemma {:induction false} DropGapFree(items: seq<Pending>)
    requires GapFree(items)
    ensures GapFree(DropSnapshots(items))
  {
    if items != [] {
      DropGapFree(Init(items));
    }
  }

  lemma {:induction false} MergeTouchesNoGap(items: seq<Pending>, key: Option<string>, text: string)
    requires FirstWithKey(items, key).Some? && HasText(FirstWithKey(items, key).value.event)
    ensures forall k :: 0 <= k < |items| ==> Merge(items, key, text)[k].event.Gap? == items[k].event.Gap?
    ensures forall k :: 0 <= k < |items| && items[k].event.Gap? ==> Merge(items, key, text)[k] == items[k]
  {
    if FirstWithKey(Init(items), key).Some? {
      MergeTouchesNoGap(Init(items), key, text);
    }
  }

  lemma {:induction false} LastSnapshotIsListed(items: seq<Pending>)
    requires LastSnapshot(items).Some?
    ensures exists k :: 0 <= k < |items| && items[k].snapshot && items[k].event == LastSnapshot(items).value
  {
    if Last(items).snapshot {
      assert items[|items| - 1].snapshot;
    } else {
      LastSnapshotIsListed(Init(items));
    }
  }

  /** The pending items of a box in a degradation-consistent state. */
  ghost predicate PendingShape(box: Box) {
    && (HasGap(box.pending) ==> box.pending[0] == GapItem(box.nextSequence))
    && GapFreeBehind(box.pending)
  }

  lemma DegradeShape(limits: Limits, box: Box, latest: Option<Event>)
    requires latest.Some? ==> !latest.value.Gap?
    requires forall k :: 0 <= k < |box.pending| && box.pending[k].snapshot ==> !box.pending[k].event.Gap?
    ensures var d := Degrade(limits, box, latest);
            && d.degraded && d.pending != [] && d.pending[0] == GapItem(box.nextSequence) && GapFreeBehind(d.pending)
            && (Fits(limits, d.retained, d.pending) || d.pending == [GapItem(box.nextSequence)])
  {
    if LastSnapshot(box.pending).Some? { LastSnapshotIsListed(box.pending); }
    var d := Degrade(limits, box, latest);
    var snapshot := if latest.Some? then latest else LastSnapshot(box.pending);
    if snapshot.Some? {
      var two := [GapItem(box.nextSequence), SnapshotItem(snapshot.value)];
      assert Trim(limits, box.retained, two) == two || Trim(limits, box.retained, two) == [two[0]] by {
        assert Removed(two, 1) == [two[0]];
      }
    }
  }

  lemma ObserveShape(limits: Limits, box: Box, item: Pending)
    requires PendingShape(box) && !item.event.Gap?
    requires Fits(limits, box.retained, box.pending) || box.pending == [] || box.pending == [GapItem(box.nextSequence)]
    ensures var after := Outbox.Observe(limits, box, item);
            && PendingShape(after)
            && (Fits(limits, after.retained, after.pending) || after.pending == []
                || after.pending == [GapItem(after.nextSequence)])
            && (after.degraded ==> box.degraded || HasGap(after.pending))
            && (box.degraded ==> after.degraded) && after.recovery == box.recovery
            && (HasGap(box.pending) ==> HasGap(after.pending))
            && (HasGap(after.pending) ==> HasGap(box.pending) || after.degraded)
  {
    var pending := box.pending;
    if box.degraded && !item.mandatory && !item.snapshot { return; }
    if Coalesces(pending, item) {
      var merged := Merge(pending, item.coalesceKey, TextOf(item.event));
      MergeTouchesNoGap(pending, item.coalesceKey, TextOf(item.event));
      assert HasGap(merged) == HasGap(pending);
      SettleShape(limits, box, merged, None);
    } else {
      var kept := if item.snapshot then DropSnapshots(pending) else pending;
      if HasGap(pending) {
        DropKeepsHead(pending);
      } else {
        DropGapFree(pending);
      }
      var next := kept + [item];
      assert HasGap(pending) ==> next[0] == pending[0];
      forall k | 0 <= k < |next| ensures next[k].event.Gap? ==> HasGap(pending) {
        if k < |kept| { assert next[k] == kept[k]; }
      }
      SettleShape(limits, box, next, if item.snapshot then Some(item.event) else None);
    }
  }

  /** The end of an observation: the new pending items stay, or the box degrades. */
  lemma SettleShape(limits: Limits, box: Box, pending: seq<Pending>, latest: Option<Event>)
    requires pending != [] && GapFreeBehind(pending) && (latest.Some? ==> !latest.value.Gap?)
    requires HasGap(pending) ==> pending[0] == GapItem(box.nextSequence)
    ensures var after := DegradeUnlessFits(limits, box.(pending := pending), latest);
            && PendingShape(after)
            && (Fits(limits, after.retained, after.pending) || after.pending == [GapItem(after.nextSequence)])
            && (after.degraded ==> box.degraded || HasGap(after.pending))
            && (box.degraded ==> after.degraded)
            && (HasGap(pending) ==> HasGap(after.pending))
            && (HasGap(after.pending) ==> HasGap(pending) || after.degraded)
  {
    if !Fits(limits, box.retained, pending) {
      forall k | 0 <= k < |pending| && pending[k].snapshot ensures !pending[k].event.Gap? {
      }
      DegradeShape(limits, box.(pending := pending), latest);
      var after := DegradeUnlessFits(limits, box.(pending := pending), latest);
      assert after.pending[0].event.Gap?;
    }
  }

  lemma AssignShape(producer: Producer, limits: Limits, t: Trace, stamps: seq<Stamp>)
    requires Degradation(limits, t) && |stamps| == |t.box.pending|
    ensures Degradation(limits, Step(producer, limits, t, Assign(stamps)))
  {
    hide Fits;
    var box := t.box;
    var t' := Step(producer, limits, t, Assign(stamps));
    var batch := Numbered(producer, box.pending, stamps, box.nextSequence);
    assert forall k :: 0 < k < |batch| ==> !batch[k].event.Gap?;
    assert !HasGap(t'.box.pending);
    if t'.box.recovery.Some? {
      if box.recovery.None? {
        assert HasGap(box.pending) && batch != [];
        assert Last(box.retained + batch) == Last(batch);
        assert GapBatch(t'.batches[|t'.batches| - 1], t'.box.recovery.value);
      } else {
        var b :| 0 <= b < |t.batches| && GapBatch(t.batches[b], box.recovery.value);
        assert t'.batches[b] == t.batches[b];
      }
    }
  }

  lemma ObserveKeepsDegradation(producer: Producer, limits: Limits, t: Trace, item: Pending)
    requires Degradation(limits, t) && !item.event.Gap?
    ensures Degradation(limits, Step(producer, limits, t, Observe(item)))
  {
    ObserveShape(limits, t.box, item);
    hide Outbox.Observe, Fits, GapBatch;
  }

  lemma DropKeepsDegradation(producer: Producer, limits: Limits, t: Trace, op: Op)
    requires Degradation(limits, t) && (op.Resume? || op.Acknowledge?)
    ensures Degradation(limits, Step(producer, limits, t, op))
  {
    FromShrinks(t.box.retained, if op.Resume? then op.next else op.sequence + 1, limits.publishedBytes);
    hide From, GapBatch, ListBytes;
  }

  /** The rules of the degraded state hold in every state of every run. */
  lemma {:induction false} DegradationAlways(producer: Producer, limits: Limits, ops: seq<Op>)
    requires IsRun(producer, limits, ops) && NoGapObserved(ops)
    ensures Degradation(limits, Run(producer, limits, ops))
  {
    if ops == [] {
      assert !HasGap(START.box.pending);
    } else {
      hide Degradation, Step;
      var t := Run(producer, limits, Init(ops));
      DegradationAlways(producer, limits, Init(ops));
      match Last(ops) {
        case Observe(item) =>
          assert ops[|ops| - 1].Observe?;
          ObserveKeepsDegradation(producer, limits, t, item);
        case Assign(stamps) => AssignShape(producer, limits, t, stamps);
        case _ => DropKeepsDegradation(producer, limits, t, Last(ops));
      }
    }
  }

  /** A box leaves the degraded state only on an acknowledgement that reaches the end of a
      batch that opened with a gap marker. */
  lemma RecoveryNeedsTheGapAcknowledged(producer: Producer, limits: Limits, ops: seq<Op>, op: Op)
    requires IsRun(producer, limits, ops) && NoGapObserved(ops) && (op.Observe? ==> !op.item.event.Gap?)
    requires Possible(Run(producer, limits, ops), op)
    requires Run(producer, limits, ops).box.degraded
    requires !Step(producer, limits, Run(producer, limits, ops), op).box.degraded
    ensures op.Acknowledge?
    ensures var t := Run(producer, limits, ops);
            exists b :: 0 <= b < |t.batches| && GapBatch(t.batches[b], t.box.recovery.value)
                        && op.sequence >= Last(t.batches[b]).sequence
  {
    DegradationAlways(producer, limits, ops);
    if op.Observe? { ObserveShape(limits, Run(producer, limits, ops).box, op.item); }
    var t := Run(producer, limits, ops);
    if op.Acknowledge? {
      var b :| 0 <= b < |t.batches| && GapBatch(t.batches[b], t.box.recovery.value);
      assert op.sequence >= Last(t.batches[b]).sequence;
    }
  }
}
