/** Exactly when the outbox keeps text in order, and exactly when recovery leaves a gap behind. */
module OutboxConditions {
  import opened Wrappers
  import opened Events
  import opened Outbox
  import opened OutboxProperties

  // ---------------------------------------------------------------- text under a coalesce key

  /** The pending snapshots, which the next snapshot replaces. */
  function Snapshots(items: seq<Pending>): seq<Pending> {
    if items == [] then []
    else if Last(items).snapshot then Snapshots(Init(items)) + [Last(items)] else Snapshots(Init(items))
  }

  /** The text of the first item of a key, to which new text is appended. */
  function FirstText(items: seq<Pending>, key: string): string {
    var first := FirstWithKey(items, Some(key));
    if first.Some? then TextOf(first.value.event) else ""
  }

  /** The key's text in the items behind that one. */
  function TextBehind(items: seq<Pending>, key: string): string {
    if items == [] || FirstWithKey(Init(items), Some(key)).None? then ""
    else TextBehind(Init(items), key) + if Last(items).coalesceKey == Some(key) then TextOf(Last(items).event) else ""
  }

  /** Whether one observation keeps a key's text in the order observed: text that coalesces must
      commute with the text behind it, and snapshots that are replaced must bear none. */
  ghost predicate KeepsText(pending: seq<Pending>, item: Pending, key: string) {
    if Coalesces(pending, item) then
      item.coalesceKey == Some(key) ==>
        TextOf(item.event) + TextBehind(pending, key) == TextBehind(pending, key) + TextOf(item.event)
    else item.snapshot ==> KeyText(Snapshots(pending), key) == ""
  }

  /** Replacing the pending snapshots keeps a key's text if and only if they bear none of it. */
  lemma {:induction false} ReplacingKeepsTextIff(items: seq<Pending>, key: string)
    ensures |KeyText(items, key)| == |KeyText(DropSnapshots(items), key)| + |KeyText(Snapshots(items), key)|
    ensures KeyText(DropSnapshots(items), key) == KeyText(items, key) <==> KeyText(Snapshots(items), key) == ""
  {
    if items != [] {
      ReplacingKeepsTextIff(Init(items), key);
      var last := Last(items);
      if last.snapshot {
        KeyTextOneMore(Snapshots(Init(items)), last, key);
      } else {
        KeyTextOneMore(DropSnapshots(Init(items)), last, key);
      }
    }
  }

  lemma KeyTextOneMore(items: seq<Pending>, item: Pending, key: string)
    ensures KeyText(items + [item], key)
         == KeyText(items, key) + if item.coalesceKey == Some(key) then TextOf(item.event) else ""
  {
    assert Init(items + [item]) == items;
  }

  lemma {:induction false} KeyTextParts(items: seq<Pending>, key: string)
    ensures KeyText(items, key) == FirstText(items, key) + TextBehind(items, key)
  {
    if items != [] {
      KeyTextParts(Init(items), key);
      if FirstWithKey(Init(items), Some(key)).Some? {
        var text := if Last(items).coalesceKey == Some(key) then TextOf(Last(items).event) else "";
        Associative(FirstText(Init(items), key), TextBehind(Init(items), key), text);
      } else {
        NoTextWithoutKey(Init(items), key);
      }
    }
  }

  lemma {:induction false} NoTextWithoutKey(items: seq<Pending>, key: string)
    requires FirstWithKey(items, Some(key)).None?
    ensures KeyText(items, key) == ""
  {
    if items != [] { NoTextWithoutKey(Init(items), key); }
  }

  /** Coalescing inserts the new text behind the first item of its key. */
  lemma {:induction false} MergeInserts(items: seq<Pending>, key: string, text: string, other: string)
    requires FirstWithKey(items, Some(key)).Some? && HasText(FirstWithKey(items, Some(key)).value.event)
    ensures KeyText(Merge(items, Some(key), text), other)
         == if other == key then (FirstText(items, key) + text) + TextBehind(items, key) else KeyText(items, other)
  {
    var merged, last := Merge(items, Some(key), text), Last(items);
    var lastText := if last.coalesceKey == Some(other) then TextOf(last.event) else "";
    if FirstWithKey(Init(items), Some(key)).Some? {
      MergeInserts(Init(items), key, text, other);
      KeyTextOneMore(Merge(Init(items), Some(key), text), last, other);
      if other == key { Associative(FirstText(items, key) + text, TextBehind(Init(items), key), lastText); }
    } else {
      KeyTextOneMore(Init(items), WithText(last, TextOf(last.event) + text), other);
      if other == key { NoTextWithoutKey(Init(items), key); }
    }
  }

  lemma Cancel(a: string, b: string, c: string)
    ensures a + b == a + c <==> b == c
  {
    if a + b == a + c { assert b == (a + b)[|a|..] && c == (a + c)[|a|..]; }
  }

  lemma CancelEnd(a: string, b: string, c: string)
    ensures a + c == b + c <==> a == b
  {
    if a + c == b + c { assert |a| == |b| && a == (a + c)[..|a|] && b == (b + c)[..|b|]; }
  }

  lemma CoalescingKeepsTextIff(pending: seq<Pending>, item: Pending, key: string)
    requires Coalesces(pending, item)
    ensures KeyText(Merge(pending, item.coalesceKey, TextOf(item.event)), key)
        == KeyText(pending, key) + KeyText([item], key)
       <==> KeepsText(pending, item, key)
  {
    hide KeyText, Merge, FirstText, TextBehind;
    var text, first, behind := TextOf(item.event), FirstText(pending, key), TextBehind(pending, key);
    TextOfOne(item, key);
    MergeInserts(pending, item.coalesceKey.value, text, key);
    if item.coalesceKey == Some(key) {
      KeyTextParts(pending, key);
      Associative(first, text, behind);
      Associative(first, behind, text);
      Cancel(first, text + behind, behind + text);
    }
  }

  lemma TextOfOne(item: Pending, key: string)
    ensures KeyText([item], key) == if item.coalesceKey == Some(key) then TextOf(item.event) else ""
  {
    assert Init([item]) == [];
  }

  lemma ReplacingObservationKeepsTextIff(pending: seq<Pending>, item: Pending, key: string)
    requires !Coalesces(pending, item)
    ensures var kept := if item.snapshot then DropSnapshots(pending) else pending;
            KeyText(kept + [item], key) == KeyText(pending, key) + KeyText([item], key)
            <==> KeepsText(pending, item, key)
  {
    hide KeyText, DropSnapshots, Snapshots;
    var kept := if item.snapshot then DropSnapshots(pending) else pending;
    KeyTextSplits(kept, [item], key);
    CancelEnd(KeyText(kept, key), KeyText(pending, key), KeyText([item], key));
    if item.snapshot { ReplacingKeepsTextIff(pending, key); }
  }

  /** One observation that does not degrade, whatever is pending: exactly when it keeps a key's
      text in the order observed. */
  lemma ObserveKeepsTextIff(limits: Limits, box: Box, item: Pending, key: string)
    requires !box.degraded && !Outbox.Observe(limits, box, item).degraded
    ensures KeyText(Outbox.Observe(limits, box, item).pending, key) == KeyText(box.pending, key) + KeyText([item], key)
       <==> KeepsText(box.pending, item, key)
  {
    hide KeyText, KeepsText, Merge, DropSnapshots, Fits;
    if Coalesces(box.pending, item) {
      CoalescingKeepsTextIff(box.pending, item, key);
    } else {
      ReplacingObservationKeepsTextIff(box.pending, item, key);
    }
  }

  /** The key's text, numbered and pending, is the observed text in every state of the run. */
  ghost predicate TextKeptThroughout(producer: Producer, limits: Limits, ops: seq<Op>, key: string)
    requires IsRun(producer, limits, ops)
    decreases |ops|
  {
    var t := Run(producer, limits, ops);
    && KeyText(t.numbered + t.box.pending, key) == KeyText(t.observed, key)
    && (ops == [] || TextKeptThroughout(producer, limits, Init(ops), key))
  }

  ghost predicate EachKeepsText(producer: Producer, limits: Limits, ops: seq<Op>, key: string)
    requires IsRun(producer, limits, ops)
    decreases |ops|
  {
    ops == [] ||
    (&& EachKeepsText(producer, limits, Init(ops), key)
     && (Last(ops).Observe? ==> KeepsText(Run(producer, limits, Init(ops)).box.pending, Last(ops).item, key)))
  }

  /** Over every run that never degraded, whatever is observed: a key's text is kept in order in
      each state if and only if each observation keeps it. */
  lemma {:induction false} TextKeptIff(producer: Producer, limits: Limits, ops: seq<Op>, key: string)
    requires IsRun(producer, limits, ops) && !Run(producer, limits, ops).everDegraded
    ensures TextKeptThroughout(producer, limits, ops, key) <==> EachKeepsText(producer, limits, ops, key)
    ensures !Run(producer, limits, ops).box.degraded
    decreases |ops|
  {
    hide KeyText, KeepsText, Outbox.Observe;
    if ops == [] {
      assert START.numbered + START.box.pending == START.observed;
    } else {
      var t := Run(producer, limits, Init(ops));
      TextKeptIff(producer, limits, Init(ops), key);
      match Last(ops) {
        case Observe(item) =>
          ObserveKeepsTextIff(limits, t.box, item, key);
          ObservedTextIff(t.numbered, t.box.pending, Outbox.Observe(limits, t.box, item).pending, t.observed, item,
            key);
        case Assign(_) =>
          assert (t.numbered + t.box.pending) + [] == t.numbered + t.box.pending;
        case _ =>
      }
    }
  }

  /** In a state that has kept the text, the next has if and only if the pending text grew by the
      item's. */
  lemma ObservedTextIff(numbered: seq<Pending>, pending: seq<Pending>, pending': seq<Pending>, observed: seq<Pending>,
      item: Pending, key: string)
    ensures KeyText(numbered + pending, key) == KeyText(observed, key) ==>
              (KeyText(numbered + pending', key) == KeyText(observed + [item], key)
               <==> KeyText(pending', key) == KeyText(pending, key) + KeyText([item], key))
  {
    hide KeyText;
    KeyTextSplits(numbered, pending, key);
    KeyTextSplits(numbered, pending', key);
    KeyTextSplits(observed, [item], key);
    Associative(KeyText(numbered, key), KeyText(pending, key), KeyText([item], key));
    Cancel(KeyText(numbered, key), KeyText(pending', key), KeyText(pending, key) + KeyText([item], key));
  }

  /** The condition on keys is needed: a snapshot observed under a coalesce key takes the key's
      text with it when the next snapshot replaces it. */
  lemma KeyedSnapshotLosesText(producer: Producer, limits: Limits)
    requires limits.maxItems >= 2
    requires forall p: seq<Pending> :: |p| <= 2 ==> Bytes(limits, [], p) <= limits.maxBytes
    ensures var ops := [Observe(Pending(Body("process_state", Some("a"), ""), Some("k"), true, true)),
                        Observe(Pending(Body("process_state", Some("b"), ""), None, true, true))];
            && IsRun(producer, limits, ops)
            && !Run(producer, limits, ops).everDegraded
            && KeyText(Run(producer, limits, ops).box.pending, "k") == ""
            && KeyText(Run(producer, limits, ops).observed, "k") == "a"
  {
    var first := Pending(Body("process_state", Some("a"), ""), Some("k"), true, true);
    var second := Pending(Body("process_state", Some("b"), ""), None, true, true);
    var none: seq<Pending> := [];
    ObserveFirst(limits, first);
    assert FirstWithKey([first], None).None? || !Coalesces([first], second);
    assert DropSnapshots([first]) == none by { assert Init([first]) == none; }
    assert none + [second] == [second] && Bytes(limits, [], [second]) <= limits.maxBytes;
    var box1 := EMPTY_BOX.(pending := [first]);
    assert Outbox.Observe(limits, box1, second) == EMPTY_BOX.(pending := [second]);
    assert KeyText([first], "k") == KeyText(none, "k") + "a" == "a" && KeyText([second], "k") == "" by {
      assert Init([first]) == none && Init([second]) == none;
    }
    assert KeyText([first, second], "k") == KeyText([first], "k") + "" by { assert Init([first, second]) == [first]; }
    var ops := [Observe(first), Observe(second)];
    assert Init([Observe(first)]) == [] && Init(ops) == [Observe(first)];
    hide Outbox.Observe, KeyText;
    var t1 := Trace(box1, [first], [], [], false);
    assert IsRun(producer, limits, []) && Run(producer, limits, []) == START;
    assert IsRun(producer, limits, [Observe(first)]) && Run(producer, limits, [Observe(first)]) == t1;
    assert Run(producer, limits, ops) == Step(producer, limits, t1, Observe(second));
    assert t1.observed + [second] == [first, second];
  }

  /** An observation of an empty outbox. */
  lemma ObserveFirst(limits: Limits, item: Pending)
    requires Fits(limits, [], [item])
    ensures Outbox.Observe(limits, EMPTY_BOX, item) == EMPTY_BOX.(pending := [item])
  {
    var none: seq<Pending> := [];
    assert FirstWithKey(none, item.coalesceKey).None? && DropSnapshots(none) == none && none + [item] == [item];
  }

  function Delta(text: string): Pending {
    Pending(Body("assistant_delta", Some(text), ""), Some("k"), false, false)
  }

  function Snapshot(key: Option<string>): Pending {
    Pending(Body("process_state", None, ""), key, true, true)
  }

  /** Nor is it enough that the replaced snapshot bears no text: once it is gone, text of its key
      coalesces in front of text that was observed before. */
  lemma KeyedSnapshotReordersText(producer: Producer, limits: Limits)
    requires limits.maxItems >= 4
    requires forall p: seq<Pending> :: |p| <= 4 ==> Bytes(limits, [], p) <= limits.maxBytes
    ensures var ops := [Observe(Snapshot(Some("k"))), Observe(Delta("x")), Observe(Delta("y")),
        Observe(Snapshot(None)), Observe(Delta("z"))];
            && IsRun(producer, limits, ops) && !Run(producer, limits, ops).everDegraded
            && KeyText(Run(producer, limits, ops).box.pending, "k") == "xzy"
            && KeyText(Run(producer, limits, ops).observed, "k") == "xyz"
  {
    hide *;
    var a, x, y, b, z := Snapshot(Some("k")), Delta("x"), Delta("y"), Snapshot(None), Delta("z");
    var ops := [Observe(a), Observe(x), Observe(y), Observe(b), Observe(z)];
    var xz := ReorderingBoxes(limits, a, x, y, b, z);
    StartOf(producer, limits, ops);
    ObserveStep(producer, limits, ops, 0, [], [a], []);
    ObserveStep(producer, limits, ops, 1, [a], [a, x], [] + [a]);
    ObserveStep(producer, limits, ops, 2, [a, x], [a, x, y], [] + [a] + [x]);
    ObserveStep(producer, limits, ops, 3, [a, x, y], [x, y, b], [] + [a] + [x] + [y]);
    ObserveStep(producer, limits, ops, 4, [x, y, b], [xz, y, b], [] + [a] + [x] + [y] + [b]);
    ReorderedTexts(a, x, y, b, z, xz);
    assert ops[..5] == ops && [] + [a] + [x] + [y] + [b] + [z] == [a, x, y, b, z];
    EndOf([xz, y, b], [a, x, y, b, z]);
  }

  /** A healthy box in which nothing has been numbered. */
  function Unnumbered(pending: seq<Pending>, observed: seq<Pending>): Trace {
    Trace(EMPTY_BOX.(pending := pending), observed, [], [], false)
  }

  lemma StartOf(producer: Producer, limits: Limits, ops: seq<Op>)
    ensures IsRun(producer, limits, ops[..0]) && Run(producer, limits, ops[..0]) == Unnumbered([], [])
  {
    assert ops[..0] == [];
  }

  lemma EndOf(pending: seq<Pending>, observed: seq<Pending>)
    ensures var t := Unnumbered(pending, observed);
        t.box.pending == pending && t.observed == observed && !t.everDegraded
  {
  }

  lemma ObserveStep(producer: Producer, limits: Limits, ops: seq<Op>, k: nat, pending: seq<Pending>,
      pending': seq<Pending>, observed: seq<Pending>)
    requires k < |ops| && ops[k].Observe?
    requires IsRun(producer, limits, ops[..k]) && Run(producer, limits, ops[..k]) == Unnumbered(pending, observed)
    requires Outbox.Observe(limits, EMPTY_BOX.(pending := pending), ops[k].item) == EMPTY_BOX.(pending := pending')
    ensures IsRun(producer, limits, ops[..k + 1])
    ensures Run(producer, limits, ops[..k + 1]) == Unnumbered(pending', observed + [ops[k].item])
  {
    hide Outbox.Observe;
    assert Init(ops[..k + 1]) == ops[..k] && Last(ops[..k + 1]) == ops[k];
  }

  lemma ReorderingBoxes(limits: Limits, a: Pending, x: Pending, y: Pending, b: Pending, z: Pending)
    returns (xz: Pending)
    requires limits.maxItems >= 4
    requires forall p: seq<Pending> :: |p| <= 4 ==> Bytes(limits, [], p) <= limits.maxBytes
    requires a == Snapshot(Some("k")) && x == Delta("x") && y == Delta("y") && b == Snapshot(None) && z == Delta("z")
    ensures xz == WithText(x, "x" + "z")
    ensures Outbox.Observe(limits, EMPTY_BOX.(pending := []), a) == EMPTY_BOX.(pending := [a])
    ensures Outbox.Observe(limits, EMPTY_BOX.(pending := [a]), x) == EMPTY_BOX.(pending := [a, x])
    ensures Outbox.Observe(limits, EMPTY_BOX.(pending := [a, x]), y) == EMPTY_BOX.(pending := [a, x, y])
    ensures Outbox.Observe(limits, EMPTY_BOX.(pending := [a, x, y]), b) == EMPTY_BOX.(pending := [x, y, b])
    ensures Outbox.Observe(limits, EMPTY_BOX.(pending := [x, y, b]), z) == EMPTY_BOX.(pending := [xz, y, b])
  {
    hide Bytes, Outbox.Observe;
    assert Bytes(limits, [], [a]) <= limits.maxBytes;
    ObserveFirst(limits, a);
    FirstIs([a], Some("k"));
    Appends(limits, [a], x);
    FirstIs([a, x], Some("k"));
    Appends(limits, [a, x], y);
    Replaces(limits, a, x, y, b);
    FirstIs([x, y, b], Some("k"));
    xz := WithText(x, "x" + "z");
    CoalescesFirst(limits, x, y, b, z);
  }

  lemma {:induction false} FirstIs(items: seq<Pending>, key: Option<string>)
    requires items != [] && items[0].coalesceKey == key
    ensures FirstWithKey(items, key) == Some(items[0])
  {
    if |items| > 1 { FirstIs(Init(items), key); } else { assert Init(items) == []; }
  }

  lemma Appends(limits: Limits, pending: seq<Pending>, item: Pending)
    requires !Coalesces(pending, item) && !item.snapshot && Fits(limits, [], pending + [item])
    ensures Outbox.Observe(limits, EMPTY_BOX.(pending := pending), item) == EMPTY_BOX.(pending := pending + [item])
  {
  }

  lemma Replaces(limits: Limits, a: Pending, x: Pending, y: Pending, b: Pending)
    requires a.snapshot && !x.snapshot && !y.snapshot && b.snapshot && b.coalesceKey.None?
        && Fits(limits, [], [x, y, b])
    ensures Outbox.Observe(limits, EMPTY_BOX.(pending := [a, x, y]), b) == EMPTY_BOX.(pending := [x, y, b])
  {
    hide Fits;
    assert Init([a, x, y]) == [a, x] && Init([a, x]) == [a] && Init([a]) == [];
    var none: seq<Pending> := [];
    assert none + [a] == [a] && [a] + [x] == [a, x] && [a, x] + [y] == [a, x, y];
    DropOneMore(none, a);
    DropOneMore([a], x);
    DropOneMore([a, x], y);
    assert none + [x] == [x] && [x] + [y] == [x, y];
    assert [x, y] + [b] == [x, y, b];
  }

  lemma DropOneMore(items: seq<Pending>, item: Pending)
    ensures DropSnapshots(items + [item]) == if item.snapshot then DropSnapshots(items)
        else DropSnapshots(items) + [item]
  {
    assert Init(items + [item]) == items;
  }

  lemma CoalescesFirst(limits: Limits, x: Pending, y: Pending, b: Pending, z: Pending)
    requires x == Delta("x") && z == Delta("z") && FirstWithKey([x, y, b], Some("k")) == Some(x)
    requires y == Delta("y") && b == Snapshot(None) && Fits(limits, [], [WithText(x, "x" + "z"), y, b])
    ensures Outbox.Observe(limits, EMPTY_BOX.(pending := [x, y, b]), z)
        == EMPTY_BOX.(pending := [WithText(x, "x" + "z"), y, b])
  {
    hide Fits;
    FirstIs([x, y], Some("k"));
    FirstIs([x], Some("k"));
    assert Init([x, y, b]) == [x, y] && Init([x, y]) == [x] && Init([x]) == [];
    assert Merge([x], Some("k"), "z") == [WithText(x, "x" + "z")];
    assert Merge([x, y], Some("k"), "z") == [WithText(x, "x" + "z"), y];
    assert Merge([x, y, b], Some("k"), "z") == [WithText(x, "x" + "z"), y, b];
  }

  lemma ReorderedTexts(a: Pending, x: Pending, y: Pending, b: Pending, z: Pending, xz: Pending)
    requires a == Snapshot(Some("k")) && x == Delta("x") && y == Delta("y") && b == Snapshot(None) && z == Delta("z")
    requires xz == WithText(x, "x" + "z")
    ensures KeyText([xz, y, b], "k") == "xzy" && KeyText([a, x, y, b, z], "k") == "xyz"
  {
    assert Init([xz, y, b]) == [xz, y] && Init([xz, y]) == [xz] && Init([xz]) == [];
    assert KeyText([xz], "k") == "xz" && KeyText([xz, y], "k") == "xzy";
    assert Init([a, x, y, b, z]) == [a, x, y, b] && Init([a, x, y, b]) == [a, x, y];
    assert Init([a, x, y]) == [a, x] && Init([a, x]) == [a] && Init([a]) == [];
    assert KeyText([a], "k") == "" && KeyText([a, x], "k") == "x" && KeyText([a, x, y], "k") == "xy";
  }

  // ---------------------------------------------------------------- recovery and gaps

  ghost predicate GapLeft(box: Box) {
    HasGap(box.pending) || exists f :: f in box.retained && f.event.Gap?
  }

  lemma {:induction false} FromHas(frames: seq<Publish>, first: int)
    ensures forall f :: f in From(frames, first) <==> f in frames && f.sequence >= first
  {
    if frames != [] {
      FromHas(Init(frames), first);
      assert frames == Init(frames) + [Last(frames)];
    }
  }

  /** That gap need not be the last one: a box that degrades again while a mark is set leaves the
      degraded state with a newer gap still pending. */
  lemma RecoveryMayLeaveAGap(producer: Producer, limits: Limits, item: Pending, stamp: Stamp)
    requires limits.maxItems == 1 && item.mandatory && !item.snapshot && !Keyed(item) && !item.event.Gap?
    requires Bytes(limits, [], [item]) <= limits.maxBytes
    ensures var ops := [Observe(item), Observe(item), Assign([stamp]), Observe(item), Acknowledge(1)];
            && IsRun(producer, limits, ops)
            && !Run(producer, limits, ops).box.degraded
            && Run(producer, limits, ops).box.pending == [GapItem(2)]
  {
    hide BoxAfter, Bytes, Outbox.Observe;
    var ops := [Observe(item), Observe(item), Assign([stamp]), Observe(item), Acknowledge(1)];
    var b1, b2, b3, b4, b5 := BoxesToTheGap(producer, limits, item, stamp);
    NoStepYet(producer, limits, ops);
    RunStep(producer, limits, ops, 0, EMPTY_BOX, b1);
    RunStep(producer, limits, ops, 1, b1, b2);
    RunStep(producer, limits, ops, 2, b2, b3);
    RunStep(producer, limits, ops, 3, b3, b4);
    RunStep(producer, limits, ops, 4, b4, b5);
    assert ops[..5] == ops;
  }

  lemma NoStepYet(producer: Producer, limits: Limits, ops: seq<Op>)
    ensures IsRun(producer, limits, ops[..0]) && Run(producer, limits, ops[..0]).box == EMPTY_BOX
  {
    assert ops[..0] == [];
  }

  lemma BoxesToTheGap(producer: Producer, limits: Limits, item: Pending, stamp: Stamp)
    returns (b1: Box, b2: Box, b3: Box, b4: Box, b5: Box)
    requires limits.maxItems == 1 && item.mandatory && !item.snapshot && !Keyed(item)
    requires Bytes(limits, [], [item]) <= limits.maxBytes
    ensures b1 == BoxAfter(producer, limits, EMPTY_BOX, Observe(item))
        && b2 == BoxAfter(producer, limits, b1, Observe(item))
    ensures |b2.pending| == 1 && b3 == BoxAfter(producer, limits, b2, Assign([stamp]))
    ensures b4 == BoxAfter(producer, limits, b3, Observe(item)) && b5 == BoxAfter(producer, limits, b4, Acknowledge(1))
    ensures !b5.degraded && b5.pending == [GapItem(2)]
  {
    hide Outbox.Observe, Outbox.Assign, Bytes, From;
    var gap := Publish(stamp.eventId, producer.processId, producer.instanceId, 1, stamp.occurredAt, Gap(1));
    b1, b2 := Box([item], [], 1, false, None), Box([GapItem(1)], [], 1, true, None);
    b3, b4 := Box([], [gap], 2, true, Some(1)), Box([GapItem(2)], [gap], 2, true, Some(1));
    b5 := Box([GapItem(2)], [], 2, false, None);
    ObserveFirst(limits, item);
    Overfull(limits, b1, item);
    Overfull(limits, b3, item);
    AssignOnly(producer, b2, stamp);
    BeforeIsDropped(gap, 2);
  }

  lemma BeforeIsDropped(frame: Publish, first: int)
    requires frame.sequence < first
    ensures From([frame], first) == []
  {
    assert Init([frame]) == [];
  }

  /** One item is already too many beside what the box holds. */
  lemma Overfull(limits: Limits, box: Box, item: Pending)
    requires limits.maxItems == 1 && item.mandatory && !item.snapshot && !Keyed(item)
    requires |box.retained| + |box.pending| == 1 && forall k :: 0 <= k < |box.pending| ==> !box.pending[k].snapshot
    ensures Outbox.Observe(limits, box, item) == box.(degraded := true, pending := [GapItem(box.nextSequence)])
  {
    hide Bytes, FirstWithKey, Merge, DropSnapshots, LastSnapshot;
    var next := box.pending + [item];
    NoSnapshot(next);
    assert !Coalesces(box.pending, item) && !Fits(limits, box.retained, next);
    assert Trim(limits, box.retained, [GapItem(box.nextSequence)]) == [GapItem(box.nextSequence)];
  }

  lemma {:induction false} NoSnapshot(items: seq<Pending>)
    requires forall k :: 0 <= k < |items| ==> !items[k].snapshot
    ensures LastSnapshot(items).None?
  {
    if items != [] { NoSnapshot(Init(items)); }
  }

  lemma AssignOnly(producer: Producer, box: Box, stamp: Stamp)
    requires box == Box([GapItem(1)], [], 1, true, None)
    ensures var gap := Publish(stamp.eventId, producer.processId, producer.instanceId, 1, stamp.occurredAt, Gap(1));
            Outbox.Assign(producer, box, [stamp]) == Box([], [gap], 2, true, Some(1))
  {
    var gap := Publish(stamp.eventId, producer.processId, producer.instanceId, 1, stamp.occurredAt, Gap(1));
    assert Numbered(producer, box.pending, [stamp], 1) == [gap];
    assert box.pending[0].event.Gap?;
    assert [] + [gap] == [gap];
  }

  lemma RunStep(producer: Producer, limits: Limits, ops: seq<Op>, k: nat, before: Box, after: Box)
    requires k < |ops| && IsRun(producer, limits, ops[..k]) && Run(producer, limits, ops[..k]).box == before
    requires (ops[k].Assign? ==> |ops[k].stamps| == |before.pending|)
        && after == BoxAfter(producer, limits, before, ops[k])
    ensures IsRun(producer, limits, ops[..k + 1]) && Run(producer, limits, ops[..k + 1]).box == after
  {
    hide BoxAfter;
    assert Init(ops[..k + 1]) == ops[..k] && Last(ops[..k + 1]) == ops[k];
  }


  // ---------------------------------------------------------------- which runs leave a gap

  /** The pending items of an observation before the bounds are checked. */
  function Unbounded(pending: seq<Pending>, item: Pending): seq<Pending> {
    if Coalesces(pending, item) then Merge(pending, item.coalesceKey, TextOf(item.event))
    else (if item.snapshot then DropSnapshots(pending) else pending) + [item]
  }

  /** An observation on which the box degrades, again or for the first time. */
  predicate Degrades(limits: Limits, box: Box, op: Op) {
    && op.Observe? && !(box.degraded && !op.item.mandatory && !op.item.snapshot)
    && !Fits(limits, box.retained, Unbounded(box.pending, op.item))
  }

  /** The numbers of the gap markers made so far: each is made for the number it will get. */
  function GapNumbers(producer: Producer, limits: Limits, ops: seq<Op>): set<int>
    requires IsRun(producer, limits, ops)
  {
    if ops == [] then {}
    else
      var box := Run(producer, limits, Init(ops)).box;
      GapNumbers(producer, limits, Init(ops)) + if Degrades(limits, box, Last(ops)) then {box.nextSequence} else {}
  }

  /** Those made after the assignment that set the recovery mark. */
  function GapsSinceMark(producer: Producer, limits: Limits, ops: seq<Op>): set<int>
    requires IsRun(producer, limits, ops)
  {
    if ops == [] then {}
    else
      var box, box' := Run(producer, limits, Init(ops)).box, Run(producer, limits, ops).box;
      if box.recovery.None? && box'.recovery.Some? then {}
      else
        GapsSinceMark(producer, limits, Init(ops))
        + if Degrades(limits, box, Last(ops)) then {box.nextSequence} else {}
  }

  /** The highest number that was acknowledged or resumed past. */
  function Passed(producer: Producer, limits: Limits, ops: seq<Op>): int
    requires IsRun(producer, limits, ops)
  {
    if ops == [] then 0
    else
      var before := Passed(producer, limits, Init(ops));
      match Last(ops)
      case Acknowledge(sequence) => Max(before, sequence)
      case Resume(next) => if ResumeConflict(Run(producer, limits, Init(ops)).box, next) then before
        else Max(before, next - 1)
      case _ => before
  }

  /** Only numbers that were given are acknowledged. */
  predicate AcknowledgesGiven(producer: Producer, limits: Limits, ops: seq<Op>)
    requires IsRun(producer, limits, ops)
  {
    ops == [] ||
    (&& AcknowledgesGiven(producer, limits, Init(ops))
     && (Last(ops).Acknowledge? ==> Last(ops).sequence < Run(producer, limits, Init(ops)).box.nextSequence))
  }

  ghost predicate GapRetained(box: Box, n: int) {
    exists f :: f in box.retained && f.event.Gap? && f.sequence == n
  }

  /** The gap markers made so far are pending, retained or passed. */
  ghost predicate GapsAccounted(box: Box, gaps: set<int>, passed: int) {
    && 0 <= passed < box.nextSequence
    && (forall n :: n in gaps ==> n <= box.nextSequence)
    && (HasGap(box.pending) <==> box.nextSequence in gaps)
    && (forall f :: f in box.retained ==>
        passed < f.sequence < box.nextSequence && (f.event.Gap? ==> f.sequence in gaps))
    && (forall n :: n in gaps && passed < n < box.nextSequence ==> GapRetained(box, n))
  }

  /** A mark lies between the gaps before it and those since. */
  predicate MarkDivides(box: Box, gaps: set<int>, since: set<int>) {
    box.recovery.Some? ==>
      box.recovery.value < box.nextSequence && forall n :: n in gaps + since ==>
        (n in since <==> n > box.recovery.value)
  }

  lemma ObserveGapIff(limits: Limits, box: Box, item: Pending)
    requires PendingShape(box) && !item.event.Gap?
    requires Fits(limits, box.retained, box.pending) || box.pending == [] || box.pending == [GapItem(box.nextSequence)]
    ensures var after := Outbox.Observe(limits, box, item);
            && (HasGap(after.pending) <==> HasGap(box.pending) || Degrades(limits, box, Observe(item)))
            && after == box.(pending := after.pending, degraded := after.degraded)
  {
    ObserveShape(limits, box, item);
    var pending := box.pending;
    if box.degraded && !item.mandatory && !item.snapshot { return; }
    if Degrades(limits, box, Observe(item)) {
      assert Outbox.Observe(limits, box, item).pending[0].event.Gap?;
    } else {
      UnboundedGap(pending, item);
    }
  }

  lemma UnboundedGap(pending: seq<Pending>, item: Pending)
    requires !item.event.Gap?
    ensures HasGap(Unbounded(pending, item)) ==> HasGap(pending)
  {
    if Coalesces(pending, item) {
      MergeTouchesNoGap(pending, item.coalesceKey, TextOf(item.event));
    } else {
      DropHasNoNew(pending);
    }
  }

  lemma {:induction false} DropHasNoNew(items: seq<Pending>)
    ensures forall k :: 0 <= k < |DropSnapshots(items)| ==> DropSnapshots(items)[k] in items
  {
    if items != [] {
      DropHasNoNew(Init(items));
      assert forall x :: x in Init(items) ==> x in items;
      assert Last(items) in items;
    }
  }

  lemma AssignAccounts(producer: Producer, box: Box, stamps: seq<Stamp>, gaps: set<int>, passed: int)
    requires GapsAccounted(box, gaps, passed) && PendingShape(box) && |stamps| == |box.pending|
    ensures GapsAccounted(Outbox.Assign(producer, box, stamps), gaps, passed)
  {
    var after := Outbox.Assign(producer, box, stamps);
    var batch := Numbered(producer, box.pending, stamps, box.nextSequence);
    assert forall f :: f in after.retained <==> f in box.retained || f in batch;
    forall f | f in batch ensures passed < f.sequence < after.nextSequence && (f.event.Gap? ==> f.sequence in gaps) {
      var k :| 0 <= k < |batch| && batch[k] == f;
      if f.event.Gap? {
        assert box.pending[k].event.Gap?;
      }
    }
    forall n | n in gaps && passed < n < after.nextSequence ensures GapRetained(after, n) {
      if n < box.nextSequence {
        var f :| f in box.retained && f.event.Gap? && f.sequence == n;
        assert f in after.retained;
      } else {
        assert batch[0] in batch && batch[0] in after.retained && batch[0].event == box.pending[0].event;
      }
    }
  }

  lemma DropAccounts(box: Box, after: Box, gaps: set<int>, passed: int, first: int)
    requires GapsAccounted(box, gaps, passed) && first <= box.nextSequence
    requires after == box.(retained := From(box.retained, first), degraded := after.degraded,
        recovery := after.recovery)
    ensures GapsAccounted(after, gaps, Max(passed, first - 1))
  {
    FromHas(box.retained, first);
    forall n | n in gaps && Max(passed, first - 1) < n < box.nextSequence ensures GapRetained(after, n) {
      var f :| f in box.retained && f.event.Gap? && f.sequence == n;
      assert f in after.retained;
    }
  }

  lemma AssignDivides(producer: Producer, box: Box, stamps: seq<Stamp>, gaps: set<int>, since: set<int>)
    requires MarkDivides(box, gaps, since) && |stamps| == |box.pending|
        && (forall n :: n in gaps ==> n <= box.nextSequence)
    ensures var after := Outbox.Assign(producer, box, stamps);
            MarkDivides(after, gaps, if box.recovery.None? && after.recovery.Some? then {} else since)
  {
    var after := Outbox.Assign(producer, box, stamps);
    var batch := Numbered(producer, box.pending, stamps, box.nextSequence);
    if box.recovery.None? && after.recovery.Some? {
      assert batch != [] && Last(box.retained + batch) == Last(batch);
    }
  }

  ghost predicate GapsTold(producer: Producer, limits: Limits, ops: seq<Op>)
    requires IsRun(producer, limits, ops)
  {
    var box := Run(producer, limits, ops).box;
    && GapsAccounted(box, GapNumbers(producer, limits, ops), Passed(producer, limits, ops))
    && MarkDivides(box, GapNumbers(producer, limits, ops), GapsSinceMark(producer, limits, ops))
    && GapsSinceMark(producer, limits, ops) <= GapNumbers(producer, limits, ops)
  }

  lemma {:induction false} GapsToldAlways(producer: Producer, limits: Limits, ops: seq<Op>)
    requires IsRun(producer, limits, ops) && NoGapObserved(ops) && AcknowledgesGiven(producer, limits, ops)
    ensures GapsTold(producer, limits, ops)
    decreases |ops|
  {
    hide GapsAccounted, MarkDivides, Degradation, Outbox.Observe, Outbox.Assign, Degrades, From;
    if ops == [] {
      StartTold();
    } else {
      GapsToldAlways(producer, limits, Init(ops));
      DegradationAlways(producer, limits, Init(ops));
      var t, op := Run(producer, limits, Init(ops)), Last(ops);
      var gaps, since := GapNumbers(producer, limits, Init(ops)), GapsSinceMark(producer, limits, Init(ops));
      ShapeOf(limits, t);
      match op {
        case Observe(item) =>
          assert ops[|ops| - 1].Observe?;
          ObserveTold(limits, t.box, item, gaps, since, Passed(producer, limits, Init(ops)));
        case Assign(stamps) =>
          AssignAccounts(producer, t.box, stamps, gaps, Passed(producer, limits, Init(ops)));
          GapBound(t.box, gaps, Passed(producer, limits, Init(ops)));
          AssignDivides(producer, t.box, stamps, gaps, since);
          NoDegrade(limits, t.box, op, gaps, since);
        case _ =>
          NoDegrade(limits, t.box, op, gaps, since);
          DropTold(t.box, op, gaps, since, Passed(producer, limits, Init(ops)));
      }
    }
  }

  lemma StartTold()
    ensures GapsAccounted(EMPTY_BOX, {}, 0) && MarkDivides(EMPTY_BOX, {}, {})
  {
  }

  lemma ShapeOf(limits: Limits, t: Trace)
    requires Degradation(limits, t)
    ensures PendingShape(t.box)
    ensures Fits(limits, t.box.retained, t.box.pending) || t.box.pending == []
        || t.box.pending == [GapItem(t.box.nextSequence)]
  {
  }

  lemma GapBound(box: Box, gaps: set<int>, passed: int)
    requires GapsAccounted(box, gaps, passed)
    ensures forall n :: n in gaps ==> n <= box.nextSequence
  {
  }

  lemma NoDegrade(limits: Limits, box: Box, op: Op, gaps: set<int>, since: set<int>)
    requires !op.Observe?
    ensures !Degrades(limits, box, op) && gaps + {} == gaps && since + {} == since
  {
  }

  lemma ObserveTold(limits: Limits, box: Box, item: Pending, gaps: set<int>, since: set<int>, passed: int)
    requires GapsAccounted(box, gaps, passed) && MarkDivides(box, gaps, since) && PendingShape(box) && !item.event.Gap?
    requires Fits(limits, box.retained, box.pending) || box.pending == [] || box.pending == [GapItem(box.nextSequence)]
    ensures var after := Outbox.Observe(limits, box, item);
            var more := if Degrades(limits, box, Observe(item)) then {box.nextSequence} else {};
            && GapsAccounted(after, gaps + more, passed) && MarkDivides(after, gaps + more, since + more)
            && after.recovery == box.recovery
  {
    hide Outbox.Observe, Degrades, HasGap, Fits;
    ObserveGapIff(limits, box, item);
    var after := Outbox.Observe(limits, box, item);
    assert forall n :: GapRetained(box, n) ==> GapRetained(after, n);
  }

  lemma DropTold(box: Box, op: Op, gaps: set<int>, since: set<int>, passed: int)
    requires GapsAccounted(box, gaps, passed) && MarkDivides(box, gaps, since)
    requires op.Resume? || (op.Acknowledge? && op.sequence < box.nextSequence)
    ensures op.Acknowledge? ==>
              var after := Outbox.Acknowledge(box, op.sequence);
              && GapsAccounted(after, gaps, Max(passed, op.sequence)) && MarkDivides(after, gaps, since)
              && !(box.recovery.None? && after.recovery.Some?)
    ensures op.Resume? && !ResumeConflict(box, op.next) ==>
              var after := Outbox.Resume(box, op.next);
              && GapsAccounted(after, gaps, Max(passed, op.next - 1)) && MarkDivides(after, gaps, since)
              && after.recovery == box.recovery
  {
    hide GapsAccounted, From;
    if op.Acknowledge? {
      DropAccounts(box, Outbox.Acknowledge(box, op.sequence), gaps, passed, op.sequence + 1);
    } else if !ResumeConflict(box, op.next) {
      DropAccounts(box, Outbox.Resume(box, op.next), gaps, passed, op.next);
    }
  }

  ghost predicate AnyAbove(numbers: set<int>, bound: int) {
    exists n :: n in numbers && n > bound
  }

  /** Over every run without a reload: an acknowledgement that ends the degraded state leaves a gap
      behind if and only if the box degraded again after the assignment that set the mark, for a
      number that nothing has acknowledged or resumed past. */
  lemma RecoveryLeavesAGapIff(producer: Producer, limits: Limits, ops: seq<Op>, sequence: int)
    requires IsRun(producer, limits, ops) && NoGapObserved(ops) && AcknowledgesGiven(producer, limits, ops)
    requires var box := Run(producer, limits, ops).box; Recovers(box, sequence) && sequence < box.nextSequence
    ensures GapLeft(Outbox.Acknowledge(Run(producer, limits, ops).box, sequence))
       <==> AnyAbove(GapsSinceMark(producer, limits, ops), Max(Passed(producer, limits, ops), sequence))
  {
    var box := Run(producer, limits, ops).box;
    var since, passed := GapsSinceMark(producer, limits, ops), Passed(producer, limits, ops);
    GapsToldAlways(producer, limits, ops);
    GapsLeftIff(box, GapNumbers(producer, limits, ops), since, passed, sequence);
  }

  lemma GapsLeftIff(box: Box, gaps: set<int>, since: set<int>, passed: int, sequence: int)
    requires GapsAccounted(box, gaps, passed) && MarkDivides(box, gaps, since) && since <= gaps
    requires Recovers(box, sequence) && sequence < box.nextSequence
    ensures GapLeft(Outbox.Acknowledge(box, sequence)) <==> AnyAbove(since, Max(passed, sequence))
  {
    var after := Outbox.Acknowledge(box, sequence);
    FromHas(box.retained, sequence + 1);
    hide HasGap;
    if GapLeft(after) {
      if HasGap(box.pending) {
        assert box.nextSequence in since;
      } else {
        var f :| f in after.retained && f.event.Gap?;
        assert f.sequence in since;
      }
    }
    if n :| n in since && n > Max(passed, sequence) {
      if n < box.nextSequence {
        assert GapRetained(box, n);
        var f :| f in box.retained && f.event.Gap? && f.sequence == n;
        assert f in after.retained;
      }
    }
  }
}
