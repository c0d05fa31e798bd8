/** The outbox of a bridge: coalescing, numbering, the durable spool and its bounds
    (pi-extension/remote-control/outbox.ts). */
module Outbox {
  import opened Wrappers
  import opened Events

  /** An observed event that has no sequence number yet. */
  datatype Pending = Pending(event: Event, coalesceKey: Option<string>, mandatory: bool, snapshot: bool)

  /** The bounds of the spool.  The byte size of a record's JSON text is left uninterpreted. */
  datatype Limits = Limits(maxItems: int, maxBytes: int, publishedBytes: Publish -> nat, pendingBytes: Pending -> nat)

  datatype Box = Box(pending: seq<Pending>, retained: seq<Publish>, nextSequence: int,
                     degraded: bool, recovery: Option<int>)

  /** The spool file; `nextSequence` is None when the file holds no safe integer there. */
  datatype SpoolFile = SpoolFile(producer: Producer, nextSequence: Option<int>, retained: seq<Publish>,
                                 degraded: bool, recovery: Option<int>)

  const EMPTY_BOX := Box([], [], 1, false, None)

  function Init<T>(s: seq<T>): seq<T>
    requires s != []
  {
    s[..|s| - 1]
  }

  function Last<T>(s: seq<T>): T
    requires s != []
  {
    s[|s| - 1]
  }

  // ---------------------------------------------------------------- size of the spool

  /** The bytes of a JSON array's elements and the commas between them. */
  function ListBytes<T>(s: seq<T>, size: T -> nat): nat {
    if s == [] then 0
    else ListBytes(Init(s), size) + size(Last(s)) + if |s| > 1 then 1 else 0
  }

  /** The length of {"assigned":[...],"pending":[...]}. */
  function Bytes(limits: Limits, retained: seq<Publish>, pending: seq<Pending>): nat {
    28 + ListBytes(retained, limits.publishedBytes) + ListBytes(pending, limits.pendingBytes)
  }

  predicate Fits(limits: Limits, retained: seq<Publish>, pending: seq<Pending>) {
    && |retained| + |pending| <= limits.maxItems
    && Bytes(limits, retained, pending) <= limits.maxBytes
  }

  // ---------------------------------------------------------------- observing

  /** An empty key is falsy in JavaScript, so it does not coalesce. */
  predicate Keyed(item: Pending) {
    item.coalesceKey.Some? && item.coalesceKey.value != ""
  }

  /** The first pending item with the key. */
  function FirstWithKey(pending: seq<Pending>, key: Option<string>): Option<Pending> {
    if pending == [] then None
    else
      var earlier := FirstWithKey(Init(pending), key);
      if earlier.Some? then earlier
      else if Last(pending).coalesceKey == key then Some(Last(pending)) else None
  }

  function WithText(item: Pending, text: string): Pending
    requires item.event.Body?
  {
    item.(event := item.event.(text := Some(text)))
  }

  predicate HasText(event: Event) {
    event.Body? && event.text.Some?
  }

  function TextOf(event: Event): string {
    if HasText(event) then event.text.value else ""
  }

  /** Appends `text` to the first pending item with the key. */
  function Merge(pending: seq<Pending>, key: Option<string>, text: string): (merged: seq<Pending>)
    requires FirstWithKey(pending, key).Some? && HasText(FirstWithKey(pending, key).value.event)
    ensures |merged| == |pending|
  {
    var last := Last(pending);
    if FirstWithKey(Init(pending), key).Some? then Merge(Init(pending), key, text) + [last]
    else Init(pending) + [WithText(last, TextOf(last.event) + text)]
  }

  function DropSnapshots(pending: seq<Pending>): seq<Pending> {
    if pending == [] then []
    else if Last(pending).snapshot then DropSnapshots(Init(pending))
    else DropSnapshots(Init(pending)) + [Last(pending)]
  }

  function LastSnapshot(items: seq<Pending>): Option<Event> {
    if items == [] then None
    else if Last(items).snapshot then Some(Last(items).event)
    else LastSnapshot(Init(items))
  }

  /** Whether an observation is appended to an earlier pending item. */
  predicate Coalesces(pending: seq<Pending>, item: Pending) {
    && Keyed(item)
    && HasText(item.event)
    && var previous := FirstWithKey(pending, item.coalesceKey);
       previous.Some? && HasText(previous.value.event)
  }

  function GapItem(sequence: int): Pending {
    Pending(Gap(sequence), None, true, false)
  }

  function SnapshotItem(event: Event): Pending {
    Pending(event, None, true, true)
  }

  /** Removes items behind the first until the spool fits. */
  function Trim(limits: Limits, retained: seq<Publish>, pending: seq<Pending>): (trimmed: seq<Pending>)
    requires pending != []
    ensures trimmed != [] && trimmed[0] == pending[0] && |trimmed| <= |pending|
    ensures Fits(limits, retained, trimmed) || |trimmed| == 1
    decreases |pending|
  {
    if Fits(limits, retained, pending) || |pending| == 1 then pending
    else Trim(limits, retained, Removed(pending, 1))
  }

  function Degrade(limits: Limits, box: Box, latestSnapshot: Option<Event>): Box {
    var snapshot := if latestSnapshot.Some? then latestSnapshot else LastSnapshot(box.pending);
    var marker := [GapItem(box.nextSequence)];
    var pending := if snapshot.Some? then marker + [SnapshotItem(snapshot.value)] else marker;
    box.(degraded := true, pending := Trim(limits, box.retained, pending))
  }

  function DegradeUnlessFits(limits: Limits, box: Box, latestSnapshot: Option<Event>): Box {
    if Fits(limits, box.retained, box.pending) then box else Degrade(limits, box, latestSnapshot)
  }

  function Observe(limits: Limits, box: Box, item: Pending): Box {
    if box.degraded && !item.mandatory && !item.snapshot then box
    else if Coalesces(box.pending, item) then
      var merged := Merge(box.pending, item.coalesceKey, TextOf(item.event));
      DegradeUnlessFits(limits, box.(pending := merged), None)
    else
      var kept := if item.snapshot then DropSnapshots(box.pending) else box.pending;
      DegradeUnlessFits(limits, box.(pending := kept + [item]), if item.snapshot then Some(item.event) else None)
  }

  // ---------------------------------------------------------------- numbering

  function Numbered(producer: Producer, pending: seq<Pending>, stamps: seq<Stamp>, first: int): (frames: seq<Publish>)
    requires |stamps| == |pending|
    ensures |frames| == |pending|
    ensures forall k :: 0 <= k < |frames| ==>
              frames[k] == Publish(stamps[k].eventId, producer.processId, producer.instanceId, first + k,
                                   stamps[k].occurredAt, pending[k].event)
  {
    seq(|pending|, k requires 0 <= k < |pending| =>
      Publish(stamps[k].eventId, producer.processId, producer.instanceId, first + k,
              stamps[k].occurredAt, pending[k].event))
  }

  predicate HasGap(pending: seq<Pending>) {
    exists k :: 0 <= k < |pending| && pending[k].event.Gap?
  }

  /** `at(-1)?.processSequence` */
  function LastSequence(frames: seq<Publish>): Option<int> {
    if frames == [] then None else Some(Last(frames).sequence)
  }

  function Assign(producer: Producer, box: Box, stamps: seq<Stamp>): Box
    requires |stamps| == |box.pending|
  {
    var retained := box.retained + Numbered(producer, box.pending, stamps, box.nextSequence);
    var assigningRecovery := box.degraded && box.recovery.None? && HasGap(box.pending);
    Box([], retained, box.nextSequence + |box.pending|, box.degraded,
        if assigningRecovery then LastSequence(retained) else box.recovery)
  }

  // ---------------------------------------------------------------- resuming and acknowledging

  /** The frames with sequence number `first` or above. */
  function From(frames: seq<Publish>, first: int): seq<Publish> {
    if frames == [] then []
    else if Last(frames).sequence >= first then From(Init(frames), first) + [Last(frames)]
    else From(Init(frames), first)
  }

  predicate ResumeConflict(box: Box, nextSequence: int) {
    nextSequence > MAX_SAFE_INTEGER || nextSequence < 1 || nextSequence > box.nextSequence
  }

  function Resume(box: Box, nextSequence: int): Box
    requires !ResumeConflict(box, nextSequence)
  {
    box.(retained := From(box.retained, nextSequence))
  }

  /** Whether an acknowledgement ends the degraded state. */
  predicate Recovers(box: Box, sequence: int) {
    box.degraded && box.recovery.Some? && sequence >= box.recovery.value
  }

  function Acknowledge(box: Box, sequence: int): Box {
    var rest := box.(retained := From(box.retained, sequence + 1));
    if Recovers(box, sequence) then rest.(degraded := false, recovery := None) else rest
  }

  // ---------------------------------------------------------------- the spool file

  function Saved(producer: Producer, box: Box): SpoolFile {
    SpoolFile(producer, Some(box.nextSequence), box.retained, box.degraded, box.recovery)
  }

  /** A missing, corrupt or foreign file recovers empty. */
  function Load(producer: Producer, file: Option<SpoolFile>): Box {
    if file.None? || file.value.producer != producer then EMPTY_BOX
    else
      var f := file.value;
      var next := if f.nextSequence.Some? then f.nextSequence.value
                  else if f.retained == [] then 1 else Last(f.retained).sequence + 1;
      Box([], f.retained, next, f.degraded, f.recovery)
  }
}

/** The outbox object of a bridge, proved against the functions of `Outbox`. */
module OutboxClass {
  import opened Wrappers
  import opened Events
  import opened Outbox

  lemma FirstWithKeyIsFirst(pending: seq<Pending>, key: Option<string>, n: nat)
    requires n <= |pending|
    requires forall k :: 0 <= k < n ==> pending[k].coalesceKey != key
    ensures n == |pending| ==> FirstWithKey(pending, key).None?
    ensures n < |pending| && pending[n].coalesceKey == key ==> FirstWithKey(pending, key) == Some(pending[n])
    decreases |pending|
  {
    if n < |pending| {
      FirstWithKeyIsFirst(Init(pending), key, n);
    } else if pending != [] {
      FirstWithKeyIsFirst(Init(pending), key, n - 1);
    }
  }

  lemma MergeAt(pending: seq<Pending>, key: Option<string>, text: string, n: nat)
    requires n < |pending| && pending[n].coalesceKey == key && HasText(pending[n].event)
    requires forall k :: 0 <= k < n ==> pending[k].coalesceKey != key
    ensures FirstWithKey(pending, key) == Some(pending[n])
    ensures Merge(pending, key, text) == pending[n := WithText(pending[n], TextOf(pending[n].event) + text)]
    decreases |pending|
  {
    FirstWithKeyIsFirst(pending, key, n);
    if n < |pending| - 1 {
      MergeAt(Init(pending), key, text, n);
    } else {
      FirstWithKeyIsFirst(Init(pending), key, n);
    }
  }

  class DurableOutbox {
    const producer: Producer
    const limits: Limits
    var pending: seq<Pending>
    var retained: seq<Publish>
    var nextSequence: int
    var degraded: bool
    var recoveryThroughSequence: Option<int>
    /** The file at `path`, replaced as a whole by a rename. */
    var spool: Option<SpoolFile>

    function State(): Box
      reads this
    {
      Box(pending, retained, nextSequence, degraded, recoveryThroughSequence)
    }

    constructor (producer: Producer, limits: Limits, file: Option<SpoolFile>)
      ensures this.producer == producer && this.limits == limits && spool == file
      ensures State() == Load(producer, file)
    {
      this.producer, this.limits, spool := producer, limits, file;
      pending, retained, nextSequence, degraded, recoveryThroughSequence := [], [], 1, false, None;
      if file.Some? && file.value.producer == producer {
        retained := file.value.retained;
        nextSequence := if file.value.nextSequence.Some? then file.value.nextSequence.value
                        else if file.value.retained == [] then 1 else Last(file.value.retained).sequence + 1;
        degraded := file.value.degraded;
        recoveryThroughSequence := file.value.recovery;
      }
    }

    method Observe(item: Pending)
      modifies this`pending, this`degraded
      ensures State() == Outbox.Observe(limits, old(State()), item)
    {
      if degraded && !item.mandatory && !item.snapshot { return; }
      if Keyed(item) {
        var n := 0;
        while n < |pending| && pending[n].coalesceKey != item.coalesceKey
          invariant 0 <= n <= |pending|
          invariant forall k :: 0 <= k < n ==> pending[k].coalesceKey != item.coalesceKey
        {
          n := n + 1;
        }
        FirstWithKeyIsFirst(pending, item.coalesceKey, n);
        if n < |pending| && HasText(pending[n].event) && HasText(item.event) {
          MergeAt(pending, item.coalesceKey, item.event.text.value, n);
          pending := pending[n := WithText(pending[n], pending[n].event.text.value + item.event.text.value)];
          if !Fits(limits, retained, pending) { Degrade(None); }
          return;
        }
      }
      if item.snapshot { pending := DropSnapshots(pending); }
      pending := pending + [item];
      if !Fits(limits, retained, pending) { Degrade(if item.snapshot then Some(item.event) else None); }
    }

    method Degrade(latestSnapshot: Option<Event>)
      modifies this`pending, this`degraded
      ensures State() == Outbox.Degrade(limits, old(State()), latestSnapshot)
    {
      degraded := true;
      var snapshot := if latestSnapshot.Some? then latestSnapshot else LastSnapshot(pending);
      pending := [GapItem(nextSequence)];
      if snapshot.Some? { pending := pending + [SnapshotItem(snapshot.value)]; }
      ghost var untrimmed := pending;
      while !Fits(limits, retained, pending) && |pending| > 1
        invariant degraded && pending != []
        invariant Trim(limits, retained, pending) == Trim(limits, retained, untrimmed)
        decreases |pending|
      {
        pending := Removed(pending, 1);
      }
    }

    method Assign(stamps: seq<Stamp>) returns (frames: seq<Publish>)
      requires |stamps| == |pending|
      modifies this
      ensures State() == Outbox.Assign(producer, old(State()), stamps)
      ensures frames == retained
      ensures spool == Some(Saved(producer, State()))
    {
      var assigningRecovery := degraded && recoveryThroughSequence.None? && HasGap(pending);
      ghost var before := retained;
      ghost var first := nextSequence;
      ghost var numbered := Numbered(producer, pending, stamps, first);
      for k := 0 to |pending|
        invariant pending == old(pending) && degraded == old(degraded)
        invariant recoveryThroughSequence == old(recoveryThroughSequence)
        invariant nextSequence == first + k
        invariant retained == before + numbered[..k]
      {
        retained := retained + [Publish(stamps[k].eventId, producer.processId, producer.instanceId, nextSequence,
                                        stamps[k].occurredAt, pending[k].event)];
        nextSequence := nextSequence + 1;
      }
      if assigningRecovery { recoveryThroughSequence := LastSequence(retained); }
      pending := [];
      Persist();
      return retained;
    }

    method ResumeFrom(next: int) returns (frames: Result<seq<Publish>, string>)
      modifies this`retained, this`spool
      ensures ResumeConflict(old(State()), next) ==>
                frames == Err("resume_conflict") && State() == old(State()) && spool == old(spool)
      ensures !ResumeConflict(old(State()), next) ==>
                && State() == Resume(old(State()), next)
                && frames == Ok(retained)
                && spool == Some(Saved(producer, State()))
    {
      if next > MAX_SAFE_INTEGER || next < 1 || next > nextSequence { return Err("resume_conflict"); }
      retained := From(retained, next);
      Persist();
      return Ok(retained);
    }

    method Acknowledge(sequence: int)
      modifies this`retained, this`degraded, this`recoveryThroughSequence, this`spool
      ensures State() == Outbox.Acknowledge(old(State()), sequence)
      ensures spool == Some(Saved(producer, State()))
    {
      retained := From(retained, sequence + 1);
      if degraded && recoveryThroughSequence.Some? && sequence >= recoveryThroughSequence.value {
        degraded := false;
        recoveryThroughSequence := None;
      }
      Persist();
    }

    method Persist()
      modifies this`spool
      ensures spool == Some(Saved(producer, State()))
    {
      spool := Some(SpoolFile(producer, Some(nextSequence), retained, degraded, recoveryThroughSequence));
    }
  }
}
