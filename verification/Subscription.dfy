/** Replay followed by a live tail (packages/daemon/src/subscriptions.ts).  `start` is split at
    its awaits: other messages, and so other publications, run between two steps of it. */
module Subscription {
  import opened Wrappers
  import opened Events

  /** A committed event of the global log, as far as a subscription looks into it. */
  datatype Item = Item(cursor: int, processId: Uuid)

  /** Where `start` is waiting: for the replay, for the delivery of an item of the replay or of
      the drained buffer, or nowhere any more. */
  datatype Phase = AwaitReplay(items: seq<Item>)
                 | Replaying(items: seq<Item>, k: nat)
                 | Draining(items: seq<Item>, k: nat)
                 | Started

  datatype Subscriber = Subscriber(head: int, last: int, buffer: map<int, Item>, phase: Phase, delivered: seq<Item>)

  // ---------------------------------------------------------------- buffer

  datatype Buffered = Kept | Delivered | Skipped | Overflow

  function BufferOutcome(s: Subscriber, maxItems: int, item: Item): Buffered {
    if item.cursor <= s.last then Skipped
    else if s.phase.Started? then Delivered
    else if |s.buffer| >= maxItems then Overflow
    else Kept
  }

  function Buffer(s: Subscriber, maxItems: int, item: Item): Subscriber {
    match BufferOutcome(s, maxItems, item)
    case Delivered => s.(last := item.cursor, delivered := s.delivered + [item])
    case Kept => s.(buffer := s.buffer[item.cursor := item])
    case _ => s
  }

  // ---------------------------------------------------------------- start

  /** The replay is taken in the same turn as the captured head. */
  function Start(head: int, replayed: seq<Item>): Subscriber {
    Subscriber(head, 0, map[], AwaitReplay(replayed), [])
  }

  /** The buffered items with cursors from lo to hi, sorted. */
  function Sorted(buffer: map<int, Item>, lo: int, hi: int): seq<Item>
    decreases hi - lo + 1
  {
    if hi < lo then []
    else if hi in buffer then Sorted(buffer, lo, hi - 1) + [buffer[hi]] else Sorted(buffer, lo, hi - 1)
  }

  ghost function Highest(cursors: set<int>): (hi: int)
    ensures forall c :: c in cursors ==> c <= hi
  {
    if c :| c in cursors then
      var rest := cursors - {c};
      assert forall d :: d in cursors ==> d == c || d in rest;
      Max(c, Highest(rest))
    else 0
  }

  /** `[...buffer.values()].sort(...)`; cursors are positive. */
  ghost function Drained(buffer: map<int, Item>): seq<Item> {
    Sorted(buffer, 1, Highest(buffer.Keys))
  }

  lemma {:induction false} SortedEnds(buffer: map<int, Item>, lo: int, mid: int, hi: int)
    requires mid <= hi && forall c :: c in buffer ==> c <= mid
    ensures Sorted(buffer, lo, hi) == Sorted(buffer, lo, mid)
    decreases hi - mid
  {
    if mid < hi { SortedEnds(buffer, lo, mid, hi - 1); }
  }

  lemma DrainedIs(buffer: map<int, Item>, hi: int)
    requires forall c :: c in buffer ==> c <= hi
    ensures Drained(buffer) == Sorted(buffer, 1, hi)
  {
    var highest := Highest(buffer.Keys);
    if highest <= hi { SortedEnds(buffer, 1, highest, hi); } else { SortedEnds(buffer, 1, hi, highest); }
  }

  /** Delivers the next item of the replay that qualifies, or goes on to drain the buffer. */
  ghost function ContinueReplay(s: Subscriber, items: seq<Item>, k: nat): Subscriber
    requires k <= |items|
    decreases |items| - k
  {
    if k == |items| then ContinueDrain(s, Drained(s.buffer), 0)
    else if items[k].cursor > s.last && items[k].cursor <= s.head then
      s.(phase := Replaying(items, k), delivered := s.delivered + [items[k]])
    else ContinueReplay(s, items, k + 1)
  }

  /** Delivers the next drained item that qualifies, or clears the buffer and goes live. */
  function ContinueDrain(s: Subscriber, items: seq<Item>, k: nat): Subscriber
    requires k <= |items|
    decreases |items| - k
  {
    if k == |items| then s.(buffer := map[], phase := Started)
    else if items[k].cursor > s.head && items[k].cursor > s.last then
      s.(phase := Draining(items, k), delivered := s.delivered + [items[k]])
    else ContinueDrain(s, items, k + 1)
  }

  /** What runs when the awaited promise settles. */
  ghost function Resume(s: Subscriber): Subscriber
    requires s.phase.Replaying? || s.phase.Draining? ==> s.phase.k < |s.phase.items|
  {
    match s.phase
    case AwaitReplay(items) => ContinueReplay(s, items, 0)
    case Replaying(items, k) => ContinueReplay(s.(last := items[k].cursor), items, k + 1)
    case Draining(items, k) => ContinueDrain(s.(last := items[k].cursor), items, k + 1)
    case Started => s
  }
}

/** The subscription object, proved against the functions of `Subscription`. */
module SubscriptionClass {
  import opened Wrappers
  import opened Events
  import opened Subscription

  class ReplaySubscription {
    const maxBufferedItems: int
    var head: int
    var last: int
    var buffer: map<int, Item>
    var phase: Phase
    /** What was handed to `deliver`, in order. */
    var delivered: seq<Item>

    function State(): Subscriber
      reads this
    {
      Subscriber(head, last, buffer, phase, delivered)
    }

    constructor (maxBufferedItems: int, capturedHead: int, replayed: seq<Item>)
      ensures this.maxBufferedItems == maxBufferedItems && State() == Start(capturedHead, replayed)
    {
      this.maxBufferedItems := maxBufferedItems;
      head, last, buffer, phase, delivered := capturedHead, 0, map[], AwaitReplay(replayed), [];
    }

    method Buffer(item: Item) returns (overflow: bool)
      modifies this
      ensures State() == Subscription.Buffer(old(State()), maxBufferedItems, item)
      ensures overflow == BufferOutcome(old(State()), maxBufferedItems, item).Overflow?
    {
      if item.cursor <= last { return false; }
      if phase.Started? {
        last := item.cursor;
        delivered := delivered + [item];
        return false;
      }
      if |buffer| >= maxBufferedItems { return true; }
      buffer := buffer[item.cursor := item];
      return false;
    }

    method SortBuffer() returns (items: seq<Item>)
      ensures items == Drained(buffer)
    {
      var highest := 0;
      var todo := buffer.Items;
      while todo != {}
        invariant highest >= 0 && todo <= buffer.Items && forall c :: c in buffer ==>
            (c, buffer[c]) in todo || c <= highest
        decreases |todo|
      {
        var item :| item in todo;
        todo := todo - {item};
        highest := Max(item.0, highest);
      }
      items := [];
      for c := 1 to highest + 1
        invariant items == Sorted(buffer, 1, c - 1)
      {
        if c in buffer { items := items + [buffer[c]]; }
      }
      DrainedIs(buffer, highest);
    }

    /** The rest of `start` after an await, up to its next one. */
    method Resume()
      requires phase.Replaying? || phase.Draining? ==> phase.k < |phase.items|
      modifies this
      ensures State() == Subscription.Resume(old(State()))
    {
      var k := 0;
      match phase {
        case Started => return;
        case AwaitReplay(items) =>
        case Replaying(items, j) => last := items[j].cursor; k := j + 1;
        case Draining(items, j) => last := items[j].cursor; k := j + 1;
      }
      ghost var s := State();
      if !phase.Draining? {
        var items := phase.items;
        while k < |items| && !(items[k].cursor > last && items[k].cursor <= head)
          invariant k <= |items| && State() == s
          invariant ContinueReplay(s, items, k) == Subscription.Resume(old(State()))
        {
          k := k + 1;
        }
        if k < |items| {
          delivered := delivered + [items[k]];
          phase := Replaying(items, k);
          return;
        }
        var drained := SortBuffer();
        phase := Draining(drained, 0);
        k := 0;
      }
      var items := phase.items;
      while k < |items| && !(items[k].cursor > head && items[k].cursor > last)
        invariant k <= |items| && State() == s.(phase := phase) && phase.Draining? && phase.items == items
        invariant ContinueDrain(s, items, k) == Subscription.Resume(old(State()))
      {
        k := k + 1;
      }
      if k < |items| {
        delivered := delivered + [items[k]];
        phase := Draining(items, k);
        return;
      }
      buffer := map[];
      phase := Started;
    }
  }
}

/** What a subscriber sees under every interleaving of commits with `start`. */
module SubscriptionProperties {
  import opened Wrappers
  import opened Events
  import opened Subscription
  import E = EventStore
  import S = EventStoreProperties
  import R = EventRetention

  /** The committed log (the item with cursor c is log[c - 1]), one subscriber, and whether an
      item it should have seen had been deleted before it subscribed, was turned away by a full
      buffer, or came in while the drained items were being delivered. */
  datatype World = World(log: seq<Item>, sub: Subscriber, afterCursor: int, processIds: seq<Uuid>,
                         expired: bool, overflowed: bool, lateInDrain: bool)

  predicate Passes(item: Item, processIds: seq<Uuid>) {
    processIds == [] || item.processId in processIds
  }

  /** The matching items of the log with cursors from lo to hi. */
  function Wanted(log: seq<Item>, processIds: seq<Uuid>, lo: int, hi: int): seq<Item>
    requires 1 <= lo && hi <= |log|
    decreases hi - lo + 1
  {
    if hi < lo then []
    else if Passes(log[hi - 1], processIds) then Wanted(log, processIds, lo, hi - 1) + [log[hi - 1]]
    else Wanted(log, processIds, lo, hi - 1)
  }

  predicate CursorsDense(log: seq<Item>) {
    forall k :: 0 <= k < |log| ==> log[k].cursor == k + 1
  }

  /** The store's log, as far as a subscription looks into it. */
  function Items(log: seq<Publish>): (items: seq<Item>)
    ensures |items| == |log| && forall k :: 0 <= k < |log| ==> items[k] == Item(k + 1, log[k].processId)
  {
    seq(|log|, k requires 0 <= k < |log| => Item(k + 1, log[k].processId))
  }

  function ItemsOf(rows: seq<E.Committed>): (items: seq<Item>)
    ensures |items| == |rows| && forall k :: 0 <= k < |rows| ==>
        items[k] == Item(rows[k].cursor, rows[k].event.processId)
  {
    seq(|rows|, k requires 0 <= k < |rows| => Item(rows[k].cursor, rows[k].event.processId))
  }

  /** A matching event behind the cursor is no longer in the table. */
  ghost predicate Expired(store: S.World, afterCursor: int, processIds: seq<Uuid>) {
    exists c :: 0 <= afterCursor < c <= |store.log| && E.Passes(store.log[c - 1], processIds) && c !in store.t.events
  }

  /** The moment of subscription, with what the store replays then.  An error of the replay ends
      the connection. */
  ghost function Subscribe(store: S.World, afterCursor: int, processIds: seq<Uuid>): World
    requires E.Replay(store.t, afterCursor, processIds).Ok?
  {
    World(Items(store.log), Start(store.t.headCursor, ItemsOf(E.Replay(store.t, afterCursor, processIds).value)),
          afterCursor, processIds, Expired(store, afterCursor, processIds), false, false)
  }

  datatype Step = Commit(processId: Uuid) | Turn

  predicate Possible(w: World, step: Step) {
    step.Turn? && (w.sub.phase.Replaying? || w.sub.phase.Draining?) ==> w.sub.phase.k < |w.sub.phase.items|
  }

  ghost function Next(w: World, maxItems: int, step: Step): World
    requires Possible(w, step)
  {
    match step
    case Turn => w.(sub := Resume(w.sub))
    case Commit(processId) =>
      var item := Item(|w.log| + 1, processId);
      if !Passes(item, w.processIds) then w.(log := w.log + [item])
      else
        var outcome := BufferOutcome(w.sub, maxItems, item);
        World(w.log + [item], Buffer(w.sub, maxItems, item), w.afterCursor, w.processIds,
              w.expired, w.overflowed || outcome.Overflow?,
              w.lateInDrain || (outcome.Kept? && w.sub.phase.Draining?))
  }

  /** What the subscriber should have been handed when everything so far has been delivered. */
  function Due(w: World): seq<Item>
    requires 0 <= w.afterCursor <= |w.log|
  {
    Wanted(w.log, w.processIds, w.afterCursor + 1, |w.log|)
  }

  ghost predicate IsRun(w: World, maxItems: int, steps: seq<Step>)
    decreases |steps|, 0
  {
    steps == [] || (IsRun(w, maxItems, steps[..|steps| - 1])
      && Possible(Run(w, maxItems, steps[..|steps| - 1]), steps[|steps| - 1]))
  }

  ghost function Run(w: World, maxItems: int, steps: seq<Step>): World
    requires IsRun(w, maxItems, steps)
    decreases |steps|, 1
  {
    if steps == [] then w else Next(Run(w, maxItems, steps[..|steps| - 1]), maxItems, steps[|steps| - 1])
  }

  // ---------------------------------------------------------------- order

  predicate Increasing(items: seq<Item>) {
    forall j, k :: 0 <= j < k < |items| ==> items[j].cursor < items[k].cursor
  }

  predicate Within(items: seq<Item>, lo: int, hi: int) {
    forall k :: 0 <= k < |items| ==> lo <= items[k].cursor <= hi
  }

  /** The last delivered item is the one whose delivery is awaited. */
  predicate AwaitsLast(s: Subscriber) {
    (s.phase.Replaying? || s.phase.Draining?) ==>
      && s.phase.k < |s.phase.items| && s.delivered != []
      && s.delivered[|s.delivered| - 1] == s.phase.items[s.phase.k]
      && s.last < s.phase.items[s.phase.k].cursor
  }

  ghost predicate Ordered(w: World) {
    var s := w.sub;
    && CursorsDense(w.log) && 0 <= w.afterCursor <= s.head <= |w.log|
    && Increasing(s.delivered) && Within(s.delivered, 1, |w.log|)
    && (forall c :: c in s.buffer ==> s.head < c <= |w.log| && s.buffer[c].cursor == c)
    && AwaitsLast(s)
    && match s.phase
       case AwaitReplay(items) => Increasing(items) && Within(items, 1, s.head) && s.delivered == [] && s.last == 0
       case Replaying(items, k) => Increasing(items) && Within(items, 1, s.head) && Within(s.delivered, 1, s.head)
       case Draining(items, k) => Increasing(items) && Within(items, s.head + 1, |w.log|)
       case Started => s.last == if s.delivered == [] then 0 else s.delivered[|s.delivered| - 1].cursor
  }

  lemma {:induction false} SortedIsOrdered(buffer: map<int, Item>, lo: int, hi: int, low: int)
    requires forall c :: c in buffer ==> low <= c && buffer[c].cursor == c
    ensures Increasing(Sorted(buffer, lo, hi)) && Within(Sorted(buffer, lo, hi), low, hi)
    ensures Within(Sorted(buffer, lo, hi), lo, hi)
    ensures forall k :: 0 <= k < |Sorted(buffer, lo, hi)| ==>
              Sorted(buffer, lo, hi)[k].cursor in buffer
                && Sorted(buffer, lo, hi)[k] == buffer[Sorted(buffer, lo, hi)[k].cursor]
    decreases hi - lo + 1
  {
    if lo <= hi { SortedIsOrdered(buffer, lo, hi - 1, low); }
  }

  /** A turn that delivers the next item of the replay, or the next drained one, or goes live. */
  predicate Turned(s: Subscriber, s': Subscriber, drained: seq<Item>) {
    match s.phase
    case Started => s' == s
    case AwaitReplay(items) =>
      if items != [] then s' == s.(phase := Replaying(items, 0), delivered := s.delivered + [items[0]])
      else if drained != [] then s' == s.(phase := Draining(drained, 0), delivered := s.delivered + [drained[0]])
      else s' == s.(buffer := map[], phase := Started)
    case Replaying(items, k) =>
      && k < |items|
      && var last := items[k].cursor;
         if k + 1 < |items| then
           s' == s.(last := last, phase := Replaying(items, k + 1), delivered := s.delivered + [items[k + 1]])
         else if drained != [] then
           s' == s.(last := last, phase := Draining(drained, 0), delivered := s.delivered + [drained[0]])
         else s' == s.(last := last, buffer := map[], phase := Started)
    case Draining(items, k) =>
      && k < |items|
      && var last := items[k].cursor;
         if k + 1 < |items| then
           s' == s.(last := last, phase := Draining(items, k + 1), delivered := s.delivered + [items[k + 1]])
         else s' == s.(last := last, buffer := map[], phase := Started)
  }

  /** In an ordered world a turn skips nothing. */
  lemma TurnDelivers(w: World)
    requires Ordered(w)
    ensures Turned(w.sub, Resume(w.sub), Sorted(w.sub.buffer, 1, |w.log|))
  {
    DrainedIs(w.sub.buffer, |w.log|);
    SortedIsOrdered(w.sub.buffer, 1, |w.log|, w.sub.head + 1);
  }

  /** One more delivery: its cursor is above everything delivered. */
  lemma DeliverKeepsOrdered(w: World, last: int, phase: Phase)
    requires Ordered(w) && (phase.Replaying? || phase.Draining?) && phase.k < |phase.items| && Increasing(phase.items)
    requires last < phase.items[phase.k].cursor
    requires Within(w.sub.delivered, 1, phase.items[phase.k].cursor - 1)
    requires if phase.Replaying? then Within(phase.items, 1, w.sub.head)
        else Within(phase.items, w.sub.head + 1, |w.log|)
    ensures Ordered(w.(sub := w.sub.(last := last, phase := phase,
                                         delivered := w.sub.delivered + [phase.items[phase.k]])))
  {
    assert 1 <= phase.items[phase.k].cursor <= |w.log|;
  }

  lemma DeliveredBelow(s: Subscriber)
    requires AwaitsLast(s) && Increasing(s.delivered) && (s.phase.Replaying? || s.phase.Draining?)
    ensures forall k :: 0 <= k < |s.delivered| ==> s.delivered[k].cursor <= s.phase.items[s.phase.k].cursor
  {
  }

  /** A turn that stays in the replay or in the drained items. */
  lemma NextItemKeepsOrdered(w: World, phase: Phase)
    requires Ordered(w) && AwaitsNext(w.sub.phase, phase)
    ensures var last := if w.sub.phase.AwaitReplay? then 0 else w.sub.phase.items[w.sub.phase.k].cursor;
            Ordered(w.(sub := w.sub.(last := last, phase := phase,
                                         delivered := w.sub.delivered + [phase.items[phase.k]])))
  {
    if !w.sub.phase.AwaitReplay? { DeliveredBelow(w.sub); }
    DeliverKeepsOrdered(w, if w.sub.phase.AwaitReplay? then 0 else w.sub.phase.items[w.sub.phase.k].cursor, phase);
  }

  predicate AwaitsNext(now: Phase, next: Phase) {
    match now
    case AwaitReplay(items) => next == Replaying(items, 0) && items != []
    case Replaying(items, k) => next == Replaying(items, k + 1) && k + 1 < |items|
    case Draining(items, k) => next == Draining(items, k + 1) && k + 1 < |items|
    case Started => false
  }

  /** A turn that begins to drain the buffer. */
  lemma DrainKeepsOrdered(w: World, drained: seq<Item>)
    requires Ordered(w) && (w.sub.phase.AwaitReplay? || w.sub.phase.Replaying?)
    requires Increasing(drained) && Within(drained, w.sub.head + 1, |w.log|) && drained != []
    ensures var last := if w.sub.phase.AwaitReplay? then 0 else w.sub.phase.items[w.sub.phase.k].cursor;
            Ordered(w.(sub := w.sub.(last := last, phase := Draining(drained, 0),
                                         delivered := w.sub.delivered + [drained[0]])))
  {
    var last := if w.sub.phase.AwaitReplay? then 0 else w.sub.phase.items[w.sub.phase.k].cursor;
    assert last <= w.sub.head < drained[0].cursor && Within(w.sub.delivered, 1, w.sub.head);
    DeliverKeepsOrdered(w, last, Draining(drained, 0));
  }

  lemma LiveKeepsOrdered(w: World)
    requires Ordered(w) && !w.sub.phase.Started?
    ensures var last := if w.sub.phase.AwaitReplay? then 0 else w.sub.phase.items[w.sub.phase.k].cursor;
            Ordered(w.(sub := w.sub.(last := last, buffer := map[], phase := Started)))
  {
  }

  lemma TurnKeepsOrdered(w: World)
    requires Ordered(w)
    ensures Ordered(w.(sub := Resume(w.sub)))
  {
    var s := w.sub;
    SortedIsOrdered(s.buffer, 1, |w.log|, s.head + 1);
    TurnDelivers(w);
    var drained := Sorted(s.buffer, 1, |w.log|);
    var s' := Resume(s);
    hide Resume, Sorted;
    if s.phase.Started? {
    } else if s'.phase.Started? {
      LiveKeepsOrdered(w);
    } else if s'.phase.Draining? && !s.phase.Draining? {
      DrainKeepsOrdered(w, drained);
    } else {
      NextItemKeepsOrdered(w, s'.phase);
    }
  }

  lemma CommitKeepsOrdered(w: World, item: Item)
    requires Ordered(w) && item.cursor == |w.log| + 1
    ensures Ordered(w.(log := w.log + [item]))
  {
  }

  lemma BufferKeepsOrdered(w: World, maxItems: int, item: Item)
    requires Ordered(w) && w.log != [] && item == w.log[|w.log| - 1]
    requires w.sub.last < item.cursor && w.sub.head < |w.log| && Within(w.sub.delivered, 1, |w.log| - 1)
    ensures Ordered(w.(sub := Buffer(w.sub, maxItems, item)))
  {
    var delivered := w.sub.delivered + [item];
    assert w.sub.phase.Started? ==> Increasing(delivered) && Within(delivered, 1, |w.log|);
    hide Within, Increasing;
  }

  lemma CommitStepKeepsOrdered(w: World, maxItems: int, item: Item)
    requires Ordered(w) && item.cursor == |w.log| + 1
    ensures Ordered(w.(log := w.log + [item], sub := Buffer(w.sub, maxItems, item)))
  {
    CommitKeepsOrdered(w, item);
    BufferKeepsOrdered(w.(log := w.log + [item]), maxItems, item);
    hide Ordered, Buffer;
  }

  lemma SameOrdered(w: World, w': World)
    requires Ordered(w) && w'.log == w.log && w'.sub == w.sub && w'.afterCursor == w.afterCursor
    ensures Ordered(w')
  {
  }

  lemma NextKeepsOrdered(w: World, maxItems: int, step: Step)
    requires Ordered(w) && Possible(w, step)
    ensures Ordered(Next(w, maxItems, step))
  {
    hide Ordered, Buffer, Resume, BufferOutcome;
    if step.Turn? {
      TurnKeepsOrdered(w);
    } else {
      var item := Item(|w.log| + 1, step.processId);
      CommitKeepsOrdered(w, item);
      CommitStepKeepsOrdered(w, maxItems, item);
      var logged := if Passes(item, w.processIds) then Buffer(w.sub, maxItems, item) else w.sub;
      SameOrdered(w.(log := w.log + [item], sub := logged), Next(w, maxItems, step));
    }
  }

  // ---------------------------------------------------------------- completeness

  lemma {:induction false} WantedIsOrdered(log: seq<Item>, processIds: seq<Uuid>, lo: int, hi: int)
    requires CursorsDense(log) && 1 <= lo && hi <= |log|
    ensures Increasing(Wanted(log, processIds, lo, hi)) && Within(Wanted(log, processIds, lo, hi), lo, hi)
    decreases hi - lo + 1
  {
    if lo <= hi { WantedIsOrdered(log, processIds, lo, hi - 1); }
  }

  lemma {:induction false} WantedSplits(log: seq<Item>, processIds: seq<Uuid>, lo: int, mid: int, hi: int)
    requires 1 <= lo <= mid + 1 && mid <= hi <= |log|
    ensures Wanted(log, processIds, lo, hi) == Wanted(log, processIds, lo, mid) + Wanted(log, processIds, mid + 1, hi)
    decreases hi - mid
  {
    if mid < hi { WantedSplits(log, processIds, lo, mid, hi - 1); }
  }

  lemma {:induction false} WantedOfLonger(log: seq<Item>, item: Item, processIds: seq<Uuid>, lo: int, hi: int)
    requires 1 <= lo && hi <= |log|
    ensures Wanted(log + [item], processIds, lo, hi) == Wanted(log, processIds, lo, hi)
    decreases hi - lo + 1
  {
    if lo <= hi { WantedOfLonger(log, item, processIds, lo, hi - 1); }
  }

  lemma {:induction false} WantedHas(log: seq<Item>, processIds: seq<Uuid>, lo: int, hi: int, c: int)
    requires 1 <= lo <= c <= hi <= |log| && Passes(log[c - 1], processIds)
    ensures log[c - 1] in Wanted(log, processIds, lo, hi)
    decreases hi - lo + 1
  {
    if c < hi { WantedHas(log, processIds, lo, hi - 1, c); }
  }

  /** The buffer holds exactly the matching items committed since the head was captured. */
  ghost predicate BufferComplete(w: World) {
    0 <= w.sub.head &&
    forall c :: c in w.sub.buffer <==> w.sub.head < c <= |w.log| && Passes(w.log[c - 1], w.processIds)
  }

  ghost predicate BufferTrue(w: World) {
    forall c :: c in w.sub.buffer && 1 <= c <= |w.log| ==> w.sub.buffer[c] == w.log[c - 1]
  }

  lemma {:induction false} SortedIsWanted(w: World, hi: int)
    requires BufferComplete(w) && BufferTrue(w) && 0 <= w.sub.head && hi <= |w.log|
    ensures Sorted(w.sub.buffer, 1, hi) == Wanted(w.log, w.processIds, w.sub.head + 1, hi)
    decreases hi
  {
    if hi >= 1 {
      SortedIsWanted(w, hi - 1);
    }
  }

  /** Nothing was turned away: what has been delivered and what still waits is what is due. */
  ghost predicate Complete(w: World) {
    var s := w.sub;
    0 <= w.afterCursor <= s.head <= |w.log| &&
    var replayed := Wanted(w.log, w.processIds, w.afterCursor + 1, s.head);
    match s.phase
    case AwaitReplay(items) => items == replayed && s.delivered == [] && BufferComplete(w) && BufferTrue(w)
    case Replaying(items, k) => items == replayed && k < |items| && s.delivered == items[..k + 1] && BufferComplete(w)
      && BufferTrue(w)
    case Draining(items, k) =>
      && items == Wanted(w.log, w.processIds, s.head + 1, |w.log|) && k < |items|
      && s.delivered == replayed + items[..k + 1]
    case Started => s.delivered == Due(w)
  }

  /** A turn of a subscriber from which nothing was turned away. */
  lemma TurnKeepsComplete(w: World)
    requires Ordered(w) && Complete(w)
    ensures Complete(w.(sub := Resume(w.sub)))
  {
    hide *;
    var s', drained := TurnFacts(w);
    match w.sub.phase {
      case AwaitReplay(_) => CompleteAfterAwait(w, s', drained);
      case Replaying(_, _) => CompleteAfterReplay(w, s', drained);
      case Draining(_, _) => CompleteAfterDrain(w, s', drained);
      case Started => TurnWhenLive(w, s', drained);
    }
  }

  lemma TurnFacts(w: World) returns (s': Subscriber, drained: seq<Item>)
    requires Ordered(w) && Complete(w)
    ensures 0 <= w.afterCursor <= w.sub.head <= |w.log|
    ensures s' == Resume(w.sub) && Turned(w.sub, s', drained)
    ensures Due(w) == Wanted(w.log, w.processIds, w.afterCursor + 1, w.sub.head)
        + Wanted(w.log, w.processIds, w.sub.head + 1, |w.log|)
    ensures w.sub.phase.AwaitReplay? || w.sub.phase.Replaying? ==>
        drained == Wanted(w.log, w.processIds, w.sub.head + 1, |w.log|)
  {
    hide Wanted, Resume;
    TurnDelivers(w);
    WantedSplits(w.log, w.processIds, w.afterCursor + 1, w.sub.head, |w.log|);
    s', drained := Resume(w.sub), Sorted(w.sub.buffer, 1, |w.log|);
    if w.sub.phase.AwaitReplay? || w.sub.phase.Replaying? { SortedIsWanted(w, |w.log|); }
  }

  lemma CompleteAfterAwait(w: World, s': Subscriber, drained: seq<Item>)
    requires Complete(w) && Turned(w.sub, s', drained) && w.sub.phase.AwaitReplay?
    requires drained == Wanted(w.log, w.processIds, w.sub.head + 1, |w.log|)
    requires Due(w) == Wanted(w.log, w.processIds, w.afterCursor + 1, w.sub.head)
        + Wanted(w.log, w.processIds, w.sub.head + 1, |w.log|)
    ensures Complete(w.(sub := s'))
  {
    hide Wanted, Due;
    var s := w.sub;
    assert Due(w.(sub := s')) == Due(w) by { DueOf(w, s'); }
    hide BufferComplete, BufferTrue;
    var replayed := Wanted(w.log, w.processIds, w.afterCursor + 1, s.head);
    var items := s.phase.items;
    if items != [] {
      assert s.delivered + [items[0]] == items[..1];
      SameBuffer(w, w.(sub := s'));
    } else if drained != [] {
      assert s.delivered + [drained[0]] == replayed + drained[..1];
    } else {
      assert replayed + drained == [];
    }
  }

  lemma CompleteAfterReplay(w: World, s': Subscriber, drained: seq<Item>)
    requires Complete(w) && Turned(w.sub, s', drained) && w.sub.phase.Replaying?
    requires drained == Wanted(w.log, w.processIds, w.sub.head + 1, |w.log|)
    requires Due(w) == Wanted(w.log, w.processIds, w.afterCursor + 1, w.sub.head)
        + Wanted(w.log, w.processIds, w.sub.head + 1, |w.log|)
    ensures Complete(w.(sub := s'))
  {
    hide Wanted, Due;
    var s := w.sub;
    assert Due(w.(sub := s')) == Due(w) by { DueOf(w, s'); }
    hide BufferComplete, BufferTrue;
    var replayed := Wanted(w.log, w.processIds, w.afterCursor + 1, s.head);
    ExtendsBy(replayed, s.phase.items, drained, s.phase.k);
    if s.phase.k + 1 < |s.phase.items| { SameBuffer(w, w.(sub := s')); }
  }

  lemma CompleteAfterDrain(w: World, s': Subscriber, drained: seq<Item>)
    requires Complete(w) && Turned(w.sub, s', drained) && w.sub.phase.Draining?
    requires Due(w) == Wanted(w.log, w.processIds, w.afterCursor + 1, w.sub.head)
        + Wanted(w.log, w.processIds, w.sub.head + 1, |w.log|)
    ensures Complete(w.(sub := s'))
  {
    hide Wanted, Due;
    var s := w.sub;
    assert Due(w.(sub := s')) == Due(w) by { DueOf(w, s'); }
    hide BufferComplete, BufferTrue;
    var replayed := Wanted(w.log, w.processIds, w.afterCursor + 1, s.head);
    ExtendsBy(replayed, replayed, s.phase.items, s.phase.k);
  }

  lemma TurnWhenLive(w: World, s': Subscriber, drained: seq<Item>)
    requires Turned(w.sub, s', drained) && w.sub.phase.Started?
    ensures w.(sub := s') == w
  {
  }

  lemma DueOf(w: World, s': Subscriber)
    requires 0 <= w.afterCursor <= |w.log|
    ensures Due(w.(sub := s')) == Due(w)
  {
  }

  lemma SameBuffer(w: World, w': World)
    requires BufferComplete(w) && BufferTrue(w) && w' == w.(sub := w'.sub)
    requires w'.sub.buffer == w.sub.buffer && w'.sub.head == w.sub.head
    ensures BufferComplete(w') && BufferTrue(w')
  {
  }

  /** The sequences that a turn builds. */
  lemma ExtendsBy(a: seq<Item>, items: seq<Item>, more: seq<Item>, k: nat)
    ensures k + 1 < |items| ==> items[..k + 1] + [items[k + 1]] == items[..k + 2]
    ensures k + 1 == |items| ==> items[..k + 1] == items
    ensures more != [] ==> items + [more[0]] == items + more[..1]
    ensures k + 1 < |more| ==> a + more[..k + 1] + [more[k + 1]] == a + more[..k + 2]
    ensures k + 1 == |more| ==> a + more[..k + 1] == a + more
    ensures items + [] == items
  {
  }

  lemma CommitKeepsComplete(w: World, maxItems: int, processId: Uuid)
    requires Ordered(w) && Complete(w)
    requires var w' := Next(w, maxItems, Commit(processId)); !w'.overflowed && !w'.lateInDrain
    ensures Complete(Next(w, maxItems, Commit(processId)))
  {
    hide BufferComplete, BufferTrue;
    if w.sub.phase.Started? {
      CommitWhileLive(w, maxItems, processId);
    } else if w.sub.phase.Draining? {
      CommitInDrain(w, maxItems, processId);
    } else {
      CommitKeepsBuffer(w, maxItems, processId);
      WantedOfLonger(w.log, Item(|w.log| + 1, processId), w.processIds, w.afterCursor + 1, w.sub.head);
      hide Ordered, Wanted;
      assert Next(w, maxItems, Commit(processId)).sub
        == w.sub.(buffer := Next(w, maxItems, Commit(processId)).sub.buffer);
    }
  }

  lemma CommitWhileLive(w: World, maxItems: int, processId: Uuid)
    requires Ordered(w) && Complete(w) && w.sub.phase.Started?
    ensures Complete(Next(w, maxItems, Commit(processId)))
  {
    var item := Item(|w.log| + 1, processId);
    WantedOfLonger(w.log, item, w.processIds, w.afterCursor + 1, |w.log|);
    assert (w.log + [item])[|w.log|] == item;
    assert w.sub.last <= |w.log|;
  }

  lemma CommitInDrain(w: World, maxItems: int, processId: Uuid)
    requires Ordered(w) && Complete(w) && w.sub.phase.Draining?
    requires var w' := Next(w, maxItems, Commit(processId)); !w'.overflowed && !w'.lateInDrain
    ensures Complete(Next(w, maxItems, Commit(processId)))
  {
    hide Increasing, BufferComplete, BufferTrue;
    var item := Item(|w.log| + 1, processId);
    WantedOfLonger(w.log, item, w.processIds, w.afterCursor + 1, w.sub.head);
    WantedOfLonger(w.log, item, w.processIds, w.sub.head + 1, |w.log|);
    assert (w.log + [item])[|w.log|] == item;
    assert w.sub.last < item.cursor;
    assert !Passes(item, w.processIds);
  }

  lemma CommitKeepsBuffer(w: World, maxItems: int, processId: Uuid)
    requires Ordered(w) && BufferComplete(w) && BufferTrue(w) && (w.sub.phase.AwaitReplay? || w.sub.phase.Replaying?)
    requires !Next(w, maxItems, Commit(processId)).overflowed
    ensures BufferComplete(Next(w, maxItems, Commit(processId))) && BufferTrue(Next(w, maxItems, Commit(processId)))
  {
    var w' := Next(w, maxItems, Commit(processId));
    assert w'.log[|w.log|] == Item(|w.log| + 1, processId);
  }

  // ---------------------------------------------------------------- what is missed stays missed

  ghost predicate Without(items: seq<Item>, m: int) {
    forall k :: 0 <= k < |items| ==> items[k].cursor != m
  }

  /** The item with cursor m is due but has not been delivered and never will be. */
  ghost predicate Missed(w: World, m: int) {
    var s := w.sub;
    && 0 <= w.afterCursor < m <= |w.log| && Passes(w.log[m - 1], w.processIds)
    && (forall k :: 0 <= k < |s.delivered| ==> s.delivered[k].cursor != m)
    && match s.phase
       case AwaitReplay(items) => m !in s.buffer && Without(items, m)
       case Replaying(items, _) => m !in s.buffer && Without(items, m)
       case Draining(items, _) => Without(items, m)
       case Started => true
  }

  lemma NextKeepsMissed(w: World, maxItems: int, step: Step, m: int)
    requires Ordered(w) && Possible(w, step) && Missed(w, m)
    ensures Missed(Next(w, maxItems, step), m)
  {
    if step.Turn? {
      TurnKeepsMissed(w, m);
    } else {
      CommitKeepsMissed(w, maxItems, step.processId, m);
    }
  }

  lemma CommitKeepsMissed(w: World, maxItems: int, processId: Uuid, m: int)
    requires Ordered(w) && Missed(w, m)
    ensures Missed(Next(w, maxItems, Commit(processId)), m)
  {
    hide Ordered;
  }

  lemma TurnKeepsMissed(w: World, m: int)
    requires Ordered(w) && Missed(w, m)
    ensures Missed(w.(sub := Resume(w.sub)), m)
  {
    hide Resume, Ordered;
    var s', drained := TurnFromBuffer(w);
  }

  lemma TurnFromBuffer(w: World) returns (s': Subscriber, drained: seq<Item>)
    requires Ordered(w)
    ensures s' == Resume(w.sub) && Turned(w.sub, s', drained)
    ensures forall k :: 0 <= k < |drained| ==> drained[k].cursor in w.sub.buffer
  {
    TurnDelivers(w);
    SortedIsOrdered(w.sub.buffer, 1, |w.log|, w.sub.head + 1);
    return Resume(w.sub), Sorted(w.sub.buffer, 1, |w.log|);
  }

  ghost predicate Settled(w: World) {
    && Ordered(w)
    && if w.expired || w.overflowed || w.lateInDrain then exists m :: Missed(w, m) else Complete(w)
  }

  lemma NextKeepsSettled(w: World, maxItems: int, step: Step)
    requires Settled(w) && Possible(w, step)
    ensures Settled(Next(w, maxItems, step))
  {
    var w' := Next(w, maxItems, step);
    NextKeepsOrdered(w, maxItems, step);
    if w.expired || w.overflowed || w.lateInDrain {
      var m :| Missed(w, m);
      NextKeepsMissed(w, maxItems, step, m);
    } else if step.Turn? {
      TurnKeepsComplete(w);
    } else if w'.overflowed || w'.lateInDrain {
      assert Missed(w', |w'.log|);
    } else {
      CommitKeepsComplete(w, maxItems, step.processId);
    }
  }

  // ---------------------------------------------------------------- the store's part

  lemma {:induction false} RowsAreOrdered(events: map<int, Publish>, lo: int, hi: int, processIds: seq<Uuid>)
    ensures var items := ItemsOf(E.Rows(events, lo, hi, processIds));
            && Increasing(items) && Within(items, lo, hi)
            && forall k :: 0 <= k < |items| ==> items[k].cursor in events
    decreases hi - lo + 1
  {
    if lo <= hi { RowsAreOrdered(events, lo, hi - 1, processIds); }
  }

  /** The replayed rows are the matching part of the log when no matching row is missing. */
  lemma {:induction false} RowsAreWanted(store: S.World, processIds: seq<Uuid>, lo: int, hi: int)
    requires S.TableFromLog(store) && 1 <= lo && hi <= |store.log|
    requires forall c :: lo <= c <= hi && E.Passes(store.log[c - 1], processIds) ==> c in store.t.events
    ensures ItemsOf(E.Rows(store.t.events, lo, hi, processIds)) == Wanted(Items(store.log), processIds, lo, hi)
    decreases hi - lo + 1
  {
    if lo <= hi {
      RowsAreWanted(store, processIds, lo, hi - 1);
      var rows, item := E.Rows(store.t.events, lo, hi - 1, processIds), Items(store.log)[hi - 1];
      if hi in store.t.events && E.Passes(store.t.events[hi], processIds) {
        assert ItemsOf(rows + [E.Committed(hi, store.t.events[hi])]) == ItemsOf(rows) + [item];
      }
    }
  }

  lemma SubscribeIsSettled(store: S.World, afterCursor: int, processIds: seq<Uuid>)
    requires S.TableFromLog(store) && E.Replay(store.t, afterCursor, processIds).Ok?
    ensures Settled(Subscribe(store, afterCursor, processIds))
  {
    var w := Subscribe(store, afterCursor, processIds);
    RowsAreOrdered(store.t.events, afterCursor + 1, |store.log|, processIds);
    if w.expired {
      var c :| 0 <= afterCursor < c <= |store.log| && E.Passes(store.log[c - 1], processIds) && c !in store.t.events;
      assert Missed(w, c);
    } else {
      RowsAreWanted(store, processIds, afterCursor + 1, |store.log|);
    }
  }

  /** A table that was only ever trimmed from its oldest end lacks nothing that it replays. */
  lemma NothingExpiredIfHoleFree(store: S.World, afterCursor: int, processIds: seq<Uuid>)
    requires S.TableFromLog(store) && R.HoleFree(store.t) && E.Replay(store.t, afterCursor, processIds).Ok?
    ensures !Expired(store, afterCursor, processIds)
  {
  }

  lemma {:induction false} SettledAlways(store: S.World, afterCursor: int, processIds: seq<Uuid>, maxItems: int,
      steps: seq<Step>)
    requires S.TableFromLog(store) && E.Replay(store.t, afterCursor, processIds).Ok?
    requires IsRun(Subscribe(store, afterCursor, processIds), maxItems, steps)
    ensures Settled(Run(Subscribe(store, afterCursor, processIds), maxItems, steps))
    ensures Run(Subscribe(store, afterCursor, processIds), maxItems, steps).expired
        == Expired(store, afterCursor, processIds)
    decreases |steps|
  {
    hide Settled, Expired;
    if steps == [] {
      SubscribeIsSettled(store, afterCursor, processIds);
    } else {
      SettledAlways(store, afterCursor, processIds, maxItems, steps[..|steps| - 1]);
      NextKeepsSettled(Run(Subscribe(store, afterCursor, processIds), maxItems, steps[..|steps| - 1]), maxItems,
        steps[|steps| - 1]);
    }
  }

  /** Under every interleaving, cursors are delivered in strictly increasing order; and once the
      subscription is live, what was delivered is exactly the matching log after `afterCursor`
      if and only if no matching row had expired before, no buffered item overflowed and no
      matching item was committed while the drained items were being delivered. */
  lemma ReplayHandsOver(store: S.World, afterCursor: int, processIds: seq<Uuid>, maxItems: int, steps: seq<Step>)
    requires S.TableFromLog(store) && E.Replay(store.t, afterCursor, processIds).Ok?
    requires IsRun(Subscribe(store, afterCursor, processIds), maxItems, steps)
    ensures var w := Run(Subscribe(store, afterCursor, processIds), maxItems, steps);
            && Increasing(w.sub.delivered)
            && 0 <= w.afterCursor <= |w.log|
            && (w.sub.phase.Started? ==>
                  (w.sub.delivered == Due(w)
                   <==> !Expired(store, afterCursor, processIds) && !w.overflowed && !w.lateInDrain))
  {
    hide IsRun, Run, Subscribe, Expired;
    SettledAlways(store, afterCursor, processIds, maxItems, steps);
    var w := Run(Subscribe(store, afterCursor, processIds), maxItems, steps);
    if w.expired || w.overflowed || w.lateInDrain {
      var m :| Missed(w, m);
      MissedIsNotDelivered(w, m);
    }
  }

  lemma MissedIsNotDelivered(w: World, m: int)
    requires Ordered(w) && Missed(w, m)
    ensures w.sub.delivered != Due(w)
  {
    WantedHas(w.log, w.processIds, w.afterCursor + 1, |w.log|, m);
    assert w.log[m - 1].cursor == m;
  }

  /** The window is real: with nothing to replay and one buffered item, an item committed while
      that one is being delivered is lost. */
  lemma LateItemIsLost(maxItems: int)
    requires maxItems >= 2
    ensures var steps := [Commit(Uuid("p")), Turn, Commit(Uuid("p")), Turn];
            && IsRun(Subscribe(S.START, 0, []), maxItems, steps)
            && var w := Run(Subscribe(S.START, 0, []), maxItems, steps);
               w.sub.phase.Started? && w.lateInDrain && w.sub.delivered == [Item(1, Uuid("p"))] && |w.log| == 2
  {
    hide *;
    StartReplaysNothing();
    var w0 := Subscribe(S.START, 0, []);
    var w1, w2, w3, w4 := LateSteps(w0, maxItems);
    RunFour(w0, maxItems, Commit(Uuid("p")), Turn, w1, w2, w3, w4);
  }

  lemma StartReplaysNothing()
    ensures E.Replay(S.START.t, 0, []) == Ok([])
    ensures Subscribe(S.START, 0, [])
        == World([], Subscriber(0, 0, map[], AwaitReplay([]), []), 0, [], false, false, false)
  {
    assert E.Least(map[], 1, 0) == 1 && E.Rows(map[], 1, 0, []) == [];
  }

  lemma RunFour(w0: World, maxItems: int, a: Step, b: Step, w1: World, w2: World, w3: World, w4: World)
    requires Possible(w0, a) && w1 == Next(w0, maxItems, a) && Possible(w1, b) && w2 == Next(w1, maxItems, b)
    requires Possible(w2, a) && w3 == Next(w2, maxItems, a) && Possible(w3, b) && w4 == Next(w3, maxItems, b)
    ensures IsRun(w0, maxItems, [a, b, a, b]) && Run(w0, maxItems, [a, b, a, b]) == w4
  {
    hide Next, Possible;
    var steps := [a, b, a, b];
    assert steps[..0] == [] && steps[..4] == steps;
    RunPrefix(w0, maxItems, steps, 0, w0, w1);
    RunPrefix(w0, maxItems, steps, 1, w1, w2);
    RunPrefix(w0, maxItems, steps, 2, w2, w3);
    RunPrefix(w0, maxItems, steps, 3, w3, w4);
  }

  lemma LateSteps(w0: World, maxItems: int) returns (w1: World, w2: World, w3: World, w4: World)
    requires maxItems >= 2
    requires w0 == World([], Subscriber(0, 0, map[], AwaitReplay([]), []), 0, [], false, false, false)
    ensures var c := Commit(Uuid("p"));
            && Possible(w0, c) && Possible(w1, Turn) && Possible(w2, c) && Possible(w3, Turn)
            && w1 == Next(w0, maxItems, c) && w2 == Next(w1, maxItems, Turn)
            && w3 == Next(w2, maxItems, c) && w4 == Next(w3, maxItems, Turn)
    ensures w4.sub.phase.Started? && w4.lateInDrain && w4.sub.delivered == [Item(1, Uuid("p"))] && |w4.log| == 2
  {
    var p := Uuid("p");
    w1, w2 := LateStart(w0, maxItems, p);
    w3, w4 := LateEnd(w2, maxItems, p);
  }

  lemma LateStart(w0: World, maxItems: int, p: Uuid) returns (w1: World, w2: World)
    requires maxItems >= 2
    requires w0 == World([], Subscriber(0, 0, map[], AwaitReplay([]), []), 0, [], false, false, false)
    ensures Possible(w0, Commit(p)) && w1 == Next(w0, maxItems, Commit(p))
    ensures Possible(w1, Turn) && w2 == Next(w1, maxItems, Turn)
    ensures var item := Item(1, p);
        w2 == World([item], Subscriber(0, 0, map[1 := item], Draining([item], 0), [item]), 0, [], false, false, false)
  {
    var item := Item(1, p);
    w1 := World([item], Subscriber(0, 0, map[1 := item], AwaitReplay([]), []), 0, [], false, false, false);
    assert w0.sub.buffer[1 := item] == map[1 := item] && w0.log + [item] == [item];
    assert Sorted(w1.sub.buffer, 1, 0) == [] && Sorted(w1.sub.buffer, 1, 1) == [item];
    DrainedIs(w1.sub.buffer, 1);
    w2 := w1.(sub := w1.sub.(phase := Draining([item], 0), delivered := [item]));
    assert w1.sub.delivered + [item] == [item];
  }

  lemma LateEnd(w2: World, maxItems: int, p: Uuid) returns (w3: World, w4: World)
    requires maxItems >= 2
    requires var item := Item(1, p);
        w2 == World([item], Subscriber(0, 0, map[1 := item], Draining([item], 0), [item]), 0, [], false, false, false)
    ensures Possible(w2, Commit(p)) && w3 == Next(w2, maxItems, Commit(p))
    ensures Possible(w3, Turn) && w4 == Next(w3, maxItems, Turn)
    ensures w4.sub.phase.Started? && w4.lateInDrain && w4.sub.delivered == [Item(1, p)] && |w4.log| == 2
  {
    assert |w2.sub.buffer| == 1;
    w3 := Next(w2, maxItems, Commit(p));
    w4 := Next(w3, maxItems, Turn);
  }

  lemma RunPrefix(w: World, maxItems: int, steps: seq<Step>, k: nat, before: World, after: World)
    requires k < |steps| && IsRun(w, maxItems, steps[..k]) && Run(w, maxItems, steps[..k]) == before
    requires Possible(before, steps[k]) && after == Next(before, maxItems, steps[k])
    ensures IsRun(w, maxItems, steps[..k + 1]) && Run(w, maxItems, steps[..k + 1]) == after
  {
    hide Next, Possible;
    assert steps[..k + 1][..k] == steps[..k];
  }

  /** An item that is published twice counts once. */
  lemma BufferedOnce(s: Subscriber, maxItems: int, item: Item)
    ensures Buffer(Buffer(s, maxItems, item), maxItems, item) == Buffer(s, maxItems, item)
  {
    assert s.buffer[item.cursor := item][item.cursor := item] == s.buffer[item.cursor := item];
  }

  // ---------------------------------------------------------------- the bound on the buffer

  lemma {:induction false} DrainingKeepsBuffer(s: Subscriber, items: seq<Item>, k: nat)
    requires k <= |items|
    ensures ContinueDrain(s, items, k).buffer == s.buffer || ContinueDrain(s, items, k).buffer == map[]
    decreases |items| - k
  {
    if k < |items| { DrainingKeepsBuffer(s, items, k + 1); }
  }

  lemma {:induction false} ReplayingKeepsBuffer(s: Subscriber, items: seq<Item>, k: nat)
    requires k <= |items|
    ensures ContinueReplay(s, items, k).buffer == s.buffer || ContinueReplay(s, items, k).buffer == map[]
    decreases |items| - k
  {
    hide Drained, ContinueDrain;
    if k < |items| { ReplayingKeepsBuffer(s, items, k + 1); } else { DrainingKeepsBuffer(s, Drained(s.buffer), 0); }
  }

  lemma TurnKeepsBuffer(s: Subscriber)
    requires s.phase.Replaying? || s.phase.Draining? ==> s.phase.k < |s.phase.items|
    ensures Resume(s).buffer == s.buffer || Resume(s).buffer == map[]
  {
    hide ContinueReplay, ContinueDrain;
    match s.phase {
      case AwaitReplay(items) => ReplayingKeepsBuffer(s, items, 0);
      case Replaying(items, k) => ReplayingKeepsBuffer(s.(last := items[k].cursor), items, k + 1);
      case Draining(items, k) => DrainingKeepsBuffer(s.(last := items[k].cursor), items, k + 1);
      case Started =>
    }
  }

  lemma OneMoreKey(buffer: map<int, Item>, item: Item)
    ensures |buffer[item.cursor := item]| == |buffer| + if item.cursor in buffer then 0 else 1
  {
    assert buffer[item.cursor := item].Keys == buffer.Keys + {item.cursor};
    assert |buffer[item.cursor := item]| == |buffer[item.cursor := item].Keys| && |buffer| == |buffer.Keys|;
  }

  lemma {:induction false} BufferIsBounded(w: World, maxItems: int, steps: seq<Step>)
    requires IsRun(w, maxItems, steps) && |w.sub.buffer| <= maxItems
    ensures |Run(w, maxItems, steps).sub.buffer| <= maxItems
    decreases |steps|
  {
    hide Resume, Passes;
    if steps != [] {
      var before, step := Run(w, maxItems, steps[..|steps| - 1]), steps[|steps| - 1];
      BufferIsBounded(w, maxItems, steps[..|steps| - 1]);
      if step.Turn? {
        TurnKeepsBuffer(before.sub);
      } else {
        OneMoreKey(before.sub.buffer, Item(|before.log| + 1, step.processId));
      }
    }
  }

  /** In any state of any run: the buffer holds at most `maxItems` items, and a commit overflows it if and
      only if it matches, the subscription is not yet live, and the buffer is full. */
  lemma OverflowsIff(store: S.World, afterCursor: int, processIds: seq<Uuid>, maxItems: nat, steps: seq<Step>,
      processId: Uuid)
    requires S.TableFromLog(store) && E.Replay(store.t, afterCursor, processIds).Ok?
    requires IsRun(Subscribe(store, afterCursor, processIds), maxItems, steps)
    ensures var w := Run(Subscribe(store, afterCursor, processIds), maxItems, steps);
            var w' := Next(w, maxItems, Commit(processId));
            var waits := (processIds == [] || processId in processIds) && !w.sub.phase.Started?;
            && |w.sub.buffer| <= maxItems
            && (w'.overflowed <==> w.overflowed || (waits && |w.sub.buffer| == maxItems))
            && (waits && |w.sub.buffer| < maxItems ==> |w'.sub.buffer| == |w.sub.buffer| + 1)
  {
    hide IsRun, Run, Expired;
    var w0 := Subscribe(store, afterCursor, processIds);
    SettledAlways(store, afterCursor, processIds, maxItems, steps);
    BufferIsBounded(w0, maxItems, steps);
    SameFilter(w0, maxItems, steps);
    var w := Run(w0, maxItems, steps);
    OneMoreKey(w.sub.buffer, Item(|w.log| + 1, processId));
    hide Subscribe;
    if !w.sub.phase.Started? { LastIsBehind(w); }
  }

  lemma LastIsBehind(w: World)
    requires Ordered(w) && !w.sub.phase.Started?
    ensures w.sub.last <= |w.log| && forall c :: c in w.sub.buffer ==> c <= |w.log|
  {
  }

  lemma {:induction false} SameFilter(w: World, maxItems: int, steps: seq<Step>)
    requires IsRun(w, maxItems, steps)
    ensures Run(w, maxItems, steps).processIds == w.processIds
    decreases |steps|
  {
    if steps != [] { SameFilter(w, maxItems, steps[..|steps| - 1]); }
  }
}
