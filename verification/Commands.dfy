/** Dispatch of commands to bridges: the router's memory, which a restart of the daemon clears,
    and the durable table (packages/daemon/src/command-router.ts, packages/daemon/src/store.ts). */
module Commands {
  import opened Wrappers
  import opened Events

  /** The body of a command.  `replacementArgs` must never reach the disk. */
  datatype Payload = Payload(body: string, replacementArgs: Option<string>)

  datatype Command = Command(commandId: Uuid, target: Producer, payload: Payload, expiresAt: Option<int>)

  datatype Status = Completed | Failed | Cancelled | TimedOut

  datatype Fault = Fault(code: string, message: string)

  datatype Outcome = Outcome(status: Status, result: Option<string>, error: Option<Fault>)

  /** A stored result: a whole `command.result` frame, or the bare outcome that the table writes
      when a bridge is lost. */
  datatype Stored = Framed(commandId: Uuid, outcome: Outcome) | Bare(outcome: Outcome)

  datatype State = Accepted | Finished(status: Status) | BridgeDisconnected

  const BRIDGE_LOST := Outcome(Failed, None, Some(Fault("bridge_disconnected", "Bridge disconnected")))

  datatype Error = CommandConflict | TargetUnavailable | ResultBeforeAck | AckWithoutCommand | CommandResultConflict

  // ---------------------------------------------------------------- the table

  datatype Row = Row(principal: string, command: Command, state: State, result: Option<Stored>)

  type Rows = map<Uuid, Row>

  datatype Receipt = Receipt(duplicate: bool, state: State, result: Option<Stored>)

  function Safe(c: Command): Command {
    c.(payload := c.payload.(replacementArgs := None))
  }

  function AcceptRow(rows: Rows, principal: string, c: Command): (Rows, Result<Receipt, Error>) {
    if c.commandId in rows then
      var known := rows[c.commandId];
      if known.principal != principal || known.command != Safe(c) then (rows, Err(CommandConflict))
      else (rows, Ok(Receipt(true, known.state, known.result)))
    else (rows[c.commandId := Row(principal, Safe(c), Accepted, None)], Ok(Receipt(false, Accepted, None)))
  }

  function CompleteRow(rows: Rows, commandId: Uuid, result: Stored): (Rows, Result<(), Error>) {
    if commandId !in rows then (rows, Err(ResultBeforeAck))
    else if rows[commandId].result.Some? && rows[commandId].result.value != result then
      (rows, Err(CommandResultConflict))
    else (rows[commandId := rows[commandId].(state := Finished(result.outcome.status), result := Some(result))], Ok(()))
  }

  predicate Orphaned(row: Row, instanceId: Uuid) {
    row.command.target.instanceId == instanceId && row.state.Accepted?
  }

  function FailRows(rows: Rows, instanceId: Uuid): Rows {
    map id | id in rows :: if Orphaned(rows[id], instanceId)
      then rows[id].(state := BridgeDisconnected, result := Some(Bare(BRIDGE_LOST)))
                           else rows[id]
  }

  // ---------------------------------------------------------------- the router

  datatype Item = Item(principal: string, command: Command, state: State, listening: bool)

  /** A `command.request` frame. */
  datatype Request = Request(commandId: Uuid, target: Producer, payload: Payload)

  /** A result handed to the client that waits for it. */
  datatype Notice = Notice(commandId: Uuid, outcome: Outcome)

  /** `sent` and `notified` are everything ever sent; they survive a restart of the daemon. */
  datatype Router = Router(bindings: set<Producer>, items: map<Uuid, Item>, rows: Rows,
                           sent: seq<Request>, notified: set<Notice>)

  datatype Ack = Ack(duplicate: bool, state: State)

  function Accept(s: Router, principal: string, c: Command, live: bool, listening: bool): (Router, Result<Ack, Error>) {
    if c.commandId in s.items then
      var known := s.items[c.commandId];
      if known.principal != principal || known.command != c then (s, Err(CommandConflict))
      else (s, Ok(Ack(true, known.state)))
    else if c.target !in s.bindings || !live then (s, Err(TargetUnavailable))
    else
      var (rows, durable) := AcceptRow(s.rows, principal, c);
      if durable.Err? then (s, Err(durable.error))
      else
        var receipt := durable.value;
        var s1 := s.(rows := rows, items := s.items[c.commandId := Item(principal, c, receipt.state, listening)]);
        (if !receipt.duplicate then s1.(sent := s.sent + [Request(c.commandId, c.target, c.payload)])
         else if receipt.result.Some? && listening then
           s1.(notified := s.notified + {Notice(c.commandId, receipt.result.value.outcome)})
         else s1,
         Ok(Ack(receipt.duplicate, receipt.state)))
  }

  function Finish(s: Router, id: Uuid, outcome: Outcome): (Router, Result<(), Error>)
    requires id in s.items
  {
    var (rows, answer) := CompleteRow(s.rows, id, Framed(id, outcome));
    if answer.Err? then (s, answer)
    else (s.(rows := rows, items := s.items[id := s.items[id].(state := Finished(outcome.status))],
             notified := if s.items[id].listening then s.notified + {Notice(id, outcome)} else s.notified), answer)
  }

  function Rejection(code: Option<string>): Outcome {
    Outcome(Failed, None, Some(Fault(if code.Some? then code.value else "bridge_rejected", "Bridge rejected command")))
  }

  /** `rejected` is None when the bridge accepted the command, or else the code it gave, if any. */
  function Acknowledge(s: Router, from: Producer, id: Uuid, rejected: Option<Option<string>>)
    : (Router, Result<(), Error>)
  {
    if id !in s.items || s.items[id].command.target != from then (s, Err(AckWithoutCommand))
    else if rejected.None? then (s, Ok(()))
    else Finish(s, id, Rejection(rejected.value))
  }

  function Complete(s: Router, from: Producer, id: Uuid, outcome: Outcome): (Router, Result<(), Error>) {
    if id !in s.items || s.items[id].command.target != from then (s, Err(ResultBeforeAck))
    else Finish(s, id, outcome)
  }

  predicate Abandoned(item: Item, target: Producer) {
    item.command.target == target && item.state.Accepted?
  }

  function Abandon(items: map<Uuid, Item>, target: Producer): map<Uuid, Item> {
    map id | id in items :: if Abandoned(items[id], target) then items[id].(state := BridgeDisconnected) else items[id]
  }

  function LossNotices(items: map<Uuid, Item>, target: Producer): set<Notice> {
    set id | id in items && Abandoned(items[id], target) && items[id].listening :: Notice(id, BRIDGE_LOST)
  }

  function Disconnect(s: Router, target: Producer): Router {
    s.(bindings := s.bindings - {target}, rows := FailRows(s.rows, target.instanceId),
       items := Abandon(s.items, target), notified := s.notified + LossNotices(s.items, target))
  }

  // ---------------------------------------------------------------- the reference ledger

  /** The protocol package's `CommandLedger` (packages/protocol/src/index.ts). */
  datatype Entry = Entry(principal: string, request: Command, result: Option<Stored>)

  function LedgerAccept(l: map<Uuid, Entry>, principal: string, request: Command)
    : (map<Uuid, Entry>, Result<(bool, Option<Stored>), Error>)
  {
    var id := request.commandId;
    if id in l then
      if l[id].principal != principal || l[id].request != request then (l, Err(CommandConflict))
      else (l, Ok((true, l[id].result)))
    else (l[id := Entry(principal, request, None)], Ok((false, None)))
  }

  function LedgerComplete(l: map<Uuid, Entry>, id: Uuid, result: Stored): (map<Uuid, Entry>, Result<(), Error>) {
    if id !in l then (l, Err(ResultBeforeAck))
    else if l[id].result.Some? then (l, if l[id].result.value != result then Err(CommandResultConflict) else Ok(()))
    else (l[id := l[id].(result := Some(result))], Ok(()))
  }

  function LedgerOf(rows: Rows): map<Uuid, Entry> {
    map id | id in rows :: Entry(rows[id].principal, rows[id].command, rows[id].result)
  }
}

/** The table and the router as objects, proved against the functions of `Commands`. */
module CommandsClass {
  import opened Wrappers
  import opened Events
  import opened Commands

  class CommandTable {
    var rows: Rows

    constructor ()
      ensures rows == map[]
    {
      rows := map[];
    }

    method AcceptCommand(principal: string, c: Command) returns (receipt: Result<Receipt, Error>)
      modifies this
      ensures (rows, receipt) == AcceptRow(old(rows), principal, c)
    {
      var safe := Safe(c);
      if c.commandId in rows {
        var known := rows[c.commandId];
        if known.principal != principal || known.command != safe { return Err(CommandConflict); }
        return Ok(Receipt(true, known.state, known.result));
      }
      rows := rows[c.commandId := Row(principal, safe, Accepted, None)];
      return Ok(Receipt(false, Accepted, None));
    }

    method CompleteCommand(commandId: Uuid, result: Stored) returns (answer: Result<(), Error>)
      modifies this
      ensures (rows, answer) == CompleteRow(old(rows), commandId, result)
    {
      if commandId !in rows { return Err(ResultBeforeAck); }
      var row := rows[commandId];
      if row.result.Some? && row.result.value != result { return Err(CommandResultConflict); }
      rows := rows[commandId := row.(state := Finished(result.outcome.status), result := Some(result))];
      return Ok(());
    }

    method FailCommandsForInstance(instanceId: Uuid)
      modifies this
      ensures rows == FailRows(old(rows), instanceId)
    {
      rows := map id | id in rows :: if Orphaned(rows[id], instanceId)
        then rows[id].(state := BridgeDisconnected, result := Some(Bare(BRIDGE_LOST)))
                                     else rows[id];
    }
  }

  class CommandRouter {
    const store: CommandTable
    var bindings: set<Producer>
    var items: map<Uuid, Item>
    /** What was handed to the bindings' `send`, and to the items' `notify`. */
    var sent: seq<Request>
    var notified: set<Notice>

    function State(): Router
      reads this, store
    {
      Router(bindings, items, store.rows, sent, notified)
    }

    constructor (store: CommandTable)
      ensures this.store == store && State() == Router({}, map[], store.rows, [], {})
    {
      this.store := store;
      bindings, items, sent, notified := {}, map[], [], {};
    }

    method Bind(target: Producer)
      modifies this
      ensures State() == old(State()).(bindings := old(bindings) + {target})
    {
      bindings := bindings + {target};
    }

    method Accept(principal: string, c: Command, live: bool, listening: bool) returns (ack: Result<Ack, Error>)
      modifies this, store
      ensures (State(), ack) == Commands.Accept(old(State()), principal, c, live, listening)
    {
      if c.commandId in items {
        if items[c.commandId].principal != principal || items[c.commandId].command != c { return Err(CommandConflict); }
        return Ok(Ack(true, items[c.commandId].state));
      }
      if c.target !in bindings || !live { return Err(TargetUnavailable); }
      var durable := store.AcceptCommand(principal, c);
      if durable.Err? { return Err(durable.error); }
      items := items[c.commandId := Item(principal, c, durable.value.state, listening)];
      if !durable.value.duplicate {
        sent := sent + [Request(c.commandId, c.target, c.payload)];
      } else if durable.value.result.Some? && listening {
        notified := notified + {Notice(c.commandId, durable.value.result.value.outcome)};
      }
      return Ok(Ack(durable.value.duplicate, durable.value.state));
    }

    method Acknowledge(from: Producer, id: Uuid, rejected: Option<Option<string>>) returns (answer: Result<(), Error>)
      modifies this, store
      ensures (State(), answer) == Commands.Acknowledge(old(State()), from, id, rejected)
    {
      if id !in items || items[id].command.target != from { return Err(AckWithoutCommand); }
      if rejected.None? { return Ok(()); }
      answer := Finish(id, Rejection(rejected.value));
    }

    method Complete(from: Producer, id: Uuid, outcome: Outcome) returns (answer: Result<(), Error>)
      modifies this, store
      ensures (State(), answer) == Commands.Complete(old(State()), from, id, outcome)
    {
      if id !in items || items[id].command.target != from { return Err(ResultBeforeAck); }
      answer := Finish(id, outcome);
    }

    /** Completes in the table first; an error there leaves the router as it was. */
    method Finish(id: Uuid, outcome: Outcome) returns (answer: Result<(), Error>)
      requires id in items
      modifies this, store
      ensures (State(), answer) == Commands.Finish(old(State()), id, outcome)
    {
      answer := store.CompleteCommand(id, Framed(id, outcome));
      if answer.Err? { return; }
      items := items[id := items[id].(state := Finished(outcome.status))];
      if items[id].listening { notified := notified + {Notice(id, outcome)}; }
    }

    method Disconnect(target: Producer)
      modifies this, store
      ensures State() == Commands.Disconnect(old(State()), target)
    {
      bindings := bindings - {target};
      store.FailCommandsForInstance(target.instanceId);
      AbandonItems(target);
    }

    method AbandonItems(target: Producer)
      modifies this`items, this`notified
      ensures items == Abandon(old(items), target)
      ensures notified == old(notified) + LossNotices(old(items), target)
    {
      ghost var before := items;
      var todo := items.Keys;
      while todo != {}
        invariant todo <= before.Keys == items.Keys
        invariant forall id :: id in items ==>
            items[id] == if id in todo then before[id] else Abandon(before, target)[id]
        invariant old(notified) <= notified <= old(notified) + LossNotices(before, target)
        invariant forall n :: n in LossNotices(before, target) && n.commandId !in todo ==> n in notified
        decreases |todo|
      {
        var id :| id in todo;
        todo := todo - {id};
        if Abandoned(items[id], target) {
          items := items[id := items[id].(state := BridgeDisconnected)];
          if items[id].listening {
            assert Notice(id, BRIDGE_LOST) in LossNotices(before, target);
            notified := notified + {Notice(id, BRIDGE_LOST)};
          }
        }
      }
    }
  }
}

/** What dispatch keeps over every run, restarts and crashes of the daemon included. */
module CommandProperties {
  import opened Wrappers
  import opened Events
  import opened Commands

  datatype Step = Bind(target: Producer)
                | Accept(principal: string, command: Command, live: bool, listening: bool)
                | Acknowledge(from: Producer, id: Uuid, rejected: Option<Option<string>>)
                | Complete(from: Producer, id: Uuid, outcome: Outcome)
                | Disconnect(target: Producer)
                | Restart
                | Crash(principal: string, command: Command)  // the daemon dies between the row and the frame

  const START := Router({}, map[], map[], [], {})

  function Next(s: Router, step: Step): Router {
    match step
    case Bind(target) => s.(bindings := s.bindings + {target})
    case Accept(principal, c, live, listening) => Commands.Accept(s, principal, c, live, listening).0
    case Acknowledge(from, id, rejected) => Commands.Acknowledge(s, from, id, rejected).0
    case Complete(from, id, outcome) => Commands.Complete(s, from, id, outcome).0
    case Disconnect(target) => Commands.Disconnect(s, target)
    case Restart => s.(bindings := {}, items := map[])
    case Crash(principal, c) => s.(bindings := {}, items := map[], rows := AcceptRow(s.rows, principal, c).0)
  }

  function Run(steps: seq<Step>): Router {
    if steps == [] then START else Next(Run(steps[..|steps| - 1]), steps[|steps| - 1])
  }

  // ---------------------------------------------------------------- the invariant

  /** A row's state says what its result is. */
  predicate RowSound(id: Uuid, row: Row) {
    && row.command.commandId == id && row.command == Safe(row.command)
    && match row.state
       case Accepted => row.result.None?
       case Finished(status) => row.result.Some? && row.result.value.Framed?
         && row.result.value.outcome.status == status
       case BridgeDisconnected => row.result == Some(Bare(BRIDGE_LOST))
  }

  /** An item repeats its row; only a disconnect of the same instance under another process id
      can leave it behind. */
  predicate ItemSound(item: Item, row: Row) {
    && row.principal == item.principal && row.command == Safe(item.command)
    && (item.state == row.state || (item.state.Accepted? && row.state.BridgeDisconnected?))
  }

  predicate RequestSound(r: Request, row: Row) {
    row.command.target == r.target && row.command.payload == r.payload.(replacementArgs := None)
  }

  ghost predicate RowsSound(rows: Rows) {
    forall id :: id in rows ==> RowSound(id, rows[id])
  }

  ghost predicate ItemsSound(items: map<Uuid, Item>, rows: Rows) {
    forall id :: id in items ==> id in rows && ItemSound(items[id], rows[id])
  }

  /** At most one request per command, and it carries the accepted command to its target. */
  ghost predicate SentSound(sent: seq<Request>, rows: Rows) {
    && (forall k :: 0 <= k < |sent| ==> sent[k].commandId in rows && RequestSound(sent[k], rows[sent[k].commandId]))
    && (forall j, k :: 0 <= j < k < |sent| ==> sent[j].commandId != sent[k].commandId)
  }

  /** Clients are told stored results only. */
  ghost predicate NoticesSound(notified: set<Notice>, rows: Rows) {
    forall n :: n in notified ==>
      n.commandId in rows && rows[n.commandId].result.Some? && rows[n.commandId].result.value.outcome == n.outcome
  }

  ghost predicate Sound(s: Router) {
    RowsSound(s.rows) && ItemsSound(s.items, s.rows) && SentSound(s.sent, s.rows) && NoticesSound(s.notified, s.rows)
  }

  /** Rows are never removed or rewritten, and a result, once there, stays. */
  ghost predicate RowsKept(before: Rows, after: Rows) {
    forall id :: id in before ==> id in after && RowKept(before[id], after[id])
  }

  predicate RowKept(before: Row, after: Row) {
    && after.principal == before.principal && after.command == before.command
    && (before.result.Some? ==> after.result == before.result && after.state == before.state)
  }

  lemma AcceptRowKeeps(rows: Rows, principal: string, c: Command)
    requires RowsSound(rows)
    ensures RowsSound(AcceptRow(rows, principal, c).0) && RowsKept(rows, AcceptRow(rows, principal, c).0)
  {
  }

  lemma CompleteRowKeeps(rows: Rows, id: Uuid, outcome: Outcome)
    requires RowsSound(rows)
    ensures RowsSound(CompleteRow(rows, id, Framed(id, outcome)).0)
        && RowsKept(rows, CompleteRow(rows, id, Framed(id, outcome)).0)
  {
    assert id in rows ==> RowSound(id, rows[id]);
  }

  lemma FailRowsKeeps(rows: Rows, instanceId: Uuid)
    requires RowsSound(rows)
    ensures RowsSound(FailRows(rows, instanceId)) && RowsKept(rows, FailRows(rows, instanceId))
  {
    forall id | id in rows
      ensures RowSound(id, FailRows(rows, instanceId)[id]) && RowKept(rows[id], FailRows(rows, instanceId)[id])
    {
      assert RowSound(id, rows[id]);
    }
  }

  /** What was sent and told stays true of kept rows. */
  lemma KeptStaysSound(sent: seq<Request>, notified: set<Notice>, rows: Rows, rows': Rows)
    requires SentSound(sent, rows) && NoticesSound(notified, rows) && RowsKept(rows, rows')
    ensures SentSound(sent, rows') && NoticesSound(notified, rows')
  {
  }

  lemma FinishKeeps(s: Router, id: Uuid, outcome: Outcome)
    requires Sound(s) && id in s.items
    ensures Sound(Finish(s, id, outcome).0) && RowsKept(s.rows, Finish(s, id, outcome).0.rows)
  {
    hide RowsSound, RowsKept, SentSound;
    CompleteRowKeeps(s.rows, id, outcome);
    KeptStaysSound(s.sent, s.notified, s.rows, CompleteRow(s.rows, id, Framed(id, outcome)).0);
    if Finish(s, id, outcome).1.Err? { RowsKeptRefl(s.rows); }
  }

  lemma RowsKeptRefl(rows: Rows)
    ensures RowsKept(rows, rows)
  {
  }

  lemma DisconnectKeeps(s: Router, target: Producer)
    requires Sound(s)
    ensures Sound(Commands.Disconnect(s, target)) && RowsKept(s.rows, Commands.Disconnect(s, target).rows)
  {
    hide RowsSound, RowsKept, SentSound;
    var s', rows' := Commands.Disconnect(s, target), FailRows(s.rows, target.instanceId);
    FailRowsKeeps(s.rows, target.instanceId);
    KeptStaysSound(s.sent, s.notified, s.rows, rows');
    AbandonedFail(s.items, s.rows, target);
  }

  /** An abandoned item's row has or gets the lost bridge as its outcome. */
  lemma AbandonedFail(items: map<Uuid, Item>, rows: Rows, target: Producer)
    requires RowsSound(rows) && ItemsSound(items, rows)
    ensures var rows' := FailRows(rows, target.instanceId);
            forall id :: id in items ==>
              && (Abandoned(items[id], target) ==>
                  rows'[id].state.BridgeDisconnected? && rows'[id].result == Some(Bare(BRIDGE_LOST)))
              && ItemSound(items[id], rows'[id])
  {
    forall id | id in items
      ensures var row' := FailRows(rows, target.instanceId)[id];
              && (Abandoned(items[id], target) ==>
                  row'.state.BridgeDisconnected? && row'.result == Some(Bare(BRIDGE_LOST)))
              && ItemSound(items[id], row')
    {
      assert RowSound(id, rows[id]) && ItemSound(items[id], rows[id]);
    }
  }

  lemma AcceptKeeps(s: Router, principal: string, c: Command, live: bool, listening: bool)
    requires Sound(s)
    ensures Sound(Commands.Accept(s, principal, c, live, listening).0)
    ensures RowsKept(s.rows, Commands.Accept(s, principal, c, live, listening).0.rows)
  {
    hide RowsSound, RowsKept;
    var id, rows' := c.commandId, AcceptRow(s.rows, principal, c).0;
    AcceptRowKeeps(s.rows, principal, c);
    KeptStaysSound(s.sent, s.notified, s.rows, rows');
    RowsKeptRefl(s.rows);
  }

  lemma CrashKeeps(s: Router, principal: string, c: Command)
    requires Sound(s)
    ensures Sound(Next(s, Crash(principal, c))) && RowsKept(s.rows, Next(s, Crash(principal, c)).rows)
  {
    hide RowsSound, RowsKept, SentSound, NoticesSound;
    AcceptRowKeeps(s.rows, principal, c);
    KeptStaysSound(s.sent, s.notified, s.rows, AcceptRow(s.rows, principal, c).0);
  }

  lemma NextKeeps(s: Router, step: Step)
    requires Sound(s)
    ensures Sound(Next(s, step)) && RowsKept(s.rows, Next(s, step).rows)
  {
    hide RowsSound, SentSound, NoticesSound, RowsKept, Finish, Commands.Disconnect, Commands.Accept;
    RowsKeptRefl(s.rows);
    match step {
      case Accept(principal, c, live, listening) => AcceptKeeps(s, principal, c, live, listening);
      case Disconnect(target) => DisconnectKeeps(s, target);
      case Acknowledge(from, id, rejected) =>
        if id in s.items && rejected.Some? { FinishKeeps(s, id, Rejection(rejected.value)); }
      case Complete(from, id, outcome) =>
        if id in s.items { FinishKeeps(s, id, outcome); }
      case Crash(principal, c) => CrashKeeps(s, principal, c);
      case _ =>
    }
  }

  lemma {:induction false} SoundAlways(steps: seq<Step>)
    ensures Sound(Run(steps))
  {
    hide Next;
    if steps != [] {
      SoundAlways(steps[..|steps| - 1]);
      NextKeeps(Run(steps[..|steps| - 1]), steps[|steps| - 1]);
    }
  }

  // ---------------------------------------------------------------- the main results

  /** Over every run, with restarts and crashes anywhere: a command id causes at most one request
      frame, which carries the accepted command to its target; and all results ever handed to
      clients for one command are the same, the stored one. */
  lemma DispatchedAtMostOnce(steps: seq<Step>)
    ensures var s := Run(steps);
            && SentSound(s.sent, s.rows)
            && NoticesSound(s.notified, s.rows)
            && (forall m, n :: m in s.notified && n in s.notified && m.commandId == n.commandId ==> m == n)
            && (forall id :: id in s.rows ==> (s.rows[id].state.Accepted? <==> s.rows[id].result.None?))
  {
    hide Run;
    SoundAlways(steps);
    assert forall id :: id in Run(steps).rows ==> RowSound(id, Run(steps).rows[id]);
  }

  /** Without a crash between row and frame, every accepted command has been sent. */
  lemma {:induction false} DispatchedOnce(steps: seq<Step>, id: Uuid)
    requires forall k :: 0 <= k < |steps| ==> !steps[k].Crash?
    ensures id in Run(steps).rows <==> IsSent(Run(steps).sent, id)
  {
    hide Next;
    if steps != [] {
      DispatchedOnce(steps[..|steps| - 1], id);
      SentWithRow(Run(steps[..|steps| - 1]), steps[|steps| - 1], id);
    }
  }

  ghost predicate IsSent(sent: seq<Request>, id: Uuid) {
    exists k :: 0 <= k < |sent| && sent[k].commandId == id
  }

  lemma SentWithRow(s: Router, step: Step, id: Uuid)
    requires !step.Crash? && (id in s.rows <==> IsSent(s.sent, id))
    ensures id in Next(s, step).rows <==> IsSent(Next(s, step).sent, id)
  {
    var s' := Next(s, step);
    if IsSent(s.sent, id) {
      var k :| 0 <= k < |s.sent| && s.sent[k].commandId == id;
      assert s'.sent[k].commandId == id;
    }
    if step.Accept? && |s'.sent| > |s.sent| {
      assert s'.sent[|s.sent|].commandId == step.command.commandId;
      assert forall k :: 0 <= k < |s.sent| ==> s'.sent[k] == s.sent[k];
    }
  }

  /** The stored result is write-once over the rest of every run. */
  lemma {:induction false} ResultsAreWriteOnce(steps: seq<Step>, more: seq<Step>)
    ensures RowsKept(Run(steps).rows, Run(steps + more).rows)
    decreases |more|
  {
    if more == [] {
      assert steps + more == steps;
    } else {
      var n := |more| - 1;
      assert (steps + more)[..|steps + more| - 1] == steps + more[..n];
      ResultsAreWriteOnce(steps, more[..n]);
      SoundAlways(steps + more[..n]);
      NextKeeps(Run(steps + more[..n]), more[n]);
    }
  }

  /** Every step names a target whose instance belongs to that process. */
  ghost predicate OwnedTargets(steps: seq<Step>, owner: map<Uuid, Uuid>) {
    forall k :: 0 <= k < |steps| ==> Owned(steps[k], owner)
  }

  predicate Owns(owner: map<Uuid, Uuid>, target: Producer) {
    target.instanceId in owner && owner[target.instanceId] == target.processId
  }

  predicate Owned(step: Step, owner: map<Uuid, Uuid>) {
    match step
    case Accept(_, c, _, _) => Owns(owner, c.target)
    case Crash(_, c) => Owns(owner, c.target)
    case Disconnect(target) => Owns(owner, target)
    case _ => true
  }

  /** When each instance belongs to one process, the router's memory and the table agree. */
  lemma {:induction false} MemoryAgreesWithTable(steps: seq<Step>, owner: map<Uuid, Uuid>)
    requires OwnedTargets(steps, owner)
    ensures Agrees(Run(steps), owner)
  {
    hide Next;
    if steps != [] {
      var n := |steps| - 1;
      MemoryAgreesWithTable(steps[..n], owner);
      SoundAlways(steps[..n]);
      assert Owned(steps[n], owner);
      NextKeepsAgreement(Run(steps[..n]), steps[n], owner);
    }
  }

  ghost predicate Agrees(s: Router, owner: map<Uuid, Uuid>) {
    && (forall id :: id in s.rows ==> Owns(owner, s.rows[id].command.target))
    && StatesAgree(s)
  }

  ghost predicate StatesAgree(s: Router) {
    forall id :: id in s.items ==> id in s.rows && s.items[id].state == s.rows[id].state
  }

  lemma NextKeepsAgreement(s: Router, step: Step, owner: map<Uuid, Uuid>)
    requires Agrees(s, owner) && Sound(s) && Owned(step, owner)
    ensures Agrees(Next(s, step), owner)
  {
    hide Sound, Agrees, Finish, Commands.Disconnect, Commands.Accept, AcceptRow;
    match step {
      case Disconnect(target) => DisconnectKeepsAgreement(s, target, owner);
      case Accept(principal, c, live, listening) => AcceptKeepsAgreement(s, principal, c, live, listening, owner);
      case Acknowledge(from, id, rejected) =>
        if id in s.items && rejected.Some? { FinishKeepsAgreement(s, id, Rejection(rejected.value), owner); }
      case Complete(from, id, outcome) =>
        if id in s.items { FinishKeepsAgreement(s, id, outcome, owner); }
      case _ => RestKeepsAgreement(s, step, owner);
    }
  }

  lemma AcceptKeepsAgreement(s: Router, principal: string, c: Command, live: bool, listening: bool,
      owner: map<Uuid, Uuid>)
    requires Agrees(s, owner) && Owns(owner, c.target)
    ensures Agrees(Commands.Accept(s, principal, c, live, listening).0, owner)
  {
  }

  lemma FinishKeepsAgreement(s: Router, id: Uuid, outcome: Outcome, owner: map<Uuid, Uuid>)
    requires Agrees(s, owner) && id in s.items
    ensures Agrees(Finish(s, id, outcome).0, owner)
  {
  }

  lemma RestKeepsAgreement(s: Router, step: Step, owner: map<Uuid, Uuid>)
    requires Agrees(s, owner) && Owned(step, owner) && (step.Bind? || step.Restart? || step.Crash?)
    ensures Agrees(Next(s, step), owner)
  {
  }

  /** Under an owner, an item's bridge is lost exactly when its row's instance is. */
  lemma DisconnectKeepsAgreement(s: Router, target: Producer, owner: map<Uuid, Uuid>)
    requires Agrees(s, owner) && Sound(s) && Owns(owner, target)
    ensures Agrees(Commands.Disconnect(s, target), owner)
  {
    forall id | id in s.items ensures Abandoned(s.items[id], target) <==> Orphaned(s.rows[id], target.instanceId) {
      assert ItemSound(s.items[id], s.rows[id]) && Owns(owner, s.rows[id].command.target);
    }
  }

  /** The condition is needed: a disconnect under another process id fails the row but not the
      item. */
  lemma SharedInstanceDisagrees(c: Command, other: Producer)
    requires other.instanceId == c.target.instanceId && other.processId != c.target.processId
    ensures var s := Run([Bind(c.target), Accept("admin", c, true, true), Disconnect(other)]);
            && c.commandId in s.items && s.items[c.commandId].state.Accepted?
            && c.commandId in s.rows && s.rows[c.commandId].state.BridgeDisconnected?
  {
    RunThree(Bind(c.target), Accept("admin", c, true, true), Disconnect(other));
  }

  predicate WaitsForInstance(item: Item, target: Producer) {
    item.state.Accepted? && item.command.target.instanceId == target.instanceId
  }

  /** All that waits for the instance waits for it under the disconnected process. */
  ghost predicate WaitForTarget(items: map<Uuid, Item>, target: Producer) {
    forall id :: id in items && WaitsForInstance(items[id], target) ==> items[id].command.target == target
  }

  /** Exactly then: a disconnect keeps memory and table in agreement if and only if every accepted
      command in memory for the instance is for the disconnected process. */
  lemma DisconnectAgreesIff(s: Router, target: Producer)
    requires Sound(s) && StatesAgree(s)
    ensures StatesAgree(Commands.Disconnect(s, target)) <==> WaitForTarget(s.items, target)
  {
    var s' := Commands.Disconnect(s, target);
    forall id | id in s.items
      ensures s'.items[id].state == s'.rows[id].state
          <==> (Abandoned(s.items[id], target) <==> Orphaned(s.rows[id], target.instanceId))
    {
      assert ItemSound(s.items[id], s.rows[id]);
    }
    assert forall id :: id in s.items ==> ItemSound(s.items[id], s.rows[id]);
  }

  ghost predicate AgreeThroughout(steps: seq<Step>) {
    StatesAgree(Run(steps)) && (steps == [] || AgreeThroughout(steps[..|steps| - 1]))
  }

  /** Each disconnect, when it came, found nothing waiting for the instance under another process. */
  ghost predicate DisconnectsMatch(steps: seq<Step>) {
    steps == [] ||
    (&& DisconnectsMatch(steps[..|steps| - 1])
     && (steps[|steps| - 1].Disconnect? ==>
           WaitForTarget(Run(steps[..|steps| - 1]).items, steps[|steps| - 1].target)))
  }

  /** Only a disconnect can part memory and table. */
  lemma OthersKeepAgreement(s: Router, step: Step)
    requires Sound(s) && StatesAgree(s) && !step.Disconnect?
    ensures StatesAgree(Next(s, step))
  {
    hide Sound;
  }

  /** Over every run: memory and table agree in each of its states if and only if each of its
      disconnects found nothing waiting for the instance under another process id. */
  lemma {:induction false} AgreeThroughoutIff(steps: seq<Step>)
    ensures AgreeThroughout(steps) <==> DisconnectsMatch(steps)
  {
    if steps != [] {
      var before, step := steps[..|steps| - 1], steps[|steps| - 1];
      AgreeThroughoutIff(before);
      SoundAlways(before);
      if StatesAgree(Run(before)) {
        if step.Disconnect? {
          DisconnectAgreesIff(Run(before), step.target);
        } else {
          OthersKeepAgreement(Run(before), step);
        }
      }
      assert AgreeThroughout(before) ==> StatesAgree(Run(before));
    }
  }

  lemma RunThree(a: Step, b: Step, c: Step)
    ensures Run([a, b, c]) == Next(Next(Next(START, a), b), c)
  {
    hide Next;
    assert [a, b, c][..2] == [a, b] && [a, b][..1] == [a] && [a][..0] == [];
    assert Run([a]) == Next(START, a) && Run([a, b]) == Next(Run([a]), b);
  }

  /** The table does to accepted and completed commands what the reference ledger does, on
      commands without replacement arguments, which it never sees. */
  lemma TableRefinesLedger(rows: Rows, principal: string, c: Command, id: Uuid, result: Stored)
    ensures var (rows', answer) := AcceptRow(rows, principal, c);
            var (l, expected) := LedgerAccept(LedgerOf(rows), principal, Safe(c));
            && LedgerOf(rows') == l
            && answer.Ok? == expected.Ok?
            && (answer.Ok? ==> (answer.value.duplicate, answer.value.result) == expected.value)
            && (answer.Err? ==> answer.error == expected.error)
    ensures var (rows', answer) := CompleteRow(rows, id, result);
            (LedgerOf(rows'), answer) == LedgerComplete(LedgerOf(rows), id, result)
  {
    assert LedgerOf(AcceptRow(rows, principal, c).0) == LedgerAccept(LedgerOf(rows), principal, Safe(c)).0;
    assert LedgerOf(CompleteRow(rows, id, result).0) == LedgerComplete(LedgerOf(rows), id, result).0;
  }
}
