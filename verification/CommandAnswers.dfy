/** What clients and bridges are told about commands. */
module CommandAnswers {
  import opened Wrappers
  import opened Events
  import opened Commands
  import opened CommandProperties

  /** A client that listens for a command which is no longer accepted has been told its stored
      result. */
  predicate Told(s: Router, id: Uuid)
    requires id in s.items
  {
    s.items[id].listening && !s.items[id].state.Accepted? ==>
      id in s.rows && s.rows[id].result.Some? && Notice(id, s.rows[id].result.value.outcome) in s.notified
  }

  ghost predicate AllTold(s: Router) {
    forall id :: id in s.items ==> Told(s, id)
  }

  lemma AcceptTells(s: Router, principal: string, c: Command, live: bool, listening: bool)
    requires Sound(s) && AllTold(s)
    ensures AllTold(Commands.Accept(s, principal, c, live, listening).0)
  {
    hide SentSound, NoticesSound;
    var s' := Commands.Accept(s, principal, c, live, listening).0;
    assert c.commandId in s.rows ==> RowSound(c.commandId, s.rows[c.commandId]);
    forall id | id in s'.items ensures Told(s', id) {
      assert id in s.items ==> Told(s, id);
    }
  }

  lemma FinishTells(s: Router, id: Uuid, outcome: Outcome)
    requires Sound(s) && AllTold(s) && id in s.items
    ensures AllTold(Finish(s, id, outcome).0)
  {
    hide SentSound, NoticesSound;
    var s' := Finish(s, id, outcome).0;
    forall k | k in s'.items ensures Told(s', k) {
      assert Told(s, k);
    }
  }

  lemma DisconnectTells(s: Router, target: Producer)
    requires Sound(s) && AllTold(s)
    ensures AllTold(Commands.Disconnect(s, target))
  {
    hide SentSound, NoticesSound;
    var s' := Commands.Disconnect(s, target);
    AbandonedFail(s.items, s.rows, target);
    FailRowsKeeps(s.rows, target.instanceId);
    forall id | id in s'.items ensures Told(s', id) {
      assert Told(s, id) && RowKept(s.rows[id], s'.rows[id]);
    }
  }

  lemma NextTells(s: Router, step: Step)
    requires Sound(s) && AllTold(s)
    ensures AllTold(Next(s, step))
  {
    hide Sound, Finish, Commands.Disconnect, Commands.Accept;
    match step {
      case Accept(principal, c, live, listening) => AcceptTells(s, principal, c, live, listening);
      case Disconnect(target) => DisconnectTells(s, target);
      case Acknowledge(from, id, rejected) =>
        if id in s.items && rejected.Some? { FinishTells(s, id, Rejection(rejected.value)); }
      case Complete(from, id, outcome) =>
        if id in s.items { FinishTells(s, id, outcome); }
      case _ =>
        assert forall id :: id in s.items ==> Told(s, id);
    }
  }

  /** Over every run, by a result, a rejection, a disconnect or a stored result: whoever listens for a
      command in memory that is no longer accepted has been told the result that is stored. */
  lemma {:induction false} ListenersAreTold(steps: seq<Step>)
    ensures AllTold(Run(steps))
  {
    hide Next;
    if steps != [] {
      ListenersAreTold(steps[..|steps| - 1]);
      SoundAlways(steps[..|steps| - 1]);
      NextTells(Run(steps[..|steps| - 1]), steps[|steps| - 1]);
    }
  }

  /** Another command is known under the id, in memory or, with its replacement arguments left out, in
      the table. */
  predicate KnownOtherwise(s: Router, principal: string, c: Command) {
    if c.commandId in s.items then s.items[c.commandId].principal != principal || s.items[c.commandId].command != c
    else c.commandId in s.rows
         && (s.rows[c.commandId].principal != principal || s.rows[c.commandId].command != Safe(c))
  }

  /** What the client is told in any state of any run: when its command is refused, when it is a
      duplicate, and in which state it is. */
  lemma AcceptAnswers(steps: seq<Step>, principal: string, c: Command, live: bool, listening: bool)
    ensures var s := Run(steps);
            var (s', answer) := Commands.Accept(s, principal, c, live, listening);
            var reachable := c.commandId in s.items || (c.target in s.bindings && live);
            && (answer == Err(TargetUnavailable) <==> !reachable)
            && (answer == Err(CommandConflict) <==> reachable && KnownOtherwise(s, principal, c))
            && if answer.Err? then s' == s
               else
                 && (answer.value.duplicate <==> c.commandId in s.rows)
                 && c.commandId in s'.items && answer.value.state == s'.items[c.commandId].state
                 && c.commandId in s'.rows && s'.rows[c.commandId].command == Safe(c)
                 && s'.rows[c.commandId].principal == principal
                 && s'.sent == if answer.value.duplicate then s.sent
                               else s.sent + [Request(c.commandId, c.target, c.payload)]
  {
    hide Run, SentSound, NoticesSound;
    SoundAlways(steps);
    var s := Run(steps);
    assert c.commandId in s.items ==> ItemSound(s.items[c.commandId], s.rows[c.commandId]);
  }

  /** The outcome is stored, and whoever listens has been told. */
  predicate Recorded(s: Router, id: Uuid, outcome: Outcome) {
    && id in s.items && id in s.rows && s.rows[id].result == Some(Framed(id, outcome))
    && s.items[id].state == Finished(outcome.status) && s.rows[id].state == Finished(outcome.status)
    && (s.items[id].listening ==> Notice(id, outcome) in s.notified)
  }

  /** Whether a bridge may speak about a command. */
  predicate Speaks(s: Router, from: Producer, id: Uuid) {
    id in s.items && s.items[id].command.target == from
  }

  /** What a bridge's result does in any state of any run. */
  lemma CompleteAnswers(steps: seq<Step>, from: Producer, id: Uuid, outcome: Outcome)
    ensures var s := Run(steps);
            var (s', answer) := Commands.Complete(s, from, id, outcome);
            && (answer == Err(ResultBeforeAck) <==> !Speaks(s, from, id))
            && (answer == Err(CommandResultConflict) <==>
                  Speaks(s, from, id) && s.rows[id].result.Some? && s.rows[id].result.value != Framed(id, outcome))
            && if answer.Ok? then Recorded(s', id, outcome) else s' == s
  {
    hide Run, SentSound, NoticesSound;
    SoundAlways(steps);
  }

  /** And what its acknowledgement does: a rejection fails the command under the code it gave. */
  lemma AcknowledgeAnswers(steps: seq<Step>, from: Producer, id: Uuid, rejected: Option<Option<string>>)
    ensures var s := Run(steps);
            var (s', answer) := Commands.Acknowledge(s, from, id, rejected);
            && (answer == Err(AckWithoutCommand) <==> !Speaks(s, from, id))
            && (answer.Ok? && rejected.Some? ==>
                  exists outcome :: Recorded(s', id, outcome) && outcome.status.Failed? && outcome.error.Some?
                                    && outcome.error.value.code
                                       == (if rejected.value.Some? then rejected.value.value else "bridge_rejected"))
            && (answer.Err? || rejected.None? ==> s' == s)
  {
    hide Run, SentSound, NoticesSound;
    SoundAlways(steps);
    var s := Run(steps);
    var (s', answer) := Commands.Acknowledge(s, from, id, rejected);
    if answer.Ok? && rejected.Some? { assert Recorded(s', id, Rejection(rejected.value)); }
  }

  /** After a disconnect in any state of any run: whatever waited for the instance has failed because
      its bridge is gone. */
  lemma DisconnectAnswers(steps: seq<Step>, target: Producer, id: Uuid)
    requires id in Run(steps).rows && Orphaned(Run(steps).rows[id], target.instanceId)
    ensures var s' := Commands.Disconnect(Run(steps), target);
            && target !in s'.bindings && id in s'.rows && s'.rows[id].result.Some?
            && var outcome := s'.rows[id].result.value.outcome;
               && outcome.status.Failed? && outcome.error.Some? && outcome.error.value.code == "bridge_disconnected"
               && (id in Run(steps).items && Run(steps).items[id].command.target == target
                     && Run(steps).items[id].listening && Run(steps).items[id].state.Accepted? ==>
                     Notice(id, outcome) in s'.notified)
  {
    hide Run;
  }
}
