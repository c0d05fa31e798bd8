/** Which step ends a gated call, and with which answer; and which calls a policy catches. */
module GateAnswers {
  import opened Wrappers
  import opened Gates
  import opened GateProperties

  /** Whether a step ends the waiting call n. */
  predicate EndsCall(step: Step, call: Gates.Call, n: nat) {
    match step
    case Decide(d, _) => d.toolCallId == call.toolCallId && d.leaseId == call.policy.leaseId
    case Timer(m) => m == n
    case DisconnectLease(leaseId) => leaseId == call.policy.leaseId
    case Arm(_) => false
    case Call(_, _, _, _, _) => false
    case _ => true
  }

  /** Whether a decision lets its call through: an `allow` while the session is current, with no
      replacement or one that the tool's schema accepts for an input that can be replaced. */
  predicate LetsThrough(d: Decision, current: bool, input: Input) {
    && current && d.verdict.AllowIt?
    && (d.replacement.Some? ==> d.replacement.value.acceptable && input.Plain?)
  }

  /** The answer that a step which ends a call gives it. */
  function AnswerBy(step: Step, policy: Policy, input: Input): Answer {
    match step
    case Decide(d, current) => if LetsThrough(d, current, input) then Proceed else if current then Denied else Cancelled
    case Abort => Cancelled
    case Shutdown => Cancelled
    case _ => if policy.failMode.FailClosed? then Unavailable else Proceed
  }

  /** And what the audit says about it. */
  function OutcomeBy(step: Step, input: Input): Outcome {
    match step
    case Decide(d, current) =>
      if !current then StaleGeneration
      else if d.verdict.DenyIt? then Deny
      else if d.verdict.Unknown? then InvalidDecision
      else if d.replacement.None? then Allow
      else if LetsThrough(d, current, input) then Edit else EditRejected
    case Timer(_) => Timeout
    case DisconnectLease(_) => LeaseDisconnect
    case DaemonDisconnected => DaemonDisconnect
    case _ => Outcome.Abort
  }

  /** How a step ends call n. */
  function EndingBy(step: Step, call: Gates.Call, input: Input, n: nat): Resolution {
    Resolution(n, AnswerBy(step, call.policy, input), OutcomeBy(step, input))
  }

  /** Call n waits no more, and the step's new resolutions say how it ended. */
  ghost predicate EndedWith(s: Gate, s': Gate, r: Resolution) {
    r.call !in s'.pending && exists k: nat :: |s.resolved| <= k < |s'.resolved| && s'.resolved[k] == r
  }

  lemma AppendedEnds(s: Gate, s': Gate, r: Resolution)
    requires s'.resolved == s.resolved + [r] && r.call !in s'.pending
    ensures EndedWith(s, s', r)
  {
    assert s'.resolved[|s.resolved|] == r;
  }

  /** A decision ends the waiting call with its id and lease, and nothing else. */
  lemma DecisionEnds(s: Gate, step: Step, n: nat)
    requires WaitingSound(s) && step.Decide? && n in s.pending
    ensures Wellformed(s) && n < |s.calls|
    ensures var s' := Gates.Decide(s, step.decision, step.current);
            if EndsCall(step, s.calls[n], n) then EndedWith(s, s', EndingBy(step, s.calls[n], s.inputs[n], n))
            else n in s'.pending
  {
    hide Settle, PositionOf, EndedWith;
    var d := step.decision;
    var k := PositionIs(s, n);
    if Applies(s, d) {
      var m := Find(s, d.toolCallId).value;
      FoundWaits(s, d.toolCallId);
      var s1 := if step.current && d.verdict.AllowIt? && d.replacement.Some?
                   && d.replacement.value.acceptable && s.inputs[m].Plain?
        then s.(inputs := s.inputs[m := Plain(d.replacement.value.properties)]) else s;
      SameWaiting(s, s1);
      var r := EndingBy(step, s.calls[m], s.inputs[m], m);
      SettleEffect(s1, m, r.answer, r.outcome);
      assert Gates.Decide(s, d, step.current) == Settle(s1, d.toolCallId, r.answer, r.outcome);
      if n == m { AppendedEnds(s, Gates.Decide(s, d, step.current), r); }
    }
    if EndsCall(step, s.calls[n], n) { SettleEffect(s, n, Denied, Deny); }
  }

  lemma FoundWaits(s: Gate, toolCallId: string)
    requires WaitingSound(s) && Wellformed(s) && Find(s, toolCallId).Some?
    ensures Find(s, toolCallId).value in s.pending && Find(s, toolCallId).value < |s.calls|
    ensures s.calls[Find(s, toolCallId).value].toolCallId == toolCallId
  {
  }

  lemma SameWaiting(s: Gate, s1: Gate)
    requires WaitingSound(s) && s1 == s.(inputs := s1.inputs) && |s1.inputs| == |s.inputs|
    ensures WaitingSound(s1)
  {
  }

  /** A disconnect or an abort ends the listed calls. */
  lemma EachEnds(s: Gate, s1: Gate, ns: seq<nat>, outcome: Outcome, n: nat)
    requires WaitingSound(s) && WaitingSound(s1) && s1 == s.(policy := s1.policy, closed := s1.closed)
    requires (forall k :: 0 <= k < |ns| ==> ns[k] < |s.calls| && ns[k] in s.pending)
        && (forall j, k :: 0 <= j < k < |ns| ==> ns[j] != ns[k])
    requires n in s.pending && n < |s.calls|
    ensures Wellformed(s1)
    ensures var s' := SettleEach(s1, ns, outcome);
            if n in ns then
              EndedWith(s, s', Resolution(n, if outcome.Abort? then Cancelled
                                             else if s.calls[n].policy.failMode.FailClosed? then Unavailable
                                             else Proceed, outcome))
            else n in s'.pending
  {
    hide WaitingSound, SettleEach, Ended;
    WaitingIsWellformed(s1);
    SettleEachEffect(s1, ns, outcome);
    if n in ns {
      var k :| 0 <= k < |ns| && ns[k] == n;
      var s', ended := SettleEach(s1, ns, outcome), Ended(s.calls, ns, outcome);
      assert s'.resolved[|s.resolved| + k] == ended[k] == Ending(s.calls, n, outcome);
    }
  }

  lemma {:induction false} OfLeaseHas(calls: seq<Gates.Call>, ns: seq<nat>, leaseId: string, n: nat)
    requires forall k :: 0 <= k < |ns| ==> ns[k] < |calls|
    ensures n in OfLease(calls, ns, leaseId) <==> n in ns && n < |calls| && calls[n].policy.leaseId == leaseId
  {
    if ns != [] {
      var last := |ns| - 1;
      OfLeaseHas(calls, ns[..last], leaseId, n);
      assert n in ns <==> n in ns[..last] || n == ns[last];
    }
  }

  /** Every step ends exactly the waiting calls that it should, each with the answer it should. */
  lemma StepEnds(s: Gate, step: Step, n: nat)
    requires Sound(s) && Possible(s, step) && n in s.pending
    ensures n < |s.calls|
    ensures if EndsCall(step, s.calls[n], n)
            then EndedWith(s, Next(s, step), EndingBy(step, s.calls[n], s.inputs[n], n))
            else n in Next(s, step).pending
  {
    hide Sound, WaitingSound, Settle, SettleEach, GateCall, OfLease, PositionOf, Gates.Decide, TimerFires, EndedWith;
    SoundParts(s);
    PendingIsDistinct(s);
    PendingIsBelow(s);
    match step {
      case Decide(d, current) => DecisionEnds(s, step, n);
      case Timer(m) =>
        TimerSettlesItsCall(s, m);
        SettleEffect(s, m, Fallback(s.calls[m].policy), Timeout);
        if m == n { AppendedEnds(s, Next(s, step), EndingBy(step, s.calls[n], s.inputs[n], n)); }
      case DisconnectLease(leaseId) =>
        OfLeaseIsDistinct(s.calls, s.pending, leaseId);
        OfLeaseHas(s.calls, s.pending, leaseId, n);
        var s1 := if s.policy.Some? && s.policy.value.policy.leaseId == leaseId then s.(policy := None) else s;
        SamePending(s, s1);
        EachEnds(s, s1, OfLease(s.calls, s.pending, leaseId), LeaseDisconnect, n);
      case DaemonDisconnected => EachEnds(s, s, s.pending, DaemonDisconnect, n);
      case Abort => EachEnds(s, s, s.pending, Outcome.Abort, n);
      case Shutdown =>
        SamePending(s, s.(closed := true, policy := None));
        EachEnds(s, s.(closed := true, policy := None), s.pending, Outcome.Abort, n);
      case Arm(_) =>
      case Call(id, input, current, hasTool, cloneable) => CallOnlyAdds(s, id, input, current, hasTool, cloneable, n);
    }
  }

  lemma PendingIsBelow(s: Gate)
    requires WaitingSound(s)
    ensures Wellformed(s) && forall n :: n in s.pending ==> n < |s.calls|
  {
  }

  lemma CallOnlyAdds(s: Gate, toolCallId: string, input: Input, current: bool, hasTool: bool, cloneable: bool, n: nat)
    requires Wellformed(s) && n in s.pending
    ensures n in GateCall(s, toolCallId, input, current, hasTool, cloneable).0.pending
  {
    hide PositionOf;
  }

  // ---------------------------------------------------------------- over runs

  /** Step i of the run made the resolution. */
  ghost predicate EndedAt(steps: seq<Step>, i: nat, r: Resolution)
    requires IsRun(steps)
  {
    exists k: nat :: ResolvedAt(steps, k, i) && k < |Run(steps).resolved| && Run(steps).resolved[k] == r
  }

  lemma LastEnds(steps: seq<Step>, n: nat)
    requires IsRun(steps) && steps != [] && n in Run(steps[..|steps| - 1]).pending
    ensures var i := |steps| - 1;
            var s := Run(steps[..i]);
            && n < |s.calls| == |s.inputs|
            && if EndsCall(steps[i], s.calls[n], n)
               then EndedAt(steps, i, EndingBy(steps[i], s.calls[n], s.inputs[n], n))
               else n in Run(steps).pending
  {
    hide Next, Possible, Sound, EndsCall, AnswerBy, OutcomeBy;
    var i := |steps| - 1;
    var s := Run(steps[..i]);
    SoundAlways(steps[..i]);
    InputsOfCalls(steps[..i]);
    StepEnds(s, steps[i], n);
    assert steps[..i + 1] == steps;
    if EndsCall(steps[i], s.calls[n], n) {
      var k: nat :| |s.resolved| <= k < |Run(steps).resolved|
                    && Run(steps).resolved[k] == EndingBy(steps[i], s.calls[n], s.inputs[n], n);
      assert ResolvedAt(steps, k, i);
    }
  }

  /** Over every run: whatever waits when a step comes that should end it is resolved by that very
      step, with the answer that the step's verdict, timer or disconnect gives it, for good; and
      goes on waiting otherwise. */
  lemma {:induction false} WaitingCallEnds(steps: seq<Step>, i: nat, n: nat)
    requires IsRun(steps) && i < |steps| && IsRun(steps[..i]) && n in Run(steps[..i]).pending
    ensures IsRun(steps[..i + 1]) && n < |Run(steps[..i]).calls| == |Run(steps[..i]).inputs|
    ensures var s := Run(steps[..i]);
            if EndsCall(steps[i], s.calls[n], n)
            then EndedAt(steps, i, EndingBy(steps[i], s.calls[n], s.inputs[n], n))
            else n in Run(steps[..i + 1]).pending
    decreases |steps|
  {
    hide Next, Possible, EndsCall, EndingBy;
    var last := |steps| - 1;
    assert steps[..last + 1] == steps;
    if i == last {
      LastEnds(steps, n);
    } else {
      SamePrefixes(steps, last, i);
      WaitingCallEnds(steps[..last], i, n);
      var s := Run(steps[..i]);
      if EndsCall(steps[i], s.calls[n], n) {
        EndedStays(steps, i, EndingBy(steps[i], s.calls[n], s.inputs[n], n));
      }
    }
  }

  lemma EndedStays(steps: seq<Step>, i: nat, r: Resolution)
    requires IsRun(steps) && steps != [] && i < |steps| - 1 && EndedAt(steps[..|steps| - 1], i, r)
    ensures EndedAt(steps, i, r)
  {
    hide Next, Possible;
    var last := |steps| - 1;
    var before := Run(steps[..last]).resolved;
    var k: nat :| ResolvedAt(steps[..last], k, i) && k < |before| && before[k] == r;
    ResolvedGrows(steps);
    SamePrefixes(steps, last, i);
    assert ResolvedAt(steps, k, i) && Run(steps).resolved[k] == before[k];
  }

  /** And no call is resolved in any other way: each resolution was made by a step that should end
      its call, while it waited, with that answer. */
  lemma ResolvedByItsStep(steps: seq<Step>, k: nat) returns (i: nat)
    requires IsRun(steps) && k < |Run(steps).resolved|
    ensures ResolvedAt(steps, k, i)
    ensures var s, r := Run(steps[..i]), Run(steps).resolved[k];
            && r.call in s.pending && r.call < |s.calls| == |s.inputs| && EndsCall(steps[i], s.calls[r.call], r.call)
            && r == EndingBy(steps[i], s.calls[r.call], s.inputs[r.call], r.call)
  {
    hide Run, IsRun, EndsCall, EndingBy, StepExplained;
    i := ResolvingStep(steps, k);
    PrefixFacts(steps, i);
    ResolvedWaited(Run(steps[..i]), steps[i], k);
    StepAnswered(Run(steps[..i]), steps[i], k);
    assert Run(steps[..i + 1]).resolved[k] == Run(steps).resolved[k];
  }

  lemma PrefixFacts(steps: seq<Step>, i: nat)
    requires i < |steps| && IsRun(steps[..i]) && IsRun(steps[..i + 1])
    ensures Possible(Run(steps[..i]), steps[i]) && Run(steps[..i + 1]) == Next(Run(steps[..i]), steps[i])
    ensures Sound(Run(steps[..i])) && Sound(Run(steps[..i + 1]))
    ensures |Run(steps[..i]).calls| == |Run(steps[..i]).inputs|
  {
    hide Next, Possible, Sound;
    assert steps[..i + 1][..i] == steps[..i];
    SoundAlways(steps[..i]);
    SoundAlways(steps[..i + 1]);
    InputsOfCalls(steps[..i]);
  }

  /** What a step resolves has been waiting. */
  lemma ResolvedWaited(s: Gate, step: Step, k: nat)
    requires Sound(s) && Possible(s, step) && Sound(Next(s, step)) && |s.resolved| <= k < |Next(s, step).resolved|
    ensures Next(s, step).resolved[k].call in s.pending
  {
    hide Next, Possible, StepExplained, WaitingSound;
    NextExplained(s, step);
    var s' := Next(s, step);
    var n := s'.resolved[k].call;
    GrownFacts(s, s', step);
    CallsGrowOnlyByCall(s, step);
    assert forall j :: 0 <= j < |s.resolved| ==> s'.resolved[j] == s.resolved[j];
  }

  lemma GrownFacts(s: Gate, s': Gate, step: Step)
    requires StepExplained(s, s', step)
    ensures s.resolved <= s'.resolved && s.calls <= s'.calls
  {
  }

  lemma CallsGrowOnlyByCall(s: Gate, step: Step)
    requires Possible(s, step)
    ensures if step.Call? then Next(s, step).resolved == s.resolved else Next(s, step).calls == s.calls
  {
    hide PositionOf, Settle, SettleEach;
  }

  lemma StepAnswered(s: Gate, step: Step, k: nat)
    requires Sound(s) && Possible(s, step) && Sound(Next(s, step)) && |s.resolved| <= k < |Next(s, step).resolved|
    requires Next(s, step).resolved[k].call in s.pending
    ensures var r := Next(s, step).resolved[k];
            && r.call < |s.calls| && |s.inputs| == |s.calls| && EndsCall(step, s.calls[r.call], r.call)
            && r == EndingBy(step, s.calls[r.call], s.inputs[r.call], r.call)
  {
    hide Next, Possible, EndsCall, AnswerBy, OutcomeBy, WaitingSound, Counted, ArmingsSound;
    SoundIsWellformed(s);
    var s' := Next(s, step);
    var n := s'.resolved[k].call;
    StepEnds(s, step, n);
    if n in s'.pending {
      IsResolvedAt(s'.resolved, k);
    }
  }

  // ---------------------------------------------------------------- audits

  /** The audit of a resolution. */
  function AuditOf(calls: seq<Gates.Call>, r: Resolution): Audit
    requires r.call < |calls|
  {
    Audit(calls[r.call].toolCallId, calls[r.call].policy.leaseId, r.outcome)
  }

  ghost predicate Audited(s: Gate) {
    && |s.audits| == |s.resolved|
    && forall k :: 0 <= k < |s.resolved| ==>
         s.resolved[k].call < |s.calls| && s.audits[k] == AuditOf(s.calls, s.resolved[k])
  }

  lemma SettleAudits(s: Gate, toolCallId: string, answer: Answer, outcome: Outcome)
    requires Wellformed(s) && Audited(s)
    ensures Audited(Settle(s, toolCallId, answer, outcome))
  {
    hide PositionOf;
  }

  lemma {:induction false} SettleEachAudits(s: Gate, ns: seq<nat>, outcome: Outcome)
    requires Wellformed(s) && Audited(s) && forall k :: 0 <= k < |ns| ==> ns[k] < |s.calls|
    ensures Audited(SettleEach(s, ns, outcome))
    decreases |ns|
  {
    hide Audited, Settle;
    if ns != [] {
      SettleEachAudits(s, ns[..|ns| - 1], outcome);
      var before, call := SettleEach(s, ns[..|ns| - 1], outcome), s.calls[ns[|ns| - 1]];
      SettleAudits(before, call.toolCallId, if outcome.Abort? then Cancelled else Fallback(call.policy), outcome);
    }
  }

  lemma SameAudits(s: Gate, s': Gate)
    requires Audited(s) && s'.audits == s.audits && s'.resolved == s.resolved && s.calls <= s'.calls
    ensures Audited(s')
  {
  }

  lemma DecideAudits(s: Gate, d: Decision, current: bool)
    requires Wellformed(s) && Audited(s)
    ensures Audited(Gates.Decide(s, d, current))
  {
    hide Audited, Settle, PositionOf, Find;
    SettleAudits(s, d.toolCallId, Cancelled, StaleGeneration);
    SettleAudits(s, d.toolCallId, Denied, Deny);
    SettleAudits(s, d.toolCallId, Denied, InvalidDecision);
    SettleAudits(s, d.toolCallId, Denied, EditRejected);
    SettleAudits(s, d.toolCallId, Proceed, Allow);
    if Applies(s, d) && d.replacement.Some? {
      FoundIsBelow(s, d.toolCallId);
      var s1 := s.(inputs := s.inputs[Find(s, d.toolCallId).value := Plain(d.replacement.value.properties)]);
      SameAudits(s, s1);
      SettleAudits(s1, d.toolCallId, Proceed, Edit);
    }
  }

  lemma FoundIsBelow(s: Gate, toolCallId: string)
    requires Wellformed(s)
    ensures Find(s, toolCallId).Some? ==> Find(s, toolCallId).value < |s.calls|
  {
  }

  lemma NextAudits(s: Gate, step: Step)
    requires Possible(s, step) && Audited(s)
    ensures Audited(Next(s, step))
  {
    hide Audited, Settle, SettleEach, GateCall, OfLease, PositionOf, Gates.Decide;
    match step {
      case Decide(d, current) => DecideAudits(s, d, current);
      case Timer(n) =>
        SameAudits(s, s.(timers := s.timers - {n}));
        SettleAudits(s.(timers := s.timers - {n}), s.calls[n].toolCallId, Fallback(s.calls[n].policy), Timeout);
      case DisconnectLease(leaseId) =>
        var s1 := if s.policy.Some? && s.policy.value.policy.leaseId == leaseId then s.(policy := None) else s;
        SameAudits(s, s1);
        SettleEachAudits(s1, OfLease(s.calls, s.pending, leaseId), LeaseDisconnect);
      case DaemonDisconnected => SettleEachAudits(s, s.pending, DaemonDisconnect);
      case Abort => SettleEachAudits(s, s.pending, Outcome.Abort);
      case Shutdown =>
        SameAudits(s, s.(closed := true, policy := None));
        SettleEachAudits(s.(closed := true, policy := None), s.pending, Outcome.Abort);
      case Arm(_) => SameAudits(s, Next(s, step));
      case Call(id, input, current, hasTool, cloneable) =>
        CallKeepsRecords(s, id, input, current, hasTool, cloneable);
        SameAudits(s, Next(s, step));
    }
  }

  lemma CallKeepsRecords(s: Gate, toolCallId: string, input: Input, current: bool, hasTool: bool, cloneable: bool)
    requires Wellformed(s)
    ensures var s' := GateCall(s, toolCallId, input, current, hasTool, cloneable).0;
            s'.audits == s.audits && s'.resolved == s.resolved && s.calls <= s'.calls
  {
    hide PositionOf;
  }

  /** In every state of every run there is one audit for each resolution, which says whose call ended and
      how. */
  lemma {:induction false} AuditsTellAll(steps: seq<Step>)
    requires IsRun(steps)
    ensures Audited(Run(steps))
    decreases |steps|
  {
    hide Next, Possible;
    if steps != [] {
      AuditsTellAll(steps[..|steps| - 1]);
      NextAudits(Run(steps[..|steps| - 1]), steps[|steps| - 1]);
    }
  }

  // ---------------------------------------------------------------- which calls are caught

  ghost predicate Waits(s: Gate, toolCallId: string)
    requires Wellformed(s)
  {
    exists n :: n in s.pending && n < |s.calls| && s.calls[n].toolCallId == toolCallId
  }

  predicate InRange(policy: Policy) {
    policy.leaseId != "" && 1 <= policy.timeoutMs <= 300_000
  }

  /** Whether a call uses up a one-shot policy: it is caught, or let through for want of a tool. */
  ghost predicate Spends(s: Gate, step: Step, policy: Policy)
    requires Wellformed(s) && step.Call?
  {
    !policy.persistent && step.current && !Waits(s, step.toolCallId) && (step.hasTool || policy.failMode.FailOpen?)
  }

  predicate Shut(steps: seq<Step>) {
    exists i :: 0 <= i < |steps| && steps[i].Shutdown?
  }

  /** The policy in force: the one armed last, until its lease disconnects, the controller shuts down,
      or a call uses it up. */
  ghost function InForce(steps: seq<Step>): Option<Policy>
    requires IsRun(steps)
  {
    if steps == [] then None
    else
      var last := |steps| - 1;
      var before := InForce(steps[..last]);
      match steps[last]
      case Arm(policy) => if InRange(policy) && !Shut(steps[..last]) then Some(policy) else before
      case DisconnectLease(leaseId) => if before.Some? && before.value.leaseId == leaseId then None else before
      case Shutdown => None
      case Call(_, _, _, _, _) =>
        if before.Some? && Spends(Run(steps[..last]), steps[last], before.value) then None else before
      case _ => before
  }

  ghost predicate Shows(s: Gate, policy: Option<Policy>, shut: bool) {
    && s.closed == shut && (shut ==> policy.None?)
    && (policy.Some? <==> s.policy.Some?) && (policy.Some? ==> s.policy.value.policy == policy.value)
  }

  lemma WaitsIffFound(s: Gate, toolCallId: string)
    requires WaitingSound(s) && Wellformed(s)
    ensures Waits(s, toolCallId) <==> Find(s, toolCallId).Some?
  {
    hide PositionOf;
    if n :| n in s.pending && n < |s.calls| && s.calls[n].toolCallId == toolCallId { var k := PositionIs(s, n); }
    if Find(s, toolCallId).Some? { FoundWaits(s, toolCallId); }
  }

  lemma ShutOneMore(steps: seq<Step>)
    requires steps != []
    ensures Shut(steps) <==> Shut(steps[..|steps| - 1]) || steps[|steps| - 1].Shutdown?
  {
    if i :| 0 <= i < |steps| - 1 && steps[i].Shutdown? { assert steps[..|steps| - 1][i].Shutdown?; }
  }

  lemma {:induction false} SettlesKeepPolicy(s: Gate, ns: seq<nat>, outcome: Outcome)
    requires Wellformed(s) && forall k :: 0 <= k < |ns| ==> ns[k] < |s.calls|
    ensures SettleEach(s, ns, outcome).policy == s.policy && SettleEach(s, ns, outcome).closed == s.closed
    decreases |ns|
  {
    hide PositionOf;
    if ns != [] { SettlesKeepPolicy(s, ns[..|ns| - 1], outcome); }
  }

  lemma NextShows(s: Gate, step: Step, policy: Option<Policy>, shut: bool)
    requires Sound(s) && Possible(s, step) && Shows(s, policy, shut)
    ensures var policy' :=
              match step
              case Arm(p) => if InRange(p) && !shut then Some(p) else policy
              case DisconnectLease(leaseId) => if policy.Some? && policy.value.leaseId == leaseId then None else policy
              case Shutdown => None
              case Call(_, _, _, _, _) => if policy.Some? && Spends(s, step, policy.value) then None else policy
              case _ => policy;
            Shows(Next(s, step), policy', shut || step.Shutdown?)
  {
    hide Sound, Accounted, Settle, PositionOf, Waits, OfLease, SettleEach;
    SoundParts(s);
    match step {
      case Call(id, _, _, _, _) => WaitsIffFound(s, id);
      case DisconnectLease(leaseId) =>
        var s1 := if s.policy.Some? && s.policy.value.policy.leaseId == leaseId then s.(policy := None) else s;
        SettlesKeepPolicy(s1, OfLease(s.calls, s.pending, leaseId), LeaseDisconnect);
      case DaemonDisconnected => SettlesKeepPolicy(s, s.pending, DaemonDisconnect);
      case Abort => SettlesKeepPolicy(s, s.pending, Outcome.Abort);
      case Shutdown => SettlesKeepPolicy(s.(closed := true, policy := None), s.pending, Outcome.Abort);
      case Decide(d, current) => SettlingKeepsPolicy(s, d, current);
      case Timer(n) => TimerKeepsPolicy(s, n);
      case Arm(_) =>
    }
  }

  lemma SettlingKeepsPolicy(s: Gate, d: Decision, current: bool)
    requires Wellformed(s)
    ensures Gates.Decide(s, d, current).policy == s.policy && Gates.Decide(s, d, current).closed == s.closed
  {
    hide PositionOf, Find;
  }

  lemma TimerKeepsPolicy(s: Gate, n: nat)
    requires Wellformed(s) && n < |s.calls|
    ensures TimerFires(s, n).policy == s.policy && TimerFires(s, n).closed == s.closed
  {
    hide PositionOf;
  }

  lemma {:induction false} InForceAlways(steps: seq<Step>)
    requires IsRun(steps)
    ensures Shows(Run(steps), InForce(steps), Shut(steps))
    decreases |steps|
  {
    hide Next, Possible, Sound, Spends, Shows, Shut;
    if steps == [] {
      NothingInForce();
    } else {
      var last := |steps| - 1;
      InForceAlways(steps[..last]);
      SoundAlways(steps[..last]);
      SoundIsWellformed(Run(steps[..last]));
      ShutOneMore(steps);
      NextShows(Run(steps[..last]), steps[last], InForce(steps[..last]), Shut(steps[..last]));
    }
  }

  lemma NothingInForce()
    ensures Shows(NEW_GATE, None, Shut([]))
  {
  }

  /** What a tool call is told when it reaches the gate in any state of any run, by the policy in
      force; if it waits, it does so under that policy with a request sent to the policy's lease. */
  lemma GateReturns(steps: seq<Step>, id: string, input: Input, current: bool, hasTool: bool, cloneable: bool)
    requires IsRun(steps)
    ensures Wellformed(Run(steps))
    ensures var s, policy := Run(steps), InForce(steps);
            var (s', answer) := GateCall(s, id, input, current, hasTool, cloneable);
            if policy.None? then answer == Immediate(Proceed) && s' == s
            else if !current then answer == Immediate(Cancelled) && s' == s
            else if Waits(s, id) then answer == Immediate(Denied) && s' == s
            else if !hasTool then
              answer == Immediate(if policy.value.failMode.FailClosed? then Denied else Proceed)
            else if policy.value.includeArguments && !cloneable then answer == Throws && s'.pending == s.pending
            else
              var n := |s.calls|;
              && answer == Promise(n) && n in s'.pending && n in s'.timers && n < |s'.calls|
              && s'.calls[n].toolCallId == id && s'.calls[n].policy == policy.value && s'.calls[n].input == input
              && |s'.sent| == |s.sent| + 1 && s'.sent[|s.sent|] == Request(id, policy.value.leaseId)
  {
    hide Run, IsRun, Waits, PositionOf;
    InForceAlways(steps);
    SoundAlways(steps);
    SoundParts(Run(steps));
    WaitsIffFound(Run(steps), id);
  }
}
