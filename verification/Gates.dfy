/** Remote approval of tool calls (`GateController`, pi-extension/remote-control/gates.ts). */
module Gates {
  import opened Wrappers

  datatype FailMode = FailOpen | FailClosed

  datatype Policy = Policy(leaseId: string, failMode: FailMode, timeoutMs: int, includeArguments: bool,
    persistent: bool)

  /** What the tool runner is told; `Proceed` is JavaScript's undefined. */
  datatype Answer = Proceed | Denied | Unavailable | Cancelled

  /** The input of a tool call: a plain object, or something else. */
  datatype Input = Plain(properties: map<string, string>) | NotPlain

  datatype Outcome = Timeout | StaleGeneration | Deny | InvalidDecision | Edit | EditRejected | Allow
                   | LeaseDisconnect | DaemonDisconnect | Abort

  /** A tool call that waits, or waited, for a decision: the policy it was caught by, and the
      arming that set that policy.  The number of a call names its promise, its timer and its
      event object. */
  datatype Call = Call(toolCallId: string, policy: Policy, arming: nat, input: Input)

  datatype Resolution = Resolution(call: nat, answer: Answer, outcome: Outcome)

  datatype Audit = Audit(toolCallId: string, leaseId: string, outcome: Outcome)

  /** A `tool_gate.request` frame. */
  datatype Request = Request(toolCallId: string, leaseId: string)

  datatype Armed = Armed(policy: Policy, arming: nat)

  /** `pending` is the map of waiting calls in insertion order; `inputs` the inputs of all calls
      as they are now. */
  datatype Gate = Gate(policy: Option<Armed>, closed: bool, pending: seq<nat>, timers: set<nat>, armings: nat,
                       calls: seq<Call>, inputs: seq<Input>, sent: seq<Request>, audits: seq<Audit>,
                       resolved: seq<Resolution>)

  const NEW_GATE := Gate(None, false, [], {}, 0, [], [], [], [], [])

  datatype Error = GateClosed | InvalidGatePolicy

  predicate Wellformed(s: Gate) {
    |s.inputs| == |s.calls| && forall k :: 0 <= k < |s.pending| ==> s.pending[k] < |s.calls|
  }

  function Arm(s: Gate, policy: Policy): Result<Gate, Error> {
    if s.closed then Err(GateClosed)
    else if policy.leaseId == "" || policy.timeoutMs < 1 || policy.timeoutMs > 300_000 then Err(InvalidGatePolicy)
    else Ok(s.(policy := Some(Armed(policy, s.armings)), armings := s.armings + 1))
  }

  /** The position in `pending` of the call with an id; |pending| when none waits. */
  function PositionOf(s: Gate, toolCallId: string, from: nat): (k: nat)
    requires Wellformed(s) && from <= |s.pending|
    ensures from <= k <= |s.pending|
    ensures k < |s.pending| ==> s.calls[s.pending[k]].toolCallId == toolCallId
    ensures forall j :: from <= j < k ==> s.calls[s.pending[j]].toolCallId != toolCallId
    decreases |s.pending| - from
  {
    if from == |s.pending| || s.calls[s.pending[from]].toolCallId == toolCallId then from
      else PositionOf(s, toolCallId, from + 1)
  }

  function Find(s: Gate, toolCallId: string): Option<nat>
    requires Wellformed(s)
  {
    var k := PositionOf(s, toolCallId, 0);
    if k == |s.pending| then None else Some(s.pending[k])
  }

  /** How a call ends when nobody decides. */
  function Fallback(policy: Policy): Answer {
    if policy.failMode.FailOpen? then Proceed else Unavailable
  }

  function Settle(s: Gate, toolCallId: string, answer: Answer, outcome: Outcome): (s': Gate)
    requires Wellformed(s)
    ensures Wellformed(s') && s'.calls == s.calls
  {
    var k := PositionOf(s, toolCallId, 0);
    if k == |s.pending| then s
    else
      var n := s.pending[k];
      s.(pending := Removed(s.pending, k), timers := s.timers - {n},
         audits := s.audits + [Audit(toolCallId, s.calls[n].policy.leaseId, outcome)],
         resolved := s.resolved + [Resolution(n, answer, outcome)])
  }

  // ---------------------------------------------------------------- gate

  datatype GateReturn = Immediate(answer: Answer) | Promise(call: nat) | Throws

  /** `current`: the session is still this one.  `hasTool`: the tool is known with a schema.
      `cloneable`: the input is JSON that `cloneJson` accepts. */
  function GateCall(s: Gate, toolCallId: string, input: Input, current: bool, hasTool: bool, cloneable: bool)
    : (Gate, GateReturn)
    requires Wellformed(s)
  {
    if s.policy.None? || s.closed then (s, Immediate(Proceed))
    else if !current then (s, Immediate(Cancelled))
    else if Find(s, toolCallId).Some? then (s, Immediate(Denied))
    else
      var Armed(policy, arming) := s.policy.value;
      var spent := if policy.persistent then s else s.(policy := None);
      if !hasTool then
        (if policy.failMode.FailOpen? then spent else s,
         Immediate(if policy.failMode.FailOpen? then Proceed else Denied))
      else if policy.includeArguments && !cloneable then (spent, Throws)
      else
        var n := |s.calls|;
        (spent.(pending := s.pending + [n], timers := s.timers + {n},
                calls := s.calls + [Call(toolCallId, policy, arming, input)],
                inputs := s.inputs + [input], sent := s.sent + [Request(toolCallId, policy.leaseId)]), Promise(n))
  }

  // ---------------------------------------------------------------- decide

  datatype Verdict = AllowIt | DenyIt | Unknown

  /** New arguments; `acceptable` if the tool's schema has no references and accepts their clone. */
  datatype Replacement = Replacement(properties: map<string, string>, acceptable: bool)

  datatype Decision = Decision(toolCallId: string, leaseId: string, verdict: Verdict, replacement: Option<Replacement>)

  /** Whether a decision is about a waiting call and comes from its own lease. */
  predicate Applies(s: Gate, d: Decision)
    requires Wellformed(s)
  {
    var n := Find(s, d.toolCallId);
    n.Some? && s.calls[n.value].policy.leaseId == d.leaseId
  }

  function Decide(s: Gate, d: Decision, current: bool): Gate
    requires Wellformed(s)
  {
    if !Applies(s, d) then s
    else if !current then Settle(s, d.toolCallId, Cancelled, StaleGeneration)
    else if d.verdict.DenyIt? then Settle(s, d.toolCallId, Denied, Deny)
    else if !d.verdict.AllowIt? then Settle(s, d.toolCallId, Denied, InvalidDecision)
    else if d.replacement.None? then Settle(s, d.toolCallId, Proceed, Allow)
    else
      var n := Find(s, d.toolCallId).value;
      if !d.replacement.value.acceptable || s.inputs[n].NotPlain? then Settle(s, d.toolCallId, Denied, EditRejected)
      else Settle(s.(inputs := s.inputs[n := Plain(d.replacement.value.properties)]), d.toolCallId, Proceed, Edit)
  }

  // ---------------------------------------------------------------- timers and disconnects

  /** A timer knows its call's id and policy only. */
  function TimerFires(s: Gate, n: nat): Gate
    requires Wellformed(s) && n < |s.calls|
  {
    Settle(s.(timers := s.timers - {n}), s.calls[n].toolCallId, Fallback(s.calls[n].policy), Timeout)
  }

  function SettleEach(s: Gate, ns: seq<nat>, outcome: Outcome): (s': Gate)
    requires Wellformed(s) && forall k :: 0 <= k < |ns| ==> ns[k] < |s.calls|
    ensures Wellformed(s') && s'.calls == s.calls
  {
    if ns == [] then s
    else
      var before, call := SettleEach(s, ns[..|ns| - 1], outcome), s.calls[ns[|ns| - 1]];
      Settle(before, call.toolCallId, if outcome.Abort? then Cancelled else Fallback(call.policy), outcome)
  }

  /** The waiting calls of a lease. */
  function OfLease(calls: seq<Call>, ns: seq<nat>, leaseId: string): (found: seq<nat>)
    requires forall k :: 0 <= k < |ns| ==> ns[k] < |calls|
    ensures forall k :: 0 <= k < |found| ==> found[k] < |calls| && found[k] in ns
  {
    if ns == [] then []
    else
      var before, n := OfLease(calls, ns[..|ns| - 1], leaseId), ns[|ns| - 1];
      assert forall k :: 0 <= k < |ns| - 1 ==> ns[..|ns| - 1][k] == ns[k];
      if calls[n].policy.leaseId == leaseId then before + [n] else before
  }

  function DisconnectLease(s: Gate, leaseId: string): Gate
    requires Wellformed(s)
  {
    var s1 := if s.policy.Some? && s.policy.value.policy.leaseId == leaseId then s.(policy := None) else s;
    SettleEach(s1, OfLease(s.calls, s.pending, leaseId), LeaseDisconnect)
  }

  function DaemonDisconnected(s: Gate): Gate
    requires Wellformed(s)
  {
    SettleEach(s, s.pending, DaemonDisconnect)
  }

  function AbortAll(s: Gate): Gate
    requires Wellformed(s)
  {
    SettleEach(s, s.pending, Abort)
  }

  function Shutdown(s: Gate): Gate
    requires Wellformed(s)
  {
    AbortAll(s.(closed := true, policy := None))
  }
}

/** The controller object, proved against the functions of `Gates`. */
module GatesClass {
  import opened Wrappers
  import opened Gates

  /** Deletes the target's own properties and defines the source's. */
  method ReplaceOwnProperties(target: map<string, string>, source: map<string, string>)
    returns (replaced: map<string, string>)
    ensures replaced == source
  {
    replaced := target;
    var todo := target.Keys;
    while todo != {}
      invariant replaced.Keys == todo
      decreases |todo|
    {
      var key :| key in todo;
      todo := todo - {key};
      replaced := replaced - {key};
    }
    todo := source.Keys;
    while todo != {}
      invariant todo <= source.Keys && replaced.Keys == source.Keys - todo
      invariant forall key :: key in replaced ==> replaced[key] == source[key]
      decreases |todo|
    {
      var key :| key in todo;
      todo := todo - {key};
      replaced := replaced[key := source[key]];
    }
  }

  class GateController {
    var policy: Option<Armed>
    var closed: bool
    var pending: seq<nat>
    var timers: set<nat>
    var armings: nat
    var calls: seq<Call>
    var inputs: seq<Input>
    /** What was sent, audited and resolved, in order. */
    var sent: seq<Request>
    var audits: seq<Audit>
    var resolved: seq<Resolution>

    function State(): Gate
      reads this
    {
      Gate(policy, closed, pending, timers, armings, calls, inputs, sent, audits, resolved)
    }

    constructor ()
      ensures State() == NEW_GATE
    {
      policy, closed, pending, timers, armings := None, false, [], {}, 0;
      calls, inputs, sent, audits, resolved := [], [], [], [], [];
    }

    method Arm(p: Policy) returns (answer: Result<(), Error>)
      modifies this
      ensures var after := Gates.Arm(old(State()), p);
              if after.Err? then State() == old(State()) && answer == Err(after.error)
              else State() == after.value && answer == Ok(())
    {
      if closed { return Err(GateClosed); }
      if p.leaseId == "" || p.timeoutMs < 1 || p.timeoutMs > 300_000 { return Err(InvalidGatePolicy); }
      policy := Some(Armed(p, armings));
      armings := armings + 1;
      return Ok(());
    }

    method GateCall(toolCallId: string, input: Input, current: bool, hasTool: bool, cloneable: bool)
      returns (answer: GateReturn)
      requires Wellformed(State())
      modifies this
      ensures (State(), answer) == Gates.GateCall(old(State()), toolCallId, input, current, hasTool, cloneable)
    {
      if policy.None? || closed { return Immediate(Proceed); }
      if !current { return Immediate(Cancelled); }
      if Find(State(), toolCallId).Some? { return Immediate(Denied); }
      var Armed(p, arming) := policy.value;
      if !hasTool {
        if !p.persistent && p.failMode.FailOpen? { policy := None; }
        return Immediate(if p.failMode.FailOpen? then Proceed else Denied);
      }
      if !p.persistent { policy := None; }
      if p.includeArguments && !cloneable { return Throws; }
      var n := |calls|;
      sent := sent + [Request(toolCallId, p.leaseId)];
      calls := calls + [Call(toolCallId, p, arming, input)];
      inputs := inputs + [input];
      timers := timers + {n};
      pending := pending + [n];
      return Promise(n);
    }

    method Settle(toolCallId: string, answer: Answer, outcome: Outcome)
      requires Wellformed(State())
      modifies this`pending, this`timers, this`audits, this`resolved
      ensures State() == Gates.Settle(old(State()), toolCallId, answer, outcome)
    {
      var k := 0;
      while k < |pending| && calls[pending[k]].toolCallId != toolCallId
        invariant k <= |pending| && State() == old(State())
        invariant PositionOf(State(), toolCallId, 0) == PositionOf(State(), toolCallId, k)
      {
        k := k + 1;
      }
      if k == |pending| { return; }
      var n := pending[k];
      timers := timers - {n};
      pending := Removed(pending, k);
      audits := audits + [Audit(toolCallId, calls[n].policy.leaseId, outcome)];
      resolved := resolved + [Resolution(n, answer, outcome)];
    }

    /** Returns whether the decision was taken; a stale one changes nothing. */
    method Decide(d: Decision, current: bool) returns (accepted: bool)
      requires Wellformed(State())
      modifies this`pending, this`timers, this`audits, this`resolved, this`inputs
      ensures accepted == Applies(old(State()), d) && State() == Gates.Decide(old(State()), d, current)
    {
      var found := Find(State(), d.toolCallId);
      if found.None? || calls[found.value].policy.leaseId != d.leaseId { return false; }
      if !current { Settle(d.toolCallId, Cancelled, StaleGeneration); return true; }
      if d.verdict.DenyIt? { Settle(d.toolCallId, Denied, Deny); return true; }
      if !d.verdict.AllowIt? { Settle(d.toolCallId, Denied, InvalidDecision); return true; }
      if d.replacement.Some? {
        var n := found.value;
        if !d.replacement.value.acceptable || inputs[n].NotPlain? {
          Settle(d.toolCallId, Denied, EditRejected);
        } else {
          var properties := ReplaceOwnProperties(inputs[n].properties, d.replacement.value.properties);
          inputs := inputs[n := Plain(properties)];
          Settle(d.toolCallId, Proceed, Edit);
        }
        return true;
      }
      Settle(d.toolCallId, Proceed, Allow);
      return true;
    }

    method TimerFires(n: nat)
      requires Wellformed(State()) && n < |calls|
      modifies this`pending, this`timers, this`audits, this`resolved
      ensures State() == Gates.TimerFires(old(State()), n)
    {
      timers := timers - {n};
      Settle(calls[n].toolCallId, Fallback(calls[n].policy), Timeout);
    }

    method SettleEach(ns: seq<nat>, outcome: Outcome)
      requires Wellformed(State()) && forall k :: 0 <= k < |ns| ==> ns[k] < |calls|
      modifies this`pending, this`timers, this`audits, this`resolved
      ensures State() == Gates.SettleEach(old(State()), ns, outcome)
    {
      ghost var s := State();
      for k := 0 to |ns|
        invariant Wellformed(State()) && State() == Gates.SettleEach(s, ns[..k], outcome)
      {
        assert ns[..k + 1][..k] == ns[..k];
        var call := calls[ns[k]];
        Settle(call.toolCallId, if outcome.Abort? then Cancelled else Fallback(call.policy), outcome);
      }
      assert ns[..|ns|] == ns;
    }

    method DisconnectLease(leaseId: string)
      requires Wellformed(State())
      modifies this`policy, this`pending, this`timers, this`audits, this`resolved
      ensures State() == Gates.DisconnectLease(old(State()), leaseId)
    {
      if policy.Some? && policy.value.policy.leaseId == leaseId { policy := None; }
      SettleEach(OfLease(calls, pending, leaseId), LeaseDisconnect);
    }

    method DaemonDisconnected()
      requires Wellformed(State())
      modifies this`pending, this`timers, this`audits, this`resolved
      ensures State() == Gates.DaemonDisconnected(old(State()))
    {
      SettleEach(pending, DaemonDisconnect);
    }

    method Abort()
      requires Wellformed(State())
      modifies this`pending, this`timers, this`audits, this`resolved
      ensures State() == AbortAll(old(State()))
    {
      SettleEach(pending, Outcome.Abort);
    }

    method Shutdown()
      requires Wellformed(State())
      modifies this`closed, this`policy, this`pending, this`timers, this`audits, this`resolved
      ensures State() == Gates.Shutdown(old(State()))
    {
      closed := true;
      policy := None;
      Abort();
    }
  }
}

/** What gates keep under every interleaving of calls, decisions, timers and disconnects. */
module GateProperties {
  import opened Wrappers
  import opened Gates

  datatype Step = Arm(policy: Policy)
                | Call(toolCallId: string, input: Input, current: bool, hasTool: bool, cloneable: bool)
                | Decide(decision: Decision, current: bool)
                | Timer(call: nat)
                | DisconnectLease(leaseId: string)
                | DaemonDisconnected
                | Abort
                | Shutdown

  predicate Possible(s: Gate, step: Step) {
    Wellformed(s) && (step.Timer? ==> step.call in s.timers && step.call < |s.calls|)
  }

  function Next(s: Gate, step: Step): Gate
    requires Possible(s, step)
  {
    match step
    case Arm(policy) => var after := Gates.Arm(s, policy); if after.Ok? then after.value else s
    case Call(id, input, current, hasTool, cloneable) => GateCall(s, id, input, current, hasTool, cloneable).0
    case Decide(d, current) => Gates.Decide(s, d, current)
    case Timer(n) => TimerFires(s, n)
    case DisconnectLease(leaseId) => Gates.DisconnectLease(s, leaseId)
    case DaemonDisconnected => Gates.DaemonDisconnected(s)
    case Abort => AbortAll(s)
    case Shutdown => Gates.Shutdown(s)
  }

  predicate IsRun(steps: seq<Step>)
    decreases |steps|, 0
  {
    steps == [] || (IsRun(steps[..|steps| - 1]) && Possible(Run(steps[..|steps| - 1]), steps[|steps| - 1]))
  }

  function Run(steps: seq<Step>): Gate
    requires IsRun(steps)
    decreases |steps|, 1
  {
    if steps == [] then NEW_GATE else Next(Run(steps[..|steps| - 1]), steps[|steps| - 1])
  }

  // ---------------------------------------------------------------- promises and timers

  ghost predicate IsResolved(resolved: seq<Resolution>, n: nat) {
    exists k :: 0 <= k < |resolved| && resolved[k].call == n
  }

  /** Every call is waiting or resolved, never both, and resolved once. */
  ghost predicate Accounted(s: Gate) {
    && (forall n :: 0 <= n < |s.calls| ==> (n in s.pending <==> !IsResolved(s.resolved, n)))
    && (forall j, k :: 0 <= j < k < |s.resolved| ==> s.resolved[j].call != s.resolved[k].call)
    && (forall k :: 0 <= k < |s.resolved| ==> s.resolved[k].call < |s.calls|)
  }

  /** The waiting calls are distinct, have distinct ids, and each has its timer. */
  ghost predicate WaitingSound(s: Gate) {
    && Wellformed(s)
    && (forall j, k :: 0 <= j < k < |s.pending| ==>
        s.calls[s.pending[j]].toolCallId != s.calls[s.pending[k]].toolCallId)
    && (forall n :: n in s.timers <==> n in s.pending)
  }

  ghost predicate Counted(s: Gate) {
    |s.calls| == |s.sent| == |s.audits| + |s.pending| && |s.audits| == |s.resolved|
  }

  /** One arming of a one-shot policy catches at most one call. */
  ghost predicate ArmingsSound(s: Gate) {
    && (forall n :: 0 <= n < |s.calls| ==> s.calls[n].arming < s.armings)
    && (s.policy.Some? ==> s.policy.value.arming < s.armings)
    && (s.policy.Some? && !s.policy.value.policy.persistent ==>
          forall n :: 0 <= n < |s.calls| ==> s.calls[n].arming != s.policy.value.arming)
    && (s.policy.Some? ==> forall n :: 0 <= n < |s.calls| && s.calls[n].arming == s.policy.value.arming ==>
        s.calls[n].policy == s.policy.value.policy)
    && (forall m, n :: 0 <= m < n < |s.calls| && s.calls[m].arming == s.calls[n].arming ==>
        s.calls[m].policy.persistent)
  }

  ghost predicate Sound(s: Gate) {
    WaitingSound(s) && Accounted(s) && Counted(s) && ArmingsSound(s)
  }

  /** `rest` is a list without repetitions less one of its members. */
  lemma RemoveOne(ns: seq<nat>, k: nat)
    requires k < |ns| && forall i, j :: 0 <= i < j < |ns| ==> ns[i] != ns[j]
    ensures var rest := Removed(ns, k);
            && |rest| == |ns| - 1
            && (forall i :: 0 <= i < |rest| ==> rest[i] == if i < k then ns[i] else ns[i + 1])
            && (forall m :: m in rest <==> m in ns && m != ns[k])
  {
    var rest := Removed(ns, k);
    forall m | m in ns && m != ns[k] ensures m in rest {
      var i :| 0 <= i < |ns| && ns[i] == m;
      assert rest[if i < k then i else i - 1] == m;
    }
  }

  lemma PositionIs(s: Gate, n: nat) returns (k: nat)
    requires WaitingSound(s) && n in s.pending
    ensures k < |s.pending| && s.pending[k] == n && n < |s.calls| && k == PositionOf(s, s.calls[n].toolCallId, 0)
    ensures forall i, j :: 0 <= i < j < |s.pending| ==> s.pending[i] != s.pending[j]
  {
    k :| 0 <= k < |s.pending| && s.pending[k] == n;
    var found := PositionOf(s, s.calls[n].toolCallId, 0);
    assert found <= k;
  }

  /** Settling a waiting call resolves exactly that call. */
  lemma SettleEffect(s: Gate, n: nat, answer: Answer, outcome: Outcome)
    requires WaitingSound(s) && n in s.pending
    ensures n < |s.calls| && Find(s, s.calls[n].toolCallId) == Some(n)
    ensures var s' := Settle(s, s.calls[n].toolCallId, answer, outcome);
            && s'.resolved == s.resolved + [Resolution(n, answer, outcome)]
            && |s'.audits| == |s.audits| + 1 && |s'.pending| == |s.pending| - 1
            && (forall m :: m in s'.pending <==> m in s.pending && m != n)
            && s' == s.(pending := s'.pending, timers := s.timers - {n}, audits := s'.audits, resolved := s'.resolved)
            && WaitingSound(s')
  {
    hide PositionOf;
    var k := PositionIs(s, n);
    RemoveOne(s.pending, k);
  }

  lemma ResolvedOneMore(resolved: seq<Resolution>, r: Resolution, n: nat)
    ensures IsResolved(resolved + [r], n) <==> IsResolved(resolved, n) || n == r.call
  {
    if IsResolved(resolved, n) {
      var k :| 0 <= k < |resolved| && resolved[k].call == n;
      assert (resolved + [r])[k].call == n;
    }
    if n == r.call { assert (resolved + [r])[|resolved|].call == n; }
  }

  lemma SettleKeeps(s: Gate, n: nat, answer: Answer, outcome: Outcome)
    requires Sound(s) && n in s.pending
    ensures n < |s.calls| && Sound(Settle(s, s.calls[n].toolCallId, answer, outcome))
  {
    hide Settle, PositionOf, Find, IsResolved;
    SettleEffect(s, n, answer, outcome);
    forall m | 0 <= m < |s.calls|
      ensures IsResolved(s.resolved + [Resolution(n, answer, outcome)], m) <==> IsResolved(s.resolved, m) || m == n
    {
      ResolvedOneMore(s.resolved, Resolution(n, answer, outcome), m);
    }
    forall j | 0 <= j < |s.resolved| ensures s.resolved[j].call != n {
      IsResolvedAt(s.resolved, j);
    }
  }

  lemma IsResolvedAt(resolved: seq<Resolution>, j: nat)
    requires j < |resolved|
    ensures IsResolved(resolved, resolved[j].call)
  {
  }

  /** Settling by id: the one waiting call with the id, or nothing. */
  lemma SettleIdKeeps(s: Gate, toolCallId: string, answer: Answer, outcome: Outcome)
    requires Sound(s)
    ensures Sound(Settle(s, toolCallId, answer, outcome))
  {
    hide Sound, PositionOf;
    SoundIsWellformed(s);
    var k := PositionOf(s, toolCallId, 0);
    if k < |s.pending| { SettleKeeps(s, s.pending[k], answer, outcome); }
  }

  lemma SoundIsWellformed(s: Gate)
    requires Sound(s)
    ensures Wellformed(s)
  {
  }

  lemma {:induction false} SettleEachKeeps(s: Gate, ns: seq<nat>, outcome: Outcome)
    requires Sound(s) && Wellformed(s) && forall k :: 0 <= k < |ns| ==> ns[k] < |s.calls|
    ensures Sound(SettleEach(s, ns, outcome))
  {
    hide Sound, Settle;
    if ns != [] {
      SettleEachKeeps(s, ns[..|ns| - 1], outcome);
      var before, call := SettleEach(s, ns[..|ns| - 1], outcome), s.calls[ns[|ns| - 1]];
      SettleIdKeeps(before, call.toolCallId, if outcome.Abort? then Cancelled else Fallback(call.policy), outcome);
    }
  }

  /** A timer that fires settles its own call. */
  lemma TimerSettlesItsCall(s: Gate, n: nat)
    requires WaitingSound(s) && n in s.timers
    ensures n < |s.calls| && TimerFires(s, n) == Settle(s, s.calls[n].toolCallId, Fallback(s.calls[n].policy), Timeout)
  {
    hide PositionOf;
    var k := PositionIs(s, n);
    var s1 := s.(timers := s.timers - {n});
    SamePosition(s, s1, s.calls[n].toolCallId, 0);
    assert s1.timers - {n} == s.timers - {n};
  }

  lemma {:induction false} SamePosition(s: Gate, s': Gate, toolCallId: string, from: nat)
    requires Wellformed(s) && Wellformed(s') && s'.pending == s.pending && s'.calls == s.calls && from <= |s.pending|
    ensures PositionOf(s', toolCallId, from) == PositionOf(s, toolCallId, from)
    decreases |s.pending| - from
  {
    if from < |s.pending| { SamePosition(s, s', toolCallId, from + 1); }
  }

  lemma CallKeeps(s: Gate, toolCallId: string, input: Input, current: bool, hasTool: bool, cloneable: bool)
    requires Sound(s)
    ensures Sound(GateCall(s, toolCallId, input, current, hasTool, cloneable).0)
  {
    hide IsResolved, PositionOf;
    var s' := GateCall(s, toolCallId, input, current, hasTool, cloneable).0;
    if |s'.calls| > |s.calls| {
      var n := |s.calls|;
      assert s'.calls[n].arming == s.policy.value.arming;
      FreshIsUnresolved(s.resolved, n);
      assert forall k :: 0 <= k < |s.pending| ==> s'.pending[k] == s.pending[k];
      assert s'.pending[|s.pending|] == n;
    }
  }

  lemma FreshIsUnresolved(resolved: seq<Resolution>, n: nat)
    requires forall k :: 0 <= k < |resolved| ==> resolved[k].call < n
    ensures !IsResolved(resolved, n)
  {
  }

  lemma PolicyKeeps(s: Gate, s': Gate)
    requires Sound(s) && s' == s.(policy := s'.policy, armings := s'.armings, closed := s'.closed, inputs := s'.inputs)
    requires |s'.inputs| == |s.inputs|
    requires ((s'.policy == None || s'.policy == s.policy) && s'.armings == s.armings)
          || (s'.policy.Some? && s'.policy.value.arming == s.armings && s'.armings == s.armings + 1)
    ensures Sound(s')
  {
  }

  lemma NextKeepsSound(s: Gate, step: Step)
    requires Sound(s) && Possible(s, step)
    ensures Sound(Next(s, step))
  {
    hide Sound, Settle, SettleEach, GateCall, OfLease, PositionOf;
    match step {
      case Arm(policy) => if Gates.Arm(s, policy).Ok? { PolicyKeeps(s, Gates.Arm(s, policy).value); }
      case Call(id, input, current, hasTool, cloneable) => CallKeeps(s, id, input, current, hasTool, cloneable);
      case Decide(d, current) => DecideKeeps(s, d, current);
      case Timer(n) =>
        WaitingOf(s);
        TimerSettlesItsCall(s, n);
        SettleKeeps(s, n, Fallback(s.calls[n].policy), Timeout);
      case DisconnectLease(leaseId) =>
        var s1 := if s.policy.Some? && s.policy.value.policy.leaseId == leaseId then s.(policy := None) else s;
        PolicyKeeps(s, s1);
        SettleEachKeeps(s1, OfLease(s.calls, s.pending, leaseId), LeaseDisconnect);
      case DaemonDisconnected => SettleEachKeeps(s, s.pending, DaemonDisconnect);
      case Abort => SettleEachKeeps(s, s.pending, Outcome.Abort);
      case Shutdown =>
        PolicyKeeps(s, s.(closed := true, policy := None));
        SettleEachKeeps(s.(closed := true, policy := None), s.pending, Outcome.Abort);
    }
  }

  lemma WaitingOf(s: Gate)
    requires Sound(s)
    ensures WaitingSound(s) && forall n :: n in s.timers ==> n in s.pending
  {
  }

  lemma DecideKeeps(s: Gate, d: Decision, current: bool)
    requires Sound(s) && Wellformed(s)
    ensures Sound(Gates.Decide(s, d, current))
  {
    hide Sound, Settle, PositionOf;
    if Applies(s, d) {
      var n := Find(s, d.toolCallId).value;
      SettleIdKeeps(s, d.toolCallId, Cancelled, StaleGeneration);
      SettleIdKeeps(s, d.toolCallId, Denied, Deny);
      SettleIdKeeps(s, d.toolCallId, Denied, InvalidDecision);
      SettleIdKeeps(s, d.toolCallId, Denied, EditRejected);
      SettleIdKeeps(s, d.toolCallId, Proceed, Allow);
      if d.replacement.Some? {
        var s1 := s.(inputs := s.inputs[n := Plain(d.replacement.value.properties)]);
        PolicyKeeps(s, s1);
        SettleIdKeeps(s1, d.toolCallId, Proceed, Edit);
      }
    }
  }

  lemma {:induction false} SoundAlways(steps: seq<Step>)
    requires IsRun(steps)
    ensures Sound(Run(steps))
    decreases |steps|
  {
    hide Next, Possible;
    if steps != [] {
      SoundAlways(steps[..|steps| - 1]);
      NextKeepsSound(Run(steps[..|steps| - 1]), steps[|steps| - 1]);
    }
  }

  // ---------------------------------------------------------------- who let a call through

  /** The step is an `allow` for the call from its own lease, while the session was current. */
  predicate AllowsBy(step: Step, call: Gates.Call) {
    && step.Decide? && step.current && step.decision.verdict.AllowIt?
    && step.decision.toolCallId == call.toolCallId && step.decision.leaseId == call.policy.leaseId
  }

  /** It also edits the input. */
  predicate EditsBy(step: Step, call: Gates.Call, input: Input) {
    && AllowsBy(step, call) && step.decision.replacement.Some? && step.decision.replacement.value.acceptable
    && input == Plain(step.decision.replacement.value.properties)
  }

  /** What a step may do to calls, inputs and resolutions. */
  ghost predicate StepExplained(s: Gate, s': Gate, step: Step) {
    && s.calls <= s'.calls && s.resolved <= s'.resolved && |s.inputs| == |s.calls| && |s'.inputs| == |s'.calls|
    && (forall k :: 0 <= k < |s'.resolved| ==> s'.resolved[k].call < |s'.calls|)
    && (forall k :: |s.resolved| <= k < |s'.resolved| && s'.resolved[k].answer.Proceed? ==>
          var call := s'.calls[s'.resolved[k].call];
          call.policy.failMode.FailOpen? || AllowsBy(step, call))
    && (forall n :: 0 <= n < |s'.calls| ==>
          if n >= |s.calls| then s'.inputs[n] == s'.calls[n].input
          else s'.inputs[n] == s.inputs[n]
               || (EditsBy(step, s.calls[n], s'.inputs[n])
                   && s'.resolved == s.resolved + [Resolution(n, Proceed, Edit)]))
    && (forall k :: |s.resolved| <= k < |s'.resolved| && s'.resolved[k].outcome.Edit? ==>
          s'.resolved[k].call < |s.calls|
            && EditsBy(step, s.calls[s'.resolved[k].call], s'.inputs[s'.resolved[k].call]))
  }

  /** How the waiting calls end that a disconnect or an abort settles. */
  function Ended(calls: seq<Gates.Call>, ns: seq<nat>, outcome: Outcome): (ended: seq<Resolution>)
    requires forall k :: 0 <= k < |ns| ==> ns[k] < |calls|
    ensures |ended| == |ns| && forall k :: 0 <= k < |ns| ==> ended[k] == Ending(calls, ns[k], outcome)
  {
    if ns == [] then [] else Ended(calls, ns[..|ns| - 1], outcome) + [Ending(calls, ns[|ns| - 1], outcome)]
  }

  function Ending(calls: seq<Gates.Call>, n: nat, outcome: Outcome): Resolution
    requires n < |calls|
  {
    Resolution(n, if outcome.Abort? then Cancelled else Fallback(calls[n].policy), outcome)
  }

  /** Each of the listed waiting calls ends, in order, by its own policy; no other does. */
  lemma {:induction false} SettleEachEffect(s: Gate, ns: seq<nat>, outcome: Outcome)
    requires WaitingSound(s) && (forall k :: 0 <= k < |ns| ==> ns[k] < |s.calls|)
        && (forall k :: 0 <= k < |ns| ==> ns[k] in s.pending)
    requires forall j, k :: 0 <= j < k < |ns| ==> ns[j] != ns[k]
    ensures var s' := SettleEach(s, ns, outcome);
            && WaitingSound(s') && s'.resolved == s.resolved + Ended(s.calls, ns, outcome) && s'.inputs == s.inputs
            && (forall m :: m in s'.pending <==> m in s.pending && m !in ns)
  {
    hide WaitingSound, Settle, Ending;
    WaitingIsWellformed(s);
    if ns != [] {
      var n := |ns| - 1;
      SettleEachEffect(s, ns[..n], outcome);
      var before, call := SettleEach(s, ns[..n], outcome), s.calls[ns[n]];
      LastIsNew(ns);
      SettleEffect(before, ns[n], if outcome.Abort? then Cancelled else Fallback(call.policy), outcome);
      EndingIs(s.calls, ns[n], outcome);
      Associative(s.resolved, Ended(s.calls, ns[..n], outcome), [Ending(s.calls, ns[n], outcome)]);
    }
  }

  lemma EndingIs(calls: seq<Gates.Call>, n: nat, outcome: Outcome)
    requires n < |calls|
    ensures Ending(calls, n, outcome)
        == Resolution(n, if outcome.Abort? then Cancelled else Fallback(calls[n].policy), outcome)
  {
  }

  lemma LastIsNew(ns: seq<nat>)
    requires ns != [] && forall j, k :: 0 <= j < k < |ns| ==> ns[j] != ns[k]
    ensures ns[|ns| - 1] !in ns[..|ns| - 1]
    ensures forall m :: m in ns <==> m in ns[..|ns| - 1] || m == ns[|ns| - 1]
  {
  }

  lemma WaitingIsWellformed(s: Gate)
    requires WaitingSound(s)
    ensures Wellformed(s)
  {
  }

  lemma {:induction false} OfLeaseIsDistinct(calls: seq<Gates.Call>, ns: seq<nat>, leaseId: string)
    requires forall k :: 0 <= k < |ns| ==> ns[k] < |calls|
    requires forall j, k :: 0 <= j < k < |ns| ==> ns[j] != ns[k]
    ensures forall j, k :: 0 <= j < k < |OfLease(calls, ns, leaseId)| ==>
        OfLease(calls, ns, leaseId)[j] != OfLease(calls, ns, leaseId)[k]
  {
    if ns != [] {
      OfLeaseIsDistinct(calls, ns[..|ns| - 1], leaseId);
      var before := OfLease(calls, ns[..|ns| - 1], leaseId);
      assert forall k :: 0 <= k < |before| ==> before[k] in before;
      assert ns[|ns| - 1] !in ns[..|ns| - 1];
    }
  }

  lemma PendingIsDistinct(s: Gate)
    requires WaitingSound(s)
    ensures forall i, j :: 0 <= i < j < |s.pending| ==> s.pending[i] != s.pending[j]
    ensures forall k :: 0 <= k < |s.pending| ==> s.pending[k] in s.pending
  {
  }

  ghost predicate ResolvedWithin(s: Gate) {
    Wellformed(s) && forall k :: 0 <= k < |s.resolved| ==> s.resolved[k].call < |s.calls|
  }

  lemma EachExplained(s: Gate, s1: Gate, ns: seq<nat>, outcome: Outcome, step: Step)
    requires ResolvedWithin(s) && WaitingSound(s) && WaitingSound(s1)
        && s1 == s.(policy := s1.policy, closed := s1.closed)
    requires (forall k :: 0 <= k < |ns| ==> ns[k] < |s.calls|) && (forall k :: 0 <= k < |ns| ==> ns[k] in s.pending)
    requires (forall j, k :: 0 <= j < k < |ns| ==> ns[j] != ns[k]) && !outcome.Edit?
    ensures StepExplained(s, SettleEach(s1, ns, outcome), step)
  {
    hide WaitingSound, SettleEach, Ended, Ending;
    SettleEachEffect(s1, ns, outcome);
    EndedAreOwnEndings(s.calls, ns, outcome);
    AppendedExplained(s, SettleEach(s1, ns, outcome), Ended(s.calls, ns, outcome), step);
  }

  lemma EndedAreOwnEndings(calls: seq<Gates.Call>, ns: seq<nat>, outcome: Outcome)
    requires (forall k :: 0 <= k < |ns| ==> ns[k] < |calls|) && !outcome.Edit?
    ensures OwnEndings(calls, Ended(calls, ns, outcome))
  {
    hide Ended;
  }

  /** Each resolution ends a call by its own policy, without a decision. */
  ghost predicate OwnEndings(calls: seq<Gates.Call>, ended: seq<Resolution>) {
    forall k :: 0 <= k < |ended| ==> ended[k].call < |calls| && !ended[k].outcome.Edit?
                                     && (ended[k].answer.Proceed? ==> calls[ended[k].call].policy.failMode.FailOpen?)
  }

  lemma AppendedExplained(s: Gate, s': Gate, ended: seq<Resolution>, step: Step)
    requires ResolvedWithin(s) && s'.calls == s.calls && s'.inputs == s.inputs && s'.resolved == s.resolved + ended
    requires OwnEndings(s.calls, ended)
    ensures StepExplained(s, s', step)
  {
    hide AllowsBy, EditsBy;
    AppendedAre(s.resolved, ended);
  }

  lemma AppendedAre<T>(a: seq<T>, b: seq<T>)
    ensures a <= a + b && (forall k :: 0 <= k < |a| ==> (a + b)[k] == a[k])
    ensures forall k :: |a| <= k < |a + b| ==> (a + b)[k] == b[k - |a|]
  {
  }

  /** A settlement that lets a call through only if the step allows it. */
  lemma SettleExplained(s: Gate, toolCallId: string, answer: Answer, outcome: Outcome, step: Step)
    requires ResolvedWithin(s) && Find(s, toolCallId).Some? && !outcome.Edit?
    requires var call := s.calls[Find(s, toolCallId).value];
             answer.Proceed? ==> call.policy.failMode.FailOpen? || AllowsBy(step, call)
    ensures StepExplained(s, Settle(s, toolCallId, answer, outcome), step)
  {
    hide PositionOf, EditsBy, AllowsBy;
    var s' := Settle(s, toolCallId, answer, outcome);
    assert forall k :: 0 <= k < |s.resolved| ==> s'.resolved[k] == s.resolved[k];
  }

  lemma EditExplained(s: Gate, d: Decision, step: Step)
    requires ResolvedWithin(s) && Applies(s, d) && step == Decide(d, true) && d.verdict.AllowIt?
    requires d.replacement.Some? && d.replacement.value.acceptable
    ensures var n := Find(s, d.toolCallId).value;
            StepExplained(s, Settle(s.(inputs := s.inputs[n := Plain(d.replacement.value.properties)]), d.toolCallId,
              Proceed, Edit), step)
  {
    hide PositionOf;
    var n := Find(s, d.toolCallId).value;
    var s1 := s.(inputs := s.inputs[n := Plain(d.replacement.value.properties)]);
    SamePosition(s, s1, d.toolCallId, 0);
    var s' := Settle(s1, d.toolCallId, Proceed, Edit);
    assert s'.resolved == s.resolved + [Resolution(n, Proceed, Edit)];
    assert forall k :: 0 <= k < |s.resolved| ==> s'.resolved[k] == s.resolved[k];
  }

  lemma SameExplained(s: Gate, s': Gate, step: Step)
    requires ResolvedWithin(s) && s' == s.(policy := s'.policy, armings := s'.armings)
    ensures StepExplained(s, s', step)
  {
  }

  lemma CallExplained(s: Gate, step: Step)
    requires ResolvedWithin(s) && step.Call?
    ensures StepExplained(s, GateCall(s, step.toolCallId, step.input, step.current, step.hasTool, step.cloneable).0,
        step)
  {
    hide PositionOf, EditsBy, AllowsBy;
  }

  lemma DecideExplained(s: Gate, d: Decision, current: bool)
    requires ResolvedWithin(s)
    ensures StepExplained(s, Gates.Decide(s, d, current), Decide(d, current))
  {
    hide StepExplained, Settle, PositionOf, Find;
    var step := Decide(d, current);
    if !Applies(s, d) {
      SameExplained(s, s, step);
    } else if !current {
      SettleExplained(s, d.toolCallId, Cancelled, StaleGeneration, step);
    } else if d.verdict.DenyIt? {
      SettleExplained(s, d.toolCallId, Denied, Deny, step);
    } else if !d.verdict.AllowIt? {
      SettleExplained(s, d.toolCallId, Denied, InvalidDecision, step);
    } else {
      FoundHasId(s, d.toolCallId);
      if d.replacement.None? {
        SettleExplained(s, d.toolCallId, Proceed, Allow, step);
      } else if !d.replacement.value.acceptable || s.inputs[Find(s, d.toolCallId).value].NotPlain? {
        SettleExplained(s, d.toolCallId, Denied, EditRejected, step);
      } else {
        EditExplained(s, d, step);
      }
    }
  }

  lemma FoundHasId(s: Gate, toolCallId: string)
    requires Wellformed(s) && Find(s, toolCallId).Some?
    ensures Find(s, toolCallId).value < |s.calls| && s.calls[Find(s, toolCallId).value].toolCallId == toolCallId
  {
  }

  lemma NextExplained(s: Gate, step: Step)
    requires Sound(s) && Possible(s, step)
    ensures StepExplained(s, Next(s, step), step)
  {
    hide Sound, StepExplained, WaitingSound, Settle, SettleEach, GateCall, OfLease, PositionOf, Find, Gates.Decide,
      TimerFires;
    SoundParts(s);
    PendingIsDistinct(s);
    match step {
      case Arm(policy) => SameExplained(s, Next(s, step), step);
      case Call(_, _, _, _, _) => CallExplained(s, step);
      case Decide(d, current) => DecideExplained(s, d, current);
      case Timer(n) =>
        TimerSettlesItsCall(s, n);
        SettleEffect(s, n, Fallback(s.calls[n].policy), Timeout);
        SettleExplained(s, s.calls[n].toolCallId, Fallback(s.calls[n].policy), Timeout, step);
      case DisconnectLease(leaseId) =>
        OfLeaseIsDistinct(s.calls, s.pending, leaseId);
        var s1 := if s.policy.Some? && s.policy.value.policy.leaseId == leaseId then s.(policy := None) else s;
        SamePending(s, s1);
        EachExplained(s, s1, OfLease(s.calls, s.pending, leaseId), LeaseDisconnect, step);
      case DaemonDisconnected => EachExplained(s, s, s.pending, DaemonDisconnect, step);
      case Abort => EachExplained(s, s, s.pending, Outcome.Abort, step);
      case Shutdown =>
        SamePending(s, s.(closed := true, policy := None));
        EachExplained(s, s.(closed := true, policy := None), s.pending, Outcome.Abort, step);
    }
  }

  lemma SamePending(s: Gate, s1: Gate)
    requires WaitingSound(s) && s1 == s.(policy := s1.policy, closed := s1.closed)
    ensures WaitingSound(s1)
  {
  }

  lemma SoundParts(s: Gate)
    requires Sound(s)
    ensures WaitingSound(s) && ResolvedWithin(s) && forall n :: n in s.timers ==> n in s.pending
  {
  }

  // ---------------------------------------------------------------- the main results

  /** In every state of every run each gated call has been resolved once or waits with a live
      timer, and no other timer is live; requests sent are audits recorded plus calls waiting;
      and one arming of a one-shot policy has sent at most one request. */
  lemma PromisesResolveOnce(steps: seq<Step>)
    requires IsRun(steps)
    ensures var s := Run(steps);
            && Accounted(s)
            && (forall n :: n in s.timers <==> n in s.pending)
            && |s.sent| == |s.audits| + |s.pending|
            && (forall m, n :: 0 <= m < n < |s.calls| && s.calls[m].arming == s.calls[n].arming ==>
                s.calls[m].policy.persistent)
  {
    hide Run, IsRun;
    SoundAlways(steps);
  }

  /** Step i of the run is the one that made resolution k. */
  ghost predicate ResolvedAt(steps: seq<Step>, k: nat, i: nat) {
    && i < |steps| && IsRun(steps[..i]) && IsRun(steps[..i + 1])
    && |Run(steps[..i]).resolved| <= k < |Run(steps[..i + 1]).resolved|
  }

  lemma {:induction false} ResolvingStep(steps: seq<Step>, k: nat) returns (i: nat)
    requires IsRun(steps) && k < |Run(steps).resolved|
    ensures ResolvedAt(steps, k, i)
    ensures StepExplained(Run(steps[..i]), Run(steps[..i + 1]), steps[i])
    ensures Run(steps[..i + 1]).resolved <= Run(steps).resolved && Run(steps[..i + 1]).calls <= Run(steps).calls
    decreases |steps|
  {
    hide Next, Possible, Sound;
    var n := |steps| - 1;
    RunExplained(steps);
    assert steps[..n + 1] == steps;
    if k >= |Run(steps[..n]).resolved| {
      i := n;
    } else {
      i := ResolvingStep(steps[..n], k);
      SamePrefixes(steps, n, i);
    }
  }

  lemma SamePrefixes(steps: seq<Step>, n: nat, i: nat)
    requires i < n <= |steps|
    ensures steps[..n][..i] == steps[..i] && steps[..n][..i + 1] == steps[..i + 1] && steps[..n][i] == steps[i]
  {
  }

  lemma RunExplained(steps: seq<Step>)
    requires IsRun(steps) && steps != []
    ensures StepExplained(Run(steps[..|steps| - 1]), Run(steps), steps[|steps| - 1])
    ensures ResolvedWithin(Run(steps[..|steps| - 1])) && Accounted(Run(steps))
  {
    hide Next, Possible, StepExplained, WaitingSound, Counted, ArmingsSound;
    var n := |steps| - 1;
    SoundAlways(steps);
    SoundAlways(steps[..n]);
    SoundParts(Run(steps[..n]));
    NextExplained(Run(steps[..n]), steps[n]);
  }

  predicate PassedFailClosed(s: Gate, r: Resolution)
    requires r.call < |s.calls|
  {
    r.answer.Proceed? && s.calls[r.call].policy.failMode.FailClosed?
  }

  /** A gated call under a fail-closed policy was let through only by the step that settled it, an
      `allow` from its own lease while the session was current... */
  ghost predicate AllowedByOwner(steps: seq<Step>)
    requires IsRun(steps)
  {
    var s := Run(steps);
    && ResolvedWithin(s)
    && forall k: nat :: k < |s.resolved| && PassedFailClosed(s, s.resolved[k]) ==>
         exists i: nat :: ResolvedAt(steps, k, i) && AllowsBy(steps[i], s.calls[s.resolved[k].call])
  }

  ghost predicate IsEdited(resolved: seq<Resolution>, n: nat) {
    exists k :: 0 <= k < |resolved| && resolved[k].call == n && resolved[k].outcome.Edit?
  }

  /** Step i settled call n as edited, and its replacement is the call's input now. */
  ghost predicate EditedAt(steps: seq<Step>, n: nat, k: nat, i: nat)
    requires IsRun(steps) && n < |Run(steps).calls| == |Run(steps).inputs|
  {
    var s := Run(steps);
    && ResolvedAt(steps, k, i) && k < |s.resolved| && s.resolved[k].call == n && s.resolved[k].outcome.Edit?
    && EditsBy(steps[i], s.calls[n], s.inputs[n])
  }

  /** ... and an input changed only by the accepted edit that settled its call, to exactly the
      replacement. */
  ghost predicate EditedExactly(steps: seq<Step>)
    requires IsRun(steps)
  {
    var s := Run(steps);
    |s.inputs| == |s.calls| && forall n: nat :: n < |s.calls| ==>
      if IsEdited(s.resolved, n) then exists k, i :: EditedAt(steps, n, k, i) else s.inputs[n] == s.calls[n].input
  }

  lemma AllowedRun(steps: seq<Step>)
    requires IsRun(steps)
    ensures AllowedByOwner(steps)
  {
    hide Run, IsRun, AllowsBy, EditsBy;
    var s := Run(steps);
    SoundAlways(steps);
    SoundParts(s);
    forall k: nat | k < |s.resolved| && PassedFailClosed(s, s.resolved[k])
      ensures exists i: nat :: ResolvedAt(steps, k, i) && AllowsBy(steps[i], s.calls[s.resolved[k].call])
    {
      var i := ResolvingStep(steps, k);
      var s' := Run(steps[..i + 1]);
      assert s'.resolved[k] == s.resolved[k] && s'.calls[s.resolved[k].call] == s.calls[s.resolved[k].call];
      assert AllowsBy(steps[i], s.calls[s.resolved[k].call]);
    }
  }

  /** One call, before and after one step: a second settlement of it, which another edit would be,
      is ruled out. */
  lemma EditedOnce(s: Gate, s': Gate, step: Step, n: nat)
    requires StepExplained(s, s', step) && ResolvedWithin(s) && Accounted(s') && n < |s'.calls|
    ensures n < |s.calls| ==> s'.calls[n] == s.calls[n]
    ensures n < |s.calls| && (IsEdited(s.resolved, n) || !IsEdited(s'.resolved, n)) ==> s'.inputs[n] == s.inputs[n]
    ensures n < |s.calls| && IsEdited(s.resolved, n) ==> IsEdited(s'.resolved, n)
    ensures n >= |s.calls| ==> s'.inputs[n] == s'.calls[n].input && !IsEdited(s'.resolved, n)
  {
    hide AllowsBy, EditsBy;
    assert forall k :: 0 <= k < |s.resolved| ==> s'.resolved[k] == s.resolved[k];
    assert n < |s.calls| && s'.inputs[n] != s.inputs[n] ==> s'.resolved[|s.resolved|] == Resolution(n, Proceed, Edit);
  }

  lemma NewEdit(s: Gate, s': Gate, step: Step, n: nat) returns (k: nat)
    requires StepExplained(s, s', step) && n < |s.calls| && IsEdited(s'.resolved, n) && !IsEdited(s.resolved, n)
    ensures |s.resolved| <= k < |s'.resolved| && s'.resolved[k].call == n && s'.resolved[k].outcome.Edit?
    ensures n < |s'.calls| && EditsBy(step, s'.calls[n], s'.inputs[n])
  {
    hide AllowsBy, EditsBy;
    k :| 0 <= k < |s'.resolved| && s'.resolved[k].call == n && s'.resolved[k].outcome.Edit?;
    assert forall j :: 0 <= j < |s.resolved| ==> s'.resolved[j] == s.resolved[j];
  }

  lemma EditedStep(steps: seq<Step>, n: nat)
    requires IsRun(steps) && steps != [] && EditedExactly(steps[..|steps| - 1])
    requires n < |Run(steps).calls| == |Run(steps).inputs|
    ensures if IsEdited(Run(steps).resolved, n) then exists k, i :: EditedAt(steps, n, k, i)
            else Run(steps).inputs[n] == Run(steps).calls[n].input
  {
    hide Next, Possible, AllowsBy, EditsBy, StepExplained, Accounted, ResolvedWithin, IsEdited;
    var last := |steps| - 1;
    var s, s', step := Run(steps[..last]), Run(steps), steps[last];
    RunExplained(steps);
    EditedOnce(s, s', step, n);
    assert steps[..last + 1] == steps;
    if n < |s.calls| && IsEdited(s'.resolved, n) {
      if IsEdited(s.resolved, n) {
        var j, i :| EditedAt(steps[..last], n, j, i);
        EarlierEdit(steps, n, j, i);
      } else {
        var k := NewEdit(s, s', step, n);
        assert ResolvedAt(steps, k, last);
        assert EditedAt(steps, n, k, last);
      }
    }
  }

  lemma EarlierEdit(steps: seq<Step>, n: nat, k: nat, i: nat)
    requires IsRun(steps) && steps != []
    requires n < |Run(steps[..|steps| - 1]).calls| == |Run(steps[..|steps| - 1]).inputs|
    requires EditedAt(steps[..|steps| - 1], n, k, i)
    requires n < |Run(steps).calls| == |Run(steps).inputs| && Run(steps).calls[n] == Run(steps[..|steps| - 1]).calls[n]
    requires Run(steps).inputs[n] == Run(steps[..|steps| - 1]).inputs[n]
    ensures EditedAt(steps, n, k, i)
  {
    hide Next, Possible, AllowsBy, EditsBy;
    SamePrefixes(steps, |steps| - 1, i);
    ResolvedGrows(steps);
  }

  lemma ResolvedGrows(steps: seq<Step>)
    requires IsRun(steps) && steps != []
    ensures Run(steps[..|steps| - 1]).resolved <= Run(steps).resolved
  {
    hide Run, IsRun;
    RunExplained(steps);
  }

  lemma InputsOfCalls(steps: seq<Step>)
    requires IsRun(steps)
    ensures |Run(steps).inputs| == |Run(steps).calls|
  {
    hide Run, IsRun;
    SoundAlways(steps);
    SoundIsWellformed(Run(steps));
  }

  lemma {:induction false} LetThroughOnlyByOwner(steps: seq<Step>)
    requires IsRun(steps)
    ensures AllowedByOwner(steps) && EditedExactly(steps)
    decreases |steps|
  {
    AllowedRun(steps);
    hide Next, Possible, AllowedByOwner;
    if steps != [] {
      LetThroughOnlyByOwner(steps[..|steps| - 1]);
      InputsOfCalls(steps);
      forall n: nat | n < |Run(steps).calls|
        ensures if IsEdited(Run(steps).resolved, n) then exists k, i :: EditedAt(steps, n, k, i)
                else Run(steps).inputs[n] == Run(steps).calls[n].input
      {
        EditedStep(steps, n);
      }
    }
  }

  /** After a disconnect of the daemon nothing waits, and every call that waited ended by its own
      policy. */
  lemma DisconnectEndsAll(steps: seq<Step>)
    requires IsRun(steps) && Wellformed(Run(steps))
    ensures var s, s' := Run(steps), Gates.DaemonDisconnected(Run(steps));
            s'.pending == [] && s'.timers == {}
              && s'.resolved == s.resolved + Ended(s.calls, s.pending, DaemonDisconnect)
  {
    hide Run, IsRun;
    SoundAlways(steps);
    var s := Run(steps);
    SoundParts(s);
    PendingIsDistinct(s);
    SettleEachEffect(s, s.pending, DaemonDisconnect);
    FirstIsListed(Gates.DaemonDisconnected(s).pending);
  }
}
