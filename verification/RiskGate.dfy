/** The pre-send risk gate: verdicts, and the concurrency budget as interleaved steps. */
module RiskGates {
  import opened Wrappers
  import opened Payments
  import opened Text
  import opened Reasons

  datatype RiskDecision = Clear | Stop(reason: string) | Deny(reason: string)

  /** The outcome when no decision arrives, and the provider's name for the audit trail. */
  datatype Policy = Policy(onUnavailable: RiskOutcome, maxInFlight: nat, provider: string)

  datatype Verdict = Verdict(outcome: RiskOutcome, reason: Option<string>, source: RiskSource,
                             provider: string, elapsedMs: nat)

  /** Why there was no decision. */
  type NoDecision = source: RiskSource | !source.Provider? witness RiskSource.Timeout

  function SourceName(source: NoDecision): string {
    match source
    case Timeout => "timeout"
    case Error => "error"
    case BudgetExhausted => "budget_exhausted"
  }

  function ProviderVerdict(policy: Policy, decision: RiskDecision, elapsedMs: nat): Verdict {
    match decision
    case Clear => Verdict(RiskOutcome.Allow, None, RiskSource.Provider, policy.provider, elapsedMs)
    case Stop(reason) =>
      Verdict(RiskOutcome.Hold, Some(Sanitize(reason)), RiskSource.Provider, policy.provider, elapsedMs)
    case Deny(reason) =>
      Verdict(RiskOutcome.Refuse, Some(Sanitize(reason)), RiskSource.Provider, policy.provider, elapsedMs)
  }

  /** No decision: the policy decides, and the reason is the source itself. */
  function PolicyVerdict(policy: Policy, source: NoDecision, elapsedMs: nat): Verdict {
    Verdict(policy.onUnavailable,
            if policy.onUnavailable.Allow? then None else Some("risk_check_" + SourceName(source)),
            source, policy.provider, elapsedMs)
  }

  /** What reaches the gate: a decision, a provider error, or why there was neither. */
  datatype GateAnswer = Decided(decision: RiskDecision) | Undecided(source: NoDecision)

  function VerdictOf(policy: Policy, answer: GateAnswer, elapsedMs: nat): Verdict {
    match answer
    case Decided(decision) => ProviderVerdict(policy, decision, elapsedMs)
    case Undecided(source) => PolicyVerdict(policy, source, elapsedMs)
  }

  lemma PolicyReasonAcceptable(source: NoDecision)
    ensures Acceptable("risk_check_" + SourceName(source))
  {
    var s := "risk_check_" + SourceName(source);
    assert s[0] == 'r';
    forall i | 0 <= i < |s|
      ensures IsLower(s[i]) || s[i] == '_'
    {
      if i < 11 {
        assert s[i] == "risk_check_"[i];
      } else {
        assert s[i] == SourceName(source)[i - 11];
      }
    }
    assert forall i :: DigitsAt(s, i) ==> IsDigit(s[i]);
    LongRunIsFiveDigits(s, |s|);
  }

  // ---------------------------------------------- what an answer calls for

  /** A provider's reason, as it is kept: unchanged if it is a short code without a long run of digits. */
  ghost predicate KeptAs(reason: string, kept: Option<string>) {
    kept == Some(if IsCode(reason) then reason else "unspecified")
  }

  /** The code that stands for a missing decision. */
  function MissingCode(source: NoDecision): string {
    match source
    case Timeout => "risk_check_timeout"
    case Error => "risk_check_error"
    case BudgetExhausted => "risk_check_budget_exhausted"
  }

  /** The verdict an answer calls for: a decision as it was made, and without one what the policy says. */
  ghost predicate CallsFor(policy: Policy, answer: GateAnswer, v: Verdict) {
    && v.provider == policy.provider
    && match answer
       case Decided(Clear) => v.source.Provider? && v.outcome.Allow? && v.reason.None?
       case Decided(Stop(reason)) => v.source.Provider? && v.outcome.Hold? && KeptAs(reason, v.reason)
       case Decided(Deny(reason)) => v.source.Provider? && v.outcome.Refuse? && KeptAs(reason, v.reason)
       case Undecided(source) => v.source == source && FailsAsConfigured(policy, v)
  }

  /** Without a decision the configured outcome stands, and its reason names what was missing. */
  ghost predicate FailsAsConfigured(policy: Policy, v: Verdict) {
    && !v.source.Provider?
    && v.outcome == policy.onUnavailable
    && v.reason == if v.outcome.Allow? then None else Some(MissingCode(v.source))
  }

  /** What any verdict says, whatever the answer was. */
  ghost predicate Sound(policy: Policy, v: Verdict) {
    && v.provider == policy.provider
    && (!v.source.Provider? ==> FailsAsConfigured(policy, v))
    && (v.reason.None? <==> v.outcome.Allow?)
    && (v.reason.Some? ==> Acceptable(v.reason.value))
  }

  lemma MissingCodesAreNames(source: NoDecision)
    ensures MissingCode(source) == "risk_check_" + SourceName(source)
  {
  }

  /** The gate decides as it was answered, and every reason it gives is a code the audit trail takes. */
  lemma VerdictIsCalledFor(policy: Policy, answer: GateAnswer, elapsedMs: nat)
    ensures var v := VerdictOf(policy, answer, elapsedMs);
      v.elapsedMs == elapsedMs && CallsFor(policy, answer, v) && Sound(policy, v)
  {
    UnspecifiedIsAcceptable();
    match answer
    case Decided(Clear) =>
    case Decided(Stop(reason)) => CodesAreAcceptable(reason);
    case Decided(Deny(reason)) => CodesAreAcceptable(reason);
    case Undecided(source) =>
      PolicyReasonAcceptable(source);
      MissingCodesAreNames(source);
  }

  // ------------------------------------------------------ the gate, in steps

  /** The worker thread of one check. A slot is live from reservation until it is dropped. */
  datatype Worker = NoSlot | Reserved | Running | Sent | Gone

  /** A provider error is sent as `None`. */
  datatype Channel = Empty | Holding(result: Option<RiskDecision>) | Disconnected

  datatype Check = Check(worker: Worker, channel: Channel, verdict: Option<Verdict>)

  /** `inFlight` is the atomic counter; `called` and `released` log provider calls and slot drops. */
  datatype Gate = Gate(inFlight: int, checks: map<nat, Check>, called: seq<nat>, released: seq<nat>)

  const IDLE := Gate(0, map[], [], [])

  datatype GateStep =
    | Arrive(id: nat, ms: nat)
    | Spawn(id: nat)
    | SpawnFails(id: nat, ms: nat)
    | Return(id: nat, result: Option<RiskDecision>)
    | Panic(id: nat)
    | DropSlot(id: nat)
    | Receive(id: nat, ms: nat)
    | TimeOut(id: nat, ms: nat)

  predicate Live(w: Worker) { w.Reserved? || w.Running? || w.Sent? }

  function With(g: Gate, id: nat, c: Check): Gate { g.(checks := g.checks[id := c]) }

  function Stepped(policy: Policy, g: Gate, s: GateStep): Gate {
    if s.Arrive? then
      if s.id in g.checks then g
      else if g.inFlight < policy.maxInFlight then
        With(g, s.id, Check(Reserved, Empty, None)).(inFlight := g.inFlight + 1)
      else With(g, s.id, Check(NoSlot, Empty, Some(PolicyVerdict(policy, BudgetExhausted, s.ms))))
    else if s.id !in g.checks then g
    else
      var c := g.checks[s.id];
      match s
      case Spawn(id) =>
        if c.worker.Reserved? then With(g, id, c.(worker := Running)).(called := g.called + [id]) else g
      case SpawnFails(id, ms) =>
        if c.worker.Reserved? then
          Released(With(g, id, c.(worker := Gone, verdict := Some(PolicyVerdict(policy, RiskSource.Error, ms)))), id)
        else g
      case Return(id, result) =>
        // A late answer finds the receiver gone and is discarded.
        if c.worker.Running? then
          With(g, id, c.(worker := Sent, channel := if c.verdict.None? then Holding(result) else c.channel))
        else g
      case Panic(id) =>
        if c.worker.Running? then
          Released(With(g, id, c.(worker := Gone, channel := if c.verdict.None? then Disconnected else c.channel)), id)
        else g
      case DropSlot(id) =>
        if c.worker.Sent? then Released(With(g, id, c.(worker := Gone)), id) else g
      case Receive(id, ms) =>
        if c.verdict.None? && c.channel.Holding? then
          var answer := if c.channel.result.Some? then Decided(c.channel.result.value) else Undecided(RiskSource.Error);
          With(g, id, c.(verdict := Some(VerdictOf(policy, answer, ms))))
        else if c.verdict.None? && c.channel.Disconnected? then
          With(g, id, c.(verdict := Some(PolicyVerdict(policy, RiskSource.Error, ms))))
        else g
      case TimeOut(id, ms) =>
        if c.verdict.None? && !c.worker.Reserved? then
          With(g, id, c.(verdict := Some(PolicyVerdict(policy, RiskSource.Timeout, ms))))
        else g
      case Arrive(_, _) => g
  }

  function Released(g: Gate, id: nat): Gate {
    g.(inFlight := g.inFlight - 1, released := g.released + [id])
  }

  function RunGate(policy: Policy, steps: seq<GateStep>): Gate
    decreases |steps|
  {
    if steps == [] then IDLE else Stepped(policy, RunGate(policy, steps[..|steps| - 1]), steps[|steps| - 1])
  }

  function LiveChecks(g: Gate): set<nat> {
    set id | id in g.checks && Live(g.checks[id].worker)
  }

  predicate NoDuplicates(s: seq<nat>) {
    forall i, j | 0 <= i < j < |s| :: s[i] != s[j]
  }

  predicate Exhausted(c: Check) { c.verdict.Some? && c.verdict.value.source.BudgetExhausted? }

  ghost predicate CheckOk(g: Gate, id: nat)
    requires id in g.checks
  {
    var c := g.checks[id];
    && (c.worker.NoSlot? <==> Exhausted(c))
    && (c.worker.NoSlot? ==> id !in g.called && id !in g.released)
    && (c.worker.Reserved? ==> c.verdict.None? && c.channel.Empty? && id !in g.called)
    && (Live(c.worker) ==> id !in g.released)
    && (c.worker.Gone? ==> id in g.released)
    && (c.worker.Running? || c.worker.Sent? || c.channel.Holding? ==> id in g.called)
  }

  /** The counter is the number of live slots and never exceeds the budget; each slot is dropped at most once. */
  ghost predicate GateOk(policy: Policy, g: Gate) {
    && g.inFlight == |LiveChecks(g)|
    && g.inFlight <= policy.maxInFlight
    && NoDuplicates(g.called) && NoDuplicates(g.released)
    && (forall id | id in g.called || id in g.released :: id in g.checks)
    && forall id | id in g.checks :: CheckOk(g, id)
  }

  function Slots(g: Gate, id: nat): nat {
    if id in g.checks && Live(g.checks[id].worker) then 1 else 0
  }

  /** A step touches one check, and moves the counter with that check's slot. */
  lemma StepIsLocal(policy: Policy, g: Gate, s: GateStep)
    requires GateOk(policy, g)
    ensures var g' := Stepped(policy, g, s);
      && g'.inFlight - g.inFlight == Slots(g', s.id) - Slots(g, s.id)
      && (g'.inFlight <= g.inFlight || g'.inFlight <= policy.maxInFlight)
      && (forall k | k != s.id :: k in g'.checks <==> k in g.checks)
      && (forall k | k != s.id && k in g.checks :: g'.checks[k] == g.checks[k])
  {
  }

  lemma CountMovesWithSlot(g: Gate, g': Gate, id: nat)
    requires g.inFlight == |LiveChecks(g)|
    requires g'.inFlight - g.inFlight == Slots(g', id) - Slots(g, id)
    requires forall k | k != id :: k in g'.checks <==> k in g.checks
    requires forall k | k != id && k in g.checks :: g'.checks[k] == g.checks[k]
    ensures g'.inFlight == |LiveChecks(g')|
  {
    var others := LiveChecks(g) - {id};
    assert LiveChecks(g) == if Slots(g, id) == 1 then others + {id} else others;
    assert LiveChecks(g') == if Slots(g', id) == 1 then others + {id} else others;
  }

  lemma StepKeepsLogs(policy: Policy, g: Gate, s: GateStep)
    requires GateOk(policy, g)
    ensures var g' := Stepped(policy, g, s);
      && NoDuplicates(g'.called) && NoDuplicates(g'.released)
      && (forall id | id in g'.called || id in g'.released :: id in g'.checks)
  {
    if s.id in g.checks {
      assert CheckOk(g, s.id);
    }
  }

  lemma StepKeepsChecks(policy: Policy, g: Gate, s: GateStep, id: nat)
    requires GateOk(policy, g) && id in Stepped(policy, g, s).checks
    ensures CheckOk(Stepped(policy, g, s), id)
  {
    if id in g.checks {
      assert CheckOk(g, id);
    }
  }

  /** In every run: the budget bounds real provider calls, and slots are accounted for one by one. */
  lemma {:induction false} BudgetHolds(policy: Policy, steps: seq<GateStep>)
    ensures GateOk(policy, RunGate(policy, steps))
    decreases |steps|
  {
    if steps != [] {
      var front, last := steps[..|steps| - 1], steps[|steps| - 1];
      BudgetHolds(policy, front);
      var g := RunGate(policy, front);
      StepIsLocal(policy, g, last);
      CountMovesWithSlot(g, Stepped(policy, g, last), last.id);
      StepKeepsLogs(policy, g, last);
      forall id | id in Stepped(policy, g, last).checks
        ensures CheckOk(Stepped(policy, g, last), id)
      {
        StepKeepsChecks(policy, g, last, id);
      }
    } else {
      assert LiveChecks(IDLE) == {};
    }
  }

  lemma VerdictKept(policy: Policy, g: Gate, s: GateStep, id: nat)
    requires GateOk(policy, g) && id in g.checks && g.checks[id].verdict.Some?
    ensures id in Stepped(policy, g, s).checks && Stepped(policy, g, s).checks[id].verdict == g.checks[id].verdict
  {
    hide PolicyVerdict, VerdictOf;
    assert CheckOk(g, id);
  }

  /** Once given, a verdict never changes: not by a late answer, a panic or a timeout. */
  lemma {:induction false} VerdictIsFinal(policy: Policy, steps: seq<GateStep>, n: nat, id: nat)
    requires n <= |steps|
    requires id in RunGate(policy, steps[..n]).checks
    requires RunGate(policy, steps[..n]).checks[id].verdict.Some?
    ensures id in RunGate(policy, steps).checks
    ensures RunGate(policy, steps).checks[id].verdict == RunGate(policy, steps[..n]).checks[id].verdict
    decreases |steps|
  {
    if n == |steps| {
      assert steps[..n] == steps;
    } else {
      var front := steps[..|steps| - 1];
      assert front[..n] == steps[..n];
      VerdictIsFinal(policy, front, n, id);
      BudgetHolds(policy, front);
      VerdictKept(policy, RunGate(policy, front), steps[|steps| - 1], id);
      hide Stepped;
    }
  }

  /** An exhausted budget never reaches the provider, and a finished check has given its slot back exactly once. */
  lemma SlotsAreSettled(policy: Policy, steps: seq<GateStep>, id: nat)
    requires id in RunGate(policy, steps).checks
    ensures var g := RunGate(policy, steps);
      && (Exhausted(g.checks[id]) ==> id !in g.called && id !in g.released)
      && (g.checks[id].worker.Gone? ==>
            exists i :: 0 <= i < |g.released| && g.released[i] == id
                        && forall j | 0 <= j < |g.released| && g.released[j] == id :: j == i)
  {
    BudgetHolds(policy, steps);
    var g := RunGate(policy, steps);
    assert CheckOk(g, id);
    if g.checks[id].worker.Gone? {
      var i :| 0 <= i < |g.released| && g.released[i] == id;
    }
  }

  // -------------------------------------------------- where verdicts come from

  /** What happened to a check that was answered so. */
  ghost predicate Caused(steps: seq<GateStep>, id: nat, answer: GateAnswer) {
    match answer
    case Decided(decision) => Return(id, Some(decision)) in steps
    case Undecided(Timeout) => exists ms :: TimeOut(id, ms) in steps
    case Undecided(BudgetExhausted) => exists ms :: Arrive(id, ms) in steps
    case Undecided(Error) => Panic(id) in steps || Return(id, None) in steps || exists ms :: SpawnFails(id, ms) in steps
  }

  /** The answer that a check has been given, or is waiting for in its channel, was caused by its own steps. */
  ghost predicate Explained(policy: Policy, steps: seq<GateStep>, id: nat, c: Check) {
    && (c.channel.Holding? ==> Return(id, c.channel.result) in steps)
    && (c.channel.Disconnected? ==> Panic(id) in steps)
    && (c.verdict.Some? ==> exists answer :: CallsFor(policy, answer, c.verdict.value) && Caused(steps, id, answer))
  }

  lemma CausedLonger(steps: seq<GateStep>, more: seq<GateStep>, id: nat, answer: GateAnswer)
    requires Caused(steps, id, answer)
    ensures Caused(steps + more, id, answer)
  {
    match answer
    case Undecided(Timeout) =>
      var ms :| TimeOut(id, ms) in steps;
      assert TimeOut(id, ms) in steps + more;
    case Undecided(BudgetExhausted) =>
      var ms :| Arrive(id, ms) in steps;
      assert Arrive(id, ms) in steps + more;
    case Undecided(Error) =>
      if ms :| SpawnFails(id, ms) in steps {
        assert SpawnFails(id, ms) in steps + more;
      }
    case _ =>
  }

  lemma ExplainedLonger(policy: Policy, steps: seq<GateStep>, more: seq<GateStep>, id: nat, c: Check)
    requires Explained(policy, steps, id, c)
    ensures Explained(policy, steps + more, id, c)
  {
    hide CallsFor, Caused;
    if c.verdict.Some? {
      var answer :| CallsFor(policy, answer, c.verdict.value) && Caused(steps, id, answer);
      CausedLonger(steps, more, id, answer);
    }
  }

  /** The answer a step gives to its check, if it gives one. */
  lemma StepExplains(policy: Policy, steps: seq<GateStep>, g: Gate, s: GateStep)
    requires GateOk(policy, g)
    requires s.id in g.checks ==> Explained(policy, steps, s.id, g.checks[s.id])
    requires s.id in Stepped(policy, g, s).checks
    ensures Explained(policy, steps + [s], s.id, Stepped(policy, g, s).checks[s.id])
  {
    hide CallsFor, VerdictOf, PolicyVerdict, Explained;
    var c := Stepped(policy, g, s).checks[s.id];
    assert s in steps + [s];
    if s.id in g.checks {
      ExplainedLonger(policy, steps, [s], s.id, g.checks[s.id]);
    }
    if c.verdict.Some? && (s.id !in g.checks || g.checks[s.id].verdict.None?) {
      var answer := AnswerGiven(policy, steps, g, s);
      assert Caused(steps + [s], s.id, answer);
      assert Explained(policy, steps + [s], s.id, c) by {
        ChannelExplained(policy, steps, g, s);
        FromAnswer(policy, steps + [s], s.id, c, answer);
      }
    } else if s.id in g.checks {
      ChannelExplained(policy, steps, g, s);
      VerdictStays(policy, g, s);
      SameVerdict(policy, steps + [s], s.id, g.checks[s.id], c);
    } else {
      ChannelExplained(policy, steps, g, s);
      NoVerdict(policy, steps + [s], s.id, c);
    }
  }

  lemma VerdictStays(policy: Policy, g: Gate, s: GateStep)
    requires GateOk(policy, g) && s.id in g.checks
    requires var c := Stepped(policy, g, s).checks; s.id in c && (c[s.id].verdict.Some? ==> g.checks[s.id].verdict.Some?)
    ensures Stepped(policy, g, s).checks[s.id].verdict == g.checks[s.id].verdict
  {
    if g.checks[s.id].verdict.Some? {
      VerdictKept(policy, g, s, s.id);
    }
  }

  ghost predicate ChannelIs(steps: seq<GateStep>, id: nat, c: Check) {
    && (c.channel.Holding? ==> Return(id, c.channel.result) in steps)
    && (c.channel.Disconnected? ==> Panic(id) in steps)
  }

  lemma ChannelExplained(policy: Policy, steps: seq<GateStep>, g: Gate, s: GateStep)
    requires s.id in g.checks ==> Explained(policy, steps, s.id, g.checks[s.id])
    requires s.id in Stepped(policy, g, s).checks
    ensures ChannelIs(steps + [s], s.id, Stepped(policy, g, s).checks[s.id])
  {
    hide CallsFor, VerdictOf, PolicyVerdict, Caused;
    assert s in steps + [s];
  }

  lemma FromAnswer(policy: Policy, steps: seq<GateStep>, id: nat, c: Check, answer: GateAnswer)
    requires ChannelIs(steps, id, c) && c.verdict.Some?
    requires CallsFor(policy, answer, c.verdict.value) && Caused(steps, id, answer)
    ensures Explained(policy, steps, id, c)
  {
    hide CallsFor, Caused;
  }

  lemma SameVerdict(policy: Policy, steps: seq<GateStep>, id: nat, before: Check, c: Check)
    requires Explained(policy, steps, id, before) && c.verdict == before.verdict && ChannelIs(steps, id, c)
    ensures Explained(policy, steps, id, c)
  {
    hide CallsFor, Caused;
  }

  lemma NoVerdict(policy: Policy, steps: seq<GateStep>, id: nat, c: Check)
    requires c.verdict.None? && ChannelIs(steps, id, c)
    ensures Explained(policy, steps, id, c)
  {
  }

  lemma AnswerGiven(policy: Policy, steps: seq<GateStep>, g: Gate, s: GateStep) returns (answer: GateAnswer)
    requires s.id in g.checks ==> Explained(policy, steps, s.id, g.checks[s.id]) && g.checks[s.id].verdict.None?
    requires s.id in Stepped(policy, g, s).checks && Stepped(policy, g, s).checks[s.id].verdict.Some?
    ensures CallsFor(policy, answer, Stepped(policy, g, s).checks[s.id].verdict.value)
    ensures Caused(steps + [s], s.id, answer)
  {
    hide CallsFor;
    assert s in steps + [s];
    match s
    case Arrive(_, ms) => answer := Undecided(BudgetExhausted); VerdictIsCalledFor(policy, answer, ms);
    case SpawnFails(_, ms) => answer := Undecided(RiskSource.Error); VerdictIsCalledFor(policy, answer, ms);
    case TimeOut(_, ms) => answer := Undecided(RiskSource.Timeout); VerdictIsCalledFor(policy, answer, ms);
    case Receive(id, ms) =>
      var channel := g.checks[id].channel;
      answer := if channel.Holding? && channel.result.Some? then Decided(channel.result.value) else Undecided(RiskSource.Error);
      VerdictIsCalledFor(policy, answer, ms);
      assert channel.Holding? ==> Return(id, channel.result) in steps + [s];
      assert channel.Disconnected? ==> Panic(id) in steps + [s];
  }

  ghost predicate EachExplained(policy: Policy, steps: seq<GateStep>, g: Gate) {
    forall id | id in g.checks :: Explained(policy, steps, id, g.checks[id])
  }

  lemma {:induction false} AllExplained(policy: Policy, steps: seq<GateStep>)
    ensures EachExplained(policy, steps, RunGate(policy, steps))
    decreases |steps|
  {
    hide Explained, Stepped, GateOk;
    if steps != [] {
      var front, last := steps[..|steps| - 1], steps[|steps| - 1];
      AllExplained(policy, front);
      BudgetHolds(policy, front);
      assert front + [last] == steps;
      OneMoreExplained(policy, front, RunGate(policy, front), last);
    }
  }

  lemma OneMoreExplained(policy: Policy, steps: seq<GateStep>, g: Gate, s: GateStep)
    requires GateOk(policy, g) && EachExplained(policy, steps, g)
    ensures EachExplained(policy, steps + [s], Stepped(policy, g, s))
  {
    hide Explained, Stepped, GateOk;
    StepIsLocal(policy, g, s);
    var g' := Stepped(policy, g, s);
    forall id | id in g'.checks
      ensures Explained(policy, steps + [s], id, g'.checks[id])
    {
      if id == s.id {
        StepExplains(policy, steps, g, s);
      } else {
        ExplainedLonger(policy, steps, [s], id, g.checks[id]);
      }
    }
  }

  /**
   * In every run of the gate, a verdict is what its check's own answer calls for: a decision the provider
   * returned, or a timeout, a failure or an exhausted budget that happened, decided by the policy.
   */
  lemma VerdictsAreCaused(policy: Policy, steps: seq<GateStep>, id: nat) returns (answer: GateAnswer)
    requires id in RunGate(policy, steps).checks && RunGate(policy, steps).checks[id].verdict.Some?
    ensures CallsFor(policy, answer, RunGate(policy, steps).checks[id].verdict.value) && Caused(steps, id, answer)
  {
    hide CallsFor, Caused, RunGate;
    AllExplained(policy, steps);
    answer :| CallsFor(policy, answer, RunGate(policy, steps).checks[id].verdict.value) && Caused(steps, id, answer);
  }

  // ------------------------------------------------------------- ways through

  function After(policy: Policy, g: Gate, steps: seq<GateStep>): Gate
    decreases |steps|
  {
    if steps == [] then g else After(policy, Stepped(policy, g, steps[0]), steps[1..])
  }

  /** The check is over: its slot is free again, and it was answered so. */
  ghost predicate Ends(policy: Policy, g: Gate, g': Gate, id: nat, answer: GateAnswer) {
    && id in g'.checks && id !in LiveChecks(g') && g'.checks[id].verdict.Some?
    && CallsFor(policy, answer, g'.checks[id].verdict.value)
    && g'.inFlight == g.inFlight
  }

  /**
   * A new check gets a slot exactly when one is free. From there a decision in time decides, and every other
   * end is decided by the policy; whichever way it goes, the slot comes back.
   */
  lemma EveryWayThrough(policy: Policy, steps: seq<GateStep>, id: nat, d: RiskDecision, ms: nat)
    requires id !in RunGate(policy, steps).checks
    ensures var g := RunGate(policy, steps);
      if |LiveChecks(g)| >= policy.maxInFlight then
        Ends(policy, g, After(policy, g, [Arrive(id, ms)]), id, Undecided(BudgetExhausted))
      else
        && Ends(policy, g,
                    After(policy, g, [Arrive(id, 0), Spawn(id), Return(id, Some(d)), Receive(id, ms), DropSlot(id)]), id, Decided(d))
        && Ends(policy, g,
                    After(policy, g, [Arrive(id, 0), Spawn(id), TimeOut(id, ms), Return(id, Some(d)), DropSlot(id)]), id,
                    Undecided(RiskSource.Timeout))
        && Ends(policy, g, After(policy, g, [Arrive(id, 0), SpawnFails(id, ms)]), id, Undecided(RiskSource.Error))
        && Ends(policy, g, After(policy, g, [Arrive(id, 0), Spawn(id), Panic(id), Receive(id, ms)]), id, Undecided(RiskSource.Error))
        && Ends(policy, g, After(policy, g, [Arrive(id, 0), Spawn(id), Return(id, None), Receive(id, ms), DropSlot(id)]), id,
                    Undecided(RiskSource.Error))
  {
    BudgetHolds(policy, steps);
    var g := RunGate(policy, steps);
    assert g.inFlight == |LiveChecks(g)|;
    hide CallsFor, VerdictOf, PolicyVerdict, RunGate, GateOk;
    if |LiveChecks(g)| >= policy.maxInFlight {
      Exhausts(policy, g, id, ms);
    } else {
      Decides(policy, g, id, d, ms);
      ComesTooLate(policy, g, id, d, ms);
      Fails(policy, g, id, ms);
    }
  }

  lemma Exhausts(policy: Policy, g: Gate, id: nat, ms: nat)
    requires id !in g.checks && g.inFlight >= policy.maxInFlight
    ensures Ends(policy, g, After(policy, g, [Arrive(id, ms)]), id, Undecided(BudgetExhausted))
  {
    hide CallsFor;
    VerdictIsCalledFor(policy, Undecided(BudgetExhausted), ms);
    AfterOne(policy, g, Arrive(id, ms));
  }

  lemma AfterOne(policy: Policy, g: Gate, s: GateStep)
    ensures After(policy, g, [s]) == Stepped(policy, g, s)
  {
    hide Stepped;
  }

  lemma AfterFirst(policy: Policy, g: Gate, s: GateStep, rest: seq<GateStep>)
    ensures After(policy, g, [s] + rest) == After(policy, Stepped(policy, g, s), rest)
  {
    hide Stepped;
    assert ([s] + rest)[1..] == rest;
  }

  /** A slot is reserved, and the worker runs. */
  lemma Runs(policy: Policy, g: Gate, id: nat, rest: seq<GateStep>) returns (g2: Gate)
    requires id !in g.checks && g.inFlight < policy.maxInFlight
    ensures After(policy, g, [Arrive(id, 0), Spawn(id)] + rest) == After(policy, g2, rest)
    ensures id in g2.checks && g2.checks[id] == Check(Running, Empty, None) && g2.inFlight == g.inFlight + 1
  {
    var g1 := Stepped(policy, g, Arrive(id, 0));
    g2 := Stepped(policy, g1, Spawn(id));
    assert [Arrive(id, 0), Spawn(id)] + rest == [Arrive(id, 0)] + ([Spawn(id)] + rest);
    AfterFirst(policy, g, Arrive(id, 0), [Spawn(id)] + rest);
    AfterFirst(policy, g1, Spawn(id), rest);
  }

  lemma Decides(policy: Policy, g: Gate, id: nat, d: RiskDecision, ms: nat)
    requires id !in g.checks && g.inFlight < policy.maxInFlight
    ensures Ends(policy, g,
                     After(policy, g, [Arrive(id, 0), Spawn(id), Return(id, Some(d)), Receive(id, ms), DropSlot(id)]), id, Decided(d))
  {
    hide CallsFor, After, VerdictOf;
    var rest := [Return(id, Some(d)), Receive(id, ms), DropSlot(id)];
    var g2 := Runs(policy, g, id, rest);
    assert [Arrive(id, 0), Spawn(id)] + rest
        == [Arrive(id, 0), Spawn(id), Return(id, Some(d)), Receive(id, ms), DropSlot(id)];
    AfterThree(policy, g2, Return(id, Some(d)), Receive(id, ms), DropSlot(id));
    VerdictIsCalledFor(policy, Decided(d), ms);
  }

  lemma AfterThree(policy: Policy, g: Gate, a: GateStep, b: GateStep, c: GateStep)
    ensures After(policy, g, [a, b, c]) == Stepped(policy, Stepped(policy, Stepped(policy, g, a), b), c)
    ensures After(policy, g, [a, b]) == Stepped(policy, Stepped(policy, g, a), b)
  {
    hide Stepped;
    assert [a, b, c] == [a] + [b, c] && [b, c] == [b] + [c] && [a, b] == [a] + [b];
    AfterFirst(policy, g, a, [b, c]);
    AfterFirst(policy, g, a, [b]);
    AfterFirst(policy, Stepped(policy, g, a), b, [c]);
    AfterOne(policy, Stepped(policy, g, a), b);
    AfterOne(policy, Stepped(policy, Stepped(policy, g, a), b), c);
  }

  lemma ComesTooLate(policy: Policy, g: Gate, id: nat, d: RiskDecision, ms: nat)
    requires id !in g.checks && g.inFlight < policy.maxInFlight
    ensures Ends(policy, g,
                     After(policy, g, [Arrive(id, 0), Spawn(id), TimeOut(id, ms), Return(id, Some(d)), DropSlot(id)]), id,
                     Undecided(RiskSource.Timeout))
  {
    hide CallsFor, After, PolicyVerdict;
    var rest := [TimeOut(id, ms), Return(id, Some(d)), DropSlot(id)];
    var g2 := Runs(policy, g, id, rest);
    assert [Arrive(id, 0), Spawn(id)] + rest
        == [Arrive(id, 0), Spawn(id), TimeOut(id, ms), Return(id, Some(d)), DropSlot(id)];
    AfterThree(policy, g2, TimeOut(id, ms), Return(id, Some(d)), DropSlot(id));
    VerdictIsCalledFor(policy, Undecided(RiskSource.Timeout), ms);
  }

  /** The worker is never started, dies, or returns an error. */
  lemma Fails(policy: Policy, g: Gate, id: nat, ms: nat)
    requires id !in g.checks && g.inFlight < policy.maxInFlight
    ensures var answer := Undecided(RiskSource.Error);
      && Ends(policy, g, After(policy, g, [Arrive(id, 0), SpawnFails(id, ms)]), id, answer)
      && Ends(policy, g, After(policy, g, [Arrive(id, 0), Spawn(id), Panic(id), Receive(id, ms)]), id, answer)
      && Ends(policy, g,
                  After(policy, g, [Arrive(id, 0), Spawn(id), Return(id, None), Receive(id, ms), DropSlot(id)]), id, answer)
  {
    hide CallsFor, After, PolicyVerdict;
    VerdictIsCalledFor(policy, Undecided(RiskSource.Error), ms);
    AfterThree(policy, g, Arrive(id, 0), SpawnFails(id, ms), DropSlot(id));
    var dies, errs := [Panic(id), Receive(id, ms)], [Return(id, None), Receive(id, ms), DropSlot(id)];
    var g2 := Runs(policy, g, id, dies);
    AfterThree(policy, g2, Panic(id), Receive(id, ms), DropSlot(id));
    assert [Arrive(id, 0), Spawn(id)] + dies == [Arrive(id, 0), Spawn(id), Panic(id), Receive(id, ms)];
    g2 := Runs(policy, g, id, errs);
    AfterThree(policy, g2, Return(id, None), Receive(id, ms), DropSlot(id));
    assert [Arrive(id, 0), Spawn(id)] + errs
        == [Arrive(id, 0), Spawn(id), Return(id, None), Receive(id, ms), DropSlot(id)];
  }
}
