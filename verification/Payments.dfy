/** The payment aggregate: immutable events, pure transitions, replayable state. */
module Payments {
  import opened Wrappers

  type Key = string
  type Digest = string

  datatype PaymentState =
    | Created
    | Validated
    | Held
    | Refused
    | Submitted
    | AckPending
    | Settled
    | Rejected
    | Cancelled
    | TimeoutUnresolved

  datatype AdviceStatus = Actc | Acsc | Accc | Acwp | Pdng | Blck | Rjct

  datatype RiskOutcome = Allow | Hold | Refuse

  datatype RiskSource = Provider | Timeout | Error | BudgetExhausted

  /** Facts about one payment, in order of occurrence. Times are unix seconds. */
  datatype Event =
    | Created(key: Key, messageId: string, creationDateTime: string, endToEndId: string,
              uetr: Option<string>, amountCents: nat, at: int)
    | Validated(at: int)
    | RiskChecked(outcome: RiskOutcome, checkReason: Option<string>, source: RiskSource,
                  provider: string, elapsedMs: nat, at: int)
    | HoldParked(digest: Digest, at: int)
    | HoldReleased(actor: string, reason: string, digest: Digest, at: int)
    | HoldCancelled(actor: string, reason: string, at: int)
    | Submitted(at: int)
    | Published(at: int)
    | AdviceReceived(status: AdviceStatus, adviceReason: Option<string>, at: int)
    | TimeoutDeclared(at: int)
    | QuerySent(at: int)

  datatype HoldAction = Released | Cancelled

  datatype HoldResolution = HoldResolution(action: HoldAction, actor: string, reason: string, at: int)

  /** Why the state machine or a store refused. */
  datatype Refusal =
    | IllegalEvent(event: Event)
    | NotACreation(event: Event)
    | EmptyHistory
    | UnknownKey(key: Key)
    | NoParkedMessage(key: Key)
    | DigestMismatch
    | AlreadyInOutbox(key: Key)
    | NotARelease(event: Event)
    | Storage(detail: string)

  datatype TransitionError = TransitionError(state: PaymentState, what: Refusal)

  /** The replayed aggregate, as a value. */
  datatype Payment = Payment(
    state: PaymentState,
    key: Key,
    messageId: string,
    creationDateTime: string,
    endToEndId: string,
    uetr: Option<string>,
    publishedAt: Option<int>,
    lastQueryAt: Option<int>,
    queriesSent: nat,
    lastAdvice: Option<AdviceStatus>,
    rejectionReason: Option<string>,
    riskOutcome: Option<RiskOutcome>,
    riskReason: Option<string>,
    riskSource: Option<RiskSource>,
    heldAt: Option<int>,
    heldDigest: Option<Digest>,
    holdResolution: Option<HoldResolution>,
    events: seq<Event>)

  /** Map a pacs.002 `TxSts` code. */
  function FromTxSts(code: string): Option<AdviceStatus> {
    if code == "ACTC" then Some(Actc)
    else if code == "ACSC" then Some(Acsc)
    else if code == "ACCC" then Some(Accc)
    else if code == "ACWP" then Some(Acwp)
    else if code == "PDNG" then Some(Pdng)
    else if code == "BLCK" then Some(Blck)
    else if code == "RJCT" then Some(Rjct)
    else None
  }

  /** Where an advice takes a payment that is waiting for one. */
  function Advised(waiting: PaymentState, status: AdviceStatus): PaymentState {
    match status
    case Acsc | Accc | Acwp | Blck => PaymentState.Settled
    case Rjct => PaymentState.Rejected
    case Actc | Pdng => waiting
  }

  /** Start an aggregate from its creation event. */
  function New(e: Event): Result<Payment, TransitionError> {
    if e.Created? then
      Ok(Payment(PaymentState.Created, e.key, e.messageId, e.creationDateTime, e.endToEndId, e.uetr,
                 None, None, 0, None, None, None, None, None, None, None, None, [e]))
    else
      Err(TransitionError(PaymentState.Created, NotACreation(e)))
  }

  /** One transition of the aggregate, or the refusal. */
  function Applied(p: Payment, e: Event): Result<Payment, TransitionError> {
    var q := p.(events := p.events + [e]);
    match e
    case Validated(_) =>
      if p.state.Created? then Ok(q.(state := PaymentState.Validated)) else Illegal(p, e)
    case RiskChecked(outcome, reason, source, _, _, at) =>
      if p.state.Validated? && p.riskOutcome.None? then
        var checked := q.(riskOutcome := Some(outcome), riskReason := reason, riskSource := Some(source));
        match outcome {
          case Allow => Ok(checked)
          case Hold => Ok(checked.(heldAt := Some(at), state := PaymentState.Held))
          case Refuse => Ok(checked.(state := PaymentState.Refused))
        }
      else Illegal(p, e)
    case HoldParked(digest, _) =>
      if p.state.Held? && p.heldDigest.None? then Ok(q.(heldDigest := Some(digest))) else Illegal(p, e)
    case HoldReleased(actor, reason, digest, at) =>
      if p.state.Held? && p.heldDigest == Some(digest) then
        Ok(q.(holdResolution := Some(HoldResolution(Released, actor, reason, at)),
              state := PaymentState.Submitted))
      else Illegal(p, e)
    case HoldCancelled(actor, reason, at) =>
      if p.state.Held? then
        Ok(q.(heldDigest := None,
              holdResolution := Some(HoldResolution(HoldAction.Cancelled, actor, reason, at)),
              state := PaymentState.Cancelled))
      else Illegal(p, e)
    case Submitted(_) =>
      if p.state.Validated? then Ok(q.(state := PaymentState.Submitted)) else Illegal(p, e)
    case Published(at) =>
      if p.state.Submitted? then Ok(q.(publishedAt := Some(at), state := PaymentState.AckPending))
      else Illegal(p, e)
    case AdviceReceived(status, reason, _) =>
      if p.state.AckPending? || p.state.TimeoutUnresolved? then
        Ok(q.(lastAdvice := Some(status),
              rejectionReason := if status.Rjct? then reason else p.rejectionReason,
              state := Advised(p.state, status)))
      else if p.state.Settled? then Ok(q.(lastAdvice := Some(status)))
      else Illegal(p, e)
    case TimeoutDeclared(_) =>
      if p.state.AckPending? then Ok(q.(state := PaymentState.TimeoutUnresolved)) else Illegal(p, e)
    case QuerySent(at) =>
      if p.state.TimeoutUnresolved? then
        Ok(q.(queriesSent := p.queriesSent + 1, lastQueryAt := Some(at)))
      else Illegal(p, e)
    case Created(_, _, _, _, _, _, _) => Illegal(p, e)
  }

  function Illegal(p: Payment, e: Event): Result<Payment, TransitionError> {
    Err(TransitionError(p.state, IllegalEvent(e)))
  }

  /** The aggregate after a full history: the creation, then every event in order. */
  function Replay(h: seq<Event>): Result<Payment, TransitionError>
    decreases |h|
  {
    if |h| == 0 then Err(TransitionError(PaymentState.Created, EmptyHistory))
    else if |h| == 1 then New(h[0])
    else
      var p :- Replay(h[..|h| - 1]);
      Applied(p, h[|h| - 1])
  }

  /** Replaying one more event is replaying, then applying. */
  lemma ReplayExtends(h: seq<Event>, e: Event)
    requires h != []
    ensures Replay(h + [e]) == if Replay(h).Ok? then Applied(Replay(h).value, e) else Replay(h)
  {
    assert (h + [e])[..|h|] == h;
  }

  /** A refused prefix refuses every longer history, with the same error. */
  lemma {:induction false} RefusalSticks(h: seq<Event>, n: nat)
    requires 1 <= n <= |h|
    requires Replay(h[..n]).Err?
    ensures Replay(h) == Err(Replay(h[..n]).error)
    decreases |h|
  {
    if n == |h| {
      assert h[..n] == h;
    } else {
      var front := h[..|h| - 1];
      assert front[..n] == h[..n];
      RefusalSticks(front, n);
    }
  }

  /** Every prefix of an accepted history is accepted. */
  lemma PrefixAccepted(h: seq<Event>, n: nat)
    requires 1 <= n <= |h|
    requires Replay(h).Ok?
    ensures Replay(h[..n]).Ok?
  {
    if Replay(h[..n]).Err? {
      RefusalSticks(h, n);
    }
  }

  /** The aggregate carries exactly the history it was replayed from. */
  lemma {:induction false} ReplayKeepsHistory(h: seq<Event>)
    requires Replay(h).Ok?
    ensures Replay(h).value.events == h
    decreases |h|
  {
    if |h| > 1 {
      ReplayKeepsHistory(h[..|h| - 1]);
      assert h == h[..|h| - 1] + [h[|h| - 1]];
    }
  }

  /** The mutable aggregate the gateway holds in memory. */
  class Aggregate {
    var state: PaymentState
    var key: Key
    var messageId: string
    var creationDateTime: string
    var endToEndId: string
    var uetr: Option<string>
    var publishedAt: Option<int>
    var lastQueryAt: Option<int>
    var queriesSent: nat
    var lastAdvice: Option<AdviceStatus>
    var rejectionReason: Option<string>
    var riskOutcome: Option<RiskOutcome>
    var riskReason: Option<string>
    var riskSource: Option<RiskSource>
    var heldAt: Option<int>
    var heldDigest: Option<Digest>
    var holdResolution: Option<HoldResolution>
    var events: seq<Event>

    function View(): Payment
      reads this
    {
      Payment(state, key, messageId, creationDateTime, endToEndId, uetr, publishedAt, lastQueryAt,
              queriesSent, lastAdvice, rejectionReason, riskOutcome, riskReason, riskSource, heldAt,
              heldDigest, holdResolution, events)
    }

    constructor (created: Event)
      requires created.Created?
      ensures New(created) == Ok(View())
    {
      state := PaymentState.Created;
      key, messageId, creationDateTime := created.key, created.messageId, created.creationDateTime;
      endToEndId, uetr := created.endToEndId, created.uetr;
      publishedAt, lastQueryAt, queriesSent, lastAdvice := None, None, 0, None;
      rejectionReason, riskOutcome, riskReason, riskSource := None, None, None, None;
      heldAt, heldDigest, holdResolution := None, None, None;
      events := [created];
    }

    /** The common tail of every accepted transition. */
    method Record(next: PaymentState, e: Event)
      modifies `state, `events
      ensures View() == old(View()).(state := next, events := old(events) + [e])
    {
      state := next;
      events := events + [e];
    }

    /** Apply one event, enforcing the legal transitions; a refusal changes nothing. */
    method Apply(e: Event) returns (r: Result<(), TransitionError>)
      modifies this
      ensures Applied(old(View()), e) == if r.Ok? then Ok(View()) else Err(r.error)
      ensures r.Err? ==> unchanged(this)
    {
      if e.HoldParked? || e.HoldReleased? || e.HoldCancelled? {
        r := ApplyToHold(e);
      } else if e.RiskChecked? {
        r := ApplyRiskCheck(e);
      } else if e.AdviceReceived? {
        r := ApplyAdvice(e);
      } else {
        r := ApplyStep(e);
      }
    }

    /** One check per payment, between validation and the outbox. */
    method ApplyRiskCheck(e: Event) returns (r: Result<(), TransitionError>)
      requires e.RiskChecked?
      modifies this
      ensures Applied(old(View()), e) == if r.Ok? then Ok(View()) else Err(r.error)
      ensures r.Err? ==> unchanged(this)
    {
      if !state.Validated? || riskOutcome.Some? {
        return Err(TransitionError(state, IllegalEvent(e)));
      }
      riskOutcome, riskReason, riskSource := Some(e.outcome), e.checkReason, Some(e.source);
      heldAt := if e.outcome.Hold? then Some(e.at) else heldAt;
      Record(match e.outcome
             case Allow => PaymentState.Validated
             case Hold => PaymentState.Held
             case Refuse => PaymentState.Refused, e);
      return Ok(());
    }

    /** The arms of a held payment. */
    method ApplyToHold(e: Event) returns (r: Result<(), TransitionError>)
      requires e.HoldParked? || e.HoldReleased? || e.HoldCancelled?
      modifies this
      ensures Applied(old(View()), e) == if r.Ok? then Ok(View()) else Err(r.error)
      ensures r.Err? ==> unchanged(this)
    {
      var next := state;
      if e.HoldParked? && state.Held? && heldDigest.None? {
        heldDigest := Some(e.digest);
      } else if e.HoldReleased? && state.Held? && heldDigest == Some(e.digest) {
        holdResolution := Some(HoldResolution(Released, e.actor, e.reason, e.at));
        next := PaymentState.Submitted;
      } else if e.HoldCancelled? && state.Held? {
        heldDigest := None;
        holdResolution := Some(HoldResolution(HoldAction.Cancelled, e.actor, e.reason, e.at));
        next := PaymentState.Cancelled;
      } else {
        return Err(TransitionError(state, IllegalEvent(e)));
      }
      Record(next, e);
      return Ok(());
    }

    /** Advices resolve pending and unresolved payments alike; after settlement they are only recorded. */
    method ApplyAdvice(e: Event) returns (r: Result<(), TransitionError>)
      requires e.AdviceReceived?
      modifies this
      ensures Applied(old(View()), e) == if r.Ok? then Ok(View()) else Err(r.error)
      ensures r.Err? ==> unchanged(this)
    {
      var next := state;
      if state.AckPending? || state.TimeoutUnresolved? {
        rejectionReason := if e.status.Rjct? then e.adviceReason else rejectionReason;
        next := Advised(state, e.status);
      } else if !state.Settled? {
        return Err(TransitionError(state, IllegalEvent(e)));
      }
      lastAdvice := Some(e.status);
      Record(next, e);
      return Ok(());
    }

    /** The remaining arms: validation, submission, publication and the reconciler's own events. */
    method ApplyStep(e: Event) returns (r: Result<(), TransitionError>)
      requires e.Created? || e.Validated? || e.Submitted? || e.Published? || e.TimeoutDeclared? || e.QuerySent?
      modifies this
      ensures Applied(old(View()), e) == if r.Ok? then Ok(View()) else Err(r.error)
      ensures r.Err? ==> unchanged(this)
    {
      var next := state;
      if e.Validated? && state.Created? {
        next := PaymentState.Validated;
      } else if e.Submitted? && state.Validated? {
        next := PaymentState.Submitted;
      } else if e.Published? && state.Submitted? {
        publishedAt := Some(e.at);
        next := PaymentState.AckPending;
      } else if e.TimeoutDeclared? && state.AckPending? {
        next := PaymentState.TimeoutUnresolved;
      } else if e.QuerySent? && state.TimeoutUnresolved? {
        queriesSent := queriesSent + 1;
        lastQueryAt := Some(e.at);
      } else {
        return Err(TransitionError(state, IllegalEvent(e)));
      }
      Record(next, e);
      return Ok(());
    }
  }

  /** Rebuild the aggregate from its full event history. */
  method ReplayAll(events: seq<Event>) returns (r: Result<Payment, TransitionError>)
    ensures r == Replay(events)
  {
    if |events| == 0 {
      return Err(TransitionError(PaymentState.Created, EmptyHistory));
    }
    if !events[0].Created? {
      assert events[..1] == [events[0]];
      RefusalSticks(events, 1);
      return Err(TransitionError(PaymentState.Created, NotACreation(events[0])));
    }
    var payment := new Aggregate(events[0]);
    assert events[..1] == [events[0]];
    for i := 1 to |events|
      invariant fresh(payment)
      invariant Replay(events[..i]) == Ok(payment.View())
    {
      ReplayExtends(events[..i], events[i]);
      assert events[..i + 1] == events[..i] + [events[i]];
      var applied := payment.Apply(events[i]);
      if applied.Err? {
        RefusalSticks(events, i + 1);
        return Err(applied.error);
      }
    }
    assert events[..|events|] == events;
    return Ok(payment.View());
  }
}
