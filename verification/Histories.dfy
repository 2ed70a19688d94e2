/** What an accepted event history says: folds, one-shot events, frozen states. */
module Histories {
  import opened Wrappers
  import opened Payments

  // ---------------------------------------------------------------- folds

  /** The most recent value that `read` finds in a history. */
  function LastOf<T>(h: seq<Event>, read: Event -> Option<T>): Option<T>
    decreases |h|
  {
    if |h| == 0 then None
    else if read(h[|h| - 1]).Some? then read(h[|h| - 1])
    else LastOf(h[..|h| - 1], read)
  }

  function Count(h: seq<Event>, counts: Event -> bool): nat
    decreases |h|
  {
    if |h| == 0 then 0
    else Count(h[..|h| - 1], counts) + if counts(h[|h| - 1]) then 1 else 0
  }

  function QueryTime(e: Event): Option<int> { if e.QuerySent? then Some(e.at) else None }

  function PublishTime(e: Event): Option<int> { if e.Published? then Some(e.at) else None }

  function StatusHeard(e: Event): Option<AdviceStatus> { if e.AdviceReceived? then Some(e.status) else None }

  function HoldTime(e: Event): Option<int> {
    if e.RiskChecked? && e.outcome.Hold? then Some(e.at) else None
  }

  function ResolutionOf(e: Event): Option<HoldResolution> {
    match e
    case HoldReleased(actor, reason, _, at) => Some(HoldResolution(Released, actor, reason, at))
    case HoldCancelled(actor, reason, at) => Some(HoldResolution(HoldAction.Cancelled, actor, reason, at))
    case _ => None
  }

  predicate IsQuery(e: Event) { e.QuerySent? }

  /** `p` is the fold of `h`, field by field. */
  ghost predicate Folds(p: Payment, h: seq<Event>) {
    p.events == h && WireFolds(p, h) && HoldFolds(p, h)
  }

  ghost predicate WireFolds(p: Payment, h: seq<Event>) {
    && p.queriesSent == Count(h, IsQuery)
    && p.lastQueryAt == LastOf(h, QueryTime)
    && p.publishedAt == LastOf(h, PublishTime)
    && p.lastAdvice == LastOf(h, StatusHeard)
  }

  ghost predicate HoldFolds(p: Payment, h: seq<Event>) {
    && p.heldAt == LastOf(h, HoldTime)
    && p.holdResolution == LastOf(h, ResolutionOf)
  }

  lemma WireFoldsExtend(p: Payment, h: seq<Event>, e: Event)
    requires WireFolds(p, h) && Applied(p, e).Ok?
    ensures WireFolds(Applied(p, e).value, h + [e])
  {
    assert (h + [e])[..|h|] == h;
  }

  lemma HoldFoldsExtend(p: Payment, h: seq<Event>, e: Event)
    requires HoldFolds(p, h) && Applied(p, e).Ok?
    ensures HoldFolds(Applied(p, e).value, h + [e])
  {
    assert (h + [e])[..|h|] == h;
  }

  /** Every replayed aggregate is the fold of its history, and replaying its events gives it back. */
  lemma {:induction false} ReplayFolds(h: seq<Event>)
    requires Replay(h).Ok?
    ensures Folds(Replay(h).value, h)
    ensures Replay(Replay(h).value.events) == Replay(h)
    decreases |h|
  {
    hide Applied, WireFolds, HoldFolds;
    ReplayKeepsHistory(h);
    if |h| > 1 {
      var front, last := h[..|h| - 1], h[|h| - 1];
      ReplayFolds(front);
      WireFoldsExtend(Replay(front).value, front, last);
      HoldFoldsExtend(Replay(front).value, front, last);
      assert h == front + [last];
    } else {
      FoldsBegin(h[0]);
      assert h == [h[0]];
    }
  }

  lemma FoldsBegin(e: Event)
    requires New(e).Ok?
    ensures WireFolds(New(e).value, [e]) && HoldFolds(New(e).value, [e])
  {
    assert [e][..0] == [];
  }

  // ------------------------------------------------- phases of a lifecycle

  /** States whose message is, or was, in the outbox. */
  predicate OnWire(s: PaymentState) {
    s.Submitted? || s.AckPending? || s.TimeoutUnresolved? || s.Settled? || s.Rejected?
  }

  /** States only the submitting call can leave. */
  predicate Early(s: PaymentState) { s.Created? || s.Validated? }

  predicate Frozen(s: PaymentState) { s.Refused? || s.Rejected? || s.Cancelled? }

  /** What each state says about the other fields. */
  ghost predicate Coherent(p: Payment) {
    && p.events != []
    && (p.state.Created? <==> |p.events| == 1)
    && CheckCoherent(p)
    && HoldCoherent(p)
    && WireCoherent(p)
  }

  ghost predicate CheckCoherent(p: Payment) {
    && (p.state.Created? ==> p.riskOutcome.None?)
    && (p.state.Validated? ==> p.riskOutcome != Some(RiskOutcome.Hold))
    && (p.state.Refused? <==> p.riskOutcome == Some(RiskOutcome.Refuse))
    && (p.heldAt.Some? <==> p.riskOutcome == Some(RiskOutcome.Hold))
  }

  ghost predicate HoldCoherent(p: Payment) {
    && (p.state.Held? ==> p.heldAt.Some?)
    && (p.state.Created? || p.state.Validated? ==> p.heldAt.None?)
    && (p.heldDigest.Some? ==> p.heldAt.Some?)
    && (p.holdResolution.Some? <==> p.heldAt.Some? && (p.state.Cancelled? || OnWire(p.state)))
    && (p.state.Cancelled? ==> p.holdResolution.Some? && p.holdResolution.value.action.Cancelled?)
    && (p.holdResolution.Some? && OnWire(p.state) ==>
          p.holdResolution.value.action.Released? && p.heldDigest.Some?)
  }

  ghost predicate WireCoherent(p: Payment) {
    && (p.publishedAt.Some? <==> OnWire(p.state) && !p.state.Submitted?)
    && (p.queriesSent > 0 ==> p.publishedAt.Some?)
    && (p.lastQueryAt.Some? <==> p.queriesSent > 0)
  }

  lemma HoldCoherentExtends(p: Payment, e: Event)
    requires CheckCoherent(p) && HoldCoherent(p) && Applied(p, e).Ok?
    ensures HoldCoherent(Applied(p, e).value)
  {
  }

  lemma CheckCoherentExtends(p: Payment, e: Event)
    requires CheckCoherent(p) && HoldCoherent(p) && Applied(p, e).Ok?
    ensures CheckCoherent(Applied(p, e).value)
  {
  }

  lemma WireCoherentExtends(p: Payment, e: Event)
    requires WireCoherent(p) && Applied(p, e).Ok?
    ensures WireCoherent(Applied(p, e).value)
  {
  }

  lemma {:induction false} ReplayIsCoherent(h: seq<Event>)
    requires Replay(h).Ok?
    ensures Coherent(Replay(h).value)
    decreases |h|
  {
    ReplayKeepsHistory(h);
    if |h| > 1 {
      var p, last := Replay(h[..|h| - 1]).value, h[|h| - 1];
      ReplayIsCoherent(h[..|h| - 1]);
      CheckCoherentExtends(p, last);
      HoldCoherentExtends(p, last);
      WireCoherentExtends(p, last);
    }
  }

  /** The identity fields come from the creation event and never change. */
  lemma {:induction false} IdentityIsFixed(h: seq<Event>)
    requires Replay(h).Ok?
    ensures h[0].Created?
    ensures var p := Replay(h).value;
      && p.key == h[0].key && p.messageId == h[0].messageId
      && p.creationDateTime == h[0].creationDateTime && p.endToEndId == h[0].endToEndId
      && p.uetr == h[0].uetr
    decreases |h|
  {
    if |h| > 1 {
      IdentityIsFixed(h[..|h| - 1]);
    }
  }

  /** Once published, always at that time. */
  lemma {:induction false} PublicationIsFinal(h: seq<Event>, e: Event)
    requires Replay(h).Ok?
    requires e in h && e.Published?
    ensures Replay(h).value.publishedAt == Some(e.at)
    decreases |h|
  {
    if |h| > 1 {
      var front := h[..|h| - 1];
      ReplayIsCoherent(front);
      if e in front {
        PublicationIsFinal(front, e);
      } else {
        assert h == front + [h[|h| - 1]];
      }
    }
  }

  /** The hold that was taken is the hold on record, for good. */
  lemma {:induction false} HoldIsFinal(h: seq<Event>, e: Event)
    requires Replay(h).Ok?
    requires e in h && e.RiskChecked?
    ensures Replay(h).value.riskOutcome == Some(e.outcome)
    ensures e.outcome.Hold? ==> Replay(h).value.heldAt == Some(e.at)
    ensures Replay(h).value.riskReason == e.checkReason
    decreases |h|
  {
    if |h| > 1 {
      var front := h[..|h| - 1];
      ReplayIsCoherent(front);
      if e in front {
        HoldIsFinal(front, e);
      } else {
        assert h == front + [h[|h| - 1]];
      }
    }
  }

  /** A hold time on record was put there by a hold event. */
  lemma {:induction false} HoldIsRecorded(h: seq<Event>) returns (e: Event)
    requires Replay(h).Ok? && Replay(h).value.heldAt.Some?
    ensures e in h && e.RiskChecked? && e.outcome.Hold? && e.at == Replay(h).value.heldAt.value
    decreases |h|
  {
    var last := h[|h| - 1];
    if |h| > 1 && !(last.RiskChecked? && last.outcome.Hold?) {
      e := HoldIsRecorded(h[..|h| - 1]);
    } else {
      e := last;
    }
  }

  lemma {:induction false} PublicationIsRecorded(h: seq<Event>) returns (e: Event)
    requires Replay(h).Ok? && Replay(h).value.publishedAt.Some?
    ensures e in h && e.Published? && e.at == Replay(h).value.publishedAt.value
    decreases |h|
  {
    var last := h[|h| - 1];
    if |h| > 1 && !last.Published? {
      e := PublicationIsRecorded(h[..|h| - 1]);
    } else {
      e := last;
    }
  }

  /** A settled payment heard a settling advice; a rejected one heard a rejection, with the reason on record. */
  lemma {:induction false} VerdictIsRecorded(h: seq<Event>) returns (e: Event)
    requires Replay(h).Ok?
    requires Replay(h).value.state.Settled? || Replay(h).value.state.Rejected?
    ensures e in h && e.AdviceReceived?
    ensures Replay(h).value.state == Advised(PaymentState.AckPending, e.status)
    ensures Replay(h).value.state.Rejected? ==> Replay(h).value.rejectionReason == e.adviceReason
    decreases |h|
  {
    var front, last := h[..|h| - 1], h[|h| - 1];
    if |h| > 1 && Replay(front).value.state == Replay(h).value.state {
      e := VerdictIsRecorded(front);
    } else {
      e := last;
    }
  }

  // ------------------------------------------------- laws of the lifecycle

  /** No event moves a refused, rejected or cancelled payment. */
  lemma FrozenForGood(h: seq<Event>, e: Event)
    requires Replay(h).Ok? && Frozen(Replay(h).value.state)
    ensures Replay(h + [e]).Err?
  {
    ReplayExtends(h, e);
  }

  /** A settled payment accepts advices and nothing else, and stays settled. */
  lemma SettledForGood(h: seq<Event>, e: Event)
    requires Replay(h).Ok? && Replay(h).value.state.Settled?
    ensures Replay(h + [e]).Ok? <==> e.AdviceReceived?
    ensures Replay(h + [e]).Ok? ==> Replay(h + [e]).value.state.Settled?
  {
    ReplayExtends(h, e);
  }

  /** Whatever follows, a settled payment stays settled and frozen states do not change. */
  lemma {:induction false} TerminalStatesHold(h: seq<Event>, n: nat)
    requires 1 <= n <= |h|
    requires Replay(h).Ok?
    ensures Replay(h[..n]).Ok?
    ensures var s := Replay(h[..n]).value.state;
      (s.Settled? ==> Replay(h).value.state.Settled?) && (Frozen(s) ==> n == |h|)
    decreases |h|
  {
    PrefixAccepted(h, n);
    if n < |h| {
      var front := h[..|h| - 1];
      TerminalStatesHold(front, n);
      assert front[..n] == h[..n];
    } else {
      assert h[..n] == h;
    }
  }

  predicate OneShot(e: Event) {
    !e.AdviceReceived? && !e.QuerySent?
  }

  /** Which event a one-shot constructor is. */
  function Kind(e: Event): nat {
    match e
    case Created(_, _, _, _, _, _, _) => 0
    case Validated(_) => 1
    case RiskChecked(_, _, _, _, _, _) => 2
    case HoldParked(_, _) => 3
    case HoldReleased(_, _, _, _) => 4
    case HoldCancelled(_, _, _) => 5
    case Submitted(_) => 6
    case Published(_) => 7
    case AdviceReceived(_, _, _) => 8
    case TimeoutDeclared(_) => 9
    case QuerySent(_) => 10
  }

  /** The kinds of event a payment in this state can already have had. */
  ghost predicate CanHaveHad(p: Payment, kind: nat) {
    match kind
    case 0 => true
    case 1 => !p.state.Created?
    case 2 => p.riskOutcome.Some?
    case 3 => p.state.Cancelled? || p.heldDigest.Some?
    case 4 => OnWire(p.state) && p.holdResolution.Some?
    case 5 => p.state.Cancelled?
    case 6 => OnWire(p.state) && p.holdResolution.None?
    case 7 => OnWire(p.state) && !p.state.Submitted?
    case 8 => OnWire(p.state) && !p.state.Submitted?
    case 9 => OnWire(p.state) && !p.state.Submitted? && !p.state.AckPending?
    case _ => OnWire(p.state) && !p.state.Submitted? && !p.state.AckPending?
  }

  lemma PastStaysPossible(p: Payment, e: Event, kind: nat)
    requires Coherent(p) && Applied(p, e).Ok? && CanHaveHad(p, kind)
    ensures CanHaveHad(Applied(p, e).value, kind)
  {
  }

  lemma {:induction false} HistoryFitsState(h: seq<Event>)
    requires Replay(h).Ok?
    ensures forall i | 0 <= i < |h| :: CanHaveHad(Replay(h).value, Kind(h[i]))
    decreases |h|
  {
    if |h| > 1 {
      var front, last := h[..|h| - 1], h[|h| - 1];
      HistoryFitsState(front);
      ReplayIsCoherent(front);
      forall i | 0 <= i < |front|
        ensures CanHaveHad(Replay(h).value, Kind(h[i]))
      {
        assert h[i] == front[i];
        PastStaysPossible(Replay(front).value, last, Kind(front[i]));
      }
    }
  }

  /** Every event but advices and queries happens at most once. */
  lemma {:induction false} OneShotEvents(h: seq<Event>, i: nat, j: nat)
    requires Replay(h).Ok?
    requires i < j < |h| && OneShot(h[i])
    ensures Kind(h[i]) != Kind(h[j])
    decreases |h|
  {
    var front := h[..|h| - 1];
    if j < |front| {
      OneShotEvents(front, i, j);
    } else {
      HistoryFitsState(front);
      ReplayIsCoherent(front);
      assert front[i] == h[i];
    }
  }

  /** A payment enters the outbox once: by `Submitted` or by `HoldReleased`, never both. */
  lemma SubmittedXorReleased(h: seq<Event>, i: nat, j: nat)
    requires Replay(h).Ok?
    requires i < |h| && j < |h| && h[i].Submitted?
    ensures !h[j].HoldReleased?
  {
    HistoryFitsState(h);
  }

  /** Exactly one entry into the outbox precedes every publication. */
  lemma {:induction false} OutboxBeforePublication(h: seq<Event>, j: nat) returns (i: nat)
    requires Replay(h).Ok?
    requires j < |h| && h[j].Published?
    ensures i < j && (h[i].Submitted? || h[i].HoldReleased?)
    ensures forall k | 0 <= k < |h| && (h[k].Submitted? || h[k].HoldReleased?) :: k == i
  {
    assert h[..j + 1] == h[..j] + [h[j]];
    PrefixAccepted(h, j + 1);
    assert j > 0 by { IdentityIsFixed(h); }
    i := OutboxEntryIsRecorded(h[..j]);
    forall k | 0 <= k < |h| && (h[k].Submitted? || h[k].HoldReleased?)
      ensures k == i
    {
      if h[k].Submitted? && h[i].HoldReleased? {
        SubmittedXorReleased(h, k, i);
      } else if h[i].Submitted? && h[k].HoldReleased? {
        SubmittedXorReleased(h, i, k);
      } else if k < i {
        OneShotEvents(h, k, i);
      } else if i < k {
        OneShotEvents(h, i, k);
      }
    }
  }

  lemma {:induction false} OutboxEntryIsRecorded(h: seq<Event>) returns (i: nat)
    requires Replay(h).Ok? && OnWire(Replay(h).value.state)
    ensures i < |h| && (h[i].Submitted? || h[i].HoldReleased?)
    decreases |h|
  {
    var front := h[..|h| - 1];
    if |h| > 1 && OnWire(Replay(front).value.state) {
      i := OutboxEntryIsRecorded(front);
    } else {
      i := |h| - 1;
    }
  }
}
