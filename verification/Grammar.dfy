/** The language of accepted histories, as a grammar independent of the transition function. */
module Grammar {
  import opened Wrappers
  import opened Payments
  import opened Histories

  /** What happened on the wire: publication, interim advices, an overdue spell, a verdict. */
  datatype WireLog = WireLog(published: seq<Event>, early: seq<Event>, overdue: seq<Event>, verdict: seq<Event>)

  /** One lifecycle, phrase by phrase. Optional phrases are sequences of at most one event. */
  datatype Sentence =
    | Fresh(created: Event)
    | Unsent(created: Event, validated: Event, check: seq<Event>)
    | Refusal(created: Event, validated: Event, refuse: Event)
    | OnHold(created: Event, validated: Event, hold: Event, parked: seq<Event>, cancel: seq<Event>)
    | Direct(created: Event, validated: Event, check: seq<Event>, submit: Event, wire: WireLog)
    | Released(created: Event, validated: Event, hold: Event, park: Event, release: Event, wire: WireLog)

  predicate Checked(e: Event, outcome: RiskOutcome) { e.RiskChecked? && e.outcome == outcome }

  predicate Interim(e: Event) { e.AdviceReceived? && (e.status.Actc? || e.status.Pdng?) }

  predicate Settling(e: Event) {
    e.AdviceReceived? && (e.status.Acsc? || e.status.Accc? || e.status.Acwp? || e.status.Blck?)
  }

  predicate Rejecting(e: Event) { e.AdviceReceived? && e.status.Rjct? }

  predicate InterimsOnly(es: seq<Event>) { forall i | 0 <= i < |es| :: Interim(es[i]) }

  /** Waiting past the timeout: interim advices and status queries, in any order. */
  predicate ChasesOnly(es: seq<Event>) { forall i | 0 <= i < |es| :: Interim(es[i]) || es[i].QuerySent? }

  predicate AdvicesOnly(es: seq<Event>) { forall i | 0 <= i < |es| :: es[i].AdviceReceived? }

  predicate Allowance(es: seq<Event>) { es == [] || (|es| == 1 && Checked(es[0], RiskOutcome.Allow)) }

  predicate OverduePhrase(es: seq<Event>) {
    es == [] || (es[0].TimeoutDeclared? && ChasesOnly(es[1..]))
  }

  predicate VerdictPhrase(es: seq<Event>) {
    || es == []
    || (|es| == 1 && Rejecting(es[0]))
    || (Settling(es[0]) && AdvicesOnly(es[1..]))
  }

  predicate WellFormedWire(w: WireLog) {
    && (w.published == [] ==> w.early == [] && w.overdue == [] && w.verdict == [])
    && (w.published != [] ==> |w.published| == 1 && w.published[0].Published?)
    && InterimsOnly(w.early)
    && OverduePhrase(w.overdue)
    && VerdictPhrase(w.verdict)
  }

  predicate WellFormed(s: Sentence) {
    && s.created.Created?
    && (!s.Fresh? ==> s.validated.Validated?)
    && match s
       case Fresh(_) => true
       case Unsent(_, _, check) => Allowance(check)
       case Refusal(_, _, refuse) => Checked(refuse, RiskOutcome.Refuse)
       case OnHold(_, _, hold, parked, cancel) =>
         && Checked(hold, RiskOutcome.Hold)
         && (parked == [] || (|parked| == 1 && parked[0].HoldParked?))
         && (cancel == [] || (|cancel| == 1 && cancel[0].HoldCancelled?))
       case Direct(_, _, check, submit, wire) =>
         Allowance(check) && submit.Submitted? && WellFormedWire(wire)
       case Released(_, _, hold, park, release, wire) =>
         && Checked(hold, RiskOutcome.Hold)
         && park.HoldParked? && release.HoldReleased? && release.digest == park.digest
         && WellFormedWire(wire)
  }

  function WireText(w: WireLog): seq<Event> {
    w.published + w.early + w.overdue + w.verdict
  }

  /** The events before the wire. */
  function Opening(s: Sentence): seq<Event> {
    match s
    case Fresh(c) => [c]
    case Unsent(c, v, check) => [c, v] + check
    case Refusal(c, v, refuse) => [c, v, refuse]
    case OnHold(c, v, hold, parked, cancel) => [c, v, hold] + parked + cancel
    case Direct(c, v, check, submit, _) => [c, v] + check + [submit]
    case Released(c, v, hold, park, release, _) => [c, v, hold, park, release]
  }

  function Text(s: Sentence): seq<Event> {
    if s.Direct? || s.Released? then Opening(s) + WireText(s.wire) else Opening(s)
  }

  function WireState(w: WireLog): PaymentState {
    if w.verdict != [] then
      if Rejecting(w.verdict[0]) then PaymentState.Rejected else PaymentState.Settled
    else if w.overdue != [] then PaymentState.TimeoutUnresolved
    else if w.published != [] then PaymentState.AckPending
    else PaymentState.Submitted
  }

  /** The state a sentence ends in, read off its phrases. */
  function EndState(s: Sentence): PaymentState {
    match s
    case Fresh(_) => PaymentState.Created
    case Unsent(_, _, _) => PaymentState.Validated
    case Refusal(_, _, _) => PaymentState.Refused
    case OnHold(_, _, _, _, cancel) => if cancel == [] then PaymentState.Held else PaymentState.Cancelled
    case Direct(_, _, _, _, wire) => WireState(wire)
    case Released(_, _, _, _, _, wire) => WireState(wire)
  }

  // ------------------------------------------------------------ soundness

  lemma {:induction false} InterimsWait(h: seq<Event>, es: seq<Event>)
    requires Replay(h).Ok? && Replay(h).value.state.AckPending?
    requires InterimsOnly(es)
    ensures Replay(h + es).Ok? && Replay(h + es).value.state.AckPending?
    decreases |es|
  {
    if es == [] {
      assert h + es == h;
    } else {
      var front, last := es[..|es| - 1], es[|es| - 1];
      InterimsWait(h, front);
      ReplayExtends(h + front, last);
      assert h + es == h + front + [last];
    }
  }

  lemma {:induction false} ChasesWait(h: seq<Event>, es: seq<Event>)
    requires Replay(h).Ok? && Replay(h).value.state.TimeoutUnresolved?
    requires ChasesOnly(es)
    ensures Replay(h + es).Ok? && Replay(h + es).value.state.TimeoutUnresolved?
    decreases |es|
  {
    if es == [] {
      assert h + es == h;
    } else {
      var front, last := es[..|es| - 1], es[|es| - 1];
      ChasesWait(h, front);
      ReplayExtends(h + front, last);
      assert h + es == h + front + [last];
    }
  }

  lemma {:induction false} ConfirmationsHold(h: seq<Event>, es: seq<Event>)
    requires Replay(h).Ok? && Replay(h).value.state.Settled?
    requires AdvicesOnly(es)
    ensures Replay(h + es).Ok? && Replay(h + es).value.state.Settled?
    decreases |es|
  {
    if es == [] {
      assert h + es == h;
    } else {
      var front, last := es[..|es| - 1], es[|es| - 1];
      ConfirmationsHold(h, front);
      ReplayExtends(h + front, last);
      assert h + es == h + front + [last];
    }
  }

  lemma HeadFirst(h: seq<Event>, es: seq<Event>)
    requires es != []
    ensures h + es == h + [es[0]] + es[1..]
  {
  }

  lemma OverdueAccepted(h: seq<Event>, es: seq<Event>)
    requires Replay(h).Ok? && Replay(h).value.state.AckPending?
    requires OverduePhrase(es) && es != []
    ensures Replay(h + es).Ok? && Replay(h + es).value.state.TimeoutUnresolved?
  {
    ReplayExtends(h, es[0]);
    ChasesWait(h + [es[0]], es[1..]);
    HeadFirst(h, es);
  }

  lemma VerdictAccepted(h: seq<Event>, es: seq<Event>)
    requires Replay(h).Ok?
    requires Replay(h).value.state.AckPending? || Replay(h).value.state.TimeoutUnresolved?
    requires VerdictPhrase(es) && es != []
    ensures Replay(h + es).Ok?
    ensures Replay(h + es).value.state
         == if Rejecting(es[0]) then PaymentState.Rejected else PaymentState.Settled
  {
    ReplayExtends(h, es[0]);
    HeadFirst(h, es);
    if Rejecting(es[0]) {
      assert h + es == h + [es[0]];
    } else {
      ConfirmationsHold(h + [es[0]], es[1..]);
    }
  }

  lemma PhraseByPhrase(h: seq<Event>, w: WireLog)
    requires WellFormedWire(w) && w.published != [] && w.verdict == []
    ensures h + WireText(w) == h + [w.published[0]] + w.early + w.overdue
    ensures w.overdue == [] ==> h + WireText(w) == h + [w.published[0]] + w.early
  {
  }

  lemma PublishedWireAccepted(h: seq<Event>, w: WireLog)
    requires Replay(h).Ok? && Replay(h).value.state.Submitted?
    requires WellFormedWire(w) && w.published != [] && w.verdict == []
    ensures Replay(h + WireText(w)).Ok? && Replay(h + WireText(w)).value.state == WireState(w)
  {
    PhraseByPhrase(h, w);
    ReplayExtends(h, w.published[0]);
    InterimsWait(h + [w.published[0]], w.early);
    if w.overdue != [] {
      OverdueAccepted(h + [w.published[0]] + w.early, w.overdue);
    }
  }

  lemma WireAccepted(h: seq<Event>, w: WireLog)
    requires Replay(h).Ok? && Replay(h).value.state.Submitted?
    requires WellFormedWire(w)
    ensures Replay(h + WireText(w)).Ok? && Replay(h + WireText(w)).value.state == WireState(w)
  {
    if w.published == [] {
      assert h + WireText(w) == h;
    } else {
      var waiting := w.(verdict := []);
      PublishedWireAccepted(h, waiting);
      assert h + WireText(w) == h + WireText(waiting) + w.verdict;
      if w.verdict == [] {
        assert w == waiting;
      } else {
        VerdictAccepted(h + WireText(waiting), w.verdict);
      }
    }
  }

  /** How far the opening has got: state, risk outcome and parked digest. */
  ghost predicate OpeningReaches(h: seq<Event>, state: PaymentState, outcome: Option<RiskOutcome>,
          digest: Option<Digest>) {
    && Replay(h).Ok?
    && Replay(h).value.state == state
    && Replay(h).value.riskOutcome == outcome
    && Replay(h).value.heldDigest == digest
  }

  lemma ValidatedOpening(c: Event, v: Event)
    requires c.Created? && v.Validated?
    ensures OpeningReaches([c, v], PaymentState.Validated, None, None)
  {
    ReplayExtends([c], v);
    assert [c, v] == [c] + [v];
  }

  lemma UnsentOpening(c: Event, v: Event, check: seq<Event>)
    requires c.Created? && v.Validated? && Allowance(check)
    ensures OpeningReaches([c, v] + check, PaymentState.Validated,
                           if check == [] then None else Some(RiskOutcome.Allow), None)
  {
    ValidatedOpening(c, v);
    if check == [] {
      assert [c, v] + check == [c, v];
    } else {
      ReplayExtends([c, v], check[0]);
      assert [c, v] + check == [c, v] + [check[0]];
    }
  }

  lemma HeldOpening(c: Event, v: Event, hold: Event, parked: seq<Event>)
    requires c.Created? && v.Validated? && Checked(hold, RiskOutcome.Hold)
    requires parked == [] || (|parked| == 1 && parked[0].HoldParked?)
    ensures OpeningReaches([c, v, hold] + parked, PaymentState.Held, Some(RiskOutcome.Hold),
                           if parked == [] then None else Some(parked[0].digest))
  {
    ValidatedOpening(c, v);
    ReplayExtends([c, v], hold);
    assert [c, v, hold] == [c, v] + [hold];
    if parked == [] {
      assert [c, v, hold] + parked == [c, v, hold];
    } else {
      ReplayExtends([c, v, hold], parked[0]);
      assert [c, v, hold] + parked == [c, v, hold] + [parked[0]];
    }
  }

  lemma OpeningAccepted(s: Sentence)
    requires WellFormed(s)
    ensures Replay(Opening(s)).Ok?
    ensures Replay(Opening(s)).value.state
         == if s.Direct? || s.Released? then PaymentState.Submitted else EndState(s)
  {
    match s
    case Fresh(c) =>
    case Unsent(c, v, check) => UnsentOpening(c, v, check);
    case Refusal(c, v, refuse) =>
      ValidatedOpening(c, v);
      ReplayExtends([c, v], refuse);
      assert [c, v, refuse] == [c, v] + [refuse];
    case OnHold(c, v, hold, parked, cancel) =>
      HeldOpening(c, v, hold, parked);
      if cancel == [] {
        assert Opening(s) == [c, v, hold] + parked;
      } else {
        ReplayExtends([c, v, hold] + parked, cancel[0]);
        assert Opening(s) == [c, v, hold] + parked + [cancel[0]];
      }
    case Direct(c, v, check, submit, _) =>
      UnsentOpening(c, v, check);
      ReplayExtends([c, v] + check, submit);
    case Released(c, v, hold, park, release, _) =>
      HeldOpening(c, v, hold, [park]);
      ReplayExtends([c, v, hold] + [park], release);
      assert Opening(s) == [c, v, hold] + [park] + [release];
  }

  /** Every sentence of the grammar replays, to the state its phrases announce. */
  lemma Sound(s: Sentence)
    requires WellFormed(s)
    ensures Replay(Text(s)).Ok? && Replay(Text(s)).value.state == EndState(s)
  {
    OpeningAccepted(s);
    if s.Direct? || s.Released? {
      WireAccepted(Opening(s), s.wire);
    }
  }

  // --------------------------------------------------------- completeness

  /** The wire log after one more accepted event. */
  function WireThen(w: WireLog, e: Event): WireLog {
    if w.verdict != [] then w.(verdict := w.verdict + [e])
    else if e.Published? then w.(published := [e])
    else if Settling(e) || Rejecting(e) then w.(verdict := [e])
    else if w.overdue != [] || e.TimeoutDeclared? then w.(overdue := w.overdue + [e])
    else w.(early := w.early + [e])
  }

  predicate WireAccepts(state: PaymentState, e: Event) {
    match state
    case Submitted => e.Published?
    case AckPending => e.AdviceReceived? || e.TimeoutDeclared?
    case TimeoutUnresolved => e.AdviceReceived? || e.QuerySent?
    case Settled => e.AdviceReceived?
    case _ => false
  }

  lemma WireGrows(w: WireLog, e: Event)
    requires WellFormedWire(w) && WireAccepts(WireState(w), e)
    ensures WellFormedWire(WireThen(w, e))
    ensures WireText(WireThen(w, e)) == WireText(w) + [e]
  {
    if w.verdict != [] {
      assert (w.verdict + [e])[1..] == w.verdict[1..] + [e];
    } else if w.overdue != [] && !Settling(e) && !Rejecting(e) {
      assert (w.overdue + [e])[1..] == w.overdue[1..] + [e];
    }
  }

  /** The sentence after one more accepted event. */
  function Then(s: Sentence, e: Event): Sentence {
    match s
    case Fresh(c) => Unsent(c, e, [])
    case Unsent(c, v, check) =>
      if e.Submitted? then Direct(c, v, check, e, WireLog([], [], [], []))
      else if Checked(e, RiskOutcome.Hold) then OnHold(c, v, e, [], [])
      else if Checked(e, RiskOutcome.Refuse) then Refusal(c, v, e)
      else Unsent(c, v, check + [e])
    case Refusal(_, _, _) => s
    case OnHold(c, v, hold, parked, cancel) =>
      if e.HoldParked? then OnHold(c, v, hold, parked + [e], cancel)
      else if e.HoldReleased? && parked != [] then
        Sentence.Released(c, v, hold, parked[0], e, WireLog([], [], [], []))
      else OnHold(c, v, hold, parked, cancel + [e])
    case Direct(c, v, check, submit, wire) => Direct(c, v, check, submit, WireThen(wire, e))
    case Released(c, v, hold, park, release, wire) =>
      Sentence.Released(c, v, hold, park, release, WireThen(wire, e))
  }

  /** What an opening says about the aggregate it replays to. */
  ghost predicate Announces(s: Sentence, p: Payment)
    requires WellFormed(s)
  {
    && p.state == EndState(s)
    && (s.Unsent? ==> p.riskOutcome.Some? == (s.check != []))
    && (s.OnHold? && p.state.Held? ==>
          p.heldDigest == if s.parked == [] then None else Some(s.parked[0].digest))
  }

  lemma SoundDetails(s: Sentence)
    requires WellFormed(s)
    ensures Replay(Text(s)).Ok? && Announces(s, Replay(Text(s)).value)
  {
    Sound(s);
    match s
    case Unsent(c, v, check) => UnsentOpening(c, v, check);
    case OnHold(c, v, hold, parked, cancel) =>
      if cancel == [] {
        HeldOpening(c, v, hold, parked);
        assert Text(s) == [c, v, hold] + parked;
      }
    case _ =>
  }

  /** An accepted event keeps the sentence well-formed. */
  lemma StaysWellFormed(s: Sentence, p: Payment, e: Event)
    requires WellFormed(s) && Announces(s, p) && Applied(p, e).Ok?
    ensures WellFormed(Then(s, e))
    ensures (s.Direct? || s.Released?) ==> WireAccepts(WireState(s.wire), e)
    ensures !s.Refusal? && (s.OnHold? ==> s.cancel == [])
    ensures s.OnHold? && e.HoldReleased? ==> s.parked != []
    ensures s.OnHold? && e.HoldParked? ==> s.parked == []
    ensures s.Unsent? && e.RiskChecked? ==> s.check == []
  {
    if s.Direct? || s.Released? {
      WireGrows(s.wire, e);
    }
  }

  lemma SentenceGrows(s: Sentence, e: Event)
    requires WellFormed(s) && Replay(Text(s) + [e]).Ok?
    ensures WellFormed(Then(s, e))
    ensures Text(Then(s, e)) == Text(s) + [e]
  {
    SoundDetails(s);
    ReplayExtends(Text(s), e);
    StaysWellFormed(s, Replay(Text(s)).value, e);
    TextGrows(s, e);
  }

  lemma TextGrows(s: Sentence, e: Event)
    requires WellFormed(s)
    requires (s.Direct? || s.Released?) ==> WireAccepts(WireState(s.wire), e)
    requires !s.Refusal? && (s.OnHold? ==> s.cancel == [])
    requires s.OnHold? && e.HoldReleased? ==> s.parked != []
    requires s.OnHold? && e.HoldParked? ==> s.parked == []
    requires s.Unsent? && e.RiskChecked? ==> s.check == []
    ensures Text(Then(s, e)) == Text(s) + [e]
  {
    if s.Direct? || s.Released? {
      WireGrows(s.wire, e);
      assert Opening(s) + WireText(WireThen(s.wire, e)) == Opening(s) + WireText(s.wire) + [e];
    } else if s.OnHold? && e.HoldReleased? {
      assert Text(Then(s, e)) == [s.created, s.validated, s.hold, s.parked[0], e];
      assert s.parked == [s.parked[0]];
    }
  }

  /** Every accepted history is a sentence of the grammar. */
  lemma {:induction false} Complete(h: seq<Event>) returns (s: Sentence)
    requires Replay(h).Ok?
    ensures WellFormed(s) && Text(s) == h
    decreases |h|
  {
    if |h| == 1 {
      s := Fresh(h[0]);
    } else {
      var front, last := h[..|h| - 1], h[|h| - 1];
      var shorter := Complete(front);
      assert h == front + [last];
      SentenceGrows(shorter, last);
      s := Then(shorter, last);
    }
  }

  /** Replay accepts exactly the sentences of the grammar. */
  lemma ReplayAcceptsTheGrammar(h: seq<Event>)
    ensures Replay(h).Ok? <==> exists s :: WellFormed(s) && Text(s) == h
  {
    if Replay(h).Ok? {
      var s := Complete(h);
    }
    forall s | WellFormed(s) && Text(s) == h
      ensures Replay(h).Ok?
    {
      Sound(s);
    }
  }
}
