# FedNow gateway: the send path, verified

A Dafny model of the payment gateway's send path and of what it rests on, with proofs about every run.

The gateway turns a submission into one pacs.008, checks it, asks an optional risk gate, parks it or queues it
in an outbox, publishes it over an unreliable port, applies advices, and chases silence with status requests.
Its state is an event stream per payment, an outbox and a parking table. The model has these parts:

| part | modules | form |
|---|---|---|
| the aggregate | `Payments`, `Histories`, `Grammar` | a class with `Apply`, the value function it refines, folds and a grammar of accepted histories |
| the stores | `Tables`, `InMemoryStores`, `SqliteStores`, `StoreRefinement` | a class per store, each method proved against the tables' specification; rows, transactions and rollback for SQLite |
| the service | `Services` with `Drains`, `Sweeps`, `Pumps`, `Advices`, `Reconciliation`, `Summaries`, `Sequential` | a class over the in-memory store, with the source's loops |
| the protocol | `Protocol`, `Places`, `StoreInvariant`, `Interleaving`, `Footprints`, `Reachability`, `Guarantees`, `Handoffs`, `Losses`, `Limits`, `Witnesses` | every operation as steps of one store, port or gate call; any number of operations interleave, anything may crash |
| the far side | `Simulators`, `Composition`, `Journeys`, `LateRejections`, `Progress` | the simulator as a class; gateway and simulator composed over a network that loses, delays and repeats |
| the envelope | `Envelopes`, `RoundTrips` | the depth-counting slicer over reader events, and the printer |
| the message | `Requests`, `Pacs008`, `Amounts`, `Validation`, `Rules` | the builder read back field by field, the validator rule by rule |
| the rest | `HoldPolicies`, `RiskGates`, `Reasons`, `Text` | the risk gate's budget and verdicts, hold arithmetic, scanners |

How the two views of the service fit together: a service method run alone is proved to take the steps of its
protocol counterpart (`Reaches` in its postcondition), and running one alone is proved to be one of the protocol's
runs (`Sequential.ReachedIsReachable`), so what is proved of reachable stores holds after every method.

A message is its typed record (`Document`), so equal messages are equal byte for byte once printed. The digest
is an arbitrary total function of the message. The date-time check, the port's and the gate's answers, and the
clock are parameters.

## What holds only in part

These are results too. Each names the inputs on which the promise fails, as runs from the empty store, and the
condition under which it holds, for all runs.

- **Every entry is accepted once, in order.** With drains one at a time this holds exactly when no entry that a crash
  left accepted and unmarked is accepted again (`Handoffs.AcceptedOnceExactly`); so it holds when no crash comes
  between an acceptance and its mark (`Handoffs.AcceptedOnce`). It fails for every clean request in two ways: by that
  crash (`Witnesses.CrashAcceptsTwice`), and without a crash by two drains at once
  (`Witnesses.RacingDrainsAcceptTwice`).
- **A consumed entry is recorded as published.** In every run it is, or it is just being recorded, or the port rejected
  its message, or a crash came between its mark and `Published` (`Losses.ConsumedIsAccounted`). With drains one at a
  time, exactly the last two strand the payment in `SUBMITTED` (`Losses.StrandedExactly`), for good
  (`Limits.StrandedForGood`). Both happen to every clean request (`Witnesses.CrashStrandsSome`,
  `Witnesses.RejectionStrandsSome`).
- **Queries keep the backoff.** With reconcile calls on a payment one at a time they do (`Guarantees.QueryPacing`);
  without, some run of every clean request records two at the same time (`Witnesses.RacingReconcilersHappen`).
- **Query ids are unique.** Within one payment they are (`Guarantees.QueryIdsAreDistinct`); in general they collide
  exactly when date and number coincide (`Guarantees.QueryIdsCollideExactly`), so not across payments.
- **The gateway ends a payment as the far side decided.** Over HTTP and the queue pair, gated or not, every run with
  distinct message ids does exactly when the request is not a clean one whose `ACWP` is later turned into a `RJCT`
  (`LateRejections.VerdictFollowsExactly`); for each such request some run ends the wrong way
  (`LateRejections.LateRejectionHappens`). What can happen is exact too: a request can end settled exactly when it is
  clean and the far side settles it, and rejected exactly when it is clean and rejected, at once or later
  (`Progress.EndsExactly`).
- **Both stores park alike.** They do exactly when there are events and the key is not parked, or the in-memory store
  refuses too (`SqliteStores.SqliteStore.Park`); the service never parks otherwise (`Guarantees.ParkingIsFresh`).
- **The expiry test and the expiry date agree.** Exactly outside two corners of 64-bit arithmetic
  (`HoldPolicies.ExpiryAgreesExactly`).
- **A wrapper name survives slicing.** Exactly when it carries no prefix (`RoundTrips.WrapperKeptExactly`).

## Model

| member | source | states |
|---|---|---|
| Payments.Aggregate.constructor | gateway/src/payment.rs:246-280 | a new aggregate is the one the creation event describes |
| Payments.Aggregate.Apply | gateway/src/payment.rs:297-412 | one event moves the mutable aggregate as the transition function says, and a refusal changes no field |
| Payments.ReplayAll | gateway/src/payment.rs:283-294 | replaying a stored history in a loop is the recursive replay: the creation, then every event in order, with the first refusal |
| Payments.ReplayExtends | gateway/src/payment.rs:283-294 | replaying a history plus one event is replaying, then applying |
| Payments.RefusalSticks | gateway/src/payment.rs:283-294 | a refused prefix refuses every longer history, with the same error |
| Payments.ReplayKeepsHistory | gateway/src/payment.rs:246-294 | the aggregate carries exactly the events it was replayed from |
| Histories.ReplayFolds | gateway/src/payment.rs:297-412 | `queries_sent`, `last_query_at_unix`, `published_at_unix`, `last_advice`, `held_at_unix` and `hold_resolution` are folds over the history, and replaying the events of an aggregate gives it back |
| Histories.ReplayIsCoherent | gateway/src/payment.rs:297-412 | what each state says about the other fields: who was checked, held, released, published and queried |
| Histories.TerminalStatesHold | gateway/src/payment.rs:297-412 | whatever follows, a settled payment stays settled, and refused, rejected and cancelled histories do not grow |
| Histories.SettledForGood | gateway/src/payment.rs:392-395 | a settled payment accepts advices and nothing else |
| Histories.OneShotEvents | gateway/src/payment.rs:297-412 | every event but advices and queries happens at most once |
| Histories.SubmittedXorReleased | gateway/src/payment.rs:332-369 | `Submitted` and `HoldReleased` exclude each other |
| Histories.OutboxBeforePublication | gateway/src/payment.rs:332-373 | exactly one entry into the outbox precedes a publication |
| Histories.VerdictIsRecorded | gateway/src/payment.rs:374-395 | a settled payment heard a settling advice, a rejected one heard a rejection and carries its reason |
| Grammar.Sound | gateway/src/payment.rs:283-412 | every sentence of the grammar replays, to the state its shape announces |
| Grammar.Complete | gateway/src/payment.rs:283-412 | every accepted history is a sentence of the grammar |
| Grammar.ReplayAcceptsTheGrammar | gateway/src/payment.rs:283-412 | `replay` accepts exactly the sentences of the grammar |
| Advices.AdviceIsRecorded | gateway/src/payment.rs:79-92 | a report counts exactly when its `TxSts` is one of the seven known codes, and is recorded under the status written so, with its reason |
| Advices.AdviceMoves | gateway/src/payment.rs:374-395 | by the code: `ACSC`, `ACCC`, `ACWP` and `BLCK` settle a waiting payment, `RJCT` rejects it with the report's reason, `ACTC` and `PDNG` leave it waiting; a settled one only notes it, any other refuses it |
| InMemoryStores.InMemoryStore.Create | gateway/src/store.rs:193-212 | a taken key answers with its payment and changes nothing |
| InMemoryStores.InMemoryStore.Append | gateway/src/store.rs:174-221 | the transition is checked on a replayed copy before the stream grows |
| InMemoryStores.InMemoryStore.SubmitToOutbox | gateway/src/store.rs:233-248 | the event and the entry, both or neither; never a second entry for a key |
| InMemoryStores.InMemoryStore.NextUnpublished | gateway/src/store.rs:250-261 | the oldest unpublished entry, or none |
| InMemoryStores.InMemoryStore.MarkPublished | gateway/src/store.rs:263-268 | the first entry with the id is marked, and nothing else changes |
| InMemoryStores.InMemoryStore.UnpublishedCount | gateway/src/store.rs:270-277 | the loop counts the entries still to be handed off |
| InMemoryStores.InMemoryStore.ReplayThenApply | gateway/src/store.rs:279-308 | a batch applied to a copy is the replay of stream and batch, refusals included |
| InMemoryStores.InMemoryStore.Park | gateway/src/store.rs:279-308 | all events and the message, or nothing |
| InMemoryStores.InMemoryStore.ReleaseParked | gateway/src/store.rs:319-339 | the parked message moves to the outbox when its digest is the one named; every refusal leaves everything |
| InMemoryStores.InMemoryStore.DiscardParked | gateway/src/store.rs:341-350 | the cancellation and the deletion together |
| Tables.CountMarked | gateway/src/store.rs:263-277 | marking an unpublished entry takes exactly one off the unpublished count |
| SqliteStores.SelectionIsNumbered | gateway/src/sqlite.rs:76-89 | the ordered selection of a stream numbers its rows 0, 1, 2, … |
| SqliteStores.SqliteStore.AppendIn | gateway/src/sqlite.rs:93-109 | the next row continues the numbering and the stream grows as in memory; the primary key is never taken |
| SqliteStores.SqliteStore.Create | gateway/src/sqlite.rs:137-161 | the same answer and tables as in memory |
| SqliteStores.SqliteStore.Append | gateway/src/sqlite.rs:163-185 | the same answer and tables; a refusal leaves the rows as they were |
| SqliteStores.SqliteStore.SubmitToOutbox | gateway/src/sqlite.rs:208-236 | the same answer and tables up to entry ids; the unique index refuses a second entry and rolls back |
| SqliteStores.SqliteStore.NextUnpublished | gateway/src/sqlite.rs:238-253 | selecting by id finds the entry the in-memory scan finds |
| SqliteStores.SqliteStore.MarkPublished | gateway/src/sqlite.rs:255-261 | updating by id marks that one entry |
| SqliteStores.SqliteStore.Park | gateway/src/sqlite.rs:274-298 | agrees with the in-memory store exactly when there are events and the key is not parked, or the in-memory park is refused; a batch refused halfway leaves every table unchanged |
| SqliteStores.SqliteStore.ReleaseParked | gateway/src/sqlite.rs:310-351 | the same answer and tables up to entry ids; a refusal leaves every table unchanged |
| SqliteStores.SqliteStore.DiscardParked | gateway/src/sqlite.rs:353-371 | the same answer and tables; a refusal leaves every table unchanged |
| StoreRefinement.Lockstep | gateway/src/sqlite.rs:93-371 | driven from empty through any calls the service makes, reading the next entry and marking any place being separate calls, both stores give the same answers, including what each key reads and which entry is next |
| Interleaving.MoveKeeps | gateway/src/service.rs:137-554 | every step of every operation keeps the tables consistent and leaves it knowing what its next step relies on |
| Footprints.MoveFootprint | gateway/src/service.rs:137-554 | a step writes at most its own events at the end of its own payment's stream |
| Reachability.OthersStable | gateway/src/service.rs:137-554 | what a waiting operation relies on survives every step of the others |
| Reachability.EveryRun | gateway/src/service.rs:137-554 | the invariant holds in every reachable world: any operations, any interleaving, any answers, crashes anywhere |
| Guarantees.TablesAgree | gateway/src/service.rs:137-276 | at most one entry per key; parked exactly when `HELD`, with the recorded digest; queued exactly in `SUBMITTED`, `ACK_PENDING`, `TIMEOUT_UNRESOLVED`, `SETTLED` and `REJECTED`; unpublished entries are `SUBMITTED`; published flags form a prefix |
| Guarantees.RunsAreConsistent | gateway/src/service.rs:137-554 | every reachable store is consistent, which is what `Submit` and `Release` need to succeed |
| Guarantees.PendingIsBounded | gateway/src/service.rs:337-362 | `outbox_pending` never exceeds the `SUBMITTED` count |
| Guarantees.RacesHaveOneWinner | gateway/src/service.rs:144-234 | one submit per key passes `create`, the provider is asked at most once, no later store call of the winner is refused, and a hold is resolved at most once, exactly when its payment says so |
| Guarantees.ParkingIsFresh | gateway/src/service.rs:213-226 | the service never parks over a parked message, so the stores' one difference on `park` never shows |
| Guarantees.HandOffIsRecorded | gateway/src/service.rs:254-273 | one hand-off that nothing interrupts: rejected, its payment is as before; confirmed, it is published now and has taken the advice that came with it, as its code says; `Losses.ConsumedIsAccounted` says what holds in every run |
| Guarantees.OnlyVettedMessagesLeave | gateway/src/store.rs:279-350 | what reaches the port is the message built and validated for its key; unchecked without a gate, allowed, or held and released with one digest; held, refused, cancelled and unvalidated payments never get there |
| Guarantees.OnlyCleanTransfersLeave | gateway/src/service.rs:137-180 | with the gateway's own builder and validator, what leaves says what was requested (parties, accounts, agents, cents, ids, dates, each in its own field), of clean inputs |
| Guarantees.RecordCarriesRequest | gateway/src/service.rs:137-180 | in every run, the record of a payment opens with its request, and what is queued or parked for it says, field by field, what was requested |
| Guarantees.ReleasedWithinMaxAge | gateway/src/service.rs:449-469 | a release comes at most `max_age_secs` after its hold |
| Guarantees.NoReleaseAfterExpiry | gateway/src/hold.rs:59-70 | once a hold is expired at some time, no run releases it at that time or later |
| Guarantees.FrozenStreamsStay | gateway/src/payment.rs:297-412 | no later run changes anything about a refused, rejected or cancelled payment |
| Guarantees.TimeoutIsNotEarly | gateway/src/service.rs:376-396 | a timeout is declared `timeout_secs` after publication or later |
| Guarantees.QueryPacing | gateway/src/reconciler.rs:28-48 | with reconcile calls on a key one at a time, consecutive queries are `backoff_secs` apart and their number is bounded by elapsed time over backoff |
| Progress.DueQueryIsSent | gateway/src/reconciler.rs:41-45 | in any reachable store, whenever a query is due, first or not, a reconcile call that may start records it and sends it under the next number |
| Progress.DueTimeoutIsDeclared | gateway/src/reconciler.rs:35-40 | in any reachable store, whenever a timeout is due, a reconcile call that may start declares it |
| Reconciliation.ActionByHistory | gateway/src/reconciler.rs:28-48 | read off the history: a timeout is declared exactly when the publication lies `timeout_secs` back, a query sent exactly when none was or the last lies `backoff_secs` back, and nothing else is done |
| Reconciliation.RequestAsks | gateway/src/service.rs:401-418 | the pacs.028 names the payment's message, creation time, end-to-end id and UETR as first recorded, and carries the number of the latest query |
| Guarantees.QueryIdsCollideExactly | gateway/src/service.rs:397-409 | query ids coincide exactly when their dates and numbers do |
| Guarantees.QueryIdsAreDistinct | gateway/src/service.rs:397-409 | no two queries of one payment carry the same id, whatever the dates |
| Guarantees.ChecksFailAsConfigured | gateway/src/risk.rs:333-354 | in every run, a recorded check that no provider decided has the configured outcome, under the code of what was missing; nothing is checked without a gate |
| Guarantees.ReasonsAreCodes | gateway/src/service.rs:533-545 | every risk, release and cancel reason on record is a fixed point of `sanitize_reason`, without five digits in a row |
| Guarantees.ReconcileNeverResends | gateway/src/service.rs:376-431 | reconciling touches neither outbox nor parking table |
| Handoffs.AcceptedOnceExactly | gateway/src/service.rs:252-276 | in every run with drains one at a time, entries are accepted at most once and in outbox order exactly when none that a crash left accepted and unmarked is accepted again |
| Handoffs.AcceptedOnce | gateway/src/service.rs:252-276 | so at most once and in order, when no crash comes between an acceptance and its mark |
| Losses.ConsumedIsAccounted | gateway/src/service.rs:254-273 | in every run, a consumed entry's payment is published, or just being recorded so, or was rejected by the port, or was lost in a crash between mark and `Published` |
| Losses.StrandedExactly | gateway/src/service.rs:254-273 | in every run with drains one at a time, a payment is stranded in `SUBMITTED` exactly when the port rejected its message or a crash came between its mark and `Published` |
| Limits.CrashStrands | gateway/src/service.rs:257-261 | in any reachable world, a crash between `mark_published` and `Published` leaves a consumed entry in `SUBMITTED` |
| Limits.StrandedForGood | gateway/src/service.rs:252-276 | no later run moves such a payment |
| Limits.RacingDrainsBothSend | gateway/src/service.rs:254-257 | from any world with a pending entry, two drains that both read before either marks hand it off twice |
| Limits.RacingReconcilersBothQuery | gateway/src/service.rs:376-401 | whenever a query is due, two reconcile calls that both decide before either records send two at the same time |
| Witnesses.CrashAcceptsTwice | gateway/src/service.rs:254-257 | for every clean request, some run with one drain at a time has its message accepted twice, by a crash before the mark |
| Witnesses.RacingDrainsAcceptTwice | gateway/src/service.rs:254-257 | for every clean request, some run without a crash has its message accepted twice, by two drains |
| Witnesses.CrashStrandsSome | gateway/src/service.rs:257-261 | for every clean request, some run with one drain at a time strands it by a crash before `Published` |
| Witnesses.RejectionStrandsSome | gateway/src/service.rs:269-271 | for every clean request, some run with one drain at a time and no crash strands it by a rejection |
| Witnesses.RacingReconcilersHappen | gateway/src/service.rs:376-401 | for every clean request and every backoff, some run records two queries of its payment at the same time |
| Sequential.AloneIsARun | gateway/src/service.rs:137-554 | an operation run alone from a reachable store is one of the protocol's runs |
| Sequential.ReachedIsReachable | gateway/src/service.rs:137-554 | so the store it leaves is reachable |
| Services.PaymentService.PublishPending | gateway/src/service.rs:252-276 | terminates; hands over the oldest pending messages in order, each acknowledged once; ends with the outbox drained or on a transport failure that keeps its entry; returns the number confirmed |
| Services.PaymentService.Submit | gateway/src/service.rs:137-242 | on a consistent store it succeeds exactly for a known key or a clean message; a known key touches neither store, port nor gate; a new record opens with the request; an invalid message stays as created; by the gate's answer, `Clear` is queued, `Stop` parked and `HELD`, `Deny` `REFUSED`, and no decision ends as `on_unavailable` says, with the check recorded so; the answer is the payment on record |
| Services.PaymentService.CheckThenSend | gateway/src/service.rs:182-229 | succeeds exactly on a validated, unchecked payment that, if the gate lets it pass, is not queued yet; the gate is asked once; its answer, or without one the policy, decides between queue, parking and `REFUSED`, and the check it calls for is the next event on record |
| Services.PaymentService.Release | gateway/src/service.rs:442-473 | unknown, not held or no code: refused in that order, untouched; a hold older than the policy is cancelled by the gateway as expired and never sent; otherwise, on a consistent store, the release is recorded with its actor, reason and digest and exactly the parked message is queued |
| Services.PaymentService.Cancel | gateway/src/service.rs:477-493 | succeeds exactly on a held payment with a well-formed reason, at any age; records actor and reason, deletes the parked message, touches nothing else; a refusal names the first thing that is wrong |
| Services.PaymentService.ExpireHolds | gateway/src/service.rs:498-525 | cancels exactly the holds older than the policy by their history, parked message or not, each as `gateway` / `hold_expired`; counts them, and leaves every other stream, message and the outbox alone |
| Sweeps.SweepIsIdempotent | gateway/src/service.rs:498-525 | a sweep leaves no expired hold, so a second one changes nothing |
| Services.PaymentService.Held | gateway/src/service.rs:533-545 | known, then held, then a reason that is a code: checked in this order |
| Services.PaymentService.Reconcile | gateway/src/service.rs:376-431 | by the history: an `ACK_PENDING` payment whose timeout is due gets `TimeoutDeclared`; an unresolved one whose query is due gets `QuerySent`, one pacs.028 about it goes out, and the advice it brought is applied by its code; in every other case nothing happens |
| Services.PaymentService.FindByMessageId | gateway/src/service.rs:364-372 | finds a payment with the message id whenever there is one |
| Services.PaymentService.ApplyAdviceEnvelope | gateway/src/service.rs:298-332 | a report with a known code moves the payment it names as the code says, when that waits or is settled, and is refused otherwise; an unreadable envelope is an error and any other gets no payment, neither changing anything |
| Services.PaymentService.PumpAdvices | gateway/src/service.rs:284-292 | hears every queued message up to the first empty poll, each against the tables its predecessors left; leaves the appends and returns how many were accepted |
| Services.PaymentService.Summary | gateway/src/service.rs:337-362 | the number of payments, the number in each state, the pending entries, and the longest time an unresolved payment has waited since its publication |
| Summaries.SumsOneMore | gateway/src/service.rs:343-355 | one more payment adds to its state's count and to nothing else, and raises the age only if it is older |
| Simulators.DecidedByCents | simulator/src/lib.rs:148-172 | with no scenario configured for its creditor agent, a built message's scenario depends on its last two digits alone |
| Simulators.DecidedByConfiguration | simulator/src/lib.rs:148-162 | a scenario configured for the creditor agent of a built message is the one that happens, whatever the amount |
| Simulators.Simulator.HandlePacs008 | simulator/src/lib.rs:305-369 | the ledger gets every advice the message will ever have, and the reply is the first one or nothing |
| Simulators.Simulator.HandlePacs028 | simulator/src/lib.rs:373-412 | a status request hears the latest entry of the ledger |
| Simulators.Simulator.MqProcessCreditTransfer | simulator/src/lib.rs:503-577 | advices are enqueued at once or handed to a delayed push; the ledger is the same as over HTTP |
| Simulators.Simulator.MqProcessStatusRequest | simulator/src/lib.rs:582-630 | the latest entry of the ledger is enqueued |
| Simulators.Simulator.HandleMqReceive | simulator/src/lib.rs:484-498 | a destructive get: the oldest queued advice, the rest of that queue after it, every other queue and the ledger as they were |
| Simulators.FirstInFirstOut | simulator/src/lib.rs:484-498 | over any sequence of pushes and gets, what a participant got and what still waits for it is what was put in, in order |
| Simulators.TransferSays | simulator/src/lib.rs:305-369 | processing a transfer says nothing but advices on that transfer |
| Simulators.VerdictsHeard | simulator/src/lib.rs:667-768 | a scenario's advices all carry its verdict, except for `ACWP` followed by `RJCT` |
| Composition.CorrelationIsSound | gateway/src/service.rs:298-372 | with distinct message ids, the payment found for a report is the one the report is about |
| Composition.EveryUnfolding | simulator/src/lib.rs:305-630 | whatever the network does, everything recorded, queued, delayed or in flight is an advice the far side gives on that very payment |
| Composition.FarSideAgrees | simulator/src/lib.rs:305-630 | in every run, `SETTLED` implies the far side's decision settles and `REJECTED` that it rejects, with its reason code; late `RJCT` follow-ups excepted |
| Composition.CentsDecide | simulator/src/lib.rs:148-172 | over HTTP with no configured scenario, settled payments do not end in .11 or .55 and rejected ones do, with `AC04` and `E990` |
| LateRejections.LateRejectionOverturns | simulator/src/lib.rs:320-362 | once the `ACWP` is lost to a crash, a status request hears the late `RJCT` and the payment ends `REJECTED` |
| LateRejections.LateRejectionHappens | simulator/src/lib.rs:320-362 | for every clean request with that scenario, over HTTP or the queue pair, gated or not, some run from the empty store ends so |
| LateRejections.VerdictFollowsExactly | simulator/src/lib.rs:305-630 | in every configuration, every run ends the request as the far side decided exactly when it is not a clean one whose `ACWP` is later turned into a `RJCT` |
| Progress.EveryDecisionIsReached | simulator/src/lib.rs:305-630 | over HTTP or the queue pair, gated or not: for every clean request some run ends it as the far side decides, with the status and reason it gives, whether the advice comes with the reply, by a poll, after a delay or only when queried |
| Progress.EndsExactly | simulator/src/lib.rs:305-630 | a request can end `SETTLED` exactly when it is clean and the decision settles it, and `REJECTED` exactly when it is clean and the decision rejects it, at once or by a late `RJCT` |
| Envelopes.WrapperLookupsAreInverse | core/src/envelope.rs:82-102 | the two lookups of the wrapper table are inverse to each other |
| Envelopes.WrappersNameTheirMessages | core/src/envelope.rs:82-102 | each wrapper names the version of the message it wraps |
| Envelopes.Split | core/src/envelope.rs:128-257 | the one-pass slicer with its depth and offsets cuts out the parts the reader's events delimit, or gives the same error |
| Envelopes.WrapperNameEnds | core/src/envelope.rs:188-202 | a wrapper's name is read up to the blank, line end, `>` or `/` that follows it |
| RoundTrips.Build | core/src/envelope.rs:380-402 | pushed piece by piece, the text is the nesting of root, optional technical header, list, wrapper, header and document |
| RoundTrips.TokensCoverText | core/src/envelope.rs:380-402 | the events of a built envelope cover exactly the text printed |
| RoundTrips.SplitUndoesBuild | core/src/envelope.rs:128-257 | slicing a built envelope gives back direction, namespace, wrapper and the exact text of every part, even when the technical header nests elements called `AppHdr` or `Document` |
| RoundTrips.WrapperKeptExactly | core/src/envelope.rs:188-202 | a wrapper name comes back as given exactly when it has no prefix |
| RoundTrips.WrapperPrefixIsDropped | core/src/envelope.rs:188-202 | what comes back of a prefixed wrapper name is the name without the prefix |
| RoundTrips.PrefixesDoNotMatter | core/src/envelope.rs:128-257 | slicing goes by local names: with every element under a prefix the same parts come out, or the same error |
| RoundTrips.NamespaceIsQuoted | core/src/envelope.rs:150-182 | a namespace that slicing reports is declared in a start tag and stands there word for word |
| RoundTrips.SniffDefaultNamespace | core/src/envelope.rs:350-372 | the loop finds the namespace declared on the first start tag |
| RoundTrips.SniffedIsDeclared | core/src/envelope.rs:350-372 | the sniffed namespace is the one the first start tag declares, word for word, after nothing but text |
| RoundTrips.DispatchAgrees | core/src/envelope.rs:315-347 | a document under the wrapper of its namespace is parsed as the type that wrapper names |
| Pacs008.MessageIdDeterminesParts | core/src/builder.rs:29-35 | for fixed-length date and party id, the message id determines all three parts |
| Requests.BuiltCarriesRequest | core/src/builder.rs:175-235 | read back field by field, a built message says what was requested: ids, UETR, cents, currency, names, accounts, the four agents, purpose and dates |
| Requests.BuiltIsCleanExactly | core/src/builder.rs:175-235 | a built message passes every profile rule exactly when the request's inputs are clean, stated on the inputs alone |
| Requests.MessageDeterminesInputs | core/src/builder.rs:175-235 | equal messages were built from requests that agree in every field but the key, and in date and reference when the dates are equally long |
| Amounts.CentsRoundTrip | core/src/builder.rs:632-634 | reading a printed amount gives the cents back |
| Amounts.FacetsOfCents | core/src/validate.rs:1794-1855 | a printed amount passes the facet checks exactly from one cent to fourteen digits, leading zeros counted |
| Amounts.SuffixReadsCents | simulator/src/lib.rs:164-171 | a printed amount ends in a two-digit trigger exactly when its cents do |
| Validation.ValidatePacs008 | core/src/validate.rs:57-173 | the nested loops push exactly the rule violations, in order |
| Validation.NoIssuesMeansProfile | core/src/validate.rs:57-173 | no issue is raised exactly when the document meets the profile, stated as a predicate |
| Rules.EachRuleReported | core/src/validate.rs:57-173 | an issue with its code, path and source is reported exactly when the document has the fault it stands for, at the place it names |
| Rules.ParsesNumerals | core/src/validate.rs:1794-1855 | what parses as an amount is digits around at most one point, at most 18 and 5 after it, with the facets read off its two parts |
| Validation.CheckUetr | core/src/validate.rs:1906-1936 | the byte loop accepts exactly 8-4-4-4-12 lower-case hex of version 4 and its variant |
| Validation.OneWrongDigitIsCaught | core/src/validate.rs:1894-1902 | changing any one digit of a valid routing number breaks the 3-7-1 check |
| Validation.RoutingNumberByDigits | core/src/validate.rs:1894-1902 | nine digits are a routing number exactly when 3 (d0 + d3 + d6) + 7 (d1 + d4 + d7) + d2 + d5 + d8 is a multiple of ten |
| HoldPolicies.ExpiryAgreesExactly | gateway/src/hold.rs:59-70 | the saturating expiry test and the expiry date agree at every time exactly outside two corners |
| HoldPolicies.PositiveAgesAgree | gateway/src/hold.rs:59-70 | in particular for hold times that are not negative and positive ages below the largest |
| RiskGates.BudgetHolds | gateway/src/risk.rs:264-364 | `in_flight` is the number of live slots and never exceeds the budget, in every run of reservations, spawns, spawn failures, answers, panics and timeouts |
| RiskGates.SlotsAreSettled | gateway/src/risk.rs:264-364 | an exhausted budget never reaches the provider; a finished check has released its slot exactly once |
| RiskGates.VerdictIsFinal | gateway/src/risk.rs:303-330 | a late answer never changes a verdict |
| RiskGates.VerdictIsCalledFor | gateway/src/risk.rs:297-354 | the verdict is the one the answer calls for: a decision as made, with its reason kept exactly if it is a code; without one the configured outcome, under the code of what was missing; every reason is one the audit trail takes |
| RiskGates.VerdictsAreCaused | gateway/src/risk.rs:264-330 | in every run of the gate, a verdict is what its own check's answer calls for: a decision its worker returned, or a timeout, failure or exhausted budget that happened |
| RiskGates.EveryWayThrough | gateway/src/risk.rs:264-364 | a new check gets a slot exactly when one is free; a decision in time decides, every other end is decided by the policy, and whichever way it goes the slot comes back |
| Reasons.SanitizeReason | gateway/src/risk.rs:380-397 | the scanner returns a code unchanged (1 to 64 of `a-z0-9_.-`, a letter first, never five digits in a row) and `unspecified` for anything else |
| Reasons.SanitizeKeepsCodes | gateway/src/risk.rs:380-397 | sanitising leaves exactly the codes alone, makes a code of everything else, and is idempotent |

## Left out

- HTTP routing, JSON views, environment parsing, startup, API keys: plumbing without state of its own.
- The southbound HTTP clients: the port only answers with an advice, an acceptance, a rejection or a transport failure.
- XML serialise-then-parse is the identity on typed records, and the XML reader is a stream of events with their text; its lexing is not part of this model.
- SHA-256: any total function of the message.
- Timestamps: the date-time check is an arbitrary predicate.
- SQL engine failures, lock poisoning, counter overflow and databases written by older versions; 64-bit overflow of `now - published` in the reconciler and the summary.
- The text of errors, and the list of rule codes that a refused submission carries back (the issues themselves are those of `Rules.EachRuleReported`).
- Services.PaymentService.Reconcile: does not model `reconcile_all`, which only repeats it over all keys.
- Composition.FarSideAgrees: one participant's queue carries reports on this gateway's payments only; the MQ envelope validator is an arbitrary predicate.
- Services.PaymentService.PublishPending: the sequential reading over the in-memory store; over SQLite it follows from `StoreRefinement.Lockstep`, not from a second class.
- The remaining message validators (pacs.002, pacs.004, pacs.028, camt.056, camt.029, head.001), their builders, the demo risk endpoint, the conformance runner, SDKs and fuzz targets: long checklists that would add easy members.
