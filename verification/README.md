# StockBrain: the broker execution protocol and the bookkeeping around it

StockBrain drives an authorized trade proposal to at most one market order on a broker endpoint that
is not idempotent, with several workers, crashes at any point, and a reconciler that only reads. No
single function enforces "one authorized proposal, at most one broker order": it follows from the
transaction that marks an attempt sent before it is posted, the database's partial indexes, the single
place that clears the mark, and the rules by which a search attributes an order. This project models
those parts together and proves what every interleaving keeps.

`dafny verify dfyconfig.toml` checks everything.

## How the model is built

| file | part of the system |
|---|---|
| `Lifecycle.dfy` | the proposal state machine |
| `Ledger.dfy` | proposal, attempt and mirror rows; their constraints; each write transaction as a function |
| `LedgerStore.dfy` | the same transactions run in place on tables, proved against those functions |
| `Preflight.dfy`, `Transmission.dfy`, `Matching.dfy` | the gates before a send, the classification of a POST, the two-read search |
| `Basics.dfy`, `Wrappers.dfy` | set and real arithmetic facts, the option type |
| `Protocol.dfy` | the transition system: workers, crash sweep, reconciler, operator, clock and broker |
| `ExecutionSafety.dfy`, `ExecutionTheorems.dfy` | what every run keeps, with no assumption about timing or scheduling |
| `ReconciliationSafety.dfy`, `ReconciliationTheorems.dfy` | what reconciliation guarantees, and on what that rests |
| `Counterexamples.dfy` | complete runs in which a guarantee is lost |
| `PendingLimit.dfy`, `RateLimit.dfy`, `HttpRetry.dfy`, `DecimalLiteral.dfy` | the pending-order limit, the token bucket, the request loop, the quantity literal |
| `AccountPeaks.dfy`, `ReconcileSweep.dfy`, `Discovery.dfy`, `Instruments.dfy`, `PrecisionLearning.dfy` | the account, reconciliation, discovery and metadata sweeps, and precision learning |

A database transaction, a broker read, a POST and a return from it are each one atomic step. A row
lock is the atomicity of the step that holds it; a transaction that raises or that a constraint
refuses leaves the ledger as it was. Any worker may crash between any two steps. The broker is a list
of orders with ghost knowledge of which attempt created each; it answers reads and makes or loses
orders as it likes, within what the transport proves.

## What is assumed

- One broker account and one environment; orders nobody at StockBrain placed are not API market
  orders (they may still be on the same listing with the same quantity).
- Every committed write of a proposal row bumps its version, and at most one active proposal exists
  per listing: the version column and the partial unique index of the schema.
- A transport error from before the request line means nothing left, a documented refusal means no
  order was made, and a readable acknowledgement names the order that was.
- For the reconciliation theorems only: an order is created, and becomes readable, within the settle
  window measured from `sent_at`, which is the instant fixed at job start
  (`backend/stockbrain/execution/service.py:149`); an order that leaves the pending list is in the
  history at once; and one history page reaches back to the start of the search window, which holds
  whenever no more than fifty finished orders of the listing are newer (`Matching.FiftyReach`). That
  the checks below are exact also uses a settle window that is not empty, as configuration demands.
- The risk engine's verdict, the effective discovery interval and the queue's answer to an enqueue are
  inputs. `recover_incomplete` may fire at any time: its cutoff only narrows what the model allows.
- The order of the pending-order check, the rate-limit slot and a lost claim is one nondeterministic
  deferral in the protocol; the limit and the bucket are proved in their own modules.

## Where the code does less than its text

- **No orphans and correct attribution do not hold unconditionally.** Three checks of rows the
  transaction has already locked are missing, and each omission loses the guarantee in a run that is
  otherwise well behaved:
  1. `_record` writes `ORDER_NOT_PLACED` for an attempt that has lost its sent mark. Such an attempt
     has no `sent_at`, so `_search_for_order` skips the settle window
     (`backend/stockbrain/execution/reconciliation.py:264-275`), and the proposal is failed while its
     next attempt is in flight (`Counterexamples.StaleAbsenceOrphans`). The missing check: the attempt
     carries its mark, or its proposal is not in flight, or the proposal's transmission already has an
     order id. Exactly that is needed: `ReconciliationTheorems.AbsenceRecordedExactly`.
  2. A match is recorded without looking again at whether the attempt's proposal is still in flight,
     so a pass that outlived it can claim the order of a later proposal for the same trade
     (`Counterexamples.StaleMatchMisattributes`). The missing check: the proposal is in flight, or the
     order is already mirrored against this attempt, as when a sweep and a job record the same order
     twice. Exactly that is needed: `ReconciliationTheorems.MatchRecordedExactly`.
  3. `EXECUTION_AMBIGUOUS` to `CANCELLED` is legal
     (`backend/stockbrain/proposals/state_machine.py:83`) and an operator reaches it through
     `backend/stockbrain/proposals/lifecycle.py:106-169`, although the module says ambiguity is only left by
     reconciliation and the method says it withdraws from pre-execution states
     (`Counterexamples.CancellationOrphans`). The missing check: no transmission of the proposal is
     without an order id. Exactly that is needed: `ReconciliationTheorems.CancelledExactly`.

  The run theorems of `ReconciliationTheorems` therefore carry those three checks (`Guarded`) besides
  the assumptions about the broker, and `ReconciliationTheorems.ChecksAreExact` says that no weaker
  check of the ledger would do. Everything in `ExecutionTheorems`, and
  `ReconciliationTheorems.AbsenceLasts`, needs none of them.
- **The local count does not cover a lagging list.** `_pending_order_refusal` says the ledger's count
  covers the window before the broker's list catches up, but it counts only attempts without a result,
  and takes the larger of two counts, not their sum. The bound on pending orders therefore needs a
  bound on the lag (`PendingLimit.NeverPastTheCeiling`), is attained for every ceiling, crew and lag
  (`PendingLimit.BoundIsAttained`), and loses the lag exactly when there is none
  (`PendingLimit.CeilingHoldsExactly`). What the local count does bound is transmissions
  without a result (`PendingLimit.UnresolvedStayBounded`).
- **The order bucket bounds reservations.** The POST follows its reservation by a database
  transaction; fifty a minute holds for transmissions exactly when that takes less than 60/49 of a
  second (`RateLimit.FiftyAMinuteExactly`).
- **The crash sweep stops at the first stranded attempt it cannot record.** It does all of its work
  exactly when every stranded attempt's proposal may still become ambiguous
  (`LedgerStore.Store.RecoverIncomplete`).
- **A ticker listed twice in one batch of instrument rows** makes the database refuse the upsert, and
  the whole sync is rolled back (`Instruments.InstrumentTable.Store`).
- **The trailing assertion of the request loop** is reachable when a caller allows no attempt at all
  (`HttpRetry.RequestJson`).

## Model

| member | source | states |
|---|---|---|
| ExecutionTheorems.AtMostOneOrder | backend/stockbrain/execution/service.py:1-28 | in every run, whatever the interleaving and the crashes, two orders created for one proposal are the same order |
| ExecutionTheorems.EachAttemptPostsAtMostOnce | backend/stockbrain/execution/service.py:208-258 | no attempt is transmitted twice, a proposal never has two attempts marked sent, and whatever is at the broker or on its way is marked sent |
| ExecutionTheorems.CommittedBeforePosted | backend/stockbrain/execution/service.py:18-20 | whenever a request is transmitted its mark and send time are already committed, nothing of it has left before, and it is the attempt's only transmission |
| ExecutionTheorems.UnsentForever | backend/stockbrain/execution/service.py:586-624 | an attempt found without its mark never gets it back, and nothing of it ever reaches the broker |
| ExecutionTheorems.MarkClearedOnlyByRetraction | backend/stockbrain/execution/service.py:593-618 | the only step that clears a mark is the recording of an answer classified as never transmitted, by the worker holding that attempt, when nothing of it has left |
| ExecutionTheorems.AttemptTableWellFormed | backend/alembic/versions/20260905_2000_broker_execution.py:131-145 | in every reachable state `ambiguous` says what the outcome says, sent rows have a send time, answered rows are sent, at most one row per proposal is sent, and a proposal's attempt numbers are exactly 1..n without repetition |
| ExecutionTheorems.FinishedForever | backend/stockbrain/proposals/state_machine.py:84-98 | a finished proposal keeps its status through every later step, whatever is recorded late |
| ExecutionTheorems.RefusalSparesTransmitted | backend/stockbrain/execution/service.py:774-780 | a refusal leaves the row of a proposal another worker has transmitted as it was |
| ExecutionTheorems.RefusalRetiresExactly | backend/stockbrain/execution/preflight.py:123-185 | in every run a refusal writes a proposal row if and only if the row is still approved and the job had passed every local gate and was refused by the risk engine on the trade itself, and then it is invalidated; a switch, an expiry, a full pending queue, a missing slot or a missing input leaves every proposal row as it was; all else it writes is an unsent closed attempt of that trade, numbered next |
| ExecutionTheorems.VerdictTraced | backend/stockbrain/execution/preflight.py:123-185 | the verdict a worker refuses or proceeds with is the one its own revalidation got, for a row that passed every local gate with the switches as they were when it was screened |
| ExecutionTheorems.SentOnlyAfterPreflight | backend/stockbrain/execution/service.py:170-222 | an attempt is committed as sent only for the very row whose preflight passed every gate and which the risk engine re-read, unexpired at the job's instant and with no switch on when the claim looked; the request carries that row's trade |
| ExecutionTheorems.AnswerRecordedExactly | backend/stockbrain/execution/service.py:225-258 | what a worker writes is given, row by row, by the status code and body its own transmission came back with: a parsed success stores the order and its mirror, the five refusals fail the proposal, proof that nothing left clears the mark, everything else is ambiguous; it is refused exactly when the proposal may no longer make the move |
| ExecutionTheorems.StrandedMarkedExactly | backend/stockbrain/execution/service.py:674-691 | crash recovery marks attempt and proposal ambiguous if and only if the proposal is still in flight, and otherwise changes nothing |
| ExecutionTheorems.PassTraced | backend/stockbrain/execution/reconciliation.py:205-283 | a pass records what its own search concluded, or, when the order id was known, what the lookup of that id said, and such a lookup never concludes absence |
| ExecutionTheorems.SearchFindsTheTrade | backend/stockbrain/execution/reconciliation.py:509-524 | in every run, with no check and no timing assumed, an order a search finds has the attempt's own listing and signed quantity at the broker, is a market order placed through the API, and for a marked attempt was created inside the window around the send |
| ExecutionSafety.StepKeeps | backend/stockbrain/execution/service.py:146-897 | every step of every actor keeps the invariant of ledger, broker and workers, including that a worker is set to retire its proposal exactly when risk refused the trade of a row that had passed the local gates, and moves rows only in the permitted ways |
| ExecutionSafety.RunKeeps | backend/stockbrain/execution/service.py:146-897 | the invariant holds in every state of every run |
| ReconciliationSafety.ConcludeEstablishes | backend/stockbrain/execution/reconciliation.py:205-283 | what a search concludes about an attempt still in flight is true: a match is its own order, absence past the settle window is real, several matches cannot be |
| ReconciliationSafety.StepSafe | backend/stockbrain/execution/reconciliation.py:286-368 | with a prompt broker, deep enough pages and the three exact checks, every step keeps attribution, accounting, the link between order ids and mirrors, and the evidence workers carry |
| ReconciliationTheorems.RunSound | backend/stockbrain/execution/reconciliation.py:114-417 | those guarantees hold in every state of every such run |
| ReconciliationTheorems.NoOrphanOrders | backend/stockbrain/execution/reconciliation.py:342-373 | every order ever created is mirrored against its own attempt, or its proposal is still executing or ambiguous |
| ReconciliationTheorems.CorrectAttribution | backend/stockbrain/execution/reconciliation.py:509-546 | a mirrored order, and the order id an attempt carries, belong to that attempt |
| ReconciliationTheorems.LiveSearchIsTruthful | backend/stockbrain/execution/reconciliation.py:227-283 | along such a run, a search for a live attempt names only its own order and never several; once both reads answered past the settle window it finds the order if and only if there is one, and concludes absence if and only if there is none |
| ReconciliationTheorems.AbsenceLasts | backend/stockbrain/execution/reconciliation.py:264-283 | in every run with a prompt broker, checks or no checks, an attempt without an order when its settle window has passed never has one |
| ReconciliationTheorems.MatchRecordedExactly | backend/stockbrain/execution/reconciliation.py:342-351 | recording a match leaves no orphan and no wrong attribution if and only if the proposal is in flight, or the order is already mirrored against the attempt, or the attempt lost its mark and the database refuses |
| ReconciliationTheorems.AbsenceRecordedExactly | backend/stockbrain/execution/reconciliation.py:352-364 | recording absence leaves no orphan, whatever the broker holds, if and only if the attempt carries its mark, or its proposal is not in flight, or has no transmission without an order id |
| ReconciliationTheorems.CancelledExactly | backend/stockbrain/proposals/lifecycle.py:118-169 | cancelling leaves no orphan, whatever the broker holds, if and only if the proposal has no transmission without an order id |
| ReconciliationTheorems.ChecksAreExact | backend/stockbrain/execution/reconciliation.py:303-368 | over all sound states with the same ledger, clock and pass, a recording or a cancellation keeps both guarantees if and only if it passes its check |
| ReconciliationTheorems.AnswersKeepReserved | backend/stockbrain/execution/service.py:384-730 | the transmitting worker's own recordings never release an undecided transmission |
| Counterexamples.CancellationOrphans | backend/stockbrain/proposals/state_machine.py:83 | a complete run ending in a cancellation that orphans an existing order |
| Counterexamples.StaleAbsenceOrphans | backend/stockbrain/execution/reconciliation.py:264-283 | a complete run in which absence recorded for a retracted attempt orphans the order of the next one |
| Counterexamples.StaleMatchMisattributes | backend/stockbrain/execution/reconciliation.py:342-351 | a complete run in which a late match is mirrored against the wrong attempt |
| Lifecycle.TerminalIsFinal | backend/stockbrain/proposals/state_machine.py:96-98 | the terminal statuses are exactly those without a legal move |
| Lifecycle.AmbiguityNeverReopens | backend/stockbrain/proposals/state_machine.py:80-83 | no path of legal moves leads an ambiguous proposal back to where it could be transmitted |
| Lifecycle.EnteredOnlyFrom | backend/stockbrain/proposals/state_machine.py:65-98 | for every status, exactly the statuses it can be entered from |
| Lifecycle.SetsFollowTheMachine | backend/stockbrain/proposals/state_machine.py:100-140 | the named status sets are what the moves make of them: pre-execution is what can be invalidated, in flight what can be executed, executable what can start executing, active what is not finished |
| Ledger.ClaimKeepsValid | backend/stockbrain/execution/service.py:280-379 | the send transaction keeps every constraint and numbering, and loses no one's mark |
| Ledger.SuccessKeepsValid | backend/stockbrain/execution/service.py:384-445 | recording an acknowledgement keeps the ledger valid or rolls back |
| Ledger.RejectionKeepsValid | backend/stockbrain/execution/service.py:475-513 | recording a refusal by the broker keeps the ledger valid or rolls back |
| Ledger.RetractKeepsValid | backend/stockbrain/execution/service.py:606-624 | retracting keeps the ledger valid and clears the mark of the attempt it names and of no other |
| Ledger.AmbiguousKeepsValid | backend/stockbrain/execution/service.py:674-691 | recording ambiguity keeps the ledger valid or rolls back |
| Ledger.RefusalKeepsValid | backend/stockbrain/execution/service.py:746-780 | recording a refusal keeps the ledger valid and always commits |
| Ledger.ConclusionKeepsValid | backend/stockbrain/execution/reconciliation.py:303-373 | recording a reconciliation pass keeps the ledger valid or rolls back |
| Ledger.ProposalsMoveKeepsValid | backend/alembic/versions/20260904_1727_initial_core_schema.py:1101-1109 | writes of proposal rows alone keep the ledger valid while begun proposals stay begun with their trade |
| Ledger.NumbersIncrease | backend/stockbrain/execution/service.py:1105-1112 | later attempts of a proposal have larger numbers |
| Ledger.NumbersAreExactlyOneToN | backend/stockbrain/execution/service.py:1105-1112 | the attempt numbers of a proposal are exactly 1..n |
| LedgerStore.Store.ClaimAndMarkSent | backend/stockbrain/execution/service.py:263-379 | commits exactly the claim of the ledger, or leaves the tables as they were and reports a lost claim |
| LedgerStore.Store.RecordSuccess | backend/stockbrain/execution/service.py:384-430 | commits the acknowledgement with its mirror row and the proposal's move, or nothing |
| LedgerStore.Store.RecordRejection | backend/stockbrain/execution/service.py:489-513 | commits the refusal and fails the proposal, or nothing |
| LedgerStore.Store.RetractUnsent | backend/stockbrain/execution/service.py:606-624 | clears the mark and reopens the proposal, or nothing |
| LedgerStore.Store.RecordAmbiguous | backend/stockbrain/execution/service.py:674-691 | marks attempt and proposal ambiguous, or nothing |
| LedgerStore.Store.RecordRefusal | backend/stockbrain/execution/service.py:746-780 | inserts a numbered unsent attempt and retires the proposal only when told to and still executable |
| LedgerStore.Store.RecordConclusion | backend/stockbrain/execution/reconciliation.py:303-373 | commits a pass's conclusion: the count, the outcome, the mirror and the proposal's move, or nothing |
| LedgerStore.JobOutcome | backend/stockbrain/execution/service.py:227-258 | an uninterrupted job's recording is never refused, and by its answer the claimed attempt's whole row, its proposal and the mirrors are given; an acknowledged or unknown attempt, and no other, stays one reconciliation reads |
| LedgerStore.ClaimOutcome | backend/stockbrain/execution/service.py:280-379 | the claim commits if and only if the row is the observed version, approved, unexpired, untransmitted and not halted; it then adds the next attempt, pending and marked sent, and moves the proposal to executing |
| LedgerStore.RefusalOutcome | backend/stockbrain/execution/service.py:746-780 | a refusal adds an unsent closed attempt, numbered next, and invalidates the proposal exactly when told to and it is approved |
| LedgerStore.Store.TransmitAndRecord | backend/stockbrain/execution/service.py:208-258 | the uninterrupted tail of a job posts exactly when the claim holds, at most once, and leaves attempt, mirror and proposal as the status code and body of the reply say |
| LedgerStore.AnswerOutcome | backend/stockbrain/execution/service.py:384-697 | whatever became of the rows meanwhile, recording an answer commits exactly when the proposal may still make the move, and writes exactly the given columns of attempt, proposal and mirror |
| LedgerStore.PassOutcome | backend/stockbrain/execution/reconciliation.py:331-368 | a pass commits, and counts, unless it found an order for an attempt that lost its mark; every column it writes is given; the proposal is executed or failed exactly when it still may be and the order filled, or is dead or absent; a found order that is not filled stays one a later pass reads |
| LedgerStore.Store.RecoverIncomplete | backend/stockbrain/execution/service.py:863-894 | marks every stranded attempt ambiguous and returns how many if and only if every one can be; otherwise exactly those before the first that cannot |
| LedgerStore.SweptExactly | backend/stockbrain/execution/service.py:863-894 | of the attempts swept, exactly those marked sent, still pending and sent before the cutoff become ambiguous; every other row is as it was |
| Preflight.PermissionReasons | backend/stockbrain/execution/preflight.py:188-236 | raises exactly the permission reasons whose cause holds |
| Preflight.StateReasons | backend/stockbrain/execution/preflight.py:238-261 | raises exactly the state reasons whose cause holds |
| Preflight.Run | backend/stockbrain/execution/preflight.py:123-185 | permits if and only if every gate passes; gives exactly the local reasons, or else exactly the risk reasons; retires the proposal if and only if the local gates passed and risk refused the trade itself |
| Preflight.PermissionGatesExactly | backend/stockbrain/execution/preflight.py:188-236 | no permission reason arises if and only if the row's, the process's and the provider's environments agree, nothing blocks transmission, neither switch is on, and on the live account neither automatic authority nor automatic policy goes without consent |
| Preflight.StateGatesExactly | backend/stockbrain/execution/preflight.py:238-261 | no state reason arises if and only if the proposal is approved with provenance, expires later, is unsent and has a positive quantity |
| Preflight.RiskGatesExactly | backend/stockbrain/execution/preflight.py:156-168 | risk lets a trade through if and only if no rule blocks and a sale does not exceed the tradable shares, where an unlisted position counts as none |
| Preflight.TransientUnderMore | backend/stockbrain/execution/preflight.py:62-90 | adding stale rules to a refusal never changes whether it is transient, adding a missing input always makes it so, and adding a rule about the trade retires the proposal unless an input is missing |
| Preflight.TransientAlone | backend/stockbrain/execution/preflight.py:62-90 | a refusal by one rule is transient if and only if the rule is one of the three missing inputs or one of the three stale inputs, and one by stale rules alone always is |
| Transmission.ClassificationIsHonest | backend/stockbrain/broker/trading212_orders.py:276-371 | a definite verdict is right about whether an order exists, and an order whose id is not known is always classified unknown |
| Transmission.ClassifiedExactly | backend/stockbrain/broker/trading212_orders.py:295-372 | every verdict arises exactly from its status codes and bodies: acknowledged if and only if a 2xx body parsed, with exactly its order and status; rejected on exactly the five documented codes; never transmitted exactly before the request line or with nothing to trade; each kind of unknown exactly on its own replies |
| Transmission.UnknownOnlyWhenUndecided | backend/stockbrain/broker/trading212_orders.py:311-365 | what transport and broker say is classified unknown if and only if it fits both an order and none |
| Matching.FindCandidates | backend/stockbrain/execution/base.py:156-203 | the merge of both reads, filtered to the window, with each read's success and the number scanned |
| Matching.CompleteSearchMissesNothing | backend/stockbrain/execution/base.py:171-203 | because pending is read first, a search whose reads both answered holds every order that was readable when it began, wherever it moved |
| Matching.OneCandidatePerOrder | backend/stockbrain/execution/base.py:171-187 | an order in both lists is one candidate, as the pending list saw it |
| Matching.LastPendingWins | backend/stockbrain/execution/base.py:171-187 | an id holds the last pending entry that names it |
| Matching.FirstHistoryWins | backend/stockbrain/execution/base.py:171-187 | an id the pending list does not name holds the first history entry that does |
| Matching.WindowExactly | backend/stockbrain/execution/base.py:190-203 | the window keeps exactly the listing's orders created inside it, both ends included |
| Matching.NotPlacedExactly | backend/stockbrain/execution/reconciliation.py:223-283 | absence is concluded if and only if the search is complete, every API-placed market order of the attempt's listing and signed quantity is claimed by another attempt, and a sent attempt is past the settle window |
| Matching.OpenExactly | backend/stockbrain/execution/reconciliation.py:241-274 | a search stays open exactly when two unclaimed such orders match, when none does and a read failed, or when none does inside the settle window |
| Matching.FoundMeans | backend/stockbrain/execution/reconciliation.py:223-242 | a found order is in the search, API-placed, a market order of the attempt's listing and signed quantity, unclaimed, reported with its own status, and the only such order |
| Matching.FiftyReach | backend/stockbrain/broker/trading212_orders.py:405-440 | one newest-first page of fifty is deep enough when no more than fifty finished orders of the listing are newer than the window's start |
| PendingLimit.CountsEveryOrder | backend/stockbrain/execution/base.py:104-136 | the count is of every listed pending order of the ticker, whoever placed it, and of no other |
| PendingLimit.CountedExactly | backend/stockbrain/execution/base.py:104-136 | of a list that was read, reports how many entries name the listing and how many of those the API placed |
| PendingLimit.PermitsExactly | backend/stockbrain/execution/service.py:984-1012 | a send is permitted if and only if the broker's list was read, and neither the number of entries naming the listing nor the local count, with this order and the headroom added, passes the limit |
| PendingLimit.NeverPastTheCeiling | backend/stockbrain/execution/service.py:962-1036 | with W workers and a list that lacks at most L orders, pending orders plus workers about to post stay within ceiling + L + W - 1 |
| PendingLimit.UnresolvedStayBounded | backend/stockbrain/execution/service.py:997-1012 | whatever the list shows, transmissions without a result plus those about to be claimed stay within ceiling + W - 1 |
| PendingLimit.UnreadNeverSends | backend/stockbrain/execution/service.py:1000-1010 | whoever may still post has read the list successfully since it last left, and a failed read never lets it on |
| PendingLimit.BoundIsAttained | backend/stockbrain/execution/service.py:992-1012 | for every ceiling, every crew of W and every lag L, a run attains ceiling + L + W - 1 |
| PendingLimit.CeilingHoldsExactly | backend/stockbrain/execution/service.py:1038-1058 | ceiling + W - 1 bounds every run if and only if the list never lags, or the ceiling lets nothing through |
| RateLimit.TokenBucket.TryAcquire | backend/stockbrain/httpclient.py:114-129 | grants exactly when the refilled bucket holds a token, and takes it |
| RateLimit.TokenBucket.Acquire | backend/stockbrain/httpclient.py:131-142 | a bucket that can hold a token grants after at most one sleep, and no earlier call would have been granted; one that cannot keeps its caller waiting until it is cancelled |
| RateLimit.RateBound | backend/stockbrain/httpclient.py:98-142 | any window of length T of any run sees at most capacity + rate * T grants |
| RateLimit.GrantsAreSpaced | backend/stockbrain/httpclient.py:98-142 | with capacity one, two grants are at least 1/rate apart |
| RateLimit.PacedCallsAllGranted | backend/stockbrain/httpclient.py:98-142 | calls 1/rate apart are all granted |
| RateLimit.BurstExactly | backend/stockbrain/httpclient.py:98-129 | of n calls at one instant the bucket grants all if it holds n tokens, and otherwise exactly the whole tokens it holds, which are what it had and what flowed in since, up to its capacity |
| RateLimit.SmallBucketStarves | backend/stockbrain/httpclient.py:105-112 | a bucket that cannot hold a token never grants |
| RateLimit.PostRateBound | backend/stockbrain/execution/service.py:191-228 | transmissions that follow their reservations within D are bounded over a window grown by D |
| RateLimit.OrderBucketWithinLimit | backend/stockbrain/broker/trading212_orders.py:78-82 | the order bucket keeps any minute within the broker's fifty |
| RateLimit.FiftyAMinuteExactly | backend/stockbrain/execution/service.py:191-228 | over all runs a minute sees at most fifty transmissions if and only if each follows its reservation in less than 60/49 of a second |
| HttpRetry.RequestJson | backend/stockbrain/httpclient.py:204-266 | ends at the first conclusive reply or the last attempt with what that reply means; one request unless safe to repeat; sleeps exactly the jittered delays after all but the last request; the assertion trips only when no attempt is allowed |
| HttpRetry.SleepsWithinBudget | backend/stockbrain/httpclient.py:358-364 | what is slept after n attempts is at most what the delays allow, and that at most n times the maximum, whatever the server hints |
| HttpRetry.ClassifiedExactly | backend/stockbrain/httpclient.py:317-346 | each failing status has exactly one class: credentials, entitlement, rate limit with its hint, unavailable, or a response error |
| HttpRetry.PlainReply | backend/stockbrain/httpclient.py:204-266 | without a provider hook a reply is retried exactly on transport failures, 408, 425, 429 and server errors, is a body exactly when a success decodes, and the server's hint is followed exactly on 429 |
| HttpRetry.HookDecides | backend/stockbrain/httpclient.py:204-266 | a provider's hook decides what a failure is, and so whether it is retried and how long the hint makes it wait |
| HttpRetry.DelaysDouble | backend/stockbrain/httpclient.py:358-364 | unhinted delays start at the base and double up to the maximum; a hint is never overslept |
| DecimalLiteral.ReadsBackExactly | backend/stockbrain/broker/trading212_orders.py:457-471 | for every positive coefficient and any exponent the literal is a JSON number that reads back as exactly the quantity, negative exactly for a sale |
| DecimalLiteral.LiteralDeterminesQuantity | backend/stockbrain/execution/models.py:66-73 | two commands with the same literal have the same side and the same quantity |
| AccountPeaks.AccountTables.Store | backend/stockbrain/broker/account_state.py:109-223 | the loop of upserts and the deletes leave exactly the sync's result |
| AccountPeaks.PeakSummarisesHistory | backend/stockbrain/broker/account_state.py:164-223 | after any sequence of syncs of any accounts, a peak is the highest price since the position was last absent, with the instant of the first report that reached it and the number of priced reports |
| AccountPeaks.PositionsMirrorTheReport | backend/stockbrain/broker/account_state.py:129-223 | a sync leaves exactly the reported positions of its account, each as its last report says, and other accounts' rows untouched |
| AccountPeaks.PeaksHavePositions | backend/stockbrain/broker/account_state.py:206-223 | a peak never outlives its position |
| ReconcileSweep.Attempts.Sweep | backend/stockbrain/execution/reconciliation.py:450-457 | records one pass for each selected attempt, leaves each row as its conclusion says, and returns how many it checked and how many resolved |
| ReconcileSweep.SweptRow | backend/stockbrain/execution/reconciliation.py:431-457 | a swept row has one more pass and is closed exactly when the order was filled or absent, open when another was found, and as before otherwise; every other row is untouched |
| ReconcileSweep.RowFollowsTheLedger | backend/stockbrain/execution/reconciliation.py:303-373 | the sweep's view of a row moves exactly as recording the pass moves the ledger |
| ReconcileSweep.ResolvedExactly | backend/stockbrain/execution/reconciliation.py:450-457 | the number returned is the number of passes that found the order or proved it absent |
| ReconcileSweep.SelectedExactly | backend/stockbrain/execution/reconciliation.py:431-449 | only open attempts below the maximum are selected, and one is left out only when the limit is used up by attempts sent no later |
| ReconcileSweep.SweepLowersRemaining | backend/stockbrain/execution/reconciliation.py:420-457 | a sweep lowers the passes left in all by at least the attempts it checked |
| ReconcileSweep.CheckedAtMostMax | backend/stockbrain/execution/reconciliation.py:442-443 | over any run, in which attempts appear, become eligible and close at any time, no attempt is swept more than the configured maximum |
| ReconcileSweep.TurnComes | backend/stockbrain/execution/reconciliation.py:431-449 | an eligible attempt's turn comes even as later ones arrive and older pending ones become eligible: sweeps that pass it over are bounded by the passes left to attempts no younger |
| Discovery.Schedule.EnqueueDueSearches | backend/stockbrain/services.py:1181-1224 | the loop with its break queues and re-dates exactly what the sweep's definition says |
| Discovery.RowAfterSweep | backend/stockbrain/services.py:1190-1224 | a queued query becomes eligible exactly one interval from now; otherwise a row changes only by the eligibility derived from its last run |
| Discovery.QueuedExactly | backend/stockbrain/services.py:1181-1224 | with room for all, exactly the queries never run, eligible by now, or without an eligibility an interval after their last run are queued |
| Discovery.FirstDueUpToAllowance | backend/stockbrain/services.py:1153-1224 | when every enqueue succeeds, exactly the first due queries of the order are queued, up to the allowance |
| Discovery.NothingBetterLeftOut | backend/stockbrain/services.py:1165-1173 | a due query is left out only when the allowance is spent, and only for queries ranking no lower |
| Discovery.RanksExactly | backend/stockbrain/services.py:1165-1173 | the ranking is a total order: priority first, then never eligible before dated, earlier eligibility first, then the older row |
| Discovery.NeverEarly | backend/stockbrain/services.py:1190-1199 | no query is queued before its eligibility, nor a row without one before an interval after its last run |
| Discovery.EnqueuesAreSpaced | backend/stockbrain/services.py:1190-1224 | two enqueues of one query are at least its interval apart over any run of sweeps |
| Instruments.ChunksConcat | backend/stockbrain/broker/instrument_sync.py:335-336 | the batches put together are the list |
| Instruments.ChunkSizes | backend/stockbrain/broker/instrument_sync.py:335-336 | no batch is empty or too long, and all but the last are full |
| Instruments.InstrumentTable.Store | backend/stockbrain/broker/instrument_sync.py:260-332 | commits the row-by-row result of a sync, changes nothing for an empty response, and rolls back exactly when a batch repeats a ticker |
| Instruments.ActiveExactly | backend/stockbrain/broker/instrument_sync.py:315-331 | a row is active exactly when the provider listed it, or it was active with a stamp no earlier than this run; on its own, exactly when listed |
| Instruments.RowsAndPrecisionLast | backend/stockbrain/broker/instrument_sync.py:282-312 | over any run of syncs no row disappears and no learned precision changes |
| PrecisionLearning.ReadsTheDemand | backend/stockbrain/execution/service.py:1211-1237 | a sentence that says "precision n" is read as n, whatever stands around it |
| PrecisionLearning.DemandedExactly | backend/stockbrain/execution/service.py:1228-1230 | nothing is read if and only if the pattern matches nowhere; otherwise the number at the leftmost match |
| PrecisionLearning.TaughtExactly | backend/stockbrain/execution/service.py:1205-1237 | a refusal teaches n if and only if its type ends in the precision mismatch, its sentence names n first, and n is at most eight |
| PrecisionLearning.TeachesTheDemand | backend/stockbrain/execution/service.py:1205-1237 | a precision refusal whose sentence says "precision n" teaches n when the sizer can use it, and nothing otherwise |
| PrecisionLearning.Learner.LearnFrom | backend/stockbrain/execution/service.py:535-567 | stores the demand, releases the dedupe key and queues the run exactly when the demand differs from what is stored |
| PrecisionLearning.ResizedOncePerChange | backend/stockbrain/execution/service.py:535-567 | over any run, with metadata syncs in between, proposals are re-sized exactly as often as the demand changes |
| PrecisionLearning.ConstantDemandResizesOnce | backend/stockbrain/execution/service.py:535-567 | a constant demand re-sizes at most once, and exactly when it is made and was not stored |
| PrecisionLearning.StoredStaysInRange | backend/stockbrain/execution/service.py:1205-1237 | every stored precision stays within what the sizer can use |

## Left out

- ReconciliationTheorems.NoOrphanOrders: carries the three row checks named above, which the code does not make; without them it is false, as the counterexample runs show, and no weaker check of the ledger would do.
- ReconciliationTheorems.CorrectAttribution: carries the same checks, for the same reason.
- PendingLimit.NeverPastTheCeiling: no orders from outside StockBrain; the operator's own orders can take any listing past the ceiling at any time.
- RateLimit.TokenBucket.Acquire: every sleep of one wait overruns by the same amount; tokens and time are exact reals, not doubles.
- RateLimit.TokenBucket.constructor: a negative burst is excluded.
- HttpRetry.RequestJson: a Retry-After that is not a real number (NaN, infinity) is not modelled.
- PrecisionLearning.ReadsTheDemand: decimal digits are the ASCII ones.
- ReconcileSweep.Attempts.Sweep: a pass whose recording raises, which ends the sweep early.
- Instruments.InstrumentTable.Store: exchanges, schedules and the derivation of the metadata columns.
- Quantities in the protocol are whole numbers; exact decimals appear only in the order literal.
- The risk engine and proposal revalidation, the job queue's internals, notifications, audit rows, metrics and logging.
- Configuration validation, the HTTP API, Telegram, content extraction and the other background jobs.
- Hashing and authentication: library calls.
- Account state reads and market values: single-branch lookups.
- Several environments or accounts in one ledger: every read the protocol makes is scoped to one.
