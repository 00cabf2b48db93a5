# Verification of the bank's money core

This project models the money core of the bank server in Dafny and proves what it promises. The tables of the
database become maps and sequences, service calls become methods of classes, and each SQL statement, commit or ledger
call is one atomic step of a state machine.

The modules, from the bottom up:

- **LedgerTables, AtomicLedger** - the committed tables (accounts, keys, transactions, entries, holds), the five ledger
  operations as atomic steps, and the invariant every commit keeps.
- **ReadCommitted** - transactions running statement by statement under READ COMMITTED: pending rows, row locks held to
  commit, a fresh snapshot per statement, an INSERT on a taken key waiting for the other transaction, rollback on any
  error. Every interleaving is shown to be a serial run of its commits.
- **LedgerGuarantees** - what follows in every reachable state: the overdraft bound, conservation, at most one execution
  per key, single reversals and captures, chains of reversals.
- **SerialLedger, SoloRun, LedgerService** - what one call does when nothing interferes, including which error comes
  first; that the statement machine run alone does exactly that; and the service as a class whose methods, with their
  loops and rollbacks, do exactly that too.
- **RequestHash** - the text hashed for a request identifies the request.
- **TransferRows, Rails, ExternalTransfers, GateUnderCrashes, RiskGate** - transfers through a rail: ExternalTransfers
  interleaves any number of workers statement by statement with crashes; GateUnderCrashes says what the risk gate and
  the stuck resolver still do then; RiskGate is the service class with each row processed in one piece, and its runs
  with rail timeouts and restarts, for what the gate guarantees.
- **Claims** - how every ticker picks the oldest rows of a batch.
- **CoolingOffRows, CoolingOff, CoolingOffRace** - held-back transfers: retries after crashes, the service class, and
  cancellations racing with the release ticker.
- **Calendar, Scheduler** - calendar steps and the runs of one schedule under a ticker with crashes.
- **ResilienceSwitches, ResilienceCache** - kill switches and the double-checked cache in front of them.
- **CardLifecycle, CardAuthorizations, CardSpending** - settling, voiding and charging back an authorization
  concurrently; decisions and the daily limit when requests are answered one at a time; and the limit when they overlap.
- **Settlement, FeeApplication, FeeSettlement, GoArithmetic, Sums** - settlement cycles with reserves, fees, and both
  together: what a cycle deducts is what the ledger posted.
- **PendingFigures** - the transfers, the cooling-off rows and the card authorizations over one ledger: who owns the
  active holds.
- **Payee** - the two-row edit distance and the classification built on it.

Where the code does not keep what its comments suggest, the code is modelled as it is, a lemma gives the failing input
or run, and another the exact condition for all inputs:

- a hold for the whole balance is active but cannot be captured (`SerialLedger.FullHoldCannotBeCaptured`): a capture
  succeeds iff `SerialLedger.CaptureSucceedsIff` says so;
- a crash after scoring lets a blocked transfer be paid (`GateUnderCrashes.BlockedRowIsPaid`): a row is sent uncleared
  iff `GateUnderCrashes.SentUnclearedIff`;
- a resolver's pass does not always end a row: it does iff `GateUnderCrashes.PassEndsIff`;
- a cancelled cooling-off row can be paid (`CoolingOffRace.CancelledRowCanPay`): the cancellation is final iff
  `CoolingOffRace.CancelIsFinalIff`;
- a failed scheduled run may have paid (`Scheduler.FailedRunMayHavePaid`): iff `Scheduler.FailedRunPaidIff`;
- a settled authorization's purchase may be reversed (`CardLifecycle.SettledCanBeReversed`): iff
  `CardLifecycle.MarkedSettledIsReversedIff`, and over runs `CardLifecycle.SettledStandsIff`;
- two challenged purchases exceed the daily limit (`CardAuthorizations.TwoChallengesExceedLimit`): a completion does iff
  `CardAuthorizations.CompletionKeepsLimitIff`;
- two overlapping card requests exceed it as well (`CardSpending.OverlapExceedsLimit`): an approval keeps the limit iff
  `CardSpending.ApprovalKeepsLimitIff`, and a whole run does iff `CardSpending.LimitsHoldIff`;
- a payout can be lost after its cycle's commit (`Settlement.PayoutCanBeLost`): it is sent iff
  `Settlement.PayoutIsSentIff`;
- fee rules that change between a crash and its retry block the record or replace it: the retry records what was posted
  iff `FeeApplication.RetryRecordsPostedIff`.

Conventions: a parameter `survived` says how many statements of a call ran before the process died; `allowed` or
`switchedOn` is the answer of checks made elsewhere (limits, kill switches); `answered` says whether the rail responded
in time; `now` is a logical clock. Ids are positions in commit order. Amounts are minor units of NGN.

## Model

| member | source | states |
|---|---|---|
| AtomicLedger.PostKeepsOk | internal/ledger/holds.go:18-38 | a credit, debit, transfer or any other posting keeps every table invariant: balanced entries, the overdraft bound, one transaction per key |
| AtomicLedger.PlaceHoldKeepsOk | internal/ledger/holds.go:43-86 | placing a hold keeps every account at or above its overdraft bound, and every other invariant |
| AtomicLedger.ReleaseKeepsOk | internal/ledger/holds.go:93-116 | releasing a hold keeps every invariant; captured holds stay paired with their debits |
| AtomicLedger.CaptureKeepsOk | internal/ledger/holds.go:120-183 | a capture posts the one debit of its hold and keeps every invariant |
| AtomicLedger.ReverseKeepsOk | internal/ledger/reversal.go:27-98 | a reversal posts the one compensating transaction of its original and keeps every invariant |
| AtomicLedger.CommitKeepsOk | db/migrations/00006_ledger_invariants.sql:6-76 | every committed operation keeps the two trigger invariants and the key, reversal and capture pairings |
| AtomicLedger.RecordKeepsBound | db/migrations/00006_ledger_invariants.sql:35-76 | entries whose debits pass the trigger leave every account within its overdraft |
| AtomicLedger.RecordKeepsEntries | db/migrations/00006_ledger_invariants.sql:6-28 | adding a transaction whose entries sum to zero keeps every transaction balanced |
| AtomicLedger.RecordKeepsKeys | internal/idempotency/idempotency.go:34-84 | a key completed together with its transaction keeps keys and transactions in one-to-one correspondence |
| AtomicLedger.RecordKeepsPostings | internal/ledger/service.go:193-221 | a recorded transaction has the type and, entry for entry, the legs its request named |
| AtomicLedger.StoredPosting | internal/ledger/service.go:193-221 | a key stored for a posting names the one transaction of that type with exactly those legs |
| ReadCommitted.NextKeepsOk | internal/idempotency/idempotency.go:34-84 | one statement of a transaction, whatever the others did since its last one, keeps what its locks and earlier reads established |
| ReadCommitted.NextKeepsApart | db/migrations/00006_ledger_invariants.sql:46-49 | only the holder of an account lock can have a pending debit or hold on it, and only one transaction can have a key or a target row pending |
| ReadCommitted.CheckedLegKeepsOk | db/migrations/00006_ledger_invariants.sql:56-72 | sums read under the account lock stay valid until commit, so a debit that passed the check is still covered |
| ReadCommitted.CheckedHoldKeepsOk | internal/ledger/holds.go:51-72 | the same for a hold: the balance checked under the lock is the balance at commit |
| ReadCommitted.StaysOk | db/migrations/00006_ledger_invariants.sql:46-63 | a commit of another transaction that touches none of its locked rows leaves an open transaction as it was |
| ReadCommitted.CommitRefines | internal/idempotency/idempotency.go:34-84 | committing the rows a transaction wrote is one atomic operation whose preconditions hold at that moment |
| ReadCommitted.CommitStepKeepsInv | internal/idempotency/idempotency.go:72-83 | a commit keeps the invariant of the tables and of every other open transaction |
| ReadCommitted.InterleavingIsSerial | internal/idempotency/idempotency.go:34-84 | every statement-level interleaving, with aborts, reaches the tables of a serial run of its commits in commit order |
| ReadCommitted.FetchKeepsOk | internal/idempotency/idempotency.go:86-109 | the replay of a taken key answers with the stored response of a matching request or with an error |
| LedgerGuarantees.NeverOverdrawn | db/migrations/00006_ledger_invariants.sql:35-76 | in every interleaving of postings, holds, releases, captures and reversals, available balance plus overdraft stays non-negative on every account |
| LedgerGuarantees.HistoryIsAppendOnly | internal/ledger/holds.go:18-38 | entries, completed keys and resolved holds are never changed or removed |
| LedgerGuarantees.BalancesSumToZero | internal/ledger/holds.go:18-38 | each transaction sums to zero and the balances of all accounts, each counted once, sum to zero in every reachable state |
| LedgerGuarantees.AtMostOneExecution | internal/idempotency/idempotency.go:34-84 | each key has at most one committed execution; stored keys are exactly the committed ones, each completed, in bijection with transactions |
| LedgerGuarantees.RepliesAgree | internal/idempotency/idempotency.go:86-109 | all successful calls under one key carried the same request and got the same response |
| LedgerGuarantees.RetryLaterIsUnreachable | internal/idempotency/idempotency.go:104-106 | no caller is ever told that a key is in progress or missing |
| LedgerGuarantees.ReusedKeyChangesNothing | internal/idempotency/idempotency.go:101-103 | a stored key with another request hash never commits and never succeeds |
| LedgerGuarantees.ReversedIffCompensatedOnce | internal/ledger/reversal.go:27-98 | a transaction is in state reversed iff one compensating transaction with negated legs exists, and never two |
| LedgerGuarantees.CapturedIffDebitedOnce | internal/ledger/holds.go:120-183 | a hold is captured iff one debit of its amount exists, and never two |
| LedgerGuarantees.ReversalChain | internal/ledger/reversal.go:27-98 | a transaction and its n chained reversals move each account by the original legs when n is even and by nothing when n is odd |
| SerialLedger.CallKeepsOk | internal/ledger/service.go:193-221 | a call changes nothing or is exactly one atomic operation, and keeps the invariant |
| SerialLedger.NoErrorCommits | internal/ledger/holds.go:18-38 | a call that meets none of the checks in their order satisfies everything the commit needs |
| SerialLedger.PassedLegsCovered | db/migrations/00006_ledger_invariants.sql:42-74 | legs checked one by one as they are inserted are covered as a whole |
| SerialLedger.RetryReplays | internal/idempotency/idempotency.go:48-63 | repeating a successful call returns the same reply and changes nothing |
| SerialLedger.CaptureSucceedsIff | internal/ledger/holds.go:120-162 | a capture under a fresh key succeeds iff the hold is active and the balance, already net of the hold, covers the amount again |
| SerialLedger.HoldAcceptedIff | internal/ledger/holds.go:43-86 | a hold is placed iff the account exists and its balance less its active holds, with its overdraft, covers a positive amount; it is then exactly one new active hold |
| SerialLedger.TransferAcceptedIff | internal/ledger/holds.go:18-38 | a transfer under an unused key is accepted iff both accounts exist, the amount is positive and the sender can bear it |
| SerialLedger.TransferPosts | internal/ledger/holds.go:18-38 | an accepted transfer is one posted transaction with the amount negative on the sender and positive on the recipient |
| SerialLedger.CreditAcceptedIff | internal/ledger/service.go:151-160 | a credit under an unused key is accepted iff both accounts exist, the amount is positive and the system account can bear it |
| SerialLedger.ReversalAcceptedIff | internal/ledger/reversal.go:27-66 | a two-legged transaction can be reversed under an unused key iff it still stands and the recipient can give the amount back |
| SerialLedger.CaptureMovesPendingToLedger | internal/ledger/holds.go:120-162 | a capture leaves available unchanged while ledger and pending both drop by the amount |
| SerialLedger.MarkedFirstAlwaysCovered | internal/ledger/holds.go:151-162 | were the hold marked captured before its legs, every active hold could be captured |
| SerialLedger.FullHoldCannotBeCaptured | internal/ledger/holds.go:155-162 | an active hold for the whole balance cannot be captured |
| SoloRun.SoloCallIsSerial | internal/idempotency/idempotency.go:34-84 | an undisturbed call, run statement by statement, ends with exactly the tables and the reply of the serial call |
| SoloRun.SoloInsert | internal/ledger/holds.go:18-38 | the insert statements of a posting, leg by leg with the trigger, end as the serial call does |
| LedgerService.Service.GetBalance | internal/ledger/service.go:121-147 | ledger, pending and available are the sums of entries and active holds, and available is within the overdraft |
| LedgerService.Service.PlaceHold | internal/ledger/holds.go:43-86 | places the hold, or leaves the tables alone with the first error met, as the serial call |
| LedgerService.Service.ReleaseHold | internal/ledger/holds.go:89-116 | releases an active hold, or leaves the tables alone with the first error met |
| LedgerService.Service.CheckAvailableBalance | db/migrations/00006_ledger_invariants.sql:35-76 | refuses exactly the entries the row trigger and the row constraints refuse, with the same error |
| LedgerService.Service.InsertPostedTransaction | internal/ledger/holds.go:18-38 | inserts the transaction and all its legs, or stops at the first leg refused |
| LedgerService.Service.FetchCompleted | internal/idempotency/idempotency.go:86-109 | answers a stored key by its hash and status; in progress is never the answer |
| LedgerService.Service.CommitOrRollback | internal/idempotency/idempotency.go:72-83 | completes the key with the response, or restores the saved tables when the deferred balance check fails |
| LedgerService.Service.PostTransaction | internal/ledger/service.go:193-221 | equals the serial call for every type, key and leg list |
| LedgerService.Service.Credit | internal/ledger/service.go:151-160 | posts the amount to the account against the system account, once per key |
| LedgerService.Service.Debit | internal/ledger/service.go:164-173 | takes the amount from the account against the system account, once per key |
| LedgerService.Service.Transfer | internal/ledger/service.go:177-182 | moves the amount between the two accounts, once per key |
| LedgerService.Service.CaptureHold | internal/ledger/holds.go:120-183 | captures the hold into a posted debit, once per key, or rolls back |
| LedgerService.Service.CompensatingLegs | internal/ledger/reversal.go:32-66 | collects the negated entries of a posted original, or names why it cannot be reversed |
| LedgerService.Service.ReverseTransaction | internal/ledger/reversal.go:27-98 | posts the negated legs and marks the original reversed, once per key, or rolls back |
| RequestHash.WritePosting | internal/ledger/service.go:223-231 | the loop writes the text of the type and of each leg in order |
| RequestHash.PostingTextDecodes | internal/ledger/service.go:223-231 | for 36-character ids and 3-letter currencies two postings with the same text are the same posting |
| RequestHash.FreeFormAccountsCollide | internal/ledger/service.go:223-231 | without fixed-length ids two different postings can have the same text |
| RequestHash.HashIdentifiesRequest | internal/ledger/holds.go:185-187 | with a collision-free digest no two different posting, capture or reversal requests share a hash |
| RequestHash.StoredHashAgrees | internal/ledger/service.go:223-231 | the stored strings of two requests are equal iff the requests the tables compare are equal |
| ExternalTransfers.OutboundSettlesOnce | internal/externalpayments/process.go:152-216 | in every run with crashes and overlapping workers an outbound hold is captured iff its one debit exists; completed names that debit; failed means released and never debited |
| ExternalTransfers.SettleStepKeepsInv | internal/externalpayments/process.go:188-208 | the capture or credit under the row key, first or repeated, returns the one transaction under that key |
| ExternalTransfers.ReleaseStepKeepsInv | internal/externalpayments/process.go:171-176 | the worker goes on to mark the row failed only after the hold was released |
| ExternalTransfers.MarkStepKeepsOk | internal/externalpayments/process.go:177-215 | an outcome is recorded only once the ledger bears it out, even over a status another worker wrote |
| ExternalTransfers.InsertKeepsOk | internal/externalpayments/externalpayments.go:136-151 | a new row owns a hold and a key no other row has |
| ExternalTransfers.HoldStepKeepsInv | internal/externalpayments/externalpayments.go:127-134 | the hold a sender just placed belongs to nobody else and has never been captured |
| ExternalTransfers.ScoreStepKeepsOk | internal/risk/risk.go:126-139 | recording a decision and starting its effect keeps the invariant, a second record being refused |
| ExternalTransfers.DoKeepsInv | internal/externalpayments/process.go:34-216 | every action of every caller keeps the invariant of rows, workers and ledger |
| ExternalTransfers.InboundCreditedOnce | internal/externalpayments/process.go:201-214 | in every run an inbound transfer is credited at most once, entry for entry its own amount under its own key, and a completed one names that credit |
| ExternalTransfers.AloneSends | internal/externalpayments/externalpayments.go:116-152 | a sender nobody disturbs inserts the row of a new key, with its hold if outbound, iff it is inbound or its account affords the hold |
| ExternalTransfers.AloneDecides | internal/risk/resolve.go:18-45 | an investigator nobody disturbs clears a held row, or fails and blocks it and releases its hold |
| GateUnderCrashes.UnclearedWasSkipped | internal/externalpayments/process.go:99-126 | in every interleaving with crashes: rows reach the rail only after scoring, only rows that reached it are settled, and a row reached it uncleared only if a worker found it scored and not cleared at the guard |
| GateUnderCrashes.DoKeepsGate | internal/externalpayments/process.go:99-126 | every statement of every worker keeps the gate's history, and no assessment is ever rewritten |
| GateUnderCrashes.ClaimTakesRow | internal/externalpayments/process.go:34-76 | a waiting row claimed by the ticker, or a processing one claimed by the resolver, is at the guard in its hands |
| GateUnderCrashes.SentUnclearedIff | internal/externalpayments/process.go:104-106 | a claimed row nobody else touches is sent uncleared iff it was already scored and not cleared at the claim |
| GateUnderCrashes.BlockedRowIsPaid | internal/risk/risk.go:126-139 | from an empty table a run with one crash ends with a blocked row completed and debited |
| GateUnderCrashes.PassEndsIff | internal/externalpayments/process.go:152-216 | an undisturbed resolver pass ends a stuck row iff, when rejected or blocked, its hold is still active and, when accepted, it was settled before or the ledger finds nothing against settling it |
| Rails.SimulatedRail.Send | internal/rails/rails.go:92-127 | a cached reference repeats its answer; otherwise no answer, or the marker decides and is cached |
| RiskGate.GateHolds | internal/externalpayments/process.go:99-126 | in every run, timeouts and restarts included, a row reaches the rail only if its single assessment allows it, or holds it and it was then approved, and that assessment never changes |
| RiskGate.BlockedForGood | internal/risk/risk.go:241-254 | in every run a row once blocked was never sent and is never sent, debited or credited afterwards; its hold stays released |
| RiskGate.DoKeepsInv | internal/externalpayments/process.go:34-126 | submissions, claims, processing, decisions, restarts and foreign calls each keep the state valid |
| RiskGate.BlockedStaysOut | internal/risk/risk.go:241-254 | whatever valid state follows, a blocked row stays unsent and unpaid and its hold released |
| RiskGate.Evaluate | internal/risk/risk.go:144-176 | blocks iff a marker is present, allows iff neither suspicious nor unusual; allowed scores lie below 20 |
| RiskGate.EvaluateIff | internal/risk/risk.go:144-192 | in this order: a SANCTIONED or FRAUDSCORE marker blocks with 100; five rows of the account created within 600 seconds, or 500 million in such rows, hold with 70; a billion holds with 50; else allowed with one point per 50 million |
| RiskGate.FiveRecentRowsHold | internal/risk/risk.go:161-167 | a row without a marker is held with score 70 when five rows of its account were created within 600 seconds |
| RiskGate.ProcessedTurn | internal/externalpayments/process.go:99-216 | a claimed row is scored if it never was; allowed or approved it is sent, then left processing, failed with its hold released, or completed unless the ledger refuses; otherwise it is held, or failed and blocked |
| RiskGate.ActionsAct | internal/externalpayments/process.go:34-126 | every action that can act does: a request is queued, a waiting row claimed, a claimed row takes its turn, a held row is decided |
| RiskGate.FinalizedOk | internal/externalpayments/process.go:152-216 | settling, failing or leaving a row keeps the state valid and changes no other row |
| RiskGate.ProcessedOk | internal/externalpayments/process.go:99-126 | processing a claimed row in one piece keeps the state valid, changes no other row and rewrites no assessment |
| RiskGate.SubmittedOk | internal/externalpayments/externalpayments.go:127-151 | a fresh submission keeps the state valid |
| RiskGate.ResolvedOk | internal/risk/resolve.go:18-45 | approving or blocking a held row keeps the state valid |
| RiskGate.Service.Finalize | internal/externalpayments/process.go:152-216 | the row after the rail: unanswered rows stay, rejected rows release and fail, accepted rows complete iff the ledger settles |
| RiskGate.Service.Assess | internal/risk/risk.go:109-142 | scores a row once; a second call repeats the record and changes nothing |
| RiskGate.Service.FailAndRelease | internal/risk/risk.go:241-254 | fails and blocks the row and releases its hold |
| RiskGate.Service.ProcessRow | internal/externalpayments/process.go:99-126 | the whole new state after one row: scored once, then sent, settled, failed, held or blocked as the tables say; no other row changed |
| RiskGate.Service.Resolve | internal/risk/resolve.go:18-45 | acts exactly on held rows: an approved one is clear and pending, a blocked one failed with its hold released |
| RiskGate.Service.Restart | internal/rails/rails.go:86-88 | a new process keeps the stored state and starts with a rail that remembers nothing |
| RiskGate.Service.Send | internal/externalpayments/externalpayments.go:116-152 | a known key returns its row and changes nothing; otherwise one pending row and, if outbound, one hold are added iff switched on and inbound or affordable |
| RiskGate.Service.Reserve | internal/externalpayments/externalpayments.go:129-138 | places the hold of an outbound request or leaves the ledger alone |
| RiskGate.Service.CreateBatch | internal/externalpayments/externalpayments.go:103-114 | submits in order and stops only when switched off or at an item its account cannot afford; each accepted item gets its row, a new key a new row with its own account, amount and hold, and there are no other new rows |
| RiskGate.Service.ClaimPending | internal/externalpayments/process.go:34-45 | claims exactly the oldest waiting rows by creation time, at most twenty, and no row that is held or blocked |
| RiskGate.Service.ClaimStuck | internal/externalpayments/process.go:60-76 | claims exactly the longest unattended rows beyond the timeout, at most twenty, and refreshes their attempt time |
| RiskGate.Service.ProcessAll | internal/externalpayments/process.go:48-52 | every listed row the process survives takes its turn in order, scored, sent, settled, failed, held or blocked, and what its turn left stands at the end |
| RiskGate.Service.ProcessPending | internal/externalpayments/process.go:34-53 | claims the at most twenty oldest waiting rows; each one the process survives takes its turn: assessed, sent iff it may pass, then left, failed or completed by what the rail says |
| RiskGate.Service.ResolveStuck | internal/externalpayments/process.go:60-84 | claims the at most twenty longest unattended rows beyond 120 seconds, and each one the process survives takes its turn |
| RiskGate.Service.OthersKeepValid | internal/externalpayments/process.go:86-98 | ledger calls that use neither its keys nor its holds leave the service valid |
| Claims.OldestFirst | internal/externalpayments/process.go:36-38 | picks the oldest candidates in order: one left out means a full batch of no younger ones |
| Payee.Levenshtein | internal/payee/payee.go:52-71 | the two-row loop computes the distance of the full table |
| Payee.FillRow | internal/payee/payee.go:58-68 | one inner loop turns the previous row into the next |
| Payee.ComputeMin3 | internal/payee/payee.go:73-82 | the least of the three |
| Payee.DistanceIsShortestScript | internal/payee/payee.go:52-71 | the distance is at most n iff some script of at most n inserts, deletes and substitutions turns one string into the other |
| Payee.NoScriptIsShorter | internal/payee/payee.go:52-71 | no edit script is shorter than the distance |
| Payee.ZeroIffEqual | internal/payee/payee.go:52-71 | the distance is zero iff the strings are equal |
| Payee.Symmetric | internal/payee/payee.go:52-71 | the distance is symmetric |
| Payee.Triangle | internal/payee/payee.go:52-71 | the distance obeys the triangle inequality |
| Payee.NormalizeIdempotent | internal/payee/payee.go:46-49 | normalizing twice is normalizing once |
| Payee.NormalizeWord | internal/payee/payee.go:46-49 | white space before the first word is dropped, the word lower-cased, and one space separates it from what the rest is normalized to |
| Text.ContainsIff | internal/payee/payee.go:33 | a text contains a part iff it is something, the part, and something |
| Payee.Check | internal/payee/payee.go:23-40 | classifies the two normalized names |
| Payee.CheckIsSymmetric | internal/payee/payee.go:23-40 | it does not matter which name was typed |
| Payee.NoMatchIff | internal/payee/payee.go:23-40 | a match iff the names are equal; no match iff they differ and one is empty, or neither contains the other and every edit script needs more than two edits |
| CoolingOffRows.ImmediateIff | internal/coolingoff/coolingoff.go:166-175 | money moves at once iff the name matches, the amount is ordinary and the payee was paid before |
| CoolingOffRows.PaidBeforeIff | internal/coolingoff/coolingoff.go:179-195 | a payee was paid before iff one posted, unreversed transfer has a negative entry on the sender and a positive one on the payee |
| CoolingOffRows.PaidPayeeIsKnown | internal/coolingoff/coolingoff.go:179-195 | a payee paid by a standing transfer is not a first-time payee |
| CoolingOffRows.RetryOnce | internal/coolingoff/release.go:65-86 | a full release after one that died anywhere ends where a full release alone ends |
| CoolingOffRows.RetriesAreHarmless | internal/coolingoff/release.go:65-86 | the same after any number of attempts that died anywhere |
| CoolingOffRows.MaturedTransferPays | internal/coolingoff/release.go:65-86 | with nothing between release and transfer the transfer always goes through, exactly once, and the sender's available balance does not move |
| CoolingOff.CancelledNeverPays | internal/coolingoff/coolingoff.go:222-243 | when calls run alone a cancelled row never pays and its hold stays released |
| CoolingOff.AttemptKeepsOk | internal/coolingoff/release.go:65-86 | an attempt cut short anywhere leaves a row that a later attempt can take up |
| CoolingOff.Service.Send | internal/coolingoff/coolingoff.go:103-164 | pays at once iff switched on, the name matches, the amount is below 50 million, a standing transfer paid the payee before, and the ledger takes the transfer; otherwise holds back, for 120 seconds with its own hold, iff confirmed where needed, the key is new and the money is there |
| CoolingOff.Service.PlaceHold | internal/coolingoff/coolingoff.go:197-218 | records the row with its new hold; a repeated key is refused but leaves its hold active and unowned |
| CoolingOff.Service.Cancel | internal/coolingoff/coolingoff.go:222-243 | acts iff the row is pending and belongs to the caller; releases the hold and closes the row |
| CoolingOff.Service.FinalizeRelease | internal/coolingoff/release.go:65-86 | runs the release statements up to the crash point, no other row changed |
| CoolingOff.Service.ClaimDue | internal/coolingoff/release.go:44-53 | claims exactly the matured pending rows with the earliest release times, at most twenty |
| CoolingOff.Service.ClaimStuck | internal/coolingoff/release.go:36-42 | picks up the rows an earlier crash left processing, earliest release first, at most twenty |
| CoolingOff.Service.ReleaseMatured | internal/coolingoff/release.go:34-63 | works through the at most twenty earliest stuck rows and the at most twenty earliest due ones; every due row, and every stuck one still reserved or already paid, completes when not cut short; no other row changes |
| CoolingOffRace.PaidAtMostOnce | internal/coolingoff/release.go:34-86 | in every interleaving with crashes at most one transaction is posted under the row key: the row's own transfer entry for entry, or what an earlier immediate payment posted and nothing new; a completed row names the row's own transfer |
| CoolingOffRace.CleanCancelNeverPays | internal/coolingoff/coolingoff.go:222-243 | a cancellation whose update finds the row pending is final: never paid, hold released |
| CoolingOffRace.CancelIsFinalIff | internal/coolingoff/coolingoff.go:239-242 | when a cancellation marks the row, no continuation pays it iff its key was used before it was submitted, or is unused and no ticker is in flight or the payee does not exist |
| CoolingOffRace.CancelledRowCanPay | internal/coolingoff/coolingoff.go:239-242 | every pending row can be paid and still end up cancelled when a ticker claims it inside a cancellation |
| CoolingOffRace.AloneReleases | internal/coolingoff/release.go:65-86 | a ticker nobody disturbs does to a due row, or to one left processing, what one full release attempt does |
| CoolingOffRace.AloneCancels | internal/coolingoff/coolingoff.go:222-243 | a cancellation nobody disturbs cancels a pending row and releases its hold |
| Calendar.NormalizeIsSameDay | internal/scheduler/scheduler.go:246-260 | normalizing a date names the same day by a date that exists |
| Calendar.AdvanceStep | internal/scheduler/scheduler.go:246-260 | a step is exactly one day, seven days, or the length of the current month |
| Calendar.MonthlyKeepsDayIff | internal/scheduler/scheduler.go:255-256 | a monthly step keeps the day of the month iff the next month has that day |
| Calendar.JanuaryThirtyFirstSkipsFebruary | internal/scheduler/scheduler.go:255-256 | 31 January plus a month is 3 March in 2023 |
| Calendar.OccurrencesIncrease | internal/scheduler/scheduler.go:246-260 | occurrences are at least a day apart |
| Scheduler.RunKeysDiffer | internal/scheduler/scheduler.go:161 | equal run keys mean the same schedule and the same second |
| Scheduler.PlansAreSound | internal/scheduler/scheduler.go:160-162 | every occurrence of a plan has a run key of its own |
| Scheduler.ClaimKeepsOk | internal/scheduler/scheduler.go:139-155 | a claim succeeds only when no run is open and takes the next occurrence |
| Scheduler.ExecuteKeepsOk | internal/scheduler/scheduler.go:160-199 | an open run can be executed any number of times and die anywhere without breaking the schedule |
| Scheduler.OccurrencesInOrder | internal/scheduler/scheduler.go:102-199 | in every run of claims, crashes, retries, pauses and foreign calls, claimed occurrences are an initial segment of the schedule in increasing time, only the latest unfinished, each paid at most once by a transfer of the planned amount, and none unclaimed paid |
| Scheduler.DoKeepsInv | internal/scheduler/scheduler.go:102-244 | claims, retries, status changes and foreign calls, cut short anywhere, keep the schedule valid and finished runs final |
| Scheduler.FailedRunPaidIff | internal/scheduler/scheduler.go:160-182 | a run completes iff it is allowed and the ledger pays or paid; a failed run moved money iff an earlier attempt already had |
| Scheduler.FailedRunMayHavePaid | internal/scheduler/scheduler.go:160-182 | an attempt that dies after paying, retried under a refusal, is recorded failed although it paid |
| Scheduler.ExecutedIsAttempted | internal/scheduler/scheduler.go:160-182 | an attempt posts one transfer of the planned amount to the payee iff allowed, its key unused and the money there, and else leaves the ledger alone; when not cut short it records completed exactly if its transfer is posted now or was before, and moves the schedule on or ends it |
| Scheduler.RunsFire | internal/scheduler/scheduler.go:102-155 | a due occurrence of an active schedule that nobody claimed is claimed and attempted |
| Scheduler.RunsRetry | internal/scheduler/scheduler.go:203-244 | an open run is attempted again |
| Scheduler.Schedule.ExecuteAndFinalize | internal/scheduler/scheduler.go:160-199 | a run that is allowed, whose key is unused and whose money is there posts its transfer and is completed when not cut short; a refused one leaves the ledger alone and is failed; no other run changes |
| Scheduler.Schedule.Execute | internal/scheduler/scheduler.go:160-199 | pays, records the outcome and advances the schedule, up to the crash point |
| Scheduler.Schedule.FireOnce | internal/scheduler/scheduler.go:139-155 | adds one run for the next occurrence and attempts it, or changes nothing when it was already claimed |
| Scheduler.Schedule.RunDue | internal/scheduler/scheduler.go:102-135 | fires exactly an active schedule whose time has come, and then attempts its transfer |
| Scheduler.Schedule.ResolveStuck | internal/scheduler/scheduler.go:203-244 | claims nothing new, attempts the open run again once it has timed out, and, when not cut short, leaves no run open |
| Scheduler.Schedule.OthersKeepValid | internal/scheduler/scheduler.go:160-162 | ledger calls under other keys leave the schedule valid |
| ResilienceSwitches.ScopeKeysDiffer | internal/resilience/resilience.go:66-70 | different scopes have different keys |
| ResilienceSwitches.ProceedIff | internal/resilience/resilience.go:121-139 | money may move iff the system is writable and no scope is disabled; read-only is named first, then the earliest disabled scope |
| ResilienceSwitches.Service.Snapshot | internal/resilience/resilience.go:143-170 | a copy less than two seconds old is returned as it is; otherwise the tables are read and cached, or nothing is returned |
| ResilienceSwitches.Service.Check | internal/resilience/resilience.go:121-139 | decides on a copy less than two seconds old or on the tables; fails closed when neither is to be had |
| ResilienceSwitches.Service.SetKillSwitch | internal/resilience/store.go:32-45 | writes the switch and clears the snapshot |
| ResilienceSwitches.Service.SetReadOnly | internal/resilience/store.go:67-75 | writes the mode and clears the snapshot |
| ResilienceCache.CheckKeepsInv | internal/resilience/resilience.go:143-170 | each statement of a check or refresh keeps the lock, snapshot and version invariant |
| ResilienceCache.SetKeepsInv | internal/resilience/resilience.go:176-180 | each statement of a setter keeps it: after the invalidation no older snapshot survives |
| ResilienceCache.SettersAreSeen | internal/resilience/resilience.go:121-180 | a check that starts after a setter returned decides on that write or a later one |
| ResilienceCache.StalenessIsBounded | internal/resilience/resilience.go:143-170 | a check misses no write older than two seconds plus the time its snapshot took to read |
| ResilienceCache.AloneDecides | internal/resilience/resilience.go:121-170 | a check nobody disturbs decides within seven statements, on the copy while it is less than two seconds old and else on what the tables hold, which it caches |
| ResilienceCache.AloneSets | internal/resilience/store.go:32-75 | a setter nobody disturbs writes the tables, clears the cache and returns |
| CardLifecycle.StatusMatchesLedger | internal/cards/authorize.go:318-388 | in every interleaving with crashes: settled means captured and one purchase, voided means released and no purchase, charged back means purchase and reversal that cancel |
| CardLifecycle.HoldResolvedOneWay | internal/cards/authorize.go:318-358 | no run both captures and releases the hold |
| CardLifecycle.CapturingKeepsInv | internal/cards/authorize.go:327-330 | the capture under the settlement key, first or repeated, is the one purchase |
| CardLifecycle.ReversingKeepsInv | internal/cards/authorize.go:378-380 | the caller goes on to mark the charge back only when a reversal exists |
| CardLifecycle.MarkingKeepsOk | internal/cards/authorize.go:332-387 | status updates, unguarded or not, never contradict the ledger |
| CardLifecycle.DoKeepsInv | internal/cards/authorize.go:318-388 | every action of every caller keeps the invariant |
| CardLifecycle.SettledCanBeReversed | internal/cards/authorize.go:332-336 | overlapping settlements around a charge back leave the row settled although its purchase was reversed |
| CardLifecycle.MarkedSettledIsReversedIff | internal/cards/authorize.go:332-336 | a row marked settled names a reversed purchase iff the transaction is already in state reversed at that update |
| CardLifecycle.ReversedIffAsked | internal/cards/authorize.go:378-380 | over a run a transaction becomes reversed iff a chargeback or a foreign reversal asked for it under an unused key while the ledger had nothing against it |
| CardLifecycle.SettledStandsIff | internal/cards/authorize.go:318-388 | in every run a settled row's purchase stands iff no chargeback and no foreign reversal asked to reverse it under an unused key with nothing against it |
| CardLifecycle.AloneSettles | internal/cards/authorize.go:318-337 | a settlement nobody disturbs settles an approved authorization iff the ledger captures its hold |
| CardLifecycle.AloneVoids | internal/cards/authorize.go:342-362 | a void nobody disturbs voids an approved authorization iff the ledger releases its hold |
| CardLifecycle.AloneChargesBack | internal/cards/authorize.go:366-388 | a chargeback nobody disturbs marks a settled authorization iff the ledger reverses its purchase |
| CardAuthorizations.Service.ApprovedTodaySum | internal/cards/authorize.go:125-135 | the loop adds up the approved and settled amounts of the day |
| CardAuthorizations.Service.Evaluate | internal/cards/authorize.go:94-123 | declines iff the card is not usable, its category is blocked, the amount is over the transaction limit, the network marker is there, or the approved and settled amounts of the day leave no room; challenges iff otherwise and at least 10 million |
| CardAuthorizations.Service.Authorize | internal/cards/authorize.go:54-84 | a known key changes nothing; otherwise the row the answer demands is recorded, with its hold when approved |
| CardAuthorizations.AnswerHasReason | internal/cards/authorize.go:54-123 | when requests are answered one at a time: declined iff refused or, below the challenge amount, short of money; challenged iff large; approved iff its hold could be placed; the whole new row |
| CardAuthorizations.ApprovedFits | internal/cards/authorize.go:108-135 | what is approved at once leaves the approved and settled amounts of the day within the daily limit |
| CardAuthorizations.AuthorizedKeepsLimits | internal/cards/authorize.go:94-173 | when requests are answered one at a time, what needs no challenge stays within every card's daily limit |
| CardAuthorizations.CompletedKeepsLimits | internal/cards/authorize.go:264-314 | a completed challenge leaves what needs no challenge within every card's daily limit |
| CardAuthorizations.Service.Complete3DS | internal/cards/authorize.go:264-314 | a late or wrong code or lack of money declines; otherwise the hold is placed and the row approved; the daily limit is not consulted |
| CardAuthorizations.ClosingIff | internal/cards/authorize.go:318-388 | run alone, an approved row settles iff the ledger captures its hold and is voided iff it releases it, a settled one is charged back iff the ledger reverses its purchase, and nothing else changes |
| CardAuthorizations.CompletionKeepsLimitIff | internal/cards/authorize.go:287-313 | a successful completion leaves the card within its daily limit iff what was spent before plus the amount is within it |
| CardAuthorizations.TwoChallengesExceedLimit | internal/cards/authorize.go:264-314 | two purchases authorized one after the other from an empty table and then completed spend twice the daily limit |
| CardSpending.AloneIsAuthorized | internal/cards/authorize.go:54-84 | a request whose statements nothing interrupts gets exactly the specified answer |
| CardSpending.OverlapExceedsLimit | internal/cards/authorize.go:94-173 | wherever a day has room for either of two requests but not for both, two overlapping calls approve both and exceed the daily limit |
| CardSpending.RoomOnEmptyTable | internal/cards/authorize.go:94-123 | nothing spent and two equal purchases of more than half the limit are such a moment |
| CardSpending.ApprovalKeepsLimitIff | internal/cards/authorize.go:158-173 | an approval keeps the day's spending within the limit iff the spending at the insert, not the sum read before, leaves room for it |
| CardSpending.CurrentSumHasRoom | internal/cards/authorize.go:108-114 | a sum that did not grow between its reading and the insert leaves room |
| CardSpending.LimitsHoldIff | internal/cards/authorize.go:54-173 | in every run of overlapping requests the limits hold at every moment iff no approval was inserted without room for it |
| Settlement.PayoutKeysDiffer | internal/settlement/cycles.go:130 | payout and reserve keys of all cycles are distinct |
| Settlement.CycleAddsUp | internal/settlement/cycles.go:90-97 | gross is fees plus reserve plus payout, the reserve lies between zero and net, and no more than net is ever sent |
| Settlement.PayoutSplitsNet | internal/settlement/cycles.go:95-97 | with a percentage between 0 and 10000 basis points reserve and payout are non-negative and sum to net |
| Settlement.SettledIsNew | internal/settlement/cycles.go:90-123 | a committed cycle has the unsettled charges' amounts and fees, withholds the reserve percentage of the net rounded down until the hold's days are over, and takes exactly those charges |
| Settlement.CycledRan | internal/settlement/cycles.go:52-140 | a run past its commit makes that one cycle iff something is unsettled and its amounts are not negative, and sends its net less its reserve when that is positive, allowed and not cut short |
| Settlement.ReserveIsPaidWhenDue | internal/settlement/cycles.go:153-200 | a reserve is paid in full once its hold is over and then marked released; before that, and afterwards, nothing happens |
| Settlement.NothingLostOrRepeated | internal/settlement/cycles.go:90-123 | the cycles' gross and fees are exactly the amounts and fees of the charges they took |
| Settlement.EligibleMoveTogether | internal/settlement/cycles.go:53-123 | either no eligible charge is taken or each goes into exactly one new cycle |
| Settlement.SettleKeepsOk | internal/settlement/cycles.go:90-123 | a committed cycle carries exactly the totals of its charges |
| Settlement.DoKeepsOk | internal/settlement/cycles.go:52-200 | every step, cut short anywhere, keeps the books valid |
| Settlement.SettledOnceForAll | internal/settlement/cycles.go:52-200 | over every run a settled charge stays in its cycle, payouts and reserves are each sent at most once, and amounts are never rewritten |
| Settlement.PayoutIsSentIff | internal/settlement/cycles.go:121-137 | the payout of a cycle a run commits is among the transfers of every later run iff something is due, it was not refused, and the run survived the statement that sends it |
| Settlement.PayoutCanBeLost | internal/settlement/cycles.go:121-137 | a run that dies between the commit and the payout leaves 100 due and never sent |
| Settlement.ReleasedMeansSent | internal/settlement/cycles.go:192-194 | a released reserve has been sent, in its full amount |
| Settlement.Merchant.FindEligible | internal/settlement/cycles.go:53-80 | finds exactly the completed, standing, fee-charged charges no cycle took, with their totals |
| Settlement.Merchant.AddUp | internal/settlement/cycles.go:90-94 | adds the amounts and fees of the charges |
| Settlement.Merchant.InsertCycle | internal/settlement/cycles.go:105-119 | puts every charge into the new cycle and moves no other |
| Settlement.Merchant.CommitCycle | internal/settlement/cycles.go:90-123 | commits a cycle of all unsettled charges whose reserve is the percentage of net rounded down, held for the configured days, or nothing when a check refuses its amounts |
| Settlement.Merchant.Create | internal/payouts/payouts.go:64-104 | sends once under a key and records the payout, up to the crash point |
| Settlement.Merchant.RunCycleFor | internal/settlement/cycles.go:52-140 | the whole new state of one run up to the crash point: one new cycle with its reserve withheld and the rest of its net sent; the schedule advances first |
| Settlement.Merchant.ReleaseMaturedReserves | internal/settlement/cycles.go:153-200 | sends only matured reserves; every one that is neither refused nor cut short is sent in full and released |
| FeeApplication.BestIsMostSpecific | internal/fees/fees.go:50-62 | no rule is chosen iff none applies; otherwise no applicable rule is more specific |
| FeeApplication.Resolve | internal/fees/fees.go:42-79 | the loop finds the most specific rule covering the item and computes its fee, cap and tax |
| FeeApplication.ChargedIsMonotoneAndCapped | internal/fees/fees.go:72-76 | for a fixed rule fee and tax are non-negative and grow with the amount, and the cap holds |
| FeeApplication.ChargedIsPrice | internal/fees/fees.go:72-78 | the percentage rounded down plus the fixed part, or the cap if that is less, and on that fee the tax percentage rounded down |
| FeeApplication.ResolvedIsPriced | internal/fees/fees.go:42-79 | nothing when no active rule of the flow covers rail, amount and merchant; otherwise the price of one such that a merchant's own rule comes first and then an exact rail |
| FeeApplication.FeeKeysDiffer | internal/fees/apply.go:104 | every charge and payout has its own fee key |
| FeeApplication.AppliedKeepsOk | internal/fees/apply.go:92-130 | an application cut short anywhere keeps record and ledger consistent |
| FeeApplication.RetryIsHarmless | internal/fees/apply.go:92-130 | an application after one cut short ends where one application alone ends |
| FeeApplication.RecordedEqualsPosted | internal/fees/apply.go:97-129 | each recorded fee is one transaction whose entries take exactly its total from the account and give it to the platform, and never two |
| FeeApplication.BatchRecords | internal/fees/apply.go:52-90 | a batch records only its own sources and rewrites nothing |
| FeeApplication.CrashLeavesPosted | internal/fees/apply.go:104-119 | a crash right after a successful posting leaves the fee posted and not recorded |
| FeeApplication.RetryRecordsPostedIff | internal/fees/apply.go:97-129 | a retry under changed rules records the posted total iff the rules still come to it; another positive total is refused for ever, a zero total is recorded over the posted fee |
| FeeApplication.Service.ApplyOne | internal/fees/apply.go:92-130 | posts and records one fee up to the crash point and keeps the invariant |
| FeeApplication.Service.ApplyFor | internal/fees/apply.go:52-90 | every source of the batch that is not cut short is recorded if nothing is due or the ledger accepts its transfer at its turn; what is recorded is the price list's breakdown |
| FeeSettlement.FeeWasPosted | internal/fees/apply.go:97-129 | a charge's recorded fee, zero or not, is what the transaction under its key gave the platform |
| FeeSettlement.FeesDeductedWerePosted | internal/settlement/cycles.go:90-97 | in every run of charges, fees, cycles and crashes, the fees a cycle deducts are the sum of the posted fee transactions of the charges it took |
| FeeSettlement.StepsAct | internal/fees/apply.go:52-130 | every step that can act does: a charge is added with its item, an accepted fee of a completed charge is recorded in both tables, a cycle runs |
| PendingFigures.ActingKeepsFigures | internal/ledger/holds.go:43-183 | when one row of the three products acts, every other row keeps its hold and key, and the pending figures stay the open rows' sums |
| PendingFigures.TransferStepsAct | internal/externalpayments/process.go:34-126 | a fresh affordable request is queued, a waiting row claimed, a claimed one takes its turn, a held one is decided |
| PendingFigures.CoolingStepsAct | internal/coolingoff/coolingoff.go:197-243 | a fresh affordable request is held back, a pending row of the requester cancelled, a due or stuck one released |
| PendingFigures.CardStepsAct | internal/cards/authorize.go:54-388 | a fresh request is answered, a challenge met, an approved row settled or voided, a settled one charged back |
| PendingFigures.PendingIsOpenRows | internal/ledger/service.go:121-147 | in every serial fault-free run each active hold belongs to exactly one unfinished outbound transfer, pending cooling-off row or approved authorization, and the pending balance of every account is the sum of those rows |

## Left out

- Other currencies: the ledger has no system account for them (internal/ledger/service.go:184-191), so amounts are plain integers.
- 64-bit overflow: amounts are unbounded; the database refuses a bigint overflow, which is one more aborted statement.
- Foreign-key share locks and deadlock detection: they only remove interleavings or abort a transaction, and any transaction may abort at any point in the model.
- Idempotency `expires_at`: written but never read, so keys last forever.
- Row order of the query that collects the entries to reverse: taken as insertion order.
- Rows of equal age when a batch limit cuts between them: the query leaves the choice open; the earliest inserted is taken.
- Two equally specific fee rules: the query leaves the choice open; the earliest row is chosen.
- Account states, ownership and tier limits: other packages' tables; their answers are the parameters named above.
- The text of errors, reasons, references and timestamps stored for display.
- Several rails: one simulated rail stands for the registry.
- SHA-256: an arbitrary function that is assumed collision-free where that is needed.
- Challenge codes, session and password cryptography: whether a code matches is a parameter.
- Unicode: lower-casing is an arbitrary idempotent per-character map that keeps spaces apart from letters.
- Time zones: calendar arithmetic is done in one zone.
- HTTP, JSON, configuration, logging, webhooks, reconciliation, disputes, checkout, onboarding: thin layers around this core.
- Payouts in Settlement are their key and amount; their way through the rail is the subject of ExternalTransfers.
- The schedule's user-facing pause and cancel calls: they only change whether a schedule is active.
- ExternalTransfers.OutboundSettlesOnce: row keys and holds are not used by other ledger calls, which is what the deterministic keys rely on.
- RiskGate.GateHolds: holds when each row is processed in one piece; GateUnderCrashes.BlockedRowIsPaid shows why, and GateUnderCrashes.SentUnclearedIff when.
- RiskGate.Service.Send: the rows stay valid when the ledger has not used a new row's key before.
- CoolingOff.Service.Send: the rows stay valid for keys no row has, and a held-back one also needs its key unused in the ledger.
- Inbound rows that an overlapping investigator blocks while a worker credits them: their failed status is not related to the credit.
- CoolingOff.CancelledNeverPays: holds when calls run alone; CoolingOffRace states what holds under every interleaving.
- Scheduler.OccurrencesInOrder: for one schedule driven by one ticker, whose run keys no other call uses.
- CardAuthorizations.AuthorizedKeepsLimits: for requests answered one at a time; CardSpending says what overlapping ones do.
- CardAuthorizations.AnswerHasReason: for requests answered one at a time; CardSpending says what overlapping ones do.
- CardSpending.LimitsHoldIff: any number of requests overlap; completions, settlements, voids and charge backs run one at a time between their statements, and CardLifecycle says how the last three interleave.
- Settlement.SettledOnceForAll: for one settlement ticker; overlapping ones, of which the primary key of the items (db/migrations/00032_create_settlement.sql:47) lets only one take a charge, are not modelled.
- FeeSettlement.FeesDeductedWerePosted: for one fee ticker and one settlement ticker.
- CardAuthorizations.Service.Authorize: the clock never runs behind a stored creation time, and the card's settings do not change.
- FeeApplication.RecordedEqualsPosted: for rules that do not change; FeeApplication.RetryRecordsPostedIff says what a change does.
- CoolingOffRace.CancelIsFinalIff: the only-if half is for states in which the outside world's account, whose overdraft is unlimited in practice (db/migrations/00007_seed_system_accounts.sql:4-12), can bear the amount.
- PendingFigures.PendingIsOpenRows: for calls that run one at a time without faults under fresh keys; CoolingOff.Service.PlaceHold shows how a repeated key leaves an unowned hold.
