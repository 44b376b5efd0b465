# Kasway in Dafny

Kasway is a payment escrow server: a merchant's invoice is paid into a covenant
on the Kaspa chain and settled from there to the merchant or back to the
customer. This project models the parts of it that decide about money and state,
and proves what they promise.

Each protocol is a state machine over its SQL statements. One statement, or one
submission to the node, is one atomic step on the rows; a process is a program
counter with what it has read; a run is any sequence of events, in any order and
of any length. The handlers and workers themselves appear as classes over the
same rows, and each method is proved to be the uninterrupted run of the process
that the theorems quantify over.

| file | what it models |
|---|---|
| `PaymentRace.dfy` | wallet submissions against the expiry of an invoice |
| `Settlement.dfy` | observer, keeper, releases, refunds and arbiters on one covenant and a single-spend ledger |
| `Billing.dfy`, `BillingRuns.dfy`, `BillingAnchors.dfy`, `Calendar.dfy` | subscription billing that may stop after any statement |
| `WebhookRetry.dfy` | one delivery under the webhook worker |
| `Fees.dfy`, `SplitPlan.dfy`, `Setup.dfy` | gross-up, payout split and storage mass |
| `Escrow.dfy`, `ArbiterPanel.dfy` | covenant parameters from finalize to settlement, its spends, arbiter signatures |
| `SubscriptionCell.dfy` | the claims on a subscription cell |
| `RateLimit.dfy`, `ConfirmationPolicy.dfy`, `Commitment.dfy` | the limiter, the confirmation policy, the configuration commitment |
| `Sorting.dfy`, `Text.dfy`, `Wrappers.dfy` | sorting, stored text forms, optional values |

Some results say where the code does less than a reader may expect:

- A submission that arrives after a completed expiry reopens the invoice but not
  the covenant (`PaymentRace.RevivalHappens`); exactly when the covenant comes
  back is `PaymentRace.CovenantRevivedExactly`. An expiry that crosses a submission
  sets even a covenant nobody has finalized to await its funding
  (`PaymentRace.CrossingSkipsFinalize`).
- A statement that errors out can leave a paid invoice expired
  (`PaymentRace.OneFailureStrands`); exactly when is
  `PaymentRace.TimelySubmissionWins`.
- A spend the node accepts while its reply is lost is never recorded
  (`Settlement.LostReplyIsNeverRecorded`); a spent covenant can still be recorded
  exactly while an actor holds the reply (`Settlement.RecordableExactly`).
- A request whose first write after the broadcast errors out leaves the row
  claimed; exactly which failures do is `Settlement.AloneEndsClaim`.
- A covenant settled to the merchant can leave its invoice unpaid
  (`Settlement.SettledInvoiceCanStayUnpaid`); exactly when is
  `Settlement.OutcomeUnpaidExactly`.
- A crash between inserting an invoice and updating its cycle
  (`BillingRuns.HalfMintedHappens`) freezes that cycle's link and attempt count for
  good (`BillingRuns.HalfMintedIsNeverLinked`, `BillingRuns.CallMintsExactly`),
  although the comment in
  `crates/kasway-api/src/subscription_biller.rs` presents the orphan pass as
  closing the gap; it closes the part before the insert
  (`BillingRuns.OrphanPassInvoices`). A payment of the stranded invoice
  still marks the cycle paid (`BillingRuns.PaymentClosesCycle`).
- A retry past its checks turns a cycle paid meanwhile back to invoiced, with a
  second invoice to pay (`BillingRuns.PaymentIsUndone`); exactly when is
  `BillingRuns.PaymentUndoneExactly`, and with no call past its checks a paid cycle
  stays paid (`BillingRuns.PaidStaysPaid`).
- A pause whose write lands after a cancellation lets a later resume restart
  billing from the present moment (`BillingRuns.LatePauseBreaksTiling`); exactly
  such writes take a live subscription's date away
  (`BillingRuns.DateIsEverLostExactly`), and the periods then are tilings one
  after another (`BillingAnchors.PeriodsAreTilings`), in order unless a resume
  writes a date before the last period or one being billed. Two resumes that write
  in the opposite order of their clock readings can do that
  (`BillingAnchors.TwoResumesBreakOrder`); the guard that is missing is
  `BillingAnchors.AnchorOrderExactly`.
- The script of a subscription cell accounts for the cell's value only until a
  remainder below the sweep threshold is put back under it
  (`SubscriptionCell.ScriptAccounts`, `SubscriptionCell.PutBackIsFree`).
- Monthly billing started late in a month drifts to an earlier day
  (`Calendar.JanuaryPlanDrifts`), the least day of the months visited
  (`Calendar.BillingDayIsLeast`).
- The server accepts more arbiter signatures than the threshold; the script
  takes exactly the threshold (`ArbiterPanel.ScriptTakesExactThreshold`).
- A stored split row with untrimmed text would make the published commitment
  differ from the minted one (`Commitment.PublishedMatchesMinted`); the handlers
  never store such a row (`Commitment.Setups.Write`).

## Model

The first 135 rows are results. The rows from `PaymentRace.RunKeepsInv` on are what they rest on: the
handlers and workers statement by statement, single steps, and parts.

| member | source | states |
|---|---|---|
| PaymentRace.OneDeadline | crates/kasway-api/src/kpr1.rs:569-576 | the intent's deadline is the sooner of the invoice's and fifteen minutes from its own mint, so an invoice and the intent minted after it have the same |
| PaymentRace.NothingExpiresEarly | crates/kasway-api/src/invoice_expirer.rs:33-43 | in every interleaving in which scans and expiries start before the deadline and submissions arrive by it, the invoice stays open, the intent live, and covenant and cycle as they were |
| PaymentRace.PassExpiresExactly | crates/kasway-api/src/invoice_expirer.rs:33-52 | one pass of the expirer expires exactly the open invoices whose deadline has come with no transaction recorded in time, and leaves all other rows as they are |
| PaymentRace.SettledRowsStay | crates/kasway-api/src/handlers/invoices.rs:305-346 | no run of submissions and expiries ever touches a paid, cancelled or refunded invoice or a paid cycle |
| PaymentRace.TimelySubmissionWins | crates/kasway-api/src/handlers/invoices.rs:305-348 | for any number of submitters and expirers interleaved statement by statement, with any statement free to error out: once all have finished and a submission is on record, the intent is submitted, and invoice and cycle are open and invoiced if and only if the last process bound to put them right did not fail |
| PaymentRace.WinsWithoutFailure | crates/kasway-api/src/handlers/invoices.rs:305-348 | where no statement errors out, a timely payment always ends with the invoice open, the intent submitted and the cycle invoiced |
| PaymentRace.OneFailureStrands | crates/kasway-api/src/invoice_expirer.rs:33-52 | one failing statement is enough: a scan that had picked the invoice up expires it after an accepted submission and errors out before its read-back, and the invoice stays expired |
| PaymentRace.CovenantRevivedExactly | crates/kasway-api/src/handlers/invoices.rs:333-338 | once all have finished with a submission on record, the covenant is left retired if and only if it was stranded: claimed for when already retired with no expiry under way or to come, or given up by the last expiry to fail; it awaits its funding if and only if it was not stranded and either was finalized or was ever retired; a covenant nobody finalized or retired stays pending |
| PaymentRace.CrossingSkipsFinalize | crates/kasway-api/src/handlers/invoices.rs:333-338 | where an expiry crosses a submission, an intent nobody has finalized ends up awaiting the funding of a covenant that was never derived |
| PaymentRace.RevivalHappens | crates/kasway-api/src/handlers/checkout.rs:131-136 | a finalized invoice that expires before a submission received in time ends accepted and open beside a retired covenant |
| PaymentRace.DutyHasHolder | crates/kasway-api/src/handlers/invoices.rs:321-346 | at every moment of every run, an expired invoice, past-due cycle or retired covenant beside a recorded transaction has a process bound to put it right, if and only if the run has not stranded it |
| PaymentRace.AcceptedAgree | crates/kasway-api/src/handlers/checkout.rs:107-129 | in every run each accepted submission carries the transaction id on record, and what is on record was received by the signed deadline |
| PaymentRace.SubmissionIsFinal | crates/kasway-api/src/handlers/checkout.rs:112-118 | transaction id and time of submission are written once and never change afterwards |
| PaymentRace.RevivalLeavesCovenant | crates/kasway-api/src/handlers/checkout.rs:107-136 | an accepted submission writes exactly transaction, time of receipt and status, reopens an invoice received in time and a past-due cycle, and leaves the covenant state as it found it |
| PaymentRace.AcceptedExactly | crates/kasway-api/src/handlers/checkout.rs:54-129 | with nothing interfering, a submission is accepted if and only if the invoice is open or expired, the intent takes submissions, the store is entitled, it was received by the deadline, it carries an id that conflicts with none on record, and it asks for no relay |
| PaymentRace.RefusedExactly | crates/kasway-api/src/handlers/checkout.rs:54-105 | exactly when each refusal is given, in the handler's order of checks; a late submission leaves what an expiry leaves, any other refused one leaves the rows alone |
| PaymentRace.ExpiryAlone | crates/kasway-api/src/handlers/invoices.rs:305-348 | the expiry handler on whatever rows leaves exactly these: beside a transaction recorded in time invoice, intent, covenant and cycle revived, otherwise what is open and unpaid closed; and answers whether it closed an open invoice |
| PaymentRace.ExpiryClosesUnpaid | crates/kasway-api/src/handlers/invoices.rs:307-320 | expiring an unpaid invoice leaves exactly these rows: invoice and intent expired, an unfunded covenant retired, a first failure reason kept, an unpaid cycle past due since the first time |
| PaymentRace.ExpirySparesSubmitted | crates/kasway-api/src/handlers/invoices.rs:321-346 | expiring an invoice with a timely submission on record undoes itself and brings a retired covenant back |
| Settlement.SettlementIsExclusive | crates/kasway-api/src/covenant_keeper.rs:213-236 | in every run from a finalized intent at most one actor is between winning its claim and its terminal or restore write, and the row carries that actor's claim |
| Settlement.RestoreIsSafe | crates/kasway-api/src/covenant_keeper.rs:657-666 | a restore that changes the row gives back the actor's own claim; it never undoes a terminal state or another actor's claim |
| Settlement.ClosedIsLeftAlone | crates/kasway-api/src/covenant_keeper.rs:200-210 | a settlement that loads a row that is not funded, whose invoice is not open or, for the keeper, before the capture time, changes neither rows nor ledger, whatever would go right or wrong |
| Settlement.ActorsLoadedOpen | crates/kasway-api/src/covenant_keeper.rs:622-640 | in every run, whoever gets past its load found the row funded, the invoice open and, as the keeper, the capture time past |
| Settlement.ClosedLoadNeverActs | crates/kasway-api/src/covenant_keeper.rs:622-640 | an actor that loads such a row is done for good: no statement of its ever changes rows or ledger |
| Settlement.RefusedSpendIsUndone | crates/kasway-api/src/covenant_keeper.rs:589-613 | a broadcast that is not sent or not accepted leaves rows and ledger as they were once the claim is given back |
| Settlement.OutcomeAgreesWithChain | crates/kasway-api/src/covenant_keeper.rs:329-360 | with a ledger that spends every output once and replies that may get lost: a recorded terminal state names the branch that really spent the covenant and its transaction; a paid invoice implies a merchant-side outcome with its release id, a refunded one a refunded covenant; never both ids |
| Settlement.OutcomeUnpaidExactly | crates/kasway-api/src/covenant_keeper.rs:353-360 | beside a merchant-side outcome the invoice is unpaid if and only if no invoice write of the run that worked found it open, or a cancellation landed after every one that did |
| Settlement.SettledInvoiceCanStayUnpaid | crates/kasway-api/src/covenant_keeper.rs:353-360 | a fresh intent can be funded and released to the merchant while its invoice expires before the invoice write, and stays unpaid |
| Settlement.TerminalIsFinal | crates/kasway-api/src/covenant_keeper.rs:643-666 | a recorded outcome and its transaction ids never change again |
| Settlement.LostReplyIsNeverRecorded | crates/kasway-api/src/covenant_keeper.rs:283-289 | from a fresh intent, after any run: when an actor's broadcast is accepted and the reply is lost, no later run of anything records an outcome, beside a spent covenant |
| Settlement.RecordableExactly | crates/kasway-api/src/covenant_keeper.rs:283-289 | in every reachable state with the covenant spent and no outcome recorded, some continuation records one if and only if an actor still holds the node's reply |
| Settlement.RepliesCanBeLost | crates/kasway-api/src/covenant_keeper.rs:582-613 | a fresh intent can be funded and released up to a broadcast whose reply is lost |
| Settlement.FundedIsJustified | crates/kasway-api/src/chain_observer.rs:129-144 | the covenant counts as funded only after it was selected awaiting the funding of an open invoice with a transaction on record, and looked at, at some event of the run, with outputs to the covenant address that sum to exactly the gross and an accepting score as far behind the virtual one as the tenant's policy at that event asks for this intent's network, asset, currency and total, at least ten |
| Settlement.VerdictExactly | crates/kasway-api/src/chain_observer.rs:210-258 | a verdict funds the row if and only if exactly the gross was paid and accepted at least the required scores ago, and fails it if and only if any other amount was paid |
| Settlement.FailureIsFinal | crates/kasway-api/src/chain_observer.rs:384-420 | a failed verification is never left and raises at most one anomaly signal |
| Settlement.FailureIsSignalled | crates/kasway-api/src/chain_observer.rs:384-420 | where the observer never crashes, exactly the failed verifications have their one anomaly signal once it has moved on |
| Settlement.AloneEndsClaim | crates/kasway-api/src/covenant_keeper.rs:213-236 | left to itself after a won claim, an actor leaves the row claimed if and only if the write that ends its claim errors out: with a reply, the intent write and, for the keeper, the restore as well; without one, the restore; it leaves it settled if and only if the reply arrives and the intent write works |
| Settlement.SettlesWhenAllWorks | crates/kasway-api/src/covenant_keeper.rs:195-296 | when the covenant output and the fee input are unspent, the keeper's capture time is past and nothing errors out, exactly those two are spent under the actor's own branch, its outcome, transaction, invoice and cycle are recorded, and nothing else changes |
| Fees.CustomerPaidAmounts | crates/kasway-api/src/kpr1.rs:99-123 | the gross-up terminates within about 10000/(10000-bps) downward steps and returns the least total whose value after the platform fee covers the request, with the two refusals exactly where the code has them |
| Fees.GrossUpUnique | crates/kasway-api/src/kpr1.rs:97-123 | the defining property of the gross-up has one solution |
| Fees.InvoiceAmounts | crates/kasway-api/src/handlers/invoices.rs:914-933 | an invoice is created with the exact subtotal and, when the customer pays, its gross-up; too large an amount is the only other outcome |
| Fees.SubtotalCounts | crates/kasway-api/src/handlers/invoices.rs:917-923 | every line counts its price times its quantity in the subtotal, wherever it stands |
| SplitPlan.OutputsJson | crates/kasway-api/src/kpr1.rs:365-391 | printing a plan's outputs and parsing them back drops and changes nothing |
| SplitPlan.AcceptedPlanConserves | crates/kasway-api/src/kpr1.rs:470-496 | every accepted plan sums exactly to the amount in at most eight outputs, the merchant's first, all positive but possibly the platform's own |
| SplitPlan.AcceptedPlanPays | crates/kasway-api/src/kpr1.rs:365-391 | its outputs pay the merchant, the tax if there is one, every split and the configured fee address, each its own slice, in that order |
| SplitPlan.PlanAcceptedExactly | crates/kasway-api/src/kpr1.rs:397-526 | a plan is accepted if and only if the amount reaches the minimum, merchant and fee addresses are Kaspa addresses, tax and splits resolve, the rates fit the whole, every slice due is positive, the merchant is left with something and the storage mass is at most 450,000; and it is then the plan of these terms |
| SplitPlan.AcceptedPlanShares | crates/kasway-api/src/kpr1.rs:470-490 | platform fee, tax and every split of an accepted plan are each their own configured share of the amount, rounded down |
| SplitPlan.GrossUpFundsSubtotal | crates/kasway-api/src/kpr1.rs:470-485 | the plan for a gross-up total charges exactly the announced platform fee and leaves merchant, tax and splits at least the subtotal |
| SplitPlan.PickFeeUtxo | crates/kasway-api/src/covenant_keeper.rs:55-64 | the pick is the largest output that leaves enough change, ties by id and index, and there is none only if no output qualifies |
| SplitPlan.PickIsDeterministic | crates/kasway-api/src/covenant_keeper.rs:52-64 | the order the node lists outputs in does not change the pick |
| SplitPlan.ReleaseFitsMassCap | crates/kasway-api/src/kpr1.rs:498-514 | for every accepted plan and every pick, payouts plus change weigh at most 459,999, below the 500,000 cap |
| SplitPlan.DefaultRateAccepted | crates/kasway-api/src/kpr1.rs:404-423 | at 2% with no tax and no splits an amount is accepted if and only if it is at least two KAS |
| Text.ParsePrintInt | crates/kasway-api/src/kpr1.rs:300 | an amount survives being stored as decimal text |
| Escrow.FinalizeRebuild | crates/kasway-api/src/covenant_keeper.rs:468-520 | for every row finalize stores, settlement rebuilds the same parameters and derives the stored address again, whatever panel is configured by then |
| Escrow.FinalizeIsIdempotent | crates/kasway-api/src/kpr1.rs:810-818 | a second finalize answers with the first covenant and its refund address, whatever it asks for |
| Escrow.FinalizedExactly | crates/kasway-api/src/kpr1.rs:783-896 | a covenant is derived if and only if the intent is pending or has none, the invoice is open, the deadline is not over and its parameters can be read and compiled; an existing one is answered if and only if the intent has left pending with it |
| Escrow.StoredTerms | crates/kasway-api/src/kpr1.rs:826-896 | finalize bakes in the refund address asked for, the merchant and payouts of the stored outputs, the configured panel, the gross, and a capture time of exactly 1000 times the expiry; the stored address is that of the script compiled from them; no other column changes |
| Escrow.ConfiguredExactly | crates/kasway-api/src/kpr1.rs:921-939 | the panel is the configured one key by key and the threshold the configured one held between one and the number of keys; without a panel it is the server's own key alone |
| Escrow.RebuiltTerms | crates/kasway-api/src/covenant_keeper.rs:468-520 | settlement reads a covenant if and only if all its columns can be read, with its own terms and panel, or the panel configured now for a row without one |
| Escrow.AcceptedPlanCompiles | crates/kasway-covenant/src/escrow_v2.rs:59-92 | the outputs of an accepted plan never trip the constructor's checks on payouts: it succeeds if and only if the parties are P2PK, the threshold fits the panel and the capture time fits 64 bits |
| Escrow.StoredPlanParties | crates/kasway-api/src/kpr1.rs:833-852 | the parties read from the stored outputs of an accepted plan are its merchant and its payouts in order |
| Escrow.SpendsSatisfyScript | crates/kasway-covenant/contracts/escrow_v2.sil:50-66 | the outputs built for a release or refund satisfy the compiled script if and only if the covenant output holds exactly the gross |
| Escrow.SpendsBalance | crates/kasway-covenant/src/lib.rs:344-373 | release, refund and mutual settlement each spend exactly covenant plus fee input |
| Escrow.SpendsPayParties | crates/kasway-covenant/src/lib.rs:344-373 | release, refund and agreed settlement pay exactly their parties in order, to the sompi, and then at most the fee payer |
| Escrow.ParseSplit | crates/kasway-api/src/covenant_keeper.rs:1022-1037 | an agreed split is accepted exactly when it is not empty, every address parses and it sums to the gross |
| Text.DecodeEncode | crates/kasway-api/src/util.rs:62-85 | a 32-byte key survives being stored as hex and read through the trimming reader |
| ArbiterPanel.PrepareArbiterSignatures | crates/kasway-api/src/covenant_keeper.rs:422-452 | signatures are accepted if and only if indices are distinct and inside the panel, each has 65 bytes and the count reaches the threshold; the answer pairs the same signatures with strictly increasing indices |
| ArbiterPanel.ArrangementUnique | crates/kasway-api/src/covenant_keeper.rs:426-451 | there is one such arrangement, independent of the order of arrival |
| ArbiterPanel.ScriptTakesExactThreshold | crates/kasway-covenant/contracts/escrow_v2.sil:72-83 | of the sets the server accepts, the script takes exactly those of threshold size |
| ArbiterPanel.ThreeOfTwoOfThree | crates/kasway-covenant/contracts/escrow_v2.sil:72-75 | three signatures of a 2-of-3 panel are accepted by the server and refused by the script |
| SubscriptionCell.ScriptLifetime | crates/kasway-covenant/contracts/subscription_v1.sil:31-57 | for any spends the claim script accepts, whoever built them: unless one puts a remainder below the sweep threshold back under the covenant, V is exactly n*C and what is left in the cell or swept; in any case spends are a period apart and only dust below the threshold is swept |
| SubscriptionCell.ScriptAccounts | crates/kasway-covenant/contracts/subscription_v1.sil:37-56 | as long as the spends before the last one leave at least the threshold, n spends take exactly n*C and V holds that much; when the last one does too, the cell holds exactly V - n*C |
| SubscriptionCell.PutBackIsFree | crates/kasway-covenant/contracts/subscription_v1.sil:46-56 | where the accounting ends: a remainder below the threshold may be put back under the covenant at any value the spender chooses |
| SubscriptionCell.CellLifetime | crates/kasway-covenant/src/subscription_v1.rs:115-159 | every run of built claims takes out exactly the claim total each time, is spaced by the period, and leaves V = n*C + remaining cell or dust below the threshold |
| SubscriptionCell.ScriptPinsRemainder | crates/kasway-covenant/contracts/subscription_v1.sil:46-56 | the script leaves no choice about payouts or about a remainder of at least the threshold |
| SubscriptionCell.ClaimsAreBounded | crates/kasway-covenant/src/subscription_v1.rs:56-62 | a cell of value V with claim total C > 0 sees at most V/C claims |
| SubscriptionCell.ClaimIsSound | crates/kasway-covenant/src/subscription_v1.rs:115-139 | a claim's outputs satisfy the script, return or sweep exactly the remainder, and balance inputs against outputs, fee and dust |
| SubscriptionCell.ClaimMatchesOutputs | crates/kasway-covenant/src/subscription_v1.rs:146-159 | a claim is possible exactly when the lock has run out and the builder succeeds, and the next cell is what the outputs put back |
| SubscriptionCell.CellCompilesExactly | crates/kasway-covenant/src/subscription_v1.rs:58-103 | the cell compiles if and only if one to eight payouts sum to a 63-bit amount, the customer is a key, the period is between 1 and 2^32-1 and the threshold fits 63 bits |
| RateLimit.AtMostTwiceTheLimit | crates/kasway-api/src/rate_limit.rs:8-11 | for every ordered trace, whatever came before, any half-open minute admits at most 240 requests of one address |
| RateLimit.PoliteNeverRefused | crates/kasway-api/src/rate_limit.rs:60-71 | an address with at most 120 requests in every such minute is never refused, whatever others do |
| RateLimit.TwiceTheLimitIsReached | crates/kasway-api/src/rate_limit.rs:8-11 | the bound of twice the limit is reached |
| ConfirmationPolicy.ResolvePolicy | crates/kasway-api/src/handlers/payment_ops_settings.rs:64-98 | the result is the maximum of 10, the tenant's default and all matching overrides, and is marked clamped exactly when all of these are below 10 |
| ConfirmationPolicy.MatchesExactly | crates/kasway-api/src/handlers/payment_ops_settings.rs:75-80 | an override applies if and only if the payment has the network, asset and currency it names and reaches its threshold, an unreadable one counting as zero |
| ConfirmationPolicy.PolicyReadsBack | crates/kasway-api/src/handlers/payment_ops_settings.rs:40-62 | a normalized policy, stored, is read back unchanged, overrides in order |
| ConfirmationPolicy.RequiredIgnoresOrder | crates/kasway-api/src/handlers/payment_ops_settings.rs:74-85 | the order of the overrides does not matter |
| Commitment.PublishedMatchesMinted | crates/kasway-api/src/handlers/setups.rs:53-93 | whenever both succeed, the published and the minted commitment input are equal if and only if every stored split row is trimmed |
| Commitment.StoredSetupResolves | crates/kasway-api/src/handlers/setups.rs:139-210 | where the handlers' checks on percentages and the minter's reading of them agree, no section the handlers store trips the minter's checks on tax and splits, and every split is minted as stored |
| Commitment.PublishedExactly | crates/kasway-api/src/handlers/setups.rs:53-95 | a store publishes its configuration if and only if its address is a Kaspa address, a tax that is on has a readable rate, and the rows of splits that are on have an identifier, an address and a readable rate |
| Commitment.StoredEntryReadsBack | crates/kasway-api/src/handlers/setups.rs:162 | publisher and minter read a stored entry back with its own identifier, address and rate |
| Commitment.CommitmentIgnoresOrder | crates/kasway-api/src/kpr1.rs:161-185 | the committed input is the same for every permutation of splits with distinct identifiers |
| Commitment.CommitmentBindsTerms | crates/kasway-api/src/kpr1.rs:154-185 | two plans commit to the same input if and only if merchant, tax, splits and platform fee are the same |
| Commitment.NormalizeSplits | crates/kasway-api/src/handlers/setups.rs:139-177 | a split list is accepted exactly when every row is, no identifier or address repeats and the whole is not exceeded; the entries are the rows in order |
| Calendar.IteratesIncrease | crates/kasway-api/src/handlers/subscriptions.rs:403-411 | later iterates of an interval are strictly later, under month-end clamping too |
| Calendar.MonthsAreNeverSkipped | crates/kasway-api/src/handlers/subscriptions.rs:407-408 | the n-th iterate of a monthly or yearly plan lies exactly n intervals of months after the start: no month skipped or billed twice |
| Calendar.DaysAreCounted | crates/kasway-api/src/handlers/subscriptions.rs:405-406 | the n-th iterate of a daily or weekly plan lies exactly n intervals of calendar days after the start |
| Calendar.BillingDayIsLeast | crates/kasway-api/src/handlers/subscriptions.rs:407-408 | the n-th billing day of a monthly or yearly plan is the least of the starting day and the lengths of the months visited so far, which the start month and the interval alone determine |
| Calendar.BillingDayIsKept | crates/kasway-api/src/handlers/subscriptions.rs:407-408 | the billing day is still that of the start if and only if every month visited has that day |
| Calendar.BillingDayOnlyShrinks | crates/kasway-api/src/handlers/subscriptions.rs:407-408 | the billing day never grows back after a short month, never falls below 28, and never changes for a start by the 28th |
| Calendar.JanuaryPlanDrifts | crates/kasway-api/src/handlers/subscriptions.rs:403-411 | monthly billing from 31 January runs on the 28th from March on |
| Calendar.IsoOrder | crates/kasway-api/src/util.rs:131-135 | comparing stored timestamps as text compares them in time, and equal text means the same moment |
| BillingRuns.PeriodsTile | crates/kasway-api/src/handlers/subscriptions.rs:508-540 | for a crash after any statement and any requests in between: unless a resume has re-anchored billing, the periods are exactly the first n iterates from the start, and the billing date is the n-th iterate or the last period's start |
| BillingRuns.PeriodsIncrease | crates/kasway-api/src/handlers/subscriptions.rs:516-533 | periods are strictly increasing, adjacent and never repeated |
| BillingRuns.LiveSubscriptionIsOnTile | crates/kasway-api/src/handlers/subscriptions.rs:669-698 | as long as no pause or resume has written over a cancelled subscription without a date, billing is never re-anchored and a live subscription has its date on the tiling |
| BillingRuns.DateIsEverLostExactly | crates/kasway-api/src/handlers/subscriptions.rs:658-698 | over a whole run, a live subscription is ever without its billing date if and only if a pause or resume wrote over a cancelled one that had none |
| BillingRuns.StatusGuardKeepsDate | crates/kasway-api/src/handlers/subscriptions.rs:658-660 | the guard the UPDATE lacks: where cancelled rows are those without a date, a pause or resume write keeps the date of a live subscription if and only if the row is not cancelled at the write |
| BillingAnchors.PeriodsAreTilings | crates/kasway-api/src/handlers/subscriptions.rs:676-682 | in every run, re-anchored or not, in which no resume writes a date before the last period or one being billed, the periods are a concatenation of tilings, each from the start of the subscription or from a date a resume wrote |
| BillingAnchors.PeriodsStillIncrease | crates/kasway-api/src/handlers/subscriptions.rs:516-533 | across all stretches of such a run later periods start strictly later |
| BillingAnchors.AnchorOrderExactly | crates/kasway-api/src/handlers/subscriptions.rs:656-682 | the guard the resume lacks: once the date it wrote is billed, the periods are still in order if and only if that date is later than the start of the last period, or already the start of one |
| BillingAnchors.TwoResumesBreakOrder | crates/kasway-api/src/handlers/subscriptions.rs:656-682 | two resumes of the same dateless row that write in the opposite order of their clock readings, billed in between, give a second period that starts before the first, with a clock that only goes forward |
| BillingAnchors.PeriodsAreIterates | crates/kasway-api/src/handlers/subscriptions.rs:516-533 | in every run whatever, each period starts at an iterate of the interval from the start of the subscription or from a date a resume wrote |
| BillingAnchors.PeriodsAreDistinct | crates/kasway-api/src/handlers/subscriptions.rs:523-533 | in every run whatever, no two periods share a start and each lasts one interval |
| BillingRuns.LatePauseBreaksTiling | crates/kasway-api/src/handlers/subscriptions.rs:658-672 | a pause that loads before a cancellation and writes after it makes the next periods leave the tiling |
| BillingRuns.OneInvoicePerAttempt | crates/kasway-api/src/handlers/subscriptions.rs:434-464 | in every crash-and-retry run a cycle with k counted attempts has exactly one invoice for each of 1..k, at most one for k+1 and no other |
| BillingRuns.HalfMintedIsNeverLinked | crates/kasway-api/src/handlers/invoices.rs:889-900 | once the next attempt of a cycle has its invoice and no call is left to count it, no later pass, retry, request or payment ever counts it or links it |
| BillingRuns.CallMintsExactly | crates/kasway-api/src/handlers/subscriptions.rs:416-464 | an undisturbed call mints, links and counts a new attempt if and only if the cycle is neither paid nor cancelled, has no invoice (for a retry: is past due) and that attempt has none yet; otherwise it changes nothing; and exactly when it succeeds |
| BillingRuns.HalfMintedHappens | crates/kasway-api/src/handlers/subscriptions.rs:460-464 | a crash or an error right after the first due period's invoice leaves that cycle half minted and orphaned |
| BillingRuns.PaymentClosesCycle | crates/kasway-api/src/covenant_keeper.rs:364-376 | a payment of any invoice of a cycle, a stranded one too, marks its cycle paid, and where no call is past its checks on that cycle nothing ever touches it again |
| BillingRuns.PaidStaysPaid | crates/kasway-api/src/handlers/subscriptions.rs:416-432 | a paid cycle is never invoiced or changed again in any run that starts with no call past its checks on it |
| BillingRuns.PaymentUndoneExactly | crates/kasway-api/src/handlers/subscriptions.rs:434-464 | a call past its checks turns a cycle paid meanwhile back to invoiced if and only if it gets to its link, that is, it is past the guards or its attempt has no invoice yet; otherwise the cycle stays paid |
| BillingRuns.PaymentIsUndone | crates/kasway-api/src/handlers/subscriptions.rs:460-464 | a run from a fresh subscription: the first invoice is paid while a retry is minting the second, and the retry turns the paid cycle back to invoiced |
| BillingRuns.CatchUpBillsEveryDuePeriod | crates/kasway-api/src/subscription_biller.rs:74-85 | a subscription that slept through periods is billed for every due one in order, up to the cap, and otherwise ends with its date in the future |
| BillingRuns.TickBillsEveryDuePeriod | crates/kasway-api/src/subscription_biller.rs:71-106 | a whole tick in which nothing errors out bills exactly the due periods, at most a hundred, where no earlier cycle lacks its invoice |
| Billing.InactiveIsIdle | crates/kasway-api/src/subscription_biller.rs:61-96 | a tick leaves a subscription that is not active entirely alone, whatever is due or orphaned |
| BillingAnchors.InactiveAddsNoPeriod | crates/kasway-api/src/handlers/subscriptions.rs:508-515 | in every run from a paused or cancelled subscription, until a resume is asked for, no period is added or moved and the billing date stays or goes |
| BillingRuns.StoppedBillingResumes | crates/kasway-api/src/handlers/subscriptions.rs:523-539 | after a stop before the advance, the next call bills the period already created and advances |
| BillingRuns.OrphanPassResumes | crates/kasway-api/src/handlers/subscriptions.rs:416-464 | after a stop past the advance, the orphan pass mints the missing first invoice |
| BillingRuns.OrphanPassInvoices | crates/kasway-api/src/subscription_biller.rs:87-103 | the orphan pass gives every picked-up cycle without an invoice its first one and touches no other cycle |
| WebhookRetry.AttemptsAreBounded | crates/kasway-api/src/webhook_worker.rs:303-343 | under any profile changes and crashes at most 7 attempts are recorded, each no earlier than the previous one plus its backoff, and only crashes add further requests |
| WebhookRetry.FailsAfterWholeBackoff | crates/kasway-api/src/webhook_worker.rs:315-326 | under one profile a delivery fails at exactly its maximum of attempts, after backoffs adding up to base * (2^(max-1) - 1) that really pass |
| WebhookRetry.ProfileBackoffs | crates/kasway-api/src/webhook_worker.rs:52-58 | the three profiles fail after 3, 5 and 7 attempts with 90, 900 and 945 seconds of backoff |
| WebhookRetry.OutcomeIsFinal | crates/kasway-api/src/webhook_worker.rs:131-166 | succeeded and failed are never left, and nothing is sent or recorded afterwards |
| WebhookRetry.SuccessWasAccepted | crates/kasway-api/src/webhook_worker.rs:268-279 | in every run, a delivery counts as succeeded only after an answer of success to a request really sent |
| WebhookRetry.TickAttemptsExactly | crates/kasway-api/src/webhook_worker.rs:129-188 | a tick attempts the row if and only if it is pending or stuck, due, and its endpoint live, and leaves exactly the row its answer calls for; otherwise it changes nothing but a stuck claim |
| WebhookRetry.CrashedDeliveryIsReaped | crates/kasway-api/src/webhook_worker.rs:131-146 | a delivery whose worker died is taken up by the first tick more than five minutes after its claim and by none before |
| PaymentRace.RunKeepsInv | crates/kasway-api/src/handlers/checkout.rs:61-136 | the invariant behind these results survives every event of every interleaving |
| PaymentRace.StepKeepsRows | crates/kasway-api/src/handlers/checkout.rs:112-136 | one statement of any process keeps the rows consistent: a recorded id always comes with a time within the deadline and status submitted |
| PaymentRace.StepKeepsDuty | crates/kasway-api/src/handlers/invoices.rs:305-346 | a statement that makes such a duty arise binds its own process, a claim of a retired covenant aside, and only a bound process does away with one |
| PaymentRace.ClaimsExactly | crates/kasway-api/src/handlers/checkout.rs:107-138 | the writing half, from whatever rows other processes left, records the transaction if and only if the intent is live, or expired and the submission in time, and holds no other id; otherwise it writes nothing |
| PaymentRace.PaymentTables.ExpireInvoiceNow | crates/kasway-api/src/handlers/invoices.rs:305-348 | the expiry handler, statement by statement, is the uninterrupted run of the modelled process: same rows, same answer |
| PaymentRace.PaymentTables.Reconcile | crates/kasway-api/src/handlers/invoices.rs:321-348 | the read-back restores invoice, intent and cycle when a timely submission is on record and otherwise leaves them |
| PaymentRace.PaymentTables.ExpireIfDue | crates/kasway-api/src/invoice_expirer.rs:33-52 | one pass over an invoice expires it only when it is open and its deadline has come, and otherwise changes nothing; it is the uninterrupted run of the modelled process |
| PaymentRace.PaymentTables.WriteSubmission | crates/kasway-api/src/handlers/checkout.rs:107-138 | claim, reopening and cycle update are the uninterrupted run of the writing half, from whatever rows other processes left |
| PaymentRace.PaymentTables.SubmitPayment | crates/kasway-api/src/handlers/checkout.rs:46-138 | the submission handler is the uninterrupted run of the modelled submitter, refusals in the same order |
| Settlement.LostReplyStrands | crates/kasway-api/src/covenant_keeper.rs:286-289 | an accepted broadcast whose reply is lost leaves nobody who could record it |
| Settlement.DroppedReplyStrands | crates/kasway-api/src/covenant_keeper.rs:336-349 | so does a crash or an error before the first write of the outcome |
| Settlement.PaidToCounts | crates/kasway-api/src/chain_observer.rs:214-219 | an output counts for the amount paid if and only if it pays the covenant address |
| Settlement.RunKeepsInv | crates/kasway-api/src/covenant_keeper.rs:176-296 | the joint invariant of rows, ledger, observer and actors survives every event of every interleaving |
| Settlement.StepKeepsWorld | crates/kasway-api/src/covenant_keeper.rs:213-360 | one statement of an actor keeps the outcome true to the ledger and what the actor knows true of the row |
| Settlement.StepChangesState | crates/kasway-api/src/covenant_keeper.rs:643-666 | a statement changes the covenant state only by claiming a funded row or as the holder of the claim |
| Settlement.OthersKeepKnowledge | crates/kasway-api/src/covenant_keeper.rs:643-666 | another actor's statement leaves what an actor knows true and cannot make it a second holder |
| Settlement.ObserverKeepsInv | crates/kasway-api/src/chain_observer.rs:129-178 | the observer's select, look, write and signal steps keep the invariant although its writes carry no guard on the state |
| Settlement.StepCannotRecord | crates/kasway-api/src/covenant_keeper.rs:251-296 | once the covenant is spent and no reply is in hand, no statement records an outcome |
| Settlement.ClaimsExactly | crates/kasway-api/src/covenant_keeper.rs:643-654 | load and claim go through if and only if the row is funded, the invoice open and, for the keeper, the capture time past, and write nothing but the actor's own claim |
| Settlement.SettlementTables.ClaimFunded | crates/kasway-api/src/covenant_keeper.rs:643-654 | the guarded claim changes a funded row only, and its answer says whether it did |
| Settlement.SettlementTables.RestoreFunded | crates/kasway-api/src/covenant_keeper.rs:657-666 | the restore touches only a row in the claimant's own state |
| Settlement.SettlementTables.Submit | crates/kasway-api/src/covenant_keeper.rs:286-289 | a broadcast spends the covenant exactly when the node accepts it, whether or not the reply arrives |
| Settlement.SettlementTables.MarkSettledPaid | crates/kasway-api/src/covenant_keeper.rs:329-360 | the three writes of a merchant-side settlement, stopping at the first error, are the uninterrupted run of the modelled actor |
| Settlement.SettlementTables.FinalizeRefund | crates/kasway-api/src/covenant_keeper.rs:778-797 | the writes of a refund are the uninterrupted run of the modelled actor |
| Settlement.SettlementTables.SettleClaimed | crates/kasway-api/src/covenant_keeper.rs:589-613 | everything after a won claim is the uninterrupted run of the modelled actor, restore on failure included |
| Settlement.SettlementTables.Settle | crates/kasway-api/src/covenant_keeper.rs:195-236 | a keeper candidate or a settlement request from load to end is the uninterrupted run of the modelled actor, and leaves a row it may not settle alone |
| Settlement.SettlementTables.ObserveCandidate | crates/kasway-api/src/chain_observer.rs:187-263 | the summing loop, the resolved policy and the branches mark the row failed on any other amount than the gross, funded on the gross accepted at least the required scores ago, and otherwise leave it |
| Fees.EstimateCovers | crates/kasway-api/src/kpr1.rs:112-117 | the rounded-up estimate always covers the target, so the upward correction loop never takes a step |
| Fees.RaiseToCover | crates/kasway-api/src/kpr1.rs:115-117 | the upward loop stops at the first total from its start that covers the target |
| Fees.LowerToLeast | crates/kasway-api/src/kpr1.rs:118-120 | the downward loop stops where one less would not cover the target, and counts its steps |
| Fees.FewStepsBack | crates/kasway-api/src/kpr1.rs:118-120 | the number of downward steps is bounded by the fee rate |
| Fees.StopIsLeast | crates/kasway-api/src/kpr1.rs:118-120 | where the downward loop stops, no smaller total at all covers the target |
| Setup.ResolveTaxConfig | crates/kasway-api/src/kpr1.rs:212-226 | a tax is enabled exactly when the setup says so, with a Kaspa address and a positive rate; a disabled one has neither |
| Setup.MerchantAddressExactly | crates/kasway-api/src/kpr1.rs:441-455 | the merchant address is the trimmed column if and only if that is a Kaspa address |
| Setup.RowsResolveInOrder | crates/kasway-api/src/kpr1.rs:241-261 | each accepted split row is the resolution of its own stored row, in order |
| Setup.RefusalIsFirstBadRow | crates/kasway-api/src/kpr1.rs:241-261 | a refused list is refused with the error of its first bad row |
| Setup.ResolveSplitConfig | crates/kasway-api/src/kpr1.rs:228-277 | an accepted split list has at most five rows with distinct identifiers and addresses and a total of at most the whole |
| Setup.SplitsExactly | crates/kasway-api/src/kpr1.rs:228-277 | a split list is accepted if and only if splits are off, or one to five rows resolve with distinct identifiers and addresses and a total of at most the whole |
| Setup.TotalCounts | crates/kasway-api/src/kpr1.rs:262-276 | every rate counts in the total, wherever it stands |
| Setup.SplitRowExactly | crates/kasway-api/src/kpr1.rs:241-261 | a split row is accepted if and only if its trimmed address is a Kaspa address, its trimmed identifier is not empty and its rate is positive, and is what it says |
| Setup.KaspaAddressExactly | crates/kasway-api/src/kpr1.rs:49-62 | a trimmed text is a Kaspa address if and only if a network prefix is followed by at least twelve characters of the alphabet |
| Setup.PercentageRead | crates/kasway-api/src/kpr1.rs:81-95 | an absent or blank percentage is zero, any other what its text says |
| SplitPlan.CheckedAmounts | crates/kasway-api/src/kpr1.rs:470-514 | what the checks on the amounts let through: positive slices, an exact sum and a storage mass within the limit |
| SplitPlan.AmountsFitExactly | crates/kasway-api/src/kpr1.rs:470-514 | the checks on the amounts pass if and only if the amounts fit, and give the plan of these terms |
| SplitPlan.MassOfOne | crates/kasway-api/src/kpr1.rs:498-504 | a positive output weighs 10^12 over its value |
| SplitPlan.PlanShape | crates/kasway-api/src/kpr1.rs:397-526 | the same for every plan the whole computation accepts, with the bound on the number of splits |
| SplitPlan.PushFront | crates/kasway-api/src/kpr1.rs:366-375 | the merchant and tax outputs read back as pushed |
| SplitPlan.PushSplits | crates/kasway-api/src/kpr1.rs:376-384 | the split outputs read back in order, appended to whatever was there |
| SplitPlan.UnreadableIsDropped | crates/kasway-api/src/kpr1.rs:290-302 | a stored output that does not parse is passed over and the others still read |
| Escrow.CompiledTerms | crates/kasway-covenant/src/escrow_v2.rs:59-112 | the compiler is handed exactly these parameters, payout by payout |
| Escrow.Intents.FinalizeCovenant | crates/kasway-api/src/kpr1.rs:783-896 | the finalize handler, check by check, gives the modelled answer and writes the row exactly when it derives a covenant |
| Escrow.Intents.DeriveParams | crates/kasway-api/src/kpr1.rs:826-870 | the parameters are derived in the handler's order of checks |
| Escrow.CollectPayouts | crates/kasway-api/src/kpr1.rs:849-855 | the payout loop converts every output in order or stops at the first bad one with its error |
| Escrow.PayoutsReadExactly | crates/kasway-api/src/kpr1.rs:849-855 | the outputs are read if and only if every address parses and every amount fits 64 bits, each as one payout, in order |
| Escrow.MerchantExactly | crates/kasway-api/src/kpr1.rs:833-845 | the merchant is the first output of that role |
| Escrow.PanelRoundTrip | crates/kasway-api/src/kpr1.rs:877-881 | the panel snapshot reads back as the panel that was baked in |
| Escrow.CastsRoundTrip | crates/kasway-api/src/covenant_keeper.rs:487-495 | a threshold survives being stored as a signed 32-bit column |
| Escrow.StoredColumnsNotNegative | crates/kasway-api/src/kpr1.rs:807-808 | amount and expiry of a row that compiles are not negative, so the wrapping and the checked reading agree |
| Escrow.CompilesExactly | crates/kasway-covenant/src/escrow_v2.rs:59-112 | the constructor succeeds if and only if one to eight payouts sum to a gross of at most 63 bits, customer and merchant are keys, the threshold fits the panel and the capture time fits 63 bits |
| Escrow.PayoutsCarryAmounts | crates/kasway-api/src/kpr1.rs:849-855 | converted payouts carry exactly the stored amounts |
| Escrow.ChangeBalances | crates/kasway-covenant/src/lib.rs:337-341 | appending the change makes outputs plus the miner fee actually taken equal the payouts plus the fee input |
| Text.DecodeHex32Buffer | crates/kasway-api/src/util.rs:76-85 | the buffer-filling decoder agrees with the reference decoding, on malformed input too |
| Text.ParseHexPair | crates/kasway-api/src/util.rs:82 | a pair of hex digits decodes to its value; without a sign, nothing else decodes |
| ArbiterPanel.CheckSorted | crates/kasway-api/src/covenant_keeper.rs:428-441 | the checking loop passes exactly the strictly increasing, in-range, 65-byte lists |
| ArbiterPanel.SortedDistinct | crates/kasway-api/src/covenant_keeper.rs:426-438 | indices are distinct exactly when sorting makes them strictly increasing |
| SubscriptionCell.BuiltClaimIsSpend | crates/kasway-covenant/src/subscription_v1.rs:115-159 | a claim the keeper builds is a spend the script accepts, and leaves the same cell |
| SubscriptionCell.NothingAfterSweep | crates/kasway-covenant/contracts/subscription_v1.sil:46-56 | after a sweep no claim is possible |
| RateLimit.OneWindow | crates/kasway-api/src/rate_limit.rs:64-70 | a window that opened inside the interval alone decides how many requests are admitted |
| RateLimit.TwoWindows | crates/kasway-api/src/rate_limit.rs:64-67 | within the interval at most one more window opens |
| RateLimit.Limiter.OverLimit | crates/kasway-api/src/rate_limit.rs:60-71 | the window, its hits and the verdict after a call are those of the reference step |
| ConfirmationPolicy.NormalizedIsNormal | crates/kasway-api/src/handlers/payment_ops_settings.rs:43-60 | whatever is stored, every count read from it is at least one |
| ConfirmationPolicy.DefaultsRead | crates/kasway-api/src/handlers/payment_ops_settings.rs:41-50 | nothing stored or readable is the empty policy, and an override without a threshold applies from zero |
| ConfirmationPolicy.NormalizeOverrides | crates/kasway-api/src/handlers/payment_ops_settings.rs:42-55 | normalizing keeps exactly the overrides that ask for at least one confirmation |
| Commitment.ReadingsAgreeIffTidy | crates/kasway-api/src/handlers/setups.rs:68-82 | publisher and minter read the same rates exactly when the rows are trimmed |
| Commitment.PlanSources | crates/kasway-api/src/kpr1.rs:446-468 | an accepted plan carries the merchant, tax and splits its setup row resolves to |
| Commitment.CollectRates | crates/kasway-api/src/handlers/setups.rs:68-82 | the publisher's loop collects one rate per row and gives up on the first unreadable one |
| Commitment.TextLeExactly | crates/kasway-api/src/kpr1.rs:172-176 | identifiers are ordered character by character, a prefix first |
| Commitment.NormalizeRow | crates/kasway-api/src/handlers/setups.rs:151-162 | a stored entry is the submitted row with address and identifier trimmed, an identifier that is not empty and the canonical percentage |
| Commitment.RowAcceptedExactly | crates/kasway-api/src/handlers/setups.rs:151-162 | a row is accepted if and only if there is such an entry, and stored as it |
| Commitment.NormalizeRows | crates/kasway-api/src/handlers/setups.rs:150-163 | the loop over the submitted rows gives the entry of every row in order, or stops where one is refused |
| Commitment.StoredEntryIsTidy | crates/kasway-api/src/handlers/setups.rs:162 | an entry the handlers store reads back trimmed |
| Commitment.Setups.Write | crates/kasway-api/src/handlers/setups.rs:180-315 | a write stores exactly the normalized section or changes nothing, and keeps every stored row trimmed |
| Commitment.Setups.CopySections | crates/kasway-api/src/handlers/setups.rs:497-562 | copying replaces exactly the chosen sections of the target row, and keeps every stored row trimmed |
| Commitment.SectionsResolve | crates/kasway-api/src/handlers/setups.rs:534-556 | each copied section resolves as it does where it comes from, the others as before |
| Calendar.AddIntervalIsLater | crates/kasway-api/src/handlers/subscriptions.rs:403-411 | every plan interval leads from a valid moment to a valid, strictly later one |
| Calendar.AddMonthsLands | crates/kasway-api/src/handlers/subscriptions.rs:407-408 | adding months keeps the day and time of day where the target month has that day, and takes its last day otherwise |
| Calendar.AddDaysCounts | crates/kasway-api/src/handlers/subscriptions.rs:405-406 | stepping day by day agrees with the closed-form day number across months and leap years |
| BillingRuns.DateIsLostExactly | crates/kasway-api/src/handlers/subscriptions.rs:658-698 | of all events, exactly such a write takes the date of a live subscription away |
| BillingRuns.BillsOnePeriod | crates/kasway-api/src/handlers/subscriptions.rs:508-540 | one undisturbed call bills exactly the due period of an active subscription, or nothing |
| Billing.DueExactly | crates/kasway-api/src/handlers/subscriptions.rs:508-515 | whatever errors out, a call answers that nothing is due if and only if its load works and the subscription is not active, has no billing date or has one in the future; it then changes nothing |
| BillingRuns.StepKeepsTiling | crates/kasway-api/src/handlers/subscriptions.rs:508-540 | one statement of a billing call keeps periods and billing date on the tiling |
| BillingRuns.StepKeepsCount | crates/kasway-api/src/handlers/subscriptions.rs:434-464 | one statement of a billing call keeps the count of invoices per attempt |
| Billing.FindCycle | crates/kasway-api/src/handlers/subscriptions.rs:523-524 | the lookup by period start finds a cycle exactly when one has that start |
| Billing.OrphanIds | crates/kasway-api/src/subscription_biller.rs:88-96 | the orphan query returns every pending cycle without an invoice, oldest first |
| Billing.BatchExactly | crates/kasway-api/src/subscription_biller.rs:88-96 | the batch holds the oldest orphans of an active subscription, at most fifty, and leaves none out below that |
| Billing.SubscriptionTables.GenerateDueInvoice | crates/kasway-api/src/handlers/subscriptions.rs:508-540 | billing one due period, statement by statement with any of them failing, is the uninterrupted run of the modelled call; nothing is due exactly when the subscription is not active, dateless or early |
| Billing.SubscriptionTables.GenerateInvoiceForCycle | crates/kasway-api/src/handlers/subscriptions.rs:416-475 | invoicing a cycle is the uninterrupted run of the modelled call, refusals and the final snapshot write included |
| Billing.SubscriptionTables.MintInvoice | crates/kasway-api/src/handlers/subscriptions.rs:460-475 | guard, insert, mint and the updates of cycle and snapshot are the uninterrupted run, stopping at the first error |
| Billing.SubscriptionTables.BillDuePeriods | crates/kasway-api/src/subscription_biller.rs:71-85 | the catch-up loop acts as often as its specification says and leaves the same rows |
| Billing.SubscriptionTables.InvoiceOrphans | crates/kasway-api/src/subscription_biller.rs:97-103 | the orphan loop acts as often as its specification says and leaves the same rows |
| Billing.SubscriptionTables.RunTick | crates/kasway-api/src/subscription_biller.rs:56-106 | a tick is the catch-up followed by the orphan pass, counts both, and leaves an inactive subscription alone |
| WebhookRetry.Delivery.MarkFailed | crates/kasway-api/src/webhook_worker.rs:303-343 | recording a failure fails the row at the maximum of attempts and otherwise schedules the next one |
| WebhookRetry.Delivery.RunTick | crates/kasway-api/src/webhook_worker.rs:129-188 | a tick over the row is the uninterrupted run of the modelled worker |

## Left out

- HTTP routing, authentication, captcha, OAuth, media, pagination and response
  serialisation: input and output around the modelled code.
- Cryptography, the contract compiler and address parsing and encoding: function
  parameters (`Chain` in `Escrow.dfy`); hashing is left out of the commitment,
  whose canonical input is modelled instead.
- The text of JSON columns and the SQL engine: columns hold values, a statement
  is one step. Timestamps are compared as moments; `Calendar.IsoOrder` says why
  that agrees with comparing their text, for years 0 to 9999.
- The floating-point parsing and rounding of percentages: the functions
  `Numerals` and `PercentRules`, about which nothing is assumed.
- Overflow of intermediate 128-bit products, of the 32-bit hit counter and of
  sums of unsigned amounts in the spends; amounts that reach 64-bit columns are
  bounded explicitly.
- Overlapping finalize requests, which write without a guard, and the expiry that
  a late finalize runs on the side: `Escrow.Finalize` is one step.
- Fetching an intent and cancelling an invoice write without guards; they are not
  part of the deadline race. A cancelled invoice does occur in `Settlement.dfy`.
- Intents and invoices without a deadline, which the minting code never stores.
- Columns that no decision reads: update times, metadata, observation and
  checkpoint rows, the reason and version of a confirmation policy.
- The store entitlement check is a flag of the submission.
- Several observers, several billers on one subscription, several webhook
  workers, and more than one funding output of exactly the gross.
- Batches: the keeper, the expirer, the biller and the webhook worker are
  modelled for one row of their batch, so the counters of their ticks over many
  rows are not, except within one subscription.
- An undisturbed keeper always wins the claim it has just seen free, so the
  branch for a lost claim appears in the interleavings but not in the class.
- Release of a claimed row after a crash, and completion of a half-minted cycle:
  the code gives neither.
- The classes of the deadline race run without errors; failing statements occur in
  the interleavings. After an error the expirer's caller may log and go on, which
  changes no row.
- A wall clock that goes back: webhook deliveries assume it does not. Billing takes
  whatever each statement reads.
- Changes of a plan's interval between two periods: billing has one interval.
- Two entry points of the setup handlers differ in which missing fields fall back
  to the stored row; the section they end up writing is modelled, that merge is not.
- The withdrawal of a subscription cell by its customer, which the script leaves
  unconstrained.
- The pocket autopay keeper that decides when to claim a cell, and payment links.
